/**
 * The authentication middleware. `protect` takes the bearer token from the
 * Authorization header, decodes it, and loads the caller's record from the
 * collection its role claim names; the loaded record and the claim become
 * the `Principal` every handler receives. Token signature checking is the
 * parameter `verify`, which yields the decoded claims or nothing when the
 * token is missing, malformed, forged or expired.
 */
module Auth {
  import opened Common
  import opened Entities
  import opened Database

  /** The claims of a decoded token: `{ id, role }`. */
  datatype Claims = Claims(id: Id, role: string)

  /** `header.startsWith("Bearer")`. */
  predicate StartsWithBearer(h: string)
  {
    |h| >= 6 && h[..6] == "Bearer"
  }

  /** The text of `s` before its first space. */
  function BeforeSpace(s: string): (r: string)
    ensures |r| <= |s| && r == s[..|r|]
    ensures forall i :: 0 <= i < |r| ==> r[i] != ' '
    ensures |r| < |s| ==> s[|r|] == ' '
  {
    if |s| == 0 || s[0] == ' ' then "" else [s[0]] + BeforeSpace(s[1..])
  }

  /**
   * `header.split(" ")[1]`: the text between the first and the second
   * space, or `undefined` when there is no space at all.
   */
  function SecondWord(h: string): (r: Option<string>)
    ensures r.None? <==> forall i :: 0 <= i < |h| ==> h[i] != ' '
    ensures r.Some? ==>
      var n := |BeforeSpace(h)|;
      && n < |h| && h[n] == ' '
      && n + 1 + |r.value| <= |h| && h[n + 1..n + 1 + |r.value|] == r.value
      && (forall i :: 0 <= i < |r.value| ==> r.value[i] != ' ')
      && (n + 1 + |r.value| < |h| ==> h[n + 1 + |r.value|] == ' ')
  {
    var first := BeforeSpace(h);
    if |first| == |h| then None else Some(BeforeSpace(h[|first| + 1..]))
  }

  /**
   * `protect`: 401 (`None`) without a Bearer header, when the token does
   * not verify, or when the record its claims name is missing; otherwise
   * the caller. Role "admin" is looked up among administrators, "agent"
   * among agents, and every other role among users.
   */
  function Protect(db: Db, authorization: Option<string>, verify: Option<string> -> Option<Claims>)
    : (r: Option<Principal>)
    reads db
    ensures authorization.None? || !StartsWithBearer(authorization.value) ==> r.None?
    ensures r.Some? ==>
      var c := verify(SecondWord(authorization.value));
      && c.Some? && r.value.id == c.value.id && r.value.tokenRole == c.value.role
      && (c.value.role == "admin" ==>
            c.value.id in db.admins && r.value.roleField == db.admins[c.value.id].role && r.value.statusField.None?)
      && (c.value.role == "agent" ==>
            c.value.id in db.agents && r.value.roleField.None? &&
            r.value.statusField == Some(db.agents[c.value.id].status))
      && (c.value.role != "admin" && c.value.role != "agent" ==>
            c.value.id in db.users && r.value.roleField == Some(db.users[c.value.id].role) && r.value.statusField.None?)
    ensures authorization.Some? && StartsWithBearer(authorization.value) ==>
      var c := verify(SecondWord(authorization.value));
      (r.None? <==> c.None? ||
                    (c.value.role == "admin" && c.value.id !in db.admins) ||
                    (c.value.role == "agent" && c.value.id !in db.agents) ||
                    (c.value.role != "admin" && c.value.role != "agent" && c.value.id !in db.users))
  {
    if authorization.None? || !StartsWithBearer(authorization.value) then None
    else
      var c := verify(SecondWord(authorization.value));
      if c.None? then None
      else
        var id := c.value.id;
        var role := c.value.role;
        if role == "admin" then
          if id in db.admins then Some(Principal(id, db.admins[id].role, None, role)) else None
        else if role == "agent" then
          if id in db.agents then Some(Principal(id, None, Some(db.agents[id].status), role)) else None
        else
          if id in db.users then Some(Principal(id, Some(db.users[id].role), None, role)) else None
  }

  /** `agentProtect`: the loaded record's `status` is "approved"; the role is not consulted. */
  predicate AgentProtect(p: Principal)
  {
    p.statusField == Some(AgentApproved)
  }

  /** `adminProtect`: the token's role claim is "admin"; the record's own role is not consulted. */
  predicate AdminProtect(p: Principal)
  {
    p.tokenRole == "admin"
  }

  /**
   * Only agent records carry a status, so a caller that passes both
   * `protect` and `agentProtect` holds an agent token of an approved agent.
   */
  lemma AgentGateAdmitsApprovedAgents(db: Db, authorization: Option<string>, verify: Option<string> -> Option<Claims>)
    requires Protect(db, authorization, verify).Some?
    ensures var p := Protect(db, authorization, verify).value;
      AgentProtect(p) <==> p.tokenRole == "agent" && p.id in db.agents && db.agents[p.id].status == AgentApproved
  {
  }

  /** A caller that passes both `protect` and `adminProtect` holds an administrator record. */
  lemma AdminGateAdmitsAdministrators(db: Db, authorization: Option<string>, verify: Option<string> -> Option<Claims>)
    requires Protect(db, authorization, verify).Some?
    ensures var p := Protect(db, authorization, verify).value;
      AdminProtect(p) ==> p.id in db.admins
  {
  }

  /**
   * Agent records have no role field, so a handler's `req.user.role ===
   * "agent"` test never holds for a caller signed in as an agent.
   */
  lemma AgentsHaveNoRole(db: Db, authorization: Option<string>, verify: Option<string> -> Option<Claims>, role: string)
    requires Protect(db, authorization, verify).Some?
    requires Protect(db, authorization, verify).value.tokenRole == "agent"
    ensures !HasRole(Protect(db, authorization, verify).value, role)
  {
  }

  /**
   * A user record whose role field is "admin" passes the handlers'
   * `req.user.role === "admin"` tests but not `adminProtect`.
   */
  lemma UserRoleAdminIsNotAdminToken(db: Db, authorization: Option<string>, verify: Option<string> -> Option<Claims>)
    requires authorization.Some? && StartsWithBearer(authorization.value)
    requires var c := verify(SecondWord(authorization.value));
      c.Some? && c.value.role == "user" && c.value.id in db.users && db.users[c.value.id].role == "admin"
    ensures Protect(db, authorization, verify).Some?
    ensures HasRole(Protect(db, authorization, verify).value, "admin")
    ensures !AdminProtect(Protect(db, authorization, verify).value)
  {
  }
}
