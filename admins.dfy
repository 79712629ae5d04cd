/**
 * The admin controller: administrator registration and login, the approval
 * and removal of agents, and the administrators' report status switch.
 * Password hashing and comparison are the parameters `hash` and
 * `passwordMatches`. The admin schema (adminModel.js) is not part of this
 * model, so whatever role it gives a new record is the parameter
 * `schemaRole`.
 */
module Admins {
  import opened Common
  import opened Entities
  import opened Database

  /** Some administrator record has this e-mail. */
  predicate AdminEmailTaken(ads: map<Id, Admin>, email: string)
  {
    exists k :: k in ads && ads[k].email == email
  }

  /** `POST /admin/register` (registerAdmin). */
  method RegisterAdmin(db: Db, name: Option<string>, email: Option<string>, password: Option<string>,
                       hash: string -> string, schemaRole: Option<string>) returns (code: Code, adminId: Id)
    requires db.Valid()
    modifies db`admins, db`nextId
    ensures db.Valid()
    ensures code == BadRequest <==>
      !Truthy(name) || !Truthy(email) || !Truthy(password) || AdminEmailTaken(old(db.admins), email.value)
    ensures code in {Created, BadRequest}
    ensures code == Created ==>
      && adminId == old(db.nextId)
      && db.admins == old(db.admins)[adminId := Admin(name.value, email.value, hash(password.value), schemaRole)]
      && db.nextId == old(db.nextId) + 1
    ensures code != Created ==> unchanged(db)
  {
    adminId := db.nextId;
    if !Truthy(name) || !Truthy(email) || !Truthy(password) {
      return BadRequest, adminId;
    }
    if AdminEmailTaken(db.admins, email.value) {
      return BadRequest, adminId;
    }
    db.admins := db.admins[adminId := Admin(name.value, email.value, hash(password.value), schemaRole)];
    db.nextId := db.nextId + 1;
    code := Created;
  }

  /**
   * `POST /admin/login` (loginAdmin): 400 without an e-mail or password,
   * 401 for an unknown e-mail or a wrong password.
   */
  method LoginAdmin(db: Db, email: Option<string>, password: Option<string>,
                    passwordMatches: (string, string) -> bool) returns (code: Code, adminId: Option<Id>)
    requires db.Valid()
    ensures code == BadRequest <==> !Truthy(email) || !Truthy(password)
    ensures code == Unauthorized <==>
      Truthy(email) && Truthy(password) &&
      !exists k :: k in db.admins && db.admins[k].email == email.value && passwordMatches(password.value, db.admins[k].password)
    ensures code in {Ok, BadRequest, Unauthorized}
    ensures adminId.Some? <==> code == Ok
    ensures code == Ok ==>
      adminId.value in db.admins && db.admins[adminId.value].email == email.value &&
      passwordMatches(password.value, db.admins[adminId.value].password)
  {
    if !Truthy(email) || !Truthy(password) {
      return BadRequest, None;
    }
    if !AdminEmailTaken(db.admins, email.value) {
      return Unauthorized, None;
    }
    var k :| k in db.admins && db.admins[k].email == email.value;
    if !passwordMatches(password.value, db.admins[k].password) {
      return Unauthorized, None;
    }
    code, adminId := Ok, Some(k);
  }

  /** The status an administrator may give an agent: approved or rejected, never back to pending. */
  function AgentVerdict(status: string): (r: Option<AgentStatus>)
    ensures r.Some? <==> status in {"approved", "rejected"}
    ensures r.Some? ==> AgentStatusName(r.value) == status && r.value != AgentPending
  {
    if status == "approved" then Some(AgentApproved)
    else if status == "rejected" then Some(AgentRejected)
    else None
  }

  /** `PUT /admin/agents/:id/status` (updateAgentStatus). */
  method UpdateAgentStatus(db: Db, agentId: Id, status: string) returns (code: Code)
    requires db.Valid()
    modifies db`agents
    ensures db.Valid()
    ensures code == BadRequest <==> AgentVerdict(status).None?
    ensures code == NotFound <==> AgentVerdict(status).Some? && agentId !in old(db.agents)
    ensures code in {Ok, BadRequest, NotFound}
    ensures code == Ok ==>
      db.agents == old(db.agents)[agentId := old(db.agents[agentId]).(status := AgentVerdict(status).value)]
    ensures code != Ok ==> unchanged(db)
  {
    var v := AgentVerdict(status);
    if v.None? {
      return BadRequest;
    }
    if agentId !in db.agents {
      return NotFound;
    }
    db.agents := db.agents[agentId := db.agents[agentId].(status := v.value)];
    code := Ok;
  }

  /** The agent owns at least one apartment: `countDocuments({ agent: id }) > 0`. */
  predicate OwnsApartments(apts: map<Id, Apartment>, agentId: Id)
  {
    exists k :: k in apts && apts[k].agent == agentId
  }

  /** `DELETE /admin/agents/:id` (deleteAgent): an agent with listings is kept. */
  method DeleteAgent(db: Db, agentId: Id) returns (code: Code)
    requires db.Valid()
    modifies db`agents
    ensures db.Valid()
    ensures code == NotFound <==> agentId !in old(db.agents)
    ensures code == BadRequest <==> agentId in old(db.agents) && OwnsApartments(db.apartments, agentId)
    ensures code in {Ok, NotFound, BadRequest}
    ensures code == Ok ==> db.agents == old(db.agents) - {agentId}
    // the deletion leaves no listing pointing at the removed agent
    ensures code == Ok ==> forall k :: k in db.apartments ==> db.apartments[k].agent != agentId
    ensures code != Ok ==> unchanged(db)
  {
    if agentId !in db.agents {
      return NotFound;
    }
    if OwnsApartments(db.apartments, agentId) {
      return BadRequest;
    }
    db.agents := db.agents - {agentId};
    code := Ok;
  }

  /** The status an administrator may give a report: open or resolved. */
  function AdminReportStatus(status: string): (r: Option<ReportStatus>)
    ensures r.Some? <==> status in {"open", "resolved"}
    ensures r.Some? ==> ReportStatusName(r.value) == status
  {
    if status == "open" then Some(Open)
    else if status == "resolved" then Some(Resolved)
    else None
  }

  /** `PUT /admin/reports/:id/status` (updateReportStatus): a resolved report can be reopened. */
  method UpdateReportStatus(db: Db, reportId: Id, status: string) returns (code: Code)
    requires db.Valid()
    modifies db`reports
    ensures db.Valid()
    ensures code == BadRequest <==> AdminReportStatus(status).None?
    ensures code == NotFound <==> AdminReportStatus(status).Some? && reportId !in old(db.reports)
    ensures code in {Ok, BadRequest, NotFound}
    ensures code == Ok ==>
      db.reports == old(db.reports)[reportId := old(db.reports[reportId]).(status := AdminReportStatus(status).value)]
    ensures code != Ok ==> unchanged(db)
  {
    var s := AdminReportStatus(status);
    if s.None? {
      return BadRequest;
    }
    if reportId !in db.reports {
      return NotFound;
    }
    db.reports := db.reports[reportId := db.reports[reportId].(status := s.value)];
    code := Ok;
  }
}
