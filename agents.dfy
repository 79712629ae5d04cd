/**
 * The agent controller: agent registration and login with the approval
 * gate, the agent's profile, the agent's own listings, decisions on
 * inspection requests, and an older booking decision handler that no route
 * reaches. Password hashing and comparison are the parameters `hash` and
 * `passwordMatches`.
 */
module Agents {
  import opened Common
  import opened Entities
  import opened Database
  import Bookings
  import Apartments

  /** Some agent record has this e-mail. */
  predicate AgentEmailTaken(ags: map<Id, Agent>, email: string)
  {
    exists k :: k in ags && ags[k].email == email
  }

  /** `POST /agents/register` (registerAgent): a new agent waits for approval. */
  method RegisterAgent(db: Db, name: Option<string>, email: Option<string>, password: Option<string>,
                       phone: Option<string>, certificate: Option<string>, hash: string -> string)
    returns (code: Code, agentId: Id)
    requires db.Valid()
    modifies db`agents, db`nextId
    ensures db.Valid()
    ensures code == BadRequest <==>
      !Truthy(name) || !Truthy(email) || !Truthy(password) || !Truthy(phone) ||
      AgentEmailTaken(old(db.agents), email.value)
    ensures code in {Created, BadRequest}
    ensures code == Created ==>
      && agentId == old(db.nextId)
      && db.agents == old(db.agents)[agentId :=
           Agent(name.value, email.value, phone.value, hash(password.value), certificate, AgentPending)]
      && db.nextId == old(db.nextId) + 1
    ensures code != Created ==> unchanged(db)
  {
    agentId := db.nextId;
    if !Truthy(name) || !Truthy(email) || !Truthy(password) || !Truthy(phone) {
      return BadRequest, agentId;
    }
    if AgentEmailTaken(db.agents, email.value) {
      return BadRequest, agentId;
    }
    db.agents := db.agents[agentId := Agent(name.value, email.value, phone.value, hash(password.value), certificate, AgentPending)];
    db.nextId := db.nextId + 1;
    code := Created;
  }

  /** The agent with this e-mail whose password matches, if there is one. */
  predicate CredentialsMatch(ags: map<Id, Agent>, email: string, password: string,
                             passwordMatches: (string, string) -> bool)
  {
    exists k :: k in ags && ags[k].email == email && passwordMatches(password, ags[k].password)
  }

  /**
   * `POST /agents/login` (loginAgent): 400 without an e-mail or password,
   * 401 for unknown credentials, and 403 for correct credentials of an agent
   * that is not approved.
   */
  method LoginAgent(db: Db, email: Option<string>, password: Option<string>,
                    passwordMatches: (string, string) -> bool) returns (code: Code, agentId: Option<Id>)
    requires db.Valid()
    ensures code == BadRequest <==> !Truthy(email) || !Truthy(password)
    ensures code == Unauthorized <==>
      Truthy(email) && Truthy(password) && !CredentialsMatch(db.agents, email.value, password.value, passwordMatches)
    ensures code == Forbidden <==>
      Truthy(email) && Truthy(password) &&
      exists k :: k in db.agents && db.agents[k].email == email.value &&
                  passwordMatches(password.value, db.agents[k].password) && db.agents[k].status != AgentApproved
    ensures code in {Ok, BadRequest, Unauthorized, Forbidden}
    ensures agentId.Some? <==> code == Ok
    ensures code == Ok ==>
      && agentId.value in db.agents && db.agents[agentId.value].email == email.value
      && passwordMatches(password.value, db.agents[agentId.value].password)
      && db.agents[agentId.value].status == AgentApproved
  {
    if !Truthy(email) || !Truthy(password) {
      return BadRequest, None;
    }
    if !AgentEmailTaken(db.agents, email.value) {
      return Unauthorized, None;
    }
    var k :| k in db.agents && db.agents[k].email == email.value;
    if !passwordMatches(password.value, db.agents[k].password) {
      return Unauthorized, None;
    }
    if db.agents[k].status != AgentApproved {
      return Forbidden, None;
    }
    code, agentId := Ok, Some(k);
  }

  /** `PUT /agents/profile` (updateAgentProfile): truthy name and phone replace the stored ones. */
  method UpdateAgentProfile(db: Db, caller: Principal, name: Option<string>, phone: Option<string>) returns (code: Code)
    requires db.Valid()
    modifies db`agents
    ensures db.Valid()
    ensures code == NotFound <==> caller.id !in old(db.agents)
    ensures code in {Ok, NotFound}
    ensures code == Ok ==>
      var a := old(db.agents[caller.id]);
      db.agents == old(db.agents)[caller.id := a.(name := OrDefault(name, a.name), phone := OrDefault(phone, a.phone))]
    ensures code != Ok ==> unchanged(db)
  {
    if caller.id !in db.agents {
      return NotFound;
    }
    var a := db.agents[caller.id];
    db.agents := db.agents[caller.id := a.(name := OrDefault(name, a.name), phone := OrDefault(phone, a.phone))];
    code := Ok;
  }

  /** The profile update touches neither the credentials nor the approval status. */
  lemma ProfileUpdateKeepsStatus(a: Agent, name: Option<string>, phone: Option<string>)
    ensures var b := a.(name := OrDefault(name, a.name), phone := OrDefault(phone, a.phone));
      && b.email == a.email && b.password == a.password && b.status == a.status
      && b.certificate == a.certificate
      && (!Truthy(name) && !Truthy(phone) ==> b == a)
  {
  }

  /**
   * `POST /agents/apartments` (createApartment in the agent controller):
   * unlike the apartment controller's handler it also requires `images`.
   */
  method CreateApartment(db: Db, caller: Principal, location: Option<string>, price: Option<int>,
                         category: Option<string>, description: Option<string>, images: Option<seq<string>>)
    returns (code: Code, apartmentId: Id)
    requires db.Valid()
    modifies db`apartments, db`nextId
    ensures db.Valid()
    ensures code == BadRequest <==>
      !Truthy(location) || !TruthyNumber(price) || !Truthy(category) || !Truthy(description) || images.None?
    // a category outside the schema's list fails validation
    ensures code == ServerError <==>
      Truthy(location) && TruthyNumber(price) && Truthy(category) && Truthy(description) && images.Some? &&
      ParseCategory(category.value).None?
    ensures code in {Created, BadRequest, ServerError}
    ensures code == Created ==>
      && apartmentId == old(db.nextId)
      && db.apartments == old(db.apartments)[apartmentId :=
           Apartments.NewApartment(caller.id, location.value, price.value, ParseCategory(category.value).value,
                                   description.value, images)]
      && db.apartments[apartmentId].availability
      && db.nextId == old(db.nextId) + 1
    ensures code != Created ==> unchanged(db)
  {
    apartmentId := db.nextId;
    if !Truthy(location) || !TruthyNumber(price) || !Truthy(category) || !Truthy(description) || images.None? {
      return BadRequest, apartmentId;
    }
    var c := ParseCategory(category.value);
    if c.None? {
      return ServerError, apartmentId;
    }
    db.apartments := db.apartments[apartmentId :=
      Apartments.NewApartment(caller.id, location.value, price.value, c.value, description.value, images)];
    db.nextId := db.nextId + 1;
    code := Created;
  }

  /** A field the agent controller patches only when it is truthy. */
  function WhenTruthy(s: Option<string>): (r: Option<string>)
    ensures r.Some? <==> Truthy(s)
    ensures r.Some? ==> r == s
  {
    if Truthy(s) then s else None
  }

  function WhenTruthyNumber(n: Option<int>): (r: Option<int>)
    ensures r.Some? <==> TruthyNumber(n)
    ensures r.Some? ==> r == n
  {
    if TruthyNumber(n) then n else None
  }

  /**
   * The agent controller's patch: truthy location, price, category and
   * description and a supplied images array replace the stored ones;
   * availability is replaced whenever it is defined, `false` included.
   */
  function AgentPatched(a: Apartment, location: Option<string>, price: Option<int>, category: Option<Category>,
                        description: Option<string>, images: Option<seq<string>>, availability: Option<bool>)
    : (r: Apartment)
    ensures r.location == OrDefault(location, a.location)
    ensures r.price == (if TruthyNumber(price) then price.value else a.price)
    ensures r.description == OrDefault(description, a.description)
    ensures r.images == (if images.Some? then images.value else a.images)
    ensures r.availability == (if availability.Some? then availability.value else a.availability)
    ensures r.agent == a.agent && r.averageTenths == a.averageTenths && r.totalReviews == a.totalReviews
  {
    Apartments.PatchedApartment(a, WhenTruthy(location), WhenTruthyNumber(price), category,
                                WhenTruthy(description), images, availability)
  }

  /**
   * Where no supplied field is empty or zero, the agent controller's patch
   * and the apartment controller's patch agree; an empty location is
   * ignored by the first and stored by the second.
   */
  lemma PatchesAgreeOnTruthyFields(a: Apartment, location: Option<string>, price: Option<int>, category: Option<Category>,
                                   description: Option<string>, images: Option<seq<string>>, availability: Option<bool>)
    ensures (location.Some? ==> Truthy(location)) && (price.Some? ==> TruthyNumber(price)) &&
            (description.Some? ==> Truthy(description)) ==>
      AgentPatched(a, location, price, category, description, images, availability) ==
      Apartments.PatchedApartment(a, location, price, category, description, images, availability)
    ensures AgentPatched(a, Some(""), None, None, None, None, None) == a
    ensures a.location != "" ==> Apartments.PatchedApartment(a, Some(""), None, None, None, None, None) != a
  {
  }

  /** The category a truthy category field names; a falsy one is not applied. */
  function PatchCategory(category: Option<string>): (r: Option<Category>)
    ensures !Truthy(category) ==> r.None?
    ensures Truthy(category) ==> r == ParseCategory(category.value)
  {
    if Truthy(category) then ParseCategory(category.value) else None
  }

  /** `PUT /agents/apartments/:id` (updateApartment in the agent controller). */
  method UpdateApartment(db: Db, caller: Principal, apartmentId: Id, location: Option<string>, price: Option<int>,
                         category: Option<string>, description: Option<string>, images: Option<seq<string>>,
                         availability: Option<bool>) returns (code: Code)
    requires db.Valid()
    modifies db`apartments
    ensures db.Valid()
    ensures code == NotFound <==> apartmentId !in old(db.apartments)
    ensures code == Forbidden <==>
      apartmentId in old(db.apartments) && old(db.apartments[apartmentId].agent) != caller.id
    // only the category can break the schema: empty strings are never written
    ensures code == ServerError <==>
      apartmentId in old(db.apartments) && old(db.apartments[apartmentId].agent) == caller.id &&
      Truthy(category) && ParseCategory(category.value).None?
    ensures code in {Ok, NotFound, Forbidden, ServerError}
    ensures code == Ok ==>
      db.apartments == old(db.apartments)[apartmentId :=
        AgentPatched(old(db.apartments[apartmentId]), location, price, PatchCategory(category),
                     description, images, availability)]
    ensures code != Ok ==> unchanged(db)
  {
    if apartmentId !in db.apartments {
      return NotFound;
    }
    if db.apartments[apartmentId].agent != caller.id {
      return Forbidden;
    }
    if Truthy(category) && ParseCategory(category.value).None? {
      return ServerError;
    }
    db.apartments := db.apartments[apartmentId :=
      AgentPatched(db.apartments[apartmentId], location, price, PatchCategory(category), description, images, availability)];
    code := Ok;
  }

  /** The status named by `status`, if the agent controller lets an agent set it: pending is allowed again. */
  function AgentInspectionDecision(status: string): (r: Option<InspectionStatus>)
    ensures r.Some? <==> status in {"approved", "rejected", "pending"}
    ensures r.Some? ==> InspectionStatusName(r.value) == status
  {
    if status == "approved" then Some(InspectionApproved)
    else if status == "rejected" then Some(InspectionRejected)
    else if status == "pending" then Some(InspectionPending)
    else None
  }

  /**
   * `PUT /agents/inspections/:id` (updateInspectionStatus in the agent
   * controller): ownership is the request's own `agent` field, and the
   * current status is not consulted, so a decided request can be reopened.
   */
  method UpdateInspectionStatus(db: Db, caller: Principal, requestId: Id, status: string) returns (code: Code)
    requires db.Valid()
    modifies db`inspections
    ensures db.Valid()
    ensures code == BadRequest <==> AgentInspectionDecision(status).None?
    ensures code == NotFound <==> AgentInspectionDecision(status).Some? && requestId !in old(db.inspections)
    ensures code == Forbidden <==>
      AgentInspectionDecision(status).Some? && requestId in old(db.inspections) &&
      old(db.inspections[requestId].agent) != caller.id
    ensures code in {Ok, BadRequest, NotFound, Forbidden}
    ensures code == Ok ==>
      db.inspections == old(db.inspections)[requestId :=
        old(db.inspections[requestId]).(status := AgentInspectionDecision(status).value)]
    ensures code != Ok ==> unchanged(db)
  {
    var s := AgentInspectionDecision(status);
    if s.None? {
      return BadRequest;
    }
    if requestId !in db.inspections {
      return NotFound;
    }
    if db.inspections[requestId].agent != caller.id {
      return Forbidden;
    }
    db.inspections := db.inspections[requestId := db.inspections[requestId].(status := s.value)];
    code := Ok;
  }

  /** The agent controller accepts every decision the inspection controller accepts, and "pending" besides. */
  lemma AgentDecisionsWiden(status: string)
    ensures AgentInspectionDecision("pending") == Some(InspectionPending)
    ensures (status == "approved" || status == "rejected") ==> AgentInspectionDecision(status).Some?
    ensures AgentInspectionDecision(status).Some? && status != "pending" ==> status in {"approved", "rejected"}
  {
  }

  /**
   * `updateBookingStatus` in the agent controller, which no route imports.
   * The status is stored without the controller checking it; the schema's
   * enum refuses unknown names on save. Only "rejected" frees the
   * apartment, and it does so before the booking is saved.
   */
  method UpdateBookingStatus(db: Db, caller: Principal, bookingId: Id, status: string) returns (code: Code)
    requires db.Valid()
    modifies db`bookings, db`apartments
    ensures db.Valid()
    ensures code == NotFound <==> bookingId !in old(db.bookings)
    ensures code == Forbidden <==>
      bookingId in old(db.bookings) && old(db.bookings[bookingId].apartment) in old(db.apartments) &&
      old(db.apartments[db.bookings[bookingId].apartment].agent) != caller.id
    ensures code in {Ok, NotFound, Forbidden, ServerError}
    ensures code == Ok || code == ServerError ==>
      bookingId in old(db.bookings) &&
      (var b := old(db.bookings[bookingId]);
       var s := ParseBookingStatus(status);
       // the apartment is freed first, and stays freed if the booking save then fails
       && (b.apartment in old(db.apartments) && old(db.apartments[b.apartment].agent) == caller.id && status == "rejected" ==>
             db.apartments == Bookings.WithAvailability(old(db.apartments), b.apartment, true))
       && (status != "rejected" || b.apartment !in old(db.apartments) ==> db.apartments == old(db.apartments))
       // a null populated apartment throws; an unknown status or an index collision fails the save
       && (code == Ok <==> b.apartment in old(db.apartments) && s.Some? &&
                           !BookingSaveConflicts(old(db.bookings), bookingId, b.(status := s.value)))
       && (code == Ok ==> db.bookings == old(db.bookings)[bookingId := b.(status := s.value)])
       && (code == ServerError ==> db.bookings == old(db.bookings)))
    ensures code in {NotFound, Forbidden} ==> unchanged(db)
  {
    if bookingId !in db.bookings {
      return NotFound;
    }
    var b := db.bookings[bookingId];
    if b.apartment !in db.apartments {
      // `booking.apartment._id` on a null populated apartment throws
      return ServerError;
    }
    if db.apartments[b.apartment].agent != caller.id {
      return Forbidden;
    }
    if status == "rejected" {
      db.apartments := Bookings.WithAvailability(db.apartments, b.apartment, true);
    }
    var s := ParseBookingStatus(status);
    if s.None? {
      // the enum validator refuses the name
      return ServerError;
    }
    var updated := b.(status := s.value);
    if BookingSaveConflicts(db.bookings, bookingId, updated) {
      return ServerError;
    }
    BookingSaveKeepsIndex(db.bookings, bookingId, updated);
    db.bookings := db.bookings[bookingId := updated];
    code := Ok;
  }
}
