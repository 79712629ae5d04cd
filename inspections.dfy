/**
 * The inspection controller: a user asks to view an available apartment on
 * a day that has not passed, may cancel or move a pending request, the
 * apartment's agent approves, rejects and completes requests, and anyone
 * entitled may read one. `now` is the clock and `offset` the server's time
 * zone, in milliseconds ahead of UTC, for the "today at midnight" checks.
 */
module Inspections {
  import opened Common
  import opened Entities
  import opened Database

  /** The user has a pending inspection request for the apartment. */
  predicate HasPendingRequest(ins: map<Id, Inspection>, user: Id, apartment: Id)
  {
    exists k :: k in ins && ins[k].user == user && ins[k].apartment == apartment && ins[k].status == InspectionPending
  }

  /** `requestedDate < today` after `today.setHours(0, 0, 0, 0)`. */
  predicate BeforeToday(date: Time, now: Time, offset: int)
  {
    date < LocalMidnight(now, offset)
  }

  /** The request `requestInspection` stores. */
  function NewInspection(user: Id, apartment: Apartment, apartmentId: Id, date: Time,
                         time: Option<string>, message: Option<string>): Inspection
  {
    Inspection(user, apartment.agent, apartmentId, date, OrDefault(time, "10:00 AM"),
               Some(OrDefault(message, "")), InspectionPending, None, None, false, None)
  }

  /** `POST /inspections` (requestInspection in the inspection controller). */
  method RequestInspection(db: Db, caller: Principal, apartmentId: Option<Id>, date: Option<Time>,
                           time: Option<string>, message: Option<string>, now: Time, offset: int)
    returns (code: Code, requestId: Id)
    requires db.Valid()
    modifies db`inspections, db`nextId
    ensures db.Valid()
    ensures code == NotFound <==> apartmentId.Some? && date.Some? && apartmentId.value !in old(db.apartments)
    ensures code == BadRequest <==>
      apartmentId.None? || date.None? ||
      (apartmentId.value in old(db.apartments) &&
       (!old(db.apartments[apartmentId.value].availability) ||
        HasPendingRequest(old(db.inspections), caller.id, apartmentId.value) ||
        BeforeToday(date.value, now, offset)))
    ensures code in {Created, BadRequest, NotFound}
    ensures code == Created ==>
      && requestId == old(db.nextId)
      && db.inspections == old(db.inspections)[requestId :=
           NewInspection(caller.id, old(db.apartments[apartmentId.value]), apartmentId.value, date.value, time, message)]
      && db.nextId == old(db.nextId) + 1
    ensures code != Created ==> unchanged(db)
  {
    requestId := db.nextId;
    if apartmentId.None? || date.None? {
      return BadRequest, requestId;
    }
    if apartmentId.value !in db.apartments {
      return NotFound, requestId;
    }
    var apartment := db.apartments[apartmentId.value];
    if !apartment.availability {
      return BadRequest, requestId;
    }
    if HasPendingRequest(db.inspections, caller.id, apartmentId.value) {
      return BadRequest, requestId;
    }
    if BeforeToday(date.value, now, offset) {
      return BadRequest, requestId;
    }
    db.inspections := db.inspections[requestId :=
      NewInspection(caller.id, apartment, apartmentId.value, date.value, time, message)];
    db.nextId := db.nextId + 1;
    code := Created;
  }

  /** A date on the current local day passes the "not in the past" check. */
  lemma {:induction false} SameDayAccepted(date: Time, now: Time, offset: int)
    requires (date + offset) / DayMs == (now + offset) / DayMs
    ensures !BeforeToday(date, now, offset)
  {
    var d := (now + offset) / DayMs;
    assert now + offset == d * DayMs + (now + offset) % DayMs;
    assert date + offset == d * DayMs + (date + offset) % DayMs;
    assert LocalMidnight(now, offset) + offset == d * DayMs;
  }

  /** A date on an earlier local day fails it. */
  lemma {:induction false} EarlierDayRejected(date: Time, now: Time, offset: int)
    requires (date + offset) / DayMs < (now + offset) / DayMs
    ensures BeforeToday(date, now, offset)
  {
    var d := (now + offset) / DayMs;
    var e := (date + offset) / DayMs;
    assert now + offset == d * DayMs + (now + offset) % DayMs;
    assert date + offset == e * DayMs + (date + offset) % DayMs;
    assert e * DayMs + DayMs <= d * DayMs by {
      MulMonotone(DayMs, e + 1, d);
    }
  }

  /** `PUT /inspections/:requestId/cancel` (cancelInspectionRequest). */
  method CancelInspectionRequest(db: Db, caller: Principal, requestId: Id) returns (code: Code)
    requires db.Valid()
    modifies db`inspections
    ensures db.Valid()
    ensures code == NotFound <==> requestId !in old(db.inspections)
    ensures requestId in old(db.inspections) ==>
      var r := old(db.inspections[requestId]);
      && (code == Forbidden <==> r.user != caller.id)
      && (code == BadRequest <==> r.user == caller.id && r.status != InspectionPending)
      && (code == Ok ==> db.inspections == old(db.inspections)[requestId := r.(status := InspectionCancelled)])
    ensures code in {Ok, NotFound, Forbidden, BadRequest}
    ensures code != Ok ==> unchanged(db)
  {
    if requestId !in db.inspections {
      return NotFound;
    }
    var r := db.inspections[requestId];
    if r.user != caller.id {
      return Forbidden;
    }
    if r.status != InspectionPending {
      return BadRequest;
    }
    db.inspections := db.inspections[requestId := r.(status := InspectionCancelled)];
    code := Ok;
  }

  /** The request moved to `date`, keeping its time unless a new one is given. */
  function Rescheduled(r: Inspection, date: Time, time: Option<string>): Inspection
  {
    r.(date := date, time := if Truthy(time) then time.value else r.time, status := InspectionPending)
  }

  /** `PUT /inspections/:requestId/reschedule` (rescheduleInspection). */
  method RescheduleInspection(db: Db, caller: Principal, requestId: Id, date: Option<Time>,
                              time: Option<string>, now: Time, offset: int) returns (code: Code)
    requires db.Valid()
    modifies db`inspections
    ensures db.Valid()
    ensures code == NotFound <==> date.Some? && requestId !in old(db.inspections)
    ensures code == Forbidden <==>
      date.Some? && requestId in old(db.inspections) && old(db.inspections[requestId].user) != caller.id
    ensures code == BadRequest <==>
      date.None? ||
      (requestId in old(db.inspections) && old(db.inspections[requestId].user) == caller.id &&
       (old(db.inspections[requestId].status) != InspectionPending || BeforeToday(date.value, now, offset)))
    ensures code in {Ok, NotFound, Forbidden, BadRequest}
    ensures code == Ok ==>
      db.inspections == old(db.inspections)[requestId := Rescheduled(old(db.inspections[requestId]), date.value, time)]
    ensures code != Ok ==> unchanged(db)
  {
    if date.None? {
      return BadRequest;
    }
    if requestId !in db.inspections {
      return NotFound;
    }
    var r := db.inspections[requestId];
    if r.user != caller.id {
      return Forbidden;
    }
    if r.status != InspectionPending {
      return BadRequest;
    }
    if BeforeToday(date.value, now, offset) {
      return BadRequest;
    }
    db.inspections := db.inspections[requestId := Rescheduled(r, date.value, time)];
    code := Ok;
  }

  /** A rescheduled request stays pending, on the new date, with the time it had unless a new one is given. */
  lemma RescheduledKeepsRequest(r: Inspection, date: Time, time: Option<string>)
    ensures Rescheduled(r, date, time).status == InspectionPending
    ensures Rescheduled(r, date, time).date == date
    ensures !Truthy(time) ==> Rescheduled(r, date, time).time == r.time
    ensures Rescheduled(r, date, time).(date := r.date, time := r.time, status := r.status) == r
  {
  }

  /** The status named by `status`, if the inspection controller lets an agent set it. */
  function InspectionDecision(status: string): (r: Option<InspectionStatus>)
    ensures r.Some? <==> status in {"approved", "rejected"}
    ensures r.Some? ==> InspectionStatusName(r.value) == status
  {
    if status == "approved" then Some(InspectionApproved)
    else if status == "rejected" then Some(InspectionRejected)
    else None
  }

  /** The request after the agent's decision: a reason is kept only when rejecting with one. */
  function Decided(r: Inspection, s: InspectionStatus, rejectionReason: Option<string>): Inspection
  {
    r.(status := s,
       rejectionReason := if s == InspectionRejected && Truthy(rejectionReason) then rejectionReason
                          else r.rejectionReason)
  }

  /** `PUT /inspections/:requestId/status` (updateInspectionStatus in the inspection controller). */
  method UpdateInspectionStatus(db: Db, caller: Principal, requestId: Id, status: string,
                                rejectionReason: Option<string>) returns (code: Code)
    requires db.Valid()
    modifies db`inspections
    ensures db.Valid()
    ensures code == BadRequest <==> InspectionDecision(status).None?
    ensures code == NotFound <==> InspectionDecision(status).Some? && requestId !in old(db.inspections)
    ensures InspectionDecision(status).Some? && requestId in old(db.inspections) ==>
      var r := old(db.inspections[requestId]);
      // a null populated apartment makes `inspectionRequest.apartment._id` throw
      && (code == ServerError <==> r.apartment !in old(db.apartments))
      && (code == Forbidden <==> r.apartment in old(db.apartments) && old(db.apartments[r.apartment].agent) != caller.id)
      && (code == Ok ==>
            db.inspections == old(db.inspections)[requestId := Decided(r, InspectionDecision(status).value, rejectionReason)])
    ensures code in {Ok, BadRequest, NotFound, Forbidden, ServerError}
    ensures code != Ok ==> unchanged(db)
  {
    var s := InspectionDecision(status);
    if s.None? {
      return BadRequest;
    }
    if requestId !in db.inspections {
      return NotFound;
    }
    var r := db.inspections[requestId];
    if r.apartment !in db.apartments {
      return ServerError;
    }
    if db.apartments[r.apartment].agent != caller.id {
      return Forbidden;
    }
    db.inspections := db.inspections[requestId := Decided(r, s.value, rejectionReason)];
    code := Ok;
  }

  /** The decision does not depend on the prior status, and a reason is recorded only when rejecting with one. */
  lemma DecisionIgnoresPriorStatus(r: Inspection, prior: InspectionStatus, s: InspectionStatus, reason: Option<string>)
    ensures Decided(r.(status := prior), s, reason) == Decided(r, s, reason)
    ensures Decided(r, s, reason).status == s
    ensures Decided(r, s, reason).rejectionReason != r.rejectionReason ==>
      s == InspectionRejected && Truthy(reason) && Decided(r, s, reason).rejectionReason == reason
  {
  }

  /** The request marked done by `completeInspection`. */
  function Completed(r: Inspection, notes: Option<string>, followUpRequired: Option<bool>, now: Time): Inspection
  {
    r.(status := InspectionCompleted, completionNotes := Some(OrDefault(notes, "")),
       followUpRequired := followUpRequired == Some(true), completedAt := Some(now))
  }

  /** `PUT /inspections/:requestId/complete` (completeInspection). */
  method CompleteInspection(db: Db, caller: Principal, requestId: Id, notes: Option<string>,
                            followUpRequired: Option<bool>, now: Time) returns (code: Code)
    requires db.Valid()
    modifies db`inspections
    ensures db.Valid()
    ensures code == NotFound <==> requestId !in old(db.inspections)
    ensures requestId in old(db.inspections) ==>
      var r := old(db.inspections[requestId]);
      && (code == ServerError <==> r.apartment !in old(db.apartments))
      && (code == Forbidden <==> r.apartment in old(db.apartments) && old(db.apartments[r.apartment].agent) != caller.id)
      && (code == BadRequest <==>
            r.apartment in old(db.apartments) && old(db.apartments[r.apartment].agent) == caller.id &&
            r.status != InspectionApproved)
      && (code == Ok ==>
            db.inspections == old(db.inspections)[requestId := Completed(r, notes, followUpRequired, now)])
    ensures code in {Ok, NotFound, ServerError, Forbidden, BadRequest}
    ensures code != Ok ==> unchanged(db)
  {
    if requestId !in db.inspections {
      return NotFound;
    }
    var r := db.inspections[requestId];
    if r.apartment !in db.apartments {
      return ServerError;
    }
    if db.apartments[r.apartment].agent != caller.id {
      return Forbidden;
    }
    if r.status != InspectionApproved {
      return BadRequest;
    }
    db.inspections := db.inspections[requestId := Completed(r, notes, followUpRequired, now)];
    code := Ok;
  }

  /** `GET /inspections/:requestId` (getInspectionById): the caller's record role decides. */
  function GetInspectionById(db: Db, caller: Principal, requestId: Id): (r: Code)
    reads db
    ensures r == NotFound <==> requestId !in db.inspections
    ensures requestId in db.inspections ==>
      var i := db.inspections[requestId];
      && (HasRole(caller, "admin") ==> r == Ok)
      && (HasRole(caller, "agent") ==>
            (r == ServerError <==> i.apartment !in db.apartments) &&
            (r == Ok <==> i.apartment in db.apartments && db.apartments[i.apartment].agent == caller.id))
      && (HasRole(caller, "user") ==>
            (r == ServerError <==> i.user !in db.users) &&
            (r == Ok <==> i.user in db.users && i.user == caller.id))
      && (!HasRole(caller, "admin") && !HasRole(caller, "agent") && !HasRole(caller, "user") ==> r == Forbidden)
    ensures r in {Ok, NotFound, Forbidden, ServerError}
  {
    if requestId !in db.inspections then NotFound
    else
      var i := db.inspections[requestId];
      if HasRole(caller, "admin") then Ok
      else if HasRole(caller, "agent") then
        // `inspectionRequest.apartment._id` throws on a null populated apartment
        if i.apartment !in db.apartments then ServerError
        else if db.apartments[i.apartment].agent == caller.id then Ok else Forbidden
      else if HasRole(caller, "user") then
        // `inspectionRequest.user._id` throws on a null populated user
        if i.user !in db.users then ServerError
        else if i.user == caller.id then Ok else Forbidden
      else Forbidden
  }

  /** The ids, among `scope`, of requests with status `s`. */
  function InspectionsWithStatus(ins: map<Id, Inspection>, scope: set<Id>, s: InspectionStatus): set<Id>
  {
    set k | k in ins && k in scope && ins[k].status == s
  }

  /** The approved requests, among `scope`, dated now or later: `status: "approved", date: { $gte: now }`. */
  function UpcomingInspections(ins: map<Id, Inspection>, scope: set<Id>, now: Time): set<Id>
  {
    set k | k in ins && k in scope && ins[k].status == InspectionApproved && ins[k].date >= now
  }

  /** The requests addressed to the agent. */
  function AgentInspections(ins: map<Id, Inspection>, agent: Id): set<Id>
  {
    set k | k in ins && ins[k].agent == agent
  }

  datatype InspectionStats = InspectionStats(total: nat, pending: nat, approved: nat, rejected: nat,
                                             completed: nat, cancelled: nat, upcoming: nat, rate: int)

  /** The five status counts over `scope` are disjoint parts of it. */
  lemma StatusCountsWithin(ins: map<Id, Inspection>, scope: set<Id>)
    requires scope <= ins.Keys
    ensures |InspectionsWithStatus(ins, scope, InspectionPending)| + |InspectionsWithStatus(ins, scope, InspectionApproved)|
            + |InspectionsWithStatus(ins, scope, InspectionRejected)| + |InspectionsWithStatus(ins, scope, InspectionCompleted)|
            + |InspectionsWithStatus(ins, scope, InspectionCancelled)| <= |scope|
  {
    var p, a := InspectionsWithStatus(ins, scope, InspectionPending), InspectionsWithStatus(ins, scope, InspectionApproved);
    var r, c := InspectionsWithStatus(ins, scope, InspectionRejected), InspectionsWithStatus(ins, scope, InspectionCompleted);
    var x := InspectionsWithStatus(ins, scope, InspectionCancelled);
    assert |p + a| == |p| + |a| by { assert p * a == {}; }
    assert |p + a + r| == |p + a| + |r| by { assert (p + a) * r == {}; }
    assert |p + a + r + c| == |p + a + r| + |c| by { assert (p + a + r) * c == {}; }
    assert |p + a + r + c + x| == |p + a + r + c| + |x| by { assert (p + a + r + c) * x == {}; }
    SubsetCard(p + a + r + c + x, scope);
  }

  /** The counts over `scope`; the rate is the share of requests with status `rated`. */
  function StatsOver(ins: map<Id, Inspection>, scope: set<Id>, rated: InspectionStatus, now: Time): (r: InspectionStats)
    requires scope <= ins.Keys
    ensures r.total == |scope|
    ensures r.pending == |InspectionsWithStatus(ins, scope, InspectionPending)|
    ensures r.approved == |InspectionsWithStatus(ins, scope, InspectionApproved)|
    ensures r.rejected == |InspectionsWithStatus(ins, scope, InspectionRejected)|
    ensures r.completed == |InspectionsWithStatus(ins, scope, InspectionCompleted)|
    ensures r.cancelled == |InspectionsWithStatus(ins, scope, InspectionCancelled)|
    ensures r.upcoming == |UpcomingInspections(ins, scope, now)|
    ensures r.pending + r.approved + r.rejected + r.completed + r.cancelled <= r.total
    ensures r.upcoming <= r.approved
    ensures 0 <= r.rate <= 100
    ensures r.total == 0 ==> r.rate == 0
    ensures r.total > 0 ==>
      var part := |InspectionsWithStatus(ins, scope, rated)|;
      2 * r.total * r.rate <= 200 * part + r.total < 2 * r.total * (r.rate + 1)
    ensures r.rate == PercentRate(|InspectionsWithStatus(ins, scope, rated)|, r.total)
  {
    StatusCountsWithin(ins, scope);
    var approved := InspectionsWithStatus(ins, scope, InspectionApproved);
    var upcoming := UpcomingInspections(ins, scope, now);
    SubsetCard(upcoming, approved);
    var part := InspectionsWithStatus(ins, scope, rated);
    SubsetCard(part, scope);
    PercentRateInRange(|part|, |scope|);
    InspectionStats(|scope|, |InspectionsWithStatus(ins, scope, InspectionPending)|, |approved|,
                    |InspectionsWithStatus(ins, scope, InspectionRejected)|,
                    |InspectionsWithStatus(ins, scope, InspectionCompleted)|,
                    |InspectionsWithStatus(ins, scope, InspectionCancelled)|, |upcoming|,
                    PercentRate(|part|, |scope|))
  }

  /** getAgentInspectionStats: the agent's requests, with `approvalRate` as the rate. */
  function AgentInspectionStats(ins: map<Id, Inspection>, agent: Id, now: Time): (r: InspectionStats)
    ensures var scope := AgentInspections(ins, agent);
      && r.total == |scope|
      && r.pending == |InspectionsWithStatus(ins, scope, InspectionPending)|
      && r.approved == |InspectionsWithStatus(ins, scope, InspectionApproved)|
      && r.rejected == |InspectionsWithStatus(ins, scope, InspectionRejected)|
      && r.completed == |InspectionsWithStatus(ins, scope, InspectionCompleted)|
      && r.upcoming == |UpcomingInspections(ins, scope, now)|
    ensures r.rate == PercentRate(r.approved, r.total)
    ensures 0 <= r.rate <= 100
  {
    StatsOver(ins, AgentInspections(ins, agent), InspectionApproved, now)
  }

  /** getInspectionStats: every request, with `completionRate` as the rate. */
  function AllInspectionStats(ins: map<Id, Inspection>, now: Time): (r: InspectionStats)
    ensures r.total == |ins|
    ensures r.pending == |InspectionsWithStatus(ins, ins.Keys, InspectionPending)|
    ensures r.approved == |InspectionsWithStatus(ins, ins.Keys, InspectionApproved)|
    ensures r.rejected == |InspectionsWithStatus(ins, ins.Keys, InspectionRejected)|
    ensures r.completed == |InspectionsWithStatus(ins, ins.Keys, InspectionCompleted)|
    ensures r.cancelled == |InspectionsWithStatus(ins, ins.Keys, InspectionCancelled)|
    ensures r.rate == PercentRate(r.completed, r.total)
    ensures 0 <= r.rate <= 100
  {
    assert |ins.Keys| == |ins|;
    StatsOver(ins, ins.Keys, InspectionCompleted, now)
  }
}
