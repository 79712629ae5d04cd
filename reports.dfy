/**
 * The report controller: a user reports a problem with an apartment (at
 * most one open report per apartment a day), the apartment's agent answers
 * and resolves it, and administrators set its priority, reassign it to
 * another agent, escalate or delete it.
 */
module Reports {
  import opened Common
  import opened Entities
  import opened Database

  /** The user has an open report on the apartment created no earlier than 24 hours before `now`. */
  predicate HasRecentOpenReport(reps: map<Id, Report>, user: Id, apartment: Id, now: Time)
  {
    exists k :: k in reps && reps[k].user == user && reps[k].apartment == apartment &&
                reps[k].status == Open && reps[k].createdAt >= now - DayMs
  }

  /** The priority a new report gets: high for fraud and safety reports, medium otherwise. */
  function InitialPriority(reportType: Option<string>): (p: Priority)
    ensures p == High <==> reportType == Some("fraud") || reportType == Some("safety")
    ensures p != High ==> p == Medium
  {
    if reportType == Some("fraud") || reportType == Some("safety") then High else Medium
  }

  /** The report `Report.create` stores. */
  function NewReport(user: Id, apartmentId: Id, message: string, reportType: ReportType,
                     priority: Priority, now: Time): Report
  {
    Report(user, apartmentId, message, reportType, Open, priority, now,
           None, None, None, None, None, None, false, None, None)
  }

  /** `POST /reports` (submitReport in the report controller). */
  method SubmitReport(db: Db, caller: Principal, apartmentId: Option<Id>, message: Option<string>,
                      reportType: Option<string>, now: Time) returns (code: Code, reportId: Id)
    requires db.Valid()
    modifies db`reports, db`nextId
    ensures db.Valid()
    ensures code == BadRequest <==>
      apartmentId.None? || !Truthy(message) ||
      (apartmentId.value in old(db.apartments) &&
       HasRecentOpenReport(old(db.reports), caller.id, apartmentId.value, now))
    ensures code == NotFound <==> apartmentId.Some? && Truthy(message) && apartmentId.value !in old(db.apartments)
    // a type outside the schema's list fails validation
    ensures code == ServerError <==>
      apartmentId.Some? && Truthy(message) && apartmentId.value in old(db.apartments) &&
      !HasRecentOpenReport(old(db.reports), caller.id, apartmentId.value, now) &&
      ParseReportType(OrDefault(reportType, "general")).None?
    ensures code in {Created, BadRequest, NotFound, ServerError}
    ensures code == Created ==>
      && reportId == old(db.nextId)
      && db.reports == old(db.reports)[reportId :=
           NewReport(caller.id, apartmentId.value, message.value,
                     ParseReportType(OrDefault(reportType, "general")).value, InitialPriority(reportType), now)]
      && db.nextId == old(db.nextId) + 1
    ensures code != Created ==> unchanged(db)
  {
    reportId := db.nextId;
    if apartmentId.None? || !Truthy(message) {
      return BadRequest, reportId;
    }
    if apartmentId.value !in db.apartments {
      return NotFound, reportId;
    }
    if HasRecentOpenReport(db.reports, caller.id, apartmentId.value, now) {
      return BadRequest, reportId;
    }
    var t := ParseReportType(OrDefault(reportType, "general"));
    if t.None? {
      return ServerError, reportId;
    }
    db.reports := db.reports[reportId :=
      NewReport(caller.id, apartmentId.value, message.value, t.value, InitialPriority(reportType), now)];
    db.nextId := db.nextId + 1;
    code := Created;
  }

  /** A new report without a type is a general report of medium priority. */
  lemma DefaultReportIsGeneral()
    ensures ParseReportType(OrDefault(None, "general")) == Some(General)
    ensures InitialPriority(None) == Medium
  {
  }

  /**
   * The common guard of the agent's report handlers: the report exists, its
   * populated apartment is not null (otherwise `report.apartment._id`
   * throws) and belongs to the caller.
   */
  function AgentReportGuard(db: Db, caller: Principal, reportId: Id): (code: Code)
    reads db
    ensures code == NotFound <==> reportId !in db.reports
    ensures code == ServerError <==> reportId in db.reports && db.reports[reportId].apartment !in db.apartments
    ensures code == Forbidden <==>
      reportId in db.reports && db.reports[reportId].apartment in db.apartments &&
      db.apartments[db.reports[reportId].apartment].agent != caller.id
    ensures code in {Ok, NotFound, ServerError, Forbidden}
  {
    if reportId !in db.reports then NotFound
    else if db.reports[reportId].apartment !in db.apartments then ServerError
    else if db.apartments[db.reports[reportId].apartment].agent != caller.id then Forbidden
    else Ok
  }

  /** `PUT /reports/:reportId/respond` (respondToReport). */
  method RespondToReport(db: Db, caller: Principal, reportId: Id, response: Option<string>, now: Time)
    returns (code: Code)
    requires db.Valid()
    modifies db`reports
    ensures db.Valid()
    ensures code == BadRequest <==> !Truthy(response)
    ensures Truthy(response) ==> code == old(AgentReportGuard(db, caller, reportId))
    ensures code == Ok ==>
      reportId in old(db.reports) &&
      db.reports == old(db.reports)[reportId :=
        old(db.reports[reportId]).(agentResponse := response, respondedAt := Some(now), status := InProgress)]
    ensures code != Ok ==> unchanged(db)
  {
    if !Truthy(response) {
      return BadRequest;
    }
    code := AgentReportGuard(db, caller, reportId);
    if code != Ok {
      return;
    }
    db.reports := db.reports[reportId :=
      db.reports[reportId].(agentResponse := response, respondedAt := Some(now), status := InProgress)];
  }

  /** `PUT /reports/:reportId/resolve` (agentResolveReport): whatever its status, the report becomes resolved. */
  method AgentResolveReport(db: Db, caller: Principal, reportId: Id, resolutionNotes: Option<string>, now: Time)
    returns (code: Code)
    requires db.Valid()
    modifies db`reports
    ensures db.Valid()
    ensures code == old(AgentReportGuard(db, caller, reportId))
    ensures code == Ok ==>
      reportId in old(db.reports) &&
      db.reports == old(db.reports)[reportId :=
        old(db.reports[reportId]).(status := Resolved, resolutionNotes := Some(OrDefault(resolutionNotes, "")),
                                   resolvedAt := Some(now))]
    ensures code != Ok ==> unchanged(db)
  {
    code := AgentReportGuard(db, caller, reportId);
    if code != Ok {
      return;
    }
    db.reports := db.reports[reportId :=
      db.reports[reportId].(status := Resolved, resolutionNotes := Some(OrDefault(resolutionNotes, "")),
                            resolvedAt := Some(now))];
  }

  /** `PUT /reports/admin/:reportId/priority` (updateReportPriority). */
  method UpdateReportPriority(db: Db, reportId: Id, priority: string) returns (code: Code)
    requires db.Valid()
    modifies db`reports
    ensures db.Valid()
    ensures code == BadRequest <==> priority !in {"low", "medium", "high"}
    ensures code == NotFound <==> priority in {"low", "medium", "high"} && reportId !in old(db.reports)
    ensures code in {Ok, BadRequest, NotFound}
    ensures code == Ok ==>
      ParsePriority(priority).Some? &&
      db.reports == old(db.reports)[reportId := old(db.reports[reportId]).(priority := ParsePriority(priority).value)]
    ensures code != Ok ==> unchanged(db)
  {
    var p := ParsePriority(priority);
    if p.None? {
      return BadRequest;
    }
    if reportId !in db.reports {
      return NotFound;
    }
    db.reports := db.reports[reportId := db.reports[reportId].(priority := p.value)];
    code := Ok;
  }

  /** `PUT /reports/admin/:reportId/assign` (assignReportToAgent). */
  method AssignReportToAgent(db: Db, reportId: Id, agentId: Option<Id>, now: Time) returns (code: Code)
    requires db.Valid()
    modifies db`reports, db`apartments
    ensures db.Valid()
    ensures code == NotFound <==>
      reportId !in old(db.reports) || agentId.None? || agentId.value !in old(db.agents)
    ensures code == ServerError <==>
      reportId in old(db.reports) && agentId.Some? && agentId.value in old(db.agents) &&
      old(db.reports[reportId].apartment) !in old(db.apartments)
    ensures code in {Ok, NotFound, ServerError}
    ensures code == Ok ==>
      var r := old(db.reports[reportId]);
      // the apartment itself is handed to the agent
      && db.apartments == old(db.apartments)[r.apartment := old(db.apartments[r.apartment]).(agent := agentId.value)]
      && db.reports == old(db.reports)[reportId :=
           r.(status := Assigned, assignedTo := agentId, assignedAt := Some(now))]
    ensures code != Ok ==> unchanged(db)
  {
    if reportId !in db.reports {
      return NotFound;
    }
    if agentId.None? || agentId.value !in db.agents {
      return NotFound;
    }
    var r := db.reports[reportId];
    if r.apartment !in db.apartments {
      return ServerError;
    }
    db.apartments := db.apartments[r.apartment := db.apartments[r.apartment].(agent := agentId.value)];
    db.reports := db.reports[reportId := r.(status := Assigned, assignedTo := agentId, assignedAt := Some(now))];
    code := Ok;
  }

  /** `DELETE /reports/admin/:reportId` (deleteReport). */
  method DeleteReport(db: Db, reportId: Id) returns (code: Code)
    requires db.Valid()
    modifies db`reports
    ensures db.Valid()
    ensures code == NotFound <==> reportId !in old(db.reports)
    ensures code in {Ok, NotFound}
    ensures code == Ok ==> db.reports == old(db.reports) - {reportId}
    ensures code != Ok ==> unchanged(db)
  {
    if reportId !in db.reports {
      return NotFound;
    }
    db.reports := db.reports - {reportId};
    code := Ok;
  }

  /** `PUT /reports/admin/:reportId/escalate` (escalateReport). */
  method EscalateReport(db: Db, reportId: Id, escalationNotes: Option<string>, now: Time) returns (code: Code)
    requires db.Valid()
    modifies db`reports
    ensures db.Valid()
    ensures code == NotFound <==> reportId !in old(db.reports)
    ensures code in {Ok, NotFound}
    ensures code == Ok ==>
      db.reports == old(db.reports)[reportId :=
        old(db.reports[reportId]).(priority := High, escalated := true,
                                   escalationNotes := Some(OrDefault(escalationNotes, "")), escalatedAt := Some(now))]
    ensures code != Ok ==> unchanged(db)
  {
    if reportId !in db.reports {
      return NotFound;
    }
    db.reports := db.reports[reportId :=
      db.reports[reportId].(priority := High, escalated := true,
                            escalationNotes := Some(OrDefault(escalationNotes, "")), escalatedAt := Some(now))];
    code := Ok;
  }
}
