/**
 * The booking controller: users book and cancel, the apartment's agent
 * decides, administrators delete and read statistics. Each handler works on
 * the shared apartment `availability` flag as the controller does; no
 * handler keeps that flag in step with the bookings that exist (see
 * `Scenarios` for traces where they drift apart).
 */
module Bookings {
  import opened Common
  import opened Entities
  import opened Database

  /** The statuses that make createBooking refuse a second booking. */
  const BlockingStatuses: set<BookingStatus> := {Pending, Approved}

  /** The statuses an agent may set through the booking controller. */
  const AgentDecisions: set<BookingStatus> := {Approved, Rejected, Cancelled}

  /** The user has a booking of the apartment whose status is one of `statuses`. */
  predicate HasBookingIn(bs: map<Id, Booking>, user: Id, apartment: Id, statuses: set<BookingStatus>)
  {
    exists k :: k in bs && bs[k].user == user && bs[k].apartment == apartment && bs[k].status in statuses
  }

  /** The status named by `status`, if it is one the agent may set. */
  function AgentDecision(status: string): (r: Option<BookingStatus>)
    ensures r.Some? <==> status in {"approved", "rejected", "cancelled"}
    ensures r.Some? ==> r.value in AgentDecisions && BookingStatusName(r.value) == status
  {
    var s := ParseBookingStatus(status);
    if s.Some? && s.value in AgentDecisions then s else None
  }

  /** The apartment with its availability flag set to `available`. */
  function WithAvailability(apts: map<Id, Apartment>, id: Id, available: bool): map<Id, Apartment>
    requires id in apts
  {
    apts[id := apts[id].(availability := available)]
  }

  /** `POST /bookings/:apartmentId` (createBooking). */
  method CreateBooking(db: Db, caller: Principal, apartmentId: Id) returns (code: Code)
    requires db.Valid()
    modifies db`bookings, db`apartments, db`nextId
    ensures db.Valid()
    ensures code == NotFound <==> apartmentId !in old(db.apartments)
    ensures code == BadRequest <==>
      apartmentId in old(db.apartments) &&
      (!old(db.apartments[apartmentId].availability) ||
       HasBookingIn(old(db.bookings), caller.id, apartmentId, BlockingStatuses))
    ensures code in {Created, NotFound, BadRequest}
    ensures code == Created ==>
      && db.bookings == old(db.bookings)[old(db.nextId) := Booking(caller.id, apartmentId, Pending, Unpaid)]
      && db.apartments == WithAvailability(old(db.apartments), apartmentId, false)
      && db.nextId == old(db.nextId) + 1
    ensures code != Created ==> unchanged(db)
  {
    if apartmentId !in db.apartments {
      return NotFound;
    }
    if !db.apartments[apartmentId].availability {
      return BadRequest;
    }
    if HasBookingIn(db.bookings, caller.id, apartmentId, BlockingStatuses) {
      return BadRequest;
    }
    var b := Booking(caller.id, apartmentId, Pending, Unpaid);
    BookingSaveKeepsIndex(db.bookings, db.nextId, b);
    db.bookings := db.bookings[db.nextId := b];
    db.nextId := db.nextId + 1;
    db.apartments := WithAvailability(db.apartments, apartmentId, false);
    code := Created;
  }

  /** `DELETE /bookings/:bookingId` (cancelBooking): the booker removes the booking. */
  method CancelBooking(db: Db, caller: Principal, bookingId: Id) returns (code: Code)
    requires db.Valid()
    modifies db`bookings, db`apartments
    ensures db.Valid()
    ensures code == NotFound <==> bookingId !in old(db.bookings)
    ensures code == Forbidden <==>
      bookingId in old(db.bookings) && old(db.bookings[bookingId].user) != caller.id
    ensures code == ServerError <==>
      bookingId in old(db.bookings) && old(db.bookings[bookingId].user) == caller.id &&
      old(db.bookings[bookingId].apartment) !in old(db.apartments)
    ensures code in {Ok, NotFound, Forbidden, ServerError}
    ensures code == Ok ==>
      && db.bookings == old(db.bookings) - {bookingId}
      && db.apartments == WithAvailability(old(db.apartments), old(db.bookings[bookingId].apartment), true)
    ensures code != Ok ==> unchanged(db)
  {
    if bookingId !in db.bookings {
      return NotFound;
    }
    var b := db.bookings[bookingId];
    if b.user != caller.id {
      return Forbidden;
    }
    if b.apartment !in db.apartments {
      // the populated apartment is null and `booking.apartment._id` throws
      return ServerError;
    }
    db.apartments := WithAvailability(db.apartments, b.apartment, true);
    db.bookings := db.bookings - {bookingId};
    code := Ok;
  }

  /** A handler's status code and the document it answers with, if any. */
  datatype Reply<T> = Reply(code: Code, body: Option<T>)

  /** `GET /bookings/:bookingId` (getBookingById). */
  function GetBookingById(db: Db, caller: Principal, bookingId: Id): (r: Reply<Booking>)
    reads db
    ensures r.code == NotFound <==> bookingId !in db.bookings
    ensures r.code == ServerError <==>
      bookingId in db.bookings && db.bookings[bookingId].user !in db.users
    ensures r.code == Ok <==>
      bookingId in db.bookings && db.bookings[bookingId].user in db.users &&
      (db.bookings[bookingId].user == caller.id || HasRole(caller, "admin") || HasRole(caller, "agent"))
    ensures r.code in {Ok, NotFound, ServerError, Forbidden}
    ensures r.body.Some? <==> r.code == Ok
    ensures r.code == Ok ==> r.body.value == db.bookings[bookingId]
  {
    if bookingId !in db.bookings then Reply(NotFound, None)
    else
      var b := db.bookings[bookingId];
      // the populated user is null when the booker is gone, and `booking.user._id` throws
      if b.user !in db.users then Reply(ServerError, None)
      else if b.user != caller.id && !HasRole(caller, "admin") && !HasRole(caller, "agent") then
        Reply(Forbidden, None)
      else Reply(Ok, Some(b))
  }

  /** `PUT /bookings/:bookingId/status` (updateBookingStatus in the booking controller). */
  method UpdateBookingStatus(db: Db, caller: Principal, bookingId: Id, status: string) returns (code: Code)
    requires db.Valid()
    modifies db`bookings, db`apartments
    ensures db.Valid()
    ensures code == BadRequest <==> AgentDecision(status).None?
    ensures code == NotFound <==> AgentDecision(status).Some? && bookingId !in old(db.bookings)
    ensures code == Forbidden <==>
      AgentDecision(status).Some? && bookingId in old(db.bookings) &&
      old(db.bookings[bookingId].apartment) in old(db.apartments) &&
      old(db.apartments[db.bookings[bookingId].apartment].agent) != caller.id
    ensures code in {Ok, BadRequest, NotFound, Forbidden, ServerError}
    ensures code == Ok || code == ServerError ==>
      AgentDecision(status).Some? && bookingId in old(db.bookings) &&
      (var b := old(db.bookings[bookingId]);
       var s := AgentDecision(status).value;
       // the apartment is saved first, and stays saved if the booking save fails
       && (b.apartment in old(db.apartments) && s in {Rejected, Cancelled} ==>
             db.apartments == WithAvailability(old(db.apartments), b.apartment, true))
       && (b.apartment !in old(db.apartments) || s == Approved ==> db.apartments == old(db.apartments))
       // the booking is saved unless its new status collides with another booking of the same pair
       && (code == Ok <==> b.apartment in old(db.apartments) &&
                           !BookingSaveConflicts(old(db.bookings), bookingId, b.(status := s)))
       && (code == Ok ==> db.bookings == old(db.bookings)[bookingId := b.(status := s)])
       && (code == ServerError ==> db.bookings == old(db.bookings)))
    ensures code in {BadRequest, NotFound, Forbidden} ==> unchanged(db)
  {
    var decision := AgentDecision(status);
    if decision.None? {
      return BadRequest;
    }
    var s := decision.value;
    if bookingId !in db.bookings {
      return NotFound;
    }
    var b := db.bookings[bookingId];
    if b.apartment !in db.apartments {
      // `booking.apartment._id` on a null populated apartment throws
      return ServerError;
    }
    if db.apartments[b.apartment].agent != caller.id {
      return Forbidden;
    }
    var updated := b.(status := s);
    if s == Rejected || s == Cancelled {
      db.apartments := WithAvailability(db.apartments, b.apartment, true);
    }
    if BookingSaveConflicts(db.bookings, bookingId, updated) {
      // the unique index on { user, apartment, status } rejects the save
      return ServerError;
    }
    BookingSaveKeepsIndex(db.bookings, bookingId, updated);
    db.bookings := db.bookings[bookingId := updated];
    code := Ok;
  }

  /** `DELETE /bookings/admin/:bookingId` (deleteBooking, administrators). */
  method DeleteBooking(db: Db, bookingId: Id) returns (code: Code)
    requires db.Valid()
    modifies db`bookings, db`apartments
    ensures db.Valid()
    ensures code == NotFound <==> bookingId !in old(db.bookings)
    ensures code in {Ok, NotFound}
    ensures code == Ok ==>
      var b := old(db.bookings[bookingId]);
      && db.bookings == old(db.bookings) - {bookingId}
      && db.apartments == (if b.status == Approved && b.apartment in old(db.apartments)
                           then WithAvailability(old(db.apartments), b.apartment, true)
                           else old(db.apartments))
    ensures code == NotFound ==> unchanged(db)
  {
    if bookingId !in db.bookings {
      return NotFound;
    }
    var b := db.bookings[bookingId];
    if b.status == Approved && b.apartment in db.apartments {
      db.apartments := WithAvailability(db.apartments, b.apartment, true);
    }
    db.bookings := db.bookings - {bookingId};
    code := Ok;
  }

  /** The ids of the bookings with status `s`. */
  function WithStatus(bs: map<Id, Booking>, s: BookingStatus): set<Id>
  {
    set k | k in bs && bs[k].status == s
  }

  datatype BookingStats = BookingStats(total: nat, pending: nat, approved: nat, rejected: nat,
                                       cancelled: nat, approvalRate: int)

  /** `GET /bookings/admin/stats` (getBookingStats). */
  function BookingStatsOf(bs: map<Id, Booking>): (r: BookingStats)
    ensures r.total == |bs|
    ensures r.pending == |WithStatus(bs, Pending)| && r.approved == |WithStatus(bs, Approved)|
    ensures r.rejected == |WithStatus(bs, Rejected)| && r.cancelled == |WithStatus(bs, Cancelled)|
    ensures r.pending + r.approved + r.rejected + r.cancelled <= r.total
    ensures 0 <= r.approvalRate <= 100
    ensures r.total == 0 ==> r.approvalRate == 0
    ensures r.total > 0 ==> 2 * r.total * r.approvalRate <= 200 * r.approved + r.total < 2 * r.total * (r.approvalRate + 1)
  {
    StatusCountsWithinTotal(bs);
    var approved := |WithStatus(bs, Approved)|;
    PercentRateInRange(approved, |bs|);
    BookingStats(|bs|, |WithStatus(bs, Pending)|, approved, |WithStatus(bs, Rejected)|,
                 |WithStatus(bs, Cancelled)|, PercentRate(approved, |bs|))
  }

  /** The four status counts are disjoint parts of all bookings. */
  lemma StatusCountsWithinTotal(bs: map<Id, Booking>)
    ensures |WithStatus(bs, Pending)| + |WithStatus(bs, Approved)| + |WithStatus(bs, Rejected)|
            + |WithStatus(bs, Cancelled)| <= |bs|
  {
    var p, a, r, c := WithStatus(bs, Pending), WithStatus(bs, Approved), WithStatus(bs, Rejected), WithStatus(bs, Cancelled);
    assert |p + a| == |p| + |a| by { assert p * a == {}; }
    assert |p + a + r| == |p + a| + |r| by { assert (p + a) * r == {}; }
    assert |p + a + r + c| == |p + a + r| + |c| by { assert (p + a + r) * c == {}; }
    SubsetCard(p + a + r + c, bs.Keys);
  }
}
