/**
 * The payment controller: a user pays for a booking, the gateway settles the
 * payment a moment later, the payer asks for a refund within seven days and
 * an administrator approves or rejects it. The transaction id generator and
 * the clock are inputs; the settlement timer is the separate method
 * `Settle`, invoked explicitly.
 */
module Payments {
  import opened Common
  import opened Entities
  import opened Database
  import opened Bookings

  /** A payment for the booking with status completed exists. */
  predicate HasCompletedPayment(ps: map<Id, Payment>, bookingId: Id)
  {
    exists k :: k in ps && ps[k].booking == Some(bookingId) && ps[k].status == Completed
  }

  /** Some stored payment already carries the transaction id. */
  predicate TransactionIdTaken(ps: map<Id, Payment>, transactionId: string)
  {
    exists k :: k in ps && ps[k].transactionId == transactionId
  }

  /** The payment `Payment.create` stores for a booking. */
  function NewPayment(user: Id, booking: Booking, bookingId: Id, amount: int, paymentMethod: PaymentMethod,
                      currency: Option<string>, transactionId: string): Payment
  {
    Payment(user, booking.apartment, Some(bookingId), amount, paymentMethod, OrDefault(currency, "USD"),
            transactionId, PaymentPending, None, false, None, None, None)
  }

  /**
   * `POST /payments` (createPayment). `transactionId` is the value the
   * transaction id generator produced for this call.
   */
  method CreatePayment(db: Db, caller: Principal, bookingId: Option<Id>, amount: Option<int>,
                       paymentMethod: Option<string>, currency: Option<string>, transactionId: string)
    returns (code: Code, paymentId: Id)
    requires db.Valid()
    modifies db`payments, db`nextId
    ensures db.Valid()
    ensures code == BadRequest <==>
      bookingId.None? || !TruthyNumber(amount) || !Truthy(paymentMethod) ||
      (bookingId.value in old(db.bookings) && old(db.bookings[bookingId.value].user) == caller.id &&
       HasCompletedPayment(old(db.payments), bookingId.value))
    ensures code == NotFound <==>
      bookingId.Some? && TruthyNumber(amount) && Truthy(paymentMethod) && bookingId.value !in old(db.bookings)
    ensures code == Forbidden <==>
      bookingId.Some? && TruthyNumber(amount) && Truthy(paymentMethod) && bookingId.value in old(db.bookings) &&
      old(db.bookings[bookingId.value].user) != caller.id
    ensures code in {Created, BadRequest, NotFound, Forbidden, ServerError}
    // the schema rejects an unknown method or a negative amount, the unique index a reused id
    ensures code == ServerError ==>
      (ParsePaymentMethod(paymentMethod.value).None? || amount.value < 0 ||
       TransactionIdTaken(old(db.payments), transactionId))
    ensures code == Created ==>
      && ParsePaymentMethod(paymentMethod.value).Some? && amount.value > 0
      && paymentId == old(db.nextId)
      && db.payments == old(db.payments)[paymentId :=
           NewPayment(caller.id, old(db.bookings[bookingId.value]), bookingId.value, amount.value,
                      ParsePaymentMethod(paymentMethod.value).value, currency, transactionId)]
      && db.nextId == old(db.nextId) + 1
    ensures code != Created ==> unchanged(db)
  {
    paymentId := db.nextId;
    if bookingId.None? || !TruthyNumber(amount) || !Truthy(paymentMethod) {
      return BadRequest, paymentId;
    }
    if bookingId.value !in db.bookings {
      return NotFound, paymentId;
    }
    var booking := db.bookings[bookingId.value];
    if booking.user != caller.id {
      return Forbidden, paymentId;
    }
    if HasCompletedPayment(db.payments, bookingId.value) {
      return BadRequest, paymentId;
    }
    var m := ParsePaymentMethod(paymentMethod.value);
    if m.None? || amount.value < 0 || TransactionIdTaken(db.payments, transactionId) {
      return ServerError, paymentId;
    }
    db.payments := db.payments[paymentId := NewPayment(caller.id, booking, bookingId.value, amount.value,
                                                       m.value, currency, transactionId)];
    db.nextId := db.nextId + 1;
    code := Created;
  }

  /** The payment half of the settlement: completed, paid now. */
  function Completion(ps: map<Id, Payment>, paymentId: Id, now: Time): (r: map<Id, Payment>)
    ensures paymentId in ps ==> r == ps[paymentId := ps[paymentId].(status := Completed, paidAt := Some(now))]
    ensures paymentId !in ps ==> r == ps
  {
    if paymentId in ps then ps[paymentId := ps[paymentId].(status := Completed, paidAt := Some(now))] else ps
  }

  /**
   * `booking.save()` checked against the booking schema as written: a status
   * outside its list fails validation, a collision on the unique index fails
   * the write, and either failure leaves the collection as it was.
   */
  function SaveBookingAsWritten(bs: map<Id, Booking>, id: Id, b: Booking): (r: map<Id, Booking>)
    ensures !BookingSchemaAcceptsAsWritten(b.status) ==> r == bs
    ensures BookingSchemaAcceptsAsWritten(b.status) && !BookingSaveConflicts(bs, id, b) ==> r == bs[id := b]
    ensures BookingSaveConflicts(bs, id, b) ==> r == bs
    ensures BookingIndexUnique(bs) ==> BookingIndexUnique(r)
  {
    if BookingSchemaAcceptsAsWritten(b.status) && !BookingSaveConflicts(bs, id, b) then
      BookingSaveKeepsIndexIf(bs, id, b);
      bs[id := b]
    else bs
  }

  /**
   * The settlement timer of createPayment as written: the payment save and
   * the booking save run side by side. The booking schema's status list does
   * not contain "confirmed", so the booking save fails validation and the
   * booking is never written; the payment save is modelled as succeeding on
   * its own. The rejected `Promise.all` inside the timer callback is an
   * unhandled rejection, which may end the Node process before or after the
   * payment is written; that outcome is not modelled.
   */
  method SettleAsWritten(db: Db, paymentId: Id, bookingId: Id, now: Time)
    requires db.Valid()
    modifies db`payments, db`bookings
    ensures db.Valid()
    ensures db.payments == Completion(old(db.payments), paymentId, now)
    ensures db.bookings == old(db.bookings)
  {
    if paymentId in db.payments {
      db.payments := db.payments[paymentId := db.payments[paymentId].(status := Completed, paidAt := Some(now))];
    }
    if bookingId in db.bookings {
      var b := db.bookings[bookingId].(status := Confirmed, paymentStatus := Paid);
      db.bookings := SaveBookingAsWritten(db.bookings, bookingId, b);
    }
  }

  /**
   * The settlement timer with "confirmed" in the booking status list: the
   * payment becomes completed, and the booking becomes confirmed and paid
   * unless that collides with another booking of the same user and apartment.
   */
  method Settle(db: Db, paymentId: Id, bookingId: Id, now: Time)
    requires db.Valid()
    modifies db`payments, db`bookings
    ensures db.Valid()
    ensures db.payments == Completion(old(db.payments), paymentId, now)
    ensures bookingId in old(db.bookings) &&
            !BookingSaveConflicts(old(db.bookings), bookingId,
                                  old(db.bookings[bookingId]).(status := Confirmed, paymentStatus := Paid)) ==>
      db.bookings == old(db.bookings)[bookingId := old(db.bookings[bookingId]).(status := Confirmed, paymentStatus := Paid)]
    ensures bookingId !in old(db.bookings) ||
            BookingSaveConflicts(old(db.bookings), bookingId,
                                 old(db.bookings[bookingId]).(status := Confirmed, paymentStatus := Paid)) ==>
      db.bookings == old(db.bookings)
  {
    if paymentId in db.payments {
      db.payments := db.payments[paymentId := db.payments[paymentId].(status := Completed, paidAt := Some(now))];
    }
    if bookingId in db.bookings {
      var b := db.bookings[bookingId].(status := Confirmed, paymentStatus := Paid);
      if !BookingSaveConflicts(db.bookings, bookingId, b) {
        BookingSaveKeepsIndex(db.bookings, bookingId, b);
        db.bookings := db.bookings[bookingId := b];
      }
    }
  }

  /**
   * `(now - new Date(paidAt)) / 86400000 > 7` is false: at most seven days
   * have passed. A payment without `paidAt` gives `NaN`, which never
   * compares greater, so the window is open.
   */
  function RefundWindowOpen(paidAt: Option<Time>, now: Time): (r: bool)
    ensures paidAt.None? ==> r
    ensures paidAt.Some? ==> (r <==> now - paidAt.value <= 7 * DayMs)
  {
    match paidAt
    case None => true
    case Some(t) => now - t <= 7 * DayMs
  }

  /** The window closes at exactly seven days and stays closed. */
  lemma RefundWindowMonotone(paidAt: Time, now: Time, later: Time)
    requires now <= later && !RefundWindowOpen(Some(paidAt), now)
    ensures !RefundWindowOpen(Some(paidAt), later)
  {
  }

  /** `POST /payments/:paymentId/refund` (requestRefund). */
  method RequestRefund(db: Db, caller: Principal, paymentId: Id, reason: Option<string>, now: Time)
    returns (code: Code)
    requires db.Valid()
    modifies db`payments
    ensures db.Valid()
    ensures code == NotFound <==> paymentId !in old(db.payments)
    ensures paymentId in old(db.payments) ==>
      var p := old(db.payments[paymentId]);
      && (code == Forbidden <==> p.user != caller.id)
      && (code == BadRequest <==>
            p.user == caller.id &&
            (p.status != Completed || p.refundRequested || !RefundWindowOpen(p.paidAt, now)))
      && (code == Ok ==>
            db.payments == old(db.payments)[paymentId :=
              p.(refundRequested := true, refundReason := Some(OrDefault(reason, "")),
                 refundRequestedAt := Some(now), status := RefundPending)])
    ensures code in {Ok, NotFound, Forbidden, BadRequest}
    ensures code != Ok ==> unchanged(db)
  {
    if paymentId !in db.payments {
      return NotFound;
    }
    var p := db.payments[paymentId];
    if p.user != caller.id {
      return Forbidden;
    }
    if p.status != Completed {
      return BadRequest;
    }
    if p.refundRequested {
      return BadRequest;
    }
    if !RefundWindowOpen(p.paidAt, now) {
      return BadRequest;
    }
    db.payments := db.payments[paymentId :=
      p.(refundRequested := true, refundReason := Some(OrDefault(reason, "")),
         refundRequestedAt := Some(now), status := RefundPending)];
    code := Ok;
  }

  /** The refund-approved payment. */
  function RefundApproved(p: Payment, now: Time): Payment
  {
    p.(status := PaymentRefunded, refundProcessedAt := Some(now))
  }

  /** The booking of a refunded payment: cancelled, payment refunded. */
  function RefundedBooking(b: Booking): Booking
  {
    b.(status := Cancelled, paymentStatus := Refunded)
  }

  /** `PUT /payments/admin/:paymentId/refund` (processRefund, administrators). */
  method ProcessRefund(db: Db, paymentId: Id, action: string, now: Time) returns (code: Code)
    requires db.Valid()
    modifies db`payments, db`bookings, db`apartments
    ensures db.Valid()
    ensures code == BadRequest <==>
      action !in {"approve", "reject"} ||
      (paymentId in old(db.payments) && !old(db.payments[paymentId].refundRequested))
    ensures code == NotFound <==> action in {"approve", "reject"} && paymentId !in old(db.payments)
    ensures code in {Ok, BadRequest, NotFound, ServerError}
    ensures code == ServerError ==> unchanged(db)
    ensures code == ServerError <==>
      action == "approve" && paymentId in old(db.payments) && old(db.payments[paymentId].refundRequested) &&
      var p := old(db.payments[paymentId]);
      p.booking.Some? && p.booking.value in old(db.bookings) &&
      BookingSaveConflicts(old(db.bookings), p.booking.value, RefundedBooking(old(db.bookings[p.booking.value])))
    ensures code == Ok && action == "reject" ==>
      && db.payments == old(db.payments)[paymentId :=
           old(db.payments[paymentId]).(refundRequested := false, status := Completed)]
      && db.bookings == old(db.bookings) && db.apartments == old(db.apartments)
    ensures code == Ok && action == "approve" ==>
      var p := old(db.payments[paymentId]);
      && db.payments == old(db.payments)[paymentId := RefundApproved(p, now)]
      && db.bookings == (if p.booking.Some? && p.booking.value in old(db.bookings)
                         then old(db.bookings)[p.booking.value := RefundedBooking(old(db.bookings[p.booking.value]))]
                         else old(db.bookings))
      && db.apartments == (if p.apartment in old(db.apartments)
                           then WithAvailability(old(db.apartments), p.apartment, true)
                           else old(db.apartments))
    ensures code != Ok ==> unchanged(db)
  {
    if action != "approve" && action != "reject" {
      return BadRequest;
    }
    if paymentId !in db.payments {
      return NotFound;
    }
    var p := db.payments[paymentId];
    if !p.refundRequested {
      return BadRequest;
    }
    if action == "approve" {
      code := ApproveRefund(db, paymentId, now);
    } else {
      PaymentUpdateKeepsIds(db.payments, paymentId, p.(refundRequested := false, status := Completed));
      db.payments := db.payments[paymentId := p.(refundRequested := false, status := Completed)];
      code := Ok;
    }
  }

  /** The approve branch of processRefund: the booking is saved first, then the apartment and the payment. */
  method ApproveRefund(db: Db, paymentId: Id, now: Time) returns (code: Code)
    requires db.Valid() && paymentId in db.payments
    modifies db`payments, db`bookings, db`apartments
    ensures db.Valid()
    ensures code in {Ok, ServerError}
    ensures code == ServerError <==>
      var p := old(db.payments[paymentId]);
      p.booking.Some? && p.booking.value in old(db.bookings) &&
      BookingSaveConflicts(old(db.bookings), p.booking.value, RefundedBooking(old(db.bookings[p.booking.value])))
    ensures code == ServerError ==> unchanged(db)
    ensures code == Ok ==>
      var p := old(db.payments[paymentId]);
      && db.payments == old(db.payments)[paymentId := RefundApproved(p, now)]
      && db.bookings == (if p.booking.Some? && p.booking.value in old(db.bookings)
                         then old(db.bookings)[p.booking.value := RefundedBooking(old(db.bookings[p.booking.value]))]
                         else old(db.bookings))
      && db.apartments == (if p.apartment in old(db.apartments)
                           then WithAvailability(old(db.apartments), p.apartment, true)
                           else old(db.apartments))
  {
    var p := db.payments[paymentId];
    if p.booking.Some? && p.booking.value in db.bookings {
      var b := RefundedBooking(db.bookings[p.booking.value]);
      if BookingSaveConflicts(db.bookings, p.booking.value, b) {
        // the unique index on { user, apartment, status } rejects the booking save
        return ServerError;
      }
      BookingSaveKeepsIndex(db.bookings, p.booking.value, b);
      db.bookings := db.bookings[p.booking.value := b];
    }
    if p.apartment in db.apartments {
      db.apartments := WithAvailability(db.apartments, p.apartment, true);
    }
    PaymentUpdateKeepsIds(db.payments, paymentId, RefundApproved(p, now));
    db.payments := db.payments[paymentId := RefundApproved(p, now)];
    code := Ok;
  }

  /** The ids of the payments made for apartments in `apartments`. */
  function PaymentsFor(ps: map<Id, Payment>, apartments: set<Id>): set<Id>
  {
    set k | k in ps && ps[k].apartment in apartments
  }

  /** The ids, among `scope`, of payments with status `s`. */
  function PaymentsWithStatus(ps: map<Id, Payment>, scope: set<Id>, s: PaymentStatus): set<Id>
  {
    set k | k in ps && k in scope && ps[k].status == s
  }

  datatype PaymentStats = PaymentStats(total: nat, completed: nat, pending: nat, failed: nat, successRate: int)

  /** The counts and `successRate` of getPaymentStats and getAgentPaymentStats over `scope`. */
  function PaymentStatsOf(ps: map<Id, Payment>, scope: set<Id>): (r: PaymentStats)
    requires scope <= ps.Keys
    ensures r.total == |scope|
    ensures r.completed == |PaymentsWithStatus(ps, scope, Completed)|
    ensures r.pending == |PaymentsWithStatus(ps, scope, PaymentPending)|
    ensures r.failed == |PaymentsWithStatus(ps, scope, Failed)|
    ensures r.completed + r.pending + r.failed <= r.total
    ensures 0 <= r.successRate <= 100
    ensures r.total == 0 ==> r.successRate == 0
    ensures r.total > 0 ==> 2 * r.total * r.successRate <= 200 * r.completed + r.total < 2 * r.total * (r.successRate + 1)
    ensures r.successRate == PercentRate(r.completed, r.total)
  {
    var c, p, f := PaymentsWithStatus(ps, scope, Completed), PaymentsWithStatus(ps, scope, PaymentPending),
                   PaymentsWithStatus(ps, scope, Failed);
    assert |c + p| == |c| + |p| by { assert c * p == {}; }
    assert |c + p + f| == |c + p| + |f| by { assert (c + p) * f == {}; }
    SubsetCard(c + p + f, scope);
    PercentRateInRange(|c|, |scope|);
    PaymentStats(|scope|, |c|, |p|, |f|, PercentRate(|c|, |scope|))
  }

  /** The apartments listed by the agent. */
  function AgentApartments(apts: map<Id, Apartment>, agent: Id): set<Id>
  {
    set k | k in apts && apts[k].agent == agent
  }

  /** getAgentPaymentStats: the statistics over payments for the agent's apartments. */
  function AgentPaymentStats(db: Db, agent: Id): (r: PaymentStats)
    reads db
    ensures var scope := PaymentsFor(db.payments, AgentApartments(db.apartments, agent));
      && r.total == |scope|
      && r.completed == |PaymentsWithStatus(db.payments, scope, Completed)|
      && r.pending == |PaymentsWithStatus(db.payments, scope, PaymentPending)|
      && r.failed == |PaymentsWithStatus(db.payments, scope, Failed)|
    ensures r.successRate == PercentRate(r.completed, r.total)
    ensures 0 <= r.successRate <= 100
  {
    PaymentStatsOf(db.payments, PaymentsFor(db.payments, AgentApartments(db.apartments, agent)))
  }

  /** getPaymentStats: the statistics over every payment. */
  function AllPaymentStats(db: Db): (r: PaymentStats)
    reads db
    ensures r.total == |db.payments|
    ensures r.completed == |PaymentsWithStatus(db.payments, db.payments.Keys, Completed)|
    ensures r.pending == |PaymentsWithStatus(db.payments, db.payments.Keys, PaymentPending)|
    ensures r.failed == |PaymentsWithStatus(db.payments, db.payments.Keys, Failed)|
    ensures r.successRate == PercentRate(r.completed, r.total)
    ensures 0 <= r.successRate <= 100
  {
    assert |db.payments.Keys| == |db.payments|;
    PaymentStatsOf(db.payments, db.payments.Keys)
  }
}
