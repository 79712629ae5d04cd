/**
 * Request sequences run against an empty database. They show, through the
 * handlers' own contracts, that the apartments' `availability` flag is not
 * kept in step with the bookings that exist, that the approval gate of agent
 * login opens only after an administrator's decision, and what the booking
 * schema's missing "confirmed" status does to reviews.
 */
module Scenarios {
  import opened Common
  import opened Entities
  import opened Database
  import Bookings
  import Payments
  import Reviews
  import Apartments
  import Agents
  import Admins

  const AgentId: Id := 100
  const Alice: Principal := Principal(101, Some("user"), None, "user")
  const Bob: Principal := Principal(102, Some("user"), None, "user")
  const ListingAgent: Principal := Principal(AgentId, None, Some(AgentApproved), "agent")

  /** An agent lists a studio in an empty database; it gets id 0. */
  method Listed() returns (db: Db)
    ensures fresh(db) && db.Valid()
    ensures db.apartments.Keys == {0} && db.apartments[0].availability && db.apartments[0].agent == AgentId
    ensures db.bookings == map[] && db.payments == map[] && db.reviews == map[]
    ensures db.nextId == 1
  {
    db := new Db();
    var code, id := Apartments.CreateApartment(db, ListingAgent, Some("Lekki"), Some(1200), Some("Studio"),
                                              Some("Sea view"), None);
  }

  /**
   * An administrator deletes a pending booking: the booking is gone, yet the
   * apartment stays unavailable with no booking holding it.
   */
  method DeletedPendingBookingStrandsApartment() returns (deleted: Code, available: bool, bookings: nat)
    ensures deleted == Ok && !available && bookings == 0
  {
    var db := Listed();
    var booked := Bookings.CreateBooking(db, Alice, 0);
    assert booked == Created;
    deleted := Bookings.DeleteBooking(db, 1);
    available, bookings := db.apartments[0].availability, |db.bookings|;
  }

  /**
   * Alice books, an administrator makes the apartment available again, and
   * Bob books it too: two pending bookings hold the same apartment.
   */
  method BookedByTwo() returns (db: Db)
    ensures fresh(db) && db.Valid()
    ensures 0 in db.apartments && !db.apartments[0].availability
    ensures db.bookings == map[1 := Booking(Alice.id, 0, Pending, Unpaid), 2 := Booking(Bob.id, 0, Pending, Unpaid)]
  {
    db := Listed();
    var first := Bookings.CreateBooking(db, Alice, 0);
    assert first == Created;
    var reopened := Apartments.UpdateApartmentStatus(db, 0, true);
    assert db.bookings == map[1 := Booking(Alice.id, 0, Pending, Unpaid)];
    assert !Bookings.HasBookingIn(db.bookings, Bob.id, 0, Bookings.BlockingStatuses);
    var second := Bookings.CreateBooking(db, Bob, 0);
    assert second == Created;
  }

  /**
   * When Alice then cancels, the apartment is offered as available while
   * Bob's pending booking still holds it.
   */
  method CancelFreesApartmentBookedByAnother() returns (cancelled: Code, available: bool, bobStillBooked: bool)
    ensures cancelled == Ok && available && bobStillBooked
  {
    var db := BookedByTwo();
    cancelled := Bookings.CancelBooking(db, Alice, 1);
    available := db.apartments[0].availability;
    bobStillBooked := 2 in db.bookings && db.bookings[2].user == Bob.id && db.bookings[2].status == Pending;
  }

  /** Alice books the listed apartment and pays for the booking; booking 1, payment 2. */
  method BookedAndPaid() returns (db: Db)
    ensures fresh(db) && db.Valid()
    ensures db.apartments.Keys == {0} && db.reviews == map[]
    ensures db.bookings == map[1 := Booking(Alice.id, 0, Pending, Unpaid)]
    ensures 2 in db.payments
  {
    db := Listed();
    var booked := Bookings.CreateBooking(db, Alice, 0);
    assert booked == Created;
    assert !Payments.HasCompletedPayment(db.payments, 1);
    assert !Payments.TransactionIdTaken(db.payments, "TXN-1");
    var paid, paymentId := Payments.CreatePayment(db, Alice, Some(1), Some(1200), Some("card"), None, "TXN-1");
    assert paid == Created;
  }

  /**
   * With the booking schema as written, the settlement cannot store
   * "confirmed", so the paying tenant is refused a review.
   */
  method ReviewAfterSettlementAsWritten(now: Time) returns (reviewed: Code)
    ensures reviewed == Forbidden
  {
    var db := BookedAndPaid();
    Payments.SettleAsWritten(db, 2, 1, now);
    assert db.bookings == map[1 := Booking(Alice.id, 0, Pending, Unpaid)];
    assert !Bookings.HasBookingIn(db.bookings, Alice.id, 0, {Confirmed});
    var id;
    reviewed, id := Reviews.SubmitReview(db, Alice, Some(0), None, Some(5), Some("Lovely"), None);
  }

  /** With "confirmed" in the schema's list, the same tenant may review after settlement. */
  method ReviewAfterSettlement(now: Time) returns (reviewed: Code)
    ensures reviewed == Created
  {
    var db := BookedAndPaid();
    var b := Booking(Alice.id, 0, Confirmed, Paid);
    assert !BookingSaveConflicts(db.bookings, 1, b);
    Payments.Settle(db, 2, 1, now);
    assert db.bookings[1] == b;
    assert Bookings.HasBookingIn(db.bookings, Alice.id, 0, {Confirmed});
    assert !Reviews.HasReviewed(db.reviews, Alice.id, 0);
    var id;
    reviewed, id := Reviews.SubmitReview(db, Alice, Some(0), None, Some(5), Some("Lovely"), None);
  }

  /**
   * A newly registered agent with the right password is refused at login
   * until an administrator approves the account, and admitted afterwards.
   */
  method ApprovalOpensAgentLogin(hash: string -> string, passwordMatches: (string, string) -> bool)
    returns (before: Code, approval: Code, after: Code)
    requires passwordMatches("s3cret", hash("s3cret"))
    ensures before == Forbidden && approval == Ok && after == Ok
  {
    var db := new Db();
    var registered, agentId := Agents.RegisterAgent(db, Some("Ada"), Some("ada@estate.ng"), Some("s3cret"),
                                                    Some("0801"), None, hash);
    assert !Agents.AgentEmailTaken(map[], "ada@estate.ng");
    assert registered == Created;
    assert db.agents[0].email == "ada@estate.ng";
    var id1;
    before, id1 := Agents.LoginAgent(db, Some("ada@estate.ng"), Some("s3cret"), passwordMatches);
    approval := Admins.UpdateAgentStatus(db, 0, "approved");
    assert db.agents[0].email == "ada@estate.ng" && db.agents[0].status == AgentApproved;
    var id2;
    after, id2 := Agents.LoginAgent(db, Some("ada@estate.ng"), Some("s3cret"), passwordMatches);
  }
}
