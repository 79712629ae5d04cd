/**
 * The user controller: registration and login, the user's profile, and an
 * older set of user-side handlers for booking, reporting and inspection
 * requests that check less than the dedicated controllers do. Password
 * hashing and comparison are the parameters `hash` and `passwordMatches`.
 */
module Users {
  import opened Common
  import opened Entities
  import opened Database
  import Bookings
  import Apartments
  import Reports

  /** Some record in `users` has this e-mail. */
  predicate EmailTaken(users: map<Id, User>, email: string)
  {
    exists k :: k in users && users[k].email == email
  }

  /** `POST /users/register` (registerUser). */
  method RegisterUser(db: Db, name: Option<string>, email: Option<string>, password: Option<string>,
                      phone: Option<string>, hash: string -> string) returns (code: Code, userId: Id)
    requires db.Valid()
    modifies db`users, db`nextId
    ensures db.Valid()
    ensures code == BadRequest <==>
      !Truthy(name) || !Truthy(email) || !Truthy(password) || !Truthy(phone) ||
      EmailTaken(old(db.users), email.value)
    ensures code in {Created, BadRequest}
    ensures code == Created ==>
      && userId == old(db.nextId)
      && db.users == old(db.users)[userId :=
           User(name.value, email.value, hash(password.value), phone.value, "user", DefaultPreferences)]
      && db.nextId == old(db.nextId) + 1
    ensures code != Created ==> unchanged(db)
  {
    userId := db.nextId;
    if !Truthy(name) || !Truthy(email) || !Truthy(password) || !Truthy(phone) {
      return BadRequest, userId;
    }
    if EmailTaken(db.users, email.value) {
      return BadRequest, userId;
    }
    db.users := db.users[userId := User(name.value, email.value, hash(password.value), phone.value, "user", DefaultPreferences)];
    db.nextId := db.nextId + 1;
    code := Created;
  }

  /**
   * `POST /users/login` (loginUser): 401 unless the e-mail is registered and
   * the password matches its hash; on success the token carries role "user".
   */
  method LoginUser(db: Db, email: string, password: string, passwordMatches: (string, string) -> bool)
    returns (code: Code, userId: Option<Id>)
    requires db.Valid()
    ensures code == Ok <==>
      exists k :: k in db.users && db.users[k].email == email && passwordMatches(password, db.users[k].password)
    ensures code in {Ok, Unauthorized}
    ensures userId.Some? <==> code == Ok
    ensures code == Ok ==>
      userId.value in db.users && db.users[userId.value].email == email &&
      passwordMatches(password, db.users[userId.value].password)
  {
    if !EmailTaken(db.users, email) {
      return Unauthorized, None;
    }
    var k :| k in db.users && db.users[k].email == email;
    if !passwordMatches(password, db.users[k].password) {
      return Unauthorized, None;
    }
    code, userId := Ok, Some(k);
  }

  /** `PUT /users/profile` (updateUserProfile): truthy name and phone replace the stored ones. */
  method UpdateUserProfile(db: Db, caller: Principal, name: Option<string>, phone: Option<string>) returns (code: Code)
    requires db.Valid()
    modifies db`users
    ensures db.Valid()
    // a caller that is not a user makes `findById` null, and the handler throws
    ensures code == ServerError <==> caller.id !in old(db.users)
    ensures code in {Ok, ServerError}
    ensures code == Ok ==>
      var u := old(db.users[caller.id]);
      db.users == old(db.users)[caller.id := u.(name := OrDefault(name, u.name), phone := OrDefault(phone, u.phone))]
    ensures code != Ok ==> unchanged(db)
  {
    if caller.id !in db.users {
      return ServerError;
    }
    var u := db.users[caller.id];
    db.users := db.users[caller.id := u.(name := OrDefault(name, u.name), phone := OrDefault(phone, u.phone))];
    code := Ok;
  }

  /** Only name and phone change, and only when they are supplied and non-empty. */
  lemma ProfileUpdateKeepsCredentials(u: User, name: Option<string>, phone: Option<string>)
    ensures var v := u.(name := OrDefault(name, u.name), phone := OrDefault(phone, u.phone));
      && v.email == u.email && v.password == u.password && v.role == u.role && v.preferences == u.preferences
      && (!Truthy(name) && !Truthy(phone) ==> v == u)
  {
  }

  /**
   * `GET /users/apartments` (getAllApartments in the user controller): the
   * same query as filterApartments; the two differ only in the order.
   */
  function UserApartments(apts: map<Id, Apartment>, location: Option<string>, minPrice: Option<int>,
                          maxPrice: Option<int>, category: Option<string>, matches: (string, string) -> bool)
    : (r: set<Id>)
    ensures forall k :: k in r <==>
      k in apts && Apartments.MatchesFilter(apts[k], location, category, minPrice, maxPrice, matches)
    ensures r <= Apartments.AvailableIds(apts)
  {
    set k | k in apts && Apartments.MatchesFilter(apts[k], location, category, minPrice, maxPrice, matches)
  }

  /** Both bounds are inclusive: an apartment priced exactly at a bound is listed. */
  lemma PriceBoundsInclusive(apts: map<Id, Apartment>, k: Id, matches: (string, string) -> bool)
    requires k in apts && apts[k].availability
    ensures k in UserApartments(apts, None, Some(apts[k].price), Some(apts[k].price), None, matches)
  {
  }

  /** The user has a booking of the apartment, in any status. */
  predicate HasAnyBooking(bs: map<Id, Booking>, user: Id, apartment: Id)
  {
    exists k :: k in bs && bs[k].user == user && bs[k].apartment == apartment
  }

  /** `POST /users/book` (bookApartment). */
  method BookApartment(db: Db, caller: Principal, apartmentId: Option<Id>) returns (code: Code, bookingId: Id)
    requires db.Valid()
    modifies db`bookings, db`apartments, db`nextId
    ensures db.Valid()
    ensures code == NotFound <==> apartmentId.Some? && apartmentId.value !in old(db.apartments)
    ensures code == BadRequest <==>
      apartmentId.None? ||
      (apartmentId.value in old(db.apartments) &&
       (!old(db.apartments[apartmentId.value].availability) ||
        HasAnyBooking(old(db.bookings), caller.id, apartmentId.value)))
    ensures code in {Created, NotFound, BadRequest}
    ensures code == Created ==>
      && bookingId == old(db.nextId)
      && db.bookings == old(db.bookings)[bookingId := Booking(caller.id, apartmentId.value, Pending, Unpaid)]
      && db.apartments == Bookings.WithAvailability(old(db.apartments), apartmentId.value, false)
      && db.nextId == old(db.nextId) + 1
    ensures code != Created ==> unchanged(db)
  {
    bookingId := db.nextId;
    if apartmentId.None? {
      return BadRequest, bookingId;
    }
    var apt := apartmentId.value;
    if apt !in db.apartments {
      return NotFound, bookingId;
    }
    if !db.apartments[apt].availability || HasAnyBooking(db.bookings, caller.id, apt) {
      return BadRequest, bookingId;
    }
    var b := Booking(caller.id, apt, Pending, Unpaid);
    BookingSaveKeepsIndex(db.bookings, bookingId, b);
    db.bookings := db.bookings[bookingId := b];
    db.nextId := db.nextId + 1;
    db.apartments := Bookings.WithAvailability(db.apartments, apt, false);
    code := Created;
  }

  /** Whatever createBooking refuses as a duplicate, bookApartment refuses too. */
  lemma BookApartmentIsStricter(bs: map<Id, Booking>, user: Id, apartment: Id)
    ensures Bookings.HasBookingIn(bs, user, apartment, Bookings.BlockingStatuses) ==> HasAnyBooking(bs, user, apartment)
  {
  }

  /** A rejected booking blocks bookApartment but not createBooking. */
  lemma RejectedBookingBlocksOnlyBookApartment(user: Id, apartment: Id)
    ensures var bs := map[0 := Booking(user, apartment, Rejected, Unpaid)];
      HasAnyBooking(bs, user, apartment) && !Bookings.HasBookingIn(bs, user, apartment, Bookings.BlockingStatuses)
  {
    var bs := map[0 := Booking(user, apartment, Rejected, Unpaid)];
    assert bs[0].user == user && bs[0].apartment == apartment;
  }

  /**
   * `DELETE /users/bookings/:id` (cancelBooking in the user controller):
   * `findByIdAndUpdate` on a missing apartment does nothing, so unlike the
   * booking controller's cancel there is no server error.
   */
  method CancelBooking(db: Db, caller: Principal, bookingId: Id) returns (code: Code)
    requires db.Valid()
    modifies db`bookings, db`apartments
    ensures db.Valid()
    ensures code == NotFound <==> bookingId !in old(db.bookings)
    ensures code == Forbidden <==> bookingId in old(db.bookings) && old(db.bookings[bookingId].user) != caller.id
    ensures code in {Ok, NotFound, Forbidden}
    ensures code == Ok ==>
      var apt := old(db.bookings[bookingId].apartment);
      && db.bookings == old(db.bookings) - {bookingId}
      && db.apartments == (if apt in old(db.apartments) then Bookings.WithAvailability(old(db.apartments), apt, true)
                           else old(db.apartments))
    ensures code != Ok ==> unchanged(db)
  {
    if bookingId !in db.bookings {
      return NotFound;
    }
    var b := db.bookings[bookingId];
    if b.user != caller.id {
      return Forbidden;
    }
    if b.apartment in db.apartments {
      db.apartments := Bookings.WithAvailability(db.apartments, b.apartment, true);
    }
    db.bookings := db.bookings - {bookingId};
    code := Ok;
  }

  /**
   * `POST /users/report` (submitReport in the user controller): no
   * once-a-day check, and the schema defaults give a general report of
   * medium priority.
   */
  method SubmitReport(db: Db, caller: Principal, apartmentId: Option<Id>, message: Option<string>, now: Time)
    returns (code: Code, reportId: Id)
    requires db.Valid()
    modifies db`reports, db`nextId
    ensures db.Valid()
    ensures code == BadRequest <==> apartmentId.None? || !Truthy(message)
    ensures code == NotFound <==> apartmentId.Some? && Truthy(message) && apartmentId.value !in old(db.apartments)
    ensures code in {Created, BadRequest, NotFound}
    ensures code == Created ==>
      && reportId == old(db.nextId)
      && db.reports == old(db.reports)[reportId :=
           Reports.NewReport(caller.id, apartmentId.value, message.value, General, Medium, now)]
      && db.nextId == old(db.nextId) + 1
    ensures code != Created ==> unchanged(db)
  {
    reportId := db.nextId;
    if apartmentId.None? || !Truthy(message) {
      return BadRequest, reportId;
    }
    if apartmentId.value !in db.apartments {
      return NotFound, reportId;
    }
    db.reports := db.reports[reportId := Reports.NewReport(caller.id, apartmentId.value, message.value, General, Medium, now)];
    db.nextId := db.nextId + 1;
    code := Created;
  }

  /**
   * `POST /users/inspection` (requestInspection in the user controller): no
   * availability, duplicate or date check, and no message.
   */
  method RequestInspection(db: Db, caller: Principal, apartmentId: Option<Id>, date: Option<Time>, time: Option<string>)
    returns (code: Code, requestId: Id)
    requires db.Valid()
    modifies db`inspections, db`nextId
    ensures db.Valid()
    ensures code == BadRequest <==> apartmentId.None? || date.None?
    ensures code == NotFound <==> apartmentId.Some? && date.Some? && apartmentId.value !in old(db.apartments)
    ensures code in {Created, BadRequest, NotFound}
    ensures code == Created ==>
      && requestId == old(db.nextId)
      && db.inspections == old(db.inspections)[requestId :=
           Inspection(caller.id, old(db.apartments[apartmentId.value].agent), apartmentId.value, date.value,
                      OrDefault(time, "10:00 AM"), None, InspectionPending, None, None, false, None)]
      && db.nextId == old(db.nextId) + 1
    ensures code != Created ==> unchanged(db)
  {
    requestId := db.nextId;
    if apartmentId.None? || date.None? {
      return BadRequest, requestId;
    }
    if apartmentId.value !in db.apartments {
      return NotFound, requestId;
    }
    db.inspections := db.inspections[requestId :=
      Inspection(caller.id, db.apartments[apartmentId.value].agent, apartmentId.value, date.value,
                 OrDefault(time, "10:00 AM"), None, InspectionPending, None, None, false, None)];
    db.nextId := db.nextId + 1;
    code := Created;
  }
}
