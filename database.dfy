/**
 * The MongoDB database the controllers work on: one collection per model,
 * each a map from document id to document, and the id source. `Valid()`
 * collects what the schemas and the handlers keep true of every collection:
 * ids are fresh, the unique indexes hold, and every stored review rating is
 * between 1 and 5.
 */
module Database {
  import opened Common
  import opened Entities

  /** Every id in use was handed out before `next`. */
  predicate KeysBelow<T>(m: map<Id, T>, next: nat)
  {
    forall k :: k in m ==> k < next
  }

  /** The booking index over `{ user, apartment, status }` is unique. */
  predicate SameBookingKey(a: Booking, b: Booking)
  {
    a.user == b.user && a.apartment == b.apartment && a.status == b.status
  }

  ghost predicate BookingIndexUnique(bs: map<Id, Booking>)
  {
    forall i, j :: i in bs && j in bs && i != j ==> !SameBookingKey(bs[i], bs[j])
  }

  /** Saving `b` under `id` would violate the booking index. */
  predicate BookingSaveConflicts(bs: map<Id, Booking>, id: Id, b: Booking)
  {
    exists k :: k in bs && k != id && SameBookingKey(bs[k], b)
  }

  /** Saving a booking that does not collide with another keeps the index unique. */
  lemma BookingSaveKeepsIndex(bs: map<Id, Booking>, id: Id, b: Booking)
    requires BookingIndexUnique(bs) && !BookingSaveConflicts(bs, id, b)
    ensures BookingIndexUnique(bs[id := b])
  {
  }

  lemma BookingSaveKeepsIndexIf(bs: map<Id, Booking>, id: Id, b: Booking)
    requires !BookingSaveConflicts(bs, id, b)
    ensures BookingIndexUnique(bs) ==> BookingIndexUnique(bs[id := b])
  {
    if BookingIndexUnique(bs) {
      BookingSaveKeepsIndex(bs, id, b);
    }
  }

  /** The review index over `{ user, apartment }` is unique. */
  ghost predicate ReviewIndexUnique(rs: map<Id, Review>)
  {
    forall i, j :: i in rs && j in rs && i != j ==>
      !(rs[i].user == rs[j].user && rs[i].apartment == rs[j].apartment)
  }

  /** The favourite index over `{ user, apartment }` is unique. */
  ghost predicate FavoriteIndexUnique(fs: map<Id, Favorite>)
  {
    forall i, j :: i in fs && j in fs && i != j ==>
      !(fs[i].user == fs[j].user && fs[i].apartment == fs[j].apartment)
  }

  /** Payment `transactionId` is a unique field. */
  ghost predicate TransactionIdsUnique(ps: map<Id, Payment>)
  {
    forall i, j :: i in ps && j in ps && i != j ==> ps[i].transactionId != ps[j].transactionId
  }

  /** Rewriting one payment without touching its transaction id keeps the ids unique. */
  lemma PaymentUpdateKeepsIds(ps: map<Id, Payment>, id: Id, p: Payment)
    requires TransactionIdsUnique(ps) && id in ps && p.transactionId == ps[id].transactionId
    ensures TransactionIdsUnique(ps[id := p])
  {
  }

  /** User `email` is a unique field. */
  ghost predicate UserEmailsUnique(us: map<Id, User>)
  {
    forall i, j :: i in us && j in us && i != j ==> us[i].email != us[j].email
  }

  /** No two agents share an e-mail: agent registration refuses a known address. */
  ghost predicate AgentEmailsUnique(ags: map<Id, Agent>)
  {
    forall i, j :: i in ags && j in ags && i != j ==> ags[i].email != ags[j].email
  }

  /** No two administrators share an e-mail: admin registration refuses a known address. */
  ghost predicate AdminEmailsUnique(ads: map<Id, Admin>)
  {
    forall i, j :: i in ads && j in ads && i != j ==> ads[i].email != ads[j].email
  }

  /** Every stored review has a rating the review handlers accept. */
  ghost predicate RatingsInRange(rs: map<Id, Review>)
  {
    forall i :: i in rs ==> 1 <= rs[i].rating <= 5
  }

  class Db {
    var users: map<Id, User>
    var agents: map<Id, Agent>
    var admins: map<Id, Admin>
    var apartments: map<Id, Apartment>
    var bookings: map<Id, Booking>
    var payments: map<Id, Payment>
    var inspections: map<Id, Inspection>
    var reviews: map<Id, Review>
    var reports: map<Id, Report>
    var favorites: map<Id, Favorite>
    var notifications: map<Id, Notification>
    /** The next fresh document id. */
    var nextId: nat

    ghost predicate Valid()
      reads this
    {
      && KeysBelow(users, nextId) && KeysBelow(agents, nextId) && KeysBelow(admins, nextId)
      && KeysBelow(apartments, nextId) && KeysBelow(bookings, nextId) && KeysBelow(payments, nextId)
      && KeysBelow(inspections, nextId) && KeysBelow(reviews, nextId) && KeysBelow(reports, nextId)
      && KeysBelow(favorites, nextId) && KeysBelow(notifications, nextId)
      && BookingIndexUnique(bookings)
      && ReviewIndexUnique(reviews)
      && FavoriteIndexUnique(favorites)
      && TransactionIdsUnique(payments)
      && UserEmailsUnique(users)
      && AgentEmailsUnique(agents)
      && AdminEmailsUnique(admins)
      && RatingsInRange(reviews)
    }

    /** An empty database. */
    constructor ()
      ensures Valid()
      ensures users == map[] && agents == map[] && admins == map[] && apartments == map[]
      ensures bookings == map[] && payments == map[] && inspections == map[] && reviews == map[]
      ensures reports == map[] && favorites == map[] && notifications == map[]
      ensures nextId == 0
    {
      users, agents, admins, apartments := map[], map[], map[], map[];
      bookings, payments, inspections, reviews := map[], map[], map[], map[];
      reports, favorites, notifications := map[], map[], map[];
      nextId := 0;
    }
  }
}
