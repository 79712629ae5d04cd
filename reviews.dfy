/**
 * The review controller: a user with a confirmed booking (or an
 * administrator) reviews an apartment once, may edit or delete the review,
 * the apartment's agent may answer it, and every change recomputes the
 * apartment's average rating and review count. Averages are kept in tenths
 * and rounded half up, as `toFixed(1)` rounds an exact mean.
 */
module Reviews {
  import opened Common
  import opened Entities
  import opened Database
  import opened Bookings

  /** The ids of the apartment's reviews. */
  function ReviewsOf(rs: map<Id, Review>, apartment: Id): set<Id>
  {
    set k | k in rs && rs[k].apartment == apartment
  }

  /** The apartment's review ids below `n`. */
  function ReviewsBelow(rs: map<Id, Review>, apartment: Id, n: nat): set<Id>
  {
    set k | k in rs && rs[k].apartment == apartment && k < n
  }

  /** The ratings of the apartment's reviews with ids below `n`, in id order (`Review.find({ apartment })`). */
  function Ratings(rs: map<Id, Review>, apartment: Id, n: nat): seq<int>
  {
    if n == 0 then []
    else Ratings(rs, apartment, n - 1) +
         (if n - 1 in rs && rs[n - 1].apartment == apartment then [rs[n - 1].rating] else [])
  }

  function Sum(s: seq<int>): int
  {
    if s == [] then 0 else Sum(s[..|s| - 1]) + s[|s| - 1]
  }

  /**
   * `parseFloat((sum / n).toFixed(1))` in tenths over exact rationals: ten
   * times the mean, rounded half up.
   */
  function AverageTenths(sum: int, n: nat): (r: int)
    requires n > 0
    ensures 2 * n * r <= 20 * sum + n < 2 * n * (r + 1)
  {
    DivBounds(20 * sum + n, 2 * n);
    (20 * sum + n) / (2 * n)
  }

  /** One rating list per apartment: there is a rating for every one of its reviews. */
  lemma {:induction false} RatingsCount(rs: map<Id, Review>, apartment: Id, n: nat)
    ensures |Ratings(rs, apartment, n)| == |ReviewsBelow(rs, apartment, n)|
  {
    if n > 0 {
      RatingsCount(rs, apartment, n - 1);
      var prev := ReviewsBelow(rs, apartment, n - 1);
      if n - 1 in rs && rs[n - 1].apartment == apartment {
        assert ReviewsBelow(rs, apartment, n) == prev + {n - 1};
        assert n - 1 !in prev;
      } else {
        assert ReviewsBelow(rs, apartment, n) == prev;
      }
    }
  }

  /** Every rating listed lies in 1..5 when every stored review's does. */
  lemma {:induction false} RatingsInBounds(rs: map<Id, Review>, apartment: Id, n: nat)
    requires RatingsInRange(rs)
    ensures forall i :: 0 <= i < |Ratings(rs, apartment, n)| ==> 1 <= Ratings(rs, apartment, n)[i] <= 5
  {
    if n > 0 {
      RatingsInBounds(rs, apartment, n - 1);
    }
  }

  /** The sum of ratings in 1..5 lies between their count and five times it. */
  lemma {:induction false} SumBounds(s: seq<int>)
    requires forall i :: 0 <= i < |s| ==> 1 <= s[i] <= 5
    ensures |s| <= Sum(s) <= 5 * |s|
  {
    if s != [] {
      SumBounds(s[..|s| - 1]);
    }
  }

  /** The mean of ratings in 1..5, in tenths, lies in 10..50. */
  lemma {:induction false} AverageInRange(s: seq<int>)
    requires |s| > 0 && forall i :: 0 <= i < |s| ==> 1 <= s[i] <= 5
    ensures 10 <= AverageTenths(Sum(s), |s|) <= 50
  {
    SumBounds(s);
    var n, r := |s|, AverageTenths(Sum(s), |s|);
    assert 2 * n * 10 < 2 * n * (r + 1) by {
      assert 20 * n <= 20 * Sum(s);
    }
    CancelFactor(2 * n, 10, r + 1);
    assert 2 * n * r < 2 * n * 51 by {
      assert 20 * Sum(s) <= 100 * n;
    }
    CancelFactor(2 * n, r, 51);
  }

  /** The apartments after `updateApartmentRating(apartmentId)`: nothing when it has no reviews. */
  function Rerated(apts: map<Id, Apartment>, rs: map<Id, Review>, apartmentId: Id, n: nat): map<Id, Apartment>
  {
    var ratings := Ratings(rs, apartmentId, n);
    if |ratings| > 0 && apartmentId in apts then
      apts[apartmentId := apts[apartmentId].(averageTenths := AverageTenths(Sum(ratings), |ratings|),
                                             totalReviews := |ratings|)]
    else apts
  }

  /**
   * What the recomputation means: with at least one review, the apartment
   * holds their count and their mean in 1.0..5.0; with none, it keeps
   * whatever it held before; no other apartment changes.
   */
  lemma RerateMeaning(apts: map<Id, Apartment>, rs: map<Id, Review>, apartmentId: Id, n: nat)
    requires KeysBelow(rs, n) && RatingsInRange(rs)
    ensures Rerated(apts, rs, apartmentId, n).Keys == apts.Keys
    ensures forall k :: k in apts && k != apartmentId ==> Rerated(apts, rs, apartmentId, n)[k] == apts[k]
    ensures ReviewsOf(rs, apartmentId) == {} ==> Rerated(apts, rs, apartmentId, n) == apts
    ensures apartmentId in apts && ReviewsOf(rs, apartmentId) != {} ==>
      var a := Rerated(apts, rs, apartmentId, n)[apartmentId];
      && a.totalReviews == |ReviewsOf(rs, apartmentId)|
      && 10 <= a.averageTenths <= 50
      && a == apts[apartmentId].(averageTenths := a.averageTenths, totalReviews := a.totalReviews)
  {
    RatingsCount(rs, apartmentId, n);
    assert ReviewsBelow(rs, apartmentId, n) == ReviewsOf(rs, apartmentId);
    var ratings := Ratings(rs, apartmentId, n);
    if |ratings| > 0 {
      RatingsInBounds(rs, apartmentId, n);
      AverageInRange(ratings);
    }
  }

  /** `updateApartmentRating(apartmentId)`: recompute from the stored reviews. */
  method UpdateApartmentRating(db: Db, apartmentId: Id)
    requires db.Valid()
    modifies db`apartments
    ensures db.Valid()
    ensures db.apartments == Rerated(old(db.apartments), db.reviews, apartmentId, db.nextId)
  {
    var ratings := Ratings(db.reviews, apartmentId, db.nextId);
    if |ratings| > 0 && apartmentId in db.apartments {
      db.apartments := db.apartments[apartmentId :=
        db.apartments[apartmentId].(averageTenths := AverageTenths(Sum(ratings), |ratings|),
                                    totalReviews := |ratings|)];
    }
  }

  /** The user has already reviewed the apartment. */
  predicate HasReviewed(rs: map<Id, Review>, user: Id, apartment: Id)
  {
    exists k :: k in rs && rs[k].user == user && rs[k].apartment == apartment
  }

  /** The review `Review.create` stores. */
  function NewReview(user: Id, apartmentId: Id, apartment: Apartment, agentId: Option<Id>, rating: int,
                     comment: Option<string>, images: Option<seq<string>>): Review
  {
    Review(user, apartmentId, if agentId.Some? then agentId.value else apartment.agent, rating,
           OrDefault(comment, ""), ListOrEmpty(images), None, None)
  }

  /** `POST /reviews` (submitReview). */
  method SubmitReview(db: Db, caller: Principal, apartmentId: Option<Id>, agentId: Option<Id>,
                      rating: Option<int>, comment: Option<string>, images: Option<seq<string>>)
    returns (code: Code, reviewId: Id)
    requires db.Valid()
    modifies db`reviews, db`apartments, db`nextId
    ensures db.Valid()
    ensures code == BadRequest <==>
      apartmentId.None? || !TruthyNumber(rating) || rating.value < 1 || rating.value > 5 ||
      (apartmentId.value in old(db.apartments) &&
       (HasBookingIn(old(db.bookings), caller.id, apartmentId.value, {Confirmed}) || HasRole(caller, "admin")) &&
       HasReviewed(old(db.reviews), caller.id, apartmentId.value))
    ensures code == NotFound <==>
      apartmentId.Some? && TruthyNumber(rating) && 1 <= rating.value <= 5 && apartmentId.value !in old(db.apartments)
    ensures code == Forbidden <==>
      apartmentId.Some? && TruthyNumber(rating) && 1 <= rating.value <= 5 && apartmentId.value in old(db.apartments) &&
      !HasBookingIn(old(db.bookings), caller.id, apartmentId.value, {Confirmed}) && !HasRole(caller, "admin")
    ensures code in {Created, BadRequest, NotFound, Forbidden}
    ensures code == Created ==>
      && reviewId == old(db.nextId)
      && db.reviews == old(db.reviews)[reviewId :=
           NewReview(caller.id, apartmentId.value, old(db.apartments[apartmentId.value]), agentId, rating.value, comment, images)]
      && db.nextId == old(db.nextId) + 1
      && db.apartments == Rerated(old(db.apartments), db.reviews, apartmentId.value, db.nextId)
      // the apartment now counts the new review and has a mean in 1.0..5.0
      && db.apartments[apartmentId.value].totalReviews == |ReviewsOf(db.reviews, apartmentId.value)| > 0
      && 10 <= db.apartments[apartmentId.value].averageTenths <= 50
    ensures code != Created ==> unchanged(db)
  {
    reviewId := db.nextId;
    if apartmentId.None? || !TruthyNumber(rating) {
      return BadRequest, reviewId;
    }
    if rating.value < 1 || rating.value > 5 {
      return BadRequest, reviewId;
    }
    if apartmentId.value !in db.apartments {
      return NotFound, reviewId;
    }
    var apt := apartmentId.value;
    if !HasBookingIn(db.bookings, caller.id, apt, {Confirmed}) && !HasRole(caller, "admin") {
      return Forbidden, reviewId;
    }
    if HasReviewed(db.reviews, caller.id, apt) {
      return BadRequest, reviewId;
    }
    StoreReview(db, NewReview(caller.id, apt, db.apartments[apt], agentId, rating.value, comment, images));
    code := Created;
  }

  /** `Review.create` of a first review of an existing apartment, then the apartment's recomputation. */
  method StoreReview(db: Db, r: Review)
    requires db.Valid()
    requires r.apartment in db.apartments && 1 <= r.rating <= 5 && !HasReviewed(db.reviews, r.user, r.apartment)
    modifies db`reviews, db`apartments, db`nextId
    ensures db.Valid()
    ensures db.reviews == old(db.reviews)[old(db.nextId) := r] && db.nextId == old(db.nextId) + 1
    ensures db.apartments == Rerated(old(db.apartments), db.reviews, r.apartment, db.nextId)
    ensures db.apartments[r.apartment].totalReviews == |ReviewsOf(db.reviews, r.apartment)| > 0
    ensures 10 <= db.apartments[r.apartment].averageTenths <= 50
  {
    var id := db.nextId;
    db.reviews := db.reviews[id := r];
    db.nextId := db.nextId + 1;
    assert id in ReviewsOf(db.reviews, r.apartment);
    RerateMeaning(db.apartments, db.reviews, r.apartment, db.nextId);
    UpdateApartmentRating(db, r.apartment);
  }

  /** The review after `updateReview`: a truthy rating, and any supplied comment or images, replace the old ones. */
  function Patched(r: Review, rating: Option<int>, comment: Option<string>, images: Option<seq<string>>): Review
  {
    r.(rating := if TruthyNumber(rating) then rating.value else r.rating,
       comment := if comment.Some? then comment.value else r.comment,
       images := if images.Some? then images.value else r.images)
  }

  /** `PUT /reviews/:reviewId` (updateReview). */
  method UpdateReview(db: Db, caller: Principal, reviewId: Id, rating: Option<int>,
                      comment: Option<string>, images: Option<seq<string>>) returns (code: Code)
    requires db.Valid()
    modifies db`reviews, db`apartments
    ensures db.Valid()
    ensures code == NotFound <==> reviewId !in old(db.reviews)
    ensures code == Forbidden <==> reviewId in old(db.reviews) && old(db.reviews[reviewId].user) != caller.id
    ensures code == BadRequest <==>
      reviewId in old(db.reviews) && old(db.reviews[reviewId].user) == caller.id &&
      TruthyNumber(rating) && (rating.value < 1 || rating.value > 5)
    ensures code in {Ok, NotFound, Forbidden, BadRequest}
    ensures code == Ok ==>
      var r := old(db.reviews[reviewId]);
      && db.reviews == old(db.reviews)[reviewId := Patched(r, rating, comment, images)]
      && db.apartments == Rerated(old(db.apartments), db.reviews, r.apartment, db.nextId)
    ensures code != Ok ==> unchanged(db)
  {
    if reviewId !in db.reviews {
      return NotFound;
    }
    var r := db.reviews[reviewId];
    if r.user != caller.id {
      return Forbidden;
    }
    if TruthyNumber(rating) && (rating.value < 1 || rating.value > 5) {
      return BadRequest;
    }
    db.reviews := db.reviews[reviewId := Patched(r, rating, comment, images)];
    UpdateApartmentRating(db, r.apartment);
    code := Ok;
  }

  /** `DELETE /reviews/:reviewId` (deleteReview): the author or an administrator. */
  method DeleteReview(db: Db, caller: Principal, reviewId: Id) returns (code: Code)
    requires db.Valid()
    modifies db`reviews, db`apartments
    ensures db.Valid()
    ensures code == NotFound <==> reviewId !in old(db.reviews)
    ensures code == Forbidden <==>
      reviewId in old(db.reviews) && old(db.reviews[reviewId].user) != caller.id && !HasRole(caller, "admin")
    ensures code in {Ok, NotFound, Forbidden}
    ensures code == Ok ==>
      && db.reviews == old(db.reviews) - {reviewId}
      && db.apartments == Rerated(old(db.apartments), db.reviews, old(db.reviews[reviewId].apartment), db.nextId)
    ensures code != Ok ==> unchanged(db)
  {
    if reviewId !in db.reviews {
      return NotFound;
    }
    var r := db.reviews[reviewId];
    if r.user != caller.id && !HasRole(caller, "admin") {
      return Forbidden;
    }
    db.reviews := db.reviews - {reviewId};
    UpdateApartmentRating(db, r.apartment);
    code := Ok;
  }

  /** `DELETE /reviews/admin/:reviewId` (adminDeleteReview). */
  method AdminDeleteReview(db: Db, reviewId: Id) returns (code: Code)
    requires db.Valid()
    modifies db`reviews, db`apartments
    ensures db.Valid()
    ensures code == NotFound <==> reviewId !in old(db.reviews)
    ensures code in {Ok, NotFound}
    ensures code == Ok ==>
      && db.reviews == old(db.reviews) - {reviewId}
      && db.apartments == Rerated(old(db.apartments), db.reviews, old(db.reviews[reviewId].apartment), db.nextId)
    ensures code != Ok ==> unchanged(db)
  {
    if reviewId !in db.reviews {
      return NotFound;
    }
    var r := db.reviews[reviewId];
    db.reviews := db.reviews - {reviewId};
    UpdateApartmentRating(db, r.apartment);
    code := Ok;
  }

  /** `PUT /reviews/:reviewId/respond` (respondToReview): the apartment's agent answers. */
  method RespondToReview(db: Db, caller: Principal, reviewId: Id, response: Option<string>, now: Time)
    returns (code: Code)
    requires db.Valid()
    modifies db`reviews
    ensures db.Valid()
    ensures code == BadRequest <==> !Truthy(response)
    ensures code == NotFound <==> Truthy(response) && reviewId !in old(db.reviews)
    ensures Truthy(response) && reviewId in old(db.reviews) ==>
      var r := old(db.reviews[reviewId]);
      // `review.apartment._id` throws on a null populated apartment
      && (code == ServerError <==> r.apartment !in old(db.apartments))
      && (code == Forbidden <==> r.apartment in old(db.apartments) && old(db.apartments[r.apartment].agent) != caller.id)
      && (code == Ok ==>
            db.reviews == old(db.reviews)[reviewId := r.(agentResponse := response, respondedAt := Some(now))])
    ensures code in {Ok, BadRequest, NotFound, ServerError, Forbidden}
    ensures code != Ok ==> unchanged(db)
  {
    if !Truthy(response) {
      return BadRequest;
    }
    if reviewId !in db.reviews {
      return NotFound;
    }
    var r := db.reviews[reviewId];
    if r.apartment !in db.apartments {
      return ServerError;
    }
    if db.apartments[r.apartment].agent != caller.id {
      return Forbidden;
    }
    db.reviews := db.reviews[reviewId := r.(agentResponse := response, respondedAt := Some(now))];
    code := Ok;
  }
}
