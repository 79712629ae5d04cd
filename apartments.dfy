/**
 * The apartment controller: public listing, filtering and search of the
 * available apartments, an agent's own listings, and the administrators'
 * listing and availability switch. Regular-expression matching of the
 * query strings is the parameter `matches(field, pattern)`.
 */
module Apartments {
  import opened Common
  import opened Entities
  import opened Database
  import opened Sorting

  /** `GET /apartments` (getAllApartments): `find({ availability: true })`. */
  function AvailableIds(apts: map<Id, Apartment>): (r: set<Id>)
    ensures forall k :: k in r <==> k in apts && apts[k].availability
  {
    set k | k in apts && apts[k].availability
  }

  /**
   * The query filterApartments builds: location and category constrain when
   * truthy; a price bound constrains whenever it is supplied, since any
   * non-empty query string, "0" included, is truthy.
   */
  predicate MatchesFilter(a: Apartment, location: Option<string>, category: Option<string>,
                          minPrice: Option<int>, maxPrice: Option<int>, matches: (string, string) -> bool)
  {
    && a.availability
    && (Truthy(location) ==> matches(a.location, location.value))
    && (Truthy(category) ==> CategoryName(a.category) == category.value)
    && (minPrice.Some? ==> a.price >= minPrice.value)
    && (maxPrice.Some? ==> a.price <= maxPrice.value)
  }

  /** The sort key of `sort({ price: 1 })`. */
  function PriceOf(apts: map<Id, Apartment>): Id -> int
  {
    k => if k in apts then apts[k].price else 0
  }

  function Self(k: Id): Id
  {
    k
  }

  /** Without criteria the filter lists exactly the available apartments. */
  lemma NoCriteriaListsAvailable(apts: map<Id, Apartment>, matches: (string, string) -> bool)
    ensures forall k :: k in AvailableIds(apts) <==> k in apts && MatchesFilter(apts[k], None, None, None, None, matches)
  {
  }

  /**
   * `GET /apartments/filter` (filterApartments). `minPrice` and `maxPrice`
   * are the supplied bounds after `Number(...)`; both are inclusive. The
   * answer lists every matching apartment once, cheapest first.
   */
  method FilterApartments(db: Db, location: Option<string>, category: Option<string>,
                          minPrice: Option<int>, maxPrice: Option<int>, matches: (string, string) -> bool)
    returns (r: seq<Id>)
    ensures forall k :: k in r <==> k in db.apartments && MatchesFilter(db.apartments[k], location, category, minPrice, maxPrice, matches)
    ensures forall i, j :: 0 <= i < j < |r| ==> r[i] != r[j]
    ensures forall i, j :: 0 <= i < j < |r| ==> db.apartments[r[i]].price <= db.apartments[r[j]].price
  {
    var apts := db.apartments;
    var key := PriceOf(apts);
    var remaining := apts.Keys;
    r := [];
    while remaining != {}
      decreases |remaining|
      invariant remaining <= apts.Keys
      invariant forall k :: k in r <==> k in apts && k !in remaining && MatchesFilter(apts[k], location, category, minPrice, maxPrice, matches)
      invariant SortedBy(key, r) && DistinctBy(Self, r)
    {
      var k :| k in remaining;
      if MatchesFilter(apts[k], location, category, minPrice, maxPrice, matches) {
        InsertBySorted(key, k, r);
        InsertByDistinct(key, Self, k, r);
        InsertByMembers(key, k, r);
        r := InsertBy(key, k, r);
      }
      remaining := remaining - {k};
    }
    assert forall i, j :: 0 <= i < j < |r| ==> r[i] != r[j] by {
      assert DistinctBy(Self, r);
    }
  }

  /** `GET /apartments/search` (searchApartments): `q` is required; location, category or description may match it. */
  function SearchApartments(apts: map<Id, Apartment>, q: Option<string>, matches: (string, string) -> bool)
    : (r: (Code, set<Id>))
    ensures r.0 == BadRequest <==> !Truthy(q)
    ensures r.0 in {Ok, BadRequest}
    ensures r.0 == BadRequest ==> r.1 == {}
    ensures r.0 == Ok ==> forall k :: k in r.1 <==>
      k in apts && apts[k].availability &&
      (matches(apts[k].location, q.value) || matches(CategoryName(apts[k].category), q.value) ||
       matches(apts[k].description, q.value))
    ensures r.1 <= AvailableIds(apts)
  {
    if !Truthy(q) then (BadRequest, {})
    else (Ok, set k | k in apts && apts[k].availability &&
                      (matches(apts[k].location, q.value) || matches(CategoryName(apts[k].category), q.value) ||
                       matches(apts[k].description, q.value)))
  }

  /** `GET /apartments/admin/all` (getAllApartmentsAdmin): optional availability and agent filters. */
  function AdminApartments(apts: map<Id, Apartment>, status: Option<string>, agentId: Option<Id>): (r: set<Id>)
    ensures forall k :: k in r <==>
      && k in apts
      && (status == Some("available") ==> apts[k].availability)
      && (status == Some("unavailable") ==> !apts[k].availability)
      && (agentId.Some? ==> apts[k].agent == agentId.value)
  {
    set k | k in apts && (status == Some("available") ==> apts[k].availability)
                      && (status == Some("unavailable") ==> !apts[k].availability)
                      && (agentId.Some? ==> apts[k].agent == agentId.value)
  }

  /** The two status filters split the unfiltered list, and any other status value filters nothing. */
  lemma AdminStatusFilterSplits(apts: map<Id, Apartment>, agentId: Option<Id>, other: string)
    requires other != "available" && other != "unavailable"
    ensures AdminApartments(apts, Some("available"), agentId) + AdminApartments(apts, Some("unavailable"), agentId)
            == AdminApartments(apts, None, agentId)
    ensures AdminApartments(apts, Some("available"), agentId) * AdminApartments(apts, Some("unavailable"), agentId) == {}
    ensures AdminApartments(apts, Some(other), agentId) == AdminApartments(apts, None, agentId)
    ensures AdminApartments(apts, Some("available"), None) == AvailableIds(apts)
  {
  }

  /** The apartment `new Apartment({...})` builds for createApartment, once the category names a schema value. */
  function NewApartment(agent: Id, location: string, price: int, category: Category, description: string,
                        images: Option<seq<string>>): (a: Apartment)
    ensures a.agent == agent && a.availability && a.images == ListOrEmpty(images)
    ensures a.averageTenths == 0 && a.totalReviews == 0
  {
    Apartment(agent, location, price, category, description, ListOrEmpty(images), true, 0, 0)
  }

  /** `POST /apartments` (createApartment in the apartment controller). */
  method CreateApartment(db: Db, caller: Principal, location: Option<string>, price: Option<int>,
                         category: Option<string>, description: Option<string>, images: Option<seq<string>>)
    returns (code: Code, apartmentId: Id)
    requires db.Valid()
    modifies db`apartments, db`nextId
    ensures db.Valid()
    // a zero price is falsy and refused like a missing one
    ensures code == BadRequest <==>
      !Truthy(location) || !TruthyNumber(price) || !Truthy(category) || !Truthy(description)
    // a category outside the schema's list fails validation
    ensures code == ServerError <==>
      Truthy(location) && TruthyNumber(price) && Truthy(category) && Truthy(description) &&
      ParseCategory(category.value).None?
    ensures code in {Created, BadRequest, ServerError}
    ensures code == Created ==>
      && apartmentId == old(db.nextId)
      && db.apartments == old(db.apartments)[apartmentId :=
           NewApartment(caller.id, location.value, price.value, ParseCategory(category.value).value,
                        description.value, images)]
      && db.nextId == old(db.nextId) + 1
    ensures code != Created ==> unchanged(db)
  {
    apartmentId := db.nextId;
    if !Truthy(location) || !TruthyNumber(price) || !Truthy(category) || !Truthy(description) {
      return BadRequest, apartmentId;
    }
    var c := ParseCategory(category.value);
    if c.None? {
      return ServerError, apartmentId;
    }
    db.apartments := db.apartments[apartmentId :=
      NewApartment(caller.id, location.value, price.value, c.value, description.value, images)];
    db.nextId := db.nextId + 1;
    code := Created;
  }

  /**
   * The `allowedUpdates.forEach` patch: each of location, price, category,
   * description, images and availability that is defined replaces the stored
   * one; nothing else changes.
   */
  function PatchedApartment(a: Apartment, location: Option<string>, price: Option<int>, category: Option<Category>,
                            description: Option<string>, images: Option<seq<string>>, availability: Option<bool>)
    : (r: Apartment)
    ensures r.location == (if location.Some? then location.value else a.location)
    ensures r.price == (if price.Some? then price.value else a.price)
    ensures r.category == (if category.Some? then category.value else a.category)
    ensures r.description == (if description.Some? then description.value else a.description)
    ensures r.images == (if images.Some? then images.value else a.images)
    ensures r.availability == (if availability.Some? then availability.value else a.availability)
    ensures r.agent == a.agent && r.averageTenths == a.averageTenths && r.totalReviews == a.totalReviews
  {
    a.(location := if location.Some? then location.value else a.location,
       price := if price.Some? then price.value else a.price,
       category := if category.Some? then category.value else a.category,
       description := if description.Some? then description.value else a.description,
       images := if images.Some? then images.value else a.images,
       availability := if availability.Some? then availability.value else a.availability)
  }

  /**
   * The patch `save()` refuses: an empty location or description fails the
   * schema's `required`, and a category outside the list fails its enum.
   */
  predicate PatchInvalid(location: Option<string>, category: Option<string>, description: Option<string>)
  {
    location == Some("") || description == Some("") || (category.Some? && ParseCategory(category.value).None?)
  }

  /** `PUT /apartments/:id` (updateApartment in the apartment controller). */
  method UpdateApartment(db: Db, caller: Principal, apartmentId: Id, location: Option<string>, price: Option<int>,
                         category: Option<string>, description: Option<string>, images: Option<seq<string>>,
                         availability: Option<bool>) returns (code: Code)
    requires db.Valid()
    modifies db`apartments
    ensures db.Valid()
    ensures code == NotFound <==> apartmentId !in old(db.apartments)
    ensures code == Forbidden <==>
      apartmentId in old(db.apartments) && old(db.apartments[apartmentId].agent) != caller.id
    ensures code == ServerError <==>
      apartmentId in old(db.apartments) && old(db.apartments[apartmentId].agent) == caller.id &&
      PatchInvalid(location, category, description)
    ensures code in {Ok, NotFound, Forbidden, ServerError}
    ensures code == Ok ==>
      db.apartments == old(db.apartments)[apartmentId :=
        PatchedApartment(old(db.apartments[apartmentId]), location, price,
                         if category.Some? then ParseCategory(category.value) else None,
                         description, images, availability)]
    ensures code != Ok ==> unchanged(db)
  {
    if apartmentId !in db.apartments {
      return NotFound;
    }
    if db.apartments[apartmentId].agent != caller.id {
      return Forbidden;
    }
    if PatchInvalid(location, category, description) {
      return ServerError;
    }
    var c := if category.Some? then ParseCategory(category.value) else None;
    db.apartments := db.apartments[apartmentId :=
      PatchedApartment(db.apartments[apartmentId], location, price, c, description, images, availability)];
    code := Ok;
  }

  /** An empty patch leaves the apartment as it was. */
  lemma EmptyPatchIsIdentity(a: Apartment)
    ensures PatchedApartment(a, None, None, None, None, None, None) == a
  {
  }

  /**
   * `DELETE /apartments/:id` (deleteApartment in the apartment controller):
   * only the apartment record goes; its bookings, reviews and the rest stay.
   */
  method DeleteApartment(db: Db, caller: Principal, apartmentId: Id) returns (code: Code)
    requires db.Valid()
    modifies db`apartments
    ensures db.Valid()
    ensures code == NotFound <==> apartmentId !in old(db.apartments)
    ensures code == Forbidden <==>
      apartmentId in old(db.apartments) && old(db.apartments[apartmentId].agent) != caller.id
    ensures code in {Ok, NotFound, Forbidden}
    ensures code == Ok ==> db.apartments == old(db.apartments) - {apartmentId}
    ensures code != Ok ==> unchanged(db)
  {
    if apartmentId !in db.apartments {
      return NotFound;
    }
    if db.apartments[apartmentId].agent != caller.id {
      return Forbidden;
    }
    db.apartments := db.apartments - {apartmentId};
    code := Ok;
  }

  /** `PUT /apartments/admin/:id/status` (updateApartmentStatus): the flag is set whatever the bookings say. */
  method UpdateApartmentStatus(db: Db, apartmentId: Id, availability: bool) returns (code: Code)
    requires db.Valid()
    modifies db`apartments
    ensures db.Valid()
    ensures code == NotFound <==> apartmentId !in old(db.apartments)
    ensures code in {Ok, NotFound}
    ensures code == Ok ==>
      db.apartments == old(db.apartments)[apartmentId := old(db.apartments[apartmentId]).(availability := availability)]
    ensures code != Ok ==> unchanged(db)
  {
    if apartmentId !in db.apartments {
      return NotFound;
    }
    db.apartments := db.apartments[apartmentId := db.apartments[apartmentId].(availability := availability)];
    code := Ok;
  }
}
