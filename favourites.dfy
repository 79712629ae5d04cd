/**
 * The favourites controller: a user keeps at most one favourite per
 * apartment, with free notes and tags, and can list its favourites by tag
 * and count how often each tag is used.
 */
module Favourites {
  import opened Common
  import opened Entities
  import opened Database
  import opened Sorting

  /** The user already has a favourite for the apartment. */
  predicate HasFavorite(fs: map<Id, Favorite>, user: Id, apartment: Id)
  {
    exists k :: k in fs && fs[k].user == user && fs[k].apartment == apartment
  }

  /** `POST /favorites` (addToFavorites). */
  method AddToFavorites(db: Db, caller: Principal, apartmentId: Option<Id>, notes: Option<string>,
                        tags: Option<seq<string>>) returns (code: Code, favoriteId: Id)
    requires db.Valid()
    modifies db`favorites, db`nextId
    ensures db.Valid()
    ensures code == BadRequest <==>
      apartmentId.None? ||
      (apartmentId.value in old(db.apartments) && HasFavorite(old(db.favorites), caller.id, apartmentId.value))
    ensures code == NotFound <==> apartmentId.Some? && apartmentId.value !in old(db.apartments)
    ensures code in {Created, BadRequest, NotFound}
    ensures code == Created ==>
      && favoriteId == old(db.nextId)
      && db.favorites == old(db.favorites)[favoriteId :=
           Favorite(caller.id, apartmentId.value, OrDefault(notes, ""), ListOrEmpty(tags))]
      && db.nextId == old(db.nextId) + 1
    ensures code != Created ==> unchanged(db)
  {
    favoriteId := db.nextId;
    if apartmentId.None? {
      return BadRequest, favoriteId;
    }
    if apartmentId.value !in db.apartments {
      return NotFound, favoriteId;
    }
    if HasFavorite(db.favorites, caller.id, apartmentId.value) {
      return BadRequest, favoriteId;
    }
    db.favorites := db.favorites[favoriteId :=
      Favorite(caller.id, apartmentId.value, OrDefault(notes, ""), ListOrEmpty(tags))];
    db.nextId := db.nextId + 1;
    code := Created;
  }

  /** The favourite with `notes` and `tags` replaced where they are given (`!== undefined`). */
  function PatchedFavorite(f: Favorite, notes: Option<string>, tags: Option<seq<string>>): (r: Favorite)
    ensures r.user == f.user && r.apartment == f.apartment
    ensures r.notes == (if notes.Some? then notes.value else f.notes)
    ensures r.tags == (if tags.Some? then tags.value else f.tags)
  {
    f.(notes := if notes.Some? then notes.value else f.notes,
       tags := if tags.Some? then tags.value else f.tags)
  }

  /** Patching with nothing changes nothing, and patching twice keeps the last values given. */
  lemma PatchedFavoriteLaws(f: Favorite, n1: Option<string>, t1: Option<seq<string>>,
                            n2: Option<string>, t2: Option<seq<string>>)
    ensures PatchedFavorite(f, None, None) == f
    ensures n2.Some? && t2.Some? ==> PatchedFavorite(PatchedFavorite(f, n1, t1), n2, t2) == PatchedFavorite(f, n2, t2)
  {
  }

  /** `PUT /favorites/:favoriteId` (updateFavorite). */
  method UpdateFavorite(db: Db, caller: Principal, favoriteId: Id, notes: Option<string>,
                        tags: Option<seq<string>>) returns (code: Code)
    requires db.Valid()
    modifies db`favorites
    ensures db.Valid()
    ensures code == NotFound <==> favoriteId !in old(db.favorites)
    ensures code == Forbidden <==> favoriteId in old(db.favorites) && old(db.favorites[favoriteId].user) != caller.id
    ensures code in {Ok, NotFound, Forbidden}
    ensures code == Ok ==>
      db.favorites == old(db.favorites)[favoriteId := PatchedFavorite(old(db.favorites[favoriteId]), notes, tags)]
    ensures code != Ok ==> unchanged(db)
  {
    if favoriteId !in db.favorites {
      return NotFound;
    }
    if db.favorites[favoriteId].user != caller.id {
      return Forbidden;
    }
    db.favorites := db.favorites[favoriteId := PatchedFavorite(db.favorites[favoriteId], notes, tags)];
    code := Ok;
  }

  /** `DELETE /favorites/:favoriteId` (removeFromFavorites). */
  method RemoveFromFavorites(db: Db, caller: Principal, favoriteId: Id) returns (code: Code)
    requires db.Valid()
    modifies db`favorites
    ensures db.Valid()
    ensures code == NotFound <==> favoriteId !in old(db.favorites)
    ensures code == Forbidden <==> favoriteId in old(db.favorites) && old(db.favorites[favoriteId].user) != caller.id
    ensures code in {Ok, NotFound, Forbidden}
    ensures code == Ok ==> db.favorites == old(db.favorites) - {favoriteId}
    ensures code != Ok ==> unchanged(db)
  {
    if favoriteId !in db.favorites {
      return NotFound;
    }
    if db.favorites[favoriteId].user != caller.id {
      return Forbidden;
    }
    db.favorites := db.favorites - {favoriteId};
    code := Ok;
  }

  /**
   * `DELETE /favorites/apartment/:apartmentId` (removeApartmentFromFavorites):
   * the one favourite of the pair is deleted, and by the unique index no
   * other is left.
   */
  method RemoveApartmentFromFavorites(db: Db, caller: Principal, apartmentId: Id) returns (code: Code)
    requires db.Valid()
    modifies db`favorites
    ensures db.Valid()
    ensures code == NotFound <==> !HasFavorite(old(db.favorites), caller.id, apartmentId)
    ensures code in {Ok, NotFound}
    ensures code == Ok ==>
      (exists k :: k in old(db.favorites) && old(db.favorites[k]).user == caller.id &&
                   old(db.favorites[k]).apartment == apartmentId && db.favorites == old(db.favorites) - {k})
    ensures !HasFavorite(db.favorites, caller.id, apartmentId)
    ensures code != Ok ==> unchanged(db)
  {
    if !HasFavorite(db.favorites, caller.id, apartmentId) {
      return NotFound;
    }
    var k :| k in db.favorites && db.favorites[k].user == caller.id && db.favorites[k].apartment == apartmentId;
    var before := db.favorites;
    db.favorites := db.favorites - {k};
    forall j | j in db.favorites
      ensures !(db.favorites[j].user == caller.id && db.favorites[j].apartment == apartmentId)
    {
      assert j in before && j != k;
    }
    code := Ok;
  }

  /** The favourites of `user`. */
  function FavoritesOf(fs: map<Id, Favorite>, user: Id): (r: map<Id, Favorite>)
    ensures forall k :: k in r <==> k in fs && fs[k].user == user
    ensures forall k :: k in r ==> r[k] == fs[k]
  {
    map k | k in fs && fs[k].user == user :: fs[k]
  }

  /** `DELETE /favorites/clear` (clearAllFavorites): `deleteMany({ user })`. */
  method ClearAllFavorites(db: Db, caller: Principal) returns (code: Code)
    requires db.Valid()
    modifies db`favorites
    ensures db.Valid()
    ensures code == Ok
    // exactly the caller's favourites are gone; every other one is kept as it was
    ensures forall k :: k in db.favorites <==> k in old(db.favorites) && old(db.favorites[k]).user != caller.id
    ensures forall k :: k in db.favorites ==> db.favorites[k] == old(db.favorites[k])
    ensures FavoritesOf(db.favorites, caller.id) == map[]
  {
    db.favorites := map k | k in db.favorites && db.favorites[k].user != caller.id :: db.favorites[k];
    code := Ok;
  }

  /** `GET /favorites?tag=` (getUserFavorites): the user's favourites, narrowed to a tag when one is given. */
  function UserFavorites(fs: map<Id, Favorite>, user: Id, tag: Option<string>): (r: set<Id>)
    ensures forall k :: k in r <==> k in fs && fs[k].user == user && (!Truthy(tag) || tag.value in fs[k].tags)
  {
    set k | k in fs && fs[k].user == user && (!Truthy(tag) || tag.value in fs[k].tags)
  }

  /** A tag only narrows the list, and an absent or empty tag does not filter. */
  lemma TagFilterNarrows(fs: map<Id, Favorite>, user: Id, tag: Option<string>)
    ensures UserFavorites(fs, user, tag) <= UserFavorites(fs, user, None)
    ensures UserFavorites(fs, user, Some("")) == UserFavorites(fs, user, None)
    ensures UserFavorites(fs, user, None) == FavoritesOf(fs, user).Keys
  {
  }

  // ---- getFavoriteTags ----

  /** One entry of the tag list: a tag and how often it occurs. */
  datatype TagCount = TagCount(name: string, count: nat)

  /** The tags of `favs`, favourite after favourite. */
  function AllTags(favs: seq<Favorite>): (r: seq<string>)
    ensures forall f :: f in favs ==> forall t :: t in f.tags ==> t in r
    ensures forall t :: t in r ==> exists f :: f in favs && t in f.tags
  {
    if |favs| == 0 then [] else AllTags(favs[..|favs| - 1]) + favs[|favs| - 1].tags
  }

  /** How often `t` occurs in `s`. */
  function Occurrences(s: seq<string>, t: string): (n: nat)
    ensures n <= |s|
    ensures n > 0 <==> t in s
  {
    if |s| == 0 then 0
    else Occurrences(s[..|s| - 1], t) + (if s[|s| - 1] == t then 1 else 0)
  }

  predicate NamesDistinct(s: seq<TagCount>)
  {
    forall i, j :: 0 <= i < j < |s| ==> s[i].name != s[j].name
  }

  predicate ByCountDescending(s: seq<TagCount>)
  {
    forall i, j :: 0 <= i < j < |s| ==> s[i].count >= s[j].count
  }

  predicate Distinct(s: seq<string>)
  {
    forall i, j :: 0 <= i < j < |s| ==> s[i] != s[j]
  }

  /** The sort key of `(a, b) => b.count - a.count`: the most frequent first. */
  function CountKey(e: TagCount): int
  {
    -(e.count as int)
  }

  function TagName(e: TagCount): string
  {
    e.name
  }

  /** Counting step: one more tag seen. */
  lemma OccurrencesSnoc(s: seq<string>, tag: string, t: string)
    ensures Occurrences(s + [tag], t) == Occurrences(s, t) + (if tag == t then 1 else 0)
  {
    assert (s + [tag])[..|s + [tag]| - 1] == s;
  }

  /** `counts` counts every tag of `seen`, and `names` lists its keys once each in first-seen order. */
  ghost predicate Counted(counts: map<string, nat>, names: seq<string>, seen: seq<string>)
  {
    && (forall t :: t in counts <==> t in seen)
    && (forall t :: t in counts ==> counts[t] == Occurrences(seen, t))
    && (forall t :: t in names <==> t in counts)
    && Distinct(names)
  }

  /** `tags[tag] = (tags[tag] || 0) + 1` keeps the dictionary a count of what was seen. */
  lemma TallyStep(counts: map<string, nat>, names: seq<string>, seen: seq<string>, tag: string)
    requires Counted(counts, names, seen)
    ensures tag in counts ==> Counted(counts[tag := counts[tag] + 1], names, seen + [tag])
    ensures tag !in counts ==> Counted(counts[tag := 1], names + [tag], seen + [tag])
  {
    forall t ensures Occurrences(seen + [tag], t) == Occurrences(seen, t) + (if tag == t then 1 else 0) {
      OccurrencesSnoc(seen, tag, t);
    }
    if tag !in counts {
      var ns := names + [tag];
      forall i, j | 0 <= i < j < |ns| ensures ns[i] != ns[j] {
        if j == |names| {
          assert ns[i] == names[i];
        }
      }
    }
  }

  /** The tags of the first `i + 1` favourites extend those of the first `i`. */
  lemma AllTagsNext(favs: seq<Favorite>, i: nat)
    requires i < |favs|
    ensures AllTags(favs[..i + 1]) == AllTags(favs[..i]) + favs[i].tags
  {
    assert favs[..i + 1][..i] == favs[..i];
  }

  /** The prefix `ts[..j + 1]` extends `ts[..j]` by one tag. */
  lemma PrefixNext(seen: seq<string>, ts: seq<string>, j: nat)
    requires j < |ts|
    ensures seen + ts[..j + 1] == seen + ts[..j] + [ts[j]]
  {
    assert ts[..j + 1] == ts[..j] + [ts[j]];
  }

  /** One favourite's `tags.forEach`: the counts of `seen` become those of `seen + ts`. */
  method TallyTags(counts0: map<string, nat>, names0: seq<string>, ghost seen: seq<string>, ts: seq<string>)
    returns (counts: map<string, nat>, names: seq<string>)
    requires Counted(counts0, names0, seen)
    ensures Counted(counts, names, seen + ts)
  {
    counts, names := counts0, names0;
    ghost var done := seen;
    assert seen + ts[..0] == seen;
    var j := 0;
    while j < |ts|
      invariant 0 <= j <= |ts|
      invariant done == seen + ts[..j]
      invariant Counted(counts, names, done)
    {
      var tag := ts[j];
      TallyStep(counts, names, done, tag);
      if tag in counts {
        counts := counts[tag := counts[tag] + 1];
      } else {
        counts := counts[tag := 1];
        names := names + [tag];
      }
      PrefixNext(seen, ts, j);
      done := done + [tag];
      j := j + 1;
    }
    assert ts[..|ts|] == ts;
  }

  /** The `forEach` over the favourites and their tags: a count per tag, and the tags in first-seen order. */
  method CountTags(favs: seq<Favorite>) returns (counts: map<string, nat>, names: seq<string>)
    ensures Counted(counts, names, AllTags(favs))
  {
    counts, names := map[], [];
    var i := 0;
    while i < |favs|
      invariant 0 <= i <= |favs|
      invariant Counted(counts, names, AllTags(favs[..i]))
    {
      counts, names := TallyTags(counts, names, AllTags(favs[..i]), favs[i].tags);
      AllTagsNext(favs, i);
      i := i + 1;
    }
    assert favs[..|favs|] == favs;
  }

  /** `tags` holds one entry, with its count, for each name of `done`, most frequent first. */
  ghost predicate Listed(tags: seq<TagCount>, done: seq<string>, counts: map<string, nat>)
  {
    && ByCountDescending(tags) && NamesDistinct(tags)
    && (forall e :: e in tags ==> e.name in done && e.name in counts && e.count == counts[e.name])
    && (forall t :: t in done && t in counts ==> TagCount(t, counts[t]) in tags)
  }

  lemma ListStep(tags: seq<TagCount>, done: seq<string>, counts: map<string, nat>, name: string)
    requires Listed(tags, done, counts)
    requires name in counts && name !in done
    ensures Listed(InsertBy(CountKey, TagCount(name, counts[name]), tags), done + [name], counts)
  {
    var x := TagCount(name, counts[name]);
    assert SortedBy(CountKey, tags) && DistinctBy(TagName, tags);
    InsertBySorted(CountKey, x, tags);
    InsertByDistinct(CountKey, TagName, x, tags);
    InsertByMembers(CountKey, x, tags);
    var next := InsertBy(CountKey, x, tags);
    assert SortedBy(CountKey, next) && DistinctBy(TagName, next);
  }

  /** The `Object.entries(...).sort(...)` step: one entry per name, most frequent first. */
  method SortByCount(names: seq<string>, counts: map<string, nat>) returns (tags: seq<TagCount>)
    requires forall t :: t in names ==> t in counts
    requires Distinct(names)
    ensures Listed(tags, names, counts)
  {
    tags := [];
    var k := 0;
    while k < |names|
      invariant 0 <= k <= |names|
      invariant Listed(tags, names[..k], counts)
    {
      assert names[k] !in names[..k];
      ListStep(tags, names[..k], counts, names[k]);
      assert names[..k + 1] == names[..k] + [names[k]];
      tags := InsertBy(CountKey, TagCount(names[k], counts[names[k]]), tags);
      k := k + 1;
    }
    assert names[..|names|] == names;
  }

  /** The documents `find` returns for the ids `ids`, in that order. */
  function FoundFavorites(fs: map<Id, Favorite>, ids: seq<Id>): (r: seq<Favorite>)
    requires forall i :: 0 <= i < |ids| ==> ids[i] in fs
    ensures |r| == |ids| && forall i :: 0 <= i < |ids| ==> r[i] == fs[ids[i]]
  {
    seq(|ids|, i requires 0 <= i < |ids| => fs[ids[i]])
  }

  /**
   * `GET /favorites/tags` (getFavoriteTags). `ids` is the order in which
   * `Favorite.find({ user })` returns the caller's favourites: each of them
   * once. Every tag used is listed once, with the number of times it occurs
   * across those favourites, most frequent first.
   */
  method GetFavoriteTags(db: Db, caller: Principal, ids: seq<Id>) returns (tags: seq<TagCount>)
    requires forall k :: k in ids <==> k in db.favorites && db.favorites[k].user == caller.id
    requires forall i, j :: 0 <= i < j < |ids| ==> ids[i] != ids[j]
    ensures var all := AllTags(FoundFavorites(db.favorites, ids));
      && (forall t :: t in all <==> TagCount(t, Occurrences(all, t)) in tags)
      && (forall e :: e in tags ==> e.name in all && e.count == Occurrences(all, e.name))
    // the names listed are exactly the tags of the caller's stored favourites
    ensures forall k, t :: k in db.favorites && db.favorites[k].user == caller.id && t in db.favorites[k].tags ==>
      exists e :: e in tags && e.name == t
    ensures forall e :: e in tags ==>
      exists k :: k in db.favorites && db.favorites[k].user == caller.id && e.name in db.favorites[k].tags
    ensures NamesDistinct(tags)
    ensures ByCountDescending(tags)
  {
    var favs := FoundFavorites(db.favorites, ids);
    var counts, names := CountTags(favs);
    tags := SortByCount(names, counts);
    forall k, t | k in db.favorites && db.favorites[k].user == caller.id && t in db.favorites[k].tags
      ensures exists e :: e in tags && e.name == t
    {
      var i :| 0 <= i < |ids| && ids[i] == k;
      assert favs[i] in favs;
      assert TagCount(t, Occurrences(AllTags(favs), t)) in tags;
    }
    forall e | e in tags
      ensures exists k :: k in db.favorites && db.favorites[k].user == caller.id && e.name in db.favorites[k].tags
    {
      var f :| f in favs && e.name in f.tags;
      var i :| 0 <= i < |favs| && favs[i] == f;
      assert ids[i] in ids;
    }
  }
}
