/**
 * Stable insertion by an integer key: the sort both `Array.prototype.sort`
 * with a key comparison and the database's `sort({ field: 1 })` perform, as
 * the handlers that rely on an order need it.
 */
module Sorting {
  /** `s` is in non-decreasing order of `key`. */
  predicate SortedBy<T>(key: T -> int, s: seq<T>)
  {
    forall i, j :: 0 <= i < j < |s| ==> key(s[i]) <= key(s[j])
  }

  /** No two elements of `s` agree on `proj`. */
  predicate DistinctBy<T, U(==)>(proj: T -> U, s: seq<T>)
  {
    forall i, j :: 0 <= i < j < |s| ==> proj(s[i]) != proj(s[j])
  }

  /** `x` placed after every element whose key is at most its own. */
  function InsertBy<T>(key: T -> int, x: T, s: seq<T>): (r: seq<T>)
    ensures |r| == |s| + 1
    ensures multiset(r) == multiset(s) + multiset{x}
  {
    if |s| == 0 then [x]
    else if key(s[0]) <= key(x) then
      assert s == [s[0]] + s[1..];
      [s[0]] + InsertBy(key, x, s[1..])
    else [x] + s
  }

  /** The elements after an insertion are the old ones and `x`. */
  lemma InsertByMembers<T>(key: T -> int, x: T, s: seq<T>)
    ensures forall e :: e in InsertBy(key, x, s) <==> e == x || e in s
  {
    var r := InsertBy(key, x, s);
    forall e ensures e in r <==> e == x || e in s {
      assert e in r <==> e in multiset(r);
      assert e in s <==> e in multiset(s);
    }
  }

  /** An element of an insertion other than `x` was already there. */
  lemma InsertedFrom<T>(key: T -> int, x: T, s: seq<T>, e: T)
    requires e in InsertBy(key, x, s) && e != x
    ensures exists i :: 0 <= i < |s| && s[i] == e
  {
    InsertByMembers(key, x, s);
  }

  /** Insertion keeps a sorted sequence sorted. */
  lemma {:induction false} InsertBySorted<T>(key: T -> int, x: T, s: seq<T>)
    requires SortedBy(key, s)
    ensures SortedBy(key, InsertBy(key, x, s))
  {
    if |s| > 0 && key(s[0]) <= key(x) {
      var rest := s[1..];
      var t := InsertBy(key, x, rest);
      InsertBySorted(key, x, rest);
      forall e | e in t ensures key(s[0]) <= key(e) {
        if e != x {
          InsertedFrom(key, x, rest, e);
          var i :| 0 <= i < |rest| && rest[i] == e;
          assert s[i + 1] == e;
        }
      }
      assert InsertBy(key, x, s) == [s[0]] + t;
    }
  }

  /** Inserting an element unlike every other on `proj` keeps the sequence distinct on `proj`. */
  lemma {:induction false} InsertByDistinct<T, U>(key: T -> int, proj: T -> U, x: T, s: seq<T>)
    requires DistinctBy(proj, s)
    requires forall e :: e in s ==> proj(e) != proj(x)
    ensures DistinctBy(proj, InsertBy(key, x, s))
  {
    if |s| > 0 && key(s[0]) <= key(x) {
      var rest := s[1..];
      var t := InsertBy(key, x, rest);
      assert forall e :: e in rest ==> e in s;
      InsertByDistinct(key, proj, x, rest);
      forall e | e in t ensures proj(e) != proj(s[0]) {
        if e != x {
          InsertedFrom(key, x, rest, e);
          var i :| 0 <= i < |rest| && rest[i] == e;
          assert s[i + 1] == e;
        }
      }
      assert InsertBy(key, x, s) == [s[0]] + t;
    }
  }
}
