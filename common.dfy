/**
 * Values shared by every controller of the estate-agency backend: record
 * identifiers, clock values, optional request fields with JavaScript
 * truthiness, HTTP outcomes, and the small pieces of arithmetic the
 * handlers perform (percentage rates, page counts, local midnight).
 */
module Common {

  /** A document identifier (a MongoDB ObjectId). */
  type Id = nat

  /** A clock value: milliseconds since the epoch, as a JavaScript Date holds it. */
  type Time = int

  /** One day in milliseconds (24 * 60 * 60 * 1000). */
  const DayMs: int := 86400000

  datatype Option<+T> = None | Some(value: T)

  /** The HTTP status a handler answers with. */
  datatype Code = Ok | Created | BadRequest | Unauthorized | Forbidden | NotFound | ServerError
  {
    function Status(): (n: int)
      ensures 200 <= n < 600
    {
      match this
      case Ok => 200
      case Created => 201
      case BadRequest => 400
      case Unauthorized => 401
      case Forbidden => 403
      case NotFound => 404
      case ServerError => 500
    }
  }

  /** JavaScript truthiness of an optional string field: present and not "". */
  predicate Truthy(s: Option<string>)
  {
    s.Some? && s.value != ""
  }

  /** JavaScript truthiness of an optional numeric field: present and not 0. */
  predicate TruthyNumber(n: Option<int>)
  {
    n.Some? && n.value != 0
  }

  /** The value of `s || d` for an optional string field. */
  function OrDefault(s: Option<string>, d: string): (r: string)
    ensures Truthy(s) ==> r == s.value
    ensures !Truthy(s) ==> r == d
  {
    if Truthy(s) then s.value else d
  }

  /** The value of `xs || []` for an optional array: an array, even an empty one, is truthy. */
  function ListOrEmpty(xs: Option<seq<string>>): (r: seq<string>)
    ensures xs.Some? ==> r == xs.value
    ensures xs.None? ==> r == []
  {
    if xs.Some? then xs.value else []
  }

  /**
   * `total > 0 ? Math.round((part / total) * 100) : 0` over exact rationals:
   * the percentage rounded half up, and 0 for an empty total.
   */
  function PercentRate(part: nat, total: nat): (r: int)
    ensures total == 0 ==> r == 0
    ensures total > 0 ==> 2 * total * r <= 200 * part + total < 2 * total * (r + 1)
  {
    if total > 0 then
      var r := (200 * part + total) / (2 * total);
      DivBounds(200 * part + total, 2 * total);
      r
    else 0
  }

  /** Floor division brackets its numerator. */
  lemma DivBounds(a: int, b: int)
    requires b > 0
    ensures b * (a / b) <= a < b * (a / b + 1)
  {
    assert a == b * (a / b) + a % b;
  }

  /** A positive factor can be cancelled from a strict inequality. */
  lemma CancelFactor(k: int, a: int, b: int)
    requires k > 0 && k * a < k * b
    ensures a < b
  {
    if a >= b {
      MulMonotone(k, b, a);
    }
  }

  lemma MulMonotone(k: int, a: int, b: int)
    requires k > 0 && a <= b
    ensures k * a <= k * b
  {
    assert k * b == k * a + k * (b - a);
  }

  /** A share of a total is a percentage between 0 and 100. */
  lemma {:induction false} PercentRateInRange(part: nat, total: nat)
    requires part <= total
    ensures 0 <= PercentRate(part, total) <= 100
  {
    if total > 0 {
      var r := PercentRate(part, total);
      assert 2 * total * r <= 200 * part + total <= 200 * total + total;
      assert 2 * total * r < 2 * total * 101 by {
        assert 200 * total + total < 202 * total;
      }
      CancelFactor(2 * total, r, 101);
      CancelFactor(2 * total, -1, r);
    }
  }

  /**
   * `Math.ceil(total / limit)` for a page size `limit`; `None` stands for the
   * JSON `null` that `Infinity` and `NaN` become when `limit` is 0.
   */
  function PageCount(total: nat, limit: int): (r: Option<int>)
    ensures limit == 0 <==> r.None?
    ensures limit > 0 ==> r.Some? && (r.value - 1) * limit < total <= r.value * limit
    ensures limit < 0 ==> r.Some? && r.value * limit <= total < (r.value - 1) * limit
  {
    if limit > 0 then
      var q := (total + limit - 1) / limit;
      DivBounds(total + limit - 1, limit);
      Some(q)
    else if limit < 0 then
      var q := total / (-limit);
      DivBounds(total, -limit);
      Some(-q)
    else None
  }

  /**
   * `new Date()` followed by `setHours(0, 0, 0, 0)`: the start of the local
   * day containing `now`, for a time zone `offset` milliseconds ahead of UTC.
   */
  function LocalMidnight(now: Time, offset: int): (m: Time)
    ensures m <= now < m + DayMs
    ensures (m + offset) % DayMs == 0
  {
    now - (now + offset) % DayMs
  }

  /** Every instant of the local day, from its midnight on, is "not in the past". */
  lemma LaterTodayIsNotPast(now: Time, offset: int, date: Time)
    requires LocalMidnight(now, offset) <= date < LocalMidnight(now, offset) + DayMs
    ensures (date + offset) / DayMs == (now + offset) / DayMs
  {
    var m := LocalMidnight(now, offset);
    var d := (now + offset) / DayMs;
    assert now + offset == d * DayMs + (now + offset) % DayMs;
    assert m + offset == d * DayMs;
    assert d * DayMs <= date + offset < d * DayMs + DayMs;
  }

  /** A subset is no larger than its superset. */
  lemma SubsetCard<T>(a: set<T>, b: set<T>)
    requires a <= b
    ensures |a| <= |b|
  {
    assert b == a + (b - a);
  }
}
