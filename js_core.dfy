/** The few JavaScript semantics the model depends on: optional values for
    `undefined`, the truncating remainder operator, and array indexing that
    yields `undefined` outside the array. */
module JsCore {

  datatype Option<+T> = None | Some(value: T)

  /** JavaScript `a % b` for a positive divisor: the result takes the sign of
      the dividend (truncation toward zero), unlike Dafny's Euclidean `%`. */
  function JsRem(a: int, b: int): (r: int)
    requires b > 0
    ensures a >= 0 ==> 0 <= r < b && r == a % b
    ensures a < 0 ==> -b < r <= 0 && (r == 0 <==> a % b == 0)
  {
    if a >= 0 then a % b else NegatedRemainder(a, b); -((-a) % b)
  }

  /** A number and its negation are divisible by the same positive divisors. */
  lemma NegatedRemainder(a: int, b: int)
    requires b > 0
    ensures a % b == 0 <==> (-a) % b == 0
  {
    if a % b == 0 {
      var q := a / b;
      assert -a == b * (-q);
      DivisibleMultiple(-a, b, -q);
    }
    if (-a) % b == 0 {
      var q := (-a) / b;
      assert a == b * (-q);
      DivisibleMultiple(a, b, -q);
    }
  }

  /** A multiple of a positive divisor leaves no remainder. */
  lemma DivisibleMultiple(a: int, b: int, q: int)
    requires b > 0 && a == b * q
    ensures a % b == 0
  {
    var r, p := a % b, a / b;
    var k := q - p;
    assert a == b * p + r;
    assert b * k == r;
    if k >= 1 {
      MultiplyMonotone(b, k);
    } else if k <= -1 {
      MultiplyMonotone(b, -k);
    }
  }

  /** A positive multiple is at least the multiplier. */
  lemma MultiplyMonotone(b: int, k: int)
    requires b > 0 && k >= 1
    ensures b * k >= b
  {
  }

  /** `Math.floor(roll * n)` for a `Math.random()` value is an index below n. */
  lemma ScaledFloorInRange(roll: real, n: nat)
    requires 0.0 <= roll < 1.0 && n > 0
    ensures 0 <= (roll * n as real).Floor < n
  {
    assert roll * n as real < n as real;
  }

  /** `table[i]` in JavaScript: `undefined` (None) unless `i` is a valid index. */
  function At<T>(table: seq<T>, i: int): (r: Option<T>)
    ensures r.Some? <==> 0 <= i < |table|
    ensures r.Some? ==> r.value == table[i]
  {
    if 0 <= i < |table| then Some(table[i]) else None
  }

  /** `array.find(p)` as a position: the first index whose entry satisfies
      `p`, or None when no entry does. */
  function FindIndex<T>(s: seq<T>, p: T -> bool): (r: Option<nat>)
    ensures r.Some? ==> r.value < |s| && p(s[r.value])
    ensures r.Some? ==> forall j :: 0 <= j < r.value ==> !p(s[j])
    ensures r.None? ==> forall j :: 0 <= j < |s| ==> !p(s[j])
  {
    if s == [] then None
    else if p(s[0]) then Some(0)
    else match FindIndex(s[1..], p)
      case None => None
      case Some(k) => Some(k + 1)
  }

  /** The entries of a table are pairwise different. */
  predicate Distinct<T(==)>(table: seq<T>)
  {
    forall i, j :: 0 <= i < j < |table| ==> table[i] != table[j]
  }
}
