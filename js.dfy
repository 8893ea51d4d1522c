/** The few pieces of JavaScript value semantics the media coordinator relies on:
    optional values, numbers that may be NaN or infinite, truthiness, and the
    truncating remainder operator `%`. IEEE rounding is not modelled: a finite
    number is a mathematical real. */
module Js {

  datatype Option<+T> = None | Some(value: T)

  /** A JavaScript number: a finite value, NaN, or one of the two infinities. */
  datatype JsNumber = Finite(val: real) | NaN | PosInf | NegInf

  /** `Number.isFinite(n)` */
  predicate IsFinite(n: JsNumber) {
    n.Finite?
  }

  /** The truthiness of a number: everything but 0 and NaN is truthy. */
  predicate NumberTruthy(n: JsNumber) {
    match n
    case Finite(v) => v != 0.0
    case NaN => false
    case _ => true
  }

  /** The truthiness of an optional string (an absent `dataset` entry or
      attribute is `undefined`/`null`): only a present, non-empty string is truthy. */
  predicate StringTruthy(s: Option<string>) {
    s.Some? && s.value != ""
  }

  /** `s || ""` on an optional string. */
  function OrEmpty(s: Option<string>): (r: string)
    ensures StringTruthy(s) <==> r != ""
    ensures r != "" ==> s == Some(r)
  {
    if s.Some? then s.value else ""
  }

  /** `s.endsWith(suffix)` */
  predicate EndsWith(s: string, suffix: string) {
    |suffix| <= |s| && s[|s| - |suffix|..] == suffix
  }

  function Abs(x: real): real {
    if x < 0.0 then -x else x
  }

  /** The integer part of `q`, rounding toward zero. */
  function Trunc(q: real): (k: int)
    ensures 0.0 <= q ==> k as real <= q < k as real + 1.0
    ensures q < 0.0 ==> k as real - 1.0 < q <= k as real
  {
    if q >= 0.0 then q.Floor else -((-q).Floor)
  }

  /** JavaScript's `x % d` on finite operands, `d > 0`: the quotient is truncated
      toward zero, so the remainder takes the sign of the dividend. */
  function JsRem(x: real, d: real): (r: real)
    requires d > 0.0
    ensures 0.0 <= x ==> 0.0 <= r < d
    ensures x < 0.0 ==> -d < r <= 0.0
    ensures SamePhase(x, r, d)
  {
    var k := Trunc(x / d);
    RemainderSign(x, d, k);
    x - Times(d, k)
  }

  /** The floor-based modulo: the remainder of `x` by `d` that lies in `[0, d)`. */
  function FloorMod(x: real, d: real): real
    requires d > 0.0
  {
    x - d * (x / d).Floor as real
  }

  /** `d` times the integer `k`. */
  function Times(d: real, k: int): real {
    d * k as real
  }

  /** `x` and `y` differ by a whole number of periods `d`. */
  ghost predicate SamePhase(x: real, y: real, d: real) {
    exists k: int :: x - y == Times(d, k)
  }

  lemma ScaleFraction(t: real, d: real)
    requires d > 0.0 && 0.0 <= t < 1.0
    ensures 0.0 <= d * t < d
  {
  }

  lemma ScaleWhole(n: int, d: real)
    requires d > 0.0 && n >= 1
    ensures Times(d, n) >= d
  {
  }

  lemma TimesShift(d: real, i: int, j: int)
    ensures Times(d, i) + Times(d, j) - d == Times(d, i + j - 1)
  {
  }

  /** If `k <= x / d < k + 1`, then `x - d * k` lies in `[0, d)`. */
  lemma RemainderBelow(x: real, d: real, k: int)
    requires d > 0.0 && k as real <= x / d < k as real + 1.0
    ensures 0.0 <= x - Times(d, k) < d
  {
    var q := x / d;
    assert x == d * q;
    var t := q - k as real;
    assert x - Times(d, k) == d * t;
    ScaleFraction(t, d);
  }

  /** If `k - 1 < x / d <= k`, then `x - d * k` lies in `(-d, 0]`. */
  lemma RemainderAbove(x: real, d: real, k: int)
    requires d > 0.0 && k as real - 1.0 < x / d <= k as real
    ensures -d < x - Times(d, k) <= 0.0
  {
    var q := x / d;
    assert x == d * q;
    var t := k as real - q;
    assert x - Times(d, k) == -(d * t);
    ScaleFraction(t, d);
  }

  /** Removing `k` whole periods, `k` the truncated quotient, leaves a value
      strictly between `-d` and `d` with the sign of `x`. */
  lemma RemainderSign(x: real, d: real, k: int)
    requires d > 0.0 && k == Trunc(x / d)
    ensures 0.0 <= x ==> 0.0 <= x - Times(d, k) < d
    ensures x < 0.0 ==> -d < x - Times(d, k) <= 0.0
  {
    if 0.0 <= x {
      assert 0.0 <= x / d;
      RemainderBelow(x, d, k);
    } else {
      assert x / d < 0.0;
      RemainderAbove(x, d, k);
    }
  }

  /** The floor-based modulo lies in `[0, d)`. */
  lemma FloorModBounds(x: real, d: real)
    requires d > 0.0
    ensures 0.0 <= FloorMod(x, d) < d
    ensures SamePhase(x, FloorMod(x, d), d)
  {
    var k := (x / d).Floor;
    assert FloorMod(x, d) == x - Times(d, k);
    RemainderBelow(x, d, k);
  }

  /** Two values in `[0, d)` that are in the same phase modulo `d` are equal. */
  lemma PhaseUnique(x: real, r: real, s: real, d: real)
    requires d > 0.0
    requires 0.0 <= r < d && 0.0 <= s < d
    requires SamePhase(x, r, d) && SamePhase(x, s, d)
    ensures r == s
  {
    var i :| x - r == Times(d, i);
    var j :| x - s == Times(d, j);
    assert s - r == Times(d, i - j);
    if i - j >= 1 {
      ScaleWhole(i - j, d);
    } else if i - j <= -1 {
      assert r - s == Times(d, j - i);
      ScaleWhole(j - i, d);
    }
  }
}
