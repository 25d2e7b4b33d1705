/**
 * Double-precision values as pandas and numpy see them: a finite number, an
 * infinity, or NaN (pandas' missing value). Finite values are exact reals;
 * rounding error is not modelled.
 */
module Numeric {
  datatype Float = Fin(r: real) | PosInf | NegInf | NaN

  function Neg(a: Float): Float {
    match a
    case Fin(x) => Fin(-x)
    case PosInf => NegInf
    case NegInf => PosInf
    case NaN => NaN
  }

  /** IEEE addition: NaN is absorbing and opposite infinities give NaN. */
  function Add(a: Float, b: Float): (r: Float)
    ensures a.Fin? && b.Fin? ==> r == Fin(a.r + b.r)
    ensures (a.NaN? || b.NaN?) ==> r.NaN?
  {
    match (a, b)
    case (NaN, _) => NaN
    case (_, NaN) => NaN
    case (PosInf, NegInf) => NaN
    case (NegInf, PosInf) => NaN
    case (PosInf, _) => PosInf
    case (NegInf, _) => NegInf
    case (_, PosInf) => PosInf
    case (_, NegInf) => NegInf
    case (Fin(x), Fin(y)) => Fin(x + y)
  }

  function Sub(a: Float, b: Float): (r: Float)
    ensures a.Fin? && b.Fin? ==> r == Fin(a.r - b.r)
    ensures (a.NaN? || b.NaN?) ==> r.NaN?
  {
    Add(a, Neg(b))
  }

  /**
   * IEEE division. A zero divisor gives an infinity carrying the sign of the
   * dividend, or NaN for 0/0 (the sign of a zero is not modelled).
   */
  function Div(a: Float, b: Float): (r: Float)
    ensures a.Fin? && b.Fin? && b.r != 0.0 ==> r == Fin(a.r / b.r)
    ensures (a.NaN? || b.NaN?) ==> r.NaN?
    ensures a.Fin? && b == Fin(0.0) ==> (r.NaN? <==> a.r == 0.0)
  {
    match (a, b)
    case (NaN, _) => NaN
    case (_, NaN) => NaN
    case (Fin(x), Fin(y)) =>
      if y != 0.0 then Fin(x / y)
      else if x > 0.0 then PosInf
      else if x < 0.0 then NegInf
      else NaN
    case (Fin(_), _) => Fin(0.0)
    case (PosInf, Fin(y)) => if y < 0.0 then NegInf else PosInf
    case (NegInf, Fin(y)) => if y < 0.0 then PosInf else NegInf
    case (_, _) => NaN
  }

  function Abs(a: Float): (r: Float)
    ensures a.NaN? <==> r.NaN?
    ensures r.Fin? ==> r.r >= 0.0
  {
    match a
    case Fin(x) => Fin(if x < 0.0 then -x else x)
    case NaN => NaN
    case _ => PosInf
  }

  /** `a <= b`; every comparison with NaN is false. */
  predicate Le(a: Float, b: Float) {
    match (a, b)
    case (NaN, _) => false
    case (_, NaN) => false
    case (NegInf, _) => true
    case (_, PosInf) => true
    case (Fin(x), Fin(y)) => x <= y
    case (_, _) => false
  }

  /** `a < b`; every comparison with NaN is false. */
  predicate Lt(a: Float, b: Float) {
    Le(a, b) && a != b
  }

  /** `a == b` as numpy compares: NaN equals nothing, not even itself. */
  predicate Eq(a: Float, b: Float) {
    !a.NaN? && a == b
  }

  /** Python's `round(x)` on a float: the nearest integer, ties to the even one. */
  function RoundHalfEven(x: real): (k: int)
    ensures x - 1.0 / 2.0 <= k as real <= x + 1.0 / 2.0
    ensures (k as real - x == 1.0 / 2.0 || x - k as real == 1.0 / 2.0) ==> k % 2 == 0
  {
    var f := x.Floor;
    var d := x - f as real;
    if d < 1.0 / 2.0 then f
    else if d > 1.0 / 2.0 then f + 1
    else if f % 2 == 0 then f else f + 1
  }

  /** Python's `int(x)` on a float: truncation toward zero. */
  function Trunc(x: real): (k: int)
    ensures x >= 0.0 ==> k as real <= x < k as real + 1.0
    ensures x < 0.0 ==> k as real - 1.0 < x <= k as real
  {
    if x >= 0.0 then x.Floor else -((-x).Floor)
  }

  /** Python's `math.ceil(x)`. */
  function Ceil(x: real): (k: int)
    ensures k as real - 1.0 < x <= k as real
  {
    if x.Floor as real == x then x.Floor else x.Floor + 1
  }

  /** `np.clip(x, lo, hi)`: `min(max(x, lo), hi)`. */
  function Clip(x: real, lo: real, hi: real): (r: real)
    requires lo <= hi
    ensures lo <= r <= hi
    ensures lo <= x <= hi ==> r == x
    ensures x < lo ==> r == lo
    ensures x > hi ==> r == hi
  {
    if x < lo then lo else if x > hi then hi else x
  }

  /** `np.max` of a non-empty list. */
  function MaxOf(s: seq<real>): (m: real)
    requires s != []
    ensures m in s && forall x :: x in s ==> x <= m
  {
    if |s| == 1 then s[0]
    else
      var m := MaxOf(s[1..]);
      assert forall x :: x in s ==> x == s[0] || x in s[1..];
      if s[0] >= m then s[0] else m
  }

  /** `np.min` of a non-empty list. */
  function MinOf(s: seq<real>): (m: real)
    requires s != []
    ensures m in s && forall x :: x in s ==> m <= x
  {
    if |s| == 1 then s[0]
    else
      var m := MinOf(s[1..]);
      assert forall x :: x in s ==> x == s[0] || x in s[1..];
      if s[0] <= m then s[0] else m
  }
}
