/** The pieces of JavaScript number semantics that the face-analysis code leans on,
    stated over exact reals: `Math.round`, `Math.abs`, `Math.max`, division whose
    divisor may be zero, ordered comparison with a constant, and the round trip
    `parseFloat(x.toFixed(2))`. IEEE-754 precision is not modelled. */
module JsNumber {

  /** `n` is what `Math.round` gives for `x`: the integer at most one half below
      `x` and less than one half above it. */
  predicate RoundsTo(x: real, n: int) {
    n as real - 0.5 <= x < n as real + 0.5
  }

  /** `Math.round(x)`: the nearest integer, a tie going towards +Infinity. */
  function Round(x: real): (n: int)
    ensures RoundsTo(x, n)
  {
    (x + 0.5).Floor
  }

  /** ECMAScript's own description of `Math.round`: no integer is closer to `x`
      than the result, and an integer equally close lies below it. */
  lemma RoundIsNearest(x: real, k: int)
    ensures Abs(k as real - x) >= Abs(Round(x) as real - x)
    ensures Abs(k as real - x) == Abs(Round(x) as real - x) ==> k <= Round(x)
  {
  }

  lemma RoundMonotone(x: real, y: real)
    requires x <= y
    ensures Round(x) <= Round(y)
  {
  }

  /** `Math.abs` */
  function Abs(x: real): (r: real)
    ensures r >= 0.0
    ensures r == x || r == -x
  {
    if x < 0.0 then -x else x
  }

  /** `Math.max` of two numbers */
  function Max(a: real, b: real): (r: real)
    ensures r >= a && r >= b
    ensures r == a || r == b
  {
    if a < b then b else a
  }

  /** A JavaScript number: a finite value, one of the two infinities, or NaN. */
  datatype Number = Finite(value: real) | PosInfinity | NegInfinity | NaN

  /** `a / b` in JavaScript: dividing by zero gives an infinity of the sign of
      `a`, and `0 / 0` gives NaN. */
  function Divide(a: real, b: real): (q: Number)
    ensures a >= 0.0 && b > 0.0 ==> q.Finite? && q.value >= 0.0
    ensures b != 0.0 ==> q.Finite? && q.value * b == a
    ensures b == 0.0 ==> (q.NaN? <==> a == 0.0)
    ensures b == 0.0 ==> (q.PosInfinity? <==> a > 0.0) && (q.NegInfinity? <==> a < 0.0)
  {
    if b != 0.0 then Finite(a / b)
    else if a > 0.0 then PosInfinity
    else if a < 0.0 then NegInfinity
    else NaN
  }

  /** `n > t` for a finite constant `t`: the real comparison on a finite value,
      always true of +Infinity, and false of NaN. */
  predicate GreaterThan(n: Number, t: real): (gt: bool)
    ensures n.Finite? ==> (gt <==> n.value > t)
    ensures gt ==> !n.NaN? && !LessThan(n, t)
  {
    match n
    case Finite(v) => v > t
    case PosInfinity => true
    case NegInfinity => false
    case NaN => false
  }

  /** `n < t` for a finite constant `t`: the real comparison on a finite value,
      always true of -Infinity, and false of NaN. */
  predicate LessThan(n: Number, t: real): (lt: bool)
    ensures n.Finite? ==> (lt <==> n.value < t)
    ensures lt ==> !n.NaN? && !n.PosInfinity?
  {
    match n
    case Finite(v) => v < t
    case PosInfinity => false
    case NegInfinity => true
    case NaN => false
  }

  /** `parseFloat(n.toFixed(2))` for a number that is not below zero: a finite
      value goes to the nearest multiple of one hundredth (a tie going up, which
      for these values is away from zero), and "Infinity" and "NaN" parse back to
      what they print. */
  function ToFixed2(n: Number): (r: Number)
    requires n.Finite? ==> n.value >= 0.0
    requires !n.NegInfinity?
    ensures n.Finite? <==> r.Finite?
    ensures !n.Finite? ==> r == n
    ensures n.Finite? ==> Abs(r.value - n.value) <= 0.005
    ensures n.Finite? ==> r.value * 100.0 == (r.value * 100.0).Floor as real
  {
    match n
    case Finite(v) => Finite(Round(v * 100.0) as real / 100.0)
    case _ => n
  }

  /** The rule by which `toFixed(2)` picks its digits: no multiple of one hundredth
      is closer to the value, and an equally close one lies below. */
  lemma ToFixed2IsNearest(x: real, k: int)
    requires x >= 0.0
    ensures Abs(k as real / 100.0 - x) >= Abs(ToFixed2(Finite(x)).value - x)
    ensures Abs(k as real / 100.0 - x) == Abs(ToFixed2(Finite(x)).value - x) ==>
      k as real / 100.0 <= ToFixed2(Finite(x)).value
  {
    var n := Round(x * 100.0);
    RoundIsNearest(x * 100.0, k);
    assert Abs(k as real / 100.0 - x) * 100.0 == Abs(k as real - x * 100.0);
    assert Abs(n as real / 100.0 - x) * 100.0 == Abs(n as real - x * 100.0);
  }
}
