/** Double-precision results over exact reals: a finite value, an infinity or NaN.
    Rounding is not modelled; only where IEEE 754 arithmetic leaves the reals
    (division by zero, infinities, NaN) is followed. Signed zero is not modelled. */
module Floats {

  import opened Seqs

  datatype Float = Fin(v: real) | PosInf | NegInf | NaN

  function Neg(a: Float): Float
  {
    match a
    case Fin(x) => Fin(-x)
    case PosInf => NegInf
    case NegInf => PosInf
    case NaN => NaN
  }

  function Add(a: Float, b: Float): (r: Float)
    ensures a.Fin? && b.Fin? ==> r == Fin(a.v + b.v)
    ensures (a.NaN? || b.NaN?) ==> r.NaN?
  {
    match (a, b)
    case (NaN, _) => NaN
    case (_, NaN) => NaN
    case (Fin(x), Fin(y)) => Fin(x + y)
    case (PosInf, NegInf) => NaN
    case (NegInf, PosInf) => NaN
    case (PosInf, _) => PosInf
    case (_, PosInf) => PosInf
    case (NegInf, _) => NegInf
    case (_, NegInf) => NegInf
  }

  function Sub(a: Float, b: Float): (r: Float)
    ensures a.Fin? && b.Fin? ==> r == Fin(a.v - b.v)
  {
    Add(a, Neg(b))
  }

  function Sign(x: real): int
  {
    if x > 0.0 then 1 else if x < 0.0 then -1 else 0
  }

  /** Infinity of the given non-zero sign. */
  function Infinity(sign: int): Float
  {
    if sign > 0 then PosInf else NegInf
  }

  function SignOf(a: Float): int
    requires !a.NaN?
  {
    match a
    case Fin(x) => Sign(x)
    case PosInf => 1
    case NegInf => -1
  }

  function Mul(a: Float, b: Float): (r: Float)
    ensures a.Fin? && b.Fin? ==> r == Fin(a.v * b.v)
  {
    if a.NaN? || b.NaN? then NaN
    else if a.Fin? && b.Fin? then Fin(a.v * b.v)
    else if SignOf(a) == 0 || SignOf(b) == 0 then NaN      // 0 * inf
    else Infinity(SignOf(a) * SignOf(b))
  }

  function Div(a: Float, b: Float): (r: Float)
    ensures a.Fin? && b.Fin? && b.v != 0.0 ==> r == Fin(a.v / b.v)
    ensures a.Fin? && b.Fin? && b.v == 0.0 ==> (r.NaN? <==> a.v == 0.0)
  {
    if a.NaN? || b.NaN? then NaN
    else if a.Fin? && b.Fin? then
      if b.v != 0.0 then Fin(a.v / b.v)
      else if a.v == 0.0 then NaN                          // 0 / 0
      else Infinity(Sign(a.v))                             // x / +0
    else if a.Fin? then Fin(0.0)                           // x / inf
    else if b.Fin? then Infinity(SignOf(a) * (if b.v < 0.0 then -1 else 1))
    else NaN                                               // inf / inf
  }

  /** `a > b`; every comparison with NaN is false. */
  predicate Greater(a: Float, b: Float)
  {
    match (a, b)
    case (NaN, _) => false
    case (_, NaN) => false
    case (Fin(x), Fin(y)) => x > y
    case (PosInf, PosInf) => false
    case (PosInf, _) => true
    case (NegInf, _) => false
    case (Fin(_), PosInf) => false
    case (Fin(_), NegInf) => true
  }

  /** The values that are not NaN, in order. */
  function NonNaN(s: seq<Float>): seq<Float>
  {
    Filter(s, (x: Float) => !x.NaN?)
  }

  /** `Series.sum()` with NaN skipped. */
  function NanSum(s: seq<Float>): Float
  {
    if s == [] then Fin(0.0)
    else if s[0].NaN? then NanSum(s[1..])
    else Add(s[0], NanSum(s[1..]))
  }

  /** `Series.mean()` with NaN skipped; NaN when no value is left. */
  function NanMean(s: seq<Float>): (r: Float)
    ensures |NonNaN(s)| == 0 ==> r.NaN?
  {
    var n := |NonNaN(s)|;
    if n == 0 then NaN else Div(NanSum(s), Fin(n as real))
  }

  /** The real values of a sequence of finite floats. */
  function Reals(s: seq<Float>): (r: seq<real>)
    requires forall i :: 0 <= i < |s| ==> s[i].Fin?
    ensures |r| == |s| && forall i :: 0 <= i < |s| ==> r[i] == s[i].v
  {
    seq(|s|, i requires 0 <= i < |s| => s[i].v)
  }

  /** With no infinity among them, the NaN-skipping sum is the real sum of the
      finite values. */
  lemma {:induction false} NanSumOfFinite(s: seq<Float>)
    requires forall i :: 0 <= i < |s| ==> s[i].Fin? || s[i].NaN?
    ensures forall i :: 0 <= i < |NonNaN(s)| ==> NonNaN(s)[i].Fin?
    ensures NanSum(s) == Fin(Sum(Reals(NonNaN(s))))
  {
    if s != [] {
      NanSumOfFinite(s[1..]);
      var p := (x: Float) => !x.NaN?;
      assert NonNaN(s) == Filter(s, p);
      assert NonNaN(s[1..]) == Filter(s[1..], p);
      if !s[0].NaN? {
        assert NonNaN(s) == [s[0]] + NonNaN(s[1..]);
        assert Reals(NonNaN(s)) == [s[0].v] + Reals(NonNaN(s[1..]));
      }
    }
  }

  /** The NaN-skipping mean of finite-or-NaN values is the arithmetic mean of the
      finite ones, and NaN when there are none. */
  lemma NanMeanOfFinite(s: seq<Float>)
    requires forall i :: 0 <= i < |s| ==> s[i].Fin? || s[i].NaN?
    ensures forall i :: 0 <= i < |NonNaN(s)| ==> NonNaN(s)[i].Fin?
    ensures NanMean(s) == if |NonNaN(s)| == 0 then NaN
                          else Fin(Sum(Reals(NonNaN(s))) / (|NonNaN(s)| as real))
  {
    NanSumOfFinite(s);
  }
}
