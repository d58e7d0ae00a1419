/**
 * The part of IEEE-754 behaviour numpy shows in the escape-speed sum: a
 * division by zero gives an infinity or NaN instead of failing, and
 * `np.nan_to_num` replaces those by numbers. Finite values are exact reals
 * (rounding and overflow are not modelled).
 */
module Floats {

  datatype Float = Finite(v: real) | PosInf | NegInf | NaN

  /** Largest finite double, `np.finfo(float).max`. */
  const MaxFloat: real := 179769313486231570814527423731704356798070567525844996598917476803157260780028538760589558632766878171540458953514382464234321326889464182768467546703537516986049910576551282076245490090389328944075868508455133942304583236903222948165808559332123348274797826204144723168738177180919299881250404026184124858368.0

  /** `a / b` for finite `a` and `b`; the distances here are never `-0.0`. */
  function Divide(a: real, b: real): (r: Float)
    ensures b != 0.0 ==> r == Finite(a / b)
    ensures b == 0.0 ==> (r == PosInf <==> a > 0.0) && (r == NegInf <==> a < 0.0) && (r == NaN <==> a == 0.0)
  {
    if b != 0.0 then Finite(a / b)
    else if a > 0.0 then PosInf
    else if a < 0.0 then NegInf
    else NaN
  }

  /** IEEE addition: NaN absorbs everything and `inf + -inf` is NaN. */
  function Plus(a: Float, b: Float): (r: Float)
    ensures a.Finite? && b.Finite? ==> r == Finite(a.v + b.v)
    ensures r.NaN? <==> a.NaN? || b.NaN? || (a.PosInf? && b.NegInf?) || (a.NegInf? && b.PosInf?)
    ensures r.PosInf? <==> !r.NaN? && (a.PosInf? || b.PosInf?)
    ensures r.NegInf? <==> !r.NaN? && (a.NegInf? || b.NegInf?)
  {
    match (a, b)
    case (NaN, _) => NaN
    case (_, NaN) => NaN
    case (PosInf, NegInf) => NaN
    case (NegInf, PosInf) => NaN
    case (PosInf, _) => PosInf
    case (_, PosInf) => PosInf
    case (NegInf, _) => NegInf
    case (_, NegInf) => NegInf
    case (Finite(x), Finite(y)) => Finite(x + y)
  }

  /** `np.nan_to_num(f, posinf=0)`: NaN and `+inf` become 0, `-inf` the most negative double. */
  function NanToNum(f: Float): (r: real)
    ensures f.Finite? ==> r == f.v
    ensures f.NaN? || f.PosInf? ==> r == 0.0
    ensures f.NegInf? ==> r == -MaxFloat
  {
    match f
    case Finite(x) => x
    case PosInf => 0.0
    case NegInf => -MaxFloat
    case NaN => 0.0
  }

  /** `np.nan_to_num(a, posinf=0, copy=False)`: every entry of `a` is replaced in place. */
  method NanToNumInPlace(a: array2<Float>)
    modifies a
    ensures forall i, j :: 0 <= i < a.Length0 && 0 <= j < a.Length1 ==> a[i, j] == Finite(NanToNum(old(a[i, j])))
  {
    for i := 0 to a.Length0
      invariant forall p, q :: 0 <= p < i && 0 <= q < a.Length1 ==> a[p, q] == Finite(NanToNum(old(a[p, q])))
      invariant forall p, q :: i <= p < a.Length0 && 0 <= q < a.Length1 ==> a[p, q] == old(a[p, q])
    {
      for j := 0 to a.Length1
        invariant forall p, q :: 0 <= p < i && 0 <= q < a.Length1 ==> a[p, q] == Finite(NanToNum(old(a[p, q])))
        invariant forall q :: 0 <= q < j ==> a[i, q] == Finite(NanToNum(old(a[i, q])))
        invariant forall p, q :: i <= p < a.Length0 && 0 <= q < a.Length1 && (p > i || q >= j) ==> a[p, q] == old(a[p, q])
      {
        a[i, j] := Finite(NanToNum(a[i, j]));
      }
    }
  }
}
