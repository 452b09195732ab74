/** The numeric capabilities the metrics need from an array backend,
    on exact reals: sums, dot products, division as IEEE floats do it,
    `tf.math.divide_no_nan`, the mean of an array and `math.isclose`. */
module Numerics {

  /** A floating-point result: a finite value, or one of the special values
      that a division by zero or the mean of an empty array yields. */
  datatype Float = Finite(value: real) | NaN | Infinity(negative: bool)

  function Abs(x: real): real { if x < 0.0 then -x else x }

  function Max(a: real, b: real): real { if a < b then b else a }

  function Min(a: real, b: real): real { if a < b then a else b }

  function Sum(s: seq<real>): real
  {
    if |s| == 0 then 0.0 else s[0] + Sum(s[1..])
  }

  function Dot(a: seq<real>, b: seq<real>): real
    requires |a| == |b|
  {
    if |a| == 0 then 0.0 else a[0] * b[0] + Dot(a[1..], b[1..])
  }

  /** Float division: x / 0 is NaN when x is 0 and an infinity otherwise. */
  function Divide(a: real, b: real): Float
  {
    if b != 0.0 then Finite(a / b)
    else if a == 0.0 then NaN
    else Infinity(a < 0.0)
  }

  /** `tf.math.divide_no_nan`: 0 wherever the denominator is 0. */
  function DivideNoNan(a: real, b: real): (r: real)
    ensures b == 0.0 ==> r == 0.0
    ensures b != 0.0 ==> r * b == a
  {
    if b == 0.0 then 0.0 else a / b
  }

  /** `numpy.average` / `Tensor.mean` of a one-dimensional array. */
  function Average(s: seq<real>): (r: Float)
    ensures r.NaN? <==> |s| == 0
    ensures r.Finite? ==> r.value * |s| as real == Sum(s)
    ensures !r.Infinity?
  {
    if |s| == 0 then NaN else Finite(Sum(s) / |s| as real)
  }

  /** `math.isclose(a, b, rel_tol=relTol, abs_tol=absTol)` on finite values. */
  predicate IsClose(a: real, b: real, relTol: real, absTol: real)
  {
    Abs(a - b) <= Max(relTol * Max(Abs(a), Abs(b)), absTol)
  }

  /** The default `rel_tol` of `math.isclose`. */
  const DefaultRelTol: real := 0.000000001

  /** `divide_no_nan` agrees with float division wherever that division is
      finite, and replaces the NaN or infinity of a zero denominator by 0. */
  lemma DivideNoNanAgreesWithDivide(a: real, b: real)
    ensures b != 0.0 ==> Divide(a, b) == Finite(DivideNoNan(a, b))
    ensures b == 0.0 ==> DivideNoNan(a, b) == 0.0 && !Divide(a, b).Finite?
  {
  }

  lemma {:induction false} SumAppend(a: seq<real>, b: seq<real>)
    ensures Sum(a + b) == Sum(a) + Sum(b)
  {
    if |a| == 0 {
      assert a + b == b;
    } else {
      assert (a + b)[1..] == a[1..] + b;
      SumAppend(a[1..], b);
    }
  }

  /** A sum of non-negative values is non-negative and bounds each of them. */
  lemma {:induction false} SumNonNegative(s: seq<real>)
    requires forall i :: 0 <= i < |s| ==> s[i] >= 0.0
    ensures Sum(s) >= 0.0
    ensures forall i :: 0 <= i < |s| ==> s[i] <= Sum(s)
  {
    if |s| > 0 {
      SumNonNegative(s[1..]);
      forall i | 1 <= i < |s|
        ensures s[i] <= Sum(s)
      {
        assert s[i] == s[1..][i - 1];
      }
    }
  }
}
