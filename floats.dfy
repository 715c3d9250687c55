/**
  An abstraction of IEEE-754 doubles as the services use them: a finite value is an exact
  real (no rounding, no overflow), and NaN and the two infinities are explicit variants.
  Also: sums and means over exact reals, and the facts about `tanh` the model relies on.
 */
module Floats {

  datatype Float = Finite(v: real) | NaN | PosInf | NegInf

  /** `math.isinf`. */
  predicate IsInf(x: Float) {
    x.PosInf? || x.NegInf?
  }

  function Neg(x: Float): Float {
    match x
    case Finite(a) => Finite(-a)
    case NaN => NaN
    case PosInf => NegInf
    case NegInf => PosInf
  }

  /** Addition of doubles: NaN absorbs, opposite infinities give NaN, an infinity absorbs a finite value. */
  function Add(a: Float, b: Float): (r: Float)
    ensures a.Finite? && b.Finite? ==> r == Finite(a.v + b.v)
    ensures r.NaN? <==> a.NaN? || b.NaN? || (a.PosInf? && b.NegInf?) || (a.NegInf? && b.PosInf?)
  {
    match (a, b)
    case (NaN, _) => NaN
    case (_, NaN) => NaN
    case (PosInf, NegInf) => NaN
    case (NegInf, PosInf) => NaN
    case (PosInf, _) => PosInf
    case (NegInf, _) => NegInf
    case (_, PosInf) => PosInf
    case (_, NegInf) => NegInf
    case (Finite(x), Finite(y)) => Finite(x + y)
  }

  function Sub(a: Float, b: Float): Float {
    Add(a, Neg(b))
  }

  /** `x - x` is 0 for a finite `x` and NaN otherwise (inf - inf is NaN); negating it changes nothing. */
  lemma SubSelf(x: Float)
    ensures Sub(x, x) == (if x.Finite? then Finite(0.0) else NaN)
    ensures Neg(Sub(x, x)) == Sub(x, x)
  {
  }

  /**
    Division of doubles. A zero divisor raises `ZeroDivisionError` for Python floats; every
    division in the services is guarded against it, so it is excluded here.
   */
  function Div(a: Float, b: Float): (r: Float)
    requires b != Finite(0.0)
    ensures a.Finite? && b.Finite? ==> r == Finite(a.v / b.v)
    ensures r.NaN? <==> a.NaN? || b.NaN? || (IsInf(a) && IsInf(b))
    ensures a.Finite? && IsInf(b) ==> r == Finite(0.0)
  {
    match (a, b)
    case (NaN, _) => NaN
    case (_, NaN) => NaN
    case (Finite(x), Finite(y)) => Finite(x / y)
    case (Finite(_), _) => Finite(0.0)
    case (PosInf, Finite(y)) => if y > 0.0 then PosInf else NegInf
    case (NegInf, Finite(y)) => if y > 0.0 then NegInf else PosInf
    case (_, _) => NaN
  }

  /** Left-to-right sum of doubles, as numpy adds an array. */
  function FSum(xs: seq<Float>): Float
    decreases |xs|
  {
    if |xs| == 0 then Finite(0.0) else Add(FSum(xs[..|xs| - 1]), xs[|xs| - 1])
  }

  /** `np.mean` of an array of doubles: NaN for an empty array, otherwise sum over count. */
  function FMean(xs: seq<Float>): Float {
    if |xs| == 0 then NaN else Div(FSum(xs), Finite(|xs| as real))
  }

  predicate AllFinite(xs: seq<Float>) {
    forall i :: 0 <= i < |xs| ==> xs[i].Finite?
  }

  /** The exact real values of a sequence of finite doubles. */
  function Values(xs: seq<Float>): (r: seq<real>)
    requires AllFinite(xs)
    ensures |r| == |xs|
    ensures forall i :: 0 <= i < |xs| ==> r[i] == xs[i].v
  {
    seq(|xs|, i requires 0 <= i < |xs| => xs[i].v)
  }

  /** `math.tanh` on doubles, given the real function `tanh`: it saturates at the infinities. */
  function FTanh(tanh: real -> real, x: Float): Float {
    match x
    case Finite(a) => Finite(tanh(a))
    case NaN => NaN
    case PosInf => Finite(1.0)
    case NegInf => Finite(-1.0)
  }

  ghost predicate StrictlyIncreasing(f: real -> real) {
    forall x, y :: x < y ==> f(x) < f(y)
  }

  /** What the model uses of the hyperbolic tangent: its range, oddness and strict monotonicity. */
  ghost predicate IsTanh(tanh: real -> real) {
    && (forall x :: -1.0 < tanh(x) < 1.0)
    && (forall x, y :: x + y == 0.0 ==> tanh(x) == -tanh(y))
    && StrictlyIncreasing(tanh)
  }

  lemma TanhZero(tanh: real -> real)
    requires IsTanh(tanh)
    ensures tanh(0.0) == 0.0
  {
    assert 0.0 + 0.0 == 0.0;
  }

  /** `math.tanh` of a double lies in [-1, 1], strictly inside for a finite argument. */
  lemma FTanhRange(tanh: real -> real, x: Float)
    ensures IsTanh(tanh) && FTanh(tanh, x).Finite? ==> -1.0 <= FTanh(tanh, x).v <= 1.0
    ensures IsTanh(tanh) && x.Finite? ==> -1.0 < FTanh(tanh, x).v < 1.0
  {
    if IsTanh(tanh) && x.Finite? {
      assert -1.0 < tanh(x.v) < 1.0;
    }
  }

  lemma TanhMonotone(tanh: real -> real, x: real, y: real)
    requires StrictlyIncreasing(tanh)
    requires x <= y
    ensures tanh(x) <= tanh(y)
  {
    if x < y {
      assert tanh(x) < tanh(y);
    }
  }

  // ----- real arithmetic the solver needs spelled out -------------------------

  lemma MulStrict(x: real, y: real, k: real)
    requires x < y && k > 0.0
    ensures x * k < y * k
  {
    assert y * k - x * k == (y - x) * k;
  }

  /** A common positive factor cancels. */
  lemma MulCancel(x: real, y: real, k: real)
    requires k > 0.0 && x * k == y * k
    ensures x == y
  {
  }

  /** Dividing a positive constant by a larger positive number gives less. */
  lemma DivAntitone(c: real, x: real, y: real)
    requires c > 0.0 && 0.0 < x < y
    ensures c / y < c / x
  {
    var a, b := c / x, c / y;
    assert a * x == c && b * y == c;
    assert b * (y - x) > 0.0;
    assert a - b == b * (y - x) / x;
  }

  // ----- exact real statistics ------------------------------------------------

  function Sum(xs: seq<real>): real
    decreases |xs|
  {
    if |xs| == 0 then 0.0 else Sum(xs[..|xs| - 1]) + xs[|xs| - 1]
  }

  /** The arithmetic mean of a non-empty sequence of reals (`np.mean`, `statistics.mean`). */
  function Mean(xs: seq<real>): real
    requires |xs| > 0
  {
    Sum(xs) / |xs| as real
  }

  lemma {:induction false} SumBounds(xs: seq<real>, lo: real, hi: real)
    requires forall i :: 0 <= i < |xs| ==> lo < xs[i] < hi
    ensures |xs| > 0 ==> |xs| as real * lo < Sum(xs) < |xs| as real * hi
    decreases |xs|
  {
    if |xs| > 0 {
      var n := |xs| as real;
      var init := xs[..|xs| - 1];
      SumBounds(init, lo, hi);
      assert Sum(xs) == Sum(init) + xs[|xs| - 1];
      if |xs| == 1 {
        assert Sum(init) == 0.0 && n == 1.0;
      } else {
        assert |init| as real == n - 1.0;
        assert n * lo == (n - 1.0) * lo + lo;
        assert n * hi == (n - 1.0) * hi + hi;
      }
    }
  }

  /** A mean of values strictly inside an interval is strictly inside that interval. */
  lemma MeanBounds(xs: seq<real>, lo: real, hi: real)
    requires |xs| > 0
    requires forall i :: 0 <= i < |xs| ==> lo < xs[i] < hi
    ensures lo < Mean(xs) < hi
  {
    SumBounds(xs, lo, hi);
    var n := |xs| as real;
    assert Sum(xs) / n > lo by {
      assert Sum(xs) > n * lo;
    }
    assert Sum(xs) / n < hi by {
      assert Sum(xs) < n * hi;
    }
  }

  /** A mean of values inside a closed interval is inside that interval. */
  lemma {:induction false} SumBoundsClosed(xs: seq<real>, lo: real, hi: real)
    requires forall i :: 0 <= i < |xs| ==> lo <= xs[i] <= hi
    ensures |xs| as real * lo <= Sum(xs) <= |xs| as real * hi
    decreases |xs|
  {
    if |xs| > 0 {
      var n := |xs| as real;
      var init := xs[..|xs| - 1];
      SumBoundsClosed(init, lo, hi);
      assert |init| as real == n - 1.0;
      assert Sum(xs) == Sum(init) + xs[|xs| - 1];
      assert n * lo == (n - 1.0) * lo + lo;
      assert n * hi == (n - 1.0) * hi + hi;
    }
  }

  lemma MeanBoundsClosed(xs: seq<real>, lo: real, hi: real)
    requires |xs| > 0
    requires forall i :: 0 <= i < |xs| ==> lo <= xs[i] <= hi
    ensures lo <= Mean(xs) <= hi
  {
    SumBoundsClosed(xs, lo, hi);
    var n := |xs| as real;
    assert Sum(xs) / n >= lo by {
      assert Sum(xs) >= n * lo;
    }
    assert Sum(xs) / n <= hi by {
      assert Sum(xs) <= n * hi;
    }
  }

  /** Summing finite doubles never leaves the finite values, and agrees with the real sum. */
  lemma {:induction false} FSumOfFinite(xs: seq<Float>)
    requires AllFinite(xs)
    ensures FSum(xs) == Finite(Sum(Values(xs)))
    decreases |xs|
  {
    if |xs| > 0 {
      var init := xs[..|xs| - 1];
      FSumOfFinite(init);
      assert Values(xs)[..|xs| - 1] == Values(init);
    }
  }

  lemma FMeanOfFinite(xs: seq<Float>)
    requires |xs| > 0 && AllFinite(xs)
    ensures FMean(xs) == Finite(Mean(Values(xs)))
  {
    FSumOfFinite(xs);
  }

  /** A NaN anywhere in the array makes `np.mean` NaN. */
  lemma {:induction false} FSumNaN(xs: seq<Float>, k: nat)
    requires k < |xs| && xs[k].NaN?
    ensures FSum(xs).NaN?
    decreases |xs|
  {
    if k < |xs| - 1 {
      FSumNaN(xs[..|xs| - 1], k);
    }
  }
}
