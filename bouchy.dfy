/** The Bouchy (2001) linear estimator of one line's Doppler shift
    (`bouchy_equation_line`), over exact reals. */
module Bouchy {
  import opened Missing

  /** Σ a[i]·b[i] */
  function Dot(a: seq<real>, b: seq<real>): real
    requires |a| == |b|
  {
    if |a| == 0 then 0.0 else a[0] * b[0] + Dot(a[1..], b[1..])
  }

  function SumSquares(v: seq<real>): real
  {
    Dot(v, v)
  }

  /** k·v, element by element. */
  function Scale(k: real, v: seq<real>): (r: seq<real>)
    ensures |r| == |v| && forall i :: 0 <= i < |v| ==> r[i] == k * v[i]
  {
    seq(|v|, i requires 0 <= i < |v| => k * v[i])
  }

  /** a·x + b·y, element by element. */
  function Combine(a: real, x: seq<real>, b: real, y: seq<real>): (r: seq<real>)
    requires |x| == |y|
    ensures |r| == |x| && forall i :: 0 <= i < |x| ==> r[i] == a * x[i] + b * y[i]
  {
    seq(|x|, i requires 0 <= i < |x| => a * x[i] + b * y[i])
  }

  /** The inverse square of one pixel's velocity rms `rms_pix = r / v`.
      A zero derivative makes `rms_pix` infinite, so its term is 0. */
  function PixelWeight(r: real, v: real): real
    requires r != 0.0
  {
    if v == 0.0 then 0.0 else 1.0 / ((r / v) * (r / v))
  }

  /** Σ 1 / rms_pix², the sum whose inverse square root is the error. */
  function InverseVariance(v: seq<real>, r: real): real
    requires r != 0.0
  {
    if |v| == 0 then 0.0 else PixelWeight(r, v[0]) + InverseVariance(v[1..], r)
  }

  ghost predicate IsSqrt(sqrt: real -> real)
  {
    forall x :: 0.0 <= x ==> 0.0 <= sqrt(x) && sqrt(x) * sqrt(x) == x
  }

  /** The shift of one line and its uncertainty. */
  datatype LineShift = LineShift(value: Option<real>, error: Option<real>)

  /** `value = Σ(diff·v) / Σ v²`; a zero denominator gives a non-finite value. */
  function Value(v: seq<real>, diff: seq<real>): (r: Option<real>)
    requires |v| == |diff|
    ensures r.Some? <==> SumSquares(v) != 0.0
    ensures r.Some? ==> r.value * SumSquares(v) == Dot(diff, v)
  {
    var s := SumSquares(v);
    if s == 0.0 then None else Some(Dot(diff, v) / s)
  }

  /** `rms_value = 1 / sqrt(Σ 1 / (mean_rms / v)²)`, with the float edge cases:
      a missing mean rms gives NaN; a zero mean rms gives NaN as soon as one
      derivative is zero (0/0), an infinite sum (so an error of 0) otherwise,
      and an empty sum an infinite error. */
  function Error(v: seq<real>, meanRms: Option<real>, sqrt: real -> real): Option<real>
  {
    match meanRms
    case None => None
    case Some(r) =>
      if r == 0.0 then
        if exists i :: 0 <= i < |v| && v[i] == 0.0 then None
        else if |v| == 0 then None
        else Some(0.0)
      else
        var s := InverseVariance(v, r);
        var q := sqrt(s);
        if s == 0.0 || q == 0.0 then None else Some(1.0 / q)
  }

  function Line(v: seq<real>, diff: seq<real>, meanRms: Option<real>, sqrt: real -> real): LineShift
    requires |v| == |diff|
  {
    LineShift(Value(v, diff), Error(v, meanRms, sqrt))
  }

  lemma {:induction false} DotScale(k: real, v: seq<real>, w: seq<real>)
    requires |v| == |w|
    ensures Dot(Scale(k, v), w) == k * Dot(v, w)
  {
    if |v| > 0 {
      var l, t := Scale(k, v)[1..], Scale(k, v[1..]);
      forall i | 0 <= i < |l| ensures l[i] == t[i] { }
      assert l == t;
      DotScale(k, v[1..], w[1..]);
    }
  }

  lemma {:induction false} DotCombine(a: real, x: seq<real>, b: real, y: seq<real>, w: seq<real>)
    requires |x| == |y| == |w|
    ensures Dot(Combine(a, x, b, y), w) == a * Dot(x, w) + b * Dot(y, w)
  {
    if |x| > 0 {
      CombineTail(a, x, b, y);
      DotCombine(a, x[1..], b, y[1..], w[1..]);
    }
  }

  lemma CombineTail(a: real, x: seq<real>, b: real, y: seq<real>)
    requires |x| == |y| > 0
    ensures Combine(a, x, b, y)[1..] == Combine(a, x[1..], b, y[1..])
  {
    var l, t := Combine(a, x, b, y)[1..], Combine(a, x[1..], b, y[1..]);
    forall i | 0 <= i < |l| ensures l[i] == t[i] { }
  }

  /** A difference that is exactly k times the derivative is measured as k. */
  lemma RecoversScale(k: real, v: seq<real>)
    requires SumSquares(v) != 0.0
    ensures Value(v, Scale(k, v)) == Some(k)
  {
    DotScale(k, v, v);
    var s := SumSquares(v);
    assert Dot(Scale(k, v), v) == k * s;
    assert (k * s) / s == k;
  }

  /** The estimate is linear in the difference vector. */
  lemma ValueIsLinear(v: seq<real>, a: real, d1: seq<real>, b: real, d2: seq<real>)
    requires |v| == |d1| == |d2|
    requires SumSquares(v) != 0.0
    ensures Value(v, Combine(a, d1, b, d2)).Some?
    ensures Value(v, Combine(a, d1, b, d2)).value == a * Value(v, d1).value + b * Value(v, d2).value
  {
    var s, p, q := SumSquares(v), Dot(d1, v), Dot(d2, v);
    DotCombine(a, d1, b, d2, v);
    DivisionDistributes(a, p, b, q, s);
  }

  lemma {:induction false} SumSquaresNonNegative(v: seq<real>)
    ensures 0.0 <= SumSquares(v)
  {
    if |v| > 0 {
      SumSquaresNonNegative(v[1..]);
      assert SumSquares(v) == v[0] * v[0] + SumSquares(v[1..]);
    }
  }

  lemma DivisionDistributes(a: real, p: real, b: real, q: real, s: real)
    requires s != 0.0
    ensures (a * p + b * q) / s == a * (p / s) + b * (q / s)
  {
    var x, y := p / s, q / s;
    assert p == x * s && q == y * s;
    assert a * p + b * q == (a * x + b * y) * s;
  }

  lemma PixelWeightIsRatio(r: real, v: real)
    requires r != 0.0
    ensures PixelWeight(r, v) * (r * r) == v * v
  {
    if v != 0.0 {
      var q := r / v;
      assert q * v == r;
      assert (q * q) * (v * v) == r * r;
    }
  }

  lemma {:induction false} InverseVarianceIsScaledSumSquares(v: seq<real>, r: real)
    requires r != 0.0
    ensures InverseVariance(v, r) * (r * r) == SumSquares(v)
  {
    if |v| > 0 {
      PixelWeightIsRatio(r, v[0]);
      InverseVarianceIsScaledSumSquares(v[1..], r);
    }
  }

  /** For a non-zero mean rms: error² · Σ v² = mean_rms². */
  lemma ErrorTimesSignal(v: seq<real>, r: real, sqrt: real -> real)
    requires IsSqrt(sqrt)
    requires r != 0.0 && SumSquares(v) != 0.0
    ensures Error(v, Some(r), sqrt).Some?
    ensures var e := Error(v, Some(r), sqrt).value; e * e * SumSquares(v) == r * r
  {
    var s := InverseVariance(v, r);
    InverseVarianceIsScaledSumSquares(v, r);
    assert s != 0.0;
    var q := sqrt(s);
    assert q * q == s by {
      SumSquaresNonNegative(v);
      assert 0.0 < r * r;
      assert 0.0 <= s;
    }
    var e := 1.0 / q;
    assert e * q == 1.0;
    assert e * e * s == 1.0 by {
      assert (e * q) * (e * q) == e * e * (q * q);
    }
    assert e * e * SumSquares(v) == (e * e * s) * (r * r);
  }
}
