/** `rough_ccf_rv`: a coarse systemic velocity from the cross-correlation of
    the science spectrum with the line mask. The orders are flattened with
    their overlaps removed, the CCF is sampled on a velocity grid and its
    peak seeds a Gaussian fit. */
module RoughCcf {
  import opened Missing
  import Bouchy

  ghost predicate Grid(rows: seq<seq<real>>, n: nat)
  {
    forall o :: 0 <= o < |rows| ==> |rows[o]| == n
  }

  ghost predicate Spectrum(rows: seq<seq<Option<real>>>, m: nat, n: nat)
  {
    |rows| == m && forall o :: 0 <= o < m ==> |rows[o]| == n
  }

  /** Pixel `i` of order `o` is kept: its wavelength lies beyond the mirrored
      pixel of the previous order and short of the mirrored pixel of the next
      order, and its flux is finite. */
  ghost predicate Keep(wavegrid: seq<seq<real>>, sci: seq<seq<Option<real>>>, n: nat, o: nat, i: nat)
    requires Grid(wavegrid, n) && Spectrum(sci, |wavegrid|, n) && o < |wavegrid| && i < n
  {
    ClearOfPrevious(wavegrid, n, o, i) && ClearOfNext(wavegrid, n, o, i) && sci[o][i].Some?
  }

  ghost predicate ClearOfPrevious(wavegrid: seq<seq<real>>, n: nat, o: nat, i: nat)
    requires Grid(wavegrid, n) && o < |wavegrid| && i < n
  {
    o == 0 || wavegrid[o][i] > wavegrid[o - 1][n - 1 - i]
  }

  ghost predicate ClearOfNext(wavegrid: seq<seq<real>>, n: nat, o: nat, i: nat)
    requires Grid(wavegrid, n) && o < |wavegrid| && i < n
  {
    o == |wavegrid| - 1 || wavegrid[o][i] < wavegrid[o + 1][n - 1 - i]
  }

  /** `mask[order_num] &= porder` for one pair of orders: the elementwise
      comparison with the neighbour's wavelengths in reversed pixel order. */
  function AboveMirror(row: seq<bool>, wave: seq<real>, neighbour: seq<real>): (r: seq<bool>)
    requires |row| == |wave| == |neighbour|
    ensures |r| == |row|
    ensures forall i :: 0 <= i < |r| ==> (r[i] <==> row[i] && wave[i] > neighbour[|wave| - 1 - i])
  {
    seq(|row|, i requires 0 <= i < |row| => row[i] && wave[i] > neighbour[|wave| - 1 - i])
  }

  function BelowMirror(row: seq<bool>, wave: seq<real>, neighbour: seq<real>): (r: seq<bool>)
    requires |row| == |wave| == |neighbour|
    ensures |r| == |row|
    ensures forall i :: 0 <= i < |r| ==> (r[i] <==> row[i] && wave[i] < neighbour[|wave| - 1 - i])
  {
    seq(|row|, i requires 0 <= i < |row| => row[i] && wave[i] < neighbour[|wave| - 1 - i])
  }

  function AndFinite(row: seq<bool>, flux: seq<Option<real>>): (r: seq<bool>)
    requires |row| == |flux|
    ensures |r| == |row|
    ensures forall i :: 0 <= i < |r| ==> (r[i] <==> row[i] && flux[i].Some?)
  {
    seq(|row|, i requires 0 <= i < |row| => row[i] && flux[i].Some?)
  }

  /** The pixel selection of `rough_ccf_rv`: the two overlap passes (several
      orders) or the finiteness test alone (a single order). */
  method OverlapMask(wavegrid: seq<seq<real>>, sci: seq<seq<Option<real>>>, n: nat) returns (mask: seq<seq<bool>>)
    requires |wavegrid| > 0 && Grid(wavegrid, n) && Spectrum(sci, |wavegrid|, n)
    ensures |mask| == |wavegrid|
    ensures forall o :: 0 <= o < |mask| ==> |mask[o]| == n
    ensures forall o, i :: 0 <= o < |mask| && 0 <= i < n ==> (mask[o][i] <==> Keep(wavegrid, sci, n, o, i))
  {
    var m := |wavegrid|;
    mask := Fill(m, Fill(n, true));
    if m > 1 {
      for o := 1 to m
        invariant |mask| == m && forall q :: 0 <= q < m ==> |mask[q]| == n
        invariant forall q, i :: 0 <= q < m && 0 <= i < n ==>
                    (mask[q][i] <==> q >= o || ClearOfPrevious(wavegrid, n, q, i))
      {
        mask := mask[o := AboveMirror(mask[o], wavegrid[o], wavegrid[o - 1])];
      }
      for o := 0 to m - 1
        invariant |mask| == m && forall q :: 0 <= q < m ==> |mask[q]| == n
        invariant forall q, i :: 0 <= q < m && 0 <= i < n ==>
                    (mask[q][i] <==> ClearOfPrevious(wavegrid, n, q, i) && (q >= o || ClearOfNext(wavegrid, n, q, i)))
      {
        mask := mask[o := BelowMirror(mask[o], wavegrid[o], wavegrid[o + 1])];
      }
    }
    for o := 0 to m
      invariant |mask| == m && forall q :: 0 <= q < m ==> |mask[q]| == n
      invariant forall q, i :: 0 <= q < m && 0 <= i < n ==>
                  (mask[q][i] <==> ClearOfPrevious(wavegrid, n, q, i) && ClearOfNext(wavegrid, n, q, i) &&
                                   (q >= o || sci[q][i].Some?))
    {
      mask := mask[o := AndFinite(mask[o], sci[o])];
    }
  }

  /** `wavegrid[mask]` and `sci_data[mask]`: the kept pixels in row-major
      order, as (wavelength, flux) pairs. */
  function Flatten(wavegrid: seq<seq<real>>, sci: seq<seq<Option<real>>>, mask: seq<seq<bool>>, n: nat)
    : (pts: seq<(real, real)>)
    requires Grid(wavegrid, n) && Spectrum(sci, |wavegrid|, n) && Spectrum2(mask, |wavegrid|, n)
    requires forall o, i :: 0 <= o < |mask| && 0 <= i < n && mask[o][i] ==> sci[o][i].Some?
    decreases |wavegrid|
  {
    if |wavegrid| == 0 then []
    else
      var last := |wavegrid| - 1;
      Flatten(wavegrid[..last], sci[..last], mask[..last], n) + FlattenRow(wavegrid[last], sci[last], mask[last])
  }

  ghost predicate Spectrum2(rows: seq<seq<bool>>, m: nat, n: nat)
  {
    |rows| == m && forall o :: 0 <= o < m ==> |rows[o]| == n
  }

  function FlattenRow(wave: seq<real>, flux: seq<Option<real>>, keep: seq<bool>): seq<(real, real)>
    requires |wave| == |flux| == |keep|
    requires forall i :: 0 <= i < |keep| && keep[i] ==> flux[i].Some?
  {
    if |wave| == 0 then []
    else
      var rest := FlattenRow(wave[1..], flux[1..], keep[1..]);
      if keep[0] then [(wave[0], flux[0].value)] + rest else rest
  }

  lemma {:induction false} FlattenRowKept(wave: seq<real>, flux: seq<Option<real>>, keep: seq<bool>, k: nat)
    requires |wave| == |flux| == |keep|
    requires forall i :: 0 <= i < |keep| && keep[i] ==> flux[i].Some?
    requires k < |FlattenRow(wave, flux, keep)|
    ensures exists i :: 0 <= i < |keep| && keep[i] && FlattenRow(wave, flux, keep)[k] == (wave[i], flux[i].value)
  {
    var rest := FlattenRow(wave[1..], flux[1..], keep[1..]);
    if keep[0] && k == 0 {
      assert FlattenRow(wave, flux, keep)[0] == (wave[0], flux[0].value);
    } else {
      var k' := if keep[0] then k - 1 else k;
      assert FlattenRow(wave, flux, keep)[k] == rest[k'];
      FlattenRowKept(wave[1..], flux[1..], keep[1..], k');
      var j :| 0 <= j < |keep| - 1 && keep[1..][j] && rest[k'] == (wave[1..][j], flux[1..][j].value);
      assert keep[j + 1] && rest[k'] == (wave[j + 1], flux[j + 1].value);
    }
  }

  /** Every point fed to the science spline is a kept pixel: a finite flux at
      its own wavelength, clear of the neighbouring orders' overlaps. */
  lemma {:induction false} FlattenedPointsAreKept(wavegrid: seq<seq<real>>, sci: seq<seq<Option<real>>>,
                                                  mask: seq<seq<bool>>, n: nat, k: nat)
    requires Grid(wavegrid, n) && Spectrum(sci, |wavegrid|, n) && Spectrum2(mask, |wavegrid|, n)
    requires forall o, i :: 0 <= o < |mask| && 0 <= i < n && mask[o][i] ==> sci[o][i].Some?
    requires k < |Flatten(wavegrid, sci, mask, n)|
    ensures exists o, i :: 0 <= o < |wavegrid| && 0 <= i < n && mask[o][i] &&
              Flatten(wavegrid, sci, mask, n)[k] == (wavegrid[o][i], sci[o][i].value)
    decreases |wavegrid|
  {
    var last := |wavegrid| - 1;
    var init := Flatten(wavegrid[..last], sci[..last], mask[..last], n);
    var row := FlattenRow(wavegrid[last], sci[last], mask[last]);
    if k < |init| {
      FlattenedPointsAreKept(wavegrid[..last], sci[..last], mask[..last], n, k);
      var o, i :| 0 <= o < last && 0 <= i < n && mask[..last][o][i] &&
                  init[k] == (wavegrid[..last][o][i], sci[..last][o][i].value);
      assert mask[o][i] && Flatten(wavegrid, sci, mask, n)[k] == (wavegrid[o][i], sci[o][i].value);
    } else {
      FlattenRowKept(wavegrid[last], sci[last], mask[last], k - |init|);
      var i :| 0 <= i < n && mask[last][i] && row[k - |init|] == (wavegrid[last][i], sci[last][i].value);
      assert Flatten(wavegrid, sci, mask, n)[k] == row[k - |init|];
    }
  }

  /** `len(np.arange(start, stop, step))` over exact reals. */
  function ArangeLength(start: real, stop: real, step: real): nat
    requires step != 0.0
  {
    var c := Ceil((stop - start) / step);
    if c < 0 then 0 else c
  }

  /** `np.arange(start, stop, step)` over exact reals. */
  function Arange(start: real, stop: real, step: real): (g: seq<real>)
    requires step != 0.0
    ensures |g| == ArangeLength(start, stop, step)
  {
    seq(ArangeLength(start, stop, step), k => start + k as real * step)
  }

  lemma QuotientBounds(d: real, step: real, k: int)
    requires step > 0.0
    ensures k as real < d / step ==> k as real * step < d
    ensures k as real >= d / step ==> k as real * step >= d
  {
    var q := d / step;
    assert q * step == d;
    if k as real < q {
      assert (q - k as real) * step > 0.0;
    } else {
      assert (k as real - q) * step >= 0.0;
    }
  }

  /** With a positive step the grid starts at `start`, climbs by `step`,
      stays below `stop`, and its next point would reach `stop`. */
  lemma ArangeCovers(start: real, stop: real, step: real)
    requires step > 0.0
    ensures forall k :: 0 <= k < |Arange(start, stop, step)| ==>
              start <= Arange(start, stop, step)[k] < stop
    ensures start < stop ==> |Arange(start, stop, step)| > 0
    ensures start + |Arange(start, stop, step)| as real * step >= stop
  {
    var g := Arange(start, stop, step);
    var q := (stop - start) / step;
    forall k | 0 <= k < |g| ensures start <= g[k] < stop {
      assert k < Ceil(q);
      assert k as real < q;
      QuotientBounds(stop - start, step, k);
      assert 0.0 <= k as real * step;
    }
    if start < stop {
      assert q > 0.0;
    }
    QuotientBounds(stop - start, step, |g|);
    if Ceil(q) < 0 {
      assert q < 0.0;
      assert stop < start;
    }
  }

  /** `weight_line * spline_sp(doppler_shift(wave_mask, dv))`, summed. */
  function CcfAt(dv: real, waveMask: seq<real>, weights: seq<real>, spline: real -> real,
                 doppler: (real, real) -> real): real
    requires |waveMask| == |weights|
    decreases |waveMask|
  {
    if |waveMask| == 0 then 0.0
    else weights[0] * spline(doppler(waveMask[0], dv)) + CcfAt(dv, waveMask[1..], weights[1..], spline, doppler)
  }

  /** The CCF is linear in the line weights. */
  lemma {:induction false} CcfLinearInWeights(dv: real, waveMask: seq<real>, w1: seq<real>, w2: seq<real>, a: real, b: real,
                                              spline: real -> real, doppler: (real, real) -> real)
    requires |waveMask| == |w1| == |w2|
    ensures CcfAt(dv, waveMask, Bouchy.Combine(a, w1, b, w2), spline, doppler) ==
            a * CcfAt(dv, waveMask, w1, spline, doppler) + b * CcfAt(dv, waveMask, w2, spline, doppler)
    decreases |waveMask|
  {
    if |waveMask| > 0 {
      var w := Bouchy.Combine(a, w1, b, w2);
      Bouchy.CombineTail(a, w1, b, w2);
      CcfLinearInWeights(dv, waveMask[1..], w1[1..], w2[1..], a, b, spline, doppler);
      var s := spline(doppler(waveMask[0], dv));
      var x1 := CcfAt(dv, waveMask[1..], w1[1..], spline, doppler);
      var x2 := CcfAt(dv, waveMask[1..], w2[1..], spline, doppler);
      assert CcfAt(dv, waveMask, w, spline, doppler) == w[0] * s + (a * x1 + b * x2);
      TermIsLinear(a, b, w1[0], w2[0], s, x1, x2);
    }
  }

  /** One term of the weighted sum, added to the sum of the rest, is linear
      in the weights. */
  lemma TermIsLinear(a: real, b: real, u1: real, u2: real, s: real, x1: real, x2: real)
    ensures (a * u1 + b * u2) * s + (a * x1 + b * x2) == a * (u1 * s + x1) + b * (u2 * s + x2)
  {
    assert (a * u1 + b * u2) * s == a * (u1 * s) + b * (u2 * s);
  }

  /** The CCF loop: one weighted sum per velocity of the grid. */
  method CcfVector(dvgrid: seq<real>, waveMask: seq<real>, weights: seq<real>, spline: real -> real,
                   doppler: (real, real) -> real)
    returns (ccf: array<real>)
    requires |waveMask| == |weights|
    ensures fresh(ccf) && ccf.Length == |dvgrid|
    ensures forall k :: 0 <= k < |dvgrid| ==> ccf[k] == CcfAt(dvgrid[k], waveMask, weights, spline, doppler)
  {
    ccf := new real[|dvgrid|](_ => 0.0);
    for k := 0 to |dvgrid|
      invariant forall q :: 0 <= q < k ==> ccf[q] == CcfAt(dvgrid[q], waveMask, weights, spline, doppler)
    {
      ccf[k] := CcfAt(dvgrid[k], waveMask, weights, spline, doppler);
    }
  }

  /** `np.argmax`: the first index holding the largest value. */
  method FirstArgMax(a: seq<real>) returns (best: nat)
    requires |a| > 0
    ensures best < |a|
    ensures forall i :: 0 <= i < |a| ==> a[i] <= a[best]
    ensures forall i :: 0 <= i < best ==> a[i] < a[best]
  {
    best := 0;
    for i := 1 to |a|
      invariant best < i
      invariant forall j :: 0 <= j < i ==> a[j] <= a[best]
      invariant forall j :: 0 <= j < best ==> a[j] < a[best]
    {
      if a[i] > a[best] {
        best := i;
      }
    }
  }

  /** The five-parameter Gaussian guess: mean, e-width, amplitude, dc level
      and slope. */
  datatype Gauss = Gauss(mean: real, ewidth: real, amp: real, dc: real, slope: real)

  /** The instrument's coarse CCF parameters. */
  datatype CcfParams = CcfParams(rvMin: real, rvMax: real, rvStep: real, ewidthGuess: real)

  /** The external numerics: the science spline built from the flattened
      points, the Doppler shift, the median, and the Gaussian least-squares
      fit started from a guess. */
  datatype CcfNumerics = CcfNumerics(
    splineOf: seq<(real, real)> -> (real -> real),
    doppler: (real, real) -> real,
    median: seq<real> -> real,
    fit: (seq<real>, seq<real>, Gauss) -> Gauss)

  /** The guess built from the CCF peak at index `top`. */
  function Seed(dvgrid: seq<real>, ccf: seq<real>, top: nat, ewidthGuess: real, median: seq<real> -> real): (g: Gauss)
    requires |dvgrid| == |ccf| && top < |ccf|
    ensures g.mean == dvgrid[top] && g.ewidth == ewidthGuess && g.slope == 0.0
    ensures g.dc == median(ccf) && g.amp == ccf[top] - median(ccf)
  {
    var dc := median(ccf);
    Gauss(dvgrid[top], ewidthGuess, ccf[top] - dc, dc, 0.0)
  }

  /** The selection as a boolean grid. */
  ghost function KeepMask(wavegrid: seq<seq<real>>, sci: seq<seq<Option<real>>>, n: nat): (mask: seq<seq<bool>>)
    requires Grid(wavegrid, n) && Spectrum(sci, |wavegrid|, n)
    ensures Spectrum2(mask, |wavegrid|, n)
    ensures forall o, i :: 0 <= o < |mask| && 0 <= i < n ==> (mask[o][i] <==> Keep(wavegrid, sci, n, o, i))
  {
    seq(|wavegrid|, o requires 0 <= o < |wavegrid| => seq(n, i requires 0 <= i < n => Keep(wavegrid, sci, n, o, i)))
  }

  /** The CCF sampled on a velocity grid. */
  function Ccf(dvgrid: seq<real>, waveMask: seq<real>, weights: seq<real>, spline: real -> real,
               doppler: (real, real) -> real): (ccf: seq<real>)
    requires |waveMask| == |weights|
    ensures |ccf| == |dvgrid|
  {
    seq(|dvgrid|, k requires 0 <= k < |dvgrid| => CcfAt(dvgrid[k], waveMask, weights, spline, doppler))
  }

  /** `top` is the first index of the largest CCF value. */
  ghost predicate FirstPeak(ccf: seq<real>, top: nat)
  {
    top < |ccf| && (forall i :: 0 <= i < |ccf| ==> ccf[i] <= ccf[top]) && (forall i :: 0 <= i < top ==> ccf[i] < ccf[top])
  }

  /** `r` is the velocity and e-width of the Gaussian fitted to the CCF of
      the selected science points, started from the first CCF peak. */
  ghost predicate CoarseFit(params: CcfParams, wavegrid: seq<seq<real>>, sci: seq<seq<Option<real>>>, n: nat,
                            waveMask: seq<real>, weights: seq<real>, num: CcfNumerics, r: (real, real))
    requires params.rvStep != 0.0 && Grid(wavegrid, n) && Spectrum(sci, |wavegrid|, n) && |waveMask| == |weights|
  {
    var dvgrid := Arange(params.rvMin, params.rvMax, params.rvStep);
    var spline := num.splineOf(Flatten(wavegrid, sci, KeepMask(wavegrid, sci, n), n));
    var ccf := Ccf(dvgrid, waveMask, weights, spline, num.doppler);
    exists top :: FirstPeak(ccf, top) &&
                  r == (num.fit(dvgrid, ccf, Seed(dvgrid, ccf, top, params.ewidthGuess, num.median)).mean,
                        num.fit(dvgrid, ccf, Seed(dvgrid, ccf, top, params.ewidthGuess, num.median)).ewidth)
  }

  /** `rough_ccf_rv` up to the fit: the systemic velocity and e-width of the
      fitted Gaussian, or `None` when the velocity grid is empty (where
      `np.argmax` raises). The Gaussian fit starts from the first CCF peak. */
  method RoughCcfRv(params: CcfParams, wavegrid: seq<seq<real>>, sci: seq<seq<Option<real>>>, n: nat,
                    waveMask: seq<real>, weights: seq<real>, num: CcfNumerics)
    returns (r: Option<(real, real)>, seed: Gauss)
    requires params.rvStep != 0.0
    requires |wavegrid| > 0 && Grid(wavegrid, n) && Spectrum(sci, |wavegrid|, n)
    requires |waveMask| == |weights|
    ensures r.Some? <==> ArangeLength(params.rvMin, params.rvMax, params.rvStep) > 0
    ensures r.Some? ==>
              var dvgrid := Arange(params.rvMin, params.rvMax, params.rvStep);
              var spline := num.splineOf(Flatten(wavegrid, sci, KeepMask(wavegrid, sci, n), n));
              var ccf := Ccf(dvgrid, waveMask, weights, spline, num.doppler);
              (exists top :: FirstPeak(ccf, top) && seed == Seed(dvgrid, ccf, top, params.ewidthGuess, num.median)) &&
              r.value == (num.fit(dvgrid, ccf, seed).mean, num.fit(dvgrid, ccf, seed).ewidth)
    ensures r.Some? ==> CoarseFit(params, wavegrid, sci, n, waveMask, weights, num, r.value)
  {
    var mask := OverlapMask(wavegrid, sci, n);
    ghost var keep := KeepMask(wavegrid, sci, n);
    assert mask == keep by {
      forall o | 0 <= o < |mask| ensures mask[o] == keep[o] {
        assert forall i :: 0 <= i < n ==> mask[o][i] == keep[o][i];
      }
    }
    var spline := num.splineOf(Flatten(wavegrid, sci, mask, n));
    var dvgrid := Arange(params.rvMin, params.rvMax, params.rvStep);
    var ccfArray := CcfVector(dvgrid, waveMask, weights, spline, num.doppler);
    var ccf := ccfArray[..];
    assert ccf == Ccf(dvgrid, waveMask, weights, spline, num.doppler);
    if |ccf| == 0 {
      r, seed := None, Gauss(0.0, 0.0, 0.0, 0.0, 0.0);
      return;
    }
    var top := FirstArgMax(ccf);
    seed := Seed(dvgrid, ccf, top, params.ewidthGuess, num.median);
    assert FirstPeak(ccf, top);
    var coeffs := num.fit(dvgrid, ccf, seed);
    r := Some((coeffs.mean, coeffs.ewidth));
    assert spline == num.splineOf(Flatten(wavegrid, sci, KeepMask(wavegrid, sci, n), n));
    assert FirstPeak(ccf, top) && seed == Seed(dvgrid, ccf, top, params.ewidthGuess, num.median);
  }
}
