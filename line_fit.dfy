/** One line of one pass of `compute_rv`: the gating of the line, its pixel
    window and edge weights, and the quantities measured on it. */
module LineFit {
  import opened Missing
  import Bouchy

  /** One order's arrays at the current trial velocity: the shifted
      wavelength grid, the science spectrum, the template model and its
      three velocity derivatives, the blaze and the noise estimate. */
  datatype OrderData = OrderData(wave: seq<real>, sci: seq<Option<real>>, model: seq<Option<real>>,
                                 d1: seq<real>, d2: seq<real>, d3: seq<real>,
                                 blaze: seq<real>, rms: seq<Option<real>>)
  {
    ghost predicate WellShaped()
    {
      |sci| == |wave| && |model| == |wave| && |d1| == |wave| && |d2| == |wave| && |d3| == |wave| &&
      |blaze| == |wave| && |rms| == |wave|
    }
  }

  /** The line-level numerics outside the model: the start correction
      stored at index 0 (because of the chained assignment at line 747 of `lbl/science/general.py`,
      `wavediff` is `ww_ord[x_start]`, so as written this is
      `(ww_ord[x_start + 1] - wave_start) / ww_ord[x_start]`, not an overlap
      fraction), the non-finite end correction of a flat grid step (see
      `EndWeight`), `np.nanstd`, and the square root. */
  datatype LineNumerics = LineNumerics(startWeight: (seq<real>, int, real) -> real,
                                       endWeight: (seq<real>, int, real) -> real,
                                       nanstd: seq<Option<real>> -> Option<real>,
                                       sqrt: real -> real)

  /** What one measured line writes: its pixel window and weights, the
      MEANXPIX, MEANBLAZE, RMSRATIO, NPIXLINE and CHI2 columns, and the
      projections on the three derivatives. */
  datatype Measurement = Measurement(xStart: int, xEnd: int, weights: seq<real>,
                                     meanXpix: Option<real>, meanBlaze: real,
                                     first: Bouchy.LineShift, second: Bouchy.LineShift, third: Bouchy.LineShift,
                                     rmsRatio: Option<real>, npix: int, chi2: Option<real>)

  /** The keep flag after the line, and the measurement if one was made. */
  datatype Gate = Gate(keep: bool, outcome: Option<Measurement>)

  /** `1 - (ww_ord[x_end] - wave_end) / (ww_ord[x_end + 1] - ww_ord[x_end])`:
      the weight lost is the distance of `ww_ord[x_end]` beyond the line end,
      in units of the grid step. When the grid step is flat the source
      divides by zero and the weight is infinite or NaN, which a real weight
      cannot hold; that value is the parameter `endWeight`. */
  function EndWeight(wave: seq<real>, xe: nat, we: real, num: LineNumerics): (r: real)
    requires xe + 1 < |wave|
    ensures wave[xe + 1] != wave[xe] ==> (1.0 - r) * (wave[xe + 1] - wave[xe]) == wave[xe] - we
    ensures wave[xe] < wave[xe + 1] && we <= wave[xe] < we + (wave[xe + 1] - wave[xe]) ==> 0.0 < r <= 1.0
  {
    var step := wave[xe + 1] - wave[xe];
    if step == 0.0 then num.endWeight(wave, xe, we)
    else
      var lost := (wave[xe] - we) / step;
      assert lost * step == wave[xe] - we;
      1.0 - lost
  }

  /** `np.ones(x_end - x_start + 1)` with the two edge corrections, both of
      which write the first element. */
  function WeightMask(wave: seq<real>, xs: nat, xe: nat, ws: real, we: real, num: LineNumerics): (w: seq<real>)
    requires xs <= xe && xe + 1 < |wave|
    ensures |w| == xe - xs + 1
    ensures forall k :: 1 <= k < |w| ==> w[k] == 1.0
  {
    var ones := Fill(xe - xs + 1, 1.0);
    var afterStart := if wave[xs] < ws then ones[0 := num.startWeight(wave, xs, ws)] else ones;
    if wave[xe + 1] > we then afterStart[0 := EndWeight(wave, xe, we, num)] else afterStart
  }

  /** When the line overlaps its first pixel and its last pixel, the end
      correction replaces the start correction in the first weight, and the
      last weight keeps 1 whatever the end overlap. */
  lemma EndOverlapOverwritesFirstWeight(wave: seq<real>, xs: nat, xe: nat, ws: real, we: real, num: LineNumerics)
    requires xs <= xe && xe + 1 < |wave|
    ensures wave[xe + 1] > we ==> WeightMask(wave, xs, xe, ws, we, num)[0] == EndWeight(wave, xe, we, num)
    ensures wave[xe + 1] <= we && wave[xs] < ws ==> WeightMask(wave, xs, xe, ws, we, num)[0] == num.startWeight(wave, xs, ws)
    ensures wave[xe + 1] <= we && wave[xs] >= ws ==> WeightMask(wave, xs, xe, ws, we, num)[0] == 1.0
    ensures xs < xe ==> WeightMask(wave, xs, xe, ws, we, num)[xe - xs] == 1.0
  {
  }

  /** Σ w */
  function Sum(w: seq<real>): real
  {
    if |w| == 0 then 0.0 else w[0] + Sum(w[1..])
  }

  /** Σ w[k]·(xs + k) */
  function WeightedPixels(w: seq<real>, xs: int): real
  {
    if |w| == 0 then 0.0 else w[0] * xs as real + WeightedPixels(w[1..], xs + 1)
  }

  /** `nansum(weight_mask * xpix) / nansum(weight_mask)`: non-finite when the
      weights sum to zero. */
  function MeanXpix(w: seq<real>, xs: int): (m: Option<real>)
    ensures m.Some? <==> Sum(w) != 0.0
    ensures m.Some? ==> m.value * Sum(w) == WeightedPixels(w, xs)
  {
    if Sum(w) == 0.0 then None else Some(WeightedPixels(w, xs) / Sum(w))
  }

  lemma {:induction false} UniformSums(n: nat, xs: int)
    ensures Sum(Fill(n, 1.0)) == n as real
    ensures 2.0 * WeightedPixels(Fill(n, 1.0), xs) == n as real * (2 * xs + n - 1) as real
  {
    if n > 0 {
      assert Fill(n, 1.0)[1..] == Fill(n - 1, 1.0);
      UniformSums(n - 1, xs + 1);
    }
  }

  /** With every weight 1, the mean pixel of a line is the middle of its
      window. */
  lemma MeanXpixOfFullPixels(xs: int, xe: int)
    requires xs <= xe
    ensures MeanXpix(Fill(xe - xs + 1, 1.0), xs) == Some((xs + xe) as real / 2.0)
  {
    var n := xe - xs + 1;
    UniformSums(n, xs);
    var m := MeanXpix(Fill(n, 1.0), xs);
    assert m.value * n as real == WeightedPixels(Fill(n, 1.0), xs);
    assert m.value * n as real == n as real * (xs + xe) as real / 2.0;
    assert m.value == (xs + xe) as real / 2.0;
  }

  /** A model array over the window, times the weights. */
  function Segment(v: seq<real>, xs: nat, w: seq<real>): (s: seq<real>)
    requires xs + |w| <= |v|
    ensures |s| == |w| && forall k :: 0 <= k < |w| ==> s[k] == v[xs + k] * w[k]
  {
    seq(|w|, k requires 0 <= k < |w| => v[xs + k] * w[k])
  }

  /** `(sci_seg - model_seg) * weight_mask`: non-finite where either input is. */
  function DiffSegment(sci: seq<Option<real>>, model: seq<Option<real>>, xs: nat, w: seq<real>): (s: seq<Option<real>>)
    requires xs + |w| <= |sci| && |sci| == |model|
    ensures |s| == |w|
    ensures forall k :: 0 <= k < |w| ==> (s[k].Some? <==> sci[xs + k].Some? && model[xs + k].Some?)
  {
    seq(|w|, k requires 0 <= k < |w| =>
      if sci[xs + k].Some? && model[xs + k].Some? then Some((sci[xs + k].value - model[xs + k].value) * w[k]) else None)
  }

  /** The finite part of a vector, for `nansum(diff * v)`: a non-finite
      entry contributes nothing to the sum. */
  function Zeroed(s: seq<Option<real>>): (z: seq<real>)
    ensures |z| == |s| && forall k :: 0 <= k < |s| ==> z[k] == (if s[k].Some? then s[k].value else 0.0)
  {
    seq(|s|, k requires 0 <= k < |s| => if s[k].Some? then s[k].value else 0.0)
  }

  /** `nansum(rms_seg * weight_mask) / nansum(weight_mask)` */
  function MeanRms(rms: seq<Option<real>>, xs: nat, w: seq<real>): (m: Option<real>)
    requires xs + |w| <= |rms|
    ensures m.Some? <==> Sum(w) != 0.0
  {
    var sw := Sum(w);
    if sw == 0.0 then None
    else
      Some(NanSum(seq(|w|, k requires 0 <= k < |w| =>
             if rms[xs + k].Some? then Some(rms[xs + k].value * w[k]) else None)) / sw)
  }

  /** `nansum((diff_seg / mean_rms) ** 2)`. A missing mean rms makes every
      term NaN, so the sum is 0; a zero mean rms makes every non-zero
      residual infinite and every zero residual NaN. */
  function Chi2(diff: seq<Option<real>>, meanRms: Option<real>): (c: Option<real>)
    ensures meanRms.None? ==> c == Some(0.0)
    ensures meanRms.Some? && meanRms.value == 0.0 ==>
              (c.None? <==> exists k :: 0 <= k < |diff| && diff[k].Some? && diff[k].value != 0.0)
  {
    match meanRms
    case None => Some(0.0)
    case Some(r) =>
      if r == 0.0 then
        if exists k :: 0 <= k < |diff| && diff[k].Some? && diff[k].value != 0.0 then None else Some(0.0)
      else
        Some(NanSum(seq(|diff|, k requires 0 <= k < |diff| =>
               if diff[k].Some? then Some((diff[k].value / r) * (diff[k].value / r)) else None)))
  }

  lemma {:induction false} NanSumNonNegative(s: seq<Option<real>>)
    requires forall k :: 0 <= k < |s| && s[k].Some? ==> s[k].value >= 0.0
    ensures NanSum(s) >= 0.0
  {
    if |s| > 0 {
      NanSumNonNegative(s[1..]);
    }
  }

  /** A chi-square that is present is never negative. */
  lemma Chi2NonNegative(diff: seq<Option<real>>, meanRms: Option<real>)
    ensures Chi2(diff, meanRms).Some? ==> Chi2(diff, meanRms).value >= 0.0
  {
    if meanRms.Some? && meanRms.value != 0.0 {
      var r := meanRms.value;
      var terms := seq(|diff|, k requires 0 <= k < |diff| =>
                     if diff[k].Some? then Some((diff[k].value / r) * (diff[k].value / r)) else None);
      NanSumNonNegative(terms);
    }
  }

  /** `nanstd(diff_seg) / mean_rms` */
  function RmsRatio(diff: seq<Option<real>>, meanRms: Option<real>, nanstd: seq<Option<real>> -> Option<real>)
    : (r: Option<real>)
    ensures r.Some? <==> nanstd(diff).Some? && meanRms.Some? && meanRms.value != 0.0
  {
    var std := nanstd(diff);
    if std.Some? && meanRms.Some? && meanRms.value != 0.0 then Some(std.value / meanRms.value) else None
  }

  /** Everything measured on a line whose window `[xs, xe]` lies inside the
      order with one pixel to spare. */
  function Measure(od: OrderData, xs: nat, xe: nat, ws: real, we: real, num: LineNumerics): (m: Measurement)
    requires od.WellShaped() && xs <= xe && xe + 1 < |od.wave|
    ensures m.xStart == xs && m.xEnd == xe && m.npix == |m.weights| == xe - xs + 1
  {
    var w := WeightMask(od.wave, xs, xe, ws, we, num);
    var diff := DiffSegment(od.sci, od.model, xs, w);
    var meanRms := MeanRms(od.rms, xs, w);
    var z := Zeroed(diff);
    Measurement(xs, xe, w, MeanXpix(w, xs), od.blaze[(xs + xe) / 2],
                Bouchy.Line(Segment(od.d1, xs, w), z, meanRms, num.sqrt),
                Bouchy.Line(Segment(od.d2, xs, w), z, meanRms, num.sqrt),
                Bouchy.Line(Segment(od.d3, xs, w), z, meanRms, num.sqrt),
                RmsRatio(diff, meanRms, num.nanstd), |diff|, Chi2(diff, meanRms))
  }

  /** One line of one pass: `xsReal` and `xeReal` are the line's start and
      end wavelengths mapped to pixels. */
  function LineStep(iteration: nat, keep: bool, od: OrderData, ws: real, we: real, xsReal: real, xeReal: real,
                    minWidth: int, num: LineNumerics): (g: Gate)
    requires od.WellShaped() && xsReal <= xeReal
  {
    if iteration != 1 && !keep then Gate(keep, None)
    else
      var xs, xe := xsReal.Floor, Ceil(xeReal);
      var keep' := if xe - xs < minWidth then false else keep;
      if xs < 0 || xe > |od.wave| - 2 then Gate(keep', None)
      else Gate(keep', Some(Measure(od, xs, xe, ws, we, num)))
  }

  /** A line flagged bad is skipped untouched on every pass but the one with
      index 1, where the flag is not consulted: there the outcome is the
      same as for a line still flagged good. */
  lemma FlagIgnoredOnPassOne(iteration: nat, od: OrderData, ws: real, we: real, xsReal: real, xeReal: real,
                             minWidth: int, num: LineNumerics)
    requires od.WellShaped() && xsReal <= xeReal
    ensures iteration != 1 ==> LineStep(iteration, false, od, ws, we, xsReal, xeReal, minWidth, num) == Gate(false, None)
    ensures iteration == 1 ==>
              LineStep(iteration, false, od, ws, we, xsReal, xeReal, minWidth, num).outcome ==
              LineStep(iteration, true, od, ws, we, xsReal, xeReal, minWidth, num).outcome
  {
  }

  /** A line narrower than the minimum width loses its keep flag even when
      it is measured; otherwise the flag is left as it was. */
  lemma NarrowLinesLoseFlag(iteration: nat, keep: bool, od: OrderData, ws: real, we: real, xsReal: real, xeReal: real,
                            minWidth: int, num: LineNumerics)
    requires od.WellShaped() && xsReal <= xeReal
    requires iteration == 1 || keep
    ensures LineStep(iteration, keep, od, ws, we, xsReal, xeReal, minWidth, num).keep <==>
            keep && Ceil(xeReal) - xsReal.Floor >= minWidth
  {
  }

  /** A line is measured exactly when it is not skipped and its window,
      with one pixel beyond its end, lies inside the order. A measured line
      has a window inside `[0, N - 1]`, `x_end - x_start + 1` pixels and
      weights, of which only the first can differ from 1. */
  lemma MeasuredLineShape(iteration: nat, keep: bool, od: OrderData, ws: real, we: real, xsReal: real, xeReal: real,
                          minWidth: int, num: LineNumerics)
    requires od.WellShaped() && xsReal <= xeReal
    ensures LineStep(iteration, keep, od, ws, we, xsReal, xeReal, minWidth, num).outcome.Some? <==>
            (iteration == 1 || keep) && xsReal.Floor >= 0 && Ceil(xeReal) <= |od.wave| - 2
    ensures var o := LineStep(iteration, keep, od, ws, we, xsReal, xeReal, minWidth, num).outcome;
            o.Some? ==>
              o.value.xStart == xsReal.Floor && o.value.xEnd == Ceil(xeReal) &&
              0 <= o.value.xStart <= o.value.xEnd && o.value.xEnd + 1 <= |od.wave| - 1 &&
              |o.value.weights| == o.value.npix == o.value.xEnd - o.value.xStart + 1 &&
              (forall k :: 1 <= k < |o.value.weights| ==> o.value.weights[k] == 1.0)
  {
  }

  /** When the residual over a line is exactly `k` times the first
      derivative of the model, the first projection returns `k`. */
  lemma LineRecoversShift(od: OrderData, xs: nat, xe: nat, ws: real, we: real, num: LineNumerics, k: real)
    requires od.WellShaped() && xs <= xe && xe + 1 < |od.wave|
    requires forall x :: xs <= x <= xe ==>
               od.sci[x].Some? && od.model[x].Some? && od.sci[x].value - od.model[x].value == k * od.d1[x]
    requires Bouchy.SumSquares(Segment(od.d1, xs, WeightMask(od.wave, xs, xe, ws, we, num))) != 0.0
    ensures Measure(od, xs, xe, ws, we, num).first.value == Some(k)
  {
    var w := WeightMask(od.wave, xs, xe, ws, we, num);
    var v := Segment(od.d1, xs, w);
    ResidualIsScaled(od, xs, w, k);
    Bouchy.RecoversScale(k, v);
  }

  /** A residual of `k` times the first derivative over the window stays
      `k` times the weighted derivative once weighted. */
  lemma ResidualIsScaled(od: OrderData, xs: nat, w: seq<real>, k: real)
    requires od.WellShaped() && xs + |w| <= |od.wave|
    requires forall x :: xs <= x < xs + |w| ==>
               od.sci[x].Some? && od.model[x].Some? && od.sci[x].value - od.model[x].value == k * od.d1[x]
    ensures Zeroed(DiffSegment(od.sci, od.model, xs, w)) == Bouchy.Scale(k, Segment(od.d1, xs, w))
  {
    var z := Zeroed(DiffSegment(od.sci, od.model, xs, w));
    var scaled := Bouchy.Scale(k, Segment(od.d1, xs, w));
    forall j | 0 <= j < |w| ensures z[j] == scaled[j] {
      var d := od.d1[xs + j];
      assert od.sci[xs + j].value - od.model[xs + j].value == k * d;
      assert z[j] == (k * d) * w[j];
      assert scaled[j] == k * (d * w[j]);
    }
  }
}
