/** The reference line table (`make_ref_dict`, build path): pairs of
    consecutive mask lines that fall inside each spectral order. */
module RefTable {
  import opened Missing

  /** One entry of the line mask: centre wavelength `ll_mask_s` and weight `w_mask`. */
  datatype MaskLine = MaskLine(centre: real, weight: real)

  /** One row of the geometry columns ORDER, WAVE_START, WAVE_END,
      WEIGHT_LINE and XPIX. */
  datatype Line = Line(order: nat, waveStart: real, waveEnd: real, weight: real, xpix: real)

  /** The order's wavelength-to-pixel mapping (an interpolating spline of
      pixel index against the order's wavelengths) evaluated at a wavelength. */
  type PixelOf = (seq<real>, real) -> real

  ghost predicate Rectangular(wavegrid: seq<seq<real>>)
  {
    forall o :: 0 <= o < |wavegrid| ==> |wavegrid[o]| > 0
  }

  /** The mask lines whose centre lies strictly between `lo` and `hi`, in mask order. */
  function Inside(mask: seq<MaskLine>, lo: real, hi: real): (r: seq<MaskLine>)
    ensures |r| <= |mask|
    ensures forall k :: 0 <= k < |r| ==> lo < r[k].centre < hi && r[k] in mask
    ensures forall m :: m in mask && lo < m.centre < hi ==> m in r
  {
    if |mask| == 0 then []
    else
      var last := mask[|mask| - 1];
      assert mask == mask[..|mask| - 1] + [last];
      Inside(mask[..|mask| - 1], lo, hi) + (if lo < last.centre < hi then [last] else [])
  }

  /** `idx` lists, in increasing order and once each, exactly the positions
      of `mask` whose centre lies strictly between `lo` and `hi`. */
  ghost predicate InRangePositions(mask: seq<MaskLine>, lo: real, hi: real, idx: seq<nat>)
  {
    (forall k :: 0 <= k < |idx| ==> idx[k] < |mask| && lo < mask[idx[k]].centre < hi) &&
    (forall k, l :: 0 <= k < l < |idx| ==> idx[k] < idx[l]) &&
    (forall i :: 0 <= i < |mask| && lo < mask[i].centre < hi ==> exists k :: 0 <= k < |idx| && idx[k] == i)
  }

  /** The boolean index `ll_mask_s[good]` keeps the mask's order and
      multiplicity: the selection is the mask read at the in-range positions,
      in increasing order. */
  lemma {:induction false} InsideIsInRangeSubsequence(mask: seq<MaskLine>, lo: real, hi: real)
    ensures exists idx: seq<nat> :: InRangePositions(mask, lo, hi, idx) && |idx| == |Inside(mask, lo, hi)| &&
              forall k :: 0 <= k < |idx| ==> Inside(mask, lo, hi)[k] == mask[idx[k]]
  {
    if |mask| == 0 {
      var idx: seq<nat> := [];
      assert InRangePositions(mask, lo, hi, idx);
    } else {
      var last := |mask| - 1;
      var init := mask[..last];
      var r0 := Inside(init, lo, hi);
      InsideIsInRangeSubsequence(init, lo, hi);
      var idx0: seq<nat> :| InRangePositions(init, lo, hi, idx0) && |idx0| == |r0| &&
                            forall k :: 0 <= k < |idx0| ==> r0[k] == init[idx0[k]];
      var idx := ExtendPositions(mask, lo, hi, idx0, r0);
      assert Inside(mask, lo, hi) == r0 + (if lo < mask[last].centre < hi then [mask[last]] else []);
    }
  }

  /** One more mask entry: its position joins the list iff it is in range. */
  lemma ExtendPositions(mask: seq<MaskLine>, lo: real, hi: real, idx0: seq<nat>, r0: seq<MaskLine>)
    returns (idx: seq<nat>)
    requires |mask| > 0
    requires InRangePositions(mask[..|mask| - 1], lo, hi, idx0) && |idx0| == |r0|
    requires forall k :: 0 <= k < |idx0| ==> r0[k] == mask[..|mask| - 1][idx0[k]]
    ensures var r := r0 + (if lo < mask[|mask| - 1].centre < hi then [mask[|mask| - 1]] else []);
      InRangePositions(mask, lo, hi, idx) && |idx| == |r| && forall k :: 0 <= k < |idx| ==> r[k] == mask[idx[k]]
  {
    var last := |mask| - 1;
    var init := mask[..last];
    assert forall k :: 0 <= k < |idx0| ==> r0[k] == mask[idx0[k]] && lo < mask[idx0[k]].centre < hi;
    assert forall i :: 0 <= i < last ==> init[i] == mask[i];
    if lo < mask[last].centre < hi {
      idx := idx0 + [last];
      AppendedPosition(mask, lo, hi, idx0, r0);
    } else {
      idx := idx0;
      forall i | 0 <= i < |mask| && lo < mask[i].centre < hi
        ensures exists k :: 0 <= k < |idx| && idx[k] == i
      {
        assert i < last && init[i] == mask[i];
      }
    }
  }

  lemma AppendedPosition(mask: seq<MaskLine>, lo: real, hi: real, idx0: seq<nat>, r0: seq<MaskLine>)
    requires |mask| > 0 && lo < mask[|mask| - 1].centre < hi
    requires InRangePositions(mask[..|mask| - 1], lo, hi, idx0) && |idx0| == |r0|
    requires forall k :: 0 <= k < |idx0| ==> r0[k] == mask[idx0[k]]
    ensures var idx, r := idx0 + [|mask| - 1], r0 + [mask[|mask| - 1]];
      InRangePositions(mask, lo, hi, idx) && forall k :: 0 <= k < |idx| ==> r[k] == mask[idx[k]]
  {
    var last := |mask| - 1;
    var init := mask[..last];
    var idx := idx0 + [last];
    forall i | 0 <= i < |mask| && lo < mask[i].centre < hi
      ensures exists k :: 0 <= k < |idx| && idx[k] == i
    {
      if i < last {
        assert init[i] == mask[i];
        var k :| 0 <= k < |idx0| && idx0[k] == i;
        assert idx[k] == i;
      } else {
        assert idx[|idx0|] == i;
      }
    }
  }

  /** The mask lines that survive in order `o`. */
  function Survivors(wavegrid: seq<seq<real>>, mask: seq<MaskLine>, o: nat): seq<MaskLine>
    requires o < |wavegrid| && |wavegrid[o]| > 0
  {
    Inside(mask, MinOf(wavegrid[o]), MaxOf(wavegrid[o]))
  }

  /** The line of order `o` that starts at survivor `j` and ends at survivor `j + 1`. */
  function PairAt(o: nat, surv: seq<MaskLine>, wave: seq<real>, pixelOf: PixelOf, j: nat): Line
    requires j + 1 < |surv|
  {
    Line(o, surv[j].centre, surv[j + 1].centre, surv[j].weight, pixelOf(wave, surv[j].centre))
  }

  /** The lines contributed by one order: consecutive survivors paired up. */
  function OrderLines(o: nat, surv: seq<MaskLine>, wave: seq<real>, pixelOf: PixelOf): (ls: seq<Line>)
    ensures |ls| == if |surv| == 0 then 0 else |surv| - 1
    ensures forall j :: 0 <= j < |ls| ==> ls[j] == PairAt(o, surv, wave, pixelOf, j)
  {
    if |surv| == 0 then []
    else seq(|surv| - 1, j requires 0 <= j < |surv| - 1 => PairAt(o, surv, wave, pixelOf, j))
  }

  /** The survivors of every order. */
  function AllSurvivors(wavegrid: seq<seq<real>>, mask: seq<MaskLine>): (surv: seq<seq<MaskLine>>)
    requires Rectangular(wavegrid)
    ensures |surv| == |wavegrid| && forall o :: 0 <= o < |wavegrid| ==> surv[o] == Survivors(wavegrid, mask, o)
  {
    seq(|wavegrid|, o requires 0 <= o < |wavegrid| => Survivors(wavegrid, mask, o))
  }

  /** The table built from the first `k` orders, given each order's survivors. */
  function Assemble(wavegrid: seq<seq<real>>, surv: seq<seq<MaskLine>>, pixelOf: PixelOf, k: nat): seq<Line>
    requires |surv| == |wavegrid| && k <= |wavegrid|
  {
    if k == 0 then []
    else Assemble(wavegrid, surv, pixelOf, k - 1) + OrderLines(k - 1, surv[k - 1], wavegrid[k - 1], pixelOf)
  }

  /** The geometry rows of the reference table. */
  function BuildLines(wavegrid: seq<seq<real>>, mask: seq<MaskLine>, pixelOf: PixelOf): seq<Line>
    requires Rectangular(wavegrid)
  {
    Assemble(wavegrid, AllSurvivors(wavegrid, mask), pixelOf, |wavegrid|)
  }

  /** The build loop of `make_ref_dict`: per order, select the mask lines
      inside the order's wavelength range and append their pairs. */
  method BuildRows(wavegrid: seq<seq<real>>, mask: seq<MaskLine>, pixelOf: PixelOf) returns (lines: seq<Line>)
    requires Rectangular(wavegrid)
    ensures lines == BuildLines(wavegrid, mask, pixelOf)
  {
    ghost var surv := AllSurvivors(wavegrid, mask);
    lines := [];
    for o := 0 to |wavegrid|
      invariant lines == Assemble(wavegrid, surv, pixelOf, o)
    {
      var good := Select(mask, MinOf(wavegrid[o]), MaxOf(wavegrid[o]));
      assert good == surv[o];
      lines := AppendPairs(lines, o, good, wavegrid[o], pixelOf);
    }
  }

  /** One order's appends: ORDER gets `o` repeated, WAVE_START and WEIGHT_LINE
      the survivors but the last, WAVE_END the survivors but the first, XPIX
      the pixel positions of the starts. */
  method AppendPairs(lines: seq<Line>, o: nat, good: seq<MaskLine>, wave: seq<real>, pixelOf: PixelOf)
    returns (extended: seq<Line>)
    ensures extended == lines + OrderLines(o, good, wave, pixelOf)
  {
    extended := lines;
    if |good| > 0 {
      ghost var block := OrderLines(o, good, wave, pixelOf);
      for j := 0 to |good| - 1
        invariant extended == lines + block[..j]
      {
        assert block[..j + 1] == block[..j] + [block[j]];
        extended := extended + [Line(o, good[j].centre, good[j + 1].centre, good[j].weight, pixelOf(wave, good[j].centre))];
      }
      assert block[..|block|] == block;
    } else {
      assert lines + [] == lines;
    }
  }

  /** The boolean selection `lo < ll_mask_s < hi` applied to the mask. */
  method Select(mask: seq<MaskLine>, lo: real, hi: real) returns (good: seq<MaskLine>)
    ensures good == Inside(mask, lo, hi)
  {
    good := [];
    for j := 0 to |mask|
      invariant good == Inside(mask[..j], lo, hi)
    {
      assert mask[..j + 1] == mask[..j] + [mask[j]];
      if lo < mask[j].centre && mask[j].centre < hi {
        good := good + [mask[j]];
      }
    }
    assert mask[..|mask|] == mask;
  }

  /** Number of lines tagged with order `o`. */
  function CountOrder(lines: seq<Line>, o: nat): nat
  {
    if |lines| == 0 then 0 else (if lines[0].order == o then 1 else 0) + CountOrder(lines[1..], o)
  }

  lemma {:induction false} CountOrderAppend(a: seq<Line>, b: seq<Line>, o: nat)
    ensures CountOrder(a + b, o) == CountOrder(a, o) + CountOrder(b, o)
  {
    if |a| > 0 {
      assert (a + b)[0] == a[0];
      assert (a + b)[1..] == a[1..] + b;
      CountOrderAppend(a[1..], b, o);
    } else {
      assert a + b == b;
    }
  }

  lemma {:induction false} CountUniform(ls: seq<Line>, k: nat, o: nat)
    requires forall j :: 0 <= j < |ls| ==> ls[j].order == k
    ensures CountOrder(ls, o) == if k == o then |ls| else 0
  {
    if |ls| > 0 {
      CountUniform(ls[1..], k, o);
    }
  }

  /** Each order contributes max(n - 1, 0) lines, n being the number of mask
      centres strictly inside its wavelength range. */
  lemma {:induction false} LinesPerOrder(wavegrid: seq<seq<real>>, surv: seq<seq<MaskLine>>, pixelOf: PixelOf, k: nat, o: nat)
    requires |surv| == |wavegrid| && k <= |wavegrid|
    ensures CountOrder(Assemble(wavegrid, surv, pixelOf, k), o) ==
            if o < k && |surv[o]| > 0 then |surv[o]| - 1 else 0
  {
    if k > 0 {
      var prev := Assemble(wavegrid, surv, pixelOf, k - 1);
      var block := OrderLines(k - 1, surv[k - 1], wavegrid[k - 1], pixelOf);
      assert Assemble(wavegrid, surv, pixelOf, k) == prev + block;
      LinesPerOrder(wavegrid, surv, pixelOf, k - 1, o);
      CountOrderAppend(prev, block, o);
      assert forall j :: 0 <= j < |block| ==> block[j].order == k - 1;
      CountUniform(block, k - 1, o);
      assert |block| == if |surv[k - 1]| == 0 then 0 else |surv[k - 1]| - 1;
      if o == k - 1 {
        assert CountOrder(prev, o) == 0;
      } else {
        assert CountOrder(block, o) == 0;
      }
    }
  }

  ghost predicate OrdersBelow(lines: seq<Line>, k: nat)
  {
    forall i :: 0 <= i < |lines| ==> lines[i].order < k
  }

  ghost predicate NonDecreasing(lines: seq<Line>)
  {
    forall i, j :: 0 <= i <= j < |lines| ==> lines[i].order <= lines[j].order
  }

  ghost predicate SharedEnds(lines: seq<Line>)
  {
    forall i :: 0 <= i < |lines| - 1 && lines[i].order == lines[i + 1].order ==> lines[i].waveEnd == lines[i + 1].waveStart
  }

  /** Line `l` is the pair (j, j+1) of its order's survivors. */
  ghost predicate PairOfSurvivors(wavegrid: seq<seq<real>>, surv: seq<seq<MaskLine>>, pixelOf: PixelOf, l: Line)
    requires |surv| == |wavegrid|
  {
    l.order < |wavegrid| &&
    exists j :: 0 <= j < |surv[l.order]| - 1 && l == PairAt(l.order, surv[l.order], wavegrid[l.order], pixelOf, j)
  }

  /** ORDER is non-decreasing and every tag is an order of the wave grid. */
  lemma {:induction false} OrdersSorted(wavegrid: seq<seq<real>>, surv: seq<seq<MaskLine>>, pixelOf: PixelOf, k: nat)
    requires |surv| == |wavegrid| && k <= |wavegrid|
    ensures OrdersBelow(Assemble(wavegrid, surv, pixelOf, k), k)
    ensures NonDecreasing(Assemble(wavegrid, surv, pixelOf, k))
  {
    if k > 0 {
      var prev := Assemble(wavegrid, surv, pixelOf, k - 1);
      var block := OrderLines(k - 1, surv[k - 1], wavegrid[k - 1], pixelOf);
      var g := prev + block;
      var p := |prev|;
      OrdersSorted(wavegrid, surv, pixelOf, k - 1);
      assert forall i :: 0 <= i < |g| ==> g[i].order == if i < p then prev[i].order else k - 1;
      forall i, j | 0 <= i <= j < |g| ensures g[i].order <= g[j].order {
        if j < p {
          assert prev[i].order <= prev[j].order;
        } else if i < p {
          assert prev[i].order < k - 1;
        }
      }
    }
  }

  /** Within one order, each line ends where the next one starts. */
  lemma {:induction false} ConsecutiveLinesShareEnds(wavegrid: seq<seq<real>>, surv: seq<seq<MaskLine>>, pixelOf: PixelOf, k: nat)
    requires |surv| == |wavegrid| && k <= |wavegrid|
    ensures SharedEnds(Assemble(wavegrid, surv, pixelOf, k))
  {
    if k > 0 {
      var prev := Assemble(wavegrid, surv, pixelOf, k - 1);
      var block := OrderLines(k - 1, surv[k - 1], wavegrid[k - 1], pixelOf);
      var g := prev + block;
      var p := |prev|;
      ConsecutiveLinesShareEnds(wavegrid, surv, pixelOf, k - 1);
      OrdersSorted(wavegrid, surv, pixelOf, k - 1);
      forall i | 0 <= i < |g| - 1 && g[i].order == g[i + 1].order
        ensures g[i].waveEnd == g[i + 1].waveStart
      {
        if i + 1 < p {
          assert g[i] == prev[i] && g[i + 1] == prev[i + 1];
        } else if i + 1 == p {
          assert false;
        } else {
          assert g[i] == block[i - p] && g[i + 1] == block[i + 1 - p];
        }
      }
    }
  }

  /** Every line is the pair (j, j+1) of its order's survivors: WAVE_START and
      WEIGHT_LINE come from the first of the pair, WAVE_END from the second,
      XPIX is the first centre mapped to pixels. */
  lemma {:induction false} LinesArePairsOfSurvivors(wavegrid: seq<seq<real>>, surv: seq<seq<MaskLine>>, pixelOf: PixelOf, k: nat)
    requires |surv| == |wavegrid| && k <= |wavegrid|
    ensures forall i :: 0 <= i < |Assemble(wavegrid, surv, pixelOf, k)| ==>
              PairOfSurvivors(wavegrid, surv, pixelOf, Assemble(wavegrid, surv, pixelOf, k)[i])
  {
    if k > 0 {
      var prev := Assemble(wavegrid, surv, pixelOf, k - 1);
      var block := OrderLines(k - 1, surv[k - 1], wavegrid[k - 1], pixelOf);
      var g := prev + block;
      var p := |prev|;
      LinesArePairsOfSurvivors(wavegrid, surv, pixelOf, k - 1);
      forall i | 0 <= i < |g| ensures PairOfSurvivors(wavegrid, surv, pixelOf, g[i]) {
        if i < p {
          assert g[i] == prev[i];
        } else {
          assert g[i] == PairAt(k - 1, surv[k - 1], wavegrid[k - 1], pixelOf, i - p);
        }
      }
    }
  }

  /** The built table: per-order line counts, sorted orders and shared ends. */
  lemma BuiltTableShape(wavegrid: seq<seq<real>>, mask: seq<MaskLine>, pixelOf: PixelOf, o: nat)
    requires Rectangular(wavegrid)
    ensures CountOrder(BuildLines(wavegrid, mask, pixelOf), o) ==
            if o < |wavegrid| && |Survivors(wavegrid, mask, o)| > 0 then |Survivors(wavegrid, mask, o)| - 1 else 0
    ensures OrdersBelow(BuildLines(wavegrid, mask, pixelOf), |wavegrid|)
    ensures NonDecreasing(BuildLines(wavegrid, mask, pixelOf))
    ensures SharedEnds(BuildLines(wavegrid, mask, pixelOf))
  {
    var all := AllSurvivors(wavegrid, mask);
    LinesPerOrder(wavegrid, all, pixelOf, |wavegrid|, o);
    OrdersSorted(wavegrid, all, pixelOf, |wavegrid|);
    ConsecutiveLinesShareEnds(wavegrid, all, pixelOf, |wavegrid|);
  }

  /** Both ends of every line lie strictly inside its order's wavelength range. */
  lemma LinesInsideTheirOrder(wavegrid: seq<seq<real>>, mask: seq<MaskLine>, pixelOf: PixelOf, i: nat)
    requires Rectangular(wavegrid) && i < |BuildLines(wavegrid, mask, pixelOf)|
    ensures BuildLines(wavegrid, mask, pixelOf)[i].order < |wavegrid|
    ensures MinOf(wavegrid[BuildLines(wavegrid, mask, pixelOf)[i].order]) < BuildLines(wavegrid, mask, pixelOf)[i].waveStart
              < MaxOf(wavegrid[BuildLines(wavegrid, mask, pixelOf)[i].order])
    ensures MinOf(wavegrid[BuildLines(wavegrid, mask, pixelOf)[i].order]) < BuildLines(wavegrid, mask, pixelOf)[i].waveEnd
              < MaxOf(wavegrid[BuildLines(wavegrid, mask, pixelOf)[i].order])
  {
    var l := BuildLines(wavegrid, mask, pixelOf)[i];
    var all := AllSurvivors(wavegrid, mask);
    LinesArePairsOfSurvivors(wavegrid, all, pixelOf, |wavegrid|);
    assert PairOfSurvivors(wavegrid, all, pixelOf, l);
    var surv := all[l.order];
    var j :| 0 <= j < |surv| - 1 && l == PairAt(l.order, surv, wavegrid[l.order], pixelOf, j);
  }

  ghost predicate StrictlyIncreasing(mask: seq<MaskLine>)
  {
    forall i, j :: 0 <= i < j < |mask| ==> mask[i].centre < mask[j].centre
  }

  lemma {:induction false} InsideKeepsIncreasing(mask: seq<MaskLine>, lo: real, hi: real)
    requires StrictlyIncreasing(mask)
    ensures StrictlyIncreasing(Inside(mask, lo, hi))
  {
    if |mask| > 0 {
      var init := mask[..|mask| - 1];
      InsideKeepsIncreasing(init, lo, hi);
      var r := Inside(init, lo, hi);
      forall k | 0 <= k < |r| ensures r[k].centre < mask[|mask| - 1].centre {
        var p :| 0 <= p < |init| && init[p] == r[k];
      }
    }
  }

  /** With a mask sorted by wavelength, every line starts before it ends. */
  lemma LinesHavePositiveWidth(wavegrid: seq<seq<real>>, mask: seq<MaskLine>, pixelOf: PixelOf, i: nat)
    requires Rectangular(wavegrid) && StrictlyIncreasing(mask) && i < |BuildLines(wavegrid, mask, pixelOf)|
    ensures BuildLines(wavegrid, mask, pixelOf)[i].waveStart < BuildLines(wavegrid, mask, pixelOf)[i].waveEnd
  {
    var l := BuildLines(wavegrid, mask, pixelOf)[i];
    var all := AllSurvivors(wavegrid, mask);
    LinesArePairsOfSurvivors(wavegrid, all, pixelOf, |wavegrid|);
    assert PairOfSurvivors(wavegrid, all, pixelOf, l);
    var surv := all[l.order];
    InsideKeepsIncreasing(mask, MinOf(wavegrid[l.order]), MaxOf(wavegrid[l.order]));
    var j :| 0 <= j < |surv| - 1 && l == PairAt(l.order, surv, wavegrid[l.order], pixelOf, j);
  }

  /** The table as a mutable record: the geometry rows fixed at build time,
      and the diagnostic columns rewritten by each velocity fit. */
  class ReferenceTable {
    var lines: seq<Line>
    var rmsRatio: seq<Option<real>>
    var npixLine: seq<int>
    var meanXpix: seq<Option<real>>
    var meanBlaze: seq<real>
    var ampContinuum: seq<real>
    var chi2: seq<Option<real>>
    var chi2ValidCdf: seq<Option<real>>
    // columns added by the velocity fit
    var rv: seq<Option<real>>
    var dvrms: seq<Option<real>>
    var ddv: seq<Option<real>>
    var ddvrms: seq<Option<real>>
    var dddv: seq<Option<real>>
    var dddvrms: seq<Option<real>>

    ghost predicate Valid()
      reads this
    {
      var n := |lines|;
      |rmsRatio| == n && |npixLine| == n && |meanXpix| == n && |meanBlaze| == n &&
      |ampContinuum| == n && |chi2| == n && |chi2ValidCdf| == n
    }

    /** The build path of `make_ref_dict`. */
    constructor Build(wavegrid: seq<seq<real>>, mask: seq<MaskLine>, pixelOf: PixelOf)
      requires Rectangular(wavegrid)
      ensures Valid() && lines == BuildLines(wavegrid, mask, pixelOf)
      ensures rmsRatio == Fill(|lines|, Some(0.0)) && npixLine == Fill(|lines|, 0) &&
              meanXpix == Fill(|lines|, Some(0.0)) && meanBlaze == Fill(|lines|, 0.0) &&
              ampContinuum == Fill(|lines|, 0.0) && chi2 == Fill(|lines|, Some(0.0)) &&
              chi2ValidCdf == Fill(|lines|, Some(0.0))
      ensures rv == [] && dvrms == [] && ddv == [] && ddvrms == [] && dddv == [] && dddvrms == []
    {
      var built := BuildRows(wavegrid, mask, pixelOf);
      var n := |built|;
      lines := built;
      rmsRatio, npixLine, meanXpix := Fill(n, Some(0.0)), Fill(n, 0), Fill(n, Some(0.0));
      meanBlaze, ampContinuum := Fill(n, 0.0), Fill(n, 0.0);
      chi2, chi2ValidCdf := Fill(n, Some(0.0)), Fill(n, Some(0.0));
      rv, dvrms, ddv, ddvrms, dddv, dddvrms := [], [], [], [], [], [];
    }
  }
}
