/** `compute_rv`: the line-by-line velocity of one science exposure. The
    spectrum is high-passed, a first systemic velocity is chosen, and then
    each pass re-shifts the template, measures every line by the Bouchy
    projection and moves the systemic velocity by the robust mean of the
    line velocities, until the move is small against its error. */
module ComputeRv {
  import opened Missing
  import VeloScale
  import RefTable
  import NoiseModel
  import RoughCcf
  import LineFit
  import Bootstrap

  /** The instrument parameters `compute_rv` reads. */
  datatype Params = Params(useNoiseModel: bool, hpWidthKms: real, objectScience: string, nIters: nat,
                           minLineWidth: int, nsigThreshold: real, convergeThres: real, maxGoodIters: int,
                           ccf: RoughCcf.CcfParams)

  /** The template at one trial velocity, per order: the wavelength grid
      shifted by minus that velocity, the scaled model (missing where the
      spline mask is below 0.99) and its three velocity derivatives. */
  datatype Models = Models(wave: seq<seq<real>>, model: seq<seq<Option<real>>>,
                           d1: seq<seq<real>>, d2: seq<seq<real>>, d3: seq<seq<real>>)

  /** The numerics that live outside this model: the pixel velocity step of a
      wavelength row, the low-pass filter, the template splines with their
      scaling (`get_scaling_ratio`), the wavelength-to-pixel spline of each
      order at a trial velocity, `estimate_sigma` on residual boxes and on the
      sigma ratios, `odd_ratio_mean`, the chi-square survival function, and
      those of the line measurement and of the coarse CCF. */
  datatype Numerics = Numerics(
    dveloOf: seq<real> -> real,
    lowpass: (seq<real>, int) -> seq<real>,
    models: (seq<seq<Option<real>>>, real) -> Models,
    wave2pix: (real, nat, real) -> real,
    sigmaOf: NoiseModel.SigmaOf,
    estimateSigma: seq<real> -> Option<real>,
    oddRatioMean: (seq<Option<real>>, seq<Option<real>>) -> (real, real),
    chi2Valid: (Option<real>, int) -> Option<real>,
    line: LineFit.LineNumerics,
    ccf: RoughCcf.CcfNumerics)

  /** Box half-width of the noise estimate (`npoints` of `estimate_noise_model`). */
  const NoisePoints: nat := 100

  ghost predicate Rows<T>(rows: seq<seq<T>>, orders: nat, n: nat)
  {
    |rows| == orders && forall o :: 0 <= o < orders ==> |rows[o]| == n
  }

  ghost predicate ModelsShaped(m: Models, orders: nat, n: nat)
  {
    Rows(m.wave, orders, n) && Rows(m.model, orders, n) && Rows(m.d1, orders, n) && Rows(m.d2, orders, n) &&
    Rows(m.d3, orders, n)
  }

  /** What the external numerics are assumed to do: the filter keeps the
      length of its row, the template has the spectrum's shape at every
      velocity, and the wavelength-to-pixel mapping is non-decreasing. */
  ghost predicate Sane(num: Numerics, orders: nat, n: nat)
  {
    (forall w, width :: |num.lowpass(w, width)| == |w|) &&
    (forall s, v :: ModelsShaped(num.models(s, v), orders, n)) &&
    Monotone(num.wave2pix)
  }

  ghost predicate Monotone(wave2pix: (real, nat, real) -> real)
  {
    forall v, o, a, b :: a <= b ==> wave2pix(v, o, a) <= wave2pix(v, o, b)
  }

  // ---------------------------------------------------------------------
  // High-pass of the science spectrum
  // ---------------------------------------------------------------------

  /** Every order has a non-zero pixel velocity step, so that its filter
      width is defined. */
  ghost predicate WidthsDefined(wavegrid: seq<seq<real>>, num: Numerics)
  {
    forall o :: 0 <= o < |wavegrid| ==> num.dveloOf(wavegrid[o]) != 0.0
  }

  /** `sci_data[order_num] -= mp.lowpassfilter(wavegrid[order_num], width)`
      for every order, with `width` from `get_velo_scale`. The filter is
      applied to the wavelength row, as written. */
  function HighPassed(wavegrid: seq<seq<real>>, sci: seq<seq<Option<real>>>, n: nat, hpWidth: real,
                      num: Numerics): (hp: seq<seq<Option<real>>>)
    requires Rows(wavegrid, |wavegrid|, n) && Rows(sci, |wavegrid|, n) && Sane(num, |wavegrid|, n)
    requires WidthsDefined(wavegrid, num)
    ensures Rows(hp, |wavegrid|, n)
    ensures forall o, i :: 0 <= o < |hp| && 0 <= i < n ==> (hp[o][i].Some? <==> sci[o][i].Some?)
  {
    seq(|wavegrid|, o requires 0 <= o < |wavegrid| =>
      Subtract(sci[o], num.lowpass(wavegrid[o], VeloScale.GetVeloScale(hpWidth, num.dveloOf(wavegrid[o])).value)))
  }

  /** Elementwise `row - low`; a missing value stays missing. */
  function Subtract(row: seq<Option<real>>, low: seq<real>): (r: seq<Option<real>>)
    requires |low| == |row|
    ensures |r| == |row|
    ensures forall i :: 0 <= i < |row| ==> (r[i].Some? <==> row[i].Some?)
  {
    seq(|row|, i requires 0 <= i < |row| => AddTo(row[i], -low[i]))
  }

  /** The per-order loop of the high-pass; `None` when some order's width
      is undefined (where `int()` of a non-finite quotient raises). */
  method HighPass(wavegrid: seq<seq<real>>, sci: seq<seq<Option<real>>>, n: nat, hpWidth: real, num: Numerics)
    returns (hp: Option<seq<seq<Option<real>>>>)
    requires Rows(wavegrid, |wavegrid|, n) && Rows(sci, |wavegrid|, n) && Sane(num, |wavegrid|, n)
    ensures hp.Some? <==> WidthsDefined(wavegrid, num)
    ensures hp.Some? ==> hp.value == HighPassed(wavegrid, sci, n, hpWidth, num)
  {
    var rows := sci;
    for o := 0 to |wavegrid|
      invariant |rows| == |sci|
      invariant forall q :: 0 <= q < o ==> num.dveloOf(wavegrid[q]) != 0.0
      invariant forall q :: 0 <= q < o ==>
                  rows[q] == Subtract(sci[q], num.lowpass(wavegrid[q], VeloScale.GetVeloScale(hpWidth, num.dveloOf(wavegrid[q])).value))
      invariant forall q :: o <= q < |sci| ==> rows[q] == sci[q]
    {
      var width := VeloScale.GetVeloScale(hpWidth, num.dveloOf(wavegrid[o]));
      if width.None? {
        return None;
      }
      rows := rows[o := Subtract(rows[o], num.lowpass(wavegrid[o], width.value))];
    }
    hp := Some(rows);
    assert forall q :: 0 <= q < |rows| ==> rows[q] == HighPassed(wavegrid, sci, n, hpWidth, num)[q];
  }

  // ---------------------------------------------------------------------
  // One pass over the lines
  // ---------------------------------------------------------------------

  /** The per-line arrays of the fit: `mask_keep`, `dv`, `dvrms`, `ddv` and
      `ddvrms`. */
  datatype Fit = Fit(keep: seq<bool>, dv: seq<Option<real>>, dvrms: seq<Option<real>>,
                     ddv: seq<Option<real>>, ddvrms: seq<Option<real>>)

  /** The table columns each pass writes: MEANXPIX, MEANBLAZE, RMSRATIO,
      NPIXLINE and CHI2. */
  datatype Record = Record(meanXpix: seq<Option<real>>, meanBlaze: seq<real>, rmsRatio: seq<Option<real>>,
                           npix: seq<int>, chi2: seq<Option<real>>)

  ghost predicate FitShaped(f: Fit, n: nat)
  {
    |f.keep| == n && |f.dv| == n && |f.dvrms| == n && |f.ddv| == n && |f.ddvrms| == n
  }

  ghost predicate RecordShaped(r: Record, n: nat)
  {
    |r.meanXpix| == n && |r.meanBlaze| == n && |r.rmsRatio| == n && |r.npix| == n && |r.chi2| == n
  }

  function RecordOf(t: RefTable.ReferenceTable): Record
    reads t
  {
    Record(t.meanXpix, t.meanBlaze, t.rmsRatio, t.npixLine, t.chi2)
  }

  /** Every line names an order whose arrays are consistent, and starts no
      later than it ends. */
  ghost predicate Readable(lines: seq<RefTable.Line>, data: seq<LineFit.OrderData>)
  {
    forall i :: 0 <= i < |lines| ==>
      lines[i].order < |data| && data[lines[i].order].WellShaped() && lines[i].waveStart <= lines[i].waveEnd
  }

  /** Line `line` of pass `iteration` at trial velocity `sysRv`, with its
      keep flag from the start of the pass. */
  function GateOf(iteration: nat, keep: bool, data: seq<LineFit.OrderData>, line: RefTable.Line, sysRv: real,
                  minWidth: int, num: Numerics): LineFit.Gate
    requires line.order < |data| && data[line.order].WellShaped() && line.waveStart <= line.waveEnd
    requires Monotone(num.wave2pix)
  {
    LineFit.LineStep(iteration, keep, data[line.order], line.waveStart, line.waveEnd,
                     num.wave2pix(sysRv, line.order, line.waveStart), num.wave2pix(sysRv, line.order, line.waveEnd),
                     minWidth, num.line)
  }

  /** The outcome of every line of a pass. */
  function Gates(iteration: nat, fit: Fit, data: seq<LineFit.OrderData>, lines: seq<RefTable.Line>, sysRv: real,
                 minWidth: int, num: Numerics): (g: seq<LineFit.Gate>)
    requires |fit.keep| == |lines| && Readable(lines, data) && Monotone(num.wave2pix)
    ensures |g| == |lines|
  {
    seq(|lines|, i requires 0 <= i < |lines| => GateOf(iteration, fit.keep[i], data, lines[i], sysRv, minWidth, num))
  }

  /** A column after the first `upto` lines of a pass: each measured line's
      entry replaced by the value `pick` reads from its measurement. */
  function Upto<T>(col: seq<T>, g: seq<LineFit.Gate>, pick: LineFit.Measurement -> T, upto: nat): (r: seq<T>)
    requires |g| == |col|
    ensures |r| == |col|
  {
    seq(|col|, j requires 0 <= j < |col| =>
      if j < upto && g[j].outcome.Some? then pick(g[j].outcome.value) else col[j])
  }

  /** The keep flags after the first `upto` lines. */
  function KeepUpto(keep: seq<bool>, g: seq<LineFit.Gate>, upto: nat): (r: seq<bool>)
    requires |g| == |keep|
    ensures |r| == |keep|
  {
    seq(|keep|, j requires 0 <= j < |keep| => if j < upto then g[j].keep else keep[j])
  }

  function DvOf(m: LineFit.Measurement): Option<real> { m.first.value }
  function DvrmsOf(m: LineFit.Measurement): Option<real> { m.first.error }
  // the third projection is written over the second one
  function DdvOf(m: LineFit.Measurement): Option<real> { m.third.value }
  function DdvrmsOf(m: LineFit.Measurement): Option<real> { m.third.error }
  function XpixOf(m: LineFit.Measurement): Option<real> { m.meanXpix }
  function BlazeOf(m: LineFit.Measurement): real { m.meanBlaze }
  function RatioOf(m: LineFit.Measurement): Option<real> { m.rmsRatio }
  function NpixOf(m: LineFit.Measurement): int { m.npix }
  function Chi2Of(m: LineFit.Measurement): Option<real> { m.chi2 }

  /** The fit arrays after the first `upto` lines of a pass. */
  function FitUpto(fit: Fit, g: seq<LineFit.Gate>, upto: nat): (f: Fit)
    requires FitShaped(fit, |g|)
    ensures FitShaped(f, |g|)
  {
    Fit(KeepUpto(fit.keep, g, upto), Upto(fit.dv, g, DvOf, upto), Upto(fit.dvrms, g, DvrmsOf, upto),
        Upto(fit.ddv, g, DdvOf, upto), Upto(fit.ddvrms, g, DdvrmsOf, upto))
  }

  /** The table columns after the first `upto` lines of a pass. */
  function RecordUpto(rec: Record, g: seq<LineFit.Gate>, upto: nat): (r: Record)
    requires RecordShaped(rec, |g|)
    ensures RecordShaped(r, |g|)
  {
    Record(Upto(rec.meanXpix, g, XpixOf, upto), Upto(rec.meanBlaze, g, BlazeOf, upto),
           Upto(rec.rmsRatio, g, RatioOf, upto), Upto(rec.npix, g, NpixOf, upto), Upto(rec.chi2, g, Chi2Of, upto))
  }

  function FitAfter(fit: Fit, g: seq<LineFit.Gate>): (f: Fit)
    requires FitShaped(fit, |g|)
    ensures FitShaped(f, |g|)
  {
    FitUpto(fit, g, |g|)
  }

  function RecordAfter(rec: Record, g: seq<LineFit.Gate>): (r: Record)
    requires RecordShaped(rec, |g|)
    ensures RecordShaped(r, |g|)
  {
    RecordUpto(rec, g, |g|)
  }

  lemma UptoStep<T>(col: seq<T>, g: seq<LineFit.Gate>, pick: LineFit.Measurement -> T, i: nat)
    requires |g| == |col| && i < |col|
    ensures Upto(col, g, pick, i + 1) ==
            if g[i].outcome.Some? then Upto(col, g, pick, i)[i := pick(g[i].outcome.value)] else Upto(col, g, pick, i)
  {
    var a, b := Upto(col, g, pick, i + 1), Upto(col, g, pick, i);
    if g[i].outcome.Some? {
      assert forall j :: 0 <= j < |col| ==> a[j] == b[i := pick(g[i].outcome.value)][j];
    } else {
      assert forall j :: 0 <= j < |col| ==> a[j] == b[j];
    }
  }

  lemma FitUptoStep(fit: Fit, g: seq<LineFit.Gate>, i: nat)
    requires FitShaped(fit, |g|) && i < |g|
    ensures var f, h := FitUpto(fit, g, i + 1), FitUpto(fit, g, i);
            f.keep == h.keep[i := g[i].keep] &&
            if g[i].outcome.Some? then
              var m := g[i].outcome.value;
              f.dv == h.dv[i := m.first.value] && f.dvrms == h.dvrms[i := m.first.error] &&
              f.ddv == h.ddv[i := m.third.value] && f.ddvrms == h.ddvrms[i := m.third.error]
            else f.dv == h.dv && f.dvrms == h.dvrms && f.ddv == h.ddv && f.ddvrms == h.ddvrms
  {
    var a, b := KeepUpto(fit.keep, g, i + 1), KeepUpto(fit.keep, g, i);
    assert forall j :: 0 <= j < |g| ==> a[j] == b[i := g[i].keep][j];
    UptoStep(fit.dv, g, DvOf, i);
    UptoStep(fit.dvrms, g, DvrmsOf, i);
    UptoStep(fit.ddv, g, DdvOf, i);
    UptoStep(fit.ddvrms, g, DdvrmsOf, i);
  }

  lemma RecordUptoStep(rec: Record, g: seq<LineFit.Gate>, i: nat)
    requires RecordShaped(rec, |g|) && i < |g|
    ensures var r, h := RecordUpto(rec, g, i + 1), RecordUpto(rec, g, i);
            if g[i].outcome.Some? then
              var m := g[i].outcome.value;
              r == Record(h.meanXpix[i := m.meanXpix], h.meanBlaze[i := m.meanBlaze], h.rmsRatio[i := m.rmsRatio],
                          h.npix[i := m.npix], h.chi2[i := m.chi2])
            else r == h
  {
    UptoStep(rec.meanXpix, g, XpixOf, i);
    UptoStep(rec.meanBlaze, g, BlazeOf, i);
    UptoStep(rec.rmsRatio, g, RatioOf, i);
    UptoStep(rec.npix, g, NpixOf, i);
    UptoStep(rec.chi2, g, Chi2Of, i);
  }

  /** The columns of the table that a pass does not write. */
  ghost predicate Untouched(t: RefTable.ReferenceTable, lines: seq<RefTable.Line>, amp: seq<real>, cdf: seq<Option<real>>,
                            fitCols: seq<seq<Option<real>>>)
    reads t
  {
    t.lines == lines && t.ampContinuum == amp && t.chi2ValidCdf == cdf &&
    [t.rv, t.dvrms, t.ddv, t.ddvrms, t.dddv, t.dddvrms] == fitCols
  }

  /** Writes the table columns of one measured line. */
  method Store(table: RefTable.ReferenceTable, i: nat, m: LineFit.Measurement)
    requires table.Valid() && i < |table.lines|
    modifies table
    ensures table.Valid()
    ensures Untouched(table, old(table.lines), old(table.ampContinuum), old(table.chi2ValidCdf),
                      old([table.rv, table.dvrms, table.ddv, table.ddvrms, table.dddv, table.dddvrms]))
    ensures var h := old(RecordOf(table));
            RecordOf(table) == Record(h.meanXpix[i := m.meanXpix], h.meanBlaze[i := m.meanBlaze],
                                      h.rmsRatio[i := m.rmsRatio], h.npix[i := m.npix], h.chi2[i := m.chi2])
  {
    table.meanXpix := table.meanXpix[i := m.meanXpix];
    table.meanBlaze := table.meanBlaze[i := m.meanBlaze];
    table.rmsRatio := table.rmsRatio[i := m.rmsRatio];
    table.npixLine := table.npixLine[i := m.npix];
    table.chi2 := table.chi2[i := m.chi2];
  }

  /** The line loop of one pass: each line is gated and, when measured,
      writes its entries of the fit arrays and of the table columns. */
  method Sweep(table: RefTable.ReferenceTable, iteration: nat, fit: Fit, data: seq<LineFit.OrderData>, sysRv: real,
               minWidth: int, num: Numerics)
    returns (next: Fit)
    requires table.Valid() && FitShaped(fit, |table.lines|) && Readable(table.lines, data) && Monotone(num.wave2pix)
    modifies table
    ensures table.Valid()
    ensures Untouched(table, old(table.lines), old(table.ampContinuum), old(table.chi2ValidCdf),
                      old([table.rv, table.dvrms, table.ddv, table.ddvrms, table.dddv, table.dddvrms]))
    ensures next == FitAfter(fit, Gates(iteration, fit, data, table.lines, sysRv, minWidth, num))
    ensures RecordOf(table) == RecordAfter(old(RecordOf(table)), Gates(iteration, fit, data, table.lines, sysRv, minWidth, num))
  {
    var lines := table.lines;
    ghost var g := Gates(iteration, fit, data, lines, sysRv, minWidth, num);
    ghost var rec := RecordOf(table);
    ghost var cols := [table.rv, table.dvrms, table.ddv, table.ddvrms, table.dddv, table.dddvrms];
    next := fit;
    for i := 0 to |lines|
      invariant table.Valid()
      invariant Untouched(table, lines, old(table.ampContinuum), old(table.chi2ValidCdf), cols)
      invariant next == FitUpto(fit, g, i) && RecordOf(table) == RecordUpto(rec, g, i)
    {
      var line := lines[i];
      var o := line.order;
      var gate := LineFit.LineStep(iteration, next.keep[i], data[o], line.waveStart, line.waveEnd,
                                   num.wave2pix(sysRv, o, line.waveStart), num.wave2pix(sysRv, o, line.waveEnd),
                                   minWidth, num.line);
      assert gate == g[i];
      next := Visit(table, fit, rec, g, i, gate, next);
    }
  }

  /** The writes of line `i` of the line loop, its gate already computed. */
  method Visit(table: RefTable.ReferenceTable, ghost fit: Fit, ghost rec: Record, ghost g: seq<LineFit.Gate>, i: nat,
               gate: LineFit.Gate, next: Fit)
    returns (after: Fit)
    requires table.Valid() && i < |g| == |table.lines| && gate == g[i] && FitShaped(fit, |g|) && RecordShaped(rec, |g|)
    requires next == FitUpto(fit, g, i) && RecordOf(table) == RecordUpto(rec, g, i)
    modifies table
    ensures table.Valid()
    ensures Untouched(table, old(table.lines), old(table.ampContinuum), old(table.chi2ValidCdf),
                      old([table.rv, table.dvrms, table.ddv, table.ddvrms, table.dddv, table.dddvrms]))
    ensures after == FitUpto(fit, g, i + 1) && RecordOf(table) == RecordUpto(rec, g, i + 1)
  {
    FitUptoStep(fit, g, i);
    RecordUptoStep(rec, g, i);
    after := next.(keep := next.keep[i := gate.keep]);
    if gate.outcome.Some? {
      var m := gate.outcome.value;
      Store(table, i, m);
      after := after.(dv := after.dv[i := m.first.value], dvrms := after.dvrms[i := m.first.error]);
      after := after.(ddv := after.ddv[i := m.second.value], ddvrms := after.ddvrms[i := m.second.error]);
      after := after.(ddv := after.ddv[i := m.third.value], ddvrms := after.ddvrms[i := m.third.error]);
    }
  }

  // ---------------------------------------------------------------------
  // The iteration loop
  // ---------------------------------------------------------------------

  /** Everything one call of `compute_rv` works on: parameters, numerics,
      the high-passed spectrum, the blaze, the table's lines, the shape of
      the spectrum and the barycentric correction. */
  datatype Env = Env(p: Params, num: Numerics, sci: seq<seq<Option<real>>>, blaze: seq<seq<real>>,
                     lines: seq<RefTable.Line>, orders: nat, n: nat, berv: real)

  ghost predicate EnvOk(env: Env)
  {
    Rows(env.sci, env.orders, env.n) && Rows(env.blaze, env.orders, env.n) && Sane(env.num, env.orders, env.n) &&
    forall i :: 0 <= i < |env.lines| ==> env.lines[i].order < env.orders && env.lines[i].waveStart <= env.lines[i].waveEnd
  }

  /** The noise per pixel for a pass: zeros with the noise-model switch on,
      the sliding-box estimate against the current model otherwise. */
  function Rms(env: Env, m: Models): (rms: seq<seq<Option<real>>>)
    requires EnvOk(env) && ModelsShaped(m, env.orders, env.n)
    ensures Rows(rms, env.orders, env.n)
    ensures env.p.useNoiseModel ==> forall o, i :: 0 <= o < env.orders && 0 <= i < env.n ==> rms[o][i] == Some(0.0)
    ensures !env.p.useNoiseModel ==> rms == NoiseModel.Noise(env.sci, m.model, env.n, NoisePoints, env.num.sigmaOf)
  {
    if env.p.useNoiseModel then Fill(env.orders, Fill(env.n, Some(0.0)))
    else NoiseModel.Noise(env.sci, m.model, env.n, NoisePoints, env.num.sigmaOf)
  }

  /** The arrays of every order for a pass. */
  function Orders(env: Env, m: Models, rms: seq<seq<Option<real>>>): (data: seq<LineFit.OrderData>)
    requires EnvOk(env) && ModelsShaped(m, env.orders, env.n) && Rows(rms, env.orders, env.n)
    ensures |data| == env.orders && forall o :: 0 <= o < |data| ==> data[o].WellShaped()
    ensures Readable(env.lines, data)
  {
    seq(env.orders, o requires 0 <= o < env.orders =>
      LineFit.OrderData(m.wave[o], env.sci[o], m.model[o], m.d1[o], m.d2[o], m.d3[o], env.blaze[o], rms[o]))
  }

  /** The arrays of every order at trial velocity `sysRv`. */
  function PassData(env: Env, sysRv: real): (data: seq<LineFit.OrderData>)
    requires EnvOk(env)
    ensures |data| == env.orders && Readable(env.lines, data)
  {
    var m := env.num.models(env.sci, sysRv);
    Orders(env, m, Rms(env, m))
  }

  /** `dv / dvrms` where it is finite (a zero divisor gives an infinity or a NaN). */
  function Quotient(a: Option<real>, b: Option<real>): (q: Option<real>)
    ensures q.Some? <==> a.Some? && b.Some? && b.value != 0.0
    ensures q.Some? ==> q.value * b.value == a.value
  {
    if a.Some? && b.Some? && b.value != 0.0 then Some(a.value / b.value) else None
  }

  /** The finite sigma ratios below the threshold in absolute value, in line order. */
  function Nsig(dv: seq<Option<real>>, dvrms: seq<Option<real>>, threshold: real): (r: seq<real>)
    requires |dv| == |dvrms|
    ensures |r| <= |dv|
  {
    if |dv| == 0 then []
    else
      var q := Quotient(dv[0], dvrms[0]);
      var rest := Nsig(dv[1..], dvrms[1..], threshold);
      if q.Some? && -threshold < q.value < threshold then [q.value] + rest else rest
  }

  /** Line `i` has a finite sigma ratio strictly within the threshold. */
  ghost predicate KeptRatio(dv: seq<Option<real>>, dvrms: seq<Option<real>>, threshold: real, i: nat)
    requires |dv| == |dvrms| && i < |dv|
  {
    var q := Quotient(dv[i], dvrms[i]);
    q.Some? && -threshold < q.value < threshold
  }

  /** `idx` lists, in increasing order and once each, exactly the lines whose
      sigma ratio is kept. */
  ghost predicate KeptPositions(dv: seq<Option<real>>, dvrms: seq<Option<real>>, threshold: real, idx: seq<nat>)
    requires |dv| == |dvrms|
  {
    (forall k :: 0 <= k < |idx| ==> idx[k] < |dv| && KeptRatio(dv, dvrms, threshold, idx[k])) &&
    (forall k, l :: 0 <= k < l < |idx| ==> idx[k] < idx[l]) &&
    (forall i :: 0 <= i < |dv| && KeptRatio(dv, dvrms, threshold, i) ==> exists k :: 0 <= k < |idx| && idx[k] == i)
  }

  /** `nsig[np.isfinite(nsig)]` and the threshold cut keep one entry per
      kept line, in line order: the array handed to `estimate_sigma` is the
      ratios read at the increasing list of exactly the kept lines. */
  lemma NsigInLineOrder(dv: seq<Option<real>>, dvrms: seq<Option<real>>, threshold: real)
    requires |dv| == |dvrms|
    ensures exists idx: seq<nat> :: KeptPositions(dv, dvrms, threshold, idx) && |idx| == |Nsig(dv, dvrms, threshold)| &&
              forall k :: 0 <= k < |idx| ==> Nsig(dv, dvrms, threshold)[k] == Quotient(dv[idx[k]], dvrms[idx[k]]).value
  {
    var idx := NsigPositions(dv, dvrms, threshold);
  }

  /** The positions of the kept lines, built front to back as `Nsig` is. */
  lemma {:induction false} NsigPositions(dv: seq<Option<real>>, dvrms: seq<Option<real>>, threshold: real)
    returns (idx: seq<nat>)
    requires |dv| == |dvrms|
    ensures KeptPositions(dv, dvrms, threshold, idx) && |idx| == |Nsig(dv, dvrms, threshold)|
    ensures forall k :: 0 <= k < |idx| ==> Nsig(dv, dvrms, threshold)[k] == Quotient(dv[idx[k]], dvrms[idx[k]]).value
  {
    if |dv| == 0 {
      idx := [];
    } else {
      var r0 := Nsig(dv[1..], dvrms[1..], threshold);
      var idx0 := NsigPositions(dv[1..], dvrms[1..], threshold);
      var sh := ShiftUp(dv, dvrms, threshold, idx0, r0);
      if KeptRatio(dv, dvrms, threshold, 0) {
        assert Nsig(dv, dvrms, threshold) == [Quotient(dv[0], dvrms[0]).value] + r0;
        idx := PrependKept(dv, dvrms, threshold, sh, r0);
      } else {
        assert Nsig(dv, dvrms, threshold) == r0;
        PrependSkipped(dv, dvrms, threshold, sh, r0);
        idx := sh;
      }
    }
  }

  /** A kept first line goes in front of the renumbered positions of the rest. */
  lemma PrependKept(dv: seq<Option<real>>, dvrms: seq<Option<real>>, threshold: real, sh: seq<nat>, r0: seq<real>)
    returns (idx: seq<nat>)
    requires |dv| == |dvrms| > 0 && KeptRatio(dv, dvrms, threshold, 0) && |sh| == |r0|
    requires forall k :: 0 <= k < |sh| ==> 0 < sh[k] < |dv| && KeptRatio(dv, dvrms, threshold, sh[k]) &&
                                           r0[k] == Quotient(dv[sh[k]], dvrms[sh[k]]).value
    requires forall k, l :: 0 <= k < l < |sh| ==> sh[k] < sh[l]
    requires forall i :: 0 < i < |dv| && KeptRatio(dv, dvrms, threshold, i) ==> exists k :: 0 <= k < |sh| && sh[k] == i
    ensures var r := [Quotient(dv[0], dvrms[0]).value] + r0;
      KeptPositions(dv, dvrms, threshold, idx) && |idx| == |r| &&
      forall k :: 0 <= k < |idx| ==> r[k] == Quotient(dv[idx[k]], dvrms[idx[k]]).value
  {
    idx := [0] + sh;
    forall i | 0 <= i < |dv| && KeptRatio(dv, dvrms, threshold, i)
      ensures exists k :: 0 <= k < |idx| && idx[k] == i
    {
      if i == 0 {
        assert idx[0] == 0;
      } else {
        var k :| 0 <= k < |sh| && sh[k] == i;
        assert idx[k + 1] == i;
      }
    }
  }

  /** A first line whose ratio is not kept adds no position. */
  lemma PrependSkipped(dv: seq<Option<real>>, dvrms: seq<Option<real>>, threshold: real, sh: seq<nat>, r0: seq<real>)
    requires |dv| == |dvrms| > 0 && !KeptRatio(dv, dvrms, threshold, 0) && |sh| == |r0|
    requires forall k :: 0 <= k < |sh| ==> 0 < sh[k] < |dv| && KeptRatio(dv, dvrms, threshold, sh[k]) &&
                                           r0[k] == Quotient(dv[sh[k]], dvrms[sh[k]]).value
    requires forall k, l :: 0 <= k < l < |sh| ==> sh[k] < sh[l]
    requires forall i :: 0 < i < |dv| && KeptRatio(dv, dvrms, threshold, i) ==> exists k :: 0 <= k < |sh| && sh[k] == i
    ensures KeptPositions(dv, dvrms, threshold, sh)
  {
    forall i | 0 <= i < |dv| && KeptRatio(dv, dvrms, threshold, i)
      ensures exists k :: 0 <= k < |sh| && sh[k] == i
    {
      assert i != 0;
    }
  }

  /** The positions of the lines after the first, renumbered in the whole
      list. */
  lemma ShiftUp(dv: seq<Option<real>>, dvrms: seq<Option<real>>, threshold: real, idx0: seq<nat>, r0: seq<real>)
    returns (sh: seq<nat>)
    requires |dv| == |dvrms| > 0
    requires KeptPositions(dv[1..], dvrms[1..], threshold, idx0) && |idx0| == |r0|
    requires forall k :: 0 <= k < |idx0| ==> r0[k] == Quotient(dv[1..][idx0[k]], dvrms[1..][idx0[k]]).value
    ensures |sh| == |idx0|
    ensures forall k :: 0 <= k < |sh| ==> 0 < sh[k] < |dv| && KeptRatio(dv, dvrms, threshold, sh[k]) &&
                                          r0[k] == Quotient(dv[sh[k]], dvrms[sh[k]]).value
    ensures forall k, l :: 0 <= k < l < |sh| ==> sh[k] < sh[l]
    ensures forall i :: 0 < i < |dv| && KeptRatio(dv, dvrms, threshold, i) ==> exists k :: 0 <= k < |sh| && sh[k] == i
  {
    sh := seq(|idx0|, k requires 0 <= k < |idx0| => idx0[k] + 1);
    forall k | 0 <= k < |sh|
      ensures 0 < sh[k] < |dv| && KeptRatio(dv, dvrms, threshold, sh[k]) &&
              r0[k] == Quotient(dv[sh[k]], dvrms[sh[k]]).value
    {
      assert dv[1..][idx0[k]] == dv[sh[k]] && dvrms[1..][idx0[k]] == dvrms[sh[k]];
      assert KeptRatio(dv[1..], dvrms[1..], threshold, idx0[k]);
    }
    forall i | 0 < i < |dv| && KeptRatio(dv, dvrms, threshold, i)
      ensures exists k :: 0 <= k < |sh| && sh[k] == i
    {
      ShiftedCovers(dv, dvrms, threshold, idx0, sh, i);
    }
  }

  /** A kept line after the first is found among the renumbered positions. */
  lemma ShiftedCovers(dv: seq<Option<real>>, dvrms: seq<Option<real>>, threshold: real, idx0: seq<nat>, sh: seq<nat>,
                      i: nat)
    requires |dv| == |dvrms| && 0 < i < |dv| && KeptRatio(dv, dvrms, threshold, i)
    requires KeptPositions(dv[1..], dvrms[1..], threshold, idx0)
    requires |sh| == |idx0| && forall k :: 0 <= k < |sh| ==> sh[k] == idx0[k] + 1
    ensures exists k :: 0 <= k < |sh| && sh[k] == i
  {
    assert dv[1..][i - 1] == dv[i] && dvrms[1..][i - 1] == dvrms[i];
    assert KeptRatio(dv[1..], dvrms[1..], threshold, i - 1);
    var k :| 0 <= k < |idx0| && idx0[k] == i - 1;
    assert sh[k] == i;
  }

  /** A value is among the sigma ratios kept exactly when it is the finite
      ratio of some line and lies strictly within the threshold. */
  lemma {:induction false} NsigMembers(dv: seq<Option<real>>, dvrms: seq<Option<real>>, threshold: real, x: real)
    requires |dv| == |dvrms|
    ensures x in Nsig(dv, dvrms, threshold) <==>
            exists i :: 0 <= i < |dv| && Quotient(dv[i], dvrms[i]) == Some(x) && -threshold < x < threshold
  {
    if |dv| > 0 {
      NsigMembers(dv[1..], dvrms[1..], threshold, x);
      if exists i :: 1 <= i < |dv| && Quotient(dv[i], dvrms[i]) == Some(x) && -threshold < x < threshold {
        var i :| 1 <= i < |dv| && Quotient(dv[i], dvrms[i]) == Some(x) && -threshold < x < threshold;
        assert Quotient(dv[1..][i - 1], dvrms[1..][i - 1]) == Some(x);
      }
      if exists i :: 0 <= i < |dv| - 1 && Quotient(dv[1..][i], dvrms[1..][i]) == Some(x) && -threshold < x < threshold {
        var i :| 0 <= i < |dv| - 1 && Quotient(dv[1..][i], dvrms[1..][i]) == Some(x) && -threshold < x < threshold;
        assert Quotient(dv[i + 1], dvrms[i + 1]) == Some(x);
      }
    }
  }

  /** `dv + sys_rv - berv` */
  function Shifted(dv: seq<Option<real>>, c: real): (r: seq<Option<real>>)
    ensures |r| == |dv|
  {
    seq(|dv|, i requires 0 <= i < |dv| => AddTo(dv[i], c))
  }

  /** The state carried from pass to pass: the systemic velocity, the fit
      arrays, the table columns, the velocities `rv_final`, the sigma ratio
      `stddev_nsig`, and the (`rv_mean`, `bulk_error`) of every pass run so
      far, whose count is `num_to_converge`. */
  datatype Progress = Progress(sysRv: real, fit: Fit, record: Record, rvFinal: seq<Option<real>>,
                               stddev: Option<real>, history: seq<PassResult>)

  /** What one pass reports: `rv_mean`, `bulk_error`, and whether the pass
      converged. */
  datatype PassResult = PassResult(rvMean: real, bulkError: real, converged: bool)

  ghost predicate ProgressShaped(pr: Progress, n: nat)
  {
    FitShaped(pr.fit, n) && RecordShaped(pr.record, n) && |pr.rvFinal| == n
  }

  /** `np.abs(rv_mean) < converge_thres * bulk_error` */
  predicate Converged(threshold: real, rvMean: real, bulkError: real)
  {
    (if rvMean < 0.0 then -rvMean else rvMean) < threshold * bulkError
  }

  /** The state before the first pass: every line kept, every fit value
      missing, the table columns as found. */
  function Init(n: nat, sysRv: real, record: Record): (pr: Progress)
    requires RecordShaped(record, n)
    ensures ProgressShaped(pr, n) && pr.history == []
    ensures pr.sysRv == sysRv && pr.record == record && pr.stddev == None
    ensures forall i :: 0 <= i < n ==> pr.fit.keep[i] && pr.fit.dv[i] == None && pr.fit.dvrms[i] == None
    ensures forall i :: 0 <= i < n ==> pr.fit.ddv[i] == None && pr.fit.ddvrms[i] == None && pr.rvFinal[i] == None
  {
    Progress(sysRv, Fit(Fill(n, true), Fill(n, None), Fill(n, None), Fill(n, None), Fill(n, None)), record,
             Fill(n, None), None, [])
  }

  /** One pass with index `it`: the template at the current velocity, the
      noise, the line loop, the sigma ratio, then `rv_final` from the
      current velocity before it moves by `rv_mean`. */
  function Step(env: Env, it: nat, pr: Progress): (r: Progress)
    requires EnvOk(env) && ProgressShaped(pr, |env.lines|)
    ensures ProgressShaped(r, |env.lines|)
    ensures |r.history| == |pr.history| + 1 && r.history[..|pr.history|] == pr.history
    ensures r.sysRv == pr.sysRv + r.history[|pr.history|].rvMean
  {
    var data := PassData(env, pr.sysRv);
    var g := Gates(it, pr.fit, data, env.lines, pr.sysRv, env.p.minLineWidth, env.num);
    var fit := FitAfter(pr.fit, g);
    var mean := env.num.oddRatioMean(fit.dv, fit.dvrms);
    Progress(pr.sysRv + mean.0, fit, RecordAfter(pr.record, g), Shifted(fit.dv, pr.sysRv - env.berv),
             env.num.estimateSigma(Nsig(fit.dv, fit.dvrms, env.p.nsigThreshold)),
             pr.history + [PassResult(mean.0, mean.1, Converged(env.p.convergeThres, mean.0, mean.1))])
  }

  /** `pass` appends exactly one result to the history, keeps the state's
      shape, and moves the systemic velocity by that result's `rv_mean`. */
  ghost predicate Appends(pass: (nat, Progress) -> Progress, n: nat)
  {
    forall it, pr :: ProgressShaped(pr, n) ==>
      ProgressShaped(pass(it, pr), n) && |pass(it, pr).history| == |pr.history| + 1 &&
      pass(it, pr).history[..|pr.history|] == pr.history &&
      pass(it, pr).sysRv == pr.sysRv + pass(it, pr).history[|pr.history|].rvMean
  }

  /** The `for iteration in range(n_iters)` loop with its convergence
      `break`, for any pass function: the passes from index `it` on, up to
      and including the first that converged. */
  ghost function Schedule(pass: (nat, Progress) -> Progress, n: nat, nIters: nat, it: nat, pr: Progress): (r: Progress)
    requires Appends(pass, n) && ProgressShaped(pr, n)
    ensures ProgressShaped(r, n) && |pr.history| <= |r.history|
    decreases nIters - it
  {
    if it >= nIters then pr
    else
      var next := pass(it, pr);
      if next.history[|pr.history|].converged then next else Schedule(pass, n, nIters, it + 1, next)
  }

  /** The pass of `compute_rv` as a function of its index and state. */
  ghost function PassOf(env: Env): (nat, Progress) -> Progress
  {
    (it: nat, pr: Progress) => if EnvOk(env) && ProgressShaped(pr, |env.lines|) then Step(env, it, pr) else pr
  }

  lemma PassOfAppends(env: Env)
    requires EnvOk(env)
    ensures Appends(PassOf(env), |env.lines|)
  {
    forall it: nat, pr | ProgressShaped(pr, |env.lines|)
      ensures PassOf(env)(it, pr) == Step(env, it, pr)
    {
    }
  }

  /** The passes of `compute_rv` from index `it` on. */
  ghost function Iterate(env: Env, it: nat, pr: Progress): (r: Progress)
    requires EnvOk(env) && ProgressShaped(pr, |env.lines|)
    ensures ProgressShaped(r, |env.lines|)
  {
    PassOfAppends(env);
    Schedule(PassOf(env), |env.lines|, env.p.nIters, it, pr)
  }

  /** The noise of a pass, estimated unless the noise-model switch is on. */
  method EstimateRms(env: Env, m: Models) returns (rms: seq<seq<Option<real>>>)
    requires EnvOk(env) && ModelsShaped(m, env.orders, env.n)
    ensures rms == Rms(env, m)
  {
    if env.p.useNoiseModel {
      rms := Fill(env.orders, Fill(env.n, Some(0.0)));
    } else {
      rms := NoiseModel.EstimateNoiseModel(env.sci, m.model, env.n, NoisePoints, env.num.sigmaOf);
    }
  }

  /** One pass, run on the table in place. */
  method Pass(table: RefTable.ReferenceTable, env: Env, it: nat, pr: Progress) returns (next: Progress)
    requires EnvOk(env) && table.Valid() && table.lines == env.lines
    requires ProgressShaped(pr, |env.lines|) && RecordOf(table) == pr.record
    modifies table
    ensures table.Valid()
    ensures Untouched(table, old(table.lines), old(table.ampContinuum), old(table.chi2ValidCdf),
                      old([table.rv, table.dvrms, table.ddv, table.ddvrms, table.dddv, table.dddvrms]))
    ensures next == Step(env, it, pr) && RecordOf(table) == next.record
  {
    var m := env.num.models(env.sci, pr.sysRv);
    var rms := EstimateRms(env, m);
    var data := Orders(env, m, rms);
    var fit := Sweep(table, it, pr.fit, data, pr.sysRv, env.p.minLineWidth, env.num);
    var stddev := env.num.estimateSigma(Nsig(fit.dv, fit.dvrms, env.p.nsigThreshold));
    var mean := env.num.oddRatioMean(fit.dv, fit.dvrms);
    var rvFinal := Shifted(fit.dv, pr.sysRv - env.berv);
    next := Progress(pr.sysRv + mean.0, fit, RecordOf(table), rvFinal, stddev,
                     pr.history + [PassResult(mean.0, mean.1, Converged(env.p.convergeThres, mean.0, mean.1))]);
  }

  /** The loop of passes, run on the table in place. */
  method Refine(table: RefTable.ReferenceTable, env: Env, sysRv: real) returns (pr: Progress)
    requires EnvOk(env) && table.Valid() && table.lines == env.lines
    modifies table
    ensures table.Valid()
    ensures Untouched(table, old(table.lines), old(table.ampContinuum), old(table.chi2ValidCdf),
                      old([table.rv, table.dvrms, table.ddv, table.ddvrms, table.dddv, table.dddvrms]))
    ensures pr == Iterate(env, 0, Init(|env.lines|, sysRv, old(RecordOf(table))))
    ensures RecordOf(table) == pr.record
  {
    ghost var cols := [table.rv, table.dvrms, table.ddv, table.ddvrms, table.dddv, table.dddvrms];
    pr := Init(|table.lines|, sysRv, RecordOf(table));
    ghost var goal := Iterate(env, 0, pr);
    for it := 0 to env.p.nIters
      invariant table.Valid() && Untouched(table, env.lines, old(table.ampContinuum), old(table.chi2ValidCdf), cols)
      invariant ProgressShaped(pr, |env.lines|) && RecordOf(table) == pr.record
      invariant Iterate(env, it, pr) == goal
    {
      pr := Pass(table, env, it, pr);
      if pr.history[|pr.history| - 1].converged {
        break;
      }
    }
  }

  // ---------------------------------------------------------------------
  // What the passes guarantee
  // ---------------------------------------------------------------------

  /** The sum of the `rv_mean` of a run of passes. */
  function MeanSum(history: seq<PassResult>): real
  {
    if |history| == 0 then 0.0 else history[0].rvMean + MeanSum(history[1..])
  }

  /** The passes from index `it` on extend the history already recorded: at
      least one more pass when budget remains, and never more passes than
      the budget left. */
  lemma {:induction false} PassesWithinBudget(pass: (nat, Progress) -> Progress, n: nat, nIters: nat, it: nat, pr: Progress)
    requires Appends(pass, n) && ProgressShaped(pr, n) && it <= nIters
    ensures var h := Schedule(pass, n, nIters, it, pr).history;
            |pr.history| + (if it < nIters then 1 else 0) <= |h| <= |pr.history| + (nIters - it) &&
            h[..|pr.history|] == pr.history
    decreases nIters - it
  {
    if it < nIters {
      var next := pass(it, pr);
      if !next.history[|pr.history|].converged {
        PassesWithinBudget(pass, n, nIters, it + 1, next);
        var h := Schedule(pass, n, nIters, it + 1, next).history;
        assert h[..|pr.history|] == h[..|next.history|][..|pr.history|];
      }
    }
  }

  /** The loop stops at the first pass that converges: no earlier pass of
      the run converged, and the run ends before the budget is spent only on
      a converged pass. */
  lemma {:induction false} StopsAtFirstConvergence(pass: (nat, Progress) -> Progress, n: nat, nIters: nat, it: nat,
                                                   pr: Progress)
    requires Appends(pass, n) && ProgressShaped(pr, n) && it <= nIters
    ensures var h := Schedule(pass, n, nIters, it, pr).history;
            (forall k :: |pr.history| <= k < |h| - 1 ==> !h[k].converged) &&
            (|h| < |pr.history| + (nIters - it) ==> |pr.history| < |h| && h[|h| - 1].converged)
    decreases nIters - it
  {
    var h := Schedule(pass, n, nIters, it, pr).history;
    if it < nIters {
      var next := pass(it, pr);
      var last := next.history[|pr.history|];
      if !last.converged {
        StopsAtFirstConvergence(pass, n, nIters, it + 1, next);
        PassesWithinBudget(pass, n, nIters, it + 1, next);
        assert h[|pr.history|] == last by {
          assert h[..|next.history|][|pr.history|] == last;
        }
      }
    }
  }

  /** Each pass moves the systemic velocity by its `rv_mean`. */
  lemma {:induction false} VelocityAccumulates(pass: (nat, Progress) -> Progress, n: nat, nIters: nat, it: nat,
                                               pr: Progress)
    requires Appends(pass, n) && ProgressShaped(pr, n) && it <= nIters
    ensures var r := Schedule(pass, n, nIters, it, pr);
            r.sysRv == pr.sysRv + MeanSum(r.history[|pr.history|..])
    decreases nIters - it
  {
    var r := Schedule(pass, n, nIters, it, pr);
    PassesWithinBudget(pass, n, nIters, it, pr);
    if it < nIters {
      var next := pass(it, pr);
      assert r.history[|pr.history|] == next.history[|pr.history|] by {
        if !next.history[|pr.history|].converged {
          PassesWithinBudget(pass, n, nIters, it + 1, next);
          assert r.history[..|next.history|][|pr.history|] == next.history[|pr.history|];
        }
      }
      if next.history[|pr.history|].converged {
        assert r.history[|pr.history|..][1..] == [];
      } else {
        VelocityAccumulates(pass, n, nIters, it + 1, next);
        assert r.history[|pr.history|..][1..] == r.history[|next.history|..];
      }
    } else {
      assert r.history[|pr.history|..] == [];
    }
  }

  /** A keep flag that each pass leaves cleared stays cleared over any run
      of passes. */
  lemma {:induction false} ClearedStaysCleared(pass: (nat, Progress) -> Progress, n: nat, nIters: nat, it: nat,
                                               pr: Progress, i: nat)
    requires Appends(pass, n) && ProgressShaped(pr, n) && i < n && !pr.fit.keep[i]
    requires forall it, q :: ProgressShaped(q, n) && !q.fit.keep[i] ==> !pass(it, q).fit.keep[i]
    ensures !Schedule(pass, n, nIters, it, pr).fit.keep[i]
    decreases nIters - it
  {
    if it < nIters {
      var next := pass(it, pr);
      if !next.history[|pr.history|].converged {
        ClearedStaysCleared(pass, n, nIters, it + 1, next, i);
      }
    }
  }

  /** A single pass never sets a keep flag back. */
  lemma PassKeepsCleared(env: Env, it: nat, pr: Progress, i: nat)
    requires EnvOk(env) && ProgressShaped(pr, |env.lines|) && i < |env.lines| && !pr.fit.keep[i]
    ensures !Step(env, it, pr).fit.keep[i]
  {
  }

  /** The run of a whole call makes at least one pass when the budget is not
      zero, and never more passes than the budget. */
  lemma RunWithinBudget(env: Env, sysRv: real, record: Record)
    requires EnvOk(env) && RecordShaped(record, |env.lines|)
    ensures var h := Iterate(env, 0, Init(|env.lines|, sysRv, record)).history;
            (env.p.nIters > 0 ==> 1 <= |h|) && |h| <= env.p.nIters
  {
    PassOfAppends(env);
    PassesWithinBudget(PassOf(env), |env.lines|, env.p.nIters, 0, Init(|env.lines|, sysRv, record));
  }

  /** A line that has lost its keep flag never gets it back within the
      call. */
  lemma KeepNeverRestored(env: Env, it: nat, pr: Progress, i: nat)
    requires EnvOk(env) && ProgressShaped(pr, |env.lines|) && i < |env.lines| && !pr.fit.keep[i]
    ensures !Iterate(env, it, pr).fit.keep[i]
  {
    PassOfAppends(env);
    forall it, q | ProgressShaped(q, |env.lines|) && !q.fit.keep[i]
      ensures !PassOf(env)(it, q).fit.keep[i]
    {
      PassKeepsCleared(env, it, q, i);
    }
    ClearedStaysCleared(PassOf(env), |env.lines|, env.p.nIters, it, pr, i);
  }

  /** On every pass but the one with index 1, a line without its keep flag
      is skipped: none of its fit values or table entries change. */
  lemma SkippedLinesKeepTheirValues(env: Env, it: nat, pr: Progress, i: nat)
    requires EnvOk(env) && ProgressShaped(pr, |env.lines|) && i < |env.lines|
    requires it != 1 && !pr.fit.keep[i]
    ensures var next := Step(env, it, pr);
            !next.fit.keep[i] &&
            next.fit.dv[i] == pr.fit.dv[i] && next.fit.dvrms[i] == pr.fit.dvrms[i] &&
            next.fit.ddv[i] == pr.fit.ddv[i] && next.fit.ddvrms[i] == pr.fit.ddvrms[i] &&
            next.record.meanXpix[i] == pr.record.meanXpix[i] && next.record.meanBlaze[i] == pr.record.meanBlaze[i] &&
            next.record.rmsRatio[i] == pr.record.rmsRatio[i] && next.record.npix[i] == pr.record.npix[i] &&
            next.record.chi2[i] == pr.record.chi2[i]
  {
  }

  /** After a pass, DDV and DDVRMS of a measured line hold its projection on
      the THIRD derivative of the model (the second-derivative projection is
      written and then overwritten), while DV and DVRMS hold the projection
      on the first derivative. */
  lemma ThirdProjectionInDdv(env: Env, it: nat, pr: Progress, i: nat)
    requires EnvOk(env) && ProgressShaped(pr, |env.lines|) && i < |env.lines|
    ensures var g := Gates(it, pr.fit, PassData(env, pr.sysRv), env.lines, pr.sysRv, env.p.minLineWidth, env.num)[i];
            g.outcome.Some? ==>
              Step(env, it, pr).fit.ddv[i] == g.outcome.value.third.value &&
              Step(env, it, pr).fit.ddvrms[i] == g.outcome.value.third.error &&
              Step(env, it, pr).fit.dv[i] == g.outcome.value.first.value &&
              Step(env, it, pr).fit.dvrms[i] == g.outcome.value.first.error
  {
    var g := Gates(it, pr.fit, PassData(env, pr.sysRv), env.lines, pr.sysRv, env.p.minLineWidth, env.num);
    var f := Step(env, it, pr).fit;
    assert f == FitAfter(pr.fit, g);
    if g[i].outcome.Some? {
      var m := g[i].outcome.value;
      assert f.ddv[i] == DdvOf(m) && f.ddvrms[i] == DdvrmsOf(m);
      assert f.dv[i] == DvOf(m) && f.dvrms[i] == DvrmsOf(m);
    }
  }

  // ---------------------------------------------------------------------
  // The first systemic velocity
  // ---------------------------------------------------------------------

  /** The `WAVE_START` column of the table. */
  function WaveStarts(lines: seq<RefTable.Line>): (w: seq<real>)
    ensures |w| == |lines|
  {
    seq(|lines|, i requires 0 <= i < |lines| => lines[i].waveStart)
  }

  /** The `WEIGHT_LINE` column of the table. */
  function Weights(lines: seq<RefTable.Line>): (w: seq<real>)
    ensures |w| == |lines|
  {
    seq(|lines|, i requires 0 <= i < |lines| => lines[i].weight)
  }

  /** The coarse CCF is asked for but cannot run: a zero velocity step
      (`np.arange` raises) or an empty velocity grid (`argmax` of nothing
      raises). */
  predicate CoarseUndefined(p: Params, resetRv: bool)
  {
    resetRv && !Bootstrap.ContainsFP(p.objectScience) &&
    (p.ccf.rvStep == 0.0 || RoughCcf.ArangeLength(p.ccf.rvMin, p.ccf.rvMax, p.ccf.rvStep) == 0)
  }

  /** How the first systemic velocity `sysRv` and the CCF e-width `ccfEw`
      are chosen: from the coarse CCF of the high-passed spectrum for a
      science target (keeping a given e-width), zero for a Fabry-Perot
      source, and otherwise the archived velocity of the latest stored
      date with the e-width passed through. */
  ghost predicate StartChosen(p: Params, num: Numerics, resetRv: bool, wavegrid: seq<seq<real>>,
                              sciHp: seq<seq<Option<real>>>, n: nat, lines: seq<RefTable.Line>,
                              ccfEwidth: Option<real>, stored: seq<real>, dates: seq<real>, sysRv: real,
                              ccfEw: Option<real>)
    requires Rows(wavegrid, |wavegrid|, n) && Rows(sciHp, |wavegrid|, n)
  {
    if resetRv then
      if Bootstrap.ContainsFP(p.objectScience) then sysRv == 0.0 && ccfEw == Some(0.0)
      else
        p.ccf.rvStep != 0.0 &&
        exists ew :: RoughCcf.CoarseFit(p.ccf, wavegrid, sciHp, n, WaveStarts(lines), Weights(lines), num.ccf, (sysRv, ew)) &&
                     ccfEw == (if ccfEwidth.None? then Some(ew) else ccfEwidth)
    else
      ccfEw == ccfEwidth && exists k: nat :: Bootstrap.LatestSlot(dates, k) && k < |stored| && sysRv == stored[k]
  }

  /** The systemic velocity estimate that starts the passes; `None` where
      the coarse CCF raises. */
  method Start(p: Params, num: Numerics, resetRv: bool, wavegrid: seq<seq<real>>, sciHp: seq<seq<Option<real>>>,
               n: nat, lines: seq<RefTable.Line>, ccfEwidth: Option<real>, mjdate: real, systemicAll: array<real>,
               mjdateAll: array<real>)
    returns (start: Option<(real, Option<real>)>)
    requires |wavegrid| > 0 && Rows(wavegrid, |wavegrid|, n) && Rows(sciHp, |wavegrid|, n)
    requires 0 < mjdateAll.Length == systemicAll.Length
    ensures start.None? <==> CoarseUndefined(p, resetRv)
    ensures start.Some? ==> StartChosen(p, num, resetRv, wavegrid, sciHp, n, lines, ccfEwidth, systemicAll[..],
                                        mjdateAll[..], start.value.0, start.value.1)
  {
    if resetRv {
      if !Bootstrap.ContainsFP(p.objectScience) {
        if p.ccf.rvStep == 0.0 {
          return None;
        }
        var r, seed := RoughCcf.RoughCcfRv(p.ccf, wavegrid, sciHp, n, WaveStarts(lines), Weights(lines), num.ccf);
        if r.None? {
          return None;
        }
        var ew := if ccfEwidth.None? then Some(r.value.1) else ccfEwidth;
        start := Some((r.value.0, ew));
      } else {
        start := Some((0.0, Some(0.0)));
      }
    } else {
      var k := Bootstrap.ClosestSlot(mjdate, mjdateAll);
      start := Some((systemicAll[k], ccfEwidth));
    }
  }

  // ---------------------------------------------------------------------
  // compute_rv
  // ---------------------------------------------------------------------

  /** The output dictionary of `compute_rv` (without its duration). */
  datatype Outputs = Outputs(resetRv: bool, numIterations: nat, systemicVelocity: real, rmsRatio: Option<real>,
                             ccfEwidth: Option<real>, hpWidth: real)

  /** `1 - chi2.cdf(CHI2, NPIXLINE)` line by line. */
  function ChiValid(record: Record, chi2Valid: (Option<real>, int) -> Option<real>): (cdf: seq<Option<real>>)
    requires |record.npix| == |record.chi2|
    ensures |cdf| == |record.chi2|
  {
    seq(|record.chi2|, i requires 0 <= i < |record.chi2| => chi2Valid(record.chi2[i], record.npix[i]))
  }

  /** `-rv_final`, a missing value staying missing. */
  function Negated(s: seq<Option<real>>): (r: seq<Option<real>>)
    ensures |r| == |s|
  {
    seq(|s|, i requires 0 <= i < |s| => Negate(s[i]))
  }

  /** The table after the last pass: `RV` is minus `rv_final`, the error and
      curvature columns come from the fit, `DDDV` and `DDDVRMS` stay all
      missing, the per-line columns are those of the last pass, and the
      chi-square validity is computed from them. */
  ghost predicate Published(t: RefTable.ReferenceTable, final: Progress, chi2Valid: (Option<real>, int) -> Option<real>)
    reads t
  {
    var n := |t.lines|;
    t.Valid() && t.rv == Negated(final.rvFinal) && t.dvrms == final.fit.dvrms && t.ddv == final.fit.ddv &&
    t.ddvrms == final.fit.ddvrms && t.dddv == Fill(n, None) && t.dddvrms == Fill(n, None) &&
    RecordOf(t) == final.record && t.chi2ValidCdf == ChiValid(final.record, chi2Valid)
  }

  /** What the passes of one call work on: the high-passed spectrum and the
      table's lines. */
  function Setting(p: Params, num: Numerics, sci: seq<seq<Option<real>>>, wavegrid: seq<seq<real>>, n: nat,
                   blaze: seq<seq<real>>, berv: real, lines: seq<RefTable.Line>): (env: Env)
    requires Rows(wavegrid, |wavegrid|, n) && Rows(sci, |wavegrid|, n) && Rows(blaze, |wavegrid|, n)
    requires Sane(num, |wavegrid|, n) && WidthsDefined(wavegrid, num)
    requires forall i :: 0 <= i < |lines| ==> lines[i].order < |wavegrid| && lines[i].waveStart <= lines[i].waveEnd
    ensures EnvOk(env) && env.lines == lines && Rows(env.sci, |wavegrid|, n)
  {
    Env(p, num, HighPassed(wavegrid, sci, n, p.hpWidthKms * 1000.0, num), blaze, lines, |wavegrid|, n, berv)
  }

  /** `compute_rv` for one exposure: high-pass, first velocity, the passes,
      then the table columns, the archive slot `sci_iteration` and the
      outputs. `None` where the source raises: an order whose filter width is
      undefined, or a coarse CCF that cannot run. */
  method ComputeRv(p: Params, num: Numerics, sciIteration: nat, sci: seq<seq<Option<real>>>,
                   wavegrid: seq<seq<real>>, n: nat, blaze: seq<seq<real>>, berv: real, mjdate: real,
                   table: RefTable.ReferenceTable, systemicAll: array<real>, mjdateAll: array<real>,
                   ccfEwidth: Option<real>, resetRv: bool)
    returns (out: Option<Outputs>, ghost sysRv0: real)
    requires |wavegrid| > 0 && Rows(wavegrid, |wavegrid|, n) && Rows(sci, |wavegrid|, n)
    requires Rows(blaze, |wavegrid|, n) && Sane(num, |wavegrid|, n)
    requires table.Valid()
    requires forall i :: 0 <= i < |table.lines| ==>
               table.lines[i].order < |wavegrid| && table.lines[i].waveStart <= table.lines[i].waveEnd
    requires systemicAll != mjdateAll && mjdateAll.Length == systemicAll.Length && sciIteration < systemicAll.Length
    modifies table, systemicAll, mjdateAll
    ensures out.None? <==> !WidthsDefined(wavegrid, num) || CoarseUndefined(p, resetRv)
    ensures out.None? ==> unchanged(table) && unchanged(systemicAll) && unchanged(mjdateAll)
    ensures out.Some? ==>
              var env := Setting(p, num, sci, wavegrid, n, blaze, berv, old(table.lines));
              var final := Iterate(env, 0, Init(|env.lines|, sysRv0, old(RecordOf(table))));
              StartChosen(p, num, resetRv, wavegrid, env.sci, n, env.lines, ccfEwidth, old(systemicAll[..]),
                          old(mjdateAll[..]), sysRv0, out.value.ccfEwidth) &&
              table.lines == old(table.lines) && table.ampContinuum == old(table.ampContinuum) &&
              Published(table, final, num.chi2Valid) &&
              systemicAll[..] == old(systemicAll[..])[sciIteration := final.sysRv - berv] &&
              mjdateAll[..] == old(mjdateAll[..])[sciIteration := mjdate] &&
              out.value == Outputs(|final.history| >= p.maxGoodIters, |final.history|, final.sysRv, final.stddev,
                                   out.value.ccfEwidth, p.hpWidthKms * 1000.0) &&
              (p.nIters > 0 ==> 1 <= |final.history|) && |final.history| <= p.nIters
  {
    sysRv0 := 0.0;
    var hpWidth := p.hpWidthKms * 1000.0;
    var hp := HighPass(wavegrid, sci, n, hpWidth, num);
    if hp.None? {
      return None, sysRv0;
    }
    var sciHp := hp.value;
    var start := Start(p, num, resetRv, wavegrid, sciHp, n, table.lines, ccfEwidth, mjdate, systemicAll, mjdateAll);
    if start.None? {
      return None, sysRv0;
    }
    var rv := start.value.0;
    sysRv0 := rv;
    var env := Env(p, num, sciHp, blaze, table.lines, |wavegrid|, n, berv);
    assert env == Setting(p, num, sci, wavegrid, n, blaze, berv, table.lines);
    var final := Converge(table, env, rv, sciIteration, mjdate, systemicAll, mjdateAll);
    var passes := |final.history|;
    out := Some(Outputs(passes >= p.maxGoodIters, passes, final.sysRv, final.stddev, start.value.1, hpWidth));
  }

  /** The passes from the first systemic velocity `sysRv`, then the table
      columns and the archive slot `sci_iteration`. */
  method Converge(table: RefTable.ReferenceTable, env: Env, sysRv: real, sciIteration: nat, mjdate: real,
                  systemicAll: array<real>, mjdateAll: array<real>)
    returns (final: Progress)
    requires EnvOk(env) && table.Valid() && table.lines == env.lines
    requires systemicAll != mjdateAll && sciIteration < systemicAll.Length && sciIteration < mjdateAll.Length
    modifies table, systemicAll, mjdateAll
    ensures final == Iterate(env, 0, Init(|env.lines|, sysRv, old(RecordOf(table))))
    ensures table.lines == old(table.lines) && table.ampContinuum == old(table.ampContinuum)
    ensures Published(table, final, env.num.chi2Valid)
    ensures systemicAll[..] == old(systemicAll[..])[sciIteration := final.sysRv - env.berv]
    ensures mjdateAll[..] == old(mjdateAll[..])[sciIteration := mjdate]
    ensures (env.p.nIters > 0 ==> 1 <= |final.history|) && |final.history| <= env.p.nIters
  {
    RunWithinBudget(env, sysRv, RecordOf(table));
    final := Refine(table, env, sysRv);
    Finish(table, final, env.num.chi2Valid);
    Archive(systemicAll, mjdateAll, sciIteration, final.sysRv - env.berv, mjdate);
  }

  /** `systemic_all[sci_iteration] = sys_rv - berv` and
      `mjdate_all[sci_iteration] = mjdate`. */
  method Archive(systemicAll: array<real>, mjdateAll: array<real>, sciIteration: nat, velocity: real, mjdate: real)
    requires systemicAll != mjdateAll && sciIteration < systemicAll.Length && sciIteration < mjdateAll.Length
    modifies systemicAll, mjdateAll
    ensures systemicAll[..] == old(systemicAll[..])[sciIteration := velocity]
    ensures mjdateAll[..] == old(mjdateAll[..])[sciIteration := mjdate]
  {
    systemicAll[sciIteration] := velocity;
    mjdateAll[sciIteration] := mjdate;
  }

  /** The table writes after the last pass. */
  method Finish(table: RefTable.ReferenceTable, final: Progress, chi2Valid: (Option<real>, int) -> Option<real>)
    requires table.Valid() && ProgressShaped(final, |table.lines|) && RecordOf(table) == final.record
    modifies table
    ensures table.lines == old(table.lines) && table.ampContinuum == old(table.ampContinuum)
    ensures Published(table, final, chi2Valid)
  {
    var n := |table.lines|;
    table.rv := Negated(final.rvFinal);
    table.dvrms := final.fit.dvrms;
    table.ddv := final.fit.ddv;
    table.ddvrms := final.fit.ddvrms;
    table.dddv := Fill(n, None);
    table.dddvrms := Fill(n, None);
    table.chi2ValidCdf := ChiValid(RecordOf(table), chi2Valid);
  }
}
