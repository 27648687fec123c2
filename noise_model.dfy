/** `estimate_noise_model`: a per-order noise estimate from the residuals of
    a spectrum against its model, sampled in boxes and interpolated linearly
    between the box centres. Non-finite values are `None`. */
module NoiseModel {
  import opened Missing

  /** `np.arange(0, n, p)`: the box centres. */
  function Centres(n: nat, p: nat): (c: seq<nat>)
    requires p > 0
    ensures |c| == (n + p - 1) / p
  {
    seq((n + p - 1) / p, k => k * p)
  }

  /** A pixel is a box centre exactly when it is a multiple of the box step
      inside the order. */
  lemma CentresAreMultiples(n: nat, p: nat, x: nat)
    requires p > 0
    ensures x in Centres(n, p) <==> x < n && x % p == 0
  {
    var c := Centres(n, p);
    if x < n && x % p == 0 {
      var k := x / p;
      assert k * p == x;
      assert k * p < n;
      assert k < (n + p - 1) / p by {
        assert (k + 1) * p <= n + p - 1;
        DivAtLeast(n + p - 1, p, k + 1);
      }
      assert c[k] == x;
    }
    if x in c {
      var k :| 0 <= k < |c| && c[k] == x;
      assert k < (n + p - 1) / p;
      BelowQuotient(n + p - 1, p, k);
      assert x == k * p;
      MultipleMod(k, p);
    }
  }

  lemma DivAtLeast(a: nat, p: nat, m: nat)
    requires p > 0 && m * p <= a
    ensures m <= a / p
  {
    var q, r := a / p, a % p;
    assert a == q * p + r && r < p;
    assert m * p < (q + 1) * p;
    ProductOrder(m, q + 1, p);
  }

  lemma ProductOrder(x: int, y: int, p: int)
    requires p > 0 && x * p < y * p
    ensures x < y
  {
    assert (y - x) * p > 0;
  }

  lemma BelowQuotient(a: nat, p: nat, k: nat)
    requires p > 0 && k < a / p
    ensures (k + 1) * p <= a
  {
    assert a == (a / p) * p + a % p;
    assert k + 1 <= a / p;
    assert (k + 1) * p <= (a / p) * p;
  }

  lemma MultipleMod(k: nat, p: nat)
    requires p > 0
    ensures (k * p) % p == 0
  {
    ModUnique(k * p, p, k, 0);
  }

  /** Euclidean division has a unique quotient and remainder. */
  lemma ModUnique(x: int, p: int, q: int, r: int)
    requires p > 0 && 0 <= r < p && x == q * p + r
    ensures x / p == q && x % p == r
  {
    var q', r' := x / p, x % p;
    assert x == q' * p + r';
    assert (q - q') * p == r' - r;
    if q > q' {
      MulAtLeast(q - q', p);
      assert false;
    } else if q < q' {
      MulAtLeast(q' - q, p);
      assert false;
    }
  }

  lemma MulAtLeast(d: int, p: int)
    requires d >= 1 && p > 0
    ensures d * p >= p
  {
    assert d * p == (d - 1) * p + p;
    assert (d - 1) * p >= 0;
  }

  /** First pixel of the box around centre `c`, clamped at the order start. */
  function WindowStart(c: nat, p: nat): nat
  {
    if c < p then 0 else c - p
  }

  /** End (exclusive) of the box around centre `c`, clamped at the order end. */
  function WindowEnd(c: nat, p: nat, n: nat): nat
  {
    if c + p > n then n else c + p
  }

  /** Every box holds its own centre, stays inside the order and spans at most
      `2 p` pixels. */
  lemma WindowInOrder(c: nat, p: nat, n: nat)
    requires p > 0 && c < n
    ensures 0 <= WindowStart(c, p) <= c < WindowEnd(c, p, n) <= n
    ensures WindowEnd(c, p, n) - WindowStart(c, p) <= 2 * p
  {
  }

  /** `spectrum - model` for one order. */
  function Residuals(spectrum: seq<Option<real>>, model: seq<Option<real>>): (r: seq<Option<real>>)
    requires |spectrum| == |model|
    ensures |r| == |spectrum|
    ensures forall x :: 0 <= x < |r| ==> (r[x].Some? <==> spectrum[x].Some? && model[x].Some?)
  {
    seq(|spectrum|, x requires 0 <= x < |spectrum| =>
      if spectrum[x].Some? && model[x].Some? then Some(spectrum[x].value - model[x].value) else None)
  }

  /** The robust sigma of a box of residuals (`mp.estimate_sigma`). */
  type SigmaOf = seq<Option<real>> -> Option<real>

  /** The sigma of the box around centre `c`, a zero sigma counting as missing. */
  function BoxSigma(residuals: seq<Option<real>>, c: nat, p: nat, sigmaOf: SigmaOf): (s: Option<real>)
    requires p > 0 && c < |residuals|
    ensures s.Some? <==> sigmaOf(residuals[WindowStart(c, p)..WindowEnd(c, p, |residuals|)]).Some? &&
                         sigmaOf(residuals[WindowStart(c, p)..WindowEnd(c, p, |residuals|)]).value != 0.0
    ensures s.Some? ==> s == sigmaOf(residuals[WindowStart(c, p)..WindowEnd(c, p, |residuals|)])
  {
    var sigma := sigmaOf(residuals[WindowStart(c, p)..WindowEnd(c, p, |residuals|)]);
    if sigma == Some(0.0) then None else sigma
  }

  ghost predicate StrictlyIncreasing(xs: seq<real>)
  {
    forall i, j :: 0 <= i < j < |xs| ==> xs[i] < xs[j]
  }

  /** `indices[good]` and `sigma[good]`: the centres with a valid sigma, and
      those sigmas. */
  function Knots(centres: seq<nat>, sigmas: seq<Option<real>>): (k: (seq<real>, seq<real>))
    requires |centres| == |sigmas|
    ensures |k.0| == |k.1| <= |centres|
  {
    if |centres| == 0 then ([], [])
    else
      var rest := Knots(centres[1..], sigmas[1..]);
      if sigmas[0].Some? then ([centres[0] as real] + rest.0, [sigmas[0].value] + rest.1) else rest
  }

  /** The number of valid sigmas (`np.sum(good)`). */
  function CountValid(sigmas: seq<Option<real>>): nat
  {
    if |sigmas| == 0 then 0 else (if sigmas[0].Some? then 1 else 0) + CountValid(sigmas[1..])
  }

  lemma {:induction false} KnotsCount(centres: seq<nat>, sigmas: seq<Option<real>>)
    requires |centres| == |sigmas|
    ensures |Knots(centres, sigmas).0| == CountValid(sigmas)
  {
    if |centres| > 0 {
      KnotsCount(centres[1..], sigmas[1..]);
    }
  }

  ghost predicate IncreasingNats(cs: seq<nat>)
  {
    forall i, j :: 0 <= i < j < |cs| ==> cs[i] < cs[j]
  }

  /** Knots taken from increasing centres are increasing, and each starts at
      or after the first centre. */
  lemma {:induction false} KnotsIncreasing(centres: seq<nat>, sigmas: seq<Option<real>>)
    requires |centres| == |sigmas| && IncreasingNats(centres)
    ensures StrictlyIncreasing(Knots(centres, sigmas).0)
    ensures forall i :: 0 <= i < |Knots(centres, sigmas).0| ==> centres[0] as real <= Knots(centres, sigmas).0[i]
  {
    if |centres| > 0 {
      var tail := centres[1..];
      KnotsIncreasing(tail, sigmas[1..]);
      var rest := Knots(tail, sigmas[1..]);
      if |tail| > 0 {
        assert forall i :: 0 <= i < |rest.0| ==> centres[0] as real < rest.0[i];
      }
    }
  }

  /** Every valid sigma is a knot at its own centre, and every knot value is a
      valid sigma. */
  lemma {:induction false} KnotsAreValidSigmas(centres: seq<nat>, sigmas: seq<Option<real>>)
    requires |centres| == |sigmas|
    ensures forall i :: 0 <= i < |Knots(centres, sigmas).1| ==> Some(Knots(centres, sigmas).1[i]) in sigmas
    ensures forall j :: 0 <= j < |sigmas| && sigmas[j].Some? ==>
              exists i :: 0 <= i < |Knots(centres, sigmas).0| &&
                Knots(centres, sigmas).0[i] == centres[j] as real && Knots(centres, sigmas).1[i] == sigmas[j].value
  {
    if |centres| > 0 {
      KnotsAreValidSigmas(centres[1..], sigmas[1..]);
      var rest := Knots(centres[1..], sigmas[1..]);
      var k := Knots(centres, sigmas);
      forall j | 0 <= j < |sigmas| && sigmas[j].Some?
        ensures exists i :: 0 <= i < |k.0| && k.0[i] == centres[j] as real && k.1[i] == sigmas[j].value
      {
        if j == 0 {
          assert k.0[0] == centres[0] as real && k.1[0] == sigmas[0].value;
        } else {
          assert sigmas[1..][j - 1] == sigmas[j] && centres[1..][j - 1] == centres[j];
          var i :| 0 <= i < |rest.0| && rest.0[i] == centres[j] as real && rest.1[i] == sigmas[j].value;
          if sigmas[0].Some? {
            assert k.0[i + 1] == rest.0[i] && k.1[i + 1] == rest.1[i];
          } else {
            assert k == rest;
          }
        }
      }
      forall i | 0 <= i < |k.1| ensures Some(k.1[i]) in sigmas {
        if sigmas[0].Some? && i == 0 {
        } else {
          var i' := if sigmas[0].Some? then i - 1 else i;
          assert k.1[i] == rest.1[i'];
          assert Some(rest.1[i']) in sigmas[1..];
        }
      }
    }
  }

  /** Linear interpolation through the knots, constant beyond either end
      (a degree-1 interpolating spline with boundary extrapolation). */
  function Interp(xs: seq<real>, ys: seq<real>, x: real): real
    requires |xs| == |ys| > 0 && StrictlyIncreasing(xs)
  {
    if |xs| == 1 || x <= xs[0] then ys[0]
    else if x <= xs[1] then ys[0] + (ys[1] - ys[0]) * ((x - xs[0]) / (xs[1] - xs[0]))
    else Interp(xs[1..], ys[1..], x)
  }

  lemma FractionInUnit(x0: real, x1: real, x: real)
    requires x0 < x <= x1
    ensures 0.0 < (x - x0) / (x1 - x0) <= 1.0
  {
  }

  lemma ScaledWithin(d: real, t: real)
    requires 0.0 <= t <= 1.0
    ensures d >= 0.0 ==> 0.0 <= d * t <= d
    ensures d < 0.0 ==> d <= d * t <= 0.0
  {
    assert d - d * t == d * (1.0 - t);
  }

  lemma BetweenEnds(y0: real, y1: real, t: real, lo: real, hi: real)
    requires 0.0 <= t <= 1.0 && lo <= y0 <= hi && lo <= y1 <= hi
    ensures lo <= y0 + (y1 - y0) * t <= hi
  {
    var d := y1 - y0;
    ScaledWithin(d, t);
    var m := d * t;
    if d >= 0.0 {
      assert y0 <= y0 + m <= y1;
    } else {
      assert y1 <= y0 + m <= y0;
    }
  }

  /** The interpolant never leaves the range of the knot values. */
  lemma {:induction false} InterpWithinRange(xs: seq<real>, ys: seq<real>, x: real, lo: real, hi: real)
    requires |xs| == |ys| > 0 && StrictlyIncreasing(xs)
    requires forall i :: 0 <= i < |ys| ==> lo <= ys[i] <= hi
    ensures lo <= Interp(xs, ys, x) <= hi
  {
    if |xs| == 1 || x <= xs[0] {
    } else if x <= xs[1] {
      FractionInUnit(xs[0], xs[1], x);
      BetweenEnds(ys[0], ys[1], (x - xs[0]) / (xs[1] - xs[0]), lo, hi);
    } else {
      InterpWithinRange(xs[1..], ys[1..], x, lo, hi);
    }
  }

  /** The interpolant passes through every knot. */
  lemma {:induction false} InterpAtKnot(xs: seq<real>, ys: seq<real>, i: nat)
    requires |xs| == |ys| > i && StrictlyIncreasing(xs)
    ensures Interp(xs, ys, xs[i]) == ys[i]
  {
    if i == 1 {
      var d := xs[1] - xs[0];
      assert xs[0] < xs[1] && d != 0.0;
      assert d / d == 1.0;
      assert Interp(xs, ys, xs[1]) == ys[0] + (ys[1] - ys[0]) * (d / d);
    } else if i > 1 {
      assert xs[0] < xs[1] < xs[i];
      InterpAtKnot(xs[1..], ys[1..], i - 1);
    }
  }

  /** One row of the noise model from the box sigmas: the interpolant at every
      pixel when more than two sigmas are valid, all missing otherwise. */
  function RowFromSigmas(n: nat, centres: seq<nat>, sigmas: seq<Option<real>>): (row: seq<Option<real>>)
    requires |centres| == |sigmas| && IncreasingNats(centres)
    ensures |row| == n
    ensures forall x :: 0 <= x < n ==> (row[x].Some? <==> CountValid(sigmas) > 2)
  {
    KnotsCount(centres, sigmas);
    var k := Knots(centres, sigmas);
    if CountValid(sigmas) > 2 then
      KnotsIncreasing(centres, sigmas);
      seq(n, x => Some(Interp(k.0, k.1, x as real)))
    else Fill(n, None)
  }

  function Sigmas(residuals: seq<Option<real>>, p: nat, sigmaOf: SigmaOf): (s: seq<Option<real>>)
    requires p > 0
    ensures |s| == |Centres(|residuals|, p)|
  {
    var c := Centres(|residuals|, p);
    seq(|c|, k requires 0 <= k < |c| =>
      CentreInOrder(|residuals|, p, k);
      BoxSigma(residuals, c[k], p, sigmaOf))
  }

  lemma CentreInOrder(n: nat, p: nat, k: nat)
    requires p > 0 && k < |Centres(n, p)|
    ensures Centres(n, p)[k] < n
  {
    CentresAreMultiples(n, p, Centres(n, p)[k]);
  }

  lemma CentresIncreasing(n: nat, p: nat)
    requires p > 0
    ensures IncreasingNats(Centres(n, p))
  {
    var c := Centres(n, p);
    forall i, j | 0 <= i < j < |c| ensures c[i] < c[j] {
      assert c[j] - c[i] == (j - i) * p;
    }
  }

  /** The noise row of one order. */
  function NoiseRow(spectrum: seq<Option<real>>, model: seq<Option<real>>, p: nat, sigmaOf: SigmaOf): (row: seq<Option<real>>)
    requires p > 0 && |spectrum| == |model|
    ensures |row| == |model|
  {
    CentresIncreasing(|model|, p);
    RowFromSigmas(|model|, Centres(|model|, p), Sigmas(Residuals(spectrum, model), p, sigmaOf))
  }

  ghost predicate Shaped(rows: seq<seq<Option<real>>>, orders: nat, n: nat)
  {
    |rows| == orders && forall o :: 0 <= o < orders ==> |rows[o]| == n
  }

  /** The noise model of every order. */
  function Noise(spectrum: seq<seq<Option<real>>>, model: seq<seq<Option<real>>>, n: nat, p: nat, sigmaOf: SigmaOf)
    : (rms: seq<seq<Option<real>>>)
    requires p > 0 && Shaped(spectrum, |spectrum|, n) && Shaped(model, |spectrum|, n)
    ensures Shaped(rms, |spectrum|, n)
  {
    seq(|spectrum|, o requires 0 <= o < |spectrum| => NoiseRow(spectrum[o], model[o], p, sigmaOf))
  }

  /** The loop of `estimate_noise_model`: per order, the residuals, the box
      sigmas filled centre by centre, then the interpolated row. */
  method EstimateNoiseModel(spectrum: seq<seq<Option<real>>>, model: seq<seq<Option<real>>>, n: nat, p: nat,
                            sigmaOf: SigmaOf)
    returns (rms: seq<seq<Option<real>>>)
    requires p > 0 && Shaped(spectrum, |spectrum|, n) && Shaped(model, |spectrum|, n)
    ensures rms == Noise(spectrum, model, n, p, sigmaOf)
  {
    rms := Fill(|spectrum|, Fill(n, Some(0.0)));
    for o := 0 to |spectrum|
      invariant |rms| == |spectrum|
      invariant forall q :: 0 <= q < o ==> rms[q] == NoiseRow(spectrum[q], model[q], p, sigmaOf)
    {
      var residuals := Residuals(spectrum[o], model[o]);
      var indices := Centres(n, p);
      var sigma := new Option<real>[|indices|](_ => Some(0.0));
      for it := 0 to |indices|
        invariant forall k :: 0 <= k < it ==> sigma[k] == Sigmas(residuals, p, sigmaOf)[k]
      {
        CentreInOrder(n, p, it);
        var istart: int := indices[it] - p;
        var iend := indices[it] + p;
        if istart < 0 {
          istart := 0;
        }
        if iend > n {
          iend := n;
        }
        sigma[it] := sigmaOf(residuals[istart..iend]);
        if sigma[it] == Some(0.0) {
          sigma[it] := None;
        }
      }
      assert sigma[..] == Sigmas(residuals, p, sigmaOf);
      CentresIncreasing(n, p);
      rms := rms[o := RowFromSigmas(n, indices, sigma[..])];
    }
    assert forall q :: 0 <= q < |spectrum| ==> rms[q] == Noise(spectrum, model, n, p, sigmaOf)[q];
  }

  /** Every pixel of a row is missing when two or fewer boxes gave a valid
      sigma, and present otherwise. */
  lemma SparseRowsAreMissing(spectrum: seq<Option<real>>, model: seq<Option<real>>, p: nat, sigmaOf: SigmaOf, x: nat)
    requires p > 0 && |spectrum| == |model| && x < |model|
    ensures NoiseRow(spectrum, model, p, sigmaOf)[x].Some? <==>
            CountValid(Sigmas(Residuals(spectrum, model), p, sigmaOf)) > 2
  {
  }

  /** Where a row is present, it passes through the valid sigma of every box
      at the box's centre. */
  lemma RowMatchesBoxSigma(spectrum: seq<Option<real>>, model: seq<Option<real>>, p: nat, sigmaOf: SigmaOf, k: nat)
    requires p > 0 && |spectrum| == |model|
    requires k < |Centres(|model|, p)|
    requires CountValid(Sigmas(Residuals(spectrum, model), p, sigmaOf)) > 2
    requires Sigmas(Residuals(spectrum, model), p, sigmaOf)[k].Some?
    ensures Centres(|model|, p)[k] < |model|
    ensures NoiseRow(spectrum, model, p, sigmaOf)[Centres(|model|, p)[k]] ==
            Sigmas(Residuals(spectrum, model), p, sigmaOf)[k]
  {
    var c := Centres(|model|, p);
    var s := Sigmas(Residuals(spectrum, model), p, sigmaOf);
    CentreInOrder(|model|, p, k);
    CentresIncreasing(|model|, p);
    KnotsCount(c, s);
    KnotsIncreasing(c, s);
    KnotsAreValidSigmas(c, s);
    var kn := Knots(c, s);
    var i :| 0 <= i < |kn.0| && kn.0[i] == c[k] as real && kn.1[i] == s[k].value;
    InterpAtKnot(kn.0, kn.1, i);
  }

  /** A row present from box sigmas in `(0, hi]` stays in `(0, hi]`. */
  lemma RowWithinRange(n: nat, centres: seq<nat>, sigmas: seq<Option<real>>, x: nat, hi: real)
    requires |centres| == |sigmas| && IncreasingNats(centres) && x < n
    requires forall s :: s in sigmas && s.Some? ==> 0.0 < s.value <= hi
    requires RowFromSigmas(n, centres, sigmas)[x].Some?
    ensures 0.0 < RowFromSigmas(n, centres, sigmas)[x].value <= hi
  {
    KnotsCount(centres, sigmas);
    KnotsIncreasing(centres, sigmas);
    KnotsAreValidSigmas(centres, sigmas);
    var kn := Knots(centres, sigmas);
    forall i | 0 <= i < |kn.1| ensures 0.0 < kn.1[i] <= hi {
      assert Some(kn.1[i]) in sigmas;
    }
    var lo := MinOf(kn.1);
    InterpWithinRange(kn.0, kn.1, x as real, lo, hi);
  }

  /** With a non-negative estimator every valid box sigma is positive. */
  lemma SigmasPositive(residuals: seq<Option<real>>, p: nat, sigmaOf: SigmaOf)
    requires p > 0
    requires forall w :: sigmaOf(w).Some? ==> sigmaOf(w).value >= 0.0
    ensures forall s :: s in Sigmas(residuals, p, sigmaOf) && s.Some? ==> s.value > 0.0
  {
    var sig := Sigmas(residuals, p, sigmaOf);
    forall s | s in sig && s.Some? ensures s.value > 0.0 {
      var k :| 0 <= k < |sig| && sig[k] == s;
      CentreInOrder(|residuals|, p, k);
    }
  }

  /** With a non-negative sigma estimator, every present value of the noise
      model is strictly positive and no larger than the largest valid box
      sigma. */
  lemma NoiseWithinSigmaRange(spectrum: seq<Option<real>>, model: seq<Option<real>>, p: nat, sigmaOf: SigmaOf,
                              x: nat, hi: real)
    requires p > 0 && |spectrum| == |model| && x < |model|
    requires forall w :: sigmaOf(w).Some? ==> sigmaOf(w).value >= 0.0
    requires forall s :: s in Sigmas(Residuals(spectrum, model), p, sigmaOf) && s.Some? ==> s.value <= hi
    requires NoiseRow(spectrum, model, p, sigmaOf)[x].Some?
    ensures 0.0 < NoiseRow(spectrum, model, p, sigmaOf)[x].value <= hi
  {
    var s := Sigmas(Residuals(spectrum, model), p, sigmaOf);
    SigmasPositive(Residuals(spectrum, model), p, sigmaOf);
    CentresIncreasing(|model|, p);
    RowWithinRange(|model|, Centres(|model|, p), s, x, hi);
  }
}
