/** The standard k grid `np.arange(k_min, k_max + k_step, k_step)` and the
    resampling of one stored chi(k) signal onto it with
    `interp1d(k_grid, chi_values, kind='cubic', bounds_error=False, fill_value=0.0)`. */
module Resampling {
  import opened ChiTypes

  const DefaultKMin: real := 0.0
  const DefaultKMax: real := 20.0
  const DefaultKStep: real := 0.05

  /** The number of points of `np.arange(kMin, kMax + kStep, kStep)`: the least
      count whose next point would reach the exclusive stop `kMax + kStep`. */
  function GridCount(kMin: real, kMax: real, kStep: real): (n: nat)
    requires kStep > 0.0
    ensures kMin + (n as real) * kStep >= kMax + kStep
    ensures n > 0 ==> kMin + ((n - 1) as real) * kStep < kMax + kStep
  {
    var span := (kMax + kStep - kMin) / kStep;
    DivideThenMultiply(kMax + kStep - kMin, kStep);
    if span <= 0.0 then
      NonPositiveTimesPositive(span, kStep);
      0
    else
      var f := (-span).Floor;
      var n := -f;
      assert n as real >= span && (n - 1) as real < span;
      TimesMonotone(span, n as real, kStep);
      TimesStrictMonotone((n - 1) as real, span, kStep);
      assert ((n - 1) as real) * kStep < kMax + kStep - kMin;
      assert (n as real) * kStep >= kMax + kStep - kMin;
      n
  }

  lemma DivideThenMultiply(x: real, d: real)
    requires d != 0.0
    ensures (x / d) * d == x
  {
  }

  lemma NonPositiveTimesPositive(a: real, b: real)
    requires a <= 0.0 && b > 0.0
    ensures a * b <= 0.0
  {
  }

  lemma TimesMonotone(a: real, b: real, s: real)
    requires a <= b && s > 0.0
    ensures a * s <= b * s
  {
  }

  lemma TimesStrictMonotone(a: real, b: real, s: real)
    requires a < b && s > 0.0
    ensures a * s < b * s
  {
  }

  /** `np.arange(kMin, kMax + kStep, kStep)`, over exact reals. */
  function StandardGrid(kMin: real, kMax: real, kStep: real): (g: seq<real>)
    requires kStep > 0.0
    ensures |g| == GridCount(kMin, kMax, kStep)
    ensures forall i :: 0 <= i < |g| ==> g[i] == kMin + (i as real) * kStep
  {
    seq(GridCount(kMin, kMax, kStep), i => kMin + (i as real) * kStep)
  }

  /** Every grid point lies in [kMin, kMax + kStep). */
  lemma GridWithinRange(kMin: real, kMax: real, kStep: real, i: nat)
    requires kStep > 0.0 && i < GridCount(kMin, kMax, kStep)
    ensures kMin <= StandardGrid(kMin, kMax, kStep)[i] < kMax + kStep
  {
    var g := StandardGrid(kMin, kMax, kStep);
    assert g[i] == kMin + (i as real) * kStep;
    PointBelowLast(kMin, kMax + kStep, kStep, |g|, i);
  }

  /** The i-th point of an arithmetic progression whose last point stays below a bound. */
  lemma PointBelowLast(kMin: real, bound: real, kStep: real, n: nat, i: nat)
    requires kStep > 0.0 && i < n
    requires kMin + ((n - 1) as real) * kStep < bound
    ensures kMin <= kMin + (i as real) * kStep < bound
  {
    TimesMonotone(0.0, i as real, kStep);
    TimesMonotone(i as real, (n - 1) as real, kStep);
  }

  /** Consecutive grid points are kStep apart. */
  lemma GridSpacing(kMin: real, kMax: real, kStep: real, i: nat)
    requires kStep > 0.0 && 0 < i < GridCount(kMin, kMax, kStep)
    ensures StandardGrid(kMin, kMax, kStep)[i] == StandardGrid(kMin, kMax, kStep)[i - 1] + kStep
  {
    assert (i as real) * kStep == ((i - 1) as real) * kStep + kStep;
  }

  /** Whenever kMin <= kMax the grid starts at kMin and its last point reaches kMax
      (inclusive endpoint: it may overshoot kMax by less than one step). */
  lemma GridReachesKMax(kMin: real, kMax: real, kStep: real)
    requires kStep > 0.0 && kMin <= kMax
    ensures var g := StandardGrid(kMin, kMax, kStep);
      |g| > 0 && g[0] == kMin && kMax <= g[|g| - 1] < kMax + kStep
  {
    var n := GridCount(kMin, kMax, kStep);
    assert ((n - 1) as real) * kStep + kStep == (n as real) * kStep;
  }

  /** The grid of k_min = 0, k_max = 1, k_step = 0.5. */
  lemma HalfStepGridExample()
    ensures StandardGrid(0.0, 1.0, 0.5) == [0.0, 0.5, 1.0]
  {
    var n := GridCount(0.0, 1.0, 0.5);
    assert n == 3;
  }

  /** The smallest value of a non-empty sequence. */
  function SeqMin(s: seq<real>): (m: real)
    requires |s| > 0
    ensures m in s
    ensures forall i :: 0 <= i < |s| ==> m <= s[i]
  {
    if |s| == 1 then s[0]
    else
      var rest := SeqMin(s[1..]);
      if s[0] <= rest then s[0] else rest
  }

  /** The largest value of a non-empty sequence. */
  function SeqMax(s: seq<real>): (m: real)
    requires |s| > 0
    ensures m in s
    ensures forall i :: 0 <= i < |s| ==> s[i] <= m
  {
    if |s| == 1 then s[0]
    else
      var rest := SeqMax(s[1..]);
      if s[0] >= rest then s[0] else rest
  }

  /** `x` lies in [min(k_grid), max(k_grid)], where the spline is evaluated;
      outside it interp1d returns its fill value. */
  predicate InDomain(k: seq<real>, x: real) {
    |k| > 0 && SeqMin(k) <= x <= SeqMax(k)
  }

  /** `interp1d(...)(standard_k)`: one value per grid point, the spline's value
      inside the signal's own k range and the fill value 0.0 outside it. */
  function Resample(sig: RawSignal, grid: seq<real>, spline: Spline): (r: seq<real>)
    ensures |r| == |grid|
    ensures forall i :: 0 <= i < |grid| && !InDomain(sig.k, grid[i]) ==> r[i] == 0.0
  {
    seq(|grid|, i requires 0 <= i < |grid| =>
      if InDomain(sig.k, grid[i]) then spline(sig.k, sig.chi, grid[i]) else 0.0)
  }

  /** At a grid point that coincides with one of the signal's own samples, the
      resampled value is that sample, provided the spline passes through it. */
  lemma ResampleAtSample(sig: RawSignal, grid: seq<real>, spline: Spline, i: nat, j: nat)
    requires i < |grid| && j < |sig.k| && j < |sig.chi|
    requires grid[i] == sig.k[j]
    requires spline(sig.k, sig.chi, sig.k[j]) == sig.chi[j]
    ensures Resample(sig, grid, spline)[i] == sig.chi[j]
  {
  }
}
