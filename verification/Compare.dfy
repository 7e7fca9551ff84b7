/** Comparing two recorded runs (`duration`, `compatibility` and `compareBenchmarkRuns`, src/benchmark/compare.ts). */
module Compare {
  import opened BenchTypes
  import opened Sorting
  import opened Strings
  import opened Report
  import opened Summary

  // ---------------------------------------------------------------- durations

  predicate RealLe(a: real, b: real) { a <= b }

  function Durations(trials: seq<Trial>): (v: seq<real>)
    ensures |v| == |trials| && forall i :: 0 <= i < |v| ==> v[i] == trials[i].result.durationMs
  {
    seq(|trials|, i requires 0 <= i < |trials| => trials[i].result.durationMs)
  }

  function Median(values: seq<real>): real
    requires values != []
  {
    var middle := |values| / 2;
    if |values| % 2 == 1 then values[middle] else values[middle - 1] / 2.0 + values[middle] / 2.0
  }

  datatype DurationSummary = DurationSummary(
    observedTrials: nat,
    complete: bool,
    meanMs: Option<real>,
    medianMs: Option<real>,
    minMs: Option<real>,
    maxMs: Option<real>)

  function Average(values: seq<real>): real
    requires values != []
  {
    Sum(values) / |values| as real
  }

  function Describe(values: seq<real>, complete: bool): DurationSummary {
    if values == [] then DurationSummary(0, complete, None, None, None, None)
    else DurationSummary(|values|, complete, Some(Average(values)), Some(Median(values)), Some(values[0]), Some(values[|values| - 1]))
  }

  function Duration(run: RunRecord, complete: bool): DurationSummary {
    Describe(SortBy(Durations(run.trials), RealLe), complete)
  }

  lemma {:induction false} SumAppend(values: seq<real>, x: real)
    ensures Sum(values + [x]) == Sum(values) + x
  {
    if values == [] {
      assert values + [x] == [x];
      assert [x][1..] == [];
    } else {
      assert (values + [x])[1..] == values[1..] + [x];
      SumAppend(values[1..], x);
    }
  }

  lemma MeanStep(mean: real, sum: real, x: real, n: nat)
    requires n >= 1 && mean * (n - 1) as real == sum
    ensures (mean + (x - mean) / n as real) * n as real == sum + x
  {
    var m := n as real;
    assert ((x - mean) / m) * m == x - mean;
  }

  lemma Divide(mean: real, n: real, sum: real)
    requires n != 0.0 && mean * n == sum
    ensures mean == sum / n
  {}

  /** The fold `mean + (value - mean) / (index + 1)` computes the mean. */
  method RunningMean(values: seq<real>) returns (mean: real)
    requires values != []
    ensures mean == Average(values)
  {
    mean := 0.0;
    for index := 0 to |values|
      invariant mean * index as real == Sum(values[..index])
    {
      assert values[..index + 1] == values[..index] + [values[index]];
      SumAppend(values[..index], values[index]);
      MeanStep(mean, Sum(values[..index]), values[index], index + 1);
      mean := mean + (values[index] - mean) / (index + 1) as real;
    }
    assert values[..|values|] == values;
    Divide(mean, |values| as real, Sum(values));
  }

  method DescribeDurations(run: RunRecord, complete: bool) returns (d: DurationSummary)
    ensures d == Duration(run, complete)
  {
    var values := SortBy(Durations(run.trials), RealLe);
    if values == [] { return DurationSummary(0, complete, None, None, None, None); }
    var mean := RunningMean(values);
    return DurationSummary(|values|, complete, Some(mean), Some(Median(values)), Some(values[0]), Some(values[|values| - 1]));
  }

  lemma {:induction false} SumBounds(values: seq<real>, lo: real, hi: real)
    requires forall i :: 0 <= i < |values| ==> lo <= values[i] <= hi
    ensures lo * |values| as real <= Sum(values) <= hi * |values| as real
  {
    if values != [] { SumBounds(values[1..], lo, hi); }
  }

  lemma MeanWithin(sum: real, n: real, lo: real, hi: real)
    requires n > 0.0 && lo * n <= sum <= hi * n
    ensures lo <= sum / n <= hi
  {}

  lemma RealOrder()
    ensures TotalPreorder(RealLe)
  {}

  lemma SortedRange(values: seq<real>)
    requires values != [] && SortedBy(values, RealLe)
    ensures forall i :: 0 <= i < |values| ==> values[0] <= values[i] <= values[|values| - 1]
  {
    forall i | 0 <= i < |values| ensures values[0] <= values[i] <= values[|values| - 1] {
      if i > 0 { assert RealLe(values[0], values[i]); }
      if i < |values| - 1 { assert RealLe(values[i], values[|values| - 1]); }
    }
  }

  /** Sums do not depend on the order. */
  lemma {:induction false} SumPermutes(s: seq<real>, t: seq<real>)
    requires multiset(s) == multiset(t)
    ensures Sum(s) == Sum(t)
    decreases s
  {
    if s == [] {
      MultisetSize(s);
      MultisetSize(t);
    } else {
      assert s[0] in multiset(t);
      var k :| 0 <= k < |t| && t[k] == s[0];
      RemoveSame(s, t, k);
      SumPermutes(s[1..], t[..k] + t[k + 1..]);
      SumSplit(t, k);
    }
  }

  lemma {:induction false} SumConcat(a: seq<real>, b: seq<real>)
    ensures Sum(a + b) == Sum(a) + Sum(b)
  {
    if a == [] {
      assert a + b == b;
    } else {
      assert (a + b)[1..] == a[1..] + b;
      SumConcat(a[1..], b);
    }
  }

  lemma SumSplit(t: seq<real>, k: nat)
    requires k < |t|
    ensures Sum(t) == Sum(t[..k] + t[k + 1..]) + t[k]
  {
    var tail := [t[k]] + t[k + 1..];
    assert t == t[..k] + tail && tail[1..] == t[k + 1..];
    SumConcat(t[..k], tail);
    SumConcat(t[..k], t[k + 1..]);
  }

  lemma MedianWithin(values: seq<real>)
    requires values != [] && SortedBy(values, RealLe)
    ensures values[0] <= Median(values) <= values[|values| - 1]
  {
    SortedRange(values);
  }

  lemma AverageWithin(values: seq<real>)
    requires values != [] && SortedBy(values, RealLe)
    ensures values[0] <= Average(values) <= values[|values| - 1]
  {
    SortedRange(values);
    SumBounds(values, values[0], values[|values| - 1]);
    MeanWithin(Sum(values), |values| as real, values[0], values[|values| - 1]);
  }

  lemma SortedDurations(plain: seq<real>)
    ensures var values := SortBy(plain, RealLe);
      |values| == |plain| && SortedBy(values, RealLe) && Sum(values) == Sum(plain)
  {
    var values := SortBy(plain, RealLe);
    MultisetSize(plain);
    MultisetSize(values);
    RealOrder();
    SortBySorts(plain, RealLe);
    SumPermutes(values, plain);
  }

  ghost predicate WithinExtremes(d: DurationSummary) {
    && d.minMs.Some? && d.maxMs.Some? && d.meanMs.Some? && d.medianMs.Some?
    && d.minMs.value <= d.meanMs.value <= d.maxMs.value
    && d.minMs.value <= d.medianMs.value <= d.maxMs.value
  }

  /** Between two halves of one size: none of the first is above `m`, none of the second below. */
  ghost predicate Halves(low: seq<real>, m: real, high: seq<real>) {
    |low| == |high| && (forall x :: x in low ==> x <= m) && (forall x :: x in high ==> m <= x)
  }

  ghost predicate Greatest(x: real, values: seq<real>) { x in values && forall y :: y in values ==> y <= x }

  ghost predicate Least(x: real, values: seq<real>) { x in values && forall y :: y in values ==> x <= y }

  ghost predicate Midpoint(low: seq<real>, m: real, high: seq<real>) {
    exists lo, hi :: Greatest(lo, low) && Least(hi, high) && m + m == lo + hi
  }

  /**
   * The values, in some order, are a lower half, the median and an upper half; an even number of them are the two
   * halves alone, and the median is midway between the greatest below and the least above. So at most half of the
   * values lie strictly on either side.
   */
  ghost predicate SplitsAt(values: seq<real>, low: seq<real>, m: real, high: seq<real>) {
    && Halves(low, m, high)
    && (|values| % 2 == 1 ==> multiset(values) == multiset(low + [m] + high))
    && (|values| % 2 == 0 ==> multiset(values) == multiset(low + high) && Midpoint(low, m, high))
  }

  ghost predicate IsMedian(values: seq<real>, m: real) { exists low, high :: SplitsAt(values, low, m, high) }

  lemma SortedLe(values: seq<real>, i: nat, j: nat)
    requires SortedBy(values, RealLe) && i <= j < |values|
    ensures values[i] <= values[j]
  {
    if i < j { assert RealLe(values[i], values[j]); }
  }

  /** Everything before a place is at most what stands there, everything after at least that. */
  lemma AroundPlace(values: seq<real>, k: nat)
    requires SortedBy(values, RealLe) && k < |values|
    ensures forall x :: x in values[..k] ==> x <= values[k]
    ensures forall x :: x in values[k..] ==> values[k] <= x
  {
    forall x | x in values[..k] ensures x <= values[k] {
      var i :| 0 <= i < k && values[i] == x;
      SortedLe(values, i, k);
    }
    forall x | x in values[k..] ensures values[k] <= x {
      var i :| 0 <= i < |values| - k && values[k..][i] == x;
      SortedLe(values, k, k + i);
    }
  }

  lemma SortedMedian(values: seq<real>)
    requires values != [] && SortedBy(values, RealLe)
    ensures IsMedian(values, Median(values))
  {
    if |values| % 2 == 1 { OddMedian(values); } else { EvenMedian(values); }
  }

  lemma OddMedian(values: seq<real>)
    requires |values| % 2 == 1 && SortedBy(values, RealLe)
    ensures IsMedian(values, Median(values))
  {
    var n := |values| / 2;
    var low, m, high := values[..n], values[n], values[n + 1..];
    AroundPlace(values, n);
    forall x | x in high ensures m <= x { assert x in values[n..]; }
    assert values == low + [m] + high;
    assert SplitsAt(values, low, m, high);
  }

  lemma EvenMedian(values: seq<real>)
    requires values != [] && |values| % 2 == 0 && SortedBy(values, RealLe)
    ensures IsMedian(values, Median(values))
  {
    var n := |values| / 2;
    var low, high := values[..n], values[n..];
    var lo, m, hi := values[n - 1], Median(values), values[n];
    AroundPlace(values, n - 1);
    AroundPlace(values, n);
    SortedLe(values, n - 1, n);
    assert low == values[..n - 1] + [lo];
    assert Greatest(lo, low) && Least(hi, high) by { assert low[n - 1] == lo && high[0] == hi; }
    assert lo <= m <= hi && m + m == lo + hi;
    HalvesMeet(low, lo, m, hi, high);
    assert values == low + high;
    assert SplitsAt(values, low, m, high);
  }

  lemma HalvesMeet(low: seq<real>, lo: real, m: real, hi: real, high: seq<real>)
    requires |low| == |high| && Greatest(lo, low) && Least(hi, high) && lo <= m <= hi && m + m == lo + hi
    ensures Halves(low, m, high) && Midpoint(low, m, high)
  {}

  lemma MedianPermutes(s: seq<real>, t: seq<real>, m: real)
    requires multiset(s) == multiset(t) && IsMedian(s, m)
    ensures IsMedian(t, m)
  {
    MultisetSize(s);
    MultisetSize(t);
    var low, high :| SplitsAt(s, low, m, high);
    assert SplitsAt(t, low, m, high);
  }

  /** How many values pass a test. */
  function Tally(values: seq<real>, p: real -> bool): nat {
    if values == [] then 0 else (if p(values[0]) then 1 else 0) + Tally(values[1..], p)
  }

  function LessThan(m: real): real -> bool { x => x < m }

  function MoreThan(m: real): real -> bool { x => m < x }

  lemma {:induction false} TallyConcat(a: seq<real>, b: seq<real>, p: real -> bool)
    ensures Tally(a + b, p) == Tally(a, p) + Tally(b, p)
  {
    if a == [] {
      assert a + b == b;
    } else {
      assert (a + b)[1..] == a[1..] + b;
      TallyConcat(a[1..], b, p);
    }
  }

  lemma {:induction false} TallyPermutes(s: seq<real>, t: seq<real>, p: real -> bool)
    requires multiset(s) == multiset(t)
    ensures Tally(s, p) == Tally(t, p)
    decreases s
  {
    if s == [] {
      MultisetSize(s);
      MultisetSize(t);
    } else {
      assert s[0] in multiset(t);
      var k :| 0 <= k < |t| && t[k] == s[0];
      RemoveSame(s, t, k);
      TallyPermutes(s[1..], t[..k] + t[k + 1..], p);
      TallySplit(t, k, p);
    }
  }

  lemma TallySplit(t: seq<real>, k: nat, p: real -> bool)
    requires k < |t|
    ensures Tally(t, p) == Tally(t[..k] + t[k + 1..], p) + (if p(t[k]) then 1 else 0)
  {
    var tail := [t[k]] + t[k + 1..];
    assert t == t[..k] + tail && tail[1..] == t[k + 1..];
    TallyConcat(t[..k], tail, p);
    TallyConcat(t[..k], t[k + 1..], p);
  }

  lemma {:induction false} TallyBounded(values: seq<real>, p: real -> bool)
    ensures Tally(values, p) <= |values|
  {
    if values != [] { TallyBounded(values[1..], p); }
  }

  lemma {:induction false} TallyNone(values: seq<real>, p: real -> bool)
    requires forall x :: x in values ==> !p(x)
    ensures Tally(values, p) == 0
  {
    if values != [] {
      var first := values[0];
      assert first in values && !p(first);
      forall x | x in values[1..] ensures !p(x) { assert x in values; }
      TallyNone(values[1..], p);
    }
  }

  /** At most half of the values lie strictly below the median, and at most half strictly above. */
  lemma MedianBalances(values: seq<real>, m: real)
    requires IsMedian(values, m)
    ensures 2 * Tally(values, LessThan(m)) <= |values| && 2 * Tally(values, MoreThan(m)) <= |values|
  {
    var low, high :| SplitsAt(values, low, m, high);
    var middle := if |values| % 2 == 1 then [m] else [];
    assert low + [] == low;
    MultisetSize(values);
    MultisetSize(low + middle + high);
    TallyThree(values, low, middle, high, LessThan(m));
    TallyThree(values, low, middle, high, MoreThan(m));
    TallyBounded(low, LessThan(m));
    TallyBounded(high, MoreThan(m));
    TallyNone(low, MoreThan(m));
    TallyNone(high, LessThan(m));
    TallyNone(middle, LessThan(m));
    TallyNone(middle, MoreThan(m));
  }

  lemma TallyThree(values: seq<real>, a: seq<real>, b: seq<real>, c: seq<real>, p: real -> bool)
    requires multiset(values) == multiset(a + b + c)
    ensures Tally(values, p) == Tally(a, p) + Tally(b, p) + Tally(c, p)
  {
    TallyPermutes(values, a + b + c, p);
    TallyConcat(a + b, c, p);
    TallyConcat(a, b, p);
  }

  /** What a duration summary says of the recorded durations. */
  ghost predicate DescribesDurations(d: DurationSummary, trials: seq<Trial>) {
    && d.observedTrials == |trials|
    && (trials == [] ==> d.meanMs.None? && d.medianMs.None? && d.minMs.None? && d.maxMs.None?)
    && (trials != [] ==>
          && d.meanMs == Some(Sum(Durations(trials)) / |trials| as real)
          && d.medianMs.Some? && IsMedian(Durations(trials), d.medianMs.value)
          && d.minMs.Some? && Least(d.minMs.value, Durations(trials))
          && d.maxMs.Some? && Greatest(d.maxMs.value, Durations(trials)))
  }

  lemma ExtremesOf(plain: seq<real>)
    requires plain != []
    ensures var values := SortBy(plain, RealLe);
      values != [] && Least(values[0], plain) && Greatest(values[|values| - 1], plain)
  {
    var values := SortBy(plain, RealLe);
    SortedDurations(plain);
    SortedRange(values);
    forall x ensures x in plain <==> x in values {
      assert x in multiset(plain) <==> x in multiset(values);
    }
  }

  /** Mean, median and extremes are those of the recorded durations, and lie between the extremes. */
  lemma DurationSound(run: RunRecord, complete: bool)
    ensures DescribesDurations(Duration(run, complete), run.trials) && Duration(run, complete).complete == complete
    ensures run.trials != [] ==> WithinExtremes(Duration(run, complete))
  {
    if run.trials == [] {
      assert Durations(run.trials) == [];
    } else {
      SortedDurations(Durations(run.trials));
      MedianOf(Durations(run.trials));
      ExtremesOf(Durations(run.trials));
      MedianWithin(SortBy(Durations(run.trials), RealLe));
      AverageWithin(SortBy(Durations(run.trials), RealLe));
    }
  }

  lemma MedianOf(plain: seq<real>)
    requires plain != []
    ensures SortBy(plain, RealLe) != [] && IsMedian(plain, Median(SortBy(plain, RealLe)))
  {
    var values := SortBy(plain, RealLe);
    SortedDurations(plain);
    SortedMedian(values);
    MedianPermutes(values, plain, Median(values));
  }

  // ---------------------------------------------------------------- compatibility

  datatype Side = Baseline | Candidate

  datatype Reason =
    | SuiteDiffers
    | PlanDiffers
    | MixedRuntimes(side: Side)
    | MixedRoutes(side: Side)
    | RuntimesDiffer
    | RoutesDiffer
    | MissingRuntime(side: Side)
    | NoRoute(side: Side)

  datatype Compatibility = Comparable | Incompatible | Unverified

  datatype Route = Route(provider: string, model: string)

  function Runtimes(run: RunRecord): set<Runtime> {
    set i | 0 <= i < |run.trials| && run.trials[i].result.runtime.Some? :: run.trials[i].result.runtime.value
  }

  function Routes(run: RunRecord): set<Route> {
    set i | 0 <= i < |run.trials| && run.trials[i].result.activation.Some? ::
      Route(run.trials[i].result.activation.value.provider, run.trials[i].result.activation.value.model)
  }

  predicate SamePlan(b: RunRecord, c: RunRecord) {
    && b.repetitions == c.repetitions && b.plannedTrials == c.plannedTrials
    && SortBy(b.caseIds, StringLe) == SortBy(c.caseIds, StringLe)
  }

  predicate RuntimeMissing(run: RunRecord) {
    run.trials == [] || exists i :: 0 <= i < |run.trials| && run.trials[i].result.runtime.None?
  }

  /** What the checks find about one run, and about the two together. */
  datatype SideFindings = SideFindings(mixedRuntimes: bool, mixedRoutes: bool, runtimeMissing: bool, noRoute: bool)

  datatype Findings = Findings(
    suiteDiffers: bool,
    planDiffers: bool,
    runtimesDiffer: bool,
    routesDiffer: bool,
    baseline: SideFindings,
    candidate: SideFindings)

  function FindingsOn(run: RunRecord): SideFindings {
    SideFindings(|Runtimes(run)| > 1, |Routes(run)| > 1, RuntimeMissing(run), |Routes(run)| == 0)
  }

  function FindingsOf(b: RunRecord, c: RunRecord): Findings {
    Findings(
      b.suiteId != c.suiteId || b.suiteDigest != c.suiteDigest,
      !SamePlan(b, c),
      |Runtimes(b)| == 1 && |Runtimes(c)| == 1 && Runtimes(b) != Runtimes(c),
      |Routes(b)| == 1 && |Routes(c)| == 1 && Routes(b) != Routes(c),
      FindingsOn(b), FindingsOn(c))
  }

  /** What each reason says. */
  predicate Applies(r: Reason, f: Findings) {
    match r
    case SuiteDiffers => f.suiteDiffers
    case PlanDiffers => f.planDiffers
    case RuntimesDiffer => f.runtimesDiffer
    case RoutesDiffer => f.routesDiffer
    case MixedRuntimes(side) => if side.Baseline? then f.baseline.mixedRuntimes else f.candidate.mixedRuntimes
    case MixedRoutes(side) => if side.Baseline? then f.baseline.mixedRoutes else f.candidate.mixedRoutes
    case MissingRuntime(side) => if side.Baseline? then f.baseline.runtimeMissing else f.candidate.runtimeMissing
    case NoRoute(side) => if side.Baseline? then f.baseline.noRoute else f.candidate.noRoute
  }

  // ---------------------------------------------------------------- what the reasons say of the two runs

  ghost predicate RanOn(run: RunRecord, i: nat, runtime: Runtime) {
    i < |run.trials| && run.trials[i].result.runtime == Some(runtime)
  }

  ghost predicate RoutedBy(run: RunRecord, i: nat, route: Route) {
    && i < |run.trials| && run.trials[i].result.activation.Some?
    && run.trials[i].result.activation.value.provider == route.provider && run.trials[i].result.activation.value.model == route.model
  }

  ghost predicate SomeRanOn(run: RunRecord, runtime: Runtime) { exists i: nat :: RanOn(run, i, runtime) }

  ghost predicate SomeRoutedBy(run: RunRecord, route: Route) { exists i: nat :: RoutedBy(run, i, route) }

  /** Every trial that says where it ran says this, and one does. */
  ghost predicate OnlyRanOn(run: RunRecord, runtime: Runtime) { forall other :: SomeRanOn(run, other) <==> other == runtime }

  ghost predicate OnlyRoutedBy(run: RunRecord, route: Route) { forall other :: SomeRoutedBy(run, other) <==> other == route }

  function SideRun(side: Side, b: RunRecord, c: RunRecord): RunRecord { if side.Baseline? then b else c }

  /** Each reason, said of the recorded trials and plans. */
  ghost predicate Holds(r: Reason, b: RunRecord, c: RunRecord) {
    match r
    case SuiteDiffers => b.suiteId != c.suiteId || b.suiteDigest != c.suiteDigest
    case PlanDiffers => b.repetitions != c.repetitions || b.plannedTrials != c.plannedTrials || multiset(b.caseIds) != multiset(c.caseIds)
    case MixedRuntimes(side) => exists x, y :: x != y && SomeRanOn(SideRun(side, b, c), x) && SomeRanOn(SideRun(side, b, c), y)
    case MixedRoutes(side) => exists x, y :: x != y && SomeRoutedBy(SideRun(side, b, c), x) && SomeRoutedBy(SideRun(side, b, c), y)
    case RuntimesDiffer => exists x, y :: x != y && OnlyRanOn(b, x) && OnlyRanOn(c, y)
    case RoutesDiffer => exists x, y :: x != y && OnlyRoutedBy(b, x) && OnlyRoutedBy(c, y)
    case MissingRuntime(side) => var run := SideRun(side, b, c); run.trials == [] || exists i :: 0 <= i < |run.trials| && run.trials[i].result.runtime.None?
    case NoRoute(side) => forall route :: !SomeRoutedBy(SideRun(side, b, c), route)
  }

  lemma SizeMeans<T(!new)>(s: set<T>)
    ensures |s| == 0 <==> forall x :: x !in s
    ensures |s| > 1 <==> exists x, y :: x != y && x in s && y in s
  {
    if s != {} {
      var x := SomeElement(s);
      var rest := s - {x};
      assert s == rest + {x} && |s| == |rest| + 1;
      if rest != {} {
        var y := SomeElement(rest);
        assert x != y && x in s && y in s;
      }
    }
  }

  lemma RuntimesMean(run: RunRecord, x: Runtime)
    ensures x in Runtimes(run) <==> SomeRanOn(run, x)
  {
    if x in Runtimes(run) {
      var i :| 0 <= i < |run.trials| && run.trials[i].result.runtime.Some? && run.trials[i].result.runtime.value == x;
      assert RanOn(run, i, x);
    }
  }

  lemma RoutesMean(run: RunRecord, x: Route)
    ensures x in Routes(run) <==> SomeRoutedBy(run, x)
  {
    if x in Routes(run) {
      var i :| 0 <= i < |run.trials| && run.trials[i].result.activation.Some?
        && Route(run.trials[i].result.activation.value.provider, run.trials[i].result.activation.value.model) == x;
      assert RoutedBy(run, i, x);
    }
    if SomeRoutedBy(run, x) {
      var i: nat :| RoutedBy(run, i, x);
      assert x == Route(run.trials[i].result.activation.value.provider, run.trials[i].result.activation.value.model);
    }
  }

  lemma OneSideMeans(run: RunRecord)
    ensures |Runtimes(run)| > 1 <==> exists x, y :: x != y && SomeRanOn(run, x) && SomeRanOn(run, y)
    ensures |Routes(run)| > 1 <==> exists x, y :: x != y && SomeRoutedBy(run, x) && SomeRoutedBy(run, y)
    ensures |Routes(run)| == 0 <==> forall x :: !SomeRoutedBy(run, x)
  {
    SizeMeans(Runtimes(run));
    SizeMeans(Routes(run));
    forall x ensures x in Runtimes(run) <==> SomeRanOn(run, x) { RuntimesMean(run, x); }
    forall x ensures x in Routes(run) <==> SomeRoutedBy(run, x) { RoutesMean(run, x); }
  }

  lemma SingleElement<T>(s: set<T>) returns (x: T)
    requires |s| == 1
    ensures s == {x}
  {
    x := SomeElement(s);
    assert |s - {x}| == 0;
    assert s == (s - {x}) + {x};
  }

  /** Two different single values, said of the sets and of their members. */
  lemma SinglesDiffer<T(!new)>(s: set<T>, t: set<T>)
    ensures (|s| == 1 && |t| == 1 && s != t) <==> exists x, y :: x != y && s == {x} && t == {y}
  {
    if |s| == 1 && |t| == 1 && s != t {
      var x := SingleElement(s);
      var y := SingleElement(t);
      assert s == {x} && t == {y};
    }
  }

  lemma RuntimesDifferMeans(b: RunRecord, c: RunRecord)
    ensures FindingsOf(b, c).runtimesDiffer <==> Holds(RuntimesDiffer, b, c)
  {
    SinglesDiffer(Runtimes(b), Runtimes(c));
    forall x ensures Runtimes(b) == {x} <==> OnlyRanOn(b, x) { OnlyRuntime(b, x); }
    forall x ensures Runtimes(c) == {x} <==> OnlyRanOn(c, x) { OnlyRuntime(c, x); }
  }

  lemma OnlyRuntime(run: RunRecord, x: Runtime)
    ensures Runtimes(run) == {x} <==> OnlyRanOn(run, x)
  {
    forall y ensures y in Runtimes(run) <==> SomeRanOn(run, y) { RuntimesMean(run, y); }
  }

  lemma RoutesDifferMeans(b: RunRecord, c: RunRecord)
    ensures FindingsOf(b, c).routesDiffer <==> Holds(RoutesDiffer, b, c)
  {
    SinglesDiffer(Routes(b), Routes(c));
    forall x ensures Routes(b) == {x} <==> OnlyRoutedBy(b, x) { OnlyRoute(b, x); }
    forall x ensures Routes(c) == {x} <==> OnlyRoutedBy(c, x) { OnlyRoute(c, x); }
  }

  lemma OnlyRoute(run: RunRecord, x: Route)
    ensures Routes(run) == {x} <==> OnlyRoutedBy(run, x)
  {
    forall y ensures y in Routes(run) <==> SomeRoutedBy(run, y) { RoutesMean(run, y); }
  }

  /** The findings of the checks are what the reasons say. */
  lemma ReasonMeans(b: RunRecord, c: RunRecord, r: Reason)
    ensures Applies(r, FindingsOf(b, c)) <==> Holds(r, b, c)
  {
    match r
    case SuiteDiffers =>
    case PlanDiffers => SortedTexts(b.caseIds, c.caseIds);
    case RuntimesDiffer => RuntimesDifferMeans(b, c);
    case RoutesDiffer => RoutesDifferMeans(b, c);
    case MixedRuntimes(side) => OneSideMeans(SideRun(side, b, c));
    case MixedRoutes(side) => OneSideMeans(SideRun(side, b, c));
    case MissingRuntime(side) =>
    case NoRoute(side) => OneSideMeans(SideRun(side, b, c));
  }

  predicate Blocks(r: Reason) { !r.MissingRuntime? && !r.NoRoute? }

  predicate SideBlocked(f: SideFindings) { f.mixedRuntimes || f.mixedRoutes }

  predicate SideOpen(f: SideFindings) { f.runtimeMissing || f.noRoute }

  function StatusOf(f: Findings): Compatibility {
    if f.suiteDiffers || f.planDiffers || f.runtimesDiffer || f.routesDiffer || SideBlocked(f.baseline) || SideBlocked(f.candidate) then Incompatible
    else if SideOpen(f.baseline) || SideOpen(f.candidate) then Unverified
    else Comparable
  }

  /** The order in which reasons are reported: what blocks comes first. */
  function Rank(r: Reason): nat {
    match r
    case SuiteDiffers => 0
    case PlanDiffers => 1
    case MixedRuntimes(side) => if side.Baseline? then 2 else 4
    case MixedRoutes(side) => if side.Baseline? then 3 else 5
    case RuntimesDiffer => 6
    case RoutesDiffer => 7
    case MissingRuntime(side) => if side.Baseline? then 8 else 10
    case NoRoute(side) => if side.Baseline? then 9 else 11
  }

  /** In order, and all before rank `bound`. */
  ghost predicate OrderedBelow(reasons: seq<Reason>, bound: nat) {
    && (forall i, j :: 0 <= i < j < |reasons| ==> Rank(reasons[i]) < Rank(reasons[j]))
    && (forall i :: 0 <= i < |reasons| ==> Rank(reasons[i]) < bound)
  }

  method Push(reasons: seq<Reason>, found: bool, r: Reason) returns (pushed: seq<Reason>)
    requires OrderedBelow(reasons, Rank(r))
    ensures OrderedBelow(pushed, Rank(r) + 1)
    ensures forall x :: x in pushed <==> x in reasons || (found && x == r)
  {
    return if found then reasons + [r] else reasons;
  }

  /** The checks of one record, added to the two lists. */
  method CheckSide(f: SideFindings, side: Side, incompatible: seq<Reason>, unverified: seq<Reason>)
    returns (blocked: seq<Reason>, open: seq<Reason>)
    requires OrderedBelow(incompatible, Rank(MixedRuntimes(side))) && OrderedBelow(unverified, Rank(MissingRuntime(side)))
    ensures OrderedBelow(blocked, Rank(MixedRoutes(side)) + 1) && OrderedBelow(open, Rank(NoRoute(side)) + 1)
    ensures forall r :: r in blocked <==> r in incompatible || (r == MixedRuntimes(side) && f.mixedRuntimes) || (r == MixedRoutes(side) && f.mixedRoutes)
    ensures forall r :: r in open <==> r in unverified || (r == MissingRuntime(side) && f.runtimeMissing) || (r == NoRoute(side) && f.noRoute)
  {
    blocked := Push(incompatible, f.mixedRuntimes, MixedRuntimes(side));
    blocked := Push(blocked, f.mixedRoutes, MixedRoutes(side));
    open := Push(unverified, f.runtimeMissing, MissingRuntime(side));
    open := Push(open, f.noRoute, NoRoute(side));
  }

  method CollectReasons(f: Findings) returns (incompatible: seq<Reason>, unverified: seq<Reason>)
    ensures forall r :: r in incompatible <==> Blocks(r) && Applies(r, f)
    ensures forall r :: r in unverified <==> !Blocks(r) && Applies(r, f)
    ensures OrderedBelow(incompatible, 8) && OrderedBelow(unverified, 12)
  {
    incompatible := Push([], f.suiteDiffers, SuiteDiffers);
    incompatible := Push(incompatible, f.planDiffers, PlanDiffers);
    incompatible, unverified := CheckSide(f.baseline, Baseline, incompatible, []);
    incompatible, unverified := CheckSide(f.candidate, Candidate, incompatible, unverified);
    incompatible := Push(incompatible, f.runtimesDiffer, RuntimesDiffer);
    incompatible := Push(incompatible, f.routesDiffer, RoutesDiffer);
  }

  lemma OpenAfterBlocked(incompatible: seq<Reason>, unverified: seq<Reason>)
    requires OrderedBelow(incompatible, 8) && OrderedBelow(unverified, 12) && forall r :: r in unverified ==> !Blocks(r)
    ensures OrderedBelow(incompatible + unverified, 12)
  {
    var all := incompatible + unverified;
    forall i, j | 0 <= i < j < |all| ensures Rank(all[i]) < Rank(all[j]) {
      if j >= |incompatible| { assert unverified[j - |incompatible|] in unverified; }
    }
  }

  /** `compatibility`: every reason that applies is given once, in order, and no other. */
  method CheckCompatibility(b: RunRecord, c: RunRecord) returns (status: Compatibility, reasons: seq<Reason>)
    ensures forall r :: r in reasons <==> Applies(r, FindingsOf(b, c))
    ensures OrderedBelow(reasons, 12) && status == StatusOf(FindingsOf(b, c))
    ensures forall r :: r in reasons <==> Holds(r, b, c)
    ensures status.Comparable? <==> reasons == []
    ensures status.Incompatible? <==> exists r :: r in reasons && Blocks(r)
  {
    forall r ensures Applies(r, FindingsOf(b, c)) <==> Holds(r, b, c) { ReasonMeans(b, c, r); }
    var f := FindingsOf(b, c);
    var incompatible, unverified := CollectReasons(f);
    StatusFromReasons(f, incompatible, unverified);
    OpenAfterBlocked(incompatible, unverified);
    assert incompatible != [] ==> incompatible[0] in incompatible + unverified && Blocks(incompatible[0]);
    return if incompatible != [] then Incompatible else if unverified != [] then Unverified else Comparable, incompatible + unverified;
  }

  lemma StatusFromReasons(f: Findings, incompatible: seq<Reason>, unverified: seq<Reason>)
    requires forall r :: r in incompatible <==> Blocks(r) && Applies(r, f)
    requires forall r :: r in unverified <==> !Blocks(r) && Applies(r, f)
    ensures StatusOf(f) == if incompatible != [] then Incompatible else if unverified != [] then Unverified else Comparable
  {
    if incompatible != [] { assert incompatible[0] in incompatible; }
    if unverified != [] { assert unverified[0] in unverified; }
    assert forall r :: Blocks(r) && Applies(r, f) ==> incompatible != [];
    assert forall r :: !Blocks(r) && Applies(r, f) ==> unverified != [];
    assert Applies(SuiteDiffers, f) == f.suiteDiffers && Applies(PlanDiffers, f) == f.planDiffers;
    assert Applies(RuntimesDiffer, f) == f.runtimesDiffer && Applies(RoutesDiffer, f) == f.routesDiffer;
    SideReasons(f, Baseline);
    SideReasons(f, Candidate);
  }

  lemma SideReasons(f: Findings, side: Side)
    ensures var s := if side.Baseline? then f.baseline else f.candidate;
      && Applies(MixedRuntimes(side), f) == s.mixedRuntimes && Applies(MixedRoutes(side), f) == s.mixedRoutes
      && Applies(MissingRuntime(side), f) == s.runtimeMissing && Applies(NoRoute(side), f) == s.noRoute
  {}
}
