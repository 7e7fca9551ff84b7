/** The comparison itself (`compareBenchmarkRuns`, src/benchmark/compare.ts). */
module Comparison {
  import opened BenchTypes
  import opened Sorting
  import opened Strings
  import opened Report
  import opened Summary
  import opened Totals
  import opened Compare

  datatype CaseChange = NotCompared | Improved | Regressed | Unchanged

  datatype CaseComparison = CaseComparison(
    caseId: string,
    baseline: Option<CaseSummary>,
    candidate: Option<CaseSummary>,
    successRateDelta: Option<real>,
    change: CaseChange)

  datatype UsageComparison = UsageComparison(baseline: UsageSummary, candidate: UsageSummary, delta: Option<real>)

  datatype RunComparison = RunComparison(
    status: Compatibility,
    complete: bool,
    baseline: RunSummary,
    candidate: RunSummary,
    successRateDelta: Option<real>,
    cases: seq<CaseComparison>,
    inputTokens: UsageComparison,
    outputTokens: UsageComparison,
    costUsd: UsageComparison,
    baselineDuration: DurationSummary,
    candidateDuration: DurationSummary,
    meanMsDelta: Option<real>,
    medianMsDelta: Option<real>)

  // ---------------------------------------------------------------- the parts

  function FindRow(rows: seq<CaseSummary>, id: string): Option<CaseSummary> {
    if rows == [] then None else if rows[0].caseId == id then Some(rows[0]) else FindRow(rows[1..], id)
  }

  function ChangeOf(delta: Option<real>): CaseChange {
    if delta.None? then NotCompared else if delta.value > 0.0 then Improved else if delta.value < 0.0 then Regressed else Unchanged
  }

  /** After minus before, when both are there and the runs may be compared. */
  function Delta(can: bool, before: Option<real>, after: Option<real>): Option<real> {
    if can && before.Some? && after.Some? then Some(after.value - before.value) else None
  }

  function RateIn(row: Option<CaseSummary>): Option<real> {
    if row.Some? then row.value.successRate else None
  }

  function CompareCase(can: bool, before: seq<CaseSummary>, after: seq<CaseSummary>, id: string): CaseComparison {
    var b, a := FindRow(before, id), FindRow(after, id);
    var delta := Delta(can, RateIn(b), RateIn(a));
    CaseComparison(id, b, a, delta, ChangeOf(delta))
  }

  function CompareCases(can: bool, before: seq<CaseSummary>, after: seq<CaseSummary>, ids: seq<string>): (r: seq<CaseComparison>)
    ensures |r| == |ids| && forall i :: 0 <= i < |r| ==> r[i] == CompareCase(can, before, after, ids[i])
  {
    seq(|ids|, i requires 0 <= i < |ids| => CompareCase(can, before, after, ids[i]))
  }

  function CompareUsage(can: bool, before: UsageSummary, after: UsageSummary): UsageComparison {
    UsageComparison(before, after, Delta(can && before.complete && after.complete, before.observed, after.observed))
  }

  /** The case ids of either run, once and in order. */
  function AllIds(b: seq<string>, c: seq<string>): seq<string> {
    SortBy(FirstSeen(b + c), StringLe)
  }

  /** The source reads both values without a check; the lemmas below show they are there. */
  function Difference(can: bool, before: Option<real>, after: Option<real>): Option<real>
    requires can ==> before.Some? && after.Some?
  {
    if can then Some(after.value - before.value) else None
  }

  predicate CanCompare(b: RunRecord, c: RunRecord) {
    StatusOf(FindingsOf(b, c)).Comparable? && SummaryOf(b).successRate.Some? && SummaryOf(c).successRate.Some?
  }

  /** A rated run is completed, so it has trials, a mean and a median. */
  lemma RatedHasDuration(run: RunRecord)
    requires ValidRecord(run) && SummaryOf(run).successRate.Some?
    ensures run.trials != [] && DurationFor(run).meanMs.Some? && DurationFor(run).medianMs.Some?
  {
    SuccessRateIffCompleted(run);
    DurationSound(run, SummaryOf(run).successRate.Some?);
  }

  /** What the source reads without a check is there. */
  lemma NothingMissing(b: RunRecord, c: RunRecord)
    requires ValidRecord(b) && ValidRecord(c)
    ensures CanCompare(b, c) ==> DurationFor(b).meanMs.Some? && DurationFor(b).medianMs.Some?
    ensures CanCompare(b, c) ==> DurationFor(c).meanMs.Some? && DurationFor(c).medianMs.Some?
  {
    if CanCompare(b, c) {
      RatedHasDuration(b);
      RatedHasDuration(c);
    }
  }

  /** The result, from what was computed about the two sides. */
  function Compose(status: Compatibility, can: bool, before: RunSummary, after: RunSummary, ids: seq<string>, slow: DurationSummary, fast: DurationSummary): RunComparison
    requires can ==> before.successRate.Some? && after.successRate.Some?
    requires can ==> slow.meanMs.Some? && fast.meanMs.Some? && slow.medianMs.Some? && fast.medianMs.Some?
  {
    RunComparison(
      status, before.successRate.Some? && after.successRate.Some?, before, after,
      Difference(can, before.successRate, after.successRate),
      CompareCases(can, before.cases, after.cases, ids),
      CompareUsage(can, before.inputTokens, after.inputTokens),
      CompareUsage(can, before.outputTokens, after.outputTokens),
      CompareUsage(can, before.costUsd, after.costUsd),
      slow, fast, Difference(can, slow.meanMs, fast.meanMs), Difference(can, slow.medianMs, fast.medianMs))
  }

  function DurationFor(run: RunRecord): DurationSummary { Duration(run, SummaryOf(run).successRate.Some?) }

  function ComparisonOf(b: RunRecord, c: RunRecord): RunComparison
    requires ValidRecord(b) && ValidRecord(c)
  {
    NothingMissing(b, c);
    Compose(StatusOf(FindingsOf(b, c)), CanCompare(b, c), SummaryOf(b), SummaryOf(c), AllIds(b.caseIds, c.caseIds), DurationFor(b), DurationFor(c))
  }

  /** The first three are always given. */
  datatype Warning = Historical | NotFrozen | DurationsOfAll | IncompleteRun | DeltasUnavailable | SameRole | SameRunOtherContents

  /** What each warning says about the comparison; `digest` identifies the contents of a record. */
  predicate Warns(w: Warning, r: RunComparison, b: RunRecord, c: RunRecord, digest: RunRecord -> string) {
    match w
    case Historical => true
    case NotFrozen => true
    case DurationsOfAll => true
    case IncompleteRun => !r.complete
    case DeltasUnavailable => !r.status.Comparable?
    case SameRole => b.roleDigest == c.roleDigest
    case SameRunOtherContents => b.id == c.id && digest(b) != digest(c)
  }

  method CollectWarnings(r: RunComparison, b: RunRecord, c: RunRecord, digest: RunRecord -> string) returns (warnings: seq<Warning>)
    ensures forall w :: w in warnings <==> Warns(w, r, b, c, digest)
  {
    warnings := [Historical, NotFrozen, DurationsOfAll];
    warnings := PushWarning(warnings, !r.complete, IncompleteRun);
    warnings := PushWarning(warnings, !r.status.Comparable?, DeltasUnavailable);
    warnings := PushWarning(warnings, b.roleDigest == c.roleDigest, SameRole);
    warnings := PushWarning(warnings, b.id == c.id && digest(b) != digest(c), SameRunOtherContents);
  }

  method PushWarning(warnings: seq<Warning>, found: bool, w: Warning) returns (pushed: seq<Warning>)
    ensures forall x :: x in pushed <==> x in warnings || (found && x == w)
  {
    return if found then warnings + [w] else warnings;
  }

  /** `compareBenchmarkRuns`: both records are validated first. */
  method CompareRuns(b: RunRecord, c: RunRecord, digest: RunRecord -> string)
    returns (r: Outcome<RunComparison>, reasons: seq<Reason>, warnings: seq<Warning>)
    ensures r.Returned? <==> ValidRecord(b) && ValidRecord(c)
    ensures r.Returned? ==> r.value == ComparisonOf(b, c) && OrderedBelow(reasons, 12) && forall x :: x in reasons <==> Applies(x, FindingsOf(b, c))
    ensures r.Returned? ==> ComparisonMeans(r.value, b, c) && forall x :: x in reasons <==> Holds(x, b, c)
    ensures r.Returned? ==> forall w :: w in warnings <==> Warns(w, r.value, b, c, digest)
  {
    var baseline := ParseRunRecord(b);
    var candidate := ParseRunRecord(c);
    if baseline.Threw? || candidate.Threw? { return Threw, [], []; }
    var before, slow := DescribeSide(b);
    var after, fast := DescribeSide(c);
    var status, found := CheckCompatibility(b, c);
    var can := status.Comparable? && before.successRate.Some? && after.successRate.Some?;
    NothingMissing(b, c);
    var comparison := Compose(status, can, before, after, AllIds(b.caseIds, c.caseIds), slow, fast);
    ComparisonHolds(b, c);
    var given := CollectWarnings(comparison, b, c, digest);
    return Returned(comparison), found, given;
  }

  /** The summary and the durations of one run. */
  method DescribeSide(run: RunRecord) returns (summary: RunSummary, d: DurationSummary)
    requires ValidRecord(run)
    ensures summary == SummaryOf(run) && d == DurationFor(run)
  {
    ValidMarks(run);
    var s := Summarize(run);
    summary := s.value;
    d := DescribeDurations(run, summary.successRate.Some?);
  }

  // ---------------------------------------------------------------- antisymmetry

  function Negate(d: Option<real>): Option<real> { if d.Some? then Some(0.0 - d.value) else None }

  function MirrorChange(c: CaseChange): CaseChange {
    match c case Improved => Regressed case Regressed => Improved case NotCompared => NotCompared case Unchanged => Unchanged
  }

  function MirrorCase(c: CaseComparison): CaseComparison {
    CaseComparison(c.caseId, c.candidate, c.baseline, Negate(c.successRateDelta), MirrorChange(c.change))
  }

  function MirrorCases(cases: seq<CaseComparison>): (r: seq<CaseComparison>)
    ensures |r| == |cases| && forall i :: 0 <= i < |r| ==> r[i] == MirrorCase(cases[i])
  {
    seq(|cases|, i requires 0 <= i < |cases| => MirrorCase(cases[i]))
  }

  function MirrorUsage(u: UsageComparison): UsageComparison {
    UsageComparison(u.candidate, u.baseline, Negate(u.delta))
  }

  /** The comparison read from the other side. */
  function Mirror(r: RunComparison): RunComparison {
    RunComparison(r.status, r.complete, r.candidate, r.baseline, Negate(r.successRateDelta), MirrorCases(r.cases),
      MirrorUsage(r.inputTokens), MirrorUsage(r.outputTokens), MirrorUsage(r.costUsd),
      r.candidateDuration, r.baselineDuration, Negate(r.meanMsDelta), Negate(r.medianMsDelta))
  }

  lemma StatusSymmetric(b: RunRecord, c: RunRecord)
    ensures StatusOf(FindingsOf(b, c)) == StatusOf(FindingsOf(c, b))
  {
    assert SamePlan(b, c) <==> SamePlan(c, b);
  }

  lemma {:induction false} FirstSeenDistinct(ids: seq<string>)
    ensures Distinct(FirstSeen(ids))
  {
    if ids != [] { FirstSeenDistinct(ids[..|ids| - 1]); }
  }

  lemma AllIdsSymmetric(b: seq<string>, c: seq<string>)
    ensures AllIds(b, c) == AllIds(c, b)
  {
    FirstSeenDistinct(b + c);
    FirstSeenDistinct(c + b);
    assert forall x :: x in b + c <==> x in c + b;
    SameElements(FirstSeen(b + c), FirstSeen(c + b));
    SortedTexts(FirstSeen(b + c), FirstSeen(c + b));
  }

  lemma CasesMirror(can: bool, before: seq<CaseSummary>, after: seq<CaseSummary>, ids: seq<string>)
    ensures CompareCases(can, after, before, ids) == MirrorCases(CompareCases(can, before, after, ids))
  {}

  lemma UsageMirror(can: bool, before: UsageSummary, after: UsageSummary)
    ensures CompareUsage(can, after, before) == MirrorUsage(CompareUsage(can, before, after))
  {}

  lemma ComposeMirror(status: Compatibility, can: bool, before: RunSummary, after: RunSummary, ids: seq<string>, slow: DurationSummary, fast: DurationSummary)
    requires can ==> before.successRate.Some? && after.successRate.Some?
    requires can ==> slow.meanMs.Some? && fast.meanMs.Some? && slow.medianMs.Some? && fast.medianMs.Some?
    ensures Compose(status, can, after, before, ids, fast, slow) == Mirror(Compose(status, can, before, after, ids, slow, fast))
  {
    CasesMirror(can, before.cases, after.cases, ids);
    UsageMirror(can, before.inputTokens, after.inputTokens);
    UsageMirror(can, before.outputTokens, after.outputTokens);
    UsageMirror(can, before.costUsd, after.costUsd);
  }

  /** Comparing the other way round keeps the status, negates every delta and swaps improved with regressed. */
  lemma Antisymmetric(b: RunRecord, c: RunRecord)
    requires ValidRecord(b) && ValidRecord(c)
    ensures ComparisonOf(c, b) == Mirror(ComparisonOf(b, c))
  {
    StatusSymmetric(b, c);
    AllIdsSymmetric(b.caseIds, c.caseIds);
    NothingMissing(b, c);
    ComposeMirror(StatusOf(FindingsOf(b, c)), CanCompare(b, c), SummaryOf(b), SummaryOf(c), AllIds(b.caseIds, c.caseIds), DurationFor(b), DurationFor(c));
  }

  // ---------------------------------------------------------------- the overall delta

  lemma {:induction false} FindsRow(marks: seq<Mark>, n: int, ids: seq<string>, id: string)
    requires id in ids
    ensures FindRow(CaseRows(marks, n, ids), id) == Some(RowFrom(id, n, CaseCounts(marks, id)))
  {
    var rows := CaseRows(marks, n, ids);
    if ids[0] != id {
      FindsRow(marks, n, ids[1..], id);
      assert rows[1..] == CaseRows(marks, n, ids[1..]);
    }
  }

  function RateFor(marks: seq<Mark>, id: string): Option<real> {
    Rate(CaseCounts(marks, id).passed, CaseCounts(marks, id).failed)
  }

  /** The rates of a list of cases; a case without one counts as zero, which a completed run does not have. */
  function RatesFor(marks: seq<Mark>, ids: seq<string>): (r: seq<real>)
    ensures |r| == |ids|
    ensures forall i :: 0 <= i < |r| ==> r[i] == if RateFor(marks, ids[i]).Some? then RateFor(marks, ids[i]).value else 0.0
  {
    seq(|ids|, i requires 0 <= i < |ids| => if RateFor(marks, ids[i]).Some? then RateFor(marks, ids[i]).value else 0.0)
  }

  ghost predicate AllRated(marks: seq<Mark>, ids: seq<string>) {
    forall i :: 0 <= i < |ids| ==> RateFor(marks, ids[i]).Some?
  }

  lemma {:induction false} RatesAreRatesFor(marks: seq<Mark>, n: int, ids: seq<string>)
    requires AllRated(marks, ids)
    ensures Rates(CaseRows(marks, n, ids)) == RatesFor(marks, ids)
  {
    if ids != [] {
      assert RateFor(marks, ids[0]).Some?;
      assert AllRated(marks, ids[1..]) by { assert forall i :: 0 <= i < |ids[1..]| ==> ids[1..][i] == ids[i + 1]; }
      RatesAreRatesFor(marks, n, ids[1..]);
      RatesCons(CaseRows(marks, n, ids));
      RatesForCons(marks, ids);
      assert CaseRows(marks, n, ids)[1..] == CaseRows(marks, n, ids[1..]);
    }
  }

  lemma RatesCons(rows: seq<CaseSummary>)
    requires rows != [] && rows[0].successRate.Some?
    ensures Rates(rows) == [rows[0].successRate.value] + Rates(rows[1..])
  {}

  lemma RatesForCons(marks: seq<Mark>, ids: seq<string>)
    requires ids != [] && RateFor(marks, ids[0]).Some?
    ensures RatesFor(marks, ids) == [RateFor(marks, ids[0]).value] + RatesFor(marks, ids[1..])
  {}

  /** Summing case rates does not depend on the order of the cases. */
  lemma {:induction false} RatesPermute(marks: seq<Mark>, s: seq<string>, t: seq<string>)
    requires multiset(s) == multiset(t)
    ensures Sum(RatesFor(marks, s)) == Sum(RatesFor(marks, t))
    decreases s
  {
    if s == [] {
      MultisetSize(s);
      MultisetSize(t);
    } else {
      assert s[0] in multiset(t);
      var k :| 0 <= k < |t| && t[k] == s[0];
      RemoveSame(s, t, k);
      RatesPermute(marks, s[1..], t[..k] + t[k + 1..]);
      SumSplit(RatesFor(marks, t), k);
      RatesWithout(marks, t, k);
      assert RatesFor(marks, s)[1..] == RatesFor(marks, s[1..]);
    }
  }

  lemma RatesWithout(marks: seq<Mark>, t: seq<string>, k: nat)
    requires k < |t|
    ensures RatesFor(marks, t[..k] + t[k + 1..]) == RatesFor(marks, t)[..k] + RatesFor(marks, t)[k + 1..]
  {}

  function DeltaValues(cases: seq<CaseComparison>): (r: seq<real>)
    ensures |r| == |cases|
    ensures forall i :: 0 <= i < |r| ==> r[i] == if cases[i].successRateDelta.Some? then cases[i].successRateDelta.value else 0.0
  {
    seq(|cases|, i requires 0 <= i < |cases| => if cases[i].successRateDelta.Some? then cases[i].successRateDelta.value else 0.0)
  }

  lemma {:induction false} SumOfDifferences(d: seq<real>, a: seq<real>, b: seq<real>)
    requires |d| == |a| == |b| && forall i :: 0 <= i < |d| ==> d[i] == a[i] - b[i]
    ensures Sum(d) == Sum(a) - Sum(b)
  {
    if d != [] { SumOfDifferences(d[1..], a[1..], b[1..]); }
  }

  lemma DeltaIsMean(before: Option<real>, after: Option<real>, b: real, c: real, sum: real, n: real)
    requires n != 0.0 && before == Some(b / n) && after == Some(c / n) && sum == c - b
    ensures Delta(true, before, after) == Some(sum / n)
  {
    DividedDifference(c, b, n);
  }

  lemma DividedDifference(a: real, b: real, n: real)
    requires n != 0.0
    ensures a / n - b / n == (a - b) / n
  {}

  /** A completed run's overall rate is the mean of its case rates, in any order. */
  lemma OverallIsMean(run: RunRecord, ids: seq<string>)
    requires ValidRecord(run) && run.status.RunCompleted? && multiset(ids) == multiset(run.caseIds)
    ensures |ids| == |run.caseIds| && ids != [] && AllRated(Marks(run.trials), ids)
    ensures SummaryOf(run).successRate == Some(Sum(RatesFor(Marks(run.trials), ids)) / |ids| as real)
  {
    var marks := Marks(run.trials);
    MultisetSize(ids);
    MultisetSize(run.caseIds);
    CompletedRated(run);
    SuccessRateIffCompleted(run);
    AllFirstSeen(run.caseIds);
    RatesAreRatesFor(marks, run.repetitions, run.caseIds);
    RatesPermute(marks, ids, run.caseIds);
    forall i | 0 <= i < |ids| ensures RateFor(marks, ids[i]).Some? {
      assert ids[i] in multiset(ids);
      assert ids[i] in run.caseIds;
    }
  }

  lemma CompletedRated(run: RunRecord)
    requires ValidRecord(run) && run.status.RunCompleted?
    ensures AllRated(Marks(run.trials), run.caseIds)
  {
    CompletedRows(run);
    AllFirstSeen(run.caseIds);
    forall i | 0 <= i < |run.caseIds| ensures RateFor(Marks(run.trials), run.caseIds[i]).Some? {
      assert FullRow(RowsOf(run)[i], run.repetitions);
    }
  }

  lemma SamePlanIds(b: RunRecord, c: RunRecord)
    requires ValidRecord(b) && ValidRecord(c) && SamePlan(b, c)
    ensures multiset(AllIds(b.caseIds, c.caseIds)) == multiset(b.caseIds) == multiset(c.caseIds)
  {
    assert multiset(b.caseIds) == multiset(SortBy(b.caseIds, StringLe)) == multiset(c.caseIds);
    FirstSeenDistinct(b.caseIds + c.caseIds);
    forall x ensures x in b.caseIds + c.caseIds <==> x in b.caseIds {
      assert x in multiset(b.caseIds) <==> x in multiset(c.caseIds);
    }
    SameElements(FirstSeen(b.caseIds + c.caseIds), b.caseIds);
  }

  lemma CaseDelta(b: RunRecord, c: RunRecord, id: string)
    requires ValidRecord(b) && ValidRecord(c) && id in b.caseIds && id in c.caseIds
    ensures CompareCase(true, SummaryOf(b).cases, SummaryOf(c).cases, id).successRateDelta ==
      Delta(true, RateFor(Marks(b.trials), id), RateFor(Marks(c.trials), id))
  {
    AllFirstSeen(b.caseIds);
    AllFirstSeen(c.caseIds);
    FindsRow(Marks(b.trials), b.repetitions, b.caseIds, id);
    FindsRow(Marks(c.trials), c.repetitions, c.caseIds, id);
  }

  lemma CaseDeltas(b: RunRecord, c: RunRecord, ids: seq<string>)
    requires ValidRecord(b) && ValidRecord(c) && AllRated(Marks(b.trials), ids) && AllRated(Marks(c.trials), ids)
    requires forall i :: 0 <= i < |ids| ==> ids[i] in b.caseIds && ids[i] in c.caseIds
    ensures var cases := CompareCases(true, SummaryOf(b).cases, SummaryOf(c).cases, ids);
      && (forall i :: 0 <= i < |cases| ==> cases[i].successRateDelta.Some?)
      && Sum(DeltaValues(cases)) == Sum(RatesFor(Marks(c.trials), ids)) - Sum(RatesFor(Marks(b.trials), ids))
  {
    var cases := CompareCases(true, SummaryOf(b).cases, SummaryOf(c).cases, ids);
    forall i | 0 <= i < |cases|
      ensures cases[i].successRateDelta.Some? && DeltaValues(cases)[i] == RatesFor(Marks(c.trials), ids)[i] - RatesFor(Marks(b.trials), ids)[i]
    {
      CaseDelta(b, c, ids[i]);
    }
    SumOfDifferences(DeltaValues(cases), RatesFor(Marks(c.trials), ids), RatesFor(Marks(b.trials), ids));
  }

  lemma InBoth(s: seq<string>, t: seq<string>)
    requires multiset(s) == multiset(t)
    ensures forall i :: 0 <= i < |s| ==> s[i] in t
  {
    forall i | 0 <= i < |s| ensures s[i] in t { assert s[i] in multiset(s); }
  }

  lemma DeltaOfMeans(b: RunRecord, c: RunRecord, ids: seq<string>)
    requires ValidRecord(b) && ValidRecord(c) && b.status.RunCompleted? && c.status.RunCompleted?
    requires multiset(ids) == multiset(b.caseIds) == multiset(c.caseIds)
    ensures |ids| == |b.caseIds| > 0
    ensures var cases := CompareCases(true, SummaryOf(b).cases, SummaryOf(c).cases, ids);
      && (forall i :: 0 <= i < |cases| ==> cases[i].successRateDelta.Some?)
      && Delta(true, SummaryOf(b).successRate, SummaryOf(c).successRate) == Some(Sum(DeltaValues(cases)) / |cases| as real)
  {
    OverallIsMean(b, ids);
    OverallIsMean(c, ids);
    InBoth(ids, b.caseIds);
    InBoth(ids, c.caseIds);
    CaseDeltas(b, c, ids);
    var cases := CompareCases(true, SummaryOf(b).cases, SummaryOf(c).cases, ids);
    DeltaIsMean(SummaryOf(b).successRate, SummaryOf(c).successRate,
      Sum(RatesFor(Marks(b.trials), ids)), Sum(RatesFor(Marks(c.trials), ids)), Sum(DeltaValues(cases)), |ids| as real);
  }

  /** When two completed runs are comparable, every case has a delta and the overall delta is their mean. */
  lemma OverallDeltaIsMean(b: RunRecord, c: RunRecord)
    requires ValidRecord(b) && ValidRecord(c) && CanCompare(b, c)
    ensures var r := ComparisonOf(b, c);
      && |r.cases| == |b.caseIds| > 0
      && (forall i :: 0 <= i < |r.cases| ==> r.cases[i].successRateDelta.Some?)
      && r.successRateDelta == Some(Sum(DeltaValues(r.cases)) / |r.cases| as real)
      && r.meanMsDelta.Some? && r.medianMsDelta.Some?
  {
    SuccessRateIffCompleted(b);
    SuccessRateIffCompleted(c);
    SamePlanIds(b, c);
    NothingMissing(b, c);
    DeltaOfMeans(b, c, AllIds(b.caseIds, c.caseIds));
  }

  // ---------------------------------------------------------------- what a comparison says of the two runs

  /** Nothing speaks against comparing the runs, and both are complete. */
  ghost predicate MayCompare(b: RunRecord, c: RunRecord) {
    NothingAgainst(b, c) && b.status.RunCompleted? && c.status.RunCompleted?
  }

  lemma StatusFromFindings(f: Findings)
    ensures StatusOf(f).Comparable? <==> forall r :: !Applies(r, f)
    ensures StatusOf(f).Incompatible? <==> exists r :: Blocks(r) && Applies(r, f)
  {
    assert Applies(SuiteDiffers, f) == f.suiteDiffers && Applies(PlanDiffers, f) == f.planDiffers;
    assert Applies(RuntimesDiffer, f) == f.runtimesDiffer && Applies(RoutesDiffer, f) == f.routesDiffer;
    SideReasons(f, Baseline);
    SideReasons(f, Candidate);
  }

  ghost predicate NothingAgainst(b: RunRecord, c: RunRecord) { forall r :: !Holds(r, b, c) }

  ghost predicate SomethingBlocks(b: RunRecord, c: RunRecord) { exists r :: Blocks(r) && Holds(r, b, c) }

  lemma SameVerdict(f: Findings, b: RunRecord, c: RunRecord)
    requires forall r :: Applies(r, f) <==> Holds(r, b, c)
    ensures NothingAgainst(b, c) <==> forall r :: !Applies(r, f)
    ensures SomethingBlocks(b, c) <==> exists r :: Blocks(r) && Applies(r, f)
  {
    if x :| Blocks(x) && Applies(x, f) { assert Holds(x, b, c); }
    if x :| Blocks(x) && Holds(x, b, c) { assert Applies(x, f); }
  }

  lemma StatusMeans(b: RunRecord, c: RunRecord)
    ensures StatusOf(FindingsOf(b, c)).Comparable? <==> NothingAgainst(b, c)
    ensures StatusOf(FindingsOf(b, c)).Incompatible? <==> SomethingBlocks(b, c)
  {
    var f := FindingsOf(b, c);
    StatusFromFindings(f);
    forall r ensures Applies(r, f) <==> Holds(r, b, c) { ReasonMeans(b, c, r); }
    SameVerdict(f, b, c);
  }

  lemma CanCompareMeans(b: RunRecord, c: RunRecord)
    requires ValidRecord(b) && ValidRecord(c)
    ensures CanCompare(b, c) <==> MayCompare(b, c)
  {
    StatusMeans(b, c);
    SuccessRateIffCompleted(b);
    SuccessRateIffCompleted(c);
  }

  /** The share of the scored trials of a case that passed. */
  ghost function PassShare(run: RunRecord, id: string): Option<real> {
    var passed, failed := |StoredIn(run, id, Pass)|, |StoredIn(run, id, Fail)|;
    if passed + failed == 0 then None else Some(passed as real / (passed + failed) as real)
  }

  /** The row of a case on one side; a run without the case has none. */
  ghost predicate SideMeans(row: Option<CaseSummary>, run: RunRecord, id: string) {
    (row.Some? <==> id in run.caseIds) && (row.Some? ==> RowMeans(row.value, run, id))
  }

  /** A change is reported exactly when the runs may be compared, and it is the direction the share moved in. */
  ghost predicate ChangeMeans(change: CaseChange, delta: Option<real>, may: bool, before: Option<real>, after: Option<real>) {
    && (delta.Some? <==> may) && (change.NotCompared? <==> !may)
    && (may ==>
          && before.Some? && after.Some? && delta.value == after.value - before.value
          && (change.Improved? <==> after.value > before.value)
          && (change.Regressed? <==> after.value < before.value)
          && (change.Unchanged? <==> after.value == before.value))
  }

  ghost predicate CaseMeans(r: CaseComparison, b: RunRecord, c: RunRecord) {
    && SideMeans(r.baseline, b, r.caseId) && SideMeans(r.candidate, c, r.caseId)
    && ChangeMeans(r.change, r.successRateDelta, MayCompare(b, c), PassShare(b, r.caseId), PassShare(c, r.caseId))
  }

  lemma {:induction false} FindsNoRow(marks: seq<Mark>, n: int, ids: seq<string>, id: string)
    requires id !in ids
    ensures FindRow(CaseRows(marks, n, ids), id).None?
  {
    if ids != [] {
      FindsNoRow(marks, n, ids[1..], id);
      assert CaseRows(marks, n, ids)[1..] == CaseRows(marks, n, ids[1..]);
    }
  }

  lemma SideHolds(run: RunRecord, id: string)
    requires ValidRecord(run)
    ensures SideMeans(FindRow(SummaryOf(run).cases, id), run, id)
  {
    AllFirstSeen(run.caseIds);
    if id in run.caseIds {
      FindsRow(Marks(run.trials), run.repetitions, run.caseIds, id);
      RowFromMeans(run, id);
    } else {
      FindsNoRow(Marks(run.trials), run.repetitions, run.caseIds, id);
    }
  }

  /** In runs that may be compared, every case has a share on both sides. */
  lemma SharesThere(b: RunRecord, c: RunRecord, id: string)
    requires ValidRecord(b) && ValidRecord(c) && MayCompare(b, c) && (id in b.caseIds || id in c.caseIds)
    ensures id in b.caseIds && id in c.caseIds && PassShare(b, id).Some? && PassShare(c, id).Some?
  {
    assert !Holds(PlanDiffers, b, c);
    assert id in multiset(b.caseIds) <==> id in multiset(c.caseIds);
    ShareThere(b, id);
    ShareThere(c, id);
  }

  lemma ShareThere(run: RunRecord, id: string)
    requires ValidRecord(run) && run.status.RunCompleted? && id in run.caseIds
    ensures PassShare(run, id).Some?
  {
    CompletedRated(run);
    RowFromMeans(run, id);
    var i :| 0 <= i < |run.caseIds| && run.caseIds[i] == id;
    assert RateFor(Marks(run.trials), run.caseIds[i]).Some?;
  }

  lemma ChangeFrom(may: bool, before: Option<real>, after: Option<real>)
    requires may ==> before.Some? && after.Some?
    ensures ChangeMeans(ChangeOf(Delta(may, before, after)), Delta(may, before, after), may, before, after)
  {}

  lemma SideRate(row: Option<CaseSummary>, run: RunRecord, id: string)
    requires SideMeans(row, run, id) && id in run.caseIds
    ensures RateIn(row) == PassShare(run, id)
  {}

  lemma CaseHolds(b: RunRecord, c: RunRecord, can: bool, id: string)
    requires ValidRecord(b) && ValidRecord(c) && (can <==> MayCompare(b, c)) && (id in b.caseIds || id in c.caseIds)
    ensures CaseMeans(CompareCase(can, SummaryOf(b).cases, SummaryOf(c).cases, id), b, c)
  {
    SideHolds(b, id);
    SideHolds(c, id);
    CaseFrom(b, c, can, id, FindRow(SummaryOf(b).cases, id), FindRow(SummaryOf(c).cases, id));
  }

  lemma CaseFrom(b: RunRecord, c: RunRecord, can: bool, id: string, before: Option<CaseSummary>, after: Option<CaseSummary>)
    requires ValidRecord(b) && ValidRecord(c) && (can <==> MayCompare(b, c)) && (id in b.caseIds || id in c.caseIds)
    requires SideMeans(before, b, id) && SideMeans(after, c, id)
    ensures var delta := Delta(can, RateIn(before), RateIn(after));
      ChangeMeans(ChangeOf(delta), delta, MayCompare(b, c), PassShare(b, id), PassShare(c, id))
  {
    if can {
      SharesThere(b, c, id);
      SideRate(before, b, id);
      SideRate(after, c, id);
      ChangeFrom(can, RateIn(before), RateIn(after));
    }
  }

  /** The cases of either run, each once and in order. */
  ghost predicate CasesOfBoth(cases: seq<CaseComparison>, b: RunRecord, c: RunRecord) {
    && (forall i, j :: 0 <= i < j < |cases| ==> cases[i].caseId != cases[j].caseId && StringLe(cases[i].caseId, cases[j].caseId))
    && (forall id :: (id in b.caseIds || id in c.caseIds) <==> exists i :: 0 <= i < |cases| && cases[i].caseId == id)
  }

  lemma IdsOfBoth(b: seq<string>, c: seq<string>)
    ensures Distinct(AllIds(b, c)) && SortedBy(AllIds(b, c), StringLe)
    ensures forall id :: id in AllIds(b, c) <==> id in b || id in c
  {
    var seen := FirstSeen(b + c);
    FirstSeenDistinct(b + c);
    StringOrder();
    SortBySorts(seen, StringLe);
    DistinctPermutation(seen, AllIds(b, c));
    forall id ensures id in AllIds(b, c) <==> id in b || id in c {
      assert id in multiset(AllIds(b, c)) <==> id in multiset(seen);
      assert id in b + c <==> id in b || id in c;
    }
  }

  lemma CasesListed(b: RunRecord, c: RunRecord, can: bool, before: seq<CaseSummary>, after: seq<CaseSummary>)
    ensures CasesOfBoth(CompareCases(can, before, after, AllIds(b.caseIds, c.caseIds)), b, c)
  {
    var ids := AllIds(b.caseIds, c.caseIds);
    var cases := CompareCases(can, before, after, ids);
    IdsOfBoth(b.caseIds, c.caseIds);
    forall i | 0 <= i < |cases| ensures cases[i].caseId == ids[i] {}
    forall id ensures id in ids <==> exists i :: 0 <= i < |cases| && cases[i].caseId == id {
      if id in ids {
        var i :| 0 <= i < |ids| && ids[i] == id;
        assert cases[i].caseId == id;
      }
    }
  }

  ghost predicate AllCasesMean(cases: seq<CaseComparison>, b: RunRecord, c: RunRecord) {
    forall i :: 0 <= i < |cases| ==> CaseMeans(cases[i], b, c)
  }

  lemma CasesHoldFor(b: RunRecord, c: RunRecord, can: bool)
    requires ValidRecord(b) && ValidRecord(c) && (can <==> MayCompare(b, c))
    ensures AllCasesMean(CompareCases(can, SummaryOf(b).cases, SummaryOf(c).cases, AllIds(b.caseIds, c.caseIds)), b, c)
  {
    var ids := AllIds(b.caseIds, c.caseIds);
    IdsOfBoth(b.caseIds, c.caseIds);
    forall i | 0 <= i < |ids| ensures CaseMeans(CompareCase(can, SummaryOf(b).cases, SummaryOf(c).cases, ids[i]), b, c) {
      assert ids[i] in ids;
      CaseHolds(b, c, can, ids[i]);
    }
  }

  ghost predicate AllReport(trials: seq<Trial>, f: Trial -> Option<real>) {
    forall i :: 0 <= i < |trials| ==> f(trials[i]).Some?
  }

  /** A usage delta is there when the runs may be compared and every trial reported the amount: candidate total less baseline total. */
  ghost predicate UsageDeltaMeans(delta: Option<real>, b: RunRecord, c: RunRecord, f: Trial -> Option<real>) {
    && (delta.Some? <==> MayCompare(b, c) && AllReport(b.trials, f) && AllReport(c.trials, f))
    && (delta.Some? ==> delta.value == SumOf(c.trials, f) - SumOf(b.trials, f))
  }

  /** A usage total is complete exactly in a completed run whose trials all reported; it is then their sum. */
  lemma CompleteTotal(run: RunRecord, m: Measure, f: Trial -> Option<real>)
    requires ValidRecord(run) && forall t :: f(t) == Amount(t.result.usage, m)
    ensures var u := UsageOf(run, m);
      && (u.complete <==> run.status.RunCompleted? && AllReport(run.trials, f))
      && (u.complete ==> u.observed == Some(SumOf(run.trials, f)))
  {
    UsageComplete(run, m);
    KnownCollects(run.trials, m, f);
  }

  lemma UsageDeltaHolds(b: RunRecord, c: RunRecord, can: bool, m: Measure, f: Trial -> Option<real>)
    requires ValidRecord(b) && ValidRecord(c) && (can <==> MayCompare(b, c)) && forall t :: f(t) == Amount(t.result.usage, m)
    ensures UsageDeltaMeans(CompareUsage(can, UsageOf(b, m), UsageOf(c, m)).delta, b, c, f)
  {
    CompleteTotal(b, m, f);
    CompleteTotal(c, m, f);
    UsageDeltaFrom(b, c, can, UsageOf(b, m), UsageOf(c, m), f);
  }

  lemma UsageDeltaFrom(b: RunRecord, c: RunRecord, can: bool, before: UsageSummary, after: UsageSummary, f: Trial -> Option<real>)
    requires can <==> MayCompare(b, c)
    requires before.complete <==> b.status.RunCompleted? && AllReport(b.trials, f)
    requires after.complete <==> c.status.RunCompleted? && AllReport(c.trials, f)
    requires before.complete ==> before.observed == Some(SumOf(b.trials, f))
    requires after.complete ==> after.observed == Some(SumOf(c.trials, f))
    ensures UsageDeltaMeans(CompareUsage(can, before, after).delta, b, c, f)
  {}

  /** The usage rows and their deltas. */
  ghost predicate UsagesMean(r: RunComparison, b: RunRecord, c: RunRecord) {
    && r.inputTokens.baseline == r.baseline.inputTokens && r.inputTokens.candidate == r.candidate.inputTokens
    && r.outputTokens.baseline == r.baseline.outputTokens && r.outputTokens.candidate == r.candidate.outputTokens
    && r.costUsd.baseline == r.baseline.costUsd && r.costUsd.candidate == r.candidate.costUsd
    && UsageDeltaMeans(r.inputTokens.delta, b, c, InputOf)
    && UsageDeltaMeans(r.outputTokens.delta, b, c, OutputOf)
    && UsageDeltaMeans(r.costUsd.delta, b, c, CostOf)
  }

  /** The three deltas, however the comparison puts them together. */
  lemma UsageDeltasHold(b: RunRecord, c: RunRecord, can: bool)
    requires ValidRecord(b) && ValidRecord(c) && (can <==> MayCompare(b, c))
    ensures UsageDeltaMeans(CompareUsage(can, UsageOf(b, InputTokens), UsageOf(c, InputTokens)).delta, b, c, InputOf)
    ensures UsageDeltaMeans(CompareUsage(can, UsageOf(b, OutputTokens), UsageOf(c, OutputTokens)).delta, b, c, OutputOf)
    ensures UsageDeltaMeans(CompareUsage(can, UsageOf(b, CostUsd), UsageOf(c, CostUsd)).delta, b, c, CostOf)
  {
    MeasuresRead();
    UsageDeltaHolds(b, c, can, InputTokens, InputOf);
    UsageDeltaHolds(b, c, can, OutputTokens, OutputOf);
    UsageDeltaHolds(b, c, can, CostUsd, CostOf);
  }

  lemma UsagesHold(b: RunRecord, c: RunRecord)
    requires ValidRecord(b) && ValidRecord(c)
    ensures UsagesMean(ComparisonOf(b, c), b, c)
  {
    CanCompareMeans(b, c);
    UsageDeltasHold(b, c, CanCompare(b, c));
  }

  /** Candidate less baseline, exactly when the runs may be compared. */
  ghost predicate IsDifference(delta: Option<real>, may: bool, before: Option<real>, after: Option<real>) {
    && (delta.Some? <==> may)
    && (may ==> before.Some? && after.Some? && delta.value + before.value == after.value)
  }

  ghost predicate DurationsMean(r: RunComparison, b: RunRecord, c: RunRecord) {
    && DescribesDurations(r.baselineDuration, b.trials) && DescribesDurations(r.candidateDuration, c.trials)
    && (r.baselineDuration.complete <==> b.status.RunCompleted?) && (r.candidateDuration.complete <==> c.status.RunCompleted?)
    && IsDifference(r.meanMsDelta, MayCompare(b, c), r.baselineDuration.meanMs, r.candidateDuration.meanMs)
    && IsDifference(r.medianMsDelta, MayCompare(b, c), r.baselineDuration.medianMs, r.candidateDuration.medianMs)
  }

  lemma DurationsHold(b: RunRecord, c: RunRecord)
    requires ValidRecord(b) && ValidRecord(c)
    ensures DurationsMean(ComparisonOf(b, c), b, c)
  {
    CanCompareMeans(b, c);
    NothingMissing(b, c);
    SuccessRateIffCompleted(b);
    SuccessRateIffCompleted(c);
    DurationSound(b, SummaryOf(b).successRate.Some?);
    DurationSound(c, SummaryOf(c).successRate.Some?);
  }

  /** The two sides and the overall result. */
  ghost predicate SidesMean(r: RunComparison, b: RunRecord, c: RunRecord) {
    && SummaryMeans(r.baseline, b) && SummaryMeans(r.candidate, c)
    && (r.complete <==> b.status.RunCompleted? && c.status.RunCompleted?)
    && (r.status.Comparable? <==> NothingAgainst(b, c)) && (r.status.Incompatible? <==> SomethingBlocks(b, c))
    && IsDifference(r.successRateDelta, MayCompare(b, c), r.baseline.successRate, r.candidate.successRate)
  }

  lemma SidesHold(b: RunRecord, c: RunRecord)
    requires ValidRecord(b) && ValidRecord(c)
    ensures SidesMean(ComparisonOf(b, c), b, c)
  {
    StatusMeans(b, c);
    CanCompareMeans(b, c);
    SummaryHolds(b);
    SummaryHolds(c);
    NothingMissing(b, c);
  }

  /** Everything a comparison says, in terms of the two records alone. */
  ghost predicate ComparisonMeans(r: RunComparison, b: RunRecord, c: RunRecord) {
    && SidesMean(r, b, c) && UsagesMean(r, b, c) && DurationsMean(r, b, c)
    && CasesOfBoth(r.cases, b, c) && AllCasesMean(r.cases, b, c)
  }

  lemma ComparisonHolds(b: RunRecord, c: RunRecord)
    requires ValidRecord(b) && ValidRecord(c)
    ensures ComparisonMeans(ComparisonOf(b, c), b, c)
  {
    SidesHold(b, c);
    UsagesHold(b, c);
    DurationsHold(b, c);
    CanCompareMeans(b, c);
    CasesHoldFor(b, c, CanCompare(b, c));
    CasesListed(b, c, CanCompare(b, c), SummaryOf(b).cases, SummaryOf(c).cases);
  }
}
