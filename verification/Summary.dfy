/** Counting a run (`summarizeBenchmarkRun` and `usageSummary`, src/benchmark/report.ts). Rates and sums are exact reals. */
module Summary {
  import opened BenchTypes
  import opened Sorting
  import opened Report

  datatype CaseSummary = CaseSummary(
    caseId: string,
    plannedTrials: int,
    trials: nat,
    passed: nat,
    failed: nat,
    unscored: nat,
    successRate: Option<real>)

  datatype UsageSummary = UsageSummary(observed: Option<real>, knownTrials: nat, unknownTrials: int, complete: bool)

  datatype RunSummary = RunSummary(
    plannedTrials: int,
    recordedTrials: nat,
    validTrials: nat,
    passedTrials: nat,
    failedTrials: nat,
    unscoredTrials: int,
    missingTrials: int,
    coverage: real,
    successRate: Option<real>,
    observedCaseSuccessRate: Option<real>,
    statuses: map<WorkerStatus, nat>,
    cases: seq<CaseSummary>,
    inputTokens: UsageSummary,
    outputTokens: UsageSummary,
    costUsd: UsageSummary)

  // ---------------------------------------------------------------- counters

  /** What counting looks at in a trial. */
  datatype Mark = Mark(caseId: string, repetition: nat, verdict: Verdict, status: WorkerStatus)

  function MarkOf(t: Trial): Mark { Mark(t.caseId, t.repetition, VerdictOf(t), t.result.status) }

  function Marks(trials: seq<Trial>): (m: seq<Mark>)
    ensures |m| == |trials| && forall i :: 0 <= i < |m| ==> m[i] == MarkOf(trials[i])
  {
    seq(|trials|, i requires 0 <= i < |trials| => MarkOf(trials[i]))
  }

  /** What the counters of one case hold. */
  datatype Counts = Counts(trials: nat, passed: nat, failed: nat, unscored: nat)

  function Count(c: Counts, v: Verdict): Counts {
    match v
    case Pass => c.(trials := c.trials + 1, passed := c.passed + 1)
    case Fail => c.(trials := c.trials + 1, failed := c.failed + 1)
    case Unscored => c.(trials := c.trials + 1, unscored := c.unscored + 1)
  }

  function CaseCounts(marks: seq<Mark>, caseId: string): (c: Counts)
    ensures c.trials == c.passed + c.failed + c.unscored
  {
    if marks == [] then Counts(0, 0, 0, 0)
    else
      var before := CaseCounts(marks[..|marks| - 1], caseId);
      if marks[|marks| - 1].caseId == caseId then Count(before, marks[|marks| - 1].verdict) else before
  }

  function StatusCount(marks: seq<Mark>, s: WorkerStatus): nat {
    if marks == [] then 0
    else StatusCount(marks[..|marks| - 1], s) + if marks[|marks| - 1].status == s then 1 else 0
  }

  function VerdictCount(marks: seq<Mark>, v: Verdict): nat {
    if marks == [] then 0
    else VerdictCount(marks[..|marks| - 1], v) + if marks[|marks| - 1].verdict == v then 1 else 0
  }

  predicate CountsAs(m: Mark, caseId: string, v: Verdict) { m.caseId == caseId && m.verdict == v }

  /** The positions that count: an independent reading of the counters. */
  ghost function Positions(marks: seq<Mark>, caseId: string, v: Verdict): set<nat> {
    set i | 0 <= i < |marks| && CountsAs(marks[i], caseId, v)
  }

  lemma PositionsStep(marks: seq<Mark>, m: Mark, caseId: string, v: Verdict)
    ensures |Positions(marks + [m], caseId, v)| == |Positions(marks, caseId, v)| + if CountsAs(m, caseId, v) then 1 else 0
  {
    var all, old_ := Positions(marks + [m], caseId, v), Positions(marks, caseId, v);
    assert forall i :: 0 <= i < |marks| ==> (marks + [m])[i] == marks[i];
    assert (marks + [m])[|marks|] == m;
    if CountsAs(m, caseId, v) {
      assert all == old_ + {|marks|};
    } else {
      assert all == old_;
    }
  }

  lemma {:induction false} CountsMean(marks: seq<Mark>, caseId: string)
    ensures CaseCounts(marks, caseId).passed == |Positions(marks, caseId, Pass)|
    ensures CaseCounts(marks, caseId).failed == |Positions(marks, caseId, Fail)|
    ensures CaseCounts(marks, caseId).unscored == |Positions(marks, caseId, Unscored)|
  {
    if marks != [] {
      var rest, m := marks[..|marks| - 1], marks[|marks| - 1];
      assert marks == rest + [m];
      CountsMean(rest, caseId);
      PositionsStep(rest, m, caseId, Pass);
      PositionsStep(rest, m, caseId, Fail);
      PositionsStep(rest, m, caseId, Unscored);
    }
  }

  // ---------------------------------------------------------------- the summary

  function Max(a: int, b: int): int { if a >= b then a else b }

  /** A case's row once counting is done. */
  function RowFrom(caseId: string, repetitions: int, c: Counts): CaseSummary {
    CaseSummary(caseId, repetitions, c.trials, c.passed, c.failed, c.unscored, Rate(c.passed, c.failed))
  }

  function Rate(passed: nat, failed: nat): Option<real> {
    if passed + failed == 0 then None else Some(passed as real / (passed + failed) as real)
  }

  function CaseRows(marks: seq<Mark>, repetitions: int, caseIds: seq<string>): (rows: seq<CaseSummary>)
    ensures |rows| == |caseIds|
    ensures forall i :: 0 <= i < |rows| ==> rows[i] == RowFrom(caseIds[i], repetitions, CaseCounts(marks, caseIds[i]))
  {
    if caseIds == [] then []
    else [RowFrom(caseIds[0], repetitions, CaseCounts(marks, caseIds[0]))] + CaseRows(marks, repetitions, caseIds[1..])
  }

  /** The keys of a map in the order they were first inserted. */
  function FirstSeen(ids: seq<string>): (r: seq<string>)
    ensures forall id :: id in r <==> id in ids
  {
    if ids == [] then []
    else
      var before, last := FirstSeen(ids[..|ids| - 1]), ids[|ids| - 1];
      assert ids == ids[..|ids| - 1] + [last];
      if last in before then before else before + [last]
  }

  lemma {:induction false} AllFirstSeen(ids: seq<string>)
    requires Distinct(ids)
    ensures FirstSeen(ids) == ids
  {
    if ids != [] {
      AllFirstSeen(ids[..|ids| - 1]);
      assert ids == ids[..|ids| - 1] + [ids[|ids| - 1]];
    }
  }

  function RowsOf(run: RunRecord): seq<CaseSummary> { CaseRows(Marks(run.trials), run.repetitions, FirstSeen(run.caseIds)) }

  function SumPassed(cases: seq<CaseSummary>): nat {
    if cases == [] then 0 else cases[0].passed + SumPassed(cases[1..])
  }

  function SumFailed(cases: seq<CaseSummary>): nat {
    if cases == [] then 0 else cases[0].failed + SumFailed(cases[1..])
  }

  function SumTrials(cases: seq<CaseSummary>): nat {
    if cases == [] then 0 else cases[0].trials + SumTrials(cases[1..])
  }

  /** The rates of the cases that have one. */
  function Rates(cases: seq<CaseSummary>): seq<real> {
    if cases == [] then []
    else if cases[0].successRate.Some? then [cases[0].successRate.value] + Rates(cases[1..])
    else Rates(cases[1..])
  }

  function Sum(values: seq<real>): real {
    if values == [] then 0.0 else values[0] + Sum(values[1..])
  }

  function Mean(values: seq<real>): Option<real> {
    if values == [] then None else Some(Sum(values) / |values| as real)
  }

  datatype Measure = InputTokens | OutputTokens | CostUsd

  /** A reported, host-measured amount. */
  function Amount(u: Usage, m: Measure): Option<real> {
    if u.source.Unavailable? then None
    else
      match m
      case InputTokens => if u.inputTokens.Some? then Some(u.inputTokens.value as real) else None
      case OutputTokens => if u.outputTokens.Some? then Some(u.outputTokens.value as real) else None
      case CostUsd => if u.costUsd.Some? && u.costUsd.value >= 0.0 then u.costUsd else None
  }

  function Known(trials: seq<Trial>, m: Measure): seq<real> {
    if trials == [] then []
    else
      var first := Amount(trials[0].result.usage, m);
      (if first.Some? then [first.value] else []) + Known(trials[1..], m)
  }

  function UsageOf(run: RunRecord, m: Measure): UsageSummary {
    var known := Known(run.trials, m);
    var unknown := Max(run.plannedTrials, |run.trials|) - |known|;
    UsageSummary(if known == [] then None else Some(Sum(known)), |known|, unknown, run.status.RunCompleted? && unknown == 0)
  }

  /** Every planned trial was recorded, scored and confirmed. */
  predicate IsComplete(run: RunRecord, cases: seq<CaseSummary>) {
    && run.status.RunCompleted? && run.plannedTrials > 0
    && SumPassed(cases) + SumFailed(cases) == run.plannedTrials && |run.trials| == run.plannedTrials
    && (forall i :: 0 <= i < |cases| ==> cases[i].trials == cases[i].plannedTrials)
    && (forall i :: 0 <= i < |run.trials| ==> TrialConfirmed(run.trials[i]))
  }

  function Assemble(run: RunRecord, cases: seq<CaseSummary>, statuses: map<WorkerStatus, nat>): RunSummary {
    var passed, failed := SumPassed(cases), SumFailed(cases);
    var observed := Mean(Rates(cases));
    RunSummary(
      run.plannedTrials, |run.trials|, passed + failed, passed, failed, |run.trials| - (passed + failed),
      Max(0, run.plannedTrials - |run.trials|), Coverage(passed + failed, run.plannedTrials),
      if IsComplete(run, cases) then observed else None, observed, statuses, cases,
      UsageOf(run, InputTokens), UsageOf(run, OutputTokens), UsageOf(run, CostUsd))
  }

  function Coverage(valid: nat, planned: int): real {
    if planned > 0 then if valid >= planned then 1.0 else valid as real / planned as real else 0.0
  }

  const ALL_STATUSES: set<WorkerStatus> := {Completed, TaskFailure, TaskTimeout, InfraError, Invalid, Cancelled}

  lemma EveryStatus(s: WorkerStatus)
    ensures s in ALL_STATUSES
  {
    match s case Completed => case TaskFailure => case TaskTimeout => case InfraError => case Invalid => case Cancelled =>
  }

  function StatusCounts(marks: seq<Mark>): map<WorkerStatus, nat> {
    map s | s in ALL_STATUSES :: StatusCount(marks, s)
  }

  function SummaryOf(run: RunRecord): RunSummary {
    Assemble(run, RowsOf(run), StatusCounts(Marks(run.trials)))
  }

  // ---------------------------------------------------------------- the counting loop

  ghost predicate CountedTo(byCase: map<string, Counts>, caseIds: seq<string>, marks: seq<Mark>) {
    && (forall id :: id in byCase <==> id in caseIds)
    && (forall id :: id in byCase ==> byCase[id] == CaseCounts(marks, id))
  }

  lemma CountsOneMore(byCase: map<string, Counts>, caseIds: seq<string>, marks: seq<Mark>, m: Mark)
    requires CountedTo(byCase, caseIds, marks) && m.caseId in byCase
    ensures CountedTo(byCase[m.caseId := Count(byCase[m.caseId], m.verdict)], caseIds, marks + [m])
  {
    assert (marks + [m])[..|marks|] == marks;
  }

  lemma StatusOneMore(marks: seq<Mark>, m: Mark)
    ensures m.status in StatusCounts(marks)
    ensures StatusCounts(marks + [m]) == StatusCounts(marks)[m.status := StatusCounts(marks)[m.status] + 1]
  {
    EveryStatus(m.status);
    assert (marks + [m])[..|marks|] == marks;
  }

  /** The loop over the trials; a trial outside the plan stops it. */
  method CountTrials(run: RunRecord) returns (ok: bool, byCase: map<string, Counts>, statuses: map<WorkerStatus, nat>)
    ensures ok <==> InPlan(Marks(run.trials), run.caseIds)
    ensures ok ==> CountedTo(byCase, run.caseIds, Marks(run.trials)) && statuses == StatusCounts(Marks(run.trials))
  {
    ok, byCase, statuses := CountMarks(Marks(run.trials), run.caseIds);
  }

  method CountMarks(marks: seq<Mark>, caseIds: seq<string>) returns (ok: bool, byCase: map<string, Counts>, statuses: map<WorkerStatus, nat>)
    ensures ok <==> InPlan(marks, caseIds)
    ensures ok ==> CountedTo(byCase, caseIds, marks) && statuses == StatusCounts(marks)
  {
    byCase := map id | id in caseIds :: Counts(0, 0, 0, 0);
    statuses := map s | s in ALL_STATUSES :: 0;
    for n := 0 to |marks|
      invariant CountedTo(byCase, caseIds, marks[..n]) && statuses == StatusCounts(marks[..n])
      invariant InPlan(marks[..n], caseIds)
    {
      var mark := marks[n];
      assert marks[..n + 1] == marks[..n] + [mark];
      StatusOneMore(marks[..n], mark);
      statuses := statuses[mark.status := statuses[mark.status] + 1];
      if mark.caseId !in byCase { return false, byCase, statuses; }
      CountsOneMore(byCase, caseIds, marks[..n], mark);
      byCase := byCase[mark.caseId := Count(byCase[mark.caseId], mark.verdict)];
    }
    assert marks[..|marks|] == marks;
    return true, byCase, statuses;
  }

  /** `summarizeBenchmarkRun`. */
  method Summarize(run: RunRecord) returns (r: Outcome<RunSummary>)
    ensures r.Returned? <==> InPlan(Marks(run.trials), run.caseIds)
    ensures r.Returned? ==> r.value == SummaryOf(run)
  {
    var ok, byCase, statuses := CountTrials(run);
    if !ok { return Threw; }
    var cases := [];
    var ids := FirstSeen(run.caseIds);
    for i := 0 to |ids|
      invariant |cases| == i && forall k :: 0 <= k < i ==> cases[k] == RowsOf(run)[k]
    {
      assert ids[i] in run.caseIds;
      cases := cases + [RowFrom(ids[i], run.repetitions, byCase[ids[i]])];
    }
    assert cases == RowsOf(run);
    return Returned(Assemble(run, cases, statuses));
  }

  // ---------------------------------------------------------------- counts add up

  lemma {:induction false} RowsWithoutTrials(n: int, ids: seq<string>)
    ensures SumTrials(CaseRows([], n, ids)) == SumPassed(CaseRows([], n, ids)) == SumFailed(CaseRows([], n, ids)) == 0
  {
    if ids != [] { RowsWithoutTrials(n, ids[1..]); }
  }

  /** One more trial adds one to the column of its verdict, over all cases. */
  lemma {:induction false} RowsStep(marks: seq<Mark>, m: Mark, n: int, ids: seq<string>)
    requires Distinct(ids)
    ensures SumTrials(CaseRows(marks + [m], n, ids)) == SumTrials(CaseRows(marks, n, ids)) + (if m.caseId in ids then 1 else 0)
    ensures SumPassed(CaseRows(marks + [m], n, ids)) ==
      SumPassed(CaseRows(marks, n, ids)) + (if m.caseId in ids && m.verdict.Pass? then 1 else 0)
    ensures SumFailed(CaseRows(marks + [m], n, ids)) ==
      SumFailed(CaseRows(marks, n, ids)) + (if m.caseId in ids && m.verdict.Fail? then 1 else 0)
  {
    if ids != [] {
      RowsStep(marks, m, n, ids[1..]);
      assert (marks + [m])[..|marks|] == marks;
      assert ids[0] !in ids[1..];
      assert m.caseId in ids <==> m.caseId == ids[0] || m.caseId in ids[1..];
    }
  }

  ghost predicate InPlan(marks: seq<Mark>, ids: seq<string>) {
    forall i :: 0 <= i < |marks| ==> marks[i].caseId in ids
  }

  /** The case rows together count every trial once. */
  lemma {:induction false} RowsTotal(marks: seq<Mark>, n: int, ids: seq<string>)
    requires Distinct(ids) && InPlan(marks, ids)
    ensures SumTrials(CaseRows(marks, n, ids)) == |marks|
    ensures SumPassed(CaseRows(marks, n, ids)) == VerdictCount(marks, Pass)
    ensures SumFailed(CaseRows(marks, n, ids)) == VerdictCount(marks, Fail)
  {
    if marks == [] {
      RowsWithoutTrials(n, ids);
    } else {
      var rest, m := marks[..|marks| - 1], marks[|marks| - 1];
      assert marks == rest + [m];
      RowsTotal(rest, n, ids);
      RowsStep(rest, m, n, ids);
    }
  }

  lemma {:induction false} VerdictsPartition(marks: seq<Mark>)
    ensures VerdictCount(marks, Pass) + VerdictCount(marks, Fail) + VerdictCount(marks, Unscored) == |marks|
  {
    if marks != [] { VerdictsPartition(marks[..|marks| - 1]); }
  }

  lemma {:induction false} StatusesPartition(marks: seq<Mark>)
    ensures StatusCount(marks, Completed) + StatusCount(marks, TaskFailure) + StatusCount(marks, TaskTimeout)
      + StatusCount(marks, InfraError) + StatusCount(marks, Invalid) + StatusCount(marks, Cancelled) == |marks|
  {
    if marks != [] { StatusesPartition(marks[..|marks| - 1]); }
  }

  // ---------------------------------------------------------------- pigeonhole

  ghost predicate UniqueMarks(marks: seq<Mark>) {
    forall i, j :: 0 <= i < j < |marks| ==> marks[i].caseId != marks[j].caseId || marks[i].repetition != marks[j].repetition
  }

  ghost function RepetitionsOf(marks: seq<Mark>, caseId: string): set<nat> {
    set i | 0 <= i < |marks| && marks[i].caseId == caseId :: marks[i].repetition
  }

  lemma RepetitionIn(marks: seq<Mark>, m: Mark, caseId: string, x: nat)
    ensures x in RepetitionsOf(marks + [m], caseId) <==> x in RepetitionsOf(marks, caseId) || (m.caseId == caseId && m.repetition == x)
  {
    var all := marks + [m];
    if x in RepetitionsOf(marks, caseId) {
      var i :| 0 <= i < |marks| && marks[i].caseId == caseId && marks[i].repetition == x;
      assert all[i] == marks[i];
    }
    if m.caseId == caseId && m.repetition == x { assert all[|marks|] == m; }
  }

  lemma NewRepetition(marks: seq<Mark>, m: Mark)
    requires UniqueMarks(marks + [m])
    ensures m.repetition !in RepetitionsOf(marks, m.caseId)
  {
    var all := marks + [m];
    forall i | 0 <= i < |marks| ensures marks[i].caseId != m.caseId || marks[i].repetition != m.repetition {
      assert all[i] == marks[i] && all[|marks|] == m;
    }
  }

  lemma RepetitionsStep(marks: seq<Mark>, m: Mark, caseId: string)
    requires UniqueMarks(marks + [m])
    ensures |RepetitionsOf(marks + [m], caseId)| == |RepetitionsOf(marks, caseId)| + if m.caseId == caseId then 1 else 0
  {
    var all, old_ := RepetitionsOf(marks + [m], caseId), RepetitionsOf(marks, caseId);
    forall x ensures x in all <==> x in old_ || (m.caseId == caseId && m.repetition == x) { RepetitionIn(marks, m, caseId, x); }
    NewRepetition(marks, m);
    assert all == if m.caseId == caseId then old_ + {m.repetition} else old_;
  }

  lemma {:induction false} CountIsRepetitions(marks: seq<Mark>, caseId: string)
    requires UniqueMarks(marks)
    ensures CaseCounts(marks, caseId).trials == |RepetitionsOf(marks, caseId)|
  {
    if marks != [] {
      var rest, m := marks[..|marks| - 1], marks[|marks| - 1];
      assert marks == rest + [m];
      CountIsRepetitions(rest, caseId);
      RepetitionsStep(rest, m, caseId);
    }
  }

  lemma {:induction false} BoundedSet(s: set<nat>, n: nat)
    requires forall x :: x in s ==> x < n
    ensures |s| <= n
  {
    if n == 0 {
      assert s == {};
    } else {
      BoundedSet(s - {n - 1}, n - 1);
      if n - 1 in s {
        assert s == (s - {n - 1}) + {n - 1};
      } else {
        assert s == s - {n - 1};
      }
    }
  }

  /** What a validated record says about its marks. */
  ghost predicate PlannedMarks(marks: seq<Mark>, n: nat, ids: seq<string>) {
    Distinct(ids) && InPlan(marks, ids) && UniqueMarks(marks) && forall i :: 0 <= i < |marks| ==> marks[i].repetition < n
  }

  lemma ValidMarks(run: RunRecord)
    requires ValidRecord(run)
    ensures PlannedMarks(Marks(run.trials), run.repetitions, run.caseIds)
  {
    var marks := Marks(run.trials);
    forall i | 0 <= i < |marks| ensures marks[i].caseId in run.caseIds && marks[i].repetition < run.repetitions {
      assert Planned(run, run.trials[i]);
    }
    forall i, j | 0 <= i < j < |marks| ensures marks[i].caseId != marks[j].caseId || marks[i].repetition != marks[j].repetition {
      assert Key(run.trials[i]) != Key(run.trials[j]);
    }
  }

  /** No case can have more trials than repetitions. */
  lemma CaseBound(marks: seq<Mark>, n: nat, ids: seq<string>, caseId: string)
    requires PlannedMarks(marks, n, ids)
    ensures CaseCounts(marks, caseId).trials <= n
  {
    CountIsRepetitions(marks, caseId);
    BoundedSet(RepetitionsOf(marks, caseId), n);
  }

  /** Full rows: a total that reaches the bound leaves no row below it. */
  lemma {:induction false} Pigeonhole(rows: seq<CaseSummary>, n: nat)
    requires forall i :: 0 <= i < |rows| ==> rows[i].trials <= n
    ensures SumTrials(rows) <= |rows| * n
    ensures SumTrials(rows) == |rows| * n ==> forall i :: 0 <= i < |rows| ==> rows[i].trials == n
  {
    if rows != [] {
      Pigeonhole(rows[1..], n);
      assert |rows| * n == n + |rows[1..]| * n;
      assert forall i :: 1 <= i < |rows| ==> rows[i] == rows[1..][i - 1];
    }
  }

  lemma RowsBounded(marks: seq<Mark>, n: nat, ids: seq<string>)
    requires PlannedMarks(marks, n, ids)
    ensures |marks| <= |ids| * n
    ensures |marks| == |ids| * n ==> forall i :: 0 <= i < |ids| ==> CaseRows(marks, n, ids)[i].trials == n
  {
    var rows := CaseRows(marks, n, ids);
    forall i | 0 <= i < |rows| ensures rows[i].trials <= n { CaseBound(marks, n, ids, ids[i]); }
    Pigeonhole(rows, n);
    RowsTotal(marks, n, ids);
  }

  /** Every recorded trial is counted under its stored verdict, and the counts with the missing ones make up the plan. */
  lemma CountsAddUp(run: RunRecord)
    requires ValidRecord(run)
    ensures var s, marks := SummaryOf(run), Marks(run.trials);
      && s.passedTrials == VerdictCount(marks, Pass) && s.failedTrials == VerdictCount(marks, Fail)
      && s.unscoredTrials == VerdictCount(marks, Unscored)
      && s.passedTrials + s.failedTrials + s.unscoredTrials + s.missingTrials == s.plannedTrials
      && s.recordedTrials == s.passedTrials + s.failedTrials + s.unscoredTrials
  {
    var marks := Marks(run.trials);
    ValidMarks(run);
    AllFirstSeen(run.caseIds);
    RowsTotal(marks, run.repetitions, run.caseIds);
    RowsBounded(marks, run.repetitions, run.caseIds);
    VerdictsPartition(marks);
  }

  /** The marks carry the verdicts stored in the record. */
  lemma MarksStored(run: RunRecord)
    requires ValidRecord(run)
    ensures forall i :: 0 <= i < |run.trials| ==> Marks(run.trials)[i].verdict == run.trials[i].grade.verdict
  {
    VerdictAgrees(run);
  }

  // ---------------------------------------------------------------- completeness

  lemma {:induction false} NoneUnscored(marks: seq<Mark>)
    requires forall i :: 0 <= i < |marks| ==> !marks[i].verdict.Unscored?
    ensures VerdictCount(marks, Unscored) == 0
    ensures forall id :: CaseCounts(marks, id).unscored == 0
  {
    if marks != [] { NoneUnscored(marks[..|marks| - 1]); }
  }

  lemma CompletedAllScored(run: RunRecord)
    requires ValidRecord(run) && run.status.RunCompleted?
    ensures forall i :: 0 <= i < |run.trials| ==> !Marks(run.trials)[i].verdict.Unscored? && TrialConfirmed(run.trials[i])
  {
    MarksStored(run);
    assert forall i :: 0 <= i < |run.trials| ==> Scored(run.trials[i]);
  }

  ghost predicate FullRow(row: CaseSummary, n: int) {
    row.trials == n && row.unscored == 0 && row.passed + row.failed == n
  }

  ghost predicate Rated(row: CaseSummary) { row.successRate == Rate(row.passed, row.failed) }

  ghost predicate AllFull(rows: seq<CaseSummary>, n: int) { forall i :: 0 <= i < |rows| ==> FullRow(rows[i], n) }

  ghost predicate AllRowsRated(rows: seq<CaseSummary>) { forall i :: 0 <= i < |rows| ==> Rated(rows[i]) }

  lemma RowsAreRated(marks: seq<Mark>, n: int, ids: seq<string>)
    ensures AllRowsRated(CaseRows(marks, n, ids))
  {}

  lemma FullRows(marks: seq<Mark>, n: nat, ids: seq<string>)
    requires PlannedMarks(marks, n, ids) && |marks| == |ids| * n
    requires forall i :: 0 <= i < |marks| ==> !marks[i].verdict.Unscored?
    ensures AllFull(CaseRows(marks, n, ids), n)
    ensures SumPassed(CaseRows(marks, n, ids)) + SumFailed(CaseRows(marks, n, ids)) == |marks|
  {
    NoneUnscored(marks);
    RowsBounded(marks, n, ids);
    RowsTotal(marks, n, ids);
    VerdictsPartition(marks);
  }

  /** `x` taken `n` times. */
  ghost function Times(x: real, n: nat): real {
    if n == 0 then 0.0 else x + Times(x, n - 1)
  }

  lemma {:induction false} TimesIs(x: real, n: nat)
    ensures Times(x, n) == x * n as real
  {
    if n > 0 { TimesIs(x, n - 1); }
  }

  lemma {:induction false} TimesAdds(x: real, y: real, n: nat)
    ensures Times(x + y, n) == Times(x, n) + Times(y, n)
  {
    if n > 0 { TimesAdds(x, y, n - 1); }
  }

  lemma RateTimes(row: CaseSummary, n: nat)
    requires n > 0 && FullRow(row, n) && Rated(row)
    ensures row.successRate.Some? && Times(row.successRate.value, n) == row.passed as real
  {
    TimesIs(row.successRate.value, n);
  }

  lemma {:induction false} RatesFull(rows: seq<CaseSummary>, n: nat)
    requires n > 0 && AllFull(rows, n) && AllRowsRated(rows)
    ensures |Rates(rows)| == |rows| && Times(Sum(Rates(rows)), n) == SumPassed(rows) as real
  {
    if rows == [] {
      TimesIs(0.0, n);
    } else {
      RatesFull(rows[1..], n);
      RateTimes(rows[0], n);
      TimesAdds(rows[0].successRate.value, Sum(Rates(rows[1..])), n);
      assert Rates(rows)[1..] == Rates(rows[1..]);
    }
  }

  /** The mean over the cases is the share of all trials. */
  lemma MeanIsShare(sum: real, cases: nat, n: nat, passed: nat)
    requires n > 0 && cases > 0 && sum * n as real == passed as real
    ensures sum / cases as real == passed as real / (cases * n) as real
  {
    var c, m := cases as real, n as real;
    assert (cases * n) as real == c * m;
    assert (sum / c) * (c * m) == sum * m;
  }

  lemma MeanShare(rates: seq<real>, cases: nat, n: nat, passed: nat)
    requires n > 0 && cases > 0 && |rates| == cases && Times(Sum(rates), n) == passed as real
    ensures Mean(rates) == Some(passed as real / (cases * n) as real)
  {
    TimesIs(Sum(rates), n);
    MeanIsShare(Sum(rates), cases, n, passed);
  }

  lemma FullMean(rows: seq<CaseSummary>, n: nat)
    requires n > 0 && rows != [] && AllFull(rows, n) && AllRowsRated(rows)
    ensures Mean(Rates(rows)) == Some(SumPassed(rows) as real / (|rows| * n) as real)
  {
    RatesFull(rows, n);
    MeanShare(Rates(rows), |rows|, n, SumPassed(rows));
  }

  lemma PlanPositive(cases: nat, repetitions: nat)
    requires cases >= 1 && repetitions >= 1
    ensures cases * repetitions >= 1
  {}

  lemma CompleteFrom(run: RunRecord, rows: seq<CaseSummary>)
    requires run.status.RunCompleted? && run.plannedTrials > 0 && |run.trials| == run.plannedTrials
    requires SumPassed(rows) + SumFailed(rows) == run.plannedTrials && AllFull(rows, run.repetitions)
    requires forall i :: 0 <= i < |rows| ==> rows[i].plannedTrials == run.repetitions
    requires forall i :: 0 <= i < |run.trials| ==> TrialConfirmed(run.trials[i])
    ensures IsComplete(run, rows)
  {
    assert forall i :: 0 <= i < |rows| ==> FullRow(rows[i], run.repetitions);
  }

  /** In a completed run every case has all its repetitions, each scored. */
  lemma CompletedRows(run: RunRecord)
    requires ValidRecord(run) && run.status.RunCompleted?
    ensures IsComplete(run, RowsOf(run)) && |RowsOf(run)| == |run.caseIds|
    ensures AllFull(RowsOf(run), run.repetitions) && AllRowsRated(RowsOf(run))
  {
    CompletedAllScored(run);
    ValidMarks(run);
    PlanPositive(|run.caseIds|, run.repetitions);
    CompletedRowsFrom(run);
  }

  lemma CompletedRowsFrom(run: RunRecord)
    requires run.repetitions >= 0 && PlannedMarks(Marks(run.trials), run.repetitions, run.caseIds)
    requires run.status.RunCompleted? && |run.trials| == run.plannedTrials == |run.caseIds| * run.repetitions > 0
    requires forall i :: 0 <= i < |run.trials| ==> !Marks(run.trials)[i].verdict.Unscored? && TrialConfirmed(run.trials[i])
    ensures IsComplete(run, RowsOf(run)) && |RowsOf(run)| == |run.caseIds|
    ensures AllFull(RowsOf(run), run.repetitions) && AllRowsRated(RowsOf(run))
  {
    var marks := Marks(run.trials);
    AllFirstSeen(run.caseIds);
    FullRows(marks, run.repetitions, run.caseIds);
    RowsAreRated(marks, run.repetitions, run.caseIds);
    CompleteFrom(run, CaseRows(marks, run.repetitions, run.caseIds));
  }

  ghost predicate CompletedSummary(run: RunRecord, s: RunSummary) {
    && s.plannedTrials == run.plannedTrials > 0
    && s.successRate == Some(s.passedTrials as real / s.plannedTrials as real)
    && s.validTrials == s.plannedTrials && s.missingTrials == 0 && s.unscoredTrials == 0 && s.coverage == 1.0
    && |s.cases| == |run.caseIds|
    && AllFull(s.cases, run.repetitions)
  }

  /**
   * Completeness: an overall success rate is given exactly for completed runs; it is then passed over planned,
   * and every case has exactly its repetitions.
   */
  lemma SuccessRateIffCompleted(run: RunRecord)
    requires ValidRecord(run)
    ensures SummaryOf(run).successRate.Some? <==> run.status.RunCompleted?
    ensures run.status.RunCompleted? ==> CompletedSummary(run, SummaryOf(run))
  {
    if run.status.RunCompleted? {
      CompletedRows(run);
      FullMean(RowsOf(run), run.repetitions);
    }
  }

  // ---------------------------------------------------------------- usage

  lemma {:induction false} KnownBounded(trials: seq<Trial>, m: Measure)
    ensures |Known(trials, m)| <= |trials|
    ensures |Known(trials, m)| == |trials| <==> forall i :: 0 <= i < |trials| ==> Amount(trials[i].result.usage, m).Some?
  {
    if trials != [] {
      KnownBounded(trials[1..], m);
      assert forall i :: 1 <= i < |trials| ==> trials[i] == trials[1..][i - 1];
      assert trials[0] == trials[0];
    }
  }

  /** A usage total is complete exactly when the run is and every trial reported the amount. */
  lemma UsageComplete(run: RunRecord, m: Measure)
    requires ValidRecord(run)
    ensures var u := UsageOf(run, m);
      && u.knownTrials + u.unknownTrials == run.plannedTrials && u.unknownTrials >= 0
      && (u.complete <==> run.status.RunCompleted? && forall i :: 0 <= i < |run.trials| ==> Amount(run.trials[i].result.usage, m).Some?)
      && (u.complete ==> u.observed.Some?)
  {
    KnownBounded(run.trials, m);
    ValidMarks(run);
    RowsBounded(Marks(run.trials), run.repetitions, run.caseIds);
    if run.status.RunCompleted? { PlanPositive(|run.caseIds|, run.repetitions); }
  }
}
