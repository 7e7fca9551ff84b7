/** What the numbers of a summary mean, read off the recorded trials (`summarizeBenchmarkRun`, src/benchmark/report.ts). */
module Totals {
  import opened BenchTypes
  import opened Sorting
  import opened Report
  import opened Summary

  // ---------------------------------------------------------------- sums and counts of what was reported

  /** The sum of what is there. */
  ghost function SumOf<T(!new)>(s: seq<T>, f: T -> Option<real>): real {
    if s == [] then 0.0
    else SumOf(s[..|s| - 1], f) + (if f(s[|s| - 1]).Some? then f(s[|s| - 1]).value else 0.0)
  }

  /** The positions where something is there. */
  ghost function Having<T(!new)>(s: seq<T>, f: T -> Option<real>): set<nat> {
    set i: nat | i < |s| && f(s[i]).Some?
  }

  lemma HavingStep<T(!new)>(s: seq<T>, f: T -> Option<real>)
    requires s != []
    ensures |Having(s, f)| == |Having(s[..|s| - 1], f)| + if f(s[|s| - 1]).Some? then 1 else 0
  {
    var n := |s| - 1;
    var before := Having(s[..n], f);
    assert forall i :: 0 <= i < n ==> s[..n][i] == s[i];
    assert Having(s, f) == if f(s[n]).Some? then before + {n} else before;
  }

  /** A total and how many values went into it; there is no total without a value. */
  ghost predicate IsTotal<T(!new)>(observed: Option<real>, known: nat, s: seq<T>, f: T -> Option<real>) {
    known == |Having(s, f)| && observed == if known == 0 then None else Some(SumOf(s, f))
  }

  /** The values that are there, in order. */
  ghost predicate Collects<T(!new)>(values: seq<real>, s: seq<T>, f: T -> Option<real>) {
    |values| == |Having(s, f)| && Sum(values) == SumOf(s, f)
  }

  lemma NothingCollected<T(!new)>(f: T -> Option<real>)
    ensures Collects([], [], f)
  {
    assert Having([], f) == {};
  }

  lemma CollectOne<T(!new)>(values: seq<real>, s: seq<T>, x: T, f: T -> Option<real>)
    requires Collects(values, s, f)
    ensures Collects(if f(x).Some? then values + [f(x).value] else values, s + [x], f)
  {
    assert (s + [x])[..|s|] == s;
    HavingStep(s + [x], f);
    if f(x).Some? { SumSnoc(values, f(x).value); }
  }

  lemma {:induction false} SumSnoc(values: seq<real>, x: real)
    ensures Sum(values + [x]) == Sum(values) + x
  {
    if values == [] {
      assert [x][1..] == [] && values + [x] == [x];
    } else {
      assert (values + [x])[1..] == values[1..] + [x];
      SumSnoc(values[1..], x);
    }
  }

  // ---------------------------------------------------------------- usage

  /** What the host reported of a trial; an amount below zero is not taken. */
  function InputOf(t: Trial): Option<real> {
    if t.result.usage.source.Host? && t.result.usage.inputTokens.Some? then Some(t.result.usage.inputTokens.value as real) else None
  }

  function OutputOf(t: Trial): Option<real> {
    if t.result.usage.source.Host? && t.result.usage.outputTokens.Some? then Some(t.result.usage.outputTokens.value as real) else None
  }

  function CostOf(t: Trial): Option<real> {
    if t.result.usage.source.Host? && t.result.usage.costUsd.Some? && t.result.usage.costUsd.value >= 0.0 then t.result.usage.costUsd else None
  }

  lemma {:induction false} KnownSnoc(trials: seq<Trial>, t: Trial, m: Measure)
    ensures Known(trials + [t], m) ==
      if Amount(t.result.usage, m).Some? then Known(trials, m) + [Amount(t.result.usage, m).value] else Known(trials, m)
  {
    if trials == [] {
      assert trials + [t] == [t] && [t][1..] == [];
    } else {
      assert (trials + [t])[1..] == trials[1..] + [t];
      KnownSnoc(trials[1..], t, m);
    }
  }

  lemma {:induction false} KnownCollects(trials: seq<Trial>, m: Measure, f: Trial -> Option<real>)
    requires forall t :: f(t) == Amount(t.result.usage, m)
    ensures Collects(Known(trials, m), trials, f)
  {
    if trials == [] {
      NothingCollected(f);
    } else {
      var init, t := trials[..|trials| - 1], trials[|trials| - 1];
      assert trials == init + [t];
      KnownCollects(init, m, f);
      KnownSnoc(init, t, m);
      CollectOne(Known(init, m), init, t, f);
    }
  }

  lemma MeasuresRead()
    ensures forall t :: InputOf(t) == Amount(t.result.usage, InputTokens)
    ensures forall t :: OutputOf(t) == Amount(t.result.usage, OutputTokens)
    ensures forall t :: CostOf(t) == Amount(t.result.usage, CostUsd)
  {}

  /** Each measure totals its own amounts. */
  ghost predicate UsageMeans(s: RunSummary, trials: seq<Trial>) {
    && IsTotal(s.inputTokens.observed, s.inputTokens.knownTrials, trials, InputOf)
    && IsTotal(s.outputTokens.observed, s.outputTokens.knownTrials, trials, OutputOf)
    && IsTotal(s.costUsd.observed, s.costUsd.knownTrials, trials, CostOf)
  }

  lemma UsageTotals(run: RunRecord)
    ensures UsageMeans(SummaryOf(run), run.trials)
  {
    MeasuresRead();
    KnownCollects(run.trials, InputTokens, InputOf);
    KnownCollects(run.trials, OutputTokens, OutputOf);
    KnownCollects(run.trials, CostUsd, CostOf);
  }

  // ---------------------------------------------------------------- verdicts, statuses, coverage and rates

  /** The trials of a run, or of one case of it, with a stored verdict or a status. */
  ghost function Stored(run: RunRecord, v: Verdict): set<nat> {
    set i: nat | i < |run.trials| && run.trials[i].grade.verdict == v
  }

  ghost function StoredIn(run: RunRecord, id: string, v: Verdict): set<nat> {
    set i: nat | i < |run.trials| && run.trials[i].caseId == id && run.trials[i].grade.verdict == v
  }

  ghost function WithStatus(run: RunRecord, s: WorkerStatus): set<nat> {
    set i: nat | i < |run.trials| && run.trials[i].result.status == s
  }

  ghost function Judged(marks: seq<Mark>, v: Verdict): set<nat> { set i: nat | i < |marks| && marks[i].verdict == v }

  ghost function Ended(marks: seq<Mark>, s: WorkerStatus): set<nat> { set i: nat | i < |marks| && marks[i].status == s }

  lemma JudgedStep(marks: seq<Mark>, m: Mark, v: Verdict)
    ensures |Judged(marks + [m], v)| == |Judged(marks, v)| + if m.verdict == v then 1 else 0
  {
    var all, before := Judged(marks + [m], v), Judged(marks, v);
    assert forall i :: 0 <= i < |marks| ==> (marks + [m])[i] == marks[i];
    if m.verdict == v {
      assert all == before + {|marks|};
    } else {
      assert all == before;
    }
  }

  lemma EndedStep(marks: seq<Mark>, m: Mark, s: WorkerStatus)
    ensures |Ended(marks + [m], s)| == |Ended(marks, s)| + if m.status == s then 1 else 0
  {
    var all, before := Ended(marks + [m], s), Ended(marks, s);
    assert forall i :: 0 <= i < |marks| ==> (marks + [m])[i] == marks[i];
    if m.status == s {
      assert all == before + {|marks|};
    } else {
      assert all == before;
    }
  }

  lemma {:induction false} MarksCounted(marks: seq<Mark>, v: Verdict, s: WorkerStatus)
    ensures VerdictCount(marks, v) == |Judged(marks, v)| && StatusCount(marks, s) == |Ended(marks, s)|
  {
    if marks != [] {
      var init, m := marks[..|marks| - 1], marks[|marks| - 1];
      assert marks == init + [m];
      MarksCounted(init, v, s);
      JudgedStep(init, m, v);
      EndedStep(init, m, s);
    }
  }

  function CaseRate(row: CaseSummary): Option<real> { row.successRate }

  /** The row of one case: its trials by stored verdict, and the share that passed among those that were scored. */
  ghost predicate RowMeans(row: CaseSummary, run: RunRecord, id: string) {
    && row.caseId == id && row.plannedTrials == run.repetitions
    && row.passed == |StoredIn(run, id, Pass)| && row.failed == |StoredIn(run, id, Fail)| && row.unscored == |StoredIn(run, id, Unscored)|
    && row.trials == row.passed + row.failed + row.unscored
    && row.successRate == if row.passed + row.failed == 0 then None else Some(row.passed as real / (row.passed + row.failed) as real)
  }

  lemma RowFromMeans(run: RunRecord, id: string)
    requires ValidRecord(run)
    ensures RowMeans(RowFrom(id, run.repetitions, CaseCounts(Marks(run.trials), id)), run, id)
  {
    var marks := Marks(run.trials);
    MarksStored(run);
    CountsMean(marks, id);
    assert Positions(marks, id, Pass) == StoredIn(run, id, Pass);
    assert Positions(marks, id, Fail) == StoredIn(run, id, Fail);
    assert Positions(marks, id, Unscored) == StoredIn(run, id, Unscored);
  }

  lemma {:induction false} RatesSnoc(rows: seq<CaseSummary>, row: CaseSummary)
    ensures Rates(rows + [row]) == if row.successRate.Some? then Rates(rows) + [row.successRate.value] else Rates(rows)
  {
    if rows == [] {
      assert rows + [row] == [row] && [row][1..] == [];
    } else {
      assert (rows + [row])[1..] == rows[1..] + [row];
      RatesSnoc(rows[1..], row);
    }
  }

  lemma {:induction false} RatesCollect(rows: seq<CaseSummary>)
    ensures Collects(Rates(rows), rows, CaseRate)
  {
    if rows == [] {
      NothingCollected(CaseRate);
    } else {
      var init, row := rows[..|rows| - 1], rows[|rows| - 1];
      assert rows == init + [row];
      RatesCollect(init);
      RatesSnoc(init, row);
      CollectOne(Rates(init), init, row, CaseRate);
    }
  }

  /** One row per case in the order of the plan, and the mean of the rates there are. */
  ghost predicate CasesMean(s: RunSummary, run: RunRecord) {
    && |s.cases| == |run.caseIds| && (forall i :: 0 <= i < |s.cases| ==> RowMeans(s.cases[i], run, run.caseIds[i]))
    && s.observedCaseSuccessRate ==
         (var rated := Having(s.cases, CaseRate); if rated == {} then None else Some(SumOf(s.cases, CaseRate) / |rated| as real))
  }

  lemma CasesHold(run: RunRecord)
    requires ValidRecord(run)
    ensures CasesMean(SummaryOf(run), run)
  {
    AllFirstSeen(run.caseIds);
    RatesCollect(RowsOf(run));
    forall i | 0 <= i < |run.caseIds| ensures RowMeans(RowsOf(run)[i], run, run.caseIds[i]) { RowFromMeans(run, run.caseIds[i]); }
  }

  /** The counters are numbers of recorded trials. */
  ghost predicate CountsHold(s: RunSummary, run: RunRecord) {
    && s.plannedTrials == run.plannedTrials && s.recordedTrials == |run.trials|
    && s.passedTrials == |Stored(run, Pass)| && s.failedTrials == |Stored(run, Fail)| && s.unscoredTrials == |Stored(run, Unscored)|
    && s.validTrials == s.passedTrials + s.failedTrials
    && s.missingTrials == run.plannedTrials - |run.trials| >= 0
    && forall w :: w in s.statuses && s.statuses[w] == |WithStatus(run, w)|
  }

  /** Coverage is the scored share of the plan. */
  ghost predicate IsShare(share: real, part: nat, whole: int) {
    share * whole as real == part as real && 0.0 <= share <= 1.0
  }

  lemma CoverageIsShare(valid: nat, planned: int)
    requires 0 < planned && valid <= planned
    ensures IsShare(Coverage(valid, planned), valid, planned)
  {}

  lemma CoverageHolds(run: RunRecord)
    requires ValidRecord(run)
    ensures IsShare(SummaryOf(run).coverage, SummaryOf(run).validTrials, run.plannedTrials)
  {
    var valid := SummaryOf(run).validTrials;
    ScoredWithinPlan(run);
    CoverageIsShare(valid, run.plannedTrials);
    assert SummaryOf(run).coverage == Coverage(valid, run.plannedTrials);
  }

  lemma ScoredWithinPlan(run: RunRecord)
    requires ValidRecord(run)
    ensures SummaryOf(run).validTrials <= run.plannedTrials && run.plannedTrials > 0
  {
    CountsAddUp(run);
    WithinPlan(run);
  }

  lemma StatusesHold(run: RunRecord)
    ensures forall w :: w in StatusCounts(Marks(run.trials)) && StatusCounts(Marks(run.trials))[w] == |WithStatus(run, w)|
  {
    var marks := Marks(run.trials);
    forall w ensures w in StatusCounts(marks) && StatusCounts(marks)[w] == |WithStatus(run, w)| {
      EveryStatus(w);
      MarksCounted(marks, Pass, w);
      assert Ended(marks, w) == WithStatus(run, w);
    }
  }

  lemma StoredCount(run: RunRecord, v: Verdict)
    requires ValidRecord(run)
    ensures VerdictCount(Marks(run.trials), v) == |Stored(run, v)|
  {
    var marks := Marks(run.trials);
    MarksStored(run);
    MarksCounted(marks, v, Completed);
    assert Judged(marks, v) == Stored(run, v);
  }

  lemma WithinPlan(run: RunRecord)
    requires ValidRecord(run)
    ensures |run.trials| <= run.plannedTrials && run.plannedTrials > 0
  {
    PlanPositive(|run.caseIds|, run.repetitions);
    ValidMarks(run);
    RowsBounded(Marks(run.trials), run.repetitions, run.caseIds);
  }

  lemma CountersHold(run: RunRecord)
    requires ValidRecord(run)
    ensures CountsHold(SummaryOf(run), run)
  {
    CountsAddUp(run);
    WithinPlan(run);
    StoredCount(run, Pass);
    StoredCount(run, Fail);
    StoredCount(run, Unscored);
    StatusesHold(run);
  }

  ghost predicate SummaryMeans(s: RunSummary, run: RunRecord) {
    && CountsHold(s, run) && CasesMean(s, run) && UsageMeans(s, run.trials) && IsShare(s.coverage, s.validTrials, s.plannedTrials)
    && (s.successRate.Some? <==> run.status.RunCompleted?)
    && (s.successRate.Some? ==> run.plannedTrials > 0 && s.successRate.value == |Stored(run, Pass)| as real / run.plannedTrials as real)
  }

  /** Every number of the summary of a valid record, in terms of the recorded trials alone. */
  lemma SummaryHolds(run: RunRecord)
    requires ValidRecord(run)
    ensures SummaryMeans(SummaryOf(run), run)
  {
    CountersHold(run);
    CoverageHolds(run);
    CasesHold(run);
    UsageTotals(run);
    SuccessRateIffCompleted(run);
  }
}
