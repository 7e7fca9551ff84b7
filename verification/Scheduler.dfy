/** Whole runs of `runBenchmark` (src/benchmark/runner.ts): every interleaving of the consumers, to the final record. */
module Scheduler {
  import opened BenchTypes
  import opened Report
  import opened Runner
  import opened Sorting
  import opened Store
  import opened Strings

  /** `Unsaved`: the run rejected after its final record had reached the database. */
  datatype Ended = InProgress | Failed | Unsaved(record: RunRecord) | Resolved(record: RunRecord)

  /** The final record is in the database. */
  predicate Sealed(e: Ended) { e.Unsaved? || e.Resolved? }

  /** How `store.finish` ends: the update may fail, or the file written after it. */
  datatype Saving = FinishOk | UpdateFails | WriteFails

  /**
   * The shared state, with four histories: which job each trial came from, which jobs a rejected
   * consumer dropped, which were taken after the abort, and which reached the executor.
   */
  datatype State = State(
    cursor: nat,
    aborted: bool,
    trials: seq<Trial>,
    db: Tables,
    consumers: seq<Consumer>,
    ended: Ended,
    order: seq<nat>,
    lost: set<nat>,
    late: set<nat>,
    executed: set<nat>)

  datatype Event = AbortSignal | Advance(consumer: nat, input: Input) | Settle(completedAt: string, saving: Saving)

  function AllReady(concurrency: nat): (c: seq<Consumer>)
    ensures |c| == concurrency && forall k :: 0 <= k < |c| ==> c[k] == Ready
  {
    if concurrency == 0 then [] else AllReady(concurrency - 1) + [Ready]
  }

  /** Right after `store.create`; the caller's signal may already be aborted. */
  function Init(plan: Plan, concurrency: nat, aborted: bool): State {
    State(0, aborted, [], Tables([InitialRecord(plan)], []), AllReady(concurrency), InProgress, [], {}, {}, {})
  }

  /** A second row with the same id is refused by the primary key, whatever else happens. */
  function Insertable(plan: Plan, db: Tables, c: Consumer, input: Input): Input {
    if c.Recording? && input.RecordedAs? && HasTrial(db, plan.runId, TrialId(c.index)) then RecordedAs(StoreFails) else input
  }

  /** What a consumer's step does to the shared state. */
  function Apply(plan: Plan, s: State, k: nat, e: Effect): State
    requires k < |s.consumers|
  {
    var c := s.consumers[k];
    var t := if e.recorded.Some? then [e.recorded.value] else [];
    s.(cursor := if e.takes then s.cursor + 1 else s.cursor,
       aborted := s.aborted || e.aborts,
       trials := s.trials + t,
       db := s.db.(rows := s.db.rows + (if e.recorded.Some? then [Row(plan.runId, e.recorded.value)] else [])),
       consumers := s.consumers[k := e.next],
       order := s.order + (if e.recorded.Some? && Busy(c) then [c.index] else []),
       lost := s.lost + (if Busy(c) && !Busy(e.next) && e.recorded.None? then {c.index} else {}),
       late := s.late + (if e.takes && s.aborted && s.cursor < |plan.jobs| then {s.cursor} else {}),
       executed := s.executed + (if e.executes && Busy(c) then {c.index} else {}))
  }

  predicate AllEnded(consumers: seq<Consumer>) {
    forall k :: 0 <= k < |consumers| ==> consumers[k].Finished? || consumers[k].Rejected?
  }

  predicate AnyRejected(consumers: seq<Consumer>) {
    exists k :: 0 <= k < |consumers| && consumers[k].Rejected?
  }

  predicate AllScored(trials: seq<Trial>) {
    forall i :: 0 <= i < |trials| ==> Scored(trials[i])
  }

  function FinalRecord(plan: Plan, trials: seq<Trial>, completedAt: string): RunRecord {
    var sorted := SortBy(trials, IdLe);
    InitialRecord(plan).(
      trials := sorted,
      status := if |sorted| == InitialRecord(plan).plannedTrials && AllScored(sorted) then RunCompleted else RunIncomplete,
      completedAt := Some(completedAt))
  }

  /** After `Promise.allSettled`: a rejected consumer fails the run, otherwise the record is finished. */
  function OnSettle(plan: Plan, s: State, completedAt: string, saving: Saving): State {
    if !s.ended.InProgress? || !AllEnded(s.consumers) then s
    else
      var record := FinalRecord(plan, s.trials, completedAt);
      var failed := AnyRejected(s.consumers) || saving.UpdateFails?;
      s.(ended := if failed then Failed else if saving.WriteFails? then Unsaved(record) else Resolved(record),
         db := if failed then s.db else s.db.(runs := UpdateRun(s.db.runs, record.(trials := []))))
  }

  predicate Enabled(plan: Plan, s: State, e: Event) {
    e.Advance? ==> s.ended.InProgress? && e.consumer < |s.consumers| && InPlan(plan, s.consumers[e.consumer])
  }

  function Next(plan: Plan, s: State, e: Event): State {
    if !Enabled(plan, s, e) then s
    else
      match e
      case AbortSignal => s.(aborted := true)
      case Settle(completedAt, saving) => OnSettle(plan, s, completedAt, saving)
      case Advance(k, input) =>
        Apply(plan, s, k, Step(plan, s.cursor, s.aborted, s.consumers[k], Insertable(plan, s.db, s.consumers[k], input)))
  }

  function Run(plan: Plan, s: State, events: seq<Event>): State {
    if events == [] then s else Next(plan, Run(plan, s, events[..|events| - 1]), events[|events| - 1])
  }

  /** Every await resolves within the contract of the code it waits for. */
  ghost predicate EventKept(plan: Plan, s: State, e: Event) {
    e.Advance? && Enabled(plan, s, e) ==> Contract(plan, s.consumers[e.consumer], e.input)
  }

  ghost predicate Kept(plan: Plan, s: State, events: seq<Event>) {
    forall n :: 0 <= n < |events| ==> EventKept(plan, Run(plan, s, events[..n]), events[n])
  }

  // ---------------------------------------------------------------- the shape of one step

  /** All the scheduler needs to know about what a consumer did. */
  ghost predicate Shaped(plan: Plan, cursor: nat, aborted: bool, c: Consumer, e: Effect) {
    && (Busy(e.next) ==> if Busy(c) then e.next.index == c.index else e.takes && e.next.index == cursor)
    && (e.takes ==> c.Ready? && (Busy(e.next) <==> cursor < |plan.jobs|) && e.recorded.None?)
    && (e.takes && aborted && Busy(e.next) ==> e.next == Recording(cursor, CANCELLED_DRAFT))
    && (e.next.Finished? ==> c.Finished? || (e.takes && cursor >= |plan.jobs|))
    && (Busy(c) && !Busy(e.next) && e.recorded.None? ==> e.next.Rejected?)
    && (c.Rejected? ==> e.next.Rejected?)
    && (c.Finished? ==> e.next.Finished?)
    && (e.executes ==> c.Materialising?)
    && (c.Recording? ==> e.next == c || !Busy(e.next))
    && (e.recorded.Some? ==> c.Recording? && !Busy(e.next) && c.index < |plan.jobs| && e.recorded.value == Made(plan, c.index, c.draft))
  }

  function Made(plan: Plan, index: nat, draft: Draft): Trial
    requires index < |plan.jobs|
  {
    AssembleTrial(CaseOf(plan, index), RepetitionOf(plan, index), index, draft)
  }

  const CANCELLED_DRAFT := Draft(Interrupted(Cancelled, true), None, None)

  lemma StepShaped(plan: Plan, cursor: nat, aborted: bool, c: Consumer, input: Input)
    requires InPlan(plan, c)
    ensures Shaped(plan, cursor, aborted, c, Step(plan, cursor, aborted, c, input))
  {
    match c
    case Ready =>
    case MakingRoot(_) =>
    case Materialising(_) =>
    case Executing(_) =>
    case Capturing(_, _) =>
    case GradingWorkspace(_, _, _) =>
    case Removing(_, _) =>
    case Recording(_, _) =>
    case Finished =>
    case Rejected =>
  }

  // ---------------------------------------------------------------- jobs: each index has one owner

  ghost predicate Owned(consumers: seq<Consumer>, i: nat) {
    exists k :: 0 <= k < |consumers| && Busy(consumers[k]) && consumers[k].index == i
  }

  ghost predicate InFlight(plan: Plan, s: State) {
    && (forall k :: 0 <= k < |s.consumers| && Busy(s.consumers[k]) ==>
          s.consumers[k].index < s.cursor && s.consumers[k].index < |plan.jobs|
          && s.consumers[k].index !in s.order && s.consumers[k].index !in s.lost)
    && (forall k, l :: 0 <= k < l < |s.consumers| && Busy(s.consumers[k]) && Busy(s.consumers[l]) ==>
          s.consumers[k].index != s.consumers[l].index)
    && (forall k :: 0 <= k < |s.consumers| && s.consumers[k].Finished? ==> s.cursor >= |plan.jobs|)
  }

  ghost predicate Accounted(plan: Plan, s: State) {
    && Distinct(s.order)
    && (forall i :: i in s.order ==> i < s.cursor && i < |plan.jobs| && i !in s.lost)
    && (forall i :: i in s.lost ==> i < s.cursor)
    && (s.lost != {} ==> AnyRejected(s.consumers))
    && (forall i :: 0 <= i < s.cursor && i < |plan.jobs| ==> i in s.order || i in s.lost || Owned(s.consumers, i))
  }

  lemma OwnedStep(consumers: seq<Consumer>, k: nat, next: Consumer, i: nat)
    requires k < |consumers| && Owned(consumers, i)
    requires Busy(next) && Busy(consumers[k]) ==> next.index == consumers[k].index
    requires Busy(consumers[k]) && !Busy(next) ==> consumers[k].index != i
    ensures Owned(consumers[k := next], i)
  {
    var j :| 0 <= j < |consumers| && Busy(consumers[j]) && consumers[j].index == i;
    assert Busy(consumers[k := next][j]) && consumers[k := next][j].index == i;
  }

  lemma ApplyInFlight(plan: Plan, s: State, k: nat, e: Effect)
    requires k < |s.consumers| && InFlight(plan, s) && Accounted(plan, s)
    requires Shaped(plan, s.cursor, s.aborted, s.consumers[k], e)
    ensures InFlight(plan, Apply(plan, s, k, e))
  {}

  lemma ApplyAccounted(plan: Plan, s: State, k: nat, e: Effect)
    requires k < |s.consumers| && InFlight(plan, s) && Accounted(plan, s)
    requires Shaped(plan, s.cursor, s.aborted, s.consumers[k], e)
    ensures Accounted(plan, Apply(plan, s, k, e))
  {
    var t, c := Apply(plan, s, k, e), s.consumers[k];
    assert t.consumers[k] == e.next;
    if t.lost != {} {
      if s.lost != {} {
        var j :| 0 <= j < |s.consumers| && s.consumers[j].Rejected?;
        assert t.consumers[j].Rejected?;
      } else {
        assert e.next.Rejected?;
      }
    }
    forall i | 0 <= i < t.cursor && i < |plan.jobs| ensures i in t.order || i in t.lost || Owned(t.consumers, i) {
      if i == s.cursor {
        assert Busy(t.consumers[k]) && t.consumers[k].index == i;
      } else if i !in t.order && i !in t.lost {
        OwnedStep(s.consumers, k, e.next, i);
      }
    }
  }

  // ---------------------------------------------------------------- trials: what was recorded, and where

  predicate TrialFor(plan: Plan, index: nat, t: Trial) {
    && index < |plan.jobs|
    && t.id == TrialId(index) && t.caseId == CaseOf(plan, index).id && t.repetition == RepetitionOf(plan, index)
    && TrialSound(t)
  }

  ghost predicate TrialsRecorded(plan: Plan, s: State) {
    && |s.order| == |s.trials|
    && forall k :: 0 <= k < |s.trials| ==> TrialFor(plan, s.order[k], s.trials[k])
  }

  /** Memory and store hold the same trials at every step. */
  ghost predicate StoredAlike(plan: Plan, s: State) {
    && |s.db.rows| == |s.trials|
    && forall k :: 0 <= k < |s.trials| ==> s.db.rows[k] == Row(plan.runId, s.trials[k])
  }

  ghost predicate ConsumersSound(plan: Plan, s: State) {
    forall k :: 0 <= k < |s.consumers| ==> ConsumerSound(plan, s.consumers[k])
  }

  /** A job taken after the abort waits to be recorded as cancelled and never reaches the executor. */
  ghost predicate LateUnscored(plan: Plan, s: State) {
    && (forall i :: i in s.late ==> i < s.cursor && i < |plan.jobs| && i !in s.executed)
    && (forall i :: i in s.executed ==> i < s.cursor)
    && (forall k :: 0 <= k < |s.consumers| && Busy(s.consumers[k]) && s.consumers[k].index in s.late ==>
          s.consumers[k] == Recording(s.consumers[k].index, CANCELLED_DRAFT))
    && (|s.order| == |s.trials|)
    && (forall k :: 0 <= k < |s.order| && s.order[k] in s.late ==> !Scored(s.trials[k]))
  }

  lemma ApplyRecorded(plan: Plan, s: State, k: nat, e: Effect)
    requires k < |s.consumers| && TrialsRecorded(plan, s) && StoredAlike(plan, s) && ConsumersSound(plan, s)
    requires Shaped(plan, s.cursor, s.aborted, s.consumers[k], e)
    ensures TrialsRecorded(plan, Apply(plan, s, k, e)) && StoredAlike(plan, Apply(plan, s, k, e))
  {
    if e.recorded.Some? {
      var c := s.consumers[k];
      assert DraftSound(plan, c.index, c.draft);
      assert TrialFor(plan, c.index, e.recorded.value);
    }
  }

  lemma CancelledUnscored(plan: Plan, index: nat)
    requires index < |plan.jobs|
    ensures !Scored(Made(plan, index, CANCELLED_DRAFT))
  {}

  lemma ApplyLate(plan: Plan, s: State, k: nat, e: Effect)
    requires k < |s.consumers| && LateUnscored(plan, s) && InFlight(plan, s) && Accounted(plan, s)
    requires Shaped(plan, s.cursor, s.aborted, s.consumers[k], e)
    ensures LateUnscored(plan, Apply(plan, s, k, e))
  {
    var t, c := Apply(plan, s, k, e), s.consumers[k];
    if e.recorded.Some? && c.index in s.late {
      CancelledUnscored(plan, c.index);
    }
    if e.executes {
      assert c.index !in s.late;
    }
    forall j | 0 <= j < |t.order| && t.order[j] in t.late ensures !Scored(t.trials[j]) {
      if j == |s.order| {
        assert t.order[j] == c.index && c.index in s.late;
      } else {
        assert t.order[j] == s.order[j] && t.trials[j] == s.trials[j] && s.order[j] in s.order;
      }
    }
  }

  // ---------------------------------------------------------------- every reachable state

  ghost predicate Headed(plan: Plan, s: State) {
    if Sealed(s.ended) then
      && (exists at :: s.ended.record == FinalRecord(plan, s.trials, at))
      && s.db.runs == [s.ended.record.(trials := [])]
      && AllEnded(s.consumers) && !AnyRejected(s.consumers)
    else s.db.runs == [InitialRecord(plan)]
  }

  ghost predicate Inv(plan: Plan, s: State) { Underway(plan, s) && Headed(plan, s) }

  /** All of the invariant that does not speak of how the run ended. */
  ghost predicate Underway(plan: Plan, s: State) {
    && InFlight(plan, s) && Accounted(plan, s) && TrialsRecorded(plan, s) && StoredAlike(plan, s)
    && ConsumersSound(plan, s) && LateUnscored(plan, s)
  }

  lemma StoredId(plan: Plan, s: State, i: nat)
    requires TrialsRecorded(plan, s) && StoredAlike(plan, s) && i < |s.db.rows|
    ensures i < |s.order| && s.db.rows[i].trial.id == TrialId(s.order[i])
  {
    assert TrialFor(plan, s.order[i], s.trials[i]);
  }

  /** The primary key never refuses a trial: no two jobs share an id. */
  lemma NeverRefused(plan: Plan, s: State, k: nat, input: Input)
    requires Inv(plan, s) && k < |s.consumers|
    ensures Insertable(plan, s.db, s.consumers[k], input) == input
  {
    var c := s.consumers[k];
    if c.Recording? && HasTrial(s.db, plan.runId, TrialId(c.index)) {
      var i :| 0 <= i < |s.db.rows| && s.db.rows[i].runId == plan.runId && s.db.rows[i].trial.id == TrialId(c.index);
      StoredId(plan, s, i);
      PaddedInjective(s.order[i], c.index, 6);
      assert false;
    }
  }

  lemma AdvanceKeepsInv(plan: Plan, s: State, k: nat, input: Input)
    requires Loaded(plan) && Inv(plan, s) && s.ended.InProgress? && k < |s.consumers| && Contract(plan, s.consumers[k], input)
    ensures Inv(plan, Next(plan, s, Advance(k, input)))
  {
    NeverRefused(plan, s, k, input);
    ConsumerStep(plan, s, k, input);
    AdvanceApplies(plan, s, k, input);
    AppliedKeepsInv(plan, s, k, Step(plan, s.cursor, s.aborted, s.consumers[k], input));
  }

  lemma AdvanceApplies(plan: Plan, s: State, k: nat, input: Input)
    requires s.ended.InProgress? && k < |s.consumers| && InPlan(plan, s.consumers[k])
    requires Insertable(plan, s.db, s.consumers[k], input) == input
    ensures Next(plan, s, Advance(k, input)) == Apply(plan, s, k, Step(plan, s.cursor, s.aborted, s.consumers[k], input))
  {}

  lemma ConsumerStep(plan: Plan, s: State, k: nat, input: Input)
    requires Loaded(plan) && ConsumersSound(plan, s) && k < |s.consumers| && InPlan(plan, s.consumers[k]) && Contract(plan, s.consumers[k], input)
    ensures var e := Step(plan, s.cursor, s.aborted, s.consumers[k], input);
      Shaped(plan, s.cursor, s.aborted, s.consumers[k], e) && ConsumerSound(plan, e.next)
  {
    StepShaped(plan, s.cursor, s.aborted, s.consumers[k], input);
    StepSound(plan, s.cursor, s.aborted, s.consumers[k], input);
  }

  lemma AppliedKeepsInv(plan: Plan, s: State, k: nat, e: Effect)
    requires Inv(plan, s) && s.ended.InProgress? && k < |s.consumers|
    requires Shaped(plan, s.cursor, s.aborted, s.consumers[k], e) && ConsumerSound(plan, e.next)
    ensures Inv(plan, Apply(plan, s, k, e))
  {
    ApplyInFlight(plan, s, k, e);
    ApplyAccounted(plan, s, k, e);
    ApplyRecorded(plan, s, k, e);
    ApplyLate(plan, s, k, e);
    assert !Sealed(Apply(plan, s, k, e).ended);
  }

  lemma EndingKeepsUnderway(plan: Plan, s: State, ended: Ended, runs: seq<RunRecord>)
    requires Underway(plan, s)
    ensures Underway(plan, s.(ended := ended, db := s.db.(runs := runs)))
  {}

  lemma SettleKeepsInv(plan: Plan, s: State, completedAt: string, saving: Saving)
    requires Inv(plan, s)
    ensures Inv(plan, OnSettle(plan, s, completedAt, saving))
  {
    if s.ended.InProgress? && AllEnded(s.consumers) {
      var t := OnSettle(plan, s, completedAt, saving);
      EndingKeepsUnderway(plan, s, t.ended, t.db.runs);
      SettleHeads(plan, s, completedAt, saving);
      assert t == s.(ended := t.ended, db := s.db.(runs := t.db.runs));
    }
  }

  lemma SettleHeads(plan: Plan, s: State, completedAt: string, saving: Saving)
    requires Headed(plan, s) && s.ended.InProgress? && AllEnded(s.consumers)
    ensures Headed(plan, OnSettle(plan, s, completedAt, saving))
  {
    var record := FinalRecord(plan, s.trials, completedAt);
    assert UpdateRun(s.db.runs, record.(trials := [])) == [record.(trials := [])];
  }

  lemma NextKeepsInv(plan: Plan, s: State, e: Event)
    requires Loaded(plan) && Inv(plan, s) && EventKept(plan, s, e)
    ensures Inv(plan, Next(plan, s, e))
  {
    match e
    case AbortSignal =>
    case Settle(completedAt, saving) => SettleKeepsInv(plan, s, completedAt, saving);
    case Advance(k, input) => if Enabled(plan, s, e) { AdvanceKeepsInv(plan, s, k, input); }
  }

  lemma KeptSoFar(plan: Plan, s: State, events: seq<Event>)
    requires Kept(plan, s, events) && events != []
    ensures Kept(plan, s, events[..|events| - 1]) && EventKept(plan, Run(plan, s, events[..|events| - 1]), events[|events| - 1])
  {
    var init := events[..|events| - 1];
    assert forall n :: 0 <= n < |init| ==> init[..n] == events[..n] && init[n] == events[n];
  }

  lemma {:induction false} Reachable(plan: Plan, concurrency: nat, aborted: bool, events: seq<Event>)
    requires Loaded(plan) && Kept(plan, Init(plan, concurrency, aborted), events)
    ensures Inv(plan, Run(plan, Init(plan, concurrency, aborted), events))
    ensures |Run(plan, Init(plan, concurrency, aborted), events).consumers| == concurrency
  {
    if events != [] {
      var init, e := events[..|events| - 1], events[|events| - 1];
      KeptSoFar(plan, Init(plan, concurrency, aborted), events);
      Reachable(plan, concurrency, aborted, init);
      NextKeepsInv(plan, Run(plan, Init(plan, concurrency, aborted), init), e);
    }
  }

  // ---------------------------------------------------------------- what a run promises

  lemma TrialsNoRepeats(plan: Plan, s: State)
    requires Loaded(plan) && Inv(plan, s)
    ensures NoRepeats(s.trials)
  {
    JobsArePlanned(plan.cases, plan.repetitions);
    forall i, j | 0 <= i < j < |s.trials| ensures s.trials[i].id != s.trials[j].id && Key(s.trials[i]) != Key(s.trials[j]) {
      assert TrialFor(plan, s.order[i], s.trials[i]) && TrialFor(plan, s.order[j], s.trials[j]);
      if s.trials[i].id == s.trials[j].id { PaddedInjective(s.order[i], s.order[j], 6); }
      var a, b := s.order[i], s.order[j];
      assert a != b;
      if a < b {
        assert plan.jobs[a].item.id != plan.jobs[b].item.id || plan.jobs[a].repetition != plan.jobs[b].repetition;
      } else {
        assert plan.jobs[b].item.id != plan.jobs[a].item.id || plan.jobs[b].repetition != plan.jobs[a].repetition;
      }
    }
  }

  /** Recorded jobs are distinct and planned, so they never outnumber the plan. */
  lemma {:induction false} AtMost(order: seq<nat>, n: nat)
    requires Distinct(order) && forall i :: i in order ==> i < n
    ensures |order| <= n
    ensures |order| == n ==> forall i :: 0 <= i < n ==> i in order
    decreases n
  {
    assert order == [] || order[0] in order;
    if n == 0 {
    } else if n - 1 in order {
      var k :| 0 <= k < |order| && order[k] == n - 1;
      var rest := order[..k] + order[k + 1..];
      forall i | i in rest ensures i < n - 1 && i in order {
        var j :| 0 <= j < |rest| && rest[j] == i;
        var m := if j < k then j else j + 1;
        assert order[m] in order && rest[j] == order[m] && (m < k ==> order[m] != order[k]) && (k < m ==> order[k] != order[m]);
      }
      AtMost(rest, n - 1);
      forall i | 0 <= i < n && |order| == n ensures i in order {
        if i < n - 1 { assert i in rest; }
      }
    } else {
      AtMost(order, n - 1);
    }
  }

  /** With the trials recorded so far, the record is valid for either header the store can hold. */
  lemma TrialsValid(plan: Plan, s: State, run: RunRecord)
    requires Loaded(plan) && Inv(plan, s)
    requires run.trials == s.trials && run.caseIds == CaseIds(plan.cases) && run.repetitions == plan.repetitions
    requires run.plannedTrials == |plan.cases| * plan.repetitions
    requires run.status.RunCompleted? ==> |s.trials| == run.plannedTrials && run.completedAt.Some? && AllScored(s.trials)
    ensures ValidRecord(run)
  {
    TrialsNoRepeats(plan, s);
    NeverTooMany(plan, s);
    TrialsPlanned(plan, s, run);
    assert run.status.RunCompleted? ==> forall i :: 0 <= i < |run.trials| ==> Scored(run.trials[i]);
  }

  lemma NeverTooMany(plan: Plan, s: State)
    requires Loaded(plan) && Inv(plan, s)
    ensures |s.trials| <= |plan.jobs| == |plan.cases| * plan.repetitions <= 20000
  {
    AtMost(s.order, |plan.jobs|);
    JobCount(plan.cases, plan.repetitions);
    PlanBounded(|plan.cases|, plan.repetitions);
  }

  lemma PlanBounded(cases: nat, repetitions: nat)
    requires cases <= 1000 && repetitions <= 20
    ensures cases * repetitions <= 20000
  {
    assert cases * repetitions <= 1000 * repetitions;
  }

  lemma TrialsPlanned(plan: Plan, s: State, run: RunRecord)
    requires Loaded(plan) && Inv(plan, s)
    requires run.trials == s.trials && run.caseIds == CaseIds(plan.cases) && run.repetitions == plan.repetitions
    ensures forall i :: 0 <= i < |run.trials| ==> Planned(run, run.trials[i]) && TrialSound(run.trials[i])
  {
    forall i | 0 <= i < |run.trials| ensures Planned(run, run.trials[i]) && TrialSound(run.trials[i]) {
      assert TrialFor(plan, s.order[i], s.trials[i]);
      JobCaseLoaded(plan, s.order[i]);
    }
  }

  lemma ScoredPermutation(s: seq<Trial>, t: seq<Trial>)
    requires multiset(s) == multiset(t) && AllScored(s)
    ensures AllScored(t) && |s| == |t|
  {
    MultisetSize(s);
    MultisetSize(t);
    forall i | 0 <= i < |t| ensures Scored(t[i]) {
      assert t[i] in multiset(t) && t[i] in s;
    }
  }

  /** The record a run returns passes every semantic check of the report parser. */
  lemma ProducedRecordValid(plan: Plan, concurrency: nat, aborted: bool, events: seq<Event>)
    requires Loaded(plan) && Kept(plan, Init(plan, concurrency, aborted), events)
    ensures
      var s := Run(plan, Init(plan, concurrency, aborted), events);
      Sealed(s.ended) ==> ValidRecord(s.ended.record)
  {
    var s := Run(plan, Init(plan, concurrency, aborted), events);
    Reachable(plan, concurrency, aborted, events);
    if Sealed(s.ended) {
      RecordValid(plan, s);
    }
  }

  lemma RecordValid(plan: Plan, s: State)
    requires Loaded(plan) && Inv(plan, s) && Sealed(s.ended)
    ensures ValidRecord(s.ended.record)
  {
    var run := s.ended.record;
    var at :| run == FinalRecord(plan, s.trials, at);
    if run.status.RunCompleted? { ScoredPermutation(run.trials, s.trials); }
    TrialsValid(plan, s, run.(trials := s.trials));
    ValidPermutation(run.(trials := s.trials), run.trials);
  }

  /** On a normal return every job of the plan was recorded, each exactly once. */
  lemma AllRecorded(plan: Plan, s: State)
    requires Loaded(plan) && Inv(plan, s) && Sealed(s.ended) && |s.consumers| >= 1
    ensures Distinct(s.order) && |s.order| == |s.trials| == |plan.jobs|
    ensures forall i :: 0 <= i < |plan.jobs| ==> i in s.order
  {
    assert s.consumers[0].Finished?;
    forall i | 0 <= i < |plan.jobs| ensures i in s.order {
      assert !Owned(s.consumers, i);
      assert i !in s.lost;
    }
    Covered(s.order, |plan.jobs|);
    AtMost(s.order, |plan.jobs|);
  }

  lemma {:induction false} Covered(order: seq<nat>, n: nat)
    requires forall i :: 0 <= i < n ==> i in order
    ensures |order| >= n
  {
    if n > 0 {
      assert n - 1 in order;
      var k :| 0 <= k < |order| && order[k] == n - 1;
      var rest := order[..k] + order[k + 1..];
      forall i | 0 <= i < n - 1 ensures i in rest {
        assert i in order;
        var j :| 0 <= j < |order| && order[j] == i;
        assert rest[if j < k then j else j - 1] == i;
      }
      Covered(rest, n - 1);
    }
  }

  /** A strictly increasing map of `0..n` into itself is the identity. */
  lemma {:induction false} Identity(f: seq<nat>, k: nat)
    requires k < |f| && forall i, j :: 0 <= i < j < |f| ==> f[i] < f[j]
    requires forall i :: 0 <= i < |f| ==> f[i] < |f|
    ensures f[k] == k
  {
    Climbs(f, k);
    Climbs(f, |f| - 1);
    Gap(f, k, |f| - 1);
  }

  lemma {:induction false} Climbs(f: seq<nat>, k: nat)
    requires k < |f| && forall i, j :: 0 <= i < j < |f| ==> f[i] < f[j]
    ensures f[k] >= k
  {
    if k > 0 { Climbs(f, k - 1); }
  }

  lemma {:induction false} Gap(f: seq<nat>, k: nat, m: nat)
    requires k <= m < |f| && forall i, j :: 0 <= i < j < |f| ==> f[i] < f[j]
    ensures f[m] - f[k] >= m - k
    decreases m - k
  {
    if k < m { Gap(f, k, m - 1); }
  }

  lemma {:induction false} IndicesOf(plan: Plan, s: State, sorted: seq<Trial>, n: nat) returns (f: seq<nat>)
    requires TrialsRecorded(plan, s) && multiset(sorted) == multiset(s.trials) && n <= |sorted|
    ensures |f| == n && forall k :: 0 <= k < n ==> TrialFor(plan, f[k], sorted[k])
  {
    if n == 0 {
      f := [];
    } else {
      f := IndicesOf(plan, s, sorted, n - 1);
      var t := sorted[n - 1];
      assert t in multiset(sorted) && t in s.trials;
      var j :| 0 <= j < |s.trials| && s.trials[j] == t;
      assert TrialFor(plan, s.order[j], t);
      f := f + [s.order[j]];
    }
  }

  /** Sorting the padded ids puts trial `k` of a full run at position `k`. */
  lemma InJobOrder(plan: Plan, s: State, sorted: seq<Trial>)
    requires Loaded(plan) && Inv(plan, s) && Sealed(s.ended) && |s.consumers| >= 1
    requires multiset(sorted) == multiset(s.trials) && SortedBy(sorted, IdLe)
    ensures |sorted| == |plan.jobs| && forall k :: 0 <= k < |sorted| ==> TrialFor(plan, k, sorted[k])
  {
    AllRecorded(plan, s);
    NeverTooMany(plan, s);
    MultisetSize(sorted);
    MultisetSize(s.trials);
    TrialsNoRepeats(plan, s);
    NoRepeatsPermutation(s.trials, sorted);
    var f := IndicesOf(plan, s, sorted, |sorted|);
    Increasing(plan, sorted, f);
    forall k | 0 <= k < |sorted| ensures TrialFor(plan, k, sorted[k]) {
      assert TrialFor(plan, f[k], sorted[k]);
      Identity(f, k);
    }
  }

  lemma Increasing(plan: Plan, sorted: seq<Trial>, f: seq<nat>)
    requires |f| == |sorted| && |plan.jobs| <= 20000 && SortedBy(sorted, IdLe) && NoRepeats(sorted)
    requires forall k :: 0 <= k < |f| ==> TrialFor(plan, f[k], sorted[k])
    ensures forall i, j :: 0 <= i < j < |f| ==> f[i] < f[j]
  {
    forall i, j | 0 <= i < j < |f| ensures f[i] < f[j] {
      assert TrialFor(plan, f[i], sorted[i]) && TrialFor(plan, f[j], sorted[j]);
      assert IdLe(sorted[i], sorted[j]) && sorted[i].id != sorted[j].id;
      MillionIds();
      PaddedOrder(f[i], f[j], 6);
    }
  }

  lemma MillionIds()
    ensures Pow10(6) == 1000000
  {
    assert Pow10(3) == 1000;
    assert Pow10(4) == 10000;
    assert Pow10(5) == 100000;
  }

  lemma LeadingDigit(n: nat)
    requires n >= 10
    ensures Decimal(n)[0] == Decimal(n / 10)[0]
  {}

  /** Six digits are enough for the sort to be numeric exactly up to a million jobs. */
  lemma PaddedSortIsNumeric(n: nat)
    ensures (forall a, b :: 0 <= a < b < n ==> StringLe(TrialId(a), TrialId(b))) <==> n <= 1000000
  {
    MillionIds();
    if n <= 1000000 {
      forall a, b | 0 <= a < b < n ensures StringLe(TrialId(a), TrialId(b)) { PaddedOrder(a, b, 6); }
    } else {
      MillionBreaksOrder();
      assert !StringLe(TrialId(999999), TrialId(1000000));
    }
  }

  /** "999999" does not sort before "1000000". */
  lemma MillionBreaksOrder()
    ensures !StringLe(TrialId(999999), TrialId(1000000))
  {
    MillionIds();
    DecimalWidth(999999, 5);
    DecimalWidth(1000000, 5);
    assert Pow10(6) == 10 * Pow10(5);
    assert TrialId(999999) == Decimal(999999) && TrialId(1000000) == Decimal(1000000);
    LeadingDigit(999999);
    LeadingDigit(99999);
    LeadingDigit(9999);
    LeadingDigit(999);
    LeadingDigit(99);
    LeadingDigit(1000000);
    LeadingDigit(100000);
    LeadingDigit(10000);
    LeadingDigit(1000);
    LeadingDigit(100);
    LeadingDigit(10);
    assert Decimal(9)[0] == '9' && Decimal(1)[0] == '1';
  }

  /**
   * Exactly once: when a run with at least one consumer returns, its record holds one trial per job of
   * the plan, trial `k` for job `k`; and the histories agree that nothing was lost or repeated.
   */
  lemma ExactlyOnce(plan: Plan, concurrency: nat, aborted: bool, events: seq<Event>)
    requires Loaded(plan) && concurrency >= 1 && Kept(plan, Init(plan, concurrency, aborted), events)
    ensures
      var s := Run(plan, Init(plan, concurrency, aborted), events);
      Sealed(s.ended) ==>
        && |s.ended.record.trials| == |plan.jobs| == s.ended.record.plannedTrials
        && (forall k :: 0 <= k < |plan.jobs| ==> TrialFor(plan, k, s.ended.record.trials[k]))
        && Distinct(s.order) && s.lost == {}
  {
    var s := Run(plan, Init(plan, concurrency, aborted), events);
    Reachable(plan, concurrency, aborted, events);
    if Sealed(s.ended) {
      var at :| s.ended.record == FinalRecord(plan, s.trials, at);
      IdOrder();
      SortBySorts(s.trials, IdLe);
      InJobOrder(plan, s, s.ended.record.trials);
      JobCount(plan.cases, plan.repetitions);
    }
  }

  /** A trial taken after the abort is never executed, and a run that has one never ends completed. */
  lemma LateJobsNeverRun(plan: Plan, concurrency: nat, aborted: bool, events: seq<Event>)
    requires Loaded(plan) && concurrency >= 1 && Kept(plan, Init(plan, concurrency, aborted), events)
    ensures
      var s := Run(plan, Init(plan, concurrency, aborted), events);
      && s.late !! s.executed
      && (Sealed(s.ended) && s.late != {} ==> s.ended.record.status.RunIncomplete?)
  {
    var s := Run(plan, Init(plan, concurrency, aborted), events);
    Reachable(plan, concurrency, aborted, events);
    if Sealed(s.ended) && s.late != {} { LateNotCompleted(plan, s); }
  }

  lemma LateNotCompleted(plan: Plan, s: State)
    requires Loaded(plan) && Inv(plan, s) && Sealed(s.ended) && |s.consumers| >= 1 && s.late != {}
    ensures s.ended.record.status.RunIncomplete?
  {
    var i := SomeElement(s.late);
    AllRecorded(plan, s);
    assert i in s.order;
    var k :| 0 <= k < |s.order| && s.order[k] == i;
    assert !Scored(s.trials[k]);
    var at :| s.ended.record == FinalRecord(plan, s.trials, at);
    if AllScored(s.ended.record.trials) { ScoredPermutation(s.ended.record.trials, s.trials); }
  }

  lemma {:induction false} RowsGiveTrials(rows: seq<Row>, trials: seq<Trial>, runId: string)
    requires |rows| == |trials| && forall k :: 0 <= k < |rows| ==> rows[k] == Row(runId, trials[k])
    ensures TrialsOf(rows, runId) == trials
  {
    if rows != [] {
      RowsGiveTrials(rows[..|rows| - 1], trials[..|trials| - 1], runId);
      assert trials == trials[..|trials| - 1] + [trials[|trials| - 1]];
    }
  }

  /**
   * Crash consistency: after any prefix of a run, reading the store back gives a valid record with exactly
   * the trials recorded so far, and it reads as completed only when the final record was stored with every
   * planned trial scored, even if the run then rejected because its file could not be written.
   */
  lemma CrashConsistent(plan: Plan, concurrency: nat, aborted: bool, events: seq<Event>)
    requires Loaded(plan) && Kept(plan, Init(plan, concurrency, aborted), events)
    ensures
      var s := Run(plan, Init(plan, concurrency, aborted), events);
      && |s.db.runs| == 1 && ValidRecord(Assembled(s.db))
      && multiset(Assembled(s.db).trials) == multiset(s.trials)
      && (Assembled(s.db).status.RunCompleted? ==>
            Sealed(s.ended) && |s.trials| == Assembled(s.db).plannedTrials && AllScored(s.trials))
      && (Sealed(s.ended) ==> Assembled(s.db) == s.ended.record)
  {
    var s := Run(plan, Init(plan, concurrency, aborted), events);
    Reachable(plan, concurrency, aborted, events);
    ReadsBack(plan, s);
  }

  lemma ReadsBack(plan: Plan, s: State)
    requires Loaded(plan) && Inv(plan, s)
    ensures |s.db.runs| == 1 && ValidRecord(Assembled(s.db))
    ensures multiset(Assembled(s.db).trials) == multiset(s.trials)
    ensures Assembled(s.db).status.RunCompleted? ==>
      Sealed(s.ended) && |s.trials| == Assembled(s.db).plannedTrials && AllScored(s.trials)
    ensures Sealed(s.ended) ==> Assembled(s.db) == s.ended.record
  {
    RowsGiveTrials(s.db.rows, s.trials, plan.runId);
    if Sealed(s.ended) {
      var record := s.ended.record;
      var at :| record == FinalRecord(plan, s.trials, at);
      assert Assembled(s.db) == record;
      RecordValid(plan, s);
      if record.status.RunCompleted? { ScoredPermutation(record.trials, s.trials); }
    } else {
      var run := InitialRecord(plan).(status := RunIncomplete);
      TrialsValid(plan, s, run.(trials := s.trials));
      ValidPermutation(run.(trials := s.trials), SortBy(s.trials, IdLe));
      assert Assembled(s.db) == run.(trials := SortBy(s.trials, IdLe));
    }
  }
}
