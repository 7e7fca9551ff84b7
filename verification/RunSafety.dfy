/** What an unconfirmed termination does to a whole run (src/benchmark/runner.ts). */
module RunSafety {
  import opened BenchTypes
  import opened Report
  import opened Runner
  import opened Scheduler
  import opened Grading

  predicate DraftConfirmed(d: Draft) {
    d.result.terminationConfirmed && (d.grade.Some? ==> !GradeUnconfirmed(d.grade.value))
  }

  /** What a consumer's stage says about processes that may still run. */
  predicate Careful(c: Consumer, aborted: bool) {
    match c
    case Removing(_, draft) => DraftConfirmed(draft)
    case Recording(_, draft) => DraftConfirmed(draft) || aborted
    case Capturing(_, result) => result.terminationConfirmed
    case GradingWorkspace(_, result, _) => result.terminationConfirmed
    case Rejected => aborted
    case _ => true
  }

  /** Directories go only after confirmed termination; anything unconfirmed or failed has aborted the run. */
  ghost predicate SafetyInv(s: State) {
    && (forall k :: 0 <= k < |s.consumers| ==> Careful(s.consumers[k], s.aborted))
    && (forall i :: 0 <= i < |s.trials| ==> TrialConfirmed(s.trials[i]) || s.aborted)
  }

  /** One consumer step: what it leaves behind is careful under the flag it leaves behind. */
  ghost predicate EffectCareful(e: Effect, aborted: bool) {
    && Careful(e.next, aborted || e.aborts)
    && (e.recorded.Some? ==> TrialConfirmed(e.recorded.value) || aborted || e.aborts)
  }

  lemma ExecutedCareful(item: Case, index: nat, outcome: Outcome<WorkerResult>, aborted: bool)
    ensures EffectCareful(OnExecuted(item, index, outcome), aborted)
  {}

  lemma CapturedCareful(index: nat, result: WorkerResult, capture: Capture, aborted: bool)
    requires result.terminationConfirmed
    ensures EffectCareful(OnCaptured(index, result, capture), aborted)
  {}

  lemma GradedCareful(index: nat, result: WorkerResult, evidence: WorkspaceEvidence, g: Grade, aborted: bool)
    requires result.terminationConfirmed
    ensures EffectCareful(OnGraded(index, result, evidence, g), aborted)
  {}

  lemma RecordedCareful(item: Case, repetition: nat, index: nat, draft: Draft, how: Recorded, aborted: bool)
    requires DraftConfirmed(draft) || aborted
    ensures EffectCareful(OnRecorded(AssembleTrial(item, repetition, index, draft), how), aborted)
  {}

  lemma TakeCareful(plan: Plan, cursor: nat, aborted: bool)
    ensures EffectCareful(Take(plan, cursor, aborted), aborted)
  {}

  lemma StepCareful(plan: Plan, cursor: nat, aborted: bool, c: Consumer, input: Input)
    requires InPlan(plan, c) && Careful(c, aborted)
    ensures EffectCareful(Step(plan, cursor, aborted, c, input), aborted)
  {
    match c
    case Ready => TakeCareful(plan, cursor, aborted);
    case MakingRoot(_) =>
    case Materialising(_) =>
    case Executing(i) => if input.Executed? { ExecutedCareful(CaseOf(plan, i), i, input.outcome, aborted); }
    case Capturing(i, result) => if input.Captured? { CapturedCareful(i, result, input.capture, aborted); }
    case GradingWorkspace(i, result, evidence) =>
      if input.GradingThrows? {
        GradedCareful(i, result, evidence, UngradedError(GradingFailed, false), aborted);
      } else if input.GradedAs? && |input.steps| == |CaseOf(plan, i).assertions| {
        GradedCareful(i, result, evidence, RedactGrade(WorkspaceGrade(CaseOf(plan, i), result, input.texts, input.steps), input.leaked), aborted);
      }
    case Removing(_, _) =>
    case Recording(i, draft) =>
      if input.RecordedAs? { RecordedCareful(CaseOf(plan, i), RepetitionOf(plan, i), i, draft, input.how, aborted); }
    case Finished =>
    case Rejected =>
  }

  /** Once set, the flag stays set, and what was careful stays careful. */
  lemma AbortKeepsCareful(c: Consumer, before: bool, after: bool)
    requires Careful(c, before) && (before ==> after)
    ensures Careful(c, after)
  {}

  lemma ApplyCareful(plan: Plan, s: State, k: nat, e: Effect)
    requires SafetyInv(s) && k < |s.consumers| && EffectCareful(e, s.aborted)
    ensures SafetyInv(Apply(plan, s, k, e)) && (s.aborted ==> Apply(plan, s, k, e).aborted)
  {
    var t := Apply(plan, s, k, e);
    forall j | 0 <= j < |t.consumers| ensures Careful(t.consumers[j], t.aborted) {
      if j != k { AbortKeepsCareful(s.consumers[j], s.aborted, t.aborted); }
    }
    forall i | 0 <= i < |t.trials| ensures TrialConfirmed(t.trials[i]) || t.aborted {
      if i < |s.trials| { assert t.trials[i] == s.trials[i]; }
    }
  }

  lemma AbortCareful(s: State)
    requires SafetyInv(s)
    ensures SafetyInv(s.(aborted := true))
  {
    forall k | 0 <= k < |s.consumers| ensures Careful(s.consumers[k], true) { AbortKeepsCareful(s.consumers[k], s.aborted, true); }
  }

  lemma NextCareful(plan: Plan, s: State, e: Event)
    requires SafetyInv(s)
    ensures SafetyInv(Next(plan, s, e)) && (s.aborted ==> Next(plan, s, e).aborted)
  {
    match e
    case AbortSignal => AbortCareful(s);
    case Settle(_, _) =>
    case Advance(k, input) =>
      if Enabled(plan, s, e) {
        var actual := Insertable(plan, s.db, s.consumers[k], input);
        StepCareful(plan, s.cursor, s.aborted, s.consumers[k], actual);
        ApplyCareful(plan, s, k, Step(plan, s.cursor, s.aborted, s.consumers[k], actual));
      }
  }

  /**
   * In every run, whatever the environment does: a trial directory is removed only after confirmed termination; as soon
   * as a trial whose termination is unconfirmed is recorded, or a consumer fails, the run is aborted.
   */
  lemma {:induction false} UnconfirmedAborts(plan: Plan, concurrency: nat, aborted: bool, events: seq<Event>)
    ensures SafetyInv(Run(plan, Init(plan, concurrency, aborted), events))
  {
    if events != [] {
      UnconfirmedAborts(plan, concurrency, aborted, events[..|events| - 1]);
      NextCareful(plan, Run(plan, Init(plan, concurrency, aborted), events[..|events| - 1]), events[|events| - 1]);
    }
  }

  predicate Early(c: Consumer) { c.MakingRoot? || c.Materialising? }

  /** The consumers that may still call the executor hold jobs below `bound`. */
  ghost predicate Claimed(s: State, bound: nat) {
    forall k :: 0 <= k < |s.consumers| && Early(s.consumers[k]) ==> s.consumers[k].index < bound
  }

  ghost predicate ExecutedBelow(s: State, bound: nat) { forall i :: i in s.executed ==> i < bound }

  lemma EarlyStep(plan: Plan, cursor: nat, aborted: bool, c: Consumer, input: Input, bound: nat)
    requires InPlan(plan, c) && (Early(c) ==> c.index < bound) && (aborted || cursor < bound)
    ensures var e := Step(plan, cursor, aborted, c, input);
      (Early(e.next) ==> e.next.index < bound) && (e.executes ==> Early(c))
  {}

  /** A step of the aborted run, or one that may take the job at the cursor. */
  lemma ClaimStep(plan: Plan, s: State, e: Event, bound: nat)
    requires Claimed(s, bound) && ExecutedBelow(s, bound) && (s.aborted || s.cursor < bound)
    ensures Claimed(Next(plan, s, e), bound) && ExecutedBelow(Next(plan, s, e), bound)
  {
    if e.Advance? && Enabled(plan, s, e) {
      var c := s.consumers[e.consumer];
      EarlyStep(plan, s.cursor, s.aborted, c, Insertable(plan, s.db, c, e.input), bound);
    }
  }

  /** A step that leaves the cursor alone takes no job. */
  lemma UntakenStep(plan: Plan, s: State, e: Event)
    requires Claimed(s, s.cursor) && ExecutedBelow(s, s.cursor)
    ensures Claimed(Next(plan, s, e), Next(plan, s, e).cursor) && ExecutedBelow(Next(plan, s, e), Next(plan, s, e).cursor)
  {
    if e.Advance? && Enabled(plan, s, e) {
      var c := s.consumers[e.consumer];
      TakesOrKeeps(plan, s.cursor, s.aborted, c, Insertable(plan, s.db, c, e.input));
    }
  }

  lemma TakesOrKeeps(plan: Plan, cursor: nat, aborted: bool, c: Consumer, input: Input)
    requires InPlan(plan, c) && (Early(c) ==> c.index < cursor)
    ensures var e := Step(plan, cursor, aborted, c, input);
      && (Early(e.next) ==> e.next.index < cursor + (if e.takes then 1 else 0))
      && (e.executes ==> Early(c))
  {}

  lemma {:induction false} AllClaimed(plan: Plan, concurrency: nat, aborted: bool, events: seq<Event>)
    ensures var s := Run(plan, Init(plan, concurrency, aborted), events);
      Claimed(s, s.cursor) && ExecutedBelow(s, s.cursor)
  {
    if events != [] {
      AllClaimed(plan, concurrency, aborted, events[..|events| - 1]);
      UntakenStep(plan, Run(plan, Init(plan, concurrency, aborted), events[..|events| - 1]), events[|events| - 1]);
    }
  }

  lemma {:induction false} ClaimsStay(plan: Plan, s: State, events: seq<Event>, bound: nat)
    requires s.aborted && Claimed(s, bound) && ExecutedBelow(s, bound)
    ensures Run(plan, s, events).aborted && Claimed(Run(plan, s, events), bound) && ExecutedBelow(Run(plan, s, events), bound)
  {
    if events != [] {
      var before := Run(plan, s, events[..|events| - 1]);
      ClaimsStay(plan, s, events[..|events| - 1], bound);
      ClaimStep(plan, before, events[|events| - 1], bound);
      StaysAborted(plan, before, events[|events| - 1]);
    }
  }

  lemma StaysAborted(plan: Plan, s: State, e: Event)
    requires s.aborted
    ensures Next(plan, s, e).aborted
  {}

  /** After the abort no job that had not been taken ever reaches the executor, in any continuation. */
  lemma NoNewJobsAfterAbort(plan: Plan, concurrency: nat, aborted: bool, before: seq<Event>, after: seq<Event>)
    requires Run(plan, Init(plan, concurrency, aborted), before).aborted
    ensures var s := Run(plan, Init(plan, concurrency, aborted), before);
      ExecutedBelow(Run(plan, s, after), s.cursor)
  {
    AllClaimed(plan, concurrency, aborted, before);
    var s := Run(plan, Init(plan, concurrency, aborted), before);
    ClaimsStay(plan, s, after, s.cursor);
  }
}
