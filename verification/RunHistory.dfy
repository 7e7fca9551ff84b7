/** What each recorded trial says about the events of its job (`consume`, src/benchmark/runner.ts). */
module RunHistory {
  import opened BenchTypes
  import opened Grading
  import opened Report
  import opened Runner
  import opened Scheduler
  import opened Sorting
  import opened Strings

  /** What happened to one job: whether the run was aborted when it was taken, and how each of its awaits resolved. */
  datatype JobHistory = JobHistory(
    late: Option<bool>,
    setup: Option<bool>,
    executed: Option<Outcome<WorkerResult>>,
    captured: Option<Capture>,
    graded: Option<Input>)

  const UNTOUCHED := JobHistory(None, None, None, None, None)

  /** An await of the consumer that holds the job resolves. */
  function NoteInput(h: JobHistory, c: Consumer, input: Input, assertions: nat): JobHistory {
    h.(setup := if c.Materialising? && input.Materialised? then Some(input.ok) else h.setup,
       executed := if c.Executing? && input.Executed? then Some(input.outcome) else h.executed,
       captured := if c.Capturing? && input.Captured? then Some(input.capture) else h.captured,
       graded := if c.GradingWorkspace? && (input.GradingThrows? || (input.GradedAs? && |input.steps| == assertions)) then Some(input) else h.graded)
  }

  function Note(plan: Plan, hs: seq<JobHistory>, s: State, e: Event): seq<JobHistory>
    requires |hs| == |plan.jobs|
  {
    if !e.Advance? || !Enabled(plan, s, e) then hs
    else
      var c := s.consumers[e.consumer];
      if Busy(c) then hs[c.index := NoteInput(hs[c.index], c, e.input, |CaseOf(plan, c.index).assertions|)]
      else if c.Ready? && e.input.Continue? && s.cursor < |plan.jobs| then hs[s.cursor := hs[s.cursor].(late := Some(s.aborted))]
      else hs
  }

  function Histories(plan: Plan, s: State, events: seq<Event>): (hs: seq<JobHistory>)
    ensures |hs| == |plan.jobs|
  {
    if events == [] then seq(|plan.jobs|, _ => UNTOUCHED)
    else
      var init := events[..|events| - 1];
      Note(plan, Histories(plan, s, init), Run(plan, s, init), events[|events| - 1])
  }

  // ---------------------------------------------------------------- what the trial must be

  /** A result made by the engine itself. */
  function Blank(status: WorkerStatus, confirmed: bool): WorkerResult {
    WorkerResult(status, "", None, None, Usage(None, None, None, Unavailable), 0.0, confirmed, None)
  }

  /** What the executor returned, marked when its termination is in doubt; or why there is nothing to return. */
  function ResultFrom(h: JobHistory): WorkerResult {
    if h.late == Some(true) then Blank(Cancelled, true)
    else if h.setup == Some(false) then Blank(InfraError, true)
    else if h.executed.Some? && h.executed.value.Returned? then
      var r := h.executed.value.value;
      if r.terminationConfirmed then r else r.(status := InfraError)
    else Blank(InfraError, false)
  }

  predicate GotResult(h: JobHistory) { h.executed.Some? && h.executed.value.Returned? }

  /** The final workspace is looked at only after a confirmed completion. */
  predicate UsesWorkspace(item: Case, h: JobHistory) {
    item.hasWorkspace && GotResult(h) && ResultFrom(h).status.Completed? && ResultFrom(h).terminationConfirmed
  }

  function Unscorable(error: ErrorText, confirmed: bool): Grade { Grade(Unscored, [], Some(error), Some(confirmed)) }

  /** The grade of a saved workspace, from what grading saw. */
  ghost predicate IsWorkspaceGrade(g: Grade, item: Case, result: WorkerResult, graded: Input) {
    if graded.GradingThrows? then g == Unscorable(GradingFailed, false)
    else
      && graded.GradedAs? && |graded.steps| == |item.assertions|
      && var plain := WorkspaceGrade(item, result, graded.texts, graded.steps);
      g == if graded.leaked then Unscorable(SecretInGrade, plain.terminationConfirmed != Some(false)) else plain
  }

  /** Grade and evidence of a job whose workspace was looked at. */
  ghost predicate IsWorkspaceTrial(t: Trial, item: Case, h: JobHistory) {
    && h.captured.Some?
    && match h.captured.value
       case CaptureFails => t.grade == Unscorable(CaptureFailed, true) && t.workspace.None?
       case HoldsSecret => t.grade == Unscorable(SecretInWorkspace, true) && t.workspace.None?
       case Saved(fixtureDigest, resultDigest, changes) =>
         && t.workspace == Some(WorkspaceEvidence(fixtureDigest, resultDigest, "artifacts/" + t.id + "/workspace", changes))
         && h.graded.Some? && IsWorkspaceGrade(t.grade, item, t.result, h.graded.value)
  }

  /** The trial is the one its job's history calls for. */
  ghost predicate IsTrialOf(plan: Plan, i: nat, h: JobHistory, t: Trial)
    requires i < |plan.jobs|
  {
    var item := plan.jobs[i].item;
    && t.id == TrialId(i) && t.caseId == item.id && t.repetition == plan.jobs[i].repetition
    && t.result == ResultFrom(h) && WellTold(h)
    && (if UsesWorkspace(item, h) then IsWorkspaceTrial(t, item, h) else t.grade == GradeResult(item, t.result) && t.workspace.None?)
  }

  /** A late job was not executed; any other was, unless its directories could not be set up. */
  predicate WellTold(h: JobHistory) {
    h.late.Some? && (if h.late.value then h.setup.None? && h.executed.None? else h.setup.Some? && (h.setup.value <==> h.executed.Some?))
  }

  // ---------------------------------------------------------------- consumers keep to the history

  ghost predicate Matches(plan: Plan, h: JobHistory, c: Consumer)
    requires Busy(c) && c.index < |plan.jobs|
  {
    match c
    case MakingRoot(_) => h == UNTOUCHED.(late := Some(false))
    case Materialising(_) => h == UNTOUCHED.(late := Some(false))
    case Executing(_) => h == UNTOUCHED.(late := Some(false), setup := Some(true))
    case Capturing(i, result) =>
      WellTold(h) && h.captured.None? && h.graded.None? && result == ResultFrom(h) && UsesWorkspace(plan.jobs[i].item, h)
    case GradingWorkspace(i, result, evidence) =>
      && WellTold(h) && h.graded.None? && result == ResultFrom(h) && UsesWorkspace(plan.jobs[i].item, h)
      && h.captured.Some? && h.captured.value.Saved?
      && evidence == WorkspaceEvidence(h.captured.value.fixtureDigest, h.captured.value.resultDigest, "artifacts/" + TrialId(i) + "/workspace", h.captured.value.changes)
    case Removing(i, draft) => IsTrialOf(plan, i, h, Made(plan, i, draft))
    case Recording(i, draft) => IsTrialOf(plan, i, h, Made(plan, i, draft))
  }

  lemma ExecutedMatches(plan: Plan, i: nat, h: JobHistory, outcome: Outcome<WorkerResult>)
    requires i < |plan.jobs| && Matches(plan, h, Executing(i))
    ensures var e := OnExecuted(CaseOf(plan, i), i, outcome);
      e.recorded.None? && Busy(e.next) && e.next.index == i && Matches(plan, h.(executed := Some(outcome)), e.next)
  {}

  lemma CapturedMatches(plan: Plan, i: nat, h: JobHistory, result: WorkerResult, capture: Capture)
    requires i < |plan.jobs| && Matches(plan, h, Capturing(i, result))
    ensures var e := OnCaptured(i, result, capture);
      e.recorded.None? && Busy(e.next) && e.next.index == i && Matches(plan, h.(captured := Some(capture)), e.next)
  {}

  lemma GradedMatches(plan: Plan, i: nat, h: JobHistory, result: WorkerResult, evidence: WorkspaceEvidence, input: Input, g: Grade)
    requires i < |plan.jobs| && Matches(plan, h, GradingWorkspace(i, result, evidence)) && IsWorkspaceGrade(g, CaseOf(plan, i), result, input)
    ensures var e := OnGraded(i, result, evidence, g);
      e.recorded.None? && Busy(e.next) && e.next.index == i && Matches(plan, h.(graded := Some(input)), e.next)
  {}

  /** One step of a consumer that holds a job, and what is noted of it. */
  lemma StepMatches(plan: Plan, cursor: nat, aborted: bool, c: Consumer, input: Input, h: JobHistory)
    requires Busy(c) && c.index < |plan.jobs| && Matches(plan, h, c)
    ensures
      var e := Step(plan, cursor, aborted, c, input);
      var g := NoteInput(h, c, input, |CaseOf(plan, c.index).assertions|);
      && (Busy(e.next) ==> e.next.index == c.index && Matches(plan, g, e.next))
      && (e.recorded.Some? ==> IsTrialOf(plan, c.index, g, e.recorded.value))
  {
    match c
    case MakingRoot(_) =>
    case Materialising(_) =>
    case Executing(i) => if input.Executed? { ExecutedMatches(plan, i, h, input.outcome); }
    case Capturing(i, result) => if input.Captured? { CapturedMatches(plan, i, h, result, input.capture); }
    case GradingWorkspace(i, result, evidence) =>
      if input.GradingThrows? {
        GradedMatches(plan, i, h, result, evidence, input, UngradedError(GradingFailed, false));
      } else if input.GradedAs? && |input.steps| == |CaseOf(plan, i).assertions| {
        GradedMatches(plan, i, h, result, evidence, input, RedactGrade(WorkspaceGrade(CaseOf(plan, i), result, input.texts, input.steps), input.leaked));
      }
    case Removing(_, _) =>
    case Recording(_, _) =>
  }

  /** A job just taken. */
  lemma TakenMatches(plan: Plan, cursor: nat, aborted: bool)
    requires cursor < |plan.jobs|
    ensures var e := Take(plan, cursor, aborted);
      Busy(e.next) && e.next.index == cursor && Matches(plan, UNTOUCHED.(late := Some(aborted)), e.next)
  {}

  // ---------------------------------------------------------------- whole runs

  ghost predicate ConsumersMatch(plan: Plan, s: State, hs: seq<JobHistory>)
    requires |hs| == |plan.jobs|
  {
    forall k :: 0 <= k < |s.consumers| && Busy(s.consumers[k]) ==>
      s.consumers[k].index < |plan.jobs| && Matches(plan, hs[s.consumers[k].index], s.consumers[k])
  }

  ghost predicate TrialsMatch(plan: Plan, s: State, hs: seq<JobHistory>)
    requires |hs| == |plan.jobs|
  {
    && |s.order| == |s.trials|
    && forall j :: 0 <= j < |s.trials| ==> s.order[j] < |plan.jobs| && IsTrialOf(plan, s.order[j], hs[s.order[j]], s.trials[j])
  }

  ghost predicate Told(plan: Plan, s: State, hs: seq<JobHistory>)
    requires |hs| == |plan.jobs|
  {
    && ConsumersMatch(plan, s, hs) && TrialsMatch(plan, s, hs)
    && forall i :: s.cursor <= i < |plan.jobs| ==> hs[i] == UNTOUCHED
  }

  lemma HolderConsumers(plan: Plan, s: State, k: nat, e: Effect, g: JobHistory, hs: seq<JobHistory>)
    requires InFlight(plan, s) && |hs| == |plan.jobs| && ConsumersMatch(plan, s, hs) && k < |s.consumers| && Busy(s.consumers[k])
    requires s.consumers[k].index < |plan.jobs| && (Busy(e.next) ==> e.next.index == s.consumers[k].index && Matches(plan, g, e.next))
    ensures ConsumersMatch(plan, Apply(plan, s, k, e), hs[s.consumers[k].index := g])
  {
    var t := Apply(plan, s, k, e);
    var gs := hs[s.consumers[k].index := g];
    forall j | 0 <= j < |t.consumers| && Busy(t.consumers[j]) ensures t.consumers[j].index < |plan.jobs| && Matches(plan, gs[t.consumers[j].index], t.consumers[j]) {
      if j != k { OneHolder(plan, s, j, k); }
    }
  }

  lemma HolderTrials(plan: Plan, s: State, k: nat, e: Effect, g: JobHistory, hs: seq<JobHistory>)
    requires InFlight(plan, s) && |hs| == |plan.jobs| && TrialsMatch(plan, s, hs) && k < |s.consumers| && Busy(s.consumers[k])
    requires s.consumers[k].index < |plan.jobs| && (e.recorded.Some? ==> IsTrialOf(plan, s.consumers[k].index, g, e.recorded.value))
    ensures TrialsMatch(plan, Apply(plan, s, k, e), hs[s.consumers[k].index := g])
  {
    var t := Apply(plan, s, k, e);
    var gs := hs[s.consumers[k].index := g];
    forall j | 0 <= j < |t.trials| ensures t.order[j] < |plan.jobs| && IsTrialOf(plan, t.order[j], gs[t.order[j]], t.trials[j]) {
      if j < |s.trials| { RecordedNotHeld(plan, s, j, k); }
    }
  }

  /** A consumer that holds a job moves on: only its own history changes. */
  lemma HolderTold(plan: Plan, s: State, k: nat, input: Input, hs: seq<JobHistory>)
    requires InFlight(plan, s) && |hs| == |plan.jobs| && Told(plan, s, hs) && k < |s.consumers| && Busy(s.consumers[k]) && s.consumers[k].index < |plan.jobs|
    ensures
      var c := s.consumers[k];
      var gs := hs[c.index := NoteInput(hs[c.index], c, input, |CaseOf(plan, c.index).assertions|)];
      Told(plan, Apply(plan, s, k, Step(plan, s.cursor, s.aborted, c, input)), gs)
  {
    var c := s.consumers[k];
    var e := Step(plan, s.cursor, s.aborted, c, input);
    var g := NoteInput(hs[c.index], c, input, |CaseOf(plan, c.index).assertions|);
    StepMatches(plan, s.cursor, s.aborted, c, input, hs[c.index]);
    StepShaped(plan, s.cursor, s.aborted, c, input);
    HolderConsumers(plan, s, k, e, g, hs);
    HolderTrials(plan, s, k, e, g, hs);
    assert c.index < s.cursor;
  }

  lemma OneHolder(plan: Plan, s: State, j: nat, k: nat)
    requires InFlight(plan, s) && j < |s.consumers| && k < |s.consumers| && j != k && Busy(s.consumers[j]) && Busy(s.consumers[k])
    ensures s.consumers[j].index != s.consumers[k].index
  {}

  lemma RecordedNotHeld(plan: Plan, s: State, j: nat, k: nat)
    requires InFlight(plan, s) && j < |s.order| && k < |s.consumers| && Busy(s.consumers[k])
    ensures s.order[j] != s.consumers[k].index
  {
    assert s.order[j] in s.order;
  }

  /** A free consumer takes the next job, or has nothing left to do. */
  lemma TakerTold(plan: Plan, s: State, k: nat, input: Input, hs: seq<JobHistory>)
    requires InFlight(plan, s) && Accounted(plan, s) && |hs| == |plan.jobs| && Told(plan, s, hs) && k < |s.consumers| && !Busy(s.consumers[k])
    ensures
      var e := Step(plan, s.cursor, s.aborted, s.consumers[k], input);
      var takes := s.consumers[k].Ready? && input.Continue? && s.cursor < |plan.jobs|;
      Told(plan, Apply(plan, s, k, e), if takes then hs[s.cursor := hs[s.cursor].(late := Some(s.aborted))] else hs)
  {
    var e := Step(plan, s.cursor, s.aborted, s.consumers[k], input);
    var takes := s.consumers[k].Ready? && input.Continue? && s.cursor < |plan.jobs|;
    var gs := if takes then hs[s.cursor := hs[s.cursor].(late := Some(s.aborted))] else hs;
    var t := Apply(plan, s, k, e);
    StepShaped(plan, s.cursor, s.aborted, s.consumers[k], input);
    if takes { TakenMatches(plan, s.cursor, s.aborted); }
    forall j | 0 <= j < |t.consumers| && Busy(t.consumers[j]) ensures t.consumers[j].index < |plan.jobs| && Matches(plan, gs[t.consumers[j].index], t.consumers[j]) {
      if j != k { HeldBelowCursor(plan, s, j); }
    }
    forall j | 0 <= j < |t.trials| ensures t.order[j] < |plan.jobs| && IsTrialOf(plan, t.order[j], gs[t.order[j]], t.trials[j]) {
      RecordedBelowCursor(plan, s, j);
    }
  }

  lemma HeldBelowCursor(plan: Plan, s: State, j: nat)
    requires InFlight(plan, s) && j < |s.consumers| && Busy(s.consumers[j])
    ensures s.consumers[j].index < s.cursor
  {}

  lemma RecordedBelowCursor(plan: Plan, s: State, j: nat)
    requires Accounted(plan, s) && j < |s.order|
    ensures s.order[j] < s.cursor
  {
    assert s.order[j] in s.order;
  }

  lemma AdvanceTold(plan: Plan, s: State, k: nat, input: Input, hs: seq<JobHistory>)
    requires Inv(plan, s) && |hs| == |plan.jobs| && Told(plan, s, hs) && Enabled(plan, s, Advance(k, input))
    ensures Told(plan, Next(plan, s, Advance(k, input)), Note(plan, hs, s, Advance(k, input)))
  {
    NeverRefused(plan, s, k, input);
    AdvanceApplies(plan, s, k, input);
    if Busy(s.consumers[k]) { HolderTold(plan, s, k, input, hs); } else { TakerTold(plan, s, k, input, hs); }
  }

  /** Abort and settlement touch neither consumers nor trials. */
  lemma StillTold(plan: Plan, s: State, t: State, hs: seq<JobHistory>)
    requires |hs| == |plan.jobs| && Told(plan, s, hs)
    requires t.consumers == s.consumers && t.trials == s.trials && t.order == s.order && t.cursor == s.cursor
    ensures Told(plan, t, hs)
  {}

  lemma NextTold(plan: Plan, s: State, e: Event, hs: seq<JobHistory>)
    requires Inv(plan, s) && |hs| == |plan.jobs| && Told(plan, s, hs)
    ensures Told(plan, Next(plan, s, e), Note(plan, hs, s, e))
  {
    match e
    case AbortSignal => StillTold(plan, s, Next(plan, s, e), hs);
    case Settle(_, _) => StillTold(plan, s, Next(plan, s, e), hs);
    case Advance(k, input) => if Enabled(plan, s, e) { AdvanceTold(plan, s, k, input, hs); }
  }

  lemma {:induction false} RunTold(plan: Plan, concurrency: nat, aborted: bool, events: seq<Event>)
    requires Loaded(plan) && Kept(plan, Init(plan, concurrency, aborted), events)
    ensures Told(plan, Run(plan, Init(plan, concurrency, aborted), events), Histories(plan, Init(plan, concurrency, aborted), events))
  {
    if events != [] {
      var start, init := Init(plan, concurrency, aborted), events[..|events| - 1];
      KeptSoFar(plan, start, events);
      RunTold(plan, concurrency, aborted, init);
      Reachable(plan, concurrency, aborted, init);
      NextTold(plan, Run(plan, start, init), events[|events| - 1], Histories(plan, start, init));
    }
  }

  /**
   * Every recorded trial is its job's own: the result is the one the executor returned for it, marked when termination is
   * in doubt, or says why there is none; the grade is made from that result, or from what grading saw of its workspace; and
   * the evidence is what was captured. The histories are read from the events.
   */
  lemma TrialsTellWhatHappened(plan: Plan, concurrency: nat, aborted: bool, events: seq<Event>)
    requires Loaded(plan) && Kept(plan, Init(plan, concurrency, aborted), events)
    ensures
      var start := Init(plan, concurrency, aborted);
      var s, hs := Run(plan, start, events), Histories(plan, start, events);
      && TrialsMatch(plan, s, hs)
      && (Sealed(s.ended) && concurrency >= 1 ==>
            |s.ended.record.trials| == |plan.jobs| && forall k :: 0 <= k < |plan.jobs| ==> IsTrialOf(plan, k, hs[k], s.ended.record.trials[k]))
  {
    var start := Init(plan, concurrency, aborted);
    var s, hs := Run(plan, start, events), Histories(plan, start, events);
    RunTold(plan, concurrency, aborted, events);
    Reachable(plan, concurrency, aborted, events);
    if Sealed(s.ended) && concurrency >= 1 {
      ExactlyOnce(plan, concurrency, aborted, events);
      forall k | 0 <= k < |plan.jobs| ensures IsTrialOf(plan, k, hs[k], s.ended.record.trials[k]) { SealedTrial(plan, s, hs, k); }
    }
  }

  /** A trial of the final record is one of those recorded, under its own job. */
  lemma SealedTrial(plan: Plan, s: State, hs: seq<JobHistory>, k: nat)
    requires Inv(plan, s) && |hs| == |plan.jobs| && TrialsMatch(plan, s, hs) && Sealed(s.ended)
    requires k < |plan.jobs| == |s.ended.record.trials| && TrialFor(plan, k, s.ended.record.trials[k])
    ensures IsTrialOf(plan, k, hs[k], s.ended.record.trials[k])
  {
    var at :| s.ended.record == FinalRecord(plan, s.trials, at);
    var t := s.ended.record.trials[k];
    assert t in multiset(s.ended.record.trials);
    assert t in s.trials;
    var j :| 0 <= j < |s.trials| && s.trials[j] == t;
    PaddedSame(s.order[j], k);
  }

  lemma PaddedSame(i: nat, k: nat)
    ensures TrialId(i) == TrialId(k) ==> i == k
  {
    if TrialId(i) == TrialId(k) { PaddedInjective(i, k, 6); }
  }

  // ---------------------------------------------------------------- the abort flag and the final record

  /** What makes the engine give up: the caller, a process that may still run, or a failed step. */
  predicate Aborts(plan: Plan, s: State, e: Event) {
    e.AbortSignal? || (e.Advance? && Enabled(plan, s, e) && StepAborts(plan, s.consumers[e.consumer], e.input))
  }

  predicate StepAborts(plan: Plan, c: Consumer, input: Input)
    requires InPlan(plan, c)
  {
    || (c.MakingRoot? && input == RootMade(false))
    || (c.Executing? && input.Executed? && (input.outcome.Threw? || !input.outcome.value.terminationConfirmed))
    || (c.GradingWorkspace? && input.GradingThrows?)
    || (c.GradingWorkspace? && input.GradedAs? && |input.steps| == |CaseOf(plan, c.index).assertions|
        && WorkspaceGrade(CaseOf(plan, c.index), c.result, input.texts, input.steps).terminationConfirmed == Some(false))
    || (c.Removing? && input == RootRemoved(false))
    || (c.Recording? && input.RecordedAs? && !input.how.Stored?)
  }

  lemma StepAbortsIff(plan: Plan, cursor: nat, aborted: bool, c: Consumer, input: Input)
    requires InPlan(plan, c)
    ensures Step(plan, cursor, aborted, c, input).aborts <==> StepAborts(plan, c, input)
  {
    match c
    case Ready =>
    case MakingRoot(_) =>
    case Materialising(_) =>
    case Executing(_) =>
    case Capturing(_, _) =>
    case GradingWorkspace(_, _, _) =>
    case Removing(_, _) =>
    case Recording(_, _) =>
    case Finished =>
    case Rejected =>
  }

  lemma NextAborts(plan: Plan, s: State, e: Event)
    requires Inv(plan, s)
    ensures Next(plan, s, e).aborted <==> s.aborted || Aborts(plan, s, e)
  {
    if e.Advance? && Enabled(plan, s, e) {
      NeverRefused(plan, s, e.consumer, e.input);
      AdvanceApplies(plan, s, e.consumer, e.input);
      StepAbortsIff(plan, s.cursor, s.aborted, s.consumers[e.consumer], e.input);
    }
  }

  /** Event `n` of the run gave a reason to abort. */
  ghost predicate AbortsAt(plan: Plan, start: State, events: seq<Event>, n: nat) {
    n < |events| && Aborts(plan, Run(plan, start, events[..n]), events[n])
  }

  lemma AbortsEarlier(plan: Plan, start: State, events: seq<Event>, n: nat)
    requires n < |events| - 1
    ensures AbortsAt(plan, start, events, n) <==> AbortsAt(plan, start, events[..|events| - 1], n)
  {
    assert events[..|events| - 1][..n] == events[..n];
  }

  /** The abort flag is set exactly when the run began aborted or some event so far gave a reason. */
  lemma {:induction false} AbortedIff(plan: Plan, concurrency: nat, aborted: bool, events: seq<Event>)
    requires Loaded(plan) && Kept(plan, Init(plan, concurrency, aborted), events)
    ensures Run(plan, Init(plan, concurrency, aborted), events).aborted <==>
      aborted || exists n: nat :: AbortsAt(plan, Init(plan, concurrency, aborted), events, n)
  {
    if events != [] {
      var start := Init(plan, concurrency, aborted);
      AbortedBefore(plan, concurrency, aborted, events);
      AbortedIff(plan, concurrency, aborted, events[..|events| - 1]);
      LastAborts(plan, start, events, events[..|events| - 1]);
    }
  }

  lemma AbortedBefore(plan: Plan, concurrency: nat, aborted: bool, events: seq<Event>)
    requires Loaded(plan) && Kept(plan, Init(plan, concurrency, aborted), events) && events != []
    ensures
      var start, init := Init(plan, concurrency, aborted), events[..|events| - 1];
      && Kept(plan, start, init)
      && (Run(plan, start, events).aborted <==> Run(plan, start, init).aborted || AbortsAt(plan, start, events, |init|))
  {
    var start, init := Init(plan, concurrency, aborted), events[..|events| - 1];
    KeptSoFar(plan, start, events);
    Reachable(plan, concurrency, aborted, init);
    NextAborts(plan, Run(plan, start, init), events[|events| - 1]);
  }

  lemma LastAborts(plan: Plan, start: State, events: seq<Event>, init: seq<Event>)
    requires events != [] && init == events[..|events| - 1]
    ensures (exists n: nat :: AbortsAt(plan, start, events, n)) <==>
      AbortsAt(plan, start, events, |init|) || exists n: nat :: AbortsAt(plan, start, init, n)
  {
    if n: nat :| AbortsAt(plan, start, events, n) && n < |init| { AbortsEarlier(plan, start, events, n); }
    if n: nat :| AbortsAt(plan, start, init, n) { AbortsEarlier(plan, start, events, n); }
  }

  /**
   * The final record carries the plan's own identity, and is completed exactly when every planned trial was recorded and
   * scored with its termination confirmed.
   */
  lemma FinalRecordMeans(plan: Plan, concurrency: nat, aborted: bool, events: seq<Event>)
    requires Loaded(plan) && Kept(plan, Init(plan, concurrency, aborted), events)
    ensures
      var s := Run(plan, Init(plan, concurrency, aborted), events);
      Sealed(s.ended) ==>
        var r := s.ended.record;
        && r.id == plan.runId && r.suiteId == plan.suiteId && r.suiteDigest == plan.suiteDigest && r.roleDigest == plan.roleDigest
        && r.startedAt == plan.startedAt && r.completedAt.Some? && r.repetitions == plan.repetitions
        && r.plannedTrials == |plan.jobs| && |r.caseIds| == |plan.cases| && (forall i :: 0 <= i < |r.caseIds| ==> r.caseIds[i] == plan.cases[i].id)
        && multiset(r.trials) == multiset(s.trials)
        && (r.status.RunCompleted? || r.status.RunIncomplete?)
        && (r.status.RunCompleted? <==> |s.trials| == |plan.jobs| && forall i :: 0 <= i < |s.trials| ==> !s.trials[i].grade.verdict.Unscored? && TrialConfirmed(s.trials[i]))
  {
    var s := Run(plan, Init(plan, concurrency, aborted), events);
    Reachable(plan, concurrency, aborted, events);
    if Sealed(s.ended) {
      var at :| s.ended.record == FinalRecord(plan, s.trials, at);
      JobCount(plan.cases, plan.repetitions);
      MultisetSize(s.trials);
      MultisetSize(s.ended.record.trials);
      ScoredAlike(s.trials, s.ended.record.trials);
    }
  }

  lemma ScoredAlike(s: seq<Trial>, t: seq<Trial>)
    requires multiset(s) == multiset(t)
    ensures AllScored(s) <==> AllScored(t)
  {
    if AllScored(s) { ScoredPermutation(s, t); }
    if AllScored(t) { ScoredPermutation(t, s); }
  }

  lemma NextSeals(plan: Plan, s: State, e: Event)
    ensures Sealed(s.ended) ==> Next(plan, s, e).ended == s.ended
    ensures Sealed(Next(plan, s, e).ended) && !Sealed(s.ended) ==> e.Settle? && Next(plan, s, e).ended.record.completedAt == Some(e.completedAt)
  {}

  /** The completion time is that of the settlement that sealed the record. */
  lemma {:induction false} SealedAt(plan: Plan, s: State, events: seq<Event>)
    requires !Sealed(s.ended)
    ensures Sealed(Run(plan, s, events).ended) ==>
      exists n :: 0 <= n < |events| && events[n].Settle? && Run(plan, s, events).ended.record.completedAt == Some(events[n].completedAt)
  {
    if events != [] {
      var init, e := events[..|events| - 1], events[|events| - 1];
      SealedAt(plan, s, init);
      NextSeals(plan, Run(plan, s, init), e);
      if Sealed(Run(plan, s, init).ended) {
        var n :| 0 <= n < |init| && init[n].Settle? && Run(plan, s, init).ended.record.completedAt == Some(init[n].completedAt);
        assert events[n] == init[n];
      } else if Sealed(Run(plan, s, events).ended) {
        assert events[|events| - 1].Settle?;
      }
    }
  }
}
