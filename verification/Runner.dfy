/**
 * The concurrent benchmark run (`runBenchmark`, src/benchmark/runner.ts). Consumers share one cursor, one
 * abort controller, the in-memory record and the store; a step is what one consumer does between two
 * awaits, and the environment chooses the interleaving and every outcome within the contracts of the
 * worker, the command grader and the workspace diff.
 */
module Runner {
  import opened BenchTypes
  import opened Grading
  import opened Report
  import opened Sorting
  import opened Store
  import opened Strings

  // ---------------------------------------------------------------- the plan

  datatype Job = Job(item: Case, repetition: nat)

  datatype Plan = Plan(
    cases: seq<Case>,
    repetitions: nat,
    jobs: seq<Job>,
    runId: string,
    suiteId: string,
    suiteDigest: string,
    roleDigest: string,
    startedAt: string)

  function Repeat(item: Case, count: nat): (jobs: seq<Job>)
    ensures |jobs| == count && forall k :: 0 <= k < count ==> jobs[k] == Job(item, k)
  {
    if count == 0 then [] else Repeat(item, count - 1) + [Job(item, count - 1)]
  }

  /** Every case, each repeated in turn. */
  function Jobs(cases: seq<Case>, repetitions: nat): seq<Job> {
    if cases == [] then [] else Jobs(cases[..|cases| - 1], repetitions) + Repeat(cases[|cases| - 1], repetitions)
  }

  /** What the suite loader guarantees, and the job list made from it. */
  ghost predicate Loaded(plan: Plan) {
    && 1 <= |plan.cases| <= 1000 && 1 <= plan.repetitions <= 20
    && (forall i :: 0 <= i < |plan.cases| ==> CaseLoaded(plan.cases[i]))
    && (forall i, j :: 0 <= i < j < |plan.cases| ==> plan.cases[i].id != plan.cases[j].id)
    && plan.jobs == Jobs(plan.cases, plan.repetitions)
  }

  function CaseIds(cases: seq<Case>): (ids: seq<string>)
    ensures |ids| == |cases| && forall i :: 0 <= i < |ids| ==> ids[i] == cases[i].id
  {
    if cases == [] then [] else [cases[0].id] + CaseIds(cases[1..])
  }

  function InitialRecord(plan: Plan): RunRecord {
    RunRecord(plan.runId, plan.suiteId, plan.suiteDigest, plan.roleDigest, plan.startedAt, None, Running,
              |plan.cases| * plan.repetitions, CaseIds(plan.cases), plan.repetitions, [])
  }

  lemma {:induction false} JobCount(cases: seq<Case>, repetitions: nat)
    ensures |Jobs(cases, repetitions)| == |cases| * repetitions
  {
    if cases != [] {
      JobCount(cases[..|cases| - 1], repetitions);
      assert |cases| * repetitions == (|cases| - 1) * repetitions + repetitions;
    }
  }

  ghost predicate JobsPlanned(cases: seq<Case>, repetitions: nat, jobs: seq<Job>) {
    && (forall i :: 0 <= i < |jobs| ==> jobs[i].item in cases && jobs[i].repetition < repetitions)
    && (forall i, j :: 0 <= i < j < |jobs| ==> jobs[i].item.id != jobs[j].item.id || jobs[i].repetition != jobs[j].repetition)
  }

  lemma AddCase(init: seq<Case>, last: Case, repetitions: nat, jobs: seq<Job>)
    requires JobsPlanned(init, repetitions, jobs)
    requires forall i :: 0 <= i < |init| ==> init[i].id != last.id
    ensures JobsPlanned(init + [last], repetitions, jobs + Repeat(last, repetitions))
  {
    var all, more := jobs + Repeat(last, repetitions), Repeat(last, repetitions);
    forall i | 0 <= i < |jobs| ensures jobs[i].item in init + [last] && jobs[i].item.id != last.id {
      assert jobs[i].item in init;
    }
    forall i | 0 <= i < |all| ensures all[i].item in init + [last] && all[i].repetition < repetitions {
      assert last == (init + [last])[|init|];
      assert i < |jobs| ==> all[i] == jobs[i];
      assert i >= |jobs| ==> all[i] == more[i - |jobs|];
    }
    forall i, j | 0 <= i < j < |all| ensures all[i].item.id != all[j].item.id || all[i].repetition != all[j].repetition {
      assert i >= |jobs| ==> all[i] == more[i - |jobs|];
      assert j >= |jobs| ==> all[j] == more[j - |jobs|];
    }
  }

  /** No (case, repetition) pair is planned twice. */
  lemma {:induction false} JobsArePlanned(cases: seq<Case>, repetitions: nat)
    requires forall i, j :: 0 <= i < j < |cases| ==> cases[i].id != cases[j].id
    ensures JobsPlanned(cases, repetitions, Jobs(cases, repetitions))
  {
    if cases != [] {
      var init, last := cases[..|cases| - 1], cases[|cases| - 1];
      JobsArePlanned(init, repetitions);
      AddCase(init, last, repetitions, Jobs(init, repetitions));
      assert cases == init + [last];
    }
  }

  function TrialId(index: nat): string { Padded(index, 6) }

  // ---------------------------------------------------------------- one consumer

  /** What a trial holds before it is recorded; a missing grade is made from the result. */
  datatype Draft = Draft(result: WorkerResult, grade: Option<Grade>, evidence: Option<WorkspaceEvidence>)

  datatype Consumer =
    | Ready
    | MakingRoot(index: nat)
    | Materialising(index: nat)
    | Executing(index: nat)
    | Capturing(index: nat, result: WorkerResult)
    | GradingWorkspace(index: nat, result: WorkerResult, evidence: WorkspaceEvidence)
    | Removing(index: nat, draft: Draft)
    | Recording(index: nat, draft: Draft)
    | Finished
    | Rejected

  predicate Busy(c: Consumer) { !c.Ready? && !c.Finished? && !c.Rejected? }

  function Interrupted(status: WorkerStatus, confirmed: bool): WorkerResult {
    WorkerResult(status, "", None, None, Usage(None, None, None, Unavailable), 0.0, confirmed, None)
  }

  function UngradedError(error: ErrorText, confirmed: bool): Grade { Grade(Unscored, [], Some(error), Some(confirmed)) }

  datatype Capture = CaptureFails | HoldsSecret | Saved(fixtureDigest: string, resultDigest: string, changes: seq<Change>)

  datatype Recorded = Stored | StoreFails | CallbackThrows

  /** What an await resolves to, as the environment chooses. */
  datatype Input =
    | Continue
    | RootMade(ok: bool)
    | Materialised(ok: bool)
    | Executed(outcome: Outcome<WorkerResult>)
    | Captured(capture: Capture)
    | GradedAs(texts: Texts, steps: seq<GraderStep>, leaked: bool)
    | GradingThrows
    | RootRemoved(ok: bool)
    | RecordedAs(how: Recorded)

  /** The consumer's next state and what it did to the shared state. */
  datatype Effect = Effect(next: Consumer, takes: bool, executes: bool, aborts: bool, recorded: Option<Trial>)

  function Moves(next: Consumer): Effect { Effect(next, false, false, false, None) }

  function Take(plan: Plan, cursor: nat, aborted: bool): Effect {
    Effect(if cursor >= |plan.jobs| then Finished
           else if aborted then Recording(cursor, Draft(Interrupted(Cancelled, true), None, None))
           else MakingRoot(cursor),
           true, false, false, None)
  }

  /** Ends the guarded part: the trial directory goes only when every process is known to be gone. */
  function Leave(index: nat, draft: Draft, confirmed: bool): Consumer {
    if confirmed then Removing(index, draft) else Recording(index, draft)
  }

  function OnExecuted(item: Case, index: nat, outcome: Outcome<WorkerResult>): Effect {
    match outcome
    case Threw => Effect(Leave(index, Draft(Interrupted(InfraError, false), None, None), false), false, false, true, None)
    case Returned(r) =>
      var result := if r.terminationConfirmed then r else r.(status := InfraError);
      Effect(if item.hasWorkspace && Confirmed(result) then Capturing(index, result)
             else Leave(index, Draft(result, None, None), r.terminationConfirmed),
             false, false, !r.terminationConfirmed, None)
  }

  function OnCaptured(index: nat, result: WorkerResult, capture: Capture): Effect {
    match capture
    case CaptureFails => Moves(Removing(index, Draft(result, Some(UngradedError(CaptureFailed, true)), None)))
    case HoldsSecret => Moves(Removing(index, Draft(result, Some(UngradedError(SecretInWorkspace, true)), None)))
    case Saved(fixtureDigest, resultDigest, changes) =>
      Moves(GradingWorkspace(index, result, WorkspaceEvidence(fixtureDigest, resultDigest, ArtifactDirectory(TrialId(index)), changes)))
  }

  /** A grade that shows a forwarded environment value is replaced by an error. */
  function RedactGrade(g: Grade, leaked: bool): Grade {
    if leaked then UngradedError(SecretInGrade, g.terminationConfirmed != Some(false)) else g
  }

  function OnGraded(index: nat, result: WorkerResult, evidence: WorkspaceEvidence, g: Grade): Effect {
    Effect(Leave(index, Draft(result, Some(g), Some(evidence)), !GradeUnconfirmed(g)), false, false, GradeUnconfirmed(g), None)
  }

  function AssembleTrial(item: Case, repetition: nat, index: nat, draft: Draft): Trial {
    Trial(TrialId(index), item.id, repetition, draft.result,
          if draft.grade.Some? then draft.grade.value else GradeResult(item, draft.result), draft.evidence)
  }

  function OnRecorded(trial: Trial, how: Recorded): Effect {
    Effect(if how.Stored? then Ready else Rejected, false, false, !how.Stored?, if how.StoreFails? then None else Some(trial))
  }

  function CaseOf(plan: Plan, index: nat): Case
    requires index < |plan.jobs|
  {
    plan.jobs[index].item
  }

  function RepetitionOf(plan: Plan, index: nat): nat
    requires index < |plan.jobs|
  {
    plan.jobs[index].repetition
  }

  predicate InPlan(plan: Plan, c: Consumer) { Busy(c) ==> c.index < |plan.jobs| }

  /** One step of one consumer; an input its await cannot produce leaves it where it is. */
  function Step(plan: Plan, cursor: nat, aborted: bool, c: Consumer, input: Input): Effect
    requires InPlan(plan, c)
  {
    match c
    case Ready => if input.Continue? then Take(plan, cursor, aborted) else Moves(c)
    case MakingRoot(i) =>
      if !input.RootMade? then Moves(c) else Effect(if input.ok then Materialising(i) else Rejected, false, false, !input.ok, None)
    case Materialising(i) =>
      if !input.Materialised? then Moves(c)
      else Effect(if input.ok then Executing(i) else Removing(i, Draft(Interrupted(InfraError, true), None, None)), false, input.ok, false, None)
    case Executing(i) => if !input.Executed? then Moves(c) else OnExecuted(CaseOf(plan, i), i, input.outcome)
    case Capturing(i, result) => if !input.Captured? then Moves(c) else OnCaptured(i, result, input.capture)
    case GradingWorkspace(i, result, evidence) =>
      if input.GradingThrows? then OnGraded(i, result, evidence, UngradedError(GradingFailed, false))
      else if input.GradedAs? && |input.steps| == |CaseOf(plan, i).assertions|
      then OnGraded(i, result, evidence, RedactGrade(WorkspaceGrade(CaseOf(plan, i), result, input.texts, input.steps), input.leaked))
      else Moves(c)
    case Removing(i, draft) =>
      if !input.RootRemoved? then Moves(c) else Effect(if input.ok then Recording(i, draft) else Rejected, false, false, !input.ok, None)
    case Recording(i, draft) =>
      if !input.RecordedAs? then Moves(c)
      else OnRecorded(AssembleTrial(CaseOf(plan, i), RepetitionOf(plan, i), i, draft), input.how)
    case Finished => Moves(c)
    case Rejected => Moves(c)
  }

  /** The contracts the environment keeps: worker protocol, command contract, exact diffs. */
  ghost predicate Contract(plan: Plan, c: Consumer, input: Input)
    requires InPlan(plan, c)
  {
    match input
    case Executed(outcome) => outcome.Returned? ==> ResultSound(outcome.value)
    case Captured(capture) => capture.Saved? ==> ChangesSound(capture.changes)
    case GradedAs(texts, steps, leaked) => c.GradingWorkspace? ==> EnvironmentKeepsContract(CaseOf(plan, c.index), steps)
    case _ => true
  }

  // ---------------------------------------------------------------- what one consumer keeps

  predicate DraftSound(plan: Plan, index: nat, draft: Draft)
    requires index < |plan.jobs|
  {
    TrialSound(AssembleTrial(CaseOf(plan, index), RepetitionOf(plan, index), index, draft))
  }

  predicate ConsumerSound(plan: Plan, c: Consumer) {
    && InPlan(plan, c)
    && match c
       case Capturing(i, result) => ResultSound(result) && Confirmed(result)
       case GradingWorkspace(i, result, evidence) =>
         ResultSound(result) && Confirmed(result) && ChangesSound(evidence.changes)
         && evidence.artifactDirectory == ArtifactDirectory(TrialId(i))
       case Removing(i, draft) => DraftSound(plan, i, draft)
       case Recording(i, draft) => DraftSound(plan, i, draft)
       case _ => true
  }

  lemma JobCaseLoaded(plan: Plan, index: nat)
    requires Loaded(plan) && index < |plan.jobs|
    ensures CaseLoaded(CaseOf(plan, index)) && CaseOf(plan, index).id in CaseIds(plan.cases)
    ensures RepetitionOf(plan, index) < plan.repetitions
  {
    JobsArePlanned(plan.cases, plan.repetitions);
    var k :| 0 <= k < |plan.cases| && plan.cases[k] == plan.jobs[index].item;
    assert CaseIds(plan.cases)[k] == plan.cases[k].id;
  }

  /** Without workspace evidence the grade comes from the result alone. */
  lemma PlainDraftSound(plan: Plan, index: nat, result: WorkerResult)
    requires Loaded(plan) && index < |plan.jobs| && ResultSound(result)
    ensures DraftSound(plan, index, Draft(result, None, None))
  {
    JobCaseLoaded(plan, index);
    GradeResultSound(CaseOf(plan, index), result);
  }

  lemma ErrorDraftSound(plan: Plan, index: nat, result: WorkerResult, error: ErrorText, confirmed: bool, evidence: Option<WorkspaceEvidence>)
    requires index < |plan.jobs| && ResultSound(result) && Confirmed(result) && !error.Other?
    requires evidence.Some? ==> ChangesSound(evidence.value.changes) && evidence.value.artifactDirectory == ArtifactDirectory(TrialId(index))
    ensures DraftSound(plan, index, Draft(result, Some(UngradedError(error, confirmed)), evidence))
  {}

  lemma GradedDraftSound(plan: Plan, index: nat, result: WorkerResult, evidence: WorkspaceEvidence, texts: Texts, steps: seq<GraderStep>, leaked: bool)
    requires Loaded(plan) && ConsumerSound(plan, GradingWorkspace(index, result, evidence))
    requires EnvironmentKeepsContract(CaseOf(plan, index), steps)
    ensures DraftSound(plan, index, Draft(result, Some(RedactGrade(WorkspaceGrade(CaseOf(plan, index), result, texts, steps), leaked)), Some(evidence)))
  {
    var g := WorkspaceGrade(CaseOf(plan, index), result, texts, steps);
    if leaked {
      ErrorDraftSound(plan, index, result, SecretInGrade, g.terminationConfirmed != Some(false), Some(evidence));
    } else {
      JobCaseLoaded(plan, index);
      WorkspaceGradeSound(CaseOf(plan, index), result, texts, steps);
    }
  }

  lemma TakeSound(plan: Plan, cursor: nat, aborted: bool)
    requires Loaded(plan)
    ensures ConsumerSound(plan, Take(plan, cursor, aborted).next)
  {
    if cursor < |plan.jobs| { PlainDraftSound(plan, cursor, Interrupted(Cancelled, true)); }
  }

  lemma ExecutedSound(plan: Plan, i: nat, outcome: Outcome<WorkerResult>)
    requires Loaded(plan) && i < |plan.jobs| && (outcome.Returned? ==> ResultSound(outcome.value))
    ensures ConsumerSound(plan, OnExecuted(CaseOf(plan, i), i, outcome).next)
  {
    match outcome
    case Threw => PlainDraftSound(plan, i, Interrupted(InfraError, false));
    case Returned(r) => PlainDraftSound(plan, i, if r.terminationConfirmed then r else r.(status := InfraError));
  }

  lemma CapturedSound(plan: Plan, i: nat, result: WorkerResult, capture: Capture)
    requires ConsumerSound(plan, Capturing(i, result)) && (capture.Saved? ==> ChangesSound(capture.changes))
    ensures ConsumerSound(plan, OnCaptured(i, result, capture).next)
  {
    match capture
    case CaptureFails => ErrorDraftSound(plan, i, result, CaptureFailed, true, None);
    case HoldsSecret => ErrorDraftSound(plan, i, result, SecretInWorkspace, true, None);
    case Saved(_, _, _) =>
  }

  lemma GradedSound(plan: Plan, i: nat, result: WorkerResult, evidence: WorkspaceEvidence, g: Grade)
    requires i < |plan.jobs| && DraftSound(plan, i, Draft(result, Some(g), Some(evidence)))
    ensures ConsumerSound(plan, OnGraded(i, result, evidence, g).next)
  {}

  /** Whatever an await resolves to, the trial in the making stays one the report accepts. */
  lemma StepSound(plan: Plan, cursor: nat, aborted: bool, c: Consumer, input: Input)
    requires Loaded(plan) && ConsumerSound(plan, c) && Contract(plan, c, input)
    ensures ConsumerSound(plan, Step(plan, cursor, aborted, c, input).next)
  {
    match c
    case Ready => TakeSound(plan, cursor, aborted);
    case MakingRoot(_) =>
    case Materialising(i) => PlainDraftSound(plan, i, Interrupted(InfraError, true));
    case Executing(i) => if input.Executed? { ExecutedSound(plan, i, input.outcome); }
    case Capturing(i, result) => if input.Captured? { CapturedSound(plan, i, result, input.capture); }
    case GradingWorkspace(i, result, evidence) =>
      if input.GradingThrows? {
        ErrorDraftSound(plan, i, result, GradingFailed, false, Some(evidence));
        GradedSound(plan, i, result, evidence, UngradedError(GradingFailed, false));
      } else if input.GradedAs? {
        GradedDraftSound(plan, i, result, evidence, input.texts, input.steps, input.leaked);
        GradedSound(plan, i, result, evidence, RedactGrade(WorkspaceGrade(CaseOf(plan, i), result, input.texts, input.steps), input.leaked));
      }
    case Removing(_, _) =>
    case Recording(_, _) =>
    case Finished =>
    case Rejected =>
  }
}
