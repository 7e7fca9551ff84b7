/** The semantic checks of `parseBenchmarkRunRecord` (src/benchmark/report.ts). */
module Report {
  import opened BenchTypes
  import opened Sorting

  // ---------------------------------------------------------------- what a valid record is

  predicate HasError(g: Grade) { g.error.Some? && !EmptyText(g.error.value) }

  /** Grading could not vouch for the run it looked at. */
  predicate GradeUnconfirmed(g: Grade) { g.terminationConfirmed == Some(false) }

  predicate TaskEnded(s: WorkerStatus) { s.TaskTimeout? || s.TaskFailure? }

  predicate Confirmed(r: WorkerResult) { r.status.Completed? && r.terminationConfirmed }

  predicate NeedsWorkspace(a: AssertionResult) { IsFileKind(a.kind) || a.kind.CommandKind? }

  predicate EvidenceMatchesKind(a: AssertionResult) {
    && (IsFileKind(a.kind) <==> a.path.Some?)
    && (a.kind.CommandKind? <==> a.command.Some?)
  }

  predicate CommandSound(a: AssertionResult, g: Grade) {
    a.command.Some? ==>
      var c := a.command.value;
      && (a.passed ==> c.status.CommandCompleted?)
      && (c.status.CommandCompleted? ==> c.exitCode.Some?)
      && (c.status.CommandError? || c.status.CommandCancelled? ==> HasError(g))
      && (!c.terminationConfirmed ==> GradeUnconfirmed(g))
  }

  predicate ChangeSound(c: Change) {
    && (c.kind.Added? <==> c.beforeDigest.None?)
    && (c.kind.Deleted? <==> c.afterDigest.None?)
    && (c.beforeDigest.None? <==> c.beforeExecutable.None?)
    && (c.afterDigest.None? <==> c.afterExecutable.None?)
    && (c.beforeDigest.None? ==> c.beforeText.None?)
    && (c.afterDigest.None? ==> c.afterText.None?)
  }

  function ArtifactDirectory(trialId: string): string {
    "artifacts/" + trialId + "/workspace"
  }

  predicate ChangesSound(changes: seq<Change>) {
    && |changes| <= 2000
    && (forall i, j :: 0 <= i < j < |changes| ==> changes[i].path != changes[j].path)
    && (forall i :: 0 <= i < |changes| ==> ChangeSound(changes[i]))
  }

  predicate WorkspaceSound(t: Trial) {
    match t.workspace
    case None => forall i :: 0 <= i < |t.grade.assertions| ==> !NeedsWorkspace(t.grade.assertions[i])
    case Some(w) => Confirmed(t.result) && w.artifactDirectory == ArtifactDirectory(t.id) && ChangesSound(w.changes)
  }

  predicate ResultSound(r: WorkerResult) {
    && (r.status.Completed? ==> r.activation.Some?)
    && (r.usage.source.Unavailable? ==> r.usage.inputTokens.None? && r.usage.outputTokens.None? && r.usage.costUsd.None?)
  }

  predicate AllPassed(assertions: seq<AssertionResult>) {
    forall i :: 0 <= i < |assertions| ==> assertions[i].passed
  }

  /** The verdict follows from the evidence in the only way the report accepts. */
  predicate VerdictSound(g: Grade, r: WorkerResult) {
    if g.error.Some? || GradeUnconfirmed(g) then HasError(g) && g.verdict.Unscored?
    else if Confirmed(r) then g.assertions != [] && g.verdict == (if AllPassed(g.assertions) then Pass else Fail)
    else g.assertions == [] && g.verdict == (if TaskEnded(r.status) then Fail else Unscored)
  }

  predicate GradeSound(g: Grade, r: WorkerResult) {
    && |g.assertions| <= 64
    && (forall i :: 0 <= i < |g.assertions| ==> EvidenceMatchesKind(g.assertions[i]) && CommandSound(g.assertions[i], g))
    && VerdictSound(g, r)
  }

  predicate TrialSound(t: Trial) {
    WorkspaceSound(t) && ResultSound(t.result) && GradeSound(t.grade, t.result)
  }

  /** Neither the worker nor a grading command may have left a process behind. */
  predicate TrialConfirmed(t: Trial) { t.result.terminationConfirmed && !GradeUnconfirmed(t.grade) }

  predicate Scored(t: Trial) { !t.grade.verdict.Unscored? && TrialConfirmed(t) }

  predicate PlanSound(run: RunRecord) {
    && 1 <= |run.caseIds| <= 1000 && 1 <= run.repetitions <= 20
    && run.plannedTrials == |run.caseIds| * run.repetitions
    && (forall i, j :: 0 <= i < j < |run.caseIds| ==> run.caseIds[i] != run.caseIds[j])
  }

  function Key(t: Trial): (string, nat) { (t.caseId, t.repetition) }

  predicate Planned(run: RunRecord, t: Trial) { t.caseId in run.caseIds && t.repetition < run.repetitions }

  predicate NoRepeats(trials: seq<Trial>) {
    forall i, j :: 0 <= i < j < |trials| ==> trials[i].id != trials[j].id && Key(trials[i]) != Key(trials[j])
  }

  predicate ValidRecord(run: RunRecord) {
    && PlanSound(run)
    && |run.trials| <= 20000
    && NoRepeats(run.trials)
    && (forall i :: 0 <= i < |run.trials| ==> Planned(run, run.trials[i]) && TrialSound(run.trials[i]))
    && (run.status.RunCompleted? ==>
      |run.trials| == run.plannedTrials && run.completedAt.Some? &&
      forall i :: 0 <= i < |run.trials| ==> Scored(run.trials[i]))
  }

  // ---------------------------------------------------------------- the checker

  method DistinctStrings(s: seq<string>) returns (distinct: bool)
    ensures distinct <==> forall i, j :: 0 <= i < j < |s| ==> s[i] != s[j]
  {
    var seen := {};
    for k := 0 to |s|
      invariant seen == set i | 0 <= i < k :: s[i]
      invariant forall i, j :: 0 <= i < j < k ==> s[i] != s[j]
    {
      if s[k] in seen { return false; }
      seen := seen + {s[k]};
    }
    return true;
  }

  method CheckChanges(changes: seq<Change>) returns (ok: bool)
    ensures ok <==> ChangesSound(changes)
  {
    if |changes| > 2000 { return false; }
    var paths := seq(|changes|, i requires 0 <= i < |changes| => changes[i].path);
    var distinct := DistinctStrings(paths);
    assert forall i :: 0 <= i < |changes| ==> paths[i] == changes[i].path;
    if !distinct { return false; }
    for i := 0 to |changes|
      invariant forall k :: 0 <= k < i ==> ChangeSound(changes[k])
    {
      var c := changes[i];
      if (c.kind == Added) != c.beforeDigest.None?
        || (c.kind == Deleted) != c.afterDigest.None?
        || c.beforeDigest.None? != c.beforeExecutable.None?
        || c.afterDigest.None? != c.afterExecutable.None?
        || (c.beforeDigest.None? && (c.beforeText.Some? || c.beforeExecutable.Some?))
        || (c.afterDigest.None? && (c.afterText.Some? || c.afterExecutable.Some?)) { return false; }
    }
    return true;
  }

  /** The checks one trial must pass, in the order the parser applies them. */
  method CheckTrial(t: Trial) returns (ok: bool)
    ensures ok <==> TrialSound(t)
  {
    var g, r := t.grade, t.result;
    if |g.assertions| > 64 { return false; }
    for i := 0 to |g.assertions|
      invariant t.workspace.None? ==> forall k :: 0 <= k < i ==> !NeedsWorkspace(g.assertions[k])
    {
      if (IsFileKind(g.assertions[i].kind) || g.assertions[i].kind.CommandKind?) && t.workspace.None? { return false; }
    }
    for i := 0 to |g.assertions|
      invariant forall k :: 0 <= k < i ==> EvidenceMatchesKind(g.assertions[k]) && CommandSound(g.assertions[k], g)
    {
      var a := g.assertions[i];
      if IsFileKind(a.kind) != a.path.Some? || a.kind.CommandKind? != a.command.Some? { return false; }
      if a.command.Some? {
        var c := a.command.value;
        if (c.status != CommandCompleted && a.passed)
          || (c.status == CommandCompleted && c.exitCode.None?)
          || ((c.status == CommandError || c.status == CommandCancelled) && !(g.error.Some? && !EmptyText(g.error.value)))
          || (!c.terminationConfirmed && g.terminationConfirmed != Some(false)) { return false; }
      }
    }
    if t.workspace.Some? {
      var w := t.workspace.value;
      if r.status != Completed || !r.terminationConfirmed { return false; }
      if w.artifactDirectory != ArtifactDirectory(t.id) { return false; }
      var sound := CheckChanges(w.changes);
      if !sound { return false; }
    }
    if r.status == Completed && r.activation.None? { return false; }
    if r.usage.source == Unavailable && (r.usage.inputTokens.Some? || r.usage.outputTokens.Some? || r.usage.costUsd.Some?) { return false; }
    if g.error.Some? || g.terminationConfirmed == Some(false) {
      return (g.error.Some? && !EmptyText(g.error.value)) && g.verdict == Unscored;
    } else if r.status == Completed && r.terminationConfirmed {
      return |g.assertions| != 0 && g.verdict == (if AllPassed(g.assertions) then Pass else Fail);
    } else {
      return |g.assertions| == 0 && g.verdict == (if r.status == TaskTimeout || r.status == TaskFailure then Fail else Unscored);
    }
  }

  lemma OneMoreTrial(trials: seq<Trial>, n: nat)
    requires n < |trials| && NoRepeats(trials[..n])
    ensures NoRepeats(trials[..n + 1]) <==>
      (forall i :: 0 <= i < n ==> trials[i].id != trials[n].id && Key(trials[i]) != Key(trials[n]))
    ensures NoRepeats(trials) ==> NoRepeats(trials[..n + 1])
  {
    assert forall i :: 0 <= i < n ==> trials[..n + 1][i] == trials[..n][i] == trials[i];
    assert trials[..n + 1][n] == trials[n];
  }

  /** The loop over the trials: planned, unique and sound. */
  method CheckTrials(run: RunRecord) returns (ok: bool)
    ensures ok <==> NoRepeats(run.trials) && forall i :: 0 <= i < |run.trials| ==> Planned(run, run.trials[i]) && TrialSound(run.trials[i])
  {
    var trialIds: set<string>, trialKeys: set<(string, nat)> := {}, {};
    for n := 0 to |run.trials|
      invariant trialIds == set i | 0 <= i < n :: run.trials[i].id
      invariant trialKeys == set i | 0 <= i < n :: Key(run.trials[i])
      invariant NoRepeats(run.trials[..n])
      invariant forall i :: 0 <= i < n ==> Planned(run, run.trials[i]) && TrialSound(run.trials[i])
    {
      var t := run.trials[n];
      OneMoreTrial(run.trials, n);
      if t.caseId !in run.caseIds || t.repetition >= run.repetitions || t.id in trialIds || Key(t) in trialKeys { return false; }
      trialIds, trialKeys := trialIds + {t.id}, trialKeys + {Key(t)};
      var sound := CheckTrial(t);
      if !sound { return false; }
    }
    assert run.trials[..|run.trials|] == run.trials;
    return true;
  }

  method CheckScored(trials: seq<Trial>) returns (ok: bool)
    ensures ok <==> forall i :: 0 <= i < |trials| ==> Scored(trials[i])
  {
    for n := 0 to |trials|
      invariant forall i :: 0 <= i < n ==> Scored(trials[i])
    {
      var t := trials[n];
      if t.grade.verdict == Unscored || t.grade.terminationConfirmed == Some(false) || !t.result.terminationConfirmed { return false; }
    }
    return true;
  }

  /** `parseBenchmarkRunRecord`: accepts exactly the valid records. */
  method ParseRunRecord(run: RunRecord) returns (r: Outcome<RunRecord>)
    ensures r.Returned? <==> ValidRecord(run)
    ensures r.Returned? ==> r.value == run
  {
    if !(1 <= |run.caseIds| <= 1000) || !(1 <= run.repetitions <= 20) || |run.trials| > 20000 { return Threw; }
    var distinct := DistinctStrings(run.caseIds);
    if !distinct || run.plannedTrials != |run.caseIds| * run.repetitions { return Threw; }
    var sound := CheckTrials(run);
    if !sound { return Threw; }
    if run.status == RunCompleted {
      var scored := CheckScored(run.trials);
      if |run.trials| != run.plannedTrials || !scored || run.completedAt.None? { return Threw; }
    }
    return Returned(run);
  }

  // ---------------------------------------------------------------- reading a verdict back

  /** `verdict(trial)` as the summary computes it from the raw evidence. */
  function VerdictOf(t: Trial): Verdict {
    if HasError(t.grade) || GradeUnconfirmed(t.grade) then Unscored
    else if t.result.status.TaskTimeout? || t.result.status.TaskFailure? then Fail
    else if !t.result.status.Completed? || !t.result.terminationConfirmed then Unscored
    else t.grade.verdict
  }

  /** In a validated record the summary's verdict is the stored one, for every trial. */
  lemma VerdictAgrees(run: RunRecord)
    requires ValidRecord(run)
    ensures forall i :: 0 <= i < |run.trials| ==> VerdictOf(run.trials[i]) == run.trials[i].grade.verdict
  {
    forall i | 0 <= i < |run.trials| ensures VerdictOf(run.trials[i]) == run.trials[i].grade.verdict {
      assert TrialSound(run.trials[i]);
    }
  }
}
