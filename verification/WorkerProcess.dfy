/**
 * One trial worker (`runBenchmarkWorker`, src/benchmark/process.ts): the protocol check on its
 * result file and the lifecycle of its process group, as a state machine over the steps between awaits.
 */
module WorkerProcess {
  import opened BenchTypes
  import opened Report

  datatype Request = Request(roleId: string, provider: string, model: string)

  // ---------------------------------------------------------------- the result protocol

  predicate HexDigest(s: string) {
    |s| == 64 && forall i :: 0 <= i < 64 ==> '0' <= s[i] <= '9' || 'a' <= s[i] <= 'f'
  }

  predicate ActivationAccepted(a: Activation, request: Request) {
    && a.roleId == request.roleId && a.provider == request.provider && a.model == request.model
    && 0 < |a.roleId| <= 128 && 0 < |a.provider| <= 4096 && 0 < |a.model| <= 4096
    && HexDigest(a.promptDigest)
  }

  /** The checks of `parseResult` that are not about field types. */
  predicate Accepted(claim: WorkerResult, request: Request) {
    && |claim.output| <= 4194304 && claim.durationMs >= 0.0
    && (claim.diagnostic.Some? ==> |claim.diagnostic.value| <= 65536)
    && (claim.usage.costUsd.Some? ==> claim.usage.costUsd.value >= 0.0)
    && !(claim.usage.source.Unavailable? &&
         (claim.usage.inputTokens.Some? || claim.usage.outputTokens.Some? || claim.usage.costUsd.Some?))
    && (claim.activation.Some? ==> ActivationAccepted(claim.activation.value, request))
    && !(claim.status.Completed? && claim.activation.None?)
    && (claim.runtime.Some? ==> 0 < |claim.runtime.value.dshVersion| <= 128 && 0 < |claim.runtime.value.roleboxVersion| <= 128)
  }

  function Failure(status: WorkerStatus, confirmed: bool): WorkerResult {
    WorkerResult(status, "", None, None, Usage(None, None, None, Unavailable), 0.0, confirmed, Some(""))
  }

  /** A leaked environment value turns the result invalid and drops its evidence. */
  function Redact(r: WorkerResult, leaked: bool, redactedOutput: string): WorkerResult {
    if leaked then r.(status := Invalid, output := redactedOutput, activation := None, runtime := None) else r
  }

  // ---------------------------------------------------------------- the lifecycle

  datatype Stop = NotStarted | Pending | Settled(ok: bool)

  datatype Phase =
    | Preparing
    | Racing
    | AwaitingGroup  // loader helpers get a moment to leave the group
    | AwaitingLinger
    | AwaitingStop
    | Reading
    | Catching
    | AwaitingExit
    | Finalizing
    | Removing
    | Done

  /** The `result` variable: a failure made here, or what the worker wrote. */
  datatype Produced = Failed(status: WorkerStatus) | Read

  datatype State = State(
    phase: Phase,
    hasPid: bool,
    spawned: bool,
    stop: Stop,
    stopsStarted: nat,
    cancelled: bool,
    expired: bool,
    lingering: bool,
    caught: bool,
    exitedCleanly: bool,
    confirmed: bool,
    result: Produced,
    root: bool,
    removed: bool)

  datatype Spawn = SpawnThrows | SpawnedThenThrows(pid: bool) | Spawned(pid: bool)

  datatype Event =
    | Abort
    | Deadline
    | StopSettles(ok: bool)
    | PrepareFails(rootMade: bool)
    | Prepared(spawn: Spawn)
    | Exits(cleanly: bool)
    | Unconfirmed
    | GroupChecked(alive: bool)
    | LingerStopped
    | StopAwaited
    | ResultRead
    | CatchAwaited
    | ExitAwaited
    | FinallyAwaited
    | RootRemoved(ok: bool)

  datatype Startup = Go | AbortedAtStart | OnWindows | InvalidDeadline

  function Init(startup: Startup): State {
    var start := State(Preparing, false, false, NotStarted, 0, false, false, false, false, false, true, Failed(InfraError), false, false);
    match startup
    case Go => start
    case AbortedAtStart => start.(phase := Done, cancelled := true)
    case OnWindows => start.(phase := Done, result := Failed(Invalid))
    case InvalidDeadline => start.(phase := Done, result := Failed(Invalid))
  }

  function StartStop(s: State): State {
    var starts := s.hasPid && s.stop.NotStarted?;
    s.(stop := if starts then Pending else s.stop, stopsStarted := if starts then s.stopsStarted + 1 else s.stopsStarted)
  }

  predicate StopOk(s: State) { s.stop.NotStarted? || s.stop == Settled(true) }

  /** The listener stays until the control directory is gone. */
  function OnAbort(s: State): State {
    var starts := !s.phase.Done? && s.hasPid && s.stop.NotStarted?;
    s.(cancelled := s.cancelled || !s.phase.Done?,
       stop := if starts then Pending else s.stop, stopsStarted := if starts then s.stopsStarted + 1 else s.stopsStarted)
  }

  function OnDeadline(s: State): State {
    var starts := s.phase.Racing? && s.hasPid && s.stop.NotStarted?;
    s.(expired := s.expired || s.phase.Racing?,
       stop := if starts then Pending else s.stop, stopsStarted := if starts then s.stopsStarted + 1 else s.stopsStarted)
  }

  function OnStopSettles(s: State, ok: bool): State {
    s.(stop := if s.stop.Pending? then Settled(ok) else s.stop)
  }

  function OnPrepareFails(s: State, rootMade: bool): State {
    var fails := s.phase.Preparing?;
    s.(root := if fails then rootMade else s.root, phase := if fails then Catching else s.phase, caught := s.caught || fails)
  }

  function OnPrepared(s: State, spawn: Spawn): State {
    if !s.phase.Preparing? then s
    else if s.cancelled then s.(root := true, phase := Finalizing)
    else
      var t := s.(root := true, hasPid := !spawn.SpawnThrows? && spawn.pid, spawned := !spawn.SpawnThrows?,
                  phase := if spawn.Spawned? then Racing else Catching, caught := !spawn.Spawned?);
      if spawn.SpawnedThenThrows? then StartStop(t) else t
  }

  function OnRaceWon(s: State, cleanly: bool): State {
    s.(phase := if s.phase.Racing? then AwaitingGroup else s.phase, exitedCleanly := if s.phase.Racing? then cleanly else s.exitedCleanly)
  }

  function OnGroupChecked(s: State, alive: bool): State {
    if !s.phase.AwaitingGroup? then s
    else
      var lingering := s.hasPid && alive;
      var t := s.(lingering := lingering, phase := if lingering then AwaitingLinger else AwaitingStop);
      if lingering then StartStop(t) else t
  }

  function OnLingerStopped(s: State): State {
    s.(phase := if s.phase.AwaitingLinger? && !s.stop.Pending? then AwaitingStop else s.phase)
  }

  function OnStopAwaited(s: State): State {
    if !s.phase.AwaitingStop? || s.stop.Pending? then s
    else
      var failed := !StopOk(s) || s.expired || !s.exitedCleanly || s.lingering;
      s.(phase := if failed then Finalizing else Reading, confirmed := StopOk(s), result := if failed then Failed(InfraError) else s.result)
  }

  function OnResultRead(s: State, accepted: bool): State {
    var reading := s.phase.Reading?;
    s.(phase := if reading then Finalizing else s.phase, result := if !reading then s.result else if accepted then Read else Failed(InfraError))
  }

  function OnCatchAwaited(s: State): State {
    if !s.phase.Catching? || s.stop.Pending? then s
    else
      var waits := s.spawned && StopOk(s);
      s.(phase := if waits then AwaitingExit else Finalizing, confirmed := StopOk(s), result := if waits then s.result else Failed(InfraError))
  }

  function OnExitAwaited(s: State): State {
    var exited := s.phase.AwaitingExit?;
    s.(phase := if exited then Finalizing else s.phase, result := if exited then Failed(InfraError) else s.result)
  }

  function OnFinallyAwaited(s: State): State {
    if !s.phase.Finalizing? || s.stop.Pending? then s
    else
      var confirmed := if s.stop.NotStarted? then s.confirmed else s.stop.ok;
      s.(phase := if s.root && confirmed then Removing else Done, confirmed := confirmed)
  }

  function OnRootRemoved(s: State, ok: bool): State {
    var removes := s.phase.Removing?;
    s.(phase := if removes then Done else s.phase, removed := if removes then ok else s.removed,
       result := if removes && !ok then Failed(InfraError) else s.result)
  }

  /** One step; `accepted` says whether the result file holds a result the protocol accepts. */
  function Next(s: State, e: Event, accepted: bool): State {
    match e
    case Abort => OnAbort(s)
    case Deadline => OnDeadline(s)
    case StopSettles(ok) => OnStopSettles(s, ok)
    case PrepareFails(rootMade) => OnPrepareFails(s, rootMade)
    case Prepared(spawn) => OnPrepared(s, spawn)
    case Exits(cleanly) => OnRaceWon(s, cleanly)
    case Unconfirmed => if s.stop == Settled(false) then OnRaceWon(s, false) else s
    case GroupChecked(alive) => OnGroupChecked(s, alive)
    case LingerStopped => OnLingerStopped(s)
    case StopAwaited => OnStopAwaited(s)
    case ResultRead => OnResultRead(s, accepted)
    case CatchAwaited => OnCatchAwaited(s)
    case ExitAwaited => OnExitAwaited(s)
    case FinallyAwaited => OnFinallyAwaited(s)
    case RootRemoved(ok) => OnRootRemoved(s, ok)
  }

  function Run(s: State, events: seq<Event>, accepted: bool): State {
    if events == [] then s else Next(Run(s, events[..|events| - 1], accepted), events[|events| - 1], accepted)
  }

  // ---------------------------------------------------------------- what every step keeps

  /** One stop at most, and only for a reason. */
  predicate StopSound(s: State) {
    && s.stopsStarted == (if s.stop.NotStarted? then 0 else 1)
    && (!s.stop.NotStarted? ==> s.hasPid && (s.cancelled || s.expired || s.lingering || s.caught))
    && (s.phase.Preparing? ==> !s.hasPid)
    && (s.phase.Preparing? || s.phase.Racing? || s.phase.AwaitingGroup? ==> !s.lingering)
  }

  /** Termination has been settled once; only a late cancellation may put it in doubt again. */
  predicate Late(p: Phase) { p.Reading? || p.AwaitingExit? || p.Finalizing? || p.Removing? || p.Done? }

  predicate ConfirmationHonest(s: State) {
    && (Late(s.phase) && s.confirmed && !StopOk(s) ==> s.cancelled)
    && (s.phase.Preparing? || s.phase.Removing? ==> s.confirmed)
    && (s.removed ==> s.confirmed && s.phase.Done?)
  }

  predicate Untroubled(s: State) { s.exitedCleanly && !s.expired && !s.lingering && !s.caught }

  /** A result is read only after a clean, unforced and complete exit. */
  predicate ReadSound(s: State) {
    && (s.result.Read? || s.phase.Reading? ==> Untroubled(s))
    && (s.result.Read? ==> s.phase.Finalizing? || s.phase.Removing? || s.phase.Done?)
    && (s.caught ==> s.phase.Catching? || s.phase.AwaitingExit? || s.phase.Finalizing? || s.phase.Removing? || s.phase.Done?)
    && (s.result.Failed? ==> s.result.status.InfraError? || s.result.status.Invalid?)
  }

  predicate Inv(s: State) { StopSound(s) && ConfirmationHonest(s) && ReadSound(s) }

  lemma AbortSound(s: State)
    requires Inv(s)
    ensures Inv(OnAbort(s))
  {}

  lemma PreparedSound(s: State, spawn: Spawn)
    requires Inv(s)
    ensures Inv(OnPrepared(s, spawn))
  {}

  lemma GroupCheckedSound(s: State, alive: bool)
    requires Inv(s)
    ensures Inv(OnGroupChecked(s, alive))
  {}

  lemma StopAwaitedSound(s: State)
    requires Inv(s)
    ensures Inv(OnStopAwaited(s))
  {}

  lemma CatchAwaitedSound(s: State)
    requires Inv(s)
    ensures Inv(OnCatchAwaited(s))
  {}

  lemma FinallySound(s: State)
    requires Inv(s)
    ensures Inv(OnFinallyAwaited(s))
  {}

  lemma StepSound(s: State, e: Event, accepted: bool)
    requires Inv(s)
    ensures Inv(Next(s, e, accepted))
  {
    match e
    case Abort => AbortSound(s);
    case Deadline =>
    case StopSettles(_) =>
    case PrepareFails(_) =>
    case Prepared(spawn) => PreparedSound(s, spawn);
    case Exits(_) =>
    case Unconfirmed =>
    case GroupChecked(alive) => GroupCheckedSound(s, alive);
    case LingerStopped =>
    case StopAwaited => StopAwaitedSound(s);
    case ResultRead =>
    case CatchAwaited => CatchAwaitedSound(s);
    case ExitAwaited =>
    case FinallyAwaited => FinallySound(s);
    case RootRemoved(_) =>
  }

  lemma ReadMeansAccepted(s: State, e: Event, accepted: bool)
    requires s.result.Read? ==> accepted
    ensures Next(s, e, accepted).result.Read? ==> accepted
  {
    match e
    case Abort =>
    case Deadline =>
    case StopSettles(_) =>
    case PrepareFails(_) =>
    case Prepared(spawn) =>
    case Exits(_) =>
    case Unconfirmed =>
    case GroupChecked(alive) =>
    case LingerStopped =>
    case StopAwaited =>
    case ResultRead =>
    case CatchAwaited =>
    case ExitAwaited =>
    case FinallyAwaited =>
    case RootRemoved(_) =>
  }

  lemma {:induction false} RunSound(startup: Startup, events: seq<Event>, accepted: bool)
    ensures Inv(Run(Init(startup), events, accepted))
    ensures Run(Init(startup), events, accepted).result.Read? ==> accepted
  {
    if events != [] {
      RunSound(startup, events[..|events| - 1], accepted);
      StepSound(Run(Init(startup), events[..|events| - 1], accepted), events[|events| - 1], accepted);
      ReadMeansAccepted(Run(Init(startup), events[..|events| - 1], accepted), events[|events| - 1], accepted);
    }
  }

  // ---------------------------------------------------------------- what the caller gets

  /** What the worker left behind: nothing when the file is missing, unreadable or oversized. */
  predicate FileAccepted(file: Option<WorkerResult>, request: Request) {
    file.Some? && Accepted(file.value, request)
  }

  /** `result` after the finally block: a host that did not confirm its teardown is an infrastructure error. */
  function Final(s: State, file: Option<WorkerResult>): WorkerResult
    requires s.result.Read? ==> file.Some?
  {
    match s.result
    case Failed(status) => Failure(status, s.confirmed)
    case Read => if file.value.terminationConfirmed then file.value else file.value.(status := InfraError)
  }

  function Reported(s: State, file: Option<WorkerResult>, leaked: bool, redactedOutput: string): WorkerResult
    requires s.result.Read? ==> file.Some?
  {
    if s.cancelled then Failure(Cancelled, s.confirmed) else Redact(Final(s, file), leaked, redactedOutput)
  }

  /**
   * Whatever the order of exit, deadline, abort, stop confirmation and result reading: the result
   * keeps the protocol; a worker comes back completed only when its group ended by itself, in time,
   * cleanly, without cancellation or an exception, and with termination confirmed on both sides; at most
   * one group stop was started and the control directory was removed only after confirmed termination.
   */
  lemma WorkerLifecycle(startup: Startup, events: seq<Event>, request: Request, file: Option<WorkerResult>, leaked: bool, redactedOutput: string)
    requires Run(Init(startup), events, FileAccepted(file, request)).phase.Done?
    ensures
      var s := Run(Init(startup), events, FileAccepted(file, request));
      && (s.result.Read? ==> file.Some?)
      && var r := Reported(s, file, leaked, redactedOutput);
      && ResultSound(r)
      && (r.status.Completed? ==>
            r.terminationConfirmed && s.exitedCleanly && !s.cancelled && !s.expired && !s.lingering && !s.caught
            && s.stopsStarted == 0 && !leaked)
      && (r.status.Completed? || r.status.TaskFailure? || r.status.TaskTimeout? ==> r.terminationConfirmed)
      && s.stopsStarted <= 1
      && (s.removed ==> s.confirmed)
  {
    RunSound(startup, events, FileAccepted(file, request));
  }

  // ---------------------------------------------------------------- an untroubled worker's result is kept

  /** Nothing went wrong: the worker left by itself, in time and cleanly, and nobody cancelled it. */
  predicate Smooth(s: State) { Untroubled(s) && !s.cancelled }

  /** Past the decision, with the control directory not failing to go away. */
  predicate Decided(s: State) { s.phase.Finalizing? || s.phase.Removing? || (s.phase.Done? && s.removed) }

  predicate KeepsResult(s: State, accepted: bool) {
    (Decided(s) && Smooth(s) && accepted ==> s.result.Read?) && (s.phase.Catching? || s.phase.AwaitingExit? ==> s.caught)
  }

  lemma StopAwaitedKeeps(s: State, accepted: bool)
    requires Inv(s) && KeepsResult(s, accepted)
    ensures KeepsResult(OnStopAwaited(s), accepted)
  {}

  lemma FinallyKeeps(s: State, accepted: bool)
    requires Inv(s) && KeepsResult(s, accepted)
    ensures KeepsResult(OnFinallyAwaited(s), accepted)
  {}

  lemma StepKeeps(s: State, e: Event, accepted: bool)
    requires Inv(s) && KeepsResult(s, accepted)
    ensures KeepsResult(Next(s, e, accepted), accepted)
  {
    match e
    case Abort =>
    case Deadline =>
    case StopSettles(_) =>
    case PrepareFails(_) =>
    case Prepared(_) =>
    case Exits(_) =>
    case Unconfirmed =>
    case GroupChecked(_) =>
    case LingerStopped =>
    case StopAwaited => StopAwaitedKeeps(s, accepted);
    case ResultRead =>
    case CatchAwaited =>
    case ExitAwaited =>
    case FinallyAwaited => FinallyKeeps(s, accepted);
    case RootRemoved(_) =>
  }

  lemma {:induction false} RunKeeps(startup: Startup, events: seq<Event>, accepted: bool)
    ensures KeepsResult(Run(Init(startup), events, accepted), accepted)
  {
    if events != [] {
      RunKeeps(startup, events[..|events| - 1], accepted);
      RunSound(startup, events[..|events| - 1], accepted);
      StepKeeps(Run(Init(startup), events[..|events| - 1], accepted), events[|events| - 1], accepted);
    }
  }

  /**
   * A worker that left by itself, in time, cleanly and uncancelled, whose result the protocol accepts and whose
   * directory could be removed, gets exactly its own result back, unless it did not confirm its teardown or leaked.
   */
  lemma UntroubledResultKept(startup: Startup, events: seq<Event>, request: Request, file: Option<WorkerResult>, leaked: bool, redactedOutput: string)
    requires
      var s := Run(Init(startup), events, FileAccepted(file, request));
      s.phase.Done? && s.removed && Smooth(s) && FileAccepted(file, request)
    ensures Run(Init(startup), events, FileAccepted(file, request)).result.Read?
    ensures file.value.terminationConfirmed && !leaked ==>
      Reported(Run(Init(startup), events, FileAccepted(file, request)), file, leaked, redactedOutput) == file.value
  {
    RunKeeps(startup, events, FileAccepted(file, request));
  }
}
