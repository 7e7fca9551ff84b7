/**
 * One command assertion (`runBenchmarkCommand`, src/benchmark/command-grader.ts) as a state
 * machine. A step is what runs between two awaits; the environment chooses the order of exit,
 * deadline, abort, stop confirmation, stream and file-system outcomes.
 */
module CommandGrader {
  import opened BenchTypes

  /** The memoised group stop: `stopped ??= stopGroup(pid)`. */
  datatype Stop = NotStarted | Pending | Settled(ok: bool)

  datatype Phase =
    | Preparing      // temporary directory, materialised snapshots, environment
    | Racing         // exit against an unconfirmed stop
    | AwaitingLinger // stopping descendants that outlived the command
    | AwaitingStop
    | AwaitingClose
    | Catching
    | Finalizing
    | Removing
    | Done

  datatype State = State(
    phase: Phase,
    hasPid: bool,
    stop: Stop,
    stopsStarted: nat,
    cancelled: bool,
    expired: bool,
    lingering: bool,
    caught: bool,
    error: Option<ErrorText>,
    status: CommandStatus,
    exitCode: Option<int>,
    confirmed: bool,
    root: bool,
    removed: bool)

  datatype Spawn = SpawnThrows | SpawnedThenThrows(pid: bool) | Spawned(pid: bool)

  datatype Event =
    | Abort
    | Deadline
    | StopSettles(ok: bool)
    | StreamFails
    | PrepareFails(rootMade: bool)
    | Prepared(spawn: Spawn)
    | Exits(code: Option<int>, groupAlive: bool)  // no code: the error event, or killed by a signal
    | Unconfirmed(groupAlive: bool)
    | LingerStopped
    | StopAwaited
    | ClosedInTime(ok: bool)
    | CatchAwaited
    | FinallyAwaited
    | RootRemoved(ok: bool)

  /** Why a command never starts: checked before any resource exists. */
  datatype Startup = Go | AbortedAtStart | OnWindows | InvalidAssertion | MissingChecks

  function Init(startup: Startup): State {
    var start := State(Preparing, false, NotStarted, 0, false, false, false, false, None, CommandError, None, true, false, false);
    var refused := start.(phase := Done);
    match startup
    case Go => start
    case AbortedAtStart => refused.(cancelled := true, status := CommandCancelled, error := Some(CancelledBeforeStartup))
    case OnWindows => refused.(error := Some(UnsupportedPlatform))
    case InvalidAssertion => refused.(error := Some(InvalidCommand))
    case MissingChecks => refused.(error := Some(ChecksRequired))
  }

  /** The abort listener is removed once the last stop has settled. */
  predicate Listening(p: Phase) { !p.Removing? && !p.Done? }

  /** `stop()`: at most one group stop is ever started. */
  function StartStop(s: State): State {
    var starts := s.hasPid && s.stop.NotStarted?;
    s.(stop := if starts then Pending else s.stop, stopsStarted := if starts then s.stopsStarted + 1 else s.stopsStarted)
  }

  predicate StopOk(s: State) { s.stop.NotStarted? || s.stop == Settled(true) }

  function OnAbort(s: State): State {
    var starts := Listening(s.phase) && s.hasPid && s.stop.NotStarted?;
    s.(cancelled := s.cancelled || Listening(s.phase),
       stop := if starts then Pending else s.stop, stopsStarted := if starts then s.stopsStarted + 1 else s.stopsStarted)
  }

  function OnDeadline(s: State): State {
    if s.phase.Racing? then StartStop(s.(expired := true)) else s
  }

  function OnPrepareFails(s: State, rootMade: bool): State {
    var fails := s.phase.Preparing?;
    s.(root := if fails then rootMade else s.root, phase := if fails then Catching else s.phase, caught := s.caught || fails)
  }

  function OnPrepared(s: State, spawn: Spawn): State {
    if !s.phase.Preparing? then s
    else if s.cancelled then s.(root := true, phase := Finalizing)
    else
      match spawn
      case SpawnThrows => s.(root := true, phase := Catching, caught := true)
      case SpawnedThenThrows(pid) => StartStop(s.(root := true, hasPid := pid, phase := Catching, caught := true))
      case Spawned(pid) => s.(root := true, hasPid := pid, phase := Racing)
  }

  function OnRaceWon(s: State, code: Option<int>, groupAlive: bool): State {
    var wins := s.phase.Racing?;
    var lingers := wins && s.hasPid && groupAlive;
    var starts := lingers && s.stop.NotStarted?;
    s.(exitCode := if wins then code else s.exitCode,
       lingering := s.lingering || lingers,
       phase := if lingers then AwaitingLinger else if wins then AwaitingStop else s.phase,
       stop := if starts then Pending else s.stop, stopsStarted := if starts then s.stopsStarted + 1 else s.stopsStarted)
  }

  function OnLingerStopped(s: State): State {
    s.(phase := if s.phase.AwaitingLinger? && !s.stop.Pending? then AwaitingStop else s.phase)
  }

  function DecidedStatus(s: State): CommandStatus {
    if !s.confirmed then s.status
    else if s.cancelled then CommandCancelled
    else if s.expired then CommandTimeout
    else if s.exitCode.Some? && !s.lingering && s.error.None? then CommandCompleted
    else s.status
  }

  function DecidedError(s: State): Option<ErrorText> {
    if !s.confirmed then Some(TerminationUnconfirmed)
    else if s.cancelled then Some(GraderCancelled)
    else if s.expired then s.error
    else if s.exitCode.None? then Some(NoExitCode)
    else if s.lingering then Some(DescendantsRunning)
    else s.error
  }

  /** The verdict on the process, once its termination is settled one way or the other. */
  function Decide(s: State): State {
    s.(phase := Finalizing, status := DecidedStatus(s), error := DecidedError(s))
  }

  function OnStopAwaited(s: State): State {
    if !s.phase.AwaitingStop? || s.stop.Pending? then s
    else if StopOk(s) then s.(phase := AwaitingClose, confirmed := true)
    else Decide(s.(confirmed := false))
  }

  function OnClosed(s: State, ok: bool): State {
    if s.phase.AwaitingClose? then Decide(s.(confirmed := ok)) else s
  }

  function OnCatchAwaited(s: State): State {
    if !s.phase.Catching? || s.stop.Pending? then s
    else s.(phase := Finalizing, confirmed := StopOk(s), error := Some(LifecycleIncomplete))
  }

  /** The return path: cancellation wins, and any error makes the status an error. */
  function Finish(s: State): State {
    s.(phase := Done,
       status := if s.cancelled then CommandCancelled else if s.error.Some? then CommandError else s.status,
       error := if !s.cancelled then s.error else if s.confirmed then Some(GraderCancelled) else Some(CancelledUnconfirmed))
  }

  /** The finally block; `&&=` does not wait for a stop when termination is already unconfirmed. */
  function OnFinallyAwaited(s: State): State {
    if !s.phase.Finalizing? || (s.confirmed && s.stop.Pending?) then s
    else if s.root && s.confirmed && StopOk(s) then s.(phase := Removing)
    else Finish(s.(confirmed := s.confirmed && StopOk(s)))
  }

  function OnRootRemoved(s: State, ok: bool): State {
    if !s.phase.Removing? then s
    else Finish(s.(removed := ok, error := if ok then s.error else Some(DirectoryNotRemoved)))
  }

  function OnStopSettles(s: State, ok: bool): State {
    s.(stop := if s.stop.Pending? then Settled(ok) else s.stop)
  }

  function OnStreamFails(s: State): State {
    s.(error := if s.phase.Preparing? || s.phase.Done? then s.error else Some(OutputUnreadable))
  }

  /** One step; an event that cannot happen in a phase leaves the state alone. */
  function Next(s: State, e: Event): State {
    match e
    case Abort => OnAbort(s)
    case Deadline => OnDeadline(s)
    case StopSettles(ok) => OnStopSettles(s, ok)
    case StreamFails => OnStreamFails(s)
    case PrepareFails(rootMade) => OnPrepareFails(s, rootMade)
    case Prepared(spawn) => OnPrepared(s, spawn)
    case Exits(code, groupAlive) => OnRaceWon(s, code, groupAlive)
    case Unconfirmed(groupAlive) => if s.stop == Settled(false) then OnRaceWon(s, None, groupAlive) else s
    case LingerStopped => OnLingerStopped(s)
    case StopAwaited => OnStopAwaited(s)
    case ClosedInTime(ok) => OnClosed(s, ok)
    case CatchAwaited => OnCatchAwaited(s)
    case FinallyAwaited => OnFinallyAwaited(s)
    case RootRemoved(ok) => OnRootRemoved(s, ok)
  }

  function Run(s: State, events: seq<Event>): State {
    if events == [] then s else Next(Run(s, events[..|events| - 1]), events[|events| - 1])
  }

  // ---------------------------------------------------------------- what every step keeps

  /** One stop at most, and only for a reason. */
  predicate StopSound(s: State) {
    && s.stopsStarted == (if s.stop.NotStarted? then 0 else 1)
    && (!s.stop.NotStarted? ==> s.hasPid && (s.cancelled || s.expired || s.lingering || s.caught))
    && (s.error.Some? ==> !s.error.value.Other?)
  }

  /** A stop that has not succeeded contradicts `confirmed`, unless a late cancellation started it. */
  predicate ConfirmationHonest(s: State) {
    s.confirmed && !s.stop.NotStarted? && s.stop != Settled(true) ==> s.cancelled
  }

  /** What `Decide`, the catch block or a cancelled start has settled. */
  predicate Justified(s: State) {
    && (s.status.CommandCompleted? ==> s.exitCode.Some? && !s.expired && !s.lingering && !s.caught)
    && (s.status.CommandTimeout? ==> s.expired)
    && (s.status.CommandCancelled? ==> s.cancelled)
    && (!s.confirmed ==> s.error.Some? || s.cancelled)
    && (!s.cancelled && s.error.None? ==> s.status.CommandCompleted? || s.status.CommandTimeout?)
  }

  predicate PhaseSound(s: State) {
    match s.phase
    case Preparing => !s.hasPid && !s.expired && !s.lingering && !s.caught && s.status.CommandError? && s.confirmed && !s.removed
    case Racing => !s.lingering && !s.caught && s.status.CommandError? && !s.removed
    case AwaitingLinger => !s.caught && s.status.CommandError? && !s.removed
    case AwaitingStop => !s.caught && s.status.CommandError? && !s.removed
    case AwaitingClose => !s.caught && s.status.CommandError? && s.confirmed && ConfirmationHonest(s) && !s.removed
    case Catching => s.caught && s.status.CommandError? && !s.removed
    case Finalizing => ConfirmationHonest(s) && Justified(s) && !s.removed
    case Removing => s.confirmed && (s.stop.NotStarted? || s.stop == Settled(true)) && Justified(s) && !s.removed
    case Done =>
      && (s.confirmed ==> s.stop.NotStarted? || s.stop == Settled(true))
      && Justified(s)
      && (s.removed ==> s.confirmed)
      && (s.status.CommandCancelled? <==> s.cancelled)
      && (s.error.Some? <==> s.status.CommandError? || s.status.CommandCancelled?)
  }

  predicate Inv(s: State) { StopSound(s) && PhaseSound(s) }

  lemma DecideSound(s: State)
    requires StopSound(s) && s.status.CommandError? && !s.caught && !s.removed && ConfirmationHonest(s)
    ensures Inv(Decide(s))
  {}

  lemma FinishSound(s: State)
    requires StopSound(s) && Justified(s) && (s.removed ==> s.confirmed)
    requires s.confirmed ==> s.stop.NotStarted? || s.stop == Settled(true)
    ensures Inv(Finish(s))
  {}

  lemma AbortSound(s: State)
    requires Inv(s)
    ensures Inv(OnAbort(s))
  {}

  lemma PreparedSound(s: State, spawn: Spawn)
    requires Inv(s)
    ensures Inv(OnPrepared(s, spawn))
  {}

  lemma RaceWonSound(s: State, code: Option<int>, groupAlive: bool)
    requires Inv(s)
    ensures Inv(OnRaceWon(s, code, groupAlive))
  {}

  lemma StopAwaitedSound(s: State)
    requires Inv(s)
    ensures Inv(OnStopAwaited(s))
  {
    if s.phase.AwaitingStop? { DecideSound(s.(confirmed := false)); }
  }

  lemma FinallySound(s: State)
    requires Inv(s)
    ensures Inv(OnFinallyAwaited(s))
  {
    if s.phase.Finalizing? && !(s.confirmed && s.stop.Pending?) { FinishSound(s.(confirmed := s.confirmed && StopOk(s))); }
  }

  lemma RemovedSound(s: State, ok: bool)
    requires Inv(s)
    ensures Inv(OnRootRemoved(s, ok))
  {
    if s.phase.Removing? { FinishSound(s.(removed := ok, error := if ok then s.error else Some(DirectoryNotRemoved))); }
  }

  lemma StepSound(s: State, e: Event)
    requires Inv(s)
    ensures Inv(Next(s, e))
  {
    match e
    case Abort => AbortSound(s);
    case Deadline =>
    case StopSettles(_) =>
    case StreamFails =>
    case PrepareFails(_) =>
    case Prepared(spawn) => PreparedSound(s, spawn);
    case Exits(code, groupAlive) => RaceWonSound(s, code, groupAlive);
    case Unconfirmed(groupAlive) => RaceWonSound(s, None, groupAlive);
    case LingerStopped =>
    case StopAwaited => StopAwaitedSound(s);
    case ClosedInTime(ok) => if s.phase.AwaitingClose? { DecideSound(s.(confirmed := ok)); }
    case CatchAwaited =>
    case FinallyAwaited => FinallySound(s);
    case RootRemoved(ok) => RemovedSound(s, ok);
  }

  lemma {:induction false} RunSound(startup: Startup, events: seq<Event>)
    ensures Inv(Run(Init(startup), events))
  {
    if events != [] {
      RunSound(startup, events[..|events| - 1]);
      StepSound(Run(Init(startup), events[..|events| - 1]), events[|events| - 1]);
    }
  }

  // ---------------------------------------------------------------- bounded output

  const OUTPUT_LIMIT := 16384

  function FirstCharacters(text: string): string {
    if |text| <= OUTPUT_LIMIT then text else text[..OUTPUT_LIMIT]
  }

  /** One of `stdout` and `stderr`, filled by its data callback. */
  class OutputBuffer {
    var kept: string
    var truncated: bool
    ghost var seen: string

    ghost predicate Valid()
      reads this
    {
      kept == FirstCharacters(seen) && (truncated <==> |seen| > OUTPUT_LIMIT)
    }

    constructor ()
      ensures Valid() && seen == ""
    {
      kept, truncated, seen := "", false, "";
    }

    method Data(chunk: string)
      requires Valid()
      modifies this
      ensures Valid() && seen == old(seen) + chunk
      ensures kept == FirstCharacters(old(seen) + chunk)
      ensures truncated <==> |old(seen) + chunk| > OUTPUT_LIMIT
    {
      var available := OUTPUT_LIMIT - |kept|;
      if |chunk| > available { truncated := true; }
      if available > 0 {
        kept := kept + (if |chunk| <= available then chunk else chunk[..available]);
      }
      seen := seen + chunk;
      assert FirstCharacters(seen) == FirstCharacters(FirstCharacters(old(seen)) + chunk);
    }
  }

  // ---------------------------------------------------------------- what the caller gets

  datatype CommandGrade = CommandGrade(assertion: AssertionResult, terminationConfirmed: bool, error: Option<ErrorText>)

  function Graded(s: State, expectedExitCode: int, stdout: string, stderr: string, truncated: bool, durationMs: int): CommandGrade {
    CommandGrade(
      AssertionResult(CommandKind, s.status.CommandCompleted? && s.exitCode == Some(expectedExitCode), None,
        Some(CommandEvidence(s.status, s.exitCode, stdout, stderr, durationMs, s.confirmed, truncated))),
      s.confirmed, s.error)
  }

  /** The promise grading and the report rely on. */
  predicate CommandContract(g: CommandGrade, expectedExitCode: int) {
    && g.assertion.kind.CommandKind? && g.assertion.path.None? && g.assertion.command.Some?
    && var c := g.assertion.command.value;
    && c.terminationConfirmed == g.terminationConfirmed
    && (g.assertion.passed <==> c.status.CommandCompleted? && c.exitCode == Some(expectedExitCode))
    && (c.status.CommandCompleted? ==> c.exitCode.Some? && g.terminationConfirmed)
    && (g.error.Some? <==> c.status.CommandError? || c.status.CommandCancelled?)
    && (g.error.Some? ==> !EmptyText(g.error.value))
    && (!g.terminationConfirmed ==> g.error.Some?)
  }

  /**
   * Whatever the order of exit, deadline, abort and stop confirmation: a command is completed only
   * with an exit code and confirmed termination, and with no expiry, cancellation, lingering group,
   * exception or error; at most one group stop was started; the directory was removed only after
   * confirmed termination; and what the caller receives keeps the command contract.
   */
  lemma CommandLifecycle(startup: Startup, events: seq<Event>, expectedExitCode: int, stdout: string, stderr: string, truncated: bool, durationMs: int)
    requires Run(Init(startup), events).phase.Done?
    ensures CommandContract(Graded(Run(Init(startup), events), expectedExitCode, stdout, stderr, truncated, durationMs), expectedExitCode)
    ensures
      var s := Run(Init(startup), events);
      && s.stopsStarted <= 1
      && (s.status.CommandCompleted? ==>
            s.exitCode.Some? && s.confirmed && !s.expired && !s.cancelled && !s.lingering && !s.caught && s.error.None? && s.stopsStarted == 0)
      && (s.removed ==> s.confirmed && (s.stop.NotStarted? || s.stop == Settled(true)))
      && (s.status.CommandCompleted? <==> !s.cancelled && !s.expired && s.error.None?)
      && (s.status.CommandCancelled? <==> s.cancelled)
      && (s.status.CommandTimeout? <==> s.expired && !s.cancelled && s.error.None?)
      && (s.status.CommandTimeout? ==> s.confirmed)
  {
    RunSound(startup, events);
  }
}
