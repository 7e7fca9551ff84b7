/** What a command's evidence says about the events that happened to it (src/benchmark/command-grader.ts). */
module CommandHistory {
  import opened BenchTypes
  import opened CommandGrader

  /** What was observed, gathered from the events and the phase each of them was delivered in. */
  datatype Facts = Facts(
    pid: bool,
    decided: bool,      // the race is over, with this code and with descendants left or not
    code: Option<int>,
    alive: bool,
    aborted: bool,
    deadline: bool,
    broken: bool,       // a stream failed
    threw: bool,        // preparing or spawning threw
    closedLate: bool,
    unstopped: bool,    // a stop of the group was not confirmed
    notRemoved: bool)

  function Start(startup: Startup): Facts { Facts(false, false, None, false, startup.AbortedAtStart?, false, false, false, false, false, false) }

  /** The first event to end the race says how. */
  function NoteRace(f: Facts, s: State, code: Option<int>, alive: bool): Facts {
    var first := s.phase.Racing? && !f.decided;
    f.(decided := f.decided || first, code := if first then code else f.code, alive := if first then alive else f.alive)
  }

  function NoteSpawn(f: Facts, s: State, spawn: Spawn): Facts {
    var spawns := s.phase.Preparing? && !s.cancelled;
    f.(pid := if spawns then !spawn.SpawnThrows? && spawn.pid else f.pid, threw := f.threw || (spawns && !spawn.Spawned?))
  }

  function Note(f: Facts, s: State, e: Event): Facts {
    match e
    case Abort => f.(aborted := f.aborted || Listening(s.phase))
    case Deadline => f.(deadline := f.deadline || s.phase.Racing?)
    case StopSettles(ok) => f.(unstopped := f.unstopped || (s.stop.Pending? && !ok))
    case StreamFails => f.(broken := f.broken || (!s.phase.Preparing? && !s.phase.Done?))
    case PrepareFails(_) => f.(threw := f.threw || s.phase.Preparing?)
    case Prepared(spawn) => NoteSpawn(f, s, spawn)
    case Exits(code, alive) => NoteRace(f, s, code, alive)
    case Unconfirmed(alive) => if s.stop == Settled(false) then NoteRace(f, s, None, alive) else f
    case LingerStopped => f
    case StopAwaited => f
    case ClosedInTime(ok) => f.(closedLate := f.closedLate || (!ok && s.phase.AwaitingClose?))
    case CatchAwaited => f
    case FinallyAwaited => f
    case RootRemoved(ok) => f.(notRemoved := f.notRemoved || (!ok && s.phase.Removing?))
  }

  function FactsOf(startup: Startup, events: seq<Event>): Facts {
    if events == [] then Start(startup)
    else
      var init := events[..|events| - 1];
      Note(FactsOf(startup, init), Run(Init(startup), init), events[|events| - 1])
  }

  predicate Lingered(f: Facts) { f.pid && f.decided && f.alive }

  predicate Settling(p: Phase) { p.Finalizing? || p.Removing? || p.Done? }

  /** The flags are what was observed, and the exit code is the one the race ended with. */
  ghost predicate Remembers(s: State, f: Facts) {
    && s.hasPid == f.pid && s.cancelled == f.aborted && s.expired == f.deadline && s.caught == f.threw
    && s.exitCode == f.code && s.lingering == Lingered(f)
    && (s.phase.Preparing? || s.phase.Racing? ==> !f.decided)
    && (!f.decided ==> f.code.None?)
    && (f.unstopped <==> s.stop == Settled(false))
  }

  /** The awaits of the function itself, as opposed to what its listeners hear. */
  predicate Awaited(e: Event) {
    e.LingerStopped? || e.StopAwaited? || e.ClosedInTime? || e.CatchAwaited? || e.FinallyAwaited? || e.RootRemoved?
  }

  lemma StepRemembers(s: State, e: Event, f: Facts)
    requires Inv(s) && Remembers(s, f)
    ensures Remembers(Next(s, e), Note(f, s, e))
  {
    if Awaited(e) { AwaitedRemembers(s, e, f); } else { SignalRemembers(s, e, f); }
  }

  lemma SignalRemembers(s: State, e: Event, f: Facts)
    requires Inv(s) && Remembers(s, f) && !Awaited(e)
    ensures Remembers(Next(s, e), Note(f, s, e))
  {
    match e
    case Abort => AbortRemembers(s, f);
    case Deadline => DeadlineRemembers(s, f);
    case StopSettles(ok) => SettlesRemembers(s, f, ok);
    case StreamFails => StreamRemembers(s, f);
    case PrepareFails(rootMade) => PrepareFailsRemembers(s, f, rootMade);
    case Prepared(spawn) => PreparedRemembers(s, f, spawn);
    case Exits(code, alive) => RaceRemembers(s, f, code, alive);
    case Unconfirmed(alive) => RaceRemembers(s, f, None, alive);
    case _ =>
  }

  lemma AwaitedRemembers(s: State, e: Event, f: Facts)
    requires Inv(s) && Remembers(s, f) && Awaited(e)
    ensures Remembers(Next(s, e), Note(f, s, e))
  {
    match e
    case LingerStopped => LingerRemembers(s, f);
    case StopAwaited => StopAwaitedRemembers(s, f);
    case ClosedInTime(ok) => ClosedRemembers(s, f, ok);
    case CatchAwaited => CatchRemembers(s, f);
    case FinallyAwaited => FinallyRemembers(s, f);
    case RootRemoved(ok) => RemovedRemembers(s, f, ok);
    case _ =>
  }

  lemma AbortRemembers(s: State, f: Facts)
    requires Remembers(s, f)
    ensures Remembers(OnAbort(s), Note(f, s, Abort))
  {}

  lemma DeadlineRemembers(s: State, f: Facts)
    requires Remembers(s, f)
    ensures Remembers(OnDeadline(s), Note(f, s, Deadline))
  {}

  lemma PrepareFailsRemembers(s: State, f: Facts, rootMade: bool)
    requires Remembers(s, f)
    ensures Remembers(OnPrepareFails(s, rootMade), Note(f, s, PrepareFails(rootMade)))
  {}

  lemma PreparedRemembers(s: State, f: Facts, spawn: Spawn)
    requires Inv(s) && Remembers(s, f)
    ensures Remembers(OnPrepared(s, spawn), NoteSpawn(f, s, spawn))
  {}

  lemma RaceRemembers(s: State, f: Facts, code: Option<int>, alive: bool)
    requires Inv(s) && Remembers(s, f)
    ensures Remembers(OnRaceWon(s, code, alive), NoteRace(f, s, code, alive))
  {}

  lemma SettlesRemembers(s: State, f: Facts, ok: bool)
    requires Remembers(s, f)
    ensures Remembers(OnStopSettles(s, ok), Note(f, s, StopSettles(ok)))
  {}

  lemma StreamRemembers(s: State, f: Facts)
    requires Remembers(s, f)
    ensures Remembers(OnStreamFails(s), Note(f, s, StreamFails))
  {}

  lemma LingerRemembers(s: State, f: Facts)
    requires Remembers(s, f)
    ensures Remembers(OnLingerStopped(s), f)
  {}

  lemma StopAwaitedRemembers(s: State, f: Facts)
    requires Remembers(s, f)
    ensures Remembers(OnStopAwaited(s), f)
  {}

  lemma CatchRemembers(s: State, f: Facts)
    requires Remembers(s, f)
    ensures Remembers(OnCatchAwaited(s), f)
  {}

  lemma ClosedRemembers(s: State, f: Facts, ok: bool)
    requires Remembers(s, f)
    ensures Remembers(OnClosed(s, ok), Note(f, s, ClosedInTime(ok)))
  {}

  lemma FinallyRemembers(s: State, f: Facts)
    requires Remembers(s, f)
    ensures Remembers(OnFinallyAwaited(s), f)
  {}

  lemma RemovedRemembers(s: State, f: Facts, ok: bool)
    requires Remembers(s, f)
    ensures Remembers(OnRootRemoved(s, ok), Note(f, s, RootRemoved(ok)))
  {}

  // ---------------------------------------------------------------- errors have causes

  /** Something the evidence must report as an error, even after the deadline. */
  predicate Failed(f: Facts) { f.broken || f.threw || f.closedLate || f.unstopped || f.notRemoved }

  /** Something that keeps a command from being completed in order. */
  predicate Trouble(f: Facts) { Failed(f) || f.code.None? || Lingered(f) }

  /** The command ended by itself and in order, with the code that was asked for. */
  predicate Passes(f: Facts, expectedExitCode: int) {
    !Trouble(f) && !f.aborted && !f.deadline && f.code == Some(expectedExitCode)
  }

  ghost predicate ErrorSound(s: State, f: Facts) {
    && (f.broken || f.notRemoved ==> s.error.Some?)
    && (f.closedLate ==> !s.confirmed && Settling(s.phase))
    && (s.error.Some? && !Settling(s.phase) ==> f.broken)
    && (s.error.Some? && Settling(s.phase) ==> s.cancelled || Failed(f) || (Trouble(f) && !s.expired))
    && (Settling(s.phase) && (f.threw || f.closedLate) ==> s.error.Some?)
  }

  lemma DecideErrors(s: State, f: Facts)
    requires StopSound(s) && Remembers(s, f) && (f.broken ==> s.error.Some?) && (s.error.Some? ==> f.broken) && !f.notRemoved
    requires (s.confirmed <==> !f.closedLate && StopOk(s)) && !s.caught && !s.stop.Pending?
    ensures ErrorSound(Decide(s), f)
  {}

  lemma StopAwaitedErrors(s: State, f: Facts)
    requires Inv(s) && Remembers(s, f) && ErrorSound(s, f) && (s.phase.AwaitingStop? ==> !f.notRemoved)
    ensures ErrorSound(OnStopAwaited(s), f)
  {
    if s.phase.AwaitingStop? && !s.stop.Pending? && !StopOk(s) { DecideErrors(s.(confirmed := false), f); }
  }

  /** A close that came in time with a stop still open or failed was cancelled meanwhile. */
  lemma ClosedErrors(s: State, f: Facts, ok: bool)
    requires Inv(s) && Remembers(s, f) && ErrorSound(s, f) && !f.notRemoved
    ensures ErrorSound(OnClosed(s, ok), Note(f, s, ClosedInTime(ok)))
  {}

  lemma FinishErrors(s: State, f: Facts)
    requires ErrorSound(s, f) && Settling(s.phase) && Remembers(s, f)
    ensures ErrorSound(Finish(s), f)
  {}

  lemma FinallyErrors(s: State, f: Facts)
    requires Inv(s) && Remembers(s, f) && ErrorSound(s, f)
    ensures ErrorSound(OnFinallyAwaited(s), f)
  {
    if s.phase.Finalizing? && !(s.confirmed && s.stop.Pending?) { FinishErrors(s.(confirmed := s.confirmed && StopOk(s)), f); }
  }

  lemma RemovedErrors(s: State, f: Facts, ok: bool)
    requires Inv(s) && Remembers(s, f) && ErrorSound(s, f)
    ensures ErrorSound(OnRootRemoved(s, ok), Note(f, s, RootRemoved(ok)))
  {
    if s.phase.Removing? {
      var g := Note(f, s, RootRemoved(ok));
      FinishErrors(s.(removed := ok, error := if ok then s.error else Some(DirectoryNotRemoved)), g);
    }
  }

  lemma PreparedErrors(s: State, f: Facts, spawn: Spawn)
    requires Inv(s) && Remembers(s, f) && ErrorSound(s, f)
    ensures ErrorSound(OnPrepared(s, spawn), NoteSpawn(f, s, spawn))
  {}

  lemma RaceErrors(s: State, f: Facts, code: Option<int>, alive: bool)
    requires Inv(s) && Remembers(s, f) && ErrorSound(s, f)
    ensures ErrorSound(OnRaceWon(s, code, alive), NoteRace(f, s, code, alive))
  {}

  lemma CatchErrors(s: State, f: Facts)
    requires Inv(s) && Remembers(s, f) && ErrorSound(s, f)
    ensures ErrorSound(OnCatchAwaited(s), f)
  {}

  lemma AbortErrors(s: State, f: Facts)
    requires ErrorSound(s, f)
    ensures ErrorSound(OnAbort(s), Note(f, s, Abort))
  {
    assert OnAbort(s).error == s.error && OnAbort(s).phase == s.phase && OnAbort(s).confirmed == s.confirmed;
  }

  lemma DeadlineErrors(s: State, f: Facts)
    requires ErrorSound(s, f)
    ensures ErrorSound(OnDeadline(s), Note(f, s, Deadline))
  {
    assert OnDeadline(s).error == s.error && OnDeadline(s).phase == s.phase && OnDeadline(s).confirmed == s.confirmed;
  }

  lemma SettlesErrors(s: State, f: Facts, ok: bool)
    requires ErrorSound(s, f)
    ensures ErrorSound(OnStopSettles(s, ok), Note(f, s, StopSettles(ok)))
  {}

  lemma LingerErrors(s: State, f: Facts)
    requires ErrorSound(s, f)
    ensures ErrorSound(OnLingerStopped(s), f)
  {}

  lemma StreamErrors(s: State, f: Facts)
    requires ErrorSound(s, f)
    ensures ErrorSound(OnStreamFails(s), Note(f, s, StreamFails))
  {}

  lemma PrepareFailsErrors(s: State, f: Facts, rootMade: bool)
    requires ErrorSound(s, f)
    ensures ErrorSound(OnPrepareFails(s, rootMade), Note(f, s, PrepareFails(rootMade)))
  {}

  lemma StepErrors(s: State, e: Event, f: Facts)
    requires Inv(s) && Remembers(s, f) && ErrorSound(s, f) && (f.notRemoved ==> s.phase.Done?)
    ensures ErrorSound(Next(s, e), Note(f, s, e))
  {
    if Awaited(e) { AwaitedErrors(s, e, f); } else { SignalErrors(s, e, f); }
  }

  lemma SignalErrors(s: State, e: Event, f: Facts)
    requires Inv(s) && Remembers(s, f) && ErrorSound(s, f) && !Awaited(e)
    ensures ErrorSound(Next(s, e), Note(f, s, e))
  {
    match e
    case Abort => AbortErrors(s, f);
    case Deadline => DeadlineErrors(s, f);
    case StopSettles(ok) => SettlesErrors(s, f, ok);
    case StreamFails => StreamErrors(s, f);
    case PrepareFails(rootMade) => PrepareFailsErrors(s, f, rootMade);
    case Prepared(spawn) => PreparedErrors(s, f, spawn);
    case Exits(code, alive) => RaceErrors(s, f, code, alive);
    case Unconfirmed(alive) => RaceErrors(s, f, None, alive);
    case _ =>
  }

  lemma AwaitedErrors(s: State, e: Event, f: Facts)
    requires Inv(s) && Remembers(s, f) && ErrorSound(s, f) && (f.notRemoved ==> s.phase.Done?) && Awaited(e)
    ensures ErrorSound(Next(s, e), Note(f, s, e))
  {
    match e
    case LingerStopped => LingerErrors(s, f);
    case StopAwaited => StopAwaitedErrors(s, f);
    case ClosedInTime(ok) => if s.phase.AwaitingClose? { ClosedErrors(s, f, ok); }
    case CatchAwaited => CatchErrors(s, f);
    case FinallyAwaited => FinallyErrors(s, f);
    case RootRemoved(ok) => RemovedErrors(s, f, ok);
    case _ =>
  }

  /** After the return the evidence does not change any more. */
  lemma DoneIsFinal(s: State, e: Event)
    requires s.phase.Done?
    ensures Next(s, e).phase.Done? && Next(s, e).status == s.status && Next(s, e).error == s.error && Next(s, e).exitCode == s.exitCode
  {
    match e
    case Abort =>
    case Deadline =>
    case StopSettles(_) =>
    case StreamFails =>
    case PrepareFails(_) =>
    case Prepared(_) =>
    case Exits(_, _) =>
    case Unconfirmed(_) =>
    case LingerStopped =>
    case StopAwaited =>
    case ClosedInTime(_) =>
    case CatchAwaited =>
    case FinallyAwaited =>
    case RootRemoved(_) =>
  }

  lemma RemovedIsDone(s: State, e: Event, f: Facts)
    requires f.notRemoved ==> s.phase.Done?
    ensures Note(f, s, e).notRemoved ==> Next(s, e).phase.Done?
  {
    if s.phase.Done? { DoneIsFinal(s, e); }
  }

  lemma {:induction false} RunRemembers(startup: Startup, events: seq<Event>)
    ensures Remembers(Run(Init(startup), events), FactsOf(startup, events))
    ensures FactsOf(startup, events).notRemoved ==> Run(Init(startup), events).phase.Done?
  {
    if events != [] {
      var init, e := events[..|events| - 1], events[|events| - 1];
      RunRemembers(startup, init);
      RunSound(startup, init);
      StepRemembers(Run(Init(startup), init), e, FactsOf(startup, init));
      RemovedIsDone(Run(Init(startup), init), e, FactsOf(startup, init));
    } else {
      StartRemembers(startup);
    }
  }

  lemma {:induction false} RunErrors(startup: Startup, events: seq<Event>)
    requires startup.Go?
    ensures ErrorSound(Run(Init(startup), events), FactsOf(startup, events))
  {
    if events != [] {
      var init, e := events[..|events| - 1], events[|events| - 1];
      RunErrors(startup, init);
      RunRemembers(startup, init);
      RunSound(startup, init);
      StepErrors(Run(Init(startup), init), e, FactsOf(startup, init));
    } else {
      StartRemembers(startup);
    }
  }

  lemma StartRemembers(startup: Startup)
    ensures Remembers(Init(startup), Start(startup)) && (startup.Go? ==> ErrorSound(Init(startup), Start(startup)))
  {}

  /** What the status of a finished command says of the events. */
  lemma StatusMeans(s: State, f: Facts)
    requires Inv(s) && s.phase.Done? && Remembers(s, f) && ErrorSound(s, f)
    ensures s.status.CommandCompleted? <==> !Trouble(f) && !f.aborted && !f.deadline
    ensures s.status.CommandTimeout? <==> f.deadline && !f.aborted && !Failed(f)
  {
    assert Failed(f) ==> s.cancelled || s.error.Some?;
  }

  /**
   * What the evidence means, in terms of what happened: the exit code is the one the first exit of the race brought, none if
   * an unconfirmed stop won; a command that was allowed to start completed exactly when it exited with a code, alone, before
   * its deadline and any abort, with its streams read and closed and its directory removed; it timed out exactly when its
   * deadline came and nothing else failed; and it passes exactly when it completed with the expected code.
   */
  lemma EvidenceMeans(startup: Startup, events: seq<Event>, expectedExitCode: int, stdout: string, stderr: string, truncated: bool, durationMs: int)
    requires Run(Init(startup), events).phase.Done?
    ensures
      var s, f := Run(Init(startup), events), FactsOf(startup, events);
      var g := Graded(s, expectedExitCode, stdout, stderr, truncated, durationMs);
      var c := g.assertion.command;
      && c.Some? && c.value.exitCode == f.code && c.value.stdout == stdout && c.value.stderr == stderr
      && c.value.truncated == truncated && c.value.durationMs == durationMs
      && (startup.Go? ==> (c.value.status.CommandCompleted? <==> !Trouble(f) && !f.aborted && !f.deadline))
      && (startup.Go? ==> (c.value.status.CommandTimeout? <==> f.deadline && !f.aborted && !Failed(f)))
      && (startup.Go? ==> (g.assertion.passed <==> Passes(f, expectedExitCode)))
      && (c.value.status.CommandCancelled? <==> f.aborted)
      && (!startup.Go? ==> !g.assertion.passed)
  {
    RunRemembers(startup, events);
    RunSound(startup, events);
    if startup.Go? {
      RunErrors(startup, events);
      StatusMeans(Run(Init(startup), events), FactsOf(startup, events));
    }
    CommandLifecycle(startup, events, expectedExitCode, stdout, stderr, truncated, durationMs);
    if !startup.Go? { NeverStarts(startup, events); }
  }

  lemma {:induction false} NeverStarts(startup: Startup, events: seq<Event>)
    requires !startup.Go?
    ensures Run(Init(startup), events).phase.Done? && !Run(Init(startup), events).status.CommandCompleted?
  {
    if events != [] {
      NeverStarts(startup, events[..|events| - 1]);
      DoneIsFinal(Run(Init(startup), events[..|events| - 1]), events[|events| - 1]);
    } else {
      assert Run(Init(startup), events) == Init(startup);
    }
  }
}
