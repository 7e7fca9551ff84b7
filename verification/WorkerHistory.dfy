/** What a worker's result says about the events that happened to it (src/benchmark/process.ts). */
module WorkerHistory {
  import opened BenchTypes
  import opened WorkerProcess

  /** What was observed, gathered from the events and the phase each of them was delivered in. */
  datatype Facts = Facts(
    pid: bool,
    decided: bool,   // the race is over, with a clean exit or not
    clean: bool,
    alive: bool,     // the group outlived the worker
    aborted: bool,
    deadline: bool,
    threw: bool,
    notRemoved: bool)

  function Start(startup: Startup): Facts { Facts(false, false, false, false, startup.AbortedAtStart?, false, false, false) }

  /** The first event to end the race says how. */
  function NoteRace(f: Facts, s: State, clean: bool): Facts {
    var first := s.phase.Racing? && !f.decided;
    f.(decided := f.decided || first, clean := if first then clean else f.clean)
  }

  function NoteSpawn(f: Facts, s: State, spawn: Spawn): Facts {
    var spawns := s.phase.Preparing? && !s.cancelled;
    f.(pid := if spawns then !spawn.SpawnThrows? && spawn.pid else f.pid, threw := f.threw || (spawns && !spawn.Spawned?))
  }

  function Note(f: Facts, s: State, e: Event): Facts {
    match e
    case Abort => f.(aborted := f.aborted || !s.phase.Done?)
    case Deadline => f.(deadline := f.deadline || s.phase.Racing?)
    case StopSettles(_) => f
    case PrepareFails(_) => f.(threw := f.threw || s.phase.Preparing?)
    case Prepared(spawn) => NoteSpawn(f, s, spawn)
    case Exits(clean) => NoteRace(f, s, clean)
    case Unconfirmed => if s.stop == Settled(false) then NoteRace(f, s, false) else f
    case GroupChecked(alive) => f.(alive := f.alive || (s.phase.AwaitingGroup? && alive))
    case LingerStopped => f
    case StopAwaited => f
    case ResultRead => f
    case CatchAwaited => f
    case ExitAwaited => f
    case FinallyAwaited => f
    case RootRemoved(ok) => f.(notRemoved := f.notRemoved || (!ok && s.phase.Removing?))
  }

  function FactsOf(startup: Startup, events: seq<Event>, accepted: bool): Facts {
    if events == [] then Start(startup)
    else
      var init := events[..|events| - 1];
      Note(FactsOf(startup, init, accepted), Run(Init(startup), init, accepted), events[|events| - 1])
  }

  predicate Lingered(f: Facts) { f.pid && f.alive }

  predicate Starting(p: Phase) { p.Preparing? || p.Racing? }

  /** The flags are what was observed. */
  ghost predicate Remembers(s: State, f: Facts) {
    && s.hasPid == f.pid && s.cancelled == f.aborted && s.expired == f.deadline && s.caught == f.threw
    && s.exitedCleanly == f.clean && s.lingering == Lingered(f)
    && (Starting(s.phase) ==> !f.decided) && (Starting(s.phase) || s.phase.AwaitingGroup? ==> !f.alive)
    && (!f.decided ==> !f.clean) && (f.decided ==> s.root) && (s.phase.Racing? ==> s.root)
  }

  predicate Settling(p: Phase) { p.Finalizing? || p.Removing? || p.Done? }

  /** Where an untroubled, uncancelled worker ends: confirmed, and its directory gone unless that failed. */
  ghost predicate Tidy(s: State, f: Facts) {
    && (Settling(s.phase) && Smooth(s) ==> s.confirmed)
    && (s.phase.Reading? && Smooth(s) ==> s.confirmed)
    && (s.phase.Done? && Smooth(s) ==> s.removed || f.notRemoved)
    && (f.notRemoved ==> s.phase.Done? && s.result.Failed? && !s.removed)
  }

  lemma AbortRemembers(s: State, f: Facts)
    requires Inv(s) && Remembers(s, f) && Tidy(s, f)
    ensures Remembers(OnAbort(s), Note(f, s, Abort)) && Tidy(OnAbort(s), Note(f, s, Abort))
  {}

  lemma DeadlineRemembers(s: State, f: Facts)
    requires Remembers(s, f) && Tidy(s, f)
    ensures Remembers(OnDeadline(s), Note(f, s, Deadline)) && Tidy(OnDeadline(s), Note(f, s, Deadline))
  {}

  lemma SettlesRemembers(s: State, f: Facts, ok: bool)
    requires Remembers(s, f) && Tidy(s, f)
    ensures Remembers(OnStopSettles(s, ok), f) && Tidy(OnStopSettles(s, ok), f)
  {}

  lemma PrepareFailsRemembers(s: State, f: Facts, rootMade: bool)
    requires Remembers(s, f) && Tidy(s, f)
    ensures Remembers(OnPrepareFails(s, rootMade), Note(f, s, PrepareFails(rootMade)))
    ensures Tidy(OnPrepareFails(s, rootMade), Note(f, s, PrepareFails(rootMade)))
  {}

  lemma PreparedRemembers(s: State, f: Facts, spawn: Spawn)
    requires Inv(s) && Remembers(s, f) && Tidy(s, f)
    ensures Remembers(OnPrepared(s, spawn), NoteSpawn(f, s, spawn)) && Tidy(OnPrepared(s, spawn), NoteSpawn(f, s, spawn))
  {}

  lemma RaceRemembers(s: State, f: Facts, clean: bool)
    requires Remembers(s, f) && Tidy(s, f)
    ensures Remembers(OnRaceWon(s, clean), NoteRace(f, s, clean)) && Tidy(OnRaceWon(s, clean), NoteRace(f, s, clean))
  {}

  lemma UnconfirmedRemembers(s: State, f: Facts, accepted: bool)
    requires Remembers(s, f) && Tidy(s, f)
    ensures Remembers(Next(s, Unconfirmed, accepted), Note(f, s, Unconfirmed)) && Tidy(Next(s, Unconfirmed, accepted), Note(f, s, Unconfirmed))
  {
    if s.stop == Settled(false) { RaceRemembers(s, f, false); }
  }

  lemma GroupRemembers(s: State, f: Facts, alive: bool)
    requires Inv(s) && Remembers(s, f) && Tidy(s, f)
    ensures Remembers(OnGroupChecked(s, alive), Note(f, s, GroupChecked(alive)))
    ensures Tidy(OnGroupChecked(s, alive), Note(f, s, GroupChecked(alive)))
  {}

  lemma LingerRemembers(s: State, f: Facts)
    requires Remembers(s, f) && Tidy(s, f)
    ensures Remembers(OnLingerStopped(s), f) && Tidy(OnLingerStopped(s), f)
  {}

  lemma StopAwaitedRemembers(s: State, f: Facts)
    requires Inv(s) && Remembers(s, f) && Tidy(s, f)
    ensures Remembers(OnStopAwaited(s), f) && Tidy(OnStopAwaited(s), f)
  {}

  lemma ReadRemembers(s: State, f: Facts, accepted: bool)
    requires Remembers(s, f) && Tidy(s, f)
    ensures Remembers(OnResultRead(s, accepted), f) && Tidy(OnResultRead(s, accepted), f)
  {}

  lemma CatchRemembers(s: State, f: Facts)
    requires Inv(s) && Remembers(s, f) && Tidy(s, f) && (s.phase.Catching? ==> s.caught)
    ensures Remembers(OnCatchAwaited(s), f) && Tidy(OnCatchAwaited(s), f)
  {}

  lemma ExitRemembers(s: State, f: Facts)
    requires Remembers(s, f) && Tidy(s, f) && (s.phase.AwaitingExit? ==> s.caught)
    ensures Remembers(OnExitAwaited(s), f) && Tidy(OnExitAwaited(s), f)
  {}

  lemma FinallyRemembers(s: State, f: Facts)
    requires Inv(s) && Remembers(s, f) && Tidy(s, f)
    ensures Remembers(OnFinallyAwaited(s), f) && Tidy(OnFinallyAwaited(s), f)
  {}

  lemma RemovedRemembers(s: State, f: Facts, ok: bool)
    requires Remembers(s, f) && Tidy(s, f)
    ensures Remembers(OnRootRemoved(s, ok), Note(f, s, RootRemoved(ok))) && Tidy(OnRootRemoved(s, ok), Note(f, s, RootRemoved(ok)))
  {
    var t, g := OnRootRemoved(s, ok), Note(f, s, RootRemoved(ok));
    if s.phase.Removing? {
      assert Smooth(t) ==> Smooth(s);
      assert g.notRemoved <==> !ok;
    } else {
      assert t == s && g == f;
    }
  }

  lemma StepRemembers(s: State, e: Event, f: Facts, accepted: bool)
    requires Inv(s) && KeepsResult(s, accepted) && Remembers(s, f) && Tidy(s, f)
    ensures Remembers(Next(s, e, accepted), Note(f, s, e)) && Tidy(Next(s, e, accepted), Note(f, s, e))
  {
    if Awaited(e) {
      AwaitedRemembers(s, e, f, accepted);
    } else if e.Prepared? || e.PrepareFails? || e.GroupChecked? {
      StagesRemember(s, e, f, accepted);
    } else {
      SignalRemembers(s, e, f, accepted);
    }
  }

  /** The awaits of the function itself, as opposed to what its listeners hear. */
  predicate Awaited(e: Event) {
    e.LingerStopped? || e.StopAwaited? || e.ResultRead? || e.CatchAwaited? || e.ExitAwaited? || e.FinallyAwaited? || e.RootRemoved?
  }

  lemma SignalRemembers(s: State, e: Event, f: Facts, accepted: bool)
    requires Inv(s) && Remembers(s, f) && Tidy(s, f) && !Awaited(e) && !(e.Prepared? || e.PrepareFails? || e.GroupChecked?)
    ensures Remembers(Next(s, e, accepted), Note(f, s, e)) && Tidy(Next(s, e, accepted), Note(f, s, e))
  {
    match e
    case Abort => AbortRemembers(s, f);
    case Deadline => DeadlineRemembers(s, f);
    case StopSettles(ok) => SettlesRemembers(s, f, ok);
    case Exits(clean) => RaceRemembers(s, f, clean);
    case Unconfirmed => UnconfirmedRemembers(s, f, accepted);
    case _ =>
  }

  lemma StagesRemember(s: State, e: Event, f: Facts, accepted: bool)
    requires Inv(s) && Remembers(s, f) && Tidy(s, f) && (e.Prepared? || e.PrepareFails? || e.GroupChecked?)
    ensures Remembers(Next(s, e, accepted), Note(f, s, e)) && Tidy(Next(s, e, accepted), Note(f, s, e))
  {
    match e
    case PrepareFails(rootMade) => PrepareFailsRemembers(s, f, rootMade);
    case Prepared(spawn) => PreparedRemembers(s, f, spawn);
    case GroupChecked(alive) => GroupRemembers(s, f, alive);
    case _ =>
  }

  lemma AwaitedRemembers(s: State, e: Event, f: Facts, accepted: bool)
    requires Inv(s) && KeepsResult(s, accepted) && Remembers(s, f) && Tidy(s, f) && Awaited(e)
    ensures Remembers(Next(s, e, accepted), Note(f, s, e)) && Tidy(Next(s, e, accepted), Note(f, s, e))
  {
    match e
    case LingerStopped => LingerRemembers(s, f);
    case StopAwaited => StopAwaitedRemembers(s, f);
    case ResultRead => ReadRemembers(s, f, accepted);
    case CatchAwaited => CatchRemembers(s, f);
    case ExitAwaited => ExitRemembers(s, f);
    case FinallyAwaited => FinallyRemembers(s, f);
    case RootRemoved(ok) => RemovedRemembers(s, f, ok);
    case _ =>
  }

  lemma StartRemembers(startup: Startup)
    ensures Remembers(Init(startup), Start(startup)) && Tidy(Init(startup), Start(startup))
  {}

  lemma {:induction false} RunRemembers(startup: Startup, events: seq<Event>, accepted: bool)
    ensures Remembers(Run(Init(startup), events, accepted), FactsOf(startup, events, accepted))
    ensures Tidy(Run(Init(startup), events, accepted), FactsOf(startup, events, accepted))
  {
    if events != [] {
      var init, e := events[..|events| - 1], events[|events| - 1];
      RunRemembers(startup, init, accepted);
      RunSound(startup, init, accepted);
      RunKeeps(startup, init, accepted);
      StepRemembers(Run(Init(startup), init, accepted), e, FactsOf(startup, init, accepted), accepted);
    } else {
      StartRemembers(startup);
    }
  }

  /** A worker that may not even start is refused at once. */
  lemma {:induction false} NeverStarts(startup: Startup, events: seq<Event>, accepted: bool)
    requires !startup.Go?
    ensures Run(Init(startup), events, accepted).phase.Done?
    ensures Run(Init(startup), events, accepted).result == Init(startup).result
  {
    if events != [] {
      NeverStarts(startup, events[..|events| - 1], accepted);
      DoneIsFinal(Run(Init(startup), events[..|events| - 1], accepted), events[|events| - 1], accepted);
    } else {
      assert Run(Init(startup), events, accepted) == Init(startup);
    }
  }

  lemma NoteKeepsAborted(f: Facts, s: State, e: Event)
    requires f.aborted
    ensures Note(f, s, e).aborted
  {}

  lemma {:induction false} AbortedFromTheStart(startup: Startup, events: seq<Event>, accepted: bool)
    requires startup.AbortedAtStart?
    ensures FactsOf(startup, events, accepted).aborted
  {
    if events != [] {
      var init := events[..|events| - 1];
      AbortedFromTheStart(startup, init, accepted);
      NoteKeepsAborted(FactsOf(startup, init, accepted), Run(Init(startup), init, accepted), events[|events| - 1]);
    }
  }

  lemma DoneIsFinal(s: State, e: Event, accepted: bool)
    requires s.phase.Done?
    ensures Next(s, e, accepted).phase.Done? && Next(s, e, accepted).result == s.result
  {
    match e
    case Abort =>
    case Deadline =>
    case StopSettles(_) =>
    case PrepareFails(_) =>
    case Prepared(_) =>
    case Exits(_) =>
    case Unconfirmed =>
    case GroupChecked(_) =>
    case LingerStopped =>
    case StopAwaited =>
    case ResultRead =>
    case CatchAwaited =>
    case ExitAwaited =>
    case FinallyAwaited =>
    case RootRemoved(_) =>
  }

  lemma {:induction false} FailsAsInfra(startup: Startup, events: seq<Event>, accepted: bool)
    requires startup.Go?
    ensures Run(Init(startup), events, accepted).result.Failed? ==> Run(Init(startup), events, accepted).result.status.InfraError?
  {
    if events != [] {
      FailsAsInfra(startup, events[..|events| - 1], accepted);
      FailureStatus(Run(Init(startup), events[..|events| - 1], accepted), events[|events| - 1], accepted);
    }
  }

  lemma FailureStatus(s: State, e: Event, accepted: bool)
    requires s.result.Failed? ==> s.result.status.InfraError?
    ensures Next(s, e, accepted).result.Failed? ==> Next(s, e, accepted).result.status.InfraError?
  {
    match e
    case Abort =>
    case Deadline =>
    case StopSettles(_) =>
    case PrepareFails(_) =>
    case Prepared(_) =>
    case Exits(_) =>
    case Unconfirmed =>
    case GroupChecked(_) =>
    case LingerStopped =>
    case StopAwaited =>
    case ResultRead =>
    case CatchAwaited =>
    case ExitAwaited =>
    case FinallyAwaited =>
    case RootRemoved(_) =>
  }

  /** The worker left by itself, in time, cleanly and alone, and its directory could be removed. */
  predicate Orderly(f: Facts) { f.clean && !Lingered(f) && !f.deadline && !f.threw && !f.notRemoved }

  /** The result that is not overridden by a cancellation or a leak. */
  lemma FinalMeans(startup: Startup, events: seq<Event>, request: Request, file: Option<WorkerResult>)
    requires Run(Init(startup), events, FileAccepted(file, request)).phase.Done? && startup.Go?
    requires !FactsOf(startup, events, FileAccepted(file, request)).aborted
    ensures
      var accepted := FileAccepted(file, request);
      var s, f := Run(Init(startup), events, accepted), FactsOf(startup, events, accepted);
      if Orderly(f) && accepted then s.result.Read? else s.result == Failed(InfraError)
  {
    var accepted := FileAccepted(file, request);
    RunRemembers(startup, events, accepted);
    RunSound(startup, events, accepted);
    RunKeeps(startup, events, accepted);
    FailsAsInfra(startup, events, accepted);
  }

  /** What the caller is told about one that ended with `f`. */
  ghost predicate TellsTheTruth(r: WorkerResult, startup: Startup, f: Facts, accepted: bool, file: Option<WorkerResult>, leaked: bool, redactedOutput: string)
    requires accepted ==> file.Some?
  {
    if f.aborted then r.status.Cancelled? && r.output == "" && r.activation.None?
    else if leaked then r.status.Invalid? && r.output == redactedOutput && r.activation.None? && r.runtime.None?
    else if !startup.Go? then r.status.Invalid? && r.output == ""
    else if Orderly(f) && accepted then r == if file.value.terminationConfirmed then file.value else file.value.(status := InfraError)
    else r.status.InfraError? && r.output == ""
  }

  /**
   * What the caller is told, in terms of what happened: a cancelled worker is reported as cancelled whatever it wrote; one
   * that may not start is invalid; an orderly one whose result is accepted gets it back, as an infrastructure error if it
   * did not confirm its own teardown and redacted if it leaked; every other end is an infrastructure error.
   */
  lemma ReportMeans(startup: Startup, events: seq<Event>, request: Request, file: Option<WorkerResult>, leaked: bool, redactedOutput: string)
    requires Run(Init(startup), events, FileAccepted(file, request)).phase.Done?
    ensures
      var accepted := FileAccepted(file, request);
      var s, f := Run(Init(startup), events, accepted), FactsOf(startup, events, accepted);
      && (s.result.Read? ==> file.Some?)
      && TellsTheTruth(Reported(s, file, leaked, redactedOutput), startup, f, accepted, file, leaked, redactedOutput)
  {
    var accepted := FileAccepted(file, request);
    RunRemembers(startup, events, accepted);
    RunSound(startup, events, accepted);
    if !startup.Go? {
      NeverStarts(startup, events, accepted);
      if startup.AbortedAtStart? { AbortedFromTheStart(startup, events, accepted); }
    } else if !FactsOf(startup, events, accepted).aborted {
      FinalMeans(startup, events, request, file);
    }
  }
}
