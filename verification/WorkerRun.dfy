/** `runBenchmarkWorker` with its flags updated in place (src/benchmark/process.ts). */
module WorkerRun {
  import opened BenchTypes
  import opened Report
  import opened WorkerHistory
  import opened WorkerProcess

  class WorkerRun {
    /** Whether the result file holds a result the protocol accepts. */
    const accepted: bool
    var phase: Phase
    var hasPid: bool
    var spawned: bool
    var stop: Stop
    ghost var stopsStarted: nat
    var cancelled: bool
    var expired: bool
    var lingering: bool
    ghost var caught: bool
    var exitedCleanly: bool
    var confirmed: bool
    var result: Produced
    var root: bool
    ghost var removed: bool

    ghost function Now(): State
      reads this
    {
      State(phase, hasPid, spawned, stop, stopsStarted, cancelled, expired, lingering, caught, exitedCleanly, confirmed, result, root, removed)
    }

    ghost predicate Valid()
      reads this
    {
      Inv(Now())
    }

    constructor (startup: Startup, accepted: bool)
      ensures Valid() && Now() == Init(startup) && this.accepted == accepted
    {
      this.accepted := accepted;
      phase, hasPid, spawned, stop, stopsStarted := if startup.Go? then Preparing else Done, false, false, NotStarted, 0;
      cancelled, expired, lingering, caught, exitedCleanly := startup.AbortedAtStart?, false, false, false, false;
      confirmed, root, removed := true, false, false;
      result := Failed(if startup.OnWindows? || startup.InvalidDeadline? then Invalid else InfraError);
      new;
      RunSound(startup, [], accepted);
    }

    /** Whatever happens next, the invariant is kept. */
    method Handle(e: Event)
      requires Valid()
      modifies this
      ensures Valid() && Now() == Next(old(Now()), e, accepted)
    {
      StepSound(Now(), e, accepted);
      match e {
        case Abort => OnAbort();
        case Deadline => OnDeadline();
        case StopSettles(ok) => OnStopSettles(ok);
        case PrepareFails(rootMade) => OnPrepareFails(rootMade);
        case Prepared(spawn) => OnPrepared(spawn);
        case Exits(cleanly) => OnExits(cleanly);
        case Unconfirmed => OnUnconfirmed();
        case GroupChecked(alive) => OnGroupChecked(alive);
        case LingerStopped => OnLingerStopped();
        case StopAwaited => OnStopAwaited();
        case ResultRead => OnResultRead();
        case CatchAwaited => OnCatchAwaited();
        case ExitAwaited => OnExitAwaited();
        case FinallyAwaited => OnFinallyAwaited();
        case RootRemoved(ok) => OnRootRemoved(ok);
      }
    }

    /**
     * A whole life of the worker, whatever the order of its events. In its fields, once done: what is reported keeps
     * the protocol, and is completed only after a clean, timely, uncancelled exit with no group stop; and it tells the
     * caller what happened, whatever that was.
     */
    method Execute(ghost startup: Startup, events: seq<Event>, request: Request, file: Option<WorkerResult>, leaked: bool, redactedOutput: string)
      returns (r: Option<WorkerResult>)
      requires Valid() && Now() == Init(startup) && accepted == FileAccepted(file, request)
      modifies this
      ensures Valid() && Now() == Run(Init(startup), events, accepted) && (r.Some? <==> phase.Done?)
      ensures r.Some? ==> ResultSound(r.value) && stopsStarted <= 1 && (removed ==> confirmed)
      ensures r.Some? && r.value.status.Completed? ==>
        r.value.terminationConfirmed && exitedCleanly && !cancelled && !expired && !lingering && stopsStarted == 0 && !leaked
      ensures r.Some? ==>
        TellsTheTruth(r.value, startup, FactsOf(startup, events, accepted), accepted, file, leaked, redactedOutput)
      ensures r.Some? && removed && Smooth(Now()) && accepted && file.value.terminationConfirmed && !leaked ==> r.value == file.value
    {
      for n := 0 to |events|
        invariant Valid() && Now() == Run(Init(startup), events[..n], accepted)
      {
        assert events[..n + 1][..n] == events[..n];
        Handle(events[n]);
      }
      assert events[..|events|] == events;
      if !phase.Done? { return None; }
      WorkerLifecycle(startup, events, request, file, leaked, redactedOutput);
      ReportMeans(startup, events, request, file, leaked, redactedOutput);
      if removed && Smooth(Now()) && accepted { UntroubledResultKept(startup, events, request, file, leaked, redactedOutput); }
      var result := match this.result
        case Failed(status) => Failure(status, confirmed)
        case Read => if file.value.terminationConfirmed then file.value else file.value.(status := InfraError);
      return Some(if cancelled then Failure(Cancelled, confirmed) else Redact(result, leaked, redactedOutput));
    }

    /** `stop()`: the group stop is started once and its promise kept. */
    method StopGroup()
      modifies this`stop, this`stopsStarted
      ensures Now() == StartStop(old(Now()))
    {
      if hasPid && stop.NotStarted? { stop, stopsStarted := Pending, stopsStarted + 1; }
    }

    method OnAbort()
      modifies this
      ensures Now() == WorkerProcess.OnAbort(old(Now()))
    {
      if !phase.Done? {
        cancelled := true;
        StopGroup();
      }
    }

    method OnDeadline()
      modifies this
      ensures Now() == WorkerProcess.OnDeadline(old(Now()))
    {
      if phase.Racing? {
        expired := true;
        StopGroup();
      }
    }

    method OnStopSettles(ok: bool)
      modifies this
      ensures Now() == WorkerProcess.OnStopSettles(old(Now()), ok)
    {
      if stop.Pending? { stop := Settled(ok); }
    }

    method OnPrepareFails(rootMade: bool)
      modifies this
      ensures Now() == WorkerProcess.OnPrepareFails(old(Now()), rootMade)
    {
      if phase.Preparing? { root, phase, caught := rootMade, Catching, true; }
    }

    /** The control directory is ready: spawn unless cancelled meanwhile. */
    method OnPrepared(spawn: Spawn)
      modifies this
      ensures Now() == WorkerProcess.OnPrepared(old(Now()), spawn)
    {
      if !phase.Preparing? { return; }
      root := true;
      if cancelled {
        phase := Finalizing;
        return;
      }
      hasPid, spawned := !spawn.SpawnThrows? && spawn.pid, !spawn.SpawnThrows?;
      phase, caught := if spawn.Spawned? then Racing else Catching, !spawn.Spawned?;
      if spawn.SpawnedThenThrows? { StopGroup(); }
    }

    method OnExits(cleanly: bool)
      modifies this
      ensures Now() == WorkerProcess.OnRaceWon(old(Now()), cleanly)
    {
      if phase.Racing? { phase, exitedCleanly := AwaitingGroup, cleanly; }
    }

    method OnUnconfirmed()
      modifies this
      ensures Now() == Next(old(Now()), Unconfirmed, accepted)
    {
      if stop == Settled(false) && phase.Racing? { phase, exitedCleanly := AwaitingGroup, false; }
    }

    /** Descendants that outlived the worker are stopped. */
    method OnGroupChecked(alive: bool)
      modifies this
      ensures Now() == WorkerProcess.OnGroupChecked(old(Now()), alive)
    {
      if !phase.AwaitingGroup? { return; }
      lingering := hasPid && alive;
      if lingering {
        phase := AwaitingLinger;
        StopGroup();
      } else {
        phase := AwaitingStop;
      }
    }

    method OnLingerStopped()
      modifies this
      ensures Now() == WorkerProcess.OnLingerStopped(old(Now()))
    {
      if phase.AwaitingLinger? && !stop.Pending? { phase := AwaitingStop; }
    }

    method OnStopAwaited()
      modifies this
      ensures Now() == WorkerProcess.OnStopAwaited(old(Now()))
    {
      if !phase.AwaitingStop? || stop.Pending? { return; }
      confirmed := stop.NotStarted? || stop == Settled(true);
      if !confirmed || expired || !exitedCleanly || lingering {
        phase, result := Finalizing, Failed(InfraError);
      } else {
        phase := Reading;
      }
    }

    method OnResultRead()
      modifies this
      ensures Now() == WorkerProcess.OnResultRead(old(Now()), accepted)
    {
      if phase.Reading? { phase, result := Finalizing, if accepted then Read else Failed(InfraError); }
    }

    method OnCatchAwaited()
      modifies this
      ensures Now() == WorkerProcess.OnCatchAwaited(old(Now()))
    {
      if !phase.Catching? || stop.Pending? { return; }
      confirmed := stop.NotStarted? || stop == Settled(true);
      if spawned && confirmed { phase := AwaitingExit; } else { phase, result := Finalizing, Failed(InfraError); }
    }

    method OnExitAwaited()
      modifies this
      ensures Now() == WorkerProcess.OnExitAwaited(old(Now()))
    {
      if phase.AwaitingExit? { phase, result := Finalizing, Failed(InfraError); }
    }

    method OnFinallyAwaited()
      modifies this
      ensures Now() == WorkerProcess.OnFinallyAwaited(old(Now()))
    {
      if !phase.Finalizing? || stop.Pending? { return; }
      if !stop.NotStarted? { confirmed := stop.ok; }
      phase := if root && confirmed then Removing else Done;
    }

    method OnRootRemoved(ok: bool)
      modifies this
      ensures Now() == WorkerProcess.OnRootRemoved(old(Now()), ok)
    {
      if !phase.Removing? { return; }
      phase, removed := Done, ok;
      if !ok { result := Failed(InfraError); }
    }
  }
}
