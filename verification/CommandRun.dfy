/** `runBenchmarkCommand` with its flags updated in place (src/benchmark/command-grader.ts). */
module CommandRun {
  import opened BenchTypes
  import opened CommandGrader
  import opened CommandHistory

  class CommandRun {
    var phase: Phase
    var hasPid: bool
    var stop: Stop
    ghost var stopsStarted: nat
    var cancelled: bool
    var expired: bool
    var lingering: bool
    ghost var caught: bool
    var error: Option<ErrorText>
    var status: CommandStatus
    var exitCode: Option<int>
    var confirmed: bool
    var root: bool
    ghost var removed: bool

    ghost function Now(): State
      reads this
    {
      State(phase, hasPid, stop, stopsStarted, cancelled, expired, lingering, caught, error, status, exitCode, confirmed, root, removed)
    }

    ghost predicate Valid()
      reads this
    {
      Inv(Now())
    }

    constructor (startup: Startup)
      ensures Valid() && Now() == Init(startup)
    {
      phase, hasPid, stop, stopsStarted := if startup.Go? then Preparing else Done, false, NotStarted, 0;
      cancelled, expired, lingering, caught := startup.AbortedAtStart?, false, false, false;
      status, exitCode := if startup.AbortedAtStart? then CommandCancelled else CommandError, None;
      confirmed, root, removed := true, false, false;
      error := match startup
        case Go => None
        case AbortedAtStart => Some(CancelledBeforeStartup)
        case OnWindows => Some(UnsupportedPlatform)
        case InvalidAssertion => Some(InvalidCommand)
        case MissingChecks => Some(ChecksRequired);
      new;
      RunSound(startup, []);
    }

    /** Whatever happens next, the invariant is kept. */
    method Handle(e: Event)
      requires Valid()
      modifies this
      ensures Valid() && Now() == Next(old(Now()), e)
    {
      StepSound(Now(), e);
      match e {
        case Abort => OnAbort();
        case Deadline => OnDeadline();
        case StopSettles(ok) => OnStopSettles(ok);
        case StreamFails => OnStreamFails();
        case PrepareFails(rootMade) => OnPrepareFails(rootMade);
        case Prepared(spawn) => OnPrepared(spawn);
        case Exits(code, groupAlive) => OnRaceWon(code, groupAlive);
        case Unconfirmed(groupAlive) => OnUnconfirmed(groupAlive);
        case LingerStopped => OnLingerStopped();
        case StopAwaited => OnStopAwaited();
        case ClosedInTime(ok) => OnClosed(ok);
        case CatchAwaited => OnCatchAwaited();
        case FinallyAwaited => OnFinallyAwaited();
        case RootRemoved(ok) => OnRootRemoved(ok);
      }
    }

    /**
     * A whole life of the command, whatever the order of its events. In its fields, once done: completed exactly
     * without cancellation, expiry and error, then with an exit code, confirmed termination and no group stop; a
     * directory removed only after confirmed termination; and a grade that keeps the command contract. The exit code is
     * the one that ended the race, and a command that was allowed to start passes exactly when nothing went wrong and
     * that code is the expected one.
     */
    method Execute(ghost startup: Startup, events: seq<Event>)
      requires Valid() && Now() == Init(startup)
      modifies this
      ensures Valid() && Now() == Run(Init(startup), events)
      ensures phase.Done? ==> (status.CommandCompleted? <==> !cancelled && !expired && error.None?)
      ensures phase.Done? && status.CommandCompleted? ==> exitCode.Some? && confirmed && !lingering && stopsStarted == 0
      ensures phase.Done? ==> stopsStarted <= 1 && (removed ==> confirmed)
      ensures phase.Done? ==> exitCode == FactsOf(startup, events).code
      ensures phase.Done? && startup.Go? ==> forall code ::
        Graded(Now(), code, "", "", false, 0).assertion.passed <==> Passes(FactsOf(startup, events), code)
      ensures phase.Done? ==> forall code, stdout, stderr, truncated, ms :: CommandContract(Graded(Now(), code, stdout, stderr, truncated, ms), code)
    {
      for n := 0 to |events|
        invariant Valid() && Now() == Run(Init(startup), events[..n])
      {
        assert events[..n + 1][..n] == events[..n];
        Handle(events[n]);
      }
      assert events[..|events|] == events;
      if phase.Done? {
        forall code, stdout, stderr, truncated, ms ensures CommandContract(Graded(Now(), code, stdout, stderr, truncated, ms), code) {
          CommandLifecycle(startup, events, code, stdout, stderr, truncated, ms);
        }
        CommandLifecycle(startup, events, 0, "", "", false, 0);
        forall code
          ensures exitCode == FactsOf(startup, events).code
          ensures startup.Go? ==> (Graded(Now(), code, "", "", false, 0).assertion.passed <==> Passes(FactsOf(startup, events), code))
        {
          EvidenceMeans(startup, events, code, "", "", false, 0);
        }
      }
    }

    /** `stop()`: the group stop is started once and its promise kept. */
    method StopGroup()
      modifies this`stop, this`stopsStarted
      ensures Now() == StartStop(old(Now()))
    {
      if hasPid && stop.NotStarted? { stop, stopsStarted := Pending, stopsStarted + 1; }
    }

    method OnAbort()
      modifies this
      ensures Now() == CommandGrader.OnAbort(old(Now()))
    {
      if !phase.Removing? && !phase.Done? {
        cancelled := true;
        StopGroup();
      }
    }

    method OnDeadline()
      modifies this
      ensures Now() == CommandGrader.OnDeadline(old(Now()))
    {
      if phase.Racing? {
        expired := true;
        StopGroup();
      }
    }

    method OnStopSettles(ok: bool)
      modifies this
      ensures Now() == CommandGrader.OnStopSettles(old(Now()), ok)
    {
      if stop.Pending? { stop := Settled(ok); }
    }

    method OnStreamFails()
      modifies this
      ensures Now() == CommandGrader.OnStreamFails(old(Now()))
    {
      if !phase.Preparing? && !phase.Done? { error := Some(OutputUnreadable); }
    }

    method OnPrepareFails(rootMade: bool)
      modifies this
      ensures Now() == CommandGrader.OnPrepareFails(old(Now()), rootMade)
    {
      if phase.Preparing? { root, phase, caught := rootMade, Catching, true; }
    }

    /** The directory, the snapshots and the environment are ready: spawn unless cancelled meanwhile. */
    method OnPrepared(spawn: Spawn)
      modifies this
      ensures Now() == CommandGrader.OnPrepared(old(Now()), spawn)
    {
      if !phase.Preparing? { return; }
      root := true;
      if cancelled {
        phase := Finalizing;
      } else if spawn.Spawned? {
        hasPid, phase := spawn.pid, Racing;
      } else {
        phase, caught := Catching, true;
        if spawn.SpawnedThenThrows? {
          hasPid := spawn.pid;
          StopGroup();
        }
      }
    }

    /** The race between exit and an unconfirmed stop is over; descendants may linger. */
    method OnRaceWon(code: Option<int>, groupAlive: bool)
      modifies this
      ensures Now() == CommandGrader.OnRaceWon(old(Now()), code, groupAlive)
    {
      EndRace(code, groupAlive);
    }

    method EndRace(code: Option<int>, groupAlive: bool)
      modifies this
      ensures Now() == CommandGrader.OnRaceWon(old(Now()), code, groupAlive)
    {
      if !phase.Racing? { return; }
      exitCode := code;
      if hasPid && groupAlive {
        lingering, phase := true, AwaitingLinger;
        StopGroup();
      } else {
        phase := AwaitingStop;
      }
    }

    method OnUnconfirmed(groupAlive: bool)
      modifies this
      ensures Now() == Next(old(Now()), Unconfirmed(groupAlive))
    {
      if stop == Settled(false) { EndRace(None, groupAlive); }
    }

    method OnLingerStopped()
      modifies this
      ensures Now() == CommandGrader.OnLingerStopped(old(Now()))
    {
      if phase.AwaitingLinger? && !stop.Pending? { phase := AwaitingStop; }
    }

    /** Evidence status and error once termination is settled. */
    method DecideStatus()
      modifies this
      ensures Now() == Decide(old(Now()))
    {
      if !confirmed {
        error := Some(TerminationUnconfirmed);
      } else if cancelled {
        status, error := CommandCancelled, Some(GraderCancelled);
      } else if expired {
        status := CommandTimeout;
      } else if exitCode.None? {
        error := Some(NoExitCode);
      } else if lingering {
        error := Some(DescendantsRunning);
      } else if error.None? {
        status := CommandCompleted;
      }
      phase := Finalizing;
    }

    method OnStopAwaited()
      modifies this
      ensures Now() == CommandGrader.OnStopAwaited(old(Now()))
    {
      if !phase.AwaitingStop? || stop.Pending? { return; }
      confirmed := stop.NotStarted? || stop == Settled(true);
      if confirmed { phase := AwaitingClose; } else { DecideStatus(); }
    }

    method OnClosed(ok: bool)
      modifies this
      ensures Now() == CommandGrader.OnClosed(old(Now()), ok)
    {
      if phase.AwaitingClose? {
        confirmed := ok;
        DecideStatus();
      }
    }

    method OnCatchAwaited()
      modifies this
      ensures Now() == CommandGrader.OnCatchAwaited(old(Now()))
    {
      if phase.Catching? && !stop.Pending? {
        phase, confirmed, error := Finalizing, stop.NotStarted? || stop == Settled(true), Some(LifecycleIncomplete);
      }
    }

    /** The return path: cancellation wins, and any error makes the status an error. */
    method FinishRun()
      modifies this
      ensures Now() == Finish(old(Now()))
    {
      if cancelled {
        status, error := CommandCancelled, Some(if confirmed then GraderCancelled else CancelledUnconfirmed);
      } else if error.Some? {
        status := CommandError;
      }
      phase := Done;
    }

    method OnFinallyAwaited()
      modifies this
      ensures Now() == CommandGrader.OnFinallyAwaited(old(Now()))
    {
      if !phase.Finalizing? || (confirmed && stop.Pending?) { return; }
      confirmed := confirmed && (stop.NotStarted? || stop == Settled(true));
      if root && confirmed { phase := Removing; } else { FinishRun(); }
    }

    method OnRootRemoved(ok: bool)
      modifies this
      ensures Now() == CommandGrader.OnRootRemoved(old(Now()), ok)
    {
      if !phase.Removing? { return; }
      removed := ok;
      if !ok { error := Some(DirectoryNotRemoved); }
      FinishRun();
    }
  }
}
