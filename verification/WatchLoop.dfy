/** `watchBenchmark` with its variables updated in place (src/benchmark/watch.ts); each method is what runs between two awaits. */
module WatchLoop {
  import opened BenchTypes
  import opened Watch
  import WatchSteps

  class WatchLoop {
    const debounce: nat
    var phase: Phase
    var signalled: bool
    var active: Option<Attempt>
    var desired: Option<Fingerprint>
    var lastAttempt: Option<Fingerprint>
    var eligibleAt: int
    var firstProbe: bool
    ghost var log: seq<Entry>

    ghost function Now(): State
      reads this
    {
      State(phase, signalled, active, desired, lastAttempt, eligibleAt, firstProbe, log)
    }

    ghost predicate Valid()
      reads this
    {
      Inv(Now())
    }

    constructor (debounce: nat)
      ensures Valid() && Now() == Init() && this.debounce == debounce
    {
      this.debounce := debounce;
      phase, signalled, active, desired, lastAttempt := Probing, false, None, None, None;
      eligibleAt, firstProbe, log := 0, true, [];
      new;
      RunSound([], debounce);
    }

    /** Whatever happens next, the invariant is kept. */
    method Handle(e: Event)
      requires Valid()
      modifies this
      ensures Valid() && Now() == Next(old(Now()), e, debounce)
    {
      match e
      case Signal => Signal();
      case RunSettles(outcome) => RunSettles(outcome);
      case ProbeReturns(next, now, later, onDiagnostic, onRun) => ProbeReturns(next, now, later, onDiagnostic, onRun);
      case PauseOver => PauseOver();
      case DoneAwaited => DoneAwaited();
    }

    /**
     * A whole life of the loop, whatever the order of its events. Of its history and fields: runs start and finish as
     * they should and never too early; a run is active exactly when one is open, and aborted exactly when its inputs
     * changed, the signal fired or the watch is stopping; the desired inputs are those of the last probe; and an idle
     * loop whose last attempt is the desired one has reported it current.
     */
    method Execute(events: seq<Event>)
      requires Valid() && Now() == Init()
      modifies this
      ensures Valid() && Now() == Run(events, debounce)
      ensures LogSound(log) && Timely(log, debounce) && (active.Some? <==> Open(log))
      ensures phase.Ended? ==> active.None?
      ensures Looping(phase) && active.None? && desired.Some? && lastAttempt == desired ==>
        LastStart(log) == desired && LastFinish(log).Some? && LastFinish(log).value.current
      ensures desired == WatchSteps.LastSeen(events, debounce)
      ensures active.Some? ==> (active.value.aborted <==> ChangedSince(log) || signalled || phase.Stopping?)
    {
      for n := 0 to |events|
        invariant Valid() && Now() == Run(events[..n], debounce)
      {
        assert events[..n + 1][..n] == events[..n];
        Handle(events[n]);
      }
      assert events[..|events|] == events;
      NoUpdateLost(events, debounce);
      StartsAfterQuiet(events, debounce);
      WatchSteps.DesiredIsLastSeen(events, debounce);
      WatchSteps.AbortedExactlyWhen(events, debounce);
      if Looping(phase) && active.None? && desired.Some? && lastAttempt == desired { QuietMeansCurrent(events, debounce); }
    }

    method AbortActiveRun(stale: bool)
      modifies this`active
      ensures active == AbortActive(old(active), stale)
    {
      if active.Some? { active := Some(active.value.(stale := active.value.stale || stale, aborted := true)); }
    }

    /** The caller's signal fires. */
    method Signal()
      requires Valid()
      modifies this
      ensures Valid() && Now() == Next(old(Now()), Event.Signal, debounce)
    {
      ghost var before := Now();
      FireSignal();
      StepSound(before, Event.Signal, debounce);
    }

    method FireSignal()
      modifies this
      ensures Now() == OnSignal(old(Now()))
    {
      signalled := true;
      if phase.Probing? || phase.Pausing? { AbortActiveRun(false); }
    }

    /** The promise of the active run settles. */
    method RunSettles(outcome: RunOutcome)
      requires Valid()
      modifies this
      ensures Valid() && Now() == Next(old(Now()), Event.RunSettles(outcome), debounce)
    {
      ghost var before := Now();
      if active.Some? && active.value.outcome.Unsettled? { active := Some(active.value.(outcome := outcome)); }
      StepSound(before, Event.RunSettles(outcome), debounce);
    }

    /** The `finally` block up to its await. */
    method Stop()
      modifies this
      ensures Now() == Leave(old(Now()))
    {
      phase := if active.Some? then Stopping else Ended;
      AbortActiveRun(false);
    }

    /** `finish`: clears the run, reports it, and allows another attempt if it was stale or of other inputs. */
    method Finish(stopping: bool, now: int) returns (threw: bool)
      requires Settles(Now())
      modifies this
      ensures Now() == Finished(old(Now()), stopping, now, debounce)
      ensures threw == StopsLoop(old(active.value))
    {
      var attempt := active.value;
      active := None;
      log := log + [Watch.Finish(attempt.outcome.Settled?, IsCurrent(attempt, desired, stopping), attempt.stale,
                                 attempt.outcome.Settled? && attempt.outcome.matches, now)];
      if !attempt.outcome.Settled? || attempt.outcome.unconfirmed { return true; }
      if attempt.stale || !attempt.outcome.matches {
        if lastAttempt == Some(attempt.fingerprint) { lastAttempt := None; }
        if !attempt.outcome.matches { eligibleAt := now + debounce; }
      }
      return false;
    }

    /** A probe's fingerprint replaces the desired one. */
    method TakeRevision(next: Option<Fingerprint>, now: int)
      modifies this
      ensures Now() == Observe(old(Now()), next, now, debounce)
    {
      if next != desired {
        desired := next;
        eligibleAt := now + if firstProbe then 0 else debounce;
        log := log + [Moved(now, firstProbe)];
        AbortActiveRun(true);
      }
      firstProbe := false;
    }

    method StartIfDue(now: int)
      modifies this
      ensures Now() == MaybeStart(old(Now()), now)
    {
      if !signalled && active.None? && desired.Some? && desired != lastAttempt && now >= eligibleAt {
        active := Some(Attempt(desired.value, false, false, Unsettled));
        lastAttempt := desired;
        log := log + [Start(desired.value, now)];
      }
      phase := Pausing;
    }

    /** From the settled run to the pause. */
    method FinishAndStart(later: int, onRun: Callback)
      modifies this
      ensures Now() == AfterObserve(old(Now()), later, debounce, onRun)
    {
      if active.Some? && !active.value.outcome.Unsettled? {
        var threw := Finish(false, later);
        if threw || onRun.Throws? {
          Stop();
          return;
        }
        if onRun.Signals? { FireSignal(); }
      }
      StartIfDue(later);
    }

    /** The loop body after `await probe(...)`. */
    method ProbeReturns(next: Option<Fingerprint>, now: int, later: int, onDiagnostic: Callback, onRun: Callback)
      requires Valid()
      modifies this
      ensures Valid() && Now() == Next(old(Now()), Event.ProbeReturns(next, now, later, onDiagnostic, onRun), debounce)
    {
      ghost var before := Now();
      StepSound(before, Event.ProbeReturns(next, now, later, onDiagnostic, onRun), debounce);
      if !phase.Probing? { return; }
      if signalled || (next.None? && onDiagnostic.Throws?) {
        Stop();
        return;
      }
      if next.None? && onDiagnostic.Signals? { FireSignal(); }
      TakeRevision(next, now);
      FinishAndStart(later, onRun);
    }

    /** The pause is over: the loop condition is read again. */
    method PauseOver()
      requires Valid()
      modifies this
      ensures Valid() && Now() == Next(old(Now()), Event.PauseOver, debounce)
    {
      ghost var before := Now();
      StepSound(before, Event.PauseOver, debounce);
      if phase.Pausing? {
        if signalled { Stop(); } else { phase := Probing; }
      }
    }

    /** The `finally` block after `await attempt.done`. */
    method DoneAwaited()
      requires Valid()
      modifies this
      ensures Valid() && Now() == Next(old(Now()), Event.DoneAwaited, debounce)
    {
      ghost var before := Now();
      StepSound(before, Event.DoneAwaited, debounce);
      if phase.Stopping? && active.Some? && !active.value.outcome.Unsettled? {
        var threw := Finish(true, 0);
        phase := Ended;
      }
    }
  }
}
