/**
 * What one turn of the watch loop does, and what a whole run of it owes to its signal and its probes
 * (`watchBenchmark`, src/benchmark/watch.ts), said of the events and the log rather than of the loop's functions.
 */
module WatchSteps {
  import opened BenchTypes
  import opened Watch

  // ---------------------------------------------------------------- aborting

  /** The active run is aborted exactly once its inputs changed, the signal fired or the loop was left. */
  ghost predicate AbortSound(s: State) {
    s.active.Some? ==> (s.active.value.aborted <==> s.active.value.stale || s.signalled || s.phase.Stopping?)
  }

  lemma ProbeAborts(s: State, next: Option<Fingerprint>, now: int, later: int, onDiagnostic: Callback, onRun: Callback, debounce: nat)
    requires Inv(s) && AbortSound(s)
    ensures AbortSound(OnProbe(s, next, now, later, onDiagnostic, onRun, debounce))
  {}

  lemma StepAborts(s: State, e: Event, debounce: nat)
    requires Inv(s) && AbortSound(s)
    ensures AbortSound(Next(s, e, debounce))
  {
    match e
    case Signal =>
    case RunSettles(_) =>
    case ProbeReturns(next, now, later, onDiagnostic, onRun) => ProbeAborts(s, next, now, later, onDiagnostic, onRun, debounce);
    case PauseOver =>
    case DoneAwaited =>
  }

  /** Over every run: the active run is aborted exactly if its inputs changed since it started, the signal fired or the watch is stopping. */
  lemma {:induction false} AbortedExactlyWhen(events: seq<Event>, debounce: nat)
    ensures AbortSound(Run(events, debounce))
    ensures var s := Run(events, debounce);
      s.active.Some? ==> (s.active.value.aborted <==> ChangedSince(s.log) || s.signalled || s.phase.Stopping?)
  {
    RunSound(events, debounce);
    if events != [] {
      var init := events[..|events| - 1];
      AbortedExactlyWhen(init, debounce);
      RunSound(init, debounce);
      StepAborts(Run(init, debounce), events[|events| - 1], debounce);
    }
  }

  // ---------------------------------------------------------------- the signal

  /** The caller's signal fires on its own or from inside a callback. */
  predicate MayFire(e: Event) { e.Signal? || (e.ProbeReturns? && (e.onDiagnostic.Signals? || e.onRun.Signals?)) }

  lemma {:induction false} SignalFromEvents(events: seq<Event>, debounce: nat)
    ensures Run(events, debounce).signalled ==> exists i :: 0 <= i < |events| && MayFire(events[i])
    ensures (exists i :: 0 <= i < |events| && events[i].Signal?) ==> Run(events, debounce).signalled
  {
    if events != [] {
      var init, e := events[..|events| - 1], events[|events| - 1];
      assert events == init + [e];
      SignalFromEvents(init, debounce);
      if Run(init, debounce).signalled {
        SignalStays(Run(init, debounce), e, debounce);
        var i :| 0 <= i < |init| && MayFire(init[i]);
        assert MayFire(events[i]);
      } else if Run(events, debounce).signalled {
        assert MayFire(events[|events| - 1]);
      }
    }
  }

  function Starts(log: seq<Entry>): nat {
    if log == [] then 0 else Starts(log[..|log| - 1]) + if log[|log| - 1].Start? then 1 else 0
  }

  lemma StartsSnoc(log: seq<Entry>, e: Entry)
    ensures Starts(log + [e]) == Starts(log) + if e.Start? then 1 else 0
  {
    assert (log + [e])[..|log|] == log;
  }

  lemma SignalStays(s: State, e: Event, debounce: nat)
    requires s.signalled
    ensures Next(s, e, debounce).signalled && Starts(Next(s, e, debounce).log) == Starts(s.log)
  {
    match e
    case Signal =>
    case RunSettles(_) =>
    case ProbeReturns(_, _, _, _, _) =>
    case PauseOver =>
    case DoneAwaited =>
      if s.phase.Stopping? && Settles(s) {
        var t := Finished(s, true, 0, debounce);
        StartsSnoc(s.log, t.log[|t.log| - 1]);
      }
  }

  /** Once the signal has fired, no run is started, whatever comes. */
  lemma {:induction false} NoStartAfterSignal(events: seq<Event>, more: seq<Event>, debounce: nat)
    requires Run(events, debounce).signalled
    ensures Run(events + more, debounce).signalled && Starts(Run(events + more, debounce).log) == Starts(Run(events, debounce).log)
  {
    if more == [] {
      assert events + more == events;
    } else {
      var init := more[..|more| - 1];
      NoStartAfterSignal(events, init, debounce);
      assert (events + more)[..|events + more| - 1] == events + init;
      SignalStays(Run(events + init, debounce), more[|more| - 1], debounce);
    }
  }

  // ---------------------------------------------------------------- the probes

  /** A probe the loop acts on; after the signal, or when the diagnostic callback throws, it leaves instead. */
  predicate ActsOn(s: State, e: Event) {
    e.ProbeReturns? && s.phase.Probing? && !s.signalled && !(e.next.None? && e.onDiagnostic.Throws?)
  }

  /** What the last probe acted on returned. */
  function LastSeen(events: seq<Event>, debounce: nat): Option<Fingerprint> {
    if events == [] then None
    else
      var init, e := events[..|events| - 1], events[|events| - 1];
      if ActsOn(Run(init, debounce), e) then e.next else LastSeen(init, debounce)
  }

  lemma DesiredStep(s: State, e: Event, debounce: nat)
    ensures Next(s, e, debounce).desired == if ActsOn(s, e) then e.next else s.desired
  {
    match e
    case Signal =>
    case RunSettles(_) =>
    case ProbeReturns(_, _, _, _, _) =>
    case PauseOver =>
    case DoneAwaited =>
  }

  /** The desired inputs are always those of the last probe, and no inputs when that probe failed. */
  lemma {:induction false} DesiredIsLastSeen(events: seq<Event>, debounce: nat)
    ensures Run(events, debounce).desired == LastSeen(events, debounce)
  {
    if events != [] {
      DesiredIsLastSeen(events[..|events| - 1], debounce);
      DesiredStep(Run(events[..|events| - 1], debounce), events[|events| - 1], debounce);
    }
  }

  /** The last run was of these inputs and was reported current. */
  predicate UpToDate(log: seq<Entry>, inputs: Option<Fingerprint>) {
    LastStart(log) == inputs && LastFinish(log).Some? && LastFinish(log).value.current
  }

  lemma {:induction false} CurrentMatches(log: seq<Entry>)
    requires LogSound(log) && LastFinish(log).Some? && LastFinish(log).value.current
    ensures !LastFinish(log).value.stale && LastFinish(log).value.matches
  {
    var init := log[..|log| - 1];
    assert Allowed(log[..|log| - 1], log[|log| - 1]);
    if !log[|log| - 1].Finish? {
      assert forall i :: 0 <= i < |init| ==> log[..i] == init[..i] && log[i] == init[i];
      CurrentMatches(init);
    }
  }

  lemma AttemptMeans(s: State)
    requires Inv(s) && Looping(s.phase) && s.active.None? && s.desired.Some?
    ensures s.desired == s.lastAttempt <==> UpToDate(s.log, s.desired)
  {
    if UpToDate(s.log, s.desired) { CurrentMatches(s.log); }
  }

  /** When the loop, having dealt with the last run, starts the next. */
  predicate ShouldStart(s: State, now: int, debounce: nat) {
    !s.signalled && s.active.None? && s.desired.Some? && !UpToDate(s.log, s.desired) && now >= Due(s.log, debounce)
  }

  lemma StartsExactly(s: State, now: int, debounce: nat)
    requires Inv(s) && TimeInv(s, debounce) && Looping(s.phase)
    ensures var t := MaybeStart(s, now);
      && t.log == (if ShouldStart(s, now, debounce) then s.log + [Start(s.desired.value, now)] else s.log)
      && t.active == (if ShouldStart(s, now, debounce) then Some(Attempt(s.desired.value, false, false, Unsettled)) else s.active)
      && t.phase.Pausing? && t.desired == s.desired && t.signalled == s.signalled
  {
    if s.active.None? && s.desired.Some? { AttemptMeans(s); }
  }

  /** What a turn of the loop adds to the log before it may start a run: a change of inputs, then the end of the active run. */
  function Noticed(s: State, next: Option<Fingerprint>, now: int): seq<Entry> {
    if next != s.desired then s.log + [Moved(now, s.firstProbe)] else s.log
  }

  /** The active run had settled when the probe came back. */
  predicate RunOver(s: State) { s.active.Some? && !s.active.value.outcome.Unsettled? }

  /**
   * The end of the active run: it is stale if anything changed while it ran, and reported current exactly if it
   * settled with every worker confirmed gone, was not aborted, and its record and the inputs on disk are still its own.
   */
  predicate EndsAs(e: Entry, s: State, next: Option<Fingerprint>, later: int)
    requires RunOver(s)
  {
    var a := s.active.value;
    && e.Finish? && e.at == later
    && (e.reported <==> a.outcome.Settled?)
    && (e.matches <==> a.outcome.Settled? && a.outcome.matches)
    && (e.stale <==> a.stale || next != s.desired)
    && (e.current <==> a.outcome == Settled(false, true) && !e.stale && !a.aborted && next == Some(a.fingerprint))
  }

  /** A run that failed or may have left a worker behind, or a callback that throws, ends the watch. */
  predicate EndsWatch(s: State, onRun: Callback) {
    RunOver(s) && (!s.active.value.outcome.Settled? || s.active.value.outcome.unconfirmed || onRun.Throws?)
  }

  /** The turn that leaves the loop: nothing is started or finished, and what still runs is aborted. */
  ghost predicate Left(s: State, t: State) {
    && t.log == s.log && t.desired == s.desired && t.signalled == s.signalled
    && (t.active.Some? <==> s.active.Some?)
    && (t.active.Some? ==> t.phase.Stopping? && t.active.value == s.active.value.(aborted := true))
    && (t.active.None? ==> t.phase.Ended?)
  }

  lemma LeaveMeans(s: State, e: Event, debounce: nat)
    requires e.ProbeReturns? && s.phase.Probing? && !ActsOn(s, e)
    ensures Left(s, Next(s, e, debounce))
  {}

  /** A turn in which the active run ends: it is logged as it ended, and a failure ends the watch with nothing started. */
  ghost predicate TurnFinishes(s: State, e: Event, t: State, debounce: nat)
    requires e.ProbeReturns? && RunOver(s)
  {
    var seen := Noticed(s, e.next, e.now);
    && |t.log| > |seen| && t.log[..|seen|] == seen && EndsAs(t.log[|seen|], s, e.next, e.later)
    && (EndsWatch(s, e.onRun) ==> |t.log| == |seen| + 1 && t.active.None? && t.phase.Ended?)
    && (!EndsWatch(s, e.onRun) ==> t.phase.Pausing? && GoesOn(t, t.log[..|seen| + 1], e.next, e.later, debounce))
    && (!EndsWatch(s, e.onRun) ==> (t.signalled <==> e.onRun.Signals? || (e.next.None? && e.onDiagnostic.Signals?)))
  }

  /** From a log with no run open: the next run starts at once or the loop pauses with none. */
  ghost predicate GoesOn(t: State, log: seq<Entry>, next: Option<Fingerprint>, later: int, debounce: nat) {
    var starts := !t.signalled && next.Some? && !UpToDate(log, next) && later >= Due(log, debounce);
    && (starts ==> t.log == log + [Start(next.value, later)] && t.active == Some(Attempt(next.value, false, false, Unsettled)))
    && (!starts ==> t.log == log && t.active.None?)
  }

  /** What the loop has seen once it has called the diagnostic callback and noted the new inputs. */
  function Seen(s: State, e: Event, debounce: nat): State
    requires e.ProbeReturns?
  {
    Observe(if e.next.None? then Called(s, e.onDiagnostic) else s, e.next, e.now, debounce)
  }

  lemma SeenMeans(s: State, e: Event, debounce: nat)
    requires Inv(s) && TimeInv(s, debounce) && ActsOn(s, e)
    ensures var u := Seen(s, e, debounce);
      && Inv(u) && TimeInv(u, debounce) && u.phase.Probing? && (!u.signalled || u.desired.None?) && !u.firstProbe
      && u.log == Noticed(s, e.next, e.now) && u.desired == e.next && (u.signalled <==> e.next.None? && e.onDiagnostic.Signals?)
      && (RunOver(s) ==> RunOver(u) && u.active.value.outcome == s.active.value.outcome)
  {
    var called := if e.next.None? then Called(s, e.onDiagnostic) else s;
    ObserveSound(called, e.next, e.now, debounce);
    ObserveTimely(called, e.next, e.now, debounce);
  }

  lemma FinishEntry(s: State, e: Event, debounce: nat)
    requires ActsOn(s, e) && RunOver(s)
    ensures var u := Seen(s, e, debounce);
      RunOver(u) && (var f := Finished(u, false, e.later, debounce);
        |f.log| == |u.log| + 1 && f.log[..|u.log|] == u.log && EndsAs(f.log[|u.log|], s, e.next, e.later))
  {
    var u := Seen(s, e, debounce);
    assert Finished(u, false, e.later, debounce).log[..|u.log|] == u.log;
  }

  lemma FinishGoesOn(s: State, u: State, e: Event, debounce: nat)
    requires e.ProbeReturns? && Inv(u) && TimeInv(u, debounce) && u.phase.Probing? && (!u.signalled || u.desired.None?) && !u.firstProbe
    requires RunOver(s) && RunOver(u) && u.active.value.outcome == s.active.value.outcome && u.desired == e.next
    ensures var t, f := AfterObserve(u, e.later, debounce, e.onRun), Finished(u, false, e.later, debounce);
      && (EndsWatch(s, e.onRun) ==> t.log == f.log && t.active.None? && t.phase.Ended?)
      && (!EndsWatch(s, e.onRun) ==> t.phase.Pausing? && GoesOn(t, f.log, e.next, e.later, debounce))
      && (!EndsWatch(s, e.onRun) ==> (t.signalled <==> e.onRun.Signals? || u.signalled))
  {
    var f := Finished(u, false, e.later, debounce);
    if !EndsWatch(s, e.onRun) {
      FinishedSound(u, false, e.later, debounce);
      FinishedTimely(u, false, e.later, debounce);
      SignalSound(f);
      StartsExactly(Called(f, e.onRun), e.later, debounce);
    }
  }

  lemma FinishMeans(s: State, e: Event, debounce: nat)
    requires Inv(s) && TimeInv(s, debounce) && ActsOn(s, e) && RunOver(s)
    ensures TurnFinishes(s, e, Next(s, e, debounce), debounce)
  {
    var u := Seen(s, e, debounce);
    SeenMeans(s, e, debounce);
    FinishEntry(s, e, debounce);
    FinishGoesOn(s, u, e, debounce);
    TurnFinishesFrom(s, e, Next(s, e, debounce), Finished(u, false, e.later, debounce).log, debounce);
  }

  lemma TurnFinishesFrom(s: State, e: Event, t: State, log: seq<Entry>, debounce: nat)
    requires e.ProbeReturns? && RunOver(s)
    requires var seen := Noticed(s, e.next, e.now);
      |log| == |seen| + 1 && log[..|seen|] == seen && EndsAs(log[|seen|], s, e.next, e.later)
    requires EndsWatch(s, e.onRun) ==> t.log == log && t.active.None? && t.phase.Ended?
    requires !EndsWatch(s, e.onRun) ==> t.phase.Pausing? && GoesOn(t, log, e.next, e.later, debounce)
    requires !EndsWatch(s, e.onRun) ==> (t.signalled <==> e.onRun.Signals? || (e.next.None? && e.onDiagnostic.Signals?))
    ensures TurnFinishes(s, e, t, debounce)
  {
    var n := |Noticed(s, e.next, e.now)|;
    assert t.log[..n] == log[..n] && t.log[..n + 1] == log;
  }

  /** A turn with no run to finish: an active one goes on, stale and aborted if its inputs changed. */
  ghost predicate TurnWatches(s: State, e: Event, t: State, debounce: nat)
    requires e.ProbeReturns?
  {
    var seen := Noticed(s, e.next, e.now);
    && t.phase.Pausing? && (t.signalled <==> e.next.None? && e.onDiagnostic.Signals?)
    && (s.active.None? ==> GoesOn(t, seen, e.next, e.later, debounce))
    && (s.active.Some? ==>
          && t.log == seen && t.active.Some?
          && t.active.value.fingerprint == s.active.value.fingerprint && t.active.value.outcome == s.active.value.outcome
          && (t.active.value.stale <==> s.active.value.stale || e.next != s.desired))
  }

  lemma WatchMeans(s: State, e: Event, debounce: nat)
    requires Inv(s) && TimeInv(s, debounce) && ActsOn(s, e) && !RunOver(s)
    ensures TurnWatches(s, e, Next(s, e, debounce), debounce)
  {
    SeenMeans(s, e, debounce);
    StartsExactly(Seen(s, e, debounce), e.later, debounce);
  }

  ghost predicate TurnMeans(s: State, e: Event, t: State, debounce: nat)
    requires e.ProbeReturns?
  {
    && (!ActsOn(s, e) ==> Left(s, t))
    && (ActsOn(s, e) && RunOver(s) ==> TurnFinishes(s, e, t, debounce))
    && (ActsOn(s, e) && !RunOver(s) ==> TurnWatches(s, e, t, debounce))
  }

  /**
   * Every turn of the loop, in every run: the loop is left exactly on the signal or a throwing callback; a settled run
   * is logged as it ended; and a run is started exactly when the watch goes on unsignalled with no run active, its
   * inputs are valid and due, and the last run was not of these inputs and reported current.
   */
  lemma EveryTurn(events: seq<Event>, e: Event, debounce: nat)
    requires e.ProbeReturns? && Run(events, debounce).phase.Probing?
    ensures TurnMeans(Run(events, debounce), e, Next(Run(events, debounce), e, debounce), debounce)
  {
    var s := Run(events, debounce);
    RunSound(events, debounce);
    StartsAfterQuiet(events, debounce);
    AbortedExactlyWhen(events, debounce);
    if !ActsOn(s, e) {
      LeaveMeans(s, e, debounce);
    } else if RunOver(s) {
      FinishMeans(s, e, debounce);
    } else {
      WatchMeans(s, e, debounce);
    }
  }

  /** The other events: the first outcome of the active run is kept, a pause leads to the next probe, and a stopping watch reports its run as not current. */
  ghost predicate QuietStepMeans(s: State, e: Event, t: State) {
    match e
    case RunSettles(outcome) =>
      && t.log == s.log && t.phase == s.phase && t.desired == s.desired
      && (s.active.Some? <==> t.active.Some?)
      && (s.active.Some? ==> t.active.value.fingerprint == s.active.value.fingerprint && t.active.value.stale == s.active.value.stale)
      && (s.active.Some? ==> t.active.value.outcome == if s.active.value.outcome.Unsettled? then outcome else s.active.value.outcome)
    case PauseOver => if s.phase.Pausing? && !s.signalled then t.phase.Probing? && t.active == s.active && t.log == s.log
                      else if s.phase.Pausing? then Left(s, t) else t == s
    case DoneAwaited =>
      if s.phase.Stopping? && RunOver(s) then
        && t.phase.Ended? && t.active.None? && |t.log| == |s.log| + 1 && t.log[..|s.log|] == s.log
        && t.log[|s.log|].Finish? && !t.log[|s.log|].current && (t.log[|s.log|].reported <==> s.active.value.outcome.Settled?)
      else t == s
    case Signal => t.log == s.log && t.desired == s.desired && t.phase == s.phase && t.signalled
    case ProbeReturns(_, _, _, _, _) => true
  }

  lemma QuietStep(s: State, e: Event, debounce: nat)
    ensures QuietStepMeans(s, e, Next(s, e, debounce))
  {
    if e.DoneAwaited? && s.phase.Stopping? && RunOver(s) {
      var t := Finished(s, true, 0, debounce);
      assert t.log[..|s.log|] == s.log;
    }
  }
}
