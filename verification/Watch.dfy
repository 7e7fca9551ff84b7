/**
 * The watch loop (`watchBenchmark` and its inner `finish`, src/benchmark/watch.ts) as a state machine over
 * the steps between awaits. The environment chooses probe results, clock readings, run outcomes, the abort
 * time and what the callbacks do.
 */
module Watch {
  import opened BenchTypes

  type Fingerprint = nat

  datatype RunOutcome = Unsettled | Errored | Settled(unconfirmed: bool, matches: bool)

  datatype Attempt = Attempt(fingerprint: Fingerprint, stale: bool, aborted: bool, outcome: RunOutcome)

  datatype Phase =
    | Probing
    | Pausing
    | Stopping               // the finally block waits for the active run
    | Ended

  /** What happened, in order: runs started and finished, and changes of the desired fingerprint. */
  datatype Entry =
    | Start(fingerprint: Fingerprint, at: int)
    | Moved(at: int, first: bool)
    | Finish(reported: bool, current: bool, stale: bool, matches: bool, at: int)

  datatype State = State(
    phase: Phase,
    signalled: bool,
    active: Option<Attempt>,
    desired: Option<Fingerprint>,
    lastAttempt: Option<Fingerprint>,
    eligibleAt: int,
    firstProbe: bool,
    log: seq<Entry>)

  /** What a user callback does to the loop. */
  datatype Callback = Returns | Signals | Throws

  datatype Event =
    | Signal
    | RunSettles(outcome: RunOutcome)
    | ProbeReturns(next: Option<Fingerprint>, now: int, later: int, onDiagnostic: Callback, onRun: Callback)
    | PauseOver
    | DoneAwaited

  function Init(): State { State(Probing, false, None, None, None, 0, true, []) }

  function AbortActive(a: Option<Attempt>, stale: bool): Option<Attempt> {
    if a.None? then None else Some(a.value.(stale := a.value.stale || stale, aborted := true))
  }

  /** The signal's listener aborts the active run's controller. */
  function OnSignal(s: State): State {
    s.(signalled := true, active := if s.phase.Probing? || s.phase.Pausing? then AbortActive(s.active, false) else s.active)
  }

  function OnRunSettles(s: State, outcome: RunOutcome): State {
    s.(active := if s.active.Some? && s.active.value.outcome.Unsettled? then Some(s.active.value.(outcome := outcome)) else s.active)
  }

  /** Leaving the loop, normally or by an exception: the finally block aborts what still runs. */
  function Leave(s: State): State {
    s.(phase := if s.active.Some? then Stopping else Ended, active := AbortActive(s.active, false))
  }

  function Called(s: State, c: Callback): State {
    if c.Signals? then OnSignal(s) else s
  }

  /** A new fingerprint, or none, makes the active run stale and restarts the debounce. */
  function Observe(s: State, next: Option<Fingerprint>, now: int, debounce: nat): State {
    var changed := next != s.desired;
    s.(desired := next,
       eligibleAt := if changed then now + (if s.firstProbe then 0 else debounce) else s.eligibleAt,
       active := if changed then AbortActive(s.active, true) else s.active,
       firstProbe := false,
       log := if changed then s.log + [Moved(now, s.firstProbe)] else s.log)
  }

  predicate IsCurrent(a: Attempt, desired: Option<Fingerprint>, stopping: bool) {
    && !stopping && a.outcome.Settled? && !a.outcome.unconfirmed && !a.stale && !a.aborted
    && desired == Some(a.fingerprint) && a.outcome.matches
  }

  /** A run error or unconfirmed termination ends the loop with an exception. */
  predicate StopsLoop(a: Attempt) { !a.outcome.Settled? || a.outcome.unconfirmed }

  /** `finish`: the run is over; only a run that is stale or of other inputs may be attempted again. */
  function Finished(s: State, stopping: bool, now: int, debounce: nat): State
    requires s.active.Some? && !s.active.value.outcome.Unsettled?
  {
    var a := s.active.value;
    var matches := a.outcome.Settled? && a.outcome.matches;
    var again := !StopsLoop(a) && (a.stale || !matches);
    s.(active := None,
       lastAttempt := if again && s.lastAttempt == Some(a.fingerprint) then None else s.lastAttempt,
       eligibleAt := if again && !matches then now + debounce else s.eligibleAt,
       log := s.log + [Finish(a.outcome.Settled?, IsCurrent(a, s.desired, stopping), a.stale, matches, now)])
  }

  predicate MayStart(s: State, now: int) {
    !s.signalled && s.active.None? && s.desired.Some? && s.desired != s.lastAttempt && now >= s.eligibleAt
  }

  function MaybeStart(s: State, now: int): State {
    var starts := MayStart(s, now);
    s.(active := if starts then Some(Attempt(s.desired.value, false, false, Unsettled)) else s.active,
       lastAttempt := if starts then s.desired else s.lastAttempt,
       log := if starts then s.log + [Start(s.desired.value, now)] else s.log,
       phase := Pausing)
  }

  predicate Settles(s: State) { s.active.Some? && !s.active.value.outcome.Unsettled? }

  /** From the settled run to the pause: report it, then start the next one if it is time. */
  function AfterObserve(s: State, later: int, debounce: nat, onRun: Callback): State {
    if Settles(s) then
      var a := s.active.value;
      var t := Finished(s, false, later, debounce);
      if StopsLoop(a) || onRun.Throws? then Leave(t) else MaybeStart(Called(t, onRun), later)
    else MaybeStart(s, later)
  }

  function OnProbe(s: State, next: Option<Fingerprint>, now: int, later: int, onDiagnostic: Callback, onRun: Callback, debounce: nat): State {
    if !s.phase.Probing? then s
    else if s.signalled || (next.None? && onDiagnostic.Throws?) then Leave(s)
    else AfterObserve(Observe(if next.None? then Called(s, onDiagnostic) else s, next, now, debounce), later, debounce, onRun)
  }

  function OnPauseOver(s: State): State {
    if !s.phase.Pausing? then s else if s.signalled then Leave(s) else s.(phase := Probing)
  }

  function OnDone(s: State, debounce: nat): State {
    if s.phase.Stopping? && Settles(s) then Finished(s, true, 0, debounce).(phase := Ended) else s
  }

  function Next(s: State, e: Event, debounce: nat): State {
    match e
    case Signal => OnSignal(s)
    case RunSettles(outcome) => OnRunSettles(s, outcome)
    case ProbeReturns(next, now, later, onDiagnostic, onRun) => OnProbe(s, next, now, later, onDiagnostic, onRun, debounce)
    case PauseOver => OnPauseOver(s)
    case DoneAwaited => OnDone(s, debounce)
  }

  function Run(events: seq<Event>, debounce: nat): State {
    if events == [] then Init() else Next(Run(events[..|events| - 1], debounce), events[|events| - 1], debounce)
  }

  // ---------------------------------------------------------------- reading the log

  /** The last run started has not finished. */
  predicate Open(log: seq<Entry>) {
    log != [] && (var e := log[|log| - 1]; e.Start? || (e.Moved? && Open(log[..|log| - 1])))
  }

  /** The desired fingerprint changed since the last start, even if it changed back. */
  predicate ChangedSince(log: seq<Entry>) {
    log != [] && (var e := log[|log| - 1]; e.Moved? || (e.Finish? && ChangedSince(log[..|log| - 1])))
  }

  function LastStart(log: seq<Entry>): Option<Fingerprint> {
    if log == [] then None
    else if log[|log| - 1].Start? then Some(log[|log| - 1].fingerprint)
    else LastStart(log[..|log| - 1])
  }

  function LastFinish(log: seq<Entry>): (r: Option<Entry>)
    ensures r.Some? ==> r.value.Finish?
  {
    if log == [] then None
    else if log[|log| - 1].Finish? then Some(log[|log| - 1])
    else LastFinish(log[..|log| - 1])
  }

  /** One entry is allowed after the others. */
  predicate Allowed(before: seq<Entry>, e: Entry) {
    match e
    case Moved(_, _) => true
    case Start(f, _) =>
      // one run at a time, and a repeated fingerprint only after a stale or mismatched run
      && !Open(before)
      && (LastStart(before) == Some(f) ==>
            LastFinish(before).Some? && (LastFinish(before).value.stale || !LastFinish(before).value.matches))
    case Finish(reported, current, stale, matches, _) =>
      // a run finishes once; it is reported as current only if nothing changed while it ran
      && Open(before)
      && stale == ChangedSince(before)
      && (current ==> reported && !ChangedSince(before) && matches)
  }

  ghost predicate LogSound(log: seq<Entry>) {
    forall i :: 0 <= i < |log| ==> Allowed(log[..i], log[i])
  }

  lemma LogGrows(log: seq<Entry>, e: Entry)
    requires LogSound(log) && Allowed(log, e)
    ensures LogSound(log + [e])
  {
    var all := log + [e];
    forall i | 0 <= i < |all| ensures Allowed(all[..i], all[i]) {
      assert i < |log| ==> all[..i] == log[..i];
      assert i == |log| ==> all[..i] == log;
    }
  }

  lemma ReadLog(log: seq<Entry>, e: Entry)
    ensures Open(log + [e]) <==> e.Start? || (e.Moved? && Open(log))
    ensures ChangedSince(log + [e]) <==> e.Moved? || (e.Finish? && ChangedSince(log))
    ensures LastStart(log + [e]) == if e.Start? then Some(e.fingerprint) else LastStart(log)
    ensures LastFinish(log + [e]) == if e.Finish? then Some(e) else LastFinish(log)
  {
    assert (log + [e])[..|log + [e]| - 1] == log;
  }

  // ---------------------------------------------------------------- what every step keeps

  predicate Looping(p: Phase) { p.Probing? || p.Pausing? }

  /** The active run is the open one, and it knows whether anything changed. */
  ghost predicate ActiveSound(s: State) {
    && (s.active.Some? <==> Open(s.log))
    && (s.active.Some? ==> LastStart(s.log) == Some(s.active.value.fingerprint) && (s.active.value.stale <==> ChangedSince(s.log)))
    && (s.active.Some? && Looping(s.phase) && !s.active.value.stale ==> s.desired == Some(s.active.value.fingerprint))
    && (s.active.Some? && Looping(s.phase) && s.active.value.aborted ==> s.active.value.stale || s.signalled)
    && (s.phase.Ended? ==> s.active.None?)
  }

  /** `lastAttempt` is the last start, or forgotten because that run must be repeated. */
  ghost predicate AttemptSound(s: State) {
    && (s.active.Some? ==> s.lastAttempt == LastStart(s.log))
    && (s.lastAttempt.Some? ==> s.lastAttempt == LastStart(s.log))
    && (s.active.None? && LastStart(s.log).Some? ==> LastFinish(s.log).Some?)
    && (s.active.None? && LastStart(s.log).Some? && s.lastAttempt.None? && Looping(s.phase) ==>
          LastFinish(s.log).value.stale || !LastFinish(s.log).value.matches)
    && (s.active.None? && s.lastAttempt.Some? && Looping(s.phase) ==>
          LastFinish(s.log).Some? && LastFinish(s.log).value.current)
  }

  ghost predicate Inv(s: State) { LogSound(s.log) && ActiveSound(s) && AttemptSound(s) }

  lemma SignalSound(s: State)
    requires Inv(s)
    ensures Inv(OnSignal(s))
  {}

  lemma SettlesSound(s: State, outcome: RunOutcome)
    requires Inv(s)
    ensures Inv(OnRunSettles(s, outcome))
  {}

  lemma LeaveSound(s: State)
    requires LogSound(s.log) && ActiveSound(s) && (s.active.Some? ==> AttemptSound(s))
    requires s.lastAttempt.Some? ==> s.lastAttempt == LastStart(s.log)
    requires s.active.None? && LastStart(s.log).Some? ==> LastFinish(s.log).Some?
    ensures Inv(Leave(s))
  {}

  lemma ObserveSound(s: State, next: Option<Fingerprint>, now: int, debounce: nat)
    requires Inv(s) && s.phase.Probing?
    ensures Inv(Observe(s, next, now, debounce))
  {
    if next != s.desired {
      LogGrows(s.log, Moved(now, s.firstProbe));
      ReadLog(s.log, Moved(now, s.firstProbe));
    }
  }

  lemma FinishedSound(s: State, stopping: bool, now: int, debounce: nat)
    requires Inv(s) && Settles(s) && !s.phase.Ended? && (stopping <==> s.phase.Stopping?)
    requires Looping(s.phase) ==> !s.signalled || s.desired.None?
    ensures
      var t := Finished(s, stopping, now, debounce);
      && LogSound(t.log) && ActiveSound(t)
      && (!StopsLoop(s.active.value) || !Looping(s.phase) ==> AttemptSound(t))
      && (t.lastAttempt.Some? ==> t.lastAttempt == LastStart(t.log))
      && LastFinish(t.log).Some?
  {
    var a := s.active.value;
    var e := Finish(a.outcome.Settled?, IsCurrent(a, s.desired, stopping), a.stale, a.outcome.Settled? && a.outcome.matches, now);
    assert Allowed(s.log, e);
    LogGrows(s.log, e);
    ReadLog(s.log, e);
  }

  lemma StartSound(s: State, now: int)
    requires Inv(s) && Looping(s.phase)
    ensures Inv(MaybeStart(s, now))
  {
    if MayStart(s, now) {
      var e := Start(s.desired.value, now);
      assert Allowed(s.log, e);
      LogGrows(s.log, e);
      ReadLog(s.log, e);
    }
  }

  lemma AfterObserveSound(s: State, later: int, debounce: nat, onRun: Callback)
    requires Inv(s) && s.phase.Probing? && (!s.signalled || s.desired.None?)
    ensures Inv(AfterObserve(s, later, debounce, onRun))
  {
    if Settles(s) {
      var t := Finished(s, false, later, debounce);
      FinishedSound(s, false, later, debounce);
      if StopsLoop(s.active.value) || onRun.Throws? {
        LeaveSound(t);
      } else {
        SignalSound(t);
        StartSound(Called(t, onRun), later);
      }
    } else {
      StartSound(s, later);
    }
  }

  lemma ProbeSound(s: State, next: Option<Fingerprint>, now: int, later: int, onDiagnostic: Callback, onRun: Callback, debounce: nat)
    requires Inv(s)
    ensures Inv(OnProbe(s, next, now, later, onDiagnostic, onRun, debounce))
  {
    if s.phase.Probing? {
      LeaveSound(s);
      SignalSound(s);
      var t := if next.None? then Called(s, onDiagnostic) else s;
      ObserveSound(t, next, now, debounce);
      if !s.signalled { AfterObserveSound(Observe(t, next, now, debounce), later, debounce, onRun); }
    }
  }

  lemma PauseSound(s: State)
    requires Inv(s)
    ensures Inv(OnPauseOver(s))
  {
    if s.phase.Pausing? && s.signalled { LeaveSound(s); }
  }

  lemma DoneSound(s: State, debounce: nat)
    requires Inv(s)
    ensures Inv(OnDone(s, debounce))
  {
    if s.phase.Stopping? && Settles(s) {
      var t := Finished(s, true, 0, debounce);
      FinishedSound(s, true, 0, debounce);
      EndedSound(t);
      assert OnDone(s, debounce) == t.(phase := Ended);
    }
  }

  lemma EndedSound(t: State)
    requires LogSound(t.log) && ActiveSound(t) && AttemptSound(t) && t.active.None?
    ensures Inv(t.(phase := Ended))
  {}

  lemma StepSound(s: State, e: Event, debounce: nat)
    requires Inv(s)
    ensures Inv(Next(s, e, debounce))
  {
    match e
    case Signal => SignalSound(s);
    case RunSettles(outcome) => SettlesSound(s, outcome);
    case ProbeReturns(next, now, later, onDiagnostic, onRun) => ProbeSound(s, next, now, later, onDiagnostic, onRun, debounce);
    case PauseOver => PauseSound(s);
    case DoneAwaited => DoneSound(s, debounce);
  }

  lemma {:induction false} RunSound(events: seq<Event>, debounce: nat)
    ensures Inv(Run(events, debounce))
  {
    if events != [] {
      RunSound(events[..|events| - 1], debounce);
      StepSound(Run(events[..|events| - 1], debounce), events[|events| - 1], debounce);
    }
  }

  // ---------------------------------------------------------------- what the watch promises

  /**
   * No update is lost, over every run of the loop: runs never overlap; a run during which the desired fingerprint changed
   * at all, even back again, is never reported current; a fingerprint is started twice in a row only after
   * a stale or mismatched run; every run is finished at most once, and exactly once when the watch ends.
   */
  lemma NoUpdateLost(events: seq<Event>, debounce: nat)
    ensures LogSound(Run(events, debounce).log)
    ensures Run(events, debounce).phase.Ended? ==> !Open(Run(events, debounce).log)
    ensures Run(events, debounce).active.Some? <==> Open(Run(events, debounce).log)
  {
    RunSound(events, debounce);
  }

  /** While the loop goes on, having nothing to start means the last run of the desired inputs was reported current. */
  lemma QuietMeansCurrent(events: seq<Event>, debounce: nat)
    requires
      var s := Run(events, debounce);
      Looping(s.phase) && s.active.None? && s.desired.Some? && s.lastAttempt == s.desired
    ensures
      var s := Run(events, debounce);
      LastStart(s.log) == s.desired && LastFinish(s.log).Some? && LastFinish(s.log).value.current
  {
    RunSound(events, debounce);
  }

  // ---------------------------------------------------------------- debouncing

  /**
   * When a run may start, read from the log alone: a debounce after the last change of inputs (at once after the
   * very first probe) or after the last run that did not match its inputs, whichever came later in the log.
   */
  function Due(log: seq<Entry>, debounce: nat): int {
    if log == [] then 0
    else
      var e := log[|log| - 1];
      if e.Moved? then e.at + (if e.first then 0 else debounce)
      else if e.Finish? && e.reported && !e.matches then e.at + debounce
      else Due(log[..|log| - 1], debounce)
  }

  /** No run starts before it is due, and only the first entry can be exempt from the debounce. */
  ghost predicate Timely(log: seq<Entry>, debounce: nat) {
    forall i :: 0 <= i < |log| ==> TimelyEntry(log[..i], log[i], debounce)
  }

  predicate TimelyEntry(before: seq<Entry>, e: Entry, debounce: nat) {
    match e
    case Start(_, at) => at >= Due(before, debounce)
    case Moved(_, first) => first ==> before == []
    case Finish(_, _, _, _, _) => true
  }

  ghost predicate TimeInv(s: State, debounce: nat) {
    Timely(s.log, debounce) && (Looping(s.phase) ==> s.eligibleAt == Due(s.log, debounce)) && (s.firstProbe ==> s.log == [])
  }

  lemma TimelyGrows(log: seq<Entry>, e: Entry, debounce: nat)
    requires Timely(log, debounce) && TimelyEntry(log, e, debounce)
    ensures Timely(log + [e], debounce)
    ensures Due(log + [e], debounce) == if e.Moved? then e.at + (if e.first then 0 else debounce)
      else if e.Finish? && e.reported && !e.matches then e.at + debounce else Due(log, debounce)
  {
    var all := log + [e];
    assert all[..|log|] == log;
    forall i | 0 <= i < |all| ensures TimelyEntry(all[..i], all[i], debounce) {
      if i < |log| { assert all[..i] == log[..i]; }
    }
  }

  lemma ObserveTimely(s: State, next: Option<Fingerprint>, now: int, debounce: nat)
    requires TimeInv(s, debounce) && Looping(s.phase)
    ensures TimeInv(Observe(s, next, now, debounce), debounce)
  {
    if next != s.desired { TimelyGrows(s.log, Moved(now, s.firstProbe), debounce); }
  }

  lemma FinishedTimely(s: State, stopping: bool, now: int, debounce: nat)
    requires TimeInv(s, debounce) && Settles(s) && !s.firstProbe
    ensures var t := Finished(s, stopping, now, debounce);
      Timely(t.log, debounce) && !t.firstProbe && (Looping(s.phase) && !StopsLoop(s.active.value) ==> t.eligibleAt == Due(t.log, debounce))
  {
    var t := Finished(s, stopping, now, debounce);
    TimelyGrows(s.log, t.log[|t.log| - 1], debounce);
  }

  lemma StartTimely(s: State, now: int, debounce: nat)
    requires TimeInv(s, debounce) && Looping(s.phase) && !s.firstProbe
    ensures TimeInv(MaybeStart(s, now), debounce)
  {
    if MayStart(s, now) { TimelyGrows(s.log, Start(s.desired.value, now), debounce); }
  }

  lemma AfterObserveTimely(s: State, later: int, debounce: nat, onRun: Callback)
    requires TimeInv(s, debounce) && Looping(s.phase) && !s.firstProbe
    ensures TimeInv(AfterObserve(s, later, debounce, onRun), debounce)
  {
    if Settles(s) {
      FinishedTimely(s, false, later, debounce);
      var t := Finished(s, false, later, debounce);
      if !StopsLoop(s.active.value) && !onRun.Throws? { StartTimely(Called(t, onRun), later, debounce); }
    } else {
      StartTimely(s, later, debounce);
    }
  }

  lemma ProbeTimely(s: State, next: Option<Fingerprint>, now: int, later: int, onDiagnostic: Callback, onRun: Callback, debounce: nat)
    requires TimeInv(s, debounce)
    ensures TimeInv(OnProbe(s, next, now, later, onDiagnostic, onRun, debounce), debounce)
  {
    if s.phase.Probing? && !(s.signalled || (next.None? && onDiagnostic.Throws?)) {
      var t := if next.None? then Called(s, onDiagnostic) else s;
      ObserveTimely(t, next, now, debounce);
      AfterObserveTimely(Observe(t, next, now, debounce), later, debounce, onRun);
    }
  }

  lemma DoneTimely(s: State, debounce: nat)
    requires Inv(s) && TimeInv(s, debounce)
    ensures TimeInv(OnDone(s, debounce), debounce)
  {
    if s.phase.Stopping? && Settles(s) {
      FirstHasNoLog(s);
      FinishedTimely(s, true, 0, debounce);
    }
  }

  lemma FirstHasNoLog(s: State)
    requires Inv(s) && s.active.Some?
    ensures s.log != []
  {}

  lemma StepTimely(s: State, e: Event, debounce: nat)
    requires Inv(s) && TimeInv(s, debounce)
    ensures TimeInv(Next(s, e, debounce), debounce)
  {
    match e
    case Signal =>
    case RunSettles(_) =>
    case ProbeReturns(next, now, later, onDiagnostic, onRun) => ProbeTimely(s, next, now, later, onDiagnostic, onRun, debounce);
    case PauseOver =>
    case DoneAwaited => DoneTimely(s, debounce);
  }

  /** Over every run of the loop, no benchmark starts before its inputs have been quiet for the debounce time. */
  lemma {:induction false} StartsAfterQuiet(events: seq<Event>, debounce: nat)
    ensures TimeInv(Run(events, debounce), debounce)
  {
    if events != [] {
      StartsAfterQuiet(events[..|events| - 1], debounce);
      RunSound(events[..|events| - 1], debounce);
      StepTimely(Run(events[..|events| - 1], debounce), events[|events| - 1], debounce);
    }
  }

  /**
   * Never idle: when the loop sees its desired inputs again, due and with no run active, either the last run was of
   * these inputs and reported current, or a run of them starts now.
   */
  lemma NeverIdle(events: seq<Event>, debounce: nat, f: Fingerprint, now: int, later: int, onDiagnostic: Callback, onRun: Callback)
    requires
      var s := Run(events, debounce);
      s.phase.Probing? && !s.signalled && s.active.None? && s.desired == Some(f) && later >= Due(s.log, debounce)
    ensures
      var s := Run(events, debounce);
      var t := Next(s, ProbeReturns(Some(f), now, later, onDiagnostic, onRun), debounce);
      || (LastStart(s.log) == Some(f) && LastFinish(s.log).Some? && LastFinish(s.log).value.current)
      || (t.active == Some(Attempt(f, false, false, Unsettled)) && LastStart(t.log) == Some(f))
  {
    var s := Run(events, debounce);
    StartsAfterQuiet(events, debounce);
    if s.lastAttempt == s.desired {
      QuietMeansCurrent(events, debounce);
    } else {
      DueStarts(s, f, now, later, onDiagnostic, onRun, debounce);
    }
  }

  lemma DueStarts(s: State, f: Fingerprint, now: int, later: int, onDiagnostic: Callback, onRun: Callback, debounce: nat)
    requires s.phase.Probing? && !s.signalled && s.active.None? && s.desired == Some(f) && s.lastAttempt != s.desired && later >= s.eligibleAt
    ensures var t := OnProbe(s, Some(f), now, later, onDiagnostic, onRun, debounce);
      t.active == Some(Attempt(f, false, false, Unsettled)) && LastStart(t.log) == Some(f)
  {
    var u := Observe(s, Some(f), now, debounce);
    assert u == s.(firstProbe := false);
    ReadLog(s.log, Start(f, later));
  }
}
