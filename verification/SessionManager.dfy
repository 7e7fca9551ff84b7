/** All sessions of a `BrowseSessionManager` together (src/browse/session.ts): the session map, sweeps and dispose. */
module SessionManager {
  import opened BenchTypes
  import opened Session

  /** An async loop over records that enqueues a task and waits for it before going on. */
  datatype Wait = Idle | On(record: nat, task: nat)

  datatype Sweeping = Sweeping(todo: seq<nat>, now: int, waiting: Wait)

  /** Every record ever created, the map of current ones, and the sweeps and disposal in progress. */
  datatype Manager = Manager(
    records: seq<Record>,
    sessions: map<string, nat>,
    disposed: bool,
    sweeps: seq<Sweeping>,
    todo: seq<nat>,
    waiting: Wait)

  datatype Event =
    | Call(key: string, op: Op, now: int)    // run, ensure, pages, newPage, selectPage, closePage
    | CallInfo(key: string)
    | CallClose(key: string)
    | Advance(record: nat, task: nat, input: Input)
    | SweepBegin(order: seq<nat>, now: int)
    | SweepStep(sweep: nat)
    | DisposeBegin(order: seq<nat>)
    | DisposeStep

  function Init(): Manager { Manager([], map[], false, [], [], Idle) }

  predicate Known(m: Manager, key: string) { key in m.sessions && m.sessions[key] < |m.records| }

  /** `recordFor`: a missing or closed record is replaced by a new one. */
  function RecordFor(m: Manager, key: string, now: int): (Manager, nat) {
    if Known(m, key) && !m.records[m.sessions[key]].closed then (m, m.sessions[key])
    else (m.(records := m.records + [NewRecord(key, now)], sessions := m.sessions[key := |m.records|]), |m.records|)
  }

  function EnqueueOn(m: Manager, r: nat, op: Op): Manager
    requires r < |m.records|
  {
    m.(records := m.records[r := Enqueue(m.records[r], op)])
  }

  function OnCall(m: Manager, key: string, op: Op, now: int): Manager {
    if m.disposed || !NeedsOpen(op) then m
    else
      var (n, r) := RecordFor(m, key, now);
      EnqueueOn(n, r, op)
  }

  function OnCallKnown(m: Manager, key: string, op: Op): Manager {
    if Known(m, key) then EnqueueOn(m, m.sessions[key], op) else m
  }

  predicate Removes(r: Record, t: nat, input: Input)
    requires t < |r.tasks|
  {
    r.tasks[t].op.CloseSession? && input.Begin? && MayBegin(r, t) && !input.cancelled
  }

  function Drop(sessions: map<string, nat>, key: string, r: nat): map<string, nat> {
    if key in sessions && sessions[key] == r then sessions - {key} else sessions
  }

  /** A task's step; a close that starts takes its record out of the map in the same step. */
  function OnAdvance(m: Manager, r: nat, t: nat, input: Input, limits: Limits): Manager {
    if r >= |m.records| || t >= |m.records[r].tasks| then m
    else
      var rec := m.records[r];
      m.(records := m.records[r := StepTask(rec, t, input, limits)],
         sessions := if Removes(rec, t, input) then Drop(m.sessions, rec.key, r) else m.sessions)
  }

  /** A listing of the map's records, in the order of the moment. */
  predicate Enumerates(order: seq<nat>, sessions: map<string, nat>) {
    && (forall r :: r in order ==> exists key :: key in sessions && sessions[key] == r)
    && (forall key :: key in sessions ==> sessions[key] in order)
  }

  predicate SettledWait(m: Manager, w: Wait) {
    w.On? && w.record < |m.records| && w.task < |m.records[w.record].tasks| && m.records[w.record].tasks[w.task].stage.Settled?
  }

  /** One turn of `sweepIdle`: collect a finished close, or look at the next record. */
  function OnSweepStep(m: Manager, i: nat, limits: Limits): Manager {
    if i >= |m.sweeps| then m
    else
      var w := m.sweeps[i];
      if SettledWait(m, w.waiting) then
        var rec := m.records[w.waiting.record];
        m.(sweeps := m.sweeps[i := w.(waiting := Idle)],
           sessions := if rec.tasks[w.waiting.task].stage.ok then Drop(m.sessions, rec.key, w.waiting.record) else m.sessions)
      else if w.waiting.Idle? && w.todo != [] && w.todo[0] < |m.records| then
        var r := w.todo[0];
        var recent := w.now - m.records[r].lastUsed < limits.idleTtlMs;
        m.(records := if recent then m.records else m.records[r := Enqueue(m.records[r], Sweep)],
           sweeps := m.sweeps[i := w.(todo := w.todo[1..], waiting := if recent then Idle else On(r, |m.records[r].tasks|))])
      else m
  }

  function OnDisposeBegin(m: Manager, order: seq<nat>): Manager {
    if m.disposed then m else m.(disposed := true, sessions := map[], todo := order, waiting := Idle)
  }

  function OnDisposeStep(m: Manager): Manager {
    if !m.disposed then m
    else if SettledWait(m, m.waiting) then m.(waiting := Idle)
    else if m.waiting.Idle? && m.todo != [] && m.todo[0] < |m.records| then
      var r := m.todo[0];
      m.(records := m.records[r := Enqueue(m.records[r], Dispose)], todo := m.todo[1..], waiting := On(r, |m.records[r].tasks|))
    else m
  }

  function Next(m: Manager, e: Event, limits: Limits): Manager {
    match e
    case Call(key, op, now) => OnCall(m, key, op, now)
    case CallInfo(key) => if m.disposed then m else OnCallKnown(m, key, Info)
    case CallClose(key) => OnCallKnown(m, key, CloseSession)
    case Advance(r, t, input) => OnAdvance(m, r, t, input, limits)
    case SweepBegin(order, now) => if Enumerates(order, m.sessions) then m.(sweeps := m.sweeps + [Sweeping(order, now, Idle)]) else m
    case SweepStep(i) => OnSweepStep(m, i, limits)
    case DisposeBegin(order) => if Enumerates(order, m.sessions) then OnDisposeBegin(m, order) else m
    case DisposeStep => OnDisposeStep(m)
  }

  function Run(m: Manager, events: seq<Event>, limits: Limits): Manager {
    if events == [] then m else Next(Run(m, events[..|events| - 1], limits), events[|events| - 1], limits)
  }

  // ---------------------------------------------------------------- what every step keeps

  ghost predicate RecordsSound(m: Manager, limits: Limits) {
    forall r :: 0 <= r < |m.records| ==> RecordSound(m.records[r], limits)
  }

  ghost predicate SessionsSound(m: Manager) {
    && (forall key :: key in m.sessions ==> m.sessions[key] < |m.records| && m.records[m.sessions[key]].key == key)
    && (m.disposed ==> m.sessions == map[])
    && (!m.disposed ==> m.todo == [] && m.waiting.Idle?)
  }

  predicate WaitSound(m: Manager, w: Wait, op: Op) {
    w.On? ==> w.record < |m.records| && w.task < |m.records[w.record].tasks| && m.records[w.record].tasks[w.task].op == op
  }

  ghost predicate LoopsSound(m: Manager) {
    && (forall i :: 0 <= i < |m.sweeps| ==> WaitSound(m, m.sweeps[i].waiting, Sweep))
    && (forall i, r :: 0 <= i < |m.sweeps| && r in m.sweeps[i].todo ==> r < |m.records|)
    && (forall r :: r in m.todo ==> r < |m.records|)
    && WaitSound(m, m.waiting, Dispose)
  }

  /** The disposal has yet to close the record: it is in its list, or its dispose task has not settled. */
  ghost predicate Pending(m: Manager, r: nat) {
    r in m.todo || (m.waiting.On? && m.waiting.record == r && !SettledWait(m, m.waiting))
  }

  ghost predicate Reachable(m: Manager, r: nat)
    requires r < |m.records|
  {
    if m.disposed then Pending(m, r) else Known(m, m.records[r].key) && m.sessions[m.records[r].key] == r
  }

  /** No record that can still hold a browser is ever forgotten. */
  ghost predicate NoneForgotten(m: Manager) {
    forall r :: 0 <= r < |m.records| && !m.records[r].closed ==> Reachable(m, r)
  }

  ghost predicate Inv(m: Manager, limits: Limits) {
    RecordsSound(m, limits) && SessionsSound(m) && LoopsSound(m) && NoneForgotten(m)
  }

  /** Replacing one record by a later state of itself keeps everything the loops rely on. */
  lemma ReplaceKeeps(m: Manager, r: nat, q: Record, limits: Limits)
    requires Inv(m, limits) && r < |m.records| && Evolves(m.records[r], q) && RecordSound(q, limits)
    ensures
      var n := m.(records := m.records[r := q]);
      RecordsSound(n, limits) && SessionsSound(n) && LoopsSound(n) && NoneForgotten(n)
  {
    var n := m.(records := m.records[r := q]);
    forall k | 0 <= k < |n.records| && !n.records[k].closed ensures Reachable(n, k) {
      assert !m.records[k].closed && Reachable(m, k);
      if m.disposed && k !in m.todo && SettledWait(n, n.waiting) && k == r {
        // a settled dispose task would have closed the record
        DisposeReleased(n.records[k], n.waiting.task, limits);
      }
    }
  }

  lemma EnqueueOnSound(m: Manager, r: nat, op: Op, limits: Limits)
    requires Inv(m, limits) && r < |m.records|
    ensures Inv(EnqueueOn(m, r, op), limits)
  {
    EnqueueSound(m.records[r], op, limits);
    EnqueueEvolves(m.records[r], op);
    ReplaceKeeps(m, r, Enqueue(m.records[r], op), limits);
  }

  lemma RecordForSound(m: Manager, key: string, now: int, limits: Limits)
    requires Inv(m, limits) && !m.disposed
    ensures Inv(RecordFor(m, key, now).0, limits) && RecordFor(m, key, now).1 < |RecordFor(m, key, now).0.records|
    ensures !RecordFor(m, key, now).0.records[RecordFor(m, key, now).1].closed
  {
    var n := RecordFor(m, key, now).0;
    if n != m {
      assert RecordSound(NewRecord(key, now), limits);
      forall k | 0 <= k < |n.records| && !n.records[k].closed ensures Reachable(n, k) {
        if k < |m.records| { assert Reachable(m, k); }
      }
    }
  }

  lemma AdvanceSound(m: Manager, r: nat, t: nat, input: Input, limits: Limits)
    requires Inv(m, limits)
    ensures Inv(OnAdvance(m, r, t, input, limits), limits)
  {
    if r < |m.records| && t < |m.records[r].tasks| {
      var rec := m.records[r];
      var q := StepTask(rec, t, input, limits);
      StepTaskSound(rec, t, input, limits);
      StepEvolves(rec, t, input, limits);
      ReplaceKeeps(m, r, q, limits);
      if Removes(rec, t, input) {
        assert q.closed;
        DropKeeps(m.(records := m.records[r := q]), r, limits);
      }
    }
  }

  /** Taking a closed record out of the map forgets nothing. */
  lemma DropKeeps(m: Manager, r: nat, limits: Limits)
    requires Inv(m, limits) && r < |m.records| && m.records[r].closed
    ensures Inv(m.(sessions := Drop(m.sessions, m.records[r].key, r)), limits)
  {
    var n := m.(sessions := Drop(m.sessions, m.records[r].key, r));
    forall k | 0 <= k < |n.records| && !n.records[k].closed ensures Reachable(n, k) {
      assert Reachable(m, k);
    }
  }

  lemma SweepStepSound(m: Manager, i: nat, limits: Limits)
    requires Inv(m, limits)
    ensures Inv(OnSweepStep(m, i, limits), limits)
  {
    if i < |m.sweeps| {
      var w := m.sweeps[i];
      if SettledWait(m, w.waiting) {
        var n := m.(sweeps := m.sweeps[i := w.(waiting := Idle)]);
        assert Inv(n, limits) by {
          assert forall k :: 0 <= k < |n.records| && !n.records[k].closed ==> Reachable(m, k);
        }
        var rec := m.records[w.waiting.record];
        if rec.tasks[w.waiting.task].stage.ok {
          CloserReleased(rec, w.waiting.task, limits);
          DropKeeps(n, w.waiting.record, limits);
        }
      } else if w.waiting.Idle? && w.todo != [] && w.todo[0] < |m.records| {
        EnqueueOnSound(m, w.todo[0], Sweep, limits);
        SweepQueued(m, i, limits);
      }
    }
  }

  lemma SweepQueued(m: Manager, i: nat, limits: Limits)
    requires Inv(m, limits) && i < |m.sweeps| && m.sweeps[i].waiting.Idle? && m.sweeps[i].todo != [] && m.sweeps[i].todo[0] < |m.records|
    requires Inv(EnqueueOn(m, m.sweeps[i].todo[0], Sweep), limits)
    ensures Inv(OnSweepStep(m, i, limits), limits)
  {
    var n, w := OnSweepStep(m, i, limits), m.sweeps[i];
    var e := EnqueueOn(m, w.todo[0], Sweep);
    EnqueueEvolves(m.records[w.todo[0]], Sweep);
    forall k, r | 0 <= k < |n.sweeps| && r in n.sweeps[k].todo ensures r < |n.records| {
      assert r in m.sweeps[k].todo;
    }
    forall k | 0 <= k < |n.records| && !n.records[k].closed ensures Reachable(n, k) {
      assert if n.records == m.records then Reachable(m, k) else Reachable(e, k);
    }
  }

  lemma DisposeBeginSound(m: Manager, order: seq<nat>, limits: Limits)
    requires Inv(m, limits) && Enumerates(order, m.sessions)
    ensures Inv(OnDisposeBegin(m, order), limits)
  {
    var n := OnDisposeBegin(m, order);
    if !m.disposed {
      forall k | 0 <= k < |n.records| && !n.records[k].closed ensures Reachable(n, k) {
        assert Reachable(m, k);
        assert m.sessions[m.records[k].key] in order;
      }
    }
  }

  lemma DisposeStepSound(m: Manager, limits: Limits)
    requires Inv(m, limits)
    ensures Inv(OnDisposeStep(m), limits)
  {
    var n := OnDisposeStep(m);
    if m.disposed {
      if SettledWait(m, m.waiting) {
        DisposeReleased(m.records[m.waiting.record], m.waiting.task, limits);
        forall k | 0 <= k < |n.records| && !n.records[k].closed ensures Reachable(n, k) { assert Reachable(m, k); }
      } else if m.waiting.Idle? && m.todo != [] && m.todo[0] < |m.records| {
        EnqueueOnSound(m, m.todo[0], Dispose, limits);
        DisposeQueued(m, limits);
      }
    }
  }

  lemma DisposeQueued(m: Manager, limits: Limits)
    requires Inv(m, limits) && m.disposed && m.waiting.Idle? && m.todo != [] && m.todo[0] < |m.records|
    requires Inv(EnqueueOn(m, m.todo[0], Dispose), limits)
    ensures Inv(OnDisposeStep(m), limits)
  {
    var n, e := OnDisposeStep(m), EnqueueOn(m, m.todo[0], Dispose);
    EnqueueEvolves(m.records[m.todo[0]], Dispose);
    assert n.records == e.records && n.sweeps == e.sweeps;
    assert forall r :: r in n.todo ==> r in m.todo;
    assert WaitSound(n, n.waiting, Dispose) && RecordsSound(n, limits);
    forall k | 0 <= k < |n.records| && !n.records[k].closed ensures Reachable(n, k) {
      assert Reachable(e, k);
      if k != m.todo[0] { assert k in m.todo[1..]; }
    }
  }

  lemma StepSound(m: Manager, e: Event, limits: Limits)
    requires Inv(m, limits)
    ensures Inv(Next(m, e, limits), limits)
  {
    match e
    case Call(key, op, now) =>
      if !m.disposed && NeedsOpen(op) {
        RecordForSound(m, key, now, limits);
        EnqueueOnSound(RecordFor(m, key, now).0, RecordFor(m, key, now).1, op, limits);
      }
    case CallInfo(key) => if Known(m, key) { EnqueueOnSound(m, m.sessions[key], Info, limits); }
    case CallClose(key) => if Known(m, key) { EnqueueOnSound(m, m.sessions[key], CloseSession, limits); }
    case Advance(r, t, input) => AdvanceSound(m, r, t, input, limits);
    case SweepBegin(order, now) =>
      if Enumerates(order, m.sessions) { SweepBeginSound(m, order, now, limits); }
    case SweepStep(i) => SweepStepSound(m, i, limits);
    case DisposeBegin(order) => if Enumerates(order, m.sessions) { DisposeBeginSound(m, order, limits); }
    case DisposeStep => DisposeStepSound(m, limits);
  }

  lemma SweepBeginSound(m: Manager, order: seq<nat>, now: int, limits: Limits)
    requires Inv(m, limits) && Enumerates(order, m.sessions)
    ensures Inv(m.(sweeps := m.sweeps + [Sweeping(order, now, Idle)]), limits)
  {
    var n := m.(sweeps := m.sweeps + [Sweeping(order, now, Idle)]);
    forall k | 0 <= k < |n.records| && !n.records[k].closed ensures Reachable(n, k) { assert Reachable(m, k); }
  }

  lemma {:induction false} RunSound(events: seq<Event>, limits: Limits)
    ensures Inv(Run(Init(), events, limits), limits)
  {
    if events != [] {
      RunSound(events[..|events| - 1], limits);
      StepSound(Run(Init(), events[..|events| - 1], limits), events[|events| - 1], limits);
    }
  }

  // ---------------------------------------------------------------- what the manager promises

  /** `dispose()` has resolved. */
  predicate DisposeDone(m: Manager) { m.disposed && m.todo == [] && m.waiting.Idle? }

  /**
   * No leaked browser, in every interleaving: tasks of a session run one at a time in the order they were
   * asked for; the page table is sound; until dispose every record that is not closed is the current one of
   * its key; a record whose closing has finished holds no browser and no pages, and since a closed record
   * cannot launch, never will; and once dispose has resolved every record ever created is closed.
   */
  lemma NoLeakedBrowser(events: seq<Event>, limits: Limits, r: nat)
    requires r < |Run(Init(), events, limits).records|
    ensures
      var m := Run(Init(), events, limits);
      var rec := m.records[r];
      && Serial(rec) && PageTable(rec, limits)
      && (!m.disposed && !rec.closed ==> Known(m, rec.key) && m.sessions[rec.key] == r)
      && (rec.closed ==> ClosedSound(rec))
      && (DisposeDone(m) ==> rec.closed)
  {
    RunSound(events, limits);
    var m := Run(Init(), events, limits);
    assert RecordSound(m.records[r], limits);
    assert !m.records[r].closed ==> Reachable(m, r);
  }

  /**
   * In every reachable state an operation works on the page it was asked for, which is the active one, and a page is being
   * created only under the name asked for, or as "main" for a session without pages.
   */
  lemma RightPage(events: seq<Event>, limits: Limits, r: nat, t: nat)
    requires r < |Run(Init(), events, limits).records| && t < |Run(Init(), events, limits).records[r].tasks|
    ensures
      var rec := Run(Init(), events, limits).records[r];
      OnRightPage(rec, rec.tasks[t].op, rec.tasks[t].stage)
  {
    RunSound(events, limits);
    assert RecordSound(Run(Init(), events, limits).records[r], limits);
    assert TaskSound(Run(Init(), events, limits).records[r], t, limits);
  }

  // ---------------------------------------------------------------- what no later step undoes

  lemma EvolvesOn(p: Record, q: Record, r: Record)
    requires Evolves(p, q) && Evolves(q, r)
    ensures Evolves(p, r)
  {}

  lemma EnqueueOnEvolves(m: Manager, k: nat, op: Op, r: nat)
    requires k < |m.records| && r < |m.records|
    ensures Evolves(m.records[r], EnqueueOn(m, k, op).records[r])
  {
    EnqueueEvolves(m.records[k], op);
  }

  lemma CallEvolves(m: Manager, key: string, op: Op, now: int, r: nat)
    requires r < |m.records|
    ensures r < |OnCall(m, key, op, now).records| && Evolves(m.records[r], OnCall(m, key, op, now).records[r])
  {
    if !m.disposed && NeedsOpen(op) {
      var (n, k) := RecordFor(m, key, now);
      EnqueueOnEvolves(n, k, op, r);
    }
  }

  lemma SweepStepEvolves(m: Manager, i: nat, limits: Limits, r: nat)
    requires r < |m.records|
    ensures r < |OnSweepStep(m, i, limits).records| && Evolves(m.records[r], OnSweepStep(m, i, limits).records[r])
  {
    if i < |m.sweeps| && m.sweeps[i].todo != [] && m.sweeps[i].todo[0] < |m.records| {
      EnqueueOnEvolves(m, m.sweeps[i].todo[0], Sweep, r);
    }
  }

  lemma DisposeStepEvolves(m: Manager, r: nat)
    requires r < |m.records|
    ensures r < |OnDisposeStep(m).records| && Evolves(m.records[r], OnDisposeStep(m).records[r])
  {
    if m.todo != [] && m.todo[0] < |m.records| { EnqueueOnEvolves(m, m.todo[0], Dispose, r); }
  }

  lemma NextEvolves(m: Manager, e: Event, limits: Limits, r: nat)
    requires Inv(m, limits) && r < |m.records|
    ensures r < |Next(m, e, limits).records| && Evolves(m.records[r], Next(m, e, limits).records[r])
  {
    match e
    case Call(key, op, now) => CallEvolves(m, key, op, now, r);
    case CallInfo(key) => if Known(m, key) { EnqueueOnEvolves(m, m.sessions[key], Info, r); }
    case CallClose(key) => if Known(m, key) { EnqueueOnEvolves(m, m.sessions[key], CloseSession, r); }
    case Advance(k, t, input) =>
      if k < |m.records| && t < |m.records[k].tasks| { StepEvolves(m.records[k], t, input, limits); }
    case SweepBegin(_, _) =>
    case SweepStep(i) => SweepStepEvolves(m, i, limits, r);
    case DisposeBegin(_) =>
    case DisposeStep => DisposeStepEvolves(m, r);
  }

  lemma {:induction false} RunEvolves(m: Manager, events: seq<Event>, limits: Limits, r: nat)
    requires Inv(m, limits) && r < |m.records|
    ensures Inv(Run(m, events, limits), limits) && r < |Run(m, events, limits).records|
    ensures Evolves(m.records[r], Run(m, events, limits).records[r])
  {
    if events != [] {
      var before, e := Run(m, events[..|events| - 1], limits), events[|events| - 1];
      RunEvolves(m, events[..|events| - 1], limits, r);
      StepSound(before, e, limits);
      NextEvolves(before, e, limits, r);
      EvolvesOn(m.records[r], before.records[r], Next(before, e, limits).records[r]);
    }
  }

  /** A record once closed stays closed in every continuation, and never gains a browser. */
  lemma ClosedForGood(m: Manager, events: seq<Event>, limits: Limits, r: nat)
    requires Inv(m, limits) && r < |m.records| && m.records[r].closed
    ensures r < |Run(m, events, limits).records| && Run(m, events, limits).records[r].closed
    ensures Run(m, events, limits).records[r].driver ==> m.records[r].driver
  {
    RunEvolves(m, events, limits, r);
  }

  /**
   * First in, first out: over whole runs, once a task of a session has begun, every task asked for before it has
   * settled for good, whether it succeeded or was rejected, and whatever happens later.
   */
  lemma FirstInFirstOut(events: seq<Event>, more: seq<Event>, limits: Limits, r: nat, t: nat, u: nat)
    requires
      var m := Run(Init(), events, limits);
      r < |m.records| && t < u < |m.records[r].tasks| && !m.records[r].tasks[u].stage.Waiting?
    ensures
      var m, n := Run(Init(), events, limits), Run(Init(), events + more, limits);
      && m.records[r].tasks[t].stage.Settled?
      && r < |n.records| && u < |n.records[r].tasks|
      && n.records[r].tasks[t] == m.records[r].tasks[t] && !n.records[r].tasks[u].stage.Waiting?
  {
    var m := Run(Init(), events, limits);
    RunSound(events, limits);
    assert RecordSound(m.records[r], limits);
    RunConcat(Init(), events, more, limits);
    RunEvolves(m, more, limits, r);
  }

  // ---------------------------------------------------------------- exactly when dispose leaves no browser

  /** Every browser belongs to the current record of its key: no close is still in flight elsewhere. */
  ghost predicate AllCurrent(m: Manager) {
    forall r :: 0 <= r < |m.records| && m.records[r].driver ==> Known(m, m.records[r].key) && m.sessions[m.records[r].key] == r
  }

  ghost predicate AllReleased(m: Manager) {
    forall r :: 0 <= r < |m.records| ==> !m.records[r].driver
  }

  /** After dispose was called: whatever holds a browser is still to be closed by it. */
  ghost predicate Held(m: Manager) {
    m.disposed && forall r :: 0 <= r < |m.records| && m.records[r].driver ==> Pending(m, r)
  }

  lemma ReplaceHeld(m: Manager, r: nat, q: Record, limits: Limits)
    requires Inv(m, limits) && Held(m) && r < |m.records| && Evolves(m.records[r], q) && RecordSound(q, limits)
    requires q.driver && !m.records[r].driver ==> !m.records[r].closed
    ensures Held(m.(records := m.records[r := q]))
  {
    var n := m.(records := m.records[r := q]);
    forall k | 0 <= k < |n.records| && n.records[k].driver ensures Pending(n, k) {
      if !m.records[k].driver { assert Reachable(m, k); }
      assert Pending(m, k);
      if k !in m.todo && k == r && SettledWait(n, n.waiting) {
        DisposeReleased(n.records[k], n.waiting.task, limits);
      }
    }
  }

  lemma EnqueueHeld(m: Manager, r: nat, op: Op, limits: Limits)
    requires Inv(m, limits) && Held(m) && r < |m.records|
    ensures Held(EnqueueOn(m, r, op))
  {
    EnqueueSound(m.records[r], op, limits);
    EnqueueEvolves(m.records[r], op);
    ReplaceHeld(m, r, Enqueue(m.records[r], op), limits);
  }

  lemma HeldStep(m: Manager, e: Event, limits: Limits)
    requires Inv(m, limits) && Held(m)
    ensures Held(Next(m, e, limits))
  {
    match e
    case Call(key, op, now) =>
    case CallInfo(key) =>
    case CallClose(key) =>
    case Advance(r, t, input) =>
      if r < |m.records| && t < |m.records[r].tasks| {
        StepTaskSound(m.records[r], t, input, limits);
        StepEvolves(m.records[r], t, input, limits);
        LaunchNeedsOpen(m.records[r], t, input, limits);
        ReplaceHeld(m, r, StepTask(m.records[r], t, input, limits), limits);
        HeldAlike(m.(records := m.records[r := StepTask(m.records[r], t, input, limits)]), Next(m, e, limits));
      }
    case SweepBegin(order, now) => HeldAlike(m, Next(m, e, limits));
    case SweepStep(i) =>
      if i < |m.sweeps| && m.sweeps[i].todo != [] && m.sweeps[i].todo[0] < |m.records| {
        EnqueueHeld(m, m.sweeps[i].todo[0], Sweep, limits);
        var q := EnqueueOn(m, m.sweeps[i].todo[0], Sweep);
        HeldAlike(if Next(m, e, limits).records == q.records then q else m, Next(m, e, limits));
      } else {
        HeldAlike(m, Next(m, e, limits));
      }
    case DisposeBegin(_) =>
    case DisposeStep => HeldDisposeStep(m, limits);
  }

  /** What a browser waits for depends only on the records and on the disposal. */
  lemma HeldAlike(m: Manager, n: Manager)
    requires Held(m) && n.disposed == m.disposed && n.records == m.records && n.todo == m.todo && n.waiting == m.waiting
    ensures Held(n)
  {
    forall k | 0 <= k < |n.records| && n.records[k].driver ensures Pending(n, k) { assert Pending(m, k); }
  }

  lemma HeldDisposeStep(m: Manager, limits: Limits)
    requires Inv(m, limits) && Held(m)
    ensures Held(OnDisposeStep(m))
  {
    var n := OnDisposeStep(m);
    if SettledWait(m, m.waiting) {
      DisposeReleased(m.records[m.waiting.record], m.waiting.task, limits);
      forall k | 0 <= k < |n.records| && n.records[k].driver ensures Pending(n, k) { assert Pending(m, k); }
    } else if m.waiting.Idle? && m.todo != [] && m.todo[0] < |m.records| {
      EnqueueEvolves(m.records[m.todo[0]], Dispose);
      forall k | 0 <= k < |n.records| && n.records[k].driver ensures Pending(n, k) {
        assert m.records[k].driver && Pending(m, k);
        if k != m.todo[0] { assert k in m.todo[1..]; }
      }
    }
  }

  lemma {:induction false} HeldRun(m: Manager, events: seq<Event>, limits: Limits)
    requires Inv(m, limits) && Held(m)
    ensures Inv(Run(m, events, limits), limits) && Held(Run(m, events, limits))
  {
    if events != [] {
      var before := Run(m, events[..|events| - 1], limits);
      HeldRun(m, events[..|events| - 1], limits);
      HeldStep(before, events[|events| - 1], limits);
      StepSound(before, events[|events| - 1], limits);
    }
  }

  /** If every browser is current when dispose is called, none is left when it resolves. */
  lemma DisposeReleasesAll(m: Manager, order: seq<nat>, events: seq<Event>, limits: Limits)
    requires Inv(m, limits) && !m.disposed && Enumerates(order, m.sessions) && AllCurrent(m)
    ensures
      var n := Run(OnDisposeBegin(m, order), events, limits);
      DisposeDone(n) ==> AllReleased(n)
  {
    var begun := OnDisposeBegin(m, order);
    DisposeBeginSound(m, order, limits);
    assert Held(begun) by {
      forall r | 0 <= r < |begun.records| && begun.records[r].driver ensures Pending(begun, r) {
        assert m.sessions[m.records[r].key] in order;
      }
    }
    HeldRun(begun, events, limits);
    var n := Run(begun, events, limits);
    if DisposeDone(n) {
      forall r | 0 <= r < |n.records| ensures !n.records[r].driver { assert n.records[r].driver ==> Pending(n, r); }
    }
  }

  /** How far a task is from settling when the environment refuses everything it can. */
  function Distance(s: Stage): nat {
    match s
    case Waiting => 3
    case ClosingPages => 2
    case Settled(_) => 0
    case _ => 1
  }

  function Refusal(r: Record, t: nat, limits: Limits): Input
    requires t < |r.tasks|
  {
    match r.tasks[t].stage
    case Waiting => Begin(true, r.lastUsed + limits.idleTtlMs - 1, false)
    case Launching => Launched(false, false)
    case Creating(_) => Created(false)
    case Operating(_) => Operated(false)
    case Answering => Answered
    case ClosingPages => PagesClosed
    case ClosingDriver => DriverClosed
    case Settled(_) => PagesClosed
  }

  lemma RefusalAdvances(r: Record, t: nat, limits: Limits)
    requires t < |r.tasks| && !r.tasks[t].stage.Settled? && (r.tasks[t].stage.Waiting? ==> MayBegin(r, t))
    ensures
      var q := StepTask(r, t, Refusal(r, t, limits), limits);
      && Distance(q.tasks[t].stage) < Distance(r.tasks[t].stage)
      && |q.tasks| == |r.tasks| && forall u :: 0 <= u < |r.tasks| && u != t ==> q.tasks[u] == r.tasks[u]
    ensures !Removes(r, t, Refusal(r, t, limits))
  {
    match r.tasks[t].stage
    case Waiting =>
    case Launching =>
    case Creating(_) =>
    case Operating(_) =>
    case Answering =>
    case ClosingPages =>
    case ClosingDriver =>
  }

  lemma {:induction false} RunConcat(m: Manager, a: seq<Event>, b: seq<Event>, limits: Limits)
    ensures Run(m, a + b, limits) == Run(Run(m, a, limits), b, limits)
  {
    if b == [] {
      assert a + b == a;
    } else {
      assert (a + b)[..|a + b| - 1] == a + b[..|b| - 1];
      RunConcat(m, a, b[..|b| - 1], limits);
    }
  }

  lemma RunOne(m: Manager, e: Event, limits: Limits)
    ensures Run(m, [e], limits) == Next(m, e, limits)
  {
    assert [e][..0] == [];
    assert Run(m, [], limits) == m;
  }

  /** `n` differs from `m` only in record `q`. */
  ghost predicate OnlyRecord(m: Manager, n: Manager, q: nat) {
    && |n.records| == |m.records| && (forall k :: 0 <= k < |m.records| && k != q ==> n.records[k] == m.records[k])
    && n.sessions == m.sessions && n.disposed == m.disposed && n.sweeps == m.sweeps && n.todo == m.todo && n.waiting == m.waiting
  }

  /** Any task whose turn it is can be settled without touching another record. */
  lemma {:induction false} SettleTask(m: Manager, q: nat, t: nat, limits: Limits) returns (events: seq<Event>)
    requires Inv(m, limits) && q < |m.records| && t < |m.records[q].tasks|
    requires m.records[q].tasks[t].stage.Waiting? ==> MayBegin(m.records[q], t)
    ensures
      var n := Run(m, events, limits);
      && Inv(n, limits) && OnlyRecord(m, n, q) && |n.records[q].tasks| == |m.records[q].tasks|
      && n.records[q].tasks[t].stage.Settled?
      && (forall u :: 0 <= u < |m.records[q].tasks| && u != t ==> n.records[q].tasks[u] == m.records[q].tasks[u])
    decreases Distance(m.records[q].tasks[t].stage)
  {
    if m.records[q].tasks[t].stage.Settled? {
      events := [];
    } else {
      var e := Advance(q, t, Refusal(m.records[q], t, limits));
      RefusalAdvances(m.records[q], t, limits);
      var next := Next(m, e, limits);
      StepSound(m, e, limits);
      NotWaiting(m.records[q], t, limits);
      var rest := SettleTask(next, q, t, limits);
      events := [e] + rest;
      RunConcat(m, [e], rest, limits);
      RunOne(m, e, limits);
    }
  }

  lemma NotWaiting(r: Record, t: nat, limits: Limits)
    requires t < |r.tasks| && !r.tasks[t].stage.Settled? && (r.tasks[t].stage.Waiting? ==> MayBegin(r, t))
    ensures !StepTask(r, t, Refusal(r, t, limits), limits).tasks[t].stage.Waiting?
  {
    RefusalAdvances(r, t, limits);
  }

  lemma TurnComes(r: Record, t: nat)
    requires Chained(r) && t < |r.tasks| && (t > 0 ==> r.tasks[t - 1].stage.Settled?)
    ensures r.tasks[t].stage.Waiting? ==> MayBegin(r, t)
  {
    assert r.tasks[t].after == if t == 0 then None else Some(t - 1);
  }

  lemma OnlyRecordOn(m: Manager, n: Manager, p: Manager, q: nat)
    requires OnlyRecord(m, n, q) && OnlyRecord(n, p, q)
    ensures OnlyRecord(m, p, q)
  {}

  /** The chain of one record can be settled up to any task. */
  lemma {:induction false} SettleUpTo(m: Manager, q: nat, t: nat, limits: Limits) returns (events: seq<Event>)
    requires Inv(m, limits) && q < |m.records| && t < |m.records[q].tasks|
    ensures
      var n := Run(m, events, limits);
      && Inv(n, limits) && OnlyRecord(m, n, q) && |n.records[q].tasks| == |m.records[q].tasks|
      && n.records[q].tasks[t].stage.Settled?
    decreases t
  {
    var before: seq<Event> := [];
    if t > 0 { before := SettleUpTo(m, q, t - 1, limits); }
    var n := Run(m, before, limits);
    assert RecordSound(n.records[q], limits);
    TurnComes(n.records[q], t);
    var rest := SettleTask(n, q, t, limits);
    OnlyRecordOn(m, n, Run(n, rest, limits), q);
    events := before + rest;
    RunConcat(m, before, rest, limits);
  }

  /** The disposal can run to its end without touching a record it does not wait for. */
  lemma {:induction false} DisposalCanEnd(m: Manager, r: nat, limits: Limits) returns (events: seq<Event>)
    requires Inv(m, limits) && m.disposed && r < |m.records| && !Pending(m, r)
    requires SettledWait(m, m.waiting) ==> m.waiting.record != r
    ensures
      var n := Run(m, events, limits);
      DisposeDone(n) && r < |n.records| && n.records[r] == m.records[r]
    decreases |m.todo|, if m.waiting.On? then 1 else 0
  {
    if m.waiting.On? {
      var q, t := m.waiting.record, m.waiting.task;
      var settle := SettleUpTo(m, q, t, limits);
      var n := Run(m, settle, limits);
      var after := Next(n, DisposeStep, limits);
      StepSound(n, DisposeStep, limits);
      var rest := DisposalCanEnd(after, r, limits);
      events := settle + [DisposeStep] + rest;
      RunConcat(m, settle + [DisposeStep], rest, limits);
      RunConcat(m, settle, [DisposeStep], limits);
      RunOne(n, DisposeStep, limits);
    } else if m.todo != [] {
      var next := Next(m, DisposeStep, limits);
      assert m.todo[0] in m.todo;
      StepSound(m, DisposeStep, limits);
      var rest := DisposalCanEnd(next, r, limits);
      events := [DisposeStep] + rest;
      RunConcat(m, [DisposeStep], rest, limits);
      RunOne(m, DisposeStep, limits);
    } else {
      events := [];
    }
  }

  /**
   * Exactly when dispose leaves no browser behind: every continuation in which it resolves has released
   * all of them if and only if, at the call, no close was still in flight on a record already out of the map.
   */
  lemma DisposeReleasesIff(m: Manager, order: seq<nat>, limits: Limits)
    requires Inv(m, limits) && !m.disposed && Enumerates(order, m.sessions)
    ensures AllCurrent(m) <==>
      forall events :: DisposeDone(Run(OnDisposeBegin(m, order), events, limits)) ==> AllReleased(Run(OnDisposeBegin(m, order), events, limits))
  {
    var begun := OnDisposeBegin(m, order);
    if AllCurrent(m) {
      forall events | DisposeDone(Run(begun, events, limits)) ensures AllReleased(Run(begun, events, limits)) {
        DisposeReleasesAll(m, order, events, limits);
      }
    } else {
      var r :| 0 <= r < |m.records| && m.records[r].driver && !(Known(m, m.records[r].key) && m.sessions[m.records[r].key] == r);
      DisposeBeginSound(m, order, limits);
      assert r !in order;
      var events := DisposalCanEnd(begun, r, limits);
      assert DisposeDone(Run(begun, events, limits)) && !AllReleased(Run(begun, events, limits));
    }
  }

  lemma Snoc(events: seq<Event>, e: Event, limits: Limits)
    ensures Run(Init(), events + [e], limits) == Next(Run(Init(), events, limits), e, limits)
  {
    RunConcat(Init(), events, [e], limits);
    RunOne(Run(Init(), events, limits), e, limits);
  }

  const LIMITS := Limits(8, 600000)

  function OneSession(driver: bool, stage: Stage): Manager {
    Manager([Record("k", driver, [], None, false, None, 0, [Task(Use(Default, true), None, stage)], Some(0))], map["k" := 0], false, [], [], Idle)
  }

  lemma FirstUse()
    ensures Next(Init(), Call("k", Use(Default, true), 0), LIMITS) == OneSession(false, Waiting)
    ensures Next(OneSession(false, Waiting), Advance(0, 0, Begin(false, 0, true)), LIMITS) == OneSession(false, Launching)
    ensures Next(OneSession(false, Launching), Advance(0, 0, Launched(true, true)), LIMITS) == OneSession(true, Settled(false))
  {
    var m := Next(Init(), Call("k", Use(Default, true), 0), LIMITS);
    assert m.records[0].tasks == [Task(Use(Default, true), None, Waiting)];
    assert m.records == OneSession(false, Waiting).records && m.sessions == map["k" := 0];
    OneStep(OneSession(false, Waiting), Begin(false, 0, true), Launching);
    OneStep(OneSession(false, Launching), Launched(true, true), Settled(false));
  }

  lemma OneStep(m: Manager, input: Input, stage: Stage)
    requires |m.records| == 1 && |m.records[0].tasks| == 1
    requires StepTask(m.records[0], 0, input, LIMITS).tasks == m.records[0].tasks[0 := m.records[0].tasks[0].(stage := stage)]
    requires !m.records[0].tasks[0].op.CloseSession?
    ensures Next(m, Advance(0, 0, input), LIMITS)
         == m.(records := [StepTask(m.records[0], 0, input, LIMITS).(tasks := [m.records[0].tasks[0].(stage := stage)])])
  {
    var q := StepTask(m.records[0], 0, input, LIMITS);
    assert q.tasks == [m.records[0].tasks[0].(stage := stage)];
    assert m.records[0 := q] == [q];
  }

  function ClosingSession(stage: Stage, sessions: map<string, nat>): Manager {
    var closing := stage.ClosingPages?;
    Manager([Record("k", true, [], None, closing, if closing then Some(1) else None, 0,
                    [Task(Use(Default, true), None, Settled(false)), Task(CloseSession, Some(0), stage)], Some(1))], sessions, false, [], [], Idle)
  }

  lemma ThenClose()
    ensures Next(OneSession(true, Settled(false)), CallClose("k"), LIMITS) == ClosingSession(Waiting, map["k" := 0])
    ensures Next(ClosingSession(Waiting, map["k" := 0]), Advance(0, 1, Begin(false, 0, true)), LIMITS) == ClosingSession(ClosingPages, map[])
  {
    var m := OneSession(true, Settled(false));
    var n := Next(m, CallClose("k"), LIMITS);
    assert n.records[0].tasks == [Task(Use(Default, true), None, Settled(false)), Task(CloseSession, Some(0), Waiting)];
    assert n.records == ClosingSession(Waiting, map["k" := 0]).records;
    var w := ClosingSession(Waiting, map["k" := 0]);
    var c := Next(w, Advance(0, 1, Begin(false, 0, true)), LIMITS);
    assert c.records[0].tasks == [Task(Use(Default, true), None, Settled(false)), Task(CloseSession, Some(0), ClosingPages)];
    assert c.records == ClosingSession(ClosingPages, map[]).records;
    assert map["k" := 0] - {"k"} == map[];
  }

  /** Such a state is real: close a session whose browser runs, and dispose while its driver is still closing. */
  lemma DisposeCanLeaveBrowser() returns (events: seq<Event>)
    ensures
      var m := Run(Init(), events, LIMITS);
      DisposeDone(m) && |m.records| == 1 && m.records[0].closed && m.records[0].driver
  {
    FirstUse();
    ThenClose();
    events := [];
    Snoc(events, Call("k", Use(Default, true), 0), LIMITS);
    events := events + [Call("k", Use(Default, true), 0)];
    Snoc(events, Advance(0, 0, Begin(false, 0, true)), LIMITS);
    events := events + [Advance(0, 0, Begin(false, 0, true))];
    Snoc(events, Advance(0, 0, Launched(true, true)), LIMITS);
    events := events + [Advance(0, 0, Launched(true, true))];
    Snoc(events, CallClose("k"), LIMITS);
    events := events + [CallClose("k")];
    Snoc(events, Advance(0, 1, Begin(false, 0, true)), LIMITS);
    events := events + [Advance(0, 1, Begin(false, 0, true))];
    Snoc(events, DisposeBegin([]), LIMITS);
    events := events + [DisposeBegin([])];
  }
}
