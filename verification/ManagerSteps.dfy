/** What each call and each turn of the manager's loops does to its sessions (src/browse/session.ts), said without the step functions. */
module ManagerSteps {
  import opened BenchTypes
  import opened Session
  import opened SessionManager

  /** One more task, waiting at the end of the queue of record `r`; every other record as before. */
  ghost predicate Queued(m: Manager, n: Manager, r: nat, op: Op) {
    && r < |n.records| && |m.records| <= |n.records| <= |m.records| + 1
    && (forall k :: 0 <= k < |m.records| && k != r ==> n.records[k] == m.records[k])
    && (if r < |m.records| then n.records[r] == m.records[r].(tasks := n.records[r].tasks, tail := n.records[r].tail) && |n.records| == |m.records|
        else r == |m.records| && !n.records[r].closed && !n.records[r].driver && n.records[r].pages == [])
    && n.records[r].tasks != [] && n.records[r].tasks == (if r < |m.records| then m.records[r].tasks else []) + [n.records[r].tasks[|n.records[r].tasks| - 1]]
    && n.records[r].tasks[|n.records[r].tasks| - 1].op == op && n.records[r].tasks[|n.records[r].tasks| - 1].stage.Waiting?
  }

  /** An operation goes to the open session of its key, or to a new one; after dispose it is refused. */
  lemma CallMeans(m: Manager, key: string, op: Op, now: int, limits: Limits)
    requires Inv(m, limits) && NeedsOpen(op)
    ensures
      var n := Next(m, Call(key, op, now), limits);
      if m.disposed then n == m
      else
        && key in n.sessions
        && var r := n.sessions[key];
        && Queued(m, n, r, op) && n.records[r].key == key && !n.records[r].closed
        && (key in m.sessions && !m.records[m.sessions[key]].closed ==> n.sessions == m.sessions)
        && (key in m.sessions ==> m.records[m.sessions[key]].closed || r == m.sessions[key])
        && (forall k :: k in m.sessions && k != key ==> k in n.sessions && n.sessions[k] == m.sessions[k])
        && (forall k :: k in n.sessions && k != key ==> k in m.sessions)
  {}

  /** Closing or looking at a session that is not there does nothing; otherwise it queues behind what was asked before. */
  lemma CallKnownMeans(m: Manager, key: string, limits: Limits)
    requires Inv(m, limits)
    ensures
      var n := Next(m, CallClose(key), limits);
      n.sessions == m.sessions && if key in m.sessions then Queued(m, n, m.sessions[key], CloseSession) else n == m
    ensures
      var n := Next(m, CallInfo(key), limits);
      n.sessions == m.sessions && if key in m.sessions && !m.disposed then Queued(m, n, m.sessions[key], Info) else n == m
  {}

  /** A sweep looks at its records in order, and queues a closing task exactly for those that have been idle long enough. */
  lemma SweepMeans(m: Manager, i: nat, limits: Limits)
    requires Inv(m, limits) && i < |m.sweeps| && m.sweeps[i].waiting.Idle? && m.sweeps[i].todo != []
    ensures
      var n, w := Next(m, SweepStep(i), limits), m.sweeps[i];
      && w.todo[0] < |m.records| && |n.sweeps| == |m.sweeps| && n.sweeps[i].todo == w.todo[1..] && n.sweeps[i].now == w.now
      && (if w.now - m.records[w.todo[0]].lastUsed >= limits.idleTtlMs
          then Queued(m, n, w.todo[0], Sweep) && n.sweeps[i].waiting == On(w.todo[0], |m.records[w.todo[0]].tasks|)
          else n.records == m.records && n.sweeps[i].waiting.Idle?)
  {
    assert m.sweeps[i].todo[0] in m.sweeps[i].todo;
  }

  /** A sweep that closed its record takes it out of the map, unless the key has a new one. */
  lemma SweptMeans(m: Manager, i: nat, limits: Limits)
    requires Inv(m, limits) && i < |m.sweeps| && SettledWait(m, m.sweeps[i].waiting)
    ensures
      var n, w := Next(m, SweepStep(i), limits), m.sweeps[i].waiting;
      var key, swept := m.records[w.record].key, m.records[w.record].tasks[w.task].stage.ok;
      && n.records == m.records && n.sweeps[i].waiting.Idle?
      && n.sessions == if swept && key in m.sessions && m.sessions[key] == w.record then m.sessions - {key} else m.sessions
  {}

  /** Dispose empties the map at once, then closes the records it held one after the other. */
  lemma DisposeMeans(m: Manager, order: seq<nat>, limits: Limits)
    requires Inv(m, limits)
    ensures !m.disposed && Enumerates(order, m.sessions) ==>
      var n := Next(m, DisposeBegin(order), limits);
      n.disposed && n.sessions == map[] && n.todo == order && n.records == m.records
    ensures m.disposed && m.waiting.Idle? && m.todo != [] ==>
      var n := Next(m, DisposeStep, limits);
      m.todo[0] < |m.records| && n.todo == m.todo[1..] && Queued(m, n, m.todo[0], Dispose) && n.waiting == On(m.todo[0], |m.records[m.todo[0]].tasks|)
  {
    if m.todo != [] { assert m.todo[0] in m.todo; }
  }
}
