/** `BrowseSessionManager` with its fields updated in place (src/browse/session.ts); each method is what runs between two awaits. */
module BrowseSessionManager {
  import opened BenchTypes
  import opened Session
  import opened SessionManager

  class BrowseSessionManager {
    const limits: Limits
    var records: seq<Record>
    var sessions: map<string, nat>
    var disposed: bool
    var sweeps: seq<Sweeping>
    var todo: seq<nat>
    var waiting: Wait

    ghost function Now(): Manager
      reads this
    {
      Manager(records, sessions, disposed, sweeps, todo, waiting)
    }

    ghost predicate Valid()
      reads this
    {
      Inv(Now(), limits)
    }

    constructor (limits: Limits)
      ensures Valid() && Now() == Init() && this.limits == limits
    {
      this.limits := limits;
      records, sessions, disposed, sweeps, todo, waiting := [], map[], false, [], [], Idle;
      new;
      RunSound([], limits);
    }

    /** Whatever happens next, the invariant is kept. */
    method Handle(e: Event)
      requires Valid()
      modifies this
      ensures Valid() && Now() == Next(old(Now()), e, limits)
    {
      match e
      case Call(key, op, now) => Call(key, op, now);
      case CallInfo(key) => CallInfo(key);
      case CallClose(key) => CallClose(key);
      case Advance(r, t, input) => Advance(r, t, input);
      case SweepBegin(order, now) => if Enumerates(order, sessions) { SweepBegin(order, now); }
      case SweepStep(i) => SweepStep(i);
      case DisposeBegin(order) => if Enumerates(order, sessions) { DisposeBegin(order); }
      case DisposeStep => DisposeStep();
    }

    /**
     * A whole life of the manager, in any interleaving of calls, task steps, sweeps and disposal. In its fields: every
     * session runs one task at a time and keeps a sound page table; every record that is not closed is in the map
     * until dispose; once dispose has resolved every record ever created is closed; and every operation under way works
     * on the page it was asked for.
     */
    method Execute(events: seq<Event>)
      requires Valid() && Now() == Init()
      modifies this
      ensures Valid() && Now() == Run(Init(), events, limits)
      ensures forall r :: 0 <= r < |records| ==> Serial(records[r]) && PageTable(records[r], limits) && ClosedSound(records[r])
      ensures forall r :: 0 <= r < |records| && !disposed && !records[r].closed ==> records[r].key in sessions && sessions[records[r].key] == r
      ensures disposed && todo == [] && waiting.Idle? ==> forall r :: 0 <= r < |records| ==> records[r].closed
      ensures forall r, t :: 0 <= r < |records| && 0 <= t < |records[r].tasks| ==> OnRightPage(records[r], records[r].tasks[t].op, records[r].tasks[t].stage)
    {
      for n := 0 to |events|
        invariant Valid() && Now() == Run(Init(), events[..n], limits)
      {
        assert events[..n + 1][..n] == events[..n];
        Handle(events[n]);
      }
      assert events[..|events|] == events;
      forall r, t | 0 <= r < |records| && 0 <= t < |records[r].tasks| ensures OnRightPage(records[r], records[r].tasks[t].op, records[r].tasks[t].stage) {
        RightPage(events, limits, r, t);
      }
      forall r | 0 <= r < |records|
        ensures Serial(records[r]) && PageTable(records[r], limits) && ClosedSound(records[r])
        ensures !disposed && !records[r].closed ==> records[r].key in sessions && sessions[records[r].key] == r
        ensures disposed && todo == [] && waiting.Idle? ==> records[r].closed
      {
        NoLeakedBrowser(events, limits, r);
        assert RecordSound(records[r], limits);
      }
    }

    /** Appends a task to a record's queue. */
    method EnqueueTask(r: nat, op: Op)
      requires r < |records|
      modifies this`records
      ensures Now() == EnqueueOn(old(Now()), r, op)
    {
      records := records[r := Enqueue(records[r], op)];
    }

    /** `recordFor`. */
    method FindRecord(key: string, now: int) returns (r: nat)
      modifies this`records, this`sessions
      ensures (Now(), r) == RecordFor(old(Now()), key, now)
      ensures r < |records| && !records[r].closed && key in sessions && sessions[key] == r
      ensures forall k :: 0 <= k < |old(records)| ==> k < |records| && records[k] == old(records)[k]
    {
      if key in sessions && sessions[key] < |records| && !records[sessions[key]].closed { return sessions[key]; }
      r := |records|;
      records := records + [NewRecord(key, now)];
      sessions := sessions[key := r];
    }

    /** `run`, `ensure`, `pages`, `newPage`, `selectPage` and `closePage` up to their first await. */
    method Call(key: string, op: Op, now: int)
      requires Valid()
      modifies this
      ensures Valid() && Now() == Next(old(Now()), Event.Call(key, op, now), limits)
    {
      StepSound(Now(), Event.Call(key, op, now), limits);
      if disposed || !NeedsOpen(op) { return; }
      var r := FindRecord(key, now);
      EnqueueTask(r, op);
    }

    /** `info` looks at an existing record only. */
    method CallInfo(key: string)
      requires Valid()
      modifies this
      ensures Valid() && Now() == Next(old(Now()), Event.CallInfo(key), limits)
    {
      StepSound(Now(), Event.CallInfo(key), limits);
      if !disposed && key in sessions && sessions[key] < |records| { EnqueueTask(sessions[key], Info); }
    }

    /** `close` of one session. */
    method CallClose(key: string)
      requires Valid()
      modifies this
      ensures Valid() && Now() == Next(old(Now()), Event.CallClose(key), limits)
    {
      StepSound(Now(), Event.CallClose(key), limits);
      if key in sessions && sessions[key] < |records| { EnqueueTask(sessions[key], CloseSession); }
    }

    method Forget(key: string, r: nat)
      modifies this`sessions
      ensures sessions == Drop(old(sessions), key, r)
    {
      if key in sessions && sessions[key] == r { sessions := sessions - {key}; }
    }

    /** A queued task begins, or one of its awaits resolves. */
    method Advance(r: nat, t: nat, input: Input)
      requires Valid()
      modifies this
      ensures Valid() && Now() == Next(old(Now()), Event.Advance(r, t, input), limits)
    {
      StepSound(Now(), Event.Advance(r, t, input), limits);
      if r >= |records| || t >= |records[r].tasks| { return; }
      var record := records[r];
      records := records[r := StepTask(record, t, input, limits)];
      if Removes(record, t, input) { Forget(record.key, r); }
    }

    /** `sweepIdle` starts from the records of the moment. */
    method SweepBegin(order: seq<nat>, now: int)
      requires Valid() && Enumerates(order, sessions)
      modifies this
      ensures Valid() && Now() == Next(old(Now()), Event.SweepBegin(order, now), limits)
    {
      StepSound(Now(), Event.SweepBegin(order, now), limits);
      sweeps := sweeps + [Sweeping(order, now, Idle)];
    }

    /** One turn of `sweepIdle`. */
    method SweepStep(i: nat)
      requires Valid()
      modifies this
      ensures Valid() && Now() == Next(old(Now()), Event.SweepStep(i), limits)
    {
      StepSound(Now(), Event.SweepStep(i), limits);
      if i >= |sweeps| { return; }
      var w := sweeps[i];
      var settled := Settled(w.waiting);
      if settled {
        var record := records[w.waiting.record];
        sweeps := sweeps[i := w.(waiting := Idle)];
        if record.tasks[w.waiting.task].stage.ok { Forget(record.key, w.waiting.record); }
      } else if w.waiting.Idle? && w.todo != [] && w.todo[0] < |records| {
        VisitRecord(i, w.todo[0]);
      }
    }

    method Settled(w: Wait) returns (settled: bool)
      ensures settled == SettledWait(Now(), w)
    {
      return w.On? && w.record < |records| && w.task < |records[w.record].tasks| && records[w.record].tasks[w.task].stage.Settled?;
    }

    /** Queue a sweep task unless the record was used recently. */
    method VisitRecord(i: nat, r: nat)
      requires i < |sweeps| && r < |records| && sweeps[i].todo != [] && sweeps[i].todo[0] == r && sweeps[i].waiting.Idle?
      modifies this`sweeps, this`records
      ensures Now() == OnSweepStep(old(Now()), i, limits)
    {
      var w := sweeps[i];
      if w.now - records[r].lastUsed < limits.idleTtlMs {
        sweeps := sweeps[i := w.(todo := w.todo[1..])];
      } else {
        sweeps := sweeps[i := w.(todo := w.todo[1..], waiting := On(r, |records[r].tasks|))];
        EnqueueTask(r, Sweep);
      }
    }

    /** `dispose` takes every current record and empties the map. */
    method DisposeBegin(order: seq<nat>)
      requires Valid() && Enumerates(order, sessions)
      modifies this
      ensures Valid() && Now() == Next(old(Now()), Event.DisposeBegin(order), limits)
    {
      StepSound(Now(), Event.DisposeBegin(order), limits);
      if disposed { return; }
      disposed, sessions, todo, waiting := true, map[], order, Idle;
    }

    /** One turn of the disposal. */
    method DisposeStep()
      requires Valid()
      modifies this
      ensures Valid() && Now() == Next(old(Now()), Event.DisposeStep, limits)
    {
      StepSound(Now(), Event.DisposeStep, limits);
      if !disposed { return; }
      var settled := Settled(waiting);
      if settled {
        waiting := Idle;
      } else if waiting.Idle? && todo != [] && todo[0] < |records| {
        var r := todo[0];
        todo, waiting := todo[1..], On(r, |records[r].tasks|);
        EnqueueTask(r, Dispose);
      }
    }
  }
}
