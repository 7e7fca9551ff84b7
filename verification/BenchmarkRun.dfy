/** `runBenchmark` with its shared variables updated in place (src/benchmark/runner.ts). */
module BenchmarkRun {
  import opened BenchTypes
  import opened Report
  import opened Runner
  import opened RunHistory
  import opened Scheduler
  import opened Sorting
  import opened Store

  class BenchmarkRun {
    const plan: Plan
    const store: BenchmarkStore
    var cursor: nat
    var aborted: bool
    var trials: seq<Trial>
    var consumers: seq<Consumer>
    var ended: Ended
    ghost var order: seq<nat>
    ghost var lost: set<nat>
    ghost var late: set<nat>
    ghost var executed: set<nat>

    ghost function Now(): State
      reads this, store
    {
      State(cursor, aborted, trials, store.db, consumers, ended, order, lost, late, executed)
    }

    ghost predicate Valid()
      reads this, store
    {
      Loaded(plan) && Inv(plan, Now()) && store.Valid()
    }

    constructor (plan: Plan, concurrency: nat, aborted: bool)
      requires Loaded(plan)
      ensures Valid() && fresh(store) && this.plan == plan && Now() == Init(plan, concurrency, aborted)
    {
      this.plan := plan;
      store := new BenchmarkStore();
      cursor, this.aborted, trials := 0, aborted, [];
      consumers, ended := AllReady(concurrency), InProgress;
      order, lost, late, executed := [], {}, {}, {};
      new;
      var created := store.Create(InitialRecord(plan));
      assert store.db == Tables([InitialRecord(plan)], []);
      Reachable(plan, concurrency, aborted, []);
    }

    /** The caller's signal aborts the controller. */
    method Abort()
      requires Valid()
      modifies this, store
      ensures Valid() && Now() == Next(plan, old(Now()), AbortSignal)
    {
      ghost var before := Now();
      aborted := true;
      NextKeepsInv(plan, before, AbortSignal);
    }

    /** `cursor++`: the job is late when the run was aborted before it was taken. */
    method TakeJob(takes: bool)
      modifies this`cursor, this`late
      ensures cursor == if takes then old(cursor) + 1 else old(cursor)
      ensures late == old(late) + if takes && aborted && old(cursor) < |plan.jobs| then {old(cursor)} else {}
    {
      if takes {
        late := late + if aborted && cursor < |plan.jobs| then {cursor} else {};
        cursor := cursor + 1;
      }
    }

    /** `store.recordTrial` and `record.trials.push`, if the step got that far. */
    method Record(t: Option<Trial>, c: Consumer)
      requires store.Valid() && (t.Some? ==> !HasTrial(store.db, plan.runId, t.value.id))
      modifies this`trials, this`order, store
      ensures store.Valid() && trials == old(trials) + if t.Some? then [t.value] else []
      ensures store.db == old(store.db).(rows := old(store.db).rows + if t.Some? then [Row(plan.runId, t.value)] else [])
      ensures order == old(order) + if t.Some? && Busy(c) then [c.index] else []
    {
      if t.Some? {
        var stored := store.RecordTrial(plan.runId, t.value);
        trials := trials + [t.value];
        order := order + if Busy(c) then [c.index] else [];
      }
    }

    /** The abort flag, the histories and the consumer's own place. */
    method Move(k: nat, e: Effect)
      requires k < |consumers|
      modifies this`aborted, this`executed, this`lost, this`consumers
      ensures aborted == (old(aborted) || e.aborts) && consumers == old(consumers)[k := e.next]
      ensures var c := old(consumers)[k];
        && executed == old(executed) + (if e.executes && Busy(c) then {c.index} else {})
        && lost == old(lost) + (if Busy(c) && !Busy(e.next) && e.recorded.None? then {c.index} else {})
    {
      var c := consumers[k];
      if e.aborts { aborted := true; }
      executed := executed + if e.executes && Busy(c) then {c.index} else {};
      lost := lost + if Busy(c) && !Busy(e.next) && e.recorded.None? then {c.index} else {};
      consumers := consumers[k := e.next];
    }

    /** What one consumer does between two awaits, on the shared variables. */
    method Perform(k: nat, e: Effect)
      requires k < |consumers| && store.Valid()
      requires e.recorded.Some? ==> !HasTrial(store.db, plan.runId, e.recorded.value.id)
      modifies this, store
      ensures store.Valid() && Now() == Apply(plan, old(Now()), k, e)
    {
      ghost var want := Apply(plan, Now(), k, e);
      TakeJob(e.takes);
      Record(e.recorded, consumers[k]);
      Move(k, e);
      assert cursor == want.cursor && late == want.late && aborted == want.aborted && store.db == want.db && trials == want.trials;
      assert order == want.order && executed == want.executed && lost == want.lost && consumers == want.consumers && ended == want.ended;
    }

    /** A consumer's await resolves. */
    method Advance(k: nat, input: Input)
      requires Valid() && EventKept(plan, Now(), Event.Advance(k, input))
      modifies this, store
      ensures Valid() && Now() == Next(plan, old(Now()), Event.Advance(k, input))
    {
      ghost var before := Now();
      NextKeepsInv(plan, before, Event.Advance(k, input));
      if ended.InProgress? && k < |consumers| && InPlan(plan, consumers[k]) {
        var e := Step(plan, cursor, aborted, consumers[k], Insertable(plan, store.db, consumers[k], input));
        KeyIsFree(plan, before, k, input);
        Perform(k, e);
      }
    }

    /** After `Promise.allSettled`. */
    method Settle(completedAt: string, saving: Saving)
      requires Valid()
      modifies this, store
      ensures Valid() && Now() == Next(plan, old(Now()), Event.Settle(completedAt, saving))
    {
      NextKeepsInv(plan, Now(), Event.Settle(completedAt, saving));
      if ended.InProgress? && AllEnded(consumers) { FinishRun(completedAt, saving); }
    }

    /** A rejected consumer or a failed update fails the run; otherwise the final record goes to the store. */
    method FinishRun(completedAt: string, saving: Saving)
      requires ended.InProgress? && AllEnded(consumers) && store.Valid()
      modifies this`ended, store
      ensures store.Valid() && Now() == OnSettle(plan, old(Now()), completedAt, saving)
    {
      if AnyRejected(consumers) || saving.UpdateFails? {
        ended := Failed;
        return;
      }
      var record := SealedRecord(completedAt);
      store.Finish(record);
      ended := if saving.WriteFails? then Unsaved(record) else Resolved(record);
    }

    /** The trials in id order, and completed only if every planned one was scored. */
    method SealedRecord(completedAt: string) returns (record: RunRecord)
      ensures record == FinalRecord(plan, trials, completedAt)
    {
      record := InitialRecord(plan).(trials := SortBy(trials, IdLe), completedAt := Some(completedAt));
      var complete := |record.trials| == record.plannedTrials && AllScored(record.trials);
      record := record.(status := if complete then RunCompleted else RunIncomplete);
    }

    /** Whatever happens next, the invariant is kept. */
    method Handle(e: Event)
      requires Valid() && EventKept(plan, Now(), e)
      modifies this, store
      ensures Valid() && Now() == Next(plan, old(Now()), e)
    {
      match e
      case AbortSignal => Abort();
      case Advance(k, input) => Advance(k, input);
      case Settle(completedAt, saving) => Settle(completedAt, saving);
    }

    method Play(ghost start: State, events: seq<Event>)
      requires Valid() && Now() == start && Kept(plan, start, events)
      modifies this, store
      ensures Valid() && Now() == Run(plan, start, events)
    {
      for n := 0 to |events|
        invariant Valid() && Now() == Run(plan, start, events[..n])
      {
        assert events[..n + 1][..n] == events[..n];
        Handle(events[n]);
      }
      assert events[..|events|] == events;
    }

    /** A whole run, whatever the interleaving and the outcome of every await within contract: it keeps every promise. */
    method Execute(ghost concurrency: nat, ghost wasAborted: bool, events: seq<Event>)
      requires Valid() && Now() == Init(plan, concurrency, wasAborted) && Kept(plan, Init(plan, concurrency, wasAborted), events)
      modifies this, store
      ensures Valid() && Now() == Run(plan, Init(plan, concurrency, wasAborted), events)
      ensures Promised(plan, concurrency, Now(), Histories(plan, Init(plan, concurrency, wasAborted), events))
    {
      Play(Init(plan, concurrency, wasAborted), events);
      RunPromised(plan, concurrency, wasAborted, events);
    }
  }

  /**
   * What a run promises of its fields and its store: the record it ends with is valid and, with a consumer at work, holds one
   * trial per job in job order; at any time the store reads back as a valid record with exactly the trials recorded so far,
   * and as the final record once there is one; every trial is the one its job's history calls for; and the record is
   * completed exactly when every planned trial was scored.
   */
  ghost predicate Promised(plan: Plan, concurrency: nat, s: State, hs: seq<JobHistory>) {
    && |hs| == |plan.jobs| && TrialsMatch(plan, s, hs)
    && |s.db.runs| == 1 && ValidRecord(Assembled(s.db)) && multiset(Assembled(s.db).trials) == multiset(s.trials)
    && (Sealed(s.ended) ==> SealPromised(plan, concurrency, s, hs))
  }

  ghost predicate SealPromised(plan: Plan, concurrency: nat, s: State, hs: seq<JobHistory>)
    requires Sealed(s.ended) && |s.db.runs| == 1 && |hs| == |plan.jobs|
  {
    && ValidRecord(s.ended.record) && Assembled(s.db) == s.ended.record
    && (concurrency >= 1 ==>
          |s.ended.record.trials| == |plan.jobs| && forall k :: 0 <= k < |plan.jobs| ==> IsTrialOf(plan, k, hs[k], s.ended.record.trials[k]))
    && (s.ended.record.status.RunCompleted? <==> |s.trials| == |plan.jobs| && AllScored(s.trials))
  }

  lemma RunPromised(plan: Plan, concurrency: nat, aborted: bool, events: seq<Event>)
    requires Loaded(plan) && Kept(plan, Init(plan, concurrency, aborted), events)
    ensures Promised(plan, concurrency, Run(plan, Init(plan, concurrency, aborted), events), Histories(plan, Init(plan, concurrency, aborted), events))
  {
    ProducedRecordValid(plan, concurrency, aborted, events);
    CrashConsistent(plan, concurrency, aborted, events);
    TrialsTellWhatHappened(plan, concurrency, aborted, events);
    FinalRecordMeans(plan, concurrency, aborted, events);
  }

  /** A step records a trial only when its key is free. */
  lemma KeyIsFree(plan: Plan, s: State, k: nat, input: Input)
    requires k < |s.consumers| && InPlan(plan, s.consumers[k])
    ensures var e := Step(plan, s.cursor, s.aborted, s.consumers[k], Insertable(plan, s.db, s.consumers[k], input));
      e.recorded.Some? ==> !HasTrial(s.db, plan.runId, e.recorded.value.id)
  {
    match s.consumers[k]
    case Ready =>
    case MakingRoot(_) =>
    case Materialising(_) =>
    case Executing(_) =>
    case Capturing(_, _) =>
    case GradingWorkspace(_, _, _) =>
    case Removing(_, _) =>
    case Recording(_, _) =>
    case Finished =>
    case Rejected =>
  }
}
