/** The durable store of a run (src/benchmark/store.ts): two tables with primary keys, and the read side. */
module Store {
  import opened BenchTypes
  import opened Report
  import opened Sorting
  import opened Strings

  datatype Row = Row(runId: string, trial: Trial)

  /** The `runs` and `trials` tables. */
  datatype Tables = Tables(runs: seq<RunRecord>, rows: seq<Row>)

  predicate HasRun(db: Tables, id: string) { exists i :: 0 <= i < |db.runs| && db.runs[i].id == id }

  predicate HasTrial(db: Tables, runId: string, id: string) {
    exists i :: 0 <= i < |db.rows| && db.rows[i].runId == runId && db.rows[i].trial.id == id
  }

  /** `UPDATE runs SET body = ? WHERE id = ?`. */
  function UpdateRun(runs: seq<RunRecord>, body: RunRecord): (r: seq<RunRecord>)
    ensures |r| == |runs|
  {
    seq(|runs|, i requires 0 <= i < |runs| => if runs[i].id == body.id then body else runs[i])
  }

  // ---------------------------------------------------------------- reading back

  predicate IdLe(a: Trial, b: Trial) { StringLe(a.id, b.id) }

  lemma IdOrder()
    ensures TotalPreorder(IdLe)
  {
    StringOrder();
    forall a, b: Trial ensures IdLe(a, b) || IdLe(b, a) { StringLeTotal(a.id, b.id); }
    forall a, b, c: Trial | IdLe(a, b) && IdLe(b, c) ensures IdLe(a, c) { StringLeTransitive(a.id, b.id, c.id); }
  }

  function TrialsOf(rows: seq<Row>, runId: string): seq<Trial> {
    if rows == [] then []
    else
      var rest := TrialsOf(rows[..|rows| - 1], runId);
      var last := rows[|rows| - 1];
      if last.runId == runId then rest + [last.trial] else rest
  }

  /** The record `readBenchmarkRun` hands to the parser: trials in id order, a running run read as incomplete. */
  function Assembled(db: Tables): RunRecord
    requires |db.runs| == 1
  {
    var run := db.runs[0];
    run.(trials := SortBy(TrialsOf(db.rows, run.id), IdLe), status := if run.status.Running? then RunIncomplete else run.status)
  }

  lemma {:induction false} TrialsOfMeans(rows: seq<Row>, runId: string, t: Trial)
    ensures t in TrialsOf(rows, runId) <==> Row(runId, t) in rows
  {
    if rows != [] {
      var init, last := rows[..|rows| - 1], rows[|rows| - 1];
      TrialsOfMeans(init, runId, t);
      assert rows == init + [last];
    }
  }

  /** What reading the only run gives: its trials in id order and no others, and nothing still running. */
  ghost predicate ReadsAs(db: Tables, r: RunRecord)
    requires |db.runs| == 1
  {
    var run := db.runs[0];
    && r == run.(trials := r.trials, status := r.status)
    && (if run.status.Running? then r.status.RunIncomplete? else r.status == run.status)
    && SortedBy(r.trials, IdLe) && forall t :: t in r.trials <==> Row(run.id, t) in db.rows
  }

  lemma AssembledMeans(db: Tables)
    requires |db.runs| == 1
    ensures ReadsAs(db, Assembled(db))
  {
    var run, r := db.runs[0], Assembled(db);
    IdOrder();
    SortBySorts(TrialsOf(db.rows, run.id), IdLe);
    forall t ensures t in r.trials <==> Row(run.id, t) in db.rows {
      TrialsOfMeans(db.rows, run.id, t);
      assert t in multiset(r.trials) <==> t in multiset(TrialsOf(db.rows, run.id));
    }
  }

  method ReadBenchmarkRun(db: Tables) returns (r: Outcome<RunRecord>)
    ensures r.Returned? <==> |db.runs| == 1 && ValidRecord(Assembled(db))
    ensures r.Returned? ==> r.value == Assembled(db) && ReadsAs(db, r.value)
  {
    if |db.runs| != 1 { return Threw; }
    AssembledMeans(db);
    var run := db.runs[0];
    run := run.(trials := SortBy(TrialsOf(db.rows, run.id), IdLe));
    if run.status == Running { run := run.(status := RunIncomplete); }
    r := ParseRunRecord(run);
  }

  // ---------------------------------------------------------------- writing

  /** Both tables keep their primary keys. */
  ghost predicate KeysUnique(db: Tables) {
    && (forall i, j :: 0 <= i < j < |db.runs| ==> db.runs[i].id != db.runs[j].id)
    && (forall i, j :: 0 <= i < j < |db.rows| ==> db.rows[i].runId != db.rows[j].runId || db.rows[i].trial.id != db.rows[j].trial.id)
  }

  lemma TrialsOfNext(rows: seq<Row>, row: Row, runId: string)
    ensures TrialsOf(rows + [row], runId) == TrialsOf(rows, runId) + if row.runId == runId then [row.trial] else []
  {
    assert (rows + [row])[..|rows|] == rows;
  }

  /** Reading after one more trial of the only run: the same record with that trial among the others. */
  lemma ReadsOneMore(db: Tables, trial: Trial)
    requires |db.runs| == 1
    ensures var after := Assembled(db.(rows := db.rows + [Row(db.runs[0].id, trial)]));
      && multiset(after.trials) == multiset(Assembled(db).trials) + multiset{trial}
      && after.(trials := []) == Assembled(db).(trials := [])
  {
    TrialsOfNext(db.rows, Row(db.runs[0].id, trial), db.runs[0].id);
  }

  class BenchmarkStore {
    var db: Tables

    ghost predicate Valid()
      reads this
    {
      KeysUnique(db)
    }

    constructor ()
      ensures Valid() && db == Tables([], [])
    {
      db := Tables([], []);
    }

    /** Fails on a second run with the same id; the first run of an empty store reads back without trials. */
    method Create(record: RunRecord) returns (ok: bool)
      requires Valid()
      modifies this
      ensures Valid() && (ok <==> !HasRun(old(db), record.id)) && (!ok ==> db == old(db))
      ensures ok ==> db.runs == old(db).runs + [record] && db.rows == old(db).rows
      ensures old(db) == Tables([], []) ==> ok && Assembled(db).trials == [] && Assembled(db).id == record.id && !Assembled(db).status.Running?
    {
      ok := !HasRun(db, record.id);
      if ok { db := db.(runs := db.runs + [record]); }
    }

    /** Reading afterwards gives the old trials and this one, or the old ones if the key was taken. */
    method RecordTrial(runId: string, trial: Trial) returns (ok: bool)
      requires Valid()
      modifies this
      ensures Valid() && (ok <==> !HasTrial(old(db), runId, trial.id)) && (!ok ==> db == old(db)) && HasTrial(db, runId, trial.id)
      ensures ok ==> db == old(db).(rows := old(db).rows + [Row(runId, trial)])
      ensures forall id :: TrialsOf(db.rows, id) == TrialsOf(old(db).rows, id) + if ok && id == runId then [trial] else []
      ensures ok && |db.runs| == 1 && db.runs[0].id == runId ==>
        && multiset(Assembled(db).trials) == multiset(Assembled(old(db)).trials) + multiset{trial}
        && Assembled(db).(trials := []) == Assembled(old(db)).(trials := [])
    {
      ok := !HasTrial(db, runId, trial.id);
      if ok {
        ghost var before := db;
        db := db.(rows := db.rows + [Row(runId, trial)]);
        assert db.rows[|before.rows|] == Row(runId, trial);
        forall id ensures TrialsOf(db.rows, id) == TrialsOf(before.rows, id) + if id == runId then [trial] else [] {
          TrialsOfNext(before.rows, Row(runId, trial), id);
        }
        if |db.runs| == 1 && db.runs[0].id == runId { ReadsOneMore(before, trial); }
      }
    }

    /** The final body is stored without the trials, which keep their own rows: reading gives it with all of them. */
    method Finish(record: RunRecord)
      requires Valid()
      modifies this
      ensures Valid() && db == old(db).(runs := UpdateRun(old(db).runs, record.(trials := [])))
      ensures |db.runs| == 1 && old(db).runs[0].id == record.id && !record.status.Running? ==>
        Assembled(db) == record.(trials := Assembled(old(db)).trials)
    {
      db := db.(runs := UpdateRun(db.runs, record.(trials := [])));
    }
  }

  // ---------------------------------------------------------------- order does not matter to validity

  lemma NoRepeatsPermutation(s: seq<Trial>, t: seq<Trial>)
    requires NoRepeats(s) && multiset(s) == multiset(t)
    ensures NoRepeats(t)
  {
    assert Distinct(s);
    DistinctPermutation(s, t);
    forall i, j | 0 <= i < j < |t| ensures t[i].id != t[j].id && Key(t[i]) != Key(t[j]) {
      assert t[i] in multiset(t) && t[j] in multiset(t);
      assert t[i] in s && t[j] in s;
    }
  }

  /** A record keeps its validity under any reordering of its trials. */
  lemma ValidPermutation(run: RunRecord, trials: seq<Trial>)
    requires ValidRecord(run) && multiset(trials) == multiset(run.trials)
    ensures ValidRecord(run.(trials := trials))
  {
    NoRepeatsPermutation(run.trials, trials);
    MultisetSize(trials);
    MultisetSize(run.trials);
    forall i | 0 <= i < |trials| ensures trials[i] in run.trials {
      assert trials[i] in multiset(trials);
    }
  }
}
