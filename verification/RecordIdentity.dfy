/**
 * The text a run record is hashed from (`benchmarkRecordDigest`, src/benchmark/compare.ts).
 * A record is a JSON object of which only the case ids, the trials and the keys the trials are sorted by are named.
 */
module RecordIdentity {
  import opened Sorting
  import opened Strings
  import opened Json

  datatype TrialDoc = TrialDoc(caseId: string, repetition: nat, id: string, others: seq<Entry>)

  datatype RecordDoc = RecordDoc(caseIds: seq<string>, trials: seq<TrialDoc>, others: seq<Entry>)

  function TrialFields(t: TrialDoc): seq<Entry> {
    [Entry("caseId", Str(t.caseId))] + ([Entry("repetition", Num(Decimal(t.repetition)))] + ([Entry("id", Str(t.id))] + t.others))
  }

  function TrialJson(t: TrialDoc): Json { Obj(TrialFields(t)) }

  function RecordFields(d: RecordDoc): seq<Entry> {
    [Entry("caseIds", Arr(Map(Text, d.caseIds)))] + ([Entry("trials", Arr(Map(TrialJson, d.trials)))] + d.others)
  }

  function RecordJson(d: RecordDoc): Json { Obj(RecordFields(d)) }

  function Text(s: string): Json { Str(s) }

  /** Case, then repetition, then id. */
  predicate TrialLe(a: TrialDoc, b: TrialDoc) { OrderLe(OrderOf(a), OrderOf(b)) }

  datatype Order = Order(caseId: string, repetition: nat, id: string)

  function OrderOf(t: TrialDoc): Order { Order(t.caseId, t.repetition, t.id) }

  predicate OrderLe(a: Order, b: Order) {
    if a.caseId != b.caseId then StringLe(a.caseId, b.caseId)
    else if a.repetition != b.repetition then a.repetition < b.repetition
    else StringLe(a.id, b.id)
  }

  /** What is hashed: the canonical text of the record with case ids and trials in order. */
  function PreHash(d: RecordDoc): string {
    Canonical(RecordJson(SortedRecord(d)))
  }

  /** A JavaScript record whose (case, repetition) pairs are unique, as the record parser demands. */
  ghost predicate ValidDoc(d: RecordDoc) {
    && Proper(RecordJson(d))
    && forall i, j :: 0 <= i < j < |d.trials| ==> Slot(d.trials[i]) != Slot(d.trials[j])
  }

  function Slot(t: TrialDoc): (string, nat) { (t.caseId, t.repetition) }

  /** The same trial, up to key order, is on the other side. */
  ghost predicate TrialsWithin(s: seq<TrialDoc>, t: seq<TrialDoc>) { Within(s, t, SameTrial) }

  ghost predicate Within<S>(s: seq<S>, t: seq<S>, r: (S, S) -> bool) {
    forall i :: 0 <= i < |s| ==> exists j :: 0 <= j < |t| && r(s[i], t[j])
  }

  ghost predicate SameTrial(a: TrialDoc, b: TrialDoc) { Same(TrialJson(a), TrialJson(b)) }

  /** Records that differ only by permuting case ids and trials (and object keys). */
  ghost predicate SameRecord(d: RecordDoc, e: RecordDoc) {
    && Same(Obj(d.others), Obj(e.others))
    && multiset(d.caseIds) == multiset(e.caseIds)
    && TrialsWithin(d.trials, e.trials) && TrialsWithin(e.trials, d.trials)
  }

  // ---------------------------------------------------------------- objects grown by one property

  /** Two objects that start with the same key are the same iff the values and the remainders are. */
  lemma SameGrown(key: string, v: Json, w: Json, es: seq<Entry>, fs: seq<Entry>)
    requires Proper(Obj([Entry(key, v)] + es)) && Proper(Obj([Entry(key, w)] + fs))
    ensures Proper(v) && Proper(w) && Proper(Obj(es)) && Proper(Obj(fs))
    ensures Same(Obj([Entry(key, v)] + es), Obj([Entry(key, w)] + fs)) <==> Same(v, w) && Same(Obj(es), Obj(fs))
  {
    GrownProper(key, v, es);
    GrownProper(key, w, fs);
    SameIffNormal(v, w);
    SameIffNormal(Obj(es), Obj(fs));
    SameIffNormal(Obj([Entry(key, v)] + es), Obj([Entry(key, w)] + fs));
    SortedPairs(es, fs);
    SortedPairs([Entry(key, v)] + es, [Entry(key, w)] + fs);
    GrownPairs(key, v, w, es, fs);
  }

  lemma GrownProper(key: string, v: Json, es: seq<Entry>)
    ensures Proper(Obj([Entry(key, v)] + es)) <==> Proper(v) && Proper(Obj(es)) && forall j :: 0 <= j < |es| ==> es[j].key != key
    ensures Proper(Obj(es)) ==> DistinctKeys(es)
    ensures Proper(Obj([Entry(key, v)] + es)) ==> DistinctKeys([Entry(key, v)] + es)
  {
    var all := [Entry(key, v)] + es;
    assert all[0] == Entry(key, v);
    assert forall j :: 0 <= j < |es| ==> es[j] == all[j + 1];
    assert forall j :: 1 <= j < |all| ==> all[j] == es[j - 1];
  }

  lemma GrownHas(key: string, v: Json, es: seq<Entry>, p: NPair)
    ensures HasPair([Entry(key, v)] + es, p) <==> p == NPair(key, Normal(v)) || HasPair(es, p)
  {
    NormalPairsHave([Entry(key, v)] + es, p);
    NormalPairsHave(es, p);
    assert ([Entry(key, v)] + es)[1..] == es;
  }

  lemma GrownPairs(key: string, v: Json, w: Json, es: seq<Entry>, fs: seq<Entry>)
    requires (forall j :: 0 <= j < |es| ==> es[j].key != key) && (forall j :: 0 <= j < |fs| ==> fs[j].key != key)
    ensures (forall p :: HasPair([Entry(key, v)] + es, p) <==> HasPair([Entry(key, w)] + fs, p))
      <==> (Normal(v) == Normal(w) && forall p :: HasPair(es, p) <==> HasPair(fs, p))
  {
    var es1, fs1 := [Entry(key, v)] + es, [Entry(key, w)] + fs;
    forall p
      ensures HasPair(es1, p) <==> p == NPair(key, Normal(v)) || HasPair(es, p)
      ensures HasPair(fs1, p) <==> p == NPair(key, Normal(w)) || HasPair(fs, p)
      ensures p.key == key ==> !HasPair(es, p) && !HasPair(fs, p)
    {
      GrownHas(key, v, es, p);
      GrownHas(key, w, fs, p);
    }
    if forall p :: HasPair(es1, p) <==> HasPair(fs1, p) {
      assert HasPair(es1, NPair(key, Normal(v)));
      forall p ensures HasPair(es, p) <==> HasPair(fs, p) {
        assert HasPair(es1, p) <==> HasPair(fs1, p);
      }
    }
  }

  /** Trials that print alike were sorted alike. */
  lemma SameTrialOrder(a: TrialDoc, b: TrialDoc)
    requires Proper(TrialJson(a)) && Proper(TrialJson(b)) && SameTrial(a, b)
    ensures OrderOf(a) == OrderOf(b)
  {
    SameGrown("caseId", Str(a.caseId), Str(b.caseId),
      [Entry("repetition", Num(Decimal(a.repetition)))] + ([Entry("id", Str(a.id))] + a.others),
      [Entry("repetition", Num(Decimal(b.repetition)))] + ([Entry("id", Str(b.id))] + b.others));
    SameGrown("repetition", Num(Decimal(a.repetition)), Num(Decimal(b.repetition)),
      [Entry("id", Str(a.id))] + a.others, [Entry("id", Str(b.id))] + b.others);
    SameGrown("id", Str(a.id), Str(b.id), a.others, b.others);
    DecimalInjective(a.repetition, b.repetition);
  }

  // ---------------------------------------------------------------- the sort orders

  lemma OrderTotal()
    ensures TotalPreorder(OrderLe)
  {
    forall a, b ensures OrderLe(a, b) || OrderLe(b, a) {
      StringLeTotal(a.caseId, b.caseId);
      StringLeTotal(a.id, b.id);
    }
    forall a, b, c | OrderLe(a, b) && OrderLe(b, c) ensures OrderLe(a, c) { OrderTransitive(a, b, c); }
  }

  lemma OrderTransitive(a: Order, b: Order, c: Order)
    requires OrderLe(a, b) && OrderLe(b, c)
    ensures OrderLe(a, c)
  {
    if a.caseId != b.caseId && b.caseId != c.caseId {
      StringLeTransitive(a.caseId, b.caseId, c.caseId);
      if a.caseId == c.caseId { StringLeAntisymmetric(a.caseId, b.caseId); }
    } else if a.caseId == b.caseId == c.caseId && a.repetition == b.repetition == c.repetition {
      StringLeTransitive(a.id, b.id, c.id);
    }
  }

  lemma OrderAntisymmetric(a: Order, b: Order)
    requires OrderLe(a, b) && OrderLe(b, a)
    ensures a == b
  {
    if a.caseId != b.caseId {
      StringLeAntisymmetric(a.caseId, b.caseId);
    } else {
      StringLeAntisymmetric(a.id, b.id);
    }
  }

  lemma TextsSame(s: seq<string>, t: seq<string>)
    ensures Same(Arr(Map(Text, s)), Arr(Map(Text, t))) <==> s == t
  {
    if Same(Arr(Map(Text, s)), Arr(Map(Text, t))) {
      forall i | 0 <= i < |s| ensures s[i] == t[i] { assert Same(Map(Text, s)[i], Map(Text, t)[i]); }
    }
  }

  /** A trial as its sort key and its normal form. */
  datatype Keyed = Keyed(order: Order, value: Norm)

  function KeyedOf(t: TrialDoc): Keyed { Keyed(OrderOf(t), Normal(TrialJson(t))) }

  predicate KeyedLe(a: Keyed, b: Keyed) { OrderLe(a.order, b.order) }

  ghost predicate ValidTrials(s: seq<TrialDoc>) {
    && (forall i :: 0 <= i < |s| ==> Proper(TrialJson(s[i])))
    && forall i, j :: 0 <= i < j < |s| ==> Slot(s[i]) != Slot(s[j])
  }

  lemma KeyedEqual(a: TrialDoc, b: TrialDoc)
    requires Proper(TrialJson(a)) && Proper(TrialJson(b))
    ensures SameTrial(a, b) <==> KeyedOf(a) == KeyedOf(b)
  {
    SameIffNormal(TrialJson(a), TrialJson(b));
    if SameTrial(a, b) { SameTrialOrder(a, b); }
  }

  lemma WithinKeyed(s: seq<TrialDoc>, t: seq<TrialDoc>)
    requires ValidTrials(s) && ValidTrials(t)
    ensures TrialsWithin(s, t) <==> forall x :: x in Map(KeyedOf, s) ==> x in Map(KeyedOf, t)
  {
    forall i, j | 0 <= i < |s| && 0 <= j < |t| ensures SameTrial(s[i], t[j]) <==> KeyedOf(s[i]) == KeyedOf(t[j]) {
      KeyedEqual(s[i], t[j]);
    }
    WithinImages(s, t, KeyedOf, SameTrial);
  }

  lemma WithinImages<S, T>(s: seq<S>, t: seq<S>, f: S -> T, r: (S, S) -> bool)
    requires forall i, j :: 0 <= i < |s| && 0 <= j < |t| ==> (r(s[i], t[j]) <==> f(s[i]) == f(t[j]))
    ensures Within(s, t, r) <==> forall x :: x in Map(f, s) ==> x in Map(f, t)
  {
    if Within(s, t, r) {
      forall x | x in Map(f, s) ensures x in Map(f, t) {
        var i :| 0 <= i < |s| && Map(f, s)[i] == x;
        var j :| 0 <= j < |t| && r(s[i], t[j]);
        assert Map(f, t)[j] == x;
      }
    }
    if forall x :: x in Map(f, s) ==> x in Map(f, t) {
      forall i | 0 <= i < |s| ensures exists j :: 0 <= j < |t| && r(s[i], t[j]) {
        assert Map(f, s)[i] in Map(f, t);
        var j :| 0 <= j < |t| && Map(f, t)[j] == f(s[i]);
        assert r(s[i], t[j]);
      }
    }
  }

  ghost predicate UniqueOrders(x: seq<Keyed>) {
    forall i, j :: 0 <= i < j < |x| ==> x[i].order != x[j].order
  }

  lemma KeyedUnique(s: seq<TrialDoc>)
    requires ValidTrials(s)
    ensures UniqueOrders(Map(KeyedOf, s))
  {
    forall i, j | 0 <= i < j < |s| ensures Map(KeyedOf, s)[i].order != Map(KeyedOf, s)[j].order {
      assert Slot(s[i]) != Slot(s[j]);
    }
  }

  /** Sorted trial lists agree key by key and value by value iff the unsorted ones hold the same trials. */
  lemma SortedKeyed(s: seq<TrialDoc>, t: seq<TrialDoc>)
    requires ValidTrials(s) && ValidTrials(t)
    ensures Map(KeyedOf, SortBy(s, TrialLe)) == Map(KeyedOf, SortBy(t, TrialLe)) <==> TrialsWithin(s, t) && TrialsWithin(t, s)
  {
    SortMap(s, KeyedOf, TrialLe, KeyedLe);
    SortMap(t, KeyedOf, TrialLe, KeyedLe);
    WithinKeyed(s, t);
    WithinKeyed(t, s);
    KeyedUnique(s);
    KeyedUnique(t);
    KeyedSorts(Map(KeyedOf, s), Map(KeyedOf, t));
  }

  lemma KeyedSorts(x: seq<Keyed>, y: seq<Keyed>)
    requires UniqueOrders(x) && UniqueOrders(y)
    ensures SortBy(x, KeyedLe) == SortBy(y, KeyedLe) <==> forall k :: k in x <==> k in y
  {
    if SortBy(x, KeyedLe) == SortBy(y, KeyedLe) {
      assert multiset(x) == multiset(y);
      forall k ensures k in x <==> k in y { assert k in multiset(x) <==> k in multiset(y); }
    }
    if forall k :: k in x <==> k in y {
      SameElements(x, y);
      KeyedSort(x, y);
    }
  }

  lemma KeyedSort(x: seq<Keyed>, y: seq<Keyed>)
    requires UniqueOrders(x) && multiset(x) == multiset(y)
    ensures SortBy(x, KeyedLe) == SortBy(y, KeyedLe)
  {
    var u := SortBy(x, KeyedLe);
    OrderTotal();
    assert TotalPreorder(KeyedLe) by {
      assert forall a: Keyed, b: Keyed :: KeyedLe(a, b) == OrderLe(a.order, b.order);
    }
    SortBySorts(x, KeyedLe);
    SortBySorts(y, KeyedLe);
    forall a, b | a in u && b in u && KeyedLe(a, b) && KeyedLe(b, a) ensures a == b {
      OrderAntisymmetric(a.order, b.order);
      assert a in multiset(u) && b in multiset(u);
      assert a in x && b in x;
    }
    SortedUnique(u, SortBy(y, KeyedLe), KeyedLe);
  }

  lemma TrialsSame(s: seq<TrialDoc>, t: seq<TrialDoc>)
    requires (forall i :: 0 <= i < |s| ==> Proper(TrialJson(s[i]))) && (forall i :: 0 <= i < |t| ==> Proper(TrialJson(t[i])))
    ensures Same(Arr(Map(TrialJson, s)), Arr(Map(TrialJson, t))) <==> Map(KeyedOf, s) == Map(KeyedOf, t)
  {
    if |s| == |t| {
      forall i | 0 <= i < |s| ensures Same(Map(TrialJson, s)[i], Map(TrialJson, t)[i]) <==> Map(KeyedOf, s)[i] == Map(KeyedOf, t)[i] {
        KeyedEqual(s[i], t[i]);
      }
    }
  }

  // ---------------------------------------------------------------- the record

  function SortedRecord(d: RecordDoc): RecordDoc {
    d.(caseIds := SortBy(d.caseIds, StringLe), trials := SortBy(d.trials, TrialLe))
  }

  lemma TrialsProper(s: seq<TrialDoc>)
    ensures Proper(Arr(Map(TrialJson, s))) <==> forall i :: 0 <= i < |s| ==> Proper(TrialJson(s[i]))
  {
    if Proper(Arr(Map(TrialJson, s))) {
      forall i | 0 <= i < |s| ensures Proper(TrialJson(s[i])) { assert Proper(Map(TrialJson, s)[i]); }
    }
  }

  lemma SortedTrialsProper(s: seq<TrialDoc>)
    requires forall i :: 0 <= i < |s| ==> Proper(TrialJson(s[i]))
    ensures forall i :: 0 <= i < |SortBy(s, TrialLe)| ==> Proper(TrialJson(SortBy(s, TrialLe)[i]))
  {
    var sorted := SortBy(s, TrialLe);
    forall i | 0 <= i < |sorted| ensures Proper(TrialJson(sorted[i])) {
      assert sorted[i] in multiset(sorted);
      assert sorted[i] in s;
    }
  }

  /** Sorting case ids and trials keeps the record a JavaScript value. */
  lemma SortedProper(d: RecordDoc)
    requires Proper(RecordJson(d))
    ensures Proper(RecordJson(SortedRecord(d)))
    ensures forall i :: 0 <= i < |d.trials| ==> Proper(TrialJson(d.trials[i]))
    ensures forall i :: 0 <= i < |SortedRecord(d).trials| ==> Proper(TrialJson(SortedRecord(d).trials[i]))
  {
    RecordProper(d);
    SortedTrialsProper(d.trials);
    RecordProper(SortedRecord(d));
  }

  lemma RecordProper(d: RecordDoc)
    ensures Proper(RecordJson(d)) <==>
      && (forall i :: 0 <= i < |d.trials| ==> Proper(TrialJson(d.trials[i])))
      && Proper(Obj(d.others)) && forall j :: 0 <= j < |d.others| ==> d.others[j].key != "caseIds" && d.others[j].key != "trials"
  {
    var tail := [Entry("trials", Arr(Map(TrialJson, d.trials)))] + d.others;
    GrownProper("caseIds", Arr(Map(Text, d.caseIds)), tail);
    GrownProper("trials", Arr(Map(TrialJson, d.trials)), d.others);
    TrialsProper(d.trials);
    assert tail[0].key == "trials" && "trials"[0] != "caseIds"[0];
    assert forall j :: 0 <= j < |d.others| ==> tail[j + 1] == d.others[j];
    assert forall j :: 1 <= j < |tail| ==> tail[j] == d.others[j - 1];
  }

  /** Record identity: two valid records are hashed from one text exactly when they differ only by order. */
  lemma RecordTextIdentity(d: RecordDoc, e: RecordDoc)
    requires ValidDoc(d) && ValidDoc(e)
    ensures PreHash(d) == PreHash(e) <==> SameRecord(d, e)
  {
    var a, b := SortedRecord(d), SortedRecord(e);
    SortedProper(d);
    SortedProper(e);
    CanonicalIdentity(RecordJson(a), RecordJson(b));
    SameGrown("caseIds", Arr(Map(Text, a.caseIds)), Arr(Map(Text, b.caseIds)),
      [Entry("trials", Arr(Map(TrialJson, a.trials)))] + a.others, [Entry("trials", Arr(Map(TrialJson, b.trials)))] + b.others);
    SameGrown("trials", Arr(Map(TrialJson, a.trials)), Arr(Map(TrialJson, b.trials)), a.others, b.others);
    TextsSame(a.caseIds, b.caseIds);
    SortedTexts(d.caseIds, e.caseIds);
    TrialsSame(a.trials, b.trials);
    SortedKeyed(d.trials, e.trials);
  }
}
