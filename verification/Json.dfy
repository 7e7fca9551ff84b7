/**
 * Canonical JSON text and record identity (`canonical` and `benchmarkRecordDigest`, src/benchmark/compare.ts).
 * Strings are quoted as in section 7 of RFC 8259; a number is carried by its ECMAScript decimal text.
 */
module Json {
  import opened Sorting
  import opened Strings

  datatype Json =
    | Null
    | Bool(value: bool)
    | Num(text: string)
    | Str(text: string)
    | Arr(items: seq<Json>)
    | Obj(entries: seq<Entry>)

  /** A property in insertion order; an undefined one is not printed. */
  datatype Entry = Entry(key: string, value: Json) | Undefined(key: string)

  /** A value with its objects in key order: equal normal forms are values equal up to key order. */
  datatype Norm =
    | NNull
    | NBool(value: bool)
    | NNum(text: string)
    | NStr(text: string)
    | NArr(items: seq<Norm>)
    | NObj(pairs: seq<NPair>)

  datatype NPair = NPair(key: string, value: Norm)

  // ---------------------------------------------------------------- quoting

  function HexDigit(d: nat): char
    requires d < 16
  {
    if d < 10 then '0' + (d as char) else 'a' + ((d - 10) as char)
  }

  /** One character inside a JSON string. */
  function Unit(c: char): (u: string)
    ensures u != []
  {
    if c == '"' then "\\\""
    else if c == '\\' then "\\\\"
    else if c == '\U{0008}' then "\\b"
    else if c == '\U{000C}' then "\\f"
    else if c == '\n' then "\\n"
    else if c == '\r' then "\\r"
    else if c == '\t' then "\\t"
    else if c < ' ' then ['\\', 'u', '0', '0', HexDigit(c as nat / 16), HexDigit(c as nat % 16)]
    else [c]
  }

  /** The characters of `s` escaped, then `k`. */
  function Body(s: string, k: string): string {
    if s == [] then k else Unit(s[0]) + Body(s[1..], k)
  }

  /** `JSON.stringify(s)` followed by `k`. */
  function QuoteThen(s: string, k: string): string { "\"" + Body(s, "\"" + k) }

  function Quote(s: string): string { QuoteThen(s, "") }

  lemma UnitFree(c: char, d: char, x: string, y: string)
    requires Unit(c) + x == Unit(d) + y
    ensures c == d && x == y
  {
    var s := Unit(c) + x;
    var t := Unit(d) + y;
    assert s[0] == Unit(c)[0] && t[0] == Unit(d)[0];
    if |Unit(c)| >= 2 {
      assert s[1] == Unit(c)[1];
    }
    if |Unit(d)| >= 2 {
      assert t[1] == Unit(d)[1];
    }
    if |Unit(c)| == 6 && |Unit(d)| == 6 {
      assert s[4] == Unit(c)[4] && s[5] == Unit(c)[5] && t[4] == Unit(d)[4] && t[5] == Unit(d)[5];
      assert c as nat == 16 * (c as nat / 16) + c as nat % 16;
      assert d as nat == 16 * (d as nat / 16) + d as nat % 16;
    }
    assert c == d;
    assert s[|Unit(c)|..] == x && t[|Unit(d)|..] == y;
  }

  lemma UnitStart(c: char)
    ensures Unit(c)[0] != '"'
  {}

  lemma HeadChar(h: string, x: string)
    requires h != []
    ensures h + x != [] && (h + x)[0] == h[0]
  {}

  /** The closing quote is the first bare quote. */
  lemma BodyStart(s: string, x: string)
    requires x != [] && x[0] == '"'
    ensures Body(s, x) != []
    ensures Body(s, x)[0] == '"' <==> s == []
  {
    if s != [] {
      UnitStart(s[0]);
      HeadChar(Unit(s[0]), Body(s[1..], x));
    }
  }

  lemma {:induction false} BodyFree(s: string, t: string, x: string, y: string)
    requires x != [] && y != [] && x[0] == '"' && y[0] == '"' && Body(s, x) == Body(t, y)
    ensures s == t && x == y
  {
    BodyStart(s, x);
    BodyStart(t, y);
    if s != [] {
      UnitFree(s[0], t[0], Body(s[1..], x), Body(t[1..], y));
      BodyFree(s[1..], t[1..], x, y);
      assert s == [s[0]] + s[1..] && t == [t[0]] + t[1..];
    }
  }

  lemma DropHead(h: string, a: string, b: string)
    requires h + a == h + b
    ensures a == b
  {
    assert (h + a)[|h|..] == a && (h + b)[|h|..] == b;
  }

  /** A quoted string ends where it says: nothing after it can be taken for a part of it. */
  lemma QuoteFree(s: string, t: string, x: string, y: string)
    requires QuoteThen(s, x) == QuoteThen(t, y)
    ensures s == t && x == y
  {
    DropHead("\"", Body(s, "\"" + x), Body(t, "\"" + y));
    BodyFree(s, t, "\"" + x, "\"" + y);
    DropHead("\"", x, y);
  }

  lemma {:induction false} BodyAppends(s: string, j: string, k: string)
    ensures Body(s, j) + k == Body(s, j + k)
  {
    if s != [] {
      BodyAppends(s[1..], j, k);
      Reassociate(Unit(s[0]), Body(s[1..], j), k);
    }
  }

  lemma QuoteAppends(s: string, k: string)
    ensures Quote(s) + k == QuoteThen(s, k)
  {
    BodyAppends(s, "\"", k);
    assert "\"" + "" == "\"";
    Reassociate("\"", Body(s, "\""), k);
  }

  // ---------------------------------------------------------------- normal forms and their text

  /** The text of `v`, then `k`. */
  function Show(v: Norm, k: string): string {
    match v
    case NNull => "null" + k
    case NBool(value) => (if value then "true" else "false") + k
    case NNum(text) => text + k
    case NStr(text) => QuoteThen(text, k)
    case NArr(items) => "[" + (if items == [] then "]" + k else Show(items[0], ShowMore(items[1..], "]" + k)))
    case NObj(pairs) => "{" + (if pairs == [] then "}" + k else ShowPair(pairs[0], ShowMorePairs(pairs[1..], "}" + k)))
  }

  function ShowMore(items: seq<Norm>, k: string): string {
    if items == [] then k else "," + Show(items[0], ShowMore(items[1..], k))
  }

  function ShowPair(p: NPair, k: string): string { QuoteThen(p.key, ":" + Show(p.value, k)) }

  function ShowMorePairs(pairs: seq<NPair>, k: string): string {
    if pairs == [] then k else "," + ShowPair(pairs[0], ShowMorePairs(pairs[1..], k))
  }

  predicate IsNumChar(c: char) { '0' <= c <= '9' || c == '-' || c == '+' || c == '.' || c == 'e' || c == 'E' }

  /** The decimal text of a finite number. */
  predicate IsNumber(s: string) {
    s != [] && ('0' <= s[0] <= '9' || s[0] == '-') && forall i :: 0 <= i < |s| ==> IsNumChar(s[i])
  }

  predicate ProperNorm(v: Norm) {
    match v
    case NNum(text) => IsNumber(text)
    case NArr(items) => forall i :: 0 <= i < |items| ==> ProperNorm(items[i])
    case NObj(pairs) => forall i :: 0 <= i < |pairs| ==> ProperNorm(pairs[i].value)
    case _ => true
  }

  /** What can follow a value inside a document. */
  predicate Stop(x: string) { x == [] || x[0] == ',' || x[0] == ']' || x[0] == '}' }

  datatype Sort = SNull | STrue | SFalse | SNum | SStr | SArr | SObj

  function SortOf(v: Norm): Sort {
    match v
    case NNull => SNull
    case NBool(value) => if value then STrue else SFalse
    case NNum(_) => SNum
    case NStr(_) => SStr
    case NArr(_) => SArr
    case NObj(_) => SObj
  }

  function SortOfChar(c: char): Sort {
    if c == 'n' then SNull else if c == 't' then STrue else if c == 'f' then SFalse
    else if c == '"' then SStr else if c == '[' then SArr else if c == '{' then SObj else SNum
  }

  /** The first character tells what kind of value follows. */
  lemma FirstCharacter(v: Norm, k: string)
    requires ProperNorm(v)
    ensures Show(v, k) != [] && SortOfChar(Show(v, k)[0]) == SortOf(v) && !Stop(Show(v, k))
  {}

  /** How far the characters of a number reach. */
  function NumberRun(s: string): nat {
    if s == [] || !IsNumChar(s[0]) then 0 else 1 + NumberRun(s[1..])
  }

  lemma {:induction false} NumberEnds(s: string, x: string)
    requires (forall i :: 0 <= i < |s| ==> IsNumChar(s[i])) && Stop(x)
    ensures NumberRun(s + x) == |s|
  {
    if s == [] {
      assert s + x == x;
    } else {
      NumberEnds(s[1..], x);
      assert (s + x)[1..] == s[1..] + x;
    }
  }

  lemma NumFree(s: string, t: string, x: string, y: string)
    requires IsNumber(s) && IsNumber(t) && Stop(x) && Stop(y) && s + x == t + y
    ensures s == t && x == y
  {
    NumberEnds(s, x);
    NumberEnds(t, y);
    assert s == (s + x)[..|s|] && t == (t + y)[..|t|];
    DropHead(s, x, y);
  }

  /** Unique reading: a value printed inside any document can be read back in only one way. */
  lemma {:induction false} ShowFree(a: Norm, b: Norm, x: string, y: string)
    requires ProperNorm(a) && ProperNorm(b) && Stop(x) && Stop(y) && Show(a, x) == Show(b, y)
    ensures a == b && x == y
    decreases a, 1
  {
    FirstCharacter(a, x);
    FirstCharacter(b, y);
    match a
    case NNull => DropHead("null", x, y);
    case NBool(value) => DropHead(if value then "true" else "false", x, y);
    case NNum(s) => NumFree(s, b.text, x, y);
    case NStr(s) => QuoteFree(s, b.text, x, y);
    case NArr(items) => ArrayFree(items, b.items, x, y);
    case NObj(pairs) => ObjectFree(pairs, b.pairs, x, y);
  }

  function ArrayRest(items: seq<Norm>, k: string): string {
    if items == [] then "]" + k else Show(items[0], ShowMore(items[1..], "]" + k))
  }

  lemma ArrayRestStart(items: seq<Norm>, k: string)
    requires ProperNorm(NArr(items))
    ensures ArrayRest(items, k) != [] && (ArrayRest(items, k)[0] == ']' <==> items == [])
  {
    if items != [] { FirstCharacter(items[0], ShowMore(items[1..], "]" + k)); }
  }

  lemma {:induction false} ArrayFree(a: seq<Norm>, b: seq<Norm>, x: string, y: string)
    requires ProperNorm(NArr(a)) && ProperNorm(NArr(b)) && Stop(x) && Stop(y) && Show(NArr(a), x) == Show(NArr(b), y)
    ensures a == b && x == y
    decreases a, 0
  {
    DropHead("[", ArrayRest(a, x), ArrayRest(b, y));
    ArrayRestStart(a, x);
    ArrayRestStart(b, y);
    if a != [] {
      MoreStops(a[1..], "]" + x);
      MoreStops(b[1..], "]" + y);
      ShowFree(a[0], b[0], ShowMore(a[1..], "]" + x), ShowMore(b[1..], "]" + y));
      MoreFree(a[1..], b[1..], "]" + x, "]" + y);
      assert a == [a[0]] + a[1..] && b == [b[0]] + b[1..];
    }
    DropHead("]", x, y);
  }

  lemma MoreStops(items: seq<Norm>, x: string)
    requires x != [] && x[0] == ']'
    ensures Stop(ShowMore(items, x)) && ShowMore(items, x) != [] && (ShowMore(items, x)[0] == ',' <==> items != [])
  {}

  lemma {:induction false} MoreFree(a: seq<Norm>, b: seq<Norm>, x: string, y: string)
    requires ProperNorm(NArr(a)) && ProperNorm(NArr(b)) && x != [] && y != [] && x[0] == ']' && y[0] == ']'
    requires ShowMore(a, x) == ShowMore(b, y)
    ensures a == b && x == y
    decreases a, 0
  {
    MoreStops(a, x);
    MoreStops(b, y);
    if a != [] {
      var p, q := ShowMore(a[1..], x), ShowMore(b[1..], y);
      DropHead(",", Show(a[0], p), Show(b[0], q));
      MoreStops(a[1..], x);
      MoreStops(b[1..], y);
      ShowFree(a[0], b[0], p, q);
      MoreFree(a[1..], b[1..], x, y);
      assert a == [a[0]] + a[1..] && b == [b[0]] + b[1..];
    }
  }

  function ObjectRest(pairs: seq<NPair>, k: string): string {
    if pairs == [] then "}" + k else ShowPair(pairs[0], ShowMorePairs(pairs[1..], "}" + k))
  }

  lemma ObjectRestStart(pairs: seq<NPair>, k: string)
    ensures ObjectRest(pairs, k) != [] && (ObjectRest(pairs, k)[0] == '}' <==> pairs == [])
  {}

  lemma {:induction false} PairFree(a: NPair, b: NPair, x: string, y: string)
    requires ProperNorm(a.value) && ProperNorm(b.value) && Stop(x) && Stop(y) && ShowPair(a, x) == ShowPair(b, y)
    ensures a == b && x == y
    decreases a.value, 2
  {
    var p, q := Show(a.value, x), Show(b.value, y);
    QuoteFree(a.key, b.key, ":" + p, ":" + q);
    DropHead(":", p, q);
    ShowFree(a.value, b.value, x, y);
  }

  lemma {:induction false} ObjectFree(a: seq<NPair>, b: seq<NPair>, x: string, y: string)
    requires ProperNorm(NObj(a)) && ProperNorm(NObj(b)) && Stop(x) && Stop(y) && Show(NObj(a), x) == Show(NObj(b), y)
    ensures a == b && x == y
    decreases a, 0
  {
    DropHead("{", ObjectRest(a, x), ObjectRest(b, y));
    ObjectRestStart(a, x);
    ObjectRestStart(b, y);
    if a != [] {
      MorePairsStop(a[1..], "}" + x);
      MorePairsStop(b[1..], "}" + y);
      PairFree(a[0], b[0], ShowMorePairs(a[1..], "}" + x), ShowMorePairs(b[1..], "}" + y));
      MorePairsFree(a[1..], b[1..], "}" + x, "}" + y);
      assert a == [a[0]] + a[1..] && b == [b[0]] + b[1..];
    }
    DropHead("}", x, y);
  }

  lemma MorePairsStop(pairs: seq<NPair>, x: string)
    requires x != [] && x[0] == '}'
    ensures Stop(ShowMorePairs(pairs, x)) && ShowMorePairs(pairs, x) != []
    ensures ShowMorePairs(pairs, x)[0] == ',' <==> pairs != []
  {}

  lemma {:induction false} MorePairsFree(a: seq<NPair>, b: seq<NPair>, x: string, y: string)
    requires ProperNorm(NObj(a)) && ProperNorm(NObj(b)) && x != [] && y != [] && x[0] == '}' && y[0] == '}'
    requires ShowMorePairs(a, x) == ShowMorePairs(b, y)
    ensures a == b && x == y
    decreases a, 0
  {
    MorePairsStop(a, x);
    MorePairsStop(b, y);
    if a != [] {
      var p, q := ShowMorePairs(a[1..], x), ShowMorePairs(b[1..], y);
      DropHead(",", ShowPair(a[0], p), ShowPair(b[0], q));
      MorePairsStop(a[1..], x);
      MorePairsStop(b[1..], y);
      PairFree(a[0], b[0], p, q);
      MorePairsFree(a[1..], b[1..], x, y);
      assert a == [a[0]] + a[1..] && b == [b[0]] + b[1..];
    }
  }

  // ---------------------------------------------------------------- canonical text

  function Map<S, T>(f: S -> T, s: seq<S>): (r: seq<T>)
    ensures |r| == |s| && forall i :: 0 <= i < |s| ==> r[i] == f(s[i])
  {
    seq(|s|, i requires 0 <= i < |s| => f(s[i]))
  }

  /** Sorting by something a mapping keeps can be done before or after the mapping. */
  lemma {:induction false} SortMap<S, T>(s: seq<S>, f: S -> T, leS: (S, S) -> bool, leT: (T, T) -> bool)
    requires forall a, b :: a in s && b in s ==> leS(a, b) == leT(f(a), f(b))
    ensures Map(f, SortBy(s, leS)) == SortBy(Map(f, s), leT)
  {
    if s != [] {
      var t := SortBy(s[1..], leS);
      SortMap(s[1..], f, leS, leT);
      assert Map(f, s)[1..] == Map(f, s[1..]);
      forall a | a in t ensures a in s {
        assert a in multiset(t);
        assert a in s[1..];
      }
      InsertMap(s[0], t, f, leS, leT);
    }
  }

  lemma {:induction false} InsertMap<S, T>(x: S, s: seq<S>, f: S -> T, leS: (S, S) -> bool, leT: (T, T) -> bool)
    requires forall a :: a in s ==> leS(x, a) == leT(f(x), f(a))
    ensures Map(f, Insert(x, s, leS)) == Insert(f(x), Map(f, s), leT)
  {
    if s != [] {
      assert s[0] in s && Map(f, s)[1..] == Map(f, s[1..]);
      if !leS(x, s[0]) { InsertMap(x, s[1..], f, leS, leT); }
    }
  }

  /** `parts.join(",")`. */
  function Join(parts: seq<string>): string {
    if parts == [] then "" else if |parts| == 1 then parts[0] else parts[0] + ("," + Join(parts[1..]))
  }

  datatype Field = Field(key: string, text: string)

  predicate FieldLe(a: Field, b: Field) { StringLe(a.key, b.key) }

  function FieldText(p: Field): string { Quote(p.key) + (":" + p.text) }

  /** `canonical`: one text for every way to write the same value. */
  function Canonical(v: Json): string {
    match v
    case Null => "null"
    case Bool(value) => if value then "true" else "false"
    case Num(text) => text
    case Str(text) => Quote(text)
    case Arr(items) => "[" + (Join(CanonicalItems(items)) + "]")
    case Obj(entries) => "{" + (Join(Map(FieldText, SortBy(CanonicalFields(entries), FieldLe))) + "}")
  }

  function CanonicalItems(items: seq<Json>): seq<string> {
    if items == [] then [] else [Canonical(items[0])] + CanonicalItems(items[1..])
  }

  /** The properties that are defined, with their texts. */
  function CanonicalFields(entries: seq<Entry>): seq<Field> {
    if entries == [] then []
    else if entries[0].Undefined? then CanonicalFields(entries[1..])
    else [Field(entries[0].key, Canonical(entries[0].value))] + CanonicalFields(entries[1..])
  }

  predicate PairLe(a: NPair, b: NPair) { StringLe(a.key, b.key) }

  function Normal(v: Json): Norm {
    match v
    case Null => NNull
    case Bool(value) => NBool(value)
    case Num(text) => NNum(text)
    case Str(text) => NStr(text)
    case Arr(items) => NArr(NormalItems(items))
    case Obj(entries) => NObj(SortBy(NormalPairs(entries), PairLe))
  }

  function NormalItems(items: seq<Json>): seq<Norm> {
    if items == [] then [] else [Normal(items[0])] + NormalItems(items[1..])
  }

  function NormalPairs(entries: seq<Entry>): seq<NPair> {
    if entries == [] then []
    else if entries[0].Undefined? then NormalPairs(entries[1..])
    else [NPair(entries[0].key, Normal(entries[0].value))] + NormalPairs(entries[1..])
  }

  /** A value that JavaScript can hold: finite numbers, and no key twice in one object. */
  ghost predicate Proper(v: Json) {
    match v
    case Num(text) => IsNumber(text)
    case Arr(items) => forall i :: 0 <= i < |items| ==> Proper(items[i])
    case Obj(entries) =>
      && (forall i :: 0 <= i < |entries| && entries[i].Entry? ==> Proper(entries[i].value))
      && forall i, j :: 0 <= i < j < |entries| ==> entries[i].key != entries[j].key
    case _ => true
  }

  lemma {:induction false} NormalItemsAt(items: seq<Json>)
    ensures |NormalItems(items)| == |items|
    ensures forall i :: 0 <= i < |items| ==> NormalItems(items)[i] == Normal(items[i])
  {
    if items != [] {
      NormalItemsAt(items[1..]);
      assert forall i :: 1 <= i < |items| ==> items[i] == items[1..][i - 1];
    }
  }

  /** The pairs of an object are its defined properties. */
  lemma {:induction false} NormalPairsHave(entries: seq<Entry>, p: NPair)
    ensures p in NormalPairs(entries) <==> HasPair(entries, p)
  {
    if entries != [] {
      NormalPairsHave(entries[1..], p);
      assert entries == [entries[0]] + entries[1..];
      if HasPair(entries[1..], p) {
        var i :| 0 <= i < |entries[1..]| && IsPair(entries[1..][i], p);
        assert IsPair(entries[i + 1], p);
      }
      if HasPair(entries, p) && !IsPair(entries[0], p) {
        var i :| 0 <= i < |entries| && IsPair(entries[i], p);
        assert IsPair(entries[1..][i - 1], p);
      }
    }
  }

  ghost predicate IsPair(e: Entry, p: NPair) { e.Entry? && p == NPair(e.key, Normal(e.value)) }

  ghost predicate HasPair(entries: seq<Entry>, p: NPair) {
    exists i :: 0 <= i < |entries| && IsPair(entries[i], p)
  }

  lemma {:induction false} NormalProper(v: Json)
    requires Proper(v)
    ensures ProperNorm(Normal(v))
  {
    match v
    case Arr(items) =>
      NormalItemsAt(items);
      forall i | 0 <= i < |items| ensures ProperNorm(NormalItems(items)[i]) { NormalProper(items[i]); }
    case Obj(entries) =>
      var pairs := SortBy(NormalPairs(entries), PairLe);
      forall i | 0 <= i < |pairs| ensures ProperNorm(pairs[i].value) {
        assert pairs[i] in multiset(pairs);
        NormalPairsHave(entries, pairs[i]);
        var j :| 0 <= j < |entries| && IsPair(entries[j], pairs[i]);
        NormalProper(entries[j].value);
      }
    case _ =>
  }

  // ---------------------------------------------------------------- the text is that of the normal form

  function TextOf(p: NPair): Field { Field(p.key, Show(p.value, "")) }

  lemma {:induction false} CanonicalShows(v: Json, k: string)
    ensures Canonical(v) + k == Show(Normal(v), k)
    decreases v, 1
  {
    match v
    case Null =>
    case Bool(_) =>
    case Num(_) =>
    case Str(text) => QuoteAppends(text, k);
    case Arr(items) =>
      JoinItems(items, "]" + k);
      Reassociate("[", Join(CanonicalItems(items)) + "]", k);
      Reassociate(Join(CanonicalItems(items)), "]", k);
      NormalItemsAt(items);
    case Obj(entries) => ObjectShows(entries, k);
  }

  lemma {:induction false} JoinItems(items: seq<Json>, k: string)
    ensures items == [] ==> Join(CanonicalItems(items)) + k == k
    ensures items != [] ==> NormalItems(items) != []
    ensures items != [] ==> Join(CanonicalItems(items)) + k == Show(NormalItems(items)[0], ShowMore(NormalItems(items)[1..], k))
    decreases items, 0
  {
    if items != [] {
      var rest := CanonicalItems(items[1..]);
      JoinItems(items[1..], k);
      assert CanonicalItems(items)[1..] == rest && NormalItems(items)[1..] == NormalItems(items[1..]);
      if |items| == 1 {
        CanonicalShows(items[0], k);
      } else {
        CanonicalShows(items[0], "," + (Join(rest) + k));
        Reassociate(Canonical(items[0]), "," + Join(rest), k);
        Reassociate(",", Join(rest), k);
      }
    }
  }

  lemma {:induction false} FieldsAreTexts(entries: seq<Entry>)
    ensures CanonicalFields(entries) == Map(TextOf, NormalPairs(entries))
    decreases entries, 0
  {
    if entries != [] {
      FieldsAreTexts(entries[1..]);
      if entries[0].Entry? {
        CanonicalShows(entries[0].value, "");
        assert Canonical(entries[0].value) + "" == Canonical(entries[0].value);
        assert NormalPairs(entries)[1..] == NormalPairs(entries[1..]);
      }
    }
  }

  lemma {:induction false} ObjectShows(entries: seq<Entry>, k: string)
    ensures Canonical(Obj(entries)) + k == Show(Normal(Obj(entries)), k)
    decreases entries, 1
  {
    var pairs := SortBy(NormalPairs(entries), PairLe);
    FieldsAreTexts(entries);
    SortMap(NormalPairs(entries), TextOf, PairLe, FieldLe);
    ShowObject(pairs, k);
  }

  lemma ShowObject(pairs: seq<NPair>, k: string)
    ensures ("{" + (Join(Map(FieldText, Map(TextOf, pairs))) + "}")) + k == Show(NObj(pairs), k)
  {
    var text := Join(Map(FieldText, Map(TextOf, pairs)));
    JoinFields(pairs, "}" + k);
    Reassociate("{", text + "}", k);
    Reassociate(text, "}", k);
  }

  lemma {:induction false} ShowAppends(v: Norm, j: string, k: string)
    ensures Show(v, j) + k == Show(v, j + k)
    decreases v, 1
  {
    match v
    case NNull => Reassociate("null", j, k);
    case NBool(value) => Reassociate(if value then "true" else "false", j, k);
    case NNum(text) => Reassociate(text, j, k);
    case NStr(text) => QuoteThenAppends(text, j, k);
    case NArr(items) =>
      Reassociate("]", j, k);
      if items != [] {
        MoreAppends(items[1..], "]" + j, k);
        ShowAppends(items[0], ShowMore(items[1..], "]" + j), k);
      }
      Reassociate("[", ArrayRest(items, j), k);
    case NObj(pairs) =>
      Reassociate("}", j, k);
      if pairs != [] {
        MorePairsAppend(pairs[1..], "}" + j, k);
        PairAppends(pairs[0], ShowMorePairs(pairs[1..], "}" + j), k);
      }
      Reassociate("{", ObjectRest(pairs, j), k);
  }

  lemma QuoteThenAppends(s: string, j: string, k: string)
    ensures QuoteThen(s, j) + k == QuoteThen(s, j + k)
  {
    BodyAppends(s, "\"" + j, k);
    Reassociate("\"", j, k);
    Reassociate("\"", Body(s, "\"" + j), k);
  }

  lemma {:induction false} MoreAppends(items: seq<Norm>, j: string, k: string)
    ensures ShowMore(items, j) + k == ShowMore(items, j + k)
    decreases items, 0
  {
    if items != [] {
      MoreAppends(items[1..], j, k);
      ShowAppends(items[0], ShowMore(items[1..], j), k);
      Reassociate(",", Show(items[0], ShowMore(items[1..], j)), k);
    }
  }

  lemma {:induction false} PairAppends(p: NPair, j: string, k: string)
    ensures ShowPair(p, j) + k == ShowPair(p, j + k)
    decreases p.value, 2
  {
    QuoteThenAppends(p.key, ":" + Show(p.value, j), k);
    Reassociate(":", Show(p.value, j), k);
    ShowAppends(p.value, j, k);
  }

  lemma {:induction false} MorePairsAppend(pairs: seq<NPair>, j: string, k: string)
    ensures ShowMorePairs(pairs, j) + k == ShowMorePairs(pairs, j + k)
    decreases pairs, 0
  {
    if pairs != [] {
      MorePairsAppend(pairs[1..], j, k);
      PairAppends(pairs[0], ShowMorePairs(pairs[1..], j), k);
      Reassociate(",", ShowPair(pairs[0], ShowMorePairs(pairs[1..], j)), k);
    }
  }

  lemma FieldShows(p: NPair, k: string)
    ensures FieldText(TextOf(p)) + k == ShowPair(p, k)
  {
    var text := Show(p.value, "");
    Reassociate(Quote(p.key), ":" + text, k);
    Reassociate(":", text, k);
    ShowAppends(p.value, "", k);
    assert "" + k == k;
    QuoteAppends(p.key, ":" + Show(p.value, k));
  }

  lemma {:induction false} JoinFields(pairs: seq<NPair>, k: string)
    ensures pairs == [] ==> Join(Map(FieldText, Map(TextOf, pairs))) + k == k
    ensures pairs != [] ==> Join(Map(FieldText, Map(TextOf, pairs))) + k == ShowPair(pairs[0], ShowMorePairs(pairs[1..], k))
  {
    if pairs != [] {
      var all := Map(FieldText, Map(TextOf, pairs));
      var rest := Map(FieldText, Map(TextOf, pairs[1..]));
      assert all[1..] == rest;
      JoinFields(pairs[1..], k);
      if |pairs| == 1 {
        FieldShows(pairs[0], k);
      } else {
        FieldShows(pairs[0], "," + (Join(rest) + k));
        Reassociate(all[0], "," + Join(rest), k);
        Reassociate(",", Join(rest), k);
      }
    }
  }

  lemma {:induction false} CanonicalIffNormal(a: Json, b: Json)
    requires Proper(a) && Proper(b)
    ensures Canonical(a) == Canonical(b) <==> Normal(a) == Normal(b)
  {
    CanonicalShows(a, "");
    CanonicalShows(b, "");
    assert Canonical(a) + "" == Canonical(a) && Canonical(b) + "" == Canonical(b);
    if Canonical(a) == Canonical(b) {
      NormalProper(a);
      NormalProper(b);
      ShowFree(Normal(a), Normal(b), "", "");
    }
  }

  // ---------------------------------------------------------------- equality up to key order

  /** The same value, whatever the order of object keys and whether an absent property is written as undefined. */
  ghost predicate Same(a: Json, b: Json) {
    match a
    case Null => b.Null?
    case Bool(x) => b == Bool(x)
    case Num(x) => b == Num(x)
    case Str(x) => b == Str(x)
    case Arr(xs) => b.Arr? && |xs| == |b.items| && forall i :: 0 <= i < |xs| ==> Same(xs[i], b.items[i])
    case Obj(es) =>
      && b.Obj?
      && (forall i :: 0 <= i < |es| && es[i].Entry? ==> exists j :: 0 <= j < |b.entries| && SameEntry(es[i], b.entries[j]))
      && (forall j :: 0 <= j < |b.entries| && b.entries[j].Entry? ==> exists i :: 0 <= i < |es| && SameEntry(es[i], b.entries[j]))
  }

  ghost predicate SameEntry(e: Entry, f: Entry) {
    e.Entry? && f.Entry? && e.key == f.key && Same(e.value, f.value)
  }

  lemma {:induction false} SameIffNormal(a: Json, b: Json)
    requires Proper(a) && Proper(b)
    ensures Same(a, b) <==> Normal(a) == Normal(b)
  {
    match a
    case Arr(xs) =>
      if b.Arr? {
        NormalItemsAt(xs);
        NormalItemsAt(b.items);
        forall i | 0 <= i < |xs| && |xs| == |b.items| ensures Same(xs[i], b.items[i]) <==> Normal(xs[i]) == Normal(b.items[i]) {
          SameIffNormal(xs[i], b.items[i]);
        }
      }
    case Obj(es) =>
      if b.Obj? {
        forall i, j | 0 <= i < |es| && 0 <= j < |b.entries|
          ensures SameEntry(es[i], b.entries[j]) <==> Match(es[i], b.entries[j])
        {
          if es[i].Entry? && b.entries[j].Entry? { SameIffNormal(es[i].value, b.entries[j].value); }
        }
        SameIffCovered(es, b.entries);
        CoveredPairs(es, b.entries);
        CoveredPairs(b.entries, es);
        SortedPairs(es, b.entries);
      }
    case _ =>
  }

  /** Properties with one key and equal normal values. */
  ghost predicate Match(e: Entry, f: Entry) {
    e.Entry? && f.Entry? && e.key == f.key && Normal(e.value) == Normal(f.value)
  }

  ghost predicate Covered(es: seq<Entry>, fs: seq<Entry>) {
    forall i :: 0 <= i < |es| && es[i].Entry? ==> exists j :: 0 <= j < |fs| && Match(es[i], fs[j])
  }

  lemma CoveredPairs(es: seq<Entry>, fs: seq<Entry>)
    ensures Covered(es, fs) <==> forall p :: HasPair(es, p) ==> HasPair(fs, p)
  {
    if Covered(es, fs) {
      forall p | HasPair(es, p) ensures HasPair(fs, p) {
        var i :| 0 <= i < |es| && IsPair(es[i], p);
        var j :| 0 <= j < |fs| && Match(es[i], fs[j]);
        assert IsPair(fs[j], p);
      }
    }
    if forall p :: HasPair(es, p) ==> HasPair(fs, p) {
      forall i | 0 <= i < |es| && es[i].Entry? ensures exists j :: 0 <= j < |fs| && Match(es[i], fs[j]) {
        var p := NPair(es[i].key, Normal(es[i].value));
        assert IsPair(es[i], p);
        assert HasPair(es, p);
        var j :| 0 <= j < |fs| && IsPair(fs[j], p);
        assert Match(es[i], fs[j]);
      }
    }
  }

  /** Every property on either side has its partner on the other. */
  ghost predicate Paired(es: seq<Entry>, fs: seq<Entry>, r: (Entry, Entry) -> bool) {
    && (forall i :: 0 <= i < |es| && es[i].Entry? ==> exists j :: 0 <= j < |fs| && r(es[i], fs[j]))
    && (forall j :: 0 <= j < |fs| && fs[j].Entry? ==> exists i :: 0 <= i < |es| && r(es[i], fs[j]))
  }

  lemma PairedCongruence(es: seq<Entry>, fs: seq<Entry>, r: (Entry, Entry) -> bool, q: (Entry, Entry) -> bool)
    requires forall i, j :: 0 <= i < |es| && 0 <= j < |fs| && r(es[i], fs[j]) ==> q(es[i], fs[j])
    requires Paired(es, fs, r)
    ensures Paired(es, fs, q)
  {
    forall i | 0 <= i < |es| && es[i].Entry? ensures exists j :: 0 <= j < |fs| && q(es[i], fs[j]) {
      var j :| 0 <= j < |fs| && r(es[i], fs[j]);
    }
    forall j | 0 <= j < |fs| && fs[j].Entry? ensures exists i :: 0 <= i < |es| && q(es[i], fs[j]) {
      var i :| 0 <= i < |es| && r(es[i], fs[j]);
    }
  }

  lemma MatchCovered(es: seq<Entry>, fs: seq<Entry>)
    ensures Paired(es, fs, Match) <==> Covered(es, fs) && Covered(fs, es)
  {
    assert forall e, f :: Match(e, f) <==> Match(f, e);
  }

  lemma SameIffCovered(es: seq<Entry>, fs: seq<Entry>)
    requires forall i, j :: 0 <= i < |es| && 0 <= j < |fs| ==> (SameEntry(es[i], fs[j]) <==> Match(es[i], fs[j]))
    ensures Same(Obj(es), Obj(fs)) <==> Covered(es, fs) && Covered(fs, es)
  {
    assert Same(Obj(es), Obj(fs)) <==> Paired(es, fs, SameEntry);
    if Paired(es, fs, SameEntry) { PairedCongruence(es, fs, SameEntry, Match); }
    if Paired(es, fs, Match) { PairedCongruence(es, fs, Match, SameEntry); }
    MatchCovered(es, fs);
  }

  ghost predicate DistinctKeys(es: seq<Entry>) {
    forall i, j :: 0 <= i < j < |es| ==> es[i].key != es[j].key
  }

  lemma {:induction false} PairsDistinct(es: seq<Entry>)
    requires DistinctKeys(es)
    ensures forall i, j :: 0 <= i < j < |NormalPairs(es)| ==> NormalPairs(es)[i].key != NormalPairs(es)[j].key
  {
    if es != [] {
      var rest := NormalPairs(es[1..]);
      PairsDistinct(es[1..]);
      forall j | 0 <= j < |rest| ensures rest[j].key != es[0].key {
        NormalPairsHave(es[1..], rest[j]);
        var k :| 0 <= k < |es[1..]| && IsPair(es[1..][k], rest[j]);
        assert es[1..][k] == es[k + 1];
      }
    }
  }

  /** Objects with the same pairs sort to the same list, and the sorted list holds exactly the pairs. */
  lemma SortedPairs(es: seq<Entry>, fs: seq<Entry>)
    requires DistinctKeys(es) && DistinctKeys(fs)
    ensures Normal(Obj(es)) == Normal(Obj(fs)) <==> forall p :: HasPair(es, p) <==> HasPair(fs, p)
  {
    var s, t := NormalPairs(es), NormalPairs(fs);
    forall p ensures (HasPair(es, p) <==> p in s) && (HasPair(fs, p) <==> p in t) {
      NormalPairsHave(es, p);
      NormalPairsHave(fs, p);
    }
    PairsDistinct(es);
    PairsDistinct(fs);
    if Normal(Obj(es)) == Normal(Obj(fs)) {
      assert multiset(s) == multiset(t);
      forall p ensures p in s <==> p in t { assert p in multiset(s) <==> p in multiset(t); }
    }
    if forall p :: HasPair(es, p) <==> HasPair(fs, p) {
      SameElements(s, t);
      PairOrder();
      SortBySorts(s, PairLe);
      SortBySorts(t, PairLe);
      var u := SortBy(s, PairLe);
      forall a, b | a in u && b in u && PairLe(a, b) && PairLe(b, a) ensures a == b {
        assert a in multiset(u) && b in multiset(u);
        assert a in s && b in s;
        StringLeAntisymmetric(a.key, b.key);
      }
      SortedUnique(u, SortBy(t, PairLe), PairLe);
    }
  }

  lemma PairOrder()
    ensures TotalPreorder(PairLe)
  {
    StringOrder();
    assert forall a, b :: StringLe(a, b) || StringLe(b, a);
    forall a: NPair, b: NPair ensures PairLe(a, b) || PairLe(b, a) { StringLeTotal(a.key, b.key); }
    forall a: NPair, b: NPair, c: NPair | PairLe(a, b) && PairLe(b, c) ensures PairLe(a, c) {
      StringLeTransitive(a.key, b.key, c.key);
    }
  }

  /** Canonical identity: one text exactly for the values that are equal up to key order. */
  lemma CanonicalIdentity(a: Json, b: Json)
    requires Proper(a) && Proper(b)
    ensures Canonical(a) == Canonical(b) <==> Same(a, b)
  {
    CanonicalIffNormal(a, b);
    SameIffNormal(a, b);
  }
}
