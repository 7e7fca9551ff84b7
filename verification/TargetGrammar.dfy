/**
 * The target grammar as its documentation gives it (src/browse/target.ts), and the parser against it: an input
 * parses to a plan exactly when the grammar says it denotes that plan.
 */
module TargetGrammar {
  import opened BenchTypes
  import opened Sorting
  import opened Target

  // ---------------------------------------------------------------- the grammar

  predicate Spaces(s: string) { forall i :: 0 <= i < |s| ==> IsSpace(s[i]) }

  /** `core` with white space around it. */
  ghost predicate Surrounds(s: string, core: string) {
    Trimmed(core) && exists before, after :: Spaces(before) && Spaces(after) && s == before + (core + after)
  }

  /** `eN` or `@eN`, in either case. */
  predicate IsRefText(t: string, digits: string) {
    && digits != [] && (forall i :: 0 <= i < |digits| ==> IsDigit(digits[i]))
    && (t == "e" + digits || t == "E" + digits || t == "@e" + digits || t == "@E" + digits)
  }

  predicate HasPrefix(t: string, name: string, rest: string) { IsName(name) && t == name + ("=" + rest) }

  predicate Keyword(word: string, kind: Target.Kind) {
    match kind
    case Css => word == "css"
    case Text => word == "text"
    case Label => word == "label"
    case Placeholder => word == "placeholder"
    case Alt => word == "alt"
    case Title => word == "title"
    case TestId => word == "testid"
  }

  /** Quoted text: no quote and no backslash, except a backslash with the character it escapes. */
  predicate Quotable(body: string) {
    || body == []
    || (body[0] != '"' && body[0] != '\\' && Quotable(body[1..]))
    || (|body| >= 2 && body[0] == '\\' && !IsLineTerminator(body[1]) && Quotable(body[2..]))
  }

  /** White space, then a literal, then the rest. */
  ghost predicate Spaced(s: string, literal: string, rest: string) {
    exists gap :: Spaces(gap) && s == gap + (literal + rest)
  }

  /** `[name="body"]`, with white space allowed between the parts. */
  ghost predicate IsClause(s: string, body: string) {
    exists a, b, c, d, e ::
      Spaced(s, "[", a) && Spaced(a, "name", b) && Spaced(b, "=", c) && Spaced(c, "\"", d) && d == body + ("\"" + e) && Spaced(e, "]", "")
  }

  /** A role, compared without case, with an optional name that is not empty. */
  ghost predicate RoleDenotes(value: string, role: string, name: Option<string>) {
    exists given, tail :: IsName(given) && value == given + tail && role == Lower(given) && TailDenotes(tail, name)
  }

  ghost predicate TailDenotes(tail: string, name: Option<string>) {
    match name
    case None => Spaces(tail)
    case Some(n) => n != [] && exists body :: Quotable(body) && IsClause(tail, body) && n == Unescape(body)
  }

  ghost predicate ValueDenotes(word: string, value: string, plan: Plan) {
    match plan
    case Ref(_) => false
    case By(kind, v) => Keyword(word, kind) && v == value
    case Role(role, name) => word == "role" && RoleDenotes(value, role, name)
  }

  /** A prefixed target: the prefix is read without case, the value without white space around it. */
  ghost predicate PrefixDenotes(t: string, plan: Plan) {
    exists name, rest, value :: HasPrefix(t, name, rest) && Surrounds(rest, value) && value != [] && ValueDenotes(Lower(name), value, plan)
  }

  /** A ref, a prefixed target, or plain text. */
  ghost predicate CoreDenotes(t: string, plan: Plan) {
    || (exists digits :: IsRefText(t, digits) && plan == Ref("e" + digits))
    || PrefixDenotes(t, plan)
    || ((forall digits :: !IsRefText(t, digits)) && (forall name, rest :: !HasPrefix(t, name, rest)) && plan == By(Text, t))
  }

  ghost predicate Denotes(input: string, plan: Plan) {
    exists core :: Surrounds(input, core) && core != [] && CoreDenotes(core, plan)
  }

  // ---------------------------------------------------------------- white space

  lemma {:induction false} TrimStartSplits(s: string) returns (before: string)
    ensures Spaces(before) && s == before + TrimStart(s)
  {
    before := "";
    if s != [] && IsSpace(s[0]) {
      var rest := TrimStartSplits(s[1..]);
      before := [s[0]] + rest;
      assert s == [s[0]] + s[1..];
    }
  }

  lemma {:induction false} TrimEndSplits(s: string) returns (after: string)
    ensures Spaces(after) && s == TrimEnd(s) + after
  {
    after := "";
    if s != [] && IsSpace(s[|s| - 1]) {
      var rest := TrimEndSplits(s[..|s| - 1]);
      after := rest + [s[|s| - 1]];
      assert s == s[..|s| - 1] + [s[|s| - 1]];
    }
  }

  lemma {:induction false} TrimStartSkips(before: string, s: string)
    requires Spaces(before)
    ensures TrimStart(before + s) == TrimStart(s)
  {
    if before == [] {
      assert before + s == s;
    } else {
      assert (before + s)[1..] == before[1..] + s;
      TrimStartSkips(before[1..], s);
    }
  }

  lemma {:induction false} TrimEndSkips(s: string, after: string)
    requires Spaces(after)
    ensures TrimEnd(s + after) == TrimEnd(s)
  {
    if after == [] {
      assert s + after == s;
    } else {
      assert (s + after)[..|s + after| - 1] == s + after[..|after| - 1];
      TrimEndSkips(s, after[..|after| - 1]);
    }
  }

  lemma TrimIsCore(s: string, core: string)
    ensures Surrounds(s, core) <==> core == Trim(s)
  {
    if Surrounds(s, core) {
      var before, after :| Spaces(before) && Spaces(after) && s == before + (core + after);
      TrimStartSkips(before, core + after);
      if core == [] {
        assert core + after == after;
        TrimStartSkips(after, "");
        assert after + "" == after;
      } else {
        assert (core + after)[0] == core[0];
        TrimEndSkips(core, after);
      }
    }
    TrimTrims(s);
    var before := TrimStartSplits(s);
    var after := TrimEndSplits(TrimStart(s));
    assert s == before + (Trim(s) + after);
  }

  lemma AllSpaces(s: string)
    ensures Spaces(s) <==> TrimStart(s) == []
  {
    if Spaces(s) {
      TrimStartSkips(s, "");
      assert s + "" == s;
    }
    var before := TrimStartSplits(s);
    assert before + "" == before;
  }

  lemma ExpectReads(s: string, literal: string, rest: string)
    requires literal != [] && !IsSpace(literal[0])
    ensures Spaced(s, literal, rest) <==> Expect(s, literal) == Some(rest)
  {
    if Spaced(s, literal, rest) {
      var gap :| Spaces(gap) && s == gap + (literal + rest);
      TrimStartSkips(gap, literal + rest);
      assert (literal + rest)[0] == literal[0] && (literal + rest)[|literal|..] == rest;
    }
    if Expect(s, literal) == Some(rest) {
      var gap := TrimStartSplits(s);
      assert TrimStart(s) == literal + rest;
    }
  }

  // ---------------------------------------------------------------- refs, prefixes and quoted text

  lemma RefReads(t: string, digits: string)
    ensures IsRefText(t, digits) <==> RefDigits(t) == Some(digits)
  {
    if IsRefText(t, digits) {
      var u := if t[0] == '@' then t[1..] else t;
      assert u[1..] == digits && (u[0] == 'e' || u[0] == 'E');
    }
    if RefDigits(t) == Some(digits) {
      var u := if t[0] == '@' then t[1..] else t;
      assert u == [u[0]] + digits;
      assert t[0] == '@' ==> t == ['@', u[0]] + digits;
    }
  }

  /** A name and what follows it, told apart by the first character no name has. */
  lemma NameReads(s: string, name: string, tail: string)
    requires tail == [] || !IsNameChar(tail[0])
    ensures IsName(name) && s == name + tail <==>
      NameRun(s) > 0 && IsLetter(s[0]) && name == s[..NameRun(s)] && tail == s[NameRun(s)..]
  {
    if IsName(name) && s == name + tail { NameRunStops(name, tail); }
  }

  lemma PrefixReads(t: string, name: string, rest: string)
    ensures HasPrefix(t, name, rest) <==>
      (var n := NameRun(t); 0 < n < |t| && IsLetter(t[0]) && t[n] == '=' && name == t[..n] && rest == t[n + 1..])
  {
    var n := NameRun(t);
    NameReads(t, name, "=" + rest);
    if n < |t| && t[n] == '=' { assert t[n..] == "=" + t[n + 1..]; }
    if t[n..] == "=" + rest { assert rest == t[n..][1..]; }
  }

  /** How many characters the first unit of quoted text has. */
  function Unit(s: string): nat { if s != [] && s[0] == '\\' then 2 else 1 }

  lemma UnitReads(unit: string, s: string)
    requires |unit| == Unit(unit) && unit[0] != '"' && (|unit| == 2 ==> !IsLineTerminator(unit[1]))
    ensures QuotedBody(unit + s) == Prepend(unit, QuotedBody(s))
  {
    assert (unit + s)[|unit|..] == s && (unit + s)[..|unit|] == unit;
  }

  lemma {:induction false} QuotedGiven(body: string, closing: string)
    requires Quotable(body) && closing != [] && closing[0] == '"'
    ensures QuotedBody(body + closing) == Closed(body, closing[1..])
  {
    if body == [] {
      assert body + closing == closing;
    } else {
      var k := Unit(body);
      var unit, tail := body[..k], body[k..];
      assert body == unit + tail;
      QuotedGiven(tail, closing);
      Reassociate(unit, tail, closing);
      UnitReads(unit, tail + closing);
    }
  }

  /** Where the body ends in the text it was read from. */
  predicate EndsAt(s: string, body: string, rest: string) {
    |body| < |s| && body == s[..|body|] && s[|body|] == '"' && rest == s[|body| + 1..]
  }

  lemma EndsLater(s: string, k: nat, body: string, rest: string)
    requires k <= |s| && EndsAt(s[k..], body, rest)
    ensures EndsAt(s, s[..k] + body, rest)
  {
    assert s[..k] + body == s[..k + |body|];
  }

  lemma QuotableUnit(unit: string, body: string)
    requires |unit| == Unit(unit) && unit[0] != '"' && (|unit| == 2 ==> !IsLineTerminator(unit[1])) && Quotable(body)
    ensures Quotable(unit + body)
  {
    assert (unit + body)[|unit|..] == body;
  }

  lemma {:induction false} QuotedFound(s: string)
    requires QuotedBody(s).Closed?
    ensures Quotable(QuotedBody(s).body) && EndsAt(s, QuotedBody(s).body, QuotedBody(s).rest)
  {
    if s[0] != '"' {
      var k := Unit(s);
      var unit, tail := s[..k], s[k..];
      QuotedFound(tail);
      EndsLater(s, k, QuotedBody(tail).body, QuotedBody(tail).rest);
      QuotableUnit(unit, QuotedBody(tail).body);
      assert s == unit + tail;
      UnitReads(unit, tail);
    }
  }

  lemma QuotedReads(s: string, body: string, rest: string)
    ensures Quotable(body) && s == body + ("\"" + rest) <==> QuotedBody(s) == Closed(body, rest)
  {
    var closing := "\"" + rest;
    assert closing[1..] == rest;
    if Quotable(body) { QuotedGiven(body, closing); }
    if QuotedBody(s) == Closed(body, rest) {
      QuotedFound(s);
      assert s == body + closing;
    }
  }

  // ---------------------------------------------------------------- roles

  lemma ClauseReads(s: string, body: string)
    ensures Quotable(body) && IsClause(s, body) <==> NameClause(s) == Some(body)
  {
    if Quotable(body) && IsClause(s, body) {
      var a, b, c, d, e :|
        Spaced(s, "[", a) && Spaced(a, "name", b) && Spaced(b, "=", c) && Spaced(c, "\"", d) && d == body + ("\"" + e) && Spaced(e, "]", "");
      ClauseParts(s, a, b, c, d);
      QuotedReads(d, body, e);
      ExpectReads(e, "]", "");
    }
    if NameClause(s) == Some(body) {
      var a := Expect(s, "[").value;
      var b := Expect(a, "name").value;
      var c := Expect(b, "=").value;
      var d := Expect(c, "\"").value;
      var q := QuotedBody(d);
      ClauseParts(s, a, b, c, d);
      QuotedReads(d, body, q.rest);
      ExpectReads(q.rest, "]", "");
    }
  }

  lemma ClauseParts(s: string, a: string, b: string, c: string, d: string)
    ensures Spaced(s, "[", a) <==> Expect(s, "[") == Some(a)
    ensures Spaced(a, "name", b) <==> Expect(a, "name") == Some(b)
    ensures Spaced(b, "=", c) <==> Expect(b, "=") == Some(c)
    ensures Spaced(c, "\"", d) <==> Expect(c, "\"") == Some(d)
  {
    ExpectReads(s, "[", a);
    ExpectReads(a, "name", b);
    ExpectReads(b, "=", c);
    ExpectReads(c, "\"", d);
  }

  /** What can follow a role does not continue its name. */
  lemma TailStops(tail: string, name: Option<string>)
    requires TailDenotes(tail, name)
    ensures tail == [] || !IsNameChar(tail[0])
  {
    if name.Some? {
      var body :| Quotable(body) && IsClause(tail, body);
      var a :| Spaced(tail, "[", a);
      var gap :| Spaces(gap) && tail == gap + ("[" + a);
      assert tail[0] == if gap == [] then '[' else gap[0];
    }
  }

  /** What `ParseRole` makes of the text after the role. */
  function ReadTail(tail: string): Option<Option<string>> {
    if TrimStart(tail) == [] then Some(None)
    else if NameClause(tail).None? || Unescape(NameClause(tail).value) == [] then None
    else Some(Some(Unescape(NameClause(tail).value)))
  }

  lemma TailReads(tail: string, name: Option<string>)
    ensures TailDenotes(tail, name) <==> ReadTail(tail) == Some(name)
  {
    AllSpaces(tail);
    if name.Some? {
      if TailDenotes(tail, name) {
        var body :| Quotable(body) && IsClause(tail, body) && name.value == Unescape(body);
        ClauseReads(tail, body);
        var a :| Spaced(tail, "[", a);
        ExpectReads(tail, "[", a);
      }
      if ReadTail(tail) == Some(name) { ClauseReads(tail, NameClause(tail).value); }
    }
  }

  lemma RoleReads(value: string, role: string, name: Option<string>)
    ensures RoleDenotes(value, role, name) <==> ParseRole(value) == Ok(Role(role, name))
  {
    var n := NameRun(value);
    if RoleDenotes(value, role, name) {
      var given, tail :| IsName(given) && value == given + tail && role == Lower(given) && TailDenotes(tail, name);
      TailStops(tail, name);
      NameReads(value, given, tail);
      TailReads(tail, name);
    }
    if ParseRole(value) == Ok(Role(role, name)) {
      NameReads(value, value[..n], value[n..]);
      TailReads(value[n..], name);
    }
  }

  // ---------------------------------------------------------------- the parser

  lemma KeywordReads(word: string, kind: Target.Kind)
    ensures Keyword(word, kind) <==> Lookup(word) == Some(Plain(kind))
    ensures word == "role" <==> Lookup(word) == Some(RolePrefix)
  {}

  lemma ValueReads(word: string, value: string, plan: Plan)
    requires value != []
    ensures ValueDenotes(word, value, plan) <==> ParseValue(Lookup(word), value) == Ok(plan)
  {
    match plan
    case Ref(_) => if word == "role" { RolesOnly(value); }
    case By(kind, v) =>
      KeywordReads(word, kind);
      RolesOnly(value);
    case Role(role, name) =>
      KeywordReads(word, Css);
      RoleReads(value, role, name);
  }

  lemma RolesOnly(value: string)
    ensures ParseRole(value).Ok? ==> ParseRole(value).plan.Role?
  {}

  /**
   * The parser reads exactly the grammar: white space around the target and around a prefixed value is ignored, prefixes
   * and roles are read without case, a bare text without a prefix is itself, and everything else is refused.
   */
  lemma ParserReadsGrammar(input: string, plan: Plan)
    ensures ParseTarget(input) == Ok(plan) <==> Denotes(input, plan)
  {
    var t := Trim(input);
    forall core ensures Surrounds(input, core) <==> core == t { TrimIsCore(input, core); }
    if t != [] { CoreReads(input, t, plan); }
  }

  /** The grammar gives an input at most one meaning. */
  lemma GrammarUnambiguous(input: string, p: Plan, q: Plan)
    requires Denotes(input, p) && Denotes(input, q)
    ensures p == q
  {
    ParserReadsGrammar(input, p);
    ParserReadsGrammar(input, q);
  }

  lemma CoreReads(input: string, t: string, plan: Plan)
    requires t == Trim(input) && t != []
    ensures CoreDenotes(t, plan) <==> ParseTarget(input) == Ok(plan)
  {
    var n := NameRun(t);
    forall digits ensures IsRefText(t, digits) <==> RefDigits(t) == Some(digits) { RefReads(t, digits); }
    forall name, rest ensures HasPrefix(t, name, rest) <==>
      0 < n < |t| && IsLetter(t[0]) && t[n] == '=' && name == t[..n] && rest == t[n + 1..] { PrefixReads(t, name, rest); }
    if 0 < n < |t| && IsLetter(t[0]) && t[n] == '=' {
      PrefixedReads(t, n, plan);
    }
  }

  lemma PrefixIsNoRef(t: string, n: nat)
    requires n < |t| && t[n] == '='
    ensures RefDigits(t).None?
  {}

  lemma PrefixedReads(t: string, n: nat, plan: Plan)
    requires n == NameRun(t) && 0 < n < |t| && IsLetter(t[0]) && t[n] == '='
    ensures RefDigits(t).None? && HasPrefix(t, t[..n], t[n + 1..])
    ensures PrefixDenotes(t, plan) <==> ParseValue(Lookup(Lower(t[..n])), Trim(t[n + 1..])) == Ok(plan)
  {
    var word, rest := t[..n], t[n + 1..];
    PrefixIsNoRef(t, n);
    PrefixReads(t, word, rest);
    if PrefixDenotes(t, plan) { PrefixGiven(t, n, plan); }
    if Trim(rest) != [] {
      ValueReads(Lower(word), Trim(rest), plan);
      if ValueDenotes(Lower(word), Trim(rest), plan) { PrefixFound(t, word, rest, plan); }
    }
  }

  lemma PrefixFound(t: string, word: string, rest: string, plan: Plan)
    requires HasPrefix(t, word, rest) && Trim(rest) != [] && ValueDenotes(Lower(word), Trim(rest), plan)
    ensures PrefixDenotes(t, plan)
  {
    TrimIsCore(rest, Trim(rest));
  }

  lemma PrefixGiven(t: string, n: nat, plan: Plan)
    requires n == NameRun(t) && PrefixDenotes(t, plan)
    ensures n < |t| && Trim(t[n + 1..]) != [] && ValueDenotes(Lower(t[..n]), Trim(t[n + 1..]), plan)
  {
    var name, rest, value :| HasPrefix(t, name, rest) && Surrounds(rest, value) && value != [] && ValueDenotes(Lower(name), value, plan);
    PrefixReads(t, name, rest);
    TrimIsCore(rest, value);
  }

  // ---------------------------------------------------------------- escapes

  predicate EscapeAt(s: string, i: nat) { i + 1 < |s| && s[i] == '\\' && (s[i + 1] == '"' || s[i + 1] == '\\') }

  /** Unescaping changes exactly the texts with an escaped quote or backslash, and makes those shorter. */
  lemma {:induction false} UnescapeOnlyEscapes(s: string)
    ensures |Unescape(s)| <= |s|
    ensures (exists i: nat :: EscapeAt(s, i)) ==> |Unescape(s)| < |s|
    ensures (forall i: nat :: !EscapeAt(s, i)) ==> Unescape(s) == s
  {
    if s != [] {
      if EscapeAt(s, 0) {
        UnescapeOnlyEscapes(s[2..]);
      } else {
        UnescapeOnlyEscapes(s[1..]);
        assert forall i: nat :: EscapeAt(s[1..], i) ==> EscapeAt(s, i + 1);
        if i: nat :| EscapeAt(s, i) { assert EscapeAt(s[1..], i - 1); }
      }
    }
  }
}
