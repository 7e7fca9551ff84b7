/** The target grammar of the browse tools (src/browse/target.ts): parsing, printing and their round trip. */
module Target {
  import opened Sorting
  import opened BenchTypes

  /** The plans that carry one plain value. */
  datatype Kind = Css | Text | Label | Placeholder | Alt | Title | TestId

  datatype Plan =
    | Ref(ref: string)
    | By(kind: Kind, value: string)
    | Role(role: string, name: Option<string>)

  datatype Parsed = Ok(plan: Plan) | InvalidTarget

  // ---------------------------------------------------------------- characters

  /** The characters that `trim` removes and `\s` matches. */
  predicate IsSpace(c: char) {
    || '\t' <= c <= '\r' || c == ' ' || c == '\U{00A0}' || c == '\U{1680}' || '\U{2000}' <= c <= '\U{200A}'
    || c == '\U{2028}' || c == '\U{2029}' || c == '\U{202F}' || c == '\U{205F}' || c == '\U{3000}' || c == '\U{FEFF}'
  }

  /** The characters `.` does not match. */
  predicate IsLineTerminator(c: char) { c == '\n' || c == '\r' || c == '\U{2028}' || c == '\U{2029}' }

  predicate IsDigit(c: char) { '0' <= c <= '9' }

  predicate IsLetter(c: char) { 'a' <= c <= 'z' || 'A' <= c <= 'Z' }

  predicate IsNameChar(c: char) { IsLetter(c) || IsDigit(c) || c == '_' || c == '-' }

  function LowerChar(c: char): char {
    if 'A' <= c <= 'Z' then ((c as int) + 32) as char else c
  }

  function Lower(s: string): (r: string)
    ensures |r| == |s| && forall i :: 0 <= i < |s| ==> r[i] == LowerChar(s[i])
  {
    if s == [] then [] else [LowerChar(s[0])] + Lower(s[1..])
  }

  function TrimStart(s: string): string {
    if s != [] && IsSpace(s[0]) then TrimStart(s[1..]) else s
  }

  function TrimEnd(s: string): string {
    if s != [] && IsSpace(s[|s| - 1]) then TrimEnd(s[..|s| - 1]) else s
  }

  function Trim(s: string): string { TrimEnd(TrimStart(s)) }

  predicate Trimmed(s: string) { s == [] || (!IsSpace(s[0]) && !IsSpace(s[|s| - 1])) }

  lemma {:induction false} TrimEndKeepsStart(s: string)
    requires s == [] || !IsSpace(s[0])
    ensures Trimmed(TrimEnd(s)) && (s != [] ==> TrimEnd(s) != [])
  {
    if s != [] && IsSpace(s[|s| - 1]) { TrimEndKeepsStart(s[..|s| - 1]); }
  }

  lemma {:induction false} TrimStartTrims(s: string)
    ensures TrimStart(s) == [] || !IsSpace(TrimStart(s)[0])
  {
    if s != [] && IsSpace(s[0]) { TrimStartTrims(s[1..]); }
  }

  lemma TrimTrims(s: string)
    ensures Trimmed(Trim(s))
  {
    TrimStartTrims(s);
    TrimEndKeepsStart(TrimStart(s));
  }

  // ---------------------------------------------------------------- the lexical patterns

  function DigitRun(s: string): (n: nat)
    ensures n <= |s| && forall i :: 0 <= i < n ==> IsDigit(s[i])
    ensures n < |s| ==> !IsDigit(s[n])
  {
    if s != [] && IsDigit(s[0]) then 1 + DigitRun(s[1..]) else 0
  }

  /** `^@?e(\d+)$`, case-insensitively: the digits. */
  function RefDigits(s: string): Option<string> {
    var t := if s != [] && s[0] == '@' then s[1..] else s;
    if |t| >= 2 && (t[0] == 'e' || t[0] == 'E') && DigitRun(t[1..]) == |t| - 1 then Some(t[1..]) else None
  }

  function NameRun(s: string): (n: nat)
    ensures n <= |s| && forall i :: 0 <= i < n ==> IsNameChar(s[i])
    ensures n < |s| ==> !IsNameChar(s[n])
  {
    if s != [] && IsNameChar(s[0]) then 1 + NameRun(s[1..]) else 0
  }

  /** `[A-Za-z][A-Za-z0-9_-]*`. */
  predicate IsName(s: string) { s != [] && IsLetter(s[0]) && forall i :: 0 <= i < |s| ==> IsNameChar(s[i]) }

  lemma {:induction false} NameRunStops(name: string, rest: string)
    requires (forall i :: 0 <= i < |name| ==> IsNameChar(name[i])) && (rest == [] || !IsNameChar(rest[0]))
    ensures NameRun(name + rest) == |name|
  {
    if name == [] {
      assert name + rest == rest;
    } else {
      assert (name + rest)[1..] == name[1..] + rest;
      NameRunStops(name[1..], rest);
    }
  }

  datatype Quoted = Unclosed | Closed(body: string, rest: string)

  /** `((?:[^"\\]|\\.)*)"`: the body up to the first quote that is not escaped. */
  function QuotedBody(s: string): Quoted {
    if s == [] then Unclosed
    else if s[0] == '"' then Closed([], s[1..])
    else if s[0] != '\\' then Prepend([s[0]], QuotedBody(s[1..]))
    else if |s| >= 2 && !IsLineTerminator(s[1]) then Prepend(s[..2], QuotedBody(s[2..]))
    else Unclosed
  }

  function Prepend(prefix: string, q: Quoted): Quoted {
    if q.Closed? then Closed(prefix + q.body, q.rest) else Unclosed
  }

  function Unescape(s: string): string {
    if s == [] then []
    else if |s| >= 2 && s[0] == '\\' && (s[1] == '"' || s[1] == '\\') then [s[1]] + Unescape(s[2..])
    else [s[0]] + Unescape(s[1..])
  }

  function EscapeUnit(c: char): string { if c == '"' || c == '\\' then ['\\', c] else [c] }

  function Escape(s: string): string {
    if s == [] then [] else EscapeUnit(s[0]) + Escape(s[1..])
  }

  /** Unescaping undoes escaping for every string. */
  lemma {:induction false} UnescapeEscape(s: string)
    ensures Unescape(Escape(s)) == s
  {
    if s != [] {
      UnescapeEscape(s[1..]);
      var e := Escape(s);
      if s[0] == '"' || s[0] == '\\' {
        assert e[2..] == Escape(s[1..]);
      } else {
        assert e[1..] == Escape(s[1..]);
      }
    }
  }

  /** An escaped string is read back up to exactly its closing quote. */
  lemma {:induction false} EscapeIsQuotable(s: string, closing: string)
    requires closing != [] && closing[0] == '"'
    ensures QuotedBody(Escape(s) + closing) == Closed(Escape(s), closing[1..])
  {
    if s == [] {
      assert Escape(s) + closing == closing;
    } else {
      EscapeIsQuotable(s[1..], closing);
      Reassociate(EscapeUnit(s[0]), Escape(s[1..]), closing);
      UnitIsQuotable(s[0], Escape(s[1..]) + closing);
    }
  }

  lemma UnitIsQuotable(c: char, rest: string)
    ensures QuotedBody(EscapeUnit(c) + rest) == Prepend(EscapeUnit(c), QuotedBody(rest))
  {
    var unit := EscapeUnit(c);
    var s := unit + rest;
    assert s[0] == unit[0] && s[..|unit|] == unit && s[|unit|..] == rest;
    if |unit| == 2 { assert s[1] == unit[1]; }
  }

  // ---------------------------------------------------------------- parsing and printing

  /** `\s*<literal>` at the start: what follows it. */
  function Expect(s: string, literal: string): Option<string> {
    var t := TrimStart(s);
    if literal <= t then Some(t[|literal|..]) else None
  }

  /** `\[\s*name\s*=\s*"..."\s*\]` up to the end of the input: the quoted text, still escaped. */
  function NameClause(s: string): Option<string> {
    var a := Expect(s, "[");
    if a.None? then None else
    var b := Expect(a.value, "name");
    if b.None? then None else
    var c := Expect(b.value, "=");
    if c.None? then None else
    var d := Expect(c.value, "\"");
    if d.None? then None else
    var q := QuotedBody(d.value);
    if q.Unclosed? then None else
    var f := Expect(q.rest, "]");
    if f == Some("") then Some(q.body) else None
  }

  function ParseRole(value: string): Parsed {
    var n := NameRun(value);
    if n == 0 || !IsLetter(value[0]) then InvalidTarget
    else
      var role := Lower(value[..n]);
      if TrimStart(value[n..]) == [] then Ok(Role(role, None))
      else
        var clause := NameClause(value[n..]);
        if clause.None? || Unescape(clause.value) == [] then InvalidTarget
        else Ok(Role(role, Some(Unescape(clause.value))))
  }

  /** A value prefix of the grammar. */
  datatype Prefix = Plain(kind: Kind) | RolePrefix

  function Spelling(p: Prefix): string {
    match p
    case RolePrefix => "role"
    case Plain(Css) => "css"
    case Plain(Text) => "text"
    case Plain(Label) => "label"
    case Plain(Placeholder) => "placeholder"
    case Plain(Alt) => "alt"
    case Plain(Title) => "title"
    case Plain(TestId) => "testid"
  }

  function Lookup(s: string): Option<Prefix> {
    if s == "css" then Some(Plain(Css))
    else if s == "text" then Some(Plain(Text))
    else if s == "role" then Some(RolePrefix)
    else if s == "label" then Some(Plain(Label))
    else if s == "placeholder" then Some(Plain(Placeholder))
    else if s == "alt" then Some(Plain(Alt))
    else if s == "title" then Some(Plain(Title))
    else if s == "testid" then Some(Plain(TestId))
    else None
  }

  function ParseValue(prefix: Option<Prefix>, value: string): Parsed {
    if value == [] || prefix.None? then InvalidTarget
    else if prefix.value.RolePrefix? then ParseRole(value)
    else Ok(By(prefix.value.kind, value))
  }

  function ParseTarget(input: string): Parsed {
    var target := Trim(input);
    if target == [] then InvalidTarget
    else if RefDigits(target).Some? then Ok(Ref("e" + RefDigits(target).value))
    else
      var n := NameRun(target);
      if n == 0 || !IsLetter(target[0]) || n == |target| || target[n] != '=' then Ok(By(Text, target))
      else ParseValue(Lookup(Lower(target[..n])), Trim(target[n + 1..]))
  }

  function ClauseText(name: string): string {
    "[" + ("name" + ("=" + ("\"" + (Escape(name) + ("\"" + "]")))))
  }

  function RoleText(role: string, name: Option<string>): string {
    if name.None? then role else role + ClauseText(name.value)
  }

  function Prefixed(prefix: string, value: string): string { prefix + ("=" + value) }

  function DescribeTarget(plan: Plan): string {
    match plan
    case Ref(ref) => Prefixed("ref", ref)
    case By(kind, value) => Prefixed(Spelling(Plain(kind)), value)
    case Role(role, name) => Prefixed(Spelling(RolePrefix), RoleText(role, name))
  }

  // ---------------------------------------------------------------- the plans the parser can produce

  predicate IsValue(s: string) { s != [] && Trimmed(s) }

  /** A name without capitals. */
  predicate IsLowerName(s: string) { IsName(s) && forall i :: 0 <= i < |s| ==> !('A' <= s[i] <= 'Z') }

  predicate WellFormed(p: Plan) {
    match p
    case Ref(ref) => |ref| >= 2 && ref[0] == 'e' && forall i :: 1 <= i < |ref| ==> IsDigit(ref[i])
    case By(_, value) => IsValue(value)
    case Role(role, name) => IsLowerName(role) && (name.Some? ==> name.value != [])
  }

  lemma LowerIsLower(s: string)
    requires IsName(s)
    ensures IsLowerName(Lower(s)) && (IsLowerName(s) ==> Lower(s) == s)
  {}

  lemma ParseRoleWellFormed(value: string)
    ensures ParseRole(value).Ok? ==> WellFormed(ParseRole(value).plan)
  {
    var n := NameRun(value);
    if n > 0 && IsLetter(value[0]) {
      assert value[..n][0] == value[0];
      LowerIsLower(value[..n]);
    }
  }

  lemma ParsedIsWellFormed(input: string)
    ensures ParseTarget(input).Ok? ==> WellFormed(ParseTarget(input).plan)
  {
    var target := Trim(input);
    TrimTrims(input);
    if target != [] {
      if RefDigits(target).Some? {
        var digits := RefDigits(target).value;
        var t := if target[0] == '@' then target[1..] else target;
        assert forall i :: 0 <= i < |digits| ==> IsDigit(digits[i]);
      } else {
        var n := NameRun(target);
        if n < |target| {
          TrimTrims(target[n + 1..]);
          ParseRoleWellFormed(Trim(target[n + 1..]));
        }
      }
    }
  }

  // ---------------------------------------------------------------- the round trip

  lemma SpellingKnown(p: Prefix)
    ensures IsLowerName(Spelling(p)) && Spelling(p)[0] != 'e' && Lookup(Spelling(p)) == Some(p)
  {
    match p
    case RolePrefix =>
    case Plain(kind) =>
      match kind {
        case Css =>
        case Text =>
        case Label =>
        case Placeholder =>
        case Alt =>
        case Title =>
        case TestId =>
      }
  }

  /** A lower-case name, an equals sign and a trimmed value come back as that name and value. */
  lemma ReadPrefixed(prefix: string, value: string)
    requires IsLowerName(prefix) && IsValue(value) && prefix[0] != 'e'
    ensures ParseTarget(Prefixed(prefix, value)) == ParseValue(Lookup(prefix), value)
  {
    var s := Prefixed(prefix, value);
    assert s[0] == prefix[0] && s[|s| - 1] == value[|value| - 1] && IsLetter(prefix[0]);
    assert Trim(s) == s;
    NameRunStops(prefix, "=" + value);
    assert s[..|prefix|] == prefix && s[|prefix| + 1..] == value && Trim(value) == value;
    LowerIsLower(prefix);
  }

  lemma ExpectLiteral(literal: string, rest: string)
    requires literal != [] && !IsSpace(literal[0])
    ensures Expect(literal + rest, literal) == Some(rest)
  {
    assert (literal + rest)[|literal|..] == rest;
  }

  lemma ReadNameClause(name: string)
    ensures NameClause(ClauseText(name)) == Some(Escape(name))
  {
    var closing := "\"" + "]";
    var d := Escape(name) + closing;
    var c := "\"" + d;
    var b := "=" + c;
    var a := "name" + b;
    ExpectLiteral("[", a);
    ExpectLiteral("name", b);
    ExpectLiteral("=", c);
    ExpectLiteral("\"", d);
    EscapeIsQuotable(name, closing);
    assert closing[1..] == "]" + "";
    ExpectLiteral("]", "");
  }

  lemma ReadRole(role: string, name: Option<string>)
    requires IsLowerName(role) && (name.Some? ==> name.value != [])
    ensures ParseRole(RoleText(role, name)) == Ok(Role(role, name))
  {
    LowerIsLower(role);
    var clause := if name.None? then "" else ClauseText(name.value);
    var value := role + clause;
    assert RoleText(role, name) == value;
    assert clause == [] || clause[0] == '[';
    NameRunStops(role, clause);
    assert value[..|role|] == role && value[|role|..] == clause;
    if name.Some? {
      ReadNameClause(name.value);
      UnescapeEscape(name.value);
    }
  }

  lemma RoleTextIsValue(role: string, name: Option<string>)
    requires IsLowerName(role)
    ensures IsValue(RoleText(role, name))
  {
    var value := RoleText(role, name);
    assert value[0] == role[0] && IsLetter(role[0]);
    if name.None? { assert IsNameChar(value[|value| - 1]); } else { assert value[|value| - 1] == ']'; }
  }

  /** A printed ref is not read back: `ref=` is not a prefix of the grammar. */
  lemma RefNotReadBack(ref: string)
    requires WellFormed(Ref(ref))
    ensures ParseTarget(DescribeTarget(Ref(ref))) == InvalidTarget
  {
    ReadPrefixed("ref", ref);
  }

  /**
   * Round trip, for every plan the parser can produce, with arbitrary quotes and backslashes in role names:
   * printing and parsing again gives the plan back exactly when the plan is not a snapshot ref.
   */
  lemma RoundTrip(plan: Plan)
    requires WellFormed(plan)
    ensures ParseTarget(DescribeTarget(plan)) == Ok(plan) <==> !plan.Ref?
  {
    match plan
    case Ref(ref) => RefNotReadBack(ref);
    case By(kind, value) =>
      SpellingKnown(Plain(kind));
      ReadPrefixed(Spelling(Plain(kind)), value);
    case Role(role, name) =>
      SpellingKnown(RolePrefix);
      RoleTextIsValue(role, name);
      ReadPrefixed(Spelling(RolePrefix), RoleText(role, name));
      ReadRole(role, name);
  }

  /** The well-formed plans are exactly those some input parses to. */
  lemma ProducibleIff(plan: Plan)
    ensures WellFormed(plan) <==> exists input :: ParseTarget(input) == Ok(plan)
  {
    if WellFormed(plan) {
      if plan.Ref? {
        var s := plan.ref;
        assert Trim(s) == s && s[0] != '@' && DigitRun(s[1..]) == |s| - 1;
        assert "e" + s[1..] == s;
        assert ParseTarget(s) == Ok(plan);
      } else {
        RoundTrip(plan);
      }
    }
    forall input | ParseTarget(input) == Ok(plan) ensures WellFormed(plan) { ParsedIsWellFormed(input); }
  }
}
