/**
 * The page-side snapshot walker (`browseSnapshotWalker`, src/browse/snapshot.ts) and the ref numbers the
 * driver reserves for it (src/browse/playwright-driver.ts). Role, accessible name, attributes and
 * visibility are node data; the walk, the character cap, ref assignment and withdrawal are modelled in full.
 */
module Snapshot {
  import opened BenchTypes
  import opened Sorting
  import opened Strings
  import opened PageTree

  const SNAPSHOT_MAX_CHARS := 100000
  const SNAPSHOT_DEFAULT_MAX_CHARS := 20000

  datatype SnapshotRef = SnapshotRef(number: nat, role: string, name: string)

  datatype Page = Page(
    lines: seq<string>,
    refs: seq<SnapshotRef>,
    budget: nat,
    truncated: bool,
    nodeCount: nat,
    truncatedNodes: nat,
    refCounter: nat,
    stamps: map<nat, nat>)

  function RefText(n: nat): string { "e" + Decimal(n) }

  function RefAttribute(n: nat): string { " [ref=" + RefText(n) + "]" }

  function Indent(depth: nat): (s: string)
    ensures |s| == 2 * depth
  {
    if depth == 0 then "" else "  " + Indent(depth - 1)
  }

  lemma {:induction false} FlattenCount(n: Node, d: nat, e: nat, full: bool, fromContent: bool)
    ensures |Flatten(n, d, full, fromContent)| == |Flatten(n, e, full, fromContent)|
  {
    if n.Element? && n.role.NoRole? {
      FlattenAllCount(n.children, d, e, full, false);
    } else if n.Element? && n.role.Named? {
      FlattenAllCount(n.children, d + 1, e + 1, full, n.role.fromContent);
    }
  }

  lemma {:induction false} FlattenAllCount(children: seq<Node>, d: nat, e: nat, full: bool, fromContent: bool)
    ensures |FlattenAll(children, d, full, fromContent)| == |FlattenAll(children, e, full, fromContent)|
  {
    if children != [] {
      FlattenAllCount(children[..|children| - 1], d, e, full, fromContent);
      FlattenCount(children[|children| - 1], d, e, full, fromContent);
    }
  }

  /** The text of an entry when `n` refs came before it. */
  function Line(e: Entry, n: nat): string {
    Indent(e.depth) + (if e.Plain? then e.line else e.head + RefAttribute(n + 1) + e.rest)
  }

  function Cost(e: Entry, n: nat): (c: nat)
    ensures c >= 1
  {
    |Line(e, n)| + 1
  }

  // ---------------------------------------------------------------- what one entry does to the page

  /** Prints the entry if it fits, otherwise truncates; a ref that was not printed is withdrawn. */
  function Emit(p: Page, e: Entry, maxChars: nat): Page {
    var fits := !p.truncated && p.budget + Cost(e, p.refCounter) <= maxChars;
    var names := fits && e.Ref?;
    p.(lines := if fits then p.lines + [Line(e, p.refCounter)] else p.lines,
       refs := if names then p.refs + [SnapshotRef(p.refCounter + 1, e.role, e.name)] else p.refs,
       budget := if fits then p.budget + Cost(e, p.refCounter) else p.budget,
       truncated := !fits,
       nodeCount := if fits then p.nodeCount + 1 else p.nodeCount,
       truncatedNodes := if fits then p.truncatedNodes else p.truncatedNodes + 1,
       refCounter := if names then p.refCounter + 1 else p.refCounter,
       stamps := if names then p.stamps[e.id := p.refCounter + 1]
                 else if e.Ref? && !p.truncated then p.stamps - {e.id} else p.stamps)
  }

  function EmitAll(p: Page, es: seq<Entry>, maxChars: nat): Page {
    if es == [] then p else Emit(EmitAll(p, es[..|es| - 1], maxChars), es[|es| - 1], maxChars)
  }

  lemma {:induction false} EmitConcat(p: Page, a: seq<Entry>, b: seq<Entry>, maxChars: nat)
    ensures EmitAll(p, a + b, maxChars) == EmitAll(EmitAll(p, a, maxChars), b, maxChars)
  {
    if b == [] {
      assert a + b == a;
    } else {
      assert (a + b)[..|a + b| - 1] == a + b[..|b| - 1];
      EmitConcat(p, a, b[..|b| - 1], maxChars);
    }
  }

  /** After the cut, entries are only counted. */
  lemma {:induction false} TruncatedCounts(p: Page, es: seq<Entry>, maxChars: nat)
    requires p.truncated
    ensures EmitAll(p, es, maxChars) == p.(truncatedNodes := p.truncatedNodes + |es|)
  {
    if es != [] { TruncatedCounts(p, es[..|es| - 1], maxChars); }
  }

  // ---------------------------------------------------------------- the walker

  class Walker {
    const maxChars: nat
    const full: bool
    var lines: seq<string>
    var refs: seq<SnapshotRef>
    var budget: nat
    var truncated: bool
    var nodeCount: nat
    var truncatedNodes: nat
    var refCounter: nat
    var stamps: map<nat, nat>

    ghost function Now(): Page
      reads this
    {
      Page(lines, refs, budget, truncated, nodeCount, truncatedNodes, refCounter, stamps)
    }

    /** A snapshot owns the ref namespace: markers of earlier snapshots are dropped first. */
    constructor (maxChars: nat, full: bool, refOffset: nat)
      ensures this.maxChars == maxChars && this.full == full
      ensures Now() == Page([], [], 0, false, 0, 0, refOffset, map[])
    {
      this.maxChars, this.full := maxChars, full;
      lines, refs, budget, truncated, nodeCount, truncatedNodes, refCounter, stamps := [], [], 0, false, 0, 0, refOffset, map[];
    }

    method Record(depth: nat, line: string) returns (printed: bool)
      modifies this
      ensures printed <==> !old(truncated) && old(budget) + 2 * depth + |line| + 1 <= maxChars
      ensures Now() == Emit(old(Now()), Plain(depth, line), maxChars)
    {
      if truncated {
        truncatedNodes := truncatedNodes + 1;
        return false;
      }
      var padding := Indent(depth);
      var cost := |padding| + |line| + 1;
      if budget + cost > maxChars {
        truncated := true;
        truncatedNodes := truncatedNodes + 1;
        return false;
      }
      budget := budget + cost;
      lines := lines + [padding + line];
      nodeCount := nodeCount + 1;
      return true;
    }

    /** The line of an element with a role, with its ref if it is actionable. */
    method PrintElement(element: Node, depth: nat) returns (printed: bool)
      requires element.Element? && element.role.Named?
      modifies this
      ensures
        var e := if element.actionable then Ref(depth, element.id, element.role.role, element.role.name, Head(element.role), element.role.rest)
                 else Plain(depth, Head(element.role) + element.role.rest);
        Now() == Emit(old(Now()), e, maxChars) && (printed <==> !truncated)
    {
      if truncated {
        truncatedNodes := truncatedNodes + 1;
        return false;
      }
      var attribute := "";
      if element.actionable {
        refCounter := refCounter + 1;
        stamps := stamps[element.id := refCounter];
        refs := refs + [SnapshotRef(refCounter, element.role.role, element.role.name)];
        attribute := RefAttribute(refCounter);
      }
      assert Head(element.role) + "" + element.role.rest == Head(element.role) + element.role.rest;
      printed := Record(depth, Head(element.role) + attribute + element.role.rest);
      if !printed && element.actionable {
        refs := refs[..|refs| - 1];
        refCounter := refCounter - 1;
        stamps := stamps - {element.id};
        assert refs == old(refs);
        assert stamps == old(stamps) - {element.id};
      }
    }

    method Walk(element: Node, depth: nat)
      requires element.Element?
      modifies this
      ensures Now() == EmitAll(old(Now()), Flatten(element, depth, full, false), maxChars)
      decreases element, 1
    {
      if element.skipped { return; }
      if element.role.Iframe? {
        var shown := Record(depth, element.role.line);
        return;
      }
      var printed := false;
      if element.role.Named? { printed := PrintElement(element, depth); }
      ghost var after := Now();
      var byContent := element.role.Named? && element.role.fromContent;
      WalkChildren(element, if printed then depth + 1 else depth, byContent);
      if element.role.Named? { OwnLineFirst(old(Now()), after, element, depth, full, printed, maxChars); }
    }

    method WalkChildren(element: Node, depth: nat, byContent: bool)
      requires element.Element?
      modifies this
      ensures Now() == EmitAll(old(Now()), FlattenAll(element.children, depth, full, byContent), maxChars)
      decreases element, 0
    {
      for i := 0 to |element.children|
        invariant Now() == EmitAll(old(Now()), FlattenAll(element.children[..i], depth, full, byContent), maxChars)
      {
        var child := element.children[i];
        NextChild(old(Now()), element.children, i, depth, full, byContent, maxChars);
        match child
        case Element(_, _, _, _, _) =>
          FlattenIgnoresContent(child, depth, full, byContent);
          Walk(child, depth);
        case Text(blank, line) =>
          if full && !byContent && !blank {
            var shown := Record(depth, line);
          }
      }
      assert element.children[..|element.children|] == element.children;
    }
  }

  lemma NextChild(p: Page, children: seq<Node>, i: nat, depth: nat, full: bool, byContent: bool, maxChars: nat)
    requires i < |children|
    ensures EmitAll(p, FlattenAll(children[..i + 1], depth, full, byContent), maxChars)
         == EmitAll(EmitAll(p, FlattenAll(children[..i], depth, full, byContent), maxChars), Flatten(children[i], depth, full, byContent), maxChars)
  {
    assert children[..i + 1][..i] == children[..i];
    EmitConcat(p, FlattenAll(children[..i], depth, full, byContent), Flatten(children[i], depth, full, byContent), maxChars);
  }

  /** An element's own line, then its children; after a cut their depth no longer matters. */
  lemma OwnLineFirst(before: Page, after: Page, element: Node, depth: nat, full: bool, printed: bool, maxChars: nat)
    requires element.Element? && !element.skipped && element.role.Named?
    requires after == Emit(before, Flatten(element, depth, full, false)[0], maxChars) && (printed <==> !after.truncated)
    ensures EmitAll(before, Flatten(element, depth, full, false), maxChars)
         == EmitAll(after, FlattenAll(element.children, if printed then depth + 1 else depth, full, element.role.fromContent), maxChars)
  {
    var mine := Flatten(element, depth, full, false)[0];
    var rest := FlattenAll(element.children, depth + 1, full, element.role.fromContent);
    assert Flatten(element, depth, full, false) == [mine] + rest;
    EmitConcat(before, [mine], rest, maxChars);
    assert EmitAll(before, [mine], maxChars) == after by { assert [mine][..0] == []; }
    if !printed {
      TruncatedCounts(after, rest, maxChars);
      TruncatedCounts(after, FlattenAll(element.children, depth, full, element.role.fromContent), maxChars);
      FlattenAllCount(element.children, depth + 1, depth, full, element.role.fromContent);
    }
  }

  lemma FlattenIgnoresContent(n: Node, depth: nat, full: bool, fromContent: bool)
    requires n.Element?
    ensures Flatten(n, depth, full, fromContent) == Flatten(n, depth, full, false)
  {}

  // ---------------------------------------------------------------- the longest prefix that fits

  /** The elements the entries name, in order. */
  function RefIds(es: seq<Entry>): seq<nat> {
    if es == [] then []
    else
      var e := es[|es| - 1];
      RefIds(es[..|es| - 1]) + (if e.Ref? then [e.id] else [])
  }

  /** The text of the uncapped walk when numbering starts after `offset`. */
  function Render(es: seq<Entry>, offset: nat): (r: seq<string>)
    ensures |r| == |es|
  {
    if es == [] then []
    else
      var init := es[..|es| - 1];
      Render(init, offset) + [Line(es[|es| - 1], offset + |RefIds(init)|)]
  }

  function RefsOf(es: seq<Entry>, offset: nat): (r: seq<SnapshotRef>)
    ensures |r| == |RefIds(es)|
    ensures forall i :: 0 <= i < |r| ==> r[i].number == offset + 1 + i
  {
    if es == [] then []
    else
      var rest, e := RefsOf(es[..|es| - 1], offset), es[|es| - 1];
      if e.Ref? then rest + [SnapshotRef(offset + |rest| + 1, e.role, e.name)] else rest
  }

  /** What the printed lines cost, newlines included. */
  function TotalCost(es: seq<Entry>, offset: nat): (c: nat)
    ensures c >= |es| >= |RefIds(es)|
  {
    if es == [] then 0
    else
      var init := es[..|es| - 1];
      TotalCost(init, offset) + Cost(es[|es| - 1], offset + |RefIds(init)|)
  }

  lemma {:induction false} TotalCostGrows(es: seq<Entry>, j: nat, offset: nat)
    requires j <= |es|
    ensures TotalCost(es[..j], offset) <= TotalCost(es, offset)
    decreases |es|
  {
    if j == |es| {
      assert es[..j] == es;
    } else {
      TotalCostGrows(es[..|es| - 1], j, offset);
      assert es[..|es| - 1][..j] == es[..j];
    }
  }

  lemma {:induction false} RenderPrefix(es: seq<Entry>, k: nat, offset: nat)
    requires k <= |es|
    ensures Render(es[..k], offset) == Render(es, offset)[..k]
    decreases |es|
  {
    if k == |es| {
      assert es[..k] == es;
    } else {
      RenderPrefix(es[..|es| - 1], k, offset);
      assert es[..|es| - 1][..k] == es[..k];
    }
  }

  function Start(offset: nat): Page { Page([], [], 0, false, 0, 0, offset, map[]) }

  /** The page after printing exactly the first `k` entries. */
  ghost predicate Printed(p: Page, es: seq<Entry>, k: nat, offset: nat)
    requires k <= |es|
  {
    && p.nodeCount == k
    && p.lines == Render(es[..k], offset)
    && p.refs == RefsOf(es[..k], offset)
    && p.budget == TotalCost(es[..k], offset)
    && p.refCounter == offset + |RefIds(es[..k])|
    && p.truncatedNodes == |es| - k
    && (p.truncated <==> k < |es|)
  }

  /** The cut is at the first entry that does not fit. */
  ghost predicate CutAt(es: seq<Entry>, k: nat, offset: nat, maxChars: nat)
    requires k <= |es|
  {
    TotalCost(es[..k], offset) <= maxChars && (k < |es| ==> TotalCost(es[..k + 1], offset) > maxChars)
  }

  /** One more entry: what it adds to the refs, the text and the cost. */
  lemma Snoc(init: seq<Entry>, e: Entry, offset: nat)
    ensures RefIds(init + [e]) == RefIds(init) + (if e.Ref? then [e.id] else [])
    ensures Render(init + [e], offset) == Render(init, offset) + [Line(e, offset + |RefIds(init)|)]
    ensures TotalCost(init + [e], offset) == TotalCost(init, offset) + Cost(e, offset + |RefIds(init)|)
    ensures RefsOf(init + [e], offset) == RefsOf(init, offset)
      + (if e.Ref? then [SnapshotRef(offset + |RefIds(init)| + 1, e.role, e.name)] else [])
  {
    assert (init + [e])[..|init + [e]| - 1] == init;
  }

  lemma EmitFits(p: Page, init: seq<Entry>, e: Entry, offset: nat, maxChars: nat)
    requires Printed(p, init, |init|, offset) && TotalCost(init, offset) + Cost(e, offset + |RefIds(init)|) <= maxChars
    ensures Printed(Emit(p, e, maxChars), init + [e], |init| + 1, offset)
  {
    Snoc(init, e, offset);
    assert init[..|init|] == init && (init + [e])[..|init| + 1] == init + [e];
  }

  lemma EmitCut(p: Page, init: seq<Entry>, k: nat, e: Entry, offset: nat, maxChars: nat)
    requires k <= |init| && Printed(p, init, k, offset)
    requires k < |init| || TotalCost(init, offset) + Cost(e, offset + |RefIds(init)|) > maxChars
    ensures Printed(Emit(p, e, maxChars), init + [e], k, offset)
  {
    assert (init + [e])[..k] == init[..k];
    if k < |init| {
      TruncatedStep(p, e, maxChars);
    } else {
      assert init[..k] == init;
      FirstCut(p, e, maxChars);
    }
  }

  /** The first entry that does not fit leaves lines, refs and budget alone. */
  lemma FirstCut(p: Page, e: Entry, maxChars: nat)
    requires !p.truncated && p.budget + Cost(e, p.refCounter) > maxChars
    ensures var q := Emit(p, e, maxChars);
      q.truncated && q.truncatedNodes == p.truncatedNodes + 1 && q.nodeCount == p.nodeCount && q.lines == p.lines && q.refs == p.refs
      && q.budget == p.budget && q.refCounter == p.refCounter
  {}

  lemma {:induction false} EmitPrints(es: seq<Entry>, offset: nat, maxChars: nat)
    ensures
      var p := EmitAll(Start(offset), es, maxChars);
      p.nodeCount <= |es| && Printed(p, es, p.nodeCount, offset) && CutAt(es, p.nodeCount, offset, maxChars)
  {
    if es != [] {
      var init, e := es[..|es| - 1], es[|es| - 1];
      assert es == init + [e];
      EmitPrints(init, offset, maxChars);
      var p := EmitAll(Start(offset), init, maxChars);
      var k := p.nodeCount;
      assert init[..k] == es[..k];
      if k < |init| {
        assert init[..k + 1] == es[..k + 1];
        EmitCut(p, init, k, e, offset, maxChars);
      } else {
        assert init[..k] == init && es[..k + 1] == es;
        Snoc(init, e, offset);
        if TotalCost(es, offset) <= maxChars {
          EmitFits(p, init, e, offset, maxChars);
        } else {
          EmitCut(p, init, k, e, offset, maxChars);
        }
      }
    }
  }

  // ---------------------------------------------------------------- refs and stamps

  /** The stamped elements are exactly those named by the refs, numbered one after the other. */
  ghost predicate StampsMatch(stamps: map<nat, nat>, ids: seq<nat>, offset: nat) {
    && (forall i :: 0 <= i < |ids| ==> ids[i] in stamps && stamps[ids[i]] == offset + 1 + i)
    && (forall id :: id in stamps ==> id in ids)
  }

  lemma StampNext(stamps: map<nat, nat>, ids: seq<nat>, id: nat, offset: nat)
    requires StampsMatch(stamps, ids, offset) && id !in ids
    ensures stamps - {id} == stamps
    ensures StampsMatch(stamps[id := offset + |ids| + 1], ids + [id], offset)
  {
    var t := stamps[id := offset + |ids| + 1];
    forall i | 0 <= i < |ids + [id]| ensures (ids + [id])[i] in t && t[(ids + [id])[i]] == offset + 1 + i {
      if i < |ids| { assert ids[i] in ids; }
    }
    assert id !in stamps;
  }

  lemma StampStep(p: Page, init: seq<Entry>, e: Entry, offset: nat, maxChars: nat)
    requires p.nodeCount == |init| && !p.truncated && p.refCounter == offset + |RefIds(init)|
    requires StampsMatch(p.stamps, RefIds(init), offset) && (e.Ref? ==> e.id !in RefIds(init))
    ensures
      var q := Emit(p, e, maxChars);
      q.nodeCount <= |init| + 1 && StampsMatch(q.stamps, RefIds((init + [e])[..q.nodeCount]), offset)
  {
    assert (init + [e])[..|init|] == init && (init + [e])[..|init| + 1] == init + [e];
    Snoc(init, e, offset);
    if e.Ref? { StampNext(p.stamps, RefIds(init), e.id, offset); }
  }

  lemma {:induction false} EmitStamps(es: seq<Entry>, offset: nat, maxChars: nat)
    requires Distinct(RefIds(es))
    ensures
      var p := EmitAll(Start(offset), es, maxChars);
      p.nodeCount <= |es| && StampsMatch(p.stamps, RefIds(es[..p.nodeCount]), offset)
  {
    if es != [] {
      var init, e := es[..|es| - 1], es[|es| - 1];
      var p := EmitAll(Start(offset), init, maxChars);
      assert es == init + [e];
      Snoc(init, e, offset);
      PrefixOfDistinct(RefIds(init), if e.Ref? then [e.id] else []);
      EmitPrints(init, offset, maxChars);
      EmitStamps(init, offset, maxChars);
      assert init[..p.nodeCount] == es[..p.nodeCount];
      if p.truncated {
        TruncatedStep(p, e, maxChars);
      } else {
        assert init[..|init|] == init;
        assert e.Ref? ==> [e.id][0] !in RefIds(init);
        StampStep(p, init, e, offset, maxChars);
      }
      assert EmitAll(Start(offset), es, maxChars) == Emit(p, e, maxChars);
    }
  }

  lemma TruncatedStep(p: Page, e: Entry, maxChars: nat)
    requires p.truncated
    ensures Emit(p, e, maxChars) == p.(truncatedNodes := p.truncatedNodes + 1)
  {}

  lemma PrefixOfDistinct(a: seq<nat>, b: seq<nat>)
    requires Distinct(a + b)
    ensures Distinct(a) && forall i :: 0 <= i < |b| ==> b[i] !in a
  {
    assert forall i :: 0 <= i < |a| ==> a[i] == (a + b)[i];
    assert forall i :: 0 <= i < |b| ==> b[i] == (a + b)[|a| + i];
  }

  /** Every element of the subtree, in document order. */
  function Ids(n: Node): seq<nat> {
    match n
    case Text(_, _) => []
    case Element(id, _, _, _, children) => [id] + AllIds(children)
  }

  function AllIds(children: seq<Node>): seq<nat> {
    if children == [] then [] else AllIds(children[..|children| - 1]) + Ids(children[|children| - 1])
  }

  lemma {:induction false} RefIdsConcat(a: seq<Entry>, b: seq<Entry>)
    ensures RefIds(a + b) == RefIds(a) + RefIds(b)
  {
    if b == [] {
      assert a + b == a;
    } else {
      assert (a + b)[..|a + b| - 1] == a + b[..|b| - 1];
      RefIdsConcat(a, b[..|b| - 1]);
    }
  }

  lemma {:induction false} RefsAreElements(n: Node, depth: nat, full: bool, fromContent: bool)
    ensures multiset(RefIds(Flatten(n, depth, full, fromContent))) <= multiset(Ids(n))
  {
    match n
    case Text(_, _) =>
    case Element(id, skipped, role, actionable, children) =>
      if !skipped && role.NoRole? {
        AllRefsAreElements(children, depth, full, false);
      } else if !skipped && role.Named? {
        AllRefsAreElements(children, depth + 1, full, role.fromContent);
        var rest := FlattenAll(children, depth + 1, full, role.fromContent);
        var mine := Flatten(n, depth, full, fromContent)[0];
        RefIdsConcat([mine], rest);
        assert RefIds([mine]) == if actionable then [id] else [];
      }
  }

  lemma {:induction false} AllRefsAreElements(children: seq<Node>, depth: nat, full: bool, fromContent: bool)
    ensures multiset(RefIds(FlattenAll(children, depth, full, fromContent))) <= multiset(AllIds(children))
  {
    if children != [] {
      var init, last := children[..|children| - 1], children[|children| - 1];
      AllRefsAreElements(init, depth, full, fromContent);
      RefsAreElements(last, depth, full, fromContent);
      RefIdsConcat(FlattenAll(init, depth, full, fromContent), Flatten(last, depth, full, fromContent));
    }
  }

  lemma RefIdsDistinct(n: Node, depth: nat, full: bool)
    requires Distinct(Ids(n))
    ensures Distinct(RefIds(Flatten(n, depth, full, false)))
  {
    var ids := RefIds(Flatten(n, depth, full, false));
    RefsAreElements(n, depth, full, false);
    DistinctCount(Ids(n));
    DistinctCount(ids);
    forall x | x in ids ensures multiset(ids)[x] == 1 {
      assert x in multiset(ids) && multiset(ids)[x] <= multiset(Ids(n))[x];
    }
  }

  // ---------------------------------------------------------------- whole snapshots

  function Distance(a: int, b: int): nat { if a < b then b - a else a - b }

  /** The host clamps the requested cap into `[1, SNAPSHOT_MAX_CHARS]`; none, or no finite number, means the default. */
  function ClampCap(requested: Option<int>): (cap: nat)
    ensures 1 <= cap <= SNAPSHOT_MAX_CHARS
    ensures requested.None? ==> cap == SNAPSHOT_DEFAULT_MAX_CHARS
    ensures requested.Some? ==> forall n :: 1 <= n <= SNAPSHOT_MAX_CHARS ==> Distance(cap, requested.value) <= Distance(n, requested.value)
  {
    if requested.None? then SNAPSHOT_DEFAULT_MAX_CHARS
    else if requested.value < 1 then 1
    else if requested.value > SNAPSHOT_MAX_CHARS then SNAPSHOT_MAX_CHARS
    else requested.value
  }

  function Join(lines: seq<string>): string {
    if lines == [] then ""
    else if |lines| == 1 then lines[0]
    else Join(lines[..|lines| - 1]) + "\n" + lines[|lines| - 1]
  }

  lemma {:induction false} JoinLength(es: seq<Entry>, offset: nat)
    ensures es != [] ==> |Join(Render(es, offset))| + 1 == TotalCost(es, offset)
  {
    if |es| > 1 {
      var lines := Render(es, offset);
      JoinLength(es[..|es| - 1], offset);
      assert lines[..|lines| - 1] == Render(es[..|es| - 1], offset);
    } else if |es| == 1 {
      assert es[..0] == [];
    }
  }

  function Marker(remaining: nat): string { "[... truncated: " + Decimal(remaining) + " more nodes]" }

  /** What the page sends back, with the stamps its document then carries. */
  datatype Payload = Payload(
    lines: seq<string>,
    nodeCount: nat,
    truncated: bool,
    truncatedNodes: nat,
    refs: seq<SnapshotRef>,
    matched: bool,
    invalidSelector: bool,
    stamps: map<nat, nat>)

  /**
   * The capped snapshot is the longest prefix of the uncapped walk that fits the cap: same lines, same
   * refs, everything else counted; the stamped elements are in bijection with the refs, numbered from
   * the offset, and there are never more refs than characters.
   */
  ghost predicate IsLongestPrefix(r: Payload, es: seq<Entry>, offset: nat, cap: nat) {
    && r.nodeCount <= |es| && r.nodeCount + r.truncatedNodes == |es|
    && r.lines == Render(es, offset)[..r.nodeCount] + (if r.truncated then [Marker(r.truncatedNodes)] else [])
    && (r.truncated <==> r.nodeCount < |es|)
    && r.refs == RefsOf(es[..r.nodeCount], offset)
    && TotalCost(es[..r.nodeCount], offset) <= cap
    && (forall j :: r.nodeCount < j <= |es| ==> TotalCost(es[..j], offset) > cap)
    && Distinct(RefIds(es[..r.nodeCount])) && StampsMatch(r.stamps, RefIds(es[..r.nodeCount]), offset)
    && |r.refs| <= cap
  }

  function PayloadOf(p: Page): Payload {
    Payload(p.lines + (if p.truncated then [Marker(p.truncatedNodes)] else []), p.nodeCount, p.truncated, p.truncatedNodes, p.refs, true, false, p.stamps)
  }

  lemma LongestPrefix(es: seq<Entry>, offset: nat, cap: nat, p: Page)
    requires p == EmitAll(Start(offset), es, cap) && Distinct(RefIds(es))
    ensures IsLongestPrefix(PayloadOf(p), es, offset, cap)
  {
    EmitPrints(es, offset, cap);
    EmitStamps(es, offset, cap);
    var k := p.nodeCount;
    RenderPrefix(es, k, offset);
    PrefixDistinct(es, k);
    forall j | k < j <= |es| ensures TotalCost(es[..j], offset) > cap {
      TotalCostGrows(es[..j], k + 1, offset);
      assert es[..j][..k + 1] == es[..k + 1];
    }
  }

  /** How long the text is: one less than the budget spent, or, when cut, the budget and the marker. */
  lemma TextLength(r: Payload, es: seq<Entry>, offset: nat, cap: nat)
    requires IsLongestPrefix(r, es, offset, cap)
    ensures r.truncated ==> |Join(r.lines)| == TotalCost(es[..r.nodeCount], offset) + |Marker(r.truncatedNodes)|
    ensures !r.truncated && es != [] ==> |Join(r.lines)| + 1 == TotalCost(es, offset) <= cap
    ensures es == [] ==> Join(r.lines) == ""
  {
    var printed := Render(es, offset)[..r.nodeCount];
    RenderPrefix(es, r.nodeCount, offset);
    JoinLength(es[..r.nodeCount], offset);
    if r.truncated {
      JoinSnoc(printed, Marker(r.truncatedNodes));
    } else {
      assert es[..r.nodeCount] == es && r.lines == printed;
    }
  }

  /**
   * One printed ref says the same thing three times: entry `i` is the `j`th ref of the answer, its line shows that
   * ref's name, and its element carries that ref's number.
   */
  ghost predicate NamesItself(r: Payload, e: Entry, i: nat, j: nat, offset: nat) {
    && i < |r.lines| && j < |r.refs| && e.Ref?
    && r.refs[j] == SnapshotRef(offset + 1 + j, e.role, e.name)
    && r.lines[i] == Indent(e.depth) + (e.head + (" [ref=e" + Decimal(offset + 1 + j) + "]") + e.rest)
    && e.id in r.stamps && r.stamps[e.id] == offset + 1 + j
  }

  lemma PrintedRefs(r: Payload, es: seq<Entry>, offset: nat, cap: nat, i: nat)
    requires IsLongestPrefix(r, es, offset, cap) && i < r.nodeCount && es[i].Ref?
    ensures NamesItself(r, es[i], i, |RefIds(es[..i])|, offset)
  {
    RefLine(es, offset, i);
    RefPlace(es, r.nodeCount, offset, i);
    RefAttributeText(offset + |RefIds(es[..i])| + 1);
    assert r.lines[i] == Render(es, offset)[i];
  }

  lemma RefLine(es: seq<Entry>, offset: nat, i: nat)
    requires i < |es|
    ensures Render(es, offset)[i] == Line(es[i], offset + |RefIds(es[..i])|)
  {
    var init, up := es[..i], es[..i + 1];
    assert up == init + [es[i]];
    Snoc(init, es[i], offset);
    RenderPrefix(es, i + 1, offset);
    LastAndPrefix(Render(es, offset), Render(init, offset), Line(es[i], offset + |RefIds(init)|), i);
  }

  lemma LastAndPrefix(all: seq<string>, init: seq<string>, last: string, i: nat)
    requires i < |all| && |init| == i && all[..i + 1] == init + [last]
    ensures all[i] == last
  {
    assert all[..i + 1][i] == last;
  }

  lemma RefPlace(es: seq<Entry>, k: nat, offset: nat, i: nat)
    requires i < k <= |es| && es[i].Ref?
    ensures var j := |RefIds(es[..i])|;
      && j < |RefIds(es[..k])| && RefIds(es[..k])[j] == es[i].id
      && RefsOf(es[..k], offset)[j] == SnapshotRef(offset + 1 + j, es[i].role, es[i].name)
  {
    assert es[..i + 1] == es[..i] + [es[i]];
    Snoc(es[..i], es[i], offset);
    assert es[..k] == es[..i + 1] + es[i + 1..k];
    RefIdsConcat(es[..i + 1], es[i + 1..k]);
    RefsPrefix(es[..i + 1], es[i + 1..k], offset);
  }

  lemma RefAttributeText(n: nat)
    ensures RefAttribute(n) == " [ref=e" + Decimal(n) + "]"
  {}

  lemma {:induction false} RefsPrefix(a: seq<Entry>, b: seq<Entry>, offset: nat)
    ensures |RefsOf(a, offset)| <= |RefsOf(a + b, offset)| && RefsOf(a, offset) == RefsOf(a + b, offset)[..|RefsOf(a, offset)|]
  {
    if b == [] {
      assert a + b == a;
    } else {
      RefsPrefix(a, b[..|b| - 1], offset);
      assert (a + b)[..|a + b| - 1] == a + b[..|b| - 1];
    }
  }

  lemma JoinSnoc(lines: seq<string>, last: string)
    ensures |Join(lines + [last])| == |Join(lines)| + (if lines == [] then 0 else 1) + |last|
  {
    assert (lines + [last])[..|lines|] == lines;
  }

  lemma PrefixDistinct(es: seq<Entry>, k: nat)
    requires k <= |es| && Distinct(RefIds(es))
    ensures Distinct(RefIds(es[..k]))
  {
    assert es == es[..k] + es[k..];
    RefIdsConcat(es[..k], es[k..]);
    PrefixOfDistinct(RefIds(es[..k]), RefIds(es[k..]));
  }

  /** What the walk starts from: the scope selector may be invalid or match nothing, a document may be empty. */
  datatype Scope = InvalidSelector | NoMatch | NoDocument | Root(root: Node)

  ghost predicate ScopeOk(scope: Scope) { scope.Root? ==> scope.root.Element? && Distinct(Ids(scope.root)) }

  /** Nothing printed; the markers of an earlier snapshot stay, since the walk returns before dropping them. */
  function EmptyResult(scope: Scope, stamped: map<nat, nat>): Payload {
    Payload([], 0, false, 0, [], scope.NoDocument?, scope.InvalidSelector?, stamped)
  }

  /** The snapshot of a scope, on a document that carries the stamps of an earlier one. */
  function SnapshotOf(scope: Scope, requested: Option<int>, full: bool, offset: nat, stamped: map<nat, nat>): Payload {
    if scope.Root? then PayloadOf(EmitAll(Start(offset), Flatten(scope.root, 0, full, false), ClampCap(requested)))
    else EmptyResult(scope, stamped)
  }

  lemma SnapshotSound(scope: Scope, requested: Option<int>, full: bool, offset: nat, stamped: map<nat, nat>)
    requires ScopeOk(scope)
    ensures var r := SnapshotOf(scope, requested, full, offset, stamped);
      && (scope.Root? ==> r.matched && IsLongestPrefix(r, Flatten(scope.root, 0, full, false), offset, ClampCap(requested)))
      && (!scope.Root? ==> r.lines == [] && r.refs == [] && !r.truncated && r.stamps == stamped)
      && |r.refs| <= SNAPSHOT_MAX_CHARS && forall i :: 0 <= i < |r.refs| ==> r.refs[i].number == offset + 1 + i
  {
    if scope.Root? {
      RefIdsDistinct(scope.root, 0, full);
      var es := Flatten(scope.root, 0, full, false);
      LongestPrefix(es, offset, ClampCap(requested), EmitAll(Start(offset), es, ClampCap(requested)));
    }
  }

  /** `browseSnapshotWalker`: an empty result without a root, otherwise the longest prefix of the uncapped walk that fits. */
  method TakeSnapshot(scope: Scope, requested: Option<int>, full: bool, offset: nat, stamped: map<nat, nat>) returns (r: Payload)
    requires ScopeOk(scope)
    ensures r == SnapshotOf(scope, requested, full, offset, stamped)
    ensures scope.Root? ==> r.matched && IsLongestPrefix(r, Flatten(scope.root, 0, full, false), offset, ClampCap(requested))
    ensures scope.Root? ==> exists es :: IsWalk(scope.root, full, es) && IsLongestPrefix(r, es, offset, ClampCap(requested))
    ensures !scope.Root? ==> r.nodeCount == 0 && !r.truncated && r.truncatedNodes == 0
    ensures !scope.Root? ==> r.lines == [] && r.refs == [] && r.stamps == stamped && (r.matched <==> scope.NoDocument?) && (r.invalidSelector <==> scope.InvalidSelector?)
  {
    SnapshotSound(scope, requested, full, offset, stamped);
    if scope.Root? { WalkListsPage(scope.root, full); }
    match scope
    case InvalidSelector => return Payload([], 0, false, 0, [], false, true, stamped);
    case NoMatch => return Payload([], 0, false, 0, [], false, false, stamped);
    case NoDocument => return Payload([], 0, false, 0, [], true, false, stamped);
    case Root(root) =>
      var walker := new Walker(ClampCap(requested), full, offset);
      walker.Walk(root, 0);
      var lines := walker.lines + (if walker.truncated then [Marker(walker.truncatedNodes)] else []);
      return Payload(lines, walker.nodeCount, walker.truncated, walker.truncatedNodes, walker.refs, true, false, walker.stamps);
  }

  // ---------------------------------------------------------------- all snapshots of one process

  /** The module-level counter, and every snapshot asked for so far with its answer once the walk has run. */
  datatype Process = Process(nextSnapshotRefOffset: nat, answers: seq<Answer>)

  datatype Answer = Answer(offset: nat, payload: Option<Payload>)

  /** Pages run concurrently: walks answer in any order, each with the block reserved for it. */
  datatype Event =
    | Reserve
    | Walk(snapshot: nat, scope: Scope, requested: Option<int>, full: bool, stamped: map<nat, nat>)

  function OnReserve(p: Process): Process {
    Process(p.nextSnapshotRefOffset + SNAPSHOT_MAX_CHARS, p.answers + [Answer(p.nextSnapshotRefOffset, None)])
  }

  function OnWalk(p: Process, k: nat, scope: Scope, requested: Option<int>, full: bool, stamped: map<nat, nat>): Process {
    if k >= |p.answers| || p.answers[k].payload.Some? then p
    else
      var offset := p.answers[k].offset;
      p.(answers := p.answers[k := Answer(offset, Some(SnapshotOf(scope, requested, full, offset, stamped)))])
  }

  function Next(p: Process, e: Event): Process {
    match e
    case Reserve => OnReserve(p)
    case Walk(k, scope, requested, full, stamped) => OnWalk(p, k, scope, requested, full, stamped)
  }

  function Run(events: seq<Event>): Process {
    if events == [] then Process(0, []) else Next(Run(events[..|events| - 1]), events[|events| - 1])
  }

  ghost predicate DocumentsOk(events: seq<Event>) {
    forall n :: 0 <= n < |events| && events[n].Walk? ==> ScopeOk(events[n].scope)
  }

  /** Each answer stays inside its own block. */
  ghost predicate InBlock(a: Answer, k: nat) {
    && a.offset == k * SNAPSHOT_MAX_CHARS
    && (a.payload.Some? ==>
          && |a.payload.value.refs| <= SNAPSHOT_MAX_CHARS
          && forall i :: 0 <= i < |a.payload.value.refs| ==> a.payload.value.refs[i].number == a.offset + 1 + i)
  }

  ghost predicate InBlocks(p: Process) {
    && p.nextSnapshotRefOffset == |p.answers| * SNAPSHOT_MAX_CHARS
    && forall k :: 0 <= k < |p.answers| ==> InBlock(p.answers[k], k)
  }

  lemma NextInBlocks(p: Process, e: Event)
    requires InBlocks(p) && (e.Walk? ==> ScopeOk(e.scope))
    ensures InBlocks(Next(p, e))
  {
    match e
    case Reserve =>
    case Walk(k, scope, requested, full, stamped) =>
      if k < |p.answers| {
        assert InBlock(p.answers[k], k);
        SnapshotSound(scope, requested, full, p.answers[k].offset, stamped);
      }
  }

  lemma {:induction false} RunInBlocks(events: seq<Event>)
    requires DocumentsOk(events)
    ensures InBlocks(Run(events))
  {
    if events != [] {
      var init := events[..|events| - 1];
      assert forall n :: 0 <= n < |init| ==> init[n] == events[n];
      RunInBlocks(init);
      NextInBlocks(Run(init), events[|events| - 1]);
    }
  }

  lemma BlocksDisjoint(i: nat, j: nat, x: nat, y: nat)
    requires i != j && i * SNAPSHOT_MAX_CHARS < x <= (i + 1) * SNAPSHOT_MAX_CHARS && j * SNAPSHOT_MAX_CHARS < y <= (j + 1) * SNAPSHOT_MAX_CHARS
    ensures x != y && RefText(x) != RefText(y)
  {
    if RefText(x) == RefText(y) {
      assert Decimal(x) == RefText(x)[1..] && Decimal(y) == RefText(y)[1..];
      DecimalInjective(x, y);
    }
  }

  /** Refs `m` of snapshot `i` and `n` of snapshot `j`, both answered. */
  ghost predicate BothAnswered(p: Process, i: nat, j: nat, m: nat, n: nat) {
    && i < |p.answers| && j < |p.answers| && p.answers[i].payload.Some? && p.answers[j].payload.Some?
    && m < |p.answers[i].payload.value.refs| && n < |p.answers[j].payload.value.refs|
  }

  /** No two refs share a name, neither in one snapshot nor across two. */
  ghost predicate NoNameTwice(p: Process) {
    forall i: nat, j: nat, m: nat, n: nat :: BothAnswered(p, i, j, m, n) && (i != j || m != n) ==> NamesDiffer(p, i, j, m, n)
  }

  ghost predicate NamesDiffer(p: Process, i: nat, j: nat, m: nat, n: nat)
    requires BothAnswered(p, i, j, m, n)
  {
    RefText(p.answers[i].payload.value.refs[m].number) != RefText(p.answers[j].payload.value.refs[n].number)
  }

  lemma InBlocksApart(p: Process)
    requires InBlocks(p)
    ensures NoNameTwice(p)
  {
    forall i: nat, j: nat, m: nat, n: nat | BothAnswered(p, i, j, m, n) && (i != j || m != n) ensures NamesDiffer(p, i, j, m, n) {
      RefsApart(p, i, j, m, n);
    }
  }

  lemma RefsApart(p: Process, i: nat, j: nat, m: nat, n: nat)
    requires InBlocks(p) && BothAnswered(p, i, j, m, n) && (i != j || m != n)
    ensures NamesDiffer(p, i, j, m, n)
  {
    assert InBlock(p.answers[i], i) && InBlock(p.answers[j], j);
    var x, y := p.answers[i].payload.value.refs[m].number, p.answers[j].payload.value.refs[n].number;
    if i != j {
      BlocksDisjoint(i, j, x, y);
    } else if RefText(x) == RefText(y) {
      assert Decimal(x) == RefText(x)[1..] && Decimal(y) == RefText(y)[1..];
      DecimalInjective(x, y);
    }
  }

  /**
   * Over every run of one process, in whatever order pages reserve and answer: no two refs it ever prints share a
   * name, because a walk cannot print more refs than its block has numbers.
   */
  lemma RefsNeverShared(events: seq<Event>)
    requires DocumentsOk(events)
    ensures NoNameTwice(Run(events))
  {
    RunInBlocks(events);
    InBlocksApart(Run(events));
  }

  /** The driver module: the counter is a variable, and each snapshot reserves its block before anything is awaited. */
  class RefNumbers {
    var nextSnapshotRefOffset: nat
    ghost var answers: seq<Answer>

    ghost predicate Valid()
      reads this
    {
      InBlocks(Process(nextSnapshotRefOffset, answers))
    }

    constructor ()
      ensures Valid() && answers == []
    {
      nextSnapshotRefOffset, answers := 0, [];
    }

    /** The part of `snapshot` before its await: no earlier reservation overlaps the block. */
    method Reserve() returns (offset: nat)
      requires Valid()
      modifies this
      ensures Valid() && answers == old(answers) + [Answer(offset, None)]
      ensures forall k :: 0 <= k < |old(answers)| ==> old(answers)[k].offset + SNAPSHOT_MAX_CHARS <= offset
    {
      NextInBlocks(Process(nextSnapshotRefOffset, answers), Event.Reserve);
      assert forall k :: 0 <= k < |answers| ==> InBlock(answers[k], k);
      offset := nextSnapshotRefOffset;
      nextSnapshotRefOffset := nextSnapshotRefOffset + SNAPSHOT_MAX_CHARS;
      answers := answers + [Answer(offset, None)];
    }

    /** The walk in the page, whenever it comes to run; `k` says which reservation it belongs to. */
    method Walk(ghost k: nat, offset: nat, scope: Scope, requested: Option<int>, full: bool, stamped: map<nat, nat>) returns (r: Payload)
      requires Valid() && k < |answers| && answers[k] == Answer(offset, None) && ScopeOk(scope)
      modifies this
      ensures Valid() && answers == old(answers)[k := Answer(offset, Some(r))] && r == SnapshotOf(scope, requested, full, offset, stamped)
      ensures NoNameTwice(Process(nextSnapshotRefOffset, answers))
    {
      NextInBlocks(Process(nextSnapshotRefOffset, answers), Event.Walk(k, scope, requested, full, stamped));
      r := TakeSnapshot(scope, requested, full, offset, stamped);
      answers := answers[k := Answer(offset, Some(r))];
      InBlocksApart(Process(nextSnapshotRefOffset, answers));
    }
  }
}
