/**
 * The page a snapshot is taken of (src/browse/snapshot.ts), and which of its nodes get a line: said here by the
 * address of a node in the tree, and shown to be what the recursive walk lists.
 */
module PageTree {
  import opened BenchTypes

  /** What an element prints as. `rest` is the attribute text after the ref. */
  datatype Role =
    | NoRole
    | Iframe(line: string)
    | Named(role: string, name: string, quoted: string, rest: string, fromContent: bool)

  datatype Node =
    | Text(blank: bool, line: string)
    | Element(id: nat, skipped: bool, role: Role, actionable: bool, children: seq<Node>)

  /** One line of the snapshot, before numbering; `Ref` lines carry the element they name. */
  datatype Entry =
    | Plain(depth: nat, line: string)
    | Ref(depth: nat, id: nat, role: string, name: string, head: string, rest: string)

  function Head(role: Role): string
    requires role.Named?
  {
    "- " + role.role + " \"" + role.quoted + "\""
  }

  // ---------------------------------------------------------------- the uncapped walk

  /** Every line of the subtree, as if there were no cap: a printed element indents its children. */
  function Flatten(n: Node, depth: nat, full: bool, fromContent: bool): seq<Entry> {
    match n
    case Text(blank, line) => if !full || fromContent || blank then [] else [Plain(depth, line)]
    case Element(id, skipped, role, actionable, children) =>
      if skipped then []
      else
        match role
        case Iframe(line) => [Plain(depth, line)]
        case NoRole => FlattenAll(children, depth, full, false)
        case Named(r, name, quoted, rest, byContent) =>
          [if actionable then Ref(depth, id, r, name, Head(role), rest) else Plain(depth, Head(role) + rest)]
          + FlattenAll(children, depth + 1, full, byContent)
  }

  function FlattenAll(children: seq<Node>, depth: nat, full: bool, fromContent: bool): seq<Entry> {
    if children == [] then []
    else
      FlattenAll(children[..|children| - 1], depth, full, fromContent)
      + Flatten(children[|children| - 1], depth, full, fromContent)
  }

  // ---------------------------------------------------------------- nodes by address

  /** The child to take at each level, from the root down. */
  type Address = seq<nat>

  function NodeAt(root: Node, at: Address): Option<Node> {
    if at == [] then Some(root)
    else if root.Element? && at[0] < |root.children| then NodeAt(root.children[at[0]], at[1..])
    else None
  }

  /** Document order: a node before what it contains, and siblings from left to right. */
  predicate Before(a: Address, b: Address) {
    b != [] && (a == [] || a[0] < b[0] || (a[0] == b[0] && Before(a[1..], b[1..])))
  }

  /** An element whose children are looked at. */
  predicate Entered(n: Option<Node>) { n.Some? && n.value.Element? && !n.value.skipped && !n.value.role.Iframe? }

  predicate IsNamed(n: Option<Node>) { n.Some? && n.value.Element? && n.value.role.Named? }

  predicate NamedByContent(n: Option<Node>) { IsNamed(n) && n.value.role.fromContent }

  /** A node of the page that is not skipped, and no ancestor is skipped or a frame. */
  ghost predicate Shown(root: Node, at: Address) {
    && NodeAt(root, at).Some?
    && (NodeAt(root, at).value.Element? ==> !NodeAt(root, at).value.skipped)
    && forall k :: 0 <= k < |at| ==> Entered(NodeAt(root, at[..k]))
  }

  /** How many of the first `k` nodes on the way to an address are named. */
  function NamedAbove(root: Node, at: Address, k: nat): nat
    requires k <= |at|
  {
    if k == 0 then 0 else NamedAbove(root, at, k - 1) + (if IsNamed(NodeAt(root, at[..k - 1])) then 1 else 0)
  }

  /** The line of a shown node at some depth, if it has one. */
  function OwnEntry(n: Node, depth: nat, full: bool, parentByContent: bool): Option<Entry> {
    match n
    case Text(blank, line) => if full && !blank && !parentByContent then Some(Plain(depth, line)) else None
    case Element(id, _, role, actionable, _) =>
      match role
      case NoRole => None
      case Iframe(line) => Some(Plain(depth, line))
      case Named(r, name, quoted, rest, _) =>
        if actionable then Some(Ref(depth, id, r, name, Head(role), rest)) else Some(Plain(depth, Head(role) + rest))
  }

  /** The line of the node at an address, indented once for every named ancestor. */
  ghost function EntryAt(root: Node, at: Address, full: bool): Option<Entry> {
    if !Shown(root, at) then None
    else OwnEntry(NodeAt(root, at).value, NamedAbove(root, at, |at|), full, at != [] && NamedByContent(NodeAt(root, at[..|at| - 1])))
  }

  ghost predicate InDocumentOrder(places: seq<Address>) {
    forall i, j :: 0 <= i < j < |places| ==> Before(places[i], places[j])
  }

  /** The entries are those of the page, each once and in document order; `places` says where they come from. */
  ghost predicate ListsPage(root: Node, full: bool, places: seq<Address>, es: seq<Entry>) {
    && |places| == |es| && InDocumentOrder(places)
    && (forall i :: 0 <= i < |es| ==> EntryAt(root, places[i], full) == Some(es[i]))
    && (forall at :: EntryAt(root, at, full).Some? ==> at in places)
  }

  ghost predicate IsWalk(root: Node, full: bool, es: seq<Entry>) {
    exists places :: ListsPage(root, full, places, es)
  }

  // ---------------------------------------------------------------- the same, from the top down

  /** The entry at an address below a node that is itself reached at `depth`. */
  ghost function EntryBelow(n: Node, at: Address, depth: nat, full: bool, fromContent: bool): Option<Entry>
    decreases |at|
  {
    if at == [] then (if n.Element? && n.skipped then None else OwnEntry(n, depth, full, fromContent))
    else if Entered(Some(n)) && at[0] < |n.children| then
      EntryBelow(n.children[at[0]], at[1..], if n.role.Named? then depth + 1 else depth, full, NamedByContent(Some(n)))
    else None
  }

  lemma StepDown(n: Node, at: Address, k: nat)
    requires at != [] && n.Element? && at[0] < |n.children| && k < |at|
    ensures NodeAt(n, at[..k + 1]) == NodeAt(n.children[at[0]], at[1..][..k])
  {
    assert at[..k + 1][1..] == at[1..][..k];
  }

  lemma {:induction false} NamedBelow(n: Node, at: Address, k: nat)
    requires at != [] && n.Element? && at[0] < |n.children| && k < |at|
    ensures NamedAbove(n, at, k + 1) == NamedAbove(n.children[at[0]], at[1..], k) + (if n.role.Named? then 1 else 0)
  {
    if k == 0 {
      assert at[..0] == [];
    } else {
      NamedBelow(n, at, k - 1);
      StepDown(n, at, k - 1);
    }
  }

  lemma ShownBelow(n: Node, at: Address)
    requires at != [] && n.Element? && at[0] < |n.children|
    ensures Shown(n, at) <==> Entered(Some(n)) && Shown(n.children[at[0]], at[1..])
  {
    var child, rest := n.children[at[0]], at[1..];
    assert at[..0] == [];
    if Shown(n, at) {
      forall k | 0 <= k < |rest| ensures Entered(NodeAt(child, rest[..k])) { StepDown(n, at, k); }
    }
    if Entered(Some(n)) && Shown(child, rest) {
      forall k | 0 <= k < |at| ensures Entered(NodeAt(n, at[..k])) {
        if k > 0 { StepDown(n, at, k - 1); }
      }
    }
  }

  /** What `EntryAt` says when the root is itself at `depth` and its parent may take its name from its content. */
  ghost function EntryFrom(n: Node, at: Address, depth: nat, full: bool, fromContent: bool): Option<Entry> {
    if !Shown(n, at) then None
    else
      OwnEntry(NodeAt(n, at).value, depth + NamedAbove(n, at, |at|), full,
               if at == [] then fromContent else NamedByContent(NodeAt(n, at[..|at| - 1])))
  }

  lemma {:induction false} BelowIsFrom(n: Node, at: Address, depth: nat, full: bool, fromContent: bool)
    ensures EntryBelow(n, at, depth, full, fromContent) == EntryFrom(n, at, depth, full, fromContent)
    decreases |at|
  {
    if at != [] {
      assert at[..0] == [];
      if n.Element? && at[0] < |n.children| {
        ShownBelow(n, at);
        if Entered(Some(n)) {
          BelowIsFrom(n.children[at[0]], at[1..], if n.role.Named? then depth + 1 else depth, full, NamedByContent(Some(n)));
          NamedBelow(n, at, |at| - 1);
          if |at| > 1 { StepDown(n, at, |at| - 2); }
        }
      }
    }
  }

  // ---------------------------------------------------------------- where the walk finds its entries

  ghost function Places(n: Node, full: bool, fromContent: bool): seq<Address> {
    if n.Element? && n.skipped then []
    else
      (if OwnEntry(n, 0, full, fromContent).Some? then [[]] else [])
      + (if Entered(Some(n)) then PlacesAll(n.children, full, NamedByContent(Some(n))) else [])
  }

  ghost function PlacesAll(children: seq<Node>, full: bool, fromContent: bool): seq<Address> {
    if children == [] then []
    else
      var last := |children| - 1;
      PlacesAll(children[..last], full, fromContent) + Under(last, Places(children[last], full, fromContent))
  }

  ghost function Under(i: nat, places: seq<Address>): (r: seq<Address>)
    ensures |r| == |places| && forall k :: 0 <= k < |r| ==> r[k] == [i] + places[k]
  {
    seq(|places|, k requires 0 <= k < |places| => [i] + places[k])
  }

  ghost function EntryAmong(children: seq<Node>, at: Address, depth: nat, full: bool, fromContent: bool): Option<Entry> {
    if at != [] && at[0] < |children| then EntryBelow(children[at[0]], at[1..], depth, full, fromContent) else None
  }

  ghost predicate Lists(n: Node, depth: nat, full: bool, fromContent: bool, places: seq<Address>, es: seq<Entry>) {
    && |places| == |es| && InDocumentOrder(places)
    && (forall i :: 0 <= i < |es| ==> EntryBelow(n, places[i], depth, full, fromContent) == Some(es[i]))
    && (forall at :: EntryBelow(n, at, depth, full, fromContent).Some? ==> at in places)
  }

  ghost predicate ListsAll(children: seq<Node>, depth: nat, full: bool, fromContent: bool, places: seq<Address>, es: seq<Entry>) {
    && |places| == |es| && InDocumentOrder(places)
    && (forall i :: 0 <= i < |es| ==> EntryAmong(children, places[i], depth, full, fromContent) == Some(es[i]))
    && (forall at :: EntryAmong(children, at, depth, full, fromContent).Some? ==> at in places)
  }

  lemma {:induction false} NodeListed(n: Node, depth: nat, full: bool, fromContent: bool)
    ensures Lists(n, depth, full, fromContent, Places(n, full, fromContent), Flatten(n, depth, full, fromContent))
    decreases n, 1
  {
    if Entered(Some(n)) {
      var below := if n.role.Named? then depth + 1 else depth;
      var byContent := NamedByContent(Some(n));
      ChildrenListed(n.children, below, full, byContent);
      OwnThenChildren(n, depth, full, fromContent, PlacesAll(n.children, full, byContent), FlattenAll(n.children, below, full, byContent));
    } else {
      OwnOnly(n, depth, full, fromContent);
    }
  }

  lemma OwnOnly(n: Node, depth: nat, full: bool, fromContent: bool)
    requires !Entered(Some(n))
    ensures Lists(n, depth, full, fromContent, Places(n, full, fromContent), Flatten(n, depth, full, fromContent))
  {
    forall at | EntryBelow(n, at, depth, full, fromContent).Some? ensures at in Places(n, full, fromContent) {
      assert at == [];
    }
  }

  /** An element's own line, if it has one, comes before those of its children. */
  lemma OwnThenChildren(n: Node, depth: nat, full: bool, fromContent: bool, places: seq<Address>, es: seq<Entry>)
    requires Entered(Some(n))
    requires ListsAll(n.children, if n.role.Named? then depth + 1 else depth, full, NamedByContent(Some(n)), places, es)
    ensures n.role.Named? ==> Lists(n, depth, full, fromContent, [[]] + places, [OwnEntry(n, depth, full, fromContent).value] + es)
    ensures n.role.NoRole? ==> Lists(n, depth, full, fromContent, places, es)
  {
    var below := if n.role.Named? then depth + 1 else depth;
    forall at | at != [] ensures EntryBelow(n, at, depth, full, fromContent) == EntryAmong(n.children, at, below, full, NamedByContent(Some(n))) {}
    forall i | 0 <= i < |places| ensures places[i] != [] {
      assert EntryAmong(n.children, places[i], below, full, NamedByContent(Some(n))).Some?;
    }
    if n.role.Named? {
      var all := [[]] + places;
      forall i, j | 0 <= i < j < |all| ensures Before(all[i], all[j]) {
        if i > 0 { assert Before(places[i - 1], places[j - 1]); }
      }
      forall at | EntryBelow(n, at, depth, full, fromContent).Some? ensures at in all {
        if at != [] { assert at in places; } else { assert all[0] == at; }
      }
    }
  }

  lemma {:induction false} ChildrenListed(children: seq<Node>, depth: nat, full: bool, fromContent: bool)
    ensures ListsAll(children, depth, full, fromContent, PlacesAll(children, full, fromContent), FlattenAll(children, depth, full, fromContent))
    decreases children, 0
  {
    if children != [] {
      var init, last := children[..|children| - 1], children[|children| - 1];
      ChildrenListed(init, depth, full, fromContent);
      NodeListed(last, depth, full, fromContent);
      LastChild(children, depth, full, fromContent,
        PlacesAll(init, full, fromContent), FlattenAll(init, depth, full, fromContent),
        Places(last, full, fromContent), Flatten(last, depth, full, fromContent));
    }
  }

  lemma EarlierChildren(children: seq<Node>, at: Address, depth: nat, full: bool, fromContent: bool)
    requires children != [] && at != [] && at[0] < |children| - 1
    ensures EntryAmong(children, at, depth, full, fromContent) == EntryAmong(children[..|children| - 1], at, depth, full, fromContent)
  {}

  /** The addresses of some children stay left of the next child. */
  lemma PlacesAreLeft(children: seq<Node>, depth: nat, full: bool, fromContent: bool, p: seq<Address>, es: seq<Entry>, i: nat)
    requires ListsAll(children, depth, full, fromContent, p, es) && i < |p|
    ensures p[i] != [] && p[i][0] < |children|
  {
    assert EntryAmong(children, p[i], depth, full, fromContent) == Some(es[i]);
  }

  /** The last child's entries come after those of the earlier children. */
  lemma LastChild(children: seq<Node>, depth: nat, full: bool, fromContent: bool, p: seq<Address>, es: seq<Entry>, q: seq<Address>, fs: seq<Entry>)
    requires children != []
    requires ListsAll(children[..|children| - 1], depth, full, fromContent, p, es)
    requires Lists(children[|children| - 1], depth, full, fromContent, q, fs)
    ensures ListsAll(children, depth, full, fromContent, p + Under(|children| - 1, q), es + fs)
  {
    var n := |children| - 1;
    var all := p + Under(n, q);
    forall i, j | 0 <= i < j < |all| ensures Before(all[i], all[j]) {
      if i < |p| { PlacesAreLeft(children[..n], depth, full, fromContent, p, es, i); }
      if |p| <= i { BeforeUnder(n, q, i - |p|, j - |p|); }
    }
    forall i | 0 <= i < |all| ensures EntryAmong(children, all[i], depth, full, fromContent) == Some((es + fs)[i]) {
      if i < |p| {
        PlacesAreLeft(children[..n], depth, full, fromContent, p, es, i);
        EarlierChildren(children, p[i], depth, full, fromContent);
      } else {
        assert ([n] + q[i - |p|])[1..] == q[i - |p|];
      }
    }
    forall at | EntryAmong(children, at, depth, full, fromContent).Some? ensures at in all {
      LastChildComplete(children, depth, full, fromContent, p, es, q, fs, at);
    }
  }

  lemma LastChildComplete(children: seq<Node>, depth: nat, full: bool, fromContent: bool, p: seq<Address>, es: seq<Entry>, q: seq<Address>, fs: seq<Entry>, at: Address)
    requires children != []
    requires ListsAll(children[..|children| - 1], depth, full, fromContent, p, es)
    requires Lists(children[|children| - 1], depth, full, fromContent, q, fs)
    requires EntryAmong(children, at, depth, full, fromContent).Some?
    ensures at in p + Under(|children| - 1, q)
  {
    if at[0] < |children| - 1 {
      EarlierChildren(children, at, depth, full, fromContent);
      assert at in p;
    } else {
      assert at[1..] in q;
      var k :| 0 <= k < |q| && q[k] == at[1..];
      assert Under(|children| - 1, q)[k] == at;
    }
  }

  lemma BeforeUnder(n: nat, q: seq<Address>, i: nat, j: nat)
    requires i < j < |q| && InDocumentOrder(q)
    ensures Before(Under(n, q)[i], Under(n, q)[j])
  {
    assert ([n] + q[i])[1..] == q[i] && ([n] + q[j])[1..] == q[j];
    assert Before(q[i], q[j]);
  }

  /**
   * The recursive walk lists exactly the lines of the page: every shown frame, every shown element with a role and,
   * in full mode, every shown text that is not blank and not already its parent's name; once each, in document
   * order, as deep as it has named ancestors, with a ref exactly on the actionable elements.
   */
  lemma WalkListsPage(root: Node, full: bool)
    ensures IsWalk(root, full, Flatten(root, 0, full, false))
  {
    NodeListed(root, 0, full, false);
    forall at ensures EntryAt(root, at, full) == EntryBelow(root, at, 0, full, false) { BelowIsFrom(root, at, 0, full, false); }
    assert ListsPage(root, full, Places(root, full, false), Flatten(root, 0, full, false));
  }

  // ---------------------------------------------------------------- one walk only

  lemma {:induction false} BeforeIsStrict(a: Address, b: Address)
    requires Before(a, b)
    ensures a != b && !Before(b, a)
  {
    if a != [] && a[0] == b[0] { BeforeIsStrict(a[1..], b[1..]); }
  }

  /** Two lists in document order with the same members are the same list. */
  lemma {:induction false} OrderDecides(p: seq<Address>, q: seq<Address>)
    requires InDocumentOrder(p) && InDocumentOrder(q) && forall at :: at in p <==> at in q
    ensures p == q
    decreases |p|
  {
    assert q != [] ==> q[0] in q;
    if p != [] {
      assert p[0] in q;
      assert q[0] in p;
      SameFirst(p, q);
      forall at ensures at in p[1..] <==> at in q[1..] { InTail(p, at); InTail(q, at); }
      OrderDecides(p[1..], q[1..]);
    }
  }

  lemma SameFirst(p: seq<Address>, q: seq<Address>)
    requires InDocumentOrder(p) && InDocumentOrder(q) && p != [] && q != [] && p[0] in q && q[0] in p
    ensures p[0] == q[0]
  {
    var i :| 0 <= i < |p| && p[i] == q[0];
    var j :| 0 <= j < |q| && q[j] == p[0];
    if i > 0 {
      BeforeIsStrict(p[0], q[0]);
    }
  }

  lemma InTail(p: seq<Address>, at: Address)
    requires p != [] && InDocumentOrder(p)
    ensures at in p[1..] <==> at in p && at != p[0]
  {
    if at in p[1..] {
      var i :| 0 <= i < |p[1..]| && p[1..][i] == at;
      BeforeIsStrict(p[0], p[i + 1]);
    }
  }

  /** The page decides its walk. */
  lemma WalkUnique(root: Node, full: bool, es: seq<Entry>, fs: seq<Entry>)
    requires IsWalk(root, full, es) && IsWalk(root, full, fs)
    ensures es == fs
  {
    var p :| ListsPage(root, full, p, es);
    var q :| ListsPage(root, full, q, fs);
    forall at ensures at in p <==> at in q {
      if at in p { var i :| 0 <= i < |p| && p[i] == at; }
      if at in q { var i :| 0 <= i < |q| && q[i] == at; }
    }
    OrderDecides(p, q);
    forall i | 0 <= i < |es| ensures es[i] == fs[i] { assert EntryAt(root, p[i], full) == Some(es[i]); }
  }
}
