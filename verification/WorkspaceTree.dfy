/**
 * Capturing a directory as a snapshot and writing a snapshot into a directory
 * (`snapshotBenchmarkFiles` and `materializeBenchmarkFiles`, src/benchmark/workspace.ts).
 * A directory is a finite map from component paths to nodes; the empty path is the directory itself.
 */
module WorkspaceTree {
  import opened BenchTypes
  import opened Sorting
  import opened Strings
  import opened Paths
  import opened SnapshotStream
  import opened Workspace

  const MAX_ENTRIES := 4096

  /**
   * `Special` is whatever a capture refuses: a symbolic link, anything else that is neither a directory nor a regular
   * file, or a file whose size does not hold still while it is read.
   */
  datatype Node = Directory | Regular(content: seq<Byte>, executable: bool) | Special

  type Tree = map<Path, Node>

  function Parent(p: Path): Path
    requires p != []
  {
    p[..|p| - 1]
  }

  /** A file system: every node but the root lies in a directory, under a name without a slash. */
  ghost predicate WellFormed(tree: Tree) {
    && [] in tree
    && forall q :: q in tree && q != [] ==>
         Parent(q) in tree && tree[Parent(q)].Directory? && q[|q| - 1] != "" && !HasSlash(q[|q| - 1])
  }

  lemma {:induction false} Ancestors(tree: Tree, q: Path, k: nat)
    requires WellFormed(tree) && q in tree && k <= |q|
    ensures q[..k] in tree && (k < |q| ==> tree[q[..k]].Directory?)
    decreases |q|
  {
    if k < |q| {
      Ancestors(tree, Parent(q), k);
      assert Parent(q)[..k] == q[..k];
      if k == |q| - 1 { assert q[..k] == Parent(q); }
    } else {
      assert q[..k] == q;
    }
  }

  lemma {:induction false} NamesPlain(tree: Tree, q: Path)
    requires WellFormed(tree) && q in tree
    ensures Plain(q)
    decreases |q|
  {
    if q != [] {
      NamesPlain(tree, Parent(q));
      forall i | 0 <= i < |q| ensures !HasSlash(q[i]) {
        if i < |q| - 1 { assert Parent(q)[i] == q[i]; }
      }
    }
  }

  // ---------------------------------------------------------------- what a walk sees

  function LowerChar(c: char): char {
    if 'A' <= c <= 'Z' then (c as int + 32) as char else c
  }

  /** `name.toLowerCase() === ".rolebox"`. */
  predicate IsRoleboxState(name: string) {
    var state := ".rolebox";
    |name| == |state| && forall i :: 0 <= i < |name| ==> LowerChar(name[i]) == state[i]
  }

  /** A top-level entry the capture leaves out when asked to. */
  predicate Skipped(omit: bool, p: Path, name: string) { p == [] && omit && IsRoleboxState(name) }

  function ChildNames(tree: Tree, p: Path): set<string> {
    set q | q in tree && |q| == |p| + 1 && q[..|p|] == p :: q[|p|]
  }

  function KeptNames(tree: Tree, omit: bool, p: Path): set<string> {
    set n | n in ChildNames(tree, p) && !Skipped(omit, p, n)
  }

  lemma ChildIn(tree: Tree, p: Path, n: string)
    ensures n in ChildNames(tree, p) <==> p + [n] in tree
  {
    if n in ChildNames(tree, p) {
      var q :| q in tree && |q| == |p| + 1 && q[..|p|] == p && q[|p|] == n;
      assert q == p + [n];
    }
    if p + [n] in tree {
      assert (p + [n])[..|p|] == p && (p + [n])[|p|] == n;
    }
  }

  /** Every node reachable without entering a skipped entry. */
  ghost function KeptNodes(tree: Tree, omit: bool): set<Path> {
    set q | q in tree && !(q != [] && Skipped(omit, [], q[0]))
  }

  ghost function SetSeq<T(!new)>(s: set<T>): (r: seq<T>)
    ensures Distinct(r) && |r| == |s| && forall x :: x in r <==> x in s
  {
    if s == {} then [] else
      var x :| x in s;
      [x] + SetSeq(s - {x})
  }

  ghost function SortedNames(names: set<string>): (r: seq<string>)
    ensures |r| == |names| && forall x :: x in r <==> x in names
  {
    var s := SetSeq(names);
    var r := SortBy(s, StringLe);
    MultisetSize(s);
    MultisetSize(r);
    assert forall x :: x in r <==> x in multiset(r);
    r
  }

  lemma SortedNamesUnique(s: seq<string>, names: set<string>)
    requires Distinct(s) && forall x :: x in s <==> x in names
    ensures SortBy(s, StringLe) == SortedNames(names)
  {
    SameElements(s, SetSeq(names));
    SortedTexts(s, SetSeq(names));
  }

  /** The nodes a walk of `p` visits, in order; it does not look below the depth limit. */
  ghost function Visit(tree: Tree, omit: bool, p: Path): (v: seq<Path>)
    ensures |v| >= 1 && v[0] == p
    decreases MAX_DEPTH + 1 - |p|, 1, 0
  {
    if |p| > MAX_DEPTH || p !in tree || !tree[p].Directory? then [p]
    else [p] + VisitAll(tree, omit, p, SortedNames(KeptNames(tree, omit, p)))
  }

  ghost function VisitAll(tree: Tree, omit: bool, p: Path, names: seq<string>): (v: seq<Path>)
    requires |p| <= MAX_DEPTH
    ensures |v| >= |names|
    decreases MAX_DEPTH + 1 - |p|, 0, |names|
  {
    if names == [] then [] else Visit(tree, omit, p + [names[0]]) + VisitAll(tree, omit, p, names[1..])
  }

  predicate NodeOk(tree: Tree, q: Path) {
    && q in tree && |q| <= MAX_DEPTH
    && (q == [] ==> tree[q].Directory?)
    && (q != [] ==> !tree[q].Special? && SafePath(Join(q)))
    && (tree[q].Regular? ==> |tree[q].content| <= MAX_FILE_BYTES)
  }

  function FileAt(tree: Tree, q: Path): File
    requires q in tree && tree[q].Regular?
  {
    File(Join(q), tree[q].content, tree[q].executable)
  }

  /** The regular files among the nodes visited. */
  function FilesIn(tree: Tree, v: seq<Path>): seq<File> {
    if v == [] then []
    else if v[0] in tree && tree[v[0]].Regular? then [FileAt(tree, v[0])] + FilesIn(tree, v[1..])
    else FilesIn(tree, v[1..])
  }

  /** The counters of a capture. */
  datatype Tally = Tally(entries: nat, bytes: nat, files: seq<File>)

  predicate InLimits(s: Tally) {
    s.entries <= MAX_ENTRIES && s.bytes <= MAX_TOTAL_BYTES && |s.files| <= MAX_FILES
  }

  function Counted(tree: Tree, s: Tally, q: Path): Tally {
    if q in tree && tree[q].Regular?
    then Tally(s.entries + 1, s.bytes + |tree[q].content|, s.files + [FileAt(tree, q)])
    else s.(entries := s.entries + 1)
  }

  /** Visiting one node: none when it is not acceptable or a limit is passed. */
  function VisitNode(tree: Tree, s: Tally, q: Path): Option<Tally> {
    if NodeOk(tree, q) && InLimits(Counted(tree, s, q)) then Some(Counted(tree, s, q)) else None
  }

  function VisitNodes(tree: Tree, s: Tally, v: seq<Path>): Option<Tally>
    decreases v
  {
    if v == [] then Some(s)
    else
      var next := VisitNode(tree, s, v[0]);
      if next.None? then None else VisitNodes(tree, next.value, v[1..])
  }

  lemma {:induction false} VisitConcat(tree: Tree, s: Tally, v: seq<Path>, w: seq<Path>)
    ensures VisitNodes(tree, s, v).None? ==> VisitNodes(tree, s, v + w).None?
    ensures VisitNodes(tree, s, v).Some? ==> VisitNodes(tree, s, v + w) == VisitNodes(tree, VisitNodes(tree, s, v).value, w)
    decreases v
  {
    if v == [] {
      assert v + w == w;
    } else {
      assert (v + w)[0] == v[0] && (v + w)[1..] == v[1..] + w;
      var next := VisitNode(tree, s, v[0]);
      if next.Some? { VisitConcat(tree, next.value, v[1..], w); }
    }
  }

  /** What a successful visit needs of every node, and what it adds up to. */
  lemma {:induction false} VisitMeans(tree: Tree, s: Tally, v: seq<Path>)
    requires InLimits(s)
    ensures VisitNodes(tree, s, v).Some? <==>
      InLimits(TallyAfter(tree, s, v)) && NodesOk(tree, v)
    ensures VisitNodes(tree, s, v).Some? ==> VisitNodes(tree, s, v).value == TallyAfter(tree, s, v)
    decreases v
  {
    if v != [] {
      var next := Counted(tree, s, v[0]);
      TotalStep(tree, s, v);
      if NodeOk(tree, v[0]) && InLimits(next) {
        VisitMeans(tree, next, v[1..]);
        assert forall i :: 1 <= i < |v| ==> v[i] == v[1..][i - 1];
      }
    }
  }

  ghost predicate NodesOk(tree: Tree, v: seq<Path>) {
    forall i :: 0 <= i < |v| ==> NodeOk(tree, v[i])
  }

  ghost function TallyAfter(tree: Tree, s: Tally, v: seq<Path>): Tally {
    Tally(s.entries + |v|, s.bytes + TotalBytes(FilesIn(tree, v)), s.files + FilesIn(tree, v))
  }

  lemma TotalStep(tree: Tree, s: Tally, v: seq<Path>)
    requires v != []
    ensures TallyAfter(tree, s, v) == TallyAfter(tree, Counted(tree, s, v[0]), v[1..])
    ensures InLimits(TallyAfter(tree, s, v)) ==> InLimits(Counted(tree, s, v[0]))
  {
    if v[0] in tree && tree[v[0]].Regular? {
      var f := FileAt(tree, v[0]);
      assert FilesIn(tree, v)[1..] == FilesIn(tree, v[1..]);
      assert s.files + ([f] + FilesIn(tree, v[1..])) == (s.files + [f]) + FilesIn(tree, v[1..]);
    }
  }

  lemma {:induction false} ChildVisited(tree: Tree, omit: bool, p: Path, names: seq<string>, i: nat)
    requires |p| <= MAX_DEPTH && i < |names|
    ensures p + [names[i]] in VisitAll(tree, omit, p, names)
  {
    if i == 0 {
      assert Visit(tree, omit, p + [names[0]])[0] == p + [names[0]];
    } else {
      ChildVisited(tree, omit, p, names[1..], i - 1);
    }
  }

  // ---------------------------------------------------------------- the capture

  /** What a directory handle has given so far: `rest` is still to come. */
  ghost predicate Listing(tree: Tree, omit: bool, p: Path, rest: set<string>, children: seq<string>) {
    && rest <= ChildNames(tree, p)
    && Distinct(children) && |children| == |KeptNames(tree, omit, p) - rest|
    && forall n :: n in children <==> n in KeptNames(tree, omit, p) - rest
  }

  lemma ListingSkips(tree: Tree, omit: bool, p: Path, rest: set<string>, children: seq<string>, n: string)
    requires Listing(tree, omit, p, rest, children) && n in rest && Skipped(omit, p, n)
    ensures Listing(tree, omit, p, rest - {n}, children)
  {
    assert KeptNames(tree, omit, p) - (rest - {n}) == KeptNames(tree, omit, p) - rest;
  }

  lemma ListingAdds(tree: Tree, omit: bool, p: Path, rest: set<string>, children: seq<string>, n: string)
    requires Listing(tree, omit, p, rest, children) && n in rest && !Skipped(omit, p, n)
    ensures Listing(tree, omit, p, rest - {n}, children + [n]) && n in KeptNames(tree, omit, p)
    ensures |children| + 1 <= |KeptNames(tree, omit, p)|
  {
    var kept := KeptNames(tree, omit, p);
    assert kept - (rest - {n}) == (kept - rest) + {n};
    SubsetSize((kept - rest) + {n}, kept);
    assert n !in children;
  }

  lemma ListingDone(tree: Tree, omit: bool, p: Path, children: seq<string>)
    requires Listing(tree, omit, p, {}, children)
    ensures |children| == |KeptNames(tree, omit, p)| && forall n :: n in children <==> n in KeptNames(tree, omit, p)
  {
    assert KeptNames(tree, omit, p) - {} == KeptNames(tree, omit, p);
  }

  /** Every name kept in `p` makes a safe path. */
  ghost predicate SafeNames(tree: Tree, omit: bool, p: Path) {
    forall n :: n in KeptNames(tree, omit, p) ==> SafePath(Join(p + [n]))
  }

  /** The directory handle hands out names in any order. */
  method ListDirectory(tree: Tree, omit: bool, p: Path, entries: nat) returns (ok: bool, children: seq<string>)
    requires entries <= MAX_ENTRIES
    ensures ok <==> entries + |KeptNames(tree, omit, p)| <= MAX_ENTRIES && SafeNames(tree, omit, p)
    ensures ok ==> Distinct(children) && forall n :: n in children <==> n in KeptNames(tree, omit, p)
  {
    var rest := ChildNames(tree, p);
    children := [];
    assert KeptNames(tree, omit, p) - rest == {};
    while rest != {}
      invariant Listing(tree, omit, p, rest, children)
      invariant entries + |children| <= MAX_ENTRIES
      invariant forall i :: 0 <= i < |children| ==> SafePath(Join(p + [children[i]]))
      decreases |rest|
    {
      var n :| n in rest;
      if Skipped(omit, p, n) {
        ListingSkips(tree, omit, p, rest, children, n);
      } else {
        ListingAdds(tree, omit, p, rest, children, n);
        if |children| + entries >= MAX_ENTRIES { return false, []; }
        if !SafePath(Join(p + [n])) { return false, []; }
        children := children + [n];
      }
      rest := rest - {n};
    }
    ListingDone(tree, omit, p, children);
    return true, children;
  }

  class Collector {
    var entries: nat
    var bytes: nat
    var files: seq<File>

    ghost function Now(): Tally
      reads this
    {
      Tally(entries, bytes, files)
    }

    /** The counters, or none after a failure. */
    ghost function Outcome(ok: bool): Option<Tally>
      reads this
    {
      if ok then Some(Now()) else None
    }

    constructor ()
      ensures Now() == Tally(0, 0, [])
    {
      entries, bytes, files := 0, 0, [];
    }

    /** `collect`. */
    method Collect(tree: Tree, omit: bool, p: Path) returns (ok: bool)
      requires p in tree && |p| <= MAX_DEPTH + 1 && InLimits(Now()) && (p != [] ==> SafePath(Join(p)))
      modifies this
      ensures Outcome(ok) == VisitNodes(tree, old(Now()), Visit(tree, omit, p))
      ensures ok ==> InLimits(Now())
      decreases MAX_DEPTH + 1 - |p|, 2
    {
      if |p| <= MAX_DEPTH && tree[p].Directory? {
        VisitDirectory(tree, omit, p, Now(), Below(tree, omit, p));
        ok := CollectDirectory(tree, omit, p);
      } else {
        VisitOther(tree, omit, p, Now());
        ok := CollectFile(tree, p);
      }
    }

    method CollectDirectory(tree: Tree, omit: bool, p: Path) returns (ok: bool)
      requires |p| <= MAX_DEPTH && InLimits(Now())
      modifies this
      ensures Outcome(ok) ==
        if old(entries) < MAX_ENTRIES then VisitNodes(tree, Tally(old(entries) + 1, old(bytes), old(files)), Below(tree, omit, p)) else None
      ensures ok ==> InLimits(Now())
      decreases MAX_DEPTH + 1 - |p|, 1
    {
      entries := entries + 1;
      if entries > MAX_ENTRIES { return false; }
      var listed, children := ListDirectory(tree, omit, p, entries);
      if !listed {
        ListingFails(tree, omit, p, Now());
        return false;
      }
      SortedNamesUnique(children, KeptNames(tree, omit, p));
      KeptChildren(tree, omit, p);
      ok := CollectAll(tree, omit, p, SortBy(children, StringLe));
    }

    /** A node that is not a directory, or lies too deep. */
    method CollectFile(tree: Tree, p: Path) returns (ok: bool)
      requires p in tree && (|p| > MAX_DEPTH || !tree[p].Directory?) && InLimits(Now()) && (p != [] ==> SafePath(Join(p)))
      modifies this
      ensures Outcome(ok) == VisitNode(tree, old(Now()), p)
      ensures ok ==> InLimits(Now())
    {
      if |p| > MAX_DEPTH { return false; }
      entries := entries + 1;
      if entries > MAX_ENTRIES { return false; }
      var node := tree[p];
      if p == [] || node.Special? { return false; }
      if |files| >= MAX_FILES || |node.content| > MAX_FILE_BYTES || bytes + |node.content| > MAX_TOTAL_BYTES { return false; }
      bytes := bytes + |node.content|;
      files := files + [FileAt(tree, p)];
      return true;
    }

    method CollectAll(tree: Tree, omit: bool, p: Path, names: seq<string>) returns (ok: bool)
      requires |p| <= MAX_DEPTH && InLimits(Now())
      requires forall i :: 0 <= i < |names| ==> p + [names[i]] in tree && SafePath(Join(p + [names[i]]))
      modifies this
      ensures Outcome(ok) == VisitNodes(tree, old(Now()), VisitAll(tree, omit, p, names))
      ensures ok ==> InLimits(Now())
      decreases MAX_DEPTH + 1 - |p|, 0
    {
      for k := 0 to |names|
        invariant InLimits(Now())
        invariant VisitNodes(tree, Now(), VisitAll(tree, omit, p, names[k..])) == VisitNodes(tree, old(Now()), VisitAll(tree, omit, p, names))
      {
        NextChild(tree, omit, p, names, k, Now());
        ok := Collect(tree, omit, p + [names[k]]);
        if !ok { return false; }
      }
      return true;
    }
  }

  lemma SubsetSize<T>(a: set<T>, b: set<T>)
    requires a <= b
    ensures |a| <= |b|
  {
    assert b == a + (b - a);
  }

  lemma NextChild(tree: Tree, omit: bool, p: Path, names: seq<string>, k: nat, s: Tally)
    requires |p| <= MAX_DEPTH && k < |names|
    ensures var first := VisitNodes(tree, s, Visit(tree, omit, p + [names[k]]));
      && (first.None? ==> VisitNodes(tree, s, VisitAll(tree, omit, p, names[k..])).None?)
      && (first.Some? ==> VisitNodes(tree, s, VisitAll(tree, omit, p, names[k..])) == VisitNodes(tree, first.value, VisitAll(tree, omit, p, names[k + 1..])))
  {
    assert names[k..][0] == names[k] && names[k..][1..] == names[k + 1..];
    VisitConcat(tree, s, Visit(tree, omit, p + [names[k]]), VisitAll(tree, omit, p, names[k + 1..]));
  }

  lemma VisitCons(tree: Tree, s: Tally, p: Path, w: seq<Path>)
    ensures VisitNodes(tree, s, [p] + w) == if VisitNode(tree, s, p).None? then None else VisitNodes(tree, VisitNode(tree, s, p).value, w)
  {
    assert ([p] + w)[1..] == w;
  }

  lemma VisitUnfolds(tree: Tree, omit: bool, p: Path)
    requires p in tree && |p| <= MAX_DEPTH && tree[p].Directory?
    ensures Visit(tree, omit, p) == [p] + VisitAll(tree, omit, p, SortedNames(KeptNames(tree, omit, p)))
  {}

  lemma CountDirectory(tree: Tree, s: Tally, p: Path)
    requires p in tree && InLimits(s) && (p != [] ==> SafePath(Join(p))) && |p| <= MAX_DEPTH && tree[p].Directory?
    ensures VisitNode(tree, s, p) == if s.entries < MAX_ENTRIES then Some(s.(entries := s.entries + 1)) else None
  {}

  /** What a walk of the directory `p` visits below it. */
  ghost function Below(tree: Tree, omit: bool, p: Path): seq<Path>
    requires |p| <= MAX_DEPTH
  {
    VisitAll(tree, omit, p, SortedNames(KeptNames(tree, omit, p)))
  }

  lemma VisitDirectory(tree: Tree, omit: bool, p: Path, s: Tally, below: seq<Path>)
    requires p in tree && InLimits(s) && (p != [] ==> SafePath(Join(p))) && |p| <= MAX_DEPTH && tree[p].Directory?
    requires below == Below(tree, omit, p)
    ensures VisitNodes(tree, s, Visit(tree, omit, p)) ==
      if s.entries < MAX_ENTRIES then VisitNodes(tree, s.(entries := s.entries + 1), below) else None
  {
    VisitUnfolds(tree, omit, p);
    CountDirectory(tree, s, p);
    VisitCons(tree, s, p, below);
  }

  lemma VisitOther(tree: Tree, omit: bool, p: Path, s: Tally)
    requires p in tree && (|p| > MAX_DEPTH || !tree[p].Directory?)
    ensures VisitNodes(tree, s, Visit(tree, omit, p)) == VisitNode(tree, s, p)
  {
    assert Visit(tree, omit, p) == [p] + [];
    VisitCons(tree, s, p, []);
  }

  lemma KeptChildren(tree: Tree, omit: bool, p: Path)
    requires SafeNames(tree, omit, p)
    ensures var names := SortedNames(KeptNames(tree, omit, p));
      forall i :: 0 <= i < |names| ==> p + [names[i]] in tree && SafePath(Join(p + [names[i]]))
  {
    var names := SortedNames(KeptNames(tree, omit, p));
    forall i | 0 <= i < |names| ensures p + [names[i]] in tree && SafePath(Join(p + [names[i]])) {
      assert names[i] in KeptNames(tree, omit, p);
      ChildIn(tree, p, names[i]);
    }
  }

  lemma ListingFails(tree: Tree, omit: bool, p: Path, s: Tally)
    requires |p| <= MAX_DEPTH && InLimits(s)
    requires !(s.entries + |KeptNames(tree, omit, p)| <= MAX_ENTRIES && SafeNames(tree, omit, p))
    ensures VisitNodes(tree, s, VisitAll(tree, omit, p, SortedNames(KeptNames(tree, omit, p)))).None?
  {
    var names := SortedNames(KeptNames(tree, omit, p));
    var v := VisitAll(tree, omit, p, names);
    VisitMeans(tree, s, v);
    if s.entries + |names| <= MAX_ENTRIES {
      var n :| n in KeptNames(tree, omit, p) && !SafePath(Join(p + [n]));
      assert n in names;
      var i :| 0 <= i < |names| && names[i] == n;
      ChildVisited(tree, omit, p, names, i);
      var j :| 0 <= j < |v| && v[j] == p + [n];
      assert !NodeOk(tree, v[j]);
    }
  }
}
