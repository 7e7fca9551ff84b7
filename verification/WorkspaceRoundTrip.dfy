/** What a capture returns, what writing a snapshot leaves behind, and the two together (src/benchmark/workspace.ts). */
module WorkspaceRoundTrip {
  import opened BenchTypes
  import opened Sorting
  import opened Strings
  import opened Paths
  import opened SnapshotStream
  import opened Workspace
  import opened WorkspaceTree

  // ---------------------------------------------------------------- the walk visits every kept node once

  ghost predicate VisitedBelow(tree: Tree, omit: bool, p: Path, q: Path) {
    q in KeptNodes(tree, omit) && p <= q && |q| <= MAX_DEPTH + 1
  }

  lemma KeptChild(tree: Tree, omit: bool, p: Path, n: string)
    requires p in KeptNodes(tree, omit)
    ensures n in KeptNames(tree, omit, p) <==> p + [n] in KeptNodes(tree, omit)
  {
    ChildIn(tree, p, n);
    if p != [] { assert (p + [n])[0] == p[0]; }
  }

  lemma StepTowards(tree: Tree, omit: bool, p: Path, q: Path)
    requires WellFormed(tree) && p in KeptNodes(tree, omit) && q in KeptNodes(tree, omit) && p <= q && p != q
    ensures p + [q[|p|]] in KeptNodes(tree, omit) && p + [q[|p|]] <= q && tree[p].Directory? && q[|p|] in KeptNames(tree, omit, p)
  {
    NextPrefix(p, q);
    Ancestors(tree, q, |p| + 1);
    Ancestors(tree, q, |p|);
    KeptChild(tree, omit, p, q[|p|]);
  }

  lemma NextPrefix(p: Path, q: Path)
    requires p <= q && p != q
    ensures |p| < |q| && q[..|p|] == p && q[..|p| + 1] == p + [q[|p|]] && p + [q[|p|]] <= q
    ensures (p + [q[|p|]])[0] == q[0]
  {}

  lemma {:induction false} VisitHas(tree: Tree, omit: bool, p: Path, q: Path)
    requires WellFormed(tree) && p in KeptNodes(tree, omit) && |p| <= MAX_DEPTH + 1
    ensures q in Visit(tree, omit, p) <==> VisitedBelow(tree, omit, p, q)
    decreases MAX_DEPTH + 1 - |p|, 1
  {
    if |p| <= MAX_DEPTH && tree[p].Directory? {
      VisitUnfolds(tree, omit, p);
      BelowHas(tree, omit, p, SortedNames(KeptNames(tree, omit, p)), q);
      BelowOrSame(tree, omit, p, q);
    } else {
      LeafHas(tree, omit, p, q);
    }
  }

  lemma LeafHas(tree: Tree, omit: bool, p: Path, q: Path)
    requires WellFormed(tree) && p in KeptNodes(tree, omit) && |p| <= MAX_DEPTH + 1 && (|p| > MAX_DEPTH || !tree[p].Directory?)
    ensures q in Visit(tree, omit, p) <==> VisitedBelow(tree, omit, p, q)
  {
    assert Visit(tree, omit, p) == [p];
    if VisitedBelow(tree, omit, p, q) && q != p { StepTowards(tree, omit, p, q); }
  }

  lemma BelowOrSame(tree: Tree, omit: bool, p: Path, q: Path)
    requires WellFormed(tree) && p in KeptNodes(tree, omit) && |p| <= MAX_DEPTH
    ensures VisitedBelow(tree, omit, p, q) <==>
      q == p || (|p| < |q| && p <= q && q[|p|] in KeptNames(tree, omit, p) && VisitedBelow(tree, omit, p + [q[|p|]], q))
  {
    if VisitedBelow(tree, omit, p, q) && q != p { StepTowards(tree, omit, p, q); }
  }

  /** Below a list of children lies what lies below one of them. */
  lemma {:induction false} BelowHas(tree: Tree, omit: bool, p: Path, names: seq<string>, q: Path)
    requires WellFormed(tree) && p in KeptNodes(tree, omit) && |p| <= MAX_DEPTH
    requires forall i :: 0 <= i < |names| ==> names[i] in KeptNames(tree, omit, p)
    ensures q in VisitAll(tree, omit, p, names) <==>
      |p| < |q| && p <= q && q[|p|] in names && VisitedBelow(tree, omit, p + [q[|p|]], q)
    decreases MAX_DEPTH + 1 - |p|, 0, |names|
  {
    if names != [] {
      assert forall i :: 0 <= i < |names[1..]| ==> names[1..][i] == names[i + 1];
      BelowHas(tree, omit, p, names[1..], q);
      KeptChild(tree, omit, p, names[0]);
      VisitHas(tree, omit, p + [names[0]], q);
      OnlyChild(p, names[0], q);
    }
  }

  lemma OnlyChild(p: Path, n: string, q: Path)
    ensures p + [n] <= q <==> |p| < |q| && p <= q && q[|p|] == n
  {
    if p + [n] <= q { assert (p + [n])[|p|] == n && q[..|p|] == (p + [n])[..|p|]; }
  }

  lemma SortedNamesDistinct(names: set<string>)
    ensures Distinct(SortedNames(names))
  {
    DistinctPermutation(SetSeq(names), SortedNames(names));
  }

  lemma ConcatDistinct<T>(a: seq<T>, b: seq<T>)
    requires Distinct(a) && Distinct(b) && forall x :: x in a ==> x !in b
    ensures Distinct(a + b)
  {
    var all := a + b;
    forall i, j | 0 <= i < j < |all| ensures all[i] != all[j] {
      if i < |a| && j >= |a| { assert a[i] in a && b[j - |a|] in b; }
    }
  }

  lemma {:induction false} VisitDistinct(tree: Tree, omit: bool, p: Path)
    requires WellFormed(tree) && p in KeptNodes(tree, omit) && |p| <= MAX_DEPTH + 1
    ensures Distinct(Visit(tree, omit, p))
    decreases MAX_DEPTH + 1 - |p|, 1, 0
  {
    if |p| <= MAX_DEPTH && tree[p].Directory? {
      var names := SortedNames(KeptNames(tree, omit, p));
      VisitUnfolds(tree, omit, p);
      SortedNamesDistinct(KeptNames(tree, omit, p));
      VisitAllDistinct(tree, omit, p, names);
      BelowHas(tree, omit, p, names, p);
      ConcatDistinct([p], VisitAll(tree, omit, p, names));
    } else {
      assert Visit(tree, omit, p) == [p];
    }
  }

  lemma {:induction false} VisitAllDistinct(tree: Tree, omit: bool, p: Path, names: seq<string>)
    requires WellFormed(tree) && p in KeptNodes(tree, omit) && |p| <= MAX_DEPTH && Distinct(names)
    requires forall i :: 0 <= i < |names| ==> names[i] in KeptNames(tree, omit, p)
    ensures Distinct(VisitAll(tree, omit, p, names))
    decreases MAX_DEPTH + 1 - |p|, 0, |names|
  {
    if names != [] {
      var first, rest := Visit(tree, omit, p + [names[0]]), VisitAll(tree, omit, p, names[1..]);
      KeptChild(tree, omit, p, names[0]);
      VisitDistinct(tree, omit, p + [names[0]]);
      assert forall i :: 0 <= i < |names[1..]| ==> names[1..][i] == names[i + 1];
      VisitAllDistinct(tree, omit, p, names[1..]);
      forall x | x in first ensures x !in rest {
        VisitHas(tree, omit, p + [names[0]], x);
        OnlyChild(p, names[0], x);
        BelowHas(tree, omit, p, names[1..], x);
      }
      ConcatDistinct(first, rest);
    }
  }

  // ---------------------------------------------------------------- files among the nodes

  ghost predicate IsFileOf(tree: Tree, q: Path, f: File) {
    q in tree && tree[q].Regular? && f == FileAt(tree, q)
  }

  lemma {:induction false} FilesInHas(tree: Tree, v: seq<Path>, f: File)
    ensures f in FilesIn(tree, v) <==> exists i :: 0 <= i < |v| && IsFileOf(tree, v[i], f)
  {
    if v != [] {
      FilesInHas(tree, v[1..], f);
      assert forall i :: 1 <= i < |v| ==> v[i] == v[1..][i - 1];
      if f in FilesIn(tree, v[1..]) {
        var i :| 0 <= i < |v[1..]| && IsFileOf(tree, v[1..][i], f);
        assert IsFileOf(tree, v[i + 1], f);
      }
    }
  }

  lemma {:induction false} FilesInDistinct(tree: Tree, v: seq<Path>)
    requires WellFormed(tree) && Distinct(v) && tree[[]].Directory?
    ensures DistinctPaths(FilesIn(tree, v))
  {
    if v != [] {
      FilesInDistinct(tree, v[1..]);
      if v[0] in tree && tree[v[0]].Regular? {
        var rest := FilesIn(tree, v[1..]);
        forall j | 0 <= j < |rest| ensures rest[j].path != Join(v[0]) {
          FilesInHas(tree, v[1..], rest[j]);
          var i :| 0 <= i < |v[1..]| && IsFileOf(tree, v[1..][i], rest[j]);
          assert v[1..][i] == v[i + 1];
          FileAtInjective(tree, v[0], v[i + 1]);
        }
      }
    }
  }

  lemma FileAtInjective(tree: Tree, p: Path, q: Path)
    requires WellFormed(tree) && tree[[]].Directory? && p in tree && q in tree && tree[p].Regular? && tree[q].Regular?
    ensures Join(p) == Join(q) ==> p == q
  {
    NamesPlain(tree, p);
    NamesPlain(tree, q);
    if Join(p) == Join(q) { JoinInjective(p, q); }
  }

  /** `files` names every kept regular file once. */
  ghost predicate Lists(tree: Tree, omit: bool, files: seq<File>) {
    && DistinctPaths(files)
    && (forall f :: f in files ==> exists q :: q in KeptNodes(tree, omit) && IsFileOf(tree, q, f))
    && (forall q :: q in KeptNodes(tree, omit) && tree[q].Regular? ==> FileAt(tree, q) in files)
  }

  /** Nothing in the tree stands in the way of a capture. */
  ghost predicate AllOk(tree: Tree, omit: bool) {
    forall q :: q in KeptNodes(tree, omit) ==> NodeOk(tree, q)
  }

  lemma VisitedOk(tree: Tree, omit: bool)
    requires WellFormed(tree)
    ensures AllOk(tree, omit) <==> NodesOk(tree, Visit(tree, omit, []))
  {
    var v := Visit(tree, omit, []);
    if AllOk(tree, omit) {
      forall i | 0 <= i < |v| ensures NodeOk(tree, v[i]) { VisitHas(tree, omit, [], v[i]); }
    }
    if NodesOk(tree, v) {
      forall q | q in KeptNodes(tree, omit) ensures NodeOk(tree, q) { KeptIsOk(tree, omit, q); }
    }
  }

  lemma KeptIsOk(tree: Tree, omit: bool, q: Path)
    requires WellFormed(tree) && q in KeptNodes(tree, omit) && NodesOk(tree, Visit(tree, omit, []))
    ensures NodeOk(tree, q)
  {
    if |q| > MAX_DEPTH {
      TooDeep(tree, omit, q);
    } else {
      VisitHas(tree, omit, [], q);
    }
  }

  lemma TooDeep(tree: Tree, omit: bool, q: Path)
    requires WellFormed(tree) && q in KeptNodes(tree, omit) && |q| > MAX_DEPTH
    ensures !NodesOk(tree, Visit(tree, omit, []))
  {
    var p := q[..MAX_DEPTH + 1];
    Ancestors(tree, q, MAX_DEPTH + 1);
    assert p[0] == q[0];
    VisitHas(tree, omit, [], p);
    var v := Visit(tree, omit, []);
    assert p in v;
    var i :| 0 <= i < |v| && v[i] == p;
    assert !NodeOk(tree, v[i]);
  }

  lemma {:induction false} DistinctSize<T>(s: seq<T>, m: set<T>)
    requires Distinct(s) && forall x :: x in s <==> x in m
    ensures |s| == |m|
    decreases s
  {
    if s == [] {
      assert m == {};
    } else {
      var rest := s[1..];
      assert s == [s[0]] + rest;
      assert s[0] !in rest;
      DistinctSize(rest, m - {s[0]});
    }
  }

  lemma {:induction false} TotalPermutes(s: seq<File>, t: seq<File>)
    requires multiset(s) == multiset(t)
    ensures TotalBytes(s) == TotalBytes(t)
    decreases s
  {
    if s == [] {
      MultisetSize(t);
      assert |t| == 0;
    } else {
      assert s[0] in multiset(t);
      var k :| 0 <= k < |t| && t[k] == s[0];
      RemoveSame(s, t, k);
      TotalPermutes(s[1..], t[..k] + t[k + 1..]);
      TotalConcat(t[..k], t[k + 1..]);
      assert t == t[..k] + ([t[k]] + t[k + 1..]);
      TotalConcat(t[..k], [t[k]] + t[k + 1..]);
      assert ([t[k]] + t[k + 1..])[1..] == t[k + 1..];
    }
  }

  /** Lists of the same files sort alike. */
  lemma SortsAlike(s: seq<File>, t: seq<File>)
    requires DistinctPaths(s) && multiset(s) == multiset(t)
    ensures SortFiles(s) == SortFiles(t)
  {
    assert TotalPreorder(PathLe) by { PathOrder(); }
    SortBySorts(s, PathLe);
    SortBySorts(t, PathLe);
    var u := SortFiles(s);
    DistinctPathsPermute(s, u);
    forall a, b | a in u && b in u && PathLe(a, b) && PathLe(b, a) ensures a == b {
      StringLeAntisymmetric(a.path, b.path);
    }
    SortedUnique(u, SortFiles(t), PathLe);
  }

  lemma SameFiles(s: seq<File>, t: seq<File>)
    requires DistinctPaths(s) && DistinctPaths(t) && forall f :: f in s <==> f in t
    ensures multiset(s) == multiset(t) && |s| == |t|
  {
    SameElements(s, t);
    MultisetSize(s);
    MultisetSize(t);
  }

  lemma VisitedFile(tree: Tree, omit: bool, files: seq<File>, f: File)
    requires WellFormed(tree) && AllOk(tree, omit) && Lists(tree, omit, files)
    ensures f in FilesIn(tree, Visit(tree, omit, [])) <==> f in files
  {
    var v := Visit(tree, omit, []);
    FilesInHas(tree, v, f);
    if f in FilesIn(tree, v) {
      var i :| 0 <= i < |v| && IsFileOf(tree, v[i], f);
      VisitHas(tree, omit, [], v[i]);
    }
    if f in files {
      var q :| q in KeptNodes(tree, omit) && IsFileOf(tree, q, f);
      assert NodeOk(tree, q);
      VisitHas(tree, omit, [], q);
    }
  }

  lemma VisitedFiles(tree: Tree, omit: bool, files: seq<File>)
    requires WellFormed(tree) && AllOk(tree, omit) && Lists(tree, omit, files)
    ensures multiset(FilesIn(tree, Visit(tree, omit, []))) == multiset(files)
    ensures |FilesIn(tree, Visit(tree, omit, []))| == |files|
  {
    var v := Visit(tree, omit, []);
    var got := FilesIn(tree, v);
    assert [] in KeptNodes(tree, omit) && NodeOk(tree, []);
    VisitDistinct(tree, omit, []);
    FilesInDistinct(tree, v);
    forall f ensures f in got <==> f in files { VisitedFile(tree, omit, files, f); }
    SameFiles(got, files);
  }

  /** The condition under which a directory can be captured, said of the directory alone. */
  ghost predicate Capturable(tree: Tree, omit: bool, files: seq<File>) {
    && AllOk(tree, omit) && |KeptNodes(tree, omit)| <= MAX_ENTRIES
    && |files| <= MAX_FILES && TotalBytes(files) <= MAX_TOTAL_BYTES
  }

  lemma VisitCount(tree: Tree, omit: bool)
    requires WellFormed(tree) && AllOk(tree, omit)
    ensures |Visit(tree, omit, [])| == |KeptNodes(tree, omit)|
  {
    var v := Visit(tree, omit, []);
    VisitDistinct(tree, omit, []);
    forall q ensures q in v <==> q in KeptNodes(tree, omit) {
      VisitHas(tree, omit, [], q);
      if q in KeptNodes(tree, omit) { assert NodeOk(tree, q); }
    }
    DistinctSize(v, KeptNodes(tree, omit));
  }

  lemma CapturedFiles(tree: Tree, omit: bool, files: seq<File>)
    requires WellFormed(tree) && AllOk(tree, omit) && Lists(tree, omit, files)
    ensures var got := FilesIn(tree, Visit(tree, omit, []));
      |got| == |files| && TotalBytes(got) == TotalBytes(files) && SortFiles(got) == SortFiles(files)
  {
    VisitedFiles(tree, omit, files);
    TotalPermutes(FilesIn(tree, Visit(tree, omit, [])), files);
    SortsAlike(files, FilesIn(tree, Visit(tree, omit, [])));
  }

  lemma VisitFromStart(tree: Tree, v: seq<Path>)
    ensures VisitNodes(tree, Tally(0, 0, []), v).Some? <==>
      NodesOk(tree, v) && |v| <= MAX_ENTRIES && |FilesIn(tree, v)| <= MAX_FILES && TotalBytes(FilesIn(tree, v)) <= MAX_TOTAL_BYTES
    ensures VisitNodes(tree, Tally(0, 0, []), v).Some? ==> VisitNodes(tree, Tally(0, 0, []), v).value.files == FilesIn(tree, v)
  {
    VisitMeans(tree, Tally(0, 0, []), v);
    assert [] + FilesIn(tree, v) == FilesIn(tree, v);
  }

  /** What the walk of a whole directory returns. */
  ghost function Captured(tree: Tree, omit: bool): Option<Tally> {
    VisitNodes(tree, Tally(0, 0, []), Visit(tree, omit, []))
  }

  /** The capture is exact: it succeeds under that condition only, and returns every kept file and no other. */
  lemma CaptureExact(tree: Tree, omit: bool, files: seq<File>)
    requires WellFormed(tree) && Lists(tree, omit, files)
    ensures Captured(tree, omit).Some? <==> Capturable(tree, omit, files)
    ensures Captured(tree, omit).Some? ==> SortFiles(Captured(tree, omit).value.files) == SortFiles(files)
  {
    VisitFromStart(tree, Visit(tree, omit, []));
    VisitedOk(tree, omit);
    if AllOk(tree, omit) {
      VisitCount(tree, omit);
      CapturedFiles(tree, omit, files);
    }
  }

  // ---------------------------------------------------------------- snapshots

  /** `capture`. */
  method Capture(tree: Tree, omit: bool, hash: Hash) returns (r: Outcome<Snapshot>)
    requires WellFormed(tree)
    ensures r.Returned? <==> Captured(tree, omit).Some?
    ensures r.Returned? ==> r.value.files == SortFiles(Captured(tree, omit).value.files)
    ensures r.Returned? ==> r.value.digest == hash(Stream(r.value.files))
  {
    var c := new Collector();
    var ok := c.Collect(tree, omit, []);
    if !ok { return Threw; }
    var ordered := SortFiles(c.files);
    return Returned(Snapshot(hash(Stream(ordered)), ordered));
  }

  /** `snapshotBenchmarkFiles`: two captures, of the directory as it is at either time, must agree. */
  method SnapshotFiles(first: Tree, second: Tree, omit: bool, hash: Hash, ghost files: seq<File>, ghost later: seq<File>)
    returns (r: Outcome<Snapshot>)
    requires WellFormed(first) && WellFormed(second) && Lists(first, omit, files) && Lists(second, omit, later)
    ensures r.Returned? <==>
      Capturable(first, omit, files) && Capturable(second, omit, later) && hash(Stream(SortFiles(files))) == hash(Stream(SortFiles(later)))
    ensures r.Returned? ==> r.value == Snapshot(hash(Stream(SortFiles(files))), SortFiles(files))
  {
    CaptureExact(first, omit, files);
    CaptureExact(second, omit, later);
    var a := Capture(first, omit, hash);
    if a.Threw? { return Threw; }
    var b := Capture(second, omit, hash);
    if b.Threw? || a.value.digest != b.value.digest { return Threw; }
    return a;
  }
}
