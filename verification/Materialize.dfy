/** Writing a snapshot into an empty directory and capturing it again (src/benchmark/workspace.ts). */
module Materialize {
  import opened BenchTypes
  import opened Sorting
  import opened Strings
  import opened Paths
  import opened SnapshotStream
  import opened Workspace
  import opened WorkspaceTree
  import opened WorkspaceRoundTrip

  // ---------------------------------------------------------------- file-system calls

  /** `mkdir(p, { recursive: true })`. */
  function MakeDirs(tree: Tree, p: Path): Outcome<Tree>
    decreases |p|
  {
    if p in tree then if tree[p].Directory? then Returned(tree) else Threw
    else if p == [] then Returned(tree[[] := Directory])
    else
      var above := MakeDirs(tree, Parent(p));
      if above.Threw? then Threw else Returned(above.value[p := Directory])
  }

  /** `writeFile(p, content, { flag: "wx" })`: the file must not exist and its directory must. */
  function WriteNew(tree: Tree, p: Path, f: File): Outcome<Tree> {
    if p == [] || p in tree || Parent(p) !in tree || !tree[Parent(p)].Directory? then Threw
    else Returned(tree[p := Regular(f.content, f.executable)])
  }

  /** Growing a tree by the directories on the way to `p`. */
  ghost predicate Grown(before: Tree, after: Tree, p: Path) {
    && (forall q :: q in after <==> q in before || q <= p)
    && (forall q :: q in after ==> after[q] == if q in before then before[q] else Directory)
  }

  lemma {:induction false} MakeDirsGrows(tree: Tree, p: Path)
    requires [] in tree
    requires forall q :: q in tree && q <= p ==> tree[q].Directory?
    requires forall q, k :: q in tree && 0 <= k <= |q| ==> q[..k] in tree
    ensures MakeDirs(tree, p).Returned? && Grown(tree, MakeDirs(tree, p).value, p)
    decreases |p|
  {
    if p in tree {
      forall q ensures q in tree || !(q <= p) {
        if q <= p { assert p[..|q|] == q; }
      }
    } else {
      var d := Parent(p);
      forall q | q in tree && q <= d ensures tree[q].Directory? { PrefixOfParent(p, q); }
      MakeDirsGrows(tree, d);
      var t := MakeDirs(tree, d).value;
      forall q ensures q in t[p := Directory] <==> q in tree || q <= p { PrefixOfParent(p, q); }
    }
  }

  lemma PrefixOfParent(p: Path, q: Path)
    requires p != []
    ensures q <= p <==> q <= Parent(p) || q == p
  {
    if q <= p && q != p { assert q == Parent(p)[..|q|]; }
  }

  // ---------------------------------------------------------------- what has been written

  ghost predicate OnTheWay(files: seq<File>, q: Path) {
    exists i :: 0 <= i < |files| && q <= Split(files[i].path)
  }

  ghost predicate IsFilePath(files: seq<File>, q: Path) {
    exists i :: 0 <= i < |files| && Split(files[i].path) == q
  }

  ghost predicate Occupies(tree: Tree, files: seq<File>) {
    forall q :: q in tree <==> q == [] || OnTheWay(files, q)
  }

  ghost predicate Holds(tree: Tree, files: seq<File>) {
    forall i :: 0 <= i < |files| ==> HoldsFile(tree, files[i])
  }

  ghost predicate HoldsFile(tree: Tree, f: File) {
    Split(f.path) in tree && tree[Split(f.path)] == Regular(f.content, f.executable)
  }

  /** The tree holds these files, the directories on their way, and nothing else. */
  ghost predicate Built(tree: Tree, files: seq<File>) {
    && Occupies(tree, files) && Holds(tree, files)
    && forall q :: q in tree && !IsFilePath(files, q) ==> tree[q].Directory?
  }

  lemma OnTheWayGrows(files: seq<File>, f: File, q: Path)
    ensures OnTheWay(files + [f], q) <==> OnTheWay(files, q) || q <= Split(f.path)
  {
    var all := files + [f];
    if OnTheWay(files, q) {
      var i :| 0 <= i < |files| && q <= Split(files[i].path);
      assert q <= Split(all[i].path);
    }
    if q <= Split(f.path) { assert all[|files|] == f; }
  }

  lemma BuiltClosed(tree: Tree, files: seq<File>)
    requires Occupies(tree, files)
    ensures [] in tree
    ensures forall q, k :: q in tree && 0 <= k <= |q| ==> q[..k] in tree
  {
    forall q, k | q in tree && 0 <= k <= |q| ensures q[..k] in tree {
      if q != [] {
        var i :| 0 <= i < |files| && q <= Split(files[i].path);
        assert q[..k] <= Split(files[i].path);
      }
    }
  }

  /** No file written so far is on the way to the next one, or beyond it. */
  ghost predicate Apart(files: seq<File>, f: File) {
    forall i :: 0 <= i < |files| ==> !(Split(files[i].path) <= Split(f.path)) && !(Split(f.path) <= Split(files[i].path))
  }

  lemma PrefixFreeApart(files: seq<File>, n: nat)
    requires PrefixFree(files) && n < |files|
    ensures Apart(files[..n], files[n])
  {
    forall i | 0 <= i < n
      ensures !(Split(files[..n][i].path) <= Split(files[n].path)) && !(Split(files[n].path) <= Split(files[..n][i].path))
    {
      assert files[..n][i] == files[i];
    }
  }

  /** Every write of a prefix-free list succeeds. */
  lemma WriteSucceeds(tree: Tree, files: seq<File>, f: File)
    requires Built(tree, files) && Apart(files, f)
    ensures MakeDirs(tree, Parent(Split(f.path))).Returned?
    ensures WriteNew(MakeDirs(tree, Parent(Split(f.path))).value, Split(f.path), f).Returned?
    ensures Built(WriteNew(MakeDirs(tree, Parent(Split(f.path))).value, Split(f.path), f).value, files + [f])
  {
    var p := Split(f.path);
    var d := Parent(p);
    BuiltClosed(tree, files);
    forall q | q in tree && q <= d ensures tree[q].Directory? {
      PrefixOfParent(p, q);
      NoFileOnTheWay(files, f, q);
    }
    MakeDirsGrows(tree, d);
    NotYetThere(tree, files, f);
    var t := MakeDirs(tree, d).value;
    assert p !in t && d in t;
    WrittenIsBuilt(tree, t, files, f);
  }

  lemma NoFileOnTheWay(files: seq<File>, f: File, q: Path)
    requires Apart(files, f) && q <= Split(f.path)
    ensures !IsFilePath(files, q)
  {
  }

  lemma NotYetThere(tree: Tree, files: seq<File>, f: File)
    requires Occupies(tree, files) && Apart(files, f)
    ensures Split(f.path) !in tree
  {
    assert !OnTheWay(files, Split(f.path));
  }

  lemma WrittenIsBuilt(tree: Tree, t: Tree, files: seq<File>, f: File)
    requires Built(tree, files) && Apart(files, f) && Split(f.path) !in tree && Grown(tree, t, Parent(Split(f.path)))
    ensures Built(t[Split(f.path) := Regular(f.content, f.executable)], files + [f])
  {
    var p, all := Split(f.path), files + [f];
    var u := t[p := Regular(f.content, f.executable)];
    forall q ensures q in u <==> q == [] || OnTheWay(all, q) {
      OnTheWayGrows(files, f, q);
      PrefixOfParent(p, q);
    }
    WrittenHolds(tree, t, files, f);
    forall q | q in u && !IsFilePath(all, q) ensures u[q].Directory? {
      FilePathGrows(files, f, q);
    }
  }

  lemma FilePathGrows(files: seq<File>, f: File, q: Path)
    ensures IsFilePath(files + [f], q) <==> IsFilePath(files, q) || q == Split(f.path)
  {
    var all := files + [f];
    if IsFilePath(files, q) {
      var i :| 0 <= i < |files| && Split(files[i].path) == q;
      assert Split(all[i].path) == q;
    }
    assert all[|files|] == f;
  }

  lemma WrittenHolds(tree: Tree, t: Tree, files: seq<File>, f: File)
    requires Holds(tree, files) && Split(f.path) !in tree && Grown(tree, t, Parent(Split(f.path)))
    ensures Holds(t[Split(f.path) := Regular(f.content, f.executable)], files + [f])
  {
    var all := files + [f];
    var u := t[Split(f.path) := Regular(f.content, f.executable)];
    forall i | 0 <= i < |all| ensures HoldsFile(u, all[i]) {
      if i < |files| { assert HoldsFile(tree, files[i]); }
    }
  }

  ghost predicate EmptyDestination(tree: Tree) {
    forall q :: q in tree ==> q == [] && tree[q].Directory?
  }

  /** The destination is created if missing and must be an empty directory. */
  method PrepareRoot(destination: Tree) returns (r: Outcome<Tree>)
    ensures r.Returned? <==> EmptyDestination(destination)
    ensures r.Returned? ==> r.value == map[[] := Directory]
  {
    var root := MakeDirs(destination, []);
    if root.Threw? { return Threw; }
    assert forall q :: q in destination ==> q in root.value && root.value[q] == destination[q];
    if exists q :: q in root.value && q != [] { return Threw; }
    assert root.value.Keys == {[]};
    return root;
  }

  /** `materializeBenchmarkFiles`: succeeds on every valid snapshot and empty destination, and only there. */
  method MaterializeFiles(s: Snapshot, destination: Tree, hash: Hash) returns (r: Outcome<Tree>)
    ensures r.Returned? <==> ValidSnapshot(s, hash) && EmptyDestination(destination)
    ensures r.Returned? ==> Built(r.value, SortFiles(s.files))
  {
    var files := ValidateSnapshot(s, hash);
    if files.Threw? { return Threw; }
    var root := PrepareRoot(destination);
    if root.Threw? { return Threw; }
    SortedPrefixFree(s.files);
    r := WriteAll(files.value, root.value);
  }

  lemma SortedPrefixFree(files: seq<File>)
    requires PrefixFree(files)
    ensures PrefixFree(SortFiles(files))
  {
    var t := SortFiles(files);
    PrefixFreeDistinct(files);
    DistinctPathsPermute(files, t);
    forall i, j | 0 <= i < |t| && 0 <= j < |t| && Split(t[i].path) <= Split(t[j].path) ensures i == j {
      assert t[i] in multiset(t) && t[j] in multiset(t);
      assert t[i] in files && t[j] in files;
      var a :| 0 <= a < |files| && files[a] == t[i];
      var b :| 0 <= b < |files| && files[b] == t[j];
      assert a == b;
    }
  }

  method WriteAll(files: seq<File>, root: Tree) returns (r: Outcome<Tree>)
    requires PrefixFree(files) && root == map[[] := Directory]
    ensures r.Returned? && Built(r.value, files)
  {
    var tree := root;
    for n := 0 to |files|
      invariant Built(tree, files[..n])
    {
      PrefixFreeApart(files, n);
      WriteSucceeds(tree, files[..n], files[n]);
      assert files[..n + 1] == files[..n] + [files[n]];
      var made := MakeDirs(tree, Parent(Split(files[n].path)));
      if made.Threw? { return Threw; }
      var written := WriteNew(made.value, Split(files[n].path), files[n]);
      if written.Threw? { return Threw; }
      tree := written.value;
    }
    assert files[..|files|] == files;
    return Returned(tree);
  }

  // ---------------------------------------------------------------- the round trip

  lemma BuiltWellFormed(tree: Tree, files: seq<File>)
    requires Built(tree, files) && FilesOk(files)
    ensures WellFormed(tree)
  {
    BuiltClosed(tree, files);
    forall q | q in tree && q != []
      ensures Parent(q) in tree && tree[Parent(q)].Directory? && q[|q| - 1] != "" && !HasSlash(q[|q| - 1])
    {
      var i :| 0 <= i < |files| && q <= Split(files[i].path);
      SplitPlain(files[i].path);
      assert FileOk(files[i]);
      assert q[|q| - 1] == Split(files[i].path)[|q| - 1];
      InnerNode(tree, files, i, Parent(q));
    }
  }

  lemma InnerNode(tree: Tree, files: seq<File>, i: nat, q: Path)
    requires Built(tree, files) && PrefixFree(files) && i < |files| && q <= Split(files[i].path) && q != Split(files[i].path)
    ensures q in tree && tree[q].Directory?
  {
    assert OnTheWay(files, q);
    assert !IsFilePath(files, q);
  }

  lemma BuiltPlaceSafe(files: seq<File>, i: nat, q: Path)
    requires i < |files| && FileOk(files[i]) && q != [] && q <= Split(files[i].path)
    ensures |q| <= MAX_DEPTH && SafePath(Join(q))
  {
    assert Split(files[i].path)[..|q|] == q;
    PrefixSafe(files[i].path, |q|);
  }

  lemma BuiltNodeOk(tree: Tree, files: seq<File>, q: Path)
    requires Built(tree, files) && FilesOk(files) && q in tree
    ensures NodeOk(tree, q)
  {
    if q == [] {
      assert !IsFilePath(files, q);
    } else {
      var i :| 0 <= i < |files| && q <= Split(files[i].path);
      assert FileOk(files[i]);
      BuiltPlaceSafe(files, i, q);
      BuiltNodeKind(tree, files, i, q);
    }
  }

  lemma BuiltNodeKind(tree: Tree, files: seq<File>, i: nat, q: Path)
    requires Built(tree, files) && PrefixFree(files) && i < |files| && FileOk(files[i]) && q <= Split(files[i].path)
    ensures q in tree && !tree[q].Special? && (tree[q].Regular? ==> |tree[q].content| <= MAX_FILE_BYTES)
  {
    if q == Split(files[i].path) {
      assert HoldsFile(tree, files[i]);
    } else {
      InnerNode(tree, files, i, q);
    }
  }

  predicate SkippedFile(f: File, omit: bool) { Skipped(omit, [], Split(f.path)[0]) }

  /** The files a capture keeps. */
  function KeptFiles(files: seq<File>, omit: bool): seq<File> {
    if files == [] then []
    else if SkippedFile(files[0], omit) then KeptFiles(files[1..], omit)
    else [files[0]] + KeptFiles(files[1..], omit)
  }

  lemma {:induction false} KeptFilesHave(files: seq<File>, omit: bool)
    ensures forall f :: f in KeptFiles(files, omit) <==> f in files && !SkippedFile(f, omit)
    ensures |KeptFiles(files, omit)| <= |files| && TotalBytes(KeptFiles(files, omit)) <= TotalBytes(files)
  {
    if files != [] {
      KeptFilesHave(files[1..], omit);
      assert files == [files[0]] + files[1..];
      if !SkippedFile(files[0], omit) { assert KeptFiles(files, omit)[1..] == KeptFiles(files[1..], omit); }
    }
  }

  lemma {:induction false} KeptFilesDistinct(files: seq<File>, omit: bool)
    requires DistinctPaths(files)
    ensures DistinctPaths(KeptFiles(files, omit))
  {
    if files != [] {
      var rest := KeptFiles(files[1..], omit);
      KeptFilesDistinct(files[1..], omit);
      KeptFilesHave(files[1..], omit);
      forall j | 0 <= j < |rest| ensures rest[j].path != files[0].path {
        assert rest[j] in files[1..];
        var k :| 0 <= k < |files[1..]| && files[1..][k] == rest[j];
        assert files[1..][k] == files[k + 1];
      }
    }
  }

  lemma {:induction false} KeepsAll(files: seq<File>)
    ensures KeptFiles(files, false) == files
  {
    if files != [] { KeepsAll(files[1..]); }
  }

  lemma BuiltFileAt(tree: Tree, files: seq<File>, i: nat)
    requires Holds(tree, files) && i < |files|
    ensures IsFileOf(tree, Split(files[i].path), files[i])
  {
    JoinSplit(files[i].path);
    assert HoldsFile(tree, files[i]);
  }

  lemma BuiltKeeps(tree: Tree, files: seq<File>, omit: bool, f: File)
    requires Holds(tree, files) && f in files && !SkippedFile(f, omit)
    ensures Split(f.path) in KeptNodes(tree, omit) && IsFileOf(tree, Split(f.path), f)
  {
    var i :| 0 <= i < |files| && files[i] == f;
    BuiltFileAt(tree, files, i);
  }

  lemma BuiltOnly(tree: Tree, files: seq<File>, omit: bool, q: Path)
    requires Built(tree, files) && q in KeptNodes(tree, omit) && tree[q].Regular?
    ensures FileAt(tree, q) in files && !SkippedFile(FileAt(tree, q), omit)
  {
    assert IsFilePath(files, q);
    var i :| 0 <= i < |files| && Split(files[i].path) == q;
    BuiltFileAt(tree, files, i);
  }

  lemma BuiltLists(tree: Tree, files: seq<File>, omit: bool)
    requires Built(tree, files) && FilesOk(files)
    ensures Lists(tree, omit, KeptFiles(files, omit))
  {
    var kept := KeptFiles(files, omit);
    PrefixFreeDistinct(files);
    KeptFilesDistinct(files, omit);
    KeptFilesHave(files, omit);
    forall f | f in kept ensures exists q :: q in KeptNodes(tree, omit) && IsFileOf(tree, q, f) {
      BuiltKeeps(tree, files, omit, f);
    }
    forall q | q in KeptNodes(tree, omit) && tree[q].Regular? ensures FileAt(tree, q) in kept {
      BuiltOnly(tree, files, omit, q);
    }
  }

  /** The component paths a snapshot occupies, the directory itself included. */
  ghost function Places(files: seq<File>): set<Path> {
    {[]} + set i, k | 0 <= i < |files| && 0 <= k <= |Split(files[i].path)| :: Split(files[i].path)[..k]
  }

  ghost function KeptPlaces(files: seq<File>, omit: bool): set<Path> {
    set q | q in Places(files) && !(q != [] && Skipped(omit, [], q[0]))
  }

  lemma PlacesMean(files: seq<File>, q: Path)
    ensures q in Places(files) <==> q == [] || OnTheWay(files, q)
  {
    if OnTheWay(files, q) {
      var i :| 0 <= i < |files| && q <= Split(files[i].path);
      assert Split(files[i].path)[..|q|] == q;
    }
    if q in Places(files) && q != [] {
      var i, k :| 0 <= i < |files| && 0 <= k <= |Split(files[i].path)| && Split(files[i].path)[..k] == q;
      assert q <= Split(files[i].path);
    }
  }

  lemma BuiltPlaces(tree: Tree, files: seq<File>, omit: bool)
    requires Occupies(tree, files)
    ensures KeptNodes(tree, omit) == KeptPlaces(files, omit)
  {
    forall q ensures q in tree <==> q in Places(files) { PlacesMean(files, q); }
  }

  /**
   * Round trip: a valid snapshot written into an empty directory can be captured again exactly when it
   * occupies at most 4,096 places, and the capture then holds the kept files, sorted, and nothing else.
   */
  lemma RoundTrip(files: seq<File>, tree: Tree, omit: bool)
    requires FilesOk(files) && Built(tree, files)
    ensures WellFormed(tree) && Lists(tree, omit, KeptFiles(files, omit))
    ensures Capturable(tree, omit, KeptFiles(files, omit)) <==> |KeptPlaces(files, omit)| <= MAX_ENTRIES
    ensures Captured(tree, omit).Some? <==> |KeptPlaces(files, omit)| <= MAX_ENTRIES
    ensures Captured(tree, omit).Some? ==> SortFiles(Captured(tree, omit).value.files) == SortFiles(KeptFiles(files, omit))
  {
    BuiltWellFormed(tree, files);
    BuiltLists(tree, files, omit);
    CaptureExact(tree, omit, KeptFiles(files, omit));
    BuiltPlaces(tree, files, omit);
    KeptFilesHave(files, omit);
    forall q | q in KeptNodes(tree, omit) ensures NodeOk(tree, q) { BuiltNodeOk(tree, files, q); }
  }

  lemma RoundTripAll(files: seq<File>, tree: Tree)
    requires FilesOk(files) && Built(tree, files)
    ensures WellFormed(tree) && Lists(tree, false, files)
    ensures Capturable(tree, false, files) <==> |Places(files)| <= MAX_ENTRIES
  {
    RoundTrip(files, tree, false);
    KeepsAll(files);
    NothingSkipped(files);
  }

  lemma NothingSkipped(files: seq<File>)
    ensures KeptPlaces(files, false) == Places(files)
  {}

  /** `materializeBenchmarkFiles` followed by `snapshotBenchmarkFiles` of the same directory. */
  method Resnapshot(s: Snapshot, destination: Tree, hash: Hash) returns (r: Outcome<Snapshot>)
    requires ValidSnapshot(s, hash) && EmptyDestination(destination)
    ensures r.Returned? <==> |Places(SortFiles(s.files))| <= MAX_ENTRIES
    ensures r.Returned? ==> r.value == Snapshot(s.digest, SortFiles(s.files))
  {
    var tree := MaterializeFiles(s, destination, hash);
    SortedFilesOk(s.files);
    SortedTwice(s.files);
    RoundTripAll(SortFiles(s.files), tree.value);
    r := SnapshotFiles(tree.value, tree.value, false, hash, SortFiles(s.files), SortFiles(s.files));
  }

  lemma SortedFilesOk(files: seq<File>)
    requires FilesOk(files)
    ensures FilesOk(SortFiles(files))
  {
    var t := SortFiles(files);
    SortedPrefixFree(files);
    MultisetSize(files);
    MultisetSize(t);
    TotalPermutes(t, files);
    forall i | 0 <= i < |t| ensures FileOk(t[i]) {
      assert t[i] in multiset(t);
      assert t[i] in files;
    }
  }

  lemma SortedTwice(files: seq<File>)
    requires FilesOk(files)
    ensures SortFiles(SortFiles(files)) == SortFiles(files)
  {
    PrefixFreeDistinct(files);
    SortsAlike(files, SortFiles(files));
  }
}
