/** Validating workspace snapshots (src/benchmark/workspace.ts). */
module Workspace {
  import opened BenchTypes
  import opened Sorting
  import opened Strings
  import opened Paths
  import opened SnapshotStream

  const MAX_FILES := 1000
  const MAX_FILE_BYTES := 1048576
  const MAX_TOTAL_BYTES := 16777216
  const MAX_DEPTH := 64

  datatype Snapshot = Snapshot(digest: string, files: seq<File>)

  type Hash = seq<Byte> -> string

  // ---------------------------------------------------------------- valid snapshots

  predicate PathLe(a: File, b: File) { StringLe(a.path, b.path) }

  function SortFiles(files: seq<File>): (r: seq<File>)
    ensures multiset(r) == multiset(files)
  {
    SortBy(files, PathLe)
  }

  lemma PathOrder()
    ensures TotalPreorder(PathLe)
  {
    forall a: File, b: File ensures PathLe(a, b) || PathLe(b, a) { StringLeTotal(a.path, b.path); }
    forall a: File, b: File, c: File | PathLe(a, b) && PathLe(b, c) ensures PathLe(a, c) {
      StringLeTransitive(a.path, b.path, c.path);
    }
  }

  /** Each path once, in order. */
  ghost predicate InPathOrder(files: seq<File>) {
    forall i, j :: 0 <= i < j < |files| ==> StringLe(files[i].path, files[j].path) && files[i].path != files[j].path
  }

  lemma SortedInPathOrder(files: seq<File>)
    requires DistinctPaths(files)
    ensures InPathOrder(SortFiles(files))
  {
    PathOrder();
    SortBySorts(files, PathLe);
    DistinctPathsPermute(files, SortFiles(files));
    assert forall i, j :: 0 <= i < j < |SortFiles(files)| ==> PathLe(SortFiles(files)[i], SortFiles(files)[j]);
  }

  function TotalBytes(files: seq<File>): nat {
    if files == [] then 0 else |files[0].content| + TotalBytes(files[1..])
  }

  predicate FileOk(f: File) {
    SafePath(f.path) && |Split(f.path)| <= MAX_DEPTH && |f.content| <= MAX_FILE_BYTES
  }

  predicate DistinctPaths(files: seq<File>) {
    forall i, j :: 0 <= i < j < |files| ==> files[i].path != files[j].path
  }

  /** No file lies below another: no path is a proper prefix of another, component by component. */
  predicate PrefixFree(files: seq<File>) {
    forall i, j :: 0 <= i < |files| && 0 <= j < |files| && Split(files[i].path) <= Split(files[j].path) ==> i == j
  }

  predicate FilesOk(files: seq<File>) {
    && |files| <= MAX_FILES && TotalBytes(files) <= MAX_TOTAL_BYTES
    && (forall i :: 0 <= i < |files| ==> FileOk(files[i]))
    && PrefixFree(files)
  }

  predicate ValidSnapshot(s: Snapshot, hash: Hash) {
    FilesOk(s.files) && s.digest == hash(Stream(SortFiles(s.files)))
  }

  lemma {:induction false} TotalConcat(a: seq<File>, b: seq<File>)
    ensures TotalBytes(a + b) == TotalBytes(a) + TotalBytes(b)
  {
    if a == [] {
      assert a + b == b;
    } else {
      assert (a + b)[1..] == a[1..] + b;
      TotalConcat(a[1..], b);
    }
  }

  /** A path equal to the first `k` components of another, as the parser looks it up. */
  lemma AncestorName(a: string, b: string, k: nat)
    requires 1 <= k <= |Split(b)|
    ensures a == Join(Split(b)[..k]) <==> Split(a) == Split(b)[..k]
  {
    SplitPlain(b);
    SplitJoin(Split(b)[..k]);
    JoinSplit(a);
  }

  /** Another file lies on the way to the `n`-th one, or at its place. */
  ghost predicate Blocked(files: seq<File>, n: nat)
    requires n < |files|
  {
    exists i :: 0 <= i < |files| && i != n && Split(files[i].path) <= Split(files[n].path)
  }

  ghost predicate AncestorIn(parts: Path, names: set<string>) {
    exists k :: 1 <= k < |parts| && Join(parts[..k]) in names
  }

  lemma BlockedByAncestor(files: seq<File>, names: set<string>, n: nat)
    requires DistinctPaths(files) && names == (set i | 0 <= i < |files| :: files[i].path) && n < |files|
    ensures Blocked(files, n) <==> AncestorIn(Split(files[n].path), names)
  {
    var parts := Split(files[n].path);
    if AncestorIn(parts, names) {
      var k :| 1 <= k < |parts| && Join(parts[..k]) in names;
      var i :| 0 <= i < |files| && files[i].path == Join(parts[..k]);
      AncestorName(files[i].path, files[n].path, k);
      assert i != n;
    }
    if Blocked(files, n) {
      var i :| 0 <= i < |files| && i != n && Split(files[i].path) <= parts;
      BlockedIsProper(files, i, n);
      AncestorName(files[i].path, files[n].path, |Split(files[i].path)|);
      assert Join(parts[..|Split(files[i].path)|]) in names;
    }
  }

  lemma BlockedIsProper(files: seq<File>, i: nat, n: nat)
    requires DistinctPaths(files) && i < |files| && n < |files| && i != n && Split(files[i].path) <= Split(files[n].path)
    ensures |Split(files[i].path)| < |Split(files[n].path)|
  {
    JoinSplit(files[i].path);
    JoinSplit(files[n].path);
    assert files[i].path != files[n].path;
    if |Split(files[i].path)| == |Split(files[n].path)| { assert Split(files[i].path) == Split(files[n].path); }
  }

  method AncestorTaken(parts: Path, names: set<string>) returns (taken: bool)
    requires parts != []
    ensures taken <==> AncestorIn(parts, names)
  {
    for k := 1 to |parts|
      invariant forall m :: 1 <= m < k ==> Join(parts[..m]) !in names
    {
      if Join(parts[..k]) in names { return true; }
    }
    return false;
  }

  /** The loop over the ancestors of every file name. */
  method FindOverlap(files: seq<File>, names: set<string>) returns (overlap: bool)
    requires DistinctPaths(files) && names == set i | 0 <= i < |files| :: files[i].path
    ensures !overlap <==> PrefixFree(files)
  {
    for n := 0 to |files|
      invariant forall j :: 0 <= j < n ==> !Blocked(files, j)
    {
      BlockedByAncestor(files, names, n);
      var taken := AncestorTaken(Split(files[n].path), names);
      if taken { return true; }
    }
    UnblockedPrefixFree(files);
    return false;
  }

  lemma UnblockedPrefixFree(files: seq<File>)
    requires forall n :: 0 <= n < |files| ==> !Blocked(files, n)
    ensures PrefixFree(files)
  {
    forall i, j | 0 <= i < |files| && 0 <= j < |files| && Split(files[i].path) <= Split(files[j].path) ensures i == j {
      assert !Blocked(files, j);
    }
  }

  lemma PrefixFreeDistinct(files: seq<File>)
    requires PrefixFree(files)
    ensures DistinctPaths(files)
  {
    assert forall i, j :: 0 <= i < j < |files| && files[i].path == files[j].path ==> Split(files[i].path) <= Split(files[j].path);
  }

  lemma DistinctPathsPermute(s: seq<File>, t: seq<File>)
    requires multiset(s) == multiset(t) && DistinctPaths(s)
    ensures DistinctPaths(t)
  {
    DistinctPermutation(s, t);
    forall i, j | 0 <= i < j < |t| ensures t[i].path != t[j].path {
      assert t[i] in multiset(t) && t[j] in multiset(t);
      assert t[i] in s && t[j] in s;
    }
  }

  /** What the first loop demands. */
  ghost predicate Checked(files: seq<File>) {
    && TotalBytes(files) <= MAX_TOTAL_BYTES
    && (forall i :: 0 <= i < |files| ==> FileOk(files[i]))
    && DistinctPaths(files)
  }

  ghost function Names(files: seq<File>): set<string> { set i | 0 <= i < |files| :: files[i].path }

  lemma OneMoreChecked(files: seq<File>, f: File)
    requires Checked(files)
    ensures Checked(files + [f]) <==> TotalBytes(files) + |f.content| <= MAX_TOTAL_BYTES && FileOk(f) && f.path !in Names(files)
    ensures Names(files + [f]) == Names(files) + {f.path}
    ensures TotalBytes(files + [f]) == TotalBytes(files) + |f.content|
  {
    var all := files + [f];
    TotalConcat(files, [f]);
    assert forall i :: 0 <= i < |files| ==> all[i] == files[i];
    assert all[|files|] == f;
  }

  lemma CheckedPrefix(files: seq<File>, n: nat)
    requires Checked(files) && n <= |files|
    ensures Checked(files[..n])
  {
    assert files == files[..n] + files[n..];
    TotalConcat(files[..n], files[n..]);
  }

  /** The first loop: sizes, safe paths, no duplicates. */
  method CheckFiles(files: seq<File>) returns (ok: bool, names: set<string>)
    ensures ok <==> Checked(files)
    ensures ok ==> names == Names(files)
  {
    var bytes: nat := 0;
    names := {};
    for n := 0 to |files|
      invariant Checked(files[..n]) && bytes == TotalBytes(files[..n]) && names == Names(files[..n])
    {
      var file := files[n];
      OneMoreChecked(files[..n], file);
      assert files[..n + 1] == files[..n] + [file];
      if Checked(files) { CheckedPrefix(files, n + 1); }
      var accepted := CheckFile(file, bytes, names);
      if !accepted { return false, names; }
      bytes, names := bytes + |file.content|, names + {file.path};
    }
    assert files[..|files|] == files;
    return true, names;
  }

  method CheckFile(file: File, bytes: nat, names: set<string>) returns (ok: bool)
    ensures ok <==> bytes + |file.content| <= MAX_TOTAL_BYTES && FileOk(file) && file.path !in names
  {
    if !SafePath(file.path) || |Split(file.path)| > MAX_DEPTH { return false; }
    if |file.content| > MAX_FILE_BYTES || bytes + |file.content| > MAX_TOTAL_BYTES { return false; }
    return file.path !in names;
  }

  /** `validateSnapshot`: accepts exactly the valid snapshots and returns their files in path order. */
  method ValidateSnapshot(s: Snapshot, hash: Hash) returns (r: Outcome<seq<File>>)
    ensures r.Returned? <==> ValidSnapshot(s, hash)
    ensures r.Returned? ==> r.value == SortFiles(s.files) && InPathOrder(r.value) && multiset(r.value) == multiset(s.files)
  {
    if |s.files| > MAX_FILES { return Threw; }
    if PrefixFree(s.files) { PrefixFreeDistinct(s.files); }
    var ok, names := CheckFiles(s.files);
    if !ok { return Threw; }
    var overlap := FindOverlap(s.files, names);
    if overlap { return Threw; }
    var ordered := SortFiles(s.files);
    SortedInPathOrder(s.files);
    if hash(Stream(ordered)) != s.digest { return Threw; }
    return Returned(ordered);
  }
}
