/** A valid snapshot that cannot be captured again once written: validation bounds files, the walk bounds entries. */
module RoundTripLimit {
  import opened BenchTypes
  import opened Sorting
  import opened Strings
  import opened Paths
  import opened SnapshotStream
  import opened Workspace
  import opened WorkspaceTree
  import opened WorkspaceRoundTrip
  import opened Materialize

  /** The file `<i>/d/d/d/f`. */
  function DeepPath(i: nat): Path { [Decimal(i), "d", "d", "d", "f"] }

  function DeepFile(i: nat): File { File(Join(DeepPath(i)), [], false) }

  function DeepFiles(n: nat): (r: seq<File>)
    ensures |r| == n && forall i :: 0 <= i < n ==> r[i] == DeepFile(i)
  {
    seq(n, i requires 0 <= i < n => DeepFile(i))
  }

  lemma {:induction false} ByteLengthAtMost(s: string)
    ensures ByteLength(s) <= 4 * |s|
  {
    if s != [] { ByteLengthAtMost(s[1..]); }
  }

  lemma DecimalShort(i: nat)
    requires i < 1000
    ensures |Decimal(i)| <= 3 && !HasSlash(Decimal(i)) && NoUnsafeChar(Decimal(i))
  {
    assert Pow10(3) == 10 * Pow10(2) && Pow10(2) == 10 * Pow10(1) && Pow10(1) == 10 * Pow10(0);
    DecimalWidth(i, 3);
  }

  lemma DeepSplit(i: nat)
    requires i < 1000
    ensures Split(DeepFile(i).path) == DeepPath(i)
  {
    DecimalShort(i);
    assert !HasSlash("d") && !HasSlash("f");
    SplitJoin(DeepPath(i));
  }

  lemma JoinCons(part: string, rest: Path)
    requires rest != []
    ensures Join([part] + rest) == part + ("/" + Join(rest))
  {
    assert ([part] + rest)[1..] == rest;
  }

  lemma DeepText(i: nat)
    ensures Join(DeepPath(i)) == Decimal(i) + "/d/d/d/f"
  {
    JoinCons("d", ["f"]);
    JoinCons("d", ["d", "f"]);
    JoinCons("d", ["d", "d", "f"]);
    JoinCons(Decimal(i), ["d", "d", "d", "f"]);
    assert ["d"] + ["f"] == ["d", "f"] && ["d"] + ["d", "f"] == ["d", "d", "f"] && ["d"] + ["d", "d", "f"] == ["d", "d", "d", "f"];
    assert "/" + ("d" + ("/" + ("d" + ("/" + ("d" + ("/" + "f")))))) == "/d/d/d/f";
  }

  lemma DeepTextSafe(i: nat)
    requires i < 1000
    ensures |Join(DeepPath(i))| <= 11 && Join(DeepPath(i)) != "" && NoUnsafeChar(Join(DeepPath(i)))
  {
    DeepText(i);
    DecimalShort(i);
    var tail := "/d/d/d/f";
    assert NoUnsafeChar(tail);
  }

  lemma DeepOk(i: nat)
    requires i < 1000
    ensures FileOk(DeepFile(i))
  {
    var path := DeepFile(i).path;
    DeepSplit(i);
    DeepTextSafe(i);
    ByteLengthAtMost(path);
    forall k | 0 <= k < |Split(path)| ensures SafePart(Split(path)[k]) { DeepPartOk(i, k); }
  }

  lemma DeepPartOk(i: nat, k: nat)
    requires i < 1000 && k < 5
    ensures SafePart(DeepPath(i)[k])
  {
    DecimalShort(i);
    ByteLengthAtMost(DeepPath(i)[k]);
    assert Decimal(i)[0] != '.';
  }

  lemma {:induction false} NoContent(files: seq<File>)
    requires forall i :: 0 <= i < |files| ==> files[i].content == []
    ensures TotalBytes(files) == 0
  {
    if files != [] { NoContent(files[1..]); }
  }

  lemma DeepPrefixFree(n: nat)
    requires n <= 1000
    ensures PrefixFree(DeepFiles(n))
  {
    var files := DeepFiles(n);
    forall i, j | 0 <= i < n && 0 <= j < n && Split(files[i].path) <= Split(files[j].path) ensures i == j {
      DeepSplit(i);
      DeepSplit(j);
      assert DeepPath(i)[0] == DeepPath(j)[0];
      DecimalInjective(i, j);
    }
  }

  lemma DeepFilesOk()
    ensures FilesOk(DeepFiles(1000))
  {
    var files := DeepFiles(1000);
    NoContent(files);
    DeepPrefixFree(1000);
    forall i | 0 <= i < 1000 ensures FileOk(files[i]) { DeepOk(i); }
  }

  ghost function Row(i: nat): set<Path> {
    {DeepPath(i)[..1], DeepPath(i)[..2], DeepPath(i)[..3], DeepPath(i)[..4], DeepPath(i)[..5]}
  }

  lemma RowSize(i: nat)
    ensures |Row(i)| == 5
  {
    var p := DeepPath(i);
    assert |p[..1]| == 1 && |p[..2]| == 2 && |p[..3]| == 3 && |p[..4]| == 4 && |p[..5]| == 5;
  }

  ghost function Rows(n: nat): set<Path> {
    if n == 0 then {} else Rows(n - 1) + Row(n - 1)
  }

  lemma {:induction false} RowsStart(n: nat, q: Path)
    requires q in Rows(n)
    ensures q != [] && exists i :: 0 <= i < n && q[0] == Decimal(i) && q in Row(i)
  {
    if q in Row(n - 1) {
      RowStart(n - 1, q);
    } else {
      RowsStart(n - 1, q);
    }
  }

  lemma RowStart(i: nat, q: Path)
    requires q in Row(i)
    ensures q != [] && q[0] == Decimal(i)
  {
    assert DeepPath(i)[0] == Decimal(i);
  }

  lemma NewRow(n: nat, q: Path)
    requires q in Rows(n)
    ensures q !in Row(n)
  {
    RowsStart(n, q);
    var i :| 0 <= i < n && q[0] == Decimal(i) && q in Row(i);
    if q in Row(n) {
      RowStart(n, q);
      DecimalInjective(i, n);
    }
  }

  lemma DisjointSize<T>(a: set<T>, b: set<T>)
    requires forall x :: x in a ==> x !in b
    ensures |a + b| == |a| + |b|
  {
    assert a * b == {};
  }

  lemma {:induction false} RowsSize(n: nat)
    ensures |Rows(n)| == 5 * n
  {
    if n > 0 {
      RowsSize(n - 1);
      RowSize(n - 1);
      var above, last := Rows(n - 1), Row(n - 1);
      forall q | q in above ensures q !in last { NewRow(n - 1, q); }
      DisjointSize(above, last);
    }
  }

  lemma RowsArePlaces(n: nat, q: Path)
    requires n <= 1000 && q in Rows(n)
    ensures q in Places(DeepFiles(n))
  {
    RowsStart(n, q);
    var i :| 0 <= i < n && q[0] == Decimal(i) && q in Row(i);
    DeepSplit(i);
    assert q <= Split(DeepFiles(n)[i].path);
    PlacesMean(DeepFiles(n), q);
  }

  /** A thousand small files five levels deep are valid, yet occupy more than 4,096 places. */
  lemma ValidButTooManyPlaces()
    ensures FilesOk(DeepFiles(1000)) && |Places(DeepFiles(1000))| > MAX_ENTRIES
  {
    DeepFilesOk();
    RowsSize(1000);
    forall q | q in Rows(1000) ensures q in Places(DeepFiles(1000)) { RowsArePlaces(1000, q); }
    SubsetSize(Rows(1000), Places(DeepFiles(1000)));
  }

  lemma OnTheWayPermutes(s: seq<File>, t: seq<File>, q: Path)
    requires multiset(s) == multiset(t) && OnTheWay(s, q)
    ensures OnTheWay(t, q)
  {
    var i :| 0 <= i < |s| && q <= Split(s[i].path);
    assert s[i] in multiset(s);
    assert s[i] in t;
    var j :| 0 <= j < |t| && t[j] == s[i];
  }

  /** The places a list of files occupies do not depend on its order. */
  lemma PlacesPermute(s: seq<File>, t: seq<File>)
    requires multiset(s) == multiset(t)
    ensures Places(s) == Places(t)
  {
    forall q ensures q in Places(s) <==> q in Places(t) {
      PlacesMean(s, q);
      PlacesMean(t, q);
      if OnTheWay(s, q) { OnTheWayPermutes(s, t, q); }
      if OnTheWay(t, q) { OnTheWayPermutes(t, s, q); }
    }
  }

  /** Whatever directory the thousand files are written into, the walk gives up on it. */
  lemma CannotBeCapturedAgain(tree: Tree)
    requires Built(tree, SortFiles(DeepFiles(1000)))
    ensures Captured(tree, false).None?
  {
    var sorted := SortFiles(DeepFiles(1000));
    ValidButTooManyPlaces();
    SortedFilesOk(DeepFiles(1000));
    PlacesPermute(sorted, DeepFiles(1000));
    RoundTrip(sorted, tree, false);
    NothingSkipped(sorted);
  }

  function DeepSnapshot(hash: Hash): Snapshot { Snapshot(hash(Stream(SortFiles(DeepFiles(1000)))), DeepFiles(1000)) }

  lemma DeepSnapshotFacts(hash: Hash)
    ensures ValidSnapshot(DeepSnapshot(hash), hash) && |Places(SortFiles(DeepSnapshot(hash).files))| > MAX_ENTRIES
  {
    ValidButTooManyPlaces();
    PlacesPermute(SortFiles(DeepFiles(1000)), DeepFiles(1000));
  }

  /** The failing input, end to end: the snapshot validates, is written, and cannot be captured. */
  method WrittenButNotCaptured(hash: Hash) returns (again: Outcome<Snapshot>)
    ensures ValidSnapshot(DeepSnapshot(hash), hash) && again.Threw?
  {
    DeepSnapshotFacts(hash);
    var s := DeepSnapshot(hash);
    again := Resnapshot(s, map[], hash);
  }
}
