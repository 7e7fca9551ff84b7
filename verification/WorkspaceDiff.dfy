/** Describing what a task changed in its workspace (`describeBenchmarkWorkspace`, src/benchmark/workspace.ts). */
module WorkspaceDiff {
  import opened BenchTypes
  import opened Sorting
  import opened Strings
  import opened Paths
  import opened SnapshotStream
  import opened Report
  import opened Workspace

  const MAX_PREVIEW_BYTES := 65536
  const MAX_FILE_PREVIEW_BYTES := 16384

  /** A fatal UTF-8 decoder: none when the bytes are not UTF-8. */
  type Decoder = seq<Byte> -> Option<string>

  function Lookup(files: seq<File>, path: string): (r: Option<File>)
    ensures r.Some? ==> r.value in files && r.value.path == path
    ensures r.None? ==> forall i :: 0 <= i < |files| ==> files[i].path != path
  {
    if files == [] then None else if files[0].path == path then Some(files[0]) else Lookup(files[1..], path)
  }

  /** What the evidence must report: a file came, went, or has other content or another executable bit. */
  predicate Differs(before: seq<File>, after: seq<File>, path: string) {
    Lookup(before, path) != Lookup(after, path)
  }

  /** Both files exist, with one content and one executable bit. */
  predicate Unchanged(previous: Option<File>, current: Option<File>) {
    previous.Some? && current.Some? && previous.value.content == current.value.content && previous.value.executable == current.value.executable
  }

  lemma UnchangedIff(before: seq<File>, after: seq<File>, path: string)
    requires Lookup(before, path).Some? || Lookup(after, path).Some?
    ensures Unchanged(Lookup(before, path), Lookup(after, path)) <==> !Differs(before, after, path)
  {}

  function DigestOf(file: Option<File>, hash: Hash): Option<string> {
    match file case None => None case Some(f) => Some(hash(f.content))
  }

  function ExecutableOf(file: Option<File>): Option<bool> {
    match file case None => None case Some(f) => Some(f.executable)
  }

  predicate Control(c: char) {
    var n := c as int;
    n <= 8 || n == 0xB || n == 0xC || Between(n, 0xE, 0x1F) || n == 0x7F
  }

  predicate Previewable(content: seq<Byte>, decode: Decoder) {
    && decode(content).Some? && |content| <= MAX_FILE_PREVIEW_BYTES
    && forall i :: 0 <= i < |decode(content).value| ==> !Control(decode(content).value[i])
  }

  datatype Side = Side(digest: Option<string>, text: Option<string>)

  /** `describe`: a preview is kept while the budget lasts. Returns the bytes spent as well. */
  method DescribeFile(file: Option<File>, spent: nat, hash: Hash, decode: Decoder)
    returns (side: Side, omitted: bool, now: nat)
    requires spent <= MAX_PREVIEW_BYTES
    ensures side.digest == DigestOf(file, hash)
    ensures side.text == ShownText(file, spent, decode)
    ensures now == spent + ShownBytes(file, spent, decode) <= MAX_PREVIEW_BYTES
    ensures omitted <==> file.Some? && side.text.None?
  {
    if file.None? { return Side(None, None), false, spent; }
    var bytes := file.value.content;
    var digest := Some(hash(bytes));
    var text := decode(bytes);
    if text.None? { return Side(digest, None), true, spent; }
    if (exists i :: 0 <= i < |text.value| && Control(text.value[i])) || |bytes| > MAX_FILE_PREVIEW_BYTES || spent + |bytes| > MAX_PREVIEW_BYTES {
      return Side(digest, None), true, spent;
    }
    return Side(digest, text), false, spent + |bytes|;
  }

  /** The decoded text, if the file can be previewed and still fits. */
  function ShownText(file: Option<File>, spent: nat, decode: Decoder): Option<string> {
    if file.Some? && Previewable(file.value.content, decode) && spent + |file.value.content| <= MAX_PREVIEW_BYTES
    then decode(file.value.content) else None
  }

  function ShownBytes(file: Option<File>, spent: nat, decode: Decoder): nat {
    if ShownText(file, spent, decode).Some? then |file.value.content| else 0
  }

  /** A change entry that tells the truth about its path, after `spent` preview bytes. */
  predicate Faithful(c: Change, before: seq<File>, after: seq<File>, spent: nat, hash: Hash, decode: Decoder) {
    var previous, current := Lookup(before, c.path), Lookup(after, c.path);
    var middle := spent + ShownBytes(previous, spent, decode);
    && previous != current
    && c.kind == (if previous.None? then Added else if current.None? then Deleted else Modified)
    && c.beforeDigest == DigestOf(previous, hash) && c.afterDigest == DigestOf(current, hash)
    && c.beforeExecutable == ExecutableOf(previous) && c.afterExecutable == ExecutableOf(current)
    && c.beforeText == ShownText(previous, spent, decode) && c.afterText == ShownText(current, middle, decode)
    && (c.contentOmitted <==> (previous.Some? && c.beforeText.None?) || (current.Some? && c.afterText.None?))
  }

  /** The bytes of every preview shown in `changes`. */
  function PreviewBytes(changes: seq<Change>, before: seq<File>, after: seq<File>): nat {
    if changes == [] then 0
    else PreviewBytes(changes[..|changes| - 1], before, after) + ChangeBytes(changes[|changes| - 1], before, after)
  }

  function ChangeBytes(c: Change, before: seq<File>, after: seq<File>): nat {
    (if c.beforeText.Some? && Lookup(before, c.path).Some? then |Lookup(before, c.path).value.content| else 0)
    + (if c.afterText.Some? && Lookup(after, c.path).Some? then |Lookup(after, c.path).value.content| else 0)
  }

  function PathsOf(files: seq<File>): (r: seq<string>)
    ensures |r| == |files| && forall i :: 0 <= i < |files| ==> r[i] == files[i].path
  {
    seq(|files|, i requires 0 <= i < |files| => files[i].path)
  }

  /** The paths of `after` that `before` does not have. */
  function NewPaths(before: seq<File>, after: seq<File>): (r: seq<string>)
    ensures |r| <= |after|
    ensures forall p :: p in r <==> Lookup(before, p).None? && Lookup(after, p).Some?
    ensures DistinctPaths(after) ==> Distinct(r)
  {
    if after == [] then []
    else
      var rest := NewPaths(before, after[1..]);
      if Lookup(before, after[0].path).None? then
        assert DistinctPaths(after) ==> Lookup(after[1..], after[0].path).None?;
        [after[0].path] + rest
      else rest
  }

  lemma LookupIn(files: seq<File>, path: string)
    ensures Lookup(files, path).Some? <==> path in PathsOf(files)
  {
    if path in PathsOf(files) {
      var i :| 0 <= i < |files| && PathsOf(files)[i] == path;
      assert files[i].path == path;
    }
    if Lookup(files, path).Some? {
      var i :| 0 <= i < |files| && files[i] == Lookup(files, path).value;
      assert PathsOf(files)[i] == path;
    }
  }

  /** Every path on either side, once, in order. */
  function AllPaths(before: seq<File>, after: seq<File>): seq<string> {
    SortBy(PathsOf(before) + NewPaths(before, after), StringLe)
  }

  ghost predicate StrictlySorted(paths: seq<string>) { SortedBy(paths, StringLe) && Distinct(paths) }

  lemma PathsDistinct(before: seq<File>, after: seq<File>)
    requires DistinctPaths(before) && DistinctPaths(after)
    ensures Distinct(PathsOf(before) + NewPaths(before, after))
  {
    var old_, new_ := PathsOf(before), NewPaths(before, after);
    forall i, j | 0 <= i < |old_| && 0 <= j < |new_| ensures old_[i] != new_[j] {
      LookupIn(before, old_[i]);
      assert new_[j] in new_;
    }
  }

  lemma AllPathsOrdered(before: seq<File>, after: seq<File>)
    requires DistinctPaths(before) && DistinctPaths(after)
    ensures StrictlySorted(AllPaths(before, after)) && |AllPaths(before, after)| <= |before| + |after|
  {
    var plain := PathsOf(before) + NewPaths(before, after);
    StringOrder();
    SortBySorts(plain, StringLe);
    MultisetSize(plain);
    MultisetSize(AllPaths(before, after));
    PathsDistinct(before, after);
    DistinctPermutation(plain, AllPaths(before, after));
  }

  lemma AllPathsHave(before: seq<File>, after: seq<File>, p: string)
    ensures p in AllPaths(before, after) <==> Lookup(before, p).Some? || Lookup(after, p).Some?
  {
    var plain := PathsOf(before) + NewPaths(before, after);
    assert p in AllPaths(before, after) <==> p in plain by {
      assert p in multiset(AllPaths(before, after)) <==> p in multiset(plain);
    }
    LookupIn(before, p);
  }

  // ---------------------------------------------------------------- what the loop establishes

  ghost predicate Listed(changes: seq<Change>, path: string) {
    exists i :: 0 <= i < |changes| && changes[i].path == path
  }

  /** The entries follow the first `n` paths in order. */
  ghost predicate InOrder(changes: seq<Change>, paths: seq<string>, n: nat)
    requires n <= |paths|
  {
    && (forall i :: 0 <= i < |changes| ==> changes[i].path in paths[..n])
    && (forall i, j :: 0 <= i < j < |changes| ==> StringLe(changes[i].path, changes[j].path) && changes[i].path != changes[j].path)
  }

  ghost predicate Covers(changes: seq<Change>, paths: seq<string>, before: seq<File>, after: seq<File>) {
    forall k :: 0 <= k < |paths| ==> (Differs(before, after, paths[k]) <==> Listed(changes, paths[k]))
  }

  ghost predicate Truthful(changes: seq<Change>, before: seq<File>, after: seq<File>, hash: Hash, decode: Decoder) {
    forall i :: 0 <= i < |changes| ==> Faithful(changes[i], before, after, PreviewBytes(changes[..i], before, after), hash, decode)
  }

  lemma OneMorePath(paths: seq<string>, n: nat)
    requires n < |paths| && Distinct(paths)
    ensures paths[..n + 1] == paths[..n] + [paths[n]] && paths[n] !in paths[..n]
  {}

  lemma InOrderSkips(changes: seq<Change>, paths: seq<string>, n: nat)
    requires n < |paths| && Distinct(paths) && InOrder(changes, paths, n)
    ensures InOrder(changes, paths, n + 1) && !Listed(changes, paths[n])
  {
    OneMorePath(paths, n);
  }

  lemma InOrderAdds(changes: seq<Change>, c: Change, paths: seq<string>, n: nat)
    requires n < |paths| && StrictlySorted(paths) && InOrder(changes, paths, n) && c.path == paths[n]
    ensures InOrder(changes + [c], paths, n + 1)
  {
    OneMorePath(paths, n);
    forall i | 0 <= i < |changes| ensures StringLe(changes[i].path, c.path) && changes[i].path != c.path {
      var k :| 0 <= k < n && paths[..n][k] == changes[i].path;
      assert paths[k] == paths[..n][k];
    }
  }

  lemma AddsListed(changes: seq<Change>, c: Change, path: string)
    ensures Listed(changes + [c], path) <==> Listed(changes, path) || c.path == path
  {
    var all := changes + [c];
    if Listed(changes, path) {
      var i :| 0 <= i < |changes| && changes[i].path == path;
      assert all[i].path == path;
    }
    assert all[|changes|] == c;
  }

  lemma CoversSkips(changes: seq<Change>, paths: seq<string>, n: nat, before: seq<File>, after: seq<File>)
    requires n < |paths| && Covers(changes, paths[..n], before, after)
    requires !Differs(before, after, paths[n]) && !Listed(changes, paths[n])
    ensures Covers(changes, paths[..n + 1], before, after)
  {
    assert forall k :: 0 <= k < n ==> paths[..n + 1][k] == paths[..n][k];
  }

  lemma CoversAdds(changes: seq<Change>, c: Change, paths: seq<string>, n: nat, before: seq<File>, after: seq<File>)
    requires n < |paths| && Distinct(paths) && Covers(changes, paths[..n], before, after) && c.path == paths[n]
    requires Differs(before, after, paths[n])
    ensures Covers(changes + [c], paths[..n + 1], before, after)
  {
    forall k | 0 <= k < n + 1 ensures Differs(before, after, paths[k]) <==> Listed(changes + [c], paths[k]) {
      AddsListed(changes, c, paths[k]);
      if k < n { assert paths[..n][k] == paths[k]; }
    }
  }

  lemma TruthfulAdds(changes: seq<Change>, c: Change, before: seq<File>, after: seq<File>, hash: Hash, decode: Decoder)
    requires Truthful(changes, before, after, hash, decode)
    requires Faithful(c, before, after, PreviewBytes(changes, before, after), hash, decode)
    ensures Truthful(changes + [c], before, after, hash, decode)
  {
    var all := changes + [c];
    assert forall i :: 0 <= i < |changes| ==> all[..i] == changes[..i] && all[i] == changes[i];
    assert all[..|changes|] == changes;
  }

  lemma AddsBytes(changes: seq<Change>, c: Change, before: seq<File>, after: seq<File>)
    ensures PreviewBytes(changes + [c], before, after) == PreviewBytes(changes, before, after) + ChangeBytes(c, before, after)
  {
    assert (changes + [c])[..|changes|] == changes;
  }

  /** One turn of the loop on a path that differs. */
  method DescribeChange(path: string, before: seq<File>, after: seq<File>, spent: nat, hash: Hash, decode: Decoder)
    returns (c: Change, now: nat)
    requires spent <= MAX_PREVIEW_BYTES && Differs(before, after, path)
    ensures c.path == path && Faithful(c, before, after, spent, hash, decode)
    ensures now == spent + ChangeBytes(c, before, after) <= MAX_PREVIEW_BYTES
  {
    var previous, current := Lookup(before, path), Lookup(after, path);
    var old_, omittedOld, middle := DescribeFile(previous, spent, hash, decode);
    var new_, omittedNew, last := DescribeFile(current, middle, hash, decode);
    now := last;
    c := Change(path,
      if previous.None? then Added else if current.None? then Deleted else Modified,
      old_.digest, new_.digest, old_.text, new_.text,
      ExecutableOf(previous), ExecutableOf(current), omittedOld || omittedNew);
  }

  /** Everything known after the first `n` paths. */
  ghost predicate LoopState(changes: seq<Change>, spent: nat, paths: seq<string>, n: nat, before: seq<File>, after: seq<File>, hash: Hash, decode: Decoder)
    requires n <= |paths|
  {
    && |changes| <= n && spent == PreviewBytes(changes, before, after) <= MAX_PREVIEW_BYTES
    && InOrder(changes, paths, n) && Covers(changes, paths[..n], before, after)
    && Truthful(changes, before, after, hash, decode)
  }

  lemma LoopSkips(changes: seq<Change>, spent: nat, paths: seq<string>, n: nat, before: seq<File>, after: seq<File>, hash: Hash, decode: Decoder)
    requires n < |paths| && Distinct(paths) && LoopState(changes, spent, paths, n, before, after, hash, decode)
    requires !Differs(before, after, paths[n])
    ensures LoopState(changes, spent, paths, n + 1, before, after, hash, decode)
  {
    InOrderSkips(changes, paths, n);
    CoversSkips(changes, paths, n, before, after);
  }

  lemma LoopAdds(changes: seq<Change>, spent: nat, c: Change, now: nat, paths: seq<string>, n: nat, before: seq<File>, after: seq<File>, hash: Hash, decode: Decoder)
    requires n < |paths| && StrictlySorted(paths) && LoopState(changes, spent, paths, n, before, after, hash, decode)
    requires c.path == paths[n] && Faithful(c, before, after, spent, hash, decode)
    requires now == spent + ChangeBytes(c, before, after) <= MAX_PREVIEW_BYTES
    ensures LoopState(changes + [c], now, paths, n + 1, before, after, hash, decode)
  {
    InOrderAdds(changes, c, paths, n);
    CoversAdds(changes, c, paths, n, before, after);
    TruthfulAdds(changes, c, before, after, hash, decode);
    AddsBytes(changes, c, before, after);
  }

  /** One turn of the loop of `describeBenchmarkWorkspace`. */
  method DescribePath(changes: seq<Change>, spent: nat, paths: seq<string>, n: nat, before: seq<File>, after: seq<File>, hash: Hash, decode: Decoder)
    returns (grown: seq<Change>, now: nat)
    requires n < |paths| && StrictlySorted(paths) && LoopState(changes, spent, paths, n, before, after, hash, decode)
    requires Lookup(before, paths[n]).Some? || Lookup(after, paths[n]).Some?
    ensures LoopState(grown, now, paths, n + 1, before, after, hash, decode)
  {
    UnchangedIff(before, after, paths[n]);
    if Unchanged(Lookup(before, paths[n]), Lookup(after, paths[n])) {
      LoopSkips(changes, spent, paths, n, before, after, hash, decode);
      return changes, spent;
    }
    var change, total := DescribeChange(paths[n], before, after, spent, hash, decode);
    LoopAdds(changes, spent, change, total, paths, n, before, after, hash, decode);
    return changes + [change], total;
  }

  lemma LoopStarts(paths: seq<string>, before: seq<File>, after: seq<File>, hash: Hash, decode: Decoder)
    ensures LoopState([], 0, paths, 0, before, after, hash, decode)
  {}

  /** The loop of `describeBenchmarkWorkspace` over two validated file lists. */
  method DescribeChanges(before: seq<File>, after: seq<File>, hash: Hash, decode: Decoder) returns (changes: seq<Change>)
    requires DistinctPaths(before) && DistinctPaths(after) && |before| <= MAX_FILES && |after| <= MAX_FILES
    ensures EvidenceFor(changes, before, after, hash, decode)
  {
    var paths := AllPaths(before, after);
    AllPathsOrdered(before, after);
    var spent: nat := 0;
    changes := [];
    LoopStarts(paths, before, after, hash, decode);
    for n := 0 to |paths|
      invariant LoopState(changes, spent, paths, n, before, after, hash, decode)
    {
      AllPathsHave(before, after, paths[n]);
      changes, spent := DescribePath(changes, spent, paths, n, before, after, hash, decode);
    }
    Evidence(changes, before, after, hash, decode);
  }

  // ---------------------------------------------------------------- the evidence

  /** Every path that differs is listed, once and in order, and nothing else is. */
  ghost predicate ExactList(changes: seq<Change>, before: seq<File>, after: seq<File>) {
    && (forall p :: Listed(changes, p) <==> Differs(before, after, p))
    && (forall i, j :: 0 <= i < j < |changes| ==> StringLe(changes[i].path, changes[j].path) && changes[i].path != changes[j].path)
  }

  lemma ListIsExact(changes: seq<Change>, before: seq<File>, after: seq<File>)
    requires InOrder(changes, AllPaths(before, after), |AllPaths(before, after)|) && Covers(changes, AllPaths(before, after), before, after)
    ensures ExactList(changes, before, after)
  {
    var paths := AllPaths(before, after);
    forall p ensures Listed(changes, p) <==> Differs(before, after, p) {
      AllPathsHave(before, after, p);
      if p in paths {
        var k :| 0 <= k < |paths| && paths[k] == p;
        assert Differs(before, after, paths[k]) <==> Listed(changes, paths[k]);
      }
    }
  }

  /** What the record keeps of one file list. */
  function View(files: seq<File>, hash: Hash): (m: map<string, (string, bool)>)
    ensures forall p :: p in m <==> Lookup(files, p).Some?
    ensures forall p :: p in m ==> m[p] == (hash(Lookup(files, p).value.content), Lookup(files, p).value.executable)
  {
    if files == [] then map[]
    else View(files[1..], hash)[files[0].path := (hash(files[0].content), files[0].executable)]
  }

  /** Replaying the entries on a recorded state. */
  function Patch(m: map<string, (string, bool)>, changes: seq<Change>): map<string, (string, bool)>
    decreases changes
  {
    if changes == [] then m else Patch(PatchOne(m, changes[0]), changes[1..])
  }

  function PatchOne(m: map<string, (string, bool)>, c: Change): map<string, (string, bool)> {
    if c.afterDigest.Some? && c.afterExecutable.Some? then m[c.path := (c.afterDigest.value, c.afterExecutable.value)] else m - {c.path}
  }

  /** Replaying touches the listed paths only, each as its own entry says. */
  lemma {:induction false} PatchAt(m: map<string, (string, bool)>, changes: seq<Change>, p: string)
    requires forall i, j :: 0 <= i < j < |changes| ==> changes[i].path != changes[j].path
    ensures !Listed(changes, p) ==> (p in Patch(m, changes) <==> p in m) && (p in m ==> Patch(m, changes)[p] == m[p])
    ensures forall i :: 0 <= i < |changes| && changes[i].path == p ==>
      (p in Patch(m, changes) <==> p in PatchOne(m, changes[i])) && (p in PatchOne(m, changes[i]) ==> Patch(m, changes)[p] == PatchOne(m, changes[i])[p])
    decreases changes
  {
    if changes != [] {
      var rest := changes[1..];
      assert forall i :: 0 <= i < |rest| ==> rest[i] == changes[i + 1];
      PatchAt(PatchOne(m, changes[0]), rest, p);
      assert Listed(changes, p) <==> changes[0].path == p || Listed(rest, p) by {
        assert changes == [changes[0]] + rest;
      }
      forall i | 0 <= i < |changes| && changes[i].path == p
        ensures (p in Patch(m, changes) <==> p in PatchOne(m, changes[i])) && (p in PatchOne(m, changes[i]) ==> Patch(m, changes)[p] == PatchOne(m, changes[i])[p])
      {
        if i > 0 { assert rest[i - 1].path == p; }
      }
    }
  }

  /** The diff is complete: replaying it on the recorded start gives the recorded end. */
  lemma PatchGivesAfter(changes: seq<Change>, before: seq<File>, after: seq<File>, hash: Hash, decode: Decoder)
    requires ExactList(changes, before, after) && Truthful(changes, before, after, hash, decode)
    ensures Patch(View(before, hash), changes) == View(after, hash)
  {
    var m, want := View(before, hash), View(after, hash);
    var got := Patch(m, changes);
    forall p ensures (p in got <==> p in want) && (p in want ==> got[p] == want[p]) {
      PatchAt(m, changes, p);
      if Listed(changes, p) {
        var i :| 0 <= i < |changes| && changes[i].path == p;
        assert Faithful(changes[i], before, after, PreviewBytes(changes[..i], before, after), hash, decode);
      }
    }
    assert got.Keys == want.Keys;
  }

  lemma EvidenceSound(changes: seq<Change>, before: seq<File>, after: seq<File>, hash: Hash, decode: Decoder)
    requires |before| <= MAX_FILES && |after| <= MAX_FILES && |changes| <= |before| + |after|
    requires ExactList(changes, before, after) && Truthful(changes, before, after, hash, decode)
    ensures ChangesSound(changes)
  {
    forall i | 0 <= i < |changes| ensures ChangeSound(changes[i]) {
      assert Faithful(changes[i], before, after, PreviewBytes(changes[..i], before, after), hash, decode);
    }
  }

  /** The evidence tells all and only what happened between two file lists. */
  ghost predicate EvidenceFor(changes: seq<Change>, before: seq<File>, after: seq<File>, hash: Hash, decode: Decoder) {
    && ExactList(changes, before, after)
    && Truthful(changes, before, after, hash, decode)
    && PreviewBytes(changes, before, after) <= MAX_PREVIEW_BYTES
    && ChangesSound(changes)
    && Patch(View(before, hash), changes) == View(after, hash)
  }

  lemma Evidence(changes: seq<Change>, before: seq<File>, after: seq<File>, hash: Hash, decode: Decoder)
    requires |before| <= MAX_FILES && |after| <= MAX_FILES
    requires LoopState(changes, PreviewBytes(changes, before, after), AllPaths(before, after), |AllPaths(before, after)|, before, after, hash, decode)
    requires |AllPaths(before, after)| <= |before| + |after|
    ensures EvidenceFor(changes, before, after, hash, decode)
  {
    var paths := AllPaths(before, after);
    assert paths[..|paths|] == paths;
    ListIsExact(changes, before, after);
    PatchGivesAfter(changes, before, after, hash, decode);
    EvidenceSound(changes, before, after, hash, decode);
  }

  lemma SortedStaysDistinct(files: seq<File>)
    requires PrefixFree(files)
    ensures DistinctPaths(SortFiles(files)) && |SortFiles(files)| == |files|
  {
    PrefixFreeDistinct(files);
    MultisetSize(files);
    MultisetSize(SortFiles(files));
    DistinctPathsPermute(files, SortFiles(files));
  }

  /** `describeBenchmarkWorkspace`. */
  method DescribeWorkspace(before: Snapshot, after: Snapshot, artifactDirectory: string, hash: Hash, decode: Decoder)
    returns (r: Outcome<WorkspaceEvidence>)
    ensures r.Returned? <==> ValidSnapshot(before, hash) && ValidSnapshot(after, hash)
    ensures r.Returned? ==>
      r.value.fixtureDigest == before.digest && r.value.resultDigest == after.digest && r.value.artifactDirectory == artifactDirectory
    ensures r.Returned? ==> EvidenceFor(r.value.changes, SortFiles(before.files), SortFiles(after.files), hash, decode)
  {
    var initial := ValidateSnapshot(before, hash);
    var result := ValidateSnapshot(after, hash);
    if initial.Threw? || result.Threw? { return Threw; }
    SortedStaysDistinct(before.files);
    SortedStaysDistinct(after.files);
    var changes := DescribeChanges(initial.value, result.value, hash, decode);
    return Returned(WorkspaceEvidence(before.digest, after.digest, artifactDirectory, changes));
  }
}
