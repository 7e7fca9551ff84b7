/**
 * The counting core of scripts/log-event-density.ts: burst sizes and what a throttle
 * window lets through. Record times are whole milliseconds.
 */
module LogDensity {
  import opened BenchTypes
  import opened Sorting

  predicate Leq(a: int, b: int) { a <= b }

  function InOrder(times: seq<int>): (r: seq<int>)
    ensures multiset(r) == multiset(times)
  {
    SortBy(times, Leq)
  }

  lemma InOrderSorted(times: seq<int>)
    ensures SortedBy(InOrder(times), Leq)
  {
    SortBySorts(times, Leq);
  }

  // ---------------------------------------------------------------- bursts

  /** How many of `times` fall in the closed window of `width` that starts at `from`. */
  function CountWindow(times: seq<int>, from: int, width: int): nat {
    if times == [] then 0
    else (if from <= times[0] <= from + width then 1 else 0) + CountWindow(times[1..], from, width)
  }

  lemma {:induction false} CountConcat(s: seq<int>, t: seq<int>, from: int, width: int)
    ensures CountWindow(s + t, from, width) == CountWindow(s, from, width) + CountWindow(t, from, width)
  {
    if s == [] {
      assert s + t == t;
    } else {
      assert (s + t)[1..] == s[1..] + t;
      CountConcat(s[1..], t, from, width);
    }
  }

  /** Counting does not depend on the order of the records. */
  lemma {:induction false} CountPermutation(s: seq<int>, t: seq<int>, from: int, width: int)
    requires multiset(s) == multiset(t)
    ensures CountWindow(s, from, width) == CountWindow(t, from, width)
  {
    MultisetSize(s);
    MultisetSize(t);
    if s != [] {
      assert s[0] in multiset(t);
      var k :| 0 <= k < |t| && t[k] == s[0];
      var rest := t[..k] + t[k + 1..];
      assert t == t[..k] + ([t[k]] + t[k + 1..]);
      RemoveSame(s, t, k);
      CountPermutation(s[1..], rest, from, width);
      CountConcat(t[..k], t[k + 1..], from, width);
      CountConcat(t[..k], [t[k]] + t[k + 1..], from, width);
      CountConcat([t[k]], t[k + 1..], from, width);
    }
  }

  lemma {:induction false} CountAll(s: seq<int>, from: int, width: int)
    ensures (forall k :: 0 <= k < |s| ==> from <= s[k] <= from + width) ==> CountWindow(s, from, width) == |s|
    ensures (forall k :: 0 <= k < |s| ==> !(from <= s[k] <= from + width)) ==> CountWindow(s, from, width) == 0
    ensures CountWindow(s, from, width) <= |s|
  {
    if s != [] {
      CountAll(s[1..], from, width);
      assert forall k :: 1 <= k < |s| ==> s[k] == s[1..][k - 1];
    }
  }

  /** In time order, a window that ends before `s[j]` and starts after `s[i - 1]` holds only `s[i..j]`. */
  lemma CountThree(a: seq<int>, b: seq<int>, c: seq<int>, from: int, width: int)
    ensures CountWindow(a + (b + c), from, width) == CountWindow(a, from, width) + CountWindow(b, from, width) + CountWindow(c, from, width)
  {
    CountConcat(a, b + c, from, width);
    CountConcat(b, c, from, width);
  }

  lemma NoneCounted(s: seq<int>, from: int, width: int)
    requires forall k :: 0 <= k < |s| ==> s[k] < from || from + width < s[k]
    ensures CountWindow(s, from, width) == 0
  {
    CountAll(s, from, width);
  }

  lemma CountBlock(s: seq<int>, from: int, width: int, i: nat, j: nat)
    requires SortedBy(s, Leq) && i <= j <= |s|
    requires forall k :: 0 <= k < i ==> s[k] < from
    requires forall k :: j <= k < |s| ==> from + width < s[k]
    ensures CountWindow(s, from, width) == CountWindow(s[i..j], from, width) <= j - i
  {
    assert s == s[..i] + (s[i..j] + s[j..]);
    CountThree(s[..i], s[i..j], s[j..], from, width);
    NoneCounted(s[..i], from, width);
    NoneCounted(s[j..], from, width);
    CountAll(s[i..j], from, width);
  }

  /** The first index whose time is within `width` of `s[end]`. */
  ghost predicate IsWindowStart(s: seq<int>, width: int, start: nat, end: nat)
    requires start <= end < |s|
  {
    s[end] - s[start] <= width && forall k :: 0 <= k < start ==> s[end] - s[k] > width
  }

  lemma {:induction false} LastInWindow(s: seq<int>, from: int, width: int, n: nat) returns (j: nat)
    requires SortedBy(s, Leq) && n <= |s|
    requires forall k :: n <= k < |s| ==> from + width < s[k]
    ensures j <= n && (j == 0 || s[j - 1] <= from + width)
    ensures forall k :: j <= k < |s| ==> from + width < s[k]
  {
    if n == 0 || s[n - 1] <= from + width {
      j := n;
    } else {
      j := LastInWindow(s, from, width, n - 1);
    }
  }

  /** Bounding the block behind every end point bounds every window, wherever it starts. */
  lemma EveryWindowBounded(s: seq<int>, width: int, best: nat, from: int)
    requires SortedBy(s, Leq)
    requires forall start: nat, end: nat :: start <= end < |s| && IsWindowStart(s, width, start, end) ==> end - start + 1 <= best
    ensures CountWindow(s, from, width) <= best
  {
    var j := LastInWindow(s, from, width, |s|);
    if j == 0 {
      CountAll(s, from, width);
    } else {
      var i := 0;
      while s[j - 1] - s[i] > width
        invariant i < j
        invariant forall k :: 0 <= k < i ==> s[j - 1] - s[k] > width
        decreases j - i
      {
        if i + 1 == j { CountAll(s, from, width); return; }
        i := i + 1;
      }
      assert IsWindowStart(s, width, i, j - 1);
      CountBlock(s, from, width, i, j);
    }
  }

  lemma BlockIsCounted(s: seq<int>, width: int, start: nat, end: nat)
    requires SortedBy(s, Leq) && start <= end < |s| && IsWindowStart(s, width, start, end)
    ensures end - start + 1 <= CountWindow(s, s[end] - width, width)
  {
    var from := s[end] - width;
    var a, b, c := s[..start], s[start..end + 1], s[end + 1..];
    assert s == a + (b + c);
    CountThree(a, b, c, from, width);
    forall i | 0 <= i < |b| ensures from <= b[i] <= from + width { assert b[i] == s[start + i]; }
    CountAll(b, from, width);
  }

  /** Everything before `start` is too far from the time at `end`. */
  ghost predicate Passed(s: seq<int>, width: int, start: nat, end: nat)
    requires end < |s|
  {
    start <= |s| && forall k :: 0 <= k < start ==> s[end] - s[k] > width
  }

  /** The inner loop, up to the end of the list. */
  method MoveStart(s: seq<int>, width: int, start: nat, end: nat) returns (moved: nat)
    requires end < |s| && Passed(s, width, start, end)
    ensures start <= moved && Passed(s, width, moved, end)
    ensures moved == |s| || s[end] - s[moved] <= width
  {
    moved := start;
    while moved < |s| && s[end] - s[moved] > width
      invariant start <= moved && Passed(s, width, moved, end)
    {
      moved := moved + 1;
    }
  }

  /** The best block among the first `end` end points, and where it is. */
  ghost predicate BestSoFar(s: seq<int>, width: int, end: nat, best: nat, bestStart: nat, bestEnd: nat)
    requires end <= |s|
  {
    && (forall i: nat, e: nat :: i <= e < end && IsWindowStart(s, width, i, e) ==> e - i + 1 <= best)
    && (if end == 0 then best == 0
        else bestStart <= bestEnd < end && best == bestEnd - bestStart + 1 && IsWindowStart(s, width, bestStart, bestEnd))
  }

  lemma BestIsLargest(times: seq<int>, width: int, best: nat, bestStart: nat, bestEnd: nat)
    requires BestSoFar(InOrder(times), width, |InOrder(times)|, best, bestStart, bestEnd)
    ensures IsLargestBurst(best, times, width)
  {
    var sorted := InOrder(times);
    InOrderSorted(times);
    forall from ensures CountWindow(times, from, width) <= best {
      EveryWindowBounded(sorted, width, best, from);
      CountPermutation(times, sorted, from, width);
    }
    var from := 0;
    if sorted != [] {
      BlockIsCounted(sorted, width, bestStart, bestEnd);
      from := sorted[bestEnd] - width;
    }
    CountPermutation(times, sorted, from, width);
    assert CountWindow(times, from, width) == best;
  }

  ghost predicate IsLargestBurst(best: nat, times: seq<int>, width: int) {
    && (forall from :: CountWindow(times, from, width) <= best)
    && (exists from :: CountWindow(times, from, width) == best)
  }

  lemma {:induction false} NothingInNegativeWindow(times: seq<int>, width: int)
    requires width < 0
    ensures IsLargestBurst(0, times, width)
  {
    forall from ensures CountWindow(times, from, width) == 0 { CountAll(times, from, width); }
    assert CountWindow(times, 0, width) == 0;
  }

  /** One turn of the outer loop for a window that is not negative. */
  lemma NextBest(s: seq<int>, width: int, end: nat, start: nat, best: nat, bestStart: nat, bestEnd: nat)
    requires width >= 0 && end < |s| && start <= end && Passed(s, width, start, end) && s[end] - s[start] <= width
    requires BestSoFar(s, width, end, best, bestStart, bestEnd)
    ensures end - start + 1 > best ==> BestSoFar(s, width, end + 1, end - start + 1, start, end)
    ensures end - start + 1 <= best ==> BestSoFar(s, width, end + 1, best, bestStart, bestEnd)
  {
    assert IsWindowStart(s, width, start, end);
    assert forall i :: 0 <= i < start ==> s[end] - s[i] > width;
  }

  lemma StillPassed(s: seq<int>, width: int, start: nat, end: nat)
    requires SortedBy(s, Leq) && end + 1 < |s| && Passed(s, width, start, end)
    ensures Passed(s, width, start, end + 1)
  {
    assert Leq(s[end], s[end + 1]);
  }

  lemma PassedAll(s: seq<int>, width: int, start: nat, end: nat)
    requires SortedBy(s, Leq) && end < |s| && (width < 0 ==> end == |s| - 1)
    requires Passed(s, width, start, end) && (start == |s| || s[end] - s[start] <= width)
    ensures width >= 0 ==> start <= end
    ensures width < 0 ==> start == |s|
  {
    NothingAfter(s, end);
    var last := s[end];
    assert forall k :: 0 <= k < start ==> last - s[k] > width;
  }

  lemma NothingAfter(s: seq<int>, end: nat)
    requires SortedBy(s, Leq) && end < |s|
    ensures forall k :: 0 <= k <= end ==> s[k] <= s[end]
  {
    assert forall k :: 0 <= k < end ==> Leq(s[k], s[end]);
  }

  /** In a negative window every end point is passed by the start. */
  lemma PassedEnd(s: seq<int>, width: int, start: nat, end: nat)
    requires SortedBy(s, Leq) && end < |s| && width < 0 && start <= |s| && (start == |s| || s[end] - s[start] <= width)
    ensures start > end
  {
    NothingAfter(s, end);
  }

  /**
   * The largest number of times inside any closed window, found with two moving indices. None stands for a call that
   * never returns: past the end of the list the inner loop compares with zero for ever, which needs a negative window
   * and a time above it.
   */
  method MaxInWindow(times: seq<int>, windowMs: int) returns (r: Option<nat>)
    ensures r.None? <==> windowMs < 0 && exists i :: 0 <= i < |times| && times[i] > windowMs
    ensures r.Some? ==> IsLargestBurst(r.value, times, windowMs)
  {
    var sorted := InOrder(times);
    InOrderSorted(times);
    var best: nat, start: nat := 0, 0;
    ghost var bestStart: nat, bestEnd: nat := 0, 0;
    for end := 0 to |sorted|
      invariant end < |sorted| ==> Passed(sorted, windowMs, start, end)
      invariant windowMs >= 0 ==> BestSoFar(sorted, windowMs, end, best, bestStart, bestEnd)
      invariant windowMs < 0 ==> best == 0 && (end == |sorted| > 0 ==> sorted[end - 1] <= windowMs)
    {
      start := MoveStart(sorted, windowMs, start, end);
      if windowMs >= 0 || end == |sorted| - 1 { PassedAll(sorted, windowMs, start, end); }
      if windowMs < 0 { PassedEnd(sorted, windowMs, start, end); }
      if start == |sorted| && sorted[end] > windowMs {
        SameTimes(times, sorted[end]);
        return None;
      }
      if windowMs >= 0 { NextBest(sorted, windowMs, end, start, best, bestStart, bestEnd); }
      if end + 1 < |sorted| { StillPassed(sorted, windowMs, start, end); }
      if end - start + 1 > best {
        best := end - start + 1;
        bestStart, bestEnd := start, end;
      }
    }
    if windowMs >= 0 {
      BestIsLargest(times, windowMs, best, bestStart, bestEnd);
    } else {
      NothingInNegativeWindow(times, windowMs);
      NoneAbove(times, windowMs);
    }
    return Some(best);
  }

  lemma SameTimes(times: seq<int>, t: int)
    requires t in InOrder(times)
    ensures exists i :: 0 <= i < |times| && times[i] == t
  {
    assert t in multiset(InOrder(times));
    assert t in times;
  }

  lemma NoneAbove(times: seq<int>, bound: int)
    requires InOrder(times) != [] ==> InOrder(times)[|InOrder(times)| - 1] <= bound
    ensures forall i :: 0 <= i < |times| ==> times[i] <= bound
  {
    var sorted := InOrder(times);
    InOrderSorted(times);
    forall i | 0 <= i < |times| ensures times[i] <= bound {
      assert times[i] in multiset(sorted);
      var k :| 0 <= k < |sorted| && sorted[k] == times[i];
      if k < |sorted| - 1 { assert Leq(sorted[k], sorted[|sorted| - 1]); }
    }
  }

  // ---------------------------------------------------------------- throttling

  predicate Apart(a: int, b: int, gap: int) {
    a - b >= gap || b - a >= gap
  }

  /**
   * A selection of records with times pairwise at least a positive `gap` apart: no two of
   * them share a time, so the selection is the set of its times.
   */
  ghost predicate Admissible(chosen: set<int>, times: seq<int>, gap: int) {
    && (forall c :: c in chosen ==> c in times)
    && (forall a, b :: a in chosen && b in chosen && a != b ==> Apart(a, b, gap))
  }

  /**
   * `n` is the most records that can be selected with all times at least `gap` apart.
   * When the gap is not positive every pair of records qualifies, so that is all of them.
   */
  ghost predicate IsLargestSpacing(n: nat, times: seq<int>, gap: int) {
    if gap <= 0 then n == |times|
    else
      && (forall chosen :: Admissible(chosen, times, gap) ==> |chosen| <= n)
      && (exists chosen :: Admissible(chosen, times, gap) && |chosen| == n)
  }

  datatype Last = Never | At(time: int)

  predicate Opens(last: Last, time: int, throttleMs: int) {
    last.Never? || time < last.time || time - last.time >= throttleMs
  }

  /** The records one window lets through, in order. */
  function Emitted(s: seq<int>, last: Last, throttleMs: int): seq<int> {
    if s == [] then []
    else if Opens(last, s[0], throttleMs) then [s[0]] + Emitted(s[1..], At(s[0]), throttleMs)
    else Emitted(s[1..], last, throttleMs)
  }

  lemma {:induction false} EverythingEmitted(s: seq<int>, last: Last, gap: int)
    requires gap <= 0 && SortedBy(s, Leq) && (last.At? ==> forall k :: 0 <= k < |s| ==> last.time <= s[k])
    ensures |Emitted(s, last, gap)| == |s|
  {
    if s != [] {
      EverythingEmitted(s[1..], At(s[0]), gap);
    }
  }

  /** What is let through is itself a spaced selection, all of it at least a window after `last`. */
  lemma {:induction false} EmittedAdmissible(s: seq<int>, last: Last, gap: int) returns (chosen: set<int>)
    requires gap > 0
    requires SortedBy(s, Leq) && (last.At? ==> forall k :: 0 <= k < |s| ==> last.time <= s[k])
    ensures Admissible(chosen, s, gap) && |chosen| == |Emitted(s, last, gap)|
    ensures last.At? ==> forall c :: c in chosen ==> c - last.time >= gap
  {
    if s == [] {
      chosen := {};
    } else if Opens(last, s[0], gap) {
      var rest := EmittedAdmissible(s[1..], At(s[0]), gap);
      chosen := {s[0]} + rest;
    } else {
      chosen := EmittedAdmissible(s[1..], last, gap);
    }
  }

  lemma Minimum(m: set<int>) returns (x: int)
    requires |m| > 0
    ensures x in m && forall y :: y in m ==> x <= y
    decreases |m|
  {
    x := SomeElement(m);
    var rest := m - {x};
    if |rest| == 0 {
      assert m == {x} + rest;
    } else {
      var y := Minimum(rest);
      x := if x <= y then x else y;
    }
  }

  /** No spaced selection beats the greedy one (exchange its earliest record for ours). */
  lemma {:induction false} GreedyIsLargest(s: seq<int>, last: Last, gap: int, chosen: set<int>)
    requires gap > 0
    requires SortedBy(s, Leq) && (last.At? ==> forall k :: 0 <= k < |s| ==> last.time <= s[k])
    requires Admissible(chosen, s, gap)
    requires last.At? ==> forall c :: c in chosen ==> c - last.time >= gap
    ensures |chosen| <= |Emitted(s, last, gap)|
  {
    if |chosen| > 0 {
      var c0 := Minimum(chosen);
      assert c0 in s;
      assert forall c :: c in s ==> c == s[0] || c in s[1..];
      if Opens(last, s[0], gap) {
        var first := Minimum(chosen);
        var rest := chosen - {first};
        forall c | c in rest ensures c - s[0] >= gap && c in s[1..] {
          assert Apart(c, first, gap) && first in s;
        }
        GreedyIsLargest(s[1..], At(s[0]), gap, rest);
      } else {
        assert s[0] !in chosen;
        GreedyIsLargest(s[1..], last, gap, chosen);
      }
    }
  }

  function WindowCount(times: seq<int>, throttleMs: int): nat {
    |Emitted(InOrder(times), Never, throttleMs)|
  }

  /** Main result for one window: the greedy count is the largest possible. */
  lemma WindowCountIsLargest(times: seq<int>, throttleMs: int)
    ensures IsLargestSpacing(WindowCount(times, throttleMs), times, throttleMs)
  {
    var s := InOrder(times);
    InOrderSorted(times);
    assert forall c :: c in s <==> c in multiset(s);
    assert forall c :: c in times <==> c in multiset(times);
    if throttleMs <= 0 {
      EverythingEmitted(s, Never, throttleMs);
      MultisetSize(s);
      MultisetSize(times);
    } else {
      var mine := EmittedAdmissible(s, Never, throttleMs);
      assert Admissible(mine, times, throttleMs);
      forall chosen | Admissible(chosen, times, throttleMs) ensures |chosen| <= WindowCount(times, throttleMs) {
        GreedyIsLargest(s, Never, throttleMs, chosen);
      }
    }
  }

  method EmittedInOneWindow(times: seq<int>, throttleMs: int) returns (emitted: nat)
    ensures IsLargestSpacing(emitted, times, throttleMs)
    ensures emitted == WindowCount(times, throttleMs)
  {
    var sorted := InOrder(times);
    emitted := 0;
    var last := Never;
    for i := 0 to |sorted|
      invariant emitted + |Emitted(sorted[i..], last, throttleMs)| == WindowCount(times, throttleMs)
    {
      assert sorted[i..][1..] == sorted[i + 1..];
      var time := sorted[i];
      if last.Never? || time < last.time || time - last.time >= throttleMs {
        last := At(time);
        emitted := emitted + 1;
      }
    }
    WindowCountIsLargest(times, throttleMs);
  }

  // ---------------------------------------------------------------- one window per subject

  datatype Record = Record(time: int, subject: string)

  function Times(records: seq<Record>): (r: seq<int>)
    ensures |r| == |records|
  {
    if records == [] then [] else Times(records[..|records| - 1]) + [records[|records| - 1].time]
  }

  /** The times of one subject, in the order its records were read. */
  function TimesOf(records: seq<Record>, subject: string): seq<int> {
    if records == [] then []
    else
      var rest := TimesOf(records[..|records| - 1], subject);
      var record := records[|records| - 1];
      if record.subject == subject then rest + [record.time] else rest
  }

  function Subjects(records: seq<Record>): set<string> {
    set r | r in records :: r.subject
  }

  ghost function SumOver(subjects: set<string>, records: seq<Record>, throttleMs: int): nat {
    if subjects == {} then 0
    else
      var x :| x in subjects;
      WindowCount(TimesOf(records, x), throttleMs) + SumOver(subjects - {x}, records, throttleMs)
  }

  lemma {:induction false} SumOverRemove(subjects: set<string>, x: string, records: seq<Record>, throttleMs: int)
    requires x in subjects
    ensures SumOver(subjects, records, throttleMs)
         == WindowCount(TimesOf(records, x), throttleMs) + SumOver(subjects - {x}, records, throttleMs)
    decreases subjects
  {
    var y :| y in subjects && SumOver(subjects, records, throttleMs)
          == WindowCount(TimesOf(records, y), throttleMs) + SumOver(subjects - {y}, records, throttleMs);
    if x != y {
      SumOverRemove(subjects - {y}, x, records, throttleMs);
      SumOverRemove(subjects - {x}, y, records, throttleMs);
      assert subjects - {x} - {y} == subjects - {y} - {x};
    }
  }

  /** Splitting one spaced selection between the subjects never loses a record. */
  lemma {:induction false} SplitBySubject(subjects: set<string>, records: seq<Record>, gap: int, chosen: set<int>)
    requires gap > 0
    requires forall a, b :: a in chosen && b in chosen && a != b ==> Apart(a, b, gap)
    requires forall c :: c in chosen ==> exists x :: x in subjects && c in TimesOf(records, x)
    ensures |chosen| <= SumOver(subjects, records, gap)
    decreases subjects
  {
    if subjects == {} {
      if |chosen| > 0 {
        var c := SomeElement(chosen);
        assert false;
      }
    } else {
      var x :| x in subjects;
      var mine := set c | c in chosen && c in TimesOf(records, x);
      var others := chosen - mine;
      assert chosen == mine + others && |chosen| == |mine| + |others|;
      forall c | c in others ensures exists y :: y in subjects - {x} && c in TimesOf(records, y) {
        var y :| y in subjects && c in TimesOf(records, y);
        assert y in subjects - {x};
      }
      SplitBySubject(subjects - {x}, records, gap, others);
      WindowCountIsLargest(TimesOf(records, x), gap);
      assert Admissible(mine, TimesOf(records, x), gap);
      SumOverRemove(subjects, x, records, gap);
    }
  }

  /** Every record is in its subject's window. */
  lemma {:induction false} SubjectHasTime(records: seq<Record>, t: int) returns (x: string)
    requires t in Times(records)
    ensures x in Subjects(records) && t in TimesOf(records, x)
  {
    var init, record := records[..|records| - 1], records[|records| - 1];
    assert record in records;
    if record.time == t {
      x := record.subject;
    } else {
      x := SubjectHasTime(init, t);
      assert forall r :: r in init ==> r in records;
    }
  }

  lemma {:induction false} AllCounted(subjects: set<string>, records: seq<Record>, gap: int)
    requires gap <= 0 && Subjects(records) <= subjects
    ensures SumOver(subjects, records, gap) >= |records|
  {
    if records != [] {
      var init, record := records[..|records| - 1], records[|records| - 1];
      assert records == init + [record];
      SubjectsGrow(init, record);
      AllCounted(subjects, init, gap);
      SumGrows(subjects, init, record, gap);
    }
  }

  lemma TimesGrow(init: seq<Record>, record: Record)
    ensures forall x :: TimesOf(init + [record], x) == TimesOf(init, x) + if record.subject == x then [record.time] else []
  {
    assert (init + [record])[..|init|] == init;
  }

  lemma SubjectsGrow(init: seq<Record>, record: Record)
    ensures Subjects(init + [record]) == Subjects(init) + {record.subject}
  {
    var all := init + [record];
    assert forall r :: r in init ==> r in all;
    assert all[|init|] == record;
  }

  lemma {:induction false} SumGrows(subjects: set<string>, init: seq<Record>, record: Record, gap: int)
    requires gap <= 0
    ensures SumOver(subjects, init + [record], gap)
         == SumOver(subjects, init, gap) + (if record.subject in subjects then 1 else 0)
    decreases subjects
  {
    if subjects != {} {
      var x :| x in subjects;
      var all := init + [record];
      assert all[..|all| - 1] == init;
      SumOverRemove(subjects, x, all, gap);
      SumOverRemove(subjects, x, init, gap);
      SumGrows(subjects - {x}, init, record, gap);
      WindowCountIsLargest(TimesOf(all, x), gap);
      WindowCountIsLargest(TimesOf(init, x), gap);
    }
  }

  /** A single window never lets more through than the subjects' own windows together. */
  lemma OneWindowUnderstates(records: seq<Record>, throttleMs: int)
    ensures WindowCount(Times(records), throttleMs) <= SumOver(Subjects(records), records, throttleMs)
  {
    WindowCountIsLargest(Times(records), throttleMs);
    if throttleMs <= 0 {
      AllCounted(Subjects(records), records, throttleMs);
    } else {
      var chosen :| Admissible(chosen, Times(records), throttleMs) && |chosen| == WindowCount(Times(records), throttleMs);
      forall c | c in chosen ensures exists x :: x in Subjects(records) && c in TimesOf(records, x) {
        var x := SubjectHasTime(records, c);
      }
      SplitBySubject(Subjects(records), records, throttleMs, chosen);
    }
  }

  /** Groups the times by subject, in reading order. */
  method GroupBySubject(records: seq<Record>) returns (windows: map<string, seq<int>>)
    ensures windows.Keys == Subjects(records)
    ensures forall x :: x in windows ==> windows[x] == TimesOf(records, x)
  {
    windows := map[];
    for i := 0 to |records|
      invariant windows.Keys == Subjects(records[..i])
      invariant forall x :: x in windows ==> windows[x] == TimesOf(records[..i], x)
      invariant forall x :: x !in windows ==> TimesOf(records[..i], x) == []
    {
      var record := records[i];
      assert records[..i + 1] == records[..i] + [record];
      SubjectsGrow(records[..i], record);
      TimesGrow(records[..i], record);
      if record.subject !in windows {
        windows := windows[record.subject := [record.time]];
      } else {
        windows := windows[record.subject := windows[record.subject] + [record.time]];
      }
    }
    assert records[..|records|] == records;
  }

  method EmittedUnderThrottle(records: seq<Record>, throttleMs: int, bySubject: bool) returns (emitted: nat)
    ensures !bySubject ==> IsLargestSpacing(emitted, Times(records), throttleMs)
    ensures bySubject ==> emitted == SumOver(Subjects(records), records, throttleMs)
    ensures emitted >= WindowCount(Times(records), throttleMs)
  {
    if !bySubject {
      emitted := EmittedInOneWindow(Times(records), throttleMs);
      return;
    }
    var windows := GroupBySubject(records);
    emitted := 0;
    var rest := windows.Keys;
    while rest != {}
      invariant rest <= windows.Keys
      invariant emitted + SumOver(rest, records, throttleMs) == SumOver(windows.Keys, records, throttleMs)
      decreases rest
    {
      var x :| x in rest;
      var more := EmittedInOneWindow(windows[x], throttleMs);
      SumOverRemove(rest, x, records, throttleMs);
      emitted := emitted + more;
      rest := rest - {x};
    }
    OneWindowUnderstates(records, throttleMs);
  }
}
