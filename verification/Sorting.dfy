/** Sorting by a comparison, as `Array.prototype.sort` is used by the benchmark and log code. */
module Sorting {

  ghost predicate Total<T(!new)>(le: (T, T) -> bool) {
    forall a, b :: le(a, b) || le(b, a)
  }

  ghost predicate Transitive<T(!new)>(le: (T, T) -> bool) {
    forall a, b, c :: le(a, b) && le(b, c) ==> le(a, c)
  }

  ghost predicate TotalPreorder<T(!new)>(le: (T, T) -> bool) {
    Total(le) && Transitive(le)
  }

  ghost predicate SortedBy<T>(s: seq<T>, le: (T, T) -> bool) {
    forall i, j :: 0 <= i < j < |s| ==> le(s[i], s[j])
  }

  /** Stable insertion: `x` goes before the first element it is not after. */
  function Insert<T>(x: T, s: seq<T>, le: (T, T) -> bool): (r: seq<T>)
    ensures multiset(r) == multiset{x} + multiset(s)
  {
    if s == [] then [x]
    else if le(x, s[0]) then [x] + s
    else
      assert s == [s[0]] + s[1..];
      [s[0]] + Insert(x, s[1..], le)
  }

  function SortBy<T>(s: seq<T>, le: (T, T) -> bool): (r: seq<T>)
    ensures multiset(r) == multiset(s)
  {
    if s == [] then []
    else
      assert s == [s[0]] + s[1..];
      Insert(s[0], SortBy(s[1..], le), le)
  }

  lemma {:induction false} InsertSorted<T(!new)>(x: T, s: seq<T>, le: (T, T) -> bool)
    requires TotalPreorder(le) && SortedBy(s, le)
    ensures SortedBy(Insert(x, s, le), le)
  {
    if s != [] && !le(x, s[0]) {
      var r := Insert(x, s[1..], le);
      InsertSorted(x, s[1..], le);
      forall j | 0 <= j < |r| ensures le(s[0], r[j]) {
        assert r[j] in multiset(r);
        if r[j] != x {
          assert r[j] in multiset(s[1..]) && r[j] in s[1..];
        }
      }
    }
  }

  lemma {:induction false} SortBySorts<T(!new)>(s: seq<T>, le: (T, T) -> bool)
    requires TotalPreorder(le)
    ensures SortedBy(SortBy(s, le), le)
  {
    if s != [] {
      SortBySorts(s[1..], le);
      InsertSorted(s[0], SortBy(s[1..], le), le);
    }
  }

  /** An antisymmetric order leaves only one way to list a multiset in order. */
  lemma {:induction false} SortedUnique<T(!new)>(s: seq<T>, t: seq<T>, le: (T, T) -> bool)
    requires SortedBy(s, le) && SortedBy(t, le) && multiset(s) == multiset(t)
    requires forall a, b :: a in s && b in s && le(a, b) && le(b, a) ==> a == b
    ensures s == t
  {
    MultisetSize(s);
    MultisetSize(t);
    if s != [] {
      SameFirst(s, t, le);
      TailsPermute(s, t);
      SortedTail(s, le);
      SortedTail(t, le);
      assert forall a :: a in s[1..] ==> a in s;
      SortedUnique(s[1..], t[1..], le);
      assert s == [s[0]] + s[1..] && t == [t[0]] + t[1..];
    }
  }

  lemma SameFirst<T(!new)>(s: seq<T>, t: seq<T>, le: (T, T) -> bool)
    requires s != [] && t != [] && SortedBy(s, le) && SortedBy(t, le) && multiset(s) == multiset(t)
    requires forall a, b :: a in s && b in s && le(a, b) && le(b, a) ==> a == b
    ensures s[0] == t[0]
  {
    assert t[0] in multiset(s) && s[0] in multiset(t);
    var i :| 0 <= i < |t| && t[i] == s[0];
    var j :| 0 <= j < |s| && s[j] == t[0];
  }

  lemma TailsPermute<T>(s: seq<T>, t: seq<T>)
    requires s != [] && t != [] && s[0] == t[0] && multiset(s) == multiset(t)
    ensures multiset(s[1..]) == multiset(t[1..])
  {
    RemoveSame(s, t, 0);
    assert t[..0] + t[1..] == t[1..];
  }

  lemma SortedTail<T>(s: seq<T>, le: (T, T) -> bool)
    requires s != [] && SortedBy(s, le)
    ensures SortedBy(s[1..], le)
  {}

  lemma MultisetSize<T>(s: seq<T>)
    ensures |multiset(s)| == |s|
  {}

  lemma SomeElement<T>(m: set<T>) returns (x: T)
    requires m != {}
    ensures x in m
  {
    x :| x in m;
  }

  /** Taking an element off the front and out of the middle of two permutations leaves permutations. */
  lemma RemoveSame<T>(s: seq<T>, t: seq<T>, k: nat)
    requires s != [] && k < |t| && s[0] == t[k] && multiset(s) == multiset(t)
    ensures multiset(s[1..]) == multiset(t[..k] + t[k + 1..])
  {
    var rest := multiset(t[..k] + t[k + 1..]);
    assert multiset(s) == multiset{s[0]} + multiset(s[1..]) by {
      assert s == [s[0]] + s[1..];
    }
    assert multiset(t) == rest + multiset{t[k]} by {
      assert t == t[..k] + ([t[k]] + t[k + 1..]);
    }
    assert multiset(s[1..]) + multiset{s[0]} == rest + multiset{s[0]};
    assert multiset(s[1..]) == multiset(s) - multiset{s[0]};
    assert rest == rest + multiset{s[0]} - multiset{s[0]};
  }

  ghost predicate Distinct<T>(s: seq<T>) {
    forall i, j :: 0 <= i < j < |s| ==> s[i] != s[j]
  }

  lemma {:induction false} DistinctCount<T>(s: seq<T>)
    ensures Distinct(s) <==> forall x :: x in s ==> multiset(s)[x] == 1
  {
    if s != [] {
      assert s == [s[0]] + s[1..];
      DistinctCount(s[1..]);
      assert Distinct(s) <==> s[0] !in s[1..] && Distinct(s[1..]) by {
        assert forall j :: 1 <= j < |s| ==> s[j] == s[1..][j - 1];
      }
      assert multiset(s) == multiset{s[0]} + multiset(s[1..]);
      assert forall x :: x in s <==> x == s[0] || x in s[1..];
      assert s[0] in s[1..] <==> multiset(s)[s[0]] > 1;
    }
  }

  /** Being free of duplicates does not depend on the order. */
  lemma DistinctPermutation<T>(s: seq<T>, t: seq<T>)
    requires multiset(s) == multiset(t) && Distinct(s)
    ensures Distinct(t)
  {
    DistinctCount(s);
    DistinctCount(t);
    forall x | x in t ensures multiset(t)[x] == 1 {
      assert x in multiset(t);
      assert x in s;
    }
  }

  /** Two lists without repetition that hold the same things hold each as often. */
  lemma SameElements<T(!new)>(s: seq<T>, t: seq<T>)
    requires Distinct(s) && Distinct(t) && forall x :: x in s <==> x in t
    ensures multiset(s) == multiset(t)
  {
    DistinctCount(s);
    DistinctCount(t);
    forall x ensures multiset(s)[x] == multiset(t)[x] {
      assert x in s <==> x in multiset(s);
      assert x in t <==> x in multiset(t);
    }
  }

  lemma Reassociate<T>(a: seq<T>, b: seq<T>, c: seq<T>)
    ensures (a + b) + c == a + (b + c)
  {}
}
