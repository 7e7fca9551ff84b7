/** Decimal rendering, zero padding and the code-unit order that `<` gives on strings. */
module Strings {
  import opened Sorting

  // ---------------------------------------------------------------- decimals

  function Digit(d: nat): (c: char)
    requires d < 10
    ensures '0' <= c <= '9'
  {
    '0' + (d as char)
  }

  /** `String(n)` for a natural number. */
  function Decimal(n: nat): (s: string)
    ensures |s| >= 1 && forall k :: 0 <= k < |s| ==> '0' <= s[k] <= '9'
  {
    if n < 10 then [Digit(n)] else Decimal(n / 10) + [Digit(n % 10)]
  }

  function Value(s: string): nat
    requires forall k :: 0 <= k < |s| ==> '0' <= s[k] <= '9'
  {
    if s == [] then 0 else 10 * Value(s[..|s| - 1]) + (s[|s| - 1] as nat - '0' as nat)
  }

  /** The number can be read back from its digits. */
  lemma {:induction false} DecimalValue(n: nat)
    ensures Value(Decimal(n)) == n
  {
    var s := Decimal(n);
    if n < 10 {
      assert s[..0] == [];
    } else {
      assert s[..|s| - 1] == Decimal(n / 10);
      DecimalValue(n / 10);
    }
  }

  lemma DecimalInjective(a: nat, b: nat)
    requires Decimal(a) == Decimal(b)
    ensures a == b
  {
    DecimalValue(a);
    DecimalValue(b);
  }

  function Zeros(k: nat): (s: string)
    ensures |s| == k
  {
    if k == 0 then "" else Zeros(k - 1) + "0"
  }

  /** `s.padStart(width, "0")`. */
  function PadStart(s: string, width: nat): string {
    if |s| >= width then s else Zeros(width - |s|) + s
  }

  lemma {:induction false} PadValue(k: nat, s: string)
    requires forall i :: 0 <= i < |s| ==> '0' <= s[i] <= '9'
    ensures forall i :: 0 <= i < |Zeros(k) + s| ==> '0' <= (Zeros(k) + s)[i] <= '9'
    ensures Value(Zeros(k) + s) == Value(s)
  {
    ZerosAreZeros(k);
    var t := Zeros(k) + s;
    if s != [] {
      PadValue(k, s[..|s| - 1]);
      assert t[..|t| - 1] == Zeros(k) + s[..|s| - 1];
    } else if k > 0 {
      PadValue(k - 1, []);
      assert t[..|t| - 1] == Zeros(k - 1) + [];
    }
  }

  lemma {:induction false} ZerosAreZeros(k: nat)
    ensures forall i :: 0 <= i < k ==> Zeros(k)[i] == '0'
  {
    if k > 0 { ZerosAreZeros(k - 1); }
  }

  // ---------------------------------------------------------------- order

  /** `a <= b` as strings. */
  predicate StringLe(a: string, b: string) {
    a == [] || (b != [] && (a[0] < b[0] || (a[0] == b[0] && StringLe(a[1..], b[1..]))))
  }

  lemma {:induction false} StringLeTotal(a: string, b: string)
    ensures StringLe(a, b) || StringLe(b, a)
  {
    if a != [] && b != [] { StringLeTotal(a[1..], b[1..]); }
  }

  lemma {:induction false} StringLeTransitive(a: string, b: string, c: string)
    requires StringLe(a, b) && StringLe(b, c)
    ensures StringLe(a, c)
  {
    if a != [] && a[0] == b[0] == c[0] { StringLeTransitive(a[1..], b[1..], c[1..]); }
  }

  lemma {:induction false} StringLeAntisymmetric(a: string, b: string)
    requires StringLe(a, b) && StringLe(b, a)
    ensures a == b
  {
    if a != [] {
      StringLeAntisymmetric(a[1..], b[1..]);
      assert a == [a[0]] + a[1..] && b == [b[0]] + b[1..];
    }
  }

  lemma StringOrder()
    ensures TotalPreorder(StringLe)
  {
    forall a, b ensures StringLe(a, b) || StringLe(b, a) { StringLeTotal(a, b); }
    forall a, b, c | StringLe(a, b) && StringLe(b, c) ensures StringLe(a, c) { StringLeTransitive(a, b, c); }
  }

  /** Texts sort alike exactly when they are permutations of one another. */
  lemma SortedTexts(s: seq<string>, t: seq<string>)
    ensures SortBy(s, StringLe) == SortBy(t, StringLe) <==> multiset(s) == multiset(t)
  {
    if multiset(s) == multiset(t) {
      StringOrder();
      SortBySorts(s, StringLe);
      SortBySorts(t, StringLe);
      forall a, b | StringLe(a, b) && StringLe(b, a) ensures a == b { StringLeAntisymmetric(a, b); }
      SortedUnique(SortBy(s, StringLe), SortBy(t, StringLe), StringLe);
    }
  }

  lemma {:induction false} CommonPrefixLe(p: string, a: string, b: string)
    ensures StringLe(p + a, p + b) <==> StringLe(a, b)
  {
    if p == [] {
      assert p + a == a && p + b == b;
    } else {
      CommonPrefixLe(p[1..], a, b);
      TailOfConcat(p, a);
      TailOfConcat(p, b);
    }
  }

  lemma TailOfConcat(p: string, a: string)
    requires p != []
    ensures p + a != [] && (p + a)[0] == p[0] && (p + a)[1..] == p[1..] + a
  {}

  /** Among strings of one length, what follows a strictly smaller prefix does not matter. */
  lemma {:induction false} SmallerPrefixLe(p: string, q: string, a: string, b: string)
    requires |p| == |q| && StringLe(p, q) && p != q
    ensures StringLe(p + a, q + b)
  {
    assert p != [];
    if p[0] == q[0] {
      assert p == [p[0]] + p[1..] && q == [q[0]] + q[1..];
      SmallerPrefixLe(p[1..], q[1..], a, b);
      TailOfConcat(p, a);
      TailOfConcat(q, b);
    }
  }

  /** Digit strings of one length sort by the number they write. */
  lemma {:induction false} EqualLengthOrder(s: string, t: string)
    requires |s| == |t|
    requires forall k :: 0 <= k < |s| ==> '0' <= s[k] <= '9' && '0' <= t[k] <= '9'
    ensures Value(s) <= Value(t) <==> StringLe(s, t)
    decreases |s|
  {
    if s != [] {
      var p, q, a, b := s[..|s| - 1], t[..|t| - 1], s[|s| - 1], t[|t| - 1];
      EqualLengthOrder(p, q);
      EqualLengthOrder(q, p);
      LastDigitOrder(p, q, a, b);
      assert s == p + [a] && t == q + [b];
    }
  }

  /** One more digit on strings of one length: it only matters between equal prefixes. */
  lemma LastDigitOrder(p: string, q: string, a: char, b: char)
    requires |p| == |q|
    ensures p == q ==> (StringLe(p + [a], q + [b]) <==> a <= b)
    ensures p != q ==> (StringLe(p + [a], q + [b]) <==> StringLe(p, q))
    ensures StringLe(p, q) && StringLe(q, p) ==> p == q
  {
    if p == q {
      CommonPrefixLe(p, [a], [b]);
      SingleLe(a, b);
    } else {
      SameSizeAntisymmetric(p, q);
      StringLeTotal(p, q);
      if StringLe(p, q) { LargerPrefix(p, q, a, b); } else { LargerPrefix(q, p, b, a); }
    }
  }

  lemma SingleLe(a: char, b: char)
    ensures StringLe([a], [b]) <==> a <= b
  {
    assert [a][1..] == [] && [b][1..] == [];
  }

  lemma LargerPrefix(p: string, q: string, a: char, b: char)
    requires |p| == |q| && p != q && StringLe(p, q)
    ensures StringLe(p + [a], q + [b]) && !StringLe(q + [b], p + [a])
  {
    SmallerPrefixLe(p, q, [a], [b]);
    assert (p + [a])[..|p|] == p && (q + [b])[..|q|] == q;
    SameSizeAntisymmetric(p + [a], q + [b]);
  }

  lemma SameSizeAntisymmetric(s: string, t: string)
    requires s != t
    ensures !(StringLe(s, t) && StringLe(t, s))
  {
    if StringLe(s, t) && StringLe(t, s) { StringLeAntisymmetric(s, t); }
  }

  // ---------------------------------------------------------------- padded identifiers

  function Pow10(w: nat): (p: nat)
    ensures p >= 1
  {
    if w == 0 then 1 else 10 * Pow10(w - 1)
  }

  lemma {:induction false} DecimalWidth(n: nat, w: nat)
    requires w >= 1
    ensures |Decimal(n)| <= w <==> n < Pow10(w)
  {
    if n >= 10 && w > 1 {
      DecimalWidth(n / 10, w - 1);
    } else if n >= 10 {
      assert |Decimal(n)| >= 2;
      assert Pow10(1) == 10 * Pow10(0);
    } else {
      assert Pow10(w) >= 10;
    }
  }

  function Padded(n: nat, width: nat): string {
    PadStart(Decimal(n), width)
  }

  lemma PaddedValue(n: nat, width: nat)
    ensures forall k :: 0 <= k < |Padded(n, width)| ==> '0' <= Padded(n, width)[k] <= '9'
    ensures Value(Padded(n, width)) == n
  {
    DecimalValue(n);
    PadStartValue(Decimal(n), width);
  }

  lemma PadStartValue(s: string, width: nat)
    requires forall i :: 0 <= i < |s| ==> '0' <= s[i] <= '9'
    ensures forall i :: 0 <= i < |PadStart(s, width)| ==> '0' <= PadStart(s, width)[i] <= '9'
    ensures Value(PadStart(s, width)) == Value(s)
  {
    if |s| < width { PadValue(width - |s|, s); }
  }

  lemma PaddedInjective(a: nat, b: nat, width: nat)
    requires Padded(a, width) == Padded(b, width)
    ensures a == b
  {
    PaddedValue(a, width);
    PaddedValue(b, width);
  }

  lemma PaddedOrder(a: nat, b: nat, width: nat)
    requires width >= 1 && a < Pow10(width) && b < Pow10(width)
    ensures StringLe(Padded(a, width), Padded(b, width)) <==> a <= b
  {
    DecimalWidth(a, width);
    DecimalWidth(b, width);
    PaddedValue(a, width);
    PaddedValue(b, width);
    EqualLengthOrder(Padded(a, width), Padded(b, width));
  }
}
