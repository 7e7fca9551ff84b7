/** UTF-8 text and safe relative paths (`safeBenchmarkRelativePath`, src/benchmark/workspace.ts). */
module Paths {
  import opened Sorting

  // ---------------------------------------------------------------- UTF-8

  type Byte = n: int | 0 <= n < 256

  /** The bytes of one character. */
  function Encode(c: char): (b: seq<Byte>)
    ensures 1 <= |b| <= 4
  {
    var n := c as int;
    if n < 0x80 then [n]
    else if n < 0x800 then [0xC0 + n / 64, 0x80 + n % 64]
    else if n < 0x10000 then [0xE0 + n / 4096, 0x80 + n / 64 % 64, 0x80 + n % 64]
    else [0xF0 + n / 262144, 0x80 + n / 4096 % 64, 0x80 + n / 64 % 64, 0x80 + n % 64]
  }

  function Utf8(s: string): (b: seq<Byte>)
    ensures |b| >= |s|
  {
    if s == [] then [] else Encode(s[0]) + Utf8(s[1..])
  }

  function ByteLength(s: string): nat { |Utf8(s)| }

  /** The number of bytes can be read off the first one. */
  function LengthFrom(first: Byte): nat {
    if first < 0x80 then 1 else if first < 0xE0 then 2 else if first < 0xF0 then 3 else 4
  }

  lemma EncodeLength(c: char)
    ensures |Encode(c)| == LengthFrom(Encode(c)[0])
  {}

  /** A number is its base-64 digits. */
  lemma Digits(n: nat)
    ensures n == 64 * (n / 64) + n % 64
    ensures n / 64 == 64 * (n / 4096) + n / 64 % 64
    ensures n / 4096 == 64 * (n / 262144) + n / 4096 % 64
  {}

  lemma EncodeInjective(c: char, d: char)
    requires Encode(c) == Encode(d)
    ensures c == d
  {
    Digits(c as int);
    Digits(d as int);
    EncodeLength(c);
    EncodeLength(d);
    var a, b := Encode(c), Encode(d);
    assert a[0] == b[0] && (|a| > 1 ==> a[1] == b[1]) && (|a| > 2 ==> a[2] == b[2]) && (|a| > 3 ==> a[3] == b[3]);
  }

  /** No character's bytes begin another's. */
  lemma EncodeFree(c: char, d: char, x: seq<Byte>, y: seq<Byte>)
    requires Encode(c) + x == Encode(d) + y
    ensures c == d && x == y
  {
    var s, t := Encode(c) + x, Encode(d) + y;
    assert s[0] == Encode(c)[0] && t[0] == Encode(d)[0];
    EncodeLength(c);
    EncodeLength(d);
    assert s[..|Encode(c)|] == Encode(c) && t[..|Encode(d)|] == Encode(d);
    EncodeInjective(c, d);
    assert s[|Encode(c)|..] == x && t[|Encode(d)|..] == y;
  }

  lemma {:induction false} Utf8Concat(s: string, t: string)
    ensures Utf8(s + t) == Utf8(s) + Utf8(t)
  {
    if s == [] {
      assert s + t == t;
    } else {
      Utf8Concat(s[1..], t);
      assert (s + t)[0] == s[0] && (s + t)[1..] == s[1..] + t;
      Reassociate(Encode(s[0]), Utf8(s[1..]), Utf8(t));
    }
  }

  /** Bytes that start with two texts start with the shorter one. */
  lemma {:induction false} Utf8Prefix(s: string, t: string, x: seq<Byte>, y: seq<Byte>)
    requires Utf8(s) + x == Utf8(t) + y
    ensures s <= t || t <= s
  {
    if s != [] && t != [] {
      var x1, y1 := Utf8(s[1..]) + x, Utf8(t[1..]) + y;
      Reassociate(Encode(s[0]), Utf8(s[1..]), x);
      Reassociate(Encode(t[0]), Utf8(t[1..]), y);
      EncodeFree(s[0], t[0], x1, y1);
      Utf8Prefix(s[1..], t[1..], x, y);
      assert s == [s[0]] + s[1..] && t == [t[0]] + t[1..];
    }
  }

  // ---------------------------------------------------------------- components

  type Path = seq<string>

  predicate HasSlash(s: string) { exists i :: 0 <= i < |s| && s[i] == '/' }

  /** `s.split("/")`. */
  function Split(s: string): (parts: Path)
    ensures parts != []
  {
    if s == [] then [""]
    else if s[0] == '/' then [""] + Split(s[1..])
    else
      var rest := Split(s[1..]);
      [[s[0]] + rest[0]] + rest[1..]
  }

  /** `parts.join("/")`. */
  function Join(parts: Path): string {
    if parts == [] then "" else if |parts| == 1 then parts[0] else parts[0] + ("/" + Join(parts[1..]))
  }

  lemma {:induction false} JoinSplit(s: string)
    ensures Join(Split(s)) == s
  {
    if s != [] {
      JoinSplit(s[1..]);
      var rest := Split(s[1..]);
      assert s == [s[0]] + s[1..];
      if s[0] == '/' {
        assert Split(s)[1..] == rest;
      } else if |rest| > 1 {
        assert Split(s)[1..] == rest[1..];
        assert ([s[0]] + rest[0]) + ("/" + Join(rest[1..])) == [s[0]] + (rest[0] + ("/" + Join(rest[1..])));
      }
    }
  }

  predicate Plain(parts: Path) { forall i :: 0 <= i < |parts| ==> !HasSlash(parts[i]) }

  lemma {:induction false} SplitPlain(s: string)
    ensures Plain(Split(s))
  {
    if s != [] {
      SplitPlain(s[1..]);
      var rest := Split(s[1..]);
      if s[0] != '/' {
        var first := [s[0]] + rest[0];
        assert forall i :: 1 <= i < |first| ==> first[i] == rest[0][i - 1];
      }
    }
  }

  lemma {:induction false} SplitAfter(part: string, tail: string)
    requires !HasSlash(part)
    ensures Split(part + ("/" + tail)) == [part] + Split(tail)
  {
    var s := part + ("/" + tail);
    if part == [] {
      assert s == "/" + tail;
      assert s[1..] == tail;
    } else {
      assert forall i :: 0 <= i < |part[1..]| ==> part[1..][i] == part[i + 1];
      SplitAfter(part[1..], tail);
      assert s[1..] == part[1..] + ("/" + tail);
      assert part == [part[0]] + part[1..];
    }
  }

  lemma {:induction false} SplitWhole(part: string)
    requires !HasSlash(part)
    ensures Split(part) == [part]
  {
    if part != [] {
      assert forall i :: 0 <= i < |part[1..]| ==> part[1..][i] == part[i + 1];
      SplitWhole(part[1..]);
      assert part == [part[0]] + part[1..];
    }
  }

  lemma {:induction false} SplitJoin(parts: Path)
    requires parts != [] && Plain(parts)
    ensures Split(Join(parts)) == parts
  {
    if |parts| == 1 {
      SplitWhole(parts[0]);
    } else {
      SplitJoin(parts[1..]);
      SplitAfter(parts[0], Join(parts[1..]));
      assert parts == [parts[0]] + parts[1..];
    }
  }

  lemma JoinInjective(p: Path, q: Path)
    requires p != [] && q != [] && Plain(p) && Plain(q) && Join(p) == Join(q)
    ensures p == q
  {
    SplitJoin(p);
    SplitJoin(q);
  }

  // ---------------------------------------------------------------- safety

  predicate Between(n: int, lo: int, hi: int) { lo <= n <= hi }

  /** Backslash, colon, controls (Cc) and format characters (Cf). */
  predicate UnsafeChar(c: char) {
    var n := c as int;
    || c == '\\' || c == ':' || n < 0x20 || Between(n, 0x7F, 0x9F)
    || n == 0xAD || Between(n, 0x600, 0x605) || n == 0x61C || n == 0x6DD || n == 0x70F || Between(n, 0x890, 0x891) || n == 0x8E2
    || n == 0x180E || Between(n, 0x200B, 0x200F) || Between(n, 0x202A, 0x202E) || Between(n, 0x2060, 0x2064)
    || Between(n, 0x2066, 0x206F) || n == 0xFEFF || Between(n, 0xFFF9, 0xFFFB) || n == 0x110BD || n == 0x110CD
    || Between(n, 0x13430, 0x1343F) || Between(n, 0x1BCA0, 0x1BCA3) || Between(n, 0x1D173, 0x1D17A) || n == 0xE0001
    || Between(n, 0xE0020, 0xE007F)
  }

  predicate SafePart(part: string) {
    part != "" && part != "." && part != ".." && ByteLength(part) <= 255
  }

  predicate NoUnsafeChar(s: string) { forall i :: 0 <= i < |s| ==> !UnsafeChar(s[i]) }

  predicate SafePath(path: string) {
    && path != "" && ByteLength(path) <= 4096 && NoUnsafeChar(path)
    && forall i :: 0 <= i < |Split(path)| ==> SafePart(Split(path)[i])
  }

  lemma {:induction false} JoinPrefix(p: Path, k: nat)
    requires 1 <= k <= |p|
    ensures Join(p[..k]) <= Join(p)
  {
    if k == |p| {
      assert p[..k] == p;
    } else if k == 1 {
      assert p[..1] == [p[0]];
    } else {
      JoinPrefix(p[1..], k - 1);
      assert p[..k][1..] == p[1..][..k - 1];
    }
  }

  lemma PrefixText(path: string, q: string)
    requires q <= path
    ensures ByteLength(q) <= ByteLength(path) && (NoUnsafeChar(path) ==> NoUnsafeChar(q))
  {
    assert path == q + path[|q|..];
    Utf8Concat(q, path[|q|..]);
    assert forall i :: 0 <= i < |q| ==> q[i] == path[i];
  }

  lemma JoinNotEmpty(parts: Path)
    requires parts != [] && parts[0] != ""
    ensures Join(parts) != ""
  {}

  /** The directories on a safe path are safe. */
  lemma PrefixSafe(path: string, k: nat)
    requires SafePath(path) && 1 <= k <= |Split(path)|
    ensures SafePath(Join(Split(path)[..k]))
  {
    var parts := Split(path)[..k];
    SplitPlain(path);
    SplitJoin(parts);
    JoinSplit(path);
    JoinPrefix(Split(path), k);
    PrefixText(path, Join(parts));
    assert SafePart(Split(path)[0]);
    JoinNotEmpty(parts);
    assert forall i :: 0 <= i < k ==> parts[i] == Split(path)[i] && SafePart(Split(path)[i]);
  }
}
