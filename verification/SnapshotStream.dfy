/** The byte stream a workspace snapshot is hashed from (`snapshotDigest`, src/benchmark/workspace.ts). */
module SnapshotStream {
  import opened Sorting
  import opened Paths
  import opened Json
  import opened Strings

  /** A captured file; base64 content is carried as the bytes it stands for. */
  datatype File = File(path: string, content: seq<Byte>, executable: bool)

  /** `JSON.stringify([path, length, executable])`, then `k`. */
  function Header(f: File, k: string): string {
    "[" + QuoteThen(f.path, "," + (Decimal(|f.content|) + ("," + ((if f.executable then "true" else "false") + ("]" + k)))))
  }

  function Stream(files: seq<File>): (b: seq<Byte>)
    ensures files != [] ==> b != []
  {
    if files == [] then [] else Utf8(Header(files[0], "")) + (files[0].content + Stream(files[1..]))
  }

  lemma DecimalIsNumber(n: nat)
    ensures IsNumber(Decimal(n))
  {
    assert forall i :: 0 <= i < |Decimal(n)| ==> IsNumChar(Decimal(n)[i]);
  }

  lemma FlagFree(a: bool, b: bool, x: string, y: string)
    requires (if a then "true" else "false") + x == (if b then "true" else "false") + y
    ensures a == b && x == y
  {
    var s, t := (if a then "true" else "false"), (if b then "true" else "false");
    assert (s + x)[0] == s[0] && (t + y)[0] == t[0];
    DropHead(s, x, y);
  }

  /** A header can be read back from the front of any text. */
  lemma HeaderFree(f: File, g: File, x: string, y: string)
    requires Header(f, x) == Header(g, y)
    ensures f.path == g.path && |f.content| == |g.content| && f.executable == g.executable && x == y
  {
    var u, v := (if f.executable then "true" else "false") + ("]" + x), (if g.executable then "true" else "false") + ("]" + y);
    var m, n := Decimal(|f.content|), Decimal(|g.content|);
    DropHead("[", QuoteThen(f.path, "," + (m + ("," + u))), QuoteThen(g.path, "," + (n + ("," + v))));
    QuoteFree(f.path, g.path, "," + (m + ("," + u)), "," + (n + ("," + v)));
    DropHead(",", m + ("," + u), n + ("," + v));
    DecimalIsNumber(|f.content|);
    DecimalIsNumber(|g.content|);
    NumFree(m, n, "," + u, "," + v);
    DecimalInjective(|f.content|, |g.content|);
    DropHead(",", u, v);
    FlagFree(f.executable, g.executable, "]" + x, "]" + y);
    DropHead("]", x, y);
  }

  lemma HeaderAppends(f: File, k: string)
    ensures Header(f, "") + k == Header(f, k)
  {
    var flag := if f.executable then "true" else "false";
    var n := Decimal(|f.content|);
    Reassociate("]", "", k);
    Reassociate(flag, "]" + "", k);
    Reassociate(",", flag + ("]" + ""), k);
    Reassociate(n, "," + (flag + ("]" + "")), k);
    Reassociate(",", n + ("," + (flag + ("]" + ""))), k);
    QuoteThenAppends(f.path, "," + (n + ("," + (flag + ("]" + "")))), k);
    Reassociate("[", QuoteThen(f.path, "," + (n + ("," + (flag + ("]" + ""))))), k);
    assert "" + k == k;
  }

  /** Equal bytes start with equal headers, whatever content follows. */
  lemma HeaderBytesFree(f: File, g: File, x: seq<Byte>, y: seq<Byte>)
    requires Utf8(Header(f, "")) + x == Utf8(Header(g, "")) + y
    ensures f.path == g.path && |f.content| == |g.content| && f.executable == g.executable && x == y
  {
    var h, j := Header(f, ""), Header(g, "");
    Utf8Prefix(h, j, x, y);
    if h <= j {
      HeaderAppends(f, j[|h|..]);
      assert j == h + j[|h|..];
      HeaderFree(f, g, j[|h|..], "");
    } else {
      HeaderAppends(g, h[|j|..]);
      assert h == j + h[|j|..];
      HeaderFree(f, g, "", h[|j|..]);
    }
    assert h == j;
    assert (Utf8(h) + x)[|Utf8(h)|..] == x && (Utf8(j) + y)[|Utf8(j)|..] == y;
  }

  /** The stream is uniquely decodable: equal streams come from equal file lists. */
  lemma {:induction false} StreamInjective(a: seq<File>, b: seq<File>)
    requires Stream(a) == Stream(b)
    ensures a == b
  {
    if a != [] {
      assert b != [];
      var x, y := a[0].content + Stream(a[1..]), b[0].content + Stream(b[1..]);
      HeaderBytesFree(a[0], b[0], x, y);
      assert x[..|a[0].content|] == a[0].content && y[..|b[0].content|] == b[0].content;
      assert x[|a[0].content|..] == Stream(a[1..]) && y[|b[0].content|..] == Stream(b[1..]);
      StreamInjective(a[1..], b[1..]);
      assert a == [a[0]] + a[1..] && b == [b[0]] + b[1..];
    }
  }
}
