/** Snapshots as they are stored, with base64 contents (src/benchmark/types.ts, src/benchmark/workspace.ts). */
module StoredSnapshot {
  import opened BenchTypes
  import opened Paths
  import opened SnapshotStream
  import opened Workspace

  // ---------------------------------------------------------------- base64

  type Sextet = n: int | 0 <= n < 64

  function Letter(n: Sextet): char {
    if n < 26 then 'A' + (n as char)
    else if n < 52 then 'a' + ((n - 26) as char)
    else if n < 62 then '0' + ((n - 52) as char)
    else if n == 62 then '+' else '/'
  }

  /** The value of a letter; anything else counts as zero. */
  function LetterValue(c: char): Sextet {
    if 'A' <= c <= 'Z' then c as int - 'A' as int
    else if 'a' <= c <= 'z' then c as int - 'a' as int + 26
    else if '0' <= c <= '9' then c as int - '0' as int + 52
    else if c == '+' then 62 else if c == '/' then 63 else 0
  }

  lemma LetterReads(n: Sextet)
    ensures LetterValue(Letter(n)) == n && Letter(n) != '='
  {}

  /** `bytes.toString("base64")`. */
  function Encode(b: seq<Byte>): (s: string)
    ensures |s| == 4 * ((|b| + 2) / 3)
  {
    if b == [] then []
    else if |b| == 1 then [Letter(b[0] / 4), Letter(b[0] % 4 * 16), '=', '=']
    else if |b| == 2 then [Letter(b[0] / 4), Letter(b[0] % 4 * 16 + b[1] / 16), Letter(b[1] % 16 * 4), '=']
    else [Letter(b[0] / 4), Letter(b[0] % 4 * 16 + b[1] / 16), Letter(b[1] % 16 * 4 + b[2] / 64), Letter(b[2] % 64)] + Encode(b[3..])
  }

  /** A decoder for what `Encode` writes; any other decoder that inverts it accepts the same texts. */
  function Decode(s: string): seq<Byte> {
    if |s| < 4 then []
    else
      var v, w, x, y := LetterValue(s[0]), LetterValue(s[1]), LetterValue(s[2]), LetterValue(s[3]);
      if s[2] == '=' then [v * 4 + w / 16]
      else if s[3] == '=' then [v * 4 + w / 16, w % 16 * 16 + x / 4]
      else [v * 4 + w / 16, w % 16 * 16 + x / 4, x % 4 * 64 + y] + Decode(s[4..])
  }

  /** Splitting bytes into sextets loses nothing. */
  lemma Regrouped(a: Byte, b: Byte, c: Byte)
    ensures a / 4 * 4 + (a % 4 * 16 + b / 16) / 16 == a
    ensures (a % 4 * 16 + b / 16) % 16 * 16 + (b % 16 * 4 + c / 64) / 4 == b
    ensures (b % 16 * 4 + c / 64) % 4 * 64 + c % 64 == c
  {}

  /** Four letters read as one number in base 64. */
  function Number(s: string): int
    requires |s| >= 4
  {
    LetterValue(s[0]) as int * 262144 + LetterValue(s[1]) as int * 4096 + LetterValue(s[2]) as int * 64 + LetterValue(s[3]) as int
  }

  lemma SextetsAreBits(a: int, b: int, c: int)
    requires 0 <= a < 256 && 0 <= b < 256 && 0 <= c < 256
    ensures a / 4 * 262144 + (a % 4 * 16 + b / 16) * 4096 + (b % 16 * 4 + c / 64) * 64 + c % 64 == a * 65536 + b * 256 + c
  {}

  /** Each group writes its bytes, most significant first, as one number in base 64; missing bytes count as zero. */
  lemma GroupIsNumber(a: Byte, b: Byte, c: Byte, rest: seq<Byte>)
    ensures Number(Encode([a, b, c] + rest)) == a as int * 65536 + b as int * 256 + c as int
    ensures Number(Encode([a, b])) == a as int * 65536 + b as int * 256
    ensures Number(Encode([a])) == a as int * 65536
  {
    FullGroup(a, b, c, rest);
    SextetsAreBits(a, b, 0);
    SextetsAreBits(a, 0, 0);
    LetterReads(a / 4);
    LetterReads(a % 4 * 16);
    LetterReads(a % 4 * 16 + b / 16);
    LetterReads(b % 16 * 4);
  }

  lemma FullGroup(a: Byte, b: Byte, c: Byte, rest: seq<Byte>)
    ensures Number(Encode([a, b, c] + rest)) == a as int * 65536 + b as int * 256 + c as int
  {
    SextetsAreBits(a, b, c);
    LetterReads(a / 4);
    LetterReads(a % 4 * 16 + b / 16);
    LetterReads(b % 16 * 4 + c / 64);
    LetterReads(c % 64);
    assert Encode([a, b, c] + rest)[..4] == [Letter(a / 4), Letter(a % 4 * 16 + b / 16), Letter(b % 16 * 4 + c / 64), Letter(c % 64)];
  }

  /** Four letters of a full group read back as its three bytes. */
  lemma GroupReads(a: Byte, b: Byte, c: Byte, rest: string)
    ensures var letters := [Letter(a / 4), Letter(a % 4 * 16 + b / 16), Letter(b % 16 * 4 + c / 64), Letter(c % 64)];
      Decode(letters + rest) == [a, b, c] + Decode(rest)
  {
    Regrouped(a, b, c);
    LetterReads(a / 4);
    LetterReads(a % 4 * 16 + b / 16);
    LetterReads(b % 16 * 4 + c / 64);
    LetterReads(c % 64);
    var letters := [Letter(a / 4), Letter(a % 4 * 16 + b / 16), Letter(b % 16 * 4 + c / 64), Letter(c % 64)];
    assert (letters + rest)[4..] == rest;
  }

  lemma OneByteReads(a: Byte)
    ensures Decode([Letter(a / 4), Letter(a % 4 * 16), '=', '=']) == [a]
  {
    LetterReads(a / 4);
    LetterReads(a % 4 * 16);
  }

  lemma TwoBytesRead(a: Byte, b: Byte)
    ensures Decode([Letter(a / 4), Letter(a % 4 * 16 + b / 16), Letter(b % 16 * 4), '=']) == [a, b]
  {
    Regrouped(a, b, 0);
    LetterReads(a / 4);
    LetterReads(a % 4 * 16 + b / 16);
    LetterReads(b % 16 * 4);
  }

  lemma {:induction false} DecodeEncode(b: seq<Byte>)
    ensures Decode(Encode(b)) == b
  {
    if |b| == 1 {
      OneByteReads(b[0]);
    } else if |b| == 2 {
      TwoBytesRead(b[0], b[1]);
    } else if |b| >= 3 {
      DecodeEncode(b[3..]);
      GroupReads(b[0], b[1], b[2], Encode(b[3..]));
      assert b == [b[0], b[1], b[2]] + b[3..];
    }
  }

  /** `Buffer.from(text, "base64").toString("base64") === text`. */
  predicate Canonical(text: string) { Encode(Decode(text)) == text }

  /** Exactly the encodings of byte strings are canonical, and equal texts then mean equal bytes. */
  lemma CanonicalIff(text: string)
    ensures Canonical(text) <==> exists b :: text == Encode(b)
  {
    if exists b :: text == Encode(b) {
      var b :| text == Encode(b);
      DecodeEncode(b);
    }
  }

  lemma SameTextSameBytes(s: string, t: string)
    requires Canonical(s) && Canonical(t)
    ensures s == t <==> Decode(s) == Decode(t)
  {}

  // ---------------------------------------------------------------- stored snapshots

  datatype StoredFile = StoredFile(path: string, content: string, executable: bool)

  datatype Stored = Stored(digest: string, files: seq<StoredFile>)

  function FileOf(f: StoredFile): File { File(f.path, Decode(f.content), f.executable) }

  function FilesOf(files: seq<StoredFile>): (r: seq<File>)
    ensures |r| == |files| && forall i :: 0 <= i < |r| ==> r[i] == FileOf(files[i])
  {
    seq(|files|, i requires 0 <= i < |files| => FileOf(files[i]))
  }

  predicate ValidStored(s: Stored, hash: Hash) {
    (forall i :: 0 <= i < |s.files| ==> Canonical(s.files[i].content)) && ValidSnapshot(Snapshot(s.digest, FilesOf(s.files)), hash)
  }

  const MAX_CONTENT := (MAX_FILE_BYTES + 2) / 3 * 4

  /** Canonical text over the text limit stands for more bytes than a file may have. */
  lemma TextLimit(text: string)
    requires Canonical(text) && |text| > MAX_CONTENT
    ensures |Decode(text)| > MAX_FILE_BYTES
  {
    assert |Encode(Decode(text))| == 4 * ((|Decode(text)| + 2) / 3);
  }

  /** `validateSnapshot` on a stored snapshot: encodings first, then everything about the files they stand for. */
  method ValidateStored(s: Stored, hash: Hash) returns (r: Outcome<seq<File>>)
    ensures r.Returned? <==> ValidStored(s, hash)
    ensures r.Returned? ==> r.value == SortFiles(FilesOf(s.files))
  {
    for n := 0 to |s.files|
      invariant forall i :: 0 <= i < n ==> Canonical(s.files[i].content)
    {
      var content := s.files[n].content;
      if |content| > MAX_CONTENT {
        if Canonical(content) { TooLong(s, n); }
        return Threw;
      }
      if Encode(Decode(content)) != content { return Threw; }
    }
    r := ValidateSnapshot(Snapshot(s.digest, FilesOf(s.files)), hash);
  }

  lemma TooLong(s: Stored, n: nat)
    requires n < |s.files| && Canonical(s.files[n].content) && |s.files[n].content| > MAX_CONTENT
    ensures !FilesOk(FilesOf(s.files))
  {
    TextLimit(s.files[n].content);
    assert !FileOk(FilesOf(s.files)[n]);
  }

  /** `files.push({ content: bytes.toString("base64"), ... })`. */
  function StoredOf(f: File): StoredFile { StoredFile(f.path, Encode(f.content), f.executable) }

  function StoreFiles(files: seq<File>): (r: seq<StoredFile>)
    ensures |r| == |files| && forall i :: 0 <= i < |r| ==> r[i] == StoredOf(files[i])
  {
    seq(|files|, i requires 0 <= i < |files| => StoredOf(files[i]))
  }

  /** A snapshot survives being stored: it is valid as stored exactly when it was, and its files read back. */
  lemma StoringKeeps(s: Snapshot, hash: Hash)
    ensures FilesOf(StoreFiles(s.files)) == s.files
    ensures ValidStored(Stored(s.digest, StoreFiles(s.files)), hash) <==> ValidSnapshot(s, hash)
  {
    var stored := StoreFiles(s.files);
    forall i | 0 <= i < |s.files| ensures FileOf(stored[i]) == s.files[i] && Canonical(stored[i].content) {
      DecodeEncode(s.files[i].content);
    }
    assert FilesOf(stored) == s.files;
  }
}
