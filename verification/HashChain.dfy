/**
 * transfer-engine/src/hash.ts: per-chunk digests, their base64 form (section 4
 * of RFC 4648) and the file hash over the '|'-joined list. SHA-256 is a
 * parameter: any function from byte strings to 32 bytes.
 */
module HashChain {
  import opened Basics

  type Digest32 = s: Bytes | |s| == 32 witness seq(32, _ => 0)
  type Sha = Bytes -> Digest32

  /** The longest array there is in JavaScript (section 10.4.2 of ECMA-262): a longer digest list cannot be made. */
  const MAX_ARRAY_LENGTH: nat := 0xFFFF_FFFF

  // ---- base64 ----

  function SextetChar(v: int): char
    requires 0 <= v < 64
  {
    if v < 26 then ('A' as int + v) as char
    else if v < 52 then ('a' as int + (v - 26)) as char
    else if v < 62 then ('0' as int + (v - 52)) as char
    else if v == 62 then '+'
    else '/'
  }

  function SextetValue(c: char): (v: int)
    ensures 0 <= v < 64
  {
    if 'A' <= c <= 'Z' then c as int - 'A' as int
    else if 'a' <= c <= 'z' then c as int - 'a' as int + 26
    else if '0' <= c <= '9' then c as int - '0' as int + 52
    else if c == '+' then 62
    else 63
  }

  predicate Base64Char(c: char) {
    'A' <= c <= 'Z' || 'a' <= c <= 'z' || '0' <= c <= '9' || c == '+' || c == '/' || c == '='
  }

  /** Three bytes as four characters. */
  function Group(b0: Byte, b1: Byte, b2: Byte): (s: string)
    ensures |s| == 4 && forall i :: 0 <= i < |s| ==> Base64Char(s[i])
  {
    [SextetChar(b0 / 4), SextetChar(b0 % 4 * 16 + b1 / 16), SextetChar(b1 % 16 * 4 + b2 / 64), SextetChar(b2 % 64)]
  }

  function Base64(b: Bytes): (s: string)
    ensures forall i :: 0 <= i < |s| ==> Base64Char(s[i])
    ensures s == "" <==> b == []
  {
    if |b| == 0 then ""
    else if |b| == 1 then Group(b[0], 0, 0)[..2] + "=="
    else if |b| == 2 then Group(b[0], b[1], 0)[..3] + "="
    else Group(b[0], b[1], b[2]) + Base64(b[3..])
  }

  /** Reads base64 text back, four characters at a time. */
  function Unbase64(s: string): Bytes {
    if |s| < 4 then []
    else
      var v0, v1, v2, v3 := SextetValue(s[0]), SextetValue(s[1]), SextetValue(s[2]), SextetValue(s[3]);
      if s[2] == '=' then [v0 * 4 + v1 / 16]
      else if s[3] == '=' then [v0 * 4 + v1 / 16, v1 % 16 * 16 + v2 / 4]
      else [v0 * 4 + v1 / 16, v1 % 16 * 16 + v2 / 4, v2 % 4 * 64 + v3] + Unbase64(s[4..])
  }

  lemma SextetRoundTrip(v: int)
    requires 0 <= v < 64
    ensures SextetValue(SextetChar(v)) == v && SextetChar(v) != '='
  {
  }

  /** Three bytes survive being regrouped as four sextets. */
  lemma SextetsRoundTrip(b0: Byte, b1: Byte, b2: Byte)
    ensures b0 / 4 * 4 + (b0 % 4 * 16 + b1 / 16) / 16 == b0
    ensures (b0 % 4 * 16 + b1 / 16) % 16 * 16 + (b1 % 16 * 4 + b2 / 64) / 4 == b1
    ensures (b1 % 16 * 4 + b2 / 64) % 4 * 64 + b2 % 64 == b2
  {
  }

  lemma GroupRoundTrip(b0: Byte, b1: Byte, b2: Byte, rest: string)
    ensures Unbase64(Group(b0, b1, b2) + rest) == [b0, b1, b2] + Unbase64(rest)
  {
    SextetsRoundTrip(b0, b1, b2);
    SextetRoundTrip(b0 / 4);
    SextetRoundTrip(b0 % 4 * 16 + b1 / 16);
    SextetRoundTrip(b1 % 16 * 4 + b2 / 64);
    SextetRoundTrip(b2 % 64);
    assert (Group(b0, b1, b2) + rest)[4..] == rest;
  }

  lemma PairRoundTrip(b0: Byte, b1: Byte)
    ensures Unbase64(Group(b0, b1, 0)[..3] + "=") == [b0, b1]
  {
    SextetsRoundTrip(b0, b1, 0);
    SextetRoundTrip(b0 / 4);
    SextetRoundTrip(b0 % 4 * 16 + b1 / 16);
    SextetRoundTrip(b1 % 16 * 4);
  }

  lemma ByteRoundTrip(b0: Byte)
    ensures Unbase64(Group(b0, 0, 0)[..2] + "==") == [b0]
  {
    SextetsRoundTrip(b0, 0, 0);
    SextetRoundTrip(b0 / 4);
    SextetRoundTrip(b0 % 4 * 16);
  }

  lemma FullGroupRoundTrip(b: Bytes)
    requires |b| >= 3 && Unbase64(Base64(b[3..])) == b[3..]
    ensures Unbase64(Base64(b)) == b
  {
    GroupRoundTrip(b[0], b[1], b[2], Base64(b[3..]));
    FirstThree(b);
  }

  lemma FirstThree(b: Bytes)
    requires |b| >= 3
    ensures b == [b[0], b[1], b[2]] + b[3..]
  {
  }

  /** base64 loses nothing: decoding an encoding gives the bytes back. */
  lemma {:induction false} Base64RoundTrip(b: Bytes)
    ensures Unbase64(Base64(b)) == b
  {
    if |b| == 0 {
    } else if |b| == 1 {
      ByteRoundTrip(b[0]);
    } else if |b| == 2 {
      PairRoundTrip(b[0], b[1]);
    } else {
      Base64RoundTrip(b[3..]);
      FullGroupRoundTrip(b);
    }
  }

  function CharCodes(s: string): Bytes
    requires forall i :: 0 <= i < |s| ==> s[i] < 256 as char
  {
    seq(|s|, i requires 0 <= i < |s| => s[i] as int)
  }

  /** toBase64: the byte string is rebuilt character by character, then encoded. */
  method ToBase64(bytes: Bytes) returns (r: string)
    ensures r == Base64(bytes)
    ensures Unbase64(r) == bytes
  {
    var binary: string := "";
    for i := 0 to |bytes|
      invariant |binary| == i
      invariant forall j :: 0 <= j < i ==> binary[j] as int == bytes[j]
    {
      binary := binary + [bytes[i] as char];
    }
    assert CharCodes(binary) == bytes;
    r := Base64(CharCodes(binary));
    Base64RoundTrip(bytes);
  }

  // ---- the '|'-joined list ----

  /** A digest in text form: not empty, and free of the separator. */
  predicate HashText(s: string) {
    s != "" && forall i :: 0 <= i < |s| ==> Base64Char(s[i])
  }

  predicate HashList(hs: seq<string>) {
    forall i :: 0 <= i < |hs| ==> HashText(hs[i])
  }

  function Join(hs: seq<string>): string {
    if |hs| == 0 then ""
    else if |hs| == 1 then hs[0]
    else hs[0] + "|" + Join(hs[1..])
  }

  /** The position of the first separator at or after i, or the end of the text. */
  function SeparatorFrom(s: string, i: nat): (p: nat)
    requires i <= |s|
    ensures i <= p <= |s|
    ensures forall j :: i <= j < p ==> s[j] != '|'
    ensures p < |s| ==> s[p] == '|'
    decreases |s| - i
  {
    if i == |s| || s[i] == '|' then i else SeparatorFrom(s, i + 1)
  }

  function Split(s: string): seq<string>
    decreases |s|
  {
    if s == "" then []
    else
      var p := SeparatorFrom(s, 0);
      if p == |s| then [s] else [s[..p]] + Split(s[p + 1..])
  }

  /** The first separator of a joined text stands behind its first digest. */
  lemma FirstSeparator(h: string, rest: string)
    requires HashText(h)
    ensures SeparatorFrom(h, 0) == |h| && SeparatorFrom(h + "|" + rest, 0) == |h|
  {
    var s := h + "|" + rest;
    assert s[|h|] == '|';
    assert forall i :: 0 <= i < |h| ==> s[i] == h[i] && Base64Char(s[i]);
  }

  /** Joining is invertible on lists of digests, whatever their length. */
  lemma {:induction false} JoinRoundTrip(hs: seq<string>)
    requires HashList(hs)
    ensures Split(Join(hs)) == hs
  {
    if |hs| == 1 {
      FirstSeparator(hs[0], "");
    } else if |hs| > 1 {
      var rest := Join(hs[1..]);
      JoinRoundTrip(hs[1..]);
      FirstSeparator(hs[0], rest);
      var s := hs[0] + "|" + rest;
      assert s[..|hs[0]|] == hs[0] && s[|hs[0]| + 1..] == rest;
      assert hs == [hs[0]] + hs[1..];
    }
  }

  lemma {:induction false} JoinAscii(hs: seq<string>)
    requires HashList(hs)
    ensures forall i :: 0 <= i < |Join(hs)| ==> Join(hs)[i] < 128 as char
  {
    if |hs| > 1 {
      JoinAscii(hs[1..]);
    }
  }

  // ---- hashing ----

  function HashChunk(sha: Sha, data: Bytes): (h: string)
    ensures HashText(h)
  {
    Base64(sha(data))
  }

  /** What TextEncoder makes of text in the ASCII range; other characters do not occur. */
  function TextBytes(s: string): Bytes {
    seq(|s|, i requires 0 <= i < |s| => s[i] as int % 256)
  }

  /** The text is hashed character by character: its bytes read back are the text. */
  lemma TextBytesReadBack(s: string)
    requires forall i :: 0 <= i < |s| ==> s[i] < 128 as char
    ensures |TextBytes(s)| == |s| && forall i :: 0 <= i < |s| ==> TextBytes(s)[i] as char == s[i]
  {
  }

  function HashOfHashes(sha: Sha, ordered: seq<string>): string {
    Base64(sha(TextBytes(Join(ordered))))
  }

  function HashAll(sha: Sha, parts: seq<Bytes>): (hs: seq<string>)
    ensures |hs| == |parts| && HashList(hs)
  {
    seq(|parts|, i requires 0 <= i < |parts| => HashChunk(sha, parts[i]))
  }

  /** The digests below n in index order, or nothing when one is missing. */
  predicate AllPresent(hashes: map<nat, string>, n: nat) {
    forall i: nat :: i < n ==> i in hashes && hashes[i] != ""
  }

  /** finalFileHash gets through: nothing is missing, and the list fits in an array. */
  predicate Hashable(hashes: map<nat, string>, n: nat) {
    AllPresent(hashes, n) && n <= MAX_ARRAY_LENGTH
  }

  function Ordered(hashes: map<nat, string>, n: nat): (hs: seq<string>)
    requires AllPresent(hashes, n)
    ensures |hs| == n && forall i :: 0 <= i < n ==> hs[i] == hashes[i]
  {
    seq(n, i requires 0 <= i < n => hashes[i])
  }

  /** finalFileHash: throws on the first missing digest and on a push beyond an array, else hashes the ordered list. */
  method FinalFileHash(sha: Sha, hashes: map<nat, string>, totalChunks: nat) returns (r: Result<string>)
    ensures r.Ok? <==> Hashable(hashes, totalChunks)
    ensures r.Ok? ==> r.value == HashOfHashes(sha, Ordered(hashes, totalChunks))
  {
    var ordered: seq<string> := [];
    for i := 0 to totalChunks
      invariant |ordered| == i <= MAX_ARRAY_LENGTH
      invariant forall j: nat :: j < i ==> j in hashes && hashes[j] != "" && ordered[j] == hashes[j]
    {
      if i !in hashes || hashes[i] == "" || |ordered| == MAX_ARRAY_LENGTH {
        return Err;
      }
      ordered := ordered + [hashes[i]];
    }
    assert ordered == Ordered(hashes, totalChunks);
    r := Ok(HashOfHashes(sha, ordered));
  }

  // ---- what equal file hashes mean ----

  /** The digest tells these two inputs apart. */
  predicate Distinguishes(sha: Sha, x: Bytes, y: Bytes) {
    sha(x) == sha(y) ==> x == y
  }

  lemma Base64Injective(x: Bytes, y: Bytes)
    requires Base64(x) == Base64(y)
    ensures x == y
  {
    Base64RoundTrip(x);
    Base64RoundTrip(y);
  }

  lemma TextBytesInjective(s: string, t: string)
    requires forall i :: 0 <= i < |s| ==> s[i] < 128 as char
    requires forall i :: 0 <= i < |t| ==> t[i] < 128 as char
    requires TextBytes(s) == TextBytes(t)
    ensures s == t
  {
    assert |s| == |TextBytes(s)| == |t|;
    forall i | 0 <= i < |s| ensures s[i] == t[i] {
      assert TextBytes(s)[i] == s[i] as int && TextBytes(t)[i] == t[i] as int;
    }
  }

  /** Equal file hashes over digest lists of any lengths mean equal lists, collisions on the joined text aside. */
  lemma FileHashDeterminesList(sha: Sha, a: seq<string>, b: seq<string>)
    requires HashList(a) && HashList(b)
    requires Distinguishes(sha, TextBytes(Join(a)), TextBytes(Join(b)))
    ensures HashOfHashes(sha, a) == HashOfHashes(sha, b) <==> a == b
  {
    if HashOfHashes(sha, a) == HashOfHashes(sha, b) {
      Base64Injective(sha(TextBytes(Join(a))), sha(TextBytes(Join(b))));
      JoinAscii(a);
      JoinAscii(b);
      TextBytesInjective(Join(a), Join(b));
      JoinRoundTrip(a);
      JoinRoundTrip(b);
    }
  }

  /** A chunk hash is as good as the digest. */
  lemma HashChunkDeterminesData(sha: Sha, x: Bytes, y: Bytes)
    requires Distinguishes(sha, x, y)
    ensures HashChunk(sha, x) == HashChunk(sha, y) <==> x == y
  {
    if HashChunk(sha, x) == HashChunk(sha, y) {
      Base64Injective(sha(x), sha(y));
    }
  }

  /** The digest tells every chunk of a from the chunk of b at the same place, and the two joined lists apart. */
  predicate DistinguishesFiles(sha: Sha, a: seq<Bytes>, b: seq<Bytes>) {
    && Distinguishes(sha, TextBytes(Join(HashAll(sha, a))), TextBytes(Join(HashAll(sha, b))))
    && forall i :: 0 <= i < |a| && i < |b| ==> Distinguishes(sha, a[i], b[i])
  }

  /** Equal file hashes mean equal chunk sequences. */
  lemma FileHashDeterminesChunks(sha: Sha, a: seq<Bytes>, b: seq<Bytes>)
    requires DistinguishesFiles(sha, a, b)
    ensures HashOfHashes(sha, HashAll(sha, a)) == HashOfHashes(sha, HashAll(sha, b)) <==> a == b
  {
    if HashOfHashes(sha, HashAll(sha, a)) == HashOfHashes(sha, HashAll(sha, b)) {
      FileHashDeterminesList(sha, HashAll(sha, a), HashAll(sha, b));
      assert |a| == |HashAll(sha, a)| == |b|;
      forall i | 0 <= i < |a| ensures a[i] == b[i] {
        assert HashAll(sha, a)[i] == HashChunk(sha, a[i]) && HashAll(sha, b)[i] == HashChunk(sha, b[i]);
        HashChunkDeterminesData(sha, a[i], b[i]);
      }
    }
  }
}
