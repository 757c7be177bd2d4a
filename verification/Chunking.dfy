/** transfer-engine/src/chunking.ts: how a file is cut into chunks. */
module Chunking {
  import opened Basics

  const DEFAULT_CHUNK_SIZE: nat := 128 * 1024

  /** The part of FileMeta the protocol computes with. */
  datatype Meta = Meta(size: nat, chunkSize: nat, totalChunks: nat)

  /** Math.ceil(size / chunkSize), with the empty file having no chunk at all. */
  function TotalChunksFor(size: nat, chunkSize: nat): (n: nat)
    requires chunkSize > 0
    ensures size <= n * chunkSize
    ensures n > 0 ==> (n - 1) * chunkSize < size
  {
    if size == 0 then 0 else
      var n := (size + chunkSize - 1) / chunkSize;
      CeilBounds(size, chunkSize, n);
      n
  }

  lemma CeilBounds(size: nat, chunkSize: nat, n: int)
    requires size > 0 && chunkSize > 0 && n == (size + chunkSize - 1) / chunkSize
    ensures n > 0 && size <= n * chunkSize && (n - 1) * chunkSize < size
  {
    var x := size + chunkSize - 1;
    assert x == n * chunkSize + x % chunkSize;
    assert (n - 1) * chunkSize == n * chunkSize - chunkSize;
    if n <= 0 {
      MulMonotone(n, 0, chunkSize);
      assert false;
    }
  }

  lemma MulMonotone(a: int, b: int, c: nat)
    requires a <= b
    ensures a * c <= b * c
  {
    assert b * c - a * c == (b - a) * c;
  }

  lemma MulStep(a: int, b: int, c: nat)
    requires a < b
    ensures a * c + c <= b * c
  {
    MulMonotone(a + 1, b, c);
    assert (a + 1) * c == a * c + c;
  }

  /** The chunk count is the least number of chunks that holds the file. */
  lemma TotalChunksLeast(size: nat, chunkSize: nat, k: nat)
    requires chunkSize > 0
    ensures size <= k * chunkSize <==> TotalChunksFor(size, chunkSize) <= k
  {
    var n := TotalChunksFor(size, chunkSize);
    if n <= k {
      MulMonotone(n, k, chunkSize);
    } else {
      MulMonotone(k, n - 1, chunkSize);
    }
  }

  function BuildMeta(size: nat, chunkSize: nat): Meta
    requires chunkSize > 0
  {
    Meta(size, chunkSize, TotalChunksFor(size, chunkSize))
  }

  predicate WellFormed(m: Meta) {
    m.chunkSize > 0 && m.totalChunks == TotalChunksFor(m.size, m.chunkSize)
  }

  function ChunkStart(index: nat, m: Meta): nat {
    index * m.chunkSize
  }

  function ChunkEnd(index: nat, m: Meta): nat {
    Min(index * m.chunkSize + m.chunkSize, m.size)
  }

  /** The bytes below chunk k: what k chunks in order amount to. */
  function BytesIn(k: nat, m: Meta): nat {
    Min(k * m.chunkSize, m.size)
  }

  /** Consecutive chunks meet, the first starts at 0 and the last ends at size. */
  lemma BoundsChain(index: nat, m: Meta)
    requires WellFormed(m) && index < m.totalChunks
    ensures ChunkStart(index, m) < ChunkEnd(index, m) <= m.size
    ensures ChunkStart(index, m) == BytesIn(index, m)
    ensures ChunkEnd(index, m) == BytesIn(index + 1, m)
    ensures index + 1 < m.totalChunks ==> ChunkEnd(index, m) == ChunkStart(index + 1, m)
    ensures index + 1 == m.totalChunks ==> ChunkEnd(index, m) == m.size
  {
    TotalChunksLeast(m.size, m.chunkSize, index);
    TotalChunksLeast(m.size, m.chunkSize, index + 1);
    assert (index + 1) * m.chunkSize == index * m.chunkSize + m.chunkSize;
  }

  /** The byte counters reach size exactly when every chunk is in. */
  lemma BytesInIsSizeIffAllIn(k: nat, m: Meta)
    requires WellFormed(m)
    ensures BytesIn(k, m) == m.size <==> k >= m.totalChunks
  {
    TotalChunksLeast(m.size, m.chunkSize, k);
  }

  lemma BytesInMonotone(j: nat, k: nat, m: Meta)
    requires j <= k
    ensures BytesIn(j, m) <= BytesIn(k, m)
  {
    MulMonotone(j, k, m.chunkSize);
  }

  /** Quotients of the chunk grid are determined by the grid cell. */
  lemma QuotientUnique(p: nat, q: int, chunkSize: nat)
    requires chunkSize > 0 && q * chunkSize <= p < q * chunkSize + chunkSize
    ensures q == p / chunkSize && q >= 0
  {
    var r := p / chunkSize;
    assert p == r * chunkSize + p % chunkSize;
    if q < r {
      MulStep(q, r, chunkSize);
    } else if q > r {
      MulStep(r, q, chunkSize);
    }
    if q < 0 {
      MulStep(q, 0, chunkSize);
    }
  }

  /** The chunks partition [0, size): position p lies in chunk p / chunkSize and in no other. */
  lemma ChunksPartition(p: nat, index: nat, m: Meta)
    requires WellFormed(m) && p < m.size
    ensures 0 <= p / m.chunkSize < m.totalChunks
    ensures (index < m.totalChunks && ChunkStart(index, m) <= p < ChunkEnd(index, m)) <==> index == p / m.chunkSize
  {
    var q := p / m.chunkSize;
    assert p == q * m.chunkSize + p % m.chunkSize;
    QuotientUnique(p, q, m.chunkSize);
    TotalChunksLeast(m.size, m.chunkSize, q);
    if index * m.chunkSize <= p < index * m.chunkSize + m.chunkSize {
      QuotientUnique(p, index, m.chunkSize);
    }
  }

  function ReadChunk(source: Bytes, index: nat, m: Meta): (data: Bytes)
    requires WellFormed(m) && |source| == m.size && index < m.totalChunks
    ensures |data| == BytesIn(index + 1, m) - BytesIn(index, m)
  {
    BoundsChain(index, m);
    source[ChunkStart(index, m)..ChunkEnd(index, m)]
  }

  function Chunks(source: Bytes, m: Meta): (parts: seq<Bytes>)
    requires WellFormed(m) && |source| == m.size
    ensures |parts| == m.totalChunks
  {
    seq(m.totalChunks, i requires 0 <= i < m.totalChunks => ReadChunk(source, i, m))
  }

  /** Reading chunks in order reads the file in order. */
  lemma {:induction false} ChunksConcatPrefix(source: Bytes, m: Meta, k: nat)
    requires WellFormed(m) && |source| == m.size && k <= m.totalChunks
    ensures Concat(Chunks(source, m)[..k]) == source[..BytesIn(k, m)]
  {
    if k > 0 {
      ChunksConcatPrefix(source, m, k - 1);
      BoundsChain(k - 1, m);
      var parts := Chunks(source, m);
      assert parts[..k][..k - 1] == parts[..k - 1];
      assert parts[k - 1] == source[BytesIn(k - 1, m)..BytesIn(k, m)];
    }
  }

  /** Cutting a file into chunks and gluing them together is the identity. */
  lemma ChunksConcat(source: Bytes, m: Meta)
    requires WellFormed(m) && |source| == m.size
    ensures Concat(Chunks(source, m)) == source
  {
    ChunksConcatPrefix(source, m, m.totalChunks);
    BytesInIsSizeIffAllIn(m.totalChunks, m);
    assert Chunks(source, m)[..m.totalChunks] == Chunks(source, m);
    assert source[..m.size] == source;
  }
}
