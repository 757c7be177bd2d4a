/**
 * transfer-engine/src/diskWriters: reassembling a file from chunk writes, by
 * position (tauriFsWriter.ts) and by key (memoryWriter.ts).
 */
module DiskWriters {
  import opened Basics
  import opened Chunking
  import opened ChunkFrame

  function Zeros(n: nat): Bytes {
    seq(n, _ => 0)
  }

  /** A positional write: bytes between the old end and the position read as zero. */
  function WriteAt(file: Bytes, position: nat, data: Bytes): (r: Bytes)
    ensures |r| == if data == [] then |file| else Max(|file|, position + |data|)
    ensures forall p :: position <= p < position + |data| ==> r[p] == data[p - position]
    ensures forall p :: 0 <= p < |file| && !(position <= p < position + |data|) ==> r[p] == file[p]
  {
    if data == [] then file
    else if |file| <= position then file + Zeros(position - |file|) + data
    else if |file| <= position + |data| then file[..position] + data
    else file[..position] + data + file[position + |data|..]
  }

  /** The file after a list of writeChunk calls. */
  function WriteAll(file: Bytes, writes: seq<Frame>, chunkSize: nat): Bytes {
    if |writes| == 0 then file
    else
      var last := writes[|writes| - 1];
      WriteAt(WriteAll(file, writes[..|writes| - 1], chunkSize), last.index * chunkSize, last.data)
  }

  /** Every write to a chunk of the file carries that chunk; writes beyond the last chunk are unconstrained. */
  predicate Faithful(writes: seq<Frame>, source: Bytes, m: Meta)
    requires WellFormed(m) && |source| == m.size
  {
    forall j {:trigger writes[j]} :: 0 <= j < |writes| && writes[j].index < m.totalChunks ==>
      writes[j].data == ReadChunk(source, writes[j].index, m)
  }

  predicate Writes(writes: seq<Frame>, index: nat) {
    exists j :: 0 <= j < |writes| && writes[j].index == index
  }

  /** No write beyond the last chunk carries a byte. */
  predicate WithinFile(writes: seq<Frame>, m: Meta) {
    forall j {:trigger writes[j]} :: 0 <= j < |writes| && writes[j].index >= m.totalChunks ==> writes[j].data == []
  }

  /** A faithful write leaves every position of the file either as it was or equal to the source. */
  lemma WriteChunkEffect(file: Bytes, w: Frame, source: Bytes, m: Meta, p: nat)
    requires WellFormed(m) && |source| == m.size && p < m.size
    requires w.index < m.totalChunks ==> w.data == ReadChunk(source, w.index, m)
    ensures var r := WriteAt(file, w.index * m.chunkSize, w.data);
            if w.index == p / m.chunkSize then p < |r| && r[p] == source[p]
            else p < |file| ==> p < |r| && r[p] == file[p]
  {
    ChunksPartition(p, w.index, m);
    var start := w.index * m.chunkSize;
    if w.index < m.totalChunks {
      BoundsChain(w.index, m);
    } else {
      MulMonotone(m.totalChunks, w.index, m.chunkSize);
    }
  }

  lemma {:induction false} WriteAllAt(file: Bytes, writes: seq<Frame>, source: Bytes, m: Meta, p: nat)
    requires WellFormed(m) && |source| == m.size && p < m.size
    requires Faithful(writes, source, m) && Writes(writes, p / m.chunkSize)
    ensures var r := WriteAll(file, writes, m.chunkSize); p < |r| && r[p] == source[p]
  {
    var init, last := writes[..|writes| - 1], writes[|writes| - 1];
    WriteChunkEffect(WriteAll(file, init, m.chunkSize), last, source, m, p);
    if last.index != p / m.chunkSize {
      assert Writes(init, p / m.chunkSize) by {
        var j :| 0 <= j < |writes| && writes[j].index == p / m.chunkSize;
        assert init[j].index == p / m.chunkSize;
      }
      assert Faithful(init, source, m) by {
        forall j | 0 <= j < |init| && init[j].index < m.totalChunks
          ensures init[j].data == ReadChunk(source, init[j].index, m)
        {
          assert init[j] == writes[j];
        }
      }
      WriteAllAt(file, init, source, m, p);
    }
  }

  lemma {:induction false} WriteAllLength(file: Bytes, writes: seq<Frame>, source: Bytes, m: Meta)
    requires WellFormed(m) && |source| == m.size && Faithful(writes, source, m)
    ensures |WriteAll(file, writes, m.chunkSize)| <= m.size <==> |file| <= m.size && WithinFile(writes, m)
  {
    if |writes| > 0 {
      var init, last := writes[..|writes| - 1], writes[|writes| - 1];
      assert forall j :: 0 <= j < |init| ==> init[j] == writes[j];
      WriteAllLength(file, init, source, m);
      assert WithinFile(writes, m) <==> WithinFile(init, m) && (last.index >= m.totalChunks ==> last.data == []);
      if last.index < m.totalChunks {
        BoundsChain(last.index, m);
      } else {
        MulMonotone(m.totalChunks, last.index, m.chunkSize);
      }
    }
  }

  predicate CoversAll(writes: seq<Frame>, n: nat) {
    forall i: nat :: i < n ==> Writes(writes, i)
  }

  lemma CoveredAt(file: Bytes, writes: seq<Frame>, source: Bytes, m: Meta, p: nat)
    requires WellFormed(m) && |source| == m.size && p < m.size
    requires Faithful(writes, source, m) && CoversAll(writes, m.totalChunks)
    ensures var r := WriteAll(file, writes, m.chunkSize); p < |r| && r[p] == source[p]
  {
    ChunksPartition(p, 0, m);
    assert Writes(writes, p / m.chunkSize);
    WriteAllAt(file, writes, source, m, p);
  }

  lemma PositionalPrefix(file: Bytes, writes: seq<Frame>, source: Bytes, m: Meta)
    requires WellFormed(m) && |source| == m.size
    requires Faithful(writes, source, m) && CoversAll(writes, m.totalChunks)
    ensures source <= WriteAll(file, writes, m.chunkSize)
  {
    var r := WriteAll(file, writes, m.chunkSize);
    if m.size > 0 {
      CoveredAt(file, writes, source, m, m.size - 1);
    }
    forall p: nat | p < m.size ensures p < |r| && r[p] == source[p] {
      CoveredAt(file, writes, source, m, p);
    }
  }

  /**
   * Positional reassembly: whatever the order and the repetitions, once every
   * chunk has been written the first `size` bytes are the source; and the file
   * is the source and nothing more iff it was not longer to begin with and no
   * byte was written beyond the last chunk.
   */
  lemma PositionalReassembly(file: Bytes, writes: seq<Frame>, source: Bytes, m: Meta)
    requires WellFormed(m) && |source| == m.size && Faithful(writes, source, m)
    requires CoversAll(writes, m.totalChunks)
    ensures source <= WriteAll(file, writes, m.chunkSize)
    ensures WriteAll(file, writes, m.chunkSize) == source <==> |file| <= m.size && WithinFile(writes, m)
  {
    PositionalPrefix(file, writes, source, m);
    WriteAllLength(file, writes, source, m);
    PrefixEquality(WriteAll(file, writes, m.chunkSize), source);
  }

  /** Chunk i of the file, once the file reaches that far. */
  predicate SlotHolds(file: Bytes, i: nat, data: Bytes, m: Meta)
    requires WellFormed(m)
  {
    && BytesIn(i, m) <= BytesIn(i + 1, m) <= |file|
    && file[BytesIn(i, m)..BytesIn(i + 1, m)] == data
  }

  /** The file has, at the place of each chunk on record, that chunk. */
  predicate FileHolds(file: Bytes, disk: map<nat, Bytes>, m: Meta)
    requires WellFormed(m)
  {
    forall i {:trigger SlotHolds(file, i, disk[i], m)} ::
      i in disk && i < m.totalChunks ==> SlotHolds(file, i, disk[i], m)
  }

  lemma SlotAfterWrite(file: Bytes, i: nat, data: Bytes, m: Meta, j: nat, other: Bytes)
    requires WellFormed(m) && i < m.totalChunks && j < m.totalChunks
    requires |data| == BytesIn(i + 1, m) - BytesIn(i, m)
    requires i != j ==> SlotHolds(file, j, other, m)
    ensures SlotHolds(WriteAt(file, i * m.chunkSize, data), j, if i == j then data else other, m)
  {
    BoundsChain(i, m);
    BoundsChain(j, m);
    if i < j {
      MulMonotone(i + 1, j, m.chunkSize);
    } else if j < i {
      MulMonotone(j + 1, i, m.chunkSize);
    }
  }

  /** A chunk-sized positional write changes its own chunk of the file and no other. */
  lemma ChunkWriteIsKeyed(file: Bytes, disk: map<nat, Bytes>, i: nat, data: Bytes, m: Meta)
    requires WellFormed(m) && i < m.totalChunks && FileHolds(file, disk, m)
    requires |data| == BytesIn(i + 1, m) - BytesIn(i, m)
    ensures FileHolds(WriteAt(file, i * m.chunkSize, data), disk[i := data], m)
  {
    var after := disk[i := data];
    forall j | j in after && j < m.totalChunks ensures SlotHolds(WriteAt(file, i * m.chunkSize, data), j, after[j], m) {
      SlotAfterWrite(file, i, data, m, j, after[j]);
    }
  }

  /** A write that fails half-way spoils its own chunk only: the file still holds every other chunk on record. */
  lemma FailedWriteIsKeyed(file: Bytes, after: Bytes, disk: map<nat, Bytes>, i: nat, m: Meta)
    requires WellFormed(m) && i < m.totalChunks && FileHolds(file, disk, m)
    requires |file| <= |after|
    requires forall p :: 0 <= p < |file| && !(BytesIn(i, m) <= p < BytesIn(i + 1, m)) ==> after[p] == file[p]
    ensures FileHolds(after, disk - {i}, m)
  {
    var rest := disk - {i};
    forall j | j in rest && j < m.totalChunks ensures SlotHolds(after, j, rest[j], m) {
      assert SlotHolds(file, j, disk[j], m);
      BytesInMonotone(if i < j then i + 1 else j + 1, if i < j then j else i, m);
    }
  }

  lemma HeldByteIsTheSource(file: Bytes, disk: map<nat, Bytes>, source: Bytes, m: Meta, p: nat)
    requires WellFormed(m) && |source| == m.size && FileHolds(file, disk, m) && p < m.size
    requires Covers(disk, m.totalChunks) && InOrder(disk, m.totalChunks) == Chunks(source, m)
    ensures p < |file| && file[p] == source[p]
  {
    var i := p / m.chunkSize;
    ChunksPartition(p, i, m);
    BoundsChain(i, m);
    assert SlotHolds(file, i, disk[i], m) && disk[i] == Chunks(source, m)[i];
    assert file[BytesIn(i, m)..BytesIn(i + 1, m)][p - BytesIn(i, m)] == file[p];
  }

  /** A file that holds every chunk of the source begins with the source. */
  lemma HeldChunksAreTheSource(file: Bytes, disk: map<nat, Bytes>, source: Bytes, m: Meta)
    requires WellFormed(m) && |source| == m.size && FileHolds(file, disk, m)
    requires Covers(disk, m.totalChunks) && InOrder(disk, m.totalChunks) == Chunks(source, m)
    ensures source <= file
  {
    if m.size > 0 {
      HeldByteIsTheSource(file, disk, source, m, m.size - 1);
    }
    forall p: nat | p < m.size ensures p < |file| && file[p] == source[p] {
      HeldByteIsTheSource(file, disk, source, m, p);
    }
  }

  lemma PrefixEquality(r: Bytes, source: Bytes)
    requires source <= r
    ensures r == source <==> |r| <= |source|
  {
  }

  /** TauriFsWriter over the bytes of one file of the operating system. */
  class TauriFsWriter {
    var isOpen: bool
    var meta: Option<Meta>
    var file: Bytes

    constructor (file: Bytes)
      ensures !isOpen && meta == None && this.file == file
    {
      isOpen, meta, this.file := false, None, file;
    }

    /** Opening creates the file but does not truncate it. */
    method Open(m: Meta)
      modifies this
      ensures isOpen && meta == Some(m) && file == old(file)
    {
      meta := Some(m);
      isOpen := true;
    }

    /**
     * handle.write puts the first `written` bytes of the chunk in the file and
     * then rejects, or resolves with their number, which nobody looks at.
     */
    method WriteChunk(index: nat, data: Bytes, written: nat, rejects: bool) returns (r: Result<()>)
      modifies this`file
      ensures r.Ok? <==> isOpen && meta.Some? && !rejects
      ensures r.Ok? && written >= |data| ==> forall before: Bytes, writes: seq<Frame> ::
                old(file) == WriteAll(before, writes, meta.value.chunkSize) ==>
                file == WriteAll(before, writes + [Frame(index, data)], meta.value.chunkSize)
      ensures isOpen && meta.Some? ==>
                file == WriteAt(old(file), index * meta.value.chunkSize, data[..Min(written, |data|)])
      ensures !isOpen || meta.None? ==> file == old(file)
    {
      if !isOpen || meta.None? {
        return Err;
      }
      ghost var cs := meta.value.chunkSize;
      var position := index * meta.value.chunkSize;
      file := WriteAt(file, position, data[..Min(written, |data|)]);
      if rejects {
        return Err;
      }
      if written >= |data| {
        assert data[..|data|] == data;
        forall before: Bytes, writes: seq<Frame> | old(file) == WriteAll(before, writes, cs)
          ensures file == WriteAll(before, writes + [Frame(index, data)], cs)
        {
          assert (writes + [Frame(index, data)])[..|writes|] == writes;
        }
      }
      return Ok(());
    }

    method Finalize()
      modifies this`isOpen
      ensures !isOpen
    {
      isOpen := false;
    }

    /** Abort closes the handle and keeps every byte. */
    method Abort()
      modifies this`isOpen
      ensures !isOpen
    {
      isOpen := false;
    }
  }

  /** The chunks of a keyed store after a list of writes: the last one wins. */
  function Keyed(writes: seq<Frame>): map<nat, Bytes> {
    if |writes| == 0 then map[]
    else Keyed(writes[..|writes| - 1])[writes[|writes| - 1].index := writes[|writes| - 1].data]
  }

  predicate Covers(chunks: map<nat, Bytes>, n: nat) {
    forall i: nat :: i < n ==> i in chunks
  }

  function InOrder(chunks: map<nat, Bytes>, n: nat): (parts: seq<Bytes>)
    requires Covers(chunks, n)
    ensures |parts| == n
  {
    seq(n, i requires 0 <= i < n => chunks[i])
  }

  lemma {:induction false} KeyedAt(writes: seq<Frame>, source: Bytes, m: Meta, i: nat)
    requires WellFormed(m) && |source| == m.size && Faithful(writes, source, m)
    requires i < m.totalChunks && Writes(writes, i)
    ensures i in Keyed(writes) && Keyed(writes)[i] == ReadChunk(source, i, m)
  {
    var init, last := writes[..|writes| - 1], writes[|writes| - 1];
    if last.index != i {
      assert forall j :: 0 <= j < |init| ==> init[j] == writes[j];
      assert Writes(init, i) by {
        var j :| 0 <= j < |writes| && writes[j].index == i;
        assert init[j].index == i;
      }
      KeyedAt(init, source, m, i);
    }
  }

  /** Keyed reassembly: the same writes assemble, in index order, to the source. */
  lemma KeyedReassembly(writes: seq<Frame>, source: Bytes, m: Meta)
    requires WellFormed(m) && |source| == m.size && Faithful(writes, source, m)
    requires CoversAll(writes, m.totalChunks)
    ensures Covers(Keyed(writes), m.totalChunks)
    ensures Concat(InOrder(Keyed(writes), m.totalChunks)) == source
  {
    forall i: nat | i < m.totalChunks ensures i in Keyed(writes) && Keyed(writes)[i] == ReadChunk(source, i, m) {
      KeyedAt(writes, source, m, i);
    }
    assert InOrder(Keyed(writes), m.totalChunks) == Chunks(source, m);
    ChunksConcat(source, m);
  }

  lemma ConcatStep(parts: seq<Bytes>, k: nat)
    requires k < |parts|
    ensures Concat(parts[..k + 1]) == Concat(parts[..k]) + parts[k]
  {
    assert parts[..k + 1][..k] == parts[..k];
  }

  lemma {:induction false} ConcatMonotone(parts: seq<Bytes>, k: nat)
    requires k <= |parts|
    ensures |Concat(parts[..k])| <= |Concat(parts)|
    decreases |parts| - k
  {
    if k == |parts| {
      assert parts[..k] == parts;
    } else {
      ConcatStep(parts, k);
      ConcatMonotone(parts, k + 1);
    }
  }

  /** MemoryDiskWriter. */
  class MemoryDiskWriter {
    var chunks: map<nat, Bytes>
    var meta: Option<Meta>
    var aborted: bool
    var finalized: bool

    constructor ()
      ensures chunks == map[] && meta == None && !aborted && !finalized
    {
      chunks, meta, aborted, finalized := map[], None, false, false;
    }

    method Open(m: Meta)
      modifies this`meta
      ensures meta == Some(m)
    {
      meta := Some(m);
    }

    method WriteChunk(index: nat, data: Bytes)
      modifies this`chunks
      ensures chunks == old(chunks)[index := data]
    {
      chunks := chunks[index := data];
    }

    method Finalize()
      modifies this`finalized
      ensures finalized
    {
      finalized := true;
    }

    method Abort()
      modifies this`aborted
      ensures aborted
    {
      aborted := true;
    }

    /** assemble: copies each chunk behind the previous one; a missing or overflowing chunk throws. */
    method Assemble() returns (r: Result<array<Byte>>)
      ensures r.Ok? <==> meta.Some? && Covers(chunks, meta.value.totalChunks)
                         && |Concat(InOrder(chunks, meta.value.totalChunks))| <= meta.value.size
      ensures r.Ok? ==> fresh(r.value)
                        && var glued := Concat(InOrder(chunks, meta.value.totalChunks));
                           r.value[..] == glued + Zeros(meta.value.size - |glued|)
    {
      if meta.None? {
        return Err;
      }
      var m := meta.value;
      var out := new Byte[m.size](_ => 0);
      var offset := 0;
      for i := 0 to m.totalChunks
        invariant forall k: nat :: k < i ==> k in chunks
        invariant offset == |Concat(InOrder(chunks, i))| <= m.size == out.Length
        invariant out[..offset] == Concat(InOrder(chunks, i))
        invariant forall p :: offset <= p < m.size ==> out[p] == 0
      {
        if i !in chunks {
          return Err;
        }
        var chunk := chunks[i];
        assert InOrder(chunks, i + 1)[..i] == InOrder(chunks, i);
        ConcatStep(InOrder(chunks, i + 1), i);
        assert InOrder(chunks, i + 1)[..i + 1] == InOrder(chunks, i + 1);
        if offset + |chunk| > m.size {
          Overflow(chunks, i + 1, m.totalChunks);
          return Err;
        }
        CopyInto(out, chunk, offset);
        offset := offset + |chunk|;
      }
      assert out[..] == out[..offset] + out[offset..];
      assert out[offset..] == Zeros(m.size - offset);
      return Ok(out);
    }
  }

  /** If the first k chunks overflow, all n of them do. */
  lemma Overflow(chunks: map<nat, Bytes>, k: nat, n: nat)
    requires k <= n && Covers(chunks, k)
    ensures Covers(chunks, n) ==> |Concat(InOrder(chunks, k))| <= |Concat(InOrder(chunks, n))|
  {
    if Covers(chunks, n) {
      assert InOrder(chunks, n)[..k] == InOrder(chunks, k);
      ConcatMonotone(InOrder(chunks, n), k);
    }
  }

  /** out.set(chunk, offset). */
  method CopyInto(out: array<Byte>, data: Bytes, offset: nat)
    requires offset + |data| <= out.Length
    modifies out
    ensures out[..offset + |data|] == old(out[..offset]) + data
    ensures forall p :: offset + |data| <= p < out.Length ==> out[p] == old(out[p])
  {
    for i := 0 to |data|
      invariant out[..offset] == old(out[..offset])
      invariant forall k :: 0 <= k < i ==> out[offset + k] == data[k]
      invariant forall p :: offset + i <= p < out.Length ==> out[p] == old(out[p])
    {
      out[offset + i] := data[i];
    }
    assert out[..offset + |data|] == out[..offset] + out[offset..offset + |data|];
  }
}
