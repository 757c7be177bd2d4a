/**
 * The resume record over one positional file and frames of any length: what a
 * write spares, and what the file keeps of the record.
 */
module PositionalRecord {
  import opened Basics
  import opened Chunking
  import opened HashChain
  import opened ChunkFrame
  import opened Resume
  import opened Protocol
  import opened DiskWriters
  import opened Receiver
  import opened ReceiverSafety

  /** The file has `data` at the position of chunk i; no bytes are anywhere. */
  predicate RegionHolds(file: Bytes, i: nat, data: Bytes, chunkSize: nat) {
    data != [] ==>
      i * chunkSize + |data| <= |file| && file[i * chunkSize..i * chunkSize + |data|] == data
  }

  /** Writing `data` at chunk i leaves alone, in every file, whatever chunk-sized region below chunk n is on record. */
  ghost predicate SparesBelow(i: nat, data: Bytes, chunkSize: nat, n: nat) {
    forall file: Bytes, j: nat, other: Bytes {:trigger RegionHolds(file, j, other, chunkSize)} ::
      j < n && j != i && |other| <= chunkSize && RegionHolds(file, j, other, chunkSize) ==>
        RegionHolds(WriteAt(file, i * chunkSize, data), j, other, chunkSize)
  }

  lemma ShortWriteSpares(file: Bytes, i: nat, data: Bytes, chunkSize: nat, j: nat, other: Bytes)
    requires j != i && |other| <= chunkSize && RegionHolds(file, j, other, chunkSize)
    requires |data| <= chunkSize || j < i
    ensures RegionHolds(WriteAt(file, i * chunkSize, data), j, other, chunkSize)
  {
    if j < i {
      MulStep(j, i, chunkSize);
    } else {
      MulStep(i, j, chunkSize);
    }
  }

  /** A longer write reaches into the next chunk: a byte there that differs is lost. */
  lemma LongWriteSpoils(i: nat, data: Bytes, chunkSize: nat) returns (file: Bytes, other: Bytes)
    requires chunkSize > 0 && |data| > chunkSize
    ensures |other| == 1 && RegionHolds(file, i + 1, other, chunkSize)
    ensures !RegionHolds(WriteAt(file, i * chunkSize, data), i + 1, other, chunkSize)
  {
    var at := (i + 1) * chunkSize;
    assert at == i * chunkSize + chunkSize;
    var byte: Byte := if data[chunkSize] == 0 then 1 else 0;
    other := [byte];
    file := Zeros(at) + other;
    var after := WriteAt(file, i * chunkSize, data);
    assert after[at] == data[chunkSize];
    assert |after| > at && after[at..at + 1][0] != byte;
  }

  /**
   * The exact condition: a positional write at chunk i spares every other chunk on
   * record below n, in every file, iff it is no longer than a chunk or no chunk of
   * those comes after it.
   */
  lemma SparesIffShort(i: nat, data: Bytes, chunkSize: nat, n: nat)
    requires chunkSize > 0
    ensures SparesBelow(i, data, chunkSize, n) <==> |data| <= chunkSize || i + 1 >= n
  {
    if |data| <= chunkSize || i + 1 >= n {
      forall file: Bytes, j: nat, other: Bytes
        | j < n && j != i && |other| <= chunkSize && RegionHolds(file, j, other, chunkSize)
        ensures RegionHolds(WriteAt(file, i * chunkSize, data), j, other, chunkSize)
      {
        ShortWriteSpares(file, i, data, chunkSize, j, other);
      }
    } else {
      var file, other := LongWriteSpoils(i, data, chunkSize);
      assert RegionHolds(file, i + 1, other, chunkSize);
    }
  }

  /** A failing input: two chunks of four bytes, the second on record, and a frame of eight bytes for the first. */
  lemma LongFrameSpoilsNeighbour(second: Bytes, long: Bytes)
    requires |second| == 4 && |long| == 8 && long[4..] != second
    ensures var m, file := Meta(8, 4, 2), Zeros(4) + second;
            && WellFormed(m) && FileHolds(file, map[1 := second], m)
            && !FileHolds(WriteAt(file, 0, long), map[0 := long, 1 := second], m)
            && !RegionHolds(WriteAt(file, 0, long), 1, second, 4)
  {
    var m, file := Meta(8, 4, 2), Zeros(4) + second;
    assert file[4..8] == second;
    assert SlotHolds(file, 1, second, m);
    var after := WriteAt(file, 0, long);
    assert after == long;
    assert after[4..8] == long[4..];
    var disk := map[0 := long, 1 := second];
    assert 1 in disk && !SlotHolds(after, 1, disk[1], m);
  }

  // ---- the record over a run ----

  /** Every chunk the session counts as stored is in the file, and is no longer than a chunk. */
  predicate RecordHolds(file: Bytes, disk: map<nat, Bytes>, chunkSize: nat) {
    forall i {:trigger RegionHolds(file, i, disk[i], chunkSize)} ::
      i in disk ==> |disk[i]| <= chunkSize && RegionHolds(file, i, disk[i], chunkSize)
  }

  /** Offers name this chunk size, and no frame carries more than a chunk. */
  predicate ShortAction(a: Action, chunkSize: nat) {
    a.Deliver? ==>
      && (a.msg.Offer? ==> a.msg.meta.chunkSize == chunkSize)
      && (a.msg.Chunk? ==> |a.msg.frame| <= 4 + chunkSize)
  }

  predicate ShortActions(acts: seq<Action>, chunkSize: nat) {
    forall i :: 0 <= i < |acts| ==> ShortAction(acts[i], chunkSize)
  }

  predicate ShortInv(r: State, chunkSize: nat) {
    && (forall j :: 0 <= j < |r.queue.frames| ==> |r.queue.frames[j]| <= 4 + chunkSize)
    && (r.queue.task.Writing? || r.queue.task.Hashing? ==> |r.queue.task.data| <= chunkSize)
    && (!r.phase.AwaitingOffer? ==> r.meta.chunkSize == chunkSize)
    && (r.phase.AwaitingOffer? ==> r.queue.task.Idle? && r.queue.frames == [])
  }

  /** An interrupted write of `length` bytes at chunk i: the rest of the file is as it was. */
  predicate Interrupted(file: Bytes, after: Bytes, i: nat, length: nat, garbage: Option<Bytes>, chunkSize: nat) {
    && |file| <= |after|
    && (forall p :: 0 <= p < |file| && !(i * chunkSize <= p < i * chunkSize + length) ==> after[p] == file[p])
    && (garbage.Some? ==> |garbage.value| <= chunkSize && RegionHolds(after, i, garbage.value, chunkSize))
  }

  /** What an action of the receiver does to the file. */
  predicate Touches(r: State, a: Action, file: Bytes, after: Bytes) {
    match r.queue.task
    case Writing(i, data) =>
      if a.WriteDone? then after == WriteAt(file, i * r.meta.chunkSize, data)
      else if a.TaskFails? || a.Restart? then Interrupted(file, after, i, |data|, a.garbage, r.meta.chunkSize)
      else after == file
    case _ => after == file
  }

  lemma EarlyKeepsShort(c: Config, r: State, a: Action, chunkSize: nat)
    requires ShortInv(r, chunkSize) && LoadedInv(r) && ShortAction(a, chunkSize) && IsEarly(a)
    ensures ShortInv(Step(c, r, a), chunkSize)
  {
  }

  lemma TaskKeepsShort(c: Config, r: State, a: Action, chunkSize: nat)
    requires ShortInv(r, chunkSize) && (a.WriteDone? || a.HashDone? || a.Save? || a.TaskFails?)
    ensures ShortInv(Step(c, r, a), chunkSize)
  {
  }

  lemma StartTaskKeepsShort(r: State, chunkSize: nat)
    requires ShortInv(r, chunkSize)
    ensures ShortInv(StartTaskStep(r), chunkSize)
  {
    if r.queue.frames != [] {
      assert forall j :: 0 <= j < |r.queue.frames| - 1 ==> r.queue.frames[1..][j] == r.queue.frames[j + 1];
    }
  }

  lemma CloserKeepsShort(r: State, r': State, now: int, chunkSize: nat)
    requires ShortInv(r, chunkSize) && CloserEffect(r, r', now)
    ensures ShortInv(r', chunkSize)
  {
  }

  lemma StepKeepsShort(c: Config, r: State, a: Action, chunkSize: nat)
    requires ShortInv(r, chunkSize) && LoadedInv(r) && ShortAction(a, chunkSize)
    ensures ShortInv(Step(c, r, a), chunkSize)
  {
    match a
    case Advance(j, now) =>
      AdvanceEffect(c, r, j, now);
      CloserKeepsShort(r, AdvanceStep(c, r, j, now), now, chunkSize);
    case CloserFails(j) =>
      CloserFailsEffect(r, j, 0);
      CloserKeepsShort(r, CloserFailsStep(r, j), 0, chunkSize);
    case StartTask => StartTaskKeepsShort(r, chunkSize);
    case Restart(_) =>
    case _ =>
      if IsEarly(a) {
        EarlyKeepsShort(c, r, a, chunkSize);
      } else {
        TaskKeepsShort(c, r, a, chunkSize);
      }
  }

  lemma WriteKeepsRecord(file: Bytes, disk: map<nat, Bytes>, i: nat, data: Bytes, chunkSize: nat)
    requires RecordHolds(file, disk, chunkSize) && |data| <= chunkSize
    ensures RecordHolds(WriteAt(file, i * chunkSize, data), disk[i := data], chunkSize)
  {
    var after, disk' := WriteAt(file, i * chunkSize, data), disk[i := data];
    forall j | j in disk' ensures |disk'[j]| <= chunkSize && RegionHolds(after, j, disk'[j], chunkSize) {
      if j != i {
        assert RegionHolds(file, j, disk[j], chunkSize);
        ShortWriteSpares(file, i, data, chunkSize, j, disk[j]);
      } else {
        WrittenIsThere(file, i, data, chunkSize);
      }
    }
  }

  /** A write of the first w bytes, counted as one of `data`, leaves every file with every record it had and `data`. */
  ghost predicate KeepsRecords(i: nat, data: Bytes, w: nat, chunkSize: nat)
    requires w <= |data|
  {
    forall file: Bytes, disk: map<nat, Bytes> {:trigger RecordHolds(file, disk, chunkSize)} ::
      RecordHolds(file, disk, chunkSize) ==>
        RecordHolds(WriteAt(file, i * chunkSize, data[..w]), disk[i := data], chunkSize)
  }

  /**
   * writeChunk ignores the number of bytes that handle.write resolves with. The
   * exact condition for a resolved write to leave the record true, whatever was in
   * the file: it wrote the whole chunk.
   */
  lemma RecordKeptIffWhole(i: nat, data: Bytes, w: nat, chunkSize: nat)
    requires w <= |data| <= chunkSize
    ensures KeepsRecords(i, data, w, chunkSize) <==> w == |data|
  {
    if w == |data| {
      assert data[..w] == data;
      forall file: Bytes, disk: map<nat, Bytes> | RecordHolds(file, disk, chunkSize)
        ensures RecordHolds(WriteAt(file, i * chunkSize, data[..w]), disk[i := data], chunkSize)
      {
        WriteKeepsRecord(file, disk, i, data, chunkSize);
      }
    } else {
      var after, disk: map<nat, Bytes> := WriteAt([], i * chunkSize, data[..w]), map[];
      assert RecordHolds([], disk, chunkSize);
      assert !RegionHolds(after, i, disk[i := data][i], chunkSize);
    }
  }

  lemma WrittenIsThere(file: Bytes, i: nat, data: Bytes, chunkSize: nat)
    ensures RegionHolds(WriteAt(file, i * chunkSize, data), i, data, chunkSize)
  {
  }

  lemma InterruptedSpares(file: Bytes, after: Bytes, i: nat, length: nat, garbage: Option<Bytes>, chunkSize: nat,
                          j: nat, other: Bytes)
    requires Interrupted(file, after, i, length, garbage, chunkSize) && length <= chunkSize
    requires j != i && |other| <= chunkSize && RegionHolds(file, j, other, chunkSize)
    ensures RegionHolds(after, j, other, chunkSize)
  {
    if j < i {
      MulStep(j, i, chunkSize);
    } else {
      MulStep(i, j, chunkSize);
    }
  }

  lemma InterruptedKeepsRecord(file: Bytes, after: Bytes, disk: map<nat, Bytes>, i: nat, length: nat,
                               garbage: Option<Bytes>, chunkSize: nat)
    requires RecordHolds(file, disk, chunkSize) && length <= chunkSize
    requires Interrupted(file, after, i, length, garbage, chunkSize)
    ensures RecordHolds(after, if garbage.Some? then disk[i := garbage.value] else disk - {i}, chunkSize)
  {
    var disk' := if garbage.Some? then disk[i := garbage.value] else disk - {i};
    forall j | j in disk' ensures |disk'[j]| <= chunkSize && RegionHolds(after, j, disk'[j], chunkSize) {
      if j != i {
        assert RegionHolds(file, j, disk[j], chunkSize);
        InterruptedSpares(file, after, i, length, garbage, chunkSize, j, disk[j]);
      }
    }
  }

  /** Nothing but a finished, failed or interrupted write changes the disk. */
  lemma DiskFrame(c: Config, r: State, a: Action)
    requires !r.queue.task.Writing? || !(a.WriteDone? || a.TaskFails? || a.Restart?)
    ensures Step(c, r, a).durable.disk == r.durable.disk
  {
    match a
    case Advance(j, now) => AdvanceEffect(c, r, j, now);
    case CloserFails(j) => CloserFailsEffect(r, j, 0);
    case _ =>
      if IsEarly(a) {
        EarlyStepEffect(c, r, a);
      }
  }

  lemma StepKeepsRecord(c: Config, r: State, a: Action, chunkSize: nat, file: Bytes, after: Bytes)
    requires ShortInv(r, chunkSize) && RecordHolds(file, r.durable.disk, chunkSize) && Touches(r, a, file, after)
    ensures RecordHolds(after, Step(c, r, a).durable.disk, chunkSize)
  {
    match r.queue.task
    case Writing(i, data) =>
      if a.WriteDone? {
        WriteKeepsRecord(file, r.durable.disk, i, data, chunkSize);
      } else if a.TaskFails? || a.Restart? {
        InterruptedKeepsRecord(file, after, r.durable.disk, i, |data|, a.garbage, chunkSize);
      } else {
        DiskFrame(c, r, a);
      }
    case _ => DiskFrame(c, r, a);
  }

  /** A run by its states, with the file after each action. */
  predicate FileRun(c: Config, acts: seq<Action>, rs: seq<State>, files: seq<Bytes>) {
    && |rs| == |files| == |acts| + 1
    && forall i {:trigger acts[i]} :: 0 <= i < |acts| ==>
         rs[i + 1] == Step(c, rs[i], acts[i]) && Touches(rs[i], acts[i], files[i], files[i + 1])
  }

  lemma FileRunPrefix(c: Config, acts: seq<Action>, rs: seq<State>, files: seq<Bytes>)
    requires acts != [] && FileRun(c, acts, rs, files)
    ensures FileRun(c, acts[..|acts| - 1], rs[..|acts|], files[..|acts|])
    ensures var n := |acts| - 1;
            rs[n + 1] == Step(c, rs[n], acts[n]) && Touches(rs[n], acts[n], files[n], files[n + 1])
  {
    var n := |acts| - 1;
    forall i | 0 <= i < n
      ensures acts[..n][i] == acts[i] && rs[i + 1] == Step(c, rs[i], acts[i])
              && Touches(rs[i], acts[i], files[i], files[i + 1])
    {
    }
    assert acts[n] == acts[|acts| - 1];
  }

  lemma {:induction false} RunKeepsRecord(c: Config, d: Durable, chunkSize: nat, acts: seq<Action>, rs: seq<State>,
                                          files: seq<Bytes>)
    requires StoreInv(c.sha, d) && FileRun(c, acts, rs, files) && rs[0] == Begin(d)
    requires RecordHolds(files[0], d.disk, chunkSize) && ShortActions(acts, chunkSize)
    ensures DurableInv(c, rs[|acts|]) && ShortInv(rs[|acts|], chunkSize)
    ensures RecordHolds(files[|acts|], rs[|acts|].durable.disk, chunkSize)
  {
    if acts != [] {
      var n := |acts| - 1;
      FileRunPrefix(c, acts, rs, files);
      assert forall i :: 0 <= i < n ==> acts[..n][i] == acts[i];
      RunKeepsRecord(c, d, chunkSize, acts[..n], rs[..n + 1], files[..n + 1]);
      StepKeepsDurable(c, rs[n], acts[n]);
      StepKeepsShort(c, rs[n], acts[n], chunkSize);
      StepKeepsRecord(c, rs[n], acts[n], chunkSize, files[n], files[n + 1]);
    }
  }

  /** The digest is of bytes the file has at the place of chunk i. */
  ghost predicate DigestOfFile(sha: Sha, file: Bytes, i: nat, hash: string, chunkSize: nat) {
    exists data :: |data| <= chunkSize && RegionHolds(file, i, data, chunkSize) && hash == HashChunk(sha, data)
  }

  /**
   * Durability over a positional file: through any number of sessions, whatever
   * ended them and whatever the frames carried so long as it was no longer than a
   * chunk, every digest of the persisted resume state is of bytes the file has at
   * the place of its chunk.
   */
  lemma FileKeepsPersistedDigests(c: Config, d: Durable, chunkSize: nat, acts: seq<Action>, rs: seq<State>,
                                  files: seq<Bytes>)
    requires StoreInv(c.sha, d) && FileRun(c, acts, rs, files) && rs[0] == Begin(d)
    requires RecordHolds(files[0], d.disk, chunkSize) && ShortActions(acts, chunkSize)
    ensures var saved := rs[|acts|].durable.saved;
            saved.Some? ==>
              forall i :: i in saved.value.received ==>
                            i in saved.value.hashes
                            && DigestOfFile(c.sha, files[|acts|], i, saved.value.hashes[i], chunkSize)
  {
    RunKeepsRecord(c, d, chunkSize, acts, rs, files);
    var r, file := rs[|acts|], files[|acts|];
    if r.durable.saved.Some? {
      forall i | i in r.durable.saved.value.received
        ensures i in r.durable.saved.value.hashes
                && DigestOfFile(c.sha, file, i, r.durable.saved.value.hashes[i], chunkSize)
      {
        assert RegionHolds(file, i, r.durable.disk[i], chunkSize);
      }
    }
  }

  /** The run in which a long frame breaks the record: the second chunk resumed, eight bytes sent for the first. */
  function LongFrameRun(long: Bytes): seq<Action> {
    [Deliver(Offer(Meta(8, 4, 2))), Confirm(true), Load(0), Open, Deliver(Chunk(Encode(0, long))), StartTask, WriteDone]
  }

  /** Transferring with nothing queued, over this entry. */
  predicate Resumed(r: State, d: Durable) {
    && r.phase.Transferring? && r.meta == Meta(8, 4, 2) && r.durable == d && 0 !in r.tally.received
    && r.queue == Queue([], 0, 0, false, Idle)
  }

  lemma ResumesAtOnce(c: Config, d: Durable)
    requires d.saved.Some? && d.saved.value.updatedAt == 0 && 0 !in d.saved.value.received
    ensures Resumed(OpenStep(LoadStep(ConfirmStep(OnMessage(Begin(d), Offer(Meta(8, 4, 2))), true), 0)), d)
  {
  }

  lemma WritesLongFrame(r: State, d: Durable, long: Bytes)
    requires Resumed(r, d)
    ensures var r' := StartTaskStep(OnMessage(r, Chunk(Encode(0, long))));
            r'.queue.task == Writing(0, long) && r'.meta == Meta(8, 4, 2) && r'.durable == d
  {
    FrameRoundTrip(0, long);
  }

  lemma LongFrameResumes(c: Config, long: Bytes, d: Durable, rs: seq<State>, files: seq<Bytes>)
    requires FileRun(c, LongFrameRun(long), rs, files) && rs[0] == Begin(d)
    requires d.saved.Some? && d.saved.value.updatedAt == 0 && 0 !in d.saved.value.received
    ensures Resumed(rs[4], d) && files[4] == files[0]
  {
    var acts := LongFrameRun(long);
    assert rs[1] == Step(c, rs[0], acts[0]) && files[1] == files[0];
    assert rs[2] == Step(c, rs[1], acts[1]) && files[2] == files[1];
    assert rs[3] == Step(c, rs[2], acts[2]) && files[3] == files[2];
    assert rs[4] == Step(c, rs[3], acts[3]) && files[4] == files[3];
    ResumesAtOnce(c, d);
  }

  lemma LongFrameBreaksRecord(c: Config, second: Bytes, long: Bytes, rs: seq<State>, files: seq<Bytes>)
    requires |second| == 4 && |long| == 8 && long[4..] != second
    requires FileRun(c, LongFrameRun(long), rs, files) && files[0] == Zeros(4) + second
    requires rs[0] == Begin(Durable(map[1 := second], Some(ResumeState({1}, map[1 := HashChunk(c.sha, second)], 0))))
    ensures RecordHolds(files[0], rs[0].durable.disk, 4) && StoreInv(c.sha, rs[0].durable)
    ensures rs[7].durable.saved == rs[0].durable.saved && 1 in rs[7].durable.saved.value.received
    ensures files[7] == long && !RegionHolds(files[7], 1, second, 4)
  {
    var acts, d := LongFrameRun(long), rs[0].durable;
    assert files[0][4..8] == second;
    LongFrameResumes(c, long, d, rs, files);
    assert rs[5] == OnMessage(rs[4], Chunk(Encode(0, long))) && files[5] == files[4] by {
      assert acts[4] == Deliver(Chunk(Encode(0, long)));
    }
    assert rs[6] == StartTaskStep(rs[5]) && files[6] == files[5] by {
      assert acts[5] == StartTask;
    }
    WritesLongFrame(rs[4], d, long);
    assert rs[7] == WriteDoneStep(rs[6]) && files[7] == WriteAt(files[6], 0, long) by {
      assert acts[6] == WriteDone;
    }
    LongFrameSpoilsNeighbour(second, long);
  }
}
