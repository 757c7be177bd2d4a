/**
 * The transfer over a real file: what TauriFsWriter does to the bytes of one
 * file while the session's own record of the disk is keyed by chunk.
 */
module PositionalSession {
  import opened Basics
  import opened Chunking
  import opened HashChain
  import opened ChunkFrame
  import opened Protocol
  import opened DiskWriters
  import opened Session
  import opened Sender
  import Receiver
  import opened ReceiverSafety
  import opened SessionSafety
  import opened SessionTheorems

  /** An interrupted write of chunk i: the file may have grown, and nothing outside the chunk has changed. */
  predicate Spoiled(file: Bytes, after: Bytes, i: nat, garbage: Option<Bytes>, m: Meta)
    requires WellFormed(m)
  {
    && |file| <= |after|
    && (forall p :: 0 <= p < |file| && !(BytesIn(i, m) <= p < BytesIn(i + 1, m)) ==> after[p] == file[p])
    && (garbage.Some? ==> SlotHolds(after, i, garbage.value, m))
  }

  /** What an action of the session does to the file. */
  predicate TouchesFile(y: System, a: Session.Action, file: Bytes, after: Bytes) {
    var task, m := y.receiver.queue.task, y.upload.meta;
    if !task.Writing? then after == file
    else match a
      case ReceiverActs(WriteDone) => after == WriteAt(file, task.index * m.chunkSize, task.data)
      case ReceiverActs(TaskFails(garbage)) => Spoiled(file, after, task.index, garbage, m)
      case NewSession(bytes, garbage) =>
        if |bytes| == m.size then Spoiled(file, after, task.index, garbage, m) else after == file
      case _ => after == file
  }

  /** Nothing but a finished or failed write changes the disk. */
  lemma DiskFrame(c: Receiver.Config, r: RState, a: Receiver.Action)
    requires !r.queue.task.Writing? || !(a.WriteDone? || a.TaskFails? || a.Restart?)
    ensures Receiver.Step(c, r, a).durable.disk == r.durable.disk
  {
    match a
    case Advance(j, now) => AdvanceEffect(c, r, j, now);
    case CloserFails(j) => CloserFailsEffect(r, j, 0);
    case _ =>
      if IsEarly(a) {
        EarlyStepEffect(c, r, a);
      }
  }

  lemma SpoiledKeepsFile(file: Bytes, after: Bytes, disk: map<nat, Bytes>, i: nat, garbage: Option<Bytes>, m: Meta)
    requires WellFormed(m) && i < m.totalChunks && FileHolds(file, disk, m) && Spoiled(file, after, i, garbage, m)
    ensures FileHolds(after, if garbage.Some? then disk[i := garbage.value] else disk - {i}, m)
  {
    FailedWriteIsKeyed(file, after, disk, i, m);
    var rest := disk - {i};
    var spoiled := if garbage.Some? then disk[i := garbage.value] else rest;
    forall j | j in spoiled && j < m.totalChunks ensures SlotHolds(after, j, spoiled[j], m) {
      assert j != i ==> j in rest && spoiled[j] == rest[j];
    }
  }

  lemma WriteKeepsFile(c: Receiver.Config, u: Upload, r: RState, file: Bytes)
    requires PrefixInv(u, r) && r.queue.task.Writing? && FileHolds(file, r.durable.disk, u.meta)
    ensures FileHolds(WriteAt(file, r.queue.task.index * u.meta.chunkSize, r.queue.task.data),
                      Receiver.WriteDoneStep(r).durable.disk, u.meta)
  {
    ChunkWriteIsKeyed(file, r.durable.disk, r.queue.task.index, r.queue.task.data, u.meta);
  }

  lemma ReceiverKeepsFile(c: Receiver.Config, y: System, a: Receiver.Action, file: Bytes, after: Bytes)
    requires SystemInv(c, y) && FileHolds(file, y.receiver.durable.disk, y.upload.meta) && Internal(a)
    requires TouchesFile(y, ReceiverActs(a), file, after)
    ensures FileHolds(after, Receiver.Step(c, y.receiver, a).durable.disk, y.upload.meta)
  {
    var r := y.receiver;
    if r.queue.task.Writing? && a.WriteDone? {
      WriteKeepsFile(c, y.upload, r, file);
    } else if r.queue.task.Writing? && a.TaskFails? {
      SpoiledKeepsFile(file, after, r.durable.disk, r.queue.task.index, a.garbage, y.upload.meta);
    } else {
      DiskFrame(c, r, a);
    }
  }

  lemma DeliveryKeepsDisk(y: System)
    requires y.toReceiver < |y.sender.sent|
    ensures Receiver.OnMessage(y.receiver, y.sender.sent[y.toReceiver]).durable.disk == y.receiver.durable.disk
  {
  }

  lemma NewSessionKeepsFile(c: Receiver.Config, y: System, bytes: Bytes, garbage: Option<Bytes>, file: Bytes,
                            after: Bytes)
    requires SystemInv(c, y) && FileHolds(file, y.receiver.durable.disk, y.upload.meta)
    requires |bytes| == y.upload.meta.size && TouchesFile(y, NewSession(bytes, garbage), file, after)
    ensures FileHolds(after, Receiver.RestartStep(y.receiver, garbage).durable.disk, y.upload.meta)
  {
    var r := y.receiver;
    if r.queue.task.Writing? {
      SpoiledKeepsFile(file, after, r.durable.disk, r.queue.task.index, garbage, y.upload.meta);
    }
  }

  lemma StepKeepsFile(c: Receiver.Config, y: System, a: Session.Action, file: Bytes, after: Bytes)
    requires SystemInv(c, y) && FileHolds(file, y.receiver.durable.disk, y.upload.meta)
    requires TouchesFile(y, a, file, after)
    ensures FileHolds(after, Session.Step(c, y, a).receiver.durable.disk, y.upload.meta)
  {
    match a
    case ReceiverActs(r) => if Internal(r) { ReceiverKeepsFile(c, y, r, file, after); }
    case DeliverToReceiver => if y.toReceiver < |y.sender.sent| { DeliveryKeepsDisk(y); }
    case NewSession(bytes, garbage) =>
      if |bytes| == y.upload.meta.size { NewSessionKeepsFile(c, y, bytes, garbage, file, after); }
    case _ =>
  }

  /** files[i] is the file after i of the actions. */
  predicate FileTrace(acts: seq<Session.Action>, ys: seq<System>, files: seq<Bytes>) {
    && |files| == |ys| == |acts| + 1
    && forall i {:trigger acts[i]} :: 0 <= i < |acts| ==> TouchesFile(ys[i], acts[i], files[i], files[i + 1])
  }

  lemma FileTracePrefix(acts: seq<Session.Action>, ys: seq<System>, files: seq<Bytes>)
    requires acts != [] && FileTrace(acts, ys, files)
    ensures FileTrace(acts[..|acts| - 1], ys[..|acts|], files[..|acts|])
    ensures var n := |acts| - 1; TouchesFile(ys[n], acts[n], files[n], files[n + 1])
  {
    var n := |acts| - 1;
    assert forall i :: 0 <= i < n ==> acts[..n][i] == acts[i];
    assert acts[n] == acts[|acts| - 1];
  }

  lemma {:induction false} RunKeepsFile(c: Receiver.Config, u: Upload, d: Receiver.Durable, acts: seq<Session.Action>,
                                        ys: seq<System>, files: seq<Bytes>)
    requires Resumable(c.sha, u, d) && Session.Run(c, acts, ys) && ys[0] == Session.Begin(u, d)
    requires FileTrace(acts, ys, files) && FileHolds(files[0], d.disk, u.meta)
    ensures FileHolds(files[|acts|], ys[|acts|].receiver.durable.disk, u.meta)
  {
    if |acts| > 0 {
      var n := |acts| - 1;
      FileTracePrefix(acts, ys, files);
      Session.RunPrefix(c, acts, ys);
      RunKeepsFile(c, u, d, acts[..n], ys[..n + 1], files[..n + 1]);
      RunKeepsSystem(c, u, d, acts[..n], ys[..n + 1]);
      StepKeepsFile(c, ys[n], acts[n], files[n], files[|acts|]);
    }
  }

  /** From the state y0 and the file `before`, some run leads to y and the file `after`. */
  ghost predicate FileReachable(c: Receiver.Config, y0: System, before: Bytes, y: System, after: Bytes) {
    exists acts, ys, files :: Session.Run(c, acts, ys) && FileTrace(acts, ys, files) &&
                              ys[0] == y0 && files[0] == before && ys[|acts|] == y && files[|acts|] == after
  }

  /**
   * End to end: through any number of sessions over one file, with interrupted
   * writes and a source that may change in between, when the receiver announces
   * completion the file on disk begins with the bytes being sent now.
   */
  lemma CompleteFileBeginsWithSource(c: Receiver.Config, u: Upload, d: Receiver.Durable, before: Bytes, y: System,
                                     file: Bytes)
    requires Resumable(c.sha, u, d) && FileHolds(before, d.disk, u.meta)
    requires FileReachable(c, Session.Begin(u, d), before, y, file)
    requires Complete in y.receiver.out.events
    requires DistinguishesFiles(c.sha, OnDisk(y.receiver, u.meta.totalChunks), Chunks(y.upload.bytes, y.upload.meta))
    ensures y.upload.bytes <= file
  {
    var acts, ys, files :| Session.Run(c, acts, ys) && FileTrace(acts, ys, files) &&
                           ys[0] == Session.Begin(u, d) && files[0] == before &&
                           ys[|acts|] == y && files[|acts|] == file;
    CompleteMeansStored(c, u, d, y);
    RunKeepsFile(c, u, d, acts, ys, files);
    RunKeepsSystem(c, u, d, acts, ys);
    HeldChunksAreTheSource(file, y.receiver.durable.disk, y.upload.bytes, u.meta);
  }
}
