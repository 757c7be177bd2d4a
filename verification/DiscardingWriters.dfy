/**
 * Writers whose abort discards bytes: IndexedDbWriter deletes every chunk of the
 * file, FileSystemAccessWriter drops what it has not closed. The resume entry
 * knows nothing of it. What such a writer still has is followed beside the
 * session's own record of what it wrote.
 */
module DiscardingWriters {
  import opened Basics
  import opened Chunking
  import opened HashChain
  import opened Resume
  import opened Protocol
  import opened DiskWriters
  import opened Session
  import opened Sender
  import Receiver
  import opened ReceiverSafety
  import opened SessionSafety
  import opened SessionTheorems

  // ---- what the writer has ----

  /** writer.abort() has been called and has not returned. */
  predicate AbortRuns(r: RState) {
    r.phase.AbortingEarly? || exists j :: 0 <= j < |r.closers| && r.closers[j].stage.AbortingWriter?
  }

  /** writer.finalize() has been called and has not returned. */
  predicate FinalizeRuns(r: RState) {
    exists j :: 0 <= j < |r.closers| && r.closers[j].stage.Finalizing?
  }

  predicate Reopens(y: System, a: Session.Action) {
    a.NewSession? && |a.bytes| == y.upload.meta.size
  }

  /** Bytes may go here; `unclosed` writers also lose those of a session that ends without closing the file. */
  predicate Discards(unclosed: bool, y: System, a: Session.Action, y': System) {
    AbortRuns(y.receiver) || AbortRuns(y'.receiver) || FinalizeRuns(y.receiver) || (unclosed && Reopens(y, a))
  }

  /** The chunks the writer has, from one state to the next: anything where it discards, else what was written. */
  predicate Keeps(unclosed: bool, y: System, a: Session.Action, y': System, kept: map<nat, Bytes>,
                  kept': map<nat, Bytes>)
  {
    var task := y.receiver.queue.task;
    || Discards(unclosed, y, a, y')
    || (if !task.Writing? then kept' == kept
        else if a == ReceiverActs(Receiver.WriteDone) then kept' == kept[task.index := task.data]
        else if Reopens(y, a) || (a.ReceiverActs? && a.r.TaskFails?) then kept' - {task.index} == kept - {task.index}
        else kept' == kept)
  }

  predicate KeptTrace(unclosed: bool, acts: seq<Session.Action>, ys: seq<System>, kepts: seq<map<nat, Bytes>>) {
    && |kepts| == |ys| == |acts| + 1
    && forall i {:trigger acts[i]} :: 0 <= i < |acts| ==>
         Keeps(unclosed, ys[i], acts[i], ys[i + 1], kepts[i], kepts[i + 1])
  }

  /** The writer has these chunks as they were written. */
  predicate KeptOn(s: set<nat>, disk: map<nat, Bytes>, kept: map<nat, Bytes>) {
    forall i :: i in s ==> i in disk && i in kept && kept[i] == disk[i]
  }

  predicate TaskKept(r: RState, kept: map<nat, Bytes>) {
    r.queue.task.Hashing? ==> KeptOn({r.queue.task.index}, r.durable.disk, kept)
  }

  predicate HeldKept(r: RState, kept: map<nat, Bytes>) {
    KeptOn(r.tally.received, r.durable.disk, kept)
  }

  predicate SavedKept(r: RState, kept: map<nat, Bytes>) {
    r.durable.saved.Some? ==> KeptOn(r.durable.saved.value.received, r.durable.disk, kept)
  }

  // ---- within a session ----

  /** A step that neither loads nor begins a session. */
  predicate Within(y: System, a: Session.Action) {
    !Reopens(y, a) && !(a.ReceiverActs? && a.r.Load?)
  }

  /** The three ways in which a step within a session touches what is held. */
  predicate Untouched(r: RState, r': RState) {
    && r'.durable.disk == r.durable.disk && r'.tally.received == r.tally.received
    && (r'.queue.task.Hashing? ==> r'.queue.task == r.queue.task)
  }

  lemma InternalTouches(c: Receiver.Config, r: RState, a: Receiver.Action)
    requires Internal(a) && !a.Load? && !a.WriteDone? && !a.HashDone? && !a.TaskFails?
    ensures Untouched(r, Receiver.Step(c, r, a))
  {
    match a
    case Advance(j, now) => AdvanceEffect(c, r, j, now);
    case CloserFails(j) => CloserFailsEffect(r, j, 0);
    case _ =>
  }

  lemma WriteKept(r: RState, kept: map<nat, Bytes>)
    requires r.queue.task.Writing? && TaskInv(r.queue.task, r.tally.received, r.durable.disk)
    ensures var kept', r' := kept[r.queue.task.index := r.queue.task.data], Receiver.WriteDoneStep(r);
            TaskKept(r', kept') && (HeldKept(r', kept') <==> HeldKept(r, kept))
  {
    var kept', r' := kept[r.queue.task.index := r.queue.task.data], Receiver.WriteDoneStep(r);
    forall i | i in r.tally.received
      ensures (i in r'.durable.disk <==> i in r.durable.disk) && (i in kept' <==> i in kept)
              && (i in r.durable.disk ==> r'.durable.disk[i] == r.durable.disk[i])
              && (i in kept ==> kept'[i] == kept[i])
    {
    }
  }

  lemma HashKept(c: Receiver.Config, r: RState, kept: map<nat, Bytes>)
    requires TaskKept(r, kept)
    ensures var r' := Receiver.HashDoneStep(c, r);
            TaskKept(r', kept) && (HeldKept(r', kept) <==> HeldKept(r, kept))
  {
    var r' := Receiver.HashDoneStep(c, r);
    if r.queue.task.Hashing? {
      assert r'.durable.disk == r.durable.disk;
      assert r'.tally.received == r.tally.received || r'.tally.received == r.tally.received + {r.queue.task.index};
    }
  }

  lemma SmudgeKept(r: RState, disk: map<nat, Bytes>, kept: map<nat, Bytes>, kept': map<nat, Bytes>, i: nat, s: set<nat>)
    requires i !in s && disk - {i} == r.durable.disk - {i} && kept' - {i} == kept - {i}
    ensures KeptOn(s, disk, kept') <==> KeptOn(s, r.durable.disk, kept)
  {
    forall x | x in s
      ensures (x in disk <==> x in r.durable.disk) && (x in kept' <==> x in kept)
              && (x in disk ==> disk[x] == r.durable.disk[x]) && (x in kept ==> kept'[x] == kept[x])
    {
      assert x in disk <==> x in disk - {i};
      assert x in r.durable.disk <==> x in r.durable.disk - {i};
      assert x in kept <==> x in kept - {i};
      assert x in kept' <==> x in kept' - {i};
      assert x in disk ==> disk[x] == (disk - {i})[x];
      assert x in kept ==> kept[x] == (kept - {i})[x] == (kept' - {i})[x];
    }
  }

  lemma FailKept(r: RState, garbage: Option<Bytes>, kept: map<nat, Bytes>, kept': map<nat, Bytes>)
    requires TaskInv(r.queue.task, r.tally.received, r.durable.disk) && TaskKept(r, kept)
    requires if r.queue.task.Writing? then kept' - {r.queue.task.index} == kept - {r.queue.task.index}
             else kept' == kept
    ensures var r' := Receiver.TaskFailsStep(r, garbage);
            TaskKept(r', kept') && (HeldKept(r', kept') <==> HeldKept(r, kept))
  {
    var r' := Receiver.TaskFailsStep(r, garbage);
    if r.queue.task.Writing? {
      var i := r.queue.task.index;
      assert r'.durable.disk - {i} == r.durable.disk - {i};
      SmudgeKept(r, r'.durable.disk, kept, kept', i, r.tally.received);
    }
  }

  lemma InternalKept(c: Receiver.Config, r: RState, a: Receiver.Action, kept: map<nat, Bytes>, kept': map<nat, Bytes>)
    requires Internal(a) && !a.Load? && DurableInv(c, r) && TaskKept(r, kept)
    requires if !r.queue.task.Writing? then kept' == kept
             else if a.WriteDone? then kept' == kept[r.queue.task.index := r.queue.task.data]
             else if a.TaskFails? then kept' - {r.queue.task.index} == kept - {r.queue.task.index}
             else kept' == kept
    ensures var r' := Receiver.Step(c, r, a); TaskKept(r', kept') && (HeldKept(r', kept') <==> HeldKept(r, kept))
  {
    match a
    case WriteDone => if r.queue.task.Writing? { WriteKept(r, kept); }
    case HashDone => HashKept(c, r, kept');
    case TaskFails(garbage) => FailKept(r, garbage, kept, kept');
    case _ => InternalTouches(c, r, a);
  }

  lemma MessageTouches(r: RState, msg: Msg)
    ensures Untouched(r, Receiver.OnMessage(r, msg))
  {
  }

  /** Within a session without a discard, what is held is with the writer iff it was before the step. */
  lemma WithinKept(c: Receiver.Config, unclosed: bool, y: System, a: Session.Action, kept: map<nat, Bytes>,
                   kept': map<nat, Bytes>)
    requires SystemInv(c, y) && TaskKept(y.receiver, kept) && Within(y, a)
    requires !Discards(unclosed, y, a, Session.Step(c, y, a))
    requires Keeps(unclosed, y, a, Session.Step(c, y, a), kept, kept')
    ensures var r' := Session.Step(c, y, a).receiver;
            TaskKept(r', kept') && (HeldKept(r', kept') <==> HeldKept(y.receiver, kept))
  {
    match a
    case ReceiverActs(r) => if Internal(r) { InternalKept(c, y.receiver, r, kept, kept'); }
    case DeliverToReceiver =>
      if y.toReceiver < |y.sender.sent| {
        MessageTouches(y.receiver, y.sender.sent[y.toReceiver]);
      }
    case _ =>
  }

  /** From the a-th state to the b-th the session goes on and the writer discards nothing. */
  predicate Undisturbed(unclosed: bool, acts: seq<Session.Action>, ys: seq<System>, a: nat, b: nat)
    requires |ys| == |acts| + 1 && b <= |acts|
  {
    forall i {:trigger acts[i]} :: a <= i < b ==>
      Within(ys[i], acts[i]) && !Discards(unclosed, ys[i], acts[i], ys[i + 1])
  }

  /** Through a session without a discard: what is held is with the writer iff what was loaded is. */
  lemma {:induction false} HeldKeptIffLoadedKept(c: Receiver.Config, u: Upload, d: Receiver.Durable, unclosed: bool,
                                                 acts: seq<Session.Action>, ys: seq<System>,
                                                 kepts: seq<map<nat, Bytes>>, a: nat, b: nat)
    requires Resumable(c.sha, u, d) && Session.Run(c, acts, ys) && ys[0] == Session.Begin(u, d)
    requires KeptTrace(unclosed, acts, ys, kepts) && a <= b <= |acts| && Undisturbed(unclosed, acts, ys, a, b)
    requires ys[a].receiver.queue.task.Idle?
    ensures TaskKept(ys[b].receiver, kepts[b])
    ensures HeldKept(ys[b].receiver, kepts[b]) <==> HeldKept(ys[a].receiver, kepts[a])
    decreases b
  {
    if a < b {
      var n := b - 1;
      HeldKeptIffLoadedKept(c, u, d, unclosed, acts, ys, kepts, a, n);
      StateKeepsSystem(c, u, d, acts, ys, n);
      assert ys[n + 1] == Session.Step(c, ys[n], acts[n]);
      WithinKept(c, unclosed, ys[n], acts[n], kepts[n], kepts[b]);
    }
  }

  /** The invariant holds at every state of the run. */
  lemma StateKeepsSystem(c: Receiver.Config, u: Upload, d: Receiver.Durable, acts: seq<Session.Action>,
                         ys: seq<System>, n: nat)
    requires Resumable(c.sha, u, d) && Session.Run(c, acts, ys) && ys[0] == Session.Begin(u, d) && n <= |acts|
    ensures SystemInv(c, ys[n]) && ys[n].upload.meta == u.meta
  {
    assert Session.Run(c, acts[..n], ys[..n + 1]) by {
      forall i | 0 <= i < n ensures ys[..n + 1][i + 1] == Session.Step(c, ys[..n + 1][i], acts[..n][i]) {
        assert acts[..n][i] == acts[i];
      }
    }
    RunKeepsSystem(c, u, d, acts[..n], ys[..n + 1]);
  }

  // ---- what finalize delivers ----

  /** A completion handler has found the file hash to match and finalizes, and the transfer has not ended otherwise. */
  predicate Delivers(r: RState) {
    && r.phase.Transferring?
    && exists j :: 0 <= j < |r.closers| && r.closers[j].stage.Finalizing? && r.closers[j].cause.Completion?
  }

  /** The writer has, in order, the chunks of the bytes being sent. */
  predicate DeliversSource(u: Upload, kept: map<nat, Bytes>) {
    Covers(kept, u.meta.totalChunks) && InOrder(kept, u.meta.totalChunks) == Chunks(u.bytes, u.meta)
  }

  lemma DeliveredConcat(u: Upload, kept: map<nat, Bytes>)
    requires DeliversSource(u, kept)
    ensures Concat(InOrder(kept, u.meta.totalChunks)) == u.bytes
  {
    ChunksConcat(u.bytes, u.meta);
  }

  /** Every chunk is held, and what was written of each is the source's. */
  predicate WroteSource(u: Upload, r: RState) {
    forall i: nat :: i < u.meta.totalChunks ==>
      i in r.tally.received && i in r.durable.disk && r.durable.disk[i] == ReadChunk(u.bytes, i, u.meta)
  }

  lemma WroteSourceKept(u: Upload, r: RState, kept: map<nat, Bytes>)
    requires WroteSource(u, r) && IsPrefix(r.tally.received, u.meta.totalChunks)
    ensures DeliversSource(u, kept) <==> HeldKept(r, kept)
  {
    var n := u.meta.totalChunks;
    if DeliversSource(u, kept) {
      forall i | i in r.tally.received ensures i in r.durable.disk && i in kept && kept[i] == r.durable.disk[i] {
        assert InOrder(kept, n)[i] == kept[i] && Chunks(u.bytes, u.meta)[i] == r.durable.disk[i];
      }
    }
    if HeldKept(r, kept) {
      assert Covers(kept, n);
      assert InOrder(kept, n) == Chunks(u.bytes, u.meta);
    }
  }

  /** No collision between what was written and what is being sent. */
  predicate ToldApart(c: Receiver.Config, y: System) {
    DistinguishesFiles(c.sha, OnDisk(y.receiver, y.upload.meta.totalChunks), Chunks(y.upload.bytes, y.upload.meta))
  }

  lemma DeliveringWroteSource(c: Receiver.Config, y: System)
    requires RecvInv(c, y.upload, y.receiver) && Delivers(y.receiver) && ToldApart(c, y)
    ensures WroteSource(y.upload, y.receiver) && IsPrefix(y.receiver.tally.received, y.upload.meta.totalChunks)
  {
    var u, r := y.upload, y.receiver;
    var n := u.meta.totalChunks;
    var j :| 0 <= j < |r.closers| && r.closers[j].stage.Finalizing? && r.closers[j].cause.Completion?;
    assert CloserFits(c, u, r, r.closers[j]);
    AllInHashesDisk(c, u, r);
    FileHashDeterminesChunks(c.sha, OnDisk(r, n), Chunks(u.bytes, u.meta));
    assert forall i: nat :: i < n ==> OnDisk(r, n)[i] == r.durable.disk[i] == Chunks(u.bytes, u.meta)[i];
  }

  /** The a-th action loads the resume state. */
  predicate LoadsAt(acts: seq<Session.Action>, ys: seq<System>, a: nat)
    requires |ys| == |acts| + 1 && a < |acts|
  {
    acts[a].ReceiverActs? && acts[a].r.Load? && ys[a].receiver.phase.Loading?
  }

  /** A run over such a writer that loads at its a-th action and from there to the b-th state goes on undisturbed. */
  predicate OneSession(c: Receiver.Config, u: Upload, d: Receiver.Durable, unclosed: bool, acts: seq<Session.Action>,
                       ys: seq<System>, kepts: seq<map<nat, Bytes>>, a: nat, b: nat)
  {
    && Session.Run(c, acts, ys) && ys[0] == Session.Begin(u, d) && KeptTrace(unclosed, acts, ys, kepts)
    && a < b <= |acts| && LoadsAt(acts, ys, a) && Undisturbed(unclosed, acts, ys, a + 1, b)
  }

  lemma LoadsIdle(c: Receiver.Config, u: Upload, d: Receiver.Durable, acts: seq<Session.Action>, ys: seq<System>,
                  a: nat)
    requires Resumable(c.sha, u, d) && Session.Run(c, acts, ys) && ys[0] == Session.Begin(u, d)
    requires a < |acts| && LoadsAt(acts, ys, a)
    ensures ys[a + 1].receiver.queue.task.Idle?
  {
    StateKeepsSystem(c, u, d, acts, ys, a);
    assert ys[a + 1] == Session.Step(c, ys[a], acts[a]);
  }

  lemma DeliveredIffHeld(c: Receiver.Config, u: Upload, d: Receiver.Durable, acts: seq<Session.Action>,
                         ys: seq<System>, kept: map<nat, Bytes>, n: nat)
    requires Resumable(c.sha, u, d) && Session.Run(c, acts, ys) && ys[0] == Session.Begin(u, d)
    requires n <= |acts| && Delivers(ys[n].receiver) && ToldApart(c, ys[n])
    ensures DeliversSource(ys[n].upload, kept) <==> HeldKept(ys[n].receiver, kept)
    ensures ys[n].receiver.tally.loaded
  {
    StateKeepsSystem(c, u, d, acts, ys, n);
    DeliversLoaded(c, ys[n]);
    DeliveringWroteSource(c, ys[n]);
    WroteSourceKept(ys[n].upload, ys[n].receiver, kept);
  }

  lemma DeliversLoaded(c: Receiver.Config, y: System)
    requires DurableInv(c, y.receiver) && Delivers(y.receiver)
    ensures y.receiver.tally.loaded
  {
  }

  /**
   * The exact condition for a writer that discards: in a session in which it
   * discarded nothing, what it finalizes is the bytes being sent iff the chunks
   * that the resume entry named when it was loaded were still with the writer.
   */
  lemma FinalizedIsSourceIff(c: Receiver.Config, u: Upload, d: Receiver.Durable, unclosed: bool,
                             acts: seq<Session.Action>, ys: seq<System>, kepts: seq<map<nat, Bytes>>, a: nat, b: nat)
    requires Resumable(c.sha, u, d) && OneSession(c, u, d, unclosed, acts, ys, kepts, a, b)
    requires Delivers(ys[b].receiver) && ToldApart(c, ys[b])
    ensures DeliversSource(ys[b].upload, kepts[b]) <==> HeldKept(ys[a + 1].receiver, kepts[a + 1])
  {
    LoadsIdle(c, u, d, acts, ys, a);
    HeldKeptIffLoadedKept(c, u, d, unclosed, acts, ys, kepts, a + 1, b);
    DeliveredIffHeld(c, u, d, acts, ys, kepts[b], b);
  }

  // ---- when what is loaded is still there ----

  /** What the session counts on, and before it has loaded what it is going to load, is with the writer. */
  predicate RecordKept(r: RState, kept: map<nat, Bytes>) {
    if r.tally.loaded then TaskKept(r, kept) && HeldKept(r, kept) else SavedKept(r, kept)
  }

  /** The load finds nothing alive: the session starts from nothing. */
  predicate StartsAfresh(y: System, a: Session.Action) {
    a.ReceiverActs? && a.r.Load? && y.receiver.phase.Loading? && Live(y.receiver.durable.saved, a.r.now).None?
  }

  /** The writer has discarded something since the last session that started from nothing. */
  predicate DiscardedSince(unclosed: bool, acts: seq<Session.Action>, ys: seq<System>, n: nat)
    requires |ys| == |acts| + 1 && n <= |acts|
  {
    n > 0 && !StartsAfresh(ys[n - 1], acts[n - 1])
    && (DiscardedSince(unclosed, acts, ys, n - 1) || Discards(unclosed, ys[n - 1], acts[n - 1], ys[n]))
  }

  lemma LoadKept(r: RState, now: int, kept: map<nat, Bytes>)
    requires LoadedInv(r) && r.phase.Loading? && (SavedKept(r, kept) || Live(r.durable.saved, now).None?)
    ensures RecordKept(Receiver.LoadStep(r, now), kept)
  {
  }

  lemma ReopenKept(y: System, bytes: Bytes, garbage: Option<Bytes>, kept: map<nat, Bytes>, kept': map<nat, Bytes>)
    requires TaskInv(y.receiver.queue.task, y.receiver.tally.received, y.receiver.durable.disk)
    requires LoadedInv(y.receiver) && RecordKept(y.receiver, kept) && |bytes| == y.upload.meta.size
    requires if y.receiver.queue.task.Writing?
             then kept' - {y.receiver.queue.task.index} == kept - {y.receiver.queue.task.index} else kept' == kept
    ensures RecordKept(Session.Reopened(y, bytes, garbage).receiver, kept')
  {
    var r, r' := y.receiver, Session.Reopened(y, bytes, garbage).receiver;
    assert SavedKept(r, kept);
    if r.queue.task.Writing? && r.durable.saved.Some? {
      var i := r.queue.task.index;
      assert r'.durable.disk - {i} == r.durable.disk - {i};
      SmudgeKept(r, r'.durable.disk, kept, kept', i, r.durable.saved.value.received);
    }
  }

  /** Before the load nothing touches the record. */
  lemma UnloadedFrame(c: Receiver.Config, r: RState, a: Receiver.Action)
    requires LoadedInv(r) && !r.tally.loaded && Internal(a) && !a.Load?
    ensures var r' := Receiver.Step(c, r, a); !r'.tally.loaded && r'.durable == r.durable
  {
  }

  lemma LoadedStays(c: Receiver.Config, r: RState, a: Receiver.Action)
    requires LoadedInv(r) && r.tally.loaded && Internal(a)
    ensures Receiver.Step(c, r, a).tally.loaded
  {
    match a
    case Advance(j, now) => AdvanceEffect(c, r, j, now);
    case CloserFails(j) => CloserFailsEffect(r, j, 0);
    case _ =>
  }

  lemma InternalKeepsRecord(c: Receiver.Config, r: RState, a: Receiver.Action, kept: map<nat, Bytes>,
                            kept': map<nat, Bytes>)
    requires Internal(a) && !a.Load? && DurableInv(c, r) && RecordKept(r, kept)
    requires if !r.queue.task.Writing? then kept' == kept
             else if a.WriteDone? then kept' == kept[r.queue.task.index := r.queue.task.data]
             else if a.TaskFails? then kept' - {r.queue.task.index} == kept - {r.queue.task.index}
             else kept' == kept
    ensures RecordKept(Receiver.Step(c, r, a), kept')
  {
    if r.tally.loaded {
      InternalKept(c, r, a, kept, kept');
      LoadedStays(c, r, a);
    } else {
      UnloadedFrame(c, r, a);
    }
  }

  lemma MessageKeepsRecord(r: RState, msg: Msg, kept: map<nat, Bytes>)
    requires RecordKept(r, kept)
    ensures RecordKept(Receiver.OnMessage(r, msg), kept)
  {
  }

  lemma ReceiverKeepsRecord(c: Receiver.Config, unclosed: bool, y: System, a: Receiver.Action, kept: map<nat, Bytes>,
                            kept': map<nat, Bytes>)
    requires DurableInv(c, y.receiver) && RecordKept(y.receiver, kept) && Internal(a)
    requires var y' := y.(receiver := Receiver.Step(c, y.receiver, a));
             !Discards(unclosed, y, ReceiverActs(a), y') && Keeps(unclosed, y, ReceiverActs(a), y', kept, kept')
    ensures RecordKept(Receiver.Step(c, y.receiver, a), kept')
  {
    if !a.Load? {
      InternalKeepsRecord(c, y.receiver, a, kept, kept');
    } else if y.receiver.phase.Loading? {
      LoadKept(y.receiver, a.now, kept);
    }
  }

  lemma StepKeepsRecord(c: Receiver.Config, unclosed: bool, y: System, a: Session.Action, kept: map<nat, Bytes>,
                        kept': map<nat, Bytes>)
    requires SystemInv(c, y) && RecordKept(y.receiver, kept)
    requires !Discards(unclosed, y, a, Session.Step(c, y, a))
    requires Keeps(unclosed, y, a, Session.Step(c, y, a), kept, kept')
    ensures RecordKept(Session.Step(c, y, a).receiver, kept')
  {
    match a
    case ReceiverActs(r) => if Internal(r) { ReceiverKeepsRecord(c, unclosed, y, r, kept, kept'); }
    case DeliverToReceiver =>
      if y.toReceiver < |y.sender.sent| {
        MessageKeepsRecord(y.receiver, y.sender.sent[y.toReceiver], kept);
      }
    case NewSession(bytes, garbage) => if Reopens(y, a) { ReopenKept(y, bytes, garbage, kept, kept'); }
    case _ =>
  }

  lemma AfreshIsKept(c: Receiver.Config, y: System, a: Session.Action, kept: map<nat, Bytes>)
    requires SystemInv(c, y) && StartsAfresh(y, a)
    ensures RecordKept(Session.Step(c, y, a).receiver, kept)
  {
    LoadKept(y.receiver, a.r.now, kept);
  }

  /** As long as no discard lies behind the last fresh start, everything on record is with the writer. */
  lemma {:induction false} RecordKeptUnlessDiscarded(c: Receiver.Config, u: Upload, d: Receiver.Durable, unclosed: bool,
                                                     acts: seq<Session.Action>, ys: seq<System>,
                                                     kepts: seq<map<nat, Bytes>>, n: nat)
    requires Resumable(c.sha, u, d) && Session.Run(c, acts, ys) && ys[0] == Session.Begin(u, d)
    requires KeptTrace(unclosed, acts, ys, kepts) && n <= |acts|
    requires d.saved.Some? ==> KeptOn(d.saved.value.received, d.disk, kepts[0])
    requires !DiscardedSince(unclosed, acts, ys, n)
    ensures RecordKept(ys[n].receiver, kepts[n])
  {
    if n > 0 {
      StateKeepsSystem(c, u, d, acts, ys, n - 1);
      assert ys[n] == Session.Step(c, ys[n - 1], acts[n - 1]);
      if StartsAfresh(ys[n - 1], acts[n - 1]) {
        AfreshIsKept(c, ys[n - 1], acts[n - 1], kepts[n]);
      } else {
        RecordKeptUnlessDiscarded(c, u, d, unclosed, acts, ys, kepts, n - 1);
        StepKeepsRecord(c, unclosed, ys[n - 1], acts[n - 1], kepts[n - 1], kepts[n]);
      }
    }
  }

  /**
   * Through any number of sessions over a writer that discards: if no discard lies
   * between the last session that started from nothing and the moment it
   * finalizes, what it finalizes is the bytes being sent.
   */
  lemma FinalizedIsSourceUnlessDiscarded(c: Receiver.Config, u: Upload, d: Receiver.Durable, unclosed: bool,
                                         acts: seq<Session.Action>, ys: seq<System>, kepts: seq<map<nat, Bytes>>,
                                         n: nat)
    requires Resumable(c.sha, u, d) && Session.Run(c, acts, ys) && ys[0] == Session.Begin(u, d)
    requires KeptTrace(unclosed, acts, ys, kepts) && n <= |acts|
    requires d.saved.Some? ==> KeptOn(d.saved.value.received, d.disk, kepts[0])
    requires !DiscardedSince(unclosed, acts, ys, n) && Delivers(ys[n].receiver) && ToldApart(c, ys[n])
    ensures DeliversSource(ys[n].upload, kepts[n])
  {
    RecordKeptUnlessDiscarded(c, u, d, unclosed, acts, ys, kepts, n);
    DeliveredIffHeld(c, u, d, acts, ys, kepts[n], n);
  }

  // ---- a run that fails ----

  /** What an aborted session of one chunk leaves: an entry that names the chunk. The writer no longer has it. */
  function AbortedStore(sha: Sha): Receiver.Durable {
    Receiver.Durable(map[0 := [1]], Some(ResumeState({0}, map[0 := HashChunk(sha, [1])], 0)))
  }

  const ONE_CHUNK: Meta := Meta(1, 1, 1)

  /** The next session, in which nothing goes wrong. */
  function ResumedRun(): seq<Session.Action> {
    [SenderActs(SendOffer), DeliverToReceiver, ReceiverActs(Receiver.Confirm(true)), ReceiverActs(Receiver.Load(0)),
     ReceiverActs(Receiver.Open), DeliverToSender, SenderActs(Head), SenderActs(ReadDone), SenderActs(Head),
     SenderActs(FileHashed), DeliverToReceiver, ReceiverActs(Receiver.Advance(0, 0)),
     ReceiverActs(Receiver.Advance(0, 0))]
  }

  lemma ResumedRunAccepts(c: Receiver.Config, ys: seq<System>)
    requires Session.Run(c, ResumedRun(), ys) && ys[0] == Session.Begin(Source([1], ONE_CHUNK), AbortedStore(c.sha))
    ensures var y := ys[5];
            && y.upload == Source([1], ONE_CHUNK) && y.toReceiver == 1 && y.toSender == 0
            && y.sender == BEGIN.(phase := AwaitAccept, sent := [Offer(ONE_CHUNK)])
            && y.receiver.phase.Transferring? && y.receiver.meta == ONE_CHUNK && y.receiver.closers == []
            && y.receiver.out == Receiver.Output([], [Accept(1)])
            && y.receiver.queue == Receiver.Begin(AbortedStore(c.sha)).queue
            && y.receiver.tally == Receiver.Tally(true, 1, {0}, AbortedStore(c.sha).saved.value.hashes, 0)
    ensures forall i :: 0 <= i <= 5 ==> ys[i].receiver.queue.task.Idle?
  {
    var acts := ResumedRun();
    assert ResumePoint({0}) == 1;
    assert ys[1] == Session.Step(c, ys[0], acts[0]);
    assert ys[2] == Session.Step(c, ys[1], acts[1]);
    assert ys[3] == Session.Step(c, ys[2], acts[2]);
    assert ys[4] == Session.Step(c, ys[3], acts[3]);
    assert ys[5] == Session.Step(c, ys[4], acts[4]);
  }

  lemma ResumedRunSends(c: Receiver.Config, ys: seq<System>)
    requires Session.Run(c, ResumedRun(), ys) && ys[0] == Session.Begin(Source([1], ONE_CHUNK), AbortedStore(c.sha))
    ensures forall i :: 5 <= i <= 10 ==> ys[i].receiver == ys[5].receiver
    ensures ys[10].toReceiver == 1 && ys[10].upload == Source([1], ONE_CHUNK)
    ensures ys[10].sender.sent
            == [Offer(ONE_CHUNK), TransferComplete(HashOfHashes(c.sha, [HashChunk(c.sha, [1])]))]
  {
    var acts := ResumedRun();
    ResumedRunAccepts(c, ys);
    assert ReadChunk([1], 0, ONE_CHUNK) == [1];
    assert ys[6] == Session.Step(c, ys[5], acts[5]);
    assert ys[7] == Session.Step(c, ys[6], acts[6]);
    assert ys[8] == Session.Step(c, ys[7], acts[7]);
    assert ys[9] == Session.Step(c, ys[8], acts[8]);
    assert ys[10] == Session.Step(c, ys[9], acts[9]);
  }

  lemma ResumedRunVerifies(c: Receiver.Config, ys: seq<System>)
    requires Session.Run(c, ResumedRun(), ys) && ys[0] == Session.Begin(Source([1], ONE_CHUNK), AbortedStore(c.sha))
    ensures Delivers(ys[13].receiver) && Verified(true) in ys[13].receiver.out.sent
    ensures ys[13].upload == Source([1], ONE_CHUNK)
    ensures forall i :: 0 <= i <= 13 ==> !ys[i].receiver.queue.task.Writing?
  {
    var acts := ResumedRun();
    ResumedRunAccepts(c, ys);
    ResumedRunSends(c, ys);
    var h := HashChunk(c.sha, [1]);
    assert Ordered(map[0 := h], 1) == [h];
    assert ys[11] == Session.Step(c, ys[10], acts[10]);
    assert ys[12] == Session.Step(c, ys[11], acts[11]);
    assert ys[13] == Session.Step(c, ys[12], acts[12]);
    assert ys[13].receiver.closers[0].stage.Finalizing?;
  }

  /** writer.abort() leaves the entry as it is, whatever it does to the chunks. */
  lemma AbortLeavesTheEntry(c: Receiver.Config, y: System, j: nat, now: int, unclosed: bool, kept: map<nat, Bytes>)
    requires j < |y.receiver.closers| && y.receiver.closers[j].stage.AbortingWriter?
    ensures var a := ReceiverActs(Receiver.Advance(j, now));
            var y' := Session.Step(c, y, a);
            y'.receiver.durable == y.receiver.durable && Keeps(unclosed, y, a, y', kept, map[])
  {
  }

  /**
   * An input: a session of one chunk was aborted behind its checkpoint, and its
   * entry is still alive. The next session goes as it should, the file hash
   * matches and the sender is told so, and the writer that finalizes has nothing.
   */
  lemma AliveEntryDeliversNothing(c: Receiver.Config, unclosed: bool, ys: seq<System>, kepts: seq<map<nat, Bytes>>)
    requires Session.Run(c, ResumedRun(), ys) && ys[0] == Session.Begin(Source([1], ONE_CHUNK), AbortedStore(c.sha))
    requires |kepts| == |ys| && forall i :: 0 <= i < |kepts| ==> kepts[i] == map[]
    ensures Resumable(c.sha, ys[0].upload, AbortedStore(c.sha)) && KeptTrace(unclosed, ResumedRun(), ys, kepts)
    ensures Delivers(ys[13].receiver) && Verified(true) in ys[13].receiver.out.sent
    ensures !DeliversSource(ys[13].upload, kepts[13])
  {
    ResumedRunVerifies(c, ys);
    assert 0 !in kepts[13];
  }
}
