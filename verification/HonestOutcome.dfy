/**
 * How an honest run ends: with a success exactly when what it resumed from is a
 * prefix of the source, and otherwise with a mismatch that the next try repeats.
 */
module HonestOutcome {
  import opened Basics
  import opened Chunking
  import opened HashChain
  import opened ChunkFrame
  import opened Resume
  import opened Protocol
  import opened Session
  import opened Sender
  import opened SenderSafety
  import Receiver
  import opened ReceiverSafety
  import opened SessionSafety
  import opened SessionTheorems
  import opened DiskWriters
  import opened HonestRun

  // ---- what a run resumes from ----

  /** The indices of the resume entry, if it is alive when it is loaded. */
  function Base(d: Receiver.Durable, now: int): set<nat> {
    match Live(d.saved, now)
    case None => {}
    case Some(e) => e.received
  }

  /** Every index of s has the source's chunk on disk. */
  predicate HoldsSource(u: Upload, s: set<nat>, disk: map<nat, Bytes>) {
    forall i :: i in s ==> i < u.meta.totalChunks && i in disk && disk[i] == ReadChunk(u.bytes, i, u.meta)
  }

  /** Nothing alive to resume from, or chunks of the very bytes that are about to be sent. */
  predicate StoredIsSource(u: Upload, d: Receiver.Durable, now: int) {
    HoldsSource(u, Base(d, now), d.disk)
  }

  predicate SameOn(s: set<nat>, before: map<nat, Bytes>, after: map<nat, Bytes>) {
    forall i :: i in s ==> i in before && i in after && after[i] == before[i]
  }

  /** Until it is loaded the store is as it was; afterwards its chunks are still there, and all others the source's. */
  predicate LoadedFrom(u: Upload, d: Receiver.Durable, now: int, r: RState) {
    var base := Base(d, now);
    if !r.tally.loaded then r.durable == d
    else
      && base <= r.tally.received
      && SameOn(base, d.disk, r.durable.disk)
      && HoldsSource(u, r.tally.received - base, r.durable.disk)
      && (base != {} && !Positive(r) ==> r.durable.saved.Some? && base <= r.durable.saved.value.received)
  }

  predicate LoadsAt(a: Receiver.Action, now: int) {
    a.Load? ==> a.now == now
  }

  lemma LoadKeepsFrom(c: Receiver.Config, u: Upload, d: Receiver.Durable, now: int, r: RState)
    requires StoreInv(c.sha, d) && LoadedFrom(u, d, now, r) && LoadedInv(r)
    ensures LoadedFrom(u, d, now, Receiver.LoadStep(r, now))
  {
    if r.phase.Loading? {
      var r' := Receiver.LoadStep(r, now);
      assert r'.tally.received == Base(d, now);
      assert r'.tally.received - Base(d, now) == {};
    }
  }

  lemma WriteKeepsFrom(u: Upload, d: Receiver.Durable, now: int, r: RState)
    requires LoadedFrom(u, d, now, r) && LoadedInv(r) && TaskInv(r.queue.task, r.tally.received, r.durable.disk)
    ensures LoadedFrom(u, d, now, Receiver.WriteDoneStep(r))
  {
  }

  lemma HashKeepsFrom(c: Receiver.Config, u: Upload, d: Receiver.Durable, now: int, r: RState)
    requires LoadedFrom(u, d, now, r) && LoadedInv(r) && TaskInv(r.queue.task, r.tally.received, r.durable.disk)
    requires TaskFits(u, r.queue.task, |r.tally.received|)
    ensures LoadedFrom(u, d, now, Receiver.HashDoneStep(c, r))
  {
    if r.queue.task.Hashing? {
      HashEffect(c, r);
      AddedKeepsFrom(u, d, now, r, Receiver.HashDoneStep(c, r), r.queue.task.index);
    }
  }

  lemma HashEffect(c: Receiver.Config, r: RState)
    requires r.queue.task.Hashing?
    ensures var r' := Receiver.HashDoneStep(c, r);
            && r'.tally.loaded == r.tally.loaded && Positive(r') == Positive(r) && r'.durable.disk == r.durable.disk
            && (r'.tally.received == r.tally.received || r'.tally.received == r.tally.received + {r.queue.task.index})
            && (r.durable.saved.Some? ==>
                  r'.durable.saved.Some? && r'.durable.saved.value.received == r.durable.saved.value.received)
  {
  }

  lemma AddedKeepsFrom(u: Upload, d: Receiver.Durable, now: int, r: RState, r': RState, i: nat)
    requires LoadedFrom(u, d, now, r) && r.tally.loaded && r'.tally.loaded && Positive(r') == Positive(r)
    requires r'.durable.disk == r.durable.disk && HoldsSource(u, {i}, r.durable.disk)
    requires r'.tally.received == r.tally.received || r'.tally.received == r.tally.received + {i}
    requires r.durable.saved.Some? ==>
               r'.durable.saved.Some? && r'.durable.saved.value.received == r.durable.saved.value.received
    ensures LoadedFrom(u, d, now, r')
  {
    var base, disk := Base(d, now), r.durable.disk;
    forall x | x in r'.tally.received - base
      ensures x < u.meta.totalChunks && x in disk && disk[x] == ReadChunk(u.bytes, x, u.meta)
    {
      assert x in r.tally.received - base || x in {i};
    }
  }

  lemma AdvanceKeepsFrom(c: Receiver.Config, u: Upload, d: Receiver.Durable, now: int, r: RState, j: nat, at: int)
    requires LoadedFrom(u, d, now, r) && LoadedInv(r) && PhaseHonest(r)
    ensures LoadedFrom(u, d, now, Receiver.AdvanceStep(c, r, j, at))
  {
    AdvanceEffect(c, r, j, at);
    if j < |r.closers| {
      AdvanceStores(c, r, j, at);
    }
  }

  /** Only a positive verdict clears the store, and none is taken back. */
  lemma AdvanceStores(c: Receiver.Config, r: RState, j: nat, at: int)
    requires PhaseHonest(r) && j < |r.closers|
    ensures var r' := Receiver.AdvanceStep(c, r, j, at);
            && (Positive(r) ==> Positive(r'))
            && (r'.durable.saved == r.durable.saved || Positive(r))
  {
  }

  lemma SaveKeepsFrom(u: Upload, d: Receiver.Durable, now: int, r: RState, at: int)
    requires LoadedFrom(u, d, now, r) && LoadedInv(r)
    ensures LoadedFrom(u, d, now, Receiver.SaveStep(r, at))
  {
  }

  lemma FrameKeepsFrom(u: Upload, d: Receiver.Durable, now: int, r: RState, r': RState)
    requires LoadedFrom(u, d, now, r)
    requires r'.tally == r.tally && r'.durable == r.durable && Positive(r') == Positive(r)
    ensures LoadedFrom(u, d, now, r')
  {
  }

  lemma OtherStepsFrame(c: Receiver.Config, r: RState, a: Receiver.Action)
    requires a == Receiver.Confirm(true) || a.Open? || a.StartTask?
    ensures var r' := Receiver.Step(c, r, a);
            r'.tally == r.tally && r'.durable == r.durable && Positive(r') == Positive(r)
  {
  }

  /** What the receiver's steps are judged by here. */
  predicate Placed(u: Upload, r: RState) {
    && LoadedInv(r) && TaskInv(r.queue.task, r.tally.received, r.durable.disk)
    && TaskFits(u, r.queue.task, |r.tally.received|) && PhaseHonest(r)
  }

  lemma HonestIsPlaced(c: Receiver.Config, u: Upload, r: RState)
    requires RecvHonest(c, u, r)
    ensures Placed(u, r)
  {
  }

  lemma PlacedStepKeepsFrom(c: Receiver.Config, u: Upload, d: Receiver.Durable, now: int, r: RState,
                            a: Receiver.Action)
    requires StoreInv(c.sha, d) && LoadedFrom(u, d, now, r) && Placed(u, r)
    requires HonestReceiverAction(a) && LoadsAt(a, now)
    ensures LoadedFrom(u, d, now, Receiver.Step(c, r, a))
  {
    match a
    case Load(_) => LoadKeepsFrom(c, u, d, now, r);
    case WriteDone => WriteKeepsFrom(u, d, now, r);
    case HashDone => HashKeepsFrom(c, u, d, now, r);
    case Save(at) => SaveKeepsFrom(u, d, now, r, at);
    case Advance(j, at) => AdvanceKeepsFrom(c, u, d, now, r, j, at);
    case _ =>
      OtherStepsFrame(c, r, a);
      FrameKeepsFrom(u, d, now, r, Receiver.Step(c, r, a));
  }

  lemma ReceiverKeepsFrom(c: Receiver.Config, u: Upload, d: Receiver.Durable, now: int, r: RState, a: Receiver.Action)
    requires StoreInv(c.sha, d) && LoadedFrom(u, d, now, r) && RecvHonest(c, u, r)
    requires HonestReceiverAction(a) && LoadsAt(a, now)
    ensures LoadedFrom(u, d, now, Receiver.Step(c, r, a))
  {
    HonestIsPlaced(c, u, r);
    PlacedStepKeepsFrom(c, u, d, now, r, a);
  }

  // ---- what the verdict says ----

  /** A verdict is about the digests of the whole file, and says whether they are the sender's. */
  predicate VerdictHonest(c: Receiver.Config, u: Upload, r: RState) {
    !Undecided(r.closers) ==>
      && |r.tally.received| == u.meta.totalChunks && AllPresent(r.tally.hashes, u.meta.totalChunks)
      && (Positive(r) <==> HashOfHashes(c.sha, Ordered(r.tally.hashes, u.meta.totalChunks)) == FileHashOf(c.sha, u))
  }

  /** The completion handler goes from the queue to the digest and nowhere else. */
  lemma QueueStaysUndecided(c: Receiver.Config, u: Upload, r: RState, at: int)
    requires RecvHonest(c, u, r) && Listable(u) && r.closers != [] && r.closers[0].stage.AwaitQueue?
    ensures var r' := Receiver.AdvanceStep(c, r, 0, at); Undecided(r'.closers) && Positive(r') == Positive(r)
  {
    AdvanceQueueGoes(c, u, r, at);
    assert Receiver.AdvanceStep(c, r, 0, at).out.sent == r.out.sent;
  }

  lemma QueueKeepsVerdict(c: Receiver.Config, u: Upload, r: RState, at: int)
    requires RecvHonest(c, u, r) && Listable(u) && r.closers != [] && r.closers[0].stage.AwaitQueue?
    ensures VerdictHonest(c, u, Receiver.AdvanceStep(c, r, 0, at))
  {
    QueueStaysUndecided(c, u, r, at);
  }

  lemma DigestDecides(c: Receiver.Config, u: Upload, r: RState, at: int)
    requires RecvHonest(c, u, r) && r.closers != [] && r.closers[0].stage.Digesting?
    ensures VerdictHonest(c, u, Receiver.AdvanceStep(c, r, 0, at))
  {
    assert CloserFits(c, u, r, r.closers[0]);
    AdvanceEffect(c, r, 0, at);
  }

  lemma ClosingKeepsVerdict(c: Receiver.Config, u: Upload, r: RState, at: int)
    requires VerdictHonest(c, u, r) && PhaseHonest(r) && !Undecided(r.closers)
    ensures VerdictHonest(c, u, Receiver.AdvanceStep(c, r, 0, at))
  {
    AdvanceEffect(c, r, 0, at);
  }

  lemma AdvanceKeepsVerdict(c: Receiver.Config, u: Upload, r: RState, j: nat, at: int)
    requires VerdictHonest(c, u, r) && RecvHonest(c, u, r) && Listable(u)
    ensures VerdictHonest(c, u, Receiver.AdvanceStep(c, r, j, at))
  {
    if j < |r.closers| {
      assert j == 0;
      if r.closers[0].stage.AwaitQueue? {
        QueueKeepsVerdict(c, u, r, at);
      } else if r.closers[0].stage.Digesting? {
        DigestDecides(c, u, r, at);
      } else {
        ClosingKeepsVerdict(c, u, r, at);
      }
    }
  }

  lemma VerdictFrame(c: Receiver.Config, u: Upload, r: RState, r': RState)
    requires VerdictHonest(c, u, r) && Positive(r') == Positive(r)
    requires !Undecided(r'.closers) ==> !Undecided(r.closers) && r'.tally == r.tally
    ensures VerdictHonest(c, u, r')
  {
  }

  /** Once there is a verdict the queue is empty and the tally stands still. */
  lemma TallyStandsStill(c: Receiver.Config, r: RState, a: Receiver.Action)
    requires PhaseHonest(r) && EarlyInv(r) && HonestReceiverAction(a) && !a.Advance?
    ensures var r' := Receiver.Step(c, r, a);
            && r'.closers == r.closers && Positive(r') == Positive(r)
            && (!Undecided(r.closers) ==> r'.tally == r.tally)
  {
  }

  lemma ReceiverKeepsVerdict(c: Receiver.Config, u: Upload, r: RState, a: Receiver.Action)
    requires VerdictHonest(c, u, r) && RecvHonest(c, u, r) && Listable(u) && HonestReceiverAction(a)
    ensures VerdictHonest(c, u, Receiver.Step(c, r, a))
  {
    if a.Advance? {
      AdvanceKeepsVerdict(c, u, r, a.closer, a.now);
    } else {
      TallyStandsStill(c, r, a);
      VerdictFrame(c, u, r, Receiver.Step(c, r, a));
    }
  }

  // ---- every honest action ----

  predicate OutcomeInv(c: Receiver.Config, d: Receiver.Durable, now: int, y: System) {
    LoadedFrom(y.upload, d, now, y.receiver) && VerdictHonest(c, y.upload, y.receiver)
  }

  predicate HonestAt(a: Session.Action, now: int) {
    Honest(a) && (a.ReceiverActs? ==> LoadsAt(a.r, now))
  }

  lemma MessageKeepsOutcome(c: Receiver.Config, u: Upload, d: Receiver.Durable, now: int, r: RState, msg: Msg)
    requires LoadedFrom(u, d, now, r) && VerdictHonest(c, u, r) && PhaseHonest(r) && EarlyInv(r)
    ensures LoadedFrom(u, d, now, Receiver.OnMessage(r, msg)) && VerdictHonest(c, u, Receiver.OnMessage(r, msg))
  {
    var r' := Receiver.OnMessage(r, msg);
    MessageFrame(r, msg);
    FrameKeepsFrom(u, d, now, r, r');
    VerdictFrame(c, u, r, r');
  }

  lemma DeliveryKeepsOutcome(c: Receiver.Config, d: Receiver.Durable, now: int, y: System)
    requires HonestInv(c, y) && OutcomeInv(c, d, now, y) && y.toReceiver < |y.sender.sent|
    ensures OutcomeInv(c, d, now, Session.ReceiverGets(y))
  {
    MessageKeepsOutcome(c, y.upload, d, now, y.receiver, y.sender.sent[y.toReceiver]);
  }

  lemma MessageFrame(r: RState, msg: Msg)
    requires PhaseHonest(r) && EarlyInv(r)
    ensures var r' := Receiver.OnMessage(r, msg);
            && r'.tally == r.tally && r'.durable == r.durable && Positive(r') == Positive(r)
            && (!Undecided(r'.closers) ==> !Undecided(r.closers))
  {
  }

  lemma ReceiverKeepsOutcome(c: Receiver.Config, d: Receiver.Durable, now: int, y: System, a: Receiver.Action)
    requires StoreInv(c.sha, d) && RecvHonest(c, y.upload, y.receiver) && OutcomeInv(c, d, now, y)
    requires HonestReceiverAction(a) && LoadsAt(a, now) && Listable(y.upload)
    ensures OutcomeInv(c, d, now, y.(receiver := Receiver.Step(c, y.receiver, a)))
  {
    ReceiverKeepsFrom(c, y.upload, d, now, y.receiver, a);
    ReceiverKeepsVerdict(c, y.upload, y.receiver, a);
  }

  lemma StepKeepsOutcome(c: Receiver.Config, d: Receiver.Durable, now: int, y: System, a: Session.Action)
    requires StoreInv(c.sha, d) && HonestInv(c, y) && OutcomeInv(c, d, now, y)
    requires HonestAt(a, now) && Listable(y.upload)
    ensures OutcomeInv(c, d, now, Session.Step(c, y, a))
  {
    match a
    case SenderActs(_) =>
    case ReceiverActs(r) => ReceiverKeepsOutcome(c, d, now, y, r);
    case DeliverToReceiver =>
      if y.toReceiver < |y.sender.sent| {
        DeliveryKeepsOutcome(c, d, now, y);
      }
    case DeliverToSender =>
  }

  /** Everything in the run is honest, and what there is to load is loaded at `now`. */
  predicate AllHonestAt(acts: seq<Session.Action>, now: int) {
    forall i :: 0 <= i < |acts| ==> HonestAt(acts[i], now)
  }

  lemma HonestAtPrefix(acts: seq<Session.Action>, now: int)
    requires acts != [] && AllHonestAt(acts, now)
    ensures AllHonest(acts) && AllHonestAt(acts[..|acts| - 1], now) && HonestAt(acts[|acts| - 1], now)
  {
    assert forall i :: 0 <= i < |acts| - 1 ==> acts[..|acts| - 1][i] == acts[i];
  }

  lemma {:induction false} RunKeepsOutcome(c: Receiver.Config, u: Upload, d: Receiver.Durable, now: int,
                                           acts: seq<Session.Action>, ys: seq<System>)
    requires Resumable(c.sha, u, d) && Listable(u) && AllHonestAt(acts, now)
    requires Session.Run(c, acts, ys) && ys[0] == Session.Begin(u, d)
    ensures OutcomeInv(c, d, now, ys[|acts|])
  {
    if |acts| > 0 {
      var n := |acts| - 1;
      Session.RunPrefix(c, acts, ys);
      HonestAtPrefix(acts, now);
      HonestPrefix(acts, ys);
      RunKeepsOutcome(c, u, d, now, acts[..n], ys[..n + 1]);
      HonestRunAdvances(c, u, d, acts[..n], ys[..n + 1]);
      StepKeepsOutcome(c, d, now, ys[n], acts[n]);
    }
  }

  // ---- the outcome ----

  /** With the whole file held, what is on disk is the source iff what was resumed from is. */
  lemma HeldIsSource(c: Receiver.Config, u: Upload, d: Receiver.Durable, now: int, r: RState)
    requires LoadedFrom(u, d, now, r) && r.tally.loaded && PrefixInv(u, r) && DurableInv(c, r)
    requires |r.tally.received| == u.meta.totalChunks
    ensures Covers(r.durable.disk, u.meta.totalChunks)
    ensures OnDisk(r, u.meta.totalChunks) == Chunks(u.bytes, u.meta) <==> StoredIsSource(u, d, now)
  {
    var n := u.meta.totalChunks;
    forall i: nat | i < n ensures i in r.tally.received && i in r.durable.disk {
    }
    var stored, source := OnDisk(r, n), Chunks(u.bytes, u.meta);
    if StoredIsSource(u, d, now) {
      forall i: nat | i < n ensures stored[i] == source[i] {
        assert i in Base(d, now) || i in r.tally.received - Base(d, now);
      }
    } else {
      var i :| i in Base(d, now) && !(i < n && i in d.disk && d.disk[i] == ReadChunk(u.bytes, i, u.meta));
      assert i in r.tally.received;
      assert stored[i] != source[i];
    }
  }

  /** The verdict is about what is on disk. */
  lemma VerdictIsAboutTheDisk(c: Receiver.Config, u: Upload, r: RState)
    requires VerdictHonest(c, u, r) && !Undecided(r.closers) && DurableInv(c, r) && PrefixInv(u, r)
    ensures Covers(r.durable.disk, u.meta.totalChunks)
    ensures Positive(r) <==>
            HashOfHashes(c.sha, HashAll(c.sha, OnDisk(r, u.meta.totalChunks))) == FileHashOf(c.sha, u)
  {
    var n := u.meta.totalChunks;
    forall i: nat | i < n ensures i in r.durable.disk && r.tally.hashes[i] == HashChunk(c.sha, r.durable.disk[i]) {
      assert i in r.tally.received;
    }
    assert Ordered(r.tally.hashes, n) == HashAll(c.sha, InOrder(r.durable.disk, n));
  }

  /** Collisions on the inputs at hand aside, in one direction only. */
  predicate Discerning(c: Receiver.Config, u: Upload, r: RState) {
    DistinguishesFiles(c.sha, OnDisk(r, u.meta.totalChunks), Chunks(u.bytes, u.meta))
  }

  lemma VerdictIffSource(c: Receiver.Config, u: Upload, d: Receiver.Durable, now: int, r: RState)
    requires LoadedFrom(u, d, now, r) && VerdictHonest(c, u, r) && DurableInv(c, r) && PrefixInv(u, r)
    requires !Undecided(r.closers) && r.tally.loaded
    ensures StoredIsSource(u, d, now) ==> Positive(r)
    ensures Positive(r) && Discerning(c, u, r) ==> StoredIsSource(u, d, now)
    ensures StoredIsSource(u, d, now) ==> OnDisk(r, u.meta.totalChunks) == Chunks(u.bytes, u.meta)
  {
    VerdictIsAboutTheDisk(c, u, r);
    HeldIsSource(c, u, d, now, r);
    if Positive(r) && Discerning(c, u, r) {
      FileHashDeterminesChunks(c.sha, OnDisk(r, u.meta.totalChunks), Chunks(u.bytes, u.meta));
    }
  }

  /** A foreign base stays on record, and is loaded again as long as the entry lives. */
  lemma ForeignStays(u: Upload, d: Receiver.Durable, now: int, r: RState, later: int)
    requires LoadedFrom(u, d, now, r) && r.tally.loaded && !Positive(r) && !StoredIsSource(u, d, now)
    ensures r.durable.saved.Some? && Base(d, now) <= r.durable.saved.value.received
    ensures Live(r.durable.saved, later).Some? ==> !StoredIsSource(u, r.durable, later)
  {
    var i :| i in Base(d, now)
             && !(i < u.meta.totalChunks && i in d.disk && d.disk[i] == ReadChunk(u.bytes, i, u.meta));
    assert i in r.durable.disk && r.durable.disk[i] == d.disk[i];
  }

  lemma StuckFacts(c: Receiver.Config, u: Upload, d: Receiver.Durable, now: int, acts: seq<Session.Action>,
                   ys: seq<System>)
    requires Resumable(c.sha, u, d) && Listable(u) && AllHonestAt(acts, now)
    requires Session.Run(c, acts, ys) && ys[0] == Session.Begin(u, d) && Stuck(c, ys[|acts|])
    ensures var r := ys[|acts|].receiver;
            && LoadedFrom(u, d, now, r) && VerdictHonest(c, u, r) && DurableInv(c, r) && PrefixInv(u, r)
            && !Undecided(r.closers) && r.tally.loaded
    ensures var y := ys[|acts|];
            && Verified(Positive(y.receiver)) in y.receiver.out.sent
            && (if Positive(y.receiver) then Complete else Error) in y.receiver.out.events
            && (if Positive(y.receiver) then Complete else Error) in y.sender.events
  {
    if acts != [] {
      HonestAtPrefix(acts, now);
    }
    HonestRunAdvances(c, u, d, acts, ys);
    RunKeepsOutcome(c, u, d, now, acts, ys);
    StuckMeansDecided(c, ys[|acts|]);
  }

  /**
   * Honest-run success. From nothing, from an expired resume state or from one
   * that matches the source, for every file of fewer than 2^32 chunks and every
   * interleaving: when a run in which nobody cancels, declines or fails cannot go
   * on, both sides have announced completion and the chunks on disk are the
   * source. In particular no reply is lost and no digest is found missing. Such a
   * run has at most 30 steps per chunk and 60 more that change anything.
   */
  lemma HonestRunsSucceed(c: Receiver.Config, u: Upload, d: Receiver.Durable, now: int, acts: seq<Session.Action>,
                          ys: seq<System>)
    requires Resumable(c.sha, u, d) && u.meta.totalChunks < U32 && StoredIsSource(u, d, now)
    requires Session.Run(c, acts, ys) && ys[0] == Session.Begin(u, d) && AllHonestAt(acts, now)
    ensures Effective(ys) ==> |acts| <= 30 * u.meta.totalChunks + 60
    ensures var y := ys[|acts|];
            Stuck(c, y) ==>
              && Complete in y.sender.events && Complete in y.receiver.out.events
              && Concat(OnDisk(y.receiver, u.meta.totalChunks)) == u.bytes
  {
    if acts != [] {
      HonestAtPrefix(acts, now);
    }
    HonestRunAdvances(c, u, d, acts, ys);
    if Stuck(c, ys[|acts|]) {
      StuckFacts(c, u, d, now, acts, ys);
      VerdictIffSource(c, u, d, now, ys[|acts|].receiver);
      ChunksConcat(u.bytes, u.meta);
    }
  }

  /** Some honest run from here, loading at `now`, has come to a stop in y. */
  ghost predicate HonestEnd(c: Receiver.Config, u: Upload, d: Receiver.Durable, now: int, y: System) {
    exists acts, ys :: AllHonestAt(acts, now) && Session.Run(c, acts, ys) &&
                       ys[0] == Session.Begin(u, d) && ys[|acts|] == y && Stuck(c, y)
  }

  /**
   * The outcome of every honest run, from any resume state earlier sessions may
   * have left: a run that cannot go on has verified the file iff what it loaded is
   * a prefix of the source. Otherwise both sides have announced the error, the
   * resume entry still names the foreign chunks, and every further try within the
   * lifetime of the entry starts from them again.
   */
  lemma HonestOutcomeIffStoredIsSource(c: Receiver.Config, u: Upload, d: Receiver.Durable, now: int, y: System,
                                       later: int)
    requires Resumable(c.sha, u, d) && u.meta.totalChunks < U32
    requires HonestEnd(c, u, d, now, y) && Discerning(c, u, y.receiver)
    ensures Complete in y.sender.events <==> StoredIsSource(u, d, now)
    ensures Complete in y.receiver.out.events <==> StoredIsSource(u, d, now)
    ensures Verified(true) in y.receiver.out.sent <==> StoredIsSource(u, d, now)
    ensures !StoredIsSource(u, d, now) ==>
              && Verified(false) in y.receiver.out.sent && Error in y.sender.events && Error in y.receiver.out.events
              && y.receiver.durable.saved.Some? && Base(d, now) <= y.receiver.durable.saved.value.received
              && (Live(y.receiver.durable.saved, later).Some? ==> !StoredIsSource(u, y.receiver.durable, later))
  {
    var acts, ys :| AllHonestAt(acts, now) && Session.Run(c, acts, ys) &&
                    ys[0] == Session.Begin(u, d) && ys[|acts|] == y && Stuck(c, y);
    StuckFacts(c, u, d, now, acts, ys);
    VerdictIffSource(c, u, d, now, y.receiver);
    RunKeepsSystem(c, u, d, acts, ys);
    RunKeepsCross(c, u, d, acts, ys);
    if !StoredIsSource(u, d, now) {
      ForeignStays(u, d, now, y.receiver, later);
    }
  }

  // ---- a source that has changed ----

  /** One byte is to be sent, and the store holds an entry of the same file id over another byte. */
  const ONE_BYTE: Meta := Meta(1, 1, 1)

  function ChangedStore(sha: Sha): Receiver.Durable {
    Receiver.Durable(map[0 := [2]], Some(ResumeState({0}, map[0 := HashChunk(sha, [2])], 0)))
  }

  /**
   * An input: the source changed from [2] to [1] behind a resume entry that is
   * still alive. Everything earlier sessions keep holds of the store, and yet
   * every honest run of a sender of [1] over it ends in the mismatch.
   */
  lemma ChangedSourceFails(c: Receiver.Config, y: System)
    ensures var u, d := Source([1], ONE_BYTE), ChangedStore(c.sha);
            && Fits(u) && Resumable(c.sha, u, d) && !StoredIsSource(u, d, 0)
            && (HonestEnd(c, u, d, 0, y) && Discerning(c, u, y.receiver) ==>
                  Error in y.sender.events && Error in y.receiver.out.events && Verified(false) in y.receiver.out.sent)
  {
    var u, d := Source([1], ONE_BYTE), ChangedStore(c.sha);
    ChangedStoreIsResumable(c.sha);
    if HonestEnd(c, u, d, 0, y) && Discerning(c, u, y.receiver) {
      HonestOutcomeIffStoredIsSource(c, u, d, 0, y, 0);
    }
  }

  lemma ChangedStoreIsResumable(sha: Sha)
    ensures var u, d := Source([1], ONE_BYTE), ChangedStore(sha);
            Fits(u) && Resumable(sha, u, d) && !StoredIsSource(u, d, 0)
  {
    var u, d := Source([1], ONE_BYTE), ChangedStore(sha);
    assert 0 in Base(d, 0) && d.disk[0] == [2] && ReadChunk(u.bytes, 0, u.meta) == [1];
  }
}
