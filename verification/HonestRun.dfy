/**
 * Runs without a cancel, a rejection, a failure or a timeout: every
 * interleaving is finite and ends with both sides agreeing on a verdict.
 */
module HonestRun {
  import opened Basics
  import opened Chunking
  import opened HashChain
  import opened ChunkFrame
  import opened Resume
  import opened Protocol
  import opened Session
  import opened Sender
  import opened SenderSafety
  import Receiver
  import opened ReceiverSafety
  import opened SessionSafety
  import opened SessionTheorems

  predicate HonestSenderAction(a: Sender.Action) {
    a.SendOffer? || a.Head? || a.ReadDone? || a.Drained? || a.FileHashed?
  }

  predicate HonestReceiverAction(a: Receiver.Action) {
    || a == Receiver.Confirm(true) || a.Load? || a.Open?
    || a.StartTask? || a.WriteDone? || a.HashDone? || a.Save? || a.Advance?
  }

  predicate Honest(a: Session.Action) {
    match a
    case SenderActs(s) => HonestSenderAction(s)
    case ReceiverActs(r) => HonestReceiverAction(r)
    case DeliverToReceiver => true
    case DeliverToSender => true
    case NewSession(_, _) => false
  }

  // ---- what an honest run keeps ----

  predicate SenderHonest(s: Sender.State) {
    && !s.signalled && !s.remoteAborted
    && (s.phase.Returned? ==> s.events != [] && s.events[|s.events| - 1] == Complete)
    && (s.phase.Threw? ==> s.events != [] && s.events[|s.events| - 1] == Error)
  }

  predicate Quiet(q: Receiver.Queue) {
    q.frames == [] && q.task.Idle?
  }

  /** No verdict is out yet. */
  predicate Undecided(closers: seq<Receiver.Closer>) {
    closers == [] || closers[0].stage.AwaitQueue? || closers[0].stage.Digesting?
  }

  /** The verdict, once there is one. */
  predicate Positive(r: RState) {
    r.history.matched.Some?
  }

  predicate StageHonest(k: Receiver.Closer, r: RState) {
    && k.cause.Completion?
    && match k.stage
       case AwaitQueue(_) => true
       case Digesting(_) => Quiet(r.queue)
       case Finished => Quiet(r.queue)
       case AbortingWriter => Quiet(r.queue) && !Positive(r)
       case SavingState => false
       case _ => Quiet(r.queue) && Positive(r)
  }

  predicate PhaseHonest(r: RState) {
    && r.flags == Receiver.Flags(false, false) && !r.queue.failed && !r.phase.AbortingEarly?
    && |r.closers| <= 1
    && (r.closers != [] ==> StageHonest(r.closers[0], r))
    && (Undecided(r.closers) ==> !Positive(r))
    && (r.phase.Settled? <==> r.closers != [] && r.closers[0].stage.Finished?)
    && (r.phase.Settled? ==> (if Positive(r) then Complete else Error) in r.out.events)
    && r.out.sent == (if r.phase.Transferring? || r.phase.Settled? then [Accept(r.tally.startFrom)] else [])
                   + (if Undecided(r.closers) then [] else [Verified(Positive(r))])
  }

  predicate HandshakeHonest(y: System) {
    var s := y.sender;
    && (y.toSender == 0 <==> !s.accepted)
    && (y.toSender == 2 <==> Ended(s))
    && (Ended(s) ==> (s.phase.Returned? <==> Positive(y.receiver)))
    && (y.receiver.closers != [] <==> y.toReceiver == FrameCount(s) + 2)
  }

  predicate HonestInv(c: Receiver.Config, y: System) {
    && SystemInv(c, y)
    && SenderHonest(y.sender)
    && PhaseHonest(y.receiver)
    && HandshakeHonest(y)
  }

  // ---- the measure ----

  function SenderRank(u: Upload, s: Sender.State): nat {
    var left := 3 * Max(0, u.meta.totalChunks - s.i);
    match s.phase
    case Preparing => left + 6
    case AwaitAccept => left + 5
    case LoopHead => left + 4
    case Reading => left + 3
    case Draining => left + 2
    case HashingFile => 3
    case AwaitVerified => 2
    case Returned => 0
    case Threw => 0
  }

  function PhaseRank(p: Receiver.Phase): nat {
    match p
    case Confirming => 4
    case Loading => 3
    case Opening => 2
    case _ => 0
  }

  function TaskRank(t: Receiver.Task): nat {
    match t
    case Idle => 0
    case Writing(_, _) => 4
    case Hashing(_, _) => 3
    case Saving => 2
  }

  function StageRank(closers: seq<Receiver.Closer>): nat {
    if closers == [] then 0 else
      match closers[0].stage
      case AwaitQueue(_) => 6
      case Digesting(_) => 5
      case Finalizing => 3
      case Clearing => 2
      case AbortingWriter => 2
      case Finishing => 1
      case _ => 0
  }

  function ReceiverRank(r: RState): nat {
    PhaseRank(r.phase) + 5 * |r.queue.frames| + TaskRank(r.queue.task) + StageRank(r.closers)
  }

  /** An upper bound on the steps still to come. */
  function Measure(y: System): nat
    requires y.toReceiver <= |y.sender.sent| && y.toSender <= |y.receiver.out.sent|
  {
    10 * SenderRank(y.upload, y.sender) + 8 * (|y.sender.sent| - y.toReceiver)
    + ReceiverRank(y.receiver) + (|y.receiver.out.sent| - y.toSender)
  }

  // ---- the receiver's own steps ----

  /** With every chunk held, every digest is on record. */
  lemma HeldDigestsPresent(c: Receiver.Config, u: Upload, r: RState)
    requires HashesMatch(c.sha, r.tally.received, r.tally.hashes, r.durable.disk)
    requires IsPrefix(r.tally.received, u.meta.totalChunks) && |r.tally.received| == u.meta.totalChunks
    ensures AllPresent(r.tally.hashes, u.meta.totalChunks)
  {
    forall i: nat | i < u.meta.totalChunks ensures i in r.tally.hashes && r.tally.hashes[i] != "" {
      assert i in r.tally.received;
    }
  }

  predicate RecvHonest(c: Receiver.Config, u: Upload, r: RState) {
    RecvInv(c, u, r) && PhaseHonest(r)
  }

  /** An effective step of the receiver pays for what it sends, and leaves the completion handler in place. */
  predicate Pays(r: RState, r': RState) {
    && (r' != r ==> ReceiverRank(r') + |r'.out.sent| < ReceiverRank(r) + |r.out.sent|)
    && (r'.closers != [] <==> r.closers != [])
  }

  predicate Goes(r: RState, r': RState) {
    PhaseHonest(r') && Pays(r, r') && (!Undecided(r.closers) ==> Positive(r') == Positive(r))
  }

  lemma TaskStepGoes(c: Receiver.Config, u: Upload, r: RState, a: Receiver.Action)
    requires PhaseHonest(r) && (a.WriteDone? || a.HashDone? || a.Save?)
    ensures Goes(r, Receiver.Step(c, r, a))
  {
  }

  lemma StartTaskGoes(c: Receiver.Config, u: Upload, r: RState)
    requires RecvHonest(c, u, r)
    ensures Goes(r, Receiver.StartTaskStep(r))
  {
    if r.phase.Transferring? && r.queue.frames != [] && r.queue.task.Idle? {
      StartTaskTakesNext(u, r);
    }
  }

  lemma EarlyStepGoes(c: Receiver.Config, r: RState, a: Receiver.Action)
    requires PhaseHonest(r) && EarlyInv(r) && (a == Receiver.Confirm(true) || a.Load? || a.Open?)
    ensures Goes(r, Receiver.Step(c, r, a))
  {
  }

  /** The captured queue has drained: the whole file is in and nothing is left to do on it. */
  lemma DrainedMeansAllIn(u: Upload, q: Receiver.Queue, from: nat, k: nat, upTo: nat)
    requires QueueFits(u, q, from, k) && !q.failed && k <= u.meta.totalChunks
    requires from + upTo == u.meta.totalChunks && q.done >= upTo
    ensures k == u.meta.totalChunks && Quiet(q)
  {
  }

  lemma QueueStepGoes(c: Receiver.Config, u: Upload, r: RState, upTo: nat)
    requires RecvHonest(c, u, r) && Listable(u)
    requires r.closers != [] && r.closers[0].stage == Receiver.AwaitQueue(upTo)
    ensures Goes(r, Receiver.QueueStep(r, 0, r.closers[0].cause, upTo))
  {
    assert CloserFits(c, u, r, r.closers[0]);
    if r.queue.done >= upTo {
      DrainedMeansAllIn(u, r.queue, r.tally.startFrom, |r.tally.received|, upTo);
      HeldDigestsPresent(c, u, r);
    }
  }

  lemma DigestGoes(c: Receiver.Config, u: Upload, r: RState, ordered: seq<string>)
    requires RecvHonest(c, u, r) && r.closers != [] && r.closers[0].stage == Receiver.Digesting(ordered)
    ensures Goes(r, Receiver.DigestStep(c, r, 0, r.closers[0].cause.fileHash, ordered))
  {
    assert CloserFits(c, u, r, r.closers[0]);
  }

  lemma ClosingGoes(c: Receiver.Config, r: RState, now: int)
    requires PhaseHonest(r) && EarlyInv(r) && r.closers != []
    requires !r.closers[0].stage.AwaitQueue? && !r.closers[0].stage.Digesting?
    ensures Goes(r, Receiver.AdvanceStep(c, r, 0, now))
  {
  }

  lemma AdvanceQueueGoes(c: Receiver.Config, u: Upload, r: RState, now: int)
    requires RecvHonest(c, u, r) && Listable(u) && r.closers != [] && r.closers[0].stage.AwaitQueue?
    ensures Goes(r, Receiver.AdvanceStep(c, r, 0, now))
  {
    var upTo := r.closers[0].stage.upTo;
    QueueStepGoes(c, u, r, upTo);
    assert Receiver.AdvanceStep(c, r, 0, now) == Receiver.QueueStep(r, 0, r.closers[0].cause, upTo);
  }

  lemma AdvanceDigestGoes(c: Receiver.Config, u: Upload, r: RState, now: int)
    requires RecvHonest(c, u, r) && r.closers != [] && r.closers[0].stage.Digesting?
    ensures Goes(r, Receiver.AdvanceStep(c, r, 0, now))
  {
    var k := r.closers[0];
    DigestGoes(c, u, r, k.stage.ordered);
    assert Receiver.AdvanceStep(c, r, 0, now) == Receiver.DigestStep(c, r, 0, k.cause.fileHash, k.stage.ordered);
  }

  lemma AdvanceGoes(c: Receiver.Config, u: Upload, r: RState, j: nat, now: int)
    requires RecvHonest(c, u, r) && Listable(u) && j < |r.closers|
    ensures Goes(r, Receiver.AdvanceStep(c, r, j, now))
  {
    assert j == 0;
    if r.closers[0].stage.AwaitQueue? {
      AdvanceQueueGoes(c, u, r, now);
    } else if r.closers[0].stage.Digesting? {
      AdvanceDigestGoes(c, u, r, now);
    } else {
      ClosingGoes(c, r, now);
    }
  }

  lemma ReceiverStepGoes(c: Receiver.Config, u: Upload, r: RState, a: Receiver.Action)
    requires RecvHonest(c, u, r) && HonestReceiverAction(a) && Listable(u)
    ensures Goes(r, Receiver.Step(c, r, a))
  {
    match a
    case StartTask => StartTaskGoes(c, u, r);
    case Advance(j, now) =>
      if j < |r.closers| {
        AdvanceGoes(c, u, r, j, now);
      }
    case WriteDone => TaskStepGoes(c, u, r, a);
    case HashDone => TaskStepGoes(c, u, r, a);
    case Save(_) => TaskStepGoes(c, u, r, a);
    case _ => EarlyStepGoes(c, r, a);
  }

  // ---- each honest action ----

  /** The action keeps the run honest and, if it does anything, brings its end closer. */
  predicate Advances(c: Receiver.Config, y: System, y': System) {
    HonestInv(c, y') && (y' != y ==> HonestInv(c, y) && Measure(y') < Measure(y))
  }

  lemma HandshakeFrame(y: System, r': RState)
    requires HandshakeHonest(y) && PhaseHonest(y.receiver) && Goes(y.receiver, r')
    requires y.toSender <= |y.receiver.out.sent|
    ensures HandshakeHonest(y.(receiver := r'))
  {
  }

  lemma ReceiverActsAdvances(c: Receiver.Config, y: System, a: Receiver.Action)
    requires HonestInv(c, y) && HonestReceiverAction(a) && Listable(y.upload)
    ensures Advances(c, y, y.(receiver := Receiver.Step(c, y.receiver, a)))
  {
    var r' := Receiver.Step(c, y.receiver, a);
    ReceiverActsKeeps(c, y, a);
    ReceiverStepGoes(c, y.upload, y.receiver, a);
    HandshakeFrame(y, r');
    ReceiverPays(c, y, r');
  }

  lemma ReceiverPays(c: Receiver.Config, y: System, r': RState)
    requires Pays(y.receiver, r') && y.toReceiver <= |y.sender.sent|
    requires y.toSender <= |y.receiver.out.sent| && y.toSender <= |r'.out.sent|
    ensures y.(receiver := r') != y ==> Measure(y.(receiver := r')) < Measure(y)
  {
  }

  /** A step of the honest sender pays ten for a message of eight. */
  predicate SenderPays(u: Upload, s: Sender.State, s': Sender.State) {
    && SenderHonest(s') && s'.accepted == s.accepted
    && (Ended(s') <==> Ended(s)) && (Ended(s) ==> s'.phase == s.phase)
    && (s' != s ==> SenderRank(u, s') < SenderRank(u, s) && |s'.sent| <= |s.sent| + 1)
  }

  lemma LoopStepPays(c: Receiver.Config, u: Upload, s: Sender.State, a: Sender.Action)
    requires SenderInv(c.sha, u, s) && SenderHonest(s) && (a.Head? || a.ReadDone? || a.Drained?)
    ensures SenderPays(u, s, Sender.Step(c.sha, u, s, a))
  {
  }

  lemma SenderStepPays(c: Receiver.Config, u: Upload, s: Sender.State, a: Sender.Action)
    requires SenderInv(c.sha, u, s) && SenderHonest(s) && HonestSenderAction(a)
    ensures SenderPays(u, s, Sender.Step(c.sha, u, s, a))
  {
    if a.Head? || a.ReadDone? || a.Drained? {
      LoopStepPays(c, u, s, a);
    }
  }

  /** The completion is the message behind the last frame, and no step of the sender's own moves it. */
  lemma CompletionStaysPut(c: Receiver.Config, y: System, a: Sender.Action)
    requires SystemInv(c, y) && SenderHonest(y.sender) && HonestSenderAction(a)
    ensures var s' := Sender.Step(c.sha, y.upload, y.sender, a);
            y.toReceiver == FrameCount(s') + 2 <==> y.toReceiver == FrameCount(y.sender) + 2
  {
    SenderStepMeta(c.sha, y.upload, y.sender, a);
    if y.sender.sent != [] {
      WireAt(c.sha, y.upload, y.sender, |y.sender.sent| - 1);
    }
  }

  lemma SenderActsAdvances(c: Receiver.Config, y: System, a: Sender.Action)
    requires HonestInv(c, y) && HonestSenderAction(a)
    ensures Advances(c, y, y.(sender := Sender.Step(c.sha, y.upload, y.sender, a)))
  {
    SenderActsKeeps(c, y, a);
    SenderStepPays(c, y.upload, y.sender, a);
    CompletionStaysPut(c, y, a);
    SenderMoveAdvances(c, y, y.(sender := Sender.Step(c.sha, y.upload, y.sender, a)));
  }

  lemma SenderMoveAdvances(c: Receiver.Config, y: System, y': System)
    requires HonestInv(c, y) && SystemInv(c, y') && SenderPays(y.upload, y.sender, y'.sender)
    requires y' == y.(sender := y'.sender)
    requires y.toReceiver == FrameCount(y'.sender) + 2 <==> y.toReceiver == FrameCount(y.sender) + 2
    ensures Advances(c, y, y')
  {
  }

  lemma OfferGoes(r: RState, m: Meta)
    requires PhaseHonest(r) && r.phase.AwaitingOffer? && EarlyInv(r)
    ensures var r' := Receiver.OnMessage(r, Offer(m));
            PhaseHonest(r') && r'.closers == r.closers && r'.out == r.out && ReceiverRank(r') < ReceiverRank(r) + 8
  {
  }

  lemma FrameGoes(r: RState, frame: Bytes)
    requires PhaseHonest(r) && (r.phase.Transferring? ==> r.closers == [])
    ensures var r' := Receiver.OnMessage(r, Chunk(frame));
            PhaseHonest(r') && r'.closers == r.closers && r'.out == r.out && ReceiverRank(r') < ReceiverRank(r) + 8
  {
  }

  lemma CompletionGoes(r: RState, h: string)
    requires PhaseHonest(r) && r.phase.Transferring? && r.closers == []
    ensures var r' := Receiver.OnMessage(r, TransferComplete(h));
            PhaseHonest(r') && r'.closers != [] && r'.out == r.out && ReceiverRank(r') < ReceiverRank(r) + 8
  {
  }

  /** Whatever the honest sender's wire delivers, the receiver stays honest and has less than eight steps more to do. */
  lemma DeliveredGoes(c: Receiver.Config, y: System)
    requires HonestInv(c, y) && y.toReceiver < |y.sender.sent|
    ensures var r, r' := y.receiver, Receiver.OnMessage(y.receiver, y.sender.sent[y.toReceiver]);
            && PhaseHonest(r') && r'.out == r.out && ReceiverRank(r') < ReceiverRank(r) + 8
            && (r'.closers != [] <==> y.toReceiver + 1 == FrameCount(y.sender) + 2) && Positive(r') == Positive(r)
  {
    var u, s, r, t := y.upload, y.sender, y.receiver, y.toReceiver;
    WireAt(c.sha, u, s, t);
    if t == 0 {
      OfferGoes(r, u.meta);
      if !s.accepted {
        NotAcceptedCounts(c.sha, u, s);
      }
    } else if t <= FrameCount(s) {
      FrameGoes(r, s.sent[t].frame);
    } else {
      ClosingIsCompletion(c, y);
      CompletionGoes(r, s.sent[t].fileHash);
    }
  }

  lemma ClosingIsCompletion(c: Receiver.Config, y: System)
    requires HonestInv(c, y) && FrameCount(y.sender) < y.toReceiver < |y.sender.sent|
    ensures y.sender.sent[y.toReceiver].TransferComplete? && y.receiver.phase.Transferring? && y.receiver.closers == []
  {
    WireAt(c.sha, y.upload, y.sender, y.toReceiver);
    if y.sender.sent[y.toReceiver] == Abort {
      AbortMeansCancelled(c.sha, y.upload, y.sender);
      assert false;
    }
  }

  lemma HandshakeDelivered(y: System, y': System)
    requires HandshakeHonest(y) && y' == y.(receiver := y'.receiver, toReceiver := y.toReceiver + 1)
    requires Positive(y'.receiver) == Positive(y.receiver)
    requires y'.receiver.closers != [] <==> y.toReceiver + 1 == FrameCount(y.sender) + 2
    ensures HandshakeHonest(y')
  {
  }

  lemma DeliveryPays(y: System, y': System)
    requires y.toReceiver < |y.sender.sent| && y.toSender <= |y.receiver.out.sent|
    requires y' == y.(receiver := y'.receiver, toReceiver := y.toReceiver + 1)
    requires y'.receiver.out == y.receiver.out && ReceiverRank(y'.receiver) < ReceiverRank(y.receiver) + 8
    ensures Measure(y') < Measure(y)
  {
  }

  /** The delivery of the next message, by its parts. */
  predicate Delivered(y: System, y': System) {
    && y.toReceiver < |y.sender.sent|
    && y' == y.(receiver := Receiver.OnMessage(y.receiver, y.sender.sent[y.toReceiver]), toReceiver := y.toReceiver + 1)
  }

  lemma DeliveryGoes(c: Receiver.Config, y: System, y': System)
    requires HonestInv(c, y) && Delivered(y, y')
    ensures PhaseHonest(y'.receiver) && HandshakeHonest(y')
    ensures y'.receiver.out == y.receiver.out && ReceiverRank(y'.receiver) < ReceiverRank(y.receiver) + 8
  {
    DeliveredGoes(c, y);
    HandshakeDelivered(y, y');
  }

  lemma DeliveryAdvances(c: Receiver.Config, y: System, y': System)
    requires HonestInv(c, y) && SystemInv(c, y') && PhaseHonest(y'.receiver) && HandshakeHonest(y')
    requires y.toReceiver < |y.sender.sent|
    requires y' == y.(receiver := y'.receiver, toReceiver := y.toReceiver + 1)
    requires y'.receiver.out == y.receiver.out && ReceiverRank(y'.receiver) < ReceiverRank(y.receiver) + 8
    ensures Advances(c, y, y')
  {
    DeliveryPays(y, y');
  }

  lemma DeliverToReceiverAdvances(c: Receiver.Config, y: System)
    requires HonestInv(c, y)
    ensures Advances(c, y, Session.ReceiverGets(y))
  {
    if y.toReceiver < |y.sender.sent| {
      DeliverToReceiverKeeps(c, y);
      DeliveryGoes(c, y, Session.ReceiverGets(y));
      DeliveryAdvances(c, y, Session.ReceiverGets(y));
    }
  }

  /** The two replies of an honest receiver find the sender waiting for them. */
  lemma ReplyIsAwaited(c: Receiver.Config, y: System)
    requires HonestInv(c, y) && y.toSender < |y.receiver.out.sent|
    ensures y.toSender == 0 ==> y.sender.phase.AwaitAccept? && y.receiver.out.sent[0].Accept? && y.sender.i == 0
    ensures y.toSender != 0 ==> y.toSender == 1 && y.sender.phase.AwaitVerified?
                                && y.receiver.out.sent[1] == Verified(Positive(y.receiver)) && y.sender.accepted
  {
    var u, s := y.upload, y.sender;
    if y.toSender == 0 {
      NotAcceptedCounts(c.sha, u, s);
    } else {
      WireAt(c.sha, u, s, |s.sent| - 1);
    }
  }

  lemma AcceptArrives(u: Upload, s: Sender.State, k: nat)
    requires SenderHonest(s) && s.phase.AwaitAccept? && s.i == 0 && FrameCount(s) == 0 && Listable(u)
    ensures var s' := Sender.OnMessage(u, s, Accept(k));
            && SenderHonest(s') && s'.accepted && !Ended(s') && FrameCount(s') == 0 && s'.sent == s.sent
            && SenderRank(u, s') < SenderRank(u, s)
  {
  }

  lemma VerdictArrives(u: Upload, s: Sender.State, ok: bool)
    requires SenderHonest(s) && s.phase.AwaitVerified?
    ensures var s' := Sender.OnMessage(u, s, Verified(ok));
            && SenderHonest(s') && s'.accepted == s.accepted && s'.sent == s.sent
            && Ended(s') && (s'.phase.Returned? <==> ok)
            && FrameCount(s') == FrameCount(s) && SenderRank(u, s') < SenderRank(u, s)
  {
  }

  lemma DeliverToSenderAdvances(c: Receiver.Config, y: System)
    requires HonestInv(c, y) && Listable(y.upload)
    ensures Advances(c, y, Session.SenderGets(y))
  {
    if y.toSender < |y.receiver.out.sent| {
      DeliverToSenderKeeps(c, y);
      ReplyMoves(c, y);
      ReplyAdvances(c, y, Session.SenderGets(y));
    }
  }

  /** The sender after a reply: accepted, and at the end behind the second one. */
  predicate Replied(y: System, s': Sender.State) {
    && SenderHonest(s') && s'.accepted && s'.sent == y.sender.sent && FrameCount(s') == FrameCount(y.sender)
    && (Ended(s') <==> y.toSender + 1 == 2)
    && (Ended(s') ==> (s'.phase.Returned? <==> Positive(y.receiver)))
    && SenderRank(y.upload, s') < SenderRank(y.upload, y.sender)
  }

  lemma ReplyMoves(c: Receiver.Config, y: System)
    requires HonestInv(c, y) && Listable(y.upload) && y.toSender < |y.receiver.out.sent|
    ensures Replied(y, Sender.OnMessage(y.upload, y.sender, y.receiver.out.sent[y.toSender]))
  {
    ReplyIsAwaited(c, y);
    if y.toSender == 0 {
      NotAcceptedCounts(c.sha, y.upload, y.sender);
      AcceptArrives(y.upload, y.sender, y.receiver.out.sent[0].resumeFromChunk);
    } else {
      VerdictArrives(y.upload, y.sender, Positive(y.receiver));
    }
  }

  /** Taking one reply while the wire and the receiver stay put. */
  lemma ReplyAdvances(c: Receiver.Config, y: System, y': System)
    requires HonestInv(c, y) && SystemInv(c, y') && Replied(y, y'.sender)
    requires y' == y.(sender := y'.sender, toSender := y.toSender + 1)
    ensures Advances(c, y, y')
  {
  }

  lemma StepAdvances(c: Receiver.Config, y: System, a: Session.Action)
    requires HonestInv(c, y) && Honest(a) && Listable(y.upload)
    ensures Advances(c, y, Session.Step(c, y, a))
  {
    match a
    case SenderActs(s) => SenderActsAdvances(c, y, s);
    case ReceiverActs(r) => ReceiverActsAdvances(c, y, r);
    case DeliverToReceiver => DeliverToReceiverAdvances(c, y);
    case DeliverToSender => DeliverToSenderAdvances(c, y);
  }

  lemma StepKeepsUpload(c: Receiver.Config, y: System, a: Session.Action)
    requires Honest(a)
    ensures Session.Step(c, y, a).upload == y.upload
  {
  }

  // ---- a run that cannot go on is over on both sides ----

  ghost predicate Stuck(c: Receiver.Config, y: System) {
    forall a :: Honest(a) ==> Session.Step(c, y, a) == y
  }

  /** What the sender would do next, unless it waits for a reply or is done. */
  function NextSenderStep(s: Sender.State): Sender.Action {
    match s.phase
    case LoopHead => Sender.Head
    case Reading => Sender.ReadDone
    case Draining => Sender.Drained
    case HashingFile => Sender.FileHashed
    case _ => Sender.SendOffer
  }

  lemma SenderCanMove(sha: Sha, u: Upload, s: Sender.State)
    requires SenderInv(sha, u, s) && !s.phase.AwaitAccept? && !s.phase.AwaitVerified? && !Ended(s)
    ensures Sender.Step(sha, u, s, NextSenderStep(s)).phase != s.phase
  {
  }

  lemma SenderStuck(c: Receiver.Config, y: System)
    requires SenderInv(c.sha, y.upload, y.sender) && Stuck(c, y)
    ensures y.sender.phase.AwaitAccept? || y.sender.phase.AwaitVerified? || Ended(y.sender)
  {
    var a := NextSenderStep(y.sender);
    assert Session.Step(c, y, SenderActs(a)) == y;
    assert Sender.Step(c.sha, y.upload, y.sender, a) == y.sender;
    if !y.sender.phase.AwaitAccept? && !y.sender.phase.AwaitVerified? && !Ended(y.sender) {
      SenderCanMove(c.sha, y.upload, y.sender);
    }
  }

  lemma ChannelStuck(c: Receiver.Config, y: System)
    requires HonestInv(c, y) && Stuck(c, y)
    ensures y.toReceiver == |y.sender.sent| && y.toSender == |y.receiver.out.sent|
  {
    assert Session.Step(c, y, DeliverToReceiver) == y;
    assert Session.Step(c, y, DeliverToSender) == y;
  }

  lemma ReceiverStuck(c: Receiver.Config, y: System, a: Receiver.Action)
    requires Stuck(c, y) && HonestReceiverAction(a)
    ensures Receiver.Step(c, y.receiver, a) == y.receiver
  {
    assert Session.Step(c, y, ReceiverActs(a)) == y;
  }

  lemma ReceiverPhaseStuck(c: Receiver.Config, y: System)
    requires HonestInv(c, y) && Stuck(c, y)
    ensures y.receiver.phase.AwaitingOffer? || y.receiver.phase.Transferring? || y.receiver.phase.Settled?
  {
    ReceiverStuck(c, y, Receiver.Confirm(true));
    ReceiverStuck(c, y, Receiver.Load(0));
    ReceiverStuck(c, y, Receiver.Open);
  }

  /** What the receiver's queue would do next. */
  function NextTaskStep(q: Receiver.Queue): Receiver.Action {
    match q.task
    case Idle => Receiver.StartTask
    case Writing(_, _) => Receiver.WriteDone
    case Hashing(_, _) => Receiver.HashDone
    case Saving => Receiver.Save(0)
  }

  lemma QueueCanMove(c: Receiver.Config, u: Upload, r: RState)
    requires RecvHonest(c, u, r) && r.phase.Transferring? && !Quiet(r.queue)
    ensures Receiver.Step(c, r, NextTaskStep(r.queue)).queue.task != r.queue.task
  {
    if r.queue.task.Idle? {
      IdleQueueMoves(u, r);
    } else {
      BusyQueueMoves(c, r);
    }
  }

  lemma BusyQueueMoves(c: Receiver.Config, r: RState)
    requires !r.queue.task.Idle?
    ensures Receiver.Step(c, r, NextTaskStep(r.queue)).queue.task != r.queue.task
  {
  }

  lemma IdleQueueMoves(u: Upload, r: RState)
    requires QueueFits(u, r.queue, r.tally.startFrom, |r.tally.received|)
    requires IsPrefix(r.tally.received, u.meta.totalChunks)
    requires r.phase.Transferring? && r.queue.frames != [] && r.queue.task.Idle? && !r.queue.failed
    ensures Receiver.StartTaskStep(r).queue.task != r.queue.task
  {
    StartTaskTakesNext(u, r);
  }

  lemma ReceiverQueueStuck(c: Receiver.Config, y: System)
    requires RecvHonest(c, y.upload, y.receiver) && Stuck(c, y)
    requires y.receiver.phase.Transferring?
    ensures Quiet(y.receiver.queue)
  {
    if !Quiet(y.receiver.queue) {
      QueueCanMove(c, y.upload, y.receiver);
      ReceiverStuck(c, y, NextTaskStep(y.receiver.queue));
    }
  }

  /** With the queue drained behind the whole stream, the completion handler can go on. */
  lemma CloserCanAdvance(c: Receiver.Config, u: Upload, r: RState)
    requires RecvHonest(c, u, r) && r.phase.Transferring? && Quiet(r.queue) && r.closers != []
    requires r.tally.startFrom + r.queue.enqueued == u.meta.totalChunks
    ensures Receiver.AdvanceStep(c, r, 0, 0).closers[0] != r.closers[0]
  {
    assert CloserFits(c, u, r, r.closers[0]);
  }

  /** A drained channel in front of a waiting sender: the receiver has the whole stream, or still has to reply. */
  lemma DrainedChannel(c: Receiver.Config, y: System)
    requires HonestInv(c, y) && y.toReceiver == |y.sender.sent| && y.toSender == |y.receiver.out.sent|
    requires y.sender.phase.AwaitAccept? || y.sender.phase.AwaitVerified? || Ended(y.sender)
    ensures !y.receiver.phase.AwaitingOffer?
    ensures y.receiver.phase.Transferring? ==>
              y.receiver.closers != []
              && y.receiver.tally.startFrom + y.receiver.queue.enqueued == y.upload.meta.totalChunks
  {
    var s := y.sender;
    WireAt(c.sha, y.upload, s, |s.sent| - 1);
    if Ended(s) {
      VerdictMeansClosed(y);
    }
  }

  /** A verdict the sender has taken came from a completion handler. */
  lemma VerdictMeansClosed(y: System)
    requires HandshakeHonest(y) && PhaseHonest(y.receiver) && Ended(y.sender) && y.toSender == |y.receiver.out.sent|
    ensures y.receiver.closers != [] && y.toReceiver == FrameCount(y.sender) + 2
  {
  }

  lemma StuckReceiverIsDone(c: Receiver.Config, y: System)
    requires HonestInv(c, y) && Stuck(c, y)
    ensures y.receiver.phase.Settled?
  {
    SenderStuck(c, y);
    ChannelStuck(c, y);
    ReceiverPhaseStuck(c, y);
    DrainedChannel(c, y);
    if y.receiver.phase.Transferring? {
      TransferCanGoOn(c, y);
    }
  }

  lemma TransferCanGoOn(c: Receiver.Config, y: System)
    requires RecvHonest(c, y.upload, y.receiver)
    requires y.receiver.phase.Transferring? && y.receiver.closers != []
    requires y.receiver.tally.startFrom + y.receiver.queue.enqueued == y.upload.meta.totalChunks
    ensures !Stuck(c, y)
  {
    if Stuck(c, y) {
      ReceiverQueueStuck(c, y);
      CloserCanAdvance(c, y.upload, y.receiver);
      ReceiverStuck(c, y, Receiver.Advance(0, 0));
    }
  }

  /** When nothing honest can happen any more, both sides have announced the same verdict. */
  lemma StuckMeansDecided(c: Receiver.Config, y: System)
    requires HonestInv(c, y) && Stuck(c, y)
    ensures y.receiver.phase.Settled? && !Undecided(y.receiver.closers)
    ensures Verified(Positive(y.receiver)) in y.receiver.out.sent
    ensures (if Positive(y.receiver) then Complete else Error) in y.receiver.out.events
    ensures (if Positive(y.receiver) then Complete else Error) in y.sender.events
  {
    StuckReceiverIsDone(c, y);
    ChannelStuck(c, y);
    assert y.receiver.out.sent[1] == Verified(Positive(y.receiver));
  }

  // ---- the theorem ----

  predicate AllHonest(acts: seq<Session.Action>) {
    forall i :: 0 <= i < |acts| ==> Honest(acts[i])
  }

  predicate Moves(ys: seq<System>, i: nat)
    requires i + 1 < |ys|
  {
    ys[i + 1] != ys[i]
  }

  /** Every action of the run that has these states does something. */
  predicate Effective(ys: seq<System>) {
    forall i: nat :: i + 1 < |ys| ==> Moves(ys, i)
  }

  lemma BeginHonest(c: Receiver.Config, u: Upload, d: Receiver.Durable)
    requires Resumable(c.sha, u, d)
    ensures HonestInv(c, Session.Begin(u, d))
    ensures Measure(Session.Begin(u, d)) == 30 * u.meta.totalChunks + 60
  {
    BeginKeeps(c, u, d);
  }

  lemma HonestPrefix(acts: seq<Session.Action>, ys: seq<System>)
    requires acts != [] && |ys| == |acts| + 1 && AllHonest(acts)
    ensures AllHonest(acts[..|acts| - 1]) && Honest(acts[|acts| - 1])
    ensures Effective(ys) ==> Effective(ys[..|acts|]) && ys[|acts|] != ys[|acts| - 1]
  {
    var n := |acts| - 1;
    assert forall i :: 0 <= i < n ==> acts[..n][i] == acts[i];
    assert acts[n] == acts[|acts| - 1];
    if Effective(ys) {
      forall i: nat | i < n ensures Moves(ys[..|acts|], i) {
        assert Moves(ys, i);
      }
      assert Moves(ys, n);
    }
  }

  lemma {:induction false} HonestRunAdvances(c: Receiver.Config, u: Upload, d: Receiver.Durable,
                                             acts: seq<Session.Action>, ys: seq<System>)
    requires Resumable(c.sha, u, d) && Listable(u) && AllHonest(acts)
    requires Session.Run(c, acts, ys) && ys[0] == Session.Begin(u, d)
    ensures HonestInv(c, ys[|acts|]) && ys[|acts|].upload == u
    ensures Effective(ys) ==> Measure(ys[|acts|]) + |acts| <= 30 * u.meta.totalChunks + 60
  {
    if |acts| == 0 {
      BeginHonest(c, u, d);
    } else {
      var n := |acts| - 1;
      var init := ys[..n + 1];
      Session.RunPrefix(c, acts, ys);
      HonestPrefix(acts, ys);
      HonestRunAdvances(c, u, d, acts[..n], init);
      StepAdvances(c, init[n], acts[n]);
      StepKeepsUpload(c, init[n], acts[n]);
      assert init[n] == ys[n];
    }
  }
}
