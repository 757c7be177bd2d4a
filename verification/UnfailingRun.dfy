/**
 * Runs in which nothing fails, though either user may cancel, and the receiver's
 * may decline, at any moment: where such a run can go no further, who has ended
 * and how.
 */
module UnfailingRun {
  import opened Basics
  import opened Chunking
  import opened HashChain
  import opened Protocol
  import opened Session
  import opened Sender
  import opened SenderSafety
  import Receiver
  import opened ReceiverSafety
  import opened SessionSafety
  import opened HonestRun

  /** No storage, digest, channel or clock fails, and nobody opens another session. */
  predicate Unfailing(a: Session.Action) {
    match a
    case SenderActs(s) => !s.Fails? && !s.Deliver?
    case ReceiverActs(r) =>
      || r.Confirm? || r.Load? || r.Open? || r.EarlyAbortDone? || r.Signal?
      || r.StartTask? || r.WriteDone? || r.HashDone? || r.Save? || r.Advance?
    case DeliverToReceiver => true
    case DeliverToSender => true
    case NewSession(_, _) => false
  }

  // ---- why a side has ended ----

  /** The last event, and what it answers to. */
  predicate SenderEnds(s: Sender.State, taken: seq<Msg>) {
    && s.events != []
    && match s.events[|s.events| - 1]
       case Cancelled => s.phase.Returned? && (Abort in s.sent || Abort in taken)
       case Rejected => s.phase.Returned? && Reject in taken
       case Complete => s.phase.Returned? && Verified(true) in taken
       case Error => s.phase.Threw? && Verified(false) in taken
       case _ => false
  }

  /** `taken` are the replies the sender has been handed. */
  predicate SenderWhy(s: Sender.State, taken: seq<Msg>) {
    && (s.phase.Preparing? || s.phase.AwaitAccept? ==> taken == [])
    && (!s.phase.Preparing? ==> s.sent != [])
    && (s.phase.AwaitVerified? ==> Verified(true) !in taken && Verified(false) !in taken)
    && (s.remoteAborted ==> Abort in taken)
    && (Abort in taken ==> s.remoteAborted || Ended(s))
    && (Ended(s) ==> SenderEnds(s, taken))
  }

  /** The last event, if there is one, and what it answers to; `sent` is what the sender has sent. */
  predicate ReceiverEnds(r: RState, sent: seq<Msg>) {
    var events, replies := r.out.events, r.out.sent;
    || (events == [] && replies == [Reject] && r.phase == Receiver.Settled(Receiver.Resolved))
    || (events != []
        && match events[|events| - 1]
           case Cancelled =>
             r.phase == Receiver.Settled(Receiver.Resolved) && (Abort in replies || Abort in sent)
           case Complete => r.phase == Receiver.Settled(Receiver.Resolved) && Verified(true) in replies
           case Error => r.phase == Receiver.Settled(Receiver.Threw) && Verified(false) in replies
           case _ => false)
  }

  /** Each handler that closes the session knows why. */
  predicate CloserWhy(k: Receiver.Closer, r: RState, sent: seq<Msg>) {
    && (k.cause.LocalAbort? ==> Abort in r.out.sent)
    && (k.cause.RemoteAbort? ==> Abort in sent)
    && (r.phase.Transferring? ==> !k.stage.Finished?)
    && match k.stage
       case AwaitQueue(upTo) => upTo <= r.queue.enqueued
       case Digesting(_) => k.cause.Completion?
       case AbortingWriter => k.cause.Completion? ==> Verified(false) in r.out.sent
       case Finished => true
       case _ => k.cause.Completion? ==> Verified(true) in r.out.sent
  }

  predicate ClosersWhy(r: RState, sent: seq<Msg>) {
    forall j :: 0 <= j < |r.closers| ==> CloserWhy(r.closers[j], r, sent)
  }

  /** The receiver has been handed the message that closes the wire. */
  predicate HeardClosing(sent: seq<Msg>, heard: nat) {
    exists j :: 0 <= j < heard && j < |sent| && IsControl(sent[j])
  }

  predicate Starting(p: Receiver.Phase) {
    p.Confirming? || p.Loading? || p.Opening?
  }

  predicate ReceiverWhy(r: RState, sent: seq<Msg>, heard: nat) {
    && !r.queue.failed
    && (r.flags.pendingAbort || r.phase.AbortingEarly? ==> Abort in sent)
    && (r.phase.Transferring? ==> !r.flags.pendingAbort)
    && (HeardClosing(sent, heard) && Starting(r.phase) ==> r.flags.pendingAbort)
    && (HeardClosing(sent, heard) && r.phase.Transferring? ==> r.closers != [])
    && (Abort in r.out.sent && r.phase.Transferring? ==> r.closers != [])
    && (r.phase.Settled? ==> ReceiverEnds(r, sent))
    && ClosersWhy(r, sent)
  }

  predicate WhyInv(y: System) {
    && y.toSender <= |y.receiver.out.sent|
    && SenderWhy(y.sender, y.receiver.out.sent[..y.toSender])
    && ReceiverWhy(y.receiver, y.sender.sent, y.toReceiver)
  }

  // ---- the sender's steps ----

  lemma BailWhy(s: Sender.State, taken: seq<Msg>)
    requires SenderWhy(s, taken) && IsCancelled(s) && !Ended(s)
    ensures SenderWhy(Bail(s), taken)
  {
    var s' := Bail(s);
    assert s'.events[|s'.events| - 1] == Cancelled;
    assert !s.remoteAborted ==> s'.sent[|s'.sent| - 1] == Abort;
  }

  lemma SenderStepWhy(sha: Sha, u: Upload, s: Sender.State, a: Sender.Action, taken: seq<Msg>)
    requires SenderWhy(s, taken) && !a.Fails? && !a.Deliver? && SenderInv(sha, u, s)
    requires s.phase.HashingFile? ==> Verified(true) !in taken && Verified(false) !in taken
    ensures SenderWhy(Sender.Step(sha, u, s, a), taken)
  {
    match a
    case SignalSeen => if s.phase.AwaitAccept? && s.signalled { BailWhy(s, taken); }
    case Head => if s.phase.LoopHead? && IsCancelled(s) { BailWhy(s, taken); }
    case Drained => if s.phase.Draining? && IsCancelled(s) { BailWhy(s, taken); }
    case _ =>
  }

  lemma TakenGrows(taken: seq<Msg>, msg: Msg)
    ensures forall m :: m in taken + [msg] <==> m in taken || m == msg
  {
  }

  lemma AbortTakenWhy(s: Sender.State, taken: seq<Msg>)
    requires SenderWhy(s, taken) && !s.phase.Preparing?
    ensures SenderWhy(OnAbort(s), taken + [Abort])
  {
    TakenGrows(taken, Abort);
    var s' := OnAbort(s);
    if s' != s && Ended(s') {
      assert s'.events[|s'.events| - 1] == Cancelled;
    }
  }

  lemma AcceptTakenWhy(u: Upload, s: Sender.State, taken: seq<Msg>, k: nat)
    requires SenderWhy(s, taken) && Listable(u) && !s.phase.Preparing?
    ensures SenderWhy(OnAccept(u, s, k), taken + [Accept(k)])
  {
    TakenGrows(taken, Accept(k));
  }

  lemma RejectTakenWhy(u: Upload, s: Sender.State, taken: seq<Msg>)
    requires SenderWhy(s, taken) && !s.phase.Preparing? && !s.phase.AwaitVerified?
    ensures SenderWhy(Sender.OnMessage(u, s, Reject), taken + [Reject])
  {
    TakenGrows(taken, Reject);
  }

  lemma VerifiedTakenWhy(u: Upload, s: Sender.State, taken: seq<Msg>, ok: bool)
    requires SenderWhy(s, taken) && (s.phase.AwaitVerified? || Ended(s))
    ensures SenderWhy(Sender.OnMessage(u, s, Verified(ok)), taken + [Verified(ok)])
  {
    TakenGrows(taken, Verified(ok));
  }

  /** A reply comes where it can: nothing before the offer, a rejection alone, and a verdict behind the completion. */
  lemma RepliesInPlace(c: Receiver.Config, y: System)
    requires SystemInv(c, y) && CrossInv(y) && y.toSender < |y.receiver.out.sent|
    ensures !y.sender.phase.Preparing?
    ensures y.receiver.out.sent[y.toSender].Reject? ==> !y.sender.phase.AwaitVerified?
    ensures y.receiver.out.sent[y.toSender].Verified? ==> y.sender.phase.AwaitVerified? || Ended(y.sender)
    ensures var msg := y.receiver.out.sent[y.toSender]; msg.Accept? || msg.Reject? || msg.Verified? || msg.Abort?
  {
    var msg := y.receiver.out.sent[y.toSender];
    if msg.Verified? {
      assert Closed(y.sender);
      BodyEndsOpen(y.upload, y.sender);
    }
  }

  lemma MessageTakenWhy(u: Upload, s: Sender.State, taken: seq<Msg>, msg: Msg)
    requires SenderWhy(s, taken) && Listable(u) && !s.phase.Preparing?
    requires msg.Accept? || msg.Reject? || msg.Verified? || msg.Abort?
    requires msg.Reject? ==> !s.phase.AwaitVerified?
    requires msg.Verified? ==> s.phase.AwaitVerified? || Ended(s)
    ensures SenderWhy(Sender.OnMessage(u, s, msg), taken + [msg])
  {
    match msg
    case Abort => AbortTakenWhy(s, taken);
    case Accept(k) => AcceptTakenWhy(u, s, taken, k);
    case Reject => RejectTakenWhy(u, s, taken);
    case Verified(ok) => VerifiedTakenWhy(u, s, taken, ok);
  }

  /** Before the completion is on the wire there is no verdict. */
  lemma HashingUnverified(c: Receiver.Config, y: System)
    requires SystemInv(c, y) && CrossInv(y) && y.sender.phase.HashingFile?
    ensures Verified(true) !in y.receiver.out.sent && Verified(false) !in y.receiver.out.sent
  {
    BodyEndsOpen(y.upload, y.sender);
  }

  // ---- the receiver's steps ----

  lemma ClosersFrame(r: RState, r': RState, sent: seq<Msg>)
    requires ClosersWhy(r, sent) && r'.closers == r.closers && r.out.sent <= r'.out.sent
    requires r'.queue.enqueued >= r.queue.enqueued && (r'.phase.Transferring? ==> r.phase.Transferring?)
    ensures ClosersWhy(r', sent)
  {
    forall j | 0 <= j < |r'.closers| ensures CloserWhy(r'.closers[j], r', sent) {
      assert CloserWhy(r.closers[j], r, sent);
    }
  }

  /** The session's own steps in front of the transfer. */
  lemma EarlyStepWhy(c: Receiver.Config, r: RState, a: Receiver.Action, sent: seq<Msg>, heard: nat)
    requires ReceiverWhy(r, sent, heard) && EarlyInv(r)
    requires a.Confirm? || a.Load? || a.EarlyAbortDone?
    ensures ReceiverWhy(Receiver.Step(c, r, a), sent, heard)
  {
    var r' := Receiver.Step(c, r, a);
    if r'.phase.Settled? && !r.phase.Settled? {
      assert r'.out.events == [] || r'.out.events[|r'.out.events| - 1] == Cancelled;
    }
    ClosersFrame(r, r', sent);
  }

  lemma AddLocalWhy(r: RState, sent: seq<Msg>, heard: nat)
    requires ReceiverWhy(r, sent, heard) && r.phase.Transferring?
    ensures ReceiverWhy(Receiver.LocalAbortStep(r), sent, heard)
  {
    var r' := Receiver.LocalAbortStep(r);
    forall j | 0 <= j < |r'.closers| ensures CloserWhy(r'.closers[j], r', sent) {
      assert r'.out.sent[|r.out.sent|] == Abort;
      if j < |r.closers| {
        assert CloserWhy(r.closers[j], r, sent);
      }
    }
  }

  lemma OpenWhy(r: RState, sent: seq<Msg>, heard: nat)
    requires ReceiverWhy(r, sent, heard) && EarlyInv(r)
    ensures ReceiverWhy(Receiver.OpenStep(r), sent, heard)
  {
    if r.phase.Opening? && !r.flags.pendingAbort {
      var r' := r.(phase := Receiver.Transferring, out := Receiver.Send(r.out, Accept(r.tally.startFrom)));
      assert r.closers == [] && r'.out.sent == [Accept(r.tally.startFrom)];
      assert ReceiverWhy(r', sent, heard);
      if r.flags.signalled {
        AddLocalWhy(r', sent, heard);
      }
    }
  }

  lemma SignalWhy(r: RState, sent: seq<Msg>, heard: nat)
    requires ReceiverWhy(r, sent, heard)
    ensures ReceiverWhy(Receiver.SignalStep(r), sent, heard)
  {
    var r' := r.(flags := r.flags.(signalled := true));
    ClosersFrame(r, r', sent);
    if !r.flags.signalled && r.phase.Transferring? {
      AddLocalWhy(r', sent, heard);
    }
  }

  lemma TaskStepWhy(c: Receiver.Config, r: RState, a: Receiver.Action, sent: seq<Msg>, heard: nat)
    requires ReceiverWhy(r, sent, heard) && (a.WriteDone? || a.HashDone? || a.Save?)
    ensures ReceiverWhy(Receiver.Step(c, r, a), sent, heard)
  {
    ClosersFrame(r, Receiver.Step(c, r, a), sent);
  }

  lemma StartTaskWhy(u: Upload, r: RState, sent: seq<Msg>, heard: nat)
    requires ReceiverWhy(r, sent, heard) && PrefixInv(u, r) && QueueInv(u, r)
    ensures ReceiverWhy(Receiver.StartTaskStep(r), sent, heard)
  {
    if r.phase.Transferring? && r.queue.frames != [] && r.queue.task.Idle? {
      StartTaskTakesNext(u, r);
    }
    ClosersFrame(r, Receiver.StartTaskStep(r), sent);
  }

  lemma StageWhy(r: RState, r': RState, sent: seq<Msg>, heard: nat, j: nat, stage: Receiver.Stage)
    requires ReceiverWhy(r, sent, heard) && j < |r.closers|
    requires r'.closers == Receiver.WithStage(r.closers, j, stage)
    requires r'.queue == r.queue && r'.flags == r.flags && r.out.sent <= r'.out.sent
    requires Abort in r'.out.sent ==> Abort in r.out.sent
    requires (r'.phase == r.phase && r'.out.events == r.out.events) || (r'.phase.Settled? && ReceiverEnds(r', sent))
    requires r.phase.Settled? ==> ReceiverEnds(r', sent)
    requires CloserWhy(r'.closers[j], r', sent)
    ensures ReceiverWhy(r', sent, heard)
  {
    forall i | 0 <= i < |r'.closers| ensures CloserWhy(r'.closers[i], r', sent) {
      assert CloserWhy(r.closers[i], r, sent);
    }
  }

  /** A handler settles a transfer that is still going on with the event it has, and otherwise says nothing. */
  lemma FinishWhy(r: RState, sent: seq<Msg>, heard: nat, j: nat, outcome: Receiver.Outcome, event: TransferEvent)
    requires ReceiverWhy(r, sent, heard) && j < |r.closers|
    requires r.phase.Transferring? ==>
               match event
               case Cancelled => outcome.Resolved? && (Abort in r.out.sent || Abort in sent)
               case Complete => outcome.Resolved? && Verified(true) in r.out.sent
               case Error => outcome.Threw? && Verified(false) in r.out.sent
               case _ => false
    ensures ReceiverWhy(Receiver.Finish(r, j, outcome, Some(event)), sent, heard)
  {
    var r' := Receiver.Finish(r, j, outcome, Some(event));
    assert CloserWhy(r.closers[j], r, sent);
    if r.phase.Transferring? {
      assert r'.out.events[|r'.out.events| - 1] == event;
    }
    StageWhy(r, r', sent, heard, j, Receiver.Finished);
  }

  /** The queue has drained: on to the writer, or to the digest, of which nothing is missing. */
  lemma QueueStepWhy(c: Receiver.Config, u: Upload, r: RState, sent: seq<Msg>, heard: nat, j: nat, upTo: nat)
    requires ReceiverWhy(r, sent, heard) && RecvInv(c, u, r) && Listable(u)
    requires j < |r.closers| && r.closers[j].stage == Receiver.AwaitQueue(upTo)
    ensures ReceiverWhy(Receiver.QueueStep(r, j, r.closers[j].cause, upTo), sent, heard)
  {
    var k := r.closers[j];
    assert CloserFits(c, u, r, k) && CloserWhy(k, r, sent);
    if r.queue.done >= upTo {
      if !k.cause.Completion? {
        StageWhy(r, Receiver.QueueStep(r, j, k.cause, upTo), sent, heard, j, Receiver.AbortingWriter);
      } else if Hashable(r.tally.hashes, r.meta.totalChunks) {
        StageWhy(r, Receiver.QueueStep(r, j, k.cause, upTo), sent, heard, j,
                 Receiver.Digesting(Ordered(r.tally.hashes, r.meta.totalChunks)));
      } else {
        NothingMissing(c, u, r, j, upTo);
        StageWhy(r, Receiver.QueueStep(r, j, k.cause, upTo), sent, heard, j, Receiver.Finished);
      }
    }
  }

  /** While the transfer goes on, behind the last frame every digest is there. */
  lemma NothingMissing(c: Receiver.Config, u: Upload, r: RState, j: nat, upTo: nat)
    requires RecvInv(c, u, r) && Listable(u) && !r.queue.failed
    requires j < |r.closers| && r.closers[j].stage == Receiver.AwaitQueue(upTo) && r.closers[j].cause.Completion?
    requires r.queue.done >= upTo && !Hashable(r.tally.hashes, u.meta.totalChunks)
    ensures !r.phase.Transferring?
  {
    assert CloserFits(c, u, r, r.closers[j]);
    if r.phase.Transferring? {
      DrainedMeansAllIn(u, r.queue, r.tally.startFrom, |r.tally.received|, upTo);
      HeldDigestsPresent(c, u, r);
      assert false;
    }
  }

  lemma DigestWhy(c: Receiver.Config, r: RState, sent: seq<Msg>, heard: nat, j: nat, h: string, ordered: seq<string>)
    requires ReceiverWhy(r, sent, heard) && ReplyInv(r) && j < |r.closers| && r.closers[j].cause.Completion?
    ensures ReceiverWhy(Receiver.DigestStep(c, r, j, h, ordered), sent, heard)
  {
    var r' := Receiver.DigestStep(c, r, j, h, ordered);
    assert CloserWhy(r.closers[j], r, sent);
    assert r'.out.sent[|r.out.sent|] == Verified(HashOfHashes(c.sha, ordered) == h);
    StageWhy(r, r', sent, heard, j, r'.closers[j].stage);
  }

  lemma ClosingWhy(c: Receiver.Config, r: RState, sent: seq<Msg>, heard: nat, j: nat, now: int)
    requires ReceiverWhy(r, sent, heard) && j < |r.closers|
    requires !r.closers[j].stage.AwaitQueue? && !r.closers[j].stage.Digesting?
    ensures ReceiverWhy(Receiver.AdvanceStep(c, r, j, now), sent, heard)
  {
    var k, r' := r.closers[j], Receiver.AdvanceStep(c, r, j, now);
    assert CloserWhy(k, r, sent);
    match k.stage
    case AbortingWriter =>
      match k.cause {
        case LocalAbort => FinishWhy(r, sent, heard, j, Receiver.Resolved, Cancelled);
        case RemoteAbort => StageWhy(r, r', sent, heard, j, Receiver.SavingState);
        case Completion(_) => FinishWhy(r, sent, heard, j, Receiver.Threw, Error);
      }
    case SavingState => StageWhy(r, r', sent, heard, j, Receiver.Finishing);
    case Finalizing => StageWhy(r, r', sent, heard, j, Receiver.Clearing);
    case Clearing => StageWhy(r, r', sent, heard, j, Receiver.Finishing);
    case Finishing =>
      FinishWhy(r, sent, heard, j, Receiver.Resolved, if k.cause.Completion? then Complete else Cancelled);
    case Finished =>
  }

  lemma AdvanceWhy(c: Receiver.Config, u: Upload, r: RState, sent: seq<Msg>, heard: nat, j: nat, now: int)
    requires ReceiverWhy(r, sent, heard) && RecvInv(c, u, r) && Listable(u)
    ensures ReceiverWhy(Receiver.AdvanceStep(c, r, j, now), sent, heard)
  {
    if j < |r.closers| {
      var k := r.closers[j];
      assert CloserWhy(k, r, sent);
      if k.stage.AwaitQueue? {
        QueueStepWhy(c, u, r, sent, heard, j, k.stage.upTo);
      } else if k.stage.Digesting? {
        DigestWhy(c, r, sent, heard, j, k.cause.fileHash, k.stage.ordered);
      } else {
        ClosingWhy(c, r, sent, heard, j, now);
      }
    }
  }

  lemma ReceiverStepWhy(c: Receiver.Config, u: Upload, r: RState, a: Receiver.Action, sent: seq<Msg>, heard: nat)
    requires ReceiverWhy(r, sent, heard) && RecvInv(c, u, r) && Listable(u) && Unfailing(ReceiverActs(a))
    ensures ReceiverWhy(Receiver.Step(c, r, a), sent, heard)
  {
    match a
    case Open => OpenWhy(r, sent, heard);
    case Signal => SignalWhy(r, sent, heard);
    case StartTask => StartTaskWhy(u, r, sent, heard);
    case Advance(j, now) => AdvanceWhy(c, u, r, sent, heard, j, now);
    case _ =>
      if a.WriteDone? || a.HashDone? || a.Save? {
        TaskStepWhy(c, r, a, sent, heard);
      } else {
        EarlyStepWhy(c, r, a, sent, heard);
      }
  }

  // ---- deliveries ----

  lemma HeardOne(sent: seq<Msg>, heard: nat)
    requires heard < |sent|
    ensures HeardClosing(sent, heard + 1) <==> HeardClosing(sent, heard) || IsControl(sent[heard])
  {
    if HeardClosing(sent, heard) {
      var j :| 0 <= j < heard && j < |sent| && IsControl(sent[j]);
    }
  }

  /** The sender sends more: what has been heard stays what it was. */
  lemma SentGrows(r: RState, sent: seq<Msg>, sent': seq<Msg>, heard: nat)
    requires ReceiverWhy(r, sent, heard) && sent <= sent' && heard <= |sent|
    ensures ReceiverWhy(r, sent', heard)
  {
    forall j | 0 <= j < |r.closers| ensures CloserWhy(r.closers[j], r, sent') {
      assert CloserWhy(r.closers[j], r, sent);
    }
    if HeardClosing(sent', heard) {
      var j :| 0 <= j < heard && j < |sent'| && IsControl(sent'[j]);
      assert IsControl(sent[j]);
    }
  }

  /** The completion never meets a receiver that has not accepted. */
  lemma CompletionMeetsTransfer(c: Receiver.Config, y: System)
    requires SystemInv(c, y) && y.toReceiver < |y.sender.sent| && y.sender.sent[y.toReceiver].TransferComplete?
    ensures y.receiver.phase.Transferring? || y.receiver.phase.Settled?
  {
    WireAt(c.sha, y.upload, y.sender, y.toReceiver);
  }

  lemma ControlWhy(r: RState, msg: Msg, sent: seq<Msg>, heard: nat)
    requires ReceiverWhy(r, sent, heard) && heard < |sent| && msg == sent[heard] && IsControl(msg)
    requires msg.TransferComplete? ==> r.phase.Transferring? || r.phase.Settled?
    requires !r.phase.AwaitingOffer?
    ensures ReceiverWhy(Receiver.OnMessage(r, msg), sent, heard + 1)
  {
    HeardOne(sent, heard);
    var r' := Receiver.OnMessage(r, msg);
    forall j | 0 <= j < |r'.closers| ensures CloserWhy(r'.closers[j], r', sent) {
      if j < |r.closers| {
        assert CloserWhy(r.closers[j], r, sent);
      }
    }
  }

  lemma PlainWhy(r: RState, msg: Msg, sent: seq<Msg>, heard: nat)
    requires ReceiverWhy(r, sent, heard) && heard < |sent| && msg == sent[heard] && (msg.Offer? || msg.Chunk?)
    requires msg.Offer? ==> !HeardClosing(sent, heard)
    ensures ReceiverWhy(Receiver.OnMessage(r, msg), sent, heard + 1)
  {
    HeardOne(sent, heard);
    ClosersFrame(r, Receiver.OnMessage(r, msg), sent);
  }

  lemma DeliveryWhy(c: Receiver.Config, y: System)
    requires SystemInv(c, y) && y.toReceiver < |y.sender.sent|
    requires ReceiverWhy(y.receiver, y.sender.sent, y.toReceiver)
    ensures ReceiverWhy(Receiver.OnMessage(y.receiver, y.sender.sent[y.toReceiver]), y.sender.sent, y.toReceiver + 1)
  {
    var sent, t := y.sender.sent, y.toReceiver;
    WireAt(c.sha, y.upload, y.sender, t);
    if IsControl(sent[t]) {
      if sent[t].TransferComplete? {
        CompletionMeetsTransfer(c, y);
      }
      ControlWhy(y.receiver, sent[t], sent, t);
    } else {
      PlainWhy(y.receiver, sent[t], sent, t);
    }
  }

  // ---- every step ----

  lemma SenderActsWhy(c: Receiver.Config, y: System, a: Sender.Action)
    requires SystemInv(c, y) && CrossInv(y) && WhyInv(y) && !a.Fails? && !a.Deliver?
    ensures WhyInv(y.(sender := Sender.Step(c.sha, y.upload, y.sender, a)))
  {
    var s' := Sender.Step(c.sha, y.upload, y.sender, a);
    if y.sender.phase.HashingFile? {
      HashingUnverified(c, y);
    }
    SenderStepWhy(c.sha, y.upload, y.sender, a, y.receiver.out.sent[..y.toSender]);
    SentOnlyGrows(c.sha, y.upload, y.sender, a);
    SentGrows(y.receiver, y.sender.sent, s'.sent, y.toReceiver);
  }

  lemma SentOnlyGrows(sha: Sha, u: Upload, s: Sender.State, a: Sender.Action)
    ensures s.sent <= Sender.Step(sha, u, s, a).sent
  {
  }

  lemma ReceiverActsWhy(c: Receiver.Config, y: System, a: Receiver.Action)
    requires SystemInv(c, y) && WhyInv(y) && Listable(y.upload) && Unfailing(ReceiverActs(a))
    ensures WhyInv(y.(receiver := Receiver.Step(c, y.receiver, a)))
  {
    var r' := Receiver.Step(c, y.receiver, a);
    ReceiverStepWhy(c, y.upload, y.receiver, a, y.sender.sent, y.toReceiver);
    StepKeepsMeta(c, y.receiver, a);
    assert r'.out.sent[..y.toSender] == y.receiver.out.sent[..y.toSender];
  }

  lemma DeliverToReceiverWhy(c: Receiver.Config, y: System)
    requires SystemInv(c, y) && WhyInv(y)
    ensures WhyInv(Session.ReceiverGets(y))
  {
    if y.toReceiver < |y.sender.sent| {
      DeliveryWhy(c, y);
      MessageMeta(y.receiver, y.sender.sent[y.toReceiver]);
    }
  }

  lemma DeliverToSenderWhy(c: Receiver.Config, y: System)
    requires SystemInv(c, y) && CrossInv(y) && WhyInv(y) && Listable(y.upload)
    ensures WhyInv(Session.SenderGets(y))
  {
    var replies, t := y.receiver.out.sent, y.toSender;
    if t < |replies| {
      RepliesInPlace(c, y);
      MessageTakenWhy(y.upload, y.sender, replies[..t], replies[t]);
      TakeWhy(c, y, replies[t]);
    }
  }

  lemma TakeWhy(c: Receiver.Config, y: System, msg: Msg)
    requires WhyInv(y) && y.toReceiver <= |y.sender.sent|
    requires y.toSender < |y.receiver.out.sent| && msg == y.receiver.out.sent[y.toSender]
    requires SenderWhy(Sender.OnMessage(y.upload, y.sender, msg), y.receiver.out.sent[..y.toSender] + [msg])
    ensures WhyInv(Session.SenderGets(y))
  {
    var replies, t := y.receiver.out.sent, y.toSender;
    assert replies[..t + 1] == replies[..t] + [msg];
    SentOnlyGrows(c.sha, y.upload, y.sender, Sender.Deliver(msg));
    SentGrows(y.receiver, y.sender.sent, Sender.OnMessage(y.upload, y.sender, msg).sent, y.toReceiver);
  }

  lemma StepWhy(c: Receiver.Config, y: System, a: Session.Action)
    requires SystemInv(c, y) && CrossInv(y) && WhyInv(y) && Listable(y.upload) && Unfailing(a)
    ensures WhyInv(Session.Step(c, y, a))
  {
    match a
    case SenderActs(s) => SenderActsWhy(c, y, s);
    case ReceiverActs(r) => ReceiverActsWhy(c, y, r);
    case DeliverToReceiver => DeliverToReceiverWhy(c, y);
    case DeliverToSender => DeliverToSenderWhy(c, y);
  }

  predicate AllUnfailing(acts: seq<Session.Action>) {
    forall i :: 0 <= i < |acts| ==> Unfailing(acts[i])
  }

  lemma {:induction false} RunWhy(c: Receiver.Config, u: Upload, d: Receiver.Durable, acts: seq<Session.Action>,
                                  ys: seq<System>)
    requires Resumable(c.sha, u, d) && Session.Run(c, acts, ys) && ys[0] == Session.Begin(u, d)
    requires Listable(u) && AllUnfailing(acts)
    ensures WhyInv(ys[|acts|])
  {
    if |acts| > 0 {
      var n := |acts| - 1;
      Session.RunPrefix(c, acts, ys);
      assert forall i :: 0 <= i < n ==> acts[..n][i] == acts[i];
      RunWhy(c, u, d, acts[..n], ys[..n + 1]);
      RunKeepsSystem(c, u, d, acts[..n], ys[..n + 1]);
      RunKeepsCross(c, u, d, acts[..n], ys[..n + 1]);
      StepWhy(c, ys[n], acts[n]);
    }
  }

  // ---- a run that can go no further ----

  /** What is done without either user: everything but a cancellation. */
  predicate Settles(a: Session.Action) {
    Unfailing(a) && a != SenderActs(Signal) && a != ReceiverActs(Receiver.Signal)
  }

  ghost predicate AtRest(c: Receiver.Config, y: System) {
    forall a :: Settles(a) ==> Session.Step(c, y, a) == y
  }

  lemma SenderAtRest(c: Receiver.Config, y: System)
    requires SenderInv(c.sha, y.upload, y.sender) && AtRest(c, y)
    ensures y.sender.phase.AwaitAccept? || y.sender.phase.AwaitVerified? || Ended(y.sender)
  {
    var a := NextSenderStep(y.sender);
    assert Session.Step(c, y, SenderActs(a)) == y;
    assert Sender.Step(c.sha, y.upload, y.sender, a) == y.sender;
    if !y.sender.phase.AwaitAccept? && !y.sender.phase.AwaitVerified? && !Ended(y.sender) {
      SenderCanMove(c.sha, y.upload, y.sender);
    }
  }

  lemma ChannelAtRest(c: Receiver.Config, y: System)
    requires ChannelInv(y) && AtRest(c, y)
    ensures y.toReceiver == |y.sender.sent| && y.toSender == |y.receiver.out.sent|
  {
    assert Session.Step(c, y, DeliverToReceiver) == y;
    assert Session.Step(c, y, DeliverToSender) == y;
  }

  lemma ReceiverAtRest(c: Receiver.Config, y: System, a: Receiver.Action)
    requires AtRest(c, y) && Settles(ReceiverActs(a))
    ensures Receiver.Step(c, y.receiver, a) == y.receiver
  {
    assert Session.Step(c, y, ReceiverActs(a)) == y;
  }

  lemma PhaseAtRest(c: Receiver.Config, y: System)
    requires AtRest(c, y)
    ensures y.receiver.phase.AwaitingOffer? || y.receiver.phase.Transferring? || y.receiver.phase.Settled?
  {
    ReceiverAtRest(c, y, Receiver.Confirm(true));
    ReceiverAtRest(c, y, Receiver.Load(0));
    ReceiverAtRest(c, y, Receiver.Open);
    ReceiverAtRest(c, y, Receiver.EarlyAbortDone);
  }

  lemma QueueAtRest(c: Receiver.Config, y: System)
    requires RecvInv(c, y.upload, y.receiver) && AtRest(c, y) && !y.receiver.queue.failed
    requires y.receiver.phase.Transferring?
    ensures Quiet(y.receiver.queue)
  {
    var r := y.receiver;
    ReceiverAtRest(c, y, NextTaskStep(r.queue));
    if !r.queue.task.Idle? {
      BusyQueueMoves(c, r);
    } else if r.queue.frames != [] {
      IdleQueueMoves(y.upload, r);
    }
  }

  /** With the queue empty the first handler that closes the session can go on. */
  lemma FirstCloserMoves(c: Receiver.Config, u: Upload, r: RState, sent: seq<Msg>)
    requires r.closers != [] && CloserWhy(r.closers[0], r, sent) && r.phase.Transferring?
    requires QueueInv(u, r) && !r.queue.failed && Quiet(r.queue)
    ensures Receiver.AdvanceStep(c, r, 0, 0).closers != r.closers
  {
    assert Receiver.AdvanceStep(c, r, 0, 0).closers[0].stage != r.closers[0].stage;
  }

  lemma TransferNotAtRest(c: Receiver.Config, y: System)
    requires RecvInv(c, y.upload, y.receiver) && WhyInv(y) && y.receiver.phase.Transferring? && y.receiver.closers != []
    ensures !AtRest(c, y)
  {
    if AtRest(c, y) {
      QueueAtRest(c, y);
      assert CloserWhy(y.receiver.closers[0], y.receiver, y.sender.sent);
      FirstCloserMoves(c, y.upload, y.receiver, y.sender.sent);
      ReceiverAtRest(c, y, Receiver.Advance(0, 0));
    }
  }

  lemma ClosedIsHeard(sent: seq<Msg>)
    requires sent != [] && IsControl(sent[|sent| - 1])
    ensures HeardClosing(sent, |sent|)
  {
  }

  lemma AbortIsHeard(sent: seq<Msg>)
    requires Abort in sent
    ensures HeardClosing(sent, |sent|)
  {
    var j :| 0 <= j < |sent| && sent[j] == Abort;
    assert IsControl(sent[j]);
  }

  /** All is delivered and the sender waits for a verdict or is done: the receiver has been told to close. */
  lemma DrainedTransferCloses(c: Receiver.Config, y: System)
    requires SystemInv(c, y) && CrossInv(y) && WhyInv(y) && y.receiver.phase.Transferring?
    requires y.toReceiver == |y.sender.sent| && y.toSender == |y.receiver.out.sent|
    requires y.sender.phase.AwaitAccept? || y.sender.phase.AwaitVerified? || Ended(y.sender)
    ensures y.receiver.closers != []
  {
    var s, replies := y.sender, y.receiver.out.sent;
    assert replies[..y.toSender] == replies;
    if Closed(s) {
      ClosedIsHeard(s.sent);
    } else if Abort in s.sent {
      AbortIsHeard(s.sent);
    } else if Ended(s) {
      assert SenderEnds(s, replies);
      NoVerdictUnclosed(y);
    }
  }

  lemma NoVerdictUnclosed(y: System)
    requires CrossInv(y) && !Closed(y.sender)
    ensures Verified(true) !in y.receiver.out.sent && Verified(false) !in y.receiver.out.sent
  {
  }

  lemma ReceiverEndsAtRest(c: Receiver.Config, y: System)
    requires SystemInv(c, y) && CrossInv(y) && WhyInv(y) && AtRest(c, y)
    ensures y.receiver.phase.Settled?
  {
    SenderAtRest(c, y);
    ChannelAtRest(c, y);
    PhaseAtRest(c, y);
    if y.receiver.phase.Transferring? {
      DrainedTransferCloses(c, y);
      TransferNotAtRest(c, y);
    }
  }

  /** The sender waits for a verdict though it has heard the receiver's abort, and there is no verdict. */
  predicate Abandoned(y: System) {
    && y.sender.phase.AwaitVerified? && y.sender.remoteAborted
    && Abort in y.receiver.out.sent
    && Verified(true) !in y.receiver.out.sent && Verified(false) !in y.receiver.out.sent
  }

  lemma SenderEndsAtRest(c: Receiver.Config, y: System)
    requires SystemInv(c, y) && WhyInv(y) && y.receiver.phase.Settled?
    requires y.toSender == |y.receiver.out.sent|
    requires y.sender.phase.AwaitAccept? || y.sender.phase.AwaitVerified? || Ended(y.sender)
    ensures Ended(y.sender) || Abandoned(y)
  {
    var s, replies := y.sender, y.receiver.out.sent;
    assert replies[..y.toSender] == replies;
    assert ReceiverEnds(y.receiver, s.sent);
    if !Ended(s) {
      NoAbortWhileWaiting(c.sha, y.upload, s);
    }
  }

  lemma NoAbortWhileWaiting(sha: Sha, u: Upload, s: Sender.State)
    requires SenderInv(sha, u, s) && (s.phase.AwaitAccept? || s.phase.AwaitVerified?)
    ensures Abort !in s.sent
  {
    forall j | 0 <= j < |s.sent| ensures s.sent[j] != Abort {
      WireAt(sha, u, s, j);
      if s.sent[j] == Abort {
        WireShape(sha, u, s);
        assert IsControl(s.sent[j]);
        BodyEndsOpen(u, s);
      }
    }
  }

  /**
   * Cancelled by either side or by both, declined or let be, at whatever moments:
   * where a run in which nothing fails can go no further, the receiver has ended
   * and its last event, if any, answers to what was sent and received; and so has
   * the sender, unless it was abandoned: it waits for a verdict that nobody will
   * give, having heard the receiver's abort when it was no longer looking.
   */
  lemma UnfailingRunsEnd(c: Receiver.Config, u: Upload, d: Receiver.Durable, acts: seq<Session.Action>,
                         ys: seq<System>)
    requires Resumable(c.sha, u, d) && Session.Run(c, acts, ys) && ys[0] == Session.Begin(u, d)
    requires Listable(u) && AllUnfailing(acts) && AtRest(c, ys[|acts|])
    ensures var y := ys[|acts|];
            && y.receiver.phase.Settled? && ReceiverEnds(y.receiver, y.sender.sent)
            && (Ended(y.sender) ==> SenderEnds(y.sender, y.receiver.out.sent))
            && (!Ended(y.sender) <==> Abandoned(y))
  {
    var y := ys[|acts|];
    RunWhy(c, u, d, acts, ys);
    RunKeepsSystem(c, u, d, acts, ys);
    RunKeepsCross(c, u, d, acts, ys);
    ReceiverEndsAtRest(c, y);
    SenderAtRest(c, y);
    ChannelAtRest(c, y);
    SenderEndsAtRest(c, y);
    assert y.receiver.out.sent[..y.toSender] == y.receiver.out.sent;
  }
}
