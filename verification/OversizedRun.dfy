/**
 * Files of 2^32 chunks or more: sendFile makes the array of the digests right
 * behind the accept, and no array is that long. The sender throws without a
 * word, and the receiver is left waiting for a first frame.
 */
module OversizedRun {
  import opened Basics
  import opened Chunking
  import opened HashChain
  import opened ChunkFrame
  import opened Protocol
  import opened Session
  import opened Sender
  import opened SenderSafety
  import Receiver
  import opened ReceiverSafety
  import opened SessionSafety
  import opened HonestRun
  import opened HonestOutcome

  const EMPTY_QUEUE: Receiver.Queue := Receiver.Queue([], 0, 0, false, Receiver.Idle)

  // ---- whatever happens ----

  /** All that an oversized file ever puts on the wire. */
  predicate OnlyOffered(u: Upload, sent: seq<Msg>) {
    sent == [] || sent == [Offer(u.meta)] || sent == [Offer(u.meta), Abort]
  }

  lemma OversizedWire(sha: Sha, u: Upload, s: Sender.State)
    requires SenderInv(sha, u, s) && !Listable(u)
    ensures OnlyOffered(u, s.sent) && s.i == 0 && !Closed(s)
  {
    assert Frames(u, s.resumeFrom, 0) == [];
  }

  /** The receiver has had no frame, in this session or before. */
  predicate Frameless(r: RState, disk: map<nat, Bytes>) {
    r.queue == EMPTY_QUEUE && r.history.writes == [] && r.durable.disk == disk
  }

  lemma InternalKeepsFrameless(c: Receiver.Config, r: RState, a: Receiver.Action, disk: map<nat, Bytes>)
    requires Frameless(r, disk) && Internal(a)
    ensures Frameless(Receiver.Step(c, r, a), disk)
  {
    match a
    case Advance(j, now) => AdvanceEffect(c, r, j, now);
    case CloserFails(j) => CloserFailsEffect(r, j, 0);
    case _ =>
  }

  lemma StepKeepsFrameless(c: Receiver.Config, y: System, a: Session.Action, disk: map<nat, Bytes>)
    requires SystemInv(c, y) && !Listable(y.upload) && Frameless(y.receiver, disk)
    ensures Frameless(Session.Step(c, y, a).receiver, disk)
  {
    match a
    case ReceiverActs(r) =>
      if Internal(r) {
        InternalKeepsFrameless(c, y.receiver, r, disk);
      }
    case DeliverToReceiver => OversizedWire(c.sha, y.upload, y.sender);
    case _ =>
  }

  lemma {:induction false} RunKeepsFrameless(c: Receiver.Config, u: Upload, d: Receiver.Durable,
                                             acts: seq<Session.Action>, ys: seq<System>)
    requires Resumable(c.sha, u, d) && Session.Run(c, acts, ys) && ys[0] == Session.Begin(u, d) && !Listable(u)
    ensures Frameless(ys[|acts|].receiver, d.disk)
  {
    if |acts| > 0 {
      var n := |acts| - 1;
      Session.RunPrefix(c, acts, ys);
      RunKeepsFrameless(c, u, d, acts[..n], ys[..n + 1]);
      RunKeepsSystem(c, u, d, acts[..n], ys[..n + 1]);
      StepKeepsFrameless(c, ys[n], acts[n], d.disk);
    }
  }

  /**
   * Whatever anybody does, and in however many sessions: of a file of 2^32
   * chunks or more nothing is sent but offers and aborts, nothing is written,
   * and nobody announces completion.
   */
  lemma OversizedIsNeverSent(c: Receiver.Config, u: Upload, d: Receiver.Durable, y: System)
    requires Resumable(c.sha, u, d) && Session.Reachable(c, Session.Begin(u, d), y) && u.meta.totalChunks >= U32
    ensures OnlyOffered(y.upload, y.sender.sent)
    ensures y.receiver.history.writes == [] && y.receiver.durable.disk == d.disk
    ensures (forall ok :: Verified(ok) !in y.receiver.out.sent)
            && Complete !in y.receiver.out.events && Complete !in y.sender.events
  {
    var acts, ys :| Session.Run(c, acts, ys) && ys[0] == Session.Begin(u, d) && ys[|acts|] == y;
    RunKeepsFrameless(c, u, d, acts, ys);
    ReachableKeepsSystem(c, u, d, y);
    ReachableKeepsCross(c, u, d, y);
    OversizedWire(c.sha, y.upload, y.sender);
  }

  // ---- an honest run ----

  predicate SenderStalls(u: Upload, s: Sender.State) {
    && (s.phase.Preparing? || s.phase.AwaitAccept? || s.phase.Threw?)
    && !s.signalled && !s.remoteAborted && s.events == []
    && s.sent == if s.phase.Preparing? then [] else [Offer(u.meta)]
  }

  predicate ReceiverStalls(r: RState) {
    && !r.phase.AbortingEarly? && !r.phase.Settled?
    && r.flags == Receiver.Flags(false, false) && r.closers == [] && r.out.events == []
    && r.out.sent == if r.phase.Transferring? then [Accept(r.tally.startFrom)] else []
  }

  /** The only way an honest run can go: offer, confirm, load, open, accept, and no further. */
  predicate Stalls(d: Receiver.Durable, y: System) {
    && SenderStalls(y.upload, y.sender) && ReceiverStalls(y.receiver) && Frameless(y.receiver, d.disk)
    && y.toReceiver == (if y.receiver.phase.AwaitingOffer? then 0 else 1) <= |y.sender.sent|
    && y.toSender == (if y.sender.phase.Threw? then 1 else 0) <= |y.receiver.out.sent|
  }

  /** The steps still to come, exactly. */
  function StepsLeft(y: System): nat {
    (if y.sender.phase.Preparing? then 2 else if y.sender.phase.AwaitAccept? then 1 else 0)
    + match y.receiver.phase
      case AwaitingOffer => 4
      case Confirming => 3
      case Loading => 2
      case Opening => 1
      case _ => 0
  }

  /** A step that does anything is one step less to come. */
  predicate Shortens(d: Receiver.Durable, y: System, y': System) {
    Stalls(d, y') && y'.upload == y.upload && (y' != y ==> StepsLeft(y') == StepsLeft(y) - 1)
  }

  lemma SenderActsShortens(c: Receiver.Config, d: Receiver.Durable, y: System, a: Sender.Action)
    requires Stalls(d, y) && HonestSenderAction(a)
    ensures Shortens(d, y, y.(sender := Sender.Step(c.sha, y.upload, y.sender, a)))
  {
  }

  lemma ReceiverActsShortens(c: Receiver.Config, d: Receiver.Durable, y: System, a: Receiver.Action)
    requires Stalls(d, y) && HonestReceiverAction(a)
    ensures Shortens(d, y, y.(receiver := Receiver.Step(c, y.receiver, a)))
  {
  }

  lemma StepShortens(c: Receiver.Config, d: Receiver.Durable, y: System, a: Session.Action)
    requires Stalls(d, y) && Honest(a) && !Listable(y.upload)
    ensures Shortens(d, y, Session.Step(c, y, a))
  {
    match a
    case SenderActs(s) => SenderActsShortens(c, d, y, s);
    case ReceiverActs(r) => ReceiverActsShortens(c, d, y, r);
    case DeliverToReceiver =>
    case DeliverToSender =>
  }

  lemma {:induction false} HonestRunShortens(c: Receiver.Config, u: Upload, d: Receiver.Durable,
                                             acts: seq<Session.Action>, ys: seq<System>)
    requires Session.Run(c, acts, ys) && ys[0] == Session.Begin(u, d) && AllHonest(acts) && !Listable(u)
    ensures Stalls(d, ys[|acts|]) && ys[|acts|].upload == u
    ensures Effective(ys) ==> StepsLeft(ys[|acts|]) == 6 - |acts|
  {
    if |acts| > 0 {
      var n := |acts| - 1;
      Session.RunPrefix(c, acts, ys);
      HonestPrefix(acts, ys);
      HonestRunShortens(c, u, d, acts[..n], ys[..n + 1]);
      StepShortens(c, d, ys[n], acts[n]);
    }
  }

  /** The step that is next, as long as there is one. */
  function NextStep(y: System): Session.Action {
    if y.sender.phase.Preparing? then SenderActs(SendOffer)
    else
      match y.receiver.phase
      case AwaitingOffer => DeliverToReceiver
      case Confirming => ReceiverActs(Receiver.Confirm(true))
      case Loading => ReceiverActs(Receiver.Load(0))
      case Opening => ReceiverActs(Receiver.Open)
      case _ => DeliverToSender
  }

  lemma NextStepMoves(c: Receiver.Config, d: Receiver.Durable, y: System)
    requires Stalls(d, y) && StepsLeft(y) > 0
    ensures Honest(NextStep(y)) && Session.Step(c, y, NextStep(y)) != y
  {
  }

  /**
   * Over any store, and in every interleaving: an honest run of a file of 2^32
   * chunks or more has at most six steps that change anything, and where it
   * stops the sender has thrown behind its offer without an event, and the
   * receiver has accepted, has written nothing, and is still transferring.
   */
  lemma OversizedRunsStall(c: Receiver.Config, u: Upload, d: Receiver.Durable, acts: seq<Session.Action>,
                           ys: seq<System>)
    requires Session.Run(c, acts, ys) && ys[0] == Session.Begin(u, d) && AllHonest(acts)
    requires u.meta.totalChunks >= U32
    ensures Effective(ys) ==> |acts| <= 6
    ensures var s, r := ys[|acts|].sender, ys[|acts|].receiver;
            Stuck(c, ys[|acts|]) ==>
              && s.phase.Threw? && s.sent == [Offer(u.meta)] && s.events == []
              && r.phase.Transferring? && r.out == Receiver.Output([], [Accept(r.tally.startFrom)])
              && r.history.writes == [] && r.durable.disk == d.disk
  {
    var y := ys[|acts|];
    HonestRunShortens(c, u, d, acts, ys);
    if Stuck(c, y) && StepsLeft(y) > 0 {
      NextStepMoves(c, d, y);
      assert false;
    }
  }

  /** Where an honest run stops, the receiver has come to an end iff the file has fewer than 2^32 chunks. */
  lemma HonestRunEndsIff(c: Receiver.Config, u: Upload, d: Receiver.Durable, now: int, y: System)
    requires Resumable(c.sha, u, d) && HonestEnd(c, u, d, now, y)
    ensures y.receiver.phase.Settled? <==> u.meta.totalChunks < U32
    ensures Ended(y.sender) && (y.sender.events == [] <==> u.meta.totalChunks >= U32)
  {
    var acts, ys :| AllHonestAt(acts, now) && Session.Run(c, acts, ys) &&
                    ys[0] == Session.Begin(u, d) && ys[|acts|] == y && Stuck(c, y);
    assert forall i :: 0 <= i < |acts| && HonestAt(acts[i], now) ==> Honest(acts[i]);
    if u.meta.totalChunks < U32 {
      HonestRunAdvances(c, u, d, acts, ys);
      StuckMeansDecided(c, y);
      DecidedMeansEnded(c, y);
    } else {
      OversizedRunsStall(c, u, d, acts, ys);
    }
  }

  lemma DecidedMeansEnded(c: Receiver.Config, y: System)
    requires HonestInv(c, y) && Stuck(c, y) && y.receiver.phase.Settled? && !Undecided(y.receiver.closers)
    ensures Ended(y.sender)
  {
    ChannelStuck(c, y);
  }
}
