/** Runs in which the user of the receiver says no, and nothing else goes wrong. */
module DeclinedRun {
  import opened Basics
  import opened Chunking
  import opened Protocol
  import opened Session
  import opened Sender
  import Receiver
  import opened SessionSafety
  import opened HonestRun

  /** A no, before any abort of the sender has been heard: it is answered, and the session is over. */
  lemma DeclineIsAnswered(c: Receiver.Config, r: RState)
    requires r.phase.Confirming? && !r.flags.pendingAbort
    ensures var r' := Receiver.Step(c, r, Receiver.Confirm(false));
            && r'.out.sent == r.out.sent + [Reject] && r'.out.events == r.out.events
            && r'.phase == Receiver.Settled(Receiver.Resolved)
            && r'.durable == r.durable && r'.tally == r.tally && r'.queue == r.queue && r'.closers == r.closers
            && r'.history == r.history
  {
  }

  /** What happens in such a run: everything honest, but that the answer is no. */
  predicate Declining(a: Session.Action) {
    if a.ReceiverActs? && a.r.Confirm? then !a.r.accepted else Honest(a)
  }

  ghost predicate StuckDeclining(c: Receiver.Config, y: System) {
    forall a :: Declining(a) ==> Session.Step(c, y, a) == y
  }

  predicate AllDeclining(acts: seq<Session.Action>) {
    forall i :: 0 <= i < |acts| ==> Declining(acts[i])
  }

  predicate SenderDeclined(u: Upload, s: Sender.State) {
    && !s.signalled && !s.remoteAborted
    && match s.phase
       case Preparing => s.sent == [] && s.events == []
       case AwaitAccept => s.sent == [Offer(u.meta)] && s.events == []
       case Returned => s.sent == [Offer(u.meta)] && s.events == [Rejected]
       case _ => false
  }

  predicate ReceiverDeclined(r: RState, d: Receiver.Durable) {
    && r.flags == Receiver.Flags(false, false) && r.closers == [] && r.out.events == [] && r.durable == d
    && r.queue == Receiver.Begin(d).queue && r.history.writes == []
    && match r.phase
       case AwaitingOffer => r.out.sent == []
       case Confirming => r.out.sent == []
       case Settled(outcome) => outcome.Resolved? && r.out.sent == [Reject]
       case _ => false
  }

  /** The only way there is: the offer, the no, the rejection. */
  predicate Declines(d: Receiver.Durable, y: System) {
    && SenderDeclined(y.upload, y.sender) && ReceiverDeclined(y.receiver, d)
    && y.toReceiver == (if y.receiver.phase.AwaitingOffer? then 0 else 1) <= |y.sender.sent|
    && y.toSender == (if y.sender.phase.Returned? then 1 else 0) <= |y.receiver.out.sent|
  }

  function StepsLeft(y: System): nat {
    (if y.sender.phase.Preparing? then 2 else if y.sender.phase.AwaitAccept? then 1 else 0)
    + (if y.receiver.phase.AwaitingOffer? then 2 else if y.receiver.phase.Confirming? then 1 else 0)
  }

  predicate Shortens(d: Receiver.Durable, y: System, y': System) {
    Declines(d, y') && y'.upload == y.upload && (y' != y ==> StepsLeft(y') == StepsLeft(y) - 1)
  }

  lemma StepShortens(c: Receiver.Config, d: Receiver.Durable, y: System, a: Session.Action)
    requires Declines(d, y) && Declining(a)
    ensures Shortens(d, y, Session.Step(c, y, a))
  {
    match a
    case SenderActs(s) => SenderActsShortens(c, d, y, s);
    case ReceiverActs(r) => ReceiverActsShortens(c, d, y, r);
    case DeliverToReceiver =>
    case DeliverToSender =>
  }

  lemma SenderActsShortens(c: Receiver.Config, d: Receiver.Durable, y: System, a: Sender.Action)
    requires Declines(d, y) && HonestSenderAction(a)
    ensures Shortens(d, y, y.(sender := Sender.Step(c.sha, y.upload, y.sender, a)))
  {
  }

  lemma ReceiverActsShortens(c: Receiver.Config, d: Receiver.Durable, y: System, a: Receiver.Action)
    requires Declines(d, y) && Declining(ReceiverActs(a))
    ensures Shortens(d, y, y.(receiver := Receiver.Step(c, y.receiver, a)))
  {
  }

  lemma {:induction false} DecliningRunShortens(c: Receiver.Config, u: Upload, d: Receiver.Durable,
                                                acts: seq<Session.Action>, ys: seq<System>)
    requires Session.Run(c, acts, ys) && ys[0] == Session.Begin(u, d) && AllDeclining(acts)
    ensures Declines(d, ys[|acts|]) && ys[|acts|].upload == u
    ensures Effective(ys) ==> StepsLeft(ys[|acts|]) == 4 - |acts|
  {
    if |acts| > 0 {
      var n := |acts| - 1;
      Session.RunPrefix(c, acts, ys);
      EffectivePrefix(acts, ys);
      assert forall i :: 0 <= i < n ==> acts[..n][i] == acts[i];
      DecliningRunShortens(c, u, d, acts[..n], ys[..n + 1]);
      StepShortens(c, d, ys[n], acts[n]);
    }
  }

  lemma EffectivePrefix(acts: seq<Session.Action>, ys: seq<System>)
    requires acts != [] && |ys| == |acts| + 1
    ensures Effective(ys) ==> Effective(ys[..|acts|]) && ys[|acts|] != ys[|acts| - 1]
  {
    var n := |acts| - 1;
    if Effective(ys) {
      forall i: nat | i < n ensures Moves(ys[..|acts|], i) {
        assert Moves(ys, i);
      }
      assert Moves(ys, n);
    }
  }

  function NextStep(y: System): Session.Action {
    if y.sender.phase.Preparing? then SenderActs(SendOffer)
    else if y.receiver.phase.AwaitingOffer? then DeliverToReceiver
    else if y.receiver.phase.Confirming? then ReceiverActs(Receiver.Confirm(false))
    else DeliverToSender
  }

  lemma NextStepMoves(c: Receiver.Config, d: Receiver.Durable, y: System)
    requires Declines(d, y) && StepsLeft(y) > 0
    ensures Declining(NextStep(y)) && Session.Step(c, y, NextStep(y)) != y
  {
  }

  /**
   * Over any store and for every file: a run in which the receiver's user says no
   * and nobody cancels or fails has at most four steps that change anything, and
   * where nothing can move any more the receiver has sent the rejection and
   * resolved, having touched nothing, and the sender has announced the rejection
   * and returned.
   */
  lemma DeclinedRunsEnd(c: Receiver.Config, u: Upload, d: Receiver.Durable, acts: seq<Session.Action>,
                        ys: seq<System>)
    requires Session.Run(c, acts, ys) && ys[0] == Session.Begin(u, d) && AllDeclining(acts)
    ensures Effective(ys) ==> |acts| <= 4
    ensures var s, r := ys[|acts|].sender, ys[|acts|].receiver;
            StuckDeclining(c, ys[|acts|]) ==>
              && s.phase.Returned? && s.events == [Rejected] && s.sent == [Offer(u.meta)]
              && r.phase == Receiver.Settled(Receiver.Resolved) && r.out == Receiver.Output([], [Reject])
              && r.durable == d && r.history.writes == []
  {
    var y := ys[|acts|];
    DecliningRunShortens(c, u, d, acts, ys);
    if StuckDeclining(c, y) && StepsLeft(y) > 0 {
      NextStepMoves(c, d, y);
      assert false;
    }
  }
}
