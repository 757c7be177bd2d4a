/** How a run in which nothing fails can leave the sender waiting: when the abort has to come, and such a run. */
module AbandonedSender {
  import opened Basics
  import opened Chunking
  import opened Protocol
  import opened Session
  import opened Sender
  import Receiver
  import opened UnfailingRun

  /** The receiver's abort reaches a sender that is hashing the list of the digests. */
  predicate HeardWhileHashing(y: System, a: Session.Action) {
    && a.DeliverToSender? && y.sender.phase.HashingFile?
    && y.toSender < |y.receiver.out.sent| && y.receiver.out.sent[y.toSender] == Abort
  }

  predicate PastTheChecks(s: Sender.State) {
    s.remoteAborted && (s.phase.HashingFile? || s.phase.AwaitVerified?)
  }

  lemma StepPastTheChecks(c: Receiver.Config, y: System, a: Session.Action)
    requires PastTheChecks(Session.Step(c, y, a).sender) && !PastTheChecks(y.sender)
    ensures HeardWhileHashing(y, a)
  {
  }

  /** A sender is abandoned only if the abort reached it between its last check and the completion. */
  lemma {:induction false} AbandonedWhileHashing(c: Receiver.Config, acts: seq<Session.Action>, ys: seq<System>)
    requires Session.Run(c, acts, ys) && !PastTheChecks(ys[0].sender) && PastTheChecks(ys[|acts|].sender)
    ensures exists i :: 0 <= i < |acts| && HeardWhileHashing(ys[i], acts[i])
  {
    var n := |acts| - 1;
    assert ys[n + 1] == Session.Step(c, ys[n], acts[n]);
    if PastTheChecks(ys[n].sender) {
      Session.RunPrefix(c, acts, ys);
      AbandonedWhileHashing(c, acts[..n], ys[..n + 1]);
      var i :| 0 <= i < n && HeardWhileHashing(ys[..n + 1][i], acts[..n][i]);
      assert HeardWhileHashing(ys[i], acts[i]);
    } else {
      StepPastTheChecks(c, ys[n], acts[n]);
    }
  }

  const EMPTY_META: Meta := Meta(0, 1, 0)
  const NO_FILE: Receiver.Durable := Receiver.Durable(map[], None)

  /** An empty file; the receiver's user cancels while the sender hashes the list, and the abort handler is quick. */
  function AbandoningRun(): seq<Session.Action> {
    [SenderActs(SendOffer), DeliverToReceiver, ReceiverActs(Receiver.Confirm(true)), ReceiverActs(Receiver.Load(0)),
     ReceiverActs(Receiver.Open), DeliverToSender, SenderActs(Head), ReceiverActs(Receiver.Signal), DeliverToSender,
     SenderActs(FileHashed), ReceiverActs(Receiver.Advance(0, 0)), ReceiverActs(Receiver.Advance(0, 0)),
     DeliverToReceiver]
  }

  lemma AbandoningRunHashes(c: Receiver.Config, ys: seq<System>)
    requires Session.Run(c, AbandoningRun(), ys) && ys[0] == Session.Begin(Source([], EMPTY_META), NO_FILE)
    ensures var y := ys[7];
            && y.upload == Source([], EMPTY_META) && y.toReceiver == 1 && y.toSender == 1
            && y.sender == BEGIN.(phase := HashingFile, accepted := true, sent := [Offer(EMPTY_META)])
            && y.receiver == Receiver.Begin(NO_FILE).(phase := Receiver.Transferring, meta := EMPTY_META,
                 tally := Receiver.Tally(true, 0, {}, map[], 0), out := Receiver.Output([], [Accept(0)]))
  {
    var acts := AbandoningRun();
    assert ys[1] == Session.Step(c, ys[0], acts[0]);
    assert ys[2] == Session.Step(c, ys[1], acts[1]);
    assert ys[3] == Session.Step(c, ys[2], acts[2]);
    assert ys[4] == Session.Step(c, ys[3], acts[3]);
    assert ys[5] == Session.Step(c, ys[4], acts[4]);
    assert ys[6] == Session.Step(c, ys[5], acts[5]);
    assert ys[7] == Session.Step(c, ys[6], acts[6]);
  }

  lemma AbandoningRunCancels(c: Receiver.Config, ys: seq<System>)
    requires Session.Run(c, AbandoningRun(), ys) && ys[0] == Session.Begin(Source([], EMPTY_META), NO_FILE)
    ensures HeardWhileHashing(ys[8], AbandoningRun()[8])
    ensures var y := ys[10];
            && y.sender.phase.AwaitVerified? && y.sender.remoteAborted && |y.sender.sent| == 2
            && y.sender.sent[1].TransferComplete? && y.toReceiver == 1 && y.toSender == 2
            && y.receiver.phase.Transferring? && y.receiver.queue == Receiver.Begin(NO_FILE).queue
            && y.receiver.closers == [Receiver.Closer(Receiver.LocalAbort, Receiver.AwaitQueue(0))]
            && y.receiver.out == Receiver.Output([], [Accept(0), Abort])
  {
    var acts := AbandoningRun();
    AbandoningRunHashes(c, ys);
    assert ys[8] == Session.Step(c, ys[7], acts[7]);
    assert ys[9] == Session.Step(c, ys[8], acts[8]);
    assert ys[10] == Session.Step(c, ys[9], acts[9]);
  }

  lemma AbandoningRunSettles(c: Receiver.Config, ys: seq<System>)
    requires Session.Run(c, AbandoningRun(), ys) && ys[0] == Session.Begin(Source([], EMPTY_META), NO_FILE)
    ensures var y, r := ys[13], ys[13].receiver;
            && r.phase.Settled? && r.out == Receiver.Output([Cancelled], [Accept(0), Abort])
            && y.sender == ys[10].sender && y.toReceiver == 2 && y.toSender == 2
  {
    var acts := AbandoningRun();
    AbandoningRunCancels(c, ys);
    assert ys[11] == Session.Step(c, ys[10], acts[10]);
    assert ys[12] == Session.Step(c, ys[11], acts[11]);
    assert ys[13] == Session.Step(c, ys[12], acts[12]);
  }

  /**
   * An input for the exception: nothing fails, the receiver has announced the
   * cancellation, everything has been delivered, and the sender waits for a
   * verdict until its timeout.
   */
  lemma SenderCanBeAbandoned(c: Receiver.Config, ys: seq<System>)
    requires Session.Run(c, AbandoningRun(), ys) && ys[0] == Session.Begin(Source([], EMPTY_META), NO_FILE)
    ensures AllUnfailing(AbandoningRun()) && HeardWhileHashing(ys[8], AbandoningRun()[8])
    ensures Abandoned(ys[13]) && ys[13].receiver.out.events == [Cancelled]
    ensures ys[13].toReceiver == |ys[13].sender.sent| && ys[13].toSender == |ys[13].receiver.out.sent|
  {
    AbandoningRunCancels(c, ys);
    AbandoningRunSettles(c, ys);
  }
}
