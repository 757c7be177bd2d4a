/** What a completed session leaves in the resume store: nothing, whatever else goes on behind the announcement. */
module CompletedSession {
  import opened Basics
  import opened Chunking
  import opened HashChain
  import opened Protocol
  import opened Session
  import opened Sender
  import opened SenderSafety
  import Receiver
  import opened ReceiverSafety
  import opened SessionSafety
  import opened SessionTheorems

  /** The queue has handled the last frame of the file, or stopped. */
  predicate DoneAll(u: Upload, r: RState) {
    r.queue.failed || r.tally.startFrom + r.queue.done >= u.meta.totalChunks
  }

  /** Nothing more will be taken up. */
  predicate AtEnd(q: Receiver.Queue) {
    q.task.Idle? && (q.frames == [] || q.failed)
  }

  predicate PastQueue(k: Receiver.Closer) {
    k.cause.Completion? && !k.stage.AwaitQueue? && !k.stage.Finished?
  }

  /** A completion handler comes behind the whole queue, and clears the entry before its last step. */
  predicate CloserClears(u: Upload, k: Receiver.Closer, r: RState, sent: seq<Msg>) {
    && (k.cause.RemoteAbort? ==> Abort in sent)
    && (k.stage.SavingState? ==> k.cause.RemoteAbort?)
    && (PastQueue(k) && r.phase.Transferring? ==> DoneAll(u, r))
    && (PastQueue(k) && k.stage.Finishing? && r.phase.Transferring? ==> r.durable.saved == None)
  }

  predicate ClearedInv(u: Upload, r: RState, sent: seq<Msg>) {
    && (forall j :: 0 <= j < |r.closers| ==> CloserClears(u, r.closers[j], r, sent))
    && (Complete in r.out.events ==> r.phase.Settled? && r.durable.saved == None && AtEnd(r.queue))
  }

  /** Completion and abort exclude each other. */
  predicate Exclusive(r: RState, sent: seq<Msg>) {
    && (Complete in r.out.events ==> Abort !in sent)
    && (forall j :: 0 <= j < |r.closers| && r.closers[j].cause.Completion? ==> Abort !in sent)
  }

  /** What is needed of the rest. */
  predicate Context(c: Receiver.Config, u: Upload, r: RState, sent: seq<Msg>) {
    RecvInv(c, u, r) && Exclusive(r, sent)
  }

  lemma DoneAllIsQuiet(u: Upload, r: RState)
    requires PrefixInv(u, r) && QueueInv(u, r) && r.phase.Transferring? && DoneAll(u, r)
    ensures AtEnd(r.queue)
  {
  }

  /** Same handlers, queue no further back, entry as it was: nothing to show. */
  lemma ClearedFrame(u: Upload, r: RState, r': RState, sent: seq<Msg>)
    requires ClearedInv(u, r, sent)
    requires r'.closers == r.closers && r'.tally.startFrom == r.tally.startFrom && r'.queue.done >= r.queue.done
    requires (r.queue.failed ==> r'.queue.failed) && (r'.phase.Transferring? ==> r.phase.Transferring?)
    requires r.durable.saved == None ==> r'.durable.saved == None
    requires Complete in r'.out.events ==> Complete in r.out.events
    requires r.phase.Settled? ==> r'.phase.Settled?
    requires AtEnd(r.queue) && r.phase.Settled? ==> AtEnd(r'.queue)
    ensures ClearedInv(u, r', sent)
  {
    forall j | 0 <= j < |r'.closers| ensures CloserClears(u, r'.closers[j], r', sent) {
      assert CloserClears(u, r.closers[j], r, sent);
    }
  }

  lemma TaskClears(c: Receiver.Config, u: Upload, r: RState, a: Receiver.Action, sent: seq<Msg>)
    requires ClearedInv(u, r, sent)
    requires a.StartTask? || a.WriteDone? || a.HashDone? || a.TaskFails? || a.QueueRejects?
    ensures ClearedInv(u, Receiver.Step(c, r, a), sent)
  {
    ClearedFrame(u, r, Receiver.Step(c, r, a), sent);
  }

  /** A checkpoint is written only while something of the file is still to come. */
  lemma SaveClears(c: Receiver.Config, u: Upload, r: RState, now: int, sent: seq<Msg>)
    requires ClearedInv(u, r, sent) && Context(c, u, r, sent)
    ensures ClearedInv(u, Receiver.SaveStep(r, now), sent)
  {
    var r' := Receiver.SaveStep(r, now);
    if r.queue.task.Saving? {
      forall j | 0 <= j < |r'.closers| ensures CloserClears(u, r'.closers[j], r', sent) {
        assert CloserClears(u, r.closers[j], r, sent);
        if PastQueue(r.closers[j]) && r.phase.Transferring? {
          DoneAllIsQuiet(u, r);
        }
      }
    }
  }

  lemma EarlyClears(c: Receiver.Config, u: Upload, r: RState, a: Receiver.Action, sent: seq<Msg>)
    requires ClearedInv(u, r, sent) && EarlyInv(r)
    requires a.Confirm? || a.Load? || a.Open? || a.EarlyAbortDone? || a.EarlyThrow? || a.Signal?
    ensures ClearedInv(u, Receiver.Step(c, r, a), sent)
  {
    var r' := Receiver.Step(c, r, a);
    forall j | 0 <= j < |r'.closers| ensures CloserClears(u, r'.closers[j], r', sent) {
      if j < |r.closers| {
        assert CloserClears(u, r.closers[j], r, sent);
      }
    }
  }

  /** One handler moves on, and nothing else changes but, possibly, the entry. */
  lemma StageClears(u: Upload, r: RState, r': RState, sent: seq<Msg>, j: nat, stage: Receiver.Stage)
    requires ClearedInv(u, r, sent) && j < |r.closers| && r'.closers == Receiver.WithStage(r.closers, j, stage)
    requires r'.tally == r.tally && r'.queue == r.queue
    requires r'.phase == r.phase || (r.phase.Transferring? && r'.phase.Settled?)
    requires r.durable.saved == None ==> r'.durable.saved == None
    requires CloserClears(u, r'.closers[j], r', sent)
    requires Complete in r'.out.events ==>
               Complete in r.out.events || (r'.phase.Settled? && r'.durable.saved == None && AtEnd(r'.queue))
    ensures ClearedInv(u, r', sent)
  {
    forall i | 0 <= i < |r'.closers| ensures CloserClears(u, r'.closers[i], r', sent) {
      assert CloserClears(u, r.closers[i], r, sent);
    }
  }

  lemma FinishClears(c: Receiver.Config, u: Upload, r: RState, sent: seq<Msg>, j: nat, o: Receiver.Outcome,
                     e: Option<TransferEvent>)
    requires ClearedInv(u, r, sent) && Context(c, u, r, sent) && j < |r.closers|
    requires e == Some(Complete) ==> r.closers[j].cause.Completion? && r.closers[j].stage.Finishing?
    ensures ClearedInv(u, Receiver.Finish(r, j, o, e), sent)
  {
    assert CloserClears(u, r.closers[j], r, sent);
    if e == Some(Complete) && r.phase.Transferring? {
      DoneAllIsQuiet(u, r);
    }
    StageClears(u, r, Receiver.Finish(r, j, o, e), sent, j, Receiver.Finished);
  }

  lemma QueueStepClears(c: Receiver.Config, u: Upload, r: RState, sent: seq<Msg>, j: nat, upTo: nat)
    requires ClearedInv(u, r, sent) && Context(c, u, r, sent)
    requires j < |r.closers| && r.closers[j].stage == Receiver.AwaitQueue(upTo)
    ensures ClearedInv(u, Receiver.QueueStep(r, j, r.closers[j].cause, upTo), sent)
  {
    var k, r' := r.closers[j], Receiver.QueueStep(r, j, r.closers[j].cause, upTo);
    assert CloserFits(c, u, r, k) && CloserClears(u, k, r, sent);
    if r' != r {
      StageClears(u, r, r', sent, j, r'.closers[j].stage);
    }
  }

  /** A sender's abort is recorded by a handler that shares its session with no completion. */
  lemma SavingClears(c: Receiver.Config, u: Upload, r: RState, sent: seq<Msg>, j: nat, now: int)
    requires ClearedInv(u, r, sent) && Exclusive(r, sent) && j < |r.closers| && r.closers[j].stage.SavingState?
    ensures ClearedInv(u, Receiver.AdvanceStep(c, r, j, now), sent)
  {
    var r' := Receiver.AdvanceStep(c, r, j, now);
    assert CloserClears(u, r.closers[j], r, sent);
    forall i | 0 <= i < |r'.closers| ensures CloserClears(u, r'.closers[i], r', sent) {
      assert CloserClears(u, r.closers[i], r, sent);
    }
  }

  lemma AdvanceClears(c: Receiver.Config, u: Upload, r: RState, sent: seq<Msg>, j: nat, now: int)
    requires ClearedInv(u, r, sent) && Context(c, u, r, sent)
    ensures ClearedInv(u, Receiver.AdvanceStep(c, r, j, now), sent)
  {
    if j < |r.closers| {
      var k, r' := r.closers[j], Receiver.AdvanceStep(c, r, j, now);
      assert CloserClears(u, k, r, sent);
      match k.stage
      case AwaitQueue(upTo) => QueueStepClears(c, u, r, sent, j, upTo);
      case SavingState => SavingClears(c, u, r, sent, j, now);
      case AbortingWriter =>
        match k.cause {
          case LocalAbort => FinishClears(c, u, r, sent, j, Receiver.Resolved, Some(Cancelled));
          case RemoteAbort => StageClears(u, r, r', sent, j, Receiver.SavingState);
          case Completion(_) => FinishClears(c, u, r, sent, j, Receiver.Threw, Some(Error));
        }
      case Digesting(_) => if k.cause.Completion? { StageClears(u, r, r', sent, j, r'.closers[j].stage); }
      case Finalizing => StageClears(u, r, r', sent, j, Receiver.Clearing);
      case Clearing => StageClears(u, r, r', sent, j, Receiver.Finishing);
      case Finishing =>
        FinishClears(c, u, r, sent, j, Receiver.Resolved, Some(if k.cause.Completion? then Complete else Cancelled));
      case Finished =>
    }
  }

  lemma ReceiverStepClears(c: Receiver.Config, u: Upload, r: RState, a: Receiver.Action, sent: seq<Msg>)
    requires ClearedInv(u, r, sent) && Context(c, u, r, sent) && Internal(a)
    ensures ClearedInv(u, Receiver.Step(c, r, a), sent)
  {
    match a
    case Advance(j, now) => AdvanceClears(c, u, r, sent, j, now);
    case CloserFails(j) =>
      if j < |r.closers| && !r.closers[j].stage.Finished? && !r.closers[j].stage.AwaitQueue? {
        FinishClears(c, u, r, sent, j, Receiver.Threw, None);
      }
    case Save(now) => SaveClears(c, u, r, now, sent);
    case _ =>
      if a.StartTask? || a.WriteDone? || a.HashDone? || a.TaskFails? || a.QueueRejects? {
        TaskClears(c, u, r, a, sent);
      } else {
        EarlyClears(c, u, r, a, sent);
      }
  }

  lemma MessageClears(u: Upload, r: RState, msg: Msg, sent: seq<Msg>)
    requires ClearedInv(u, r, sent) && msg in sent
    ensures ClearedInv(u, Receiver.OnMessage(r, msg), sent)
  {
    var r' := Receiver.OnMessage(r, msg);
    forall j | 0 <= j < |r'.closers| ensures CloserClears(u, r'.closers[j], r', sent) {
      if j < |r.closers| {
        assert CloserClears(u, r.closers[j], r, sent);
      }
    }
  }

  lemma SentGrowsClears(u: Upload, r: RState, sent: seq<Msg>, sent': seq<Msg>)
    requires ClearedInv(u, r, sent) && sent <= sent'
    ensures ClearedInv(u, r, sent')
  {
    forall j | 0 <= j < |r.closers| ensures CloserClears(u, r.closers[j], r, sent') {
      assert CloserClears(u, r.closers[j], r, sent);
    }
  }

  lemma SentOnlyGrows(sha: Sha, u: Upload, s: Sender.State, a: Sender.Action)
    ensures s.sent <= Sender.Step(sha, u, s, a).sent
  {
  }

  /** A completion taken or announced means that the wire is closed by it. */
  lemma ExclusiveByWire(c: Receiver.Config, y: System)
    requires SystemInv(c, y) && CrossInv(y)
    ensures Exclusive(y.receiver, y.sender.sent)
  {
    if Abort in y.sender.sent {
      AbortIsAlone(c.sha, y.upload, y.sender);
    }
  }

  lemma StepClears(c: Receiver.Config, y: System, a: Session.Action)
    requires SystemInv(c, y) && CrossInv(y) && ClearedInv(y.upload, y.receiver, y.sender.sent)
    ensures var y' := Session.Step(c, y, a); ClearedInv(y'.upload, y'.receiver, y'.sender.sent)
  {
    match a
    case SenderActs(s) =>
      if !s.Deliver? {
        SentOnlyGrows(c.sha, y.upload, y.sender, s);
        SentGrowsClears(y.upload, y.receiver, y.sender.sent, Sender.Step(c.sha, y.upload, y.sender, s).sent);
      }
    case ReceiverActs(r) =>
      if Internal(r) {
        ExclusiveByWire(c, y);
        ReceiverStepClears(c, y.upload, y.receiver, r, y.sender.sent);
      }
    case DeliverToReceiver =>
      if y.toReceiver < |y.sender.sent| {
        MessageClears(y.upload, y.receiver, y.sender.sent[y.toReceiver], y.sender.sent);
      }
    case DeliverToSender =>
      if y.toSender < |y.receiver.out.sent| {
        var msg := y.receiver.out.sent[y.toSender];
        SentOnlyGrows(c.sha, y.upload, y.sender, Sender.Deliver(msg));
        SentGrowsClears(y.upload, y.receiver, y.sender.sent, Sender.OnMessage(y.upload, y.sender, msg).sent);
      }
    case NewSession(_, _) =>
  }

  lemma {:induction false} RunClears(c: Receiver.Config, u: Upload, d: Receiver.Durable, acts: seq<Session.Action>,
                                     ys: seq<System>)
    requires Resumable(c.sha, u, d) && Session.Run(c, acts, ys) && ys[0] == Session.Begin(u, d)
    ensures var y := ys[|acts|]; ClearedInv(y.upload, y.receiver, y.sender.sent)
  {
    if |acts| > 0 {
      var n := |acts| - 1;
      Session.RunPrefix(c, acts, ys);
      RunClears(c, u, d, acts[..n], ys[..n + 1]);
      RunKeepsSystem(c, u, d, acts[..n], ys[..n + 1]);
      RunKeepsCross(c, u, d, acts[..n], ys[..n + 1]);
      StepClears(c, ys[n], acts[n]);
    }
  }

  /**
   * In every reachable state, whatever else the session has going on: once it has
   * announced completion there is no resume entry, and nothing will be taken up
   * that could write one.
   */
  lemma CompletionLeavesNoEntry(c: Receiver.Config, u: Upload, d: Receiver.Durable, y: System)
    requires Resumable(c.sha, u, d) && Session.Reachable(c, Session.Begin(u, d), y)
    requires Complete in y.receiver.out.events
    ensures y.receiver.durable.saved == None && y.receiver.queue.task.Idle?
    ensures y.receiver.queue.frames == [] || y.receiver.queue.failed
  {
    var acts, ys :| Session.Run(c, acts, ys) && ys[0] == Session.Begin(u, d) && ys[|acts|] == y;
    RunClears(c, u, d, acts, ys);
  }
}
