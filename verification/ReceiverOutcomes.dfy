/**
 * How a session of the receiver ends, in every run: what it returns agrees with
 * what it has announced, and each cancellation and each failure takes its way.
 */
module ReceiverOutcomes {
  import opened Basics
  import opened Chunking
  import opened HashChain
  import opened ChunkFrame
  import opened Resume
  import opened Protocol
  import opened Receiver
  import opened ReceiverSafety

  // ---- the way each cancellation takes ----

  /** The sender's abort meets a transfer that goes on: it is closed once what is queued now has been handled. */
  lemma RemoteAbortClosesTransfer(c: Config, r: State)
    requires r.phase.Transferring?
    ensures var r' := Step(c, r, Deliver(Abort));
            r' == r.(closers := r.closers + [Closer(RemoteAbort, AwaitQueue(r.queue.enqueued))])
  {
  }

  /** The sender's abort meets a session that has not started: nothing more than a note, and no transfer. */
  lemma EarlyAbortEnds(c: Config, r: State, now: int, answer: bool)
    requires (r.phase.Confirming? || r.phase.Loading? || r.phase.Opening?) && r.out == Output([], [])
    ensures var r' := Step(c, r, Deliver(Abort));
            && r'.flags.pendingAbort && r' == r.(flags := r'.flags)
            && (r.phase.Confirming? ==>
                  Step(c, r', Confirm(answer)) == r'.(phase := Settled(Resolved), out := Output([Cancelled], [])))
            && (r.phase.Opening? ==>
                  Step(c, Step(c, r', Open), EarlyAbortDone)
                  == r'.(phase := Settled(Resolved), out := Output([Cancelled], [])))
            && (r.phase.Loading? ==> Step(c, r', Load(now)).phase.Opening? && Step(c, r', Load(now)).flags == r'.flags)
  {
  }

  /** The user cancels a transfer: the sender is told at once, and it is closed once the queue is handled. */
  lemma LocalAbortClosesTransfer(c: Config, r: State)
    requires r.phase.Transferring? && !r.flags.signalled
    ensures var r' := Step(c, r, Signal);
            && r'.out.sent == r.out.sent + [Abort] && r'.out.events == r.out.events
            && r'.closers == r.closers + [Closer(LocalAbort, AwaitQueue(r.queue.enqueued))]
            && r'.flags.signalled && r'.phase == r.phase && r'.queue == r.queue && r'.durable == r.durable
            && Step(c, r', Signal) == r'
  {
  }

  /** The user cancels before the transfer: it is accepted and cancelled in one go. */
  lemma EarlySignalCancels(c: Config, r: State)
    requires r.phase.Opening? && !r.flags.pendingAbort && r.closers == []
    ensures var r' := Step(c, Step(c, r, Signal), Open);
            && r'.out.sent == r.out.sent + [Accept(r.tally.startFrom), Abort] && r'.out.events == r.out.events
            && r'.phase.Transferring? && r'.closers == [Closer(LocalAbort, AwaitQueue(r.queue.enqueued))]
  {
  }

  /** The writer has been aborted: what each cause makes of it, if the transfer still goes on. */
  lemma AbortedWriterEnds(c: Config, r: State, j: nat, now: int)
    requires r.phase.Transferring? && j < |r.closers| && r.closers[j].stage.AbortingWriter?
    ensures var r', k := Step(c, r, Advance(j, now)), r.closers[j];
            && r'.out.sent == r.out.sent && r'.durable == r.durable
            && (k.cause.LocalAbort? ==>
                  r'.phase == Settled(Resolved) && r'.out.events == r.out.events + [Cancelled])
            && (k.cause.Completion? ==> r'.phase == Settled(Threw) && r'.out.events == r.out.events + [Error])
            && (k.cause.RemoteAbort? ==>
                  r'.phase == r.phase && r'.out == r.out
                  && r'.closers == r.closers[j := Closer(RemoteAbort, SavingState)])
  {
  }

  /** The last step of the other two. */
  lemma FinishingEnds(c: Config, r: State, j: nat, now: int)
    requires r.phase.Transferring? && j < |r.closers| && r.closers[j].stage.Finishing?
    ensures var r' := Step(c, r, Advance(j, now));
            && r'.phase == Settled(Resolved) && r'.out.sent == r.out.sent && r'.durable == r.durable
            && r'.out.events == r.out.events + [if r.closers[j].cause.Completion? then Complete else Cancelled]
  {
  }

  // ---- the way each failure takes ----

  /** A frame with no index, a failed write, digest or checkpoint: the queue stops, and the transfer throws silently. */
  lemma QueueFailureThrows(c: Config, r: State, garbage: Option<Bytes>)
    requires r.phase.Transferring? && !r.queue.failed
    ensures r.queue.task != Idle ==>
              var r' := Step(c, Step(c, r, TaskFails(garbage)), QueueRejects);
              && r'.phase == Settled(Threw) && r'.out == r.out && r'.queue.failed && r'.queue.task.Idle?
              && r'.durable.saved == r.durable.saved && r'.tally == r.tally && r'.queue.done == r.queue.done
    ensures r.queue.task == Idle && r.queue.frames != [] && |r.queue.frames[0]| < 4 ==>
              var r' := Step(c, Step(c, r, StartTask), QueueRejects);
              && r'.phase == Settled(Threw) && r'.out == r.out && r'.queue.failed && r'.durable == r.durable
  {
  }

  /** A failed queue takes up nothing more, and lets every handler that waits for it go on. */
  lemma FailedQueueStops(c: Config, r: State, j: nat, now: int)
    requires r.queue.failed
    ensures Step(c, r, StartTask) == r
    ensures j < |r.closers| && r.closers[j].stage.AwaitQueue? ==>
              !Step(c, r, Advance(j, now)).closers[j].stage.AwaitQueue?
  {
  }

  /** A writer, store or digest that fails under a handler: the transfer throws silently, if it still goes on. */
  lemma CloserFailureThrows(c: Config, r: State, j: nat)
    requires j < |r.closers| && !r.closers[j].stage.AwaitQueue? && !r.closers[j].stage.Finished?
    ensures var r' := Step(c, r, CloserFails(j));
            && r'.closers == r.closers[j := r.closers[j].(stage := Finished)] && r'.out == r.out
            && r'.durable == r.durable && r'.queue == r.queue
            && r'.phase == if r.phase.Transferring? then Settled(Threw) else r.phase
  {
  }

  /** confirm, load, open or an early abort that fails: the session throws silently, having sent nothing. */
  lemma EarlyFailureThrows(c: Config, r: State)
    requires r.phase.Confirming? || r.phase.Loading? || r.phase.Opening? || r.phase.AbortingEarly?
    ensures Step(c, r, EarlyThrow) == r.(phase := Settled(Threw))
  {
  }

  // ---- what is returned and what is announced ----

  /** A resolved session has announced its end or was declined, one that throws an error at most, others nothing. */
  predicate OutcomeFits(r: State) {
    match r.phase
    case Settled(Resolved) =>
      || (r.out.events == [] && r.out.sent == [Reject])
      || (EndsTerminal(r.out.events) && (r.out.events[|r.out.events| - 1] == Cancelled
                                         || r.out.events[|r.out.events| - 1] == Complete))
    case Settled(Threw) =>
      OnlyProgress(r.out.events) || (EndsTerminal(r.out.events) && r.out.events[|r.out.events| - 1] == Error)
    case _ => OnlyProgress(r.out.events)
  }

  /** Before the transfer nothing is queued, sent or announced; a transfer and its handlers have been accepted. */
  predicate BegunInOrder(r: State) {
    && (!r.phase.Transferring? && !r.phase.Settled? ==>
          r.closers == [] && r.out == Output([], []) && r.queue == Queue([], 0, 0, false, Idle))
    && (r.phase.Transferring? || r.closers != [] ==> r.out.sent != [] && r.out.sent[0].Accept?)
  }

  predicate OutcomeInv(r: State) {
    OutcomeFits(r) && BegunInOrder(r)
  }

  lemma FinishFits(r: State, j: nat, outcome: Outcome, event: Option<TransferEvent>)
    requires OutcomeInv(r) && j < |r.closers|
    requires outcome.Resolved? ==> event == Some(Cancelled) || event == Some(Complete)
    requires outcome.Threw? ==> event == None || event == Some(Error)
    ensures OutcomeInv(Finish(r, j, outcome, event))
  {
  }

  lemma AdvanceFits(c: Config, r: State, j: nat, now: int)
    requires OutcomeInv(r)
    ensures OutcomeInv(AdvanceStep(c, r, j, now))
  {
    if j < |r.closers| {
      var k := r.closers[j];
      match k.stage
      case AwaitQueue(_) => FinishFits(r, j, Threw, None);
      case AbortingWriter =>
        match k.cause {
          case LocalAbort => FinishFits(r, j, Resolved, Some(Cancelled));
          case RemoteAbort =>
          case Completion(_) => FinishFits(r, j, Threw, Some(Error));
        }
      case Digesting(ordered) =>
        if k.cause.Completion? {
          DigestFits(c, r, j, k.cause.fileHash, ordered);
        }
      case Finishing => FinishFits(r, j, Resolved, Some(if k.cause.Completion? then Complete else Cancelled));
      case _ =>
    }
  }

  lemma DigestFits(c: Config, r: State, j: nat, fileHash: string, ordered: seq<string>)
    requires OutcomeInv(r) && j < |r.closers|
    ensures OutcomeInv(DigestStep(c, r, j, fileHash, ordered))
  {
  }

  lemma TaskFits(c: Config, r: State, a: Action)
    requires OutcomeInv(r)
    requires a.StartTask? || a.WriteDone? || a.HashDone? || a.Save? || a.TaskFails? || a.QueueRejects?
    ensures OutcomeInv(Step(c, r, a))
  {
  }

  lemma EarlyFits(c: Config, r: State, a: Action)
    requires OutcomeInv(r)
    requires a.Deliver? || a.Confirm? || a.Load? || a.Open? || a.EarlyAbortDone? || a.EarlyThrow? || a.Signal?
    ensures OutcomeInv(Step(c, r, a))
  {
  }

  lemma StepFits(c: Config, r: State, a: Action)
    requires OutcomeInv(r)
    ensures OutcomeInv(Step(c, r, a))
  {
    match a
    case Advance(j, now) => AdvanceFits(c, r, j, now);
    case CloserFails(j) => if j < |r.closers| { FinishFits(r, j, Threw, None); }
    case Restart(_) =>
    case _ =>
      if a.StartTask? || a.WriteDone? || a.HashDone? || a.Save? || a.TaskFails? || a.QueueRejects? {
        TaskFits(c, r, a);
      } else {
        EarlyFits(c, r, a);
      }
  }

  /**
   * Outcome discipline of the receiver, in every run and with arbitrary frames: a
   * session that resolves has announced as its last event that it is complete or
   * cancelled, or has announced nothing and answered with the rejection alone; one
   * that throws has announced an error or nothing; one that goes on, only progress.
   */
  lemma {:induction false} ReceiverOutcomeDiscipline(c: Config, d: Durable, acts: seq<Action>)
    ensures OutcomeFits(Run(c, Begin(d), acts)) && BegunInOrder(Run(c, Begin(d), acts))
  {
    if |acts| > 0 {
      ReceiverOutcomeDiscipline(c, d, acts[..|acts| - 1]);
      StepFits(c, Run(c, Begin(d), acts[..|acts| - 1]), acts[|acts| - 1]);
    }
  }

  // ---- what is left to do once the session has ended ----

  /** A task at work, or a frame whose turn it is. */
  function AtWork(q: Queue): nat {
    if q.task.Idle? then 0 else 1
  }

  /** Every frame has been handled, is being handled or waits; a handler waits for no more than there is. */
  predicate CountInv(r: State) {
    && (!r.queue.failed ==> r.queue.enqueued == r.queue.done + |r.queue.frames| + AtWork(r.queue))
    && forall j :: 0 <= j < |r.closers| ==>
         (r.closers[j].stage.AwaitQueue? ==> r.closers[j].stage.upTo <= r.queue.enqueued)
         && (r.closers[j].stage.Digesting? ==> r.closers[j].cause.Completion?)
  }

  lemma TaskCounts(c: Config, r: State, a: Action)
    requires CountInv(r) && (a.StartTask? || a.WriteDone? || a.HashDone? || a.Save? || a.TaskFails?)
    ensures CountInv(Step(c, r, a))
  {
    var r' := Step(c, r, a);
    assert r'.closers == r.closers && r'.queue.enqueued == r.queue.enqueued;
  }

  lemma StageCounts(r: State, r': State, j: nat)
    requires CountInv(r) && j < |r.closers| && r'.queue == r.queue
    requires exists stage :: r'.closers == WithStage(r.closers, j, stage)
                             && !stage.AwaitQueue? && (stage.Digesting? ==> r.closers[j].cause.Completion?)
    ensures CountInv(r')
  {
  }

  lemma AdvanceCounts(c: Config, r: State, j: nat, now: int)
    requires CountInv(r)
    ensures CountInv(AdvanceStep(c, r, j, now)) && CountInv(CloserFailsStep(r, j))
  {
    if j < |r.closers| {
      var r' := AdvanceStep(c, r, j, now);
      if r' != r {
        assert r'.closers == WithStage(r.closers, j, r'.closers[j].stage);
        StageCounts(r, r', j);
      }
      var r'' := CloserFailsStep(r, j);
      if r'' != r {
        assert r''.closers == WithStage(r.closers, j, Finished);
        StageCounts(r, r'', j);
      }
    }
  }

  lemma EarlyCounts(c: Config, r: State, a: Action)
    requires CountInv(r)
    requires a.Deliver? || a.Confirm? || a.Load? || a.Open? || a.EarlyAbortDone? || a.EarlyThrow? || a.Signal?
             || a.QueueRejects?
    ensures CountInv(Step(c, r, a))
  {
  }

  lemma {:induction false} RunCounts(c: Config, d: Durable, acts: seq<Action>)
    ensures CountInv(Run(c, Begin(d), acts))
  {
    if |acts| > 0 {
      var r, a := Run(c, Begin(d), acts[..|acts| - 1]), acts[|acts| - 1];
      RunCounts(c, d, acts[..|acts| - 1]);
      match a
      case Advance(j, now) => AdvanceCounts(c, r, j, now);
      case CloserFails(j) => AdvanceCounts(c, r, j, 0);
      case Restart(_) =>
      case _ =>
        if a.StartTask? || a.WriteDone? || a.HashDone? || a.Save? || a.TaskFails? {
          TaskCounts(c, r, a);
        } else {
          EarlyCounts(c, r, a);
        }
    }
  }

  /** Nothing that is under way in the queue or in a handler can go on. */
  ghost predicate WoundDown(c: Config, r: State) {
    && Step(c, r, StartTask) == r && Step(c, r, WriteDone) == r && Step(c, r, HashDone) == r && Step(c, r, Save(0)) == r
    && forall j: nat :: Step(c, r, Advance(j, 0)) == r
  }

  lemma QueueWindsDown(c: Config, r: State)
    requires r.phase.Settled? && !r.queue.failed && WoundDown(c, r)
    ensures r.queue.task.Idle? && r.queue.frames == []
  {
  }

  lemma HandlerWindsDown(c: Config, r: State, j: nat)
    requires CountInv(r) && j < |r.closers| && Step(c, r, Advance(j, 0)) == r
    requires r.queue.failed || (r.queue.task.Idle? && r.queue.frames == [])
    ensures r.closers[j].stage.Finished?
  {
    assert Step(c, r, Advance(j, 0)).closers[j].stage == r.closers[j].stage;
  }

  /**
   * A session that has ended winds down, in every run and with arbitrary frames:
   * where nothing under way can go on, the frames that were still queued have been
   * taken off the queue, unless that had stopped, and every handler has finished.
   */
  lemma EndedSessionsWindDown(c: Config, d: Durable, acts: seq<Action>)
    requires Run(c, Begin(d), acts).phase.Settled? && WoundDown(c, Run(c, Begin(d), acts))
    ensures var r := Run(c, Begin(d), acts);
            && (r.queue.failed || (r.queue.task.Idle? && r.queue.frames == [] && r.queue.done == r.queue.enqueued))
            && forall j :: 0 <= j < |r.closers| ==> r.closers[j].stage.Finished?
  {
    var r := Run(c, Begin(d), acts);
    RunCounts(c, d, acts);
    if !r.queue.failed {
      QueueWindsDown(c, r);
    }
    forall j | 0 <= j < |r.closers| ensures r.closers[j].stage.Finished? {
      HandlerWindsDown(c, r, j);
    }
  }

  /** A frame still queued when the session has ended is dropped: nothing of it is written, recorded or reported. */
  lemma LateFrameIsDropped(c: Config, r: State)
    requires r.phase.Settled? && r.queue.frames != [] && r.queue.task.Idle? && !r.queue.failed
    ensures var r' := Step(c, r, StartTask);
            && r' == r.(queue := r'.queue) && r'.queue.task.Idle? && r'.queue.done == r.queue.done + 1
            && [r.queue.frames[0]] + r'.queue.frames == r.queue.frames && !r'.queue.failed
            && r'.queue.enqueued == r.queue.enqueued
  {
  }

  /** A digest that comes in when the session has ended is still noted, but its chunk is neither held nor reported. */
  lemma LateDigestIsNoted(c: Config, r: State)
    requires r.phase.Settled? && r.queue.task.Hashing?
    ensures var i, r' := r.queue.task.index, Step(c, r, HashDone);
            && i in r'.tally.hashes && r'.tally.hashes[i] == HashChunk(c.sha, r.queue.task.data)
            && r'.tally.hashes - {i} == r.tally.hashes - {i} && r'.tally == r.tally.(hashes := r'.tally.hashes)
            && r'.queue.task.Idle? && r'.queue == r.queue.(task := Idle, done := r.queue.done + 1)
            && r'.out == r.out && r'.phase == r.phase && r'.durable.disk == r.durable.disk
            && (!c.shared ==> r'.durable == r.durable)
  {
  }
}
