/**
 * The closures of transfer-engine/src/transferSession.ts as objects: the
 * captured variables as fields, one method per stretch of code between awaits.
 * Each method is proved to do to the fields what the corresponding step of the
 * state machine does to its state.
 */
module TransferSession {
  import opened Basics
  import opened Chunking
  import opened HashChain
  import opened ChunkFrame
  import opened Resume
  import opened Protocol
  import Receiver
  import opened ReceiverSafety
  import Sender
  import opened SenderSafety

  class ReceiveSession {
    const config: Receiver.Config
    var phase: Receiver.Phase
    var meta: Meta
    var pendingRemoteAbort: bool
    var signalAborted: bool
    /** receivedIndices, chunkHashes, sinceCheckpoint and startFrom. */
    var tally: Receiver.Tally
    /** processingQueue, with the handler that is suspended at its head. */
    var queue: Receiver.Queue
    var closers: seq<Receiver.Closer>
    var out: Receiver.Output
    /** The writer's chunks and the resume store's entry. */
    var durable: Receiver.Durable
    ghost var history: Receiver.History

    ghost function State(): Receiver.State
      reads this
    {
      Receiver.State(phase, meta, Receiver.Flags(pendingRemoteAbort, signalAborted), tally, queue, closers, out,
                     durable, history)
    }

    /** What every run of the session keeps. */
    ghost predicate Valid()
      reads this
    {
      EventInv(State()) && DurableInv(config, State()) && WriteInv(State())
    }

    constructor (config: Receiver.Config, durable: Receiver.Durable)
      ensures this.config == config && State() == Receiver.Begin(durable)
      ensures StoreInv(config.sha, durable) ==> Valid()
    {
      this.config := config;
      phase, meta, pendingRemoteAbort, signalAborted := Receiver.AwaitingOffer, Receiver.NO_META, false, false;
      tally := Receiver.Tally(false, 0, {}, map[], 0);
      queue := Receiver.Queue([], 0, 0, false, Receiver.Idle);
      closers, out := [], Receiver.Output([], []);
      this.durable := durable;
      history := Receiver.History([], None);
    }

    method Emit(event: TransferEvent)
      modifies this`out
      ensures out == Receiver.Emit(old(out), event)
    {
      out := out.(events := out.events + [event]);
    }

    method SendJson(msg: Msg)
      modifies this`out
      ensures out == Receiver.Send(old(out), msg)
    {
      out := out.(sent := out.sent + [msg]);
    }

    method StartCloser(cause: Receiver.Cause)
      modifies this`closers
      ensures State() == Receiver.AddCloser(old(State()), cause)
    {
      closers := closers + [Receiver.Closer(cause, Receiver.AwaitQueue(queue.enqueued))];
    }

    method OnMessage(msg: Msg)
      modifies this
      ensures State() == Receiver.OnMessage(old(State()), msg)
    {
      match msg {
        case Offer(m) =>
          if phase.AwaitingOffer? {
            phase, meta := Receiver.Confirming, m;
          }
        case Abort =>
          if phase.Transferring? {
            StartCloser(Receiver.RemoteAbort);
          } else if !phase.AwaitingOffer? && !phase.Settled? {
            pendingRemoteAbort := true;
          }
        case Chunk(frame) =>
          if phase.Transferring? {
            queue := queue.(frames := queue.frames + [frame], enqueued := queue.enqueued + 1);
          }
        case TransferComplete(fileHash) =>
          if phase.Transferring? {
            StartCloser(Receiver.Completion(fileHash));
          }
        case _ =>
      }
    }

    method Confirmed(accepted: bool)
      modifies this
      ensures State() == Receiver.ConfirmStep(old(State()), accepted)
    {
      if !phase.Confirming? {
        return;
      }
      if pendingRemoteAbort {
        Emit(Cancelled);
        phase := Receiver.Settled(Receiver.Resolved);
        return;
      }
      if !accepted {
        SendJson(Reject);
        phase := Receiver.Settled(Receiver.Resolved);
        return;
      }
      phase := Receiver.Loading;
    }

    /** resumeStore.load, where an entry older than the limit is deleted, and what is taken over from it. */
    method LoadResume(now: int)
      modifies this
      ensures State() == Receiver.LoadStep(old(State()), now)
    {
      if !phase.Loading? {
        return;
      }
      if durable.saved.Some? && now - durable.saved.value.updatedAt > RESUME_TTL_MS {
        durable := durable.(saved := None);
      }
      if durable.saved.Some? {
        var existing := durable.saved.value;
        tally := Receiver.Tally(true, ResumePoint(existing.received), existing.received, existing.hashes, 0);
      } else {
        tally := Receiver.Tally(true, 0, {}, map[], 0);
      }
      phase := Receiver.Opening;
    }

    method OnLocalAbort()
      modifies this`out, this`closers
      ensures State() == Receiver.LocalAbortStep(old(State()))
    {
      SendJson(Abort);
      StartCloser(Receiver.LocalAbort);
    }

    method WriterOpened()
      modifies this
      ensures State() == Receiver.OpenStep(old(State()))
    {
      if !phase.Opening? {
        return;
      }
      if pendingRemoteAbort {
        phase := Receiver.AbortingEarly;
        return;
      }
      SendJson(Accept(tally.startFrom));
      phase := Receiver.Transferring;
      if signalAborted {
        OnLocalAbort();
      }
    }

    method EarlyAborted()
      modifies this
      ensures State() == Receiver.EarlyAbortStep(old(State()))
    {
      if phase.AbortingEarly? {
        Emit(Cancelled);
        phase := Receiver.Settled(Receiver.Resolved);
      }
    }

    method EarlyThrew()
      modifies this
      ensures State() == Receiver.EarlyThrowStep(old(State()))
    {
      if !phase.AwaitingOffer? && !phase.Transferring? && !phase.Settled? {
        phase := Receiver.Settled(Receiver.Threw);
      }
    }

    method Signal()
      modifies this
      ensures State() == Receiver.SignalStep(old(State()))
    {
      if signalAborted {
        return;
      }
      signalAborted := true;
      if phase.Transferring? {
        OnLocalAbort();
      }
    }

    /** The head of processingQueue, up to writer.writeChunk. */
    method StartTask()
      modifies this`queue, this`history
      ensures State() == Receiver.StartTaskStep(old(State()))
    {
      if queue.frames == [] || queue.task != Receiver.Idle || queue.failed {
        return;
      }
      if phase.Settled? {
        queue := queue.(frames := queue.frames[1..], done := queue.done + 1);
        return;
      }
      if !phase.Transferring? {
        return;
      }
      var f := Decode(queue.frames[0]);
      if f.None? {
        queue := queue.(frames := queue.frames[1..], failed := true);
      } else if f.value.index in tally.received {
        queue := queue.(frames := queue.frames[1..], done := queue.done + 1);
      } else {
        queue := queue.(frames := queue.frames[1..], task := Receiver.Writing(f.value.index, f.value.data));
        history := history.(writes := history.writes + [f.value]);
      }
    }

    method ChunkWritten()
      modifies this`queue, this`durable
      ensures State() == Receiver.WriteDoneStep(old(State()))
    {
      if queue.task.Writing? {
        var index, data := queue.task.index, queue.task.data;
        durable := durable.(disk := durable.disk[index := data]);
        queue := queue.(task := Receiver.Hashing(index, data));
      }
    }

    /** chunkHashes[index] = ..., on the object the store may share. */
    method RecordHash(index: nat, data: Bytes)
      modifies this`tally, this`durable
      ensures tally == old(tally).(hashes := old(tally).hashes[index := HashChunk(config.sha, data)])
      ensures durable == Receiver.Aliased(config, old(durable), tally.hashes)
    {
      tally := tally.(hashes := tally.hashes[index := HashChunk(config.sha, data)]);
      if config.shared && durable.saved.Some? {
        durable := durable.(saved := Some(durable.saved.value.(hashes := tally.hashes)));
      }
    }

    /** One more chunk is held: report it, and say whether a checkpoint is due. */
    method CountChunk(index: nat) returns (due: bool)
      modifies this`tally, this`out
      ensures due == (old(tally).sinceCheckpoint + 1 >= config.checkpointEvery)
      ensures tally == old(tally).(received := old(tally).received + {index},
                                   sinceCheckpoint := if due then 0 else old(tally).sinceCheckpoint + 1)
      ensures out == Receiver.Emit(old(out), Receiver.ProgressOf(tally.received, meta))
    {
      tally := tally.(received := tally.received + {index}, sinceCheckpoint := tally.sinceCheckpoint + 1);
      var held := |tally.received|;
      Emit(Progress(Min(held * meta.chunkSize, meta.size), held));
      due := tally.sinceCheckpoint >= config.checkpointEvery;
      if due {
        tally := tally.(sinceCheckpoint := 0);
      }
    }

    /** From the resolved hashChunk to the end of the handler, or to saveCheckpoint. */
    method ChunkHashed()
      modifies this`tally, this`durable, this`queue, this`out
      ensures State() == Receiver.HashDoneStep(config, old(State()))
    {
      if !queue.task.Hashing? {
        return;
      }
      var index := queue.task.index;
      RecordHash(index, queue.task.data);
      if phase.Settled? {
        queue := queue.(task := Receiver.Idle, done := queue.done + 1);
        return;
      }
      var due := CountChunk(index);
      if due {
        queue := queue.(task := Receiver.Saving);
      } else {
        queue := queue.(task := Receiver.Idle, done := queue.done + 1);
      }
    }

    method SaveCheckpoint(now: int)
      modifies this`durable
      ensures durable == Receiver.Checkpoint(old(State()), now)
    {
      durable := durable.(saved := Some(ResumeState(tally.received, tally.hashes, now)));
    }

    method CheckpointSaved(now: int)
      modifies this`queue, this`durable
      ensures State() == Receiver.SaveStep(old(State()), now)
    {
      if queue.task.Saving? {
        SaveCheckpoint(now);
        queue := queue.(task := Receiver.Idle, done := queue.done + 1);
      }
    }

    method TaskFailed(garbage: Option<Bytes>)
      modifies this`queue, this`durable
      ensures State() == Receiver.TaskFailsStep(old(State()), garbage)
    {
      if queue.task == Receiver.Idle {
        return;
      }
      if queue.task.Writing? {
        var index := queue.task.index;
        durable := durable.(disk := if garbage.Some? then durable.disk[index := garbage.value]
                                    else durable.disk - {index});
      }
      queue := queue.(task := Receiver.Idle, failed := true);
    }

    method SetStage(j: nat, stage: Receiver.Stage)
      requires j < |closers|
      modifies this`closers
      ensures State() == Receiver.SetStage(old(State()), j, stage)
    {
      closers := closers[j := closers[j].(stage := stage)];
    }

    /** finish(action): settles once, and only the settling call runs its action. */
    method Finish(j: nat, outcome: Receiver.Outcome, event: Option<TransferEvent>)
      requires j < |closers|
      modifies this`closers, this`phase, this`out
      ensures State() == Receiver.Finish(old(State()), j, outcome, event)
    {
      SetStage(j, Receiver.Finished);
      if phase.Transferring? {
        phase := Receiver.Settled(outcome);
        if event.Some? {
          Emit(event.value);
        }
      }
    }

    method QueueRejected()
      modifies this`phase
      ensures State() == Receiver.QueueRejectsStep(old(State()))
    {
      if queue.failed && phase.Transferring? {
        phase := Receiver.Settled(Receiver.Threw);
      }
    }

    /** The captured processingQueue has settled for the handler j. */
    method QueueSettled(j: nat, upTo: nat)
      requires j < |closers|
      modifies this`closers, this`phase, this`out
      ensures State() == Receiver.QueueStep(old(State()), j, old(closers[j]).cause, upTo)
    {
      if queue.done < upTo && !queue.failed {
        return;
      }
      if !closers[j].cause.Completion? {
        SetStage(j, Receiver.AbortingWriter);
        return;
      }
      if queue.done < upTo || !Hashable(tally.hashes, meta.totalChunks) {
        Finish(j, Receiver.Threw, None);
        return;
      }
      SetStage(j, Receiver.Digesting(Ordered(tally.hashes, meta.totalChunks)));
    }

    /** The final hash is known: tell the sender, then finalize or abort the writer. */
    method FileHashed(j: nat, fileHash: string, ordered: seq<string>)
      requires j < |closers|
      modifies this`closers, this`out, this`history
      ensures State() == Receiver.DigestStep(config, old(State()), j, fileHash, ordered)
    {
      var ok := HashOfHashes(config.sha, ordered) == fileHash;
      SendJson(Verified(ok));
      if ok {
        history := history.(matched := Some(ordered));
        SetStage(j, Receiver.Finalizing);
      } else {
        SetStage(j, Receiver.AbortingWriter);
      }
    }

    method WriterAborted(j: nat)
      requires j < |closers|
      modifies this`closers, this`phase, this`out
      ensures State() == Receiver.AbortedStep(old(State()), j, old(closers[j]).cause)
    {
      match closers[j].cause {
        case LocalAbort => Finish(j, Receiver.Resolved, Some(Cancelled));
        case RemoteAbort => SetStage(j, Receiver.SavingState);
        case Completion(_) => Finish(j, Receiver.Threw, Some(Error));
      }
    }

    /** The promise that handler j is waiting for has resolved. */
    method Advance(j: nat, now: int)
      modifies this
      ensures State() == Receiver.AdvanceStep(config, old(State()), j, now)
    {
      if j >= |closers| {
        return;
      }
      var k := closers[j];
      match k.stage {
        case AwaitQueue(upTo) => QueueSettled(j, upTo);
        case AbortingWriter => WriterAborted(j);
        case SavingState =>
          SaveCheckpoint(now);
          SetStage(j, Receiver.Finishing);
        case Digesting(ordered) =>
          if k.cause.Completion? {
            FileHashed(j, k.cause.fileHash, ordered);
          }
        case Finalizing => SetStage(j, Receiver.Clearing);
        case Clearing =>
          durable := durable.(saved := None);
          SetStage(j, Receiver.Finishing);
        case Finishing =>
          Finish(j, Receiver.Resolved, Some(if k.cause.Completion? then Complete else Cancelled));
        case Finished =>
      }
    }

    method CloserFailed(j: nat)
      modifies this`closers, this`phase, this`out
      ensures State() == Receiver.CloserFailsStep(old(State()), j)
    {
      if j < |closers| && !closers[j].stage.Finished? && !closers[j].stage.AwaitQueue? {
        Finish(j, Receiver.Threw, None);
      }
    }

    /** One await that settles, message that arrives or signal that fires. */
    method Perform(a: Receiver.Action)
      requires !a.Restart?
      modifies this
      ensures State() == Receiver.Step(config, old(State()), a)
    {
      match a {
        case Deliver(msg) => OnMessage(msg);
        case Confirm(accepted) => Confirmed(accepted);
        case Load(now) => LoadResume(now);
        case Open => WriterOpened();
        case EarlyAbortDone => EarlyAborted();
        case EarlyThrow => EarlyThrew();
        case Signal => Signal();
        case StartTask => StartTask();
        case WriteDone => ChunkWritten();
        case HashDone => ChunkHashed();
        case Save(now) => CheckpointSaved(now);
        case TaskFails(garbage) => TaskFailed(garbage);
        case QueueRejects => QueueRejected();
        case Advance(j, now) => Advance(j, now);
        case CloserFails(j) => CloserFailed(j);
      }
    }

    /** Whatever happens and in whatever order: one terminal event at most, sound digests, no chunk written twice. */
    method RunAll(acts: seq<Receiver.Action>)
      requires Valid() && NoRestart(acts)
      modifies this
      ensures Valid() && State() == Receiver.Run(config, old(State()), acts)
      ensures AtMostOneTerminal(out.events) && StoreInv(config.sha, durable) && Distinct(history.writes)
      ensures old(phase).Settled? ==> phase == old(phase) && out.events == old(out.events)
    {
      ghost var start := State();
      for i := 0 to |acts|
        invariant Valid() && State() == Receiver.Run(config, start, acts[..i])
        invariant start.phase.Settled? ==> phase == start.phase && out.events == start.out.events
      {
        RunOneMore(config, start, acts, i);
        StepKeepsValid(config, State(), acts[i]);
        Perform(acts[i]);
      }
      assert acts[..|acts|] == acts;
    }
  }

  lemma RunOneMore(c: Receiver.Config, r: Receiver.State, acts: seq<Receiver.Action>, i: nat)
    requires i < |acts|
    ensures Receiver.Run(c, r, acts[..i + 1]) == Receiver.Step(c, Receiver.Run(c, r, acts[..i]), acts[i])
  {
    assert acts[..i + 1][..i] == acts[..i];
  }

  lemma StepKeepsValid(c: Receiver.Config, r: Receiver.State, a: Receiver.Action)
    requires EventInv(r) && DurableInv(c, r) && WriteInv(r)
    ensures var r' := Receiver.Step(c, r, a); EventInv(r') && DurableInv(c, r') && WriteInv(r')
    ensures r.phase.Settled? && !a.Restart? ==>
              Receiver.Step(c, r, a).phase == r.phase && Receiver.Step(c, r, a).out.events == r.out.events
  {
    StepKeepsEvents(c, r, a);
    StepKeepsDurable(c, r, a);
    StepKeepsWrites(c, r, a);
  }

  /** What may happen to sendFile while it awaits something of its own. */
  datatype Interruption = Undisturbed | SignalRaised | AbortReceived

  function Interrupt(s: Sender.State, x: Interruption): Sender.State {
    match x
    case Undisturbed => s
    case SignalRaised => s.(signalled := true)
    case AbortReceived => Sender.OnAbort(s)
  }

  /** A round of sendFile's loop: check, read and hash, and beyond the resume point drain, check again and send. */
  function Round(sha: Sha, u: Sender.Upload, s: Sender.State, reading: Interruption, draining: Interruption)
    : Sender.State
  {
    var head := Sender.HeadStep(u, s);
    if !head.phase.Reading? then head
    else
      var read := Sender.ReadDoneStep(sha, u, Interrupt(head, reading));
      if read.phase.Draining? then Sender.DrainedStep(u, Interrupt(read, draining)) else read
  }

  /**
   * Where a round leaves the loop: at its head again, past its end, or out of it
   * because of a cancellation, announced to the user last and to the peer unless
   * the peer's abort was the reason.
   */
  predicate RoundOutcome(s: Sender.State) {
    && (s.phase.LoopHead? || s.phase.HashingFile? || s.phase.Returned?)
    && (s.phase.Returned? ==>
          && Sender.IsCancelled(s) && s.events != [] && s.events[|s.events| - 1] == Cancelled
          && (!s.remoteAborted ==> s.sent != [] && s.sent[|s.sent| - 1] == Abort))
  }

  lemma InterruptKeeps(sha: Sha, u: Sender.Upload, s: Sender.State, x: Interruption)
    requires SenderInv(sha, u, s)
    ensures SenderInv(sha, u, Interrupt(s, x))
  {
    match x
    case Undisturbed =>
    case SignalRaised => StepKeeps(sha, u, s, Sender.Signal);
    case AbortReceived => StepKeeps(sha, u, s, Sender.Deliver(Abort));
  }

  lemma RoundKeeps(sha: Sha, u: Sender.Upload, s: Sender.State, reading: Interruption, draining: Interruption)
    requires SenderInv(sha, u, s)
    ensures SenderInv(sha, u, Round(sha, u, s, reading, draining))
  {
    HeadKeeps(sha, u, s);
    var head := Sender.HeadStep(u, s);
    InterruptKeeps(sha, u, head, reading);
    ReadDoneKeeps(sha, u, Interrupt(head, reading));
    var read := Sender.ReadDoneStep(sha, u, Interrupt(head, reading));
    InterruptKeeps(sha, u, read, draining);
    DrainedKeeps(sha, u, Interrupt(read, draining));
  }

  lemma HeadEffect(u: Sender.Upload, s: Sender.State)
    requires s.phase.LoopHead?
    ensures var s' := Sender.HeadStep(u, s);
            && s'.i == s.i && s'.resumeFrom == s.resumeFrom && (Sender.IsCancelled(s') <==> Sender.IsCancelled(s))
            && (s'.phase.Reading? ==> s.i < u.meta.totalChunks && !Sender.IsCancelled(s))
            && (!s'.phase.Reading? ==> RoundOutcome(s') && !s'.phase.LoopHead?)
  {
  }

  lemma ReadEffect(sha: Sha, u: Sender.Upload, s: Sender.State)
    requires s.phase.Reading? && s.i < u.meta.totalChunks
    ensures var s' := Sender.ReadDoneStep(sha, u, s);
            && s'.resumeFrom == s.resumeFrom && (Sender.IsCancelled(s') <==> Sender.IsCancelled(s))
            && ((s'.phase.Draining? && s'.i == s.i) || (s'.phase.LoopHead? && s'.i == s.i + 1))
  {
  }

  lemma DrainEffect(u: Sender.Upload, s: Sender.State)
    requires s.phase.Draining? && s.i < u.meta.totalChunks
    ensures var s' := Sender.DrainedStep(u, s);
            && RoundOutcome(s') && s'.resumeFrom == s.resumeFrom
            && ((s'.phase.LoopHead? && s'.i == s.i + 1) || s'.phase.Returned?)
            && (Sender.IsCancelled(s') <==> Sender.IsCancelled(s))
  {
  }

  lemma RoundEffect(sha: Sha, u: Sender.Upload, s: Sender.State, reading: Interruption, draining: Interruption)
    requires s.phase.LoopHead?
    ensures var s' := Round(sha, u, s, reading, draining);
            && RoundOutcome(s') && s'.resumeFrom == s.resumeFrom
            && (s'.phase.LoopHead? ==> s.i < u.meta.totalChunks && s'.i == s.i + 1)
            && (Sender.IsCancelled(s') ==> Sender.IsCancelled(s) || reading != Undisturbed || draining != Undisturbed)
  {
    HeadEffect(u, s);
    var head := Sender.HeadStep(u, s);
    if head.phase.Reading? {
      ReadEffect(sha, u, Interrupt(head, reading));
      var read := Sender.ReadDoneStep(sha, u, Interrupt(head, reading));
      if read.phase.Draining? {
        DrainEffect(u, Interrupt(read, draining));
      }
    }
  }

  /** Having left the loop cancelled: the user knows, and the peer unless it was the one who cancelled. */
  predicate LeftCancelled(s: Sender.State) {
    && Sender.IsCancelled(s) && s.events != [] && s.events[|s.events| - 1] == Cancelled
    && (Abort in s.sent <==> !s.remoteAborted)
  }

  lemma ReturnedIsCancelled(sha: Sha, u: Sender.Upload, s: Sender.State)
    requires SenderInv(sha, u, s) && RoundOutcome(s) && s.phase.Returned?
    ensures LeftCancelled(s)
  {
    ClosingExcludes(sha, u, s);
    if !s.remoteAborted {
      assert s.sent[|s.sent| - 1] == Abort;
    }
  }

  predicate NeverDisturbed(interrupts: nat -> Interruption, n: nat) {
    forall k: nat :: k < n ==> interrupts(k) == Undisturbed
  }

  class SendSession {
    const sha: Sha
    const upload: Sender.Upload
    var phase: Sender.Phase
    var i: nat
    var accepted: bool
    var resumeFrom: nat
    var signalAborted: bool
    var remoteAborted: bool
    var chunkHashes: seq<string>
    var events: seq<TransferEvent>
    var sent: seq<Msg>

    ghost function State(): Sender.State
      reads this
    {
      Sender.State(phase, i, accepted, resumeFrom, signalAborted, remoteAborted, chunkHashes, events, sent)
    }

    constructor (sha: Sha, upload: Sender.Upload)
      ensures this.sha == sha && this.upload == upload && State() == Sender.BEGIN
    {
      this.sha, this.upload := sha, upload;
      phase, i, accepted, resumeFrom := Sender.Preparing, 0, false, 0;
      signalAborted, remoteAborted, chunkHashes, events, sent := false, false, [], [], [];
    }

    method BailIfCancelled() returns (cancelled: bool)
      modifies this
      ensures cancelled == Sender.IsCancelled(old(State()))
      ensures State() == if cancelled then Sender.Bail(old(State())) else old(State())
    {
      if !signalAborted && !remoteAborted {
        return false;
      }
      if !remoteAborted {
        sent := sent + [Abort];
      }
      events := events + [Cancelled];
      phase := Sender.Returned;
      return true;
    }

    method MetaBuilt()
      modifies this
      ensures State() == Sender.SendOfferStep(upload, old(State()))
    {
      if phase.Preparing? {
        sent := sent + [Offer(upload.meta)];
        phase := Sender.AwaitAccept;
      }
    }

    method OnMessage(msg: Msg)
      modifies this
      ensures State() == Sender.OnMessage(upload, old(State()), msg)
    {
      match msg {
        case Abort =>
          if phase.Preparing? || phase.Returned? || phase.Threw? {
            return;
          }
          remoteAborted := true;
          if phase.AwaitAccept? || phase.AwaitVerified? {
            var cancelled := BailIfCancelled();
          }
        case Accept(k) =>
          if phase.AwaitAccept? {
            accepted, resumeFrom := true, k;
            phase := if upload.meta.totalChunks <= MAX_ARRAY_LENGTH then Sender.LoopHead else Sender.Threw;
          }
        case Reject =>
          if phase.AwaitAccept? {
            events := events + [Rejected];
            phase := Sender.Returned;
          } else if phase.AwaitVerified? {
            phase := Sender.Threw;
          }
        case Verified(ok) =>
          if !phase.AwaitVerified? {
            return;
          }
          if ok {
            events := events + [Complete];
            phase := Sender.Returned;
          } else {
            events := events + [Error];
            phase := Sender.Threw;
          }
        case _ =>
      }
    }

    /** The head of the chunk loop; past the last chunk, the check in front of the file hash. */
    method LoopHead()
      modifies this
      ensures State() == Sender.HeadStep(upload, old(State()))
    {
      if !phase.LoopHead? {
        return;
      }
      var cancelled := BailIfCancelled();
      if !cancelled {
        phase := if i < upload.meta.totalChunks then Sender.Reading else Sender.HashingFile;
      }
    }

    method ChunkReadAndHashed()
      modifies this
      ensures State() == Sender.ReadDoneStep(sha, upload, old(State()))
    {
      if !phase.Reading? || i >= upload.meta.totalChunks {
        return;
      }
      chunkHashes := chunkHashes + [HashChunk(sha, ReadChunk(upload.bytes, i, upload.meta))];
      if i >= resumeFrom {
        phase := Sender.Draining;
      } else {
        phase, i := Sender.LoopHead, i + 1;
      }
    }

    method BufferDrained()
      modifies this
      ensures State() == Sender.DrainedStep(upload, old(State()))
    {
      if !phase.Draining? || i >= upload.meta.totalChunks {
        return;
      }
      var cancelled := BailIfCancelled();
      if !cancelled {
        sent := sent + [Chunk(Encode(i, ReadChunk(upload.bytes, i, upload.meta)))];
        events := events + [Progress(Min((i + 1) * upload.meta.chunkSize, upload.meta.size), i + 1)];
        phase, i := Sender.LoopHead, i + 1;
      }
    }

    method FileHashed()
      modifies this
      ensures State() == Sender.FileHashedStep(sha, old(State()))
    {
      if phase.HashingFile? {
        sent := sent + [TransferComplete(HashOfHashes(sha, chunkHashes))];
        phase := Sender.AwaitVerified;
      }
    }

    method Signal()
      modifies this`signalAborted
      ensures State() == Sender.Step(sha, upload, old(State()), Sender.Signal)
    {
      signalAborted := true;
    }

    method Disturb(x: Interruption)
      modifies this
      ensures State() == Interrupt(old(State()), x)
    {
      match x {
        case Undisturbed =>
        case SignalRaised => Signal();
        case AbortReceived => OnMessage(Abort);
      }
    }

    /** One round of the loop, with what happens while the chunk is read and hashed and while the buffer drains. */
    method ChunkRound(reading: Interruption, draining: Interruption)
      requires phase.LoopHead?
      modifies this
      ensures State() == Round(sha, upload, old(State()), reading, draining)
    {
      LoopHead();
      if !phase.Reading? {
        return;
      }
      Disturb(reading);
      ChunkReadAndHashed();
      if phase.Draining? {
        Disturb(draining);
        BufferDrained();
      }
    }

    /** A round, by what it keeps: the invariant, and the way out of the loop. */
    method SafeRound(reading: Interruption, draining: Interruption)
      requires phase.LoopHead? && SenderInv(sha, upload, State())
      modifies this
      ensures SenderInv(sha, upload, State()) && RoundOutcome(State()) && resumeFrom == old(resumeFrom)
      ensures phase.LoopHead? ==> i == old(i) + 1 <= upload.meta.totalChunks
      ensures !Sender.IsCancelled(old(State())) && reading == Undisturbed && draining == Undisturbed ==>
                !Sender.IsCancelled(State())
    {
      RoundKeeps(sha, upload, State(), reading, draining);
      RoundEffect(sha, upload, State(), reading, draining);
      ChunkRound(reading, draining);
    }

    /** Rounds until the last chunk is sent or a check finds the transfer cancelled. */
    method SendChunks(interrupts: nat -> Interruption)
      requires phase.LoopHead? && SenderInv(sha, upload, State())
      modifies this
      ensures SenderInv(sha, upload, State()) && RoundOutcome(State()) && !phase.LoopHead?
      ensures resumeFrom == old(resumeFrom)
      ensures !Sender.IsCancelled(old(State())) && NeverDisturbed(interrupts, 2 * upload.meta.totalChunks + 2) ==>
                !Sender.IsCancelled(State())
    {
      while phase.LoopHead?
        invariant SenderInv(sha, upload, State()) && RoundOutcome(State()) && resumeFrom == old(resumeFrom)
        invariant i <= upload.meta.totalChunks
        invariant !Sender.IsCancelled(old(State())) && NeverDisturbed(interrupts, 2 * upload.meta.totalChunks + 2) ==>
                    !Sender.IsCancelled(State())
        decreases phase.LoopHead?, upload.meta.totalChunks - i
      {
        SafeRound(interrupts(2 * i), interrupts(2 * i + 1));
      }
    }

    /** The loop from the accept on, and the file hash; interrupts(2 * i) and the next are for chunk i. */
    method SendLoop(interrupts: nat -> Interruption)
      requires phase.LoopHead? && SenderInv(sha, upload, State())
      modifies this
      ensures SenderInv(sha, upload, State()) && resumeFrom == old(resumeFrom)
      ensures phase.Returned? || phase.AwaitVerified?
      ensures phase.Returned? ==> LeftCancelled(State())
      ensures phase.AwaitVerified? ==>
                i == upload.meta.totalChunks
                && sent == Body(upload, State()) + [TransferComplete(FileHashOf(sha, upload))]
      ensures !Sender.IsCancelled(old(State())) && NeverDisturbed(interrupts, 2 * upload.meta.totalChunks + 2) ==>
                phase.AwaitVerified?
    {
      SendChunks(interrupts);
      if phase.HashingFile? {
        HashFile(interrupts(2 * i));
      } else {
        ReturnedIsCancelled(sha, upload, State());
      }
    }

    method HashFile(hashing: Interruption)
      requires phase.HashingFile? && SenderInv(sha, upload, State())
      modifies this
      ensures SenderInv(sha, upload, State()) && phase.AwaitVerified? && resumeFrom == old(resumeFrom)
      ensures i == upload.meta.totalChunks
      ensures sent == Body(upload, State()) + [TransferComplete(FileHashOf(sha, upload))]
    {
      InterruptKeeps(sha, upload, State(), hashing);
      Disturb(hashing);
      FileHashedKeeps(sha, upload, State());
      FileHashed();
    }

    method SignalSeen()
      modifies this
      ensures State() == Sender.Step(sha, upload, old(State()), Sender.SignalSeen)
    {
      if phase.AwaitAccept? && signalAborted {
        var cancelled := BailIfCancelled();
      }
    }

    method Failed()
      modifies this
      ensures State() == Sender.FailsStep(old(State()))
    {
      if !phase.Returned? && !phase.Threw? {
        phase := Sender.Threw;
      }
    }

    /** One await that settles, message that arrives or signal that fires. */
    method Perform(a: Sender.Action)
      modifies this
      ensures State() == Sender.Step(sha, upload, old(State()), a)
    {
      match a {
        case SendOffer => MetaBuilt();
        case Deliver(msg) => OnMessage(msg);
        case Signal => Signal();
        case SignalSeen => SignalSeen();
        case Head => LoopHead();
        case ReadDone => ChunkReadAndHashed();
        case Drained => BufferDrained();
        case FileHashed => FileHashed();
        case Fails => Failed();
      }
    }

    /** Whatever happens and in whatever order: the wire, the digests and the events fit, with one outcome at most. */
    method RunAll(acts: seq<Sender.Action>)
      requires SenderInv(sha, upload, State())
      modifies this
      ensures SenderInv(sha, upload, State()) && AtMostOneTerminal(events)
      ensures phase.Returned? ==> EndsTerminal(events)
      ensures Abort in sent ==> EndsTerminal(events) && events[|events| - 1] == Cancelled && !remoteAborted
      ensures forall h :: TransferComplete(h) in sent ==> Abort !in sent && h == FileHashOf(sha, upload)
    {
      for i := 0 to |acts|
        invariant SenderInv(sha, upload, State())
      {
        StepKeeps(sha, upload, State(), acts[i]);
        Perform(acts[i]);
      }
      ClosingExcludes(sha, upload, State());
    }
  }
}
