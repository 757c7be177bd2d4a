/** What receiveFile keeps under every interleaving of every message, suspension, abort and failure. */
module ReceiverSafety {
  import opened Basics
  import opened Chunking
  import opened HashChain
  import opened ChunkFrame
  import opened Resume
  import opened Protocol
  import opened Receiver
  import opened DiskWriters

  // ---- what a step of an abort or completion handler can change ----

  /** Settling appends at most one event, and that one is terminal. */
  predicate SettlesOnce(r: State, r': State) {
    var before, after := r.out.events, r'.out.events;
    || (r'.phase == r.phase && after == before)
    || (r.phase.Transferring? && r'.phase.Settled?
        && (after == before
            || (after != [] && after == before + [after[|after| - 1]] && !after[|after| - 1].Progress?)))
  }

  predicate CloserEffect(r: State, r': State, now: int) {
    && r'.meta == r.meta && r'.flags == r.flags && r'.tally == r.tally && r'.queue == r.queue
    && r'.durable.disk == r.durable.disk && r'.history.writes == r.history.writes
    && (r'.durable.saved == r.durable.saved || r'.durable.saved == None
        || r'.durable.saved == Some(Snapshot(r.tally, now)))
    && |r'.closers| == |r.closers|
    && SettlesOnce(r, r')
  }

  lemma AdvanceEffect(c: Config, r: State, j: nat, now: int)
    ensures CloserEffect(r, AdvanceStep(c, r, j, now), now)
  {
  }

  lemma CloserFailsEffect(r: State, j: nat, now: int)
    ensures CloserEffect(r, CloserFailsStep(r, j), now)
  {
  }

  // ---- what a message, a signal or a step before the transfer loop can change ----

  predicate IsEarly(a: Action) {
    a.Deliver? || a.Confirm? || a.Load? || a.Open? || a.EarlyAbortDone? || a.EarlyThrow? || a.Signal? || a.QueueRejects?
  }

  predicate Loads(r: State, r': State) {
    && r.phase.Loading? && r'.phase.Opening?
    && r'.tally == LoadTally(r'.durable.saved)
    && r'.durable.disk == r.durable.disk
    && (r'.durable.saved == r.durable.saved || r'.durable.saved == None)
  }

  predicate EarlyEffect(r: State, r': State) {
    && r'.history == r.history
    && ((r'.tally == r.tally && r'.durable == r.durable && !(EarlyPhase(r.phase) && LatePhase(r'.phase)))
        || Loads(r, r'))
    && (r'.queue == r.queue || (r.phase.Transferring? && r'.queue == r.queue.(frames := r'.queue.frames,
                                                                             enqueued := r.queue.enqueued + 1)))
    && (r'.closers == r.closers || r.phase.Transferring? || r.phase.Opening?)
    && (r.phase.Settled? ==> r'.phase == r.phase)
    && (r'.phase.Transferring? ==> r.phase.Transferring? || r.phase.Opening?)
    && (LatePhase(r.phase) ==> LatePhase(r'.phase) || r'.phase.Settled?)
  }

  predicate EarlyPhase(p: Phase) {
    p.AwaitingOffer? || p.Confirming? || p.Loading?
  }

  predicate LatePhase(p: Phase) {
    p.Opening? || p.AbortingEarly? || p.Transferring?
  }

  lemma EarlyStepEffect(c: Config, r: State, a: Action)
    requires IsEarly(a)
    ensures EarlyEffect(r, Step(c, r, a))
  {
  }

  // ---- one terminal event, then silence ----

  predicate EventInv(r: State) {
    AtMostOneTerminal(r.out.events) && (!r.phase.Settled? ==> OnlyProgress(r.out.events))
  }

  lemma StepKeepsEvents(c: Config, r: State, a: Action)
    requires EventInv(r)
    ensures EventInv(Step(c, r, a))
    ensures r.phase.Settled? && !a.Restart? ==>
              Step(c, r, a).phase == r.phase && Step(c, r, a).out.events == r.out.events
  {
    match a
    case Advance(j, now) => AdvanceEffect(c, r, j, now);
    case CloserFails(j) => CloserFailsEffect(r, j, 0);
    case _ =>
  }

  lemma {:induction false} RunKeepsEvents(c: Config, r: State, acts: seq<Action>)
    requires EventInv(r)
    ensures EventInv(Run(c, r, acts))
  {
    if |acts| > 0 {
      RunKeepsEvents(c, r, acts[..|acts| - 1]);
      StepKeepsEvents(c, Run(c, r, acts[..|acts| - 1]), acts[|acts| - 1]);
    }
  }

  predicate NoRestart(acts: seq<Action>) {
    forall i :: 0 <= i < |acts| ==> !acts[i].Restart?
  }

  /**
   * Event linearity: in every run of a session at most one terminal event is
   * emitted and it is the last event; and from the moment the session has
   * settled no action whatsoever makes it emit another one.
   */
  lemma {:induction false} EventLinearity(c: Config, d: Durable, acts: seq<Action>, more: seq<Action>)
    requires NoRestart(more)
    ensures AtMostOneTerminal(Run(c, Begin(d), acts).out.events)
    ensures var r := Run(c, Begin(d), acts);
            r.phase.Settled? ==> Run(c, r, more).out.events == r.out.events && Run(c, r, more).phase == r.phase
    decreases |more|
  {
    RunKeepsEvents(c, Begin(d), acts);
    var r := Run(c, Begin(d), acts);
    if |more| > 0 {
      var init := more[..|more| - 1];
      EventLinearity(c, d, acts, init);
      RunKeepsEvents(c, r, init);
      StepKeepsEvents(c, Run(c, r, init), more[|more| - 1]);
    }
  }

  // ---- the durable invariant, over any number of sessions ----

  /** Every digest recorded for an index of s is the digest of the bytes durably stored at that index. */
  predicate HashesMatch(sha: Sha, s: set<nat>, hashes: map<nat, string>, disk: map<nat, Bytes>) {
    forall i :: i in s ==> i in hashes && i in disk && hashes[i] == HashChunk(sha, disk[i])
  }

  predicate StoreInv(sha: Sha, d: Durable) {
    d.saved.Some? ==> HashesMatch(sha, d.saved.value.received, d.saved.value.hashes, d.disk)
  }

  predicate TaskInv(t: Task, received: set<nat>, disk: map<nat, Bytes>) {
    match t
    case Writing(i, _) => i !in received
    case Hashing(i, data) => i !in received && i in disk && disk[i] == data
    case _ => true
  }

  predicate LoadedInv(r: State) {
    && (r.tally.loaded && r.durable.saved.Some? ==> r.durable.saved.value.received <= r.tally.received)
    && (!r.tally.loaded ==> r.tally == Begin(r.durable).tally && r.queue == Begin(r.durable).queue && r.closers == [])
    && (!r.phase.Settled? ==> (r.tally.loaded <==> !EarlyPhase(r.phase)))
  }

  predicate DurableInv(c: Config, r: State) {
    && StoreInv(c.sha, r.durable)
    && HashesMatch(c.sha, r.tally.received, r.tally.hashes, r.durable.disk)
    && TaskInv(r.queue.task, r.tally.received, r.durable.disk)
    && LoadedInv(r)
  }

  lemma CloserKeepsDurable(c: Config, r: State, r': State, now: int)
    requires DurableInv(c, r) && CloserEffect(r, r', now)
    requires r.closers == [] ==> r' == r
    ensures DurableInv(c, r')
  {
  }

  lemma HashDoneKeepsDurable(c: Config, r: State)
    requires DurableInv(c, r)
    ensures DurableInv(c, HashDoneStep(c, r))
  {
  }

  lemma StartTaskKeepsDurable(c: Config, r: State)
    requires DurableInv(c, r)
    ensures DurableInv(c, StartTaskStep(r))
  {
  }

  lemma WriteDoneKeepsDurable(c: Config, r: State)
    requires DurableInv(c, r)
    ensures DurableInv(c, WriteDoneStep(r))
  {
  }

  lemma SaveKeepsDurable(c: Config, r: State, now: int)
    requires DurableInv(c, r)
    ensures DurableInv(c, SaveStep(r, now))
  {
  }

  lemma TaskFailsKeepsDurable(c: Config, r: State, garbage: Option<Bytes>)
    requires DurableInv(c, r)
    ensures DurableInv(c, TaskFailsStep(r, garbage))
  {
  }

  lemma RestartKeepsDurable(c: Config, r: State, garbage: Option<Bytes>)
    requires DurableInv(c, r)
    ensures DurableInv(c, RestartStep(r, garbage))
  {
  }

  lemma TaskStepsKeepDurable(c: Config, r: State, a: Action)
    requires DurableInv(c, r) && (a.WriteDone? || a.Save? || a.TaskFails? || a.Restart?)
    ensures DurableInv(c, Step(c, r, a))
  {
    match a
    case WriteDone => WriteDoneKeepsDurable(c, r);
    case Save(now) => SaveKeepsDurable(c, r, now);
    case TaskFails(garbage) => TaskFailsKeepsDurable(c, r, garbage);
    case Restart(garbage) => RestartKeepsDurable(c, r, garbage);
  }

  lemma EarlyStepsKeepDurable(c: Config, r: State, a: Action)
    requires DurableInv(c, r) && IsEarly(a)
    ensures DurableInv(c, Step(c, r, a))
  {
    EarlyStepEffect(c, r, a);
    EarlyEffectKeepsDurable(c, r, Step(c, r, a));
  }

  lemma EarlyEffectKeepsDurable(c: Config, r: State, r': State)
    requires DurableInv(c, r) && EarlyEffect(r, r')
    ensures DurableInv(c, r')
  {
  }

  lemma StepKeepsDurable(c: Config, r: State, a: Action)
    requires DurableInv(c, r)
    ensures DurableInv(c, Step(c, r, a))
  {
    match a
    case Advance(j, now) =>
      AdvanceEffect(c, r, j, now);
      CloserKeepsDurable(c, r, AdvanceStep(c, r, j, now), now);
    case CloserFails(j) =>
      CloserFailsEffect(r, j, 0);
      CloserKeepsDurable(c, r, CloserFailsStep(r, j), 0);
    case HashDone => HashDoneKeepsDurable(c, r);
    case StartTask => StartTaskKeepsDurable(c, r);
    case WriteDone => TaskStepsKeepDurable(c, r, a);
    case Save(_) => TaskStepsKeepDurable(c, r, a);
    case TaskFails(_) => TaskStepsKeepDurable(c, r, a);
    case Restart(_) => TaskStepsKeepDurable(c, r, a);
    case _ => EarlyStepsKeepDurable(c, r, a);
  }

  /**
   * Across any number of sessions for one file, whatever ended them and
   * whatever bytes the frames carried: each index of the persisted resume state
   * and of the live one has, on disk, the bytes its recorded digest is of.
   */
  lemma {:induction false} RunKeepsDurable(c: Config, d: Durable, acts: seq<Action>)
    requires StoreInv(c.sha, d)
    ensures DurableInv(c, Run(c, Begin(d), acts))
  {
    if |acts| > 0 {
      RunKeepsDurable(c, d, acts[..|acts| - 1]);
      StepKeepsDurable(c, Run(c, Begin(d), acts[..|acts| - 1]), acts[|acts| - 1]);
    }
  }

  // ---- each index is written at most once ----

  predicate TaskIs(t: Task, i: nat) {
    (t.Writing? || t.Hashing?) && t.index == i
  }

  predicate Distinct(writes: seq<Frame>) {
    forall j, k {:trigger writes[j], writes[k]} :: 0 <= j < k < |writes| ==> writes[j].index != writes[k].index
  }

  predicate WriteInv(r: State) {
    && Distinct(r.history.writes)
    && (r.phase.Transferring? && !r.queue.failed ==>
          forall j {:trigger r.history.writes[j]} :: 0 <= j < |r.history.writes| ==>
            r.history.writes[j].index in r.tally.received || TaskIs(r.queue.task, r.history.writes[j].index))
    && (r.history.writes != [] ==> r.phase.Transferring? || r.phase.Settled?)
  }

  lemma QueueStepsKeepWrites(c: Config, r: State, a: Action)
    requires WriteInv(r) && (a.StartTask? || a.WriteDone? || a.HashDone? || a.Save? || a.TaskFails? || a.Restart?)
    ensures WriteInv(Step(c, r, a))
  {
  }

  lemma StepKeepsWrites(c: Config, r: State, a: Action)
    requires WriteInv(r)
    ensures WriteInv(Step(c, r, a))
  {
    match a
    case Advance(j, now) => AdvanceEffect(c, r, j, now);
    case CloserFails(j) => CloserFailsEffect(r, j, 0);
    case _ =>
      if !IsEarly(a) {
        QueueStepsKeepWrites(c, r, a);
      }
  }

  lemma {:induction false} RunKeepsWrites(c: Config, d: Durable, acts: seq<Action>)
    ensures WriteInv(Run(c, Begin(d), acts))
  {
    if |acts| > 0 {
      RunKeepsWrites(c, d, acts[..|acts| - 1]);
      StepKeepsWrites(c, Run(c, Begin(d), acts[..|acts| - 1]), acts[|acts| - 1]);
    }
  }

  // ---- a fresh session: the digests are exactly those of what was written ----

  predicate Holds(sha: Sha, i: nat, hashes: map<nat, string>, written: map<nat, Bytes>, disk: map<nat, Bytes>) {
    i in hashes && i in written && i in disk && disk[i] == written[i] && hashes[i] == HashChunk(sha, written[i])
  }

  predicate FreshTask(t: Task, hashes: map<nat, string>, written: map<nat, Bytes>, disk: map<nat, Bytes>) {
    match t
    case Writing(i, data) => i !in hashes && i in written && written[i] == data
    case Hashing(i, data) => i !in hashes && i in written && written[i] == data && i in disk && disk[i] == data
    case _ => true
  }

  predicate FreshInv(c: Config, r: State) {
    var written := Keyed(r.history.writes);
    && (!r.tally.loaded ==> r.durable.saved == None)
    && (!r.phase.Settled? ==> r.tally.hashes.Keys <= r.tally.received)
    && (forall i :: i in r.tally.hashes ==> Holds(c.sha, i, r.tally.hashes, written, r.durable.disk))
    && FreshTask(r.queue.task, r.tally.hashes, written, r.durable.disk)
  }

  lemma KeyedAppend(writes: seq<Frame>, f: Frame)
    ensures Keyed(writes + [f]) == Keyed(writes)[f.index := f.data]
  {
    assert (writes + [f])[..|writes|] == writes;
  }

  /** A handler has started a write of a chunk that was not held. */
  predicate WriteStarts(r: State, r': State) {
    && r'.tally == r.tally && r'.durable == r.durable && r'.phase == r.phase && !r.phase.Settled?
    && r'.queue.task.Writing? && r'.queue.task.index !in r.tally.received
    && r'.history.writes == r.history.writes + [Frame(r'.queue.task.index, r'.queue.task.data)]
  }

  lemma StartTaskStarts(r: State)
    ensures var r' := StartTaskStep(r); r' == r.(queue := r'.queue.(task := r.queue.task)) || WriteStarts(r, r')
  {
  }

  lemma WriteStartKeepsFresh(c: Config, r: State, r': State)
    requires FreshInv(c, r) && WriteStarts(r, r')
    ensures FreshInv(c, r')
  {
    KeyedAppend(r.history.writes, Frame(r'.queue.task.index, r'.queue.task.data));
  }

  lemma StartTaskKeepsFresh(c: Config, r: State)
    requires FreshInv(c, r)
    ensures FreshInv(c, StartTaskStep(r))
  {
    StartTaskStarts(r);
    if WriteStarts(r, StartTaskStep(r)) {
      WriteStartKeepsFresh(c, r, StartTaskStep(r));
    }
  }

  lemma HashDoneKeepsFresh(c: Config, r: State)
    requires FreshInv(c, r)
    ensures FreshInv(c, HashDoneStep(c, r))
  {
  }

  lemma TaskStepsKeepFresh(c: Config, r: State, a: Action)
    requires DurableInv(c, r) && FreshInv(c, r) && (a.WriteDone? || a.Save? || a.TaskFails?)
    ensures FreshInv(c, Step(c, r, a))
  {
  }

  lemma EarlyStepsKeepFresh(c: Config, r: State, a: Action)
    requires DurableInv(c, r) && FreshInv(c, r) && IsEarly(a)
    ensures FreshInv(c, Step(c, r, a))
  {
    EarlyStepEffect(c, r, a);
    EarlyEffectKeepsFresh(c, r, Step(c, r, a));
  }

  lemma EarlyEffectKeepsFresh(c: Config, r: State, r': State)
    requires DurableInv(c, r) && FreshInv(c, r) && EarlyEffect(r, r')
    ensures FreshInv(c, r')
  {
  }

  lemma StepKeepsFresh(c: Config, r: State, a: Action)
    requires DurableInv(c, r) && FreshInv(c, r) && !a.Restart?
    ensures FreshInv(c, Step(c, r, a))
  {
    match a
    case Advance(j, now) => AdvanceEffect(c, r, j, now);
    case CloserFails(j) => CloserFailsEffect(r, j, 0);
    case StartTask => StartTaskKeepsFresh(c, r);
    case HashDone => HashDoneKeepsFresh(c, r);
    case WriteDone => TaskStepsKeepFresh(c, r, a);
    case Save(_) => TaskStepsKeepFresh(c, r, a);
    case TaskFails(_) => TaskStepsKeepFresh(c, r, a);
    case _ => EarlyStepsKeepFresh(c, r, a);
  }

  // ---- what a positive verification certifies ----

  predicate OrderedIn(ordered: seq<string>, hashes: map<nat, string>, n: nat) {
    |ordered| == n && forall i: nat :: i < n ==> i in hashes && ordered[i] == hashes[i]
  }

  /** Every digest list in use is the one on record, and every expected file hash is the sender's. */
  predicate CloserGenuine(k: Closer, hashes: map<nat, string>, n: nat, fileHash: string) {
    && (k.cause.Completion? ==> k.cause.fileHash == fileHash)
    && (k.stage.Digesting? ==> OrderedIn(k.stage.ordered, hashes, n))
  }

  predicate MatchedInv(c: Config, r: State, fileHash: string) {
    && (r.history.matched.Some? ==>
          OrderedIn(r.history.matched.value, r.tally.hashes, r.meta.totalChunks)
          && HashOfHashes(c.sha, r.history.matched.value) == fileHash)
    && (Verified(true) in r.out.sent ==> r.history.matched.Some?)
  }

  predicate GenuineInv(c: Config, r: State, fileHash: string, m: Meta) {
    && (forall j :: 0 <= j < |r.closers| ==> CloserGenuine(r.closers[j], r.tally.hashes, r.meta.totalChunks, fileHash))
    && MatchedInv(c, r, fileHash)
    && (if r.phase.AwaitingOffer? then r.history.matched == None else r.meta == m)
  }

  /** Control messages are the real sender's; frames may be anything, in any order, any number of times. */
  predicate GenuineAction(a: Action, fileHash: string, m: Meta) {
    a.Deliver? ==> (a.msg.Offer? ==> a.msg.meta == m) && (a.msg.TransferComplete? ==> a.msg.fileHash == fileHash)
  }

  predicate Genuine(acts: seq<Action>, fileHash: string, m: Meta) {
    forall i :: 0 <= i < |acts| ==> GenuineAction(acts[i], fileHash, m)
  }

  lemma QueueStepKeepsGenuine(c: Config, r: State, j: nat, upTo: nat, fileHash: string, m: Meta)
    requires GenuineInv(c, r, fileHash, m) && j < |r.closers|
    ensures GenuineInv(c, QueueStep(r, j, r.closers[j].cause, upTo), fileHash, m)
  {
  }

  lemma DigestKeepsGenuine(c: Config, r: State, j: nat, fileHash: string, m: Meta)
    requires GenuineInv(c, r, fileHash, m) && j < |r.closers|
    requires r.closers[j].cause.Completion? && r.closers[j].stage.Digesting?
    requires r.closers != [] ==> !r.phase.AwaitingOffer?
    ensures GenuineInv(c, DigestStep(c, r, j, r.closers[j].cause.fileHash, r.closers[j].stage.ordered), fileHash, m)
  {
  }

  lemma StageKeepsGenuine(c: Config, r: State, r': State, j: nat, stage: Stage, fileHash: string, m: Meta)
    requires GenuineInv(c, r, fileHash, m) && j < |r.closers| && !stage.Digesting?
    requires r'.closers == WithStage(r.closers, j, stage)
    requires r'.tally == r.tally && r'.meta == r.meta && r'.history == r.history && r'.out.sent == r.out.sent
    requires r'.phase.AwaitingOffer? <==> r.phase.AwaitingOffer?
    ensures GenuineInv(c, r', fileHash, m)
  {
  }

  lemma AdvanceKeepsGenuine(c: Config, r: State, j: nat, now: int, fileHash: string, m: Meta)
    requires GenuineInv(c, r, fileHash, m) && LoadedInv(r)
    ensures GenuineInv(c, AdvanceStep(c, r, j, now), fileHash, m)
  {
    if j < |r.closers| {
      var k := r.closers[j];
      var r' := AdvanceStep(c, r, j, now);
      match k.stage
      case AwaitQueue(upTo) => QueueStepKeepsGenuine(c, r, j, upTo, fileHash, m);
      case AbortingWriter =>
        StageKeepsGenuine(c, r, r', j, if k.cause.RemoteAbort? then SavingState else Finished, fileHash, m);
      case SavingState => StageKeepsGenuine(c, r, r', j, Finishing, fileHash, m);
      case Digesting(ordered) =>
        if k.cause.Completion? {
          DigestKeepsGenuine(c, r, j, fileHash, m);
        }
      case Finalizing => StageKeepsGenuine(c, r, r', j, Clearing, fileHash, m);
      case Clearing => StageKeepsGenuine(c, r, r', j, Finishing, fileHash, m);
      case Finishing => StageKeepsGenuine(c, r, r', j, Finished, fileHash, m);
      case Finished =>
    }
  }

  lemma HashDoneKeepsGenuine(c: Config, r: State, fileHash: string, m: Meta)
    requires GenuineInv(c, r, fileHash, m) && FreshInv(c, r) && LoadedInv(r)
    ensures GenuineInv(c, HashDoneStep(c, r), fileHash, m)
  {
    var hashes := HashDoneStep(c, r).tally.hashes;
    assert forall i :: i in r.tally.hashes ==> i in hashes && hashes[i] == r.tally.hashes[i];
    forall j | 0 <= j < |r.closers| ensures CloserGenuine(r.closers[j], hashes, r.meta.totalChunks, fileHash) {
      assert CloserGenuine(r.closers[j], r.tally.hashes, r.meta.totalChunks, fileHash);
    }
  }

  lemma MessageKeepsGenuine(c: Config, r: State, msg: Msg, fileHash: string, m: Meta)
    requires GenuineInv(c, r, fileHash, m) && LoadedInv(r)
    requires (msg.Offer? ==> msg.meta == m) && (msg.TransferComplete? ==> msg.fileHash == fileHash)
    ensures GenuineInv(c, OnMessage(r, msg), fileHash, m)
  {
  }

  lemma EarlyKeepsGenuine(c: Config, r: State, a: Action, fileHash: string, m: Meta)
    requires GenuineInv(c, r, fileHash, m) && LoadedInv(r) && IsEarly(a) && GenuineAction(a, fileHash, m)
    ensures GenuineInv(c, Step(c, r, a), fileHash, m)
  {
    if a.Deliver? {
      MessageKeepsGenuine(c, r, a.msg, fileHash, m);
    }
  }

  lemma TaskStepsKeepGenuine(c: Config, r: State, a: Action, fileHash: string, m: Meta)
    requires GenuineInv(c, r, fileHash, m) && (a.StartTask? || a.WriteDone? || a.Save? || a.TaskFails?)
    ensures GenuineInv(c, Step(c, r, a), fileHash, m)
  {
  }

  lemma StepKeepsGenuine(c: Config, r: State, a: Action, fileHash: string, m: Meta)
    requires GenuineInv(c, r, fileHash, m) && FreshInv(c, r) && DurableInv(c, r)
    requires GenuineAction(a, fileHash, m) && !a.Restart?
    ensures GenuineInv(c, Step(c, r, a), fileHash, m)
  {
    match a
    case Advance(j, now) => AdvanceKeepsGenuine(c, r, j, now, fileHash, m);
    case CloserFails(j) =>
      if j < |r.closers| && CloserFailsStep(r, j) != r {
        StageKeepsGenuine(c, r, CloserFailsStep(r, j), j, Finished, fileHash, m);
      }
    case HashDone => HashDoneKeepsGenuine(c, r, fileHash, m);
    case _ =>
      if IsEarly(a) {
        EarlyKeepsGenuine(c, r, a, fileHash, m);
      } else {
        TaskStepsKeepGenuine(c, r, a, fileHash, m);
      }
  }

  lemma {:induction false} FreshRun(c: Config, disk: map<nat, Bytes>, acts: seq<Action>, fileHash: string, m: Meta)
    requires NoRestart(acts) && Genuine(acts, fileHash, m)
    ensures var r := Run(c, Begin(Durable(disk, None)), acts);
            DurableInv(c, r) && FreshInv(c, r) && WriteInv(r) && GenuineInv(c, r, fileHash, m)
  {
    RunKeepsDurable(c, Durable(disk, None), acts);
    RunKeepsWrites(c, Durable(disk, None), acts);
    if |acts| > 0 {
      var init := acts[..|acts| - 1];
      FreshRun(c, disk, init, fileHash, m);
      RunKeepsDurable(c, Durable(disk, None), init);
      var r := Run(c, Begin(Durable(disk, None)), init);
      StepKeepsFresh(c, r, acts[|acts| - 1]);
      StepKeepsGenuine(c, r, acts[|acts| - 1], fileHash, m);
    }
  }

  lemma {:induction false} KeyedIsWritten(writes: seq<Frame>, i: nat)
    ensures i in Keyed(writes) <==> Writes(writes, i)
    ensures Distinct(writes) ==>
              forall j {:trigger writes[j]} :: 0 <= j < |writes| && writes[j].index == i ==>
                i in Keyed(writes) && Keyed(writes)[i] == writes[j].data
  {
    if |writes| > 0 {
      var init, last := writes[..|writes| - 1], writes[|writes| - 1];
      KeyedIsWritten(init, i);
      assert forall j :: 0 <= j < |init| ==> init[j] == writes[j];
      if last.index == i {
        assert writes[|writes| - 1].index == i;
      } else if Writes(writes, i) {
        var j :| 0 <= j < |writes| && writes[j].index == i;
        assert init[j].index == i;
      }
    }
  }

  /** The chunk list a fresh session has written, once every index below n has been. */
  function Received(r: State, n: nat): seq<Bytes> {
    if Covers(Keyed(r.history.writes), n) then InOrder(Keyed(r.history.writes), n) else []
  }

  lemma MatchedIsWritten(c: Config, r: State, fileHash: string, m: Meta)
    requires FreshInv(c, r) && GenuineInv(c, r, fileHash, m) && Verified(true) in r.out.sent
    ensures r.meta == m && Covers(Keyed(r.history.writes), m.totalChunks)
    ensures r.history.matched == Some(HashAll(c.sha, Received(r, m.totalChunks)))
    ensures HashOfHashes(c.sha, HashAll(c.sha, Received(r, m.totalChunks))) == fileHash
    ensures forall i: nat :: i < m.totalChunks ==>
              i in r.durable.disk && r.durable.disk[i] == Received(r, m.totalChunks)[i]
  {
    var written := Keyed(r.history.writes);
    var ordered := r.history.matched.value;
    forall i: nat | i < m.totalChunks
      ensures i in written && i in r.durable.disk && r.durable.disk[i] == written[i]
              && ordered[i] == HashChunk(c.sha, written[i])
    {
      assert Holds(c.sha, i, r.tally.hashes, written, r.durable.disk);
    }
    assert ordered == HashAll(c.sha, InOrder(written, m.totalChunks));
  }

  /**
   * Integrity: in a fresh session with a genuine sender, whatever happened to
   * the frames in between, a positive verification means that every chunk of
   * the file was written exactly once and with exactly the source's bytes, so
   * that the file on disk begins with the source whatever it held before.
   */
  lemma IntegrityUnderArbitraryDelivery(c: Config, disk: map<nat, Bytes>, acts: seq<Action>, source: Bytes, m: Meta,
                                        file: Bytes)
    requires WellFormed(m) && |source| == m.size && NoRestart(acts)
    requires Genuine(acts, HashOfHashes(c.sha, HashAll(c.sha, Chunks(source, m))), m)
    requires Verified(true) in Run(c, Begin(Durable(disk, None)), acts).out.sent
    requires DistinguishesFiles(c.sha, Received(Run(c, Begin(Durable(disk, None)), acts), m.totalChunks),
                                Chunks(source, m))
    ensures var r := Run(c, Begin(Durable(disk, None)), acts);
            && Distinct(r.history.writes)
            && CoversAll(r.history.writes, m.totalChunks)
            && Faithful(r.history.writes, source, m)
            && (forall i: nat :: i < m.totalChunks ==>
                  i in r.durable.disk && r.durable.disk[i] == ReadChunk(source, i, m))
            && source <= WriteAll(file, r.history.writes, m.chunkSize)
  {
    var fileHash := HashOfHashes(c.sha, HashAll(c.sha, Chunks(source, m)));
    FreshRun(c, disk, acts, fileHash, m);
    var r := Run(c, Begin(Durable(disk, None)), acts);
    MatchedIsWritten(c, r, fileHash, m);
    FileHashDeterminesChunks(c.sha, Received(r, m.totalChunks), Chunks(source, m));
    WrittenIsSource(r, source, m);
    PositionalPrefix(file, r.history.writes, source, m);
  }

  lemma WrittenIsSource(r: State, source: Bytes, m: Meta)
    requires WellFormed(m) && |source| == m.size && Distinct(r.history.writes)
    requires Covers(Keyed(r.history.writes), m.totalChunks) && Received(r, m.totalChunks) == Chunks(source, m)
    ensures CoversAll(r.history.writes, m.totalChunks) && Faithful(r.history.writes, source, m)
    ensures forall i: nat :: i < m.totalChunks ==> Received(r, m.totalChunks)[i] == ReadChunk(source, i, m)
  {
    var writes := r.history.writes;
    forall i: nat | i < m.totalChunks ensures Writes(writes, i) {
      KeyedIsWritten(writes, i);
    }
    forall j | 0 <= j < |writes| && writes[j].index < m.totalChunks
      ensures writes[j].data == ReadChunk(source, writes[j].index, m)
    {
      KeyedIsWritten(writes, writes[j].index);
      assert Received(r, m.totalChunks)[writes[j].index] == Chunks(source, m)[writes[j].index];
    }
  }
}
