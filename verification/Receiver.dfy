/**
 * receiveFile of transfer-engine/src/transferSession.ts as a state machine:
 * one step per await of an I/O promise, per incoming message and per signal.
 * A step that is not enabled leaves the state as it is.
 */
module Receiver {
  import opened Basics
  import opened Chunking
  import opened HashChain
  import opened ChunkFrame
  import opened Resume
  import opened Protocol

  datatype Outcome = Resolved | Threw

  datatype Phase =
    | AwaitingOffer
    | Confirming
    | Loading
    | Opening
    | AbortingEarly
    | Transferring
    | Settled(outcome: Outcome)

  /** Where the handler at the head of processingQueue is suspended. */
  datatype Task =
    | Idle
    | Writing(index: nat, data: Bytes)
    | Hashing(index: nat, data: Bytes)
    | Saving

  datatype Cause = LocalAbort | RemoteAbort | Completion(fileHash: string)

  /** Where an abort handler or a transfer-complete handler is suspended; upTo is the queue it captured. */
  datatype Stage =
    | AwaitQueue(upTo: nat)
    | AbortingWriter
    | SavingState
    | Digesting(ordered: seq<string>)
    | Finalizing
    | Clearing
    | Finishing
    | Finished

  datatype Closer = Closer(cause: Cause, stage: Stage)

  /** `shared` is MemoryResumeStore, whose entry aliases the live chunkHashes object. */
  datatype Config = Config(sha: Sha, checkpointEvery: int, shared: bool)

  /** The flags raised before the transfer loop looks at them. */
  datatype Flags = Flags(pendingAbort: bool, signalled: bool)

  /** receivedIndices, chunkHashes and sinceCheckpoint, once the resume state has been loaded. */
  datatype Tally = Tally(
    loaded: bool, startFrom: nat, received: set<nat>, hashes: map<nat, string>, sinceCheckpoint: nat)

  /** processingQueue: the frames not yet taken up, the handlers chained and finished, the one suspended. */
  datatype Queue = Queue(frames: seq<Bytes>, enqueued: nat, done: nat, failed: bool, task: Task)

  /** What the session has told its user and its peer. */
  datatype Output = Output(events: seq<TransferEvent>, sent: seq<Msg>)

  /** What outlives the session: the chunks on disk and the entry of the resume store. */
  datatype Durable = Durable(disk: map<nat, Bytes>, saved: Option<ResumeState>)

  /** Every writeChunk call of the session, and the digest list that matched the sender's file hash. */
  datatype History = History(writes: seq<Frame>, matched: Option<seq<string>>)

  datatype State = State(
    phase: Phase,
    meta: Meta,
    flags: Flags,
    tally: Tally,
    queue: Queue,
    closers: seq<Closer>,
    out: Output,
    durable: Durable,
    history: History)

  datatype Action =
    | Deliver(msg: Msg)
    | Confirm(accepted: bool)
    | Load(now: int)
    | Open
    | EarlyAbortDone
    | EarlyThrow
    | Signal
    | StartTask
    | WriteDone
    | HashDone
    | Save(now: int)
    | TaskFails(garbage: Option<Bytes>)
    | QueueRejects
    | Advance(closer: nat, now: int)
    | CloserFails(closer: nat)
    | Restart(garbage: Option<Bytes>)

  const NO_META: Meta := Meta(0, 1, 0)

  /** A session about to start over what earlier sessions left on disk and in the resume store. */
  function Begin(durable: Durable): State {
    State(AwaitingOffer, NO_META, Flags(false, false), Tally(false, 0, {}, map[], 0), Queue([], 0, 0, false, Idle),
          [], Output([], []), durable, History([], None))
  }

  function Emit(out: Output, event: TransferEvent): Output {
    out.(events := out.events + [event])
  }

  function Send(out: Output, msg: Msg): Output {
    out.(sent := out.sent + [msg])
  }

  function AddCloser(r: State, cause: Cause): State {
    r.(closers := r.closers + [Closer(cause, AwaitQueue(r.queue.enqueued))])
  }

  function WithStage(closers: seq<Closer>, j: nat, stage: Stage): seq<Closer>
    requires j < |closers|
  {
    closers[j := closers[j].(stage := stage)]
  }

  function SetStage(r: State, j: nat, stage: Stage): State
    requires j < |r.closers|
  {
    r.(closers := WithStage(r.closers, j, stage))
  }

  /** finish(): the first caller settles the transfer, every later one is ignored. */
  function Finish(r: State, j: nat, outcome: Outcome, event: Option<TransferEvent>): State
    requires j < |r.closers|
  {
    if !r.phase.Transferring? then SetStage(r, j, Finished)
    else r.(closers := WithStage(r.closers, j, Finished), phase := Settled(outcome),
            out := if event.Some? then Emit(r.out, event.value) else r.out)
  }

  function OnAbort(r: State): State {
    match r.phase
    case AwaitingOffer => r
    case Settled(_) => r
    case Transferring => AddCloser(r, RemoteAbort)
    case _ => r.(flags := r.flags.(pendingAbort := true))
  }

  function Enqueue(q: Queue, frame: Bytes): Queue {
    q.(frames := q.frames + [frame], enqueued := q.enqueued + 1)
  }

  function OnMessage(r: State, msg: Msg): State {
    match msg
    case Offer(m) => if r.phase.AwaitingOffer? then r.(phase := Confirming, meta := m) else r
    case Abort => OnAbort(r)
    case Chunk(frame) => if r.phase.Transferring? then r.(queue := Enqueue(r.queue, frame)) else r
    case TransferComplete(h) => if r.phase.Transferring? then AddCloser(r, Completion(h)) else r
    case _ => r
  }

  function ConfirmStep(r: State, accepted: bool): State {
    if !r.phase.Confirming? then r
    else if r.flags.pendingAbort then r.(phase := Settled(Resolved), out := Emit(r.out, Cancelled))
    else if !accepted then r.(phase := Settled(Resolved), out := Send(r.out, Reject))
    else r.(phase := Loading)
  }

  function LoadTally(existing: Option<ResumeState>): Tally {
    match existing
    case None => Tally(true, 0, {}, map[], 0)
    case Some(e) => Tally(true, ResumePoint(e.received), e.received, e.hashes, 0)
  }

  function LoadStep(r: State, now: int): State {
    if !r.phase.Loading? then r
    else
      var existing := Live(r.durable.saved, now);
      r.(phase := Opening, tally := LoadTally(existing), durable := r.durable.(saved := existing))
  }

  function LocalAbortStep(r: State): State {
    AddCloser(r, LocalAbort).(out := Send(r.out, Abort))
  }

  function OpenStep(r: State): State {
    if !r.phase.Opening? then r
    else if r.flags.pendingAbort then r.(phase := AbortingEarly)
    else
      var r' := r.(phase := Transferring, out := Send(r.out, Accept(r.tally.startFrom)));
      if r.flags.signalled then LocalAbortStep(r') else r'
  }

  function EarlyAbortStep(r: State): State {
    if !r.phase.AbortingEarly? then r else r.(phase := Settled(Resolved), out := Emit(r.out, Cancelled))
  }

  /** confirm(), load(), open() or the early abort() throws. */
  function EarlyThrowStep(r: State): State {
    match r.phase
    case AwaitingOffer => r
    case Transferring => r
    case Settled(_) => r
    case _ => r.(phase := Settled(Threw))
  }

  function SignalStep(r: State): State {
    if r.flags.signalled then r
    else
      var r' := r.(flags := r.flags.(signalled := true));
      if r.phase.Transferring? then LocalAbortStep(r') else r'
  }

  function Skip(q: Queue): Queue
    requires q.frames != []
  {
    q.(frames := q.frames[1..], done := q.done + 1)
  }

  /** The next handler of the processing queue, up to its first await. */
  function StartTaskStep(r: State): State {
    var q := r.queue;
    if q.frames == [] || q.task != Idle || q.failed then r
    else if r.phase.Settled? then r.(queue := Skip(q))
    else if !r.phase.Transferring? then r
    else
      var f := Decode(q.frames[0]);
      if f.None? then r.(queue := q.(frames := q.frames[1..], failed := true))
      else if f.value.index in r.tally.received then r.(queue := Skip(q))
      else r.(queue := q.(frames := q.frames[1..], task := Writing(f.value.index, f.value.data)),
              history := r.history.(writes := r.history.writes + [f.value]))
  }

  function WriteDoneStep(r: State): State {
    match r.queue.task
    case Writing(i, data) =>
      r.(queue := r.queue.(task := Hashing(i, data)), durable := r.durable.(disk := r.durable.disk[i := data]))
    case _ => r
  }

  /** chunkHashes[index] = h is seen by the store's entry as well when that shares the object. */
  function Aliased(c: Config, d: Durable, hashes: map<nat, string>): Durable {
    if c.shared && d.saved.Some? then d.(saved := Some(d.saved.value.(hashes := hashes))) else d
  }

  function ProgressOf(received: set<nat>, m: Meta): TransferEvent {
    Progress(Min(|received| * m.chunkSize, m.size), |received|)
  }

  function HashDoneStep(c: Config, r: State): State {
    match r.queue.task
    case Hashing(i, data) =>
      var hashes := r.tally.hashes[i := HashChunk(c.sha, data)];
      var durable := Aliased(c, r.durable, hashes);
      var idle := r.queue.(task := Idle, done := r.queue.done + 1);
      if r.phase.Settled? then r.(tally := r.tally.(hashes := hashes), durable := durable, queue := idle)
      else
        var received := r.tally.received + {i};
        var due := r.tally.sinceCheckpoint + 1 >= c.checkpointEvery;
        r.(tally := r.tally.(hashes := hashes, received := received,
                             sinceCheckpoint := if due then 0 else r.tally.sinceCheckpoint + 1),
           durable := durable,
           queue := if due then r.queue.(task := Saving) else idle,
           out := Emit(r.out, ProgressOf(received, r.meta)))
    case _ => r
  }

  function Snapshot(t: Tally, now: int): ResumeState {
    ResumeState(t.received, t.hashes, now)
  }

  function Checkpoint(r: State, now: int): Durable {
    r.durable.(saved := Some(Snapshot(r.tally, now)))
  }

  function SaveStep(r: State, now: int): State {
    if !r.queue.task.Saving? then r
    else r.(durable := Checkpoint(r, now), queue := r.queue.(task := Idle, done := r.queue.done + 1))
  }

  /** What an unfinished write leaves behind is anything. */
  function Smudge(d: Durable, task: Task, garbage: Option<Bytes>): Durable {
    if !task.Writing? then d
    else if garbage.Some? then d.(disk := d.disk[task.index := garbage.value])
    else d.(disk := d.disk - {task.index})
  }

  function TaskFailsStep(r: State, garbage: Option<Bytes>): State {
    if r.queue.task == Idle then r
    else r.(durable := Smudge(r.durable, r.queue.task, garbage), queue := r.queue.(task := Idle, failed := true))
  }

  /** The rejection of the queue settles a transfer that is still going on. */
  function QueueRejectsStep(r: State): State {
    if r.queue.failed && r.phase.Transferring? then r.(phase := Settled(Threw)) else r
  }

  /** The captured queue promise has settled: done for good, or rejected by a failed handler. */
  function QueueStep(r: State, j: nat, cause: Cause, upTo: nat): State
    requires j < |r.closers|
  {
    if r.queue.done < upTo && !r.queue.failed then r
    else if !cause.Completion? then SetStage(r, j, AbortingWriter)
    else if r.queue.done < upTo || !Hashable(r.tally.hashes, r.meta.totalChunks) then Finish(r, j, Threw, None)
    else SetStage(r, j, Digesting(Ordered(r.tally.hashes, r.meta.totalChunks)))
  }

  function DigestStep(c: Config, r: State, j: nat, fileHash: string, ordered: seq<string>): State
    requires j < |r.closers|
  {
    var ok := HashOfHashes(c.sha, ordered) == fileHash;
    r.(closers := WithStage(r.closers, j, if ok then Finalizing else AbortingWriter),
       out := Send(r.out, Verified(ok)),
       history := if ok then r.history.(matched := Some(ordered)) else r.history)
  }

  function AbortedStep(r: State, j: nat, cause: Cause): State
    requires j < |r.closers|
  {
    match cause
    case LocalAbort => Finish(r, j, Resolved, Some(Cancelled))
    case RemoteAbort => SetStage(r, j, SavingState)
    case Completion(_) => Finish(r, j, Threw, Some(Error))
  }

  /** SavingState and Clearing: the store is updated by the call itself, its promise settles later. */
  function StoreStep(r: State, j: nat, durable: Durable): State
    requires j < |r.closers|
  {
    r.(closers := WithStage(r.closers, j, Finishing), durable := durable)
  }

  function AdvanceStep(c: Config, r: State, j: nat, now: int): State {
    if j >= |r.closers| then r
    else
      var k := r.closers[j];
      match k.stage
      case AwaitQueue(upTo) => QueueStep(r, j, k.cause, upTo)
      case AbortingWriter => AbortedStep(r, j, k.cause)
      case SavingState => StoreStep(r, j, Checkpoint(r, now))
      case Digesting(ordered) => if k.cause.Completion? then DigestStep(c, r, j, k.cause.fileHash, ordered) else r
      case Finalizing => SetStage(r, j, Clearing)
      case Clearing => StoreStep(r, j, r.durable.(saved := None))
      case Finishing => Finish(r, j, Resolved, Some(if k.cause.Completion? then Complete else Cancelled))
      case Finished => r
  }

  /** writer.abort(), finalize(), save(), clear() or the digest rejects. */
  function CloserFailsStep(r: State, j: nat): State {
    if j >= |r.closers| || r.closers[j].stage.Finished? || r.closers[j].stage.AwaitQueue? then r
    else Finish(r, j, Threw, None)
  }

  /** The process or the channel goes away, and a new session opens on what is durable. */
  function RestartStep(r: State, garbage: Option<Bytes>): State {
    Begin(Smudge(r.durable, r.queue.task, garbage))
  }

  function Step(c: Config, r: State, a: Action): State {
    match a
    case Deliver(msg) => OnMessage(r, msg)
    case Confirm(accepted) => ConfirmStep(r, accepted)
    case Load(now) => LoadStep(r, now)
    case Open => OpenStep(r)
    case EarlyAbortDone => EarlyAbortStep(r)
    case EarlyThrow => EarlyThrowStep(r)
    case Signal => SignalStep(r)
    case StartTask => StartTaskStep(r)
    case WriteDone => WriteDoneStep(r)
    case HashDone => HashDoneStep(c, r)
    case Save(now) => SaveStep(r, now)
    case TaskFails(garbage) => TaskFailsStep(r, garbage)
    case QueueRejects => QueueRejectsStep(r)
    case Advance(j, now) => AdvanceStep(c, r, j, now)
    case CloserFails(j) => CloserFailsStep(r, j)
    case Restart(garbage) => RestartStep(r, garbage)
  }

  function Run(c: Config, r: State, acts: seq<Action>): State {
    if |acts| == 0 then r else Step(c, Run(c, r, acts[..|acts| - 1]), acts[|acts| - 1])
  }
}
