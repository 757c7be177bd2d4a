/**
 * sendFile and receiveFile joined by an ordered, reliable data channel, over
 * any number of sequential sessions for one file id. Between sessions the
 * source's bytes may change; the receiver's disk and resume store stay.
 */
module Session {
  import opened Basics
  import opened Chunking
  import opened HashChain
  import opened Protocol
  import Sender
  import Receiver

  /** The channel holds what its end has sent beyond what the other end has taken. */
  datatype System = System(
    upload: Sender.Upload,
    sender: Sender.State,
    receiver: Receiver.State,
    toReceiver: nat,
    toSender: nat)

  datatype Action =
    | SenderActs(s: Sender.Action)
    | ReceiverActs(r: Receiver.Action)
    | DeliverToReceiver
    | DeliverToSender
    | NewSession(bytes: Bytes, garbage: Option<Bytes>)

  function Begin(u: Sender.Upload, d: Receiver.Durable): System {
    System(u, Sender.BEGIN, Receiver.Begin(d), 0, 0)
  }

  /** The next message reaches the receiver. */
  function ReceiverGets(y: System): System {
    if y.toReceiver >= |y.sender.sent| then y
    else y.(receiver := Receiver.OnMessage(y.receiver, y.sender.sent[y.toReceiver]), toReceiver := y.toReceiver + 1)
  }

  /** The next reply reaches the sender. */
  function SenderGets(y: System): System {
    if y.toSender >= |y.receiver.out.sent| then y
    else
      var s := Sender.OnMessage(y.upload, y.sender, y.receiver.out.sent[y.toSender]);
      y.(sender := s, toSender := y.toSender + 1)
  }

  /** Both parties start again for the same file id, over what the receiver's session has left. */
  function Reopened(y: System, bytes: Bytes, garbage: Option<Bytes>): System {
    if |bytes| != y.upload.meta.size then y
    else System(Sender.Source(bytes, y.upload.meta), Sender.BEGIN, Receiver.RestartStep(y.receiver, garbage), 0, 0)
  }

  function Step(c: Receiver.Config, y: System, a: Action): System {
    match a
    case SenderActs(s) => if s.Deliver? then y else y.(sender := Sender.Step(c.sha, y.upload, y.sender, s))
    case ReceiverActs(r) =>
      if r.Deliver? || r.Restart? then y else y.(receiver := Receiver.Step(c, y.receiver, r))
    case DeliverToReceiver => ReceiverGets(y)
    case DeliverToSender => SenderGets(y)
    case NewSession(bytes, garbage) => Reopened(y, bytes, garbage)
  }

  /** A run by its states: ys[i] is the system after i of the actions. */
  predicate Run(c: Receiver.Config, acts: seq<Action>, ys: seq<System>) {
    && |ys| == |acts| + 1
    && forall i {:trigger acts[i]} :: 0 <= i < |acts| ==> ys[i + 1] == Step(c, ys[i], acts[i])
  }

  ghost predicate Reachable(c: Receiver.Config, y0: System, y: System) {
    exists acts, ys :: Run(c, acts, ys) && ys[0] == y0 && ys[|acts|] == y
  }

  /** Every list of actions is the actions of a run, from wherever it starts. */
  lemma {:induction false} RunExists(c: Receiver.Config, y0: System, acts: seq<Action>) returns (ys: seq<System>)
    ensures Run(c, acts, ys) && ys[0] == y0
    ensures Reachable(c, y0, ys[|acts|])
  {
    if acts == [] {
      ys := [y0];
    } else {
      var n := |acts| - 1;
      var init := RunExists(c, y0, acts[..n]);
      ys := init + [Step(c, init[n], acts[n])];
      assert forall i :: 0 <= i < n ==> acts[..n][i] == acts[i];
    }
  }

  lemma RunPrefix(c: Receiver.Config, acts: seq<Action>, ys: seq<System>)
    requires acts != [] && Run(c, acts, ys)
    ensures Run(c, acts[..|acts| - 1], ys[..|acts|])
    ensures ys[|acts|] == Step(c, ys[|acts| - 1], acts[|acts| - 1])
  {
    var n := |acts| - 1;
    forall i | 0 <= i < n ensures ys[..n + 1][i + 1] == Step(c, ys[..n + 1][i], acts[..n][i]) {
      assert acts[..n][i] == acts[i];
    }
    assert acts[n] == acts[|acts| - 1];
  }
}

/** What every interleaving of the two parties keeps. */
module SessionSafety {
  import opened Basics
  import opened Chunking
  import opened HashChain
  import opened ChunkFrame
  import opened Resume
  import opened Protocol
  import opened Session
  import opened Sender
  import opened SenderSafety
  import Receiver
  import opened ReceiverSafety

  type RState = Receiver.State

  // ---- the receiver's side of the stream ----

  /** {0, ..., k - 1} for some k <= n. */
  predicate IsPrefix(s: set<nat>, n: nat) {
    |s| <= n && (forall i: nat :: i < |s| ==> i in s) && (forall i: nat :: i in s ==> i < |s|)
  }

  predicate TaskFits(u: Upload, t: Receiver.Task, k: nat) {
    t.Writing? || t.Hashing? ==> t.index == k < u.meta.totalChunks && t.data == ReadChunk(u.bytes, k, u.meta)
  }

  predicate StoreFits(u: Upload, d: Receiver.Durable) {
    d.saved.Some? ==> IsPrefix(d.saved.value.received, u.meta.totalChunks)
  }

  /** What is held, live or persisted, is a prefix of the file, and the handler at work is on the next chunk. */
  predicate PrefixInv(u: Upload, r: RState) {
    && StoreFits(u, r.durable)
    && IsPrefix(r.tally.received, u.meta.totalChunks)
    && r.tally.startFrom <= |r.tally.received|
    && TaskFits(u, r.queue.task, |r.tally.received|)
  }

  function Busy(t: Receiver.Task): nat {
    if t.Idle? then 0 else 1
  }

  function Added(t: Receiver.Task): nat {
    if t.Saving? then 1 else 0
  }

  /** The frames of n chunks from a on, as bytes. */
  function FrameBytes(u: Upload, a: nat, n: nat): (frames: seq<Bytes>)
    requires a + n <= u.meta.totalChunks
    ensures |frames| == n
  {
    seq(n, j requires 0 <= j < n => FrameOf(u, a + j).frame)
  }

  predicate FramesFit(u: Upload, frames: seq<Bytes>, from: nat) {
    from + |frames| <= u.meta.totalChunks && (frames != [] ==> Listable(u)) && frames == FrameBytes(u, from, |frames|)
  }

  /** The queue of a transfer resumed at `from` continues exactly where the received prefix of length k ends. */
  predicate QueueFits(u: Upload, q: Receiver.Queue, from: nat, k: nat) {
    && k >= from + q.done
    && (q.failed ==> q.task.Idle?)
    && (!q.failed ==>
          && k == from + q.done + Added(q.task)
          && q.enqueued == q.done + Busy(q.task) + |q.frames|
          && FramesFit(u, q.frames, from + q.done + Busy(q.task)))
  }

  predicate QueueInv(u: Upload, r: RState) {
    r.phase.Transferring? ==> QueueFits(u, r.queue, r.tally.startFrom, |r.tally.received|)
  }

  /** One report per chunk added, and behind them at most one terminal event, once the session has settled. */
  predicate ReportInv(u: Upload, r: RState) {
    var events, reports := r.out.events, ProgressReports(u.meta, r.tally.startFrom, |r.tally.received|);
    || events == reports
    || (r.phase.Settled? && |events| == |reports| + 1 && events == reports + [events[|reports|]]
        && !events[|reports|].Progress?)
  }

  lemma PrefixGrows(s: set<nat>, n: nat)
    requires IsPrefix(s, n) && |s| < n
    ensures IsPrefix(s + {|s|}, n) && |s + {|s|}| == |s| + 1
  {
  }

  lemma FirstFrame(u: Upload, frames: seq<Bytes>, from: nat)
    requires frames != [] && FramesFit(u, frames, from)
    ensures Decode(frames[0]) == Some(Frame(from, ReadChunk(u.bytes, from, u.meta)))
    ensures FramesFit(u, frames[1..], from + 1)
  {
    assert frames[0] == FrameBytes(u, from, |frames|)[0] == FrameOf(u, from + 0).frame;
    FrameRoundTrip(from, ReadChunk(u.bytes, from, u.meta));
    assert frames[1..] == FrameBytes(u, from + 1, |frames| - 1);
  }

  lemma HeadOfQueue(u: Upload, q: Receiver.Queue, from: nat, k: nat)
    requires QueueFits(u, q, from, k) && q.frames != [] && q.task.Idle? && !q.failed
    ensures k == from + q.done < u.meta.totalChunks
    ensures Decode(q.frames[0]) == Some(Frame(k, ReadChunk(u.bytes, k, u.meta)))
    ensures QueueFits(u, q.(frames := q.frames[1..], task := Receiver.Writing(k, ReadChunk(u.bytes, k, u.meta))),
                      from, k)
  {
    FirstFrame(u, q.frames, from + q.done);
  }

  /** On the ordered channel the next handler always takes up the next chunk. */
  lemma StartTaskTakesNext(u: Upload, r: RState)
    requires QueueFits(u, r.queue, r.tally.startFrom, |r.tally.received|)
    requires IsPrefix(r.tally.received, u.meta.totalChunks)
    requires r.phase.Transferring? && r.queue.frames != [] && r.queue.task.Idle? && !r.queue.failed
    ensures var k := |r.tally.received|;
            && k < u.meta.totalChunks
            && Receiver.StartTaskStep(r)
            == r.(queue := r.queue.(frames := r.queue.frames[1..],
                                    task := Receiver.Writing(k, ReadChunk(u.bytes, k, u.meta))),
                  history := r.history.(writes := r.history.writes + [Frame(k, ReadChunk(u.bytes, k, u.meta))]))
    ensures QueueFits(u, Receiver.StartTaskStep(r).queue, r.tally.startFrom, |r.tally.received|)
  {
    HeadOfQueue(u, r.queue, r.tally.startFrom, |r.tally.received|);
  }

  lemma StartTaskKeepsStream(u: Upload, r: RState)
    requires PrefixInv(u, r) && QueueInv(u, r)
    ensures PrefixInv(u, Receiver.StartTaskStep(r)) && QueueInv(u, Receiver.StartTaskStep(r))
  {
    var q := r.queue;
    if r.phase.Transferring? && q.frames != [] && q.task.Idle? && !q.failed {
      StartTaskTakesNext(u, r);
    }
  }

  lemma HashDoneKeepsPrefix(c: Receiver.Config, u: Upload, r: RState)
    requires PrefixInv(u, r)
    ensures PrefixInv(u, Receiver.HashDoneStep(c, r))
  {
    if r.queue.task.Hashing? {
      PrefixGrows(r.tally.received, u.meta.totalChunks);
    }
  }

  lemma HashDoneAdds(c: Receiver.Config, u: Upload, r: RState)
    requires PrefixInv(u, r) && r.queue.task.Hashing? && r.phase.Transferring?
    ensures var r' := Receiver.HashDoneStep(c, r);
            && r'.phase == r.phase && r'.tally.startFrom == r.tally.startFrom
            && |r'.tally.received| == |r.tally.received| + 1
            && (r'.queue == r.queue.(task := Receiver.Saving)
                || r'.queue == r.queue.(task := Receiver.Idle, done := r.queue.done + 1))
            && r'.out == Receiver.Emit(r.out, Progress(BytesIn(|r'.tally.received|, r.meta), |r'.tally.received|))
  {
    PrefixGrows(r.tally.received, u.meta.totalChunks);
  }

  lemma HashDoneKeepsReport(c: Receiver.Config, u: Upload, r: RState)
    requires PrefixInv(u, r) && ReportInv(u, r) && r.meta == u.meta
    ensures ReportInv(u, Receiver.HashDoneStep(c, r))
  {
    if r.queue.task.Hashing? && r.phase.Transferring? {
      HashDoneAdds(c, u, r);
      ProgressReportsStep(u.meta, r.tally.startFrom, |r.tally.received|);
    }
  }

  // The queue alone: its handler moves on to another await, finishes, or fails.

  lemma QueueSwitches(u: Upload, q: Receiver.Queue, from: nat, k: nat, t: Receiver.Task)
    requires QueueFits(u, q, from, k) && !q.task.Idle? && !t.Idle?
    ensures QueueFits(u, q.(task := t), from, k + Added(t) - Added(q.task))
  {
  }

  lemma QueueFinishes(u: Upload, q: Receiver.Queue, from: nat, k: nat)
    requires QueueFits(u, q, from, k) && !q.task.Idle?
    ensures QueueFits(u, q.(task := Receiver.Idle, done := q.done + 1), from, k + 1 - Added(q.task))
  {
    var q' := q.(task := Receiver.Idle, done := q.done + 1);
    assert from + q'.done + Busy(q'.task) == from + q.done + Busy(q.task);
  }

  lemma QueueSaved(u: Upload, q: Receiver.Queue, q': Receiver.Queue, from: nat, k: nat)
    requires QueueFits(u, q, from, k) && q.task.Saving? && q' == q.(task := Receiver.Idle, done := q.done + 1)
    ensures QueueFits(u, q', from, k)
  {
    QueueFinishes(u, q, from, k);
  }

  lemma QueueFails(u: Upload, q: Receiver.Queue, from: nat, k: nat)
    requires QueueFits(u, q, from, k)
    ensures QueueFits(u, q.(task := Receiver.Idle, failed := true), from, k)
  {
  }

  lemma QueueAfterAdd(u: Upload, q: Receiver.Queue, q': Receiver.Queue, from: nat, k: nat)
    requires QueueFits(u, q, from, k) && !q.task.Idle? && !q.task.Saving?
    requires q' == q.(task := Receiver.Saving) || q' == q.(task := Receiver.Idle, done := q.done + 1)
    ensures QueueFits(u, q', from, k + 1)
  {
    if q'.task.Saving? {
      QueueSwitches(u, q, from, k, Receiver.Saving);
    } else {
      QueueFinishes(u, q, from, k);
    }
  }

  lemma HashDoneKeepsQueue(c: Receiver.Config, u: Upload, r: RState)
    requires PrefixInv(u, r) && QueueInv(u, r)
    ensures QueueInv(u, Receiver.HashDoneStep(c, r))
  {
    var r' := Receiver.HashDoneStep(c, r);
    if r.queue.task.Hashing? && r.phase.Transferring? {
      HashDoneAdds(c, u, r);
      QueueAfterAdd(u, r.queue, r'.queue, r.tally.startFrom, |r.tally.received|);
    }
  }

  // ---- the receiver's verdict ----

  /** Every chunk is held and the digests on record hash to the sender's file hash. */
  predicate AllIn(c: Receiver.Config, u: Upload, r: RState) {
    && |r.tally.received| == u.meta.totalChunks
    && AllPresent(r.tally.hashes, u.meta.totalChunks)
    && HashOfHashes(c.sha, Ordered(r.tally.hashes, u.meta.totalChunks)) == FileHashOf(c.sha, u)
  }

  predicate DigestFits(u: Upload, r: RState, ordered: seq<string>) {
    && |ordered| == u.meta.totalChunks
    && (r.phase.Transferring? ==>
          && |r.tally.received| == u.meta.totalChunks
          && AllPresent(r.tally.hashes, u.meta.totalChunks)
          && ordered == Ordered(r.tally.hashes, u.meta.totalChunks))
  }

  /** A completion handler waits for the whole stream; past the check it knows that everything is in. */
  predicate CloserFits(c: Receiver.Config, u: Upload, r: RState, k: Receiver.Closer) {
    k.cause.Completion? ==>
      && k.cause.fileHash == FileHashOf(c.sha, u)
      && match k.stage
         case AwaitQueue(upTo) => r.phase.Transferring? ==> r.tally.startFrom + upTo == u.meta.totalChunks
         case Digesting(ordered) => DigestFits(u, r, ordered)
         case SavingState => false
         case Finalizing => r.phase.Transferring? ==> AllIn(c, u, r)
         case Clearing => r.phase.Transferring? ==> AllIn(c, u, r)
         case Finishing => r.phase.Transferring? ==> AllIn(c, u, r)
         case _ => true
  }

  predicate ClosersInv(c: Receiver.Config, u: Upload, r: RState) {
    forall j :: 0 <= j < |r.closers| ==> CloserFits(c, u, r, r.closers[j])
  }

  predicate VerdictInv(c: Receiver.Config, u: Upload, r: RState) {
    && (Verified(true) in r.out.sent ==>
          && r.history.matched.Some? && |r.history.matched.value| == u.meta.totalChunks
          && HashOfHashes(c.sha, r.history.matched.value) == FileHashOf(c.sha, u)
          && (r.phase.Transferring? ==> AllIn(c, u, r)))
    && (Complete in r.out.events ==> AllIn(c, u, r) && Verified(true) in r.out.sent)
    && (forall j :: 0 <= j < |r.closers| && PastCheck(r.closers[j]) ==> Verified(true) in r.out.sent)
  }

  predicate PastCheck(k: Receiver.Closer) {
    k.cause.Completion? && (k.stage.Finalizing? || k.stage.Clearing? || k.stage.Finishing?)
  }

  predicate EarlyInv(r: RState) {
    && (!r.phase.Transferring? && !r.phase.Settled? ==>
          && r.queue == Receiver.Queue([], 0, 0, false, Receiver.Idle)
          && r.closers == [] && r.out == Receiver.Output([], []) && r.history.writes == [])
    && (!r.phase.Transferring? && !r.phase.Settled? ==> r.tally.startFrom == |r.tally.received|)
  }

  /** The replies: nothing, a rejection, or an acceptance with verdicts and aborts behind it. */
  predicate ReplyInv(r: RState) {
    var sent := r.out.sent;
    && (r.phase.Transferring? ==> sent != [])
    && (sent != [] ==> sent[0] == Accept(r.tally.startFrom) || sent == [Reject])
    && (r.phase.Transferring? ==> sent[0] == Accept(r.tally.startFrom))
    && (forall j :: 1 <= j < |sent| ==> sent[j].Verified? || sent[j].Abort?)
    && (r.history.writes != [] || r.closers != [] ==> sent != [] && sent[0] == Accept(r.tally.startFrom))
  }

  predicate RecvInv(c: Receiver.Config, u: Upload, r: RState) {
    && DurableInv(c, r) && PrefixInv(u, r) && QueueInv(u, r) && ReportInv(u, r) && EarlyInv(r) && ReplyInv(r)
    && ClosersInv(c, u, r) && VerdictInv(c, u, r)
    && (!r.phase.AwaitingOffer? ==> r.meta == u.meta)
  }

  // ---- each step of the receiver ----

  /** Same phase, same tally, same handlers: everything that was concluded from them still holds. */
  lemma VerdictFrame(c: Receiver.Config, u: Upload, r: RState, r': RState)
    requires ClosersInv(c, u, r) && VerdictInv(c, u, r)
    requires r'.tally == r.tally && r'.closers == r.closers && r'.history.matched == r.history.matched
    requires r'.out.sent == r.out.sent && (r'.phase == r.phase || r'.phase.Settled?)
    requires Complete in r'.out.events ==> Complete in r.out.events
    ensures ClosersInv(c, u, r') && VerdictInv(c, u, r')
  {
    forall j | 0 <= j < |r'.closers| ensures CloserFits(c, u, r', r'.closers[j]) {
      assert CloserFits(c, u, r, r.closers[j]);
    }
  }

  lemma HashDoneKeepsVerdict(c: Receiver.Config, u: Upload, r: RState)
    requires RecvInv(c, u, r) && r.queue.task.Hashing?
    ensures var r' := Receiver.HashDoneStep(c, r); ClosersInv(c, u, r') && VerdictInv(c, u, r')
  {
    var r' := Receiver.HashDoneStep(c, r);
    assert |r.tally.received| < u.meta.totalChunks;
    forall j | 0 <= j < |r'.closers| ensures CloserFits(c, u, r', r'.closers[j]) {
      assert CloserFits(c, u, r, r.closers[j]);
    }
  }

  predicate Internal(a: Receiver.Action) {
    !a.Deliver? && !a.Restart?
  }

  /** The stream invariants read the tally, the queue and, while the transfer runs, the reports. */
  lemma PrefixFrame(u: Upload, r: RState, r': RState)
    requires PrefixInv(u, r)
    requires r'.tally == r.tally
    requires r'.queue.task == r.queue.task || !(r'.queue.task.Writing? || r'.queue.task.Hashing?)
    requires r'.durable.saved == r.durable.saved || r'.durable.saved == None
             || (r'.durable.saved.value.received == r.tally.received && r'.durable.saved.value.hashes == r.tally.hashes)
    ensures PrefixInv(u, r')
  {
  }

  lemma QueueFrame(u: Upload, r: RState, r': RState)
    requires QueueInv(u, r)
    requires r'.tally == r.tally && r'.queue == r.queue
    requires r'.phase.Transferring? ==> r.phase.Transferring?
    ensures QueueInv(u, r')
  {
  }

  lemma WriteDoneKeepsStream(u: Upload, r: RState)
    requires PrefixInv(u, r) && QueueInv(u, r)
    ensures PrefixInv(u, Receiver.WriteDoneStep(r)) && QueueInv(u, Receiver.WriteDoneStep(r))
  {
    if r.queue.task.Writing? && r.phase.Transferring? {
      QueueSwitches(u, r.queue, r.tally.startFrom, |r.tally.received|, Receiver.WriteDoneStep(r).queue.task);
    }
  }

  lemma SaveKeepsStream(u: Upload, r: RState, now: int)
    requires PrefixInv(u, r) && QueueInv(u, r)
    ensures PrefixInv(u, Receiver.SaveStep(r, now)) && QueueInv(u, Receiver.SaveStep(r, now))
  {
    if r.queue.task.Saving? {
      SaveKeepsPrefix(u, r, now);
      SaveKeepsQueue(u, r, Receiver.SaveStep(r, now));
    }
  }

  lemma SaveKeepsQueue(u: Upload, r: RState, r': RState)
    requires QueueInv(u, r) && r.queue.task.Saving?
    requires r'.phase == r.phase && r'.tally == r.tally
    requires r'.queue == r.queue.(task := Receiver.Idle, done := r.queue.done + 1)
    ensures QueueInv(u, r')
  {
    if r.phase.Transferring? {
      QueueSaved(u, r.queue, r'.queue, r.tally.startFrom, |r.tally.received|);
    }
  }

  lemma SaveKeepsPrefix(u: Upload, r: RState, now: int)
    requires PrefixInv(u, r)
    ensures PrefixInv(u, Receiver.SaveStep(r, now))
  {
    PrefixFrame(u, r, Receiver.SaveStep(r, now));
  }

  lemma TaskFailsKeepsStream(u: Upload, r: RState, garbage: Option<Bytes>)
    requires PrefixInv(u, r) && QueueInv(u, r)
    ensures PrefixInv(u, Receiver.TaskFailsStep(r, garbage)) && QueueInv(u, Receiver.TaskFailsStep(r, garbage))
  {
    PrefixFrame(u, r, Receiver.TaskFailsStep(r, garbage));
    if !r.queue.task.Idle? && r.phase.Transferring? {
      QueueFails(u, r.queue, r.tally.startFrom, |r.tally.received|);
    }
  }

  lemma CloserKeepsStream(u: Upload, r: RState, r': RState, now: int)
    requires PrefixInv(u, r) && QueueInv(u, r) && CloserEffect(r, r', now)
    ensures PrefixInv(u, r') && QueueInv(u, r')
  {
    PrefixFrame(u, r, r');
    QueueFrame(u, r, r');
  }

  lemma LoadKeepsStream(u: Upload, r: RState, now: int)
    requires PrefixInv(u, r) && QueueInv(u, r) && EarlyInv(r)
    ensures PrefixInv(u, Receiver.LoadStep(r, now)) && QueueInv(u, Receiver.LoadStep(r, now))
    ensures EarlyInv(Receiver.LoadStep(r, now))
  {
    var existing := Live(r.durable.saved, now);
    if r.phase.Loading? && existing.Some? {
      ResumePointUnique(existing.value.received, |existing.value.received|);
    }
  }

  lemma OpenKeepsStream(u: Upload, r: RState)
    requires PrefixInv(u, r) && QueueInv(u, r) && EarlyInv(r)
    ensures PrefixInv(u, Receiver.OpenStep(r)) && QueueInv(u, Receiver.OpenStep(r))
  {
  }

  lemma OtherStepsKeepStream(c: Receiver.Config, u: Upload, r: RState, a: Receiver.Action)
    requires PrefixInv(u, r) && QueueInv(u, r)
    requires a.Confirm? || a.EarlyAbortDone? || a.EarlyThrow? || a.Signal? || a.QueueRejects?
    ensures PrefixInv(u, Receiver.Step(c, r, a)) && QueueInv(u, Receiver.Step(c, r, a))
  {
    PrefixFrame(u, r, Receiver.Step(c, r, a));
    QueueFrame(u, r, Receiver.Step(c, r, a));
  }

  lemma StepKeepsStream(c: Receiver.Config, u: Upload, r: RState, a: Receiver.Action)
    requires PrefixInv(u, r) && QueueInv(u, r) && EarlyInv(r) && Internal(a)
    ensures PrefixInv(u, Receiver.Step(c, r, a)) && QueueInv(u, Receiver.Step(c, r, a))
  {
    match a
    case Load(now) => LoadKeepsStream(u, r, now);
    case Open => OpenKeepsStream(u, r);
    case StartTask => StartTaskKeepsStream(u, r);
    case HashDone =>
      HashDoneKeepsPrefix(c, u, r);
      HashDoneKeepsQueue(c, u, r);
    case WriteDone => WriteDoneKeepsStream(u, r);
    case Save(now) => SaveKeepsStream(u, r, now);
    case TaskFails(garbage) => TaskFailsKeepsStream(u, r, garbage);
    case Advance(j, now) =>
      AdvanceEffect(c, r, j, now);
      CloserKeepsStream(u, r, Receiver.AdvanceStep(c, r, j, now), now);
    case CloserFails(j) =>
      CloserFailsEffect(r, j, 0);
      CloserKeepsStream(u, r, Receiver.CloserFailsStep(r, j), 0);
    case _ => OtherStepsKeepStream(c, u, r, a);
  }

  lemma StepKeepsReport(c: Receiver.Config, u: Upload, r: RState, a: Receiver.Action)
    requires PrefixInv(u, r) && EarlyInv(r) && ReportInv(u, r) && Internal(a)
    requires r.queue.task.Hashing? ==> r.meta == u.meta
    ensures ReportInv(u, Receiver.Step(c, r, a))
  {
    match a
    case HashDone =>
      if r.queue.task.Hashing? {
        HashDoneKeepsReport(c, u, r);
      }
    case Load(now) => LoadKeepsReport(u, r, now);
    case Advance(j, now) =>
      AdvanceEffect(c, r, j, now);
      CloserKeepsReport(u, r, Receiver.AdvanceStep(c, r, j, now), now);
    case CloserFails(j) =>
      CloserFailsEffect(r, j, 0);
      CloserKeepsReport(u, r, Receiver.CloserFailsStep(r, j), 0);
    case _ =>
  }

  lemma LoadKeepsReport(u: Upload, r: RState, now: int)
    requires PrefixInv(u, r) && EarlyInv(r) && ReportInv(u, r)
    ensures ReportInv(u, Receiver.LoadStep(r, now))
  {
    var existing := Live(r.durable.saved, now);
    if r.phase.Loading? && existing.Some? {
      ResumePointUnique(existing.value.received, |existing.value.received|);
    }
  }

  lemma CloserKeepsReport(u: Upload, r: RState, r': RState, now: int)
    requires ReportInv(u, r) && CloserEffect(r, r', now)
    ensures ReportInv(u, r')
  {
  }

  // ---- what the receiver says ----

  lemma AdvanceReplies(c: Receiver.Config, r: RState, j: nat, now: int)
    ensures var sent, sent' := r.out.sent, Receiver.AdvanceStep(c, r, j, now).out.sent;
            sent' == sent || (|sent'| == |sent| + 1 && sent' == sent + [sent'[|sent|]] && sent'[|sent|].Verified?)
    ensures r.closers == [] ==> Receiver.AdvanceStep(c, r, j, now) == r
  {
  }

  lemma TaskStepsKeepReply(c: Receiver.Config, r: RState, a: Receiver.Action)
    requires EarlyInv(r) && ReplyInv(r)
    requires a.StartTask? || a.WriteDone? || a.HashDone? || a.Save? || a.TaskFails?
    ensures EarlyInv(Receiver.Step(c, r, a)) && ReplyInv(Receiver.Step(c, r, a))
  {
  }

  lemma EarlyStepsKeepReply(c: Receiver.Config, r: RState, a: Receiver.Action)
    requires EarlyInv(r) && ReplyInv(r)
    requires a.Confirm? || a.Open? || a.EarlyAbortDone? || a.EarlyThrow? || a.Signal? || a.QueueRejects?
    ensures EarlyInv(Receiver.Step(c, r, a)) && ReplyInv(Receiver.Step(c, r, a))
  {
  }

  lemma CloserKeepsReply(r: RState, r': RState, now: int)
    requires EarlyInv(r) && ReplyInv(r) && CloserEffect(r, r', now)
    requires r.closers == [] ==> r' == r
    requires var sent, sent' := r.out.sent, r'.out.sent;
             sent' == sent || (|sent'| == |sent| + 1 && sent' == sent + [sent'[|sent|]] && sent'[|sent|].Verified?)
    ensures EarlyInv(r') && ReplyInv(r')
  {
  }

  lemma StepKeepsReply(c: Receiver.Config, u: Upload, r: RState, a: Receiver.Action)
    requires PrefixInv(u, r) && QueueInv(u, r) && EarlyInv(r) && ReplyInv(r) && Internal(a)
    ensures EarlyInv(Receiver.Step(c, r, a)) && ReplyInv(Receiver.Step(c, r, a))
  {
    match a
    case Load(now) => LoadKeepsStream(u, r, now);
    case Advance(j, now) =>
      AdvanceEffect(c, r, j, now);
      AdvanceReplies(c, r, j, now);
      CloserKeepsReply(r, Receiver.AdvanceStep(c, r, j, now), now);
    case CloserFails(j) =>
      CloserFailsEffect(r, j, 0);
      CloserKeepsReply(r, Receiver.CloserFailsStep(r, j), 0);
    case StartTask => TaskStepsKeepReply(c, r, a);
    case WriteDone => TaskStepsKeepReply(c, r, a);
    case HashDone => TaskStepsKeepReply(c, r, a);
    case Save(_) => TaskStepsKeepReply(c, r, a);
    case TaskFails(_) => TaskStepsKeepReply(c, r, a);
    case _ => EarlyStepsKeepReply(c, r, a);
  }

  // ---- what the receiver concludes ----

  lemma StageKeepsVerdict(c: Receiver.Config, u: Upload, r: RState, r': RState, j: nat, stage: Receiver.Stage)
    requires ClosersInv(c, u, r) && VerdictInv(c, u, r) && j < |r.closers|
    requires r'.closers == Receiver.WithStage(r.closers, j, stage)
    requires r'.tally == r.tally && r'.history.matched == r.history.matched && r'.out.sent == r.out.sent
    requires r'.phase == r.phase || r'.phase.Settled?
    requires CloserFits(c, u, r', r'.closers[j]) && (PastCheck(r'.closers[j]) ==> PastCheck(r.closers[j]))
    requires Complete in r'.out.events ==> AllIn(c, u, r') && Verified(true) in r'.out.sent
    ensures ClosersInv(c, u, r') && VerdictInv(c, u, r')
  {
    forall i | 0 <= i < |r'.closers| ensures CloserFits(c, u, r', r'.closers[i]) {
      assert CloserFits(c, u, r, r.closers[i]);
    }
  }

  lemma QueueStepKeepsVerdict(c: Receiver.Config, u: Upload, r: RState, j: nat, upTo: nat)
    requires ClosersInv(c, u, r) && VerdictInv(c, u, r) && PrefixInv(u, r) && QueueInv(u, r) && r.meta == u.meta
    requires j < |r.closers| && r.closers[j].stage == Receiver.AwaitQueue(upTo)
    ensures var r' := Receiver.QueueStep(r, j, r.closers[j].cause, upTo); ClosersInv(c, u, r') && VerdictInv(c, u, r')
  {
    var k := r.closers[j];
    var r' := Receiver.QueueStep(r, j, k.cause, upTo);
    if r' != r {
      if r'.closers[j].stage.Digesting? {
        DigestStarts(c, u, r, j, upTo);
      }
      StageKeepsVerdict(c, u, r, r', j, r'.closers[j].stage);
    }
  }

  /** Behind the last frame every chunk is held. */
  lemma DigestStarts(c: Receiver.Config, u: Upload, r: RState, j: nat, upTo: nat)
    requires ClosersInv(c, u, r) && PrefixInv(u, r) && QueueInv(u, r)
    requires j < |r.closers| && r.closers[j].stage == Receiver.AwaitQueue(upTo) && r.closers[j].cause.Completion?
    requires r.queue.done >= upTo && AllPresent(r.tally.hashes, u.meta.totalChunks)
    ensures DigestFits(u, r, Ordered(r.tally.hashes, u.meta.totalChunks))
  {
    assert CloserFits(c, u, r, r.closers[j]);
  }

  lemma DigestKeepsVerdict(c: Receiver.Config, u: Upload, r: RState, j: nat, ordered: seq<string>)
    requires ClosersInv(c, u, r) && VerdictInv(c, u, r)
    requires j < |r.closers| && r.closers[j].cause.Completion? && r.closers[j].stage == Receiver.Digesting(ordered)
    ensures var r' := Receiver.DigestStep(c, r, j, r.closers[j].cause.fileHash, ordered);
            ClosersInv(c, u, r') && VerdictInv(c, u, r')
  {
    var r' := Receiver.DigestStep(c, r, j, r.closers[j].cause.fileHash, ordered);
    assert CloserFits(c, u, r, r.closers[j]);
    forall i | 0 <= i < |r'.closers| ensures CloserFits(c, u, r', r'.closers[i]) {
      assert CloserFits(c, u, r, r.closers[i]);
    }
  }

  lemma FinishKeepsVerdict(c: Receiver.Config, u: Upload, r: RState, j: nat, o: Receiver.Outcome,
                           e: Option<TransferEvent>)
    requires ClosersInv(c, u, r) && VerdictInv(c, u, r) && j < |r.closers|
    requires e == Some(Complete) ==> PastCheck(r.closers[j]) && (r.phase.Transferring? ==> AllIn(c, u, r))
    ensures ClosersInv(c, u, Receiver.Finish(r, j, o, e)) && VerdictInv(c, u, Receiver.Finish(r, j, o, e))
  {
    StageKeepsVerdict(c, u, r, Receiver.Finish(r, j, o, e), j, Receiver.Finished);
  }

  lemma AdvanceKeepsVerdict(c: Receiver.Config, u: Upload, r: RState, j: nat, now: int)
    requires ClosersInv(c, u, r) && VerdictInv(c, u, r) && PrefixInv(u, r) && QueueInv(u, r)
    requires r.closers != [] ==> r.meta == u.meta
    ensures var r' := Receiver.AdvanceStep(c, r, j, now); ClosersInv(c, u, r') && VerdictInv(c, u, r')
  {
    if j < |r.closers| {
      var k := r.closers[j];
      var r' := Receiver.AdvanceStep(c, r, j, now);
      assert CloserFits(c, u, r, k);
      match k.stage
      case AwaitQueue(upTo) => QueueStepKeepsVerdict(c, u, r, j, upTo);
      case Digesting(ordered) =>
        if k.cause.Completion? {
          DigestKeepsVerdict(c, u, r, j, ordered);
        }
      case AbortingWriter =>
        match k.cause {
          case LocalAbort => FinishKeepsVerdict(c, u, r, j, Receiver.Resolved, Some(Cancelled));
          case RemoteAbort => StageKeepsVerdict(c, u, r, r', j, Receiver.SavingState);
          case Completion(_) => FinishKeepsVerdict(c, u, r, j, Receiver.Threw, Some(Error));
        }
      case SavingState => StageKeepsVerdict(c, u, r, r', j, Receiver.Finishing);
      case Finalizing => StageKeepsVerdict(c, u, r, r', j, Receiver.Clearing);
      case Clearing => StageKeepsVerdict(c, u, r, r', j, Receiver.Finishing);
      case Finishing =>
        FinishKeepsVerdict(c, u, r, j, Receiver.Resolved, Some(if k.cause.Completion? then Complete else Cancelled));
      case Finished =>
    }
  }

  lemma EarlyStepsKeepVerdict(c: Receiver.Config, u: Upload, r: RState, a: Receiver.Action)
    requires ClosersInv(c, u, r) && VerdictInv(c, u, r) && EarlyInv(r)
    requires a.Load? || a.Open? || a.Confirm? || a.EarlyAbortDone? || a.EarlyThrow?
    ensures ClosersInv(c, u, Receiver.Step(c, r, a)) && VerdictInv(c, u, Receiver.Step(c, r, a))
  {
  }

  lemma SignalKeepsVerdict(c: Receiver.Config, u: Upload, r: RState)
    requires ClosersInv(c, u, r) && VerdictInv(c, u, r)
    ensures ClosersInv(c, u, Receiver.SignalStep(r)) && VerdictInv(c, u, Receiver.SignalStep(r))
  {
    var r' := Receiver.SignalStep(r);
    forall j | 0 <= j < |r'.closers| ensures CloserFits(c, u, r', r'.closers[j]) {
      if j < |r.closers| {
        assert CloserFits(c, u, r, r.closers[j]);
      }
    }
  }

  lemma CloserFailsKeepsVerdict(c: Receiver.Config, u: Upload, r: RState, j: nat)
    requires ClosersInv(c, u, r) && VerdictInv(c, u, r)
    ensures ClosersInv(c, u, Receiver.CloserFailsStep(r, j)) && VerdictInv(c, u, Receiver.CloserFailsStep(r, j))
  {
    if j < |r.closers| && !r.closers[j].stage.Finished? && !r.closers[j].stage.AwaitQueue? {
      FinishKeepsVerdict(c, u, r, j, Receiver.Threw, None);
    }
  }

  lemma StepKeepsVerdict(c: Receiver.Config, u: Upload, r: RState, a: Receiver.Action)
    requires RecvInv(c, u, r) && Internal(a)
    ensures ClosersInv(c, u, Receiver.Step(c, r, a)) && VerdictInv(c, u, Receiver.Step(c, r, a))
  {
    match a
    case Advance(j, now) => AdvanceKeepsVerdict(c, u, r, j, now);
    case CloserFails(j) => CloserFailsKeepsVerdict(c, u, r, j);
    case Signal => SignalKeepsVerdict(c, u, r);
    case HashDone =>
      if r.queue.task.Hashing? {
        HashDoneKeepsVerdict(c, u, r);
      }
    case _ =>
      if a.StartTask? || a.WriteDone? || a.Save? || a.TaskFails? || a.QueueRejects? {
        TaskStepsKeepVerdict(c, u, r, a);
      } else {
        EarlyStepsKeepVerdict(c, u, r, a);
      }
  }

  lemma TaskStepsKeepVerdict(c: Receiver.Config, u: Upload, r: RState, a: Receiver.Action)
    requires RecvInv(c, u, r) && (a.StartTask? || a.WriteDone? || a.Save? || a.TaskFails? || a.QueueRejects?)
    ensures ClosersInv(c, u, Receiver.Step(c, r, a)) && VerdictInv(c, u, Receiver.Step(c, r, a))
  {
    VerdictFrame(c, u, r, Receiver.Step(c, r, a));
  }

  lemma StepKeepsRecv(c: Receiver.Config, u: Upload, r: RState, a: Receiver.Action)
    requires RecvInv(c, u, r) && Internal(a)
    ensures RecvInv(c, u, Receiver.Step(c, r, a))
  {
    StepKeepsDurable(c, r, a);
    StepKeepsStream(c, u, r, a);
    StepKeepsReport(c, u, r, a);
    StepKeepsReply(c, u, r, a);
    StepKeepsVerdict(c, u, r, a);
    StepKeepsMeta(c, r, a);
  }

  /** No step of its own lets the receiver see the channel. */
  lemma StepKeepsMeta(c: Receiver.Config, r: RState, a: Receiver.Action)
    requires Internal(a)
    ensures var r' := Receiver.Step(c, r, a);
            && r'.meta == r.meta && r'.queue.enqueued == r.queue.enqueued
            && (r'.phase.AwaitingOffer? <==> r.phase.AwaitingOffer?)
            && (r'.phase.Transferring? ==> r.phase.Transferring? || r.phase.Opening?)
            && (r'.tally.startFrom == r.tally.startFrom || r.phase.Loading?)
            && r.out.sent <= r'.out.sent
  {
    match a
    case Advance(j, now) =>
      AdvanceEffect(c, r, j, now);
      AdvanceReplies(c, r, j, now);
    case CloserFails(j) => CloserFailsEffect(r, j, 0);
    case _ =>
  }

  // ---- the channel ----

  function FrameCount(s: Sender.State): nat {
    Max(0, s.i - s.resumeFrom)
  }

  /** How many frames the receiver has been handed. */
  function FramesTaken(y: System): nat {
    Min(Max(0, y.toReceiver - 1), FrameCount(y.sender))
  }

  predicate ChannelInv(y: System) {
    var s, r := y.sender, y.receiver;
    && y.toReceiver <= |s.sent| && y.toSender <= |r.out.sent|
    && (r.phase.AwaitingOffer? <==> y.toReceiver == 0)
    && (s.accepted ==> y.toSender > 0 && r.out.sent[0] == Accept(s.resumeFrom) && s.resumeFrom == r.tally.startFrom)
    && (r.phase.Transferring? ==> r.queue.enqueued == FramesTaken(y))
  }

  predicate SystemInv(c: Receiver.Config, y: System) {
    SenderInv(c.sha, y.upload, y.sender) && RecvInv(c, y.upload, y.receiver) && ChannelInv(y)
  }

  predicate WireForm(sha: Sha, u: Upload, s: Sender.State) {
    && s.i <= u.meta.totalChunks && (s.i > 0 ==> Listable(u))
    && (|| s.sent == []
        || s.sent == Body(u, s)
        || s.sent == Body(u, s) + [Abort]
        || (s.sent == Body(u, s) + [TransferComplete(FileHashOf(sha, u))] && ReadWhole(u, s)))
  }

  lemma WireHasForm(sha: Sha, u: Upload, s: Sender.State)
    requires SenderInv(sha, u, s)
    ensures WireForm(sha, u, s)
  {
  }

  lemma FormAt(sha: Sha, u: Upload, s: Sender.State, j: nat)
    requires WireForm(sha, u, s) && j < |s.sent|
    ensures |s.sent| <= FrameCount(s) + 2
    ensures j == 0 ==> s.sent[j] == Offer(u.meta)
    ensures 1 <= j <= FrameCount(s) ==>
              && s.resumeFrom + j - 1 < u.meta.totalChunks && s.sent[j] == FrameOf(u, s.resumeFrom + j - 1)
              && Listable(u)
    ensures j > FrameCount(s) && j > 0 ==>
              s.sent[j] == Abort || (s.sent[j] == TransferComplete(FileHashOf(sha, u)) && ReadWhole(u, s))
  {
    assert |Body(u, s)| == FrameCount(s) + 1;
    if 1 <= j <= FrameCount(s) {
      assert s.sent[j] == Body(u, s)[j] == Frames(u, s.resumeFrom, s.i)[j - 1];
    }
  }

  /** The wire by position: the offer, the frames from the resume point, then at most one closing message. */
  lemma WireAt(sha: Sha, u: Upload, s: Sender.State, j: nat)
    requires SenderInv(sha, u, s) && j < |s.sent|
    ensures |s.sent| <= FrameCount(s) + 2
    ensures j == 0 ==> s.sent[j] == Offer(u.meta)
    ensures 1 <= j <= FrameCount(s) ==>
              && s.resumeFrom + j - 1 < u.meta.totalChunks && s.sent[j] == FrameOf(u, s.resumeFrom + j - 1)
              && Listable(u)
    ensures j > FrameCount(s) && j > 0 ==>
              s.sent[j] == Abort || (s.sent[j] == TransferComplete(FileHashOf(sha, u)) && ReadWhole(u, s))
  {
    WireHasForm(sha, u, s);
    FormAt(sha, u, s, j);
  }

  lemma WireLength(sha: Sha, u: Upload, s: Sender.State)
    requires SenderInv(sha, u, s) && !Ended(s) && !s.phase.Preparing? && !s.phase.AwaitVerified?
    ensures |s.sent| == FrameCount(s) + 1
  {
  }

  /** A step of the sender's own only ever extends the wire, and counts a frame only as it sends it. */
  lemma SenderStepMeta(sha: Sha, u: Upload, s: Sender.State, a: Sender.Action)
    requires SenderInv(sha, u, s) && !a.Deliver?
    ensures var s' := Sender.Step(sha, u, s, a);
            && s'.accepted == s.accepted && s'.resumeFrom == s.resumeFrom && |s.sent| <= |s'.sent|
            && (FrameCount(s') == FrameCount(s)
                || (FrameCount(s') == FrameCount(s) + 1 && |s.sent| == FrameCount(s) + 1))
  {
    if s.phase.Draining? {
      WireLength(sha, u, s);
    }
  }

  lemma SenderActsKeeps(c: Receiver.Config, y: System, a: Sender.Action)
    requires SystemInv(c, y) && !a.Deliver?
    ensures SystemInv(c, y.(sender := Sender.Step(c.sha, y.upload, y.sender, a)))
  {
    StepKeeps(c.sha, y.upload, y.sender, a);
    SenderStepMeta(c.sha, y.upload, y.sender, a);
  }

  lemma NotAcceptedCounts(sha: Sha, u: Upload, s: Sender.State)
    requires SenderInv(sha, u, s) && !s.accepted
    ensures FrameCount(s) == 0
  {
  }

  lemma ReceiverActsKeeps(c: Receiver.Config, y: System, a: Receiver.Action)
    requires SystemInv(c, y) && Internal(a)
    ensures SystemInv(c, y.(receiver := Receiver.Step(c, y.receiver, a)))
  {
    StepKeepsRecv(c, y.upload, y.receiver, a);
    StepKeepsMeta(c, y.receiver, a);
    if !y.sender.accepted {
      NotAcceptedCounts(c.sha, y.upload, y.sender);
    }
  }

  /** What a reply changes for the channel: at most that the sender is now accepted, from where the receiver said. */
  lemma ReplyMeta(u: Upload, s: Sender.State, msg: Msg)
    ensures var s' := Sender.OnMessage(u, s, msg);
            && |s.sent| <= |s'.sent| && s'.i == s.i
            && ((s'.accepted == s.accepted && s'.resumeFrom == s.resumeFrom)
                || (s.phase.AwaitAccept? && msg.Accept? && s'.accepted && s'.resumeFrom == msg.resumeFromChunk))
  {
  }

  lemma DeliverToSenderKeeps(c: Receiver.Config, y: System)
    requires SystemInv(c, y)
    ensures SystemInv(c, Session.SenderGets(y))
  {
    if y.toSender < |y.receiver.out.sent| {
      var msg := y.receiver.out.sent[y.toSender];
      MessageKeeps(c.sha, y.upload, y.sender, msg);
      ReplyMeta(y.upload, y.sender, msg);
      if !y.sender.accepted {
        NotAcceptedCounts(c.sha, y.upload, y.sender);
      }
    }
  }

  lemma FrameKeepsQueue(u: Upload, q: Receiver.Queue, from: nat, k: nat, frame: Bytes)
    requires QueueFits(u, q, from, k)
    requires from + q.enqueued < u.meta.totalChunks && Chunk(frame) == FrameOf(u, from + q.enqueued) && Listable(u)
    ensures QueueFits(u, Receiver.Enqueue(q, frame), from, k)
  {
    if !q.failed {
      FrameExtends(u, q.frames, from + q.done + Busy(q.task), frame);
      QueueTakes(u, q, Receiver.Enqueue(q, frame), from, k);
    }
  }

  lemma QueueTakes(u: Upload, q: Receiver.Queue, q': Receiver.Queue, from: nat, k: nat)
    requires QueueFits(u, q, from, k) && !q.failed
    requires q'.task == q.task && q'.done == q.done && !q'.failed
    requires q'.enqueued == q.enqueued + 1 && |q'.frames| == |q.frames| + 1
    requires FramesFit(u, q'.frames, from + q'.done + Busy(q'.task))
    ensures QueueFits(u, q', from, k)
  {
  }

  lemma FrameExtends(u: Upload, frames: seq<Bytes>, from: nat, frame: Bytes)
    requires FramesFit(u, frames, from) && from + |frames| < u.meta.totalChunks
    requires Chunk(frame) == FrameOf(u, from + |frames|) && Listable(u)
    ensures FramesFit(u, frames + [frame], from)
  {
    assert FrameBytes(u, from, |frames| + 1) == FrameBytes(u, from, |frames|) + [FrameOf(u, from + |frames|).frame];
  }

  /** The message is the frame behind those the receiver has been handed, if it is taking frames. */
  predicate NextFrame(u: Upload, r: RState, msg: Msg) {
    && msg.Chunk?
    && (r.phase.Transferring? ==>
          var at := r.tally.startFrom + r.queue.enqueued;
          at < u.meta.totalChunks && msg == FrameOf(u, at) && Listable(u))
  }

  lemma FrameKeepsRecv(c: Receiver.Config, u: Upload, r: RState, frame: Bytes)
    requires RecvInv(c, u, r) && NextFrame(u, r, Chunk(frame))
    ensures RecvInv(c, u, Receiver.OnMessage(r, Chunk(frame)))
  {
    if r.phase.Transferring? {
      FrameKeepsQueue(u, r.queue, r.tally.startFrom, |r.tally.received|, frame);
      StepKeepsDurable(c, r, Receiver.Deliver(Chunk(frame)));
      VerdictFrame(c, u, r, Receiver.OnMessage(r, Chunk(frame)));
    }
  }

  lemma ChunkKeepsRecv(c: Receiver.Config, u: Upload, r: RState, msg: Msg)
    requires RecvInv(c, u, r) && NextFrame(u, r, msg)
    ensures RecvInv(c, u, Receiver.OnMessage(r, msg))
  {
    FrameKeepsRecv(c, u, r, msg.frame);
  }

  lemma AddCloserKeepsVerdict(c: Receiver.Config, u: Upload, r: RState, cause: Receiver.Cause)
    requires ClosersInv(c, u, r) && VerdictInv(c, u, r)
    requires CloserFits(c, u, r, Receiver.Closer(cause, Receiver.AwaitQueue(r.queue.enqueued)))
    ensures ClosersInv(c, u, Receiver.AddCloser(r, cause)) && VerdictInv(c, u, Receiver.AddCloser(r, cause))
  {
    var r' := Receiver.AddCloser(r, cause);
    forall j | 0 <= j < |r'.closers| ensures CloserFits(c, u, r', r'.closers[j]) {
      if j < |r.closers| {
        assert CloserFits(c, u, r, r.closers[j]);
      }
    }
  }

  lemma CloserAddedKeepsReply(u: Upload, r: RState, cause: Receiver.Cause)
    requires PrefixInv(u, r) && QueueInv(u, r) && EarlyInv(r) && ReplyInv(r) && r.phase.Transferring?
    ensures var r' := Receiver.AddCloser(r, cause); PrefixInv(u, r') && QueueInv(u, r') && EarlyInv(r') && ReplyInv(r')
  {
    PrefixFrame(u, r, Receiver.AddCloser(r, cause));
    QueueFrame(u, r, Receiver.AddCloser(r, cause));
  }

  lemma AddCloserKeepsRecv(c: Receiver.Config, u: Upload, r: RState, cause: Receiver.Cause)
    requires RecvInv(c, u, r) && r.phase.Transferring?
    requires DurableInv(c, Receiver.AddCloser(r, cause))
    requires CloserFits(c, u, r, Receiver.Closer(cause, Receiver.AwaitQueue(r.queue.enqueued)))
    ensures RecvInv(c, u, Receiver.AddCloser(r, cause))
  {
    AddCloserKeepsVerdict(c, u, r, cause);
    CloserAddedKeepsReply(u, r, cause);
  }

  lemma ControlKeepsRecv(c: Receiver.Config, u: Upload, r: RState, msg: Msg)
    requires RecvInv(c, u, r) && r.phase.Transferring?
    requires msg == Abort || msg == TransferComplete(FileHashOf(c.sha, u))
    requires msg.TransferComplete? ==> r.tally.startFrom + r.queue.enqueued == u.meta.totalChunks
    ensures RecvInv(c, u, Receiver.OnMessage(r, msg))
  {
    var cause := if msg.Abort? then Receiver.RemoteAbort else Receiver.Completion(msg.fileHash);
    StepKeepsDurable(c, r, Receiver.Deliver(msg));
    assert Receiver.OnMessage(r, msg) == Receiver.AddCloser(r, cause);
    AddCloserKeepsRecv(c, u, r, cause);
  }

  lemma FlagsKeepRecv(c: Receiver.Config, u: Upload, r: RState, flags: Receiver.Flags)
    requires RecvInv(c, u, r)
    ensures RecvInv(c, u, r.(flags := flags))
  {
    VerdictFrame(c, u, r, r.(flags := flags));
  }

  lemma ControlIgnoredKeepsRecv(c: Receiver.Config, u: Upload, r: RState, msg: Msg)
    requires RecvInv(c, u, r) && !r.phase.Transferring? && (msg.Abort? || msg.TransferComplete?)
    ensures RecvInv(c, u, Receiver.OnMessage(r, msg))
  {
    var r' := Receiver.OnMessage(r, msg);
    assert r' == r || r' == r.(flags := r'.flags);
    if r' != r {
      FlagsKeepRecv(c, u, r, r'.flags);
    }
  }

  lemma OfferKeepsRecv(c: Receiver.Config, u: Upload, r: RState)
    requires RecvInv(c, u, r) && r.phase.AwaitingOffer?
    ensures RecvInv(c, u, Receiver.OnMessage(r, Offer(u.meta)))
  {
    StepKeepsDurable(c, r, Receiver.Deliver(Offer(u.meta)));
  }

  /** The closing message arrives behind every frame: a completion behind the frames of the whole file. */
  lemma ClosingArrivesLast(c: Receiver.Config, y: System)
    requires SystemInv(c, y) && FrameCount(y.sender) < y.toReceiver < |y.sender.sent|
    ensures var s, r := y.sender, y.receiver;
            && (s.sent[y.toReceiver] == Abort || s.sent[y.toReceiver] == TransferComplete(FileHashOf(c.sha, y.upload)))
            && (s.sent[y.toReceiver].TransferComplete? && r.phase.Transferring? ==>
                  r.tally.startFrom + r.queue.enqueued == y.upload.meta.totalChunks)
  {
    WireAt(c.sha, y.upload, y.sender, y.toReceiver);
  }

  lemma FrameArrivesNext(c: Receiver.Config, y: System)
    requires SystemInv(c, y) && 1 <= y.toReceiver < |y.sender.sent| && y.toReceiver <= FrameCount(y.sender)
    ensures NextFrame(y.upload, y.receiver, y.sender.sent[y.toReceiver])
  {
    WireAt(c.sha, y.upload, y.sender, y.toReceiver);
    if !y.sender.accepted {
      NotAcceptedCounts(c.sha, y.upload, y.sender);
    }
    FrameInLine(y);
  }

  /** As many frames have been handed over as lie before this one on the wire. */
  lemma FrameInLine(y: System)
    requires ChannelInv(y) && y.sender.accepted && Listable(y.upload)
    requires 1 <= y.toReceiver < |y.sender.sent| && y.toReceiver <= FrameCount(y.sender)
    requires var at := y.sender.resumeFrom + y.toReceiver - 1;
             at < y.upload.meta.totalChunks && y.sender.sent[y.toReceiver] == FrameOf(y.upload, at)
    ensures NextFrame(y.upload, y.receiver, y.sender.sent[y.toReceiver])
  {
  }

  lemma OfferDelivered(c: Receiver.Config, y: System)
    requires SystemInv(c, y) && y.toReceiver == 0 < |y.sender.sent|
    ensures RecvInv(c, y.upload, Receiver.OnMessage(y.receiver, y.sender.sent[0]))
  {
    WireAt(c.sha, y.upload, y.sender, 0);
    OfferKeepsRecv(c, y.upload, y.receiver);
  }

  lemma FrameDelivered(c: Receiver.Config, y: System)
    requires SystemInv(c, y) && 1 <= y.toReceiver < |y.sender.sent| && y.toReceiver <= FrameCount(y.sender)
    ensures RecvInv(c, y.upload, Receiver.OnMessage(y.receiver, y.sender.sent[y.toReceiver]))
  {
    FrameArrivesNext(c, y);
    ChunkKeepsRecv(c, y.upload, y.receiver, y.sender.sent[y.toReceiver]);
  }

  lemma ClosingDelivered(c: Receiver.Config, y: System)
    requires SystemInv(c, y) && FrameCount(y.sender) < y.toReceiver < |y.sender.sent| && y.toReceiver > 0
    ensures RecvInv(c, y.upload, Receiver.OnMessage(y.receiver, y.sender.sent[y.toReceiver]))
  {
    ClosingArrivesLast(c, y);
    var msg := y.sender.sent[y.toReceiver];
    if y.receiver.phase.Transferring? {
      ControlKeepsRecv(c, y.upload, y.receiver, msg);
    } else {
      ControlIgnoredKeepsRecv(c, y.upload, y.receiver, msg);
    }
  }

  lemma DeliveredKeepsRecv(c: Receiver.Config, y: System)
    requires SystemInv(c, y) && y.toReceiver < |y.sender.sent|
    ensures RecvInv(c, y.upload, Receiver.OnMessage(y.receiver, y.sender.sent[y.toReceiver]))
  {
    if y.toReceiver == 0 {
      OfferDelivered(c, y);
    } else if y.toReceiver <= FrameCount(y.sender) {
      FrameDelivered(c, y);
    } else {
      ClosingDelivered(c, y);
    }
  }

  /** A message adds at most one frame to the queue and changes nothing the channel is judged by. */
  lemma MessageMeta(r: RState, msg: Msg)
    ensures var r' := Receiver.OnMessage(r, msg);
            && r'.out == r.out && r'.tally == r.tally
            && (r'.phase.AwaitingOffer? <==> r.phase.AwaitingOffer? && !msg.Offer?)
            && (r'.phase.Transferring? <==> r.phase.Transferring?)
            && (r.phase.Transferring? ==> r'.queue.enqueued == r.queue.enqueued + if msg.Chunk? then 1 else 0)
  {
  }

  lemma DeliverToReceiverKeeps(c: Receiver.Config, y: System)
    requires SystemInv(c, y)
    ensures SystemInv(c, Session.ReceiverGets(y))
  {
    if y.toReceiver < |y.sender.sent| {
      DeliveredKeepsRecv(c, y);
      DeliveryKeepsChannel(c, y);
    }
  }

  lemma DeliveryKeepsChannel(c: Receiver.Config, y: System)
    requires SystemInv(c, y) && y.toReceiver < |y.sender.sent|
    ensures ChannelInv(Session.ReceiverGets(y))
  {
    MessageMeta(y.receiver, y.sender.sent[y.toReceiver]);
    WireAt(c.sha, y.upload, y.sender, y.toReceiver);
  }

  lemma BeginKeeps(c: Receiver.Config, u: Upload, d: Receiver.Durable)
    requires StoreInv(c.sha, d) && StoreFits(u, d)
    ensures SystemInv(c, Session.Begin(u, d))
  {
  }

  lemma NewSessionKeeps(c: Receiver.Config, y: System, bytes: Bytes, garbage: Option<Bytes>)
    requires SystemInv(c, y)
    ensures SystemInv(c, Session.Reopened(y, bytes, garbage))
  {
    if |bytes| == y.upload.meta.size {
      TaskStepsKeepDurable(c, y.receiver, Receiver.Restart(garbage));
      var d := Receiver.Smudge(y.receiver.durable, y.receiver.queue.task, garbage);
      BeginKeeps(c, Source(bytes, y.upload.meta), d);
    }
  }

  lemma StepKeepsSystem(c: Receiver.Config, y: System, a: Session.Action)
    requires SystemInv(c, y)
    ensures SystemInv(c, Session.Step(c, y, a))
  {
    match a
    case SenderActs(s) =>
      if !s.Deliver? {
        SenderActsKeeps(c, y, s);
      }
    case ReceiverActs(r) =>
      if Internal(r) {
        ReceiverActsKeeps(c, y, r);
      }
    case DeliverToReceiver => DeliverToReceiverKeeps(c, y);
    case DeliverToSender => DeliverToSenderKeeps(c, y);
    case NewSession(bytes, garbage) => NewSessionKeeps(c, y, bytes, garbage);
  }

  lemma StepKeepsUploadMeta(c: Receiver.Config, y: System, a: Session.Action)
    ensures Session.Step(c, y, a).upload.meta == y.upload.meta
  {
  }

  /** What a receiver starts from: nothing, or a resume entry earlier sessions left over matching bytes. */
  predicate Resumable(sha: Sha, u: Upload, d: Receiver.Durable) {
    StoreInv(sha, d) && StoreFits(u, d)
  }

  lemma {:induction false} RunKeepsSystem(c: Receiver.Config, u: Upload, d: Receiver.Durable, acts: seq<Session.Action>,
                                          ys: seq<System>)
    requires Resumable(c.sha, u, d) && Session.Run(c, acts, ys) && ys[0] == Session.Begin(u, d)
    ensures SystemInv(c, ys[|acts|]) && ys[|acts|].upload.meta == u.meta
  {
    if |acts| == 0 {
      BeginKeeps(c, u, d);
    } else {
      var n := |acts| - 1;
      Session.RunPrefix(c, acts, ys);
      RunKeepsSystem(c, u, d, acts[..n], ys[..n + 1]);
      StepKeepsSystem(c, ys[n], acts[n]);
      StepKeepsUploadMeta(c, ys[n], acts[n]);
    }
  }

  /** The invariant of sender, receiver and channel holds in every reachable state. */
  lemma ReachableKeepsSystem(c: Receiver.Config, u: Upload, d: Receiver.Durable, y: System)
    requires Resumable(c.sha, u, d) && Session.Reachable(c, Session.Begin(u, d), y)
    ensures SystemInv(c, y) && y.upload.meta == u.meta
  {
    var acts, ys :| Session.Run(c, acts, ys) && ys[0] == Session.Begin(u, d) && ys[|acts|] == y;
    RunKeepsSystem(c, u, d, acts, ys);
  }

  // ---- verdicts cross the channel only behind a completion ----

  predicate Closed(s: Sender.State) {
    |s.sent| > 0 && s.sent[|s.sent| - 1].TransferComplete?
  }

  predicate CausesClosed(closers: seq<Receiver.Closer>, closed: bool) {
    forall j :: 0 <= j < |closers| && closers[j].cause.Completion? ==> closed
  }

  predicate RepliesClosed(sent: seq<Msg>, closed: bool) {
    forall j :: 0 <= j < |sent| && sent[j].Verified? ==> closed
  }

  predicate CrossInv(y: System) {
    && (Complete in y.sender.events ==> Verified(true) in y.receiver.out.sent)
    && CausesClosed(y.receiver.closers, Closed(y.sender))
    && RepliesClosed(y.receiver.out.sent, Closed(y.sender))
  }

  /** A sender with the completion on the wire sends nothing more. */
  lemma SenderStaysClosed(sha: Sha, u: Upload, s: Sender.State, a: Sender.Action)
    requires SenderInv(sha, u, s) && Closed(s)
    ensures Closed(Sender.Step(sha, u, s, a))
  {
    BodyEndsOpen(u, s);
    assert s.phase.AwaitVerified? || Ended(s);
    ClosedIsSilent(sha, u, s, a);
  }

  lemma ClosedIsSilent(sha: Sha, u: Upload, s: Sender.State, a: Sender.Action)
    requires s.phase.AwaitVerified? || Ended(s)
    ensures Sender.Step(sha, u, s, a).sent == s.sent
  {
  }

  lemma BodyEndsOpen(u: Upload, s: Sender.State)
    requires s.i <= u.meta.totalChunks
    ensures !IsControl(Body(u, s)[|Body(u, s)| - 1])
  {
  }

  /** Only a positive verdict makes the sender complete. */
  lemma OnlyVerdictCompletes(sha: Sha, u: Upload, s: Sender.State, a: Sender.Action)
    requires !(a.Deliver? && a.msg == Verified(true))
    ensures Complete in Sender.Step(sha, u, s, a).events ==> Complete in s.events
  {
  }

  /** The handlers move on, each with the cause it was started for. */
  predicate SameCauses(closers: seq<Receiver.Closer>, closers': seq<Receiver.Closer>) {
    |closers'| == |closers| && forall i :: 0 <= i < |closers| ==> closers'[i].cause == closers[i].cause
  }

  lemma StageKeepsCauses(closers: seq<Receiver.Closer>, j: nat, stage: Receiver.Stage)
    requires j < |closers|
    ensures SameCauses(closers, Receiver.WithStage(closers, j, stage))
  {
  }

  lemma AdvanceMovesOne(c: Receiver.Config, r: RState, j: nat, now: int)
    requires j < |r.closers|
    ensures var closers := Receiver.AdvanceStep(c, r, j, now).closers;
            |closers| == |r.closers| && closers == Receiver.WithStage(r.closers, j, closers[j].stage)
  {
  }

  /** Only a completion handler sends a verdict. */
  lemma AdvanceVerdict(c: Receiver.Config, r: RState, j: nat, now: int)
    requires j < |r.closers|
    ensures var sent' := Receiver.AdvanceStep(c, r, j, now).out.sent;
            sent' == r.out.sent || (r.closers[j].cause.Completion? && exists m :: sent' == r.out.sent + [m])
  {
  }

  lemma AdvanceKeepsClosed(c: Receiver.Config, r: RState, j: nat, now: int, closed: bool)
    requires CausesClosed(r.closers, closed) && RepliesClosed(r.out.sent, closed)
    ensures var r' := Receiver.AdvanceStep(c, r, j, now);
            CausesClosed(r'.closers, closed) && RepliesClosed(r'.out.sent, closed)
  {
    if j < |r.closers| {
      var r' := Receiver.AdvanceStep(c, r, j, now);
      AdvanceMovesOne(c, r, j, now);
      StageKeepsCauses(r.closers, j, r'.closers[j].stage);
      AdvanceVerdict(c, r, j, now);
    }
  }

  lemma ReceiverKeepsClosed(c: Receiver.Config, r: RState, a: Receiver.Action, closed: bool)
    requires CausesClosed(r.closers, closed) && RepliesClosed(r.out.sent, closed) && Internal(a)
    ensures var r' := Receiver.Step(c, r, a);
            CausesClosed(r'.closers, closed) && RepliesClosed(r'.out.sent, closed)
  {
    match a
    case Advance(j, now) => AdvanceKeepsClosed(c, r, j, now, closed);
    case CloserFails(j) =>
      var r' := Receiver.CloserFailsStep(r, j);
      assert forall i :: 0 <= i < |r'.closers| ==> r'.closers[i].cause == r.closers[i].cause;
    case _ =>
  }

  lemma MessageKeepsClosed(r: RState, msg: Msg, closed: bool)
    requires CausesClosed(r.closers, closed) && (msg.TransferComplete? ==> closed)
    ensures CausesClosed(Receiver.OnMessage(r, msg).closers, closed)
  {
  }

  /** Wherever the completion is on the wire, it closes it. */
  lemma CompletionCloses(sha: Sha, u: Upload, s: Sender.State, j: nat)
    requires SenderInv(sha, u, s) && j < |s.sent| && s.sent[j].TransferComplete?
    ensures Closed(s)
  {
    WireShape(sha, u, s);
    assert IsControl(s.sent[j]);
  }

  lemma ReceiverGetsKeepsCross(y: System)
    requires CrossInv(y) && y.toReceiver < |y.sender.sent|
    requires y.sender.sent[y.toReceiver].TransferComplete? ==> Closed(y.sender)
    ensures CrossInv(Session.ReceiverGets(y))
  {
    MessageKeepsClosed(y.receiver, y.sender.sent[y.toReceiver], Closed(y.sender));
    MessageMeta(y.receiver, y.sender.sent[y.toReceiver]);
  }

  lemma DeliverToReceiverKeepsCross(c: Receiver.Config, y: System)
    requires SystemInv(c, y) && CrossInv(y)
    ensures CrossInv(Session.ReceiverGets(y))
  {
    if y.toReceiver < |y.sender.sent| {
      if y.sender.sent[y.toReceiver].TransferComplete? {
        CompletionCloses(c.sha, y.upload, y.sender, y.toReceiver);
      }
      ReceiverGetsKeepsCross(y);
    }
  }

  lemma SenderKeepsCross(c: Receiver.Config, y: System, a: Sender.Action)
    requires SystemInv(c, y) && CrossInv(y) && (a.Deliver? ==> a.msg in y.receiver.out.sent)
    ensures CrossInv(y.(sender := Sender.Step(c.sha, y.upload, y.sender, a)))
  {
    if Closed(y.sender) {
      SenderStaysClosed(c.sha, y.upload, y.sender, a);
    }
    if !(a.Deliver? && a.msg == Verified(true)) {
      OnlyVerdictCompletes(c.sha, y.upload, y.sender, a);
    }
  }

  lemma ReceiverKeepsCross(c: Receiver.Config, y: System, a: Receiver.Action)
    requires SystemInv(c, y) && CrossInv(y) && Internal(a)
    ensures CrossInv(y.(receiver := Receiver.Step(c, y.receiver, a)))
  {
    ReceiverKeepsClosed(c, y.receiver, a, Closed(y.sender));
    StepKeepsMeta(c, y.receiver, a);
  }

  lemma DeliverToSenderKeepsCross(c: Receiver.Config, y: System)
    requires SystemInv(c, y) && CrossInv(y)
    ensures CrossInv(Session.SenderGets(y))
  {
    if y.toSender < |y.receiver.out.sent| {
      SenderKeepsCross(c, y, Sender.Deliver(y.receiver.out.sent[y.toSender]));
    }
  }

  lemma StepKeepsCross(c: Receiver.Config, y: System, a: Session.Action)
    requires SystemInv(c, y) && CrossInv(y)
    ensures CrossInv(Session.Step(c, y, a))
  {
    match a
    case SenderActs(s) =>
      if !s.Deliver? {
        SenderKeepsCross(c, y, s);
      }
    case ReceiverActs(r) =>
      if Internal(r) {
        ReceiverKeepsCross(c, y, r);
      }
    case DeliverToReceiver => DeliverToReceiverKeepsCross(c, y);
    case DeliverToSender => DeliverToSenderKeepsCross(c, y);
    case NewSession(_, _) =>
  }

  lemma {:induction false} RunKeepsCross(c: Receiver.Config, u: Upload, d: Receiver.Durable, acts: seq<Session.Action>,
                                         ys: seq<System>)
    requires Resumable(c.sha, u, d) && Session.Run(c, acts, ys) && ys[0] == Session.Begin(u, d)
    ensures CrossInv(ys[|acts|])
  {
    if |acts| > 0 {
      var n := |acts| - 1;
      Session.RunPrefix(c, acts, ys);
      RunKeepsCross(c, u, d, acts[..n], ys[..n + 1]);
      RunKeepsSystem(c, u, d, acts[..n], ys[..n + 1]);
      StepKeepsCross(c, ys[n], acts[n]);
    }
  }

  lemma ReachableKeepsCross(c: Receiver.Config, u: Upload, d: Receiver.Durable, y: System)
    requires Resumable(c.sha, u, d) && Session.Reachable(c, Session.Begin(u, d), y)
    ensures CrossInv(y)
  {
    var acts, ys :| Session.Run(c, acts, ys) && ys[0] == Session.Begin(u, d) && ys[|acts|] == y;
    RunKeepsCross(c, u, d, acts, ys);
  }
}

/** The theorems about the two parties, over every run and any number of sessions. */
module SessionTheorems {
  import opened Basics
  import opened Chunking
  import opened HashChain
  import opened ChunkFrame
  import opened Resume
  import opened Protocol
  import opened Session
  import opened Sender
  import opened SenderSafety
  import Receiver
  import opened ReceiverSafety
  import opened SessionSafety
  import opened DiskWriters

  /** The chunks on disk in order, once the disk has them all. */
  function OnDisk(r: RState, n: nat): seq<Bytes> {
    if Covers(r.durable.disk, n) then InOrder(r.durable.disk, n) else []
  }

  /** Every digest on record is that of the stored chunk, so an accepted file hash is the hash of what is stored. */
  lemma AllInHashesDisk(c: Receiver.Config, u: Upload, r: RState)
    requires DurableInv(c, r) && PrefixInv(u, r) && AllIn(c, u, r)
    ensures Covers(r.durable.disk, u.meta.totalChunks)
    ensures HashOfHashes(c.sha, HashAll(c.sha, OnDisk(r, u.meta.totalChunks))) == FileHashOf(c.sha, u)
  {
    var n := u.meta.totalChunks;
    forall i: nat | i < n ensures i in r.durable.disk && r.tally.hashes[i] == HashChunk(c.sha, r.durable.disk[i]) {
      assert i in r.tally.received;
    }
    assert Ordered(r.tally.hashes, n) == HashAll(c.sha, InOrder(r.durable.disk, n));
  }

  /**
   * Whatever happened in earlier sessions, and though the source may have
   * changed between them: when the receiver announces completion, the chunks
   * on disk are, in order, the bytes the sender is sending now.
   */
  lemma CompleteMeansStored(c: Receiver.Config, u: Upload, d: Receiver.Durable, y: System)
    requires Resumable(c.sha, u, d) && Session.Reachable(c, Session.Begin(u, d), y)
    requires Complete in y.receiver.out.events
    requires DistinguishesFiles(c.sha, OnDisk(y.receiver, u.meta.totalChunks), Chunks(y.upload.bytes, y.upload.meta))
    ensures Covers(y.receiver.durable.disk, u.meta.totalChunks)
    ensures OnDisk(y.receiver, u.meta.totalChunks) == Chunks(y.upload.bytes, y.upload.meta)
    ensures Concat(OnDisk(y.receiver, u.meta.totalChunks)) == y.upload.bytes
  {
    ReachableKeepsSystem(c, u, d, y);
    AllInHashesDisk(c, y.upload, y.receiver);
    FileHashDeterminesChunks(c.sha, OnDisk(y.receiver, u.meta.totalChunks), Chunks(y.upload.bytes, y.upload.meta));
    ChunksConcat(y.upload.bytes, y.upload.meta);
  }

  /** Across sessions the persisted indices are a prefix of the file, and each has its digest's bytes on disk. */
  lemma PersistedStateIsSound(c: Receiver.Config, u: Upload, d: Receiver.Durable, y: System)
    requires Resumable(c.sha, u, d) && Session.Reachable(c, Session.Begin(u, d), y)
    ensures Resumable(c.sha, u, y.receiver.durable)
  {
    ReachableKeepsSystem(c, u, d, y);
  }

  /**
   * On the ordered channel the received set is always a prefix; the sender
   * resumes from the receiver's start point, which is the length the prefix had
   * until the acceptance was sent; the chunks on the wire are exactly those from
   * there on, once each and in order; and both sides report progress chunk by
   * chunk.
   */
  lemma PrefixAndProgress(c: Receiver.Config, u: Upload, d: Receiver.Durable, y: System)
    requires Resumable(c.sha, u, d) && Session.Reachable(c, Session.Begin(u, d), y)
    ensures var s, r := y.sender, y.receiver;
            && y.upload.meta == u.meta && s.i <= u.meta.totalChunks
            && IsPrefix(r.tally.received, u.meta.totalChunks)
            && (s.accepted ==> s.resumeFrom == r.tally.startFrom <= |r.tally.received|)
            && (r.phase.Opening? ==> r.tally.startFrom == |r.tally.received|)
            && (s.sent == [] || Body(y.upload, s) <= s.sent)
            && ProgressReports(u.meta, s.resumeFrom, s.i) <= s.events
            && ProgressReports(u.meta, r.tally.startFrom, |r.tally.received|) <= r.out.events
            && |r.out.events| <= |r.tally.received| - r.tally.startFrom + 1
    ensures forall j :: 0 <= j < |y.sender.sent| && y.sender.sent[j].Chunk? ==> j < |Body(y.upload, y.sender)|
  {
    ReachableKeepsSystem(c, u, d, y);
    ChunksLieInBody(c.sha, y.upload, y.sender);
  }

  lemma ChunksLieInBody(sha: Sha, u: Upload, s: Sender.State)
    requires SenderInv(sha, u, s)
    ensures forall j :: 0 <= j < |s.sent| && s.sent[j].Chunk? ==> j < |Body(u, s)|
  {
    forall j | 0 <= j < |s.sent| && s.sent[j].Chunk? ensures j < |Body(u, s)| {
      WireAt(sha, u, s, j);
    }
  }

  /** The acceptance names the length of the prefix as it is when the acceptance is sent. */
  lemma AcceptanceNamesThePrefix(c: Receiver.Config, u: Upload, d: Receiver.Durable, y: System, a: Receiver.Action)
    requires Resumable(c.sha, u, d) && Session.Reachable(c, Session.Begin(u, d), y)
    requires Internal(a) && y.receiver.out.sent == []
    ensures var sent := Receiver.Step(c, y.receiver, a).out.sent;
            sent != [] && sent[0].Accept? ==> a.Open? && sent[0] == Accept(|y.receiver.tally.received|)
  {
    ReachableKeepsSystem(c, u, d, y);
    match a
    case Advance(j, now) => AdvanceReplies(c, y.receiver, j, now);
    case _ =>
  }

  /**
   * The sender announces completion only on a positive verdict, which the
   * receiver sends only for a list of all the file's digests that hashes to the
   * sender's file hash; and if the receiver has completed too, or not ended
   * otherwise, that list is the one of its stored prefix.
   */
  lemma SenderCompleteMeansVerified(c: Receiver.Config, u: Upload, d: Receiver.Durable, y: System)
    requires Resumable(c.sha, u, d) && Session.Reachable(c, Session.Begin(u, d), y)
    requires Complete in y.sender.events
    ensures var r := y.receiver;
            && Verified(true) in r.out.sent
            && r.history.matched.Some? && |r.history.matched.value| == u.meta.totalChunks
            && HashOfHashes(c.sha, r.history.matched.value) == FileHashOf(c.sha, y.upload)
            && (r.phase.Transferring? || Complete in r.out.events ==>
                  HashOfHashes(c.sha, HashAll(c.sha, OnDisk(r, u.meta.totalChunks))) == FileHashOf(c.sha, y.upload))
  {
    ReachableKeepsSystem(c, u, d, y);
    ReachableKeepsCross(c, u, d, y);
    if y.receiver.phase.Transferring? || Complete in y.receiver.out.events {
      AllInHashesDisk(c, y.upload, y.receiver);
    }
  }

  /** A sender that cancels excludes verification: with its abort on the wire no verdict ever is, nor a completion. */
  lemma CancelExcludesVerdict(c: Receiver.Config, u: Upload, d: Receiver.Durable, y: System)
    requires Resumable(c.sha, u, d) && Session.Reachable(c, Session.Begin(u, d), y)
    requires Abort in y.sender.sent
    ensures forall h :: TransferComplete(h) !in y.sender.sent
    ensures forall ok :: Verified(ok) !in y.receiver.out.sent
    ensures Complete !in y.receiver.out.events && Complete !in y.sender.events
  {
    ReachableKeepsSystem(c, u, d, y);
    ReachableKeepsCross(c, u, d, y);
    AbortIsAlone(c.sha, y.upload, y.sender);
  }

  lemma AbortIsAlone(sha: Sha, u: Upload, s: Sender.State)
    requires WireInv(sha, u, s) && Abort in s.sent
    ensures !Closed(s) && forall h :: TransferComplete(h) !in s.sent
  {
    WireShape(sha, u, s);
    var j :| 0 <= j < |s.sent| && s.sent[j] == Abort;
    assert IsControl(s.sent[j]);
    forall h, k | 0 <= k < |s.sent| ensures s.sent[k] != TransferComplete(h) {
      assert k != j ==> !IsControl(s.sent[k]);
    }
  }

  /** No chunk is on the wire, and none has been written, before the acceptance was sent. */
  lemma NothingBeforeAcceptance(c: Receiver.Config, u: Upload, d: Receiver.Durable, y: System)
    requires Resumable(c.sha, u, d) && Session.Reachable(c, Session.Begin(u, d), y)
    ensures (exists j :: 0 <= j < |y.sender.sent| && y.sender.sent[j].Chunk?) || y.receiver.history.writes != [] ==>
              y.receiver.out.sent != [] && y.receiver.out.sent[0] == Accept(y.receiver.tally.startFrom)
  {
    ReachableKeepsSystem(c, u, d, y);
    if !y.sender.accepted {
      NotAcceptedCounts(c.sha, y.upload, y.sender);
      forall j | 0 <= j < |y.sender.sent| ensures !y.sender.sent[j].Chunk? {
        WireAt(c.sha, y.upload, y.sender, j);
      }
    }
  }
}
