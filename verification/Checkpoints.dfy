/**
 * How much of what has been received the resume store knows of: at every moment
 * of a session all but one interval of checkpoints, and that is what the next
 * session goes on from.
 */
module Checkpoints {
  import opened Basics
  import opened Chunking
  import opened HashChain
  import opened Resume
  import opened Protocol
  import opened Receiver
  import opened ReceiverSafety

  // ---- what a save writes ----

  /** The entry is there, stamped, with exactly the indices and digests the session holds. */
  predicate Recorded(r: State, r': State, now: int) {
    && r'.durable.saved.Some? && r'.durable.saved.value.received == r.tally.received
    && r'.durable.saved.value.hashes == r.tally.hashes && r'.durable.saved.value.updatedAt == now
    && r'.durable.disk == r.durable.disk && r'.tally == r.tally
  }

  /** A checkpoint writes down what is held, and the queue goes on. */
  lemma CheckpointRecords(c: Config, r: State, now: int)
    requires r.queue.task.Saving?
    ensures var r' := Step(c, r, Save(now));
            && Recorded(r, r', now)
            && r'.queue == r.queue.(task := Idle, done := r.queue.done + 1) && r'.phase == r.phase && r'.out == r.out
  {
  }

  /** So does a session that its sender has cancelled, once the writer has been aborted. */
  lemma CancelRecords(c: Config, r: State, j: nat, now: int)
    requires j < |r.closers| && r.closers[j] == Closer(RemoteAbort, SavingState)
    ensures var r' := Step(c, r, Advance(j, now));
            && Recorded(r, r', now)
            && r'.closers == r.closers[j := Closer(RemoteAbort, Finishing)] && r'.phase == r.phase && r'.out == r.out
  {
  }

  /** A session whose file has been verified and finalized leaves no entry. */
  lemma CompletionClears(c: Config, r: State, j: nat, now: int, h: string)
    requires j < |r.closers| && r.closers[j] == Closer(Completion(h), Clearing)
    ensures var r' := Step(c, r, Advance(j, now));
            && r'.durable.saved == None && r'.durable.disk == r.durable.disk
            && r'.closers == r.closers[j := Closer(Completion(h), Finishing)] && r'.phase == r.phase && r'.out == r.out
  {
  }

  // ---- how far the entry is behind ----

  /** At least every chunk, at most every checkpointEvery chunks. */
  function Interval(c: Config): nat {
    Max(1, c.checkpointEvery)
  }

  /** The indices of the entry. */
  function InEntry(r: State): set<nat> {
    if r.durable.saved.Some? then r.durable.saved.value.received else {}
  }

  /** The entry is cleared only behind a positive verdict. */
  predicate ClearsLate(r: State) {
    forall j :: 0 <= j < |r.closers| && (r.closers[j].stage.Finalizing? || r.closers[j].stage.Clearing?) ==>
      Verified(true) in r.out.sent
  }

  /** What is held and not in the entry: as many as counted, or one interval while it is being saved or cannot be. */
  predicate KeepsUp(c: Config, r: State) {
    && (r.queue.failed ==> r.queue.task.Idle?)
    && (r.tally.loaded ==>
          && r.tally.sinceCheckpoint < Interval(c)
          && (Verified(true) !in r.out.sent ==>
                |r.tally.received - InEntry(r)|
                <= if r.queue.task.Saving? || r.queue.failed then Interval(c) else r.tally.sinceCheckpoint))
  }

  predicate CheckpointInv(c: Config, r: State) {
    ClearsLate(r) && KeepsUp(c, r) && LoadedInv(r)
  }

  lemma OneMoreMissing(held: set<nat>, entry: set<nat>, i: nat)
    ensures |held + {i} - entry| <= |held - entry| + 1
  {
    if i in entry || i in held {
      assert held + {i} - entry == held - entry;
    } else {
      assert held + {i} - entry == held - entry + {i};
    }
  }

  lemma HashKeepsUp(c: Config, r: State)
    requires CheckpointInv(c, r)
    ensures KeepsUp(c, HashDoneStep(c, r)) && ClearsLate(HashDoneStep(c, r))
  {
    if r.queue.task.Hashing? {
      OneMoreMissing(r.tally.received, InEntry(r), r.queue.task.index);
    }
  }

  lemma SaveKeepsUp(c: Config, r: State, now: int)
    requires CheckpointInv(c, r)
    ensures KeepsUp(c, SaveStep(r, now)) && ClearsLate(SaveStep(r, now))
  {
    if r.queue.task.Saving? {
      assert r.tally.received - InEntry(SaveStep(r, now)) == {};
    }
  }

  lemma LoadKeepsUp(c: Config, r: State, now: int)
    requires CheckpointInv(c, r)
    ensures KeepsUp(c, LoadStep(r, now)) && ClearsLate(LoadStep(r, now))
  {
    if r.phase.Loading? {
      var r' := LoadStep(r, now);
      assert r'.tally.received - InEntry(r') == {};
    }
  }

  /** What a step leaves alone so that the entry stays as near as it was. */
  predicate SameRecord(r: State, r': State) {
    && r'.tally == r.tally && r'.durable.saved == r.durable.saved && r.out.sent <= r'.out.sent
    && (r'.queue.failed ==> r'.queue.task.Idle?)
    && (r.queue.task.Saving? || r.queue.failed ==> r'.queue.task.Saving? || r'.queue.failed)
  }

  lemma SameRecordKeepsUp(c: Config, r: State, r': State)
    requires KeepsUp(c, r) && SameRecord(r, r')
    ensures KeepsUp(c, r')
  {
    if Verified(true) in r.out.sent {
      assert Verified(true) in r'.out.sent;
    }
  }

  lemma SameClosersClearLate(r: State, r': State)
    requires ClearsLate(r) && r.out.sent <= r'.out.sent
    requires OnlyNewClosers(r, r')
    ensures ClearsLate(r')
  {
    forall j | 0 <= j < |r'.closers| && (r'.closers[j].stage.Finalizing? || r'.closers[j].stage.Clearing?)
      ensures Verified(true) in r'.out.sent
    {
      assert r'.closers[j] in r'.closers;
    }
  }

  lemma TaskKeepsRecord(c: Config, r: State, a: Action)
    requires r.queue.failed ==> r.queue.task.Idle?
    requires a.StartTask? || a.WriteDone? || a.TaskFails? || a.QueueRejects?
    ensures SameRecord(r, Step(c, r, a)) && Step(c, r, a).closers == r.closers
  {
    match a
    case StartTask =>
    case WriteDone =>
    case TaskFails(_) =>
    case QueueRejects =>
  }

  lemma TaskKeepsUp(c: Config, r: State, a: Action)
    requires CheckpointInv(c, r) && (a.StartTask? || a.WriteDone? || a.TaskFails? || a.QueueRejects?)
    ensures KeepsUp(c, Step(c, r, a)) && ClearsLate(Step(c, r, a))
  {
    var r' := Step(c, r, a);
    TaskKeepsRecord(c, r, a);
    SameRecordKeepsUp(c, r, r');
    SameClosersClearLate(r, r');
  }

  lemma EarlyKeepsUp(c: Config, r: State, a: Action)
    requires CheckpointInv(c, r)
    requires a.Deliver? || a.Confirm? || a.Open? || a.EarlyAbortDone? || a.EarlyThrow? || a.Signal?
    ensures KeepsUp(c, Step(c, r, a)) && ClearsLate(Step(c, r, a))
  {
    if a.Deliver? {
      MessageKeepsRecord(r, a.msg);
    } else {
      EarlyKeepsRecord(c, r, a);
    }
    SameRecordKeepsUp(c, r, Step(c, r, a));
    SameClosersClearLate(r, Step(c, r, a));
  }

  /** The handlers there were, and new ones that wait for the queue. */
  predicate OnlyNewClosers(r: State, r': State) {
    forall k :: k in r'.closers ==> k in r.closers || k.stage.AwaitQueue?
  }

  lemma MessageKeepsRecord(r: State, msg: Msg)
    requires r.queue.failed ==> r.queue.task.Idle?
    ensures SameRecord(r, OnMessage(r, msg)) && OnlyNewClosers(r, OnMessage(r, msg))
  {
  }

  lemma EarlyKeepsRecord(c: Config, r: State, a: Action)
    requires r.queue.failed ==> r.queue.task.Idle?
    requires a.Confirm? || a.Open? || a.EarlyAbortDone? || a.EarlyThrow? || a.Signal?
    ensures SameRecord(r, Step(c, r, a)) && OnlyNewClosers(r, Step(c, r, a))
  {
  }

  lemma StageClearsLate(r: State, r': State, j: nat)
    requires ClearsLate(r) && j < |r.closers| == |r'.closers| && r.out.sent <= r'.out.sent
    requires forall i :: 0 <= i < |r.closers| && i != j ==> r'.closers[i] == r.closers[i]
    requires r'.closers[j].stage.Finalizing? || r'.closers[j].stage.Clearing? ==> Verified(true) in r'.out.sent
    ensures ClearsLate(r')
  {
    if Verified(true) in r.out.sent {
      assert Verified(true) in r'.out.sent;
    }
  }

  lemma AdvanceClearsLate(c: Config, r: State, j: nat, now: int)
    requires ClearsLate(r)
    ensures ClearsLate(AdvanceStep(c, r, j, now))
  {
    if j < |r.closers| {
      StageClearsLate(r, AdvanceStep(c, r, j, now), j);
    }
  }

  lemma ClosersClearLate(c: Config, r: State, j: nat, now: int)
    requires ClearsLate(r)
    ensures ClearsLate(AdvanceStep(c, r, j, now)) && ClearsLate(CloserFailsStep(r, j))
  {
    AdvanceClearsLate(c, r, j, now);
  }

  /** A handler that closes the session leaves the entry alone, brings it up to date, or clears what was verified. */
  lemma AdvanceKeepsEntry(c: Config, r: State, j: nat, now: int)
    requires ClearsLate(r)
    ensures var r' := AdvanceStep(c, r, j, now);
            && r'.tally == r.tally && r'.queue == r.queue
            && (Verified(true) in r.out.sent ==> Verified(true) in r'.out.sent)
            && (r'.durable.saved == r.durable.saved || InEntry(r') == r.tally.received || Verified(true) in r'.out.sent)
  {
  }

  lemma AdvanceKeepsUp(c: Config, r: State, j: nat, now: int)
    requires CheckpointInv(c, r)
    ensures KeepsUp(c, AdvanceStep(c, r, j, now))
  {
    AdvanceKeepsEntry(c, r, j, now);
    var r' := AdvanceStep(c, r, j, now);
    if InEntry(r') == r.tally.received {
      assert r.tally.received - InEntry(r') == {};
    }
  }

  lemma CloserFailsKeepsUp(c: Config, r: State, j: nat)
    requires CheckpointInv(c, r)
    ensures KeepsUp(c, CloserFailsStep(r, j))
  {
  }

  lemma StepKeepsUp(c: Config, r: State, a: Action)
    requires CheckpointInv(c, r)
    ensures KeepsUp(c, Step(c, r, a)) && ClearsLate(Step(c, r, a))
  {
    match a
    case HashDone => HashKeepsUp(c, r);
    case Save(now) => SaveKeepsUp(c, r, now);
    case Load(now) => LoadKeepsUp(c, r, now);
    case Advance(j, now) =>
      ClosersClearLate(c, r, j, now);
      AdvanceKeepsUp(c, r, j, now);
    case CloserFails(j) =>
      ClosersClearLate(c, r, j, 0);
      CloserFailsKeepsUp(c, r, j);
    case _ =>
      if a.StartTask? || a.WriteDone? || a.TaskFails? || a.QueueRejects? {
        TaskKeepsUp(c, r, a);
      } else if !a.Restart? {
        EarlyKeepsUp(c, r, a);
      }
  }

  lemma {:induction false} RunKeepsUp(c: Config, d: Durable, acts: seq<Action>)
    requires StoreInv(c.sha, d)
    ensures CheckpointInv(c, Run(c, Begin(d), acts))
  {
    RunKeepsDurable(c, d, acts);
    if |acts| > 0 {
      RunKeepsUp(c, d, acts[..|acts| - 1]);
      StepKeepsUp(c, Run(c, Begin(d), acts[..|acts| - 1]), acts[|acts| - 1]);
    }
  }

  /**
   * Whatever frames arrive, whatever fails and in however many sessions: until the
   * file has been verified, all but one interval of what a session holds is in the
   * resume store, and what is there the session holds.
   */
  lemma EntryKeepsUp(c: Config, d: Durable, acts: seq<Action>)
    requires StoreInv(c.sha, d)
    ensures var r := Run(c, Begin(d), acts);
            r.tally.loaded && Verified(true) !in r.out.sent ==>
              |r.tally.received - InEntry(r)| <= Interval(c) && InEntry(r) <= r.tally.received
  {
    RunKeepsUp(c, d, acts);
  }

  // ---- the store that shares the digests ----

  /** With MemoryResumeStore the entry of a session that has loaded has the digests the session has. */
  predicate SharesDigests(c: Config, r: State) {
    c.shared && r.tally.loaded && r.durable.saved.Some? ==> r.durable.saved.value.hashes == r.tally.hashes
  }

  lemma DigestsFrame(c: Config, r: State, r': State)
    requires SharesDigests(c, r) && r'.tally == r.tally && r'.durable.saved == r.durable.saved
    ensures SharesDigests(c, r')
  {
  }

  lemma TaskSharesDigests(c: Config, r: State, a: Action)
    requires SharesDigests(c, r) && (a.HashDone? || a.Save? || a.Load?)
    ensures SharesDigests(c, Step(c, r, a))
  {
  }

  lemma AdvanceSharesDigests(c: Config, r: State, j: nat, now: int)
    requires SharesDigests(c, r)
    ensures SharesDigests(c, AdvanceStep(c, r, j, now))
  {
  }

  lemma OtherSharesDigests(c: Config, r: State, a: Action)
    requires SharesDigests(c, r) && (r.queue.failed ==> r.queue.task.Idle?)
    requires !a.HashDone? && !a.Save? && !a.Load? && !a.Advance? && !a.CloserFails? && !a.Restart?
    ensures SharesDigests(c, Step(c, r, a))
  {
    if a.StartTask? || a.WriteDone? || a.TaskFails? || a.QueueRejects? {
      TaskKeepsRecord(c, r, a);
    } else if a.Deliver? {
      MessageKeepsRecord(r, a.msg);
    } else {
      EarlyKeepsRecord(c, r, a);
    }
    DigestsFrame(c, r, Step(c, r, a));
  }

  /**
   * In every run over a store that shares the digests, whatever frames arrive and
   * whatever fails: a digest computed since the last checkpoint is in the entry at
   * once, so that the entry may have digests of indices it does not name.
   */
  lemma {:induction false} SharedEntryIsCurrent(c: Config, d: Durable, acts: seq<Action>)
    requires StoreInv(c.sha, d)
    ensures SharesDigests(c, Run(c, Begin(d), acts))
  {
    if |acts| > 0 {
      var r, a := Run(c, Begin(d), acts[..|acts| - 1]), acts[|acts| - 1];
      SharedEntryIsCurrent(c, d, acts[..|acts| - 1]);
      RunKeepsUp(c, d, acts[..|acts| - 1]);
      match a
      case Advance(j, now) => AdvanceSharesDigests(c, r, j, now);
      case CloserFails(j) => DigestsFrame(c, r, CloserFailsStep(r, j));
      case Restart(_) =>
      case _ =>
        if a.HashDone? || a.Save? || a.Load? {
          TaskSharesDigests(c, r, a);
        } else {
          OtherSharesDigests(c, r, a);
        }
    }
  }

  /** With a store that keeps a text of its own, a digest computed is in no entry before it is saved. */
  lemma OwnEntryStays(c: Config, r: State)
    requires !c.shared
    ensures Step(c, r, HashDone).durable == r.durable
  {
  }
}

/** The same for sender and receiver together, and into the next session. */
module NextSession {
  import opened Basics
  import opened Chunking
  import opened HashChain
  import opened Resume
  import opened Protocol
  import opened Session
  import opened Sender
  import Receiver
  import opened ReceiverSafety
  import opened SessionSafety
  import opened Checkpoints

  lemma DeliveryKeepsUp(c: Receiver.Config, r: RState, msg: Msg)
    requires CheckpointInv(c, r)
    ensures KeepsUp(c, Receiver.OnMessage(r, msg)) && ClearsLate(Receiver.OnMessage(r, msg))
  {
    StepKeepsUp(c, r, Receiver.Deliver(msg));
  }

  lemma SessionStepKeepsUp(c: Receiver.Config, y: System, a: Session.Action)
    requires SystemInv(c, y) && KeepsUp(c, y.receiver) && ClearsLate(y.receiver)
    ensures var r' := Session.Step(c, y, a).receiver; KeepsUp(c, r') && ClearsLate(r')
  {
    match a
    case ReceiverActs(r) => if Internal(r) { StepKeepsUp(c, y.receiver, r); }
    case DeliverToReceiver =>
      if y.toReceiver < |y.sender.sent| {
        DeliveryKeepsUp(c, y.receiver, y.sender.sent[y.toReceiver]);
      }
    case NewSession(_, garbage) => StepKeepsUp(c, y.receiver, Receiver.Restart(garbage));
    case _ =>
  }

  lemma {:induction false} SessionRunKeepsUp(c: Receiver.Config, u: Upload, d: Receiver.Durable,
                                             acts: seq<Session.Action>, ys: seq<System>)
    requires Resumable(c.sha, u, d) && Session.Run(c, acts, ys) && ys[0] == Session.Begin(u, d)
    ensures KeepsUp(c, ys[|acts|].receiver) && ClearsLate(ys[|acts|].receiver)
  {
    if |acts| > 0 {
      var n := |acts| - 1;
      Session.RunPrefix(c, acts, ys);
      SessionRunKeepsUp(c, u, d, acts[..n], ys[..n + 1]);
      RunKeepsSystem(c, u, d, acts[..n], ys[..n + 1]);
      SessionStepKeepsUp(c, ys[n], acts[n]);
    }
  }

  lemma MissingIsDifference(held: set<nat>, entry: set<nat>)
    requires entry <= held
    ensures |held - entry| == |held| - |entry|
  {
    assert held == held - entry + entry;
  }

  /** In every reachable state of a session that has not verified: the entry is a prefix, at most one interval short. */
  lemma EntryIsNearby(c: Receiver.Config, u: Upload, d: Receiver.Durable, y: System)
    requires Resumable(c.sha, u, d) && Session.Reachable(c, Session.Begin(u, d), y)
    requires y.receiver.tally.loaded && Verified(true) !in y.receiver.out.sent
    ensures |y.receiver.tally.received| - Interval(c) <= |InEntry(y.receiver)| <= |y.receiver.tally.received|
    ensures IsPrefix(InEntry(y.receiver), u.meta.totalChunks)
  {
    var acts, ys :| Session.Run(c, acts, ys) && ys[0] == Session.Begin(u, d) && ys[|acts|] == y;
    SessionRunKeepsUp(c, u, d, acts, ys);
    ReachableKeepsSystem(c, u, d, y);
    MissingIsDifference(y.receiver.tally.received, InEntry(y.receiver));
  }

  // ---- the next session ----

  /** The action belongs to the session that is on, and a load finds the entry alive if there is one. */
  predicate LoadsAlive(a: Session.Action, saved: Option<ResumeState>) {
    && !a.NewSession?
    && (a.ReceiverActs? && a.r.Load? && saved.Some? ==> Live(saved, a.r.now).Some?)
  }

  predicate Accepted(r: RState) {
    r.out.sent != [] && r.out.sent[0].Accept?
  }

  /** The session starts from the entry it found. */
  predicate StartsFrom(r: RState, saved: Option<ResumeState>) {
    && LoadedInv(r) && (Accepted(r) ==> r.tally.loaded)
    && if r.tally.loaded then r.tally.startFrom == (if saved.Some? then ResumePoint(saved.value.received) else 0)
       else r.durable.saved == saved
  }

  lemma LoadStartsFrom(r: RState, now: int, saved: Option<ResumeState>)
    requires StartsFrom(r, saved) && (saved.Some? ==> Live(saved, now).Some?)
    requires ResumePoint({}) == 0
    ensures StartsFrom(Receiver.LoadStep(r, now), saved)
  {
  }

  lemma InternalStartsFrom(c: Receiver.Config, r: RState, a: Receiver.Action, saved: Option<ResumeState>)
    requires StartsFrom(r, saved) && EarlyInv(r) && Internal(a) && !a.Load? && LoadedInv(Receiver.Step(c, r, a))
    ensures StartsFrom(Receiver.Step(c, r, a), saved)
  {
    InternalAccepts(c, r, a);
    match a
    case Advance(j, now) => AdvanceEffect(c, r, j, now);
    case CloserFails(j) => CloserFailsEffect(r, j, 0);
    case _ =>
  }

  /** An acceptance is sent only by a session that has loaded. */
  lemma InternalAccepts(c: Receiver.Config, r: RState, a: Receiver.Action)
    requires LoadedInv(r) && (Accepted(r) ==> r.tally.loaded) && Internal(a) && !a.Load?
    ensures Accepted(Receiver.Step(c, r, a)) ==> Receiver.Step(c, r, a).tally.loaded
  {
    match a
    case Advance(j, now) =>
      AdvanceEffect(c, r, j, now);
      AdvanceReplies(c, r, j, now);
    case CloserFails(j) => CloserFailsEffect(r, j, 0);
    case _ =>
  }

  lemma StepStartsFrom(c: Receiver.Config, y: System, a: Session.Action, saved: Option<ResumeState>)
    requires SystemInv(c, y) && StartsFrom(y.receiver, saved) && LoadsAlive(a, saved)
    ensures StartsFrom(Session.Step(c, y, a).receiver, saved)
  {
    StepKeepsSystem(c, y, a);
    match a
    case ReceiverActs(r) =>
      if r.Load? {
        ResumePointUnique({}, 0);
        LoadStartsFrom(y.receiver, r.now, saved);
      } else if Internal(r) {
        InternalStartsFrom(c, y.receiver, r, saved);
      }
    case DeliverToReceiver =>
      if y.toReceiver < |y.sender.sent| {
        MessageMeta(y.receiver, y.sender.sent[y.toReceiver]);
      }
    case _ =>
  }

  lemma {:induction false} RunStartsFrom(c: Receiver.Config, acts: seq<Session.Action>, ys: seq<System>,
                                         saved: Option<ResumeState>)
    requires Session.Run(c, acts, ys) && SystemInv(c, ys[0]) && StartsFrom(ys[0].receiver, saved)
    requires forall i :: 0 <= i < |acts| ==> LoadsAlive(acts[i], saved)
    ensures SystemInv(c, ys[|acts|]) && StartsFrom(ys[|acts|].receiver, saved)
  {
    if |acts| > 0 {
      var n := |acts| - 1;
      Session.RunPrefix(c, acts, ys);
      assert forall i :: 0 <= i < n ==> acts[..n][i] == acts[i];
      RunStartsFrom(c, acts[..n], ys[..n + 1], saved);
      StepStartsFrom(c, ys[n], acts[n], saved);
      StepKeepsSystem(c, ys[n], acts[n]);
    }
  }

  /**
   * A session ends at any point before it has verified, and another one begins over
   * what it left, while the entry is alive. Wherever that session gets to: if it has
   * accepted, then from no further back than one interval of checkpoints.
   */
  lemma ResumesNearby(c: Receiver.Config, u: Upload, d: Receiver.Durable, y: System, bytes: Bytes,
                      garbage: Option<Bytes>, acts: seq<Session.Action>, ys: seq<System>)
    requires Resumable(c.sha, u, d) && Session.Reachable(c, Session.Begin(u, d), y)
    requires y.receiver.tally.loaded && Verified(true) !in y.receiver.out.sent && |bytes| == u.meta.size
    requires Session.Run(c, acts, ys) && ys[0] == Session.Reopened(y, bytes, garbage)
    requires forall i :: 0 <= i < |acts| ==> LoadsAlive(acts[i], y.receiver.durable.saved)
    ensures var held, sent := |y.receiver.tally.received|, ys[|acts|].receiver.out.sent;
            sent != [] && sent[0].Accept? ==> held - Interval(c) <= sent[0].resumeFromChunk <= held
  {
    EntryIsNearby(c, u, d, y);
    NextStarts(c, u, d, y, bytes, garbage);
    RunStartsFrom(c, acts, ys, y.receiver.durable.saved);
    if Accepted(ys[|acts|].receiver) {
      AcceptsEntry(c, ys[|acts|], y.receiver, u.meta.totalChunks);
    }
  }

  lemma RestartStartsFrom(r: RState, garbage: Option<Bytes>)
    ensures StartsFrom(Receiver.RestartStep(r, garbage), r.durable.saved)
  {
  }

  lemma NextStarts(c: Receiver.Config, u: Upload, d: Receiver.Durable, y: System, bytes: Bytes, garbage: Option<Bytes>)
    requires Resumable(c.sha, u, d) && Session.Reachable(c, Session.Begin(u, d), y) && |bytes| == u.meta.size
    ensures var y' := Session.Reopened(y, bytes, garbage);
            SystemInv(c, y') && StartsFrom(y'.receiver, y.receiver.durable.saved)
  {
    ReachableKeepsSystem(c, u, d, y);
    NewSessionKeeps(c, y, bytes, garbage);
    RestartStartsFrom(y.receiver, garbage);
  }

  /** An acceptance names the number of chunks in the entry. */
  lemma AcceptsEntry(c: Receiver.Config, y: System, before: RState, n: nat)
    requires SystemInv(c, y) && StartsFrom(y.receiver, before.durable.saved) && Accepted(y.receiver)
    requires IsPrefix(InEntry(before), n)
    ensures y.receiver.out.sent[0] == Accept(|InEntry(before)|)
  {
    AcceptsStart(c, y, before.durable.saved);
    ResumePointUnique(InEntry(before), |InEntry(before)|);
  }

  lemma AcceptsStart(c: Receiver.Config, y: System, saved: Option<ResumeState>)
    requires SystemInv(c, y) && StartsFrom(y.receiver, saved) && Accepted(y.receiver)
    ensures y.receiver.out.sent[0]
         == Accept(if saved.Some? then ResumePoint(saved.value.received) else 0)
  {
  }
}
