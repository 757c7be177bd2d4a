/** Two limits of receiveFile: files of more chunks than an array holds, and what happens before the user says yes. */
module ReceiverLimits {
  import opened Basics
  import opened Chunking
  import opened HashChain
  import opened Resume
  import opened Protocol
  import opened Receiver
  import opened ReceiverSafety

  // ---- more chunks than an array holds ----

  predicate NoVerdict(r: State) {
    && (forall j :: 0 <= j < |r.closers| ==> !r.closers[j].stage.Digesting?)
    && Verified(true) !in r.out.sent
  }

  /** A digest list that fits in no array is never hashed. */
  predicate LimitInv(r: State) {
    && (r.phase.AwaitingOffer? ==> r.closers == [] && r.out.sent == [])
    && (r.meta.totalChunks > MAX_ARRAY_LENGTH ==> NoVerdict(r))
  }

  lemma QueueStepKeepsNoVerdict(r: State, j: nat, upTo: nat)
    requires NoVerdict(r) && r.meta.totalChunks > MAX_ARRAY_LENGTH && j < |r.closers|
    ensures NoVerdict(QueueStep(r, j, r.closers[j].cause, upTo))
  {
  }

  lemma AdvanceKeepsNoVerdict(c: Config, r: State, j: nat, now: int)
    requires NoVerdict(r) && r.meta.totalChunks > MAX_ARRAY_LENGTH
    ensures NoVerdict(AdvanceStep(c, r, j, now))
  {
    if j < |r.closers| && r.closers[j].stage.AwaitQueue? {
      QueueStepKeepsNoVerdict(r, j, r.closers[j].stage.upTo);
    }
  }

  lemma AdvanceKeepsLimit(c: Config, r: State, j: nat, now: int)
    requires LimitInv(r)
    ensures LimitInv(AdvanceStep(c, r, j, now))
  {
    AdvanceEffect(c, r, j, now);
    if r.meta.totalChunks > MAX_ARRAY_LENGTH {
      AdvanceKeepsNoVerdict(c, r, j, now);
    }
  }

  lemma OtherStepsKeepLimit(c: Config, r: State, a: Action)
    requires LimitInv(r) && !a.Advance? && !a.CloserFails?
    ensures LimitInv(Step(c, r, a))
  {
  }

  lemma CloserFailsKeepsLimit(r: State, j: nat)
    requires LimitInv(r)
    ensures LimitInv(CloserFailsStep(r, j))
  {
    CloserFailsEffect(r, j, 0);
  }

  lemma StepKeepsLimit(c: Config, r: State, a: Action)
    requires LimitInv(r)
    ensures LimitInv(Step(c, r, a))
  {
    match a
    case Advance(j, now) => AdvanceKeepsLimit(c, r, j, now);
    case CloserFails(j) => CloserFailsKeepsLimit(r, j);
    case _ => OtherStepsKeepLimit(c, r, a);
  }

  lemma {:induction false} RunKeepsLimit(c: Config, d: Durable, acts: seq<Action>)
    ensures LimitInv(Run(c, Begin(d), acts))
  {
    if |acts| > 0 {
      RunKeepsLimit(c, d, acts[..|acts| - 1]);
      StepKeepsLimit(c, Run(c, Begin(d), acts[..|acts| - 1]), acts[|acts| - 1]);
    }
  }

  /**
   * The digests are hashed from one array. Whatever is sent, whatever the store
   * holds and in however many sessions, a transfer of 2^32 chunks or more is
   * never verified.
   */
  lemma OverflowNeverVerifies(c: Config, d: Durable, acts: seq<Action>)
    requires Run(c, Begin(d), acts).meta.totalChunks > MAX_ARRAY_LENGTH
    ensures Verified(true) !in Run(c, Begin(d), acts).out.sent
  {
    RunKeepsLimit(c, d, acts);
  }

  // ---- before the user has accepted ----

  predicate NeverAccepted(acts: seq<Action>) {
    forall i :: 0 <= i < |acts| ==> acts[i] != Confirm(true)
  }

  predicate Untouched(r: State, d: Durable) {
    && (r.phase.AwaitingOffer? || r.phase.Confirming? || r.phase.Settled?)
    && r.durable == d && r.history.writes == []
    && r.queue == Begin(d).queue && r.closers == []
    && (forall m :: m in r.out.sent ==> m == Reject)
  }

  lemma StepKeepsUntouched(c: Config, r: State, a: Action, d: Durable)
    requires Untouched(r, d) && a != Confirm(true)
    ensures Untouched(Step(c, r, a), d)
  {
  }

  /** Until the user accepts, nothing is written, nothing stored is changed, and nothing but a rejection is sent. */
  lemma {:induction false} NothingWithoutConfirmation(c: Config, d: Durable, acts: seq<Action>)
    requires NeverAccepted(acts)
    ensures Untouched(Run(c, Begin(d), acts), d)
  {
    if |acts| > 0 {
      NothingWithoutConfirmation(c, d, acts[..|acts| - 1]);
      StepKeepsUntouched(c, Run(c, Begin(d), acts[..|acts| - 1]), acts[|acts| - 1], d);
    }
  }
}
