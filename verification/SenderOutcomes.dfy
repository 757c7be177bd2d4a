/** How a session of the sender ends: the causes of each ending, what it announces, and how promptly a cancel acts. */
module SenderOutcomes {
  import opened Basics
  import opened Chunking
  import opened HashChain
  import opened ChunkFrame
  import opened Protocol
  import opened Sender

  /** How a session that goes on is ended: returned or thrown, with what last event, and with what last message. */
  datatype Ending = GoesOn | Ends(phase: Phase, event: Option<TransferEvent>, msg: Option<Msg>)

  /** The user's cancel and the peer's: the peer is told of the first alone. */
  function CancelEnding(byPeer: bool): Ending {
    Ends(Returned, Some(Cancelled), if byPeer then None else Some(Abort))
  }

  predicate Waits(s: State) {
    s.phase.AwaitAccept? || s.phase.AwaitVerified?
  }

  predicate InLoop(s: State) {
    s.phase.LoopHead? || s.phase.Reading? || s.phase.Draining?
  }

  /** Where the loop looks whether the transfer has been cancelled. */
  predicate LooksForCancel(u: Upload, s: State, a: Action) {
    (s.phase.LoopHead? && a.Head?) || (s.phase.Draining? && s.i < u.meta.totalChunks && a.Drained?)
  }

  function EndingOf(u: Upload, s: State, a: Action): Ending {
    match a
    case Fails => Ends(Threw, None, None)
    case Deliver(Abort) => if Waits(s) then CancelEnding(true) else GoesOn
    case Deliver(Reject) =>
      if s.phase.AwaitAccept? then Ends(Returned, Some(Rejected), None)
      else if s.phase.AwaitVerified? then Ends(Threw, None, None)
      else GoesOn
    case Deliver(Verified(ok)) =>
      if !s.phase.AwaitVerified? then GoesOn
      else if ok then Ends(Returned, Some(Complete), None) else Ends(Threw, Some(Error), None)
    case Deliver(Accept(_)) =>
      if s.phase.AwaitAccept? && u.meta.totalChunks > MAX_ARRAY_LENGTH then Ends(Threw, None, None) else GoesOn
    case SignalSeen => if s.phase.AwaitAccept? && s.signalled then CancelEnding(s.remoteAborted) else GoesOn
    case _ =>
      if LooksForCancel(u, s, a) && (s.signalled || s.remoteAborted) then CancelEnding(s.remoteAborted) else GoesOn
  }

  function AsSeq<T>(x: Option<T>): seq<T> {
    if x.Some? then [x.value] else []
  }

  /** What the ending makes of the session. */
  predicate EndsAs(e: Ending, s: State, s': State) {
    match e
    case GoesOn => !Ended(s')
    case Ends(phase, event, msg) =>
      s'.phase == phase && s'.events == s.events + AsSeq(event) && s'.sent == s.sent + AsSeq(msg)
      && s'.i == s.i && s'.hashes == s.hashes
  }

  lemma MessageEnds(u: Upload, s: State, msg: Msg)
    requires !Ended(s)
    ensures EndsAs(EndingOf(u, s, Deliver(msg)), s, OnMessage(u, s, msg))
  {
  }

  /**
   * One step ends a session iff it has a cause to: a failure; the peer's abort or
   * rejection while it is awaited; the verdict; an acceptance of a file with more
   * chunks than an array holds; or a cancel that is looked for. It ends as the
   * cause says, with one event or none, and one message or none.
   */
  lemma EndsWithCause(sha: Sha, u: Upload, s: State, a: Action)
    requires !Ended(s)
    ensures EndsAs(EndingOf(u, s, a), s, Step(sha, u, s, a))
  {
    match a
    case Deliver(msg) => MessageEnds(u, s, msg);
    case _ =>
  }

  /** A cancel that cannot act at once is noted, and changes nothing else; once noted it stays. */
  lemma CancelIsNoted(sha: Sha, u: Upload, s: State, a: Action)
    requires !Ended(s)
    ensures Step(sha, u, s, Signal) == s.(signalled := true)
    ensures !s.phase.Preparing? && !Waits(s) ==> Step(sha, u, s, Deliver(Abort)) == s.(remoteAborted := true)
    ensures s.signalled ==> Step(sha, u, s, a).signalled
    ensures s.remoteAborted ==> Step(sha, u, s, a).remoteAborted
  {
  }

  /** An acceptance starts the loop at the first chunk, whatever resume point it names: skipped chunks are read too. */
  lemma AcceptanceStartsLoop(sha: Sha, u: Upload, s: State, k: nat)
    requires s.phase.AwaitAccept? && u.meta.totalChunks <= MAX_ARRAY_LENGTH
    ensures Step(sha, u, s, Deliver(Accept(k))) == s.(phase := LoopHead, accepted := true, resumeFrom := k)
  {
  }

  /** What a sender that was cancelled in the loop has done since: nothing, or ended. */
  predicate StoppedSince(s: State, s': State) {
    || (InLoop(s') && (s'.signalled || s'.remoteAborted) && s'.sent == s.sent && s'.events == s.events)
    || (s'.phase.Threw? && s'.sent == s.sent && s'.events == s.events)
    || (s'.phase.Returned? && s'.events == s.events + [Cancelled]
        && s'.sent == if s'.remoteAborted then s.sent else s.sent + [Abort])
  }

  lemma StepStops(sha: Sha, u: Upload, s: State, s': State, a: Action)
    requires StoppedSince(s, s')
    ensures StoppedSince(s, Step(sha, u, s', a))
  {
    if Ended(s') {
      assert Step(sha, u, s', a) == s' || Step(sha, u, s', a) == s'.(signalled := true);
    } else {
      EndsWithCause(sha, u, s', a);
      if EndingOf(u, s', a).GoesOn? {
        LoopGoesOn(sha, u, s', a);
      }
    }
  }

  /** A cancelled loop that goes on neither sends nor reports, and stays in the loop. */
  lemma LoopGoesOn(sha: Sha, u: Upload, s: State, a: Action)
    requires InLoop(s) && (s.signalled || s.remoteAborted) && EndingOf(u, s, a).GoesOn?
    ensures var s' := Step(sha, u, s, a);
            InLoop(s') && (s'.signalled || s'.remoteAborted) && s'.sent == s.sent && s'.events == s.events
  {
  }

  /**
   * A cancellation is prompt, in every run: once a sender in its loop has been
   * cancelled, by its user or by the receiver, not one more chunk goes on the wire
   * and no more progress is reported; what can still come is the one event that
   * it is cancelled and, unless the receiver has cancelled too, the one abort.
   */
  lemma {:induction false} CancelIsPrompt(sha: Sha, u: Upload, acts: seq<Action>, ss: seq<State>, i: nat, j: nat)
    requires Run(sha, u, acts, ss) && i <= j <= |acts|
    requires InLoop(ss[i]) && (ss[i].signalled || ss[i].remoteAborted)
    ensures StoppedSince(ss[i], ss[j])
    decreases j
  {
    if i < j {
      CancelIsPrompt(sha, u, acts, ss, i, j - 1);
      var a := acts[j - 1];
      StepStops(sha, u, ss[i], ss[j - 1], a);
    }
  }

  /**
   * In every run a session that has ended stays as it ended, and it was ended by
   * one step, from a session that went on, with a cause for just this ending.
   */
  lemma {:induction false} EveryEndHasItsCause(sha: Sha, u: Upload, acts: seq<Action>, ss: seq<State>) returns (i: nat)
    requires Run(sha, u, acts, ss) && Ended(ss[|acts|])
    ensures i < |acts| && !Ended(ss[i])
    ensures var s, e := ss[|acts|], EndingOf(u, ss[i], acts[i]);
            && e.Ends? && s.phase == e.phase
            && s.events == ss[i].events + AsSeq(e.event) && s.sent == ss[i].sent + AsSeq(e.msg)
  {
    var n := |acts| - 1;
    RunPrefix(sha, u, acts, ss);
    if Ended(ss[n]) {
      i := EveryEndHasItsCause(sha, u, acts[..n], ss[..n + 1]);
    } else {
      i := n;
      EndsWithCause(sha, u, ss[n], acts[n]);
    }
  }
}
