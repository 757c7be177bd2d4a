/**
 * sendFile of transfer-engine/src/transferSession.ts as a state machine: one
 * step per await of an I/O promise, per incoming message and per signal. A
 * step that is not enabled leaves the state as it is.
 */
module Sender {
  import opened Basics
  import opened Chunking
  import opened HashChain
  import opened ChunkFrame
  import opened Protocol

  /** The file being sent, with its metadata. */
  datatype Source = Source(bytes: Bytes, meta: Meta)

  predicate Fits(u: Source) {
    WellFormed(u.meta) && |u.bytes| == u.meta.size
  }

  type Upload = u: Source | Fits(u) witness Source([], Meta(0, 1, 0))

  /** What sendFile makes of the file it is given: buildFileMeta with the default chunk size. */
  function UploadOf(bytes: Bytes): Upload {
    Source(bytes, BuildMeta(|bytes|, DEFAULT_CHUNK_SIZE))
  }

  datatype Phase =
    | Preparing
    | AwaitAccept
    | LoopHead
    | Reading
    | Draining
    | HashingFile
    | AwaitVerified
    | Returned
    | Threw

  datatype State = State(
    phase: Phase,
    i: nat,
    accepted: bool,
    resumeFrom: nat,
    signalled: bool,
    remoteAborted: bool,
    hashes: seq<string>,
    events: seq<TransferEvent>,
    sent: seq<Msg>)

  datatype Action =
    | SendOffer
    | Deliver(msg: Msg)
    | Signal
    | SignalSeen
    | Head
    | ReadDone
    | Drained
    | FileHashed
    | Fails

  const BEGIN: State := State(Preparing, 0, false, 0, false, false, [], [], [])

  predicate Ended(s: State) {
    s.phase.Returned? || s.phase.Threw?
  }

  predicate IsCancelled(s: State) {
    s.signalled || s.remoteAborted
  }

  /** bailIfCancelled, once cancelled: tell the peer unless it was the peer who cancelled. */
  function Bail(s: State): State {
    s.(phase := Returned, events := s.events + [Cancelled],
       sent := if s.remoteAborted then s.sent else s.sent + [Abort])
  }

  function SendOfferStep(u: Upload, s: State): State {
    if !s.phase.Preparing? then s else s.(phase := AwaitAccept, sent := s.sent + [Offer(u.meta)])
  }

  /** The flag listener runs before the one of waitForControl, which then rejects. */
  function OnAbort(s: State): State {
    if s.phase.Preparing? || Ended(s) then s
    else
      var s' := s.(remoteAborted := true);
      if s.phase.AwaitAccept? || s.phase.AwaitVerified? then Bail(s') else s'
  }

  /** The digests of all chunks fit in one array. */
  predicate Listable(u: Upload) {
    u.meta.totalChunks <= MAX_ARRAY_LENGTH
  }

  /** The array of the digests is made before the first chunk is read; a RangeError there is nobody's event. */
  function OnAccept(u: Upload, s: State, k: nat): State {
    if !s.phase.AwaitAccept? then s
    else s.(phase := if Listable(u) then LoopHead else Threw,
            accepted := true, resumeFrom := k)
  }

  function OnMessage(u: Upload, s: State, msg: Msg): State {
    match msg
    case Abort => OnAbort(s)
    case Accept(k) => OnAccept(u, s, k)
    case Reject =>
      if s.phase.AwaitAccept? then s.(phase := Returned, events := s.events + [Rejected])
      else if s.phase.AwaitVerified? then s.(phase := Threw)
      else s
    case Verified(ok) =>
      if !s.phase.AwaitVerified? then s
      else if ok then s.(phase := Returned, events := s.events + [Complete])
      else s.(phase := Threw, events := s.events + [Error])
    case _ => s
  }

  function HeadStep(u: Upload, s: State): State {
    if !s.phase.LoopHead? then s
    else if IsCancelled(s) then Bail(s)
    else s.(phase := if s.i < u.meta.totalChunks then Reading else HashingFile)
  }

  function ReadDoneStep(sha: Sha, u: Upload, s: State): State {
    if !s.phase.Reading? || s.i >= u.meta.totalChunks then s
    else
      var s' := s.(hashes := s.hashes + [HashChunk(sha, ReadChunk(u.bytes, s.i, u.meta))]);
      if s.i >= s.resumeFrom then s'.(phase := Draining) else s'.(phase := LoopHead, i := s.i + 1)
  }

  function FrameOf(u: Upload, i: nat): Msg
    requires i < u.meta.totalChunks
  {
    Chunk(Encode(i, ReadChunk(u.bytes, i, u.meta)))
  }

  function DrainedStep(u: Upload, s: State): State {
    if !s.phase.Draining? || s.i >= u.meta.totalChunks then s
    else if IsCancelled(s) then Bail(s)
    else s.(phase := LoopHead, i := s.i + 1, sent := s.sent + [FrameOf(u, s.i)],
            events := s.events + [Progress(BytesIn(s.i + 1, u.meta), s.i + 1)])
  }

  function FileHashedStep(sha: Sha, s: State): State {
    if !s.phase.HashingFile? then s
    else s.(phase := AwaitVerified, sent := s.sent + [TransferComplete(HashOfHashes(sha, s.hashes))])
  }

  /** A timeout, a failing read, digest or send. */
  function FailsStep(s: State): State {
    if Ended(s) then s else s.(phase := Threw)
  }

  function Step(sha: Sha, u: Upload, s: State, a: Action): State {
    match a
    case SendOffer => SendOfferStep(u, s)
    case Deliver(msg) => OnMessage(u, s, msg)
    case Signal => s.(signalled := true)
    case SignalSeen => if s.phase.AwaitAccept? && s.signalled then Bail(s) else s
    case Head => HeadStep(u, s)
    case ReadDone => ReadDoneStep(sha, u, s)
    case Drained => DrainedStep(u, s)
    case FileHashed => FileHashedStep(sha, s)
    case Fails => FailsStep(s)
  }

  /** A run by its states: ss[i] is the sender after i of the actions. */
  predicate Run(sha: Sha, u: Upload, acts: seq<Action>, ss: seq<State>) {
    && |ss| == |acts| + 1 && ss[0] == BEGIN
    && forall i {:trigger acts[i]} :: 0 <= i < |acts| ==> ss[i + 1] == Step(sha, u, ss[i], acts[i])
  }

  /** Every list of actions is the actions of a run. */
  lemma {:induction false} RunExists(sha: Sha, u: Upload, acts: seq<Action>) returns (ss: seq<State>)
    ensures Run(sha, u, acts, ss)
  {
    if acts == [] {
      ss := [BEGIN];
    } else {
      var n := |acts| - 1;
      var init := RunExists(sha, u, acts[..n]);
      ss := init + [Step(sha, u, init[n], acts[n])];
      assert forall i :: 0 <= i < n ==> acts[..n][i] == acts[i];
    }
  }

  lemma RunPrefix(sha: Sha, u: Upload, acts: seq<Action>, ss: seq<State>)
    requires acts != [] && Run(sha, u, acts, ss)
    ensures Run(sha, u, acts[..|acts| - 1], ss[..|acts|])
    ensures ss[|acts|] == Step(sha, u, ss[|acts| - 1], acts[|acts| - 1])
  {
    var n := |acts| - 1;
    forall i | 0 <= i < n ensures ss[..n + 1][i + 1] == Step(sha, u, ss[..n + 1][i], acts[..n][i]) {
      assert acts[..n][i] == acts[i];
    }
    assert acts[n] == acts[|acts| - 1];
  }
}

/** What sendFile keeps whatever the peer sends and whenever it is cancelled. */
module SenderSafety {
  import opened Basics
  import opened Chunking
  import opened HashChain
  import opened Protocol
  import opened Sender

  /** The frames of chunks a, ..., b - 1, in order. */
  function Frames(u: Upload, a: nat, b: nat): (frames: seq<Msg>)
    requires b <= u.meta.totalChunks
    ensures |frames| == Max(0, b - a)
    ensures forall j :: 0 <= j < |frames| ==> frames[j] == FrameOf(u, a + j)
  {
    seq(Max(0, b - a), j requires 0 <= j < b - a => FrameOf(u, a + j))
  }

  lemma FramesStep(u: Upload, a: nat, b: nat)
    requires b < u.meta.totalChunks
    ensures Frames(u, a, b + 1) == if a <= b then Frames(u, a, b) + [FrameOf(u, b)] else Frames(u, a, b)
  {
  }

  function FileHashOf(sha: Sha, u: Upload): string {
    HashOfHashes(sha, HashAll(sha, Chunks(u.bytes, u.meta)))
  }

  /** The offer and the chunks from the accepted resume point on, once each and in order. */
  function Body(u: Upload, s: State): seq<Msg>
    requires s.i <= u.meta.totalChunks
  {
    [Offer(u.meta)] + Frames(u, s.resumeFrom, s.i)
  }

  predicate ReadWhole(u: Upload, s: State) {
    s.accepted && Listable(u) && s.i == u.meta.totalChunks
  }

  /** The wire once the transfer has ended: cut off, or closed by exactly one of an abort and a completion. */
  predicate EndedWire(sha: Sha, u: Upload, s: State)
    requires s.i <= u.meta.totalChunks
  {
    || s.sent == []
    || s.sent == Body(u, s)
    || (s.sent == Body(u, s) + [Abort] && s.phase.Returned? && !s.remoteAborted
        && |s.events| > 0 && s.events[|s.events| - 1] == Cancelled)
    || (s.sent == Body(u, s) + [TransferComplete(FileHashOf(sha, u))] && ReadWhole(u, s))
  }

  predicate WireInv(sha: Sha, u: Upload, s: State) {
    && s.i <= u.meta.totalChunks
    && (!s.accepted ==> s.i == 0 && s.resumeFrom == 0)
    && (s.i > 0 ==> Listable(u))
    && match s.phase
       case Preparing => s.sent == [] && !s.accepted
       case AwaitAccept => s.sent == Body(u, s) && !s.accepted
       case HashingFile => s.sent == Body(u, s) && ReadWhole(u, s)
       case AwaitVerified => s.sent == Body(u, s) + [TransferComplete(FileHashOf(sha, u))] && ReadWhole(u, s)
       case Returned => EndedWire(sha, u, s)
       case Threw => EndedWire(sha, u, s)
       case _ => s.sent == Body(u, s) && s.accepted && Listable(u)
  }

  /** chunkHashes is filled from the front, resent and skipped chunks alike. */
  predicate HashesInv(sha: Sha, u: Upload, s: State) {
    var all := HashAll(sha, Chunks(u.bytes, u.meta));
    match s.phase
    case Preparing => s.hashes == [] && s.i == 0
    case AwaitAccept => s.hashes == [] && s.i == 0
    case LoopHead => s.i <= |all| && s.hashes == all[..s.i]
    case Reading => s.i < |all| && s.hashes == all[..s.i]
    case Draining => s.resumeFrom <= s.i < |all| && s.hashes == all[..s.i + 1]
    case HashingFile => s.hashes == all
    case _ => true
  }

  /** Progress in step with the wire, then exactly one terminal event on a normal return. */
  predicate EventsInv(u: Upload, s: State) {
    var reports := ProgressReports(u.meta, s.resumeFrom, s.i);
    match s.phase
    case Returned => |s.events| == |reports| + 1 && s.events == reports + [s.events[|reports|]]
                     && !s.events[|reports|].Progress?
                     && (s.events[|reports|].Complete? ==> |s.sent| > 0 && s.sent[|s.sent| - 1].TransferComplete?)
    case Threw => s.events == reports || s.events == reports + [Error]
    case _ => s.events == reports
  }

  predicate SenderInv(sha: Sha, u: Upload, s: State) {
    WireInv(sha, u, s) && HashesInv(sha, u, s) && EventsInv(u, s)
  }

  lemma BailKeeps(sha: Sha, u: Upload, s: State)
    requires WireInv(sha, u, s) && EventsInv(u, s) && !Ended(s) && !s.phase.Preparing?
    requires s.remoteAborted || !s.phase.AwaitVerified?
    ensures SenderInv(sha, u, Bail(s))
  {
  }

  lemma AcceptKeeps(sha: Sha, u: Upload, s: State, k: nat)
    requires SenderInv(sha, u, s)
    ensures SenderInv(sha, u, OnMessage(u, s, Accept(k)))
  {
  }

  lemma RejectKeeps(sha: Sha, u: Upload, s: State)
    requires SenderInv(sha, u, s)
    ensures SenderInv(sha, u, OnMessage(u, s, Reject))
  {
  }

  lemma VerdictKeeps(sha: Sha, u: Upload, s: State, ok: bool)
    requires SenderInv(sha, u, s)
    ensures SenderInv(sha, u, OnMessage(u, s, Verified(ok)))
  {
  }

  lemma AbortKeeps(sha: Sha, u: Upload, s: State)
    requires SenderInv(sha, u, s)
    ensures SenderInv(sha, u, OnAbort(s))
  {
    if s.phase.AwaitAccept? || s.phase.AwaitVerified? {
      BailKeeps(sha, u, s.(remoteAborted := true));
    }
  }

  lemma MessageKeeps(sha: Sha, u: Upload, s: State, msg: Msg)
    requires SenderInv(sha, u, s)
    ensures SenderInv(sha, u, OnMessage(u, s, msg))
  {
    match msg
    case Abort => AbortKeeps(sha, u, s);
    case Accept(k) => AcceptKeeps(sha, u, s, k);
    case Reject => RejectKeeps(sha, u, s);
    case Verified(ok) => VerdictKeeps(sha, u, s, ok);
    case _ =>
  }

  lemma HeadKeeps(sha: Sha, u: Upload, s: State)
    requires SenderInv(sha, u, s)
    ensures SenderInv(sha, u, HeadStep(u, s))
  {
    var all := HashAll(sha, Chunks(u.bytes, u.meta));
    assert all[..|all|] == all;
    if s.phase.LoopHead? && IsCancelled(s) {
      BailKeeps(sha, u, s);
    }
  }

  lemma ReadDoneKeeps(sha: Sha, u: Upload, s: State)
    requires SenderInv(sha, u, s)
    ensures SenderInv(sha, u, ReadDoneStep(sha, u, s))
  {
    if s.phase.Reading? {
      var all := HashAll(sha, Chunks(u.bytes, u.meta));
      assert all[..s.i] + [all[s.i]] == all[..s.i + 1];
      FramesStep(u, s.resumeFrom, s.i);
      ProgressReportsStep(u.meta, s.resumeFrom, s.i);
    }
  }

  lemma DrainedKeepsWire(sha: Sha, u: Upload, s: State)
    requires WireInv(sha, u, s) && s.phase.Draining? && !IsCancelled(s) && s.resumeFrom <= s.i < u.meta.totalChunks
    ensures WireInv(sha, u, DrainedStep(u, s))
  {
    FramesStep(u, s.resumeFrom, s.i);
    assert Body(u, DrainedStep(u, s)) == Body(u, s) + [FrameOf(u, s.i)];
  }

  lemma DrainedKeepsRecord(sha: Sha, u: Upload, s: State)
    requires HashesInv(sha, u, s) && EventsInv(u, s) && s.phase.Draining? && !IsCancelled(s)
    requires s.i < u.meta.totalChunks
    ensures HashesInv(sha, u, DrainedStep(u, s)) && EventsInv(u, DrainedStep(u, s))
  {
    ProgressReportsStep(u.meta, s.resumeFrom, s.i);
  }

  lemma DrainedKeeps(sha: Sha, u: Upload, s: State)
    requires SenderInv(sha, u, s)
    ensures SenderInv(sha, u, DrainedStep(u, s))
  {
    if s.phase.Draining? {
      if IsCancelled(s) {
        BailKeeps(sha, u, s);
      } else {
        DrainedKeepsWire(sha, u, s);
        DrainedKeepsRecord(sha, u, s);
      }
    }
  }

  lemma FileHashedKeeps(sha: Sha, u: Upload, s: State)
    requires SenderInv(sha, u, s)
    ensures SenderInv(sha, u, FileHashedStep(sha, s))
  {
  }

  lemma OfferKeeps(sha: Sha, u: Upload, s: State)
    requires SenderInv(sha, u, s)
    ensures SenderInv(sha, u, SendOfferStep(u, s))
  {
  }

  lemma SignalSeenKeeps(sha: Sha, u: Upload, s: State)
    requires SenderInv(sha, u, s)
    ensures SenderInv(sha, u, Step(sha, u, s, SignalSeen))
  {
    if s.phase.AwaitAccept? && s.signalled {
      BailKeeps(sha, u, s);
    }
  }

  lemma FlagsKeep(sha: Sha, u: Upload, s: State, a: Action)
    requires SenderInv(sha, u, s) && (a.Signal? || a.Fails?)
    ensures SenderInv(sha, u, Step(sha, u, s, a))
  {
  }

  lemma StepKeeps(sha: Sha, u: Upload, s: State, a: Action)
    requires SenderInv(sha, u, s)
    ensures SenderInv(sha, u, Step(sha, u, s, a))
  {
    match a
    case Deliver(msg) => MessageKeeps(sha, u, s, msg);
    case SignalSeen => SignalSeenKeeps(sha, u, s);
    case Head => HeadKeeps(sha, u, s);
    case ReadDone => ReadDoneKeeps(sha, u, s);
    case Drained => DrainedKeeps(sha, u, s);
    case FileHashed => FileHashedKeeps(sha, u, s);
    case SendOffer => OfferKeeps(sha, u, s);
    case _ => FlagsKeep(sha, u, s, a);
  }

  lemma {:induction false} RunKeeps(sha: Sha, u: Upload, acts: seq<Action>, ss: seq<State>)
    requires Run(sha, u, acts, ss)
    ensures SenderInv(sha, u, ss[|acts|])
  {
    if |acts| > 0 {
      var n := |acts| - 1;
      RunPrefix(sha, u, acts, ss);
      RunKeeps(sha, u, acts[..n], ss[..n + 1]);
      StepKeeps(sha, u, ss[n], acts[n]);
    }
  }

  predicate IsControl(msg: Msg) {
    msg.Abort? || msg.TransferComplete?
  }

  /** What is on the wire is the body, possibly followed by one message, which then is the only control message. */
  lemma WireShape(sha: Sha, u: Upload, s: State)
    requires WireInv(sha, u, s)
    ensures forall j :: 0 <= j < |s.sent| && IsControl(s.sent[j]) ==>
              j == |s.sent| - 1 && (s.sent[j].TransferComplete? ==> s.sent[j].fileHash == FileHashOf(sha, u))
  {
    if s.sent != [] {
      assert forall j :: 0 <= j < |Body(u, s)| ==> !IsControl(Body(u, s)[j]);
    }
  }

  /**
   * Outcome discipline: a normal return is announced by exactly one terminal
   * event behind the progress reports and nothing follows it; a failure
   * announces at most the verification error.
   */
  lemma OutcomeDiscipline(sha: Sha, u: Upload, acts: seq<Action>, ss: seq<State>)
    requires Run(sha, u, acts, ss)
    ensures var s := ss[|acts|];
            && AtMostOneTerminal(s.events)
            && (s.phase.Returned? ==> EndsTerminal(s.events))
            && (s.phase.Threw? ==>
                  OnlyProgress(s.events) || (EndsTerminal(s.events) && s.events[|s.events| - 1] == Error))
            && (!Ended(s) ==> OnlyProgress(s.events))
  {
    RunKeeps(sha, u, acts, ss);
  }

  lemma ClosingExcludes(sha: Sha, u: Upload, s: State)
    requires SenderInv(sha, u, s)
    ensures forall j :: 0 <= j < |s.sent| && IsControl(s.sent[j]) ==> j == |s.sent| - 1
    ensures Abort in s.sent ==> EndsTerminal(s.events) && s.events[|s.events| - 1] == Cancelled && !s.remoteAborted
    ensures forall h :: TransferComplete(h) in s.sent ==> Abort !in s.sent && h == FileHashOf(sha, u)
  {
    WireShape(sha, u, s);
    if Abort in s.sent {
      var j :| 0 <= j < |s.sent| && s.sent[j] == Abort;
      assert IsControl(s.sent[j]);
      AbortMeansCancelled(sha, u, s);
    }
    forall h | TransferComplete(h) in s.sent ensures Abort !in s.sent && h == FileHashOf(sha, u) {
      var j :| 0 <= j < |s.sent| && s.sent[j] == TransferComplete(h);
      assert IsControl(s.sent[j]);
    }
  }

  /**
   * Abort and completion exclude each other: either is sent at most once and as
   * the last message. An abort is sent only by a sender that ends cancelled and
   * was not aborted by its peer; a completion carries the file hash.
   */
  lemma AbortExcludesCompletion(sha: Sha, u: Upload, acts: seq<Action>, ss: seq<State>)
    requires Run(sha, u, acts, ss)
    ensures var s := ss[|acts|];
            && (forall j :: 0 <= j < |s.sent| && IsControl(s.sent[j]) ==> j == |s.sent| - 1)
            && (Abort in s.sent ==> EndsTerminal(s.events) && s.events[|s.events| - 1] == Cancelled && !s.remoteAborted)
            && (forall h :: TransferComplete(h) in s.sent ==> Abort !in s.sent && h == FileHashOf(sha, u))
  {
    RunKeeps(sha, u, acts, ss);
    ClosingExcludes(sha, u, ss[|acts|]);
  }

  lemma AbortMeansCancelled(sha: Sha, u: Upload, s: State)
    requires SenderInv(sha, u, s) && |s.sent| > 0 && s.sent[|s.sent| - 1] == Abort
    ensures EndsTerminal(s.events) && s.events[|s.events| - 1] == Cancelled && !s.remoteAborted
  {
    var body := Body(u, s);
    assert !IsControl(body[|body| - 1]);
  }
}
