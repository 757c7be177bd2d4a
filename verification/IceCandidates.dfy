/** The candidate buffer of connectToPeer in transfer-engine/src/connection.ts. */
module IceCandidates {
  import opened Basics

  type Candidate = string

  /** One call of handleSignal that is suspended: in setRemoteDescription, in a drain, or in a direct add. */
  datatype Handler = SettingRemote | Draining | Adding

  /** `received` are the candidates heard while subscribed, `passed` the addIceCandidate calls, both in order. */
  datatype State = State(
    pending: seq<Candidate>,
    remoteDescriptionSet: bool,
    handlers: seq<Handler>,
    subscribed: bool,
    received: seq<Candidate>,
    passed: seq<Candidate>,
    failed: bool)

  datatype Action =
    | Description
    | Heard(candidate: Candidate)
    | RemoteSet(h: nat)
    | RemoteRejected(h: nat)
    | Added(h: nat)
    | AddRejected(h: nat)
    | ChannelOpen

  const BEGIN: State := State([], false, [], true, [], [], false)

  /** The suspended handlers once handler h has returned. */
  function Without(handlers: seq<Handler>, h: nat): seq<Handler>
    requires h < |handlers|
  {
    handlers[..h] + handlers[h + 1..]
  }

  function HeardStep(s: State, c: Candidate): State {
    if !s.subscribed then s
    else if s.remoteDescriptionSet
    then s.(received := s.received + [c], passed := s.passed + [c], handlers := s.handlers + [Adding])
    else s.(received := s.received + [c], pending := s.pending + [c])
  }

  /** The head of the drain loop: shift one candidate and add it, or leave the loop. */
  function DrainStep(s: State, h: nat): State
    requires h < |s.handlers|
  {
    if s.pending == [] then s.(handlers := Without(s.handlers, h))
    else s.(pending := s.pending[1..], passed := s.passed + [s.pending[0]], handlers := s.handlers[h := Draining])
  }

  function RemoteSetStep(s: State, h: nat): State {
    if h >= |s.handlers| || !s.handlers[h].SettingRemote? then s else DrainStep(s.(remoteDescriptionSet := true), h)
  }

  function AddedStep(s: State, h: nat): State {
    if h >= |s.handlers| then s
    else match s.handlers[h]
      case SettingRemote => s
      case Draining => DrainStep(s, h)
      case Adding => s.(handlers := Without(s.handlers, h))
  }

  /** A rejection ends its handler; a drain that is cut short leaves the rest buffered. */
  function RejectedStep(s: State, h: nat, remote: bool): State {
    if h >= |s.handlers| || s.handlers[h].SettingRemote? != remote then s
    else s.(handlers := Without(s.handlers, h), failed := s.failed || s.handlers[h].Draining?)
  }

  function Step(s: State, a: Action): State {
    match a
    case Description => if s.subscribed then s.(handlers := s.handlers + [SettingRemote]) else s
    case Heard(c) => HeardStep(s, c)
    case RemoteSet(h) => RemoteSetStep(s, h)
    case RemoteRejected(h) => RejectedStep(s, h, true)
    case Added(h) => AddedStep(s, h)
    case AddRejected(h) => RejectedStep(s, h, false)
    case ChannelOpen => s.(subscribed := false)
  }

  function Run(s: State, acts: seq<Action>): State {
    if |acts| == 0 then s else Step(Run(s, acts[..|acts| - 1]), acts[|acts| - 1])
  }

  predicate DrainRuns(handlers: seq<Handler>) {
    exists h :: 0 <= h < |handlers| && handlers[h].Draining?
  }

  predicate BufferInv(s: State) {
    && multiset(s.received) == multiset(s.passed) + multiset(s.pending)
    && (s.passed != [] || DrainRuns(s.handlers) ==> s.remoteDescriptionSet)
    && (s.remoteDescriptionSet ==> s.pending == [] || DrainRuns(s.handlers) || s.failed)
  }

  lemma ShiftKeepsContents(pending: seq<Candidate>, passed: seq<Candidate>)
    requires pending != []
    ensures multiset(passed + [pending[0]]) + multiset(pending[1..]) == multiset(passed) + multiset(pending)
  {
    assert pending == [pending[0]] + pending[1..];
  }

  lemma DrainKeepsBuffer(s: State, h: nat)
    requires h < |s.handlers| && s.remoteDescriptionSet
    requires multiset(s.received) == multiset(s.passed) + multiset(s.pending)
    ensures BufferInv(DrainStep(s, h))
  {
    if s.pending != [] {
      ShiftKeepsContents(s.pending, s.passed);
      assert DrainStep(s, h).handlers[h].Draining?;
    }
  }

  lemma WithoutKeepsDrains(handlers: seq<Handler>, h: nat)
    requires h < |handlers| && !handlers[h].Draining?
    ensures DrainRuns(Without(handlers, h)) <==> DrainRuns(handlers)
  {
    var rest := Without(handlers, h);
    if j :| 0 <= j < |handlers| && handlers[j].Draining? {
      assert rest[if j < h then j else j - 1].Draining?;
    }
  }

  lemma RejectedKeepsBuffer(s: State, h: nat, remote: bool)
    requires BufferInv(s)
    ensures BufferInv(RejectedStep(s, h, remote))
  {
    if h < |s.handlers| && s.handlers[h].SettingRemote? == remote {
      if s.handlers[h].Draining? {
        assert DrainRuns(s.handlers);
      } else {
        WithoutKeepsDrains(s.handlers, h);
      }
    }
  }

  lemma HeardKeepsBuffer(s: State, c: Candidate)
    requires BufferInv(s)
    ensures BufferInv(HeardStep(s, c))
  {
    AppendKeepsDrains(s.handlers, Adding);
  }

  lemma AppendKeepsDrains(handlers: seq<Handler>, k: Handler)
    requires !k.Draining?
    ensures DrainRuns(handlers + [k]) <==> DrainRuns(handlers)
  {
    if h :| 0 <= h < |handlers| && handlers[h].Draining? {
      assert (handlers + [k])[h].Draining?;
    }
  }

  lemma AddedKeepsBuffer(s: State, h: nat)
    requires BufferInv(s)
    ensures BufferInv(AddedStep(s, h))
  {
    if h < |s.handlers| && s.handlers[h].Draining? {
      assert DrainRuns(s.handlers);
      DrainKeepsBuffer(s, h);
    } else if h < |s.handlers| && s.handlers[h].Adding? {
      WithoutKeepsDrains(s.handlers, h);
    }
  }

  lemma RemoteSetKeepsBuffer(s: State, h: nat)
    requires BufferInv(s)
    ensures BufferInv(RemoteSetStep(s, h))
  {
    if h < |s.handlers| && s.handlers[h].SettingRemote? {
      DrainKeepsBuffer(s.(remoteDescriptionSet := true), h);
    }
  }

  lemma StepKeepsBuffer(s: State, a: Action)
    requires BufferInv(s)
    ensures BufferInv(Step(s, a))
  {
    match a
    case Description => AppendKeepsDrains(s.handlers, SettingRemote);
    case Heard(c) => HeardKeepsBuffer(s, c);
    case RemoteSet(h) => RemoteSetKeepsBuffer(s, h);
    case RemoteRejected(h) => RejectedKeepsBuffer(s, h, true);
    case AddRejected(h) => RejectedKeepsBuffer(s, h, false);
    case Added(h) => AddedKeepsBuffer(s, h);
    case ChannelOpen =>
  }

  lemma {:induction false} RunKeepsBuffer(acts: seq<Action>)
    ensures BufferInv(Run(BEGIN, acts))
  {
    if |acts| > 0 {
      RunKeepsBuffer(acts[..|acts| - 1]);
      StepKeepsBuffer(Run(BEGIN, acts[..|acts| - 1]), acts[|acts| - 1]);
    }
  }

  /**
   * Candidate conservation, for every interleaving of signals with the awaits:
   * each candidate heard is either still buffered or has been passed to
   * addIceCandidate, as often as it was heard and no more; none was passed before
   * a remote description was set; and once one is set and no drain is running,
   * none is left in the buffer, unless a drain was cut short by a rejection.
   */
  lemma CandidatesAreConserved(acts: seq<Action>)
    ensures var s := Run(BEGIN, acts);
            && multiset(s.received) == multiset(s.passed) + multiset(s.pending)
            && (!s.remoteDescriptionSet ==> s.passed == [])
            && (s.remoteDescriptionSet && !DrainRuns(s.handlers) && !s.failed ==>
                  s.pending == [] && multiset(s.passed) == multiset(s.received))
  {
    RunKeepsBuffer(acts);
  }

  // ---- when the order is kept ----

  /** A candidate heard after the description is set, while others are still in the buffer, goes in front of them. */
  predicate Overtakes(s: State, a: Action) {
    a.Heard? && s.subscribed && s.remoteDescriptionSet && s.pending != []
  }

  predicate NoOvertake(acts: seq<Action>) {
    forall i :: 0 <= i < |acts| ==> !Overtakes(Run(BEGIN, acts[..i]), acts[i])
  }

  /** The order in which the candidates are or will be passed on. */
  function Order(s: State): seq<Candidate> {
    s.passed + s.pending
  }

  predicate Distinct(cs: seq<Candidate>) {
    forall i, j :: 0 <= i < j < |cs| ==> cs[i] != cs[j]
  }

  lemma DrainKeepsOrder(s: State, h: nat)
    requires h < |s.handlers|
    ensures Order(DrainStep(s, h)) == Order(s) && DrainStep(s, h).received == s.received
  {
    if s.pending != [] {
      assert s.pending == [s.pending[0]] + s.pending[1..];
    }
  }

  /** Only a candidate that is heard changes the order, and it changes it by being put in. */
  lemma StepOrder(s: State, a: Action)
    ensures var s' := Step(s, a);
            if a.Heard? && s.subscribed then
              && s'.received == s.received + [a.candidate]
              && Order(s') == (if Overtakes(s, a) then s.passed + [a.candidate] + s.pending
                               else Order(s) + [a.candidate])
            else s'.received == s.received && Order(s') == Order(s)
  {
    match a
    case RemoteSet(h) => if h < |s.handlers| { DrainKeepsOrder(s.(remoteDescriptionSet := true), h); }
    case Added(h) => if h < |s.handlers| { DrainKeepsOrder(s, h); }
    case _ =>
  }

  /** Some candidate stands behind one that was heard later. */
  ghost predicate Inverted(s: State) {
    exists i: nat, j: nat, k: nat, l: nat :: InvertedAt(s, i, j, k, l)
  }

  predicate InvertedAt(s: State, i: nat, j: nat, k: nat, l: nat) {
    && i < j < |s.received| && l < k < |Order(s)|
    && Order(s)[k] == s.received[i] && Order(s)[l] == s.received[j]
  }

  lemma InvertedNotInOrder(s: State)
    requires Inverted(s) && Distinct(s.received)
    ensures Order(s) != s.received
  {
    var i: nat, j: nat, k: nat, l: nat :| InvertedAt(s, i, j, k, l);
    var at, heard := if l != j then l else k, if l != j then j else i;
    assert Order(s)[at] == s.received[heard] && at != heard;
    if at < |s.received| {
      assert s.received[at] != s.received[heard];
    }
  }

  lemma OvertakingInverts(s: State, a: Action)
    requires BufferInv(s) && Overtakes(s, a)
    ensures Inverted(Step(s, a))
  {
    var s' := Step(s, a);
    StepOrder(s, a);
    var x := s.pending[0];
    assert x in multiset(s.pending) && x in multiset(s.received);
    var i :| 0 <= i < |s.received| && s.received[i] == x;
    assert InvertedAt(s', i, |s.received|, |s.passed| + 1, |s.passed|);
  }

  lemma StepKeepsInverted(s: State, a: Action)
    requires Inverted(s)
    ensures Inverted(Step(s, a))
  {
    var s' := Step(s, a);
    StepOrder(s, a);
    var i: nat, j: nat, k: nat, l: nat :| InvertedAt(s, i, j, k, l);
    if Overtakes(s, a) {
      var n := |s.passed|;
      assert forall p :: 0 <= p < |Order(s)| ==> Order(s')[if p < n then p else p + 1] == Order(s)[p];
      assert InvertedAt(s', i, j, if k < n then k else k + 1, if l < n then l else l + 1);
    } else {
      assert InvertedAt(s', i, j, k, l);
    }
  }

  /** Without an overtaking the order is the one heard; with one, some pair stays inverted for good. */
  lemma {:induction false} OrderOrInverted(acts: seq<Action>)
    ensures NoOvertake(acts) ==> Order(Run(BEGIN, acts)) == Run(BEGIN, acts).received
    ensures !NoOvertake(acts) ==> Inverted(Run(BEGIN, acts))
  {
    if |acts| > 0 {
      var n := |acts| - 1;
      var init, s := acts[..n], Run(BEGIN, acts[..n]);
      OrderOrInverted(init);
      RunKeepsBuffer(init);
      StepOrder(s, acts[n]);
      NoOvertakePrefix(acts);
      if Overtakes(s, acts[n]) {
        OvertakingInverts(s, acts[n]);
      } else if !NoOvertake(init) {
        StepKeepsInverted(s, acts[n]);
      }
    }
  }

  lemma NoOvertakePrefix(acts: seq<Action>)
    requires acts != []
    ensures var n := |acts| - 1;
            NoOvertake(acts) <==> NoOvertake(acts[..n]) && !Overtakes(Run(BEGIN, acts[..n]), acts[n])
  {
    var n := |acts| - 1;
    assert forall i :: 0 <= i < n ==> acts[..n][..i] == acts[..i] && acts[..n][i] == acts[i];
  }

  /**
   * The exact condition, for every interleaving in which no candidate is heard
   * twice: what has been passed on, with what is still buffered behind it, is in
   * the order heard iff no candidate was heard after the description had been set
   * and before the buffer was empty.
   */
  lemma OrderKeptIffNoOvertake(acts: seq<Action>)
    requires Distinct(Run(BEGIN, acts).received)
    ensures var s := Run(BEGIN, acts); s.passed + s.pending == s.received <==> NoOvertake(acts)
  {
    OrderOrInverted(acts);
    if !NoOvertake(acts) {
      InvertedNotInOrder(Run(BEGIN, acts));
    }
  }

  // ---- the order of what has been passed on, whatever is still buffered ----

  /** The i-th action is an overtaking, and some candidate it overtook has been passed on since. */
  predicate Overtaken(acts: seq<Action>, i: nat)
    requires i < |acts|
  {
    && Overtakes(Run(BEGIN, acts[..i]), acts[i])
    && |Run(BEGIN, acts).pending| < |Run(BEGIN, acts[..i]).pending|
  }

  predicate NoneOvertaken(acts: seq<Action>) {
    forall i :: 0 <= i < |acts| ==> !Overtaken(acts, i)
  }

  predicate InOrder(passed: seq<Candidate>, received: seq<Candidate>) {
    forall i, j, k, l :: (0 <= i < j < |received| && 0 <= k < |passed| && 0 <= l < |passed| &&
                          passed[k] == received[i] && passed[l] == received[j]) ==> k < l
  }

  /** Everything buffered was heard between the first n candidates passed on and the rest of them. */
  predicate HeardBetween(s: State, n: nat) {
    n <= |s.passed| && s.received == s.passed[..n] + s.pending + s.passed[n..]
  }

  predicate PassedInverted(s: State, i: nat, j: nat, k: nat, l: nat) {
    i < j < |s.received| && l < k < |s.passed| && s.passed[k] == s.received[i] && s.passed[l] == s.received[j]
  }

  ghost predicate SomeInverted(s: State) {
    exists i: nat, j: nat, k: nat, l: nat :: PassedInverted(s, i, j, k, l)
  }

  /** One step passes on the oldest of the buffer, passes on what it hears, buffers it, or does neither. */
  lemma StepPasses(s: State, a: Action)
    ensures var s' := Step(s, a);
            || (s'.received == s.received && s'.passed == s.passed && s'.pending == s.pending)
            || (s.pending != [] && s'.received == s.received && s'.pending == s.pending[1..]
                && s'.passed == s.passed + [s.pending[0]])
            || (a.Heard? && s'.received == s.received + [a.candidate]
                && if s.remoteDescriptionSet then s'.passed == s.passed + [a.candidate] && s'.pending == s.pending
                   else s'.passed == s.passed && s'.pending == s.pending + [a.candidate])
    ensures s.remoteDescriptionSet ==> Step(s, a).remoteDescriptionSet
  {
  }

  /** Once the description is set the buffer only shrinks. */
  lemma {:induction false} BufferShrinks(acts: seq<Action>, i: nat)
    requires i <= |acts| && Run(BEGIN, acts[..i]).remoteDescriptionSet
    ensures Run(BEGIN, acts).remoteDescriptionSet
    ensures |Run(BEGIN, acts).pending| <= |Run(BEGIN, acts[..i]).pending|
  {
    if i < |acts| {
      var init := acts[..|acts| - 1];
      assert init[..i] == acts[..i];
      BufferShrinks(init, i);
      StepPasses(Run(BEGIN, init), acts[|acts| - 1]);
    } else {
      assert acts[..i] == acts;
    }
  }

  /** From an overtaking on the buffer only shrinks, also with the last action. */
  lemma ShrinksSince(acts: seq<Action>, i: nat)
    requires i + 1 < |acts| && Overtakes(Run(BEGIN, acts[..i]), acts[i])
    ensures var init := acts[..|acts| - 1];
            && init[..i] == acts[..i] && init[i] == acts[i]
            && |Run(BEGIN, acts).pending| <= |Run(BEGIN, init).pending| <= |Run(BEGIN, acts[..i]).pending|
  {
    var init := acts[..|acts| - 1];
    assert init[..i] == acts[..i];
    BufferShrinks(init, i);
    StepPasses(Run(BEGIN, init), acts[|acts| - 1]);
  }

  /** Overtaken stays overtaken. */
  lemma OvertakenStays(acts: seq<Action>, i: nat)
    requires i + 1 < |acts| && Overtaken(acts[..|acts| - 1], i)
    ensures Overtaken(acts, i)
  {
    assert acts[..|acts| - 1][..i] == acts[..i];
    ShrinksSince(acts, i);
  }

  lemma NoneOvertakenPrefix(acts: seq<Action>)
    requires acts != [] && NoneOvertaken(acts)
    ensures NoneOvertaken(acts[..|acts| - 1])
  {
    var init := acts[..|acts| - 1];
    forall i | 0 <= i < |init| ensures !Overtaken(init, i) {
      if Overtaken(init, i) {
        OvertakenStays(acts, i);
      }
    }
  }

  /** The buffer is shifted and nobody has been overtaken: then there was no overtaking at all. */
  lemma ShiftMeansNoOvertake(acts: seq<Action>)
    requires acts != [] && NoneOvertaken(acts)
    requires |Run(BEGIN, acts).pending| < |Run(BEGIN, acts[..|acts| - 1]).pending|
    ensures NoOvertake(acts[..|acts| - 1])
  {
    var init := acts[..|acts| - 1];
    forall i | 0 <= i < |init| ensures !Overtakes(Run(BEGIN, init[..i]), init[i]) {
      assert init[..i] == acts[..i] && !Overtaken(acts, i);
      if Overtakes(Run(BEGIN, acts[..i]), acts[i]) {
        ShrinksSince(acts, i);
      }
    }
  }

  lemma ShiftKeepsBetween(s: State, s': State)
    requires s.pending != [] && Order(s) == s.received
    requires s'.received == s.received && s'.pending == s.pending[1..] && s'.passed == s.passed + [s.pending[0]]
    ensures HeardBetween(s', |s'.passed|)
  {
    assert s.pending == [s.pending[0]] + s.pending[1..];
    assert s'.passed[..|s'.passed|] == s'.passed;
  }

  lemma PassKeepsBetween(s: State, s': State, n: nat, c: Candidate)
    requires HeardBetween(s, n)
    requires s'.received == s.received + [c] && s'.pending == s.pending && s'.passed == s.passed + [c]
    ensures HeardBetween(s', n)
  {
    assert s'.passed[..n] == s.passed[..n] && s'.passed[n..] == s.passed[n..] + [c];
  }

  lemma BufferKeepsBetween(s: State, s': State, n: nat, c: Candidate)
    requires HeardBetween(s, n) && s.passed == []
    requires s'.received == s.received + [c] && s'.pending == s.pending + [c] && s'.passed == s.passed
    ensures HeardBetween(s', n)
  {
  }

  lemma StepKeepsBetween(s: State, a: Action, n: nat)
    requires BufferInv(s) && HeardBetween(s, n) && |Step(s, a).pending| >= |s.pending|
    ensures HeardBetween(Step(s, a), n)
    ensures Overtakes(s, a) ==> |Step(s, a).passed| > |s.passed|
  {
    var s' := Step(s, a);
    StepPasses(s, a);
    if s'.received != s.received {
      if s.remoteDescriptionSet {
        PassKeepsBetween(s, s', n, a.candidate);
      } else {
        BufferKeepsBetween(s, s', n, a.candidate);
      }
    }
  }

  /** As long as nobody has been overtaken, everything buffered was heard in one stretch, behind which is the rest. */
  lemma {:induction false} NoneOvertakenKeepsBetween(acts: seq<Action>) returns (n: nat)
    requires NoneOvertaken(acts)
    ensures HeardBetween(Run(BEGIN, acts), n)
    ensures n < |Run(BEGIN, acts).passed| || NoOvertake(acts)
  {
    n := 0;
    if acts != [] {
      var init, a := acts[..|acts| - 1], acts[|acts| - 1];
      NoneOvertakenPrefix(acts);
      n := NoneOvertakenKeepsBetween(init);
      RunKeepsBuffer(init);
      NoOvertakePrefix(acts);
      StepPasses(Run(BEGIN, init), a);
      if |Run(BEGIN, acts).pending| < |Run(BEGIN, init).pending| {
        ShiftMeansNoOvertake(acts);
        OrderOrInverted(init);
        ShiftKeepsBetween(Run(BEGIN, init), Run(BEGIN, acts));
        n := |Run(BEGIN, acts).passed|;
      } else {
        StepKeepsBetween(Run(BEGIN, init), a, n);
      }
    }
  }

  /** Passing on the oldest of the buffer behind a candidate that was heard later. */
  lemma ShiftInverts(s: State, n: nat)
    requires HeardBetween(s, n) && n < |s.passed| && s.pending != []
    ensures PassedInverted(s.(pending := s.pending[1..], passed := s.passed + [s.pending[0]]),
                           n, n + |s.pending|, |s.passed|, n)
  {
    assert s.received[n] == s.pending[0] && s.received[n + |s.pending|] == s.passed[n..][0];
  }

  /** An overtaking leaves the buffer as it is: nobody has been passed on since. */
  lemma LastNotOvertaken(acts: seq<Action>)
    requires acts != []
    ensures !Overtaken(acts, |acts| - 1)
  {
    assert Run(BEGIN, acts) == Step(Run(BEGIN, acts[..|acts| - 1]), acts[|acts| - 1]);
  }

  /** Overtaken by the last action only: it has shifted the buffer. */
  lemma OvertakenByShift(acts: seq<Action>, i: nat)
    requires i + 1 < |acts| && Overtaken(acts, i) && !Overtaken(acts[..|acts| - 1], i)
    ensures Overtakes(Run(BEGIN, acts[..|acts| - 1][..i]), acts[..|acts| - 1][i])
    ensures |Run(BEGIN, acts).pending| < |Run(BEGIN, acts[..|acts| - 1]).pending|
  {
    assert acts[..|acts| - 1][..i] == acts[..i];
  }

  /** The first candidate to be overtaken is overtaken by a shift of the buffer. */
  lemma OvertakingShifts(acts: seq<Action>)
    requires acts != [] && !NoneOvertaken(acts) && NoneOvertaken(acts[..|acts| - 1])
    ensures !NoOvertake(acts[..|acts| - 1])
    ensures |Run(BEGIN, acts).pending| < |Run(BEGIN, acts[..|acts| - 1]).pending|
  {
    var i: nat :| i < |acts| && Overtaken(acts, i);
    LastNotOvertaken(acts);
    OvertakenByShift(acts, i);
  }

  lemma InvertedStays(s: State, a: Action)
    requires SomeInverted(s)
    ensures SomeInverted(Step(s, a))
  {
    var i: nat, j: nat, k: nat, l: nat :| PassedInverted(s, i, j, k, l);
    StepPasses(s, a);
    assert PassedInverted(Step(s, a), i, j, k, l);
  }

  lemma FirstOvertakenInverts(acts: seq<Action>)
    requires acts != [] && !NoneOvertaken(acts) && NoneOvertaken(acts[..|acts| - 1])
    ensures SomeInverted(Run(BEGIN, acts))
  {
    var init := acts[..|acts| - 1];
    var s := Run(BEGIN, init);
    OvertakingShifts(acts);
    var n := NoneOvertakenKeepsBetween(init);
    ShiftInverts(s, n);
    StepPasses(s, acts[|acts| - 1]);
    assert PassedInverted(Run(BEGIN, acts), n, n + |s.pending|, |s.passed|, n);
  }

  lemma {:induction false} OvertakenInverts(acts: seq<Action>)
    requires !NoneOvertaken(acts)
    ensures SomeInverted(Run(BEGIN, acts))
  {
    var init := acts[..|acts| - 1];
    if NoneOvertaken(init) {
      FirstOvertakenInverts(acts);
    } else {
      OvertakenInverts(init);
      InvertedStays(Run(BEGIN, init), acts[|acts| - 1]);
    }
  }

  lemma BetweenMeansInOrder(s: State, n: nat)
    requires HeardBetween(s, n) && Distinct(s.received)
    ensures InOrder(s.passed, s.received)
  {
    forall i, j, k, l | 0 <= i < j < |s.received| && 0 <= k < |s.passed| && 0 <= l < |s.passed|
                        && s.passed[k] == s.received[i] && s.passed[l] == s.received[j]
      ensures k < l
    {
      HeardAt(s, n, k, i);
      HeardAt(s, n, l, j);
    }
  }

  lemma HeardAt(s: State, n: nat, k: nat, i: nat)
    requires HeardBetween(s, n) && Distinct(s.received)
    requires k < |s.passed| && i < |s.received| && s.passed[k] == s.received[i]
    ensures i == if k < n then k else k + |s.pending|
  {
    var at := if k < n then k else k + |s.pending|;
    assert k >= n ==> s.passed[k] == s.passed[n..][k - n];
    assert s.received[at] == s.passed[k];
  }

  /**
   * The exact condition for what has been passed on alone, for every interleaving
   * in which no candidate is heard twice: it is in the order heard iff no
   * candidate was passed on out of the buffer after one heard later had overtaken
   * it. A drain that is cut short between the two keeps the order.
   */
  lemma PassedInOrderIffNoneOvertaken(acts: seq<Action>)
    requires Distinct(Run(BEGIN, acts).received)
    ensures InOrder(Run(BEGIN, acts).passed, Run(BEGIN, acts).received) <==> NoneOvertaken(acts)
  {
    var s := Run(BEGIN, acts);
    if NoneOvertaken(acts) {
      var n := NoneOvertakenKeepsBetween(acts);
      BetweenMeansInOrder(s, n);
    } else {
      OvertakenInverts(acts);
    }
  }

  /** A drain cut short, then a candidate heard: it overtakes the buffered one, and what is passed on is in order. */
  lemma CutShortDrainKeepsPassedInOrder(a: Candidate, b: Candidate, c: Candidate)
    ensures var early := Step(Step(Step(BEGIN, Heard(a)), Heard(b)), Description);
            var cut := Step(Step(early, RemoteSet(0)), AddRejected(0));
            Overtakes(cut, Heard(c)) && Step(cut, Heard(c)).passed == [a, c] && Step(cut, Heard(c)).pending == [b]
  {
  }

  /** A run in which a candidate heard during the drain overtakes one still buffered. */
  lemma DrainCanBeOvertaken(a: Candidate, b: Candidate, c: Candidate)
    requires b != c
    ensures var early := Step(Step(Step(BEGIN, Heard(a)), Heard(b)), Description);
            var s := Step(Step(Step(early, RemoteSet(0)), Heard(c)), Added(0));
            s.received == [a, b, c] && s.passed == [a, c, b]
  {
  }

  /** The closure of connectToPeer. */
  class ConnectSession {
    var pendingCandidates: seq<Candidate>
    var remoteDescriptionSet: bool
    var handlers: seq<Handler>
    var subscribed: bool
    ghost var received: seq<Candidate>
    var passed: seq<Candidate>
    ghost var failed: bool

    ghost function Now(): State
      reads this
    {
      State(pendingCandidates, remoteDescriptionSet, handlers, subscribed, received, passed, failed)
    }

    constructor ()
      ensures Now() == BEGIN
    {
      pendingCandidates, remoteDescriptionSet, handlers, subscribed := [], false, [], true;
      received, passed, failed := [], [], false;
    }

    method OnCandidate(c: Candidate)
      modifies this
      ensures Now() == HeardStep(old(Now()), c)
    {
      if !subscribed {
        return;
      }
      received := received + [c];
      if remoteDescriptionSet {
        passed := passed + [c];
        handlers := handlers + [Adding];
      } else {
        pendingCandidates := pendingCandidates + [c];
      }
    }

    /** The condition of the drain loop and, if it holds, its body up to the await. */
    method DrainPending(h: nat)
      requires h < |handlers|
      modifies this
      ensures Now() == DrainStep(old(Now()), h)
    {
      if |pendingCandidates| == 0 {
        handlers := Without(handlers, h);
        return;
      }
      var candidate := pendingCandidates[0];
      pendingCandidates := pendingCandidates[1..];
      passed := passed + [candidate];
      handlers := handlers[h := Draining];
    }

    method OnRemoteSet(h: nat)
      requires h < |handlers| && handlers[h].SettingRemote?
      modifies this
      ensures Now() == RemoteSetStep(old(Now()), h)
    {
      remoteDescriptionSet := true;
      DrainPending(h);
    }

    /** A drain that nothing interrupts passes the whole buffer on, oldest first. */
    method DrainAll(h: nat)
      requires h < |handlers| && handlers[h].Draining? && remoteDescriptionSet
      modifies this
      ensures pendingCandidates == [] && passed == old(passed) + old(pendingCandidates)
      ensures handlers == Without(old(handlers), h)
    {
      while pendingCandidates != []
        invariant h < |handlers| && handlers == old(handlers)
        invariant passed + pendingCandidates == old(passed) + old(pendingCandidates)
        decreases |pendingCandidates|
      {
        assert pendingCandidates == [pendingCandidates[0]] + pendingCandidates[1..];
        DrainPending(h);
      }
      DrainPending(h);
    }

    method OnAdded(h: nat)
      requires h < |handlers|
      modifies this
      ensures Now() == AddedStep(old(Now()), h)
    {
      match handlers[h] {
        case SettingRemote =>
        case Draining => DrainPending(h);
        case Adding => handlers := Without(handlers, h);
      }
    }

    method OnRejected(h: nat, remote: bool)
      requires h < |handlers|
      modifies this
      ensures Now() == RejectedStep(old(Now()), h, remote)
    {
      if handlers[h].SettingRemote? == remote {
        failed := failed || handlers[h].Draining?;
        handlers := Without(handlers, h);
      }
    }

    method Perform(a: Action)
      modifies this
      ensures Now() == Step(old(Now()), a)
    {
      match a {
        case Description =>
          if subscribed {
            handlers := handlers + [SettingRemote];
          }
        case Heard(c) => OnCandidate(c);
        case RemoteSet(h) =>
          if h < |handlers| && handlers[h].SettingRemote? {
            OnRemoteSet(h);
          }
        case RemoteRejected(h) =>
          if h < |handlers| {
            OnRejected(h, true);
          }
        case Added(h) =>
          if h < |handlers| {
            OnAdded(h);
          }
        case AddRejected(h) =>
          if h < |handlers| {
            OnRejected(h, false);
          }
        case ChannelOpen => subscribed := false;
      }
    }

    /** Any interleaving from the start: every candidate heard is buffered or passed on, as often as it was heard. */
    method RunAll(acts: seq<Action>)
      requires Now() == BEGIN
      modifies this
      ensures multiset(received) == multiset(passed) + multiset(pendingCandidates)
      ensures !remoteDescriptionSet ==> passed == []
      ensures remoteDescriptionSet && !DrainRuns(handlers) && !failed ==> pendingCandidates == []
      ensures NoOvertake(acts) ==> passed + pendingCandidates == received
      ensures Distinct(received) ==> (InOrder(passed, received) <==> NoneOvertaken(acts))
    {
      for i := 0 to |acts|
        invariant Now() == Run(BEGIN, acts[..i])
      {
        assert acts[..i + 1][..i] == acts[..i];
        Perform(acts[i]);
      }
      assert acts[..|acts|] == acts;
      RunKeepsBuffer(acts);
      OrderOrInverted(acts);
      if Distinct(received) {
        PassedInOrderIffNoneOvertaken(acts);
      }
    }
  }
}
