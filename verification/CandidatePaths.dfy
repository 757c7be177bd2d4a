/** Which candidates the buffer of connectToPeer is about, told from the signals alone, and when its work is done. */
module CandidatePaths {
  import opened Basics
  import opened IceCandidates

  /** The candidates heard before the channel opened, in order. */
  function HeardBy(acts: seq<Action>): seq<Candidate> {
    if acts == [] then []
    else
      var init, last := acts[..|acts| - 1], acts[|acts| - 1];
      HeardBy(init) + if last.Heard? && ChannelOpen !in init then [last.candidate] else []
  }

  lemma StepHears(s: State, a: Action)
    ensures var s' := Step(s, a);
            && s'.received == s.received + (if a.Heard? && s.subscribed then [a.candidate] else [])
            && s'.subscribed == (s.subscribed && !a.ChannelOpen?)
  {
    StepOrder(s, a);
  }

  /** The session listens until the channel opens, and has received what was heard until then. */
  lemma {:induction false} ReceivedIsHeard(acts: seq<Action>)
    ensures Run(BEGIN, acts).received == HeardBy(acts)
    ensures Run(BEGIN, acts).subscribed <==> ChannelOpen !in acts
  {
    if acts != [] {
      var init, last := acts[..|acts| - 1], acts[|acts| - 1];
      ReceivedIsHeard(init);
      StepHears(Run(BEGIN, init), last);
      assert acts == init + [last];
    }
  }

  // ---- drains that are cut short ----

  /** The i-th action rejects the candidate a drain has just passed on. */
  predicate CutsShort(acts: seq<Action>, i: nat)
    requires i < |acts|
  {
    var s := Run(BEGIN, acts[..i]);
    acts[i].AddRejected? && acts[i].h < |s.handlers| && s.handlers[acts[i].h].Draining?
  }

  predicate SomeCutShort(acts: seq<Action>) {
    exists i :: 0 <= i < |acts| && CutsShort(acts, i)
  }

  lemma CutShortPrefix(acts: seq<Action>)
    requires acts != []
    ensures SomeCutShort(acts) <==> SomeCutShort(acts[..|acts| - 1]) || CutsShort(acts, |acts| - 1)
  {
    var init := acts[..|acts| - 1];
    assert forall i :: 0 <= i < |init| ==> init[..i] == acts[..i] && init[i] == acts[i];
    if i :| 0 <= i < |init| && CutsShort(init, i) {
      assert CutsShort(acts, i);
    }
    if i :| 0 <= i < |acts| && CutsShort(acts, i) {
      assert i < |init| ==> CutsShort(init, i);
    }
  }

  /** The note that a drain was cut short is made for that and nothing else. */
  lemma {:induction false} FailedIffCutShort(acts: seq<Action>)
    ensures Run(BEGIN, acts).failed <==> SomeCutShort(acts)
  {
    if acts != [] {
      FailedIffCutShort(acts[..|acts| - 1]);
      CutShortPrefix(acts);
      StepFails(Run(BEGIN, acts[..|acts| - 1]), acts[|acts| - 1]);
    }
  }

  lemma StepFails(s: State, a: Action)
    ensures Step(s, a).failed <==> s.failed || (a.AddRejected? && a.h < |s.handlers| && s.handlers[a.h].Draining?)
  {
  }

  // ---- the work of the handlers ----

  /** What a suspended handler can be resumed with. */
  predicate Resumes(s: State, a: Action) {
    match a
    case RemoteSet(h) => h < |s.handlers| && s.handlers[h].SettingRemote?
    case RemoteRejected(h) => h < |s.handlers| && s.handlers[h].SettingRemote?
    case Added(h) => h < |s.handlers| && !s.handlers[h].SettingRemote?
    case AddRejected(h) => h < |s.handlers| && !s.handlers[h].SettingRemote?
    case _ => false
  }

  /** Calls that are suspended and candidates that are buffered. */
  function WorkLeft(s: State): nat {
    |s.handlers| + |s.pending|
  }

  lemma ResumingWorks(s: State, a: Action)
    requires Resumes(s, a)
    ensures WorkLeft(Step(s, a)) < WorkLeft(s)
  {
  }

  lemma OthersWait(s: State, a: Action)
    requires !Resumes(s, a)
    ensures match a
            case Description =>
              Step(s, a) == (if s.subscribed then s.(handlers := s.handlers + [SettingRemote]) else s)
            case Heard(c) =>
              Step(s, a).handlers == s.handlers + (if s.subscribed && s.remoteDescriptionSet then [Adding] else [])
            case ChannelOpen => Step(s, a) == s.(subscribed := false)
            case _ => Step(s, a) == s
  {
  }

  /** Every suspended call can be resumed, so that nothing can move iff none is suspended. */
  lemma AtRestIffNoneSuspended(s: State)
    ensures (forall a :: !Resumes(s, a)) <==> s.handlers == []
  {
    if s.handlers != [] {
      assert Resumes(s, if s.handlers[0].SettingRemote? then RemoteSet(0) else Added(0));
    }
  }

  /** With nothing rejected, each resumption brings rest nearer, and rest comes when the work left has been done. */
  lemma {:induction false} RestIsReached(s: State) returns (acts: seq<Action>)
    ensures |acts| <= WorkLeft(s) && Run(s, acts).handlers == []
    ensures forall a :: a in acts ==> a.RemoteSet? || a.Added?
    decreases WorkLeft(s)
  {
    if s.handlers == [] {
      acts := [];
    } else {
      var a := if s.handlers[0].SettingRemote? then RemoteSet(0) else Added(0);
      ResumingWorks(s, a);
      var rest := RestIsReached(Step(s, a));
      RunCons(s, a, rest);
      acts := [a] + rest;
    }
  }

  lemma {:induction false} RunCons(s: State, a: Action, acts: seq<Action>)
    ensures Run(s, [a] + acts) == Run(Step(s, a), acts)
  {
    var all := [a] + acts;
    if acts != [] {
      RunCons(s, a, acts[..|acts| - 1]);
      assert all[..|all| - 1] == [a] + acts[..|acts| - 1];
    } else {
      assert all[..|all| - 1] == [];
      assert Run(s, []) == s;
    }
  }

  /**
   * What the buffer is for: once a description has been set and nothing is
   * suspended any more, every candidate that was heard before the channel opened
   * has been passed on, as often as it was heard, and no other, unless adding one
   * that a drain had shifted was rejected.
   */
  lemma QuietMeansPassedOn(acts: seq<Action>)
    requires Run(BEGIN, acts).handlers == [] && Run(BEGIN, acts).remoteDescriptionSet && !SomeCutShort(acts)
    ensures multiset(Run(BEGIN, acts).passed) == multiset(HeardBy(acts))
    ensures NoOvertake(acts) ==> Run(BEGIN, acts).passed == HeardBy(acts)
  {
    ReceivedIsHeard(acts);
    FailedIffCutShort(acts);
    CandidatesAreConserved(acts);
    OrderOrInverted(acts);
    var s := Run(BEGIN, acts);
    assert s.pending == [] && s.passed + s.pending == s.passed;
  }
}
