/**
 * The election told simply: where the startup is, or what an instance follows
 * and how far its one failover is, or the epoch it coordinates with. The closure
 * of runElection, with its flags and its calls in flight, does no more than this.
 */
module ElectionStory {
  import opened Basics
  import opened Election

  datatype Story =
    | Looking
    | TakingOver
    | Yielding
    | LookingAgain
    | Following(known: Option<Discovered>, failover: Option<Failover>)
    | Coordinating(epoch: int)

  function KnownEpoch(known: Option<Discovered>): int {
    if known.Some? then known.value.epoch else 0
  }

  /** The service that went down is the one that is followed, or none is. */
  predicate Concerns(known: Option<Discovered>, port: nat) {
    known.None? || known.value.port == port
  }

  /** One failover: a delay, a bind with the epoch after the one known then, and if it is lost a wait and a probe. */
  function GoOn(known: Option<Discovered>, stage: Failover, a: Action): Story {
    match stage
    case Delaying =>
      Following(known, Some(if a == Delayed(0) then Failover.Starting(KnownEpoch(known) + 1) else stage))
    case Starting(epoch) =>
      if a == Bound(0, true) then Coordinating(epoch)
      else Following(known, Some(if a == Bound(0, false) then Retrying else stage))
    case Retrying => Following(known, Some(if a == Waited(0) then Reprobing else stage))
    case Reprobing =>
      if a.Reprobed? && a.k == 0 then Following(if a.found.Some? then a.found else known, None)
      else Following(known, if a == Threw(0) then None else Some(stage))
  }

  function Tell(story: Story, a: Action): Story {
    match story
    case Looking =>
      if !a.StartupProbed? then story else if a.found.Some? then Following(a.found, None) else TakingOver
    case TakingOver => if !a.StartupBound? then story else if a.won then Coordinating(1) else Yielding
    case Yielding => if a.StartupWaited? then LookingAgain else story
    case LookingAgain => if a.StartupProbed? then Following(a.found, None) else story
    case Following(known, failover) =>
      if a.Up? then Following(Some(a.service), failover)
      else if failover.Some? then GoOn(known, failover.value, a)
      else if a.Down? && Concerns(known, a.port) then Following(known, Some(Delaying))
      else story
    case Coordinating(_) => story
  }

  function StoryOf(acts: seq<Action>): Story {
    if acts == [] then Looking else Tell(StoryOf(acts[..|acts| - 1]), acts[|acts| - 1])
  }

  /** Where the coordinator is, as far as the instance knows. */
  function HostOf(story: Story): Option<string> {
    match story
    case Following(known, _) => if known.Some? then Some(known.value.host) else None
    case Coordinating(_) => Some("localhost")
    case _ => None
  }

  predicate Running(story: Story) {
    story.Following? || story.Coordinating?
  }

  /** Every change of the host behind the startup, in order. */
  function Told(acts: seq<Action>): seq<Option<string>> {
    if acts == [] then []
    else
      var init := acts[..|acts| - 1];
      var before, after := StoryOf(init), StoryOf(acts);
      if Running(before) && HostOf(after) != HostOf(before) then Told(init) + [HostOf(after)] else Told(init)
  }

  predicate Idle(s: State) {
    && s.role.ClientRole? && s.epoch == 0 && s.starts == 0 && s.tracked == None
    && s.failovers == [] && !s.attemptingFailover
  }

  predicate Matches(s: State, story: Story) {
    match story
    case Looking => s.startup.Probing? && Idle(s)
    case TakingOver => s.startup.Binding? && Idle(s)
    case Yielding => s.startup.BindWait? && Idle(s)
    case LookingAgain => s.startup.Rechecking? && Idle(s)
    case Following(known, failover) =>
      && s.startup.Watching? && s.role.ClientRole? && s.starts == 0
      && s.tracked == known && s.epoch == KnownEpoch(known)
      && s.failovers == (if failover.Some? then [failover.value] else []) && s.attemptingFailover == failover.Some?
    case Coordinating(epoch) =>
      && s.startup.Watching? && s.role.CoordinatorRole? && s.starts == 1 && s.epoch == epoch
      && s.failovers == [] && !s.attemptingFailover
  }

  predicate Knows(s: State, story: Story) {
    Running(story) ==> s.lastNotifiedHost == HostOf(story)
  }

  lemma StartupMatches(s: State, story: Story, a: Action)
    requires Matches(s, story) && !Running(story)
    ensures Matches(Step(s, a), Tell(story, a)) && Knows(Step(s, a), Tell(story, a))
    ensures Step(s, a).notified == s.notified
  {
  }

  /** From one state and one point of the story to the next, the user interface being told iff the host changed. */
  predicate Keeps(s: State, s': State, story: Story, next: Story) {
    && Matches(s', next) && Knows(s', next)
    && s'.notified == if HostOf(next) != HostOf(story) then s.notified + [HostOf(next)] else s.notified
  }

  predicate FollowsAt(s: State, story: Story, failover: Option<Failover>) {
    Matches(s, story) && Knows(s, story) && story.Following? && story.failover == failover
  }

  lemma UpMatches(s: State, story: Story, service: Discovered)
    requires Matches(s, story) && story.Following? && Knows(s, story)
    ensures Keeps(s, Step(s, Up(service)), story, Tell(story, Up(service)))
  {
  }

  lemma AtEaseMatches(s: State, story: Story, a: Action)
    requires FollowsAt(s, story, None) && !a.Up?
    ensures Keeps(s, Step(s, a), story, Tell(story, a))
  {
    assert s.failovers + [Delaying] == [Delaying];
  }

  /** The one failover there is, moved on and ended. */
  lemma OneFailover(s: State, stage: Failover, next: Failover)
    requires s.failovers == [stage]
    ensures At(s, 0, next) == s.(failovers := [next])
    ensures EndFailover(s, 0) == s.(failovers := [], attemptingFailover := false)
  {
    assert s.failovers[..0] + s.failovers[1..] == [];
  }

  lemma DelayMatches(s: State, story: Story, a: Action)
    requires FollowsAt(s, story, Some(Delaying)) && !a.Up?
    ensures Keeps(s, Step(s, a), story, Tell(story, a))
  {
    OneFailover(s, Delaying, Failover.Starting(s.epoch + 1));
  }

  lemma BindMatches(s: State, story: Story, a: Action, epoch: int)
    requires FollowsAt(s, story, Some(Failover.Starting(epoch))) && !a.Up?
    ensures Keeps(s, Step(s, a), story, Tell(story, a))
  {
    OneFailover(s, Failover.Starting(epoch), Retrying);
    OneFailover(NotifyIfHostChanged(Won(s, epoch)), Failover.Starting(epoch), Retrying);
  }

  lemma RetryMatches(s: State, story: Story, a: Action)
    requires FollowsAt(s, story, Some(Retrying)) && !a.Up?
    ensures Keeps(s, Step(s, a), story, Tell(story, a))
  {
    OneFailover(s, Retrying, Reprobing);
  }

  lemma ReprobeMatches(s: State, story: Story, a: Action)
    requires FollowsAt(s, story, Some(Reprobing)) && !a.Up?
    ensures Keeps(s, Step(s, a), story, Tell(story, a))
  {
    OneFailover(s, Reprobing, Reprobing);
    if a.Reprobed? {
      OneFailover(NotifyIfHostChanged(if a.found.Some? then Track(s, a.found.value) else s), Reprobing, Reprobing);
    }
  }

  lemma FollowingMatches(s: State, story: Story, a: Action)
    requires Matches(s, story) && story.Following? && Knows(s, story)
    ensures Keeps(s, Step(s, a), story, Tell(story, a))
  {
    if a.Up? {
      UpMatches(s, story, a.service);
    } else {
      match story.failover
      case None => AtEaseMatches(s, story, a);
      case Some(Delaying) => DelayMatches(s, story, a);
      case Some(Starting(epoch)) => BindMatches(s, story, a, epoch);
      case Some(Retrying) => RetryMatches(s, story, a);
      case Some(Reprobing) => ReprobeMatches(s, story, a);
    }
  }

  lemma CoordinatingMatches(s: State, story: Story, a: Action)
    requires Matches(s, story) && story.Coordinating?
    ensures Step(s, a) == s && Tell(story, a) == story
  {
  }

  /**
   * Over every interleaving the closure is the story: its role, its epoch, what
   * it tracks, its failovers and its servers are those of the story, and the
   * user interface has been told every change of the host and nothing else.
   */
  lemma {:induction false} ElectionIsTheStory(acts: seq<Action>)
    ensures var s := Run(BEGIN, acts);
            Matches(s, StoryOf(acts)) && Knows(s, StoryOf(acts)) && s.notified == Told(acts)
  {
    if acts != [] {
      var init, a := acts[..|acts| - 1], acts[|acts| - 1];
      ElectionIsTheStory(init);
      match StoryOf(init)
      case Following(_, _) => FollowingMatches(Run(BEGIN, init), StoryOf(init), a);
      case Coordinating(_) => CoordinatingMatches(Run(BEGIN, init), StoryOf(init), a);
      case _ => StartupMatches(Run(BEGIN, init), StoryOf(init), a);
    }
  }

  // ---- the coordinator goes away ----

  /** A client that watches, with no failover in flight. */
  predicate AtEase(s: State) {
    s.startup.Watching? && s.role.ClientRole? && !s.attemptingFailover && s.failovers == []
  }

  /** A service going down starts a failover iff it is the one tracked, or none is; otherwise nothing happens. */
  lemma DownStartsFailoverIff(s: State, port: nat)
    requires AtEase(s)
    ensures Step(s, Down(port)).failovers == [Delaying] <==> s.tracked.None? || s.tracked.value.port == port
    ensures var s' := Step(s, Down(port));
            s' == s || (s'.attemptingFailover && s' == s.(failovers := [Delaying], attemptingFailover := true))
  {
  }

  /** While its delay runs, a failover is stopped by nothing. */
  predicate WhileDelayed(acts: seq<Action>) {
    forall i :: 0 <= i < |acts| ==> acts[i] != Delayed(0)
  }

  predicate WhileBound(acts: seq<Action>) {
    forall i :: 0 <= i < |acts| ==> !acts[i].Bound? || acts[i].k != 0
  }

  predicate FailingOver(s: State, stage: Failover) {
    s.startup.Watching? && s.role.ClientRole? && s.attemptingFailover && s.failovers == [stage]
  }

  lemma {:induction false} DelayRuns(s: State, acts: seq<Action>)
    requires FailingOver(s, Delaying) && WhileDelayed(acts)
    ensures FailingOver(Run(s, acts), Delaying)
  {
    if acts != [] {
      var init := acts[..|acts| - 1];
      assert forall i :: 0 <= i < |init| ==> init[i] == acts[i];
      DelayRuns(s, init);
      DelayStep(Run(s, init), acts[|acts| - 1]);
    }
  }

  lemma DelayStep(s: State, a: Action)
    requires FailingOver(s, Delaying) && a != Delayed(0)
    ensures FailingOver(Step(s, a), Delaying)
  {
  }

  lemma {:induction false} BindRuns(s: State, acts: seq<Action>, epoch: int)
    requires FailingOver(s, Failover.Starting(epoch)) && WhileBound(acts)
    ensures FailingOver(Run(s, acts), Failover.Starting(epoch))
  {
    if acts != [] {
      var init := acts[..|acts| - 1];
      assert forall i :: 0 <= i < |init| ==> init[i] == acts[i];
      BindRuns(s, init, epoch);
      BindStep(Run(s, init), acts[|acts| - 1], epoch);
    }
  }

  lemma BindStep(s: State, a: Action, epoch: int)
    requires FailingOver(s, Failover.Starting(epoch)) && (!a.Bound? || a.k != 0)
    ensures FailingOver(Step(s, a), Failover.Starting(epoch))
  {
  }

  /**
   * The service a client follows goes down. Whatever happens during the delay and
   * during the bind: if the bind is won, the client coordinates, with the epoch
   * after the one it knew when the delay ran out, and the user interface is told.
   */
  lemma FollowedServiceGoesDown(s: State, port: nat, delayed: seq<Action>, bound: seq<Action>)
    requires AtEase(s) && (s.tracked.None? || s.tracked.value.port == port)
    requires WhileDelayed(delayed) && WhileBound(bound)
    ensures var waited := Run(Step(s, Down(port)), delayed);
            var won := Step(Run(Step(waited, Delayed(0)), bound), Bound(0, true));
            && won.role.CoordinatorRole? && won.epoch == waited.epoch + 1 && won.failovers == []
            && won.lastNotifiedHost == Some("localhost")
  {
    DelayRuns(Step(s, Down(port)), delayed);
    var waited := Run(Step(s, Down(port)), delayed);
    BindRuns(Step(waited, Delayed(0)), bound, waited.epoch + 1);
  }
}
