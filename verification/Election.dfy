/**
 * runElection of coordinator/src/election.ts on one machine: one step per
 * await, per mDNS event and per failure of the network.
 */
module Election {
  import opened Basics

  const LOCALHOST: string := "localhost"

  datatype Role = CoordinatorRole | ClientRole

  datatype Discovered = Discovered(host: string, port: nat, epoch: int)

  datatype Startup = Probing | Binding | BindWait | Rechecking | Watching

  /** Where one call of attemptFailover is suspended; it binds with the epoch it read before. */
  datatype Failover = Delaying | Starting(nextEpoch: int) | Retrying | Reprobing

  /** The closure's variables; `starts` counts the servers that came up, `notified` is what onHostChange was told. */
  datatype State = State(
    startup: Startup,
    role: Role,
    epoch: int,
    starts: nat,
    tracked: Option<Discovered>,
    attemptingFailover: bool,
    failovers: seq<Failover>,
    lastNotifiedHost: Option<string>,
    notified: seq<Option<string>>)

  datatype Action =
    | StartupProbed(found: Option<Discovered>)
    | StartupBound(won: bool)
    | StartupWaited
    | Up(service: Discovered)
    | Down(port: nat)
    | Delayed(k: nat)
    | Bound(k: nat, won: bool)
    | Waited(k: nat)
    | Reprobed(k: nat, found: Option<Discovered>)
    | Threw(k: nat)

  const BEGIN: State := State(Probing, ClientRole, 0, 0, None, false, [], None, [])

  function CoordinatorHost(s: State): Option<string> {
    if s.role.CoordinatorRole? then Some(LOCALHOST) else if s.tracked.Some? then Some(s.tracked.value.host) else None
  }

  function NotifyIfHostChanged(s: State): State {
    var host := CoordinatorHost(s);
    if host == s.lastNotifiedHost then s else s.(lastNotifiedHost := host, notified := s.notified + [host])
  }

  function Track(s: State, found: Discovered): State {
    s.(tracked := Some(found), epoch := found.epoch)
  }

  /** tryBecomeCoordinator once the bind has succeeded. */
  function Won(s: State, nextEpoch: int): State {
    s.(starts := s.starts + 1, epoch := nextEpoch, role := CoordinatorRole)
  }

  /** The end of the startup: the current host needs no notification. */
  function Watch(s: State): State {
    s.(startup := Watching, lastNotifiedHost := CoordinatorHost(s))
  }

  function StartupProbedStep(s: State, found: Option<Discovered>): State {
    match s.startup
    case Probing => if found.Some? then Watch(Track(s, found.value)) else s.(startup := Binding)
    case Rechecking => Watch(if found.Some? then Track(s, found.value) else s)
    case _ => s
  }

  function StartupBoundStep(s: State, won: bool): State {
    if !s.startup.Binding? then s else if won then Watch(Won(s, 1)) else s.(startup := BindWait)
  }

  function UpStep(s: State, service: Discovered): State {
    if !s.startup.Watching? || s.role.CoordinatorRole? then s else NotifyIfHostChanged(Track(s, service))
  }

  function DownStep(s: State, port: nat): State {
    if !s.startup.Watching? || s.role.CoordinatorRole? || s.attemptingFailover then s
    else if s.tracked.Some? && port != s.tracked.value.port then s
    else s.(attemptingFailover := true, failovers := s.failovers + [Delaying])
  }

  function At(s: State, k: nat, f: Failover): State
    requires k < |s.failovers|
  {
    s.(failovers := s.failovers[k := f])
  }

  /** The finally block: this call is over. */
  function EndFailover(s: State, k: nat): State
    requires k < |s.failovers|
  {
    s.(attemptingFailover := false, failovers := s.failovers[..k] + s.failovers[k + 1..])
  }

  function DelayedStep(s: State, k: nat): State {
    if k >= |s.failovers| || !s.failovers[k].Delaying? then s
    else if s.role.CoordinatorRole? then EndFailover(s, k)
    else At(s, k, Starting(s.epoch + 1))
  }

  function BoundStep(s: State, k: nat, won: bool): State {
    if k >= |s.failovers| || !s.failovers[k].Starting? then s
    else if won then EndFailover(NotifyIfHostChanged(Won(s, s.failovers[k].nextEpoch)), k)
    else At(s, k, Retrying)
  }

  function ReprobedStep(s: State, k: nat, found: Option<Discovered>): State {
    if k >= |s.failovers| || !s.failovers[k].Reprobing? then s
    else EndFailover(NotifyIfHostChanged(if found.Some? then Track(s, found.value) else s), k)
  }

  /** A probe rejects. */
  function ThrewStep(s: State, k: nat): State {
    if k >= |s.failovers| || !s.failovers[k].Reprobing? then s else EndFailover(s, k)
  }

  function Step(s: State, a: Action): State {
    match a
    case StartupProbed(found) => StartupProbedStep(s, found)
    case StartupBound(won) => StartupBoundStep(s, won)
    case StartupWaited => if s.startup.BindWait? then s.(startup := Rechecking) else s
    case Up(service) => UpStep(s, service)
    case Down(port) => DownStep(s, port)
    case Delayed(k) => DelayedStep(s, k)
    case Bound(k, won) => BoundStep(s, k, won)
    case Waited(k) => if k < |s.failovers| && s.failovers[k].Retrying? then At(s, k, Reprobing) else s
    case Reprobed(k, found) => ReprobedStep(s, k, found)
    case Threw(k) => ThrewStep(s, k)
  }

  function Run(s: State, acts: seq<Action>): State {
    if |acts| == 0 then s else Step(Run(s, acts[..|acts| - 1]), acts[|acts| - 1])
  }
}

module ElectionSafety {
  import opened Basics
  import opened Election
  import ElectionStory

  /** No notification repeats the one before it, and the last one is still true. */
  predicate Telling(notified: seq<Option<string>>, last: Option<string>) {
    && (forall i :: 0 <= i < |notified| - 1 ==> notified[i] != notified[i + 1])
    && (notified != [] ==> notified[|notified| - 1] == last)
  }

  predicate ElectionInv(s: State) {
    && |s.failovers| == (if s.attemptingFailover then 1 else 0)
    && s.starts == (if s.role.CoordinatorRole? then 1 else 0)
    && (s.role.CoordinatorRole? ==> s.startup.Watching? && s.failovers == [])
    && (!s.startup.Watching? ==> s.failovers == [] && s.notified == [] && s.tracked == None)
    && (s.startup.Watching? ==> s.lastNotifiedHost == CoordinatorHost(s))
    && Telling(s.notified, s.lastNotifiedHost)
  }

  lemma NotifyKeepsTelling(s: State)
    requires Telling(s.notified, s.lastNotifiedHost)
    ensures Telling(NotifyIfHostChanged(s).notified, NotifyIfHostChanged(s).lastNotifiedHost)
    ensures NotifyIfHostChanged(s).lastNotifiedHost == CoordinatorHost(s)
  {
  }

  lemma UpKeepsElection(s: State, service: Discovered)
    requires ElectionInv(s)
    ensures ElectionInv(UpStep(s, service))
  {
    NotifyKeepsTelling(Track(s, service));
  }

  lemma BoundKeepsElection(s: State, k: nat, won: bool)
    requires ElectionInv(s)
    ensures ElectionInv(BoundStep(s, k, won))
  {
    if k < |s.failovers| && s.failovers[k].Starting? && won {
      NotifyKeepsTelling(Won(s, s.failovers[k].nextEpoch));
    }
  }

  lemma ReprobedKeepsElection(s: State, k: nat, found: Option<Discovered>)
    requires ElectionInv(s)
    ensures ElectionInv(ReprobedStep(s, k, found))
  {
    NotifyKeepsTelling(if found.Some? then Track(s, found.value) else s);
  }

  lemma StepKeepsElection(s: State, a: Action)
    requires ElectionInv(s)
    ensures ElectionInv(Step(s, a))
  {
    match a
    case Up(service) => UpKeepsElection(s, service);
    case Bound(k, won) => BoundKeepsElection(s, k, won);
    case Reprobed(k, found) => ReprobedKeepsElection(s, k, found);
    case _ =>
  }

  lemma {:induction false} RunKeepsElection(acts: seq<Action>)
    ensures ElectionInv(Run(BEGIN, acts))
  {
    if |acts| > 0 {
      RunKeepsElection(acts[..|acts| - 1]);
      StepKeepsElection(Run(BEGIN, acts[..|acts| - 1]), acts[|acts| - 1]);
    }
  }

  /**
   * Over every interleaving of mDNS events with the awaits: at most one failover
   * is in flight, the server has come up at most once and exactly when this
   * instance coordinates, and what the user interface was last told is the
   * current host.
   */
  lemma OneServerOneFailover(acts: seq<Action>)
    ensures var s := Run(BEGIN, acts);
            && |s.failovers| <= 1 && s.starts <= 1
            && (s.starts == 1 <==> s.role.CoordinatorRole?)
            && (s.startup.Watching? ==> s.lastNotifiedHost == CoordinatorHost(s))
            && (s.notified != [] ==> s.notified[|s.notified| - 1] == CoordinatorHost(s))
            && (forall i :: 0 <= i < |s.notified| - 1 ==> s.notified[i] != s.notified[i + 1])
  {
    RunKeepsElection(acts);
  }

  lemma CoordinatorIsFinal(s: State, a: Action)
    requires ElectionInv(s) && s.role.CoordinatorRole?
    ensures Step(s, a) == s
  {
  }

  /** A coordinator stays one: role, epoch, host and everything else are frozen whatever happens afterwards. */
  lemma {:induction false} CoordinatorIsFrozen(acts: seq<Action>, more: seq<Action>)
    requires Run(BEGIN, acts).role.CoordinatorRole?
    ensures Run(Run(BEGIN, acts), more) == Run(BEGIN, acts)
  {
    RunKeepsElection(acts);
    if |more| > 0 {
      CoordinatorIsFrozen(acts, more[..|more| - 1]);
      CoordinatorIsFinal(Run(BEGIN, acts), more[|more| - 1]);
    }
  }

  /** The role check after the failover delay never finds a coordinator: a failover in flight means a client. */
  lemma RoleCheckNeverFires(acts: seq<Action>)
    requires Run(BEGIN, acts).failovers != []
    ensures Run(BEGIN, acts).role.ClientRole?
  {
    RunKeepsElection(acts);
  }

  /**
   * A failover that wins announces the epoch after the one known when its delay ran
   * out, whatever happened while it was binding: services coming up or going down,
   * or anything else but the end of the bind.
   */
  lemma FailoverRaisesEpoch(s: State, between: seq<Action>)
    requires ElectionInv(s) && s.failovers == [Delaying] && WhileBinding(between)
    ensures var s' := Run(DelayedStep(s, 0), between);
            && s'.failovers == [Starting(s.epoch + 1)]
            && BoundStep(s', 0, true).role.CoordinatorRole? && BoundStep(s', 0, true).epoch == s.epoch + 1
  {
    StepKeepsElection(s, Delayed(0));
    DelayReadsEpoch(s);
    BindingGoesOn(DelayedStep(s, 0), between, s.epoch + 1);
    WonBindIsCoordinator(Run(DelayedStep(s, 0), between), s.epoch + 1);
  }

  predicate WhileBinding(acts: seq<Action>) {
    forall i :: 0 <= i < |acts| ==> !acts[i].Bound?
  }

  lemma DelayReadsEpoch(s: State)
    requires s.failovers == [Delaying] && s.role.ClientRole?
    ensures DelayedStep(s, 0).failovers == [Starting(s.epoch + 1)]
  {
  }

  lemma WonBindIsCoordinator(s: State, nextEpoch: int)
    requires s.failovers == [Starting(nextEpoch)]
    ensures BoundStep(s, 0, true).role.CoordinatorRole? && BoundStep(s, 0, true).epoch == nextEpoch
  {
  }

  lemma BindingStep(s: State, a: Action, nextEpoch: int)
    requires ElectionInv(s) && s.failovers == [Starting(nextEpoch)] && !a.Bound?
    ensures Step(s, a).failovers == [Starting(nextEpoch)]
  {
  }

  lemma {:induction false} BindingGoesOn(s: State, acts: seq<Action>, nextEpoch: int)
    requires ElectionInv(s) && s.failovers == [Starting(nextEpoch)] && WhileBinding(acts)
    ensures ElectionInv(Run(s, acts)) && Run(s, acts).failovers == [Starting(nextEpoch)]
  {
    if |acts| > 0 {
      var n := |acts| - 1;
      assert forall i :: 0 <= i < n ==> acts[..n][i] == acts[i];
      BindingGoesOn(s, acts[..n], nextEpoch);
      StepKeepsElection(Run(s, acts[..n]), acts[n]);
      BindingStep(Run(s, acts[..n]), acts[n], nextEpoch);
    }
  }

  /** The closure of runElection. */
  class ElectionSession {
    var startup: Startup
    var role: Role
    var epoch: int
    ghost var starts: nat
    var tracked: Option<Discovered>
    var attemptingFailover: bool
    var failovers: seq<Failover>
    var lastNotifiedHost: Option<string>
    var notified: seq<Option<string>>

    ghost function Now(): State
      reads this
    {
      State(startup, role, epoch, starts, tracked, attemptingFailover, failovers, lastNotifiedHost, notified)
    }

    constructor ()
      ensures Now() == BEGIN
    {
      startup, role, epoch, starts, tracked := Probing, ClientRole, 0, 0, None;
      attemptingFailover, failovers, lastNotifiedHost, notified := false, [], None, [];
    }

    method CurrentHost() returns (host: Option<string>)
      ensures host == CoordinatorHost(Now())
    {
      if role.CoordinatorRole? {
        return Some(LOCALHOST);
      }
      host := if tracked.Some? then Some(tracked.value.host) else None;
    }

    method Notify()
      modifies this`lastNotifiedHost, this`notified
      ensures Now() == NotifyIfHostChanged(old(Now()))
    {
      var host := CurrentHost();
      if host == lastNotifiedHost {
        return;
      }
      lastNotifiedHost := host;
      notified := notified + [host];
    }

    /** startCoordinatorServer has come up inside tryBecomeCoordinator. */
    method BecomeCoordinator(nextEpoch: int)
      modifies this
      ensures Now() == Won(old(Now()), nextEpoch)
    {
      starts := starts + 1;
      epoch := nextEpoch;
      role := CoordinatorRole;
    }

    method StartWatching()
      modifies this
      ensures Now() == Watch(old(Now()))
    {
      lastNotifiedHost := CurrentHost();
      startup := Watching;
    }

    method StartupProbe(found: Option<Discovered>)
      modifies this
      ensures Now() == StartupProbedStep(old(Now()), found)
    {
      if startup.Probing? && found.None? {
        startup := Binding;
      } else if startup.Probing? || startup.Rechecking? {
        if found.Some? {
          tracked := found;
          epoch := found.value.epoch;
        }
        StartWatching();
      }
    }

    method StartupBind(won: bool)
      modifies this
      ensures Now() == StartupBoundStep(old(Now()), won)
    {
      if !startup.Binding? {
        return;
      }
      if won {
        BecomeCoordinator(1);
        StartWatching();
      } else {
        startup := BindWait;
      }
    }

    method OnUp(service: Discovered)
      modifies this
      ensures Now() == UpStep(old(Now()), service)
    {
      if !startup.Watching? || role.CoordinatorRole? {
        return;
      }
      tracked := Some(service);
      epoch := service.epoch;
      Notify();
    }

    method OnDown(port: nat)
      modifies this
      ensures Now() == DownStep(old(Now()), port)
    {
      if !startup.Watching? || role.CoordinatorRole? || attemptingFailover {
        return;
      }
      if tracked.Some? && port != tracked.value.port {
        return;
      }
      attemptingFailover := true;
      failovers := failovers + [Delaying];
    }

    method AfterDelay(k: nat)
      requires k < |failovers| && failovers[k].Delaying?
      modifies this
      ensures Now() == DelayedStep(old(Now()), k)
    {
      if role.CoordinatorRole? {
        failovers := failovers[..k] + failovers[k + 1..];
        attemptingFailover := false;
        return;
      }
      failovers := failovers[k := Starting(epoch + 1)];
    }

    method AfterBind(k: nat, won: bool)
      requires k < |failovers| && failovers[k].Starting?
      modifies this
      ensures Now() == BoundStep(old(Now()), k, won)
    {
      if !won {
        failovers := failovers[k := Retrying];
        return;
      }
      BecomeCoordinator(failovers[k].nextEpoch);
      Notify();
      failovers := failovers[..k] + failovers[k + 1..];
      attemptingFailover := false;
    }

    method AfterReprobe(k: nat, found: Option<Discovered>)
      requires k < |failovers| && failovers[k].Reprobing?
      modifies this
      ensures Now() == ReprobedStep(old(Now()), k, found)
    {
      if found.Some? {
        tracked := found;
        epoch := found.value.epoch;
      }
      Notify();
      failovers := failovers[..k] + failovers[k + 1..];
      attemptingFailover := false;
    }

    method AfterWait(k: nat)
      requires k < |failovers| && failovers[k].Retrying?
      modifies this`failovers
      ensures Now() == Step(old(Now()), Waited(k))
    {
      failovers := failovers[k := Reprobing];
    }

    /** The second probe rejects: the finally block alone. */
    method ProbeThrew(k: nat)
      requires k < |failovers| && failovers[k].Reprobing?
      modifies this
      ensures Now() == ThrewStep(old(Now()), k)
    {
      failovers := failovers[..k] + failovers[k + 1..];
      attemptingFailover := false;
    }

    method OnFailover(a: Action, k: nat)
      requires k < |failovers|
      requires a == Delayed(k) || a == Waited(k) || a == Threw(k) || (a.Bound? && a.k == k) || (a.Reprobed? && a.k == k)
      modifies this
      ensures Now() == Step(old(Now()), a)
    {
      match a {
        case Delayed(_) => if failovers[k].Delaying? { AfterDelay(k); }
        case Bound(_, won) => if failovers[k].Starting? { AfterBind(k, won); }
        case Waited(_) => if failovers[k].Retrying? { AfterWait(k); }
        case Reprobed(_, found) => if failovers[k].Reprobing? { AfterReprobe(k, found); }
        case Threw(_) => if failovers[k].Reprobing? { ProbeThrew(k); }
      }
    }

    method Perform(a: Action)
      modifies this
      ensures Now() == Step(old(Now()), a)
    {
      match a {
        case StartupProbed(found) => StartupProbe(found);
        case StartupBound(won) => StartupBind(won);
        case StartupWaited =>
          if startup.BindWait? {
            startup := Rechecking;
          }
        case Up(service) => OnUp(service);
        case Down(port) => OnDown(port);
        case _ =>
          if a.k < |failovers| {
            OnFailover(a, a.k);
          }
      }
    }

    /** Any interleaving: one failover in flight, one server, and a user interface that knows the host. */
    method RunAll(acts: seq<Action>)
      requires Now() == BEGIN
      modifies this
      ensures |failovers| <= 1 && starts <= 1 && (starts == 1 <==> role.CoordinatorRole?)
      ensures startup.Watching? ==> lastNotifiedHost == CoordinatorHost(Now())
      ensures notified != [] ==> notified[|notified| - 1] == CoordinatorHost(Now())
      ensures ElectionStory.Matches(Now(), ElectionStory.StoryOf(acts)) && notified == ElectionStory.Told(acts)
    {
      for i := 0 to |acts|
        invariant Now() == Run(BEGIN, acts[..i])
      {
        assert acts[..i + 1][..i] == acts[..i];
        Perform(acts[i]);
      }
      assert acts[..|acts|] == acts;
      RunKeepsElection(acts);
      ElectionStory.ElectionIsTheStory(acts);
    }
  }
}
