/**
 * The whole of the coordination is its parts: in every run the coordinator goes
 * through a run of its own, on what reaches it, and so does each client. What is
 * proved of the parts is thereby proved of the whole.
 */
module CoordinationRuns {
  import opened Basics
  import opened PeerRegistry
  import opened CoordinatorServer
  import opened CoordinatorClient
  import opened CoordinatorSafety
  import opened CoordinatorReplies
  import opened Coordination
  import opened ViewConvergence
  import opened CoordinationPaths

  /** What one action lets the coordinator hear, if anything: at most one event. */
  function ServerHears(w: World, y: System, a: Action): seq<Event> {
    match a
    case Accepted(c) => if c in y.sockets then [Connect(c)] else []
    case Received(c) =>
      if c in y.sockets && y.sockets[c].uplink != [] && IsUp(y.server, c)
      then [EventOf(c, y.sockets[c].uplink[0])] else []
    case Arrives(c) =>
      if c in y.server.links && y.server.links[c].outbox != [] && w.owner(c) in y.clients then [Delivered(c)] else []
    case ServerCloses(c) => [SocketClosed(c)]
    case ServerErrors(c) => [SocketError(c)]
    case Sweeps => [Sweep]
    case Ticks(ms) => [Tick(ms)]
    case _ => []
  }

  /** A client opens only sockets of its own that have not been opened before. */
  predicate NewSocket(w: World, y: System, i: nat, c: nat) {
    w.owner(c) == i && c !in y.sockets
  }

  predicate HasOpenSocket(y: System, i: nat) {
    i in y.clients && y.clients[i].ws.Some? && Sends(y, i, y.clients[i].ws.value)
  }

  /** What one action lets client i see, if anything: at most one event. */
  function ClientSees(w: World, y: System, a: Action, i: nat): seq<ClientEvent> {
    match a
    case Connects(j, c) => if j == i && NewSocket(w, y, i, c) then [ConnectCalled(c)] else []
    case Retries(j, c) => if j == i && NewSocket(w, y, i, c) then [RetryCalled(c)] else []
    case Reconnects(j, c) => if j == i && NewSocket(w, y, i, c) then [TimerFired(c)] else []
    case Disconnects(j) => if j == i then [DisconnectCalled(HasOpenSocket(y, i))] else []
    case Opens(c) =>
      if c in y.sockets && y.sockets[c].ready.Handshaking? && c in y.server.links && w.owner(c) == i
      then [SocketOpened(c)] else []
    case Arrives(c) =>
      if c in y.server.links && y.server.links[c].outbox != [] && w.owner(c) == i
         && c in y.sockets && y.sockets[c].ready.Ready?
      then [SocketSaid(c, y.server.links[c].outbox[0])] else []
    case Closes(c, random) =>
      if c in y.sockets && !y.sockets[c].ready.Gone? && w.owner(c) == i then [SocketClosedDown(c, random)] else []
    case _ => []
  }

  function After(s: Server, heard: seq<Event>): Server {
    if heard == [] then s else Step(s, heard[0])
  }

  function AfterSeeing(cl: Client, seen: seq<ClientEvent>): Client {
    if seen == [] then cl else React(cl, seen[0])
  }

  lemma StepIsServerStep(w: World, y: System, a: Action)
    ensures Next(w, y, a).server == After(y.server, ServerHears(w, y, a))
  {
  }

  lemma StepIsClientStep(w: World, y: System, a: Action, i: nat)
    requires i in y.clients
    ensures i in Next(w, y, a).clients
    ensures Next(w, y, a).clients[i] == AfterSeeing(y.clients[i], ClientSees(w, y, a, i))
  {
  }

  /** Only Create makes a client, and it starts idle. */
  lemma StepMakesClients(w: World, y: System, a: Action, i: nat)
    requires i !in y.clients
    ensures i in Next(w, y, a).clients ==> a == Create(i) && Next(w, y, a).clients[i] == IDLE
  {
  }

  /** All that the coordinator hears in a run, in order. */
  function Heard(w: World, actions: seq<Action>, ys: seq<System>): seq<Event>
    requires |ys| == |actions| + 1
  {
    if actions == [] then []
    else
      var n := |actions| - 1;
      Heard(w, actions[..n], ys[..n + 1]) + ServerHears(w, ys[n], actions[n])
  }

  /** All that client i sees in a run, in order, from when there is one. */
  function Seen(w: World, actions: seq<Action>, ys: seq<System>, i: nat): seq<ClientEvent>
    requires |ys| == |actions| + 1
  {
    if actions == [] then []
    else
      var n := |actions| - 1;
      if i in ys[n].clients then Seen(w, actions[..n], ys[..n + 1], i) + ClientSees(w, ys[n], actions[n], i) else []
  }

  lemma RunOneMore(events: seq<Event>, heard: seq<Event>)
    requires |heard| <= 1
    ensures Run(FRESH, events + heard) == After(Run(FRESH, events), heard)
  {
    if heard != [] {
      assert (events + heard)[..|events|] == events;
    } else {
      assert events + heard == events;
    }
  }

  lemma ReactOneMore(events: seq<ClientEvent>, seen: seq<ClientEvent>)
    requires |seen| <= 1
    ensures Reactions(events + seen) == AfterSeeing(Reactions(events), seen)
  {
    if seen != [] {
      assert (events + seen)[..|events|] == events;
    } else {
      assert events + seen == events;
    }
  }

  /** The coordinator of a system in a run is the coordinator after what it has heard. */
  lemma {:induction false} ServerRuns(w: World, actions: seq<Action>, ys: seq<System>)
    requires Runs(w, actions, ys)
    ensures ys[|actions|].server == Run(FRESH, Heard(w, actions, ys))
  {
    if actions != [] {
      var n := |actions| - 1;
      RunPrefix(w, actions, ys);
      ServerRuns(w, actions[..n], ys[..n + 1]);
      StepIsServerStep(w, ys[n], actions[n]);
      RunOneMore(Heard(w, actions[..n], ys[..n + 1]), ServerHears(w, ys[n], actions[n]));
    }
  }

  /** A client of a system in a run is the client after what it has seen. */
  lemma {:induction false} ClientRuns(w: World, actions: seq<Action>, ys: seq<System>, i: nat)
    requires Runs(w, actions, ys) && i in ys[|actions|].clients
    ensures ys[|actions|].clients[i] == Reactions(Seen(w, actions, ys, i))
  {
    if actions != [] {
      var n := |actions| - 1;
      RunPrefix(w, actions, ys);
      if i in ys[n].clients {
        ClientRuns(w, actions[..n], ys[..n + 1], i);
        StepIsClientStep(w, ys[n], actions[n], i);
        ReactOneMore(Seen(w, actions[..n], ys[..n + 1], i), ClientSees(w, ys[n], actions[n], i));
      } else {
        StepMakesClients(w, ys[n], actions[n], i);
      }
    }
  }

  /** Clients introduce themselves by their own name, so that what the coordinator hears is one device a connection. */
  lemma {:induction false} HeardIsDisciplined(w: World, actions: seq<Action>, ys: seq<System>)
    requires Runs(w, actions, ys)
    ensures forall e :: e in Heard(w, actions, ys) ==> Disciplined(DeviceOf(w), e)
  {
    if actions != [] {
      var n := |actions| - 1;
      RunPrefix(w, actions, ys);
      HeardIsDisciplined(w, actions[..n], ys[..n + 1]);
      RunsKeepSystem(w, actions[..n], ys[..n + 1]);
      OneIsDisciplined(w, ys[n], actions[n]);
    }
  }

  lemma OneIsDisciplined(w: World, y: System, a: Action)
    requires SystemInv(w, y)
    ensures forall e :: e in ServerHears(w, y, a) ==> Disciplined(DeviceOf(w), e)
  {
    if a.Received? && a.c in y.sockets && y.sockets[a.c].uplink != [] {
      assert HonestUplink(w, a.c, y.sockets[a.c]);
      assert y.sockets[a.c].uplink[0] in y.sockets[a.c].uplink;
    }
  }

  // ---- what that gives the whole ----

  /** A device has been heard of within the last twenty seconds. */
  predicate HeardOfLately(s: Server, info: PeerInfo) {
    exists p :: p in s.registry && p.info == info && s.now <= p.lastHeartbeatAt + 20000
  }

  /**
   * No ghosts: in every reachable state, with sweeps on time, a registered client
   * that has read what is on its way shows exactly the other listed devices, and
   * each of them has been heard of within the last twenty seconds.
   */
  lemma ShownAreAlive(w: World, y: System, i: nat)
    requires Coordination.Reachable(w, y) && i < |y.server.registry|
    requires var c := y.server.registry[i].connectionId;
             Live(w, y, c) && c in y.server.links && y.server.links[c].ready.Open? && y.server.links[c].outbox == []
    ensures var shown := y.clients[w.owner(y.server.registry[i].connectionId)].peers;
            Others(y.server.registry, i, shown) && forall info :: info in shown ==> HeardOfLately(y.server, info)
  {
    var actions, ys :| Runs(w, actions, ys) && ys[|actions|] == y;
    ServerRuns(w, actions, ys);
    HeardIsDisciplined(w, actions, ys);
    GoneInTwentySeconds(DeviceOf(w), Heard(w, actions, ys));
    QuietViewIsTheRegistry(w, y, i);
    var shown := y.clients[w.owner(y.server.registry[i].connectionId)].peers;
    forall info | info in shown ensures HeardOfLately(y.server, info) {
      var j :| 0 <= j < |shown| && shown[j] == info;
      assert y.server.registry[if j < i then j else j + 1] in y.server.registry;
    }
  }

  /**
   * Signals of the whole: in every reachable state a signal that reaches the
   * coordinator from a listed client for another listed one is put on that one's
   * socket alone, in the name of the device of the client that owns the connection.
   */
  lemma SignalsInTheWhole(w: World, y: System, from: Peer, p: Peer)
    requires Coordination.Reachable(w, y) && from in y.server.registry && p in y.server.registry
    requires var c := from.connectionId;
             IsUp(y.server, c) && c in y.sockets && y.sockets[c].uplink != []
             && y.sockets[c].uplink[0] == SignalTo(p.info.deviceId)
    ensures var s, s' := y.server, Next(w, y, Received(from.connectionId)).server;
            && Gets(s.links, s'.links, p.connectionId, [Signal(w.info(w.owner(from.connectionId)).deviceId)])
            && OnlyThese(s.links, s'.links, {p.connectionId})
  {
    var actions, ys :| Runs(w, actions, ys) && ys[|actions|] == y;
    ServerRuns(w, actions, ys);
    HeardIsDisciplined(w, actions, ys);
    SignalsCarryTheirSender(DeviceOf(w), Heard(w, actions, ys), from, p);
    RunsKeepSystem(w, actions, ys);
    UplinkIsHandled(w, y, from.connectionId);
    ListedByItsOwner(w, y, from);
  }

  lemma ListedByItsOwner(w: World, y: System, p: Peer)
    requires SystemInv(w, y) && p in y.server.registry
    ensures p.info.deviceId == w.info(w.owner(p.connectionId)).deviceId
  {
    var i :| 0 <= i < |y.server.registry| && y.server.registry[i] == p;
  }
}
