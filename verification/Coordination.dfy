/** The coordinator and its clients together: sockets, queues in both directions, and what every client believes. */
module Coordination {
  import opened Basics
  import opened PeerRegistry
  import opened CoordinatorServer
  import opened CoordinatorClient
  import opened CoordinatorSafety

  /** The browser's readyState of a socket. */
  datatype Readiness = Handshaking | Ready | Leaving | Gone

  /** A socket as its browser sees it: its state, and what was sent on it and has not reached the server. */
  datatype Socket = Socket(ready: Readiness, uplink: seq<ClientMessage>)

  /** Who opens which connection, and the fixed identity of every client. */
  datatype World = World(owner: nat -> nat, info: nat -> PeerInfo)

  datatype System = System(server: Server, clients: map<nat, Client>, sockets: map<nat, Socket>)

  datatype Action =
    | Create(i: nat)
    | Connects(i: nat, c: nat)
    | Retries(i: nat, c: nat)
    | Reconnects(i: nat, c: nat)
    | Disconnects(i: nat)
    | Beats(i: nat)
    | Signals(i: nat, to: string)
    | Accepted(c: nat)
    | Opens(c: nat)
    | Errors(c: nat)
    | Closes(c: nat, random: Random)
    | Received(c: nat)
    | Arrives(c: nat)
    | ServerCloses(c: nat)
    | ServerErrors(c: nat)
    | Sweeps
    | Ticks(ms: nat)

  const START: System := System(FRESH, map[], map[])

  function DeviceOf(w: World): Devices {
    (c: nat) => w.info(w.owner(c)).deviceId
  }

  // ---- steps of the clients ----

  /** send(): only on the current socket and only while it is open. */
  function Send(y: System, i: nat, msg: ClientMessage): System {
    if i in y.clients && y.clients[i].ws.Some? && y.clients[i].ws.value in y.sockets &&
       y.sockets[y.clients[i].ws.value].ready.Ready?
    then
      var c := y.clients[i].ws.value;
      y.(sockets := y.sockets[c := y.sockets[c].(uplink := y.sockets[c].uplink + [msg])])
    else y
  }

  /** ws.close() in the browser. */
  function CloseSocket(y: System, c: nat): System {
    if c in y.sockets && !y.sockets[c].ready.Gone?
    then y.(sockets := y.sockets[c := y.sockets[c].(ready := Leaving)]) else y
  }

  function Adopt(y: System, i: nat, c: nat, cl: Client): System {
    y.(clients := y.clients[i := cl], sockets := y.sockets[c := Socket(Handshaking, [])])
  }

  function DoDisconnect(w: World, y: System, i: nat): System
    requires i in y.clients
  {
    var cl := y.clients[i];
    var y1 := Send(y, i, Goodbye(w.info(i).deviceId));
    var y2 := if cl.ws.Some? then CloseSocket(y1, cl.ws.value) else y1;
    y2.(clients := y2.clients[i := Disconnected(cl)])
  }

  function DoOpen(w: World, y: System, c: nat): System
    requires c in y.sockets && w.owner(c) in y.clients
  {
    var cl := y.clients[w.owner(c)];
    y.(clients := y.clients[w.owner(c) := AfterOpen(cl, c)],
       sockets := y.sockets[c := Socket(Ready, y.sockets[c].uplink + Greeting(cl, c, w.info(w.owner(c))))])
  }

  function DoClose(w: World, y: System, c: nat, random: Random): System
    requires c in y.sockets && w.owner(c) in y.clients
  {
    y.(clients := y.clients[w.owner(c) := AfterClose(y.clients[w.owner(c)], c, random)],
       sockets := y.sockets[c := y.sockets[c].(ready := Gone)])
  }

  /** A message comes out of the socket; it is an event only while the browser's end is open. */
  function DoArrive(w: World, y: System, c: nat): System
    requires c in y.server.links && y.server.links[c].outbox != [] && w.owner(c) in y.clients
  {
    var msg := y.server.links[c].outbox[0];
    var y' := y.(server := Step(y.server, Delivered(c)));
    if c in y.sockets && y.sockets[c].ready.Ready?
    then y'.(clients := y.clients[w.owner(c) := AfterMessage(y.clients[w.owner(c)], c, msg)])
    else y'
  }

  // ---- steps of the server ----

  function EventOf(c: nat, msg: ClientMessage): Event {
    match msg
    case Hello(info, version) => Register(c, info, version)
    case SignalTo(to) => Relay(c, to)
    case Beat(deviceId) => Heartbeat(c, deviceId)
    case Goodbye(_) => Unregister(c)
  }

  function DoReceive(y: System, c: nat): System
    requires c in y.sockets && y.sockets[c].uplink != []
  {
    var k := y.sockets[c];
    y.(server := Step(y.server, EventOf(c, k.uplink[0])), sockets := y.sockets[c := k.(uplink := k.uplink[1..])])
  }

  predicate MayOpenSocket(w: World, y: System, i: nat, c: nat) {
    i in y.clients && w.owner(c) == i && c !in y.sockets
  }

  predicate Known(w: World, y: System, c: nat) {
    c in y.sockets && w.owner(c) in y.clients
  }

  function Next(w: World, y: System, a: Action): System {
    match a
    case Create(i) => if i in y.clients then y else y.(clients := y.clients[i := IDLE])
    case Connects(i, c) => if MayOpenSocket(w, y, i, c) then Adopt(y, i, c, Connected(y.clients[i], c)) else y
    case Retries(i, c) => if MayOpenSocket(w, y, i, c) then Adopt(y, i, c, Retried(y.clients[i], c)) else y
    case Reconnects(i, c) =>
      if MayOpenSocket(w, y, i, c) && y.clients[i].delays != [] then
        if y.clients[i].manuallyStopped then y.(clients := y.clients[i := TimedOut(y.clients[i], c)])
        else Adopt(y, i, c, TimedOut(y.clients[i], c))
      else y
    case Disconnects(i) => if i in y.clients then DoDisconnect(w, y, i) else y
    case Beats(i) => Send(y, i, Beat(w.info(i).deviceId))
    case Signals(i, to) => Send(y, i, SignalTo(to))
    case Accepted(c) => if c in y.sockets then y.(server := Step(y.server, Connect(c))) else y
    case Opens(c) =>
      if Known(w, y, c) && y.sockets[c].ready.Handshaking? && c in y.server.links then DoOpen(w, y, c) else y
    case Errors(c) => if Known(w, y, c) && y.clients[w.owner(c)].ws == Some(c) then CloseSocket(y, c) else y
    case Closes(c, random) => if Known(w, y, c) && !y.sockets[c].ready.Gone? then DoClose(w, y, c, random) else y
    case Received(c) => if c in y.sockets && y.sockets[c].uplink != [] && Hears(y.server, c) then DoReceive(y, c) else y
    case Arrives(c) =>
      if c in y.server.links && y.server.links[c].outbox != [] && w.owner(c) in y.clients then DoArrive(w, y, c) else y
    case ServerCloses(c) => y.(server := Step(y.server, SocketClosed(c)))
    case ServerErrors(c) => y.(server := Step(y.server, SocketError(c)))
    case Sweeps => y.(server := Step(y.server, Sweep))
    case Ticks(ms) => y.(server := Step(y.server, Tick(ms)))
  }

  /** A run by its states: ys[i] is the system after i of the actions. */
  predicate Runs(w: World, actions: seq<Action>, ys: seq<System>) {
    && |ys| == |actions| + 1 && ys[0] == START
    && forall i {:trigger actions[i]} :: 0 <= i < |actions| ==> ys[i + 1] == Next(w, ys[i], actions[i])
  }

  ghost predicate Reachable(w: World, y: System) {
    exists actions, ys :: Runs(w, actions, ys) && ys[|actions|] == y
  }

  /** Every list of actions leads somewhere. */
  lemma {:induction false} RunExists(w: World, actions: seq<Action>) returns (ys: seq<System>)
    ensures Runs(w, actions, ys) && Reachable(w, ys[|actions|])
  {
    if actions == [] {
      ys := [START];
    } else {
      var n := |actions| - 1;
      var init := RunExists(w, actions[..n]);
      ys := init + [Next(w, init[n], actions[n])];
      assert forall i :: 0 <= i < n ==> actions[..n][i] == actions[i];
    }
  }

  lemma RunPrefix(w: World, actions: seq<Action>, ys: seq<System>)
    requires actions != [] && Runs(w, actions, ys)
    ensures Runs(w, actions[..|actions| - 1], ys[..|actions|])
    ensures ys[|actions|] == Next(w, ys[|actions| - 1], actions[|actions| - 1])
  {
    var n := |actions| - 1;
    forall i | 0 <= i < n ensures ys[..n + 1][i + 1] == Next(w, ys[..n + 1][i], actions[..n][i]) {
      assert actions[..n][i] == actions[i];
    }
    assert actions[n] == actions[|actions| - 1];
  }
}

/** View convergence. */
module ViewConvergence {
  import opened Basics
  import opened PeerRegistry
  import opened CoordinatorServer
  import opened CoordinatorClient
  import opened CoordinatorSafety
  import opened Coordination

  /** What is believed at the far end of each live connection. */
  type Views = map<nat, seq<PeerInfo>>

  /** Believing v and still to read the outbox, p's client ends up with everybody on the list but itself. */
  predicate Convergent(s: Server, p: Peer, v: seq<PeerInfo>)
    requires p.connectionId in s.links
  {
    Fold(v, s.links[p.connectionId].outbox) == ListExcept(s.registry, p.info.deviceId)
  }

  predicate Listening(s: Server, views: Views, p: Peer) {
    p.connectionId in views && p.connectionId in s.links && s.links[p.connectionId].ready.Open?
  }

  predicate ViewInv(s: Server, views: Views) {
    forall p :: p in s.registry && Listening(s, views, p) ==> Convergent(s, p, views[p.connectionId])
  }

  // ---- the server's steps ----

  lemma BroadcastMakesViews(dev: Devices, s: Server, views: Views)
    requires TablesInv(dev, s)
    ensures ViewInv(BroadcastList(s), views)
  {
    var s' := BroadcastList(s);
    BroadcastKeepsTables(dev, s);
    forall p | p in s'.registry && Listening(s', views, p) ensures Convergent(s', p, views[p.connectionId]) {
      var i :| 0 <= i < |s.registry| && s.registry[i] == p;
      BroadcastEnds(dev, s, i);
      FoldAfterList(views[p.connectionId], s'.links[p.connectionId].outbox, ListExcept(s.registry, p.info.deviceId));
    }
  }

  lemma CleanupKeepsViews(dev: Devices, s: Server, c: nat, views: Views)
    requires TablesInv(dev, s) && ViewInv(s, views)
    ensures ViewInv(Cleanup(s, c), views)
  {
    var removed := FindByConnection(s.registry, c);
    if removed.Some? {
      WithoutConnectionKeepsTables(dev, s, c);
      var s1 := s.(sockets := s.sockets - {c}, registry := WithoutConnection(s.registry, c));
      BroadcastMakesViews(dev, BroadcastLeft(s1, removed.value), views);
    } else {
      NoneOfConnection(s.registry, c);
    }
  }

  /** A message that is no list and no departure leaves every view alone. */
  lemma NeutralSendKeepsViews(s: Server, c: nat, msg: ServerMessage, views: Views)
    requires ViewInv(s, views) && !msg.PeerList? && !msg.PeerLeft?
    ensures ViewInv(s.(links := SendTo(s.links, c, msg)), views)
  {
    var s' := s.(links := SendTo(s.links, c, msg));
    forall p | p in s'.registry && Listening(s', views, p) ensures Convergent(s', p, views[p.connectionId]) {
      assert Listening(s, views, p);
      FoldPush(views[p.connectionId], s.links[p.connectionId].outbox, msg);
    }
  }

  lemma TouchKeepsViews(s: Server, deviceId: string, views: Views)
    requires ViewInv(s, views)
    ensures ViewInv(s.(registry := Touch(s.registry, deviceId, s.now)), views)
  {
    var s' := s.(registry := Touch(s.registry, deviceId, s.now));
    TouchContents(s.registry, deviceId, s.now);
    forall p | p in s'.registry && Listening(s', views, p) ensures Convergent(s', p, views[p.connectionId]) {
      var q :| q in s.registry && p == TouchOne(q, deviceId, s.now);
      assert Listening(s, views, q);
      TouchKeepsLists(s.registry, deviceId, s.now, p.info.deviceId);
    }
  }

  lemma CloseLinkKeepsViews(s: Server, c: nat, views: Views)
    requires ViewInv(s, views)
    ensures ViewInv(CloseLink(s, c), views)
  {
    var s' := CloseLink(s, c);
    forall p | p in s'.registry && Listening(s', views, p) ensures Convergent(s', p, views[p.connectionId]) {
      assert Listening(s, views, p);
    }
  }

  lemma {:induction false} EvictKeepsViews(dev: Devices, s: Server, stale: Peers, views: Views)
    requires TablesInv(dev, s) && ViewInv(s, views)
    ensures ViewInv(Evict(s, stale), views)
    decreases |stale|
  {
    if stale != [] {
      var c := stale[0].connectionId;
      var s1 := if c in s.sockets then CloseLink(s, c) else s;
      CloseLinkKeepsViews(s, c, views);
      CleanupKeepsTables(dev, s1, c);
      CleanupKeepsViews(dev, s1, c, views);
      EvictKeepsViews(dev, Cleanup(s1, c), stale[1..], views);
    }
  }

  lemma SweepKeepsViews(dev: Devices, s: Server, views: Views)
    requires TablesInv(dev, s) && ViewInv(s, views)
    ensures ViewInv(SweepStalePeers(s), views)
  {
    var stale := FindStale(s.registry, HEARTBEAT_TIMEOUT_MS, s.now);
    EvictKeepsViews(dev, s, stale, views);
    var s1 := Evict(s, stale);
    assert forall p :: p in s1.registry && Listening(s1, views, p) ==> Convergent(s1, p, views[p.connectionId]);
    var s2 := SweepStalePeers(s);
    forall p | p in s2.registry && Listening(s2, views, p) ensures Convergent(s2, p, views[p.connectionId]) {
      assert Listening(s1, views, p);
    }
  }

  lemma RegisterKeepsViews(dev: Devices, s: Server, c: nat, info: PeerInfo, version: int, views: Views)
    requires TablesInv(dev, s) && ViewInv(s, views) && c in s.links && info.deviceId == dev(c)
    ensures ViewInv(OnRegister(s, c, info, version), views)
  {
    if version > PROTOCOL_VERSION {
      NeutralSendKeepsViews(s, c, RegisterRejected, views);
    } else {
      EnlistedKeepsTables(dev, s, c, info);
      BroadcastMakesViews(dev, Enlisted(s, c, info), views);
      assert OnRegister(s, c, info, version) == BroadcastList(Enlisted(s, c, info));
    }
  }

  lemma HeartbeatKeepsViews(s: Server, c: nat, deviceId: string, views: Views)
    requires ViewInv(s, views)
    ensures ViewInv(OnHeartbeat(s, c, deviceId), views)
  {
    TouchKeepsViews(s, deviceId, views);
    NeutralSendKeepsViews(s.(registry := Touch(s.registry, deviceId, s.now)), c, HeartbeatAck(deviceId), views);
  }

  lemma SocketClosedKeepsViews(dev: Devices, s: Server, c: nat, views: Views)
    requires TablesInv(dev, s) && ViewInv(s, views) && c in s.links
    ensures ViewInv(Cleanup(s.(links := s.links[c := s.links[c].(ready := Closed)]), c), views)
  {
    var s' := s.(links := s.links[c := s.links[c].(ready := Closed)]);
    forall p | p in s'.registry && Listening(s', views, p) ensures Convergent(s', p, views[p.connectionId]) {
      assert Listening(s, views, p);
    }
    CleanupKeepsViews(dev, s', c, views);
  }

  lemma RelayKeepsViews(s: Server, c: nat, to: string, views: Views)
    requires ViewInv(s, views) && c in s.links
    ensures ViewInv(OnRelay(s, c, to), views)
  {
    var target := Get(s.registry, to);
    if s.links[c].device.Some? && target.Some? {
      NeutralSendKeepsViews(s, target.value.connectionId, Signal(s.links[c].device.value), views);
    }
  }

  /** The beliefs being what they are, nothing the server does spoils them. */
  lemma ServerKeepsViews(dev: Devices, s: Server, e: Event, views: Views)
    requires TablesInv(dev, s) && Disciplined(dev, e) && ViewInv(s, views)
    requires !e.Delivered? && !e.Connect? && !e.Tick?
    ensures ViewInv(Step(s, e), views)
  {
    match e
    case Register(c, info, version) => if Hears(s, c) { RegisterKeepsViews(dev, s, c, info, version, views); }
    case Heartbeat(c, deviceId) => HeartbeatKeepsViews(s, c, deviceId, views);
    case Relay(c, to) => if Hears(s, c) { RelayKeepsViews(s, c, to, views); }
    case Unregister(c) => CleanupKeepsViews(dev, s, c, views);
    case SocketClosed(c) => if Hears(s, c) { SocketClosedKeepsViews(dev, s, c, views); }
    case SocketError(c) => CleanupKeepsViews(dev, s, c, views);
    case Sweep => SweepKeepsViews(dev, s, views);
    case _ =>
  }

  lemma ConnectKeepsViews(dev: Devices, s: Server, c: nat, views: Views)
    requires TablesInv(dev, s) && ViewInv(s, views)
    ensures ViewInv(Step(s, Connect(c)), views)
  {
    var s' := Step(s, Connect(c));
    forall p | p in s'.registry && Listening(s', views, p) ensures Convergent(s', p, views[p.connectionId]) {
      assert Listening(s, views, p);
    }
  }

  lemma TickKeepsViews(s: Server, ms: nat, views: Views)
    requires ViewInv(s, views)
    ensures ViewInv(Step(s, Tick(ms)), views)
  {
    var s' := Step(s, Tick(ms));
    forall p | p in s'.registry && Listening(s', views, p) ensures Convergent(s', p, views[p.connectionId]) {
      assert Listening(s, views, p);
    }
  }

  // ---- the whole system ----

  /** Connection c is open in the browser and is the current socket of its client. */
  predicate Live(w: World, y: System, c: nat) {
    && c in y.sockets && y.sockets[c].ready.Ready?
    && w.owner(c) in y.clients && y.clients[w.owner(c)].ws == Some(c)
  }

  function LiveViews(w: World, y: System): Views {
    map c | c in y.sockets && Live(w, y, c) :: y.clients[w.owner(c)].peers
  }

  predicate HonestUplink(w: World, c: nat, k: Socket) {
    && (k.ready.Handshaking? ==> k.uplink == [])
    && forall m :: m in k.uplink && m.Hello? ==> m.info == w.info(w.owner(c))
  }

  /** Clients introduce themselves by their own name, and only on sockets that have opened. */
  predicate SocketsInv(w: World, y: System) {
    && (forall c :: c in y.sockets ==> HonestUplink(w, c, y.sockets[c]))
    && (forall c :: c in y.server.sockets ==> c in y.sockets && !y.sockets[c].ready.Handshaking?)
  }

  predicate SystemInv(w: World, y: System) {
    && TablesInv(DeviceOf(w), y.server)
    && SocketsInv(w, y)
    && ViewInv(y.server, LiveViews(w, y))
  }

  /** Only the registered connections matter to the views. */
  lemma ViewsShrink(dev: Devices, s: Server, views: Views, fewer: Views)
    requires TablesInv(dev, s) && ViewInv(s, views)
    requires forall c :: c in fewer && c in s.sockets ==> c in views && views[c] == fewer[c]
    ensures ViewInv(s, fewer)
  {
    forall p | p in s.registry && Listening(s, fewer, p) ensures Convergent(s, p, fewer[p.connectionId]) {
      assert p.connectionId in Connections(s.registry);
      assert Listening(s, views, p);
    }
  }

  lemma {:induction false} EvictShrinks(s: Server, stale: Peers)
    ensures Evict(s, stale).sockets <= s.sockets
    decreases |stale|
  {
    if stale != [] {
      var c := stale[0].connectionId;
      var s1 := if c in s.sockets then CloseLink(s, c) else s;
      CleanupSockets(s1, c);
      EvictShrinks(Cleanup(s1, c), stale[1..]);
    }
  }

  lemma CleanupSockets(s: Server, c: nat)
    ensures Cleanup(s, c).sockets == s.sockets - {c}
  {
  }

  /** Only a register adds to the socket table. */
  lemma StepSockets(s: Server, e: Event)
    ensures Step(s, e).sockets <= s.sockets + (if e.Register? then {e.c} else {})
  {
    match e
    case Unregister(c) => CleanupSockets(s, c);
    case SocketClosed(c) =>
      if Hears(s, c) { CleanupSockets(s.(links := s.links[c := s.links[c].(ready := Closed)]), c); }
    case SocketError(c) => CleanupSockets(s, c);
    case Sweep => EvictShrinks(s, FindStale(s.registry, HEARTBEAT_TIMEOUT_MS, s.now));
    case _ =>
  }

  lemma AnyEventKeepsViews(dev: Devices, s: Server, e: Event, views: Views)
    requires TablesInv(dev, s) && Disciplined(dev, e) && ViewInv(s, views) && !e.Delivered?
    ensures ViewInv(Step(s, e), views)
  {
    if e.Connect? {
      ConnectKeepsViews(dev, s, e.c, views);
    } else if e.Tick? {
      TickKeepsViews(s, e.ms, views);
    } else {
      ServerKeepsViews(dev, s, e, views);
    }
  }

  lemma ServerStepKeepsSockets(w: World, y: System, e: Event)
    requires SocketsInv(w, y)
    requires e.Register? ==> e.c in y.sockets && !y.sockets[e.c].ready.Handshaking?
    ensures SocketsInv(w, y.(server := Step(y.server, e)))
  {
    StepSockets(y.server, e);
  }

  lemma ServerStepKeepsSystem(w: World, y: System, e: Event)
    requires SystemInv(w, y) && !e.Delivered? && Disciplined(DeviceOf(w), e)
    requires e.Register? ==> e.c in y.sockets && !y.sockets[e.c].ready.Handshaking?
    ensures SystemInv(w, y.(server := Step(y.server, e)))
  {
    var y' := y.(server := Step(y.server, e));
    StepKeepsTables(DeviceOf(w), y.server, e);
    ServerStepKeepsSockets(w, y, e);
    AnyEventKeepsViews(DeviceOf(w), y.server, e, LiveViews(w, y));
    assert LiveViews(w, y') == LiveViews(w, y);
  }

  /** No registered connection gains a view between y and y', or sees its view changed. */
  predicate NoNewViews(w: World, y: System, y': System) {
    forall c :: c in y.server.sockets && Live(w, y', c) ==>
                  Live(w, y, c) && y'.clients[w.owner(c)].peers == y.clients[w.owner(c)].peers
  }

  lemma SameServer(w: World, y: System, y': System)
    requires SystemInv(w, y) && SocketsInv(w, y') && y'.server == y.server && NoNewViews(w, y, y')
    ensures SystemInv(w, y')
  {
    ViewsShrink(DeviceOf(w), y.server, LiveViews(w, y), LiveViews(w, y'));
  }

  lemma SetSocketKeepsSockets(w: World, y: System, c: nat, k: Socket)
    requires SocketsInv(w, y) && HonestUplink(w, c, k)
    requires c in y.server.sockets ==> !k.ready.Handshaking?
    ensures SocketsInv(w, y.(sockets := y.sockets[c := k]))
  {
  }

  lemma ClientsKeepSockets(w: World, y: System, clients: map<nat, Client>)
    requires SocketsInv(w, y)
    ensures SocketsInv(w, y.(clients := clients))
  {
  }

  lemma SendKeepsSystem(w: World, y: System, i: nat, msg: ClientMessage)
    requires SystemInv(w, y) && !msg.Hello?
    ensures SystemInv(w, Send(y, i, msg))
  {
    var y' := Send(y, i, msg);
    if y' != y {
      var c := y.clients[i].ws.value;
      assert HonestUplink(w, c, y.sockets[c]);
      SetSocketKeepsSockets(w, y, c, y.sockets[c].(uplink := y.sockets[c].uplink + [msg]));
      SameServer(w, y, y');
    }
  }

  lemma AdoptMakesNoViews(w: World, y: System, i: nat, c: nat, cl: Client)
    requires MayOpenSocket(w, y, i, c) && cl.ws == Some(c)
    ensures NoNewViews(w, y, Adopt(y, i, c, cl))
  {
  }

  lemma AdoptKeepsSystem(w: World, y: System, i: nat, c: nat, cl: Client)
    requires SystemInv(w, y) && MayOpenSocket(w, y, i, c) && cl.ws == Some(c)
    ensures SystemInv(w, Adopt(y, i, c, cl))
  {
    SetSocketKeepsSockets(w, y, c, Socket(Handshaking, []));
    ClientsKeepSockets(w, y.(sockets := y.sockets[c := Socket(Handshaking, [])]), y.clients[i := cl]);
    AdoptMakesNoViews(w, y, i, c, cl);
    SameServer(w, y, Adopt(y, i, c, cl));
  }

  lemma CloseSocketKeepsSystem(w: World, y: System, c: nat)
    requires SystemInv(w, y)
    ensures SystemInv(w, CloseSocket(y, c))
  {
    if c in y.sockets {
      assert HonestUplink(w, c, y.sockets[c]);
      SetSocketKeepsSockets(w, y, c, y.sockets[c].(ready := Leaving));
    }
    SameServer(w, y, CloseSocket(y, c));
  }

  lemma ForgetKeepsSystem(w: World, y: System, i: nat, cl: Client)
    requires SystemInv(w, y) && cl.ws == None
    ensures SystemInv(w, y.(clients := y.clients[i := cl]))
  {
    ClientsKeepSockets(w, y, y.clients[i := cl]);
    SameServer(w, y, y.(clients := y.clients[i := cl]));
  }

  lemma DisconnectKeepsSystem(w: World, y: System, i: nat)
    requires SystemInv(w, y) && i in y.clients
    ensures SystemInv(w, DoDisconnect(w, y, i))
  {
    var cl := y.clients[i];
    var y1 := Send(y, i, Goodbye(w.info(i).deviceId));
    SendKeepsSystem(w, y, i, Goodbye(w.info(i).deviceId));
    if cl.ws.Some? {
      CloseSocketKeepsSystem(w, y1, cl.ws.value);
      ForgetKeepsSystem(w, CloseSocket(y1, cl.ws.value), i, Disconnected(cl));
    } else {
      ForgetKeepsSystem(w, y1, i, Disconnected(cl));
    }
  }

  lemma OpenMakesNoViews(w: World, y: System, c: nat)
    requires Known(w, y, c) && c !in y.server.sockets
    ensures NoNewViews(w, y, DoOpen(w, y, c))
  {
  }

  lemma OpenKeepsSystem(w: World, y: System, c: nat)
    requires SystemInv(w, y) && Known(w, y, c) && y.sockets[c].ready.Handshaking?
    ensures SystemInv(w, DoOpen(w, y, c))
  {
    var y' := DoOpen(w, y, c);
    assert HonestUplink(w, c, y.sockets[c]);
    SetSocketKeepsSockets(w, y, c, y'.sockets[c]);
    ClientsKeepSockets(w, y.(sockets := y'.sockets), y'.clients);
    OpenMakesNoViews(w, y, c);
    SameServer(w, y, y');
  }

  lemma CloseMakesNoViews(w: World, y: System, c: nat, random: Random)
    requires Known(w, y, c)
    ensures NoNewViews(w, y, DoClose(w, y, c, random))
  {
  }

  lemma CloseKeepsSystem(w: World, y: System, c: nat, random: Random)
    requires SystemInv(w, y) && Known(w, y, c)
    ensures SystemInv(w, DoClose(w, y, c, random))
  {
    var y' := DoClose(w, y, c, random);
    assert HonestUplink(w, c, y.sockets[c]);
    SetSocketKeepsSockets(w, y, c, y'.sockets[c]);
    ClientsKeepSockets(w, y.(sockets := y'.sockets), y'.clients);
    CloseMakesNoViews(w, y, c, random);
    SameServer(w, y, y');
  }

  /** Taking a message off the uplink, before the server looks at it. */
  function Taken(y: System, c: nat): System
    requires c in y.sockets && y.sockets[c].uplink != []
  {
    y.(sockets := y.sockets[c := y.sockets[c].(uplink := y.sockets[c].uplink[1..])])
  }

  lemma TakenMakesNoViews(w: World, y: System, c: nat)
    requires c in y.sockets && y.sockets[c].uplink != []
    ensures NoNewViews(w, y, Taken(y, c))
  {
  }

  lemma TakenKeepsSystem(w: World, y: System, c: nat)
    requires SystemInv(w, y) && c in y.sockets && y.sockets[c].uplink != []
    ensures SystemInv(w, Taken(y, c))
    ensures Disciplined(DeviceOf(w), EventOf(c, y.sockets[c].uplink[0])) && !y.sockets[c].ready.Handshaking?
  {
    var k := y.sockets[c];
    assert HonestUplink(w, c, k) && k.uplink[0] in k.uplink;
    SetSocketKeepsSockets(w, y, c, k.(uplink := k.uplink[1..]));
    TakenMakesNoViews(w, y, c);
    SameServer(w, y, Taken(y, c));
  }

  lemma ReceiveKeepsSystem(w: World, y: System, c: nat)
    requires SystemInv(w, y) && c in y.sockets && y.sockets[c].uplink != []
    ensures SystemInv(w, DoReceive(y, c))
  {
    TakenKeepsSystem(w, y, c);
    ServerStepKeepsSystem(w, Taken(y, c), EventOf(c, y.sockets[c].uplink[0]));
  }

  /** Delivering a message that its client folds keeps everybody on course. */
  lemma DeliveredKeepsViews(s: Server, c: nat, views: Views, next: Views)
    requires ViewInv(s, views) && c in s.links && s.links[c].outbox != []
    requires forall d :: d in next ==> d in views
    requires forall d :: d in next && d != c ==> next[d] == views[d]
    requires c in next ==> next[c] == Apply(views[c], s.links[c].outbox[0])
    ensures ViewInv(Step(s, Delivered(c)), next)
  {
    var s' := Step(s, Delivered(c));
    forall p | p in s'.registry && Listening(s', next, p) ensures Convergent(s', p, next[p.connectionId]) {
      assert Listening(s, views, p);
      assert Convergent(s, p, views[p.connectionId]);
      if p.connectionId == c {
        FoldHead(views[c], s.links[c].outbox);
      }
    }
  }

  lemma ArriveViews(w: World, y: System, c: nat)
    requires c in y.server.links && y.server.links[c].outbox != [] && w.owner(c) in y.clients
    ensures var before, after := LiveViews(w, y), LiveViews(w, DoArrive(w, y, c));
            && (forall d :: d in after ==> d in before)
            && (forall d :: d in after && d != c ==> after[d] == before[d])
            && (c in after ==> after[c] == Apply(before[c], y.server.links[c].outbox[0]))
  {
    var y' := DoArrive(w, y, c);
    forall d | Live(w, y', d) ensures Live(w, y, d) {
    }
  }

  lemma ArriveKeepsSystem(w: World, y: System, c: nat)
    requires SystemInv(w, y) && c in y.server.links && y.server.links[c].outbox != [] && w.owner(c) in y.clients
    ensures SystemInv(w, DoArrive(w, y, c))
  {
    ArriveViews(w, y, c);
    DeliveredKeepsViews(y.server, c, LiveViews(w, y), LiveViews(w, DoArrive(w, y, c)));
    var y1 := y.(server := Step(y.server, Delivered(c)));
    assert SocketsInv(w, y1);
    ClientsKeepSockets(w, y1, DoArrive(w, y, c).clients);
    StepKeepsTables(DeviceOf(w), y.server, Delivered(c));
  }

  lemma StoppedTimerKeepsSystem(w: World, y: System, i: nat, c: nat)
    requires SystemInv(w, y) && i in y.clients && y.clients[i].manuallyStopped && y.clients[i].delays != []
    ensures SystemInv(w, y.(clients := y.clients[i := TimedOut(y.clients[i], c)]))
  {
    var clients := y.clients[i := TimedOut(y.clients[i], c)];
    ClientsKeepSockets(w, y, clients);
    SameServer(w, y, y.(clients := clients));
  }

  lemma ReconnectKeepsSystem(w: World, y: System, i: nat, c: nat)
    requires SystemInv(w, y)
    ensures SystemInv(w, Next(w, y, Reconnects(i, c)))
  {
    if MayOpenSocket(w, y, i, c) && y.clients[i].delays != [] {
      if y.clients[i].manuallyStopped {
        StoppedTimerKeepsSystem(w, y, i, c);
      } else {
        AdoptKeepsSystem(w, y, i, c, TimedOut(y.clients[i], c));
      }
    }
  }

  /** What a client does of its own accord. */
  predicate OnlyClient(a: Action) {
    a.Create? || a.Connects? || a.Retries? || a.Reconnects? || a.Disconnects? || a.Beats? || a.Signals?
  }

  lemma ClientActionKeepsSystem(w: World, y: System, a: Action)
    requires SystemInv(w, y) && OnlyClient(a)
    ensures SystemInv(w, Next(w, y, a))
  {
    match a
    case Create(i) => ForgetKeepsSystem(w, y, i, IDLE);
    case Connects(i, c) => if MayOpenSocket(w, y, i, c) { AdoptKeepsSystem(w, y, i, c, Connected(y.clients[i], c)); }
    case Retries(i, c) => if MayOpenSocket(w, y, i, c) { AdoptKeepsSystem(w, y, i, c, Retried(y.clients[i], c)); }
    case Reconnects(i, c) => ReconnectKeepsSystem(w, y, i, c);
    case Disconnects(i) => if i in y.clients { DisconnectKeepsSystem(w, y, i); }
    case Beats(i) => SendKeepsSystem(w, y, i, ClientMessage.Beat(w.info(i).deviceId));
    case Signals(i, to) => SendKeepsSystem(w, y, i, SignalTo(to));
  }

  /** What the server does of its own accord, or its network layer to it. */
  predicate OnlyServer(a: Action) {
    a.Accepted? || a.ServerCloses? || a.ServerErrors? || a.Sweeps? || a.Ticks?
  }

  function ServerEvent(a: Action): Event
    requires OnlyServer(a)
  {
    match a
    case Accepted(c) => Connect(c)
    case ServerCloses(c) => SocketClosed(c)
    case ServerErrors(c) => SocketError(c)
    case Sweeps => Sweep
    case Ticks(ms) => Tick(ms)
  }

  lemma ServerActionSteps(w: World, y: System, a: Action)
    requires OnlyServer(a)
    ensures Next(w, y, a) == y || Next(w, y, a) == y.(server := Step(y.server, ServerEvent(a)))
  {
  }

  lemma ServerActionKeepsSystem(w: World, y: System, a: Action)
    requires SystemInv(w, y) && OnlyServer(a)
    ensures SystemInv(w, Next(w, y, a))
  {
    ServerActionSteps(w, y, a);
    ServerStepKeepsSystem(w, y, ServerEvent(a));
  }

  lemma OpensKeepsSystem(w: World, y: System, c: nat)
    requires SystemInv(w, y)
    ensures SystemInv(w, Next(w, y, Opens(c)))
  {
    if Known(w, y, c) && y.sockets[c].ready.Handshaking? {
      OpenKeepsSystem(w, y, c);
    }
  }

  lemma ReceivedKeepsSystem(w: World, y: System, c: nat)
    requires SystemInv(w, y)
    ensures SystemInv(w, Next(w, y, Received(c)))
  {
    if c in y.sockets && y.sockets[c].uplink != [] {
      ReceiveKeepsSystem(w, y, c);
    }
  }

  /** What happens on a socket between the two. */
  lemma SocketActionKeepsSystem(w: World, y: System, a: Action)
    requires SystemInv(w, y) && !OnlyClient(a) && !OnlyServer(a)
    ensures SystemInv(w, Next(w, y, a))
  {
    match a
    case Errors(c) => CloseSocketKeepsSystem(w, y, c);
    case Opens(c) => OpensKeepsSystem(w, y, c);
    case Closes(c, random) => if Known(w, y, c) { CloseKeepsSystem(w, y, c, random); }
    case Received(c) => ReceivedKeepsSystem(w, y, c);
    case Arrives(c) =>
      if c in y.server.links && y.server.links[c].outbox != [] && w.owner(c) in y.clients {
        ArriveKeepsSystem(w, y, c);
      }
  }

  lemma NextKeepsSystem(w: World, y: System, a: Action)
    requires SystemInv(w, y)
    ensures SystemInv(w, Next(w, y, a))
  {
    if OnlyClient(a) {
      ClientActionKeepsSystem(w, y, a);
    } else if OnlyServer(a) {
      ServerActionKeepsSystem(w, y, a);
    } else {
      SocketActionKeepsSystem(w, y, a);
    }
  }

  lemma {:induction false} RunsKeepSystem(w: World, actions: seq<Action>, ys: seq<System>)
    requires Runs(w, actions, ys)
    ensures SystemInv(w, ys[|actions|])
  {
    if actions != [] {
      var n := |actions| - 1;
      RunPrefix(w, actions, ys);
      RunsKeepSystem(w, actions[..n], ys[..n + 1]);
      NextKeepsSystem(w, ys[n], actions[n]);
    }
  }

  /**
   * In every reachable state a registered client whose socket is open and current,
   * once it has read what is on its way, believes exactly the registry without
   * itself: every other registered device once, in the order of the registry.
   */
  lemma ViewsConverge(w: World, y: System, i: nat)
    requires Reachable(w, y) && i < |y.server.registry|
    requires var c := y.server.registry[i].connectionId;
             Live(w, y, c) && c in y.server.links && y.server.links[c].ready.Open?
    ensures var p := y.server.registry[i];
            var me := w.owner(p.connectionId);
            && p.info.deviceId == w.info(me).deviceId
            && Others(y.server.registry, i, Fold(y.clients[me].peers, y.server.links[p.connectionId].outbox))
  {
    var actions, ys :| Runs(w, actions, ys) && ys[|actions|] == y;
    var p := y.server.registry[i];
    RunsKeepSystem(w, actions, ys);
    assert p in y.server.registry && Listening(y.server, LiveViews(w, y), p);
    assert Convergent(y.server, p, LiveViews(w, y)[p.connectionId]);
    ListExceptIsOthers(y.server.registry, i);
  }

  /** With nothing on its way, what the client shows is the registry without itself. */
  lemma QuietViewIsTheRegistry(w: World, y: System, i: nat)
    requires Reachable(w, y) && i < |y.server.registry|
    requires var c := y.server.registry[i].connectionId;
             Live(w, y, c) && c in y.server.links && y.server.links[c].ready.Open? && y.server.links[c].outbox == []
    ensures Others(y.server.registry, i, y.clients[w.owner(y.server.registry[i].connectionId)].peers)
  {
    ViewsConverge(w, y, i);
  }

  // ---- how long a client waits ----

  predicate ClientsInv(y: System) {
    forall i :: i in y.clients ==> ClientInv(y.clients[i])
  }

  lemma ClosingKeepsClients(w: World, y: System, c: nat, random: Random)
    requires ClientsInv(y) && Known(w, y, c)
    ensures ClientsInv(DoClose(w, y, c, random))
  {
    CloseKeepsClient(y.clients[w.owner(c)], c, random);
  }

  lemma OtherNextKeepsClients(w: World, y: System, a: Action)
    requires ClientsInv(y) && !a.Closes?
    ensures ClientsInv(Next(w, y, a))
  {
    match a
    case Reconnects(i, c) => TimerKeepsClients(w, y, i, c);
    case Disconnects(i) => if i in y.clients { DisconnectKeepsClients(w, y, i); }
    case Opens(c) =>
    case Arrives(c) =>
    case _ =>
  }

  lemma TimerKeepsClients(w: World, y: System, i: nat, c: nat)
    requires ClientsInv(y)
    ensures ClientsInv(Next(w, y, Reconnects(i, c)))
  {
    if i in y.clients && y.clients[i].delays != [] {
      assert ClientInv(y.clients[i]);
      assert forall d :: d in y.clients[i].delays[1..] ==> d in y.clients[i].delays;
    }
  }

  lemma DisconnectKeepsClients(w: World, y: System, i: nat)
    requires ClientsInv(y) && i in y.clients
    ensures ClientsInv(DoDisconnect(w, y, i))
  {
  }

  lemma {:induction false} RunsKeepClients(w: World, actions: seq<Action>, ys: seq<System>)
    requires Runs(w, actions, ys)
    ensures ClientsInv(ys[|actions|])
  {
    if actions != [] {
      var n := |actions| - 1;
      RunPrefix(w, actions, ys);
      RunsKeepClients(w, actions[..n], ys[..n + 1]);
      var a := actions[n];
      if !a.Closes? {
        OtherNextKeepsClients(w, ys[n], a);
      } else if Known(w, ys[n], a.c) {
        ClosingKeepsClients(w, ys[n], a.c, a.random);
      }
    }
  }

  /** In every reachable state every reconnect timer of every client is armed with less than the cap of ten seconds. */
  lemma DelaysStayBelowTheCap(w: World, y: System, i: nat)
    requires Reachable(w, y) && i in y.clients
    ensures y.clients[i].reconnectAttempt <= RECONNECT_ATTEMPTS_BEFORE_GIVING_UP
    ensures forall d :: d in y.clients[i].delays ==> 400.0 <= d < 9600.0 < RECONNECT_MAX_MS as real
  {
    var actions, ys :| Runs(w, actions, ys) && ys[|actions|] == y;
    RunsKeepClients(w, actions, ys);
    assert ClientInv(y.clients[i]);
  }
}
