/** From one end of a connection to the other: what a client sends, and what the server makes of it. */
module CoordinationPaths {
  import opened Basics
  import opened PeerRegistry
  import opened CoordinatorServer
  import opened CoordinatorClient
  import opened CoordinatorSafety
  import opened CoordinatorReplies
  import opened Coordination
  import opened ViewConvergence

  /** The socket its client sends on, if that is open. */
  predicate Sends(y: System, i: nat, c: nat) {
    i in y.clients && y.clients[i].ws == Some(c) && c in y.sockets && y.sockets[c].ready.Ready?
  }

  /** The uplink of c has grown by these, and nothing else has changed. */
  predicate Uplinked(y: System, y': System, c: nat, msgs: seq<ClientMessage>) {
    && c in y.sockets
    && y' == y.(sockets := y.sockets[c := y.sockets[c].(uplink := y.sockets[c].uplink + msgs)])
  }

  /** Heartbeats and signals go out on the current socket while it is open, behind what is on its way, or not at all. */
  lemma ClientSends(w: World, y: System, i: nat, to: string)
    ensures forall c :: Sends(y, i, c) ==>
              Uplinked(y, Next(w, y, Beats(i)), c, [Beat(w.info(i).deviceId)])
              && Uplinked(y, Next(w, y, Signals(i, to)), c, [SignalTo(to)])
    ensures (forall c :: !Sends(y, i, c)) ==> Next(w, y, Beats(i)) == y && Next(w, y, Signals(i, to)) == y
  {
    if exists c :: Sends(y, i, c) {
      var c :| Sends(y, i, c);
    } else if i in y.clients && y.clients[i].ws.Some? {
      assert !Sends(y, i, y.clients[i].ws.value);
    }
  }

  /** A client that disconnects says goodbye on an open socket, closes it, and has none. */
  lemma ClientSaysGoodbye(w: World, y: System, i: nat, c: nat)
    requires Sends(y, i, c)
    ensures var y' := Next(w, y, Disconnects(i));
            && y'.server == y.server
            && y'.sockets == y.sockets[c := Socket(Leaving, y.sockets[c].uplink + [Goodbye(w.info(i).deviceId)])]
            && y'.clients == y.clients[i := y.clients[i].(ws := None, manuallyStopped := true)]
  {
  }

  // ---- the life of a socket ----

  /** A client that connects, retries or is woken by its timer gets a new socket, unless its host has hung up. */
  lemma NewSocketShakesHands(w: World, y: System, i: nat, c: nat)
    requires i in y.clients && w.owner(c) == i && c !in y.sockets
    ensures var with := y.sockets[c := Socket(Handshaking, [])];
            && Next(w, y, Connects(i, c)).sockets == with && Next(w, y, Retries(i, c)).sockets == with
            && Next(w, y, Reconnects(i, c)).sockets
               == if y.clients[i].delays != [] && !y.clients[i].manuallyStopped then with else y.sockets
  {
  }

  /** An error on the current socket makes its client close it; a socket that has closed is gone. */
  lemma SocketGivesWay(w: World, y: System, c: nat, random: Random)
    requires Known(w, y, c) && !y.sockets[c].ready.Gone?
    ensures Next(w, y, Closes(c, random)).sockets == y.sockets[c := y.sockets[c].(ready := Gone)]
    ensures Next(w, y, Errors(c))
         == if y.clients[w.owner(c)].ws == Some(c) then y.(sockets := y.sockets[c := y.sockets[c].(ready := Leaving)])
            else y
  {
  }

  function Age(ready: Readiness): nat {
    match ready
    case Handshaking => 0
    case Ready => 1
    case Leaving => 2
    case Gone => 3
  }

  /** A socket never goes back, and none of it is lost but what the server takes, from the front. */
  predicate GoesForward(before: Socket, after: Socket, taken: bool) {
    && Age(before.ready) <= Age(after.ready)
    && if taken then before.uplink != [] && after.uplink == before.uplink[1..] else before.uplink <= after.uplink
  }

  lemma ClientActionGoesForward(w: World, y: System, a: Action, c: nat)
    requires c in y.sockets && OnlyClient(a)
    ensures var y' := Next(w, y, a);
            c in y'.sockets && GoesForward(y.sockets[c], y'.sockets[c],
                                           a == Received(c) && y.sockets[c].uplink != [] && IsUp(y.server, c))
  {
  }

  lemma ServerActionGoesForward(w: World, y: System, a: Action, c: nat)
    requires c in y.sockets && OnlyServer(a)
    ensures var y' := Next(w, y, a);
            c in y'.sockets && GoesForward(y.sockets[c], y'.sockets[c],
                                           a == Received(c) && y.sockets[c].uplink != [] && IsUp(y.server, c))
  {
  }

  lemma SocketActionGoesForward(w: World, y: System, a: Action, c: nat)
    requires c in y.sockets && !OnlyClient(a) && !OnlyServer(a)
    ensures var y' := Next(w, y, a);
            c in y'.sockets && GoesForward(y.sockets[c], y'.sockets[c],
                                           a == Received(c) && y.sockets[c].uplink != [] && IsUp(y.server, c))
  {
  }

  lemma SocketsGoForward(w: World, y: System, a: Action, c: nat)
    requires c in y.sockets
    ensures var y' := Next(w, y, a);
            c in y'.sockets && GoesForward(y.sockets[c], y'.sockets[c],
                                           a == Received(c) && y.sockets[c].uplink != [] && IsUp(y.server, c))
  {
    if OnlyClient(a) {
      ClientActionGoesForward(w, y, a, c);
    } else if OnlyServer(a) {
      ServerActionGoesForward(w, y, a, c);
    } else {
      SocketActionGoesForward(w, y, a, c);
    }
  }

  /** What the server makes of a client's message. */
  predicate IsHandled(s: Server, s': Server, c: nat, msg: ClientMessage) {
    match msg
    case Hello(info, version) => s' == Step(s, Register(c, info, version))
    case SignalTo(to) => s' == Step(s, Relay(c, to))
    case Beat(deviceId) => s' == Step(s, Heartbeat(c, deviceId))
    case Goodbye(_) => s' == Step(s, Unregister(c))
  }

  /** The server takes the oldest message of an uplink it hears, as what it is. */
  lemma UplinkIsHandled(w: World, y: System, c: nat)
    requires c in y.sockets && y.sockets[c].uplink != [] && IsUp(y.server, c)
    ensures var y' := Next(w, y, Received(c));
            && IsHandled(y.server, y'.server, c, y.sockets[c].uplink[0]) && y'.clients == y.clients
            && y'.sockets == y.sockets[c := y.sockets[c].(uplink := y.sockets[c].uplink[1..])]
  {
  }

  /** The socket is its client's current one and about to open, and the server has accepted it. */
  predicate AboutToOpen(w: World, y: System, c: nat) {
    && Known(w, y, c) && y.sockets[c].ready.Handshaking? && y.clients[w.owner(c)].ws == Some(c)
    && IsUp(y.server, c)
  }

  lemma OpeningGreets(w: World, y: System, c: nat)
    requires SystemInv(w, y) && AboutToOpen(w, y, c)
    ensures var y' := Next(w, y, Opens(c));
            && y'.server == y.server && c in y'.sockets
            && y'.sockets[c] == Socket(Ready, [Hello(w.info(w.owner(c)), PROTOCOL_VERSION)])
            && w.owner(c) in y'.clients && y'.clients[w.owner(c)].state == Online
  {
    assert HonestUplink(w, c, y.sockets[c]);
  }

  lemma GreetingIsTaken(w: World, y: System, c: nat)
    requires SystemInv(w, y) && AboutToOpen(w, y, c)
    ensures Next(w, Next(w, y, Opens(c)), Received(c)).server
         == Step(y.server, Register(c, w.info(w.owner(c)), PROTOCOL_VERSION))
  {
    OpeningGreets(w, y, c);
    UplinkIsHandled(w, Next(w, y, Opens(c)), c);
  }

  lemma RegisterEnlists(s: Server, c: nat, info: PeerInfo)
    requires DistinctDevices(s.registry) && IsUp(s, c)
    ensures Peer(info, s.now, c) in Step(s, Register(c, info, PROTOCOL_VERSION)).registry
  {
    PutContents(s.registry, Peer(info, s.now, c));
    assert Step(s, Register(c, info, PROTOCOL_VERSION)).registry == Put(s.registry, Peer(info, s.now, c));
  }

  lemma ReachableKeepsSystem(w: World, y: System)
    requires Coordination.Reachable(w, y)
    ensures SystemInv(w, y)
  {
    var actions, ys :| Runs(w, actions, ys) && ys[|actions|] == y;
    RunsKeepSystem(w, actions, ys);
  }

  /**
   * A socket that opens registers its device: in every reachable state, once it
   * has opened and the server has taken its first message, the device is on the
   * list, on this connection, heard of now, and everybody listed whose connection
   * is open is sent the list of the others.
   */
  lemma OpenedSocketRegisters(w: World, y: System, c: nat)
    requires Coordination.Reachable(w, y) && AboutToOpen(w, y, c)
    ensures var s, s' := y.server, Next(w, Next(w, y, Opens(c)), Received(c)).server;
            && Peer(w.info(w.owner(c)), s.now, c) in s'.registry
            && forall i :: 0 <= i < |s'.registry| ==> GetsList(s.links, s'.links, [], s'.registry, i)
  {
    ReachableKeepsSystem(w, y);
    GreetingIsTaken(w, y, c);
    RegisterEnlists(y.server, c, w.info(w.owner(c)));
    RegisterTells(DeviceOf(w), y.server, c, w.info(w.owner(c)), PROTOCOL_VERSION);
  }
}
