/** coordinator/src/server.ts: the registry and the socket table behind the signaling socket. */
module CoordinatorServer {
  import opened Basics
  import opened PeerRegistry

  const PROTOCOL_VERSION: int := 1
  const HEARTBEAT_TIMEOUT_MS: int := 15000
  const COORDINATOR_SWEEP_INTERVAL_MS: int := 5000

  datatype ServerMessage =
    | PeerList(peers: seq<PeerInfo>)
    | PeerLeft(deviceId: string)
    | Signal(from: string)
    | HeartbeatAck(deviceId: string)
    | RegisterRejected

  datatype ReadyState = Open | Closing | Closed

  /** One WebSocket as the server sees it: its state, what was sent and not yet delivered, and its `deviceId`. */
  datatype Link = Link(ready: ReadyState, outbox: seq<ServerMessage>, device: Option<string>)

  datatype Server = Server(registry: Peers, sockets: set<nat>, links: map<nat, Link>, now: int, lastSweep: int)

  datatype Event =
    | Connect(c: nat)
    | Register(c: nat, info: PeerInfo, protocolVersion: int)
    | Heartbeat(c: nat, deviceId: string)
    | Relay(c: nat, to: string)
    | Unregister(c: nat)
    | SocketClosed(c: nat)
    | SocketError(c: nat)
    | Delivered(c: nat)
    | Sweep
    | Tick(ms: nat)

  const FRESH: Server := Server([], {}, map[], 0, 0)

  // ---- sending ----

  /** send(): only an open socket takes a message. */
  function Push(l: Link, msg: ServerMessage): Link {
    if l.ready.Open? then l.(outbox := l.outbox + [msg]) else l
  }

  function SendTo(links: map<nat, Link>, c: nat, msg: ServerMessage): map<nat, Link> {
    if c in links then links[c := Push(links[c], msg)] else links
  }

  /** broadcastPeerListToAll over the first k peers of the list. */
  function BroadcastUpTo(s: Server, k: nat): map<nat, Link>
    requires k <= |s.registry|
  {
    if k == 0 then s.links
    else
      var p := s.registry[k - 1];
      var links := BroadcastUpTo(s, k - 1);
      if p.connectionId in s.sockets
      then SendTo(links, p.connectionId, PeerList(ListExcept(s.registry, p.info.deviceId)))
      else links
  }

  function BroadcastList(s: Server): Server {
    s.(links := BroadcastUpTo(s, |s.registry|))
  }

  function BroadcastLeft(s: Server, deviceId: string): Server {
    s.(links := map c | c in s.links :: if c in s.sockets then Push(s.links[c], PeerLeft(deviceId)) else s.links[c])
  }

  /** ws.close() on an open socket starts the closing handshake. */
  function CloseLink(s: Server, c: nat): Server {
    if c in s.links && s.links[c].ready.Open? then s.(links := s.links[c := s.links[c].(ready := Closing)]) else s
  }

  // ---- the handlers ----

  function Cleanup(s: Server, c: nat): Server {
    var removed := FindByConnection(s.registry, c);
    var s' := s.(sockets := s.sockets - {c}, registry := WithoutConnection(s.registry, c));
    match removed
    case None => s'
    case Some(deviceId) => BroadcastList(BroadcastLeft(s', deviceId))
  }

  /** A live registration of the device on another connection is replaced and its socket closed. */
  function ReplaceStale(s: Server, c: nat, deviceId: string): Server {
    var existing := Get(s.registry, deviceId);
    if existing.Some? && existing.value.connectionId != c then
      var stale := existing.value.connectionId;
      if stale in s.sockets then CloseLink(s.(sockets := s.sockets - {stale}), stale) else s
    else s
  }

  function OnRegister(s: Server, c: nat, info: PeerInfo, protocolVersion: int): Server
    requires c in s.links
  {
    if protocolVersion > PROTOCOL_VERSION then s.(links := SendTo(s.links, c, RegisterRejected))
    else
      var s1 := ReplaceStale(s, c, info.deviceId);
      BroadcastList(s1.(sockets := s1.sockets + {c},
                        links := if c in s1.links then s1.links[c := s1.links[c].(device := Some(info.deviceId))]
                                 else s1.links,
                        registry := Put(s1.registry, Peer(info, s1.now, c))))
  }

  function OnHeartbeat(s: Server, c: nat, deviceId: string): Server {
    s.(registry := Touch(s.registry, deviceId, s.now), links := SendTo(s.links, c, HeartbeatAck(deviceId)))
  }

  function OnRelay(s: Server, c: nat, to: string): Server
    requires c in s.links
  {
    var target := Get(s.registry, to);
    if s.links[c].device.None? || target.None? || target.value.connectionId !in s.sockets then s
    else s.(links := SendTo(s.links, target.value.connectionId, Signal(s.links[c].device.value)))
  }

  /** Evicts the peers of the list in order. */
  function Evict(s: Server, stale: Peers): Server
    decreases |stale|
  {
    if stale == [] then s
    else
      var c := stale[0].connectionId;
      Evict(Cleanup(if c in s.sockets then CloseLink(s, c) else s, c), stale[1..])
  }

  function SweepStalePeers(s: Server): Server {
    Evict(s, FindStale(s.registry, HEARTBEAT_TIMEOUT_MS, s.now)).(lastSweep := s.now)
  }

  /** Messages reach the handlers until the socket is closed for good. */
  predicate Hears(s: Server, c: nat) {
    c in s.links && !s.links[c].ready.Closed?
  }

  function Step(s: Server, e: Event): Server {
    match e
    case Connect(c) => if c in s.links then s else s.(links := s.links[c := Link(Open, [], None)])
    case Register(c, info, version) => if Hears(s, c) then OnRegister(s, c, info, version) else s
    case Heartbeat(c, deviceId) => if Hears(s, c) then OnHeartbeat(s, c, deviceId) else s
    case Relay(c, to) => if Hears(s, c) then OnRelay(s, c, to) else s
    case Unregister(c) => if Hears(s, c) then Cleanup(s, c) else s
    case SocketClosed(c) =>
      if Hears(s, c) then Cleanup(s.(links := s.links[c := s.links[c].(ready := Closed)]), c) else s
    case SocketError(c) => if Hears(s, c) then Cleanup(s, c) else s
    case Delivered(c) =>
      if c in s.links && s.links[c].outbox != []
      then s.(links := s.links[c := s.links[c].(outbox := s.links[c].outbox[1..])]) else s
    case Sweep => SweepStalePeers(s)
    case Tick(ms) => if s.now + ms <= s.lastSweep + COORDINATOR_SWEEP_INTERVAL_MS then s.(now := s.now + ms) else s
  }

  function Run(s: Server, events: seq<Event>): Server {
    if |events| == 0 then s else Step(Run(s, events[..|events| - 1]), events[|events| - 1])
  }
}
