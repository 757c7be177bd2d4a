/** What the coordinator keeps: its two tables, what it has told every socket, and when a peer is swept. */
module CoordinatorSafety {
  import opened Basics
  import opened PeerRegistry
  import opened CoordinatorServer

  /** Connection c registers the device dev(c) and no other. */
  type Devices = nat -> string

  predicate Disciplined(dev: Devices, e: Event) {
    e.Register? ==> e.info.deviceId == dev(e.c)
  }

  function Connections(peers: Peers): set<nat> {
    set p | p in peers :: p.connectionId
  }

  /** One entry per device, on a connection of that device; the sockets are the connections of the entries. */
  predicate TablesInv(dev: Devices, s: Server) {
    && DistinctDevices(s.registry)
    && (forall p :: p in s.registry ==> p.info.deviceId == dev(p.connectionId) && p.connectionId in s.links)
    && s.sockets == Connections(s.registry)
  }

  lemma DevicesSeparateConnections(dev: Devices, peers: Peers)
    requires DistinctDevices(peers) && forall p :: p in peers ==> p.info.deviceId == dev(p.connectionId)
    ensures DistinctConnections(peers)
  {
    forall i, j | 0 <= i < j < |peers| ensures peers[i].connectionId != peers[j].connectionId {
      assert peers[i] in peers && peers[j] in peers;
    }
  }

  // ---- broadcasting ----

  predicate EndsWith(out: seq<ServerMessage>, msg: ServerMessage) {
    out != [] && out[|out| - 1] == msg
  }

  predicate SameLinks(before: map<nat, Link>, after: map<nat, Link>) {
    && after.Keys == before.Keys
    && forall c :: c in before ==> after[c].ready == before[c].ready && after[c].device == before[c].device
  }

  lemma {:induction false} BroadcastKeepsLinks(s: Server, k: nat)
    requires k <= |s.registry|
    ensures SameLinks(s.links, BroadcastUpTo(s, k))
  {
    if k > 0 {
      BroadcastKeepsLinks(s, k - 1);
    }
  }

  lemma {:induction false} BroadcastReaches(s: Server, k: nat, i: nat)
    requires i < k <= |s.registry| && DistinctConnections(s.registry)
    requires s.registry[i].connectionId in s.sockets && s.registry[i].connectionId in s.links
    requires s.links[s.registry[i].connectionId].ready.Open?
    ensures s.registry[i].connectionId in BroadcastUpTo(s, k)
    ensures EndsWith(BroadcastUpTo(s, k)[s.registry[i].connectionId].outbox,
                     PeerList(ListExcept(s.registry, s.registry[i].info.deviceId)))
  {
    BroadcastKeepsLinks(s, k - 1);
    if i < k - 1 {
      BroadcastReaches(s, k - 1, i);
    }
  }

  /** The message is the list of everybody but the i-th peer. */
  predicate ListsOthers(peers: Peers, i: nat, msg: ServerMessage)
    requires i < |peers|
  {
    msg.PeerList? && Others(peers, i, msg.peers)
  }

  lemma BroadcastEnds(dev: Devices, s: Server, i: nat)
    requires TablesInv(dev, s) && i < |s.registry| && s.links[s.registry[i].connectionId].ready.Open?
    ensures var p, s' := s.registry[i], BroadcastList(s);
            && p.connectionId in s'.links
            && EndsWith(s'.links[p.connectionId].outbox, PeerList(ListExcept(s.registry, p.info.deviceId)))
  {
    DevicesSeparateConnections(dev, s.registry);
    assert s.registry[i] in s.registry && s.registry[i].connectionId in Connections(s.registry);
    BroadcastReaches(s, |s.registry|, i);
  }

  /** After a broadcast the last message of every registered peer with an open socket is the list of the others. */
  lemma BroadcastInforms(dev: Devices, s: Server, i: nat)
    requires TablesInv(dev, s) && i < |s.registry| && s.links[s.registry[i].connectionId].ready.Open?
    ensures var c, s' := s.registry[i].connectionId, BroadcastList(s);
            && c in s'.links && s'.links[c].outbox != []
            && ListsOthers(s.registry, i, s'.links[c].outbox[|s'.links[c].outbox| - 1])
  {
    BroadcastEnds(dev, s, i);
    ListExceptIsOthers(s.registry, i);
  }

  lemma BroadcastKeepsTables(dev: Devices, s: Server)
    requires TablesInv(dev, s)
    ensures TablesInv(dev, BroadcastList(s))
    ensures SameLinks(s.links, BroadcastList(s).links)
  {
    BroadcastKeepsLinks(s, |s.registry|);
  }

  // ---- every handler keeps the tables ----

  lemma WithoutConnectionKeepsTables(dev: Devices, s: Server, c: nat)
    requires TablesInv(dev, s)
    ensures TablesInv(dev, s.(sockets := s.sockets - {c}, registry := WithoutConnection(s.registry, c)))
  {
    DevicesSeparateConnections(dev, s.registry);
    WithoutConnectionContents(s.registry, c);
    var peers := WithoutConnection(s.registry, c);
    forall x ensures x in s.sockets - {c} <==> x in Connections(peers) {
      if x in s.sockets - {c} {
        var p :| p in s.registry && p.connectionId == x;
        assert p in peers;
      }
    }
  }

  lemma CleanupKeepsTables(dev: Devices, s: Server, c: nat)
    requires TablesInv(dev, s)
    ensures TablesInv(dev, Cleanup(s, c)) && Cleanup(s, c).now == s.now
    ensures Cleanup(s, c).registry == WithoutConnection(s.registry, c)
    ensures SameLinks(s.links, Cleanup(s, c).links)
  {
    WithoutConnectionKeepsTables(dev, s, c);
    var s1 := s.(sockets := s.sockets - {c}, registry := WithoutConnection(s.registry, c));
    var removed := FindByConnection(s.registry, c);
    if removed.Some? {
      BroadcastKeepsTables(dev, BroadcastLeft(s1, removed.value));
    }
  }

  /** A connection that has been replaced can close or fail as late as it likes: its replacement stays. */
  lemma LateCloseIsHarmless(dev: Devices, s: Server, c: nat)
    requires TablesInv(dev, s) && c !in s.sockets
    ensures Cleanup(s, c) == s
  {
    forall p | p in s.registry ensures p.connectionId != c {
      assert p.connectionId in Connections(s.registry);
    }
    NoneOfConnection(s.registry, c);
    assert s.sockets - {c} == s.sockets;
  }

  /** The tables just before the broadcast of a register. */
  function Enlisted(s: Server, c: nat, info: PeerInfo): Server
    requires c in s.links
  {
    var s1 := ReplaceStale(s, c, info.deviceId);
    s1.(sockets := s1.sockets + {c},
        links := if c in s1.links then s1.links[c := s1.links[c].(device := Some(info.deviceId))] else s1.links,
        registry := Put(s1.registry, Peer(info, s1.now, c)))
  }

  lemma ReplacedSockets(dev: Devices, s: Server, c: nat, deviceId: string)
    requires TablesInv(dev, s)
    ensures ReplaceStale(s, c, deviceId).sockets ==
              set p | p in s.registry && (p.info.deviceId == deviceId ==> p.connectionId == c) :: p.connectionId
    ensures ReplaceStale(s, c, deviceId).registry == s.registry
    ensures ReplaceStale(s, c, deviceId).links.Keys == s.links.Keys
  {
    DevicesSeparateConnections(dev, s.registry);
    var existing := Get(s.registry, deviceId);
    var after := ReplaceStale(s, c, deviceId).sockets;
    forall p | p in s.registry ensures p.connectionId in s.sockets {
      assert p.connectionId in Connections(s.registry);
    }
    forall p | p in s.registry && p.info.deviceId == deviceId
      ensures existing == Some(p)
    {
      var i :| 0 <= i < |s.registry| && s.registry[i] == p;
      var j :| 0 <= j < |s.registry| && s.registry[j] == existing.value;
    }
  }

  lemma EnlistedKeepsTables(dev: Devices, s: Server, c: nat, info: PeerInfo)
    requires TablesInv(dev, s) && c in s.links && info.deviceId == dev(c)
    ensures TablesInv(dev, Enlisted(s, c, info))
  {
    ReplacedSockets(dev, s, c, info.deviceId);
    var p := Peer(info, s.now, c);
    PutContents(s.registry, p);
    var s2 := Enlisted(s, c, info);
    assert p in s2.registry;
    forall x ensures x in s2.sockets <==> x in Connections(s2.registry) {
      if x in s2.sockets && x != c {
        var q :| q in s.registry && (q.info.deviceId == info.deviceId ==> q.connectionId == c) && q.connectionId == x;
        assert q in s2.registry;
      }
    }
  }

  lemma RegisterKeepsTables(dev: Devices, s: Server, c: nat, info: PeerInfo, version: int)
    requires TablesInv(dev, s) && c in s.links && info.deviceId == dev(c)
    ensures TablesInv(dev, OnRegister(s, c, info, version))
  {
    if version <= PROTOCOL_VERSION {
      EnlistedKeepsTables(dev, s, c, info);
      BroadcastKeepsTables(dev, Enlisted(s, c, info));
      assert OnRegister(s, c, info, version) == BroadcastList(Enlisted(s, c, info));
    }
  }

  lemma HeartbeatKeepsTables(dev: Devices, s: Server, c: nat, deviceId: string)
    requires TablesInv(dev, s)
    ensures TablesInv(dev, OnHeartbeat(s, c, deviceId))
  {
    TouchContents(s.registry, deviceId, s.now);
    var s' := OnHeartbeat(s, c, deviceId);
    forall x ensures x in Connections(s.registry) <==> x in Connections(s'.registry) {
      if x in Connections(s.registry) {
        var p :| p in s.registry && p.connectionId == x;
        assert TouchOne(p, deviceId, s.now) in s'.registry;
      }
    }
  }

  lemma {:induction false} EvictKeepsTables(dev: Devices, s: Server, stale: Peers)
    requires TablesInv(dev, s)
    ensures TablesInv(dev, Evict(s, stale))
    decreases |stale|
  {
    if stale != [] {
      var c := stale[0].connectionId;
      var s1 := if c in s.sockets then CloseLink(s, c) else s;
      CleanupKeepsTables(dev, s1, c);
      EvictKeepsTables(dev, Cleanup(s1, c), stale[1..]);
    }
  }

  lemma StepKeepsTables(dev: Devices, s: Server, e: Event)
    requires TablesInv(dev, s) && Disciplined(dev, e)
    ensures TablesInv(dev, Step(s, e))
  {
    match e
    case Register(c, info, version) => if Hears(s, c) { RegisterKeepsTables(dev, s, c, info, version); }
    case Heartbeat(c, deviceId) => if Hears(s, c) { HeartbeatKeepsTables(dev, s, c, deviceId); }
    case Unregister(c) => CleanupKeepsTables(dev, s, c);
    case SocketClosed(c) =>
      if Hears(s, c) { CleanupKeepsTables(dev, s.(links := s.links[c := s.links[c].(ready := Closed)]), c); }
    case SocketError(c) => CleanupKeepsTables(dev, s, c);
    case Sweep => EvictKeepsTables(dev, s, FindStale(s.registry, HEARTBEAT_TIMEOUT_MS, s.now));
    case _ =>
  }

  /** In every reachable state the registry's connections are distinct and are exactly the keys of the socket table. */
  lemma {:induction false} RunKeepsTables(dev: Devices, events: seq<Event>)
    requires forall e :: e in events ==> Disciplined(dev, e)
    ensures TablesInv(dev, Run(FRESH, events))
    ensures DistinctConnections(Run(FRESH, events).registry)
    ensures Run(FRESH, events).sockets == Connections(Run(FRESH, events).registry)
  {
    if events != [] {
      RunKeepsTables(dev, events[..|events| - 1]);
      StepKeepsTables(dev, Run(FRESH, events[..|events| - 1]), events[|events| - 1]);
    }
    DevicesSeparateConnections(dev, Run(FRESH, events).registry);
  }

  /** At most one entry of the list belongs to connection c. */
  predicate OneDeviceOn(peers: Peers, c: nat) {
    forall i, j :: 0 <= i < j < |peers| ==> !(peers[i].connectionId == c && peers[j].connectionId == c)
  }

  lemma OneDeviceTail(peers: Peers, c: nat)
    requires peers != []
    ensures peers[0].connectionId != c ==> (OneDeviceOn(peers, c) <==> OneDeviceOn(peers[1..], c))
    ensures peers[0].connectionId == c ==> (OneDeviceOn(peers, c) <==> c !in Connections(peers[1..]))
  {
    var rest := peers[1..];
    assert forall i :: 0 < i < |peers| ==> peers[i] == rest[i - 1];
    if peers[0].connectionId == c && c in Connections(rest) {
      var j :| 0 <= j < |rest| && rest[j].connectionId == c;
      assert peers[j + 1].connectionId == c;
    }
  }

  lemma ConnectionsOfCons(p: Peer, rest: Peers)
    ensures Connections([p] + rest) == {p.connectionId} + Connections(rest)
  {
    forall x ensures x in Connections([p] + rest) <==> x in {p.connectionId} + Connections(rest) {
      if x in Connections(rest) {
        var q :| q in rest && q.connectionId == x;
        assert q in [p] + rest;
      }
      assert p in [p] + rest;
    }
  }

  lemma {:induction false} WithoutOneEntry(peers: Peers, c: nat)
    ensures Connections(WithoutConnection(peers, c)) - {c} == Connections(peers) - {c}
    ensures c !in Connections(WithoutConnection(peers, c)) <==> OneDeviceOn(peers, c)
  {
    if peers != [] {
      var rest := peers[1..];
      OneDeviceTail(peers, c);
      assert peers == [peers[0]] + rest;
      ConnectionsOfCons(peers[0], rest);
      if peers[0].connectionId != c {
        WithoutOneEntry(rest, c);
        var after := WithoutConnection(rest, c);
        ConnectionsOfCons(peers[0], after);
        var x := {peers[0].connectionId};
        assert (x + Connections(after)) - {c} == x + (Connections(after) - {c});
        assert (x + Connections(rest)) - {c} == x + (Connections(rest) - {c});
      }
    }
  }

  /** A leaving connection leaves the two tables in step exactly when it had registered one device at most. */
  lemma CleanupNeedsOneDevice(s: Server, c: nat)
    requires s.sockets == Connections(s.registry)
    ensures Cleanup(s, c).sockets == Connections(Cleanup(s, c).registry) <==> OneDeviceOn(s.registry, c)
  {
    WithoutOneEntry(s.registry, c);
    assert Cleanup(s, c).sockets == s.sockets - {c};
    assert Cleanup(s, c).registry == WithoutConnection(s.registry, c);
  }

  /** Two registers on one connection do list two devices on it. */
  lemma TwoDevicesOnOneConnection(s: Server, c: nat, a: PeerInfo, b: PeerInfo)
    requires a.deviceId != b.deviceId && s.registry == [] && c in s.links
    ensures c in OnRegister(s, c, a, 1).links
    ensures var s' := OnRegister(OnRegister(s, c, a, 1), c, b, 1);
            s'.registry == [Peer(a, s.now, c), Peer(b, s.now, c)] && !OneDeviceOn(s'.registry, c)
  {
    var p, q := Peer(a, s.now, c), Peer(b, s.now, c);
    BroadcastKeepsLinks(Enlisted(s, c, a), 1);
    assert Put([p], q) == [p] + Put([], q);
    assert [p, q][0].connectionId == c && [p, q][1].connectionId == c;
  }

  // ---- sweeping ----

  /** An eviction removes the peers of the listed connections and nobody else. */
  lemma {:induction false} EvictRemoves(dev: Devices, s: Server, stale: Peers, p: Peer)
    requires TablesInv(dev, s)
    ensures p in Evict(s, stale).registry <==>
            p in s.registry && forall q :: q in stale ==> q.connectionId != p.connectionId
    ensures Evict(s, stale).now == s.now
    decreases |stale|
  {
    if stale != [] {
      var c := stale[0].connectionId;
      var s1 := if c in s.sockets then CloseLink(s, c) else s;
      CleanupKeepsTables(dev, s1, c);
      DevicesSeparateConnections(dev, s.registry);
      WithoutConnectionContents(s.registry, c);
      EvictRemoves(dev, Cleanup(s1, c), stale[1..], p);
      assert stale == [stale[0]] + stale[1..];
    }
  }

  /** A sweep removes exactly the peers whose last heartbeat is more than 15000 ms old. */
  lemma SweepIsExact(dev: Devices, s: Server, p: Peer)
    requires TablesInv(dev, s)
    ensures p in SweepStalePeers(s).registry <==> p in s.registry && s.now - p.lastHeartbeatAt <= 15000
  {
    var stale := FindStale(s.registry, HEARTBEAT_TIMEOUT_MS, s.now);
    EvictRemoves(dev, s, stale, p);
    if p in s.registry {
      forall q | q in stale && q.connectionId == p.connectionId ensures q == p {
        assert q.info.deviceId == p.info.deviceId;
        var i :| 0 <= i < |s.registry| && s.registry[i] == q;
        var j :| 0 <= j < |s.registry| && s.registry[j] == p;
      }
    }
  }

  /** Nobody on the list was stale at the last sweep, and the next sweep is at most 5000 ms after it. */
  predicate TimeInv(s: Server) {
    && s.lastSweep <= s.now <= s.lastSweep + COORDINATOR_SWEEP_INTERVAL_MS
    && forall p :: p in s.registry ==> s.lastSweep - HEARTBEAT_TIMEOUT_MS <= p.lastHeartbeatAt <= s.now
  }

  lemma CleanupKeepsTime(dev: Devices, s: Server, c: nat)
    requires TablesInv(dev, s) && TimeInv(s)
    ensures TimeInv(Cleanup(s, c))
  {
    CleanupKeepsTables(dev, s, c);
    DevicesSeparateConnections(dev, s.registry);
    WithoutConnectionContents(s.registry, c);
  }

  lemma RegisterKeepsTime(s: Server, c: nat, info: PeerInfo, version: int)
    requires DistinctDevices(s.registry) && c in s.links && TimeInv(s)
    ensures TimeInv(OnRegister(s, c, info, version))
  {
    PutContents(s.registry, Peer(info, s.now, c));
  }

  lemma SweepKeepsTime(dev: Devices, s: Server)
    requires TablesInv(dev, s) && TimeInv(s)
    ensures TimeInv(SweepStalePeers(s))
  {
    var s' := SweepStalePeers(s);
    forall p | p in s'.registry ensures s'.lastSweep - HEARTBEAT_TIMEOUT_MS <= p.lastHeartbeatAt <= s'.now {
      SweepIsExact(dev, s, p);
      EvictRemoves(dev, s, FindStale(s.registry, HEARTBEAT_TIMEOUT_MS, s.now), p);
    }
    EvictRemoves(dev, s, FindStale(s.registry, HEARTBEAT_TIMEOUT_MS, s.now), Peer(PeerInfo("", "", Laptop), 0, 0));
  }

  lemma StepKeepsTime(dev: Devices, s: Server, e: Event)
    requires TablesInv(dev, s) && TimeInv(s)
    ensures TimeInv(Step(s, e))
  {
    match e
    case Register(c, info, version) => if Hears(s, c) { RegisterKeepsTime(s, c, info, version); }
    case Heartbeat(c, deviceId) => TouchContents(s.registry, deviceId, s.now);
    case Unregister(c) => CleanupKeepsTime(dev, s, c);
    case SocketClosed(c) =>
      if Hears(s, c) { CleanupKeepsTime(dev, s.(links := s.links[c := s.links[c].(ready := Closed)]), c); }
    case SocketError(c) => CleanupKeepsTime(dev, s, c);
    case Sweep => SweepKeepsTime(dev, s);
    case _ =>
  }

  /** With sweeps on time, a peer last heard at t is on the list no later than t + 20000. */
  lemma {:induction false} GoneInTwentySeconds(dev: Devices, events: seq<Event>)
    requires forall e :: e in events ==> Disciplined(dev, e)
    ensures TimeInv(Run(FRESH, events))
    ensures forall p :: p in Run(FRESH, events).registry ==> Run(FRESH, events).now <= p.lastHeartbeatAt + 20000
  {
    if events != [] {
      var before := events[..|events| - 1];
      GoneInTwentySeconds(dev, before);
      RunKeepsTables(dev, before);
      StepKeepsTime(dev, Run(FRESH, before), events[|events| - 1]);
    }
  }
}
