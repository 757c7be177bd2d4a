/** coordinator/src/server.ts as the object it is: two tables changed in place by the handlers of every socket. */
module SignalingServer {
  import opened Basics
  import opened PeerRegistry
  import opened CoordinatorServer
  import opened CoordinatorSafety

  lemma {:induction false} GetListed(peers: Peers, i: nat)
    requires i < |peers| && DistinctDevices(peers)
    ensures Get(peers, peers[i].info.deviceId) == Some(peers[i])
  {
    if i > 0 {
      GetListed(peers[1..], i - 1);
    }
  }

  lemma {:induction false} WithoutKeepsDistinct(peers: Peers, c: nat)
    requires DistinctDevices(peers)
    ensures DistinctDevices(WithoutConnection(peers, c))
    ensures forall p :: p in WithoutConnection(peers, c) ==> p in peers
  {
    if peers != [] && peers[0].connectionId != c {
      var rest := peers[1..];
      WithoutKeepsDistinct(rest, c);
      var r := WithoutConnection(rest, c);
      assert forall k :: 0 <= k < |r| ==> r[k] in rest;
      assert forall k :: 0 <= k < |rest| ==> rest[k] == peers[k + 1];
    }
  }

  class SignalingServer {
    const registry: Registry
    var sockets: set<nat>
    var links: map<nat, Link>
    var now: int
    var lastSweep: int

    ghost predicate Valid()
      reads this, registry
    {
      DistinctDevices(registry.peers)
    }

    ghost function State(): Server
      reads this, registry
    {
      Server(registry.peers, sockets, links, now, lastSweep)
    }

    constructor ()
      ensures Valid() && fresh(registry) && State() == FRESH
    {
      registry := new Registry();
      sockets, links, now, lastSweep := {}, map[], 0, 0;
    }

    method Send(c: nat, msg: ServerMessage)
      modifies this`links
      ensures links == SendTo(old(links), c, msg)
    {
      if c in links && links[c].ready.Open? {
        links := links[c := links[c].(outbox := links[c].outbox + [msg])];
      } else if c in links {
        assert links[c := links[c]] == links;
      }
    }

    /** One list per listed peer, on the socket the peer is registered with. */
    method BroadcastPeerListToAll()
      requires Valid()
      modifies this`links
      ensures State() == BroadcastList(old(State()))
    {
      var peers := registry.peers;
      for i := 0 to |peers|
        invariant peers == registry.peers && links == BroadcastUpTo(old(State()), i)
      {
        GetListed(peers, i);
        var registered := Get(peers, peers[i].info.deviceId);
        var c := registered.value.connectionId;
        if c in sockets {
          Send(c, PeerList(ListExcept(peers, peers[i].info.deviceId)));
        }
      }
    }

    method BroadcastPeerLeftToAll(deviceId: string)
      modifies this`links
      ensures State() == BroadcastLeft(old(State()), deviceId)
    {
      var rest := sockets;
      while rest != {}
        invariant rest <= sockets && links.Keys == old(links).Keys
        invariant forall c :: c in links ==>
                    links[c] == if c in sockets - rest then Push(old(links)[c], PeerLeft(deviceId)) else old(links)[c]
        decreases rest
      {
        var c :| c in rest;
        Send(c, PeerLeft(deviceId));
        rest := rest - {c};
      }
      assert links == BroadcastLeft(old(State()), deviceId).links;
    }

    method CleanupConnection(c: nat)
      requires Valid()
      modifies this`links, this`sockets, registry
      ensures Valid() && State() == Cleanup(old(State()), c)
    {
      WithoutKeepsDistinct(registry.peers, c);
      sockets := sockets - {c};
      var removed := registry.RemoveByConnection(c);
      if removed.Some? {
        BroadcastPeerLeftToAll(removed.value);
        BroadcastPeerListToAll();
      }
    }

    /** ws.close(). */
    method Close(c: nat)
      modifies this`links
      ensures State() == CloseLink(old(State()), c)
    {
      if c in links && links[c].ready.Open? {
        links := links[c := links[c].(ready := Closing)];
      }
    }

    method OnRegisterMessage(c: nat, info: PeerInfo, protocolVersion: int)
      requires Valid() && c in links
      modifies this`links, this`sockets, registry
      ensures Valid() && State() == OnRegister(old(State()), c, info, protocolVersion)
    {
      if protocolVersion > PROTOCOL_VERSION {
        Send(c, RegisterRejected);
        return;
      }
      var existing := Get(registry.peers, info.deviceId);
      if existing.Some? && existing.value.connectionId != c {
        var stale := existing.value.connectionId;
        var known := stale in sockets;
        sockets := sockets - {stale};
        if known {
          Close(stale);
        }
      }
      assert State() == ReplaceStale(old(State()), c, info.deviceId);
      links := links[c := links[c].(device := Some(info.deviceId))];
      sockets := sockets + {c};
      registry.Register(info, c, now);
      BroadcastPeerListToAll();
    }

    method OnHeartbeatMessage(c: nat, deviceId: string)
      requires Valid()
      modifies this`links, registry
      ensures Valid() && State() == OnHeartbeat(old(State()), c, deviceId)
    {
      TouchContents(registry.peers, deviceId, now);
      registry.TouchHeartbeat(deviceId, now);
      Send(c, HeartbeatAck(deviceId));
    }

    method OnSignalMessage(c: nat, to: string)
      requires c in links
      modifies this`links
      ensures State() == OnRelay(old(State()), c, to)
    {
      if links[c].device.None? {
        return;
      }
      var target := Get(registry.peers, to);
      if target.None? {
        return;
      }
      if target.value.connectionId in sockets {
        Send(target.value.connectionId, Signal(links[c].device.value));
      }
    }

    method OnClose(c: nat)
      requires Valid() && c in links
      modifies this`links, this`sockets, registry
      ensures Valid()
      ensures State() == Cleanup(old(State()).(links := old(links)[c := old(links)[c].(ready := Closed)]), c)
    {
      links := links[c := links[c].(ready := Closed)];
      CleanupConnection(c);
    }

    method Sweep()
      requires Valid()
      modifies this`links, this`sockets, this`lastSweep, registry
      ensures Valid() && State() == SweepStalePeers(old(State()))
    {
      var stale := FindStale(registry.peers, HEARTBEAT_TIMEOUT_MS, now);
      for i := 0 to |stale|
        invariant Valid() && now == old(now)
        invariant Evict(State(), stale[i..]) == Evict(old(State()), stale)
      {
        var c := stale[i].connectionId;
        assert stale[i..][0] == stale[i] && stale[i..][1..] == stale[i + 1..];
        if c in sockets {
          Close(c);
        }
        CleanupConnection(c);
      }
      assert stale[|stale|..] == [];
      lastSweep := now;
    }

    /** What happens to a socket besides a message: accepted, gone wrong, or a message of ours delivered. */
    method OnConnection(c: nat)
      modifies this`links
      ensures State() == Step(old(State()), Connect(c))
    {
      if c !in links {
        links := links[c := Link(Open, [], None)];
      }
    }

    method OnDelivered(c: nat)
      modifies this`links
      ensures State() == Step(old(State()), Delivered(c))
    {
      if c in links && links[c].outbox != [] {
        links := links[c := links[c].(outbox := links[c].outbox[1..])];
      }
    }

    /** The clock goes on, but not past the next sweep. */
    method Elapse(ms: nat)
      modifies this`now
      ensures State() == Step(old(State()), Tick(ms))
    {
      if now + ms <= lastSweep + COORDINATOR_SWEEP_INTERVAL_MS {
        now := now + ms;
      }
    }

    method OnMessage(e: Event)
      requires Valid() && (e.Register? || e.Heartbeat? || e.Relay? || e.Unregister?)
      modifies this`links, this`sockets, registry
      ensures Valid() && State() == Step(old(State()), e)
    {
      if e.c !in links || links[e.c].ready.Closed? {
        return;
      }
      match e {
        case Register(c, info, version) => OnRegisterMessage(c, info, version);
        case Heartbeat(c, deviceId) => OnHeartbeatMessage(c, deviceId);
        case Relay(c, to) => OnSignalMessage(c, to);
        case Unregister(c) => CleanupConnection(c);
      }
    }

    method Handle(e: Event)
      requires Valid()
      modifies this, registry
      ensures Valid() && State() == Step(old(State()), e)
    {
      match e {
        case Connect(c) => OnConnection(c);
        case SocketClosed(c) =>
          if c in links && !links[c].ready.Closed? {
            OnClose(c);
          }
        case SocketError(c) =>
          if c in links && !links[c].ready.Closed? {
            CleanupConnection(c);
          }
        case Delivered(c) => OnDelivered(c);
        case Sweep => Sweep();
        case Tick(ms) => Elapse(ms);
        case _ => OnMessage(e);
      }
    }

    /**
     * Whatever happens and in whatever order, each connection registering one
     * device: the two tables stay in step, and nobody stays on the list for more
     * than twenty seconds without a heartbeat.
     */
    method RunAll(dev: Devices, events: seq<Event>)
      requires State() == FRESH && forall e :: e in events ==> Disciplined(dev, e)
      modifies this, registry
      ensures DistinctConnections(registry.peers) && sockets == Connections(registry.peers)
      ensures forall p :: p in registry.peers ==>
                p.info.deviceId == dev(p.connectionId) && now <= p.lastHeartbeatAt + 20000
    {
      for i := 0 to |events|
        invariant Valid() && TablesInv(dev, State()) && TimeInv(State())
      {
        StepKeepsTables(dev, State(), events[i]);
        StepKeepsTime(dev, State(), events[i]);
        Handle(events[i]);
      }
      DevicesSeparateConnections(dev, registry.peers);
    }
  }
}
