/** What each event makes the coordinator say, and to whom: message by message, on every connection. */
module CoordinatorReplies {
  import opened Basics
  import opened PeerRegistry
  import opened CoordinatorServer
  import opened CoordinatorSafety

  type Links = map<nat, Link>

  /** The connection exists and has not closed; it may be closing, and is then still heard. */
  predicate IsUp(s: Server, c: nat) {
    c in s.links && (s.links[c].ready.Open? || s.links[c].ready.Closing?)
  }

  /** The connection is sent exactly these if it is open, and nothing if it is not. */
  predicate Gets(before: Links, after: Links, c: nat, msgs: seq<ServerMessage>) {
    && c in before && c in after
    && after[c].outbox == before[c].outbox + (if before[c].ready.Open? then msgs else [])
  }

  /** The connection of the i-th peer is sent these and then the list of all the others, each once and in order. */
  ghost predicate GetsList(before: Links, after: Links, msgs: seq<ServerMessage>, peers: Peers, i: nat)
    requires i < |peers|
  {
    exists others :: Others(peers, i, others) && Gets(before, after, peers[i].connectionId, msgs + [PeerList(others)])
  }

  /** Nobody but these is sent anything or changed in any way. */
  predicate OnlyThese(before: Links, after: Links, these: set<nat>) {
    after.Keys == before.Keys && forall c :: c in before && c !in these ==> after[c] == before[c]
  }

  // ---- broadcasts ----

  predicate AllConnected(s: Server) {
    && DistinctConnections(s.registry)
    && forall i :: 0 <= i < |s.registry| ==>
         s.registry[i].connectionId in s.sockets && s.registry[i].connectionId in s.links
  }

  lemma TablesConnect(dev: Devices, s: Server)
    requires TablesInv(dev, s)
    ensures AllConnected(s)
  {
    DevicesSeparateConnections(dev, s.registry);
    forall i | 0 <= i < |s.registry|
      ensures s.registry[i].connectionId in s.sockets && s.registry[i].connectionId in s.links
    {
      assert s.registry[i] in s.registry && s.registry[i].connectionId in Connections(s.registry);
    }
  }

  lemma SendGets(links: Links, c: nat, msg: ServerMessage)
    requires c in links
    ensures Gets(links, SendTo(links, c, msg), c, [msg]) && OnlyThese(links, SendTo(links, c, msg), {c})
  {
  }

  /** One more message, to x: it is c's if c is x. */
  lemma SendGetsOne(l0: Links, l1: Links, x: nat, msg: ServerMessage, c: nat, msgs: seq<ServerMessage>)
    requires SameLinks(l0, l1) && Gets(l0, l1, c, msgs)
    ensures x == c && msgs == [] ==> Gets(l0, SendTo(l1, x, msg), c, [msg])
    ensures x != c ==> Gets(l0, SendTo(l1, x, msg), c, msgs)
  {
  }

  /** What the i-th peer is sent by a broadcast. */
  function ListFor(peers: Peers, i: nat): ServerMessage
    requires i < |peers|
  {
    PeerList(ListExcept(peers, peers[i].info.deviceId))
  }

  /** What the i-th peer has been sent by k rounds of a broadcast. */
  predicate SentByRounds(s: Server, k: nat, i: nat)
    requires k <= |s.registry| && i < |s.registry|
  {
    Gets(s.links, BroadcastUpTo(s, k), s.registry[i].connectionId, if i < k then [ListFor(s.registry, i)] else [])
  }

  lemma RoundSends(s: Server, k: nat, i: nat)
    requires 0 < k <= |s.registry| && i < |s.registry| && SentByRounds(s, k - 1, i)
    requires s.registry[k - 1].connectionId in s.sockets
    requires i != k - 1 ==> s.registry[k - 1].connectionId != s.registry[i].connectionId
    ensures SentByRounds(s, k, i)
  {
    BroadcastKeepsLinks(s, k - 1);
    SendGetsOne(s.links, BroadcastUpTo(s, k - 1), s.registry[k - 1].connectionId, ListFor(s.registry, k - 1),
                s.registry[i].connectionId, if i < k - 1 then [ListFor(s.registry, i)] else []);
    BroadcastRound(s, k);
  }

  /** The i-th peer is sent its list by the round that reaches it, and nothing before or after. */
  lemma {:induction false} BroadcastGets(s: Server, k: nat, i: nat)
    requires k <= |s.registry| && i < |s.registry| && AllConnected(s)
    ensures SentByRounds(s, k, i)
  {
    if k > 0 {
      BroadcastGets(s, k - 1, i);
      RoundSends(s, k, i);
    } else {
      assert s.registry[i].connectionId in s.links;
    }
  }

  lemma BroadcastRound(s: Server, k: nat)
    requires 0 < k <= |s.registry| && s.registry[k - 1].connectionId in s.sockets
    ensures BroadcastUpTo(s, k)
         == SendTo(BroadcastUpTo(s, k - 1), s.registry[k - 1].connectionId, ListFor(s.registry, k - 1))
  {
  }

  lemma {:induction false} BroadcastOnly(s: Server, k: nat)
    requires k <= |s.registry|
    ensures OnlyThese(s.links, BroadcastUpTo(s, k), s.sockets)
  {
    if k > 0 {
      BroadcastOnly(s, k - 1);
    }
  }

  lemma BroadcastTells(dev: Devices, s: Server)
    requires TablesInv(dev, s)
    ensures var s' := BroadcastList(s);
            && (forall i :: 0 <= i < |s.registry| ==> GetsList(s.links, s'.links, [], s.registry, i))
            && OnlyThese(s.links, s'.links, s.sockets) && SameLinks(s.links, s'.links)
  {
    TablesConnect(dev, s);
    BroadcastOnly(s, |s.registry|);
    BroadcastKeepsLinks(s, |s.registry|);
    forall i | 0 <= i < |s.registry| ensures GetsList(s.links, BroadcastList(s).links, [], s.registry, i) {
      BroadcastGets(s, |s.registry|, i);
      ListExceptIsOthers(s.registry, i);
      var others := ListExcept(s.registry, s.registry[i].info.deviceId);
      assert [] + [PeerList(others)] == [PeerList(others)];
      assert Others(s.registry, i, others);
    }
  }

  lemma LeftGets(s: Server, deviceId: string, c: nat)
    requires c in s.links
    ensures var s' := BroadcastLeft(s, deviceId);
            if c in s.sockets then Gets(s.links, s'.links, c, [PeerLeft(deviceId)]) else s'.links[c] == s.links[c]
  {
  }

  /** First one message, then the list. */
  lemma GetsBoth(l0: Links, l1: Links, l2: Links, first: ServerMessage, peers: Peers, i: nat)
    requires i < |peers| && Gets(l0, l1, peers[i].connectionId, [first]) && GetsList(l1, l2, [], peers, i)
    requires l1[peers[i].connectionId].ready == l0[peers[i].connectionId].ready
    ensures GetsList(l0, l2, [first], peers, i)
  {
    var others :| Others(peers, i, others) && Gets(l1, l2, peers[i].connectionId, [] + [PeerList(others)]);
    assert Gets(l0, l2, peers[i].connectionId, [first] + [PeerList(others)]);
  }

  /** What was sent from a state in which the connection was no different. */
  lemma GetsListFrom(l0: Links, l1: Links, l2: Links, peers: Peers, i: nat)
    requires i < |peers| && GetsList(l1, l2, [], peers, i)
    requires var c := peers[i].connectionId;
             c in l0 && c in l1 && l1[c].outbox == l0[c].outbox && l1[c].ready == l0[c].ready
    ensures GetsList(l0, l2, [], peers, i)
  {
    var others :| Others(peers, i, others) && Gets(l1, l2, peers[i].connectionId, [] + [PeerList(others)]);
    assert Gets(l0, l2, peers[i].connectionId, [] + [PeerList(others)]);
  }

  // ---- registering ----

  /** A register in a version the server does not speak: its connection is told, and that is all. */
  lemma RegisterIsRejected(s: Server, c: nat, info: PeerInfo, version: int)
    requires IsUp(s, c) && version > 1
    ensures var s' := Step(s, Register(c, info, version));
            && Gets(s.links, s'.links, c, [RegisterRejected]) && OnlyThese(s.links, s'.links, {c})
            && s' == s.(links := s'.links)
  {
    SendGets(s.links, c, RegisterRejected);
  }

  /** The device is on the list on a connection other than c. */
  predicate ListedElsewhere(s: Server, p: Peer, deviceId: string, c: nat) {
    p in s.registry && p.info.deviceId == deviceId && p.connectionId != c
  }

  /** Replacing closes the connections the device was listed on, and touches no other. */
  lemma ReplacedLinks(dev: Devices, s: Server, c: nat, deviceId: string)
    requires TablesInv(dev, s)
    ensures var s' := ReplaceStale(s, c, deviceId);
            && s'.links.Keys == s.links.Keys && s'.registry == s.registry && s'.now == s.now
            && (forall x {:trigger s'.links[x]} :: x in s.links ==>
                  s'.links[x].outbox == s.links[x].outbox && s'.links[x].device == s.links[x].device)
            && (forall x {:trigger s'.links[x]} :: x in s.links ==>
                  s'.links[x] == s.links[x] || exists p :: ListedElsewhere(s, p, deviceId, c) && p.connectionId == x)
            && (forall p {:trigger s'.links[p.connectionId]} :: ListedElsewhere(s, p, deviceId, c) ==>
                  !s'.links[p.connectionId].ready.Open? && p.connectionId !in s'.sockets)
  {
    TablesConnect(dev, s);
    var existing := Get(s.registry, deviceId);
    forall p | ListedElsewhere(s, p, deviceId, c)
      ensures existing == Some(p) && p.connectionId in s.sockets && p.connectionId in s.links
    {
      var i :| 0 <= i < |s.registry| && s.registry[i] == p;
      var j :| 0 <= j < |s.registry| && s.registry[j] == existing.value;
    }
  }

  /** Whoever is on the new list has the link it had before, but for the device on the registering connection. */
  lemma ListedLinksStay(dev: Devices, s: Server, c: nat, info: PeerInfo, i: nat)
    requires TablesInv(dev, s) && c in s.links && info.deviceId == dev(c)
    requires i < |Enlisted(s, c, info).registry|
    ensures var s2 := Enlisted(s, c, info);
            var x := s2.registry[i].connectionId;
            x in s.links && x in s2.links && s2.links[x].outbox == s.links[x].outbox
            && s2.links[x].ready == s.links[x].ready
  {
    var s2 := Enlisted(s, c, info);
    var q := s2.registry[i];
    PutContents(s.registry, Peer(info, s.now, c));
    ReplacedLinks(dev, s, c, info.deviceId);
    assert q in s2.registry;
    if q != Peer(info, s.now, c) {
      assert q in s.registry && q.info.deviceId != info.deviceId;
    }
  }

  lemma RegisterTellsListed(dev: Devices, s: Server, c: nat, info: PeerInfo)
    requires TablesInv(dev, s) && c in s.links && info.deviceId == dev(c)
    requires TablesInv(dev, Enlisted(s, c, info))
    ensures var s' := BroadcastList(Enlisted(s, c, info));
            forall i :: 0 <= i < |s'.registry| ==> GetsList(s.links, s'.links, [], s'.registry, i)
  {
    var s2 := Enlisted(s, c, info);
    var s' := BroadcastList(s2);
    BroadcastTells(dev, s2);
    forall i | 0 <= i < |s'.registry| ensures GetsList(s.links, s'.links, [], s'.registry, i) {
      ListedLinksStay(dev, s, c, info, i);
      GetsListFrom(s.links, s2.links, s'.links, s'.registry, i);
    }
  }

  /** The links behind the broadcast of a register, but for those that are on the new list. */
  lemma RegisterLeavesRest(dev: Devices, s: Server, c: nat, info: PeerInfo)
    requires TablesInv(dev, s) && c in s.links && info.deviceId == dev(c)
    requires TablesInv(dev, Enlisted(s, c, info))
    ensures var s2 := Enlisted(s, c, info);
            var s' := BroadcastList(s2);
            && s'.links.Keys == s2.links.Keys == s.links.Keys && s'.sockets == s2.sockets
            && (forall x :: x in s2.links && x !in s2.sockets ==> s'.links[x] == s2.links[x])
            && c in s'.sockets && s'.links[c].device == Some(info.deviceId)
  {
    ReplacedLinks(dev, s, c, info.deviceId);
    BroadcastTells(dev, Enlisted(s, c, info));
  }

  lemma RegisterCloses(dev: Devices, s: Server, c: nat, info: PeerInfo, p: Peer)
    requires TablesInv(dev, s) && c in s.links && info.deviceId == dev(c)
    requires TablesInv(dev, Enlisted(s, c, info)) && ListedElsewhere(s, p, info.deviceId, c)
    ensures var s' := BroadcastList(Enlisted(s, c, info));
            && p.connectionId !in s'.sockets && Gets(s.links, s'.links, p.connectionId, [])
            && !s'.links[p.connectionId].ready.Open?
  {
    ReplacedLinks(dev, s, c, info.deviceId);
    TablesConnect(dev, s);
    RegisterLeavesRest(dev, s, c, info);
    assert Enlisted(s, c, info).links[p.connectionId] == ReplaceStale(s, c, info.deviceId).links[p.connectionId];
  }

  lemma RegisterSparesOthers(dev: Devices, s: Server, c: nat, info: PeerInfo, x: nat)
    requires TablesInv(dev, s) && c in s.links && info.deviceId == dev(c)
    requires TablesInv(dev, Enlisted(s, c, info)) && x in s.links && x !in s.sockets && x != c
    ensures x in BroadcastList(Enlisted(s, c, info)).links
    ensures BroadcastList(Enlisted(s, c, info)).links[x] == s.links[x]
  {
    ReplacedLinks(dev, s, c, info.deviceId);
    TablesConnect(dev, s);
    RegisterLeavesRest(dev, s, c, info);
    assert Enlisted(s, c, info).links[x] == ReplaceStale(s, c, info.deviceId).links[x];
  }

  /**
   * A register that is accepted: everybody on the new list, the registering
   * connection included, is sent the list of the others and nothing else; a
   * connection the device was listed on before is sent nothing, is no longer open
   * and no longer in the table; the connection carries the device; and nobody
   * else is sent anything.
   */
  lemma RegisterTells(dev: Devices, s: Server, c: nat, info: PeerInfo, version: int)
    requires TablesInv(dev, s) && IsUp(s, c) && version <= 1 && info.deviceId == dev(c)
    ensures var s' := Step(s, Register(c, info, version));
            && s'.links.Keys == s.links.Keys
            && (forall i :: 0 <= i < |s'.registry| ==> GetsList(s.links, s'.links, [], s'.registry, i))
            && c in s'.links && c in s'.sockets && s'.links[c].device == Some(info.deviceId)
            && (forall p :: ListedElsewhere(s, p, info.deviceId, c) ==>
                  p.connectionId !in s'.sockets && Gets(s.links, s'.links, p.connectionId, [])
                  && !s'.links[p.connectionId].ready.Open?)
            && (forall x :: x in s.links && x !in s.sockets && x != c ==> s'.links[x] == s.links[x])
  {
    EnlistedKeepsTables(dev, s, c, info);
    var s' := BroadcastList(Enlisted(s, c, info));
    assert Step(s, Register(c, info, version)) == s';
    RegisterTellsListed(dev, s, c, info);
    RegisterLeavesRest(dev, s, c, info);
    forall p | ListedElsewhere(s, p, info.deviceId, c)
      ensures p.connectionId !in s'.sockets && Gets(s.links, s'.links, p.connectionId, [])
              && !s'.links[p.connectionId].ready.Open?
    {
      RegisterCloses(dev, s, c, info, p);
    }
    forall x | x in s.links && x !in s.sockets && x != c ensures x in s'.links && s'.links[x] == s.links[x] {
      RegisterSparesOthers(dev, s, c, info, x);
    }
  }

  // ---- heartbeats and signals ----

  /** A heartbeat is acknowledged to its connection, and nobody else is sent anything. */
  lemma HeartbeatIsAcknowledged(s: Server, c: nat, deviceId: string)
    requires IsUp(s, c)
    ensures var s' := Step(s, Heartbeat(c, deviceId));
            && Gets(s.links, s'.links, c, [HeartbeatAck(deviceId)]) && OnlyThese(s.links, s'.links, {c})
            && s'.sockets == s.sockets && s'.now == s.now
  {
    SendGets(s.links, c, HeartbeatAck(deviceId));
  }

  /** The device has a place on the list and a socket in the table. */
  predicate Reachable(s: Server, p: Peer, deviceId: string) {
    p in s.registry && p.info.deviceId == deviceId && p.connectionId in s.sockets
  }

  /**
   * A signal goes from a registered connection to the listed device it names, with
   * the name of its sender, and to nobody else; from a connection that has not
   * registered, or to a device that is not there, it goes nowhere.
   */
  lemma SignalIsRelayed(dev: Devices, s: Server, c: nat, to: string)
    requires TablesInv(dev, s) && IsUp(s, c)
    ensures forall p :: s.links[c].device.Some? && Reachable(s, p, to) ==>
              var s' := Step(s, Relay(c, to));
              && Gets(s.links, s'.links, p.connectionId, [Signal(s.links[c].device.value)])
              && OnlyThese(s.links, s'.links, {p.connectionId}) && s' == s.(links := s'.links)
    ensures s.links[c].device.None? || (forall p :: !Reachable(s, p, to)) ==> Step(s, Relay(c, to)) == s
  {
    TablesConnect(dev, s);
    var target := Get(s.registry, to);
    forall p | s.links[c].device.Some? && Reachable(s, p, to)
      ensures target == Some(p) && p.connectionId in s.links
    {
      var i :| 0 <= i < |s.registry| && s.registry[i] == p;
      var j :| 0 <= j < |s.registry| && s.registry[j] == target.value;
    }
    if s.links[c].device.Some? && target.Some? && target.value.connectionId in s.sockets {
      assert Reachable(s, target.value, to);
      SendGets(s.links, target.value.connectionId, Signal(s.links[c].device.value));
    }
  }

  // ---- leaving ----

  lemma {:induction false} FoundDevice(peers: Peers, c: nat)
    requires FindByConnection(peers, c).Some?
    ensures exists p :: p in peers && p.connectionId == c && FindByConnection(peers, c) == Some(p.info.deviceId)
  {
    if peers[0].connectionId != c {
      FoundDevice(peers[1..], c);
      var p :| p in peers[1..] && p.connectionId == c && FindByConnection(peers[1..], c) == Some(p.info.deviceId);
      assert p in peers;
    } else {
      assert peers[0] in peers;
    }
  }

  predicate Registered(s: Server, c: nat) {
    exists p :: p in s.registry && p.connectionId == c
  }

  /** Everybody left is told who has gone and then sent the new list, and nobody else is sent anything. */
  ghost predicate TellsOfLeaving(before: Links, s': Server, deviceId: string) {
    && s'.links.Keys == before.Keys
    && (forall i :: 0 <= i < |s'.registry| ==> GetsList(before, s'.links, [PeerLeft(deviceId)], s'.registry, i))
    && (forall x :: x in before && x !in s'.sockets ==> s'.links[x] == before[x])
  }

  lemma CleanupTells(dev: Devices, s: Server, c: nat)
    requires TablesInv(dev, s)
    ensures var s' := Cleanup(s, c);
            && c !in s'.sockets && SameLinks(s.links, s'.links)
            && if Registered(s, c) then TellsOfLeaving(s.links, s', dev(c)) else s' == s
  {
    var s' := Cleanup(s, c);
    CleanupKeepsTables(dev, s, c);
    if Registered(s, c) {
      FoundDevice(s.registry, c);
      WithoutConnectionKeepsTables(dev, s, c);
      var s1 := s.(sockets := s.sockets - {c}, registry := WithoutConnection(s.registry, c));
      var s2 := BroadcastLeft(s1, dev(c));
      assert s' == BroadcastList(s2);
      BroadcastTells(dev, s2);
      TablesConnect(dev, s2);
      forall i | 0 <= i < |s'.registry| ensures GetsList(s.links, s'.links, [PeerLeft(dev(c))], s'.registry, i) {
        LeftGets(s1, dev(c), s'.registry[i].connectionId);
        GetsBoth(s.links, s2.links, s'.links, PeerLeft(dev(c)), s'.registry, i);
      }
    } else {
      LateCloseIsHarmless(dev, s, c);
    }
  }

  /** A goodbye, an error or a close of a connection that has registered is announced, any other is not. */
  lemma LeavingIsAnnounced(dev: Devices, s: Server, e: Event)
    requires TablesInv(dev, s) && (e.Unregister? || e.SocketClosed? || e.SocketError?) && IsUp(s, e.c)
    ensures var links := if e.SocketClosed? then s.links[e.c := s.links[e.c].(ready := Closed)] else s.links;
            var s' := Step(s, e);
            && e.c !in s'.sockets && SameLinks(links, s'.links)
            && if Registered(s, e.c) then TellsOfLeaving(links, s', dev(e.c))
               else s'.registry == s.registry && s'.links == links
  {
    var s1 := if e.SocketClosed? then s.(links := s.links[e.c := s.links[e.c].(ready := Closed)]) else s;
    assert Registered(s1, e.c) == Registered(s, e.c);
    CleanupTells(dev, s1, e.c);
  }

  // ---- sweeping ----

  /** What a socket has been sent between two states. */
  function SentSince(before: Links, after: Links, c: nat): seq<ServerMessage>
    requires c in before && c in after && before[c].outbox <= after[c].outbox
  {
    after[c].outbox[|before[c].outbox|..]
  }

  /** Links only close, and are only sent to. */
  predicate GoesOn(before: Links, after: Links) {
    && after.Keys == before.Keys
    && forall c :: c in before ==>
         before[c].outbox <= after[c].outbox && (after[c].ready.Open? ==> before[c].ready.Open?)
  }

  predicate Evicted(s: Server, s': Server, q: Peer) {
    q in s.registry && q !in s'.registry
  }

  /** The evicted are no longer connected, and everybody left whose connection is open is told of each of them. */
  ghost predicate EvictionTells(s: Server, s': Server) {
    && GoesOn(s.links, s'.links)
    && (forall q :: Evicted(s, s', q) ==>
          q.connectionId in s'.links && !s'.links[q.connectionId].ready.Open? && q.connectionId !in s'.sockets)
    && (forall q, p :: Evicted(s, s', q) && p in s'.registry && p.connectionId in s'.links
                       && s'.links[p.connectionId].ready.Open? ==>
          PeerLeft(q.info.deviceId) in SentSince(s.links, s'.links, p.connectionId))
  }

  lemma SentStays(a: seq<ServerMessage>, b: seq<ServerMessage>, c: seq<ServerMessage>, msg: ServerMessage)
    requires a <= b <= c && (msg in b[|a|..] || msg in c[|b|..])
    ensures msg in c[|a|..]
  {
    if msg in b[|a|..] {
      var i :| 0 <= i < |b[|a|..]| && b[|a|..][i] == msg;
      assert c[|a|..][i] == msg;
    } else {
      var i :| 0 <= i < |c[|b|..]| && c[|b|..][i] == msg;
      assert c[|a|..][|b| - |a| + i] == msg;
    }
  }

  lemma GetsListSends(before: Links, after: Links, msg: ServerMessage, peers: Peers, i: nat)
    requires i < |peers| && GetsList(before, after, [msg], peers, i)
    ensures var c := peers[i].connectionId;
            before[c].outbox <= after[c].outbox && (before[c].ready.Open? ==> msg in SentSince(before, after, c))
  {
    var c := peers[i].connectionId;
    var others :| Others(peers, i, others) && Gets(before, after, c, [msg] + [PeerList(others)]);
    if before[c].ready.Open? {
      assert after[c].outbox[|before[c].outbox|..] == [msg, PeerList(others)];
    }
  }

  /** One eviction: close the socket, clean up. */
  function EvictOne(s: Server, c: nat): Server {
    Cleanup(if c in s.sockets then CloseLink(s, c) else s, c)
  }

  lemma CleanupGoesOn(dev: Devices, s: Server, c: nat)
    requires TablesInv(dev, s)
    ensures GoesOn(s.links, Cleanup(s, c).links)
  {
    CleanupTells(dev, s, c);
    CleanupKeepsTables(dev, s, c);
    var s' := Cleanup(s, c);
    if Registered(s, c) {
      forall x | x in s.links ensures s.links[x].outbox <= s'.links[x].outbox {
        if x in s'.sockets {
          var p :| p in s'.registry && p.connectionId == x;
          var i :| 0 <= i < |s'.registry| && s'.registry[i] == p;
          GetsListSends(s.links, s'.links, PeerLeft(dev(c)), s'.registry, i);
        }
      }
    }
  }

  lemma CleanupSends(dev: Devices, s: Server, c: nat, p: Peer)
    requires TablesInv(dev, s) && Registered(s, c) && p in Cleanup(s, c).registry
    ensures var s', x := Cleanup(s, c), p.connectionId;
            && x in s.links && x in s'.links && s.links[x].outbox <= s'.links[x].outbox
            && (s.links[x].ready.Open? ==> PeerLeft(dev(c)) in SentSince(s.links, s'.links, x))
  {
    CleanupTells(dev, s, c);
    CleanupKeepsTables(dev, s, c);
    var i :| 0 <= i < |Cleanup(s, c).registry| && Cleanup(s, c).registry[i] == p;
    GetsListSends(s.links, Cleanup(s, c).links, PeerLeft(dev(c)), Cleanup(s, c).registry, i);
  }

  lemma EvictOneRemoves(dev: Devices, s: Server, c: nat)
    requires TablesInv(dev, s)
    ensures TablesInv(dev, EvictOne(s, c))
    ensures forall p :: p in EvictOne(s, c).registry <==> p in s.registry && p.connectionId != c
  {
    CleanupKeepsTables(dev, if c in s.sockets then CloseLink(s, c) else s, c);
    DevicesSeparateConnections(dev, s.registry);
    WithoutConnectionContents(s.registry, c);
  }

  lemma EvictOneSends(dev: Devices, s: Server, c: nat, q: Peer, p: Peer)
    requires TablesInv(dev, s) && Evicted(s, EvictOne(s, c), q) && p in EvictOne(s, c).registry
    requires p.connectionId in EvictOne(s, c).links && EvictOne(s, c).links[p.connectionId].ready.Open?
    ensures var s', x := EvictOne(s, c), p.connectionId;
            && x in s.links && s.links[x].outbox <= s'.links[x].outbox
            && PeerLeft(q.info.deviceId) in SentSince(s.links, s'.links, x)
  {
    var s1 := if c in s.sockets then CloseLink(s, c) else s;
    EvictOneRemoves(dev, s, c);
    assert q.connectionId == c && Registered(s1, c);
    CleanupSends(dev, s1, c, p);
    CleanupTells(dev, s1, c);
  }

  lemma EvictOneGoesOn(dev: Devices, s: Server, c: nat)
    requires TablesInv(dev, s)
    ensures GoesOn(s.links, EvictOne(s, c).links)
    ensures c in s.sockets ==> c in EvictOne(s, c).links && !EvictOne(s, c).links[c].ready.Open?
    ensures c !in EvictOne(s, c).sockets
  {
    var s1 := if c in s.sockets then CloseLink(s, c) else s;
    TablesConnect(dev, s);
    CleanupTells(dev, s1, c);
    CleanupGoesOn(dev, s1, c);
    assert c in s.sockets ==> c in s.links by {
      if c in s.sockets {
        var p :| p in s.registry && p.connectionId == c;
      }
    }
  }

  lemma EvictOneTells(dev: Devices, s: Server, c: nat)
    requires TablesInv(dev, s)
    ensures EvictionTells(s, EvictOne(s, c))
  {
    var s' := EvictOne(s, c);
    EvictOneGoesOn(dev, s, c);
    EvictOneRemoves(dev, s, c);
    forall q | Evicted(s, s', q)
      ensures q.connectionId in s'.links && !s'.links[q.connectionId].ready.Open? && q.connectionId !in s'.sockets
    {
      assert q.connectionId == c && c in Connections(s.registry);
    }
    forall q, p | Evicted(s, s', q) && p in s'.registry && p.connectionId in s'.links
                  && s'.links[p.connectionId].ready.Open?
      ensures PeerLeft(q.info.deviceId) in SentSince(s.links, s'.links, p.connectionId)
    {
      EvictOneSends(dev, s, c, q, p);
    }
  }

  lemma EvictionsCompose(s: Server, s1: Server, s2: Server)
    requires EvictionTells(s, s1) && EvictionTells(s1, s2) && s2.sockets <= s1.sockets
    requires forall p :: p in s2.registry ==> p in s1.registry
    requires forall p :: p in s1.registry ==> p in s.registry && p.connectionId in s1.links
    ensures EvictionTells(s, s2)
  {
    forall q, p | Evicted(s, s2, q) && p in s2.registry && p.connectionId in s2.links
                  && s2.links[p.connectionId].ready.Open?
      ensures PeerLeft(q.info.deviceId) in SentSince(s.links, s2.links, p.connectionId)
    {
      var x := p.connectionId;
      assert Evicted(s, s1, q) || Evicted(s1, s2, q);
      SentStays(s.links[x].outbox, s1.links[x].outbox, s2.links[x].outbox, PeerLeft(q.info.deviceId));
    }
    forall q | Evicted(s, s2, q)
      ensures q.connectionId in s2.links && !s2.links[q.connectionId].ready.Open? && q.connectionId !in s2.sockets
    {
      assert Evicted(s, s1, q) || Evicted(s1, s2, q);
    }
  }

  lemma {:induction false} EvictTells(dev: Devices, s: Server, stale: Peers)
    requires TablesInv(dev, s)
    ensures TablesInv(dev, Evict(s, stale)) && EvictionTells(s, Evict(s, stale))
    ensures Evict(s, stale).sockets <= s.sockets
    ensures forall p :: p in Evict(s, stale).registry ==> p in s.registry
    decreases |stale|
  {
    if stale != [] {
      var s1, c := EvictOne(s, stale[0].connectionId), stale[0].connectionId;
      EvictOneRemoves(dev, s, c);
      EvictOneTells(dev, s, c);
      EvictTells(dev, s1, stale[1..]);
      assert Evict(s, stale) == Evict(s1, stale[1..]);
      TablesConnect(dev, s1);
      EvictionsCompose(s, s1, Evict(s, stale));
    } else {
      assert forall q :: !Evicted(s, Evict(s, stale), q);
    }
  }

  /** The time of the sweep is nobody's business. */
  lemma LaterEvictionTells(s: Server, s1: Server, s2: Server)
    requires EvictionTells(s, s1)
    requires s2.links == s1.links && s2.registry == s1.registry && s2.sockets == s1.sockets
    ensures EvictionTells(s, s2)
  {
    assert forall q :: Evicted(s, s2, q) == Evicted(s, s1, q);
  }

  /** A sweep: the swept are closed, and everybody left with an open connection hears of each of them. */
  lemma SweepIsAnnounced(dev: Devices, s: Server)
    requires TablesInv(dev, s)
    ensures EvictionTells(s, Step(s, Sweep))
  {
    var swept := Evict(s, FindStale(s.registry, HEARTBEAT_TIMEOUT_MS, s.now));
    EvictTells(dev, s, FindStale(s.registry, HEARTBEAT_TIMEOUT_MS, s.now));
    assert Step(s, Sweep) == swept.(lastSweep := s.now);
    LaterEvictionTells(s, swept, Step(s, Sweep));
  }

  // ---- who a signal is from ----

  /** A connection carries the device that registers on it, and a listed one does carry it. */
  predicate CarriesDevice(dev: Devices, s: Server) {
    && (forall c :: c in s.links && s.links[c].device.Some? ==> s.links[c].device.value == dev(c))
    && (forall p :: p in s.registry ==>
          p.connectionId in s.links && s.links[p.connectionId].device == Some(p.info.deviceId))
  }

  /** Every peer of the second list is on the first, but for the time it was last heard. */
  predicate NobodyNew(before: Peers, after: Peers) {
    forall p :: p in after ==> exists q :: q in before && q.info == p.info && q.connectionId == p.connectionId
  }

  lemma CarriedOn(dev: Devices, s: Server, s': Server)
    requires CarriesDevice(dev, s) && NobodyNew(s.registry, s'.registry) && SameDevices(s.links, s'.links)
    ensures CarriesDevice(dev, s')
  {
  }

  predicate SameDevices(before: Links, after: Links) {
    && (forall c :: c in before ==> c in after && after[c].device == before[c].device)
    && (forall c :: c in after && c !in before ==> after[c].device == None)
  }

  lemma RegisterCarries(dev: Devices, s: Server, c: nat, info: PeerInfo, version: int)
    requires TablesInv(dev, s) && CarriesDevice(dev, s) && Hears(s, c) && info.deviceId == dev(c)
    ensures CarriesDevice(dev, OnRegister(s, c, info, version))
  {
    if version <= PROTOCOL_VERSION {
      ReplacedLinks(dev, s, c, info.deviceId);
      PutContents(s.registry, Peer(info, s.now, c));
      BroadcastKeepsLinks(Enlisted(s, c, info), |Enlisted(s, c, info).registry|);
      assert OnRegister(s, c, info, version) == BroadcastList(Enlisted(s, c, info));
    }
  }

  lemma LeavingCarries(dev: Devices, s: Server, c: nat)
    requires TablesInv(dev, s) && CarriesDevice(dev, s)
    ensures CarriesDevice(dev, Cleanup(s, c))
  {
    CleanupKeepsTables(dev, s, c);
    DevicesSeparateConnections(dev, s.registry);
    WithoutConnectionContents(s.registry, c);
    CarriedOn(dev, s, Cleanup(s, c));
  }

  lemma {:induction false} EvictCarries(dev: Devices, s: Server, stale: Peers)
    requires TablesInv(dev, s) && CarriesDevice(dev, s)
    ensures CarriesDevice(dev, Evict(s, stale))
    decreases |stale|
  {
    if stale != [] {
      var c := stale[0].connectionId;
      var s1 := if c in s.sockets then CloseLink(s, c) else s;
      CarriedOn(dev, s, s1);
      LeavingCarries(dev, s1, c);
      CleanupKeepsTables(dev, s1, c);
      EvictCarries(dev, Cleanup(s1, c), stale[1..]);
    }
  }

  lemma TouchNobodyNew(peers: Peers, deviceId: string, now: int)
    ensures NobodyNew(peers, Touch(peers, deviceId, now))
  {
    TouchContents(peers, deviceId, now);
    forall p | p in Touch(peers, deviceId, now)
      ensures exists q :: q in peers && q.info == p.info && q.connectionId == p.connectionId
    {
      var q :| q in peers && p == TouchOne(q, deviceId, now);
    }
  }

  lemma HeartbeatCarries(dev: Devices, s: Server, c: nat, deviceId: string)
    requires CarriesDevice(dev, s)
    ensures CarriesDevice(dev, OnHeartbeat(s, c, deviceId))
  {
    TouchNobodyNew(s.registry, deviceId, s.now);
    CarriedOn(dev, s, OnHeartbeat(s, c, deviceId));
  }

  lemma CloseCarries(dev: Devices, s: Server, c: nat)
    requires TablesInv(dev, s) && CarriesDevice(dev, s) && c in s.links
    ensures CarriesDevice(dev, Cleanup(s.(links := s.links[c := s.links[c].(ready := Closed)]), c))
  {
    var s1 := s.(links := s.links[c := s.links[c].(ready := Closed)]);
    CarriedOn(dev, s, s1);
    LeavingCarries(dev, s1, c);
  }

  /** A signal, a new connection, a message delivered or the clock makes nobody new, and changes no device. */
  lemma QuietCarries(dev: Devices, s: Server, e: Event)
    requires CarriesDevice(dev, s) && (e.Relay? || e.Connect? || e.Delivered? || e.Tick?)
    ensures CarriesDevice(dev, Step(s, e))
  {
    var s' := Step(s, e);
    assert s'.registry == s.registry && SameDevices(s.links, s'.links);
  }

  lemma StepCarries(dev: Devices, s: Server, e: Event)
    requires TablesInv(dev, s) && CarriesDevice(dev, s) && Disciplined(dev, e)
    ensures CarriesDevice(dev, Step(s, e))
  {
    match e
    case Register(c, info, version) => if Hears(s, c) { RegisterCarries(dev, s, c, info, version); }
    case Heartbeat(c, deviceId) => if Hears(s, c) { HeartbeatCarries(dev, s, c, deviceId); }
    case Unregister(c) => LeavingCarries(dev, s, c);
    case SocketClosed(c) => if Hears(s, c) { CloseCarries(dev, s, c); }
    case SocketError(c) => LeavingCarries(dev, s, c);
    case Sweep => EvictCarries(dev, s, FindStale(s.registry, HEARTBEAT_TIMEOUT_MS, s.now));
    case _ => QuietCarries(dev, s, e);
  }

  lemma {:induction false} RunCarries(dev: Devices, events: seq<Event>)
    requires forall e :: e in events ==> Disciplined(dev, e)
    ensures CarriesDevice(dev, Run(FRESH, events))
  {
    if events != [] {
      RunCarries(dev, events[..|events| - 1]);
      RunKeepsTables(dev, events[..|events| - 1]);
      StepCarries(dev, Run(FRESH, events[..|events| - 1]), events[|events| - 1]);
    }
  }

  /**
   * In every reachable state, between two listed devices: a signal from the one to
   * the other is put on the other's socket, in the name of the device that
   * registered on the sending connection, and on no other.
   */
  lemma SignalsCarryTheirSender(dev: Devices, events: seq<Event>, from: Peer, p: Peer)
    requires forall e :: e in events ==> Disciplined(dev, e)
    requires from in Run(FRESH, events).registry && p in Run(FRESH, events).registry
    requires IsUp(Run(FRESH, events), from.connectionId)
    ensures var s := Run(FRESH, events);
            var s' := Step(s, Relay(from.connectionId, p.info.deviceId));
            && Gets(s.links, s'.links, p.connectionId, [Signal(from.info.deviceId)])
            && OnlyThese(s.links, s'.links, {p.connectionId})
  {
    RunKeepsTables(dev, events);
    RunCarries(dev, events);
    var s := Run(FRESH, events);
    assert p.connectionId in Connections(s.registry);
    assert Reachable(s, p, p.info.deviceId);
    SignalIsRelayed(dev, s, from.connectionId, p.info.deviceId);
  }

  // ---- the network and the clock ----

  /** A new connection is open, silent and nameless; the oldest message is delivered; the clock waits for the sweep. */
  lemma NetworkAndClock(s: Server, c: nat, ms: nat)
    ensures c !in s.links ==> Step(s, Connect(c)) == s.(links := s.links[c := Link(Open, [], None)])
    ensures c in s.links ==> Step(s, Connect(c)) == s
    ensures c in s.links && s.links[c].outbox != [] ==>
              var s' := Step(s, Delivered(c));
              && OnlyThese(s.links, s'.links, {c}) && s'.links[c].ready == s.links[c].ready
              && s'.links[c].device == s.links[c].device
              && [s.links[c].outbox[0]] + s'.links[c].outbox == s.links[c].outbox
    ensures Step(s, Tick(ms)).now == (if s.now + ms <= s.lastSweep + 5000 then s.now + ms else s.now)
    ensures Step(s, Sweep).lastSweep == s.now
  {
  }
}
