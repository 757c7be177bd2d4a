/** coordinator/src/peerRegistry.ts: the insertion-ordered map from device ids to registered peers. */
module PeerRegistry {
  import opened Basics

  datatype DeviceType = Laptop | Phone

  datatype PeerInfo = PeerInfo(deviceId: string, nickname: string, deviceType: DeviceType)

  datatype Peer = Peer(info: PeerInfo, lastHeartbeatAt: int, connectionId: nat)

  /** The entries of the map in insertion order; a key occurs once. */
  type Peers = seq<Peer>

  predicate DistinctDevices(peers: Peers) {
    forall i, j :: 0 <= i < j < |peers| ==> peers[i].info.deviceId != peers[j].info.deviceId
  }

  predicate DistinctConnections(peers: Peers) {
    forall i, j :: 0 <= i < j < |peers| ==> peers[i].connectionId != peers[j].connectionId
  }

  // ---- the operations ----

  function Get(peers: Peers, deviceId: string): (r: Option<Peer>)
    ensures r.Some? ==> r.value in peers && r.value.info.deviceId == deviceId
    ensures r.None? ==> forall p :: p in peers ==> p.info.deviceId != deviceId
  {
    if peers == [] then None
    else if peers[0].info.deviceId == deviceId then Some(peers[0])
    else Get(peers[1..], deviceId)
  }

  /** Map.set: an existing key keeps its place. */
  function Put(peers: Peers, p: Peer): Peers {
    if peers == [] then [p]
    else if peers[0].info.deviceId == p.info.deviceId then [p] + peers[1..]
    else [peers[0]] + Put(peers[1..], p)
  }

  function TouchOne(p: Peer, deviceId: string, now: int): Peer {
    if p.info.deviceId == deviceId then p.(lastHeartbeatAt := now) else p
  }

  function Touch(peers: Peers, deviceId: string, now: int): (r: Peers)
    ensures |r| == |peers|
  {
    seq(|peers|, i requires 0 <= i < |peers| => TouchOne(peers[i], deviceId, now))
  }

  function FindByConnection(peers: Peers, c: nat): (r: Option<string>)
    ensures r.None? <==> forall p :: p in peers ==> p.connectionId != c
  {
    if peers == [] then None
    else if peers[0].connectionId == c then Some(peers[0].info.deviceId)
    else FindByConnection(peers[1..], c)
  }

  /** Deletes the first entry of connection c, and that one only. */
  function WithoutConnection(peers: Peers, c: nat): Peers {
    if peers == [] then []
    else if peers[0].connectionId == c then peers[1..]
    else [peers[0]] + WithoutConnection(peers[1..], c)
  }

  predicate IsStale(p: Peer, timeoutMs: int, now: int) {
    now - p.lastHeartbeatAt > timeoutMs
  }

  function FindStale(peers: Peers, timeoutMs: int, now: int): (r: Peers)
    ensures forall p :: p in r <==> p in peers && IsStale(p, timeoutMs, now)
  {
    if peers == [] then []
    else if IsStale(peers[0], timeoutMs, now) then [peers[0]] + FindStale(peers[1..], timeoutMs, now)
    else FindStale(peers[1..], timeoutMs, now)
  }

  function ListExcept(peers: Peers, deviceId: string): (r: seq<PeerInfo>)
    ensures forall x :: x in r <==> x.deviceId != deviceId && exists p :: p in peers && p.info == x
  {
    if peers == [] then []
    else if peers[0].info.deviceId == deviceId then ListExcept(peers[1..], deviceId)
    else [peers[0].info] + ListExcept(peers[1..], deviceId)
  }

  // ---- what they do to the contents ----

  lemma {:induction false} PutContents(peers: Peers, p: Peer)
    requires DistinctDevices(peers)
    ensures DistinctDevices(Put(peers, p))
    ensures forall q :: q in Put(peers, p) <==> q == p || (q in peers && q.info.deviceId != p.info.deviceId)
  {
    if peers != [] && peers[0].info.deviceId != p.info.deviceId {
      var rest := peers[1..];
      PutContents(rest, p);
      assert forall q :: q in peers <==> q == peers[0] || q in rest;
      var r := Put(rest, p);
      forall i, j | 0 <= i < j < |[peers[0]] + r|
        ensures ([peers[0]] + r)[i].info.deviceId != ([peers[0]] + r)[j].info.deviceId
      {
        if i == 0 {
          assert r[j - 1] in r;
        }
      }
    } else if peers != [] {
      assert peers == [peers[0]] + peers[1..];
      assert forall q :: q in peers[1..] ==> q.info.deviceId != p.info.deviceId;
    }
  }

  lemma {:induction false} WithoutConnectionContents(peers: Peers, c: nat)
    requires DistinctConnections(peers)
    ensures forall q :: q in WithoutConnection(peers, c) <==> q in peers && q.connectionId != c
    ensures DistinctDevices(peers) ==> DistinctDevices(WithoutConnection(peers, c))
  {
    if peers != [] {
      var rest := peers[1..];
      assert peers == [peers[0]] + rest;
      if peers[0].connectionId != c {
        WithoutConnectionContents(rest, c);
        var r := WithoutConnection(rest, c);
        if DistinctDevices(peers) {
          forall i, j | 0 <= i < j < |[peers[0]] + r|
            ensures ([peers[0]] + r)[i].info.deviceId != ([peers[0]] + r)[j].info.deviceId
          {
            if i == 0 {
              assert r[j - 1] in rest;
            }
          }
        }
      } else {
        assert forall q :: q in rest ==> q.connectionId != c;
      }
    }
  }

  lemma TouchContents(peers: Peers, deviceId: string, now: int)
    ensures forall q :: q in Touch(peers, deviceId, now) ==>
              exists p :: p in peers && q == TouchOne(p, deviceId, now)
    ensures forall p :: p in peers ==> TouchOne(p, deviceId, now) in Touch(peers, deviceId, now)
    ensures DistinctDevices(peers) ==> DistinctDevices(Touch(peers, deviceId, now))
  {
    var r := Touch(peers, deviceId, now);
    forall q | q in r ensures exists p :: p in peers && q == TouchOne(p, deviceId, now) {
      var i :| 0 <= i < |r| && r[i] == q;
      assert peers[i] in peers;
    }
    forall p | p in peers ensures TouchOne(p, deviceId, now) in r {
      var i :| 0 <= i < |peers| && peers[i] == p;
      assert r[i] == TouchOne(p, deviceId, now);
    }
  }

  /** A heartbeat changes nobody's view. */
  lemma {:induction false} TouchKeepsLists(peers: Peers, deviceId: string, now: int, d: string)
    ensures ListExcept(Touch(peers, deviceId, now), d) == ListExcept(peers, d)
  {
    if peers != [] {
      TouchKeepsLists(peers[1..], deviceId, now, d);
      assert Touch(peers, deviceId, now)[1..] == Touch(peers[1..], deviceId, now);
    }
  }

  /** A device that is listed is replaced in its place, and one that is not goes to the end. */
  lemma {:induction false} PutInPlace(peers: Peers, p: Peer)
    requires DistinctDevices(peers)
    ensures forall i :: 0 <= i < |peers| && peers[i].info.deviceId == p.info.deviceId ==> Put(peers, p) == peers[i := p]
    ensures (forall i :: 0 <= i < |peers| ==> peers[i].info.deviceId != p.info.deviceId) ==>
              Put(peers, p) == peers + [p]
  {
    if peers != [] && peers[0].info.deviceId != p.info.deviceId {
      var rest := peers[1..];
      PutInPlace(rest, p);
      forall i | 0 <= i < |peers| && peers[i].info.deviceId == p.info.deviceId ensures Put(peers, p) == peers[i := p] {
        assert rest[i - 1] == peers[i] && peers[i := p] == [peers[0]] + rest[i - 1 := p];
      }
      if forall i :: 0 <= i < |peers| ==> peers[i].info.deviceId != p.info.deviceId {
        assert forall i :: 0 <= i < |rest| ==> rest[i] == peers[i + 1];
        assert peers + [p] == [peers[0]] + (rest + [p]);
      }
    }
  }

  /** A heartbeat moves nobody, and changes the time of its device alone. */
  lemma TouchInPlace(peers: Peers, deviceId: string, now: int, i: nat)
    requires i < |peers|
    ensures |Touch(peers, deviceId, now)| == |peers|
    ensures Touch(peers, deviceId, now)[i]
         == if peers[i].info.deviceId == deviceId then peers[i].(lastHeartbeatAt := now) else peers[i]
  {
  }

  /** Everybody on the list but its i-th entry, once each and in the order of the list. */
  predicate Others(peers: Peers, i: nat, infos: seq<PeerInfo>)
    requires i < |peers|
  {
    && |infos| == |peers| - 1
    && forall j :: 0 <= j < |infos| ==> infos[j] == peers[if j < i then j else j + 1].info
  }

  lemma {:induction false} ListExceptUnlisted(peers: Peers, deviceId: string)
    requires forall j :: 0 <= j < |peers| ==> peers[j].info.deviceId != deviceId
    ensures |ListExcept(peers, deviceId)| == |peers|
    ensures forall j :: 0 <= j < |peers| ==> ListExcept(peers, deviceId)[j] == peers[j].info
  {
    if peers != [] {
      ListExceptUnlisted(peers[1..], deviceId);
    }
  }

  lemma DistinctTail(peers: Peers, i: nat)
    requires DistinctDevices(peers) && 0 < i < |peers|
    ensures DistinctDevices(peers[1..]) && peers[0].info.deviceId != peers[i].info.deviceId
  {
  }

  lemma DistinctFirst(peers: Peers)
    requires DistinctDevices(peers) && peers != []
    ensures forall j :: 0 <= j < |peers[1..]| ==> peers[1..][j].info.deviceId != peers[0].info.deviceId
  {
  }

  lemma OthersCons(p: Peer, rest: Peers, i: nat, infos: seq<PeerInfo>)
    requires i < |rest| && Others(rest, i, infos)
    ensures Others([p] + rest, i + 1, [p.info] + infos)
  {
  }

  lemma OtherHeadStays(peers: Peers, deviceId: string)
    requires peers != [] && peers[0].info.deviceId != deviceId
    ensures ListExcept(peers, deviceId) == [peers[0].info] + ListExcept(peers[1..], deviceId)
  {
  }

  /** Without one listed device the list is the others, without an unlisted one it is everybody. */
  lemma {:induction false} ListExceptIsOthers(peers: Peers, i: nat)
    requires DistinctDevices(peers) && i < |peers|
    ensures Others(peers, i, ListExcept(peers, peers[i].info.deviceId))
  {
    var rest := peers[1..];
    if i == 0 {
      DistinctFirst(peers);
      ListExceptUnlisted(rest, peers[0].info.deviceId);
    } else {
      DistinctTail(peers, i);
      ListExceptIsOthers(rest, i - 1);
      OtherHeadStays(peers, peers[i].info.deviceId);
      OthersCons(peers[0], rest, i - 1, ListExcept(rest, peers[i].info.deviceId));
      assert peers == [peers[0]] + rest;
    }
  }

  /** The stale entries once each and in the order of the list: the k-th follows those before it iff it is stale. */
  lemma {:induction false} FindStaleInOrder(peers: Peers, timeoutMs: int, now: int, k: nat)
    requires k < |peers|
    ensures FindStale([], timeoutMs, now) == []
    ensures FindStale(peers[..k + 1], timeoutMs, now)
            == FindStale(peers[..k], timeoutMs, now)
             + if now - peers[k].lastHeartbeatAt > timeoutMs then [peers[k]] else []
  {
    if k > 0 {
      FindStaleInOrder(peers[1..], timeoutMs, now, k - 1);
      assert peers[..k + 1][1..] == peers[1..][..k] && peers[..k][1..] == peers[1..][..k - 1];
    } else {
      assert peers[..1] == [peers[0]] && peers[..0] == [] && [peers[0]][1..] == [];
    }
  }

  lemma {:induction false} FirstOfConnection(peers: Peers, c: nat, i: nat)
    requires i < |peers| && peers[i].connectionId == c
    requires forall j :: 0 <= j < i ==> peers[j].connectionId != c
    ensures WithoutConnection(peers, c) == peers[..i] + peers[i + 1..]
    ensures FindByConnection(peers, c) == Some(peers[i].info.deviceId)
  {
    if i > 0 {
      FirstOfConnection(peers[1..], c, i - 1);
      assert peers[..i] == [peers[0]] + peers[1..][..i - 1];
    }
  }

  lemma {:induction false} NoneOfConnection(peers: Peers, c: nat)
    requires forall j :: 0 <= j < |peers| ==> peers[j].connectionId != c
    ensures WithoutConnection(peers, c) == peers && FindByConnection(peers, c) == None
  {
    if peers != [] {
      NoneOfConnection(peers[1..], c);
    }
  }

  /** PeerRegistry. */
  class Registry {
    var peers: Peers

    constructor ()
      ensures peers == []
    {
      peers := [];
    }

    method Register(info: PeerInfo, connectionId: nat, now: int)
      requires DistinctDevices(peers)
      modifies this
      ensures peers == Put(old(peers), Peer(info, now, connectionId)) && DistinctDevices(peers)
      ensures Get(peers, info.deviceId) == Some(Peer(info, now, connectionId))
    {
      PutContents(peers, Peer(info, now, connectionId));
      peers := Put(peers, Peer(info, now, connectionId));
    }

    method TouchHeartbeat(deviceId: string, now: int)
      modifies this
      ensures peers == Touch(old(peers), deviceId, now)
    {
      peers := seq(|peers|, i requires 0 <= i < |peers| reads this => TouchOne(peers[i], deviceId, now));
    }

    /** Walks the entries in order, deletes the first of this connection and names its device. */
    method RemoveByConnection(connectionId: nat) returns (removed: Option<string>)
      modifies this
      ensures peers == WithoutConnection(old(peers), connectionId)
      ensures removed == FindByConnection(old(peers), connectionId)
    {
      for i := 0 to |peers|
        invariant peers == old(peers)
        invariant forall j :: 0 <= j < i ==> peers[j].connectionId != connectionId
      {
        if peers[i].connectionId == connectionId {
          FirstOfConnection(peers, connectionId, i);
          removed := Some(peers[i].info.deviceId);
          peers := peers[..i] + peers[i + 1..];
          return;
        }
      }
      NoneOfConnection(peers, connectionId);
      removed := None;
    }
  }
}
