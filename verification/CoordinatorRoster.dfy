/** Who is on the coordinator's list, told device by device from the events alone. */
module CoordinatorRoster {
  import opened Basics
  import opened PeerRegistry
  import opened CoordinatorServer
  import opened CoordinatorSafety

  /** A place on the list: the connection it is held by, and when it was last heard of. */
  datatype Slot = Slot(c: nat, heardAt: int)

  /** The event announces the device: it registers, in a version the server speaks. */
  predicate Announces(s: Server, e: Event, d: string) {
    e.Register? && Hears(s, e.c) && e.protocolVersion <= PROTOCOL_VERSION && e.info.deviceId == d
  }

  predicate Beats(s: Server, e: Event, d: string) {
    e.Heartbeat? && Hears(s, e.c) && e.deviceId == d
  }

  /** The connection goes: by a goodbye, a close or an error. */
  predicate Leaves(s: Server, e: Event, c: nat) {
    (e.Unregister? || e.SocketClosed? || e.SocketError?) && e.c == c && Hears(s, c)
  }

  /** What one event makes of the device's place. */
  function After(s: Server, e: Event, d: string, slot: Option<Slot>): Option<Slot> {
    if Announces(s, e, d) then Some(Slot(e.c, s.now))
    else if slot.None? then None
    else if Beats(s, e, d) then Some(slot.value.(heardAt := s.now))
    else if Leaves(s, e, slot.value.c) then None
    else if e.Sweep? && s.now - slot.value.heardAt > HEARTBEAT_TIMEOUT_MS then None
    else slot
  }

  /** The place of device d after the events, without any table. */
  function Listing(d: string, events: seq<Event>): Option<Slot> {
    if events == [] then None
    else
      var init := events[..|events| - 1];
      After(Run(FRESH, init), events[|events| - 1], d, Listing(d, init))
  }

  /** The registry has the device at this place and nowhere else. */
  predicate At(peers: Peers, d: string, slot: Option<Slot>) {
    && (forall p :: p in peers && p.info.deviceId == d ==> slot == Some(Slot(p.connectionId, p.lastHeartbeatAt)))
    && (slot.Some? ==> exists p :: p in peers && p.info.deviceId == d)
  }

  // ---- each event ----

  lemma RegisterPlaces(s: Server, c: nat, info: PeerInfo, d: string, slot: Option<Slot>)
    requires DistinctDevices(s.registry) && At(s.registry, d, slot)
    ensures At(Put(s.registry, Peer(info, s.now, c)), d, if info.deviceId == d then Some(Slot(c, s.now)) else slot)
  {
    var p := Peer(info, s.now, c);
    PutContents(s.registry, p);
    assert p in Put(s.registry, p);
    if info.deviceId != d && slot.Some? {
      var q :| q in s.registry && q.info.deviceId == d;
      assert q in Put(s.registry, p);
    }
  }

  lemma RegisterRegistry(s: Server, c: nat, info: PeerInfo, version: int)
    requires c in s.links
    ensures OnRegister(s, c, info, version).registry ==
            if version > PROTOCOL_VERSION then s.registry else Put(s.registry, Peer(info, s.now, c))
  {
  }

  lemma BeatPlaces(peers: Peers, deviceId: string, now: int, d: string, slot: Option<Slot>)
    requires At(peers, d, slot)
    ensures At(Touch(peers, deviceId, now), d,
               if deviceId == d && slot.Some? then Some(slot.value.(heardAt := now)) else slot)
  {
    TouchContents(peers, deviceId, now);
    if slot.Some? {
      var p :| p in peers && p.info.deviceId == d;
      assert TouchOne(p, deviceId, now) in Touch(peers, deviceId, now);
    }
  }

  lemma LeavingPlaces(dev: Devices, s: Server, c: nat, d: string, slot: Option<Slot>)
    requires TablesInv(dev, s) && At(s.registry, d, slot)
    ensures At(Cleanup(s, c).registry, d, if slot.Some? && slot.value.c == c then None else slot)
  {
    CleanupKeepsTables(dev, s, c);
    DevicesSeparateConnections(dev, s.registry);
    WithoutConnectionContents(s.registry, c);
    if slot.Some? && slot.value.c != c {
      var p :| p in s.registry && p.info.deviceId == d;
      assert p in Cleanup(s, c).registry;
    }
  }

  lemma SweepPlaces(dev: Devices, s: Server, d: string, slot: Option<Slot>)
    requires TablesInv(dev, s) && At(s.registry, d, slot)
    ensures At(SweepStalePeers(s).registry, d,
               if slot.Some? && s.now - slot.value.heardAt > HEARTBEAT_TIMEOUT_MS then None else slot)
  {
    var after := SweepStalePeers(s).registry;
    forall p ensures p in after <==> p in s.registry && s.now - p.lastHeartbeatAt <= 15000 {
      SweepIsExact(dev, s, p);
    }
    if slot.Some? && s.now - slot.value.heardAt <= HEARTBEAT_TIMEOUT_MS {
      var p :| p in s.registry && p.info.deviceId == d;
      assert p in after;
    }
  }

  lemma LeaveEventPlaces(dev: Devices, s: Server, e: Event, d: string, slot: Option<Slot>)
    requires TablesInv(dev, s) && At(s.registry, d, slot) && (e.Unregister? || e.SocketClosed? || e.SocketError?)
    ensures At(Step(s, e).registry, d, After(s, e, d, slot))
  {
    if Hears(s, e.c) {
      var s' := if e.SocketClosed? then s.(links := s.links[e.c := s.links[e.c].(ready := Closed)]) else s;
      LeavingPlaces(dev, s', e.c, d, slot);
    }
  }

  lemma RegisterEventPlaces(s: Server, e: Event, d: string, slot: Option<Slot>)
    requires DistinctDevices(s.registry) && At(s.registry, d, slot) && e.Register?
    ensures At(Step(s, e).registry, d, After(s, e, d, slot))
  {
    if Hears(s, e.c) {
      RegisterRegistry(s, e.c, e.info, e.protocolVersion);
      RegisterPlaces(s, e.c, e.info, d, slot);
    }
  }

  lemma BeatEventPlaces(s: Server, e: Event, d: string, slot: Option<Slot>)
    requires At(s.registry, d, slot) && e.Heartbeat?
    ensures At(Step(s, e).registry, d, After(s, e, d, slot))
  {
    BeatPlaces(s.registry, e.deviceId, s.now, d, slot);
  }

  lemma OtherEventPlaces(s: Server, e: Event, d: string, slot: Option<Slot>)
    requires At(s.registry, d, slot) && (e.Connect? || e.Relay? || e.Delivered? || e.Tick?)
    ensures At(Step(s, e).registry, d, After(s, e, d, slot))
  {
  }

  lemma StepPlaces(dev: Devices, s: Server, e: Event, d: string, slot: Option<Slot>)
    requires TablesInv(dev, s) && At(s.registry, d, slot)
    ensures At(Step(s, e).registry, d, After(s, e, d, slot))
  {
    if e.Register? {
      RegisterEventPlaces(s, e, d, slot);
    } else if e.Heartbeat? {
      BeatEventPlaces(s, e, d, slot);
    } else if e.Sweep? {
      SweepPlaces(dev, s, d, slot);
    } else if e.Unregister? || e.SocketClosed? || e.SocketError? {
      LeaveEventPlaces(dev, s, e, d, slot);
    } else {
      OtherEventPlaces(s, e, d, slot);
    }
  }

  /**
   * The list, exactly: after any events, a device is on it iff it has registered
   * and since then its connection has not left and no sweep has found it silent
   * for more than 15000 ms; it is listed on the connection that registered it
   * last, with the time it was last heard of.
   */
  lemma {:induction false} RegistryIsListing(dev: Devices, events: seq<Event>, d: string)
    requires forall e :: e in events ==> Disciplined(dev, e)
    ensures At(Run(FRESH, events).registry, d, Listing(d, events))
  {
    if events != [] {
      var init := events[..|events| - 1];
      RegistryIsListing(dev, init, d);
      RunKeepsTables(dev, init);
      StepPlaces(dev, Run(FRESH, init), events[|events| - 1], d, Listing(d, init));
    }
  }

  // ---- a peer that keeps beating ----

  /** The time of the last event that announced the device or carried its heartbeat. */
  function LastHeard(d: string, events: seq<Event>): int {
    if events == [] then 0
    else
      var init, e := events[..|events| - 1], events[|events| - 1];
      var s := Run(FRESH, init);
      if Announces(s, e, d) || Beats(s, e, d) then s.now else LastHeard(d, init)
  }

  /** The j-th event neither takes connection c away, nor gives its device to another, nor sweeps it out. */
  predicate Spares(events: seq<Event>, j: nat, c: nat, d: string)
    requires j < |events|
  {
    var s := Run(FRESH, events[..j]);
    && !Leaves(s, events[j], c)
    && (Announces(s, events[j], d) ==> events[j].c == c)
    && (events[j].Sweep? ==> s.now - LastHeard(d, events[..j]) <= HEARTBEAT_TIMEOUT_MS)
  }

  /**
   * A peer that is on the list, whose connection stays and is not replaced, and
   * that is never silent for more than 15000 ms at a sweep, is on the list after
   * any number of events, with its last heartbeat.
   */
  lemma {:induction false} BeatingPeerStays(dev: Devices, events: seq<Event>, i: nat, c: nat, d: string)
    requires forall e :: e in events ==> Disciplined(dev, e)
    requires i <= |events| && Listing(d, events[..i]) == Some(Slot(c, LastHeard(d, events[..i])))
    requires forall j :: i <= j < |events| ==> Spares(events, j, c, d)
    ensures Listing(d, events) == Some(Slot(c, LastHeard(d, events)))
    ensures exists p :: p in Run(FRESH, events).registry && p.info.deviceId == d && p.connectionId == c
                        && p.lastHeartbeatAt == LastHeard(d, events)
  {
    BeatingKeepsListing(events, i, c, d);
    RegistryIsListing(dev, events, d);
  }

  lemma {:induction false} BeatingKeepsListing(events: seq<Event>, i: nat, c: nat, d: string)
    requires i <= |events| && Listing(d, events[..i]) == Some(Slot(c, LastHeard(d, events[..i])))
    requires forall j :: i <= j < |events| ==> Spares(events, j, c, d)
    ensures Listing(d, events) == Some(Slot(c, LastHeard(d, events)))
  {
    if i == |events| {
      assert events[..i] == events;
    } else {
      var init := events[..|events| - 1];
      assert init[..i] == events[..i];
      forall j | i <= j < |init| ensures Spares(init, j, c, d) {
        assert init[..j] == events[..j] && Spares(events, j, c, d);
      }
      BeatingKeepsListing(init, i, c, d);
      assert Spares(events, |init|, c, d);
    }
  }

  /** Registering puts a device on the list with the time it is heard. */
  lemma AnnouncedIsListed(events: seq<Event>, e: Event, d: string)
    requires Announces(Run(FRESH, events), e, d)
    ensures Listing(d, events + [e]) == Some(Slot(e.c, LastHeard(d, events + [e])))
  {
    assert (events + [e])[..|events|] == events;
  }
}
