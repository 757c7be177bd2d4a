/** What a client does on each event, and what it never does again once its host has hung up. */
module ClientRuns {
  import opened Basics
  import opened PeerRegistry
  import opened CoordinatorServer
  import opened CoordinatorClient

  /** A socket that opens puts its client online with the count of failures cleared, and introduces the device. */
  lemma OpenedSocketGreets(cl: Client, c: nat, info: PeerInfo)
    requires cl.ws == Some(c)
    ensures var cl' := React(cl, SocketOpened(c));
            && cl'.state == Online && cl'.reconnectAttempt == 0 && cl' == cl.(state := Online, reconnectAttempt := 0)
    ensures Greeting(cl, c, info) == [Hello(info, PROTOCOL_VERSION)]
  {
  }

  /** The loss of the current socket: nothing is shown any more, and a timer is armed until five have been. */
  lemma LostSocketIsRetried(cl: Client, c: nat, random: Random)
    requires cl.ws == Some(c) && !cl.manuallyStopped && ClientInv(cl)
    ensures var cl' := React(cl, SocketClosedDown(c, random));
            && cl'.peers == [] && cl'.ws == cl.ws && cl'.manuallyStopped == cl.manuallyStopped
            && (cl.reconnectAttempt < 5 ==>
                  && cl'.state == Reconnecting && cl'.reconnectAttempt == cl.reconnectAttempt + 1
                  && |cl'.delays| == |cl.delays| + 1 && cl'.delays[..|cl.delays|] == cl.delays
                  && var backoff := [500, 1000, 2000, 4000, 8000][cl.reconnectAttempt] as real;
                     backoff * 0.8 <= cl'.delays[|cl.delays|] < backoff * 1.2)
            && (cl.reconnectAttempt == 5 ==>
                  cl'.state == Offline && cl'.reconnectAttempt == 5 && cl'.delays == cl.delays)
  {
    if cl.reconnectAttempt < 5 {
      BackoffSteps(cl.reconnectAttempt);
    }
  }

  /** After a hang-up the loss of a socket that has become current all the same arms no timer and keeps the list. */
  lemma StoppedSocketIsNotRetried(cl: Client, c: nat, random: Random)
    requires cl.ws == Some(c) && cl.manuallyStopped
    ensures React(cl, SocketClosedDown(c, random)) == cl.(state := Offline)
  {
  }

  /** An armed timer that fires opens a socket, which becomes the current one; it does not when the host has hung up. */
  lemma TimerReconnects(cl: Client, c: nat)
    requires cl.delays != []
    ensures var cl' := React(cl, TimerFired(c));
            && [cl.delays[0]] + cl'.delays == cl.delays && cl'.peers == cl.peers
            && cl'.reconnectAttempt == cl.reconnectAttempt && cl'.manuallyStopped == cl.manuallyStopped
            && (if cl.manuallyStopped then cl'.ws == cl.ws && cl'.state == cl.state
                else cl'.ws == Some(c) && cl'.state == if cl.reconnectAttempt == 0 then Connecting else Reconnecting)
  {
  }

  /** The host's connect and retry make a new socket current; connect lifts a hang-up, retry clears the count. */
  lemma HostReconnects(cl: Client, c: nat)
    ensures var cl' := React(cl, ConnectCalled(c));
            && cl'.ws == Some(c) && !cl'.manuallyStopped && cl'.peers == cl.peers && cl'.delays == cl.delays
            && cl'.reconnectAttempt == cl.reconnectAttempt
            && cl'.state == if cl.reconnectAttempt == 0 then Connecting else Reconnecting
    ensures var cl' := React(cl, RetryCalled(c));
            && cl'.ws == Some(c) && cl'.reconnectAttempt == 0 && cl'.state == Connecting
            && cl'.peers == cl.peers && cl'.delays == cl.delays && cl'.manuallyStopped == cl.manuallyStopped
  {
  }

  /** A message on the current socket: a list is taken over as it is, and only a departure takes anything away. */
  lemma MessagesAreTaken(cl: Client, c: nat, msg: ServerMessage)
    requires cl.ws == Some(c)
    ensures var cl' := React(cl, SocketSaid(c, msg));
            && cl' == cl.(peers := cl'.peers)
            && (msg.PeerList? ==> cl'.peers == msg.peers)
            && (!msg.PeerList? && !msg.PeerLeft? ==> cl'.peers == cl.peers)
            && (msg.PeerLeft? && NamesOnce(cl.peers) ==>
                  && (forall i :: 0 <= i < |cl.peers| && cl.peers[i].deviceId == msg.deviceId ==>
                        cl'.peers == cl.peers[..i] + cl.peers[i + 1..])
                  && ((forall i :: 0 <= i < |cl.peers| ==> cl.peers[i].deviceId != msg.deviceId) ==>
                        cl'.peers == cl.peers))
  {
    if msg.PeerLeft? && NamesOnce(cl.peers) {
      forall i | 0 <= i < |cl.peers| && cl.peers[i].deviceId == msg.deviceId
        ensures WithoutDevice(cl.peers, msg.deviceId) == cl.peers[..i] + cl.peers[i + 1..]
      {
        DepartureTakesOne(cl.peers, i);
      }
      if forall i :: 0 <= i < |cl.peers| ==> cl.peers[i].deviceId != msg.deviceId {
        UnlistedDeparture(cl.peers, msg.deviceId);
      }
    }
  }

  // ---- hanging up ----

  function RunFrom(cl: Client, events: seq<ClientEvent>): Client {
    if events == [] then cl else React(RunFrom(cl, events[..|events| - 1]), events[|events| - 1])
  }

  predicate HostCallsAgain(e: ClientEvent) {
    e.ConnectCalled? || e.RetryCalled?
  }

  /**
   * Once its host has disconnected, a client has no current socket, whatever its
   * old sockets say and its timers do, until the host calls again; it shows what
   * it showed, and arms no timer.
   */
  lemma {:induction false} HungUpStaysDown(cl: Client, isOpen: bool, events: seq<ClientEvent>)
    requires forall i :: 0 <= i < |events| ==> !HostCallsAgain(events[i])
    ensures var down := RunFrom(React(cl, DisconnectCalled(isOpen)), events);
            && down.ws == None && down.manuallyStopped && down.peers == cl.peers && down.state == cl.state
            && |down.delays| <= |cl.delays|
  {
    if events != [] {
      var init := events[..|events| - 1];
      assert forall i :: 0 <= i < |init| ==> init[i] == events[i];
      HungUpStaysDown(cl, isOpen, init);
      assert !HostCallsAgain(events[|events| - 1]);
    }
  }
}
