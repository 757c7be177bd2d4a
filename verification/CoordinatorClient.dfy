/** web/src/lib/coordinatorClient.ts: the browser's end of the signaling socket. */
module CoordinatorClient {
  import opened Basics
  import opened PeerRegistry
  import opened CoordinatorServer

  const RECONNECT_BASE_MS: nat := 500
  const RECONNECT_MAX_MS: nat := 10000
  const RECONNECT_ATTEMPTS_BEFORE_GIVING_UP: nat := 5

  datatype ClientMessage =
    | Hello(info: PeerInfo, protocolVersion: int)
    | SignalTo(to: string)
    | Beat(deviceId: string)
    | Goodbye(deviceId: string)

  datatype ConnectionState = Connecting | Online | Reconnecting | Offline

  /** Math.random(). */
  type Random = x: real | 0.0 <= x < 1.0 witness 0.0

  /** The fields of CoordinatorClient: `ws` names the current socket, `delays` the reconnect timers not yet fired. */
  datatype Client = Client(ws: Option<nat>, peers: seq<PeerInfo>, state: ConnectionState, reconnectAttempt: nat,
                           manuallyStopped: bool, delays: seq<real>)

  const IDLE: Client := Client(None, [], Connecting, 0, false, [])

  // ---- folding the server's messages ----

  function WithoutDevice(peers: seq<PeerInfo>, deviceId: string): (r: seq<PeerInfo>)
    ensures forall x :: x in r <==> x in peers && x.deviceId != deviceId
  {
    if peers == [] then []
    else if peers[0].deviceId == deviceId then WithoutDevice(peers[1..], deviceId)
    else [peers[0]] + WithoutDevice(peers[1..], deviceId)
  }

  function Apply(peers: seq<PeerInfo>, msg: ServerMessage): seq<PeerInfo> {
    match msg
    case PeerList(list) => list
    case PeerLeft(deviceId) => WithoutDevice(peers, deviceId)
    case _ => peers
  }

  function Fold(peers: seq<PeerInfo>, messages: seq<ServerMessage>): seq<PeerInfo> {
    if messages == [] then peers else Apply(Fold(peers, messages[..|messages| - 1]), messages[|messages| - 1])
  }

  // ---- the handlers; each ignores a socket that is no longer `ws` ----

  function AfterMessage(cl: Client, c: nat, msg: ServerMessage): Client {
    if cl.ws != Some(c) then cl else cl.(peers := Apply(cl.peers, msg))
  }

  function AfterOpen(cl: Client, c: nat): Client {
    if cl.ws != Some(c) then cl else cl.(reconnectAttempt := 0, state := Online)
  }

  function Backoff(attempt: nat): nat {
    Min(RECONNECT_BASE_MS * Pow2(attempt), RECONNECT_MAX_MS)
  }

  function Pow2(n: nat): (r: nat)
    ensures r >= 1
  {
    if n == 0 then 1 else 2 * Pow2(n - 1)
  }

  /** The delay of the timer, up to a fifth shorter or longer than the backoff. */
  function Jittered(attempt: nat, random: Random): real {
    Backoff(attempt) as real * (0.8 + random * 0.4)
  }

  function AfterClose(cl: Client, c: nat, random: Random): Client {
    if cl.ws != Some(c) then cl
    else if cl.manuallyStopped then cl.(state := Offline)
    else if cl.reconnectAttempt >= RECONNECT_ATTEMPTS_BEFORE_GIVING_UP then cl.(peers := [], state := Offline)
    else cl.(peers := [], state := Reconnecting, reconnectAttempt := cl.reconnectAttempt + 1,
             delays := cl.delays + [Jittered(cl.reconnectAttempt, random)])
  }

  /** What a socket that opens is given to send. */
  function Greeting(cl: Client, c: nat, info: PeerInfo): seq<ClientMessage> {
    if cl.ws != Some(c) then [] else [Hello(info, 1)]
  }

  /** open(): a new socket becomes the current one. */
  function OpenSocket(cl: Client, c: nat): Client {
    cl.(state := if cl.reconnectAttempt == 0 then Connecting else Reconnecting, ws := Some(c))
  }

  function Connected(cl: Client, c: nat): Client {
    OpenSocket(cl.(manuallyStopped := false), c)
  }

  function Retried(cl: Client, c: nat): Client {
    OpenSocket(cl.(reconnectAttempt := 0), c)
  }

  function TimedOut(cl: Client, c: nat): Client
    requires cl.delays != []
  {
    var cl' := cl.(delays := cl.delays[1..]);
    if cl.manuallyStopped then cl' else OpenSocket(cl', c)
  }

  function Disconnected(cl: Client): Client {
    cl.(manuallyStopped := true, ws := None)
  }

  // ---- what a departure takes from a list ----

  lemma {:induction false} UnlistedDeparture(peers: seq<PeerInfo>, deviceId: string)
    requires forall j :: 0 <= j < |peers| ==> peers[j].deviceId != deviceId
    ensures WithoutDevice(peers, deviceId) == peers
  {
    if peers != [] {
      UnlistedDeparture(peers[1..], deviceId);
    }
  }

  /** The list names each device once. */
  predicate NamesOnce(peers: seq<PeerInfo>) {
    forall j, k :: 0 <= j < k < |peers| ==> peers[j].deviceId != peers[k].deviceId
  }

  lemma CutList(peers: seq<PeerInfo>, i: nat)
    requires 0 < i < |peers|
    ensures peers[..i] + peers[i + 1..] == [peers[0]] + (peers[1..][..i - 1] + peers[1..][i..])
  {
  }

  lemma NamesOnceTail(peers: seq<PeerInfo>, i: nat)
    requires NamesOnce(peers) && i < |peers|
    ensures i > 0 ==> NamesOnce(peers[1..]) && peers[0].deviceId != peers[i].deviceId
    ensures i == 0 ==> forall j :: 0 <= j < |peers[1..]| ==> peers[1..][j].deviceId != peers[0].deviceId
  {
  }

  lemma HeadStays(peers: seq<PeerInfo>, deviceId: string)
    requires peers != [] && peers[0].deviceId != deviceId
    ensures WithoutDevice(peers, deviceId) == [peers[0]] + WithoutDevice(peers[1..], deviceId)
  {
  }

  /** Of a list that names each device once, a departure takes exactly the entry of its device, and no other moves. */
  lemma {:induction false} DepartureTakesOne(peers: seq<PeerInfo>, i: nat)
    requires i < |peers| && NamesOnce(peers)
    ensures WithoutDevice(peers, peers[i].deviceId) == peers[..i] + peers[i + 1..]
  {
    var rest := peers[1..];
    NamesOnceTail(peers, i);
    if i == 0 {
      UnlistedDeparture(rest, peers[0].deviceId);
      assert peers[..0] + rest == rest;
    } else {
      DepartureTakesOne(rest, i - 1);
      HeadStays(peers, peers[i].deviceId);
      CutList(peers, i);
    }
  }

  // ---- folding, seen from the front ----

  lemma {:induction false} FoldHead(peers: seq<PeerInfo>, messages: seq<ServerMessage>)
    requires messages != []
    ensures Fold(peers, messages) == Fold(Apply(peers, messages[0]), messages[1..])
  {
    if |messages| > 1 {
      var n := |messages| - 1;
      FoldHead(peers, messages[..n]);
      assert messages[..n][1..] == messages[1..][..n - 1];
    } else {
      assert messages == [messages[0]];
      assert messages[..0] == [];
    }
  }

  /** A peer list makes the client forget whatever it believed before. */
  lemma FoldAfterList(peers: seq<PeerInfo>, messages: seq<ServerMessage>, list: seq<PeerInfo>)
    requires messages != [] && messages[|messages| - 1] == PeerList(list)
    ensures Fold(peers, messages) == list
  {
  }

  lemma FoldPush(peers: seq<PeerInfo>, messages: seq<ServerMessage>, msg: ServerMessage)
    ensures Fold(peers, messages + [msg]) == Apply(Fold(peers, messages), msg)
  {
    assert (messages + [msg])[..|messages|] == messages;
  }

  /** The attempts run out before the cap on the delay is reached, whatever the jitter. */
  predicate ClientInv(cl: Client) {
    && cl.reconnectAttempt <= RECONNECT_ATTEMPTS_BEFORE_GIVING_UP
    && forall d :: d in cl.delays ==> 400.0 <= d < 9600.0
  }

  lemma BackoffSteps(attempt: nat)
    requires attempt < RECONNECT_ATTEMPTS_BEFORE_GIVING_UP
    ensures Backoff(attempt) == [500, 1000, 2000, 4000, 8000][attempt]
  {
    assert Pow2(1) == 2 && Pow2(2) == 4 && Pow2(3) == 8 && Pow2(4) == 16;
    assert attempt == 0 || attempt == 1 || attempt == 2 || attempt == 3 || attempt == 4;
  }

  lemma JitterBounds(attempt: nat, random: Random)
    requires attempt < RECONNECT_ATTEMPTS_BEFORE_GIVING_UP
    ensures 400.0 <= Jittered(attempt, random) < 9600.0
  {
    BackoffSteps(attempt);
  }

  lemma CloseKeepsClient(cl: Client, c: nat, random: Random)
    requires ClientInv(cl)
    ensures ClientInv(AfterClose(cl, c, random))
  {
    if cl.reconnectAttempt < RECONNECT_ATTEMPTS_BEFORE_GIVING_UP {
      JitterBounds(cl.reconnectAttempt, random);
    }
  }

  /** n sockets in a row that close without ever opening. */
  function Outage(cl: Client, n: nat, randoms: nat -> Random): Client {
    if n == 0 then cl else AfterClose(OpenSocket(Outage(cl, n - 1, randoms), n), n, randoms(n - 1))
  }

  function OutageDelays(n: nat, randoms: nat -> Random): seq<real>
    requires n <= 5
  {
    seq(n, i requires 0 <= i < n => [500, 1000, 2000, 4000, 8000][i] as real * (0.8 + randoms(i) * 0.4))
  }

  /** The client arms five timers, each twice the one before up to the jitter, and then gives up. */
  lemma {:induction false} GivesUpAfterFive(cl: Client, n: nat, randoms: nat -> Random)
    requires cl.reconnectAttempt == 0 && !cl.manuallyStopped
    ensures var out := Outage(cl, n, randoms);
            && out.reconnectAttempt == Min(n, 5) && !out.manuallyStopped
            && (n > 0 ==> out.peers == [] && (out.state == Offline <==> n > 5))
            && out.delays == cl.delays + OutageDelays(Min(n, 5), randoms)
  {
    if n > 0 {
      GivesUpAfterFive(cl, n - 1, randoms);
      if n <= 5 {
        BackoffSteps(n - 1);
        assert OutageDelays(n, randoms) == OutageDelays(n - 1, randoms) + [Jittered(n - 1, randoms(n - 1))];
      }
    }
  }

  /** A socket that has been superseded changes nothing, whatever it still delivers. */
  lemma SupersededSocketIsInert(cl: Client, c: nat, next: nat, messages: seq<ServerMessage>, random: Random)
    requires next != c
    ensures var now := OpenSocket(cl, next);
            && AfterOpen(now, c) == now && AfterClose(now, c, random) == now
            && forall m :: m in messages ==> AfterMessage(now, c, m) == now
  {
  }

  // ---- a client over any run of events ----

  /** What its host, its timers and its sockets do to a client. */
  datatype ClientEvent =
    | ConnectCalled(c: nat)
    | RetryCalled(c: nat)
    | DisconnectCalled(isOpen: bool)
    | TimerFired(c: nat)
    | SocketOpened(c: nat)
    | SocketSaid(c: nat, msg: ServerMessage)
    | SocketClosedDown(c: nat, random: Random)

  function React(cl: Client, e: ClientEvent): Client {
    match e
    case ConnectCalled(c) => Connected(cl, c)
    case RetryCalled(c) => Retried(cl, c)
    case DisconnectCalled(_) => Disconnected(cl)
    case TimerFired(c) => if cl.delays == [] then cl else TimedOut(cl, c)
    case SocketOpened(c) => AfterOpen(cl, c)
    case SocketSaid(c, msg) => AfterMessage(cl, c, msg)
    case SocketClosedDown(c, random) => AfterClose(cl, c, random)
  }

  function Reactions(events: seq<ClientEvent>): Client {
    if events == [] then IDLE else React(Reactions(events[..|events| - 1]), events[|events| - 1])
  }

  /** The loss of the current socket wipes the list, unless the host has hung up. */
  predicate Wipes(cl: Client, e: ClientEvent) {
    e.SocketClosedDown? && cl.ws == Some(e.c) && !cl.manuallyStopped
  }

  /** The messages of the sockets that were current when they spoke, since the list was last wiped. */
  function Taken(events: seq<ClientEvent>): seq<ServerMessage> {
    if events == [] then []
    else
      var init, e := events[..|events| - 1], events[|events| - 1];
      if Wipes(Reactions(init), e) then []
      else if e.SocketSaid? && Reactions(init).ws == Some(e.c) then Taken(init) + [e.msg]
      else Taken(init)
  }

  lemma ReactKeepsClient(cl: Client, e: ClientEvent)
    requires ClientInv(cl)
    ensures ClientInv(React(cl, e))
  {
    match e
    case SocketClosedDown(c, random) => CloseKeepsClient(cl, c, random);
    case TimerFired(_) =>
      if cl.delays != [] {
        assert forall d :: d in cl.delays[1..] ==> d in cl.delays;
      }
    case _ =>
  }

  lemma ReactKeepsBelief(events: seq<ClientEvent>, e: ClientEvent)
    requires Reactions(events).peers == Fold([], Taken(events))
    ensures Reactions(events + [e]).peers == Fold([], Taken(events + [e]))
  {
    assert (events + [e])[..|events|] == events;
    if e.SocketSaid? {
      FoldPush([], Taken(events), e.msg);
    }
  }

  /** Whatever happens to a client: it shows the fold of what its current sockets said since the last wipe. */
  lemma {:induction false} ShowsWhatItTook(events: seq<ClientEvent>)
    ensures ClientInv(Reactions(events)) && Reactions(events).peers == Fold([], Taken(events))
  {
    if events != [] {
      var init, e := events[..|events| - 1], events[|events| - 1];
      ShowsWhatItTook(init);
      ReactKeepsClient(Reactions(init), e);
      ReactKeepsBelief(init, e);
      assert events == init + [e];
    }
  }

  /** CoordinatorClient: the fields change in the handlers; what they send is returned to the caller's socket. */
  class CoordinatorClient {
    const info: PeerInfo
    var ws: Option<nat>
    var peers: seq<PeerInfo>
    var state: ConnectionState
    var reconnectAttempt: nat
    var manuallyStopped: bool
    var delays: seq<real>

    ghost function State(): Client
      reads this
    {
      Client(ws, peers, state, reconnectAttempt, manuallyStopped, delays)
    }

    constructor (info: PeerInfo)
      ensures State() == IDLE && this.info == info
    {
      this.info := info;
      ws, peers, state, reconnectAttempt, manuallyStopped, delays := None, [], Connecting, 0, false, [];
    }

    method Open(c: nat)
      modifies this
      ensures State() == OpenSocket(old(State()), c)
    {
      state := if reconnectAttempt == 0 then Connecting else Reconnecting;
      ws := Some(c);
    }

    method Connect(c: nat)
      modifies this
      ensures State() == Connected(old(State()), c)
    {
      manuallyStopped := false;
      Open(c);
    }

    method Retry(c: nat)
      modifies this
      ensures State() == Retried(old(State()), c)
    {
      reconnectAttempt := 0;
      Open(c);
    }

    /** The timer of a lost connection. */
    method TimerFires(c: nat)
      requires delays != []
      modifies this
      ensures State() == TimedOut(old(State()), c)
    {
      delays := delays[1..];
      if !manuallyStopped {
        Open(c);
      }
    }

    /** Returns what goes out on the abandoned socket before it is closed. */
    method Disconnect(isOpen: bool) returns (abandoned: Option<nat>, sent: seq<ClientMessage>)
      modifies this
      ensures State() == Disconnected(old(State()))
      ensures abandoned == old(ws) && sent == if old(ws).Some? && isOpen then [Goodbye(info.deviceId)] else []
    {
      manuallyStopped := true;
      sent := [];
      if ws.Some? && isOpen {
        sent := [Goodbye(info.deviceId)];
      }
      abandoned := ws;
      ws := None;
    }

    method OnOpen(c: nat) returns (sent: seq<ClientMessage>)
      modifies this
      ensures State() == AfterOpen(old(State()), c) && sent == Greeting(old(State()), c, info)
    {
      sent := [];
      if ws != Some(c) {
        return;
      }
      reconnectAttempt := 0;
      sent := [Hello(info, 1)];
      state := Online;
    }

    method OnMessage(c: nat, msg: ServerMessage)
      modifies this
      ensures State() == AfterMessage(old(State()), c, msg)
    {
      if ws != Some(c) {
        return;
      }
      match msg {
        case PeerList(list) => peers := list;
        case PeerLeft(deviceId) => peers := WithoutDevice(peers, deviceId);
        case _ =>
      }
    }

    method OnClose(c: nat, random: Random)
      modifies this
      ensures State() == AfterClose(old(State()), c, random)
    {
      if ws != Some(c) {
        return;
      }
      HandleDisconnect(random);
    }

    method HandleDisconnect(random: Random)
      requires ws.Some?
      modifies this
      ensures State() == AfterClose(old(State()), old(ws).value, random)
    {
      if manuallyStopped {
        state := Offline;
        return;
      }
      peers := [];
      if reconnectAttempt >= RECONNECT_ATTEMPTS_BEFORE_GIVING_UP {
        state := Offline;
        return;
      }
      state := Reconnecting;
      delays := delays + [Jittered(reconnectAttempt, random)];
      reconnectAttempt := reconnectAttempt + 1;
    }

    /** One call by the host, timer that fires or event of a socket; returns what is sent. */
    method Perform(e: ClientEvent) returns (sent: seq<ClientMessage>)
      modifies this
      ensures State() == React(old(State()), e)
      ensures e.SocketOpened? ==> sent == Greeting(old(State()), e.c, info)
      ensures e.DisconnectCalled? ==> sent == if old(ws).Some? && e.isOpen then [Goodbye(info.deviceId)] else []
      ensures !e.SocketOpened? && !e.DisconnectCalled? ==> sent == []
    {
      sent := [];
      match e {
        case ConnectCalled(c) => Connect(c);
        case RetryCalled(c) => Retry(c);
        case DisconnectCalled(isOpen) =>
          var abandoned;
          abandoned, sent := Disconnect(isOpen);
        case TimerFired(c) =>
          if delays != [] {
            TimerFires(c);
          }
        case SocketOpened(c) => sent := OnOpen(c);
        case SocketSaid(c, msg) => OnMessage(c, msg);
        case SocketClosedDown(c, random) => OnClose(c, random);
      }
    }

    /** Whatever happens to a new client and in whatever order: bounded delays, and the list its sockets spoke of. */
    method RunAll(events: seq<ClientEvent>)
      requires State() == IDLE
      modifies this
      ensures State() == Reactions(events) && ClientInv(State())
      ensures peers == Fold([], Taken(events))
    {
      for i := 0 to |events|
        invariant State() == Reactions(events[..i]) && ClientInv(State())
        invariant peers == Fold([], Taken(events[..i]))
      {
        ReactKeepsClient(State(), events[i]);
        ReactKeepsBelief(events[..i], events[i]);
        assert events[..i + 1] == events[..i] + [events[i]];
        assert (events[..i] + [events[i]])[..i] == events[..i];
        var sent := Perform(events[i]);
      }
      assert events[..|events|] == events;
    }
  }
}
