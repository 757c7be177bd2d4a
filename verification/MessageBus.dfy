/** transfer-engine/src/messageBus.ts: the chunk frame, and the backpressure gate in front of it. */
module ChunkFrame {
  import opened Basics

  const U32: nat := 0x1_0000_0000

  /** setUint32(0, index, false): big-endian, and silently modulo 2^32. */
  function IndexBytes(index: nat): (b: Bytes)
    ensures |b| == 4
  {
    [index / 256 / 256 / 256 % 256, index / 256 / 256 % 256, index / 256 % 256, index % 256]
  }

  function IndexOf(b: Bytes): nat
    requires |b| >= 4
  {
    var b0: nat, b1: nat, b2: nat, b3: nat := b[0], b[1], b[2], b[3];
    ((b0 * 256 + b1) * 256 + b2) * 256 + b3
  }

  function Encode(index: nat, data: Bytes): Bytes {
    IndexBytes(index) + data
  }

  datatype Frame = Frame(index: nat, data: Bytes)

  /** None is the RangeError getUint32 throws on fewer than four bytes. */
  function Decode(frame: Bytes): Option<Frame> {
    if |frame| < 4 then None else Some(Frame(IndexOf(frame), frame[4..]))
  }

  lemma IndexBytesValue(index: nat)
    ensures IndexOf(IndexBytes(index)) == index % U32
  {
    var x1: nat := index / 256;
    var x2: nat := x1 / 256;
    var x3: nat := x2 / 256;
    assert index == x1 * 256 + index % 256 && x1 == x2 * 256 + x1 % 256 && x2 == x3 * 256 + x2 % 256;
    assert x3 == x3 / 256 * 256 + x3 % 256;
    ModuloUnique(index, x3 / 256, IndexOf(IndexBytes(index)));
  }

  lemma ModuloUnique(x: nat, q: nat, r: nat)
    requires x == q * U32 + r && r < U32
    ensures x % U32 == r
  {
  }

  lemma IndexOfBytes(b: Bytes)
    requires |b| == 4
    ensures IndexBytes(IndexOf(b)) == b
  {
    var b0: nat, b1: nat, b2: nat, b3: nat := b[0], b[1], b[2], b[3];
    var x := IndexOf(b);
    var y1 := (b0 * 256 + b1) * 256 + b2;
    assert x / 256 == y1 && x % 256 == b3;
    assert y1 / 256 == b0 * 256 + b1 && y1 % 256 == b2;
  }

  /** A frame carries its payload exactly, and its index modulo 2^32: the round trip is exact iff the index fits. */
  lemma FrameRoundTrip(index: nat, data: Bytes)
    ensures Decode(Encode(index, data)) == Some(Frame(index % U32, data))
    ensures Decode(Encode(index, data)) == Some(Frame(index, data)) <==> index < U32
  {
    IndexBytesValue(index);
    var frame := Encode(index, data);
    assert frame[..4] == IndexBytes(index) && frame[4..] == data;
    assert IndexOf(frame) == IndexOf(frame[..4]);
  }

  /** Every frame that decodes at all is the encoding of what it decodes to. */
  lemma FrameIsEncoding(frame: Bytes)
    requires Decode(frame).Some?
    ensures Encode(Decode(frame).value.index, Decode(frame).value.data) == frame
  {
    IndexOfBytes(frame[..4]);
    assert frame[..4] + frame[4..] == frame;
  }

  /** encodeChunkFrame: allocate, write the index, copy the payload behind it. */
  method EncodeChunkFrame(index: nat, data: Bytes) returns (frame: array<Byte>)
    ensures fresh(frame)
    ensures frame[..] == Encode(index, data)
  {
    frame := new Byte[4 + |data|](_ => 0);
    var header := IndexBytes(index);
    for i := 0 to 4
      invariant frame[..i] == header[..i]
    {
      frame[i] := header[i];
    }
    for i := 0 to |data|
      invariant frame[..4] == header
      invariant frame[4..4 + i] == data[..i]
    {
      frame[4 + i] := data[i];
    }
    assert frame[..] == frame[..4] + frame[4..4 + |data|];
  }
}

/** One message going to a set of handlers that may unsubscribe, themselves or others, while it is handed round. */
module Dispatch {
  /** Set.delete of each of these, the rest keeping its order. */
  function Without(handlers: seq<nat>, gone: set<nat>): (rest: seq<nat>)
    ensures forall h :: h in rest <==> h in handlers && h !in gone
    ensures |rest| <= |handlers|
  {
    if handlers == [] then []
    else if handlers[0] in gone then Without(handlers[1..], gone)
    else [handlers[0]] + Without(handlers[1..], gone)
  }

  /** The handlers that are called: the oldest still subscribed, then those left once it has unsubscribed its own. */
  function Called(handlers: seq<nat>, removes: nat -> set<nat>): (called: seq<nat>)
    ensures forall h :: h in called ==> h in handlers
    decreases |handlers|
  {
    if handlers == [] then []
    else [handlers[0]] + Called(Without(handlers[1..], removes(handlers[0])), removes)
  }

  /** What the called handlers have unsubscribed. */
  function Gone(called: seq<nat>, removes: nat -> set<nat>): set<nat> {
    if called == [] then {} else removes(called[0]) + Gone(called[1..], removes)
  }

  lemma {:induction false} WithoutNone(handlers: seq<nat>, gone: set<nat>)
    requires forall h :: h in handlers ==> h !in gone
    ensures Without(handlers, gone) == handlers
  {
    if handlers != [] {
      WithoutNone(handlers[1..], gone);
    }
  }

  lemma {:induction false} WithoutKeepsDistinct(handlers: seq<nat>, gone: set<nat>)
    requires Distinct(handlers)
    ensures Distinct(Without(handlers, gone))
  {
    if handlers != [] {
      WithoutKeepsDistinct(handlers[1..], gone);
    }
  }

  lemma {:induction false} WithoutBoth(handlers: seq<nat>, gone: set<nat>, more: set<nat>)
    ensures Without(Without(handlers, gone), more) == Without(handlers, gone + more)
  {
    if handlers != [] {
      WithoutBoth(handlers[1..], gone, more);
      if handlers[0] !in gone {
        assert Without(handlers, gone)[1..] == Without(handlers[1..], gone);
      }
    }
  }

  lemma {:induction false} GoneOneMore(called: seq<nat>, removes: nat -> set<nat>, h: nat)
    ensures Gone(called + [h], removes) == Gone(called, removes) + removes(h)
  {
    if called != [] {
      GoneOneMore(called[1..], removes, h);
      assert (called + [h])[1..] == called[1..] + [h];
    } else {
      assert Gone([h], removes) == removes(h) + Gone([], removes);
    }
  }

  /** A handler misses the message only if one that was called before it has unsubscribed it. */
  lemma {:induction false} MissedWasRemoved(handlers: seq<nat>, removes: nat -> set<nat>, h: nat)
    requires h in handlers && h !in Called(handlers, removes)
    ensures exists g :: g in Called(handlers, removes) && h in removes(g)
    decreases |handlers|
  {
    var first, rest := handlers[0], Without(handlers[1..], removes(handlers[0]));
    assert first in Called(handlers, removes);
    if h !in removes(first) {
      assert h in rest;
      MissedWasRemoved(rest, removes, h);
      var g :| g in Called(rest, removes) && h in removes(g);
      assert g in Called(handlers, removes);
    }
  }

  /** The i-th handler is passed over once it is gone, and otherwise called next. */
  lemma NextCalled(all: seq<nat>, i: nat, gone: set<nat>, removes: nat -> set<nat>)
    requires i < |all|
    ensures all[i] in gone ==> Without(all[i..], gone) == Without(all[i + 1..], gone)
    ensures all[i] !in gone ==>
              Called(Without(all[i..], gone), removes)
              == [all[i]] + Called(Without(all[i + 1..], gone + removes(all[i])), removes)
  {
    var rest := all[i..];
    assert rest[0] == all[i] && rest[1..] == all[i + 1..];
    WithoutBoth(rest[1..], gone, removes(all[i]));
  }

  lemma CalledOneMore(all: seq<nat>, i: nat, called: seq<nat>, removes: nat -> set<nat>, gone: set<nat>)
    requires i < |all| && all[i] !in gone && gone == Gone(called, removes)
    ensures Gone(called + [all[i]], removes) == gone + removes(all[i])
    ensures Without(Without(all, gone), removes(all[i])) == Without(all, gone + removes(all[i]))
    ensures called + Called(Without(all[i..], gone), removes)
         == called + [all[i]] + Called(Without(all[i + 1..], gone + removes(all[i])), removes)
  {
    NextCalled(all, i, gone, removes);
    WithoutBoth(all, gone, removes(all[i]));
    GoneOneMore(called, removes, all[i]);
    Associate(called, all[i], Called(Without(all[i + 1..], gone + removes(all[i])), removes));
  }

  lemma Associate(called: seq<nat>, h: nat, rest: seq<nat>)
    ensures called + ([h] + rest) == called + [h] + rest
  {
  }

  predicate Distinct(handlers: seq<nat>) {
    forall i, j :: 0 <= i < j < |handlers| ==> handlers[i] != handlers[j]
  }

  /** Handlers that unsubscribe at most themselves, like those that wait for one message, take it from nobody. */
  lemma {:induction false} SelfRemovalSkipsNobody(handlers: seq<nat>, removes: nat -> set<nat>)
    requires Distinct(handlers) && forall h :: h in handlers ==> removes(h) <= {h}
    ensures Called(handlers, removes) == handlers
  {
    if handlers != [] {
      WithoutNone(handlers[1..], removes(handlers[0]));
      SelfRemovalSkipsNobody(handlers[1..], removes);
    }
  }
}

/** The drain gate of createMessageBus, over a channel whose buffer the network empties. */
module Backpressure {
  import opened Basics
  import opened Dispatch

  const HIGH_WATER_MARK: nat := 4 * 1024 * 1024
  const LOW_WATER_MARK: nat := 1 * 1024 * 1024

  /**
   * One sending loop on one channel. `waiters` are the resolvers pushed by
   * waitForBufferDrain, `passed` says that the loop's last wait has resolved
   * and its chunk is not yet sent.
   */
  datatype Gate = Gate(buffered: nat, waiters: seq<nat>, woken: seq<nat>, passed: bool)

  datatype GateAction =
    | Wait(waiter: nat)
    | SendChunk(frameSize: nat)
    | SendControl(size: nat)
    | Transmit(size: nat)

  /** waitForBufferDrain: go on below the high mark, enlist otherwise. */
  function WaitStep(g: Gate, waiter: nat): Gate {
    if g.buffered < HIGH_WATER_MARK then g.(passed := true) else g.(waiters := g.waiters + [waiter])
  }

  /**
   * The network takes `size` bytes; falling from above the low mark to it or
   * below fires bufferedamountlow in the same task (RTCDataChannel, section 6.2
   * of W3C WebRTC 1.0), whose handler resolves every waiter in order.
   */
  function TransmitStep(g: Gate, size: nat): Gate {
    var left := if size <= g.buffered then g.buffered - size else 0;
    if g.buffered > LOW_WATER_MARK && left <= LOW_WATER_MARK
    then g.(buffered := left, woken := g.woken + g.waiters, waiters := [], passed := g.passed || g.waiters != [])
    else g.(buffered := left)
  }

  /** The loop waits only between chunks, sends a chunk only past the gate, and sends nothing else in between. */
  function GateStep(g: Gate, a: GateAction): Gate {
    match a
    case Wait(w) => if g.passed || g.waiters != [] then g else WaitStep(g, w)
    case SendChunk(n) => if g.passed then g.(buffered := g.buffered + n, passed := false) else g
    case SendControl(n) => if g.passed then g else g.(buffered := g.buffered + n)
    case Transmit(n) => TransmitStep(g, n)
  }

  function GateRun(g: Gate, acts: seq<GateAction>): Gate {
    if |acts| == 0 then g else GateStep(GateRun(g, acts[..|acts| - 1]), acts[|acts| - 1])
  }

  const FRESH: Gate := Gate(0, [], [], false)

  /** Waiters exist only above the low mark, and the gate is open only below the high one. */
  predicate GateInv(g: Gate) {
    && (g.waiters != [] ==> g.buffered > LOW_WATER_MARK)
    && (g.passed ==> g.buffered < HIGH_WATER_MARK)
  }

  lemma {:induction false} GateRunInv(acts: seq<GateAction>)
    ensures GateInv(GateRun(FRESH, acts))
  {
    if |acts| > 0 {
      GateRunInv(acts[..|acts| - 1]);
    }
  }

  /** After every chunk that is really sent the buffer is below the high mark plus that one frame. */
  lemma BufferBound(acts: seq<GateAction>, frameSize: nat)
    requires GateRun(FRESH, acts).passed
    ensures GateRun(FRESH, acts + [SendChunk(frameSize)]).buffered < HIGH_WATER_MARK + frameSize
  {
    GateRunInv(acts);
    assert (acts + [SendChunk(frameSize)])[..|acts|] == acts;
  }

  function Sum(sizes: seq<nat>): nat {
    if |sizes| == 0 then 0 else Sum(sizes[..|sizes| - 1]) + sizes[|sizes| - 1]
  }

  function Transmits(sizes: seq<nat>): seq<GateAction> {
    seq(|sizes|, i requires 0 <= i < |sizes| => Transmit(sizes[i]))
  }

  /** What any amount of draining does: nothing above the low mark, one ordered wakeup on reaching it. */
  predicate Drained(g: Gate, amount: nat, h: Gate) {
    && GateInv(h)
    && h.buffered == Max(0, g.buffered - amount)
    && (h.buffered > LOW_WATER_MARK ==> h == g.(buffered := h.buffered))
    && (h.buffered <= LOW_WATER_MARK ==>
          h.waiters == [] && h.woken == g.woken + g.waiters && (g.waiters != [] ==> h.passed))
  }

  lemma TransmitOne(g: Gate, amount: nat, h: Gate, size: nat)
    requires Drained(g, amount, h)
    ensures Drained(g, amount + size, TransmitStep(h, size))
  {
    var next := TransmitStep(h, size);
    if h.buffered <= LOW_WATER_MARK {
      assert next == h.(buffered := next.buffered);
    }
  }

  lemma {:induction false} TransmitAll(g: Gate, sizes: seq<nat>)
    requires GateInv(g)
    ensures Drained(g, Sum(sizes), GateRun(g, Transmits(sizes)))
  {
    if |sizes| > 0 {
      var init := sizes[..|sizes| - 1];
      TransmitAll(g, init);
      assert Transmits(sizes)[..|sizes| - 1] == Transmits(init);
      TransmitOne(g, Sum(init), GateRun(g, Transmits(init)), sizes[|sizes| - 1]);
    } else {
      assert g.waiters == [] ==> g.woken + g.waiters == g.woken;
    }
  }

  /** No lost wakeup: however the buffer drains to the low mark, exactly the enlisted waiters are woken, in order. */
  lemma NoWaiterStranded(acts: seq<GateAction>, sizes: seq<nat>)
    requires GateRun(FRESH, acts).buffered <= Sum(sizes) + LOW_WATER_MARK
    ensures var g, h := GateRun(FRESH, acts), GateRun(GateRun(FRESH, acts), Transmits(sizes));
            h.waiters == [] && h.woken == g.woken + g.waiters && (g.waiters != [] ==> h.passed)
  {
    GateRunInv(acts);
    TransmitAll(GateRun(FRESH, acts), sizes);
  }

  // ---- what becomes of each byte and of each wait ----

  predicate Sends(g: Gate, a: GateAction) {
    (a.SendChunk? && g.passed) || (a.SendControl? && !g.passed)
  }

  /** A wait of the loop that finds the buffer full. */
  predicate FindsFull(g: Gate, a: GateAction) {
    a.Wait? && !g.passed && g.waiters == [] && g.buffered >= HIGH_WATER_MARK
  }

  function SizeOf(a: GateAction): nat {
    match a
    case SendChunk(n) => n
    case SendControl(n) => n
    case _ => 0
  }

  /** The bytes sent so far. */
  function BytesSent(acts: seq<GateAction>): nat {
    if acts == [] then 0
    else
      var init, last := acts[..|acts| - 1], acts[|acts| - 1];
      BytesSent(init) + if Sends(GateRun(FRESH, init), last) then SizeOf(last) else 0
  }

  /** The bytes the network has taken: as many as it asks for, and no more than there are. */
  function BytesTaken(acts: seq<GateAction>): nat {
    if acts == [] then 0
    else
      var init, last := acts[..|acts| - 1], acts[|acts| - 1];
      BytesTaken(init) + if last.Transmit? then Min(last.size, GateRun(FRESH, init).buffered) else 0
  }

  /** The waits that found the buffer full, in order. */
  function FoundFull(acts: seq<GateAction>): seq<nat> {
    if acts == [] then []
    else
      var init, last := acts[..|acts| - 1], acts[|acts| - 1];
      FoundFull(init) + if FindsFull(GateRun(FRESH, init), last) then [last.waiter] else []
  }

  lemma StepKeepsBytes(g: Gate, a: GateAction)
    ensures GateStep(g, a).buffered + (if a.Transmit? then Min(a.size, g.buffered) else 0)
         == g.buffered + if Sends(g, a) then SizeOf(a) else 0
  {
  }

  lemma StepKeepsWaits(g: Gate, a: GateAction)
    ensures GateStep(g, a).woken + GateStep(g, a).waiters
         == g.woken + g.waiters + if FindsFull(g, a) then [a.waiter] else []
    ensures a.Wait? && g.waiters == [] ==> (GateStep(g, a).passed <==> g.passed || g.buffered < HIGH_WATER_MARK)
  {
  }

  /**
   * Conservation at the gate, in every run: each byte sent has been taken by the
   * network or is in the buffer, and each wait that found the buffer full has been
   * woken or is enlisted, in the order in which they came.
   */
  lemma {:induction false} GateConserves(acts: seq<GateAction>)
    ensures var g := GateRun(FRESH, acts);
            && BytesSent(acts) == BytesTaken(acts) + g.buffered
            && g.woken + g.waiters == FoundFull(acts)
  {
    if acts != [] {
      GateConserves(acts[..|acts| - 1]);
      StepKeepsBytes(GateRun(FRESH, acts[..|acts| - 1]), acts[|acts| - 1]);
      StepKeepsWaits(GateRun(FRESH, acts[..|acts| - 1]), acts[|acts| - 1]);
    }
  }

  /** The bus object: handler sets in registration order, and the waiters of the gate. */
  class MessageBus {
    var jsonHandlers: seq<nat>
    var binaryHandlers: seq<nat>
    var drainWaiters: seq<nat>
    var bufferedAmount: nat
    var woken: seq<nat>
    var passed: bool

    ghost predicate Valid()
      reads this
    {
      && GateInv(State())
      && Distinct(jsonHandlers) && Distinct(binaryHandlers)
    }

    function State(): Gate
      reads this
    {
      Gate(bufferedAmount, drainWaiters, woken, passed)
    }

    constructor ()
      ensures Valid() && State() == FRESH && jsonHandlers == [] && binaryHandlers == []
    {
      jsonHandlers, binaryHandlers, drainWaiters, woken := [], [], [], [];
      bufferedAmount, passed := 0, false;
    }

    method OnJson(handler: nat)
      requires Valid()
      modifies this`jsonHandlers
      ensures Valid()
      ensures jsonHandlers == if handler in old(jsonHandlers) then old(jsonHandlers) else old(jsonHandlers) + [handler]
    {
      if handler !in jsonHandlers {
        jsonHandlers := jsonHandlers + [handler];
      }
    }

    /** One decoded message goes round the handlers, oldest registration first; each unsubscribes what it likes. */
    method DispatchJson(removes: nat -> set<nat>) returns (called: seq<nat>)
      requires Valid()
      modifies this`jsonHandlers
      ensures Valid() && called == Called(old(jsonHandlers), removes)
      ensures jsonHandlers == Without(old(jsonHandlers), Gone(called, removes))
    {
      var all := jsonHandlers;
      called := HandRound(removes);
      WithoutKeepsDistinct(all, Gone(called, removes));
    }

    method HandRound(removes: nat -> set<nat>) returns (called: seq<nat>)
      modifies this`jsonHandlers
      ensures called == Called(old(jsonHandlers), removes)
      ensures jsonHandlers == Without(old(jsonHandlers), Gone(called, removes))
    {
      var all := jsonHandlers;
      called := [];
      WithoutNone(all, {});
      for i := 0 to |all|
        invariant jsonHandlers == Without(all, Gone(called, removes))
        invariant called + Called(Without(all[i..], Gone(called, removes)), removes) == Called(all, removes)
      {
        NextCalled(all, i, Gone(called, removes), removes);
        if all[i] in jsonHandlers {
          CalledOneMore(all, i, called, removes, Gone(called, removes));
          called := called + [all[i]];
          jsonHandlers := Without(jsonHandlers, removes(all[i]));
        }
      }
      assert all[|all|..] == [];
    }

    method WaitForBufferDrain(waiter: nat)
      requires Valid()
      modifies this`drainWaiters, this`passed
      ensures Valid() && State() == WaitStep(old(State()), waiter)
    {
      if bufferedAmount < HIGH_WATER_MARK {
        passed := true;
        return;
      }
      drainWaiters := drainWaiters + [waiter];
    }

    method SendBinary(frame: Bytes)
      requires Valid()
      modifies this`bufferedAmount, this`passed
      ensures Valid() && State() == old(State()).(buffered := old(bufferedAmount) + |frame|, passed := false)
    {
      bufferedAmount := bufferedAmount + |frame|;
      passed := false;
    }

    /** onbufferedamountlow: take the list, empty it, resolve each entry. */
    method OnBufferedAmountLow()
      modifies this`drainWaiters, this`woken, this`passed
      ensures drainWaiters == [] && woken == old(woken) + old(drainWaiters)
      ensures passed == (old(passed) || old(drainWaiters) != [])
    {
      var waiters := drainWaiters;
      drainWaiters := [];
      for i := 0 to |waiters|
        invariant woken == old(woken) + waiters[..i]
        invariant passed == (old(passed) || i > 0)
        invariant drainWaiters == []
      {
        woken := woken + [waiters[i]];
        passed := true;
      }
      assert waiters[..|waiters|] == waiters;
    }

    method Transmitted(size: nat)
      requires Valid()
      modifies this`bufferedAmount, this`drainWaiters, this`woken, this`passed
      ensures Valid() && State() == GateStep(old(State()), Transmit(size))
    {
      var before := bufferedAmount;
      bufferedAmount := if size <= before then before - size else 0;
      if before > LOW_WATER_MARK && bufferedAmount <= LOW_WATER_MARK {
        OnBufferedAmountLow();
      }
    }
  }
}
