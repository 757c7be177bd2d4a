/** transfer-engine/src/pairing.ts: who is trusted, and for how long. */
module PairingStores {
  import opened Basics

  const PAIRING_TTL_MS: int := 24 * 60 * 60 * 1000
  const STORAGE_PREFIX: string := "anydrop:trust:"

  predicate Fresh(trustedAt: int, now: int) {
    now - trustedAt <= PAIRING_TTL_MS
  }

  /** The entries that isTrusted would answer yes to. */
  function Trusted(pairs: map<string, int>, now: int): set<string> {
    set d | d in pairs && Fresh(pairs[d], now)
  }

  /** On a clock that does not go back, trust only ever runs out, and asking about it changes no answer. */
  lemma TrustRunsOut(pairs: map<string, int>, asked: string, now: int, later: int)
    requires now <= later
    ensures Trusted(pairs, later) <= Trusted(pairs, now)
    ensures asked !in Trusted(pairs, now) ==> Trusted(pairs - {asked}, later) == Trusted(pairs, later)
  {
  }

  /** MemoryPairingStore. */
  class MemoryPairingStore {
    var pairs: map<string, int>

    constructor ()
      ensures pairs == map[]
    {
      pairs := map[];
    }

    method IsTrusted(peer: string, now: int) returns (trusted: bool)
      modifies this
      ensures trusted <==> peer in Trusted(old(pairs), now)
      ensures pairs == if trusted then old(pairs) else old(pairs) - {peer}
    {
      if peer !in pairs {
        assert pairs - {peer} == pairs;
        return false;
      }
      if now - pairs[peer] > PAIRING_TTL_MS {
        pairs := pairs - {peer};
        return false;
      }
      return true;
    }

    method Trust(peer: string, now: int)
      modifies this
      ensures pairs == old(pairs)[peer := now]
      ensures forall t :: Trusted(pairs, t) ==
                (Trusted(old(pairs), t) - {peer}) + (if Fresh(now, t) then {peer} else {})
    {
      pairs := pairs[peer := now];
    }
  }

  /** LocalStoragePairingStore: the same over a shared string-keyed storage; other keys are left alone. */
  class LocalStoragePairingStore {
    var storage: map<string, int>

    constructor (storage: map<string, int>)
      ensures this.storage == storage
    {
      this.storage := storage;
    }

    method IsTrusted(peer: string, now: int) returns (trusted: bool)
      modifies this
      ensures trusted <==> STORAGE_PREFIX + peer in Trusted(old(storage), now)
      ensures storage == if trusted then old(storage) else old(storage) - {STORAGE_PREFIX + peer}
    {
      var key := STORAGE_PREFIX + peer;
      if key !in storage {
        assert storage - {key} == storage;
        return false;
      }
      if now - storage[key] > PAIRING_TTL_MS {
        storage := storage - {key};
        return false;
      }
      return true;
    }

    method Trust(peer: string, now: int)
      modifies this
      ensures storage == old(storage)[STORAGE_PREFIX + peer := now]
    {
      storage := storage[STORAGE_PREFIX + peer := now];
    }
  }

  /** Different devices have different keys. */
  lemma KeysAreDistinct(a: string, b: string)
    ensures STORAGE_PREFIX + a == STORAGE_PREFIX + b <==> a == b
  {
    assert (STORAGE_PREFIX + a)[|STORAGE_PREFIX|..] == a;
    assert (STORAGE_PREFIX + b)[|STORAGE_PREFIX|..] == b;
  }
}

/** The two PIN loops of web/src/lib/peerSession.ts, over an ordered channel. */
module Pairing {
  import opened Basics

  const MAX_ATTEMPTS: nat := 3

  datatype Msg = Request | Verify(pin: string) | Result(ok: bool)

  /** Through: on to the transfer. Refused: the channel is closed. */
  datatype SenderPhase = Prompting | AwaitResult | SenderThrough | SenderRefused
  datatype ReceiverPhase = AwaitRequest | AwaitVerify | ReceiverThrough | ReceiverRefused

  /** Each side counts the rounds it has finished; `submitted` are the PINs typed in so far. */
  datatype State = State(
    pin: string,
    sender: SenderPhase,
    sent: nat,
    submitted: seq<string>,
    receiver: ReceiverPhase,
    checked: nat,
    toReceiver: seq<Msg>,
    toSender: seq<Msg>)

  datatype Action = Prompted(pin: string) | AtReceiver | AtSender

  /** Each side asks its own store whether it trusts the other. */
  function Begin(pin: string, senderTrusts: bool, receiverTrusts: bool): State {
    State(pin, if senderTrusts then SenderThrough else Prompting, 0, [],
          if receiverTrusts then ReceiverThrough else AwaitRequest, 0, if senderTrusts then [] else [Request], [])
  }

  function PromptStep(s: State, pin: string): State {
    if !s.sender.Prompting? then s
    else s.(sender := AwaitResult, submitted := s.submitted + [pin], toReceiver := s.toReceiver + [Verify(pin)])
  }

  function VerifyStep(s: State, pin: string): State {
    var ok := pin == s.pin;
    s.(checked := s.checked + 1, toSender := s.toSender + [Result(ok)],
       receiver := if ok then ReceiverThrough
                   else if s.checked + 1 < MAX_ATTEMPTS then AwaitVerify else ReceiverRefused)
  }

  /** The next message reaches the receiver, who takes only the kind it is waiting for. */
  function AtReceiverStep(s: State): State {
    if s.toReceiver == [] then s
    else
      var s' := s.(toReceiver := s.toReceiver[1..]);
      match s.toReceiver[0]
      case Request => if s.receiver.AwaitRequest? then s'.(receiver := AwaitVerify) else s'
      case Verify(pin) => if s.receiver.AwaitVerify? then VerifyStep(s', pin) else s'
      case Result(_) => s'
  }

  function ResultStep(s: State, ok: bool): State {
    s.(sent := s.sent + 1,
       sender := if ok then SenderThrough else if s.sent + 1 < MAX_ATTEMPTS then Prompting else SenderRefused)
  }

  function AtSenderStep(s: State): State {
    if s.toSender == [] then s
    else
      var s' := s.(toSender := s.toSender[1..]);
      if s.toSender[0].Result? && s.sender.AwaitResult? then ResultStep(s', s.toSender[0].ok) else s'
  }

  function Step(s: State, a: Action): State {
    match a
    case Prompted(pin) => PromptStep(s, pin)
    case AtReceiver => AtReceiverStep(s)
    case AtSender => AtSenderStep(s)
  }

  function Run(s: State, acts: seq<Action>): State {
    if |acts| == 0 then s else Step(Run(s, acts[..|acts| - 1]), acts[|acts| - 1])
  }

  predicate SenderDone(s: State) {
    s.sender.SenderThrough? || s.sender.SenderRefused?
  }

  predicate ReceiverDone(s: State) {
    s.receiver.ReceiverThrough? || s.receiver.ReceiverRefused?
  }

  // ---- lockstep ----

  /** The first n PINs typed in were all wrong. */
  predicate AllWrong(s: State, n: nat)
    requires n <= |s.submitted|
  {
    forall i :: 0 <= i < n ==> s.submitted[i] != s.pin
  }

  /** What is still to be read by a receiver that has not seen the request, and by one that has. */
  function Opening(s: State): seq<Msg> {
    if s.receiver.AwaitRequest? then [Request] else []
  }

  /** The sender waits for the human: nothing of a round is in flight. */
  predicate BetweenRounds(s: State) {
    && s.sent == s.checked == |s.submitted| < MAX_ATTEMPTS && AllWrong(s, s.sent)
    && (s.receiver.AwaitRequest? || s.receiver.AwaitVerify?) && (s.receiver.AwaitRequest? ==> s.sent == 0)
    && s.toReceiver == Opening(s) && s.toSender == []
  }

  /** The PIN is on its way and not yet checked. */
  predicate PinInFlight(s: State) {
    && s.sent == s.checked < MAX_ATTEMPTS && |s.submitted| == s.sent + 1 && AllWrong(s, s.sent)
    && (s.receiver.AwaitRequest? || s.receiver.AwaitVerify?) && (s.receiver.AwaitRequest? ==> s.sent == 0)
    && s.toReceiver == Opening(s) + [Verify(s.submitted[s.sent])] && s.toSender == []
  }

  /** The verdict is on its way back; the receiver is one round ahead. */
  predicate VerdictInFlight(s: State) {
    && s.checked == s.sent + 1 <= MAX_ATTEMPTS && |s.submitted| == s.checked && AllWrong(s, s.sent)
    && var ok := s.submitted[s.sent] == s.pin;
       && s.toReceiver == [] && s.toSender == [Result(ok)]
       && s.receiver == if ok then ReceiverThrough
                        else if s.checked < MAX_ATTEMPTS then AwaitVerify else ReceiverRefused
  }

  predicate Agreed(s: State) {
    && s.sent == s.checked == |s.submitted| <= MAX_ATTEMPTS && s.sent > 0 && AllWrong(s, s.sent - 1)
    && s.toReceiver == [] && s.toSender == []
    && (if s.submitted[s.sent - 1] == s.pin then s.sender.SenderThrough? && s.receiver.ReceiverThrough?
        else s.sent == MAX_ATTEMPTS && s.sender.SenderRefused? && s.receiver.ReceiverRefused?)
  }

  predicate LockstepInv(s: State) {
    match s.sender
    case Prompting => BetweenRounds(s)
    case AwaitResult => PinInFlight(s) || VerdictInFlight(s)
    case _ => Agreed(s)
  }

  lemma PromptKeeps(s: State, pin: string)
    requires LockstepInv(s)
    ensures LockstepInv(PromptStep(s, pin))
  {
    if s.sender.Prompting? {
      assert PinInFlight(PromptStep(s, pin));
    }
  }

  lemma AtReceiverKeeps(s: State)
    requires LockstepInv(s)
    ensures LockstepInv(AtReceiverStep(s))
  {
    var s' := AtReceiverStep(s);
    if s.sender.AwaitResult? && PinInFlight(s) {
      if s.receiver.AwaitRequest? {
        assert s.toReceiver[1..] == [Verify(s.submitted[s.sent])];
        assert PinInFlight(s');
      } else {
        assert VerdictInFlight(s');
      }
    }
  }

  lemma AtSenderKeeps(s: State)
    requires LockstepInv(s)
    ensures LockstepInv(AtSenderStep(s))
  {
  }

  lemma {:induction false} RunKeepsLockstep(pin: string, acts: seq<Action>)
    ensures LockstepInv(Run(Begin(pin, false, false), acts))
    ensures Run(Begin(pin, false, false), acts).pin == pin
  {
    if |acts| > 0 {
      RunKeepsLockstep(pin, acts[..|acts| - 1]);
      var s := Run(Begin(pin, false, false), acts[..|acts| - 1]);
      match acts[|acts| - 1]
      case Prompted(p) => PromptKeeps(s, p);
      case AtReceiver => AtReceiverKeeps(s);
      case AtSender => AtSenderKeeps(s);
    }
  }

  predicate IsRound(m: Msg) {
    m.Verify? || m.Result?
  }

  function InFlight(q: seq<Msg>): nat {
    if |q| == 0 then 0 else InFlight(q[..|q| - 1]) + if IsRound(q[|q| - 1]) then 1 else 0
  }

  /**
   * Between two devices that do not trust each other yet, whatever is typed in:
   * at most one message of a round is in flight and the receiver is at most one
   * round ahead; there are at most three rounds; either side goes through only
   * on the generated PIN; and when both are done they agree, with the verdict
   * that one of the PINs typed in was the right one.
   */
  lemma PairingLockstep(pin: string, acts: seq<Action>)
    ensures var s := Run(Begin(pin, false, false), acts);
            && InFlight(s.toReceiver) + InFlight(s.toSender) <= 1 && s.sent <= s.checked <= s.sent + 1
            && |s.submitted| <= 3
            && (s.sender.SenderThrough? || s.receiver.ReceiverThrough? ==> pin in s.submitted)
            && (s.sender.SenderRefused? || s.receiver.ReceiverRefused? ==> pin !in s.submitted && |s.submitted| == 3)
            && (SenderDone(s) ==> ReceiverDone(s))
            && (SenderDone(s) ==> s.sender.SenderThrough? == s.receiver.ReceiverThrough? == (pin in s.submitted))
  {
    RunKeepsLockstep(pin, acts);
    var s := Run(Begin(pin, false, false), acts);
    InFlightOfLockstep(s);
    WrongPins(s);
  }

  lemma InFlightOfLockstep(s: State)
    requires LockstepInv(s)
    ensures InFlight(s.toReceiver) + InFlight(s.toSender) <= 1
  {
    assert InFlight([]) == 0;
    assert forall m: Msg :: [m][..0] == [];
    if s.sender.AwaitResult? && PinInFlight(s) && s.receiver.AwaitRequest? {
      assert s.toReceiver[..1] == [Request];
    }
  }

  lemma WrongPins(s: State)
    requires LockstepInv(s)
    ensures s.sender.SenderThrough? || s.receiver.ReceiverThrough? ==> s.pin in s.submitted
    ensures s.sender.SenderRefused? || s.receiver.ReceiverRefused? ==> s.pin !in s.submitted && |s.submitted| == 3
  {
    if s.sender.AwaitResult? && VerdictInFlight(s) && s.receiver.ReceiverThrough? {
      assert s.submitted[s.sent] == s.pin;
    }
    if s.sender.SenderThrough? {
      assert s.submitted[s.sent - 1] == s.pin;
    }
  }

  // ---- it ends ----

  /** The work left: three steps a round, and the request. */
  function Left(s: State): int {
    3 * (MAX_ATTEMPTS - s.checked) + (if s.receiver.AwaitRequest? then 1 else 0) + |s.toSender|
    - (if s.sender.AwaitResult? && s.sent == s.checked then 1 else 0)
  }

  /** Nothing is in flight and nobody is asked for a PIN. */
  predicate Stuck(s: State) {
    s.toReceiver == [] && s.toSender == [] && !s.sender.Prompting?
  }

  lemma StuckMeansDone(pin: string, acts: seq<Action>)
    requires Stuck(Run(Begin(pin, false, false), acts))
    ensures SenderDone(Run(Begin(pin, false, false), acts)) && ReceiverDone(Run(Begin(pin, false, false), acts))
  {
    RunKeepsLockstep(pin, acts);
  }

  lemma StepAdvances(s: State, a: Action)
    requires LockstepInv(s) && Step(s, a) != s
    ensures 0 <= Left(Step(s, a)) < Left(s)
  {
    RunsOn(s, a);
  }

  lemma RunsOn(s: State, a: Action)
    requires LockstepInv(s)
    ensures LockstepInv(Step(s, a))
  {
    match a
    case Prompted(p) => PromptKeeps(s, p);
    case AtReceiver => AtReceiverKeeps(s);
    case AtSender => AtSenderKeeps(s);
  }

  predicate Effective(s: State, acts: seq<Action>) {
    forall i :: 0 <= i < |acts| ==> Run(s, acts[..i + 1]) != Run(s, acts[..i])
  }

  /** Pairing takes at most ten steps that change anything. */
  lemma {:induction false} PairingIsShort(pin: string, acts: seq<Action>)
    requires Effective(Begin(pin, false, false), acts)
    ensures 0 <= Left(Run(Begin(pin, false, false), acts)) <= 10 - |acts|
  {
    var s0 := Begin(pin, false, false);
    if |acts| > 0 {
      var init := acts[..|acts| - 1];
      forall i | 0 <= i < |init| ensures Run(s0, init[..i + 1]) != Run(s0, init[..i]) {
        assert init[..i + 1] == acts[..i + 1] && init[..i] == acts[..i];
      }
      PairingIsShort(pin, init);
      RunKeepsLockstep(pin, init);
      assert acts[..|acts|] == acts;
      StepAdvances(Run(s0, init), acts[|acts| - 1]);
    }
  }

  // ---- stores that disagree ----

  /** If one side trusts the other and is not trusted back, the untrusting side waits for ever. */
  predicate OneSided(s: State, senderTrusts: bool) {
    if senderTrusts then s.sender.SenderThrough? && s.receiver.AwaitRequest? && s.toReceiver == [] && s.toSender == []
    else s.receiver.ReceiverThrough? && (s.sender.Prompting? || s.sender.AwaitResult?) && s.toSender == []
  }

  lemma {:induction false} OneSidedTrustHangs(pin: string, senderTrusts: bool, acts: seq<Action>)
    ensures OneSided(Run(Begin(pin, senderTrusts, !senderTrusts), acts), senderTrusts)
  {
    if |acts| > 0 {
      OneSidedTrustHangs(pin, senderTrusts, acts[..|acts| - 1]);
    }
  }

  /** With a PIN typed in whenever asked, both sides get done exactly when their stores agree. */
  lemma DoneIffStoresAgree(pin: string, senderTrusts: bool, receiverTrusts: bool, acts: seq<Action>)
    requires var s := Run(Begin(pin, senderTrusts, receiverTrusts), acts); Stuck(s)
    ensures var s := Run(Begin(pin, senderTrusts, receiverTrusts), acts);
            SenderDone(s) && ReceiverDone(s) <==> senderTrusts == receiverTrusts
  {
    if senderTrusts != receiverTrusts {
      OneSidedTrustHangs(pin, senderTrusts, acts);
    } else if !senderTrusts {
      StuckMeansDone(pin, acts);
    } else {
      TrustedGoThrough(pin, acts);
    }
  }

  lemma {:induction false} TrustedGoThrough(pin: string, acts: seq<Action>)
    ensures Run(Begin(pin, true, true), acts) == Begin(pin, true, true)
  {
    if |acts| > 0 {
      TrustedGoThrough(pin, acts[..|acts| - 1]);
    }
  }

  /** One attempt from the prompt to the verdict, on a channel that delivers. */
  function Attempt(s: State, typed: string): State {
    var asked := PromptStep(s, typed);
    AtSenderStep(AtReceiverStep(if asked.receiver.AwaitRequest? then AtReceiverStep(asked) else asked))
  }

  lemma AttemptEffect(s: State, typed: string)
    requires LockstepInv(s) && s.sender.Prompting?
    ensures var s' := Attempt(s, typed);
            && LockstepInv(s') && !s'.sender.AwaitResult?
            && s'.submitted == s.submitted + [typed] && s'.sent == s.sent + 1
  {
    var asked := PromptStep(s, typed);
    PromptKeeps(s, typed);
    AtReceiverKeeps(asked);
    var ready := if asked.receiver.AwaitRequest? then AtReceiverStep(asked) else asked;
    assert PinInFlight(ready);
    AtReceiverKeeps(ready);
    AtSenderKeeps(AtReceiverStep(ready));
  }

  /** Where attempts on the PINs of `prompts` have led. */
  predicate Attempted(s: State, prompts: nat -> string) {
    && LockstepInv(s) && !s.sender.AwaitResult? && |s.submitted| == s.sent
    && forall i :: 0 <= i < |s.submitted| ==> s.submitted[i] == prompts(i)
  }

  lemma AttemptKeeps(s: State, prompts: nat -> string)
    requires Attempted(s, prompts) && s.sender.Prompting?
    ensures Attempted(Attempt(s, prompts(s.sent)), prompts)
    ensures Attempt(s, prompts(s.sent)).sent == s.sent + 1 <= MAX_ATTEMPTS
  {
    AttemptEffect(s, prompts(s.sent));
  }

  lemma AttemptedVerdict(s: State, prompts: nat -> string)
    requires Attempted(s, prompts) && !s.sender.Prompting?
    ensures ReceiverDone(s) && 0 < |s.submitted| <= MAX_ATTEMPTS
    ensures s.sender.SenderThrough? == s.receiver.ReceiverThrough?
    ensures s.sender.SenderThrough? <==> exists i: nat :: i < MAX_ATTEMPTS && prompts(i) == s.pin
  {
    if s.sender.SenderThrough? {
      assert prompts(s.sent - 1) == s.pin;
    } else {
      assert forall i: nat :: i < MAX_ATTEMPTS ==> s.submitted[i] == prompts(i);
    }
  }

  /** Both loops as they run: the captured variables as fields, one method per stretch of code between awaits. */
  class PairingSession {
    const pin: string
    var sender: SenderPhase
    var sent: nat
    var submitted: seq<string>
    var receiver: ReceiverPhase
    var checked: nat
    var toReceiver: seq<Msg>
    var toSender: seq<Msg>

    ghost function Now(): State
      reads this
    {
      State(pin, sender, sent, submitted, receiver, checked, toReceiver, toSender)
    }

    constructor (pin: string, senderTrusts: bool, receiverTrusts: bool)
      ensures Now() == Begin(pin, senderTrusts, receiverTrusts)
    {
      this.pin, sent, submitted, checked, toSender := pin, 0, [], 0, [];
      sender := if senderTrusts then SenderThrough else Prompting;
      receiver := if receiverTrusts then ReceiverThrough else AwaitRequest;
      toReceiver := if senderTrusts then [] else [Request];
    }

    /** promptForPin has resolved. */
    method PinEntered(typed: string)
      modifies this
      ensures Now() == PromptStep(old(Now()), typed)
    {
      if sender.Prompting? {
        submitted := submitted + [typed];
        toReceiver := toReceiver + [Verify(typed)];
        sender := AwaitResult;
      }
    }

    method ReceiverTakes()
      modifies this
      ensures Now() == AtReceiverStep(old(Now()))
    {
      if toReceiver == [] {
        return;
      }
      var msg := toReceiver[0];
      toReceiver := toReceiver[1..];
      if msg.Request? && receiver.AwaitRequest? {
        receiver := AwaitVerify;
      } else if msg.Verify? && receiver.AwaitVerify? {
        var ok := msg.pin == pin;
        toSender := toSender + [Result(ok)];
        checked := checked + 1;
        if ok {
          receiver := ReceiverThrough;
        } else if checked >= MAX_ATTEMPTS {
          receiver := ReceiverRefused;
        }
      }
    }

    method SenderTakes()
      modifies this
      ensures Now() == AtSenderStep(old(Now()))
    {
      if toSender == [] {
        return;
      }
      var msg := toSender[0];
      toSender := toSender[1..];
      if msg.Result? && sender.AwaitResult? {
        sent := sent + 1;
        sender := if msg.ok then SenderThrough else if sent < MAX_ATTEMPTS then Prompting else SenderRefused;
      }
    }

    method AttemptOnce(typed: string)
      modifies this
      ensures Now() == Attempt(old(Now()), typed)
    {
      PinEntered(typed);
      if receiver.AwaitRequest? {
        ReceiverTakes();
      }
      ReceiverTakes();
      SenderTakes();
    }

    /** The human answers every prompt and the channel delivers: both sides reach the same verdict. */
    method Pair(prompts: nat -> string)
      requires Now() == Begin(pin, false, false)
      modifies this
      ensures SenderDone(Now()) && ReceiverDone(Now()) && 0 < |submitted| <= MAX_ATTEMPTS
      ensures forall i :: 0 <= i < |submitted| ==> submitted[i] == prompts(i)
      ensures sender.SenderThrough? == receiver.ReceiverThrough?
      ensures sender.SenderThrough? <==> exists i: nat :: i < MAX_ATTEMPTS && prompts(i) == pin
    {
      while sender.Prompting?
        invariant Attempted(Now(), prompts) && sent <= MAX_ATTEMPTS
        decreases MAX_ATTEMPTS - sent
      {
        AttemptKeeps(Now(), prompts);
        AttemptOnce(prompts(sent));
      }
      AttemptedVerdict(Now(), prompts);
    }
  }
}
