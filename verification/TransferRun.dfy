/**
 * The two session objects on one channel, driven by an arbitrary schedule: what
 * has been proved about reachable states, on the fields of the objects.
 */
module TransferRun {
  import opened Basics
  import opened Chunking
  import opened HashChain
  import opened Protocol
  import opened Session
  import Sender
  import opened SenderSafety
  import Receiver
  import opened ReceiverSafety
  import opened SessionSafety
  import opened SessionTheorems
  import opened TransferSession

  /** A step from a reachable state leads to a reachable state. */
  lemma ReachableStep(c: Receiver.Config, y0: System, y: System, a: Session.Action)
    requires Session.Reachable(c, y0, y)
    ensures Session.Reachable(c, y0, Session.Step(c, y, a))
  {
    var acts, ys :| Session.Run(c, acts, ys) && ys[0] == y0 && ys[|acts|] == y;
    var acts', ys' := acts + [a], ys + [Session.Step(c, y, a)];
    assert forall i :: 0 <= i < |acts| ==> acts'[i] == acts[i];
    assert Session.Run(c, acts', ys') && ys'[0] == y0 && ys'[|acts'|] == Session.Step(c, y, a);
  }

  class Connection {
    const config: Receiver.Config
    var sender: SendSession
    var receiver: ReceiveSession
    /** How many messages each end has taken of what the other has sent. */
    var toReceiver: nat
    var toSender: nat
    /** What the first session started from. */
    ghost const upload: Sender.Upload
    ghost const stored: Receiver.Durable

    ghost function State(): System
      reads this, sender, receiver
    {
      System(sender.upload, sender.State(), receiver.State(), toReceiver, toSender)
    }

    ghost predicate Valid()
      reads this, sender, receiver
    {
      && sender.sha == config.sha && receiver.config == config
      && Resumable(config.sha, upload, stored)
      && Session.Reachable(config, Session.Begin(upload, stored), State())
    }

    /** sendFile on one end and receiveFile on the other, over what earlier sessions left behind. */
    constructor (config: Receiver.Config, bytes: Bytes, stored: Receiver.Durable)
      requires Resumable(config.sha, Sender.UploadOf(bytes), stored)
      ensures Valid() && fresh(sender) && fresh(receiver)
      ensures State() == Session.Begin(Sender.UploadOf(bytes), stored)
    {
      this.config := config;
      sender := new SendSession(config.sha, Sender.UploadOf(bytes));
      receiver := new ReceiveSession(config, stored);
      toReceiver, toSender := 0, 0;
      upload, this.stored := Sender.UploadOf(bytes), stored;
      new;
      var ys := RunExists(config, State(), []);
    }

    method SenderActs(a: Sender.Action)
      modifies sender
      ensures sender.State() == Sender.Step(sender.sha, sender.upload, old(sender.State()), a)
    {
      sender.Perform(a);
    }

    method ReceiverActs(a: Receiver.Action)
      requires !a.Restart?
      modifies receiver
      ensures receiver.State() == Receiver.Step(receiver.config, old(receiver.State()), a)
    {
      receiver.Perform(a);
    }

    /** The next session over the same disk and store, sending bytes that may have changed. */
    method Reconnect(bytes: Bytes, garbage: Option<Bytes>)
      requires sender.sha == config.sha && receiver.config == config
      requires |bytes| == sender.upload.meta.size
      modifies this
      ensures fresh(sender) && fresh(receiver) && sender.sha == config.sha && receiver.config == config
      ensures State() == Session.Reopened(old(State()), bytes, garbage)
    {
      var durable := receiver.durable;
      var task := receiver.queue.task;
      if task.Writing? {
        durable := durable.(disk := if garbage.Some? then durable.disk[task.index := garbage.value]
                                    else durable.disk - {task.index});
      }
      sender := new SendSession(config.sha, Sender.Source(bytes, sender.upload.meta));
      receiver := new ReceiveSession(config, durable);
      toReceiver, toSender := 0, 0;
    }

    method Perform(a: Session.Action)
      requires sender.sha == config.sha && receiver.config == config
      modifies this, sender, receiver
      ensures sender == old(sender) || fresh(sender)
      ensures receiver == old(receiver) || fresh(receiver)
      ensures sender.sha == config.sha && receiver.config == config
      ensures State() == Session.Step(config, old(State()), a)
    {
      match a {
        case SenderActs(s) =>
          if !s.Deliver? {
            SenderActs(s);
          }
        case ReceiverActs(r) =>
          if !r.Deliver? && !r.Restart? {
            ReceiverActs(r);
          }
        case DeliverToReceiver =>
          if toReceiver < |sender.sent| {
            receiver.OnMessage(sender.sent[toReceiver]);
            toReceiver := toReceiver + 1;
          }
        case DeliverToSender =>
          if toSender < |receiver.out.sent| {
            sender.OnMessage(receiver.out.sent[toSender]);
            toSender := toSender + 1;
          }
        case NewSession(bytes, garbage) =>
          if |bytes| == sender.upload.meta.size {
            Reconnect(bytes, garbage);
          }
      }
    }

    /** One action that keeps what is known. */
    method Go(a: Session.Action)
      requires Valid()
      modifies this, sender, receiver
      ensures Valid()
      ensures sender == old(sender) || fresh(sender)
      ensures receiver == old(receiver) || fresh(receiver)
    {
      ReachableStep(config, Session.Begin(upload, stored), State(), a);
      Perform(a);
    }

    /**
     * Any schedule of awaits, deliveries, cancellations, failures and new
     * sessions: if the receiver has announced completion its disk has the bytes
     * being sent, collisions on the inputs at hand aside; if the sender has, the
     * receiver verified; a sender's abort excludes both; and what is left behind
     * can be resumed from.
     */
    method RunAll(schedule: seq<Session.Action>)
      requires Valid()
      modifies this, sender, receiver
      ensures Valid()
      ensures Complete in receiver.out.events && Discerns() ==>
                Concat(OnDisk(receiver.State(), sender.upload.meta.totalChunks)) == sender.upload.bytes
      ensures Complete in sender.events ==> Verified(true) in receiver.out.sent
      ensures Abort in sender.sent ==> Complete !in receiver.out.events && Complete !in sender.events
      ensures Resumable(config.sha, sender.upload, receiver.durable)
    {
      for i := 0 to |schedule|
        invariant Valid()
        invariant sender == old(sender) || fresh(sender)
        invariant receiver == old(receiver) || fresh(receiver)
      {
        Go(schedule[i]);
      }
      Conclude(config, upload, stored, State());
    }

    ghost predicate Discerns()
      reads this, sender, receiver
    {
      DistinguishesFiles(config.sha, OnDisk(receiver.State(), sender.upload.meta.totalChunks),
                         Chunks(sender.upload.bytes, sender.upload.meta))
    }
  }

  lemma Conclude(c: Receiver.Config, u: Sender.Upload, d: Receiver.Durable, y: System)
    requires Resumable(c.sha, u, d) && Session.Reachable(c, Session.Begin(u, d), y)
    ensures var n := y.upload.meta.totalChunks;
            Complete in y.receiver.out.events
            && DistinguishesFiles(c.sha, OnDisk(y.receiver, n), Chunks(y.upload.bytes, y.upload.meta)) ==>
              Concat(OnDisk(y.receiver, n)) == y.upload.bytes
    ensures Complete in y.sender.events ==> Verified(true) in y.receiver.out.sent
    ensures Abort in y.sender.sent ==> Complete !in y.receiver.out.events && Complete !in y.sender.events
    ensures Resumable(c.sha, y.upload, y.receiver.durable)
  {
    ReachableKeepsSystem(c, u, d, y);
    PersistedStateIsSound(c, u, d, y);
    if Complete in y.receiver.out.events
       && DistinguishesFiles(c.sha, OnDisk(y.receiver, u.meta.totalChunks), Chunks(y.upload.bytes, y.upload.meta)) {
      CompleteMeansStored(c, u, d, y);
    }
    if Complete in y.sender.events {
      SenderCompleteMeansVerified(c, u, d, y);
    }
    if Abort in y.sender.sent {
      CancelExcludesVerdict(c, u, d, y);
    }
  }
}
