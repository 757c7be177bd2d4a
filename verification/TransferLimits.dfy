/** Which transfers can succeed at all. */
module TransferLimits {
  import opened Basics
  import opened Chunking
  import opened HashChain
  import opened ChunkFrame
  import opened Protocol
  import opened Session
  import opened Sender
  import opened SenderSafety
  import Receiver
  import opened SessionSafety
  import opened SessionTheorems
  import opened HonestRun
  import opened HonestOutcome

  /** A positive verdict, in any run, means that the file has fewer than 2^32 chunks. */
  lemma VerdictMeansListable(c: Receiver.Config, u: Upload, d: Receiver.Durable, y: System)
    requires Resumable(c.sha, u, d) && Session.Reachable(c, Session.Begin(u, d), y)
    requires Verified(true) in y.receiver.out.sent
    ensures u.meta.totalChunks < U32
  {
    ReachableKeepsSystem(c, u, d, y);
    ReachableKeepsCross(c, u, d, y);
    assert Closed(y.sender);
    ClosedMeansWhole(c.sha, y.upload, y.sender);
  }

  lemma ClosedMeansWhole(sha: Sha, u: Upload, s: Sender.State)
    requires SenderInv(sha, u, s) && Closed(s)
    ensures ReadWhole(u, s)
  {
    WireAt(sha, u, s, |s.sent| - 1);
  }

  /**
   * The verdict of every honest run that has nothing left to do, from any resume
   * state earlier sessions may have left: positive iff the file has fewer than 2^32
   * chunks and what was loaded is a prefix of the source.
   */
  lemma HonestRunVerifiesIff(c: Receiver.Config, u: Upload, d: Receiver.Durable, now: int, y: System)
    requires Resumable(c.sha, u, d) && HonestEnd(c, u, d, now, y) && Discerning(c, u, y.receiver)
    ensures Verified(true) in y.receiver.out.sent <==> u.meta.totalChunks < U32 && StoredIsSource(u, d, now)
  {
    if u.meta.totalChunks < U32 {
      HonestOutcomeIffStoredIsSource(c, u, d, now, y, now);
    } else if Verified(true) in y.receiver.out.sent {
      var acts, ys :| AllHonestAt(acts, now) && Session.Run(c, acts, ys) &&
                      ys[0] == Session.Begin(u, d) && ys[|acts|] == y && Stuck(c, y);
      assert Session.Reachable(c, Session.Begin(u, d), y);
      VerdictMeansListable(c, u, d, y);
    }
  }
}
