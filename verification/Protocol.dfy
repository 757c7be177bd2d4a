/** transfer-engine/src/types.ts: what travels on the data channel, and what the user interface is told. */
module Protocol {
  import opened Basics
  import opened Chunking

  /** Messages of one file id; Other stands for every message the handlers ignore. */
  datatype Msg =
    | Offer(meta: Meta)
    | Accept(resumeFromChunk: nat)
    | Reject
    | Chunk(frame: Bytes)
    | TransferComplete(fileHash: string)
    | Verified(ok: bool)
    | Abort
    | Other

  datatype TransferEvent =
    | Progress(bytesTransferred: nat, chunksTransferred: nat)
    | Complete
    | Error
    | Rejected
    | Cancelled

  /** Nothing but progress. */
  predicate OnlyProgress(events: seq<TransferEvent>) {
    forall i :: 0 <= i < |events| ==> events[i].Progress?
  }

  /** At most one terminal event, and nothing behind it. */
  predicate AtMostOneTerminal(events: seq<TransferEvent>) {
    forall i :: 0 <= i < |events| - 1 ==> events[i].Progress?
  }

  predicate EndsTerminal(events: seq<TransferEvent>) {
    |events| > 0 && !events[|events| - 1].Progress? && AtMostOneTerminal(events)
  }

  /** The progress reports of chunks a, ..., b - 1: how many chunks, and how many bytes they amount to. */
  function ProgressReports(m: Meta, a: nat, b: nat): (reports: seq<TransferEvent>)
    ensures |reports| == Max(0, b - a) && OnlyProgress(reports)
  {
    seq(Max(0, b - a), j requires 0 <= j => Progress(BytesIn(a + j + 1, m), a + j + 1))
  }

  lemma ProgressReportsStep(m: Meta, a: nat, b: nat)
    ensures ProgressReports(m, a, b + 1)
         == if a <= b then ProgressReports(m, a, b) + [Progress(BytesIn(b + 1, m), b + 1)] else ProgressReports(m, a, b)
  {
  }

  /** Reported bytes never decrease, and reach the file size exactly on the last chunk. */
  lemma ProgressReportsMonotone(m: Meta, a: nat, b: nat, j: nat, k: nat)
    requires WellFormed(m) && j <= k < Max(0, b - a)
    ensures var reports := ProgressReports(m, a, b);
            && reports[j].bytesTransferred <= reports[k].bytesTransferred <= m.size
            && (reports[k].bytesTransferred == m.size <==> reports[k].chunksTransferred >= m.totalChunks)
  {
    BytesInMonotone(a + j + 1, a + k + 1, m);
    BytesInIsSizeIffAllIn(a + k + 1, m);
  }
}
