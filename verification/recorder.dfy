/** The recorder sinks a camera drives during a take. Their concrete writers
    (image files, movie container, metadata log) are not part of this model:
    a sink is an object that records what was appended to it, whether it was
    closed, and the queue depths it reports for its two buffering stages. */
module Recorder {

  import opened Preview

  /** Image sequence for takes with a frame limit, movie container otherwise,
      plus the per-take metadata log. */
  datatype SinkKind = ImageSequence | Movie | Metadata

  /** The two buffering stages a sink reports on (BUFFER_ENCODING, BUFFER_WRITING). */
  datatype Stage = Encoding | Writing

  /** One appended frame with its run-relative timestamp and black level. */
  datatype Entry = Entry(frame: Frame, ts: real, blackLevel: int)

  /** What a sink contributes to the take summary. */
  datatype SinkSummary = SinkSummary(kind: SinkKind, frameCount: nat)

  class Sink {
    const kind: SinkKind
    const cameraId: string
    const destinations: seq<string>
    var entries: seq<Entry>
    var closed: bool
    var encodingPending: int
    var writingPending: int

    constructor (kind: SinkKind, cameraId: string, destinations: seq<string>)
      ensures this.kind == kind && this.cameraId == cameraId && this.destinations == destinations
      ensures entries == [] && !closed && encodingPending == 0 && writingPending == 0
    {
      this.kind := kind;
      this.cameraId := cameraId;
      this.destinations := destinations;
      entries := [];
      closed := false;
      encodingPending := 0;
      writingPending := 0;
    }

    /** Accepted frames so far. */
    function FrameCount(): (n: nat)
      reads this
      ensures n == |entries|
    {
      |entries|
    }

    /** Queue depth last reported for a stage. */
    function BuffersUsed(stage: Stage): (n: int)
      reads this
      ensures stage == Encoding ==> n == encodingPending
      ensures stage == Writing ==> n == writingPending
    {
      match stage
      case Encoding => encodingPending
      case Writing => writingPending
    }

    /** Hands one frame to the sink's buffers. The queue depths it reports
        afterwards depend on its worker threads and are left open. */
    method Append(e: Entry)
      requires !closed
      modifies this
      ensures entries == old(entries) + [e] && !closed
      ensures FrameCount() == old(FrameCount()) + 1
    {
      entries := entries + [e];
      var encoding: int :| true;
      var writing: int :| true;
      encodingPending, writingPending := encoding, writing;
    }

    /** Drains both stages; appending is no longer allowed. */
    method Close()
      modifies this
      ensures closed && entries == old(entries)
      ensures encodingPending == 0 && writingPending == 0
    {
      closed := true;
      encodingPending, writingPending := 0, 0;
    }

    method Summarize() returns (s: SinkSummary)
      requires closed
      ensures s.kind == kind && s.frameCount == |entries|
    {
      s := SinkSummary(kind, |entries|);
    }
  }

  /** No report after index k is positive. */
  predicate IsLastPositive(reports: seq<int>, k: nat)
  {
    forall j :: k < j < |reports| ==> reports[j] <= 0
  }

  /** The camera's buffer counter after reading reports in order: a report
      overwrites the counter only when it is strictly positive. */
  function LastPositive(init: int, reports: seq<int>): (r: int)
    ensures r == init || (r > 0 && r in reports)
  {
    if reports == [] then init
    else if reports[|reports| - 1] > 0 then reports[|reports| - 1]
    else LastPositive(init, reports[..|reports| - 1])
  }

  /** Reading one more report. */
  lemma LastPositiveSnoc(init: int, reports: seq<int>, v: int)
    ensures LastPositive(init, reports + [v]) == if v > 0 then v else LastPositive(init, reports)
  {
    assert (reports + [v])[..|reports|] == reports;
  }

  /** The counter ends as the last strictly positive report, or keeps its
      starting value when no report was positive. */
  lemma {:induction false} LastPositiveIsLast(init: int, reports: seq<int>)
    ensures (forall i :: 0 <= i < |reports| ==> reports[i] <= 0) ==> LastPositive(init, reports) == init
    ensures forall k :: 0 <= k < |reports| && reports[k] > 0 && IsLastPositive(reports, k) ==>
      LastPositive(init, reports) == reports[k]
    ensures LastPositive(init, reports) == init || LastPositive(init, reports) > 0
    decreases |reports|
  {
    if reports != [] {
      var n := |reports| - 1;
      LastPositiveIsLast(init, reports[..n]);
      forall k | 0 <= k < |reports| && reports[k] > 0 && IsLastPositive(reports, k)
        ensures LastPositive(init, reports) == reports[k]
      {
        if k < n {
          assert reports[n] <= 0;
          assert reports[..n][k] == reports[k];
          assert IsLastPositive(reports[..n], k);
        }
      }
    }
  }
}
