/** The submission phase of `handleBulkScan`: one `POST` per parsed row, in
    row order, each failure isolated to its row. */
module Submission {
  import opened Records
  import opened Progress

  /** The entry pushed for `row` once its submit call has ended with
      `outcome`: the job identifier on success, an empty one on failure. */
  function SubmitRow(row: Row, outcome: SubmitOutcome): (e: Entry)
    ensures e.name == Cell(row, "Name")
    ensures e.success <==> outcome.Accepted?
    ensures e.success ==> e.jobId == outcome.jobId
    ensures !e.success ==> e.jobId == ""
    ensures e.reviewsPercentile == None && e.listingsInaccuracy == None
  {
    match outcome
    case Accepted(jobId) => Entry(Cell(row, "Name"), jobId, true, None, None)
    case Rejected => Entry(Cell(row, "Name"), "", false, None, None)
  }

  /** What the submission loop has produced so far: the calls issued, the
      entries pushed and the progress values set. */
  datatype SubmitPhase = SubmitPhase(calls: seq<SubmitCall>, entries: seq<Entry>, progress: seq<real>)

  /** The state of the submission loop after its first `k` iterations;
      `outcomes[i]` is how the submit call for `rows[i]` ended. */
  function SubmitLoop(apiKey: string, rows: seq<Row>, outcomes: seq<SubmitOutcome>, k: nat): (p: SubmitPhase)
    requires |outcomes| == |rows| && k <= |rows|
    ensures |p.calls| == k && |p.entries| == k && |p.progress| == k
    ensures forall i :: 0 <= i < k ==> p.calls[i] == SubmitCall(apiKey, ToRequest(rows[i]))
    ensures forall i :: 0 <= i < k ==> p.entries[i] == SubmitRow(rows[i], outcomes[i])
    ensures forall i :: 0 <= i < k ==> p.progress[i] == PostPercentage(i + 1, |rows|)
    ensures forall i :: 0 <= i < k ==> 0.0 < p.progress[i] <= 50.0
    ensures StrictlyIncreasing(p.progress)
    decreases k
  {
    if k == 0 then SubmitPhase([], [], [])
    else
      var p := SubmitLoop(apiKey, rows, outcomes, k - 1);
      var value := PostPercentage(k, |rows|);
      assert forall i :: 0 <= i < k - 1 ==> p.progress[i] < value by {
        forall i | 0 <= i < k - 1 ensures p.progress[i] < value {
          PostPercentageIncreasing(i + 1, k, |rows|);
        }
      }
      SubmitPhase(
        p.calls + [SubmitCall(apiKey, ToRequest(rows[k - 1]))],
        p.entries + [SubmitRow(rows[k - 1], outcomes[k - 1])],
        p.progress + [value])
  }

  /** The whole submission phase: one entry per row, in row order. */
  function SubmitAll(apiKey: string, rows: seq<Row>, outcomes: seq<SubmitOutcome>): (p: SubmitPhase)
    requires |outcomes| == |rows|
    ensures |p.calls| == |rows| && |p.entries| == |rows| && |p.progress| == |rows|
    ensures forall i :: 0 <= i < |rows| ==> p.entries[i].name == Cell(rows[i], "Name")
    ensures forall i :: 0 <= i < |rows| ==> (p.entries[i].success <==> outcomes[i].Accepted?)
    ensures |rows| > 0 ==> p.progress[|rows| - 1] == 50.0
  {
    SubmitLoop(apiKey, rows, outcomes, |rows|)
  }

  /** The number of submit calls that were accepted. */
  function AcceptedCount(outcomes: seq<SubmitOutcome>): nat
  {
    if outcomes == [] then 0
    else AcceptedCount(outcomes[..|outcomes| - 1]) + (if outcomes[|outcomes| - 1].Accepted? then 1 else 0)
  }
}
