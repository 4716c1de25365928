/** `handleBulkScan`: the guard, then the submission phase, then (after the
    cooldown) the enrichment phase over the same result list. */
module BulkScan {
  import opened Records
  import opened JsText
  import opened Progress
  import opened Submission
  import opened Enrichment
  import opened Format

  /** Why a run did not start. */
  datatype Refusal = NoFile | MissingApiKey

  /** Everything one run does that can be observed: the calls it issues, the
      progress values it sets, the result list handed to the table once
      submission is done, and that same list after enrichment has mutated it,
      which is what the CSV export later reads. */
  datatype Run = Run(
    refused: Option<Refusal>,
    submitCalls: seq<SubmitCall>,
    postProgress: seq<real>,
    table: seq<Entry>,
    fetchCalls: seq<FetchCall>,
    getProgress: seq<real>,
    report: seq<Entry>)

  /** One press of the Bulk Scan button. `file` is the parsed content of the
      selected file, if any; `submit[i]` is how the submit call for row `i`
      ends; `fetch(id)` is how the metrics call for job `id` ends; `fixed2`
      renders a number with two decimals. */
  function HandleBulkScan(file: Option<seq<Row>>, apiKey: string, submit: seq<SubmitOutcome>,
                          fetch: string -> FetchOutcome, fixed2: real -> string): (run: Run)
    requires file.Some? ==> |submit| == |file.value|
    ensures run.refused == Some(NoFile) <==> file.None?
    ensures run.refused == Some(MissingApiKey) <==> file.Some? && IsBlank(apiKey)
    ensures run.refused.Some? ==>
      && run.submitCalls == [] && run.fetchCalls == []
      && run.postProgress == [] && run.getProgress == []
      && run.table == [] && run.report == []
    ensures file.Some? && run.refused.None? ==>
      && |run.submitCalls| == |file.value| && |run.table| == |file.value| && |run.report| == |file.value|
      && (forall i :: 0 <= i < |file.value| ==> run.submitCalls[i].body == ToRequest(file.value[i]))
      && (forall i :: 0 <= i < |file.value| ==> run.table[i] == SubmitRow(file.value[i], submit[i]))
      && (forall i :: 0 <= i < |file.value| ==> run.report[i] == EnrichEntry(run.table[i], fetch, fixed2))
      && |run.fetchCalls| == AcceptedCount(submit)
      && (var ix := SuccessIndices(run.table, |run.table|);
          && |run.fetchCalls| == |ix|
          && forall j :: 0 <= j < |ix| ==> run.fetchCalls[j] == FetchCall(apiKey, run.table[ix[j]].jobId))
    ensures forall c :: c in run.submitCalls ==> c.apiKey == apiKey
    ensures forall c :: c in run.fetchCalls ==> c.apiKey == apiKey
    ensures forall v :: v in run.postProgress + run.getProgress ==> 0.0 < v <= 100.0
    ensures StrictlyIncreasing(run.postProgress + run.getProgress)
  {
    match file
    case None => Run(Some(NoFile), [], [], [], [], [], [])
    case Some(rows) =>
      if Trim(apiKey) == [] then Run(Some(MissingApiKey), [], [], [], [], [], [])
      else
        var s := SubmitAll(apiKey, rows, submit);
        var e := EnrichAll(apiKey, s.entries, fetch, fixed2);
        FetchCountIsAcceptedCount(s.entries, submit);
        SubmitThenEnrichIncreasing(s.progress, e.progress);
        Run(None, s.calls, s.progress, s.entries, e.calls, e.progress, e.entries)
  }

  /** The number of metrics calls equals the number of accepted submissions. */
  lemma FetchCountIsAcceptedCount(entries: seq<Entry>, outcomes: seq<SubmitOutcome>)
    requires |entries| == |outcomes|
    requires forall i :: 0 <= i < |entries| ==> (entries[i].success <==> outcomes[i].Accepted?)
    ensures |SuccessIndices(entries, |entries|)| == AcceptedCount(outcomes)
  {
    SuccessCountOfPrefix(entries, outcomes, |entries|);
    assert outcomes[..|entries|] == outcomes;
  }

  lemma {:induction false} SuccessCountOfPrefix(entries: seq<Entry>, outcomes: seq<SubmitOutcome>, k: nat)
    requires |entries| == |outcomes| && k <= |entries|
    requires forall i :: 0 <= i < |entries| ==> (entries[i].success <==> outcomes[i].Accepted?)
    ensures |SuccessIndices(entries, k)| == AcceptedCount(outcomes[..k])
    decreases k
  {
    if k > 0 {
      SuccessCountOfPrefix(entries, outcomes, k - 1);
      assert outcomes[..k][..k - 1] == outcomes[..k - 1];
    }
  }

  /** Submission values stay at or below 50 and enrichment values above it,
      so the whole run's progress only ever goes up. */
  lemma SubmitThenEnrichIncreasing(post: seq<real>, get: seq<real>)
    requires StrictlyIncreasing(post) && StrictlyIncreasing(get)
    requires forall i :: 0 <= i < |post| ==> 0.0 < post[i] <= 50.0
    requires forall j :: 0 <= j < |get| ==> 50.0 < get[j] <= 100.0
    ensures forall v :: v in post + get ==> 0.0 < v <= 100.0
    ensures StrictlyIncreasing(post + get)
  {
    var all := post + get;
    forall i, j | 0 <= i < j < |all| ensures all[i] < all[j] {
      if j < |post| {
        assert all[i] == post[i] && all[j] == post[j];
      } else if i >= |post| {
        assert all[i] == get[i - |post|] && all[j] == get[j - |post|];
      } else {
        assert all[i] == post[i] && all[j] == get[j - |post|];
      }
    }
  }

  /** Two rows; the first is accepted as job "j1" and its metrics come back
      with a reviews percentile of 0.9 and a null listings inaccuracy, the
      second is rejected; what a metrics call for any other job would return
      does not matter. The second entry is never fetched and the run's
      progress ends at 75, not 100, because its last entry was skipped. */
  lemma TwoRowScenario(fetch: string -> FetchOutcome, fixed2: real -> string)
    requires fetch("j1") == Fetched(Number(0.9), Null)
    ensures var rows: seq<Row> := [map["Name" := "A"], map["Name" := "B"]];
      var run := HandleBulkScan(Some(rows), "key", [Accepted("j1"), Rejected], fetch, fixed2);
      && run.refused == None
      && run.table == [Entry(Some("A"), "j1", true, None, None), Entry(Some("B"), "", false, None, None)]
      && run.fetchCalls == [FetchCall("key", "j1")]
      && run.report == [Entry(Some("A"), "j1", true, Some(fixed2(90.0) + "%"), Some("-")),
                        Entry(Some("B"), "", false, None, None)]
      && run.postProgress == [25.0, 50.0]
      && run.getProgress == [75.0]
  {
    var rows: seq<Row> := [map["Name" := "A"], map["Name" := "B"]];
    var outcomes := [Accepted("j1"), Rejected];
    assert !IsBlank("key") by {
      assert !IsWhiteSpace("key"[0]);
    }
    var s := SubmitAll("key", rows, outcomes);
    ScenarioSubmission(rows, outcomes, s);
    var e := EnrichAll("key", s.entries, fetch, fixed2);
    ScenarioEnrichment(s.entries, fetch, fixed2);
    assert HandleBulkScan(Some(rows), "key", outcomes, fetch, fixed2)
        == Run(None, s.calls, s.progress, s.entries, e.calls, e.progress, e.entries);
  }

  lemma ScenarioSubmission(rows: seq<Row>, outcomes: seq<SubmitOutcome>, s: SubmitPhase)
    requires rows == [map["Name" := "A"], map["Name" := "B"]]
    requires outcomes == [Accepted("j1"), Rejected]
    requires s == SubmitAll("key", rows, outcomes)
    ensures s.entries == [Entry(Some("A"), "j1", true, None, None), Entry(Some("B"), "", false, None, None)]
    ensures s.progress == [25.0, 50.0]
  {
    assert s.entries[0] == SubmitRow(rows[0], outcomes[0]);
    assert s.entries[1] == SubmitRow(rows[1], outcomes[1]);
    assert s.progress[0] == PostPercentage(1, 2);
  }

  lemma ScenarioEnrichment(entries: seq<Entry>, fetch: string -> FetchOutcome, fixed2: real -> string)
    requires entries == [Entry(Some("A"), "j1", true, None, None), Entry(Some("B"), "", false, None, None)]
    requires fetch("j1") == Fetched(Number(0.9), Null)
    ensures var e := EnrichAll("key", entries, fetch, fixed2);
      && e.calls == [FetchCall("key", "j1")]
      && e.entries == [Entry(Some("A"), "j1", true, Some(fixed2(90.0) + "%"), Some("-")), entries[1]]
      && e.progress == [75.0]
  {
    var a' := Entry(Some("A"), "j1", true, Some(fixed2(90.0) + "%"), Some("-"));
    assert EnrichEntry(entries[0], fetch, fixed2) == a' by {
      assert FormatPercentage(Number(0.9), fixed2) == fixed2(90.0) + "%";
    }
    var p1 := EnrichStep("key", fetch, fixed2, 2, EnrichPhase([], entries, []), 0);
    assert p1 == EnrichPhase([FetchCall("key", "j1")], [a', entries[1]], [GetPercentage(0, 2)]);
    assert EnrichLoop("key", entries, fetch, fixed2, 1) == p1;
    assert EnrichLoop("key", entries, fetch, fixed2, 2) == EnrichStep("key", fetch, fixed2, 2, p1, 1);
  }
}
