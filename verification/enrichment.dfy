/** The enrichment phase of `handleBulkScan`: after the cooldown, one metrics
    `GET` per successfully submitted entry, in list order, filling in the two
    metric cells of that entry. */
module Enrichment {
  import opened Records
  import opened Progress
  import opened Format

  /** The loop fetches metrics for `e` and the fetch succeeds. */
  predicate Enriches(e: Entry, fetch: string -> FetchOutcome) {
    e.success && fetch(e.jobId).Fetched?
  }

  /** The net effect of one iteration on its own entry: only a successful
      fetch changes it, and then only in its two metric cells. */
  function EnrichEntry(e: Entry, fetch: string -> FetchOutcome, fixed2: real -> string): (e': Entry)
    ensures e'.name == e.name && e'.jobId == e.jobId && e'.success == e.success
    ensures !Enriches(e, fetch) ==> e' == e
    ensures Enriches(e, fetch) ==>
      && e'.reviewsPercentile == Some(FormatPercentage(fetch(e.jobId).reviewsPercentile, fixed2))
      && e'.listingsInaccuracy == Some(FormatPercentage(fetch(e.jobId).listingsInaccuracy, fixed2))
  {
    if !e.success then e
    else
      match fetch(e.jobId)
      case FetchFailed => e
      case Fetched(reviews, listings) =>
        e.(reviewsPercentile := Some(FormatPercentage(reviews, fixed2)),
           listingsInaccuracy := Some(FormatPercentage(listings, fixed2)))
  }

  /** The indices below `k` of the successfully submitted entries, ascending. */
  function SuccessIndices(entries: seq<Entry>, k: nat): (ix: seq<nat>)
    requires k <= |entries|
    ensures |ix| <= k
    ensures forall j :: 0 <= j < |ix| ==> ix[j] < k && entries[ix[j]].success
    ensures forall j, l :: 0 <= j < l < |ix| ==> ix[j] < ix[l]
    ensures forall i :: 0 <= i < k && entries[i].success ==> i in ix
    decreases k
  {
    if k == 0 then []
    else SuccessIndices(entries, k - 1) + (if entries[k - 1].success then [k - 1] else [])
  }

  /** The indices below `k` of the entries whose metrics were fetched
      successfully, ascending. */
  function EnrichedIndices(entries: seq<Entry>, fetch: string -> FetchOutcome, k: nat): (ix: seq<nat>)
    requires k <= |entries|
    ensures |ix| <= k
    ensures forall j :: 0 <= j < |ix| ==> ix[j] < k && Enriches(entries[ix[j]], fetch)
    ensures forall j, l :: 0 <= j < l < |ix| ==> ix[j] < ix[l]
    ensures forall i :: 0 <= i < k && Enriches(entries[i], fetch) ==> i in ix
    decreases k
  {
    if k == 0 then []
    else EnrichedIndices(entries, fetch, k - 1) + (if Enriches(entries[k - 1], fetch) then [k - 1] else [])
  }

  /** What the enrichment loop has produced so far: the metrics calls issued,
      the result list as mutated in place, and the progress values set. */
  datatype EnrichPhase = EnrichPhase(calls: seq<FetchCall>, entries: seq<Entry>, progress: seq<real>)

  /** One iteration of the enrichment loop, at index `i` of a run over
      `total` rows: skip a failed entry; otherwise fetch its metrics and, on
      success, fill in its two cells and set the progress. */
  function EnrichStep(apiKey: string, fetch: string -> FetchOutcome, fixed2: real -> string,
                      total: nat, p: EnrichPhase, i: nat): (p': EnrichPhase)
    requires i < |p.entries| <= total
    ensures p'.entries == p.entries[i := EnrichEntry(p.entries[i], fetch, fixed2)]
    ensures p'.calls == p.calls + (if p.entries[i].success then [FetchCall(apiKey, p.entries[i].jobId)] else [])
    ensures p'.progress == p.progress + (if Enriches(p.entries[i], fetch) then [GetPercentage(i, total)] else [])
  {
    var data := p.entries[i];
    if !data.success then p
    else
      var call := FetchCall(apiKey, data.jobId);
      match fetch(data.jobId)
      case FetchFailed => EnrichPhase(p.calls + [call], p.entries, p.progress)
      case Fetched(_, _) =>
        EnrichPhase(p.calls + [call], p.entries[i := EnrichEntry(data, fetch, fixed2)],
                    p.progress + [GetPercentage(i, total)])
  }

  /** The state of the enrichment loop over `entries` after its first `k`
      iterations; `fetch(id)` is how the metrics call for job `id` ends.
      The progress total is the row count, which equals `|entries|`. */
  function EnrichLoop(apiKey: string, entries: seq<Entry>, fetch: string -> FetchOutcome,
                      fixed2: real -> string, k: nat): (p: EnrichPhase)
    requires k <= |entries|
    ensures |p.entries| == |entries|
    ensures forall i :: 0 <= i < k ==> p.entries[i] == EnrichEntry(entries[i], fetch, fixed2)
    ensures forall i :: k <= i < |entries| ==> p.entries[i] == entries[i]
    ensures var ix := SuccessIndices(entries, k);
      && |p.calls| == |ix|
      && forall j :: 0 <= j < |ix| ==> p.calls[j] == FetchCall(apiKey, entries[ix[j]].jobId)
    ensures var ex := EnrichedIndices(entries, fetch, k);
      && |p.progress| == |ex|
      && forall j :: 0 <= j < |ex| ==> p.progress[j] == GetPercentage(ex[j], |entries|)
    ensures forall j :: 0 <= j < |p.progress| ==> 50.0 < p.progress[j] <= 100.0
    ensures StrictlyIncreasing(p.progress)
    decreases k
  {
    if k == 0 then EnrichPhase([], entries, [])
    else
      var i := k - 1;
      var p := EnrichLoop(apiKey, entries, fetch, fixed2, i);
      EntriesExtend(entries, fetch, fixed2, i, p.entries);
      CallsExtend(apiKey, entries, i, p.calls);
      ProgressExtend(entries, fetch, i, p.progress);
      var q := EnrichStep(apiKey, fetch, fixed2, |entries|, p, i);
      assert q.calls == p.calls + (if entries[i].success then [FetchCall(apiKey, entries[i].jobId)] else []);
      assert q.progress == p.progress + (if Enriches(entries[i], fetch) then [GetPercentage(i, |entries|)] else []);
      q
  }

  /** Iteration `i` extends "the first `i` entries are enriched, the rest
      untouched" to the first `i + 1`. */
  lemma EntriesExtend(entries: seq<Entry>, fetch: string -> FetchOutcome, fixed2: real -> string,
                      i: nat, es: seq<Entry>)
    requires i < |entries| && |es| == |entries|
    requires forall j :: 0 <= j < i ==> es[j] == EnrichEntry(entries[j], fetch, fixed2)
    requires forall j :: i <= j < |entries| ==> es[j] == entries[j]
    ensures es[i] == entries[i]
    ensures var es' := es[i := EnrichEntry(es[i], fetch, fixed2)];
      && (forall j :: 0 <= j < i + 1 ==> es'[j] == EnrichEntry(entries[j], fetch, fixed2))
      && (forall j :: i + 1 <= j < |entries| ==> es'[j] == entries[j])
  {
  }

  /** Iteration `i` extends the calls for the successful entries below `i`
      to those below `i + 1`. */
  lemma CallsExtend(apiKey: string, entries: seq<Entry>, i: nat, calls: seq<FetchCall>)
    requires i < |entries|
    requires var ix := SuccessIndices(entries, i);
      && |calls| == |ix|
      && forall j :: 0 <= j < |ix| ==> calls[j] == FetchCall(apiKey, entries[ix[j]].jobId)
    ensures var calls' := calls + (if entries[i].success then [FetchCall(apiKey, entries[i].jobId)] else []);
      var ix := SuccessIndices(entries, i + 1);
      && |calls'| == |ix|
      && forall j :: 0 <= j < |ix| ==> calls'[j] == FetchCall(apiKey, entries[ix[j]].jobId)
  {
    assert SuccessIndices(entries, i + 1)
        == SuccessIndices(entries, i) + (if entries[i].success then [i] else []);
  }

  /** Iteration `i` extends the progress values for the enriched entries
      below `i` to those below `i + 1`, keeping them in (50, 100] and
      strictly increasing. */
  lemma ProgressExtend(entries: seq<Entry>, fetch: string -> FetchOutcome, i: nat, progress: seq<real>)
    requires i < |entries|
    requires var ex := EnrichedIndices(entries, fetch, i);
      && |progress| == |ex|
      && forall j :: 0 <= j < |ex| ==> progress[j] == GetPercentage(ex[j], |entries|)
    requires StrictlyIncreasing(progress)
    ensures var progress' := progress + (if Enriches(entries[i], fetch) then [GetPercentage(i, |entries|)] else []);
      var ex := EnrichedIndices(entries, fetch, i + 1);
      && |progress'| == |ex|
      && (forall j :: 0 <= j < |ex| ==> progress'[j] == GetPercentage(ex[j], |entries|))
      && (forall j :: 0 <= j < |progress'| ==> 50.0 < progress'[j] <= 100.0)
      && StrictlyIncreasing(progress')
  {
    var ex := EnrichedIndices(entries, fetch, i);
    if Enriches(entries[i], fetch) {
      assert EnrichedIndices(entries, fetch, i + 1) == ex + [i];
      var value := GetPercentage(i, |entries|);
      var progress' := progress + [value];
      forall a, b | 0 <= a < b < |progress'| ensures progress'[a] < progress'[b] {
        if b == |progress| {
          GetPercentageIncreasing(ex[a], i, |entries|);
        } else {
          assert progress'[a] == progress[a] && progress'[b] == progress[b];
        }
      }
    } else {
      assert EnrichedIndices(entries, fetch, i + 1) == ex;
    }
  }

  /** The whole enrichment phase over the submission's result list. */
  function EnrichAll(apiKey: string, entries: seq<Entry>, fetch: string -> FetchOutcome,
                     fixed2: real -> string): (p: EnrichPhase)
    ensures |p.entries| == |entries|
    ensures forall i :: 0 <= i < |entries| ==>
      p.entries[i].(reviewsPercentile := entries[i].reviewsPercentile,
                    listingsInaccuracy := entries[i].listingsInaccuracy) == entries[i]
    ensures forall i :: 0 <= i < |entries| && !Enriches(entries[i], fetch) ==> p.entries[i] == entries[i]
    ensures var ix := SuccessIndices(entries, |entries|);
      && |p.calls| == |ix|
      && forall j :: 0 <= j < |ix| ==> p.calls[j] == FetchCall(apiKey, entries[ix[j]].jobId)
    ensures 100.0 in p.progress <==> |entries| > 0 && Enriches(entries[|entries| - 1], fetch)
  {
    ReachesHundredOnlyIfLastEnriched(apiKey, entries, fetch, fixed2);
    EnrichLoop(apiKey, entries, fetch, fixed2, |entries|)
  }

  /** Progress reaches 100 exactly when the last entry's metrics were fetched
      successfully; a skipped or failed last entry leaves it below 100. */
  lemma ReachesHundredOnlyIfLastEnriched(apiKey: string, entries: seq<Entry>,
                                         fetch: string -> FetchOutcome, fixed2: real -> string)
    ensures var p := EnrichLoop(apiKey, entries, fetch, fixed2, |entries|);
      100.0 in p.progress <==> |entries| > 0 && Enriches(entries[|entries| - 1], fetch)
  {
    var p := EnrichLoop(apiKey, entries, fetch, fixed2, |entries|);
    var ex := EnrichedIndices(entries, fetch, |entries|);
    if |entries| > 0 && Enriches(entries[|entries| - 1], fetch) {
      var j :| 0 <= j < |ex| && ex[j] == |entries| - 1;
      assert p.progress[j] == 100.0;
    }
    if 100.0 in p.progress {
      var j :| 0 <= j < |p.progress| && p.progress[j] == 100.0;
      assert ex[j] == |entries| - 1;
    }
  }
}
