# Bulk scan orchestration, modelled in Dafny

This project models `handleBulkScan` from the bulk-scan front end. One press of
the Bulk Scan button does the following:

- It checks that a file is selected and that the API key is not blank after
  `trim()`.
- It turns every parsed CSV row into a scan request.
- It submits the requests one by one and records one result entry per row.
  A failure stays with its own row.
- After the cooldown it walks the same result list and fetches metrics for
  every successfully submitted entry. The two metric cells are filled in
  through `formatPercentage`.
- Throughout, it sets a progress value between 0 and 100.

The remote service becomes inputs:

- `submit: seq<SubmitOutcome>` gives how the submit call for row `i` ends:
  `Accepted(jobId)`, or `Rejected` for a non-ok response or a thrown error.
- `fetch: string -> FetchOutcome` gives how the metrics call for a job ends:
  `Fetched(reviews, listings)` or `FetchFailed`.
- `fixed2: real -> string` stands for JavaScript's `toFixed(2)`.

With these inputs the whole run is a pure function, `BulkScan.HandleBulkScan`.
It returns a `Run` that records:

- every call issued, with the API key it carries;
- every progress value set;
- the result list handed to the table after submission;
- the same list after enrichment has mutated it in place. This is what the CSV
  export reads.

Each loop is a recursive function over the number of iterations done
(`Submission.SubmitLoop`, `Enrichment.EnrichLoop`). Their contracts describe the
loop state index by index.

Files: `js_text.dfy` (trim), `records.dfy` (rows, requests, entries, calls,
outcomes), `progress.dfy` (the two progress formulas), `format.dfy`
(`formatPercentage`), `submission.dfy`, `enrichment.dfy`, `bulk_scan.dfy` (the
guard and the whole run).

Points of the code worth knowing:

- The GET-phase progress is set only after a successful metrics fetch
  (src/FileDrop.js:105-110). So a run whose last entry is skipped or whose
  last fetch fails ends below 100. `BulkScan.TwoRowScenario` shows a run
  ending at 75: two rows, the second rejected.
- A missing file ends the run silently and a blank key only logs an error. The
  model reports both as a `Refusal` value. In both cases no call is made and no
  progress is set.
- Progress is never clamped. The model proves instead that every value set
  lies in (0, 100].
- The URLs carry the API key as typed. The trim is only used for the guard.

## Model

| member | source | states |
|---|---|---|
| `JsText.LeadingSpace` | src/FileDrop.js:31 | the count of leading characters `trim()` strips: all of them are white space and the next one is not |
| `JsText.TrailingSpace` | src/FileDrop.js:31 | the count of trailing characters `trim()` strips: all of them are white space and the one before is not |
| `JsText.Trim` | src/FileDrop.js:31 | `trim()` result is empty exactly when every character of the key is ECMAScript white space; a non-empty result neither starts nor ends with white space |
| `JsText.TrimDropsOnlySpace` | src/FileDrop.js:31 | trimming keeps one contiguous piece of the key and drops only blank prefixes and suffixes |
| `Records.Cell` | src/FileDrop.js:49-54 | reading a column yields the cell text when the row has that column and `undefined` otherwise |
| `Records.ToRequest` | src/FileDrop.js:48-57 | name, address, phone, city, state and zip come from the columns `Name`, `Address`, `Phone`, `City`, `State`, `Zip Code`; both flags are always true |
| `Records.RequestDependsOnlyOnRequestColumns` | src/FileDrop.js:48-57 | two rows yield the same request if and only if they agree on the six recognised columns |
| `Progress.PostPercentage` | src/FileDrop.js:79-83 | after the k-th of N rows (1 ≤ k ≤ N) progress is in (0, 50], and it equals 50 exactly when k = N |
| `Progress.PostPercentageIncreasing` | src/FileDrop.js:80-81 | a later submission reports a strictly larger value |
| `Progress.GetPercentage` | src/FileDrop.js:108 | for an index i < N the value is in (50, 100], and it equals 100 exactly when i is the last index |
| `Progress.GetPercentageIncreasing` | src/FileDrop.js:108 | a later index reports a strictly larger value |
| `Format.FormatPercentage` | src/FileDrop.js:121-124 | the text is `"-"` if and only if the value is null or undefined; a number gives its rendering followed by `%` |
| `Submission.SubmitRow` | src/FileDrop.js:74-78 | the entry copies the row's `Name`; it succeeds if and only if the call was accepted, carrying that job id, and otherwise has an empty job id; no metric cells are set |
| `Submission.SubmitLoop` | src/FileDrop.js:45-85 | after k iterations there are exactly k calls, k entries and k progress values, one per row in row order, each from its own row and outcome; progress values lie in (0, 50] and strictly increase |
| `Submission.SubmitAll` | src/FileDrop.js:41-88 | the finished phase has one entry per row in order, success matches acceptance, and the last progress value is exactly 50 when there are rows |
| `Enrichment.EnrichEntry` | src/FileDrop.js:95-106 | name, job id and success never change; an entry that failed submission or whose fetch failed is left exactly as it was; otherwise both cells get the formatted metrics |
| `Enrichment.SuccessIndices` | src/FileDrop.js:93-97 | lists, in ascending order, exactly the indices of the successfully submitted entries below k |
| `Enrichment.EnrichedIndices` | src/FileDrop.js:93-110 | lists, in ascending order, exactly the indices below k whose entry was submitted and whose fetch succeeded |
| `Enrichment.EnrichStep` | src/FileDrop.js:94-113 | one iteration changes only its own entry; it adds a call only for a successful entry and a progress value only after a successful fetch |
| `Enrichment.EntriesExtend` | src/FileDrop.js:94-106 | iteration i leaves entries after i untouched and gives entry i its enriched form, so the first i+1 entries are enriched |
| `Enrichment.CallsExtend` | src/FileDrop.js:95-99 | iteration i adds a metrics call exactly when entry i was submitted successfully, for that entry's job id |
| `Enrichment.ProgressExtend` | src/FileDrop.js:105-110 | iteration i adds the value `50 + (i+1)/N*50` exactly when entry i was fetched successfully, keeping the values in (50, 100] and strictly increasing |
| `Enrichment.EnrichLoop` | src/FileDrop.js:91-115 | after k iterations: the j-th metrics call is for the j-th successful entry, so no failed entry is ever fetched and calls follow list order; entries below k are enriched and the rest untouched; the j-th progress value is `50 + (i+1)/N*50` for the j-th successfully fetched index i; values lie in (50, 100] and strictly increase |
| `Enrichment.EnrichAll` | src/FileDrop.js:91-115 | the list keeps its length and every entry agrees with its input except possibly in the two metric cells; entries not enriched are unchanged; the j-th metrics call is for the j-th successfully submitted entry, with the run's key and that entry's job id, so an entry with `success=false` is never fetched; progress reaches 100 if and only if the last entry was enriched |
| `Enrichment.ReachesHundredOnlyIfLastEnriched` | src/FileDrop.js:105-110 | 100 appears among the GET-phase values if and only if the list is non-empty and its last entry was successfully fetched |
| `BulkScan.HandleBulkScan` | src/FileDrop.js:28-118 | refused for no file, else refused exactly when the key is blank after trimming, and then nothing happens; otherwise one call and one entry per row, the report is the enrichment of the table entry by entry, the j-th metrics call is for the j-th successful table entry (so no failed entry is fetched) and their number equals the number of accepted submissions, every call carries the key as typed, and the progress values over the whole run lie in (0, 100] and strictly increase |
| `BulkScan.FetchCountIsAcceptedCount` | src/FileDrop.js:75-99 | the enrichment phase issues exactly as many metrics calls as the submission phase had accepted submissions |
| `BulkScan.SuccessCountOfPrefix` | src/FileDrop.js:75-97 | for every prefix, the successful entries and the accepted outcomes are equal in number |
| `BulkScan.SubmitThenEnrichIncreasing` | src/FileDrop.js:79-110 | submission values (at most 50) followed by enrichment values (above 50) form one strictly increasing sequence |
| `BulkScan.TwoRowScenario` | src/FileDrop.js:28-115 | row A accepted as `j1` with metrics 0.9 and null, row B rejected: the table is `[A/j1/true, B/""/false]`; the only fetch is for `j1`; A gets `fixed2(90)%` and `-`; progress goes 25, 50, 75 |
| `BulkScan.ScenarioSubmission` | src/FileDrop.js:45-85 | the submission half of that scenario: its two entries and the progress values 25 and 50 |
| `BulkScan.ScenarioEnrichment` | src/FileDrop.js:91-115 | the enrichment half of that scenario: one call, one enriched entry, one progress value of 75 |

## Left out

- Network I/O is not modelled: the `fetch` calls, the proxy URL, `no-cors` mode, and checking `response.ok` and parsing `.json()` (src/FileDrop.js:60-74, 99-103). A call becomes a recorded `SubmitCall` or `FetchCall`, and its result becomes an outcome input. A response whose `response` field is missing makes the source throw inside the `try`; that counts as `Rejected` or `FetchFailed`.
- `SubmitOutcome` only has a string job id. A submit response whose `response` is present but has no string `jobId` (for example `{"response":{}}`) does not throw in the source: line 75 pushes a successful entry whose job id is `undefined` or another non-string value, and line 99 then fetches metrics for that value. The model cannot represent that entry.
- `Metric` has no string case. A metric sent as a string, such as `"0.5"`, is coerced by `value * 100` in the source and rendered as `"50.00%"`; the model does not cover this. Other JSON values (booleans, objects, arrays) are not modelled either.
- `FileReader` and `Papa.parse` are not modelled, because the CSV library's code is not part of this model. The file arrives as its parsed rows, `Option<seq<Row>>`.
- `convertToCSV` is not modelled: it is `Papa.unparse` plus Blob and DOM download plumbing (src/FileDrop.js:127-137). The model only exposes the list that it would serialise, `Run.report`.
- The 12-second `setTimeout` is kept only as ordering: every enrichment call comes after every submission call.
- Floating point is not modelled. Progress values are exact reals, not IEEE doubles.
- `Format.FormatPercentage`: the number rendering `(value * 100).toFixed(2)` is the parameter `fixed2`, not a decimal-rounding model.
- React plumbing is not modelled: state, the effect that resets progress to 0 on file change, the dropzone, JSX rendering and `console` logging.
- Overlapping runs (a second press while one is in flight) are not modelled. They are concurrency hazards outside the sequential run.
- `src/App.js` is not modelled. It only mounts the component.
