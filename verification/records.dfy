/** The values the bulk scan passes around: parsed CSV rows, the request body
    built from a row, the per-row result entry, the two remote calls and the
    outcomes the remote service gives them. */
module Records {

  /** A JavaScript value that may be `undefined`. */
  datatype Option<+T> = None | Some(value: T)

  /** One data row of the parsed CSV file: column header to cell text. */
  type Row = map<string, string>

  /** The property read `row[column]`: the cell text, or `undefined` when the
      file has no such column. */
  function Cell(row: Row, column: string): (v: Option<string>)
    ensures v.Some? <==> column in row
    ensures v.Some? ==> v.value == row[column]
  {
    if column in row then Some(row[column]) else None
  }

  /** The column headers a request reads, spelt exactly as in the file. */
  const RequestColumns: set<string> := {"Name", "Address", "Phone", "City", "State", "Zip Code"}

  /** The JSON body of one scan submission. */
  datatype Request = Request(
    name: Option<string>,
    address: Option<string>,
    phone: Option<string>,
    city: Option<string>,
    state: Option<string>,
    zip: Option<string>,
    includeReviewMetrics: bool,
    performDuplicateSearch: bool)

  /** The request body built from one row. */
  function ToRequest(row: Row): (q: Request)
    ensures q.name == Cell(row, "Name") && q.address == Cell(row, "Address")
    ensures q.phone == Cell(row, "Phone") && q.city == Cell(row, "City")
    ensures q.state == Cell(row, "State") && q.zip == Cell(row, "Zip Code")
    ensures q.includeReviewMetrics && q.performDuplicateSearch
  {
    Request(Cell(row, "Name"), Cell(row, "Address"), Cell(row, "Phone"),
            Cell(row, "City"), Cell(row, "State"), Cell(row, "Zip Code"),
            true, true)
  }

  /** Two rows give the same request exactly when they agree on the six
      recognised columns: no other column reaches the remote service, and
      none of the six is dropped. */
  lemma RequestDependsOnlyOnRequestColumns(r1: Row, r2: Row)
    ensures ToRequest(r1) == ToRequest(r2)
        <==> forall c :: c in RequestColumns ==> Cell(r1, c) == Cell(r2, c)
  {
    if ToRequest(r1) == ToRequest(r2) {
      forall c | c in RequestColumns ensures Cell(r1, c) == Cell(r2, c) {
        if c == "Name" {
        } else if c == "Address" {
        } else if c == "Phone" {
        } else if c == "City" {
        } else if c == "State" {
        } else {
          assert c == "Zip Code";
        }
      }
    }
  }

  /** One row of the result table. `jobId` is empty when the submission
      failed; the two metric cells stay `undefined` until enrichment fills
      them. */
  datatype Entry = Entry(
    name: Option<string>,
    jobId: string,
    success: bool,
    reviewsPercentile: Option<string>,
    listingsInaccuracy: Option<string>)

  /** A metric field of the metrics response: JSON `null`, a missing field
      (`undefined`), or a number. */
  datatype Metric = Null | Undefined | Number(x: real)

  /** How one submit call ended: a response that was ok and carried a job
      identifier, or anything else (a non-ok status or a thrown error). */
  datatype SubmitOutcome = Accepted(jobId: string) | Rejected

  /** How one metrics call ended: an ok response with its two metric fields,
      or anything else. */
  datatype FetchOutcome = Fetched(reviewsPercentile: Metric, listingsInaccuracy: Metric) | FetchFailed

  /** A `POST` to the scan endpoint, with the key as typed and the body. */
  datatype SubmitCall = SubmitCall(apiKey: string, body: Request)

  /** A `GET` of the metrics of one job, with the key as typed. */
  datatype FetchCall = FetchCall(apiKey: string, jobId: string)
}
