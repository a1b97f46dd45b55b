/** The upload page of `fraud-detection-app.tsx`: four pieces of view state (the
    chosen file, the loading flag, the scored rows and the error text), the two
    handlers that change them, and what the page derives from them (the counts,
    the risk tier, the badge and which parts are shown). The browser's `fetch`
    settles to an `Outcome` that the submission takes as a parameter. */
module UploadClient {
  import opened Common

  /** A `File` from the file input: its name and its MIME type. */
  datatype SelectedFile = SelectedFile(name: string, mediaType: string)

  /** One row of the response (`interface Transaction`); the id may be absent. */
  datatype Transaction = Transaction(transactionId: Option<string>, amount: real, fraudProbability: real, isFraud: bool)

  /** A thrown value: an `Error` with its message, or anything else. */
  datatype Thrown = ErrorObject(message: string) | OtherValue

  /** How the request settles: a response, with what `response.json()` would give, or
      a rejected `fetch`. */
  datatype Outcome =
    | Responded(status: nat, json: Result<seq<Transaction>, Thrown>)
    | FetchThrew(thrown: Thrown)

  const InvalidFileMessage := "Please select a valid CSV file"
  const NoFileMessage := "Please select a CSV file to upload"
  const FallbackMessage := "An error occurred while processing the data"

  /** `response.ok` */
  predicate Ok(status: nat) {
    200 <= status <= 299
  }

  /** Line 68: an Error shows its message, anything else the fixed fallback. */
  function ThrownText(t: Thrown): (r: string)
    ensures t.ErrorObject? ==> r == t.message
    ensures t.OtherValue? ==> r == FallbackMessage
  {
    match t
    case ErrorObject(message) => message
    case OtherValue => FallbackMessage
  }

  /** The error a settled request leaves on the page, or None when the rows arrive.
      A response that is not ok is never parsed. */
  function SubmitError(outcome: Outcome): (e: Option<string>)
    ensures outcome.Responded? && !Ok(outcome.status) ==> e == Some("HTTP error! status: " + NatToString(outcome.status))
    ensures outcome.FetchThrew? ==> e == Some(ThrownText(outcome.thrown))
    ensures outcome.Responded? && Ok(outcome.status) && outcome.json.Failure? ==> e == Some(ThrownText(outcome.json.error))
    ensures e.None? <==> outcome.Responded? && Ok(outcome.status) && outcome.json.Success?
  {
    match outcome
    case FetchThrew(t) => Some(ThrownText(t))
    case Responded(status, json) =>
      if !Ok(status) then Some(ThrownText(ErrorObject("HTTP error! status: " + NatToString(status))))
      else if json.Failure? then Some(ThrownText(json.error))
      else None
  }

  /** The page's state (lines 24-27). */
  class UploadForm {
    var file: Option<SelectedFile>
    var loading: bool
    var results: seq<Transaction>
    var error: Option<string>

    /** The state of a freshly mounted page. */
    constructor ()
      ensures file == None && !loading && results == [] && error == None
    {
      file := None;
      loading := false;
      results := [];
      error := None;
    }

    /** `handleFileChange` (lines 29-38): a first chosen file of type exactly
        "text/csv" is kept and the error cleared; anything else, no file included,
        clears the file and shows the invalid-file error. */
    method SelectFile(chosen: Option<SelectedFile>)
      modifies this
      ensures chosen.Some? && chosen.value.mediaType == "text/csv" ==> file == chosen && error == None
      ensures !(chosen.Some? && chosen.value.mediaType == "text/csv") ==> file == None && error == Some(InvalidFileMessage)
      ensures loading == old(loading) && results == old(results)
    {
      if chosen.Some? && chosen.value.mediaType == "text/csv" {
        file := chosen;
        error := None;
      } else {
        error := Some(InvalidFileMessage);
        file := None;
      }
    }

    /** The part of `handleSubmit` before the first `await` (lines 43-59). Without a
        file it only shows an error and sends nothing; with one it starts loading,
        clears the error and the rows, and posts the file. */
    method BeginSubmit() returns (request: Option<SelectedFile>)
      modifies this
      ensures request == old(file) && file == old(file)
      ensures old(file).None? ==> error == Some(NoFileMessage) && loading == old(loading) && results == old(results)
      ensures old(file).Some? ==> loading && error == None && results == []
      ensures request.Some? ==> SubmitDisabled() && !ShowResults(results)
    {
      if file.None? {
        error := Some(NoFileMessage);
        return None;
      }
      loading := true;
      error := None;
      results := [];
      request := file;
    }

    /** The rest of `handleSubmit` once the request settles (lines 61-71): the rows
        replace the results, or the error is shown, and loading always ends. */
    method Settle(outcome: Outcome)
      modifies this
      ensures file == old(file) && !loading
      ensures error == (if SubmitError(outcome).Some? then SubmitError(outcome) else old(error))
      ensures results == (if SubmitError(outcome).None? then outcome.json.value else old(results))
      ensures SubmitDisabled() <==> file.None?
    {
      match outcome {
        case FetchThrew(t) =>
          error := Some(ThrownText(t));
        case Responded(status, json) =>
          if !Ok(status) {
            error := Some(ThrownText(ErrorObject("HTTP error! status: " + NatToString(status))));
          } else if json.Failure? {
            error := Some(ThrownText(json.error));
          } else {
            results := json.value;
          }
      }
      loading := false;
    }

    /** A whole submission. Without a file nothing is sent and only the error
        changes. With one, once it settles loading is off and either the error is
        shown with no rows, or there is no error and the rows are the response's, in
        order. */
    method Submit(outcome: Outcome) returns (request: Option<SelectedFile>)
      modifies this
      ensures request == old(file) && file == old(file)
      ensures old(file).None? ==> error == Some(NoFileMessage) && loading == old(loading) && results == old(results)
      ensures old(file).Some? ==> !loading && error == SubmitError(outcome)
      ensures old(file).Some? && error.None? ==> results == outcome.json.value
      ensures old(file).Some? && error.Some? ==> results == [] && !ShowResults(results)
      ensures old(file).Some? ==> !SubmitDisabled()
    {
      request := BeginSubmit();
      if request.Some? {
        Settle(outcome);
      }
    }

    /** Line 272. */
    predicate SubmitDisabled()
      reads this
    {
      loading || file.None?
    }
  }

  // ---------------------------------------------------------------------
  // Derived values (lines 85-86 and the render)
  // ---------------------------------------------------------------------

  /** `results.filter((t) => t.is_fraud).length` */
  function FraudCount(rows: seq<Transaction>): (c: nat)
    ensures c <= |rows|
  {
    if |rows| == 0 then 0
    else FraudCount(rows[..|rows| - 1]) + (if Last(rows).isFraud then 1 else 0)
  }

  /** `results.length - fraudCount` */
  function LegitimateCount(rows: seq<Transaction>): (c: nat)
    ensures c <= |rows|
  {
    |rows| - FraudCount(rows)
  }

  /** The rows flagged as fraud, by position: the reference the count is checked against. */
  function FraudRows(rows: seq<Transaction>): set<nat> {
    set k: nat | k < |rows| && rows[k].isFraud
  }

  /** The fraud count is the number of flagged rows. */
  lemma {:induction false} FraudCountIsFlaggedRows(rows: seq<Transaction>)
    ensures FraudCount(rows) == |FraudRows(rows)|
  {
    if |rows| > 0 {
      var init := rows[..|rows| - 1];
      FraudCountIsFlaggedRows(init);
      assert FraudRows(rows) == FraudRows(init) + (if Last(rows).isFraud then {|rows| - 1} else {});
    }
  }

  /** The rows not flagged, by position. */
  function LegitimateRows(rows: seq<Transaction>): set<nat> {
    set k: nat | k < |rows| && !rows[k].isFraud
  }

  /** Every row is either flagged or not. */
  lemma {:induction false} RowsSplit(rows: seq<Transaction>)
    ensures |FraudRows(rows)| + |LegitimateRows(rows)| == |rows|
  {
    if |rows| > 0 {
      var init := rows[..|rows| - 1];
      RowsSplit(init);
      var last := |rows| - 1;
      if rows[last].isFraud {
        assert FraudRows(rows) == FraudRows(init) + {last};
        assert LegitimateRows(rows) == LegitimateRows(init);
      } else {
        assert FraudRows(rows) == FraudRows(init);
        assert LegitimateRows(rows) == LegitimateRows(init) + {last};
      }
    }
  }

  /** The legitimate count is the number of rows not flagged; the two counts split
      the rows, 0 and 0 for none. */
  lemma CountsPartition(rows: seq<Transaction>)
    ensures FraudCount(rows) + LegitimateCount(rows) == |rows|
    ensures LegitimateCount(rows) == |LegitimateRows(rows)|
    ensures |rows| == 0 ==> FraudCount(rows) == 0 && LegitimateCount(rows) == 0
  {
    FraudCountIsFlaggedRows(rows);
    RowsSplit(rows);
  }

  /** Counting is additive over concatenated results. */
  lemma {:induction false} FraudCountAppend(a: seq<Transaction>, b: seq<Transaction>)
    ensures FraudCount(a + b) == FraudCount(a) + FraudCount(b)
    decreases |b|
  {
    if |b| == 0 {
      assert a + b == a;
    } else {
      assert (a + b)[..|a + b| - 1] == a + b[..|b| - 1];
      FraudCountAppend(a, b[..|b| - 1]);
    }
  }

  // --- risk tier and badge (lines 355-359, 374-379) ---

  datatype RiskTier = High | Medium | Low

  /** The literals 0.7 and 0.4 of lines 355 and 357 as the binary64 values the
      comparisons use. */
  const HighCut: real := 0.6999999999999999555910790149937383830547332763671875
  const MediumCut: real := 0.40000000000000002220446049250313080847263336181640625

  /** The bar colour: red, yellow or green. Only a probability above 0.4 leaves
      green, and red is reserved for those above 0.7. */
  function Tier(p: real): (t: RiskTier)
    ensures t != Low <==> p > MediumCut
    ensures t == High ==> p > HighCut
  {
    if p > HighCut then High else if p > MediumCut then Medium else Low
  }

  function Rank(t: RiskTier): nat {
    match t
    case Low => 0
    case Medium => 1
    case High => 2
  }

  /** Each tier holds exactly on its interval of probabilities. */
  lemma TierIntervals(p: real)
    ensures Tier(p) == High <==> p > HighCut
    ensures Tier(p) == Medium <==> MediumCut < p <= HighCut
    ensures Tier(p) == Low <==> p <= MediumCut
  {
  }

  /** A higher probability never gets a lower tier. */
  lemma TierMonotone(p: real, q: real)
    requires p <= q
    ensures Rank(Tier(p)) <= Rank(Tier(q))
  {
  }

  /** The status badge. */
  function Badge(t: Transaction): (caption: string)
    ensures caption == "Fraud" <==> t.isFraud
  {
    if t.isFraud then "Fraud" else "Legitimate"
  }

  /** The badge follows `is_fraud` alone: a high-tier row can read "Legitimate" and a
      low-tier row "Fraud". */
  lemma BadgeIndependentOfTier()
    ensures var t := Transaction(None, 0.0, 0.9, false); Tier(t.fraudProbability) == High && Badge(t) == "Legitimate"
    ensures var t := Transaction(None, 0.0, 0.2, true); Tier(t.fraudProbability) == Low && Badge(t) == "Fraud"
  {
  }

  // --- what is shown ---

  /** JavaScript truthiness of `string | undefined`. */
  predicate Truthy(s: Option<string>) {
    s.Some? && s.value != ""
  }

  /** Line 328: the id column header. */
  predicate ShowIdHeader(rows: seq<Transaction>) {
    |rows| > 0 && Truthy(rows[0].transactionId)
  }

  /** Line 342: a row's id cell. */
  predicate ShowIdCell(t: Transaction) {
    Truthy(t.transactionId)
  }

  /** Lines 164 and 312: the summary cards and the results table. */
  predicate ShowResults(rows: seq<Transaction>) {
    |rows| > 0
  }

  /** The header looks at the first row only, so it and a row's cell can disagree
      either way: columns then shift under the wrong headings. */
  lemma IdHeaderAndCellsCanDisagree()
    ensures var rows := [Transaction(Some("1"), 0.0, 0.0, false), Transaction(None, 0.0, 0.0, false)];
      ShowIdHeader(rows) && !ShowIdCell(rows[1])
    ensures var rows := [Transaction(None, 0.0, 0.0, false), Transaction(Some("2"), 0.0, 0.0, false)];
      !ShowIdHeader(rows) && ShowIdCell(rows[1])
  {
  }

  /** When every row carries an id the header and the cells agree. */
  lemma IdHeaderMatchesCells(rows: seq<Transaction>)
    requires forall k :: 0 <= k < |rows| ==> Truthy(rows[k].transactionId)
    ensures ShowIdHeader(rows) <==> ShowResults(rows)
    ensures forall k :: 0 <= k < |rows| ==> ShowIdCell(rows[k])
  {
  }
}
