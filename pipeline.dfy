/** The three parts end to end: the page posts to the route, the route to the
    backend, and the backend's answer travels back. These lemmas follow a backend
    outcome to what the page shows. */
module Pipeline {
  import opened Common
  import Frames
  import Features
  import Backend
  import Relay
  import UploadClient

  /** A record as the page reads it back from JSON; only a finite amount has a JSON
      number. */
  function ToTransaction(r: Backend.Record): UploadClient.Transaction
    requires r.amount.Finite?
  {
    UploadClient.Transaction(Some(r.transactionId), r.amount.value, r.fraudProbability, r.isFraud)
  }

  /** FastAPI renders JSON with NaN refused, so a record whose amount is missing cannot
      be sent. */
  predicate Serialisable(records: seq<Backend.Record>) {
    forall k :: 0 <= k < |records| ==> records[k].amount.Finite?
  }

  function ToTransactions(records: seq<Backend.Record>): (rows: seq<UploadClient.Transaction>)
    requires Serialisable(records)
    ensures |rows| == |records|
  {
    seq(|records|, k requires 0 <= k < |records| => ToTransaction(records[k]))
  }

  /** The framework's own answer when rendering the response raises. */
  const FrameworkError := "Internal Server Error"

  /** What the route receives from the backend: the HTTPException's status with the
      error text, the records as 200, or the framework's plain 500 when the records
      hold a NaN amount. `errorText` and `rowsText` are the serialised bodies. */
  function BackendAnswer(r: Result<seq<Backend.Record>, Backend.HttpException>, errorText: string, rowsText: string): Relay.Exchange {
    match r
    case Failure(e) => Relay.Answered(e.status, Some(errorText))
    case Success(records) =>
      if Serialisable(records) then Relay.Answered(200, Some(rowsText))
      else Relay.Answered(500, Some(FrameworkError))
  }

  /** What the page's `fetch` settles to, given the route's response. An error body
      is an object, not a list of rows. */
  function PageOutcome(h: Relay.Handled<seq<UploadClient.Transaction>>): UploadClient.Outcome {
    match h.response.body
    case Relayed(rows) => UploadClient.Responded(h.response.status, Success(rows))
    case ErrorBody(_) => UploadClient.Responded(h.response.status, Failure(UploadClient.OtherValue))
  }

  /** The route never answers an error body with an ok status, so the page never
      reads an error body as rows. */
  lemma ErrorBodiesAreNotOk(exchange: Relay.Exchange, parse: string -> Option<seq<UploadClient.Transaction>>)
    ensures var h := Relay.Post(exchange, parse);
      h.response.body.ErrorBody? ==> !UploadClient.Ok(h.response.status)
  {
    Relay.ThreeOutcomes(exchange, parse);
  }

  /** The page's message for a 500. */
  lemma PageErrorFor500()
    ensures UploadClient.SubmitError(UploadClient.Responded(500, Failure(UploadClient.OtherValue)))
      == Some("HTTP error! status: 500")
  {
    HundredText(5);
    assert "HTTP error! status: " + "500" == "HTTP error! status: 500";
  }

  /** Any backend error status travels through the route unchanged and is what the
      page reports. */
  lemma ErrorStatusReachesPage(status: nat, errorText: string, parse: string -> Option<seq<UploadClient.Transaction>>)
    requires !UploadClient.Ok(status) && Relay.Constructible(status)
    ensures var h := Relay.Post(Relay.Answered(status, Some(errorText)), parse);
      && h.response == Relay.Response(status, Relay.ErrorBody(Relay.BackendErrorPrefix + errorText))
      && UploadClient.SubmitError(PageOutcome(h)) == Some("HTTP error! status: " + NatToString(status))
  {
    Relay.NotOkPassesStatusThrough(status, errorText, parse);
  }

  /** Whatever makes `predict_file` fail, the page shows "HTTP error! status: 500"
      and no rows. */
  lemma BackendFailureReachesPage(filename: Option<string>, upload: Result<Frames.Frame, string>, n: nat,
                                  model: Option<Backend.Artefact>, fp: Features.FloatOps, repr: real -> string,
                                  errorText: string, rowsText: string,
                                  parse: string -> Option<seq<UploadClient.Transaction>>)
    requires upload.Success? ==> Frames.Rectangular(upload.value, n)
    requires Backend.PredictOutcome(filename, upload, n, model, fp, repr).Failure?
    ensures var r := Backend.PredictOutcome(filename, upload, n, model, fp, repr);
      var h := Relay.Post(BackendAnswer(r, errorText, rowsText), parse);
      && h.response == Relay.Response(500, Relay.ErrorBody(Relay.BackendErrorPrefix + errorText))
      && UploadClient.SubmitError(PageOutcome(h)) == Some("HTTP error! status: 500")
  {
    Backend.PredictFailuresAre500(filename, upload, n, model, fp, repr);
    ErrorStatusReachesPage(500, errorText, parse);
    PageErrorFor500();
  }

  /** A response with a missing amount cannot be rendered: the page shows
      "HTTP error! status: 500", the route having wrapped the framework's text. */
  lemma MissingAmountReachesPage(records: seq<Backend.Record>, errorText: string, rowsText: string,
                                 parse: string -> Option<seq<UploadClient.Transaction>>)
    requires !Serialisable(records)
    ensures var h := Relay.Post(BackendAnswer(Success(records), errorText, rowsText), parse);
      && h.response == Relay.Response(500, Relay.ErrorBody(Relay.BackendErrorPrefix + FrameworkError))
      && UploadClient.SubmitError(PageOutcome(h)) == Some("HTTP error! status: 500")
  {
    ErrorStatusReachesPage(500, FrameworkError, parse);
    PageErrorFor500();
  }

  /** Serialisable records reach the page as they are, with no error, and the page
      counts as fraud exactly the records flagged by the backend. */
  lemma RecordsReachPage(records: seq<Backend.Record>, errorText: string, rowsText: string,
                         parse: string -> Option<seq<UploadClient.Transaction>>)
    requires Serialisable(records) && parse(rowsText) == Some(ToTransactions(records))
    ensures var outcome := PageOutcome(Relay.Post(BackendAnswer(Success(records), errorText, rowsText), parse));
      && UploadClient.SubmitError(outcome) == None
      && outcome.json.value == ToTransactions(records)
      && UploadClient.FraudCount(outcome.json.value) == |set k: nat | k < |records| && records[k].isFraud|
  {
    Relay.OkRelaysData(200, rowsText, parse);
    var rows := ToTransactions(records);
    UploadClient.FraudCountIsFlaggedRows(rows);
    assert UploadClient.FraudRows(rows) == set k: nat | k < |records| && records[k].isFraud;
  }

  /** A successful scoring reaches the page intact: one row per uploaded row, in
      order, no error, and the page's fraud count is the number of rows whose
      probability is strictly above 0.1. */
  lemma BackendSuccessReachesPage(filename: Option<string>, df: Frames.Frame, n: nat,
                                  model: Option<Backend.Artefact>, fp: Features.FloatOps, repr: real -> string,
                                  errorText: string, rowsText: string,
                                  parse: string -> Option<seq<UploadClient.Transaction>>)
    requires Frames.Rectangular(df, n)
    requires var r := Backend.PredictOutcome(filename, Success(df), n, model, fp, repr);
      r.Success? && Serialisable(r.value) && parse(rowsText) == Some(ToTransactions(r.value))
    ensures var r := Backend.PredictOutcome(filename, Success(df), n, model, fp, repr);
      var outcome := PageOutcome(Relay.Post(BackendAnswer(r, errorText, rowsText), parse));
      && UploadClient.SubmitError(outcome) == None
      && outcome.json.value == ToTransactions(r.value)
      && |outcome.json.value| == n
      && UploadClient.FraudCount(outcome.json.value)
           == |set k: nat | k < |r.value| && r.value[k].fraudProbability > Backend.FraudThreshold|
  {
    var r := Backend.PredictOutcome(filename, Success(df), n, model, fp, repr);
    Backend.PredictFlags(filename, df, n, model, fp, repr);
    RecordsReachPage(r.value, errorText, rowsText, parse);
    FlaggedAboveThreshold(r.value);
  }

  lemma FlaggedAboveThreshold(records: seq<Backend.Record>)
    requires forall k :: 0 <= k < |records| ==> (records[k].isFraud <==> records[k].fraudProbability > Backend.FraudThreshold)
    ensures (set k: nat | k < |records| && records[k].isFraud)
      == set k: nat | k < |records| && records[k].fraudProbability > Backend.FraudThreshold
  {
  }

  /** The backend flags every row the page colours yellow or red, so a "Legitimate"
      badge only ever sits on a green bar; a green bar may still read "Fraud". */
  lemma TierImpliesBadge(r: Backend.Record)
    requires r.amount.Finite? && (r.isFraud <==> r.fraudProbability > Backend.FraudThreshold)
    ensures UploadClient.Tier(r.fraudProbability) != UploadClient.Low ==> UploadClient.Badge(ToTransaction(r)) == "Fraud"
    ensures var green := Backend.Record("1", Backend.Finite(1.0), 0.25, 0.25 > Backend.FraudThreshold);
      UploadClient.Tier(green.fraudProbability) == UploadClient.Low && UploadClient.Badge(ToTransaction(green)) == "Fraud"
  {
  }
}
