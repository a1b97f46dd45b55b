/** The Next.js route `POST /api/predict` of `app/api/predict/route.ts`: it forwards
    the uploaded form to the backend once and normalises what comes back into a
    JSON response. The awaits of the handler (reading the form, the fetch, reading
    and parsing the backend's body) are given as the outcome they settle to, so the
    route becomes a function of that outcome. */
module Relay {
  import opened Common

  /** The one address the route forwards to (line 8). */
  const BackendUrl := "http://localhost:8000/predict"

  /** What the awaits settle to. `body` is None when reading the backend's body
      rejects; otherwise it is the raw text. */
  datatype Exchange =
    | FormUnreadable
    | FetchRejected
    | Answered(status: nat, body: Option<string>)

  /** A JSON body the route sends: `{error: ...}` or the backend's data as parsed. */
  datatype Body<J> = ErrorBody(error: string) | Relayed(data: J)

  datatype Response<J> = Response(status: nat, body: Body<J>)

  /** The route's response, the addresses it posted to, and whether it logged an error. */
  datatype Handled<J> = Handled(response: Response<J>, forwards: seq<string>, logged: bool)

  /** `Response.ok`: a status in the range 200 to 299. */
  predicate Ok(status: nat) {
    200 <= status <= 299
  }

  /** A status whose response may not carry a body: a "null body status" of the
      Fetch standard. */
  predicate NullBodyStatus(status: nat) {
    status == 101 || status == 103 || status == 204 || status == 205 || status == 304
  }

  /** The statuses `NextResponse.json` can build a response with. Outside 200 to
      599 it throws a RangeError, and for a null body status it throws a TypeError,
      since the JSON body is never null (the Fetch standard, section 5.5,
      "initialize a response", steps 1 and 6). */
  predicate Constructible(status: nat)
    ensures Ok(status) && status != 204 && status != 205 ==> Constructible(status)
    ensures 400 <= status <= 599 ==> Constructible(status)
    ensures Constructible(status) ==> status != 304
  {
    200 <= status <= 599 && !NullBodyStatus(status)
  }

  const InternalError := "Internal server error"

  const BackendErrorPrefix := "Backend error: "

  /** Lines 23-29: any exception inside the `try` is logged and answered with 500. */
  function Caught<J>(forwards: seq<string>): Handled<J> {
    Handled(Response(500, ErrorBody(InternalError)), forwards, true)
  }

  /** The route, given what its awaits settle to and `parse`, the JSON parser of
      `backendResponse.json()`, which yields None on malformed text. It posts once,
      unless reading the incoming form already failed, and it logs exactly when it
      answers with the generic 500. */
  function Post<J>(exchange: Exchange, parse: string -> Option<J>): (h: Handled<J>)
    ensures h.forwards == (if exchange.FormUnreadable? then [] else [BackendUrl])
    ensures h.logged <==> h.response == Response(500, ErrorBody(InternalError))
  {
    match exchange
    case FormUnreadable => Caught([])
    case FetchRejected => Caught([BackendUrl])
    case Answered(status, body) =>
      if body.None? then Caught([BackendUrl])
      else if !Ok(status) then
        if Constructible(status) then
          BackendErrorNotInternal(body.value);
          Handled(Response(status, ErrorBody(BackendErrorPrefix + body.value)), [BackendUrl], false)
        else Caught([BackendUrl])
      else
        match parse(body.value)
        case Some(data) => Handled(Response(200, Relayed(data)), [BackendUrl], false)
        case None => Caught([BackendUrl])
  }

  /** A relayed backend error can never be mistaken for the route's own 500 body. */
  lemma BackendErrorNotInternal(text: string)
    ensures BackendErrorPrefix + text != InternalError
  {
    assert (BackendErrorPrefix + text)[0] == 'B' != InternalError[0];
  }

  /** Lines 13-19: a backend that answers with an error status has that status passed
      through, and its raw text comes back behind "Backend error: ". */
  lemma NotOkPassesStatusThrough<J>(status: nat, text: string, parse: string -> Option<J>)
    requires !Ok(status) && Constructible(status)
    ensures Post(Answered(status, Some(text)), parse)
      == Handled(Response(status, ErrorBody(BackendErrorPrefix + text)), [BackendUrl], false)
  {
  }

  /** A backend 304 cannot be passed through: building the JSON error response
      throws, and the route answers with its logged 500 instead. */
  lemma NotModifiedIsInternal<J>(text: string, parse: string -> Option<J>)
    ensures Post(Answered(304, Some(text)), parse) == Caught([BackendUrl])
  {
  }

  /** Lines 21-22: a successful backend answer is relayed as parsed, always with the
      default status 200, whichever 2xx the backend sent. */
  lemma OkRelaysData<J>(status: nat, text: string, parse: string -> Option<J>)
    requires Ok(status) && parse(text).Some?
    ensures Post(Answered(status, Some(text)), parse)
      == Handled(Response(200, Relayed(parse(text).value)), [BackendUrl], false)
  {
  }

  /** Lines 23-29: an unreadable form, an unreachable backend, an unreadable body and
      malformed JSON all end in the same logged 500. */
  lemma FailuresAreInternal<J>(exchange: Exchange, parse: string -> Option<J>)
    requires || exchange.FormUnreadable? || exchange.FetchRejected?
             || (exchange.Answered? && exchange.body.None?)
             || (exchange.Answered? && exchange.body.Some? && Ok(exchange.status) && parse(exchange.body.value).None?)
    ensures Post(exchange, parse).response == Response(500, ErrorBody(InternalError))
    ensures Post(exchange, parse).logged
  {
  }

  /** The three outcomes are exhaustive and exclusive: the data relayed with 200, the
      backend's error status with its text, or the route's own 500. Every error body
      carries the single field `error`, and only relayed data has status 200 from an
      ok backend. */
  lemma ThreeOutcomes<J>(exchange: Exchange, parse: string -> Option<J>)
    ensures var h := Post(exchange, parse);
      && (h.response.body.Relayed? <==>
            exchange.Answered? && exchange.body.Some? && Ok(exchange.status) && parse(exchange.body.value).Some?)
      && (h.response.body.Relayed? ==> h.response.status == 200)
      && (h.response.body.ErrorBody? && !h.logged <==>
            exchange.Answered? && exchange.body.Some? && !Ok(exchange.status) && Constructible(exchange.status))
      && (h.response.body.ErrorBody? && !h.logged ==>
            h.response.status == exchange.status && StartsWith(h.response.body.error, BackendErrorPrefix))
      && (h.logged ==> !h.response.body.Relayed? && h.response.status == 500)
  {
    var h := Post(exchange, parse);
    if h.response.body.ErrorBody? && !h.logged {
      PrefixOf(BackendErrorPrefix, exchange.body.value);
    }
  }
}
