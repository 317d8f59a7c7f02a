/**
 `fetch_flights`: the query parameters of the flight-search request, and how
 the outcome of the single HTTP GET becomes the response the ranking reads.
 The request itself is not modelled; its outcome is an input.
 */
module FlightQuery {
  import opened Wrappers
  import opened Text
  import opened FlightRanker

  const Engine := "google_flights"
  const Currency := "INR"
  const Language := "en"

  /** The route and dates `fetch_flights` is called with; the dates are
      already in their `str(date)` form. */
  datatype Route = Route(origin: string, destination: string, outboundDate: string, returnDate: string)

  /** The query parameters sent to the search endpoint. */
  function SearchParams(route: Route, apiKey: string): (p: map<string, string>)
    ensures p.Keys == {"engine", "departure_id", "arrival_id", "outbound_date",
                       "return_date", "currency", "hl", "api_key"}
  {
    map[
      "engine" := Engine,
      "departure_id" := route.origin,
      "arrival_id" := route.destination,
      "outbound_date" := route.outboundDate,
      "return_date" := route.returnDate,
      "currency" := Currency,
      "hl" := Language,
      "api_key" := apiKey
    ]
  }

  /** The route a parameter map asks for, if it names one. */
  function RouteOf(p: map<string, string>): Option<Route> {
    if "departure_id" in p && "arrival_id" in p && "outbound_date" in p && "return_date" in p
    then Some(Route(p["departure_id"], p["arrival_id"], p["outbound_date"], p["return_date"]))
    else None
  }

  /** The request asks for exactly the caller's route and dates, with the
      caller's key and the fixed engine, currency and language. */
  lemma SearchParamsRoundTrip(route: Route, apiKey: string)
    ensures RouteOf(SearchParams(route, apiKey)) == Some(route)
    ensures SearchParams(route, apiKey)["api_key"] == apiKey
    ensures SearchParams(route, apiKey)["engine"] == Engine
    ensures SearchParams(route, apiKey)["currency"] == Currency
    ensures SearchParams(route, apiKey)["hl"] == Language
  {
  }

  /** The body of a reply: a JSON object, or text that `response.json()`
      refuses with the given error. */
  datatype Body = Json(data: Response) | NotJson(error: string)

  /** What the GET comes back with: a reply with a status code, or an
      exception with its text. */
  datatype HttpOutcome = Reply(status: int, body: Body) | Raised(error: string)

  /** The error shown to the user, if any. */
  datatype Alert = NoAlert | BadStatus(status: int) | FetchFailed(error: string)

  datatype Fetched = Fetched(data: Response, alert: Alert)

  const Ok := 200

  /** `fetch_flights` after the GET: a 200 reply yields its parsed body;
      any other status yields an empty mapping and a status alert; an
      exception, including one raised while parsing a 200 reply's body,
      yields an empty mapping and an alert with the exception's text. */
  function FetchFlights(outcome: HttpOutcome): (r: Fetched)
    ensures r.alert == NoAlert <==> outcome.Reply? && outcome.status == Ok && outcome.body.Json?
    ensures r.alert == NoAlert ==> r.data == outcome.body.data
    ensures r.alert != NoAlert ==> r.data == map[]
    ensures outcome.Reply? && outcome.status != Ok ==> r.alert == BadStatus(outcome.status)
    ensures outcome.Raised? ==> r.alert == FetchFailed(outcome.error)
    ensures outcome.Reply? && outcome.status == Ok && outcome.body.NotJson? ==>
              r.alert == FetchFailed(outcome.body.error)
  {
    match outcome
    case Raised(e) => Fetched(map[], FetchFailed(e))
    case Reply(status, body) =>
      if status != Ok then Fetched(map[], BadStatus(status))
      else match body
        case Json(data) => Fetched(data, NoAlert)
        case NotJson(e) => Fetched(map[], FetchFailed(e))
  }

  /** A failed fetch degrades to an empty ranked list, without an error. */
  lemma FailedFetchRanksEmpty(outcome: HttpOutcome)
    requires FetchFlights(outcome).alert != NoAlert
    ensures ExtractCheapestFlights(FetchFlights(outcome).data) == []
  {
  }

  const StatusPrefix := "Error fetching flight data: "
  const FailurePrefix := "An error occurred while fetching flights: "

  /** The text of the `st.error` message for an alert: the status message
      carries the status code in decimal, the failure message the
      exception's text. */
  function ErrorMessage(a: Alert): (m: Option<string>)
    ensures m.None? <==> a == NoAlert
    ensures a.BadStatus? ==>
              StartsWith(m.value, StatusPrefix) && ParseDecimal(m.value[|StatusPrefix|..]) == Some(a.status)
    ensures a.BadStatus? ==> Canonical(m.value[|StatusPrefix|..])
    ensures a.FetchFailed? ==> StartsWith(m.value, FailurePrefix) && m.value[|FailurePrefix|..] == a.error
  {
    match a
    case NoAlert => None
    case BadStatus(status) =>
      DecimalRoundTrip(status);
      assert (StatusPrefix + Decimal(status))[|StatusPrefix|..] == Decimal(status);
      Some(StatusPrefix + Decimal(status))
    case FetchFailed(e) => Some(FailurePrefix + e)
  }

  /** A message is shown exactly when something went wrong, and the message
      tells which alert it was: different alerts give different messages. */
  lemma ErrorMessageIdentifiesAlert(a: Alert, b: Alert)
    ensures ErrorMessage(a).None? <==> a == NoAlert
    ensures ErrorMessage(a) == ErrorMessage(b) <==> a == b
  {
    if ErrorMessage(a) == ErrorMessage(b) && a != NoAlert && b != NoAlert {
      var m := ErrorMessage(a).value;
      match a
      case BadStatus(x) =>
        assert m == StatusPrefix + Decimal(x);
        assert m[0] == StatusPrefix[0] == 'E';
        assert m[|StatusPrefix|..] == Decimal(x);
        if b.BadStatus? {
          assert ErrorMessage(b).value[|StatusPrefix|..] == Decimal(b.status);
          DecimalInjective(x, b.status);
        }
      case FetchFailed(e) =>
        assert m == FailurePrefix + e;
        assert m[0] == FailurePrefix[0] == 'A';
        assert m[|FailurePrefix|..] == e;
        if b.FetchFailed? {
          assert ErrorMessage(b).value[|FailurePrefix|..] == b.error;
        }
    }
  }
}
