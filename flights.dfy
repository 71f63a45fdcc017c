/** The serverless handler of `api/flights.js`: parameter validation, the
    token request, the upstream query it builds, and `mapAmadeusToLight`,
    which trims each upstream flight offer to the fields the front end
    renders. The two `fetch` replies and the environment's credentials are
    inputs; the outbound calls are recorded. */
module Flights {
  import opened Wrappers
  import opened Js
  import opened Upstream

  // ---------------------------------------------------------------------
  // Upstream offers as they arrive (every field may be missing)

  /** An airport/time pair such as `departure` or `arrival`. */
  datatype Endpoint = Endpoint(iataCode: Option<string>, terminal: Option<string>, at: Option<string>)

  datatype RawSegment = RawSegment(
    carrierCode: Option<string>,
    number: Option<string>,
    departure: Option<Endpoint>,
    arrival: Option<Endpoint>,
    duration: Option<string>,
    aircraft: Option<string>)

  datatype RawItinerary = RawItinerary(duration: Option<string>, segments: Option<seq<RawSegment>>)

  datatype RawPrice = RawPrice(currency: Option<string>, total: Option<string>, grandTotal: Option<string>)

  datatype RawOffer = RawOffer(
    id: Option<string>,
    price: Option<RawPrice>,
    validatingAirlineCodes: Option<seq<string>>,
    itineraries: Option<seq<RawItinerary>>)

  /** What `raw?.data` is for the parsed search answer: missing (also when
      the answer is not an object), present but not an array, or an array
      of offers. */
  datatype RawData = DataMissing | DataNotArray | DataArray(offers: seq<RawOffer>)

  // ---------------------------------------------------------------------
  // The trimmed shape sent to the front end

  datatype LightSegment = LightSegment(
    carrierCode: Option<string>,
    number: Option<string>,
    departure: Option<Endpoint>,
    arrival: Option<Endpoint>)

  datatype LightItinerary = LightItinerary(duration: string, segments: seq<LightSegment>)

  /** `total` is `None` for JSON `null`. */
  datatype LightOffer = LightOffer(total: Option<string>, validatingAirlineCodes: seq<string>, itineraries: seq<LightItinerary>)

  // ---------------------------------------------------------------------
  // mapAmadeusToLight

  function GrandTotalOf(p: Option<RawPrice>): Option<string> {
    if p.Some? then p.value.grandTotal else None
  }

  function TotalOf(p: Option<RawPrice>): Option<string> {
    if p.Some? then p.value.total else None
  }

  /** `o.price?.grandTotal || o.price?.total || null`. */
  function PriceTotal(p: Option<RawPrice>): (r: Option<string>)
    ensures Truthy(GrandTotalOf(p)) ==> r == GrandTotalOf(p)
    ensures !Truthy(GrandTotalOf(p)) && Truthy(TotalOf(p)) ==> r == TotalOf(p)
    ensures !Truthy(GrandTotalOf(p)) && !Truthy(TotalOf(p)) ==> r == None
    ensures r == None || Truthy(r)
  {
    Or(Or(GrandTotalOf(p), TotalOf(p)), None)
  }

  /** Segments are copied field for field; every other field is dropped. */
  function ShapeSegment(s: RawSegment): (r: LightSegment)
    ensures r.carrierCode == s.carrierCode && r.number == s.number
    ensures r.departure == s.departure && r.arrival == s.arrival
  {
    LightSegment(s.carrierCode, s.number, s.departure, s.arrival)
  }

  /** The number of elements of an optional list, zero when it is absent. */
  function Count<T>(xs: Option<seq<T>>): nat {
    if xs.Some? then |xs.value| else 0
  }

  function ShapeItinerary(it: RawItinerary): (r: LightItinerary)
    ensures r.duration == it.duration.GetOr("")
    ensures |r.segments| == Count(it.segments)
    ensures forall k :: 0 <= k < |r.segments| ==> r.segments[k] == ShapeSegment(it.segments.value[k])
  {
    var segs := it.segments.GetOr([]);
    LightItinerary(if Truthy(it.duration) then it.duration.value else "",
                   seq(|segs|, k requires 0 <= k < |segs| => ShapeSegment(segs[k])))
  }

  function ShapeOffer(o: RawOffer): (r: LightOffer)
    ensures r.total == PriceTotal(o.price)
    ensures r.validatingAirlineCodes == o.validatingAirlineCodes.GetOr([])
    ensures |r.itineraries| == Count(o.itineraries)
    ensures forall j :: 0 <= j < |r.itineraries| ==> r.itineraries[j] == ShapeItinerary(o.itineraries.value[j])
  {
    var its := o.itineraries.GetOr([]);
    LightOffer(PriceTotal(o.price),
               o.validatingAirlineCodes.GetOr([]),
               seq(|its|, j requires 0 <= j < |its| => ShapeItinerary(its[j])))
  }

  /** `mapAmadeusToLight(offers)`: one trimmed offer per offer, in order. */
  function MapAmadeusToLight(offers: seq<RawOffer>): (r: seq<LightOffer>)
    ensures |r| == |offers|
    ensures forall i :: 0 <= i < |offers| ==> r[i] == ShapeOffer(offers[i])
  {
    seq(|offers|, i requires 0 <= i < |offers| => ShapeOffer(offers[i]))
  }

  /** The raw offer that carries exactly the fields of a trimmed one. */
  function EmbedSegment(s: LightSegment): RawSegment {
    RawSegment(s.carrierCode, s.number, s.departure, s.arrival, None, None)
  }

  function EmbedItinerary(it: LightItinerary): RawItinerary {
    RawItinerary(Some(it.duration), Some(seq(|it.segments|, k requires 0 <= k < |it.segments| => EmbedSegment(it.segments[k]))))
  }

  function EmbedOffer(o: LightOffer): RawOffer {
    RawOffer(None, Some(RawPrice(None, None, o.total)), Some(o.validatingAirlineCodes),
             Some(seq(|o.itineraries|, j requires 0 <= j < |o.itineraries| => EmbedItinerary(o.itineraries[j]))))
  }

  function EmbedAll(offers: seq<LightOffer>): seq<RawOffer> {
    seq(|offers|, i requires 0 <= i < |offers| => EmbedOffer(offers[i]))
  }

  /** A trimmed value JSON can produce has no empty-string price. */
  predicate NoEmptyPrice(offers: seq<LightOffer>) {
    forall i :: 0 <= i < |offers| ==> offers[i].total != Some("")
  }

  lemma ShapeEmbedItinerary(it: LightItinerary)
    ensures ShapeItinerary(EmbedItinerary(it)) == it
  {
    var r := ShapeItinerary(EmbedItinerary(it));
    assert r.segments == it.segments;
  }

  lemma ShapeEmbedOffer(o: LightOffer)
    requires o.total != Some("")
    ensures ShapeOffer(EmbedOffer(o)) == o
  {
    var r := ShapeOffer(EmbedOffer(o));
    forall j | 0 <= j < |o.itineraries| ensures r.itineraries[j] == o.itineraries[j] {
      ShapeEmbedItinerary(o.itineraries[j]);
    }
    assert r.itineraries == o.itineraries;
  }

  /** The trimming loses nothing of what it keeps: shaping the raw offers
      that carry exactly the trimmed fields gives those trimmed offers back. */
  lemma ShapeEmbed(offers: seq<LightOffer>)
    requires NoEmptyPrice(offers)
    ensures MapAmadeusToLight(EmbedAll(offers)) == offers
  {
    forall i | 0 <= i < |offers| ensures MapAmadeusToLight(EmbedAll(offers))[i] == offers[i] {
      ShapeEmbedOffer(offers[i]);
    }
  }

  /** Trimming is idempotent: re-shaping an already trimmed response, read
      back as raw offers, changes nothing. */
  lemma ShapeIdempotent(offers: seq<RawOffer>)
    ensures MapAmadeusToLight(EmbedAll(MapAmadeusToLight(offers))) == MapAmadeusToLight(offers)
  {
    ShapeEmbed(MapAmadeusToLight(offers));
  }

  /** `Array.isArray(raw?.data) ? raw.data : []`. */
  function ExtractOffers(d: RawData): (r: seq<RawOffer>)
    ensures d.DataArray? ==> r == d.offers
    ensures !d.DataArray? ==> r == []
  {
    if d.DataArray? then d.offers else []
  }

  // ---------------------------------------------------------------------
  // Validation and the upstream query

  /** The query parameters as `handler` destructures them; `adults` is the
      number `Number(adults)` yields, `None` when it is absent or empty. A
      missing `req.query` is the query with every field `None`. */
  datatype FlightQuery = FlightQuery(
    origin: Option<string>,
    destination: Option<string>,
    depart: Option<string>,
    ret: Option<string>,
    adults: Option<int>,
    cabin: Option<string>)

  /** `!origin || !destination || !depart || !ret`. */
  predicate MissingRequired(q: FlightQuery) {
    !Truthy(q.origin) || !Truthy(q.destination) || !Truthy(q.depart) || !Truthy(q.ret)
  }

  /** `Math.max(1, Number(adults || 1))`. */
  function AdultsCount(adults: Option<int>): (n: nat)
    ensures n >= 1
    ensures adults.Some? && adults.value >= 1 ==> n == adults.value
    ensures adults.None? || adults.value < 1 ==> n == 1
  {
    if adults.Some? && adults.value > 1 then adults.value else 1
  }

  /** `String(cabin || 'ECONOMY')`. */
  function CabinOrDefault(cabin: Option<string>): string {
    if Truthy(cabin) then cabin.value else "ECONOMY"
  }

  /** The search parameters the handler sends upstream. */
  datatype UpstreamQuery = UpstreamQuery(
    originLocationCode: string,
    destinationLocationCode: string,
    departureDate: string,
    returnDate: string,
    adults: string,
    travelClass: string,
    currencyCode: string,
    max: string,
    nonStop: string)

  /** The object literal given to `new URLSearchParams` in `handler`. */
  function BuildQuery(q: FlightQuery): (u: UpstreamQuery)
    requires !MissingRequired(q)
    ensures u.originLocationCode == Upper(q.origin.value)
    ensures u.destinationLocationCode == Upper(q.destination.value)
    ensures u.departureDate == q.depart.value && u.returnDate == q.ret.value
    ensures forall i :: 0 <= i < |u.adults| ==> IsDigit(u.adults[i])
    ensures ParseNat(u.adults) == AdultsCount(q.adults) >= 1
    ensures u.adults == NatToString(AdultsCount(q.adults))
    ensures u.travelClass == Upper(if Truthy(q.cabin) then q.cabin.value else "ECONOMY")
    ensures u.currencyCode == "USD" && u.max == "20" && u.nonStop == "false"
  {
    var n := AdultsCount(q.adults);
    ParseNatToString(n);
    UpstreamQuery(
      Upper(q.origin.value),
      Upper(q.destination.value),
      q.depart.value,
      q.ret.value,
      NatToString(n),
      Upper(CabinOrDefault(q.cabin)),
      "USD",
      "20",
      "false")
  }

  /** The search parameters in the order the object literal lists them. */
  function ToParams(u: UpstreamQuery): seq<(string, string)> {
    [ ("originLocationCode", u.originLocationCode),
      ("destinationLocationCode", u.destinationLocationCode),
      ("departureDate", u.departureDate),
      ("returnDate", u.returnDate),
      ("adults", u.adults),
      ("travelClass", u.travelClass),
      ("currencyCode", u.currencyCode),
      ("max", u.max),
      ("nonStop", u.nonStop) ]
  }

  // ---------------------------------------------------------------------
  // getToken

  /** `AMADEUS_CLIENT_ID` and `AMADEUS_CLIENT_SECRET`. */
  datatype Credentials = Credentials(clientId: Option<string>, clientSecret: Option<string>)

  datatype TokenOutcome = TokenOutcome(result: Result<Option<string>, JsError>, calls: seq<Call>)

  const MissingCredentials: string := "Missing AMADEUS_CLIENT_ID or AMADEUS_CLIENT_SECRET"

  /** `getToken()`: no cache; checks the credentials, then exchanges them. */
  function GetToken(creds: Credentials, reply: Reply<TokenJson>): (t: TokenOutcome)
    // a missing or empty credential fails before any exchange
    ensures !Truthy(creds.clientId) || !Truthy(creds.clientSecret) ==>
              t == TokenOutcome(Failure(JsError("Error", MissingCredentials)), [])
    // otherwise exactly one exchange is made
    ensures Truthy(creds.clientId) && Truthy(creds.clientSecret) ==>
              t.calls == [TokenRequest(creds.clientId, creds.clientSecret)]
    ensures t.calls != [] && !reply.ok ==>
              t.result == Failure(JsError("Error", "Amadeus token error: " + reply.text))
    ensures t.calls != [] && reply.ok && reply.json.Failure? ==>
              t.result == Failure(JsError("SyntaxError", reply.json.error))
    // the token is `access_token` of an accepted, parsed answer, and nothing else
    ensures t.result.Success? <==> t.calls != [] && reply.ok && reply.json.Success?
    ensures t.result.Success? ==> t.result.value == reply.json.value.accessToken
  {
    if !Truthy(creds.clientId) || !Truthy(creds.clientSecret) then
      TokenOutcome(Failure(JsError("Error", MissingCredentials)), [])
    else
      var calls := [TokenRequest(creds.clientId, creds.clientSecret)];
      if !reply.ok then TokenOutcome(Failure(JsError("Error", "Amadeus token error: " + reply.text)), calls)
      else match reply.json
        case Failure(msg) => TokenOutcome(Failure(JsError("SyntaxError", msg)), calls)
        case Success(j) => TokenOutcome(Success(j.accessToken), calls)
  }

  // ---------------------------------------------------------------------
  // handler

  datatype FlightsBody =
    | OffersBody(offers: seq<LightOffer>)
    | ErrorBody(error: string, detail: Option<string>)

  datatype FlightsResponse = FlightsResponse(status: int, body: FlightsBody)

  /** The response sent and every outbound request made, in order. */
  datatype Exchange = Exchange(response: FlightsResponse, calls: seq<Call>)

  const MissingParamsMessage: string := "Missing required query params (origin, destination, depart, ret)"

  /** The `catch` branch: any thrown error becomes a 500. */
  function Failed(e: JsError): FlightsResponse {
    FlightsResponse(500, ErrorBody("Proxy failed", Some(MessageOrString(e))))
  }

  /** `handler(req, res)`. */
  function Handle(q: FlightQuery, creds: Credentials, tokenReply: Reply<TokenJson>, searchReply: Reply<RawData>): (x: Exchange)
    // validation comes first: a missing parameter is a 400 with no outbound call
    ensures MissingRequired(q) ==> x == Exchange(FlightsResponse(400, ErrorBody(MissingParamsMessage, None)), [])
    // a missing credential is a 500 with no outbound call
    ensures !MissingRequired(q) && (!Truthy(creds.clientId) || !Truthy(creds.clientSecret)) ==>
              x == Exchange(Failed(JsError("Error", MissingCredentials)), [])
    // at most a token request, then a search
    ensures |x.calls| <= 2
    ensures |x.calls| >= 1 ==> x.calls[0] == TokenRequest(creds.clientId, creds.clientSecret)
    // the search is sent only after a token was obtained, with that token and the built query
    ensures |x.calls| == 2 <==> !MissingRequired(q) && GetToken(creds, tokenReply).result.Success?
    ensures |x.calls| == 2 ==>
              x.calls[1] == SearchRequest(ToParams(BuildQuery(q)), GetToken(creds, tokenReply).result.value)
    // a failed token request (rejected or unparsable) is caught and answered as a 500
    ensures !MissingRequired(q) && GetToken(creds, tokenReply).result.Failure? ==>
              x.response == Failed(GetToken(creds, tokenReply).result.error) &&
              x.calls == GetToken(creds, tokenReply).calls
    // an accepted search whose answer does not parse is caught and answered as a 500
    ensures |x.calls| == 2 && searchReply.ok && searchReply.json.Failure? ==>
              x.response == Failed(JsError("SyntaxError", searchReply.json.error))
    // a rejected search passes its status and text through
    ensures |x.calls| == 2 && !searchReply.ok ==>
              x.response == FlightsResponse(searchReply.status, ErrorBody("Amadeus API error", Some(searchReply.text)))
    // offers are returned only for an accepted, parsed search, and are its trimmed data
    ensures x.response.body.OffersBody? <==> |x.calls| == 2 && searchReply.ok && searchReply.json.Success?
    ensures x.response.body.OffersBody? ==>
              x.response.status == 200 &&
              x.response.body.offers == MapAmadeusToLight(ExtractOffers(searchReply.json.value))
  {
    if MissingRequired(q) then
      Exchange(FlightsResponse(400, ErrorBody(MissingParamsMessage, None)), [])
    else
      var t := GetToken(creds, tokenReply);
      if t.result.Failure? then Exchange(Failed(t.result.error), t.calls)
      else
        var calls := t.calls + [SearchRequest(ToParams(BuildQuery(q)), t.result.value)];
        if !searchReply.ok then
          Exchange(FlightsResponse(searchReply.status, ErrorBody("Amadeus API error", Some(searchReply.text))), calls)
        else
          match searchReply.json
          case Failure(msg) => Exchange(Failed(JsError("SyntaxError", msg)), calls)
          case Success(raw) =>
            Exchange(FlightsResponse(200, OffersBody(MapAmadeusToLight(ExtractOffers(raw)))), calls)
  }

  // ---------------------------------------------------------------------
  // Worked cases

  /** An answer whose `data` is missing or not an array is a 200 with no
      offers, not an error. */
  lemma NoDataMeansNoOffers(q: FlightQuery, creds: Credentials, tokenReply: Reply<TokenJson>, searchReply: Reply<RawData>)
    requires !MissingRequired(q) && GetToken(creds, tokenReply).result.Success?
    requires searchReply.ok && searchReply.json.Success? && !searchReply.json.value.DataArray?
    ensures Handle(q, creds, tokenReply, searchReply).response == FlightsResponse(200, OffersBody([]))
  {
  }

  /** A grand total wins over a missing total; with neither the price is null. */
  lemma PriceExamples()
    ensures PriceTotal(Some(RawPrice(None, None, Some("412.50")))) == Some("412.50")
    ensures PriceTotal(Some(RawPrice(Some("USD"), None, None))) == None
    ensures PriceTotal(Some(RawPrice(None, Some("399.00"), Some("")))) == Some("399.00")
  {
  }

  /** The round-trip search for JFK to LHR with lower-case input. */
  lemma EndToEndQuery()
    ensures BuildQuery(FlightQuery(Some("jfk"), Some("LHR"), Some("2025-06-01"), Some("2025-06-10"), Some(2), Some("business")))
            == UpstreamQuery("JFK", "LHR", "2025-06-01", "2025-06-10", "2", "BUSINESS", "USD", "20", "false")
  {
    assert Upper("jfk") == "JFK";
    assert Upper("LHR") == "LHR";
    assert Upper("business") == "BUSINESS";
  }

  /** The codes are not checked against the three-letter pattern: a
      five-character destination is forwarded as is. */
  lemma CodesAreNotPatternChecked()
    ensures !MissingRequired(FlightQuery(Some("NYC"), Some("LON12"), Some("2025-05-01"), Some("2025-05-08"), None, None))
    ensures BuildQuery(FlightQuery(Some("NYC"), Some("LON12"), Some("2025-05-01"), Some("2025-05-08"), None, None))
              .destinationLocationCode == "LON12"
  {
    assert Upper("LON12") == "LON12";
  }
}
