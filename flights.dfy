/** flights.py: the query sent to the flight-search provider and the flattening of
    its answer into the ordered candidate list the bot numbers and displays. */
module Flights {
  import opened Wrappers

  /** One end of a flight segment as the provider reports it. */
  datatype Airport = Airport(id: string, name: string, time: string)

  datatype Segment = Segment(departure: Airport, arrival: Airport)

  /** One flight of the provider's answer: its segments and the continuation tokens it may carry. */
  datatype Flight = Flight(segments: seq<Segment>, departureToken: Option<string>, bookingToken: Option<string>)

  /** The provider's answer: both lists may be absent. */
  datatype Response = Response(bestFlights: Option<seq<Flight>>, otherFlights: Option<seq<Flight>>)

  /** The answer to a booking-token query; only `search_metadata.prettify_html_file` is used. */
  datatype BookingResult = BookingResult(prettifyHtmlFile: Option<string>)

  /** `{'flight': flight, 'token': ...}`: a candidate and the token chosen for it. */
  datatype Entry = Entry(flight: Flight, token: Option<string>)

  /** The query dictionary handed to the provider's client. */
  type Params = map<string, string>

  /** The provider's client: None stands for an exception raised while fetching. */
  type Provider = Params -> Option<Response>

  type BookingProvider = Params -> Option<BookingResult>

  /** Python truthiness of an optional string: present and not empty. */
  predicate Truthy(o: Option<string>) {
    o.Some? && o.value != ""
  }

  /** The provider's `type`: "2" for one-way, "1" for a round trip. */
  function TripType(isOneWay: bool): string {
    if isOneWay then "2" else "1"
  }

  /** The keys every query carries. */
  predicate HasCommonKeys(p: Params, isOneWay: bool, hl: string, departureId: string, arrivalId: string,
                          departureDate: string, apiKey: string)
  {
    && "engine" in p && p["engine"] == "google_flights"
    && "type" in p && p["type"] == TripType(isOneWay)
    && "hl" in p && p["hl"] == hl
    && "gl" in p && p["gl"] == "il"
    && "currency" in p && p["currency"] == "USD"
    && "departure_id" in p && p["departure_id"] == departureId
    && "arrival_id" in p && p["arrival_id"] == arrivalId
    && "outbound_date" in p && p["outbound_date"] == departureDate
    && "api_key" in p && p["api_key"] == apiKey
  }

  /** The names of the common keys. */
  const COMMON_KEYS: set<string> :=
    {"engine", "type", "hl", "gl", "currency", "departure_id", "arrival_id", "outbound_date", "api_key"}

  function CommonKeys(isOneWay: bool, hl: string, departureId: string, arrivalId: string,
                      departureDate: string, apiKey: string): (p: Params)
    ensures HasCommonKeys(p, isOneWay, hl, departureId, arrivalId, departureDate, apiKey)
    ensures p.Keys == COMMON_KEYS
  {
    map["engine" := "google_flights", "type" := TripType(isOneWay), "hl" := hl, "gl" := "il",
        "currency" := "USD", "departure_id" := departureId, "arrival_id" := arrivalId,
        "outbound_date" := departureDate, "api_key" := apiKey]
  }

  /** Adding a key that is not a common key keeps the common keys. */
  lemma KeepsCommonKeys(p: Params, k: string, v: string, isOneWay: bool, hl: string, departureId: string,
                        arrivalId: string, departureDate: string, apiKey: string)
    requires k !in COMMON_KEYS
    requires HasCommonKeys(p, isOneWay, hl, departureId, arrivalId, departureDate, apiKey)
    ensures HasCommonKeys(p[k := v], isOneWay, hl, departureId, arrivalId, departureDate, apiKey)
  {
  }

  /** The query `return_flights` sends: the common keys with the chat's language (the
      source writes the language as a one-element set, which the HTTP layer sends as its
      element), `return_date` only for a round trip that has one, `departure_token` only
      when one is given. */
  function SearchParams(departureId: string, arrivalId: string, departureDate: string,
                        returnDate: Option<string>, departureToken: Option<string>,
                        isOneWay: bool, lang: string, apiKey: string): Params
  {
    var common := CommonKeys(isOneWay, lang, departureId, arrivalId, departureDate, apiKey);
    var withReturn := if !isOneWay && Truthy(returnDate) then common["return_date" := returnDate.value] else common;
    if Truthy(departureToken) then withReturn["departure_token" := departureToken.value] else withReturn
  }

  /** What the search query holds: the common keys, `return_date` exactly for a round trip
      with a non-empty return date, `departure_token` exactly for a non-empty token, and no
      other key. */
  lemma SearchParamsKeys(departureId: string, arrivalId: string, departureDate: string,
                         returnDate: Option<string>, departureToken: Option<string>,
                         isOneWay: bool, lang: string, apiKey: string)
    ensures var p := SearchParams(departureId, arrivalId, departureDate, returnDate, departureToken,
                                  isOneWay, lang, apiKey);
      && HasCommonKeys(p, isOneWay, lang, departureId, arrivalId, departureDate, apiKey)
      && ("return_date" in p <==> !isOneWay && Truthy(returnDate))
      && ("return_date" in p ==> p["return_date"] == returnDate.value)
      && ("departure_token" in p <==> Truthy(departureToken))
      && ("departure_token" in p ==> p["departure_token"] == departureToken.value)
      && p.Keys <= COMMON_KEYS + {"return_date", "departure_token"}
  {
    var common := CommonKeys(isOneWay, lang, departureId, arrivalId, departureDate, apiKey);
    var withReturn := if !isOneWay && Truthy(returnDate) then common["return_date" := returnDate.value] else common;
    assert "return_date" !in COMMON_KEYS && "departure_token" !in COMMON_KEYS;
    if !isOneWay && Truthy(returnDate) {
      KeepsCommonKeys(common, "return_date", returnDate.value, isOneWay, lang, departureId, arrivalId, departureDate, apiKey);
    }
    assert "departure_token" !in withReturn;
    if Truthy(departureToken) {
      KeepsCommonKeys(withReturn, "departure_token", departureToken.value, isOneWay, lang, departureId, arrivalId,
                      departureDate, apiKey);
    }
  }

  /** The query `get_flight_with_booking_token` sends: the common keys in English and the
      booking token, plus `return_date` for a round trip that has one. */
  function BookingParams(departureId: string, arrivalId: string, departureDate: string,
                         returnDate: Option<string>, bookingToken: string, isOneWay: bool,
                         apiKey: string): Params
  {
    var common := CommonKeys(isOneWay, "en", departureId, arrivalId, departureDate, apiKey)["booking_token" := bookingToken];
    if !isOneWay && Truthy(returnDate) then common["return_date" := returnDate.value] else common
  }

  /** What the booking query holds: the common keys in English, the booking token,
      `return_date` exactly for a round trip with a non-empty return date, and no other key. */
  lemma BookingParamsKeys(departureId: string, arrivalId: string, departureDate: string,
                          returnDate: Option<string>, bookingToken: string, isOneWay: bool, apiKey: string)
    ensures var p := BookingParams(departureId, arrivalId, departureDate, returnDate, bookingToken, isOneWay, apiKey);
      && HasCommonKeys(p, isOneWay, "en", departureId, arrivalId, departureDate, apiKey)
      && "booking_token" in p && p["booking_token"] == bookingToken
      && ("return_date" in p <==> !isOneWay && Truthy(returnDate))
      && ("return_date" in p ==> p["return_date"] == returnDate.value)
      && p.Keys <= COMMON_KEYS + {"booking_token", "return_date"}
  {
    var base := CommonKeys(isOneWay, "en", departureId, arrivalId, departureDate, apiKey);
    var common := base["booking_token" := bookingToken];
    assert "booking_token" !in COMMON_KEYS && "return_date" !in COMMON_KEYS;
    KeepsCommonKeys(base, "booking_token", bookingToken, isOneWay, "en", departureId, arrivalId, departureDate, apiKey);
    assert "return_date" !in common;
    if !isOneWay && Truthy(returnDate) {
      KeepsCommonKeys(common, "return_date", returnDate.value, isOneWay, "en", departureId, arrivalId, departureDate, apiKey);
    }
  }

  /** The token kept with a candidate: its departure token on a round trip, its booking token one-way. */
  function TokenOf(f: Flight, isOneWay: bool): Option<string> {
    if isOneWay then f.bookingToken else f.departureToken
  }

  /** `result.get(key, [])`. */
  function Listed(o: Option<seq<Flight>>): seq<Flight> {
    if o.Some? then o.value else []
  }

  function EntriesOf(fs: seq<Flight>, isOneWay: bool): seq<Entry> {
    seq(|fs|, i requires 0 <= i < |fs| => Entry(fs[i], TokenOf(fs[i], isOneWay)))
  }

  /** The candidate list of an answer: the best flights, then the other flights. */
  function Candidates(result: Response, isOneWay: bool): seq<Entry> {
    EntriesOf(Listed(result.bestFlights), isOneWay) + EntriesOf(Listed(result.otherFlights), isOneWay)
  }

  /** The candidate list holds every best flight in order, then every other flight in order,
      each with the token its trip kind selects. */
  lemma CandidatesLayout(result: Response, isOneWay: bool)
    ensures var best, other := Listed(result.bestFlights), Listed(result.otherFlights);
      && |Candidates(result, isOneWay)| == |best| + |other|
      && (forall i :: 0 <= i < |best| ==>
            Candidates(result, isOneWay)[i] == Entry(best[i], TokenOf(best[i], isOneWay)))
      && (forall j :: 0 <= j < |other| ==>
            Candidates(result, isOneWay)[|best| + j] == Entry(other[j], TokenOf(other[j], isOneWay)))
  {
  }

  /** The two `for ... append` loops of `return_flights`. */
  method Flatten(result: Response, isOneWay: bool) returns (flights: seq<Entry>)
    ensures flights == Candidates(result, isOneWay)
  {
    var best, other := Listed(result.bestFlights), Listed(result.otherFlights);
    flights := [];
    for i := 0 to |best|
      invariant |flights| == i
      invariant forall k :: 0 <= k < i ==> flights[k] == Entry(best[k], TokenOf(best[k], isOneWay))
    {
      flights := flights + [Entry(best[i], TokenOf(best[i], isOneWay))];
    }
    for j := 0 to |other|
      invariant |flights| == |best| + j
      invariant forall k :: 0 <= k < |best| ==> flights[k] == Entry(best[k], TokenOf(best[k], isOneWay))
      invariant forall k :: 0 <= k < j ==> flights[|best| + k] == Entry(other[k], TokenOf(other[k], isOneWay))
    {
      flights := flights + [Entry(other[j], TokenOf(other[j], isOneWay))];
    }
    CandidatesLayout(result, isOneWay);
    assert forall k :: |best| <= k < |flights| ==> flights[k] == Entry(other[k - |best|], TokenOf(other[k - |best|], isOneWay));
  }

  /** `return_flights(...)`: the candidate list of the provider's answer to the query, or
      None when fetching raised. */
  method ReturnFlights(departureId: string, arrivalId: string, departureDate: string,
                       returnDate: Option<string>, departureToken: Option<string>,
                       isOneWay: bool, lang: string, apiKey: string, provider: Provider)
    returns (flights: Option<seq<Entry>>)
    ensures var answer := provider(SearchParams(departureId, arrivalId, departureDate, returnDate,
                                                departureToken, isOneWay, lang, apiKey));
      && (answer.None? ==> flights.None?)
      && (answer.Some? ==> flights == Some(Candidates(answer.value, isOneWay)))
  {
    var params := SearchParams(departureId, arrivalId, departureDate, returnDate, departureToken,
                               isOneWay, lang, apiKey);
    var answer := provider(params);
    if answer.None? {
      return None;
    }
    var entries := Flatten(answer.value, isOneWay);
    return Some(entries);
  }
}
