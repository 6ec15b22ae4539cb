/** searchflight.py: the per-chat search context, the per-chat result set that button
    indices refer to, the airport-name cache, and the guards of the two searches. */
module SearchFlight {
  import opened Wrappers
  import opened Strings
  import opened Utils
  import opened Flights

  /** `search_details[chat_id]`, recorded by the bot when a request validates. */
  datatype SearchDetails = SearchDetails(
    departureCity: string, arrivalCity: string,
    departureId: string, arrivalId: string,
    departureDate: string, returnDate: Option<string>,
    isOneWay: bool)

  /** A result button: the candidate's position and the callback data it sends back. */
  datatype Button = Button(index: nat, callbackData: string)

  /** What `send_flight_results` ends with. */
  datatype ShowOutcome =
    | NoFlightsFound
    | Shown(buttons: seq<Button>, legend: map<string, string>)
    | ShowFailed   // a candidate without segments raised inside the loop

  /** What `handle_flight_search` ends with. */
  datatype SearchOutcome = MissingSearchDetails | SearchFetchFailed | Displayed(show: ShowOutcome)

  /** What `handle_booking_search` ends with. */
  datatype BookingOutcome = BookingMissingSearchDetails | BookingFetchFailed | BookingLink(url: string) | NoBookingLink

  /** The prefix the source takes as the mark of a departure token. */
  const DEPARTURE_TOKEN_PREFIX := "WyJ"

  /** A token that continues a round trip into its return leg. */
  predicate IsDepartureToken(token: Option<string>) {
    token.Some? && StartsWith(token.value, DEPARTURE_TOKEN_PREFIX)
  }

  /** `f"flight_{i}_depart"` or `f"flight_{i}_return"`. */
  function CallbackData(i: nat, isDeparture: bool): string {
    "flight_" + NatToString(i) + (if isDeparture then "_depart" else "_return")
  }

  function ButtonFor(i: nat, e: Entry): Button {
    Button(i, CallbackData(i, IsDepartureToken(e.token)))
  }

  /** A candidate list as `is_nested_empty` sees it: every entry is a dictionary. */
  function AsPyValues(flights: seq<Entry>): seq<PyValue> {
    seq(|flights|, i => PyScalar)
  }

  /** How many leading candidates have at least one segment: the loop of `send_flight_results`
      raises at the first one that has none. */
  function Showable(flights: seq<Entry>): (n: nat)
    ensures n <= |flights|
    ensures forall i :: 0 <= i < n ==> flights[i].flight.segments != []
    ensures n < |flights| ==> flights[n].flight.segments == []
  {
    if flights == [] || flights[0].flight.segments == [] then 0 else 1 + Showable(flights[1..])
  }

  predicate AllShowable(flights: seq<Entry>) {
    forall i :: 0 <= i < |flights| ==> flights[i].flight.segments != []
  }

  /** First write wins: a code already cached keeps its name. */
  function Remember(cache: map<string, string>, a: Airport): map<string, string> {
    if a.id in cache then cache else cache[a.id := a.name]
  }

  /** The cache after the loop has visited `flights`: each candidate's first departure and
      last arrival airport, in that order. */
  function Remembered(cache: map<string, string>, flights: seq<Entry>): map<string, string>
    requires AllShowable(flights)
  {
    if flights == [] then cache
    else
      var segments := flights[|flights| - 1].flight.segments;
      Remember(Remember(Remembered(cache, flights[..|flights| - 1]), segments[0].departure),
               segments[|segments| - 1].arrival)
  }

  /** The codes the legend may show: first departure and last arrival of each candidate. */
  function Endpoints(flights: seq<Entry>): set<string>
    requires AllShowable(flights)
  {
    if flights == [] then {}
    else
      var segments := flights[|flights| - 1].flight.segments;
      Endpoints(flights[..|flights| - 1]) + {segments[0].departure.id, segments[|segments| - 1].arrival.id}
  }

  /** The cache only grows, never renames a code it holds, and gains exactly the endpoints visited. */
  lemma {:induction false} RememberedFirstWriteWins(cache: map<string, string>, flights: seq<Entry>)
    requires AllShowable(flights)
    ensures Remembered(cache, flights).Keys == cache.Keys + Endpoints(flights)
    ensures forall c :: c in cache ==> Remembered(cache, flights)[c] == cache[c]
  {
    if flights != [] {
      RememberedFirstWriteWins(cache, flights[..|flights| - 1]);
    }
  }

  /** Each cached name comes from an airport of a visited candidate, unless it was cached before. */
  lemma {:induction false} RememberedNamesFromFlights(cache: map<string, string>, flights: seq<Entry>, c: string)
    requires AllShowable(flights)
    requires c in Remembered(cache, flights) && c !in cache
    ensures exists i, a :: 0 <= i < |flights| && a in AirportsOf(flights[i]) && a.id == c
                         && a.name == Remembered(cache, flights)[c]
  {
    var n := |flights|;
    var prefix := flights[..n - 1];
    var before := Remembered(cache, prefix);
    if c in before {
      RememberedNamesFromFlights(cache, prefix, c);
      RememberedFirstWriteWins(before, [flights[n - 1]]);
      var i, a :| 0 <= i < |prefix| && a in AirportsOf(prefix[i]) && a.id == c && a.name == before[c];
      assert prefix[i] == flights[i];
    } else {
      var segments := flights[n - 1].flight.segments;
      var first, last := segments[0].departure, segments[|segments| - 1].arrival;
      assert first in AirportsOf(flights[n - 1]) && last in AirportsOf(flights[n - 1]);
    }
  }

  /** One turn of the display loop: visiting candidate `i` caches its two endpoints and adds
      their codes. */
  lemma VisitStep(cache: map<string, string>, flights: seq<Entry>, i: nat)
    requires i < |flights| && flights[i].flight.segments != [] && AllShowable(flights[..i])
    ensures AllShowable(flights[..i + 1])
    ensures var segments := flights[i].flight.segments;
      && Remembered(cache, flights[..i + 1])
         == Remember(Remember(Remembered(cache, flights[..i]), segments[0].departure), segments[|segments| - 1].arrival)
      && Endpoints(flights[..i + 1])
         == Endpoints(flights[..i]) + {segments[0].departure.id, segments[|segments| - 1].arrival.id}
  {
    assert flights[..i + 1][..i] == flights[..i];
  }

  /** What `send_flight_results` shows for a candidate list, `cache` being the airport names
      after it: "no flights" exactly for the empty list; a failed display exactly when some
      candidate has no segments; otherwise button i classifies candidate i, and the legend
      lists exactly the endpoint codes with their cached names. */
  predicate Presented(show: ShowOutcome, flights: seq<Entry>, cache: map<string, string>) {
    && (show.NoFlightsFound? <==> flights == [])
    && (show.ShowFailed? <==> flights != [] && !AllShowable(flights))
    && (show.Shown? ==>
          && AllShowable(flights)
          && |show.buttons| == |flights|
          && (forall i :: 0 <= i < |flights| ==> show.buttons[i] == ButtonFor(i, flights[i]))
          && show.legend.Keys == Endpoints(flights)
          && (forall c :: c in show.legend ==> c in cache && show.legend[c] == cache[c]))
  }

  /** The airport cache after a search whose answer was `answer`: a failed fetch leaves it,
      an answer caches the endpoints of the candidates the display loop reaches. */
  function CacheAfter(cache: map<string, string>, answer: Option<Response>, isOneWay: bool): map<string, string> {
    if answer.None? then cache
    else
      var flights := Candidates(answer.value, isOneWay);
      Remembered(cache, flights[..Showable(flights)])
  }

  /** Across a whole search the cache only grows and never renames a code it holds. */
  lemma CacheAfterFirstWriteWins(cache: map<string, string>, answer: Option<Response>, isOneWay: bool)
    ensures cache.Keys <= CacheAfter(cache, answer, isOneWay).Keys
    ensures forall c :: c in cache ==> CacheAfter(cache, answer, isOneWay)[c] == cache[c]
  {
    if answer.Some? {
      var flights := Candidates(answer.value, isOneWay);
      RememberedFirstWriteWins(cache, flights[..Showable(flights)]);
    }
  }

  /** How `handle_flight_search` reports a fetch: a failure exactly when the provider raised,
      otherwise the display of the answer's candidates. */
  predicate Reported(outcome: SearchOutcome, answer: Option<Response>, isOneWay: bool, cache: map<string, string>) {
    && (outcome.SearchFetchFailed? <==> answer.None?)
    && (answer.Some? ==> outcome.Displayed? && Presented(outcome.show, Candidates(answer.value, isOneWay), cache))
  }

  /** The two airports `send_flight_results` caches for a candidate. */
  function AirportsOf(e: Entry): set<Airport>
    requires e.flight.segments != []
  {
    var segments := e.flight.segments;
    {segments[0].departure, segments[|segments| - 1].arrival}
  }

  /** The three module-level dictionaries of searchflight.py. */
  class FlightSearch {
    var airportCodes: map<string, string>
    var flightResults: map<ChatId, seq<Entry>>
    var searchDetails: map<ChatId, SearchDetails>

    constructor ()
      ensures airportCodes == map[] && flightResults == map[] && searchDetails == map[]
    {
      airportCodes, flightResults, searchDetails := map[], map[], map[];
    }

    /** `get_airport_name_from_flight`: caches the segment's airport under its code unless the
        code is cached already, and answers the cached name. */
    method AirportName(segment: Segment, isDeparture: bool) returns (name: string)
      modifies this`airportCodes
      ensures var a := if isDeparture then segment.departure else segment.arrival;
        && airportCodes == Remember(old(airportCodes), a)
        && name == airportCodes[a.id]
        && (a.id in old(airportCodes) ==> name == old(airportCodes)[a.id])
    {
      var a := if isDeparture then segment.departure else segment.arrival;
      if a.id !in airportCodes {
        airportCodes := airportCodes[a.id := a.name];
      }
      name := airportCodes[a.id];
    }

    /** `send_flight_results`: a non-empty candidate list becomes the chat's result set, and
        button i carries index i and the kind of candidate i's token; an empty list leaves the
        previous result set in place. */
    method SendFlightResults(chat: ChatId, flights: seq<Entry>) returns (outcome: ShowOutcome)
      modifies this`flightResults, this`airportCodes
      ensures flightResults == if flights == [] then old(flightResults) else old(flightResults)[chat := flights]
      ensures airportCodes == Remembered(old(airportCodes), flights[..Showable(flights)])
      ensures Presented(outcome, flights, airportCodes)
    {
      NestedEmptyOfRecords(AsPyValues(flights));
      if IsNestedEmpty(AsPyValues(flights)) {
        return NoFlightsFound;
      }
      flightResults := flightResults[chat := flights];
      outcome := ShowResults(flights);
    }

    /** The display loop of `send_flight_results` over the chat's new result set: caches the
        endpoint airports of each candidate, makes its button, and gathers the legend; a
        candidate without segments raises and ends the display. */
    method ShowResults(flights: seq<Entry>) returns (outcome: ShowOutcome)
      requires flights != []
      modifies this`airportCodes
      ensures airportCodes == Remembered(old(airportCodes), flights[..Showable(flights)])
      ensures outcome.ShowFailed? <==> !AllShowable(flights)
      ensures outcome.Shown? || outcome.ShowFailed?
      ensures outcome.Shown? ==>
        && AllShowable(flights)
        && |outcome.buttons| == |flights|
        && (forall i :: 0 <= i < |flights| ==> outcome.buttons[i] == ButtonFor(i, flights[i]))
        && outcome.legend.Keys == Endpoints(flights)
        && (forall c :: c in outcome.legend ==> c in airportCodes && outcome.legend[c] == airportCodes[c])
    {
      var buttons: seq<Button> := [];
      var mainAirports: set<string> := {};
      var i := 0;
      while i < |flights|
        invariant i <= Showable(flights)
        invariant AllShowable(flights[..i])
        invariant airportCodes == Remembered(old(airportCodes), flights[..i])
        invariant mainAirports == Endpoints(flights[..i])
        invariant |buttons| == i
        invariant forall k :: 0 <= k < i ==> buttons[k] == ButtonFor(k, flights[k])
      {
        var segments := flights[i].flight.segments;
        if segments == [] {
          assert i == Showable(flights);
          return ShowFailed;
        }
        VisitStep(old(airportCodes), flights, i);
        var departureName := AirportName(segments[0], true);
        var arrivalName := AirportName(segments[|segments| - 1], false);
        mainAirports := mainAirports + {segments[0].departure.id, segments[|segments| - 1].arrival.id};
        buttons := buttons + [ButtonFor(i, flights[i])];
        i := i + 1;
      }
      assert flights[..i] == flights;
      assert i == Showable(flights);
      RememberedFirstWriteWins(old(airportCodes), flights);
      assert mainAirports <= airportCodes.Keys;
      var legend := map c | c in airportCodes && c in mainAirports :: airportCodes[c];
      return Shown(buttons, legend);
    }

    /** `handle_flight_search`: no provider call without a recorded search context; otherwise
        the query uses the recorded trip kind, and a non-empty answer replaces the result set. */
    method HandleFlightSearch(chat: ChatId, departureId: string, arrivalId: string, departureDate: string,
                              returnDate: Option<string>, departureToken: Option<string>,
                              lang: string, apiKey: string, provider: Provider)
      returns (outcome: SearchOutcome)
      modifies this`flightResults, this`airportCodes
      ensures outcome.MissingSearchDetails? <==> chat !in searchDetails
      ensures chat !in searchDetails ==> flightResults == old(flightResults) && airportCodes == old(airportCodes)
      ensures chat in searchDetails ==>
        var isOneWay := searchDetails[chat].isOneWay;
        var answer := provider(SearchParams(departureId, arrivalId, departureDate, returnDate,
                                            departureToken, isOneWay, lang, apiKey));
        && Reported(outcome, answer, isOneWay, airportCodes)
        && flightResults == ResultsAfter(old(flightResults), chat, answer, isOneWay)
        && airportCodes == CacheAfter(old(airportCodes), answer, isOneWay)
    {
      if chat !in searchDetails {
        return MissingSearchDetails;
      }
      var isOneWay := searchDetails[chat].isOneWay;
      var flights := ReturnFlights(departureId, arrivalId, departureDate, returnDate, departureToken,
                                   isOneWay, lang, apiKey, provider);
      if flights.None? {
        return SearchFetchFailed;
      }
      var show := SendFlightResults(chat, flights.value);
      return Displayed(show);
    }

    /** `handle_booking_search`: no provider call without a recorded search context; otherwise
        the booking-token query is built from the recorded codes and dates, and a link is
        offered only when the answer names a page. */
    method HandleBookingSearch(chat: ChatId, bookingToken: string, isOneWay: bool,
                               apiKey: string, booking: BookingProvider)
      returns (outcome: BookingOutcome)
      ensures chat !in searchDetails <==> outcome.BookingMissingSearchDetails?
      ensures chat in searchDetails ==>
        var d := searchDetails[chat];
        var answer := booking(BookingParams(d.departureId, d.arrivalId, d.departureDate, d.returnDate,
                                            bookingToken, isOneWay, apiKey));
        && (outcome.BookingFetchFailed? <==> answer.None?)
        && (outcome.BookingLink? <==> answer.Some? && Truthy(answer.value.prettifyHtmlFile))
        && (outcome.BookingLink? ==> outcome.url == answer.value.prettifyHtmlFile.value)
    {
      if chat !in searchDetails {
        return BookingMissingSearchDetails;
      }
      var d := searchDetails[chat];
      var answer := booking(BookingParams(d.departureId, d.arrivalId, d.departureDate, d.returnDate,
                                          bookingToken, isOneWay, apiKey));
      if answer.None? {
        return BookingFetchFailed;
      }
      if Truthy(answer.value.prettifyHtmlFile) {
        return BookingLink(answer.value.prettifyHtmlFile.value);
      }
      return NoBookingLink;
    }
  }

  /** The result sets after a search whose answer was `answer`: a non-empty candidate list
      replaces the chat's entry, anything else leaves every entry as it was. */
  function ResultsAfter(results: map<ChatId, seq<Entry>>, chat: ChatId, answer: Option<Response>,
                        isOneWay: bool): (after: map<ChatId, seq<Entry>>)
    ensures forall c :: c != chat ==> (c in after <==> c in results)
    ensures forall c :: c != chat && c in results ==> after[c] == results[c]
    ensures answer.Some? && Candidates(answer.value, isOneWay) != [] ==>
      chat in after && after[chat] == Candidates(answer.value, isOneWay)
    ensures answer.None? || Candidates(answer.value, isOneWay) == [] ==>
      (chat in after <==> chat in results) && (chat in results ==> after[chat] == results[chat])
  {
    if answer.Some? && Candidates(answer.value, isOneWay) != [] then results[chat := Candidates(answer.value, isOneWay)]
    else results
  }
}
