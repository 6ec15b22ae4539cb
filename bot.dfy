/** bot.py: the flight-details dialogue (`user_state`), the validation of a trip request
    and the recording of its search context, the routing of a pressed result button,
    the dispatch of button presses and of text messages, and the language buttons. */
module Bot {
  import opened Wrappers
  import opened Strings
  import opened Utils
  import opened Flights
  import opened SearchFlight
  import opened Database
  import opened Checklist

  /** `user_state[chat_id]`: None (here also for a chat never seen, read through `.get`) or
      'waiting_for_flight_details'. */
  datatype FlightState = NoFlightState | WaitingForFlightDetails

  function FlightStateIn(states: map<ChatId, FlightState>, chat: ChatId): (s: FlightState)
    ensures chat in states ==> s == states[chat]
    ensures chat !in states ==> s == NoFlightState
  {
    if chat in states then states[chat] else NoFlightState
  }

  /** A naive date and time as the date parser and the clock answer it, down to the
      microsecond as Python's `datetime` carries it. */
  datatype DateTime = DateTime(year: nat, month: nat, day: nat, secondOfDay: nat, microsecond: nat)

  /** `a < b` on date-times: chronological, field by field. */
  predicate Before(a: DateTime, b: DateTime) {
    || a.year < b.year
    || (a.year == b.year && a.month < b.month)
    || (a.year == b.year && a.month == b.month && a.day < b.day)
    || (a.year == b.year && a.month == b.month && a.day == b.day && a.secondOfDay < b.secondOfDay)
    || (a.year == b.year && a.month == b.month && a.day == b.day && a.secondOfDay == b.secondOfDay
        && a.microsecond < b.microsecond)
  }

  /** `Before` is a strict total order. */
  lemma BeforeStrictTotal(a: DateTime, b: DateTime, c: DateTime)
    ensures !Before(a, a)
    ensures Before(a, b) && Before(b, c) ==> Before(a, c)
    ensures a == b || Before(a, b) || Before(b, a)
  {
  }

  /** Re-parsing the `%Y-%m-%d` text of a date gives that date at midnight. */
  function Midnight(d: DateTime): (m: DateTime)
    ensures m.year == d.year && m.month == d.month && m.day == d.day
    ensures !Before(d, m)
    ensures Before(m, d) <==> d.secondOfDay > 0 || d.microsecond > 0
  {
    d.(secondOfDay := 0, microsecond := 0)
  }

  /** `d.strftime('%Y-%m-%d')`. */
  function IsoDate(d: DateTime): (s: string)
    ensures |s| >= 10
  {
    ZeroPad(NatToString(d.year), 4) + "-" + ZeroPad(NatToString(d.month), 2) + "-" + ZeroPad(NatToString(d.day), 2)
  }

  /** `dateutil.parser.parse(text, dayfirst=True)`; None stands for the ValueError. */
  type DateParser = string -> Option<DateTime>

  /** `get_airports(city)`: the airport codes as text, "NO_RESULT", or "" when the lookup failed. */
  type AirportResolver = string -> string

  const NO_RESULT := "NO_RESULT"

  /** `[detail.strip() for detail in text.split(",")]`. */
  function Fields(text: string): (fields: seq<string>)
    ensures |fields| == |Split(text, ',')|
  {
    var parts := Split(text, ',');
    seq(|parts|, i requires 0 <= i < |parts| => Strip(parts[i]))
  }

  /** There is one field more than the text has commas. */
  lemma FieldCount(text: string)
    ensures |Fields(text)| == multiset(text)[','] + 1
  {
    SplitCount(text, ',');
  }

  /** Writing comma-free parts joined by commas gives back the parts, stripped. */
  lemma {:induction false} FieldsOfJoined(parts: seq<string>)
    requires |parts| >= 1
    requires forall i :: 0 <= i < |parts| ==> ',' !in parts[i]
    ensures Fields(Join(parts, ',')) == seq(|parts|, i requires 0 <= i < |parts| => Strip(parts[i]))
  {
    SplitJoin(parts);
  }

  /** Splitting text joined from separator-free parts gives back the parts. */
  lemma {:induction false} SplitJoin(parts: seq<string>)
    requires |parts| >= 1
    requires forall i :: 0 <= i < |parts| ==> ',' !in parts[i]
    ensures Split(Join(parts, ','), ',') == parts
  {
    if |parts| == 1 {
      SplitWithout(parts[0], ',');
    } else {
      SplitJoin(parts[1..]);
      SplitAfterPrefix(parts[0], ',', Join(parts[1..], ','));
      assert [parts[0]] + parts[1..] == parts;
    }
  }

  /** Why a trip request was refused; each is a different warning. */
  datatype InputError =
    | WrongFieldCount          // provide_all_details_warning
    | BadDateFormat            // correct_format_warning
    | ReturnBeforeDeparture    // arrival_date_warning
    | DepartureInPast          // departure_date_warning
    | AirportNotFound(city: string)

  /** The checks of `handle_message`, in their order, over the request text: 3 or 4 fields;
      both dates parse; the return day (re-parsed at midnight) is not before the departure;
      the departure is not before now; neither city resolves to "NO_RESULT". On success,
      the search context to record. */
  function ValidateFlightDetails(text: string, parseDate: DateParser, resolve: AirportResolver, now: DateTime)
    : (r: Result<SearchDetails, InputError>)
    ensures r.Ok? ==> (r.value.isOneWay <==> r.value.returnDate.None?)
  {
    var f := Fields(text);
    if |f| != 3 && |f| != 4 then Err(WrongFieldCount)
    else
      var departure := parseDate(f[2]);
      var ret := if |f| == 4 then parseDate(f[3]) else None;
      if departure.None? || (|f| == 4 && ret.None?) then Err(BadDateFormat)
      else if ret.Some? && Before(Midnight(ret.value), departure.value) then Err(ReturnBeforeDeparture)
      else if Before(departure.value, now) then Err(DepartureInPast)
      else
        var departureId, arrivalId := resolve(f[0]), resolve(f[1]);
        if departureId == NO_RESULT || arrivalId == NO_RESULT then
          Err(AirportNotFound(if departureId == NO_RESULT then f[0] else f[1]))
        else
          Ok(SearchDetails(f[0], f[1], departureId, arrivalId, IsoDate(departure.value),
                           if ret.Some? then Some(IsoDate(ret.value)) else None, |f| == 3))
  }

  /** What each outcome of the validation means: each check refuses exactly when the checks
      before it passed and it fails, in the order the checks run, and an accepted request
      passed them all and records its search context. */
  lemma ValidationOutcomes(text: string, parseDate: DateParser, resolve: AirportResolver, now: DateTime)
    ensures var f, r := Fields(text), ValidateFlightDetails(text, parseDate, resolve, now);
      var counted := |f| == 3 || |f| == 4;
      var parsed := counted && parseDate(f[2]).Some? && (|f| == 4 ==> parseDate(f[3]).Some?);
      var ordered := parsed && (|f| == 4 ==> !Before(Midnight(parseDate(f[3]).value), parseDate(f[2]).value));
      var current := ordered && !Before(parseDate(f[2]).value, now);
      var known := current && resolve(f[0]) != NO_RESULT && resolve(f[1]) != NO_RESULT;
      && (r == Err(WrongFieldCount) <==> !counted)
      && (r == Err(BadDateFormat) <==> counted && !parsed)
      && (r == Err(ReturnBeforeDeparture) <==> parsed && !ordered)
      && (r == Err(DepartureInPast) <==> ordered && !current)
      && (r.Err? && r.error.AirportNotFound? <==> current && !known)
      && (current && !known ==> r == Err(AirportNotFound(if resolve(f[0]) == NO_RESULT then f[0] else f[1])))
      && (r.Ok? <==> known)
      && (r.Ok? ==>
            && r.value.departureCity == f[0] && r.value.arrivalCity == f[1]
            && r.value.departureId == resolve(f[0]) && r.value.arrivalId == resolve(f[1])
            && r.value.departureDate == IsoDate(parseDate(f[2]).value)
            && (r.value.isOneWay <==> |f| == 3)
            && (r.value.returnDate.None? <==> |f| == 3)
            && (|f| == 4 ==> r.value.returnDate == Some(IsoDate(parseDate(f[3]).value))))
  {
    var f, r := Fields(text), ValidateFlightDetails(text, parseDate, resolve, now);
    if |f| == 3 || |f| == 4 {
      var departure := parseDate(f[2]);
      var ret := if |f| == 4 then parseDate(f[3]) else None;
      if departure.Some? && (|f| == 3 || ret.Some?) {
        if ret.Some? && Before(Midnight(ret.value), departure.value) {
          assert r == Err(ReturnBeforeDeparture);
        } else if Before(departure.value, now) {
          assert r == Err(DepartureInPast);
        } else if resolve(f[0]) == NO_RESULT || resolve(f[1]) == NO_RESULT {
          assert r == Err(AirportNotFound(if resolve(f[0]) == NO_RESULT then f[0] else f[1]));
        } else {
          assert r.Ok?;
        }
      } else {
        assert r == Err(BadDateFormat);
      }
    } else {
      assert r == Err(WrongFieldCount);
    }
  }

  /** A return on the departure day is accepted when the departure is at midnight (the
      usual case: a date without a time). */
  lemma SameDayReturnAccepted(text: string, parseDate: DateParser, resolve: AirportResolver, now: DateTime)
    requires |Fields(text)| == 4
    requires parseDate(Fields(text)[2]).Some? && parseDate(Fields(text)[3]).Some?
    requires Midnight(parseDate(Fields(text)[3]).value) == parseDate(Fields(text)[2]).value
    ensures ValidateFlightDetails(text, parseDate, resolve, now) != Err(ReturnBeforeDeparture)
  {
    BeforeStrictTotal(parseDate(Fields(text)[2]).value, parseDate(Fields(text)[2]).value, now);
  }

  /** Because the return date is re-read at midnight, a departure later in the day than
      midnight with a return on the same day is refused as a return before departure. */
  lemma SameDayReturnAfterTimedDepartureRefused(text: string, parseDate: DateParser, resolve: AirportResolver, now: DateTime)
    requires |Fields(text)| == 4
    requires parseDate(Fields(text)[2]).Some? && parseDate(Fields(text)[3]).Some?
    requires var d, r := parseDate(Fields(text)[2]).value, parseDate(Fields(text)[3]).value;
      d.year == r.year && d.month == r.month && d.day == r.day && (d.secondOfDay > 0 || d.microsecond > 0)
    ensures ValidateFlightDetails(text, parseDate, resolve, now) == Err(ReturnBeforeDeparture)
  {
  }

  /** A failed airport lookup answers "", which is not the sentinel, so it is recorded as an
      airport code. */
  lemma EmptyAirportCodeRecorded(text: string, parseDate: DateParser, resolve: AirportResolver, now: DateTime)
    requires |Fields(text)| == 3
    requires parseDate(Fields(text)[2]).Some? && !Before(parseDate(Fields(text)[2]).value, now)
    requires resolve(Fields(text)[0]) == "" && resolve(Fields(text)[1]) == ""
    ensures var r := ValidateFlightDetails(text, parseDate, resolve, now);
      r.Ok? && r.value.departureId == "" && r.value.arrivalId == ""
  {
  }

  /** A one-way request written `departure, arrival, date` is read field by field. */
  lemma OneWayRequest(departureCity: string, arrivalCity: string, date: string,
                      parseDate: DateParser, resolve: AirportResolver, now: DateTime)
    requires ',' !in departureCity && ',' !in arrivalCity && ',' !in date
    requires parseDate(Strip(date)).Some? && !Before(parseDate(Strip(date)).value, now)
    requires resolve(Strip(departureCity)) != NO_RESULT && resolve(Strip(arrivalCity)) != NO_RESULT
    ensures ValidateFlightDetails(Join([departureCity, arrivalCity, date], ','), parseDate, resolve, now)
         == Ok(SearchDetails(Strip(departureCity), Strip(arrivalCity),
                             resolve(Strip(departureCity)), resolve(Strip(arrivalCity)),
                             IsoDate(parseDate(Strip(date)).value), None, true))
  {
    var parts := [departureCity, arrivalCity, date];
    var text := Join(parts, ',');
    FieldsOfJoined(parts);
    var f := Fields(text);
    assert |f| == 3 && f[0] == Strip(departureCity) && f[1] == Strip(arrivalCity) && f[2] == Strip(date);
    ValidationOutcomes(text, parseDate, resolve, now);
  }

  /** The candidate a pressed result button designates, with the search context it is read
      against and the kind its callback names. */
  datatype Selection = Selection(flight: Flight, details: SearchDetails, searchType: string)

  /** Python's `xs[i]` on a list of length `len`: a negative index counts from the end. */
  function PyIndex(len: nat, i: int): (k: Option<nat>)
    ensures k.Some? <==> -(len as int) <= i < len
    ensures k.Some? ==> k.value < len && (i >= 0 ==> k.value == i) && (i < 0 ==> k.value == len + i)
  {
    if 0 <= i < len then Some(i) else if -(len as int) <= i < 0 then Some(len + i) else None
  }

  /** The lookups of `handle_flight_selection` before it routes: None stands for any of the
      exceptions that end in the `unexpected_error` message (no index field or no kind field,
      an index that is not a number or out of range, no result set or no search context
      for the chat, a candidate without segments, whose details cannot be formatted). */
  function ResolveSelection(results: map<ChatId, seq<Entry>>, details: map<ChatId, SearchDetails>,
                            chat: ChatId, data: string): (r: Option<Selection>)
    ensures r.Some? <==>
      var parts := Split(data, '_');
      && |parts| >= 3 && ParseInt(parts[1]).Some?
      && chat in results && PyIndex(|results[chat]|, ParseInt(parts[1]).value).Some?
      && chat in details
      && results[chat][PyIndex(|results[chat]|, ParseInt(parts[1]).value).value].flight.segments != []
    ensures r.Some? ==>
      var parts := Split(data, '_');
      && r.value.flight == results[chat][PyIndex(|results[chat]|, ParseInt(parts[1]).value).value].flight
      && r.value.details == details[chat]
      && r.value.searchType == parts[2]
  {
    var parts := Split(data, '_');
    if |parts| < 2 || ParseInt(parts[1]).None? || chat !in results then None
    else
      var k := PyIndex(|results[chat]|, ParseInt(parts[1]).value);
      if k.None? || chat !in details || results[chat][k.value].flight.segments == [] || |parts| < 3 then None
      else Some(Selection(results[chat][k.value].flight, details[chat], parts[2]))
  }

  /** A callback whose two variable parts are free of '_' splits back into its three parts. */
  lemma SplitCallback(digits: string, kind: string)
    requires '_' !in digits && '_' !in kind
    ensures Split("flight_" + digits + (['_'] + kind), '_') == ["flight", digits, kind]
  {
    assert "flight_" == "flight" + ['_'];
    ConcatAssoc("flight" + ['_'], digits, ['_'] + kind);
    ConcatAssoc("flight", ['_'], digits + (['_'] + kind));
    ConcatAssoc(digits, ['_'], kind);
    SplitAfterPrefix("flight", '_', digits + ['_'] + kind);
    SplitAfterPrefix(digits, '_', kind);
    SplitWithout(kind, '_');
  }

  /** The callback of button i splits into "flight", i's digits and the kind. */
  lemma CallbackParts(i: nat, isDeparture: bool)
    ensures Split(CallbackData(i, isDeparture), '_') == ["flight", NatToString(i), if isDeparture then "depart" else "return"]
    ensures ParseInt(NatToString(i)) == Some(i)
  {
    var digits := NatToString(i);
    assert forall j :: 0 <= j < |digits| ==> digits[j] != '_';
    if isDeparture {
      assert "_depart" == ['_'] + "depart";
      SplitCallback(digits, "depart");
    } else {
      assert "_return" == ['_'] + "return";
      SplitCallback(digits, "return");
    }
    ParseIntOfNat(i);
  }

  /** Pressing button i of the chat's result set designates candidate i of that set, read
      with the chat's search context, with the kind the button was labelled with. */
  lemma SelectionResolvesDisplayed(results: map<ChatId, seq<Entry>>, details: map<ChatId, SearchDetails>,
                                   chat: ChatId, i: nat, isDeparture: bool)
    requires chat in results && i < |results[chat]| && chat in details
    requires results[chat][i].flight.segments != []
    ensures ResolveSelection(results, details, chat, CallbackData(i, isDeparture))
         == Some(Selection(results[chat][i].flight, details[chat], if isDeparture then "depart" else "return"))
  {
    CallbackParts(i, isDeparture);
  }

  /** No staleness check: after a newer search with a non-empty answer, a button of an
      older result message resolves against the newer candidate list. */
  lemma StaleIndexResolvesAgainstNewList(results: map<ChatId, seq<Entry>>, details: map<ChatId, SearchDetails>,
                                         chat: ChatId, answer: Response, isOneWay: bool, i: nat, isDeparture: bool)
    requires Candidates(answer, isOneWay) != [] && i < |Candidates(answer, isOneWay)|
    requires chat in details && Candidates(answer, isOneWay)[i].flight.segments != []
    ensures ResolveSelection(ResultsAfter(results, chat, Some(answer), isOneWay), details, chat, CallbackData(i, isDeparture))
         == Some(Selection(Candidates(answer, isOneWay)[i].flight, details[chat], if isDeparture then "depart" else "return"))
  {
    SelectionResolvesDisplayed(ResultsAfter(results, chat, Some(answer), isOneWay), details, chat, i, isDeparture);
  }

  /** Where a resolved selection leads. */
  datatype Route =
    | Book(token: string, isOneWay: bool)   // handle_booking_search with the booking token
    | ReSearch(token: string)               // handle_flight_search with the departure token
    | MissingToken                          // only a log entry
    | NoFurtherAction                       // a kind other than depart and return

  /** The token routing of `handle_flight_selection`. */
  function RouteFor(searchType: string, isOneWay: bool, flight: Flight): (r: Route)
    ensures r.Book? <==>
      ((searchType == "depart" && isOneWay) || searchType == "return") && Truthy(flight.bookingToken)
    ensures r.Book? ==> r.token == flight.bookingToken.value && r.isOneWay == isOneWay
    ensures r.ReSearch? <==> searchType == "depart" && !isOneWay && Truthy(flight.departureToken)
    ensures r.ReSearch? ==> r.token == flight.departureToken.value
    ensures r == NoFurtherAction <==> searchType != "depart" && searchType != "return"
  {
    if searchType == "depart" then
      if isOneWay then
        if Truthy(flight.bookingToken) then Book(flight.bookingToken.value, true) else MissingToken
      else
        if Truthy(flight.departureToken) then ReSearch(flight.departureToken.value) else MissingToken
    else if searchType == "return" then
      if Truthy(flight.bookingToken) then Book(flight.bookingToken.value, isOneWay) else MissingToken
    else NoFurtherAction
  }

  /** On a round trip, a "depart" button is shown exactly for a departure token starting
      with "WyJ", and pressing it continues the search with that token. */
  lemma DepartButtonContinuesRoundTrip(flight: Flight)
    requires IsDepartureToken(TokenOf(flight, false))
    ensures RouteFor("depart", false, flight) == ReSearch(flight.departureToken.value)
  {
  }

  /** On a round trip, an outbound candidate whose departure token does not start with
      "WyJ" gets a "return" button, and pressing it books with its booking token instead of
      continuing the search. */
  lemma OutboundWithoutMarkBooks(flight: Flight)
    requires !IsDepartureToken(TokenOf(flight, false)) && Truthy(flight.bookingToken)
    ensures ButtonFor(0, Entry(flight, TokenOf(flight, false))).callbackData == CallbackData(0, false)
    ensures RouteFor("return", false, flight) == Book(flight.bookingToken.value, false)
  {
  }

  /** What a text message or a button reached. */
  datatype DetailsOutcome = NotWaitingForDetails | Rejected(error: InputError) | Searched(search: SearchOutcome)

  datatype SelectionOutcome =
    | UnexpectedError
    | BookingSearched(booking: BookingOutcome)
    | ReSearched(search: SearchOutcome)
    | NoTokenFound
    | NothingMore

  datatype CallbackOutcome =
    | FlightDetailsRequested
    | ChecklistPrompted
    | ChecklistShown(text: string)
    | ChecklistIgnored
    | ChecklistModified(labels: Option<seq<string>>)
    | StatusChanged(shown: Option<string>)
    | FlightSelected(selection: SelectionOutcome)
    | DestinationAsked
    | NotHandled

  /** The four language buttons and the codes they store. */
  const LABEL_EN := "🇺🇲 English"
  const LABEL_HE := "עברית 🇮🇱"
  const LABEL_RU := "🇷🇺 Русский"
  const LABEL_AR := "العربية 🇸🇦"

  function LanguageForLabel(text: string): (lang: Option<string>)
    ensures lang.Some? <==> text in {LABEL_EN, LABEL_HE, LABEL_RU, LABEL_AR}
    ensures text == LABEL_EN ==> lang == Some("en")
    ensures text == LABEL_HE ==> lang == Some("he")
    ensures text == LABEL_RU ==> lang == Some("ru")
    ensures text == LABEL_AR ==> lang == Some("ar")
  {
    if text == LABEL_EN then Some("en")
    else if text == LABEL_HE then Some("he")
    else if text == LABEL_RU then Some("ru")
    else if text == LABEL_AR then Some("ar")
    else None
  }

  /** The text up to the first white space. */
  function FirstWord(s: string): (w: string)
    ensures w <= s
    ensures forall i :: 0 <= i < |w| ==> !IsSpace(w[i])
    ensures |w| < |s| ==> IsSpace(s[|w|])
  {
    if s == [] || IsSpace(s[0]) then [] else [s[0]] + FirstWord(s[1..])
  }

  /** The command a message names: its text starts with '/', and the command is the first
      word without the slash and without an `@botname` suffix. */
  function CommandOf(text: string): Option<string> {
    if text != [] && text[0] == '/' then Some(BeforeFirst(FirstWord(text[1..]), "@")) else None
  }

  /** Which message handler takes a text message, in registration order. */
  datatype Handler =
    | Welcome             // /start, /help
    | LanguageChosen      // one of the four language buttons
    | ChecklistCommand    // /checklist
    | LanguageCommand     // /language
    | Recommendations     // /recommendations
    | SearchCommand       // /searchflight
    | FlightDetails       // user_state is waiting_for_flight_details
    | ChecklistItem       // user_states is waiting_for_item or waiting_for_item_delete
    | StatusSelection     // user_states is waiting_for_status_update
    | Unhandled

  /** The commands some handler is registered for. */
  const COMMANDS: set<Option<string>> :=
    {Some("start"), Some("help"), Some("checklist"), Some("language"), Some("recommendations"), Some("searchflight")}

  /** The first registered handler whose filter accepts the message. */
  function Dispatch(text: string, flight: FlightState, checklist: State): (h: Handler)
    ensures h == Welcome <==> CommandOf(text) in {Some("start"), Some("help")}
    ensures h == LanguageChosen <==> CommandOf(text) !in {Some("start"), Some("help")} && LanguageForLabel(text).Some?
    ensures h == FlightDetails <==>
      CommandOf(text) !in COMMANDS && LanguageForLabel(text).None? && flight == WaitingForFlightDetails
    ensures h == ChecklistItem <==>
      && CommandOf(text) !in COMMANDS && LanguageForLabel(text).None? && flight != WaitingForFlightDetails
      && (checklist == WaitingForItem || checklist == WaitingForItemDelete)
    ensures h == StatusSelection <==>
      && CommandOf(text) !in COMMANDS && LanguageForLabel(text).None? && flight != WaitingForFlightDetails
      && checklist == WaitingForStatusUpdate
  {
    var command := CommandOf(text);
    if command == Some("start") || command == Some("help") then Welcome
    else if LanguageForLabel(text).Some? then LanguageChosen
    else if command == Some("checklist") then ChecklistCommand
    else if command == Some("language") then LanguageCommand
    else if command == Some("recommendations") then Recommendations
    else if command == Some("searchflight") then SearchCommand
    else if flight == WaitingForFlightDetails then FlightDetails
    else if checklist == WaitingForItem || checklist == WaitingForItemDelete then ChecklistItem
    else if checklist == WaitingForStatusUpdate then StatusSelection
    else Unhandled
  }

  /** The two dialogues do not exclude each other: while a chat waits for flight details,
      a plain message is read as flight details even if the checklist waits for an item. */
  lemma FlightDetailsShadowChecklist(text: string, checklist: State)
    requires text == [] || text[0] != '/'
    requires LanguageForLabel(text).None?
    ensures Dispatch(text, WaitingForFlightDetails, checklist) == FlightDetails
  {
  }

  /** A command is never read as flight details or as a checklist item. */
  lemma CommandsNotReadAsInput(text: string, flight: FlightState, checklist: State)
    requires CommandOf(text) in COMMANDS
    ensures Dispatch(text, flight, checklist).Welcome? || Dispatch(text, flight, checklist).LanguageChosen?
         || Dispatch(text, flight, checklist).ChecklistCommand? || Dispatch(text, flight, checklist).LanguageCommand?
         || Dispatch(text, flight, checklist).Recommendations? || Dispatch(text, flight, checklist).SearchCommand?
  {
    var c := CommandOf(text);
    var h := Dispatch(text, flight, checklist);
    if c == Some("start") || c == Some("help") {
      assert h == Welcome;
    } else if LanguageForLabel(text).Some? {
      assert h == LanguageChosen;
    } else if c == Some("checklist") {
      assert h == ChecklistCommand;
    } else if c == Some("language") {
      assert h == LanguageCommand;
    } else if c == Some("recommendations") {
      assert h == Recommendations;
    } else {
      assert c == Some("searchflight");
      assert h == SearchCommand;
    }
  }

  /** The first word of a space-free word followed by more text is the word followed by
      the first word of that text. */
  lemma {:induction false} FirstWordAppend(word: string, suffix: string)
    requires forall i :: 0 <= i < |word| ==> !IsSpace(word[i])
    ensures FirstWord(word + suffix) == word + FirstWord(suffix)
  {
    if word == [] {
      assert word + suffix == suffix;
    } else {
      assert (word + suffix)[1..] == word[1..] + suffix;
      FirstWordAppend(word[1..], suffix);
    }
  }

  /** `/word`, alone, before a space, or addressed as `/word@botname`, names the command `word`. */
  lemma CommandNamed(word: string, suffix: string)
    requires forall i :: 0 <= i < |word| ==> !IsSpace(word[i]) && word[i] != '@'
    requires suffix == [] || IsSpace(suffix[0]) || suffix[0] == '@'
    ensures CommandOf("/" + word + suffix) == Some(word)
  {
    var text := "/" + word + suffix;
    assert text[1..] == word + suffix;
    FirstWordAppend(word, suffix);
    assert forall k :: 0 <= k < |word| ==> word[k] != '@';
    if suffix == [] || IsSpace(suffix[0]) {
      assert FirstWord(suffix) == [];
      assert word + [] == word;
      BeforeFirstAbsent(word, '@');
    } else {
      var rest := FirstWord(suffix[1..]);
      assert FirstWord(suffix) == ['@'] + rest;
      assert word + (['@'] + rest) == word + ['@'] + rest;
      BeforeFirstChar(word, '@', rest);
    }
  }

  /** What the handlers take from outside the process: the date parser and the clock, the
      airport lookup, the two provider clients, the translation tables and the API key. */
  datatype Env = Env(parseDate: DateParser, resolveAirport: AirportResolver, now: DateTime,
                     provider: Provider, booking: BookingProvider, tables: Tables, apiKey: string)

  /** The process-wide `user_state` dictionary, over the other modules' state. */
  class Bot {
    var userState: map<ChatId, FlightState>
    const flights: FlightSearch
    const checklist: ChecklistDialogue
    const languages: Languages

    constructor (flights: FlightSearch, checklist: ChecklistDialogue, languages: Languages)
      ensures userState == map[] && this.flights == flights && this.checklist == checklist
      ensures this.languages == languages
    {
      userState := map[];
      this.flights := flights;
      this.checklist := checklist;
      this.languages := languages;
    }

    function StateOf(chat: ChatId): FlightState
      reads this
    {
      FlightStateIn(userState, chat)
    }

    /** `translate(chat_id, ...)` with the chat's current language. */
    function TranslatorFor(tables: Tables, chat: ChatId): string -> string
      reads languages
    {
      Translator(tables, languages.GetLanguage(chat))
    }

    /** `search_flight`: the chat now waits for its trip details. */
    method SearchFlight(chat: ChatId)
      modifies this
      ensures userState == old(userState)[chat := WaitingForFlightDetails]
    {
      userState := userState[chat := WaitingForFlightDetails];
    }

    /** The state after `handle_message`: a refused request (or a chat not waiting) changes
        nothing, so the chat keeps waiting; an accepted one records its search context,
        searches with it in the chat's language, caches the airports shown, and stops the
        waiting. */
    twostate predicate DetailsRecorded(chat: ChatId, text: string, env: Env)
      reads this, flights, languages
    {
      var v := ValidateFlightDetails(text, env.parseDate, env.resolveAirport, env.now);
      if old(StateOf(chat)) != WaitingForFlightDetails || v.Err? then
        && userState == old(userState) && flights.searchDetails == old(flights.searchDetails)
        && flights.flightResults == old(flights.flightResults) && flights.airportCodes == old(flights.airportCodes)
      else
        var d := v.value;
        var answer := env.provider(SearchParams(d.departureId, d.arrivalId, d.departureDate, d.returnDate, None,
                                                d.isOneWay, old(languages.GetLanguage(chat)), env.apiKey));
        && userState == old(userState)[chat := NoFlightState]
        && flights.searchDetails == old(flights.searchDetails)[chat := d]
        && flights.flightResults == ResultsAfter(old(flights.flightResults), chat, answer, d.isOneWay)
        && flights.airportCodes == CacheAfter(old(flights.airportCodes), answer, d.isOneWay)
    }

    /** `handle_message`: the state as `DetailsRecorded` says, and the reply: not waiting,
        the refusal's cause, or the report of the search. */
    method HandleMessage(chat: ChatId, text: string, env: Env) returns (outcome: DetailsOutcome)
      modifies this, flights
      ensures DetailsRecorded(chat, text, env)
      ensures old(StateOf(chat)) != WaitingForFlightDetails ==> outcome == NotWaitingForDetails
      ensures old(StateOf(chat)) == WaitingForFlightDetails ==>
        var v := ValidateFlightDetails(text, env.parseDate, env.resolveAirport, env.now);
        && (v.Err? ==> outcome == Rejected(v.error))
        && (v.Ok? ==>
              var d := v.value;
              var answer := env.provider(SearchParams(d.departureId, d.arrivalId, d.departureDate, d.returnDate, None,
                                                      d.isOneWay, old(languages.GetLanguage(chat)), env.apiKey));
              outcome.Searched? && Reported(outcome.search, answer, d.isOneWay, flights.airportCodes))
    {
      if StateOf(chat) != WaitingForFlightDetails {
        return NotWaitingForDetails;
      }
      var v := ValidateFlightDetails(text, env.parseDate, env.resolveAirport, env.now);
      if v.Err? {
        return Rejected(v.error);
      }
      var d := v.value;
      flights.searchDetails := flights.searchDetails[chat := d];
      var search := flights.HandleFlightSearch(chat, d.departureId, d.arrivalId, d.departureDate, d.returnDate,
                                               None, languages.GetLanguage(chat), env.apiKey, env.provider);
      userState := userState[chat := NoFlightState];
      return Searched(search);
    }

    /** The effect of `handle_flight_selection`: an unresolvable button gives the
        unexpected-error reply and changes nothing. A resolved one books with the recorded
        codes and dates and the booking token, continues the search with them and the
        departure token, or stops; only the continued search changes the result sets and
        the airport cache. */
    twostate predicate SelectionHandled(chat: ChatId, data: string, env: Env, new outcome: SelectionOutcome)
      reads flights, languages
    {
      var sel := ResolveSelection(old(flights.flightResults), flights.searchDetails, chat, data);
      && flights.searchDetails == old(flights.searchDetails)
      && (sel.None? ==>
            outcome == UnexpectedError
            && flights.flightResults == old(flights.flightResults) && flights.airportCodes == old(flights.airportCodes))
      && (sel.Some? ==>
            var d := sel.value.details;
            var route := RouteFor(sel.value.searchType, d.isOneWay, sel.value.flight);
            && (!route.ReSearch? ==>
                  flights.flightResults == old(flights.flightResults) && flights.airportCodes == old(flights.airportCodes))
            && (route.Book? ==>
                  var answer := env.booking(BookingParams(d.departureId, d.arrivalId, d.departureDate, d.returnDate,
                                                          route.token, route.isOneWay, env.apiKey));
                  && outcome.BookingSearched?
                  && (outcome.booking.BookingFetchFailed? <==> answer.None?)
                  && (outcome.booking.BookingLink? <==> answer.Some? && Truthy(answer.value.prettifyHtmlFile))
                  && (outcome.booking.BookingLink? ==> outcome.booking.url == answer.value.prettifyHtmlFile.value))
            && (route.ReSearch? ==>
                  var answer := env.provider(SearchParams(d.departureId, d.arrivalId, d.departureDate, d.returnDate,
                                                          Some(route.token), d.isOneWay, old(languages.GetLanguage(chat)),
                                                          env.apiKey));
                  && outcome.ReSearched? && Reported(outcome.search, answer, d.isOneWay, flights.airportCodes)
                  && flights.flightResults == ResultsAfter(old(flights.flightResults), chat, answer, d.isOneWay)
                  && flights.airportCodes == CacheAfter(old(flights.airportCodes), answer, d.isOneWay))
            && (route == MissingToken ==> outcome == NoTokenFound)
            && (route == NoFurtherAction ==> outcome == NothingMore))
    }

    /** `handle_flight_selection`: resolves the pressed button against the chat's current
        result set and search context, then books, continues the search with the departure
        token, or stops. */
    method HandleFlightSelection(chat: ChatId, data: string, env: Env) returns (outcome: SelectionOutcome)
      modifies flights
      ensures SelectionHandled(chat, data, env, outcome)
    {
      var sel := ResolveSelection(flights.flightResults, flights.searchDetails, chat, data);
      if sel.None? {
        return UnexpectedError;
      }
      var d := sel.value.details;
      var route := RouteFor(sel.value.searchType, d.isOneWay, sel.value.flight);
      match route {
        case Book(token, isOneWay) =>
          var booking := flights.HandleBookingSearch(chat, token, isOneWay, env.apiKey, env.booking);
          return BookingSearched(booking);
        case ReSearch(token) =>
          var search := flights.HandleFlightSearch(chat, d.departureId, d.arrivalId, d.departureDate, d.returnDate,
                                                   Some(token), languages.GetLanguage(chat), env.apiKey, env.provider);
          return ReSearched(search);
        case MissingToken =>
          return NoTokenFound;
        case NoFurtherAction =>
          return NothingMore;
      }
    }

    /** `callback_query`: dispatches a button press. The checklist buttons `show_checklist` and
        `start_new_checklist` act only while the checklist dialogue waits for that answer,
        and then end the wait; the two dialogues keep separate states. */
    method CallbackQuery(chat: ChatId, data: string, env: Env) returns (outcome: CallbackOutcome)
      modifies this, flights, checklist, checklist.store
      ensures data != "search_flight" ==> userState == old(userState)
      ensures !StartsWith(data, "flight_") ==>
        flights.flightResults == old(flights.flightResults) && flights.airportCodes == old(flights.airportCodes)
      ensures flights.searchDetails == old(flights.searchDetails)
      ensures data == "search_flight" || StartsWith(data, "flight_") ==>
        checklist.userStates == old(checklist.userStates) && checklist.store.docs == old(checklist.store.docs)
      ensures data == "search_flight" ==>
        userState == old(userState)[chat := WaitingForFlightDetails] && outcome == FlightDetailsRequested
      ensures data == "checklist" ==>
        && checklist.userStates == old(checklist.userStates)[chat := WaitingForChecklistResponse]
        && checklist.store.docs == old(checklist.store.docs)
      ensures data == "show_checklist" || data == "start_new_checklist" ==>
        && (outcome.ChecklistShown? <==> old(checklist.StateOf(chat)) == WaitingForChecklistResponse)
        && (!outcome.ChecklistShown? ==>
              checklist.userStates == old(checklist.userStates) && checklist.store.docs == old(checklist.store.docs))
        && (outcome.ChecklistShown? ==> checklist.userStates == old(checklist.userStates)[chat := Idle])
      ensures data == "show_checklist" && outcome.ChecklistShown? ==>
        var items := Opened(old(checklist.store.docs), chat, TranslatorFor(env.tables, chat));
        && checklist.store.docs == old(checklist.store.docs)[chat := items]
        && outcome.text == ChecklistText(items, TranslatorFor(env.tables, chat))
      ensures data == "start_new_checklist" && outcome.ChecklistShown? ==>
        var items := Defaults(TranslatorFor(env.tables, chat));
        && checklist.store.docs == old(checklist.store.docs)[chat := items]
        && outcome.text == ChecklistText(items, TranslatorFor(env.tables, chat))
      ensures data in {"add_item", "delete_item", "update_status", "keep_as_is"} ==>
        outcome.ChecklistModified? && checklist.Responded(chat, data, old(TranslatorFor(env.tables, chat)), outcome.labels)
      ensures data in {"done", "not_done"} ==>
        outcome.StatusChanged? && checklist.StatusApplied(chat, data, old(TranslatorFor(env.tables, chat)), outcome.shown)
      ensures StartsWith(data, "flight_") ==> outcome.FlightSelected? && SelectionHandled(chat, data, env, outcome.selection)
      ensures data == "ask_destination" ==> outcome == DestinationAsked
      ensures outcome.DestinationAsked? || outcome.NotHandled? ==>
        checklist.userStates == old(checklist.userStates) && checklist.store.docs == old(checklist.store.docs)
    {
      var translate := TranslatorFor(env.tables, chat);
      assert "flight_"[0] == 'f';
      if data == "search_flight" {
        SearchFlight(chat);
        return FlightDetailsRequested;
      } else if data == "checklist" {
        checklist.userStates := checklist.userStates[chat := WaitingForChecklistResponse];
        return ChecklistPrompted;
      } else if data == "show_checklist" || data == "start_new_checklist" {
        outcome := AnswerChecklistPrompt(chat, data == "start_new_checklist", translate);
        return;
      } else if data == "ask_destination" {
        return DestinationAsked;
      } else if data in {"add_item", "delete_item", "update_status", "keep_as_is"} {
        var labels := checklist.ModifyResponse(chat, data, translate);
        return ChecklistModified(labels);
      } else if data in {"done", "not_done"} {
        var shown := checklist.StatusChange(chat, data, translate);
        return StatusChanged(shown);
      } else if StartsWith(data, "flight_") {
        var selection := HandleFlightSelection(chat, data, env);
        return FlightSelected(selection);
      }
      return NotHandled;
    }

    /** The answer to the checklist prompt: only while the checklist dialogue waits for it,
        the kept (or, for a new checklist, the reseeded) checklist is shown and the wait ends. */
    method AnswerChecklistPrompt(chat: ChatId, startNew: bool, translate: string -> string)
      returns (outcome: CallbackOutcome)
      modifies checklist, checklist.store
      ensures outcome.ChecklistShown? || outcome.ChecklistIgnored?
      ensures outcome.ChecklistShown? <==> old(checklist.StateOf(chat)) == WaitingForChecklistResponse
      ensures outcome.ChecklistIgnored? ==>
        checklist.userStates == old(checklist.userStates) && checklist.store.docs == old(checklist.store.docs)
      ensures outcome.ChecklistShown? ==>
        var items := if startNew then Defaults(translate) else Opened(old(checklist.store.docs), chat, translate);
        && checklist.userStates == old(checklist.userStates)[chat := Idle]
        && checklist.store.docs == old(checklist.store.docs)[chat := items]
        && outcome.text == ChecklistText(items, translate)
    {
      if checklist.StateOf(chat) != WaitingForChecklistResponse {
        return ChecklistIgnored;
      }
      if startNew {
        checklist.NewChecklist(chat, translate);
        NormalizedDefaults(translate);
      }
      var text := checklist.ShowChecklist(chat, translate);
      checklist.userStates := checklist.userStates[chat := Idle];
      outcome := ChecklistShown(text);
    }

    /** `set_user_language`: each of the four buttons stores its language code. */
    method SetUserLanguage(chat: ChatId, text: string) returns (lang: string)
      modifies languages
      ensures LanguageForLabel(text).Some? ==>
        languages.userLanguages == old(languages.userLanguages)[chat := LanguageForLabel(text).value]
      ensures LanguageForLabel(text).None? ==> languages.userLanguages == old(languages.userLanguages)
      ensures lang == languages.GetLanguage(chat)
    {
      var chosen := LanguageForLabel(text);
      if chosen.Some? {
        languages.SetLanguage(chat, chosen.value);
      }
      lang := languages.GetLanguage(chat);
    }

    /** The effect of `handle_modify_item`: an item message adds or deletes according to what
        the checklist waits for and resets the wait; in any other state nothing happens. */
    twostate predicate ItemModified(chat: ChatId, text: string, translate: string -> string)
      reads checklist, checklist.store
    {
      var state := old(checklist.StateOf(chat));
      && (state == WaitingForItem ==>
            && checklist.userStates == old(checklist.userStates)[chat := Idle]
            && checklist.store.docs == AfterAddition(old(checklist.store.docs), chat, text, translate))
      && (state == WaitingForItemDelete ==>
            && checklist.userStates == old(checklist.userStates)[chat := Idle]
            && checklist.store.docs == AfterDeletion(old(checklist.store.docs), chat, text, translate))
      && (state != WaitingForItem && state != WaitingForItemDelete ==>
            checklist.userStates == old(checklist.userStates) && checklist.store.docs == old(checklist.store.docs))
    }

    /** `handle_modify_item`. */
    method ModifyItem(chat: ChatId, text: string, translate: string -> string)
      modifies checklist, checklist.store
      ensures ItemModified(chat, text, translate)
    {
      var state := checklist.StateOf(chat);
      if state == WaitingForItem {
        var _ := checklist.ItemAddition(chat, text, translate);
      } else if state == WaitingForItemDelete {
        var _ := checklist.ItemDeletion(chat, text, translate);
      }
    }

    /** A text message, handed to the first registered handler that accepts it. */
    method OnMessage(chat: ChatId, text: string, env: Env) returns (handler: Handler)
      modifies this, flights, checklist, checklist.store, languages
      ensures handler == Dispatch(text, old(StateOf(chat)), old(checklist.StateOf(chat)))
      ensures handler != LanguageChosen ==> languages.userLanguages == old(languages.userLanguages)
      ensures handler != FlightDetails ==>
        && flights.searchDetails == old(flights.searchDetails)
        && flights.flightResults == old(flights.flightResults) && flights.airportCodes == old(flights.airportCodes)
      ensures handler != FlightDetails && handler != SearchCommand ==> userState == old(userState)
      ensures handler == SearchCommand ==> userState == old(userState)[chat := WaitingForFlightDetails]
      ensures handler != ChecklistItem && handler != StatusSelection && handler != ChecklistCommand ==>
        checklist.userStates == old(checklist.userStates)
      ensures handler != ChecklistItem ==> checklist.store.docs == old(checklist.store.docs)
      ensures handler == ChecklistCommand ==>
        checklist.userStates == old(checklist.userStates)[chat := WaitingForChecklistResponse]
      ensures handler == ChecklistItem ==>
        && checklist.userStates == old(checklist.userStates)[chat := Idle]
        && ItemModified(chat, text, old(TranslatorFor(env.tables, chat)))
      ensures handler == FlightDetails ==> DetailsRecorded(chat, text, env)
      ensures handler == LanguageChosen ==>
        languages.userLanguages == old(languages.userLanguages)[chat := LanguageForLabel(text).value]
      ensures handler == StatusSelection ==>
        checklist.userStates == old(checklist.userStates)[chat := WaitingForStatusChange(SelectedName(text))]
    {
      handler := Dispatch(text, StateOf(chat), checklist.StateOf(chat));
      RunHandler(handler, chat, text, env);
    }

    /** The handler's own work: each touches only its own dialogue and store. */
    method RunHandler(handler: Handler, chat: ChatId, text: string, env: Env)
      modifies this, flights, checklist, checklist.store, languages
      ensures handler != LanguageChosen ==> languages.userLanguages == old(languages.userLanguages)
      ensures handler != FlightDetails ==>
        && flights.searchDetails == old(flights.searchDetails)
        && flights.flightResults == old(flights.flightResults) && flights.airportCodes == old(flights.airportCodes)
      ensures handler != FlightDetails && handler != SearchCommand ==> userState == old(userState)
      ensures handler == SearchCommand ==> userState == old(userState)[chat := WaitingForFlightDetails]
      ensures handler != ChecklistItem && handler != StatusSelection && handler != ChecklistCommand ==>
        checklist.userStates == old(checklist.userStates)
      ensures handler != ChecklistItem ==> checklist.store.docs == old(checklist.store.docs)
      ensures handler == ChecklistCommand ==>
        checklist.userStates == old(checklist.userStates)[chat := WaitingForChecklistResponse]
      ensures handler == ChecklistItem ==> ItemModified(chat, text, old(TranslatorFor(env.tables, chat)))
      ensures handler == FlightDetails ==> DetailsRecorded(chat, text, env)
      ensures handler == LanguageChosen ==>
        languages.userLanguages == if LanguageForLabel(text).Some? then old(languages.userLanguages)[chat := LanguageForLabel(text).value]
                                   else old(languages.userLanguages)
      ensures handler == StatusSelection ==>
        checklist.userStates == old(checklist.userStates)[chat := WaitingForStatusChange(SelectedName(text))]
    {
      match handler {
        case LanguageChosen =>
          var _ := SetUserLanguage(chat, text);
        case SearchCommand =>
          RunFlightHandler(handler, chat, text, env);
        case FlightDetails =>
          RunFlightHandler(handler, chat, text, env);
        case ChecklistCommand =>
          RunChecklistHandler(handler, chat, text, TranslatorFor(env.tables, chat));
        case ChecklistItem =>
          RunChecklistHandler(handler, chat, text, TranslatorFor(env.tables, chat));
        case StatusSelection =>
          RunChecklistHandler(handler, chat, text, TranslatorFor(env.tables, chat));
        case _ =>
      }
    }

    /** The two handlers of the flight dialogue: `/searchflight` starts the wait for trip
        details, and a message while waiting is read as trip details. */
    method RunFlightHandler(handler: Handler, chat: ChatId, text: string, env: Env)
      requires handler == SearchCommand || handler == FlightDetails
      modifies this, flights
      ensures handler == SearchCommand ==>
        && userState == old(userState)[chat := WaitingForFlightDetails]
        && flights.searchDetails == old(flights.searchDetails)
        && flights.flightResults == old(flights.flightResults) && flights.airportCodes == old(flights.airportCodes)
      ensures handler == FlightDetails ==> DetailsRecorded(chat, text, env)
    {
      if handler == SearchCommand {
        SearchFlight(chat);
      } else {
        var _ := HandleMessage(chat, text, env);
      }
    }

    /** The three message handlers of the checklist dialogue: `/checklist` asks whether to keep
        the checklist, an item message adds or deletes it, a status choice records its name. */
    method RunChecklistHandler(handler: Handler, chat: ChatId, text: string, translate: string -> string)
      requires handler == ChecklistCommand || handler == ChecklistItem || handler == StatusSelection
      modifies checklist, checklist.store
      ensures handler == ChecklistCommand ==>
        && checklist.userStates == old(checklist.userStates)[chat := WaitingForChecklistResponse]
        && checklist.store.docs == old(checklist.store.docs)
      ensures handler == ChecklistItem ==> ItemModified(chat, text, translate)
      ensures handler == StatusSelection ==>
        && checklist.userStates == old(checklist.userStates)[chat := WaitingForStatusChange(SelectedName(text))]
        && checklist.store.docs == old(checklist.store.docs)
    {
      if handler == ChecklistCommand {
        checklist.userStates := checklist.userStates[chat := WaitingForChecklistResponse];
      } else if handler == ChecklistItem {
        ModifyItem(chat, text, translate);
      } else {
        var _ := checklist.StatusUpdateSelection(chat, text);
      }
    }
  }
}
