# Travel bot core in Dafny

This project models and proves the core of a Telegram travel assistant. Underneath the
messaging and API calls, the bot has a small sequential core:

- **Trip requests.** A user sends `departure, arrival, date[, return date]`. The bot
  validates it, records the chat's search context, queries a flight-search provider,
  numbers the candidate flights on buttons, and routes a pressed button. A one-way
  candidate goes to booking. A round-trip outbound candidate continues the search with
  its departure token. A return candidate goes to booking.
- **Checklist dialogue.** Each chat has a travel checklist stored in a document
  collection. The user can show it, reset it to five defaults, add an item, delete an
  item, or change an item's status.
- **Utilities.** A per-chat language registry (default English), translation lookup
  with fallbacks, and a recursive emptiness test on nested lists.

One Dafny module per source file:

| file | module | models |
|---|---|---|
| `wrappers.dfy` | `Wrappers` | `Option`, `Result` |
| `strings.dfy` | `Strings` | the Python string built-ins the code relies on: `isspace`, `strip`, `split`, `split(" (")[0]`, `startswith`, `int(...)`, `str(n)` |
| `utils.dfy` | `Utils` | utils.py: `user_languages` (class `Languages`), `translate`, `is_nested_empty` |
| `flights.dfy` | `Flights` | flights.py: the query dictionaries and the flattening of the provider's answer |
| `searchflight.dfy` | `SearchFlight` | searchflight.py: `airport_codes`, `flight_results` and `search_details` (class `FlightSearch`), `send_flight_results`, the airport-name cache, the guards of both searches |
| `database.dfy` | `Database` | database.py: the checklist collection as a map from chat id to items (class `ChecklistStore`), seeding, migration, `$addToSet`, `$pull`, positional `$set` |
| `checklist.dfy` | `Checklist` | checklist_functions.py: `user_states` (class `ChecklistDialogue`), rendering, labels, every checklist handler |
| `bot.dfy` | `Bot` | bot.py: `user_state` (class `Bot`), trip validation, button resolution and routing, callback and message dispatch, language buttons |

Where the source mutates a module-level dictionary or a database collection, the model is
a class with a `map` field, and the methods come with `modifies` clauses. Each handler states
its whole new state, either through a function of the old state or through a named effect
(a two-state predicate such as `Bot.Bot.DetailsRecorded`). The dispatchers pass these effects
on branch by branch. The lemmas beside those functions prove what the source promises.
Outside effects are parameters:

- the date parser and the clock;
- the airport lookup (`get_airports`);
- the two provider clients;
- the translation tables.

A provider client is a function from the query dictionary to an optional answer. None
stands for an exception while fetching.

Behaviours the model keeps as the code has them:

- **No staleness check.** A button from an older result message is not rejected; its index
  resolves against the current list (`Bot.StaleIndexResolvesAgainstNewList`). An empty or
  failed answer, or a missing search context, keeps the previous list.
- **Language of a query.** The search query's `hl` value is a one-element set holding the language (flights.py:24). The HTTP layer sends the element itself, so the query built by `Flights.SearchParams` stores the language as text.
- **Trip kind is re-read when routing.** A button's `_depart`/`_return` kind is fixed when
  the results are shown. The one-way flag used when it is pressed is read from the search
  context current at that moment.

The two dialogue states are independent maps: `user_state` for flights, `user_states` for
the checklist. While a chat waits for flight details, a plain text message goes to the
flight-details handler even if the checklist also waits for an item
(`Bot.FlightDetailsShadowChecklist`).

## Model

| member | source | states |
|---|---|---|
| `Utils.LanguageIn` | utils.py:8-9 | the stored language of a chat, and "en" for a chat never set |
| `Utils.Languages.GetLanguage` | utils.py:8-9 | `get_language` on the registry: `LanguageIn` of its map |
| `Utils.Languages.Translate` | utils.py:14-17 | `translate` on the registry: `TranslateIn` in the chat's language |
| `Utils.TranslateIn` | utils.py:14-17 | the text from the language's own table when one exists, else from the English table; "" when the key is missing from the table used |
| `Utils.Translator` | utils.py:14-17 | defines `translate` for a fixed language as a function from key to text: `TranslateIn` in that language |
| `Utils.LanguageAfterSet` | utils.py:11-12 | after storing a language for a chat, that chat reads it back and every other chat reads what it read before |
| `Utils.Languages.SetLanguage` | utils.py:11-12 | the registry gains exactly that entry; the chat's language is the new one, every other chat's is unchanged |
| `Utils.IsNestedEmpty` | utils.py:22-33 | true for the empty list, false as soon as some element is not a list, and true only when every element is a list |
| `Utils.NestedEmptyIffNoScalar` | utils.py:22-33 | a list is nested-empty exactly when no non-list value occurs in it at any depth |
| `Utils.NestedEmptyOfLists` | utils.py:30-33 | for a list of lists, nested-empty exactly when every element is nested-empty |
| `Utils.NestedEmptyOfRecords` | searchflight.py:132 | a list of dictionaries (the candidate list) is nested-empty exactly when it is empty |
| `Strings.Strip` | bot.py:119 | the stripped text is no longer than the input, and neither starts nor ends with white space |
| `Strings.IsSpace` | bot.py:119 | defines `str.isspace` on one character: Python's white-space set (ASCII space, tab to carriage return, the separators U+001C to U+001F, and the Unicode spaces) |
| `Strings.StripLeft` | bot.py:119 | the part of `strip` that drops leading white space: the result is a suffix of the input, does not start with white space, and everything dropped is white space |
| `Strings.StripRight` | bot.py:119 | the part of `strip` that drops trailing white space: the result is a prefix of the input, does not end with white space, and everything dropped is white space |
| `Strings.StripKeeps` | checklist_functions.py:136 | text that starts and ends with a non-space character is its own strip |
| `Strings.StripBlank` | checklist_functions.py:84-85 | all-white-space text strips to the empty text, which is false |
| `Strings.Split` | bot.py:119 | splitting yields at least one piece, and no piece contains the separator |
| `Strings.JoinSplit` | bot.py:119 | joining the pieces of a split with the separator gives the original text |
| `Strings.SplitCount` | bot.py:119-121 | the number of pieces is the number of separators plus one |
| `Strings.SplitAfterPrefix` | bot.py:252 | a separator-free prefix followed by the separator becomes the first piece |
| `Strings.SplitWithout` | bot.py:252 | separator-free text splits into itself alone |
| `Strings.BeforeFirst` | checklist_functions.py:137 | `s.split(sep)[0]` is a prefix of `s`, and is either all of `s` or followed in `s` by `sep` |
| `Strings.BeforeFirstOpening` | checklist_functions.py:137 | the text before the first " (" of `p + " (" + q` is `p` when `p` holds no " (" |
| `Strings.NatToString` | searchflight.py:163-164 | `str(i)` is a non-empty run of decimal digits without a leading zero |
| `Strings.DigitsOfNat` | bot.py:253 | the digits of `str(i)` have the value `i` |
| `Strings.ParseInt` | bot.py:253 | `int(s)`: a number is read only from text that is not blank after stripping; `ParseIntOfNat` proves it reads back every `str(i)` |
| `Strings.ParseIntOfNat` | bot.py:253 | `int(str(i)) == i` for every button index `i` |
| `Strings.ZeroPad` | bot.py:156 | the padded text has the requested width, ends with the input and is '0' before it |
| `Flights.CommonKeys` | flights.py:21-31 | the nine keys every query carries, with their values |
| `Flights.Truthy` | flights.py:33-37 | defines Python truthiness of an optional text: present and not empty |
| `Flights.SearchParams` | flights.py:20-37 | defines the search query; its keys are proved in `SearchParamsKeys` |
| `Flights.BookingParams` | flights.py:79-93 | defines the booking query; its keys are proved in `BookingParamsKeys` |
| `Flights.SearchParamsKeys` | flights.py:20-37 | the search query holds the common keys in the chat's language, with `type` "2" one-way and "1" otherwise; `return_date` exactly when the trip is not one-way and a non-empty return date is given; `departure_token` exactly when a non-empty token is given; no other key (so no `booking_token`) |
| `Flights.BookingParamsKeys` | flights.py:79-95 | the booking query holds the common keys in English plus the booking token; `return_date` exactly when not one-way and a non-empty return date is given; no other key |
| `Flights.CandidatesLayout` | flights.py:42-58 | the candidate list has the length of both lists together: every best flight in order, then every other flight in order, each with its departure token on a round trip and its booking token one-way; a missing list counts as empty |
| `Flights.Flatten` | flights.py:42-58 | the two append loops build exactly that candidate list |
| `Flights.TokenOf` | flights.py:44-58 | defines the token kept with a candidate: its departure token on a round trip, its booking token one-way |
| `Flights.EntriesOf` | flights.py:46-58 | defines one append loop's entries: each flight of the list in order, with the token `TokenOf` selects |
| `Flights.Candidates` | flights.py:42-58 | defines the candidate list: the best flights, then the other flights, a missing list counting as empty; its layout is proved in `CandidatesLayout` |
| `Flights.ReturnFlights` | flights.py:9-65 | None exactly when the provider raised; otherwise the candidate list of its answer to the query built from the arguments |
| `SearchFlight.Showable` | searchflight.py:138-144 | how many leading candidates have segments: all before it do, the one at it has none |
| `SearchFlight.RememberedFirstWriteWins` | searchflight.py:114-117 | the cache after the loop holds the old codes plus each visited candidate's first departure and last arrival code, and no cached code changes its name |
| `SearchFlight.RememberedNamesFromFlights` | searchflight.py:110-115 | every newly cached name is the name of an endpoint airport of a visited candidate |
| `SearchFlight.ResultsAfter` | searchflight.py:132-133 | after a search, every other chat's result set is as before. The chat's becomes the candidate list exactly when the answer arrived and has candidates; after a failed or empty answer it is as before, present or absent |
| `SearchFlight.FlightSearch.AirportName` | searchflight.py:101-117 | a code not yet cached is cached with the segment's airport name; the answer is the cached name, the old one when the code was known |
| `SearchFlight.FlightSearch.SendFlightResults` | searchflight.py:123-182 | the display is `Presented`: "no flights" exactly for the empty list, a failed display exactly when a candidate has no segments, else the buttons and legend. A non-empty list becomes the chat's result set, the empty one keeps the previous set, and the cache is `Remembered` over the candidates the loop reaches |
| `SearchFlight.FlightSearch.ShowResults` | searchflight.py:135-173 | the display loop over a non-empty list: the cache follows the loop up to the first candidate without segments, and the display fails exactly when there is such a candidate. Otherwise there is one button per candidate, button `i` being `ButtonFor(i, …)`, and the legend holds exactly the endpoint codes with their cached names |
| `SearchFlight.IsDepartureToken` | searchflight.py:163-164 | defines the button classification: a token that is present and starts with "WyJ" marks a departure |
| `SearchFlight.CallbackData` | searchflight.py:163-164 | defines `flight_{i}_depart` and `flight_{i}_return`; `Bot.CallbackParts` proves they split back into the index and the kind |
| `SearchFlight.ButtonFor` | searchflight.py:163-165 | defines button `i` of a candidate: index `i` and the callback its token classifies |
| `SearchFlight.Remember` | searchflight.py:114-117 | defines one cache write: a code not yet cached gets the airport's name, a cached code keeps its name |
| `SearchFlight.Remembered` | searchflight.py:138-150 | defines the cache after the loop: for each visited candidate, its first departure airport and then its last arrival airport are remembered; proved about in `RememberedFirstWriteWins` and `RememberedNamesFromFlights` |
| `SearchFlight.Presented` | searchflight.py:132-179 | defines what the display shows: "no flights" exactly for the empty list, a failed display exactly when some candidate has no segments, and otherwise one `ButtonFor` per candidate and a legend of exactly the endpoint codes with their cached names |
| `SearchFlight.CacheAfter` | searchflight.py:88-95 | defines the cache after a search: unchanged after a failed fetch, otherwise `Remembered` over the candidates the display loop reaches |
| `SearchFlight.CacheAfterFirstWriteWins` | searchflight.py:114-117 | across a whole search the cache keeps every code it held, each with its old name |
| `SearchFlight.Reported` | searchflight.py:88-95 | defines the outcome of a search: fetch failure exactly when the provider raised, otherwise the `Presented` display of the answer's candidates |
| `SearchFlight.VisitStep` | searchflight.py:138-150 | visiting one more candidate with segments caches its first departure and then its last arrival airport, each only if its code is not cached yet, and adds both codes to the endpoints |
| `SearchFlight.FlightSearch.HandleFlightSearch` | searchflight.py:57-98 | with no search context for the chat, nothing is fetched and nothing changes. Otherwise the query uses the recorded trip kind, and the outcome is `Reported`: fetch failure exactly when the provider raised, else the `Presented` display of the answer. The result sets become `ResultsAfter` of the answer and the cache becomes `CacheAfter` of it |
| `SearchFlight.FlightSearch.HandleBookingSearch` | searchflight.py:185-223 | with no search context, no fetch; otherwise the booking query is built from the recorded codes and dates, and a link is offered exactly when the answer names a non-empty `prettify_html_file` |
| `Database.Defaults` | database.py:47-53 | five items in the order passport, tickets, boarding_pass, hotel_reservation, travel_insurance, each the translated name with status "❌" |
| `Database.Normalized` | database.py:57-60 | defines the migration: each bare name becomes a pending item, every other element is kept; proved about in `NormalizedShape` and `NormalizedIdempotent` |
| `Database.Opened` | database.py:42-62 | defines the items `get_or_create_checklist` answers: the migrated stored items, or the defaults for a chat without a document |
| `Database.Added` | database.py:64-71 | defines the collection after `$addToSet`: only an existing document of that chat changes, by `AddToSet` of a pending item |
| `Database.Pulled` | database.py:73-83 | defines the collection after `$pull`: only an existing document of that chat changes, by `Pull` of the name |
| `Database.StatusSet` | database.py:85-90 | defines the collection after the positional `$set`: only a document of that chat holding an item of that name changes, by `SetFirstStatus` |
| `Database.NormalizedShape` | database.py:57-60 | migration keeps length and order, turns each bare name into a pending item, keeps every other element, and leaves no bare name |
| `Database.NormalizedIdempotent` | database.py:57-61 | a second migration changes nothing |
| `Database.NormalizedDefaults` | database.py:45-61 | the seeded defaults need no migration |
| `Database.AddToSet` | database.py:67-71 | an item already present leaves the list unchanged; an absent item is appended once, at the end |
| `Database.AddToSetIdempotent` | database.py:67-71 | adding the same item twice is adding it once |
| `Database.AddToSetBesideDone` | database.py:67-71 | an item of the same name marked "✅" does not block the pending one: the list grows by one |
| `Database.Pull` | database.py:80-83 | no element named `name` remains, and the remaining elements are exactly the others |
| `Database.PullAbsent` | database.py:80-83 | deleting a name no item carries changes nothing |
| `Database.PullAppend` | database.py:80-83 | deletion works piecewise, so the kept items keep their order |
| `Database.PullIdempotent` | database.py:80-83 | deleting twice is deleting once |
| `Database.FirstNamed` | database.py:88-89 | the position `$` selects: no earlier item has the name, and the one there does |
| `Database.SetFirstStatus` | database.py:88-89 | the status update keeps the number of items |
| `Database.SetFirstStatusEffect` | database.py:85-90 | only the first item of that name changes, to that name with the new status; with no such item nothing changes |
| `Database.UpdatesStayInPlace` | database.py:64-90 | add, delete and status update never create a document and never touch another chat's |
| `Database.ChecklistStore.GetOrCreate` | database.py:42-62 | a chat without a document gets the defaults; otherwise its items are migrated in place; either way, those items are written back and answered |
| `Database.ChecklistStore.AddItem` | database.py:64-71 | the collection becomes `Added`: `$addToSet` on the chat's document, if it exists |
| `Database.ChecklistStore.DeleteItem` | database.py:73-83 | the collection becomes `Pulled`: `$pull` by name on the chat's document, if it exists |
| `Database.ChecklistStore.UpdateItemStatus` | database.py:85-90 | the collection becomes `StatusSet`: only a document holding an item of that name changes |
| `Database.ChecklistStore.Replace` | checklist_functions.py:17-28 | the chat's document is replaced by the given items |
| `Checklist.StateIn` | checklist_functions.py:13 | a chat never seen reads as the reset state |
| `Checklist.LineOf` | checklist_functions.py:45-50 | defines the line of one element: `- {status} {name}` and a newline for a document with both fields, nothing for any other element |
| `Checklist.Rendered` | checklist_functions.py:44-50 | defines the rendered text: the lines of the items in order; proved about in `RenderedSnoc`, `RenderedAppend` and `RenderedSkipsMalformed` |
| `Checklist.ChecklistText` | checklist_functions.py:51 | defines the text shown: the translated heading, a newline and the rendered items |
| `Checklist.Label` | checklist_functions.py:113 | defines the label of a well-formed item: `name (status)` |
| `Checklist.Labels` | checklist_functions.py:111-114 | defines the labels: one per well-formed item, in order; proved about in `LabelsComplete` |
| `Checklist.RenderedSnoc` | checklist_functions.py:45-48 | one more item adds its line (or nothing, if malformed) at the end of the text |
| `Checklist.RenderedAppend` | checklist_functions.py:44-48 | rendering works piecewise: lines come in the items' order |
| `Checklist.RenderedSkipsMalformed` | checklist_functions.py:46-50 | elements that are not documents with a name and a status contribute no line |
| `Checklist.PendingLine` | checklist_functions.py:47-48 | a pending item's line is `- ❌ {name}` and a newline |
| `Checklist.RenderedDefaults` | checklist_functions.py:41-51 | a freshly seeded checklist renders the five default lines in order |
| `Checklist.RenderItems` | checklist_functions.py:44-50 | the loop builds exactly the rendered text of the items |
| `Checklist.LabelsComplete` | checklist_functions.py:111-114 | every well-formed item gets a `name (status)` label, and every label belongs to a well-formed item |
| `Checklist.StatusLabels` | checklist_functions.py:111-114 | the loop builds exactly those labels, in order |
| `Checklist.SelectedName` | checklist_functions.py:136-137 | the selected name is a prefix of the stripped message |
| `Checklist.LabelRoundTrip` | checklist_functions.py:113-137 | pressing the label of an item whose name is stripped, non-empty and free of " (" selects exactly that name |
| `Checklist.SelectedNameCutsAtFirstOpening` | checklist_functions.py:137 | a name holding " (" is cut at its first " (": the label of "Visa (US)" selects "Visa" |
| `Checklist.StatusFor` | checklist_functions.py:122-127 | `done` stores "✅", `not_done` stores "❌", and nothing else stores a status |
| `Checklist.NormalizedSnoc` | database.py:58-60 | migration of a list ending in a document migrates the rest and keeps that document |
| `Checklist.AddedItemShown` | checklist_functions.py:84-88 | after adding a name that is not already pending, the shown checklist is the old one plus one pending line for it at the end |
| `Checklist.AddWithoutDocumentLost` | checklist_functions.py:85-88 | an item added while the chat has no document is lost: the update matches nothing and the checklist shown is the defaults |
| `Checklist.DeletedItemGone` | checklist_functions.py:97-101 | after deleting a name, no shown item carries it (unless a bare name of an older version survived) |
| `Checklist.AfterAddition` | checklist_functions.py:81-92 | defines the collection after an item message while the checklist waits for an item: unchanged for a blank message, else `Added` of the stripped text and then opened again |
| `Checklist.AfterDeletion` | checklist_functions.py:94-105 | defines the collection after an item message while the checklist waits for an item to delete: unchanged for a blank message, else `Pulled` of the stripped text and then opened again |
| `Checklist.ChecklistDialogue.NewChecklist` | checklist_functions.py:15-30 | the chat's document becomes exactly the five default items |
| `Checklist.ChecklistDialogue.ShowChecklist` | checklist_functions.py:41-51 | the chat's checklist is opened (seeded or migrated) and its text is the heading, a newline and the rendered items |
| `Checklist.ChecklistDialogue.ShowItemsForStatusUpdate` | checklist_functions.py:107-115 | the chat's checklist is opened and its labels are answered |
| `Checklist.ChecklistDialogue.ModifyResponse` | checklist_functions.py:63-79 | the effect is `Responded`: `add_item` waits for an item, `delete_item` waits for an item to delete, `update_status` shows the opened checklist's labels and waits for a choice; anything else changes nothing |
| `Checklist.ChecklistDialogue.Responded` | checklist_functions.py:63-79 | names that effect: each of the three answers sets its waiting state; `update_status` also writes the opened checklist back and answers its labels; any other answer changes nothing and shows nothing |
| `Checklist.ChecklistDialogue.ItemAddition` | checklist_functions.py:81-92 | the store changes only for a non-blank message, by adding the stripped text and then showing the checklist; the state is reset either way |
| `Checklist.ChecklistDialogue.ItemDeletion` | checklist_functions.py:94-105 | the store changes only for a non-blank message, by deleting the stripped text and then showing the checklist; the state is reset either way |
| `Checklist.ChecklistDialogue.StatusUpdateSelection` | checklist_functions.py:133-145 | the state becomes the record waiting for the status of the selected name |
| `Checklist.ChecklistDialogue.StatusChange` | checklist_functions.py:117-131 | the effect is `StatusApplied`: without the record state, reading the item name raises and nothing changes. Otherwise the first item of the remembered name gets the chosen status, the checklist is shown and the state is reset |
| `Checklist.ChecklistDialogue.StatusApplied` | checklist_functions.py:117-131 | names that effect: outside the record state nothing changes and nothing is shown. Otherwise the collection becomes `StatusSet` for `done` or `not_done` (and stays for other data), is opened again and shown, and the state is reset |
| `Bot.FlightStateIn` | bot.py:111 | a chat never seen is not waiting for flight details |
| `Bot.Before` | bot.py:132-140 | defines `<` on date-times: by year, month, day, second of the day and microsecond; proved a strict total order in `BeforeStrictTotal` |
| `Bot.Midnight` | bot.py:129-132 | re-reading the `%Y-%m-%d` text of a date gives the same day, never after the date, and strictly before it exactly when the date is later than midnight |
| `Bot.IsoDate` | bot.py:129 | the `%Y-%m-%d` text of a date: year, month and day zero-padded to four, two and two digits and joined by '-', so at least ten characters |
| `Bot.BeforeStrictTotal` | bot.py:132-140 | the date-time order used by both date checks is a strict total order |
| `Bot.Fields` | bot.py:119 | one stripped field per comma-separated piece |
| `Bot.FieldCount` | bot.py:119-121 | there is one field more than the text has commas |
| `Bot.SplitJoin` | bot.py:119 | comma-free parts joined by commas split back into those parts |
| `Bot.FieldsOfJoined` | bot.py:119 | comma-free parts joined by commas are read back as those parts, stripped |
| `Bot.ValidateFlightDetails` | bot.py:119-159 | an accepted request is one-way exactly when it has no return date |
| `Bot.ValidationOutcomes` | bot.py:119-159 | the five checks run in order: each refuses exactly when every earlier check passes and it fails, with its stated cause, and the request is accepted exactly when all five pass. The field count is refused exactly when not 3 or 4. The date format is refused exactly when a date does not parse. A return day (re-read at midnight) before the departure is refused, and so is a departure before now (to the microsecond). The missing airport named is the departure city when its code is "NO_RESULT", else the arrival city. On success: cities and codes as given and resolved, ISO dates, one-way and no return date exactly for 3 fields |
| `Bot.SameDayReturnAccepted` | bot.py:129-134 | a return on the day of a midnight departure is not refused |
| `Bot.SameDayReturnAfterTimedDepartureRefused` | bot.py:128-134 | a return on the day of a departure later than midnight is refused, because the return date is re-read at midnight |
| `Bot.EmptyAirportCodeRecorded` | bot.py:144-151 | a failed airport lookup (which answers "") passes the "NO_RESULT" check and is recorded as the code |
| `Bot.OneWayRequest` | bot.py:119-159 | `a, b, d` with a valid future date and known airports records the stripped cities, their codes, the ISO date, no return date and one-way |
| `Bot.PyIndex` | bot.py:255 | Python list indexing: valid exactly for `-len <= i < len`, a negative index counting from the end |
| `Bot.ResolveSelection` | bot.py:250-262 | a pressed button resolves exactly when the callback has an index and a kind, the index is a number in range of the chat's current results, the chat has a search context, and the candidate has segments to format; it then designates that candidate, that context and that kind |
| `Bot.SplitCallback` | bot.py:252 | `flight_{digits}_{kind}` with no '_' in digits or kind splits into exactly those three parts |
| `Bot.CallbackParts` | bot.py:252-253 | the callback of button `i` splits into "flight", the digits of `i` and the kind, and its index field reads back as `i` |
| `Bot.SelectionResolvesDisplayed` | bot.py:252-262 | pressing button `i` of the chat's result set designates candidate `i` of that set, with the kind the button was given |
| `Bot.StaleIndexResolvesAgainstNewList` | bot.py:255 | after a newer non-empty search, button `i` of an older message designates candidate `i` of the newer list |
| `Bot.RouteFor` | bot.py:262-287 | booking exactly for a one-way `depart` or a `return` with a non-empty booking token, using that token; continuing the search exactly for a round-trip `depart` with a non-empty departure token, using that token; any other kind does nothing more |
| `Bot.DepartButtonContinuesRoundTrip` | bot.py:265-277 | on a round trip, a `depart` button (its departure token starts with "WyJ") continues the search with that token |
| `Bot.OutboundWithoutMarkBooks` | bot.py:281-284 | on a round trip, an outbound candidate whose departure token lacks "WyJ" gets a `return` button, which books with its booking token |
| `Bot.LanguageForLabel` | bot.py:40-50 | the four language buttons store "en", "he", "ru" and "ar"; no other text is a language button |
| `Bot.FirstWord` | bot.py:102 | the command word is a prefix without white space, ending at the first white space |
| `Bot.CommandOf` | bot.py:102 | defines the command a message names: the first word after a leading '/', cut at '@'; proved about in `CommandNamed` |
| `Bot.CommandNamed` | bot.py:102 | `/word`, alone, followed by a space, or as `/word@botname`, names the command `word` |
| `Bot.Dispatch` | bot.py:32-219 | handlers are tried in registration order. `/start` and `/help` come first, then the language buttons. Flight details are read exactly from a message that is neither a known command nor a language button while the chat waits for them. A checklist item is read exactly from such a message while the flight dialogue does not wait and the checklist waits for an item or an item to delete; a status choice likewise, exactly while the checklist waits for a status choice |
| `Bot.FlightDetailsShadowChecklist` | bot.py:111-218 | while a chat waits for flight details, a plain message goes to the flight-details handler whatever the checklist state |
| `Bot.CommandsNotReadAsInput` | bot.py:32-108 | a known command is always handled as a command, never as input to a dialogue |
| `Bot.Bot.SearchFlight` | bot.py:102-108 | the chat waits for flight details |
| `Bot.Bot.HandleMessage` | bot.py:110-162 | the effect is `DetailsRecorded`: a refused request changes nothing and reports its cause, so the chat keeps waiting. An accepted one overwrites the chat's search context, stops the waiting, searches with its codes and dates in the chat's language, and reports the search as `Reported`, with the result sets as `ResultsAfter` and the cache as `CacheAfter` |
| `Bot.Bot.DetailsRecorded` | bot.py:110-162 | names that effect: unchanged when the chat was not waiting or the request was refused; otherwise the flight state is reset, the search context recorded, and the result sets and cache follow the search of those details |
| `Bot.Bot.HandleFlightSelection` | bot.py:245-290 | the effect is `SelectionHandled`: an unresolvable selection gives the unexpected-error outcome and changes nothing. Otherwise booking uses the recorded codes and dates with the booking token, and the continued search uses them with the departure token and is `Reported`, with the result sets as `ResultsAfter` and the cache as `CacheAfter`. A missing token or another kind stops there |
| `Bot.Bot.SelectionHandled` | bot.py:245-290 | names that effect: the search contexts never change. A booking gives a failed fetch exactly when the client raised and a link exactly when the answer names a non-empty page. The result sets and the cache change only on the continued search |
| `Bot.Bot.CallbackQuery` | bot.py:168-204 | `search_flight` waits for flight details and leaves the result sets, the airport cache and the checklist alone, and `checklist` waits for the checklist answer. `show_checklist` and `start_new_checklist` act only while the checklist waits for that answer. The modify buttons have the effect `Responded`, `done`/`not_done` the effect `StatusApplied`, and a `flight_` button the effect `SelectionHandled`. `ask_destination` and any other data leave the checklist unchanged. Only a `flight_` button touches the result sets or the cache, only `search_flight` the flight state, and no button a search context |
| `Bot.Bot.AnswerChecklistPrompt` | bot.py:180-192 | only while the checklist waits for its answer: the opened checklist (or, for a new one, the reseeded defaults) is written and shown, and the state is reset; in any other state nothing changes |
| `Bot.Bot.ModifyItem` | bot.py:207-213 | the effect is `ItemModified`: while the checklist waits for an item, the collection becomes `AfterAddition` of the message; while it waits for an item to delete, `AfterDeletion`; either way the state is reset. In any other state nothing changes |
| `Bot.Bot.ItemModified` | bot.py:207-213 | names that effect on the checklist dialogue and its store |
| `Bot.Bot.SetUserLanguage` | bot.py:40-52 | a language button stores its code for the chat, and the chat's language is read back |
| `Bot.Bot.TranslatorFor` | utils.py:14-17 | defines `translate(chat_id, ·)`: the `Translator` in the chat's current language |
| `Bot.Bot.OnMessage` | bot.py:31-219 | the handler is the one `Dispatch` picks from the states before the message. Each handler changes only its own dialogue: flight details have the effect `DetailsRecorded`, `/searchflight` makes the chat wait, an item message has the effect `ItemModified`, a status choice and `/checklist` set the checklist state, and a language button stores its code |
| `Bot.Bot.RunHandler` | bot.py:31-219 | whatever handler runs, it touches only its own dialogue and store: `/searchflight` waits, flight details are `DetailsRecorded`, `/checklist` waits for its answer, an item message is `ItemModified`, a status choice waits for the status, and a language button stores its code exactly when it is one |
| `Bot.Bot.RunFlightHandler` | bot.py:102-162 | `/searchflight` makes the chat wait and searches nothing; flight details have the effect `DetailsRecorded` |
| `Bot.Bot.RunChecklistHandler` | bot.py:66-219 | `/checklist` waits for its answer and changes no document; an item message has the effect `ItemModified`; a status choice waits for the status of the selected name and changes no document |

## Left out

- Telegram transport is not modelled: sending, editing and answering messages, keyboards and buttons as objects, the cover photo, handler registration and polling. Handlers return an outcome value instead of sending text.
- Message and button texts are not modelled, and neither is the translations module (translation tables are a parameter). This includes the literal-string quirks in the airport-not-found message (bot.py:148) and the two error messages sent as sets (searchflight.py:73, searchflight.py:212), the search-progress text, the button captions with times and prices, and the legend's text layout.
- `format_flight_details` (searchflight.py:16-53) is not modelled beyond one effect: a candidate with no segments raises there, which `Bot.ResolveSelection` counts as a failed selection. Its text and its `strptime`/`strftime` conversions are left out.
- gemini.py is not part of this model. `get_airports` is an oracle that returns a string (on failure it returns "").
- The recommendation flow (bot.py:93-99, bot.py:221-241) is left out: a background thread around an LLM call. Its `/recommendations` command and `ask_destination` button are only recognised. The next-step handler they register, which takes the next message ahead of all other handlers, is not modelled.
- `dateutil` parsing and `datetime.now()` are an oracle and a parameter. Time zones and comparisons between aware and naive date-times are left out.
- `Bot.IsoDate` always pads the year to four digits. The platform `strftime('%Y')` may not pad years below 1000.
- The provider and database clients (network, MongoDB connection) are left out. Only the fields the core reads are modelled: segments with endpoint airports, the two tokens, the two candidate lists, `prettify_html_file`.
- Data-shape errors from missing keys or wrong value types in provider answers are not modelled. This covers the `"Unknown"` fallback of `get_airport_name_from_flight`, and exceptions inside `send_flight_results` other than a candidate without segments.
- Stored checklist elements that are neither bare names nor documents are one opaque value (`OtherValue`). Document equality for `$addToSet` compares name and status only; BSON field order is not modelled.
- `Strings.ParseInt` accepts only ASCII digits. Python's `int()` also accepts other Unicode decimal digits.
- Logging is left out, including the malformed `logger.error(chat_id, ...)` calls.
- `Bot.CommandOf` states the messaging library's command rule as the model takes it: the text starts with '/', its first word is taken without the slash, and that word is cut at '@'. The library itself is not part of this model, and neither is its check of the bot's own name.
