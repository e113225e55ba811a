# SkyWings booking logic in Dafny

SkyWings is a flight-booking web application: a passenger searches flights, picks a seat on a
seat map, fills in a passenger form, receives a tracking code, and later looks the booking up
by that code and follows the flight's live status. The application is a React front end over a
hosted table store. This project models the logic of that front end:

- the seat map: grouping seats into rows, ordering rows and columns, splitting each row at the
  aisle, class bands, and the one-seat selection;
- the booking helpers: tracking codes, boarding time, duration, and the store queries;
- the booking form's submit handler and the record and receipt it builds;
- the tracking page's search state machine and its reshaping of a stored booking;
- the live flight-status panel and its realtime handlers;
- the flight card shown in search results.

It also proves properties of each of these.

Modules, one file each:

| file | module | models |
|---|---|---|
| `wrappers.dfy` | `Wrappers` | `Option` (null/undefined) and `Call` (returned or threw) |
| `text.dfy` | `Text` | the JavaScript string built-ins the pages use: `parseInt`, `trim`, `split`/`join`, ASCII upper/lower case, number rendering |
| `ordering.dfy` | `Ordering` | the stable sort by an integer key that `order(...)` and `Array.prototype.sort` perform, and `limit(n)` |
| `grouping.dfy` | `Grouping` | grouping a list into per-key lists in first-occurrence order |
| `schema.dfy` | `Schema` | the store's rows (`flights`, `bookings`, `seat_map`, `flight_updates`) |
| `hosted_store.dfy` | `HostedStore` | the store's tables, queries and the unique tracking code; every call ends answered, with an error object, or rejected |
| `flight_service.dfy` | `FlightService` | `src/lib/flightService.ts` |
| `seat_selection.dfy` | `SeatSelection` | `src/components/SeatSelection.tsx` |
| `booking_form.dfy` | `BookingForm` | `src/components/BookingForm.tsx` |
| `track_booking.dfy` | `TrackBooking` | `src/pages/TrackBooking.tsx` |
| `render.dfy` | `Jsx` | how a `{guard && <element/>}` child renders |
| `flight_status.dfy` | `FlightStatus` | `src/components/FlightStatus.tsx` |
| `flight_card.dfy` | `FlightCard` | `src/components/FlightCard.tsx` |

Timestamps are epoch milliseconds (`int`) and prices are `real`. The store is a `class` whose
tables are fields. Each store call takes a `Reply` parameter that says how it ended. The
randomness of the tracking-code generator is a parameter too: the six alphabet indices it would
have drawn. Components that hold React state are classes whose fields are that state, with one
method per handler. An `async` handler is split at its `await` into a start method and a finish
method, and a third method composes the two. Pure computations are functions, and the
properties relating several of them are lemmas.

## Model

| member | source | states |
|---|---|---|
| Grouping.GroupBy | src/components/SeatSelection.tsx:50-57 | the grouping loop yields, for each key in first-occurrence order, exactly the elements with that key, in order |
| Grouping.GroupCount | src/components/SeatSelection.tsx:50-57 | every seat lands in the group of its own row key, as often as it occurs, and in no other group |
| Grouping.KeyOrderFacts | src/components/SeatSelection.tsx:50-57 | the group keys are distinct and are exactly the keys that occur |
| Grouping.GroupSnoc | src/components/SeatSelection.tsx:53-56 | one `push` extends only the group of the pushed seat's key; a new key is appended to the key order |
| Grouping.GroupOfAbsentKey | src/components/SeatSelection.tsx:53-55 | a key no seat has has an empty group |
| SeatSelection.RowKeyOfLabel | src/components/SeatSelection.tsx:52 | a label made of a row number and one letter is filed under that row number |
| SeatSelection.NumberedFacts | src/components/SeatSelection.tsx:59-60 | the numeric keys are exactly the row numbers among the keys, without repeats |
| SeatSelection.RowsAscendingAndComplete | src/components/SeatSelection.tsx:59-61 | the row list is strictly ascending and holds exactly the row numbers that occur in seat labels |
| SeatSelection.ColumnRank | src/components/SeatSelection.tsx:155-156 | the rank is 0 to 5 for a final letter A to F and -1 for any other last character |
| Ordering.SortInPlace | src/components/SeatSelection.tsx:154-157 | the in-place sort leaves the array equal to the stable sort of its old contents |
| Ordering.InsertDown | src/components/SeatSelection.tsx:154-157 | one step of the in-place sort inserts an element into the sorted suffix and leaves the prefix alone |
| Ordering.SortByOrders | src/components/SeatSelection.tsx:154-157 | the sorted sequence is ordered by the key and is a permutation of the input |
| Ordering.InsertKeepsOrder | src/components/SeatSelection.tsx:154-157 | inserting into a sorted sequence keeps it sorted |
| Ordering.InsertAdds | src/components/SeatSelection.tsx:154-157 | inserting adds exactly the one element |
| Ordering.InsertAt | src/components/SeatSelection.tsx:154-157 | an element is inserted before the first element whose key is not smaller |
| Ordering.SortSortedIsIdentity | src/components/SeatSelection.tsx:154-157 | sorting a sorted sequence changes nothing |
| Ordering.SortDistinctIsStrict | src/components/SeatSelection.tsx:59-61 | sorting distinct numbers gives a strictly ascending list |
| SeatSelection.LeftBeforeRight | src/components/SeatSelection.tsx:154-157 | in a sorted row, none of the first three seats (the left block) has a later column than any seat after them |
| SeatSelection.SortRowIdempotent | src/components/SeatSelection.tsx:154 | sorting by column is idempotent: a second sort leaves a sorted row unchanged |
| SeatSelection.RowViewSplitsAtAisle | src/components/SeatSelection.tsx:192-216 | the left block is the first three sorted seats, the right block the rest, together the whole row in order |
| SeatSelection.HeaderMarksBandStart | src/components/SeatSelection.tsx:159-183 | a heading names its row's band, and from row 2 on a heading appears exactly where the band changes |
| SeatSelection.LayoutRow | src/components/SeatSelection.tsx:154-216 | copying a row's seats into an array and sorting it in place yields the view of the stably sorted row |
| SeatSelection.GroupRows | src/components/SeatSelection.tsx:50-61 | the grouping loop and the row sort give the ascending row list and each row's group |
| SeatSelection.LayoutRows | src/components/SeatSelection.tsx:153-248 | laying out the rows one by one gives the view of each row, in row order |
| SeatSelection.BuildSeatMap | src/components/SeatSelection.tsx:50-248 | the whole render equals the seat-map specification function |
| SeatSelection.RowSeatsAreTheRowsGroup | src/components/SeatSelection.tsx:50-154 | the seats drawn in a row are the flight's seats filed under that row, each as often as it occurs |
| SeatSelection.ViewOfRow | src/components/SeatSelection.tsx:153-248 | entry i of the map is row i of the row list, and its two blocks are that row's sorted seats |
| SeatSelection.SeatMapRowsAscend | src/components/SeatSelection.tsx:59-153 | the seat map lists its rows in strictly ascending order |
| SeatSelection.DrawnSeatInItsRow | src/components/SeatSelection.tsx:153-248 | a seat drawn in a row is one of the flight's seats and is filed under that row |
| SeatSelection.SeatMapDrawsEverySeat | src/components/SeatSelection.tsx:50-248 | every seat whose label has a row number is drawn in that row exactly as often as it occurs |
| SeatSelection.ButtonAgreesWithLook | src/components/SeatSelection.tsx:63-75 | a seat button is disabled exactly when it looks occupied; the selected seat shows a check mark, other available seats their column letter |
| SeatSelection.AtMostOnePicked | src/components/SeatSelection.tsx:65 | with distinct seat ids, at most one seat looks selected |
| SeatSelection.SummaryOf | src/components/SeatSelection.tsx:259-283 | the summary shows the seat number, the capitalised class, the seat's features and the fare base price times modifier |
| SeatSelection.PremiumMeansDearer | src/components/SeatSelection.tsx:275 | for a positive base price the premium note appears exactly when the seat costs more than the base fare |
| SeatSelection.ConfirmLabel | src/components/SeatSelection.tsx:296 | the confirm label ends with the selected seat number, or with nothing when no seat is selected |
| SeatSelection.SeatPicker.constructor | src/components/SeatSelection.tsx:26-28 | the picker starts with no seats, no selection, loading |
| SeatSelection.SeatPicker.FetchSeats | src/components/SeatSelection.tsx:34-47 | an answer sets the flight's seats and an error keeps them, both ending the loading; a rejected call leaves loading as it was |
| SeatSelection.SeatPicker.HandleSeatClick | src/components/SeatSelection.tsx:77-80 | an available seat becomes the sole selection; a click on an occupied seat changes nothing |
| SeatSelection.SeatPicker.ConfirmEnabled | src/components/SeatSelection.tsx:293 | the confirm button is enabled exactly when a seat is selected |
| SeatSelection.SeatPicker.HandleConfirm | src/components/SeatSelection.tsx:82-86 | confirm hands on the selected seat exactly when there is one, and that seat is available |
| SeatSelection.SeatPicker.View | src/components/SeatSelection.tsx:88-300 | a spinner while loading; otherwise the seat map of the seats, the button's state, and a summary exactly when a seat is selected, which is that seat's summary at the base fare |
| Schema.SeatPrice | src/components/BookingForm.tsx:48 | a modifier of 1 charges the base price, and a modifier of at least 1 never charges less |
| FlightService.GenerateTrackingCode | src/lib/flightService.ts:110-117 | the loop builds "SW" followed by one alphabet symbol per draw, a well-formed tracking code |
| FlightService.AlphabetFacts | src/lib/flightService.ts:111 | the alphabet has 32 distinct upper-case letters and digits and none of 0, O, 1, I |
| FlightService.SymbolIndexOfLetters | src/lib/flightService.ts:111 | each of the alphabet's first 13 symbols is found at its own position |
| FlightService.SymbolIndexOfRest | src/lib/flightService.ts:111 | each of the alphabet's last 19 symbols is found at its own position |
| FlightService.DrawsOf | src/lib/flightService.ts:113-115 | the draws read back from a well-formed code are valid draws |
| FlightService.GeneratedCodeRoundTrip | src/lib/flightService.ts:110-117 | a generated code has length 8, starts with "SW", is upper case, and gives back its draws |
| FlightService.TrackingCodeFromDraws | src/lib/flightService.ts:110-117 | every well-formed code is what the generator makes from the draws read back from it |
| FlightService.BoardingTime | src/lib/flightService.ts:119-123 | boarding is exactly 2,700,000 ms (45 minutes) before departure |
| FlightService.JsRem | src/lib/flightService.ts:145 | the remainder takes the sign of the dividend and is smaller than the divisor in magnitude |
| FlightService.DurationSplitsMinutes | src/lib/flightService.ts:140-147 | for a non-negative gap, minutes lie in [0,60) and hours times 60 plus minutes is the gap in whole minutes |
| FlightService.DurationHoursReadBack | src/lib/flightService.ts:146 | the hours can be read back from the start of the duration text |
| FlightService.DurationMinutesReadBack | src/lib/flightService.ts:146 | after the hours and "h ", the minutes can be read back from the duration text |
| FlightService.DurationTextReadsBack | src/lib/flightService.ts:146 | both numbers of the duration text can be read back from it |
| FlightService.DurationAndBoardingExample | src/lib/flightService.ts:119-147 | a 12,600,000 ms gap is 3h 30m; a 10:00 departure boards at 09:15 |
| FlightService.NegativeGapMixesSigns | src/lib/flightService.ts:143-145 | a gap of minus half an hour comes out as -1 hours and -30 minutes |
| FlightService.FetchFlights | src/lib/flightService.ts:37-49 | an answer gives every flight in ascending departure order; an error answer gives an empty list; a rejection throws |
| FlightService.FetchFlightById | src/lib/flightService.ts:51-64 | an answer gives the flight with the id or null; an error answer gives null; a rejection throws |
| FlightService.FetchBookingByCode | src/lib/flightService.ts:66-82 | an answer gives the booking under the upper-cased code, with the flight of its flight id joined in; an error answer gives null; a rejection throws |
| FlightService.LookupIgnoresCase | src/lib/flightService.ts:73 | any two codes that differ only in letter case give the same lookup result, whatever the reply |
| FlightService.GeneratedCodeFoundInAnyCase | src/lib/flightService.ts:66-82 | a generated code typed in any mix of cases, its lower-case spelling included, finds the booking stored under that code |
| FlightService.ErrorLooksLikeMiss | src/lib/flightService.ts:76-79 | an error answer looks to the caller exactly like a lookup in an empty store |
| FlightService.CreateBooking | src/lib/flightService.ts:84-108 | the stored row comes back exactly when the insert succeeds; an error is thrown and nothing is stored |
| HostedStore.Store.InsertBooking | src/lib/flightService.ts:96-100 | an answered insert of an unused tracking code adds the row under that code, and nothing else changes |
| HostedStore.StoredRow | src/lib/flightService.ts:84-100 | the stored row carries every sent column, plus the store's id, status and creation time |
| HostedStore.FlightById | src/lib/flightService.ts:51-56 | a found flight is in the table with the id; null means no flight has the id |
| HostedStore.BookingByCode | src/lib/flightService.ts:66-74 | a booking is found exactly when its code is stored, with its flight joined in |
| HostedStore.FlightsByDeparture | src/lib/flightService.ts:38-41 | the flights in ascending departure order, none lost or added |
| HostedStore.UpdatesOf | src/components/FlightStatus.tsx:115-118 | exactly the updates of the flight |
| HostedStore.RecentUpdatesAreNewest | src/components/FlightStatus.tsx:114-120 | at most ten of the flight's updates, newest first, with no newer update left out |
| HostedStore.SeatsOf | src/components/SeatSelection.tsx:35-39 | the flight's seats, or none when the flight has no seat map |
| Ordering.TakeOfSortIsSmallest | src/components/FlightStatus.tsx:119-120 | the first n of a sorted sequence come from it, are in order, and nothing left out sorts before one kept |
| BookingForm.TotalPrice | src/components/BookingForm.tsx:48 | the total is the flight's price times the seat's price modifier |
| BookingForm.TotalPriceExample | src/components/BookingForm.tsx:48 | a 500 fare on a seat with modifier 1.5 costs 750 |
| BookingForm.GateOf | src/components/BookingForm.tsx:66-76 | the flight's gate when set and not empty, otherwise "TBA" |
| BookingForm.PhoneOrAbsent | src/components/BookingForm.tsx:64 | an empty phone is not sent, any other phone is sent as typed |
| BookingForm.RecordMatchesReceipt | src/components/BookingForm.tsx:58-79 | record and receipt carry the same code, seat, gate, boarding time and total; the name is first and last name joined by a space; an empty phone is absent |
| BookingForm.FilledFormSendsPhone | src/components/BookingForm.tsx:64-186 | a form that passes the required check always sends its phone |
| BookingForm.StripAsciiSpaceKeeps | src/components/BookingForm.tsx:164 | stripping surrounding whitespace keeps text that has none and removes a space added on each side |
| BookingForm.SanitizedEmailKeeps | src/components/BookingForm.tsx:164 | the e-mail input checks its value with line breaks removed and surrounding whitespace stripped; an address without either is checked as typed |
| BookingForm.ValidEmailOfParts | src/components/BookingForm.tsx:164 | a non-empty local part of allowed characters, an "@" and dot-separated valid labels make an address the e-mail input accepts |
| BookingForm.AcceptedEmailHasOneAt | src/components/BookingForm.tsx:164 | an accepted address has exactly one "@", with text on both sides, and is never empty |
| BookingForm.ValidDomainHasNoAt | src/components/BookingForm.tsx:164 | a valid domain is not empty and has no "@" |
| BookingForm.ValidDomainExample | src/components/BookingForm.tsx:164 | "b.c" is a valid domain |
| BookingForm.EmptyLabelRefused | src/components/BookingForm.tsx:164 | "b..c", with an empty label, is not a valid domain |
| BookingForm.ValidEmailExample | src/components/BookingForm.tsx:164 | "a@b.c" is a valid address |
| BookingForm.BookingFormView.constructor | src/components/BookingForm.tsx:39-46 | the form starts empty except for the signed-in user's e-mail, not processing |
| BookingForm.BookingFormView.Edit | src/components/BookingForm.tsx:135-197 | editing one input changes that input only |
| BookingForm.BookingFormView.SubmitEnabled | src/components/BookingForm.tsx:210 | the submit button is disabled exactly while processing |
| BookingForm.BookingFormView.SubmitFires | src/components/BookingForm.tsx:138-210 | a submit fires exactly when the button is enabled, every required input is filled and the e-mail input holds a valid address |
| BookingForm.BookingFormView.StartSubmit | src/components/BookingForm.tsx:52 | submitting starts processing and disables the button |
| BookingForm.BookingFormView.FinishSubmit | src/components/BookingForm.tsx:71-87 | a normal return completes with the receipt and confirms; a throw only reports the failure; processing ends either way |
| BookingForm.BookingFormView.HandleSubmit | src/components/BookingForm.tsx:50-88 | the page completes with the receipt and the booking is stored exactly when the insert succeeds; otherwise nothing is stored and a failure is reported |
| TrackBooking.NameSplitAtFirstSpace | src/pages/TrackBooking.tsx:64-65 | the first name is the text before the first space and the last name everything after it, unchanged |
| TrackBooking.NameRoundTrip | src/pages/TrackBooking.tsx:64-65 | first + " " + last splits back into first and last whenever first has no space |
| TrackBooking.NameRoundTripLosesSpacedFirstName | src/pages/TrackBooking.tsx:64-65 | "Mary Ann" and "Lee" come back as "Mary" and "Ann Lee" |
| TrackBooking.FlightViewOf | src/pages/TrackBooking.tsx:47-62 | the ticket's flight keeps the row's id, number and price, shows economy and no stops, and carries the duration text |
| TrackBooking.BookingViewFacts | src/pages/TrackBooking.tsx:40-75 | the transform throws exactly when the flight join is null; otherwise it keeps code, seat and status, shows "TBA" for a missing or empty gate and a missing boarding time, and leaves the passport empty |
| TrackBooking.StoredBookingShowsAsBooked | src/pages/TrackBooking.tsx:44-75 | a booking stored by the form shows the typed names, the receipt's code, seat, gate and boarding time |
| TrackBooking.StatusColor | src/pages/TrackBooking.tsx:97-112 | muted exactly for statuses other than confirmed, checked-in, boarded and cancelled |
| TrackBooking.StatusColorsDiffer | src/pages/TrackBooking.tsx:97-112 | the four active statuses get four different colours; completed looks like an unknown status |
| TrackBooking.StatusLabel | src/pages/TrackBooking.tsx:184 | only the first character is upper-cased |
| TrackBooking.StatusLabelExample | src/pages/TrackBooking.tsx:184 | "checked-in" shows as "Checked-in" |
| TrackBooking.TrackBookingPage.constructor | src/pages/TrackBooking.tsx:15-19 | the input starts with the code from the address, or empty |
| TrackBooking.TrackBookingPage.OnCodeInput | src/pages/TrackBooking.tsx:141 | the input holds the typed text upper-cased, with no lower-case letter left |
| TrackBooking.TrackBookingPage.SearchEnabled | src/pages/TrackBooking.tsx:146 | search is enabled exactly when the code is not blank and no search is running |
| TrackBooking.TrackBookingPage.StartSearch | src/pages/TrackBooking.tsx:31-34 | a search clears error, booking and flight id and starts searching |
| TrackBooking.TrackBookingPage.FinishSearch | src/pages/TrackBooking.tsx:39-85 | found sets the flight id and then the booking; a null flight join throws after the flight id is set; not found and a throw set their own messages; searching ends |
| TrackBooking.TrackBookingPage.HandleSearchWithCode | src/pages/TrackBooking.tsx:30-86 | a booking shows exactly when the upper-cased code is stored and its flight is found, and it is then that row's ticket joined with its flight; a store error reads as not found; a rejection gives the generic error |
| TrackBooking.TrackBookingPage.HandleSearch | src/pages/TrackBooking.tsx:88-91 | searches for the code in the input: the same outcomes as the search with that code, including which ticket is shown |
| TrackBooking.TrackBookingPage.ShowsFlightStatus | src/pages/TrackBooking.tsx:172-190 | the status panel is shown, for the booking's flight, exactly when a booking and a flight id are held |
| Jsx.And | src/components/FlightCard.tsx:31 | the result is truthy exactly when both operands are, and a falsy left operand is the result |
| Jsx.Render | src/components/FlightCard.tsx:45 | a value in child position never draws an element, and draws text exactly for numbers and strings |
| Jsx.Guarded | src/components/FlightStatus.tsx:236 | the element is drawn exactly when the guard is truthy; otherwise the guard itself is rendered |
| Jsx.GuardedShows | src/components/FlightStatus.tsx:236 | a guarded child shows something exactly when the guard is truthy or is 0, and 0 shows as the text "0" |
| FlightCard.DelayValue | src/components/FlightCard.tsx:27-31 | the prop is truthy exactly when it is a non-zero number |
| FlightCard.IsDelayed | src/components/FlightCard.tsx:31 | truthy exactly when a delay is given and positive; a zero delay gives the number 0 |
| FlightCard.DelayNoteAsWrittenShowsZero | src/components/FlightCard.tsx:45-50 | as written, the note area shows something for every delay of zero or more, and a zero delay draws "0" |
| FlightCard.DelayNoteShowsPositiveDelay | src/components/FlightCard.tsx:45-50 | the intended note shows exactly for a positive delay, its minutes read back from its text, and it differs from the written one only at zero |
| FlightCard.StopsLabelOfCount | src/components/FlightCard.tsx:79 | a non-zero label reads back its count, does not start with "D", and ends in "s" exactly for more than one stop |
| FlightCard.StopsLabelReadsBack | src/components/FlightCard.tsx:79 | "Direct Flight" exactly for no stops; different counts get different labels |
| FlightCard.SeatsLineReadsBack | src/components/FlightCard.tsx:32-104 | the seats line is drawn exactly when a count is given, reads back that count, and warns exactly below ten |
| FlightCard.CardShowsItsFlight | src/components/FlightCard.tsx:30-117 | select hands back the card's own flight; the direct badge goes with "Direct Flight"; the seats line shows exactly when a count is given; the delay area shows something for every delay of zero or more, the text "0" for zero, and otherwise the intended note |
| FlightStatus.StatusConfigFacts | src/components/FlightStatus.tsx:138-157 | an unknown status is muted, with the clock and its own name; the seven known ones get seven different captions; red exactly for delayed and cancelled |
| FlightStatus.ToastAgreesWithIcon | src/components/FlightStatus.tsx:82-88 | a delay gives a warning toast, a gate change an info toast, anything else a plain one, each carrying the update's message |
| FlightStatus.ToggleMessageDescribesNewSetting | src/components/FlightStatus.tsx:131-135 | the message chosen from the old value describes the new setting |
| FlightStatus.DelayWarningAsWrittenShowsZero | src/components/FlightStatus.tsx:236-245 | as written, the warning area shows something exactly for a delay of zero or more, and a zero delay draws the text "0" |
| FlightStatus.DelayWarningShowsPositiveDelay | src/components/FlightStatus.tsx:236-245 | the intended warning shows exactly for a positive delay, names its minutes, and differs from the written one only at zero |
| FlightStatus.GateLineShowsSetGate | src/components/FlightStatus.tsx:262-266 | the gate line shows exactly when a gate is set and not empty, and names that gate |
| FlightStatus.TimelineListsUpdates | src/components/FlightStatus.tsx:279-296 | the timeline shows exactly when there are updates, one entry per update in order with its icon |
| FlightStatus.FlightStatusPanel.constructor | src/components/FlightStatus.tsx:38-41 | no flight, no updates, notifications off, loading |
| FlightStatus.FlightStatusPanel.FetchFlight | src/components/FlightStatus.tsx:99-112 | an answer sets the flight or null; an error keeps the flight; loading ends unless the call rejected |
| FlightStatus.FlightStatusPanel.FetchUpdates | src/components/FlightStatus.tsx:114-127 | an answer sets the flight's ten newest updates; an error keeps the list |
| FlightStatus.FlightStatusPanel.OnFlightUpdated | src/components/FlightStatus.tsx:58-62 | the pushed row replaces the flight as a whole and an info toast is raised |
| FlightStatus.FlightStatusPanel.OnUpdateInserted | src/components/FlightStatus.tsx:76-89 | the new update is put in front with no cap, older entries keep their order, and its toast is raised |
| FlightStatus.FlightStatusPanel.ToggleNotifications | src/components/FlightStatus.tsx:129-136 | the switch flips and a success toast chosen from the old value is raised |
| FlightStatus.FlightStatusPanel.View | src/components/FlightStatus.tsx:172-298 | a spinner while loading, the unavailable notice without a flight, otherwise the panel of the flight, its updates and the bell setting |
| FlightStatus.PanelShowsFlight | src/components/FlightStatus.tsx:188-298 | the panel shows the status badge, a timeline exactly when there are updates and a bell that matches its title, both airport codes with their city names; the delay area shows something for every delay of zero or more, the text "0" for zero, and otherwise the intended warning |
| Text.ParseIntOfIntToString | src/components/SeatSelection.tsx:52 | parseInt reads back the decimal rendering of any integer, whatever text follows it, unless that text starts with a digit, x or X |
| Text.JoinSplit | src/pages/TrackBooking.tsx:65 | joining the pieces of a split with the separator gives back the string |
| Text.SplitAtFirstSpace | src/pages/TrackBooking.tsx:64-65 | splitting head + " " + tail, where head has no space, gives head and then the pieces of tail |
| Text.TrimEmptyIffBlank | src/pages/TrackBooking.tsx:146 | the trimmed code is empty exactly when the code is all whitespace |
| Text.Upper | src/pages/TrackBooking.tsx:141 | upper-casing keeps the length and upper-cases each character |
| Text.UpperForgetsCase | src/lib/flightService.ts:73 | strings that differ only in letter case have the same upper-case form |
| Text.Capitalize | src/pages/TrackBooking.tsx:184 | only the first character changes, to its upper-case form |

## Left out

- Realtime channels, their subscription and teardown, and the interleaving of concurrent
  handlers: each handler runs to completion as one step. A stale response that arrives after a
  newer one is not modelled.
- The URL-driven auto-search effect (`src/pages/TrackBooking.tsx:22-28`). The initial input
  value taken from the address is modelled.
- FlightService.BoardingTime: the source moves the departure back 45 minutes with
  `setMinutes(getMinutes() - 45)`, which works in the browser's local time. Across a
  daylight-saving change the real gap is then not 45 minutes; a spring-forward gap can even put
  boarding after departure. The model always subtracts 2,700,000 ms, because the time zone rules
  are not modelled.
- Locale and ISO formatting of times (`formatFlightTime`, `toLocaleString`, `toISOString`).
  Times stay epoch milliseconds.
- Floating-point detail: `toFixed`, `Number(...)` coercions, and the percentage in the premium
  note. Prices are `real`. `${flight.price}` on the card is a `real` field, not a string.
- Toasts are modelled by kind and message only. `console` logging, printing and `useAuth` are
  not modelled; the signed-in user's id and e-mail are parameters.
- The `maxLength={10}` limit on the tracking-code input, which the browser enforces.
- SeatSelection.RowKeyOfLabel: row numbers are unbounded integers. JavaScript numbers lose
  precision at 2^53 and above, so there `parseInt` and the object keys built from it may round
  to a neighbouring row number. `Text.ParseInt` has the same gap. Labels with such large row
  numbers are not expected in a seat map.
- Upper and lower case are ASCII only. JavaScript's full Unicode case mapping is not modelled.
- The order in which the store returns `seat_map` rows (`order('seat_number')` compares text by
  the database's collation) is taken as given: the seat list is an input in that order.
- Ties in `order(...)` are broken by table order, as a stable sort does. The store does not
  promise this.
- SeatSelection.RowsAscendingAndComplete: a seat whose label has no row number is filed under
  the key "NaN". The comparator then answers NaN, which makes it inconsistent, and for an
  inconsistent comparator ECMAScript leaves the order of the whole `rows` array
  implementation-defined. The model covers seat lists in which every label has a row number
  and leaves a "NaN" row out of the row list.
- An insert that the store committed but whose reply was lost: a rejected call is modelled as
  storing nothing.
- `src/lib/flightData.ts` (the `Booking` type the ticket uses) is not part of this model; its
  fields are taken from the transform in `src/pages/TrackBooking.tsx:44-75`.
- The engine's sort algorithm. `Array.prototype.sort` is stable, and the model uses a stable
  insertion sort, which gives the same result.
- The per-row mutation of `seatsByRow` by `sort`: the model copies the row into an array and
  sorts the copy in place, so the stored group keeps its original order.
- `src/pages/Index.tsx` and `src/integrations/supabase/types.ts`. The first is a static page.
  The second is type declarations, used only as the field list of the rows.
- The `status` and `bookingId` props, which `src/components/FlightCard.tsx` and
  `src/components/FlightStatus.tsx` accept but never read.

## Findings

| source | as written | input that shows it | evidently intended | confidence | as-written member | corrected member |
|---|---|---|---|---|---|---|
| src/components/FlightCard.tsx:31-50 | the delay note is guarded by `delayMinutes && delayMinutes > 0`, whose value is the number 0 when the delay is 0; React renders that 0 as text | `delayMinutes = 0` puts a stray "0" under the flight number | nothing is drawn unless the delay is positive | not executed | FlightCard.DelayNoteAsWrittenShowsZero | FlightCard.DelayNoteShowsPositiveDelay |
| src/components/FlightStatus.tsx:236 | the delay warning is guarded by `flight.delay_minutes && flight.delay_minutes > 0 && (...)`, which is the number 0 for an on-time flight whose `delay_minutes` is 0 | a flight row with `delay_minutes = 0` puts a stray "0" above the route | the warning area is empty unless the delay is positive | not executed | FlightStatus.DelayWarningAsWrittenShowsZero | FlightStatus.DelayWarningShowsPositiveDelay |
