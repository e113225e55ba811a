/**
 * The booking-tracking page: the tracking-code input, the search handler that looks the code
 * up and reshapes the stored row into the ticket's form, and the status badge.
 */
module TrackBooking {
  import opened Wrappers
  import opened Text
  import opened Schema
  import opened HostedStore
  import opened Jsx
  import FlightService
  import BookingForm

  /** Shown when the lookup finds no booking. */
  const NotFoundMessage: string := "No booking found with this tracking code. Please check and try again."
  /** Shown when the search throws. */
  const SearchFailedMessage: string := "An error occurred while searching. Please try again."

  // ---------------------------------------------------------------------------
  // The ticket's view of a booking
  // ---------------------------------------------------------------------------

  /** The flight as the ticket shows it; the two times stay epoch milliseconds (their formatting is not modelled). */
  datatype FlightView = FlightView(
    id: string,
    airline: string,
    flightNumber: string,
    origin: string,
    originCode: string,
    destination: string,
    destinationCode: string,
    departureTime: int,
    arrivalTime: int,
    duration: string,
    price: real,
    cabin: string,
    stops: int,
    aircraft: string)

  datatype PassengerView = PassengerView(firstName: string, lastName: string, email: string, phone: string, passport: string)

  /** A time on the ticket, or "TBA". */
  datatype TimeShown = At(ms: int) | Tba

  datatype BookingView = BookingView(
    id: string,
    trackingCode: string,
    flight: FlightView,
    passenger: PassengerView,
    seat: string,
    gate: string,
    boardingTime: TimeShown,
    status: string,
    bookedAt: int)

  /** `name.split(' ')[0] || ''`: the text before the first space. */
  function FirstNameOf(name: string): string {
    Split(name)[0]
  }

  /** `name.split(' ').slice(1).join(' ') || ''`: everything after the first space, unchanged. */
  function LastNameOf(name: string): string {
    Join(Split(name)[1..])
  }

  /**
   * The name is cut at its first space: the first name is what comes before it and the last
   * name is everything after it; a name without a space is all first name.
   */
  lemma {:induction false} NameSplitAtFirstSpace(name: string)
    ensures ' ' !in name ==> FirstNameOf(name) == name && LastNameOf(name) == []
    ensures ' ' in name ==> var i := IndexOf(name, ' ');
      FirstNameOf(name) == name[..i] && LastNameOf(name) == name[i + 1..]
    ensures ' ' in name ==> FirstNameOf(name) + " " + LastNameOf(name) == name
  {
    if ' ' !in name {
      SplitWithoutSpace(name);
    } else {
      var i := IndexOf(name, ' ');
      var head, tail := name[..i], name[i + 1..];
      assert name == head + " " + tail;
      SplitAtFirstSpace(head, tail);
      assert Split(name)[1..] == Split(tail);
      JoinSplit(tail);
    }
  }

  /**
   * The name the booking form stores (first name, a space, last name) splits back into the
   * typed first and last name whenever the first name has no space in it.
   */
  lemma {:induction false} NameRoundTrip(first: string, last: string)
    requires ' ' !in first
    ensures FirstNameOf(first + " " + last) == first
    ensures LastNameOf(first + " " + last) == last
  {
    SplitAtFirstSpace(first, last);
    assert Split(first + " " + last)[1..] == Split(last);
    JoinSplit(last);
  }

  /** A first name with a space in it does not survive: "Mary Ann" + "Lee" comes back as "Mary" and "Ann Lee". */
  lemma NameRoundTripLosesSpacedFirstName()
    ensures FirstNameOf("Mary Ann" + " " + "Lee") == "Mary"
    ensures LastNameOf("Mary Ann" + " " + "Lee") == "Ann Lee"
  {
    assert "Mary Ann" + " " + "Lee" == "Mary" + " " + "Ann Lee";
    NameRoundTrip("Mary", "Ann Lee");
  }

  /** The row's flight as the ticket shows it: economy cabin, no stops, duration from the two times. */
  function FlightViewOf(flight: DbFlight): (v: FlightView)
    ensures v.id == flight.id && v.flightNumber == flight.flightNumber && v.price == flight.price
    ensures v.duration == FlightService.DurationText(FlightService.Duration(flight.departureTime, flight.arrivalTime))
    ensures v.cabin == "economy" && v.stops == 0
  {
    FlightView(flight.id, flight.airline, flight.flightNumber, flight.origin, flight.originCode,
               flight.destination, flight.destinationCode, flight.departureTime, flight.arrivalTime,
               FlightService.DurationText(FlightService.Duration(flight.departureTime, flight.arrivalTime)),
               flight.price, "economy", 0, flight.aircraftType)
  }

  /**
   * The transform of a found row into the ticket's `Booking`: it reads the joined flight's
   * fields, so a row whose flight join is null throws.
   */
  function BookingViewOf(found: BookingWithFlight): Call<BookingView> {
    match found.flight
    case None => Threw
    case Some(flight) =>
      var b := found.booking;
      Returned(BookingView(
        b.id,
        b.trackingCode,
        FlightViewOf(flight),
        PassengerView(FirstNameOf(b.passengerName), LastNameOf(b.passengerName), b.passengerEmail,
                      OrElse(b.passengerPhone, []), []),
        b.seatNumber,
        OrElse(b.gate, "TBA"),
        if b.boardingTime.Some? then At(b.boardingTime.value) else Tba,
        b.status,
        b.createdAt))
  }

  /**
   * The transform throws exactly when the flight join is null; otherwise the ticket carries the
   * row's code, seat and status, "TBA" for a missing gate or boarding time, and an empty
   * passport.
   */
  lemma BookingViewFacts(found: BookingWithFlight)
    ensures BookingViewOf(found).Threw? <==> found.flight.None?
    ensures BookingViewOf(found).Returned? ==>
      var v := BookingViewOf(found).value;
      var b := found.booking;
      && v.trackingCode == b.trackingCode && v.seat == b.seatNumber && v.status == b.status
      && (b.gate.None? ==> v.gate == "TBA")
      && (b.gate == Some([]) ==> v.gate == "TBA")
      && (b.gate.Some? && b.gate.value != [] ==> v.gate == b.gate.value)
      && (v.boardingTime == Tba <==> b.boardingTime.None?)
      && (b.passengerPhone.None? ==> v.passenger.phone == [])
      && v.passenger.passport == []
      && v.flight.id == found.flight.value.id
  {
  }

  /**
   * A booking stored by the booking form shows up on the ticket with the passenger's typed
   * names (when the first name has no space), the form's gate, its boarding time and its seat.
   */
  lemma {:induction false} StoredBookingShowsAsBooked(flight: DbFlight, seat: Seat, form: BookingForm.FormData,
                                                     userId: Option<string>, code: string, defaults: StoreDefaults)
    requires ' ' !in form.firstName
    ensures var row := StoredRow(BookingForm.RecordOf(flight, seat, form, userId, code), defaults);
      var rcp := BookingForm.ReceiptOf(flight, seat, form, code);
      var v := BookingViewOf(BookingWithFlight(row, Some(flight)));
      && v.Returned?
      && v.value.trackingCode == rcp.trackingCode
      && v.value.passenger.firstName == form.firstName
      && v.value.passenger.lastName == form.lastName
      && v.value.seat == rcp.seat
      && v.value.gate == rcp.gate
      && v.value.boardingTime == At(rcp.boardingTime)
  {
    NameRoundTrip(form.firstName, form.lastName);
  }

  // ---------------------------------------------------------------------------
  // The status badge
  // ---------------------------------------------------------------------------

  /** `getStatusColor(status)` */
  function StatusColor(status: string): (tone: Tone)
    ensures tone == MutedTone <==> status != "confirmed" && status != "checked-in" && status != "boarded" && status != "cancelled"
  {
    if status == "confirmed" then PrimaryTone
    else if status == "checked-in" then SuccessTone
    else if status == "boarded" then AccentTone
    else if status == "completed" then MutedTone
    else if status == "cancelled" then DestructiveTone
    else MutedTone
  }

  /** The four active statuses get four different colours; a completed booking looks like an unknown status. */
  lemma StatusColorsDiffer(s: string, t: string)
    requires s in ["confirmed", "checked-in", "boarded", "cancelled"]
    requires t in ["confirmed", "checked-in", "boarded", "cancelled"]
    ensures StatusColor(s) == StatusColor(t) <==> s == t
    ensures StatusColor("completed") == StatusColor("refunded")
  {
  }

  /** `status.charAt(0).toUpperCase() + status.slice(1)`: only the first character changes. */
  function StatusLabel(status: string): (shown: string)
    ensures |shown| == |status|
    ensures shown != [] ==> shown[0] == UpperChar(status[0]) && shown[1..] == status[1..]
  {
    Capitalize(status)
  }

  /** "checked-in" is shown as "Checked-in", not "Checked-In". */
  lemma StatusLabelExample()
    ensures StatusLabel("checked-in") == "Checked-in"
  {
  }

  // ---------------------------------------------------------------------------
  // The page
  // ---------------------------------------------------------------------------

  class TrackBookingPage {
    /** `trackingCode`, the input's value */
    var trackingCode: string
    /** `booking` */
    var booking: Option<BookingView>
    /** `flightId` */
    var flightId: Option<string>
    /** `error` ("" when there is none) */
    var error: string
    /** `isSearching` */
    var isSearching: bool

    /** The initial page: the input holds the `code` query parameter, or "" without one. */
    constructor (urlCode: Option<string>)
      ensures trackingCode == OrElse(urlCode, [])
      ensures booking == None && flightId == None && error == [] && !isSearching
    {
      trackingCode := OrElse(urlCode, []);
      booking := None;
      flightId := None;
      error := [];
      isSearching := false;
    }

    /** The input's `onChange`: the typed text is kept upper-cased. */
    method OnCodeInput(text: string)
      modifies this
      ensures trackingCode == Upper(text)
      ensures forall i :: 0 <= i < |trackingCode| ==> !('a' <= trackingCode[i] <= 'z')
      ensures booking == old(booking) && flightId == old(flightId) && error == old(error) && isSearching == old(isSearching)
    {
      trackingCode := Upper(text);
    }

    /** The search button is enabled unless the trimmed code is empty or a search is running. */
    function SearchEnabled(): (enabled: bool)
      reads this
      ensures enabled <==> !IsBlank(trackingCode) && !isSearching
    {
      TrimEmptyIffBlank(trackingCode);
      Trim(trackingCode) != [] && !isSearching
    }

    /** The first steps of `handleSearchWithCode`: clear the error, the booking and the flight id, and start searching. */
    method StartSearch()
      modifies this
      ensures error == [] && booking == None && flightId == None && isSearching
      ensures trackingCode == old(trackingCode)
    {
      error := [];
      booking := None;
      flightId := None;
      isSearching := true;
    }

    /**
     * The rest of `handleSearchWithCode` once the lookup has settled. A found row sets the flight
     * id first and then the transformed booking; a null flight join makes the transform throw
     * after the flight id is set. No row sets the not-found message; a throw sets the generic one.
     * Every path ends the search.
     */
    method FinishSearch(lookup: Call<Option<BookingWithFlight>>)
      modifies this
      ensures !isSearching && trackingCode == old(trackingCode)
      ensures lookup.Threw? ==> error == SearchFailedMessage && booking == old(booking) && flightId == old(flightId)
      ensures lookup == Returned(None) ==> error == NotFoundMessage && booking == old(booking) && flightId == old(flightId)
      ensures lookup.Returned? && lookup.value.Some? ==>
        var found := lookup.value.value;
        && flightId == Some(found.booking.flightId)
        && (found.flight.Some? ==> booking == Some(BookingViewOf(found).value) && error == old(error))
        && (found.flight.None? ==> booking == old(booking) && error == SearchFailedMessage)
    {
      match lookup {
        case Threw =>
          error := SearchFailedMessage;
        case Returned(None) =>
          error := NotFoundMessage;
        case Returned(Some(found)) =>
          flightId := Some(found.booking.flightId);
          var view := BookingViewOf(found);
          if view.Threw? {
            error := SearchFailedMessage;
          } else {
            booking := Some(view.value);
          }
      }
      isSearching := false;
    }

    /**
     * `handleSearchWithCode(code)` against the store: a booking is shown exactly when the
     * upper-cased code is stored and its flight is found; a store error reads as "not found".
     */
    method HandleSearchWithCode(bookings: map<string, DbBooking>, flights: seq<DbFlight>, code: string, reply: Reply)
      modifies this
      ensures !isSearching && trackingCode == old(trackingCode)
      ensures reply == Rejected ==> error == SearchFailedMessage && booking == None && flightId == None
      ensures reply == ErrorReply ==> error == NotFoundMessage && booking == None && flightId == None
      ensures reply == Answered && Upper(code) !in bookings ==> error == NotFoundMessage && booking == None && flightId == None
      ensures reply == Answered && Upper(code) in bookings ==>
        var b := bookings[Upper(code)];
        && flightId == Some(b.flightId)
        && (booking.Some? <==> FlightById(flights, b.flightId).Some?)
        && (booking.Some? ==> error == [] && booking.value.trackingCode == b.trackingCode)
        && (booking.None? ==> error == SearchFailedMessage)
        && (booking.Some? ==> booking == Some(BookingViewOf(BookingWithFlight(b, FlightById(flights, b.flightId))).value))
    {
      StartSearch();
      var lookup := FlightService.FetchBookingByCode(bookings, flights, code, reply);
      FinishSearch(lookup);
    }

    /** The form's `onSubmit`: searches for the code in the input. */
    method HandleSearch(bookings: map<string, DbBooking>, flights: seq<DbFlight>, reply: Reply)
      modifies this
      ensures !isSearching && trackingCode == old(trackingCode)
      ensures reply == Rejected ==> error == SearchFailedMessage && booking == None && flightId == None
      ensures reply == ErrorReply ==> error == NotFoundMessage && booking == None && flightId == None
      ensures reply == Answered && Upper(old(trackingCode)) !in bookings ==> error == NotFoundMessage && booking == None && flightId == None
      ensures reply == Answered && Upper(old(trackingCode)) in bookings ==>
        var b := bookings[Upper(old(trackingCode))];
        && flightId == Some(b.flightId)
        && (booking.Some? <==> FlightById(flights, b.flightId).Some?)
        && (booking.Some? ==> error == [] && booking.value.trackingCode == b.trackingCode)
        && (booking.None? ==> error == SearchFailedMessage)
        && (booking.Some? ==> booking == Some(BookingViewOf(BookingWithFlight(b, FlightById(flights, b.flightId))).value))
    {
      HandleSearchWithCode(bookings, flights, trackingCode, reply);
    }

    /** The flight-status panel is drawn only together with a booking (`booking && … flightId && …`). */
    function ShowsFlightStatus(): (shown: Option<string>)
      reads this
      ensures shown.Some? <==> booking.Some? && flightId.Some?
      ensures shown.Some? ==> shown == flightId
    {
      if booking.Some? && flightId.Some? then flightId else None
    }
  }
}
