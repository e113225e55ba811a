/**
 * One search result: the card that shows a flight's airline, times, route, stops, price and
 * remaining seats, flags a delay, and hands the flight back when "Select Flight" is pressed.
 */
module FlightCard {
  import opened Wrappers
  import opened Text
  import opened Jsx

  /** The flight as the card receives it; times and duration arrive already formatted. */
  datatype CardFlight = CardFlight(
    id: string,
    airline: string,
    flightNumber: string,
    origin: string,
    originCode: string,
    destination: string,
    destinationCode: string,
    departureTime: string,
    arrivalTime: string,
    duration: string,
    price: real,
    stops: int,
    aircraft: string)

  // ---------------------------------------------------------------------------
  // The delay note
  // ---------------------------------------------------------------------------

  /** The optional `delayMinutes` prop as a JavaScript value; absent and `null` both read as `null`. */
  function DelayValue(delayMinutes: Option<int>): (v: JsValue)
    ensures Truthy(v) <==> delayMinutes.Some? && delayMinutes.value != 0
  {
    if delayMinutes.None? then Null else Num(delayMinutes.value)
  }

  /** `isDelayed = delayMinutes && delayMinutes > 0` */
  function IsDelayed(delayMinutes: Option<int>): (v: JsValue)
    ensures Truthy(v) <==> delayMinutes.Some? && delayMinutes.value > 0
    ensures delayMinutes == Some(0) ==> v == Num(0)
  {
    And(DelayValue(delayMinutes), Bool(delayMinutes.Some? && delayMinutes.value > 0))
  }

  /** "Delayed {delayMinutes}min" */
  function DelayText(minutes: int): string {
    "Delayed " + IntToString(minutes) + "min"
  }

  /** `{isDelayed && (<div>…Delayed {delayMinutes}min</div>)}`, as the card writes it. */
  function DelayNoteAsWritten(delayMinutes: Option<int>): Child<string> {
    Guarded(IsDelayed(delayMinutes), DelayText(if delayMinutes.Some? then delayMinutes.value else 0))
  }

  /**
   * As written, the note shows for every delay of zero minutes or more: a positive delay draws
   * the note, and a delay of exactly zero draws the bare text "0" in its place.
   */
  lemma DelayNoteAsWrittenShowsZero(delayMinutes: Option<int>)
    ensures Visible(DelayNoteAsWritten(delayMinutes)) <==> delayMinutes.Some? && delayMinutes.value >= 0
    ensures DelayNoteAsWritten(Some(0)) == Chars("0")
  {
    GuardedShows(IsDelayed(delayMinutes), DelayText(if delayMinutes.Some? then delayMinutes.value else 0));
    GuardedShows(IsDelayed(Some(0)), DelayText(0));
  }

  /** The delay note as intended: drawn for a positive delay, nothing otherwise. */
  function DelayNote(delayMinutes: Option<int>): Child<string> {
    if delayMinutes.Some? && delayMinutes.value > 0 then Node(DelayText(delayMinutes.value)) else Nothing
  }

  /**
   * The intended note shows exactly for a positive delay, and the minutes can be read back from
   * its text; it differs from the note as written only for a delay of zero.
   */
  lemma DelayNoteShowsPositiveDelay(delayMinutes: Option<int>)
    ensures Visible(DelayNote(delayMinutes)) <==> delayMinutes.Some? && delayMinutes.value > 0
    ensures DelayNote(delayMinutes).Node? ==>
      var text := DelayNote(delayMinutes).node;
      text[..8] == "Delayed " && ParseInt(text[8..]) == delayMinutes
    ensures delayMinutes != Some(0) ==> DelayNoteAsWritten(delayMinutes) == DelayNote(delayMinutes)
  {
    if delayMinutes.Some? && delayMinutes.value > 0 {
      var m := delayMinutes.value;
      assert DelayText(m)[8..] == IntToString(m) + "min";
      ParseIntOfIntToString(m, "min");
    }
  }

  // ---------------------------------------------------------------------------
  // Stops and seats
  // ---------------------------------------------------------------------------

  /** `stops === 0 ? 'Direct Flight' : `${stops} Stop${stops > 1 ? 's' : ''}`` */
  function StopsLabel(stops: int): string {
    if stops == 0 then "Direct Flight" else IntToString(stops) + " Stop" + (if stops > 1 then "s" else "")
  }

  /** A label of one or more stops (or a negative count) starts with the count and not with "D". */
  lemma StopsLabelOfCount(stops: int)
    requires stops != 0
    ensures ParseInt(StopsLabel(stops)) == Some(stops)
    ensures StopsLabel(stops)[0] != 'D'
    ensures StopsLabel(stops)[|StopsLabel(stops)| - 1] == 's' <==> stops > 1
  {
    var rest := " Stop" + (if stops > 1 then "s" else "");
    var digits := IntToStringShape(stops, rest);
    assert StopsLabel(stops) == IntToString(stops) + rest;
    ParseIntOfIntToString(stops, rest);
  }

  /**
   * "Direct Flight" is the label of no stops and of nothing else; any other label starts with the
   * number of stops and ends in "s" exactly when there is more than one. Different counts get
   * different labels.
   */
  lemma StopsLabelReadsBack(stops: int, other: int)
    ensures StopsLabel(stops) == "Direct Flight" <==> stops == 0
    ensures stops != 0 ==> ParseInt(StopsLabel(stops)) == Some(stops)
    ensures stops != 0 ==> (StopsLabel(stops)[|StopsLabel(stops)| - 1] == 's' <==> stops > 1)
    ensures StopsLabel(stops) == StopsLabel(other) ==> stops == other
  {
    if stops != 0 {
      StopsLabelOfCount(stops);
    }
    if other != 0 {
      StopsLabelOfCount(other);
    }
  }

  /** `seatsLow = availableSeats !== undefined && availableSeats < 10` */
  function SeatsLow(availableSeats: Option<int>): bool {
    availableSeats.Some? && availableSeats.value < 10
  }

  /** The seats line: its text and whether it takes the warning colour. */
  datatype SeatsNote = SeatsNote(text: string, warning: bool)

  /** `{availableSeats !== undefined && (<div …>{availableSeats} seats left</div>)}` */
  function SeatsLine(availableSeats: Option<int>): Option<SeatsNote> {
    if availableSeats.None? then None
    else Some(SeatsNote(IntToString(availableSeats.value) + " seats left", SeatsLow(availableSeats)))
  }

  /** The line is drawn exactly when a seat count is given; it reads back that count and warns below ten. */
  lemma SeatsLineReadsBack(availableSeats: Option<int>)
    ensures SeatsLine(availableSeats).Some? <==> availableSeats.Some?
    ensures SeatsLine(availableSeats).Some? ==>
      && ParseInt(SeatsLine(availableSeats).value.text) == availableSeats
      && (SeatsLine(availableSeats).value.warning <==> availableSeats.value < 10)
  {
    if availableSeats.Some? {
      ParseIntOfIntToString(availableSeats.value, " seats left");
    }
  }

  // ---------------------------------------------------------------------------
  // The card
  // ---------------------------------------------------------------------------

  /** What the card draws, top to bottom, and the flight its button hands to `onSelect`. */
  datatype Card = Card(
    airline: string,
    details: string,
    delay: Child<string>,
    departureTime: string,
    originCode: string,
    duration: string,
    direct: bool,
    stopsLabel: string,
    arrivalTime: string,
    destinationCode: string,
    price: real,
    seats: Option<SeatsNote>,
    selects: CardFlight)

  /** `FlightCard({ flight, onSelect, availableSeats, status, delayMinutes })`; the `status` prop is never read. */
  function CardOf(flight: CardFlight, availableSeats: Option<int>, delayMinutes: Option<int>): Card {
    Card(
      flight.airline,
      flight.flightNumber + " · " + flight.aircraft,
      DelayNoteAsWritten(delayMinutes),
      flight.departureTime,
      flight.originCode,
      flight.duration,
      flight.stops == 0,
      StopsLabel(flight.stops),
      flight.arrivalTime,
      flight.destinationCode,
      flight.price,
      SeatsLine(availableSeats),
      flight)
  }

  /**
   * The card hands back the very flight it shows; the green "direct" badge goes with the
   * "Direct Flight" label; the seats line shows exactly when a seat count is given. The delay
   * area shows something for every delay of zero or more: the text "0" for a zero delay, and
   * otherwise exactly the intended note.
   */
  lemma CardShowsItsFlight(flight: CardFlight, availableSeats: Option<int>, delayMinutes: Option<int>)
    ensures var card := CardOf(flight, availableSeats, delayMinutes);
      && card.selects == flight
      && (card.direct <==> card.stopsLabel == "Direct Flight")
      && (Visible(card.delay) <==> delayMinutes.Some? && delayMinutes.value >= 0)
      && (delayMinutes == Some(0) ==> card.delay == Chars("0"))
      && (delayMinutes != Some(0) ==> card.delay == DelayNote(delayMinutes))
      && (card.seats.Some? <==> availableSeats.Some?)
  {
    StopsLabelReadsBack(flight.stops, 0);
    DelayNoteAsWrittenShowsZero(delayMinutes);
    DelayNoteShowsPositiveDelay(delayMinutes);
  }
}
