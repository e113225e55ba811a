/**
 * The booking helpers of the flight service: tracking-code generation, boarding time,
 * flight duration, and the wrappers around the store's flight and booking queries.
 * `Math.random` is replaced by the six alphabet indices it would have drawn.
 */
module FlightService {
  import opened Wrappers
  import opened Text
  import opened Schema
  import opened HostedStore

  /** The 32 symbols a tracking code is drawn from: no 0, O, 1 or I. */
  const Alphabet: string := "ABCDEFGHJKLMNPQRSTUVWXYZ23456789"
  /** Every tracking code starts with these two characters. */
  const Prefix: string := "SW"
  const MinuteMs: int := 60000
  const HourMs: int := 3600000
  /** Boarding closes this long before departure. */
  const BoardingLeadMs: int := 45 * MinuteMs

  // ---------------------------------------------------------------------------
  // Tracking codes
  // ---------------------------------------------------------------------------

  /** Six draws of `Math.floor(Math.random() * chars.length)`, each an index into the alphabet. */
  predicate ValidDraws(draws: seq<int>) {
    |draws| == 6 && forall i :: 0 <= i < 6 ==> 0 <= draws[i] < |Alphabet|
  }

  /** The code the generator builds from the given draws. */
  function CodeOf(draws: seq<int>): string
    requires ValidDraws(draws)
  {
    Prefix + seq(6, i requires 0 <= i < 6 => Alphabet[draws[i]])
  }

  /** The shape of a tracking code: "SW" and six symbols of the alphabet. */
  predicate IsTrackingCode(s: string) {
    |s| == 8 && s[..2] == Prefix && forall i :: 2 <= i < 8 ==> s[i] in Alphabet
  }

  /** `generateTrackingCode()`: "SW" followed by one alphabet symbol per draw. */
  method GenerateTrackingCode(draws: seq<int>) returns (code: string)
    requires ValidDraws(draws)
    ensures code == CodeOf(draws)
    ensures IsTrackingCode(code)
  {
    code := Prefix;
    for i := 0 to 6
      invariant code == Prefix + seq(i, k requires 0 <= k < i => Alphabet[draws[k]])
    {
      code := code + [Alphabet[draws[i]]];
    }
  }

  /** The position of a symbol in the alphabet, computed from its character code (-1 for other characters). */
  function SymbolIndex(c: char): int {
    if 'A' <= c <= 'H' then c as int - 'A' as int
    else if 'J' <= c <= 'N' then c as int - 'A' as int - 1
    else if 'P' <= c <= 'Z' then c as int - 'A' as int - 2
    else if '2' <= c <= '9' then c as int - '2' as int + 24
    else -1
  }

  /** The draws that a well-formed tracking code was generated from. */
  function DrawsOf(code: string): (draws: seq<int>)
    requires IsTrackingCode(code)
    ensures ValidDraws(draws)
  {
    AlphabetFacts();
    seq(6, i requires 0 <= i < 6 => SymbolIndex(code[i + 2]))
  }

  /** The letters A to N of the alphabet (positions 0 to 12) are recovered from their character codes. */
  lemma SymbolIndexOfLetters()
    ensures |Alphabet| == 32
    ensures forall k :: 0 <= k < 13 ==> SymbolIndex(Alphabet[k]) == k
  {
  }

  /** The letters P to Z and the digits of the alphabet (positions 13 to 31) are recovered from their character codes. */
  lemma SymbolIndexOfRest()
    ensures forall k :: 13 <= k < 32 ==> SymbolIndex(Alphabet[k]) == k
  {
  }

  /** The alphabet has 32 distinct symbols and none of the look-alikes 0, O, 1, I; all are upper case or digits. */
  lemma AlphabetFacts()
    ensures |Alphabet| == 32
    ensures forall k :: 0 <= k < 32 ==> SymbolIndex(Alphabet[k]) == k
    ensures forall i, j :: 0 <= i < j < |Alphabet| ==> Alphabet[i] != Alphabet[j]
    ensures forall c :: c in Alphabet ==> 0 <= SymbolIndex(c) < 32
    ensures '0' !in Alphabet && 'O' !in Alphabet && '1' !in Alphabet && 'I' !in Alphabet
    ensures forall c :: c in Alphabet ==> ('A' <= c <= 'Z' || '2' <= c <= '9')
  {
    SymbolIndexOfLetters();
    SymbolIndexOfRest();
    forall i, j | 0 <= i < j < |Alphabet| ensures Alphabet[i] != Alphabet[j] {
      assert SymbolIndex(Alphabet[i]) == i && SymbolIndex(Alphabet[j]) == j;
    }
    forall c | c in Alphabet ensures 0 <= SymbolIndex(c) < 32 && ('A' <= c <= 'Z' || '2' <= c <= '9') && c !in "0O1I" {
      var k :| 0 <= k < 32 && Alphabet[k] == c;
      assert SymbolIndex(c) == k;
    }
  }

  /**
   * A generated code is well formed, avoids the look-alike characters and is already upper case,
   * and the draws can be read back from it: distinct draws give distinct codes.
   */
  lemma {:induction false} GeneratedCodeRoundTrip(draws: seq<int>)
    requires ValidDraws(draws)
    ensures var code := CodeOf(draws);
      && IsTrackingCode(code)
      && '0' !in code[2..] && 'O' !in code[2..] && '1' !in code[2..] && 'I' !in code[2..]
      && Upper(code) == code
      && DrawsOf(code) == draws
  {
    AlphabetFacts();
    var code := CodeOf(draws);
    assert code[..2] == Prefix;
    forall i | 0 <= i < 6 ensures SymbolIndex(code[i + 2]) == draws[i] {
      assert code[i + 2] == Alphabet[draws[i]];
    }
    forall i | 0 <= i < |code| ensures UpperChar(code[i]) == code[i] {
      if i >= 2 {
        assert code[i] in Alphabet;
      }
    }
  }

  /** Every well-formed tracking code is produced by the generator from the draws read back from it. */
  lemma {:induction false} TrackingCodeFromDraws(code: string)
    requires IsTrackingCode(code)
    ensures CodeOf(DrawsOf(code)) == code
  {
    AlphabetFacts();
    var draws := DrawsOf(code);
    var again := CodeOf(draws);
    assert again[..2] == code[..2];
    forall i | 0 <= i < 8 ensures again[i] == code[i] {
      if i < 2 {
        assert again[i] == again[..2][i] && code[i] == code[..2][i];
      } else {
        var k :| 0 <= k < 32 && Alphabet[k] == code[i];
        assert draws[i - 2] == k;
      }
    }
  }

  // ---------------------------------------------------------------------------
  // Times
  // ---------------------------------------------------------------------------

  /** `calculateBoardingTime(departure)`: 45 minutes earlier. */
  function BoardingTime(departure: int): (boarding: int)
    ensures departure - boarding == 2700000
  {
    departure - BoardingLeadMs
  }

  /** JavaScript's `%` on integers: the remainder takes the sign of the dividend. */
  function JsRem(a: int, b: int): (r: int)
    requires b > 0
    ensures a >= 0 ==> 0 <= r < b
    ensures a < 0 ==> -b < r <= 0
  {
    if a >= 0 then a % b else -((-a) % b)
  }

  /** The two numbers `calculateDuration` renders as "{hours}h {minutes}m". */
  datatype Span = Span(hours: int, minutes: int)

  /**
   * `calculateDuration(departure, arrival)`: whole hours by `Math.floor`, and whole minutes
   * of the JavaScript remainder by `Math.floor` (Dafny's `/` floors for a positive divisor).
   */
  function Duration(departure: int, arrival: int): Span {
    var diff := arrival - departure;
    Span(diff / HourMs, JsRem(diff, HourMs) / MinuteMs)
  }

  /** The text `calculateDuration` returns: "{hours}h {minutes}m". */
  function DurationText(d: Span): string {
    IntToString(d.hours) + "h " + IntToString(d.minutes) + "m"
  }

  /** The hours can be read back from the start of the duration text. */
  lemma DurationHoursReadBack(d: Span)
    ensures ParseInt(DurationText(d)) == Some(d.hours)
  {
    var rest := "h " + IntToString(d.minutes) + "m";
    assert DurationText(d) == IntToString(d.hours) + rest;
    ParseIntOfIntToString(d.hours, rest);
  }

  /** The minutes can be read back from the duration text after the hours and "h ". */
  lemma DurationMinutesReadBack(d: Span)
    ensures var k := |IntToString(d.hours)|;
      && k + 2 <= |DurationText(d)| && DurationText(d)[k..k + 2] == "h "
      && ParseInt(DurationText(d)[k + 2..]) == Some(d.minutes)
  {
    var k := |IntToString(d.hours)|;
    assert DurationText(d)[k + 2..] == IntToString(d.minutes) + "m";
    ParseIntOfIntToString(d.minutes, "m");
  }

  /** Both numbers can be read back from the text: the hours at its start, the minutes after "h ". */
  lemma DurationTextReadsBack(d: Span)
    ensures var text := DurationText(d);
      var k := |IntToString(d.hours)|;
      && ParseInt(text) == Some(d.hours)
      && k + 2 <= |text| && text[k..k + 2] == "h "
      && ParseInt(text[k + 2..]) == Some(d.minutes)
  {
    DurationHoursReadBack(d);
    DurationMinutesReadBack(d);
  }

  /** For a non-negative gap, the duration is the gap in whole minutes split into hours and minutes below 60. */
  lemma DurationSplitsMinutes(departure: int, arrival: int)
    requires arrival >= departure
    ensures var d := Duration(departure, arrival);
      0 <= d.minutes < 60 && d.hours >= 0 && d.hours * 60 + d.minutes == (arrival - departure) / MinuteMs
  {
    var diff := arrival - departure;
    var q, r := diff / HourMs, diff % HourMs;
    assert diff == q * HourMs + r;
    assert diff == (q * 60 + r / MinuteMs) * MinuteMs + r % MinuteMs;
  }

  /** The gap 10:00 to 13:30 is 3h 30m, and boarding for a 10:00 departure is at 09:15. */
  lemma DurationAndBoardingExample()
    ensures Duration(0, 12600000) == Span(3, 30)
    ensures BoardingTime(36000000) == 33300000
  {
  }

  /** A negative gap is not guarded: half an hour backwards renders as "-1h -30m". */
  lemma NegativeGapMixesSigns()
    ensures Duration(1800000, 0) == Span(-1, -30)
  {
  }

  // ---------------------------------------------------------------------------
  // Store wrappers
  // ---------------------------------------------------------------------------

  /** `fetchFlights()`: every flight by ascending departure; an error answer becomes an empty list. */
  function FetchFlights(flights: seq<DbFlight>, reply: Reply): (r: Call<seq<DbFlight>>)
    ensures reply == Rejected <==> r.Threw?
    ensures reply == ErrorReply ==> r == Returned([])
    ensures reply == Answered ==> r.Returned? && multiset(r.value) == multiset(flights)
    ensures reply == Answered ==> forall i, j :: 0 <= i < j < |r.value| ==> r.value[i].departureTime <= r.value[j].departureTime
  {
    match reply
    case Answered => Returned(FlightsByDeparture(flights))
    case ErrorReply => Returned([])
    case Rejected => Threw
  }

  /** `fetchFlightById(id)`: the flight with that id; an error answer becomes null. */
  function FetchFlightById(flights: seq<DbFlight>, id: string, reply: Reply): (r: Call<Option<DbFlight>>)
    ensures reply == Rejected <==> r.Threw?
    ensures reply == ErrorReply ==> r == Returned(None)
    ensures reply == Answered ==> r == Returned(FlightById(flights, id))
  {
    match reply
    case Answered => Returned(FlightById(flights, id))
    case ErrorReply => Returned(None)
    case Rejected => Threw
  }

  /** `fetchBookingByCode(code)`: looks the upper-cased code up; an error answer becomes null. */
  function FetchBookingByCode(bookings: map<string, DbBooking>, flights: seq<DbFlight>, code: string, reply: Reply)
    : (r: Call<Option<BookingWithFlight>>)
    ensures reply == Rejected <==> r.Threw?
    ensures reply == ErrorReply ==> r == Returned(None)
    ensures reply == Answered ==> r.Returned? && (r.value.Some? <==> Upper(code) in bookings)
    ensures reply == Answered && r.value.Some? ==> r.value.value.booking == bookings[Upper(code)]
    ensures reply == Answered && r.value.Some? ==> r.value.value.flight == FlightById(flights, bookings[Upper(code)].flightId)
  {
    match reply
    case Answered => Returned(BookingByCode(bookings, flights, Upper(code)))
    case ErrorReply => Returned(None)
    case Rejected => Threw
  }

  /** Codes that differ only in letter case give the same lookup result, whatever the reply. */
  lemma LookupIgnoresCase(bookings: map<string, DbBooking>, flights: seq<DbFlight>, s: string, t: string, reply: Reply)
    requires Upper(s) == Upper(t)
    ensures FetchBookingByCode(bookings, flights, s, reply) == FetchBookingByCode(bookings, flights, t, reply)
  {
  }

  /**
   * A generated code typed in any mix of cases (its lower-case spelling included) finds the
   * booking stored under that code.
   */
  lemma {:induction false} GeneratedCodeFoundInAnyCase(bookings: map<string, DbBooking>, flights: seq<DbFlight>, draws: seq<int>, typed: string)
    requires ValidDraws(draws)
    requires Upper(typed) == Upper(CodeOf(draws))
    ensures FetchBookingByCode(bookings, flights, typed, Answered) == Returned(BookingByCode(bookings, flights, CodeOf(draws)))
    ensures Upper(Lower(CodeOf(draws))) == Upper(CodeOf(draws))
  {
    GeneratedCodeRoundTrip(draws);
    UpperForgetsCase(CodeOf(draws));
  }

  /** A store error is indistinguishable from a miss: the caller sees what an empty store would give. */
  lemma ErrorLooksLikeMiss(bookings: map<string, DbBooking>, flights: seq<DbFlight>, code: string)
    ensures FetchBookingByCode(bookings, flights, code, ErrorReply) == FetchBookingByCode(map[], flights, code, Answered)
  {
  }

  /** `createBooking(b)`: inserts the booking and returns the stored row; an error answer is thrown, not returned as null. */
  method CreateBooking(store: Store, b: BookingInsert, reply: Reply, defaults: StoreDefaults) returns (r: Call<DbBooking>)
    requires store.Valid()
    modifies store
    ensures store.Valid()
    ensures r.Returned? <==> reply == Answered && b.trackingCode !in old(store.bookings)
    ensures r.Returned? ==> r.value == StoredRow(b, defaults)
    ensures r.Returned? ==> store.bookings == old(store.bookings)[b.trackingCode := r.value]
    ensures r.Threw? ==> store.bookings == old(store.bookings)
    ensures store.flights == old(store.flights) && store.seatMaps == old(store.seatMaps) && store.updates == old(store.updates)
  {
    if reply == Rejected {
      r := Threw;
      return;
    }
    var row := store.InsertBooking(b, reply, defaults);
    if row.None? {
      r := Threw;
    } else {
      r := Returned(row.value);
    }
  }
}
