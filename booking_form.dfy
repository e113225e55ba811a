/**
 * The passenger-details form: the fare of the chosen seat, and the submit handler that
 * generates a tracking code, stores the booking and hands a receipt to the page. The
 * browser's `required` check, its check of the `type="email"` input and the disabled submit
 * button decide when a submit happens.
 */
module BookingForm {
  import opened Wrappers
  import opened Text
  import opened Schema
  import opened HostedStore
  import FlightService

  /** The form's inputs. */
  datatype FormData = FormData(firstName: string, lastName: string, email: string, phone: string, passport: string)

  /** One input of the form. */
  datatype Field = FirstName | LastName | Email | Phone | Passport

  /** What `onComplete` receives: the booking as the confirmation page shows it. */
  datatype Receipt = Receipt(
    trackingCode: string,
    flight: DbFlight,
    passenger: FormData,
    seat: string,
    gate: string,
    boardingTime: int,
    totalPrice: real)

  /** The success and failure notices the handler raises. */
  datatype Notice = Confirmed | Failed

  /** `totalPrice`: the flight's price times the seat's price modifier. */
  function TotalPrice(flight: DbFlight, seat: Seat): (total: real)
    ensures total == SeatPrice(flight.price, seat)
    ensures seat.priceModifier == 1.0 ==> total == flight.price
  {
    flight.price * seat.priceModifier
  }

  /** A 500 fare on a seat with modifier 1.5 costs 750. */
  lemma TotalPriceExample(flight: DbFlight, seat: Seat)
    requires flight.price == 500.0 && seat.priceModifier == 1.5
    ensures TotalPrice(flight, seat) == 750.0
  {
  }

  /** `flight.gate || 'TBA'` */
  function GateOf(flight: DbFlight): (gate: string)
    ensures gate != []
    ensures flight.gate.Some? && flight.gate.value != [] ==> gate == flight.gate.value
    ensures flight.gate.None? || flight.gate.value == [] ==> gate == "TBA"
  {
    OrElse(flight.gate, "TBA")
  }

  /** `formData.phone || undefined`: an empty phone is not sent. */
  function PhoneOrAbsent(phone: string): (sent: Option<string>)
    ensures sent.None? <==> phone == []
    ensures sent.Some? ==> sent.value == phone
  {
    if phone == [] then None else Some(phone)
  }

  /** The object handed to `createBooking`. */
  function RecordOf(flight: DbFlight, seat: Seat, form: FormData, userId: Option<string>, code: string): BookingInsert {
    BookingInsert(
      userId,
      flight.id,
      code,
      form.firstName + " " + form.lastName,
      form.email,
      PhoneOrAbsent(form.phone),
      seat.seatNumber,
      Some(GateOf(flight)),
      Some(FlightService.BoardingTime(flight.departureTime)),
      TotalPrice(flight, seat))
  }

  /** The object handed to `onComplete`. */
  function ReceiptOf(flight: DbFlight, seat: Seat, form: FormData, code: string): Receipt {
    Receipt(code, flight, form, seat.seatNumber, GateOf(flight), FlightService.BoardingTime(flight.departureTime), TotalPrice(flight, seat))
  }

  /**
   * The stored record and the receipt are built from the same values: the same tracking code,
   * seat, gate, boarding time and total; the stored name is first and last name joined by a
   * space; an empty phone is stored as absent; the gate falls back to "TBA" in both.
   */
  lemma RecordMatchesReceipt(flight: DbFlight, seat: Seat, form: FormData, userId: Option<string>, code: string)
    ensures var rec := RecordOf(flight, seat, form, userId, code);
      var rcp := ReceiptOf(flight, seat, form, code);
      && rec.trackingCode == rcp.trackingCode == code
      && rec.seatNumber == rcp.seat == seat.seatNumber
      && rec.gate == Some(rcp.gate)
      && rec.boardingTime == Some(rcp.boardingTime)
      && rec.totalPrice == rcp.totalPrice
      && rec.flightId == rcp.flight.id == flight.id
      && rec.passengerName == rcp.passenger.firstName + " " + rcp.passenger.lastName
      && rec.passengerEmail == rcp.passenger.email
      && (rec.passengerPhone.None? <==> rcp.passenger.phone == [])
      && (flight.gate.None? ==> rcp.gate == "TBA")
      && flight.departureTime - rcp.boardingTime == 2700000
  {
  }

  /** Every input is non-empty: what the browser's `required` check demands before it fires the submit event. */
  predicate Filled(form: FormData) {
    form.firstName != [] && form.lastName != [] && form.email != [] && form.phone != [] && form.passport != []
  }

  /** A filled-in form never stores an absent phone. */
  lemma FilledFormSendsPhone(flight: DbFlight, seat: Seat, form: FormData, userId: Option<string>, code: string)
    requires Filled(form)
    ensures RecordOf(flight, seat, form, userId, code).passengerPhone == Some(form.phone)
  {
  }

  // ---------------------------------------------------------------------------
  // The browser's check of the `type="email"` input
  // ---------------------------------------------------------------------------

  /** ASCII whitespace: tab, line feed, form feed, carriage return and space. */
  predicate AsciiSpace(c: char) {
    c == '\t' || c == '\n' || c == '\U{C}' || c == '\r' || c == ' '
  }

  /** Removes every line feed and carriage return. */
  function StripNewlines(s: string): (r: string)
    ensures forall k :: 0 <= k < |r| ==> r[k] != '\n' && r[k] != '\r'
    ensures |r| <= |s|
  {
    if s == [] then []
    else (if s[0] == '\n' || s[0] == '\r' then [] else [s[0]]) + StripNewlines(s[1..])
  }

  /** Removes leading and trailing ASCII whitespace. */
  function StripAsciiSpace(s: string): (r: string)
    ensures r == [] || (!AsciiSpace(r[0]) && !AsciiSpace(r[|r| - 1]))
    ensures |r| <= |s|
  {
    if s != [] && AsciiSpace(s[0]) then StripAsciiSpace(s[1..])
    else if s != [] && AsciiSpace(s[|s| - 1]) then StripAsciiSpace(s[..|s| - 1])
    else s
  }

  /** The value an e-mail input checks: newlines removed, then surrounding whitespace stripped. */
  function SanitizedEmail(s: string): string {
    StripAsciiSpace(StripNewlines(s))
  }

  predicate Alnum(c: char) {
    ('a' <= c <= 'z') || ('A' <= c <= 'Z') || ('0' <= c <= '9')
  }

  /** A character allowed before the "@" of a valid e-mail address: a letter, a digit or one of .!#$%&'*+/=?^_`{|}~- */
  predicate LocalChar(c: char) {
    || Alnum(c) || c == '!' || ('#' <= c <= '\'') || c == '*' || c == '+' || ('-' <= c <= '/')
    || c == '=' || c == '?' || ('^' <= c <= '`') || ('{' <= c <= '~')
  }

  /** The part before the "@": one or more allowed characters. */
  predicate ValidLocal(l: string) {
    l != [] && forall k :: 0 <= k < |l| ==> LocalChar(l[k])
  }

  /** One domain label: 1 to 63 letters, digits and hyphens, starting and ending with a letter or digit. */
  predicate ValidLabel(l: string) {
    && 1 <= |l| <= 63
    && Alnum(l[0]) && Alnum(l[|l| - 1])
    && forall k :: 0 <= k < |l| ==> Alnum(l[k]) || l[k] == '-'
  }

  /** One or more valid labels separated by dots. */
  predicate ValidDomain(d: string)
    decreases |d|
  {
    var i := IndexOf(d, '.');
    if i == -1 then ValidLabel(d) else ValidLabel(d[..i]) && ValidDomain(d[i + 1..])
  }

  /**
   * A valid e-mail address as the HTML standard defines it for `<input type="email">`: one or
   * more local-part characters, an "@", and a domain of dot-separated labels.
   */
  predicate ValidEmail(s: string) {
    var i := IndexOf(s, '@');
    i > 0 && ValidLocal(s[..i]) && ValidDomain(s[i + 1..])
  }

  /** The e-mail input raises no type mismatch: its sanitized value is a valid e-mail address. */
  predicate EmailAccepted(email: string) {
    ValidEmail(SanitizedEmail(email))
  }

  /** A valid domain has no "@" and is not empty. */
  lemma {:induction false} ValidDomainHasNoAt(d: string)
    requires ValidDomain(d)
    ensures d != [] && '@' !in d
    decreases |d|
  {
    var i := IndexOf(d, '.');
    if i == -1 {
      assert forall k :: 0 <= k < |d| ==> d[k] != '@';
    } else {
      ValidDomainHasNoAt(d[i + 1..]);
      assert d == d[..i] + ['.'] + d[i + 1..];
      assert forall k :: 0 <= k < i ==> d[..i][k] != '@';
    }
  }

  /**
   * An accepted address has exactly one "@", with at least one character on each side; an
   * accepted address is never empty, so `required` is met as well.
   */
  lemma AcceptedEmailHasOneAt(email: string)
    requires EmailAccepted(email)
    ensures var t := SanitizedEmail(email);
      var i := IndexOf(t, '@');
      && 0 < i < |t| - 1
      && '@' !in t[..i]
      && '@' !in t[i + 1..]
    ensures email != []
  {
    var t := SanitizedEmail(email);
    var i := IndexOf(t, '@');
    ValidDomainHasNoAt(t[i + 1..]);
  }

  /** Text without line breaks is left alone by the newline removal. */
  lemma {:induction false} StripNewlinesKeeps(s: string)
    requires forall k :: 0 <= k < |s| ==> s[k] != '\n' && s[k] != '\r'
    ensures StripNewlines(s) == s
  {
    if s != [] {
      StripNewlinesKeeps(s[1..]);
      assert s == [s[0]] + s[1..];
    }
  }

  /** Stripping keeps text without surrounding whitespace, and removes one space added on each side. */
  lemma StripAsciiSpaceKeeps(s: string)
    requires s != [] && !AsciiSpace(s[0]) && !AsciiSpace(s[|s| - 1])
    ensures StripAsciiSpace(s) == s
    ensures StripAsciiSpace(" " + s + " ") == s
  {
    var padded := " " + s + " ";
    assert padded[1..] == s + " ";
    assert (s + " ")[..|s|] == s;
    assert StripAsciiSpace(s + " ") == StripAsciiSpace(s);
  }

  /** Sanitizing keeps an address without line breaks or surrounding whitespace, and strips one space on each side. */
  lemma SanitizedEmailKeeps(s: string)
    requires forall k :: 0 <= k < |s| ==> s[k] != '\n' && s[k] != '\r'
    requires s != [] && !AsciiSpace(s[0]) && !AsciiSpace(s[|s| - 1])
    ensures SanitizedEmail(s) == s
    ensures SanitizedEmail(" " + s + " ") == s
  {
    StripNewlinesKeeps(s);
    var padded := " " + s + " ";
    forall k | 0 <= k < |padded| ensures padded[k] != '\n' && padded[k] != '\r' {
      if 0 < k < |padded| - 1 {
        assert padded[k] == s[k - 1];
      }
    }
    StripNewlinesKeeps(padded);
    StripAsciiSpaceKeeps(s);
  }

  /** The first "@" after a valid local part is the one that follows it. */
  lemma IndexOfAfterLocal(local: string, domain: string)
    requires ValidLocal(local)
    ensures IndexOf(local + "@" + domain, '@') == |local|
  {
    var s := local + "@" + domain;
    assert s[|local|] == '@' && s[..|local|] == local;
    assert '@' !in local by {
      forall k | 0 <= k < |local| ensures local[k] != '@' { assert LocalChar(local[k]); }
    }
  }

  /** A valid local part, an "@" and a valid domain make a valid address. */
  lemma ValidEmailOfParts(local: string, domain: string)
    requires ValidLocal(local) && ValidDomain(domain)
    ensures ValidEmail(local + "@" + domain)
  {
    IndexOfAfterLocal(local, domain);
    var s := local + "@" + domain;
    assert s[..|local|] == local;
    assert s[|local| + 1..] == domain;
  }

  /** "b.c" is a valid domain. */
  lemma ValidDomainExample()
    ensures ValidDomain("b.c")
  {
    assert IndexOf("c", '.') == -1;
    assert IndexOf("b.c", '.') == 1 && "b.c"[..1] == "b" && "b.c"[2..] == "c";
  }

  /** "b..c", with an empty label between the dots, is not a valid domain. */
  lemma EmptyLabelRefused()
    ensures !ValidDomain("b..c")
  {
    assert IndexOf(".c", '.') == 0 && ".c"[..0] == [];
    assert IndexOf("b..c", '.') == 1 && "b..c"[2..] == ".c";
  }

  /** "a@b.c" is a valid address. */
  lemma ValidEmailExample()
    ensures ValidEmail("a@b.c")
  {
    ValidDomainExample();
    assert ValidLocal("a");
    ValidEmailOfParts("a", "b.c");
    assert "a" + "@" + "b.c" == "a@b.c";
  }

  class BookingFormView {
    /** `formData` */
    var form: FormData
    /** `isProcessing` */
    var isProcessing: bool
    /** The receipts handed to `onComplete`, oldest first. */
    var completions: seq<Receipt>
    /** The notices raised, oldest first. */
    var notices: seq<Notice>

    /** The initial form: empty inputs except the e-mail, which is the signed-in user's (`user?.email || ''`). */
    constructor (userEmail: Option<string>)
      ensures form == FormData([], [], OrElse(userEmail, []), [], [])
      ensures !isProcessing && completions == [] && notices == []
    {
      form := FormData([], [], OrElse(userEmail, []), [], []);
      isProcessing := false;
      completions := [];
      notices := [];
    }

    /** `setFormData({ ...formData, field: value })`: one input changes, the others keep their values. */
    method Edit(field: Field, value: string)
      modifies this
      ensures field == FirstName ==> form == old(form).(firstName := value)
      ensures field == LastName ==> form == old(form).(lastName := value)
      ensures field == Email ==> form == old(form).(email := value)
      ensures field == Phone ==> form == old(form).(phone := value)
      ensures field == Passport ==> form == old(form).(passport := value)
      ensures isProcessing == old(isProcessing) && completions == old(completions) && notices == old(notices)
    {
      match field
      case FirstName => form := form.(firstName := value);
      case LastName => form := form.(lastName := value);
      case Email => form := form.(email := value);
      case Phone => form := form.(phone := value);
      case Passport => form := form.(passport := value);
    }

    /** The submit button is enabled unless a submission is running (`disabled={isProcessing}`). */
    function SubmitEnabled(): (enabled: bool)
      reads this
      ensures enabled <==> !isProcessing
    {
      !isProcessing
    }

    /**
     * The submit event fires exactly when the button is enabled, every required input is filled
     * and the e-mail input holds a valid address.
     */
    function SubmitFires(): (fires: bool)
      reads this
      ensures fires ==> SubmitEnabled() && form.phone != []
      ensures fires <==> !isProcessing && Filled(form) && EmailAccepted(form.email)
    {
      SubmitEnabled() && Filled(form) && EmailAccepted(form.email)
    }

    /** `setIsProcessing(true)`: the first step of `handleSubmit`. */
    method StartSubmit()
      modifies this
      ensures isProcessing && !SubmitEnabled()
      ensures form == old(form) && completions == old(completions) && notices == old(notices)
    {
      isProcessing := true;
    }

    /**
     * The rest of `handleSubmit` once `createBooking` has settled: on a normal return the receipt
     * goes to `onComplete` and a confirmation is raised; on a throw only a failure notice is
     * raised; either way `isProcessing` ends false (`finally`).
     */
    method FinishSubmit(created: Call<DbBooking>, receipt: Receipt)
      modifies this
      ensures !isProcessing && SubmitEnabled()
      ensures created.Returned? ==> completions == old(completions) + [receipt] && notices == old(notices) + [Confirmed]
      ensures created.Threw? ==> completions == old(completions) && notices == old(notices) + [Failed]
      ensures form == old(form)
    {
      if created.Returned? {
        completions := completions + [receipt];
        notices := notices + [Confirmed];
      } else {
        notices := notices + [Failed];
      }
      isProcessing := false;
    }

    /**
     * `handleSubmit`: a tracking code is drawn, the booking is stored, and the page completes with
     * the receipt only when the store call returned normally. The form's inputs are sent as they
     * are; `draws` stands for the random choices of the code generator.
     */
    method HandleSubmit(store: Store, flight: DbFlight, seat: Seat, userId: Option<string>,
                        draws: seq<int>, reply: Reply, defaults: StoreDefaults)
      requires FlightService.ValidDraws(draws)
      requires store.Valid()
      modifies this, store
      ensures store.Valid()
      ensures var code := FlightService.CodeOf(draws);
        var stored := reply == Answered && code !in old(store.bookings);
        && (stored ==> completions == old(completions) + [ReceiptOf(flight, seat, old(form), code)])
        && (stored ==> notices == old(notices) + [Confirmed])
        && (stored ==> store.bookings == old(store.bookings)[code := StoredRow(RecordOf(flight, seat, old(form), userId, code), defaults)])
        && (!stored ==> completions == old(completions) && notices == old(notices) + [Failed])
        && (!stored ==> store.bookings == old(store.bookings))
      ensures !isProcessing && form == old(form)
      ensures store.flights == old(store.flights) && store.seatMaps == old(store.seatMaps) && store.updates == old(store.updates)
    {
      StartSubmit();
      var code := FlightService.GenerateTrackingCode(draws);
      var record := RecordOf(flight, seat, form, userId, code);
      var created := FlightService.CreateBooking(store, record, reply, defaults);
      FinishSubmit(created, ReceiptOf(flight, seat, form, code));
    }
  }
}
