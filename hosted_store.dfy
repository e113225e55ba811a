/**
 * The hosted table store, reduced to the tables and queries the application uses.
 * Every call to it ends in one of three ways (`Reply`): the service answered with data,
 * it answered with an error object, or the awaited promise rejected. The store's
 * own behaviour (ordering, limits, the unique tracking code) is modelled here; its
 * transport, authentication and realtime channels are not.
 */
module HostedStore {
  import opened Wrappers
  import opened Schema
  import Ordering

  /** How a call to the hosted service ended. */
  datatype Reply = Answered | ErrorReply | Rejected

  /** Columns the store fills in itself when a booking is inserted. */
  datatype StoreDefaults = StoreDefaults(id: string, status: string, createdAt: int)

  /** A booking row with its flight joined in (`*, flight:flights(*)`); the join is null when no flight matches. */
  datatype BookingWithFlight = BookingWithFlight(booking: DbBooking, flight: Option<DbFlight>)

  class Store {
    /** `flights`, in table order. */
    var flights: seq<DbFlight>
    /** `seat_map`, per flight id, in the order `order('seat_number')` returns them. */
    var seatMaps: map<string, seq<Seat>>
    /** `bookings`, keyed by their unique tracking code. */
    var bookings: map<string, DbBooking>
    /** `flight_updates`, in table order. */
    var updates: seq<FlightUpdate>

    /** Flight ids are a primary key; every booking is filed under its own tracking code. */
    ghost predicate Valid()
      reads this
    {
      && (forall i, j :: 0 <= i < j < |flights| ==> flights[i].id != flights[j].id)
      && (forall code :: code in bookings ==> bookings[code].trackingCode == code)
    }

    /**
     * `insert([b]).select().single()`: on an answered call the row is added unless its
     * tracking code is taken (the unique constraint), and the stored row comes back.
     */
    method InsertBooking(b: BookingInsert, reply: Reply, defaults: StoreDefaults) returns (row: Option<DbBooking>)
      requires Valid()
      modifies this
      ensures Valid()
      ensures row.Some? <==> reply == Answered && b.trackingCode !in old(bookings)
      ensures row.Some? ==> row.value == StoredRow(b, defaults) && bookings == old(bookings)[b.trackingCode := row.value]
      ensures row.None? ==> bookings == old(bookings)
      ensures flights == old(flights) && seatMaps == old(seatMaps) && updates == old(updates)
    {
      if reply == Answered && b.trackingCode !in bookings {
        var r := StoredRow(b, defaults);
        bookings := bookings[b.trackingCode := r];
        row := Some(r);
      } else {
        row := None;
      }
    }
  }

  /** The row the store keeps for an inserted booking: the sent columns plus the store's own defaults. */
  function StoredRow(b: BookingInsert, d: StoreDefaults): (row: DbBooking)
    ensures row.trackingCode == b.trackingCode && row.flightId == b.flightId
    ensures row.passengerName == b.passengerName && row.passengerEmail == b.passengerEmail
    ensures row.passengerPhone == b.passengerPhone && row.seatNumber == b.seatNumber
    ensures row.gate == b.gate && row.boardingTime == b.boardingTime
    ensures row.totalPrice == b.totalPrice && row.userId == b.userId
    ensures row.id == d.id && row.status == d.status && row.createdAt == d.createdAt
  {
    DbBooking(d.id, b.userId, b.flightId, b.trackingCode, b.passengerName, b.passengerEmail,
              b.passengerPhone, b.seatNumber, b.gate, b.boardingTime, d.status, b.totalPrice, d.createdAt)
  }

  /** `eq('id', id).maybeSingle()` on `flights`: the flight with that id, or null. */
  function FlightById(flights: seq<DbFlight>, id: string): (r: Option<DbFlight>)
    ensures r.Some? ==> r.value in flights && r.value.id == id
    ensures r.None? ==> forall f :: f in flights ==> f.id != id
  {
    if flights == [] then None
    else if flights[0].id == id then Some(flights[0])
    else FlightById(flights[1..], id)
  }

  /** `eq('tracking_code', code).maybeSingle()` on `bookings`, with the flight joined in. */
  function BookingByCode(bookings: map<string, DbBooking>, flights: seq<DbFlight>, code: string): (r: Option<BookingWithFlight>)
    ensures r.Some? <==> code in bookings
    ensures r.Some? ==> r.value.booking == bookings[code] && r.value.flight == FlightById(flights, bookings[code].flightId)
  {
    if code in bookings then Some(BookingWithFlight(bookings[code], FlightById(flights, bookings[code].flightId)))
    else None
  }

  /** `order('departure_time', { ascending: true })` on `flights`. */
  function FlightsByDeparture(flights: seq<DbFlight>): (r: seq<DbFlight>)
    ensures forall i, j :: 0 <= i < j < |r| ==> r[i].departureTime <= r[j].departureTime
    ensures multiset(r) == multiset(flights)
  {
    var key := (f: DbFlight) => f.departureTime;
    var sorted := Ordering.SortBy(flights, key);
    Ordering.SortByOrders(flights, key);
    assert forall i, j :: 0 <= i < j < |sorted| ==> key(sorted[i]) <= key(sorted[j]);
    sorted
  }

  /** `eq('flight_id', flightId)` on `flight_updates`, in table order. */
  function UpdatesOf(updates: seq<FlightUpdate>, flightId: string): (r: seq<FlightUpdate>)
    ensures forall u :: u in r <==> u in updates && u.flightId == flightId
  {
    if updates == [] then []
    else
      var rest := UpdatesOf(updates[1..], flightId);
      assert updates == [updates[0]] + updates[1..];
      if updates[0].flightId == flightId then [updates[0]] + rest else rest
  }

  /** `eq('flight_id', id).order('created_at', { ascending: false }).limit(10)` on `flight_updates`. */
  function RecentUpdates(updates: seq<FlightUpdate>, flightId: string): seq<FlightUpdate> {
    Ordering.Take(Ordering.SortBy(UpdatesOf(updates, flightId), (u: FlightUpdate) => -u.createdAt), 10)
  }

  /**
   * The recent-updates query returns at most ten updates, all of the flight, newest first, and
   * leaves out no update of the flight that is newer than one it returns.
   */
  lemma {:induction false} RecentUpdatesAreNewest(updates: seq<FlightUpdate>, flightId: string)
    ensures var r := RecentUpdates(updates, flightId);
      && |r| <= 10
      && (forall u :: u in r ==> u in updates && u.flightId == flightId)
      && (forall i, j :: 0 <= i < j < |r| ==> r[i].createdAt >= r[j].createdAt)
      && (forall u, v :: u in updates && u.flightId == flightId && u !in r && v in r ==> u.createdAt <= v.createdAt)
  {
    var key := (u: FlightUpdate) => -u.createdAt;
    var all := UpdatesOf(updates, flightId);
    var r := RecentUpdates(updates, flightId);
    assert r == Ordering.Take(Ordering.SortBy(all, key), 10);
    Ordering.TakeOfSortIsSmallest(all, key, 10);
    forall i, j | 0 <= i < j < |r|
      ensures r[i].createdAt >= r[j].createdAt
    {
      assert key(r[i]) <= key(r[j]);
    }
    forall u, v | u in updates && u.flightId == flightId && u !in r && v in r
      ensures u.createdAt <= v.createdAt
    {
      assert u in all;
      assert key(v) <= key(u);
    }
  }

  /** `seat_map` rows of one flight, in the store's order; none when the flight has no seat map. */
  function SeatsOf(seatMaps: map<string, seq<Seat>>, flightId: string): (r: seq<Seat>)
    ensures flightId in seatMaps ==> r == seatMaps[flightId]
    ensures flightId !in seatMaps ==> r == []
  {
    if flightId in seatMaps then seatMaps[flightId] else []
  }
}
