/**
 * The rows the application reads from and writes to the hosted store.
 * Timestamps are epoch milliseconds; prices are reals; nullable columns are `Option`s.
 */
module Schema {
  import opened Wrappers

  /** A row of `flights`. */
  datatype DbFlight = DbFlight(
    id: string,
    flightNumber: string,
    airline: string,
    origin: string,
    originCode: string,
    destination: string,
    destinationCode: string,
    departureTime: int,
    arrivalTime: int,
    price: real,
    availableSeats: int,
    aircraftType: string,
    status: string,
    gate: Option<string>,
    delayMinutes: Option<int>)

  /** A row of `bookings`. */
  datatype DbBooking = DbBooking(
    id: string,
    userId: Option<string>,
    flightId: string,
    trackingCode: string,
    passengerName: string,
    passengerEmail: string,
    passengerPhone: Option<string>,
    seatNumber: string,
    gate: Option<string>,
    boardingTime: Option<int>,
    status: string,
    totalPrice: real,
    createdAt: int)

  /** The object handed to `createBooking`; absent optional fields are `None`. */
  datatype BookingInsert = BookingInsert(
    userId: Option<string>,
    flightId: string,
    trackingCode: string,
    passengerName: string,
    passengerEmail: string,
    passengerPhone: Option<string>,
    seatNumber: string,
    gate: Option<string>,
    boardingTime: Option<int>,
    totalPrice: real)

  /** A row of `seat_map`, with the fields the seat map and the booking form use. */
  datatype Seat = Seat(
    id: string,
    seatNumber: string,
    seatClass: string,
    isAvailable: bool,
    priceModifier: real,
    isWindow: bool,
    isAisle: bool,
    isExitRow: bool)

  /** A row of `flight_updates`: one entry of a flight's operational log. */
  datatype FlightUpdate = FlightUpdate(
    id: string,
    flightId: string,
    updateType: string,
    message: string,
    oldValue: Option<string>,
    newValue: Option<string>,
    createdAt: int)

  /** The fare of a seat: the flight's base price times the seat's price modifier. */
  function SeatPrice(basePrice: real, seat: Seat): (fare: real)
    ensures seat.priceModifier == 1.0 ==> fare == basePrice
    ensures basePrice >= 0.0 && seat.priceModifier >= 1.0 ==> fare >= basePrice
  {
    basePrice * seat.priceModifier
  }
}
