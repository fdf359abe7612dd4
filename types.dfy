/** The storefront's entities, as the hook and the components use them.
    Money is an exact `real`; `genre` is a list of genre names on a
    catalog movie; a booking records the movie it is for. */
module Types {

  datatype Movie = Movie(
    id: string,
    title: string,
    description: string,
    genre: seq<string>,
    isPopular: bool)

  datatype Showtime = Showtime(
    id: string,
    movieId: string,
    theaterId: string,
    date: string,
    startTime: string,
    ticketPrice: real,
    availableSeats: int)

  datatype Theater = Theater(id: string, name: string)

  datatype BookingStatus = Confirmed | Cancelled

  datatype Booking = Booking(
    id: string,
    movieId: string,
    showtimeId: string,
    seats: seq<string>,
    totalPrice: real,
    bookingDate: string,
    status: BookingStatus,
    userEmail: string)

  datatype User = User(
    id: string,
    email: string,
    name: string,
    balance: real,
    bookingHistory: seq<Booking>)

  datatype SeatType = Regular | Premium | Vip

  datatype Seat = Seat(
    id: string,
    row: string,
    number: nat,
    isAvailable: bool,
    isSelected: bool,
    tier: SeatType)
}
