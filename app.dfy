/** The page shell: which movie, booking dialog and payment step are on
    screen, the search box and genre chip, and the two handlers that
    carry a booking from the seat dialog through payment into the data
    hook. */
module App {
  import opened Seqs
  import opened Text
  import opened Types
  import opened MovieData

  /** The movie and showtime the seat dialog is open for. */
  datatype BookingTarget = BookingTarget(movie: Movie, showtime: Showtime)

  /** The movies listed under the filter bar: the whole catalog when the
      query and the genre are both empty, the search result otherwise. */
  function FilteredMovies(movies: seq<Movie>, query: string, genre: string): (r: seq<Movie>)
    ensures IsSubsequence(r, movies)
    ensures forall m :: m in r <==> m in movies && MatchesSearch(m, query, genre)
  {
    if query != "" || genre != "" then SearchMovies(movies, query, genre)
    else
      SearchEmptyKeepsAll(movies);
      movies
  }

  /** Skipping the search for an empty query and genre changes nothing:
      the listing is always the search result. */
  lemma FilteredIsSearch(movies: seq<Movie>, query: string, genre: string)
    ensures FilteredMovies(movies, query, genre) == SearchMovies(movies, query, genre)
  {
    if query == "" && genre == "" {
      SearchEmptyKeepsAll(movies);
    }
  }

  /** The bookings the account dialog lists: those made with the user's email. */
  function UserBookings(bookings: seq<Booking>, email: string): (r: seq<Booking>)
    ensures IsSubsequence(r, bookings)
    ensures forall b :: b in r <==> b in bookings && b.userEmail == email
  {
    Filter(bookings, (b: Booking) => b.userEmail == email)
  }

  /** A new booking shows up at the end of the history of the user whose
      email it carries, and of nobody else. */
  lemma UserBookingsAppend(bookings: seq<Booking>, b: Booking, email: string)
    ensures UserBookings(bookings + [b], email)
      == UserBookings(bookings, email) + (if b.userEmail == email then [b] else [])
  {
    FilterAppend(bookings, [b], (x: Booking) => x.userEmail == email);
    assert [b][1..] == [];
  }

  class AppState {
    const store: MovieStore
    var searchQuery: string
    var selectedGenre: string
    var selectedMovie: Option<Movie>
    var bookingData: Option<BookingTarget>
    var pendingBooking: Option<Booking>
    var showAuthModal: bool
    var showPaymentModal: bool

    constructor (store: MovieStore)
      ensures this.store == store
      ensures searchQuery == "" && selectedGenre == ""
      ensures selectedMovie == None && bookingData == None && pendingBooking == None
      ensures !showAuthModal && !showPaymentModal
    {
      this.store := store;
      searchQuery := "";
      selectedGenre := "";
      selectedMovie := None;
      bookingData := None;
      pendingBooking := None;
      showAuthModal := false;
      showPaymentModal := false;
    }

    /** `handleBookTicket`: close the detail view and open the seat dialog. */
    method HandleBookTicket(movie: Movie, showtime: Showtime)
      modifies this
      ensures selectedMovie == None && bookingData == Some(BookingTarget(movie, showtime))
      ensures pendingBooking == old(pendingBooking)
      ensures showAuthModal == old(showAuthModal) && showPaymentModal == old(showPaymentModal)
      ensures searchQuery == old(searchQuery) && selectedGenre == old(selectedGenre)
    {
      selectedMovie := None;
      bookingData := Some(BookingTarget(movie, showtime));
    }

    /** `handleConfirmBooking`: without a user, ask to sign in and keep
        everything else; with one, hold the booking for payment, close the
        seat dialog and open the payment step. */
    method HandleConfirmBooking(booking: Booking)
      modifies this
      ensures old(store.currentUser).None? ==>
        && showAuthModal && pendingBooking == old(pendingBooking)
        && bookingData == old(bookingData) && showPaymentModal == old(showPaymentModal)
      ensures old(store.currentUser).Some? ==>
        && pendingBooking == Some(booking) && bookingData == None && showPaymentModal
        && showAuthModal == old(showAuthModal)
      ensures pendingBooking != old(pendingBooking) ==> store.currentUser.Some?
      ensures selectedMovie == old(selectedMovie)
      ensures searchQuery == old(searchQuery) && selectedGenre == old(selectedGenre)
    {
      if store.currentUser.None? {
        showAuthModal := true;
        return;
      }
      pendingBooking := Some(booking);
      bookingData := None;
      showPaymentModal := true;
    }

    /** `handlePaymentSuccess`: with no pending booking nothing happens. A
        wallet payment is charged first; when the charge fails nothing
        changes and the payment step stays open. Otherwise the pending
        booking is added once, then cleared, and the payment step closed.
        Only the wallet touches the balance. */
    method HandlePaymentSuccess(paymentMethod: string)
      requires store.Valid()
      modifies this, store
      ensures store.Valid()
      ensures store.movies == old(store.movies)
      ensures old(pendingBooking).None? ==>
        && store.bookings == old(store.bookings) && store.showtimes == old(store.showtimes)
        && store.currentUser == old(store.currentUser)
        && pendingBooking == None && showPaymentModal == old(showPaymentModal)
      ensures old(pendingBooking).Some? && paymentMethod == "wallet"
              && !(old(store.currentUser).Some? && old(store.currentUser).value.balance >= old(pendingBooking).value.totalPrice) ==>
        && store.bookings == old(store.bookings) && store.showtimes == old(store.showtimes)
        && store.currentUser == old(store.currentUser)
        && pendingBooking == old(pendingBooking) && showPaymentModal == old(showPaymentModal)
      ensures old(pendingBooking).Some? && paymentMethod == "wallet"
              && old(store.currentUser).Some? && old(store.currentUser).value.balance >= old(pendingBooking).value.totalPrice ==>
        && store.currentUser == Some(old(store.currentUser).value.(balance := old(store.currentUser).value.balance - old(pendingBooking).value.totalPrice))
        && store.bookings == old(store.bookings) + [old(pendingBooking).value]
        && store.showtimes == ReserveSeats(old(store.showtimes), old(pendingBooking).value.showtimeId, |old(pendingBooking).value.seats|)
        && pendingBooking == None && !showPaymentModal
      ensures old(pendingBooking).Some? && paymentMethod != "wallet" ==>
        && store.currentUser == old(store.currentUser)
        && store.bookings == old(store.bookings) + [old(pendingBooking).value]
        && store.showtimes == ReserveSeats(old(store.showtimes), old(pendingBooking).value.showtimeId, |old(pendingBooking).value.seats|)
        && pendingBooking == None && !showPaymentModal
      ensures bookingData == old(bookingData) && selectedMovie == old(selectedMovie)
      ensures showAuthModal == old(showAuthModal)
      ensures searchQuery == old(searchQuery) && selectedGenre == old(selectedGenre)
    {
      if pendingBooking.Some? {
        var booking := pendingBooking.value;
        if paymentMethod == "wallet" {
          var success := store.DeductBalance(booking.totalPrice);
          if !success {
            return;
          }
        }
        store.AddBooking(booking);
        pendingBooking := None;
        showPaymentModal := false;
      }
    }

    /** `handleBookNow`: without a user, ask to sign in and open no movie. */
    method HandleBookNow(movie: Movie)
      modifies this
      ensures old(store.currentUser).None? ==> showAuthModal && selectedMovie == old(selectedMovie)
      ensures old(store.currentUser).Some? ==> selectedMovie == Some(movie) && showAuthModal == old(showAuthModal)
      ensures bookingData == old(bookingData) && pendingBooking == old(pendingBooking)
      ensures showPaymentModal == old(showPaymentModal)
      ensures searchQuery == old(searchQuery) && selectedGenre == old(selectedGenre)
    {
      if store.currentUser.None? {
        showAuthModal := true;
        return;
      }
      selectedMovie := Some(movie);
    }
  }
}
