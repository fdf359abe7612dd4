/** The schedule dialog: three fixed dates, the first selected at first;
    for the selected date, the catalog movies that have a showtime that
    day, each with at most three genres and its showtimes of the day. */
module ShowtimesModal {
  import opened Seqs
  import opened Types
  import opened MovieData
  import opened MovieDetail

  datatype DateChoice = DateChoice(value: string, caption: string)

  const DefaultDate: string := "2025-01-15"

  /** The date buttons, in display order. */
  const Dates: seq<DateChoice> := [
    DateChoice("2025-01-15", "Hôm nay - 15/01"),
    DateChoice("2025-01-16", "Ngày mai - 16/01"),
    DateChoice("2025-01-17", "Ngày kia - 17/01")
  ]

  /** The date selected when the dialog opens is the first of three
      distinct date choices. */
  lemma DefaultDateIsFirstChoice()
    ensures |Dates| == 3 && Dates[0].value == DefaultDate
    ensures forall i, j :: 0 <= i < j < |Dates| ==> Dates[i].value != Dates[j].value
  {
  }

  /** `filteredShowtimes.some(st => st.movieId === movieId)`. */
  predicate HasShowtime(filtered: seq<Showtime>, movieId: string)
  {
    exists st :: st in filtered && st.movieId == movieId
  }

  /** `moviesWithShowtimes`: the catalog movies, in order, with at least
      one showtime among the filtered ones. */
  function MoviesWithShowtimes(movies: seq<Movie>, filtered: seq<Showtime>): (r: seq<Movie>)
    ensures IsSubsequence(r, movies)
    ensures forall m :: m in r <==> m in movies && HasShowtime(filtered, m.id)
  {
    Filter(movies, (m: Movie) => HasShowtime(filtered, m.id))
  }

  /** The showtimes listed under a movie for the selected date are exactly
      that movie's showtimes of that day, in schedule order, whichever of
      the two filters runs first. */
  lemma ListedShowtimes(showtimes: seq<Showtime>, date: string, movieId: string)
    ensures MovieShowtimes(ShowtimesOn(showtimes, date), movieId) == ShowtimesOn(MovieShowtimes(showtimes, movieId), date)
    ensures forall st ::
              st in MovieShowtimes(ShowtimesOn(showtimes, date), movieId)
              <==> st in showtimes && st.date == date && st.movieId == movieId
  {
    FilterCommute(showtimes, OnDate(date), ForMovie(movieId));
  }

  /** A movie is listed exactly when its list of showtimes for the day is
      not empty, so the dialog never shows a movie without showtimes and
      never hides one that has some. */
  lemma ListedIffShowtimes(movies: seq<Movie>, showtimes: seq<Showtime>, date: string, m: Movie)
    requires m in movies
    ensures m in MoviesWithShowtimes(movies, ShowtimesOn(showtimes, date))
      <==> MovieShowtimes(ShowtimesOn(showtimes, date), m.id) != []
  {
    var day := ShowtimesOn(showtimes, date);
    var listed := MovieShowtimes(day, m.id);
    if HasShowtime(day, m.id) {
      var st :| st in day && st.movieId == m.id;
      assert st in listed;
    }
    if listed != [] {
      assert listed[0] in listed;
    }
  }

  /** `movie.genre.slice(0, 3)`: the first genres, at most three. */
  function ShownGenres(m: Movie): (r: seq<string>)
    ensures |r| == Min(3, |m.genre|) && r == m.genre[..|r|]
    ensures |m.genre| <= 3 ==> r == m.genre
  {
    Take(m.genre, 3)
  }

  /** A click on a showtime's book button in the dialog: the button of a
      showtime with exactly zero seats left is disabled, any other starts
      the booking flow with the movie and the showtime. */
  function ScheduleBookClick(m: Movie, st: Showtime): (r: Option<(Movie, Showtime)>)
    ensures r.Some? <==> !DisabledAsWritten(st)
    ensures r.Some? ==> r.value == (m, st)
  {
    if DisabledAsWritten(st) then None else Some((m, st))
  }
}
