/** The data hook of the storefront: the session user and wallet, the
    booking list, the cached showtimes, and the catalog queries (popular,
    per-movie showtimes, search, genre-based recommendations). */
module MovieData {
  import opened Seqs
  import opened Text
  import opened Types

  /** Starting balance of a user who logs in. */
  const LoginBalance: real := 100.0
  /** Welcome balance of a user who registers. */
  const RegisterBalance: real := 50.0
  /** Movies shown when there is nothing to base a recommendation on. */
  const FallbackCount: nat := 4
  /** Genres a recommendation is drawn from. */
  const TopGenreCount: nat := 3
  /** Most movies a recommendation lists. */
  const RecommendationLimit: nat := 6

  /** What a page reload reads back from the browser's 'movieBookings' entry. */
  function Restored(saved: Option<seq<Booking>>): seq<Booking>
  {
    match saved
    case Some(b) => b
    case None => []
  }

  // ---------------------------------------------------------------------
  // Showtime availability after a booking.

  /** `showtimes.map(...)` of `addBooking`: every showtime with the booked
      id loses `n` seats, no other field or showtime changes. */
  function ReserveSeats(showtimes: seq<Showtime>, showtimeId: string, n: nat): (r: seq<Showtime>)
    ensures |r| == |showtimes|
    ensures forall i :: 0 <= i < |r| ==>
      r[i] == showtimes[i].(availableSeats := r[i].availableSeats)
    ensures forall i :: 0 <= i < |r| ==>
      r[i].availableSeats == showtimes[i].availableSeats - (if showtimes[i].id == showtimeId then n else 0)
  {
    if showtimes == [] then []
    else
      var st := showtimes[0];
      var first := if st.id == showtimeId then st.(availableSeats := st.availableSeats - n) else st;
      [first] + ReserveSeats(showtimes[1..], showtimeId, n)
  }

  /** Seats left over all cached showtimes. */
  function SeatsLeft(showtimes: seq<Showtime>): int
  {
    if showtimes == [] then 0 else showtimes[0].availableSeats + SeatsLeft(showtimes[1..])
  }

  /** How many cached showtimes carry the given id. */
  function IdCount(showtimes: seq<Showtime>, showtimeId: string): nat
  {
    if showtimes == [] then 0
    else (if showtimes[0].id == showtimeId then 1 else 0) + IdCount(showtimes[1..], showtimeId)
  }

  /** A booking of `n` seats removes `n` seats per showtime with its id from
      the cached total: exactly `n` when the ids are unique. */
  lemma {:induction false} ReserveSeatsLeft(showtimes: seq<Showtime>, showtimeId: string, n: nat)
    ensures SeatsLeft(ReserveSeats(showtimes, showtimeId, n))
      == SeatsLeft(showtimes) - n * IdCount(showtimes, showtimeId)
  {
    if showtimes != [] {
      ReserveSeatsLeft(showtimes[1..], showtimeId, n);
      var r := ReserveSeats(showtimes, showtimeId, n);
      assert r[1..] == ReserveSeats(showtimes[1..], showtimeId, n);
      var c := IdCount(showtimes[1..], showtimeId);
      if showtimes[0].id == showtimeId {
        assert n * (1 + c) == n + n * c;
      }
    }
  }

  // ---------------------------------------------------------------------
  // The hook's state and the operations that change it.

  class MovieStore {
    var movies: seq<Movie>
    var showtimes: seq<Showtime>
    var bookings: seq<Booking>
    var currentUser: Option<User>
    /** Mirror of the browser's 'movieBookings' entry. */
    ghost var savedBookings: Option<seq<Booking>>
    /** Mirror of the browser's 'currentUser' entry. */
    ghost var savedUser: Option<User>

    /** The browser store always holds what a reload needs to restore the
        session and the booking list. */
    ghost predicate Valid()
      reads this
    {
      savedUser == currentUser && Restored(savedBookings) == bookings
    }

    /** The hook's initial state followed by its mount effect, which
        restores the bookings and the user from the browser store. */
    constructor (movieData: seq<Movie>, showtimeData: seq<Showtime>,
                 storedBookings: Option<seq<Booking>>, storedUser: Option<User>)
      ensures Valid()
      ensures movies == movieData && showtimes == showtimeData
      ensures bookings == Restored(storedBookings) && currentUser == storedUser
    {
      movies := movieData;
      showtimes := showtimeData;
      bookings := Restored(storedBookings);
      currentUser := storedUser;
      savedBookings := storedBookings;
      savedUser := storedUser;
    }

    /** Simulated login: the name is the part of the email before '@';
        the password is not checked. `id` is the clock reading. */
    method Login(id: string, email: string, password: string)
      requires Valid()
      modifies this
      ensures Valid()
      ensures currentUser == Some(User(id, email, NameFromEmail(email), LoginBalance, []))
      ensures movies == old(movies) && showtimes == old(showtimes) && bookings == old(bookings)
    {
      var user := User(id, email, NameFromEmail(email), LoginBalance, []);
      currentUser := Some(user);
      savedUser := Some(user);
    }

    /** Registration keeps the given name and grants the welcome balance. */
    method Register(id: string, name: string, email: string, password: string)
      requires Valid()
      modifies this
      ensures Valid()
      ensures currentUser == Some(User(id, email, name, RegisterBalance, []))
      ensures movies == old(movies) && showtimes == old(showtimes) && bookings == old(bookings)
    {
      var user := User(id, email, name, RegisterBalance, []);
      currentUser := Some(user);
      savedUser := Some(user);
    }

    method Logout()
      requires Valid()
      modifies this
      ensures Valid()
      ensures currentUser == None
      ensures movies == old(movies) && showtimes == old(showtimes) && bookings == old(bookings)
    {
      currentUser := None;
      savedUser := None;
    }

    /** Adds `amount` to the balance of the current user, if any; the
        amount is not checked for sign. */
    method TopUpBalance(amount: real)
      requires Valid()
      modifies this
      ensures Valid()
      ensures old(currentUser).None? ==> currentUser == None
      ensures old(currentUser).Some? ==>
        currentUser == Some(old(currentUser).value.(balance := old(currentUser).value.balance + amount))
      ensures movies == old(movies) && showtimes == old(showtimes) && bookings == old(bookings)
    {
      if currentUser.Some? {
        var updated := currentUser.value.(balance := currentUser.value.balance + amount);
        currentUser := Some(updated);
        savedUser := Some(updated);
      }
    }

    /** Guarded deduction: succeeds exactly when a user is present whose
        balance covers `amount` (an equal balance suffices); a failed
        deduction changes nothing. */
    method DeductBalance(amount: real) returns (ok: bool)
      requires Valid()
      modifies this
      ensures Valid()
      ensures ok <==> old(currentUser).Some? && old(currentUser).value.balance >= amount
      ensures ok ==>
        currentUser == Some(old(currentUser).value.(balance := old(currentUser).value.balance - amount))
      ensures !ok ==> currentUser == old(currentUser)
      ensures movies == old(movies) && showtimes == old(showtimes) && bookings == old(bookings)
    {
      if currentUser.Some? && currentUser.value.balance >= amount {
        var updated := currentUser.value.(balance := currentUser.value.balance - amount);
        currentUser := Some(updated);
        savedUser := Some(updated);
        return true;
      }
      return false;
    }

    /** Appends the booking and takes its seats off the matching showtimes
        (with no check that the count stays non-negative). */
    method AddBooking(booking: Booking)
      requires Valid()
      modifies this
      ensures Valid()
      ensures bookings == old(bookings) + [booking]
      ensures showtimes == ReserveSeats(old(showtimes), booking.showtimeId, |booking.seats|)
      ensures movies == old(movies) && currentUser == old(currentUser)
    {
      var updated := bookings + [booking];
      bookings := updated;
      savedBookings := Some(updated);
      showtimes := ReserveSeats(showtimes, booking.showtimeId, |booking.seats|);
    }
  }

  // ---------------------------------------------------------------------
  // Catalog queries.

  /** `getPopularMovies`. */
  function PopularMovies(movies: seq<Movie>): (r: seq<Movie>)
    ensures IsSubsequence(r, movies)
    ensures forall m :: m in r <==> m in movies && m.isPopular
  {
    Filter(movies, (m: Movie) => m.isPopular)
  }

  /** The test `st.movieId === movieId`. */
  function ForMovie(movieId: string): Showtime -> bool
  {
    (st: Showtime) => st.movieId == movieId
  }

  /** `getMovieShowtimes`: the cached showtimes of one movie, in order. */
  function MovieShowtimes(showtimes: seq<Showtime>, movieId: string): (r: seq<Showtime>)
    ensures IsSubsequence(r, showtimes)
    ensures forall st :: st in r <==> st in showtimes && st.movieId == movieId
  {
    Filter(showtimes, ForMovie(movieId))
  }

  /** The filter of `searchMovies`: the query occurs in the title or the
      description, ignoring case; and, unless the genre is empty, the
      movie lists that genre. */
  predicate MatchesSearch(m: Movie, query: string, genre: string)
  {
    && (Contains(ToLower(m.title), ToLower(query)) || Contains(ToLower(m.description), ToLower(query)))
    && (genre == "" || genre in m.genre)
  }

  /** `searchMovies`: the matching movies, in catalog order. */
  function SearchMovies(movies: seq<Movie>, query: string, genre: string): (r: seq<Movie>)
    ensures IsSubsequence(r, movies)
    ensures forall m :: m in r <==> m in movies && MatchesSearch(m, query, genre)
  {
    Filter(movies, (m: Movie) => MatchesSearch(m, query, genre))
  }

  /** An empty query with no genre keeps the whole catalog. */
  lemma SearchEmptyKeepsAll(movies: seq<Movie>)
    ensures SearchMovies(movies, "", "") == movies
  {
    forall m | m in movies ensures MatchesSearch(m, "", "") {
      ContainsAt(ToLower(m.title), "");
    }
  }

  /** Upper- and lower-case letters of the query make no difference. */
  lemma SearchIgnoresCase(movies: seq<Movie>, query: string, genre: string)
    ensures forall m :: m in SearchMovies(movies, ToLower(query), genre) <==> m in SearchMovies(movies, query, genre)
  {
    ToLowerIdempotent(query);
  }

  // ---------------------------------------------------------------------
  // Recommendations.

  /** `movies.find(movie => movie.id === id)`. */
  function FindMovie(movies: seq<Movie>, id: string): (r: Option<Movie>)
    ensures r.Some? ==> r.value in movies && r.value.id == id
    ensures r.None? <==> forall m :: m in movies ==> m.id != id
    ensures r.Some? ==> exists i :: 0 <= i < |movies| && movies[i] == r.value
                                  && forall j :: 0 <= j < i ==> movies[j].id != id
  {
    if movies == [] then None
    else if movies[0].id == id then Some(movies[0])
    else
      var r := FindMovie(movies[1..], id);
      assert r.Some? ==> exists i :: 0 <= i < |movies| && movies[i] == r.value
                                    && forall j :: 0 <= j < i ==> movies[j].id != id by {
        if r.Some? {
          var i :| 0 <= i < |movies[1..]| && movies[1..][i] == r.value
                   && forall j :: 0 <= j < i ==> movies[1..][j].id != id;
          assert movies[i + 1] == r.value;
        }
      }
      r
  }

  /** The booked movies, one per booking in booking order; a booking whose
      movie is not in the catalog contributes nothing. */
  function BookedMovies(movies: seq<Movie>, bookings: seq<Booking>): (r: seq<Movie>)
    ensures |r| <= |bookings|
    ensures forall m :: m in r ==> m in movies
    ensures forall b :: b in bookings && FindMovie(movies, b.movieId).Some? ==>
      FindMovie(movies, b.movieId).value in r
    ensures forall m :: m in r ==> exists b :: b in bookings && FindMovie(movies, b.movieId) == Some(m)
  {
    if bookings == [] then []
    else
      var rest := BookedMovies(movies, bookings[1..]);
      match FindMovie(movies, bookings[0].movieId)
      case Some(m) => [m] + rest
      case None => rest
  }

  /** The genres of the booked movies, each movie's list in turn. */
  function LikedGenres(booked: seq<Movie>): (r: seq<string>)
    ensures forall g :: g in r <==> exists m :: m in booked && g in m.genre
  {
    if booked == [] then [] else booked[0].genre + LikedGenres(booked[1..])
  }

  /** Booking once more appends the booking's movie, when the catalog has it. */
  lemma {:induction false} BookedMoviesAppend(movies: seq<Movie>, bookings: seq<Booking>, b: Booking)
    ensures BookedMovies(movies, bookings + [b]) == BookedMovies(movies, bookings)
      + (match FindMovie(movies, b.movieId) case Some(m) => [m] case None => [])
  {
    if bookings == [] {
      BookedMoviesCons(movies, b, []);
      assert [b] + [] == [b] && bookings + [b] == [b];
    } else {
      var x, rest := bookings[0], bookings[1..];
      BookedMoviesAppend(movies, rest, b);
      HeadTail(bookings);
      ConcatAssociative([x], rest, [b]);
      BookedMoviesCons(movies, x, rest);
      BookedMoviesCons(movies, x, rest + [b]);
      ConcatAssociative(Found(movies, x.movieId), BookedMovies(movies, rest), Found(movies, b.movieId));
    }
  }

  /** The movie a booking refers to, as a list of at most one. */
  function Found(movies: seq<Movie>, id: string): seq<Movie>
  {
    match FindMovie(movies, id) case Some(m) => [m] case None => []
  }

  /** The booked movies of a list with a first booking. */
  lemma BookedMoviesCons(movies: seq<Movie>, x: Booking, rest: seq<Booking>)
    ensures BookedMovies(movies, [x] + rest) == Found(movies, x.movieId) + BookedMovies(movies, rest)
  {
    assert ([x] + rest)[0] == x && ([x] + rest)[1..] == rest;
  }

  /** The liked genres of two lists of movies are those of the first, then
      those of the second, with every repetition kept. */
  lemma {:induction false} LikedGenresAppend(a: seq<Movie>, b: seq<Movie>)
    ensures LikedGenres(a + b) == LikedGenres(a) + LikedGenres(b)
  {
    if a == [] {
      assert a + b == b;
    } else {
      LikedGenresAppend(a[1..], b);
      HeadTail(a);
      ConcatAssociative([a[0]], a[1..], b);
      LikedGenresCons(a[0], a[1..] + b);
      LikedGenresCons(a[0], a[1..]);
      ConcatAssociative(a[0].genre, LikedGenres(a[1..]), LikedGenres(b));
    }
  }

  /** The liked genres of a list with a first movie. */
  lemma LikedGenresCons(m: Movie, rest: seq<Movie>)
    ensures LikedGenres([m] + rest) == m.genre + LikedGenres(rest)
  {
    assert ([m] + rest)[0] == m && ([m] + rest)[1..] == rest;
  }

  /** One entry of the genre tally. */
  datatype GenreCount = GenreCount(genre: string, count: nat)

  /** The count recorded for `g`, 0 when it has no entry. */
  function CountOf(t: seq<GenreCount>, g: string): nat
  {
    if t == [] then 0 else if t[0].genre == g then t[0].count else CountOf(t[1..], g)
  }

  predicate DistinctGenres(t: seq<GenreCount>)
  {
    forall i, j :: 0 <= i < j < |t| ==> t[i].genre != t[j].genre
  }

  predicate PositiveCounts(t: seq<GenreCount>)
  {
    forall e :: e in t ==> e.count > 0
  }

  /** In a tally without repeated genres, an entry's count is the count of its genre. */
  lemma {:induction false} CountOfEntry(t: seq<GenreCount>, e: GenreCount)
    requires DistinctGenres(t) && e in t
    ensures CountOf(t, e.genre) == e.count
  {
    if t[0] != e {
      var k :| 0 <= k < |t| && t[k] == e;
      assert k > 0 && t[0].genre != t[k].genre;
      assert t[1..][k - 1] == e;
      CountOfEntry(t[1..], e);
    }
  }

  /** A positive count belongs to an entry. */
  lemma {:induction false} CountOfPositive(t: seq<GenreCount>, g: string)
    requires CountOf(t, g) > 0
    ensures exists e :: e in t && e.genre == g && e.count == CountOf(t, g)
  {
    if t[0].genre != g {
      CountOfPositive(t[1..], g);
      var e :| e in t[1..] && e.genre == g && e.count == CountOf(t[1..], g);
      assert e in t;
    }
  }

  /** `acc[genre] = (acc[genre] || 0) + 1`: bump the genre's entry, or add
      one at the end with count 1. */
  function Bump(t: seq<GenreCount>, g: string): (r: seq<GenreCount>)
    requires DistinctGenres(t) && PositiveCounts(t)
    ensures DistinctGenres(r) && PositiveCounts(r)
    ensures forall h :: CountOf(r, h) == CountOf(t, h) + (if h == g then 1 else 0)
    ensures forall e :: e in r ==> e.genre == g || e in t
  {
    if t == [] then [GenreCount(g, 1)]
    else if t[0].genre == g then
      var r := [t[0].(count := t[0].count + 1)] + t[1..];
      assert forall h :: h != g ==> CountOf(r, h) == CountOf(t[1..], h);
      assert forall h :: h == g ==> CountOf(t, h) == t[0].count;
      r
    else
      var rest := Bump(t[1..], g);
      var r := [t[0]] + rest;
      assert forall e :: e in rest ==> e.genre != t[0].genre by {
        forall e | e in rest ensures e.genre != t[0].genre {
          if e.genre != g {
            var k :| 0 <= k < |t[1..]| && t[1..][k] == e;
            assert t[k + 1] == e;
          }
        }
      }
      r
  }

  /** The `reduce` that counts genres: one entry per distinct genre, in
      order of first appearance, holding its number of occurrences. */
  function Tally(genres: seq<string>): (t: seq<GenreCount>)
    ensures DistinctGenres(t) && PositiveCounts(t)
    ensures forall h :: CountOf(t, h) == multiset(genres)[h]
  {
    if genres == [] then []
    else
      var init := genres[..|genres| - 1];
      assert genres == init + [genres[|genres| - 1]];
      Bump(Tally(init), genres[|genres| - 1])
  }

  predicate SortedByCount(s: seq<GenreCount>)
  {
    forall i, j :: 0 <= i < j < |s| ==> s[i].count >= s[j].count
  }

  /** Places `e` before the first entry whose count does not exceed its own. */
  function InsertByCount(e: GenreCount, s: seq<GenreCount>): (r: seq<GenreCount>)
    ensures multiset(r) == multiset(s) + multiset{e}
  {
    if s == [] || s[0].count <= e.count then [e] + s
    else
      assert s == [s[0]] + s[1..];
      [s[0]] + InsertByCount(e, s[1..])
  }

  lemma {:induction false} InsertByCountSorted(e: GenreCount, s: seq<GenreCount>)
    requires SortedByCount(s)
    ensures SortedByCount(InsertByCount(e, s))
  {
    if s == [] || s[0].count <= e.count {
      if s != [] {
        SortedHeadBound(s);
      }
      SortedCons(e, s);
    } else {
      InsertByCountSorted(e, s[1..]);
      SortedHeadBound(s);
      InsertByCountBound(e, s[1..], s[0].count);
      SortedCons(s[0], InsertByCount(e, s[1..]));
    }
  }

  /** The first entry of a sorted tally has the largest count. */
  lemma SortedHeadBound(s: seq<GenreCount>)
    requires SortedByCount(s) && s != []
    ensures forall y :: y in s ==> y.count <= s[0].count
  {
  }

  /** An entry counting at least as much as every entry of a sorted tally
      may lead it. */
  lemma SortedCons(h: GenreCount, rest: seq<GenreCount>)
    requires SortedByCount(rest) && forall y :: y in rest ==> y.count <= h.count
    ensures SortedByCount([h] + rest)
  {
    var s := [h] + rest;
    forall i, j | 0 <= i < j < |s| ensures s[i].count >= s[j].count {
      assert s[j] == rest[j - 1];
      if i > 0 {
        assert s[i] == rest[i - 1];
      }
    }
  }

  /** Inserting an entry keeps every count under a common bound. */
  lemma InsertByCountBound(e: GenreCount, s: seq<GenreCount>, b: nat)
    requires e.count <= b && forall y :: y in s ==> y.count <= b
    ensures forall x :: x in InsertByCount(e, s) ==> x.count <= b
  {
    var r := InsertByCount(e, s);
    forall x | x in r ensures x.count <= b {
      assert x in multiset(r);
      assert x == e || x in multiset(s);
    }
  }

  /** `sort(([, a], [, b]) => b - a)`: by descending count. */
  function SortByCount(t: seq<GenreCount>): (r: seq<GenreCount>)
    ensures multiset(r) == multiset(t)
    ensures SortedByCount(r)
  {
    if t == [] then []
    else
      assert t == [t[0]] + t[1..];
      InsertByCountSorted(t[0], SortByCount(t[1..]));
      InsertByCount(t[0], SortByCount(t[1..]))
  }

  /** The entries with count `c`, in order. */
  function WithCount(s: seq<GenreCount>, c: nat): seq<GenreCount>
  {
    if s == [] then [] else (if s[0].count == c then [s[0]] else []) + WithCount(s[1..], c)
  }

  lemma {:induction false} InsertByCountStable(e: GenreCount, s: seq<GenreCount>, c: nat)
    ensures WithCount(InsertByCount(e, s), c)
      == (if e.count == c then [e] else []) + WithCount(s, c)
  {
    var r := InsertByCount(e, s);
    if s == [] || s[0].count <= e.count {
      assert r == [e] + s && r[1..] == s;
    } else {
      InsertByCountStable(e, s[1..], c);
      assert r == [s[0]] + InsertByCount(e, s[1..]);
      assert r[1..] == InsertByCount(e, s[1..]);
      assert s[0].count != e.count;
    }
  }

  /** The sort is stable: entries with equal counts keep their order. */
  lemma {:induction false} SortByCountStable(t: seq<GenreCount>, c: nat)
    ensures WithCount(SortByCount(t), c) == WithCount(t, c)
  {
    if t != [] {
      SortByCountStable(t[1..], c);
      InsertByCountStable(t[0], SortByCount(t[1..]), c);
    }
  }

  /** The genre of each entry, in order. */
  function Genres(s: seq<GenreCount>): (r: seq<string>)
    ensures |r| == |s| && forall i :: 0 <= i < |s| ==> r[i] == s[i].genre
  {
    if s == [] then [] else [s[0].genre] + Genres(s[1..])
  }

  /** One leading entry of a sorted tally outnumbers a genre left behind. */
  lemma {:induction false} LeadingEntryDominates(liked: seq<string>, sorted: seq<GenreCount>, k: nat, i: nat, h: string)
    requires multiset(sorted) == multiset(Tally(liked)) && SortedByCount(sorted)
    requires i < k <= |sorted|
    requires h in liked && h !in Genres(sorted[..k])
    ensures multiset(liked)[h] <= multiset(liked)[sorted[i].genre]
  {
    SortedEntryCount(liked, sorted, i);
    var j := SortedEntryOf(liked, sorted, h);
    LeadingGenres(sorted, k);
  }

  /** The genres of the first `k` entries are those of the entries before `k`. */
  lemma LeadingGenres(sorted: seq<GenreCount>, k: nat)
    requires k <= |sorted|
    ensures forall x :: 0 <= x < k ==> sorted[x].genre in Genres(sorted[..k])
  {
    var top := Genres(sorted[..k]);
    forall x | 0 <= x < k ensures sorted[x].genre in top {
      assert top[x] == sorted[x].genre;
    }
  }

  /** Every entry of a rearranged tally holds its genre's count. */
  lemma SortedEntryCount(liked: seq<string>, sorted: seq<GenreCount>, i: nat)
    requires multiset(sorted) == multiset(Tally(liked)) && i < |sorted|
    ensures sorted[i].count == multiset(liked)[sorted[i].genre]
  {
    assert sorted[i] in multiset(Tally(liked));
    CountOfEntry(Tally(liked), sorted[i]);
  }

  /** Every liked genre has an entry in a rearranged tally. */
  lemma SortedEntryOf(liked: seq<string>, sorted: seq<GenreCount>, h: string) returns (j: nat)
    requires multiset(sorted) == multiset(Tally(liked)) && h in liked
    ensures j < |sorted| && sorted[j].genre == h && sorted[j].count == multiset(liked)[h]
  {
    var t := Tally(liked);
    CountOfPositive(t, h);
    var e :| e in t && e.genre == h && e.count == CountOf(t, h);
    assert e in multiset(sorted);
    j :| 0 <= j < |sorted| && sorted[j] == e;
  }

  /** The leading genres of a sorted tally outnumber every genre left behind. */
  lemma LeadingGenresDominate(liked: seq<string>, sorted: seq<GenreCount>, k: nat)
    requires multiset(sorted) == multiset(Tally(liked)) && SortedByCount(sorted) && k <= |sorted|
    ensures forall g :: g in Genres(sorted[..k]) ==> g in liked
    ensures forall g, h :: g in Genres(sorted[..k]) && h in liked && h !in Genres(sorted[..k]) ==>
      multiset(liked)[h] <= multiset(liked)[g]
  {
    var t := Tally(liked);
    var top := Genres(sorted[..k]);
    forall g | g in top ensures g in liked {
      var i :| 0 <= i < k && top[i] == g;
      assert sorted[i] in multiset(t);
      CountOfEntry(t, sorted[i]);
    }
    forall g, h | g in top && h in liked && h !in top
      ensures multiset(liked)[h] <= multiset(liked)[g]
    {
      var i :| 0 <= i < k && top[i] == g;
      LeadingEntryDominates(liked, sorted, k, i, h);
    }
  }

  /** A rearranged tally keeps one entry per genre. */
  lemma DistinctGenresPermutation(a: seq<GenreCount>, b: seq<GenreCount>)
    requires multiset(a) == multiset(b) && DistinctGenres(b)
    ensures DistinctGenres(a)
  {
    NoDuplicatesPermutation(a, b);
    forall i, j | 0 <= i < j < |a| ensures a[i].genre != a[j].genre {
      assert a[i] in multiset(b) && a[j] in multiset(b);
      CountOfEntry(b, a[i]);
      CountOfEntry(b, a[j]);
    }
  }

  /** The genres of the leading entries of a tally without repeated genres
      are distinct. */
  lemma LeadingGenresDistinct(s: seq<GenreCount>, k: nat)
    requires DistinctGenres(s) && k <= |s|
    ensures NoDuplicates(Genres(s[..k]))
  {
    var g := Genres(s[..k]);
    forall i, j | 0 <= i < j < |g| ensures g[i] != g[j] {
      assert g[i] == s[i].genre && g[j] == s[j].genre;
    }
  }

  /** The three most frequent genres (fewer when fewer occur). */
  function TopGenres(liked: seq<string>): (top: seq<string>)
    ensures |top| == Min(TopGenreCount, |Tally(liked)|)
    ensures NoDuplicates(top)
    ensures forall g :: g in top ==> g in liked
    ensures forall g, h :: g in top && h in liked && h !in top ==>
      multiset(liked)[h] <= multiset(liked)[g]
  {
    var t := Tally(liked);
    var sorted := SortByCount(t);
    assert |sorted| == |multiset(sorted)| == |multiset(t)| == |t|;
    var k := Min(TopGenreCount, |sorted|);
    LeadingGenresDominate(liked, sorted, k);
    DistinctGenresPermutation(sorted, t);
    LeadingGenresDistinct(sorted, k);
    Genres(sorted[..k])
  }

  /** Some booked movie has the same id. */
  predicate BookedAlready(m: Movie, booked: seq<Movie>)
  {
    exists b :: b in booked && b.id == m.id
  }

  /** The movie lists one of the given genres. */
  predicate SharesGenre(m: Movie, genres: seq<string>)
  {
    exists g :: g in m.genre && g in genres
  }

  /** A movie that no booked movie shares an id with is referred to by no
      booking, and conversely. */
  lemma NotBookedUnreferenced(movies: seq<Movie>, bookings: seq<Booking>, m: Movie)
    requires m in movies
    ensures !BookedAlready(m, BookedMovies(movies, bookings))
      <==> forall b :: b in bookings ==> b.movieId != m.id
  {
    var booked := BookedMovies(movies, bookings);
    if BookedAlready(m, booked) {
      var bm :| bm in booked && bm.id == m.id;
      var b :| b in bookings && FindMovie(movies, b.movieId) == Some(bm);
      assert b.movieId == m.id;
    }
    if b :| b in bookings && b.movieId == m.id {
      assert FindMovie(movies, b.movieId).value in booked;
    }
  }

  /** The two filters of `getRecommendedMovies`: the catalog movies, in
      order, that no booking refers to and that share one of the genres. */
  function Candidates(movies: seq<Movie>, bookings: seq<Booking>, top: seq<string>): (c: seq<Movie>)
    ensures IsSubsequence(c, movies)
    ensures forall m :: m in c <==>
      m in movies && SharesGenre(m, top) && forall b :: b in bookings ==> b.movieId != m.id
  {
    var booked := BookedMovies(movies, bookings);
    var unseen := Filter(movies, (m: Movie) => !BookedAlready(m, booked));
    var c := Filter(unseen, (m: Movie) => SharesGenre(m, top));
    SubsequenceTransitive(c, unseen, movies);
    forall m | m in movies ensures !BookedAlready(m, booked) <==> forall b :: b in bookings ==> b.movieId != m.id {
      NotBookedUnreferenced(movies, bookings, m);
    }
    c
  }

  /** `getRecommendedMovies`. Without a user or without bookings: the first
      four catalog movies. Otherwise: at most six catalog movies, in
      catalog order, that no booking refers to and that share a genre
      with the most booked genres; all such movies when fewer than six.
      The bookings of every user count, not only the current user's. */
  function RecommendedMovies(movies: seq<Movie>, bookings: seq<Booking>, user: Option<User>): (r: seq<Movie>)
    ensures IsSubsequence(r, movies)
    ensures user.None? || bookings == [] ==>
      |r| == Min(FallbackCount, |movies|) && forall i :: 0 <= i < |r| ==> r[i] == movies[i]
    ensures user.Some? && bookings != [] ==>
      var top := TopGenres(LikedGenres(BookedMovies(movies, bookings)));
      var c := Candidates(movies, bookings, top);
      && |r| == Min(RecommendationLimit, |c|) && r == c[..|r|]
      && (forall m, b :: m in r && b in bookings ==> b.movieId != m.id)
      && (forall m :: m in r ==> SharesGenre(m, top))
      && (|r| < RecommendationLimit ==>
            forall m :: (m in movies && SharesGenre(m, top)
                         && forall b :: b in bookings ==> b.movieId != m.id) ==> m in r)
  {
    if user.None? || bookings == [] then Take(movies, FallbackCount)
    else
      var top := TopGenres(LikedGenres(BookedMovies(movies, bookings)));
      var c := Candidates(movies, bookings, top);
      var r := Take(c, RecommendationLimit);
      SubsequenceTransitive(r, c, movies);
      SubsequenceMembers(r, c);
      assert |r| < RecommendationLimit ==> r == c;
      r
  }
}
