/** The movie detail page: the genre chips, the theaters that show the
    movie, the showtimes of the selected date, and the book button of each
    showtime, which hands the movie, the showtime and its theater to the
    booking flow. The date choices come from the clock and are an input
    here (the selected date). */
module MovieDetail {
  import opened Seqs
  import opened Text
  import opened Types
  import opened MovieData

  // ---------------------------------------------------------------------
  // Genre chips.

  /** `trim()` applied to every piece. */
  function TrimAll(parts: seq<string>): (r: seq<string>)
    ensures |r| == |parts| && forall i :: 0 <= i < |parts| ==> r[i] == Trim(parts[i])
  {
    if parts == [] then [] else [Trim(parts[0])] + TrimAll(parts[1..])
  }

  /** Trimming a text never brings in a character it lacks. */
  lemma TrimKeepsOut(s: string, x: char)
    requires x !in s
    ensures x !in Trim(s)
  {
    var r := Trim(s);
    var k :| TrimmedAt(s, r, k);
    SliceMembers(s, k, k + |r|);
  }

  /** The chips for the movie's genre text: none when the text is absent,
      otherwise its comma-separated pieces, trimmed. */
  function DisplayGenres(genre: Option<string>): (chips: seq<string>)
    ensures genre.None? ==> chips == []
    ensures genre.Some? ==> |chips| == multiset(genre.value)[','] + 1
    ensures forall c :: c in chips ==> ',' !in c
    ensures forall c :: c in chips ==> c == [] || (!IsWhitespace(c[0]) && !IsWhitespace(c[|c| - 1]))
  {
    match genre
    case None => []
    case Some(text) =>
      var parts := Split(text, ',');
      var chips := TrimAll(parts);
      forall c | c in chips ensures ',' !in c {
        var i :| 0 <= i < |chips| && chips[i] == c;
        assert parts[i] in parts;
        TrimKeepsOut(parts[i], ',');
      }
      chips
  }

  /** A list of genre names written out with commas (and any spacing
      around them) gives back one chip per name, in order. */
  lemma DisplayGenresOfList(names: seq<string>)
    requires |names| >= 1
    requires forall n :: n in names ==> ',' !in n
    ensures DisplayGenres(Some(Join(names, ','))) == TrimAll(names)
  {
    SplitJoin(names, ',');
  }

  // ---------------------------------------------------------------------
  // Theaters.

  /** `showtimes.map(st => st.theaterId)`. */
  function TheaterIds(showtimes: seq<Showtime>): (ids: seq<string>)
    ensures |ids| == |showtimes| && forall i :: 0 <= i < |showtimes| ==> ids[i] == showtimes[i].theaterId
  {
    if showtimes == [] then [] else [showtimes[0].theaterId] + TheaterIds(showtimes[1..])
  }

  /** The theaters whose id is among `ids`, in catalog order. */
  function KeepTheaters(theaters: seq<Theater>, ids: seq<string>): (r: seq<Theater>)
    ensures IsSubsequence(r, theaters)
    ensures forall th :: th in r <==> th in theaters && th.id in ids
  {
    if theaters == [] then []
    else
      assert forall th :: th in theaters <==> th == theaters[0] || th in theaters[1..];
      var rest := KeepTheaters(theaters[1..], ids);
      if theaters[0].id in ids then
        assert ([theaters[0]] + rest)[1..] == rest;
        [theaters[0]] + rest
      else rest
  }

  /** `getTheaters`: the catalog theaters that some showtime takes place
      in, in catalog order. */
  function GetTheaters(showtimes: seq<Showtime>, theaters: seq<Theater>): (r: seq<Theater>)
    ensures IsSubsequence(r, theaters)
    ensures forall th :: th in r <==> th in theaters && exists st :: st in showtimes && st.theaterId == th.id
  {
    var ids := TheaterIds(showtimes);
    assert forall id :: id in ids <==> exists st :: st in showtimes && st.theaterId == id by {
      forall id ensures id in ids <==> exists st :: st in showtimes && st.theaterId == id {
        if id in ids {
          var i :| 0 <= i < |ids| && ids[i] == id;
          assert showtimes[i] in showtimes;
        }
        if st :| st in showtimes && st.theaterId == id {
          var i :| 0 <= i < |showtimes| && showtimes[i] == st;
          assert ids[i] == id;
        }
      }
    }
    KeepTheaters(theaters, ids)
  }

  /** `theaters.find(th => th.id === id)`: the first theater with the id. */
  function TheaterFor(theaters: seq<Theater>, id: string): (r: Option<Theater>)
    ensures r.None? <==> forall th :: th in theaters ==> th.id != id
    ensures r.Some? ==>
              exists i :: 0 <= i < |theaters| && theaters[i] == r.value && r.value.id == id
                          && forall j :: 0 <= j < i ==> theaters[j].id != id
  {
    if theaters == [] then None
    else if theaters[0].id == id then Some(theaters[0])
    else
      var r := TheaterFor(theaters[1..], id);
      assert forall th :: th in theaters <==> th == theaters[0] || th in theaters[1..];
      if r.Some? then
        var i :| 0 <= i < |theaters[1..]| && theaters[1..][i] == r.value && r.value.id == id
          && forall j :: 0 <= j < i ==> theaters[1..][j].id != id;
        assert theaters[i + 1] == r.value;
        r
      else r
  }

  /** Keeping only the theaters of some ids does not change which theater
      an id among them finds. */
  lemma {:induction false} TheaterForKept(theaters: seq<Theater>, ids: seq<string>, id: string)
    requires id in ids
    ensures TheaterFor(KeepTheaters(theaters, ids), id) == TheaterFor(theaters, id)
  {
    if theaters != [] {
      TheaterForKept(theaters[1..], ids, id);
      var rest := KeepTheaters(theaters[1..], ids);
      if theaters[0].id in ids {
        assert KeepTheaters(theaters, ids) == [theaters[0]] + rest;
        assert ([theaters[0]] + rest)[1..] == rest;
      }
    }
  }

  /** The theater a showtime card names is the theater its book button
      passes on, whether looked up among the theaters of the selected
      date's showtimes or of all the movie's showtimes: the first catalog
      theater with the showtime's theater id. */
  lemma ShownTheaterIsBookedTheater(showtimes: seq<Showtime>, theaters: seq<Theater>, date: string, st: Showtime)
    requires st in ShowtimesOn(showtimes, date)
    ensures TheaterFor(GetTheaters(ShowtimesOn(showtimes, date), theaters), st.theaterId)
         == TheaterFor(theaters, st.theaterId)
    ensures TheaterFor(GetTheaters(showtimes, theaters), st.theaterId) == TheaterFor(theaters, st.theaterId)
  {
    var day := ShowtimesOn(showtimes, date);
    var i :| 0 <= i < |day| && day[i] == st;
    assert TheaterIds(day)[i] == st.theaterId;
    TheaterForKept(theaters, TheaterIds(day), st.theaterId);
    var j :| 0 <= j < |showtimes| && showtimes[j] == st;
    assert TheaterIds(showtimes)[j] == st.theaterId;
    TheaterForKept(theaters, TheaterIds(showtimes), st.theaterId);
  }

  // ---------------------------------------------------------------------
  // Showtimes of the selected date.

  /** The test `st.date === selectedDate`. */
  function OnDate(date: string): Showtime -> bool
  {
    (st: Showtime) => st.date == date
  }

  /** `filteredShowtimes`: the showtimes of the selected date, in order. */
  function ShowtimesOn(showtimes: seq<Showtime>, date: string): (r: seq<Showtime>)
    ensures IsSubsequence(r, showtimes)
    ensures forall st :: st in r <==> st in showtimes && st.date == date
  {
    Filter(showtimes, OnDate(date))
  }

  // ---------------------------------------------------------------------
  // The book button.

  /** The button's `disabled` test as written: exactly zero seats left. */
  predicate DisabledAsWritten(st: Showtime): (b: bool)
    ensures b ==> st.availableSeats <= 0
    ensures st.availableSeats < 0 ==> !b
  {
    st.availableSeats == 0
  }

  /** As written, a showtime booked beyond its remaining seats (which
      `addBooking` allows) keeps an enabled button. */
  lemma OverbookedStaysEnabled(st: Showtime, n: nat)
    requires 0 <= st.availableSeats < n
    ensures ReserveSeats([st], st.id, n)[0].availableSeats < 0
    ensures !DisabledAsWritten(ReserveSeats([st], st.id, n)[0])
  {
  }

  /** The test the button evidently intends: no seat left. */
  predicate SoldOut(st: Showtime): (b: bool)
    ensures DisabledAsWritten(st) ==> b
    ensures st.availableSeats < 0 ==> b
    ensures !b ==> st.availableSeats > 0
  {
    st.availableSeats <= 0
  }

  /** On counts that are not negative the intended test is the written one. */
  lemma SoldOutAgrees(st: Showtime)
    requires st.availableSeats >= 0
    ensures SoldOut(st) <==> DisabledAsWritten(st)
  {
  }

  /** Booking at least the remaining seats sells a showtime out, and every
      showtime `addBooking` does not touch keeps its state. */
  lemma ReservedSoldOut(showtimes: seq<Showtime>, showtimeId: string, n: nat, i: nat)
    requires i < |showtimes|
    ensures showtimes[i].id == showtimeId && showtimes[i].availableSeats <= n ==>
      SoldOut(ReserveSeats(showtimes, showtimeId, n)[i])
    ensures showtimes[i].id != showtimeId ==>
      (SoldOut(ReserveSeats(showtimes, showtimeId, n)[i]) <==> SoldOut(showtimes[i]))
  {
  }

  /** The arguments handed to `onBookTicket`. */
  datatype BookTicketCall<M> = BookTicketCall(movie: M, showtime: Showtime, theater: Theater)

  /** A click on a showtime's book button. A showtime with exactly zero
      seats left has a disabled button and the click does nothing;
      otherwise the showtime's theater is looked
      up among the theaters of the movie's showtimes and, when found, the
      booking flow starts with it; when missing, only an alert is shown. */
  function BookClick<M>(movie: M, st: Showtime, filteredTheaters: seq<Theater>): (r: Option<BookTicketCall<M>>)
    ensures r.Some? <==> !DisabledAsWritten(st) && exists th :: th in filteredTheaters && th.id == st.theaterId
    ensures r.Some? ==>
              && r.value.movie == movie && r.value.showtime == st
              && r.value.theater in filteredTheaters && r.value.theater.id == st.theaterId
  {
    if DisabledAsWritten(st) then None
    else
      match TheaterFor(filteredTheaters, st.theaterId)
      case None => None
      case Some(th) => Some(BookTicketCall(movie, st, th))
  }

  /** As written, clicking a showtime that bookings have driven below
      zero seats still starts the booking flow. */
  lemma OverbookedClickBooks<M>(movie: M, st: Showtime, n: nat, th: Theater)
    requires 0 <= st.availableSeats < n && th.id == st.theaterId
    ensures BookClick(movie, ReserveSeats([st], st.id, n)[0], [th]).Some?
  {
    OverbookedStaysEnabled(st, n);
    assert th in [th];
  }

  /** Every showtime listed for the selected date can be booked unless it
      has exactly zero seats left or its theater is missing from the catalog, and then it
      is booked in the first catalog theater with its theater id. */
  lemma ListedShowtimeBooks<M>(movie: M, showtimes: seq<Showtime>, theaters: seq<Theater>, date: string, st: Showtime)
    requires st in ShowtimesOn(showtimes, date)
    ensures BookClick(movie, st, GetTheaters(showtimes, theaters)).Some?
      <==> !DisabledAsWritten(st) && exists th :: th in theaters && th.id == st.theaterId
    ensures BookClick(movie, st, GetTheaters(showtimes, theaters)).Some? ==>
      Some(BookClick(movie, st, GetTheaters(showtimes, theaters)).value.theater) == TheaterFor(theaters, st.theaterId)
  {
    ShownTheaterIsBookedTheater(showtimes, theaters, date, st);
    var kept := GetTheaters(showtimes, theaters);
    if th :| th in theaters && th.id == st.theaterId {
      assert th in kept;
    }
  }
}
