/** The seat-selection dialog: an 8 by 15 seat grid whose first two rows
    are premium and last two rows vip, a toggled list of selected seat
    ids, per-tier prices, the summed total, and the draft booking the
    dialog hands on. Availability of a seat is a random draw; the draws
    are an input here. */
module BookingModal {
  import opened Seqs
  import opened Text
  import opened Types

  const RowLetters: string := "ABCDEFGH"
  const RowCount: nat := 8
  const SeatsPerRow: nat := 15
  const SeatCount: nat := 120
  /** A seat is free when its random draw exceeds this. */
  const AvailableAbove: real := 0.3

  /** Tier of a row: the two front rows premium, the two back rows vip. */
  function TierOf(rowIndex: nat): SeatType
  {
    if rowIndex < 2 then Premium else if rowIndex > 5 then Vip else Regular
  }

  /** The seat of grid position `k` (row-major): row letter, number from 1,
      id `row + number`, the tier of its row, free iff its draw exceeds
      0.3, selected iff its id is in the selection. */
  function GridSeat(k: nat, draw: real, selected: seq<string>): Seat
    requires k < SeatCount
  {
    var row := [RowLetters[k / SeatsPerRow]];
    var number := k % SeatsPerRow + 1;
    var id := row + NatToString(number);
    Seat(id, row, number, draw > AvailableAbove, id in selected, TierOf(k / SeatsPerRow))
  }

  /** The whole grid for one set of draws. */
  function Grid(draws: seq<real>, selected: seq<string>): (seats: seq<Seat>)
    requires |draws| == SeatCount
    ensures |seats| == SeatCount
    ensures forall k :: 0 <= k < SeatCount ==> seats[k] == GridSeat(k, draws[k], selected)
  {
    seq(SeatCount, k requires 0 <= k < SeatCount => GridSeat(k, draws[k], selected))
  }

  /** Row `r`, seat number `n` (counted from 1) sits at position
      `15 r + n - 1` of the row-major grid. */
  lemma RowMajor(r: nat, n: nat)
    requires r < RowCount && 1 <= n <= SeatsPerRow
    ensures (15 * r + n - 1) / SeatsPerRow == r
    ensures (15 * r + n - 1) % SeatsPerRow + 1 == n
    ensures 15 * r + n - 1 < SeatCount
  {
  }

  /** The seat at row `r`, number `n` of the grid, position `k`. */
  lemma GridSeatAt(r: nat, n: nat, k: nat, draw: real, selected: seq<string>)
    requires r < RowCount && 1 <= n <= SeatsPerRow && k == 15 * r + n - 1
    ensures k < SeatCount
    ensures GridSeat(k, draw, selected)
      == Seat([RowLetters[r]] + NatToString(n), [RowLetters[r]], n, draw > AvailableAbove,
              [RowLetters[r]] + NatToString(n) in selected,
              if r < 2 then Premium else if r > 5 then Vip else Regular)
  {
    RowMajor(r, n);
    GridSeatOf(k, r, n, draw, selected);
  }

  lemma GridSeatOf(k: nat, r: nat, n: nat, draw: real, selected: seq<string>)
    requires k < SeatCount && k / SeatsPerRow == r && k % SeatsPerRow + 1 == n
    ensures r < |RowLetters|
    ensures GridSeat(k, draw, selected)
      == Seat([RowLetters[r]] + NatToString(n), [RowLetters[r]], n, draw > AvailableAbove,
              [RowLetters[r]] + NatToString(n) in selected, TierOf(r))
  {
  }

  /** Appending the next grid seat to a grid prefix gives a longer prefix. */
  lemma GridSnoc(seats: seq<Seat>, seat: Seat, draws: seq<real>, selected: seq<string>)
    requires |seats| < SeatCount && |draws| == SeatCount
    requires forall k :: 0 <= k < |seats| ==> seats[k] == GridSeat(k, draws[k], selected)
    requires seat == GridSeat(|seats|, draws[|seats|], selected)
    ensures forall k :: 0 <= k < |seats| + 1 ==> (seats + [seat])[k] == GridSeat(k, draws[k], selected)
  {
  }

  // ---------------------------------------------------------------------
  // Selection.

  /** `prev.filter(id => id !== seatId)`. */
  function Removed(s: seq<string>, id: string): (r: seq<string>)
    ensures multiset(r) == multiset(s)[id := 0]
    ensures IsSubsequence(r, s)
  {
    if s == [] then []
    else
      assert s == [s[0]] + s[1..];
      if s[0] == id then Removed(s[1..], id) else [s[0]] + Removed(s[1..], id)
  }

  /** `toggleSeat`: drop every occurrence of a selected id, or append a new one. */
  function Toggled(s: seq<string>, id: string): (r: seq<string>)
    ensures id in r <==> id !in s
    ensures forall x :: x != id ==> multiset(r)[x] == multiset(s)[x]
    ensures id !in s ==> r == s + [id]
    ensures id in s ==> IsSubsequence(r, s)
  {
    if id in s then
      var r := Removed(s, id);
      assert id in r <==> multiset(r)[id] > 0;
      r
    else s + [id]
  }

  /** Toggling keeps a list without repeats without repeats. */
  lemma ToggledEffect(s: seq<string>, id: string)
    ensures NoDuplicates(s) ==> NoDuplicates(Toggled(s, id))
  {
    var t := Toggled(s, id);
    if NoDuplicates(s) && id in s {
      NoDuplicatesFromSubsequence(t, s);
    }
  }

  lemma {:induction false} NoDuplicatesFromSubsequence(a: seq<string>, b: seq<string>)
    requires IsSubsequence(a, b) && NoDuplicates(b)
    ensures NoDuplicates(a)
    decreases |b|
  {
    if a != [] {
      assert NoDuplicates(b[1..]);
      if a[0] == b[0] && IsSubsequence(a[1..], b[1..]) {
        NoDuplicatesFromSubsequence(a[1..], b[1..]);
        SubsequenceMembers(a[1..], b[1..]);
        assert b[0] !in b[1..];
        forall j | 0 < j < |a| ensures a[0] != a[j] {
          assert a[j] == a[1..][j - 1];
        }
      } else {
        NoDuplicatesFromSubsequence(a, b[1..]);
      }
    }
  }

  /** Selecting a new seat and clicking it again restores the selection. */
  lemma ToggleTwice(s: seq<string>, id: string)
    requires id !in s
    ensures Toggled(Toggled(s, id), id) == s
  {
    RemovedAbsent(s, id);
    RemovedAppend(s, id);
  }

  lemma {:induction false} RemovedAbsent(s: seq<string>, id: string)
    requires id !in s
    ensures Removed(s, id) == s
  {
    if s != [] {
      RemovedAbsent(s[1..], id);
      HeadTail(s);
    }
  }

  lemma {:induction false} RemovedAppend(s: seq<string>, id: string)
    ensures Removed(s + [id], id) == Removed(s, id)
  {
    if s == [] {
      assert Removed([id], id) == Removed([id][1..], id);
    } else {
      RemovedAppend(s[1..], id);
      SnocTail(s, id);
    }
  }

  // ---------------------------------------------------------------------
  // Prices.

  /** `getSeatPrice`. */
  function SeatPrice(ticketPrice: real, tier: SeatType): (r: real)
    ensures ticketPrice >= 0.0 ==> ticketPrice <= r <= 2.0 * ticketPrice
    ensures ticketPrice > 0.0 ==> (r == ticketPrice <==> tier == Regular)
  {
    match tier
    case Premium => ticketPrice * 1.5
    case Vip => ticketPrice * 2.0
    case Regular => ticketPrice
  }

  /** `seats.find(s => s.id === seatId)`. */
  function FindSeat(seats: seq<Seat>, id: string): (r: Option<Seat>)
    ensures r.Some? ==> r.value in seats && r.value.id == id
    ensures r.None? <==> forall s :: s in seats ==> s.id != id
  {
    if seats == [] then None
    else if seats[0].id == id then Some(seats[0])
    else FindSeat(seats[1..], id)
  }

  /** What one selected id adds to the total: its seat's price, 0 when no
      seat has that id. */
  function PriceOf(seats: seq<Seat>, ticketPrice: real, id: string): (r: real)
    ensures ticketPrice >= 0.0 ==> 0.0 <= r <= 2.0 * ticketPrice
    ensures (forall s :: s in seats ==> s.id != id) ==> r == 0.0
  {
    match FindSeat(seats, id)
    case Some(seat) => SeatPrice(ticketPrice, seat.tier)
    case None => 0.0
  }

  /** The `totalPrice` reduce over the selection. */
  function TotalPrice(seats: seq<Seat>, ticketPrice: real, selected: seq<string>): (r: real)
    ensures ticketPrice >= 0.0 ==> 0.0 <= r <= 2.0 * ticketPrice * (|selected| as real)
  {
    if selected == [] then 0.0
    else
      var n := |selected[1..]| as real;
      assert 2.0 * ticketPrice * (n + 1.0) == 2.0 * ticketPrice * n + 2.0 * ticketPrice;
      PriceOf(seats, ticketPrice, selected[0]) + TotalPrice(seats, ticketPrice, selected[1..])
  }

  lemma {:induction false} TotalPriceAppend(seats: seq<Seat>, ticketPrice: real, s: seq<string>, id: string)
    ensures TotalPrice(seats, ticketPrice, s + [id])
      == TotalPrice(seats, ticketPrice, s) + PriceOf(seats, ticketPrice, id)
  {
    if s != [] {
      TotalPriceAppend(seats, ticketPrice, s[1..], id);
      assert (s + [id])[1..] == s[1..] + [id];
    }
  }

  /** How many times `id` occurs in the selection. */
  function Occurrences(s: seq<string>, id: string): nat
  {
    if s == [] then 0 else (if s[0] == id then 1 else 0) + Occurrences(s[1..], id)
  }

  /** Removing an id that occurs at most once takes its price off the
      total once, or not at all when it is absent. */
  lemma {:induction false} TotalPriceRemoved(seats: seq<Seat>, ticketPrice: real, s: seq<string>, id: string)
    requires Occurrences(s, id) <= 1
    ensures TotalPrice(seats, ticketPrice, s)
      == TotalPrice(seats, ticketPrice, Removed(s, id)) + (if id in s then PriceOf(seats, ticketPrice, id) else 0.0)
  {
    if s != [] {
      if s[0] == id {
        OccurrencesZero(s[1..], id);
        RemovedAbsent(s[1..], id);
      } else {
        TotalPriceRemoved(seats, ticketPrice, s[1..], id);
        var r := Removed(s, id);
        assert r[1..] == Removed(s[1..], id);
        assert id in s <==> id in s[1..];
      }
    }
  }

  lemma {:induction false} OccurrencesZero(s: seq<string>, id: string)
    requires Occurrences(s, id) == 0
    ensures id !in s
  {
    if s != [] {
      OccurrencesZero(s[1..], id);
    }
  }

  lemma {:induction false} OccurrencesOnce(s: seq<string>, id: string)
    requires NoDuplicates(s) && id in s
    ensures Occurrences(s, id) == 1
  {
    assert NoDuplicates(s[1..]);
    if s[0] == id {
      OccurrencesAbsent(s[1..], id);
    } else {
      OccurrencesOnce(s[1..], id);
    }
  }

  lemma {:induction false} OccurrencesAbsent(s: seq<string>, id: string)
    requires id !in s
    ensures Occurrences(s, id) == 0
  {
    if s != [] {
      OccurrencesAbsent(s[1..], id);
    }
  }

  /** A toggle adds the seat's price when it selects and takes it off when
      it deselects a seat selected once. */
  lemma ToggleTotal(seats: seq<Seat>, ticketPrice: real, s: seq<string>, id: string)
    requires NoDuplicates(s)
    ensures id !in s ==>
      TotalPrice(seats, ticketPrice, Toggled(s, id)) == TotalPrice(seats, ticketPrice, s) + PriceOf(seats, ticketPrice, id)
    ensures id in s ==>
      TotalPrice(seats, ticketPrice, Toggled(s, id)) == TotalPrice(seats, ticketPrice, s) - PriceOf(seats, ticketPrice, id)
  {
    if id in s {
      OccurrencesOnce(s, id);
      TotalPriceRemoved(seats, ticketPrice, s, id);
    } else {
      TotalPriceAppend(seats, ticketPrice, s, id);
    }
  }

  // ---------------------------------------------------------------------
  // The grid's properties.

  /** No two grid positions share an id. */
  lemma GridIdsDistinct(j: nat, k: nat, dj: real, dk: real, selected: seq<string>)
    requires j < SeatCount && k < SeatCount
    requires GridSeat(j, dj, selected).id == GridSeat(k, dk, selected).id
    ensures j == k
  {
    var rj, rk := j / SeatsPerRow, k / SeatsPerRow;
    var idj := GridSeat(j, dj, selected).id;
    var idk := GridSeat(k, dk, selected).id;
    assert RowLetters[rj] == idj[0] == idk[0] == RowLetters[rk];
    assert rj == rk;
    assert idj[1..] == NatToString(j % SeatsPerRow + 1);
    assert idk[1..] == NatToString(k % SeatsPerRow + 1);
    NatToStringInjective(j % SeatsPerRow + 1, k % SeatsPerRow + 1);
  }

  /** Looking up a grid seat's id finds that very seat. */
  lemma GridFind(draws: seq<real>, selected: seq<string>, k: nat)
    requires |draws| == SeatCount && k < SeatCount
    ensures FindSeat(Grid(draws, selected), Grid(draws, selected)[k].id) == Some(Grid(draws, selected)[k])
  {
    var seats := Grid(draws, selected);
    var r := FindSeat(seats, seats[k].id);
    var j :| 0 <= j < |seats| && seats[j] == r.value;
    GridIdsDistinct(j, k, draws[j], draws[k], selected);
  }

  /** Row `r`, number `n` of the grid costs the ticket price times 1.5 in
      rows A and B, times 2 in rows G and H, and the plain price in rows
      C to F, whatever the draws. */
  lemma GridSeatPrice(draws: seq<real>, selected: seq<string>, ticketPrice: real, r: nat, n: nat)
    requires |draws| == SeatCount && r < RowCount && 1 <= n <= SeatsPerRow
    ensures PriceOf(Grid(draws, selected), ticketPrice, [RowLetters[r]] + NatToString(n))
      == (if r < 2 then ticketPrice * 1.5 else if r > 5 then ticketPrice * 2.0 else ticketPrice)
  {
    var k := 15 * r + n - 1;
    RowMajor(r, n);
    var seats := Grid(draws, selected);
    assert seats[k] == GridSeat(k, draws[k], selected);
    assert seats[k].id == [RowLetters[r]] + NatToString(n);
    assert seats[k].tier == TierOf(r);
    GridFind(draws, selected, k);
  }

  /** The draws decide availability only: every id costs the same in any
      two grids, so the total does not depend on them. */
  lemma {:induction false} TotalIgnoresDraws(d1: seq<real>, d2: seq<real>, s1: seq<string>, s2: seq<string>,
                                             ticketPrice: real, selected: seq<string>)
    requires |d1| == SeatCount && |d2| == SeatCount
    ensures TotalPrice(Grid(d1, s1), ticketPrice, selected) == TotalPrice(Grid(d2, s2), ticketPrice, selected)
  {
    if selected != [] {
      TotalIgnoresDraws(d1, d2, s1, s2, ticketPrice, selected[1..]);
      FoundTierIgnoresDraws(d1, d2, s1, s2, selected[0]);
      FoundTierIgnoresDraws(d2, d1, s2, s1, selected[0]);
    }
  }

  /** An id found in one grid is found in any other, with the same tier. */
  lemma FoundTierIgnoresDraws(d1: seq<real>, d2: seq<real>, s1: seq<string>, s2: seq<string>, id: string)
    requires |d1| == SeatCount && |d2| == SeatCount
    ensures FindSeat(Grid(d1, s1), id).Some? ==>
      FindSeat(Grid(d2, s2), id).Some? && FindSeat(Grid(d2, s2), id).value.tier == FindSeat(Grid(d1, s1), id).value.tier
  {
    var g1, g2 := Grid(d1, s1), Grid(d2, s2);
    if FindSeat(g1, id).Some? {
      var k :| 0 <= k < SeatCount && g1[k] == FindSeat(g1, id).value;
      GridSeatDrawFree(k, d1[k], d2[k], s1, s2);
      GridFind(d2, s2, k);
    }
  }

  /** A grid position's id and tier depend neither on its draw nor on the selection. */
  lemma GridSeatDrawFree(k: nat, da: real, db: real, sa: seq<string>, sb: seq<string>)
    requires k < SeatCount
    ensures GridSeat(k, da, sa).id == GridSeat(k, db, sb).id
    ensures GridSeat(k, da, sa).tier == GridSeat(k, db, sb).tier
  {
  }

  /** Every grid seat is selected exactly when its id is in the selection,
      and the tiers cover the rows as described. */
  lemma GridSelectionAndTiers(draws: seq<real>, selected: seq<string>)
    requires |draws| == SeatCount
    ensures forall k :: 0 <= k < SeatCount ==> (Grid(draws, selected)[k].isSelected <==> Grid(draws, selected)[k].id in selected)
    ensures forall k :: 0 <= k < SeatCount ==> (Grid(draws, selected)[k].tier == Premium <==> k < 30)
    ensures forall k :: 0 <= k < SeatCount ==> (Grid(draws, selected)[k].tier == Vip <==> k >= 90)
    ensures forall k :: 0 <= k < SeatCount ==> (Grid(draws, selected)[k].isAvailable <==> draws[k] > AvailableAbove)
  {
  }

  lemma TotalOfTwo(seats: seq<Seat>, ticketPrice: real, a: string, b: string)
    ensures TotalPrice(seats, ticketPrice, [a, b])
      == PriceOf(seats, ticketPrice, a) + PriceOf(seats, ticketPrice, b)
  {
    assert [a, b][1..] == [b];
    assert TotalPrice(seats, ticketPrice, [b]) == PriceOf(seats, ticketPrice, b) + TotalPrice(seats, ticketPrice, []);
  }

  // ---------------------------------------------------------------------
  // The draft booking.

  /** `handleBooking`: no draft when nothing is selected or the customer's
      name or email is empty; otherwise a confirmed booking of the
      selection at the total, for the entered email. */
  function BookingDraft(movie: Movie, showtime: Showtime, selected: seq<string>, total: real,
                        name: string, email: string, id: string, bookingDate: string): (r: Option<Booking>)
    ensures r.None? <==> selected == [] || name == "" || email == ""
    ensures r.Some? ==>
      && r.value.seats == selected && r.value.totalPrice == total
      && r.value.status == Confirmed && r.value.userEmail == email
      && r.value.movieId == movie.id && r.value.showtimeId == showtime.id
      && r.value.id == id && r.value.bookingDate == bookingDate
  {
    if selected == [] || name == "" || email == "" then None
    else Some(Booking(id, movie.id, showtime.id, selected, total, bookingDate, Confirmed, email))
  }

  /** The dialog for one movie and showtime. The customer's name and email
      have no input field, so they stay empty. */
  class BookingModalState {
    const movie: Movie
    const showtime: Showtime
    const customerName: string := ""
    const customerEmail: string := ""
    var selectedSeats: seq<string>

    constructor (movie: Movie, showtime: Showtime)
      ensures this.movie == movie && this.showtime == showtime
      ensures selectedSeats == []
    {
      this.movie := movie;
      this.showtime := showtime;
      selectedSeats := [];
    }

    /** `generateSeats`: rows A to H, numbers 1 to 15, row by row. */
    method GenerateSeats(draws: seq<real>) returns (seats: seq<Seat>)
      requires |draws| == SeatCount
      ensures seats == Grid(draws, selectedSeats)
    {
      seats := [];
      var rowIndex := 0;
      while rowIndex < RowCount
        invariant 0 <= rowIndex <= RowCount
        invariant |seats| == 15 * rowIndex
        invariant forall k :: 0 <= k < |seats| ==> seats[k] == GridSeat(k, draws[k], selectedSeats)
      {
        var row := [RowLetters[rowIndex]];
        var seatNum := 1;
        while seatNum <= SeatsPerRow
          invariant 1 <= seatNum <= SeatsPerRow + 1
          invariant |seats| == 15 * rowIndex + seatNum - 1
          invariant forall k :: 0 <= k < |seats| ==> seats[k] == GridSeat(k, draws[k], selectedSeats)
        {
          var seatId := row + NatToString(seatNum);
          var isAvailable := draws[|seats|] > AvailableAbove;
          var tier := if rowIndex < 2 then Premium else if rowIndex > 5 then Vip else Regular;
          var seat := Seat(seatId, row, seatNum, isAvailable, seatId in selectedSeats, tier);
          GridSeatAt(rowIndex, seatNum, |seats|, draws[|seats|], selectedSeats);
          GridSnoc(seats, seat, draws, selectedSeats);
          seats := seats + [seat];
          seatNum := seatNum + 1;
        }
        rowIndex := rowIndex + 1;
      }
    }

    method ToggleSeat(seatId: string)
      modifies this
      ensures selectedSeats == Toggled(old(selectedSeats), seatId)
    {
      if seatId in selectedSeats {
        selectedSeats := Removed(selectedSeats, seatId);
      } else {
        selectedSeats := selectedSeats + [seatId];
      }
    }

    /** A click on a seat toggles it only when the seat is free. */
    method ClickSeat(seat: Seat)
      modifies this
      ensures seat.isAvailable ==> selectedSeats == Toggled(old(selectedSeats), seat.id)
      ensures !seat.isAvailable ==> selectedSeats == old(selectedSeats)
    {
      if seat.isAvailable {
        ToggleSeat(seat.id);
      }
    }

    /** The draft for the current selection, priced on this render's grid. */
    method HandleBooking(id: string, bookingDate: string, draws: seq<real>) returns (r: Option<Booking>)
      requires |draws| == SeatCount
      ensures r == BookingDraft(movie, showtime, selectedSeats,
                                TotalPrice(Grid(draws, selectedSeats), showtime.ticketPrice, selectedSeats),
                                customerName, customerEmail, id, bookingDate)
      ensures r == None
    {
      var seats := GenerateSeats(draws);
      var total := TotalPrice(seats, showtime.ticketPrice, selectedSeats);
      r := BookingDraft(movie, showtime, selectedSeats, total, customerName, customerEmail, id, bookingDate);
    }
  }
}
