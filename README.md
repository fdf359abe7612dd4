# CinemaBook storefront — a verified model

CinemaBook is a React storefront for cinema tickets. The customer browses the catalog and searches it by title, description and genre. They open a movie and pick a date and a showtime, choose seats on an 8 by 15 grid, and pay with the in-app wallet, a QR wallet or a card. The data hook (`useMovieData`) keeps the session user and their wallet balance, the bookings and the showtimes. It saves the user and the bookings in the browser's local storage, and it answers the catalog queries: popular movies, showtimes per movie, search, and recommendations drawn from the genres of booked movies. A separate module builds the signed redirect URL for the VNPAY payment gateway.

The model has one Dafny module per source file of the core, plus three shared modules:

- `Seqs`: the order-preserving filter, `slice(0, n)` and the sub-list relation.
- `Text`: ASCII lower-casing, `includes`, `split`, `join` and `trim`, decimal rendering, and the default string sort order.
- `Types`: the entities.

Where the source changes state step by step, the model does too. The data hook (`MovieData.MovieStore`), the page shell (`App.AppState`), the seat dialog (`BookingModal.BookingModalState`), the payment dialog (`PaymentModal.PaymentModalState`) and the VNPAY request (`VnPayApi.VnPayRequest`) are classes whose methods update their fields. Queries and renderings are functions, and lemmas relate them.

Inputs the model cannot compute are parameters:

- The random draws that decide which seats are free.
- The clock readings used for ids, dates and the VNPAY creation date.
- The keyed hash and the URL encoder of the VNPAY request.
- The theater list of the detail page.

`VnPayApi.PayUrl` models `payUrl` exactly as the code is written. Its corrected counterpart is `VnPayApi.PayUrlStripped`, described under Findings.

## Model

| member | source | states |
|---|---|---|
| Seqs.Filter | src/hooks/useMovieData.ts:89 | `Array.filter`: the result keeps exactly the elements that pass, in their original order, and a filter that everything passes returns the input |
| Seqs.FilterCount | src/hooks/useMovieData.ts:114-115 | every element that passes occurs in the result as often as in the input, and no other element occurs |
| Seqs.FilterAppend | src/App.tsx:151 | filtering a list with an element appended filters the list and then the element |
| Seqs.FilterCommute | src/components/ShowtimesModal.tsx:76 | two filters run one after the other can be swapped |
| Seqs.Take | src/hooks/useMovieData.ts:116 | `slice(0, n)`: the first min(n, length) elements, in order, as a sub-list |
| Text.LowerChar | src/hooks/useMovieData.ts:125 | lower-casing one character maps A–Z to a–z and leaves every other character alone |
| Text.ToLower | src/hooks/useMovieData.ts:125-126 | `toLowerCase` keeps the length and lower-cases each character in place |
| Text.ToLowerIdempotent | src/hooks/useMovieData.ts:125-126 | lower-casing twice gives the same text as lower-casing once |
| Text.ContainsAt | src/hooks/useMovieData.ts:125-126 | `includes` holds exactly when the query occurs at some offset; the empty query occurs in every text |
| Text.Contains | src/hooks/useMovieData.ts:125-126 | a text that starts with the query contains it, and a text contains only queries no longer than itself |
| Text.IntToString | src/api/vnpayApi.ts:15 | the text of a number is not empty, starts with '-' exactly when the number is negative, and is digits after that |
| Text.NameFromEmail | src/hooks/useMovieData.ts:32 | `email.split('@')[0]` is the prefix of the email before its first '@', or the whole email when there is none |
| Text.NatToString | src/components/BookingModal.tsx:36 | a whole number renders as decimal digits with no leading zero |
| Text.ParseNatToString | src/components/BookingModal.tsx:36 | reading the rendered digits gives the number back |
| Text.NatToStringInjective | src/components/BookingModal.tsx:36 | different numbers render as different texts |
| Text.Split | src/components/MovieDetail.tsx:109 | `split(sep)` gives one more piece than there are separators, and no piece contains the separator |
| Text.JoinSplit | src/components/MovieDetail.tsx:109 | joining the pieces of a split with the separator restores the text |
| Text.SplitJoin | src/components/MovieDetail.tsx:109 | splitting the join of separator-free pieces gives back the pieces |
| Text.TrimStart | src/components/MovieDetail.tsx:114 | the result is a suffix of the input, and only white space was removed before it |
| Text.TrimEnd | src/components/MovieDetail.tsx:114 | the result is a prefix of the input, and only white space was removed after it |
| Text.Trim | src/components/MovieDetail.tsx:114 | `trim()` returns the slice of the text between white space at both ends; it is empty or starts and ends with a non-space character |
| Text.StrLeTotal | src/api/vnpayApi.ts:15 | under the default string sort order, any two keys are comparable |
| Text.StrLeTransitive | src/api/vnpayApi.ts:15 | the default string sort order is transitive |
| Text.StrLeAntisymmetric | src/api/vnpayApi.ts:15 | keys ordered both ways are equal |
| MovieData.ReserveSeats | src/hooks/useMovieData.ts:81-85 | every showtime with the booked id loses the booked seat count; no other field and no other showtime changes, and nothing stops the count going negative |
| MovieData.ReserveSeatsLeft | src/hooks/useMovieData.ts:81-85 | a booking of n seats removes n seats from the total for each showtime carrying its id |
| MovieData.MovieStore.constructor | src/hooks/useMovieData.ts:7-25 | the mount effect restores the saved bookings (none if nothing is saved) and the saved user, and the browser store then holds what a reload needs |
| MovieData.MovieStore.Login | src/hooks/useMovieData.ts:27-38 | the user becomes a new account named after the email's local part, with balance 100 and no history; the saved user matches; the catalog and bookings are unchanged |
| MovieData.MovieStore.Register | src/hooks/useMovieData.ts:40-50 | the user becomes a new account with the given name and balance 50; the saved user matches |
| MovieData.MovieStore.Logout | src/hooks/useMovieData.ts:52-55 | no user and no saved user remain |
| MovieData.MovieStore.TopUpBalance | src/hooks/useMovieData.ts:57-63 | the current user's balance grows by the amount; with no user nothing changes |
| MovieData.MovieStore.DeductBalance | src/hooks/useMovieData.ts:65-73 | succeeds exactly when a user is present whose balance covers the amount (an equal balance is enough) and then deducts it; a failed attempt changes nothing |
| MovieData.MovieStore.AddBooking | src/hooks/useMovieData.ts:75-86 | the booking is appended to the list, the saved list matches, and the showtimes become `ReserveSeats` of the old ones |
| MovieData.PopularMovies | src/hooks/useMovieData.ts:88-90 | exactly the popular movies, in catalog order |
| MovieData.MovieShowtimes | src/hooks/useMovieData.ts:119-121 | exactly the showtimes of the movie, in order |
| MovieData.SearchMovies | src/hooks/useMovieData.ts:123-130 | exactly the movies whose title or description contains the query (ignoring case) and that list the genre, unless no genre is given; in catalog order |
| MovieData.SearchEmptyKeepsAll | src/hooks/useMovieData.ts:123-130 | an empty query with no genre keeps the whole catalog |
| MovieData.SearchIgnoresCase | src/hooks/useMovieData.ts:125-126 | a lower-cased query finds the same movies as the original |
| MovieData.FindMovie | src/hooks/useMovieData.ts:99 | `find` returns the first catalog movie with the id, or nothing exactly when no movie has it |
| MovieData.BookedMovies | src/hooks/useMovieData.ts:98-100 | at most one movie per booking; the catalog movie of every booking whose movie exists is listed, and every listed movie is the movie some booking finds |
| MovieData.BookedMoviesAppend | src/hooks/useMovieData.ts:98-100 | one more booking appends its catalog movie, or nothing when the catalog lacks it: one movie per matched booking, in booking order, repeats kept |
| MovieData.BookedMoviesCons | src/hooks/useMovieData.ts:98-100 | a first booking puts its catalog movie, or nothing, ahead of the movies of the rest |
| MovieData.LikedGenres | src/hooks/useMovieData.ts:102 | a genre is liked exactly when some booked movie lists it |
| MovieData.LikedGenresAppend | src/hooks/useMovieData.ts:102 | the liked genres of two lists of movies are those of the first followed by those of the second, every repetition kept |
| MovieData.LikedGenresCons | src/hooks/useMovieData.ts:102 | a first movie puts all its genres, in order, ahead of the genres of the rest |
| MovieData.CountOfEntry | src/hooks/useMovieData.ts:103-106 | in a tally without repeated genres, an entry's count is the count looked up for its genre |
| MovieData.CountOfPositive | src/hooks/useMovieData.ts:103-106 | a genre with a positive count has an entry in the tally |
| MovieData.Bump | src/hooks/useMovieData.ts:104 | increments the genre's count, or adds it with count 1; every other count is unchanged, and genres stay distinct |
| MovieData.Tally | src/hooks/useMovieData.ts:103-106 | one entry per distinct genre, each holding that genre's number of occurrences |
| MovieData.InsertByCount | src/hooks/useMovieData.ts:109 | inserting an entry adds exactly that entry |
| MovieData.InsertByCountSorted | src/hooks/useMovieData.ts:109 | inserting into a list sorted by descending count keeps it sorted |
| MovieData.SortByCount | src/hooks/useMovieData.ts:109 | the sort is a permutation ordered by descending count |
| MovieData.InsertByCountStable | src/hooks/useMovieData.ts:109 | insertion puts the new entry before existing entries with the same count and keeps their order |
| MovieData.SortByCountStable | src/hooks/useMovieData.ts:109 | the sort is stable: entries with equal counts keep their tally order |
| MovieData.Genres | src/hooks/useMovieData.ts:111 | `map(([genre]) => genre)` takes each entry's genre, in order |
| MovieData.LeadingEntryDominates | src/hooks/useMovieData.ts:108-111 | any entry among the first k of the sorted tally occurs at least as often as a liked genre outside them |
| MovieData.LeadingGenresDominate | src/hooks/useMovieData.ts:108-111 | the first k genres of the sorted tally are liked genres, and none of them occurs less often than a liked genre left out |
| MovieData.TopGenres | src/hooks/useMovieData.ts:108-111 | exactly three genres, or every liked genre when fewer than three are liked; none twice; all liked; none occurring less often than any liked genre left out |
| MovieData.DistinctGenresPermutation | src/hooks/useMovieData.ts:108-109 | sorting the tally keeps one entry per genre |
| MovieData.LeadingGenresDistinct | src/hooks/useMovieData.ts:110-111 | the genres kept from the front of such a tally are distinct |
| MovieData.Candidates | src/hooks/useMovieData.ts:113-115 | exactly the catalog movies that no booking refers to and that share a top genre, in catalog order |
| MovieData.NotBookedUnreferenced | src/hooks/useMovieData.ts:114 | a catalog movie is absent from the booked movies exactly when no booking refers to it |
| MovieData.RecommendedMovies | src/hooks/useMovieData.ts:92-117 | with no user or no bookings, the first four movies; otherwise the first six candidates (unbooked movies sharing a top genre) in catalog order, or all of them when there are fewer than six |
| BookingModal.Grid | src/components/BookingModal.tsx:30-52 | 120 seats; position k is row k/15 (letters A–H), number k%15+1, id row+number, premium in rows A–B and vip in rows G–H, free iff its draw exceeds 0.3, selected iff its id is selected |
| BookingModal.RowMajor | src/components/BookingModal.tsx:34-35 | row r, seat number n (from 1) sits at grid position 15r+n-1, from which row r and number n are read back |
| BookingModal.GridSeatAt | src/components/BookingModal.tsx:34-46 | the seat the loops build for row r and number n is the grid seat at position 15r+n-1 |
| BookingModal.BookingModalState.GenerateSeats | src/components/BookingModal.tsx:30-52 | the nested row and seat loops build exactly `Grid` for the draws and the current selection |
| BookingModal.Removed | src/components/BookingModal.tsx:59 | `filter(id => id !== seatId)` deletes every occurrence of the id and keeps everything else in order |
| BookingModal.Toggled | src/components/BookingModal.tsx:56-62 | a toggle flips whether the id is selected and leaves every other id as often as it was; a new id is appended at the end, and a removal keeps the other ids in order |
| BookingModal.ToggledEffect | src/components/BookingModal.tsx:56-62 | a toggle keeps a selection without repeats without repeats |
| BookingModal.ToggleTwice | src/components/BookingModal.tsx:56-62 | selecting a new seat and clicking it again restores the selection |
| BookingModal.BookingModalState.ToggleSeat | src/components/BookingModal.tsx:56-62 | the selection becomes its toggle by the seat id |
| BookingModal.BookingModalState.ClickSeat | src/components/BookingModal.tsx:131-132 | a click toggles a free seat and leaves the selection unchanged for a taken one |
| BookingModal.FindSeat | src/components/BookingModal.tsx:74 | `find` returns a seat with the id, or nothing exactly when no seat has it |
| BookingModal.SeatPrice | src/components/BookingModal.tsx:64-71 | at a non-negative ticket price a seat costs between the price and twice the price; at a positive price it costs exactly the price iff it is a regular seat |
| BookingModal.PriceOf | src/components/BookingModal.tsx:74-75 | a selected id adds between 0 and twice the ticket price, and 0 when no seat has it |
| BookingModal.TotalPrice | src/components/BookingModal.tsx:73-76 | at a non-negative ticket price the total lies between 0 and twice the price per selected id |
| BookingModal.TotalPriceAppend | src/components/BookingModal.tsx:73-76 | appending an id adds that seat's price to the total |
| BookingModal.TotalPriceRemoved | src/components/BookingModal.tsx:73-76 | removing an id selected at most once subtracts its price once, or nothing if it was absent |
| BookingModal.OccurrencesOnce | src/components/BookingModal.tsx:56-62 | in a selection without repeats, a selected id occurs once |
| BookingModal.ToggleTotal | src/components/BookingModal.tsx:56-76 | a toggle adds the seat's price when it selects the seat and subtracts it when it deselects |
| BookingModal.GridIdsDistinct | src/components/BookingModal.tsx:36 | no two grid positions share a seat id |
| BookingModal.GridFind | src/components/BookingModal.tsx:74 | looking up a grid seat's id finds that very seat |
| BookingModal.GridSeatPrice | src/components/BookingModal.tsx:64-71 | seat row r, number n costs 1.5 times the ticket price in rows A–B, 2 times in rows G–H and the plain price elsewhere, whatever the draws |
| BookingModal.TotalIgnoresDraws | src/components/BookingModal.tsx:54-76 | the total is the same for any draws, so regenerating the grid on each render does not change it |
| BookingModal.FoundTierIgnoresDraws | src/components/BookingModal.tsx:74 | an id found in one grid is found in any other grid, with the same tier |
| BookingModal.GridSeatDrawFree | src/components/BookingModal.tsx:36-45 | a position's id and tier depend neither on its draw nor on the selection |
| BookingModal.GridSelectionAndTiers | src/components/BookingModal.tsx:37-45 | each seat is selected iff its id is selected; the first 30 seats are premium, the last 30 are vip, and a seat is free iff its draw exceeds 0.3 |
| BookingModal.TotalOfTwo | src/components/BookingModal.tsx:73-76 | the total of two ids is the sum of their prices |
| BookingModal.BookingDraft | src/components/BookingModal.tsx:78-95 | no draft exactly when no seat is selected or the name or email is empty; otherwise a confirmed booking of the selected seats at the total, for the entered email |
| BookingModal.BookingModalState.constructor | src/components/BookingModal.tsx:22 | the dialog opens with no seat selected |
| BookingModal.BookingModalState.HandleBooking | src/components/BookingModal.tsx:78-95 | the result is the draft for the selection priced on the current grid, and it is always none because the name and email stay empty |
| PaymentModal.MethodIds | src/components/PaymentModal.tsx:26-32 | the ids of the methods, in order |
| PaymentModal.OfferedMethods | src/components/PaymentModal.tsx:26-32 | the offered ids are wallet, three QR wallets and card, and exactly the QR methods carry the "qr_" prefix |
| PaymentModal.PaymentOutcome | src/components/PaymentModal.tsx:34-56 | refused exactly for a wallet payment that the balance does not cover; a QR stage exactly for an accepted "qr_" method; the selected method is captured |
| PaymentModal.PaymentReachesCallback | src/components/PaymentModal.tsx:43-54 | every payment that is not refused ends in the success callback with the method that was selected |
| PaymentModal.PaymentModalState.constructor | src/components/PaymentModal.tsx:20-22 | the wallet is selected first; no QR code and no completion are shown |
| PaymentModal.PaymentModalState.SelectMethod | src/components/PaymentModal.tsx:144 | picks one of the offered methods |
| PaymentModal.PaymentModalState.HandlePayment | src/components/PaymentModal.tsx:34-56 | the scheduled timer is `PaymentOutcome` of the selection; a QR payment shows the code, any other accepted payment shows completion, and a refused one changes nothing |
| PaymentModal.PaymentModalState.QrTimerFires | src/components/PaymentModal.tsx:43-48 | the code is hidden, completion is shown, and the callback is scheduled with the method captured at payment |
| App.FilteredIsSearch | src/App.tsx:53-55 | skipping the search when the query and genre are both empty lists the same movies as the search |
| App.FilteredMovies | src/App.tsx:53-55 | the listed movies are exactly the catalog movies that match the query and the genre, in catalog order |
| App.UserBookings | src/App.tsx:151 | exactly the bookings made with the user's email, in order |
| App.UserBookingsAppend | src/App.tsx:151 | a new booking appears at the end of the history of the user whose email it carries, and of nobody else |
| App.AppState.constructor | src/App.tsx:35-47 | empty search, no movie, no booking in progress, no dialog open |
| App.AppState.HandleBookTicket | src/App.tsx:61-64 | closes the detail view and opens the seat dialog for the movie and showtime; the search query, genre and the other dialogs are unchanged |
| App.AppState.HandleConfirmBooking | src/App.tsx:66-76 | without a user, asks for sign-in and holds nothing; with one, holds the booking, closes the seat dialog and opens payment; a booking is only ever held when a user is present; the search query and genre are unchanged |
| App.AppState.HandlePaymentSuccess | src/App.tsx:78-93 | with no pending booking nothing changes; a wallet payment the balance does not cover changes nothing; otherwise the booking is added once with its seats reserved, the wallet (and only the wallet) is charged, and the payment step closes; the search query and genre are unchanged |
| App.AppState.HandleBookNow | src/App.tsx:114-120 | without a user, asks for sign-in and opens no movie; with one, opens the movie; the search query, genre, payment step and held booking are unchanged |
| VnPayApi.HexDigit | src/api/vnpayApi.ts:11 | each digit value maps to a lower-case hex character |
| VnPayApi.ByteHex | src/api/vnpayApi.ts:11 | each byte gives two lower-case hex digits whose value is the byte |
| VnPayApi.ToHex | src/api/vnpayApi.ts:10-11 | the hex text is twice as long as the bytes and uses lower-case hex digits only |
| VnPayApi.FromHexToHex | src/api/vnpayApi.ts:10-11 | the hex text reads back as the same bytes, so no two signatures share a hex text |
| VnPayApi.Lookup | src/api/vnpayApi.ts:15 | `data[k]` is the value of an entry with key k, and nothing exactly when k is not a key |
| VnPayApi.LookupEntry | src/api/vnpayApi.ts:15 | in a record with distinct keys, `data[k]` is the value of k's own entry |
| VnPayApi.InsertKey | src/api/vnpayApi.ts:15 | inserting a key adds exactly that key |
| VnPayApi.InsertKeySorted | src/api/vnpayApi.ts:15 | inserting into an ascending key list keeps it ascending |
| VnPayApi.SortKeys | src/api/vnpayApi.ts:15 | `Object.keys(data).sort()` returns a permutation of the keys |
| VnPayApi.SortKeysSorted | src/api/vnpayApi.ts:15 | the sorted keys are in ascending order |
| VnPayApi.SortKeysMembers | src/api/vnpayApi.ts:15 | sorting neither adds nor loses a key |
| VnPayApi.PairsFor | src/api/vnpayApi.ts:15 | one pair per listed key, in order, holding the key and the text of its value |
| VnPayApi.PairsForHas | src/api/vnpayApi.ts:15 | every listed key is paired with the text of its value |
| VnPayApi.PairsForEntry | src/api/vnpayApi.ts:15 | pairing keys that include a field's key emits that field with the text of its value |
| VnPayApi.SortedPairsSpec | src/api/vnpayApi.ts:13-17 | every field of the record is emitted once, with the text of its value, in strictly ascending key order, and nothing else is emitted |
| VnPayApi.SortedPairs | src/api/vnpayApi.ts:15 | one pair per field, in ascending key order, each key with the text of its value |
| VnPayApi.SortedPairsOrdered | src/api/vnpayApi.ts:15 | one pair per field, in strictly ascending key order |
| VnPayApi.SortedPairsFrom | src/api/vnpayApi.ts:15 | every emitted pair is a field of the record with the text of its value |
| VnPayApi.SortedPairsHas | src/api/vnpayApi.ts:15 | every field of a record with distinct keys is emitted with the text of its value |
| VnPayApi.PairStrings | src/api/vnpayApi.ts:16 | each pair becomes `encoded name=encoded value` |
| VnPayApi.SerializeSplits | src/api/vnpayApi.ts:16 | with an encoder that escapes '&', the query splits back into its pieces, one per pair, in order |
| VnPayApi.Serialize | src/api/vnpayApi.ts:16 | the query starts with the first pair's `name=value` piece and, with an encoder that escapes '&', holds one '&' fewer than there are pairs |
| VnPayApi.PiecesJoinCount | src/api/vnpayApi.ts:16 | the joined `name=value` pieces start with the first one and hold one '&' between each two pieces |
| Text.JoinStartsWithFirst | src/api/vnpayApi.ts:16 | a join starts with its first piece |
| Text.JoinCount | src/api/vnpayApi.ts:16 | joining separator-free pieces puts exactly one separator between each two pieces |
| VnPayApi.BuildSortedQuery | src/api/vnpayApi.ts:13-17 | the loop produces the serialised pairs of the record in ascending key order |
| VnPayApi.PairsForSnoc | src/api/vnpayApi.ts:15 | each turn of the `forEach` appends the next key's pair |
| VnPayApi.WithoutHashFields | src/api/vnpayApi.ts:35 | keeps exactly the entries that are not hash fields, and keeps keys distinct |
| VnPayApi.AsStrings | src/api/vnpayApi.ts:53 | each field becomes its name and the text of its value, in order |
| VnPayApi.Put | src/api/vnpayApi.ts:52-56 | a property after a spread: the key then holds the value and every other key keeps its value; a new key goes last, and an existing key keeps its place |
| VnPayApi.FinalParamsOrder | src/api/vnpayApi.ts:52-56 | for a record without hash fields, the URL lists its fields in order, then the signature type HmacSHA512, then the signature |
| VnPayApi.FinalParams | src/api/vnpayApi.ts:52-56 | the URL parameters carry the signature and the signature type HmacSHA512, and every other key keeps the text of its record value |
| VnPayApi.FinalParamsReplaceHash | src/api/vnpayApi.ts:52-56 | for a record that already has `vnp_SecureHash`, the new signature replaces the old value in place and the signature type comes last |
| VnPayApi.DropSeparators | src/api/vnpayApi.ts:44 | `replace(/[-:T]/g, '')` keeps exactly the characters other than '-', ':' and 'T' |
| VnPayApi.DropSeparatorsAppend | src/api/vnpayApi.ts:44 | removing separators from two texts joined equals removing them from each |
| VnPayApi.DropIsoSeparators | src/api/vnpayApi.ts:44 | removing separators from an ISO timestamp keeps its digit fields in order |
| VnPayApi.CompactIsoTimestamp | src/api/vnpayApi.ts:44 | for a clock reading in ISO form, the creation date is `yyyyMMddHHmmss` |
| VnPayApi.CompactTimestamp | src/api/vnpayApi.ts:44 | at most 14 characters, all from the clock text and none of them '-', ':' or 'T'; exactly 14 when that many remain |
| VnPayApi.Zip | src/types/vnpay.ts:1-17 | pairs each field name with the value at the same position |
| VnPayApi.FieldKeysDistinct | src/types/vnpay.ts:1-17 | the request's field names are distinct |
| VnPayApi.VnPayRequest.constructor | src/types/vnpay.ts:1-17 | a request carries the caller's reference, amount, order text and expiry date |
| VnPayApi.VnPayRequest.Entries | src/api/vnpayApi.ts:47 | `{ ...req }` has distinct keys and includes the request's own `vnp_SecureHash` |
| VnPayApi.AsWrittenSignsHashField | src/api/vnpayApi.ts:47-50 | as written, the request's incoming `vnp_SecureHash` is part of the signed text |
| VnPayApi.SignedPairsExcludeHash | src/api/vnpayApi.ts:35 | with the hash fields stripped, the signed pairs include every other field once, in ascending key order, and no hash field |
| VnPayApi.SignedUrl | src/api/vnpayApi.ts:47-58 | the URL is the base URL with the record's fields, the signature type and the hex signature of its sorted query |
| VnPayApi.Configure | src/api/vnpayApi.ts:36-45 | sets version 2.1.0, command pay, the merchant code, return URL, VND, 127.0.0.1, locale vn and order type other; scales the amount by 26000 and then 100; stamps the creation date; leaves the caller's fields as they were |
| VnPayApi.PayUrl | src/api/vnpayApi.ts:34-59 | the field updates of `Configure`; the URL is built over every field of the request, the hash field included, and signed over the same |
| VnPayApi.PayUrlStripped | src/api/vnpayApi.ts:34-59 | the same field updates; the URL lists the non-hash fields, then the signature type and a signature over the non-hash fields only |
| MovieDetail.TrimAll | src/components/MovieDetail.tsx:109-114 | each piece is trimmed, in order |
| MovieDetail.TrimKeepsOut | src/components/MovieDetail.tsx:114 | trimming never introduces a character the text lacks |
| MovieDetail.DisplayGenres | src/components/MovieDetail.tsx:109-114 | no chips when the genre text is missing; otherwise one chip more than there are commas, none containing a comma, and each chip is empty or has no white space at either end |
| MovieDetail.DisplayGenresOfList | src/components/MovieDetail.tsx:109-114 | genre names written with commas and spacing give back one trimmed chip per name, in order |
| MovieDetail.TheaterIds | src/components/MovieDetail.tsx:36 | the theater id of each showtime, in order |
| MovieDetail.KeepTheaters | src/components/MovieDetail.tsx:37 | exactly the theaters whose id is listed, in catalog order |
| MovieDetail.GetTheaters | src/components/MovieDetail.tsx:35-38 | exactly the catalog theaters where some of the showtimes take place, in catalog order |
| MovieDetail.TheaterFor | src/components/MovieDetail.tsx:199 | `find` gives the first theater with the id, and gives nothing exactly when no theater has it |
| MovieDetail.TheaterForKept | src/components/MovieDetail.tsx:189 | narrowing the theaters to a set of ids that contains the id does not change which theater is found |
| MovieDetail.ShownTheaterIsBookedTheater | src/components/MovieDetail.tsx:189-201 | the theater named on a showtime card is the one its button passes on, whichever showtimes the theaters were narrowed by |
| MovieDetail.ShowtimesOn | src/components/MovieDetail.tsx:48 | exactly the showtimes of the selected date, in order |
| MovieDetail.OverbookedStaysEnabled | src/components/MovieDetail.tsx:206 | as written, a showtime booked beyond its remaining seats has a negative count and an enabled button |
| MovieDetail.DisabledAsWritten | src/components/MovieDetail.tsx:206 | the written test disables the button only when no seat is left, and never for a negative count |
| MovieDetail.SoldOut | src/components/MovieDetail.tsx:206 | the intended test disables whenever the written one does and also for a negative count; an enabled button means seats remain |
| MovieDetail.OverbookedClickBooks | src/components/MovieDetail.tsx:197-206 | as written, clicking a showtime booked beyond its seats still starts the booking flow |
| MovieDetail.SoldOutAgrees | src/components/MovieDetail.tsx:206 | for counts that are not negative, the intended sold-out test and the written one agree |
| MovieDetail.ReservedSoldOut | src/hooks/useMovieData.ts:81-85 | booking at least the remaining seats sells a showtime out; showtimes that `addBooking` does not touch keep their sold-out state |
| MovieDetail.BookClick | src/components/MovieDetail.tsx:197-206 | the booking flow starts exactly when the showtime's seat count is not zero and a theater with its id is found, and it receives the movie, the showtime and that theater |
| MovieDetail.ListedShowtimeBooks | src/components/MovieDetail.tsx:47-206 | a listed showtime can be booked exactly when its seat count is not zero and the catalog has its theater, and it is booked in the first catalog theater with that id |
| ShowtimesModal.DefaultDateIsFirstChoice | src/components/ShowtimesModal.tsx:20-28 | the dialog opens on the first of three distinct dates |
| ShowtimesModal.MoviesWithShowtimes | src/components/ShowtimesModal.tsx:31-33 | exactly the catalog movies with a showtime on the day, in catalog order |
| ShowtimesModal.ListedShowtimes | src/components/ShowtimesModal.tsx:76 | a movie's listed showtimes are its showtimes on the day, in schedule order, whichever filter runs first |
| ShowtimesModal.ListedIffShowtimes | src/components/ShowtimesModal.tsx:30-76 | a movie is listed exactly when its showtimes for the day are not empty |
| ShowtimesModal.ShownGenres | src/components/ShowtimesModal.tsx:91 | the first three genres, or all of them when there are three or fewer |
| ShowtimesModal.ScheduleBookClick | src/components/ShowtimesModal.tsx:140-141 | the booking flow starts with the movie and the showtime exactly when the showtime's seat count is not zero |

## Left out

- Rendering: JSX, styling and icons are not modelled. So are the trailer and promotions dialogs, and the hero, header, filter-bar and card components. Only the state these components read or change is modelled.
- HTTP wrappers: `axiosClient`, `movieApi`, `showtimeApi`, `bookingApi` and `authApi` are not part of this model, because the core does not call them.
- The keyed hash: HMAC-SHA512 over UTF-8 bytes, computed through `crypto.subtle`, is the function parameter `sign`.
- URL encoding: the form-urlencoding of `URLSearchParams` is the function parameter `encode`.
- Async code: `await` and promise timing are not modelled.
- `redirect`: assigning `window.location` is browser I/O and is not modelled.
- Local storage: the saved entries are ghost mirrors (`savedUser`, `savedBookings`) related to the live state by `Valid`. JSON encoding and storage failures are not modelled.
- Timers: `setTimeout` becomes a returned pending event (`Pending`). Delays are not modelled.
- React: state-update batching, stale closures across renders and re-render timing are not modelled. Each handler runs against one consistent state.
- Alerts: `alert` messages are not modelled; the branches that show one are.
- Numbers: money is an exact `real`. IEEE rounding, `toFixed` and `toLocaleString` formatting are not modelled.
- `VnPayApi.Configure`: the amount is an integer, so JavaScript's text for a fractional amount is not modelled. The scaled amount `vnp_Amount * 26000 * 100` is a double in JavaScript and stays exact only below 2^53 (an amount below about 3.46e9); `String` writes magnitudes of 1e21 and more in exponent form. The model scales an unbounded integer exactly and always writes every digit (`Text.IntToString`), so it does not capture the precision loss or the exponent form.
- Text: lower-casing covers ASCII letters only. The string order compares Unicode code points, which differs from UTF-16 code-unit order only above U+FFFF.
- `VnPayApi.VnPayRequest.Entries`: `{ ...req }` is taken to list the fields in the order the request type declares them. The caller's own key order is not visible here, and the signed text and the URL depend on it only through the sort and the final order.
- `MovieData.Tally`: JavaScript lists integer-like object keys first in `Object.entries`, whatever their insertion order. The model keeps first-appearance order. This only affects the tie order among equally frequent genres.
- `MovieData.TopGenres`: does not state which of several equally frequent genres is chosen. `SortByCountStable` states the tie order separately.
- Detail-page dates: the three date choices of the detail page come from the clock, so the selected date is an input.
- Missing theater props: src/App.tsx:236-241 renders the detail page without `theaters`, so `getTheaters` (src/components/MovieDetail.tsx:35-38, called at line 47) would call `filter` on undefined and the page would fail as it opens. src/App.tsx:245-250 renders the seat dialog without `theater`, so `theater.name` at src/components/BookingModal.tsx:106 would fail the same way. The model describes both components with the props their declared types require: `theaters` is an input of `MovieDetail.GetTheaters`, and the seat dialog's theater, which it only displays, is left out of `BookingModal`. It does not capture these two failures.
- App delegations: the shell's login, register, logout and top-up handlers only call the data hook and close a dialog. They are covered by the `MovieStore` methods.
- Passwords are taken and ignored by `Login` and `Register`, as the hook itself does.
- `userBalance`: the shell's `currentUser?.balance || 0` default is not modelled. `PaymentModal.PaymentModalState` takes the balance as given.
- Seat dialog display: the theater prop is only displayed (and the shell leaves it out, see above), and the customer input fields are commented out (src/components/BookingModal.tsx:180-223). So the name and email stay empty and `BookingModal.BookingModalState.HandleBooking` always returns none.
- Seat draws: the 120 `Math.random()` draws are an input sequence. The model does not capture that the seat grid is redrawn on every render.

## Findings

| source | as written | input that shows it | evidently intended | confidence | as-written member | corrected member |
|---|---|---|---|---|---|---|
| src/api/vnpayApi.ts:47-50 | The comment at line 35 says the hash fields are removed. Instead, the whole request, including any incoming `vnp_SecureHash`, is copied and signed. | any request, e.g. one whose `vnp_SecureHash` is "" — the signed text then contains `vnp_SecureHash=` | sign only the fields other than `vnp_SecureHash` and `vnp_SecureHashType` | not executed | VnPayApi.AsWrittenSignsHashField | VnPayApi.SignedPairsExcludeHash |
| src/components/MovieDetail.tsx:206 | The book button is disabled only when `availableSeats === 0`, as at src/components/ShowtimesModal.tsx:141. `addBooking` can drive the count below zero, and such a showtime stays bookable. | a showtime with 1 seat left, then a booking of 2 seats: the count becomes -1 and the button is enabled | disable when no seat is left (`availableSeats <= 0`) | not executed | MovieDetail.OverbookedClickBooks | MovieDetail.ReservedSoldOut |
