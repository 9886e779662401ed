/**
 * The booking admin screen (src/components/admin/BookingManager.tsx): every
 * booking, narrowed by a search over guest, hotel and booking id and by a
 * status filter; a pending booking can be confirmed or cancelled, any booking
 * deleted.
 */
module BookingManager {
  import opened Lists
  import opened Text
  import opened Api

  datatype Guest = Guest(name: Option<string>, email: Option<string>)
  datatype Booking = Booking(
    id: int, status: string, userId: int, hotelId: int,
    user: Option<Guest>, hotelName: Option<Option<string>>)

  /**
   * `matchesSearch`: no term, or the term found case-insensitively in the
   * guest's name or email or the hotel's name, or found as typed in the
   * booking id's decimal text.
   */
  predicate MatchesSearch(b: Booking, term: string) {
    term == "" ||
    (b.user.Some? && b.user.value.name.Some? && ContainsCI(b.user.value.name.value, term)) ||
    (b.user.Some? && b.user.value.email.Some? && ContainsCI(b.user.value.email.value, term)) ||
    (b.hotelName.Some? && b.hotelName.value.Some? && ContainsCI(b.hotelName.value.value, term)) ||
    Contains(IntToString(b.id), term)
  }

  /** `matchesStatus`: `all`, or the lower-cased status equals the filter value. */
  predicate MatchesStatus(b: Booking, filter: string) {
    filter == "all" || Lower(b.status) == filter
  }

  function FilteredBookings(bookings: seq<Booking>, term: string, filter: string): (r: seq<Booking>)
    ensures IsSubsequence(r, bookings)
    ensures forall b :: b in r <==> b in bookings && MatchesSearch(b, term) && MatchesStatus(b, filter)
  {
    FilterIsSubsequence(bookings, (b: Booking) => MatchesSearch(b, term) && MatchesStatus(b, filter));
    Filter(bookings, (b: Booking) => MatchesSearch(b, term) && MatchesStatus(b, filter))
  }

  /** With no term and the `all` filter every booking is listed, in order. */
  lemma NoFilterListsAll(bookings: seq<Booking>)
    ensures FilteredBookings(bookings, "", "all") == bookings
  {
    FilterAll(bookings, (b: Booking) => MatchesSearch(b, "") && MatchesStatus(b, "all"));
  }

  /** Typing a booking's id finds that booking under the `all` filter. */
  lemma SearchByIdFindsBooking(bookings: seq<Booking>, b: Booking)
    requires b in bookings
    ensures b in FilteredBookings(bookings, IntToString(b.id), "all")
  {
    ContainsSelf(IntToString(b.id));
  }

  /** The status filter ignores letter case: `Pending` is listed under `pending`. */
  lemma StatusFilterIgnoresCase(b: Booking, filter: string)
    requires filter == Lower(filter)
    ensures MatchesStatus(b, filter) <==> filter == "all" || Lower(b.status) == filter
    ensures MatchesStatus(b.(status := Lower(b.status)), filter) == MatchesStatus(b, filter)
  {
    LowerIdempotent(b.status);
  }

  datatype Tone = Green | RedTone | Yellow | GrayTone

  /** `getStatusColor` and `getStatusIcon` share this choice over the lower-cased status. */
  function StatusTone(status: string): (t: Tone)
    ensures t == GrayTone <==> Lower(status) !in {"confirmed", "cancelled", "pending"}
    ensures t == Yellow <==> Lower(status) == "pending"
    ensures t == Green <==> Lower(status) == "confirmed"
  {
    match Lower(status)
    case "confirmed" => Green
    case "cancelled" => RedTone
    case "pending" => Yellow
    case _ => GrayTone
  }

  /** The badge depends only on the lower-cased status. */
  lemma StatusToneIgnoresCase(status: string)
    ensures StatusTone(Lower(status)) == StatusTone(status)
  {
    LowerIdempotent(status);
  }

  /** The confirm and cancel buttons: only for a status exactly `pending`. */
  predicate ActionsOffered(b: Booking) {
    b.status == "pending"
  }

  /**
   * The badge and the buttons disagree on case: a `Pending` booking is shown
   * with the pending colour but cannot be confirmed or cancelled from the table.
   */
  lemma CapitalisedPendingHasNoActions(b: Booking)
    requires b.status == "Pending"
    ensures StatusTone(b.status) == Yellow && !ActionsOffered(b)
  {
    var l := Lower(b.status);
    assert l[0] == LowerChar('P') == 'p';
    assert forall i :: 1 <= i < 7 ==> l[i] == b.status[i];
    assert l == "pending";
  }

  /** A guest or hotel field in the table: the text, or `N/A` when it is missing or empty. */
  function Cell(v: Option<string>): (t: string)
    ensures t != ""
    ensures v.Some? && v.value != "" ==> t == v.value
    ensures !(v.Some? && v.value != "") ==> t == "N/A"
  {
    if v.Some? && v.value != "" then v.value else "N/A"
  }

  function EmptyMessage(term: string, filter: string): (m: string)
    ensures m == "No bookings found." <==> term == "" && filter == "all"
  {
    if term != "" || filter != "all" then "No bookings found matching your filters." else "No bookings found."
  }

  datatype BookingCall = Confirm(id: int) | Cancel(id: int) | Delete(id: int)

  /** The call `handleStatusChange` makes for a requested status, if any. */
  function StatusCall(id: int, newStatus: string): (c: Option<BookingCall>)
    ensures newStatus == "confirmed" <==> c == Some(Confirm(id))
    ensures newStatus == "cancelled" <==> c == Some(Cancel(id))
    ensures newStatus !in {"confirmed", "cancelled"} <==> c.None?
  {
    if newStatus == "confirmed" then Some(Confirm(id))
    else if newStatus == "cancelled" then Some(Cancel(id))
    else None
  }

  class BookingScreen {
    var bookings: seq<Booking>
    var loading: bool
    var searchTerm: string
    var statusFilter: string
    var selected: Option<Booking>
    var calls: seq<BookingCall>

    constructor ()
      ensures bookings == [] && loading && searchTerm == "" && statusFilter == "all"
      ensures selected.None? && calls == []
    {
      bookings := [];
      loading := true;
      searchTerm, statusFilter := "", "all";
      selected := None;
      calls := [];
    }

    /** The rows the table shows, recomputed on every render. */
    function Visible(): (r: seq<Booking>)
      reads this
      ensures IsSubsequence(r, bookings)
    {
      FilteredBookings(bookings, searchTerm, statusFilter)
    }

    /** `fetchBookings`: a failure keeps the old list; loading ends either way. */
    method FetchBookings(result: Response<seq<Booking>>)
      modifies this`bookings, this`loading
      ensures !loading
      ensures bookings == if result.Ok? then result.payload else old(bookings)
    {
      loading := true;
      if result.Ok? {
        bookings := result.payload;
      }
      loading := false;
    }

    method SetSearchTerm(term: string)
      modifies this`searchTerm
      ensures searchTerm == term
    {
      searchTerm := term;
    }

    method SetStatusFilter(filter: string)
      modifies this`statusFilter
      ensures statusFilter == filter
    {
      statusFilter := filter;
    }

    /**
     * `handleStatusChange`: the confirm or cancel call for those two statuses
     * (none for another), then a re-fetch, which a failed call skips.
     */
    method ChangeStatus(id: int, newStatus: string, write: Response<()>, refetch: Response<seq<Booking>>)
      modifies this`bookings, this`loading, this`calls
      ensures var c := StatusCall(id, newStatus);
              calls == if c.Some? then old(calls) + [c.value] else old(calls)
      ensures var fetched := StatusCall(id, newStatus).None? || write.Ok?;
              bookings == (if fetched && refetch.Ok? then refetch.payload else old(bookings)) &&
              loading == (if fetched then false else old(loading))
    {
      var c := StatusCall(id, newStatus);
      if c.Some? {
        calls := calls + [c.value];
        if write.Failed? {
          return;
        }
      }
      FetchBookings(refetch);
    }

    /** The delete button: only after the confirmation dialog is accepted. */
    method DeleteBooking(id: int, confirmed: bool, write: Response<()>, refetch: Response<seq<Booking>>)
      modifies this`bookings, this`loading, this`calls
      ensures calls == if confirmed then old(calls) + [Delete(id)] else old(calls)
      ensures bookings == if confirmed && write.Ok? && refetch.Ok? then refetch.payload else old(bookings)
      ensures loading == if confirmed && write.Ok? then false else old(loading)
    {
      if confirmed {
        calls := calls + [Delete(id)];
        if write.Ok? {
          FetchBookings(refetch);
        }
      }
    }

    /** The eye button opens the details of a booking; the close button clears them. */
    method ShowDetails(b: Option<Booking>)
      modifies this`selected
      ensures selected == b
    {
      selected := b;
    }
  }

  /** Confirming a pending booking from the table, with both calls succeeding, shows the re-fetched list. */
  method ConfirmScenario(b: Booking, after: seq<Booking>) returns (made: seq<BookingCall>, shown: seq<Booking>)
    requires ActionsOffered(b)
    ensures made == [Confirm(b.id)] && shown == after
  {
    var screen := new BookingScreen();
    screen.ChangeStatus(b.id, "confirmed", Ok(()), Ok(after));
    made, shown := screen.calls, screen.bookings;
  }
}
