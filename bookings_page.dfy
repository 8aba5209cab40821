/**
 * The Bookings page, src/components/pages/Bookings.jsx: the search and
 * status filter over the bookings `useBookings` loads, the counts on the
 * status buttons, and which action buttons each booking card offers.
 */
module BookingsPage {
  import opened Domain
  import opened PageFilters
  import Seqs
  import Text

  /**
   * The search test: the decimal Id contains the term as typed, or the
   * room contains it ignoring case.
   */
  function MatchesSearch(term: string): Booking -> bool
  {
    (b: Booking) => Text.Contains(Text.IntToString(b.Id), term) || Text.ContainsIgnoringCase(b.roomId, term)
  }

  function Shown(term: string, status: StatusFilter<BookingStatus>): Booking -> bool
  {
    (b: Booking) => MatchesSearch(term)(b) && Admits(status, b.status)
  }

  lemma EmptySearchMatches(b: Booking)
    ensures MatchesSearch("")(b)
  {
    Text.ContainsEmpty(Text.IntToString(b.Id));
  }

  /** Searching for a booking's own Id finds that booking. */
  lemma FoundById(b: Booking)
    ensures MatchesSearch(Text.IntToString(b.Id))(b)
  {
    Text.ContainsSelf(Text.IntToString(b.Id));
  }

  /**
   * `filteredBookings`: in their loaded order, the bookings that match the
   * search and whose status the filter admits.
   */
  function FilteredBookings(bookings: seq<Booking>, term: string, status: StatusFilter<BookingStatus>)
    : (r: seq<Booking>)
    ensures Seqs.IsSubsequence(r, bookings)
    ensures forall x {:trigger multiset(r)[x]} :: multiset(r)[x] == if MatchesSearch(term)(x) && Admits(status, x.status) then multiset(bookings)[x] else 0
    ensures forall x :: x in r <==> x in bookings && MatchesSearch(term)(x) && Admits(status, x.status)
  {
    Seqs.Filter(bookings, Shown(term, status))
  }

  /** With an empty search and "all", every booking is listed, in order. */
  lemma EmptySearchListsAll(bookings: seq<Booking>)
    ensures FilteredBookings(bookings, "", All) == bookings
  {
    forall x | x in bookings
      ensures Shown("", All)(x)
    {
      EmptySearchMatches(x);
    }
    Seqs.FilterKeepsAll(bookings, Shown("", All));
  }

  /** A status button shows the "all" list for the same search with the other statuses taken out. */
  lemma StatusNarrowsAll(bookings: seq<Booking>, term: string, s: BookingStatus)
    ensures FilteredBookings(bookings, term, Only(s)) ==
            Seqs.Filter(FilteredBookings(bookings, term, All), Shown(term, Only(s)))
    ensures Seqs.IsSubsequence(FilteredBookings(bookings, term, Only(s)), FilteredBookings(bookings, term, All))
  {
    Seqs.FilterNarrower(bookings, Shown(term, Only(s)), Shown(term, All));
  }

  datatype StatusCounts = StatusCounts(all: nat, confirmed: nat, pending: nat, cancelled: nat)

  function StatusOf(b: Booking): BookingStatus { b.status }

  /** Every booking's status is one of the three the buttons count. */
  lemma EveryStatusListed(bookings: seq<Booking>)
    ensures forall x :: x in bookings ==>
      StatusOf(x) in [BookingStatus.Confirmed, BookingStatus.Pending, BookingStatus.Cancelled]
  {
    forall x | x in bookings
      ensures StatusOf(x) in [BookingStatus.Confirmed, BookingStatus.Pending, BookingStatus.Cancelled]
    {
      match x.status
      case Confirmed =>
      case Pending =>
      case Cancelled =>
    }
  }

  /**
   * `statusCounts`: "all" is the number of bookings, and since every
   * booking has exactly one of the three statuses, the per-status counts
   * add up to it.
   * Each count is the length of the list its button shows.
   */
  function CountStatuses(bookings: seq<Booking>): (c: StatusCounts)
    ensures c.all == |bookings|
    ensures c.confirmed + c.pending + c.cancelled == c.all
    ensures c.confirmed == |FilteredBookings(bookings, "", Only(BookingStatus.Confirmed))|
    ensures c.pending == |FilteredBookings(bookings, "", Only(BookingStatus.Pending))|
    ensures c.cancelled == |FilteredBookings(bookings, "", Only(BookingStatus.Cancelled))|
  {
    ButtonCounts(bookings);
    StatusesCoverAll(bookings);
    StatusCounts(|bookings|,
                 Seqs.CountOf(bookings, StatusOf, BookingStatus.Confirmed),
                 Seqs.CountOf(bookings, StatusOf, BookingStatus.Pending),
                 Seqs.CountOf(bookings, StatusOf, BookingStatus.Cancelled))
  }

  /** Every booking has exactly one of the listed statuses, so the per-status counts add up to all of them. */
  lemma StatusesCoverAll(bookings: seq<Booking>)
    ensures Seqs.CountOf(bookings, StatusOf, BookingStatus.Confirmed) +
            Seqs.CountOf(bookings, StatusOf, BookingStatus.Pending) +
            Seqs.CountOf(bookings, StatusOf, BookingStatus.Cancelled) == |bookings|
  {
    var vs := [BookingStatus.Confirmed, BookingStatus.Pending, BookingStatus.Cancelled];
    EveryStatusListed(bookings);
    Seqs.CountsCoverAll(bookings, StatusOf, vs);
    var ws := vs[1..];
    assert ws == [BookingStatus.Pending, BookingStatus.Cancelled] && ws[1..] == [BookingStatus.Cancelled];
    assert ws[1..][1..] == [];
    assert Seqs.SumCounts(bookings, StatusOf, ws[1..]) == Seqs.CountOf(bookings, StatusOf, BookingStatus.Cancelled);
    assert Seqs.SumCounts(bookings, StatusOf, ws) ==
           Seqs.CountOf(bookings, StatusOf, BookingStatus.Pending) + Seqs.SumCounts(bookings, StatusOf, ws[1..]);
  }

  /** Each status button's count is the length of the list it shows. */
  lemma ButtonCounts(bookings: seq<Booking>)
    ensures Seqs.CountOf(bookings, StatusOf, BookingStatus.Confirmed) == |FilteredBookings(bookings, "", Only(BookingStatus.Confirmed))|
    ensures Seqs.CountOf(bookings, StatusOf, BookingStatus.Pending) == |FilteredBookings(bookings, "", Only(BookingStatus.Pending))|
    ensures Seqs.CountOf(bookings, StatusOf, BookingStatus.Cancelled) == |FilteredBookings(bookings, "", Only(BookingStatus.Cancelled))|
  {
    CountIsListLength(bookings, BookingStatus.Confirmed);
    CountIsListLength(bookings, BookingStatus.Pending);
    CountIsListLength(bookings, BookingStatus.Cancelled);
  }

  /** The count on a status button is the length of the list that button shows with an empty search. */
  lemma CountIsListLength(bookings: seq<Booking>, s: BookingStatus)
    ensures Seqs.CountOf(bookings, StatusOf, s) == |FilteredBookings(bookings, "", Only(s))|
  {
    forall x | x in bookings
      ensures Seqs.KeyIs(StatusOf, s)(x) == Shown("", Only(s))(x)
    {
      EmptySearchMatches(x);
      assert Seqs.KeyIs(StatusOf, s)(x) == (StatusOf(x) == s);
    }
    Seqs.FilterSame(bookings, Seqs.KeyIs(StatusOf, s), Shown("", Only(s)));
  }

  datatype Action = View | Confirm | Cancel

  /**
   * The buttons on a booking card: "View" always, "Confirm" only for a
   * pending booking, "Cancel" for every booking that is not cancelled.
   */
  function Actions(b: Booking): (acts: set<Action>)
    ensures View in acts
    ensures Confirm in acts <==> b.status == BookingStatus.Pending
    ensures Cancel in acts <==> b.status != BookingStatus.Cancelled
  {
    {View} +
    (if b.status == BookingStatus.Pending then {Confirm} else {}) +
    (if b.status != BookingStatus.Cancelled then {Cancel} else {})
  }

  /**
   * A pending booking offers all three buttons, a confirmed one View and
   * Cancel, a cancelled one only View; Confirm never appears without Cancel.
   */
  lemma ActionsByStatus(b: Booking)
    ensures b.status == BookingStatus.Pending ==> Actions(b) == {View, Confirm, Cancel}
    ensures b.status == BookingStatus.Confirmed ==> Actions(b) == {View, Cancel}
    ensures b.status == BookingStatus.Cancelled ==> Actions(b) == {View}
    ensures Confirm in Actions(b) ==> Cancel in Actions(b)
  {
  }
}
