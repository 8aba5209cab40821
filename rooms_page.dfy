/**
 * The Rooms page, src/components/pages/Rooms.jsx: the search and status
 * filter over the rooms `useRooms` loads and the counts on the status
 * buttons.
 */
module RoomsPage {
  import opened Domain
  import opened PageFilters
  import Seqs
  import Text

  /** The search test: room number or room type contain the term, ignoring case. */
  function MatchesSearch(term: string): Room -> bool
  {
    (r: Room) => Text.ContainsIgnoringCase(r.roomNumber, term) || Text.ContainsIgnoringCase(r.kind, term)
  }

  function Shown(term: string, status: StatusFilter<RoomStatus>): Room -> bool
  {
    (r: Room) => MatchesSearch(term)(r) && Admits(status, r.status)
  }

  lemma EmptySearchMatches(r: Room)
    ensures MatchesSearch("")(r)
  {
    Text.ContainsEmpty(Text.Lower(r.roomNumber));
  }

  /** Searching for a room's own number, in any case, finds that room. */
  lemma FoundByNumber(r: Room)
    ensures MatchesSearch(r.roomNumber)(r)
    ensures MatchesSearch(Text.Lower(r.roomNumber))(r)
  {
    Text.ContainsSelf(Text.Lower(r.roomNumber));
    Text.LowerIdempotent(r.roomNumber);
  }

  /**
   * `filteredRooms`: in their loaded order, the rooms that match the
   * search and whose status the filter admits.
   */
  function FilteredRooms(rooms: seq<Room>, term: string, status: StatusFilter<RoomStatus>): (r: seq<Room>)
    ensures Seqs.IsSubsequence(r, rooms)
    ensures forall x {:trigger multiset(r)[x]} :: multiset(r)[x] == if MatchesSearch(term)(x) && Admits(status, x.status) then multiset(rooms)[x] else 0
    ensures forall x :: x in r <==> x in rooms && MatchesSearch(term)(x) && Admits(status, x.status)
  {
    Seqs.Filter(rooms, Shown(term, status))
  }

  /** With an empty search and "all", every room is listed, in order. */
  lemma EmptySearchListsAll(rooms: seq<Room>)
    ensures FilteredRooms(rooms, "", All) == rooms
  {
    forall x | x in rooms
      ensures Shown("", All)(x)
    {
      EmptySearchMatches(x);
    }
    Seqs.FilterKeepsAll(rooms, Shown("", All));
  }

  /** A status button shows the "all" list for the same search with the other statuses taken out. */
  lemma StatusNarrowsAll(rooms: seq<Room>, term: string, s: RoomStatus)
    ensures FilteredRooms(rooms, term, Only(s)) == Seqs.Filter(FilteredRooms(rooms, term, All), Shown(term, Only(s)))
    ensures Seqs.IsSubsequence(FilteredRooms(rooms, term, Only(s)), FilteredRooms(rooms, term, All))
  {
    Seqs.FilterNarrower(rooms, Shown(term, Only(s)), Shown(term, All));
  }

  datatype StatusCounts = StatusCounts(all: nat, available: nat, occupied: nat, maintenance: nat, cleaning: nat)

  function StatusOf(r: Room): RoomStatus { r.status }

  /** Every room's status is one of the four the buttons count. */
  lemma EveryStatusListed(rooms: seq<Room>)
    ensures forall x :: x in rooms ==>
      StatusOf(x) in [RoomStatus.Available, RoomStatus.Occupied, RoomStatus.Maintenance, RoomStatus.Cleaning]
  {
    forall x | x in rooms
      ensures StatusOf(x) in [RoomStatus.Available, RoomStatus.Occupied, RoomStatus.Maintenance, RoomStatus.Cleaning]
    {
      match x.status
      case Available =>
      case Occupied =>
      case Maintenance =>
      case Cleaning =>
    }
  }

  /**
   * `statusCounts`: "all" is the number of rooms, and since every room has
   * exactly one of the four statuses, the four per-status counts add up
   * to it.
   * Each count is the length of the list its button shows.
   */
  function CountStatuses(rooms: seq<Room>): (c: StatusCounts)
    ensures c.all == |rooms|
    ensures c.available + c.occupied + c.maintenance + c.cleaning == c.all
    ensures c.available == |FilteredRooms(rooms, "", Only(RoomStatus.Available))|
    ensures c.occupied == |FilteredRooms(rooms, "", Only(RoomStatus.Occupied))|
    ensures c.maintenance == |FilteredRooms(rooms, "", Only(RoomStatus.Maintenance))|
    ensures c.cleaning == |FilteredRooms(rooms, "", Only(RoomStatus.Cleaning))|
  {
    ButtonCounts(rooms);
    StatusesCoverAll(rooms);
    StatusCounts(|rooms|,
                 Seqs.CountOf(rooms, StatusOf, RoomStatus.Available),
                 Seqs.CountOf(rooms, StatusOf, RoomStatus.Occupied),
                 Seqs.CountOf(rooms, StatusOf, RoomStatus.Maintenance),
                 Seqs.CountOf(rooms, StatusOf, RoomStatus.Cleaning))
  }

  /** Every room has exactly one of the listed statuses, so the per-status counts add up to all of them. */
  lemma StatusesCoverAll(rooms: seq<Room>)
    ensures Seqs.CountOf(rooms, StatusOf, RoomStatus.Available) +
            Seqs.CountOf(rooms, StatusOf, RoomStatus.Occupied) +
            Seqs.CountOf(rooms, StatusOf, RoomStatus.Maintenance) +
            Seqs.CountOf(rooms, StatusOf, RoomStatus.Cleaning) == |rooms|
  {
    var vs := [RoomStatus.Available, RoomStatus.Occupied, RoomStatus.Maintenance, RoomStatus.Cleaning];
    EveryStatusListed(rooms);
    Seqs.CountsCoverAll(rooms, StatusOf, vs);
    var ws := vs[1..];
    var us := ws[1..];
    assert ws == [RoomStatus.Occupied, RoomStatus.Maintenance, RoomStatus.Cleaning];
    assert us == [RoomStatus.Maintenance, RoomStatus.Cleaning] && us[1..] == [RoomStatus.Cleaning];
    assert us[1..][1..] == [];
    assert Seqs.SumCounts(rooms, StatusOf, us[1..]) == Seqs.CountOf(rooms, StatusOf, RoomStatus.Cleaning);
    assert Seqs.SumCounts(rooms, StatusOf, us) ==
           Seqs.CountOf(rooms, StatusOf, RoomStatus.Maintenance) + Seqs.SumCounts(rooms, StatusOf, us[1..]);
    assert Seqs.SumCounts(rooms, StatusOf, ws) ==
           Seqs.CountOf(rooms, StatusOf, RoomStatus.Occupied) + Seqs.SumCounts(rooms, StatusOf, us);
  }

  /** Each status button's count is the length of the list it shows. */
  lemma ButtonCounts(rooms: seq<Room>)
    ensures Seqs.CountOf(rooms, StatusOf, RoomStatus.Available) == |FilteredRooms(rooms, "", Only(RoomStatus.Available))|
    ensures Seqs.CountOf(rooms, StatusOf, RoomStatus.Occupied) == |FilteredRooms(rooms, "", Only(RoomStatus.Occupied))|
    ensures Seqs.CountOf(rooms, StatusOf, RoomStatus.Maintenance) == |FilteredRooms(rooms, "", Only(RoomStatus.Maintenance))|
    ensures Seqs.CountOf(rooms, StatusOf, RoomStatus.Cleaning) == |FilteredRooms(rooms, "", Only(RoomStatus.Cleaning))|
  {
    CountIsListLength(rooms, RoomStatus.Available);
    CountIsListLength(rooms, RoomStatus.Occupied);
    CountIsListLength(rooms, RoomStatus.Maintenance);
    CountIsListLength(rooms, RoomStatus.Cleaning);
  }

  /** The count on a status button is the length of the list that button shows with an empty search. */
  lemma CountIsListLength(rooms: seq<Room>, s: RoomStatus)
    ensures Seqs.CountOf(rooms, StatusOf, s) == |FilteredRooms(rooms, "", Only(s))|
  {
    forall x | x in rooms
      ensures Seqs.KeyIs(StatusOf, s)(x) == Shown("", Only(s))(x)
    {
      EmptySearchMatches(x);
      assert Seqs.KeyIs(StatusOf, s)(x) == (StatusOf(x) == s);
    }
    Seqs.FilterSame(rooms, Seqs.KeyIs(StatusOf, s), Shown("", Only(s)));
  }
}
