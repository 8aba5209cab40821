/**
 * The Dashboard page, src/components/pages/Dashboard.jsx: the room cards it
 * shows (the first eight rooms) and the two "today" panels, which list at
 * most three residents checking in or out today and otherwise show an
 * empty-state message. Dates are day numbers, so the page's comparison of
 * `YYYY-MM-DD` strings is equality of days.
 */
module DashboardPage {
  import opened Domain
  import Seqs
  import Clock
  import Residents

  /** How many room cards the overview shows. */
  const RoomCards: nat := 8

  /** How many residents each "today" panel lists. */
  const PanelRows: nat := 3

  /** `dashboardRooms`: the first eight rooms, in their loaded order, or all of them when there are fewer. */
  function DashboardRooms(rooms: seq<Room>): (r: seq<Room>)
    ensures |r| == if |rooms| < RoomCards then |rooms| else RoomCards
    ensures r == rooms[..|r|]
  {
    Seqs.Take(rooms, RoomCards)
  }

  /** With eight rooms or fewer, every room has a card. */
  lemma FewRoomsAllShown(rooms: seq<Room>)
    requires |rooms| <= RoomCards
    ensures DashboardRooms(rooms) == rooms
  {
  }

  /** Rooms loaded after the eighth never change the cards. */
  lemma LaterRoomsHidden(rooms: seq<Room>, more: seq<Room>)
    requires |rooms| >= RoomCards
    ensures DashboardRooms(rooms + more) == DashboardRooms(rooms)
  {
    var r := DashboardRooms(rooms + more);
    assert r == (rooms + more)[..RoomCards];
    assert (rooms + more)[..RoomCards] == rooms[..RoomCards];
  }

  /** The check-ins panel's test: the resident checks in today. */
  function ChecksInOn(today: int): Resident -> bool
  {
    (r: Resident) => r.checkInDate == today
  }

  /** The check-outs panel's test: the resident checks out today. */
  function ChecksOutOn(today: int): Resident -> bool
  {
    (r: Resident) => r.checkOutDate == today
  }

  /**
   * A "today" panel: the first three residents, in loaded order, that pass
   * the panel's test. It lists three when at least three pass and all of
   * them otherwise, and only residents that pass.
   */
  function Panel(residents: seq<Resident>, onDay: Resident -> bool): (r: seq<Resident>)
    ensures |r| == if Seqs.Count(residents, onDay) < PanelRows then Seqs.Count(residents, onDay) else PanelRows
    ensures forall x :: x in r ==> x in residents && onDay(x)
  {
    var due := Seqs.Filter(residents, onDay);
    var r := Seqs.Take(due, PanelRows);
    assert forall x :: x in r ==> x in due;
    r
  }

  /** The check-ins panel for `today`. */
  function CheckInsPanel(residents: seq<Resident>, today: int): (r: seq<Resident>)
    ensures |r| <= PanelRows
    ensures forall x :: x in r ==> x in residents && x.checkInDate == today
  {
    Panel(residents, ChecksInOn(today))
  }

  /** The check-outs panel for `today`. */
  function CheckOutsPanel(residents: seq<Resident>, today: int): (r: seq<Resident>)
    ensures |r| <= PanelRows
    ensures forall x :: x in r ==> x in residents && x.checkOutDate == today
  {
    Panel(residents, ChecksOutOn(today))
  }

  /**
   * The page loads its residents through `useResidents`, which keeps only
   * the current ones: those whose check-out midnight is not before now. A
   * resident checking out today is current only at midnight itself, so at
   * every other instant the check-outs panel is empty.
   */
  lemma CheckOutsPanelEmptyAfterMidnight(residents: seq<Resident>, now: int)
    requires now % Clock.MsPerDay != 0
    ensures CheckOutsPanel(Seqs.Filter(residents, Residents.IsCurrent(now)), Clock.DayOf(now)) == []
  {
    var current := Seqs.Filter(residents, Residents.IsCurrent(now));
    forall x | x in current
      ensures !ChecksOutOn(Clock.DayOf(now))(x)
    {
      Clock.MidnightNotBefore(x.checkOutDate, now);
    }
    Seqs.FilterNone(current, ChecksOutOn(Clock.DayOf(now)));
  }

  /**
   * The empty-state message is shown exactly when no loaded resident
   * passes the panel's test.
   */
  function ShowsEmptyMessage(residents: seq<Resident>, onDay: Resident -> bool): (shown: bool)
    ensures shown <==> forall x :: x in residents ==> !onDay(x)
  {
    var due := Seqs.Filter(residents, onDay);
    assert due != [] ==> due[0] in due;
    |due| == 0
  }

  /** The message and the rows never appear together, and one of them always does. */
  lemma EmptyMessageIffNoRows(residents: seq<Resident>, onDay: Resident -> bool)
    ensures ShowsEmptyMessage(residents, onDay) <==> Panel(residents, onDay) == []
  {
  }

  /** With three or fewer residents due, the panel lists every one of them, in order. */
  lemma FewDueAllListed(residents: seq<Resident>, onDay: Resident -> bool)
    requires Seqs.Count(residents, onDay) <= PanelRows
    ensures Panel(residents, onDay) == Seqs.Filter(residents, onDay)
  {
  }

  /**
   * Once three residents are due, residents loaded after them never reach
   * the panel: it lists the first three.
   */
  lemma LaterResidentsHidden(residents: seq<Resident>, more: seq<Resident>, onDay: Resident -> bool)
    requires Seqs.Count(residents, onDay) >= PanelRows
    ensures Panel(residents + more, onDay) == Panel(residents, onDay)
  {
    var due := Seqs.Filter(residents, onDay);
    Seqs.FilterConcat(residents, more, onDay);
    assert (due + Seqs.Filter(more, onDay))[..PanelRows] == due[..PanelRows];
  }
}
