/**
 * The booking store of src/services/api/bookingService.js: an array of
 * bookings changed in place by `create`, `update` and `delete`, and the
 * filtered views the dashboard and the notification generator read. Only
 * confirmed bookings ever appear in a view.
 */
module Bookings {
  import opened Outcomes
  import opened Domain
  import Seqs
  import Clock

  const NotFound: string := "Booking not found"

  function BookingId(b: Booking): int { b.Id }

  /** The test of `getUpcomingBookings`: the check-in midnight is not before `now`, and confirmed. */
  function IsUpcoming(now: int): Booking -> bool
  {
    (b: Booking) => Clock.Midnight(b.checkInDate) >= now && b.status == BookingStatus.Confirmed
  }

  /** A confirmed booking checking in on `day`. */
  function ChecksInOn(day: int): Booking -> bool
  {
    (b: Booking) => b.checkInDate == day && b.status == BookingStatus.Confirmed
  }

  /** A confirmed booking checking out on `day`. */
  function ChecksOutOn(day: int): Booking -> bool
  {
    (b: Booking) => b.checkOutDate == day && b.status == BookingStatus.Confirmed
  }

  /** The test of `getNotificationAlerts`: a confirmed booking arriving or leaving today or tomorrow. */
  function IsAlert(today: int): Booking -> bool
  {
    (b: Booking) => (b.checkInDate == today || b.checkInDate == today + 1 ||
          b.checkOutDate == today || b.checkOutDate == today + 1) &&
         b.status == BookingStatus.Confirmed
  }

  class BookingService {
    var bookings: seq<Booking>

    constructor (seed: seq<Booking>)
      ensures bookings == seed
    {
      bookings := seed;
    }

    /** `findIndex(b => b.Id === id)`. */
    function IndexOf(id: int): (i: int)
      reads this
      ensures -1 <= i < |bookings|
      ensures i == -1 <==> forall j :: 0 <= j < |bookings| ==> bookings[j].Id != id
      ensures 0 <= i ==> bookings[i].Id == id && forall j :: 0 <= j < i ==> bookings[j].Id != id
    {
      Seqs.FirstIndex(bookings, (b: Booking) => b.Id == id)
    }

    /** `getById`: the first booking with that Id, or "Booking not found". */
    function GetById(id: int): (r: Result<Booking>)
      reads this
      ensures r.Ok? <==> exists j :: 0 <= j < |bookings| && bookings[j].Id == id
      ensures r.Ok? ==> r.value in bookings && r.value.Id == id
      ensures r.Err? ==> r.message == NotFound
    {
      var i := IndexOf(id);
      if i == -1 then Err(NotFound) else Ok(bookings[i])
    }

    /**
     * `create`: append the data with `Id` one above the largest stored Id and
     * `createdAt` today; every other field comes from the data. The store
     * must not be empty (`Math.max()` of nothing is `-Infinity`).
     */
    method Create(data: Booking, today: int) returns (b: Booking)
      requires |bookings| > 0
      modifies this
      ensures b.Id == Seqs.NextId(old(bookings), BookingId)
      ensures forall i :: 0 <= i < |old(bookings)| ==> old(bookings)[i].Id < b.Id
      ensures b.createdAt == today
      ensures b.(Id := data.Id, createdAt := data.createdAt) == data
      ensures bookings == old(bookings) + [b]
    {
      b := data.(Id := Seqs.NextId(bookings, BookingId), createdAt := today);
      bookings := bookings + [b];
    }

    /** `update`: merge the patch into the first booking with that Id; nothing else changes. */
    method Update(id: int, patch: BookingPatch) returns (r: Result<Booking>)
      modifies this
      ensures old(IndexOf(id)) == -1 ==> r == Err(NotFound) && bookings == old(bookings)
      ensures old(IndexOf(id)) >= 0 ==>
        var i := old(IndexOf(id));
        r == Ok(MergeBooking(old(bookings[i]), patch)) &&
        bookings == old(bookings)[i := r.value]
    {
      var i := IndexOf(id);
      if i == -1 {
        return Err(NotFound);
      }
      bookings := bookings[i := MergeBooking(bookings[i], patch)];
      r := Ok(bookings[i]);
    }

    /** `delete`: splice out the first booking with that Id and return it. */
    method Delete(id: int) returns (r: Result<Booking>)
      modifies this
      ensures old(IndexOf(id)) == -1 ==> r == Err(NotFound) && bookings == old(bookings)
      ensures old(IndexOf(id)) >= 0 ==>
        var i := old(IndexOf(id));
        r == Ok(old(bookings[i])) && r.value.Id == id &&
        bookings == Seqs.RemoveAt(old(bookings), i) && |bookings| == |old(bookings)| - 1
    {
      var i := IndexOf(id);
      if i == -1 {
        return Err(NotFound);
      }
      r := Ok(bookings[i]);
      bookings := Seqs.RemoveAt(bookings, i);
    }

    /**
     * `getUpcomingBookings`: confirmed bookings whose check-in midnight is
     * not before `now`. A booking for a later day is in, one for an earlier
     * day is out, and one for the current day only at its very first
     * millisecond.
     */
    function GetUpcomingBookings(now: int): (r: seq<Booking>)
      reads this
      ensures forall b :: b in r <==>
        b in bookings && b.status == BookingStatus.Confirmed &&
        (b.checkInDate > Clock.DayOf(now) ||
         (b.checkInDate == Clock.DayOf(now) && now % Clock.MsPerDay == 0))
      ensures Seqs.IsSubsequence(r, bookings)
      ensures forall b {:trigger multiset(r)[b]} :: multiset(r)[b] == if b.status == BookingStatus.Confirmed && (b.checkInDate > Clock.DayOf(now) || (b.checkInDate == Clock.DayOf(now) && now % Clock.MsPerDay == 0)) then multiset(bookings)[b] else 0
    {
      Clock.MidnightNotBeforeAll(now);
      Seqs.Filter(bookings, IsUpcoming(now))
    }

    /** `getTodayCheckIns`: the confirmed bookings checking in today, in store order. */
    function GetTodayCheckIns(today: int): (r: seq<Booking>)
      reads this
      ensures forall b :: b in r <==> b in bookings && b.checkInDate == today && b.status == BookingStatus.Confirmed
      ensures Seqs.IsSubsequence(r, bookings)
      ensures forall b {:trigger multiset(r)[b]} :: multiset(r)[b] == if b.checkInDate == today && b.status == BookingStatus.Confirmed then multiset(bookings)[b] else 0
    {
      Seqs.Filter(bookings, ChecksInOn(today))
    }

    /** `getTodayCheckOuts`: the confirmed bookings checking out today, in store order. */
    function GetTodayCheckOuts(today: int): (r: seq<Booking>)
      reads this
      ensures forall b :: b in r <==> b in bookings && b.checkOutDate == today && b.status == BookingStatus.Confirmed
      ensures Seqs.IsSubsequence(r, bookings)
      ensures forall b {:trigger multiset(r)[b]} :: multiset(r)[b] == if b.checkOutDate == today && b.status == BookingStatus.Confirmed then multiset(bookings)[b] else 0
    {
      Seqs.Filter(bookings, ChecksOutOn(today))
    }

    /**
     * `getNotificationAlerts`: the confirmed bookings that check in or out
     * today or tomorrow, in store order.
     */
    function GetNotificationAlerts(today: int): (r: seq<Booking>)
      reads this
      ensures forall b :: b in r <==>
        b in bookings && b.status == BookingStatus.Confirmed &&
        (b.checkInDate in {today, today + 1} || b.checkOutDate in {today, today + 1})
      ensures Seqs.IsSubsequence(r, bookings)
      ensures forall b {:trigger multiset(r)[b]} :: multiset(r)[b] == if b.status == BookingStatus.Confirmed && (b.checkInDate in {today, today + 1} || b.checkOutDate in {today, today + 1}) then multiset(bookings)[b] else 0
    {
      Seqs.Filter(bookings, IsAlert(today))
    }

    /**
     * The alert list holds both of today's lists, in the same order: picking
     * today's check-ins (check-outs) out of the alerts gives exactly
     * `getTodayCheckIns` (`getTodayCheckOuts`).
     */
    lemma AlertsContainToday(today: int)
      ensures Seqs.Filter(GetNotificationAlerts(today), ChecksInOn(today)) == GetTodayCheckIns(today)
      ensures Seqs.Filter(GetNotificationAlerts(today), ChecksOutOn(today)) == GetTodayCheckOuts(today)
      ensures Seqs.IsSubsequence(GetTodayCheckIns(today), GetNotificationAlerts(today))
      ensures Seqs.IsSubsequence(GetTodayCheckOuts(today), GetNotificationAlerts(today))
    {
      Seqs.FilterNarrower(bookings, ChecksInOn(today), IsAlert(today));
      Seqs.FilterNarrower(bookings, ChecksOutOn(today), IsAlert(today));
    }
  }
}
