/**
 * The statistics `loadStats` in src/hooks/useDashboardStats.js computes
 * from all rooms, the current residents and all bookings: eight counters
 * for the dashboard cards. Money is in cents.
 */
module DashboardStats {
  import opened Domain
  import Seqs
  import Bookings

  datatype Stats = Stats(
    totalRooms: nat, availableRooms: nat, totalResidents: nat, occupancyRate: int,
    todayCheckIns: nat, todayCheckOuts: nat, monthlyRevenue: int, pendingPayments: nat)

  function CapacityOf(r: Room): int { r.capacity }
  function OccupancyOf(r: Room): int { r.currentOccupancy }
  function TotalAmountOf(b: Booking): int { b.totalAmount }

  predicate IsAvailable(r: Room) { r.status == RoomStatus.Available }
  predicate IsPaid(b: Booking) { b.paymentStatus == PaymentStatus.Paid }

  predicate OwesPayment(r: Resident)
  {
    r.paymentStatus == PaymentStatus.Pending || r.paymentStatus == PaymentStatus.Overdue
  }

  /**
   * `totalCapacity > 0 ? Math.round(currentOccupancy / totalCapacity * 100) : 0`:
   * the percentage rounded to the nearest integer, halves up, and 0 when
   * there is no capacity at all.
   */
  function OccupancyRate(totalCapacity: int, currentOccupancy: int): (rate: int)
    ensures totalCapacity <= 0 ==> rate == 0
    ensures totalCapacity > 0 ==>
      2 * totalCapacity * rate <= 200 * currentOccupancy + totalCapacity < 2 * totalCapacity * (rate + 1)
  {
    if totalCapacity > 0 then (200 * currentOccupancy + totalCapacity) / (2 * totalCapacity) else 0
  }

  /** The rate is a percentage when no room holds more people than beds or fewer than none. */
  lemma OccupancyRateBounds(totalCapacity: int, currentOccupancy: int)
    requires 0 <= currentOccupancy <= totalCapacity
    ensures 0 <= OccupancyRate(totalCapacity, currentOccupancy) <= 100
  {
    var rate := OccupancyRate(totalCapacity, currentOccupancy);
    if totalCapacity > 0 {
      var c := 2 * totalCapacity;
      ScaleSign(c, rate + 1);
      ScaleSign(c, rate - 101);
    }
  }

  /** Scaling by a positive factor keeps the sign. */
  lemma ScaleSign(c: int, k: int)
    requires c > 0
    ensures k <= 0 ==> c * k <= 0
    ensures k >= 0 ==> c * k >= 0
  {
  }

  /** Two rooms of 4 and 2 beds holding 2 people each are 67% occupied. */
  lemma OccupancyRateExample()
    ensures OccupancyRate(4 + 2, 2 + 2) == 67
  {
  }

  /** What one room, booking or resident adds to a counter: 1 or 0, or a paid booking's amount. */
  function AvailableMark(r: Room): int { if r.status == RoomStatus.Available then 1 else 0 }
  function OwingMark(r: Resident): int
  {
    if r.paymentStatus == PaymentStatus.Pending || r.paymentStatus == PaymentStatus.Overdue then 1 else 0
  }
  function CheckInMark(day: int): Booking -> int
  {
    (b: Booking) => if b.checkInDate == day && b.status == BookingStatus.Confirmed then 1 else 0
  }
  function CheckOutMark(day: int): Booking -> int
  {
    (b: Booking) => if b.checkOutDate == day && b.status == BookingStatus.Confirmed then 1 else 0
  }
  function PaidRevenue(b: Booking): int { if b.paymentStatus == PaymentStatus.Paid then b.totalAmount else 0 }

  /**
   * The eight counters of `loadStats`: each count adds up one mark per
   * room, resident or booking that qualifies, the revenue adds up the
   * amounts of the paid bookings, and the rate is that of the rooms'
   * total occupancy over their total capacity.
   */
  function ComputeStats(rooms: seq<Room>, residents: seq<Resident>, bookings: seq<Booking>, today: int): (st: Stats)
    ensures st.totalRooms == |rooms| && st.totalResidents == |residents|
    ensures st.availableRooms == Seqs.Sum(rooms, AvailableMark)
    ensures st.pendingPayments == Seqs.Sum(residents, OwingMark)
    ensures st.todayCheckIns == Seqs.Sum(bookings, CheckInMark(today))
    ensures st.todayCheckOuts == Seqs.Sum(bookings, CheckOutMark(today))
    ensures st.monthlyRevenue == Seqs.Sum(bookings, PaidRevenue)
    ensures st.occupancyRate ==
      OccupancyRate(Seqs.Sum(rooms, CapacityOf), Seqs.Sum(rooms, OccupancyOf))
  {
    StatsParts(rooms, residents, bookings, today);
    Stats(
      |rooms|,
      Seqs.Count(rooms, IsAvailable),
      |residents|,
      OccupancyRate(Seqs.Sum(rooms, CapacityOf), Seqs.Sum(rooms, OccupancyOf)),
      Seqs.Count(bookings, Bookings.ChecksInOn(today)),
      Seqs.Count(bookings, Bookings.ChecksOutOn(today)),
      Seqs.Sum(Seqs.Filter(bookings, IsPaid), TotalAmountOf),
      Seqs.Count(residents, OwesPayment))
  }

  /** Each filtered count or sum in `loadStats` is the sum of its per-record marks. */
  lemma StatsParts(rooms: seq<Room>, residents: seq<Resident>, bookings: seq<Booking>, today: int)
    ensures Seqs.Count(rooms, IsAvailable) == Seqs.Sum(rooms, AvailableMark)
    ensures Seqs.Count(residents, OwesPayment) == Seqs.Sum(residents, OwingMark)
    ensures Seqs.Count(bookings, Bookings.ChecksInOn(today)) == Seqs.Sum(bookings, CheckInMark(today))
    ensures Seqs.Count(bookings, Bookings.ChecksOutOn(today)) == Seqs.Sum(bookings, CheckOutMark(today))
    ensures Seqs.Sum(Seqs.Filter(bookings, IsPaid), TotalAmountOf) == Seqs.Sum(bookings, PaidRevenue)
  {
    Seqs.CountIsSum(rooms, IsAvailable, AvailableMark);
    Seqs.CountIsSum(residents, OwesPayment, OwingMark);
    Seqs.CountIsSum(bookings, Bookings.ChecksInOn(today), CheckInMark(today));
    Seqs.CountIsSum(bookings, Bookings.ChecksOutOn(today), CheckOutMark(today));
    Seqs.SumFiltered(bookings, IsPaid, TotalAmountOf, PaidRevenue);
  }

  /**
   * The counters stay within their lists: available rooms within all
   * rooms, residents owing money within the residents, today's check-ins
   * and check-outs within the bookings; and the occupancy rate is a
   * percentage when every room's occupancy lies between 0 and its capacity.
   */
  lemma StatsBounds(rooms: seq<Room>, residents: seq<Resident>, bookings: seq<Booking>, today: int)
    ensures var st := ComputeStats(rooms, residents, bookings, today);
      st.totalRooms == |rooms| && st.availableRooms <= st.totalRooms &&
      st.totalResidents == |residents| && st.pendingPayments <= st.totalResidents &&
      st.todayCheckIns <= |bookings| && st.todayCheckOuts <= |bookings|
    ensures (forall i :: 0 <= i < |rooms| ==> 0 <= rooms[i].currentOccupancy <= rooms[i].capacity) ==>
      0 <= ComputeStats(rooms, residents, bookings, today).occupancyRate <= 100
  {
    if forall i :: 0 <= i < |rooms| ==> 0 <= rooms[i].currentOccupancy <= rooms[i].capacity {
      Seqs.SumNonNegative(rooms, OccupancyOf);
      Seqs.SumMonotone(rooms, OccupancyOf, CapacityOf);
      OccupancyRateBounds(Seqs.Sum(rooms, CapacityOf), Seqs.Sum(rooms, OccupancyOf));
    }
  }

  /** No rooms, or rooms without beds, give a rate of 0 rather than a division by zero. */
  lemma NoCapacityNoRate(rooms: seq<Room>, residents: seq<Resident>, bookings: seq<Booking>, today: int)
    requires forall i :: 0 <= i < |rooms| ==> rooms[i].capacity == 0
    ensures ComputeStats(rooms, residents, bookings, today).occupancyRate == 0
  {
    var negated := (r: Room) => -r.capacity;
    Seqs.SumNegated(rooms, CapacityOf, negated);
    Seqs.SumNonNegative(rooms, negated);
  }

  /**
   * The "monthly" revenue has no date filter: moving any booking's dates
   * leaves it unchanged. It is the total of the paid bookings.
   */
  lemma {:induction false} RevenueIgnoresDates(bs: seq<Booking>, moved: seq<Booking>, rooms: seq<Room>,
                                               residents: seq<Resident>, today: int)
    requires |moved| == |bs|
    requires forall i :: 0 <= i < |bs| ==>
      moved[i] == bs[i].(checkInDate := moved[i].checkInDate, checkOutDate := moved[i].checkOutDate,
                         createdAt := moved[i].createdAt)
    ensures ComputeStats(rooms, residents, moved, today).monthlyRevenue ==
            ComputeStats(rooms, residents, bs, today).monthlyRevenue
  {
    if bs != [] {
      RevenueIgnoresDates(bs[1..], moved[1..], rooms, residents, today);
      assert moved[0].paymentStatus == bs[0].paymentStatus && moved[0].totalAmount == bs[0].totalAmount;
      var pm, pb := Seqs.Filter(moved, IsPaid), Seqs.Filter(bs, IsPaid);
      if IsPaid(bs[0]) {
        assert pm[0] == moved[0] && pm[1..] == Seqs.Filter(moved[1..], IsPaid);
        assert pb[0] == bs[0] && pb[1..] == Seqs.Filter(bs[1..], IsPaid);
      }
    }
  }
}
