/**
 * The resident store of src/services/api/residentService.js: an array of
 * residents changed in place by `create`, `update`, `delete` and
 * `checkOut`, with the current-resident and by-room views.
 */
module Residents {
  import opened Outcomes
  import opened Domain
  import Seqs
  import Clock

  const NotFound: string := "Resident not found"

  function ResidentId(r: Resident): int { r.Id }

  /** The test of `getCurrentResidents`: the check-out midnight is not before `now`. */
  function IsCurrent(now: int): Resident -> bool
  {
    (r: Resident) => Clock.Midnight(r.checkOutDate) >= now
  }

  /**
   * A resident checked out at instant `now` gets that instant's day as its
   * check-out date, and so is still current at `now` only when `now` is
   * exactly midnight.
   */
  lemma CheckedOutStaysCurrentOnlyAtMidnight(r: Resident, now: int)
    ensures IsCurrent(now)(r.(checkOutDate := Clock.DayOf(now))) <==> now % Clock.MsPerDay == 0
  {
    Clock.MidnightNotBefore(Clock.DayOf(now), now);
  }

  class ResidentService {
    var residents: seq<Resident>

    constructor (seed: seq<Resident>)
      ensures residents == seed
    {
      residents := seed;
    }

    /** `findIndex(r => r.Id === id)`. */
    function IndexOf(id: int): (i: int)
      reads this
      ensures -1 <= i < |residents|
      ensures i == -1 <==> forall j :: 0 <= j < |residents| ==> residents[j].Id != id
      ensures 0 <= i ==> residents[i].Id == id && forall j :: 0 <= j < i ==> residents[j].Id != id
    {
      Seqs.FirstIndex(residents, (r: Resident) => r.Id == id)
    }

    /** `getById`: the first resident with that Id, or "Resident not found". */
    function GetById(id: int): (r: Result<Resident>)
      reads this
      ensures r.Ok? <==> exists j :: 0 <= j < |residents| && residents[j].Id == id
      ensures r.Ok? ==> r.value in residents && r.value.Id == id
      ensures r.Err? ==> r.message == NotFound
    {
      var i := IndexOf(id);
      if i == -1 then Err(NotFound) else Ok(residents[i])
    }

    /**
     * `create`: append the data with `Id` one above the largest stored Id;
     * every other field comes from the data. The store must not be empty.
     */
    method Create(data: Resident) returns (r: Resident)
      requires |residents| > 0
      modifies this
      ensures r.Id == Seqs.NextId(old(residents), ResidentId)
      ensures forall i :: 0 <= i < |old(residents)| ==> old(residents)[i].Id < r.Id
      ensures r.(Id := data.Id) == data
      ensures residents == old(residents) + [r]
    {
      r := data.(Id := Seqs.NextId(residents, ResidentId));
      residents := residents + [r];
    }

    /** `update`: merge the patch into the first resident with that Id; nothing else changes. */
    method Update(id: int, patch: ResidentPatch) returns (r: Result<Resident>)
      modifies this
      ensures old(IndexOf(id)) == -1 ==> r == Err(NotFound) && residents == old(residents)
      ensures old(IndexOf(id)) >= 0 ==>
        var i := old(IndexOf(id));
        r == Ok(MergeResident(old(residents[i]), patch)) &&
        residents == old(residents)[i := r.value]
    {
      var i := IndexOf(id);
      if i == -1 {
        return Err(NotFound);
      }
      residents := residents[i := MergeResident(residents[i], patch)];
      r := Ok(residents[i]);
    }

    /** `delete`: splice out the first resident with that Id and return it. */
    method Delete(id: int) returns (r: Result<Resident>)
      modifies this
      ensures old(IndexOf(id)) == -1 ==> r == Err(NotFound) && residents == old(residents)
      ensures old(IndexOf(id)) >= 0 ==>
        var i := old(IndexOf(id));
        r == Ok(old(residents[i])) && r.value.Id == id &&
        residents == Seqs.RemoveAt(old(residents), i) && |residents| == |old(residents)| - 1
    {
      var i := IndexOf(id);
      if i == -1 {
        return Err(NotFound);
      }
      r := Ok(residents[i]);
      residents := Seqs.RemoveAt(residents, i);
    }

    /**
     * `getCurrentResidents`: the residents whose check-out midnight is not
     * before `now`. A later check-out day is in, an earlier one out, and a
     * check-out today only at the very first millisecond of the day.
     */
    function GetCurrentResidents(now: int): (r: seq<Resident>)
      reads this
      ensures forall x :: x in r <==>
        x in residents &&
        (x.checkOutDate > Clock.DayOf(now) ||
         (x.checkOutDate == Clock.DayOf(now) && now % Clock.MsPerDay == 0))
      ensures Seqs.IsSubsequence(r, residents)
      ensures forall x {:trigger multiset(r)[x]} :: multiset(r)[x] == if x.checkOutDate > Clock.DayOf(now) || (x.checkOutDate == Clock.DayOf(now) && now % Clock.MsPerDay == 0) then multiset(residents)[x] else 0
    {
      Clock.MidnightNotBeforeAll(now);
      Seqs.Filter(residents, IsCurrent(now))
    }

    /** `getResidentsByRoom`: the residents whose room is `roomId`, in store order. */
    function GetResidentsByRoom(roomId: string): (r: seq<Resident>)
      reads this
      ensures forall x :: x in r <==> x in residents && x.roomId == roomId
      ensures Seqs.IsSubsequence(r, residents)
      ensures forall x {:trigger multiset(r)[x]} :: multiset(r)[x] == if x.roomId == roomId then multiset(residents)[x] else 0
    {
      Seqs.Filter(residents, (x: Resident) => x.roomId == roomId)
    }

    /**
     * `checkOut`: set the check-out date of the first resident with that Id
     * to the day of `now`; every other field and every other resident stays
     * as it was.
     */
    method CheckOut(id: int, now: int) returns (r: Result<Resident>)
      modifies this
      ensures old(IndexOf(id)) == -1 ==> r == Err(NotFound) && residents == old(residents)
      ensures old(IndexOf(id)) >= 0 ==>
        var i := old(IndexOf(id));
        r == Ok(old(residents[i]).(checkOutDate := Clock.DayOf(now))) &&
        residents == old(residents)[i := r.value]
      ensures |residents| == |old(residents)|
      ensures forall j :: 0 <= j < |residents| ==>
        residents[j].(checkOutDate := old(residents[j]).checkOutDate) == old(residents[j])
    {
      var i := IndexOf(id);
      if i == -1 {
        return Err(NotFound);
      }
      residents := residents[i := residents[i].(checkOutDate := Clock.DayOf(now))];
      r := Ok(residents[i]);
    }
  }
}
