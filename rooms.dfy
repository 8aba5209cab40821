/**
 * The room store of src/services/api/roomService.js: an array of rooms
 * changed in place by `create`, `update`, `delete` and `updateRoomStatus`,
 * with the available and maintenance views.
 */
module Rooms {
  import opened Outcomes
  import opened Domain
  import Seqs

  const NotFound: string := "Room not found"

  function RoomId(r: Room): int { r.Id }

  /** A room waiting for work: under maintenance or being cleaned. */
  predicate NeedsWork(r: Room)
  {
    r.status == RoomStatus.Maintenance || r.status == RoomStatus.Cleaning
  }

  predicate IsAvailable(r: Room)
  {
    r.status == RoomStatus.Available
  }

  class RoomService {
    var rooms: seq<Room>

    constructor (seed: seq<Room>)
      ensures rooms == seed
    {
      rooms := seed;
    }

    /** `findIndex(r => r.Id === id)`. */
    function IndexOf(id: int): (i: int)
      reads this
      ensures -1 <= i < |rooms|
      ensures i == -1 <==> forall j :: 0 <= j < |rooms| ==> rooms[j].Id != id
      ensures 0 <= i ==> rooms[i].Id == id && forall j :: 0 <= j < i ==> rooms[j].Id != id
    {
      Seqs.FirstIndex(rooms, (r: Room) => r.Id == id)
    }

    /** `getById`: the first room with that Id, or "Room not found". */
    function GetById(id: int): (r: Result<Room>)
      reads this
      ensures r.Ok? <==> exists j :: 0 <= j < |rooms| && rooms[j].Id == id
      ensures r.Ok? ==> r.value in rooms && r.value.Id == id
      ensures r.Err? ==> r.message == NotFound
    {
      var i := IndexOf(id);
      if i == -1 then Err(NotFound) else Ok(rooms[i])
    }

    /**
     * `create`: append the data as a new, empty, available room with `Id`
     * one above the largest stored Id. Any occupancy or status the data
     * carries is overridden; the store must not be empty.
     */
    method Create(data: Room) returns (room: Room)
      requires |rooms| > 0
      modifies this
      ensures room.Id == Seqs.NextId(old(rooms), RoomId)
      ensures forall i :: 0 <= i < |old(rooms)| ==> old(rooms)[i].Id < room.Id
      ensures room.currentOccupancy == 0 && room.status == RoomStatus.Available
      ensures room.(Id := data.Id, currentOccupancy := data.currentOccupancy, status := data.status) == data
      ensures rooms == old(rooms) + [room]
    {
      room := data.(Id := Seqs.NextId(rooms, RoomId), currentOccupancy := 0, status := RoomStatus.Available);
      rooms := rooms + [room];
    }

    /** `update`: merge the patch into the first room with that Id; nothing else changes. */
    method Update(id: int, patch: RoomPatch) returns (r: Result<Room>)
      modifies this
      ensures old(IndexOf(id)) == -1 ==> r == Err(NotFound) && rooms == old(rooms)
      ensures old(IndexOf(id)) >= 0 ==>
        var i := old(IndexOf(id));
        r == Ok(MergeRoom(old(rooms[i]), patch)) &&
        rooms == old(rooms)[i := r.value]
    {
      var i := IndexOf(id);
      if i == -1 {
        return Err(NotFound);
      }
      rooms := rooms[i := MergeRoom(rooms[i], patch)];
      r := Ok(rooms[i]);
    }

    /** `delete`: splice out the first room with that Id and return it. */
    method Delete(id: int) returns (r: Result<Room>)
      modifies this
      ensures old(IndexOf(id)) == -1 ==> r == Err(NotFound) && rooms == old(rooms)
      ensures old(IndexOf(id)) >= 0 ==>
        var i := old(IndexOf(id));
        r == Ok(old(rooms[i])) && r.value.Id == id &&
        rooms == Seqs.RemoveAt(old(rooms), i) && |rooms| == |old(rooms)| - 1
    {
      var i := IndexOf(id);
      if i == -1 {
        return Err(NotFound);
      }
      r := Ok(rooms[i]);
      rooms := Seqs.RemoveAt(rooms, i);
    }

    /** `getAvailableRooms`: the available rooms, in store order. */
    function GetAvailableRooms(): (r: seq<Room>)
      reads this
      ensures forall room :: room in r <==> room in rooms && room.status == RoomStatus.Available
      ensures Seqs.IsSubsequence(r, rooms)
      ensures forall room {:trigger multiset(r)[room]} :: multiset(r)[room] == if room.status == RoomStatus.Available then multiset(rooms)[room] else 0
    {
      Seqs.Filter(rooms, IsAvailable)
    }

    /**
     * `updateRoomStatus`: set the status of the first room with that Id;
     * its occupancy and every other room stay as they were.
     */
    method UpdateRoomStatus(id: int, status: RoomStatus) returns (r: Result<Room>)
      modifies this
      ensures old(IndexOf(id)) == -1 ==> r == Err(NotFound) && rooms == old(rooms)
      ensures old(IndexOf(id)) >= 0 ==>
        var i := old(IndexOf(id));
        r == Ok(old(rooms[i]).(status := status)) &&
        rooms == old(rooms)[i := r.value]
      ensures |rooms| == |old(rooms)|
      ensures forall j :: 0 <= j < |rooms| ==>
        rooms[j].(status := old(rooms[j]).status) == old(rooms[j])
    {
      var i := IndexOf(id);
      if i == -1 {
        return Err(NotFound);
      }
      rooms := rooms[i := rooms[i].(status := status)];
      r := Ok(rooms[i]);
    }

    /** `getMaintenanceAlerts`: the rooms under maintenance or being cleaned, in store order. */
    function GetMaintenanceAlerts(): (r: seq<Room>)
      reads this
      ensures forall room :: room in r <==>
        room in rooms && (room.status == RoomStatus.Maintenance || room.status == RoomStatus.Cleaning)
      ensures Seqs.IsSubsequence(r, rooms)
      ensures forall room {:trigger multiset(r)[room]} :: multiset(r)[room] == if room.status == RoomStatus.Maintenance || room.status == RoomStatus.Cleaning then multiset(rooms)[room] else 0
    {
      Seqs.Filter(rooms, NeedsWork)
    }

    /**
     * No room is both available and on the maintenance list, and every room
     * is counted in at most one of the two views.
     */
    lemma AvailableAndAlertsDisjoint()
      ensures forall room :: !(room in GetAvailableRooms() && room in GetMaintenanceAlerts())
      ensures |GetAvailableRooms()| + |GetMaintenanceAlerts()| <= |rooms|
    {
      var wide := (r: Room) => IsAvailable(r) || NeedsWork(r);
      var either := Seqs.Filter(rooms, wide);
      Seqs.FilterNarrower(rooms, IsAvailable, wide);
      Seqs.FilterNarrower(rooms, NeedsWork, wide);
      Seqs.FilterSplit(either, IsAvailable, NeedsWork);
    }
  }
}
