// The rooms kept in the browser (src/hooks/useBoardingHouse.ts): the four
// initial rooms, the merge of `updateRoom`, and the copy of the bill
// calculator that works on a `Room`.

module BoardingHouse {
  import opened Types
  import opened Billing

  /** A room as the local-storage hook keeps it. */
  datatype Room = Room(id: int, name: string, occupants: int, electricityOld: int, electricityNew: int)

  /** A `Partial<Room>`: every field that is `Some` overrides the room's. */
  datatype RoomPatch = RoomPatch(
    id: Option<int>,
    name: Option<string>,
    occupants: Option<int>,
    electricityOld: Option<int>,
    electricityNew: Option<int>)

  /** `{ ...r, ...data }`. */
  function MergeRoom(r: Room, p: RoomPatch): Room {
    Room(
      p.id.GetOr(r.id),
      p.name.GetOr(r.name),
      p.occupants.GetOr(r.occupants),
      p.electricityOld.GetOr(r.electricityOld),
      p.electricityNew.GetOr(r.electricityNew))
  }

  /** `INITIAL_ROOMS`. */
  const INITIAL_ROOMS: seq<Room> := [
    Room(1, "Phòng 1", 0, 0, 0),
    Room(2, "Phòng 2", 0, 0, 0),
    Room(3, "Phòng 3", 0, 0, 0),
    Room(4, "Phòng 4", 0, 0, 0)
  ]

  /** `prev.map(r => r.id === id ? { ...r, ...data } : r)`. */
  function UpdateRooms(rooms: seq<Room>, id: int, patch: RoomPatch): (r: seq<Room>)
    ensures |r| == |rooms|
    ensures forall i :: 0 <= i < |rooms| && rooms[i].id != id ==> r[i] == rooms[i]
    ensures forall i :: 0 <= i < |rooms| && rooms[i].id == id ==> r[i] == MergeRoom(rooms[i], patch)
  {
    if rooms == [] then []
    else
      var head := if rooms[0].id == id then MergeRoom(rooms[0], patch) else rooms[0];
      [head] + UpdateRooms(rooms[1..], id, patch)
  }

  /**
   * `calculateBill(room)`: the same charges as the monthly calculator, read
   * from the room's own fields.
   */
  function CalculateRoomBill(room: Room): (c: BillCalculation)
    ensures c == Calculate(room.occupants, room.electricityOld, room.electricityNew)
  {
    var electricityUsage := if room.electricityNew - room.electricityOld > 0 then room.electricityNew - room.electricityOld else 0;
    var electricityCost := electricityUsage * 5000;
    var waterCost := room.occupants * 80000;
    var roomRent := room.occupants * 1000000;
    var totalBill := roomRent + waterCost + electricityCost;
    var perPerson :=
      if room.occupants > 0 then (1000000 + 80000) as real + electricityCost as real / room.occupants as real
      else 0.0;
    BillCalculation(electricityUsage, electricityCost, waterCost, roomRent, totalBill, perPerson)
  }

  // ---------------------------------------------------------------------------
  // Lemmas

  /** The initial rooms are rooms 1 to 4, under their display names, empty and with zero readings. */
  lemma InitialRooms()
    ensures |INITIAL_ROOMS| == 4
    ensures forall k :: 0 <= k < 4 ==> INITIAL_ROOMS[k] == Room(k + 1, ROOM_NAMES[k + 1], 0, 0, 0)
  {
  }

  /** Every initial room owes nothing. */
  lemma InitialRoomsOweNothing()
    ensures forall k :: 0 <= k < |INITIAL_ROOMS| ==>
      CalculateRoomBill(INITIAL_ROOMS[k]) == BillCalculation(0, 0, 0, 0, 0, 0.0)
  {
  }

  /** Applying the same update twice is the same as applying it once. */
  lemma {:induction false} UpdateRoomsIdempotent(rooms: seq<Room>, id: int, patch: RoomPatch)
    ensures UpdateRooms(UpdateRooms(rooms, id, patch), id, patch) == UpdateRooms(rooms, id, patch)
  {
    if rooms != [] {
      UpdateRoomsIdempotent(rooms[1..], id, patch);
      var once := UpdateRooms(rooms, id, patch);
      assert once[1..] == UpdateRooms(rooms[1..], id, patch);
      assert once == [once[0]] + once[1..];
    }
  }

  /** An update of an id no room carries changes nothing. */
  lemma {:induction false} UpdateRoomsAbsent(rooms: seq<Room>, id: int, patch: RoomPatch)
    requires forall r :: r in rooms ==> r.id != id
    ensures UpdateRooms(rooms, id, patch) == rooms
  {
    if rooms != [] {
      UpdateRoomsAbsent(rooms[1..], id, patch);
    }
  }

  /** A patch that leaves the id alone keeps every room's id in place. */
  lemma UpdateRoomsKeepsIds(rooms: seq<Room>, id: int, patch: RoomPatch)
    requires patch.id.None?
    ensures forall i :: 0 <= i < |rooms| ==> UpdateRooms(rooms, id, patch)[i].id == rooms[i].id
  {
  }

  /** The room calculator and the monthly calculator agree on the same numbers. */
  lemma CalculatorsAgree(room: Room, bill: MonthlyBill)
    requires bill.occupants == Some(room.occupants)
    requires bill.electricity_old == Some(room.electricityOld)
    requires bill.electricity_new == Some(room.electricityNew)
    ensures CalculateRoomBill(room) == CalculateBill(bill)
  {
  }

  // ---------------------------------------------------------------------------
  // The hook's state

  class BoardingHouseHook {
    var rooms: seq<Room>

    /** The rooms start as the initial rooms. */
    constructor ()
      ensures rooms == INITIAL_ROOMS
    {
      rooms := INITIAL_ROOMS;
    }

    /** `updateRoom(id, data)`. */
    method UpdateRoom(id: int, patch: RoomPatch)
      modifies this
      ensures rooms == UpdateRooms(old(rooms), id, patch)
    {
      rooms := UpdateRooms(rooms, id, patch);
    }
  }
}
