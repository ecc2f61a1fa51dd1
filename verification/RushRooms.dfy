/** The Rush room pools, the seven slots of a map and the path rule of the game server
    (packages/shared/src/config/rush-veto.ts, modes.ts and veto/rooms.ts). */
module RushRooms {
  import opened Common
  import opened VetoEngine

  const ROOM_SLOTS := 7
  const T_CASTLE_SLOT: SlotIndex := 0
  const CT_CASTLE_SLOT: SlotIndex := 6
  const START_SLOT: SlotIndex := 3
  const T_CASTLE := 401
  const CT_CASTLE := 301

  type SlotIndex = x: nat | x < 7

  /** n rooms with consecutive ids. */
  function Rooms(first: nat, n: nat): (r: seq<Key>)
    ensures |r| == n && forall i | 0 <= i < n :: r[i] == Room(first + i)
  {
    seq(n, i requires 0 <= i < n => Room(first + i))
  }

  const MID_POOL: seq<Key> := Rooms(201, 12)
  const START_POOL: seq<Key> := Rooms(101, 4)

  datatype SlotSource = Castle | Picked | Leftover | Open

  datatype RoomSlot = RoomSlot(room: Option<Key>, source: SlotSource, team: Option<Team>)

  type Slots = s: seq<RoomSlot> | |s| == 7 witness seq(7, i => RoomSlot(None, Open, None))

  /** The slots before anything is picked: castles at the ends, the rest open. */
  const OPEN_SLOT := RoomSlot(None, Open, None)
  const EMPTY_SLOTS: Slots :=
    [RoomSlot(Some(Room(T_CASTLE)), Castle, None), OPEN_SLOT, OPEN_SLOT, OPEN_SLOT, OPEN_SLOT, OPEN_SLOT,
     RoomSlot(Some(Room(CT_CASTLE)), Castle, None)]

  /** Room ids in a path. Anything that is not a room reads as -1. */
  function RoomNumber(k: Key): int {
    if k.Room? then k.id else -1
  }

  /** The key of a room id. A negative id is no room's key. */
  function KeyOf(id: int): Key {
    if id >= 0 then Room(id) else MapId("")
  }

  /** Castles at the ends, a start room in slot 3, mid rooms elsewhere, no repeats. */
  predicate ValidPath(ids: seq<int>) {
    && |ids| == ROOM_SLOTS
    && !HasRepeats(ids)
    && ids[0] == T_CASTLE && ids[6] == CT_CASTLE
    && KeyOf(ids[3]) in START_POOL
    && KeyOf(ids[1]) in MID_POOL && KeyOf(ids[2]) in MID_POOL && KeyOf(ids[4]) in MID_POOL && KeyOf(ids[5]) in MID_POOL
  }

  lemma PoolMembers()
    ensures forall k :: k in MID_POOL <==> k.Room? && 201 <= k.id <= 212
    ensures forall k :: k in START_POOL <==> k.Room? && 101 <= k.id <= 104
    ensures Distinct(MID_POOL) && |Elems(MID_POOL)| == 12
    ensures Distinct(START_POOL) && |Elems(START_POOL)| == 4
  {
    forall k: Key | k.Room? && 201 <= k.id <= 212 ensures k in MID_POOL {
      assert MID_POOL[k.id - 201] == k;
    }
    forall k: Key | k.Room? && 101 <= k.id <= 104 ensures k in START_POOL {
      assert START_POOL[k.id - 101] == k;
    }
    DistinctCard(MID_POOL);
    DistinctCard(START_POOL);
  }

  /** The ids of filled slots, or none while a slot is still open. */
  function PathOf(slots: Slots): Option<seq<int>> {
    if exists x: SlotIndex :: slots[x].room == None then None
    else Some(seq(7, i requires 0 <= i < 7 && slots[i].room.Some? => RoomNumber(slots[i].room.value)))
  }

  /** What makes a set of slots a valid path, stated on the slots. */
  ghost predicate GoodSlots(slots: Slots) {
    && slots[0].room == Some(Room(T_CASTLE)) && slots[6].room == Some(Room(CT_CASTLE))
    && slots[3].room.Some? && slots[3].room.value in START_POOL
    && (forall x: SlotIndex | x == 1 || x == 2 || x == 4 || x == 5 ::
          slots[x].room.Some? && slots[x].room.value in MID_POOL)
    && (forall x: SlotIndex, y: SlotIndex | x < y :: slots[x].room != slots[y].room)
  }

  lemma GoodSlotsAreRooms(slots: Slots, x: SlotIndex)
    requires GoodSlots(slots)
    ensures slots[x].room.Some? && slots[x].room.value.Room?
            && KeyOf(RoomNumber(slots[x].room.value)) == slots[x].room.value
  {
    PoolMembers();
    if x == 0 || x == 6 || x == 3 {
    } else {
      assert x == 1 || x == 2 || x == 4 || x == 5;
    }
  }

  lemma GoodSlotsPath(slots: Slots)
    requires GoodSlots(slots)
    ensures PathOf(slots).Some? && ValidPath(PathOf(slots).value)
    ensures forall x: SlotIndex :: slots[x].room == Some(KeyOf(PathOf(slots).value[x]))
  {
    forall x: SlotIndex
      ensures slots[x].room.Some? && slots[x].room.value.Room?
              && KeyOf(RoomNumber(slots[x].room.value)) == slots[x].room.value
    {
      GoodSlotsAreRooms(slots, x);
    }
    var ids := PathOf(slots).value;
    assert !HasRepeats(ids) by {
      forall i, j | 0 <= i < j < 7 ensures ids[i] != ids[j] {
        var a: SlotIndex, b: SlotIndex := i, j;
        assert slots[a].room != slots[b].room;
      }
    }
    var a1: SlotIndex, a2: SlotIndex, a3: SlotIndex := 1, 2, 3;
    assert KeyOf(ids[a1]) in MID_POOL && KeyOf(ids[a2]) in MID_POOL && KeyOf(ids[a3]) in START_POOL;
  }

  // ---------- Picks into slots ----------

  /** Index of the last pick among the first n that was aimed at slot. */
  function LastAimed(targets: seq<Option<SlotIndex>>, n: nat, slot: SlotIndex): (r: Option<nat>)
    requires n <= |targets|
    ensures r.Some? ==> r.value < n && targets[r.value] == Some(slot)
    ensures r.Some? ==> forall i | r.value < i < n :: targets[i] != Some(slot)
    ensures r.None? ==> forall i | 0 <= i < n :: targets[i] != Some(slot)
  {
    if n == 0 then None
    else if targets[n - 1] == Some(slot) then Some(n - 1)
    else LastAimed(targets, n - 1, slot)
  }

  lemma LastAimedIs(targets: seq<Option<SlotIndex>>, n: nat, slot: SlotIndex, i: nat)
    requires i < n <= |targets| && targets[i] == Some(slot) && forall j | i < j < n :: targets[j] != Some(slot)
    ensures LastAimed(targets, n, slot) == Some(i)
  {
  }

  /** Slots after the first n history entries: each shows the last pick aimed at it. */
  function Placed(history: seq<Entry>, targets: seq<Option<SlotIndex>>, n: nat): (r: Slots)
    requires n <= |targets| == |history|
  {
    seq(7, x requires 0 <= x < 7 =>
      match LastAimed(targets, n, x)
      case None => EMPTY_SLOTS[x]
      case Some(i) => RoomSlot(Some(history[i].item), Picked, Some(history[i].team)))
  }

  /** One more pick overwrites exactly the slot it is aimed at. */
  lemma PlacedStep(history: seq<Entry>, targets: seq<Option<SlotIndex>>, n: nat)
    requires n < |targets| == |history|
    ensures Placed(history, targets, n + 1) ==
            match targets[n]
            case None => Placed(history, targets, n)
            case Some(x) =>
              Placed(history, targets, n)[x := RoomSlot(Some(history[n].item), Picked, Some(history[n].team))]
  {
  }

  // ---------- Leftover rooms into open slots ----------

  function LeftoverSlot(room: Key, ct: Option<Team>, x: SlotIndex): RoomSlot {
    RoomSlot(Some(room), Leftover, if ct.None? then None else if x < START_SLOT then Some(Other(ct.value)) else ct)
  }

  /** Puts rooms[i], rooms[i+1], ... into order[i], order[i+1], ... where those slots are still open. */
  function FillFrom(slots: Slots, order: seq<SlotIndex>, rooms: seq<Key>, ct: Option<Team>, i: nat): Slots
    decreases |order| - i
  {
    if i >= |order| || i >= |rooms| then slots
    else
      var next :=
        if slots[order[i]].source == Open then slots[order[i] := LeftoverSlot(rooms[i], ct, order[i])] else slots;
      FillFrom(next, order, rooms, ct, i + 1)
  }

  /**
   * Only open slots change, each to a room of its own place in the order, and none with a room left for it stays open.
   */
  lemma {:induction false} FillFacts(slots: Slots, order: seq<SlotIndex>, rooms: seq<Key>, ct: Option<Team>, i: nat,
      x: SlotIndex)
    ensures var r := FillFrom(slots, order, rooms, ct, i);
            && (slots[x].source != Open ==> r[x] == slots[x])
            && (r[x] == slots[x] || exists j | i <= j < |order| && j < |rooms| ::
                  order[j] == x && r[x] == LeftoverSlot(rooms[j], ct, x))
            && ((exists j | i <= j < |order| && j < |rooms| :: order[j] == x) ==> r[x].source != Open)
    decreases |order| - i
  {
    if i < |order| && i < |rooms| {
      var next :=
        if slots[order[i]].source == Open then slots[order[i] := LeftoverSlot(rooms[i], ct, order[i])] else slots;
      FillFacts(next, order, rooms, ct, i + 1, x);
      if order[i] != x && exists j | i <= j < |order| && j < |rooms| :: order[j] == x {
        var j :| i <= j < |order| && j < |rooms| && order[j] == x;
        assert i + 1 <= j;
      }
    }
  }

  /** Filling is the source's loop over the slots still to fill. */
  method FillLeftovers(slots: Slots, order: seq<SlotIndex>, rooms: seq<Key>, ct: Option<Team>) returns (r: Slots)
    ensures r == FillFrom(slots, order, rooms, ct, 0)
  {
    r := slots;
    var i := 0;
    while i < |order|
      invariant 0 <= i <= |order|
      invariant FillFrom(r, order, rooms, ct, i) == FillFrom(slots, order, rooms, ct, 0)
    {
      if i < |rooms| && r[order[i]].source == Open {
        r := r[order[i] := LeftoverSlot(rooms[i], ct, order[i])];
      }
      i := i + 1;
    }
  }
}
