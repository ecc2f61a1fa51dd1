/**
 * The rooms of a finished series veto (packages/shared/src/veto/series-rooms.ts): where they come from, and exactly
 * when they pass the last check.
 */
module SeriesDone {
  import opened Common
  import opened VetoEngine
  import opened RushRooms
  import opened RoomVeto
  import opened SeriesVeto
  import opened SeriesRooms
  import opened SeriesExact

  // ---------- Slots once done ----------

  lemma {:induction false} TeamSplit(u: Setup, m: int, n: nat)
    requires n <= |u.Steps()|
    ensures TeamMids(u.format, u.first, u.Flip(), m, Team0, n) + TeamMids(u.format, u.first, u.Flip(), m, Team1, n)
            == CountKind(u.Steps(), n, m, MidPhase)
  {
    if n > 0 {
      TeamSplit(u, m, n - 1);
    }
  }

  /** Every map of a finished veto has its sides and its leftovers may be placed. */
  lemma DoneSides(s: VetoState, u: Setup, m: nat)
    requires SeriesRun(s, u) && s.done && 1 <= m <= u.format.maps
    ensures |s.history| == |u.Steps()| && CtTeam(s, u.unit, m).Some? && MidsOver(s, At(u.unit, m))
  {
    CtKnown(s, u, m);
  }

  function DoneMids(u: Setup, m: nat, t: Team): nat {
    TeamMids(u.format, u.first, u.Flip(), At(u.unit, m), t, |u.Steps()|)
  }

  lemma AtMostTwo(s: VetoState, u: Setup, m: nat, t: Team)
    requires SeriesRun(s, u) && 1 <= m <= u.format.maps
    ensures DoneMids(u, m, t) <= 2
  {
    assert MidsFit(u.format, u.first, u.Flip(), At(u.unit, m));
  }

  /** Which of a team's two slots on map m have a pick. */
  lemma DoneOwnSlots(s: VetoState, u: Setup, m: nat, t: Team)
    requires SeriesRun(s, u) && s.done && 1 <= m <= u.format.maps
    ensures CtTeam(s, u.unit, m).Some?
    ensures var own := OwnSlots(t == CtTeam(s, u.unit, m).value);
            && DoneMids(u, m, t) <= 2
            && (forall j | 0 <= j < DoneMids(u, m, t) :: ShowsMid(PicksOn(s, u.unit, m)[own[j]]))
            && (forall j | DoneMids(u, m, t) <= j < 2 :: PicksOn(s, u.unit, m)[own[j]] == OPEN_SLOT)
  {
    DoneSides(s, u, m);
    AtMostTwo(s, u, m, t);
    hide SeriesRun, PicksOn, CtTeam, TeamMids, At;
    var mids := DoneMids(u, m, t);
    if mids > 0 { OwnSlotShown(s, u, m, t, 0); } else { OwnSlotOpen(s, u, m, t, 0); }
    if mids > 1 { OwnSlotShown(s, u, m, t, 1); } else { OwnSlotOpen(s, u, m, t, 1); }
  }

  predicate ShowsMid(slot: RoomSlot) {
    slot.source == Picked && slot.room.Some? && slot.room.value in MID_POOL
  }

  /** Mid steps of map m. */
  function MapMids(u: Setup, m: int): nat {
    CountKind(u.Steps(), |u.Steps()|, At(u.unit, m), MidPhase)
  }

  /** Every map but the last has all its mid steps. */
  lemma FullBeforeLast(u: Setup, m: nat)
    requires FormatOk(u.format, u.unit) && 1 <= m <= u.format.maps
    ensures MapMids(u, m) <= 4 && (m < u.format.maps ==> MapMids(u, m) == 4)
  {
    assert MapOk(u.format, m, At(u.unit, m));
  }

  /** A mid slot of a finished map shows a mid pick, or is open on the last map with mid picks to spare. */
  lemma DoneMidSlot(s: VetoState, u: Setup, m: nat, x: SlotIndex)
    requires SeriesRun(s, u) && s.done && 1 <= m <= u.format.maps && (x == 1 || x == 2 || x == 4 || x == 5)
    ensures var slot := PicksOn(s, u.unit, m)[x];
            if slot.source == Picked then slot.room.Some? && slot.room.value in MID_POOL
            else slot == OPEN_SLOT && m == u.format.maps
  {
    DoneSides(s, u, m);
    var ct := CtTeam(s, u.unit, m).value;
    var t := if x >= 4 then ct else Other(ct);
    var j := if x == 1 || x == 5 then 0 else 1;
    DoneOwnSlots(s, u, m, t);
    assert OwnSlots(t == ct)[j] == x;
    TeamSplit(u, At(u.unit, m), |u.Steps()|);
    DoneOwnSlots(s, u, m, Other(t));
    FullBeforeLast(u, m);
  }

  lemma {:induction false} OpenOnlyIs(slots: Slots, order: seq<SlotIndex>)
    ensures forall x :: x in OpenOnly(slots, order) <==> x in order && slots[x].source == Open
    ensures Distinct(order) ==> Distinct(OpenOnly(slots, order))
  {
    if order != [] {
      OpenOnlyIs(slots, order[1..]);
      if Distinct(order) {
        DistinctConcat(if slots[order[0]].source == Open then [order[0]] else [], OpenOnly(slots, order[1..]));
      }
    }
  }

  function OpenBit(slots: Slots, x: SlotIndex): nat {
    if slots[x].source == Open then 1 else 0
  }

  lemma OpenCount(slots: Slots)
    ensures |OpenOnly(slots, FILL_ORDER)|
            == OpenBit(slots, 1) + OpenBit(slots, 2) + OpenBit(slots, 5) + OpenBit(slots, 4)
  {
    var a: seq<SlotIndex>, b: seq<SlotIndex>, c: seq<SlotIndex> := [2, 5, 4], [5, 4], [4];
    assert FILL_ORDER[1..] == a && a[1..] == b && b[1..] == c && c[1..] == [];
    assert |OpenOnly(slots, c)| == OpenBit(slots, 4);
    assert |OpenOnly(slots, b)| == OpenBit(slots, 5) + |OpenOnly(slots, c)|;
    assert |OpenOnly(slots, a)| == OpenBit(slots, 2) + |OpenOnly(slots, b)|;
  }

  /** Open mid slots of a finished map: the mid picks it lacks. */
  lemma DoneOpenCount(s: VetoState, u: Setup, m: nat)
    requires SeriesRun(s, u) && s.done && 1 <= m <= u.format.maps
    ensures |OpenOnly(PicksOn(s, u.unit, m), FILL_ORDER)| == 4 - MapMids(u, m)
  {
    DoneSides(s, u, m);
    var ct := CtTeam(s, u.unit, m).value;
    DoneOwnSlots(s, u, m, ct);
    DoneOwnSlots(s, u, m, Other(ct));
    TeamSplit(u, At(u.unit, m), |u.Steps()|);
    hide SeriesRun, PicksOn, CtTeam, TeamMids, At, CountKind;
    var picked := PicksOn(s, u.unit, m);
    var mine, theirs := OwnSlots(true), OwnSlots(false);
    assert mine == [5, 4] && theirs == [1, 2];
    OpenBits(picked, mine, DoneMids(u, m, ct));
    OpenBits(picked, theirs, DoneMids(u, m, Other(ct)));
    OpenCount(picked);
  }

  lemma OpenBits(slots: Slots, own: seq<SlotIndex>, mids: nat)
    requires |own| == 2 && mids <= 2
    requires forall j | 0 <= j < mids :: slots[own[j]].source == Picked
    requires forall j | mids <= j < 2 :: slots[own[j]] == OPEN_SLOT
    ensures OpenBit(slots, own[0]) + OpenBit(slots, own[1]) == 2 - mids
  {
    assert mids > 0 ==> slots[own[0]].source == Picked;
    assert mids > 1 ==> slots[own[1]].source == Picked;
    assert mids < 1 ==> slots[own[0]] == OPEN_SLOT;
    assert mids < 2 ==> slots[own[1]] == OPEN_SLOT;
  }

  // ---------- Leftovers ----------

  /** A mid room is left for each mid step there is not. */
  lemma MidsLeftCount(s: VetoState, u: Setup)
    requires SeriesRun(s, u) && s.done
    ensures |MidsLeft(s)| == 12 - TotalKind(u.Steps(), |u.Steps()|, MidPhase)
    ensures Distinct(MidsLeft(s)) && forall k | k in MidsLeft(s) :: k in MID_POOL && k !in Items(s.history)
  {
    MidsInPool(s, u);
    PoolUse(s, u, 0, MidPhase, |s.steps|);
    assert |s.history| == |s.steps|;
    hide SeriesRun, Inv, FormatOk, AllMidsFit;
    PoolSize(0, MidPhase);
    LeftBound(s, Elems(MID_POOL));
    LeftAtMost(s, Elems(MID_POOL));
  }

  lemma MidsInPool(s: VetoState, u: Setup)
    requires SeriesRun(s, u)
    ensures Elems(MID_POOL) * Elems(s.pool) == Elems(MID_POOL) && |s.steps| == |u.Steps()|
  {
    FullBeforeLast(u, 1);
    var i := CountPositive(u.Steps(), |u.Steps()|, At(u.unit, 1), MidPhase);
    StepIs(s, u, i);
  }

  /** At most eight of the twelve mid rooms are for steps on other maps than the last and between maps. */
  predicate LastFills(u: Setup) {
    TotalKind(u.Steps(), |u.Steps()|, MidPhase) - MapMids(u, u.format.maps) <= 8
  }

  /** The leftovers fill the last map exactly then. */
  lemma EnoughLeft(s: VetoState, u: Setup)
    requires SeriesRun(s, u) && s.done
    ensures |OpenOnly(PicksOn(s, u.unit, u.format.maps), FILL_ORDER)| <= |MidsLeft(s)| <==> LastFills(u)
  {
    DoneOpenCount(s, u, u.format.maps);
    MidsLeftCount(s, u);
  }

  /** With whole maps that holds of every accepted format. */
  lemma WholeFills(u: Setup)
    requires FormatOk(u.format, 1) && u.unit == 1
    ensures LastFills(u)
  {
    TotalsFit(u.format);
    FullBeforeLast(u, 1);
    AtWhole(u.format.maps);
  }

  // ---------- Origins of rooms ----------

  /** Entry i of the history is the room in slot x of map m. */
  ghost predicate PickAt(s: VetoState, u: Setup, m: nat, x: SlotIndex, slot: RoomSlot, i: nat) {
    && i < |s.history| && i < |u.Steps()| && u.Steps()[i].map_ == At(u.unit, m)
    && SeriesAim(s, At(u.unit, m), CtTeam(s, u.unit, m), i) == Some(x) && slot.room == Some(s.history[i].item)
  }

  /** Leftover mid room j is the room in slot x of the last map. */
  ghost predicate LeftAt(s: VetoState, u: Setup, m: nat, x: SlotIndex, slot: RoomSlot, j: nat) {
    var open := OpenOnly(PicksOn(s, u.unit, m), FILL_ORDER);
    m == u.format.maps && j < |open| && j < |MidsLeft(s)| && open[j] == x && slot.room == Some(MidsLeft(s)[j])
  }

  /** Map m is filled: it is not the last one, or there is enough left for it. */
  predicate Filled(u: Setup, m: nat) {
    1 <= m <= u.format.maps && (m == u.format.maps ==> LastFills(u))
  }

  /** Every slot between the castles of a finished map holds a pick of that map, or a leftover on the last map. */
  lemma DoneOrigin(s: VetoState, u: Setup, m: nat, x: SlotIndex) returns (i: nat, isPick: bool)
    requires SeriesRun(s, u) && s.done && Filled(u, m) && BetweenCastles(x)
    ensures var slot := MapOf(s, u.unit, m).slots[x];
            && (if isPick then PickAt(s, u, m, x, slot, i) else LeftAt(s, u, m, x, slot, i))
            && slot.source != Castle && slot.room.Some?
            && slot.room.value in if x == START_SLOT then START_POOL else MID_POOL
  {
    if x == START_SLOT {
      i := DoneStart(s, u, m);
      isPick := true;
    } else {
      DoneMidSlot(s, u, m, x);
      hide SeriesRun, PicksOn, MapOf, LastFills;
      isPick := PicksOn(s, u.unit, m)[x].source == Picked;
      if isPick {
        i := DonePick(s, u, m, x);
      } else {
        i := DoneLeft(s, u, x);
      }
    }
  }

  lemma DoneStart(s: VetoState, u: Setup, m: nat) returns (i: nat)
    requires SeriesRun(s, u) && s.done && 1 <= m <= u.format.maps
    ensures var slot := MapOf(s, u.unit, m).slots[START_SLOT];
            PickAt(s, u, m, START_SLOT, slot, i) && slot.source == Picked && slot.room.value in START_POOL
  {
    DoneSides(s, u, m);
    assert MapOk(u.format, m, At(u.unit, m));
    i := CountPositive(u.Steps(), |u.Steps()|, At(u.unit, m), StartPhase);
    hide SeriesRun, PickedSlots, MapOf, SeriesAim, CtTeam, At;
    var ct := CtTeam(s, u.unit, m);
    AimIs(s, u, m, ct, i);
    EntryIs(s, u, i);
    AimedSlotShows(s, u, m, ct, i, START_SLOT);
    MapShowsPick(s, u.unit, m, START_SLOT);
  }

  lemma DonePick(s: VetoState, u: Setup, m: nat, x: SlotIndex) returns (i: nat)
    requires SeriesRun(s, u) && 1 <= m <= u.format.maps && PicksOn(s, u.unit, m)[x].source == Picked
    ensures PickAt(s, u, m, x, MapOf(s, u.unit, m).slots[x], i)
    ensures MapOf(s, u.unit, m).slots[x] == PicksOn(s, u.unit, m)[x]
  {
    hide At;
    MapShowsPick(s, u.unit, m, x);
    PickedComesFromAim(s, u.unit, m, x);
    var ct := CtTeam(s, u.unit, m);
    var aims := SeriesAims(s, At(u.unit, m), ct);
    i := LastAimed(aims, |s.history|, x).value;
    assert aims[i] == SeriesAim(s, At(u.unit, m), ct, i);
    AimIs(s, u, m, ct, i);
  }

  lemma DoneLeft(s: VetoState, u: Setup, x: SlotIndex) returns (j: nat)
    requires SeriesRun(s, u) && s.done && LastFills(u) && (x == 1 || x == 2 || x == 4 || x == 5)
    requires PicksOn(s, u.unit, u.format.maps)[x] == OPEN_SLOT
    ensures var slot := MapOf(s, u.unit, u.format.maps).slots[x];
            && LeftAt(s, u, u.format.maps, x, slot, j)
            && slot.source == Leftover && slot.room.value in MID_POOL
  {
    var m: nat := u.format.maps;
    DoneSides(s, u, m);
    EnoughLeft(s, u);
    MidsLeftCount(s, u);
    hide SeriesRun, LastFills, PicksOn;
    var picked := PicksOn(s, u.unit, m);
    var open := OpenOnly(picked, FILL_ORDER);
    var k := OpenPlace(picked, x);
    FillFacts(picked, open, MidsLeft(s), CtTeam(s, u.unit, m), 0, x);
    j :| 0 <= j < |open| && j < |MidsLeft(s)| && open[j] == x
      && MapOf(s, u.unit, m).slots[x] == LeftoverSlot(MidsLeft(s)[j], CtTeam(s, u.unit, m), x);
    assert MidsLeft(s)[j] in MidsLeft(s);
  }

  /** An open mid slot has a place in the order of filling. */
  lemma OpenPlace(slots: Slots, x: SlotIndex) returns (k: nat)
    requires slots[x].source == Open && (x == 1 || x == 2 || x == 4 || x == 5)
    ensures k < |OpenOnly(slots, FILL_ORDER)| && OpenOnly(slots, FILL_ORDER)[k] == x
  {
    OpenOnlyIs(slots, FILL_ORDER);
    assert FILL_ORDER[0] == 1 && FILL_ORDER[1] == 2 && FILL_ORDER[2] == 5 && FILL_ORDER[3] == 4;
    assert x in OpenOnly(slots, FILL_ORDER);
    k :| 0 <= k < |OpenOnly(slots, FILL_ORDER)| && OpenOnly(slots, FILL_ORDER)[k] == x;
  }

  /** No two places of the filled maps of a finished series hold the same room. */
  lemma SeriesRoomsDiffer(s: VetoState, u: Setup, m: nat, x: SlotIndex, n: nat, y: SlotIndex)
    requires SeriesRun(s, u) && s.done && Filled(u, m) && Filled(u, n)
    requires BetweenCastles(x) && BetweenCastles(y) && (m != n || x != y)
    ensures MapOf(s, u.unit, m).slots[x].room != MapOf(s, u.unit, n).slots[y].room
  {
    var i, a := DoneOrigin(s, u, m, x);
    var j, b := DoneOrigin(s, u, n, y);
    MidsLeftCount(s, u);
    ChoicesAreDistinct(s);
    AtGrows(u.unit, m, n);
    hide SeriesRun, MapOf, PicksOn, CtTeam, SeriesAim, LastFills, At;
    assert !a ==> MidsLeft(s)[i] in MidsLeft(s);
    assert !b ==> MidsLeft(s)[j] in MidsLeft(s);
    if a && b {
      assert i != j;
    } else if !a && !b {
      assert m == n && i != j;
    } else if a {
      assert s.history[i].item in Items(s.history);
    } else {
      assert s.history[j].item in Items(s.history);
    }
  }

  /** The castles of every map stay where they are. */
  lemma CastlesStay(s: VetoState, u: Setup, m: nat, x: SlotIndex)
    requires SeriesRun(s, u) && 1 <= m <= u.format.maps && !BetweenCastles(x)
    ensures MapOf(s, u.unit, m).slots[x] == EMPTY_SLOTS[x] && EMPTY_SLOTS[x].source == Castle
  {
    var ct := CtTeam(s, u.unit, m);
    var aims := SeriesAims(s, At(u.unit, m), ct);
    assert x == 0 || x == 6;
    hide At;
    forall i | 0 <= i < |s.history| ensures aims[i] != Some(x) {
      NotAtCastle(s, u, m, ct, i);
    }
    hide SeriesRun, CtTeam;
    assert PickedSlots(s, At(u.unit, m), ct)[x] == EMPTY_SLOTS[x];
    MapShowsPick(s, u.unit, m, x);
  }

  lemma NotAtCastle(s: VetoState, u: Setup, m: nat, ct: Option<Team>, i: nat)
    requires SeriesRun(s, u) && i < |s.history| && 1 <= m <= u.format.maps
    ensures SeriesAim(s, At(u.unit, m), ct, i).Some? ==> BetweenCastles(SeriesAim(s, At(u.unit, m), ct, i).value)
  {
    AimIs(s, u, m, ct, i);
    hide SeriesRun, SeriesAim, At;
  }

  // ---------- The last check of a finished veto ----------

  lemma FilledMapGood(s: VetoState, u: Setup, m: nat)
    requires SeriesRun(s, u) && s.done && Filled(u, m)
    ensures MapGood(MapOf(s, u.unit, m))
  {
    DoneSides(s, u, m);
    hide SeriesRun, CtTeam, PicksOn, LastFills, At;
    var slots := MapOf(s, u.unit, m).slots;
    forall x: SlotIndex | BetweenCastles(x)
      ensures slots[x].room.Some? && slots[x].room.value in (if x == START_SLOT then START_POOL else MID_POOL)
    {
      var i, isPick := DoneOrigin(s, u, m, x);
    }
    forall x: SlotIndex | !BetweenCastles(x) ensures slots[x] == EMPTY_SLOTS[x] {
      CastlesStay(s, u, m, x);
    }
    forall x: SlotIndex, y: SlotIndex | BetweenCastles(x) && BetweenCastles(y) && x != y
      ensures slots[x].room != slots[y].room
    {
      SeriesRoomsDiffer(s, u, m, x, m, y);
    }
    InnerRoomsMakeGoodSlots(slots);
    GoodSlotsPath(slots);
  }

  /** With more open slots than rooms left, the first slot without a room stays open. */
  lemma StaysOpen(s: VetoState, u: Setup) returns (x: SlotIndex)
    requires SeriesRun(s, u) && s.done && !LastFills(u)
    ensures MapOf(s, u.unit, u.format.maps).slots[x] == OPEN_SLOT
  {
    var m: nat := u.format.maps;
    DoneSides(s, u, m);
    EnoughLeft(s, u);
    hide LastFills, PicksOn, Inv, FormatOk, AllMidsFit;
    x := PastTheEnd(PicksOn(s, u.unit, m), MidsLeft(s), CtTeam(s, u.unit, m));
    DoneMidSlot(s, u, m, x);
  }

  lemma PastTheEnd(slots: Slots, rooms: seq<Key>, ct: Option<Team>) returns (x: SlotIndex)
    requires |OpenOnly(slots, FILL_ORDER)| > |rooms|
    ensures (x == 1 || x == 2 || x == 4 || x == 5) && slots[x].source == Open
    ensures FillFrom(slots, OpenOnly(slots, FILL_ORDER), rooms, ct, 0)[x] == slots[x]
  {
    var open := OpenOnly(slots, FILL_ORDER);
    OpenOnlyIs(slots, FILL_ORDER);
    x := open[|rooms|];
    assert x in open && x in FILL_ORDER;
    FillFacts(slots, open, rooms, ct, 0, x);
  }

  lemma NoPathWithOpen(slots: Slots, x: SlotIndex)
    requires slots[x] == OPEN_SLOT
    ensures PathOf(slots).None?
  {
  }

  /** Every map of a finished veto but the last has its sides and a valid path. The last has one exactly when there is
      enough left to fill it. */
  lemma DoneMapGood(s: VetoState, u: Setup, m: nat)
    requires SeriesRun(s, u) && s.done && 1 <= m <= u.format.maps
    ensures MapGood(MapOf(s, u.unit, m)) <==> Filled(u, m)
  {
    hide SeriesRun, MapOf, LastFills;
    if Filled(u, m) {
      FilledMapGood(s, u, m);
    } else {
      var x := StaysOpen(s, u);
      NoPathWithOpen(MapOf(s, u.unit, m).slots, x);
    }
  }

  /** All maps of a veto, as the last check sees them. */
  function MapsOf(s: VetoState, u: Setup): seq<SeriesMap>
    requires u.format.maps >= 0
  {
    seq(u.format.maps, i requires 0 <= i < u.format.maps => MapOf(s, u.unit, i + 1))
  }

  lemma OneMapGood(s: VetoState, u: Setup, m: nat)
    requires SeriesRun(s, u) && s.done && LastFills(u) && m < u.format.maps
    ensures MapGood(MapsOf(s, u)[m])
  {
    DoneMapGood(s, u, m + 1);
  }

  lemma AllMapsGood(s: VetoState, u: Setup)
    requires SeriesRun(s, u) && s.done && LastFills(u) && u.format.maps >= 0
    ensures AllGood(MapsOf(s, u))
  {
    var maps := MapsOf(s, u);
    hide SeriesRun, MapOf, MapGood, LastFills, MapsOf;
    forall m | 0 <= m < |maps| ensures MapGood(maps[m]) {
      OneMapGood(s, u, m);
    }
    forall i: nat, j: nat, x: SlotIndex, y: SlotIndex | BothRooms(maps, i, x, j, y)
      ensures maps[i].slots[x].room != maps[j].slots[y].room
    {
      RoomsApart(s, u, i, x, j, y);
    }
  }

  lemma RoomsApart(s: VetoState, u: Setup, i: nat, x: SlotIndex, j: nat, y: SlotIndex)
    requires SeriesRun(s, u) && s.done && LastFills(u) && u.format.maps >= 0 && BothRooms(MapsOf(s, u), i, x, j, y)
    ensures MapsOf(s, u)[i].slots[x].room != MapsOf(s, u)[j].slots[y].room
  {
    hide SeriesRun, MapOf, LastFills;
    if !BetweenCastles(x) { CastlesStay(s, u, i + 1, x); }
    if !BetweenCastles(y) { CastlesStay(s, u, j + 1, y); }
    SeriesRoomsDiffer(s, u, i + 1, x, j + 1, y);
  }

  lemma TwoOrThreeMaps(s: VetoState, u: Setup)
    requires SeriesRun(s, u)
    ensures 2 <= u.format.maps <= 3
  {
  }

  /**
   * Main result. Whatever was voted, timed out or drawn, a finished series veto has sides and a valid path for every
   * map and repeats no room, exactly when the steps leave enough mid rooms for its last map.
   */
  lemma FinishedSeriesIsGood(s: VetoState, u: Setup)
    requires SeriesRun(s, u) && s.done
    ensures u.format.maps >= 2
    ensures AllGood(MapsOf(s, u)) <==> LastFills(u)
  {
    TwoOrThreeMaps(s, u);
    hide SeriesRun, MapOf, MapGood, LastFills, NoRoomTwice;
    if LastFills(u) {
      AllMapsGood(s, u);
    } else {
      var last := |MapsOf(s, u)|;
      DoneMapGood(s, u, last);
      assert MapsOf(s, u)[last - 1] == MapOf(s, u.unit, last);
    }
  }

  /** So with whole maps every finished series veto is good. */
  lemma WholeSeriesIsGood(s: VetoState, u: Setup)
    requires SeriesRun(s, u) && s.done && u.unit == 1
    ensures u.format.maps >= 2 && AllGood(MapsOf(s, u))
  {
    WholeFills(u);
    FinishedSeriesIsGood(s, u);
  }

  /** The state after events of the veto made for u. */
  function After(u: Setup, events: seq<Event>): VetoState
    requires Created(u).Ok?
  {
    Run(Created(u).value, events)
  }

  lemma FinishedByTimeouts(u: Setup, events: seq<Event>, draws: seq<Draw>) returns (last: VetoState)
    requires Created(u).Ok? && StepsFit(u.Steps())
    requires |draws| + After(u, events).stepIndex == |After(u, events).steps|
    ensures last == Run(After(u, events), Timeouts(draws)) && last.done && SeriesRun(last, u)
  {
    var s := After(u, events);
    SeriesRuns(u, events);
    SeriesCoverable(s, u);
    hide Coverable, FormatOk, Created;
    TimeoutsFinish(s, draws);
    RunInv(s, Timeouts(draws));
    last := Run(s, Timeouts(draws));
  }

  /** When the steps fit, timeouts alone finish any run, and the finished veto is good exactly when its last map is
      filled. */
  lemma EverySeriesFinishes(u: Setup, events: seq<Event>, draws: seq<Draw>) returns (last: VetoState)
    requires Created(u).Ok? && StepsFit(u.Steps())
    requires |draws| + After(u, events).stepIndex == |After(u, events).steps|
    ensures last == Run(After(u, events), Timeouts(draws)) && last.done && u.format.maps >= 2
    ensures AllGood(MapsOf(last, u)) <==> LastFills(u)
  {
    hide After, SeriesRun, AllGood, MapsOf, Created, Run, Timeouts, StepsFit, LastFills;
    last := FinishedByTimeouts(u, events, draws);
    FinishedSeriesIsGood(last, u);
  }

  /** With whole maps any run can be finished by timeouts alone, and the finished veto is good. */
  lemma EverySeriesFinishesGood(u: Setup, events: seq<Event>, draws: seq<Draw>) returns (last: VetoState)
    requires Created(u).Ok? && u.unit == 1
    requires |draws| + After(u, events).stepIndex == |After(u, events).steps|
    ensures last == Run(After(u, events), Timeouts(draws)) && last.done && u.format.maps >= 2
    ensures AllGood(MapsOf(last, u))
  {
    WholeFits(u.format);
    WholeFills(u);
    hide After, AllGood, MapsOf, Created, Run, Timeouts, StepsFit, LastFills;
    last := EverySeriesFinishes(u, events, draws);
  }
}
