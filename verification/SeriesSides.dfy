/**
 * Which team plays which side on the maps of a Rush series, and in which slots the rooms of each team land
 * (packages/shared/src/veto/series-rooms.ts).
 */
module SeriesSides {
  import opened Common
  import opened VetoEngine
  import opened RushRooms
  import opened SeriesVeto
  import opened SeriesRooms
  import opened SeriesExact
  import opened SeriesDone

  // ---------- Roles ----------

  /** Who acts in step i, and what it offers. The draw of the coin flip is below one half when team 0 wins it. */
  lemma StepsFollowRoles(s: VetoState, u: Setup, i: nat)
    requires SeriesRun(s, u) && i < |s.steps|
    ensures |s.steps| == |u.Steps()|
    ensures var role, flip0 := u.Steps()[i].role, u.draw < 0.5;
            && (role == First ==> s.steps[i].team == u.first)
            && (role == Second ==> s.steps[i].team != u.first)
            && (role == FlipWinner ==> (s.steps[i].team == Team0 <==> flip0))
            && (role == FlipLoser ==> (s.steps[i].team == Team0 <==> !flip0))
    ensures s.steps[i].action == if u.Steps()[i].kind == SidePhase then Side else Pick
    ensures forall k :: k in StepPool(s, i) <==>
              match u.Steps()[i].kind
              case SidePhase => k == SideKey(u.Steps()[i].map_, CtSide) || k == SideKey(u.Steps()[i].map_, TSide)
              case MidPhase => k.Room? && 201 <= k.id <= 212
              case StartPhase => k.Room? && 101 <= k.id <= 104
  {
    StepIs(s, u, i);
    hide SeriesRun, StepPool, PhasePool;
    var st := u.Steps()[i];
    forall k ensures k in StepPool(s, i) <==> k in PhasePool(st.map_, st.kind) {
    }
    forall k ensures k in PhasePool(st.map_, st.kind) <==>
                     match st.kind
                     case SidePhase => k == SideKey(st.map_, CtSide) || k == SideKey(st.map_, TSide)
                     case MidPhase => k.Room? && 201 <= k.id <= 212
                     case StartPhase => k.Room? && 101 <= k.id <= 104
    {
      PoolKey(st.map_, st.kind, k);
    }
  }

  // ---------- What a step offers ----------

  lemma {:induction false} WithinWithout(s: seq<Key>, keep: set<Key>, gone: set<Key>)
    ensures Within(Without(s, gone), keep) == Without(Within(s, keep), gone)
  {
    if s != [] {
      WithinWithout(s[1..], keep, gone);
    }
  }

  lemma {:induction false} WithinSplit(a: seq<Key>, b: seq<Key>, keep: set<Key>)
    ensures Within(a + b, keep) == Within(a, keep) + Within(b, keep)
  {
    if a == [] {
      assert a + b == b;
    } else {
      assert (a + b)[1..] == a[1..] + b;
      WithinSplit(a[1..], b, keep);
    }
  }

  lemma {:induction false} WithinAllOrNone(s: seq<Key>, keep: set<Key>)
    ensures Elems(s) <= keep ==> Within(s, keep) == s
    ensures Elems(s) !! keep ==> Within(s, keep) == []
  {
    if s != [] {
      assert Elems(s) == {s[0]} + Elems(s[1..]);
      WithinAllOrNone(s[1..], keep);
    }
  }

  /** Joining a pool whose keys are all there changes nothing. */
  lemma {:induction false} AddNewNothing(a: seq<Key>, b: seq<Key>)
    requires forall k | k in b :: k in a
    ensures AddNew(a, b) == a
    decreases |b|
  {
    if b != [] {
      AddNewNothing(a, b[1..]);
    }
  }

  /** One whose keys are all new is appended. */
  lemma {:induction false} AddNewWhole(a: seq<Key>, b: seq<Key>)
    requires Distinct(b) && forall k | k in b :: k !in a
    ensures AddNew(a, b) == a + b
    decreases |b|
  {
    if b == [] {
      assert a + b == a;
    } else {
      var rest := b[1..];
      assert forall k | k in rest :: k in b && k != b[0];
      assert AddNew(a, b) == AddNew(a + [b[0]], rest);
      hide AddNew;
      AddNewWhole(a + [b[0]], rest);
      assert (a + [b[0]]) + rest == a + b;
    }
  }

  lemma {:induction false} AddNewElsewhere(a: seq<Key>, b: seq<Key>, keep: set<Key>)
    requires Elems(b) !! keep
    ensures Within(AddNew(a, b), keep) == Within(a, keep)
    decreases |b|
  {
    if b != [] {
      assert Elems(b) == {b[0]} + Elems(b[1..]);
      WithinSplit(a, [b[0]], keep);
      AddNewElsewhere(if b[0] in a then a else a + [b[0]], b[1..], keep);
    }
  }

  lemma {:induction false} JoinedElsewhere(phases: seq<Phase>, n: nat, keep: set<Key>)
    requires n <= |phases| && forall i | 0 <= i < n :: Elems(phases[i].pool) !! keep
    ensures Elems(JoinedPool(phases, n)) !! keep
  {
    if n > 0 {
      JoinedElsewhere(phases, n - 1, keep);
    }
  }

  /** One pool more: it is the pool asked for, which was there before or not, or has nothing to do with it. */
  lemma AddedWithin(before: seq<Key>, last: seq<Key>, pool: seq<Key>, had: bool)
    requires Distinct(pool) && (last == pool || Elems(last) !! Elems(pool))
    requires if had then Elems(pool) <= Elems(before) else Elems(before) !! Elems(pool)
    ensures Within(AddNew(before, last), Elems(pool)) ==
            if last == pool && !had then pool else Within(before, Elems(pool))
  {
    hide AddNew, Within;
    if last != pool {
      AddNewElsewhere(before, last, Elems(pool));
    } else if had {
      assert forall k | k in pool :: k in Elems(pool);
      AddNewNothing(before, last);
    } else {
      assert forall k | k in pool :: k in Elems(pool) && k !in Elems(before);
      AddNewWhole(before, last);
      WithinSplit(before, pool, Elems(pool));
      WithinAllOrNone(before, Elems(pool));
      WithinAllOrNone(pool, Elems(pool));
    }
  }

  /** One of the first n phases has this pool. */
  ghost predicate HasPool(phases: seq<Phase>, n: nat, pool: seq<Key>)
    requires n <= |phases|
  {
    exists i | 0 <= i < n :: phases[i].pool == pool
  }

  /** A pool that phases have whole or not at all stands in the joined pool in its own order. */
  lemma {:induction false} JoinedWithin(phases: seq<Phase>, n: nat, pool: seq<Key>)
    requires n <= |phases| && Distinct(pool)
    requires forall i | 0 <= i < n :: phases[i].pool == pool || Elems(phases[i].pool) !! Elems(pool)
    ensures Within(JoinedPool(phases, n), Elems(pool)) == if HasPool(phases, n, pool) then pool else []
  {
    if n > 0 {
      JoinedWithin(phases, n - 1, pool);
      var had := HasPool(phases, n - 1, pool);
      if had {
        var i :| 0 <= i < n - 1 && phases[i].pool == pool;
        JoinedHas(phases, n - 1, i);
      } else {
        JoinedElsewhere(phases, n - 1, Elems(pool));
      }
      assert HasPool(phases, n, pool) <==> had || phases[n - 1].pool == pool;
      hide AddNew, Within, Elems, HasPool;
      AddedWithin(JoinedPool(phases, n - 1), phases[n - 1].pool, pool, had);
    }
  }

  lemma PoolIsDistinct(m: int, kind: StepKind)
    ensures Distinct(PhasePool(m, kind))
  {
    PoolMembers();
  }

  lemma PoolStands(s: VetoState, u: Setup, i: nat)
    requires SeriesRun(s, u) && i < |s.steps|
    ensures |s.steps| == |u.Steps()|
    ensures var pool := PhasePool(u.Steps()[i].map_, u.Steps()[i].kind); Within(s.pool, Elems(pool)) == pool
  {
    StepIs(s, u, i);
    PhasesHavePools(u.Steps(), |u.Steps()|);
    var st := u.Steps()[i];
    var pool, f := PhasePool(st.map_, st.kind), s.steps[i].phase.value;
    assert s.phases[f].pool == pool && s.pool == JoinedPool(s.phases, |s.phases|);
    hide SeriesRun, PhasePool, JoinedPool;
    PoolIsDistinct(st.map_, st.kind);
    forall j | 0 <= j < |s.phases| ensures s.phases[j].pool == pool || Elems(s.phases[j].pool) !! Elems(pool) {
      EqualOrApart(s.phases[j].mapNumber, s.phases[j].kind, st.map_, st.kind);
    }
    JoinedWithin(s.phases, |s.phases|, pool);
    assert HasPool(s.phases, |s.phases|, pool);
  }

  lemma EqualOrApart(m: int, kind: StepKind, n: int, other: StepKind)
    ensures PhasePool(m, kind) == PhasePool(n, other) || Elems(PhasePool(m, kind)) !! Elems(PhasePool(n, other))
  {
    if kind != other || (kind == SidePhase && m != n) {
      hide PhasePool;
      PoolsApart(m, kind, n, other);
    }
  }

  /** A step offers what is left of its own pool in the order of that pool, whatever other steps the series has. */
  lemma OffersInOrder(s: VetoState, u: Setup)
    requires SeriesRun(s, u) && !s.done
    ensures s.stepIndex < |u.Steps()|
    ensures var st := u.Steps()[s.stepIndex]; StepAvailable(s) == Without(PhasePool(st.map_, st.kind), Items(s.history))
  {
    StepIs(s, u, s.stepIndex);
    PoolStands(s, u, s.stepIndex);
    assert s.available == Without(s.pool, Items(s.history));
    hide SeriesRun, PhasePool, Items;
    WithinWithout(s.pool, StepPool(s, s.stepIndex), Items(s.history));
  }

  // ---------- Sides ----------

  /** Step i chooses the sides of map m. */
  ghost predicate SideStep(u: Setup, m: int, i: nat) {
    i < |u.Steps()| && u.Steps()[i].kind == SidePhase && u.Steps()[i].map_ == At(u.unit, m)
  }

  lemma OneSide(u: Setup, m: int, i: nat, j: nat)
    requires FormatOk(u.format, u.unit) && 1 <= m <= u.format.maps && SideStep(u, m, i) && SideStep(u, m, j)
    ensures i == j
  {
    var at := At(u.unit, m);
    assert MapOk(u.format, m, at);
    hide FormatOk, SideFirst, At;
    if i < j {
      CountKindHas(u.Steps(), j, at, SidePhase, i);
      CountKindHas(u.Steps(), |u.Steps()|, at, SidePhase, j);
    } else if j < i {
      CountKindHas(u.Steps(), i, at, SidePhase, j);
      CountKindHas(u.Steps(), |u.Steps()|, at, SidePhase, i);
    }
  }

  lemma EntryIsSideStep(s: VetoState, u: Setup, m: nat, i: nat)
    requires SeriesRun(s, u) && 1 <= m <= u.format.maps && i < |s.history|
    ensures s.history[i].action == Side && OnMap(s, i, At(u.unit, m)) <==> SideStep(u, m, i)
  {
    EntryIs(s, u, i);
  }

  /** The sides of a map with a side step: the team that chose CT plays CT, and who chose T leaves it to the other. */
  lemma CtIsChosen(s: VetoState, u: Setup, m: nat, i: nat)
    requires SeriesRun(s, u) && 1 <= m <= u.format.maps && SideStep(u, m, i) && i < |s.history|
    ensures CtTeam(s, u.unit, m).Some?
    ensures s.history[i].item == SideKey(At(u.unit, m), CtSide) || s.history[i].item == SideKey(At(u.unit, m), TSide)
    ensures CtTeam(s, u.unit, m).value == s.history[i].team <==> s.history[i].item == SideKey(At(u.unit, m), CtSide)
  {
    EntryIs(s, u, i);
    PoolKey(At(u.unit, m), SidePhase, s.history[i].item);
    EntryIsSideStep(s, u, m, i);
    SideEntryFound(s, At(u.unit, m), |s.history|, i);
    var r := SideEntry(s, At(u.unit, m), |s.history|).value;
    EntryIsSideStep(s, u, m, r);
    hide SeriesRun, OnMap, At, PhasePool;
    FormatOfRun(s, u);
    OneSide(u, m, i, r);
  }

  lemma FormatOfRun(s: VetoState, u: Setup)
    requires SeriesRun(s, u)
    ensures FormatOk(u.format, u.unit)
  {
  }

  /** On a map without one the teams swap. Then its sides are known exactly when those of the map before are. */
  lemma CtSwaps(s: VetoState, u: Setup, m: nat)
    requires SeriesRun(s, u) && 1 <= m <= u.format.maps && forall i :: !SideStep(u, m, i)
    ensures m > 1 && (CtTeam(s, u.unit, m).Some? <==> CtTeam(s, u.unit, m - 1).Some?)
    ensures CtTeam(s, u.unit, m).Some? ==> CtTeam(s, u.unit, m) != CtTeam(s, u.unit, m - 1)
  {
    var at := At(u.unit, m);
    FormatOfRun(s, u);
    assert MapOk(u.format, m, at);
    if m == 1 {
      var i := CountPositive(u.Steps(), |u.Steps()|, at, SidePhase);
      assert SideStep(u, m, i);
    }
    HasSideIsStep(s, u, at);
    assert !HasSideStep(s.phases, at) by {
      forall i | 0 <= i < |u.Steps()| && u.Steps()[i].kind == SidePhase ensures u.Steps()[i].map_ != at {
        assert !SideStep(u, m, i);
      }
    }
    NoSideNoEntry(s, u, at);
  }

  /** On a map with one they are known exactly once it is made. */
  lemma CtKnownIff(s: VetoState, u: Setup, m: nat, i: nat)
    requires SeriesRun(s, u) && 1 <= m <= u.format.maps && SideStep(u, m, i)
    ensures CtTeam(s, u.unit, m).Some? <==> i < |s.history|
  {
    if i < |s.history| {
      CtIsChosen(s, u, m, i);
    } else {
      var at := At(u.unit, m);
      HasSideIsStep(s, u, at);
      var r := SideEntry(s, at, |s.history|);
      if r.Some? {
        EntryIsSideStep(s, u, m, r.value);
        FormatOfRun(s, u);
        OneSide(u, m, i, r.value);
      }
    }
  }

  // ---------- Slots ----------

  lemma {:induction false} FirstMid(u: Setup, at: int, t: Team, n: nat)
    requires n <= |u.Steps()|
    ensures TeamMids(u.format, u.first, u.Flip(), at, t, n) == 0 <==> forall j | 0 <= j < n :: !MidPick(u, at, t, j)
  {
    if n > 0 {
      FirstMid(u, at, t, n - 1);
      assert MidPick(u, at, t, n - 1) ||
             TeamMids(u.format, u.first, u.Flip(), at, t, n) == TeamMids(u.format, u.first, u.Flip(), at, t, n - 1);
    }
  }

  /**
   * Where a mid pick lands once the sides are known. The CT team's first one is in slot 5, beside the CT castle, and
   * its second in slot 4. The T team's first one is in slot 1, beside the T castle, and its second in slot 2.
   */
  lemma MidLands(s: VetoState, u: Setup, m: nat, i: nat)
    requires SeriesRun(s, u) && 1 <= m <= u.format.maps && CtTeam(s, u.unit, m).Some?
    requires i < |s.history| && MidPick(u, At(u.unit, m), s.history[i].team, i)
    ensures var h := s.history[i];
            var isFirst := forall j | 0 <= j < i :: !MidPick(u, At(u.unit, m), h.team, j);
            var x: SlotIndex := if CtTeam(s, u.unit, m) == Some(h.team) then (if isFirst then 5 else 4)
                                else (if isFirst then 1 else 2);
            MapOf(s, u.unit, m).slots[x] == RoomSlot(Some(h.item), Picked, Some(h.team))
  {
    var ct, t := CtTeam(s, u.unit, m), s.history[i].team;
    AimIs(s, u, m, ct, i);
    EntryIs(s, u, i);
    FirstMid(u, At(u.unit, m), t, i);
    hide SeriesRun, SeriesAim, MapOf, CtTeam, At, PickedSlots;
    var x := OwnSlots(t == ct.value)[TeamMids(u.format, u.first, u.Flip(), At(u.unit, m), t, i)];
    AimedSlotShows(s, u, m, ct, i, x);
    MapShowsPick(s, u.unit, m, x);
  }

  /** A start pick lands in slot 3, in the middle, whatever the sides. */
  lemma StartLands(s: VetoState, u: Setup, m: nat, i: nat)
    requires SeriesRun(s, u) && 1 <= m <= u.format.maps && i < |s.history| && i < |u.Steps()|
    requires u.Steps()[i].kind == StartPhase && u.Steps()[i].map_ == At(u.unit, m)
    ensures MapOf(s, u.unit, m).slots[3] == RoomSlot(Some(s.history[i].item), Picked, Some(s.history[i].team))
  {
    var ct := CtTeam(s, u.unit, m);
    AimIs(s, u, m, ct, i);
    hide SeriesRun, SeriesAim, MapOf, CtTeam, At, PickedSlots;
    AimedSlotShows(s, u, m, ct, i, 3);
    MapShowsPick(s, u.unit, m, 3);
  }

  // ---------- Leftovers ----------

  /** Open slots of the last map that are filled before slot x: in the order 1, 2, 5, 4. */
  function OpenBefore(slots: Slots, x: SlotIndex): nat {
    if x == 1 then 0
    else if x == 2 then OpenBit(slots, 1)
    else if x == 5 then OpenBit(slots, 1) + OpenBit(slots, 2)
    else OpenBit(slots, 1) + OpenBit(slots, 2) + OpenBit(slots, 5)
  }

  lemma OpenPlaceIs(slots: Slots, x: SlotIndex)
    requires slots[x].source == Open && (x == 1 || x == 2 || x == 4 || x == 5)
    ensures OpenBefore(slots, x) < |OpenOnly(slots, FILL_ORDER)|
    ensures OpenOnly(slots, FILL_ORDER)[OpenBefore(slots, x)] == x
  {
    var a: seq<SlotIndex>, b: seq<SlotIndex>, c: seq<SlotIndex> := [2, 5, 4], [5, 4], [4];
    assert FILL_ORDER[1..] == a && a[1..] == b && b[1..] == c && c[1..] == [];
    var oc, ob, oa := OpenOnly(slots, c), OpenOnly(slots, b), OpenOnly(slots, a);
    assert OpenOnly(slots, []) == [];
    assert oc == (if OpenBit(slots, 4) == 1 then [c[0]] else []) + [];
    assert ob == (if OpenBit(slots, 5) == 1 then [b[0]] else []) + oc;
    assert oa == (if OpenBit(slots, 2) == 1 then [a[0]] else []) + ob;
    assert OpenOnly(slots, FILL_ORDER) == (if OpenBit(slots, 1) == 1 then [FILL_ORDER[0]] else []) + oa;
  }

  /** The mid rooms nobody took stand in the order of the pool. */
  lemma MidsLeftInOrder(s: VetoState, u: Setup)
    requires SeriesRun(s, u)
    ensures MidsLeft(s) == Without(MID_POOL, Items(s.history))
  {
    FormatOfRun(s, u);
    assert MapOk(u.format, 1, At(u.unit, 1));
    var i := CountPositive(u.Steps(), |u.Steps()|, At(u.unit, 1), MidPhase);
    assert |s.steps| == |u.Steps()| && s.available == Without(s.pool, Items(s.history));
    hide SeriesRun, FormatOk, Items;
    PoolStands(s, u, i);
    WithinWithout(s.pool, Elems(MID_POOL), Items(s.history));
  }

  lemma LeftoverAt(picked: Slots, rooms: seq<Key>, ct: Team, x: SlotIndex)
    requires x == 1 || x == 2 || x == 4 || x == 5
    requires picked[x].source == Open && |OpenOnly(picked, FILL_ORDER)| <= |rooms|
    ensures OpenBefore(picked, x) < |rooms|
    ensures FillFrom(picked, OpenOnly(picked, FILL_ORDER), rooms, Some(ct), 0)[x] ==
            RoomSlot(Some(rooms[OpenBefore(picked, x)]), Leftover, Some(if x == 4 || x == 5 then ct else Other(ct)))
  {
    OpenOnlyIs(picked, FILL_ORDER);
    assert Distinct(FILL_ORDER);
    OpenPlaceIs(picked, x);
    hide OpenOnly, OpenBefore, FillFrom;
    FillFacts(picked, OpenOnly(picked, FILL_ORDER), rooms, Some(ct), 0, x);
  }

  /**
   * What is in a mid slot of the last map that nobody picked for, when it is filled: the mid rooms nobody took, in the
   * order of the pool, beside the T castle first. The slot belongs to the team whose castle is on its side.
   */
  lemma LeftoverLands(s: VetoState, u: Setup, x: SlotIndex)
    requires SeriesRun(s, u) && s.done && LastFills(u) && (x == 1 || x == 2 || x == 4 || x == 5)
    requires PicksOn(s, u.unit, u.format.maps)[x].source == Open
    ensures CtTeam(s, u.unit, u.format.maps).Some?
    ensures MidsLeft(s) == Without(MID_POOL, Items(s.history))
    ensures var ct, k := CtTeam(s, u.unit, u.format.maps).value, OpenBefore(PicksOn(s, u.unit, u.format.maps), x);
            && k < |MidsLeft(s)|
            && MapOf(s, u.unit, u.format.maps).slots[x] ==
               RoomSlot(Some(MidsLeft(s)[k]), Leftover, Some(if x == 4 || x == 5 then ct else Other(ct)))
  {
    var m: nat := u.format.maps;
    DoneSides(s, u, m);
    EnoughLeft(s, u);
    hide SeriesRun, LastFills, PicksOn, OpenBefore, OpenOnly, FillFrom, MidsLeft, MidsOver, CtTeam;
    MidsLeftInOrder(s, u);
    LeftoverAt(PicksOn(s, u.unit, m), MidsLeft(s), CtTeam(s, u.unit, m).value, x);
  }
}
