/** Who acts in each step of a Rush room veto and where each room ends up (packages/shared/src/veto/rooms.ts). */
module RoomLands {
  import opened Common
  import opened VetoEngine
  import opened RushRooms
  import opened RoomVeto

  // ---------- Steps ----------

  /** Actions of a phase: its sequence, and then bans down to one room when it says so. */
  ghost function ActionAt(phase: RoomPhase, i: nat): Action {
    if i < |phase.sequence| then phase.sequence[i] else Ban
  }

  ghost function ActionCount(phase: RoomPhase): int {
    if phase.banToOne then |phase.pool| - 1 else |phase.sequence|
  }

  /** The places of team t's picks among n actions of a phase that starts at a step. Teams take turns in all steps. */
  ghost function PicksIn(phase: RoomPhase, n: nat, start: nat, first: Team, t: Team): set<nat> {
    set i: nat | i < n && ActionAt(phase, i) == Pick && (t == first <==> (start + i) % 2 == 0)
  }

  ghost function SlotsOf(phase: RoomPhase, t: Team): seq<SlotIndex> {
    match t
    case Team0 => phase.pickSlots0
    case Team1 => phase.pickSlots1
  }

  /** A phase is refused exactly when it has more actions than rooms to spare or a team has more picks than slots. */
  ghost predicate PhaseFits(phase: RoomPhase, start: nat, first: Team) {
    && |phase.sequence| < |phase.pool|
    && forall t: Team :: |PicksIn(phase, ActionCount(phase), start, first, t)| <= |SlotsOf(phase, t)|
  }

  lemma BothTeams(phase: RoomPhase, start: nat, first: Team)
    ensures PhaseFits(phase, start, first) <==>
            && |phase.sequence| < |phase.pool|
            && |PicksIn(phase, ActionCount(phase), start, first, Team0)| <= |phase.pickSlots0|
            && |PicksIn(phase, ActionCount(phase), start, first, Team1)| <= |phase.pickSlots1|
  {
    var n := ActionCount(phase);
    assert SlotsOf(phase, Team0) == phase.pickSlots0 && SlotsOf(phase, Team1) == phase.pickSlots1;
    hide PicksIn;
    if && |phase.sequence| < |phase.pool|
       && |PicksIn(phase, n, start, first, Team0)| <= |phase.pickSlots0|
       && |PicksIn(phase, n, start, first, Team1)| <= |phase.pickSlots1| {
      forall t: Team ensures |PicksIn(phase, n, start, first, t)| <= |SlotsOf(phase, t)| {
        match t case Team0 => case Team1 =>
      }
    }
  }

  lemma OneMoreAction(phase: RoomPhase, n: nat, start: nat, first: Team, t: Team)
    ensures |PicksIn(phase, n + 1, start, first, t)| == |PicksIn(phase, n, start, first, t)| +
              if ActionAt(phase, n) == Pick && (t == first <==> (start + n) % 2 == 0) then 1 else 0
  {
    assert PicksIn(phase, n + 1, start, first, t) == PicksIn(phase, n, start, first, t) +
      if ActionAt(phase, n) == Pick && (t == first <==> (start + n) % 2 == 0) then {n} else {};
  }

  lemma {:induction false} CountedPicks(before: seq<Step>, phase: RoomPhase, idx: nat, first: Team, n: nat, t: Team)
    requires PhaseActions(phase).Ok? && n <= |PhaseActions(phase).value|
    requires forall i | 0 <= i < |before| :: before[i].phase != Some(idx)
    ensures var steps := before + StepsFor(PhaseActions(phase).value, idx, |before|, first);
            PickCount(steps, |before| + n, idx, t) == |PicksIn(phase, n, |before|, first, t)|
  {
    var steps := before + StepsFor(PhaseActions(phase).value, idx, |before|, first);
    if n == 0 {
      NoPicksBefore(before, steps, |before|, idx, t);
      assert PicksIn(phase, 0, |before|, first, t) == {};
    } else {
      var step := steps[|before| + n - 1];
      assert step.action == ActionAt(phase, n - 1);
      hide PicksIn, ActionAt, PhaseActions;
      CountedPicks(before, phase, idx, first, n - 1, t);
      OneMoreAction(phase, n - 1, |before|, first, t);
    }
  }

  lemma {:induction false} NoPicksBefore(before: seq<Step>, steps: seq<Step>, n: nat, idx: nat, t: Team)
    requires before <= steps && n <= |before| && forall i | 0 <= i < |before| :: before[i].phase != Some(idx)
    ensures PickCount(steps, n, idx, t) == 0
  {
    if n > 0 {
      NoPicksBefore(before, steps, n - 1, idx, t);
    }
  }

  /** One phase more: when its steps are taken, and what they are. */
  lemma PhaseSteps(before: seq<Step>, phase: RoomPhase, idx: nat, first: Team)
    requires forall i | 0 <= i < |before| :: before[i].phase != Some(idx)
    ensures AddPhase(before, phase, idx, first).Ok? <==> PhaseFits(phase, |before|, first)
    ensures AddPhase(before, phase, idx, first).Ok? ==>
              var steps := AddPhase(before, phase, idx, first).value;
              && before <= steps && |steps| == |before| + ActionCount(phase)
              && forall i | |before| <= i < |steps| ::
                   && steps[i].action == ActionAt(phase, i - |before|) && steps[i].phase == Some(idx)
                   && (steps[i].team == first <==> i % 2 == 0)
  {
    if PhaseActions(phase).Ok? {
      var n := |PhaseActions(phase).value|;
      assert n == ActionCount(phase);
      CountedPicks(before, phase, idx, first, n, Team0);
      CountedPicks(before, phase, idx, first, n, Team1);
      hide PickCount, PicksIn;
      hide SlotsOf;
      BothTeams(phase, |before|, first);
    }
  }

  // ---------- Where a pick lands ----------

  /** Earlier picks of the team that made entry i, in the same phase. */
  ghost function EarlierPicks(s: VetoState, n: nat, p: nat, t: Team): set<nat>
    requires n <= |s.history| && n <= |s.steps|
  {
    set k: nat | k < n && s.history[k].action == Pick && s.history[k].team == t && s.steps[k].phase == Some(p)
  }

  lemma OneMoreEntry(s: VetoState, n: nat, p: nat, t: Team)
    requires n < |s.history| && n < |s.steps|
    ensures |EarlierPicks(s, n + 1, p, t)| == |EarlierPicks(s, n, p, t)| +
              if s.history[n].action == Pick && s.history[n].team == t && s.steps[n].phase == Some(p) then 1 else 0
  {
    assert EarlierPicks(s, n + 1, p, t) == EarlierPicks(s, n, p, t) +
      if s.history[n].action == Pick && s.history[n].team == t && s.steps[n].phase == Some(p) then {n} else {};
  }

  lemma {:induction false} UsedIsEarlier(s: VetoState, n: nat, p: nat, t: Team)
    requires Inv(s) && n <= |s.history| && forall i | 0 <= i < |s.steps| :: s.steps[i].phase.Some?
    ensures UsedBefore(s, n, p, t) == |EarlierPicks(s, n, p, t)|
  {
    if n == 0 {
      assert EarlierPicks(s, 0, p, t) == {};
    } else {
      assert EntryOk(s, n - 1);
      assert s.history[n - 1].step == n - 1;
      hide Inv, EarlierPicks;
      UsedIsEarlier(s, n - 1, p, t);
      OneMoreEntry(s, n - 1, p, t);
    }
  }

  lemma {:induction false} SlotsSuffice(format: RoomFormat, first: Team, n: nat, p: nat, t: Team)
    requires p < n <= |format| && StepsUpTo(format, first, n).Ok?
    ensures var steps := StepsUpTo(format, first, n).value;
            PickCount(steps, |steps|, p, t) <= |SlotsOf(format[p], t)|
  {
    var before := StepsUpTo(format, first, n - 1).value;
    var steps := StepsUpTo(format, first, n).value;
    if p == n - 1 {
      assert PicksFit(steps, p, format[p]);
    } else {
      SlotsSuffice(format, first, n - 1, p, t);
      LaterPhase(before, steps, |steps|, p, t);
    }
  }

  lemma {:induction false} LaterPhase(before: seq<Step>, steps: seq<Step>, n: nat, p: nat, t: Team)
    requires before <= steps && |before| <= n <= |steps|
    requires forall i | |before| <= i < |steps| :: steps[i].phase != Some(p)
    ensures PickCount(steps, n, p, t) == PickCount(before, |before|, p, t)
    decreases n
  {
    if n > |before| {
      LaterPhase(before, steps, n - 1, p, t);
    } else {
      SameCounts(before, steps, n, p, t);
    }
  }

  lemma {:induction false} SameCounts(before: seq<Step>, steps: seq<Step>, n: nat, p: nat, t: Team)
    requires before <= steps && n <= |before|
    ensures PickCount(steps, n, p, t) == PickCount(before, n, p, t)
  {
    if n > 0 {
      SameCounts(before, steps, n - 1, p, t);
    }
  }

  lemma {:induction false} CountGrows(steps: seq<Step>, i: nat, n: nat, p: nat, t: Team)
    requires i <= n <= |steps|
    ensures PickCount(steps, i, p, t) <= PickCount(steps, n, p, t)
  {
    if i < n {
      CountGrows(steps, i, n - 1, p, t);
    }
  }

  /** What an entry of a room veto has from its step. */
  lemma EntryIsStep(s: VetoState, members: Teams, format: RoomFormat, first: Team, i: nat)
    requires RoomRun(s, members, format, first) && i <= |s.history|
    ensures Inv(s) && |s.history| == s.stepIndex <= |s.steps| && StepsUpTo(format, first, |format|) == Ok(s.steps)
    ensures s.done <==> s.stepIndex == |s.steps|
    ensures forall k | 0 <= k < |s.steps| :: s.steps[k].phase.Some? && s.steps[k].phase.value < |format|
    ensures i < |s.history| ==>
              var h := s.history[i]; h.step == i && h.team == s.steps[i].team && h.action == s.steps[i].action
  {
    hide StepsUpTo, StepPool;
    RoomSteps(s, members, format, first);
    assert i < |s.history| ==> EntryOk(s, i);
  }

  /** A team has a slot for every pick it makes, and for the one it is about to make. */
  lemma SlotForPick(s: VetoState, members: Teams, format: RoomFormat, first: Team, i: nat)
    requires RoomRun(s, members, format, first) && i <= |s.history| && i < |s.steps| && s.steps[i].action == Pick
    ensures s.steps[i].phase.Some? && s.steps[i].phase.value < |format|
    ensures |s.history| <= |s.steps|
    ensures var p, t := s.steps[i].phase.value, s.steps[i].team;
            UsedBefore(s, i, p, t) == |EarlierPicks(s, i, p, t)| < |SlotsOf(format[p], t)|
  {
    hide *;
    EntryIsStep(s, members, format, first, i);
    var p, t := s.steps[i].phase.value, s.steps[i].team;
    UsedIsEarlier(s, i, p, t);
    UsedIsPickCount(s, i, p, t);
    SlotsSuffice(format, first, |format|, p, t);
    CountGrows(s.steps, i + 1, |s.steps|, p, t);
    OneMorePick(s.steps, i, p, t);
  }

  lemma OneMorePick(steps: seq<Step>, i: nat, p: nat, t: Team)
    requires i < |steps| && steps[i] == Step(Pick, t, Some(p))
    ensures PickCount(steps, i + 1, p, t) == PickCount(steps, i, p, t) + 1
  {
  }

  lemma AimedAt(s: VetoState, format: RoomFormat, i: nat)
    requires i < |s.history| && s.history[i].action == Pick && s.history[i].step == i
    requires i < |s.steps| && s.steps[i].phase.Some? && s.steps[i].phase.value < |format|
    ensures var p, t := s.steps[i].phase.value, s.history[i].team;
            UsedBefore(s, i, p, t) < |SlotsOf(format[p], t)| ==>
              Aim(s, format, i) == Some(SlotsOf(format[p], t)[UsedBefore(s, i, p, t)])
  {
    hide UsedBefore;
  }

  /**
   * Every pick is aimed at the slot its team has for it in its phase: the first pick at the first, and so on. There is
   * always one, and unless a later pick is aimed there too it shows the room ever after.
   */
  lemma PickLands(s: VetoState, members: Teams, format: RoomFormat, first: Team, i: nat)
    requires RoomRun(s, members, format, first) && i < |s.history| && s.history[i].action == Pick
    ensures i < |s.steps| && s.steps[i].phase.Some? && s.steps[i].phase.value < |format|
    ensures var p := s.steps[i].phase.value;
            var own, j := SlotsOf(format[p], s.history[i].team), |EarlierPicks(s, i, p, s.history[i].team)|;
            && j < |own| && Aim(s, format, i) == Some(own[j])
            && ((forall k | i < k < |s.history| :: Aim(s, format, k) != Some(own[j])) ==>
                  RoomSlots(s, format)[own[j]] ==
                  RoomSlot(Some(s.history[i].item), Picked, Some(s.history[i].team)))
  {
    hide *;
    EntryIsStep(s, members, format, first, i);
    SlotForPick(s, members, format, first, i);
    AimedAt(s, format, i);
    var p, t := s.steps[i].phase.value, s.history[i].team;
    var x := SlotsOf(format[p], t)[|EarlierPicks(s, i, p, t)|];
    if forall k | i < k < |s.history| :: Aim(s, format, k) != Some(x) {
      AimedShows(s, format, i, x);
    }
  }

  lemma AimedShows(s: VetoState, format: RoomFormat, i: nat, x: SlotIndex)
    requires i < |s.history| && Aim(s, format, i) == Some(x)
    requires forall k | i < k < |s.history| :: Aim(s, format, k) != Some(x)
    ensures RoomSlots(s, format)[x] == RoomSlot(Some(s.history[i].item), Picked, Some(s.history[i].team))
  {
    var aims := Aims(s, format);
    hide Aim;
    assert forall k | i <= k < |s.history| :: aims[k] == Aim(s, format, k);
    LastAimedIs(aims, |s.history|, x, i);
    FillKeepsPicks(s, format, Placed(s.history, aims, |s.history|), |format|, x);
  }

  /** While the veto runs there is a slot to preview exactly for a pick: the next slot its team has in the phase. */
  lemma PreviewIff(s: VetoState, members: Teams, format: RoomFormat, first: Team)
    requires RoomRun(s, members, format, first) && !s.done
    ensures s.stepIndex < |s.steps| && s.steps[s.stepIndex].phase.Some? && s.steps[s.stepIndex].phase.value < |format|
    ensures |s.history| <= |s.steps|
    ensures var step := s.steps[s.stepIndex];
            var own := SlotsOf(format[step.phase.value], step.team);
            var j := |EarlierPicks(s, |s.history|, step.phase.value, step.team)|;
            && (NextPickSlot(s, format).Some? <==> step.action == Pick)
            && (step.action == Pick ==> j < |own| && NextPickSlot(s, format) == Some(own[j]))
  {
    EntryIsStep(s, members, format, first, |s.history|);
    hide RoomRun, Inv, EarlierPicks, UsedBefore;
    if s.steps[s.stepIndex].action == Pick {
      SlotForPick(s, members, format, first, s.stepIndex);
    }
  }

  // ---------- Leftover rooms ----------

  /** The veto is done, or the phase had a step and has none left. */
  ghost predicate Over(s: VetoState, p: nat) {
    s.done || ((exists k | 0 <= k < |s.steps| && k < s.stepIndex :: s.steps[k].phase == Some(p))
               && forall k | s.stepIndex <= k < |s.steps| :: s.steps[k].phase != Some(p))
  }

  lemma OverIs(s: VetoState, p: nat)
    ensures PhaseDone(s, p) <==> Over(s, p)
  {
    var last := LastStepOf(s.steps, p, |s.steps|);
    assert last >= 0 ==> s.steps[last].phase == Some(p);
  }

  lemma {:induction false} LaterPhasesKeep(s: VetoState, format: RoomFormat, slots: Slots, m: nat, n: nat, x: SlotIndex)
    requires m <= n <= |format| && forall p | m <= p < n && PhaseDone(s, p) :: x !in format[p].leftoverSlots
    ensures FillUpTo(s, format, slots, n)[x] == FillUpTo(s, format, slots, m)[x]
  {
    if m < n {
      LaterPhasesKeep(s, format, slots, m, n - 1, x);
      var before, phase := FillUpTo(s, format, slots, n - 1), format[n - 1];
      hide PhaseDone, LeftOf;
      FillFacts(before, phase.leftoverSlots, LeftOf(s, phase), None, 0, x);
    }
  }

  /** No pick was ever aimed at slot x. */
  ghost predicate Unaimed(s: VetoState, format: RoomFormat, x: SlotIndex) {
    forall i | 0 <= i < |s.history| :: Aim(s, format, i) != Some(x)
  }

  lemma UnaimedIsEmpty(s: VetoState, format: RoomFormat, x: SlotIndex)
    requires Unaimed(s, format, x)
    ensures Placed(s.history, Aims(s, format), |s.history|)[x] == EMPTY_SLOTS[x]
  {
    hide Aim;
    var aims := Aims(s, format);
    assert forall i | 0 <= i < |s.history| :: aims[i] == Aim(s, format, i);
  }

  /** A slot no pick is aimed at stays as it was while every phase whose leftovers may go there has steps left. */
  lemma LeftoversWait(s: VetoState, format: RoomFormat, x: SlotIndex)
    requires Unaimed(s, format, x)
    requires forall p | 0 <= p < |format| && x in format[p].leftoverSlots :: !Over(s, p)
    ensures RoomSlots(s, format)[x] == EMPTY_SLOTS[x]
  {
    hide Unaimed, Over, PhaseDone, Placed, Aim;
    UnaimedIsEmpty(s, format, x);
    forall p | 0 <= p < |format| && PhaseDone(s, p) ensures x !in format[p].leftoverSlots {
      OverIs(s, p);
    }
    LaterPhasesKeep(s, format, Placed(s.history, Aims(s, format), |s.history|), 0, |format|, x);
  }

  /** Only phase p puts leftovers into slot x, and x is its slot number j. */
  ghost predicate LeftoverPlace(format: RoomFormat, p: nat, j: nat, x: SlotIndex) {
    && p < |format| && j < |format[p].leftoverSlots| && format[p].leftoverSlots[j] == x
    && (forall k | 0 <= k < |format[p].leftoverSlots| && k != j :: format[p].leftoverSlots[k] != x)
    && (forall q | 0 <= q < |format| && q != p :: x !in format[q].leftoverSlots)
  }

  /** Once the phase is over it shows the room number j that is left of the phase. */
  lemma LeftoverShows(s: VetoState, format: RoomFormat, p: nat, j: nat, x: SlotIndex)
    requires Unaimed(s, format, x) && EMPTY_SLOTS[x] == OPEN_SLOT
    requires LeftoverPlace(format, p, j, x) && Over(s, p) && j < |LeftOf(s, format[p])|
    ensures RoomSlots(s, format)[x] == RoomSlot(Some(LeftOf(s, format[p])[j]), Leftover, None)
  {
    hide Unaimed, Over, PhaseDone, Placed, Aim, LeftOf;
    UnaimedIsEmpty(s, format, x);
    OverIs(s, p);
    var placed := Placed(s.history, Aims(s, format), |s.history|);
    var order, rooms := format[p].leftoverSlots, LeftOf(s, format[p]);
    LaterPhasesKeep(s, format, placed, 0, p, x);
    assert FillUpTo(s, format, placed, 0) == placed;
    var before := FillUpTo(s, format, placed, p);
    assert order[j] == x;
    FillFacts(before, order, rooms, None, 0, x);
    assert FillUpTo(s, format, placed, p + 1) == FillFrom(before, order, rooms, None, 0);
    LaterPhasesKeep(s, format, placed, p + 1, |format|, x);
  }

  // ---------- The rooms for the match ----------

  /** The slots are a path the server accepts exactly when they are good. */
  lemma GoodIffPath(slots: Slots)
    ensures GoodSlots(slots) <==> PathOf(slots).Some? && ValidPath(PathOf(slots).value)
  {
    if GoodSlots(slots) {
      GoodSlotsPath(slots);
    } else if PathOf(slots).Some? && ValidPath(PathOf(slots).value) {
      PathIsGood(slots);
    }
  }

  lemma PathIsGood(slots: Slots)
    requires PathOf(slots).Some? && ValidPath(PathOf(slots).value)
    ensures GoodSlots(slots)
  {
    var ids := PathOf(slots).value;
    PoolMembers();
    forall x: SlotIndex ensures slots[x].room.Some? && ids[x] == RoomNumber(slots[x].room.value) {
    }
    forall x: SlotIndex, y: SlotIndex | x < y ensures slots[x].room != slots[y].room {
      assert ids[x] != ids[y];
    }
    forall x: SlotIndex | x == 1 || x == 2 || x == 4 || x == 5 ensures slots[x].room.value in MID_POOL {
      assert KeyOf(ids[x]) in MID_POOL;
    }
  }

  /** A room veto gives rooms for the match exactly when it is done and its slots are good: their rooms in order. */
  lemma RoomsForMatch(s: VetoState, format: RoomFormat)
    ensures RushRoomsFromVeto(s, format).Ok? <==> s.done && GoodSlots(RoomSlots(s, format))
    ensures RushRoomsFromVeto(s, format).Ok? ==>
              && |RushRoomsFromVeto(s, format).value| == 7
              && forall x: SlotIndex ::
                   RoomSlots(s, format)[x].room == Some(KeyOf(RushRoomsFromVeto(s, format).value[x]))
  {
    hide GoodSlots, ValidPath, RoomSlots;
    GoodIffPath(RoomSlots(s, format));
    if GoodSlots(RoomSlots(s, format)) {
      GoodSlotsPath(RoomSlots(s, format));
    }
  }

  // ---------- The format the site runs ----------

  lemma DefaultState(s: VetoState, members: Teams, first: Team)
    requires RoomRun(s, members, RUSH_ROOM_VETO, first) && s.done
    ensures |s.history| == |s.steps| == 11
    ensures forall i | 0 <= i < 11 :: s.steps[i] == DefaultStep(i, first) && s.history[i].team == s.steps[i].team
                                      && s.history[i].action == s.steps[i].action
  {
    DefaultSteps(first);
    forall i | 0 <= i < 11 ensures s.history[i].team == s.steps[i].team && s.history[i].action == s.steps[i].action {
      assert EntryOk(s, i);
    }
  }

  lemma DefaultAimed(s: VetoState, members: Teams, first: Team, k: nat)
    requires RoomRun(s, members, RUSH_ROOM_VETO, first) && s.done && k < 11
    ensures |s.history| == 11 && Aim(s, RUSH_ROOM_VETO, k) == DefaultAim(k, first)
  {
    DefaultState(s, members, first);
    DefaultAims(first, s.steps, k);
    AimIsStepAim(s, RUSH_ROOM_VETO, k);
  }

  /** The slot of pick step i of the default veto, which no other step has. */
  lemma DefaultAimIs(first: Team, i: nat) returns (x: SlotIndex)
    requires i == 2 || i == 3 || i == 6 || i == 7
    ensures x == if (first == Team0 <==> i % 2 == 0) then (if i < 4 then 1 else 2) else (if i < 4 then 5 else 4)
    ensures DefaultAim(i, first) == Some(x) && forall k | i < k < 11 :: DefaultAim(k, first) != Some(x)
  {
    x := if (first == Team0 <==> i % 2 == 0) then (if i < 4 then 1 else 2) else (if i < 4 then 5 else 4);
  }

  lemma DefaultPickLands(s: VetoState, members: Teams, first: Team, i: nat)
    requires RoomRun(s, members, RUSH_ROOM_VETO, first) && s.done && (i == 2 || i == 3 || i == 6 || i == 7)
    ensures |s.history| == 11
    ensures var x: SlotIndex :=
              if s.history[i].team == Team0 then (if i < 4 then 1 else 2) else (if i < 4 then 5 else 4);
            RoomSlots(s, RUSH_ROOM_VETO)[x] == RoomSlot(Some(s.history[i].item), Picked, Some(s.history[i].team))
  {
    DefaultState(s, members, first);
    var x := DefaultAimIs(first, i);
    assert s.history[i].team == Team0 <==> (first == Team0 <==> i % 2 == 0);
    hide RoomRun, Aim, RoomSlots, DefaultAim;
    forall k | i <= k < 11 ensures Aim(s, RUSH_ROOM_VETO, k) == DefaultAim(k, first) {
      DefaultAimed(s, members, first, k);
    }
    AimedShows(s, RUSH_ROOM_VETO, i, x);
  }

  /**
   * A finished room veto of the site. Steps 3, 4, 7 and 8 pick, all others ban. Team 0's rooms are in slots 1 and 2,
   * team 1's in slots 5 and 4, each with its first pick beside the castle, and slot 3 has the start room nobody banned.
   */
  lemma DefaultLands(s: VetoState, members: Teams, first: Team)
    requires RoomRun(s, members, RUSH_ROOM_VETO, first) && s.done
    ensures |s.history| == 11
    ensures forall i | 0 <= i < 11 ::
              && s.history[i].action == (if i == 2 || i == 3 || i == 6 || i == 7 then Pick else Ban)
              && (s.history[i].team == first <==> i % 2 == 0)
    ensures var slots, a := RoomSlots(s, RUSH_ROOM_VETO), if first == Team0 then 2 else 3;
            && slots[1] == RoomSlot(Some(s.history[a].item), Picked, Some(Team0))
            && slots[2] == RoomSlot(Some(s.history[a + 4].item), Picked, Some(Team0))
            && slots[5] == RoomSlot(Some(s.history[5 - a].item), Picked, Some(Team1))
            && slots[4] == RoomSlot(Some(s.history[9 - a].item), Picked, Some(Team1))
    ensures var slot := RoomSlots(s, RUSH_ROOM_VETO)[3];
            && slot.room.Some? && slot.room.value in START_POOL && slot.source == Leftover
            && forall i | 0 <= i < 11 :: s.history[i].item != slot.room.value
  {
    DefaultState(s, members, first);
    DefaultPickLands(s, members, first, 2);
    DefaultPickLands(s, members, first, 3);
    DefaultPickLands(s, members, first, 6);
    DefaultPickLands(s, members, first, 7);
    DefaultStartRoom(s, members, first);
  }

  lemma DefaultStartRoom(s: VetoState, members: Teams, first: Team)
    requires RoomRun(s, members, RUSH_ROOM_VETO, first) && s.done
    ensures var slot := RoomSlots(s, RUSH_ROOM_VETO)[3];
            && slot.room.Some? && slot.room.value in START_POOL && slot.source == Leftover
            && forall i | 0 <= i < |s.history| :: s.history[i].item != slot.room.value
  {
    DefaultState(s, members, first);
    forall k | 0 <= k < 11 ensures Aim(s, RUSH_ROOM_VETO, k) != Some(3) {
      DefaultAimed(s, members, first, k);
    }
    var left := LeftOf(s, START_PHASE);
    LeftExact(s, members, RUSH_ROOM_VETO, first, 1);
    StepCounts(RUSH_ROOM_VETO, first, 2, 1);
    assert |PhaseActions(START_PHASE).value| == 3 && |left| == 1 && left[0] in left;
    hide RoomRun, Aim, Inv, LeftOf, StepsUpTo;
    var placed := Placed(s.history, Aims(s, RUSH_ROOM_VETO), |s.history|);
    assert placed[3] == OPEN_SLOT;
    var one := FillUpTo(s, RUSH_ROOM_VETO, placed, 1);
    assert FillUpTo(s, RUSH_ROOM_VETO, placed, 0) == placed && one == placed;
    FillFacts(one, [3], left, None, 0, 3);
    assert START_PHASE.leftoverSlots == [3] && [3][0] == 3;
    assert RoomSlots(s, RUSH_ROOM_VETO)[3] == LeftoverSlot(left[0], None, 3);
  }
}
