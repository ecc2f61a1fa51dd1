/** Ban and pick of the rooms of one Rush map (packages/shared/src/veto/rooms.ts). */
module RoomVeto {
  import opened Common
  import opened VetoEngine
  import opened RushRooms

  datatype RoomPhase = RoomPhase(
    pool: seq<Key>,
    sequence: seq<Action>,
    banToOne: bool,
    pickSlots0: seq<SlotIndex>,
    pickSlots1: seq<SlotIndex>,
    leftoverSlots: seq<SlotIndex>)
  {
    function PickSlots(t: Team): seq<SlotIndex> {
      if t == Team0 then pickSlots0 else pickSlots1
    }
  }

  type RoomFormat = seq<RoomPhase>

  // ---------- Steps from the format ----------

  function PhaseActions(phase: RoomPhase): Result<seq<Action>> {
    if |phase.sequence| >= |phase.pool| then Err("phase has more steps than rooms")
    else if phase.banToOne then
      Ok(phase.sequence + seq(|phase.pool| - 1 - |phase.sequence|, i => Ban))
    else Ok(phase.sequence)
  }

  /** Steps for actions of one phase, the first of them at position start of the whole veto. */
  function StepsFor(actions: seq<Action>, idx: nat, start: nat, first: Team): (r: seq<Step>)
    ensures |r| == |actions|
    ensures forall i | 0 <= i < |r| ::
              r[i] == Step(actions[i], if (start + i) % 2 == 0 then first else Other(first), Some(idx))
  {
    seq(|actions|, i requires 0 <= i < |actions| =>
      Step(actions[i], if (start + i) % 2 == 0 then first else Other(first), Some(idx)))
  }

  /** Picks of team t in phase p among the first n steps. */
  function PickCount(steps: seq<Step>, n: nat, p: nat, t: Team): nat
    requires n <= |steps|
  {
    if n == 0 then 0
    else PickCount(steps, n - 1, p, t) +
         if steps[n - 1].phase == Some(p) && steps[n - 1].action == Pick && steps[n - 1].team == t then 1 else 0
  }

  predicate PicksFit(steps: seq<Step>, p: nat, phase: RoomPhase) {
    && PickCount(steps, |steps|, p, Team0) <= |phase.pickSlots0|
    && PickCount(steps, |steps|, p, Team1) <= |phase.pickSlots1|
  }

  /** The steps of phase idx after those of the phases before it. */
  function AddPhase(before: seq<Step>, phase: RoomPhase, idx: nat, first: Team): Result<seq<Step>> {
    match PhaseActions(phase)
    case Err(e) => Err(e)
    case Ok(actions) =>
      var steps := before + StepsFor(actions, idx, |before|, first);
      if PicksFit(steps, idx, phase) then Ok(steps) else Err("more picks than slots")
  }

  /** Steps of the first n phases. */
  function StepsUpTo(format: RoomFormat, first: Team, n: nat): Result<seq<Step>>
    requires n <= |format|
  {
    if n == 0 then Ok([])
    else
      var before := StepsUpTo(format, first, n - 1);
      if before.Err? then before else AddPhase(before.value, format[n - 1], n - 1, first)
  }

  method AppendPhase(before: seq<Step>, phase: RoomPhase, idx: nat, first: Team) returns (r: Result<seq<Step>>)
    ensures r == AddPhase(before, phase, idx, first)
  {
    var actions := PhaseActions(phase);
    if actions.Err? {
      return Err(actions.why);
    }
    var steps := before;
    ghost var added := StepsFor(actions.value, idx, |before|, first);
    var i := 0;
    while i < |actions.value|
      invariant 0 <= i <= |actions.value|
      invariant steps == before + added[..i]
    {
      steps := steps + [Step(actions.value[i], if |steps| % 2 == 0 then first else Other(first), Some(idx))];
      i := i + 1;
    }
    assert steps == before + added;
    r := if PicksFit(steps, idx, phase) then Ok(steps) else Err("more picks than slots");
  }

  method RoomVetoSteps(format: RoomFormat, first: Team) returns (r: Result<seq<Step>>)
    ensures r == StepsUpTo(format, first, |format|)
  {
    r := Ok([]);
    var idx := 0;
    while idx < |format|
      invariant 0 <= idx <= |format|
      invariant r == StepsUpTo(format, first, idx) && r.Ok?
    {
      r := AppendPhase(r.value, format[idx], idx, first);
      idx := idx + 1;
      if r.Err? {
        StepsFail(format, first, idx);
        return;
      }
    }
  }

  /** An error in one phase is the error of the whole format. */
  lemma {:induction false} StepsFail(format: RoomFormat, first: Team, n: nat)
    requires n <= |format| && StepsUpTo(format, first, n).Err?
    ensures StepsUpTo(format, first, |format|) == StepsUpTo(format, first, n)
    decreases |format| - n
  {
    if n < |format| {
      StepsFail(format, first, n + 1);
    }
  }

  function PoolUpTo(format: RoomFormat, n: nat): seq<Key>
    requires n <= |format|
  {
    if n == 0 then [] else PoolUpTo(format, n - 1) + format[n - 1].pool
  }

  function PhasesOf(format: RoomFormat): seq<Phase> {
    seq(|format|, p requires 0 <= p < |format| => Phase(format[p].pool, 0, Plain))
  }

  function CreateRoomVeto(members: Teams, format: RoomFormat, first: Team): Result<VetoState> {
    match StepsUpTo(format, first, |format|)
    case Err(e) => Err(e)
    case Ok(steps) =>
      match CreateVeto(PoolUpTo(format, |format|), members, steps)
      case Err(e) => Err(e)
      case Ok(s) => Ok(s.(phases := PhasesOf(format)))
  }

  // ---------- Slots ----------

  function LastStepOf(steps: seq<Step>, p: nat, n: nat): (r: int)
    requires n <= |steps|
    ensures -1 <= r < n
    ensures r >= 0 ==> steps[r].phase == Some(p)
    ensures forall i | r < i < n :: steps[i].phase != Some(p)
  {
    if n == 0 then -1 else if steps[n - 1].phase == Some(p) then n - 1 else LastStepOf(steps, p, n - 1)
  }

  predicate PhaseDone(s: VetoState, p: nat) {
    s.done || (LastStepOf(s.steps, p, |s.steps|) >= 0 && s.stepIndex > LastStepOf(s.steps, p, |s.steps|))
  }

  function PhaseIndex(steps: seq<Step>, k: nat): nat {
    if k < |steps| && steps[k].phase.Some? then steps[k].phase.value else 0
  }

  /** Picks of team t in phase p among the first n history entries. */
  function UsedBefore(s: VetoState, n: nat, p: nat, t: Team): nat
    requires n <= |s.history|
  {
    if n == 0 then 0
    else
      var h := s.history[n - 1];
      UsedBefore(s, n - 1, p, t) + if h.action == Pick && PhaseIndex(s.steps, h.step) == p && h.team == t then 1 else 0
  }

  /** The slot history entry i lands in. */
  function Aim(s: VetoState, format: RoomFormat, i: nat): Option<SlotIndex>
    requires i < |s.history|
  {
    var h := s.history[i];
    var p := PhaseIndex(s.steps, h.step);
    if h.action != Pick || p >= |format| then None
    else
      var own := format[p].PickSlots(h.team);
      var used := UsedBefore(s, i, p, h.team);
      if used < |own| then Some(own[used]) else None
  }

  function Aims(s: VetoState, format: RoomFormat): seq<Option<SlotIndex>> {
    seq(|s.history|, i requires 0 <= i < |s.history| => Aim(s, format, i))
  }

  function LeftOf(s: VetoState, phase: RoomPhase): seq<Key> {
    Within(s.available, Elems(phase.pool))
  }

  function FillUpTo(s: VetoState, format: RoomFormat, slots: Slots, n: nat): Slots
    requires n <= |format|
  {
    if n == 0 then slots
    else
      var before := FillUpTo(s, format, slots, n - 1);
      var phase := format[n - 1];
      if |phase.leftoverSlots| == 0 || !PhaseDone(s, n - 1) then before
      else FillFrom(before, phase.leftoverSlots, LeftOf(s, phase), None, 0)
  }

  function RoomSlots(s: VetoState, format: RoomFormat): Slots {
    FillUpTo(s, format, Placed(s.history, Aims(s, format), |s.history|), |format|)
  }

  method ComputeRoomSlots(s: VetoState, format: RoomFormat) returns (slots: Slots)
    ensures slots == RoomSlots(s, format)
  {
    slots := EMPTY_SLOTS;
    var used: map<(nat, Team), nat> := map[];
    var i := 0;
    while i < |s.history|
      invariant 0 <= i <= |s.history|
      invariant forall p: nat, t: Team :: (if (p, t) in used then used[(p, t)] else 0) == UsedBefore(s, i, p, t)
      invariant slots == Placed(s.history, Aims(s, format), i)
    {
      var h := s.history[i];
      PlacedStep(s.history, Aims(s, format), i);
      if h.action == Pick {
        var p := PhaseIndex(s.steps, h.step);
        var n := if (p, h.team) in used then used[(p, h.team)] else 0;
        used := used[(p, h.team) := n + 1];
        if p < |format| && n < |format[p].PickSlots(h.team)| {
          slots := slots[format[p].PickSlots(h.team)[n] := RoomSlot(Some(h.item), Picked, Some(h.team))];
        }
      }
      i := i + 1;
    }
    ghost var placed := slots;
    var idx := 0;
    while idx < |format|
      invariant 0 <= idx <= |format|
      invariant slots == FillUpTo(s, format, placed, idx)
    {
      var phase := format[idx];
      if |phase.leftoverSlots| != 0 && PhaseDone(s, idx) {
        slots := FillLeftovers(slots, phase.leftoverSlots, LeftOf(s, phase), None);
      }
      idx := idx + 1;
    }
  }

  /** The slot the current pick will land in. */
  function NextPickSlot(s: VetoState, format: RoomFormat): Option<SlotIndex> {
    match CurrentStep(s)
    case None => None
    case Some(step) =>
      var p := PhaseIndex(s.steps, s.stepIndex);
      if step.action != Pick || p >= |format| then None
      else
        var own := format[p].PickSlots(step.team);
        var used := UsedBefore(s, |s.history|, p, step.team);
        if used < |own| then Some(own[used]) else None
  }

  function RushRoomsFromVeto(s: VetoState, format: RoomFormat): Result<seq<int>> {
    var path := PathOf(RoomSlots(s, format));
    if !s.done || path.None? then Err("room veto is not finished")
    else if !ValidPath(path.value) then Err("path breaks the server's pool rule")
    else Ok(path.value)
  }

  // ---------- The previewed slot is where the pick lands ----------

  lemma UsedStable(s: VetoState, t: VetoState, n: nat, p: nat, team: Team)
    requires t.steps == s.steps && n <= |s.history| && s.history <= t.history
    ensures UsedBefore(t, n, p, team) == UsedBefore(s, n, p, team)
  {
  }

  lemma {:induction false} FillKeepsPicks(s: VetoState, format: RoomFormat, slots: Slots, n: nat, x: SlotIndex)
    requires n <= |format| && slots[x].source != Open
    ensures FillUpTo(s, format, slots, n)[x] == slots[x]
  {
    if n > 0 {
      FillKeepsPicks(s, format, slots, n - 1, x);
      FillFacts(FillUpTo(s, format, slots, n - 1), format[n - 1].leftoverSlots, LeftOf(s, format[n - 1]), None, 0, x);
    }
  }

  lemma PreviewIsWhereItLands(s: VetoState, format: RoomFormat, draw: Draw)
    requires Inv(s) && NextPickSlot(s, format).Some? && ResolveStep(s, draw).Ok?
    ensures var t := ResolveStep(s, draw).value;
            var x := NextPickSlot(s, format).value;
            RoomSlots(t, format)[x]
              == RoomSlot(Some(t.history[s.stepIndex].item), Picked, Some(s.steps[s.stepIndex].team))
  {
    var t := ResolveStep(s, draw).value;
    var k := s.stepIndex;
    UsedStable(s, t, k, PhaseIndex(s.steps, k), s.steps[k].team);
    var x := NextPickSlot(s, format).value;
    assert Aims(t, format)[k] == Some(x);
    PlacedStep(t.history, Aims(t, format), k);
    FillKeepsPicks(t, format, Placed(t.history, Aims(t, format), k + 1), |format|, x);
  }

  // ---------- The format's steps and pools ----------

  function CountPhase(steps: seq<Step>, n: nat, p: nat): nat
    requires n <= |steps|
  {
    if n == 0 then 0 else CountPhase(steps, n - 1, p) + if steps[n - 1].phase == Some(p) then 1 else 0
  }

  lemma {:induction false} CountPhaseConcat(a: seq<Step>, b: seq<Step>, j: nat, p: nat)
    requires j <= |b|
    ensures CountPhase(a + b, |a| + j, p) == CountPhase(a, |a|, p) + CountPhase(b, j, p)
  {
    if j == 0 {
      CountPhasePrefix(a, b, |a|, p);
    } else {
      CountPhaseConcat(a, b, j - 1, p);
    }
  }

  lemma CountPhasePrefix(a: seq<Step>, b: seq<Step>, n: nat, p: nat)
    requires n <= |a|
    ensures CountPhase(a + b, n, p) == CountPhase(a, n, p)
  {
  }

  lemma CountPhaseMono(steps: seq<Step>, m: nat, n: nat, p: nat)
    requires m <= n <= |steps|
    ensures CountPhase(steps, m, p) <= CountPhase(steps, n, p)
  {
  }

  lemma CountPhaseAll(steps: seq<Step>, n: nat, p: nat, q: nat)
    requires n <= |steps| && forall i | 0 <= i < |steps| :: steps[i].phase == Some(q)
    ensures CountPhase(steps, n, p) == if p == q then n else 0
  {
  }

  lemma CountPhaseNone(steps: seq<Step>, n: nat, p: nat)
    requires n <= |steps| && forall i | 0 <= i < |steps| :: steps[i].phase != Some(p)
    ensures CountPhase(steps, n, p) == 0
  {
  }

  /** Every step belongs to a phase. */
  lemma {:induction false} StepPhases(format: RoomFormat, first: Team, n: nat)
    requires n <= |format| && StepsUpTo(format, first, n).Ok?
    ensures forall st | st in StepsUpTo(format, first, n).value :: st.phase.Some? && st.phase.value < n
  {
    if n > 0 {
      StepPhases(format, first, n - 1);
    }
  }

  lemma AddPhaseCount(before: seq<Step>, phase: RoomPhase, idx: nat, first: Team, p: nat)
    requires AddPhase(before, phase, idx, first).Ok?
    ensures var steps := AddPhase(before, phase, idx, first).value;
            CountPhase(steps, |steps|, p) ==
              CountPhase(before, |before|, p) + if p == idx then |PhaseActions(phase).value| else 0
  {
    var added := StepsFor(PhaseActions(phase).value, idx, |before|, first);
    CountPhaseConcat(before, added, |added|, p);
    CountPhaseAll(added, |added|, p, idx);
  }

  /** Each phase contributes one step per action. */
  lemma {:induction false} StepCounts(format: RoomFormat, first: Team, n: nat, p: nat)
    requires p < n <= |format| && StepsUpTo(format, first, n).Ok?
    ensures PhaseActions(format[p]).Ok?
    ensures var steps := StepsUpTo(format, first, n).value;
            CountPhase(steps, |steps|, p) == |PhaseActions(format[p]).value|
  {
    var before := StepsUpTo(format, first, n - 1).value;
    AddPhaseCount(before, format[n - 1], n - 1, first, p);
    if p == n - 1 {
      StepPhases(format, first, n - 1);
      CountPhaseNone(before, |before|, p);
    } else {
      StepCounts(format, first, n - 1, p);
    }
  }

  lemma {:induction false} PoolFacts(format: RoomFormat, n: nat)
    requires n <= |format| && Distinct(PoolUpTo(format, n))
    ensures forall p | 0 <= p < n :: Distinct(format[p].pool) && Elems(format[p].pool) <= Elems(PoolUpTo(format, n))
    ensures forall p, q | 0 <= p < q < n :: Elems(format[p].pool) !! Elems(format[q].pool)
  {
    if n > 0 {
      var before, last := PoolUpTo(format, n - 1), format[n - 1].pool;
      assert Distinct(before) by {
        assert forall i | 0 <= i < |before| :: (before + last)[i] == before[i];
      }
      PoolFacts(format, n - 1);
      assert forall i | 0 <= i < |last| :: (before + last)[|before| + i] == last[i];
      forall i, j | 0 <= i < |before| && 0 <= j < |last| ensures before[i] != last[j] {
        assert (before + last)[i] != (before + last)[|before| + j];
      }
    }
  }

  /** A state of the veto made for this format: steps, phases and pool are those of the format. */
  ghost predicate RoomRun(s: VetoState, members: Teams, format: RoomFormat, first: Team) {
    && Inv(s) && s.members == members
    && StepsUpTo(format, first, |format|) == Ok(s.steps)
    && s.phases == PhasesOf(format)
    && s.pool == PoolUpTo(format, |format|)
  }

  /** Every run from the created state is such a state. */
  lemma RoomRuns(members: Teams, format: RoomFormat, first: Team, events: seq<Event>)
    requires CreateRoomVeto(members, format, first).Ok?
    ensures RoomRun(Run(CreateRoomVeto(members, format, first).value, events), members, format, first)
  {
    hide Inv; hide HasRepeats;
    var steps := StepsUpTo(format, first, |format|).value;
    InitInv(PoolUpTo(format, |format|), members, steps, PhasesOf(format));
    RunInv(CreateRoomVeto(members, format, first).value, events);
  }

  /** The steps are the format's, and each offers its phase's pool. */
  lemma RoomSteps(s: VetoState, members: Teams, format: RoomFormat, first: Team)
    requires RoomRun(s, members, format, first)
    ensures s.steps == StepsUpTo(format, first, |format|).value
    ensures forall i | 0 <= i < |s.steps| :: s.steps[i].phase.Some? && s.steps[i].phase.value < |format|
    ensures forall i | 0 <= i < |s.steps| :: StepPool(s, i) == Elems(format[s.steps[i].phase.value].pool)
  {
    StepPhases(format, first, |format|);
    assert s.phases == PhasesOf(format);
  }

  /** Phase p has its own rooms, and more of them than steps. */
  lemma RoomPool(s: VetoState, members: Teams, format: RoomFormat, first: Team, p: nat)
    requires RoomRun(s, members, format, first) && p < |format|
    ensures |Elems(format[p].pool)| == |format[p].pool|
            && Elems(format[p].pool) * Elems(s.pool) == Elems(format[p].pool)
    ensures CountPhase(s.steps, |s.steps|, p) < |format[p].pool|
    ensures forall q | 0 <= q < |format| && q != p :: Elems(format[p].pool) !! Elems(format[q].pool)
  {
    StepCounts(format, first, |format|, p);
    PoolFacts(format, |format|);
    DistinctCard(format[p].pool);
    forall q | 0 <= q < |format| && q != p ensures Elems(format[p].pool) !! Elems(format[q].pool) {
      var lo, hi := if p < q then p else q, if p < q then q else p;
      assert Elems(format[lo].pool) !! Elems(format[hi].pool);
    }
  }

  /** Only a phase's own steps take from its pool. */
  lemma {:induction false} MeetsIsPhaseCount(s: VetoState, members: Teams, format: RoomFormat, first: Team, p: nat,
      j: nat)
    requires RoomRun(s, members, format, first) && p < |format| && j <= |s.steps|
    ensures Meets(s, Elems(format[p].pool), j) <= CountPhase(s.steps, j, p)
  {
    hide RoomRun; hide StepPool;
    if j > 0 {
      MeetsIsPhaseCount(s, members, format, first, p, j - 1);
      RoomSteps(s, members, format, first);
      RoomPool(s, members, format, first, p);
    }
  }

  lemma RoomStepCovered(s: VetoState, members: Teams, format: RoomFormat, first: Team, k: nat)
    requires RoomRun(s, members, format, first) && k < |s.steps|
    ensures Meets(s, StepPool(s, k), k) < |StepPool(s, k) * Elems(s.pool)|
  {
    RoomSteps(s, members, format, first);
    hide RoomRun; hide StepPool;
    var p := s.steps[k].phase.value;
    RoomPool(s, members, format, first, p);
    MeetsIsPhaseCount(s, members, format, first, p, k);
    CountPhaseMono(s.steps, k + 1, |s.steps|, p);
  }

  /** No step of a room veto ever runs out of rooms, in any phase. */
  lemma RoomVetoCoverable(s: VetoState, members: Teams, format: RoomFormat, first: Team)
    requires RoomRun(s, members, format, first)
    ensures Coverable(s)
  {
    forall k | 0 <= k < |s.steps| ensures Meets(s, StepPool(s, k), k) < |StepPool(s, k) * Elems(s.pool)| {
      RoomStepCovered(s, members, format, first, k);
    }
  }

  // ---------- Formats that always end in a valid path ----------

  ghost predicate Fits(x: SlotIndex, pool: seq<Key>) {
    forall k | k in pool :: k in (if x == START_SLOT then START_POOL else MID_POOL)
  }

  predicate BetweenCastles(x: SlotIndex) {
    1 <= x <= 5
  }

  /** The slot a pick step lands in, from the steps alone. */
  function StepAim(format: RoomFormat, steps: seq<Step>, i: nat): Option<SlotIndex>
    requires i < |steps|
  {
    var p := PhaseIndex(steps, i);
    if steps[i].action != Pick || p >= |format| then None
    else
      var own := format[p].PickSlots(steps[i].team);
      var used := PickCount(steps, i, p, steps[i].team);
      if used < |own| then Some(own[used]) else None
  }

  /** Slot x is entry j of phase p's leftover slots and a room is left for it. */
  ghost predicate LeftoverCovers(format: RoomFormat, steps: seq<Step>, p: nat, j: nat, x: SlotIndex)
    requires p < |format|
  {
    && j < |format[p].leftoverSlots| && format[p].leftoverSlots[j] == x
    && j + CountPhase(steps, |steps|, p) < |format[p].pool|
  }

  /** Picks and leftovers together reach slots 1 to 5, each with rooms of the right pool. */
  ghost predicate Covers(format: RoomFormat, steps: seq<Step>) {
    && (forall i | 0 <= i < |steps| && StepAim(format, steps, i).Some? ::
          var x := StepAim(format, steps, i).value;
          BetweenCastles(x) && Fits(x, format[PhaseIndex(steps, i)].pool))
    && (forall p, j, x: SlotIndex |
          0 <= p < |format| && 0 <= j && LeftoverCovers(format, steps, p, j, x) && BetweenCastles(x) ::
          Fits(x, format[p].pool))
    && (forall x: SlotIndex | BetweenCastles(x) ::
          || (exists i | 0 <= i < |steps| :: StepAim(format, steps, i) == Some(x))
          || (exists p, j | 0 <= p < |format| && 0 <= j :: LeftoverCovers(format, steps, p, j, x)))
  }

  /** Picks in the history are counted as the steps count them. */
  lemma {:induction false} UsedIsPickCount(s: VetoState, n: nat, p: nat, t: Team)
    requires Inv(s) && n <= |s.history|
    requires forall i | 0 <= i < |s.steps| :: s.steps[i].phase.Some?
    ensures UsedBefore(s, n, p, t) == PickCount(s.steps, n, p, t)
  {
    if n > 0 {
      UsedIsPickCount(s, n - 1, p, t);
      assert EntryOk(s, n - 1);
    }
  }

  /** Where the room in a slot between the castles came from, once the veto is done. */
  ghost predicate CameFrom(s: VetoState, format: RoomFormat, x: SlotIndex, slot: RoomSlot) {
    slot.room.Some? &&
    ((exists i | 0 <= i < |s.history| :: Aim(s, format, i) == Some(x) && slot.room.value == s.history[i].item)
     || FromLeftover(s, format, x, |format|, slot))
  }

  /** The slot holds leftover j of phase p, which belongs there. */
  ghost predicate LeftoverAt(s: VetoState, format: RoomFormat, x: SlotIndex, slot: RoomSlot, p: nat, j: nat) {
    && p < |format| && j < |format[p].leftoverSlots| && j < |LeftOf(s, format[p])|
    && format[p].leftoverSlots[j] == x && slot == LeftoverSlot(LeftOf(s, format[p])[j], None, x)
  }

  ghost predicate FromLeftover(s: VetoState, format: RoomFormat, x: SlotIndex, n: nat, slot: RoomSlot) {
    exists p, j | 0 <= p < n && 0 <= j :: LeftoverAt(s, format, x, slot, p, j)
  }

  /** A leftover of one of the first n phases belongs in slot x. */
  ghost predicate HasLeftover(s: VetoState, format: RoomFormat, x: SlotIndex, n: nat) {
    exists p, j | 0 <= p < n && 0 <= j && p < |format| && j < |LeftOf(s, format[p])| ::
      LeftoverAt(s, format, x, LeftoverSlot(LeftOf(s, format[p])[j], None, x), p, j)
  }

  /** After filling the first n phases a slot is as it was, or holds a leftover of one of them. */
  lemma {:induction false} FillOrigins(s: VetoState, format: RoomFormat, slots: Slots, n: nat, x: SlotIndex)
    requires n <= |format| && s.done
    ensures var r := FillUpTo(s, format, slots, n)[x]; r == slots[x] || FromLeftover(s, format, x, n, r)
    ensures HasLeftover(s, format, x, n) ==> FillUpTo(s, format, slots, n)[x].source != Open
  {
    if n > 0 {
      FillOrigins(s, format, slots, n - 1, x);
      var before := FillUpTo(s, format, slots, n - 1);
      var after := FillUpTo(s, format, slots, n);
      var phase, left := format[n - 1], LeftOf(s, format[n - 1]);
      FillFacts(before, phase.leftoverSlots, left, None, 0, x);
      if after[x] != before[x] {
        var j :| 0 <= j < |phase.leftoverSlots| && j < |left| && phase.leftoverSlots[j] == x
          && after[x] == LeftoverSlot(left[j], None, x);
        assert LeftoverAt(s, format, x, after[x], n - 1, j);
      } else if FromLeftover(s, format, x, n - 1, before[x]) {
        var p, j :| 0 <= p < n - 1 && 0 <= j && LeftoverAt(s, format, x, before[x], p, j);
        assert LeftoverAt(s, format, x, after[x], p, j);
      }
      if HasLeftover(s, format, x, n) && !HasLeftover(s, format, x, n - 1) {
        var j :| 0 <= j < |left| && LeftoverAt(s, format, x, LeftoverSlot(left[j], None, x), n - 1, j);
      }
    }
  }

  /** A slot no pick is aimed at gets a leftover. */
  lemma LeftoverOrigin(s: VetoState, members: Teams, format: RoomFormat, first: Team, x: SlotIndex)
    requires RoomRun(s, members, format, first) && s.done && Covers(format, s.steps) && BetweenCastles(x)
    requires forall i | 0 <= i < |s.steps| :: StepAim(format, s.steps, i) != Some(x)
    ensures HasLeftover(s, format, x, |format|)
  {
    var p, j :| 0 <= p < |format| && 0 <= j && LeftoverCovers(format, s.steps, p, j, x);
    LeftExact(s, members, format, first, p);
    assert LeftoverAt(s, format, x, LeftoverSlot(LeftOf(s, format[p])[j], None, x), p, j);
  }

  lemma AimsAt(s: VetoState, format: RoomFormat, i: nat)
    requires i < |s.history|
    ensures |Aims(s, format)| == |s.history| && Aims(s, format)[i] == Aim(s, format, i)
  {
  }

  lemma UnaimedStep(s: VetoState, members: Teams, format: RoomFormat, first: Team, x: SlotIndex)
    requires RoomRun(s, members, format, first) && s.done && |s.history| == |s.steps|
    requires LastAimed(Aims(s, format), |s.history|, x).None?
    ensures forall i | 0 <= i < |s.steps| :: StepAim(format, s.steps, i) != Some(x)
  {
    RoomSteps(s, members, format, first);
    hide RoomRun; hide Aim; hide StepAim;
    var aims := Aims(s, format);
    forall i | 0 <= i < |s.steps| ensures StepAim(format, s.steps, i) != Some(x) {
      AimIsStepAim(s, format, i);
      assert aims[i] != Some(x);
    }
  }

  lemma PickedOrigin(s: VetoState, format: RoomFormat, x: SlotIndex)
    requires LastAimed(Aims(s, format), |s.history|, x).Some?
    ensures CameFrom(s, format, x, RoomSlots(s, format)[x])
  {
    hide Aim; hide FromLeftover;
    var placed := Placed(s.history, Aims(s, format), |s.history|);
    var i := LastAimed(Aims(s, format), |s.history|, x).value;
    AimsAt(s, format, i);
    assert placed[x] == RoomSlot(Some(s.history[i].item), Picked, Some(s.history[i].team));
    hide Aims; hide Placed; hide LastAimed;
    FillKeepsPicks(s, format, placed, |format|, x);
  }

  lemma LeftoverFills(s: VetoState, format: RoomFormat, x: SlotIndex, n: nat, slot: RoomSlot)
    requires FromLeftover(s, format, x, n, slot)
    ensures slot.room.Some?
  {
  }

  lemma OpenOrigin(s: VetoState, members: Teams, format: RoomFormat, first: Team, x: SlotIndex)
    requires RoomRun(s, members, format, first) && s.done && |s.history| == |s.steps|
    requires Covers(format, s.steps) && BetweenCastles(x)
    requires LastAimed(Aims(s, format), |s.history|, x).None?
    ensures CameFrom(s, format, x, RoomSlots(s, format)[x])
  {
    hide RoomRun; hide Covers; hide FromLeftover; hide HasLeftover; hide Aim; hide StepAim;
    var placed := Placed(s.history, Aims(s, format), |s.history|);
    assert placed[x] == OPEN_SLOT;
    hide Aims; hide Placed; hide LastAimed;
    FillOrigins(s, format, placed, |format|, x);
    UnaimedStep(s, members, format, first, x);
    LeftoverOrigin(s, members, format, first, x);
    LeftoverFills(s, format, x, |format|, RoomSlots(s, format)[x]);
  }

  lemma SlotOrigins(s: VetoState, members: Teams, format: RoomFormat, first: Team, x: SlotIndex)
    requires RoomRun(s, members, format, first) && s.done && Covers(format, s.steps) && BetweenCastles(x)
    ensures CameFrom(s, format, x, RoomSlots(s, format)[x])
  {
    assert |s.history| == |s.steps|;
    hide RoomRun; hide Covers; hide Aims; hide LastAimed; hide CameFrom; hide RoomSlots;
    if LastAimed(Aims(s, format), |s.history|, x).Some? {
      PickedOrigin(s, format, x);
    } else {
      OpenOrigin(s, members, format, first, x);
    }
  }

  lemma AimIsStepAim(s: VetoState, format: RoomFormat, i: nat)
    requires Inv(s) && i < |s.history| && forall j | 0 <= j < |s.steps| :: s.steps[j].phase.Some?
    ensures Aim(s, format, i) == StepAim(format, s.steps, i)
  {
    assert EntryOk(s, i);
    UsedIsPickCount(s, i, PhaseIndex(s.steps, i), s.steps[i].team);
  }

  /** Once done, a phase has left over exactly its pool less its steps. */
  lemma LeftExact(s: VetoState, members: Teams, format: RoomFormat, first: Team, p: nat)
    requires RoomRun(s, members, format, first) && s.done && p < |format|
    ensures |LeftOf(s, format[p])| + CountPhase(s.steps, |s.steps|, p) == |format[p].pool|
    ensures Distinct(LeftOf(s, format[p]))
    ensures forall k | k in LeftOf(s, format[p]) :: k in format[p].pool && k !in Items(s.history)
  {
    RoomPool(s, members, format, first, p);
    var pool := Elems(format[p].pool);
    LeftBound(s, pool);
    LeftAtMost(s, pool);
    MeetsIsPhaseCount(s, members, format, first, p, |s.steps|);
    PhaseCountIsInside(s, members, format, first, p, |s.steps|);
  }

  lemma {:induction false} PhaseCountIsInside(s: VetoState, members: Teams, format: RoomFormat, first: Team, p: nat,
      j: nat)
    requires RoomRun(s, members, format, first) && p < |format| && j <= |s.steps|
    ensures CountPhase(s.steps, j, p) <= Inside(s, Elems(format[p].pool), j)
  {
    if j > 0 {
      PhaseCountIsInside(s, members, format, first, p, j - 1);
      RoomSteps(s, members, format, first);
    }
  }

  lemma FittingRoom(s: VetoState, members: Teams, format: RoomFormat, first: Team, x: SlotIndex)
    requires RoomRun(s, members, format, first) && s.done && Covers(format, s.steps) && BetweenCastles(x)
    ensures RoomSlots(s, format)[x].room.Some?
    ensures RoomSlots(s, format)[x].room.value in (if x == START_SLOT then START_POOL else MID_POOL)
  {
    SlotOrigins(s, members, format, first, x);
    RoomSteps(s, members, format, first);
    var slot := RoomSlots(s, format)[x];
    if FromLeftover(s, format, x, |format|, slot) {
      var p, j :| 0 <= p < |format| && 0 <= j && LeftoverAt(s, format, x, slot, p, j);
      LeftExact(s, members, format, first, p);
      assert LeftoverCovers(format, s.steps, p, j, x);
      assert LeftOf(s, format[p])[j] in LeftOf(s, format[p]);
    } else {
      var i :| 0 <= i < |s.history| && Aim(s, format, i) == Some(x) && slot.room.value == s.history[i].item;
      AimIsStepAim(s, format, i);
      ChoicesAreDistinct(s);
    }
  }

  lemma LeftoversDiffer(s: VetoState, members: Teams, format: RoomFormat, first: Team, x: SlotIndex, y: SlotIndex,
      a: RoomSlot, b: RoomSlot)
    requires RoomRun(s, members, format, first) && s.done && x != y
    requires FromLeftover(s, format, x, |format|, a) && FromLeftover(s, format, y, |format|, b)
    ensures a.room != b.room
  {
    var p, i :| 0 <= p < |format| && 0 <= i && LeftoverAt(s, format, x, a, p, i);
    var q, j :| 0 <= q < |format| && 0 <= j && LeftoverAt(s, format, y, b, q, j);
    LeftExact(s, members, format, first, p);
    LeftExact(s, members, format, first, q);
    RoomPool(s, members, format, first, p);
    if p == q {
      assert i != j && LeftOf(s, format[p])[i] != LeftOf(s, format[p])[j];
    } else {
      var k, l := LeftOf(s, format[p])[i], LeftOf(s, format[q])[j];
      assert k in LeftOf(s, format[p]) && l in LeftOf(s, format[q]);
      assert k in Elems(format[p].pool) && l in Elems(format[q].pool);
    }
  }

  lemma LeftoverIsNoPick(s: VetoState, members: Teams, format: RoomFormat, first: Team, x: SlotIndex, a: RoomSlot)
    requires RoomRun(s, members, format, first) && s.done && FromLeftover(s, format, x, |format|, a)
    ensures a.room.value !in Items(s.history)
  {
    var p, i :| 0 <= p < |format| && 0 <= i && LeftoverAt(s, format, x, a, p, i);
    LeftExact(s, members, format, first, p);
    assert LeftOf(s, format[p])[i] in LeftOf(s, format[p]);
  }

  /** A room is in one slot only: picks never repeat, leftovers are not picks, and each leftover has one place. */
  lemma RoomsDiffer(s: VetoState, members: Teams, format: RoomFormat, first: Team, x: SlotIndex, y: SlotIndex)
    requires RoomRun(s, members, format, first) && s.done && Covers(format, s.steps)
    requires BetweenCastles(x) && BetweenCastles(y) && x != y
    ensures RoomSlots(s, format)[x].room != RoomSlots(s, format)[y].room
  {
    SlotOrigins(s, members, format, first, x);
    SlotOrigins(s, members, format, first, y);
    hide RoomSlots; hide Covers;
    OriginsDiffer(s, members, format, first, x, y, RoomSlots(s, format)[x], RoomSlots(s, format)[y]);
  }

  lemma PicksDiffer(s: VetoState, format: RoomFormat, x: SlotIndex, y: SlotIndex, i: nat, j: nat)
    requires Inv(s) && x != y && i < |s.history| && j < |s.history|
    requires Aim(s, format, i) == Some(x) && Aim(s, format, j) == Some(y)
    ensures s.history[i].item != s.history[j].item
  {
    hide Aim;
    ChoicesAreDistinct(s);
    hide Inv;
    assert i != j;
  }

  lemma OriginsDiffer(s: VetoState, members: Teams, format: RoomFormat, first: Team, x: SlotIndex, y: SlotIndex,
      a: RoomSlot, b: RoomSlot)
    requires RoomRun(s, members, format, first) && s.done && x != y
    requires CameFrom(s, format, x, a) && CameFrom(s, format, y, b)
    ensures a.room != b.room
  {
    assert Inv(s);
    hide RoomRun; hide Inv; hide FromLeftover; hide Aim; hide LeftOf; hide PoolUpTo; hide StepsUpTo;
    var la, lb := FromLeftover(s, format, x, |format|, a), FromLeftover(s, format, y, |format|, b);
    if la && lb {
      LeftoversDiffer(s, members, format, first, x, y, a, b);
    } else if la {
      LeftoverIsNoPick(s, members, format, first, x, a);
    } else if lb {
      LeftoverIsNoPick(s, members, format, first, y, b);
    } else {
      var i :| 0 <= i < |s.history| && Aim(s, format, i) == Some(x) && a.room.value == s.history[i].item;
      var j :| 0 <= j < |s.history| && Aim(s, format, j) == Some(y) && b.room.value == s.history[j].item;
      PicksDiffer(s, format, x, y, i, j);
    }
  }

  lemma CastleStays(s: VetoState, members: Teams, format: RoomFormat, first: Team, x: SlotIndex)
    requires RoomRun(s, members, format, first) && Covers(format, s.steps) && !BetweenCastles(x)
    ensures RoomSlots(s, format)[x] == EMPTY_SLOTS[x]
  {
    RoomSteps(s, members, format, first);
    forall i | 0 <= i < |s.history| ensures Aims(s, format)[i] != Some(x) {
      AimIsStepAim(s, format, i);
    }
    var placed := Placed(s.history, Aims(s, format), |s.history|);
    assert placed[x] == EMPTY_SLOTS[x];
    assert x == 0 || x == 6;
    FillKeepsPicks(s, format, placed, |format|, x);
  }

  /** Every finished run of a covering format gives a path the server accepts. */
  lemma CoveringFormatsEndInAPath(s: VetoState, members: Teams, format: RoomFormat, first: Team)
    requires RoomRun(s, members, format, first) && s.done && Covers(format, s.steps)
    ensures RushRoomsFromVeto(s, format).Ok? && ValidPath(RushRoomsFromVeto(s, format).value)
  {
    var slots := RoomSlots(s, format);
    forall x: SlotIndex | BetweenCastles(x)
      ensures slots[x].room.Some? && slots[x].room.value in (if x == START_SLOT then START_POOL else MID_POOL)
    {
      FittingRoom(s, members, format, first, x);
    }
    forall x: SlotIndex | !BetweenCastles(x) ensures slots[x] == EMPTY_SLOTS[x] {
      CastleStays(s, members, format, first, x);
    }
    forall x: SlotIndex, y: SlotIndex | BetweenCastles(x) && BetweenCastles(y) && x != y
      ensures slots[x].room != slots[y].room
    {
      RoomsDiffer(s, members, format, first, x, y);
    }
    InnerRoomsMakeGoodSlots(slots);
    GoodSlotsPath(slots);
  }

  lemma InnerRoomsMakeGoodSlots(slots: Slots)
    requires forall x: SlotIndex | BetweenCastles(x) ::
               slots[x].room.Some? && slots[x].room.value in (if x == START_SLOT then START_POOL else MID_POOL)
    requires forall x: SlotIndex | !BetweenCastles(x) :: slots[x] == EMPTY_SLOTS[x]
    requires forall x: SlotIndex, y: SlotIndex | BetweenCastles(x) && BetweenCastles(y) && x != y ::
               slots[x].room != slots[y].room
    ensures GoodSlots(slots)
  {
    PoolMembers();
    var t: SlotIndex, ct: SlotIndex, start: SlotIndex := 0, 6, 3;
    assert slots[t] == EMPTY_SLOTS[t] && slots[ct] == EMPTY_SLOTS[ct] && BetweenCastles(start);
    forall x: SlotIndex, y: SlotIndex | x < y ensures slots[x].room != slots[y].room {
      assert BetweenCastles(x) || x == 0;
      assert BetweenCastles(y) || y == 6;
    }
  }

  // ---------- The format the site runs ----------

  const MID_SEQUENCE: seq<Action> := [Ban, Ban, Pick, Pick, Ban, Ban, Pick, Pick]
  const MID_PHASE := RoomPhase(MID_POOL, MID_SEQUENCE, false, [1, 2], [5, 4], [])
  const START_PHASE := RoomPhase(START_POOL, [], true, [], [], [3])
  const RUSH_ROOM_VETO: RoomFormat := [MID_PHASE, START_PHASE]

  /** The action at position i of the default veto. */
  function DefaultAction(i: nat): Action {
    if i == 2 || i == 3 || i == 6 || i == 7 then Pick else Ban
  }

  function DefaultStep(i: nat, first: Team): Step {
    Step(DefaultAction(i), if i % 2 == 0 then first else Other(first), Some(if i < 8 then 0 else 1))
  }

  lemma DefaultMidSteps(first: Team) returns (steps: seq<Step>)
    ensures AddPhase([], MID_PHASE, 0, first) == Ok(steps)
    ensures |steps| == 8 && forall i | 0 <= i < 8 :: steps[i] == DefaultStep(i, first)
  {
    steps := StepsFor(MID_SEQUENCE, 0, 0, first);
    assert [] + steps == steps;
    DefaultPicks(steps, first);
  }

  lemma DefaultStartSteps(mid: seq<Step>, first: Team) returns (steps: seq<Step>)
    requires |mid| == 8 && forall i | 0 <= i < 8 :: mid[i] == DefaultStep(i, first)
    ensures AddPhase(mid, START_PHASE, 1, first) == Ok(steps)
    ensures |steps| == 11 && forall i | 0 <= i < 11 :: steps[i] == DefaultStep(i, first)
  {
    var bans := PhaseActions(START_PHASE).value;
    assert |bans| == 3 && forall i | 0 <= i < 3 :: bans[i] == Ban;
    hide PhaseActions;
    steps := mid + StepsFor(bans, 1, 8, first);
    NoPicks(steps, 11, 1, Team0);
    NoPicks(steps, 11, 1, Team1);
  }

  lemma DefaultSteps(first: Team)
    ensures StepsUpTo(RUSH_ROOM_VETO, first, 2).Ok?
    ensures var steps := StepsUpTo(RUSH_ROOM_VETO, first, 2).value;
            |steps| == 11 && forall i | 0 <= i < 11 :: steps[i] == DefaultStep(i, first)
  {
    var mid := DefaultMidSteps(first);
    var steps := DefaultStartSteps(mid, first);
    assert StepsUpTo(RUSH_ROOM_VETO, first, 0) == Ok([]);
    assert StepsUpTo(RUSH_ROOM_VETO, first, 1) == Ok(mid);
  }

  lemma NoPicks(steps: seq<Step>, n: nat, p: nat, t: Team)
    requires n <= |steps| && forall i | 0 <= i < |steps| :: steps[i].phase == Some(p) ==> steps[i].action != Pick
    ensures PickCount(steps, n, p, t) == 0
  {
  }

  /** Pick counts along the mid phase: one per team after step 4, two after step 8. */
  lemma DefaultPicks(steps: seq<Step>, first: Team)
    requires |steps| >= 8 && forall i | 0 <= i < 8 :: steps[i] == DefaultStep(i, first)
    ensures forall t :: PickCount(steps, 2, 0, t) == 0 && PickCount(steps, 8, 0, t) == 2
    ensures PickCount(steps, 3, 0, Other(first)) == 0 && PickCount(steps, 6, 0, first) == 1
    ensures PickCount(steps, 7, 0, Other(first)) == 1
  {
    forall t: Team ensures PickCount(steps, 2, 0, t) == 0 && PickCount(steps, 8, 0, t) == 2
      && (t != first ==> PickCount(steps, 3, 0, t) == 0 && PickCount(steps, 7, 0, t) == 1)
      && (t == first ==> PickCount(steps, 6, 0, t) == 1)
    {
      assert PickCount(steps, 2, 0, t) == PickCount(steps, 1, 0, t) == PickCount(steps, 0, 0, t);
      assert PickCount(steps, 4, 0, t) == 1;
      assert PickCount(steps, 6, 0, t) == PickCount(steps, 5, 0, t) == 1;
    }
  }

  /** The slot step i of the default veto fills. */
  function DefaultAim(i: nat, first: Team): Option<SlotIndex> {
    var own: seq<SlotIndex> := MID_PHASE.PickSlots(if i % 2 == 0 then first else Other(first));
    if i == 2 || i == 3 then Some(own[0]) else if i == 6 || i == 7 then Some(own[1]) else None
  }

  lemma DefaultAims(first: Team, steps: seq<Step>, i: nat)
    requires |steps| == 11 && forall j | 0 <= j < 11 :: steps[j] == DefaultStep(j, first)
    requires i < 11
    ensures StepAim(RUSH_ROOM_VETO, steps, i) == DefaultAim(i, first)
  {
    DefaultPicks(steps, first);
    assert PhaseIndex(steps, i) == if i < 8 then 0 else 1;
  }

  lemma DefaultStartLeft(first: Team)
    requires StepsUpTo(RUSH_ROOM_VETO, first, 2).Ok?
    ensures var steps := StepsUpTo(RUSH_ROOM_VETO, first, 2).value;
            LeftoverCovers(RUSH_ROOM_VETO, steps, 1, 0, 3)
  {
    StepCounts(RUSH_ROOM_VETO, first, 2, 1);
    assert |PhaseActions(START_PHASE).value| == 3;
  }

  /** Each slot beside a castle is the aim of one of the four pick steps. */
  lemma DefaultReach(first: Team, x: SlotIndex) returns (i: nat)
    requires BetweenCastles(x) && x != START_SLOT
    ensures i < 8 && DefaultAim(i, first) == Some(x)
  {
    var mine := if first == Team0 then x < 3 else x > 3;
    i := (if x == 1 || x == 5 then 2 else 6) + if mine then 0 else 1;
  }

  lemma DefaultAimFits(first: Team, i: nat)
    requires i < 11 && DefaultAim(i, first).Some?
    ensures i < 8
    ensures BetweenCastles(DefaultAim(i, first).value) && Fits(DefaultAim(i, first).value, MID_POOL)
  {
  }

  /** Every pick of the default veto lands between the castles, in a slot for mid rooms. */
  lemma DefaultAimsFit(first: Team, steps: seq<Step>, i: nat)
    requires |steps| == 11 && forall j | 0 <= j < 11 :: steps[j] == DefaultStep(j, first)
    requires i < 11 && StepAim(RUSH_ROOM_VETO, steps, i).Some?
    ensures BetweenCastles(StepAim(RUSH_ROOM_VETO, steps, i).value)
    ensures Fits(StepAim(RUSH_ROOM_VETO, steps, i).value, RUSH_ROOM_VETO[PhaseIndex(steps, i)].pool)
  {
    DefaultAims(first, steps, i);
    DefaultAimFits(first, i);
    assert PhaseIndex(steps, i) == 0;
  }

  /** Only the start room is left over, and it goes to the start slot. */
  lemma DefaultLeftoverFits(steps: seq<Step>, p: nat, j: nat, x: SlotIndex)
    requires p < 2 && LeftoverCovers(RUSH_ROOM_VETO, steps, p, j, x)
    ensures Fits(x, RUSH_ROOM_VETO[p].pool)
  {
  }

  /** The default format covers slots 1 to 5, whichever team starts. */
  lemma DefaultFormatCovers(first: Team)
    ensures StepsUpTo(RUSH_ROOM_VETO, first, 2).Ok?
    ensures Covers(RUSH_ROOM_VETO, StepsUpTo(RUSH_ROOM_VETO, first, 2).value)
  {
    DefaultSteps(first);
    var format, steps := RUSH_ROOM_VETO, StepsUpTo(RUSH_ROOM_VETO, first, 2).value;
    DefaultStartLeft(first);
    hide Fits; hide MID_PHASE; hide START_PHASE; hide DefaultAim; hide StepAim; hide LeftoverCovers; hide StepsUpTo;
    forall i | 0 <= i < |steps| && StepAim(format, steps, i).Some?
      ensures BetweenCastles(StepAim(format, steps, i).value)
              && Fits(StepAim(format, steps, i).value, format[PhaseIndex(steps, i)].pool)
    {
      DefaultAimsFit(first, steps, i);
    }
    forall p, j, x: SlotIndex | 0 <= p < 2 && 0 <= j && LeftoverCovers(format, steps, p, j, x)
      ensures Fits(x, format[p].pool)
    {
      DefaultLeftoverFits(steps, p, j, x);
    }
    forall x: SlotIndex | BetweenCastles(x) && x != START_SLOT
      ensures exists i | 0 <= i < |steps| :: StepAim(format, steps, i) == Some(x)
    {
      var i := DefaultReach(first, x);
      DefaultAims(first, steps, i);
    }
  }
}
