/** Where the picks of a series room veto land, and what its last check accepts
    (packages/shared/src/veto/series-rooms.ts). */
module SeriesRooms {
  import opened Common
  import opened VetoEngine
  import opened RushRooms
  import opened RoomVeto
  import opened SeriesVeto

  // ---------- Sides ----------

  function PhaseOf(s: VetoState, k: nat): Option<Phase> {
    if k < |s.steps| && s.steps[k].phase.Some? && s.steps[k].phase.value < |s.phases|
    then Some(s.phases[s.steps[k].phase.value])
    else None
  }

  predicate OnMap(s: VetoState, i: nat, m: int)
    requires i < |s.history|
  {
    PhaseOf(s, s.history[i].step).Some? && PhaseOf(s, s.history[i].step).value.mapNumber == m
  }

  /** The first side choice of map m among the first n history entries. */
  function SideEntry(s: VetoState, m: int, n: nat): (r: Option<nat>)
    requires n <= |s.history|
    ensures r.Some? ==> r.value < n && s.history[r.value].action == Side && OnMap(s, r.value, m)
  {
    if n == 0 then None
    else
      var r := SideEntry(s, m, n - 1);
      if r.Some? then r
      else if s.history[n - 1].action == Side && OnMap(s, n - 1, m) then Some(n - 1)
      else None
  }

  predicate HasSideStep(phases: seq<Phase>, m: int) {
    exists p | p in phases :: p.mapNumber == m && p.kind == SidePhase
  }

  /** The team on CT on map m, when known. A map with no side choice swaps the sides of the map before. */
  function CtTeam(s: VetoState, unit: Parts, m: nat): Option<Team> {
    if m == 0 then None
    else
      var chosen := SideEntry(s, At(unit, m), |s.history|);
      if chosen.Some? then
        var h := s.history[chosen.value];
        Some(if h.item.SideKey? && h.item.side == CtSide then h.team else Other(h.team))
      else
        var prev := CtTeam(s, unit, m - 1);
        if !HasSideStep(s.phases, At(unit, m)) && prev.Some? then Some(Other(prev.value)) else None
  }

  // ---------- Slots ----------

  /** A team's mid picks start beside its own castle. */
  function OwnSlots(isCt: bool): seq<SlotIndex> {
    if isCt then [5, 4] else [1, 2]
  }

  /** Mid picks of team t on map m among the first n history entries. */
  function MidsBefore(s: VetoState, m: int, t: Team, n: nat): nat
    requires n <= |s.history|
  {
    if n == 0 then 0
    else
      var h := s.history[n - 1];
      MidsBefore(s, m, t, n - 1)
        + if h.action == Pick && OnMap(s, n - 1, m) && PhaseOf(s, h.step).value.kind == MidPhase && h.team == t
          then 1 else 0
  }

  /** The slot of map m that history entry i lands in. */
  function SeriesAim(s: VetoState, m: int, ct: Option<Team>, i: nat): Option<SlotIndex>
    requires i < |s.history|
  {
    var h := s.history[i];
    if h.action != Pick || !OnMap(s, i, m) then None
    else
      var kind := PhaseOf(s, h.step).value.kind;
      if kind == StartPhase then Some(START_SLOT)
      else if kind == MidPhase && ct.Some? then
        var used := MidsBefore(s, m, h.team, i);
        if used < 2 then Some(OwnSlots(h.team == ct.value)[used]) else None
      else None
  }

  function SeriesAims(s: VetoState, m: int, ct: Option<Team>): seq<Option<SlotIndex>> {
    seq(|s.history|, i requires 0 <= i < |s.history| => SeriesAim(s, m, ct, i))
  }

  function OpenOnly(slots: Slots, order: seq<SlotIndex>): seq<SlotIndex> {
    if order == [] then []
    else (if slots[order[0]].source == Open then [order[0]] else []) + OpenOnly(slots, order[1..])
  }

  const FILL_ORDER: seq<SlotIndex> := [1, 2, 5, 4]

  datatype SeriesMap = SeriesMap(mapNumber: int, ctTeam: Option<Team>, slots: Slots)

  /** The map's own mid picks are over, or it has none. */
  predicate MidsOver(s: VetoState, m: int) {
    var mid := FindPhase(s.phases, m, MidPhase);
    mid == |s.phases| || PhaseDone(s, mid)
  }

  function PickedSlots(s: VetoState, m: int, ct: Option<Team>): Slots {
    Placed(s.history, SeriesAims(s, m, ct), |s.history|)
  }

  /** The slots of map m with its picks. */
  function PicksOn(s: VetoState, unit: Parts, m: nat): Slots {
    PickedSlots(s, At(unit, m), CtTeam(s, unit, m))
  }

  function MidsLeft(s: VetoState): seq<Key> {
    Within(s.available, Elems(MID_POOL))
  }

  function MapOf(s: VetoState, unit: Parts, m: nat): SeriesMap {
    var ct := CtTeam(s, unit, m);
    var picked := PicksOn(s, unit, m);
    SeriesMap(m, ct,
      if ct.Some? && MidsOver(s, At(unit, m))
      then FillFrom(picked, OpenOnly(picked, FILL_ORDER), MidsLeft(s), ct, 0)
      else picked)
  }

  /** Slots of one map from the history, as the source's inner loop fills them. */
  method PlaceSeriesPicks(s: VetoState, m: int, ct: Option<Team>) returns (slots: Slots)
    ensures slots == PickedSlots(s, m, ct)
  {
    slots := EMPTY_SLOTS;
    var used0, used1 := 0, 0;
    var i := 0;
    while i < |s.history|
      invariant 0 <= i <= |s.history|
      invariant slots == Placed(s.history, SeriesAims(s, m, ct), i)
      invariant ct.Some? ==> used0 == MidsBefore(s, m, Team0, i) && used1 == MidsBefore(s, m, Team1, i)
    {
      var h := s.history[i];
      PlacedStep(s.history, SeriesAims(s, m, ct), i);
      if h.action == Pick && OnMap(s, i, m) {
        var kind := PhaseOf(s, h.step).value.kind;
        if kind == StartPhase {
          slots := slots[START_SLOT := RoomSlot(Some(h.item), Picked, Some(h.team))];
        } else if kind == MidPhase && ct.Some? {
          var used := if h.team == Team0 then used0 else used1;
          if h.team == Team0 { used0 := used0 + 1; } else { used1 := used1 + 1; }
          if used < 2 {
            slots := slots[OwnSlots(h.team == ct.value)[used] := RoomSlot(Some(h.item), Picked, Some(h.team))];
          }
        }
      }
      i := i + 1;
    }
  }

  method NextSeriesMap(s: VetoState, unit: Parts, m: nat, prevCt: Option<Team>) returns (r: SeriesMap)
    requires m >= 1 && prevCt == CtTeam(s, unit, m - 1)
    ensures r == MapOf(s, unit, m) && r.ctTeam == CtTeam(s, unit, m)
  {
    var at := At(unit, m);
    var chosen := SideEntry(s, at, |s.history|);
    var ct: Option<Team> := None;
    if chosen.Some? {
      var h := s.history[chosen.value];
      ct := Some(if h.item.SideKey? && h.item.side == CtSide then h.team else Other(h.team));
    } else if !HasSideStep(s.phases, at) && prevCt.Some? {
      ct := Some(Other(prevCt.value));
    }
    var slots := PlaceSeriesPicks(s, at, ct);
    if ct.Some? && MidsOver(s, at) {
      slots := FillLeftovers(slots, OpenOnly(slots, FILL_ORDER), MidsLeft(s), ct);
    }
    r := SeriesMap(m, ct, slots);
  }

  lemma NoCtBeforeFirst(s: VetoState, unit: Parts)
    ensures CtTeam(s, unit, 0) == None
  {
  }

  method SeriesRoomMaps(s: VetoState, format: SeriesFormat, unit: Parts) returns (out: seq<SeriesMap>)
    ensures |out| == if format.maps > 0 then format.maps else 0
    ensures forall i | 0 <= i < |out| :: out[i] == MapOf(s, unit, i + 1)
  {
    out := [];
    var prevCt: Option<Team> := None;
    NoCtBeforeFirst(s, unit);
    hide MapOf, CtTeam;
    var m := 1;
    while m <= format.maps
      invariant 1 <= m && |out| == m - 1
      invariant m <= format.maps + 1 || (format.maps < 1 && m == 1)
      invariant prevCt == CtTeam(s, unit, m - 1)
      invariant forall i | 0 <= i < |out| :: out[i] == MapOf(s, unit, i + 1)
    {
      var next := NextSeriesMap(s, unit, m, prevCt);
      prevCt := next.ctTeam;
      out := out + [next];
      m := m + 1;
    }
  }

  // ---------- Runs of a created series veto ----------

  datatype Setup = Setup(members: Teams, format: SeriesFormat, unit: Parts, first: Team, draw: Draw) {
    function Steps(): seq<SeriesStep> {
      format.steps
    }

    function Flip(): Team {
      FlipOf(draw)
    }
  }

  /** A state of the veto made for u: its format was accepted, and steps, phases and pool are those of the format. */
  ghost predicate SeriesRun(s: VetoState, u: Setup) {
    && Inv(s) && s.members == u.members
    && FormatOk(u.format, u.unit) && AllMidsFit(u.format, u.unit, u.first, u.Flip())
    && s.steps == StepsOf(u.format, u.first, u.Flip())
    && s.phases == PhasesUpTo(u.Steps(), |u.Steps()|)
    && s.pool == JoinedPool(s.phases, |s.phases|)
  }

  function Created(u: Setup): Result<VetoState> {
    CreateSeries(u.members, u.format, u.unit, u.first, u.draw)
  }

  /** Every run from the created state is such a state. */
  lemma SeriesRuns(u: Setup, events: seq<Event>)
    requires Created(u).Ok?
    ensures SeriesRun(Run(Created(u).value, events), u)
  {
    hide FormatOk, AllMidsFit, Inv, HasRepeats;
    var phases := PhasesUpTo(u.Steps(), |u.Steps()|);
    InitInv(JoinedPool(phases, |phases|), u.members, StepsOf(u.format, u.first, u.Flip()), phases);
    RunInv(Created(u).value, events);
  }

  lemma {:induction false} PhasesHavePools(steps: seq<SeriesStep>, n: nat)
    requires n <= |steps|
    ensures forall p | p in PhasesUpTo(steps, n) :: p.kind != Plain && p.pool == PhasePool(p.mapNumber, p.kind)
  {
    if n > 0 {
      PhasesHavePools(steps, n - 1);
    }
  }

  lemma {:induction false} JoinedHas(phases: seq<Phase>, n: nat, i: nat)
    requires i < n <= |phases|
    ensures Elems(phases[i].pool) <= Elems(JoinedPool(phases, n))
  {
    if i < n - 1 {
      JoinedHas(phases, n - 1, i);
    }
  }

  /** Step i of the veto is step i of the format: same map and kind, the role's team, that kind's pool. */
  lemma StepIs(s: VetoState, u: Setup, i: nat)
    requires SeriesRun(s, u) && i < |s.steps|
    ensures |s.steps| == |u.Steps()|
    ensures PhaseOf(s, i) == Some(PhaseFor(u.Steps()[i]))
    ensures s.steps[i].phase == Some(FindPhase(s.phases, u.Steps()[i].map_, u.Steps()[i].kind))
    ensures s.steps[i].action == if u.Steps()[i].kind == SidePhase then Side else Pick
    ensures s.steps[i].team == RoleTeam(u.Steps()[i].role, u.first, u.Flip())
    ensures StepPool(s, i) == Elems(PhasePool(u.Steps()[i].map_, u.Steps()[i].kind))
    ensures StepPool(s, i) <= Elems(s.pool)
  {
    assert s.steps[i] == StepAt(u.format, u.first, u.Flip(), i);
    PhaseSettled(u.Steps(), i);
    PhasesHavePools(u.Steps(), |u.Steps()|);
    JoinedHas(s.phases, |s.phases|, FindPhase(s.phases, u.Steps()[i].map_, u.Steps()[i].kind));
  }

  /** Entry i of the history resolves step i of the format. */
  lemma EntryIs(s: VetoState, u: Setup, i: nat)
    requires SeriesRun(s, u) && i < |s.history|
    ensures i < |u.Steps()| && s.history[i].step == i
    ensures PhaseOf(s, i) == Some(PhaseFor(u.Steps()[i]))
    ensures s.history[i].action == if u.Steps()[i].kind == SidePhase then Side else Pick
    ensures s.history[i].team == RoleTeam(u.Steps()[i].role, u.first, u.Flip())
    ensures s.history[i].item in Elems(PhasePool(u.Steps()[i].map_, u.Steps()[i].kind))
  {
    StepIs(s, u, i);
    assert EntryOk(s, i);
    ChoicesAreDistinct(s);
  }

  // ---------- Sides are known in time and never change ----------

  /** All side choices of maps 1 to m are among the first k steps. */
  ghost predicate SidesDone(steps: seq<SeriesStep>, m: int, k: nat) {
    forall i | 0 <= i < |steps| && steps[i].kind == SidePhase && steps[i].map_ <= m :: i < k
  }

  lemma HasSideIsStep(s: VetoState, u: Setup, m: int)
    requires SeriesRun(s, u)
    ensures HasSideStep(s.phases, m)
            <==> exists i | 0 <= i < |u.Steps()| :: u.Steps()[i].kind == SidePhase && u.Steps()[i].map_ == m
  {
    if i :| 0 <= i < |u.Steps()| && u.Steps()[i].kind == SidePhase && u.Steps()[i].map_ == m {
      PhaseSettled(u.Steps(), i);
      assert s.phases[FindPhase(s.phases, m, SidePhase)] in s.phases;
    }
    PhasesComeFromSteps(u.Steps(), |u.Steps()|, m, SidePhase);
  }

  lemma {:induction false} PhasesComeFromSteps(steps: seq<SeriesStep>, n: nat, m: int, kind: StepKind)
    requires n <= |steps|
    ensures (exists p | p in PhasesUpTo(steps, n) :: p.mapNumber == m && p.kind == kind) ==>
              exists i | 0 <= i < n :: steps[i].kind == kind && steps[i].map_ == m
  {
    if n > 0 {
      PhasesComeFromSteps(steps, n - 1, m, kind);
      var before := PhasesUpTo(steps, n - 1);
      if p :| p in PhasesUpTo(steps, n) && p.mapNumber == m && p.kind == kind {
        if p !in before {
          assert p == PhaseFor(steps[n - 1]);
        }
      }
    }
  }

  lemma {:induction false} SideEntryFound(s: VetoState, m: int, n: nat, i: nat)
    requires i < n <= |s.history| && s.history[i].action == Side && OnMap(s, i, m)
    ensures SideEntry(s, m, n).Some?
  {
    if i < n - 1 {
      SideEntryFound(s, m, n - 1, i);
    }
  }

  lemma SideIsMade(s: VetoState, u: Setup, m: int, i: nat)
    requires SeriesRun(s, u) && i < |s.history| && i < |u.Steps()| && u.Steps()[i].kind == SidePhase
             && u.Steps()[i].map_ == m
    ensures s.history[i].action == Side && OnMap(s, i, m)
  {
    EntryIs(s, u, i);
  }

  /** Once its side choices are made, a map's sides are known. */
  lemma {:induction false} CtKnown(s: VetoState, u: Setup, m: nat)
    requires SeriesRun(s, u) && 1 <= m <= u.format.maps && SidesDone(u.Steps(), At(u.unit, m), |s.history|)
    ensures CtTeam(s, u.unit, m).Some?
  {
    var steps, at := u.Steps(), At(u.unit, m);
    assert MapOk(u.format, m, at);
    AtGrows(u.unit, m - 1, m);
    hide FormatOk, SeriesRun, OnMap, SideFirst, At;
    HasSideIsStep(s, u, at);
    if HasSideStep(s.phases, at) {
      var i :| 0 <= i < |steps| && steps[i].kind == SidePhase && steps[i].map_ == at;
      SideIsMade(s, u, at, i);
      SideEntryFound(s, at, |s.history|, i);
    } else {
      if m == 1 { var i := CountPositive(steps, |steps|, at, SidePhase); }
      CtKnown(s, u, m - 1);
    }
  }

  lemma {:induction false} CountPositive(steps: seq<SeriesStep>, n: nat, m: int, kind: StepKind) returns (i: nat)
    requires n <= |steps| && CountKind(steps, n, m, kind) > 0
    ensures i < n && steps[i].kind == kind && steps[i].map_ == m
  {
    if steps[n - 1].kind == kind && steps[n - 1].map_ == m {
      i := n - 1;
    } else {
      i := CountPositive(steps, n - 1, m, kind);
    }
  }

  /** A side choice comes before every other step of its map, so it is made before the map's rooms are picked. */
  lemma SidesBeforeRooms(u: Setup, m: nat, k: nat)
    requires FormatOk(u.format, u.unit) && 1 <= m <= u.format.maps
    requires k < |u.Steps()| && u.Steps()[k].map_ == At(u.unit, m) && u.Steps()[k].kind != SidePhase
    ensures SidesDone(u.Steps(), At(u.unit, m), k)
  {
    var steps, at := u.Steps(), At(u.unit, m);
    assert MapOk(u.format, m, at);
    forall i | 0 <= i < |steps| && steps[i].kind == SidePhase && steps[i].map_ <= at ensures i < k {
      if i > k {
        assert steps[i].map_ == at;
        OwnPositive(steps, i, at, k);
      }
    }
  }

  lemma {:induction false} OwnPositive(steps: seq<SeriesStep>, n: nat, m: int, k: nat)
    requires k < n <= |steps| && steps[k].map_ == m
    ensures CountOwn(steps, n, m) > 0
  {
    if k < n - 1 {
      OwnPositive(steps, n - 1, m, k);
    }
  }

  /** Sides once known stay as they are. */
  lemma {:induction false} CtStable(s: VetoState, t: VetoState, u: Setup, m: nat)
    requires SeriesRun(t, u) && SameVeto(s, t) && s.history <= t.history && CtTeam(s, u.unit, m).Some?
    ensures CtTeam(t, u.unit, m) == CtTeam(s, u.unit, m)
  {
    var at := At(u.unit, m);
    hide At;
    if SideEntry(s, at, |s.history|).Some? {
      SideEntryStable(s, t, at, |s.history|, |t.history|);
    } else {
      NoSideNoEntry(t, u, at);
      CtStable(s, t, u, m - 1);
    }
  }

  lemma {:induction false} SideEntryStable(s: VetoState, t: VetoState, m: int, n: nat, k: nat)
    requires SameVeto(s, t) && s.history <= t.history && n <= |s.history| && n <= k <= |t.history|
             && SideEntry(s, m, n).Some?
    ensures SideEntry(t, m, k) == SideEntry(s, m, n)
    decreases n + k
  {
    if n < k {
      SideEntryStable(s, t, m, n, k - 1);
    } else if SideEntry(s, m, n - 1).Some? {
      SideEntryStable(s, t, m, n - 1, n - 1);
    } else {
      SideEntryNone(s, t, m, n - 1);
    }
  }

  lemma {:induction false} SideEntryNone(s: VetoState, t: VetoState, m: int, n: nat)
    requires SameVeto(s, t) && s.history <= t.history && n <= |s.history| && SideEntry(s, m, n).None?
    ensures SideEntry(t, m, n).None?
  {
    if n > 0 {
      SideEntryNone(s, t, m, n - 1);
    }
  }

  lemma NoSideNoEntry(t: VetoState, u: Setup, m: int)
    requires SeriesRun(t, u) && !HasSideStep(t.phases, m)
    ensures SideEntry(t, m, |t.history|).None?
  {
    var r := SideEntry(t, m, |t.history|);
    if r.Some? {
      EntryIs(t, u, r.value);
      HasSideIsStep(t, u, m);
    }
  }

  // ---------- Picks on one map land in different slots ----------

  lemma {:induction false} MidsAreSteps(s: VetoState, u: Setup, m: int, t: Team, n: nat)
    requires SeriesRun(s, u) && n <= |s.history| <= |u.Steps()|
    ensures MidsBefore(s, m, t, n) == TeamMids(u.format, u.first, u.Flip(), m, t, n)
  {
    hide SeriesRun;
    if n > 0 {
      MidsAreSteps(s, u, m, t, n - 1);
      EntryIs(s, u, n - 1);
    }
  }

  lemma {:induction false} TeamMidsMono(u: Setup, m: int, t: Team, i: nat, n: nat)
    requires i <= n <= |u.Steps()|
    ensures TeamMids(u.format, u.first, u.Flip(), m, t, i) <= TeamMids(u.format, u.first, u.Flip(), m, t, n)
  {
    if i < n {
      TeamMidsMono(u, m, t, i, n - 1);
    }
  }

  /** Step i of the format picks a mid room of map m for team t. */
  ghost predicate MidPick(u: Setup, m: int, t: Team, i: nat) {
    && i < |u.Steps()| && u.Steps()[i].map_ == m && u.Steps()[i].kind == MidPhase
    && RoleTeam(u.Steps()[i].role, u.first, u.Flip()) == t
  }

  /** What an entry is aimed at on map m, read off the format. */
  lemma AimIs(s: VetoState, u: Setup, m: nat, ct: Option<Team>, i: nat)
    requires SeriesRun(s, u) && i < |s.history| && 1 <= m <= u.format.maps
    ensures i < |u.Steps()|
    ensures var st, at := u.Steps()[i], At(u.unit, m);
            var t := RoleTeam(st.role, u.first, u.Flip());
            var used := TeamMids(u.format, u.first, u.Flip(), at, t, i);
            && (MidPick(u, at, t, i) ==> used < 2)
            && SeriesAim(s, at, ct, i) ==
                 if st.map_ != at || st.kind == SidePhase then None
                 else if st.kind == StartPhase then Some(START_SLOT)
                 else if ct.Some? && used < 2 then Some(OwnSlots(t == ct.value)[used])
                 else None
  {
    EntryIs(s, u, i);
    var t, at := RoleTeam(u.Steps()[i].role, u.first, u.Flip()), At(u.unit, m);
    assert MidsFit(u.format, u.first, u.Flip(), at);
    MidsAreSteps(s, u, at, t, i);
    TeamMidsMono(u, at, t, i + 1, |u.Steps()|);
  }

  /** A map has one start step. */
  lemma OneStart(s: VetoState, u: Setup, m: nat, i: nat, j: nat)
    requires SeriesRun(s, u) && i < j < |u.Steps()| && 1 <= m <= u.format.maps
    requires u.Steps()[i].map_ == u.Steps()[j].map_ == At(u.unit, m)
    ensures !(u.Steps()[i].kind == StartPhase && u.Steps()[j].kind == StartPhase)
  {
    var at := At(u.unit, m);
    assert MapOk(u.format, m, at);
    hide SeriesRun, FormatOk, SideFirst, At;
    if u.Steps()[i].kind == StartPhase && u.Steps()[j].kind == StartPhase {
      CountKindHas(u.Steps(), j, at, StartPhase, i);
      CountKindHas(u.Steps(), |u.Steps()|, at, StartPhase, j);
    }
  }

  /** No two picks of a map are aimed at the same slot. */
  lemma AimsDiffer(s: VetoState, u: Setup, m: nat, ct: Option<Team>, i: nat, j: nat)
    requires SeriesRun(s, u) && i < j < |s.history| && 1 <= m <= u.format.maps
    ensures var at := At(u.unit, m);
            SeriesAim(s, at, ct, i).Some? ==> SeriesAim(s, at, ct, i) != SeriesAim(s, at, ct, j)
  {
    hide SeriesRun, SeriesAim, FormatOk, SideFirst, RoleTeam, At;
    AimIs(s, u, m, ct, i);
    AimIs(s, u, m, ct, j);
    var a, b, at := u.Steps()[i], u.Steps()[j], At(u.unit, m);
    if a.map_ == at && b.map_ == at {
      OneStart(s, u, m, i, j);
      if a.kind == MidPhase && b.kind == MidPhase {
        TeamMidsMono(u, at, RoleTeam(a.role, u.first, u.Flip()), i + 1, j);
      }
    }
  }

  /** The slot an entry is aimed at shows that entry, then and ever after. */
  lemma AimedSlotShows(s: VetoState, u: Setup, m: nat, ct: Option<Team>, i: nat, x: SlotIndex)
    requires SeriesRun(s, u) && i < |s.history| && 1 <= m <= u.format.maps
    requires SeriesAim(s, At(u.unit, m), ct, i) == Some(x)
    ensures PickedSlots(s, At(u.unit, m), ct)[x] == RoomSlot(Some(s.history[i].item), Picked, Some(s.history[i].team))
  {
    var aims := SeriesAims(s, At(u.unit, m), ct);
    hide At;
    forall j | i < j < |s.history| ensures aims[j] != Some(x) {
      AimsDiffer(s, u, m, ct, i, j);
    }
    LastAimedIs(aims, |s.history|, x, i);
  }

  /** Leftovers go only into open slots, so a pick shows on the map. */
  lemma MapShowsPick(s: VetoState, unit: Parts, m: nat, x: SlotIndex)
    requires PicksOn(s, unit, m)[x].source != Open
    ensures MapOf(s, unit, m).slots[x] == PicksOn(s, unit, m)[x]
  {
    var picked := PicksOn(s, unit, m);
    FillFacts(picked, OpenOnly(picked, FILL_ORDER), MidsLeft(s), CtTeam(s, unit, m), 0, x);
  }

  // ---------- A picked slot never changes ----------

  lemma AimStable(s: VetoState, t: VetoState, u: Setup, m: nat, i: nat)
    requires SeriesRun(s, u) && SeriesRun(t, u) && s.history <= t.history && i < |s.history| && 1 <= m <= u.format.maps
    requires SeriesAim(s, At(u.unit, m), CtTeam(s, u.unit, m), i).Some?
    ensures SeriesAim(t, At(u.unit, m), CtTeam(t, u.unit, m), i) == SeriesAim(s, At(u.unit, m), CtTeam(s, u.unit, m), i)
  {
    hide FormatOk, At;
    AimIs(s, u, m, CtTeam(s, u.unit, m), i);
    AimIs(t, u, m, CtTeam(t, u.unit, m), i);
    if CtTeam(s, u.unit, m).Some? {
      CtStable(s, t, u, m);
    }
  }

  /** A slot with source pick shows the same room and team in every later state. */
  lemma PickedSlotsNeverChange(s: VetoState, t: VetoState, u: Setup, m: nat, x: SlotIndex)
    requires SeriesRun(s, u) && SeriesRun(t, u) && s.history <= t.history && 1 <= m <= u.format.maps
    requires MapOf(s, u.unit, m).slots[x].source == Picked
    ensures MapOf(t, u.unit, m).slots[x] == MapOf(s, u.unit, m).slots[x]
  {
    hide At;
    PickedComesFromAim(s, u.unit, m, x);
    var aims := SeriesAims(s, At(u.unit, m), CtTeam(s, u.unit, m));
    var i := LastAimed(aims, |s.history|, x).value;
    assert aims[i] == SeriesAim(s, At(u.unit, m), CtTeam(s, u.unit, m), i);
    AimStable(s, t, u, m, i);
    AimedSlotShows(s, u, m, CtTeam(s, u.unit, m), i, x);
    AimedSlotShows(t, u, m, CtTeam(t, u.unit, m), i, x);
    MapShowsPick(s, u.unit, m, x);
    MapShowsPick(t, u.unit, m, x);
  }

  lemma PickedComesFromAim(s: VetoState, unit: Parts, m: nat, x: SlotIndex)
    requires MapOf(s, unit, m).slots[x].source == Picked
    ensures PicksOn(s, unit, m)[x].source == Picked
    ensures LastAimed(SeriesAims(s, At(unit, m), CtTeam(s, unit, m)), |s.history|, x).Some?
  {
    var ct := CtTeam(s, unit, m);
    var picked := PicksOn(s, unit, m);
    FillFacts(picked, OpenOnly(picked, FILL_ORDER), MidsLeft(s), ct, 0, x);
    if LastAimed(SeriesAims(s, At(unit, m), ct), |s.history|, x).None? {
      assert picked[x] == EMPTY_SLOTS[x];
      EmptyHasNoPick(x);
    }
  }

  lemma EmptyHasNoPick(x: SlotIndex)
    ensures EMPTY_SLOTS[x].source == Open || EMPTY_SLOTS[x].source == Castle
  {
  }

  // ---------- The previewed slot is where the pick lands ----------

  /** What the current step decides: its map, kind and team. */
  function CurrentSeriesStep(s: VetoState): Option<(int, PhaseKind, Team)> {
    var step := CurrentStep(s);
    var phase := PhaseOf(s, s.stepIndex);
    if step.None? || phase.None? || phase.value.mapNumber == 0 || phase.value.kind == Plain then None
    else Some((phase.value.mapNumber, phase.value.kind, step.value.team))
  }

  function FirstOpen(slots: Slots, own: seq<SlotIndex>): Option<SlotIndex> {
    if own == [] then None else if slots[own[0]].source == Open then Some(own[0]) else FirstOpen(slots, own[1..])
  }

  /** The map up to maps that the steps write as at, or 0 for none. */
  function MapWritten(unit: Parts, at: int, maps: int): (r: nat)
    ensures r > 0 ==> r <= maps && At(unit, r) == at
    decreases maps
  {
    if maps <= 0 then 0 else if At(unit, maps) == at then maps else MapWritten(unit, at, maps - 1)
  }

  /** A step between two maps has no map to show its mid pick on. */
  function SeriesNextPickSlot(s: VetoState, format: SeriesFormat, unit: Parts): Option<SlotIndex> {
    match CurrentSeriesStep(s)
    case None => None
    case Some((at, kind, team)) =>
      if kind == SidePhase then None
      else if kind == StartPhase then Some(START_SLOT)
      else
        var m := MapWritten(unit, at, format.maps);
        if m == 0 then None else
        var map_ := MapOf(s, unit, m);
        if map_.ctTeam.None? then None else FirstOpen(map_.slots, OwnSlots(team == map_.ctTeam.value))
  }

  /** A team's pick number j on a map is some entry. */
  lemma {:induction false} NthMid(u: Setup, m: int, t: Team, n: nat, j: nat) returns (i: nat)
    requires n <= |u.Steps()| && j < TeamMids(u.format, u.first, u.Flip(), m, t, n)
    ensures i < n && MidPick(u, m, t, i) && TeamMids(u.format, u.first, u.Flip(), m, t, i) == j
  {
    if j < TeamMids(u.format, u.first, u.Flip(), m, t, n - 1) {
      i := NthMid(u, m, t, n - 1, j);
    } else {
      i := n - 1;
    }
  }

  /** A team's own slot j shows its pick number j once made. */
  lemma OwnSlotShown(s: VetoState, u: Setup, m: nat, t: Team, j: nat)
    requires SeriesRun(s, u) && 1 <= m <= u.format.maps && CtTeam(s, u.unit, m).Some? && |s.history| <= |u.Steps()|
    requires j < 2 && j < TeamMids(u.format, u.first, u.Flip(), At(u.unit, m), t, |s.history|)
    ensures var slot := PicksOn(s, u.unit, m)[OwnSlots(t == CtTeam(s, u.unit, m).value)[j]];
            slot.source == Picked && slot.room.Some? && slot.room.value in MID_POOL
  {
    var ct := CtTeam(s, u.unit, m);
    hide At;
    var i := NthMid(u, At(u.unit, m), t, |s.history|, j);
    AimIs(s, u, m, ct, i);
    AimedSlotShows(s, u, m, ct, i, OwnSlots(t == ct.value)[j]);
    EntryIs(s, u, i);
  }

  /** Until then it is open. */
  lemma OwnSlotOpen(s: VetoState, u: Setup, m: nat, t: Team, j: nat)
    requires SeriesRun(s, u) && 1 <= m <= u.format.maps && CtTeam(s, u.unit, m).Some? && |s.history| <= |u.Steps()|
    requires j < 2 && j >= TeamMids(u.format, u.first, u.Flip(), At(u.unit, m), t, |s.history|)
    ensures PicksOn(s, u.unit, m)[OwnSlots(t == CtTeam(s, u.unit, m).value)[j]] == OPEN_SLOT
  {
    var ct := CtTeam(s, u.unit, m);
    hide At;
    var x := OwnSlots(t == ct.value)[j];
    var aims := SeriesAims(s, At(u.unit, m), ct);
    forall i | 0 <= i < |s.history| ensures aims[i] != Some(x) {
      NotAimedYet(s, u, m, t, j, i);
    }
    OwnSlotsStartOpen(t == ct.value, j);
  }

  lemma NotAimedYet(s: VetoState, u: Setup, m: nat, t: Team, j: nat, i: nat)
    requires SeriesRun(s, u) && 1 <= m <= u.format.maps && CtTeam(s, u.unit, m).Some?
    requires i < |s.history| <= |u.Steps()|
    requires j < 2 && j >= TeamMids(u.format, u.first, u.Flip(), At(u.unit, m), t, |s.history|)
    ensures SeriesAim(s, At(u.unit, m), CtTeam(s, u.unit, m), i) != Some(OwnSlots(t == CtTeam(s, u.unit, m).value)[j])
  {
    hide SeriesRun, SeriesAim, CtTeam, At;
    AimIs(s, u, m, CtTeam(s, u.unit, m), i);
    if MidPick(u, At(u.unit, m), t, i) { TeamMidsMono(u, At(u.unit, m), t, i + 1, |s.history|); }
  }

  lemma OwnSlotsStartOpen(isCt: bool, j: nat)
    requires j < 2
    ensures EMPTY_SLOTS[OwnSlots(isCt)[j]] == OPEN_SLOT
  {
  }

  /** While a map's mid picks run, its leftovers are not placed. */
  lemma MidsNotOver(s: VetoState, u: Setup)
    requires SeriesRun(s, u) && !s.done && u.Steps()[s.stepIndex].kind == MidPhase
    ensures !MidsOver(s, u.Steps()[s.stepIndex].map_)
  {
    StepIs(s, u, s.stepIndex);
    PhaseSettled(u.Steps(), s.stepIndex);
  }

  /** The current step takes a room for map m. */
  ghost predicate RoomStep(s: VetoState, u: Setup, m: nat) {
    && s.stepIndex < |u.Steps()| && 1 <= m <= u.format.maps
    && u.Steps()[s.stepIndex].map_ == At(u.unit, m) && u.Steps()[s.stepIndex].kind != SidePhase
  }

  lemma SeriesPreviewLands(s: VetoState, u: Setup, m: nat, draw: Draw)
    requires SeriesRun(s, u) && ResolveStep(s, draw).Ok? && RoomStep(s, u, m)
    ensures SeriesNextPickSlot(s, u.format, u.unit).Some?
    ensures var t := ResolveStep(s, draw).value;
            var h := t.history[s.stepIndex];
            MapOf(t, u.unit, m).slots[SeriesNextPickSlot(s, u.format, u.unit).value]
              == RoomSlot(Some(h.item), Picked, Some(h.team))
  {
    hide FormatOk, SeriesAim, MapOf, PickedSlots, SeriesNextPickSlot, ResolveStep, SeriesRun, At;
    var t, k := ResolveStep(s, draw).value, s.stepIndex;
    var st := u.Steps()[k];
    ResolvedRun(s, u, draw);
    SidesAtStep(s, t, u, m);
    var ct := CtTeam(s, u.unit, m);
    AimIs(t, u, m, ct, k);
    EntryIs(t, u, k);
    StepIs(s, u, k);
    var x := SeriesAim(t, At(u.unit, m), ct, k).value;
    assert SeriesNextPickSlot(s, u.format, u.unit) == Some(x) by {
      if st.kind == MidPhase { PreviewOfMid(s, u, m); } else { PreviewOfStart(s, u); }
    }
    AimedSlotShows(t, u, m, ct, k, x);
    MapShowsPick(t, u.unit, m, x);
  }

  lemma ResolvedRun(s: VetoState, u: Setup, draw: Draw)
    requires SeriesRun(s, u) && ResolveStep(s, draw).Ok?
    ensures var t := ResolveStep(s, draw).value; SeriesRun(t, u) && SameVeto(s, t) && s.history <= t.history && !s.done
    ensures |ResolveStep(s, draw).value.history| == s.stepIndex + 1 == |s.history| + 1 <= |s.steps| == |u.Steps()|
  {
    ResolveInv(s, draw);
  }

  /** When a room step is reached its map's sides are known, and they stay. */
  lemma SidesAtStep(s: VetoState, t: VetoState, u: Setup, m: nat)
    requires SeriesRun(s, u) && SeriesRun(t, u) && SameVeto(s, t) && s.history <= t.history && RoomStep(s, u, m)
    ensures CtTeam(s, u.unit, m).Some? && CtTeam(t, u.unit, m) == CtTeam(s, u.unit, m)
  {
    SidesBeforeRooms(u, m, s.stepIndex);
    CtKnown(s, u, m);
    CtStable(s, t, u, m);
  }

  lemma PreviewOfStart(s: VetoState, u: Setup)
    requires SeriesRun(s, u) && !s.done && |s.steps| == |u.Steps()| && u.Steps()[s.stepIndex].kind == StartPhase
    ensures SeriesNextPickSlot(s, u.format, u.unit) == Some(START_SLOT)
  {
    hide MapOf;
    StepIs(s, u, s.stepIndex);
  }

  lemma {:induction false} BackToMap(unit: Parts, m: nat, maps: nat)
    requires 1 <= m <= maps
    ensures MapWritten(unit, At(unit, m), maps) == m
  {
    AtGrows(unit, m, maps);
    hide At;
    if m < maps {
      BackToMap(unit, m, maps - 1);
    }
  }

  /** While a map's mid picks run, a mid step is previewed at its team's first open slot among the picks. */
  lemma PreviewIsFirstOpen(s: VetoState, u: Setup, m: nat)
    requires SeriesRun(s, u) && !s.done && |s.steps| == |u.Steps()|
    requires RoomStep(s, u, m) && u.Steps()[s.stepIndex].kind == MidPhase && CtTeam(s, u.unit, m).Some?
    ensures var own := OwnSlots(s.steps[s.stepIndex].team == CtTeam(s, u.unit, m).value);
            SeriesNextPickSlot(s, u.format, u.unit) == FirstOpen(PicksOn(s, u.unit, m), own)
  {
    BackToMap(u.unit, m, u.format.maps);
    StepIs(s, u, s.stepIndex);
    MidsNotOver(s, u);
    hide At, SeriesRun, CtTeam, PicksOn, OwnSlots, FirstOpen, MidsOver, StepPool, PhasePool;
  }

  lemma PreviewOfMid(s: VetoState, u: Setup, m: nat)
    requires SeriesRun(s, u) && !s.done && |s.steps| == |u.Steps()|
    requires RoomStep(s, u, m) && u.Steps()[s.stepIndex].kind == MidPhase && CtTeam(s, u.unit, m).Some?
    requires TeamMids(u.format, u.first, u.Flip(), At(u.unit, m), s.steps[s.stepIndex].team, s.stepIndex) < 2
    ensures var t := s.steps[s.stepIndex].team;
            var used := TeamMids(u.format, u.first, u.Flip(), At(u.unit, m), t, s.stepIndex);
            SeriesNextPickSlot(s, u.format, u.unit) == Some(OwnSlots(t == CtTeam(s, u.unit, m).value)[used])
  {
    PreviewIsFirstOpen(s, u, m);
    assert |s.history| == s.stepIndex;
    hide SeriesRun, CtTeam, PicksOn, At, TeamMids, SeriesNextPickSlot, FirstOpen;
    var t := s.steps[s.stepIndex].team;
    var used := TeamMids(u.format, u.first, u.Flip(), At(u.unit, m), t, s.stepIndex);
    if used > 0 { OwnSlotShown(s, u, m, t, 0); } else { OwnSlotOpen(s, u, m, t, 0); }
    if used == 1 { OwnSlotOpen(s, u, m, t, 1); }
    FirstOpenOf(PicksOn(s, u.unit, m), OwnSlots(t == CtTeam(s, u.unit, m).value), used);
  }

  /** A team's mid step on a map has a slot of its own left. */
  lemma MidSlotLeft(s: VetoState, u: Setup, m: nat)
    requires SeriesRun(s, u) && !s.done && |s.steps| == |u.Steps()|
    requires RoomStep(s, u, m) && u.Steps()[s.stepIndex].kind == MidPhase
    ensures TeamMids(u.format, u.first, u.Flip(), At(u.unit, m), s.steps[s.stepIndex].team, s.stepIndex) < 2
  {
    assert MidsFit(u.format, u.first, u.Flip(), At(u.unit, m));
    hide SeriesRun, At;
    StepIs(s, u, s.stepIndex);
    TeamMidsMono(u, At(u.unit, m), s.steps[s.stepIndex].team, s.stepIndex + 1, |u.Steps()|);
  }

  /** There is a slot to preview for every start step, for every mid step of a map, and for nothing else. */
  lemma SeriesPreviewIff(s: VetoState, u: Setup)
    requires SeriesRun(s, u) && !s.done
    ensures s.stepIndex < |u.Steps()|
    ensures SeriesNextPickSlot(s, u.format, u.unit).Some? <==>
            || u.Steps()[s.stepIndex].kind == StartPhase
            || (u.Steps()[s.stepIndex].kind == MidPhase && exists m: nat :: RoomStep(s, u, m))
  {
    StepIs(s, u, s.stepIndex);
    var st := u.Steps()[s.stepIndex];
    if st.kind == StartPhase {
      PreviewOfStart(s, u);
    } else if st.kind == MidPhase && exists m: nat :: RoomStep(s, u, m) {
      var m: nat :| RoomStep(s, u, m);
      hide SeriesRun, SeriesNextPickSlot, CtTeam;
      SidesAtStep(s, s, u, m);
      MidSlotLeft(s, u, m);
      PreviewOfMid(s, u, m);
    } else {
      NoMapNoPreview(s, u);
    }
  }

  lemma NoMapNoPreview(s: VetoState, u: Setup)
    requires SeriesRun(s, u) && !s.done && |s.steps| == |u.Steps()|
    requires u.Steps()[s.stepIndex].kind != StartPhase
    requires u.Steps()[s.stepIndex].kind == MidPhase ==> forall m: nat :: !RoomStep(s, u, m)
    ensures SeriesNextPickSlot(s, u.format, u.unit).None?
  {
    StepIs(s, u, s.stepIndex);
    var st := u.Steps()[s.stepIndex];
    hide SeriesRun, MapOf, At;
    if st.kind == MidPhase {
      assert !RoomStep(s, u, MapWritten(u.unit, st.map_, u.format.maps));
    }
  }

  lemma FirstOpenOf(slots: Slots, own: seq<SlotIndex>, used: nat)
    requires |own| == 2 && used < 2 && slots[own[used]].source == Open
    requires used == 1 ==> slots[own[0]].source != Open
    ensures FirstOpen(slots, own) == Some(own[used])
  {
    assert own[1..][0] == own[1];
  }

  // ---------- The last check ----------

  /** Ids and sides of one map, when complete and valid. */
  predicate MapGood(map_: SeriesMap) {
    map_.ctTeam.Some? && PathOf(map_.slots).Some? && ValidPath(PathOf(map_.slots).value)
  }

  /** A room on map i and a room on map j, castles aside. */
  ghost predicate BothRooms(maps: seq<SeriesMap>, i: nat, x: SlotIndex, j: nat, y: SlotIndex) {
    && i < |maps| && j < |maps| && (i != j || x != y)
    && maps[i].slots[x].source != Castle && maps[j].slots[y].source != Castle
  }

  /** No room is in two places of the series. Castles do not count. */
  ghost predicate NoRoomTwice(maps: seq<SeriesMap>) {
    forall i: nat, j: nat, x: SlotIndex, y: SlotIndex | BothRooms(maps, i, x, j, y) ::
        maps[i].slots[x].room != maps[j].slots[y].room
  }

  datatype RushMap = RushMap(mapNumber: int, rushRooms: seq<int>, ctTeam: Team)

  ghost predicate AllGood(maps: seq<SeriesMap>) {
    (forall m | 0 <= m < |maps| :: MapGood(maps[m])) && NoRoomTwice(maps)
  }

  /** Rooms in the first n slots, castles aside. */
  ghost function SlotRooms(slots: Slots, n: nat): set<Key>
    requires n <= 7
  {
    if n == 0 then {}
    else SlotRooms(slots, n - 1)
         + if slots[n - 1].source != Castle && slots[n - 1].room.Some? then {slots[n - 1].room.value} else {}
  }

  lemma {:induction false} SlotRoomsAre(slots: Slots, n: nat, k: Key)
    requires n <= 7
    ensures k in SlotRooms(slots, n)
            <==> exists x: SlotIndex :: x < n && slots[x].source != Castle && slots[x].room == Some(k)
  {
    if n > 0 {
      SlotRoomsAre(slots, n - 1, k);
      var last: SlotIndex := n - 1;
      assert slots[last] == slots[n - 1];
    }
  }

  ghost function RoomsSeen(maps: seq<SeriesMap>, n: nat): set<Key>
    requires n <= |maps|
  {
    if n == 0 then {} else RoomsSeen(maps, n - 1) + SlotRooms(maps[n - 1].slots, 7)
  }

  lemma {:induction false} RoomsSeenAre(maps: seq<SeriesMap>, n: nat, k: Key)
    requires n <= |maps|
    ensures k in RoomsSeen(maps, n) <==>
              exists i, x: SlotIndex ::
                  0 <= i < n && maps[i].slots[x].source != Castle && maps[i].slots[x].room == Some(k)
  {
    if n > 0 {
      RoomsSeenAre(maps, n - 1, k);
      SlotRoomsAre(maps[n - 1].slots, 7, k);
    }
  }

  lemma MapGoodRooms(map_: SeriesMap, x: SlotIndex, y: SlotIndex)
    requires MapGood(map_) && x != y
    ensures map_.slots[x].room.Some? && map_.slots[x].room != map_.slots[y].room
  {
    var ids := PathOf(map_.slots).value;
    assert ids[x] == RoomNumber(map_.slots[x].room.value) && ids[y] == RoomNumber(map_.slots[y].room.value);
  }

  /** A good map that shares no room with the maps before keeps all rooms unique. */
  lemma StillUnique(maps: seq<SeriesMap>, n: nat)
    requires n < |maps| && NoRoomTwice(maps[..n]) && MapGood(maps[n])
    requires SlotRooms(maps[n].slots, 7) !! RoomsSeen(maps, n)
    ensures NoRoomTwice(maps[..n + 1])
  {
    forall i: nat, j: nat, x: SlotIndex, y: SlotIndex | BothRooms(maps[..n + 1], i, x, j, y)
      ensures maps[i].slots[x].room != maps[j].slots[y].room
    {
      if i == n && j == n {
        MapGoodRooms(maps[n], x, y);
      } else if i == n {
        DifferentFromSeen(maps, n, x, j, y);
      } else if j == n {
        DifferentFromSeen(maps, n, y, i, x);
      } else {
        assert BothRooms(maps[..n], i, x, j, y);
        assert maps[..n][i] == maps[i] && maps[..n][j] == maps[j];
      }
    }
  }

  lemma DifferentFromSeen(maps: seq<SeriesMap>, n: nat, x: SlotIndex, j: nat, y: SlotIndex)
    requires n < |maps| && MapGood(maps[n]) && SlotRooms(maps[n].slots, 7) !! RoomsSeen(maps, n)
    requires j < n && maps[n].slots[x].source != Castle && maps[j].slots[y].source != Castle
    ensures maps[n].slots[x].room != maps[j].slots[y].room
  {
    var z: SlotIndex := if x == 0 then 1 else 0;
    MapGoodRooms(maps[n], x, z);
    var k := maps[n].slots[x].room.value;
    SlotRoomsAre(maps[n].slots, 7, k);
    RoomsSeenAre(maps, n, k);
  }

  /** A room seen on an earlier map is in two places. */
  lemma {:induction false} SeenTwice(maps: seq<SeriesMap>, n: nat, k: Key)
    requires n < |maps| && k in SlotRooms(maps[n].slots, 7) && k in RoomsSeen(maps, n)
    ensures !NoRoomTwice(maps)
  {
    SlotRoomsAre(maps[n].slots, 7, k);
    RoomsSeenAre(maps, n, k);
    var x: SlotIndex :| maps[n].slots[x].source != Castle && maps[n].slots[x].room == Some(k);
    var i, y: SlotIndex :| 0 <= i < n && maps[i].slots[y].source != Castle && maps[i].slots[y].room == Some(k);
    assert BothRooms(maps, i, y, n, x);
  }

  /** Adds a map's rooms to those seen, or stops at one that was seen before. */
  method SeeRooms(slots: Slots, seen: set<Key>) returns (repeat: Option<Key>, after: set<Key>)
    requires forall x: SlotIndex :: slots[x].room.Some?
    requires forall x: SlotIndex, y: SlotIndex | x != y :: slots[x].room != slots[y].room
    ensures repeat.None? ==> SlotRooms(slots, 7) !! seen && after == seen + SlotRooms(slots, 7)
    ensures repeat.Some? ==> repeat.value in seen && repeat.value in SlotRooms(slots, 7)
  {
    after := seen;
    var x := 0;
    while x < 7
      invariant 0 <= x <= 7
      invariant after == seen + SlotRooms(slots, x) && SlotRooms(slots, x) !! seen
    {
      var at: SlotIndex := x;
      var slot := slots[at];
      if slot.source != Castle {
        SlotRoomsAre(slots, x, slot.room.value);
        SlotRoomsAre(slots, 7, slot.room.value);
        if slot.room.value in after {
          return Some(slot.room.value), after;
        }
        after := after + {slot.room.value};
      }
      x := x + 1;
    }
    repeat := None;
  }

  /**
   * The result for match.json, or an error exactly when the veto is unfinished, a map is not good or a room repeats.
   */
  method SeriesRushRoomsFromVeto(s: VetoState, format: SeriesFormat, unit: Parts)
    returns (r: Result<seq<RushMap>>, maps: seq<SeriesMap>)
    ensures |maps| == if format.maps > 0 then format.maps else 0
    ensures forall i | 0 <= i < |maps| :: maps[i] == MapOf(s, unit, i + 1)
    ensures r.Ok? <==> s.done && AllGood(maps)
    ensures r.Ok? ==> |r.value| == |maps| && forall i | 0 <= i < |maps| ::
              r.value[i] == RushMap(i + 1, PathOf(maps[i].slots).value, maps[i].ctTeam.value)
  {
    hide MapOf; hide ValidPath; hide PathOf; hide NoRoomTwice; hide SlotRooms;
    maps := SeriesRoomMaps(s, format, unit);
    if !s.done {
      return Err("room veto is not finished"), maps;
    }
    var seen: set<Key> := {};
    assert NoRoomTwice(maps[..0]) by { NoMapsNoRepeat(); }
    var out: seq<RushMap> := [];
    var m := 0;
    while m < |maps|
      invariant 0 <= m <= |maps| && |out| == m
      invariant forall i | 0 <= i < m ::
                  MapGood(maps[i]) && out[i] == RushMap(i + 1, PathOf(maps[i].slots).value, maps[i].ctTeam.value)
      invariant NoRoomTwice(maps[..m]) && seen == RoomsSeen(maps, m)
    {
      if !MapGood(maps[m]) {
        return Err("map is not filled or breaks the pool rule"), maps;
      }
      GoodMapRooms(maps[m]);
      var repeat: Option<Key>;
      repeat, seen := SeeRooms(maps[m].slots, seen);
      if repeat.Some? {
        SeenTwice(maps, m, repeat.value);
        return Err("room is on more than one map"), maps;
      }
      StillUnique(maps, m);
      out := out + [RushMap(m + 1, PathOf(maps[m].slots).value, maps[m].ctTeam.value)];
      m := m + 1;
    }
    assert maps[..m] == maps;
    r := Ok(out);
  }

  lemma NoMapsNoRepeat()
    ensures NoRoomTwice([])
  {
  }

  lemma GoodMapRooms(map_: SeriesMap)
    requires MapGood(map_)
    ensures forall x: SlotIndex :: map_.slots[x].room.Some?
    ensures forall x: SlotIndex, y: SlotIndex | x != y :: map_.slots[x].room != map_.slots[y].room
  {
    forall x: SlotIndex, y: SlotIndex | x != y ensures map_.slots[x].room != map_.slots[y].room {
      MapGoodRooms(map_, x, y);
    }
  }
}
