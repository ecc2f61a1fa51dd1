/**
 * The room veto of a whole Rush series: which formats are accepted and the veto made from one
 * (packages/shared/src/veto/series-rooms.ts). The map number of a step is any number in the source. Here it counts
 * parts of a map, unit of them to a map, so unit 1 gives the formats with whole maps, and a larger unit those with
 * steps between two maps as well.
 */
module SeriesVeto {
  import opened Common
  import opened VetoEngine
  import opened RushRooms

  datatype Role = First | Second | FlipWinner | FlipLoser

  type StepKind = k: PhaseKind | k != Plain witness SidePhase

  datatype SeriesStep = SeriesStep(map_: int, kind: StepKind, role: Role)

  datatype SeriesFormat = SeriesFormat(maps: int, steps: seq<SeriesStep>)

  /** How many parts a map has. */
  type Parts = n: nat | n >= 1 witness 1

  /** Map m as the steps write it. */
  function At(unit: Parts, m: int): int {
    m * unit
  }

  lemma AtWhole(m: int)
    ensures At(1, m) == m
  {
  }

  /** Later maps are written higher. */
  lemma AtGrows(unit: Parts, m: int, n: int)
    ensures m < n ==> At(unit, m) < At(unit, n)
    ensures At(unit, m) == At(unit, n) <==> m == n
  {
    if m < n {
      assert At(unit, n) - At(unit, m) == (n - m) * unit;
    } else if n < m {
      assert At(unit, m) - At(unit, n) == (m - n) * unit;
    }
  }

  const MID_PER_MAP := 4

  function RoleTeam(role: Role, first: Team, flipWinner: Team): Team {
    match role
    case First => first
    case Second => Other(first)
    case FlipWinner => flipWinner
    case FlipLoser => Other(flipWinner)
  }

  function PhasePool(m: int, kind: StepKind): seq<Key> {
    match kind
    case SidePhase => [SideKey(m, CtSide), SideKey(m, TSide)]
    case MidPhase => MID_POOL
    case StartPhase => START_POOL
  }

  // ---------- Which formats are accepted ----------

  /** Steps of one kind on map m among the first n. */
  function CountKind(steps: seq<SeriesStep>, n: nat, m: int, kind: PhaseKind): nat
    requires n <= |steps|
  {
    if n == 0 then 0
    else CountKind(steps, n - 1, m, kind) + if steps[n - 1].map_ == m && steps[n - 1].kind == kind then 1 else 0
  }

  /** Steps on map m among the first n. */
  function CountOwn(steps: seq<SeriesStep>, n: nat, m: int): nat
    requires n <= |steps|
  {
    if n == 0 then 0 else CountOwn(steps, n - 1, m) + if steps[n - 1].map_ == m then 1 else 0
  }

  /** No step of map m among the first n comes before that map's side choice. */
  predicate SideFirst(steps: seq<SeriesStep>, n: nat, m: int)
    requires n <= |steps|
  {
    forall j | 0 <= j < n && steps[j].map_ == m && steps[j].kind == SidePhase :: CountOwn(steps, j, m) == 0
  }

  /** Map m, written at in the steps, has the right number of each kind and its side choice, if any, comes first. */
  predicate MapOk(format: SeriesFormat, m: int, at: int) {
    var steps := format.steps;
    var n := |steps|;
    && CountKind(steps, n, at, SidePhase) <= 1
    && (m == 1 ==> CountKind(steps, n, at, SidePhase) == 1)
    && CountKind(steps, n, at, StartPhase) == 1
    && CountKind(steps, n, at, MidPhase) <= MID_PER_MAP
    && (m < format.maps ==> CountKind(steps, n, at, MidPhase) == MID_PER_MAP)
    && SideFirst(steps, n, at)
  }

  /** Steps run map by map inside the series. */
  predicate MapByMap(format: SeriesFormat, unit: Parts, n: nat)
    requires n <= |format.steps|
  {
    && (forall i | 0 <= i < n :: unit <= format.steps[i].map_ <= At(unit, format.maps))
    && (forall i, j | 0 <= i < j < n :: format.steps[i].map_ <= format.steps[j].map_)
  }

  predicate SizesOk(format: SeriesFormat) {
    && format.maps >= 2
    && format.maps * MID_PER_MAP <= |MID_POOL|
    && format.maps <= |START_POOL|
  }

  predicate FormatOk(format: SeriesFormat, unit: Parts) {
    && SizesOk(format)
    && (forall m | 1 <= m <= format.maps :: MapOk(format, m, At(unit, m)))
    && MapByMap(format, unit, |format.steps|)
  }

  method CheckMap(format: SeriesFormat, m: int, at: int) returns (ok: bool)
    ensures ok == MapOk(format, m, at)
  {
    var steps := format.steps;
    var own, sides, starts, mids := 0, 0, 0, 0;
    var sideAt := -1;  // position of the first side choice among the map's own steps
    var i := 0;
    while i < |steps|
      invariant 0 <= i <= |steps|
      invariant own == CountOwn(steps, i, at) && sides == CountKind(steps, i, at, SidePhase)
      invariant starts == CountKind(steps, i, at, StartPhase) && mids == CountKind(steps, i, at, MidPhase)
      invariant sideAt >= -1 && (sideAt == -1 <==> sides == 0)
      invariant sides == 0 ==> SideFirst(steps, i, at)
      invariant sides == 1 ==> (SideFirst(steps, i, at) <==> sideAt == 0)
    {
      if steps[i].map_ == at {
        match steps[i].kind {
          case SidePhase =>
            if sides == 0 { sideAt := own; }
            sides := sides + 1;
          case StartPhase => starts := starts + 1;
          case MidPhase => mids := mids + 1;
        }
        own := own + 1;
      }
      i := i + 1;
    }
    ok := !(sides > 1) && !(m == 1 && sides == 0) && starts == 1 && !(mids > MID_PER_MAP)
      && !(m < format.maps && mids != MID_PER_MAP) && !(sideAt > 0);
  }

  method ValidateSeriesRoomFormat(format: SeriesFormat, unit: Parts) returns (ok: bool)
    ensures ok == FormatOk(format, unit)
  {
    if format.maps < 2 || format.maps * MID_PER_MAP > |MID_POOL| || format.maps > |START_POOL| {
      return false;
    }
    var m := 1;
    while m <= format.maps
      invariant 1 <= m <= format.maps + 1
      invariant forall k | 1 <= k < m :: MapOk(format, k, At(unit, k))
    {
      var good := CheckMap(format, m, At(unit, m));
      if !good {
        return false;
      }
      m := m + 1;
    }
    ok := CheckOrder(format, unit);
  }

  /** The loop over steps at the end of the validation. */
  method CheckOrder(format: SeriesFormat, unit: Parts) returns (ok: bool)
    ensures ok == MapByMap(format, unit, |format.steps|)
  {
    var low, high, last := unit, At(unit, format.maps), 0;
    var i := 0;
    while i < |format.steps|
      invariant 0 <= i <= |format.steps|
      invariant MapByMap(format, unit, i)
      invariant last == if i == 0 then 0 else format.steps[i - 1].map_
    {
      var s := format.steps[i];
      if s.map_ < low || s.map_ > high || s.map_ < last {
        return false;
      }
      last := s.map_;
      i := i + 1;
    }
    ok := true;
  }

  lemma {:induction false} CountKindHas(steps: seq<SeriesStep>, n: nat, m: int, kind: PhaseKind, i: nat)
    requires i < n <= |steps| && steps[i].map_ == m && steps[i].kind == kind
    ensures CountKind(steps, n, m, kind) > CountKind(steps, i, m, kind)
  {
    if i < n - 1 {
      CountKindHas(steps, n - 1, m, kind, i);
    }
  }

  // ---------- The veto made from a format ----------

  function PhaseFor(s: SeriesStep): Phase {
    Phase(PhasePool(s.map_, s.kind), s.map_, s.kind)
  }

  /** Index of the phase for map m and kind, or the number of phases. */
  function FindPhase(phases: seq<Phase>, m: int, kind: PhaseKind): (r: nat)
    ensures r <= |phases|
    ensures r < |phases| ==> phases[r].mapNumber == m && phases[r].kind == kind
  {
    if phases == [] then 0
    else if phases[0].mapNumber == m && phases[0].kind == kind then 0
    else 1 + FindPhase(phases[1..], m, kind)
  }

  /** Phases after the first n steps, one per map and kind in order of first use. */
  function PhasesUpTo(steps: seq<SeriesStep>, n: nat): seq<Phase>
    requires n <= |steps|
  {
    if n == 0 then []
    else
      var before := PhasesUpTo(steps, n - 1);
      var s := steps[n - 1];
      if FindPhase(before, s.map_, s.kind) < |before| then before else before + [PhaseFor(s)]
  }

  function StepFor(phases: seq<Phase>, s: SeriesStep, first: Team, flipWinner: Team): Step {
    Step(if s.kind == SidePhase then Side else Pick,
         RoleTeam(s.role, first, flipWinner), Some(FindPhase(phases, s.map_, s.kind)))
  }

  function StepAt(format: SeriesFormat, first: Team, flipWinner: Team, i: nat): Step
    requires i < |format.steps|
  {
    StepFor(PhasesUpTo(format.steps, |format.steps|), format.steps[i], first, flipWinner)
  }

  function StepsOf(format: SeriesFormat, first: Team, flipWinner: Team): seq<Step> {
    seq(|format.steps|, i requires 0 <= i < |format.steps| => StepAt(format, first, flipWinner, i))
  }

  /** Mid picks of team t on map m among the first n steps. */
  function TeamMids(format: SeriesFormat, first: Team, flipWinner: Team, m: int, t: Team, n: nat): nat
    requires n <= |format.steps|
  {
    if n == 0 then 0
    else
      var s := format.steps[n - 1];
      TeamMids(format, first, flipWinner, m, t, n - 1)
        + if s.map_ == m && s.kind == MidPhase && RoleTeam(s.role, first, flipWinner) == t then 1 else 0
  }

  predicate MidsFit(format: SeriesFormat, first: Team, flipWinner: Team, m: int) {
    && TeamMids(format, first, flipWinner, m, Team0, |format.steps|) <= 2
    && TeamMids(format, first, flipWinner, m, Team1, |format.steps|) <= 2
  }

  /** The pools of the first n phases joined, each key once. */
  function JoinedPool(phases: seq<Phase>, n: nat): (r: seq<Key>)
    requires n <= |phases|
  {
    if n == 0 then [] else
      var before := JoinedPool(phases, n - 1);
      AddNew(before, phases[n - 1].pool)
  }

  /** Appends the keys not yet present, in order. */
  function AddNew(a: seq<Key>, b: seq<Key>): (r: seq<Key>)
    ensures Elems(r) == Elems(a) + Elems(b)
    ensures Distinct(a) ==> Distinct(r)
    decreases |b|
  {
    if b == [] then a
    else
      var next := if b[0] in a then a else a + [b[0]];
      assert Elems(b) == {b[0]} + Elems(b[1..]);
      AddNew(next, b[1..])
  }

  /** A flip below one half makes team 0 the winner. */
  function FlipOf(draw: Draw): Team {
    if draw < 0.5 then Team0 else Team1
  }

  /** The veto itself, once format and picks are checked. */
  function MadeFrom(members: Teams, format: SeriesFormat, first: Team, flip: Team): Result<VetoState> {
    var phases := PhasesUpTo(format.steps, |format.steps|);
    match CreateVeto(JoinedPool(phases, |phases|), members, StepsOf(format, first, flip))
    case Err(e) => Err(e)
    case Ok(s) => Ok(s.(phases := phases))
  }

  predicate AllMidsFit(format: SeriesFormat, unit: Parts, first: Team, flip: Team) {
    forall m | 1 <= m <= format.maps :: MidsFit(format, first, flip, At(unit, m))
  }

  function CreateSeries(members: Teams, format: SeriesFormat, unit: Parts, first: Team, draw: Draw): Result<VetoState> {
    var flip := FlipOf(draw);
    if !FormatOk(format, unit) then Err("bad format")
    else if !AllMidsFit(format, unit, first, flip) then Err("more mid picks than slots")
    else MadeFrom(members, format, first, flip)
  }

  ghost predicate HasPhase(phases: seq<Phase>, s: SeriesStep) {
    FindPhase(phases, s.map_, s.kind) < |phases|
  }

  lemma {:induction false} PhasesGrow(steps: seq<SeriesStep>, i: nat, n: nat)
    requires i <= n <= |steps|
    ensures PhasesUpTo(steps, i) <= PhasesUpTo(steps, n)
  {
    if i < n {
      PhasesGrow(steps, i, n - 1);
    }
  }

  lemma {:induction false} FindInPrefix(a: seq<Phase>, b: seq<Phase>, m: int, kind: PhaseKind)
    requires a <= b && FindPhase(a, m, kind) < |a|
    ensures FindPhase(b, m, kind) == FindPhase(a, m, kind)
  {
    if a[0].mapNumber != m || a[0].kind != kind {
      assert b[0] == a[0];
      FindInPrefix(a[1..], b[1..], m, kind);
    }
  }

  lemma {:induction false} FindAppended(a: seq<Phase>, p: Phase)
    requires FindPhase(a, p.mapNumber, p.kind) == |a|
    ensures FindPhase(a + [p], p.mapNumber, p.kind) == |a|
  {
    if a != [] {
      assert (a + [p])[1..] == a[1..] + [p];
      FindAppended(a[1..], p);
    }
  }

  /** The phase a step finds or adds when it is reached is its phase for good. */
  lemma PhaseSettled(steps: seq<SeriesStep>, i: nat)
    requires i < |steps|
    ensures HasPhase(PhasesUpTo(steps, |steps|), steps[i])
    ensures FindPhase(PhasesUpTo(steps, i), steps[i].map_, steps[i].kind) ==
            FindPhase(PhasesUpTo(steps, |steps|), steps[i].map_, steps[i].kind)
  {
    var s, before, after, all := steps[i], PhasesUpTo(steps, i), PhasesUpTo(steps, i + 1), PhasesUpTo(steps, |steps|);
    PhasesGrow(steps, i + 1, |steps|);
    if FindPhase(before, s.map_, s.kind) == |before| {
      FindAppended(before, PhaseFor(s));
    }
    FindInPrefix(after, all, s.map_, s.kind);
  }

  /** One more step, with the phase it finds or adds. */
  lemma StepsExtend(format: SeriesFormat, first: Team, flipWinner: Team, i: nat)
    requires i < |format.steps|
    ensures var s := format.steps[i];
            var phase := FindPhase(PhasesUpTo(format.steps, i), s.map_, s.kind);
            StepsOf(format, first, flipWinner)[..i + 1] == StepsOf(format, first, flipWinner)[..i] +
              [Step(if s.kind == SidePhase then Side else Pick, RoleTeam(s.role, first, flipWinner), Some(phase))]
  {
    PhaseSettled(format.steps, i);
    hide FindPhase, PhasesUpTo, RoleTeam;
    assert StepsOf(format, first, flipWinner)[i] == StepAt(format, first, flipWinner, i);
  }

  method BuildSteps(format: SeriesFormat, first: Team, flipWinner: Team) returns (phases: seq<Phase>, steps: seq<Step>)
    ensures phases == PhasesUpTo(format.steps, |format.steps|)
    ensures steps == StepsOf(format, first, flipWinner)
  {
    phases, steps := [], [];
    var i := 0;
    while i < |format.steps|
      invariant 0 <= i <= |format.steps| && |steps| == i
      invariant phases == PhasesUpTo(format.steps, i)
      invariant steps == StepsOf(format, first, flipWinner)[..i]
    {
      hide FindPhase, RoleTeam, StepsOf;
      var s := format.steps[i];
      var phase := FindPhase(phases, s.map_, s.kind);
      StepsExtend(format, first, flipWinner, i);
      if phase == |phases| {
        phases := phases + [PhaseFor(s)];
      }
      steps := steps
        + [Step(if s.kind == SidePhase then Side else Pick, RoleTeam(s.role, first, flipWinner), Some(phase))];
      i := i + 1;
    }
  }

  method CreateSeriesRoomVeto(members: Teams, format: SeriesFormat, unit: Parts, first: Team, draw: Draw)
    returns (r: Result<VetoState>)
    ensures r == CreateSeries(members, format, unit, first, draw)
  {
    hide FormatOk, MidsFit, CreateVeto, JoinedPool, StepsOf, PhasesUpTo;
    var ok := ValidateSeriesRoomFormat(format, unit);
    if !ok {
      return Err("bad format");
    }
    var flipWinner := if draw < 0.5 then Team0 else Team1;
    var phases, steps := BuildSteps(format, first, flipWinner);
    var m := 1;
    while m <= format.maps
      invariant 1 <= m && (m <= format.maps + 1 || m == 1)
      invariant forall k | 1 <= k < m :: MidsFit(format, first, flipWinner, At(unit, k))
    {
      var fits := CountTeamMids(steps, phases, format, first, flipWinner, At(unit, m));
      if !fits {
        return Err("more mid picks than slots");
      }
      m := m + 1;
    }
    var made := CreateVeto(JoinedPool(phases, |phases|), members, steps);
    r := if made.Err? then made else Ok(made.value.(phases := phases));
  }

  /** The check that no team picks more mid rooms on map m than it has slots, over the steps just built. */
  method CountTeamMids(steps: seq<Step>, phases: seq<Phase>, format: SeriesFormat, first: Team, flipWinner: Team,
      m: int)
    returns (fits: bool)
    requires phases == PhasesUpTo(format.steps, |format.steps|) && steps == StepsOf(format, first, flipWinner)
    ensures fits == MidsFit(format, first, flipWinner, m)
  {
    var picks0, picks1 := 0, 0;
    var i := 0;
    while i < |steps|
      invariant 0 <= i <= |steps|
      invariant picks0 == TeamMids(format, first, flipWinner, m, Team0, i)
      invariant picks1 == TeamMids(format, first, flipWinner, m, Team1, i)
    {
      PhaseSettled(format.steps, i);
      var phase := phases[steps[i].phase.value];
      if phase.mapNumber == m && phase.kind == MidPhase {
        if steps[i].team == Team0 { picks0 := picks0 + 1; } else { picks1 := picks1 + 1; }
      }
      i := i + 1;
    }
    fits := picks0 <= 2 && picks1 <= 2;
  }
}
