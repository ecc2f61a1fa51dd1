/** The format of a Rush best of three (packages/shared/src/config/rush-veto.ts). */
module DefaultSeries {
  import opened Common
  import opened VetoEngine
  import opened RushRooms
  import opened SeriesVeto
  import opened SeriesRooms
  import opened SeriesExact

  const RUSH_SERIES_ROOM_VETO := SeriesFormat(3, [
    SeriesStep(1, SidePhase, Second), SeriesStep(1, MidPhase, First), SeriesStep(1, MidPhase, Second),
    SeriesStep(1, MidPhase, First), SeriesStep(1, MidPhase, Second), SeriesStep(1, StartPhase, Second),
    SeriesStep(2, MidPhase, Second), SeriesStep(2, MidPhase, First), SeriesStep(2, MidPhase, Second),
    SeriesStep(2, MidPhase, First), SeriesStep(2, StartPhase, First),
    SeriesStep(3, SidePhase, FlipWinner), SeriesStep(3, MidPhase, FlipLoser), SeriesStep(3, MidPhase, FlipLoser),
    SeriesStep(3, StartPhase, FlipWinner)])

  /** Steps of one kind on map m among the first n of the format, read off its table. */
  function Tabled(n: nat, m: int, kind: PhaseKind): nat {
    match kind
    case SidePhase => if m == 1 then Block(n, 0, 1) else if m == 3 then Block(n, 11, 1) else 0
    case MidPhase =>
      if m == 1 then Block(n, 1, 4) else if m == 2 then Block(n, 6, 4) else if m == 3 then Block(n, 12, 2) else 0
    case StartPhase =>
      if m == 1 then Block(n, 5, 1) else if m == 2 then Block(n, 10, 1) else if m == 3 then Block(n, 14, 1) else 0
    case Plain => 0
  }

  lemma StepTabled(n: nat, m: int, kind: PhaseKind)
    requires n < 15
    ensures var st := RUSH_SERIES_ROOM_VETO.steps[n];
            Tabled(n + 1, m, kind) == Tabled(n, m, kind) + if st.map_ == m && st.kind == kind then 1 else 0
  {
  }

  lemma {:induction false} Counts(n: nat, m: int, kind: PhaseKind)
    requires n <= 15
    ensures CountKind(RUSH_SERIES_ROOM_VETO.steps, n, m, kind) == Tabled(n, m, kind)
  {
    if n > 0 {
      Counts(n - 1, m, kind);
      StepTabled(n - 1, m, kind);
      hide Tabled;
    }
  }

  lemma {:induction false} OwnNone(steps: seq<SeriesStep>, n: nat, m: int)
    requires n <= |steps| && forall j | 0 <= j < n :: steps[j].map_ != m
    ensures CountOwn(steps, n, m) == 0
  {
    if n > 0 {
      OwnNone(steps, n - 1, m);
    }
  }

  lemma SidesFirst(m: int)
    ensures SideFirst(RUSH_SERIES_ROOM_VETO.steps, 15, m)
  {
    hide CountOwn;
    var steps := RUSH_SERIES_ROOM_VETO.steps;
    forall j | 0 <= j < 15 && steps[j].map_ == m && steps[j].kind == SidePhase ensures CountOwn(steps, j, m) == 0 {
      assert j == 0 || j == 11;
      OwnNone(steps, j, m);
    }
  }

  lemma DefaultFormatOk()
    ensures FormatOk(RUSH_SERIES_ROOM_VETO, 1)
  {
    hide CountKind, SideFirst;
    var f := RUSH_SERIES_ROOM_VETO;
    assert |f.steps| == 15;
    forall m | 1 <= m <= 3 ensures MapOk(f, m, At(1, m)) {
      AtWhole(m);
      Counts(15, m, SidePhase);
      Counts(15, m, MidPhase);
      Counts(15, m, StartPhase);
      SidesFirst(m);
    }
    hide MapOk;
    assert MapByMap(f, 1, 15);
  }

  /** Mid picks on map m of a team that is the first one or not, and won the flip or not. */
  function TeamTabled(n: nat, m: int, first: bool, flip: bool): nat {
    if m == 1 then (if first then Block(n, 1, 1) + Block(n, 3, 1) else Block(n, 2, 1) + Block(n, 4, 1))
    else if m == 2 then (if first then Block(n, 7, 1) + Block(n, 9, 1) else Block(n, 6, 1) + Block(n, 8, 1))
    else if m == 3 then (if flip then 0 else Block(n, 12, 2))
    else 0
  }

  lemma TeamStepTabled(n: nat, m: int, t: Team, first: Team, flip: Team)
    requires n < 15
    ensures var st := RUSH_SERIES_ROOM_VETO.steps[n];
            TeamTabled(n + 1, m, t == first, t == flip) == TeamTabled(n, m, t == first, t == flip) +
              if st.map_ == m && st.kind == MidPhase && RoleTeam(st.role, first, flip) == t then 1 else 0
  {
    assert t == first <==> t != Other(first);
    assert t == flip <==> t != Other(flip);
  }

  lemma {:induction false} TeamCounts(n: nat, m: int, t: Team, first: Team, flip: Team)
    requires n <= 15
    ensures TeamMids(RUSH_SERIES_ROOM_VETO, first, flip, m, t, n) == TeamTabled(n, m, t == first, t == flip)
  {
    if n > 0 {
      TeamCounts(n - 1, m, t, first, flip);
      TeamStepTabled(n - 1, m, t, first, flip);
      hide TeamTabled, RoleTeam;
    }
  }

  /** The veto of the shipped format is made for every first team, flip and members with no repeats, so everything
      proved of series vetoes with whole maps holds of the one the site runs. */
  lemma DefaultIsCreated(u: Setup)
    requires u.format == RUSH_SERIES_ROOM_VETO && u.unit == 1 && !HasRepeats(u.members.team0 + u.members.team1)
    ensures Created(u).Ok?
  {
    DefaultFormatOk();
    hide FormatOk, CreateSeries, TeamMids;
    forall m | 1 <= m <= 3 ensures MidsFit(u.format, u.first, u.Flip(), At(1, m)) {
      AtWhole(m);
      TeamCounts(15, m, Team0, u.first, u.Flip());
      TeamCounts(15, m, Team1, u.first, u.Flip());
    }
    WholeCreatedIff(u);
  }
}
