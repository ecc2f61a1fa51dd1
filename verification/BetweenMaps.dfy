/**
 * Series formats with steps between two maps, which the validation accepts (packages/shared/src/veto/series-rooms.ts):
 * two maps with any number of mid steps for a map 1.5 in between. Step maps are in halves of a map.
 */
module BetweenMaps {
  import opened Common
  import opened VetoEngine
  import opened RushRooms
  import opened SeriesVeto
  import opened SeriesRooms
  import opened SeriesExact
  import opened SeriesDone

  const FIRST_MAP := [
    SeriesStep(2, SidePhase, Second), SeriesStep(2, MidPhase, First), SeriesStep(2, MidPhase, Second),
    SeriesStep(2, MidPhase, First), SeriesStep(2, MidPhase, Second), SeriesStep(2, StartPhase, Second)]

  /** All of map 1, k mid steps on map 1.5, and the start step of map 2. */
  function Between(k: nat): SeriesFormat {
    SeriesFormat(2, FIRST_MAP + seq(k, i => SeriesStep(3, MidPhase, First)) + [SeriesStep(4, StartPhase, First)])
  }

  function StepMap(k: nat, n: nat): int {
    if n < 6 then 2 else if n < 6 + k then 3 else 4
  }

  function KindOf(k: nat, n: nat): StepKind {
    if n == 0 then SidePhase else if n == 5 || n >= 6 + k then StartPhase else MidPhase
  }

  function RoleOf(n: nat): Role {
    if n == 0 || n == 2 || n == 4 || n == 5 then Second else First
  }

  lemma Entry(k: nat, n: nat)
    requires n < 7 + k
    ensures |Between(k).steps| == 7 + k
    ensures Between(k).steps[n] == SeriesStep(StepMap(k, n), KindOf(k, n), RoleOf(n))
  {
  }

  // ---------- Counts ----------

  /** Steps of one kind on a map among the first n. */
  function Tabled(k: nat, n: nat, at: int, kind: PhaseKind): nat {
    match kind
    case SidePhase => if at == 2 then Block(n, 0, 1) else 0
    case MidPhase => if at == 2 then Block(n, 1, 4) else if at == 3 then Block(n, 6, k) else 0
    case StartPhase => if at == 2 then Block(n, 5, 1) else if at == 4 then Block(n, 6 + k, 1) else 0
    case Plain => 0
  }

  lemma TabledStep(k: nat, n: nat, at: int, kind: PhaseKind)
    requires n < 7 + k
    ensures Tabled(k, n + 1, at, kind) ==
            Tabled(k, n, at, kind) + if StepMap(k, n) == at && KindOf(k, n) == kind then 1 else 0
  {
  }

  lemma {:induction false} Counts(k: nat, n: nat, at: int, kind: PhaseKind)
    requires n <= 7 + k == |Between(k).steps|
    ensures CountKind(Between(k).steps, n, at, kind) == Tabled(k, n, at, kind)
  {
    if n > 0 {
      Counts(k, n - 1, at, kind);
      TabledStep(k, n - 1, at, kind);
      Entry(k, n - 1);
      hide Tabled, StepMap, KindOf, Between;
    }
  }

  /** Mid steps on all maps among the first n. */
  lemma {:induction false} Totals(k: nat, n: nat)
    requires n <= 7 + k == |Between(k).steps|
    ensures TotalKind(Between(k).steps, n, MidPhase) == Block(n, 1, 4) + Block(n, 6, k)
    ensures TotalKind(Between(k).steps, n, StartPhase) == Block(n, 5, 1) + Block(n, 6 + k, 1)
  {
    if n > 0 {
      Totals(k, n - 1);
      Entry(k, n - 1);
      hide Between;
    }
  }

  function TeamTabled(n: nat, at: int, isFirst: bool): nat {
    if at != 2 then 0 else if isFirst then Block(n, 1, 1) + Block(n, 3, 1) else Block(n, 2, 1) + Block(n, 4, 1)
  }

  lemma TeamTabledStep(k: nat, n: nat, at: int, t: Team, first: Team, flip: Team)
    requires n < 7 + k && at != 3
    ensures TeamTabled(n + 1, at, t == first) == TeamTabled(n, at, t == first) +
              if StepMap(k, n) == at && KindOf(k, n) == MidPhase && RoleTeam(RoleOf(n), first, flip) == t then 1 else 0
  {
    assert t == first <==> t != Other(first);
  }

  lemma {:induction false} TeamCounts(k: nat, n: nat, at: int, t: Team, first: Team, flip: Team)
    requires n <= 7 + k == |Between(k).steps| && at != 3
    ensures TeamMids(Between(k), first, flip, at, t, n) == TeamTabled(n, at, t == first)
  {
    if n > 0 {
      TeamCounts(k, n - 1, at, t, first, flip);
      TeamTabledStep(k, n - 1, at, t, first, flip);
      Entry(k, n - 1);
      hide TeamTabled, StepMap, KindOf, RoleOf, RoleTeam, Between;
    }
  }

  // ---------- Accepted, made, finished, good ----------

  lemma OneMapOk(k: nat, m: int)
    requires m == 1 || m == 2
    ensures MapOk(Between(k), m, At(2, m))
  {
    var at, n := At(2, m), 7 + k;
    Entry(k, 0);
    Counts(k, n, at, SidePhase);
    Counts(k, n, at, MidPhase);
    Counts(k, n, at, StartPhase);
    hide CountKind;
    forall j | 0 <= j < n && Between(k).steps[j].map_ == at && Between(k).steps[j].kind == SidePhase
      ensures CountOwn(Between(k).steps, j, at) == 0
    {
      Entry(k, j);
    }
  }

  lemma Accepted(k: nat)
    ensures FormatOk(Between(k), 2)
  {
    Entry(k, 0);
    OneMapOk(k, 1);
    OneMapOk(k, 2);
    hide MapOk;
    forall i | 0 <= i < 7 + k ensures Between(k).steps[i].map_ == StepMap(k, i) {
      Entry(k, i);
    }
    hide Between;
    assert MapByMap(Between(k), 2, 7 + k);
  }

  lemma PoolHasEighteen(k: nat)
    ensures |PoolOf(Between(k))| >= 18
  {
    Entry(k, 0);
    Counts(k, 7 + k, 2, SidePhase);
    Counts(k, 7 + k, 2, MidPhase);
    Counts(k, 7 + k, 2, StartPhase);
    hide CountKind, PoolOf, Between;
    PoolAtLeast(Between(k), 2, 4);
  }

  lemma FitIff(k: nat)
    ensures StepsFit(Between(k).steps) <==> k <= 8
  {
    var steps, n := Between(k).steps, 7 + k;
    Entry(k, 1);
    Totals(k, n);
    Counts(k, n, 2, SidePhase);
    hide CountKind, TotalKind;
    assert steps[1].kind == MidPhase && SameCount(steps, n, steps[1].map_, MidPhase) == 4 + k;
    forall i | 0 <= i < n && k <= 8
      ensures SameCount(steps, n, steps[i].map_, steps[i].kind) <= PoolLimit(steps[i].kind)
    {
      Entry(k, i);
    }
  }

  /** Up to ten such steps the veto is made. */
  lemma BetweenIsMade(u: Setup, k: nat)
    requires u.format == Between(k) && u.unit == 2 && !HasRepeats(u.members.team0 + u.members.team1)
    ensures k <= 10 ==> Created(u).Ok?
  {
    Accepted(k);
    PoolHasEighteen(k);
    Entry(k, 0);
    hide FormatOk, CreateSeries, TeamMids, PoolOf, Between;
    forall m | 1 <= m <= 2 ensures MidsFit(u.format, u.first, u.Flip(), At(2, m)) {
      TeamCounts(k, 7 + k, At(2, m), Team0, u.first, u.Flip());
      TeamCounts(k, 7 + k, At(2, m), Team1, u.first, u.Flip());
    }
    assert u.format.maps == 2;
    CreatedIff(u);
  }

  /**
   * What becomes of it. Up to eight steps between the maps any run can be finished, with nine or more none is. Up to
   * four every finished veto passes the last check, with five or more none does: map 2 is not filled.
   */
  lemma BetweenEndsIn(u: Setup, k: nat, events: seq<Event>, draws: seq<Draw>)
    requires u.format == Between(k) && u.unit == 2 && Created(u).Ok?
    ensures var s := After(u, events);
            && (k <= 8 && |draws| + s.stepIndex == |s.steps| ==> Run(s, Timeouts(draws)).done)
            && (s.done ==> k <= 8)
            && (s.done ==> (AllGood(MapsOf(s, u)) <==> k <= 4))
  {
    var s := After(u, events);
    FitIff(k);
    LastIff(u, k);
    hide Between, StepsFit, LastFills, Created, AllGood, MapsOf;
    FinishesIff(u, events);
    SeriesRuns(u, events);
    if s.done {
      FinishedSeriesIsGood(s, u);
    }
  }

  lemma LastIff(u: Setup, k: nat)
    requires u.format == Between(k) && u.unit == 2
    ensures u.format.maps == 2 && (LastFills(u) <==> k <= 4)
  {
    Entry(k, 0);
    Totals(k, 7 + k);
    Counts(k, 7 + k, 4, MidPhase);
    hide CountKind, TotalKind;
  }
}
