/**
 * Exactly which series vetoes are made and which can be finished (packages/shared/src/veto/series-rooms.ts), for step
 * maps of any kind.
 */
module SeriesExact {
  import opened Common
  import opened VetoEngine
  import opened RushRooms
  import opened SeriesVeto
  import opened SeriesRooms

  // ---------- Counts of steps ----------

  /** Steps of one kind on any map among the first n. */
  function TotalKind(steps: seq<SeriesStep>, n: nat, kind: StepKind): nat
    requires n <= |steps|
  {
    if n == 0 then 0 else TotalKind(steps, n - 1, kind) + if steps[n - 1].kind == kind then 1 else 0
  }

  /** The same count, map by map up to map m. */
  function SumKind(steps: seq<SeriesStep>, n: nat, kind: StepKind, m: nat): nat
    requires n <= |steps|
  {
    if m == 0 then 0 else SumKind(steps, n, kind, m - 1) + CountKind(steps, n, m, kind)
  }

  lemma {:induction false} SumKindStep(steps: seq<SeriesStep>, n: nat, kind: StepKind, m: nat)
    requires 0 < n <= |steps|
    ensures SumKind(steps, n, kind, m) == SumKind(steps, n - 1, kind, m) +
              if steps[n - 1].kind == kind && 1 <= steps[n - 1].map_ <= m then 1 else 0
  {
    if m > 0 {
      SumKindStep(steps, n, kind, m - 1);
    }
  }

  lemma {:induction false} TotalIsSum(steps: seq<SeriesStep>, n: nat, kind: StepKind, m: nat)
    requires n <= |steps| && forall i | 0 <= i < n :: 1 <= steps[i].map_ <= m
    ensures TotalKind(steps, n, kind) == SumKind(steps, n, kind, m)
  {
    if n == 0 {
      SumOfNone(steps, kind, m);
    } else {
      TotalIsSum(steps, n - 1, kind, m);
      SumKindStep(steps, n, kind, m);
    }
  }

  lemma SumOfNone(steps: seq<SeriesStep>, kind: StepKind, m: nat)
    ensures SumKind(steps, 0, kind, m) == 0
  {
  }

  lemma {:induction false} SumBound(steps: seq<SeriesStep>, kind: StepKind, m: nat, each: nat)
    requires forall k | 1 <= k <= m :: CountKind(steps, |steps|, k, kind) <= each
    ensures SumKind(steps, |steps|, kind, m) <= each * m
  {
    if m > 0 {
      SumBound(steps, kind, m - 1, each);
      assert each * m == each * (m - 1) + each;
    }
  }

  /** An accepted format with whole maps never picks more mid or start rooms than there are, and before the last map
      at most eight mid rooms. */
  lemma TotalsFit(format: SeriesFormat)
    requires FormatOk(format, 1)
    ensures TotalKind(format.steps, |format.steps|, MidPhase)
            <= 4 * (format.maps - 1) + CountKind(format.steps, |format.steps|, format.maps, MidPhase)
    ensures TotalKind(format.steps, |format.steps|, MidPhase) <= 12
    ensures TotalKind(format.steps, |format.steps|, StartPhase) <= 4
  {
    var steps, n, maps := format.steps, |format.steps|, format.maps;
    forall m | 1 <= m <= maps ensures CountKind(steps, n, m, MidPhase) <= 4 && CountKind(steps, n, m, StartPhase) <= 1 {
      WholeMap(format, m);
    }
    TotalIsSum(steps, n, MidPhase, maps);
    TotalIsSum(steps, n, StartPhase, maps);
    SumBound(steps, MidPhase, maps - 1, 4);
    SumBound(steps, StartPhase, maps, 1);
  }

  lemma WholeMap(format: SeriesFormat, m: nat)
    requires FormatOk(format, 1) && 1 <= m <= format.maps
    ensures MapOk(format, m, m)
  {
    assert MapOk(format, m, At(1, m));
  }

  lemma PoolKey(m: int, kind: StepKind, k: Key)
    ensures k in PhasePool(m, kind) <==>
            match kind
            case SidePhase => k.SideKey? && k.mapNumber == m
            case MidPhase => k.Room? && 201 <= k.id <= 212
            case StartPhase => k.Room? && 101 <= k.id <= 104
  {
    match kind
    case SidePhase =>
      assert PhasePool(m, kind) == [SideKey(m, CtSide), SideKey(m, TSide)];
      if k.SideKey? {
        match k.side case CtSide => case TSide =>
      }
    case MidPhase =>
      assert PhasePool(m, kind) == MID_POOL;
      PoolMembers();
    case StartPhase =>
      assert PhasePool(m, kind) == START_POOL;
      PoolMembers();
  }

  lemma PoolsApart(m: int, kind: StepKind, n: int, other: StepKind)
    requires kind != other || (kind == SidePhase && m != n)
    ensures Elems(PhasePool(m, kind)) !! Elems(PhasePool(n, other))
  {
    forall k | k in PhasePool(m, kind) ensures k !in PhasePool(n, other) {
      PoolKey(m, kind, k);
      PoolKey(n, other, k);
    }
  }

  lemma PoolSize(m: int, kind: StepKind)
    ensures |Elems(PhasePool(m, kind))| == match kind case SidePhase => 2 case MidPhase => 12 case StartPhase => 4
  {
    PoolMembers();
    if kind == SidePhase {
      assert Elems(PhasePool(m, kind)) == {SideKey(m, CtSide), SideKey(m, TSide)};
    }
  }

  lemma {:induction false} KindMono(steps: seq<SeriesStep>, i: nat, n: nat, m: int, kind: StepKind)
    requires i <= n <= |steps|
    ensures CountKind(steps, i, m, kind) <= CountKind(steps, n, m, kind)
            && TotalKind(steps, i, kind) <= TotalKind(steps, n, kind)
  {
    if i < n {
      KindMono(steps, i, n - 1, m, kind);
    }
  }

  /** How many of len places from a first one on are among the first n. */
  function Block(n: nat, from: nat, len: nat): nat {
    if n <= from then 0 else if n - from <= len then n - from else len
  }

  // ---------- Which can be finished ----------

  /** Steps among the first n that take from the pool of map m and kind. */
  function SameCount(steps: seq<SeriesStep>, n: nat, m: int, kind: StepKind): nat
    requires n <= |steps|
  {
    if kind == SidePhase then CountKind(steps, n, m, kind) else TotalKind(steps, n, kind)
  }

  function PoolLimit(kind: StepKind): nat {
    match kind
    case SidePhase => 2
    case MidPhase => 12
    case StartPhase => 4
  }

  /** No more mid steps than mid rooms, start steps than start rooms, or side steps on one number than two. */
  predicate StepsFit(steps: seq<SeriesStep>) {
    forall i | 0 <= i < |steps| :: SameCount(steps, |steps|, steps[i].map_, steps[i].kind) <= PoolLimit(steps[i].kind)
  }

  predicate Same(st: SeriesStep, m: int, kind: StepKind) {
    st.kind == kind && (kind == SidePhase ==> st.map_ == m)
  }

  lemma SameStep(steps: seq<SeriesStep>, n: nat, m: int, kind: StepKind)
    requires 0 < n <= |steps|
    ensures SameCount(steps, n, m, kind) ==
            SameCount(steps, n - 1, m, kind) + if Same(steps[n - 1], m, kind) then 1 else 0
    ensures if Same(steps[n - 1], m, kind) then PhasePool(steps[n - 1].map_, steps[n - 1].kind) == PhasePool(m, kind)
            else Elems(PhasePool(steps[n - 1].map_, steps[n - 1].kind)) !! Elems(PhasePool(m, kind))
  {
    hide PhasePool;
    var st := steps[n - 1];
    if !Same(st, m, kind) {
      PoolsApart(st.map_, st.kind, m, kind);
    } else {
      SamePool(st, m, kind);
    }
  }

  lemma SamePool(st: SeriesStep, m: int, kind: StepKind)
    requires Same(st, m, kind)
    ensures PhasePool(st.map_, st.kind) == PhasePool(m, kind)
  {
  }

  lemma {:induction false} SameMono(steps: seq<SeriesStep>, i: nat, n: nat, m: int, kind: StepKind)
    requires i <= n <= |steps|
    ensures SameCount(steps, i, m, kind) <= SameCount(steps, n, m, kind)
  {
    KindMono(steps, i, n, m, kind);
  }

  /** Exactly the steps of the same map and kind take from a pool, and they take from nothing else. */
  lemma {:induction false} PoolUse(s: VetoState, u: Setup, m: int, kind: StepKind, j: nat)
    requires SeriesRun(s, u) && j <= |s.steps| == |u.Steps()|
    ensures Meets(s, Elems(PhasePool(m, kind)), j) <= SameCount(u.Steps(), j, m, kind)
    ensures Inside(s, Elems(PhasePool(m, kind)), j) >= SameCount(u.Steps(), j, m, kind)
  {
    hide SeriesRun, PhasePool, StepPool, SameCount, Same;
    if j == 0 {
      NoneYet(u.Steps(), m, kind);
    } else {
      PoolUse(s, u, m, kind, j - 1);
      StepIs(s, u, j - 1);
      SameStep(u.Steps(), j, m, kind);
    }
  }

  lemma NoneYet(steps: seq<SeriesStep>, m: int, kind: StepKind)
    ensures SameCount(steps, 0, m, kind) == 0
  {
  }

  lemma StepCovered(s: VetoState, u: Setup, k: nat)
    requires SeriesRun(s, u) && StepsFit(u.Steps()) && k < |s.steps|
    ensures Meets(s, StepPool(s, k), k) < |StepPool(s, k) * Elems(s.pool)|
  {
    hide SeriesRun, PhasePool, StepPool, SameCount;
    StepIs(s, u, k);
    var st := u.Steps()[k];
    PoolUse(s, u, st.map_, st.kind, k);
    SameStep(u.Steps(), k + 1, st.map_, st.kind);
    SameMono(u.Steps(), k + 1, |u.Steps()|, st.map_, st.kind);
    PoolSize(st.map_, st.kind);
    assert StepPool(s, k) * Elems(s.pool) == StepPool(s, k);
  }

  /** In a veto whose steps fit every step always has something left to take. */
  lemma SeriesCoverable(s: VetoState, u: Setup)
    requires SeriesRun(s, u) && StepsFit(u.Steps())
    ensures Coverable(s)
  {
    forall k | 0 <= k < |s.steps| ensures Meets(s, StepPool(s, k), k) < |StepPool(s, k) * Elems(s.pool)| {
      StepCovered(s, u, k);
    }
  }

  /** A finished veto took a different thing in each step, so the steps fit. */
  lemma DoneFits(s: VetoState, u: Setup)
    requires SeriesRun(s, u) && s.done
    ensures StepsFit(u.Steps())
  {
    var steps := u.Steps();
    assert |s.history| == |s.steps| == |steps|;
    hide SameCount, PhasePool, StepPool, FormatOk, AllMidsFit;
    forall i | 0 <= i < |steps|
      ensures SameCount(steps, |steps|, steps[i].map_, steps[i].kind) <= PoolLimit(steps[i].kind)
    {
      var pool := Elems(PhasePool(steps[i].map_, steps[i].kind));
      PoolUse(s, u, steps[i].map_, steps[i].kind, |steps|);
      TakenAtLeast(s, pool, |steps|);
      SubsetCard(Items(s.history[..|steps|]) * pool, pool);
      PoolSize(steps[i].map_, steps[i].kind);
    }
  }

  /**
   * Which vetoes that were made can be finished: exactly those whose steps fit their pools. With steps that fit, any
   * state of any run can be finished, by timeouts alone. Otherwise no run ever is, so some step throws.
   */
  lemma FinishesIff(u: Setup, events: seq<Event>)
    requires Created(u).Ok?
    ensures var s := Run(Created(u).value, events);
            && (StepsFit(u.Steps()) ==> Inv(s) && Coverable(s))
            && (StepsFit(u.Steps()) ==>
                  forall draws | |draws| + s.stepIndex == |s.steps| :: Run(s, Timeouts(draws)).done)
            && (s.done ==> StepsFit(u.Steps()))
  {
    SeriesRuns(u, events);
    var s := Run(Created(u).value, events);
    hide FormatOk, AllMidsFit, StepsFit, Inv, Timeouts, Created;
    if s.done {
      DoneFits(s, u);
    }
    if StepsFit(u.Steps()) {
      SeriesCoverable(s, u);
      forall draws | |draws| + s.stepIndex == |s.steps| ensures Run(s, Timeouts(draws)).done {
        TimeoutsFinish(s, draws);
      }
    }
  }

  /** Steps on whole maps only always fit. */
  lemma WholeFits(format: SeriesFormat)
    requires FormatOk(format, 1)
    ensures StepsFit(format.steps)
  {
    TotalsFit(format);
    forall i | 0 <= i < |format.steps|
      ensures SameCount(format.steps, |format.steps|, format.steps[i].map_, format.steps[i].kind)
              <= PoolLimit(format.steps[i].kind)
    {
      WholeMap(format, format.steps[i].map_);
    }
  }

  // ---------- Which are made ----------

  lemma {:induction false} JoinedDistinct(phases: seq<Phase>, n: nat)
    requires n <= |phases|
    ensures Distinct(JoinedPool(phases, n))
  {
    if n > 0 {
      JoinedDistinct(phases, n - 1);
    }
  }

  function PoolOf(format: SeriesFormat): seq<Key> {
    var phases := PhasesUpTo(format.steps, |format.steps|);
    JoinedPool(phases, |phases|)
  }

  /** A veto is made exactly for an accepted format with mid picks that fit and members with no repeats, as long as the
      pool is larger than the number of steps. */
  lemma CreatedIff(u: Setup)
    ensures Created(u).Ok? <==>
              && FormatOk(u.format, u.unit) && AllMidsFit(u.format, u.unit, u.first, u.Flip())
              && !HasRepeats(u.members.team0 + u.members.team1) && |u.Steps()| < |PoolOf(u.format)|
  {
    hide FormatOk, AllMidsFit, PhasesUpTo, JoinedPool;
    var phases := PhasesUpTo(u.Steps(), |u.Steps()|);
    JoinedDistinct(phases, |phases|);
  }

  lemma PoolHolds(format: SeriesFormat, i: nat)
    requires i < |format.steps|
    ensures Elems(PhasePool(format.steps[i].map_, format.steps[i].kind)) <= Elems(PoolOf(format))
  {
    var st, phases := format.steps[i], PhasesUpTo(format.steps, |format.steps|);
    PhaseSettled(format.steps, i);
    PhasesHavePools(format.steps, |format.steps|);
    JoinedHas(phases, |phases|, FindPhase(phases, st.map_, st.kind));
  }

  lemma KindInPool(format: SeriesFormat, m: int, kind: StepKind)
    requires CountKind(format.steps, |format.steps|, m, kind) > 0
    ensures Elems(PhasePool(m, kind)) <= Elems(PoolOf(format))
  {
    var i := CountPositive(format.steps, |format.steps|, m, kind);
    PoolHolds(format, i);
  }

  lemma {:induction false} KindsAdd(steps: seq<SeriesStep>, n: nat)
    requires n <= |steps|
    ensures TotalKind(steps, n, SidePhase) + TotalKind(steps, n, MidPhase) + TotalKind(steps, n, StartPhase) == n
  {
    if n > 0 {
      KindsAdd(steps, n - 1);
      var kind := steps[n - 1].kind;
      assert kind == SidePhase || kind == MidPhase || kind == StartPhase;
    }
  }

  function SideKeys(m: int): set<Key> {
    {SideKey(m, CtSide), SideKey(m, TSide)}
  }

  lemma RoomsAndSides(m: int, n: int)
    requires m != n
    ensures |Elems(MID_POOL) + Elems(START_POOL) + SideKeys(m)| == 18
    ensures |Elems(MID_POOL) + Elems(START_POOL) + SideKeys(m) + SideKeys(n)| == 20
  {
    PoolMembers();
    assert Elems(MID_POOL) !! Elems(START_POOL);
    var rooms := Elems(MID_POOL) + Elems(START_POOL);
    assert |rooms| == 16;
    assert rooms !! SideKeys(m) && (rooms + SideKeys(m)) !! SideKeys(n);
    assert |SideKeys(m)| == 2 && |SideKeys(n)| == 2;
  }

  /** How many steps an accepted format can have. */
  lemma StepsAtMost(format: SeriesFormat)
    requires FormatOk(format, 1)
    ensures format.maps == 2 || format.maps == 3
    ensures |format.steps| <= 16 + CountKind(format.steps, |format.steps|, 2, SidePhase) + One(format.maps == 3)
  {
    var steps, n := format.steps, |format.steps|;
    assert |MID_POOL| == 12;
    forall m | 1 <= m <= format.maps
      ensures CountKind(steps, n, m, SidePhase) <= 1 && CountKind(steps, n, m, StartPhase) <= 1
    {
      WholeMap(format, m);
    }
    TotalsFit(format);
    hide MapOk;
    KindsAdd(steps, n);
    TotalIsSum(steps, n, SidePhase, format.maps);
    TotalIsSum(steps, n, StartPhase, format.maps);
    SumBound(steps, StartPhase, format.maps, 1);
    hide CountKind, TotalKind;
    assert SumKind(steps, n, SidePhase, 1) == SumKind(steps, n, SidePhase, 0) + CountKind(steps, n, 1, SidePhase);
    assert SumKind(steps, n, SidePhase, 2) == SumKind(steps, n, SidePhase, 1) + CountKind(steps, n, 2, SidePhase);
    assert SumKind(steps, n, SidePhase, 3) == SumKind(steps, n, SidePhase, 2) + CountKind(steps, n, 3, SidePhase);
  }

  function One(b: bool): nat {
    if b then 1 else 0
  }

  /** What a format with a side, a mid and a start step on map m has in its pool, and with a side step on map n. */
  lemma PoolAtLeast(format: SeriesFormat, m: int, n: int)
    requires m != n && CountKind(format.steps, |format.steps|, m, SidePhase) > 0
    requires CountKind(format.steps, |format.steps|, m, MidPhase) > 0
    requires CountKind(format.steps, |format.steps|, m, StartPhase) > 0
    ensures |PoolOf(format)| >= 18
    ensures CountKind(format.steps, |format.steps|, n, SidePhase) > 0 ==> |PoolOf(format)| >= 20
  {
    var phases := PhasesUpTo(format.steps, |format.steps|);
    JoinedDistinct(phases, |phases|);
    DistinctCard(PoolOf(format));
    hide CountKind, PoolOf, PhasesUpTo, JoinedPool;
    KindInPool(format, m, SidePhase);
    KindInPool(format, m, MidPhase);
    KindInPool(format, m, StartPhase);
    assert Elems(PhasePool(m, SidePhase)) == SideKeys(m) && Elems(PhasePool(n, SidePhase)) == SideKeys(n);
    hide SideKeys;
    RoomsAndSides(m, n);
    var pool, least := Elems(PoolOf(format)), Elems(MID_POOL) + Elems(START_POOL) + SideKeys(m);
    SubsetCard(least, pool);
    if CountKind(format.steps, |format.steps|, n, SidePhase) > 0 {
      KindInPool(format, n, SidePhase);
      SubsetCard(least + SideKeys(n), pool);
    }
  }

  /** With whole maps the pool is always larger than the number of steps. */
  lemma PoolIsLarger(format: SeriesFormat)
    requires FormatOk(format, 1)
    ensures |format.steps| < |PoolOf(format)|
  {
    StepsAtMost(format);
    WholeMap(format, 1);
    WholeMap(format, 2);
    hide CountKind, PoolOf, FormatOk, SideFirst;
    PoolAtLeast(format, 1, 2);
  }

  /**
   * So with whole maps a veto is made exactly for an accepted format, mid picks that fit and members with no repeats.
   */
  lemma WholeCreatedIff(u: Setup)
    requires u.unit == 1
    ensures Created(u).Ok? <==>
              && FormatOk(u.format, 1) && !HasRepeats(u.members.team0 + u.members.team1)
              && AllMidsFit(u.format, 1, u.first, u.Flip())
  {
    hide FormatOk, AllMidsFit, CreateSeries, PoolOf;
    CreatedIff(u);
    if FormatOk(u.format, 1) {
      PoolIsLarger(u.format);
    }
  }
}
