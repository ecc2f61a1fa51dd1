/** Map vetoes: the step builders of packages/shared/src/veto/bo3.ts and what a finished veto of each format leaves. */
module MapVeto {
  import opened Common
  import opened VetoEngine

  function CreateMapVeto(pool: seq<Key>, members: Teams, format: VetoFormat, first: Team): Result<VetoState> {
    match StepsForFormat(format, |pool|, first)
    case Err(e) => Err(e)
    case Ok(steps) => CreateVeto(pool, members, steps)
  }

  /** The smallest pool each format takes. */
  function SmallestPool(format: VetoFormat): nat {
    match format
    case NoVeto => 1
    case Bo1Ban => 2
    case BanTo7 => 8
    case Bo3PickBan => 5
  }

  /** A map veto is made exactly for a pool with no repeats that is big enough and members with none. The steps a
      builder gives always pass the size check. */
  lemma CreatedExactly(pool: seq<Key>, members: Teams, format: VetoFormat, first: Team)
    ensures CreateMapVeto(pool, members, format, first).Ok? <==>
              && |pool| >= SmallestPool(format) && !HasRepeats(pool) && !HasRepeats(members.team0 + members.team1)
  {
  }

  // ---------- What a finished veto leaves ----------

  lemma {:induction false} ItemsCard(h: seq<Entry>, n: nat)
    requires n <= |h| && forall i, j | 0 <= i < j < |h| :: h[i].item != h[j].item
    ensures |Items(h[..n])| == n
  {
    if n == 0 {
      NoItems();
    } else {
      ItemsCard(h, n - 1);
      ItemsSnoc(h, n);
      assert h[n - 1].item !in Items(h[..n - 1]);
    }
  }

  /** Each step takes one thing from the pool. */
  lemma AvailableCount(s: VetoState)
    requires Inv(s)
    ensures |s.available| == |s.pool| - |s.history|
  {
    ChoicesAreDistinct(s);
    assert Distinct(s.pool);
    hide Inv;
    assert s.history[..|s.history|] == s.history;
    ItemsCard(s.history, |s.history|);
    DistinctCard(s.available);
    DistinctCard(s.pool);
    assert Items(s.history) <= Elems(s.pool);
    assert Elems(s.available) == Elems(s.pool) - Items(s.history);
  }

  function PicksIn(actions: seq<Action>): nat {
    if actions == [] then 0
    else PicksIn(actions[..|actions| - 1]) + if actions[|actions| - 1] == Pick then 1 else 0
  }

  lemma {:induction false} PicksCount(h: seq<Entry>, actions: seq<Action>)
    requires |h| == |actions| && forall i | 0 <= i < |h| :: h[i].action == actions[i]
    ensures |PicksOf(h)| == PicksIn(actions)
  {
    if h != [] {
      PicksCount(h[..|h| - 1], actions[..|h| - 1]);
    }
  }

  lemma {:induction false} NoPicksInBans(actions: seq<Action>)
    requires forall i | 0 <= i < |actions| :: actions[i] == Ban
    ensures PicksIn(actions) == 0
  {
    if actions != [] {
      NoPicksInBans(actions[..|actions| - 1]);
    }
  }

  lemma PicksOfBo3(n: nat)
    requires 4 <= n <= 6
    ensures PicksIn(BO3_ACTIONS[..n]) == 2
  {
    var a := BO3_ACTIONS;
    forall k | 0 <= k < 6 ensures PicksIn(a[..k + 1]) == PicksIn(a[..k]) + if a[k] == Pick then 1 else 0 {
      assert a[..k + 1][..k] == a[..k];
    }
    assert PicksIn(a[..0]) == 0;
    assert PicksIn(a[..0 + 1]) == 0 && PicksIn(a[..1 + 1]) == 0 && PicksIn(a[..2 + 1]) == 1 && PicksIn(a[..3 + 1]) == 2;
    assert PicksIn(a[..4 + 1]) == 2 && PicksIn(a[..5 + 1]) == 2;
  }

  /** The actions of a format on a pool of n maps. */
  function ActionsOf(format: VetoFormat, n: nat): seq<Action>
    requires n >= SmallestPool(format)
  {
    match format
    case NoVeto => []
    case Bo1Ban => seq(n - 1, i => Ban)
    case BanTo7 => seq(n - 7, i => Ban)
    case Bo3PickBan => BO3_ACTIONS[..if n <= 7 then n - 1 else 6]
  }

  /** Maps nobody picked or banned. A best of three leaves one decider only from pools of up to seven maps. */
  function Deciders(format: VetoFormat, n: nat): int {
    match format
    case NoVeto => n
    case Bo1Ban => 1
    case BanTo7 => 7
    case Bo3PickBan => if n <= 7 then 1 else n - 6
  }

  lemma BuiltSteps(format: VetoFormat, n: nat, first: Team)
    requires n >= SmallestPool(format)
    ensures StepsForFormat(format, n, first) == Ok(AlternatingFrom(ActionsOf(format, n), first))
    ensures |ActionsOf(format, n)| == n - Deciders(format, n)
    ensures PicksIn(ActionsOf(format, n)) == if format == Bo3PickBan then 2 else 0
  {
    match format
    case Bo3PickBan => PicksOfBo3(|ActionsOf(format, n)|);
    case _ => NoPicksInBans(ActionsOf(format, n));
  }

  /** Every run of a map veto keeps its invariant and its steps. */
  lemma MapVetoRuns(pool: seq<Key>, members: Teams, format: VetoFormat, first: Team, events: seq<Event>)
    requires CreateMapVeto(pool, members, format, first).Ok?
    ensures var s := Run(CreateMapVeto(pool, members, format, first).value, events);
            && Inv(s) && Coverable(s) && s.pool == pool
            && s.steps == AlternatingFrom(ActionsOf(format, |pool|), first)
  {
    CreatedExactly(pool, members, format, first);
    BuiltSteps(format, |pool|, first);
    var steps := StepsForFormat(format, |pool|, first).value;
    var s := CreateVeto(pool, members, steps).value;
    InitInv(pool, members, steps, []);
    assert s == s.(phases := []);
    MapVetoCoverable(pool, members, steps);
    hide CreateVeto, Coverable, Inv;
    RunInv(s, events);
    CoverableStable(s, Run(s, events));
  }

  /**
   * Whatever the votes, a finished map veto was played by the teams in turn, and leaves two picks and the deciders of
   * its format, in that order.
   */
  lemma FinishedMapVeto(pool: seq<Key>, members: Teams, format: VetoFormat, first: Team, events: seq<Event>)
    requires CreateMapVeto(pool, members, format, first).Ok?
    requires Run(CreateMapVeto(pool, members, format, first).value, events).done
    ensures var s := Run(CreateMapVeto(pool, members, format, first).value, events);
            && |s.available| == Deciders(format, |pool|)
            && |PicksOf(s.history)| == (if format == Bo3PickBan then 2 else 0)
            && s.maps == PicksOf(s.history) + s.available
            && (forall i | 0 <= i < |s.history| :: s.history[i].team == if i % 2 == 0 then first else Other(first))
  {
    CreatedExactly(pool, members, format, first);
    BuiltSteps(format, |pool|, first);
    MapVetoRuns(pool, members, format, first, events);
    var s := Run(CreateMapVeto(pool, members, format, first).value, events);
    hide CreateMapVeto, Run, ActionsOf, Coverable;
    AvailableCount(s);
    FinalMaps(s);
    forall i | 0 <= i < |s.history|
      ensures s.history[i].action == ActionsOf(format, |pool|)[i]
      ensures s.history[i].team == if i % 2 == 0 then first else Other(first)
    {
      assert EntryOk(s, i);
    }
    PicksCount(s.history, ActionsOf(format, |pool|));
  }

  /** A pick's place among the picks is the number of picks before it. */
  lemma {:induction false} PickPlace(h: seq<Entry>, i: nat)
    requires i < |h| && h[i].action == Pick
    ensures |PicksOf(h[..i])| < |PicksOf(h)| && PicksOf(h)[|PicksOf(h[..i])|] == h[i].item
    decreases |h|
  {
    var n := |h| - 1;
    if i < n {
      assert h[..n][..i] == h[..i];
      PickPlace(h[..n], i);
    }
  }

  lemma NoPicksYet(h: seq<Entry>, n: nat)
    requires n <= |h| && forall i | 0 <= i < n :: h[i].action != Pick
    ensures PicksOf(h[..n]) == []
  {
    if n > 0 {
      assert h[..n][..n - 1] == h[..n - 1];
      NoPicksYet(h, n - 1);
    }
  }

  /** A finished map veto of a format, as MapVetoRuns gives it. */
  ghost predicate Finished(s: VetoState, format: VetoFormat, first: Team) {
    && Inv(s) && s.done && |s.pool| >= SmallestPool(format)
    && s.steps == AlternatingFrom(ActionsOf(format, |s.pool|), first)
  }

  lemma ActionsAre(s: VetoState, format: VetoFormat, first: Team, i: nat)
    requires Finished(s, format, first) && i < |s.history|
    ensures s.history[i].action == if format == Bo3PickBan && (i == 2 || i == 3) then Pick else Ban
  {
    assert EntryOk(s, i);
  }

  lemma PicksFirst(s: VetoState, first: Team)
    requires Finished(s, Bo3PickBan, first)
    ensures |s.history| >= 4 && |s.maps| >= 2
    ensures s.maps[0] == s.history[2].item && s.maps[1] == s.history[3].item
  {
    assert |s.history| >= 4;
    forall i | 0 <= i < |s.history| ensures s.history[i].action == if i == 2 || i == 3 then Pick else Ban {
      ActionsAre(s, Bo3PickBan, first, i);
    }
    FinalMaps(s);
    hide Inv, PicksOf, Finished;
    NoPicksYet(s.history, 2);
    PickPlace(s.history, 2);
    OnePick(s.history);
    PickPlace(s.history, 3);
  }

  lemma DecidersInOrder(s: VetoState, i: nat, j: nat)
    requires Inv(s) && i < j < |s.available|
    ensures Ordered(s.available, s.pool, i, j)
  {
    WithoutOrdered(s.pool, Items(s.history), i, j);
  }

  /**
   * A bo3 bans twice, then both teams pick once, and then bans again. The first pick is played first, the second pick
   * second, and the deciders follow in the order of the pool. The other formats only ban.
   */
  lemma MapOrder(pool: seq<Key>, members: Teams, format: VetoFormat, first: Team, events: seq<Event>)
    requires CreateMapVeto(pool, members, format, first).Ok?
    requires Run(CreateMapVeto(pool, members, format, first).value, events).done
    ensures var s := Run(CreateMapVeto(pool, members, format, first).value, events);
            && (forall i | 0 <= i < |s.history| ::
                  s.history[i].action == if format == Bo3PickBan && (i == 2 || i == 3) then Pick else Ban)
            && (format == Bo3PickBan ==>
                  && |s.history| >= 4 && |s.maps| >= 2
                  && s.maps[0] == s.history[2].item && s.maps[1] == s.history[3].item)
            && (forall i, j | 0 <= i < j < |s.available| :: Ordered(s.available, pool, i, j))
  {
    CreatedExactly(pool, members, format, first);
    MapVetoRuns(pool, members, format, first, events);
    hide CreateMapVeto, Run, Coverable, Inv, ActionsOf, Ordered;
    var s := Run(CreateMapVeto(pool, members, format, first).value, events);
    assert Finished(s, format, first);
    forall i | 0 <= i < |s.history|
      ensures s.history[i].action == if format == Bo3PickBan && (i == 2 || i == 3) then Pick else Ban
    {
      ActionsAre(s, format, first, i);
    }
    forall i, j | 0 <= i < j < |s.available| ensures Ordered(s.available, pool, i, j) {
      DecidersInOrder(s, i, j);
    }
    if format == Bo3PickBan {
      PicksFirst(s, first);
    }
  }

  lemma OnePick(h: seq<Entry>)
    requires |h| >= 3 && h[2].action == Pick && PicksOf(h[..2]) == []
    ensures |PicksOf(h[..3])| == 1
  {
    assert h[..3][..2] == h[..2];
  }
}
