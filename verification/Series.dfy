/**
 * Map wins and player totals of a series (SeriesTracker.cs) run from a config the loader accepts
 * (MatchConfigLoader.cs). Map numbers count from 1.
 */
module Series {
  import opened Common
  import opened MatchTeams

  datatype Stats = Stats(kills: int, deaths: int, headshots: int, damage: int)

  datatype PlayerStats = PlayerStats(steamId: string, stats: Stats)

  const ZERO := Stats(0, 0, 0, 0)

  function Plus(s: Stats, t: Stats): Stats {
    Stats(s.kills + t.kills, s.deaths + t.deaths, s.headshots + t.headshots, s.damage + t.damage)
  }

  /** A map's outcome. winner is none for a draw. */
  datatype Played = Played(winner: Option<Team>, players: seq<PlayerStats>)

  datatype MapResult = MapResult(mapNumber: int, winner: Option<Team>)

  datatype Config = Config(bestOf: int, startMapNumber: int, winsA: int, winsB: int, players: seq<string>)

  function Needed(bestOf: int): int {
    bestOf / 2 + 1
  }

  function Positive(x: int): int {
    if x > 0 then x else 0
  }

  predicate Accepted(c: Config) {
    && c.bestOf >= 1 && c.bestOf % 2 == 1
    && 1 <= c.startMapNumber <= c.bestOf
    && c.winsA >= 0 && c.winsB >= 0
    && c.winsA < Needed(c.bestOf) && c.winsB < Needed(c.bestOf)
    && Positive(c.winsA) + Positive(c.winsB) < c.startMapNumber
  }

  datatype Series = Series(
    bestOf: int,
    a: int,
    b: int,
    mapNumber: int,
    over: bool,
    results: seq<MapResult>,
    totals: map<string, Stats>)

  function Clamped(n: int, bestOf: int): int {
    var last := if bestOf > 1 then bestOf else 1;
    if n < 1 then 1 else if n > last then last else n
  }

  function NoTotals(players: seq<string>): map<string, Stats> {
    map p | p in players :: ZERO
  }

  function Begin(c: Config): Series {
    Series(c.bestOf, c.winsA, c.winsB, Clamped(c.startMapNumber, c.bestOf), false, [], NoTotals(c.players))
  }

  function Wins(s: Series, t: Team): int {
    if t == A then s.a else s.b
  }

  function Winner(s: Series): Option<Team> {
    if s.a >= Needed(s.bestOf) then Some(A) else if s.b >= Needed(s.bestOf) then Some(B) else None
  }

  function LeaderOf(s: Series): Option<Team> {
    if s.a == s.b then None else Some(if s.a > s.b then A else B)
  }

  /** None is a draw. */
  function FinalWinner(s: Series): Option<Team> {
    if Winner(s).Some? then Winner(s) else LeaderOf(s)
  }

  function AddOne(totals: map<string, Stats>, p: PlayerStats): map<string, Stats> {
    if p.steamId in totals then totals[p.steamId := Plus(totals[p.steamId], p.stats)] else totals
  }

  function AddAll(totals: map<string, Stats>, players: seq<PlayerStats>): map<string, Stats> {
    if players == [] then totals
    else AddOne(AddAll(totals, players[..|players| - 1]), players[|players| - 1])
  }

  function Recorded(s: Series, m: Played): Series {
    if s.over then s
    else
      var n := s.(a := s.a + (if m.winner == Some(A) then 1 else 0),
                  b := s.b + (if m.winner == Some(B) then 1 else 0),
                  results := s.results + [MapResult(s.mapNumber, m.winner)],
                  totals := AddAll(s.totals, m.players));
      n.(over := Winner(n).Some? || n.mapNumber >= n.bestOf)
  }

  function Advanced(s: Series): Series {
    if s.over || s.mapNumber >= s.bestOf then s else s.(mapNumber := s.mapNumber + 1)
  }

  function TotalsOf(s: Series, players: seq<string>): seq<PlayerStats>
    requires forall p | p in players :: p in s.totals
  {
    seq(|players|, i requires 0 <= i < |players| => PlayerStats(players[i], s.totals[players[i]]))
  }

  function SetOne(totals: map<string, Stats>, p: PlayerStats): map<string, Stats> {
    if p.steamId in totals then totals[p.steamId := p.stats] else totals
  }

  function SetAll(totals: map<string, Stats>, stats: seq<PlayerStats>): map<string, Stats> {
    if stats == [] then totals
    else SetOne(SetAll(totals, stats[..|stats| - 1]), stats[|stats| - 1])
  }

  function Restored(s: Series, savedMap: int, wins: Option<(int, int)>, saved: seq<MapResult>, stats: seq<PlayerStats>,
      over: bool): Series
  {
    Series(s.bestOf, if wins.Some? then wins.value.0 else s.a, if wins.Some? then wins.value.1 else s.b,
           Clamped(savedMap, s.bestOf), over, saved, SetAll(s.totals, stats))
  }

  class SeriesTracker {
    const bestOf: int
    const players: seq<string>
    var a: int
    var b: int
    var mapNumber: int
    var isOver: bool
    var results: seq<MapResult>
    var totals: map<string, Stats>

    function View(): Series
      reads this
    {
      Series(bestOf, a, b, mapNumber, isOver, results, totals)
    }

    constructor (c: Config)
      ensures View() == Begin(c) && players == c.players
    {
      bestOf, players := c.bestOf, c.players;
      a, b, mapNumber := c.winsA, c.winsB, Clamped(c.startMapNumber, c.bestOf);
      isOver, results, totals := false, [], NoTotals(c.players);
    }

    method RecordMap(m: Played) returns (over: bool)
      modifies this
      ensures View() == Recorded(old(View()), m)
      ensures over == isOver
    {
      if isOver {
        return true;
      }
      if m.winner == Some(A) {
        a := a + 1;
      } else if m.winner == Some(B) {
        b := b + 1;
      }
      results := results + [MapResult(mapNumber, m.winner)];
      var i := 0;
      while i < |m.players|
        modifies this`totals
        invariant 0 <= i <= |m.players|
        invariant totals == AddAll(old(totals), m.players[..i])
      {
        var p := m.players[i];
        assert m.players[..i + 1][..i] == m.players[..i];
        if p.steamId in totals {
          totals := totals[p.steamId := Plus(totals[p.steamId], p.stats)];
        }
        i := i + 1;
      }
      assert m.players[..i] == m.players;
      isOver := Winner(View()).Some? || mapNumber >= bestOf;
      return isOver;
    }

    method Advance() returns (moved: bool)
      modifies this`mapNumber
      ensures View() == Advanced(old(View()))
      ensures moved <==> mapNumber != old(mapNumber)
    {
      if isOver || mapNumber >= bestOf {
        return false;
      }
      mapNumber := mapNumber + 1;
      return true;
    }

    /** Player totals in the order of the config. */
    method Totals() returns (r: seq<PlayerStats>)
      requires forall p | p in players :: p in totals
      ensures r == TotalsOf(View(), players)
    {
      r := TotalsOf(View(), players);
    }

    /** Used after a plugin reload. */
    method Restore(savedMap: int, wins: Option<(int, int)>, saved: seq<MapResult>, stats: seq<PlayerStats>, over: bool)
      modifies this
      ensures View() == Restored(old(View()), savedMap, wins, saved, stats, over)
    {
      mapNumber := Clamped(savedMap, bestOf);
      if wins.Some? {
        a, b := wins.value.0, wins.value.1;
      }
      results := saved;
      var i := 0;
      while i < |stats|
        modifies this`totals
        invariant 0 <= i <= |stats|
        invariant totals == SetAll(old(totals), stats[..i])
      {
        assert stats[..i + 1][..i] == stats[..i];
        if stats[i].steamId in totals {
          totals := totals[stats[i].steamId := stats[i].stats];
        }
        i := i + 1;
      }
      assert stats[..i] == stats;
      isOver := over;
    }
  }

  // ---------- Whole series ----------

  /** The series after each map was recorded and, unless it was over, the next one loaded. */
  function Run(c: Config, maps: seq<Played>): Series {
    if maps == [] then Begin(c)
    else Advanced(Recorded(Run(c, maps[..|maps| - 1]), maps[|maps| - 1]))
  }

  /** How many of the maps were won by t. */
  function Won(maps: seq<Played>, t: Team): nat {
    if maps == [] then 0 else Won(maps[..|maps| - 1], t) + (if maps[|maps| - 1].winner == Some(t) then 1 else 0)
  }

  /** What a player did in one map, and in a list of maps. */
  function InMap(players: seq<PlayerStats>, id: string): Stats {
    if players == [] then ZERO
    else
      var before := InMap(players[..|players| - 1], id);
      if players[|players| - 1].steamId == id then Plus(before, players[|players| - 1].stats) else before
  }

  function InMaps(maps: seq<Played>, id: string): Stats {
    if maps == [] then ZERO else Plus(InMaps(maps[..|maps| - 1], id), InMap(maps[|maps| - 1].players, id))
  }

  lemma {:induction false} AddAllSums(totals: map<string, Stats>, players: seq<PlayerStats>)
    ensures AddAll(totals, players).Keys == totals.Keys
    ensures forall id | id in totals :: AddAll(totals, players)[id] == Plus(totals[id], InMap(players, id))
  {
    if players != [] {
      AddAllSums(totals, players[..|players| - 1]);
    }
  }

  /** Counting the map being played, no more maps were won than started, and only the last one can win it. */
  ghost predicate Inv(c: Config, s: Series, maps: seq<Played>) {
    && s.bestOf == c.bestOf
    && c.startMapNumber <= s.mapNumber <= s.bestOf
    && s.a >= 0 && s.b >= 0
    && |s.results| <= |maps|
    && (if s.over
        then s.a + s.b <= s.mapNumber && |s.results| == s.mapNumber - c.startMapNumber + 1
        else s.a + s.b < s.mapNumber && |s.results| == s.mapNumber - c.startMapNumber == |maps|)
    && s.a == c.winsA + Won(maps[..|s.results|], A) && s.b == c.winsB + Won(maps[..|s.results|], B)
    && (!s.over ==> s.a < Needed(s.bestOf) && s.b < Needed(s.bestOf))
    && (s.over ==> s.a <= Needed(s.bestOf) && s.b <= Needed(s.bestOf) && (Winner(s).Some? || s.mapNumber == s.bestOf))
    && s.totals.Keys == Elems(c.players)
    && (forall id | id in s.totals :: s.totals[id] == InMaps(maps[..|s.results|], id))
    && (forall i | 0 <= i < |s.results| :: s.results[i] == MapResult(c.startMapNumber + i, maps[i].winner))
  }

  lemma RecordInv(c: Config, s: Series, maps: seq<Played>, m: Played)
    requires Accepted(c) && Inv(c, s, maps) && !s.over
    ensures var r := Recorded(s, m);
            && (r.over ==> Inv(c, r, maps + [m]))
            && (!r.over ==> Inv(c, r.(mapNumber := r.mapNumber + 1), maps + [m]))
  {
    var all := maps + [m];
    assert maps[..|s.results|] == maps;
    assert all[..|s.results| + 1] == all && all[..|all| - 1] == maps;
    AddAllSums(s.totals, m.players);
    var r := Recorded(s, m);
    forall id | id in r.totals ensures r.totals[id] == InMaps(all, id) {
      assert InMaps(all, id) == Plus(InMaps(maps, id), InMap(m.players, id));
    }
  }

  lemma BeginInv(c: Config)
    requires Accepted(c)
    ensures Inv(c, Begin(c), [])
  {
    assert Begin(c).totals.Keys == Elems(c.players);
  }

  lemma OverInv(c: Config, s: Series, maps: seq<Played>, m: Played)
    requires Inv(c, s, maps) && s.over
    ensures Inv(c, s, maps + [m])
  {
    assert (maps + [m])[..|s.results|] == maps[..|s.results|];
  }

  /** What a recorded map and the move to the next one make of a state. */
  lemma MapAndNext(s: Series, m: Played)
    ensures s.over ==> Advanced(Recorded(s, m)) == s
    ensures !s.over ==>
              var r := Recorded(s, m); Advanced(r) == if r.over then r else r.(mapNumber := r.mapNumber + 1)
  {
    hide AddAll, Winner;
  }

  lemma RunLast(c: Config, maps: seq<Played>, m: Played)
    ensures Run(c, maps + [m]) == Advanced(Recorded(Run(c, maps), m))
  {
    assert (maps + [m])[..|maps|] == maps;
  }

  lemma {:induction false} RunInv(c: Config, maps: seq<Played>)
    requires Accepted(c)
    ensures Inv(c, Run(c, maps), maps)
  {
    if maps == [] {
      BeginInv(c);
    } else {
      hide *;
      var before, m := maps[..|maps| - 1], maps[|maps| - 1];
      RunInv(c, before);
      assert maps == before + [m];
      RunLast(c, before, m);
      var s := Run(c, before);
      MapAndNext(s, m);
      if s.over {
        OverInv(c, s, before, m);
      } else {
        RecordInv(c, s, before, m);
      }
    }
  }

  /**
   * Every series from an accepted config: it never plays past its last map, never gives both teams a majority, and
   * is over at the latest with the last map.
   */
  lemma SeriesEnds(c: Config, maps: seq<Played>)
    requires Accepted(c)
    ensures var s := Run(c, maps);
            && c.startMapNumber <= s.mapNumber <= c.bestOf
            && c.startMapNumber - 1 + |s.results| <= c.bestOf
            && !(s.a >= Needed(c.bestOf) && s.b >= Needed(c.bestOf))
            && (c.startMapNumber - 1 + |maps| >= c.bestOf ==> s.over)
            && (s.over <==> Winner(s).Some? || c.startMapNumber - 1 + |s.results| == c.bestOf)
  {
    RunInv(c, maps);
  }

  /**
   * Who takes it: the strict leader in map wins, a draw exactly on equal wins, and a majority is always the leader's.
   */
  lemma FinalWinnerLeads(c: Config, maps: seq<Played>)
    requires Accepted(c)
    ensures var s := Run(c, maps);
            && (FinalWinner(s).None? <==> s.a == s.b)
            && (forall t | FinalWinner(s) == Some(t) :: Wins(s, t) > Wins(s, Other(t)))
            && |s.results| <= |maps|
            && s.a == c.winsA + Won(maps[..|s.results|], A) && s.b == c.winsB + Won(maps[..|s.results|], B)
  {
    RunInv(c, maps);
  }

  /** Totals are what each player did in the recorded maps, nobody outside the config appears, and Totals lists them in
      the order of the config. */
  lemma TotalsAreSums(c: Config, maps: seq<Played>)
    requires Accepted(c)
    ensures var s := Run(c, maps);
            && |s.results| <= |maps|
            && (forall id :: id in s.totals <==> id in c.players)
            && (forall id | id in s.totals :: s.totals[id] == InMaps(maps[..|s.results|], id))
            && |TotalsOf(s, c.players)| == |c.players|
            && (forall i | 0 <= i < |c.players| ::
                  TotalsOf(s, c.players)[i] == PlayerStats(c.players[i], InMaps(maps[..|s.results|], c.players[i])))
  {
    RunInv(c, maps);
    assert Run(c, maps).totals.Keys == Elems(c.players);
  }

  lemma {:induction false} SetAllSets(totals: map<string, Stats>, stats: seq<PlayerStats>, want: map<string, Stats>)
    requires forall i | 0 <= i < |stats| :: stats[i].steamId in want && want[stats[i].steamId] == stats[i].stats
    ensures var r := SetAll(totals, stats);
            && r.Keys == totals.Keys
            && (forall i | 0 <= i < |stats| :: stats[i].steamId in r ==> r[stats[i].steamId] == stats[i].stats)
  {
    if stats != [] {
      SetAllSets(totals, stats[..|stats| - 1], want);
    }
  }

  /** Setting the totals of any state with the same players to those listed gives the totals listed. */
  lemma TotalsComeBack(c: Config, s: Series, totals: map<string, Stats>)
    requires totals.Keys == s.totals.Keys == Elems(c.players)
    ensures forall p | p in c.players :: p in s.totals
    ensures SetAll(totals, TotalsOf(s, c.players)) == s.totals
  {
    assert forall p | p in c.players :: p in Elems(c.players);
    var stats := TotalsOf(s, c.players);
    SetAllSets(totals, stats, s.totals);
    hide SetAll;
    var r := SetAll(totals, stats);
    forall id | id in s.totals ensures id in r && r[id] == s.totals[id] {
      var i :| 0 <= i < |c.players| && c.players[i] == id;
      assert stats[i].steamId == id;
    }
  }

  /** A plugin reload loses nothing: a new tracker restored from what was saved is the tracker that saved it. */
  lemma RestoreBringsBack(c: Config, maps: seq<Played>)
    requires Accepted(c)
    ensures var s := Run(c, maps);
            && (forall p | p in c.players :: p in s.totals)
            && Restored(Begin(c), s.mapNumber, Some((s.a, s.b)), s.results, TotalsOf(s, c.players), s.over) == s
  {
    RunInv(c, maps);
    var s := Run(c, maps);
    hide Run, SetAll, InMaps, Won;
    assert s.totals.Keys == Elems(c.players);
    TotalsComeBack(c, s, Begin(c).totals);
  }

  // ---------- When a lead is safe ----------

  /** Maps left of the series, the one being played included. */
  function MapsLeft(c: Config, s: Series): int {
    c.bestOf - (c.startMapNumber - 1 + |s.results|)
  }

  /** Even with every map left the other team would stay behind t. */
  predicate Safe(c: Config, s: Series, t: Team) {
    (if t == A then s.b else s.a) + MapsLeft(c, s) < (if t == A then s.a else s.b)
  }

  /** Some map so far, or before the tracker began, had no winner. */
  predicate HadDraw(c: Config, s: Series) {
    s.a + s.b < c.startMapNumber - 1 + |s.results|
  }

  /**
   * Before its last map a series ends only when the trailing team can no longer catch up. Unless a map had no winner it
   * ends exactly then.
   */
  lemma OverWhenSafe(c: Config, maps: seq<Played>)
    requires Accepted(c)
    ensures var s := Run(c, maps);
            && MapsLeft(c, s) >= 0
            && (s.over ==> MapsLeft(c, s) == 0 || exists t :: Safe(c, s, t))
            && (MapsLeft(c, s) == 0 ==> s.over)
            && (!HadDraw(c, s) ==> (s.over <==> MapsLeft(c, s) == 0 || exists t :: Safe(c, s, t)))
            && forall t :: Winner(s) == Some(t) ==> Safe(c, s, t)
  {
    RunInv(c, maps);
    var s := Run(c, maps);
    hide Run, InMaps, Won;
    if Winner(s).Some? {
      assert Safe(c, s, Winner(s).value);
    }
  }

  /**
   * Exactly when it goes on although no one can catch a team: before that has a majority and with maps left, once its
   * wins counted twice and the maps without a winner are more than the maps of the series.
   */
  lemma OverLateIff(c: Config, maps: seq<Played>, t: Team)
    requires Accepted(c)
    ensures var s := Run(c, maps);
            var draws := c.startMapNumber - 1 + |s.results| - s.a - s.b;
            !s.over && Safe(c, s, t) <==>
            Wins(s, t) < Needed(c.bestOf) && MapsLeft(c, s) > 0 && 2 * Wins(s, t) + draws > c.bestOf
  {
    RunInv(c, maps);
    hide Run, InMaps, Won;
  }

  // ---------- Totals by number ----------

  datatype Number = Kills | Deaths | Headshots | Damage

  function Read(s: Stats, n: Number): int {
    match n
    case Kills => s.kills
    case Deaths => s.deaths
    case Headshots => s.headshots
    case Damage => s.damage
  }

  /** What a player's entries in one list add up to, one number at a time. */
  function Added(players: seq<PlayerStats>, id: string, n: Number): int {
    if players == [] then 0
    else
      var last := players[|players| - 1];
      Added(players[..|players| - 1], id, n) + if last.steamId == id then Read(last.stats, n) else 0
  }

  function AddedUp(maps: seq<Played>, id: string, n: Number): int {
    if maps == [] then 0 else AddedUp(maps[..|maps| - 1], id, n) + Added(maps[|maps| - 1].players, id, n)
  }

  lemma {:induction false} InMapAdds(players: seq<PlayerStats>, id: string, n: Number)
    ensures Read(InMap(players, id), n) == Added(players, id, n)
  {
    if players != [] {
      InMapAdds(players[..|players| - 1], id, n);
    }
  }

  lemma {:induction false} InMapsAdd(maps: seq<Played>, id: string, n: Number)
    ensures Read(InMaps(maps, id), n) == AddedUp(maps, id, n)
  {
    if maps != [] {
      InMapsAdd(maps[..|maps| - 1], id, n);
      InMapAdds(maps[|maps| - 1].players, id, n);
    }
  }

  /** Kills, deaths, headshots and damage of a player are each the sum of those in the recorded maps. */
  lemma EachNumberAddsUp(c: Config, maps: seq<Played>, id: string, n: Number)
    requires Accepted(c) && id in c.players
    ensures var s := Run(c, maps);
            |s.results| <= |maps| && id in s.totals && Read(s.totals[id], n) == AddedUp(maps[..|s.results|], id, n)
  {
    TotalsAreSums(c, maps);
    InMapsAdd(maps[..|Run(c, maps).results|], id, n);
  }

  // ---------- Restoring anything ----------

  /** A player's saved totals replace those of the tracker, the last entry winning. Players it does not have are left
      out. */
  lemma {:induction false} LastSavedWins(totals: map<string, Stats>, stats: seq<PlayerStats>, id: string)
    ensures id in SetAll(totals, stats) <==> id in totals
    ensures id in totals && (forall i | 0 <= i < |stats| :: stats[i].steamId != id) ==>
              SetAll(totals, stats)[id] == totals[id]
    ensures forall i | 0 <= i < |stats| && id in totals && stats[i].steamId == id
                       && (forall j | i < j < |stats| :: stats[j].steamId != id) ::
              SetAll(totals, stats)[id] == stats[i].stats
  {
    if stats != [] {
      LastSavedWins(totals, stats[..|stats| - 1], id);
    }
  }

  /** A restore of any saved values takes wins and results as saved, keeps the wins of the tracker when none were saved,
      and keeps the map number inside the series. */
  lemma RestoresAnything(s: Series, savedMap: int, wins: Option<(int, int)>, saved: seq<MapResult>,
      stats: seq<PlayerStats>, over: bool)
    requires s.bestOf >= 1
    ensures var r := Restored(s, savedMap, wins, saved, stats, over);
            && (wins.Some? ==> r.a == wins.value.0 && r.b == wins.value.1)
            && (wins.None? ==> r.a == s.a && r.b == s.b)
            && r.results == saved && r.over == over && r.bestOf == s.bestOf
            && 1 <= r.mapNumber <= s.bestOf
            && (1 <= savedMap <= s.bestOf ==> r.mapNumber == savedMap)
            && (savedMap > s.bestOf ==> r.mapNumber == s.bestOf)
            && (savedMap < 1 ==> r.mapNumber == 1)
  {
    hide SetAll;
  }

  /** What can happen to a tracker between reloads: a map is recorded, or the next one is asked for. */
  datatype Move = Record(m: Played) | Next

  function Moved(s: Series, moves: seq<Move>): Series {
    if moves == [] then s
    else
      var before := Moved(s, moves[..|moves| - 1]);
      match moves[|moves| - 1] case Record(m) => Recorded(before, m) case Next => Advanced(before)
  }

  /**
   * From any state inside the series, restored or not, and in whatever order maps are recorded and asked for: the map
   * number stays inside the series and never goes back, wins never fall, and a series that is over does not change.
   */
  lemma {:induction false} NeverPastTheLast(s: Series, moves: seq<Move>)
    requires 1 <= s.mapNumber <= s.bestOf
    ensures var r := Moved(s, moves);
            && s.mapNumber <= r.mapNumber <= r.bestOf == s.bestOf
            && r.a >= s.a && r.b >= s.b && s.results <= r.results && (s.over ==> r == s)
  {
    if moves != [] {
      NeverPastTheLast(s, moves[..|moves| - 1]);
    }
  }

  /**
   * The final winner of any state: the team with a majority, and A when saved wins give both one. Without a majority it
   * is the leader, and nobody when the teams are level.
   */
  lemma FinalWinnerOfAny(s: Series)
    ensures FinalWinner(s) == Some(A) <==> s.a >= s.bestOf / 2 + 1 || (s.b < s.bestOf / 2 + 1 && s.a > s.b)
    ensures FinalWinner(s) == Some(B) <==> s.a < s.bestOf / 2 + 1 && s.b > s.a
  {
  }
}
