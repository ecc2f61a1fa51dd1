/**
 * First to N rounds with overtime (FirstToScoreTracker, ScoreTracker.cs). A match has exactly two teams
 * (MatchConfigLoader.cs), N is at least 1 (WinCondition.cs) and the overtime length may be any number.
 */
module FirstTo {
  import opened Common
  import opened MatchTeams

  /** target is N. overtime is the length of a period in rounds, 0 when overtime is off. */
  datatype Rules = Rules(target: nat, overtime: nat)

  /** base: each team's score when the current overtime period began. */
  datatype Tally = Tally(
    a: int,
    b: int,
    rounds: nat,
    base: Option<int>,
    periodStart: int,
    decided: Option<Team>,
    tied: bool)

  const START := Tally(0, 0, 0, None, 0, None, false)

  function RulesOf(roundsToWin: nat, overtimeMaxRounds: int): (r: Rules)
    ensures r.target == roundsToWin && r.overtime >= overtimeMaxRounds
    ensures r.overtime == overtimeMaxRounds || r.overtime == 0
  {
    Rules(roundsToWin, if overtimeMaxRounds > 0 then overtimeMaxRounds else 0)
  }

  predicate Over(s: Tally) {
    s.decided.Some? || s.tied
  }

  function Score(s: Tally, t: Team): int {
    if t == A then s.a else s.b
  }

  function RegulationRounds(r: Rules): int {
    r.target * 2 - 1
  }

  function Need(r: Rules): int {
    r.overtime / 2 + 1
  }

  function Reached(s: Tally, from: int, need: int): Option<Team> {
    if s.a - from >= need then Some(A) else if s.b - from >= need then Some(B) else None
  }

  function Leader(s: Tally): Option<Team> {
    if s.a == s.b then None else Some(if s.a > s.b then A else B)
  }

  function PeriodEnd(r: Rules, s: Tally): Tally {
    if Leader(s).Some? then s.(decided := Leader(s))
    else if r.overtime == 0 then s.(tied := true)
    else s.(base := Some(if s.a > s.b then s.a else s.b), periodStart := s.rounds)
  }

  function Evaluated(r: Rules, s: Tally): Tally {
    if Over(s) then s
    else
      var from := if s.base.None? then 0 else s.base.value;
      var won := Reached(s, from, if s.base.None? then r.target else Need(r));
      var left := if s.base.None? then s.rounds < RegulationRounds(r) else s.rounds - s.periodStart < r.overtime;
      if won.Some? || left then s.(decided := won) else PeriodEnd(r, s)
  }

  /** winner is none for a draw or a name that is no team's. */
  function Counted(s: Tally, winner: Option<Team>): Tally {
    s.(rounds := s.rounds + 1,
       a := s.a + (if winner == Some(A) then 1 else 0),
       b := s.b + (if winner == Some(B) then 1 else 0))
  }

  function Recorded(r: Rules, s: Tally, winner: Option<Team>): Tally {
    if Over(s) then s else Evaluated(r, Counted(s, winner))
  }

  function OrZero(x: Option<int>): int {
    if x.Some? then x.value else 0
  }

  function Restored(r: Rules, a: Option<int>, b: Option<int>, rounds: int, base: Option<int>, periodStart: int): Tally {
    Evaluated(r, Tally(OrZero(a), OrZero(b), if rounds < 0 then 0 else rounds,
                       if r.overtime > 0 then base else None, periodStart, None, false))
  }

  class FirstToScoreTracker {
    const rules: Rules
    var a: int
    var b: int
    var decidedWinner: Option<Team>
    var endedTied: bool
    var roundsPlayed: nat
    var overtimeBase: Option<int>
    var overtimePeriodStart: int

    function View(): Tally
      reads this
    {
      Tally(a, b, roundsPlayed, overtimeBase, overtimePeriodStart, decidedWinner, endedTied)
    }

    constructor (roundsToWin: nat, overtimeMaxRounds: int)
      ensures View() == START && rules == RulesOf(roundsToWin, overtimeMaxRounds)
    {
      rules := RulesOf(roundsToWin, overtimeMaxRounds);
      a, b, roundsPlayed, overtimePeriodStart := 0, 0, 0, 0;
      overtimeBase, decidedWinner, endedTied := None, None, false;
    }

    /** The team that won the match with this round, if any. */
    method RecordRound(winner: Option<Team>) returns (won: Option<Team>)
      modifies this
      ensures View() == Recorded(rules, old(View()), winner)
      ensures won == if Over(old(View())) then None else decidedWinner
    {
      if decidedWinner.Some? || endedTied {
        return None;
      }
      roundsPlayed := roundsPlayed + 1;
      if winner == Some(A) {
        a := a + 1;
      } else if winner == Some(B) {
        b := b + 1;
      }
      Evaluate();
      return decidedWinner;
    }

    method Evaluate()
      modifies this
      ensures View() == Evaluated(rules, old(View()))
    {
      if decidedWinner.Some? || endedTied {
        return;
      }
      if overtimeBase.None? {
        decidedWinner := Reached(View(), 0, rules.target);
        if decidedWinner.Some? || roundsPlayed < rules.target * 2 - 1 {
          return;
        }
        decidedWinner := Leader(View());
        if decidedWinner.None? {
          StartPeriodOrEnd();
        }
        return;
      }
      var need := rules.overtime / 2 + 1;
      decidedWinner := Reached(View(), overtimeBase.value, need);
      if decidedWinner.Some? || roundsPlayed - overtimePeriodStart < rules.overtime {
        return;
      }
      decidedWinner := Leader(View());
      if decidedWinner.None? {
        StartPeriodOrEnd();
      }
    }

    method StartPeriodOrEnd()
      requires Leader(View()).None?
      modifies this
      ensures View() == PeriodEnd(rules, old(View()))
    {
      if rules.overtime == 0 {
        endedTied := true;
        return;
      }
      overtimeBase := Some(if a > b then a else b);
      overtimePeriodStart := roundsPlayed;
    }

    method Restore(winsA: Option<int>, winsB: Option<int>, rounds: int, base: Option<int>, periodStart: int)
      modifies this
      ensures View() == Restored(rules, winsA, winsB, rounds, base, periodStart)
    {
      a, b := OrZero(winsA), OrZero(winsB);
      roundsPlayed := if rounds < 0 then 0 else rounds;
      overtimeBase := if rules.overtime > 0 then base else None;
      overtimePeriodStart := periodStart;
      decidedWinner, endedTied := None, false;
      Evaluate();
    }
  }

  // ---------- Whole matches ----------

  /** The tally after a list of round results. */
  function Played(r: Rules, results: seq<Option<Team>>): Tally {
    if results == [] then START
    else Recorded(r, Played(r, results[..|results| - 1]), results[|results| - 1])
  }

  /** How many of the results are x. None counts draws. */
  function Count(results: seq<Option<Team>>, x: Option<Team>): nat {
    if results == [] then 0
    else Count(results[..|results| - 1], x) + (if results[|results| - 1] == x then 1 else 0)
  }

  /** What holds of every tally a match can reach. */
  ghost predicate Inv(r: Rules, s: Tally) {
    && s.a >= 0 && s.b >= 0 && s.a + s.b <= s.rounds
    && (s.base.None? ==> s.periodStart == 0 && s.a <= r.target && s.b <= r.target && s.rounds <= RegulationRounds(r))
    && (s.base.Some? ==>
          && r.overtime > 0
          && s.a >= s.base.value >= 0 && s.b >= s.base.value
          && RegulationRounds(r) <= s.periodStart <= s.rounds <= s.periodStart + r.overtime
          && s.a + s.b - 2 * s.base.value <= s.rounds - s.periodStart
          && s.a - s.base.value <= Need(r) && s.b - s.base.value <= Need(r))
    && (!Over(s) && s.base.None? ==> s.a < r.target && s.b < r.target && s.rounds < RegulationRounds(r))
    && (!Over(s) && s.base.Some? ==>
          s.a - s.base.value < Need(r) && s.b - s.base.value < Need(r) && s.rounds < s.periodStart + r.overtime)
    && (s.decided.Some? ==> !s.tied && Leader(s) == s.decided)
    && (s.decided.Some? ==>
          || (s.base.None? && (Score(s, s.decided.value) == r.target || s.rounds == RegulationRounds(r)))
          || (s.base.Some?
             && (Score(s, s.decided.value) - s.base.value == Need(r) || s.rounds == s.periodStart + r.overtime)))
    && (s.tied ==> r.overtime == 0 && s.a == s.b && s.base.None? && s.rounds == RegulationRounds(r))
  }

  lemma RegulationInv(r: Rules, s: Tally, winner: Option<Team>)
    requires r.target >= 1 && Inv(r, s) && s.base.None?
    ensures Inv(r, Recorded(r, s, winner))
  {
    assert Need(r) >= 1;
    hide Need;
    var c := Counted(s, winner);
    if !Over(s) && Reached(c, 0, r.target).None? && c.rounds >= RegulationRounds(r) {
      hide Reached;
    }
  }

  lemma OvertimeInv(r: Rules, s: Tally, winner: Option<Team>)
    requires r.target >= 1 && Inv(r, s) && s.base.Some?
    ensures Inv(r, Recorded(r, s, winner))
  {
    assert Need(r) >= 1;
    hide Need;
    hide RegulationRounds;
  }

  lemma {:induction false} PlayedInv(r: Rules, results: seq<Option<Team>>)
    requires r.target >= 1
    ensures Inv(r, Played(r, results))
  {
    if results != [] {
      PlayedInv(r, results[..|results| - 1]);
      var s := Played(r, results[..|results| - 1]);
      if s.base.None? {
        RegulationInv(r, s, results[|results| - 1]);
      } else {
        OvertimeInv(r, s, results[|results| - 1]);
      }
    }
  }

  /**
   * Who wins, over every match: a decided winner is the one strict leader, with exactly N wins, or with exactly
   * the clinching number of this period's, or by leading when regulation or a period has run out.
   */
  lemma {:induction false} WinnerLeads(r: Rules, results: seq<Option<Team>>)
    requires r.target >= 1 && Played(r, results).decided.Some?
    ensures var s := Played(r, results);
            var t := s.decided.value;
            && Score(s, t) > Score(s, Other(t))
            && (if s.base.None? then Score(s, t) == r.target || s.rounds == RegulationRounds(r)
                else Score(s, t) - s.base.value == Need(r) || s.rounds == s.periodStart + r.overtime)
  {
    PlayedInv(r, results);
  }

  /** A plugin reload loses nothing: restoring what is saved of any reachable tally gives that tally back, so
      every continuation behaves the same. */
  lemma {:induction false} RestoreBringsBack(r: Rules, results: seq<Option<Team>>)
    requires r.target >= 1
    ensures var s := Played(r, results);
            Restored(r, Some(s.a), Some(s.b), s.rounds, s.base, s.periodStart) == s
  {
    PlayedInv(r, results);
  }

  /** A period starts level: with both teams on its base, in the round that ended the one before. */
  lemma {:induction false} PeriodsStartLevel(r: Rules, results: seq<Option<Team>>, winner: Option<Team>)
    requires r.target >= 1
    requires var s, next := Played(r, results), Played(r, results + [winner]);
             next.base.Some? && (s.base.None? || s.periodStart != next.periodStart)
    ensures var next := Played(r, results + [winner]);
            && next.a == next.b == next.base.value && next.periodStart == next.rounds
            && !Over(next)
            && (Played(r, results).base.None? ==> next.rounds == RegulationRounds(r))
  {
    PlayedInv(r, results);
    assert (results + [winner])[..|results|] == results;
  }

  lemma {:induction false} CountAll(results: seq<Option<Team>>)
    ensures |results| == Count(results, Some(A)) + Count(results, Some(B)) + Count(results, None)
  {
    if results != [] {
      CountAll(results[..|results| - 1]);
      var last := results[|results| - 1];
      assert last.None? || last.value.A? || last.value.B?;
    }
  }

  /** While regulation runs, the tally is the plain count of results. */
  lemma {:induction false} RegulationCounts(r: Rules, results: seq<Option<Team>>)
    requires r.target >= 1 && |results| <= RegulationRounds(r)
    ensures var s := Played(r, results);
            !Over(s) || s.rounds == |results| ==>
              s.rounds == |results| && s.a == Count(results, Some(A)) && s.b == Count(results, Some(B))
    ensures var s := Played(r, results);
            && s.rounds <= |results|
            && s.a <= Count(results, Some(A)) && s.b <= Count(results, Some(B))
            && (s.rounds < |results| ==> s.decided.Some? && Score(s, s.decided.value) == r.target)
  {
    PlayedInv(r, results);
    if results != [] {
      var before := results[..|results| - 1];
      RegulationCounts(r, before);
      PlayedInv(r, before);
    }
  }

  /** Regulation ends level exactly when both teams won as many of its rounds, and then an odd number were draws. */
  lemma RegulationTies(r: Rules, results: seq<Option<Team>>)
    requires r.target >= 1 && |results| == RegulationRounds(r)
    ensures Played(r, results).decided.None? <==> Count(results, Some(A)) == Count(results, Some(B))
    ensures Played(r, results).decided.None? ==> Count(results, None) % 2 == 1
    ensures Played(r, results).decided.None? ==> (Played(r, results).tied <==> r.overtime == 0)
  {
    RegulationCounts(r, results);
    CountAll(results);
    PlayedInv(r, results);
  }

  lemma {:induction false} OverStays(r: Rules, results: seq<Option<Team>>, n: nat)
    requires n <= |results| && Over(Played(r, results[..n]))
    ensures Played(r, results) == Played(r, results[..n])
    decreases |results|
  {
    if n < |results| {
      assert results[..|results| - 1][..n] == results[..n];
      OverStays(r, results[..|results| - 1], n);
    } else {
      assert results[..n] == results;
    }
  }

  /** Without draws the first team to N rounds wins, in regulation. */
  lemma NoDrawsNoOvertime(r: Rules, results: seq<Option<Team>>)
    requires r.target >= 1 && |results| >= RegulationRounds(r)
    requires Count(results[..RegulationRounds(r)], None) == 0
    ensures var s := Played(r, results);
            s.decided.Some? && s.base.None? && s.rounds <= RegulationRounds(r) && Score(s, s.decided.value) == r.target
  {
    var n := RegulationRounds(r);
    RegulationCounts(r, results[..n]);
    CountAll(results[..n]);
    RegulationTies(r, results[..n]);
    PlayedInv(r, results[..n]);
    OverStays(r, results, n);
  }

  // ---------- When a lead is safe ----------

  /** Rounds left of regulation or of the period. */
  function RoundsLeft(r: Rules, s: Tally): int {
    if s.base.None? then 2 * r.target - 1 - s.rounds else s.periodStart + r.overtime - s.rounds
  }

  /** Even with every round left the other team would stay behind t. */
  predicate Safe(r: Rules, s: Tally, t: Team) {
    Score(s, if t == A then B else A) + RoundsLeft(r, s) < Score(s, t)
  }

  /** What t won in regulation, or in the period so far. */
  function WonIn(s: Tally, t: Team): int {
    Score(s, t) - if s.base.None? then 0 else s.base.value
  }

  /** The rounds of it that nobody won. */
  function DrawsIn(s: Tally): int {
    s.rounds - (if s.base.None? then 0 else s.periodStart) - WonIn(s, A) - WonIn(s, B)
  }

  predicate HadDraw(s: Tally) {
    DrawsIn(s) > 0
  }

  /**
   * A match is never decided while the other team could still draw level, in regulation or in the period. Unless a
   * round of it was a draw, it is decided as soon as that is so.
   */
  lemma DecidedWhenSafe(r: Rules, results: seq<Option<Team>>)
    requires r.target >= 1
    ensures var s := Played(r, results);
            && RoundsLeft(r, s) >= 0
            && (s.decided.Some? ==> Safe(r, s, s.decided.value))
            && (!HadDraw(s) ==> forall t :: Safe(r, s, t) <==> s.decided == Some(t))
  {
    PlayedInv(r, results);
  }

  /**
   * Exactly when it is decided late for a team no one can catch: before it has enough wins and with rounds left, once
   * its wins counted twice and the draws are more than the rounds of regulation or of the period.
   */
  lemma DecidedLateIff(r: Rules, results: seq<Option<Team>>, t: Team)
    requires r.target >= 1
    ensures var s := Played(r, results);
            var length := if s.base.None? then 2 * r.target - 1 else r.overtime;
            var enough := if s.base.None? then r.target else Need(r);
            Safe(r, s, t) && s.decided != Some(t) <==>
            WonIn(s, t) < enough && RoundsLeft(r, s) > 0 && 2 * WonIn(s, t) + DrawsIn(s) > length
  {
    PlayedInv(r, results);
    DecidedWhenSafe(r, results);
    if Played(r, results).decided.Some? {
      WinnerLeads(r, results);
    }
    hide Played, Inv;
  }

  /** A draw can delay it: two wins, two draws and one round left in a first to 3, which plays on. */
  lemma DrawsDelay()
    ensures var r, s := RulesOf(3, 0), Played(RulesOf(3, 0), [Some(A), Some(A), None, None]);
            HadDraw(s) && Safe(r, s, A) && !Over(s)
  {
    var r := RulesOf(3, 0);
    var none: seq<Option<Team>> := [];
    var one, two, three := none + [Some(A)], none + [Some(A)] + [Some(A)], none + [Some(A)] + [Some(A)] + [None];
    PlayedLast(r, none, Some(A));
    PlayedLast(r, one, Some(A));
    PlayedLast(r, two, None);
    PlayedLast(r, three, None);
    hide Played;
    assert three + [None] == [Some(A), Some(A), None, None];
    assert Played(r, one) == Tally(1, 0, 1, None, 0, None, false);
    assert Played(r, two) == Tally(2, 0, 2, None, 0, None, false);
    assert Played(r, three) == Tally(2, 0, 3, None, 0, None, false);
  }

  lemma PlayedLast(r: Rules, results: seq<Option<Team>>, last: Option<Team>)
    ensures Played(r, results + [last]) == Recorded(r, Played(r, results), last)
    ensures Played(r, []) == START
  {
    assert (results + [last])[..|results|] == results;
  }

  /** A restore of any saved values keeps them, reading a missing team as no wins, a negative count as none and a period
      only with overtime on, and decides as a round would. */
  lemma RestoresAnything(r: Rules, a: Option<int>, b: Option<int>, rounds: int, base: Option<int>, periodStart: int)
    ensures var s := Restored(r, a, b, rounds, base, periodStart);
            && (a.None? ==> s.a == 0) && (a.Some? ==> s.a == a.value)
            && (b.None? ==> s.b == 0) && (b.Some? ==> s.b == b.value)
            && (s.rounds == rounds || (rounds < 0 && s.rounds == 0))
            && (r.overtime == 0 ==> s.base.None?)
            && (Over(s) && r.overtime > 0 ==> s.base == base && !s.tied)
            && (!Over(s) && s.base == base && base.Some? && s.periodStart != s.rounds ==> s.periodStart == periodStart)
  {
  }

  /**
   * Who a restore of saved wins decides for, before the end of regulation or of a period: the team with enough wins,
   * and A when both have. In overtime half of the rounds and one more are enough, counted from the base of the period.
   */
  lemma RestoredWinner(r: Rules, a: int, b: int, rounds: nat, base: Option<int>, periodStart: int)
    requires r.overtime == 0 ==> base.None?
    requires if base.None? then rounds < 2 * r.target - 1 else rounds - periodStart < r.overtime
    ensures var s := Restored(r, Some(a), Some(b), rounds, base, periodStart);
            var enough := if base.None? then r.target else base.value + r.overtime / 2 + 1;
            && (s.decided == Some(A) <==> a >= enough)
            && (s.decided == Some(B) <==> b >= enough && a < enough)
            && !s.tied && s.base == base && s.periodStart == periodStart
  {
  }
}
