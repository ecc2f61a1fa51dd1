/**
 * The match plugin's own view of a Rush match: RushScoreTracker (ScoreTracker.cs) follows the front and
 * the wins without asking the script, RushRoomPlan (RushRooms.cs) knows which room the veto put in each slot.
 */
module RushTracker {
  import opened Common
  import RushScript
  import RushRooms
  import VetoEngine

  type Side = RushScript.Side

  const T := RushScript.Side.T
  const CT := RushScript.Side.CT
  const T_CASTLE_SLOT := 0
  const CT_CASTLE_SLOT := 6
  const START_SLOT := 3
  const ROUNDS_TO_WIN := 8

  // ---------- Score ----------

  datatype Score = Score(tWins: nat, ctWins: nat, slot: int, rounds: nat, decided: Option<Side>)

  const FRESH := Score(0, 0, START_SLOT, 0, None)

  function Recorded(s: Score, winner: Side): Score {
    var played := s.(rounds := s.rounds + 1);
    if s.decided.Some? || !RushScript.Playing(winner) then played
    else
      var forT := winner == T;
      var won := if forT then played.(tWins := s.tWins + 1) else played.(ctWins := s.ctWins + 1);
      var castle := s.slot == (if forT then CT_CASTLE_SLOT else T_CASTLE_SLOT);
      if castle then won.(decided := Some(winner))
      else
        var moved := won.(slot := s.slot + (if forT then 1 else -1));
        if (if forT then won.tWins else won.ctWins) >= ROUNDS_TO_WIN then moved.(decided := Some(winner)) else moved
  }

  function Clamp(x: int): (r: int)
    ensures 0 <= r <= 6 && (0 <= x <= 6 ==> r == x)
  {
    if x < T_CASTLE_SLOT then T_CASTLE_SLOT else if x > CT_CASTLE_SLOT then CT_CASTLE_SLOT else x
  }

  function NonNegative(x: int): (r: nat) {
    if x < 0 then 0 else x
  }

  function Restored(s: Score, front: int, tWins: int, ctWins: int, rounds: int, decided: Option<Side>): Score {
    var kept := if decided.Some? && RushScript.Playing(decided.value) then decided else s.decided;
    var t, ct := NonNegative(tWins), NonNegative(ctWins);
    Score(t, ct, Clamp(front), NonNegative(rounds),
          if kept.Some? then kept
          else if t >= ROUNDS_TO_WIN then Some(T)
          else if ct >= ROUNDS_TO_WIN then Some(CT)
          else None)
  }

  predicate DeciderNext(s: Score) {
    s.tWins == 7 && s.ctWins == 7
  }

  class RushScoreTracker {
    var tWins: nat
    var ctWins: nat
    var slot: int
    var roundsPlayed: nat
    var decidedWinner: Option<Side>

    function View(): Score
      reads this
    {
      Score(tWins, ctWins, slot, roundsPlayed, decidedWinner)
    }

    constructor ()
      ensures View() == FRESH
    {
      tWins, ctWins, slot, roundsPlayed, decidedWinner := 0, 0, START_SLOT, 0, None;
    }

    /** The next round is the decider. */
    predicate NextIsDecider()
      reads this
    {
      DeciderNext(View())
    }

    /** The side that won the match with this round, if any. */
    method RecordRound(winner: Side) returns (won: Option<Side>)
      modifies this
      ensures View() == Recorded(old(View()), winner)
      ensures won == if old(decidedWinner).Some? then None else decidedWinner
    {
      roundsPlayed := roundsPlayed + 1;
      if decidedWinner.Some? || !RushScript.Playing(winner) {
        return None;
      }
      if winner == T {
        tWins := tWins + 1;
        if slot == CT_CASTLE_SLOT { decidedWinner := Some(T); } else { slot := slot + 1; }
      } else {
        ctWins := ctWins + 1;
        if slot == T_CASTLE_SLOT { decidedWinner := Some(CT); } else { slot := slot - 1; }
      }
      if decidedWinner.None? && (if winner == T then tWins else ctWins) >= ROUNDS_TO_WIN {
        decidedWinner := Some(winner);
      }
      return decidedWinner;
    }

    method Restore(frontSlot: int, t: int, ct: int, rounds: int, decided: Option<Side>)
      modifies this
      ensures View() == Restored(old(View()), frontSlot, t, ct, rounds, decided)
    {
      if decided.Some? && RushScript.Playing(decided.value) {
        decidedWinner := decided;
      }
      slot := Clamp(frontSlot);
      tWins, ctWins, roundsPlayed := NonNegative(t), NonNegative(ct), NonNegative(rounds);
      if decidedWinner.Some? {
        return;
      }
      if tWins >= ROUNDS_TO_WIN {
        decidedWinner := Some(T);
      } else if ctWins >= ROUNDS_TO_WIN {
        decidedWinner := Some(CT);
      }
    }
  }

  /** The score after a list of round results, draws included. */
  function Played(winners: seq<Side>): Score {
    if winners == [] then FRESH else Recorded(Played(winners[..|winners| - 1]), winners[|winners| - 1])
  }

  /** A restart of the plugin loses nothing: what it saves of any score it can reach brings that very score back. */
  lemma {:induction false} RestoreBringsBack(winners: seq<Side>)
    ensures var s := Played(winners);
            && Restored(FRESH, s.slot, s.tWins, s.ctWins, s.rounds, s.decided) == s
            && s.rounds == |winners|
            && (s.decided.Some? ==> RushScript.Playing(s.decided.value))
            && (s.decided.None? ==> s.tWins < 8 && s.ctWins < 8 && s.slot == START_SLOT + s.tWins - s.ctWins)
  {
    if winners != [] {
      RestoreBringsBack(winners[..|winners| - 1]);
    }
  }

  /** What a restore makes of any saved values: negative counts are none, the front is kept on the map, and the winner
      is the saved side, or the one the tracker had, or else a side with eight wins. */
  lemma RestoresAnything(s: Score, front: int, tWins: int, ctWins: int, rounds: int, decided: Option<Side>)
    ensures var r := Restored(s, front, tWins, ctWins, rounds, decided);
            && (r.tWins == tWins || (tWins < 0 && r.tWins == 0))
            && (r.ctWins == ctWins || (ctWins < 0 && r.ctWins == 0))
            && (r.rounds == rounds || (rounds < 0 && r.rounds == 0))
            && (r.slot == front || (front < 0 && r.slot == 0) || (front > 6 && r.slot == 6))
            && (decided == Some(T) || decided == Some(CT) ==> r.decided == decided)
            && (decided != Some(T) && decided != Some(CT) && s.decided.Some? ==> r.decided == s.decided)
            && (decided != Some(T) && decided != Some(CT) && s.decided.None? ==>
                  && (r.decided == Some(T) <==> tWins >= 8)
                  && (r.decided == Some(CT) <==> tWins < 8 && ctWins >= 8)
                  && (r.decided.Some? ==> r.decided == Some(T) || r.decided == Some(CT)))
  {
  }

  // ---------- Room plan ----------

  /** Room ids for slots 1 to 5. */
  datatype Plan = Plan(slots: seq<int>)

  predicate InPool(slot: int, id: int) {
    if slot == START_SLOT then 101 <= id <= 104 else 201 <= id <= 212
  }

  predicate GoodPlan(slots: seq<int>) {
    && |slots| == 5
    && !VetoEngine.HasRepeats(slots)
    && forall i | 0 <= i < 5 :: InPool(i + 1, slots[i])
  }

  /** A full path from castle to castle stands for the five rooms between. */
  function Between(ids: seq<int>): seq<int> {
    if |ids| == 7 && ids[0] == RushRooms.T_CASTLE && ids[6] == RushRooms.CT_CASTLE then ids[1..6] else ids
  }

  /** No plan and no error when there are no rooms at all. */
  method TryParse(ids: Option<seq<int>>) returns (plan: Option<Plan>, error: bool)
    ensures plan.Some? <==> ids.Some? && GoodPlan(Between(ids.value))
    ensures plan.Some? ==> plan.value == Plan(Between(ids.value))
    ensures error <==> ids.Some? && plan.None?
  {
    if ids.None? {
      return None, false;
    }
    var rooms := ids.value;
    if |rooms| == 5 + 2 && rooms[0] == RushRooms.T_CASTLE && rooms[|rooms| - 1] == RushRooms.CT_CASTLE {
      rooms := rooms[1..][..5];
      assert rooms == Between(ids.value);
    }
    if |rooms| != 5 {
      return None, true;
    }
    if VetoEngine.HasRepeats(rooms) {
      return None, true;
    }
    var i := 0;
    while i < |rooms|
      invariant 0 <= i <= |rooms|
      invariant forall k | 0 <= k < i :: InPool(k + 1, rooms[k])
    {
      if !InPool(i + 1, rooms[i]) {
        return None, true;
      }
      i := i + 1;
    }
    return Some(Plan(rooms)), false;
  }

  function RoomAt(plan: Plan, slot: int): int
    requires |plan.slots| == 5 && 0 <= slot <= 6
  {
    if slot == T_CASTLE_SLOT then RushRooms.T_CASTLE
    else if slot == CT_CASTLE_SLOT then RushRooms.CT_CASTLE
    else plan.slots[slot - 1]
  }

  function Path(plan: Plan): (r: seq<int>)
    requires |plan.slots| == 5
  {
    seq(7, i requires 0 <= i < 7 => RoomAt(plan, i))
  }

  /** The room the next round should be in, or none for the decider. */
  function ExpectedArena(plan: Plan, frontSlot: int, decider: bool): Option<int>
    requires |plan.slots| == 5
  {
    if decider then None else Some(RoomAt(plan, Clamp(frontSlot)))
  }

  /** Three implementations of one rule: on seven ids the website's path check, the plugin's parser and the
      script's check of the rooms between the castles accept exactly the same paths. */
  lemma PathRulesAgree(ids: seq<int>)
    requires |ids| == 7
    ensures RushRooms.ValidPath(ids) <==> GoodPlan(Between(ids))
    ensures RushRooms.ValidPath(ids) <==>
            ids[0] == RushScript.T_CASTLE && ids[6] == RushScript.CT_CASTLE && RushScript.AcceptedPicks(ids[1..6])
  {
    PlanIsAccepted(Between(ids));
    if ids[0] == RushRooms.T_CASTLE && ids[6] == RushRooms.CT_CASTLE {
      var five := ids[1..6];
      forall i | 0 <= i < 5 ensures five[i] == ids[i + 1] {
      }
      RushRooms.PoolMembers();
      assert five[0] == ids[1] && five[1] == ids[2] && five[2] == ids[3] && five[3] == ids[4] && five[4] == ids[5];
      if GoodPlan(five) {
        NoRepeatsWithCastles(ids);
      } else if RushRooms.ValidPath(ids) {
        assert !VetoEngine.HasRepeats(five) by {
          forall i, j | 0 <= i < j < 5 ensures five[i] != five[j] {
            assert ids[i + 1] != ids[j + 1];
          }
        }
        forall i | 0 <= i < 5 ensures InPool(i + 1, five[i]) {
          assert i == 0 || i == 1 || i == 2 || i == 3 || i == 4;
        }
        assert GoodPlan(five);
      }
    }
  }

  lemma NoRepeatsWithCastles(ids: seq<int>)
    requires |ids| == 7 && ids[0] == RushRooms.T_CASTLE && ids[6] == RushRooms.CT_CASTLE && GoodPlan(ids[1..6])
    ensures !VetoEngine.HasRepeats(ids)
  {
    var five := ids[1..6];
    forall i, j | 0 <= i < j < 7 ensures ids[i] != ids[j] {
      assert 1 <= i <= 5 ==> InPool(i, five[i - 1]);
      assert 1 <= j <= 5 ==> InPool(j, five[j - 1]);
      if 1 <= i && j <= 5 {
        assert five[i - 1] != five[j - 1];
      }
    }
  }

  /** The plugin only sends the script rooms the script accepts, and never holds back any it would accept. */
  lemma PlanIsAccepted(slots: seq<int>)
    ensures GoodPlan(slots) <==> RushScript.AcceptedPicks(slots)
  {
    if |slots| == 5 {
      forall i | 0 <= i < 5 ensures slots[i] in RushScript.SlotPool(i + 1) <==> InPool(i + 1, slots[i]) {
        assert i == 0 || i == 1 || i == 2 || i == 3 || i == 4;
      }
    }
  }

  /** The rooms the script then plays are the plan's path. */
  lemma ForcedRoomsArePath(plan: Plan)
    requires GoodPlan(plan.slots)
    ensures forall i | 0 <= i < 7 :: RushScript.ForcedRooms(plan.slots)[i] == RushScript.Num(RoomAt(plan, i))
    ensures RushRooms.ValidPath(Path(plan)) && Between(Path(plan)) == plan.slots
  {
    assert Path(plan)[1..6] == plan.slots;
    PathRulesAgree(Path(plan));
  }
}
