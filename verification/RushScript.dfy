/**
 * The Rush match script with the room veto hook (plugin/rush-script/rush_001.js): which rooms are played,
 * who owns them, where the front is and when the match is over. Engine state the script asks for
 * (warmup, freeze time, rounds played, remaining time, wiped teams) is a parameter of each event.
 */
module RushScript {
  import opened Common

  datatype Side = Neither | Spectator | T | CT

  predicate Playing(s: Side) {
    s == T || s == CT
  }

  datatype RoomId = Num(id: int) | Convoy

  const START_ROOM := 3
  const T_FINAL_ROOM := 0
  const CT_FINAL_ROOM := 6
  const ROUNDS_TO_WIN := 8
  const T_CASTLE := 401
  const CT_CASTLE := 301

  predicate MidRoom(id: int) {
    201 <= id <= 212
  }

  predicate StartRoomId(id: int) {
    101 <= id <= 104
  }

  /** Ids the script allows in a slot. */
  function SlotPool(slot: nat): (r: seq<int>)
    requires slot < 7
    ensures forall x ::
              x in r <==>
              match slot case 0 => x == T_CASTLE case 6 => x == CT_CASTLE case 3 => StartRoomId(x) case _ => MidRoom(x)
  {
    match slot
    case 0 => [T_CASTLE]
    case 6 => [CT_CASTLE]
    case 3 => IdRange(101, 4)
    case _ => IdRange(201, 12)
  }

  function IdRange(first: int, n: nat): (r: seq<int>)
    ensures |r| == n && forall i | 0 <= i < n :: r[i] == first + i
    ensures forall x :: x in r <==> first <= x < first + n
  {
    var r := seq(n, i => first + i);
    assert forall x :: x in r <==> first <= x < first + n by {
      forall x | first <= x < first + n ensures x in r {
        assert r[x - first] == x;
      }
    }
    r
  }

  // ---------- The state as a value ----------

  /** Rooms, owners, front, wins and flags. rooms and owners have one entry per slot. */
  datatype Match = Match(
    rooms: seq<RoomId>,
    owners: seq<Side>,
    front: int,
    tWins: nat,
    ctWins: nat,
    gameOver: bool,
    roundOver: bool,
    lastRoundsPlayed: int,
    forced: Option<seq<RoomId>>)

  ghost predicate WellFormed(m: Match) {
    && |m.rooms| == 7 && |m.owners| == 7 && 0 <= m.front <= 6
    && (m.forced.Some? ==> Drawn(m.forced.value, 7))
  }

  const FIRST_OWNERS: seq<Side> := [T, T, T, CT, CT, CT, CT]

  function Reset(m: Match, rooms: seq<RoomId>): Match {
    m.(rooms := rooms, owners := FIRST_OWNERS, front := START_ROOM, tWins := 0, ctWins := 0, gameOver := false)
  }

  /** What RandomizeRooms may leave: the forced rooms, or a room per slot from its pool with no repeats. */
  ghost predicate MayDraw(m: Match, rooms: seq<RoomId>) {
    if m.forced.Some? then rooms == m.forced.value else Drawn(rooms, 7)
  }

  ghost predicate Drawn(rooms: seq<RoomId>, n: nat) {
    && |rooms| == n <= 7
    && (forall i | 0 <= i < n :: rooms[i].Num? && rooms[i].id in SlotPool(i))
    && (forall i, j | 0 <= i < j < n :: rooms[i] != rooms[j])
  }

  function Wins(m: Match, side: Side): nat {
    if side == T then m.tWins else if side == CT then m.ctWins else 0
  }

  /** Owner of the room being played. */
  function Owner(m: Match): Side
    requires WellFormed(m)
  {
    m.owners[m.front]
  }

  /** The win and the room go to the winner of the round. */
  function Scored(m: Match, w: Side): Match
    requires WellFormed(m)
  {
    m.(roundOver := true,
       tWins := m.tWins + (if w == T then 1 else 0),
       ctWins := m.ctWins + (if w == CT then 1 else 0),
       owners := m.owners[m.front := w])
  }

  /** The front moves on, past a castle the game is over, and at seven wins each the new room is Convoy. */
  function MovedOn(m: Match, w: Side): Match
    requires WellFormed(m)
  {
    var next := m.front + (if w == T then 1 else if w == CT then -1 else 0);
    if next < T_FINAL_ROOM || next > CT_FINAL_ROOM then m.(gameOver := true)
    else
      var decider := m.tWins == ROUNDS_TO_WIN - 1 && m.ctWins == ROUNDS_TO_WIN - 1;
      m.(rooms := if decider then m.rooms[next := Convoy] else m.rooms, front := next)
  }

  function AfterRound(m: Match, winner: Side, warmup: bool): Match
    requires WellFormed(m)
  {
    if warmup then m
    else
      var w := if winner == Spectator then Neither else winner;
      MovedOn(Scored(m, w), w)
  }

  /** The engine readings an elimination check depends on. */
  datatype Engine = Engine(timeUp: bool, tWiped: bool, ctWiped: bool)

  predicate RoundDecided(m: Match, e: Engine) {
    m.roundOver || m.gameOver || e.timeUp
  }

  /** The round end an elimination asks the engine for, if any. */
  function EliminationAsk(m: Match, e: Engine): Option<Side>
    requires WellFormed(m)
  {
    if RoundDecided(m, e) || (!e.tWiped && !e.ctWiped) then None
    else if e.tWiped && e.ctWiped then Some(Owner(m))
    else if Owner(m) == (if e.tWiped then CT else T) then Some(Owner(m))
    else None
  }

  function AfterButton(m: Match, presser: Side, warmup: bool, e: Engine): Match
    requires WellFormed(m)
  {
    if RoundDecided(m, e) || warmup then m else m.(owners := m.owners[m.front := presser])
  }

  function ButtonAsk(m: Match, presser: Side, warmup: bool, e: Engine): Option<Side>
    requires WellFormed(m)
  {
    if RoundDecided(m, e) || warmup then None else EliminationAsk(AfterButton(m, presser, warmup, e), e)
  }

  function ThinkAsk(m: Match, warmup: bool, freeze: bool, e: Engine): Option<Side>
    requires WellFormed(m)
  {
    if !warmup && !freeze && !m.gameOver && !m.roundOver && e.timeUp then Some(Owner(m)) else None
  }

  /** A side has the only players left. */
  predicate OnlyLeft(side: Side, e: Engine) {
    (side == T && e.ctWiped && !e.tWiped) || (side == CT && e.tWiped && !e.ctWiped)
  }

  /**
   * Which elimination ends the round: in a live round, when everybody is dead, or when the side that owns the room has
   * the only players left. It ends for the owner, so never for a side that is the only one wiped out.
   */
  lemma EliminationEnds(m: Match, e: Engine)
    requires WellFormed(m)
    ensures EliminationAsk(m, e).Some? <==>
            && !m.roundOver && !m.gameOver && !e.timeUp
            && ((e.tWiped && e.ctWiped) || OnlyLeft(Owner(m), e))
    ensures EliminationAsk(m, e).Some? ==> EliminationAsk(m, e).value == Owner(m)
    ensures EliminationAsk(m, e) == Some(T) ==> e.ctWiped
    ensures EliminationAsk(m, e) == Some(CT) ==> e.tWiped
  {
  }

  /** A press gives the room to the presser in every live round, and ends it under the same condition. */
  lemma PressEnds(m: Match, presser: Side, warmup: bool, e: Engine)
    requires WellFormed(m)
    ensures var live := !m.roundOver && !m.gameOver && !e.timeUp && !warmup;
            && AfterButton(m, presser, warmup, e) == (if live then m.(owners := m.owners[m.front := presser]) else m)
            && (ButtonAsk(m, presser, warmup, e).Some? <==>
                  live && ((e.tWiped && e.ctWiped) || OnlyLeft(presser, e)))
            && (ButtonAsk(m, presser, warmup, e).Some? ==> ButtonAsk(m, presser, warmup, e).value == presser)
  {
    if !RoundDecided(m, e) && !warmup {
      EliminationEnds(AfterButton(m, presser, warmup, e), e);
    }
  }

  /** Time ends a round for the owner of the room, once, outside warmup and freeze time. */
  lemma TimeEnds(m: Match, warmup: bool, freeze: bool, e: Engine)
    requires WellFormed(m)
    ensures ThinkAsk(m, warmup, freeze, e).Some? <==>
            e.timeUp && !(warmup || freeze || m.roundOver || m.gameOver)
    ensures ThinkAsk(m, warmup, freeze, e).Some? ==> ThinkAsk(m, warmup, freeze, e).value == Owner(m)
  {
  }

  /**
   * A round: the room goes to the side that won it, or to nobody. A T win moves the front towards the CT castle and a
   * CT win back, and whoever wins in the castle of the others has won. Every other room keeps its owner.
   */
  lemma RoundMoves(m: Match, winner: Side)
    requires WellFormed(m)
    ensures var r := AfterRound(m, winner, false);
            && |r.owners| == 7 && r.roundOver
            && r.owners[m.front] == (if Playing(winner) then winner else Neither)
            && (forall i | 0 <= i < 7 && i != m.front :: r.owners[i] == m.owners[i])
            && (r.gameOver <==> m.gameOver || (winner == T && m.front == 6) || (winner == CT && m.front == 0))
            && (winner == T && m.front < 6 ==> r.front == m.front + 1)
            && (winner == CT && m.front > 0 ==> r.front == m.front - 1)
            && (!Playing(winner) || (winner == T && m.front == 6) || (winner == CT && m.front == 0) ==>
                  r.front == m.front)
            && Wins(r, T) == Wins(m, T) + (if winner == T then 1 else 0)
            && Wins(r, CT) == Wins(m, CT) + (if winner == CT then 1 else 0)
    ensures AfterRound(m, winner, true) == m
  {
  }

  function AfterRoundStart(m: Match, roundsPlayed: int, rooms: seq<RoomId>): Match {
    var started := m.(roundOver := false);
    (if roundsPlayed < m.lastRoundsPlayed then Reset(started, rooms) else started).(lastRoundsPlayed := roundsPlayed)
  }

  /** The five rooms between the castles the script accepts. */
  predicate AcceptedPicks(picks: seq<int>) {
    && |picks| == 5
    && (forall i | 0 <= i < 5 :: picks[i] in SlotPool(i + 1))
    && !(exists i, j | 0 <= i < j < 5 :: picks[i] == picks[j])
  }

  function ForcedRooms(picks: seq<int>): (r: seq<RoomId>)
    ensures |r| == |picks| + 2
  {
    [Num(T_CASTLE)] + seq(|picks|, i requires 0 <= i < |picks| => Num(picks[i])) + [Num(CT_CASTLE)]
  }

  // ---------- The script ----------

  class Script {
    var roomIds: seq<RoomId>
    var currentRoom: int
    var roomStates: seq<Side>
    var tWins: nat
    var ctWins: nat
    var gameOver: bool
    var roundOver: bool
    var lastRoundsPlayed: int
    var forcedRooms: Option<seq<RoomId>>

    function View(): Match
      reads this
    {
      Match(roomIds, roomStates, currentRoom, tWins, ctWins, gameOver, roundOver, lastRoundsPlayed, forcedRooms)
    }

    ghost predicate Valid()
      reads this
    {
      WellFormed(View())
    }

    /** Loading the script and its activation. */
    constructor ()
      ensures Valid()
      ensures Drawn(roomIds, 7) && View() == Match(roomIds, FIRST_OWNERS, START_ROOM, 0, 0, false, false, 0, None)
    {
      roomIds, roomStates, currentRoom := [], [], -1;
      tWins, ctWins, gameOver, roundOver, lastRoundsPlayed := 0, 0, false, false, 0;
      forcedRooms := None;
      new;
      ResetGameState();
    }

    method ResetGameState()
      requires forcedRooms.Some? ==> Drawn(forcedRooms.value, 7)
      modifies this
      ensures Valid()
      ensures MayDraw(old(View()), roomIds) && View() == Reset(old(View()), roomIds)
    {
      gameOver := false;
      tWins, ctWins := 0, 0;
      RandomizeRooms();
      roomStates := [Neither, Neither, Neither, Neither, Neither, Neither, Neither];
      SetRoomControl(0, T);
      SetRoomControl(1, T);
      SetRoomControl(2, T);
      SetRoomControl(3, CT);
      SetRoomControl(4, CT);
      SetRoomControl(5, CT);
      SetRoomControl(6, CT);
      assert roomStates == FIRST_OWNERS;
      currentRoom := START_ROOM;
    }

    method RandomizeRooms()
      modifies this`roomIds
      ensures MayDraw(old(View()), roomIds)
    {
      if forcedRooms.Some? {
        roomIds := forcedRooms.value;
        return;
      }
      roomIds := [];
      var slot := 0;
      while slot < 7
        invariant 0 <= slot <= 7
        invariant Drawn(roomIds, slot)
      {
        var pool := SlotPool(slot);
        RoomsRemain(roomIds, slot);
        var id :| id in pool && Num(id) !in roomIds;
        roomIds := roomIds + [Num(id)];
        slot := slot + 1;
      }
    }

    method SetRoomControl(slot: int, team: Side)
      requires 0 <= slot < |roomStates|
      modifies this`roomStates
      ensures roomStates == old(roomStates)[slot := team]
    {
      if roomStates[slot] == team {
        return;
      }
      roomStates := roomStates[slot := team];
    }

    method OnRoundEnd(winner: Side, warmup: bool)
      requires Valid()
      modifies this
      ensures Valid() && View() == AfterRound(old(View()), winner, warmup)
    {
      if warmup {
        return;
      }
      var w := winner;
      if w == Spectator {
        w := Neither;
      }
      roundOver := true;
      if w == T { tWins := tWins + 1; }
      if w == CT { ctWins := ctWins + 1; }
      SetRoomControl(currentRoom, w);
      assert View() == Scored(old(View()), w);
      var next := currentRoom;
      if w == T {
        next := next + 1;
      } else if w == CT {
        next := next - 1;
      }
      if next < T_FINAL_ROOM || next > CT_FINAL_ROOM {
        gameOver := true;
      } else {
        MaybeSwapInDeciderRoom(next);
        currentRoom := next;
      }
    }

    method MaybeSwapInDeciderRoom(slot: int)
      requires 0 <= slot < |roomIds|
      modifies this`roomIds
      ensures roomIds == if tWins == 7 && ctWins == 7 then old(roomIds)[slot := Convoy] else old(roomIds)
    {
      if tWins != ROUNDS_TO_WIN - 1 { return; }
      if ctWins != ROUNDS_TO_WIN - 1 { return; }
      roomIds := roomIds[slot := Convoy];
    }

    method OnRoundStart(roundsPlayed: int)
      requires Valid()
      modifies this
      ensures Valid()
      ensures View() == AfterRoundStart(old(View()), roundsPlayed, roomIds)
      ensures roundsPlayed < old(lastRoundsPlayed) ==> MayDraw(old(View()), roomIds)
    {
      roundOver := false;
      if roundsPlayed < lastRoundsPlayed {
        ResetGameState();
      }
      lastRoundsPlayed := roundsPlayed;
    }

    method CheckEliminationRoundEnd(e: Engine) returns (ask: Option<Side>)
      requires Valid()
      ensures ask == EliminationAsk(View(), e)
      ensures ask.Some? <==>
              && !roundOver && !gameOver && !e.timeUp
              && ((e.tWiped && e.ctWiped) || OnlyLeft(Owner(View()), e))
      ensures ask.Some? ==> ask.value == Owner(View())
    {
      if roundOver || gameOver || e.timeUp {
        return None;
      }
      if !e.tWiped && !e.ctWiped {
        return None;
      }
      if e.tWiped && e.ctWiped {
        return Some(roomStates[currentRoom]);
      }
      var surviving := if e.tWiped then CT else T;
      ask := if roomStates[currentRoom] == surviving then Some(surviving) else None;
    }

    method OnButtonPressed(presser: Side, warmup: bool, e: Engine) returns (ask: Option<Side>)
      requires Valid()
      modifies this`roomStates
      ensures Valid() && View() == AfterButton(old(View()), presser, warmup, e)
      ensures ask == ButtonAsk(old(View()), presser, warmup, e)
    {
      if roundOver || gameOver || e.timeUp {
        return None;
      }
      if warmup {
        return None;
      }
      SetRoomControl(currentRoom, presser);
      ask := CheckEliminationRoundEnd(e);
    }

    method Think(warmup: bool, freeze: bool, e: Engine) returns (ask: Option<Side>)
      requires Valid()
      ensures ask == ThinkAsk(View(), warmup, freeze, e)
    {
      ask := None;
      if !warmup && !freeze && !gameOver && !roundOver {
        if e.timeUp {
          ask := Some(roomStates[currentRoom]);
        }
      }
    }

    /** Rooms from the website veto. A bad set, or one that comes after rounds were played, changes nothing. */
    method RushsiteApplyRooms(picks: seq<int>, warmup: bool, roundsPlayed: int) returns (applied: Option<seq<RoomId>>)
      requires Valid()
      modifies this
      ensures Valid()
      ensures applied.Some? <==> AcceptedPicks(picks) && (warmup || roundsPlayed <= 0)
      ensures applied.None? ==> View() == old(View())
      ensures applied.Some? ==> applied.value == ForcedRooms(picks)
      ensures applied.Some? ==> View() == Reset(old(View()), ForcedRooms(picks)).(forced := Some(ForcedRooms(picks)))
    {
      var valid := |picks| == 5;
      var i := 0;
      while valid && i < 5
        invariant 0 <= i <= 5
        invariant valid ==> |picks| == 5 && forall k | 0 <= k < i :: picks[k] in SlotPool(k + 1)
        invariant !valid ==> !AcceptedPicks(picks)
      {
        valid := picks[i] in SlotPool(i + 1);
        i := i + 1;
      }
      if !valid || (exists a, b | 0 <= a < b < |picks| :: picks[a] == picks[b]) {
        return None;
      }
      if !warmup && roundsPlayed > 0 {
        return None;
      }
      ForcedAreDrawable(picks);
      forcedRooms := Some(ForcedRooms(picks));
      ResetGameState();
      applied := Some(roomIds);
    }
  }

  /** Accepted picks between the castles are one of the sets the random draw could give. */
  lemma ForcedAreDrawable(picks: seq<int>)
    requires AcceptedPicks(picks)
    ensures Drawn(ForcedRooms(picks), 7)
  {
    var rooms := ForcedRooms(picks);
    forall i | 0 <= i < 7 ensures rooms[i].Num? && rooms[i].id in SlotPool(i) {
      if 1 <= i <= 5 {
        assert picks[i - 1] in SlotPool((i - 1) + 1);
      }
    }
    forall i, j | 0 <= i < j < 7 ensures rooms[i] != rooms[j] {
      if 1 <= i && j <= 5 {
        assert picks[i - 1] != picks[j - 1];
      }
    }
  }

  /** A slot's pool always has a room not drawn yet: the pools are bigger than the slots that share them. */
  lemma RoomsRemain(rooms: seq<RoomId>, slot: nat)
    requires slot < 7 && Drawn(rooms, slot)
    ensures exists id :: id in SlotPool(slot) && Num(id) !in rooms
  {
    var pool := SlotPool(slot);
    if slot == 0 || slot == 3 || slot == 6 {
      assert pool[0] in pool && Num(pool[0]) !in rooms;
    } else {
      var taken := set r | r in rooms && r.Num? :: r.id;
      var all := IdRange(201, 12);
      var free := Elems(all) - taken;
      FewTaken(rooms, taken);
      DistinctCard(all);
      if free == {} {
        forall x | x in Elems(all) ensures x in taken {
          assert x !in free;
        }
        SubsetCard(Elems(all), taken);
      }
      var id :| id in free;
    }
  }

  lemma FewTaken(rooms: seq<RoomId>, taken: set<int>)
    requires taken == set r | r in rooms && r.Num? :: r.id
    ensures |taken| <= |rooms|
  {
    if rooms == [] {
      assert taken == {};
    } else {
      var n := |rooms| - 1;
      var before := set r | r in rooms[..n] && r.Num? :: r.id;
      FewTaken(rooms[..n], before);
      var last := if rooms[n].Num? then {rooms[n].id} else {};
      assert rooms == rooms[..n] + [rooms[n]];
      assert taken == before + last;
    }
  }
}
