/**
 * Whole Rush matches: the game script and the plugin's tracker side by side over any run of presses, deaths,
 * thinks, round ends, round starts, restarts and room vetoes. The engine decides what happens when.
 */
module RushMatch {
  import opened Common
  import opened RushScript
  import opened RushTracker

  /**
   * asked: the round ends the script asked for in this round. base: the rooms the last reset put in. seen: the script
   * missed no restart since it was last reset.
   */
  datatype World = World(m: Match, s: Score, asked: set<Side>, base: seq<RoomId>, seen: bool)

  datatype Event =
    | Press(presser: Side, e: Engine)
    | Wipe(e: Engine)
    | Tick(freeze: bool, e: Engine)
    | End(winner: Side)
    | Start
    | Restart(rooms: seq<RoomId>)
    | Veto(picks: seq<int>)

  function AddAsk(asked: set<Side>, ask: Option<Side>): set<Side> {
    if ask.Some? then asked + {ask.value} else asked
  }

  /**
   * The script resets on a restart only when it sees the round count drop. It does not when the only round
   * ended so far was not followed by a round start: then its last count is still 0. Without wins that does not show
   * in score and front.
   */
  predicate RestartSeen(m: Match) {
    m.lastRoundsPlayed > 0 || m.tWins + m.ctWins == 0
  }

  /** No round ends twice and none ends or starts once the match is decided. */
  ghost predicate Enabled(w: World, ev: Event) {
    && WellFormed(w.m)
    && match ev
    case End(_) => w.s.decided.None? && !w.m.roundOver
    case Start => w.s.decided.None?
    case Restart(rooms) => MayDraw(w.m, rooms)
    case Veto(picks) => AcceptedPicks(picks) && w.s.rounds == 0
    case _ => true
  }

  ghost function Step(w: World, ev: Event): World {
    if !Enabled(w, ev) then w
    else
      match ev
      case Press(p, e) => w.(m := AfterButton(w.m, p, false, e), asked := AddAsk(w.asked, ButtonAsk(w.m, p, false, e)))
      case Wipe(e) => w.(asked := AddAsk(w.asked, EliminationAsk(w.m, e)))
      case Tick(freeze, e) => w.(asked := AddAsk(w.asked, ThinkAsk(w.m, false, freeze, e)))
      case End(winner) => w.(m := AfterRound(w.m, winner, false), s := Recorded(w.s, winner), asked := {})
      case Start => w.(m := AfterRoundStart(w.m, w.s.rounds, w.base), asked := {})
      case Restart(rooms) =>
        World(AfterRoundStart(w.m, 0, rooms), FRESH, {}, if 0 < w.m.lastRoundsPlayed then rooms else w.base,
              RestartSeen(w.m))
      case Veto(picks) =>
        var rooms := ForcedRooms(picks);
        w.(m := Reset(w.m, rooms).(forced := Some(rooms)), base := rooms, seen := true)
  }

  // ---------- The tracker follows the script ----------

  /** Wins and front agree, a castle win is the one time the front stays behind, and 8 wins decide too. */
  ghost predicate InSync(m: Match, s: Score) {
    && WellFormed(m)
    && m.tWins == s.tWins && m.ctWins == s.ctWins && m.front == s.slot
    && (!m.gameOver ==> m.front == START_ROOM + m.tWins - m.ctWins)
    && (m.gameOver ==> s.decided == Some(if m.front == CT_FINAL_ROOM then T else CT))
    && (m.gameOver && m.front == CT_FINAL_ROOM ==> m.tWins - m.ctWins == 4)
    && (m.gameOver && m.front != CT_FINAL_ROOM ==> m.front == T_FINAL_ROOM && m.ctWins - m.tWins == 4)
    && (s.decided.None? ==> m.tWins < 8 && m.ctWins < 8)
    && (s.decided.Some? && !m.gameOver ==> Playing(s.decided.value) && Wins(m, s.decided.value) == 8)
  }

  /** What holds of the tracker alone. */
  predicate ScoreOk(s: Score) {
    && (s.decided.None? ==> s.tWins < 8 && s.ctWins < 8)
    && s.tWins <= 8 && s.ctWins <= 8 && s.tWins + s.ctWins <= 15 && s.tWins + s.ctWins <= s.rounds
    && (s.rounds == 0 ==> s == FRESH)
  }

  /** Only the start slot's room changes, to Convoy, once both sides have seven wins. */
  ghost predicate RoomsHold(m: Match, s: Score, base: seq<RoomId>) {
    && |m.rooms| == |base| == 7
    && (m.rooms == base || m.rooms == base[START_ROOM := Convoy])
    && (s.decided.None? ==> (m.rooms[START_ROOM] == Convoy <==> m.tWins == 7 && m.ctWins == 7))
    && (m.rooms[START_ROOM] == Convoy ==> m.tWins >= 7 && m.ctWins >= 7)
  }

  /** What holds of the script alone. */
  ghost predicate ScriptOk(m: Match, s: Score, base: seq<RoomId>) {
    && WellFormed(m) && Drawn(base, 7)
    && (m.forced.Some? ==> base == m.forced.value)
    && 0 <= m.lastRoundsPlayed <= s.rounds
  }

  /** While no restart was missed the two are in step. After a missed one the script is wins ahead. */
  ghost predicate Inv(w: World) {
    && ScriptOk(w.m, w.s, w.base) && ScoreOk(w.s)
    && (if w.seen then InSync(w.m, w.s) && RoomsHold(w.m, w.s, w.base)
        else w.m.tWins + w.m.ctWins > w.s.tWins + w.s.ctWins)
  }

  /** The state the script activates with and a new tracker. */
  ghost predicate Init(w: World) {
    && Drawn(w.base, 7) && (w.m.forced.Some? ==> w.m.forced.value == w.base)
    && w.m == Match(w.base, FIRST_OWNERS, START_ROOM, 0, 0, false, false, 0, w.m.forced)
    && w.s == FRESH && w.asked == {} && w.seen
  }

  lemma RoundInSync(m: Match, s: Score, winner: Side)
    requires InSync(m, s) && ScoreOk(s) && s.decided.None?
    ensures InSync(AfterRound(m, winner, false), Recorded(s, winner))
  {
    hide Drawn;
  }

  lemma RoundRoomsHold(m: Match, s: Score, base: seq<RoomId>, winner: Side)
    requires InSync(m, s) && ScriptOk(m, s, base) && RoomsHold(m, s, base) && s.decided.None?
    ensures RoomsHold(AfterRound(m, winner, false), Recorded(s, winner), base)
  {
    assert base[START_ROOM].Num?;
    hide Drawn;
  }

  /** A round keeps what holds of either alone, and adds as much to both scores. */
  lemma RoundAlone(m: Match, s: Score, base: seq<RoomId>, winner: Side)
    requires ScriptOk(m, s, base) && ScoreOk(s) && s.decided.None?
    ensures var n, t := AfterRound(m, winner, false), Recorded(s, winner);
            && ScriptOk(n, t, base) && ScoreOk(t)
            && n.tWins - m.tWins == t.tWins - s.tWins && n.ctWins - m.ctWins == t.ctWins - s.ctWins
  {
    hide Drawn;
  }

  lemma EndInv(w: World, winner: Side)
    requires Inv(w) && Enabled(w, End(winner))
    ensures Inv(Step(w, End(winner)))
  {
    hide Drawn, InSync, RoomsHold, ScriptOk, ScoreOk, AfterRound, Recorded;
    RoundAlone(w.m, w.s, w.base, winner);
    if w.seen {
      RoundInSync(w.m, w.s, winner);
      RoundRoomsHold(w.m, w.s, w.base, winner);
    }
  }

  lemma PressInv(w: World, p: Side, e: Engine)
    requires Inv(w)
    ensures Inv(Step(w, Press(p, e)))
  {
    hide Drawn, RoundDecided, AfterRound;
  }

  lemma StartInv(w: World)
    requires Inv(w)
    ensures Inv(Step(w, Start))
  {
    hide Drawn;
  }

  lemma RestartInv(w: World, rooms: seq<RoomId>)
    requires Inv(w)
    ensures Inv(Step(w, Restart(rooms)))
  {
  }

  lemma AskInv(w: World, ev: Event)
    requires Inv(w) && (ev.Wipe? || ev.Tick?)
    ensures Inv(Step(w, ev))
  {
    hide Drawn, InSync, RoomsHold, ScriptOk, ScoreOk, EliminationAsk, ThinkAsk;
  }

  lemma StepInv(w: World, ev: Event)
    requires Inv(w)
    ensures Inv(Step(w, ev))
  {
    hide Inv, Step;
    if Enabled(w, ev) {
      match ev
      case Press(p, e) => PressInv(w, p, e);
      case Wipe(_) => AskInv(w, ev);
      case Tick(_, _) => AskInv(w, ev);
      case End(winner) => EndInv(w, winner);
      case Start => StartInv(w);
      case Restart(rooms) => RestartInv(w, rooms);
      case Veto(picks) => VetoInSync(w, picks);
    } else {
      NoStep(w, ev);
    }
  }

  lemma NoStep(w: World, ev: Event)
    requires !Enabled(w, ev)
    ensures Step(w, ev) == w
  {
  }

  lemma VetoInSync(w: World, picks: seq<int>)
    requires Inv(w) && AcceptedPicks(picks) && w.s.rounds == 0
    ensures Inv(Step(w, Veto(picks)))
  {
    ForcedAreDrawable(picks);
  }

  ghost function Run(w: World, evs: seq<Event>): World
    decreases |evs|
  {
    if evs == [] then w else Run(Step(w, evs[0]), evs[1..])
  }

  lemma {:induction false} RunInv(w: World, evs: seq<Event>)
    requires Inv(w)
    ensures Inv(Run(w, evs))
    decreases |evs|
  {
    hide Inv, Step;
    if evs != [] {
      StepInv(w, evs[0]);
      RunInv(Step(w, evs[0]), evs[1..]);
    }
  }

  /**
   * Main simulation result, over every run with any round results and restarts. Unless the script missed a restart
   * since it was last reset, the tracker is in step with it, its castle wins are the script's game overs, and the
   * plan's expected room is the script's, or none for Convoy. If it missed one, the scores differ.
   */
  lemma TrackerFollowsScript(w: World, evs: seq<Event>, plan: Plan)
    requires Init(w)
    ensures var r := Run(w, evs);
            && WellFormed(r.m)
            && (r.seen <==> r.m.tWins + r.m.ctWins == r.s.tWins + r.s.ctWins)
            && (r.seen ==>
                  && r.m.tWins == r.s.tWins && r.m.ctWins == r.s.ctWins && r.m.front == r.s.slot
                  && (r.m.gameOver <==> r.s.slot != START_SLOT + r.s.tWins - r.s.ctWins)
                  && (r.s.decided.Some? <==> r.m.gameOver || r.m.tWins >= 8 || r.m.ctWins >= 8))
            && (r.seen && r.s.decided.None? && GoodPlan(plan.slots) && r.m.forced == Some(ForcedRooms(plan.slots)) ==>
                  match ExpectedArena(plan, r.s.slot, DeciderNext(r.s))
                  case None => r.m.rooms[r.m.front] == Convoy
                  case Some(id) => r.m.rooms[r.m.front] == Num(id))
  {
    InitInv(w);
    RunInv(w, evs);
    hide Run, Drawn, ForcedRooms, GoodPlan;
    var r := Run(w, evs);
    if r.seen && r.s.decided.None? && GoodPlan(plan.slots) && r.m.forced == Some(ForcedRooms(plan.slots)) {
      RoomIsExpected(r.m, r.s, r.base, plan);
    }
  }

  lemma RoomIsExpected(m: Match, s: Score, base: seq<RoomId>, plan: Plan)
    requires InSync(m, s) && RoomsHold(m, s, base) && ScriptOk(m, s, base) && s.decided.None?
    requires GoodPlan(plan.slots) && m.forced == Some(ForcedRooms(plan.slots))
    ensures match ExpectedArena(plan, s.slot, DeciderNext(s))
            case None => m.rooms[m.front] == Convoy
            case Some(id) => m.rooms[m.front] == Num(id)
  {
    ForcedRoomsArePath(plan);
    hide Drawn, ForcedRooms;
  }

  lemma InitInv(w: World)
    requires Init(w)
    ensures Inv(w)
  {
  }

  /** A restart leaves score and front in step exactly when the script saw a round count to drop from, or had no wins,
      whatever was missed before. */
  lemma RestartInSyncIff(w: World, evs: seq<Event>, rooms: seq<RoomId>)
    requires Init(w)
    ensures var r := Run(w, evs);
            MayDraw(r.m, rooms) ==> (InSync(AfterRoundStart(r.m, 0, rooms), FRESH) <==> RestartSeen(r.m))
  {
    InitInv(w);
    RunInv(w, evs);
    hide Run;
  }

  lemma {:induction false} RunLast(w: World, evs: seq<Event>, ev: Event)
    ensures Run(w, evs + [ev]) == Step(Run(w, evs), ev)
    decreases |evs|
  {
    hide Step;
    if evs == [] {
      assert evs + [ev] == [ev] && [ev][1..] == [];
      assert Run(Step(w, ev), []) == Step(w, ev);
    } else {
      assert (evs + [ev])[1..] == evs[1..] + [ev];
      RunLast(Step(w, evs[0]), evs[1..], ev);
    }
  }

  /** Owners, rooms, front, wins and game over are as a reset with these rooms leaves them. */
  predicate AsReset(m: Match, rooms: seq<RoomId>) {
    && m.owners == FIRST_OWNERS && m.rooms == rooms && m.front == START_ROOM
    && m.tWins == 0 && m.ctWins == 0 && !m.gameOver
  }

  /** After any run, a restart leaves the match as at the start exactly when the script's last count was above 0 or it
      was so already. In particular the owners are the first ones only then. */
  lemma FullResetIff(w: World, evs: seq<Event>, rooms: seq<RoomId>)
    requires Init(w) && MayDraw(Run(w, evs).m, rooms)
    ensures var m, n := Run(w, evs).m, Run(w, evs + [Restart(rooms)]).m;
            && (AsReset(n, rooms) <==> m.lastRoundsPlayed > 0 || AsReset(m, rooms))
            && (n.owners == FIRST_OWNERS <==> m.lastRoundsPlayed > 0 || m.owners == FIRST_OWNERS)
            && n.lastRoundsPlayed == 0 && !n.roundOver
  {
    InitInv(w);
    RunInv(w, evs);
    RunLast(w, evs, Restart(rooms));
    hide Run, Drawn;
  }

  lemma RunTwo(w: World, a: Event, b: Event)
    ensures Run(w, [a, b]) == Step(Step(w, a), b)
  {
    hide Step;
    assert [a, b][1..] == [b] && [b][1..] == [];
    assert Run(Step(w, a), [b]) == Run(Step(Step(w, a), b), []);
  }

  /** A restart the script misses: the first round ends and the match restarts before the next one starts. */
  lemma MissedRestart(w: World)
    requires Init(w)
    ensures var r := Run(w, [End(T), Restart(w.base)]);
            !r.seen && r.m.tWins == 1 && r.m.front == START_ROOM + 1 && r.s == FRESH
  {
    RunTwo(w, End(T), Restart(w.base));
    hide Run;
  }

  /** A restart before any round ended keeps an owner that a press changed, with score and front in step. */
  lemma PressSurvivesRestart(w: World)
    requires Init(w)
    ensures var r := Run(w, [Press(T, Engine(false, false, false)), Restart(w.base)]);
            r.seen && InSync(r.m, r.s) && Owner(r.m) == T && FIRST_OWNERS[START_ROOM] == CT
  {
    RunTwo(w, Press(T, Engine(false, false, false)), Restart(w.base));
    hide Run;
  }

  // ---------- Rounds that end only when the script asks ----------

  /** Only players press the button, and a round ends only for a side the script asked for. */
  predicate HonestStep(w: World, ev: Event) {
    && (ev.Press? ==> Playing(ev.presser))
    && (ev.End? ==> ev.winner in w.asked)
  }

  ghost predicate Honest(w: World, evs: seq<Event>)
    decreases |evs|
  {
    evs == [] || (HonestStep(w, evs[0]) && Honest(Step(w, evs[0]), evs[1..]))
  }

  /** T owns every room behind the front, CT every room ahead, and someone owns the room being played. */
  ghost predicate LinesHold(w: World)
    requires WellFormed(w.m)
  {
    && (forall i | 0 <= i < w.m.front :: w.m.owners[i] == T)
    && (forall i | w.m.front < i <= 6 :: w.m.owners[i] == CT)
    && Playing(Owner(w.m))
    && (forall x | x in w.asked :: Playing(x))
    && w.s.rounds == w.s.tWins + w.s.ctWins
  }

  /** Whatever round end the script asks for, it is for the side that owns the room being played. */
  lemma AsksAreForTheOwner(w: World, ev: Event, x: Side)
    requires Inv(w) && x in Step(w, ev).asked && x !in w.asked
    ensures x == Owner(Step(w, ev).m)
  {
  }

  lemma RoundHoldsLines(w: World, winner: Side)
    requires Inv(w) && LinesHold(w) && winner in w.asked && Enabled(w, End(winner))
    ensures LinesHold(w.(m := AfterRound(w.m, winner, false), s := Recorded(w.s, winner), asked := {}))
  {
    hide Drawn, RoomsHold;
  }

  lemma PressHoldsLines(w: World, p: Side, e: Engine)
    requires Inv(w) && LinesHold(w) && Playing(p)
    ensures LinesHold(Step(w, Press(p, e)))
  {
    hide Drawn, RoomsHold, AfterRound, Recorded, ThinkAsk;
    var r := Step(w, Press(p, e));
    forall x | x in r.asked && x !in w.asked ensures Playing(x) {
      AsksAreForTheOwner(w, Press(p, e), x);
    }
  }

  lemma AskedPlay(w: World, ev: Event)
    requires Inv(w) && LinesHold(w) && (ev.Wipe? || ev.Tick?)
    ensures forall x | x in Step(w, ev).asked :: Playing(x)
  {
    hide Drawn, RoomsHold, AfterRound, Recorded;
    forall x | x in Step(w, ev).asked && x !in w.asked ensures Playing(x) {
      AsksAreForTheOwner(w, ev, x);
    }
  }

  lemma StepHoldsLines(w: World, ev: Event)
    requires Inv(w) && LinesHold(w) && HonestStep(w, ev)
    ensures Inv(Step(w, ev)) && LinesHold(Step(w, ev))
  {
    assert WellFormed(w.m);
    StepInv(w, ev);
    assert WellFormed(Step(w, ev).m);
    hide Inv, Drawn, RoomsHold, AfterRound, AfterButton, Recorded, InSync, EliminationAsk, ThinkAsk, ButtonAsk;
    match ev
    case End(winner) =>
      if Enabled(w, ev) {
        RoundHoldsLines(w, winner);
      }
    case Press(p, e) => PressHoldsLines(w, p, e);
    case Wipe(_) => AskedPlay(w, ev);
    case Tick(_, _) => AskedPlay(w, ev);
    case _ => ResetHoldsLines(w, ev);
  }

  lemma ResetHoldsLines(w: World, ev: Event)
    requires Inv(w) && WellFormed(Step(w, ev).m) && LinesHold(w) && (ev.Start? || ev.Restart? || ev.Veto?)
    ensures LinesHold(Step(w, ev))
  {
    hide Drawn, RoomsHold, AfterRound, AfterButton, Recorded, EliminationAsk, ThinkAsk, ButtonAsk, ForcedRooms;
  }

  /** Main safety result: no room but the current one is ever out of line, the current one always has an owner,
      and the match is decided by a castle or by eight wins within fifteen rounds. */
  lemma {:induction false} HonestMatch(w: World, evs: seq<Event>)
    requires Inv(w) && LinesHold(w) && Honest(w, evs)
    ensures WellFormed(Run(w, evs).m) && LinesHold(Run(w, evs))
    ensures Run(w, evs).s.rounds <= 15
    ensures Run(w, evs).s.rounds == 15 ==> Run(w, evs).s.decided.Some?
    decreases |evs|
  {
    if evs != [] {
      StepHoldsLines(w, evs[0]);
      HonestMatch(Step(w, evs[0]), evs[1..]);
    }
  }

  lemma HonestMatchFromStart(w: World, evs: seq<Event>)
    requires Init(w)
    ensures Inv(w) && LinesHold(w)
    ensures Honest(w, evs) ==> WellFormed(Run(w, evs).m) && LinesHold(Run(w, evs)) && Run(w, evs).s.rounds <= 15
    ensures Honest(w, evs) && Run(w, evs).s.rounds == 15 ==> Run(w, evs).s.decided.Some?
  {
    InitInv(w);
    if Honest(w, evs) {
      HonestMatch(w, evs);
    }
  }

  // ---------- Rounds end when they should ----------

  /** The round is being played. */
  predicate LiveRound(m: Match, e: Engine) {
    !m.roundOver && !m.gameOver && !e.timeUp
  }

  predicate Opponents(side: Side, e: Engine) {
    if side == T then e.ctWiped else e.tWiped
  }

  /**
   * After any run: the death of the last opponent of the room's owner asks for the round end, so does a press by a side
   * whose opponents are dead, and so does time running out. They ask for that side, and ask for nothing else.
   */
  lemma RoundEndsWhenDue(w: World, evs: seq<Event>, ev: Event)
    requires Init(w) && (ev.Press? ==> Playing(ev.presser))
    ensures WellFormed(Run(w, evs).m) && WellFormed(Run(w, evs + [ev]).m)
    ensures var r, n := Run(w, evs), Run(w, evs + [ev]);
            && (ev.Wipe? && LiveRound(r.m, ev.e) && Playing(Owner(r.m)) && Opponents(Owner(r.m), ev.e) ==>
                  n.asked == r.asked + {Owner(r.m)})
            && (ev.Press? && LiveRound(r.m, ev.e) ==> Owner(n.m) == ev.presser)
            && (ev.Press? && LiveRound(r.m, ev.e) && Opponents(ev.presser, ev.e) ==> n.asked == r.asked + {ev.presser})
            && (ev.Tick? && !ev.freeze && !r.m.roundOver && !r.m.gameOver && ev.e.timeUp ==>
                  n.asked == r.asked + {Owner(r.m)})
  {
    InitInv(w);
    RunInv(w, evs);
    RunInv(w, evs + [ev]);
    RunLast(w, evs, ev);
    var r := Run(w, evs);
    hide Run, Drawn, RoomsHold, InSync, ScoreOk, AfterRound, AfterRoundStart, Recorded, EliminationAsk, ThinkAsk;
    hide ButtonAsk, AfterButton;
    match ev
    case Wipe(e) => EliminationEnds(r.m, e);
    case Press(p, e) => PressEnds(r.m, p, false, e);
    case Tick(freeze, e) => TimeEnds(r.m, false, freeze, e);
    case _ =>
  }

  // ---------- Rounds that end at once ----------

  /** The engine ends the round before anything else changes an owner: no press or veto comes after an ask. */
  ghost predicate Prompt(w: World, evs: seq<Event>)
    decreases |evs|
  {
    evs == [] || ((evs[0].Press? || evs[0].Veto? ==> w.asked == {}) && Prompt(Step(w, evs[0]), evs[1..]))
  }

  lemma PromptStep(w: World, ev: Event)
    requires Inv(w) && Inv(Step(w, ev)) && w.asked <= {Owner(w.m)}
    requires ev.Press? || ev.Veto? ==> w.asked == {}
    ensures Step(w, ev).asked <= {Owner(Step(w, ev).m)}
  {
    hide Drawn, RoomsHold, AfterRound, Recorded;
    forall x | x in Step(w, ev).asked ensures x == Owner(Step(w, ev).m) {
      if x !in w.asked {
        AsksAreForTheOwner(w, ev, x);
      }
    }
  }

  lemma {:induction false} AsksStayTheOwners(w: World, evs: seq<Event>)
    requires Inv(w) && w.asked <= {Owner(w.m)} && Prompt(w, evs)
    ensures Inv(Run(w, evs)) && Run(w, evs).asked <= {Owner(Run(w, evs).m)}
    decreases |evs|
  {
    if evs != [] {
      StepInv(w, evs[0]);
      PromptStep(w, evs[0]);
      AsksStayTheOwners(Step(w, evs[0]), evs[1..]);
    }
  }

  lemma {:induction false} LastIsHonest(w: World, evs: seq<Event>, ev: Event)
    requires Honest(w, evs + [ev])
    ensures HonestStep(Run(w, evs), ev)
    decreases |evs|
  {
    hide Step;
    if evs == [] {
      assert evs + [ev] == [ev];
    } else {
      assert (evs + [ev])[1..] == evs[1..] + [ev];
      LastIsHonest(Step(w, evs[0]), evs[1..], ev);
    }
  }

  /** Then every round that ends goes to the side that owns its room. */
  lemma RoundsGoToTheOwner(w: World, evs: seq<Event>, winner: Side)
    requires Init(w) && Prompt(w, evs) && Honest(w, evs + [End(winner)])
    ensures WellFormed(Run(w, evs).m) && winner == Owner(Run(w, evs).m)
  {
    InitInv(w);
    AsksStayTheOwners(w, evs);
    LastIsHonest(w, evs, End(winner));
  }
}
