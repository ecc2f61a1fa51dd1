/**
 * The team vote that drives every veto: map pick and ban, Rush room veto and Rush series room veto
 * (packages/shared/src/veto/bo3.ts). States are values, as in the source.
 */
module VetoEngine {
  import opened Common

  type Player = string

  datatype Team = Team0 | Team1

  function Other(t: Team): Team {
    if t == Team0 then Team1 else Team0
  }

  datatype SideName = CtSide | TSide

  /** What can be voted on. The source keys all three by strings that never collide. */
  datatype Key = MapId(name: string) | Room(id: nat) | SideKey(mapNumber: int, side: SideName)

  /** The players of each team. */
  datatype Teams = Teams(team0: seq<Player>, team1: seq<Player>) {
    function Of(t: Team): seq<Player> {
      if t == Team0 then team0 else team1
    }
  }

  datatype Action = Ban | Pick | Side

  /** A random draw. Never negative. */
  type Draw = r: real | 0.0 <= r witness 0.0

  datatype Step = Step(action: Action, team: Team, phase: Option<nat>)

  datatype PhaseKind = Plain | SidePhase | MidPhase | StartPhase

  datatype Phase = Phase(pool: seq<Key>, mapNumber: int, kind: PhaseKind)

  datatype Entry = Entry(step: nat, action: Action, team: Team, item: Key, votes: map<Player, Key>,
                         tieBroken: bool, noVotes: bool)

  datatype VetoState = VetoState(
    pool: seq<Key>,
    members: Teams,
    steps: seq<Step>,
    stepIndex: nat,
    available: seq<Key>,
    votes: map<Player, Key>,
    history: seq<Entry>,
    done: bool,
    maps: seq<Key>,
    phases: seq<Phase>)

  // ---------- Step builders ----------

  function AlternatingFrom(actions: seq<Action>, first: Team): (r: seq<Step>)
    ensures |r| == |actions|
  {
    seq(|actions|, i requires 0 <= i < |actions| => Step(actions[i], if i % 2 == 0 then first else Other(first), None))
  }

  const BO3_ACTIONS: seq<Action> := [Ban, Ban, Pick, Pick, Ban, Ban]
  const BO3_MIN_POOL := 5
  const BAN_TO_7_KEEP := 7

  function Bo3Steps(poolSize: nat, first: Team): Result<seq<Step>> {
    if poolSize < BO3_MIN_POOL then Err("pool too small")
    else
      var count := if |BO3_ACTIONS| <= poolSize - 1 then |BO3_ACTIONS| else poolSize - 1;
      Ok(AlternatingFrom(BO3_ACTIONS[..count], first))
  }

  function BanToNSteps(poolSize: nat, keep: int, first: Team): Result<seq<Step>> {
    if keep < 1 then Err("keep must be positive")
    else if poolSize <= keep then Err("pool must be larger than keep")
    else Ok(AlternatingFrom(seq(poolSize - keep, i => Ban), first))
  }

  datatype VetoFormat = NoVeto | Bo1Ban | BanTo7 | Bo3PickBan

  function StepsForFormat(format: VetoFormat, poolSize: nat, first: Team): Result<seq<Step>> {
    match format
    case NoVeto => Ok([])
    case Bo1Ban => BanToNSteps(poolSize, 1, first)
    case BanTo7 => BanToNSteps(poolSize, BAN_TO_7_KEEP, first)
    case Bo3PickBan => Bo3Steps(poolSize, first)
  }

  // ---------- States ----------

  function HasRepeats<T(==)>(s: seq<T>): (r: bool)
    ensures r <==> !Distinct(s)
  {
    exists i, j | 0 <= i < j < |s| :: s[i] == s[j]
  }

  function CreateVeto(pool: seq<Key>, members: Teams, steps: seq<Step>): Result<VetoState>
  {
    if HasRepeats(pool) then Err("pool has duplicate map ids")
    else if pool == [] then Err("pool is empty")
    else if |steps| >= |pool| then Err("pool must be larger than the number of steps")
    else if HasRepeats(members.team0 + members.team1) then Err("a player is on both teams")
    else
      var done := |steps| == 0;
      Ok(VetoState(pool, members, steps, 0, pool, map[], [], done, if done then pool else [], []))
  }

  /** The pool step k offers from: its phase's pool if it names one the state has, else the whole pool. */
  function StepPool(s: VetoState, k: nat): set<Key>
    requires k < |s.steps|
  {
    match s.steps[k].phase
    case Some(p) => if p < |s.phases| then Elems(s.phases[p].pool) else Elems(s.pool)
    case None => Elems(s.pool)
  }

  function CurrentStep(s: VetoState): Option<Step> {
    if s.done || s.stepIndex >= |s.steps| then None else Some(s.steps[s.stepIndex])
  }

  function StepAvailable(s: VetoState): seq<Key> {
    if CurrentStep(s).Some? then Within(s.available, StepPool(s, s.stepIndex)) else s.available
  }

  function CastVote(s: VetoState, player: Player, item: Key): Result<VetoState>
  {
    match CurrentStep(s)
    case None => Err("veto is finished")
    case Some(step) =>
      if player !in s.members.Of(step.team) then Err("player is not on the acting team")
      else if item !in StepAvailable(s) then Err("map is not available")
      else Ok(s.(votes := s.votes[player := item]))
  }

  predicate AllVoted(s: VetoState)
  {
    var step := CurrentStep(s);
    step.Some? && forall p | p in s.members.Of(step.value.team) :: p in s.votes
  }

  // ---------- Counting votes ----------

  /** The players among some whose ballot names item. */
  function VotersIn(votes: map<Player, Key>, some: set<Player>, item: Key): set<Player> {
    set p | p in votes && p in some && votes[p] == item
  }

  /** Votes for item. */
  function Count(votes: map<Player, Key>, item: Key): nat {
    |VotersIn(votes, votes.Keys, item)|
  }

  /** Highest vote count among the offered items. */
  function MaxCount(votes: map<Player, Key>, offer: seq<Key>): (r: nat)
    ensures forall x | x in offer :: Count(votes, x) <= r
    ensures r == 0 || exists x | x in offer :: Count(votes, x) == r
  {
    if offer == [] then 0
    else
      var rest := MaxCount(votes, offer[1..]);
      var first := Count(votes, offer[0]);
      if first > rest then first else rest
  }

  /** The items a draw may choose: the most voted, or everything on offer when no vote counts. */
  function Leaders(votes: map<Player, Key>, offer: seq<Key>): seq<Key> {
    var top := MaxCount(votes, offer);
    if top == 0 then offer else Within(offer, set x | x in offer && Count(votes, x) == top)
  }

  datatype Tally = Tally(item: Key, tieBroken: bool, noVotes: bool)

  function DrawIndex(draw: Draw, n: nat): (i: nat)
    requires n > 0
    ensures i < n
  {
    var f := (draw * n as real).Floor;
    if n == 1 then 0 else if f < n - 1 then f else n - 1
  }

  function TallyOf(votes: map<Player, Key>, offer: seq<Key>, draw: Draw): Result<Tally> {
    var leaders := Leaders(votes, offer);
    var voted := MaxCount(votes, offer) > 0;
    if leaders == [] then Err("no maps available")
    else Ok(Tally(leaders[DrawIndex(draw, |leaders|)], |leaders| > 1 && voted, !voted))
  }

  /** The table after counting the ballots of the players in some: one positive entry per offered item they name. */
  ghost predicate Counted(counts: map<Key, nat>, votes: map<Player, Key>, some: set<Player>, offer: seq<Key>) {
    forall x :: (x in counts <==> x in offer && VotersIn(votes, some, x) != {})
                && (x in counts ==> counts[x] == |VotersIn(votes, some, x)|)
  }

  /** The vote count the way the source does it, one ballot at a time into a table. */
  method TallyVotes(votes: map<Player, Key>, offer: seq<Key>, draw: Draw) returns (r: Result<Tally>)
    ensures r == TallyOf(votes, offer, draw)
  {
    var counts: map<Key, nat> := map[];
    var todo := votes.Keys;
    while todo != {}
      invariant todo <= votes.Keys
      invariant Counted(counts, votes, votes.Keys - todo, offer)
    {
      var p :| p in todo;
      var item := votes[p];
      CountOneMore(counts, votes, votes.Keys - todo, offer, p);
      if item in offer {
        counts := counts[item := (if item in counts then counts[item] else 0) + 1];
      }
      assert votes.Keys - (todo - {p}) == votes.Keys - todo + {p};
      todo := todo - {p};
    }
    assert votes.Keys - todo == votes.Keys;
    hide Counted; hide VotersIn;
    var top := TopCount(counts);
    var leaders := offer;
    if |counts| != 0 {
      leaders := Within(offer, set x | x in counts && counts[x] == top);
    }
    TableLeaders(counts, votes, offer, top);
    if leaders == [] {
      return Err("no maps available");
    }
    var voted := |counts| != 0;
    r := Ok(Tally(leaders[DrawIndex(draw, |leaders|)], |leaders| > 1 && voted, !voted));
  }

  method TopCount(counts: map<Key, nat>) returns (top: nat)
    ensures forall x | x in counts :: counts[x] <= top
    ensures top == 0 || exists x | x in counts :: counts[x] == top
  {
    top := 0;
    var keys := counts.Keys;
    while keys != {}
      invariant keys <= counts.Keys
      invariant forall x | x in counts.Keys - keys :: counts[x] <= top
      invariant top == 0 || exists x | x in counts :: counts[x] == top
    {
      var x :| x in keys;
      if counts[x] > top {
        top := counts[x];
      }
      keys := keys - {x};
    }
  }

  lemma CountOneMore(counts: map<Key, nat>, votes: map<Player, Key>, some: set<Player>, offer: seq<Key>, p: Player)
    requires p in votes && p !in some && Counted(counts, votes, some, offer)
    ensures var item := votes[p];
            Counted(if item in offer then counts[item := (if item in counts then counts[item] else 0) + 1] else counts,
                    votes, some + {p}, offer)
  {
    forall x ensures |VotersIn(votes, some + {p}, x)| == |VotersIn(votes, some, x)| + if votes[p] == x then 1 else 0 {
      OneMoreVoter(votes, some, x, p);
    }
    hide VotersIn;
  }

  lemma OneMoreVoter(votes: map<Player, Key>, some: set<Player>, x: Key, p: Player)
    requires p in votes && p !in some
    ensures |VotersIn(votes, some + {p}, x)| == |VotersIn(votes, some, x)| + if votes[p] == x then 1 else 0
  {
    assert VotersIn(votes, some + {p}, x) == VotersIn(votes, some, x) + if votes[p] == x then {p} else {};
  }

  /** The finished table gives the same leaders as counting item by item. */
  lemma TableLeaders(counts: map<Key, nat>, votes: map<Player, Key>, offer: seq<Key>, top: nat)
    requires Counted(counts, votes, votes.Keys, offer)
    requires forall x | x in counts :: counts[x] <= top
    requires top == 0 || exists x | x in counts :: counts[x] == top
    ensures (|counts| != 0) == (MaxCount(votes, offer) > 0)
    ensures Leaders(votes, offer) ==
            if |counts| != 0 then Within(offer, set x | x in counts && counts[x] == top) else offer
  {
    forall x | x in offer ensures Count(votes, x) == if x in counts then counts[x] else 0 {
    }
    assert top == MaxCount(votes, offer);
    if |counts| != 0 {
      var x :| x in counts;
      assert counts[x] > 0;
      assert (set x | x in counts && counts[x] == top) == (set x | x in offer && Count(votes, x) == top);
    }
  }

  /** Whatever is chosen was on offer and nothing on offer has more votes. */
  lemma TallyIsPlurality(votes: map<Player, Key>, offer: seq<Key>, draw: Draw)
    ensures TallyOf(votes, offer, draw).Ok? <==> offer != []
    ensures var t := TallyOf(votes, offer, draw);
            t.Ok? ==> t.value.item in offer && forall x | x in offer :: Count(votes, x) <= Count(votes, t.value.item)
    ensures var t := TallyOf(votes, offer, draw);
            t.Ok? ==> (t.value.noVotes <==> forall x | x in offer :: Count(votes, x) == 0)
  {
    var top := MaxCount(votes, offer);
    WithinMembers(offer, set x | x in offer && Count(votes, x) == top);
  }

  // ---------- Resolving a step ----------

  function PicksOf(history: seq<Entry>): seq<Key> {
    if history == [] then []
    else
      var n := |history| - 1;
      PicksOf(history[..n]) + (if history[n].action == Pick then [history[n].item] else [])
  }

  function ResolveStep(s: VetoState, draw: Draw): Result<VetoState> {
    match CurrentStep(s)
    case None => Err("veto is finished")
    case Some(step) =>
      match TallyOf(s.votes, StepAvailable(s), draw)
      case Err(e) => Err(e)
      case Ok(t) =>
        var entry := Entry(s.stepIndex, step.action, step.team, t.item, s.votes, t.tieBroken, t.noVotes);
        var available := Without(s.available, {t.item});
        var history := s.history + [entry];
        var done := s.stepIndex + 1 >= |s.steps|;
        Ok(s.(available := available, history := history, stepIndex := s.stepIndex + 1, votes := map[], done := done,
              maps := if done then PicksOf(history) + available else []))
  }

  function Vote(s: VetoState, player: Player, item: Key, draw: Draw): Result<VetoState>
  {
    match CastVote(s, player, item)
    case Err(e) => Err(e)
    case Ok(next) => if AllVoted(next) then ResolveStep(next, draw) else Ok(next)
  }

  // ---------- Runs ----------

  /** A vote that only records, a vote that resolves once all have voted, or a timeout. */
  datatype Event = Cast(player: Player, item: Key) | Submit(player: Player, item: Key, draw: Draw) | Timeout(draw: Draw)

  /** One event. A call that throws leaves the state as it was. */
  function Apply(s: VetoState, e: Event): VetoState
  {
    var r := match e
      case Cast(p, item) => CastVote(s, p, item)
      case Submit(p, item, draw) => Vote(s, p, item, draw)
      case Timeout(draw) => ResolveStep(s, draw);
    if r.Ok? then r.value else s
  }

  function Run(s: VetoState, events: seq<Event>): (r: VetoState)
    ensures r.members == s.members
    decreases |events|
  {
    if events == [] then s else Run(Apply(s, events[0]), events[1..])
  }

  // ---------- What every reachable state keeps ----------

  ghost function Items(history: seq<Entry>): set<Key> {
    set i | 0 <= i < |history| :: history[i].item
  }

  /** What step k had on offer, computed from the pool and the earlier choices alone. */
  ghost function OfferAt(s: VetoState, k: nat): seq<Key>
    requires k < |s.steps| && k <= |s.history|
  {
    Within(Without(s.pool, Items(s.history[..k])), StepPool(s, k))
  }

  /** Every ballot comes from the acting team and names something on offer. */
  ghost predicate LegalVotes(s: VetoState, k: nat, votes: map<Player, Key>)
    requires k < |s.steps| && k <= |s.history|
  {
    forall p | p in votes :: p in s.members.Of(s.steps[k].team) && votes[p] in OfferAt(s, k)
  }

  ghost predicate EntryOk(s: VetoState, k: nat)
    requires k < |s.steps| && k < |s.history|
  {
    var h := s.history[k];
    && h.step == k && h.action == s.steps[k].action && h.team == s.steps[k].team
    && LegalVotes(s, k, h.votes)
    && h.item in OfferAt(s, k)
    && (forall x | x in OfferAt(s, k) :: Count(h.votes, x) <= Count(h.votes, h.item))
    && (h.noVotes <==> h.votes == map[])
  }

  ghost predicate Inv(s: VetoState) {
    && Distinct(s.pool)
    && |s.history| == s.stepIndex <= |s.steps|
    && (s.done <==> s.stepIndex == |s.steps|)
    && (forall k | 0 <= k < |s.history| :: EntryOk(s, k))
    && s.available == Without(s.pool, Items(s.history))
    && s.maps == (if s.done then PicksOf(s.history) + s.available else [])
    && (s.done ==> s.votes == map[])
    && (!s.done ==> LegalVotes(s, s.stepIndex, s.votes))
  }

  lemma InitInv(pool: seq<Key>, members: Teams, steps: seq<Step>, phases: seq<Phase>)
    requires CreateVeto(pool, members, steps).Ok?
    ensures Inv(CreateVeto(pool, members, steps).value.(phases := phases))
  {
    WithoutNone(pool);
    NoItems();
    hide Items, Without, EntryOk;
  }

  lemma NoItems()
    ensures Items([]) == {}
  {
  }

  /** The offers and ballots of earlier steps do not depend on what is appended later. */
  lemma OfferStable(s: VetoState, t: VetoState, k: nat)
    requires t.steps == s.steps && t.pool == s.pool && t.phases == s.phases && t.members == s.members
    requires k < |s.steps| && k <= |s.history| <= |t.history| && t.history[..|s.history|] == s.history
    ensures OfferAt(t, k) == OfferAt(s, k)
    ensures k < |s.history| ==> (EntryOk(s, k) <==> EntryOk(t, k))
  {
    assert t.history[..k] == s.history[..k];
    assert k < |s.history| ==> t.history[k] == s.history[k];
  }

  lemma CastInv(s: VetoState, player: Player, item: Key)
    requires Inv(s) && CastVote(s, player, item).Ok?
    ensures Inv(CastVote(s, player, item).value)
    ensures var t := CastVote(s, player, item).value;
            && t == s.(votes := t.votes) && t.votes.Keys == s.votes.Keys + {player} && t.votes[player] == item
            && forall p | p in s.votes && p != player :: t.votes[p] == s.votes[p]
  {
    var t := CastVote(s, player, item).value;
    assert s.history[..s.stepIndex] == s.history;
    forall k | 0 <= k <= |s.history| && k < |s.steps| ensures OfferAt(t, k) == OfferAt(s, k) {
      OfferStable(s, t, k);
    }
    forall k | 0 <= k < |t.history| ensures EntryOk(t, k) {
      OfferStable(s, t, k);
    }
  }

  lemma NoVotesMeansEmpty(s: VetoState)
    requires Inv(s) && !s.done
    ensures (forall x | x in StepAvailable(s) :: Count(s.votes, x) == 0) <==> s.votes == map[]
  {
    assert s.history[..s.stepIndex] == s.history;
    if s.votes != map[] {
      var p :| p in s.votes;
      var x := s.votes[p];
      assert p in VotersIn(s.votes, s.votes.Keys, x);
      assert Count(s.votes, x) > 0;
    }
  }

  lemma ResolveEntries(s: VetoState, draw: Draw)
    requires Inv(s) && ResolveStep(s, draw).Ok?
    ensures var t := ResolveStep(s, draw).value;
            && |t.history| == s.stepIndex + 1 && t.history[..s.stepIndex] == s.history
            && forall j | 0 <= j <= s.stepIndex :: EntryOk(t, j)
  {
    var t := ResolveStep(s, draw).value;
    var k := s.stepIndex;
    assert s.history[..k] == s.history && t.history[..k] == s.history;
    TallyIsPlurality(s.votes, StepAvailable(s), draw);
    NoVotesMeansEmpty(s);
    forall j | 0 <= j < k ensures EntryOk(t, j) {
      OfferStable(s, t, j);
    }
    OfferStable(s, t, k);
    assert EntryOk(t, k);
  }

  lemma ResolveInv(s: VetoState, draw: Draw)
    requires Inv(s) && ResolveStep(s, draw).Ok?
    ensures Inv(ResolveStep(s, draw).value)
  {
    ResolveEntries(s, draw);
    hide EntryOk, TallyOf, StepAvailable, PicksOf, LegalVotes;
    var t := ResolveStep(s, draw).value;
    var k := s.stepIndex;
    var item := t.history[k].item;
    assert Items(t.history) == Items(s.history) + {item} by {
      assert forall i | 0 <= i < k :: t.history[i] == s.history[i];
      assert t.history[k].item == item;
    }
    WithoutTwice(s.pool, Items(s.history), {item});
    if !t.done {
      NoVotesLegal(t);
    }
  }

  lemma NoVotesLegal(s: VetoState)
    requires s.votes == map[] && s.stepIndex < |s.steps| && s.stepIndex <= |s.history|
    ensures LegalVotes(s, s.stepIndex, s.votes)
  {
  }

  /** The invariant holds in every state of every run. */
  lemma {:induction false} RunInv(s: VetoState, events: seq<Event>)
    requires Inv(s)
    ensures Inv(Run(s, events))
    ensures SameVeto(s, Run(s, events)) && s.history <= Run(s, events).history
    decreases |events|
  {
    if events != [] {
      ApplyInv(s, events[0]);
      RunInv(Apply(s, events[0]), events[1..]);
    }
  }

  /** Two states of one veto. */
  ghost predicate SameVeto(s: VetoState, t: VetoState) {
    t.pool == s.pool && t.members == s.members && t.steps == s.steps && t.phases == s.phases
  }

  lemma ApplyInv(s: VetoState, e: Event)
    requires Inv(s)
    ensures Inv(Apply(s, e))
    ensures SameVeto(s, Apply(s, e)) && s.history <= Apply(s, e).history
  {
    hide Inv, TallyOf, StepAvailable, CurrentStep, Without, PicksOf;
    match e
    case Cast(p, item) =>
      if CastVote(s, p, item).Ok? { CastInv(s, p, item); }
    case Submit(p, item, draw) =>
      if CastVote(s, p, item).Ok? {
        CastInv(s, p, item);
        var next := CastVote(s, p, item).value;
        if ResolveStep(next, draw).Ok? { ResolveInv(next, draw); }
      }
    case Timeout(draw) =>
      if ResolveStep(s, draw).Ok? { ResolveInv(s, draw); }
  }

  /** No choice is repeated, everything chosen came from the pool, and what is left is the rest of the pool. */
  lemma ChoicesAreDistinct(s: VetoState)
    requires Inv(s)
    ensures forall i, j | 0 <= i < j < |s.history| :: s.history[i].item != s.history[j].item
    ensures forall i | 0 <= i < |s.history| :: s.history[i].item in s.pool && s.history[i].item in StepPool(s, i)
    ensures forall x :: x in s.available <==> x in s.pool && x !in Items(s.history)
    ensures Distinct(s.available)
  {
    forall i | 0 <= i < |s.history|
      ensures s.history[i].item in s.pool && s.history[i].item in StepPool(s, i)
      ensures s.history[i].item !in Items(s.history[..i])
    {
      assert EntryOk(s, i);
      WithinMembers(Without(s.pool, Items(s.history[..i])), StepPool(s, i));
      WithoutMembers(s.pool, Items(s.history[..i]));
    }
    forall i, j | 0 <= i < j < |s.history| ensures s.history[i].item != s.history[j].item {
      assert s.history[..j][i].item in Items(s.history[..j]);
    }
    WithoutMembers(s.pool, Items(s.history));
    WithoutDistinct(s.pool, Items(s.history));
  }

  // ---------- No step ever runs dry ----------

  /** How many of the first j steps can take something from p. */
  ghost function Meets(s: VetoState, p: set<Key>, j: nat): nat
    requires j <= |s.steps|
  {
    if j == 0 then 0 else Meets(s, p, j - 1) + if StepPool(s, j - 1) !! p then 0 else 1
  }

  /** Every step offers more than all earlier steps together can take from it. */
  ghost predicate Coverable(s: VetoState) {
    forall k | 0 <= k < |s.steps| :: Meets(s, StepPool(s, k), k) < |StepPool(s, k) * Elems(s.pool)|
  }

  lemma {:induction false} TakenBound(s: VetoState, p: set<Key>, j: nat)
    requires Inv(s) && j <= |s.history|
    ensures |Items(s.history[..j]) * p| <= Meets(s, p, j)
  {
    if j == 0 {
      assert Items(s.history[..0]) * p == {};
    } else {
      TakenBound(s, p, j - 1);
      TakenStep(s, p, j);
    }
  }

  lemma TakenStep(s: VetoState, p: set<Key>, j: nat)
    requires Inv(s) && 0 < j <= |s.history|
    ensures |Items(s.history[..j]) * p| <= |Items(s.history[..j - 1]) * p| + if StepPool(s, j - 1) !! p then 0 else 1
  {
    var before, after := Items(s.history[..j - 1]) * p, Items(s.history[..j]) * p;
    ItemsSnoc(s.history, j);
    var item := s.history[j - 1].item;
    assert item in StepPool(s, j - 1) by {
      ChoicesAreDistinct(s);
    }
    if item in p {
      SubsetCard(after, before + {item});
    } else {
      assert after == before;
    }
  }

  /** What is left of p is at least p less the steps that could take from it. */
  lemma LeftBound(s: VetoState, p: set<Key>)
    requires Inv(s)
    ensures |Within(s.available, p)| + Meets(s, p, |s.history|) >= |p * Elems(s.pool)|
    ensures Distinct(Within(s.available, p))
    ensures forall x :: x in Within(s.available, p) <==> x in p && x in s.pool && x !in Items(s.history)
  {
    TakenBound(s, p, |s.history|);
    assert s.history[..|s.history|] == s.history;
    ChoicesAreDistinct(s);
    var left := Within(s.available, p);
    WithinDistinct(s.available, p);
    WithinMembers(s.available, p);
    DistinctCard(left);
    var taken := Items(s.history) * p;
    assert p * Elems(s.pool) <= Elems(left) + taken;
    SubsetCard(p * Elems(s.pool), Elems(left) + taken);
  }

  /** How many of the first j steps can take only from p. */
  ghost function Inside(s: VetoState, p: set<Key>, j: nat): nat
    requires j <= |s.steps|
  {
    if j == 0 then 0 else Inside(s, p, j - 1) + if StepPool(s, j - 1) <= p then 1 else 0
  }

  lemma {:induction false} TakenAtLeast(s: VetoState, p: set<Key>, j: nat)
    requires Inv(s) && j <= |s.history|
    ensures |Items(s.history[..j]) * p| >= Inside(s, p, j)
  {
    if j > 0 {
      TakenAtLeast(s, p, j - 1);
      TakenMore(s, p, j);
    }
  }

  lemma TakenMore(s: VetoState, p: set<Key>, j: nat)
    requires Inv(s) && 0 < j <= |s.history|
    ensures |Items(s.history[..j]) * p| >= |Items(s.history[..j - 1]) * p| + if StepPool(s, j - 1) <= p then 1 else 0
  {
    var before, after := Items(s.history[..j - 1]) * p, Items(s.history[..j]) * p;
    ItemsSnoc(s.history, j);
    var item := s.history[j - 1].item;
    assert item in StepPool(s, j - 1) && item !in before by {
      ChoicesAreDistinct(s);
    }
    SubsetCard(before, after);
    if StepPool(s, j - 1) <= p {
      assert after == before + {item};
    }
  }

  /** What is left of p is at most p less the steps that must take from it. */
  lemma LeftAtMost(s: VetoState, p: set<Key>)
    requires Inv(s)
    ensures |Within(s.available, p)| + Inside(s, p, |s.history|) <= |p * Elems(s.pool)|
  {
    TakenAtLeast(s, p, |s.history|);
    assert s.history[..|s.history|] == s.history;
    LeftBound(s, p);
    ChoicesAreDistinct(s);
    var left := Within(s.available, p);
    DistinctCard(left);
    var taken := Items(s.history) * p;
    assert Elems(left) !! taken && Elems(left) + taken <= p * Elems(s.pool);
    SubsetCard(Elems(left) + taken, p * Elems(s.pool));
  }

  lemma ItemsSnoc(h: seq<Entry>, j: nat)
    requires 0 < j <= |h|
    ensures Items(h[..j]) == Items(h[..j - 1]) + {h[j - 1].item}
  {
    assert forall i | 0 <= i < j - 1 :: h[..j][i] == h[..j - 1][i];
    forall x | x in Items(h[..j - 1]) + {h[j - 1].item} ensures x in Items(h[..j]) {
      if x == h[j - 1].item { assert h[..j][j - 1].item == x; }
      else {
        var i :| 0 <= i < j - 1 && h[..j - 1][i].item == x;
        assert h[..j][i].item == x;
      }
    }
  }

  /** With enough on offer, resolving a step that is not the end never throws. */
  lemma ResolveNeverThrows(s: VetoState, draw: Draw)
    requires Inv(s) && Coverable(s) && !s.done
    ensures StepAvailable(s) != [] && ResolveStep(s, draw).Ok?
  {
    LeftBound(s, StepPool(s, s.stepIndex));
    TallyIsPlurality(s.votes, StepAvailable(s), draw);
  }

  /** Nothing but timeouts, one per draw. */
  function Timeouts(draws: seq<Draw>): seq<Event> {
    if draws == [] then [] else [Timeout(draws[0])] + Timeouts(draws[1..])
  }

  /** A run of nothing but timeouts finishes, whatever the draws. */
  lemma {:induction false} TimeoutsFinish(s: VetoState, draws: seq<Draw>)
    requires Inv(s) && Coverable(s) && |draws| == |s.steps| - s.stepIndex
    ensures Run(s, Timeouts(draws)).done
    decreases |draws|
  {
    if draws != [] {
      ResolveNeverThrows(s, draws[0]);
      var t := Apply(s, Timeout(draws[0]));
      ApplyInv(s, Timeout(draws[0]));
      CoverableStable(s, t);
      TimeoutsFinish(t, draws[1..]);
      assert Timeouts(draws)[1..] == Timeouts(draws[1..]);
    }
  }

  lemma CoverableStable(s: VetoState, t: VetoState)
    requires SameVeto(s, t) && Coverable(s)
    ensures Coverable(t)
  {
    forall k | 0 <= k < |t.steps| ensures Meets(t, StepPool(t, k), k) < |StepPool(t, k) * Elems(t.pool)| {
      MeetsStable(s, t, StepPool(s, k), k);
    }
  }

  lemma MeetsStable(s: VetoState, t: VetoState, p: set<Key>, j: nat)
    requires SameVeto(s, t) && j <= |s.steps|
    ensures Meets(t, p, j) == Meets(s, p, j)
  {
  }

  // ---------- Map vetoes ----------

  /** Map vetoes have no phases, so the pool size check of CreateVeto is enough. */
  lemma MapVetoCoverable(pool: seq<Key>, members: Teams, steps: seq<Step>)
    requires CreateVeto(pool, members, steps).Ok?
    ensures Coverable(CreateVeto(pool, members, steps).value)
  {
    var s := CreateVeto(pool, members, steps).value;
    DistinctCard(pool);
    forall k | 0 <= k < |s.steps| ensures Meets(s, StepPool(s, k), k) < |StepPool(s, k) * Elems(s.pool)| {
      MeetsAtMost(s, StepPool(s, k), k);
      assert StepPool(s, k) * Elems(s.pool) == Elems(s.pool);
    }
  }

  lemma MeetsAtMost(s: VetoState, p: set<Key>, j: nat)
    requires j <= |s.steps|
    ensures Meets(s, p, j) <= j
  {
  }

  lemma {:induction false} PicksOfMembers(h: seq<Entry>)
    ensures forall x :: x in PicksOf(h) <==> exists i | 0 <= i < |h| :: h[i].action == Pick && h[i].item == x
  {
    if h != [] {
      var n := |h| - 1;
      PicksOfMembers(h[..n]);
      assert forall i | 0 <= i < n :: h[..n][i] == h[i];
      forall x | exists i | 0 <= i < |h| :: h[i].action == Pick && h[i].item == x ensures x in PicksOf(h) {
        var i :| 0 <= i < |h| && h[i].action == Pick && h[i].item == x;
        if i < n { assert h[..n][i].item == x; }
      }
    }
  }

  lemma {:induction false} PicksOfDistinct(h: seq<Entry>)
    requires forall i, j | 0 <= i < j < |h| :: h[i].item != h[j].item
    ensures Distinct(PicksOf(h))
  {
    if h != [] {
      var n := |h| - 1;
      PicksOfDistinct(h[..n]);
      PicksOfMembers(h[..n]);
      DistinctConcat(PicksOf(h[..n]), if h[n].action == Pick then [h[n].item] else []);
    }
  }

  /**
   * The play order once done repeats nothing and holds exactly the pool less what was banned or taken by a side choice.
   */
  lemma FinalMaps(s: VetoState)
    requires Inv(s) && s.done
    ensures s.maps == PicksOf(s.history) + s.available
    ensures Distinct(s.maps)
    ensures forall x :: x in s.maps <==>
              x in s.pool && forall i | 0 <= i < |s.history| :: s.history[i].item == x ==> s.history[i].action == Pick
  {
    ChoicesAreDistinct(s);
    assert s.maps == PicksOf(s.history) + s.available;
    hide Inv;
    PicksOfMembers(s.history);
    PicksOfDistinct(s.history);
    hide PicksOf;
    DistinctConcat(PicksOf(s.history), s.available);
    forall x | x in s.pool && forall i | 0 <= i < |s.history| :: s.history[i].item == x ==> s.history[i].action == Pick
      ensures x in s.maps
    {
      if x in Items(s.history) {
        var i :| 0 <= i < |s.history| && s.history[i].item == x;
      }
    }
  }
}
