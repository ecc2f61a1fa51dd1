/**
 * What the votes of a step come to (packages/shared/src/veto/bo3.ts): whose ballots count, when the step is over, and
 * which of the most voted things a draw takes.
 */
module VetoBallots {
  import opened Common
  import opened VetoEngine

  /** Thing x may be chosen now: it is in the pool of the step and nobody chose it before. */
  ghost predicate OnOffer(s: VetoState, x: Key) {
    && !s.done && s.stepIndex < |s.steps|
    && x in s.pool && x in StepPool(s, s.stepIndex)
    && forall i | 0 <= i < |s.history| :: s.history[i].item != x
  }

  ghost predicate Acting(s: VetoState, p: Player) {
    && s.stepIndex < |s.steps|
    && p in (if s.steps[s.stepIndex].team == Team0 then s.members.team0 else s.members.team1)
  }

  ghost predicate MayVote(s: VetoState, p: Player, item: Key) {
    OnOffer(s, item) && Acting(s, p)
  }

  lemma OfferIs(s: VetoState, x: Key)
    requires Inv(s) && !s.done
    ensures x in StepAvailable(s) <==> OnOffer(s, x)
  {
    ChoicesAreDistinct(s);
    WithinMembers(s.available, StepPool(s, s.stepIndex));
    hide Inv, StepPool;
  }

  /** A vote counts exactly for a player of the acting team and a thing on offer. It replaces what the player voted
      before and changes nothing else. */
  lemma CastIff(s: VetoState, p: Player, item: Key)
    requires Inv(s)
    ensures CastVote(s, p, item).Ok? <==> MayVote(s, p, item)
    ensures CastVote(s, p, item).Ok? ==> CastVote(s, p, item).value == s.(votes := s.votes[p := item])
  {
    if !s.done {
      OfferIs(s, item);
    }
    hide StepAvailable, StepPool;
  }

  // ---------- The ballots of a step ----------

  /** The thing p last voted for among events in the step s has begun, if any. */
  ghost function LastVote(s: VetoState, events: seq<Event>, p: Player): Option<Key> {
    if events == [] then None
    else
      var e := events[|events| - 1];
      if !e.Timeout? && e.player == p && MayVote(s, p, e.item) then Some(e.item)
      else LastVote(s, events[..|events| - 1], p)
  }

  /** votes holds the last vote of everybody who voted, and nothing else. */
  ghost predicate LastVotes(s: VetoState, events: seq<Event>, votes: map<Player, Key>) {
    forall p :: if p in votes then LastVote(s, events, p) == Some(votes[p]) else LastVote(s, events, p) == None
  }

  ghost predicate EverybodyVoted(s: VetoState, events: seq<Event>) {
    forall p | Acting(s, p) :: LastVote(s, events, p).Some?
  }

  lemma {:induction false} RunLast(s: VetoState, events: seq<Event>, e: Event)
    ensures Run(s, events + [e]) == Apply(Run(s, events), e)
    decreases |events|
  {
    hide Apply;
    if events == [] {
      assert events + [e] == [e] && [e][1..] == [];
      assert Run(Apply(s, e), []) == Apply(s, e);
    } else {
      assert (events + [e])[1..] == events[1..] + [e];
      RunLast(Apply(s, events[0]), events[1..], e);
    }
  }

  lemma LastVoteStep(s: VetoState, events: seq<Event>, e: Event, p: Player)
    ensures LastVote(s, events + [e], p) ==
            if !e.Timeout? && e.player == p && MayVote(s, p, e.item) then Some(e.item) else LastVote(s, events, p)
  {
    assert (events + [e])[..|events|] == events;
  }

  /** A vote that counts makes the ballots those of one more event. */
  lemma OneMoreVote(s: VetoState, events: seq<Event>, votes: map<Player, Key>, e: Event)
    requires LastVotes(s, events, votes)
    ensures !e.Timeout? && MayVote(s, e.player, e.item) ==> LastVotes(s, events + [e], votes[e.player := e.item])
    ensures e.Timeout? || !MayVote(s, e.player, e.item) ==> LastVotes(s, events + [e], votes)
  {
    forall p ensures LastVote(s, events + [e], p) ==
                     if !e.Timeout? && e.player == p && MayVote(s, p, e.item) then Some(e.item)
                     else LastVote(s, events, p)
    {
      LastVoteStep(s, events, e, p);
    }
    hide LastVote, MayVote;
  }

  /** r is a state of the step s has begun. */
  ghost predicate SameStep(s: VetoState, r: VetoState) {
    Inv(s) && Inv(r) && r == s.(votes := r.votes)
  }

  lemma SameOffers(s: VetoState, r: VetoState)
    requires SameStep(s, r)
    ensures forall p, x :: MayVote(r, p, x) <==> MayVote(s, p, x)
    ensures forall x :: OnOffer(r, x) <==> OnOffer(s, x)
  {
  }

  lemma AfterCast(s: VetoState, r: VetoState, p: Player, item: Key)
    requires SameStep(s, r)
    ensures Apply(r, Cast(p, item)) == if MayVote(s, p, item) then r.(votes := r.votes[p := item]) else r
  {
    SameOffers(s, r);
    CastIff(r, p, item);
  }

  ghost predicate AllIn(s: VetoState, votes: map<Player, Key>) {
    forall q | Acting(s, q) :: q in votes
  }

  lemma AfterSubmit(s: VetoState, r: VetoState, p: Player, item: Key, draw: Draw)
    requires SameStep(s, r)
    ensures var t, next := Apply(r, Submit(p, item, draw)), r.(votes := r.votes[p := item]);
            if !MayVote(s, p, item) then t == r
            else if AllIn(s, next.votes) then Resolved(next, t, draw)
            else t == next
  {
    SameOffers(s, r);
    CastIff(r, p, item);
    if MayVote(s, p, item) {
      CastInv(r, p, item);
      var next := r.(votes := r.votes[p := item]);
      ResolvesWithOffer(next, draw, item);
      AllVotedIs(s, next);
    }
  }

  lemma AfterTimeout(s: VetoState, r: VetoState, draw: Draw)
    requires SameStep(s, r)
    ensures if exists x :: OnOffer(s, x) then Resolved(r, Apply(r, Timeout(draw)), draw)
            else Apply(r, Timeout(draw)) == r
  {
    SameOffers(s, r);
    if x :| OnOffer(s, x) {
      ResolvesWithOffer(r, draw, x);
    } else {
      NoOfferNoStep(r, draw);
    }
  }

  /** What one event does to a state of the step: it records a vote, ends the step, or does nothing. */
  lemma EventInStep(s: VetoState, r: VetoState, e: Event)
    requires SameStep(s, r)
    ensures e.Cast? || (e.Submit? && !(MayVote(s, e.player, e.item) && AllIn(s, r.votes[e.player := e.item]))) ==>
              Apply(r, e) == if MayVote(s, e.player, e.item) then r.(votes := r.votes[e.player := e.item]) else r
    ensures e.Submit? && MayVote(s, e.player, e.item) && AllIn(s, r.votes[e.player := e.item]) ==>
              Resolved(r.(votes := r.votes[e.player := e.item]), Apply(r, e), e.draw)
    ensures e.Timeout? && (exists x :: OnOffer(s, x)) ==> Resolved(r, Apply(r, e), e.draw)
    ensures e.Timeout? && (forall x :: !OnOffer(s, x)) ==> Apply(r, e) == r
  {
    hide Apply, SameStep, MayVote, Resolved, AllIn, OnOffer;
    match e
    case Cast(p, item) => AfterCast(s, r, p, item);
    case Submit(p, item, draw) => AfterSubmit(s, r, p, item, draw);
    case Timeout(draw) => AfterTimeout(s, r, draw);
  }

  lemma AllVotedIs(s: VetoState, next: VetoState)
    requires next == s.(votes := next.votes) && !s.done && s.stepIndex < |s.steps|
    ensures AllVoted(next) <==> AllIn(s, next.votes)
  {
    assert forall q :: Acting(s, q) <==> q in next.members.Of(next.steps[next.stepIndex].team);
  }

  /** t is what resolving r gives: its step is over, with r's ballots in the history and an empty ballot next. */
  ghost predicate Resolved(r: VetoState, t: VetoState, draw: Draw) {
    && |t.history| == |r.history| + 1 && t.history[..|r.history|] == r.history
    && t.stepIndex == r.stepIndex + 1 && t.votes == map[]
    && r.stepIndex < |r.steps| && ResolveStep(r, draw) == Ok(t)
    && var h := t.history[|r.history|];
       && h.step == r.stepIndex && h.action == r.steps[r.stepIndex].action && h.team == r.steps[r.stepIndex].team
       && h.votes == r.votes
  }

  lemma ResolvesWithOffer(r: VetoState, draw: Draw, x: Key)
    requires Inv(r) && OnOffer(r, x)
    ensures ResolveStep(r, draw).Ok? && Resolved(r, ResolveStep(r, draw).value, draw)
  {
    OfferIs(r, x);
    TallyIsPlurality(r.votes, StepAvailable(r), draw);
    hide TallyOf, StepAvailable, StepPool, PicksOf;
  }

  lemma NoOfferNoStep(r: VetoState, draw: Draw)
    requires Inv(r) && forall x :: !OnOffer(r, x)
    ensures ResolveStep(r, draw).Err?
  {
    if !r.done {
      var t := TallyOf(r.votes, StepAvailable(r), draw);
      TallyIsPlurality(r.votes, StepAvailable(r), draw);
      if t.Ok? {
        OfferIs(r, t.value.item);
      }
    }
  }

  /**
   * While a step lasts its ballots are the last votes of its voters: a changed vote replaces, the votes of the others
   * stay, votes that do not count change nothing, and nothing but the ballots changes.
   */
  lemma {:induction false} BallotsAreLastVotes(s: VetoState, events: seq<Event>)
    requires Inv(s) && s.votes == map[] && Run(s, events).stepIndex == s.stepIndex
    ensures Inv(Run(s, events)) && Run(s, events) == s.(votes := Run(s, events).votes)
    ensures LastVotes(s, events, Run(s, events).votes)
    decreases |events|
  {
    if events == [] {
    } else {
      var before, e := events[..|events| - 1], events[|events| - 1];
      assert events == before + [e];
      RunLast(s, before, e);
      RunInv(s, before);
      RunInv(s, events);
      ApplyInv(Run(s, before), e);
      assert Run(s, before).stepIndex == s.stepIndex;
      hide Run, Apply, Inv, LastVotes, MayVote, OnOffer, AllIn;
      BallotsAreLastVotes(s, before);
      EventInStep(s, Run(s, before), e);
      OneMoreVote(s, before, Run(s, before).votes, e);
    }
  }

  /**
   * The event that ends a step. A vote that waits for nobody never does. A submitted one does exactly when it counts
   * and everybody of the acting team has voted with it. A timeout does exactly when something is on offer.
   */
  lemma StepEndsIff(s: VetoState, events: seq<Event>, e: Event)
    requires Inv(s) && s.votes == map[] && Run(s, events).stepIndex == s.stepIndex
    ensures Run(s, events + [e]).stepIndex != s.stepIndex <==>
            || (e.Submit? && MayVote(s, e.player, e.item) && EverybodyVoted(s, events + [e]))
            || (e.Timeout? && exists x :: OnOffer(s, x))
  {
    BallotsAreLastVotes(s, events);
    RunLast(s, events, e);
    var r := Run(s, events);
    EventInStep(s, r, e);
    OneMoreVote(s, events, r.votes, e);
    hide Run, Apply, Inv, MayVote, Acting, LastVote, OnOffer;
    if e.Submit? && MayVote(s, e.player, e.item) {
      var votes := r.votes[e.player := e.item];
      assert forall q :: q in votes <==> LastVote(s, events + [e], q).Some?;
    }
  }

  /** Its entry in the history holds the last vote of everybody who voted in it, the one that ended it included. */
  lemma EntryHoldsVotes(s: VetoState, events: seq<Event>, e: Event)
    requires Inv(s) && s.votes == map[] && Run(s, events).stepIndex == s.stepIndex
    requires Run(s, events + [e]).stepIndex != s.stepIndex
    ensures var t := Run(s, events + [e]);
            && |t.history| == |s.history| + 1 && t.history[..|s.history|] == s.history
            && t.stepIndex == s.stepIndex + 1 && t.votes == map[]
            && LastVotes(s, events + [e], t.history[|s.history|].votes)
            && s.stepIndex < |s.steps|
            && t.history[|s.history|].action == s.steps[s.stepIndex].action
            && t.history[|s.history|].team == s.steps[s.stepIndex].team
  {
    BallotsAreLastVotes(s, events);
    RunLast(s, events, e);
    EventInStep(s, Run(s, events), e);
    OneMoreVote(s, events, Run(s, events).votes, e);
    hide Run, Apply, Inv, MayVote, Acting, LastVotes, OnOffer, AllIn;
  }

  // ---------- Ties and draws ----------

  /** Nothing on offer has more votes than x. Without a vote that holds of everything on offer. */
  ghost predicate Leads(votes: map<Player, Key>, offer: seq<Key>, x: Key) {
    x in offer && forall y | y in offer :: Count(votes, y) <= Count(votes, x)
  }

  /** A draw chooses among the things that lead, in the order of the pool. */
  lemma LeadersAre(votes: map<Player, Key>, offer: seq<Key>)
    ensures forall x :: x in Leaders(votes, offer) <==> Leads(votes, offer, x)
    ensures forall i, j | 0 <= i < j < |Leaders(votes, offer)| :: Ordered(Leaders(votes, offer), offer, i, j)
  {
    var top := MaxCount(votes, offer);
    var most := set x | x in offer && Count(votes, x) == top;
    WithinMembers(offer, most);
    forall i, j | 0 <= i < j < |Leaders(votes, offer)| ensures Ordered(Leaders(votes, offer), offer, i, j) {
      if top != 0 {
        WithinOrdered(offer, most, i, j);
      } else {
        assert offer[i] == Leaders(votes, offer)[i] && offer[j] == Leaders(votes, offer)[j];
      }
    }
  }

  /** A draw from 0 up to 1 takes number i of n things exactly in its own n-th part. */
  lemma DrawIndexIs(draw: Draw, n: nat, i: nat)
    requires i < n && draw < 1.0
    ensures DrawIndex(draw, n) == i <==> i as real <= draw * n as real < i as real + 1.0
  {
    var x := draw * n as real;
    assert 0.0 <= x < n as real;
  }

  /** The thing a draw takes, and when it broke a tie: with a vote cast, and two things that nothing beats. */
  lemma TallyDraws(votes: map<Player, Key>, offer: seq<Key>, draw: Draw, i: nat)
    requires Distinct(offer) && i < |Leaders(votes, offer)| && draw < 1.0
    requires i as real <= draw * |Leaders(votes, offer)| as real < i as real + 1.0
    ensures TallyOf(votes, offer, draw).Ok?
    ensures var t := TallyOf(votes, offer, draw).value;
            && t.item == Leaders(votes, offer)[i]
            && (t.tieBroken <==>
                  && (exists x | x in offer :: Count(votes, x) > 0)
                  && exists x, y :: x != y && Leads(votes, offer, x) && Leads(votes, offer, y))
  {
    var leaders := Leaders(votes, offer);
    DrawIndexIs(draw, |leaders|, i);
    LeadersAre(votes, offer);
    LeadersDistinct(votes, offer);
    hide Leaders, DrawIndex, Leads;
    if |leaders| > 1 {
      assert leaders[0] in leaders && leaders[1] in leaders && leaders[0] != leaders[1];
    }
  }

  lemma LeadersDistinct(votes: map<Player, Key>, offer: seq<Key>)
    requires Distinct(offer)
    ensures Distinct(Leaders(votes, offer))
  {
    WithinDistinct(offer, set x | x in offer && Count(votes, x) == MaxCount(votes, offer));
  }

  /** One more ballot is one more vote for what it names and takes none away from anything else. */
  lemma BallotCounts(votes: map<Player, Key>, p: Player, item: Key, x: Key)
    requires p !in votes
    ensures Count(votes[p := item], x) == Count(votes, x) + if x == item then 1 else 0
    ensures Count(map[], x) == 0
  {
    var more := votes[p := item];
    assert VotersIn(more, more.Keys, x) == VotersIn(votes, votes.Keys, x) + if x == item then {p} else {};
    assert VotersIn(map[], {}, x) == {};
  }
}
