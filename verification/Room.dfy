/**
 * The match room the web client keeps (packages/shared/src/room.ts): a first snapshot, then events and refetches in
 * whatever order they arrive. What the parts show is kept as opaque numbers, how far along the room is in full.
 */
module Room {
  import opened Common

  datatype Status = Accepting | Veto | Allocating | Starting | Ready | Live | Finished | Abandoned | Cancelled

  function Rank(s: Status): (r: nat)
    ensures r <= 6
  {
    match s
    case Accepting => 0
    case Veto => 1
    case Allocating => 2
    case Starting => 3
    case Ready => 4
    case Live => 5
    case _ => 6
  }

  predicate Over(s: Status) {
    Rank(s) == 6
  }

  datatype Accept = Accept(view: int, responded: bool)

  datatype Room = Room(
    matchId: string,
    status: Status,
    accept: Option<Accept>,
    veto: Option<int>,
    server: Option<int>,
    result: Option<int>,
    cancelReason: Option<string>)

  /** What a refetch brings. */
  datatype Detail = Detail(id: string, status: Status, accept: Option<Accept>, veto: Option<int>, server: Option<int>)

  datatype Message =
    | MatchFound(matchId: string, view: int)
    | Responded(matchId: string)
    | VetoState(matchId: string, done: bool, view: int)
    | ServerReady(matchId: string, server: int)
    | MatchUpdate(matchId: string, status: Status)
    | MatchResult(matchId: string, completed: bool, result: int)
    | MatchCancelled(matchId: string, reason: string)
    | Refetch(detail: Detail)

  function Advance(cur: Status, next: Status): Status {
    if Rank(next) > Rank(cur) then next else cur
  }

  function Merge(s: Room, d: Detail): Room {
    if d.id != s.matchId || Rank(d.status) < Rank(s.status) then s
    else
      Room(s.matchId, d.status,
           if d.accept.Some? && s.accept.Some? && s.accept.value.responded
           then Some(d.accept.value.(responded := true)) else d.accept,
           d.veto,
           if d.server.Some? then d.server else if Over(d.status) then None else s.server,
           s.result, s.cancelReason)
  }

  function Apply(s: Room, e: Message): Room {
    if e.Refetch? then Merge(s, e.detail)
    else if e.matchId != s.matchId then s
    else
      match e
      case MatchFound(_, view) =>
        if Rank(s.status) > Rank(Accepting) then s
        else s.(accept := Some(Accept(view, s.accept.Some? && s.accept.value.responded)))
      case Responded(_) => if s.accept.Some? then s.(accept := Some(s.accept.value.(responded := true))) else s
      case VetoState(_, done, view) =>
        var status := Advance(s.status, if done then Allocating else Veto);
        if Rank(status) > Rank(Allocating) then s else s.(status := status, veto := Some(view))
      case ServerReady(_, server) =>
        if Over(s.status) then s else s.(status := Advance(s.status, Ready), server := Some(server))
      case MatchUpdate(_, status) =>
        s.(status := if Over(s.status) then (if Over(status) then status else s.status) else Advance(s.status, status))
      case MatchResult(_, completed, result) =>
        s.(status := if completed then Finished else Abandoned, result := Some(result))
      case MatchCancelled(_, reason) =>
        s.(status := if Over(s.status) then s.status else Cancelled, cancelReason := Some(reason))
  }

  function Run(s: Room, es: seq<Message>): Room {
    if es == [] then s else Apply(Run(s, es[..|es| - 1]), es[|es| - 1])
  }

  /** How far along a message says the match is. A message for another match says nothing. */
  function Carried(id: string, e: Message): nat {
    if e.Refetch? then (if e.detail.id == id then Rank(e.detail.status) else 0)
    else if e.matchId != id then 0
    else
      match e
      case MatchFound(_, _) => 0
      case Responded(_) => 0
      case VetoState(_, done, _) => if done then 2 else 1
      case ServerReady(_, _) => 4
      case MatchUpdate(_, status) => Rank(status)
      case MatchResult(_, _, _) => 6
      case MatchCancelled(_, _) => 6
  }

  /** The room is as far along as the furthest of its snapshot and every message, in whatever order they came. */
  lemma {:induction false} RankIsMaximum(s: Room, es: seq<Message>)
    ensures var r := Run(s, es);
            && r.matchId == s.matchId
            && Rank(r.status) >= Rank(s.status)
            && (forall e | e in es :: Rank(r.status) >= Carried(s.matchId, e))
            && (Rank(r.status) == Rank(s.status) || exists e | e in es :: Rank(r.status) == Carried(s.matchId, e))
  {
    if es != [] {
      var before, last := es[..|es| - 1], es[|es| - 1];
      RankIsMaximum(s, before);
      assert es == before + [last];
      var m, r := Run(s, before), Run(s, es);
      assert Rank(r.status) ==
             if Carried(s.matchId, last) > Rank(m.status) then Carried(s.matchId, last) else Rank(m.status);
      if Rank(r.status) == Carried(s.matchId, last) {
        assert last in es;
      } else if Rank(m.status) != Rank(s.status) {
        var e :| e in before && Rank(m.status) == Carried(s.matchId, e);
        assert e in es;
      }
    }
  }

  lemma StepForward(s: Room, e: Message)
    ensures Rank(Apply(s, e).status) >= Rank(s.status)
    ensures s.result.Some? ==> Apply(s, e).result.Some?
    ensures s.cancelReason.Some? ==> Apply(s, e).cancelReason.Some?
  {
  }

  /** It never goes back and over stays over: more messages only move it on. */
  lemma {:induction false} NeverBack(s: Room, es: seq<Message>, more: seq<Message>)
    ensures Rank(Run(s, es + more).status) >= Rank(Run(s, es).status)
    ensures Over(Run(s, es).status) ==> Over(Run(s, es + more).status)
    ensures Run(s, es).result.Some? ==> Run(s, es + more).result.Some?
    ensures Run(s, es).cancelReason.Some? ==> Run(s, es + more).cancelReason.Some?
    decreases |more|
  {
    hide Apply;
    if more == [] {
      assert es + more == es;
    } else {
      var less, last := more[..|more| - 1], more[|more| - 1];
      NeverBack(s, es, less);
      assert (es + more)[..|es + more| - 1] == es + less;
      StepForward(Run(s, es + less), last);
      assert Run(s, es + more) == Apply(Run(s, es + less), last);
    }
  }

  /** An answered prompt stays answered while the room shows one, and a server shown goes only with a refetch of a
      match that is over. */
  lemma ShownParts(s: Room, e: Message)
    ensures var r := Apply(s, e);
            && (s.accept.Some? && s.accept.value.responded && r.accept.Some? ==> r.accept.value.responded)
            && (s.server.Some? && r.server.None? ==> e.Refetch? && Over(r.status))
            && (e.ServerReady? && e.matchId == s.matchId && !Over(s.status) ==> r.server == Some(e.server))
            && (r.veto != s.veto && !e.Refetch? ==> Rank(r.status) <= Rank(Allocating))
  {
  }

  /** Messages that arrive in another order or more than once lead to the same status, unless the match is over. */
  lemma OrderDoesNotMatter(s: Room, es: seq<Message>, fs: seq<Message>)
    requires forall e :: e in es <==> e in fs
    ensures Rank(Run(s, es).status) == Rank(Run(s, fs).status)
    ensures !Over(Run(s, es).status) ==> Run(s, es).status == Run(s, fs).status
    ensures Over(Run(s, es).status) <==> Over(Run(s, fs).status)
  {
    RankIsMaximum(s, es);
    RankIsMaximum(s, fs);
  }

  // ---------- Once the match is over ----------

  /** The final status a message insists on. A cancel does not: it yields to one that is already there. */
  function Says(id: string, e: Message): Option<Status> {
    if e.Refetch? then (if e.detail.id == id && Over(e.detail.status) then Some(e.detail.status) else None)
    else if e.matchId != id then None
    else if e.MatchUpdate? && Over(e.status) then Some(e.status)
    else if e.MatchResult? then Some(if e.completed then Finished else Abandoned)
    else None
  }

  /** Once over, a message changes the final status exactly when it insists on another one. */
  lemma FinalStatusIsLastWord(s: Room, e: Message)
    requires Over(s.status)
    ensures Apply(s, e).status == if Says(s.matchId, e).Some? then Says(s.matchId, e).value else s.status
  {
  }

  function LastSaid(id: string, es: seq<Message>): Option<Status> {
    if es == [] then None
    else if Says(id, es[|es| - 1]).Some? then Says(id, es[|es| - 1])
    else LastSaid(id, es[..|es| - 1])
  }

  /** Which final status a room ends in: the last one said, or else the one it started with, or else cancelled. */
  lemma {:induction false} FinalStatus(s: Room, es: seq<Message>)
    ensures Run(s, es).matchId == s.matchId
    ensures LastSaid(s.matchId, es).Some? || Over(s.status) ==> Over(Run(s, es).status)
    ensures Over(Run(s, es).status) ==>
              Run(s, es).status ==
              match LastSaid(s.matchId, es)
              case Some(status) => status
              case None => if Over(s.status) then s.status else Cancelled
  {
    if es != [] {
      FinalStatus(s, es[..|es| - 1]);
    }
  }

  lemma {:induction false} LastSaidIsSaid(id: string, es: seq<Message>)
    ensures LastSaid(id, es).None? <==> forall e | e in es :: Says(id, e).None?
    ensures LastSaid(id, es).Some? ==> exists e | e in es :: Says(id, e) == LastSaid(id, es)
  {
    if es != [] {
      LastSaidIsSaid(id, es[..|es| - 1]);
      assert es == es[..|es| - 1] + [es[|es| - 1]];
    }
  }

  ghost predicate Agree(id: string, es: seq<Message>) {
    forall e, f | e in es && f in es && Says(id, e).Some? && Says(id, f).Some? :: Says(id, e) == Says(id, f)
  }

  lemma AgreeingOrders(s: Room, es: seq<Message>, fs: seq<Message>)
    requires Agree(s.matchId, es) && forall e :: e in es <==> e in fs
    ensures Run(s, es).status == Run(s, fs).status
  {
    OrderDoesNotMatter(s, es, fs);
    FinalStatus(s, es);
    FinalStatus(s, fs);
    LastSaidIsSaid(s.matchId, es);
    LastSaidIsSaid(s.matchId, fs);
  }

  /** The messages with number i moved to the end. */
  function MovedLast(es: seq<Message>, i: nat): (r: seq<Message>)
    requires i < |es|
    ensures multiset(r) == multiset(es)
  {
    assert es == es[..i] + [es[i]] + es[i + 1..];
    es[..i] + es[i + 1..] + [es[i]]
  }

  lemma LastWord(s: Room, es: seq<Message>, i: nat)
    requires i < |es| && Says(s.matchId, es[i]).Some?
    ensures Run(s, MovedLast(es, i)).status == Says(s.matchId, es[i]).value
  {
    var fs := MovedLast(es, i);
    assert fs[|fs| - 1] == es[i];
    FinalStatus(s, fs);
  }

  ghost predicate EveryOrderAgrees(s: Room, es: seq<Message>) {
    forall fs | multiset(fs) == multiset(es) :: Run(s, fs).status == Run(s, es).status
  }

  /** Every order of delivery ends in the same status exactly when the messages that insist on one agree on it. */
  lemma OrdersAgreeIff(s: Room, es: seq<Message>)
    ensures EveryOrderAgrees(s, es) <==> Agree(s.matchId, es)
  {
    if Agree(s.matchId, es) {
      forall fs | multiset(fs) == multiset(es) ensures Run(s, fs).status == Run(s, es).status {
        assert forall e :: e in es <==> e in multiset(es);
        assert forall e :: e in fs <==> e in multiset(fs);
        AgreeingOrders(s, es, fs);
      }
    } else {
      var e, f :| e in es && f in es && Says(s.matchId, e).Some? && Says(s.matchId, f).Some?
                  && Says(s.matchId, e) != Says(s.matchId, f);
      var i :| 0 <= i < |es| && es[i] == e;
      var j :| 0 <= j < |es| && es[j] == f;
      LastWord(s, es, i);
      LastWord(s, es, j);
      assert Run(s, MovedLast(es, i)).status != Run(s, MovedLast(es, j)).status;
    }
  }

  /** The smallest disagreement: a result and a final update that says something else. */
  lemma OverOrderMatters(s: Room)
    requires !Over(s.status)
    ensures var cancel, result := MatchCancelled(s.matchId, ""), MatchResult(s.matchId, true, 0);
            var update := MatchUpdate(s.matchId, Cancelled);
            && Apply(Apply(s, cancel), result).status == Apply(Apply(s, result), cancel).status == Finished
            && Apply(Apply(s, update), result).status == Finished
            && Apply(Apply(s, result), update).status == Cancelled
  {
  }

  // ---------- What each message shows ----------

  /** The order of a match: each status is behind the next, and the three final ones are ahead of all others. */
  lemma StatusOrder()
    ensures Rank(Accepting) < Rank(Veto) < Rank(Allocating) < Rank(Starting) < Rank(Ready) < Rank(Live)
    ensures Rank(Live) < Rank(Finished) == Rank(Abandoned) == Rank(Cancelled)
    ensures forall s :: Over(s) <==> s == Finished || s == Abandoned || s == Cancelled
  {
  }

  /** The status a message reports. A message for another match, an accept prompt and an answer report none. */
  function Reports(id: string, e: Message): Option<Status> {
    if e.Refetch? then (if e.detail.id == id then Some(e.detail.status) else None)
    else if e.matchId != id then None
    else
      match e
      case VetoState(_, done, _) => Some(if done then Allocating else Veto)
      case ServerReady(_, _) => Some(Ready)
      case MatchUpdate(_, status) => Some(status)
      case MatchResult(_, completed, _) => Some(if completed then Finished else Abandoned)
      case MatchCancelled(_, _) => Some(Cancelled)
      case _ => None
  }

  lemma {:induction false} ShowsReported(s: Room, es: seq<Message>)
    ensures Run(s, es).matchId == s.matchId
    ensures Run(s, es).status == s.status || exists e | e in es :: Reports(s.matchId, e) == Some(Run(s, es).status)
  {
    if es != [] {
      var before, last := es[..|es| - 1], es[|es| - 1];
      ShowsReported(s, before);
      assert es == before + [last] && last in es;
      assert Run(s, es).status == Run(s, before).status || Reports(s.matchId, last) == Some(Run(s, es).status);
      if Run(s, es).status == Run(s, before).status && Run(s, before).status != s.status {
        var e :| e in before && Reports(s.matchId, e) == Some(Run(s, before).status);
        assert e in es;
      }
    }
  }

  lemma {:induction false} ReportedIsCarried(id: string, e: Message)
    ensures Reports(id, e).Some? ==> Rank(Reports(id, e).value) == Carried(id, e)
    ensures Reports(id, e).None? ==> Carried(id, e) == 0
  {
  }

  /**
   * Until it is over the room shows the furthest status anything reported: the snapshot, or a message that came, in
   * whatever order. So an update to live shows live, before a late server message or after it.
   */
  lemma ShowsFurthest(s: Room, es: seq<Message>)
    requires !Over(Run(s, es).status)
    ensures var r := Run(s, es);
            && (r.status == s.status || exists e | e in es :: Reports(s.matchId, e) == Some(r.status))
            && Rank(s.status) <= Rank(r.status)
            && forall e | e in es && Reports(s.matchId, e).Some? :: Rank(Reports(s.matchId, e).value) <= Rank(r.status)
  {
    RankIsMaximum(s, es);
    ShowsReported(s, es);
    forall e | e in es && Reports(s.matchId, e).Some?
      ensures Rank(Reports(s.matchId, e).value) <= Rank(Run(s, es).status)
    {
      ReportedIsCarried(s.matchId, e);
    }
  }

  /** The parts a message brings are shown, unless it is for another match or too late. */
  lemma PartsShown(s: Room, e: Message)
    ensures var r := Apply(s, e);
            && (!e.Refetch? && e.matchId != s.matchId ==> r == s)
            && (e == MatchFound(s.matchId, if e.MatchFound? then e.view else 0) ==>
                  if s.status != Accepting then r == s
                  else r == s.(accept := Some(Accept(e.view, s.accept.Some? && s.accept.value.responded))))
            && (e == Responded(s.matchId) ==>
                  r == if s.accept.Some? then s.(accept := Some(Accept(s.accept.value.view, true))) else s)
            && (e.VetoState? && e.matchId == s.matchId ==>
                  if s.status == Accepting || s.status == Veto || s.status == Allocating
                  then r == s.(status := r.status, veto := Some(e.view)) else r == s)
            && (e.ServerReady? && e.matchId == s.matchId ==>
                  if Over(s.status) then r == s else r == s.(status := r.status, server := Some(e.server)))
            && (e.MatchUpdate? ==> r == s.(status := r.status))
            && (e.MatchResult? && e.matchId == s.matchId ==> r == s.(status := r.status, result := Some(e.result)))
            && (e.MatchCancelled? && e.matchId == s.matchId ==>
                  r == s.(status := r.status, cancelReason := Some(e.reason)))
  {
  }

  /** A refetch that is not behind the room replaces what it shows. It keeps an answer, the result and the reason, and a
      server it does not bring unless the match is over. */
  lemma RefetchShows(s: Room, d: Detail)
    ensures var r := Apply(s, Refetch(d));
            && (d.id != s.matchId || Rank(d.status) < Rank(s.status) ==> r == s)
            && (d.id == s.matchId && Rank(d.status) >= Rank(s.status) ==>
                  && r.status == d.status && r.veto == d.veto
                  && (r.accept.Some? <==> d.accept.Some?)
                  && (d.accept.Some? ==>
                        && r.accept.value.view == d.accept.value.view
                        && (r.accept.value.responded <==>
                              d.accept.value.responded || (s.accept.Some? && s.accept.value.responded)))
                  && (d.server.Some? ==> r.server == d.server)
                  && (d.server.None? && !Over(d.status) ==> r.server == s.server)
                  && (d.server.None? && Over(d.status) ==> r.server == None)
                  && r.result == s.result && r.cancelReason == s.cancelReason && r.matchId == s.matchId)
  {
  }
}
