/**
 * What the host agent does when it is asked to (agent/internal/manager/manager.go): a stop is never lost, a start runs
 * a server or leaves nothing behind, and an end is recorded and reported.
 */
module HostEffects {
  import opened Common
  import opened Slots
  import opened HostManager
  import opened HostAgent
  import opened HostRuns

  // ---------- Stops ----------

  /** Server i is marked, and StopCall k is for it. */
  ghost predicate Marked(w: World, i: nat, k: nat) {
    i < |w.m.objs| && w.m.objs[i].stopping && k < |w.stops| && w.stops[k].server == i
  }

  lemma StepKeepsMark(c: Ports, w: World, a: Action, i: nat, k: nat)
    requires Marked(w, i, k)
    ensures Marked(Step(c, w, a), i, k)
  {
    hide FileOf, Capped, ExitStatus, StartAnswerOf, UpdStep, Gate;
    if ServerStep(a) {
      hide BooksPart, StopPart, Touched;
      TouchedKeepsMark(w, a, i);
    } else if StopStep(a) {
      hide BooksPart, StopPart, Touched, Marked;
      StopKeepsMark(w, a, i, k);
    } else if !UpdaterStep(a) {
      hide BooksPart, StopPart, Touched, Marked;
      BooksKeepMark(c, w, a, i, k);
    }
  }

  lemma StopKeepsMark(w: World, a: Action, i: nat, k: nat)
    requires Marked(w, i, k) && StopStep(a)
    ensures Marked(StopPart(w, a), i, k)
  {
  }

  lemma BooksKeepMark(c: Ports, w: World, a: Action, i: nat, k: nat)
    requires Marked(w, i, k) && !ServerStep(a) && !UpdaterStep(a) && !StopStep(a)
    ensures Marked(BooksPart(c, w, a), i, k)
  {
    hide FileOf, Capped, ExitStatus, StartAnswerOf;
  }

  lemma TouchedKeepsMark(w: World, a: Action, i: nat)
    requires ServerStep(a) && i < |w.m.objs|
    ensures Touched(w.m.objs[i], a).stopping == w.m.objs[i].stopping
  {
  }

  lemma {:induction false} RunKeepsMark(c: Ports, w: World, acts: seq<Action>, i: nat, k: nat)
    requires Marked(w, i, k)
    ensures Marked(Run(c, w, acts), i, k)
    decreases |acts|
  {
    hide Marked, Step;
    if acts != [] {
      StepKeepsMark(c, w, acts[0], i, k);
      RunKeepsMark(c, Step(c, w, acts[0]), acts[1..], i, k);
    }
  }

  /**
   * A stop of a match that has a server, starting or running, marks that server for good. However the run goes on, once
   * the process is known proc.Stop was called, or Start or the Stop call is about to call it.
   */
  lemma StopSticks(c: Ports, w: World, id: MatchId, acts: seq<Action>)
    requires Reachable(c, w) && id in w.m.servers
    ensures w.m.servers[id] < |w.m.objs|
    ensures var i, r := w.m.servers[id], Run(c, Step(c, w, Stop(id)), acts);
            && Reachable(c, r)
            && i < |r.m.objs| && r.m.objs[i].stopping
            && (exists k | 0 <= k < |r.stops| :: r.stops[k].server == i)
            && (Known(r.m.objs[i]) ==> StopComing(r.m.objs[i], i, r.stops))
  {
    StopMarks(c, w, id);
    var i, s := w.m.servers[id], Step(c, w, Stop(id));
    hide Step, Marked, Known, StopComing;
    RunKeepsMark(c, s, acts, i, |w.stops|);
    RunsOn(c, w, [Stop(id)] + acts);
    assert ([Stop(id)] + acts)[1..] == acts;
    var r := Run(c, s, acts);
    assert Run(c, w, [Stop(id)] + acts) == r;
    hide Reachable, Run;
    MarkedIs(r, i, |w.stops|);
    if Known(r.m.objs[i]) {
      StopsReachTheProcess(c, r, i);
      StopComingIs(r, i);
    }
  }

  lemma StopMarks(c: Ports, w: World, id: MatchId)
    requires Reachable(c, w) && id in w.m.servers
    ensures w.m.servers[id] < |w.m.objs| && Marked(Step(c, w, Stop(id)), w.m.servers[id], |w.stops|)
  {
    ReachableInv(c, w);
    hide Reachable, PortsHeld, ServersOk, FileOf, LogOk, StopsOk, UpdOk;
    assert w.m.servers[id] < |w.m.objs|;
    hide MapsLive, Owned, Inv;
    Marks(c, w, id);
  }

  lemma Marks(c: Ports, w: World, id: MatchId)
    requires id in w.m.servers && w.m.servers[id] < |w.m.objs|
    ensures Marked(Step(c, w, Stop(id)), w.m.servers[id], |w.stops|)
  {
  }

  lemma MarkedIs(w: World, i: nat, k: nat)
    requires Marked(w, i, k)
    ensures i < |w.m.objs| && w.m.objs[i].stopping && exists j | 0 <= j < |w.stops| :: w.stops[j].server == i
  {
  }

  lemma StopComingIs(r: World, i: nat)
    requires i < |r.m.objs|
    requires r.m.objs[i].stopIssued || r.m.objs[i].stopPending
             || exists k | 0 <= k < |r.stops| :: r.stops[k] == StopCall(i, Issuing)
    ensures StopComing(r.m.objs[i], i, r.stops)
  {
  }

  lemma RunsOn(c: Ports, w: World, acts: seq<Action>)
    requires Reachable(c, w)
    ensures Reachable(c, Run(c, w, acts))
  {
    var entries, before :| Written(c, entries) && w == Run(c, Started(c, entries), before);
    RunConcat(c, Started(c, entries), before, acts);
    hide Written, Run, Started;
  }

  /** And it can be called at once: one step of Start or of a Stop call does it. */
  lemma StopIsIssued(c: Ports, w: World, i: nat) returns (a: Action)
    requires Reachable(c, w) && i < |w.m.objs| && w.m.objs[i].stopping && Known(w.m.objs[i])
    ensures i < |Step(c, w, a).m.objs| && Step(c, w, a).m.objs[i].stopIssued
    ensures a == IssuePending(i) || (a.IssueStop? && a.k < |w.stops| && w.stops[a.k].server == i)
  {
    StopsReachTheProcess(c, w, i);
    hide Reachable;
    if w.m.objs[i].stopIssued || w.m.objs[i].stopPending {
      a := IssuePending(i);
    } else {
      var k :| 0 <= k < |w.stops| && w.stops[k] == StopCall(i, Issuing);
      a := IssueStop(k);
    }
  }

  /** A stop of a match without a server changes nothing. */
  lemma StopOfNobody(c: Ports, w: World, id: MatchId)
    requires id !in w.m.servers
    ensures Step(c, w, Stop(id)) == w
  {
  }

  // ---------- Starts ----------

  /** Which answer a start gets, in the order the agent looks. */
  lemma StartAnswers(c: Ports, m: Manager, id: MatchId, busy: set<int>)
    ensures var answer := StartAnswerOf(c, m, id, busy);
            && (answer == StartAnswer.Updating <==> !m.accepting)
            && (answer == Exists <==> m.accepting && id in m.servers)
            && (answer == NoSlots <==>
                  m.accepting && id !in m.servers && forall p | c.lo <= p <= c.hi :: p in m.used || p in busy)
            && (answer.Reserved? ==> answer.server == |m.objs|)
  {
  }

  /** p is the lowest port of the range that nobody holds and the host can bind. */
  ghost predicate LowestPort(c: Ports, m: Manager, busy: set<int>, p: int) {
    c.lo <= p <= c.hi && p !in m.used && p !in busy && forall q | c.lo <= q < p :: q in m.used || q in busy
  }

  ghost predicate CanStart(c: Ports, m: Manager, id: MatchId, busy: set<int>, p: int) {
    m.accepting && id !in m.servers && LowestPort(c, m, busy, p)
  }

  lemma LowestIs(c: Ports, m: Manager, id: MatchId, busy: set<int>, p: int)
    requires CanStart(c, m, id, busy, p)
    ensures StartAnswerOf(c, m, id, busy).Reserved? && LowestFree(c.lo, c.hi, m.used, busy) == Some(p)
  {
    hide LowestFree;
  }

  lemma RunThree(c: Ports, w: World, x: Action, y: Action, z: Action)
    ensures Run(c, w, [x, y, z]) == Step(c, Step(c, Step(c, w, x), y), z)
  {
    hide Step;
    assert [x, y, z][1..] == [y, z] && [y, z][1..] == [z] && [z][1..] == [];
    var w1 := Step(c, w, x);
    var w2 := Step(c, w1, y);
    assert Run(c, w2, [z]) == Run(c, Step(c, w2, z), []);
    assert Run(c, w1, [y, z]) == Run(c, w2, [z]);
  }

  lemma Reserves(c: Ports, w: World, id: MatchId, hooked: bool, busy: set<int>, p: int)
    requires CanStart(c, w.m, id, busy, p)
    ensures Step(c, w, Start(id, hooked, busy)) ==
            w.(m := w.m.(servers := w.m.servers[id := |w.m.objs|], used := w.m.used[p := id],
                         objs := w.m.objs + [Server(id, p, p + c.offset, hooked, false, Launching, NoProcess,
                                                    false, false, false, None, false, 0)]))
  {
    LowestIs(c, w.m, id, busy, p);
    hide LowestFree, StartAnswerOf, CanStart;
  }

  lemma Launches(c: Ports, w: World, i: nat, ok: bool)
    requires i < |w.m.objs| && w.m.objs[i].phase == Launching
    ensures Step(c, w, if ok then LaunchOk(i) else LaunchErr(i)) ==
            w.(m := w.m.(objs := w.m.objs[i := if ok then w.m.objs[i].(phase := Launched, process := Alive)
                                               else w.m.objs[i].(phase := LaunchFailed)]))
  {
  }

  lemma Publishes(c: Ports, w: World, i: nat)
    requires i < |w.m.objs| && w.m.objs[i].phase == Launched
    ensures var r := Step(c, w, Publish(i));
            && r == w.(m := w.m.(objs := r.m.objs, file := r.m.file))
            && r.m.objs == w.m.objs[i := w.m.objs[i].(phase := Running, stopPending := w.m.objs[i].stopping)]
            && forall id | id in w.m.servers && w.m.servers[id] == i :: id in r.m.file &&
                 r.m.file[id] == Saved(w.m.objs[i].matchId, w.m.objs[i].port, w.m.objs[i].tvPort, w.m.objs[i].hooked)
  {
  }

  lemma Unreserves(c: Ports, w: World, i: nat)
    requires i < |w.m.objs| && w.m.objs[i].phase == LaunchFailed
    ensures Step(c, w, FailStart(i)) ==
            w.(m := w.m.(servers := w.m.servers - {w.m.objs[i].matchId}, used := w.m.used - {w.m.objs[i].port},
                         objs := w.m.objs[i := w.m.objs[i].(phase := Removed)]))
  {
  }

  /**
   * A start that is let in, whose launch works: the server runs on the lowest port, with its GOTV port above it, it is
   * in the map and in the state file, and everything else is as it was.
   */
  lemma StartRuns(c: Ports, w: World, id: MatchId, hooked: bool, busy: set<int>, p: int)
    requires CanStart(c, w.m, id, busy, p)
    ensures var n := |w.m.objs|;
            var r := Run(c, w, [Start(id, hooked, busy), LaunchOk(n), Publish(n)]);
            && r == w.(m := r.m)
            && r.m.servers == w.m.servers[id := n] && r.m.used == w.m.used[p := id]
            && r.m.objs == w.m.objs + [Server(id, p, p + c.offset, hooked, false, Running, Alive,
                                              false, false, false, None, false, 0)]
            && id in r.m.file && r.m.file[id] == Saved(id, p, p + c.offset, hooked)
            && r.m.exits == w.m.exits && r.m.accepting == w.m.accepting
  {
    hide *;
    var n := |w.m.objs|;
    var x, y, z := Start(id, hooked, busy), LaunchOk(n), Publish(n);
    RunThree(c, w, x, y, z);
    Reserves(c, w, id, hooked, busy, p);
    var w1 := Step(c, w, x);
    Launches(c, w1, n, true);
    var w2 := Step(c, w1, y);
    Publishes(c, w2, n);
  }

  /** One whose launch fails leaves the map, the ports and the state file as they were. */
  lemma FailedStartLeavesNothing(c: Ports, w: World, id: MatchId, hooked: bool, busy: set<int>, p: int)
    requires CanStart(c, w.m, id, busy, p)
    ensures var n := |w.m.objs|;
            var r := Run(c, w, [Start(id, hooked, busy), LaunchErr(n), FailStart(n)]);
            && r == w.(m := w.m.(objs := r.m.objs))
            && r.m.objs == w.m.objs + [Server(id, p, p + c.offset, hooked, false, Removed, NoProcess,
                                              false, false, false, None, false, 0)]
  {
    var n := |w.m.objs|;
    var x, y, z := Start(id, hooked, busy), LaunchErr(n), FailStart(n);
    RunThree(c, w, x, y, z);
    Reserves(c, w, id, hooked, busy, p);
    assert id !in w.m.servers && p !in w.m.used;
    var w1 := Step(c, w, x);
    Launches(c, w1, n, false);
    var w2 := Step(c, w1, y);
    Unreserves(c, w2, n);
    PutAndTaken(w.m.servers, id, n);
    PutAndTaken(w.m.used, p, id);
    hide Run, CanStart, Step;
  }

  lemma PutAndTaken<K, V>(m: map<K, V>, k: K, v: V)
    requires k !in m
    ensures m[k := v] - {k} == m
  {
  }

  // ---------- Ends ----------

  function StatusOf(s: Server, code: int): Status {
    if s.stopping then WasStopped else if s.adopted || code == 0 then WasExited else WasCrashed
  }

  /** The newest records, at most fifty. */
  ghost predicate NewestFifty(kept: seq<Exit>, all: seq<Exit>) {
    && |kept| == (if |all| <= 50 then |all| else 50)
    && kept == all[|all| - |kept|..]
  }

  /**
   * The end of a process the manager knows. Its match and port are free again, one record says how it ended, the state
   * file names it no more, and the crash callback runs exactly for a server with a webhook that nobody stopped and that
   * was adopted or ended with a code other than 0.
   */
  lemma EndIsRecorded(c: Ports, w: World, i: nat, code: int)
    requires Reachable(c, w) && i < |w.m.objs| && w.m.objs[i].phase == Running && w.m.objs[i].process == Alive
    ensures var s := w.m.objs[i];
            var r := Run(c, w, [ProcessExit(i, code), Record(i)]);
            && r.m.servers == w.m.servers - {s.matchId} && r.m.used == w.m.used - {s.port}
            && |r.m.objs| == |w.m.objs| && r.m.objs[i].phase == Recorded && r.m.objs[i].hooked == s.hooked
            && r.m.objs[i].process == Exited(code) && r.m.objs[i].crashCalls == 0 && !r.m.objs[i].reported
            && r.m.objs[i].rec == Some(StatusOf(s, code))
            && r.m.objs[i].stopping == s.stopping && r.m.objs[i].adopted == s.adopted
            && s.matchId !in r.m.file
            && r.log == w.log + [Exit(i, StatusOf(s, code), if s.adopted && !s.stopping then None else Some(code))]
            && NewestFifty(r.m.exits, r.log)
  {
    KnownServer(c, w, i);
    RunsOn(c, w, [ProcessExit(i, code), Record(i)]);
    RunTwo(c, w, ProcessExit(i, code), Record(i));
    Exits(c, w, i, code);
    Records(c, Step(c, w, ProcessExit(i, code)), i, code);
    hide Run, Reachable, Step, NewestFifty;
    KeepsFifty(c, Run(c, w, [ProcessExit(i, code), Record(i)]));
  }

  lemma KnownServer(c: Ports, w: World, i: nat)
    requires Reachable(c, w) && i < |w.m.objs| && w.m.objs[i].phase == Running
    ensures w.m.objs[i].matchId in w.m.servers && w.m.servers[w.m.objs[i].matchId] == i
    ensures w.m.objs[i].crashCalls == 0 && !w.m.objs[i].reported
  {
    ReachableInv(c, w);
    hide Run, FileOf, LogOk, StopsOk, UpdOk;
    assert ServerOk(w.m.objs[i]) && Live(w.m.objs[i]);
  }

  lemma Exits(c: Ports, w: World, i: nat, code: int)
    requires i < |w.m.objs| && w.m.objs[i].process == Alive
    ensures Step(c, w, ProcessExit(i, code)) ==
            w.(m := w.m.(objs := w.m.objs[i := w.m.objs[i].(process := Exited(code))]))
  {
  }

  lemma Records(c: Ports, w: World, i: nat, code: int)
    requires i < |w.m.objs| && w.m.objs[i].phase == Running && w.m.objs[i].process == Exited(code)
    requires w.m.objs[i].matchId in w.m.servers && w.m.servers[w.m.objs[i].matchId] == i
    ensures var s, r := w.m.objs[i], Step(c, w, Record(i));
            && r.m.servers == w.m.servers - {s.matchId} && r.m.used == w.m.used - {s.port}
            && r.m.objs == w.m.objs[i := s.(phase := Recorded, rec := Some(StatusOf(s, code)))]
            && s.matchId !in r.m.file
            && r.log == w.log + [Exit(i, StatusOf(s, code), if s.adopted && !s.stopping then None else Some(code))]
  {
    hide Capped;
  }

  lemma KeepsFifty(c: Ports, r: World)
    requires Reachable(c, r)
    ensures NewestFifty(r.m.exits, r.log)
  {
    ReachableInv(c, r);
    hide Run, Owned, ServersOk, FileOf, StopsOk, UpdOk;
    assert r.m.exits == Capped(r.log);
  }

  lemma EndIsReported(c: Ports, w: World, i: nat)
    requires i < |w.m.objs| && w.m.objs[i].phase == Recorded && w.m.objs[i].rec.Some? && !w.m.objs[i].reported
    ensures var s := w.m.objs[i];
            var r := Run(c, w, [CloseDone(i), Report(i)]);
            && r == w.(m := w.m.(objs := r.m.objs)) && |r.m.objs| == |w.m.objs|
            && r.m.objs[i].phase == Closed
            && r.m.objs[i].crashCalls == s.crashCalls +
                 if s.hooked && (s.rec == Some(WasCrashed) || (s.adopted && s.rec == Some(WasExited))) then 1 else 0
  {
    RunTwo(c, w, CloseDone(i), Report(i));
    hide Run;
  }

  /** A Stop that waits returns once the server's end was recorded, or its launch failed, and done is closed. */
  lemma StopReturnsOnceClosed(c: Ports, w: World, k: nat)
    requires k < |w.stops| && w.stops[k].pc == Waiting && w.stops[k].server < |w.m.objs|
    requires w.m.objs[w.stops[k].server].phase == Recorded || w.m.objs[w.stops[k].server].phase == Removed
    ensures var i := w.stops[k].server;
            Run(c, w, [CloseDone(i), StopReturns(k)]).stops == w.stops[k := StopCall(i, Returned)]
  {
    RunTwo(c, w, CloseDone(w.stops[k].server), StopReturns(k));
    hide Run;
  }

  /** A Stop that waits may be given up at any time: only the call ends, and whoever else waits goes on waiting. */
  lemma StopGivesUpAlone(c: Ports, w: World, k: nat)
    requires k < |w.stops|
    ensures var r := Step(c, w, StopGivesUp(k));
            && r.m == w.m && r.u == w.u && r.log == w.log && |r.stops| == |w.stops|
            && r.stops[k] == StopCall(w.stops[k].server, if w.stops[k].pc == Waiting then GaveUp else w.stops[k].pc)
            && forall j | 0 <= j < |w.stops| && j != k :: r.stops[j] == w.stops[j]
  {
    hide AfterStopRequest;
  }

  // ---------- Recovery ----------

  /** Entry k of a state file is adopted: it is well-formed, its process lives, and its port is in the range and not
      taken by an entry adopted before. */
  ghost predicate Adopts(c: Ports, entries: seq<Found>, k: nat)
    requires k < |entries|
    decreases k
  {
    && entries[k].valid && entries[k].alive && c.lo <= entries[k].saved.port <= c.hi
    && forall j | 0 <= j < k && Adopts(c, entries, j) :: entries[j].saved.port != entries[k].saved.port
  }

  lemma {:induction false} AdoptsPrefix(c: Ports, entries: seq<Found>, n: nat, k: nat)
    requires k < n <= |entries|
    ensures Adopts(c, entries[..n], k) <==> Adopts(c, entries, k)
    decreases k
  {
    forall j | 0 <= j < k ensures Adopts(c, entries[..n], j) <==> Adopts(c, entries, j) {
      AdoptsPrefix(c, entries, n, j);
    }
  }

  ghost predicate PortTaken(c: Ports, entries: seq<Found>, p: int) {
    exists k | 0 <= k < |entries| :: Adopts(c, entries, k) && entries[k].saved.port == p
  }

  ghost predicate MatchTaken(c: Ports, entries: seq<Found>, id: MatchId) {
    exists k | 0 <= k < |entries| :: Adopts(c, entries, k) && entries[k].saved.matchId == id
  }

  /** The adopted entries in order. */
  ghost function AdoptedOnes(c: Ports, entries: seq<Found>, n: nat): seq<Saved>
    requires n <= |entries|
  {
    if n == 0 then []
    else AdoptedOnes(c, entries, n - 1) + if Adopts(c, entries, n - 1) then [entries[n - 1].saved] else []
  }

  lemma {:induction false} OnesPrefix(c: Ports, entries: seq<Found>, n: nat, k: nat)
    requires k <= n <= |entries|
    ensures AdoptedOnes(c, entries[..n], k) == AdoptedOnes(c, entries, k)
  {
    if k > 0 {
      OnesPrefix(c, entries, n, k - 1);
      AdoptsPrefix(c, entries, n, k - 1);
    }
  }

  lemma TakenMore(c: Ports, entries: seq<Found>)
    requires entries != []
    ensures var n := |entries| - 1;
            && (forall p :: PortTaken(c, entries, p) <==>
                  PortTaken(c, entries[..n], p) || (Adopts(c, entries, n) && entries[n].saved.port == p))
            && (forall id :: MatchTaken(c, entries, id) <==>
                  MatchTaken(c, entries[..n], id) || (Adopts(c, entries, n) && entries[n].saved.matchId == id))
            && (Adopts(c, entries, n) <==>
                  && entries[n].valid && entries[n].alive && c.lo <= entries[n].saved.port <= c.hi
                  && !PortTaken(c, entries[..n], entries[n].saved.port))
  {
    var n := |entries| - 1;
    var before := entries[..n];
    forall k | 0 <= k < n ensures Adopts(c, before, k) <==> Adopts(c, entries, k) {
      AdoptsPrefix(c, entries, n, k);
    }
    assert forall k | 0 <= k < n :: before[k] == entries[k];
  }

  /**
   * Recovery from any state file, malformed entries, dead processes and clashing ports included: the new manager has
   * exactly the adopted entries, in order, each running on its old ports, and their ports and matches are taken.
   */
  lemma {:induction false} RecoverAdopts(c: Ports, entries: seq<Found>)
    ensures var m := AfterAdopts(c, FRESH, entries);
            && (forall p :: p in m.used <==> PortTaken(c, entries, p))
            && (forall id :: id in m.servers <==> MatchTaken(c, entries, id))
            && |m.objs| == |AdoptedOnes(c, entries, |entries|)|
            && (forall i | 0 <= i < |m.objs| ::
                  var f := AdoptedOnes(c, entries, |entries|)[i];
                  m.objs[i] == Server(f.matchId, f.port, f.tvPort, f.hooked, true, Running, Alive, false, false, false,
                                      None, false, 0))
            && m.accepting && m.exits == []
  {
    if entries != [] {
      var n := |entries| - 1;
      RecoverAdopts(c, entries[..n]);
      TakenMore(c, entries);
      OnesPrefix(c, entries, n, n);
      hide Adopts, PortTaken, MatchTaken;
    }
  }
}
