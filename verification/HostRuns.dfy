/** What holds of every run of the host agent, from the recovery of what an earlier agent left behind. */
module HostRuns {
  import opened Common
  import opened Slots
  import opened HostManager
  import opened HostAgent
  import Updater

  // ---------- Recovery ----------

  /** Entries as an agent writes them: one per match, with the GOTV port that goes with the game port. */
  ghost predicate Written(c: Ports, entries: seq<Found>) {
    && (forall j, k | 0 <= j < k < |entries| :: entries[j].saved.matchId != entries[k].saved.matchId)
    && (forall k | 0 <= k < |entries| :: entries[k].saved.tvPort == GotvPort(c, entries[k].saved.port))
  }

  function Started(c: Ports, entries: seq<Found>): World {
    World(Recovered(c, entries), [], [], Upd(Updater.Idle, Unlocked, Top))
  }

  ghost predicate AllRunning(m: Manager) {
    && (forall i | 0 <= i < |m.objs| :: ServerOk(m.objs[i]) && m.objs[i].phase == Running && !m.objs[i].stopping)
    && m.exits == [] && m.accepting
  }

  ghost predicate FromEntries(m: Manager, entries: seq<Found>) {
    forall id | id in m.servers :: exists k | 0 <= k < |entries| :: entries[k].saved.matchId == id
  }

  lemma AdoptedOk(s: Saved)
    ensures ServerOk(AdoptedServer(s)) && Live(AdoptedServer(s))
  {
  }

  lemma AdoptOwned(c: Ports, m: Manager, f: Found)
    requires Owned(c, m) && AllRunning(m) && f.saved.matchId !in m.servers
    requires f.saved.tvPort == GotvPort(c, f.saved.port)
    ensures Owned(c, AfterAdopt(c, m, f)) && AllRunning(AfterAdopt(c, m, f))
  {
    hide MapsLive, PortsHeld, ServerOk, Live;
    if Adoptable(c, m, f) {
      var n := AfterAdopt(c, m, f);
      AdoptedOk(f.saved);
      assert n.objs[..|m.objs|] == m.objs;
      ReserveMapsLive(m, n, f.saved.matchId);
      ReservePortsHeld(c, m, n, f.saved.matchId);
    }
  }

  lemma {:induction false} AdoptsOwned(c: Ports, entries: seq<Found>)
    requires Written(c, entries)
    ensures var m := AfterAdopts(c, FRESH, entries);
            Owned(c, m) && AllRunning(m) && FromEntries(m, entries)
  {
    if entries != [] {
      var before, f := entries[..|entries| - 1], entries[|entries| - 1];
      AdoptsOwned(c, before);
      var m := AfterAdopts(c, FRESH, before);
      hide Owned, AllRunning, AfterAdopts;
      assert f.saved.matchId !in m.servers;
      AdoptOwned(c, m, f);
      forall id | id in AfterAdopt(c, m, f).servers
        ensures exists k | 0 <= k < |entries| :: entries[k].saved.matchId == id
      {
        if id in m.servers {
          var k :| 0 <= k < |before| && before[k].saved.matchId == id;
          assert entries[k] == before[k];
        } else {
          assert entries[|entries| - 1].saved.matchId == id;
        }
      }
    }
  }

  lemma RecoverInv(c: Ports, entries: seq<Found>)
    requires Written(c, entries)
    ensures Inv(c, Started(c, entries))
  {
    AdoptsOwned(c, entries);
    var m := AfterAdopts(c, FRESH, entries);
    OwnedBooks(c, m, Persisted(m));
    hide Owned, FileOf, AfterAdopts;
    RunningRest(m);
  }

  lemma RunningRest(m: Manager)
    requires AllRunning(m)
    ensures var n := Persisted(m);
            ServersOk(n) && LogOk(n, []) && StopsOk(n, []) && UpdOk(n, Upd(Updater.Idle, Unlocked, Top))
  {
    hide FileOf;
  }

  // ---------- Runs ----------

  ghost function Run(c: Ports, w: World, acts: seq<Action>): World
    decreases |acts|
  {
    if acts == [] then w else Run(c, Step(c, w, acts[0]), acts[1..])
  }

  lemma {:induction false} RunInv(c: Ports, w: World, acts: seq<Action>)
    requires Inv(c, w)
    ensures Inv(c, Run(c, w, acts))
    decreases |acts|
  {
    hide Inv, Step;
    if acts != [] {
      StepInv(c, w, acts[0]);
      RunInv(c, Step(c, w, acts[0]), acts[1..]);
    }
  }

  /** Every state an agent can get into. */
  ghost predicate Reachable(c: Ports, w: World) {
    exists entries, acts :: Written(c, entries) && w == Run(c, Started(c, entries), acts)
  }

  lemma ReachableInv(c: Ports, w: World)
    requires Reachable(c, w)
    ensures Inv(c, w)
  {
    var entries, acts :| Written(c, entries) && w == Run(c, Started(c, entries), acts);
    RecoverInv(c, entries);
    RunInv(c, Started(c, entries), acts);
  }

  /** SteamCMD never runs beside a server of this agent. While it does there is none, no process this agent launched or
      adopted is left, and whoever asks for a server is told the agent is updating. A process an earlier agent lost
      (LostLaunch below) is not this agent's. */
  lemma UpdatesRunAlone(c: Ports, w: World, id: MatchId, busy: set<int>)
    requires Reachable(c, w) && w.u.pc == Steam
    ensures w.m.servers == map[] && w.m.used == map[]
    ensures forall i | 0 <= i < |w.m.objs| :: w.m.objs[i].process != Alive && !Live(w.m.objs[i])
    ensures StartAnswerOf(c, w.m, id, busy) == StartAnswer.Updating
  {
    ReachableInv(c, w);
    hide Run, FileOf, LogOk, StopsOk;
    assert w.m.servers.Keys == {};
    assert w.m.used.Keys == {};
    forall i | 0 <= i < |w.m.objs| ensures w.m.objs[i].process != Alive && !Live(w.m.objs[i]) {
      assert ServerOk(w.m.objs[i]);
    }
  }

  /** An updater that is not idle means a closed gate, whatever is interleaved. */
  lemma BusyMeansClosed(c: Ports, w: World)
    requires Reachable(c, w) && w.u.state != Updater.Idle
    ensures !w.m.accepting
  {
    ReachableInv(c, w);
    hide Run, Owned, ServersOk, FileOf, LogOk, StopsOk;
  }

  ghost function LiveOnes(m: Manager): set<nat> {
    set i | 0 <= i < |m.objs| && Live(m.objs[i])
  }

  /** A match of the map and a live server correspond one to one. */
  lemma {:induction false} PairsCard(m: Manager, ids: set<MatchId>, ones: set<nat>)
    requires forall id | id in ids :: id in m.servers && m.servers[id] in ones && m.servers[id] < |m.objs|
    requires forall id | id in ids :: m.servers[id] < |m.objs| && m.objs[m.servers[id]].matchId == id
    requires forall i | i in ones :: i < |m.objs| && m.objs[i].matchId in ids && m.servers[m.objs[i].matchId] == i
    ensures |ids| == |ones|
    decreases ids
  {
    if ids == {} {
      assert ones == {};
    } else {
      var id :| id in ids;
      PairsCard(m, ids - {id}, ones - {m.servers[id]});
    }
  }

  function PortRange(lo: int, hi: int): (r: set<int>)
    ensures forall p :: p in r <==> lo <= p <= hi
    ensures |r| == if lo <= hi then hi - lo + 1 else 0
    decreases hi - lo
  {
    if lo > hi then {} else {lo} + PortRange(lo + 1, hi)
  }

  /** Total and Free of the port allocator. */
  function TotalPorts(c: Ports): int {
    c.hi - c.lo + 1
  }

  function FreePorts(c: Ports, m: Manager): int {
    TotalPorts(c) - |m.used|
  }

  lemma FreeAreUnheld(c: Ports, used: map<int, MatchId>)
    requires c.lo <= c.hi && used.Keys <= PortRange(c.lo, c.hi)
    ensures TotalPorts(c) - |used| == |PortRange(c.lo, c.hi) - used.Keys|
  {
    hide PortRange;
    var range := PortRange(c.lo, c.hi);
    assert range == used.Keys + (range - used.Keys);
  }

  /** The ports in use are the live servers' and nobody else's, the map holds exactly those, and the free count is the
      total minus them: the ports of the range that no live server holds. */
  lemma PortsAreTheServers(c: Ports, w: World)
    requires Reachable(c, w)
    ensures forall p, id :: (p in w.m.used && w.m.used[p] == id) <==>
              (id in w.m.servers && w.m.servers[id] < |w.m.objs| && w.m.objs[w.m.servers[id]].port == p)
    ensures forall i | 0 <= i < |w.m.objs| ::
              Live(w.m.objs[i]) <==> w.m.objs[i].matchId in w.m.servers && w.m.servers[w.m.objs[i].matchId] == i
    ensures |w.m.servers| == |w.m.used| == |LiveOnes(w.m)|
    ensures FreePorts(c, w.m) == TotalPorts(c) - |LiveOnes(w.m)|
    ensures c.lo <= c.hi ==> FreePorts(c, w.m) == |PortRange(c.lo, c.hi) - w.m.used.Keys|
  {
    hide Reachable, ServersOk, FileOf, LogOk, StopsOk, UpdOk;
    ReachableInv(c, w);
    if c.lo <= c.hi {
      assert w.m.used.Keys <= PortRange(c.lo, c.hi);
      FreeAreUnheld(c, w.m.used);
    }
    hide Live, PortRange;
    PairsCard(w.m, w.m.servers.Keys, LiveOnes(w.m));
  }

  lemma LivePorts(c: Ports, w: World, i: nat, j: nat)
    requires Inv(c, w) && i < |w.m.objs| && j < |w.m.objs| && i != j && Live(w.m.objs[i]) && Live(w.m.objs[j])
    ensures GamePort(c, w.m.objs[i].port) && w.m.objs[i].tvPort == GotvPort(c, w.m.objs[i].port)
    ensures w.m.objs[i].port != w.m.objs[j].port
  {
    hide ServersOk, FileOf, LogOk, StopsOk, UpdOk, Live;
  }

  /** With settings the agent accepts, the game and GOTV ports of any two live servers are four different ports. */
  lemma PortsDistinct(c: Ports, w: World, i: nat, j: nat)
    requires Accepted(c) && Reachable(c, w)
    requires i < |w.m.objs| && j < |w.m.objs| && i != j && Live(w.m.objs[i]) && Live(w.m.objs[j])
    ensures w.m.objs[i].port != w.m.objs[j].port && w.m.objs[i].tvPort != w.m.objs[j].tvPort
    ensures w.m.objs[i].port != w.m.objs[i].tvPort && w.m.objs[i].port != w.m.objs[j].tvPort
    ensures 1 <= w.m.objs[i].tvPort <= 65535 && 1024 <= w.m.objs[i].port <= 65535
  {
    hide Reachable, Inv, Live;
    ReachableInv(c, w);
    LivePorts(c, w, i, j);
    LivePorts(c, w, j, i);
  }

  /** No stop is lost: once a stopped server's process is known, proc.Stop was called or someone is about to. */
  lemma StopsReachTheProcess(c: Ports, w: World, i: nat)
    requires Reachable(c, w) && i < |w.m.objs| && w.m.objs[i].stopping && Known(w.m.objs[i])
    ensures || w.m.objs[i].stopIssued || w.m.objs[i].stopPending
            || exists k | 0 <= k < |w.stops| :: w.stops[k] == StopCall(i, Issuing)
  {
    ReachableInv(c, w);
    hide Run, Owned, ServersOk, FileOf, LogOk, UpdOk;
    assert StopComing(w.m.objs[i], i, w.stops);
  }

  /** A Stop that returns without an error left no port of that server in use. */
  lemma StopReturnsAfterRelease(c: Ports, w: World, k: nat)
    requires Reachable(c, w) && k < |w.stops| && w.stops[k].pc == Returned
    ensures w.stops[k].server < |w.m.objs| && !Live(w.m.objs[w.stops[k].server])
    ensures forall p | p in w.m.used :: w.m.used[p] in w.m.servers && w.m.servers[w.m.used[p]] != w.stops[k].server
  {
    ReachableInv(c, w);
    hide Run, ServersOk, FileOf, LogOk, UpdOk;
  }

  /** Server i's record is at k and nowhere else. */
  ghost predicate RecordedAt(w: World, i: nat, k: nat)
    requires i < |w.m.objs|
  {
    && k < |w.log| && w.log[k].server == i && RecordOf(w.m.objs[i], w.log[k])
    && forall j | 0 <= j < |w.log| && j != k :: w.log[j].server != i
  }

  lemma LoggedOnce(w: World, i: nat)
    requires LogOk(w.m, w.log) && i < |w.m.objs| && w.m.objs[i].rec.Some?
    ensures exists k :: RecordedAt(w, i, k)
  {
    hide Capped;
    assert Logged(w.log, i);
    var k :| 0 <= k < |w.log| && w.log[k].server == i;
    assert RecordOf(w.m.objs[w.log[k].server], w.log[k]);
    hide RecordOf;
    forall j | 0 <= j < |w.log| && j != k ensures w.log[j].server != i {
      if j < k {
        assert w.log[j].server != w.log[k].server;
      }
    }
    assert RecordedAt(w, i, k);
  }

  /**
   * A process that ended is recorded once, in order, unless its watch has yet to run. The record says stopped exactly
   * when someone asked, crashed exactly on another code than 0 of a server the agent started, and exited otherwise.
   * The manager shows the last fifty.
   */
  lemma OneExitRecord(c: Ports, w: World, i: nat)
    requires Reachable(c, w) && i < |w.m.objs| && w.m.objs[i].process.Exited?
    ensures var s := w.m.objs[i];
            && (s.rec.None? ==> s.phase == Launched || s.phase == Running)
            && (s.rec.Some? ==> exists k :: RecordedAt(w, i, k))
            && (s.rec.Some? ==> (s.rec == Some(WasStopped) <==> s.stopping))
            && (s.rec.Some? ==> (s.rec == Some(WasCrashed) <==> !s.stopping && !s.adopted && s.process.code != 0))
    ensures w.m.exits == Capped(w.log)
  {
    hide Reachable, Owned, FileOf, StopsOk, UpdOk, Capped, RecordedAt;
    ReachableInv(c, w);
    assert ServerOk(w.m.objs[i]);
    if w.m.objs[i].rec.Some? {
      LoggedOnce(w, i);
    }
  }

  /** The crash callback runs at most once, and only for a hooked server nobody asked to stop. It runs for every crash
      and every unexpected end of an adopted server that has a webhook, once the watch gets there. */
  lemma CrashReportedOnce(c: Ports, w: World, i: nat)
    requires Reachable(c, w) && i < |w.m.objs|
    ensures w.m.objs[i].crashCalls <= 1
    ensures w.m.objs[i].crashCalls == 1 ==> !w.m.objs[i].stopping && w.m.objs[i].hooked && w.m.objs[i].process.Exited?
    ensures w.m.objs[i].crashCalls == 1 && !w.m.objs[i].adopted ==> w.m.objs[i].rec == Some(WasCrashed)
    ensures w.m.objs[i].reported && w.m.objs[i].hooked && !w.m.objs[i].stopping && w.m.objs[i].adopted ==>
              w.m.objs[i].crashCalls == 1
    ensures w.m.objs[i].reported && w.m.objs[i].hooked && !w.m.objs[i].stopping && w.m.objs[i].process != Exited(0) ==>
              w.m.objs[i].crashCalls == 1
  {
    ReachableInv(c, w);
    hide Run, Owned, FileOf, StopsOk, UpdOk, LogOk;
    assert ServerOk(w.m.objs[i]);
  }

  // ---------- Restart of the agent ----------

  /** The state file's entries in any order, as the next agent reads them. */
  ghost predicate Lists(entries: seq<Found>, file: map<MatchId, Saved>) {
    && (forall j, k | 0 <= j < k < |entries| :: entries[j].saved.matchId != entries[k].saved.matchId)
    && (forall k | 0 <= k < |entries| ::
          entries[k].valid && entries[k].saved.matchId in file && file[entries[k].saved.matchId] == entries[k].saved)
    && (forall id | id in file :: exists k | 0 <= k < |entries| :: entries[k].saved.matchId == id)
  }

  /** Ports of different entries differ and are in the range, so every claim of a surviving server succeeds. */
  ghost predicate Claimable(c: Ports, entries: seq<Found>) {
    && (forall k | 0 <= k < |entries| :: entries[k].valid && GamePort(c, entries[k].saved.port))
    && (forall j, k | 0 <= j < k < |entries| :: entries[j].saved.port != entries[k].saved.port)
    && (forall j, k | 0 <= j < k < |entries| :: entries[j].saved.matchId != entries[k].saved.matchId)
  }

  ghost predicate AliveId(entries: seq<Found>, id: MatchId) {
    exists k | 0 <= k < |entries| :: entries[k].alive && entries[k].saved.matchId == id
  }

  ghost predicate AlivePort(entries: seq<Found>, p: int) {
    exists k | 0 <= k < |entries| :: entries[k].alive && entries[k].saved.port == p
  }

  /** f's server is in the map, as adopted. */
  ghost predicate Adopted(m: Manager, f: Found) {
    && f.saved.matchId in m.servers && m.servers[f.saved.matchId] < |m.objs|
    && m.objs[m.servers[f.saved.matchId]] == AdoptedServer(f.saved)
  }

  ghost predicate AdoptedAll(m: Manager, entries: seq<Found>) {
    && (forall k | 0 <= k < |entries| :: entries[k].alive ==> Adopted(m, entries[k]))
    && (forall id | id in m.servers :: AliveId(entries, id))
    && (forall p | p in m.used :: AlivePort(entries, p))
  }

  lemma {:induction false} AdoptsAll(c: Ports, entries: seq<Found>)
    requires Claimable(c, entries)
    ensures AdoptedAll(AfterAdopts(c, FRESH, entries), entries)
  {
    if entries != [] {
      var before, f := entries[..|entries| - 1], entries[|entries| - 1];
      AdoptsAll(c, before);
      var m := AfterAdopts(c, FRESH, before);
      AdoptMore(c, m, before, f);
      assert entries == before + [f];
    }
  }

  lemma AliveMore(before: seq<Found>, f: Found, id: MatchId, p: int)
    ensures AliveId(before + [f], id) <==> AliveId(before, id) || (f.alive && f.saved.matchId == id)
    ensures AlivePort(before + [f], p) <==> AlivePort(before, p) || (f.alive && f.saved.port == p)
  {
    var all := before + [f];
    assert all[|before|] == f && forall k | 0 <= k < |before| :: all[k] == before[k];
  }

  /** What an entry that is not in before would claim, nobody has. */
  lemma NothingTaken(c: Ports, m: Manager, before: seq<Found>, f: Found)
    requires Claimable(c, before + [f]) && AdoptedAll(m, before)
    ensures f.saved.port !in m.used && f.saved.matchId !in m.servers && f.valid && GamePort(c, f.saved.port)
    ensures forall k | 0 <= k < |before| :: before[k].saved.matchId != f.saved.matchId
  {
    var all := before + [f];
    assert all[|before|] == f && forall k | 0 <= k < |before| :: all[k] == before[k];
    hide GamePort, Adopted;
    assert !AlivePort(before, f.saved.port) && !AliveId(before, f.saved.matchId);
  }

  lemma AdoptMore(c: Ports, m: Manager, before: seq<Found>, f: Found)
    requires Claimable(c, before + [f]) && AdoptedAll(m, before)
    ensures AdoptedAll(AfterAdopt(c, m, f), before + [f])
  {
    NothingTaken(c, m, before, f);
    hide Claimable, GamePort, AliveId, AlivePort;
    var all, n := before + [f], AfterAdopt(c, m, f);
    assert f.alive ==> Adopted(n, f);
    forall k | 0 <= k < |before| && before[k].alive ensures Adopted(n, before[k]) {
      assert Adopted(m, before[k]);
    }
    hide Adopted;
    forall id | id in n.servers ensures AliveId(all, id) {
      AliveMore(before, f, id, 0);
    }
    forall p | p in n.used ensures AlivePort(all, p) {
      AliveMore(before, f, f.saved.matchId, p);
    }
  }

  lemma InFileIffRunning(c: Ports, m: Manager, i: nat)
    requires MapsLive(m) && i < |m.objs| && Live(m.objs[i])
    ensures var s, file := m.objs[i], FileOf(m.servers, m.objs);
            && (s.matchId in file <==> s.phase == Running)
            && (s.phase == Running ==> file[s.matchId] == SavedOf(s))
  {
  }

  /** A live process is in the state file exactly once the manager knows it. Until then its launch has returned but
      was not published. */
  lemma FileHoldsKnown(c: Ports, w: World, i: nat)
    requires Reachable(c, w) && i < |w.m.objs| && w.m.objs[i].process == Alive
    ensures var s := w.m.objs[i];
            && (s.phase == Running || s.phase == Launched)
            && (s.matchId in w.m.file <==> s.phase == Running)
            && (s.phase == Running ==> w.m.file[s.matchId] == SavedOf(s))
  {
    hide Reachable, FileOf, LogOk, StopsOk, UpdOk, MapsLive, PortsHeld, ServersOk;
    ReachableInv(c, w);
    OneOk(c, w, i);
    InFileIffRunning(c, w.m, i);
  }

  /** s runs on under the next agent, as it was saved. */
  ghost predicate Survives(next: Manager, s: Server) {
    && s.matchId in next.servers && next.servers[s.matchId] < |next.objs|
    && next.objs[next.servers[s.matchId]] == AdoptedServer(SavedOf(s))
  }

  /** Every server whose process the manager knows is in the file. */
  ghost predicate AllListed(w: World, entries: seq<Found>) {
    forall i | 0 <= i < |w.m.objs| && w.m.objs[i].phase == Running ::
      exists k | 0 <= k < |entries| :: entries[k].saved == SavedOf(w.m.objs[i])
  }

  /** One of them runs on exactly when its process is found alive. */
  ghost predicate KeptIfAlive(w: World, entries: seq<Found>, next: Manager) {
    forall i, k | 0 <= i < |w.m.objs| && 0 <= k < |entries| && w.m.objs[i].phase == Running
                  && entries[k].saved == SavedOf(w.m.objs[i]) ::
      if entries[k].alive then Survives(next, w.m.objs[i]) else w.m.objs[i].matchId !in next.servers
  }

  /** Nothing else runs under the next agent. */
  ghost predicate NothingElse(w: World, next: Manager) {
    forall id | id in next.servers ::
      && id in w.m.servers && w.m.servers[id] < |w.m.objs|
      && w.m.objs[w.m.servers[id]].phase == Running && Survives(next, w.m.objs[w.m.servers[id]])
  }

  /**
   * A restart of the agent at any moment. The state file holds every server whose process the manager knows, and the
   * next agent, reading it in whatever order, starts in a good state and has exactly those whose processes it finds
   * alive, each on its old ports.
   */
  lemma RestartKeepsServers(c: Ports, w: World, entries: seq<Found>)
    requires Reachable(c, w) && Lists(entries, w.m.file)
    ensures Reachable(c, Started(c, entries)) && AllListed(w, entries)
    ensures KeptIfAlive(w, entries, Started(c, entries).m) && NothingElse(w, Started(c, entries).m)
  {
    hide Reachable, Run, AfterAdopts, Lists, Inv, FileOf, Claimable, AdoptedAll, Survives;
    ReachableInv(c, w);
    FileClaims(c, w, entries);
    AdoptsAll(c, entries);
    StartedReachable(c, entries);
    var next := Started(c, entries).m;
    SameBooks(AfterAdopts(c, FRESH, entries), next, entries);
    forall i | 0 <= i < |w.m.objs| && w.m.objs[i].phase == Running
      ensures exists k | 0 <= k < |entries| :: entries[k].saved == SavedOf(w.m.objs[i])
    {
      RunningListed(c, w, entries, i);
    }
    forall i, k | 0 <= i < |w.m.objs| && 0 <= k < |entries| && w.m.objs[i].phase == Running
                  && entries[k].saved == SavedOf(w.m.objs[i])
      ensures if entries[k].alive then Survives(next, w.m.objs[i]) else w.m.objs[i].matchId !in next.servers
    {
      EntryKept(w, entries, next, i, k);
    }
    forall id | id in next.servers
      ensures id in w.m.servers && w.m.servers[id] < |w.m.objs|
              && w.m.objs[w.m.servers[id]].phase == Running && Survives(next, w.m.objs[w.m.servers[id]])
    {
      NextHasEntry(next, entries, id);
      var k :| 0 <= k < |entries| && entries[k].alive && entries[k].saved.matchId == id;
      EntryKept(w, entries, next, w.m.servers[id], k);
    }
  }

  lemma SameBooks(m: Manager, n: Manager, entries: seq<Found>)
    requires AdoptedAll(m, entries) && n.servers == m.servers && n.objs == m.objs && n.used == m.used
    ensures AdoptedAll(n, entries)
  {
  }

  lemma EntryKept(w: World, entries: seq<Found>, next: Manager, i: nat, k: nat)
    requires Lists(entries, w.m.file) && AdoptedAll(next, entries)
    requires i < |w.m.objs| && k < |entries| && entries[k].saved == SavedOf(w.m.objs[i])
    ensures if entries[k].alive then Survives(next, w.m.objs[i]) else w.m.objs[i].matchId !in next.servers
  {
    hide AdoptedAll;
    AliveWhenIn(next, entries, k);
  }

  lemma RunningListed(c: Ports, w: World, entries: seq<Found>, i: nat)
    requires Inv(c, w) && Lists(entries, w.m.file) && i < |w.m.objs| && w.m.objs[i].phase == Running
    ensures exists k | 0 <= k < |entries| :: entries[k].saved == SavedOf(w.m.objs[i])
  {
    hide ServersOk, LogOk, StopsOk, UpdOk;
    var s := w.m.objs[i];
    assert s.matchId in w.m.file && w.m.file[s.matchId] == SavedOf(s);
    var k :| 0 <= k < |entries| && entries[k].saved.matchId == s.matchId;
  }

  lemma AliveWhenIn(m: Manager, entries: seq<Found>, k: nat)
    requires AdoptedAll(m, entries) && k < |entries|
    requires forall i, j | 0 <= i < j < |entries| :: entries[i].saved.matchId != entries[j].saved.matchId
    ensures entries[k].alive ==> Adopted(m, entries[k])
    ensures entries[k].saved.matchId in m.servers ==> entries[k].alive
  {
    hide Adopted;
    if entries[k].saved.matchId in m.servers {
      assert AliveId(entries, entries[k].saved.matchId);
      var j :| 0 <= j < |entries| && entries[j].alive && entries[j].saved.matchId == entries[k].saved.matchId;
      assert j == k;
    }
  }

  lemma NextHasEntry(m: Manager, entries: seq<Found>, id: MatchId)
    requires AdoptedAll(m, entries) && id in m.servers
    ensures exists k | 0 <= k < |entries| :: entries[k].alive && entries[k].saved.matchId == id
  {
    assert AliveId(entries, id);
  }

  /** The next agent finds exactly the processes alive that are. */
  ghost predicate Truthful(w: World, entries: seq<Found>) {
    forall i, k | 0 <= i < |w.m.objs| && 0 <= k < |entries| && w.m.objs[i].phase == Running
                  && entries[k].saved == SavedOf(w.m.objs[i]) ::
      entries[k].alive <==> w.m.objs[i].process == Alive
  }

  /** Which live processes a restart of the agent loses: exactly those whose launch was not published yet. */
  lemma KeptIffPublished(c: Ports, w: World, entries: seq<Found>, i: nat)
    requires Reachable(c, w) && Lists(entries, w.m.file) && Truthful(w, entries)
    requires i < |w.m.objs| && w.m.objs[i].process == Alive
    ensures Survives(Started(c, entries).m, w.m.objs[i]) <==> w.m.objs[i].phase == Running
    ensures w.m.objs[i].phase != Running ==> w.m.objs[i].matchId !in Started(c, entries).m.servers
  {
    FileHoldsKnown(c, w, i);
    RestartKeepsServers(c, w, entries);
    ReachableInv(c, w);
    hide Run, AfterAdopts, ServersOk, LogOk, StopsOk, UpdOk, Reachable, FileOf;
    var s := w.m.objs[i];
    if s.phase == Running {
      var k :| 0 <= k < |entries| && entries[k].saved == SavedOf(s);
    } else {
      assert Live(s);
      assert w.m.servers[s.matchId] == i;
    }
  }

  /** Losing one takes two steps. The agent dies between the launch and its publication: the process runs, no file
      names it, and the next agent has no server, so it can be running SteamCMD beside that process soon after. */
  lemma LostLaunch(c: Ports, id: MatchId, hooked: bool)
    requires c.lo <= c.hi
    ensures var w := Run(c, Started(c, []), [Start(id, hooked, {}), LaunchOk(0)]);
            && Reachable(c, w) && |w.m.objs| == 1 && w.m.objs[0].process == Alive && w.m.objs[0].matchId == id
            && w.m.file == map[] && Lists([], w.m.file)
            && Started(c, []).m.servers == map[]
    ensures Run(c, Started(c, []), UPDATE_AT_ONCE).u.pc == Steam
  {
    var w0 := Started(c, []);
    var start, launch := Start(id, hooked, {}), LaunchOk(0);
    var w1 := Step(c, w0, start);
    var w2 := Step(c, w1, launch);
    RunTwo(c, w0, start, launch);
    assert Written(c, []);
    assert Reachable(c, w2);
    assert w1.m.objs == [NewServer(id, c.lo, c.offset, hooked)];
    assert w2.m.file == map[];
    UpdateAtOnce(c, w0);
  }

  lemma RunTwo(c: Ports, w: World, a: Action, b: Action)
    ensures Run(c, w, [a, b]) == Step(c, Step(c, w, a), b)
  {
    hide Step;
    assert [a, b][1..] == [b] && [b][1..] == [];
    assert Run(c, Step(c, w, a), [b]) == Run(c, Step(c, Step(c, w, a), b), []);
  }

  /** A trigger and one pass of the loop up to SteamCMD. */
  const UPDATE_AT_ONCE := [TriggerClose, TriggerSet] + Deciding(false) + BEGINNING

  lemma UpdateAtOnce(c: Ports, w: World)
    requires w.u == Upd(Updater.Idle, Unlocked, Top) && w.m.servers == map[]
    ensures Run(c, w, UPDATE_AT_ONCE).u.pc == Steam
  {
    hide Step, UpdStep, Gate, Run, Deciding;
    var w1 := Run(c, w, [TriggerClose, TriggerSet]);
    var w2 := Run(c, w1, Deciding(false));
    UndisturbedTrigger(c, w);
    PassSteps(c, w1, false);
    DecidingLoop(w1.u, w1.m.accepting, 0, false);
    SteamBegins(c, w2);
    RunConcat(c, w, [TriggerClose, TriggerSet] + Deciding(false), BEGINNING);
    RunConcat(c, w, [TriggerClose, TriggerSet], Deciding(false));
  }

  lemma StartedReachable(c: Ports, entries: seq<Found>)
    requires Written(c, entries)
    ensures Reachable(c, Started(c, entries))
  {
    assert Run(c, Started(c, entries), []) == Started(c, entries);
  }

  lemma FileClaims(c: Ports, w: World, entries: seq<Found>)
    requires Inv(c, w) && Lists(entries, w.m.file)
    ensures Claimable(c, entries) && Written(c, entries)
    ensures forall k | 0 <= k < |entries| ::
              var id := entries[k].saved.matchId;
              id in w.m.servers && w.m.servers[id] < |w.m.objs| && w.m.objs[w.m.servers[id]].phase == Running
              && SavedOf(w.m.objs[w.m.servers[id]]) == entries[k].saved
  {
    hide ServersOk, LogOk, StopsOk, UpdOk;
    forall k | 0 <= k < |entries|
      ensures var id := entries[k].saved.matchId;
              id in w.m.servers && w.m.servers[id] < |w.m.objs| && w.m.objs[w.m.servers[id]].phase == Running
              && SavedOf(w.m.objs[w.m.servers[id]]) == entries[k].saved
              && GamePort(c, entries[k].saved.port) && entries[k].saved.tvPort == GotvPort(c, entries[k].saved.port)
              && entries[k].saved.port in w.m.used && w.m.used[entries[k].saved.port] == id
    {
    }
  }

  // ---------- The updater alone ----------

  /** The updater and the gate after some of its steps, with a number of servers that stays. */
  function Loop(u: Upd, accepting: bool, running: nat, acts: seq<Action>): (Upd, bool)
    decreases |acts|
  {
    if acts == [] then (u, accepting)
    else Loop(UpdStep(u, running, acts[0]), Gate(u, accepting, acts[0]), running, acts[1..])
  }

  lemma LoopStepIs(c: Ports, w: World, a: Action)
    requires UpdaterStep(a)
    ensures Step(c, w, a)
            == w.(m := w.m.(accepting := Gate(w.u, w.m.accepting, a)), u := UpdStep(w.u, |w.m.servers|, a))
  {
    hide UpdStep, Gate;
  }

  lemma {:induction false} LoopProjects(c: Ports, w: World, acts: seq<Action>)
    requires forall a | a in acts :: UpdaterStep(a)
    ensures var l := Loop(w.u, w.m.accepting, |w.m.servers|, acts);
            Run(c, w, acts) == w.(m := w.m.(accepting := l.1), u := l.0)
    decreases |acts|
  {
    if acts != [] {
      LoopStepIs(c, w, acts[0]);
      hide UpdStep, Gate, Step;
      LoopProjects(c, Step(c, w, acts[0]), acts[1..]);
    }
  }

  lemma {:induction false} RunConcat(c: Ports, w: World, a: seq<Action>, b: seq<Action>)
    ensures Run(c, w, a + b) == Run(c, Run(c, w, a), b)
    decreases |a|
  {
    hide Step;
    if a == [] {
      assert a + b == b;
    } else {
      assert (a + b)[1..] == a[1..] + b;
      RunConcat(c, Step(c, w, a[0]), a[1..], b);
    }
  }

  function LoopStep(l: (Upd, bool), running: nat, a: Action): (Upd, bool) {
    (UpdStep(l.0, running, a), Gate(l.0, l.1, a))
  }

  lemma LoopOne(u: Upd, accepting: bool, running: nat, a: Action)
    ensures Loop(u, accepting, running, [a]) == LoopStep((u, accepting), running, a)
  {
    hide UpdStep, Gate;
    assert [a][1..] == [];
  }

  lemma LoopFour(u: Upd, accepting: bool, running: nat, a: seq<Action>)
    requires |a| == 4
    ensures Loop(u, accepting, running, a) ==
            LoopStep(LoopStep(LoopStep(LoopStep((u, accepting), running, a[0]),
                                       running, a[1]), running, a[2]), running, a[3])
  {
    hide UpdStep, Gate;
    var l1 := LoopStep((u, accepting), running, a[0]);
    var l2 := LoopStep(l1, running, a[1]);
    var l3 := LoopStep(l2, running, a[2]);
    assert a[1..][1..] == a[2..] && a[2..][1..] == a[3..] && a[3..][1..] == [];
    assert Loop(l1.0, l1.1, running, a[1..]) == Loop(l2.0, l2.1, running, a[2..]);
    assert Loop(l2.0, l2.1, running, a[2..]) == Loop(l3.0, l3.1, running, a[3..]);
    assert a[3..] == [a[3]];
    LoopOne(l3.0, l3.1, running, a[3]);
  }

  /** The steps of one pass of the loop. Those that are not its turn do nothing. */
  function Deciding(outdated: bool): seq<Action> {
    [ReadState, CheckEnds(outdated), LoopClose, LoopSet]
  }

  function Draining(ok: bool): seq<Action> {
    [Count, BeginUpdate, SteamEnds(ok), BackToDraining]
  }

  const REOPENING := [IdleSet, Reopen]

  const BEGINNING := [Count, BeginUpdate]

  lemma DecidingLoop(u: Upd, accepting: bool, running: nat, outdated: bool)
    requires u.pc == Top && u.lock == Unlocked
    ensures var l := Loop(u, accepting, running, Deciding(outdated));
            && l.0.lock == Unlocked
            && (if u.state == Updater.Draining then l == (u.(pc := Counting), accepting)
                else if u.state == Updater.Idle && outdated then l == (Upd(Updater.Draining, Unlocked, Counting), false)
                else l == (u, accepting))
  {
    LoopFour(u, accepting, running, Deciding(outdated));
    hide Loop;
  }

  lemma DrainingLoop(u: Upd, accepting: bool, running: nat, ok: bool)
    requires u.lock == Unlocked && (u.pc == Top || (u.pc == Counting && u.state == Updater.Draining))
    ensures var l := Loop(u, accepting, running, Draining(ok));
            && l.1 == accepting
            && (if u.pc == Top then l.0 == u
                else if running == 0 && ok then l.0 == Upd(Updater.Updating, Unlocked, SteamDone)
                else l.0 == Upd(Updater.Draining, Unlocked, Top))
  {
    LoopFour(u, accepting, running, Draining(ok));
    hide Loop;
  }

  lemma ReopeningLoop(u: Upd, accepting: bool, running: nat)
    requires u.lock == Unlocked
    ensures Loop(u, accepting, running, REOPENING) ==
            if u.pc == SteamDone then (Upd(Updater.Idle, Unlocked, Top), true) else (u, accepting)
  {
    assert REOPENING[1..] == [Reopen];
    LoopOne(UpdStep(u, running, IdleSet), Gate(u, accepting, IdleSet), running, Reopen);
  }

  function Outdated(check: Updater.Check): bool {
    check == Updater.Check.Outdated
  }

  /** Between two passes SteamCMD is not running and only an idle updater leaves the gate open. */
  lemma AtTop(c: Ports, w: World)
    requires Reachable(c, w) && w.u.pc == Top
    ensures w.u.state != Updater.Updating && (w.u.state != Updater.Idle ==> !w.m.accepting)
  {
    hide Reachable, Owned, ServersOk, FileOf, LogOk, StopsOk;
    ReachableInv(c, w);
  }

  lemma PassSteps(c: Ports, w: World, outdated: bool)
    ensures var l := Loop(w.u, w.m.accepting, |w.m.servers|, Deciding(outdated));
            Run(c, w, Deciding(outdated)) == w.(m := w.m.(accepting := l.1), u := l.0)
  {
    LoopProjects(c, w, Deciding(outdated));
  }

  lemma DrainSteps(c: Ports, w: World, ok: bool)
    ensures var l := Loop(w.u, w.m.accepting, |w.m.servers|, Draining(ok));
            Run(c, w, Draining(ok)) == w.(m := w.m.(accepting := l.1), u := l.0)
  {
    LoopProjects(c, w, Draining(ok));
  }

  lemma ReopenSteps(c: Ports, w: World)
    ensures var l := Loop(w.u, w.m.accepting, |w.m.servers|, REOPENING);
            Run(c, w, REOPENING) == w.(m := w.m.(accepting := l.1), u := l.0)
  {
    LoopProjects(c, w, REOPENING);
  }

  lemma BeginningLoop(u: Upd, accepting: bool, running: nat)
    requires u.lock == Unlocked && (u.pc == Top || (u.pc == Counting && u.state == Updater.Draining))
    ensures Loop(u, accepting, running, BEGINNING).0.pc == Steam <==> u.pc == Counting && running == 0
  {
    assert BEGINNING[1..] == [BeginUpdate];
    LoopOne(UpdStep(u, running, Count), Gate(u, accepting, Count), running, BeginUpdate);
  }

  lemma BeginSteps(c: Ports, w: World)
    ensures Run(c, w, BEGINNING).u == Loop(w.u, w.m.accepting, |w.m.servers|, BEGINNING).0
  {
    LoopProjects(c, w, BEGINNING);
  }

  lemma SteamBegins(c: Ports, w: World)
    requires w.u.lock == Unlocked && (w.u.pc == Top || (w.u.pc == Counting && w.u.state == Updater.Draining))
    ensures Run(c, w, BEGINNING).u.pc == Steam <==> w.u.pc == Counting && |w.m.servers| == 0
  {
    hide Run, Loop;
    BeginSteps(c, w);
    BeginningLoop(w.u, w.m.accepting, |w.m.servers|);
  }

  /** Where the first steps of a pass lead. */
  lemma PassDecides(c: Ports, w: World, outdated: bool)
    requires Reachable(c, w) && w.u.pc == Top && w.u.lock == Unlocked
    ensures w.u.state == Updater.Idle || (w.u.state == Updater.Draining && !w.m.accepting)
    ensures Run(c, w, Deciding(outdated)) ==
            if w.u.state == Updater.Draining then w.(u := Upd(Updater.Draining, Unlocked, Counting))
            else if outdated then
              w.(m := w.m.(accepting := false), u := Upd(Updater.Draining, Unlocked, Counting))
            else w
  {
    AtTop(c, w);
    hide Reachable, Inv, Run, Loop, Step, Deciding, Gate, UpdStep, UpdaterStep;
    PassSteps(c, w, outdated);
    DecidingLoop(w.u, w.m.accepting, |w.m.servers|, outdated);
  }

  /** Where the others lead from there. */
  lemma PassDrains(c: Ports, w: World, steam: bool)
    requires w.u.lock == Unlocked && (w.u.pc == Top || w.u.pc == Counting)
    requires w.u.pc == Counting ==> w.u.state == Updater.Draining && !w.m.accepting
    ensures var o := Updater.AfterDrain(|w.m.servers|, steam);
            Run(c, w, Draining(steam) + REOPENING) ==
            if w.u.pc == Top then w
            else w.(m := w.m.(accepting := o.accepting), u := Upd(o.state, Unlocked, Top))
  {
    hide Run, Loop, Step, Draining, Gate, UpdStep, UpdaterStep;
    var w1 := Run(c, w, Draining(steam));
    DrainSteps(c, w, steam);
    DrainingLoop(w.u, w.m.accepting, |w.m.servers|, steam);
    ReopenSteps(c, w1);
    ReopeningLoop(w1.u, w1.m.accepting, |w.m.servers|);
    RunConcat(c, w, Draining(steam), REOPENING);
  }

  /** One pass of the loop that nothing else comes between ends where the updater's own Step does. */
  lemma UndisturbedStep(c: Ports, w: World, check: Updater.Check, steam: bool)
    requires Reachable(c, w) && w.u.pc == Top && w.u.lock == Unlocked
    ensures var r := Run(c, w, Deciding(Outdated(check)) + (Draining(steam) + REOPENING));
            var o := Updater.AfterStep(w.u.state, w.m.accepting, |w.m.servers|, check, steam);
            && r == w.(m := w.m.(accepting := o.accepting), u := Upd(o.state, Unlocked, Top))
  {
    hide Reachable, Inv, Run, Step, Deciding, Draining;
    PassDecides(c, w, Outdated(check));
    PassDrains(c, Run(c, w, Deciding(Outdated(check))), steam);
    RunConcat(c, w, Deciding(Outdated(check)), Draining(steam) + REOPENING);
  }

  /** In such a pass SteamCMD is started exactly when Step says it ran. */
  lemma UndisturbedSteam(c: Ports, w: World, check: Updater.Check, steam: bool)
    requires Reachable(c, w) && w.u.pc == Top && w.u.lock == Unlocked
    ensures Run(c, w, Deciding(Outdated(check)) + BEGINNING).u.pc == Steam <==>
            Updater.AfterStep(w.u.state, w.m.accepting, |w.m.servers|, check, steam).ran
  {
    hide Reachable, Inv, Run, Step, Deciding;
    PassDecides(c, w, Outdated(check));
    SteamBegins(c, Run(c, w, Deciding(Outdated(check))));
    RunConcat(c, w, Deciding(Outdated(check)), BEGINNING);
  }

  /** The same for a trigger. */
  lemma UndisturbedTrigger(c: Ports, w: World)
    requires w.u.lock == Unlocked
    ensures var r := Run(c, w, [TriggerClose, TriggerSet]);
            var o := Updater.AfterTrigger(w.u.state, w.m.accepting);
            && r == w.(m := w.m.(accepting := o.accepting), u := w.u.(state := o.state))
  {
    LoopProjects(c, w, [TriggerClose, TriggerSet]);
    hide Run, Step;
    assert [TriggerClose, TriggerSet][1..] == [TriggerSet];
    LoopOne(UpdStep(w.u, |w.m.servers|, TriggerClose), Gate(w.u, w.m.accepting, TriggerClose), |w.m.servers|,
      TriggerSet);
  }
}
