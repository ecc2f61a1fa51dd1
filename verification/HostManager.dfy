/**
 * The server manager of the host agent (agent/internal/manager/manager.go), one method for each section it
 * runs under its lock. Launching a process, the process itself and the waiting are steps of their own, in HostAgent.
 */
module HostManager {
  import opened Common
  import opened Slots

  type MatchId = string

  datatype Process = NoProcess | Alive | Exited(code: int)

  /**
   * Where the goroutines of one server are. Launching: in launch. Launched: launch returned a process that the
   * manager does not know yet. LaunchFailed: launch returned an error. Running: watch waits for the process.
   * Removed and Recorded: the entry is gone, done is still open. Closed: done is closed.
   */
  datatype Phase = Launching | Launched | LaunchFailed | Running | Removed | Recorded | Closed

  datatype Status = WasStopped | WasExited | WasCrashed

  /** hooked: it has a webhook url. stopPending: Start will call proc.Stop. rec: how its exit was recorded. */
  datatype Server = Server(
    matchId: MatchId,
    port: int,
    tvPort: int,
    hooked: bool,
    adopted: bool,
    phase: Phase,
    process: Process,
    stopping: bool,
    stopPending: bool,
    stopIssued: bool,
    rec: Option<Status>,
    reported: bool,
    crashCalls: nat)

  datatype Exit = Exit(server: nat, status: Status, code: Option<int>)

  /** One entry of the state file. */
  datatype Saved = Saved(matchId: MatchId, port: int, tvPort: int, hooked: bool)

  /** objs holds every server object ever made. servers maps a match to its current one. */
  datatype Manager = Manager(
    servers: map<MatchId, nat>,
    objs: seq<Server>,
    exits: seq<Exit>,
    accepting: bool,
    used: map<int, MatchId>,
    file: map<MatchId, Saved>)

  const MAX_EXIT_RECORDS := 50

  /** In the manager's map: from its start until its launch failed or its exit was recorded. */
  predicate Live(s: Server) {
    s.phase == Launching || s.phase == Launched || s.phase == LaunchFailed || s.phase == Running
  }

  function SavedOf(s: Server): Saved {
    Saved(s.matchId, s.port, s.tvPort, s.hooked)
  }

  /** What the state file gets: the live servers whose process the manager knows. */
  function FileOf(servers: map<MatchId, nat>, objs: seq<Server>): map<MatchId, Saved> {
    map id | id in servers && servers[id] < |objs| && objs[servers[id]].phase == Running :: SavedOf(objs[servers[id]])
  }

  function Persisted(m: Manager): Manager {
    m.(file := FileOf(m.servers, m.objs))
  }

  function NewServer(id: MatchId, port: int, offset: int, hooked: bool): Server {
    Server(id, port, port + offset, hooked, false, Launching, NoProcess, false, false, false, None, false, 0)
  }

  datatype StartAnswer = Updating | Exists | NoSlots | Reserved(server: nat)

  function StartAnswerOf(c: Ports, m: Manager, id: MatchId, busy: set<int>): StartAnswer {
    if !m.accepting then Updating
    else if id in m.servers then Exists
    else if LowestFree(c.lo, c.hi, m.used, busy).None? then NoSlots
    else Reserved(|m.objs|)
  }

  function AfterReserve(c: Ports, m: Manager, id: MatchId, hooked: bool, busy: set<int>): Manager {
    if !StartAnswerOf(c, m, id, busy).Reserved? then m
    else
      var port := LowestFree(c.lo, c.hi, m.used, busy).value;
      m.(servers := m.servers[id := |m.objs|],
         used := m.used[port := id],
         objs := m.objs + [NewServer(id, port, c.offset, hooked)])
  }

  function AfterFail(m: Manager, i: nat): Manager
    requires i < |m.objs|
  {
    m.(servers := m.servers - {m.objs[i].matchId},
       used := m.used - {m.objs[i].port},
       objs := m.objs[i := m.objs[i].(phase := Removed)])
  }

  function AfterPublish(m: Manager, i: nat): Manager
    requires i < |m.objs|
  {
    var s := m.objs[i];
    Persisted(m.(objs := m.objs[i := s.(phase := Running, stopPending := s.stopping)]))
  }

  function ExitStatus(s: Server, code: int): Status {
    if s.stopping then WasStopped
    else if s.adopted then WasExited
    else if code == 0 then WasExited
    else WasCrashed
  }

  function ExitOf(s: Server, i: nat, code: int): Exit {
    Exit(i, ExitStatus(s, code), if !s.stopping && s.adopted then None else Some(code))
  }

  /** The last records of a list, at most MAX_EXIT_RECORDS. */
  function Capped(exits: seq<Exit>): (r: seq<Exit>)
    ensures |r| <= MAX_EXIT_RECORDS && |r| <= |exits| && r == exits[|exits| - |r|..]
    ensures |r| == |exits| || |r| == MAX_EXIT_RECORDS
  {
    if |exits| > MAX_EXIT_RECORDS then exits[|exits| - MAX_EXIT_RECORDS..] else exits
  }

  function WithoutServer(m: Manager, i: nat): map<MatchId, nat>
    requires i < |m.objs|
  {
    var id := m.objs[i].matchId;
    if id in m.servers && m.servers[id] == i then m.servers - {id} else m.servers
  }

  function AfterRecord(m: Manager, i: nat, code: int): Manager
    requires i < |m.objs|
  {
    var s := m.objs[i];
    Persisted(m.(servers := WithoutServer(m, i),
                 used := m.used - {s.port},
                 objs := m.objs[i := s.(phase := Recorded, rec := Some(ExitStatus(s, code)))],
                 exits := Capped(m.exits + [ExitOf(s, i, code)])))
  }

  /** A stop request marks the server it finds, if it finds one. */
  function AfterStopRequest(m: Manager, id: MatchId): Manager {
    if id !in m.servers || m.servers[id] >= |m.objs| then m
    else m.(objs := m.objs[m.servers[id] := m.objs[m.servers[id]].(stopping := true)])
  }

  /** An entry of the state file as Recover reads it: its id may be malformed, its process may be gone. */
  datatype Found = Found(saved: Saved, valid: bool, alive: bool)

  function AdoptedServer(s: Saved): Server {
    Server(s.matchId, s.port, s.tvPort, s.hooked, true, Running, Alive, false, false, false, None, false, 0)
  }

  predicate Adoptable(c: Ports, m: Manager, f: Found) {
    f.valid && f.alive && GamePort(c, f.saved.port) && f.saved.port !in m.used
  }

  function AfterAdopt(c: Ports, m: Manager, f: Found): Manager {
    if !Adoptable(c, m, f) then m
    else m.(servers := m.servers[f.saved.matchId := |m.objs|],
            used := m.used[f.saved.port := f.saved.matchId],
            objs := m.objs + [AdoptedServer(f.saved)])
  }

  function AfterAdopts(c: Ports, m: Manager, entries: seq<Found>): Manager {
    if entries == [] then m
    else AfterAdopt(c, AfterAdopts(c, m, entries[..|entries| - 1]), entries[|entries| - 1])
  }

  const FRESH := Manager(map[], [], [], true, map[], map[])

  /** The manager of a new agent after Recover. */
  function Recovered(c: Ports, entries: seq<Found>): Manager {
    Persisted(AfterAdopts(c, FRESH, entries))
  }

  class ServerManager {
    const alloc: Allocator
    const offset: int
    var servers: map<MatchId, nat>
    var objs: seq<Server>
    var exits: seq<Exit>
    var accepting: bool
    var file: map<MatchId, Saved>

    function View(): Manager
      reads this, alloc
    {
      Manager(servers, objs, exits, accepting, alloc.used, file)
    }

    function Range(): Ports {
      Ports(alloc.lo, alloc.hi, offset)
    }

    constructor (a: Allocator, tvPortOffset: int)
      ensures alloc == a && offset == tvPortOffset
      ensures View() == FRESH.(used := a.used)
    {
      alloc, offset := a, tvPortOffset;
      servers, objs, exits, accepting, file := map[], [], [], true, map[];
    }

    /** Every match in the map points at an object. */
    ghost predicate Valid()
      reads this
    {
      forall id | id in servers :: servers[id] < |objs|
    }

    method PersistLocked()
      modifies this`file
      ensures View() == Persisted(old(View()))
    {
      file := FileOf(servers, objs);
    }

    method SetAccepting(ok: bool)
      modifies this`accepting
      ensures View() == old(View()).(accepting := ok)
    {
      accepting := ok;
    }

    method Running() returns (n: nat)
      ensures n == |servers|
    {
      n := |servers|;
    }

    method Slots() returns (total: int, free: int)
      ensures total == alloc.hi - alloc.lo + 1 && free == total - |alloc.used|
    {
      total, free := alloc.Total(), alloc.Free();
    }

    /** Start up to the launch. */
    method Reserve(id: MatchId, hooked: bool, busy: set<int>) returns (answer: StartAnswer)
      modifies this, alloc
      ensures answer == StartAnswerOf(Range(), old(View()), id, busy)
      ensures View() == AfterReserve(Range(), old(View()), id, hooked, busy)
    {
      if !accepting {
        return Updating;
      }
      if id in servers {
        return Exists;
      }
      var port := alloc.Acquire(id, busy);
      if port.None? {
        return NoSlots;
      }
      answer := Reserved(|objs|);
      servers := servers[id := |objs|];
      objs := objs + [NewServer(id, port.value, offset, hooked)];
    }

    /** Start when launch returned an error. */
    method FailStart(i: nat)
      requires i < |objs|
      modifies this, alloc
      ensures View() == AfterFail(old(View()), i)
    {
      servers := servers - {objs[i].matchId};
      alloc.Release(objs[i].port);
      objs := objs[i := objs[i].(phase := Removed)];
    }

    /** Start when launch returned a process. The caller calls proc.Stop when stopNow is set. */
    method Publish(i: nat) returns (stopNow: bool)
      requires i < |objs|
      modifies this
      ensures View() == AfterPublish(old(View()), i)
      ensures stopNow == old(objs)[i].stopping
    {
      stopNow := objs[i].stopping;
      objs := objs[i := objs[i].(phase := Phase.Running, stopPending := stopNow)];
      PersistLocked();
    }

    method Forget(i: nat)
      requires i < |objs|
      modifies this`servers, alloc
      ensures View() == old(View()).(servers := WithoutServer(old(View()), i), used := old(alloc.used) - {objs[i].port})
    {
      var s := objs[i];
      if s.matchId in servers && servers[s.matchId] == i {
        servers := servers - {s.matchId};
      }
      alloc.Release(s.port);
    }

    method AppendExit(e: Exit)
      modifies this`exits
      ensures View() == old(View()).(exits := Capped(old(exits) + [e]))
    {
      exits := exits + [e];
      if |exits| > MAX_EXIT_RECORDS {
        exits := exits[|exits| - MAX_EXIT_RECORDS..];
      }
    }

    /** watch once the process ended. */
    method Record(i: nat, code: int)
      requires i < |objs|
      modifies this, alloc
      ensures View() == AfterRecord(old(View()), i, code)
    {
      hide FileOf, Capped, ExitOf, ExitStatus;
      var s := objs[i];
      Forget(i);
      objs := objs[i := s.(phase := Recorded, rec := Some(ExitStatus(s, code)))];
      AppendExit(ExitOf(s, i, code));
      PersistLocked();
    }

    /** Stop up to the wait: the server it found, and whether the manager knew its process. */
    method RequestStop(id: MatchId) returns (found: Option<nat>, known: bool)
      requires Valid()
      modifies this
      ensures View() == AfterStopRequest(old(View()), id)
      ensures found == if id in servers then Some(servers[id]) else None
      ensures known <==> found.Some? && objs[found.value].phase == Phase.Running
    {
      if id !in servers {
        return None, false;
      }
      var i := servers[id];
      objs := objs[i := objs[i].(stopping := true)];
      return Some(i), objs[i].phase == Phase.Running;
    }

    /** Adopts the servers of a state file. Runs before anything else does. */
    method Recover(entries: seq<Found>) returns (adopted: nat)
      requires View() == FRESH
      modifies this, alloc
      ensures View() == Recovered(Range(), entries)
      ensures adopted == |objs|
    {
      var i := 0;
      while i < |entries|
        invariant 0 <= i <= |entries|
        invariant View() == AfterAdopts(Range(), FRESH, entries[..i])
      {
        var f := entries[i];
        assert entries[..i + 1][..i] == entries[..i];
        i := i + 1;
        if !f.valid || !f.alive {
          continue;
        }
        var ok := alloc.Claim(f.saved.port, f.saved.matchId);
        if !ok {
          continue;
        }
        servers := servers[f.saved.matchId := |objs|];
        objs := objs + [AdoptedServer(f.saved)];
      }
      assert entries[..i] == entries;
      PersistLocked();
      adopted := |objs|;
    }
  }
}
