/**
 * The host agent as a state machine. Each section under a lock is one step. Launching, process exits, SteamCMD,
 * the updater's two writes under its own lock and everything goroutines do in between are steps of their own.
 * The environment picks the order.
 */
module HostAgent {
  import opened Common
  import opened Slots
  import opened HostManager
  import Updater

  type State = Updater.State

  /** Who holds the updater's lock between its two writes. */
  datatype Lock = Unlocked | ByTrigger | ByClose | ByReopen

  /** Where the updater's loop is. */
  datatype Pc = Top | Checking | Closing | Counting | Emptied | Steam | SteamFailed | SteamDone

  datatype Upd = Upd(state: State, lock: Lock, pc: Pc)

  datatype StopPc = Issuing | Waiting | Returned | GaveUp

  datatype StopCall = StopCall(server: nat, pc: StopPc)

  /** log: every exit ever recorded, oldest first. The manager itself keeps the newest fifty. */
  datatype World = World(m: Manager, log: seq<Exit>, stops: seq<StopCall>, u: Upd)

  datatype Action =
    | Start(id: MatchId, hooked: bool, busy: set<int>)
    | LaunchOk(i: nat)
    | LaunchErr(i: nat)
    | FailStart(i: nat)
    | Publish(i: nat)
    | IssuePending(i: nat)
    | ProcessExit(i: nat, code: int)
    | Record(i: nat)
    | CloseDone(i: nat)
    | Report(i: nat)
    | Stop(id: MatchId)
    | IssueStop(k: nat)
    | StopReturns(k: nat)
    | StopGivesUp(k: nat)
    | TriggerClose
    | TriggerSet
    | ReadState
    | CheckEnds(outdated: bool)
    | LoopClose
    | LoopSet
    | Count
    | BeginUpdate
    | SteamEnds(ok: bool)
    | BackToDraining
    | IdleSet
    | Reopen

  /** Steps of one server. */
  predicate ServerStep(a: Action) {
    a.LaunchOk? || a.LaunchErr? || a.IssuePending? || a.ProcessExit? || a.CloseDone? || a.Report?
  }

  function ServerOf(a: Action): nat
    requires ServerStep(a)
  {
    match a
    case LaunchOk(i) => i
    case LaunchErr(i) => i
    case IssuePending(i) => i
    case ProcessExit(i, _) => i
    case CloseDone(i) => i
    case Report(i) => i
  }

  predicate Unexpected(s: Server) {
    s.rec == Some(WasCrashed) || (s.adopted && s.rec == Some(WasExited))
  }

  /** A step that touches one server's own fields. A step that is not its turn changes nothing. */
  function Touched(s: Server, a: Action): Server
    requires ServerStep(a)
  {
    match a
    case LaunchOk(_) => if s.phase == Launching then s.(phase := Launched, process := Alive) else s
    case LaunchErr(_) => if s.phase == Launching then s.(phase := LaunchFailed) else s
    case IssuePending(_) => if s.stopPending then s.(stopPending := false, stopIssued := true) else s
    case ProcessExit(_, code) => if s.process == Alive then s.(process := Exited(code)) else s
    case CloseDone(_) => if s.phase == Removed || s.phase == Recorded then s.(phase := Closed) else s
    case Report(_) =>
      if s.phase == Closed && s.rec.Some? && !s.reported
      then s.(reported := true, crashCalls := s.crashCalls + if Unexpected(s) && s.hooked then 1 else 0)
      else s
  }

  function UpdStep(u: Upd, running: nat, a: Action): Upd {
    match a
    case TriggerClose => if u.lock == Unlocked && u.state == Updater.Idle then u.(lock := ByTrigger) else u
    case TriggerSet => if u.lock == ByTrigger then u.(state := Updater.Draining, lock := Unlocked) else u
    case ReadState =>
      if u.pc != Top || u.lock != Unlocked then u
      else u.(pc := if u.state == Updater.Idle then Checking else if u.state == Updater.Draining then Counting else Top)
    case CheckEnds(outdated) => if u.pc == Checking then u.(pc := if outdated then Closing else Top) else u
    case LoopClose => if u.pc == Closing && u.lock == Unlocked then u.(lock := ByClose) else u
    case LoopSet => if u.lock == ByClose then u.(state := Updater.Draining, lock := Unlocked, pc := Counting) else u
    case Count => if u.pc == Counting then u.(pc := if running > 0 then Top else Emptied) else u
    case BeginUpdate => if u.pc == Emptied && u.lock == Unlocked then u.(state := Updater.Updating, pc := Steam) else u
    case SteamEnds(ok) => if u.pc == Steam then u.(pc := if ok then SteamDone else SteamFailed) else u
    case BackToDraining =>
      if u.pc == SteamFailed && u.lock == Unlocked then u.(state := Updater.Draining, pc := Top) else u
    case IdleSet => if u.pc == SteamDone && u.lock == Unlocked then u.(state := Updater.Idle, lock := ByReopen) else u
    case Reopen => if u.lock == ByReopen then u.(lock := Unlocked, pc := Top) else u
    case _ => u
  }

  /** What the updater does to the manager's gate in a step. */
  function Gate(u: Upd, accepting: bool, a: Action): bool {
    match a
    case TriggerClose => if u.lock == Unlocked && u.state == Updater.Idle then false else accepting
    case LoopClose => if u.pc == Closing && u.lock == Unlocked then false else accepting
    case Reopen => if u.lock == ByReopen then true else accepting
    case _ => accepting
  }

  predicate UpdaterStep(a: Action) {
    || a.TriggerClose? || a.TriggerSet? || a.ReadState? || a.CheckEnds? || a.LoopClose? || a.LoopSet? || a.Count?
    || a.BeginUpdate? || a.SteamEnds? || a.BackToDraining? || a.IdleSet? || a.Reopen?
  }

  predicate StopStep(a: Action) {
    a.Stop? || a.IssueStop? || a.StopReturns? || a.StopGivesUp?
  }

  /** Steps of Stop calls. A server is found and marked under the lock, proc.Stop and the wait come after it. */
  function StopPart(w: World, a: Action): World
    requires StopStep(a)
  {
    match a
    case Stop(id) =>
      if id in w.m.servers && w.m.servers[id] < |w.m.objs| then
        var i := w.m.servers[id];
        w.(m := AfterStopRequest(w.m, id),
           stops := w.stops + [StopCall(i, if w.m.objs[i].phase == Running then Issuing else Waiting)])
      else w
    case IssueStop(k) =>
      if k < |w.stops| && w.stops[k].pc == Issuing && w.stops[k].server < |w.m.objs| then
        var i := w.stops[k].server;
        w.(m := w.m.(objs := w.m.objs[i := w.m.objs[i].(stopIssued := true)]),
           stops := w.stops[k := w.stops[k].(pc := Waiting)])
      else w
    case StopReturns(k) =>
      if k < |w.stops| && w.stops[k].pc == Waiting && w.stops[k].server < |w.m.objs|
        && w.m.objs[w.stops[k].server].phase == Closed
      then w.(stops := w.stops[k := w.stops[k].(pc := Returned)])
      else w
    case StopGivesUp(k) =>
      if k < |w.stops| && w.stops[k].pc == Waiting then w.(stops := w.stops[k := w.stops[k].(pc := GaveUp)]) else w
  }

  /** The manager's locked sections that change its books. */
  function BooksPart(c: Ports, w: World, a: Action): World {
    match a
    case Start(id, hooked, busy) => w.(m := AfterReserve(c, w.m, id, hooked, busy))
    case FailStart(i) => if i < |w.m.objs| && w.m.objs[i].phase == LaunchFailed then w.(m := AfterFail(w.m, i)) else w
    case Publish(i) => if i < |w.m.objs| && w.m.objs[i].phase == Launched then w.(m := AfterPublish(w.m, i)) else w
    case Record(i) =>
      if i < |w.m.objs| && w.m.objs[i].phase == Running && w.m.objs[i].process.Exited? then
        var code := w.m.objs[i].process.code;
        w.(m := AfterRecord(w.m, i, code), log := w.log + [ExitOf(w.m.objs[i], i, code)])
      else w
    case _ => w
  }

  function Step(c: Ports, w: World, a: Action): World {
    if ServerStep(a) then
      var i := ServerOf(a);
      if i < |w.m.objs| then w.(m := w.m.(objs := w.m.objs[i := Touched(w.m.objs[i], a)])) else w
    else if UpdaterStep(a) then
      w.(m := w.m.(accepting := Gate(w.u, w.m.accepting, a)), u := UpdStep(w.u, |w.m.servers|, a))
    else if StopStep(a) then StopPart(w, a)
    else BooksPart(c, w, a)
  }

  // ---------- Invariants ----------

  /** The map holds exactly the live servers, each under its match. */
  ghost predicate MapsLive(m: Manager) {
    && (forall id | id in m.servers ::
          m.servers[id] < |m.objs| && m.objs[m.servers[id]].matchId == id && Live(m.objs[m.servers[id]]))
    && (forall i | 0 <= i < |m.objs| && Live(m.objs[i]) ::
          m.objs[i].matchId in m.servers && m.servers[m.objs[i].matchId] == i)
  }

  /** The used ports are exactly the live servers' ports, each held by its match. */
  ghost predicate PortsHeld(c: Ports, m: Manager) {
    && (forall i | 0 <= i < |m.objs| && Live(m.objs[i]) ::
          m.objs[i].port in m.used && m.used[m.objs[i].port] == m.objs[i].matchId && GamePort(c, m.objs[i].port))
    && (forall p | p in m.used ::
          m.used[p] in m.servers && m.servers[m.used[p]] < |m.objs| && m.objs[m.servers[m.used[p]]].port == p)
  }

  ghost predicate Owned(c: Ports, m: Manager) {
    && MapsLive(m)
    && PortsHeld(c, m)
    && |m.used| == |m.servers|
    && (forall i | 0 <= i < |m.objs| :: m.objs[i].tvPort == GotvPort(c, m.objs[i].port))
  }

  /** One server's fields fit its phase. */
  predicate ServerOk(s: Server) {
    && (s.phase == Launching || s.phase == LaunchFailed || s.phase == Removed ==>
          s.process == NoProcess && !s.stopPending && !s.stopIssued)
    && (s.phase == Launched ==> s.process != NoProcess && !s.stopPending && !s.stopIssued)
    && (s.phase == Running ==> s.process != NoProcess)
    && (s.rec.Some? <==> s.phase == Recorded || (s.phase == Closed && s.process != NoProcess))
    && (s.rec.Some? ==> s.process.Exited? && s.rec == Some(ExitStatus(s, s.process.code)))
    && (s.phase == Closed && s.process == NoProcess ==> !s.stopPending && !s.stopIssued)
    && (s.reported ==> s.phase == Closed && s.rec.Some?)
    && s.crashCalls == (if s.reported && Unexpected(s) && s.hooked then 1 else 0)
  }

  /** The process was published, so a stop that finds the server calls proc.Stop. */
  predicate Known(s: Server) {
    s.phase == Running || s.rec.Some?
  }

  ghost predicate ServersOk(m: Manager) {
    forall i | 0 <= i < |m.objs| :: ServerOk(m.objs[i])
  }

  /** e is what the exit of s leaves behind. An adopted server that was not stopped has no exit code. */
  predicate RecordOf(s: Server, e: Exit) {
    && s.rec == Some(e.status) && s.process.Exited?
    && e.code == if s.adopted && !s.stopping then None else Some(s.process.code)
  }

  ghost predicate Logged(log: seq<Exit>, i: nat) {
    exists k | 0 <= k < |log| :: log[k].server == i
  }

  /** Every exit recorded once, in a record that says what the server's does. */
  ghost predicate LogOk(m: Manager, log: seq<Exit>) {
    && m.exits == Capped(log)
    && (forall k | 0 <= k < |log| :: log[k].server < |m.objs| && RecordOf(m.objs[log[k].server], log[k]))
    && (forall i | 0 <= i < |m.objs| && m.objs[i].rec.Some? :: Logged(log, i))
    && (forall j, k | 0 <= j < k < |log| :: log[j].server != log[k].server)
  }

  ghost predicate StopComing(s: Server, i: nat, stops: seq<StopCall>) {
    s.stopIssued || s.stopPending || exists k | 0 <= k < |stops| :: stops[k] == StopCall(i, Issuing)
  }

  ghost predicate StopsOk(m: Manager, stops: seq<StopCall>) {
    && (forall i | 0 <= i < |m.objs| && m.objs[i].stopping && Known(m.objs[i]) :: StopComing(m.objs[i], i, stops))
    && (forall k | 0 <= k < |stops| :: stops[k].server < |m.objs| && m.objs[stops[k].server].stopping)
    && (forall k | 0 <= k < |stops| && stops[k].pc == Issuing :: Known(m.objs[stops[k].server]))
    && (forall k | 0 <= k < |stops| && stops[k].pc == Returned :: m.objs[stops[k].server].phase == Closed)
  }

  /** From the count of zero until the gate reopens there is no server. */
  ghost predicate UpdOk(m: Manager, u: Upd) {
    && (u.state != Updater.Idle || u.lock != Unlocked ==> !m.accepting)
    && (u.lock == ByTrigger ==> u.state == Updater.Idle && (u.pc == Top || u.pc == Checking || u.pc == Closing))
    && (u.lock == ByClose ==> u.pc == Closing)
    && (u.lock == ByReopen <==> u.pc == SteamDone && u.state == Updater.Idle)
    && (u.pc == Counting || u.pc == Emptied ==> u.state == Updater.Draining)
    && (u.pc == Steam || u.pc == SteamFailed ==> u.state == Updater.Updating)
    && (u.pc == SteamDone ==> u.state == Updater.Updating || u.lock == ByReopen)
    && (u.state == Updater.Updating ==> u.pc == Steam || u.pc == SteamFailed || u.pc == SteamDone)
    && (u.pc == Emptied || u.pc == Steam || u.pc == SteamFailed || u.pc == SteamDone ==> |m.servers| == 0)
  }

  ghost predicate Inv(c: Ports, w: World) {
    && Owned(c, w.m)
    && ServersOk(w.m)
    && w.m.file == FileOf(w.m.servers, w.m.objs)
    && LogOk(w.m, w.log)
    && StopsOk(w.m, w.stops)
    && UpdOk(w.m, w.u)
  }

  // ---------- Steps that change one server in place ----------

  /** s may stand in for was: same ids, same place in the manager's books, nothing undone. */
  predicate StandsIn(was: Server, s: Server) {
    && s.matchId == was.matchId && s.port == was.port && s.tvPort == was.tvPort && s.hooked == was.hooked
    && Live(s) == Live(was) && (s.phase == Running) == (was.phase == Running)
    && s.rec == was.rec && (was.stopping ==> s.stopping) && s.adopted == was.adopted
    && (was.rec.Some? ==> s.process == was.process && s.stopping == was.stopping)
    && (was.phase == Closed ==> s.phase == Closed)
    && (was.stopIssued || was.stopPending ==> s.stopIssued || s.stopPending)
  }

  lemma TouchedOk(s: Server, a: Action)
    requires ServerOk(s) && ServerStep(a)
    ensures ServerOk(Touched(s, a)) && StandsIn(s, Touched(s, a)) && Touched(s, a).stopping == s.stopping
  {
  }

  lemma StandInOwned(c: Ports, m: Manager, i: nat, s: Server)
    requires Owned(c, m) && i < |m.objs| && StandsIn(m.objs[i], s)
    ensures Owned(c, m.(objs := m.objs[i := s]))
  {
    hide Live;
  }

  lemma StandInFile(m: Manager, i: nat, s: Server)
    requires i < |m.objs| && StandsIn(m.objs[i], s)
    ensures FileOf(m.servers, m.objs[i := s]) == FileOf(m.servers, m.objs)
  {
  }

  lemma StandInLog(m: Manager, log: seq<Exit>, i: nat, s: Server)
    requires LogOk(m, log) && i < |m.objs| && StandsIn(m.objs[i], s)
    ensures LogOk(m.(objs := m.objs[i := s]), log)
  {
    hide Capped;
  }

  lemma StandInStops(m: Manager, stops: seq<StopCall>, i: nat, s: Server)
    requires StopsOk(m, stops) && i < |m.objs| && StandsIn(m.objs[i], s)
    requires s.stopping == m.objs[i].stopping || StopComing(s, i, stops)
    ensures StopsOk(m.(objs := m.objs[i := s]), stops)
  {
  }

  lemma StandInServers(m: Manager, i: nat, s: Server)
    requires ServersOk(m) && i < |m.objs| && ServerOk(s)
    ensures ServersOk(m.(objs := m.objs[i := s]))
  {
    hide ServerOk;
  }

  lemma ServerStepInv(c: Ports, w: World, a: Action)
    requires Inv(c, w) && ServerStep(a)
    ensures Inv(c, Step(c, w, a))
  {
    hide Touched, StandsIn, ServerOk, Owned, LogOk, FileOf, UpdOk, StopsOk, ServersOk;
    var i := ServerOf(a);
    if i < |w.m.objs| {
      var t := Touched(w.m.objs[i], a);
      OneOk(c, w, i);
      TouchedOk(w.m.objs[i], a);
      StandInServers(w.m, i, t);
      StandInOwned(c, w.m, i, t);
      StandInFile(w.m, i, t);
      StandInLog(w.m, w.log, i, t);
      StandInStops(w.m, w.stops, i, t);
      SameServers(w.m, w.m.(objs := w.m.objs[i := t]), w.u);
    }
  }

  lemma SameServers(m: Manager, n: Manager, u: Upd)
    requires UpdOk(m, u) && m.servers == n.servers && m.accepting == n.accepting
    ensures UpdOk(n, u)
  {
  }

  // ---------- Steps of the manager ----------

  lemma ReserveOwned(c: Ports, m: Manager, id: MatchId, hooked: bool, busy: set<int>)
    requires Owned(c, m) && StartAnswerOf(c, m, id, busy).Reserved?
    ensures Owned(c, AfterReserve(c, m, id, hooked, busy))
  {
    var n := AfterReserve(c, m, id, hooked, busy);
    hide LowestFree;
    assert n.objs[..|m.objs|] == m.objs;
    ReserveMapsLive(m, n, id);
    ReservePortsHeld(c, m, n, id);
  }

  lemma ReserveMapsLive(m: Manager, n: Manager, id: MatchId)
    requires MapsLive(m) && id !in m.servers
    requires |n.objs| == |m.objs| + 1 && m.objs == n.objs[..|m.objs|]
    requires n.objs[|m.objs|].matchId == id && Live(n.objs[|m.objs|]) && n.servers == m.servers[id := |m.objs|]
    ensures MapsLive(n)
  {
    assert forall i | 0 <= i < |m.objs| :: n.objs[i] == m.objs[i];
    hide Live;
  }

  lemma ReservePortsHeld(c: Ports, m: Manager, n: Manager, id: MatchId)
    requires PortsHeld(c, m) && id !in m.servers
    requires |n.objs| == |m.objs| + 1 && m.objs == n.objs[..|m.objs|]
    requires var s := n.objs[|m.objs|];
             s.matchId == id && GamePort(c, s.port) && s.port !in m.used && n.used == m.used[s.port := id]
    requires n.servers == m.servers[id := |m.objs|]
    ensures PortsHeld(c, n)
  {
    assert forall i | 0 <= i < |m.objs| :: n.objs[i] == m.objs[i];
    hide Live;
  }

  lemma ReserveInv(c: Ports, w: World, id: MatchId, hooked: bool, busy: set<int>)
    requires Inv(c, w)
    ensures Inv(c, BooksPart(c, w, Start(id, hooked, busy)))
  {
    if StartAnswerOf(c, w.m, id, busy).Reserved? {
      ReserveOwned(c, w.m, id, hooked, busy);
      ReserveShape(c, w.m, id, hooked, busy);
      ReserveFile(c, w.m, id, hooked, busy);
      var n := AfterReserve(c, w.m, id, hooked, busy);
      hide Owned, LowestFree, FileOf, LogOk, StopsOk, ServersOk, AfterReserve, ServerOk;
      ReserveLog(w.m, n, w.log);
      ReserveStops(w.m, n, w.stops);
    }
  }

  lemma ReserveShape(c: Ports, m: Manager, id: MatchId, hooked: bool, busy: set<int>)
    requires StartAnswerOf(c, m, id, busy).Reserved? && ServersOk(m)
    ensures var n := AfterReserve(c, m, id, hooked, busy);
            && |n.objs| == |m.objs| + 1 && m.objs == n.objs[..|m.objs|]
            && n.objs[|m.objs|].rec.None? && !n.objs[|m.objs|].stopping
            && n.exits == m.exits && n.file == m.file && n.accepting && m.accepting && ServersOk(n)
  {
    hide LowestFree;
  }

  lemma ReserveFile(c: Ports, m: Manager, id: MatchId, hooked: bool, busy: set<int>)
    requires Owned(c, m) && StartAnswerOf(c, m, id, busy).Reserved?
    ensures var n := AfterReserve(c, m, id, hooked, busy);
            FileOf(n.servers, n.objs) == FileOf(m.servers, m.objs)
  {
    hide LowestFree;
  }

  lemma ReserveLog(m: Manager, n: Manager, log: seq<Exit>)
    requires LogOk(m, log) && n.exits == m.exits
    requires |n.objs| == |m.objs| + 1 && m.objs == n.objs[..|m.objs|] && n.objs[|m.objs|].rec.None?
    ensures LogOk(n, log)
  {
    hide Capped;
  }

  lemma ReserveStops(m: Manager, n: Manager, stops: seq<StopCall>)
    requires StopsOk(m, stops)
    requires |n.objs| == |m.objs| + 1 && m.objs == n.objs[..|m.objs|] && !n.objs[|m.objs|].stopping
    ensures StopsOk(n, stops)
  {
  }

  /** Taking a live server out of the books leaves every other where it was. */
  lemma RemoveOwned(c: Ports, m: Manager, i: nat, s: Server)
    requires Owned(c, m) && i < |m.objs| && Live(m.objs[i]) && !Live(s)
    requires s.port == m.objs[i].port && s.tvPort == m.objs[i].tvPort
    ensures m.objs[i].matchId in m.servers && m.servers[m.objs[i].matchId] == i
    ensures Owned(c,
            m.(servers := m.servers - {m.objs[i].matchId}, used := m.used - {m.objs[i].port}, objs := m.objs[i := s]))
  {
    var id, p := m.objs[i].matchId, m.objs[i].port;
    RemoveCard(m.servers, id);
    RemoveCard(m.used, p);
    var n := m.(servers := m.servers - {id}, used := m.used - {p}, objs := m.objs[i := s]);
    RemoveMapsLive(m, n, i);
    RemovePortsHeld(c, m, n, i);
    hide MapsLive, PortsHeld, Live;
  }

  lemma RemoveMapsLive(m: Manager, n: Manager, i: nat)
    requires MapsLive(m) && i < |m.objs| == |n.objs| && Live(m.objs[i]) && !Live(n.objs[i])
    requires n.objs == m.objs[i := n.objs[i]] && n.servers == m.servers - {m.objs[i].matchId}
    ensures MapsLive(n)
  {
    hide Live;
  }

  lemma RemovePortsHeld(c: Ports, m: Manager, n: Manager, i: nat)
    requires MapsLive(m) && PortsHeld(c, m) && i < |m.objs| == |n.objs| && Live(m.objs[i]) && !Live(n.objs[i])
    requires n.objs == m.objs[i := n.objs[i]] && n.servers == m.servers - {m.objs[i].matchId}
    requires n.used == m.used - {m.objs[i].port}
    ensures PortsHeld(c, n)
  {
    hide Live;
    forall q | q in n.used ensures m.used[q] != m.objs[i].matchId {
      assert m.objs[m.servers[m.used[q]]].port == q;
    }
  }

  lemma RemoveCard<K, V>(m: map<K, V>, k: K)
    requires k in m
    ensures |m - {k}| == |m| - 1
  {
    assert m == (m - {k})[k := m[k]];
  }

  lemma RemoveFile(m: Manager, i: nat, s: Server)
    requires i < |m.objs| && m.objs[i].matchId in m.servers && m.servers[m.objs[i].matchId] == i
    requires forall id | id in m.servers :: m.servers[id] < |m.objs| && m.objs[m.servers[id]].matchId == id
    requires m.objs[i].phase != Running
    ensures FileOf(m.servers - {m.objs[i].matchId}, m.objs[i := s]) == FileOf(m.servers, m.objs)
  {
  }

  lemma FewerServers(m: Manager, n: Manager, u: Upd)
    requires UpdOk(m, u) && n.servers.Keys <= m.servers.Keys && m.accepting == n.accepting
    ensures UpdOk(n, u)
  {
    if |m.servers| == 0 {
      assert m.servers.Keys == {};
      assert n.servers.Keys == {};
    }
  }

  lemma FailInv(c: Ports, w: World, i: nat)
    requires Inv(c, w)
    ensures Inv(c, BooksPart(c, w, FailStart(i)))
  {
    hide Owned, FileOf, UpdOk, LogOk, StopsOk, ServersOk, ServerOk, AfterFail;
    if i < |w.m.objs| && w.m.objs[i].phase == LaunchFailed {
      OneOk(c, w, i);
      FailOwned(c, w.m, i);
      FailRest(w.m, w.u, i);
      FailLogStops(w.m, w.log, w.stops, i);
    }
  }

  lemma FailOwned(c: Ports, m: Manager, i: nat)
    requires Owned(c, m) && i < |m.objs| && m.objs[i].phase == LaunchFailed
    ensures var n := AfterFail(m, i);
            Owned(c, n) && n.file == m.file && FileOf(n.servers, n.objs) == FileOf(m.servers, m.objs)
  {
    RemoveOwned(c, m, i, m.objs[i].(phase := Removed));
    RemoveFile(m, i, m.objs[i].(phase := Removed));
    hide FileOf, Owned;
  }

  lemma FailRest(m: Manager, u: Upd, i: nat)
    requires ServersOk(m) && UpdOk(m, u) && i < |m.objs| && m.objs[i].phase == LaunchFailed
    ensures ServersOk(AfterFail(m, i)) && UpdOk(AfterFail(m, i), u)
  {
    assert ServerOk(m.objs[i]) && ServerOk(m.objs[i].(phase := Removed));
    hide ServerOk;
    FewerServers(m, AfterFail(m, i), u);
  }

  lemma FailLogStops(m: Manager, log: seq<Exit>, stops: seq<StopCall>, i: nat)
    requires LogOk(m, log) && StopsOk(m, stops) && i < |m.objs| && m.objs[i].phase == LaunchFailed
             && ServerOk(m.objs[i])
    ensures LogOk(AfterFail(m, i), log) && StopsOk(AfterFail(m, i), stops)
  {
    hide Capped;
  }

  lemma PublishInv(c: Ports, w: World, i: nat)
    requires Inv(c, w)
    ensures Inv(c, BooksPart(c, w, Publish(i)))
  {
    hide Owned, FileOf, UpdOk, LogOk, StopsOk, ServersOk, ServerOk, AfterPublish;
    if i < |w.m.objs| && w.m.objs[i].phase == Launched {
      OneOk(c, w, i);
      PublishOwned(c, w.m, i);
      PublishRest(w.m, w.u, i);
      PublishLogStops(w.m, w.log, w.stops, i);
    }
  }

  lemma PublishRest(m: Manager, u: Upd, i: nat)
    requires ServersOk(m) && UpdOk(m, u) && i < |m.objs| && m.objs[i].phase == Launched
    ensures var n := AfterPublish(m, i);
            ServersOk(n) && UpdOk(n, u) && n.file == FileOf(n.servers, n.objs)
  {
    var n := AfterPublish(m, i);
    hide FileOf;
    assert ServerOk(m.objs[i]) && ServerOk(n.objs[i]);
    hide ServerOk;
    FewerServers(m, n, u);
  }

  lemma PublishOwned(c: Ports, m: Manager, i: nat)
    requires Owned(c, m) && i < |m.objs| && m.objs[i].phase == Launched
    ensures Owned(c, AfterPublish(m, i))
  {
    var s := m.objs[i];
    var t := s.(phase := Running, stopPending := s.stopping);
    var n := m.(objs := m.objs[i := t]);
    assert Live(s) && Live(t);
    hide Live, FileOf;
    PublishBooks(c, m, n, i);
    OwnedBooks(c, n, AfterPublish(m, i));
  }

  /** A live server whose ids stay may change otherwise. */
  lemma PublishBooks(c: Ports, m: Manager, n: Manager, i: nat)
    requires Owned(c, m) && i < |m.objs| == |n.objs| && Live(m.objs[i]) && Live(n.objs[i])
    requires n == m.(objs := m.objs[i := n.objs[i]])
    requires var s, t := m.objs[i], n.objs[i]; t.matchId == s.matchId && t.port == s.port && t.tvPort == s.tvPort
    ensures Owned(c, n)
  {
    hide Live;
  }

  lemma PublishLogStops(m: Manager, log: seq<Exit>, stops: seq<StopCall>, i: nat)
    requires LogOk(m, log) && StopsOk(m, stops) && i < |m.objs| && m.objs[i].phase == Launched && ServerOk(m.objs[i])
    ensures LogOk(AfterPublish(m, i), log) && StopsOk(AfterPublish(m, i), stops)
  {
    hide Capped, FileOf;
  }

  lemma CappedAppend(log: seq<Exit>, e: Exit)
    ensures Capped(Capped(log) + [e]) == Capped(log + [e])
  {
  }

  lemma OneOk(c: Ports, w: World, i: nat)
    requires Inv(c, w) && i < |w.m.objs|
    ensures ServerOk(w.m.objs[i])
  {
    hide Owned, FileOf, UpdOk, LogOk, StopsOk;
  }

  lemma RecordInv(c: Ports, w: World, i: nat)
    requires Inv(c, w)
    ensures Inv(c, BooksPart(c, w, Record(i)))
  {
    hide Owned, FileOf, UpdOk, LogOk, StopsOk, ServersOk, AfterRecord;
    if i < |w.m.objs| && w.m.objs[i].phase == Running && w.m.objs[i].process.Exited? {
      var code := w.m.objs[i].process.code;
      OneOk(c, w, i);
      assert w.m.objs[i].rec.None?;
      hide ServerOk;
      RecordOwned(c, w.m, i, code);
      RecordRest(w.m, w.u, i, code);
      RecordLog(w.m, w.log, i, code);
      RecordStops(w.m, w.stops, i, code);
    }
  }

  lemma RecordRest(m: Manager, u: Upd, i: nat, code: int)
    requires ServersOk(m) && UpdOk(m, u) && i < |m.objs| && m.objs[i].phase == Running
             && m.objs[i].process == Exited(code)
    ensures var n := AfterRecord(m, i, code);
            ServersOk(n) && UpdOk(n, u) && n.file == FileOf(n.servers, n.objs)
  {
    var n := AfterRecord(m, i, code);
    hide FileOf, Capped;
    assert ServerOk(m.objs[i]) && ServerOk(n.objs[i]);
    hide ServerOk;
    FewerServers(m, n, u);
  }

  lemma RecordOwned(c: Ports, m: Manager, i: nat, code: int)
    requires Owned(c, m) && i < |m.objs| && Live(m.objs[i])
    ensures Owned(c, AfterRecord(m, i, code))
  {
    var s := m.objs[i];
    var t := s.(phase := Recorded, rec := Some(ExitStatus(s, code)));
    RemoveOwned(c, m, i, t);
    hide FileOf, Capped, ExitStatus, Owned;
    OwnedBooks(c, m.(servers := m.servers - {s.matchId}, used := m.used - {s.port}, objs := m.objs[i := t]),
      AfterRecord(m, i, code));
  }

  lemma OwnedBooks(c: Ports, m: Manager, n: Manager)
    requires Owned(c, m) && n.servers == m.servers && n.used == m.used && n.objs == m.objs
    ensures Owned(c, n)
  {
  }

  lemma RecordLog(m: Manager, log: seq<Exit>, i: nat, code: int)
    requires LogOk(m, log) && i < |m.objs| && m.objs[i].rec.None? && m.objs[i].process == Exited(code)
    ensures LogOk(AfterRecord(m, i, code), log + [ExitOf(m.objs[i], i, code)])
  {
    var e := ExitOf(m.objs[i], i, code);
    var n := AfterRecord(m, i, code);
    CappedAppend(log, e);
    hide Capped, FileOf, ExitStatus;
    assert n.exits == Capped(log + [e]) && n.objs == m.objs[i := n.objs[i]] && RecordOf(n.objs[i], e) && e.server == i;
    hide AfterRecord, ExitOf, RecordOf;
    LogGrows(m, n, log, e);
  }

  lemma LogGrows(m: Manager, n: Manager, log: seq<Exit>, e: Exit)
    requires LogOk(m, log) && e.server < |m.objs| == |n.objs| && m.objs[e.server].rec.None?
    requires n.exits == Capped(log + [e]) && n.objs == m.objs[e.server := n.objs[e.server]]
    requires RecordOf(n.objs[e.server], e)
    ensures LogOk(n, log + [e])
  {
    hide Capped;
    var more := log + [e];
    forall j | 0 <= j < |n.objs| && n.objs[j].rec.Some? ensures Logged(more, j) {
      if j == e.server {
        assert more[|log|].server == j;
      } else {
        LoggedMore(log, e, j);
      }
    }
    hide Logged;
    forall k | 0 <= k < |more|
      ensures more[k].server < |n.objs| && RecordOf(n.objs[more[k].server], more[k])
    {
      if k < |log| {
        assert more[k] == log[k] && log[k].server != e.server;
      }
    }
    forall j, k | 0 <= j < k < |more| ensures more[j].server != more[k].server {
      assert more[j] == log[j] && log[j].server != e.server;
      if k < |log| {
        assert more[k] == log[k];
      }
    }
  }

  lemma LoggedMore(log: seq<Exit>, e: Exit, j: nat)
    requires Logged(log, j)
    ensures Logged(log + [e], j)
  {
    var k :| 0 <= k < |log| && log[k].server == j;
    assert (log + [e])[k].server == j;
  }

  lemma RecordStops(m: Manager, stops: seq<StopCall>, i: nat, code: int)
    requires StopsOk(m, stops) && i < |m.objs| && m.objs[i].phase == Running
    ensures StopsOk(AfterRecord(m, i, code), stops)
  {
    hide Capped, FileOf, ExitStatus;
  }

  // ---------- Stop calls ----------

  lemma StopInv(c: Ports, w: World, id: MatchId)
    requires Inv(c, w)
    ensures Inv(c, StopPart(w, Stop(id)))
  {
    if id in w.m.servers && w.m.servers[id] < |w.m.objs| {
      var i := w.m.servers[id];
      var s := w.m.objs[i];
      var t := s.(stopping := true);
      assert Live(s);
      hide Owned, LogOk, FileOf, UpdOk, StopsOk, ServersOk;
      OneOk(c, w, i);
      assert ServerOk(t) && StandsIn(s, t) && s.rec.None?;
      StandInServers(w.m, i, t);
      hide ServerOk, StandsIn, Live;
      StandInOwned(c, w.m, i, t);
      StandInFile(w.m, i, t);
      StandInLog(w.m, w.log, i, t);
      SameServers(w.m, AfterStopRequest(w.m, id), w.u);
      StopCallOk(w.m, w.stops, i, StopCall(i, if s.phase == Running then Issuing else Waiting));
    }
  }

  lemma StopCallOk(m: Manager, stops: seq<StopCall>, i: nat, call: StopCall)
    requires StopsOk(m, stops) && i < |m.objs| && Live(m.objs[i]) && m.objs[i].rec.None?
    requires call == StopCall(i, if m.objs[i].phase == Running then Issuing else Waiting)
    ensures StopsOk(m.(objs := m.objs[i := m.objs[i].(stopping := true)]), stops + [call])
  {
    var n, more := m.(objs := m.objs[i := m.objs[i].(stopping := true)]), stops + [call];
    forall j | 0 <= j < |n.objs| && n.objs[j].stopping && Known(n.objs[j]) ensures StopComing(n.objs[j], j, more) {
      if j == i {
        assert more[|stops|] == StopCall(i, Issuing);
      } else {
        assert StopComing(m.objs[j], j, stops);
        if !m.objs[j].stopIssued && !m.objs[j].stopPending {
          var k :| 0 <= k < |stops| && stops[k] == StopCall(j, Issuing);
          assert more[k] == StopCall(j, Issuing);
        }
      }
    }
  }

  lemma IssueStopInv(c: Ports, w: World, k: nat)
    requires Inv(c, w)
    ensures Inv(c, StopPart(w, IssueStop(k)))
  {
    hide Owned, LogOk, FileOf, UpdOk, StopsOk, ServersOk;
    if k < |w.stops| && w.stops[k].pc == Issuing && w.stops[k].server < |w.m.objs| {
      var i := w.stops[k].server;
      IssuedServer(c, w, k);
      var t := w.m.objs[i].(stopIssued := true);
      StandInServers(w.m, i, t);
      hide ServerOk, StandsIn;
      StandInOwned(c, w.m, i, t);
      StandInFile(w.m, i, t);
      StandInLog(w.m, w.log, i, t);
      SameServers(w.m, w.m.(objs := w.m.objs[i := t]), w.u);
      IssuedOk(w.m, w.stops, k);
    }
  }

  lemma IssuedServer(c: Ports, w: World, k: nat)
    requires Inv(c, w) && k < |w.stops| && w.stops[k].pc == Issuing
    ensures w.stops[k].server < |w.m.objs|
    ensures var s := w.m.objs[w.stops[k].server];
            Known(s) && ServerOk(s) && ServerOk(s.(stopIssued := true)) && StandsIn(s, s.(stopIssued := true))
  {
    hide Owned, LogOk, FileOf, UpdOk;
    assert Known(w.m.objs[w.stops[k].server]);
    OneOk(c, w, w.stops[k].server);
  }

  lemma IssuedOk(m: Manager, stops: seq<StopCall>, k: nat)
    requires StopsOk(m, stops) && k < |stops| && stops[k].pc == Issuing
    ensures var i := stops[k].server;
            StopsOk(m.(objs := m.objs[i := m.objs[i].(stopIssued := true)]), stops[k := stops[k].(pc := Waiting)])
  {
    var i := stops[k].server;
    var n, later := m.(objs := m.objs[i := m.objs[i].(stopIssued := true)]), stops[k := stops[k].(pc := Waiting)];
    forall j | 0 <= j < |n.objs| && n.objs[j].stopping && Known(n.objs[j]) ensures StopComing(n.objs[j], j, later) {
      if j != i {
        assert StopComing(m.objs[j], j, stops);
        StillComing(m.objs[j], j, stops, k, stops[k].(pc := Waiting));
      }
    }
  }

  /** A stop call that moves on takes no other server's stop away. */
  lemma StillComing(s: Server, j: nat, stops: seq<StopCall>, k: nat, call: StopCall)
    requires StopComing(s, j, stops) && k < |stops| && (stops[k].pc != Issuing || stops[k].server != j)
    ensures StopComing(s, j, stops[k := call])
  {
    if !s.stopIssued && !s.stopPending {
      var x :| 0 <= x < |stops| && stops[x] == StopCall(j, Issuing);
      assert stops[k := call][x] == StopCall(j, Issuing);
    }
  }

  lemma StopEndsInv(c: Ports, w: World, k: nat, a: Action)
    requires Inv(c, w) && (a == StopReturns(k) || a == StopGivesUp(k))
    ensures Inv(c, StopPart(w, a))
  {
    hide Owned, LogOk, FileOf, UpdOk;
    if k < |w.stops| && w.stops[k].pc == Waiting {
      forall j | 0 <= j < |w.m.objs| && w.m.objs[j].stopping && Known(w.m.objs[j])
        ensures StopComing(w.m.objs[j], j, StopPart(w, a).stops)
      {
        StillComing(w.m.objs[j], j, w.stops, k, StopPart(w, a).stops[k]);
      }
    }
  }

  // ---------- Whole runs ----------

  lemma UpdaterStepInv(c: Ports, w: World, a: Action)
    requires Inv(c, w) && UpdaterStep(a)
    ensures Inv(c, Step(c, w, a))
  {
    hide Owned, LogOk, FileOf, StopsOk, ServersOk, UpdOk, Gate, UpdStep;
    GateOk(w.m, w.u, a);
    GateElse(c, w, w.m.(accepting := Gate(w.u, w.m.accepting, a)));
  }

  lemma GateOk(m: Manager, u: Upd, a: Action)
    requires UpdOk(m, u) && UpdaterStep(a)
    ensures UpdOk(m.(accepting := Gate(u, m.accepting, a)), UpdStep(u, |m.servers|, a))
  {
  }

  lemma GateElse(c: Ports, w: World, n: Manager)
    requires Inv(c, w) && n == w.m.(accepting := n.accepting)
    ensures Owned(c, n) && ServersOk(n) && n.file == FileOf(n.servers, n.objs) && LogOk(n, w.log) && StopsOk(n, w.stops)
  {
  }

  lemma StepInv(c: Ports, w: World, a: Action)
    requires Inv(c, w)
    ensures Inv(c, Step(c, w, a))
  {
    hide Inv, StopPart, BooksPart, Touched, UpdStep, Gate;
    match a
    case Start(id, hooked, busy) => ReserveInv(c, w, id, hooked, busy);
    case FailStart(i) => FailInv(c, w, i);
    case Publish(i) => PublishInv(c, w, i);
    case Record(i) => RecordInv(c, w, i);
    case Stop(id) => StopInv(c, w, id);
    case IssueStop(k) => IssueStopInv(c, w, k);
    case StopReturns(k) => StopEndsInv(c, w, k, a);
    case StopGivesUp(k) => StopEndsInv(c, w, k, a);
    case _ => if ServerStep(a) { ServerStepInv(c, w, a); } else { UpdaterStepInv(c, w, a); }
  }
}
