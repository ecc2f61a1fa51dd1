/**
 * Saving match state in the background (BackgroundMatchStateStore, plugin/src/RushsiteMatch.Core/State/MatchState.cs).
 * Each locked section, each start of a background task and each write is one step. Saves are numbered in order.
 */
module StateStore {
  import opened Common

  /** The fields under the lock. */
  datatype Store = Store(pending: Option<nat>, writing: bool, idle: bool)

  const NEW_STORE := Store(None, false, true)

  function AfterSave(s: Store, state: nat): Store {
    Store(Some(state), true, if s.writing then s.idle else false)
  }

  function AfterTake(s: Store): Store {
    if s.pending.None? then s.(writing := false, idle := true) else s.(pending := None)
  }

  class BackgroundMatchStateStore {
    var pending: Option<nat>
    var writing: bool
    var idle: bool

    function View(): Store
      reads this
    {
      Store(pending, writing, idle)
    }

    constructor ()
      ensures View() == NEW_STORE
    {
      pending, writing, idle := None, false, true;
    }

    /** schedule tells the caller to start a drain. */
    method Save(state: nat) returns (schedule: bool)
      modifies this
      ensures View() == AfterSave(old(View()), state)
      ensures schedule == !old(writing)
    {
      pending := Some(state);
      if writing {
        return false;
      }
      writing := true;
      idle := false;
      return true;
    }

    /** The locked section of a drain. No state to write means the drain is over. */
    method Take() returns (next: Option<nat>)
      modifies this
      ensures View() == AfterTake(old(View()))
      ensures next == old(pending)
    {
      if pending.None? {
        writing := false;
        idle := true;
        return None;
      }
      next := pending;
      pending := None;
    }

    /** A drain nobody disturbs. written is what went to the inner store. */
    method Drain() returns (written: seq<nat>)
      modifies this
      ensures View() == NEW_STORE
      ensures written == if old(pending).Some? then [old(pending).value] else []
    {
      written := [];
      while true
        invariant pending.None? ==> written == (if old(pending).Some? then [old(pending).value] else [])
        invariant pending.Some? ==> pending == old(pending) && written == []
        decreases pending.Some?
      {
        var next := Take();
        if next.None? {
          return;
        }
        written := written + [next.value];
      }
    }
  }

  // ---------- The protocol ----------

  /** A background drain: scheduled, about to take, writing a state, or over. */
  datatype Drain = Scheduled | AtLoop | Writing(state: nat) | Over

  /** saves counts the saves, which are numbered from 0. writes are the write attempts in order. */
  datatype World = World(s: Store, drains: seq<Drain>, saves: nat, writes: seq<nat>)

  datatype Action = Save | Begin(d: nat) | Take(d: nat) | Write(d: nat)

  predicate Enabled(w: World, a: Action) {
    match a
    case Save => true
    case Begin(d) => d < |w.drains| && w.drains[d] == Scheduled
    case Take(d) => d < |w.drains| && w.drains[d] == AtLoop
    case Write(d) => d < |w.drains| && w.drains[d].Writing?
  }

  /** A failed write only logs, so a write attempt is one step whatever the inner store does. */
  function Step(w: World, a: Action): World {
    if !Enabled(w, a) then w
    else
      match a
      case Save =>
        w.(s := AfterSave(w.s, w.saves), saves := w.saves + 1,
           drains := if w.s.writing then w.drains else w.drains + [Scheduled])
      case Begin(d) => w.(drains := w.drains[d := AtLoop])
      case Take(d) =>
        w.(s := AfterTake(w.s), drains := w.drains[d := if w.s.pending.None? then Over else Writing(w.s.pending.value)])
      case Write(d) => w.(drains := w.drains[d := AtLoop], writes := w.writes + [w.drains[d].state])
  }

  const INIT := World(NEW_STORE, [], 0, [])

  function Run(acts: seq<Action>): World {
    if acts == [] then INIT else Step(Run(acts[..|acts| - 1]), acts[|acts| - 1])
  }

  ghost predicate Active(w: World, d: nat) {
    d < |w.drains| && w.drains[d] != Over
  }

  ghost predicate NoneElse(w: World, d: nat) {
    forall e | 0 <= e < |w.drains| && e != d :: w.drains[e] == Over
  }

  /** The newest state is pending, being written or written. */
  ghost predicate NewestAt(w: World, d: nat)
    requires d < |w.drains|
  {
    if w.s.pending.Some? then w.s.pending.value == w.saves - 1
    else if w.drains[d].Writing? then w.drains[d].state == w.saves - 1
    else w.drains[d] == AtLoop && NewestWritten(w)
  }

  predicate NewestWritten(w: World) {
    w.writes != [] && w.writes[|w.writes| - 1] == w.saves - 1
  }

  /** A state is later than all written ones. */
  ghost predicate AfterWrites(w: World, state: nat) {
    state < w.saves && forall i | 0 <= i < |w.writes| :: w.writes[i] < state
  }

  /** d is the one drain and no state is behind it. */
  ghost predicate Draining(w: World, d: nat) {
    && Active(w, d) && NoneElse(w, d) && NewestAt(w, d)
    && (w.drains[d].Writing? ==> AfterWrites(w, w.drains[d].state))
    && (w.drains[d].Writing? && w.s.pending.Some? ==> w.drains[d].state < w.s.pending.value)
  }

  ghost predicate Inv(w: World) {
    && w.s.idle == !w.s.writing
    && (if w.s.writing then w.saves > 0 && exists d | 0 <= d < |w.drains| :: Draining(w, d)
        else w.s.pending.None? && NoneElse(w, |w.drains|) && (w.saves > 0 ==> NewestWritten(w)))
    && (w.s.pending.Some? ==> AfterWrites(w, w.s.pending.value))
    && (forall i, j | 0 <= i < j < |w.writes| :: w.writes[i] < w.writes[j])
    && (forall i | 0 <= i < |w.writes| :: w.writes[i] < w.saves)
  }

  lemma SaveInv(w: World)
    requires Inv(w)
    ensures Inv(Step(w, Save))
  {
    var n := Step(w, Save);
    if w.s.writing {
      var d :| 0 <= d < |w.drains| && Draining(w, d);
      assert Draining(n, d);
    } else {
      assert Draining(n, |w.drains|);
    }
  }

  lemma DrainInv(w: World, a: Action)
    requires Inv(w) && a != Save
    ensures Inv(Step(w, a))
  {
    if Enabled(w, a) {
      var d :| 0 <= d < |w.drains| && Draining(w, d);
      assert a.d == d;
      var n := Step(w, a);
      if n.s.writing {
        assert Draining(n, d);
      }
    }
  }

  lemma {:induction false} RunInv(acts: seq<Action>)
    ensures Inv(Run(acts))
  {
    if acts != [] {
      RunInv(acts[..|acts| - 1]);
      var w, a := Run(acts[..|acts| - 1]), acts[|acts| - 1];
      if a == Save {
        SaveInv(w);
      } else {
        DrainInv(w, a);
      }
    }
  }

  function SavesIn(acts: seq<Action>): nat {
    if acts == [] then 0 else SavesIn(acts[..|acts| - 1]) + if acts[|acts| - 1] == Save then 1 else 0
  }

  /** No save is dropped: each is counted, and the store has it pending at once. */
  lemma {:induction false} SavesCount(acts: seq<Action>)
    ensures Run(acts).saves == SavesIn(acts)
    ensures acts != [] && acts[|acts| - 1] == Save ==> Run(acts).s.pending == Some(SavesIn(acts) - 1)
  {
    if acts != [] {
      SavesCount(acts[..|acts| - 1]);
    }
  }

  /**
   * Over every interleaving: one drain is scheduled or running exactly while writing is set, the writes are some of
   * the saves in save order with none twice, and whenever idle is set the last write was of the newest save.
   */
  lemma WritesFollowSaves(acts: seq<Action>)
    ensures var w := Run(acts);
            && (w.s.writing <==> exists d :: Active(w, d))
            && (forall d, e | Active(w, d) && Active(w, e) :: d == e)
            && (forall i, j | 0 <= i < j < |w.writes| :: w.writes[i] < w.writes[j] < w.saves)
            && (w.s.idle && w.saves > 0 ==> w.writes != [] && w.writes[|w.writes| - 1] == w.saves - 1)
  {
    RunInv(acts);
    var w := Run(acts);
    if w.s.writing {
      var d :| 0 <= d < |w.drains| && Draining(w, d);
      assert forall e | Active(w, e) :: e == d;
    }
  }

  // ---------- Flush ----------

  /** Drain steps left before idle when no save comes. */
  function StepsLeft(w: World, d: nat): nat
    requires d < |w.drains|
  {
    (if w.s.pending.Some? then 2 else 0) +
    match w.drains[d]
    case Scheduled => 2
    case AtLoop => 1
    case Writing(_) => 2
    case Over => 0
  }

  /** A drain step is the active drain's, brings it closer to its end, and ends it exactly when the store goes idle. */
  lemma DrainStep(w: World, d: nat, a: Action)
    requires Inv(w) && w.s.writing && Draining(w, d) && a != Save && Enabled(w, a)
    ensures a.d == d && StepsLeft(Step(w, a), d) < StepsLeft(w, d)
    ensures Step(w, a).s.idle <==> StepsLeft(Step(w, a), d) == 0
  {
  }

  function NextStep(w: World, d: nat): Action
    requires d < |w.drains|
  {
    if w.drains[d] == Scheduled then Begin(d) else if w.drains[d] == AtLoop then Take(d) else Write(d)
  }

  /**
   * While the store is not idle its one drain can step, and without another save it is idle after at most four steps.
   */
  lemma FlushEnds(acts: seq<Action>)
    ensures var w := Run(acts);
            !w.s.idle ==> exists d ::
              && Active(w, d) && StepsLeft(w, d) <= 4 && Enabled(w, NextStep(w, d)) && NextStep(w, d) != Save
              && (forall a | a != Save && Enabled(w, a) :: a.d == d && StepsLeft(Step(w, a), d) < StepsLeft(w, d))
              && (forall a | a != Save && Enabled(w, a) :: Step(w, a).s.idle <==> StepsLeft(Step(w, a), d) == 0)
  {
    RunInv(acts);
    var w := Run(acts);
    if !w.s.idle {
      var d :| 0 <= d < |w.drains| && Draining(w, d);
      forall a | a != Save && Enabled(w, a)
        ensures a.d == d && StepsLeft(Step(w, a), d) < StepsLeft(w, d)
        ensures Step(w, a).s.idle <==> StepsLeft(Step(w, a), d) == 0
      {
        DrainStep(w, d, a);
      }
      assert Enabled(w, NextStep(w, d)) && NextStep(w, d) != Save;
      assert StepsLeft(w, d) <= 4;
    }
  }
}
