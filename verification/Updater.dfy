/** The CS2 updater (agent/internal/update/update.go) run by one caller at a time. HostAgent interleaves its steps. */
module Updater {
  import opened HostManager

  datatype State = Idle | Draining | Updating

  datatype Check = NoChecker | CheckFailed | UpToDate | Outdated

  /** Where the updater is, whether the manager takes servers, and whether SteamCMD ran. */
  datatype Outcome = Outcome(state: State, accepting: bool, ran: bool)

  function AfterTrigger(state: State, accepting: bool): Outcome {
    if state == Idle then Outcome(Draining, false, false) else Outcome(state, accepting, false)
  }

  function AfterDrain(running: nat, steam: bool): Outcome {
    if running > 0 then Outcome(Draining, false, false)
    else if steam then Outcome(Idle, true, true)
    else Outcome(Draining, false, true)
  }

  /** A step that nobody disturbs. */
  function AfterStep(state: State, accepting: bool, running: nat, check: Check, steam: bool): Outcome {
    match state
    case Idle => if check == Outdated then AfterDrain(running, steam) else Outcome(Idle, accepting, false)
    case Draining => AfterDrain(running, steam)
    case Updating => Outcome(state, accepting, false)
  }

  class UpdateLoop {
    const gate: ServerManager
    var state: State
    var attempts: nat

    constructor (manager: ServerManager)
      ensures gate == manager && state == Idle && attempts == 0
    {
      gate, state, attempts := manager, Idle, 0;
    }

    /** A manager that takes servers is only ever behind an idle updater. */
    predicate Refusing()
      reads this, gate
    {
      state != Idle ==> !gate.accepting
    }

    method Trigger()
      requires Refusing()
      modifies this`state, gate`accepting
      ensures Refusing()
      ensures Outcome(state, gate.accepting, false) == AfterTrigger(old(state), old(gate.accepting))
    {
      if state == Idle {
        gate.SetAccepting(false);
        state := Draining;
      }
    }

    /** check is what the build check says, steam whether SteamCMD and the gameinfo patch would work. */
    method Step(check: Check, steam: bool) returns (ran: bool)
      requires Refusing()
      modifies this`state, this`attempts, gate`accepting
      ensures Refusing()
      ensures Outcome(state, gate.accepting, ran)
              == AfterStep(old(state), old(gate.accepting), |gate.servers|, check, steam)
      ensures ran ==> |gate.servers| == 0
      ensures attempts == if !ran then old(attempts) else if steam then 0 else old(attempts) + 1
    {
      ran := false;
      match state
      case Idle =>
        if check != Outdated {
          return;
        }
        gate.SetAccepting(false);
        state := Draining;
        ran := Drain(steam);
      case Draining => ran := Drain(steam);
      case Updating =>
    }

    method Drain(steam: bool) returns (ran: bool)
      requires state == Draining && !gate.accepting
      modifies this`state, this`attempts, gate`accepting
      ensures Outcome(state, gate.accepting, ran) == AfterDrain(|gate.servers|, steam)
      ensures attempts == if !ran then old(attempts) else if steam then 0 else old(attempts) + 1
    {
      var n := gate.Running();
      if n > 0 {
        return false;
      }
      state, attempts := State.Updating, attempts + 1;
      if !steam {
        state := Draining;
        return true;
      }
      state, attempts := Idle, 0;
      gate.SetAccepting(true);
      return true;
    }
  }

  /** A build is out of date, or a trigger or an earlier step asked for an update. */
  predicate Due(state: State, check: Check) {
    state == Draining || (state == Idle && check == Outdated)
  }

  /**
   * How a step goes. SteamCMD runs exactly when an update is due and no server is left. When it works the agent takes
   * servers again, and as long as it has not worked the agent takes none and the update stays due.
   */
  lemma UpdateOutcome(state: State, accepting: bool, running: nat, check: Check, steam: bool)
    requires state != State.Updating
    ensures var o := AfterStep(state, accepting, running, check, steam);
            && (o.ran <==> Due(state, check) && running == 0)
            && (o.ran && steam ==> o.state == Idle && o.accepting)
            && (Due(state, check) && !(o.ran && steam) ==> o.state == Draining && !o.accepting)
            && (!Due(state, check) ==> o.state == state && o.accepting == accepting)
    ensures AfterTrigger(state, accepting).state == Draining && !AfterTrigger(state, accepting).ran
    ensures AfterTrigger(state, accepting).accepting ==> accepting && state == Draining
  {
  }
}
