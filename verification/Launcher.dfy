/**
 Launching one node: a create machine, a delete machine and a nodescan nested inside a
 retry loop (StateMachineNodeLauncher in nodepool/driver/statemachine.py).

 The cloud adapter is any pair of machines that keep two promises: a create machine
 lists a resource in its external id as soon as the resource comes into being, and a
 delete machine reports completion, or NotFound, only when no resource of its external
 id is left.  An external id is the set of resources it names; an empty one is falsy.

 The functions give one turn of the launcher as a value; the class does the same turn
 by updating its fields.  LauncherRuns.dfy puts the launcher next to a cloud.
 */
module Launcher {
  import opened Wrappers

  type Resource = nat
  type ExternalId = set<Resource>

  datatype NodeState = BUILDING | READY | FAILED | ABORTED

  // Which except clause of runStateMachine an exception ends in.
  datatype Raised = SessionExpired | Quota | Other

  // attempt: the value of `attempts` when the machine (or scan) was made.
  datatype Machine = Machine(attempt: nat, external: ExternalId, complete: bool)

  datatype Deleter = Deleter(external: ExternalId, complete: bool)

  // result: None while the scan runs, then whether result() returns keys.
  datatype Scan = Scan(attempt: nat, result: Option<bool>)

  // The future of the first startStateMachine, run by a thread pool.
  datatype Start = Pending | Finished(raised: Option<Raised>)

  // stored: the node's state in ZooKeeper.
  datatype Launcher = Launcher(state: NodeState, stored: NodeState, external: ExternalId,
                               attempts: nat, retries: nat, start: Start,
                               machine: Option<Machine>, deleter: Option<Deleter>, scan: Option<Scan>)

  // What one turn meets.  Every ZooKeeper write may raise; advance() may create
  // resources, complete and raise, in any combination, and may return an instance;
  // the synchronous restart may raise after or before its own write.
  datatype Deletion = Continues | Completes | NotFound | Breaks

  datatype Advance = Advance(made: ExternalId, completes: bool, raised: Option<Raised>, instance: bool)

  datatype Restart = Restarts | RestartRaises(stored: bool)

  datatype Turn = Turn(timedOut: bool, deletion: Deletion, advance: Advance,
                       readyStore: Option<Raised>, idStore: Option<Raised>, updateStore: Option<Raised>,
                       handlerStore: Option<Raised>, restart: Restart)

  function NewLauncher(retries: nat): Launcher {
    Launcher(BUILDING, BUILDING, {}, 1, retries, Pending, None, None, None)
  }

  // The thread pool has run startStateMachine.
  function Started(l: Launcher, raised: Option<Raised>): Launcher {
    l.(start := Finished(raised), machine := if raised.None? then Some(Machine(l.attempts, {}, false)) else None)
  }

  // runDeleteStateMachine; true when there is no delete work left.
  function DeleteTurn(l: Launcher, d: Deletion): (Launcher, bool) {
    if l.deleter.None? then (l, true)
    else if l.deleter.value.complete || l.deleter.value.external == {} then (l.(deleter := None), true)
    else
      match d
      case Continues => (l, false)
      case Completes => (l.(deleter := Some(l.deleter.value.(complete := true))), false)
      case NotFound => (l.(deleter := None), true)
      case Breaks => (l.(deleter := Some(Deleter(l.deleter.value.external, false))), false)
  }

  // The second result of a turn: whether runStateMachine raised.
  function Retry(l: Launcher, t: Turn): (Launcher, bool) {
    var l1 := l.(scan := None);
    if l.attempts >= l.retries then (l1.(state := FAILED), false)
    else
      var l2 := l1.(deleter := Some(Deleter(l.external, false)), attempts := l.attempts + 1);
      match t.restart
      case Restarts => (l2.(stored := l.state, machine := Some(Machine(l.attempts + 1, {}, false))), false)
      case RestartRaises(stored) => (if stored then l2.(stored := l.state) else l2, true)
  }

  // The except clauses.
  function Handle(l: Launcher, e: Raised, t: Turn): (Launcher, bool) {
    var known := l.(external := if l.machine.Some? then l.machine.value.external else l.external);
    match e
    case SessionExpired => (known.(state := FAILED, scan := None), false)
    case Quota =>
      if t.handlerStore.Some? then (known.(state := ABORTED), true)
      else (known.(state := ABORTED, stored := ABORTED, scan := None), false)
    case Other =>
      if l.machine.Some? && l.machine.value.external != {} then
        if t.handlerStore.Some? then (known, true) else Retry(known.(stored := l.state), t)
      else Retry(l, t)
  }

  // From the submission of the nodescan to the end of the try block.
  function Submit(l: Launcher, t: Turn): (Launcher, bool)
    requires l.machine.Some?
  {
    var m := l.machine.value;
    if m.complete && l.scan.None? then
      var l1 := if t.advance.instance then l.(external := m.external) else l;
      if t.advance.instance && t.updateStore.Some? then Handle(l1, t.updateStore.value, t)
      else (l1.(stored := if t.advance.instance then l.state else l.stored, scan := Some(Scan(l.attempts, None))), false)
    else (l, false)
  }

  function Advanced(l: Launcher, t: Turn): (Launcher, bool)
    requires l.machine.Some?
  {
    var m := l.machine.value;
    var m1 := Machine(m.attempt, m.external + t.advance.made, m.complete || t.advance.completes);
    var l1 := l.(machine := Some(m1));
    if t.advance.raised.Some? then Handle(l1, t.advance.raised.value, t)
    else if l1.external == {} && m1.external != {} then
      var l2 := l1.(external := m1.external);
      if t.idStore.Some? then Handle(l2, t.idStore.value, t) else Submit(l2.(stored := l.state), t)
    else Submit(l1, t)
  }

  predicate Scanned(l: Launcher) {
    l.machine.Some? && l.machine.value.complete && l.scan.Some? && l.scan.value.result.Some?
  }

  // Whether a turn gets as far as the delete machine, and as far as the create machine.
  predicate Deletes(l: Launcher, t: Turn) { l.machine.Some? && !Scanned(l) && !t.timedOut }

  predicate Advances(l: Launcher, t: Turn) { Deletes(l, t) && DeleteTurn(l, t.deletion).1 }

  // runStateMachine.
  function AfterTurn(l: Launcher, t: Turn): (Launcher, bool) {
    if l.machine.None? then
      match l.start
      case Pending => (l, false)
      case Finished(raised) => Handle(l, if raised.Some? then raised.value else Other, t)
    else if Scanned(l) then
      if !l.scan.value.result.value then Handle(l, Other, t)
      else if t.readyStore.Some? then Handle(l.(state := READY), t.readyStore.value, t)
      else (l.(state := READY, stored := READY), false)
    else if t.timedOut then Handle(l, Other, t)
    else
      var (l1, deleted) := DeleteTurn(l, t.deletion);
      if deleted then Advanced(l1, t) else (l1, false)
  }

  class StateMachineNodeLauncher {
    var state: NodeState
    var stored: NodeState
    var external: ExternalId
    var attempts: nat
    const retries: nat
    var start: Start
    var machine: Option<Machine>
    var deleter: Option<Deleter>
    var scan: Option<Scan>

    ghost function Contents(): Launcher
      reads this
    {
      Launcher(state, stored, external, attempts, retries, start, machine, deleter, scan)
    }

    // The launcher right after its first launch().
    constructor (retries: nat)
      ensures Contents() == NewLauncher(retries)
    {
      this.retries := retries;
      state, stored, external, attempts := BUILDING, BUILDING, {}, 1;
      start, machine, deleter, scan := Pending, None, None, None;
    }

    method FirstStartEnds(raised: Option<Raised>)
      requires machine.None? && start.Pending?
      modifies this
      ensures Contents() == Started(old(Contents()), raised)
    {
      start := Finished(raised);
      if raised.None? {
        machine := Some(Machine(attempts, {}, false));
      }
    }

    method StoreNode(raised: Option<Raised>)
      modifies this`stored
      ensures stored == if raised.None? then state else old(stored)
    {
      if raised.None? {
        stored := state;
      }
    }

    method RunDeleteStateMachine(d: Deletion) returns (done: bool)
      modifies this`deleter
      ensures (Contents(), done) == DeleteTurn(old(Contents()), d)
    {
      if deleter.None? {
        return true;
      }
      var sm := deleter.value;
      if sm.complete {
        deleter := None;
        return true;
      }
      if sm.external == {} {
        deleter := None;
        return true;
      }
      match d {
        case Continues =>
          return false;
        case Completes =>
          deleter := Some(sm.(complete := true));
          return false;
        case NotFound =>
          deleter := None;
          return true;
        case Breaks =>
          deleter := Some(Deleter(sm.external, false));
          return false;
      }
    }

    // launch(), from the second attempt on.
    method Relaunch(r: Restart) returns (raised: bool)
      modifies this`attempts, this`machine, this`stored
      ensures attempts == old(attempts) + 1
      ensures raised == r.RestartRaises?
      ensures machine == if raised then old(machine) else Some(Machine(attempts, {}, false))
      ensures stored == if raised && !r.stored then old(stored) else state
    {
      attempts := attempts + 1;
      match r {
        case Restarts =>
          StoreNode(None);
          machine := Some(Machine(attempts, {}, false));
          return false;
        case RestartRaises(didStore) =>
          if didStore {
            StoreNode(None);
          }
          return true;
      }
    }

    method HandleException(e: Raised, t: Turn) returns (raised: bool)
      modifies this
      ensures (Contents(), raised) == Handle(old(Contents()), e, t)
    {
      match e {
        case SessionExpired =>
          state := FAILED;
          if machine.Some? {
            external := machine.value.external;
          }
          scan := None;
          return false;
        case Quota =>
          state := ABORTED;
          if machine.Some? {
            external := machine.value.external;
          }
          StoreNode(t.handlerStore);
          if t.handlerStore.Some? {
            return true;
          }
          scan := None;
          return false;
        case Other =>
          if machine.Some? && machine.value.external != {} {
            external := machine.value.external;
            StoreNode(t.handlerStore);
            if t.handlerStore.Some? {
              return true;
            }
          }
          scan := None;
          if attempts >= retries {
            state := FAILED;
            return false;
          }
          deleter := Some(Deleter(external, false));
          raised := Relaunch(t.restart);
          return raised;
      }
    }

    // The part of the try block after the delete machine.
    method AdvanceCreate(t: Turn) returns (raised: bool)
      requires machine.Some?
      modifies this
      ensures (Contents(), raised) == Advanced(old(Contents()), t)
    {
      var sm := machine.value;
      sm := Machine(sm.attempt, sm.external + t.advance.made, sm.complete || t.advance.completes);
      machine := Some(sm);
      if t.advance.raised.Some? {
        raised := HandleException(t.advance.raised.value, t);
        return;
      }
      if external == {} && sm.external != {} {
        external := sm.external;
        StoreNode(t.idStore);
        if t.idStore.Some? {
          raised := HandleException(t.idStore.value, t);
          return;
        }
      }
      if sm.complete && scan.None? {
        if t.advance.instance {
          external := sm.external;
          StoreNode(t.updateStore);
          if t.updateStore.Some? {
            raised := HandleException(t.updateStore.value, t);
            return;
          }
        }
        scan := Some(Scan(attempts, None));
      }
      return false;
    }

    method RunStateMachine(t: Turn) returns (raised: bool)
      modifies this
      ensures (Contents(), raised) == AfterTurn(old(Contents()), t)
    {
      if machine.None? {
        match start {
          case Pending =>
            return false;
          case Finished(failure) =>
            raised := HandleException(if failure.Some? then failure.value else Other, t);
            return;
        }
      }
      if machine.value.complete && scan.Some? && scan.value.result.Some? {
        if !scan.value.result.value {
          raised := HandleException(Other, t);
          return;
        }
        state := READY;
        StoreNode(t.readyStore);
        if t.readyStore.Some? {
          raised := HandleException(t.readyStore.value, t);
          return;
        }
        return false;
      }
      if t.timedOut {
        raised := HandleException(Other, t);
        return;
      }
      var deleted := RunDeleteStateMachine(t.deletion);
      if !deleted {
        return false;
      }
      raised := AdvanceCreate(t);
    }
  }
}
