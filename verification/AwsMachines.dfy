/**
 The AWS create and delete machines (nodepool/driver/aws/adapter.py) against what the
 launcher of Launcher.dfy expects of any adapter: a delete machine is complete only when
 nothing it names is left, and a create machine names whatever it has made.  The first
 always holds; the second holds except while a request to the cloud is pending.
 */
module AwsMachines {
  import opened Wrappers

  type Resource = nat

  function Named(r: Option<Resource>): set<Resource> { if r.Some? then {r.value} else {} }

  // ---------------------------------------------------------------- deleting

  datatype DeleteState = BEGIN | INSTANCE_DELETING_START | INSTANCE_DELETING | HOST_RELEASING_START | HOST_RELEASING | GONE

  // instanceSeen, hostSeen: the object last listed, None once it is gone.
  datatype Deleter = Deleter(state: DeleteState, instance: Option<Resource>, host: Option<Resource>,
                             instanceSeen: bool, hostSeen: bool, complete: bool)

  // What the listings show, first when the deletion is asked for, then when looking
  // again; and where a call raises.
  datatype DeleteAnswers = DeleteAnswers(instanceListed: bool, instanceThere: bool, hostListed: bool, hostThere: bool,
                                         deleteRaises: bool, lookRaises: bool, releaseRaises: bool, lookHostRaises: bool)

  function NewDeleter(instance: Option<Resource>, host: Option<Resource>): Deleter {
    Deleter(BEGIN, instance, host, false, false, false)
  }

  function Begun(m: Deleter): Deleter {
    if m.state != BEGIN then m
    else m.(state := if m.instance.Some? then INSTANCE_DELETING_START else if m.host.Some? then HOST_RELEASING_START else GONE)
  }

  function InstanceStep(m: Deleter, o: DeleteAnswers): (Deleter, bool) {
    if m.state == INSTANCE_DELETING_START && o.deleteRaises then (m, true)
    else
      var m1 := if m.state == INSTANCE_DELETING_START then m.(instanceSeen := o.instanceListed, state := INSTANCE_DELETING) else m;
      if m1.state != INSTANCE_DELETING then (m1, false)
      else if m1.instanceSeen && o.lookRaises then (m1, true)
      else
        var seen := m1.instanceSeen && o.instanceThere;
        (m1.(instanceSeen := seen,
             state := if seen then INSTANCE_DELETING else if m1.host.Some? then HOST_RELEASING_START else GONE), false)
  }

  function HostStep(m: Deleter, o: DeleteAnswers): (Deleter, bool) {
    if m.state == HOST_RELEASING_START && o.releaseRaises then (m, true)
    else
      var m1 := if m.state == HOST_RELEASING_START then m.(hostSeen := o.hostListed, state := HOST_RELEASING) else m;
      if m1.state != HOST_RELEASING then (m1, false)
      else if m1.hostSeen && o.lookHostRaises then (m1, true)
      else
        var seen := m1.hostSeen && o.hostThere;
        (m1.(hostSeen := seen, state := if seen then HOST_RELEASING else GONE), false)
  }

  function DeleteAdvanced(m: Deleter, o: DeleteAnswers): (Deleter, bool) {
    var (m1, raised1) := InstanceStep(Begun(m), o);
    if raised1 then (m1, true)
    else
      var (m2, raised2) := HostStep(m1, o);
      if raised2 then (m2, true) else (m2.(complete := m2.complete || m2.state == GONE), false)
  }

  class AwsDeleteStateMachine {
    var state: DeleteState
    const instance: Option<Resource>
    const host: Option<Resource>
    var instanceSeen: bool
    var hostSeen: bool
    var complete: bool

    function Contents(): Deleter
      reads this
    {
      Deleter(state, instance, host, instanceSeen, hostSeen, complete)
    }

    constructor (instance: Option<Resource>, host: Option<Resource>)
      ensures Contents() == NewDeleter(instance, host)
    {
      this.instance, this.host := instance, host;
      state, instanceSeen, hostSeen, complete := BEGIN, false, false, false;
    }

    method AtInstance(o: DeleteAnswers) returns (raised: bool)
      modifies this
      ensures (Contents(), raised) == InstanceStep(old(Contents()), o)
    {
      if state == INSTANCE_DELETING_START {
        if o.deleteRaises {
          return true;
        }
        instanceSeen := o.instanceListed;
        state := INSTANCE_DELETING;
      }
      if state == INSTANCE_DELETING {
        if instanceSeen && o.lookRaises {
          return true;
        }
        instanceSeen := instanceSeen && o.instanceThere;
        if !instanceSeen {
          state := if host.Some? then HOST_RELEASING_START else GONE;
        }
      }
      return false;
    }

    method AtHost(o: DeleteAnswers) returns (raised: bool)
      modifies this
      ensures (Contents(), raised) == HostStep(old(Contents()), o)
    {
      if state == HOST_RELEASING_START {
        if o.releaseRaises {
          return true;
        }
        hostSeen := o.hostListed;
        state := HOST_RELEASING;
      }
      if state == HOST_RELEASING {
        if hostSeen && o.lookHostRaises {
          return true;
        }
        hostSeen := hostSeen && o.hostThere;
        if !hostSeen {
          state := GONE;
        }
      }
      return false;
    }

    method Advance(o: DeleteAnswers) returns (raised: bool)
      modifies this
      ensures (Contents(), raised) == DeleteAdvanced(old(Contents()), o)
    {
      hide InstanceStep;
      hide HostStep;
      if state == BEGIN {
        if instance.Some? {
          state := INSTANCE_DELETING_START;
        } else if host.Some? {
          state := HOST_RELEASING_START;
        } else {
          state := GONE;
        }
      }
      assert Contents() == Begun(old(Contents()));
      raised := AtInstance(o);
      if raised {
        return;
      }
      raised := AtHost(o);
      if raised {
        return;
      }
      if state == GONE {
        complete := true;
      }
    }
  }

  // The listings a turn asks for show what is alive.
  predicate InstanceListed(m: Deleter, live: set<Resource>, o: DeleteAnswers) {
    var asked := m.state == INSTANCE_DELETING_START && !o.deleteRaises;
    && (asked && !o.instanceListed ==> Named(m.instance) !! live)
    && (((asked && o.instanceListed) || (m.state == INSTANCE_DELETING && m.instanceSeen)) && !o.lookRaises && !o.instanceThere
        ==> Named(m.instance) !! live)
  }

  predicate HostListed(m: Deleter, live: set<Resource>, o: DeleteAnswers) {
    var asked := m.state == HOST_RELEASING_START && !o.releaseRaises;
    && (asked && !o.hostListed ==> Named(m.host) !! live)
    && (((asked && o.hostListed) || (m.state == HOST_RELEASING && m.hostSeen)) && !o.lookHostRaises && !o.hostThere
        ==> Named(m.host) !! live)
  }

  predicate ListsTruly(m: Deleter, live: set<Resource>, o: DeleteAnswers) {
    var (m1, raised) := InstanceStep(Begun(m), o);
    InstanceListed(Begun(m), live, o) && (!raised ==> HostListed(m1, live, o))
  }

  // A machine lets go of the instance before it touches the host, and of nothing else.
  predicate DeleteOk(m: Deleter, live: set<Resource>) {
    && (m.state == INSTANCE_DELETING_START || m.state == INSTANCE_DELETING ==> m.instance.Some?)
    && (m.state == INSTANCE_DELETING ==> m.instanceSeen) && (m.state == HOST_RELEASING ==> m.hostSeen)
    && (m.state == HOST_RELEASING_START || m.state == HOST_RELEASING ==> m.host.Some? && Named(m.instance) !! live)
    && (m.state == GONE ==> Named(m.instance) !! live && Named(m.host) !! live)
    && (m.complete ==> m.state == GONE)
  }

  lemma InstanceStepKeeps(m: Deleter, live: set<Resource>, o: DeleteAnswers)
    requires DeleteOk(m, live) && InstanceListed(Begun(m), live, o)
    ensures DeleteOk(InstanceStep(Begun(m), o).0, live)
  {
  }

  lemma HostStepKeeps(m: Deleter, live: set<Resource>, o: DeleteAnswers)
    requires DeleteOk(m, live) && HostListed(m, live, o)
    ensures DeleteOk(HostStep(m, o).0, live)
  {
  }

  lemma DeleteAdvanceKeeps(m: Deleter, live: set<Resource>, o: DeleteAnswers)
    requires DeleteOk(m, live) && ListsTruly(m, live, o)
    ensures DeleteOk(DeleteAdvanced(m, o).0, live)
  {
    InstanceStepKeeps(m, live, o);
    if !InstanceStep(Begun(m), o).1 {
      HostStepKeeps(InstanceStep(Begun(m), o).0, live, o);
    }
    hide InstanceStep;
    hide HostStep;
  }

  lemma LossKeeps(m: Deleter, live: set<Resource>, gone: set<Resource>)
    requires DeleteOk(m, live)
    ensures DeleteOk(m, live - gone)
  {
  }

  lemma DeleteAdvanceNames(m: Deleter, o: DeleteAnswers)
    ensures DeleteAdvanced(m, o).0.instance == m.instance && DeleteAdvanced(m, o).0.host == m.host
  {
    InstanceStepNames(Begun(m), o);
    HostStepNames(InstanceStep(Begun(m), o).0, o);
    hide InstanceStep;
    hide HostStep;
  }

  lemma InstanceStepNames(m: Deleter, o: DeleteAnswers)
    ensures InstanceStep(m, o).0.instance == m.instance && InstanceStep(m, o).0.host == m.host
  {
  }

  lemma HostStepNames(m: Deleter, o: DeleteAnswers)
    ensures HostStep(m, o).0.instance == m.instance && HostStep(m, o).0.host == m.host
  {
  }

  // One turn per element; between turns the cloud loses resources.
  datatype DeleteTurn = DeleteTurn(gone: set<Resource>, answers: DeleteAnswers)

  predicate TrueTurns(m: Deleter, live: set<Resource>, turns: seq<DeleteTurn>)
    decreases |turns|
  {
    turns == []
    || (ListsTruly(m, live - turns[0].gone, turns[0].answers)
        && TrueTurns(DeleteAdvanced(m, turns[0].answers).0, live - turns[0].gone, turns[1..]))
  }

  function DeleteRun(m: Deleter, live: set<Resource>, turns: seq<DeleteTurn>): (Deleter, set<Resource>)
    decreases |turns|
  {
    if turns == [] then (m, live)
    else DeleteRun(DeleteAdvanced(m, turns[0].answers).0, live - turns[0].gone, turns[1..])
  }

  lemma {:induction false} DeleteRunKeeps(m: Deleter, live: set<Resource>, turns: seq<DeleteTurn>)
    requires DeleteOk(m, live) && TrueTurns(m, live, turns)
    ensures var (m', live') := DeleteRun(m, live, turns); DeleteOk(m', live') && m'.instance == m.instance && m'.host == m.host
    decreases |turns|
  {
    hide DeleteAdvanced;
    hide DeleteOk;
    hide ListsTruly;
    if turns != [] {
      LossKeeps(m, live, turns[0].gone);
      DeleteAdvanceKeeps(m, live - turns[0].gone, turns[0].answers);
      DeleteAdvanceNames(m, turns[0].answers);
      DeleteRunKeeps(DeleteAdvanced(m, turns[0].answers).0, live - turns[0].gone, turns[1..]);
    }
  }

  // The launcher's expectation: complete means that nothing of the external id is left.
  lemma CompleteMeansGone(instance: Option<Resource>, host: Option<Resource>, live: set<Resource>, turns: seq<DeleteTurn>)
    requires TrueTurns(NewDeleter(instance, host), live, turns)
    ensures var (m, left) := DeleteRun(NewDeleter(instance, host), live, turns);
            && (m.complete ==> Named(instance) + Named(host) !! left)
            && (m.state == HOST_RELEASING_START || m.state == HOST_RELEASING ==> Named(instance) !! left)
  {
    DeleteRunKeeps(NewDeleter(instance, host), live, turns);
  }

  // ---------------------------------------------------------------- creating

  datatype CreateState =
    | START | HOST_ALLOCATING_START | HOST_ALLOCATING_SUBMIT | HOST_ALLOCATING
    | INSTANCE_CREATING_START | INSTANCE_CREATING_SUBMIT | INSTANCE_CREATING | COMPLETE

  datatype Creator = Creator(state: CreateState, dedicated: bool, host: Option<Resource>, instance: Option<Resource>, complete: bool)

  // A future that is not done, that has made something, or that raises.
  datatype Future = NotDone | Made(id: Resource) | Raises

  datatype Health = GOOD | BROKEN | ON_ITS_WAY

  datatype CreateAnswers = CreateAnswers(hostFuture: Future, hostHealth: Health, instanceFuture: Future, instanceHealth: Health,
                                         earlyQuotaRaises: bool, lateQuotaRaises: bool)

  function NewCreator(dedicated: bool): Creator { Creator(START, dedicated, None, None, false) }

  function External(m: Creator): set<Resource> { Named(m.host) + Named(m.instance) }

  // Each phase: the machine, and whether advance goes on to the next one.
  datatype Phase = GoOn(m: Creator) | Return(m: Creator) | Raise(m: Creator)

  function HostPhase(m: Creator, o: CreateAnswers): Phase {
    var m0 := if m.state == START then m.(state := if m.dedicated then HOST_ALLOCATING_START else INSTANCE_CREATING_START) else m;
    var m1 := if m0.state == HOST_ALLOCATING_START then m0.(state := HOST_ALLOCATING_SUBMIT) else m0;
    if m1.state == HOST_ALLOCATING_SUBMIT && o.hostFuture.NotDone? then Return(m1)
    else if m1.state == HOST_ALLOCATING_SUBMIT && o.hostFuture.Raises? then Raise(m1)
    else
      var m2 := if m1.state == HOST_ALLOCATING_SUBMIT then m1.(host := Some(o.hostFuture.id), state := HOST_ALLOCATING) else m1;
      if m2.state != HOST_ALLOCATING then GoOn(m2)
      else
        match o.hostHealth
        case GOOD => GoOn(m2.(state := INSTANCE_CREATING_START))
        case BROKEN => Raise(m2)
        case ON_ITS_WAY => Return(m2)
  }

  function InstancePhase(m: Creator, o: CreateAnswers): Phase {
    var m1 := if m.state == INSTANCE_CREATING_START then m.(state := INSTANCE_CREATING_SUBMIT) else m;
    if m1.state == INSTANCE_CREATING_SUBMIT && o.instanceFuture.NotDone? then Return(m1)
    else if m1.state == INSTANCE_CREATING_SUBMIT && o.instanceFuture.Raises? then Raise(m1)
    else
      var m2 := if m1.state == INSTANCE_CREATING_SUBMIT then m1.(instance := Some(o.instanceFuture.id)) else m1;
      if m2.state == INSTANCE_CREATING_SUBMIT && o.earlyQuotaRaises then Raise(m2)
      else
        var m3 := if m2.state == INSTANCE_CREATING_SUBMIT then m2.(state := INSTANCE_CREATING) else m2;
        if m3.state != INSTANCE_CREATING then GoOn(m3)
        else
          match o.instanceHealth
          case GOOD => GoOn(m3.(state := COMPLETE))
          case BROKEN => Raise(m3)
          case ON_ITS_WAY => Return(m3)
  }

  function CreateAdvanced(m: Creator, o: CreateAnswers): (Creator, bool) {
    var a := HostPhase(m, o);
    if !a.GoOn? then (a.m, a.Raise?)
    else
      var b := InstancePhase(a.m, o);
      if !b.GoOn? then (b.m, b.Raise?)
      else if b.m.state != COMPLETE then (b.m, false)
      else (b.m.(complete := true), o.lateQuotaRaises)
  }

  class AwsCreateStateMachine {
    var state: CreateState
    const dedicated: bool
    var host: Option<Resource>
    var instance: Option<Resource>
    var complete: bool

    function Contents(): Creator
      reads this
    {
      Creator(state, dedicated, host, instance, complete)
    }

    constructor (dedicated: bool)
      ensures Contents() == NewCreator(dedicated)
    {
      this.dedicated := dedicated;
      state, host, instance, complete := START, None, None, false;
    }

    method AtHost(o: CreateAnswers) returns (phase: Phase)
      modifies this
      ensures phase == HostPhase(old(Contents()), o) && Contents() == phase.m
    {
      if state == START {
        state := if dedicated then HOST_ALLOCATING_START else INSTANCE_CREATING_START;
      }
      if state == HOST_ALLOCATING_START {
        state := HOST_ALLOCATING_SUBMIT;
      }
      if state == HOST_ALLOCATING_SUBMIT {
        match o.hostFuture {
          case NotDone => return Return(Contents());
          case Raises => return Raise(Contents());
          case Made(id) => host := Some(id);
        }
        state := HOST_ALLOCATING;
      }
      if state == HOST_ALLOCATING {
        match o.hostHealth {
          case GOOD => state := INSTANCE_CREATING_START;
          case BROKEN => return Raise(Contents());
          case ON_ITS_WAY => return Return(Contents());
        }
      }
      return GoOn(Contents());
    }

    method AtInstance(o: CreateAnswers) returns (phase: Phase)
      modifies this
      ensures phase == InstancePhase(old(Contents()), o) && Contents() == phase.m
    {
      if state == INSTANCE_CREATING_START {
        state := INSTANCE_CREATING_SUBMIT;
      }
      if state == INSTANCE_CREATING_SUBMIT {
        match o.instanceFuture {
          case NotDone => return Return(Contents());
          case Raises => return Raise(Contents());
          case Made(id) => instance := Some(id);
        }
        if o.earlyQuotaRaises {
          return Raise(Contents());
        }
        state := INSTANCE_CREATING;
      }
      if state == INSTANCE_CREATING {
        match o.instanceHealth {
          case GOOD => state := COMPLETE;
          case BROKEN => return Raise(Contents());
          case ON_ITS_WAY => return Return(Contents());
        }
      }
      return GoOn(Contents());
    }

    method Advance(o: CreateAnswers) returns (raised: bool)
      modifies this
      ensures (Contents(), raised) == CreateAdvanced(old(Contents()), o)
    {
      hide HostPhase;
      hide InstancePhase;
      var phase := AtHost(o);
      if !phase.GoOn? {
        return phase.Raise?;
      }
      phase := AtInstance(o);
      if !phase.GoOn? {
        return phase.Raise?;
      }
      if state == COMPLETE {
        complete := true;
        return o.lateQuotaRaises;
      }
      return false;
    }
  }

  // The cloud next to a create machine.  hidden: what a pending request has made already.
  datatype System = System(m: Creator, live: set<Resource>, hidden: Option<Resource>)

  predicate Pending(m: Creator) { m.state == HOST_ALLOCATING_SUBMIT || (m.state == INSTANCE_CREATING_SUBMIT && m.instance.None?) }

  datatype Step = Advance(answers: CreateAnswers) | CloudMakes(id: Resource) | CloudLoses(gone: set<Resource>)

  // What a future may answer: h is what its request is known to have made already.
  predicate Answers(h: Option<Resource>, f: Future) { h.Some? ==> f.NotDone? || f == Made(h.value) }

  predicate Enabled(s: System, st: Step) {
    match st
    case Advance(o) =>
      && (s.m.state == HOST_ALLOCATING_SUBMIT ==> Answers(s.hidden, o.hostFuture))
      && (s.m.state == INSTANCE_CREATING_SUBMIT ==> Answers(if s.m.instance.Some? then s.m.instance else s.hidden, o.instanceFuture))
    case CloudMakes(id) => Pending(s.m) && s.hidden.None? && id !in s.live
    case CloudLoses(_) => true
  }

  // A request that is still the same one keeps what it has made to itself.
  function Apply(s: System, st: Step): System
    requires Enabled(s, st)
  {
    match st
    case Advance(o) =>
      var m1 := CreateAdvanced(s.m, o).0;
      System(m1, s.live + (External(m1) - External(s.m)), if Pending(m1) && m1.state == s.m.state then s.hidden else None)
    case CloudMakes(id) => s.(live := s.live + {id}, hidden := Some(id))
    case CloudLoses(gone) => s.(live := s.live - gone)
  }

  predicate Runs(s: System, steps: seq<Step>)
    decreases |steps|
  {
    steps == [] || (Enabled(s, steps[0]) && Runs(Apply(s, steps[0]), steps[1..]))
  }

  function After(s: System, steps: seq<Step>): System
    requires Runs(s, steps)
    decreases |steps|
  {
    if steps == [] then s else After(Apply(s, steps[0]), steps[1..])
  }

  function Initial(dedicated: bool): System { System(NewCreator(dedicated), {}, None) }

  predicate CreateOk(s: System) {
    && s.live <= External(s.m) + Named(s.hidden) && (s.hidden.Some? ==> Pending(s.m))
    && (s.m.host.Some? ==> s.m.state != START && s.m.state != HOST_ALLOCATING_START && s.m.state != HOST_ALLOCATING_SUBMIT)
    && (s.m.instance.Some? ==> s.m.state == INSTANCE_CREATING_SUBMIT || s.m.state == INSTANCE_CREATING || s.m.state == COMPLETE)
  }

  lemma HostPhaseKeeps(m: Creator, o: CreateAnswers)
    requires m.host.Some? ==> m.state != START && m.state != HOST_ALLOCATING_START && m.state != HOST_ALLOCATING_SUBMIT
    requires m.instance.Some? ==> m.state == INSTANCE_CREATING_SUBMIT || m.state == INSTANCE_CREATING || m.state == COMPLETE
    ensures var m1 := HostPhase(m, o).m;
            && m1.instance == m.instance && (m.host.Some? ==> m1.host == m.host)
            && (m1.host.Some? ==> m1.state != START && m1.state != HOST_ALLOCATING_START && m1.state != HOST_ALLOCATING_SUBMIT)
            && (m1.instance.Some? ==> m1 == m)
            && (m.state == HOST_ALLOCATING_SUBMIT ==>
                  m1 == m || (o.hostFuture.Made? && m1.host == Some(o.hostFuture.id)))
            && (m.state == INSTANCE_CREATING_SUBMIT ==> HostPhase(m, o) == GoOn(m))
  {
  }

  lemma InstancePhaseKeeps(m: Creator, o: CreateAnswers)
    requires m.instance.Some? ==> m.state == INSTANCE_CREATING_SUBMIT || m.state == INSTANCE_CREATING || m.state == COMPLETE
    requires m.instance.Some? && m.state == INSTANCE_CREATING_SUBMIT ==> Answers(m.instance, o.instanceFuture)
    ensures var m1 := InstancePhase(m, o).m;
            && m1.host == m.host && (m.instance.Some? ==> m1.instance == m.instance)
            && (m1.instance.Some? ==> m1.state == INSTANCE_CREATING_SUBMIT || m1.state == INSTANCE_CREATING || m1.state == COMPLETE)
            && (m1 == m || m1.state == INSTANCE_CREATING_SUBMIT || m1.state == INSTANCE_CREATING || m1.state == COMPLETE)
            && (m.state == INSTANCE_CREATING_SUBMIT ==>
                  m1 == m || (o.instanceFuture.Made? && m1.instance == Some(o.instanceFuture.id)))
            && (m.state == START || m.state == HOST_ALLOCATING_START || m.state == HOST_ALLOCATING_SUBMIT || m.state == HOST_ALLOCATING ==> m1 == m)
  {
  }

  lemma AdvanceKeeps(s: System, o: CreateAnswers)
    requires CreateOk(s) && Enabled(s, Advance(o))
    ensures CreateOk(Apply(s, Advance(o)))
  {
    hide HostPhase;
    hide InstancePhase;
    HostPhaseKeeps(s.m, o);
    var a := HostPhase(s.m, o);
    if a.GoOn? {
      InstancePhaseKeeps(a.m, o);
    }
  }

  lemma {:induction false} CreateRunKeeps(s: System, steps: seq<Step>)
    requires CreateOk(s) && Runs(s, steps)
    ensures CreateOk(After(s, steps))
    decreases |steps|
  {
    if steps != [] {
      if steps[0].Advance? {
        AdvanceKeeps(s, steps[0].answers);
      }
      CreateRunKeeps(Apply(s, steps[0]), steps[1..]);
    }
  }

  // The launcher's other expectation: a machine without a pending request names all that
  // is alive of what it has made; with one, all but what that request has made.
  lemma NamesAllButThePending(dedicated: bool, steps: seq<Step>)
    requires Runs(Initial(dedicated), steps)
    ensures var s := After(Initial(dedicated), steps);
            && s.live <= External(s.m) + Named(s.hidden) && (!Pending(s.m) ==> s.live <= External(s.m))
            && (s.live <= External(s.m) <==> Named(s.hidden) * s.live <= External(s.m))
  {
    CreateRunKeeps(Initial(dedicated), steps);
  }

  // The cloud can now make something that the external id does not name.
  predicate CanHide(s: System, id: Resource) {
    Enabled(s, CloudMakes(id)) && !(Apply(s, CloudMakes(id)).live <= External(s.m))
  }

  // Pending is exact: when no request has made anything unseen yet, one can exactly while
  // it is pending.
  lemma PendingIffCanHide(s: System)
    requires s.hidden.None?
    ensures Pending(s.m) <==> exists id :: CanHide(s, id)
  {
    if Pending(s.m) {
      var id := Fresh(s.live + External(s.m));
      assert id !in s.live && id !in External(s.m);
      assert id in Apply(s, CloudMakes(id)).live;
      assert CanHide(s, id);
    }
  }

  // Whatever the cloud calls what it makes, unless it reuses the name of a lost host.
  lemma PendingHidesWhatItMakes(dedicated: bool, steps: seq<Step>, id: Resource)
    requires Runs(Initial(dedicated), steps)
    requires var s := After(Initial(dedicated), steps); Pending(s.m) && s.hidden.None? && id !in s.live + External(s.m)
    ensures var s := After(Initial(dedicated), steps);
            && Runs(Initial(dedicated), steps + [CloudMakes(id)])
            && var s' := After(Initial(dedicated), steps + [CloudMakes(id)]); id in s'.live && id !in External(s'.m)
  {
    RunGrows(Initial(dedicated), steps, CloudMakes(id));
  }

  lemma {:induction false} RunGrows(s: System, steps: seq<Step>, st: Step)
    requires Runs(s, steps) && Enabled(After(s, steps), st)
    ensures Runs(s, steps + [st]) && After(s, steps + [st]) == Apply(After(s, steps), st)
    decreases |steps|
  {
    hide Enabled;
    hide Apply;
    if steps == [] {
      assert [] + [st] == [st] && [st][1..] == [];
      assert Runs(Apply(s, st), []);
    } else {
      RunGrows(Apply(s, steps[0]), steps[1..], st);
      assert (steps + [st])[1..] == steps[1..] + [st];
    }
  }

  lemma {:induction false} Fresh(x: set<Resource>) returns (id: Resource)
    ensures forall y :: y in x ==> y < id
  {
    id := 0;
    if x != {} {
      var y :| y in x;
      var rest := Fresh(x - {y});
      id := if rest > y then rest else y + 1;
      forall z | z in x ensures z < id {
        assert z == y || z in x - {y};
      }
    }
  }

  // A launch that times out now forgets the instance its request has already made.
  lemma PendingRequestsHideResources(id: Resource, o: CreateAnswers)
    requires o.instanceFuture.NotDone?
    ensures var steps := [Advance(o), CloudMakes(id)];
            Runs(Initial(false), steps) && After(Initial(false), steps).live == {id} && External(After(Initial(false), steps).m) == {}
  {
    var steps := [Advance(o), CloudMakes(id)];
    assert steps[1..] == [CloudMakes(id)] && steps[1..][1..] == [];
    var s1 := Apply(Initial(false), steps[0]);
    assert s1.m.state == INSTANCE_CREATING_SUBMIT && s1.live == {} && s1.hidden == None;
    var s2 := Apply(s1, steps[1]);
    assert Runs(s2, []) && Runs(s1, steps[1..]) && After(s1, steps[1..]) == s2;
  }

  // ---------------------------------------------------------------- when they get there

  // What a delete machine still has to see gone.
  predicate AwaitsInstance(m: Deleter) {
    (m.state == BEGIN && m.instance.Some?) || m.state == INSTANCE_DELETING_START || m.state == INSTANCE_DELETING
  }

  predicate AwaitsHost(m: Deleter) {
    m.state == HOST_RELEASING || m.state == HOST_RELEASING_START || (m.host.Some? && m.state != GONE)
  }

  // The call that asks for the deletion finds nothing, or the next look does.
  predicate SeenGone(asks: bool, seen: bool, o: DeleteAnswers) {
    if asks then !o.deleteRaises && (o.instanceListed ==> !o.lookRaises && !o.instanceThere)
    else seen ==> !o.lookRaises && !o.instanceThere
  }

  predicate HostSeenGone(asks: bool, seen: bool, o: DeleteAnswers) {
    if asks then !o.releaseRaises && (o.hostListed ==> !o.lookHostRaises && !o.hostThere)
    else seen ==> !o.lookHostRaises && !o.hostThere
  }

  // A delete machine is complete after an advance exactly if what it still awaited is seen
  // gone in it, the instance first and then the host.
  lemma DeletesIff(m: Deleter, o: DeleteAnswers)
    requires !m.complete
    ensures var (m1, raised) := DeleteAdvanced(m, o);
            m1.complete <==>
              && (AwaitsInstance(m) ==> SeenGone(m.state != INSTANCE_DELETING, m.instanceSeen, o))
              && (AwaitsHost(m) ==> HostSeenGone(m.state != HOST_RELEASING, m.hostSeen, o))
  {
  }

  // What a create machine still needs.
  predicate NeedsHost(m: Creator) {
    (m.state == START && m.dedicated) || m.state == HOST_ALLOCATING_START || m.state == HOST_ALLOCATING_SUBMIT
  }

  predicate NeedsGoodHost(m: Creator) { NeedsHost(m) || m.state == HOST_ALLOCATING }

  predicate NeedsInstance(m: Creator) { m.state != INSTANCE_CREATING && m.state != COMPLETE }

  predicate HostDone(m: Creator, o: CreateAnswers) {
    (NeedsHost(m) ==> o.hostFuture.Made?) && (NeedsGoodHost(m) ==> o.hostHealth == GOOD)
  }

  predicate HostFails(m: Creator, o: CreateAnswers) {
    || (NeedsHost(m) && o.hostFuture.Raises?)
    || (NeedsGoodHost(m) && (NeedsHost(m) ==> o.hostFuture.Made?) && o.hostHealth == BROKEN)
  }

  predicate InstanceMade(m: Creator, o: CreateAnswers) { NeedsInstance(m) ==> o.instanceFuture.Made? && !o.earlyQuotaRaises }

  predicate InstanceFails(m: Creator, o: CreateAnswers) {
    || (NeedsInstance(m) && (o.instanceFuture.Raises? || (o.instanceFuture.Made? && o.earlyQuotaRaises)))
    || (InstanceMade(m, o) && o.instanceHealth == BROKEN)
  }

  // A create machine is complete after an advance exactly if it has a good host, where it
  // needs one, and a good instance; it raises exactly if one of them fails, or the quota of
  // the finished instance cannot be read; and it names what has been made for it.
  lemma CreatesIff(m: Creator, o: CreateAnswers)
    requires !m.complete && m.state != COMPLETE
    ensures var (m1, raised) := CreateAdvanced(m, o);
            && (m1.complete <==> HostDone(m, o) && InstanceMade(m, o) && o.instanceHealth == GOOD)
            && (raised <==> HostFails(m, o) || (HostDone(m, o) && (InstanceFails(m, o)
                            || (InstanceMade(m, o) && o.instanceHealth == GOOD && o.lateQuotaRaises))))
            && m1.host == (if NeedsHost(m) && o.hostFuture.Made? then Some(o.hostFuture.id) else m.host)
            && m1.instance == (if HostDone(m, o) && NeedsInstance(m) && o.instanceFuture.Made? then Some(o.instanceFuture.id) else m.instance)
  {
  }

  // In every run a complete machine has an instance, on a host if it is to have its own.
  predicate ThingsOk(m: Creator) {
    && (m.state == INSTANCE_CREATING || m.state == COMPLETE ==> m.instance.Some?)
    && (m.dedicated && m.state != START && m.state != HOST_ALLOCATING_START && m.state != HOST_ALLOCATING_SUBMIT ==> m.host.Some?)
    && (m.complete ==> m.state == COMPLETE)
  }

  lemma AdvanceKeepsThings(m: Creator, o: CreateAnswers)
    requires ThingsOk(m)
    ensures ThingsOk(CreateAdvanced(m, o).0) && CreateAdvanced(m, o).0.dedicated == m.dedicated
  {
  }

  lemma {:induction false} RunKeepsThings(s: System, steps: seq<Step>)
    requires ThingsOk(s.m) && Runs(s, steps)
    ensures ThingsOk(After(s, steps).m) && After(s, steps).m.dedicated == s.m.dedicated
    decreases |steps|
  {
    hide CreateAdvanced;
    if steps != [] {
      if steps[0].Advance? {
        AdvanceKeepsThings(s.m, steps[0].answers);
      }
      RunKeepsThings(Apply(s, steps[0]), steps[1..]);
    }
  }

  lemma CompleteHasEverything(dedicated: bool, steps: seq<Step>)
    requires Runs(Initial(dedicated), steps)
    ensures var m := After(Initial(dedicated), steps).m; m.complete ==> m.instance.Some? && (dedicated ==> m.host.Some?)
  {
    RunKeepsThings(Initial(dedicated), steps);
  }
}
