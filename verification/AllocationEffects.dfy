/**
 What the steps of the allocation protocol do to nodes and requests: no new node is left for
 nobody to find, a request is fulfilled with exactly the set of its handler, a handler that
 gives up gives everything back, and only a request's own handler allocates nodes to it.
 */
module AllocationEffects {
  import opened Wrappers
  import opened Allocation
  import opened AllocationProofs
  import opened AllocationTheorems
  import opened AllocationLeaks
  import AllocationSteps

  // ---------------------------------------------------------------- fulfilling a request

  predicate Fulfils(s: System, st: Step, r: RequestId) {
    st.StoreResult? && var l := LocalOf(s, st.actor); l.Releasing? && l.req == r && l.plan.Fulfil? && l.held == {}
  }

  lemma ResultFulfils(cfg: Config, s: System, a: Actor, r: RequestId)
    requires Enabled(cfg, s, StoreResult(a))
    requires var s' := Apply(cfg, s, StoreResult(a)); Exists(s', r) && s'.requests[r].state.FULFILLED?
    ensures var s' := Apply(cfg, s, StoreResult(a));
            || (Exists(s, r) && s'.requests[r] == s.requests[r])
            || (Fulfils(s, StoreResult(a), r) && s'.requests[r].nodes == LocalOf(s, a).plan.order)
  {
  }

  lemma OthersFulfilNothing(cfg: Config, s: System, st: Step, r: RequestId)
    requires WritesRequests(st) && !st.StoreResult? && Enabled(cfg, s, st)
    requires var s' := Apply(cfg, s, st); Exists(s', r) && s'.requests[r].state.FULFILLED?
    ensures Exists(s, r) && Apply(cfg, s, st).requests[r] == s.requests[r]
  {
  }

  // A fulfilled request was fulfilled before, with the same nodes, or is by this step with
  // the nodes its handler has put in order.
  lemma FulfilledAfter(cfg: Config, s: System, st: Step, r: RequestId)
    requires Enabled(cfg, s, st)
    requires var s' := Apply(cfg, s, st); Exists(s', r) && s'.requests[r].state.FULFILLED?
    ensures var s' := Apply(cfg, s, st);
            || (Exists(s, r) && s'.requests[r] == s.requests[r])
            || (Fulfils(s, st, r) && s'.requests[r].nodes == LocalOf(s, st.actor).plan.order)
  {
    hide Enabled;
    hide Apply;
    if st.StoreResult? {
      ResultFulfils(cfg, s, st.actor, r);
    } else if WritesRequests(st) {
      OthersFulfilNothing(cfg, s, st, r);
    } else {
      OtherStepsLeaveRequests(cfg, s, st);
    }
  }

  lemma FulfilStores(cfg: Config, s: System, st: Step, r: RequestId)
    requires Enabled(cfg, s, st) && Fulfils(s, st, r) && Exists(s, r) && s.requests[r] == LocalOf(s, st.actor).copy
    ensures var s' := Apply(cfg, s, st); Exists(s', r) && s'.requests[r].state.FULFILLED? && s'.requests[r].nodes == LocalOf(s, st.actor).plan.order
    ensures Apply(cfg, s, st).nodes == s.nodes && Apply(cfg, s, st).nodeLock == s.nodeLock
  {
  }

  // A handler that fulfils its request lists exactly its node set, each node allocated to
  // the request.
  lemma FulfilsWithItsSet(cfg: Config, steps: seq<Step>, st: Step, r: RequestId)
    requires Runs(cfg, Empty(), steps) && Enabled(cfg, After(cfg, Empty(), steps), st)
    requires Fulfils(After(cfg, Empty(), steps), st, r) && Exists(After(cfg, Empty(), steps), r)
    ensures var s := After(cfg, Empty(), steps); var s' := Apply(cfg, s, st);
            && Exists(s', r) && s'.requests[r].state.FULFILLED?
            && SetOf(s'.requests[r].nodes) == Nodeset(LocalOf(s, st.actor))
            && forall n :: n in s'.requests[r].nodes ==> n in s'.nodes && s'.nodes[n].owner == Some(r)
  {
    hide Apply;
    hide Enabled;
    hide Runs;
    hide After;
    var s := After(cfg, Empty(), steps);
    ReachableIsOk(cfg, steps);
    FulfillerOwns(cfg, s, st, r);
    FulfilStores(cfg, s, st, r);
  }

  lemma FulfillerOwns(cfg: Config, s: System, st: Step, r: RequestId)
    requires Inv(cfg, s) && Fulfils(s, st, r)
    ensures var l := LocalOf(s, st.actor);
            && (Exists(s, r) ==> s.requests[r] == l.copy)
            && SetOf(l.plan.order) == l.nodeset
            && (Exists(s, r) ==> forall n :: n in l.plan.order ==> n in s.nodes && s.nodes[n].owner == Some(r))
  {
    AllocationSteps.Own(cfg, s, st.actor);
    var l := LocalOf(s, st.actor);
    assert forall n :: n in l.plan.order ==> n in SetOf(l.plan.order);
  }

  // ---------------------------------------------------------------- new nodes

  ghost predicate AllAged(s: System) {
    && (forall n :: NewIsOwned(s, n)) && (forall a :: SetAged(s, a)) && (forall r :: RequestAged(s, r))
  }

  lemma SetStaysAged(cfg: Config, s: System, st: Step, b: Actor)
    requires Inv(cfg, s) && Enabled(cfg, s, st) && AllAged(s)
    ensures SetAged(Apply(cfg, s, st), b)
  {
    hide Inv;
    hide Enabled;
    hide Apply;
    StepJoins(cfg, s, st, b);
    var s' := Apply(cfg, s, st);
    forall n | n in Nodeset(LocalOf(s', b)) ensures Aged(s', n) {
      StepAges(cfg, s, st, n);
      assert SetAged(s, b);
    }
  }

  lemma RequestStaysAged(cfg: Config, s: System, st: Step, r: RequestId)
    requires Inv(cfg, s) && Enabled(cfg, s, st) && AllAged(s)
    ensures RequestAged(Apply(cfg, s, st), r)
  {
    hide Inv;
    hide Enabled;
    hide Apply;
    var s' := Apply(cfg, s, st);
    if Exists(s', r) && s'.requests[r].state.FULFILLED? {
      FulfilledAfter(cfg, s, st, r);
      var ns := s'.requests[r].nodes;
      if Exists(s, r) && s'.requests[r] == s.requests[r] {
        assert RequestAged(s, r);
      } else {
        FulfillerOwns(cfg, s, st, r);
        assert SetAged(s, st.actor);
        forall n | n in ns ensures Aged(s, n) {
          assert n in SetOf(ns) && n in Nodeset(LocalOf(s, st.actor));
        }
      }
      forall n | n in ns ensures Aged(s', n) {
        assert Aged(s, n);
        StepAges(cfg, s, st, n);
      }
    }
  }

  lemma StepKeepsAges(cfg: Config, s: System, st: Step)
    requires Inv(cfg, s) && Enabled(cfg, s, st) && AllAged(s)
    ensures AllAged(Apply(cfg, s, st))
  {
    hide Inv;
    hide Enabled;
    hide Apply;
    forall n ensures NewIsOwned(Apply(cfg, s, st), n) {
      StepAges(cfg, s, st, n);
    }
    forall b ensures SetAged(Apply(cfg, s, st), b) {
      SetStaysAged(cfg, s, st, b);
    }
    forall r ensures RequestAged(Apply(cfg, s, st), r) {
      RequestStaysAged(cfg, s, st, r);
    }
  }

  lemma {:induction false} RunKeepsAges(cfg: Config, s: System, steps: seq<Step>)
    requires Inv(cfg, s) && AllAged(s) && Runs(cfg, s, steps)
    ensures AllAged(After(cfg, s, steps))
    decreases |steps|
  {
    hide Inv;
    hide Enabled;
    hide Apply;
    hide AllAged;
    if steps != [] {
      StepKeepsAges(cfg, s, steps[0]);
      AllocationSteps.StepKeepsInv(cfg, s, steps[0]);
      RunKeepsAges(cfg, Apply(cfg, s, steps[0]), steps[1..]);
    }
  }

  // No node is INIT and nobody's: no worker looks for one like that, it would be there for
  // ever.
  lemma NewNodesAreAllocated(cfg: Config, steps: seq<Step>, n: NodeId)
    requires Runs(cfg, Empty(), steps)
    ensures var s := After(cfg, Empty(), steps); n in s.nodes && s.nodes[n].state.INIT? ==> s.nodes[n].owner.Some?
  {
    RunKeepsAges(cfg, Empty(), steps);
    assert NewIsOwned(After(cfg, Empty(), steps), n);
  }

  // A node a dead launcher left behind: the lost-request worker frees it, and if it was new
  // marks it for deletion, so that the deleting worker picks it up.
  lemma LostNodesAreFreed(cfg: Config, steps: seq<Step>, a: Actor)
    requires Runs(cfg, Empty(), steps)
    requires var l := LocalOf(After(cfg, Empty(), steps), a); l.Resetting? && l.reset.NodePassed?
    ensures var s := After(cfg, Empty(), steps); var n := LocalOf(s, a).reset.node;
            && Enabled(cfg, s, StoreLostNode(a)) && n in s.nodes
            && var s' := Apply(cfg, s, StoreLostNode(a));
               && Free(s', n) && s'.nodes[n].owner.None? && !s'.nodes[n].state.INIT?
               && (!s.nodes[n].state.INIT? ==> s'.nodes[n].state == s.nodes[n].state)
               && (s.nodes[n].state.INIT? ==> s'.nodes[n].state.DELETING? && SeenPickable(s', DeleteNode, n))
  {
    var s := After(cfg, Empty(), steps);
    ReachableIsOk(cfg, steps);
    AllocationSteps.Own(cfg, s, a);
    FreedBy(cfg, s, a);
  }

  lemma FreedBy(cfg: Config, s: System, a: Actor)
    requires LocksOk(s, a) && DataOk(cfg, s, a) && LocalOf(s, a).Resetting? && LocalOf(s, a).reset.NodePassed?
    ensures var n := LocalOf(s, a).reset.node;
            && Enabled(cfg, s, StoreLostNode(a)) && n in s.nodes
            && var s' := Apply(cfg, s, StoreLostNode(a));
               && Free(s', n) && s'.nodes[n].owner.None? && !s'.nodes[n].state.INIT?
               && (!s.nodes[n].state.INIT? ==> s'.nodes[n].state == s.nodes[n].state)
               && (s.nodes[n].state.INIT? ==> s'.nodes[n].state.DELETING? && SeenPickable(s', DeleteNode, n))
  {
    var s' := Apply(cfg, s, StoreLostNode(a));
    var n := LocalOf(s, a).reset.node;
    assert Seen(s', n, s'.nodes[n]);
  }

  // ---------------------------------------------------------------- who allocates

  // The steps that end an allocation: its handler gives it back, its request is retired, the
  // deallocating worker finds the request gone, or the lost-request worker resets it.
  predicate Deallocates(s: System, st: Step, n: NodeId) {
    match st
    case ClearOwner(_, m) => m == n
    case Retire(r) => r in s.requests && n in s.requests[r].nodes
    case CleanerStores(a) =>
      var l := LocalOf(s, a); l.Cleaning? && l.kind.Deallocate? && l.node == n && n in s.nodes && !s.nodes[n].state.GONE?
    case StoreLostNode(a) => var l := LocalOf(s, a); l.Resetting? && l.reset.NodePassed? && l.reset.node == n
    case _ => false
  }

  // A node is allocated to a request only by the handler at work on it, and stays so until
  // one of those steps.
  predicate AllocatesOk(s: System, s': System, st: Step, n: NodeId) {
    && (n in s.nodes ==> n in s'.nodes)
    && (n in s.nodes && s.nodes[n].owner.Some? ==>
          s'.nodes[n].owner == if Deallocates(s, st, n) then None else s.nodes[n].owner)
    && (n in s'.nodes && s'.nodes[n].owner.Some? ==>
          || (n in s.nodes && s.nodes[n].owner == s'.nodes[n].owner)
          || (ActorOf(st).Some? && LocalOf(s, ActorOf(st).value).Working?
              && s'.nodes[n].owner == Some(LocalOf(s, ActorOf(st).value).req)))
  }

  lemma RequestorAllocates(cfg: Config, s: System, st: Step, n: NodeId)
    requires RequestorStep(st) && Enabled(cfg, s, st)
    ensures AllocatesOk(s, Apply(cfg, s, st), st, n)
  {
  }

  lemma TakeAllocates(cfg: Config, s: System, st: Step, n: NodeId)
    requires TakeStep(st) && Enabled(cfg, s, st) && DataOk(cfg, s, st.actor)
    ensures AllocatesOk(s, Apply(cfg, s, st), st, n)
  {
  }

  lemma StorePendingAllocates(cfg: Config, s: System, st: Step, n: NodeId)
    requires st.StorePending? && Enabled(cfg, s, st) && DataOk(cfg, s, st.actor)
    ensures AllocatesOk(s, Apply(cfg, s, st), st, n)
  {
  }

  lemma ReuseAllocates(cfg: Config, s: System, st: Step, n: NodeId)
    requires ReuseStep(st) && Enabled(cfg, s, st) && DataOk(cfg, s, st.actor)
    ensures AllocatesOk(s, Apply(cfg, s, st), st, n)
  {
  }

  lemma CreateAllocates(cfg: Config, s: System, st: Step, n: NodeId)
    requires CreateStep(st) && Enabled(cfg, s, st) && DataOk(cfg, s, st.actor)
    ensures AllocatesOk(s, Apply(cfg, s, st), st, n)
  {
  }

  lemma LaunchAllocates(cfg: Config, s: System, st: Step, n: NodeId)
    requires LaunchStep(st) && !CreateStep(st) && Enabled(cfg, s, st) && DataOk(cfg, s, st.actor)
    ensures AllocatesOk(s, Apply(cfg, s, st), st, n)
  {
  }

  lemma ResultAllocates(cfg: Config, s: System, st: Step, n: NodeId)
    requires st.StoreResult? && Enabled(cfg, s, st) && DataOk(cfg, s, st.actor)
    ensures AllocatesOk(s, Apply(cfg, s, st), st, n)
  {
  }

  lemma FinishAllocates(cfg: Config, s: System, st: Step, n: NodeId)
    requires FinishStep(st) && !st.StoreResult? && !st.OrphanStores? && Enabled(cfg, s, st) && DataOk(cfg, s, st.actor)
    ensures AllocatesOk(s, Apply(cfg, s, st), st, n)
  {
  }

  lemma OrphanAllocates(cfg: Config, s: System, st: Step, n: NodeId)
    requires st.OrphanStores? && Enabled(cfg, s, st) && NodesOk(s)
    ensures AllocatesOk(s, Apply(cfg, s, st), st, n)
  {
  }

  lemma PickAllocates(cfg: Config, s: System, st: Step, n: NodeId)
    requires PickStep(st) && Enabled(cfg, s, st) && DataOk(cfg, s, st.actor)
    ensures AllocatesOk(s, Apply(cfg, s, st), st, n)
  {
  }

  lemma CleanerAllocates(cfg: Config, s: System, st: Step, n: NodeId)
    requires (st.CleanerStores? || st.CleanerGivesUp?) && Enabled(cfg, s, st) && DataOk(cfg, s, st.actor)
    ensures AllocatesOk(s, Apply(cfg, s, st), st, n)
  {
  }

  lemma DeleterAllocates(cfg: Config, s: System, st: Step, n: NodeId)
    requires DeleterStep(st) && Enabled(cfg, s, st) && DataOk(cfg, s, st.actor)
    ensures AllocatesOk(s, Apply(cfg, s, st), st, n)
  {
  }

  lemma LostNodeAllocates(cfg: Config, s: System, st: Step, n: NodeId)
    requires LostNodeStep(st) && Enabled(cfg, s, st) && DataOk(cfg, s, st.actor)
    ensures AllocatesOk(s, Apply(cfg, s, st), st, n)
  {
  }

  lemma LostAllocates(cfg: Config, s: System, st: Step, n: NodeId)
    requires (st.LockLost? || st.ReadLost?) && Enabled(cfg, s, st) && DataOk(cfg, s, st.actor)
    ensures AllocatesOk(s, Apply(cfg, s, st), st, n)
  {
  }

  lemma StoreLostAllocates(cfg: Config, s: System, st: Step, n: NodeId)
    requires st.StoreLost? && Enabled(cfg, s, st) && DataOk(cfg, s, st.actor)
    ensures AllocatesOk(s, Apply(cfg, s, st), st, n)
  {
  }

  lemma ConsumerAllocates(cfg: Config, s: System, st: Step, n: NodeId)
    requires ConsumerStep(st) && Enabled(cfg, s, st) && DataOk(cfg, s, st.actor)
    ensures AllocatesOk(s, Apply(cfg, s, st), st, n)
  {
  }

  lemma WorkerAllocates(cfg: Config, s: System, st: Step, n: NodeId)
    requires (CleanerStep(st) || LostStep(st)) && Enabled(cfg, s, st) && DataOk(cfg, s, st.actor)
    ensures AllocatesOk(s, Apply(cfg, s, st), st, n)
  {
    hide Enabled;
    hide Apply;
    hide AllocatesOk;
    hide DataOk;
    if PickStep(st) {
      PickAllocates(cfg, s, st, n);
    } else if st.CleanerStores? || st.CleanerGivesUp? {
      CleanerAllocates(cfg, s, st, n);
    } else if DeleterStep(st) {
      DeleterAllocates(cfg, s, st, n);
    } else if LostNodeStep(st) {
      LostNodeAllocates(cfg, s, st, n);
    } else if st.LockLost? || st.ReadLost? {
      LostAllocates(cfg, s, st, n);
    } else {
      StoreLostAllocates(cfg, s, st, n);
    }
  }

  lemma OnlyHoldersAllocate(cfg: Config, s: System, st: Step, n: NodeId)
    requires Inv(cfg, s) && Enabled(cfg, s, st)
    ensures AllocatesOk(s, Apply(cfg, s, st), st, n)
  {
    assert NodesOk(s);
    hide NodesOk;
    hide Inv;
    hide Enabled;
    hide Apply;
    hide AllocatesOk;
    if ActorOf(st).Some? {
      AllocationSteps.Own(cfg, s, ActorOf(st).value);
    }
    hide LocksOk;
    hide DataOk;
    if RequestorStep(st) {
      RequestorAllocates(cfg, s, st, n);
    } else if TakeStep(st) {
      TakeAllocates(cfg, s, st, n);
    } else if st.StorePending? {
      StorePendingAllocates(cfg, s, st, n);
    } else if ReuseStep(st) {
      ReuseAllocates(cfg, s, st, n);
    } else if CreateStep(st) {
      CreateAllocates(cfg, s, st, n);
    } else if LaunchStep(st) {
      LaunchAllocates(cfg, s, st, n);
    } else if st.StoreResult? {
      ResultAllocates(cfg, s, st, n);
    } else if st.OrphanStores? {
      OrphanAllocates(cfg, s, st, n);
    } else if FinishStep(st) {
      FinishAllocates(cfg, s, st, n);
    } else if CleanerStep(st) || LostStep(st) {
      WorkerAllocates(cfg, s, st, n);
    } else {
      ConsumerAllocates(cfg, s, st, n);
    }
  }

  // ---------------------------------------------------------------- giving back

  predicate Clears(plan: Plan) { plan.ClearAndDecline? || plan.ClearOnly? }

  // What a handler that gives up has let go is not allocated to its request any more.
  predicate GivenBack(s: System, a: Actor) {
    var l := LocalOf(s, a);
    l.Releasing? && Clears(l.plan) ==> forall n :: n in l.nodeset && n !in l.held ==> n in s.nodes && s.nodes[n].owner != Some(l.req)
  }

  // Where a handler that gives up comes from, step by step.
  predicate GivesBackFrom(s: System, s': System, st: Step, a: Actor) {
    var l, l' := LocalOf(s, a), LocalOf(s', a);
    l'.Releasing? && Clears(l'.plan) ==>
      || l'.held == l'.nodeset
      || (l' == l)
      || (st.Release? && st.actor == a && l.Releasing? && l' == l.(held := l.held - {st.node})
          && st.node in s.nodes && s.nodes[st.node].owner.None? && s'.nodes == s.nodes)
  }

  lemma RequestorGivesBack(cfg: Config, s: System, st: Step, b: Actor)
    requires RequestorStep(st) && Enabled(cfg, s, st)
    ensures GivesBackFrom(s, Apply(cfg, s, st), st, b)
  {
  }

  lemma TakeGivesBack(cfg: Config, s: System, st: Step, b: Actor)
    requires TakeStep(st) && Enabled(cfg, s, st)
    ensures GivesBackFrom(s, Apply(cfg, s, st), st, b)
  {
  }

  lemma StorePendingGivesBack(cfg: Config, s: System, st: Step, b: Actor)
    requires st.StorePending? && Enabled(cfg, s, st)
    ensures GivesBackFrom(s, Apply(cfg, s, st), st, b)
  {
  }

  lemma ReuseGivesBack(cfg: Config, s: System, st: Step, b: Actor)
    requires ReuseStep(st) && Enabled(cfg, s, st)
    ensures GivesBackFrom(s, Apply(cfg, s, st), st, b)
  {
  }

  lemma CreateGivesBack(cfg: Config, s: System, st: Step, b: Actor)
    requires CreateStep(st) && Enabled(cfg, s, st)
    ensures GivesBackFrom(s, Apply(cfg, s, st), st, b)
  {
  }

  lemma LaunchGivesBack(cfg: Config, s: System, st: Step, b: Actor)
    requires LaunchStep(st) && !CreateStep(st) && Enabled(cfg, s, st)
    ensures GivesBackFrom(s, Apply(cfg, s, st), st, b)
  {
  }

  lemma ResultGivesBack(cfg: Config, s: System, st: Step, b: Actor)
    requires st.StoreResult? && Enabled(cfg, s, st)
    ensures GivesBackFrom(s, Apply(cfg, s, st), st, b)
  {
  }

  lemma FinishGivesBack(cfg: Config, s: System, st: Step, b: Actor)
    requires FinishStep(st) && !st.StoreResult? && Enabled(cfg, s, st) && (ActorOf(st).Some? ==> true)
    ensures GivesBackFrom(s, Apply(cfg, s, st), st, b)
  {
  }

  lemma PickGivesBack(cfg: Config, s: System, st: Step, b: Actor)
    requires PickStep(st) && Enabled(cfg, s, st)
    ensures GivesBackFrom(s, Apply(cfg, s, st), st, b)
  {
  }

  lemma CleanerGivesBack(cfg: Config, s: System, st: Step, b: Actor)
    requires (st.CleanerStores? || st.CleanerGivesUp?) && Enabled(cfg, s, st)
    ensures GivesBackFrom(s, Apply(cfg, s, st), st, b)
  {
  }

  lemma DeleterGivesBack(cfg: Config, s: System, st: Step, b: Actor)
    requires DeleterStep(st) && Enabled(cfg, s, st)
    ensures GivesBackFrom(s, Apply(cfg, s, st), st, b)
  {
  }

  lemma LostNodeGivesBack(cfg: Config, s: System, st: Step, b: Actor)
    requires LostNodeStep(st) && Enabled(cfg, s, st)
    ensures GivesBackFrom(s, Apply(cfg, s, st), st, b)
  {
  }

  lemma LostGivesBack(cfg: Config, s: System, st: Step, b: Actor)
    requires (st.LockLost? || st.ReadLost?) && Enabled(cfg, s, st)
    ensures GivesBackFrom(s, Apply(cfg, s, st), st, b)
  {
  }

  lemma StoreLostGivesBack(cfg: Config, s: System, st: Step, b: Actor)
    requires st.StoreLost? && Enabled(cfg, s, st)
    ensures GivesBackFrom(s, Apply(cfg, s, st), st, b)
  {
  }

  lemma ConsumerGivesBack(cfg: Config, s: System, st: Step, b: Actor)
    requires ConsumerStep(st) && Enabled(cfg, s, st)
    ensures GivesBackFrom(s, Apply(cfg, s, st), st, b)
  {
  }

  lemma StepGivesBackFrom(cfg: Config, s: System, st: Step, b: Actor)
    requires Enabled(cfg, s, st)
    ensures GivesBackFrom(s, Apply(cfg, s, st), st, b)
  {
    hide Enabled;
    hide Apply;
    hide GivesBackFrom;
    if RequestorStep(st) {
      RequestorGivesBack(cfg, s, st, b);
    } else if TakeStep(st) {
      TakeGivesBack(cfg, s, st, b);
    } else if st.StorePending? {
      StorePendingGivesBack(cfg, s, st, b);
    } else if ReuseStep(st) {
      ReuseGivesBack(cfg, s, st, b);
    } else if CreateStep(st) {
      CreateGivesBack(cfg, s, st, b);
    } else if LaunchStep(st) {
      LaunchGivesBack(cfg, s, st, b);
    } else if st.StoreResult? {
      ResultGivesBack(cfg, s, st, b);
    } else if FinishStep(st) {
      FinishGivesBack(cfg, s, st, b);
    } else if PickStep(st) {
      PickGivesBack(cfg, s, st, b);
    } else if st.CleanerStores? || st.CleanerGivesUp? {
      CleanerGivesBack(cfg, s, st, b);
    } else if DeleterStep(st) {
      DeleterGivesBack(cfg, s, st, b);
    } else if LostNodeStep(st) {
      LostNodeGivesBack(cfg, s, st, b);
    } else if st.LockLost? || st.ReadLost? {
      LostGivesBack(cfg, s, st, b);
    } else if st.StoreLost? {
      StoreLostGivesBack(cfg, s, st, b);
    } else {
      ConsumerGivesBack(cfg, s, st, b);
    }
  }

  lemma StepKeepsGivenBack(cfg: Config, s: System, st: Step, a: Actor)
    requires Inv(cfg, s) && Enabled(cfg, s, st) && GivenBack(s, a)
    ensures GivenBack(Apply(cfg, s, st), a)
  {
    hide Inv;
    hide Enabled;
    hide Apply;
    StepGivesBackFrom(cfg, s, st, a);
    AllocationSteps.Own(cfg, s, a);
    if ActorOf(st).Some? {
      AllocationSteps.Own(cfg, s, ActorOf(st).value);
    }
    hide DataOk;
    var s', l := Apply(cfg, s, st), LocalOf(s, a);
    if l.Releasing? {
      forall n | n in l.nodeset && n !in l.held && n in s.nodes && s.nodes[n].owner != Some(l.req)
        ensures n in s'.nodes && s'.nodes[n].owner != Some(l.req)
      {
        OnlyHoldersAllocate(cfg, s, st, n);
      }
    }
  }

  lemma {:induction false} RunKeepsGivenBack(cfg: Config, s: System, steps: seq<Step>, a: Actor)
    requires Inv(cfg, s) && GivenBack(s, a) && Runs(cfg, s, steps)
    ensures GivenBack(After(cfg, s, steps), a)
    decreases |steps|
  {
    hide Inv;
    hide Enabled;
    hide Apply;
    hide GivenBack;
    if steps != [] {
      StepKeepsGivenBack(cfg, s, steps[0], a);
      AllocationSteps.StepKeepsInv(cfg, s, steps[0]);
      RunKeepsGivenBack(cfg, Apply(cfg, s, steps[0]), steps[1..], a);
    }
  }

  // A handler that raises gives up, whatever it was doing, and so does one whose request
  // disappears before it has begun.
  lemma RaisingGivesUp(cfg: Config, s: System, a: Actor)
    requires Enabled(cfg, s, Fault(a))
    ensures var l, l' := LocalOf(s, a), LocalOf(Apply(cfg, s, Fault(a)), a);
            l'.Releasing? && l'.req == l.req && l'.nodeset == l.nodeset == l'.held && l'.plan.ClearAndDecline?
  {
  }

  lemma VanishingGivesUp(cfg: Config, s: System, a: Actor)
    requires Enabled(cfg, s, StorePending(a))
    ensures var l, l' := LocalOf(s, a), LocalOf(Apply(cfg, s, StorePending(a)), a);
            if Exists(s, l.req) then l'.Working? && l'.req == l.req && l'.nodeset == {} && l'.op.NoOp?
            else l'.Releasing? && l'.req == l.req && l'.nodeset == {} && l'.plan.ClearAndDecline?
  {
  }

  // What a handler was launching when it gave up goes on without it: the node, free and
  // unallocated, still becomes what its launch makes of it.
  lemma AbandonedLaunchesGoOn(cfg: Config, s: System, a: Actor, n: NodeId, state: NodeState)
    requires var l := LocalOf(s, a); l.Releasing? && n in l.held
    requires n in s.nodes && s.nodes[n] == Node(BUILDING, None) && Launching(state)
    ensures Runs(cfg, s, [Release(a, n), OrphanStores(n, state)]) <==> LocalOf(s, a).plan.ClearAndDecline? || n in s.orphans
    ensures Runs(cfg, s, [Release(a, n), OrphanStores(n, state)]) ==>
              var t := After(cfg, s, [Release(a, n), OrphanStores(n, state)]);
              n in t.nodes && t.nodes[n] == Node(state, None) && Free(t, n) && (n in t.orphans <==> state.BUILDING?)
  {
    AllocationSteps.ReleaseIs(cfg, s, a, n);
    TwoSteps(cfg, s, Release(a, n), OrphanStores(n, state));
    hide Runs;
    hide After;
  }

  lemma TwoSteps(cfg: Config, s: System, first: Step, second: Step)
    requires Enabled(cfg, s, first)
    ensures Runs(cfg, s, [first, second]) <==> Enabled(cfg, Apply(cfg, s, first), second)
    ensures Runs(cfg, s, [first, second]) ==> After(cfg, s, [first, second]) == Apply(cfg, Apply(cfg, s, first), second)
  {
    hide Enabled;
    hide Apply;
    var s1 := Apply(cfg, s, first);
    assert [first, second][1..] == [second] && [second][1..] == [];
    assert Runs(cfg, s1, [second]) <==> Enabled(cfg, s1, second);
    if Enabled(cfg, s1, second) {
      assert After(cfg, s1, [second]) == Apply(cfg, s1, second);
    }
  }

  // A handler that gave up on an existing request leaves it open to the other pools, or
  // FAILED if they have all declined, with its lock given back and nothing else changed.
  lemma DecliningReopens(cfg: Config, steps: seq<Step>, a: Actor)
    requires Runs(cfg, Empty(), steps) && Enabled(cfg, After(cfg, Empty(), steps), StoreResult(a))
    requires var s := After(cfg, Empty(), steps); var l := LocalOf(s, a);
             (l.plan.Decline? || l.plan.ClearAndDecline?) && Exists(s, l.req)
    ensures var s := After(cfg, Empty(), steps); var s' := Apply(cfg, s, StoreResult(a)); var r := LocalOf(s, a).req;
            && Exists(s', r) && r !in s'.requestLock && LocalOf(s', a).Idle?
            && s'.requests[r].declinedBy == s.requests[r].declinedBy + {cfg.poolOf(a)}
            && s'.requests[r].nodes == s.requests[r].nodes
            && (if forall p :: p in cfg.registered ==> p in s'.requests[r].declinedBy then s'.requests[r].state.REQUEST_FAILED?
                else s'.requests[r].state.REQUESTED?)
            && s'.nodes == s.nodes && s'.nodeLock == s.nodeLock
            && forall q :: q in s.requests && q != r ==> q in s'.requests && s'.requests[q] == s.requests[q]
  {
    var s := After(cfg, Empty(), steps);
    ReachableIsOk(cfg, steps);
    hide Runs;
    hide After;
    Declines(cfg, s, a);
  }

  lemma Declines(cfg: Config, s: System, a: Actor)
    requires Inv(cfg, s) && Enabled(cfg, s, StoreResult(a))
    requires var l := LocalOf(s, a); (l.plan.Decline? || l.plan.ClearAndDecline?) && Exists(s, l.req)
    ensures var l := LocalOf(s, a); var s' := Apply(cfg, s, StoreResult(a));
            && s.requests[l.req] == l.copy
            && s' == Goes(UnlockR(PutR(s, l.req, Declined(cfg, l.copy, cfg.poolOf(a))), l.req), a, Idle)
  {
    AllocationSteps.Own(cfg, s, a);
  }

  // By the time a handler that gave up declines its request, or forgets it, no node of its
  // set is allocated to the request any more.
  lemma GivingUpGivesBack(cfg: Config, steps: seq<Step>, a: Actor)
    requires Runs(cfg, Empty(), steps) && Enabled(cfg, After(cfg, Empty(), steps), StoreResult(a))
    requires Clears(LocalOf(After(cfg, Empty(), steps), a).plan)
    ensures var s := After(cfg, Empty(), steps); var l := LocalOf(s, a);
            forall n :: n in l.nodeset ==> n in s.nodes && s.nodes[n].owner != Some(l.req)
  {
    RunKeepsGivenBack(cfg, Empty(), steps, a);
  }
}
