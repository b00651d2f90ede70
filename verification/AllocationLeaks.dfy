/**
 Locks nobody remembers: of nodes and of requests; and, step by step, how nodes grow out of
 INIT and node sets grow.
 */
module AllocationLeaks {
  import opened Wrappers
  import opened Allocation
  import opened AllocationProofs
  import opened AllocationTheorems
  import AllocationSteps

  // ---------------------------------------------------------------- stray locks

  // The holder of the lock does not know that it has it.
  predicate Stray(s: System, n: NodeId) { n in s.nodeLock && n !in HoldsN(LocalOf(s, s.nodeLock[n])) }

  // A handler raises with a node locked but not yet in its set.
  predicate RaisesHolding(s: System, st: Step, n: NodeId) {
    st.Fault? && LocalOf(s, st.actor).Working? && n !in LocalOf(s, st.actor).nodeset && n in HoldsN(LocalOf(s, st.actor))
  }

  predicate Frees(s: System, st: Step, n: NodeId) { st.Expire? && n in s.nodeLock && s.nodeLock[n] in st.dead }

  predicate TakeStep(st: Step) { st.TakeRequest? || st.ReadRequest? }

  predicate ReuseStep(st: Step) { st.LockReady? || st.ReadReady? || st.StoreReady? }

  lemma TakeStrays(cfg: Config, s: System, st: Step, n: NodeId)
    requires (TakeStep(st) || st.StorePending?) && Enabled(cfg, s, st) && LocksOk(s, st.actor) && DataOk(cfg, s, st.actor)
    ensures Stray(Apply(cfg, s, st), n) <==> Stray(s, n)
  {
  }

  lemma ReuseStrays(cfg: Config, s: System, st: Step, n: NodeId)
    requires ReuseStep(st) && Enabled(cfg, s, st) && LocksOk(s, st.actor) && DataOk(cfg, s, st.actor)
    ensures Stray(Apply(cfg, s, st), n) <==> Stray(s, n)
  {
  }

  predicate CreateStep(st: Step) { st.StoreInit? || st.LockInit? || st.StoreBuilding? }

  lemma CreateStrays(cfg: Config, s: System, st: Step, n: NodeId)
    requires CreateStep(st) && Enabled(cfg, s, st) && LocksOk(s, st.actor) && DataOk(cfg, s, st.actor)
    ensures Stray(Apply(cfg, s, st), n) <==> Stray(s, n)
  {
  }

  lemma LaunchStrays(cfg: Config, s: System, st: Step, n: NodeId)
    requires LaunchStep(st) && !CreateStep(st) && Enabled(cfg, s, st) && LocksOk(s, st.actor) && DataOk(cfg, s, st.actor)
    ensures Stray(Apply(cfg, s, st), n) <==> Stray(s, n) || RaisesHolding(s, st, n)
  {
  }

  lemma FinishStrays(cfg: Config, s: System, st: Step, n: NodeId)
    requires (st.Finish? || st.ClearOwner?) && Enabled(cfg, s, st) && LocksOk(s, st.actor)
    ensures Stray(Apply(cfg, s, st), n) <==> Stray(s, n)
  {
  }

  lemma ReleaseStrays(cfg: Config, s: System, st: Step, n: NodeId)
    requires (st.Release? || st.StoreResult?) && Enabled(cfg, s, st) && LocksOk(s, st.actor)
    ensures Stray(Apply(cfg, s, st), n) <==> Stray(s, n)
  {
  }

  lemma OrphanStrays(cfg: Config, s: System, st: Step, n: NodeId)
    requires st.OrphanStores? && Enabled(cfg, s, st)
    ensures Stray(Apply(cfg, s, st), n) <==> Stray(s, n)
  {
  }

  predicate PickStep(st: Step) { st.CleanerLocks? || st.CleanerReads? }

  lemma PickStrays(cfg: Config, s: System, st: Step, n: NodeId)
    requires PickStep(st) && Enabled(cfg, s, st) && LocksOk(s, st.actor)
    ensures Stray(Apply(cfg, s, st), n) <==> Stray(s, n)
  {
  }

  lemma StoreStrays(cfg: Config, s: System, st: Step, n: NodeId)
    requires st.CleanerStores? && Enabled(cfg, s, st) && LocksOk(s, st.actor)
    ensures Stray(Apply(cfg, s, st), n) <==> Stray(s, n)
  {
  }

  lemma GiveUpStrays(cfg: Config, s: System, st: Step, n: NodeId)
    requires st.CleanerGivesUp? && Enabled(cfg, s, st) && LocksOk(s, st.actor)
    ensures Stray(Apply(cfg, s, st), n) <==> Stray(s, n)
  {
  }

  lemma MarkStrays(cfg: Config, s: System, st: Step, n: NodeId)
    requires st.DeleterMarks? && Enabled(cfg, s, st) && LocksOk(s, st.actor)
    ensures Stray(Apply(cfg, s, st), n) <==> Stray(s, n)
  {
  }

  lemma RemoveStrays(cfg: Config, s: System, st: Step, n: NodeId)
    requires (st.DeleterRemovesLock? || st.DeleterRemovesNode?) && Enabled(cfg, s, st) && LocksOk(s, st.actor)
    ensures Stray(Apply(cfg, s, st), n) <==> Stray(s, n)
  {
  }

  predicate LostNodeStep(st: Step) { st.LockLostNode? || st.ReadLostNode? || st.StoreLostNode? }

  lemma LockLostStrays(cfg: Config, s: System, st: Step, n: NodeId)
    requires st.LockLostNode? && Enabled(cfg, s, st) && LocksOk(s, st.actor)
    ensures Stray(Apply(cfg, s, st), n) <==> Stray(s, n)
  {
  }

  lemma ReadLostNodeStrays(cfg: Config, s: System, st: Step, n: NodeId)
    requires st.ReadLostNode? && Enabled(cfg, s, st) && LocksOk(s, st.actor)
    ensures Stray(Apply(cfg, s, st), n) <==> Stray(s, n)
  {
  }

  lemma StoreLostNodeStrays(cfg: Config, s: System, st: Step, n: NodeId)
    requires st.StoreLostNode? && Enabled(cfg, s, st) && LocksOk(s, st.actor)
    ensures Stray(Apply(cfg, s, st), n) <==> Stray(s, n)
  {
  }

  lemma LostStrays(cfg: Config, s: System, st: Step, n: NodeId)
    requires LostStep(st) && !LostNodeStep(st) && Enabled(cfg, s, st) && LocksOk(s, st.actor)
    ensures Stray(Apply(cfg, s, st), n) <==> Stray(s, n)
  {
  }

  lemma ConsumerStrays(cfg: Config, s: System, st: Step, n: NodeId)
    requires ConsumerStep(st) && Enabled(cfg, s, st) && LocksOk(s, st.actor)
    ensures Stray(Apply(cfg, s, st), n) <==> Stray(s, n)
  {
  }

  lemma RequestorStrays(cfg: Config, s: System, st: Step, n: NodeId)
    requires RequestorStep(st) && Enabled(cfg, s, st)
    ensures Stray(Apply(cfg, s, st), n) <==> Stray(s, n) && !Frees(s, st, n)
  {
  }

  lemma OtherStrays(cfg: Config, s: System, st: Step, n: NodeId)
    requires RequestorStep(st) || FinishStep(st) || ConsumerStep(st)
    requires Enabled(cfg, s, st) && (ActorOf(st).Some? ==> LocksOk(s, ActorOf(st).value))
    ensures Stray(Apply(cfg, s, st), n) <==> Stray(s, n) && !Frees(s, st, n)
  {
    hide Enabled;
    hide Apply;
    hide Stray;
    hide LocksOk;
    if RequestorStep(st) {
      RequestorStrays(cfg, s, st, n);
    } else if st.OrphanStores? {
      OrphanStrays(cfg, s, st, n);
    } else if st.Finish? || st.ClearOwner? {
      FinishStrays(cfg, s, st, n);
    } else if FinishStep(st) {
      ReleaseStrays(cfg, s, st, n);
    } else {
      ConsumerStrays(cfg, s, st, n);
    }
  }

  lemma WorkerStrays(cfg: Config, s: System, st: Step, n: NodeId)
    requires CleanerStep(st) || LostStep(st)
    requires Enabled(cfg, s, st) && LocksOk(s, st.actor)
    ensures Stray(Apply(cfg, s, st), n) <==> Stray(s, n)
  {
    hide Enabled;
    hide Apply;
    hide Stray;
    hide LocksOk;
    if PickStep(st) {
      PickStrays(cfg, s, st, n);
    } else if st.DeleterMarks? {
      MarkStrays(cfg, s, st, n);
    } else if DeleterStep(st) {
      RemoveStrays(cfg, s, st, n);
    } else if st.CleanerStores? {
      StoreStrays(cfg, s, st, n);
    } else if st.CleanerGivesUp? {
      GiveUpStrays(cfg, s, st, n);
    } else if st.LockLostNode? {
      LockLostStrays(cfg, s, st, n);
    } else if st.ReadLostNode? {
      ReadLostNodeStrays(cfg, s, st, n);
    } else if st.StoreLostNode? {
      StoreLostNodeStrays(cfg, s, st, n);
    } else {
      LostStrays(cfg, s, st, n);
    }
  }

  lemma HandlerStrays(cfg: Config, s: System, st: Step, n: NodeId)
    requires HandlerStep(st) || LaunchStep(st)
    requires Enabled(cfg, s, st) && LocksOk(s, st.actor) && DataOk(cfg, s, st.actor)
    ensures Stray(Apply(cfg, s, st), n) <==> Stray(s, n) || RaisesHolding(s, st, n)
  {
    hide Enabled;
    hide Apply;
    hide Stray;
    hide LocksOk;
    hide DataOk;
    if TakeStep(st) || st.StorePending? {
      TakeStrays(cfg, s, st, n);
    } else if ReuseStep(st) {
      ReuseStrays(cfg, s, st, n);
    } else if CreateStep(st) {
      CreateStrays(cfg, s, st, n);
    } else {
      LaunchStrays(cfg, s, st, n);
    }
  }

  // A lock is forgotten exactly when its handler raises between locking a node and adding
  // it to its set, and stays so until the session ends; every other step gives back what it
  // no longer needs.
  lemma StraysIff(cfg: Config, s: System, st: Step, n: NodeId)
    requires Inv(cfg, s) && Enabled(cfg, s, st)
    ensures Stray(Apply(cfg, s, st), n) <==> (Stray(s, n) && !Frees(s, st, n)) || RaisesHolding(s, st, n)
  {
    hide Inv;
    hide Enabled;
    hide Apply;
    hide Stray;
    hide LocksOk;
    hide DataOk;
    if ActorOf(st).Some? {
      AllocationSteps.Own(cfg, s, ActorOf(st).value);
    }
    if HandlerStep(st) || LaunchStep(st) {
      HandlerStrays(cfg, s, st, n);
    } else if CleanerStep(st) || LostStep(st) {
      WorkerStrays(cfg, s, st, n);
    } else {
      OtherStrays(cfg, s, st, n);
    }
  }

  // Over whole runs: without such a raise every lock is one its holder knows of.
  ghost predicate NeverRaisesHolding(cfg: Config, s: System, steps: seq<Step>, n: NodeId)
    requires Runs(cfg, s, steps)
    decreases |steps|
  {
    steps == [] || (!RaisesHolding(s, steps[0], n) && NeverRaisesHolding(cfg, Apply(cfg, s, steps[0]), steps[1..], n))
  }

  lemma {:induction false} RunStrays(cfg: Config, s: System, steps: seq<Step>, n: NodeId)
    requires Inv(cfg, s) && Runs(cfg, s, steps) && NeverRaisesHolding(cfg, s, steps, n) && !Stray(s, n)
    ensures !Stray(After(cfg, s, steps), n)
    decreases |steps|
  {
    hide Inv;
    hide Enabled;
    hide Apply;
    hide Stray;
    hide RaisesHolding;
    if steps != [] {
      StraysIff(cfg, s, steps[0], n);
      AllocationSteps.StepKeepsInv(cfg, s, steps[0]);
      RunStrays(cfg, Apply(cfg, s, steps[0]), steps[1..], n);
    }
  }

  lemma LocksAreKnown(cfg: Config, steps: seq<Step>, n: NodeId)
    requires Runs(cfg, Empty(), steps) && NeverRaisesHolding(cfg, Empty(), steps, n)
    ensures var s := After(cfg, Empty(), steps); n in s.nodeLock ==> n in HoldsN(LocalOf(s, s.nodeLock[n]))
  {
    RunStrays(cfg, Empty(), steps, n);
  }

  // ---------------------------------------------------------------- request locks

  // A request's lock is known to its holder, or the request does not exist any more.
  predicate RequestLockOk(s: System, r: RequestId) {
    r in s.requestLock ==> r in s.requests && (HoldsR(LocalOf(s, s.requestLock[r])) == Some(r) || !Exists(s, r))
  }

  lemma RequestorKeepsRequestLock(cfg: Config, s: System, st: Step, r: RequestId)
    requires RequestorStep(st) && Enabled(cfg, s, st) && RequestLockOk(s, r)
    ensures RequestLockOk(Apply(cfg, s, st), r)
  {
  }

  lemma TakeKeepsRequestLock(cfg: Config, s: System, st: Step, r: RequestId)
    requires TakeStep(st) && Enabled(cfg, s, st) && RequestLockOk(s, r) && LocksOk(s, st.actor)
    ensures RequestLockOk(Apply(cfg, s, st), r)
  {
  }

  lemma StorePendingKeepsRequestLock(cfg: Config, s: System, st: Step, r: RequestId)
    requires st.StorePending? && Enabled(cfg, s, st) && RequestLockOk(s, r) && LocksOk(s, st.actor)
    ensures RequestLockOk(Apply(cfg, s, st), r)
  {
  }

  lemma ReuseKeepsRequestLock(cfg: Config, s: System, st: Step, r: RequestId)
    requires ReuseStep(st) && Enabled(cfg, s, st) && RequestLockOk(s, r) && LocksOk(s, st.actor)
    ensures RequestLockOk(Apply(cfg, s, st), r)
  {
  }

  lemma CreateKeepsRequestLock(cfg: Config, s: System, st: Step, r: RequestId)
    requires CreateStep(st) && Enabled(cfg, s, st) && RequestLockOk(s, r) && LocksOk(s, st.actor)
    ensures RequestLockOk(Apply(cfg, s, st), r)
  {
  }

  lemma LaunchKeepsRequestLock(cfg: Config, s: System, st: Step, r: RequestId)
    requires LaunchStep(st) && !CreateStep(st) && Enabled(cfg, s, st) && RequestLockOk(s, r) && LocksOk(s, st.actor)
    ensures RequestLockOk(Apply(cfg, s, st), r)
  {
  }

  lemma ResultKeepsRequestLock(cfg: Config, s: System, st: Step, r: RequestId)
    requires st.StoreResult? && Enabled(cfg, s, st) && RequestLockOk(s, r) && LocksOk(s, st.actor)
    ensures RequestLockOk(Apply(cfg, s, st), r)
  {
  }

  lemma FinishKeepsRequestLock(cfg: Config, s: System, st: Step, r: RequestId)
    requires FinishStep(st) && !st.StoreResult? && Enabled(cfg, s, st) && RequestLockOk(s, r) && (ActorOf(st).Some? ==> LocksOk(s, ActorOf(st).value))
    ensures RequestLockOk(Apply(cfg, s, st), r)
  {
  }

  lemma PickKeepsRequestLock(cfg: Config, s: System, st: Step, r: RequestId)
    requires PickStep(st) && Enabled(cfg, s, st) && RequestLockOk(s, r) && LocksOk(s, st.actor)
    ensures RequestLockOk(Apply(cfg, s, st), r)
  {
  }

  lemma CleanerKeepsRequestLock(cfg: Config, s: System, st: Step, r: RequestId)
    requires (st.CleanerStores? || st.CleanerGivesUp?) && Enabled(cfg, s, st) && RequestLockOk(s, r) && LocksOk(s, st.actor)
    ensures RequestLockOk(Apply(cfg, s, st), r)
  {
  }

  lemma DeleterKeepsRequestLock(cfg: Config, s: System, st: Step, r: RequestId)
    requires DeleterStep(st) && Enabled(cfg, s, st) && RequestLockOk(s, r) && LocksOk(s, st.actor)
    ensures RequestLockOk(Apply(cfg, s, st), r)
  {
  }

  lemma LockLostNodeKeepsRequestLock(cfg: Config, s: System, st: Step, r: RequestId)
    requires st.LockLostNode? && Enabled(cfg, s, st) && RequestLockOk(s, r) && LocksOk(s, st.actor)
    ensures RequestLockOk(Apply(cfg, s, st), r)
  {
  }

  lemma ReadLostNodeKeepsRequestLock(cfg: Config, s: System, st: Step, r: RequestId)
    requires st.ReadLostNode? && Enabled(cfg, s, st) && RequestLockOk(s, r) && LocksOk(s, st.actor)
    ensures RequestLockOk(Apply(cfg, s, st), r)
  {
  }

  lemma StoreLostNodeKeepsRequestLock(cfg: Config, s: System, st: Step, r: RequestId)
    requires st.StoreLostNode? && Enabled(cfg, s, st) && RequestLockOk(s, r) && LocksOk(s, st.actor)
    ensures RequestLockOk(Apply(cfg, s, st), r)
  {
  }

  lemma LockLostKeepsRequestLock(cfg: Config, s: System, st: Step, r: RequestId)
    requires st.LockLost? && Enabled(cfg, s, st) && RequestLockOk(s, r) && LocksOk(s, st.actor)
    ensures RequestLockOk(Apply(cfg, s, st), r)
  {
  }

  lemma ReadLostKeepsRequestLock(cfg: Config, s: System, st: Step, r: RequestId)
    requires st.ReadLost? && Enabled(cfg, s, st) && RequestLockOk(s, r) && LocksOk(s, st.actor)
    ensures RequestLockOk(Apply(cfg, s, st), r)
  {
  }

  lemma StoreLostKeepsRequestLock(cfg: Config, s: System, st: Step, r: RequestId)
    requires st.StoreLost? && Enabled(cfg, s, st) && RequestLockOk(s, r) && LocksOk(s, st.actor)
    ensures RequestLockOk(Apply(cfg, s, st), r)
  {
  }

  lemma LostKeepsRequestLock(cfg: Config, s: System, st: Step, r: RequestId)
    requires LostStep(st) && Enabled(cfg, s, st) && RequestLockOk(s, r) && LocksOk(s, st.actor)
    ensures RequestLockOk(Apply(cfg, s, st), r)
  {
    hide Enabled;
    hide Apply;
    hide RequestLockOk;
    hide LocksOk;
    if st.LockLostNode? {
      LockLostNodeKeepsRequestLock(cfg, s, st, r);
    } else if st.LockLost? {
      LockLostKeepsRequestLock(cfg, s, st, r);
    } else if st.ReadLost? {
      ReadLostKeepsRequestLock(cfg, s, st, r);
    } else if st.StoreLost? {
      StoreLostKeepsRequestLock(cfg, s, st, r);
    } else if st.ReadLostNode? {
      ReadLostNodeKeepsRequestLock(cfg, s, st, r);
    } else {
      StoreLostNodeKeepsRequestLock(cfg, s, st, r);
    }
  }

  lemma ConsumerKeepsRequestLock(cfg: Config, s: System, st: Step, r: RequestId)
    requires ConsumerStep(st) && Enabled(cfg, s, st) && RequestLockOk(s, r) && LocksOk(s, st.actor)
    ensures RequestLockOk(Apply(cfg, s, st), r)
  {
  }

  lemma StepKeepsRequestLock(cfg: Config, s: System, st: Step, r: RequestId)
    requires Inv(cfg, s) && Enabled(cfg, s, st) && RequestLockOk(s, r)
    ensures RequestLockOk(Apply(cfg, s, st), r)
  {
    hide Inv;
    hide Enabled;
    hide Apply;
    hide RequestLockOk;
    if ActorOf(st).Some? {
      AllocationSteps.Own(cfg, s, ActorOf(st).value);
    }
    hide LocksOk;
    hide DataOk;
    if RequestorStep(st) {
      RequestorKeepsRequestLock(cfg, s, st, r);
    } else if TakeStep(st) {
      TakeKeepsRequestLock(cfg, s, st, r);
    } else if st.StorePending? {
      StorePendingKeepsRequestLock(cfg, s, st, r);
    } else if ReuseStep(st) {
      ReuseKeepsRequestLock(cfg, s, st, r);
    } else if CreateStep(st) {
      CreateKeepsRequestLock(cfg, s, st, r);
    } else if LaunchStep(st) {
      LaunchKeepsRequestLock(cfg, s, st, r);
    } else if st.StoreResult? {
      ResultKeepsRequestLock(cfg, s, st, r);
    } else if FinishStep(st) {
      FinishKeepsRequestLock(cfg, s, st, r);
    } else if PickStep(st) {
      PickKeepsRequestLock(cfg, s, st, r);
    } else if st.CleanerStores? || st.CleanerGivesUp? {
      CleanerKeepsRequestLock(cfg, s, st, r);
    } else if DeleterStep(st) {
      DeleterKeepsRequestLock(cfg, s, st, r);
    } else if LostStep(st) {
      LostKeepsRequestLock(cfg, s, st, r);
    } else {
      ConsumerKeepsRequestLock(cfg, s, st, r);
    }
  }

  lemma {:induction false} RunKeepsRequestLock(cfg: Config, s: System, steps: seq<Step>, r: RequestId)
    requires Inv(cfg, s) && Runs(cfg, s, steps) && RequestLockOk(s, r)
    ensures RequestLockOk(After(cfg, s, steps), r)
    decreases |steps|
  {
    hide Inv;
    hide Enabled;
    hide Apply;
    hide RequestLockOk;
    if steps != [] {
      StepKeepsRequestLock(cfg, s, steps[0], r);
      AllocationSteps.StepKeepsInv(cfg, s, steps[0]);
      RunKeepsRequestLock(cfg, Apply(cfg, s, steps[0]), steps[1..], r);
    }
  }

  // No existing request is locked by somebody who is done with it.
  lemma RequestLocksAreKnown(cfg: Config, steps: seq<Step>, r: RequestId)
    requires Runs(cfg, Empty(), steps)
    ensures var s := After(cfg, Empty(), steps);
            r in s.requestLock && Exists(s, r) ==> HoldsR(LocalOf(s, s.requestLock[r])) == Some(r)
  {
    RunKeepsRequestLock(cfg, Empty(), steps, r);
  }

  // ---------------------------------------------------------------- new nodes

  // What a step makes of a node, as to its being new: nodes stay, none becomes new again,
  // and a new one stays allocated.
  predicate AgesOk(s: System, s': System, n: NodeId) {
    && (n in s.nodes ==> n in s'.nodes)
    && (n in s'.nodes && s'.nodes[n].state.INIT? ==>
          s'.nodes[n].owner.Some? && (n in s.nodes ==> s.nodes[n].state.INIT?))
  }

  predicate Aged(s: System, n: NodeId) { n in s.nodes && !s.nodes[n].state.INIT? }

  // A set's nodes, and those of a fulfilled request, are past their first state.
  predicate SetAged(s: System, a: Actor) { forall n :: n in Nodeset(LocalOf(s, a)) ==> Aged(s, n) }

  predicate RequestAged(s: System, r: RequestId) {
    Exists(s, r) && s.requests[r].state.FULFILLED? ==> forall n :: n in s.requests[r].nodes ==> Aged(s, n)
  }

  predicate NewIsOwned(s: System, n: NodeId) { n in s.nodes && s.nodes[n].state.INIT? ==> s.nodes[n].owner.Some? }

  lemma RequestorAges(cfg: Config, s: System, st: Step, n: NodeId)
    requires RequestorStep(st) && Enabled(cfg, s, st) && NewIsOwned(s, n) && (st.Retire? ==> RequestAged(s, st.req))
    ensures AgesOk(s, Apply(cfg, s, st), n)
  {
  }

  lemma TakeAges(cfg: Config, s: System, st: Step, n: NodeId)
    requires TakeStep(st) && Enabled(cfg, s, st) && NewIsOwned(s, n) && DataOk(cfg, s, st.actor) && SetAged(s, st.actor)
    ensures AgesOk(s, Apply(cfg, s, st), n)
  {
  }

  lemma StorePendingAges(cfg: Config, s: System, st: Step, n: NodeId)
    requires st.StorePending? && Enabled(cfg, s, st) && NewIsOwned(s, n) && DataOk(cfg, s, st.actor) && SetAged(s, st.actor)
    ensures AgesOk(s, Apply(cfg, s, st), n)
  {
  }

  lemma ReuseAges(cfg: Config, s: System, st: Step, n: NodeId)
    requires ReuseStep(st) && Enabled(cfg, s, st) && NewIsOwned(s, n) && DataOk(cfg, s, st.actor) && SetAged(s, st.actor)
    ensures AgesOk(s, Apply(cfg, s, st), n)
  {
  }

  lemma CreateAges(cfg: Config, s: System, st: Step, n: NodeId)
    requires CreateStep(st) && Enabled(cfg, s, st) && NewIsOwned(s, n) && DataOk(cfg, s, st.actor) && SetAged(s, st.actor)
    ensures AgesOk(s, Apply(cfg, s, st), n)
  {
  }

  lemma LaunchAges(cfg: Config, s: System, st: Step, n: NodeId)
    requires LaunchStep(st) && !CreateStep(st) && Enabled(cfg, s, st) && NewIsOwned(s, n) && DataOk(cfg, s, st.actor) && SetAged(s, st.actor)
    ensures AgesOk(s, Apply(cfg, s, st), n)
  {
  }

  lemma ResultAges(cfg: Config, s: System, st: Step, n: NodeId)
    requires st.StoreResult? && Enabled(cfg, s, st) && NewIsOwned(s, n) && DataOk(cfg, s, st.actor) && SetAged(s, st.actor)
    ensures AgesOk(s, Apply(cfg, s, st), n)
  {
  }

  lemma FinishAges(cfg: Config, s: System, st: Step, n: NodeId)
    requires FinishStep(st) && !st.StoreResult? && Enabled(cfg, s, st) && NewIsOwned(s, n) && (ActorOf(st).Some? ==> DataOk(cfg, s, ActorOf(st).value) && SetAged(s, ActorOf(st).value))
    ensures AgesOk(s, Apply(cfg, s, st), n)
  {
    assert st.ClearOwner? ==> st.node in Nodeset(LocalOf(s, st.actor));
  }

  lemma PickAges(cfg: Config, s: System, st: Step, n: NodeId)
    requires PickStep(st) && Enabled(cfg, s, st) && NewIsOwned(s, n) && DataOk(cfg, s, st.actor) && SetAged(s, st.actor)
    ensures AgesOk(s, Apply(cfg, s, st), n)
  {
  }

  lemma CleanerAges(cfg: Config, s: System, st: Step, n: NodeId)
    requires (st.CleanerStores? || st.CleanerGivesUp?) && Enabled(cfg, s, st) && NewIsOwned(s, n) && DataOk(cfg, s, st.actor) && SetAged(s, st.actor)
    ensures AgesOk(s, Apply(cfg, s, st), n)
  {
  }

  lemma DeleterAges(cfg: Config, s: System, st: Step, n: NodeId)
    requires DeleterStep(st) && Enabled(cfg, s, st) && NewIsOwned(s, n) && DataOk(cfg, s, st.actor) && SetAged(s, st.actor)
    ensures AgesOk(s, Apply(cfg, s, st), n)
  {
  }

  lemma LostNodeAges(cfg: Config, s: System, st: Step, n: NodeId)
    requires LostNodeStep(st) && Enabled(cfg, s, st) && NewIsOwned(s, n) && DataOk(cfg, s, st.actor) && SetAged(s, st.actor)
    ensures AgesOk(s, Apply(cfg, s, st), n)
  {
  }

  lemma LostAges(cfg: Config, s: System, st: Step, n: NodeId)
    requires (st.LockLost? || st.ReadLost?) && Enabled(cfg, s, st) && NewIsOwned(s, n) && DataOk(cfg, s, st.actor) && SetAged(s, st.actor)
    ensures AgesOk(s, Apply(cfg, s, st), n)
  {
  }

  lemma StoreLostAges(cfg: Config, s: System, st: Step, n: NodeId)
    requires st.StoreLost? && Enabled(cfg, s, st) && NewIsOwned(s, n) && DataOk(cfg, s, st.actor) && SetAged(s, st.actor)
    ensures AgesOk(s, Apply(cfg, s, st), n)
  {
  }

  lemma ConsumerAges(cfg: Config, s: System, st: Step, n: NodeId)
    requires ConsumerStep(st) && Enabled(cfg, s, st) && NewIsOwned(s, n) && DataOk(cfg, s, st.actor) && SetAged(s, st.actor)
    ensures AgesOk(s, Apply(cfg, s, st), n)
  {
  }

  lemma StepAges(cfg: Config, s: System, st: Step, n: NodeId)
    requires Inv(cfg, s) && Enabled(cfg, s, st) && NewIsOwned(s, n)
    requires (forall a :: SetAged(s, a)) && (forall r :: RequestAged(s, r))
    ensures AgesOk(s, Apply(cfg, s, st), n)
  {
    hide Inv;
    hide Enabled;
    hide Apply;
    hide AgesOk;
    if ActorOf(st).Some? {
      AllocationSteps.Own(cfg, s, ActorOf(st).value);
    }
    hide LocksOk;
    hide DataOk;
    hide SetAged;
    hide RequestAged;
    hide NewIsOwned;
    if RequestorStep(st) {
      RequestorAges(cfg, s, st, n);
    } else if TakeStep(st) {
      TakeAges(cfg, s, st, n);
    } else if st.StorePending? {
      StorePendingAges(cfg, s, st, n);
    } else if ReuseStep(st) {
      ReuseAges(cfg, s, st, n);
    } else if CreateStep(st) {
      CreateAges(cfg, s, st, n);
    } else if LaunchStep(st) {
      LaunchAges(cfg, s, st, n);
    } else if st.StoreResult? {
      ResultAges(cfg, s, st, n);
    } else if FinishStep(st) {
      FinishAges(cfg, s, st, n);
    } else if PickStep(st) {
      PickAges(cfg, s, st, n);
    } else if st.CleanerStores? || st.CleanerGivesUp? {
      CleanerAges(cfg, s, st, n);
    } else if DeleterStep(st) {
      DeleterAges(cfg, s, st, n);
    } else if LostNodeStep(st) {
      LostNodeAges(cfg, s, st, n);
    } else if st.LockLost? || st.ReadLost? {
      LostAges(cfg, s, st, n);
    } else if st.StoreLost? {
      StoreLostAges(cfg, s, st, n);
    } else {
      ConsumerAges(cfg, s, st, n);
    }
  }

  // What joins a set is not new.
  predicate JoinsOk(s: System, s': System, b: Actor) {
    forall n :: n in Nodeset(LocalOf(s', b)) ==> n in Nodeset(LocalOf(s, b)) || Aged(s', n)
  }

  lemma RequestorJoins(cfg: Config, s: System, st: Step, b: Actor)
    requires RequestorStep(st) && Enabled(cfg, s, st)
    ensures JoinsOk(s, Apply(cfg, s, st), b)
  {
  }

  lemma TakeJoins(cfg: Config, s: System, st: Step, b: Actor)
    requires TakeStep(st) && Enabled(cfg, s, st) && DataOk(cfg, s, st.actor)
    ensures JoinsOk(s, Apply(cfg, s, st), b)
  {
  }

  lemma StorePendingJoins(cfg: Config, s: System, st: Step, b: Actor)
    requires st.StorePending? && Enabled(cfg, s, st) && DataOk(cfg, s, st.actor)
    ensures JoinsOk(s, Apply(cfg, s, st), b)
  {
  }

  lemma ReuseJoins(cfg: Config, s: System, st: Step, b: Actor)
    requires ReuseStep(st) && Enabled(cfg, s, st) && DataOk(cfg, s, st.actor)
    ensures JoinsOk(s, Apply(cfg, s, st), b)
  {
  }

  lemma CreateJoins(cfg: Config, s: System, st: Step, b: Actor)
    requires CreateStep(st) && Enabled(cfg, s, st) && DataOk(cfg, s, st.actor)
    ensures JoinsOk(s, Apply(cfg, s, st), b)
  {
  }

  lemma LaunchJoins(cfg: Config, s: System, st: Step, b: Actor)
    requires LaunchStep(st) && !CreateStep(st) && Enabled(cfg, s, st) && DataOk(cfg, s, st.actor)
    ensures JoinsOk(s, Apply(cfg, s, st), b)
  {
  }

  lemma ResultJoins(cfg: Config, s: System, st: Step, b: Actor)
    requires st.StoreResult? && Enabled(cfg, s, st) && DataOk(cfg, s, st.actor)
    ensures JoinsOk(s, Apply(cfg, s, st), b)
  {
  }

  lemma FinishJoins(cfg: Config, s: System, st: Step, b: Actor)
    requires FinishStep(st) && !st.StoreResult? && Enabled(cfg, s, st) && (ActorOf(st).Some? ==> DataOk(cfg, s, ActorOf(st).value))
    ensures JoinsOk(s, Apply(cfg, s, st), b)
  {
  }

  lemma PickJoins(cfg: Config, s: System, st: Step, b: Actor)
    requires PickStep(st) && Enabled(cfg, s, st) && DataOk(cfg, s, st.actor)
    ensures JoinsOk(s, Apply(cfg, s, st), b)
  {
  }

  lemma CleanerJoins(cfg: Config, s: System, st: Step, b: Actor)
    requires (st.CleanerStores? || st.CleanerGivesUp?) && Enabled(cfg, s, st) && DataOk(cfg, s, st.actor)
    ensures JoinsOk(s, Apply(cfg, s, st), b)
  {
  }

  lemma DeleterJoins(cfg: Config, s: System, st: Step, b: Actor)
    requires DeleterStep(st) && Enabled(cfg, s, st) && DataOk(cfg, s, st.actor)
    ensures JoinsOk(s, Apply(cfg, s, st), b)
  {
  }

  lemma LostNodeJoins(cfg: Config, s: System, st: Step, b: Actor)
    requires LostNodeStep(st) && Enabled(cfg, s, st) && DataOk(cfg, s, st.actor)
    ensures JoinsOk(s, Apply(cfg, s, st), b)
  {
  }

  lemma LostJoins(cfg: Config, s: System, st: Step, b: Actor)
    requires (st.LockLost? || st.ReadLost?) && Enabled(cfg, s, st) && DataOk(cfg, s, st.actor)
    ensures JoinsOk(s, Apply(cfg, s, st), b)
  {
  }

  lemma StoreLostJoins(cfg: Config, s: System, st: Step, b: Actor)
    requires st.StoreLost? && Enabled(cfg, s, st) && DataOk(cfg, s, st.actor)
    ensures JoinsOk(s, Apply(cfg, s, st), b)
  {
  }

  lemma ConsumerJoins(cfg: Config, s: System, st: Step, b: Actor)
    requires ConsumerStep(st) && Enabled(cfg, s, st) && DataOk(cfg, s, st.actor)
    ensures JoinsOk(s, Apply(cfg, s, st), b)
  {
  }

  lemma StepJoins(cfg: Config, s: System, st: Step, b: Actor)
    requires Inv(cfg, s) && Enabled(cfg, s, st)
    ensures JoinsOk(s, Apply(cfg, s, st), b)
  {
    hide Inv;
    hide Enabled;
    hide Apply;
    hide JoinsOk;
    if ActorOf(st).Some? {
      AllocationSteps.Own(cfg, s, ActorOf(st).value);
    }
    hide LocksOk;
    hide DataOk;
    if RequestorStep(st) {
      RequestorJoins(cfg, s, st, b);
    } else if TakeStep(st) {
      TakeJoins(cfg, s, st, b);
    } else if st.StorePending? {
      StorePendingJoins(cfg, s, st, b);
    } else if ReuseStep(st) {
      ReuseJoins(cfg, s, st, b);
    } else if CreateStep(st) {
      CreateJoins(cfg, s, st, b);
    } else if LaunchStep(st) {
      LaunchJoins(cfg, s, st, b);
    } else if st.StoreResult? {
      ResultJoins(cfg, s, st, b);
    } else if FinishStep(st) {
      FinishJoins(cfg, s, st, b);
    } else if PickStep(st) {
      PickJoins(cfg, s, st, b);
    } else if st.CleanerStores? || st.CleanerGivesUp? {
      CleanerJoins(cfg, s, st, b);
    } else if DeleterStep(st) {
      DeleterJoins(cfg, s, st, b);
    } else if LostNodeStep(st) {
      LostNodeJoins(cfg, s, st, b);
    } else if st.LockLost? || st.ReadLost? {
      LostJoins(cfg, s, st, b);
    } else if st.StoreLost? {
      StoreLostJoins(cfg, s, st, b);
    } else {
      ConsumerJoins(cfg, s, st, b);
    }
  }
}
