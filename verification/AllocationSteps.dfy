/** Every step of the allocation protocol keeps its invariant. */
module AllocationSteps {
  import opened Wrappers
  import opened Allocation
  import opened AllocationProofs

  lemma Own(cfg: Config, s: System, a: Actor)
    requires Inv(cfg, s)
    ensures LocksOk(s, a) && DataOk(cfg, s, a) && NodesOk(s) && Rest(cfg, s, {a})
  {
  }

  // For steps that leave the actor where it is.
  lemma StaysKeeps(cfg: Config, s: System, a: Actor)
    requires Rest(cfg, s, {a}) && LocksOk(s, a) && DataOk(cfg, s, a)
    ensures Inv(cfg, s)
  {
    forall b ensures LocksOk(s, b) && DataOk(cfg, s, b) {
    }
  }

  // ---------------------------------------------------------------- the requestor

  lemma SubmitKeepsActor(cfg: Config, s: System, r: RequestId, b: Actor)
    requires r !in s.requests && LocksOk(s, b) && DataOk(cfg, s, b)
    ensures LocksOk(Apply(cfg, s, Submit(r)), b) && DataOk(cfg, Apply(cfg, s, Submit(r)), b)
  {
    assert LocalOf(Apply(cfg, s, Submit(r)), b) == LocalOf(s, b);
  }

  lemma SubmitKeeps(cfg: Config, s: System, r: RequestId)
    requires Inv(cfg, s) && r !in s.requests
    ensures Inv(cfg, Apply(cfg, s, Submit(r)))
  {
    var s' := Apply(cfg, s, Submit(r));
    forall b ensures LocksOk(s', b) && DataOk(cfg, s', b) {
      hide LocksOk;
      hide DataOk;
      Own(cfg, s, b);
      SubmitKeepsActor(cfg, s, r, b);
    }
    forall x | x in s'.requests ensures RequestOk(s', x) {
      assert x in s.requests ==> RequestOk(s, x);
    }
  }

  lemma WithdrawKeeps(cfg: Config, s: System, r: RequestId)
    requires Inv(cfg, s) && Exists(s, r)
    ensures Inv(cfg, Apply(cfg, s, Withdraw(r)))
  {
    var s' := Apply(cfg, s, Withdraw(r));
    forall b ensures LocksOk(s', b) && DataOk(cfg, s', b) {
      Own(cfg, s, b);
    }
    forall x | x in s'.requests ensures RequestOk(s', x) {
      assert x in s.requests ==> RequestOk(s, x);
    }
  }

  // A retired request's nodes are nobody's: no live handler owns one, no worker has
  // passed one.
  lemma RetiredIsIdle(cfg: Config, s: System, r: RequestId, b: Actor, n: NodeId)
    requires NodesOk(s) && Enabled(cfg, s, Retire(r)) && RequestOk(s, r) && LocksOk(s, b) && DataOk(cfg, s, b)
    requires n in s.requests[r].nodes
    ensures n !in HoldsN(LocalOf(s, b)) && s.nodes[n].owner == Some(r)
    ensures LocalOf(s, b).Working? ==> LocalOf(s, b).req != r
    ensures LocalOf(s, b).Releasing? ==> LocalOf(s, b).req != r
  {
  }

  lemma RetireKeepsWork(cfg: Config, s: System, r: RequestId, b: Actor)
    requires NodesOk(s) && Enabled(cfg, s, Retire(r)) && DataOk(cfg, s, b)
    requires LocalOf(s, b).Working? || LocalOf(s, b).Releasing?
    requires forall n :: n in s.requests[r].nodes ==> s.nodes[n].owner == Some(r)
    requires forall n :: n in s.requests[r].nodes ==> n !in HoldsN(LocalOf(s, b))
    ensures DataOk(cfg, Apply(cfg, s, Retire(r)), b)
  {
    assert LocalOf(Apply(cfg, s, Retire(r)), b) == LocalOf(s, b);
  }

  lemma RetireKeepsCare(cfg: Config, s: System, r: RequestId, b: Actor)
    requires NodesOk(s) && Enabled(cfg, s, Retire(r)) && DataOk(cfg, s, b)
    requires !LocalOf(s, b).Working? && !LocalOf(s, b).Releasing?
    requires forall n :: n in s.requests[r].nodes ==> n !in HoldsN(LocalOf(s, b))
    ensures DataOk(cfg, Apply(cfg, s, Retire(r)), b)
  {
    assert LocalOf(Apply(cfg, s, Retire(r)), b) == LocalOf(s, b);
  }

  lemma RetireKeepsOther(cfg: Config, s: System, r: RequestId, b: Actor)
    requires NodesOk(s) && Enabled(cfg, s, Retire(r)) && RequestOk(s, r) && LocksOk(s, b) && DataOk(cfg, s, b)
    ensures LocksOk(Apply(cfg, s, Retire(r)), b) && DataOk(cfg, Apply(cfg, s, Retire(r)), b)
  {
    hide DataOk;
    var s' := Apply(cfg, s, Retire(r));
    assert LocalOf(s', b) == LocalOf(s, b);
    forall n | n in s.requests[r].nodes
      ensures n !in HoldsN(LocalOf(s, b)) && s.nodes[n].owner == Some(r)
    {
      RetiredIsIdle(cfg, s, r, b, n);
    }
    if LocalOf(s, b).Working? || LocalOf(s, b).Releasing? {
      RetireKeepsWork(cfg, s, r, b);
    } else {
      RetireKeepsCare(cfg, s, r, b);
    }
  }

  lemma RetireKeeps(cfg: Config, s: System, r: RequestId)
    requires Inv(cfg, s) && Enabled(cfg, s, Retire(r))
    ensures Inv(cfg, Apply(cfg, s, Retire(r)))
  {
    var s' := Apply(cfg, s, Retire(r));
    assert RequestOk(s, r);
    forall b ensures LocksOk(s', b) && DataOk(cfg, s', b) {
      Own(cfg, s, b);
      RetireKeepsOther(cfg, s, r, b);
    }
    forall x | x in s'.requests ensures RequestOk(s', x) {
      assert RequestOk(s, x);
    }
  }

  // ---------------------------------------------------------------- a handler

  lemma TakeRequestKeeps(cfg: Config, s: System, a: Actor, r: RequestId)
    requires Inv(cfg, s) && Enabled(cfg, s, TakeRequest(a, r))
    ensures Inv(cfg, Apply(cfg, s, TakeRequest(a, r)))
  {
    hide Rest;
    hide Inv;
    Own(cfg, s, a);
    LockRKeeps(cfg, s, r, a);
    GoesKeeps(cfg, LockR(s, r, a), a, Taking(r));
  }

  lemma ReadRequestKeeps(cfg: Config, s: System, a: Actor)
    requires Inv(cfg, s) && Enabled(cfg, s, ReadRequest(a))
    ensures Inv(cfg, Apply(cfg, s, ReadRequest(a)))
  {
    hide Rest;
    hide Inv;
    Own(cfg, s, a);
    var r := LocalOf(s, a).req;
    if !Exists(s, r) {
      GoesKeeps(cfg, s, a, Idle);
    } else if !s.requests[r].state.REQUESTED? || cfg.poolOf(a) in s.requests[r].declinedBy {
      UnlockRKeeps(cfg, s, r, a);
      GoesKeeps(cfg, UnlockR(s, r), a, Idle);
    } else {
      GoesKeeps(cfg, s, a, Accepted(r, s.requests[r]));
    }
  }

  lemma StorePendingKeeps(cfg: Config, s: System, a: Actor)
    requires Inv(cfg, s) && Enabled(cfg, s, StorePending(a))
    ensures Inv(cfg, Apply(cfg, s, StorePending(a)))
  {
    hide Rest;
    hide Inv;
    Own(cfg, s, a);
    var l := LocalOf(s, a);
    if !Exists(s, l.req) {
      GoesKeeps(cfg, s, a, Releasing(l.req, l.copy, {}, {}, ClearAndDecline));
    } else {
      var q := l.copy.(state := PENDING);
      PutRKeeps(cfg, s, l.req, q, a);
      GoesKeeps(cfg, PutR(s, l.req, q), a, Working(l.req, q, {}, NoOp));
    }
  }

  // A node seen in any other state than INIT is not one somebody has just stored.
  lemma SeenIsNotNewborn(cfg: Config, s: System, n: NodeId, v: Node)
    requires Inv(cfg, s) && Seen(s, n, v) && !v.state.INIT?
    ensures NotNewborn(s, n, {})
  {
    forall b | LocalOf(s, b).Working? && LocalOf(s, b).op.Creating? ensures LocalOf(s, b).op.node != n {
      Own(cfg, s, b);
    }
  }

  lemma LockReadyKeeps(cfg: Config, s: System, a: Actor, n: NodeId)
    requires Inv(cfg, s) && Enabled(cfg, s, LockReady(a, n))
    ensures Inv(cfg, Apply(cfg, s, LockReady(a, n)))
  {
    hide Rest;
    hide Inv;
    Own(cfg, s, a);
    var v :| Seen(s, n, v) && Picks(OldestUnused, v);
    SeenIsNotNewborn(cfg, s, n, v);
    LockNKeeps(cfg, s, n, a);
    GoesKeeps(cfg, LockN(s, n, a), a, LocalOf(s, a).(op := Reusing(n)));
  }

  lemma ReadReadyKeeps(cfg: Config, s: System, a: Actor)
    requires Inv(cfg, s) && Enabled(cfg, s, ReadReady(a))
    ensures Inv(cfg, Apply(cfg, s, ReadReady(a)))
  {
    hide Rest;
    hide Inv;
    Own(cfg, s, a);
    var l := LocalOf(s, a);
    var n := l.op.node;
    if n in s.nodes && s.nodes[n].state.READY? && s.nodes[n].owner.None? {
      GoesKeeps(cfg, s, a, l.(op := Claimed(n, s.nodes[n])));
    } else {
      UnlockNKeeps(cfg, s, n, a);
      GoesKeeps(cfg, UnlockN(s, n), a, l.(op := NoOp));
    }
  }

  lemma StoreReadyKeeps(cfg: Config, s: System, a: Actor)
    requires Inv(cfg, s) && Enabled(cfg, s, StoreReady(a))
    ensures Inv(cfg, Apply(cfg, s, StoreReady(a)))
  {
    hide Rest;
    hide Inv;
    Own(cfg, s, a);
    var l := LocalOf(s, a);
    var v := l.op.copy.(owner := Some(l.req));
    PutKeeps(cfg, s, l.op.node, v, a);
    GoesKeeps(cfg, Put(s, l.op.node, v), a, l.(nodeset := l.nodeset + {l.op.node}, op := NoOp));
  }

  lemma StoreInitKeeps(cfg: Config, s: System, a: Actor, n: NodeId)
    requires Inv(cfg, s) && Enabled(cfg, s, StoreInit(a, n))
    ensures Inv(cfg, Apply(cfg, s, StoreInit(a, n)))
  {
    hide Rest;
    hide Inv;
    Own(cfg, s, a);
    var l := LocalOf(s, a);
    PutNewKeeps(cfg, s, n, Node(INIT, Some(l.req)), a);
    GoesKeeps(cfg, Put(s, n, Node(INIT, Some(l.req))), a, l.(op := Creating(n)));
  }

  // The lock taken right after a node is created always succeeds, and nobody else is
  // about to take it.
  lemma NewNodeIsLockable(cfg: Config, s: System, a: Actor)
    requires Inv(cfg, s) && LocalOf(s, a).Working? && LocalOf(s, a).op.Creating?
    ensures Free(s, LocalOf(s, a).op.node) && Enabled(cfg, s, LockInit(a)) && NotNewborn(s, LocalOf(s, a).op.node, {a})
  {
    hide Rest;
    hide Inv;
    Own(cfg, s, a);
    forall b | b != a && LocalOf(s, b).Working? && LocalOf(s, b).op.Creating?
      ensures LocalOf(s, b).op.node != LocalOf(s, a).op.node
    {
      Own(cfg, s, b);
    }
  }

  lemma LockInitKeeps(cfg: Config, s: System, a: Actor)
    requires Inv(cfg, s) && Enabled(cfg, s, LockInit(a))
    ensures Inv(cfg, Apply(cfg, s, LockInit(a)))
  {
    hide Rest;
    hide Inv;
    Own(cfg, s, a);
    NewNodeIsLockable(cfg, s, a);
    var l := LocalOf(s, a);
    LockNKeeps(cfg, s, l.op.node, a);
    GoesKeeps(cfg, LockN(s, l.op.node, a), a, l.(op := Created(l.op.node)));
  }

  lemma StoreBuildingKeeps(cfg: Config, s: System, a: Actor)
    requires Inv(cfg, s) && Enabled(cfg, s, StoreBuilding(a))
    ensures Inv(cfg, Apply(cfg, s, StoreBuilding(a)))
  {
    hide Rest;
    hide Inv;
    Own(cfg, s, a);
    var l := LocalOf(s, a);
    var v := Node(BUILDING, Some(l.req));
    PutKeeps(cfg, s, l.op.node, v, a);
    GoesKeeps(cfg, Put(s, l.op.node, v), a, l.(nodeset := l.nodeset + {l.op.node}, op := NoOp));
  }

  lemma LauncherStoresKeeps(cfg: Config, s: System, a: Actor, n: NodeId, state: NodeState)
    requires Inv(cfg, s) && Enabled(cfg, s, LauncherStores(a, n, state))
    ensures Inv(cfg, Apply(cfg, s, LauncherStores(a, n, state)))
  {
    hide Rest;
    hide Inv;
    Own(cfg, s, a);
    PutKeeps(cfg, s, n, s.nodes[n].(state := state), a);
    StaysKeeps(cfg, Put(s, n, s.nodes[n].(state := state)), a);
  }

  lemma DropAbortedKeeps(cfg: Config, s: System, a: Actor, n: NodeId)
    requires Inv(cfg, s) && Enabled(cfg, s, DropAborted(a, n))
    ensures Inv(cfg, Apply(cfg, s, DropAborted(a, n)))
  {
    hide Rest;
    hide Inv;
    Own(cfg, s, a);
    var l := LocalOf(s, a);
    UnlockNKeeps(cfg, s, n, a);
    GoesKeeps(cfg, UnlockN(s, n), a, Working(l.req, l.copy, l.nodeset - {n}, l.op));
  }

  lemma FaultKeeps(cfg: Config, s: System, a: Actor)
    requires Inv(cfg, s) && Enabled(cfg, s, Fault(a))
    ensures Inv(cfg, Apply(cfg, s, Fault(a)))
  {
    hide Rest;
    hide Inv;
    Own(cfg, s, a);
    var l := LocalOf(s, a);
    GoesKeeps(cfg, s, a, Releasing(l.req, l.copy, l.nodeset, l.nodeset, ClearAndDecline));
  }

  function Finished(s: System, a: Actor, plan: Plan): Local
    requires LocalOf(s, a).Working? || LocalOf(s, a).Accepted?
  {
    var l := LocalOf(s, a);
    var ns := if l.Working? then l.nodeset else {};
    Releasing(l.req, l.copy, ns, ns, plan)
  }

  lemma FinishedKeeps(cfg: Config, s: System, a: Actor, plan: Plan)
    requires Enabled(cfg, s, Finish(a, plan)) && LocksOk(s, a) && DataOk(cfg, s, a)
    requires LocalOf(s, a).Working? ==> LocalOf(s, a).nodeset !! s.orphans
    ensures LocalOf(s, a).Working? || LocalOf(s, a).Accepted?
    ensures LocksOk(Goes(s, a, Finished(s, a, plan)), a) && DataOk(cfg, Goes(s, a, Finished(s, a, plan)), a)
    ensures Apply(cfg, s, Finish(a, plan)) == Goes(s, a, Finished(s, a, plan))
  {
  }

  lemma FinishKeeps(cfg: Config, s: System, a: Actor, plan: Plan)
    requires Inv(cfg, s) && Enabled(cfg, s, Finish(a, plan))
    ensures Inv(cfg, Apply(cfg, s, Finish(a, plan)))
  {
    Own(cfg, s, a);
    FinishedKeeps(cfg, s, a, plan);
    hide Apply;
    hide Enabled;
    hide LocksOk;
    hide DataOk;
    hide Rest;
    hide Inv;
    GoesKeeps(cfg, s, a, Finished(s, a, plan));
  }

  lemma ClearOwnerKeeps(cfg: Config, s: System, a: Actor, n: NodeId)
    requires Inv(cfg, s) && Enabled(cfg, s, ClearOwner(a, n))
    ensures Inv(cfg, Apply(cfg, s, ClearOwner(a, n)))
  {
    hide Rest;
    hide Inv;
    Own(cfg, s, a);
    PutKeeps(cfg, s, n, s.nodes[n].(owner := None), a);
    StaysKeeps(cfg, Put(s, n, s.nodes[n].(owner := None)), a);
  }

  lemma OrphanKeeps(cfg: Config, s: System, n: NodeId, a: Actor)
    requires Rest(cfg, s, {a}) && Free(s, n) && s.nodes[n].owner.None? && s.nodes[n].state.BUILDING?
    ensures Rest(cfg, s.(orphans := s.orphans + {n}), {a})
  {
    var s' := s.(orphans := s.orphans + {n});
    forall b | b != a ensures LocksOk(s', b) && DataOk(cfg, s', b) {
      assert LocksOk(s, b) && DataOk(cfg, s, b);
    }
    forall r | r in s'.requests ensures RequestOk(s', r) {
      assert RequestOk(s, r);
    }
  }

  lemma ReleaseIs(cfg: Config, s: System, a: Actor, n: NodeId)
    requires Enabled(cfg, s, Release(a, n))
    ensures var l := LocalOf(s, a); var s1 := UnlockN(s, n);
            && l.Releasing? && n in l.held && n in s.nodes && (l.plan.ClearAndDecline? || l.plan.ClearOnly? ==> s.nodes[n].owner.None?)
            && Apply(cfg, s, Release(a, n))
               == Goes(if l.plan.ClearAndDecline? && s.nodes[n].state.BUILDING? then s1.(orphans := s.orphans + {n}) else s1,
                       a, l.(held := l.held - {n}))
  {
  }

  lemma ReleaseKeeps(cfg: Config, s: System, a: Actor, n: NodeId)
    requires Inv(cfg, s) && Enabled(cfg, s, Release(a, n))
    ensures Inv(cfg, Apply(cfg, s, Release(a, n)))
  {
    hide Rest;
    hide Inv;
    hide Apply;
    hide Enabled;
    ReleaseIs(cfg, s, a, n);
    Own(cfg, s, a);
    var l := LocalOf(s, a);
    var m := l.(held := l.held - {n});
    var s1 := UnlockN(s, n);
    UnlockNKeeps(cfg, s, n, a);
    if l.plan.ClearAndDecline? && s.nodes[n].state.BUILDING? {
      OrphanKeeps(cfg, s1, n, a);
      GoesKeeps(cfg, s1.(orphans := s.orphans + {n}), a, m);
    } else {
      GoesKeeps(cfg, s1, a, m);
    }
  }

  lemma StoreResultKeeps(cfg: Config, s: System, a: Actor)
    requires Inv(cfg, s) && Enabled(cfg, s, StoreResult(a))
    ensures Inv(cfg, Apply(cfg, s, StoreResult(a)))
  {
    hide Rest;
    hide Inv;
    Own(cfg, s, a);
    var l := LocalOf(s, a);
    if l.plan.ClearOnly? {
      UnlockRKeeps(cfg, s, l.req, a);
      GoesKeeps(cfg, UnlockR(s, l.req), a, Idle);
    } else if !Exists(s, l.req) {
      GoesKeeps(cfg, s, a, Idle);
    } else {
      var q := if l.plan.Fulfil? then l.copy.(state := FULFILLED, nodes := l.plan.order)
               else Declined(cfg, l.copy, cfg.poolOf(a));
      assert l.plan.Fulfil? ==> forall n :: n in q.nodes ==> n in SetOf(l.plan.order);
      PutRKeeps(cfg, s, l.req, q, a);
      UnlockRKeeps(cfg, PutR(s, l.req, q), l.req, a);
      GoesKeeps(cfg, UnlockR(PutR(s, l.req, q), l.req), a, Idle);
    }
  }

  lemma OrphanPutKeepsCleaner(cfg: Config, s: System, n: NodeId, state: NodeState, b: Actor)
    requires NodesOk(s) && n in s.orphans && !s.nodes[n].state.GONE? && DataOk(cfg, s, b)
    requires LocalOf(s, b).Cleaning?
    ensures DataOk(cfg, Put(s, n, Node(state, None)), b)
  {
    assert LocalOf(Put(s, n, Node(state, None)), b) == LocalOf(s, b);
  }

  lemma OrphanPutKeepsWorker(cfg: Config, s: System, n: NodeId, state: NodeState, b: Actor)
    requires NodesOk(s) && n in s.orphans && !s.nodes[n].state.GONE? && DataOk(cfg, s, b)
    requires LocalOf(s, b).Working?
    ensures DataOk(cfg, Put(s, n, Node(state, None)), b)
  {
    assert LocalOf(Put(s, n, Node(state, None)), b) == LocalOf(s, b);
  }

  lemma OrphanPutKeepsReleaser(cfg: Config, s: System, n: NodeId, state: NodeState, b: Actor)
    requires NodesOk(s) && n in s.orphans && !s.nodes[n].state.GONE? && DataOk(cfg, s, b)
    requires LocalOf(s, b).Releasing?
    ensures DataOk(cfg, Put(s, n, Node(state, None)), b)
  {
    var l, s' := LocalOf(s, b), Put(s, n, Node(state, None));
    assert LocalOf(s', b) == l;
    assert n !in l.held;
    assert forall m :: Mine(s, m, l.req) ==> Mine(s', m, l.req);
  }

  lemma OrphanPutKeepsOther(cfg: Config, s: System, n: NodeId, state: NodeState, b: Actor)
    requires NodesOk(s) && n in s.orphans && !s.nodes[n].state.GONE? && DataOk(cfg, s, b)
    ensures DataOk(cfg, Put(s, n, Node(state, None)), b)
  {
    assert LocalOf(Put(s, n, Node(state, None)), b) == LocalOf(s, b);
    if LocalOf(s, b).Cleaning? {
      OrphanPutKeepsCleaner(cfg, s, n, state, b);
    } else if LocalOf(s, b).Working? {
      OrphanPutKeepsWorker(cfg, s, n, state, b);
    } else if LocalOf(s, b).Releasing? {
      OrphanPutKeepsReleaser(cfg, s, n, state, b);
    }
  }

  lemma FewerOrphansKeepsOther(cfg: Config, s: System, orphans: set<NodeId>, b: Actor)
    requires LocksOk(s, b) && DataOk(cfg, s, b) && orphans <= s.orphans
    ensures LocksOk(s.(orphans := orphans), b) && DataOk(cfg, s.(orphans := orphans), b)
  {
    assert LocalOf(s.(orphans := orphans), b) == LocalOf(s, b);
  }

  lemma OrphanStoresKeeps(cfg: Config, s: System, n: NodeId, state: NodeState)
    requires Inv(cfg, s) && Enabled(cfg, s, OrphanStores(n, state))
    ensures Inv(cfg, Apply(cfg, s, OrphanStores(n, state)))
  {
    var s' := Apply(cfg, s, OrphanStores(n, state));
    forall b ensures LocksOk(s', b) && DataOk(cfg, s', b) {
      hide Inv;
      hide DataOk;
      Own(cfg, s, b);
      OrphanPutKeepsOther(cfg, s, n, state, b);
      FewerOrphansKeepsOther(cfg, Put(s, n, Node(state, None)), s'.orphans, b);
    }
    forall r | r in s'.requests ensures RequestOk(s', r) {
      assert RequestOk(s, r);
    }
  }

  // ---------------------------------------------------------------- the cleanup workers

  // An idle actor locks a node nobody has just stored.
  lemma FirstLockKeeps(cfg: Config, s: System, a: Actor, n: NodeId, l: Local)
    requires Inv(cfg, s) && LocalOf(s, a).Idle? && Free(s, n) && NotNewborn(s, n, {a})
    requires l.Consuming? || (l.Cleaning? && l.phase.Locked?)
    requires l.node == n
    ensures Inv(cfg, Goes(LockN(s, n, a), a, l))
  {
    hide Rest;
    hide Inv;
    Own(cfg, s, a);
    LockNKeeps(cfg, s, n, a);
    GoesKeeps(cfg, LockN(s, n, a), a, l);
  }

  lemma CleanerLocksKeeps(cfg: Config, s: System, a: Actor, kind: Kind, n: NodeId)
    requires Inv(cfg, s) && Enabled(cfg, s, CleanerLocks(a, kind, n))
    ensures Inv(cfg, Apply(cfg, s, CleanerLocks(a, kind, n)))
  {
    var v :| Seen(s, n, v) && Picks(kind, v);
    SeenIsNotNewborn(cfg, s, n, v);
    FirstLockKeeps(cfg, s, a, n, Cleaning(kind, n, Locked));
  }

  lemma CleanerReadsKeeps(cfg: Config, s: System, a: Actor)
    requires Inv(cfg, s) && Enabled(cfg, s, CleanerReads(a))
    ensures Inv(cfg, Apply(cfg, s, CleanerReads(a)))
  {
    hide Rest;
    hide Inv;
    Own(cfg, s, a);
    var l := LocalOf(s, a);
    if l.node in s.nodes && Passes(s, l.kind, s.nodes[l.node]) {
      GoesKeeps(cfg, s, a, l.(phase := Passed(s.nodes[l.node])));
    } else {
      UnlockNKeeps(cfg, s, l.node, a);
      GoesKeeps(cfg, UnlockN(s, l.node), a, Idle);
    }
  }

  lemma CleanerGivesUpKeeps(cfg: Config, s: System, a: Actor)
    requires Inv(cfg, s) && LocalOf(s, a).Cleaning? && !LocalOf(s, a).phase.Removing?
    ensures Inv(cfg, Goes(UnlockN(s, LocalOf(s, a).node), a, Idle))
  {
    hide Rest;
    hide Inv;
    Own(cfg, s, a);
    UnlockNKeeps(cfg, s, LocalOf(s, a).node, a);
    GoesKeeps(cfg, UnlockN(s, LocalOf(s, a).node), a, Idle);
  }

  lemma CleanerStoresKeeps(cfg: Config, s: System, a: Actor)
    requires Inv(cfg, s) && Enabled(cfg, s, CleanerStores(a))
    ensures Inv(cfg, Apply(cfg, s, CleanerStores(a)))
  {
    hide Rest;
    hide Inv;
    Own(cfg, s, a);
    var l := LocalOf(s, a);
    if l.node !in s.nodes || s.nodes[l.node].state.GONE? {
      CleanerGivesUpKeeps(cfg, s, a);
    } else {
      var v := CleanedNode(l.kind, l.phase.copy);
      PutKeeps(cfg, s, l.node, v, a);
      var s1 := Put(s, l.node, v);
      if l.kind.DeleteNode? {
        StaysKeeps(cfg, s1, a);
      } else {
        UnlockNKeeps(cfg, s1, l.node, a);
        GoesKeeps(cfg, UnlockN(s1, l.node), a, Idle);
      }
    }
  }

  lemma DeleterMarksKeeps(cfg: Config, s: System, a: Actor)
    requires Inv(cfg, s) && Enabled(cfg, s, DeleterMarks(a))
    ensures Inv(cfg, Apply(cfg, s, DeleterMarks(a)))
  {
    hide Rest;
    hide Inv;
    Own(cfg, s, a);
    var l := LocalOf(s, a);
    if l.node !in s.nodes || s.nodes[l.node].state.GONE? {
      CleanerGivesUpKeeps(cfg, s, a);
    } else {
      var v := l.phase.copy.(state := DELETED);
      PutKeeps(cfg, s, l.node, v, a);
      assert v in Put(s, l.node, v).history[l.node];
      GoesKeeps(cfg, Put(s, l.node, v), a, l.(phase := Marked));
    }
  }

  lemma DeleterRemovesLockKeeps(cfg: Config, s: System, a: Actor)
    requires Inv(cfg, s) && Enabled(cfg, s, DeleterRemovesLock(a))
    ensures Inv(cfg, Apply(cfg, s, DeleterRemovesLock(a)))
  {
    hide Rest;
    hide Inv;
    Own(cfg, s, a);
    UnlockNKeeps(cfg, s, LocalOf(s, a).node, a);
    GoesKeeps(cfg, UnlockN(s, LocalOf(s, a).node), a, LocalOf(s, a).(phase := Removing));
  }

  lemma ForgetOrphanKeeps(cfg: Config, s: System, n: NodeId)
    requires Inv(cfg, s)
    ensures Inv(cfg, s.(orphans := s.orphans - {n}))
  {
    var s' := s.(orphans := s.orphans - {n});
    forall b ensures LocksOk(s', b) && DataOk(cfg, s', b) {
      Own(cfg, s, b);
    }
    forall r | r in s'.requests ensures RequestOk(s', r) {
      assert RequestOk(s, r);
    }
  }

  lemma DeleterRemovesNodeKeeps(cfg: Config, s: System, a: Actor)
    requires Inv(cfg, s) && Enabled(cfg, s, DeleterRemovesNode(a))
    ensures Inv(cfg, Apply(cfg, s, DeleterRemovesNode(a)))
  {
    hide Rest;
    hide Inv;
    Own(cfg, s, a);
    var n := LocalOf(s, a).node;
    if n !in s.nodes || n in s.nodeLock {
      GoesKeeps(cfg, s, a, Idle);
    } else {
      PutGoneKeeps(cfg, s, n, a);
      var s1 := Put(s, n, s.nodes[n].(state := GONE));
      GoesKeeps(cfg, s1, a, Idle);
      ForgetOrphanKeeps(cfg, Goes(s1, a, Idle), n);
    }
  }

  // ---------------------------------------------------------------- the lost-request worker

  lemma LockLostIs(cfg: Config, s: System, a: Actor, r: RequestId)
    requires Enabled(cfg, s, LockLost(a, r))
    ensures LocalOf(s, a).Idle? && r in s.requests && r !in s.requestLock
    ensures Apply(cfg, s, LockLost(a, r)) == Goes(LockR(s, r, a), a, Resetting(r, Unread))
  {
  }

  lemma LockLostKeeps(cfg: Config, s: System, a: Actor, r: RequestId)
    requires Inv(cfg, s) && Enabled(cfg, s, LockLost(a, r))
    ensures Inv(cfg, Apply(cfg, s, LockLost(a, r)))
  {
    hide Rest;
    hide Inv;
    hide Enabled;
    LockLostIs(cfg, s, a, r);
    hide Apply;
    Own(cfg, s, a);
    LockRKeeps(cfg, s, r, a);
    GoesKeeps(cfg, LockR(s, r, a), a, Resetting(r, Unread));
  }

  lemma ReadLostKeeps(cfg: Config, s: System, a: Actor)
    requires Inv(cfg, s) && Enabled(cfg, s, ReadLost(a))
    ensures Inv(cfg, Apply(cfg, s, ReadLost(a)))
  {
    hide Rest;
    hide Inv;
    Own(cfg, s, a);
    var r := LocalOf(s, a).req;
    if Exists(s, r) && s.requests[r].state.PENDING? {
      GoesKeeps(cfg, s, a, Resetting(r, Read));
    } else {
      UnlockRKeeps(cfg, s, r, a);
      GoesKeeps(cfg, UnlockR(s, r), a, Idle);
    }
  }

  // Whoever is creating a node for a request holds the request's lock.
  lemma LostNodeIsNotNewborn(cfg: Config, s: System, a: Actor, n: NodeId, v: Node)
    requires Inv(cfg, s) && LocalOf(s, a).Resetting?
    requires Seen(s, n, v) && v.owner == Some(LocalOf(s, a).req)
    ensures NotNewborn(s, n, {a})
  {
    hide Rest;
    hide Inv;
    Own(cfg, s, a);
    forall b | b != a && LocalOf(s, b).Working? && LocalOf(s, b).op.Creating? ensures LocalOf(s, b).op.node != n {
      Own(cfg, s, b);
    }
  }

  lemma LockLostNodeKeeps(cfg: Config, s: System, a: Actor, n: NodeId)
    requires Inv(cfg, s) && Enabled(cfg, s, LockLostNode(a, n))
    ensures Inv(cfg, Apply(cfg, s, LockLostNode(a, n)))
  {
    hide Rest;
    hide Inv;
    Own(cfg, s, a);
    var v :| Seen(s, n, v) && v.owner == Some(LocalOf(s, a).req);
    LostNodeIsNotNewborn(cfg, s, a, n, v);
    LockNKeeps(cfg, s, n, a);
    GoesKeeps(cfg, LockN(s, n, a), a, Resetting(LocalOf(s, a).req, AtNode(n)));
  }

  lemma ReadLostNodeKeeps(cfg: Config, s: System, a: Actor)
    requires Inv(cfg, s) && Enabled(cfg, s, ReadLostNode(a))
    ensures Inv(cfg, Apply(cfg, s, ReadLostNode(a)))
  {
    hide Rest;
    hide Inv;
    Own(cfg, s, a);
    var l := LocalOf(s, a);
    var n := l.reset.node;
    if n in s.nodes && !s.nodes[n].state.GONE? && s.nodes[n].owner == Some(l.req) {
      GoesKeeps(cfg, s, a, Resetting(l.req, NodePassed(n, s.nodes[n])));
    } else {
      UnlockNKeeps(cfg, s, n, a);
      GoesKeeps(cfg, UnlockN(s, n), a, Resetting(l.req, Read));
    }
  }

  lemma LetGoKeeps(cfg: Config, s: System, a: Actor, n: NodeId)
    requires Rest(cfg, s, {a}) && LocksOk(s, a) && LocalOf(s, a).Resetting? && LocalOf(s, a).reset.NodePassed?
    requires LocalOf(s, a).reset.node == n
    requires var r := LocalOf(s, a).req; r in s.requests && (Exists(s, r) ==> s.requests[r].state.PENDING?)
    ensures Inv(cfg, Goes(UnlockN(s, n), a, Resetting(LocalOf(s, a).req, Read)))
  {
    UnlockNKeeps(cfg, s, n, a);
    GoesKeeps(cfg, UnlockN(s, n), a, Resetting(LocalOf(s, a).req, Read));
  }

  lemma StoreLostNodeKeeps(cfg: Config, s: System, a: Actor)
    requires Inv(cfg, s) && Enabled(cfg, s, StoreLostNode(a))
    ensures Inv(cfg, Apply(cfg, s, StoreLostNode(a)))
  {
    hide Rest;
    hide Inv;
    Own(cfg, s, a);
    var l := LocalOf(s, a);
    var n, copy := l.reset.node, l.reset.copy;
    var v := Node(if copy.state.INIT? then DELETING else copy.state, None);
    PutKeeps(cfg, s, n, v, a);
    LetGoKeeps(cfg, Put(s, n, v), a, n);
  }

  lemma StoreLostIs(cfg: Config, s: System, a: Actor)
    requires Enabled(cfg, s, StoreLost(a))
    ensures LocalOf(s, a).Resetting? && LocalOf(s, a).reset.Read?
    ensures var r := LocalOf(s, a).req;
            Apply(cfg, s, StoreLost(a))
            == Goes(UnlockR(if Exists(s, r) then PutR(s, r, s.requests[r].(state := REQUESTED, nodes := [])) else s, r), a, Idle)
  {
  }

  lemma StoreLostKeeps(cfg: Config, s: System, a: Actor)
    requires Inv(cfg, s) && Enabled(cfg, s, StoreLost(a))
    ensures Inv(cfg, Apply(cfg, s, StoreLost(a)))
  {
    hide Rest;
    hide Inv;
    hide Enabled;
    StoreLostIs(cfg, s, a);
    hide Apply;
    Own(cfg, s, a);
    var r := LocalOf(s, a).req;
    var s1 := if Exists(s, r) then PutR(s, r, s.requests[r].(state := REQUESTED, nodes := [])) else s;
    if Exists(s, r) {
      PutRKeeps(cfg, s, r, s.requests[r].(state := REQUESTED, nodes := []), a);
    }
    UnlockRKeeps(cfg, s1, r, a);
    GoesKeeps(cfg, UnlockR(s1, r), a, Idle);
  }

  // ---------------------------------------------------------------- consumers and expiry

  // A fulfilled request has nobody working on it.
  lemma FulfilledIsNotNewborn(cfg: Config, s: System, r: RequestId, n: NodeId)
    requires Inv(cfg, s) && Exists(s, r) && s.requests[r].state.FULFILLED? && n in s.requests[r].nodes
    ensures NotNewborn(s, n, {})
  {
    assert RequestOk(s, r);
    forall b | LocalOf(s, b).Working? && LocalOf(s, b).op.Creating? ensures LocalOf(s, b).op.node != n {
      Own(cfg, s, b);
    }
  }

  lemma ConsumerLocksKeeps(cfg: Config, s: System, a: Actor, r: RequestId, n: NodeId)
    requires Inv(cfg, s) && Enabled(cfg, s, ConsumerLocks(a, r, n))
    ensures Inv(cfg, Apply(cfg, s, ConsumerLocks(a, r, n)))
  {
    FulfilledIsNotNewborn(cfg, s, r, n);
    FirstLockKeeps(cfg, s, a, n, Consuming(n));
  }

  lemma ConsumerStoresKeeps(cfg: Config, s: System, a: Actor, state: NodeState)
    requires Inv(cfg, s) && Enabled(cfg, s, ConsumerStores(a, state))
    ensures Inv(cfg, Apply(cfg, s, ConsumerStores(a, state)))
  {
    hide Rest;
    hide Inv;
    Own(cfg, s, a);
    var n := LocalOf(s, a).node;
    PutKeeps(cfg, s, n, s.nodes[n].(state := state), a);
    StaysKeeps(cfg, Put(s, n, s.nodes[n].(state := state)), a);
  }

  lemma ConsumerUnlocksKeeps(cfg: Config, s: System, a: Actor)
    requires Inv(cfg, s) && Enabled(cfg, s, ConsumerUnlocks(a))
    ensures Inv(cfg, Apply(cfg, s, ConsumerUnlocks(a)))
  {
    hide Rest;
    hide Inv;
    Own(cfg, s, a);
    UnlockNKeeps(cfg, s, LocalOf(s, a).node, a);
    GoesKeeps(cfg, UnlockN(s, LocalOf(s, a).node), a, Idle);
  }

  lemma ExpireKeepsActor(cfg: Config, s: System, dead: set<Actor>, b: Actor)
    requires LocksOk(s, b) && DataOk(cfg, s, b)
    ensures LocksOk(Apply(cfg, s, Expire(dead)), b) && DataOk(cfg, Apply(cfg, s, Expire(dead)), b)
  {
    var s' := Apply(cfg, s, Expire(dead));
    assert LocalOf(s', b) == if b in dead then Idle else LocalOf(s, b);
  }

  lemma ExpireKeeps(cfg: Config, s: System, dead: set<Actor>)
    requires Inv(cfg, s)
    ensures Inv(cfg, Apply(cfg, s, Expire(dead)))
  {
    var s' := Apply(cfg, s, Expire(dead));
    forall b ensures LocksOk(s', b) && DataOk(cfg, s', b) {
      hide LocksOk;
      hide DataOk;
      Own(cfg, s, b);
      ExpireKeepsActor(cfg, s, dead, b);
    }
    forall r | r in s'.requests ensures RequestOk(s', r) {
      assert RequestOk(s, r);
    }
  }

  // ---------------------------------------------------------------- all steps

  lemma RequestorStepKeeps(cfg: Config, s: System, st: Step)
    requires RequestorStep(st) && Inv(cfg, s) && Enabled(cfg, s, st)
    ensures Inv(cfg, Apply(cfg, s, st))
  {
    match st
    case Submit(r) => SubmitKeeps(cfg, s, r);
    case Withdraw(r) => WithdrawKeeps(cfg, s, r);
    case Retire(r) => RetireKeeps(cfg, s, r);
    case Expire(dead) => ExpireKeeps(cfg, s, dead);
  }

  lemma HandlerStepKeeps(cfg: Config, s: System, st: Step)
    requires HandlerStep(st) && Inv(cfg, s) && Enabled(cfg, s, st)
    ensures Inv(cfg, Apply(cfg, s, st))
  {
    match st
    case TakeRequest(a, r) => TakeRequestKeeps(cfg, s, a, r);
    case ReadRequest(a) => ReadRequestKeeps(cfg, s, a);
    case StorePending(a) => StorePendingKeeps(cfg, s, a);
    case LockReady(a, n) => LockReadyKeeps(cfg, s, a, n);
    case ReadReady(a) => ReadReadyKeeps(cfg, s, a);
    case StoreReady(a) => StoreReadyKeeps(cfg, s, a);
  }

  lemma LaunchStepKeeps(cfg: Config, s: System, st: Step)
    requires LaunchStep(st) && Inv(cfg, s) && Enabled(cfg, s, st)
    ensures Inv(cfg, Apply(cfg, s, st))
  {
    match st
    case StoreInit(a, n) => StoreInitKeeps(cfg, s, a, n);
    case LockInit(a) => LockInitKeeps(cfg, s, a);
    case StoreBuilding(a) => StoreBuildingKeeps(cfg, s, a);
    case LauncherStores(a, n, state) => LauncherStoresKeeps(cfg, s, a, n, state);
    case DropAborted(a, n) => DropAbortedKeeps(cfg, s, a, n);
    case Fault(a) => FaultKeeps(cfg, s, a);
  }

  lemma FinishStepKeeps(cfg: Config, s: System, st: Step)
    requires FinishStep(st) && Inv(cfg, s) && Enabled(cfg, s, st)
    ensures Inv(cfg, Apply(cfg, s, st))
  {
    match st
    case Finish(a, plan) => FinishKeeps(cfg, s, a, plan);
    case ClearOwner(a, n) => ClearOwnerKeeps(cfg, s, a, n);
    case Release(a, n) => ReleaseKeeps(cfg, s, a, n);
    case StoreResult(a) => StoreResultKeeps(cfg, s, a);
    case OrphanStores(n, state) => OrphanStoresKeeps(cfg, s, n, state);
  }

  lemma CleanerStepKeeps(cfg: Config, s: System, st: Step)
    requires CleanerStep(st) && Inv(cfg, s) && Enabled(cfg, s, st)
    ensures Inv(cfg, Apply(cfg, s, st))
  {
    match st
    case CleanerLocks(a, kind, n) => CleanerLocksKeeps(cfg, s, a, kind, n);
    case CleanerReads(a) => CleanerReadsKeeps(cfg, s, a);
    case CleanerStores(a) => CleanerStoresKeeps(cfg, s, a);
    case CleanerGivesUp(a) => CleanerGivesUpKeeps(cfg, s, a);
    case DeleterMarks(a) => DeleterMarksKeeps(cfg, s, a);
    case DeleterRemovesLock(a) => DeleterRemovesLockKeeps(cfg, s, a);
    case DeleterRemovesNode(a) => DeleterRemovesNodeKeeps(cfg, s, a);
  }

  lemma LostStepKeeps(cfg: Config, s: System, st: Step)
    requires LostStep(st) && Inv(cfg, s) && Enabled(cfg, s, st)
    ensures Inv(cfg, Apply(cfg, s, st))
  {
    match st
    case LockLost(a, r) => LockLostKeeps(cfg, s, a, r);
    case ReadLost(a) => ReadLostKeeps(cfg, s, a);
    case LockLostNode(a, n) => LockLostNodeKeeps(cfg, s, a, n);
    case ReadLostNode(a) => ReadLostNodeKeeps(cfg, s, a);
    case StoreLostNode(a) => StoreLostNodeKeeps(cfg, s, a);
    case StoreLost(a) => StoreLostKeeps(cfg, s, a);
  }

  lemma ConsumerStepKeeps(cfg: Config, s: System, st: Step)
    requires ConsumerStep(st) && Inv(cfg, s) && Enabled(cfg, s, st)
    ensures Inv(cfg, Apply(cfg, s, st))
  {
    match st
    case ConsumerLocks(a, r, n) => ConsumerLocksKeeps(cfg, s, a, r, n);
    case ConsumerStores(a, state) => ConsumerStoresKeeps(cfg, s, a, state);
    case ConsumerUnlocks(a) => ConsumerUnlocksKeeps(cfg, s, a);
  }

  lemma StepKeepsInv(cfg: Config, s: System, st: Step)
    requires Inv(cfg, s) && Enabled(cfg, s, st)
    ensures Inv(cfg, Apply(cfg, s, st))
  {
    if RequestorStep(st) {
      RequestorStepKeeps(cfg, s, st);
    } else if HandlerStep(st) {
      HandlerStepKeeps(cfg, s, st);
    } else if LaunchStep(st) {
      LaunchStepKeeps(cfg, s, st);
    } else if FinishStep(st) {
      FinishStepKeeps(cfg, s, st);
    } else if CleanerStep(st) {
      CleanerStepKeeps(cfg, s, st);
    } else if LostStep(st) {
      LostStepKeeps(cfg, s, st);
    } else {
      ConsumerStepKeeps(cfg, s, st);
    }
  }
}
