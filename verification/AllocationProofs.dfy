/** The invariant of the allocation protocol, kept by every step. */
module AllocationProofs {
  import opened Wrappers
  import opened Allocation

  // The locks an actor's program counter says it holds.
  function HoldsN(l: Local): set<NodeId> {
    match l
    case Working(_, _, ns, op) => if op.Reusing? || op.Claimed? || op.Created? then ns + {op.node} else ns
    case Releasing(_, _, _, held, _) => held
    case Cleaning(_, n, phase) => if phase.Removing? then {} else {n}
    case Resetting(_, reset) => if reset.AtNode? || reset.NodePassed? then {reset.node} else {}
    case Consuming(n) => {n}
    case _ => {}
  }

  function HoldsR(l: Local): Option<RequestId> {
    match l
    case Taking(r) => Some(r)
    case Accepted(r, _) => Some(r)
    case Working(r, _, _, _) => Some(r)
    case Releasing(r, _, _, _, _) => Some(r)
    case Resetting(r, _) => Some(r)
    case _ => None
  }

  predicate LocksOk(s: System, a: Actor) {
    && (forall n :: n in HoldsN(LocalOf(s, a)) ==> n in s.nodeLock && s.nodeLock[n] == a)
    && (var r := HoldsR(LocalOf(s, a)); r.Some? ==> r.value in s.requestLock && s.requestLock[r.value] == a)
  }

  predicate NodesOk(s: System) {
    && s.nodes.Keys == s.history.Keys
    && (forall n :: n in s.nodes ==> s.nodes[n] in s.history[n])
    && (forall n :: n in s.nodeLock ==> n in s.nodes)
    && (forall n :: n in s.nodes && s.nodes[n].owner.Some? ==> s.nodes[n].owner.value in s.requests)
    && (forall n :: n in s.orphans ==>
          n in s.nodes && s.nodes[n].owner.None?
          && (s.nodes[n].state.BUILDING? || s.nodes[n].state.DELETING? || s.nodes[n].state.DELETED? || s.nodes[n].state.GONE?))
  }

  // Every node an existing fulfilled request lists is allocated to it.
  predicate RequestOk(s: System, r: RequestId) {
    Exists(s, r) && s.requests[r].state.FULFILLED? ==>
      forall n :: n in s.requests[r].nodes ==> n in s.nodes && s.nodes[n].owner == Some(r)
  }

  predicate Mine(s: System, n: NodeId, r: RequestId) { n in s.nodes && s.nodes[n].owner == Some(r) }

  // The request as the handler read it is the request as stored.
  predicate CopyOk(cfg: Config, s: System, a: Actor, r: RequestId, copy: Request) {
    && r in s.requests
    && (Exists(s, r) ==> s.requests[r] == copy)
    && cfg.poolOf(a) !in copy.declinedBy
  }

  predicate OpOk(s: System, r: RequestId, ns: set<NodeId>, op: Op) {
    match op
    case NoOp => true
    case Reusing(n) => n !in ns
    case Claimed(n, copy) => n !in ns && n in s.nodes && s.nodes[n] == copy && copy == Node(READY, None)
    case Creating(n) =>
      n !in ns && n in s.nodes && s.nodes[n] == Node(INIT, Some(r)) && n in s.history && s.history[n] == {Node(INIT, Some(r))} && n !in s.nodeLock
    case Created(n) => n !in ns && n in s.nodes && s.nodes[n] == Node(INIT, Some(r))
  }

  predicate CleanOk(s: System, kind: Kind, n: NodeId, phase: Phase) {
    match phase
    case Locked => true
    case Passed(copy) =>
      && n in s.nodes
      && (if kind.DeleteNode?
          then && InCleanup(copy.state) && s.nodes[n].owner == copy.owner
               && (copy.owner.Some? ==> InCleanup(s.nodes[n].state) || s.nodes[n].state.GONE?)
          else s.nodes[n] == copy && Passes(s, kind, copy))
      && (kind.Deallocate? ==> copy.owner.value in s.requests)
    case Marked => kind.DeleteNode? && n in s.history && exists v :: v in s.history[n] && v.state.DELETED?
    case Removing => kind.DeleteNode? && n in s.history && exists v :: v in s.history[n] && v.state.DELETED?
  }

  predicate DataOk(cfg: Config, s: System, a: Actor) {
    match LocalOf(s, a)
    case Idle => true
    case Taking(r) => r in s.requests
    case Accepted(r, copy) => CopyOk(cfg, s, a, r, copy) && copy.state.REQUESTED?
    case Working(r, copy, ns, op) =>
      && CopyOk(cfg, s, a, r, copy) && copy.state.PENDING?
      && (forall n :: n in ns ==> Mine(s, n, r))
      && OpOk(s, r, ns, op)
    case Releasing(r, copy, ns, held, plan) =>
      && CopyOk(cfg, s, a, r, copy) && (copy.state.REQUESTED? || copy.state.PENDING?)
      && held <= ns && held !! s.orphans
      && (plan.Fulfil? ==> SetOf(plan.order) == ns)
      && (forall n :: n in held ==> n in s.nodes && (s.nodes[n].owner == Some(r) ||
                                                   (s.nodes[n].owner.None? && (plan.ClearAndDecline? || plan.ClearOnly?))))
      && (Exists(s, r) && (plan.Fulfil? || plan.Decline?) ==> forall n :: n in ns ==> Mine(s, n, r))
      && (plan.Fulfil? || plan.Decline? ==> forall n :: n in held ==> Mine(s, n, r))
    case Cleaning(kind, n, phase) => CleanOk(s, kind, n, phase)
    case Resetting(r, reset) =>
      && r in s.requests
      && (!reset.Unread? && Exists(s, r) ==> s.requests[r].state.PENDING?)
      && (reset.NodePassed? ==> reset.node in s.nodes && s.nodes[reset.node] == reset.copy && reset.copy.owner == Some(r))
    case Consuming(n) => true
  }

  // Everything but the actors of A is in order.
  ghost predicate Rest(cfg: Config, s: System, A: set<Actor>) {
    && NodesOk(s)
    && (forall r :: r in s.requests ==> RequestOk(s, r))
    && (forall b :: b !in A ==> LocksOk(s, b))
    && (forall b :: b !in A ==> DataOk(cfg, s, b))
  }

  ghost predicate Inv(cfg: Config, s: System) { Rest(cfg, s, {}) }

  // ---------------------------------------------------------------- single effects

  // Each effect of a step disturbs nobody but the actor that causes it.  A step is then
  // one or two effects and the actor's own move.

  lemma GoesKeepsOther(cfg: Config, s: System, a: Actor, l: Local, b: Actor)
    requires a != b && LocksOk(s, b) && DataOk(cfg, s, b)
    ensures LocksOk(Goes(s, a, l), b) && DataOk(cfg, Goes(s, a, l), b)
  {
    assert LocalOf(Goes(s, a, l), b) == LocalOf(s, b);
  }

  lemma GoesKeeps(cfg: Config, s: System, a: Actor, l: Local)
    requires Rest(cfg, s, {a}) && LocksOk(Goes(s, a, l), a) && DataOk(cfg, Goes(s, a, l), a)
    ensures Inv(cfg, Goes(s, a, l))
  {
    var s' := Goes(s, a, l);
    forall b ensures LocksOk(s', b) && DataOk(cfg, s', b) {
      hide LocksOk;
      hide DataOk;
      if b != a {
        assert LocksOk(s, b) && DataOk(cfg, s, b);
        GoesKeepsOther(cfg, s, a, l, b);
      }
    }
    forall r | r in s'.requests ensures RequestOk(s', r) {
      assert RequestOk(s, r);
    }
  }

  // Nobody has just stored n and is about to lock it.
  ghost predicate NotNewborn(s: System, n: NodeId, A: set<Actor>) {
    forall b :: b !in A && LocalOf(s, b).Working? && LocalOf(s, b).op.Creating? ==> LocalOf(s, b).op.node != n
  }

  lemma LockNKeepsActor(cfg: Config, s: System, n: NodeId, a: Actor, b: Actor)
    requires LocksOk(s, b) && DataOk(cfg, s, b) && Free(s, n)
    requires LocalOf(s, b).Working? && LocalOf(s, b).op.Creating? ==> LocalOf(s, b).op.node != n
    ensures LocksOk(LockN(s, n, a), b) && DataOk(cfg, LockN(s, n, a), b)
  {
    assert LocalOf(LockN(s, n, a), b) == LocalOf(s, b);
  }

  lemma LockNKeeps(cfg: Config, s: System, n: NodeId, a: Actor)
    requires Rest(cfg, s, {a}) && Free(s, n) && NotNewborn(s, n, {a})
    ensures Rest(cfg, LockN(s, n, a), {a})
  {
    var s', A := LockN(s, n, a), {a};
    forall b | b !in A ensures LocksOk(s', b) && DataOk(cfg, s', b) {
      hide LocksOk;
      hide DataOk;
      assert LocksOk(s, b) && DataOk(cfg, s, b);
      LockNKeepsActor(cfg, s, n, a, b);
    }
    forall r | r in s'.requests ensures RequestOk(s', r) {
      assert r in s.requests ==> RequestOk(s, r);
    }
  }

  lemma UnlockNKeeps(cfg: Config, s: System, n: NodeId, a: Actor)
    requires Rest(cfg, s, {a}) && n in s.nodeLock && s.nodeLock[n] == a
    ensures Rest(cfg, UnlockN(s, n), {a})
  {
    var s', A := UnlockN(s, n), {a};
    forall b | b !in A ensures LocksOk(s', b) && DataOk(cfg, s', b) {
      assert LocksOk(s, b) && DataOk(cfg, s, b);
    }
    forall r | r in s'.requests ensures RequestOk(s', r) {
      assert r in s.requests ==> RequestOk(s, r);
    }
  }

  lemma LockRKeeps(cfg: Config, s: System, r: RequestId, a: Actor)
    requires Rest(cfg, s, {a}) && r !in s.requestLock
    ensures Rest(cfg, LockR(s, r, a), {a})
  {
    var s', A := LockR(s, r, a), {a};
    forall b | b !in A ensures LocksOk(s', b) && DataOk(cfg, s', b) {
      assert LocksOk(s, b) && DataOk(cfg, s, b);
    }
    forall r | r in s'.requests ensures RequestOk(s', r) {
      assert r in s.requests ==> RequestOk(s, r);
    }
  }

  lemma UnlockRKeeps(cfg: Config, s: System, r: RequestId, a: Actor)
    requires Rest(cfg, s, {a}) && r in s.requestLock && s.requestLock[r] == a
    ensures Rest(cfg, UnlockR(s, r), {a})
  {
    var s', A := UnlockR(s, r), {a};
    forall b | b !in A ensures LocksOk(s', b) && DataOk(cfg, s', b) {
      assert LocksOk(s, b) && DataOk(cfg, s, b);
    }
    forall r | r in s'.requests ensures RequestOk(s', r) {
      assert r in s.requests ==> RequestOk(s, r);
    }
  }

  // The lock holder of an unfulfilled request rewrites it.
  lemma PutRKeeps(cfg: Config, s: System, r: RequestId, q: Request, a: Actor)
    requires Rest(cfg, s, {a}) && r in s.requestLock && s.requestLock[r] == a
    requires Exists(s, r) && q.exists_
    requires q.state.FULFILLED? ==> forall n :: n in q.nodes ==> Mine(s, n, r)
    ensures Rest(cfg, PutR(s, r, q), {a})
  {
    var s', A := PutR(s, r, q), {a};
    forall b | b !in A ensures LocksOk(s', b) && DataOk(cfg, s', b) {
      assert LocksOk(s, b) && DataOk(cfg, s, b);
    }
    forall r | r in s'.requests ensures RequestOk(s', r) {
      assert r in s.requests ==> RequestOk(s, r);
    }
  }

  // The owner of n may change from what it is: n is unowned, or its request is gone, or
  // its request is unfulfilled and locked by a.
  predicate OwnerMayGo(s: System, n: NodeId, a: Actor)
    requires n in s.nodes
  {
    var o := s.nodes[n].owner;
    o.None? || !Exists(s, o.value)
    || (!s.requests[o.value].state.FULFILLED? && o.value in s.requestLock && s.requestLock[o.value] == a)
  }

  // What the lock holder of a node may write to it.
  predicate MayPut(s: System, n: NodeId, v: Node, a: Actor) {
    && n in s.nodes && n in s.nodeLock && s.nodeLock[n] == a
    && (v.owner == s.nodes[n].owner || OwnerMayGo(s, n, a))
    && (v.owner.Some? ==> v.owner.value in s.requests)
    && (n in s.orphans ==> v.owner.None? && (v.state.BUILDING? || v.state.DELETING? || v.state.DELETED? || v.state.GONE?))
  }

  lemma PutKeepsOther(cfg: Config, s: System, n: NodeId, v: Node, a: Actor, b: Actor)
    requires NodesOk(s) && MayPut(s, n, v, a) && a != b && LocksOk(s, b) && DataOk(cfg, s, b)
    ensures LocksOk(Put(s, n, v), b) && DataOk(cfg, Put(s, n, v), b)
  {
  }

  lemma PutKeeps(cfg: Config, s: System, n: NodeId, v: Node, a: Actor)
    requires Rest(cfg, s, {a}) && MayPut(s, n, v, a)
    ensures Rest(cfg, Put(s, n, v), {a})
  {
    var s' := Put(s, n, v);
    forall b | b != a ensures LocksOk(s', b) && DataOk(cfg, s', b) {
      assert LocksOk(s, b) && DataOk(cfg, s, b);
      PutKeepsOther(cfg, s, n, v, a, b);
    }
    forall r | r in s'.requests ensures RequestOk(s', r) {
      assert RequestOk(s, r);
    }
  }

  lemma PutNewKeepsWork(cfg: Config, s: System, n: NodeId, v: Node, b: Actor)
    requires NodesOk(s) && n !in s.nodes && DataOk(cfg, s, b) && (LocalOf(s, b).Working? || LocalOf(s, b).Releasing?)
    ensures DataOk(cfg, Put(s, n, v), b)
  {
  }

  lemma PutNewKeepsCare(cfg: Config, s: System, n: NodeId, v: Node, b: Actor)
    requires NodesOk(s) && n !in s.nodes && DataOk(cfg, s, b) && !LocalOf(s, b).Working? && !LocalOf(s, b).Releasing?
    ensures DataOk(cfg, Put(s, n, v), b)
  {
  }

  lemma PutNewKeepsOther(cfg: Config, s: System, n: NodeId, v: Node, b: Actor)
    requires NodesOk(s) && n !in s.nodes && LocksOk(s, b) && DataOk(cfg, s, b)
    ensures LocksOk(Put(s, n, v), b) && DataOk(cfg, Put(s, n, v), b)
  {
    hide DataOk;
    if LocalOf(s, b).Working? || LocalOf(s, b).Releasing? {
      PutNewKeepsWork(cfg, s, n, v, b);
    } else {
      PutNewKeepsCare(cfg, s, n, v, b);
    }
  }

  lemma PutNewKeeps(cfg: Config, s: System, n: NodeId, v: Node, a: Actor)
    requires Rest(cfg, s, {a}) && n !in s.nodes
    requires v.owner.Some? ==> v.owner.value in s.requests
    ensures Rest(cfg, Put(s, n, v), {a})
  {
    var s' := Put(s, n, v);
    forall b | b != a ensures LocksOk(s', b) && DataOk(cfg, s', b) {
      assert LocksOk(s, b) && DataOk(cfg, s, b);
      PutNewKeepsOther(cfg, s, n, v, b);
    }
    forall r | r in s'.requests ensures RequestOk(s', r) {
      assert RequestOk(s, r);
    }
  }

  // The record of an unlocked node that once was DELETED goes away.
  lemma PutGoneKeepsOther(cfg: Config, s: System, n: NodeId, b: Actor)
    requires NodesOk(s) && Free(s, n) && LocksOk(s, b) && DataOk(cfg, s, b)
    requires exists v :: v in s.history[n] && v.state.DELETED?
    ensures var s' := Put(s, n, s.nodes[n].(state := GONE)); LocksOk(s', b) && DataOk(cfg, s', b)
  {
  }

  lemma PutGoneKeeps(cfg: Config, s: System, n: NodeId, a: Actor)
    requires Rest(cfg, s, {a}) && Free(s, n)
    requires exists v :: v in s.history[n] && v.state.DELETED?
    ensures Rest(cfg, Put(s, n, s.nodes[n].(state := GONE)), {a})
  {
    var s' := Put(s, n, s.nodes[n].(state := GONE));
    forall b | b != a ensures LocksOk(s', b) && DataOk(cfg, s', b) {
      assert LocksOk(s, b) && DataOk(cfg, s, b);
      PutGoneKeepsOther(cfg, s, n, b);
    }
    forall r | r in s'.requests ensures RequestOk(s', r) {
      assert r in s.requests ==> RequestOk(s, r);
    }
  }
}
