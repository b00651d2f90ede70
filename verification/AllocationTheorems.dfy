/** What the allocation protocol guarantees in every reachable state. */
module AllocationTheorems {
  import opened Wrappers
  import opened Allocation
  import opened AllocationProofs
  import AllocationSteps

  function Empty(): System { System(map[], map[], map[], map[], map[], map[], {}) }

  ghost predicate Runs(cfg: Config, s: System, steps: seq<Step>)
    decreases |steps|
  {
    steps == [] || (Enabled(cfg, s, steps[0]) && Runs(cfg, Apply(cfg, s, steps[0]), steps[1..]))
  }

  ghost function After(cfg: Config, s: System, steps: seq<Step>): System
    requires Runs(cfg, s, steps)
    decreases |steps|
  {
    if steps == [] then s else After(cfg, Apply(cfg, s, steps[0]), steps[1..])
  }

  lemma {:induction false} RunKeepsInv(cfg: Config, s: System, steps: seq<Step>)
    requires Inv(cfg, s) && Runs(cfg, s, steps)
    ensures Inv(cfg, After(cfg, s, steps))
    decreases |steps|
  {
    if steps != [] {
      AllocationSteps.StepKeepsInv(cfg, s, steps[0]);
      RunKeepsInv(cfg, Apply(cfg, s, steps[0]), steps[1..]);
    }
  }

  lemma ReachableIsOk(cfg: Config, steps: seq<Step>)
    requires Runs(cfg, Empty(), steps)
    ensures Inv(cfg, After(cfg, Empty(), steps))
  {
    RunKeepsInv(cfg, Empty(), steps);
  }

  // ---------------------------------------------------------------- exclusive nodes

  // The handler's nodeset as a list, whether or not parts of it are already unlocked.
  function Nodeset(l: Local): set<NodeId> { if l.Working? || l.Releasing? then l.nodeset else {} }

  // The nodes a live handler still works with: accepted into the set and not yet let go,
  // found fit for reuse, or just stored INIT, locked or not.
  function Owns(l: Local): set<NodeId> {
    match l
    case Working(_, _, ns, op) => if op.Claimed? || op.Creating? || op.Created? then ns + {op.node} else ns
    case Releasing(_, _, _, held, _) => held
    case _ => {}
  }

  lemma HandlersOwnDisjointNodes(cfg: Config, steps: seq<Step>, a: Actor, b: Actor)
    requires Runs(cfg, Empty(), steps) && a != b
    ensures var s := After(cfg, Empty(), steps); Owns(LocalOf(s, a)) !! Owns(LocalOf(s, b))
  {
    var s := After(cfg, Empty(), steps);
    ReachableIsOk(cfg, steps);
    AllocationSteps.Own(cfg, s, a);
    AllocationSteps.Own(cfg, s, b);
  }

  predicate HasLetGo(s: System, a: Actor, n: NodeId) {
    var l := LocalOf(s, a);
    l.Releasing? && n !in l.held && (!Exists(s, l.req) || l.plan.ClearAndDecline? || l.plan.ClearOnly?)
  }

  // The lists of two handlers can only meet in a node that one of them has unlocked after
  // its request was withdrawn or after taking its allocation back.
  lemma NodesetsMeetOnlyAfterRelease(cfg: Config, steps: seq<Step>, a: Actor, b: Actor, n: NodeId)
    requires Runs(cfg, Empty(), steps) && a != b
    requires var s := After(cfg, Empty(), steps); n in Nodeset(LocalOf(s, a)) && n in Nodeset(LocalOf(s, b))
    ensures var s := After(cfg, Empty(), steps); HasLetGo(s, a, n) || HasLetGo(s, b, n)
  {
    var s := After(cfg, Empty(), steps);
    ReachableIsOk(cfg, steps);
    AllocationSteps.Own(cfg, s, a);
    AllocationSteps.Own(cfg, s, b);
  }

  lemma FulfilledRequestsShareNoNode(cfg: Config, steps: seq<Step>, q: RequestId, r: RequestId, n: NodeId)
    requires Runs(cfg, Empty(), steps)
    requires var s := After(cfg, Empty(), steps);
             && Exists(s, q) && s.requests[q].state.FULFILLED? && n in s.requests[q].nodes
             && Exists(s, r) && s.requests[r].state.FULFILLED? && n in s.requests[r].nodes
    ensures q == r
  {
    var s := After(cfg, Empty(), steps);
    ReachableIsOk(cfg, steps);
    assert RequestOk(s, q) && RequestOk(s, r);
  }

  // A fulfilled request's node is in no live handler's hands.
  lemma FulfilledNodesAreNobodysWork(cfg: Config, steps: seq<Step>, r: RequestId, n: NodeId, a: Actor)
    requires Runs(cfg, Empty(), steps)
    requires var s := After(cfg, Empty(), steps);
             Exists(s, r) && s.requests[r].state.FULFILLED? && n in s.requests[r].nodes
    ensures n !in Owns(LocalOf(After(cfg, Empty(), steps), a))
  {
    var s := After(cfg, Empty(), steps);
    ReachableIsOk(cfg, steps);
    assert RequestOk(s, r);
    AllocationSteps.Own(cfg, s, a);
  }

  lemma LockAfterCreateSucceeds(cfg: Config, steps: seq<Step>, a: Actor)
    requires Runs(cfg, Empty(), steps)
    requires var l := LocalOf(After(cfg, Empty(), steps), a); l.Working? && l.op.Creating?
    ensures var s := After(cfg, Empty(), steps); Free(s, LocalOf(s, a).op.node) && Enabled(cfg, s, LockInit(a))
  {
    ReachableIsOk(cfg, steps);
    AllocationSteps.NewNodeIsLockable(cfg, After(cfg, Empty(), steps), a);
  }

  // ---------------------------------------------------------------- nobody else writes

  function ActorOf(st: Step): Option<Actor> {
    match st
    case Submit(_) => None
    case Withdraw(_) => None
    case Retire(_) => None
    case OrphanStores(_, _) => None
    case Expire(_) => None
    case TakeRequest(a, _) => Some(a)
    case ReadRequest(a) => Some(a)
    case StorePending(a) => Some(a)
    case LockReady(a, _) => Some(a)
    case ReadReady(a) => Some(a)
    case StoreReady(a) => Some(a)
    case StoreInit(a, _) => Some(a)
    case LockInit(a) => Some(a)
    case StoreBuilding(a) => Some(a)
    case LauncherStores(a, _, _) => Some(a)
    case DropAborted(a, _) => Some(a)
    case Fault(a) => Some(a)
    case Finish(a, _) => Some(a)
    case ClearOwner(a, _) => Some(a)
    case Release(a, _) => Some(a)
    case StoreResult(a) => Some(a)
    case CleanerLocks(a, _, _) => Some(a)
    case CleanerReads(a) => Some(a)
    case CleanerStores(a) => Some(a)
    case CleanerGivesUp(a) => Some(a)
    case DeleterMarks(a) => Some(a)
    case DeleterRemovesLock(a) => Some(a)
    case DeleterRemovesNode(a) => Some(a)
    case LockLost(a, _) => Some(a)
    case ReadLost(a) => Some(a)
    case LockLostNode(a, _) => Some(a)
    case ReadLostNode(a) => Some(a)
    case StoreLostNode(a) => Some(a)
    case StoreLost(a) => Some(a)
    case ConsumerLocks(a, _, _) => Some(a)
    case ConsumerStores(a, _) => Some(a)
    case ConsumerUnlocks(a) => Some(a)
  }

  ghost predicate Unwritten(cfg: Config, s: System, st: Step, n: NodeId)
    requires Enabled(cfg, s, st) && n in s.nodes
  {
    n in Apply(cfg, s, st).nodes && Apply(cfg, s, st).nodes[n] == s.nodes[n]
  }

  lemma OthersKnow(cfg: Config, s: System, a: Actor, b: Actor, n: NodeId)
    requires Inv(cfg, s) && a != b && n in Owns(LocalOf(s, b))
    ensures n in s.nodes && n !in HoldsN(LocalOf(s, a)) && n !in Owns(LocalOf(s, a)) && n !in s.orphans
    ensures LocksOk(s, a) && DataOk(cfg, s, a)
  {
    AllocationSteps.Own(cfg, s, a);
    AllocationSteps.Own(cfg, s, b);
  }

  lemma OwnedIsNotMarkedDeleted(cfg: Config, s: System, a: Actor, b: Actor, n: NodeId)
    requires Inv(cfg, s) && a != b && n in Owns(LocalOf(s, b))
    requires LocalOf(s, a).Cleaning? && LocalOf(s, a).phase.Removing? && LocalOf(s, a).node == n
    ensures n in s.nodeLock
  {
    AllocationSteps.Own(cfg, s, a);
    AllocationSteps.Own(cfg, s, b);
  }

  lemma OwnedIsNotFulfilled(cfg: Config, s: System, r: RequestId, b: Actor, n: NodeId)
    requires Inv(cfg, s) && Exists(s, r) && s.requests[r].state.FULFILLED? && n in Owns(LocalOf(s, b))
    ensures n !in s.requests[r].nodes
  {
    assert RequestOk(s, r);
    AllocationSteps.Own(cfg, s, b);
  }

  predicate Removes(l: Local, n: NodeId) { l.Cleaning? && l.phase.Removing? && l.node == n }

  // An actor writes to the nodes it has locked, to a new one, and, when deleting, to one
  // whose lock it has just removed.
  lemma HandlerWritesWhatItHolds(cfg: Config, s: System, st: Step, n: NodeId)
    requires (HandlerStep(st) || LaunchStep(st)) && ActorOf(st).Some?
    requires Enabled(cfg, s, st) && n in s.nodes && n !in HoldsN(LocalOf(s, ActorOf(st).value))
    ensures Unwritten(cfg, s, st, n)
  {
  }

  lemma FinisherWritesWhatItHolds(cfg: Config, s: System, st: Step, n: NodeId)
    requires FinishStep(st) && ActorOf(st).Some?
    requires Enabled(cfg, s, st) && n in s.nodes && n !in HoldsN(LocalOf(s, ActorOf(st).value))
    ensures Unwritten(cfg, s, st, n)
  {
  }

  predicate DeleterStep(st: Step) { st.DeleterMarks? || st.DeleterRemovesLock? || st.DeleterRemovesNode? }

  lemma MarkerWritesWhatItHolds(cfg: Config, s: System, st: Step, n: NodeId)
    requires CleanerStep(st) && !DeleterStep(st) && ActorOf(st).Some?
    requires Enabled(cfg, s, st) && n in s.nodes && n !in HoldsN(LocalOf(s, ActorOf(st).value))
    ensures Unwritten(cfg, s, st, n)
  {
  }

  lemma DeleterWritesWhatItHolds(cfg: Config, s: System, st: Step, n: NodeId)
    requires DeleterStep(st) && ActorOf(st).Some?
    requires Enabled(cfg, s, st) && n in s.nodes && n !in HoldsN(LocalOf(s, ActorOf(st).value))
    requires Removes(LocalOf(s, ActorOf(st).value), n) ==> n in s.nodeLock
    ensures Unwritten(cfg, s, st, n)
  {
  }

  lemma CleanerWritesWhatItHolds(cfg: Config, s: System, st: Step, n: NodeId)
    requires CleanerStep(st) && ActorOf(st).Some?
    requires Enabled(cfg, s, st) && n in s.nodes && n !in HoldsN(LocalOf(s, ActorOf(st).value))
    requires Removes(LocalOf(s, ActorOf(st).value), n) ==> n in s.nodeLock
    ensures Unwritten(cfg, s, st, n)
  {
    hide Enabled;
    hide Unwritten;
    if DeleterStep(st) {
      DeleterWritesWhatItHolds(cfg, s, st, n);
    } else {
      MarkerWritesWhatItHolds(cfg, s, st, n);
    }
  }

  lemma LostWritesWhatItHolds(cfg: Config, s: System, st: Step, n: NodeId)
    requires LostStep(st) && ActorOf(st).Some?
    requires Enabled(cfg, s, st) && n in s.nodes && n !in HoldsN(LocalOf(s, ActorOf(st).value))
    ensures Unwritten(cfg, s, st, n)
  {
  }

  lemma ConsumerWritesWhatItHolds(cfg: Config, s: System, st: Step, n: NodeId)
    requires ConsumerStep(st) && ActorOf(st).Some?
    requires Enabled(cfg, s, st) && n in s.nodes && n !in HoldsN(LocalOf(s, ActorOf(st).value))
    ensures Unwritten(cfg, s, st, n)
  {
  }

  lemma OnlyFulfilledRetire(cfg: Config, s: System, st: Step)
    requires st.Retire? && Enabled(cfg, s, st)
    ensures Exists(s, st.req) && s.requests[st.req].state.FULFILLED?
  {
  }

  lemma EnvironmentWrites(cfg: Config, s: System, st: Step, n: NodeId)
    requires ActorOf(st).None? && Enabled(cfg, s, st) && n in s.nodes && n !in s.orphans
    requires st.Retire? && st.req in s.requests ==> n !in s.requests[st.req].nodes
    ensures Unwritten(cfg, s, st, n)
  {
  }

  // Whatever anybody else does, a cleanup worker above all, the record of a node a live
  // handler owns stays as it is.
  lemma OwnedNodesAreUntouched(cfg: Config, steps: seq<Step>, st: Step, b: Actor, n: NodeId)
    requires Runs(cfg, Empty(), steps) && Enabled(cfg, After(cfg, Empty(), steps), st)
    requires ActorOf(st) != Some(b) && n in Owns(LocalOf(After(cfg, Empty(), steps), b))
    ensures n in After(cfg, Empty(), steps).nodes && Unwritten(cfg, After(cfg, Empty(), steps), st, n)
  {
    hide Inv;
    hide Enabled;
    hide Unwritten;
    ReachableIsOk(cfg, steps);
    var s := After(cfg, Empty(), steps);
    match ActorOf(st)
    case None =>
      OthersKnow(cfg, s, b + 1, b, n);
      if st.Retire? {
        OnlyFulfilledRetire(cfg, s, st);
        OwnedIsNotFulfilled(cfg, s, st.req, b, n);
      }
      EnvironmentWrites(cfg, s, st, n);
    case Some(a) =>
      OthersKnow(cfg, s, a, b, n);
      if Removes(LocalOf(s, a), n) {
        OwnedIsNotMarkedDeleted(cfg, s, a, b, n);
      }
      if HandlerStep(st) || LaunchStep(st) {
        HandlerWritesWhatItHolds(cfg, s, st, n);
      } else if FinishStep(st) {
        FinisherWritesWhatItHolds(cfg, s, st, n);
      } else if CleanerStep(st) {
        CleanerWritesWhatItHolds(cfg, s, st, n);
      } else if LostStep(st) {
        LostWritesWhatItHolds(cfg, s, st, n);
      } else {
        ConsumerWritesWhatItHolds(cfg, s, st, n);
      }
  }

  // ---------------------------------------------------------------- refreshed copies

  // Whoever acts on a refreshed record under its lock acts on the record as stored.  A
  // node being deleted is the one exception: an orphaned launcher may still write its
  // state, though never its owner.
  lemma LockHoldersSeeTheStore(cfg: Config, steps: seq<Step>, a: Actor)
    requires Runs(cfg, Empty(), steps)
    ensures var s := After(cfg, Empty(), steps);
            match LocalOf(s, a)
            case Working(r, copy, ns, op) =>
              && (Exists(s, r) ==> s.requests[r] == copy)
              && (forall n :: n in ns ==> n in s.nodes && s.nodes[n].owner == Some(r))
              && (op.Claimed? ==> op.node in s.nodes && s.nodes[op.node] == op.copy)
            case Releasing(r, copy, _, _, _) => Exists(s, r) ==> s.requests[r] == copy
            case Cleaning(kind, n, Passed(copy)) =>
              && n in s.nodes && s.nodes[n].owner == copy.owner
              && (!kind.DeleteNode? ==> s.nodes[n] == copy)
            case Resetting(r, NodePassed(n, copy)) => n in s.nodes && s.nodes[n] == copy && copy.owner == Some(r)
            case _ => true
  {
    ReachableIsOk(cfg, steps);
    AllocationSteps.Own(cfg, After(cfg, Empty(), steps), a);
  }

  // ---------------------------------------------------------------- the max-ready-age race

  predicate ReadyFor(s: System, n: NodeId, r: RequestId) {
    n in s.nodes && s.nodes[n] == Node(READY, Some(r)) && Exists(s, r)
  }

  // Of all cleanup work only _cleanupMaxReadyAge marks a READY node that is allocated to
  // an existing request: it re-checks the state under the lock, but not the allocation.
  lemma OnlyMaxReadyAgeTakesAllocated(cfg: Config, steps: seq<Step>, st: Step, r: RequestId)
    requires Runs(cfg, Empty(), steps) && (st.CleanerStores? || st.DeleterMarks?)
    requires Enabled(cfg, After(cfg, Empty(), steps), st)
    requires var s := After(cfg, Empty(), steps); ReadyFor(s, LocalOf(s, st.actor).node, r)
    ensures var s := After(cfg, Empty(), steps); st.CleanerStores? && LocalOf(s, st.actor).kind.MaxReadyAge?
  {
    ReachableIsOk(cfg, steps);
    AllocationSteps.Own(cfg, After(cfg, Empty(), steps), st.actor);
  }

  lemma RunOfThree(cfg: Config, s: System, s0: Step, s1: Step, s2: Step)
    ensures Runs(cfg, s, [s0, s1, s2]) ==> Enabled(cfg, s, s0)
    ensures Enabled(cfg, s, s0) && Enabled(cfg, Apply(cfg, s, s0), s1)
            && Enabled(cfg, Apply(cfg, Apply(cfg, s, s0), s1), s2) ==>
              && Runs(cfg, s, [s0, s1, s2])
              && After(cfg, s, [s0, s1, s2]) == Apply(cfg, Apply(cfg, Apply(cfg, s, s0), s1), s2)
  {
    hide Enabled;
    hide Apply;
    var steps := [s0, s1, s2];
    assert steps[1..] == [s1, s2] && [s1, s2][1..] == [s2] && [s2][1..] == [];
    if Enabled(cfg, s, s0) && Enabled(cfg, Apply(cfg, s, s0), s1) && Enabled(cfg, Apply(cfg, Apply(cfg, s, s0), s1), s2) {
      var t1 := Apply(cfg, s, s0);
      var t2 := Apply(cfg, t1, s1);
      assert Runs(cfg, Apply(cfg, t2, s2), []);
      assert Runs(cfg, t2, [s2]);
      assert Runs(cfg, t1, [s1, s2]);
      assert After(cfg, t2, [s2]) == Apply(cfg, t2, s2);
      assert After(cfg, t1, [s1, s2]) == Apply(cfg, t2, s2);
    }
  }

  // What the max-ready-age worker sees between its steps.
  predicate Undisturbed(s: System, t: System, a: Actor, l: Local) {
    LocalOf(t, a) == l && t.nodes == s.nodes && t.requests == s.requests
  }

  lemma MaxReadyAgeLocks(cfg: Config, s: System, a: Actor, n: NodeId)
    requires LocalOf(s, a).Idle? && Free(s, n) && SeenPickable(s, MaxReadyAge, n)
    ensures Enabled(cfg, s, CleanerLocks(a, MaxReadyAge, n))
    ensures Undisturbed(s, Apply(cfg, s, CleanerLocks(a, MaxReadyAge, n)), a, Cleaning(MaxReadyAge, n, Locked))
  {
  }

  lemma MaxReadyAgeReads(cfg: Config, s: System, t: System, a: Actor, n: NodeId, r: RequestId)
    requires ReadyFor(s, n, r) && Undisturbed(s, t, a, Cleaning(MaxReadyAge, n, Locked))
    ensures Enabled(cfg, t, CleanerReads(a))
    ensures Undisturbed(s, Apply(cfg, t, CleanerReads(a)), a, Cleaning(MaxReadyAge, n, Passed(Node(READY, Some(r)))))
  {
  }

  lemma MaxReadyAgeStores(cfg: Config, s: System, t: System, a: Actor, n: NodeId, r: RequestId)
    requires ReadyFor(s, n, r) && Undisturbed(s, t, a, Cleaning(MaxReadyAge, n, Passed(Node(READY, Some(r)))))
    ensures Enabled(cfg, t, CleanerStores(a))
    ensures var t' := Apply(cfg, t, CleanerStores(a));
            n in t'.nodes && t'.nodes[n] == Node(DELETING, Some(r)) && t'.requests == s.requests
  {
  }

  // It takes an unlocked one exactly when the node was once READY and unallocated, so
  // that a cached record can make it try; the request is left listing a node marked for
  // deletion.
  lemma MaxReadyAgeTakesIff(cfg: Config, s: System, a: Actor, n: NodeId, r: RequestId)
    requires LocalOf(s, a).Idle? && Free(s, n) && ReadyFor(s, n, r)
    ensures var steps := [CleanerLocks(a, MaxReadyAge, n), CleanerReads(a), CleanerStores(a)];
            && (Runs(cfg, s, steps) <==> SeenPickable(s, MaxReadyAge, n))
            && (Runs(cfg, s, steps) ==>
                  var s' := After(cfg, s, steps);
                  n in s'.nodes && s'.nodes[n] == Node(DELETING, Some(r)) && s'.requests == s.requests)
  {
    hide Runs;
    hide After;
    RunOfThree(cfg, s, CleanerLocks(a, MaxReadyAge, n), CleanerReads(a), CleanerStores(a));
    if SeenPickable(s, MaxReadyAge, n) {
      hide Enabled;
      hide Apply;
      MaxReadyAgeLocks(cfg, s, a, n);
      var t1 := Apply(cfg, s, CleanerLocks(a, MaxReadyAge, n));
      MaxReadyAgeReads(cfg, s, t1, a, n, r);
      MaxReadyAgeStores(cfg, s, Apply(cfg, t1, CleanerReads(a)), a, n, r);
    }
  }

  // ---------------------------------------------------------------- the life of a request

  predicate Terminal(q: Request) { q.state.FULFILLED? || q.state.REQUEST_FAILED? }

  // The whole life cycle: nothing changes, the requestor withdraws it, a handler takes it
  // up, the lost-request worker hands it back, a handler fulfils it, or a pool that has
  // not declined it yet declines it.
  ghost predicate Moves(cfg: Config, q: Request, q': Request) {
    || q' == q
    || q' == q.(exists_ := false)
    || (q.state.REQUESTED? && q' == q.(state := PENDING))
    || (q.state.PENDING? && q' == q.(state := REQUESTED, nodes := []))
    || (!Terminal(q) && q' == q.(state := FULFILLED, nodes := q'.nodes))
    || (!Terminal(q) && exists p :: p !in q.declinedBy && q' == Declined(cfg, q, p))
  }

  predicate WritesRequests(st: Step) {
    st.Submit? || st.Withdraw? || st.Retire? || st.StorePending? || st.StoreResult? || st.StoreLost?
  }

  lemma HandlersLeaveRequests(cfg: Config, s: System, st: Step)
    requires HandlerStep(st) && !WritesRequests(st) && Enabled(cfg, s, st)
    ensures Apply(cfg, s, st).requests == s.requests
  {
  }

  lemma LaunchersLeaveRequests(cfg: Config, s: System, st: Step)
    requires LaunchStep(st) && Enabled(cfg, s, st)
    ensures Apply(cfg, s, st).requests == s.requests
  {
  }

  lemma FinishersLeaveRequests(cfg: Config, s: System, st: Step)
    requires FinishStep(st) && !WritesRequests(st) && Enabled(cfg, s, st)
    ensures Apply(cfg, s, st).requests == s.requests
  {
  }

  lemma CleanersLeaveRequests(cfg: Config, s: System, st: Step)
    requires CleanerStep(st) && !DeleterStep(st) && Enabled(cfg, s, st)
    ensures Apply(cfg, s, st).requests == s.requests
  {
  }

  lemma DeletersLeaveRequests(cfg: Config, s: System, st: Step)
    requires DeleterStep(st) && Enabled(cfg, s, st)
    ensures Apply(cfg, s, st).requests == s.requests
  {
  }

  lemma LostLeavesRequests(cfg: Config, s: System, st: Step)
    requires LostStep(st) && !WritesRequests(st) && Enabled(cfg, s, st)
    ensures Apply(cfg, s, st).requests == s.requests
  {
  }

  lemma ConsumersLeaveRequests(cfg: Config, s: System, st: Step)
    requires ConsumerStep(st) && Enabled(cfg, s, st)
    ensures Apply(cfg, s, st).requests == s.requests
  {
  }

  lemma ExpiryLeavesRequests(cfg: Config, s: System, dead: set<Actor>)
    ensures Apply(cfg, s, Expire(dead)).requests == s.requests
  {
  }

  predicate IsDecline(cfg: Config, s: System, st: Step, r: RequestId, p: Pool) {
    st.StoreResult? && cfg.poolOf(st.actor) == p && Exists(s, r)
    && var l := LocalOf(s, st.actor); l.Releasing? && l.req == r && (l.plan.Decline? || l.plan.ClearAndDecline?)
  }

  lemma ResultMovesRequest(cfg: Config, s: System, a: Actor, r: RequestId)
    requires Inv(cfg, s) && Exists(s, r) && Enabled(cfg, s, StoreResult(a))
    ensures r in Apply(cfg, s, StoreResult(a)).requests
    ensures var q, q' := s.requests[r], Apply(cfg, s, StoreResult(a)).requests[r]; var p := cfg.poolOf(a);
            && Moves(cfg, q, q')
            && (IsDecline(cfg, s, StoreResult(a), r, p) ==> p !in q.declinedBy && !Terminal(q) && q' == Declined(cfg, q, p))
  {
    hide Inv;
    AllocationSteps.Own(cfg, s, a);
  }

  lemma OtherStepsLeaveRequests(cfg: Config, s: System, st: Step)
    requires !WritesRequests(st) && Enabled(cfg, s, st)
    ensures Apply(cfg, s, st).requests == s.requests
  {
    hide Enabled;
    hide Apply;
    if HandlerStep(st) {
      HandlersLeaveRequests(cfg, s, st);
    } else if LaunchStep(st) {
      LaunchersLeaveRequests(cfg, s, st);
    } else if FinishStep(st) {
      FinishersLeaveRequests(cfg, s, st);
    } else if DeleterStep(st) {
      DeletersLeaveRequests(cfg, s, st);
    } else if CleanerStep(st) {
      CleanersLeaveRequests(cfg, s, st);
    } else if LostStep(st) {
      LostLeavesRequests(cfg, s, st);
    } else if ConsumerStep(st) {
      ConsumersLeaveRequests(cfg, s, st);
    } else {
      ExpiryLeavesRequests(cfg, s, st.dead);
    }
  }

  lemma WorkerMovesRequest(cfg: Config, s: System, st: Step, r: RequestId)
    requires st.StorePending? || st.StoreLost?
    requires Inv(cfg, s) && Exists(s, r) && Enabled(cfg, s, st)
    ensures r in Apply(cfg, s, st).requests && Moves(cfg, s.requests[r], Apply(cfg, s, st).requests[r])
  {
    hide Inv;
    AllocationSteps.Own(cfg, s, st.actor);
  }

  lemma RequestorMovesRequest(cfg: Config, s: System, st: Step, r: RequestId)
    requires st.Submit? || st.Withdraw? || st.Retire?
    requires Exists(s, r) && Enabled(cfg, s, st)
    ensures r in Apply(cfg, s, st).requests && Moves(cfg, s.requests[r], Apply(cfg, s, st).requests[r])
  {
  }

  lemma StepMovesRequest(cfg: Config, s: System, st: Step, r: RequestId)
    requires Inv(cfg, s) && Exists(s, r) && Enabled(cfg, s, st)
    ensures r in Apply(cfg, s, st).requests && Moves(cfg, s.requests[r], Apply(cfg, s, st).requests[r])
  {
    hide Inv;
    if st.StoreResult? {
      hide Enabled;
      ResultMovesRequest(cfg, s, st.actor, r);
    } else if WritesRequests(st) {
      hide Enabled;
      hide Apply;
      if ActorOf(st).Some? {
        WorkerMovesRequest(cfg, s, st, r);
      } else {
        RequestorMovesRequest(cfg, s, st, r);
      }
    } else {
      hide Enabled;
      hide Apply;
      OtherStepsLeaveRequests(cfg, s, st);
    }
  }

  // Only existing requests are rewritten.
  predicate Untouched(s: System, s': System, r: RequestId) {
    (r in s'.requests <==> r in s.requests) && (r in s.requests ==> s'.requests[r] == s.requests[r])
  }

  lemma RequestorLeavesGone(cfg: Config, s: System, st: Step, r: RequestId)
    requires (st.Withdraw? || st.Retire? || (st.Submit? && st.req != r)) && Enabled(cfg, s, st) && !Exists(s, r)
    ensures Untouched(s, Apply(cfg, s, st), r)
  {
  }

  lemma WorkerLeavesGone(cfg: Config, s: System, st: Step, r: RequestId)
    requires (st.StorePending? || st.StoreLost?) && Enabled(cfg, s, st) && !Exists(s, r)
    ensures Untouched(s, Apply(cfg, s, st), r)
  {
  }

  lemma ResultLeavesGone(cfg: Config, s: System, st: Step, r: RequestId)
    requires st.StoreResult? && Enabled(cfg, s, st) && !Exists(s, r)
    ensures Untouched(s, Apply(cfg, s, st), r)
  {
  }

  lemma GoneIsUntouched(cfg: Config, s: System, st: Step, r: RequestId)
    requires Enabled(cfg, s, st) && !Exists(s, r) && st != Submit(r)
    ensures Untouched(s, Apply(cfg, s, st), r)
  {
    hide Enabled;
    hide Apply;
    if st.StoreResult? {
      ResultLeavesGone(cfg, s, st, r);
    } else if st.StorePending? || st.StoreLost? {
      WorkerLeavesGone(cfg, s, st, r);
    } else if WritesRequests(st) {
      RequestorLeavesGone(cfg, s, st, r);
    } else {
      OtherStepsLeaveRequests(cfg, s, st);
    }
  }

  lemma SubmitIsNew(cfg: Config, s: System, r: RequestId)
    requires Enabled(cfg, s, Submit(r))
    ensures r !in s.requests && Apply(cfg, s, Submit(r)).requests == s.requests[r := Request(true, REQUESTED, [], {})]
  {
  }

  // A withdrawn request stays as it is.
  lemma WithdrawnStays(cfg: Config, s: System, st: Step, r: RequestId)
    requires Enabled(cfg, s, st) && r in s.requests && !Exists(s, r)
    ensures r in Apply(cfg, s, st).requests && Apply(cfg, s, st).requests[r] == s.requests[r]
  {
    hide Enabled;
    hide Apply;
    if st == Submit(r) {
      SubmitIsNew(cfg, s, r);
    } else {
      GoneIsUntouched(cfg, s, st, r);
    }
  }

  lemma NewRequestIsFresh(cfg: Config, s: System, st: Step, r: RequestId)
    requires Enabled(cfg, s, st) && r !in s.requests && r in Apply(cfg, s, st).requests
    ensures Apply(cfg, s, st).requests[r] == Request(true, REQUESTED, [], {})
  {
    hide Enabled;
    hide Apply;
    if st == Submit(r) {
      SubmitIsNew(cfg, s, r);
    } else {
      GoneIsUntouched(cfg, s, st, r);
    }
  }

  lemma {:induction false} WithdrawnIsForever(cfg: Config, s: System, steps: seq<Step>, r: RequestId)
    requires Inv(cfg, s) && Runs(cfg, s, steps) && r in s.requests && !Exists(s, r)
    ensures var s' := After(cfg, s, steps); r in s'.requests && s'.requests[r] == s.requests[r]
    decreases |steps|
  {
    hide Inv;
    hide Enabled;
    hide Apply;
    if steps != [] {
      WithdrawnStays(cfg, s, steps[0], r);
      AllocationSteps.StepKeepsInv(cfg, s, steps[0]);
      WithdrawnIsForever(cfg, Apply(cfg, s, steps[0]), steps[1..], r);
    }
  }

  lemma {:induction false} TerminalIsForever(cfg: Config, s: System, steps: seq<Step>, r: RequestId)
    requires Inv(cfg, s) && Runs(cfg, s, steps) && Exists(s, r) && Terminal(s.requests[r])
    ensures var s' := After(cfg, s, steps);
            r in s'.requests && s'.requests[r].(exists_ := true) == s.requests[r]
    decreases |steps|
  {
    hide Inv;
    hide Enabled;
    hide Apply;
    if steps != [] {
      var s1 := Apply(cfg, s, steps[0]);
      StepMovesRequest(cfg, s, steps[0], r);
      AllocationSteps.StepKeepsInv(cfg, s, steps[0]);
      if Exists(s1, r) {
        TerminalIsForever(cfg, s1, steps[1..], r);
      } else {
        WithdrawnIsForever(cfg, s1, steps[1..], r);
      }
    }
  }

  // How often pool p stores a decline of request r in a run.
  ghost function Declines(cfg: Config, s: System, steps: seq<Step>, r: RequestId, p: Pool): nat
    requires Runs(cfg, s, steps)
    decreases |steps|
  {
    if steps == [] then 0
    else (if IsDecline(cfg, s, steps[0], r, p) then 1 else 0) + Declines(cfg, Apply(cfg, s, steps[0]), steps[1..], r, p)
  }

  predicate MayDecline(s: System, r: RequestId, p: Pool) {
    r !in s.requests || (s.requests[r].exists_ && p !in s.requests[r].declinedBy && !Terminal(s.requests[r]))
  }

  lemma StepAndDeclines(cfg: Config, s: System, st: Step, r: RequestId, p: Pool)
    requires Inv(cfg, s) && Enabled(cfg, s, st)
    ensures !MayDecline(s, r, p) ==> !MayDecline(Apply(cfg, s, st), r, p)
    ensures IsDecline(cfg, s, st, r, p) ==> MayDecline(s, r, p) && !MayDecline(Apply(cfg, s, st), r, p)
  {
    hide Inv;
    hide Enabled;
    hide Apply;
    if Exists(s, r) {
      StepMovesRequest(cfg, s, st, r);
      if IsDecline(cfg, s, st, r, p) {
        ResultMovesRequest(cfg, s, st.actor, r);
      }
    } else if r in s.requests {
      WithdrawnStays(cfg, s, st, r);
    }
  }

  lemma {:induction false} DeclinesAtMostOnce(cfg: Config, s: System, steps: seq<Step>, r: RequestId, p: Pool)
    requires Inv(cfg, s) && Runs(cfg, s, steps)
    ensures Declines(cfg, s, steps, r, p) <= if MayDecline(s, r, p) then 1 else 0
    decreases |steps|
  {
    hide Inv;
    hide Enabled;
    hide Apply;
    if steps != [] {
      StepAndDeclines(cfg, s, steps[0], r, p);
      AllocationSteps.StepKeepsInv(cfg, s, steps[0]);
      DeclinesAtMostOnce(cfg, Apply(cfg, s, steps[0]), steps[1..], r, p);
    }
  }

  lemma EachPoolDeclinesOnce(cfg: Config, steps: seq<Step>, r: RequestId, p: Pool)
    requires Runs(cfg, Empty(), steps)
    ensures Declines(cfg, Empty(), steps, r, p) <= 1
  {
    DeclinesAtMostOnce(cfg, Empty(), steps, r, p);
  }

  // A request has failed exactly when every registered pool has declined it.
  ghost predicate FailOk(cfg: Config, s: System) {
    forall r :: Exists(s, r) ==> (s.requests[r].state.REQUEST_FAILED? <==> cfg.registered <= s.requests[r].declinedBy)
  }

  lemma StepKeepsFailOk(cfg: Config, s: System, st: Step)
    requires cfg.registered != {} && Inv(cfg, s) && Enabled(cfg, s, st) && FailOk(cfg, s)
    ensures FailOk(cfg, Apply(cfg, s, st))
  {
    hide Inv;
    hide Enabled;
    hide Apply;
    var s' := Apply(cfg, s, st);
    forall r | Exists(s', r) ensures s'.requests[r].state.REQUEST_FAILED? <==> cfg.registered <= s'.requests[r].declinedBy {
      if Exists(s, r) {
        StepMovesRequest(cfg, s, st, r);
      } else if r in s.requests {
        WithdrawnStays(cfg, s, st, r);
      } else {
        NewRequestIsFresh(cfg, s, st, r);
      }
    }
  }

  lemma {:induction false} RunKeepsFailOk(cfg: Config, s: System, steps: seq<Step>)
    requires cfg.registered != {} && Inv(cfg, s) && FailOk(cfg, s) && Runs(cfg, s, steps)
    ensures FailOk(cfg, After(cfg, s, steps))
    decreases |steps|
  {
    hide Inv;
    hide Enabled;
    hide Apply;
    hide FailOk;
    if steps != [] {
      StepKeepsFailOk(cfg, s, steps[0]);
      AllocationSteps.StepKeepsInv(cfg, s, steps[0]);
      RunKeepsFailOk(cfg, Apply(cfg, s, steps[0]), steps[1..]);
    }
  }

  lemma FailsWhenTheLastPoolDeclines(cfg: Config, steps: seq<Step>, r: RequestId)
    requires cfg.registered != {} && Runs(cfg, Empty(), steps)
    requires Exists(After(cfg, Empty(), steps), r)
    ensures var q := After(cfg, Empty(), steps).requests[r];
            q.state.REQUEST_FAILED? <==> cfg.registered <= q.declinedBy
  {
    RunKeepsFailOk(cfg, Empty(), steps);
  }
}
