/** What each cleanup worker looks for, and what it makes of it. */
module AllocationCleaners {
  import opened Wrappers
  import opened Allocation
  import opened AllocationProofs
  import opened AllocationTheorems
  import opened AllocationRuns
  import AllocationSteps

  // What a worker is for, in the words of its configuration: the oldest unused node, a
  // READY node past its age, a HOLD node past its, a READY node whose request is gone, and
  // whatever is not wanted any more.
  predicate Wants(s: System, kind: Kind, v: Node) {
    match kind
    case OldestUnused => v == Node(READY, None)
    case MaxReadyAge => v.state == READY
    case MaxHoldAge => v.state == HOLD
    case Deallocate => v.state == READY && v.owner.Some? && !Exists(s, v.owner.value)
    case DeleteNode => v.state in {USED, IN_USE, BUILDING, FAILED, DELETING, DELETED, ABORTED}
  }

  lemma ReadsAre(cfg: Config, s: System, a: Actor)
    requires Enabled(cfg, s, CleanerReads(a))
    ensures var l := LocalOf(s, a);
            && l.Cleaning? && l.phase.Locked?
            && Apply(cfg, s, CleanerReads(a))
               == if l.node in s.nodes && Passes(s, l.kind, s.nodes[l.node]) then Goes(s, a, l.(phase := Passed(s.nodes[l.node])))
                  else Goes(UnlockN(s, l.node), a, Idle)
  {
  }

  // Under the lock it goes on exactly if the record as stored is what it wants, and gives
  // the lock back otherwise.
  lemma WorkerGoesOnIff(cfg: Config, s: System, a: Actor)
    requires Enabled(cfg, s, CleanerReads(a))
    ensures var l, s' := LocalOf(s, a), Apply(cfg, s, CleanerReads(a));
            && s'.nodes == s.nodes && s'.requests == s.requests
            && if l.node in s.nodes && Wants(s, l.kind, s.nodes[l.node])
               then LocalOf(s', a) == Cleaning(l.kind, l.node, Passed(s.nodes[l.node])) && s'.nodeLock == s.nodeLock
               else LocalOf(s', a).Idle? && s'.nodeLock == s.nodeLock - {l.node}
  {
    ReadsAre(cfg, s, a);
    hide Enabled;
    hide Apply;
  }

  // What it has passed is still so when it writes, up to the state of a node to delete.
  lemma WorkerFinds(cfg: Config, steps: seq<Step>, a: Actor)
    requires Runs(cfg, Empty(), steps)
    requires var l := LocalOf(After(cfg, Empty(), steps), a); l.Cleaning? && l.phase.Passed?
    ensures var s := After(cfg, Empty(), steps); var l := LocalOf(s, a);
            && l.node in s.nodes && l.node in s.nodeLock && s.nodeLock[l.node] == a
            && (if l.kind.DeleteNode? then s.nodes[l.node].owner == l.phase.copy.owner else Wants(s, l.kind, s.nodes[l.node]))
  {
    ReachableIsOk(cfg, steps);
    AllocationSteps.Own(cfg, After(cfg, Empty(), steps), a);
  }

  // What the write does: a node whose request is gone becomes unallocated, READY as it is,
  // and every other one is marked for deletion, its allocation as it is; the lock is given
  // back, unless the worker is the one that deletes.
  lemma WorkerWrites(cfg: Config, s: System, a: Actor)
    requires Inv(cfg, s) && LocalOf(s, a).Cleaning? && LocalOf(s, a).phase.Passed?
    requires LocalOf(s, a).node in s.nodes ==> !s.nodes[LocalOf(s, a).node].state.GONE?
    ensures Enabled(cfg, s, CleanerStores(a))
    ensures var n, kind := LocalOf(s, a).node, LocalOf(s, a).kind; var s' := Apply(cfg, s, CleanerStores(a));
            && n in s.nodes && n in s'.nodes
            && s'.nodes[n] == (if kind.Deallocate? then Node(READY, None) else Node(DELETING, s.nodes[n].owner))
            && (kind.DeleteNode? ==> s'.nodeLock == s.nodeLock && LocalOf(s', a) == LocalOf(s, a))
            && (!kind.DeleteNode? ==> Free(s', n) && LocalOf(s', a).Idle?)
            && (forall m :: m in s.nodes && m != n ==> m in s'.nodes && s'.nodes[m] == s.nodes[m])
  {
    AllocationSteps.Own(cfg, s, a);
  }

  // ---------------------------------------------------------------- deleting for good

  function Deletion(a: Actor, n: NodeId): seq<Step> {
    [CleanerLocks(a, DeleteNode, n), CleanerReads(a)] + [DeleterMarks(a), DeleterRemovesLock(a), DeleterRemovesNode(a)]
  }

  lemma FindsToDelete(cfg: Config, s: System, a: Actor, n: NodeId)
    requires LocalOf(s, a).Idle? && Free(s, n) && Seen(s, n, s.nodes[n]) && Wants(s, DeleteNode, s.nodes[n])
    ensures Runs(cfg, s, [CleanerLocks(a, DeleteNode, n), CleanerReads(a)])
    ensures After(cfg, s, [CleanerLocks(a, DeleteNode, n), CleanerReads(a)])
            == s.(nodeLock := s.nodeLock[n := a], locals := s.locals[a := Cleaning(DeleteNode, n, Passed(s.nodes[n]))])
  {
    var s1 := s.(nodeLock := s.nodeLock[n := a], locals := s.locals[a := Cleaning(DeleteNode, n, Locked)]);
    var s2 := s.(nodeLock := s.nodeLock[n := a], locals := s.locals[a := Cleaning(DeleteNode, n, Passed(s.nodes[n]))]);
    assert Does(cfg, s, CleanerLocks(a, DeleteNode, n), s1);
    assert s1.locals[a := Cleaning(DeleteNode, n, Passed(s.nodes[n]))] == s2.locals;
    assert Does(cfg, s1, CleanerReads(a), s2);
    hide Enabled;
    hide Apply;
    FollowsRuns(cfg, [s, s1, s2], [CleanerLocks(a, DeleteNode, n), CleanerReads(a)]);
  }

  lemma Deletes(cfg: Config, s: System, a: Actor, n: NodeId, copy: Node)
    requires LocalOf(s, a) == Cleaning(DeleteNode, n, Passed(copy)) && n in s.nodes && !s.nodes[n].state.GONE?
    ensures var steps := [DeleterMarks(a), DeleterRemovesLock(a), DeleterRemovesNode(a)];
            && Runs(cfg, s, steps)
            && var t := After(cfg, s, steps); n in t.nodes && t.nodes[n] == Node(GONE, copy.owner) && Free(t, n) && LocalOf(t, a).Idle?
  {
    var s1 := Goes(Put(s, n, copy.(state := DELETED)), a, Cleaning(DeleteNode, n, Marked));
    var s2 := Goes(UnlockN(s1, n), a, Cleaning(DeleteNode, n, Removing));
    var s3 := Goes(Put(s2, n, s2.nodes[n].(state := GONE)), a, Idle).(orphans := s2.orphans - {n});
    Marks(cfg, s, a, n, copy);
    RemovesLock(cfg, s1, a, n);
    RemovesNode(cfg, s2, a, n);
    hide Enabled;
    hide Apply;
    FollowsRuns(cfg, [s, s1, s2, s3], [DeleterMarks(a), DeleterRemovesLock(a), DeleterRemovesNode(a)]);
  }

  lemma Marks(cfg: Config, s: System, a: Actor, n: NodeId, copy: Node)
    requires LocalOf(s, a) == Cleaning(DeleteNode, n, Passed(copy)) && n in s.nodes && !s.nodes[n].state.GONE?
    ensures Does(cfg, s, DeleterMarks(a), Goes(Put(s, n, copy.(state := DELETED)), a, Cleaning(DeleteNode, n, Marked)))
  {
  }

  lemma RemovesLock(cfg: Config, s: System, a: Actor, n: NodeId)
    requires LocalOf(s, a) == Cleaning(DeleteNode, n, Marked)
    ensures Does(cfg, s, DeleterRemovesLock(a), Goes(UnlockN(s, n), a, Cleaning(DeleteNode, n, Removing)))
  {
  }

  // A znode with a lock below it cannot be removed.
  lemma RemovesNode(cfg: Config, s: System, a: Actor, n: NodeId)
    requires LocalOf(s, a) == Cleaning(DeleteNode, n, Removing) && n in s.nodes
    ensures Does(cfg, s, DeleterRemovesNode(a),
                 if n in s.nodeLock then Goes(s, a, Idle)
                 else Goes(Put(s, n, s.nodes[n].(state := GONE)), a, Idle).(orphans := s.orphans - {n}))
  {
  }

  // Exactly the nodes nobody wants any more can be deleted, and then they are gone, their
  // lock with them.
  lemma DeletionIff(cfg: Config, s: System, a: Actor, n: NodeId)
    requires LocalOf(s, a).Idle? && Free(s, n) && Seen(s, n, s.nodes[n])
    ensures Runs(cfg, s, Deletion(a, n)) <==> Wants(s, DeleteNode, s.nodes[n])
    ensures Runs(cfg, s, Deletion(a, n)) ==>
              var t := After(cfg, s, Deletion(a, n)); n in t.nodes && t.nodes[n].state.GONE? && Free(t, n) && LocalOf(t, a).Idle?
  {
    if Wants(s, DeleteNode, s.nodes[n]) {
      FindsToDelete(cfg, s, a, n);
      var s1 := After(cfg, s, [CleanerLocks(a, DeleteNode, n), CleanerReads(a)]);
      Deletes(cfg, s1, a, n, s.nodes[n]);
      hide Runs;
      hide After;
      RunsJoin(cfg, s, [CleanerLocks(a, DeleteNode, n), CleanerReads(a)], [DeleterMarks(a), DeleterRemovesLock(a), DeleterRemovesNode(a)]);
    } else if Runs(cfg, s, Deletion(a, n)) {
      DeletionGuards(cfg, s, a, n);
      hide Runs;
      NotWanted(cfg, s, a, n);
      assert false;
    }
  }

  lemma DeletionGuards(cfg: Config, s: System, a: Actor, n: NodeId)
    requires Runs(cfg, s, Deletion(a, n))
    ensures Enabled(cfg, s, CleanerLocks(a, DeleteNode, n))
    ensures var s1 := Apply(cfg, s, CleanerLocks(a, DeleteNode, n));
            Enabled(cfg, s1, CleanerReads(a)) && Enabled(cfg, Apply(cfg, s1, CleanerReads(a)), DeleterMarks(a))
  {
    hide Enabled;
    hide Apply;
    var steps := Deletion(a, n);
    var rest := [DeleterMarks(a), DeleterRemovesLock(a), DeleterRemovesNode(a)];
    assert steps[1..] == [CleanerReads(a)] + rest && steps[1..][1..] == rest;
    var s1 := Apply(cfg, s, CleanerLocks(a, DeleteNode, n));
    assert Runs(cfg, s1, [CleanerReads(a)] + rest);
    assert Runs(cfg, Apply(cfg, s1, CleanerReads(a)), rest);
  }

  lemma LockingIs(cfg: Config, s: System, a: Actor, n: NodeId)
    requires Enabled(cfg, s, CleanerLocks(a, DeleteNode, n))
    ensures Apply(cfg, s, CleanerLocks(a, DeleteNode, n)) == Goes(LockN(s, n, a), a, Cleaning(DeleteNode, n, Locked))
    ensures Enabled(cfg, Apply(cfg, s, CleanerLocks(a, DeleteNode, n)), CleanerReads(a))
  {
  }

  lemma IdleMarksNothing(cfg: Config, s: System, a: Actor)
    requires LocalOf(s, a).Idle?
    ensures !Enabled(cfg, s, DeleterMarks(a))
  {
  }

  lemma NotWanted(cfg: Config, s: System, a: Actor, n: NodeId)
    requires LocalOf(s, a).Idle? && Free(s, n) && !Wants(s, DeleteNode, s.nodes[n]) && Enabled(cfg, s, CleanerLocks(a, DeleteNode, n))
    ensures var s1 := Apply(cfg, s, CleanerLocks(a, DeleteNode, n));
            Enabled(cfg, s1, CleanerReads(a)) && !Enabled(cfg, Apply(cfg, s1, CleanerReads(a)), DeleterMarks(a))
  {
    hide Enabled;
    hide Apply;
    LockingIs(cfg, s, a, n);
    var s1 := Apply(cfg, s, CleanerLocks(a, DeleteNode, n));
    WorkerGoesOnIff(cfg, s1, a);
    IdleMarksNothing(cfg, Apply(cfg, s1, CleanerReads(a)), a);
  }

  // ---------------------------------------------------------------- lost requests

  function Reset(a: Actor, r: RequestId): seq<Step> { [LockLost(a, r), ReadLost(a), StoreLost(a)] }

  lemma LockLostIs(cfg: Config, s: System, a: Actor, r: RequestId)
    requires LocalOf(s, a).Idle? && r in s.requests && r !in s.requestLock
    ensures Does(cfg, s, LockLost(a, r), Goes(LockR(s, r, a), a, Resetting(r, Unread)))
  {
  }

  lemma ReadLostIs(cfg: Config, s: System, a: Actor, r: RequestId)
    requires LocalOf(s, a) == Resetting(r, Unread)
    ensures Does(cfg, s, ReadLost(a), if Exists(s, r) && s.requests[r].state == PENDING then Goes(s, a, Resetting(r, Read))
                                      else Goes(UnlockR(s, r), a, Idle))
  {
  }

  lemma StoreLostIs(cfg: Config, s: System, a: Actor, r: RequestId)
    requires LocalOf(s, a) == Resetting(r, Read) && Exists(s, r)
    ensures Does(cfg, s, StoreLost(a), Goes(UnlockR(PutR(s, r, s.requests[r].(state := REQUESTED, nodes := [])), r), a, Idle))
  {
  }

  lemma IdleStoresNothing(cfg: Config, s: System, a: Actor)
    requires LocalOf(s, a).Idle?
    ensures !Enabled(cfg, s, StoreLost(a))
  {
  }

  // A request nobody has locked is handed back, once its nodes are seen to, exactly if it is
  // PENDING: open again, listing nothing, unlocked.
  lemma ResetIff(cfg: Config, s: System, a: Actor, r: RequestId)
    requires LocalOf(s, a).Idle? && Exists(s, r) && r !in s.requestLock
    ensures Runs(cfg, s, Reset(a, r)) <==> s.requests[r].state == PENDING
    ensures Runs(cfg, s, Reset(a, r)) ==>
              var t := After(cfg, s, Reset(a, r));
              && t.requests == s.requests[r := s.requests[r].(state := REQUESTED, nodes := [])]
              && t.requestLock == s.requestLock && t.nodes == s.nodes && LocalOf(t, a).Idle?
  {
    hide Enabled;
    hide Apply;
    LockLostIs(cfg, s, a, r);
    var s1 := Goes(LockR(s, r, a), a, Resetting(r, Unread));
    ReadLostIs(cfg, s1, a, r);
    var steps := Reset(a, r);
    assert steps[1..] == [ReadLost(a), StoreLost(a)] && steps[1..][1..] == [StoreLost(a)];
    if s.requests[r].state == PENDING {
      var s2 := Goes(s1, a, Resetting(r, Read));
      StoreLostIs(cfg, s2, a, r);
      var s3 := Goes(UnlockR(PutR(s2, r, s2.requests[r].(state := REQUESTED, nodes := [])), r), a, Idle);
      assert s3.requestLock == s.requestLock;
      FollowsRuns(cfg, [s, s1, s2, s3], steps);
    } else {
      var s2 := Goes(UnlockR(s1, r), a, Idle);
      IdleStoresNothing(cfg, s2, a);
      assert !Runs(cfg, s2, [StoreLost(a)]) && !Runs(cfg, s1, [ReadLost(a), StoreLost(a)]);
    }
  }
}
