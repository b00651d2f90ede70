/**
 Runs from the empty system: a fulfilled request loses a node to the max-ready-age worker,
 and two handlers have one node in their sets.
 */
module AllocationRuns {
  import opened Wrappers
  import opened Allocation
  import opened AllocationProofs
  import opened AllocationTheorems
  import AllocationSteps

  lemma {:induction false} RunsJoin(cfg: Config, s: System, first: seq<Step>, rest: seq<Step>)
    requires Runs(cfg, s, first) && Runs(cfg, After(cfg, s, first), rest)
    ensures Runs(cfg, s, first + rest) && After(cfg, s, first + rest) == After(cfg, After(cfg, s, first), rest)
    decreases |first|
  {
    hide Enabled;
    hide Apply;
    if first == [] {
      assert first + rest == rest;
    } else {
      RunsJoin(cfg, Apply(cfg, s, first[0]), first[1..], rest);
      assert (first + rest)[1..] == first[1..] + rest;
    }
  }

  // Steps and the states between them.
  ghost predicate Follows(cfg: Config, states: seq<System>, steps: seq<Step>)
    requires |states| == |steps| + 1
  {
    forall i :: 0 <= i < |steps| ==> Enabled(cfg, states[i], steps[i]) && Apply(cfg, states[i], steps[i]) == states[i + 1]
  }

  lemma {:induction false} FollowsRuns(cfg: Config, states: seq<System>, steps: seq<Step>)
    requires |states| == |steps| + 1 && Follows(cfg, states, steps)
    ensures Runs(cfg, states[0], steps) && After(cfg, states[0], steps) == states[|steps|]
    decreases |steps|
  {
    hide Enabled;
    hide Apply;
    if steps != [] {
      FollowsRuns(cfg, states[1..], steps[1..]);
    }
  }

  // ---------------------------------------------------------------- stretches of a run

  ghost predicate Does(cfg: Config, s: System, st: Step, t: System) { Enabled(cfg, s, st) && Apply(cfg, s, st) == t }

  function New(): Request { Request(true, REQUESTED, [], {}) }

  // A handler takes up a new request.
  function TakeUp(a: Actor, r: RequestId): seq<Step> { [Submit(r), TakeRequest(a, r), ReadRequest(a), StorePending(a)] }

  function AtWork(s: System, a: Actor, r: RequestId): System {
    var q := New().(state := PENDING);
    s.(requests := s.requests[r := q], requestLock := s.requestLock[r := a], locals := s.locals[a := Working(r, q, {}, NoOp)])
  }

  lemma Submits(cfg: Config, s: System, r: RequestId)
    requires r !in s.requests
    ensures Does(cfg, s, Submit(r), PutR(s, r, New()))
  {
  }

  lemma Takes(cfg: Config, s: System, a: Actor, r: RequestId)
    requires LocalOf(s, a).Idle? && Exists(s, r) && r !in s.requestLock
    ensures Does(cfg, s, TakeRequest(a, r), Goes(LockR(s, r, a), a, Taking(r)))
  {
  }

  lemma Accepts(cfg: Config, s: System, a: Actor, r: RequestId)
    requires LocalOf(s, a) == Taking(r) && r in s.requests && s.requests[r] == New()
    ensures Does(cfg, s, ReadRequest(a), Goes(s, a, Accepted(r, New())))
  {
  }

  lemma Begins(cfg: Config, s: System, a: Actor, r: RequestId)
    requires LocalOf(s, a) == Accepted(r, New()) && Exists(s, r)
    ensures var q := New().(state := PENDING); Does(cfg, s, StorePending(a), Goes(PutR(s, r, q), a, Working(r, q, {}, NoOp)))
  {
  }

  lemma TakesUp(cfg: Config, s: System, a: Actor, r: RequestId)
    requires LocalOf(s, a).Idle? && r !in s.requests && r !in s.requestLock
    ensures Runs(cfg, s, TakeUp(a, r)) && After(cfg, s, TakeUp(a, r)) == AtWork(s, a, r)
  {
    hide Enabled;
    hide Apply;
    var s1 := PutR(s, r, New());
    var s2 := Goes(LockR(s1, r, a), a, Taking(r));
    var s3 := Goes(s2, a, Accepted(r, New()));
    var s4 := AtWork(s, a, r);
    Submits(cfg, s, r);
    Takes(cfg, s1, a, r);
    Accepts(cfg, s2, a, r);
    Begins(cfg, s3, a, r);
    assert Does(cfg, s3, StorePending(a), s4) by {
      var q := New().(state := PENDING);
      assert s3.locals[a := Working(r, q, {}, NoOp)] == s4.locals && s3.requests[r := q] == s4.requests;
    }
    FollowsRuns(cfg, [s, s1, s2, s3, s4], TakeUp(a, r));
  }

  // It builds a node.
  function Create(a: Actor, n: NodeId): seq<Step> { [StoreInit(a, n), LockInit(a)] }

  function Launch(a: Actor, n: NodeId): seq<Step> { [StoreBuilding(a), LauncherStores(a, n, READY)] }

  function Build(a: Actor, n: NodeId): seq<Step> { Create(a, n) + Launch(a, n) }

  predicate Built(s: System, t: System, a: Actor, r: RequestId, q: Request, n: NodeId) {
    && t.nodes == s.nodes[n := Node(READY, Some(r))] && n in t.history
    && t.nodeLock == s.nodeLock[n := a] && t.locals == s.locals[a := Working(r, q, {n}, NoOp)]
    && t.requests == s.requests && t.requestLock == s.requestLock && t.orphans == s.orphans
  }

  lemma StoresInit(cfg: Config, s: System, a: Actor, r: RequestId, q: Request, n: NodeId)
    requires LocalOf(s, a) == Working(r, q, {}, NoOp) && n !in s.nodes && n !in s.history
    ensures Does(cfg, s, StoreInit(a, n), Goes(Put(s, n, Node(INIT, Some(r))), a, Working(r, q, {}, Creating(n))))
  {
  }

  lemma LocksInit(cfg: Config, s: System, a: Actor, r: RequestId, q: Request, n: NodeId)
    requires LocalOf(s, a) == Working(r, q, {}, Creating(n)) && n !in s.nodeLock
    ensures Does(cfg, s, LockInit(a), Goes(LockN(s, n, a), a, Working(r, q, {}, Created(n))))
  {
  }

  lemma StoresBuilding(cfg: Config, s: System, a: Actor, r: RequestId, q: Request, n: NodeId)
    requires LocalOf(s, a) == Working(r, q, {}, Created(n))
    ensures Does(cfg, s, StoreBuilding(a), Goes(Put(s, n, Node(BUILDING, Some(r))), a, Working(r, q, {n}, NoOp)))
  {
    assert {} + {n} == {n};
  }

  lemma BecomesReady(cfg: Config, s: System, a: Actor, r: RequestId, q: Request, n: NodeId)
    requires LocalOf(s, a) == Working(r, q, {n}, NoOp) && n in s.nodes && s.nodes[n] == Node(BUILDING, Some(r))
    ensures Does(cfg, s, LauncherStores(a, n, READY), Put(s, n, Node(READY, Some(r))))
  {
  }

  lemma Creates(cfg: Config, s: System, a: Actor, r: RequestId, q: Request, n: NodeId)
    requires LocalOf(s, a) == Working(r, q, {}, NoOp) && n !in s.nodes && n !in s.history && n !in s.nodeLock
    ensures Runs(cfg, s, Create(a, n))
    ensures After(cfg, s, Create(a, n))
            == Put(s, n, Node(INIT, Some(r))).(nodeLock := s.nodeLock[n := a], locals := s.locals[a := Working(r, q, {}, Created(n))])
  {
    hide Enabled;
    hide Apply;
    var s1 := Goes(Put(s, n, Node(INIT, Some(r))), a, Working(r, q, {}, Creating(n)));
    var s2 := Goes(LockN(s1, n, a), a, Working(r, q, {}, Created(n)));
    StoresInit(cfg, s, a, r, q, n);
    LocksInit(cfg, s1, a, r, q, n);
    assert s2.locals == s.locals[a := Working(r, q, {}, Created(n))];
    FollowsRuns(cfg, [s, s1, s2], Create(a, n));
  }

  lemma Launches(cfg: Config, s: System, a: Actor, r: RequestId, q: Request, n: NodeId)
    requires LocalOf(s, a) == Working(r, q, {}, Created(n))
    ensures Runs(cfg, s, Launch(a, n))
    ensures var t := After(cfg, s, Launch(a, n));
            && t.nodes == s.nodes[n := Node(READY, Some(r))] && n in t.history
            && t.(nodes := s.nodes, history := s.history) == s.(locals := s.locals[a := Working(r, q, {n}, NoOp)])
  {
    hide Enabled;
    hide Apply;
    var s1 := Goes(Put(s, n, Node(BUILDING, Some(r))), a, Working(r, q, {n}, NoOp));
    var s2 := Put(s1, n, Node(READY, Some(r)));
    StoresBuilding(cfg, s, a, r, q, n);
    BecomesReady(cfg, s1, a, r, q, n);
    assert s2.nodes == s.nodes[n := Node(READY, Some(r))];
    FollowsRuns(cfg, [s, s1, s2], Launch(a, n));
  }

  lemma Builds(cfg: Config, s: System, a: Actor, r: RequestId, q: Request, n: NodeId)
    requires LocalOf(s, a) == Working(r, q, {}, NoOp) && n !in s.nodes && n !in s.history && n !in s.nodeLock
    ensures Runs(cfg, s, Build(a, n)) && Built(s, After(cfg, s, Build(a, n)), a, r, q, n)
  {
    hide Runs;
    hide After;
    Creates(cfg, s, a, r, q, n);
    var s1 := After(cfg, s, Create(a, n));
    Launches(cfg, s1, a, r, q, n);
    RunsJoin(cfg, s, Create(a, n), Launch(a, n));
    assert s1.locals[a := Working(r, q, {n}, NoOp)] == s.locals[a := Working(r, q, {n}, NoOp)];
    assert s1.nodes[n := Node(READY, Some(r))] == s.nodes[n := Node(READY, Some(r))];
  }

  // It fulfils its request with the node.
  function HandOver(a: Actor, n: NodeId): seq<Step> { [Finish(a, Fulfil([n])), Release(a, n), StoreResult(a)] }

  function HandedOver(s: System, a: Actor, r: RequestId, q: Request, n: NodeId): System {
    s.(requests := s.requests[r := q.(state := FULFILLED, nodes := [n])], requestLock := s.requestLock - {r},
       nodeLock := s.nodeLock - {n}, locals := s.locals[a := Idle])
  }

  lemma Finishes(cfg: Config, s: System, a: Actor, r: RequestId, q: Request, n: NodeId)
    requires LocalOf(s, a) == Working(r, q, {n}, NoOp) && n in s.nodes && s.nodes[n].state.READY?
    ensures Does(cfg, s, Finish(a, Fulfil([n])), Goes(s, a, Releasing(r, q, {n}, {n}, Fulfil([n]))))
  {
    assert SetOf([n]) == {n};
  }

  lemma Releases(cfg: Config, s: System, a: Actor, r: RequestId, q: Request, n: NodeId, plan: Plan)
    requires LocalOf(s, a) == Releasing(r, q, {n}, {n}, plan) && n in s.nodes
    requires plan.Fulfil? || (plan.ClearOnly? && s.nodes[n].owner.None?)
    ensures Does(cfg, s, Release(a, n), Goes(UnlockN(s, n), a, Releasing(r, q, {n}, {}, plan)))
  {
    assert {n} - {n} == {};
  }

  lemma StoresFulfilled(cfg: Config, s: System, a: Actor, r: RequestId, q: Request, n: NodeId)
    requires LocalOf(s, a) == Releasing(r, q, {n}, {}, Fulfil([n])) && Exists(s, r)
    ensures Does(cfg, s, StoreResult(a), Goes(UnlockR(PutR(s, r, q.(state := FULFILLED, nodes := [n])), r), a, Idle))
  {
  }

  lemma HandsOver(cfg: Config, s: System, a: Actor, r: RequestId, q: Request, n: NodeId)
    requires LocalOf(s, a) == Working(r, q, {n}, NoOp) && n in s.nodes && s.nodes[n].state.READY? && Exists(s, r)
    ensures Runs(cfg, s, HandOver(a, n)) && After(cfg, s, HandOver(a, n)) == HandedOver(s, a, r, q, n)
  {
    hide Enabled;
    hide Apply;
    var s1 := Goes(s, a, Releasing(r, q, {n}, {n}, Fulfil([n])));
    var s2 := Goes(UnlockN(s1, n), a, Releasing(r, q, {n}, {}, Fulfil([n])));
    var s3 := HandedOver(s, a, r, q, n);
    Finishes(cfg, s, a, r, q, n);
    Releases(cfg, s1, a, r, q, n, Fulfil([n]));
    StoresFulfilled(cfg, s2, a, r, q, n);
    assert s2.locals[a := Idle] == s3.locals;
    FollowsRuns(cfg, [s, s1, s2, s3], HandOver(a, n));
  }

  // It reuses a node, on top of those it has.
  function Reuse(a: Actor, n: NodeId): seq<Step> { [LockReady(a, n), ReadReady(a), StoreReady(a)] }

  function Reused(s: System, a: Actor, r: RequestId, q: Request, ns: set<NodeId>, n: NodeId): System {
    Put(s, n, Node(READY, Some(r))).(nodeLock := s.nodeLock[n := a], locals := s.locals[a := Working(r, q, ns + {n}, NoOp)])
  }

  ghost predicate Reusable(s: System, n: NodeId) {
    Free(s, n) && s.nodes[n] == Node(READY, None) && Seen(s, n, Node(READY, None))
  }

  lemma LocksReady(cfg: Config, s: System, a: Actor, r: RequestId, q: Request, ns: set<NodeId>, n: NodeId)
    requires LocalOf(s, a) == Working(r, q, ns, NoOp) && Free(s, n) && SeenPickable(s, OldestUnused, n)
    ensures Does(cfg, s, LockReady(a, n), Goes(LockN(s, n, a), a, Working(r, q, ns, Reusing(n))))
  {
  }

  lemma FindsReady(cfg: Config, s: System, a: Actor, r: RequestId, q: Request, ns: set<NodeId>, n: NodeId)
    requires LocalOf(s, a) == Working(r, q, ns, Reusing(n)) && n in s.nodes && s.nodes[n] == Node(READY, None)
    ensures Does(cfg, s, ReadReady(a), Goes(s, a, Working(r, q, ns, Claimed(n, Node(READY, None)))))
  {
  }

  lemma StoresOwner(cfg: Config, s: System, a: Actor, r: RequestId, q: Request, ns: set<NodeId>, n: NodeId)
    requires LocalOf(s, a) == Working(r, q, ns, Claimed(n, Node(READY, None)))
    ensures Does(cfg, s, StoreReady(a), Goes(Put(s, n, Node(READY, Some(r))), a, Working(r, q, ns + {n}, NoOp)))
  {
  }

  lemma Reuses(cfg: Config, s: System, a: Actor, r: RequestId, q: Request, ns: set<NodeId>, n: NodeId)
    requires LocalOf(s, a) == Working(r, q, ns, NoOp) && Reusable(s, n)
    ensures Runs(cfg, s, Reuse(a, n)) && After(cfg, s, Reuse(a, n)) == Reused(s, a, r, q, ns, n)
  {
    hide Enabled;
    hide Apply;
    var s1 := Goes(LockN(s, n, a), a, Working(r, q, ns, Reusing(n)));
    var s2 := Goes(s1, a, Working(r, q, ns, Claimed(n, Node(READY, None))));
    var s3 := Reused(s, a, r, q, ns, n);
    LocksReady(cfg, s, a, r, q, ns, n);
    FindsReady(cfg, s1, a, r, q, ns, n);
    StoresOwner(cfg, s2, a, r, q, ns, n);
    assert s2.locals[a := Working(r, q, ns + {n}, NoOp)] == s3.locals;
    FollowsRuns(cfg, [s, s1, s2, s3], Reuse(a, n));
  }

  lemma ReuseGuards(cfg: Config, s: System, a: Actor, n: NodeId)
    requires Runs(cfg, s, Reuse(a, n))
    ensures Enabled(cfg, s, LockReady(a, n))
    ensures var s1 := Apply(cfg, s, LockReady(a, n)); Enabled(cfg, s1, ReadReady(a))
    ensures var s2 := Apply(cfg, Apply(cfg, s, LockReady(a, n)), ReadReady(a)); Enabled(cfg, s2, StoreReady(a))
  {
    hide Enabled;
    hide Apply;
    var steps := Reuse(a, n);
    assert steps[1..] == [ReadReady(a), StoreReady(a)] && steps[1..][1..] == [StoreReady(a)];
    var s1 := Apply(cfg, s, LockReady(a, n));
    assert Runs(cfg, s1, [ReadReady(a), StoreReady(a)]);
    assert Runs(cfg, Apply(cfg, s1, ReadReady(a)), [StoreReady(a)]);
  }

  // A node can be reused exactly if it is free, READY and unallocated: nothing that a
  // cache still shows can make up for it.
  lemma ReusesIff(cfg: Config, s: System, a: Actor, r: RequestId, q: Request, ns: set<NodeId>, n: NodeId)
    requires LocalOf(s, a) == Working(r, q, ns, NoOp) && (n in s.nodes ==> Seen(s, n, s.nodes[n]))
    ensures Runs(cfg, s, Reuse(a, n)) <==> Reusable(s, n)
  {
    if Reusable(s, n) {
      Reuses(cfg, s, a, r, q, ns, n);
    } else if Runs(cfg, s, Reuse(a, n)) {
      ReuseGuards(cfg, s, a, n);
      hide Runs;
      OnlyReusable(cfg, s, a, r, q, ns, n);
    }
  }

  lemma OnlyReusable(cfg: Config, s: System, a: Actor, r: RequestId, q: Request, ns: set<NodeId>, n: NodeId)
    requires LocalOf(s, a) == Working(r, q, ns, NoOp) && Enabled(cfg, s, LockReady(a, n))
    requires var s1 := Apply(cfg, s, LockReady(a, n)); Enabled(cfg, s1, ReadReady(a))
    requires var s2 := Apply(cfg, Apply(cfg, s, LockReady(a, n)), ReadReady(a)); Enabled(cfg, s2, StoreReady(a))
    ensures Free(s, n) && s.nodes[n] == Node(READY, None)
  {
    var s1 := Goes(LockN(s, n, a), a, Working(r, q, ns, Reusing(n)));
    LocksReady(cfg, s, a, r, q, ns, n);
    assert LocalOf(s1, a) == Working(r, q, ns, Reusing(n)) && s1.nodes == s.nodes;
  }

  // Its request is withdrawn while the node is ready, and it lets the node go.
  function LetGo(a: Actor, r: RequestId, n: NodeId): seq<Step> { [Withdraw(r), Finish(a, ClearOnly), ClearOwner(a, n), Release(a, n)] }

  function Gone(s: System, a: Actor, r: RequestId, q: Request, n: NodeId): System {
    Put(s, n, Node(READY, None)).(requests := s.requests[r := q.(exists_ := false)], nodeLock := s.nodeLock - {n},
                                  locals := s.locals[a := Releasing(r, q, {n}, {}, ClearOnly)])
  }

  lemma Withdraws(cfg: Config, s: System, r: RequestId)
    requires Exists(s, r)
    ensures Does(cfg, s, Withdraw(r), PutR(s, r, s.requests[r].(exists_ := false)))
  {
  }

  lemma FindsItGone(cfg: Config, s: System, a: Actor, r: RequestId, q: Request, n: NodeId)
    requires LocalOf(s, a) == Working(r, q, {n}, NoOp) && !Exists(s, r)
    ensures Does(cfg, s, Finish(a, ClearOnly), Goes(s, a, Releasing(r, q, {n}, {n}, ClearOnly)))
  {
  }

  lemma ClearsOwner(cfg: Config, s: System, a: Actor, r: RequestId, q: Request, n: NodeId)
    requires LocalOf(s, a) == Releasing(r, q, {n}, {n}, ClearOnly) && n in s.nodes && s.nodes[n] == Node(READY, Some(r))
    ensures Does(cfg, s, ClearOwner(a, n), Put(s, n, Node(READY, None)))
  {
  }

  lemma LetsGo(cfg: Config, s: System, a: Actor, r: RequestId, q: Request, n: NodeId)
    requires LocalOf(s, a) == Working(r, q, {n}, NoOp) && n in s.nodes && s.nodes[n] == Node(READY, Some(r))
    requires Exists(s, r) && s.requests[r] == q
    ensures Runs(cfg, s, LetGo(a, r, n)) && After(cfg, s, LetGo(a, r, n)) == Gone(s, a, r, q, n)
  {
    hide Enabled;
    hide Apply;
    var s1 := PutR(s, r, q.(exists_ := false));
    var s2 := Goes(s1, a, Releasing(r, q, {n}, {n}, ClearOnly));
    var s3 := Put(s2, n, Node(READY, None));
    var s4 := Gone(s, a, r, q, n);
    Withdraws(cfg, s, r);
    FindsItGone(cfg, s1, a, r, q, n);
    ClearsOwner(cfg, s2, a, r, q, n);
    Releases(cfg, s3, a, r, q, n, ClearOnly);
    assert s3.locals[a := Releasing(r, q, {n}, {}, ClearOnly)] == s4.locals;
    FollowsRuns(cfg, [s, s1, s2, s3, s4], LetGo(a, r, n));
  }

  // ---------------------------------------------------------------- the two runs

  // Request 0 is fulfilled with a new node and retired, which makes the node available
  // again; request 1 is fulfilled with the same node, and its consumer has not locked it.
  function ToHandover(a: Actor): seq<Step> {
    TakeUp(a, 0) + Build(a, 0) + HandOver(a, 0) + [Retire(0)] + TakeUp(a, 1) + Reuse(a, 0) + HandOver(a, 0)
  }

  function ToRetirement(a: Actor): seq<Step> { TakeUp(a, 0) + Build(a, 0) + HandOver(a, 0) + [Retire(0)] }

  lemma FirstBuilt(cfg: Config, a: Actor)
    ensures Runs(cfg, Empty(), TakeUp(a, 0) + Build(a, 0))
    ensures Built(AtWork(Empty(), a, 0), After(cfg, Empty(), TakeUp(a, 0) + Build(a, 0)), a, 0, New().(state := PENDING), 0)
  {
    hide Runs;
    hide After;
    TakesUp(cfg, Empty(), a, 0);
    Builds(cfg, AtWork(Empty(), a, 0), a, 0, New().(state := PENDING), 0);
    RunsJoin(cfg, Empty(), TakeUp(a, 0), Build(a, 0));
  }

  lemma Retires(cfg: Config, s: System, r: RequestId, n: NodeId)
    requires Exists(s, r) && s.requests[r].state.FULFILLED? && s.requests[r].nodes == [n]
    requires Free(s, n) && s.nodes[n] == Node(READY, Some(r)) && n in s.history
    ensures Runs(cfg, s, [Retire(r)])
    ensures var t := After(cfg, s, [Retire(r)]);
            && Reusable(t, n)
            && t.requests == s.requests[r := s.requests[r].(exists_ := false)] && t.requestLock == s.requestLock && t.locals == s.locals
  {
    var t := Apply(cfg, s, Retire(r));
    assert n in SetOf([n]);
    FollowsRuns(cfg, [s, t], [Retire(r)]);
  }

  lemma FirstRetired(cfg: Config, a: Actor)
    ensures Runs(cfg, Empty(), ToRetirement(a))
    ensures var t := After(cfg, Empty(), ToRetirement(a));
            Reusable(t, 0) && LocalOf(t, a).Idle? && t.requests.Keys == {0} && t.requestLock == map[]
  {
    hide Runs;
    hide After;
    hide Reusable;
    var r := TakeUp(a, 0) + Build(a, 0);
    FirstBuilt(cfg, a);
    var q := New().(state := PENDING);
    var s := After(cfg, Empty(), r);
    HandsOver(cfg, s, a, 0, q, 0);
    RunsJoin(cfg, Empty(), r, HandOver(a, 0));
    Retires(cfg, HandedOver(s, a, 0, q, 0), 0, 0);
    RunsJoin(cfg, Empty(), r + HandOver(a, 0), [Retire(0)]);
  }

  // A run that ends in what the max-ready-age worker needs: a free READY node of an
  // existing fulfilled request, once seen READY and unallocated.
  lemma HandoverIsReached(cfg: Config, a: Actor)
    ensures Runs(cfg, Empty(), ToHandover(a))
    ensures var s := After(cfg, Empty(), ToHandover(a));
            && ReadyFor(s, 0, 1) && s.requests[1].state.FULFILLED? && s.requests[1].nodes == [0]
            && Free(s, 0) && SeenPickable(s, MaxReadyAge, 0) && LocalOf(s, a).Idle?
  {
    hide Runs;
    hide After;
    var q := New().(state := PENDING);
    FirstRetired(cfg, a);
    var s := After(cfg, Empty(), ToRetirement(a));
    TakesUp(cfg, s, a, 1);
    RunsJoin(cfg, Empty(), ToRetirement(a), TakeUp(a, 1));
    var s1 := AtWork(s, a, 1);
    Reuses(cfg, s1, a, 1, q, {}, 0);
    RunsJoin(cfg, Empty(), ToRetirement(a) + TakeUp(a, 1), Reuse(a, 0));
    var s2 := Reused(s1, a, 1, q, {}, 0);
    assert {} + {0} == {0};
    HandsOver(cfg, s2, a, 1, q, 0);
    RunsJoin(cfg, Empty(), ToRetirement(a) + TakeUp(a, 1) + Reuse(a, 0), HandOver(a, 0));
    assert Seen(After(cfg, Empty(), ToHandover(a)), 0, Node(READY, None));
  }

  // A fulfilled request that exists is left listing a node marked for deletion.
  lemma HandoverCanBeTaken(cfg: Config, a: Actor)
    ensures var steps := ToHandover(a) + [CleanerLocks(a, MaxReadyAge, 0), CleanerReads(a), CleanerStores(a)];
            && Runs(cfg, Empty(), steps)
            && var s := After(cfg, Empty(), steps);
               && Exists(s, 1) && s.requests[1].state.FULFILLED? && s.requests[1].nodes == [0]
               && 0 in s.nodes && s.nodes[0] == Node(DELETING, Some(1))
  {
    hide Runs;
    hide After;
    HandoverIsReached(cfg, a);
    var s := After(cfg, Empty(), ToHandover(a));
    MaxReadyAgeTakesIff(cfg, s, a, 0, 1);
    RunsJoin(cfg, Empty(), ToHandover(a), [CleanerLocks(a, MaxReadyAge, 0), CleanerReads(a), CleanerStores(a)]);
  }

  // Handler a has let the only node of its set go, its request having been withdrawn, and
  // not yet forgotten the set; handler b reuses the node.
  function ToMeeting(a: Actor, b: Actor): seq<Step> {
    TakeUp(a, 0) + Build(a, 0) + LetGo(a, 0, 0) + TakeUp(b, 1) + Reuse(b, 0)
  }

  lemma NodesetsCanMeet(cfg: Config, a: Actor, b: Actor)
    requires a != b
    ensures Runs(cfg, Empty(), ToMeeting(a, b))
    ensures var s := After(cfg, Empty(), ToMeeting(a, b));
            0 in Nodeset(LocalOf(s, a)) && 0 in Nodeset(LocalOf(s, b)) && HasLetGo(s, a, 0) && 0 in Owns(LocalOf(s, b))
  {
    hide Runs;
    hide After;
    var q := New().(state := PENDING);
    var r := TakeUp(a, 0) + Build(a, 0);
    FirstBuilt(cfg, a);
    var s := After(cfg, Empty(), r);
    LetsGo(cfg, s, a, 0, q, 0);
    RunsJoin(cfg, Empty(), r, LetGo(a, 0, 0));
    var s1 := Gone(s, a, 0, q, 0);
    TakesUp(cfg, s1, b, 1);
    RunsJoin(cfg, Empty(), r + LetGo(a, 0, 0), TakeUp(b, 1));
    var s2 := AtWork(s1, b, 1);
    Reuses(cfg, s2, b, 1, q, {}, 0);
    RunsJoin(cfg, Empty(), r + LetGo(a, 0, 0) + TakeUp(b, 1), Reuse(b, 0));
  }

  // A free node of a handler's set without an allocation has been let go by the handler.
  lemma FreeIsLetGo(cfg: Config, s: System, a: Actor, n: NodeId)
    requires Inv(cfg, s) && n in Nodeset(LocalOf(s, a)) && Free(s, n) && s.nodes[n].owner.None?
    ensures HasLetGo(s, a, n)
  {
    AllocationSteps.Own(cfg, s, a);
  }

  // And exactly then: a handler, whatever it has in hand, can take a node that is in
  // another's set exactly if the other has let the node go and it is free and reusable.
  lemma NodesetsMeetIff(cfg: Config, steps: seq<Step>, a: Actor, b: Actor, r: RequestId, q: Request, ns: set<NodeId>, n: NodeId)
    requires Runs(cfg, Empty(), steps) && a != b
    requires var s := After(cfg, Empty(), steps); n in Nodeset(LocalOf(s, a)) && LocalOf(s, b) == Working(r, q, ns, NoOp)
    ensures var s := After(cfg, Empty(), steps);
            (Runs(cfg, s, Reuse(b, n)) && n in Nodeset(LocalOf(After(cfg, s, Reuse(b, n)), b)))
            <==> HasLetGo(s, a, n) && Reusable(s, n)
    ensures var s := After(cfg, Empty(), steps);
            Runs(cfg, s, Reuse(b, n)) ==> n in Nodeset(LocalOf(After(cfg, s, Reuse(b, n)), a))
  {
    var s := After(cfg, Empty(), steps);
    ReachableIsOk(cfg, steps);
    ReusesIff(cfg, s, b, r, q, ns, n) by {
      assert NodesOk(s);
    }
    hide Runs;
    hide After;
    if Reusable(s, n) {
      FreeIsLetGo(cfg, s, a, n);
      Reuses(cfg, s, b, r, q, ns, n);
    }
  }
}
