/**
 Who may touch a node: request handlers, cleanup workers and consumers sharing node and
 request records in ZooKeeper under exclusive locks (nodepool/driver/__init__.py,
 nodepool/launcher.py, nodepool/zk/zookeeper.py).

 Every actor works by "lock, refresh, re-check, write", one step each, and picks what to
 lock from a cached record, that is, from any version the record ever had.  A new node is
 stored INIT before it is locked.  A session may expire at any moment: any set of actors
 loses its locks and forgets what it was doing.
 */
module Allocation {
  import opened Wrappers

  type NodeId = nat
  type RequestId = nat
  type Actor = nat
  type Pool = string

  // GONE: the znode has been removed; its id is never used again.
  datatype NodeState = INIT | BUILDING | READY | ABORTED | FAILED | IN_USE | USED | HOLD | DELETING | DELETED | GONE

  datatype Node = Node(state: NodeState, owner: Option<RequestId>)

  datatype RequestState = REQUESTED | PENDING | FULFILLED | REQUEST_FAILED

  // exists_: the requestor has not deleted it.
  datatype Request = Request(exists_: bool, state: RequestState, nodes: seq<NodeId>, declinedBy: set<Pool>)

  // What a handler is in the middle of: nothing; a node locked to be reused, not yet
  // re-read; one found READY and unallocated; one stored INIT; that one locked.
  datatype Op = NoOp | Reusing(node: NodeId) | Claimed(node: NodeId, copy: Node) | Creating(node: NodeId) | Created(node: NodeId)

  // How a handler ends: unlock the set and store FULFILLED with the nodes in order;
  // unlock and decline; clear the allocations, unlock and decline; clear and unlock for a
  // request that disappeared.
  datatype Plan = Fulfil(order: seq<NodeId>) | Decline | ClearAndDecline | ClearOnly

  // deleteOldestUnusedNode, _cleanupMaxReadyAge, _cleanupMaxHoldAge, and the two parts of
  // DeletedNodeWorker._cleanupNodes: deallocating and deleting.
  datatype Kind = OldestUnused | MaxReadyAge | MaxHoldAge | Deallocate | DeleteNode

  // Marked: deleteNode has stored DELETED.  Removing: it has removed the lock but not yet
  // the node.
  datatype Phase = Locked | Passed(copy: Node) | Marked | Removing

  datatype ResetPhase = Unread | Read | AtNode(node: NodeId) | NodePassed(node: NodeId, copy: Node)

  datatype Local =
    | Idle
    | Taking(req: RequestId)
    | Accepted(req: RequestId, copy: Request)
    | Working(req: RequestId, copy: Request, nodeset: set<NodeId>, op: Op)
    | Releasing(req: RequestId, copy: Request, nodeset: set<NodeId>, held: set<NodeId>, plan: Plan)
    | Cleaning(kind: Kind, node: NodeId, phase: Phase)
    | Resetting(req: RequestId, reset: ResetPhase)
    | Consuming(node: NodeId)

  // history holds every version of a node record; orphans are nodes let go while a
  // launcher was still building them.
  datatype System = System(nodes: map<NodeId, Node>, history: map<NodeId, set<Node>>,
                           requests: map<RequestId, Request>,
                           nodeLock: map<NodeId, Actor>, requestLock: map<RequestId, Actor>,
                           locals: map<Actor, Local>, orphans: set<NodeId>)

  datatype Config = Config(registered: set<Pool>, poolOf: Actor -> Pool)

  function LocalOf(s: System, a: Actor): Local { if a in s.locals then s.locals[a] else Idle }

  predicate InCleanup(st: NodeState) {
    st.USED? || st.IN_USE? || st.BUILDING? || st.FAILED? || st.DELETING? || st.DELETED? || st.ABORTED?
  }

  // Which cached record makes a worker try to lock a node, and which refreshed record
  // makes it go on once it has the lock.
  predicate Picks(kind: Kind, v: Node) {
    match kind
    case OldestUnused => v.state.READY? && v.owner.None?
    case MaxReadyAge => v.state.READY? && v.owner.None?
    case MaxHoldAge => v.state.HOLD?
    case Deallocate => v.state.READY? && v.owner.Some?
    case DeleteNode => InCleanup(v.state)
  }

  predicate Passes(s: System, kind: Kind, v: Node) {
    match kind
    case OldestUnused => v.state.READY? && v.owner.None?
    case MaxReadyAge => v.state.READY?
    case MaxHoldAge => v.state.HOLD?
    case Deallocate => v.state.READY? && v.owner.Some? && !Exists(s, v.owner.value)
    case DeleteNode => InCleanup(v.state)
  }

  predicate Exists(s: System, r: RequestId) { r in s.requests && s.requests[r].exists_ }

  function SetOf(q: seq<NodeId>): set<NodeId> { set n | n in q }

  datatype Step =
    // the requestor
    | Submit(req: RequestId)
    | Withdraw(req: RequestId)
    | Retire(req: RequestId)
    // a handler
    | TakeRequest(actor: Actor, req: RequestId)
    | ReadRequest(actor: Actor)
    | StorePending(actor: Actor)
    | LockReady(actor: Actor, node: NodeId)
    | ReadReady(actor: Actor)
    | StoreReady(actor: Actor)
    | StoreInit(actor: Actor, node: NodeId)
    | LockInit(actor: Actor)
    | StoreBuilding(actor: Actor)
    | LauncherStores(actor: Actor, node: NodeId, state: NodeState)
    | DropAborted(actor: Actor, node: NodeId)
    | Fault(actor: Actor)
    | Finish(actor: Actor, plan: Plan)
    | ClearOwner(actor: Actor, node: NodeId)
    | Release(actor: Actor, node: NodeId)
    | StoreResult(actor: Actor)
    | OrphanStores(node: NodeId, state: NodeState)
    // the cleanup workers
    | CleanerLocks(actor: Actor, kind: Kind, node: NodeId)
    | CleanerReads(actor: Actor)
    | CleanerStores(actor: Actor)
    | CleanerGivesUp(actor: Actor)
    | DeleterMarks(actor: Actor)
    | DeleterRemovesLock(actor: Actor)
    | DeleterRemovesNode(actor: Actor)
    // the lost-request worker
    | LockLost(actor: Actor, req: RequestId)
    | ReadLost(actor: Actor)
    | LockLostNode(actor: Actor, node: NodeId)
    | ReadLostNode(actor: Actor)
    | StoreLostNode(actor: Actor)
    | StoreLost(actor: Actor)
    // a consumer of fulfilled requests
    | ConsumerLocks(actor: Actor, req: RequestId, node: NodeId)
    | ConsumerStores(actor: Actor, state: NodeState)
    | ConsumerUnlocks(actor: Actor)
    | Expire(dead: set<Actor>)

  predicate Free(s: System, n: NodeId) { n in s.nodes && n !in s.nodeLock }

  // A cache may still show version v of the record of n.
  ghost predicate Seen(s: System, n: NodeId, v: Node) { n in s.history && v in s.history[n] }

  ghost predicate SeenPickable(s: System, kind: Kind, n: NodeId) { exists v: Node {:trigger Seen(s, n, v)} :: Seen(s, n, v) && Picks(kind, v) }

  ghost predicate SeenOwned(s: System, n: NodeId, r: RequestId) { exists v: Node {:trigger Seen(s, n, v)} :: Seen(s, n, v) && v.owner == Some(r) }

  predicate Launching(st: NodeState) { st.BUILDING? || st.READY? || st.ABORTED? }

  predicate RequestorStep(st: Step) {
    st.Submit? || st.Withdraw? || st.Retire? || st.Expire?
  }

  predicate HandlerStep(st: Step) {
    st.TakeRequest? || st.ReadRequest? || st.StorePending? || st.LockReady? || st.ReadReady? || st.StoreReady?
  }

  predicate LaunchStep(st: Step) {
    st.StoreInit? || st.LockInit? || st.StoreBuilding? || st.LauncherStores? || st.DropAborted? || st.Fault?
  }

  predicate FinishStep(st: Step) {
    st.Finish? || st.ClearOwner? || st.Release? || st.StoreResult? || st.OrphanStores?
  }

  predicate CleanerStep(st: Step) {
    st.CleanerLocks? || st.CleanerReads? || st.CleanerStores? || st.CleanerGivesUp? || st.DeleterMarks? || st.DeleterRemovesLock? || st.DeleterRemovesNode?
  }

  predicate LostStep(st: Step) {
    st.LockLost? || st.ReadLost? || st.LockLostNode? || st.ReadLostNode? || st.StoreLostNode? || st.StoreLost?
  }

  predicate ConsumerStep(st: Step) {
    st.ConsumerLocks? || st.ConsumerStores? || st.ConsumerUnlocks?
  }

  ghost predicate RequestorEnabled(cfg: Config, s: System, st: Step)
    requires RequestorStep(st)
  {
    match st
    case Submit(r) => r !in s.requests
    case Withdraw(r) => Exists(s, r)
    case Retire(r) =>
      Exists(s, r) && s.requests[r].state.FULFILLED?
      && forall n :: n in s.requests[r].nodes ==> Free(s, n) && !s.nodes[n].state.GONE?
    case Expire(dead) => true
  }

  ghost predicate HandlerEnabled(cfg: Config, s: System, st: Step)
    requires HandlerStep(st)
  {
    match st
    case TakeRequest(a, r) => LocalOf(s, a).Idle? && Exists(s, r) && r !in s.requestLock
    case ReadRequest(a) => LocalOf(s, a).Taking?
    case StorePending(a) => LocalOf(s, a).Accepted?
    case LockReady(a, n) =>
      LocalOf(s, a).Working? && LocalOf(s, a).op.NoOp? && Free(s, n)
      && SeenPickable(s, OldestUnused, n)
    case ReadReady(a) => LocalOf(s, a).Working? && LocalOf(s, a).op.Reusing?
    case StoreReady(a) => LocalOf(s, a).Working? && LocalOf(s, a).op.Claimed?
  }

  ghost predicate LaunchEnabled(cfg: Config, s: System, st: Step)
    requires LaunchStep(st)
  {
    match st
    case StoreInit(a, n) => LocalOf(s, a).Working? && LocalOf(s, a).op.NoOp? && n !in s.nodes && n !in s.history
    case LockInit(a) => LocalOf(s, a).Working? && LocalOf(s, a).op.Creating? && LocalOf(s, a).op.node !in s.nodeLock
    case StoreBuilding(a) => LocalOf(s, a).Working? && LocalOf(s, a).op.Created?
    case LauncherStores(a, n, state) =>
      && Launching(state)
      && ((LocalOf(s, a).Working? && n in LocalOf(s, a).nodeset) || (LocalOf(s, a).Releasing? && n in LocalOf(s, a).held))
      && n in s.nodes && s.nodes[n].state.BUILDING?
    case DropAborted(a, n) =>
      LocalOf(s, a).Working? && n in LocalOf(s, a).nodeset && n in s.nodes && s.nodes[n].state.ABORTED?
    case Fault(a) => LocalOf(s, a).Working?
  }

  ghost predicate FinishEnabled(cfg: Config, s: System, st: Step)
    requires FinishStep(st)
  {
    match st
    case Finish(a, plan) =>
      var l := LocalOf(s, a);
      if l.Accepted? then plan.Decline? || plan.ClearAndDecline?
      else
        && l.Working? && l.op.NoOp?
        && (plan.Fulfil? ==>
              && SetOf(plan.order) == l.nodeset
              && (forall i, j :: 0 <= i < j < |plan.order| ==> plan.order[i] != plan.order[j])
              && forall n :: n in l.nodeset ==> n in s.nodes && s.nodes[n].state.READY?)
        && (plan.ClearOnly? ==> !Exists(s, l.req))
    case ClearOwner(a, n) =>
      var l := LocalOf(s, a);
      l.Releasing? && n in l.held && (l.plan.ClearAndDecline? || l.plan.ClearOnly?) && n in s.nodes && s.nodes[n].owner.Some?
    case Release(a, n) =>
      var l := LocalOf(s, a);
      l.Releasing? && n in l.held && n in s.nodes
      && (l.plan.ClearAndDecline? || l.plan.ClearOnly? ==> s.nodes[n].owner.None?)
    case StoreResult(a) => LocalOf(s, a).Releasing? && LocalOf(s, a).held == {}
    case OrphanStores(n, state) => Launching(state) && n in s.orphans && n in s.nodes && !s.nodes[n].state.GONE?
  }

  ghost predicate CleanerEnabled(cfg: Config, s: System, st: Step)
    requires CleanerStep(st)
  {
    match st
    case CleanerLocks(a, kind, n) =>
      LocalOf(s, a).Idle? && Free(s, n) && SeenPickable(s, kind, n)
    case CleanerReads(a) => LocalOf(s, a).Cleaning? && LocalOf(s, a).phase.Locked?
    case CleanerStores(a) => LocalOf(s, a).Cleaning? && LocalOf(s, a).phase.Passed?
    case CleanerGivesUp(a) => LocalOf(s, a).Cleaning? && LocalOf(s, a).phase.Passed?
    case DeleterMarks(a) => LocalOf(s, a).Cleaning? && LocalOf(s, a).kind.DeleteNode? && LocalOf(s, a).phase.Passed?
    case DeleterRemovesLock(a) => LocalOf(s, a).Cleaning? && LocalOf(s, a).phase.Marked?
    case DeleterRemovesNode(a) => LocalOf(s, a).Cleaning? && LocalOf(s, a).phase.Removing?
  }

  ghost predicate LostEnabled(cfg: Config, s: System, st: Step)
    requires LostStep(st)
  {
    match st
    case LockLost(a, r) => LocalOf(s, a).Idle? && r in s.requests && r !in s.requestLock
    case ReadLost(a) => LocalOf(s, a).Resetting? && LocalOf(s, a).reset.Unread?
    case LockLostNode(a, n) =>
      LocalOf(s, a).Resetting? && LocalOf(s, a).reset.Read? && Free(s, n)
      && SeenOwned(s, n, LocalOf(s, a).req)
    case ReadLostNode(a) => LocalOf(s, a).Resetting? && LocalOf(s, a).reset.AtNode?
    case StoreLostNode(a) => LocalOf(s, a).Resetting? && LocalOf(s, a).reset.NodePassed?
    case StoreLost(a) => LocalOf(s, a).Resetting? && LocalOf(s, a).reset.Read?
  }

  ghost predicate ConsumerEnabled(cfg: Config, s: System, st: Step)
    requires ConsumerStep(st)
  {
    match st
    case ConsumerLocks(a, r, n) =>
      LocalOf(s, a).Idle? && Exists(s, r) && s.requests[r].state.FULFILLED? && n in s.requests[r].nodes && Free(s, n)
    case ConsumerStores(a, state) =>
      var l := LocalOf(s, a);
      l.Consuming? && (state.IN_USE? || state.USED? || state.HOLD?)
      && l.node in s.nodes && (s.nodes[l.node].state.READY? || s.nodes[l.node].state.IN_USE? || s.nodes[l.node].state.HOLD?)
    case ConsumerUnlocks(a) => LocalOf(s, a).Consuming?
  }

  ghost predicate Enabled(cfg: Config, s: System, st: Step) {
    if RequestorStep(st) then RequestorEnabled(cfg, s, st)
    else if HandlerStep(st) then HandlerEnabled(cfg, s, st)
    else if LaunchStep(st) then LaunchEnabled(cfg, s, st)
    else if FinishStep(st) then FinishEnabled(cfg, s, st)
    else if CleanerStep(st) then CleanerEnabled(cfg, s, st)
    else if LostStep(st) then LostEnabled(cfg, s, st)
    else ConsumerEnabled(cfg, s, st)
  }

  // ---------------------------------------------------------------- effects

  function Put(s: System, n: NodeId, v: Node): System {
    s.(nodes := s.nodes[n := v],
       history := s.history[n := (if n in s.history then s.history[n] else {}) + {v}])
  }

  function Goes(s: System, a: Actor, l: Local): System { s.(locals := s.locals[a := l]) }

  function LockN(s: System, n: NodeId, a: Actor): System { s.(nodeLock := s.nodeLock[n := a]) }

  function UnlockN(s: System, n: NodeId): System { s.(nodeLock := s.nodeLock - {n}) }

  function LockR(s: System, r: RequestId, a: Actor): System { s.(requestLock := s.requestLock[r := a]) }

  function UnlockR(s: System, r: RequestId): System { s.(requestLock := s.requestLock - {r}) }

  function PutR(s: System, r: RequestId, q: Request): System { s.(requests := s.requests[r := q]) }

  function Disowned(s: System, ns: set<NodeId>): System {
    s.(nodes := map n | n in s.nodes :: if n in ns then s.nodes[n].(owner := None) else s.nodes[n],
       history := map n | n in s.history :: if n in ns && n in s.nodes then s.history[n] + {s.nodes[n].(owner := None)} else s.history[n])
  }

  function Declined(cfg: Config, q: Request, p: Pool): Request {
    var d := q.declinedBy + {p};
    q.(declinedBy := d, state := if cfg.registered <= d then REQUEST_FAILED else REQUESTED)
  }

  function CleanedNode(kind: Kind, copy: Node): Node {
    match kind
    case Deallocate => copy.(owner := None)
    case _ => copy.(state := DELETING)
  }

  ghost function RequestorApply(cfg: Config, s: System, st: Step): System
    requires RequestorStep(st) && RequestorEnabled(cfg, s, st)
  {
    match st
    case Submit(r) => PutR(s, r, Request(true, REQUESTED, [], {}))
    case Withdraw(r) => PutR(s, r, s.requests[r].(exists_ := false))
    case Retire(r) => PutR(Disowned(s, SetOf(s.requests[r].nodes)), r, s.requests[r].(exists_ := false))
    case Expire(dead) =>
      s.(locals := s.locals - dead,
         nodeLock := map n | n in s.nodeLock && s.nodeLock[n] !in dead :: s.nodeLock[n],
         requestLock := map r | r in s.requestLock && s.requestLock[r] !in dead :: s.requestLock[r])
  }

  ghost function HandlerApply(cfg: Config, s: System, st: Step): System
    requires HandlerStep(st) && HandlerEnabled(cfg, s, st)
  {
    match st
    case TakeRequest(a, r) => Goes(LockR(s, r, a), a, Taking(r))
    case ReadRequest(a) =>
      var r := LocalOf(s, a).req;
      if !Exists(s, r) then Goes(s, a, Idle)
      else if !s.requests[r].state.REQUESTED? || cfg.poolOf(a) in s.requests[r].declinedBy
      then Goes(UnlockR(s, r), a, Idle)
      else Goes(s, a, Accepted(r, s.requests[r]))
    case StorePending(a) =>
      var l := LocalOf(s, a);
      if !Exists(s, l.req) then Goes(s, a, Releasing(l.req, l.copy, {}, {}, ClearAndDecline))
      else
        var q := l.copy.(state := PENDING);
        Goes(PutR(s, l.req, q), a, Working(l.req, q, {}, NoOp))
    case LockReady(a, n) => Goes(LockN(s, n, a), a, LocalOf(s, a).(op := Reusing(n)))
    case ReadReady(a) =>
      var l := LocalOf(s, a);
      var n := l.op.node;
      if n in s.nodes && s.nodes[n].state.READY? && s.nodes[n].owner.None?
      then Goes(s, a, l.(op := Claimed(n, s.nodes[n])))
      else Goes(UnlockN(s, n), a, l.(op := NoOp))
    case StoreReady(a) =>
      var l := LocalOf(s, a);
      Goes(Put(s, l.op.node, l.op.copy.(owner := Some(l.req))), a, l.(nodeset := l.nodeset + {l.op.node}, op := NoOp))
  }

  ghost function LaunchApply(cfg: Config, s: System, st: Step): System
    requires LaunchStep(st) && LaunchEnabled(cfg, s, st)
  {
    match st
    case StoreInit(a, n) =>
      var l := LocalOf(s, a);
      Goes(Put(s, n, Node(INIT, Some(l.req))), a, l.(op := Creating(n)))
    case LockInit(a) =>
      var l := LocalOf(s, a);
      Goes(LockN(s, l.op.node, a), a, l.(op := Created(l.op.node)))
    case StoreBuilding(a) =>
      var l := LocalOf(s, a);
      Goes(Put(s, l.op.node, Node(BUILDING, Some(l.req))), a, l.(nodeset := l.nodeset + {l.op.node}, op := NoOp))
    case LauncherStores(a, n, state) => Put(s, n, s.nodes[n].(state := state))
    case DropAborted(a, n) =>
      var l := LocalOf(s, a);
      Goes(UnlockN(s, n), a, Working(l.req, l.copy, l.nodeset - {n}, l.op))
    case Fault(a) =>
      var l := LocalOf(s, a);
      Goes(s, a, Releasing(l.req, l.copy, l.nodeset, l.nodeset, ClearAndDecline))
  }

  ghost function FinishApply(cfg: Config, s: System, st: Step): System
    requires FinishStep(st) && FinishEnabled(cfg, s, st)
  {
    match st
    case Finish(a, plan) =>
      var l := LocalOf(s, a);
      var ns := if l.Working? then l.nodeset else {};
      Goes(s, a, Releasing(l.req, l.copy, ns, ns, plan))
    case ClearOwner(a, n) => Put(s, n, s.nodes[n].(owner := None))
    case Release(a, n) =>
      var l := LocalOf(s, a);
      Goes(UnlockN(s, n), a, l.(held := l.held - {n}))
        .(orphans := if l.plan.ClearAndDecline? && s.nodes[n].state.BUILDING? then s.orphans + {n} else s.orphans)
    case StoreResult(a) =>
      var l := LocalOf(s, a);
      if l.plan.ClearOnly? then Goes(UnlockR(s, l.req), a, Idle)
      else if !Exists(s, l.req) then Goes(s, a, Idle)
      else
        var q := if l.plan.Fulfil? then l.copy.(state := FULFILLED, nodes := l.plan.order)
                 else Declined(cfg, l.copy, cfg.poolOf(a));
        Goes(UnlockR(PutR(s, l.req, q), l.req), a, Idle)
    case OrphanStores(n, state) =>
      Put(s, n, Node(state, None)).(orphans := if state.BUILDING? then s.orphans else s.orphans - {n})
  }

  ghost function CleanerApply(cfg: Config, s: System, st: Step): System
    requires CleanerStep(st) && CleanerEnabled(cfg, s, st)
  {
    match st
    case CleanerLocks(a, kind, n) => Goes(LockN(s, n, a), a, Cleaning(kind, n, Locked))
    case CleanerReads(a) =>
      var l := LocalOf(s, a);
      if l.node in s.nodes && Passes(s, l.kind, s.nodes[l.node])
      then Goes(s, a, l.(phase := Passed(s.nodes[l.node])))
      else Goes(UnlockN(s, l.node), a, Idle)
    case CleanerStores(a) =>
      var l := LocalOf(s, a);
      if l.node !in s.nodes || s.nodes[l.node].state.GONE? then Goes(UnlockN(s, l.node), a, Idle)
      else
        var s1 := Put(s, l.node, CleanedNode(l.kind, l.phase.copy));
        if l.kind.DeleteNode? then s1 else Goes(UnlockN(s1, l.node), a, Idle)
    case CleanerGivesUp(a) => Goes(UnlockN(s, LocalOf(s, a).node), a, Idle)
    case DeleterMarks(a) =>
      var l := LocalOf(s, a);
      if l.node !in s.nodes || s.nodes[l.node].state.GONE? then Goes(UnlockN(s, l.node), a, Idle)
      else Goes(Put(s, l.node, l.phase.copy.(state := DELETED)), a, l.(phase := Marked))
    case DeleterRemovesLock(a) => Goes(UnlockN(s, LocalOf(s, a).node), a, LocalOf(s, a).(phase := Removing))
    case DeleterRemovesNode(a) =>
      // A znode with children cannot be deleted, and a lock is a child.
      var n := LocalOf(s, a).node;
      if n !in s.nodes || n in s.nodeLock then Goes(s, a, Idle)
      else Goes(Put(s, n, s.nodes[n].(state := GONE)), a, Idle).(orphans := s.orphans - {n})
  }

  ghost function LostApply(cfg: Config, s: System, st: Step): System
    requires LostStep(st) && LostEnabled(cfg, s, st)
  {
    match st
    case LockLost(a, r) => Goes(LockR(s, r, a), a, Resetting(r, Unread))
    case ReadLost(a) =>
      var r := LocalOf(s, a).req;
      if Exists(s, r) && s.requests[r].state.PENDING? then Goes(s, a, Resetting(r, Read))
      else Goes(UnlockR(s, r), a, Idle)
    case LockLostNode(a, n) => Goes(LockN(s, n, a), a, Resetting(LocalOf(s, a).req, AtNode(n)))
    case ReadLostNode(a) =>
      var l := LocalOf(s, a);
      var n := l.reset.node;
      if n in s.nodes && !s.nodes[n].state.GONE? && s.nodes[n].owner == Some(l.req)
      then Goes(s, a, Resetting(l.req, NodePassed(n, s.nodes[n])))
      else Goes(UnlockN(s, n), a, Resetting(l.req, Read))
    case StoreLostNode(a) =>
      var l := LocalOf(s, a);
      var n, copy := l.reset.node, l.reset.copy;
      Goes(UnlockN(Put(s, n, Node(if copy.state.INIT? then DELETING else copy.state, None)), n), a, Resetting(l.req, Read))
    case StoreLost(a) =>
      var r := LocalOf(s, a).req;
      var s1 := if Exists(s, r) then PutR(s, r, s.requests[r].(state := REQUESTED, nodes := [])) else s;
      Goes(UnlockR(s1, r), a, Idle)
  }

  ghost function ConsumerApply(cfg: Config, s: System, st: Step): System
    requires ConsumerStep(st) && ConsumerEnabled(cfg, s, st)
  {
    match st
    case ConsumerLocks(a, r, n) => Goes(LockN(s, n, a), a, Consuming(n))
    case ConsumerStores(a, state) =>
      var n := LocalOf(s, a).node;
      Put(s, n, s.nodes[n].(state := state))
    case ConsumerUnlocks(a) => Goes(UnlockN(s, LocalOf(s, a).node), a, Idle)
  }

  ghost function Apply(cfg: Config, s: System, st: Step): System
    requires Enabled(cfg, s, st)
  {
    if RequestorStep(st) then RequestorApply(cfg, s, st)
    else if HandlerStep(st) then HandlerApply(cfg, s, st)
    else if LaunchStep(st) then LaunchApply(cfg, s, st)
    else if FinishStep(st) then FinishApply(cfg, s, st)
    else if CleanerStep(st) then CleanerApply(cfg, s, st)
    else if LostStep(st) then LostApply(cfg, s, st)
    else ConsumerApply(cfg, s, st)
  }
}
