/**
 NodeRequestHandler (nodepool/driver/__init__.py): filling a node set over several
 calls of run, and polling it to its end.

 ZooKeeper, the cloud and the quota check answer through Env.  A LocalNode is the
 handler's own copy of a node record.
 */
module RequestHandler {
  import opened Wrappers
  import opened Handler

  type RequestId = string

  datatype NodeState = BUILDING | READY | ABORTED | FAILED

  datatype RequestState = REQUESTED | PENDING | FULFILLED | REQUEST_FAILED

  datatype LocalNode = LocalNode(state: NodeState, types: seq<Label>, allocatedTo: Option<RequestId>, locked: bool)

  // A node as the node cache lists it, with what the driver and the pool say of it.
  datatype View = View(id: NodeId, types: seq<Label>, ready: bool, taken: bool,
                       samePool: bool, contended: bool, reusable: bool)

  // The outcome of a non-blocking lock: refused, or granted with the refreshed record.
  datatype LockAnswer = Refused | Granted(ready: bool, taken: bool)

  // Where, if anywhere, an exception strikes while a type is being satisfied.
  datatype Fault = NoFault | Early | Late

  datatype Env = Env(lock: (nat, NodeId) -> LockAnswer, quota: nat -> bool, newId: nat -> NodeId, fault: nat -> Fault)

  datatype Next = GoOn | Stop | Raise

  datatype PollResult = Active | Completed | Raised

  // No fault and room for every node.
  ghost predicate Smooth(env: Env) { forall i: nat :: env.quota(i) && env.fault(i).NoFault? }

  // No fault before the quota is asked, and no room for anything.
  ghost predicate NoRoom(env: Env) { forall i: nat :: !env.quota(i) && !env.fault(i).Early? }

  // What keeps a run from even looking for nodes.
  predicate Unwelcome(configured: bool, declineReasons: bool, accepted: bool) { !configured || declineReasons || !accepted }

  predicate Distinct(s: seq<NodeId>) { forall i, j :: 0 <= i < j < |s| ==> s[i] != s[j] }

  function SetOf(s: seq<NodeId>): set<NodeId> { set x | x in s }

  lemma SetOfAppend(s: seq<NodeId>, x: NodeId)
    ensures SetOf(s + [x]) == SetOf(s) + {x} && SetOf([]) == {}
  {
  }

  // list.remove for each id of a set, on a list without duplicates.
  function Minus(s: seq<NodeId>, gone: set<NodeId>): seq<NodeId> {
    if s == [] then []
    else if s[0] in gone then Minus(s[1..], gone)
    else [s[0]] + Minus(s[1..], gone)
  }

  lemma {:induction false} MinusIn(s: seq<NodeId>, gone: set<NodeId>)
    ensures forall x :: x in Minus(s, gone) <==> x in s && x !in gone
  {
    if s != [] {
      MinusIn(s[1..], gone);
    }
  }

  lemma {:induction false} MinusDistinct(s: seq<NodeId>, gone: set<NodeId>)
    requires Distinct(s)
    ensures Distinct(Minus(s, gone))
  {
    if s != [] {
      MinusDistinct(s[1..], gone);
      MinusIn(s[1..], gone);
    }
  }

  lemma {:induction false} MinusMinus(s: seq<NodeId>, a: set<NodeId>, b: set<NodeId>)
    ensures Minus(Minus(s, a), b) == Minus(s, a + b)
  {
    if s != [] {
      MinusMinus(s[1..], a, b);
      if s[0] !in a {
        assert Minus(s, a)[0] == s[0] && Minus(s, a)[1..] == Minus(s[1..], a);
      }
    }
  }

  lemma {:induction false} MinusNothing(s: seq<NodeId>, gone: set<NodeId>)
    requires forall x :: x in s ==> x !in gone
    ensures Minus(s, gone) == s
  {
    if s != [] {
      MinusNothing(s[1..], gone);
    }
  }

  lemma DistinctTail(s: seq<NodeId>)
    requires Distinct(s) && s != []
    ensures Distinct(s[1..]) && s[0] !in s[1..]
  {
    assert forall k :: 0 <= k < |s| - 1 ==> s[1..][k] == s[k + 1];
  }

  lemma IdsTail(data: seq<Record>)
    requires data != []
    ensures Ids(data) == [data[0].id] + Ids(data[1..])
  {
  }

  lemma {:induction false} RemoveIdIds(data: seq<Record>, id: NodeId)
    requires Distinct(Ids(data))
    ensures Ids(RemoveId(data, id)) == Minus(Ids(data), {id})
  {
    if data != [] {
      IdsTail(data);
      DistinctTail(Ids(data));
      if data[0].id == id {
        MinusNothing(Ids(data[1..]), {id});
      } else {
        RemoveIdIds(data[1..], id);
        IdsTail(RemoveId(data, id));
      }
    }
  }

  lemma LabelsCount(data: seq<Record>)
    requires data != []
    ensures multiset(Labels(data)) == multiset{data[0].ntype} + multiset(Labels(data[1..]))
  {
    assert Labels(data) == [data[0].ntype] + Labels(data[1..]);
  }

  lemma {:induction false} RemoveIdCount(data: seq<Record>, id: NodeId)
    ensures multiset(Labels(RemoveId(data, id))) <= multiset(Labels(data))
  {
    hide Labels;
    if data != [] {
      LabelsCount(data);
      if data[0].id != id {
        RemoveIdCount(data[1..], id);
        var rest := RemoveId(data[1..], id);
        assert RemoveId(data, id) == [data[0]] + rest && ([data[0]] + rest)[1..] == rest;
        LabelsCount([data[0]] + rest);
      }
    }
  }

  lemma {:induction false} RemoveIdShrinks(data: seq<Record>, id: NodeId)
    ensures |RemoveId(data, id)| <= |data|
  {
    if data != [] && data[0].id != id {
      RemoveIdShrinks(data[1..], id);
    }
  }

  lemma {:induction false} MinusShorter(s: seq<NodeId>, gone: set<NodeId>)
    ensures |Minus(s, gone)| <= |s|
    ensures (exists x :: x in s && x in gone) ==> |Minus(s, gone)| < |s|
  {
    if s != [] {
      MinusShorter(s[1..], gone);
      assert s == [s[0]] + s[1..];
    }
  }

  function Prepend(ids: seq<NodeId>, rest: Option<seq<NodeId>>): Option<seq<NodeId>> {
    if rest.None? then None else Some(ids + rest.value)
  }

  lemma PrependPrepend(a: seq<NodeId>, b: seq<NodeId>, rest: Option<seq<NodeId>>)
    ensures Prepend(a, Prepend(b, rest)) == Prepend(a + b, rest) && Prepend([], rest) == rest
  {
    if rest.Some? {
      assert a + (b + rest.value) == a + b + rest.value && [] + rest.value == rest.value;
    }
  }

  lemma SplitOff(s: seq<Label>, i: nat)
    requires i < |s|
    ensures multiset(s[i..]) == multiset{s[i]} + multiset(s[i + 1..])
  {
    assert s[i..] == [s[i]] + s[i + 1..];
  }

  // getReadyNodesOfTypes: the READY, unallocated nodes of each wanted label.  A node is
  // listed once per mention of the label.
  method GetReadyNodesOfTypes(views: seq<View>, labels: seq<Label>) returns (ret: map<Label, seq<View>>)
    ensures forall l :: l in ret ==> l in labels && ret[l] != []
    ensures forall l :: l in ret ==> forall v :: v in ret[l] ==> v in views && v.ready && !v.taken && l in v.types
    ensures forall v, l :: v in views && v.ready && !v.taken && l in labels && l in v.types ==> l in ret && v in ret[l]
  {
    ret := map[];
    for i := 0 to |views|
      invariant forall l :: l in ret ==> l in labels && ret[l] != []
      invariant forall l :: l in ret ==> forall v :: v in ret[l] ==> v in views && v.ready && !v.taken && l in v.types
      invariant forall v, l :: v in views[..i] && v.ready && !v.taken && l in labels && l in v.types ==> l in ret && v in ret[l]
    {
      var node := views[i];
      if node.ready && !node.taken {
        for j := 0 to |labels|
          invariant forall l :: l in ret ==> l in labels && ret[l] != []
          invariant forall l :: l in ret ==> forall v :: v in ret[l] ==> v in views && v.ready && !v.taken && l in v.types
          invariant forall v, l :: v in views[..i] && v.ready && !v.taken && l in labels && l in v.types ==> l in ret && v in ret[l]
          invariant forall l :: l in labels[..j] && l in node.types ==> l in ret && node in ret[l]
        {
          if labels[j] in node.types {
            var sofar := if labels[j] in ret then ret[labels[j]] else [];
            ret := ret[labels[j] := sofar + [node]];
          }
        }
      }
    }
  }

  // Where a node set's new members come from: the node cache, or the znodes of one run.
  ghost predicate FromRun(n: NodeId, known: set<NodeId>, env: Env) {
    n in known || exists k: nat :: n == env.newId(k) && env.quota(k)
  }

  ghost predicate Grown(was: seq<NodeId>, now: seq<NodeId>, known: set<NodeId>, env: Env) {
    forall n :: n in now ==> n in was || FromRun(n, known, env)
  }

  // Nothing can be reused for a type, so that a node has to be launched.
  predicate MustLaunch(reuse: bool, candidates: seq<View>, nodeset: seq<NodeId>, i: nat, env: Env) {
    !reuse || forall v :: v in candidates ==> !Reusable(v, nodeset, i, env)
  }

  lemma NothingGrown(s: seq<NodeId>, known: set<NodeId>, env: Env)
    ensures Grown(s, s, known, env)
  {
  }

  lemma GrownMore(first: seq<NodeId>, was: seq<NodeId>, now: seq<NodeId>, known: set<NodeId>, env: Env, i: nat)
    requires Grown(first, was, known, env)
    requires forall n :: n in now ==> n in was || n in known || (n == env.newId(i) && env.quota(i))
    ensures Grown(first, now, known, env)
  {
  }

  predicate CandidatesOk(ntype: Label, candidates: seq<View>, known: set<NodeId>) {
    forall v :: v in candidates ==> ntype in v.types && v.id in known
  }

  // A cached node that a run may reuse, and that is still READY and unallocated when
  // re-read under its lock.
  predicate Reusable(v: View, nodeset: seq<NodeId>, i: nat, env: Env) {
    && v.samePool && !v.contended && v.reusable && v.id !in nodeset
    && env.lock(i, v.id) == Granted(true, false)
  }

  predicate FirstReusable(candidates: seq<View>, j: nat, nodeset: seq<NodeId>, i: nat, env: Env)
    requires j < |candidates|
  {
    Reusable(candidates[j], nodeset, i, env) && forall k :: 0 <= k < j ==> !Reusable(candidates[k], nodeset, i, env)
  }

  predicate NoneAborted(s: seq<NodeId>, nodes: map<NodeId, LocalNode>) {
    forall n :: n in s ==> n in nodes && !nodes[n].state.ABORTED?
  }

  lemma NoneAmong(s: seq<NodeId>, nodes: map<NodeId, LocalNode>, aborted: seq<NodeId>)
    requires (forall n :: n in s ==> n in nodes) && forall n :: n in aborted <==> n in s && nodes[n].state.ABORTED?
    ensures aborted == [] <==> NoneAborted(s, nodes)
  {
    if aborted != [] {
      assert aborted[0] in aborted;
    }
  }

  lemma OneMore(s: seq<NodeId>, i: nat, nodes: map<NodeId, LocalNode>)
    requires i < |s| && s[i] in nodes
    ensures NoneAborted(s[..i + 1], nodes) <==> NoneAborted(s[..i], nodes) && !nodes[s[i]].state.ABORTED?
    ensures NoneFailed(s[..i + 1], nodes) <==>
              NoneFailed(s[..i], nodes) && (nodes[s[i]].state.READY? || nodes[s[i]].state.ABORTED?)
  {
    assert s[..i + 1] == s[..i] + [s[i]];
  }

  function Unlocked(nodes: map<NodeId, LocalNode>, gone: set<NodeId>): map<NodeId, LocalNode> {
    map n | n in nodes :: if n in gone then nodes[n].(locked := false) else nodes[n]
  }

  lemma UnlockOne(nodes: map<NodeId, LocalNode>, gone: set<NodeId>, n: NodeId)
    requires n in nodes
    ensures Unlocked(nodes, {}) == nodes
    ensures var now := Unlocked(nodes, gone);
            now[n := now[n].(locked := false)] == Unlocked(nodes, gone + {n})
  {
  }

  predicate NoneFailed(s: seq<NodeId>, nodes: map<NodeId, LocalNode>) {
    forall n :: n in s ==> n in nodes && (nodes[n].state.READY? || nodes[n].state.ABORTED?)
  }

  // One distinct node of the set per requested type, the i-th of the i-th type.
  predicate OnePerType(types: seq<Label>, ids: seq<NodeId>, nodeset: seq<NodeId>, nodes: map<NodeId, LocalNode>) {
    && |ids| == |types| && Distinct(ids)
    && forall i :: 0 <= i < |ids| ==> ids[i] in nodeset && ids[i] in nodes && types[i] in nodes[ids[i]].types
  }

  // Unlocked, and deallocated unless aborted: an aborted node is let go as it is.
  predicate GivenBack(nodeset: seq<NodeId>, was: map<NodeId, LocalNode>, now: map<NodeId, LocalNode>) {
    forall n :: n in nodeset && n in was && was[n].locked ==>
      n in now && !now[n].locked && (!was[n].state.ABORTED? ==> now[n].allocatedTo == None)
  }

  lemma SortedGivenBack(nodeset: seq<NodeId>, was: map<NodeId, LocalNode>, gone: set<NodeId>, now: map<NodeId, LocalNode>)
    requires forall n :: n in gone ==> n in was && was[n].state.ABORTED?
    requires var mid := Unlocked(was, gone); var left := Minus(nodeset, gone);
             && AllUnlocked(left, now)
             && (forall n :: n in left && n in mid && mid[n].locked ==> n in now && now[n].allocatedTo == None)
             && (forall n :: n in left && n in mid ==> n in now)
             && (forall n :: n !in left && n in mid ==> n in now && now[n] == mid[n])
    ensures GivenBack(nodeset, was, now)
  {
    MinusIn(nodeset, gone);
  }

  lemma SortedKept(nodeset: seq<NodeId>, was: map<NodeId, LocalNode>, gone: set<NodeId>, now: map<NodeId, LocalNode>)
    requires var mid := Unlocked(was, gone); var left := Minus(nodeset, gone);
             && KeptRecords(left, mid, now) && AllUnlocked(left, now)
             && forall n :: n !in left ==> (n in now <==> n in mid) && (n in now ==> now[n] == mid[n])
    ensures KeptRecords(nodeset, was, now) && AllUnlocked(nodeset, now)
  {
    MinusIn(nodeset, gone);
  }

  predicate AllUnlocked(nodeset: seq<NodeId>, nodes: map<NodeId, LocalNode>) { forall n :: n in nodeset && n in nodes ==> !nodes[n].locked }

  // Unlocking without clearing leaves a record's state, types and allocation alone.
  predicate KeptRecords(nodeset: seq<NodeId>, was: map<NodeId, LocalNode>, now: map<NodeId, LocalNode>) {
    forall n :: n in nodeset && n in was ==> n in now && now[n].(locked := was[n].locked) == was[n]
  }

  // What a fulfilled request lists: one distinct node per type, the i-th of the i-th type,
  // each READY and allocated to the request.
  predicate Serves(types: seq<Label>, ids: seq<NodeId>, nodes: map<NodeId, LocalNode>, request: RequestId) {
    && |ids| == |types| && Distinct(ids)
    && forall i :: 0 <= i < |ids| ==>
         && ids[i] in nodes && types[i] in nodes[ids[i]].types
         && nodes[ids[i]].state.READY? && nodes[ids[i]].allocatedTo == Some(request)
  }

  lemma PoppedServe(types: seq<Label>, ids: seq<NodeId>, nodeset: seq<NodeId>, was: map<NodeId, LocalNode>,
                    now: map<NodeId, LocalNode>, request: RequestId)
    requires OnePerType(types, ids, nodeset, was) && KeptRecords(nodeset, was, now)
    requires NoneAborted(nodeset, was) && NoneFailed(nodeset, was)
    requires forall n :: n in nodeset ==> n in was && was[n].allocatedTo == Some(request)
    ensures Serves(types, ids, now, request)
  {
  }

  lemma PoppedNodes(types: seq<Label>, data: seq<Record>, nodeset: seq<NodeId>, nodes: map<NodeId, LocalNode>)
    requires Ids(data) == nodeset && Distinct(nodeset) && PopAll(types, data).Some?
    requires forall r :: r in data ==> r.id in nodes && r.ntype in nodes[r.id].types
    ensures OnePerType(types, PopAll(types, data).value, nodeset, nodes)
  {
    var ids := PopAll(types, data).value;
    PopAllIds(types, data);
    MultisetOfDistinct(nodeset, ids);
    forall i | 0 <= i < |ids| ensures ids[i] in nodeset && ids[i] in nodes && types[i] in nodes[ids[i]].types {
      var r := Record(types[i], ids[i]);
      var k :| 0 <= k < |data| && data[k] == r;
      assert Ids(data)[k] == ids[i];
    }
  }

  class NodeRequestHandler {
    const id: RequestId
    const types: seq<Label>
    const reuse: bool
    const minReady: bool
    const pauseAtQuota: bool
    const launcherId: PoolId
    const satisfied: LabelRecorder

    var requestState: RequestState
    var requestNodes: seq<NodeId>
    var declinedBy: seq<PoolId>

    var nodeset: seq<NodeId>
    var nodes: map<NodeId, LocalNode>
    var readyNodes: seq<NodeId>
    var failedNodes: seq<NodeId>
    var paused: bool
    var done: bool

    // While the handler is at work, the recorder and the node set list the same nodes
    // in the same order, each node has the label it was recorded for, is locked and
    // allocated to the request, and no label is recorded more often than requested.
    ghost predicate Valid()
      reads this, satisfied
    {
      !done ==>
        && Ids(satisfied.data) == nodeset
        && Distinct(nodeset)
        && multiset(Labels(satisfied.data)) <= multiset(types)
        && (forall r :: r in satisfied.data ==>
              && r.id in nodes && r.ntype in nodes[r.id].types
              && nodes[r.id].locked && nodes[r.id].allocatedTo == Some(id))
    }

    ghost predicate Complete()
      reads this, satisfied
    {
      multiset(Labels(satisfied.data)) == multiset(types)
    }

    // What run leaves behind, and what poll may rely on.
    ghost predicate Settled()
      reads this, satisfied
    {
      done || paused || Complete()
    }

    constructor (id: RequestId, types: seq<Label>, reuse: bool, minReady: bool, pauseAtQuota: bool,
                 launcherId: PoolId, declinedBy: seq<PoolId>)
      ensures Valid() && !done && !paused && fresh(satisfied) && nodeset == [] && requestNodes == [] && failedNodes == []
      ensures this.id == id && this.types == types && this.launcherId == launcherId && this.declinedBy == declinedBy
    {
      this.id, this.types, this.reuse, this.minReady := id, types, reuse, minReady;
      this.pauseAtQuota, this.launcherId, this.declinedBy := pauseAtQuota, launcherId, declinedBy;
      requestState, requestNodes := REQUESTED, [];
      nodeset, nodes, readyNodes, failedNodes, paused, done := [], map[], [], [], false, false;
      satisfied := new LabelRecorder();
    }

    // A launcher thread moves the handler's copy of a node to its final state.
    method NodeChanges(node: NodeId, state: NodeState)
      requires Valid() && node in nodes
      modifies this`nodes
      ensures Valid() && nodes == old(nodes)[node := old(nodes)[node].(state := state)]
    {
      nodes := nodes[node := nodes[node].(state := state)];
    }

    method UnlockNodeSet(clearAllocation: bool)
      modifies this`nodes, this`nodeset
      ensures nodeset == [] && nodes.Keys == old(nodes).Keys
      ensures forall n :: n !in old(nodeset) ==> (n in nodes <==> n in old(nodes)) && (n in nodes ==> nodes[n] == old(nodes)[n])
      ensures forall n :: n in old(nodeset) && n in old(nodes) ==>
                && n in nodes && !nodes[n].locked && nodes[n].state == old(nodes)[n].state && nodes[n].types == old(nodes)[n].types
                && nodes[n].allocatedTo == if clearAllocation && old(nodes)[n].locked then None else old(nodes)[n].allocatedTo
    {
      for i := 0 to |nodeset|
        invariant nodeset == old(nodeset) && nodes.Keys == old(nodes).Keys
        invariant forall n :: n !in nodeset[..i] ==> (n in nodes <==> n in old(nodes)) && (n in nodes ==> nodes[n] == old(nodes)[n])
        invariant forall n :: n in nodeset[..i] && n in old(nodes) ==>
                    && n in nodes && !nodes[n].locked && nodes[n].state == old(nodes)[n].state && nodes[n].types == old(nodes)[n].types
                    && nodes[n].allocatedTo == if clearAllocation && old(nodes)[n].locked then None else old(nodes)[n].allocatedTo
        invariant forall n :: n in nodeset[..i] && n !in old(nodes) ==> n !in nodes
      {
        var node := nodeset[i];
        assert nodeset[..i + 1] == nodeset[..i] + [node];
        if node in nodes && nodes[node].locked {
          if clearAllocation {
            nodes := nodes[node := nodes[node].(allocatedTo := None)];
          }
          nodes := nodes[node := nodes[node].(locked := false)];
        }
      }
      nodeset := [];
    }

    // _declineRequest: the request fails exactly when every registered pool has
    // declined it, and a pool is listed at most once more than it was.
    method MarkDeclined(registered: set<PoolId>)
      modifies this`declinedBy, this`requestState
      ensures declinedBy == if launcherId in old(declinedBy) then old(declinedBy) else old(declinedBy) + [launcherId]
      ensures requestState == if forall p :: p in registered ==> p in declinedBy then REQUEST_FAILED else REQUESTED
    {
      if launcherId !in declinedBy {
        declinedBy := declinedBy + [launcherId];
      }
      if forall p :: p in registered ==> p in declinedBy {
        requestState := REQUEST_FAILED;
      } else {
        requestState := REQUESTED;
      }
    }

    // _declinedHandlerCleanup; storing and unlocking the request cannot stop it.
    method DeclinedHandlerCleanup()
      modifies this`nodes, this`nodeset, this`paused, this`done
      ensures done && !paused && nodeset == [] && nodes.Keys == old(nodes).Keys
      ensures forall n :: n in old(nodeset) && n in old(nodes) ==> n in nodes && !nodes[n].locked
      ensures forall n :: n in old(nodeset) && n in old(nodes) && old(nodes)[n].locked ==> nodes[n].allocatedTo == None
    {
      UnlockNodeSet(true);
      if paused {
        paused := false;
      }
      done := true;
    }

    method DeclineRequest(registered: set<PoolId>)
      modifies this`declinedBy, this`requestState, this`nodes, this`nodeset, this`paused, this`done
      ensures done && !paused && nodeset == [] && nodes.Keys == old(nodes).Keys
      ensures declinedBy == if launcherId in old(declinedBy) then old(declinedBy) else old(declinedBy) + [launcherId]
      ensures requestState == if forall p :: p in registered ==> p in declinedBy then REQUEST_FAILED else REQUESTED
      ensures forall n :: n in old(nodeset) && n in old(nodes) ==> n in nodes && !nodes[n].locked
      ensures forall n :: n in old(nodeset) && n in old(nodes) && old(nodes)[n].locked ==> nodes[n].allocatedTo == None
    {
      MarkDeclined(registered);
      DeclinedHandlerCleanup();
    }

    // A node joins the set: locked, allocated to the request, recorded under a label it has.
    method Take(ntype: Label, node: NodeId, local: LocalNode)
      requires Valid() && !done && node !in nodeset && ntype in local.types
      requires local.locked && local.allocatedTo == Some(id)
      requires multiset(Labels(satisfied.data)) + multiset{ntype} <= multiset(types)
      modifies this`nodes, this`nodeset, this`paused, satisfied
      ensures Valid() && !paused && nodeset == old(nodeset) + [node] && nodes == old(nodes)[node := local]
      ensures satisfied.data == old(satisfied.data) + [Record(ntype, node)]
      ensures multiset(Labels(satisfied.data)) == multiset(Labels(old(satisfied.data))) + multiset{ntype}
    {
      if paused {
        paused := false;
      }
      nodes := nodes[node := local];
      nodeset := nodeset + [node];
      satisfied.Add(ntype, node);
      assert Ids(satisfied.data) == Ids(old(satisfied.data)) + [node];
      assert Labels(satisfied.data) == Labels(old(satisfied.data)) + [ntype];
      forall r | r in satisfied.data && r in old(satisfied.data) ensures r.id != node {
        var k :| 0 <= k < |old(satisfied.data)| && old(satisfied.data)[k] == r;
        assert Ids(old(satisfied.data))[k] == r.id;
      }
    }

    // The inner loop of _waitForNodeSet over the ready nodes of one type.
    method TryReuse(ntype: Label, candidates: seq<View>, ghost known: set<NodeId>, i: nat, env: Env) returns (got: bool)
      requires Valid() && !done
      requires CandidatesOk(ntype, candidates, known)
      requires multiset(Labels(satisfied.data)) + multiset{ntype} <= multiset(types)
      modifies this`nodes, this`nodeset, this`paused, satisfied
      ensures Valid()
      ensures got <==> exists v :: v in candidates && Reusable(v, old(nodeset), i, env)
      ensures !got ==> nodeset == old(nodeset) && nodes == old(nodes) && satisfied.data == old(satisfied.data) && paused == old(paused)
      ensures got ==> exists j :: 0 <= j < |candidates| && FirstReusable(candidates, j, old(nodeset), i, env)
                        && nodeset == old(nodeset) + [candidates[j].id]
                        && satisfied.data == old(satisfied.data) + [Record(ntype, candidates[j].id)]
      ensures got ==>
                && !paused
                && multiset(Labels(satisfied.data)) == multiset(Labels(old(satisfied.data))) + multiset{ntype}
                && forall n :: n in nodeset ==> n in old(nodeset) || n in known
    {
      got := false;
      for j := 0 to |candidates|
        invariant Valid() && !got && nodes == old(nodes)
        invariant forall k :: 0 <= k < j ==> !Reusable(candidates[k], nodeset, i, env)
        invariant nodeset == old(nodeset) && satisfied.data == old(satisfied.data) && paused == old(paused)
      {
        var node := candidates[j];
        if !node.samePool || node.contended || !node.reusable {
          continue;
        }
        // Our own copy's thread lock, or the ZooKeeper lock, may refuse.
        if node.id in nodeset || env.lock(i, node.id).Refused? {
          continue;
        }
        var refreshed := env.lock(i, node.id);
        if !refreshed.ready || refreshed.taken {
          continue;
        }
        got := true;
        assert FirstReusable(candidates, j, nodeset, i, env) && node in candidates;
        Take(ntype, node.id, LocalNode(READY, node.types, Some(id), true));
        return;
      }
    }

    // What a refused quota comes to: a min-ready request is declined, another one waits
    // with what it has, or is let go of undeclined by a driver that does not wait.
    ghost predicate Refused(registered: set<PoolId>, wasSet: seq<NodeId>, wasData: seq<Record>, wasDeclined: seq<PoolId>, wasState: RequestState)
      reads this, satisfied
    {
      if !minReady && pauseAtQuota then
        && paused && !done && nodeset == wasSet && satisfied.data == wasData
        && declinedBy == wasDeclined && requestState == wasState
      else
        && done && !paused && nodeset == []
        && if minReady then launcherId in declinedBy && Undecided(registered)
           else declinedBy == wasDeclined && requestState == wasState
    }

    // The request is FAILED if every registered pool has declined it, and open otherwise.
    ghost predicate Undecided(registered: set<PoolId>)
      reads this
    {
      requestState == if forall p :: p in registered ==> p in declinedBy then REQUEST_FAILED else REQUESTED
    }

    method Refuse(registered: set<PoolId>)
      requires Valid() && !done
      modifies this`declinedBy, this`requestState, this`nodes, this`nodeset, this`paused, this`done
      ensures Valid() && Refused(registered, old(nodeset), old(satisfied.data), old(declinedBy), old(requestState)) && nodes.Keys == old(nodes).Keys
      ensures forall n :: n in old(nodeset) && n in nodes && done ==> !nodes[n].locked && (old(nodes)[n].locked ==> nodes[n].allocatedTo == None)
      ensures !done ==> nodes == old(nodes)
    {
      if minReady {
        DeclineRequest(registered);
      } else if pauseAtQuota {
        paused := true;
      } else {
        DeclinedHandlerCleanup();
      }
    }

    // The body of _waitForNodeSet's loop for one needed type.
    method SatisfyType(ntype: Label, candidates: seq<View>, ghost known: set<NodeId>, registered: set<PoolId>, i: nat, env: Env)
        returns (next: Next)
      requires Valid() && !done
      requires CandidatesOk(ntype, candidates, known)
      requires env.newId(i) !in nodeset && env.newId(i) !in known
      requires multiset(Labels(satisfied.data)) + multiset{ntype} <= multiset(types)
      modifies this, satisfied
      ensures Valid() && requestNodes == old(requestNodes) && failedNodes == old(failedNodes)
      ensures env.quota(i) && env.fault(i).NoFault? ==> next.GoOn?
      ensures env.fault(i).Early? ==> next.Raise? && nodeset == old(nodeset) && paused == old(paused) && !done
      ensures env.newId(i) in nodeset ==>
                env.quota(i) && env.newId(i) in nodes && nodes[env.newId(i)] == LocalNode(BUILDING, [ntype], Some(id), true)
      ensures MustLaunch(reuse, candidates, old(nodeset), i, env) && !env.fault(i).Early? && env.quota(i) ==>
                nodeset == old(nodeset) + [env.newId(i)] && !paused && (next.Raise? <==> env.fault(i).Late?)
      ensures !MustLaunch(reuse, candidates, old(nodeset), i, env) && !env.fault(i).Early? ==>
                next.GoOn? && exists j :: 0 <= j < |candidates| && FirstReusable(candidates, j, old(nodeset), i, env)
                                          && nodeset == old(nodeset) + [candidates[j].id]
      ensures next.Stop? <==> MustLaunch(reuse, candidates, old(nodeset), i, env) && !env.fault(i).Early? && !env.quota(i)
      ensures next.Stop? ==> Refused(registered, old(nodeset), old(satisfied.data), old(declinedBy), old(requestState)) && nodes.Keys == old(nodes).Keys
      ensures next.GoOn? || next.Raise? ==> declinedBy == old(declinedBy) && requestState == old(requestState)
      ensures requestState.FULFILLED? ==> old(requestState).FULFILLED?
      ensures forall n :: n in nodeset ==> n in old(nodeset) || n in known || n == env.newId(i)
      ensures next.GoOn? ==>
                && !done && !paused
                && multiset(Labels(satisfied.data)) == multiset(Labels(old(satisfied.data))) + multiset{ntype}
    {
      if env.fault(i).Early? {
        return Raise;
      }
      var got := false;
      if reuse {
        got := TryReuse(ntype, candidates, known, i, env);
      }
      if !got {
        if !env.quota(i) {
          Refuse(registered);
          return Stop;
        }
        // Stored INIT, locked, then stored BUILDING.
        Take(ntype, env.newId(i), LocalNode(BUILDING, [ntype], Some(id), true));
        if env.fault(i).Late? {
          return Raise;
        }
      }
      return GoOn;
    }

    // A new znode's id is one that neither the handler nor the cache has seen.
    ghost predicate NewIds(env: Env, known: set<NodeId>, i: nat)
      reads this
    {
      && (forall k: nat :: k >= i ==> env.newId(k) !in nodeset && env.newId(k) !in known)
      && (forall k: nat, l: nat :: k != l ==> env.newId(k) != env.newId(l))
    }

    // One turn of that loop, as the loop as a whole sees it.
    method SatisfyNext(needed: seq<Label>, ready: map<Label, seq<View>>, ghost known: set<NodeId>,
                       registered: set<PoolId>, i: nat, env: Env, ghost first: seq<NodeId>) returns (next: Next)
      requires Valid() && !done && i < |needed| && NewIds(env, known, i) && Grown(first, nodeset, known, env)
      requires multiset(Labels(satisfied.data)) + multiset(needed[i..]) == multiset(types)
      requires forall l :: l in ready ==> CandidatesOk(l, ready[l], known)
      modifies this, satisfied
      ensures Valid() && requestNodes == old(requestNodes) && failedNodes == old(failedNodes) && Grown(first, nodeset, known, env)
      ensures requestState.FULFILLED? ==> old(requestState).FULFILLED?
      ensures env.quota(i) && env.fault(i).NoFault? ==> next.GoOn?
      ensures !env.quota(i) && !env.fault(i).Early? && !reuse ==> next.Stop?
      ensures next.Stop? ==> !env.quota(i) && (done || paused)
                             && Refused(registered, old(nodeset), old(satisfied.data), old(declinedBy), old(requestState))
      ensures !done ==> declinedBy == old(declinedBy) && requestState == old(requestState)
      ensures next.GoOn? ==>
                && !done && !paused && NewIds(env, known, i + 1)
                && multiset(Labels(satisfied.data)) + multiset(needed[i + 1..]) == multiset(types)
    {
      hide Valid;
      hide Grown;
      SplitOff(needed, i);
      var candidates := if needed[i] in ready then ready[needed[i]] else [];
      ghost var was := nodeset;
      next := SatisfyType(needed[i], candidates, known, registered, i, env);
      GrownMore(first, was, nodeset, known, env, i);
    }

    // The outer loop of _waitForNodeSet.
    method SatisfyAll(needed: seq<Label>, ready: map<Label, seq<View>>, ghost known: set<NodeId>,
                      registered: set<PoolId>, env: Env)
        returns (raised: bool)
      requires Valid() && !done && NewIds(env, known, 0)
      requires multiset(Labels(satisfied.data)) + multiset(needed) == multiset(types)
      requires forall l :: l in ready ==> CandidatesOk(l, ready[l], known)
      modifies this, satisfied
      ensures Valid() && requestNodes == old(requestNodes) && failedNodes == old(failedNodes) && Grown(old(nodeset), nodeset, known, env)
      ensures requestState.FULFILLED? ==> old(requestState).FULFILLED?
      ensures !raised ==> done || paused || Complete()
      ensures Smooth(env) && !old(paused) ==> !raised && !done && !paused
      ensures !raised && (done || (paused && !old(paused))) ==> exists i: nat :: i < |needed| && !env.quota(i)
      ensures !done ==> declinedBy == old(declinedBy) && requestState == old(requestState)
      ensures NoRoom(env) && !reuse && needed != [] ==> !raised && Refused(registered, old(nodeset), old(satisfied.data), old(declinedBy), old(requestState))
    {
      hide Refused;
      hide Grown;
      hide Reusable;
      hide Valid;
      hide CandidatesOk;
      assert Grown(nodeset, nodeset, known, env) by {
        NothingGrown(nodeset, known, env);
      }
      assert needed[0..] == needed;
      for i := 0 to |needed|
        invariant Valid() && !done && requestNodes == old(requestNodes) && failedNodes == old(failedNodes) && Grown(old(nodeset), nodeset, known, env)
        invariant requestState.FULFILLED? ==> old(requestState).FULFILLED?
        invariant multiset(Labels(satisfied.data)) + multiset(needed[i..]) == multiset(types)
        invariant NewIds(env, known, i)
        invariant !old(paused) ==> !paused
        invariant declinedBy == old(declinedBy) && requestState == old(requestState)
        invariant NoRoom(env) && !reuse && needed != [] ==> i == 0
        invariant i == 0 ==> nodeset == old(nodeset) && satisfied.data == old(satisfied.data)
      {
        var next := SatisfyNext(needed, ready, known, registered, i, env, old(nodeset));
        if !next.GoOn? {
          return next.Raise?;
        }
      }
      assert needed[|needed|..] == [];
      raised := false;
    }

    method WaitForNodeSet(views: seq<View>, registered: set<PoolId>, env: Env) returns (raised: bool)
      requires Valid() && !done && NewIds(env, set v | v in views :: v.id, 0)
      modifies this, satisfied
      ensures Valid() && requestNodes == old(requestNodes) && failedNodes == old(failedNodes)
      ensures Grown(old(nodeset), nodeset, set v | v in views :: v.id, env)
      ensures requestState.FULFILLED? ==> old(requestState).FULFILLED?
      ensures !raised ==> Settled()
      ensures Smooth(env) && !old(paused) ==> !raised && !done && !paused
      ensures !raised && (done || (paused && !old(paused))) ==> exists i: nat :: !env.quota(i)
      ensures !done ==> declinedBy == old(declinedBy) && requestState == old(requestState)
      ensures NoRoom(env) && !reuse && !old(Complete()) ==> !raised && Refused(registered, old(nodeset), old(satisfied.data), old(declinedBy), old(requestState))
    {
      hide Refused;
      hide Grown;
      var saved := satisfied.GetLabels();
      var needed := Needed(types, saved);
      NeededCount(types, saved);
      var ready := GetReadyNodesOfTypes(if reuse then views else [], needed);
      raised := SatisfyAll(needed, ready, set v | v in views :: v.id, registered, env);
    }

    // The request is declined and everything given back; no node is launched.
    twostate predicate GaveUp(registered: set<PoolId>)
      reads this
    {
      && done && !paused && nodeset == [] && launcherId in declinedBy && Undecided(registered)
      && nodes.Keys == old(nodes).Keys
      && forall n :: n in old(nodeset) && n in nodes ==> !nodes[n].locked && (old(nodes)[n].locked ==> nodes[n].allocatedTo == None)
    }

    // declineReasons: getDeclinedReasons found some.  storeOk: storing PENDING worked.
    method Run(configured: bool, declineReasons: bool, storeOk: bool, views: seq<View>, registered: set<PoolId>, env: Env)
      requires Valid() && !done && NewIds(env, set v | v in views :: v.id, 0)
      modifies this, satisfied
      ensures Valid() && Settled() && requestNodes == old(requestNodes) && failedNodes == old(failedNodes)
      ensures Grown(old(nodeset), nodeset, set v | v in views :: v.id, env)
      ensures requestState.FULFILLED? ==> old(requestState).FULFILLED?
      ensures configured && !declineReasons && storeOk && Smooth(env) && !old(paused) ==> !done && !paused
      ensures Unwelcome(configured, declineReasons, old(paused) || storeOk) ==> GaveUp(registered)
      ensures !done ==> declinedBy == old(declinedBy) && requestState == if old(paused) then old(requestState) else PENDING
      ensures !Unwelcome(configured, declineReasons, old(paused) || storeOk) && NoRoom(env) && !reuse && !old(Complete()) ==>
                if !minReady && pauseAtQuota then paused && !done && nodeset == old(nodeset)
                else done && nodeset == [] && (minReady ==> launcherId in declinedBy && Undecided(registered))
                     && (!minReady ==> declinedBy == old(declinedBy))
    {
      var raised := RunHandler(configured, declineReasons, storeOk, views, registered, env);
      if raised {
        DeclineRequest(registered);
      }
    }

    method RunHandler(configured: bool, declineReasons: bool, storeOk: bool, views: seq<View>, registered: set<PoolId>, env: Env)
        returns (raised: bool)
      requires Valid() && !done && NewIds(env, set v | v in views :: v.id, 0)
      modifies this, satisfied
      ensures Valid() && (!raised ==> Settled()) && requestNodes == old(requestNodes) && failedNodes == old(failedNodes)
      ensures Grown(old(nodeset), nodeset, set v | v in views :: v.id, env)
      ensures requestState.FULFILLED? ==> old(requestState).FULFILLED?
      ensures configured && !declineReasons && storeOk && Smooth(env) && !old(paused) ==> !raised && !done && !paused
      ensures Unwelcome(configured, declineReasons, old(paused) || storeOk) ==>
                (raised && nodes == old(nodes) && nodeset == old(nodeset)) || (!raised && GaveUp(registered))
      ensures !done ==> declinedBy == old(declinedBy)
      ensures !done && !raised ==> requestState == if old(paused) then old(requestState) else PENDING
      ensures !Unwelcome(configured, declineReasons, old(paused) || storeOk) && NoRoom(env) && !reuse && !old(Complete()) ==>
                !raised
                && if !minReady && pauseAtQuota then paused && !done && nodeset == old(nodeset)
                   else done && nodeset == [] && (minReady ==> launcherId in declinedBy && Undecided(registered))
                        && (!minReady ==> declinedBy == old(declinedBy))
    {
      if !configured {
        return true;
      }
      if declineReasons {
        DeclineRequest(registered);
        return false;
      }
      if !paused {
        requestState := PENDING;
        if !storeOk {
          return true;
        }
      }
      raised := WaitForNodeSet(views, registered, env);
    }

    method SortOne(node: NodeId) returns (gone: bool)
      requires node in nodes
      modifies this`nodes, this`nodeset, this`readyNodes, this`failedNodes
      ensures gone <==> old(nodes)[node].state.ABORTED?
      ensures nodeset == if gone then Minus(old(nodeset), {node}) else old(nodeset)
      ensures nodes == if gone then old(nodes)[node := old(nodes)[node].(locked := false)] else old(nodes)
      ensures failedNodes == if gone || old(nodes)[node].state.READY? then old(failedNodes) else old(failedNodes) + [node]
    {
      gone := false;
      match nodes[node].state {
        case READY => readyNodes := readyNodes + [node];
        case ABORTED =>
          gone := true;
          nodeset := Minus(nodeset, {node});
          nodes := nodes[node := nodes[node].(locked := false)];
        case _ => failedNodes := failedNodes + [node];
      }
    }

    // The first loop of poll: sort the nodes by outcome, letting go of aborted ones.
    method SortOut() returns (aborted: seq<NodeId>)
      requires forall n :: n in nodeset ==> n in nodes
      modifies this`nodes, this`nodeset, this`readyNodes, this`failedNodes
      ensures nodeset == Minus(old(nodeset), SetOf(aborted))
      ensures forall n :: n in aborted <==> n in old(nodeset) && old(nodes)[n].state.ABORTED?
      ensures aborted == [] <==> NoneAborted(old(nodeset), old(nodes))
      ensures nodes == Unlocked(old(nodes), SetOf(aborted))
      ensures failedNodes == [] <==> old(failedNodes) == [] && NoneFailed(old(nodeset), old(nodes))
    {
      aborted := [];
      var copy := nodeset;
      ghost var nodes0 := nodes;
      MinusNothing(nodeset, {});
      SetOfAppend([], "");
      for i := 0 to |copy|
        invariant nodeset == Minus(copy, SetOf(aborted))
        invariant forall n :: n in aborted <==> n in copy[..i] && nodes0[n].state.ABORTED?
        invariant nodes == Unlocked(nodes0, SetOf(aborted))
        invariant failedNodes == [] <==> old(failedNodes) == [] && NoneFailed(copy[..i], nodes0)
      {
        var node := copy[i];
        assert copy[..i + 1] == copy[..i] + [node];
        OneMore(copy, i, nodes0);
        assert nodes[node].state == nodes0[node].state;
        var gone := SortOne(node);
        if gone {
          MinusMinus(copy, SetOf(aborted), {node});
          SetOfAppend(aborted, node);
          UnlockOne(nodes0, SetOf(aborted), node);
          aborted := aborted + [node];
        }
      }
      assert copy[..|copy|] == copy;
      NoneAmong(copy, nodes0, aborted);
    }

    // Aborted nodes leave the recorder as they left the node set.
    method ForgetAborted(aborted: seq<NodeId>)
      requires Distinct(Ids(satisfied.data))
      requires exists n :: n in aborted && n in Ids(satisfied.data)
      modifies satisfied
      ensures Ids(satisfied.data) == Minus(Ids(old(satisfied.data)), SetOf(aborted))
      ensures multiset(Labels(satisfied.data)) <= multiset(Labels(old(satisfied.data)))
      ensures |satisfied.data| < |old(satisfied.data)|
      ensures forall r :: r in satisfied.data ==> r in old(satisfied.data)
    {
      MinusNothing(Ids(satisfied.data), {});
      SetOfAppend([], "");
      ghost var data0 := satisfied.data;
      for i := 0 to |aborted|
        invariant Ids(satisfied.data) == Minus(Ids(data0), SetOf(aborted[..i]))
        invariant multiset(Labels(satisfied.data)) <= multiset(Labels(data0))
        invariant |satisfied.data| <= |data0|
        invariant forall r :: r in satisfied.data ==> r in data0
      {
        MinusDistinct(Ids(data0), SetOf(aborted[..i]));
        RemoveIdIds(satisfied.data, aborted[i]);
        RemoveIdCount(satisfied.data, aborted[i]);
        MinusMinus(Ids(data0), SetOf(aborted[..i]), {aborted[i]});
        assert aborted[..i + 1] == aborted[..i] + [aborted[i]];
        SetOfAppend(aborted[..i], aborted[i]);
        RemoveIdShrinks(satisfied.data, aborted[i]);
        satisfied.RemoveNode(aborted[i]);
      }
      assert aborted[..|aborted|] == aborted;
      MinusShorter(Ids(data0), SetOf(aborted));
    }

    method PauseAfterAbort(aborted: seq<NodeId>)
      requires Distinct(Ids(satisfied.data)) && nodeset == Minus(Ids(satisfied.data), SetOf(aborted))
      requires multiset(Labels(satisfied.data)) <= multiset(types)
      requires aborted != [] && aborted[0] in Ids(satisfied.data)
      requires forall r :: r in satisfied.data ==>
                 && r.id in nodes && r.ntype in nodes[r.id].types
                 && nodes[r.id].allocatedTo == Some(id) && (r.id !in aborted ==> nodes[r.id].locked)
      modifies this`paused, satisfied
      ensures paused && Valid()
    {
      ForgetAborted(aborted);
      MinusDistinct(Ids(old(satisfied.data)), SetOf(aborted));
      MinusIn(Ids(old(satisfied.data)), SetOf(aborted));
      paused := true;
      forall r | r in satisfied.data ensures r.id !in aborted {
        var k :| 0 <= k < |satisfied.data| && satisfied.data[k] == r;
        assert Ids(satisfied.data)[k] == r.id;
        assert r.id !in SetOf(aborted);
      }
    }

    // The last loop of poll: the ids of the request's nodes, in the order of its types.
    method PopInOrder() returns (missed: bool)
      modifies this`requestNodes, satisfied
      ensures missed <==> PopAll(types, old(satisfied.data)).None?
      ensures !missed ==> requestNodes == old(requestNodes) + PopAll(types, old(satisfied.data)).value
      ensures !missed ==> |satisfied.data| + |types| == |old(satisfied.data)|
      ensures |satisfied.data| <= |old(satisfied.data)|
    {
      ghost var data0 := satisfied.data;
      ghost var ids: seq<NodeId> := [];
      assert types[0..] == types;
      PrependPrepend([], [], PopAll(types, data0));
      for i := 0 to |types|
        invariant requestNodes == old(requestNodes) + ids
        invariant |satisfied.data| + i == |data0|
        invariant PopAll(types, data0) == Prepend(ids, PopAll(types[i..], satisfied.data))
      {
        assert types[i..][0] == types[i] && types[i..][1..] == types[i + 1..];
        assert forall k :: 0 <= k < |satisfied.data| ==> Labels(satisfied.data)[k] == satisfied.data[k].ntype;
        var popped := satisfied.Pop(types[i]);
        if popped.Unbound? {
          return true;
        }
        PrependPrepend(ids, [popped.id], PopAll(types[i + 1..], satisfied.data));
        ids := ids + [popped.id];
        requestNodes := requestNodes + [popped.id];
      }
      missed := false;
    }

    // The ids and the node set they come from, once nothing has failed or aborted.
    method Fulfil() returns (missed: bool)
      requires Valid() && !done
      modifies this`requestNodes, this`requestState, satisfied
      ensures missed <==> !(multiset(types) <= multiset(Labels(old(satisfied.data))))
      ensures missed ==> requestState == old(requestState) && |satisfied.data| <= |old(satisfied.data)|
      ensures !missed ==>
                && requestState == FULFILLED
                && |satisfied.data| + |types| == |old(satisfied.data)|
                && exists ids: seq<NodeId> ::
                     && requestNodes == old(requestNodes) + ids
                     && NodesForTypes(ids)
    {
      PopAllIff(types, satisfied.data);
      if multiset(types) <= multiset(Labels(satisfied.data)) {
        PoppedNodes(types, satisfied.data, nodeset, nodes);
      }
      missed := PopInOrder();
      if !missed {
        requestState := FULFILLED;
      }
    }

    ghost predicate NodesForTypes(ids: seq<NodeId>)
      reads this
    {
      OnePerType(types, ids, nodeset, nodes)
    }

    method FinishReady(storeOk: bool) returns (r: PollResult)
      requires Valid() && !done
      modifies this`requestNodes, this`requestState, this`nodes, this`nodeset, satisfied
      ensures !(multiset(types) <= multiset(Labels(old(satisfied.data)))) ==>
                && r.Raised? && requestState == old(requestState)
                && nodeset == old(nodeset) && |satisfied.data| <= |old(satisfied.data)|
      ensures multiset(types) <= multiset(Labels(old(satisfied.data))) ==>
                && r == (if storeOk then Completed else Raised)
                && requestState == FULFILLED && nodeset == []
                && |satisfied.data| + |types| == |old(satisfied.data)|
                && KeptRecords(old(nodeset), old(nodes), nodes) && AllUnlocked(old(nodeset), nodes)
                && exists ids: seq<NodeId> :: requestNodes == old(requestNodes) + ids && old(NodesForTypes(ids))
    {
      var missed := Fulfil();
      if missed {
        return Raised;
      }
      UnlockNodeSet(false);
      return if storeOk then Completed else Raised;
    }

    // A node failed in this poll or, its decline not having been stored, in an earlier one.
    ghost predicate SomeFailed()
      reads this
    {
      failedNodes != [] || !NoneFailed(nodeset, nodes)
    }

    // How a poll that finds the launches complete ends, the request still existing.
    twostate predicate PollOutcome(r: PollResult, storeOk: bool, registered: set<PoolId>)
      reads this, satisfied
    {
      if old(SomeFailed()) then
        && r == (if storeOk then Completed else Raised) && nodeset == []
        && launcherId in declinedBy
        && KeptRecords(old(nodeset), old(nodes), nodes) && AllUnlocked(old(nodeset), nodes)
        && requestState == if forall p :: p in registered ==> p in declinedBy then REQUEST_FAILED else REQUESTED
      else if !old(NoneAborted(nodeset, nodes)) then
        && r.Active? && paused && requestState == old(requestState)
        && (forall n :: n in nodeset <==> n in old(nodeset) && !old(nodes)[n].state.ABORTED?)
        && (forall n :: n in old(nodeset) && old(nodes)[n].state.ABORTED? ==> n in nodes && !nodes[n].locked)
      else if multiset(types) <= multiset(Labels(old(satisfied.data))) then
        && r == (if storeOk then Completed else Raised) && nodeset == []
        && requestState == FULFILLED
        && failedNodes == [] && |satisfied.data| + |types| == |old(satisfied.data)|
        && KeptRecords(old(nodeset), old(nodes), nodes) && AllUnlocked(old(nodeset), nodes)
        && exists ids: seq<NodeId> :: requestNodes == old(requestNodes) + ids && old(NodesForTypes(ids))
      else
        && r.Raised? && requestState == old(requestState)
        && nodeset == old(nodeset) && failedNodes == [] && |satisfied.data| <= |old(satisfied.data)|
    }

    // The request disappeared: its nodes go back.
    method ReleaseAll()
      modifies this`nodes, this`nodeset
      ensures nodeset == [] && AllUnlocked(old(nodeset), nodes)
      ensures forall n :: n in old(nodeset) && n in old(nodes) ==> n in nodes && (old(nodes)[n].locked ==> nodes[n].allocatedTo == None)
      ensures forall n :: n !in old(nodeset) && n in old(nodes) ==> n in nodes && nodes[n] == old(nodes)[n]
    {
      UnlockNodeSet(true);
    }

    // Some node failed: decline, and let go of the set without clearing allocations.
    method DeclineFailed(storeOk: bool, registered: set<PoolId>) returns (r: PollResult)
      modifies this`declinedBy, this`requestState, this`nodes, this`nodeset
      ensures nodeset == [] && launcherId in declinedBy && r == if storeOk then Completed else Raised
      ensures KeptRecords(old(nodeset), old(nodes), nodes) && AllUnlocked(old(nodeset), nodes)
      ensures forall n :: n !in old(nodeset) ==> (n in nodes <==> n in old(nodes)) && (n in nodes ==> nodes[n] == old(nodes)[n])
      ensures requestState == if forall p :: p in registered ==> p in declinedBy then REQUEST_FAILED else REQUESTED
    {
      MarkDeclined(registered);
      UnlockNodeSet(false);
      return if storeOk then Completed else Raised;
    }

    // The part of poll after the launches are complete.
    method FinishLaunches(requestExists: bool, storeOk: bool, registered: set<PoolId>) returns (r: PollResult)
      requires Valid() && !done && !paused
      modifies this`requestNodes, this`requestState, this`declinedBy, this`nodes, this`nodeset, this`readyNodes, this`failedNodes, this`paused, satisfied
      ensures r.Active? ==> Valid() && paused && requestNodes == old(requestNodes) && requestState == old(requestState)
      ensures r.Active? ==> forall n :: n in nodeset ==> n in old(nodeset)
      ensures requestExists ==> PollOutcome(r, storeOk, registered)
      ensures !r.Active? ==> !paused
      ensures !requestExists ==> r.Completed? && nodeset == [] && requestState == old(requestState)
      ensures !requestExists ==> GivenBack(old(nodeset), old(nodes), nodes)
    {
      hide OnePerType;
      hide Minus;
      hide GivenBack;
      hide NoneFailed;
      hide KeptRecords;
      hide AllUnlocked;
      assert forall i :: 0 <= i < |nodeset| ==> nodeset[i] == satisfied.data[i].id && satisfied.data[i] in satisfied.data;
      var aborted := SortOut();
      ghost var gone := SetOf(aborted);
      if !requestExists {
        ReleaseAll();
        SortedGivenBack(old(nodeset), old(nodes), gone, nodes);
        return Completed;
      }
      if failedNodes != [] {
        r := DeclineFailed(storeOk, registered);
        SortedKept(old(nodeset), old(nodes), gone, nodes);
        return;
      } else if aborted != [] {
        assert aborted[0] in old(nodeset);
        MinusIn(old(nodeset), gone);
        PauseAfterAbort(aborted);
        return Active;
      } else {
        SetOfAppend([], "");
        MinusNothing(old(nodeset), {});
        assert nodes == old(nodes);
        r := FinishReady(storeOk);
      }
    }

    // An active poll leaves the handler in step.  A poll of a settled handler whose
    // nodes are all ready fulfils the request with one distinct node per requested
    // type, the i-th of the i-th type; a pop misses exactly when the recorder lacks a
    // requested type.
    method Poll(launchesComplete: bool, requestExists: bool, storeOk: bool, registered: set<PoolId>) returns (r: PollResult)
      requires Valid()
      modifies this, satisfied
      ensures r.Active? ==> Valid() && (old(Settled()) ==> Settled()) && requestNodes == old(requestNodes)
      ensures r.Active? ==> requestState == old(requestState) && forall n :: n in nodeset ==> n in old(nodeset)
      ensures old(paused) ==> r.Active?
      ensures done == old(done) && (!r.Active? ==> paused == old(paused))
      ensures !old(paused) && old(done) ==> r.Completed? && requestState == old(requestState)
      ensures !old(paused) && !old(done) && launchesComplete && requestExists ==> PollOutcome(r, storeOk, registered)
      ensures !old(paused) && !old(done) && !launchesComplete ==> r.Active?
      ensures !old(paused) && !old(done) && launchesComplete && !requestExists ==>
                r.Completed? && nodeset == [] && requestState == old(requestState) && GivenBack(old(nodeset), old(nodes), nodes)
    {
      if paused {
        return Active;
      }
      if done {
        return Completed;
      }
      if !launchesComplete {
        return Active;
      }
      r := FinishLaunches(requestExists, storeOk, registered);
    }
  }

  // Labels handed out, nodes let go, nothing failed: the fulfilled request is all there is.
  ghost predicate Stuck(h: NodeRequestHandler)
    reads h, h.satisfied
  {
    && h.types != [] && h.satisfied.data == [] && h.nodeset == [] && h.failedNodes == []
    && !h.paused && !h.done && h.requestState == FULFILLED
  }

  method FailedStore(h: NodeRequestHandler, registered: set<PoolId>)
    requires h.Valid() && !h.done && !h.paused && h.Complete() && !h.SomeFailed() && NoneAborted(h.nodeset, h.nodes)
    requires h.types != []
    modifies h, h.satisfied
    ensures Stuck(h)
  {
    assert |multiset(Labels(h.satisfied.data))| == |multiset(h.types)|;
    var r := h.Poll(true, true, false, registered);
  }

  method PollStuck(h: NodeRequestHandler, storeOk: bool, registered: set<PoolId>) returns (r: PollResult)
    requires Stuck(h)
    modifies h, h.satisfied
    ensures Stuck(h) && r.Raised?
  {
    assert h.types[0] in multiset(h.types) && Labels(h.satisfied.data) == [];
    r := h.Poll(true, true, storeOk, registered);
  }

  // A complete handler whose fulfilled request could not be stored has handed its
  // labels out: every later poll misses its first pop, for as long as the request exists.
  method FailedStoreIsNeverRepaired(h: NodeRequestHandler, polls: nat, registered: set<PoolId>) returns (outcomes: seq<PollResult>)
    requires h.Valid() && !h.done && !h.paused && h.Complete() && !h.SomeFailed() && NoneAborted(h.nodeset, h.nodes)
    requires h.types != []
    modifies h, h.satisfied
    ensures h.requestState == FULFILLED && h.nodeset == []
    ensures |outcomes| == polls && forall i :: 0 <= i < polls ==> outcomes[i].Raised?
  {
    FailedStore(h, registered);
    outcomes := [];
    for i := 0 to polls
      invariant Stuck(h)
      invariant |outcomes| == i && forall k :: 0 <= k < i ==> outcomes[k].Raised?
    {
      var r := PollStuck(h, true, registered);
      outcomes := outcomes + [r];
    }
  }

  // The launchers finish, every node READY.
  method AllReady(h: NodeRequestHandler)
    requires h.Valid() && !h.done
    modifies h`nodes
    ensures h.Valid() && NoneFailed(h.nodeset, h.nodes) && NoneAborted(h.nodeset, h.nodes)
  {
    assert forall i :: 0 <= i < |h.nodeset| ==> h.nodeset[i] == h.satisfied.data[i].id && h.satisfied.data[i] in h.satisfied.data;
    for i := 0 to |h.nodeset|
      invariant h.Valid() && forall n :: n in h.nodeset ==> n in h.nodes
      invariant forall n :: n in h.nodeset[..i] ==> h.nodes[n].state.READY?
    {
      assert h.nodeset[..i + 1] == h.nodeset[..i] + [h.nodeset[i]];
      h.NodeChanges(h.nodeset[i], READY);
    }
    assert h.nodeset[..|h.nodeset|] == h.nodeset;
  }

  // Such a handler, from its beginning: one run finds room for every type, every launch
  // succeeds, and the first poll cannot store the fulfilled request.
  method GetsStuck(id: RequestId, types: seq<Label>, launcherId: PoolId, registered: set<PoolId>, env: Env, polls: nat)
      returns (h: NodeRequestHandler, outcomes: seq<PollResult>)
    requires types != [] && Smooth(env) && forall k: nat, l: nat :: k != l ==> env.newId(k) != env.newId(l)
    ensures h.requestState == FULFILLED && h.nodeset == [] && h.types == types
    ensures |outcomes| == polls && forall i :: 0 <= i < polls ==> outcomes[i].Raised?
  {
    h := new NodeRequestHandler(id, types, false, false, true, launcherId, []);
    h.Run(true, false, true, [], registered, env);
    AllReady(h);
    outcomes := FailedStoreIsNeverRepaired(h, polls, registered);
  }

  // ---------------------------------------------------------------- a handler's life

  // What happens to a handler after its first run: run again when paused, polled, or a
  // launcher finishing one of its nodes.
  datatype Turn =
    | Rerun(configured: bool, declineReasons: bool, storeOk: bool, views: seq<View>, env: Env)
    | Polling(launchesComplete: bool, requestExists: bool, storeOk: bool)
    | Launching(node: NodeId, state: NodeState)

  function IdsOf(t: Turn): set<NodeId> { if t.Rerun? then set v | v in t.views :: v.id else {} }

  // ZooKeeper never gives an id twice: not within a run, not to two runs, and not one
  // that a run before it has seen.
  ghost predicate IdsApart(turns: seq<Turn>) {
    forall i, j :: 0 <= i <= j < |turns| && turns[i].Rerun? && turns[j].Rerun? ==> Apart(turns[i], turns[j], i == j)
  }

  ghost predicate Apart(s: Turn, t: Turn, same: bool)
    requires s.Rerun? && t.Rerun?
  {
    && (forall k: nat :: t.env.newId(k) !in IdsOf(s))
    && (forall k: nat, l: nat :: !same || k != l ==> s.env.newId(k) != t.env.newId(l))
  }

  ghost predicate FromTurns(n: NodeId, turns: seq<Turn>) {
    exists i :: 0 <= i < |turns| && turns[i].Rerun? && FromRun(n, IdsOf(turns[i]), turns[i].env)
  }

  lemma NextIdIsNew(n: NodeId, turns: seq<Turn>, i: nat, k: nat)
    requires IdsApart(turns) && i < |turns| && turns[i].Rerun? && FromTurns(n, turns[..i])
    ensures turns[i].env.newId(k) != n
  {
    var j :| 0 <= j < i && turns[..i][j].Rerun? && FromRun(n, IdsOf(turns[..i][j]), turns[..i][j].env);
    assert turns[..i][j] == turns[j];
    assert Apart(turns[j], turns[i], false);
  }

  lemma NextIdsAreNew(h: NodeRequestHandler, turns: seq<Turn>, i: nat)
    requires IdsApart(turns) && i < |turns| && turns[i].Rerun?
    requires forall n :: n in h.nodeset ==> FromTurns(n, turns[..i])
    ensures h.NewIds(turns[i].env, IdsOf(turns[i]), 0)
  {
    assert Apart(turns[i], turns[i], true);
    forall n, k: nat | n in h.nodeset ensures turns[i].env.newId(k) != n {
      NextIdIsNew(n, turns, i, k);
    }
  }

  lemma FromMoreTurns(n: NodeId, turns: seq<Turn>, i: nat)
    requires i < |turns|
    ensures FromTurns(n, turns[..i]) ==> FromTurns(n, turns[..i + 1])
    ensures turns[i].Rerun? && FromRun(n, IdsOf(turns[i]), turns[i].env) ==> FromTurns(n, turns[..i + 1])
  {
    if FromTurns(n, turns[..i]) {
      var j :| 0 <= j < i && turns[..i][j].Rerun? && FromRun(n, IdsOf(turns[..i][j]), turns[..i][j].env);
      assert turns[..i + 1][j] == turns[j];
    }
    assert turns[..i + 1][i] == turns[i];
  }

  // The members of a node set all come from the turns so far.
  ghost predicate AllFromTurns(nodeset: seq<NodeId>, turns: seq<Turn>) {
    forall n :: n in nodeset ==> FromTurns(n, turns)
  }

  lemma AllFromMoreTurns(was: seq<NodeId>, now: seq<NodeId>, turns: seq<Turn>, i: nat)
    requires i < |turns| && AllFromTurns(was, turns[..i])
    requires (forall n :: n in now ==> n in was)
             || (turns[i].Rerun? && Grown(was, now, IdsOf(turns[i]), turns[i].env))
    ensures AllFromTurns(now, turns[..i + 1])
  {
    forall n | n in now ensures FromTurns(n, turns[..i + 1]) {
      FromMoreTurns(n, turns, i);
    }
  }

  // Any interleaving of runs, pauses, aborts and polls: as long as the handler lives, set
  // and recorder are in step and an unpaused, not-done handler has all its types; if it
  // ends fulfilled, the request lists one distinct READY node per type, in order.  No pop
  // ever misses: a poll raises only because storing the request does.
  method Live(h: NodeRequestHandler, turns: seq<Turn>, registered: set<PoolId>) returns (last: PollResult)
    requires h.Valid() && !h.done && !h.paused && h.nodeset == [] && h.requestNodes == [] && h.requestState.REQUESTED?
    requires turns != [] && turns[0].Rerun? && IdsApart(turns)
    modifies h, h.satisfied
    ensures last.Active? ==> h.Valid() && h.Settled() && h.requestNodes == []
    ensures !last.Active? && h.requestState.FULFILLED? ==> Serves(h.types, h.requestNodes, h.nodes, h.id)
    ensures last.Raised? ==> exists i :: 0 <= i < |turns| && turns[i].Polling? && !turns[i].storeOk
  {
    hide FromTurns;
    hide IdsApart;
    hide Grown;
    hide Serves;
    var first := turns[0];
    NextIdsAreNew(h, turns, 0);
    h.Run(first.configured, first.declineReasons, first.storeOk, first.views, registered, first.env);
    AllFromMoreTurns([], h.nodeset, turns, 0);
    last := Active;
    for i := 1 to |turns|
      invariant last.Active? && h.Valid() && h.Settled() && h.requestNodes == [] && !h.requestState.FULFILLED?
      invariant AllFromTurns(h.nodeset, turns[..i])
    {
      last := LiveOnce(h, turns, i, registered);
      if !last.Active? {
        return;
      }
    }
  }

  method LiveOnce(h: NodeRequestHandler, turns: seq<Turn>, i: nat, registered: set<PoolId>) returns (last: PollResult)
    requires h.Valid() && h.Settled() && h.requestNodes == [] && !h.requestState.FULFILLED?
    requires i < |turns| && IdsApart(turns) && AllFromTurns(h.nodeset, turns[..i])
    modifies h, h.satisfied
    ensures last.Active? ==> h.Valid() && h.Settled() && h.requestNodes == [] && !h.requestState.FULFILLED?
                             && AllFromTurns(h.nodeset, turns[..i + 1])
    ensures !last.Active? && h.requestState.FULFILLED? ==> Serves(h.types, h.requestNodes, h.nodes, h.id)
    ensures last.Raised? ==> turns[i].Polling? && !turns[i].storeOk
  {
    hide FromTurns;
    hide IdsApart;
    hide Grown;
    hide Serves;
    ghost var was := h.nodeset;
    last := Active;
    match turns[i] {
      case Rerun(configured, declineReasons, storeOk, views, env) =>
        if h.paused && !h.done {
          NextIdsAreNew(h, turns, i);
          h.Run(configured, declineReasons, storeOk, views, registered, env);
        }
      case Polling(launchesComplete, requestExists, storeOk) =>
        last := PollOnce(h, launchesComplete, requestExists, storeOk, registered);
      case Launching(node, state) =>
        if node in h.nodes {
          h.NodeChanges(node, state);
        }
    }
    if last.Active? {
      AllFromMoreTurns(was, h.nodeset, turns, i);
    }
  }

  // One poll of a live handler whose request is not fulfilled yet.
  method PollOnce(h: NodeRequestHandler, launchesComplete: bool, requestExists: bool, storeOk: bool, registered: set<PoolId>)
      returns (r: PollResult)
    requires h.Valid() && h.Settled() && h.requestNodes == [] && !h.requestState.FULFILLED?
    modifies h, h.satisfied
    ensures r.Active? ==> h.Valid() && h.Settled() && h.requestNodes == [] && !h.requestState.FULFILLED?
    ensures r.Active? ==> forall n :: n in h.nodeset ==> n in old(h.nodeset)
    ensures r.Raised? ==> !storeOk
    ensures !r.Active? && h.requestState.FULFILLED? ==> Serves(h.types, h.requestNodes, h.nodes, h.id)
  {
    ghost var nodeset, nodes := h.nodeset, h.nodes;
    assert !h.done ==> forall n :: n in nodeset ==> n in nodes && nodes[n].allocatedTo == Some(h.id) by {
      assert !h.done ==> forall i :: 0 <= i < |nodeset| ==> nodeset[i] == h.satisfied.data[i].id && h.satisfied.data[i] in h.satisfied.data;
    }
    r := h.Poll(launchesComplete, requestExists, storeOk, registered);
    if !r.Active? && h.requestState.FULFILLED? {
      ghost var ids: seq<NodeId> :| h.requestNodes == old(h.requestNodes) + ids && old(h.NodesForTypes(ids));
      assert h.requestNodes == ids;
      PoppedServe(h.types, ids, nodeset, nodes, h.nodes, h.id);
    }
  }
}
