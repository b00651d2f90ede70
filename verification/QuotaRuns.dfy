/**
 Runs of one provider's allocation loops: each pool's worker asks hasRemainingQuota and, in
 a later step, stores the node; between the two, other pools, the cloud and the cleanup
 workers do what they like.
 */
module QuotaRuns {
  import opened Wrappers
  import opened Quota
  import opened QuotaAdmission
  import opened QuotaProvider

  // ignoring: the pools with ignore_provider_quota.
  datatype Site = Site(cfg: Config, limits: map<string, Totals>, cloud: Totals, ignoring: set<string>)

  // pending: the label each pool's worker has found room for and not yet stored.
  datatype State = State(nodes: seq<NodeView>, pending: map<string, string>)

  datatype Step =
    | Check(pool: string, ntype: string)
    | Store(pool: string)
    | Resize(index: nat, resources: Row)
    | Remove(index: nat)
    | Foreign(node: NodeView)
    | Dies(pool: string)

  predicate Known(cfg: Config, pool: string, ntype: string) { pool in cfg.needs && ntype in cfg.needs[pool] }

  // Labels need finite, non-negative amounts; limits say nothing negative about what they
  // do not list.
  ghost predicate SiteOk(site: Site) {
    && ConfigOk(site.cfg) && site.limits.Keys == site.cfg.needs.Keys
    && (forall p, l, c, r :: NeedAt(site.cfg, p, l, c, r) >= 0)
  }

  function NeedAt(cfg: Config, pool: string, ntype: string, c: string, r: string): int {
    if Known(cfg, pool, ntype) && At(cfg.needs[pool][ntype], c, r).Fin? then At(cfg.needs[pool][ntype], c, r).amount else 0
  }

  // What one node adds to the used quota, and what all of them do.
  function Share(cfg: Config, scope: Option<string>, n: NodeView, c: string, r: string): int {
    var need := NeedOf(cfg, scope, n);
    if need.Some? && At(need.value, c, r).Fin? then At(need.value, c, r).amount else 0
  }

  function UsedAt(cfg: Config, scope: Option<string>, nodes: seq<NodeView>, c: string, r: string): int {
    if nodes == [] then 0
    else UsedAt(cfg, scope, nodes[..|nodes| - 1], c, r) + Share(cfg, scope, nodes[|nodes| - 1], c, r)
  }

  lemma {:induction false} UsedIsUsedAt(cfg: Config, scope: Option<string>, nodes: seq<NodeView>, c: string, r: string)
    requires ConfigOk(cfg) && NodesOk(nodes)
    ensures At(Used(cfg, scope, nodes), c, r) == Fin(UsedAt(cfg, scope, nodes, c, r))
  {
    hide Combined;
    hide At;
    hide Finite;
    hide Zero;
    if nodes == [] {
      ZeroAt(c, r);
    } else {
      var last := |nodes| - 1;
      UsedIsUsedAt(cfg, scope, nodes[..last], c, r);
      UsedStep(cfg, scope, nodes, last);
      assert nodes[..last + 1] == nodes;
      var need := NeedOf(cfg, scope, nodes[last]);
      if need.Some? {
        CombinedAt(true, Used(cfg, scope, nodes[..last]), need.value, c, r);
      }
    }
  }

  lemma {:induction false} UsedAtConcat(cfg: Config, scope: Option<string>, a: seq<NodeView>, b: seq<NodeView>, c: string, r: string)
    ensures UsedAt(cfg, scope, a + b, c, r) == UsedAt(cfg, scope, a, c, r) + UsedAt(cfg, scope, b, c, r)
    decreases |b|
  {
    if b == [] {
      assert a + b == a;
    } else {
      var last := |b| - 1;
      assert (a + b)[..|a + b| - 1] == a + b[..last];
      UsedAtConcat(cfg, scope, a, b[..last], c, r);
    }
  }

  // One node replaced by others.
  lemma UsedAtReplace(cfg: Config, scope: Option<string>, nodes: seq<NodeView>, i: nat, instead: seq<NodeView>, c: string, r: string)
    requires i < |nodes|
    ensures UsedAt(cfg, scope, nodes[..i] + instead + nodes[i + 1..], c, r)
            == UsedAt(cfg, scope, nodes, c, r) - Share(cfg, scope, nodes[i], c, r) + UsedAt(cfg, scope, instead, c, r)
  {
    var one := [nodes[i]];
    assert nodes == nodes[..i] + one + nodes[i + 1..];
    assert one[..|one| - 1] == [];
    UsedAtConcat(cfg, scope, nodes[..i], one, c, r);
    UsedAtConcat(cfg, scope, nodes[..i] + one, nodes[i + 1..], c, r);
    UsedAtConcat(cfg, scope, nodes[..i], instead, c, r);
    UsedAtConcat(cfg, scope, nodes[..i] + instead, nodes[i + 1..], c, r);
  }

  // ---------------------------------------------------------------- steps

  // The cloud reports what the label declared.
  ghost predicate Declared(cfg: Config, n: NodeView, resources: Row) {
    FiniteRow(resources) && resources != map[]
    && (n.provider == cfg.name && Known(cfg, n.pool, n.ntype) ==>
          forall c, r :: At(Totals(map["compute" := resources], Fin(0)), c, r) == Fin(NeedAt(cfg, n.pool, n.ntype, c, r)))
  }

  ghost predicate Room(site: Site, s: State, pool: string, ntype: string)
    requires ConfigOk(site.cfg) && NodesOk(s.nodes) && pool in site.limits && Known(site.cfg, pool, ntype)
  {
    && (pool in site.ignoring || WithinEverywhere(Used(site.cfg, None, s.nodes), site.cfg.needs[pool][ntype], site.cloud))
    && WithinEverywhere(Used(site.cfg, Some(pool), s.nodes), site.cfg.needs[pool][ntype], site.limits[pool])
  }

  ghost predicate Enabled(site: Site, s: State, st: Step)
    requires ConfigOk(site.cfg) && NodesOk(s.nodes)
  {
    match st
    case Check(p, l) => p !in s.pending && p in site.limits && Known(site.cfg, p, l) && Room(site, s, p, l)
    case Store(p) => p in s.pending
    case Resize(i, resources) => i < |s.nodes| && Declared(site.cfg, s.nodes[i], resources)
    case Remove(i) => i < |s.nodes|
    case Foreign(n) => n.provider != site.cfg.name && FiniteRow(n.resources)
    case Dies(p) => true
  }

  function Stored(site: Site, s: State, p: string): NodeView
    requires p in s.pending
  {
    NodeView(site.cfg.name, p, s.pending[p], map[])
  }

  ghost function Apply(site: Site, s: State, st: Step): (s': State)
    requires ConfigOk(site.cfg) && NodesOk(s.nodes) && Enabled(site, s, st)
    ensures NodesOk(s'.nodes)
  {
    match st
    case Check(p, l) => s.(pending := s.pending[p := l])
    case Store(p) => State(s.nodes + [Stored(site, s, p)], s.pending - {p})
    case Resize(i, resources) => s.(nodes := s.nodes[..i] + [s.nodes[i].(resources := resources)] + s.nodes[i + 1..])
    case Remove(i) => s.(nodes := s.nodes[..i] + [] + s.nodes[i + 1..])
    case Foreign(n) => s.(nodes := s.nodes + [n])
    case Dies(p) => s.(pending := s.pending - {p})
  }

  ghost predicate Runs(site: Site, s: State, steps: seq<Step>)
    requires ConfigOk(site.cfg) && NodesOk(s.nodes)
    decreases |steps|
  {
    steps == [] || (Enabled(site, s, steps[0]) && Runs(site, Apply(site, s, steps[0]), steps[1..]))
  }

  ghost function After(site: Site, s: State, steps: seq<Step>): (s': State)
    requires ConfigOk(site.cfg) && NodesOk(s.nodes) && Runs(site, s, steps)
    ensures NodesOk(s'.nodes)
    decreases |steps|
  {
    if steps == [] then s else After(site, Apply(site, s, steps[0]), steps[1..])
  }

  // ---------------------------------------------------------------- pool limits

  function PendingAt(site: Site, s: State, p: string, c: string, r: string): int {
    if p in s.pending then NeedAt(site.cfg, p, s.pending[p], c, r) else 0
  }

  ghost predicate PoolOk(site: Site, s: State, p: string) {
    p in site.limits ==>
      forall c, r :: Fits(UsedAt(site.cfg, Some(p), s.nodes, c, r) + PendingAt(site, s, p, c, r), At(site.limits[p], c, r))
  }

  // Nodes consume what their label declares.
  ghost predicate NodeOk(cfg: Config, n: NodeView) {
    n.resources == map[] || Declared(cfg, n, n.resources)
  }

  ghost predicate Base(site: Site, s: State) {
    && SiteOk(site) && NodesOk(s.nodes)
    && (forall i :: 0 <= i < |s.nodes| ==> NodeOk(site.cfg, s.nodes[i]))
    && (forall p :: p in s.pending ==> Known(site.cfg, p, s.pending[p]))
  }

  ghost predicate Inv(site: Site, s: State) { Base(site, s) && forall p :: PoolOk(site, s, p) }

  function Counts(cfg: Config, scope: Option<string>, n: NodeView): bool {
    n.provider == cfg.name && (scope.None? || n.pool == scope.value) && Known(cfg, n.pool, n.ntype)
  }

  lemma ShareIs(cfg: Config, scope: Option<string>, n: NodeView, c: string, r: string)
    requires ConfigOk(cfg) && NodeOk(cfg, n)
    ensures Share(cfg, scope, n, c, r) == if Counts(cfg, scope, n) then NeedAt(cfg, n.pool, n.ntype, c, r) else 0
  {
    if Counts(cfg, scope, n) && n.resources == map[] {
      FiniteAt(cfg.needs[n.pool][n.ntype], c, r);
    }
  }

  lemma UsedAfterResize(site: Site, s: State, i: nat, resources: Row, scope: Option<string>, c: string, r: string)
    requires Base(site, s) && i < |s.nodes| && Declared(site.cfg, s.nodes[i], resources)
    ensures UsedAt(site.cfg, scope, s.nodes[..i] + [s.nodes[i].(resources := resources)] + s.nodes[i + 1..], c, r)
            == UsedAt(site.cfg, scope, s.nodes, c, r)
  {
    var n := s.nodes[i].(resources := resources);
    assert NodeOk(site.cfg, s.nodes[i]) && NodeOk(site.cfg, n);
    ShareIs(site.cfg, scope, s.nodes[i], c, r);
    ShareIs(site.cfg, scope, n, c, r);
    UsedAtReplace(site.cfg, scope, s.nodes, i, [n], c, r);
    assert [n][..|[n]| - 1] == [];
  }

  lemma UsedAfterRemove(site: Site, s: State, i: nat, scope: Option<string>, c: string, r: string)
    requires Base(site, s) && i < |s.nodes|
    ensures UsedAt(site.cfg, scope, s.nodes[..i] + [] + s.nodes[i + 1..], c, r) <= UsedAt(site.cfg, scope, s.nodes, c, r)
  {
    assert NodeOk(site.cfg, s.nodes[i]);
    ShareIs(site.cfg, scope, s.nodes[i], c, r);
    UsedAtReplace(site.cfg, scope, s.nodes, i, [], c, r);
  }

  // How one step changes what is used within a scope.
  lemma UsedAfter(site: Site, s: State, st: Step, scope: Option<string>, c: string, r: string)
    requires Base(site, s) && Enabled(site, s, st)
    ensures var u, u' := UsedAt(site.cfg, scope, s.nodes, c, r), UsedAt(site.cfg, scope, Apply(site, s, st).nodes, c, r);
            if st.Store? then u' == u + if scope.None? || scope.value == st.pool then NeedAt(site.cfg, st.pool, s.pending[st.pool], c, r) else 0
            else if st.Remove? then u' <= u
            else u' == u
  {
    match st
    case Check(_, _) =>
    case Dies(_) =>
    case Store(p) =>
      var n := Stored(site, s, p);
      ShareIs(site.cfg, scope, n, c, r);
      assert (s.nodes + [n])[..|s.nodes + [n]| - 1] == s.nodes;
    case Foreign(n) =>
      assert (s.nodes + [n])[..|s.nodes + [n]| - 1] == s.nodes;
    case Resize(i, resources) =>
      UsedAfterResize(site, s, i, resources, scope, c, r);
    case Remove(i) =>
      UsedAfterRemove(site, s, i, scope, c, r);
  }

  lemma StepKeepsBase(site: Site, s: State, st: Step)
    requires Base(site, s) && Enabled(site, s, st)
    ensures Base(site, Apply(site, s, st))
  {
    var s' := Apply(site, s, st);
    forall i | 0 <= i < |s'.nodes| ensures NodeOk(site.cfg, s'.nodes[i]) {
      match st
      case Check(_, _) =>
      case Dies(_) =>
      case Store(p) =>
      case Foreign(n) =>
      case Resize(k, resources) =>
        assert i != k ==> s'.nodes[i] == s.nodes[i];
      case Remove(k) =>
        assert s'.nodes[i] == s.nodes[if i < k then i else i + 1];
    }
  }

  lemma StepKeepsPool(site: Site, s: State, st: Step, p: string)
    requires Inv(site, s) && Enabled(site, s, st)
    ensures PoolOk(site, Apply(site, s, st), p)
  {
    hide Apply;
    hide Enabled;
    var s' := Apply(site, s, st);
    if p in site.limits {
      forall c, r ensures Fits(UsedAt(site.cfg, Some(p), s'.nodes, c, r) + PendingAt(site, s', p, c, r), At(site.limits[p], c, r)) {
        assert PoolOk(site, s, p);
        assert Fits(UsedAt(site.cfg, Some(p), s.nodes, c, r) + PendingAt(site, s, p, c, r), At(site.limits[p], c, r));
        UsedAfter(site, s, st, Some(p), c, r);
        PendingAfter(site, s, st, p, c, r);
      }
    }
  }

  // What a pool's worker has pending after a step.
  lemma PendingAfter(site: Site, s: State, st: Step, p: string, c: string, r: string)
    requires Base(site, s) && Enabled(site, s, st)
    ensures var d, d' := PendingAt(site, s, p, c, r), PendingAt(site, Apply(site, s, st), p, c, r);
            if st.Check? && st.pool == p then
              && d == 0
              && (p in site.limits ==> Fits(UsedAt(site.cfg, Some(p), s.nodes, c, r) + d', At(site.limits[p], c, r)))
            else if st.Store? && st.pool == p then d' == 0 && d == NeedAt(site.cfg, p, s.pending[p], c, r)
            else d' <= d
  {
    if st.Check? && st.pool == p {
      UsedIsUsedAt(site.cfg, Some(p), s.nodes, c, r);
      FiniteAt(site.cfg.needs[p][st.ntype], c, r);
    }
  }

  lemma StepKeepsInv(site: Site, s: State, st: Step)
    requires Inv(site, s) && Enabled(site, s, st)
    ensures Inv(site, Apply(site, s, st))
  {
    hide Apply;
    hide Enabled;
    hide PoolOk;
    StepKeepsBase(site, s, st);
    forall p ensures PoolOk(site, Apply(site, s, st), p) {
      StepKeepsPool(site, s, st, p);
    }
  }

  // From usage within limits, the nodes of a pool stay within every limit of the pool.
  lemma {:induction false} PoolLimitsHold(site: Site, s: State, steps: seq<Step>, p: string)
    requires Inv(site, s) && Runs(site, s, steps) && p in site.limits
    ensures forall c, r :: Fits(UsedAt(site.cfg, Some(p), After(site, s, steps).nodes, c, r), At(site.limits[p], c, r))
    decreases |steps|
  {
    hide Apply;
    hide Enabled;
    if steps == [] {
      assert PoolOk(site, s, p);
      forall c, r ensures Fits(UsedAt(site.cfg, Some(p), s.nodes, c, r), At(site.limits[p], c, r)) {
        assert Fits(UsedAt(site.cfg, Some(p), s.nodes, c, r) + PendingAt(site, s, p, c, r), At(site.limits[p], c, r));
        assert NeedAt(site.cfg, p, if p in s.pending then s.pending[p] else "", c, r) >= 0;
      }
    } else {
      StepKeepsInv(site, s, steps[0]);
      PoolLimitsHold(site, Apply(site, s, steps[0]), steps[1..], p);
    }
  }

  // ---------------------------------------------------------------- the provider's limit

  // What all pools have pending.
  ghost function AllPendingAt(cfg: Config, pending: map<string, string>, c: string, r: string): int {
    if pending == map[] then 0
    else
      var p :| p in pending;
      NeedAt(cfg, p, pending[p], c, r) + AllPendingAt(cfg, pending - {p}, c, r)
  }

  lemma {:induction false} PendingTakeOne(cfg: Config, pending: map<string, string>, p: string, c: string, r: string)
    requires p in pending
    ensures AllPendingAt(cfg, pending, c, r) == NeedAt(cfg, p, pending[p], c, r) + AllPendingAt(cfg, pending - {p}, c, r)
    decreases |pending|
  {
    var q :| q in pending && AllPendingAt(cfg, pending, c, r) == NeedAt(cfg, q, pending[q], c, r) + AllPendingAt(cfg, pending - {q}, c, r);
    if q != p {
      PendingTakeOne(cfg, pending - {q}, p, c, r);
      PendingTakeOne(cfg, pending - {p}, q, c, r);
      assert pending - {q} - {p} == pending - {p} - {q};
    }
  }

  lemma {:induction false} PendingIsNotNegative(site: Site, pending: map<string, string>, c: string, r: string)
    requires SiteOk(site)
    ensures AllPendingAt(site.cfg, pending, c, r) >= 0
    decreases |pending|
  {
    if pending != map[] {
      var p :| p in pending;
      PendingTakeOne(site.cfg, pending, p, c, r);
      PendingIsNotNegative(site, pending - {p}, c, r);
    }
  }

  ghost predicate CloudHolds(site: Site, s: State) {
    forall c, r :: Fits(UsedAt(site.cfg, None, s.nodes, c, r), At(site.cloud, c, r))
  }

  // All that is used and all that is pending is within the cloud's quota.
  ghost predicate CloudSafe(site: Site, s: State) {
    forall c, r :: Fits(UsedAt(site.cfg, None, s.nodes, c, r) + AllPendingAt(site.cfg, s.pending, c, r), At(site.cloud, c, r))
  }

  // What hasRemainingQuota would have to ask for the cloud's quota to be kept: it leaves
  // the pending part out.
  ghost predicate CloudGuard(site: Site, s: State, p: string, l: string) {
    forall c, r :: Fits(UsedAt(site.cfg, None, s.nodes, c, r) + AllPendingAt(site.cfg, s.pending, c, r) + NeedAt(site.cfg, p, l, c, r),
                        At(site.cloud, c, r))
  }

  // One admission keeps the cloud safe exactly when the guard holds.
  lemma CheckIsSafeIff(site: Site, s: State, p: string, l: string)
    requires Base(site, s) && Enabled(site, s, Check(p, l))
    ensures CloudSafe(site, Apply(site, s, Check(p, l))) <==> CloudGuard(site, s, p, l)
  {
    var s' := Apply(site, s, Check(p, l));
    forall c, r ensures AllPendingAt(site.cfg, s'.pending, c, r) == AllPendingAt(site.cfg, s.pending, c, r) + NeedAt(site.cfg, p, l, c, r) {
      PendingTakeOne(site.cfg, s'.pending, p, c, r);
      assert s'.pending - {p} == s.pending;
    }
    assert s'.nodes == s.nodes;
    hide Enabled;
    hide Apply;
    hide AllPendingAt;
    forall c, r ensures UsedAt(site.cfg, None, s'.nodes, c, r) + AllPendingAt(site.cfg, s'.pending, c, r)
                        == UsedAt(site.cfg, None, s.nodes, c, r) + AllPendingAt(site.cfg, s.pending, c, r) + NeedAt(site.cfg, p, l, c, r) {
    }
  }

  // No other step can make it unsafe.
  lemma OtherStepsAreSafe(site: Site, s: State, st: Step)
    requires Base(site, s) && CloudSafe(site, s) && Enabled(site, s, st) && !st.Check?
    ensures CloudSafe(site, Apply(site, s, st))
  {
    var s' := Apply(site, s, st);
    forall c, r ensures Fits(UsedAt(site.cfg, None, s'.nodes, c, r) + AllPendingAt(site.cfg, s'.pending, c, r), At(site.cloud, c, r)) {
      assert Fits(UsedAt(site.cfg, None, s.nodes, c, r) + AllPendingAt(site.cfg, s.pending, c, r), At(site.cloud, c, r));
      UsedAfter(site, s, st, None, c, r);
      AllPendingAfter(site, s, st, c, r);
    }
  }

  lemma AllPendingAfter(site: Site, s: State, st: Step, c: string, r: string)
    requires Base(site, s) && Enabled(site, s, st) && !st.Check?
    ensures var d, d' := AllPendingAt(site.cfg, s.pending, c, r), AllPendingAt(site.cfg, Apply(site, s, st).pending, c, r);
            if st.Store? then d == d' + NeedAt(site.cfg, st.pool, s.pending[st.pool], c, r) else d' <= d
  {
    if st.Store? {
      PendingTakeOne(site.cfg, s.pending, st.pool, c, r);
    } else if st.Dies? {
      if st.pool in s.pending {
        PendingTakeOne(site.cfg, s.pending, st.pool, c, r);
      } else {
        assert s.pending - {st.pool} == s.pending;
      }
    }
  }

  // Every pool that has found room stores its node.
  lemma {:induction false} AllStore(site: Site, s: State) returns (steps: seq<Step>)
    requires Base(site, s)
    ensures Runs(site, s, steps) && forall st :: st in steps ==> st.Store?
    ensures forall c, r :: UsedAt(site.cfg, None, After(site, s, steps).nodes, c, r)
                           == UsedAt(site.cfg, None, s.nodes, c, r) + AllPendingAt(site.cfg, s.pending, c, r)
    decreases |s.pending|
  {
    if s.pending == map[] {
      steps := [];
    } else {
      var p :| p in s.pending;
      var s1 := Apply(site, s, Store(p));
      StepKeepsBase(site, s, Store(p));
      var rest := AllStore(site, s1);
      steps := [Store(p)] + rest;
      assert steps[1..] == rest;
      forall c, r ensures UsedAt(site.cfg, None, s1.nodes, c, r) + AllPendingAt(site.cfg, s1.pending, c, r)
                          == UsedAt(site.cfg, None, s.nodes, c, r) + AllPendingAt(site.cfg, s.pending, c, r) {
        UsedAfter(site, s, Store(p), None, c, r);
        AllPendingAfter(site, s, Store(p), c, r);
      }
    }
  }

  // No admission in these steps.
  predicate NoChecks(steps: seq<Step>) { forall i :: 0 <= i < |steps| ==> !steps[i].Check? }

  lemma {:induction false} SafeRunsHold(site: Site, s: State, steps: seq<Step>)
    requires Base(site, s) && CloudSafe(site, s) && Runs(site, s, steps) && NoChecks(steps)
    ensures CloudHolds(site, After(site, s, steps))
    decreases |steps|
  {
    hide Apply;
    hide Enabled;
    hide AllPendingAt;
    if steps == [] {
      forall c, r ensures Fits(UsedAt(site.cfg, None, s.nodes, c, r), At(site.cloud, c, r)) {
        PendingIsNotNegative(site, s.pending, c, r);
        assert Fits(UsedAt(site.cfg, None, s.nodes, c, r) + AllPendingAt(site.cfg, s.pending, c, r), At(site.cloud, c, r));
      }
    } else {
      StepKeepsBase(site, s, steps[0]);
      OtherStepsAreSafe(site, s, steps[0]);
      SafeRunsHold(site, Apply(site, s, steps[0]), steps[1..]);
    }
  }

  lemma UnsafeOverruns(site: Site, s: State) returns (steps: seq<Step>)
    requires Base(site, s) && !CloudSafe(site, s)
    ensures Runs(site, s, steps) && NoChecks(steps) && !CloudHolds(site, After(site, s, steps))
  {
    hide Runs;
    hide After;
    hide AllPendingAt;
    steps := AllStore(site, s);
    assert forall i :: 0 <= i < |steps| ==> steps[i] in steps;
    var c, r :| !Fits(UsedAt(site.cfg, None, s.nodes, c, r) + AllPendingAt(site.cfg, s.pending, c, r), At(site.cloud, c, r));
    assert !Fits(UsedAt(site.cfg, None, After(site, s, steps).nodes, c, r), At(site.cloud, c, r));
  }

  ghost predicate HoldsAfter(site: Site, s: State, steps: seq<Step>)
    requires ConfigOk(site.cfg) && NodesOk(s.nodes)
  {
    Runs(site, s, steps) && NoChecks(steps) ==> CloudHolds(site, After(site, s, steps))
  }

  // Safe is exactly the point of no return: as long as the cloud is safe, what has been
  // admitted can be stored in any order without overrunning it; once it is not, storing
  // what has been admitted overruns it.
  lemma SafeIff(site: Site, s: State)
    requires Base(site, s)
    ensures CloudSafe(site, s) <==> forall steps :: HoldsAfter(site, s, steps)
  {
    hide CloudSafe;
    hide CloudHolds;
    hide Runs;
    hide After;
    if CloudSafe(site, s) {
      forall steps ensures HoldsAfter(site, s, steps) {
        if Runs(site, s, steps) && NoChecks(steps) {
          SafeRunsHold(site, s, steps);
        }
      }
    } else {
      var steps := UnsafeOverruns(site, s);
      assert !HoldsAfter(site, s, steps);
    }
  }

  // The guard held at every admission of a run.
  ghost predicate Guarded(site: Site, s: State, steps: seq<Step>)
    requires ConfigOk(site.cfg) && NodesOk(s.nodes) && Runs(site, s, steps)
    decreases |steps|
  {
    steps == [] || ((steps[0].Check? ==> CloudGuard(site, s, steps[0].pool, steps[0].ntype))
                    && Guarded(site, Apply(site, s, steps[0]), steps[1..]))
  }

  ghost predicate SafeThroughout(site: Site, s: State, steps: seq<Step>)
    requires ConfigOk(site.cfg) && NodesOk(s.nodes) && Runs(site, s, steps)
    decreases |steps|
  {
    CloudSafe(site, s) && (steps == [] || SafeThroughout(site, Apply(site, s, steps[0]), steps[1..]))
  }

  // The condition under which the provider's quota is kept, as pool limits always are: a
  // run stays safe exactly when each admission leaves room for what is pending elsewhere.
  lemma {:induction false} SafeThroughoutIffGuarded(site: Site, s: State, steps: seq<Step>)
    requires Base(site, s) && CloudSafe(site, s) && Runs(site, s, steps)
    ensures SafeThroughout(site, s, steps) <==> Guarded(site, s, steps)
    ensures Guarded(site, s, steps) ==> CloudHolds(site, After(site, s, steps))
    decreases |steps|
  {
    hide Apply;
    hide Enabled;
    hide CloudSafe;
    hide CloudGuard;
    hide CloudHolds;
    if steps == [] {
      SafeRunsHold(site, s, []);
    } else {
      var s1 := Apply(site, s, steps[0]);
      StepKeepsBase(site, s, steps[0]);
      if steps[0].Check? {
        CheckIsSafeIff(site, s, steps[0].pool, steps[0].ntype);
      } else {
        OtherStepsAreSafe(site, s, steps[0]);
      }
      if CloudSafe(site, s1) {
        SafeThroughoutIffGuarded(site, s1, steps[1..]);
      }
    }
  }

  // Every pool asks about the cloud, and every admission is stored before the next question.
  ghost predicate Serial(site: Site, s: State, steps: seq<Step>)
    requires ConfigOk(site.cfg) && NodesOk(s.nodes) && Runs(site, s, steps)
    decreases |steps|
  {
    steps == [] || ((steps[0].Check? ==> s.pending == map[] && steps[0].pool !in site.ignoring) && Serial(site, Apply(site, s, steps[0]), steps[1..]))
  }

  // With nothing pending the code's question, if asked, is the guard.
  lemma AloneIsGuarded(site: Site, s: State, p: string, l: string)
    requires Base(site, s) && Enabled(site, s, Check(p, l)) && s.pending == map[] && p !in site.ignoring
    ensures CloudGuard(site, s, p, l)
  {
    forall c, r ensures Fits(UsedAt(site.cfg, None, s.nodes, c, r) + AllPendingAt(site.cfg, s.pending, c, r) + NeedAt(site.cfg, p, l, c, r),
                             At(site.cloud, c, r)) {
      UsedIsUsedAt(site.cfg, None, s.nodes, c, r);
      FiniteAt(site.cfg.needs[p][l], c, r);
    }
  }

  lemma {:induction false} SerialIsGuarded(site: Site, s: State, steps: seq<Step>)
    requires Base(site, s) && Runs(site, s, steps) && Serial(site, s, steps)
    ensures Guarded(site, s, steps)
    decreases |steps|
  {
    hide Apply;
    hide Enabled;
    hide CloudGuard;
    if steps != [] {
      StepKeepsBase(site, s, steps[0]);
      if steps[0].Check? {
        AloneIsGuarded(site, s, steps[0].pool, steps[0].ntype);
      }
      SerialIsGuarded(site, Apply(site, s, steps[0]), steps[1..]);
    }
  }

  lemma SerialRunsKeepTheCloudLimit(site: Site, s: State, steps: seq<Step>)
    requires Base(site, s) && CloudSafe(site, s) && Runs(site, s, steps) && Serial(site, s, steps)
    ensures CloudHolds(site, After(site, s, steps))
  {
    SerialIsGuarded(site, s, steps);
    SafeThroughoutIffGuarded(site, s, steps);
  }

  // Two pools that ask before either stores overrun the provider's quota.
  function Instances(n: int): Totals { Totals(map["compute" := map["instances" := Fin(n)]], Fin(0)) }

  function TwoPools(): Site {
    var labels := map["l" := Instances(1)];
    var unlimited := Totals(map[], Inf);
    Site(Config("p", map["a" := labels, "b" := labels]), map["a" := unlimited, "b" := unlimited],
         Totals(map["compute" := map["instances" := Fin(1)]], Inf), {})
  }

  const RACE := [Check("a", "l"), Check("b", "l"), Store("a"), Store("b")]

  lemma RaceRuns(site: Site, s0: State, s1: State, s2: State, s3: State, s4: State)
    requires ConfigOk(site.cfg) && NodesOk(s0.nodes) && NodesOk(s1.nodes) && NodesOk(s2.nodes) && NodesOk(s3.nodes)
    requires Enabled(site, s0, RACE[0]) && Apply(site, s0, RACE[0]) == s1
    requires Enabled(site, s1, RACE[1]) && Apply(site, s1, RACE[1]) == s2
    requires Enabled(site, s2, RACE[2]) && Apply(site, s2, RACE[2]) == s3
    requires Enabled(site, s3, RACE[3]) && Apply(site, s3, RACE[3]) == s4
    ensures Runs(site, s0, RACE) && After(site, s0, RACE) == s4
  {
    hide Enabled;
    hide Apply;
    assert RACE[1..][1..] == RACE[2..] && RACE[2..][1..] == RACE[3..] && RACE[3..][1..] == [];
    assert Runs(site, s4, []);
    assert Runs(site, s3, RACE[3..]) && After(site, s3, RACE[3..]) == s4;
    assert Runs(site, s2, RACE[2..]) && After(site, s2, RACE[2..]) == s4;
    assert Runs(site, s1, RACE[1..]) && After(site, s1, RACE[1..]) == s4;
  }

  lemma RoomForOne(s: State, p: string)
    requires s.nodes == [] && (p == "a" || p == "b")
    ensures Known(TwoPools().cfg, p, "l") && p in TwoPools().limits && ConfigOk(TwoPools().cfg) && Room(TwoPools(), s, p, "l")
  {
    var site := TwoPools();
    forall c, r, scope ensures At(Used(site.cfg, scope, s.nodes), c, r) == Fin(0) {
      UsedIsUsedAt(site.cfg, scope, s.nodes, c, r);
    }
  }

  lemma TwoUsed(na: NodeView, nb: NodeView)
    requires na == NodeView("p", "a", "l", map[]) && nb == NodeView("p", "b", "l", map[])
    ensures UsedAt(TwoPools().cfg, None, [na, nb], "compute", "instances") == 2
  {
    var cfg := TwoPools().cfg;
    assert [na, nb][..1] == [na] && [na][..0] == [];
    assert Share(cfg, None, na, "compute", "instances") == 1 && Share(cfg, None, nb, "compute", "instances") == 1;
    assert UsedAt(cfg, None, [na], "compute", "instances") == 1;
  }

  lemma StartsSafe(s: State)
    requires s == State([], map[])
    ensures Base(TwoPools(), s) && CloudSafe(TwoPools(), s)
  {
  }

  lemma RaceOverrunsTheCloud()
    ensures ConfigOk(TwoPools().cfg) && Runs(TwoPools(), State([], map[]), RACE)
    ensures UsedAt(TwoPools().cfg, None, After(TwoPools(), State([], map[]), RACE).nodes, "compute", "instances") == 2
    ensures !Fits(2, At(TwoPools().cloud, "compute", "instances"))
    ensures !Guarded(TwoPools(), State([], map[]), RACE)
  {
    hide Runs;
    hide After;
    var site := TwoPools();
    var s0 := State([], map[]);
    var s1 := State([], map["a" := "l"]);
    var s2 := State([], map["a" := "l", "b" := "l"]);
    var na, nb := NodeView("p", "a", "l", map[]), NodeView("p", "b", "l", map[]);
    var s3 := State([na], map["b" := "l"]);
    var s4 := State([na, nb], map[]);
    RoomForOne(s0, "a");
    RoomForOne(s1, "b");
    RaceRuns(site, s0, s1, s2, s3, s4);
    TwoUsed(na, nb);
    StartsSafe(s0);
    assert !CloudHolds(site, s4);
    SafeThroughoutIffGuarded(site, s0, RACE);
  }
}
