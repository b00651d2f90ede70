/**
 The provider side of quota (QuotaSupport in nodepool/driver/utils.py and
 StateMachineHandler.hasRemainingQuota in nodepool/driver/statemachine.py): the cached
 cloud quota, the used quota summed over the node cache, and the admission question.
 */
module QuotaProvider {
  import opened Wrappers
  import opened Quota
  import opened QuotaAdmission

  const MAX_QUOTA_AGE := 5 * 60

  // A cached node record; resources is empty until the cloud's answer is stored.
  datatype NodeView = NodeView(provider: string, pool: string, ntype: string, resources: Row)

  // needs: pool -> label -> quotaNeededByLabel.
  datatype Config = Config(name: string, needs: map<string, map<string, Totals>>)

  predicate ConfigOk(cfg: Config) {
    forall p, l :: p in cfg.needs && l in cfg.needs[p] ==> Usage(cfg.needs[p][l])
  }

  // What a node counts for; None when estimatedNodepoolQuotaUsed skips it.
  function NeedOf(cfg: Config, pool: Option<string>, n: NodeView): Option<Totals> {
    if n.provider != cfg.name || (pool.Some? && n.pool != pool.value) then None
    else if n.pool !in cfg.needs || n.ntype !in cfg.needs[n.pool] then None
    else if n.resources != map[] then Some(Totals(map["compute" := n.resources], Fin(0)))
    else Some(cfg.needs[n.pool][n.ntype])
  }

  function Needs(cfg: Config, pool: Option<string>, nodes: seq<NodeView>): seq<Totals> {
    if nodes == [] then []
    else
      var need := NeedOf(cfg, pool, nodes[|nodes| - 1]);
      Needs(cfg, pool, nodes[..|nodes| - 1]) + if need.Some? then [need.value] else []
  }

  predicate NodesOk(nodes: seq<NodeView>) { forall i :: 0 <= i < |nodes| ==> FiniteRow(nodes[i].resources) }

  lemma NeedOfIsUsage(cfg: Config, pool: Option<string>, n: NodeView)
    requires ConfigOk(cfg) && FiniteRow(n.resources)
    ensures NeedOf(cfg, pool, n).Some? ==> Usage(NeedOf(cfg, pool, n).value)
  {
  }

  lemma {:induction false} NeedsAreUsages(cfg: Config, pool: Option<string>, nodes: seq<NodeView>)
    requires ConfigOk(cfg) && NodesOk(nodes)
    ensures Usages(Needs(cfg, pool, nodes))
  {
    if nodes != [] {
      NeedsAreUsages(cfg, pool, nodes[..|nodes| - 1]);
      NeedOfIsUsage(cfg, pool, nodes[|nodes| - 1]);
    }
  }

  function Used(cfg: Config, pool: Option<string>, nodes: seq<NodeView>): (t: Totals)
    requires ConfigOk(cfg) && NodesOk(nodes)
    ensures Usage(t)
  {
    NeedsAreUsages(cfg, pool, nodes);
    FoldAt(Needs(cfg, pool, nodes), "compute", "ram");
    Fold(Needs(cfg, pool, nodes))
  }

  lemma UsedStep(cfg: Config, pool: Option<string>, nodes: seq<NodeView>, i: nat)
    requires ConfigOk(cfg) && NodesOk(nodes) && i < |nodes|
    ensures NodesOk(nodes[..i]) && NodesOk(nodes[..i + 1])
    ensures var need := NeedOf(cfg, pool, nodes[i]);
            && (need.Some? ==> Usage(need.value))
            && Used(cfg, pool, nodes[..i + 1])
               == if need.Some? then Combined(true, Used(cfg, pool, nodes[..i]), need.value) else Used(cfg, pool, nodes[..i])
  {
    hide Combined;
    hide Usage;
    var before, after, need := nodes[..i], nodes[..i + 1], NeedOf(cfg, pool, nodes[i]);
    assert FiniteRow(nodes[i].resources);
    NeedOfIsUsage(cfg, pool, nodes[i]);
    assert after[..|after| - 1] == before && after[|after| - 1] == nodes[i];
    var needs := Needs(cfg, pool, before);
    assert Needs(cfg, pool, after) == needs + if need.Some? then [need.value] else [];
    NeedsAreUsages(cfg, pool, after);
    if need.Some? {
      assert (needs + [need.value])[..|needs|] == needs;
    } else {
      assert needs + [] == needs;
    }
  }

  method MakeQuota(t: Totals) returns (q: QuotaInformation)
    ensures q.Valid() && fresh(q.Repr()) && q.Contents() == t
  {
    q := new QuotaInformation.Bare(t.default);
    var done := {};
    while done != t.quota.Keys
      invariant done <= t.quota.Keys
      invariant q.Valid() && fresh(q.Repr()) && q.default == t.default
      invariant q.quota.Keys == done
      invariant forall c :: c in q.quota ==> q.quota[c].amounts == t.quota[c]
      decreases t.quota.Keys - done
    {
      var c :| c in t.quota && c !in done;
      var row := new Category(t.quota[c]);
      q.quota := q.quota[c := row];
      done := done + {c};
    }
  }

  // The cache of a provider: which object it holds, since when, with which totals.
  datatype CacheState = CacheState(held: QuotaInformation?, at: int, totals: Option<Totals>)

  class QuotaSupport {
    const cfg: Config
    var cached: QuotaInformation?
    var timestamp: int

    ghost function Repr(): set<object>
      reads this, cached
    {
      {this} + if cached == null then {} else cached.Repr()
    }

    ghost predicate Valid()
      reads this, cached
    {
      ConfigOk(cfg) && (cached != null ==> cached.Valid() && this !in cached.Repr())
    }

    ghost function Cached(): Option<Totals>
      reads Repr()
    {
      if cached == null then None else Some(cached.Contents())
    }

    ghost function Cache(): CacheState
      reads Repr()
    {
      CacheState(cached, timestamp, Cached())
    }

    // What estimatedNodepoolQuota makes of the cache: nothing while it is young or when the
    // cloud does not answer, and what the cloud answers, less the unmanaged use, otherwise.
    ghost function NextCache(now: int, limits: QuotaInformation?, unmanaged: QuotaInformation): CacheState
      requires Usage(unmanaged.Contents())
      reads Repr(), unmanaged.Repr(), limits, if limits == null then {} else limits.Repr()
    {
      if limits == null || (cached != null && now < timestamp + MAX_QUOTA_AGE) then Cache()
      else CacheState(limits, now, Some(Combined(false, limits.Contents(), unmanaged.Contents())))
    }

    lemma NextCacheLimits(now: int, limits: QuotaInformation?, unmanaged: QuotaInformation)
      requires Usage(unmanaged.Contents())
      requires limits != null ==> Limits(limits.Contents())
      requires cached != null ==> Limits(cached.Contents())
      ensures var c := NextCache(now, limits, unmanaged); c.totals.Some? ==> Limits(c.totals.value)
    {
      if limits != null {
        CombinedKeys(false, limits.Contents(), unmanaged.Contents());
      }
    }

    constructor (cfg: Config)
      requires ConfigOk(cfg)
      ensures Valid() && this.cfg == cfg && Cached() == None
    {
      this.cfg := cfg;
      cached := null;
      timestamp := 0;
    }

    // limits is what getProviderLimits returns, null where it raises; the result is null
    // where the method raises.
    method EstimatedNodepoolQuota(now: int, limits: QuotaInformation?, unmanaged: QuotaInformation)
      returns (q: QuotaInformation?)
      requires Valid() && unmanaged.Valid() && Usage(unmanaged.Contents())
      requires limits != null ==> limits.Valid() && limits.Repr() !! Repr() && limits.Repr() !! unmanaged.Repr()
      modifies this`cached, this`timestamp, if limits == null then {} else limits.Repr()
      ensures Valid() && (q == null <==> Cached().None?)
      ensures q != null ==> q.Valid() && fresh(q.Repr()) && q.Repr() !! Repr() && Some(q.Contents()) == Cached()
      ensures Cache() == old(NextCache(now, limits, unmanaged))
      ensures fresh(Repr() - old(Repr()) - if limits == null then {} else old(limits.Repr()))
    {
      hide Combined;
      hide Finite;
      if cached != null {
        if now < timestamp + MAX_QUOTA_AGE {
          q := cached.DeepCopy();
          return;
        }
      }
      if limits == null {
        if cached != null {
          q := cached.DeepCopy();
          return;
        }
        return null;
      }
      limits.Subtract(unmanaged);
      cached := limits;
      timestamp := now;
      q := cached.DeepCopy();
    }

    method ResourcesOf(node: NodeView) returns (need: QuotaInformation)
      requires node.pool in cfg.needs && node.ntype in cfg.needs[node.pool]
      ensures need.Valid() && fresh(need.Repr())
      ensures need.Contents() == if node.resources != map[] then Totals(map["compute" := node.resources], Fin(0))
                                 else cfg.needs[node.pool][node.ntype]
    {
      if node.resources != map[] {
        need := MakeQuota(Totals(map["compute" := node.resources], Fin(0)));
      } else {
        need := MakeQuota(cfg.needs[node.pool][node.ntype]);
      }
    }

    // The loop's body.
    method CountNode(q: QuotaInformation, node: NodeView, pool: Option<string>)
      requires q.Valid() && (NeedOf(cfg, pool, node).Some? ==> Usage(NeedOf(cfg, pool, node).value))
      modifies q.Repr()
      ensures q.Valid() && fresh(q.Repr() - old(q.Repr()))
      ensures var need := NeedOf(cfg, pool, node);
              q.Contents() == if need.Some? then Combined(true, old(q.Contents()), need.value) else old(q.Contents())
    {
      hide Combined;
      hide Finite;
      if node.provider == cfg.name {
        if pool.Some? && node.pool != pool.value {
          return;
        }
        if node.pool !in cfg.needs {
          return;
        }
        if node.ntype !in cfg.needs[node.pool] {
          return;
        }
        var need := ResourcesOf(node);
        q.Add(need);
      }
    }

    method EstimatedNodepoolQuotaUsed(nodes: seq<NodeView>, pool: Option<string>) returns (q: QuotaInformation)
      requires ConfigOk(cfg) && NodesOk(nodes)
      ensures q.Valid() && fresh(q.Repr()) && q.Contents() == Used(cfg, pool, nodes)
    {
      hide Used;
      hide Combined;
      hide Finite;
      hide NodesOk;
      hide ConfigOk;
      q := new QuotaInformation(None, None, None, Fin(0), map[]);
      assert Zero().quota["compute"] + map[] == Zero().quota["compute"];
      assert q.Contents().quota == Zero().quota;
      NoneUsed(pool, nodes);
      var i := 0;
      while i < |nodes|
        invariant 0 <= i <= |nodes|
        invariant q.Valid() && fresh(q.Repr())
        invariant NodesOk(nodes[..i]) && q.Contents() == Used(cfg, pool, nodes[..i])
      {
        UsedStep(cfg, pool, nodes, i);
        CountNode(q, nodes[i], pool);
        i := i + 1;
      }
      assert nodes[..i] == nodes;
    }

    lemma NoneUsed(pool: Option<string>, nodes: seq<NodeView>)
      requires ConfigOk(cfg) && NodesOk(nodes)
      ensures NodesOk(nodes[..0]) && Used(cfg, pool, nodes[..0]) == Zero()
    {
    }

    // The first half of hasRemainingQuota; raised where estimatedNodepoolQuota raises.
    method FitsProvider(now: int, limits: QuotaInformation?, unmanaged: QuotaInformation, nodes: seq<NodeView>,
                        pool: string, ntype: string) returns (ok: bool, raised: bool)
      requires Valid() && unmanaged.Valid() && Usage(unmanaged.Contents()) && NodesOk(nodes)
      requires limits != null ==> limits.Valid() && limits.Repr() !! Repr() && limits.Repr() !! unmanaged.Repr()
                                  && Limits(limits.Contents())
      requires cached != null ==> Limits(cached.Contents())
      requires pool in cfg.needs && ntype in cfg.needs[pool]
      modifies this`cached, this`timestamp, if limits == null then {} else limits.Repr()
      ensures Valid() && (raised <==> Cached().None?)
      ensures cached != null ==> Limits(cached.Contents())
      ensures Cache() == old(NextCache(now, limits, unmanaged))
      ensures !raised ==> (ok <==> WithinEverywhere(Used(cfg, None, nodes), cfg.needs[pool][ntype], Cached().value))
    {
      hide Combined;
      hide Finite;
      hide Used;
      hide WithinEverywhere;
      hide Limits;
      hide NextCache;
      NextCacheLimits(now, limits, unmanaged);
      var cloud := EstimatedNodepoolQuota(now, limits, unmanaged);
      if cloud == null {
        return false, true;
      }
      ok := Fits(cloud, nodes, None, pool, ntype);
      raised := false;
    }

    // hasRemainingQuota.  Whatever it answers, it subtracts from a copy: the cached totals
    // stay what estimatedNodepoolQuota made them.
    method HasRemainingQuota(now: int, limits: QuotaInformation?, unmanaged: QuotaInformation, nodes: seq<NodeView>,
                             pool: string, ntype: string, ignoreProvider: bool,
                             cores: Option<Amount>, instances: Amount, ram: Option<Amount>, extra: Row)
      returns (ok: bool, raised: bool)
      requires Valid() && unmanaged.Valid() && Usage(unmanaged.Contents()) && NodesOk(nodes)
      requires limits != null ==> limits.Valid() && limits.Repr() !! Repr() && limits.Repr() !! unmanaged.Repr()
                                  && Limits(limits.Contents())
      requires cached != null ==> Limits(cached.Contents())
      requires pool in cfg.needs && ntype in cfg.needs[pool]
      modifies this`cached, this`timestamp, if limits == null then {} else limits.Repr()
      ensures Valid()
      ensures raised <==> !ignoreProvider && Cached().None?
      ensures cached != null ==> Limits(cached.Contents())
      ensures Cache() == if ignoreProvider then old(Cache()) else old(NextCache(now, limits, unmanaged))
      ensures !raised ==>
                (ok <==> && (ignoreProvider || WithinEverywhere(Used(cfg, None, nodes), cfg.needs[pool][ntype], Cached().value))
                         && PoolHasRoom(Used(cfg, Some(pool), nodes), cfg.needs[pool][ntype], cores, instances, ram, extra))
    {
      hide Used;
      hide WithinEverywhere;
      hide PoolHasRoom;
      hide Combined;
      hide Finite;
      hide Limits;
      hide NextCache;
      if !ignoreProvider {
        ok, raised := FitsProvider(now, limits, unmanaged, nodes, pool, ntype);
        if raised || !ok {
          return;
        }
      }
      raised := false;
      ok := FitsPool(nodes, pool, ntype, cores, instances, ram, extra);
    }

    // quota - used - needed, taken in place.
    static method Leaves(quota: QuotaInformation, used: QuotaInformation, needed: QuotaInformation) returns (ok: bool)
      requires quota.Valid() && used.Valid() && needed.Valid()
      requires quota.Repr() !! used.Repr() && quota.Repr() !! needed.Repr()
      requires Limits(quota.Contents()) && Usage(used.Contents()) && Usage(needed.Contents())
      modifies quota.Repr()
      ensures ok <==> WithinEverywhere(used.Contents(), needed.Contents(), old(quota.Contents()))
    {
      hide Combined;
      hide Finite;
      hide WithinEverywhere;
      hide NonNegative;
      ghost var limit, u, n := quota.Contents(), used.Contents(), needed.Contents();
      quota.Subtract(used);
      quota.Subtract(needed);
      ok := quota.IsNonNegative();
      GuardIff(limit, u, n);
    }

    // scope selects the nodes that count.
    method Fits(quota: QuotaInformation, nodes: seq<NodeView>, scope: Option<string>, pool: string, ntype: string)
      returns (ok: bool)
      requires ConfigOk(cfg) && NodesOk(nodes) && pool in cfg.needs && ntype in cfg.needs[pool]
      requires quota.Valid() && Limits(quota.Contents())
      modifies quota.Repr()
      ensures ok <==> WithinEverywhere(Used(cfg, scope, nodes), cfg.needs[pool][ntype], old(quota.Contents()))
    {
      hide WithinEverywhere;
      hide Used;
      var used := EstimatedNodepoolQuotaUsed(nodes, scope);
      var needed := MakeQuota(cfg.needs[pool][ntype]);
      ok := Leaves(quota, used, needed);
    }

    // The second half: the pool's own limits.
    method FitsPool(nodes: seq<NodeView>, pool: string, ntype: string,
                    cores: Option<Amount>, instances: Amount, ram: Option<Amount>, extra: Row) returns (ok: bool)
      requires ConfigOk(cfg) && NodesOk(nodes) && pool in cfg.needs && ntype in cfg.needs[pool]
      ensures ok <==> PoolHasRoom(Used(cfg, Some(pool), nodes), cfg.needs[pool][ntype], cores, instances, ram, extra)
    {
      hide Used;
      hide WithinEverywhere;
      var quota := new QuotaInformation(cores, Some(instances), ram, Inf, extra);
      assert quota.Contents() == PoolLimit(cores, instances, ram, extra);
      PoolLimitIs(Used(cfg, Some(pool), nodes), cfg.needs[pool][ntype], cores, instances, ram, extra);
      ok := Fits(quota, nodes, Some(pool), pool, ntype);
    }
  }

  // The first question to a fresh cache: the cloud's answer less what others use of it.
  method FirstQuestion(cfg: Config, now: int, a: QuotaInformation, unmanaged: QuotaInformation) returns (support: QuotaSupport)
    requires ConfigOk(cfg) && a.Valid() && unmanaged.Valid() && Usage(unmanaged.Contents()) && a.Repr() !! unmanaged.Repr()
    modifies a.Repr()
    ensures support.Valid() && fresh(support) && fresh(support.Repr() - old(a.Repr()))
    ensures support.Cached() == Some(Combined(false, old(a.Contents()), unmanaged.Contents())) && support.timestamp == now
  {
    hide Combined;
    support := new QuotaSupport(cfg);
    var _ := support.EstimatedNodepoolQuota(now, a, unmanaged);
  }

  // A later one, which the cloud would answer: it gets the first answer while that is
  // younger than five minutes, and the new one from then on.
  method LaterQuestion(support: QuotaSupport, now: int, b: QuotaInformation, unmanaged: QuotaInformation) returns (q: QuotaInformation?)
    requires support.Valid() && support.cached != null && b.Valid() && unmanaged.Valid() && Usage(unmanaged.Contents())
    requires b.Repr() !! support.Repr() && b.Repr() !! unmanaged.Repr()
    modifies support, b.Repr()
    ensures q != null
    ensures Some(q.Contents()) == if now < old(support.timestamp) + 300 then old(support.Cached())
                                  else Some(Combined(false, old(b.Contents()), unmanaged.Contents()))
  {
    hide Combined;
    q := support.EstimatedNodepoolQuota(now, b, unmanaged);
  }

  method TwoQuestions(cfg: Config, first: int, second: int, a: QuotaInformation, b: QuotaInformation, unmanaged: QuotaInformation)
      returns (q: QuotaInformation?)
    requires ConfigOk(cfg) && a.Valid() && b.Valid() && unmanaged.Valid() && Usage(unmanaged.Contents())
    requires a.Repr() !! b.Repr() && a.Repr() !! unmanaged.Repr() && b.Repr() !! unmanaged.Repr()
    modifies a.Repr(), b.Repr()
    ensures q != null
    ensures q.Contents() == Combined(false, if second < first + 300 then old(a.Contents()) else old(b.Contents()), unmanaged.Contents())
  {
    hide Combined;
    hide Usage;
    var support := FirstQuestion(cfg, first, a, unmanaged);
    q := LaterQuestion(support, second, b, unmanaged);
  }

  // One the cloud does not answer: the last answer serves on, however old, and is as old as
  // it was.
  method UnansweredQuestion(support: QuotaSupport, now: int, unmanaged: QuotaInformation) returns (q: QuotaInformation?)
    requires support.Valid() && unmanaged.Valid() && Usage(unmanaged.Contents())
    modifies support
    ensures q == null <==> old(support.Cached()).None?
    ensures q != null ==> Some(q.Contents()) == old(support.Cached())
    ensures support.Valid() && support.Cached() == old(support.Cached()) && support.timestamp == old(support.timestamp)
  {
    hide Combined;
    q := support.EstimatedNodepoolQuota(now, null, unmanaged);
  }

  // A pool's limits: what its configuration does not set is unlimited.
  function PoolLimit(cores: Option<Amount>, instances: Amount, ram: Option<Amount>, extra: Row): Totals {
    Totals(map["compute" := map["cores" := if cores.Some? then cores.value else Inf,
                                "instances" := instances,
                                "ram" := if ram.Some? then ram.value else Inf] + extra], Inf)
  }

  predicate RoomFor(used: Totals, needed: Totals, c: string, r: string, limit: Amount) {
    At(used, c, r).Fin? && At(needed, c, r).Fin? ==> Fits(At(used, c, r).amount + At(needed, c, r).amount, limit)
  }

  // A pool's limits, resource by resource: each configured maximum bounds its own resource,
  // one that is not set bounds nothing, and max-resources has the last word.
  ghost predicate PoolHasRoom(used: Totals, needed: Totals, cores: Option<Amount>, instances: Amount, ram: Option<Amount>, extra: Row) {
    && ("cores" !in extra && cores.Some? ==> RoomFor(used, needed, "compute", "cores", cores.value))
    && ("instances" !in extra ==> RoomFor(used, needed, "compute", "instances", instances))
    && ("ram" !in extra && ram.Some? ==> RoomFor(used, needed, "compute", "ram", ram.value))
    && (forall r :: r in extra ==> RoomFor(used, needed, "compute", r, extra[r]))
  }

  // What PoolLimit says of each resource.
  lemma PoolLimitAt(cores: Option<Amount>, instances: Amount, ram: Option<Amount>, extra: Row, c: string, r: string)
    ensures At(PoolLimit(cores, instances, ram, extra), c, r)
            == if c != "compute" then Inf
               else if r in extra then extra[r]
               else if r == "cores" && cores.Some? then cores.value
               else if r == "instances" then instances
               else if r == "ram" && ram.Some? then ram.value
               else Inf
  {
  }

  lemma WithinPool(used: Totals, needed: Totals, cores: Option<Amount>, instances: Amount, ram: Option<Amount>, extra: Row)
    requires Usage(used) && Usage(needed) && PoolHasRoom(used, needed, cores, instances, ram, extra)
    ensures WithinEverywhere(used, needed, PoolLimit(cores, instances, ram, extra))
  {
    hide PoolLimit;
    hide At;
    forall c, r | At(used, c, r).Fin? && At(needed, c, r).Fin?
      ensures Fits(At(used, c, r).amount + At(needed, c, r).amount, At(PoolLimit(cores, instances, ram, extra), c, r))
    {
      PoolLimitAt(cores, instances, ram, extra, c, r);
      assert c == "compute" && r in extra ==> RoomFor(used, needed, "compute", r, extra[r]);
    }
  }

  lemma PoolWithin(used: Totals, needed: Totals, cores: Option<Amount>, instances: Amount, ram: Option<Amount>, extra: Row)
    requires Usage(used) && Usage(needed) && WithinEverywhere(used, needed, PoolLimit(cores, instances, ram, extra))
    ensures PoolHasRoom(used, needed, cores, instances, ram, extra)
  {
    hide PoolLimit;
    hide At;
    var limit := PoolLimit(cores, instances, ram, extra);
    forall r ensures RoomFor(used, needed, "compute", r, At(limit, "compute", r)) {
    }
    PoolLimitAt(cores, instances, ram, extra, "compute", "cores");
    PoolLimitAt(cores, instances, ram, extra, "compute", "instances");
    PoolLimitAt(cores, instances, ram, extra, "compute", "ram");
    forall r | r in extra ensures RoomFor(used, needed, "compute", r, extra[r]) {
      PoolLimitAt(cores, instances, ram, extra, "compute", r);
      assert RoomFor(used, needed, "compute", r, At(limit, "compute", r));
    }
    assert RoomFor(used, needed, "compute", "cores", At(limit, "compute", "cores"));
    assert RoomFor(used, needed, "compute", "instances", At(limit, "compute", "instances"));
    assert RoomFor(used, needed, "compute", "ram", At(limit, "compute", "ram"));
  }

  // The totals of the limits answer the configured maxima, and nothing else.
  lemma PoolLimitIs(used: Totals, needed: Totals, cores: Option<Amount>, instances: Amount, ram: Option<Amount>, extra: Row)
    requires Usage(used) && Usage(needed)
    ensures WithinEverywhere(used, needed, PoolLimit(cores, instances, ram, extra))
            <==> PoolHasRoom(used, needed, cores, instances, ram, extra)
  {
    hide PoolLimit;
    hide WithinEverywhere;
    hide PoolHasRoom;
    if WithinEverywhere(used, needed, PoolLimit(cores, instances, ram, extra)) {
      PoolWithin(used, needed, cores, instances, ram, extra);
    }
    if PoolHasRoom(used, needed, cores, instances, ram, extra) {
      WithinPool(used, needed, cores, instances, ram, extra);
    }
  }

  // Which nodes count, and for how much: those of the provider (and of the pool, if one is
  // given) whose pool and label are configured; for what the cloud reported of a node where
  // it has, and otherwise for what the label declares.
  lemma NodeCountsFor(cfg: Config, pool: Option<string>, n: NodeView, r: string)
    requires ConfigOk(cfg) && FiniteRow(n.resources)
    ensures var need := NeedOf(cfg, pool, n);
            && (need.Some? <==> n.provider == cfg.name && (pool.None? || n.pool == pool.value)
                                && n.pool in cfg.needs && n.ntype in cfg.needs[n.pool])
            && (need.Some? ==>
                  At(need.value, "compute", r) == if n.resources == map[] then At(cfg.needs[n.pool][n.ntype], "compute", r)
                                                  else if r in n.resources then n.resources[r] else Fin(0))
  {
  }
}
