/**
 Quota as an admission guard: hasRemainingQuota (nodepool/driver/statemachine.py) over the
 totals of QuotaSupport (nodepool/driver/utils.py), first as lemmas about totals, then as
 methods, then over runs of a provider whose pools check and store concurrently.
 */
module QuotaAdmission {
  import opened Wrappers
  import opened Quota

  // ---------------------------------------------------------------- totals as functions

  // What nodes use and labels need: finite, and nothing where not listed.
  predicate Usage(t: Totals) { Finite(t) && t.default == Fin(0) }

  function Zero(): Totals { Totals(map["compute" := map["cores" := Fin(0), "instances" := Fin(0), "ram" := Fin(0)]], Fin(0)) }

  lemma CombinedAt(add: bool, t: Totals, u: Totals, c: string, r: string)
    requires Usage(u)
    ensures At(u, c, r).Fin? && At(Combined(add, t, u), c, r) == Op(add, At(t, c, r), At(u, c, r))
  {
    FiniteAt(u, c, r);
    var x := Combined(add, t, u);
    if c in x.quota {
      assert x.quota[c] == AppliedRow(add, FilledRow(t, u, c), u, c);
      if r in x.quota[c] {
        assert r in RowOf(t.quota, c) || r in RowOf(u.quota, c);
      }
    }
  }

  lemma CombinedLists(add: bool, t: Totals, u: Totals, c: string)
    requires Usage(u)
    ensures RowOf(Combined(add, t, u).quota, c).Keys == RowOf(t.quota, c).Keys + RowOf(u.quota, c).Keys
  {
  }

  lemma CombinedFinite(add: bool, t: Totals, u: Totals)
    requires Usage(t) && Usage(u)
    ensures Usage(Combined(add, t, u))
  {
    var x := Combined(add, t, u);
    forall c | c in x.quota ensures FiniteRow(x.quota[c]) {
      forall r | r in x.quota[c] ensures x.quota[c][r].Fin? {
        CombinedAt(add, t, u, c, r);
        FiniteAt(t, c, r);
        assert At(x, c, r) == x.quota[c][r];
      }
    }
  }

  // Totals are what they list and what they answer.
  lemma Extensional(t: Totals, u: Totals)
    requires t.default == u.default && t.quota.Keys == u.quota.Keys
    requires forall c :: RowOf(t.quota, c).Keys == RowOf(u.quota, c).Keys
    requires forall c, r :: At(t, c, r) == At(u, c, r)
    ensures t == u
  {
    forall c | c in t.quota ensures t.quota[c] == u.quota[c] {
      assert RowOf(t.quota, c).Keys == RowOf(u.quota, c).Keys;
      forall r | r in t.quota[c] ensures t.quota[c][r] == u.quota[c][r] {
        assert At(t, c, r) == At(u, c, r);
      }
    }
    assert t.quota == u.quota;
  }

  lemma AddsCommute(t: Totals, u: Totals, v: Totals)
    requires Usage(u) && Usage(v)
    ensures Combined(true, Combined(true, t, u), v) == Combined(true, Combined(true, t, v), u)
  {
    hide Combined;
    hide At;
    hide RowOf;
    var tu, tv := Combined(true, t, u), Combined(true, t, v);
    var x, y := Combined(true, tu, v), Combined(true, tv, u);
    forall c ensures RowOf(x.quota, c).Keys == RowOf(y.quota, c).Keys {
      CombinedLists(true, t, u, c);
      CombinedLists(true, t, v, c);
      CombinedLists(true, tu, v, c);
      CombinedLists(true, tv, u, c);
    }
    forall c, r ensures At(x, c, r) == At(y, c, r) {
      CombinedAt(true, t, u, c, r);
      CombinedAt(true, t, v, c, r);
      CombinedAt(true, tu, v, c, r);
      CombinedAt(true, tv, u, c, r);
    }
    CombinedKeys(true, t, u);
    CombinedKeys(true, t, v);
    CombinedKeys(true, tu, v);
    CombinedKeys(true, tv, u);
    Extensional(x, y);
  }

  lemma CombinedKeys(add: bool, t: Totals, u: Totals)
    requires Usage(u)
    ensures Combined(add, t, u).quota.Keys == t.quota.Keys + u.quota.Keys && Combined(add, t, u).default == t.default
  {
  }

  // ---------------------------------------------------------------- folds over nodes

  predicate Usages(needs: seq<Totals>) { forall i :: 0 <= i < |needs| ==> Usage(needs[i]) }

  function Fold(needs: seq<Totals>): (t: Totals)
    requires Usages(needs)
  {
    if needs == [] then Zero() else Combined(true, Fold(needs[..|needs| - 1]), needs[|needs| - 1])
  }

  function Sum(needs: seq<Totals>, c: string, r: string): int
    requires Usages(needs)
  {
    if needs == [] then 0
    else FiniteAt(needs[|needs| - 1], c, r); Sum(needs[..|needs| - 1], c, r) + At(needs[|needs| - 1], c, r).amount
  }

  lemma ZeroAt(c: string, r: string)
    ensures Usage(Zero()) && At(Zero(), c, r) == Fin(0)
  {
  }

  lemma {:induction false} FoldAt(needs: seq<Totals>, c: string, r: string)
    requires Usages(needs)
    ensures Usage(Fold(needs)) && At(Fold(needs), c, r) == Fin(Sum(needs, c, r))
  {
    hide Combined;
    hide Finite;
    hide At;
    hide Zero;
    if needs == [] {
      ZeroAt(c, r);
    } else {
      var last := |needs| - 1;
      FoldAt(needs[..last], c, r);
      CombinedAt(true, Fold(needs[..last]), needs[last], c, r);
      CombinedFinite(true, Fold(needs[..last]), needs[last]);
    }
  }

  // Moving a node to the end of the iteration changes nothing.
  lemma {:induction false} FoldMove(needs: seq<Totals>, i: nat)
    requires Usages(needs) && i < |needs|
    ensures Usages(needs[..i] + needs[i + 1..]) && Fold(needs) == Combined(true, Fold(needs[..i] + needs[i + 1..]), needs[i])
    decreases |needs|
  {
    hide Combined;
    var last := |needs| - 1;
    var rest := needs[..i] + needs[i + 1..];
    if i == last {
      assert rest == needs[..last];
    } else {
      var shorter := needs[..last];
      FoldMove(shorter, i);
      var without := shorter[..i] + shorter[i + 1..];
      assert rest[..|rest| - 1] == without && rest[|rest| - 1] == needs[last];
      AddsCommute(Fold(without), needs[i], needs[last]);
    }
  }

  lemma WithoutOne<T>(q: seq<T>, i: nat)
    requires i < |q|
    ensures multiset(q[..i] + q[i + 1..]) == multiset(q) - multiset{q[i]}
  {
    assert q == q[..i] + [q[i]] + q[i + 1..];
  }

  lemma IndexOf<T>(q: seq<T>, p: seq<T>, k: nat) returns (i: nat)
    requires k < |p| && multiset(p) == multiset(q)
    ensures i < |q| && q[i] == p[k]
  {
    assert p[k] in multiset(q);
    i :| 0 <= i < |q| && q[i] == p[k];
  }

  // The used quota does not depend on the order in which nodes are listed.
  lemma {:induction false} FoldIgnoresOrder(a: seq<Totals>, b: seq<Totals>)
    requires Usages(a) && Usages(b) && multiset(a) == multiset(b)
    ensures Fold(a) == Fold(b)
    decreases |a|
  {
    hide Usage;
    hide Combined;
    if a == [] {
      assert |multiset(b)| == 0;
    } else {
      var last := |a| - 1;
      var i := IndexOf(b, a, last);
      FoldMove(b, i);
      WithoutOne(a, last);
      WithoutOne(b, i);
      assert a[..last] + a[last + 1..] == a[..last];
      FoldIgnoresOrder(a[..last], b[..i] + b[i + 1..]);
    }
  }

  // ---------------------------------------------------------------- the guard

  predicate Fits(used: int, limit: Amount) { limit.Inf? || used <= limit.amount }

  predicate Limits(t: Totals) { t.default.Inf? || t.default.amount >= 0 }

  ghost predicate WithinEverywhere(used: Totals, needed: Totals, limit: Totals)
    requires Usage(used) && Usage(needed)
  {
    forall c, r :: At(used, c, r).Fin? && At(needed, c, r).Fin? ==>
      Fits(At(used, c, r).amount + At(needed, c, r).amount, At(limit, c, r))
  }

  // Limit minus used minus needed is non-negative exactly when used plus needed is within
  // the limit everywhere, listed or not.
  lemma GuardIff(limit: Totals, used: Totals, needed: Totals)
    requires Limits(limit) && Usage(used) && Usage(needed)
    ensures NonNegative(Combined(false, Combined(false, limit, used), needed)) <==> WithinEverywhere(used, needed, limit)
  {
    hide Combined;
    var t := Combined(false, limit, used);
    var x := Combined(false, t, needed);
    forall c, r ensures At(used, c, r).Fin? && At(needed, c, r).Fin?
      && At(x, c, r) == Op(false, Op(false, At(limit, c, r), At(used, c, r)), At(needed, c, r))
    {
      CombinedAt(false, limit, used, c, r);
      CombinedAt(false, t, needed, c, r);
    }
    CombinedKeys(false, limit, used);
    CombinedKeys(false, t, needed);
    NonNegativeEverywhere(x);
  }

  lemma NonNegativeEverywhere(x: Totals)
    requires Limits(x)
    ensures NonNegative(x) <==> forall c, r :: Fits(0, At(x, c, r))
  {
    if NonNegative(x) {
      forall c, r ensures Fits(0, At(x, c, r)) {
        if c in x.quota {
          assert NonNegativeRow(x.quota[c]);
        }
      }
    }
    if forall c, r :: Fits(0, At(x, c, r)) {
      forall c | c in x.quota ensures NonNegativeRow(x.quota[c]) {
        forall r | r in x.quota[c] && x.quota[c][r].Fin? ensures x.quota[c][r].amount >= 0 {
          assert Fits(0, At(x, c, r));
        }
      }
    }
  }
}
