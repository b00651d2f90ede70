/**
 One node request being handled: LabelRecorder and NodeRequestHandler of
 nodepool/driver/__init__.py.

 ZooKeeper, the cloud and the quota check answer through Env: whether the n-th attempt
 at something succeeds.  A node here is the handler's own copy of the record.
 */
module Handler {
  import opened Wrappers

  type Label = string
  type NodeId = string
  type PoolId = string

  // ---------------------------------------------------------------- LabelRecorder

  datatype Record = Record(ntype: Label, id: NodeId)

  function Labels(data: seq<Record>): seq<Label> { seq(|data|, i requires 0 <= i < |data| => data[i].ntype) }

  function Ids(data: seq<Record>): seq<NodeId> { seq(|data|, i requires 0 <= i < |data| => data[i].id) }

  // The first record with a label; |data| if there is none.
  function FirstOf(data: seq<Record>, ntype: Label): (i: nat)
    ensures i <= |data|
    ensures i < |data| ==> data[i].ntype == ntype
    ensures forall j :: 0 <= j < i ==> data[j].ntype != ntype
  {
    if data == [] || data[0].ntype == ntype then 0 else 1 + FirstOf(data[1..], ntype)
  }

  // The recorder after removeNode: without the first record of an id.
  function RemoveId(data: seq<Record>, id: NodeId): (r: seq<Record>)
    ensures forall x :: x in r ==> x in data
  {
    if data == [] then []
    else if data[0].id == id then data[1..]
    else [data[0]] + RemoveId(data[1..], id)
  }

  function Without(data: seq<Record>, i: nat): seq<Record>
    requires i < |data|
  {
    data[..i] + data[i + 1..]
  }

  // What pop does: Unbound is the error raised when no record has the label.
  datatype Popped = Unbound | Popped(id: NodeId)

  class LabelRecorder {
    var data: seq<Record>

    constructor ()
      ensures data == []
    {
      data := [];
    }

    method Add(ntype: Label, id: NodeId)
      modifies this
      ensures data == old(data) + [Record(ntype, id)]
    {
      data := data + [Record(ntype, id)];
    }

    method GetLabels() returns (labels: seq<Label>)
      ensures labels == Labels(data)
    {
      labels := [];
      for i := 0 to |data|
        invariant labels == Labels(data[..i])
      {
        assert data[..i + 1] == data[..i] + [data[i]];
        labels := labels + [data[i].ntype];
      }
      assert data[..|data|] == data;
    }

    method Pop(ntype: Label) returns (r: Popped)
      modifies this
      ensures r.Unbound? <==> ntype !in Labels(old(data))
      ensures r.Unbound? ==> data == old(data)
      ensures r.Popped? ==> var i := FirstOf(old(data), ntype);
                            i < |old(data)| && r.id == old(data)[i].id && data == Without(old(data), i)
    {
      var i := 0;
      while i < |data| && data[i].ntype != ntype
        invariant 0 <= i <= |data|
        invariant forall j :: 0 <= j < i ==> data[j].ntype != ntype
      {
        i := i + 1;
      }
      if i == |data| {
        assert forall j :: 0 <= j < |data| ==> Labels(data)[j] == data[j].ntype;
        return Unbound;
      }
      assert Labels(data)[i] == ntype;
      r := Popped(data[i].id);
      // list.remove drops the first equal record.
      var j := 0;
      while data[j] != Record(ntype, r.id)
        invariant 0 <= j <= i
        decreases i - j
      {
        j := j + 1;
      }
      data := data[..j] + data[j + 1..];
    }

    method RemoveNode(id: NodeId)
      modifies this
      ensures data == RemoveId(old(data), id)
    {
      var i := 0;
      while i < |data|
        invariant 0 <= i <= |data| && data == old(data)
        invariant forall j :: 0 <= j < i ==> data[j].id != id
      {
        if data[i].id == id {
          RemoveIdAt(data, i, id);
          data := data[..i] + data[i + 1..];
          return;
        }
        i := i + 1;
      }
      RemoveIdAt(data, i, id);
    }
  }

  // The first record with the id goes; i is its index, or the length if there is none.
  lemma {:induction false} RemoveIdAt(data: seq<Record>, i: nat, id: NodeId)
    requires i <= |data| && (forall j :: 0 <= j < i ==> data[j].id != id) && (i < |data| ==> data[i].id == id)
    ensures RemoveId(data, id) == if i == |data| then data else data[..i] + data[i + 1..]
  {
    if data != [] && i > 0 {
      var head, tail := data[0], data[1..];
      RemoveIdAt(tail, i - 1, id);
      assert data == [head] + tail;
      if i < |data| {
        assert data[..i] == [head] + tail[..i - 1];
        assert data[i + 1..] == tail[i..];
        assert [head] + (tail[..i - 1] + tail[i..]) == [head] + tail[..i - 1] + tail[i..];
      }
    }
  }

  // ---------------------------------------------------------------- needed types

  function Repeat(l: Label, n: nat): (r: seq<Label>)
    ensures multiset(r)[l] == n && forall k :: k != l ==> multiset(r)[k] == 0
  {
    if n == 0 then [] else
    [l] + Repeat(l, n - 1)
  }

  // Counter.elements: the copies of one label together, labels in first-seen order.
  function Elements(order: seq<Label>, m: multiset<Label>): seq<Label> {
    if order == [] then [] else Repeat(order[0], m[order[0]]) + Elements(order[1..], m[order[0] := 0])
  }

  // Counter(types) - Counter(saved), listed.
  function Needed(types: seq<Label>, saved: seq<Label>): seq<Label> {
    Elements(types, multiset(types) - multiset(saved))
  }

  lemma {:induction false} ElementsCount(order: seq<Label>, m: multiset<Label>)
    requires forall l :: l in m ==> l in order
    ensures multiset(Elements(order, m)) == m
  {
    if order != [] {
      var m' := m[order[0] := 0];
      forall l | l in m' ensures l in order[1..] {
        assert l in order && l != order[0];
      }
      ElementsCount(order[1..], m');
      assert multiset(Repeat(order[0], m[order[0]])) + m' == m;
    }
  }

  lemma NeededCount(types: seq<Label>, saved: seq<Label>)
    ensures multiset(Needed(types, saved)) == multiset(types) - multiset(saved)
  {
    ElementsCount(types, multiset(types) - multiset(saved));
  }

  // ---------------------------------------------------------------- popping in order

  // Popping the requested types one after the other; None if some pop misses.
  function PopAll(types: seq<Label>, data: seq<Record>): Option<seq<NodeId>> {
    if types == [] then Some([])
    else
      var i := FirstOf(data, types[0]);
      if i == |data| then None
      else match PopAll(types[1..], Without(data, i))
           case None => None
           case Some(ids) => Some([data[i].id] + ids)
  }

  lemma MultisetWithout<T>(s: seq<T>, i: nat)
    requires i < |s|
    ensures multiset(s) == multiset{s[i]} + multiset(s[..i] + s[i + 1..])
  {
    assert s == s[..i] + [s[i]] + s[i + 1..];
  }

  lemma WithoutCount(data: seq<Record>, i: nat)
    requires i < |data|
    ensures multiset(Labels(data)) == multiset{data[i].ntype} + multiset(Labels(Without(data, i)))
    ensures multiset(Ids(data)) == multiset{data[i].id} + multiset(Ids(Without(data, i)))
  {
    MultisetWithout(Labels(data), i);
    assert Labels(Without(data, i)) == Labels(data)[..i] + Labels(data)[i + 1..];
    MultisetWithout(Ids(data), i);
    assert Ids(Without(data, i)) == Ids(data)[..i] + Ids(data)[i + 1..];
  }

  lemma CancelOne(x: Label, a: multiset<Label>, b: multiset<Label>)
    ensures a <= b <==> multiset{x} + a <= multiset{x} + b
  {
    if multiset{x} + a <= multiset{x} + b {
      forall l ensures a[l] <= b[l] {
        assert (multiset{x} + a)[l] <= (multiset{x} + b)[l];
      }
    }
  }

  // No pop misses exactly when every requested type is recorded as often as it is
  // requested.
  lemma {:induction false} PopAllIff(types: seq<Label>, data: seq<Record>)
    ensures PopAll(types, data).Some? <==> multiset(types) <= multiset(Labels(data))
  {
    if types != [] {
      var i := FirstOf(data, types[0]);
      assert types == [types[0]] + types[1..];
      if i == |data| {
        assert forall j :: 0 <= j < |data| ==> Labels(data)[j] == data[j].ntype;
        assert types[0] in multiset(types) && types[0] !in multiset(Labels(data));
      } else {
        var rest := Without(data, i);
        PopAllIff(types[1..], rest);
        WithoutCount(data, i);
        assert multiset(types) == multiset{types[0]} + multiset(types[1..]);
        CancelOne(types[0], multiset(types[1..]), multiset(Labels(rest)));
      }
    }
  }

  // What is popped is a record of the requested type, for each type in order.
  lemma {:induction false} PopAllIds(types: seq<Label>, data: seq<Record>)
    requires PopAll(types, data).Some?
    ensures var ids := PopAll(types, data).value;
            && |ids| == |types|
            && multiset(ids) <= multiset(Ids(data))
            && (forall i :: 0 <= i < |ids| ==> Record(types[i], ids[i]) in data)
  {
    if types != [] {
      var i := FirstOf(data, types[0]);
      var rest := Without(data, i);
      PopAllIds(types[1..], rest);
      WithoutCount(data, i);
      var ids := PopAll(types, data).value;
      assert ids == [data[i].id] + PopAll(types[1..], rest).value;
      assert ids[1..] == PopAll(types[1..], rest).value;
      forall k | 0 <= k < |ids| ensures Record(types[k], ids[k]) in data {
        if k > 0 {
          assert Record(types[1..][k - 1], ids[1..][k - 1]) in rest;
        }
      }
    }
  }

  lemma MultisetOfDistinct(s: seq<NodeId>, t: seq<NodeId>)
    requires forall i, j :: 0 <= i < j < |s| ==> s[i] != s[j]
    requires multiset(t) <= multiset(s)
    ensures forall i, j :: 0 <= i < j < |t| ==> t[i] != t[j]
  {
    forall i, j | 0 <= i < j < |t| ensures t[i] != t[j] {
      if t[i] == t[j] {
        var x := t[i];
        assert t == t[..i] + [x] + t[i + 1..j] + [x] + t[j + 1..];
        assert multiset(t)[x] >= 2;
        assert multiset(s)[x] >= 2;
        AtMostOne(s, x);
      }
    }
  }

  lemma {:induction false} AtMostOne(s: seq<NodeId>, x: NodeId)
    requires forall i, j :: 0 <= i < j < |s| ==> s[i] != s[j]
    ensures multiset(s)[x] <= 1
  {
    if s != [] {
      AtMostOne(s[1..], x);
      assert s == [s[0]] + s[1..];
      assert s[0] == x ==> x !in s[1..];
    }
  }
}
