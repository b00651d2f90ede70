/**
 The objects behind Nodescan.dfy: NodescanRequest, whose advance updates its fields phase by
 phase, and NodescanWorker with its two lists (nodepool/driver/statemachine.py).
 */
module NodescanWorker {
  import opened Wrappers
  import opened Nodescan

  // What a phase tells the next one: go on, return, or an exception on its way out.
  datatype Signal = Continue | Stop | Raised

  function Signalled(x: Outcome): Signal {
    match x
    case Go(_) => Continue
    case Return(_) => Stop
    case Raise(_) => Raised
  }

  class NodescanRequest {
    const settings: Settings
    var state: State
    var keyTypes: Option<seq<string>>
    var index: int
    var tried: seq<int>
    var keys: seq<string>
    var sources: seq<int>
    var sock: bool
    var transport: bool
    var leaked: nat
    var complete: bool
    var failed: bool

    function Contents(): Scan
      reads this
    {
      Scan(state, keyTypes, index, tried, keys, sources, sock, transport, leaked, complete, failed)
    }

    constructor (settings: Settings)
      ensures Contents() == NewScan() && this.settings == settings
    {
      this.settings := settings;
      state, keyTypes, index, tried := START, None, -1, [];
      keys, sources, sock, transport, leaked, complete, failed := [], [], false, false, 0, false, false;
    }

    method Close()
      modifies this
      ensures Contents() == Closed(old(Contents()))
    {
      if transport {
        transport := false;
      }
      if sock {
        sock := false;
      }
    }

    method Connect(c: Connect) returns (signal: Signal)
      modifies this
      ensures Contents() == Connected(old(Contents()), c).scan && signal == Signalled(Connected(old(Contents()), c))
    {
      if sock {
        leaked := leaked + 1;
      }
      sock := true;
      match c {
        case Blocks => state := CONNECTING_INIT; return Continue;
        case Immediate => return Continue;
        case ConnectRaises => return Raised;
      }
    }

    method NextKey(c: Connect) returns (signal: Signal)
      requires keyTypes.Some?
      modifies this
      ensures Contents() == Nodescan.NextKey(old(Contents()), c).scan && signal == Signalled(Nodescan.NextKey(old(Contents()), c))
    {
      Close();
      index := index + 1;
      if index >= |keyTypes.value| {
        state := COMPLETE;
        return Continue;
      }
      tried := tried + [index];
      signal := Connect(c);
      if signal == Raised {
        return;
      }
      state := CONNECTING_KEY;
      return Continue;
    }

    method AtStart(o: Answers) returns (signal: Signal)
      modifies this
      ensures var x := FromStart(settings, old(Contents()), o); Contents() == x.scan && signal == Signalled(x)
    {
      if state == START {
        if !settings.registered {
          return Raised;
        }
        if !settings.hostKeyChecking {
          state := COMPLETE;
        } else {
          if settings.fake {
            if settings.gatherHostkeys {
              keys := ["ssh-rsa FAKEKEY"];
            }
            state := COMPLETE;
          } else {
            signal := Connect(o.startConnect);
            return;
          }
        }
      }
      return Continue;
    }

    method AtConnecting(o: Answers) returns (signal: Signal)
      modifies this
      ensures var x := FromConnecting(settings, old(Contents()), o); Contents() == x.scan && signal == Signalled(x)
    {
      if state == CONNECTING_INIT {
        if !o.ready {
          if o.timedOut {
            return Raised;
          }
          if o.slow {
            Close();
            state := START;
          }
          return Stop;
        }
        if o.errno {
          Close();
          state := START;
          if o.timedOut {
            return Raised;
          }
          return Stop;
        }
        if settings.gatherHostkeys {
          transport := true;
          if o.startRaises {
            return Raised;
          }
          state := NEGOTIATING_INIT;
        } else {
          state := COMPLETE;
        }
      }
      return Continue;
    }

    method AtNegotiating(o: Answers) returns (signal: Signal)
      modifies this
      ensures var x := FromNegotiating(old(Contents()), o); Contents() == x.scan && signal == Signalled(x)
    {
      if state == NEGOTIATING_INIT {
        if !o.negotiated {
          return if o.timedOut then Raised else Stop;
        }
        if o.sshError {
          Close();
          state := START;
          if o.timedOut {
            return Raised;
          }
          signal := Connect(o.retryConnect);
          return if signal == Raised then Raised else Stop;
        }
        keyTypes := Some(o.offered);
        index := -1;
        tried, sources := [], [];
        signal := NextKey(o.firstConnect);
        return;
      }
      return Continue;
    }

    method AtConnectingKey(o: Answers) returns (signal: Signal)
      requires state == CONNECTING_KEY ==> keyTypes.Some?
      modifies this
      ensures var x := FromConnectingKey(old(Contents()), o); Contents() == x.scan && signal == Signalled(x)
    {
      if state == CONNECTING_KEY {
        if !o.ready {
          return if o.timedOut then Raised else Stop;
        }
        if o.keyErrno {
          signal := NextKey(o.nextConnect);
          return if signal == Raised then Raised else Stop;
        }
        transport := true;
        if o.keyStartRaises {
          return Raised;
        }
        state := NEGOTIATING_KEY;
      }
      return Continue;
    }

    method AtNegotiatingKey(o: Answers) returns (signal: Signal)
      requires state == NEGOTIATING_KEY ==> keyTypes.Some?
      modifies this
      ensures var x := FromNegotiatingKey(old(Contents()), o); Contents() == x.scan && signal == Signalled(x)
    {
      if state == NEGOTIATING_KEY {
        if !o.keyNegotiated {
          return if o.timedOut then Raised else Stop;
        }
        if o.keySshError {
          signal := NextKey(o.nextConnect);
          return;
        }
        if o.remoteKey.Some? {
          keys := keys + [o.remoteKey.value];
          sources := sources + [index];
        }
        signal := NextKey(o.nextConnect);
        return;
      }
      return Continue;
    }

    method AtKeys(o: Answers) returns (signal: Signal)
      requires ByKey(Contents()) ==> keyTypes.Some?
      modifies this
      ensures var x := KeyPhases(old(Contents()), o); Contents() == x.scan && signal == Signalled(x)
    {
      signal := AtConnectingKey(o);
      if signal != Continue {
        return;
      }
      signal := AtNegotiatingKey(o);
    }

    method Advance(o: Answers) returns (raised: bool)
      requires Shaped(Contents())
      modifies this
      ensures var x := Phases(settings, old(Contents()), o);
              raised == x.Raise? && Contents() == if x.Go? then Finished(x.scan) else x.scan
    {
      PhasesAreDefined(settings, Contents(), o);
      hide FromStart;
      hide FromConnecting;
      hide FromNegotiating;
      hide KeyPhases;
      hide Shaped;
      var signal := AtStart(o);
      if signal != Continue {
        return signal == Raised;
      }
      signal := AtConnecting(o);
      if signal != Continue {
        return signal == Raised;
      }
      signal := AtNegotiating(o);
      if signal != Continue {
        return signal == Raised;
      }
      signal := AtKeys(o);
      if signal != Continue {
        return signal == Raised;
      }
      if state == COMPLETE {
        Close();
        complete := true;
      }
      return false;
    }

    // fail().
    method Fail()
      modifies this
      ensures Contents() == FailedScan(old(Contents()))
    {
      failed := true;
      Close();
      complete := true;
      state := COMPLETE;
    }
  }

  lemma PhasesAreDefined(g: Settings, r: Scan, o: Answers)
    requires Shaped(r)
    ensures var a := FromStart(g, r, o);
            a.Go? ==> var b := FromConnecting(g, a.scan, o);
            b.Go? ==> var c := FromNegotiating(b.scan, o);
            c.Go? ==> ByKey(c.scan) ==> c.scan.keyTypes.Some?
  {
    hide InOrder;
    hide Below;
  }

  const MAX_REQUESTS: nat := 100

  // The requests a worker has, in both lists.
  class NodescanWorker {
    var active: seq<NodescanRequest>
    var pending: seq<NodescanRequest>

    // Never too many active ones, and no request twice.
    ghost predicate Valid()
      reads this
    {
      |active| <= MAX_REQUESTS && Distinct(active + pending)
    }

    constructor ()
      ensures Valid() && active == [] && pending == []
    {
      active, pending := [], [];
    }

    method AddRequest(request: NodescanRequest)
      requires Valid() && request !in active && request !in pending
      modifies this
      ensures Valid()
      ensures if |old(active)| < MAX_REQUESTS then active == old(active) + [request] && pending == old(pending)
              else active == old(active) && pending == old(pending) + [request]
    {
      if |active| >= MAX_REQUESTS {
        pending := pending + [request];
        assert active + pending == old(active + pending) + [request];
      } else {
        DistinctInsert(active, request, pending);
        active := active + [request];
      }
    }

    // The first lines of run: pending requests move up, oldest first, until there are
    // none or no more room; nobody is lost.
    method Refill()
      requires Valid()
      modifies this
      ensures Valid() && active + pending == old(active + pending)
      ensures old(active) <= active && (pending == [] || |active| == MAX_REQUESTS)
    {
      while pending != [] && |active| < MAX_REQUESTS
        invariant Valid() && active + pending == old(active + pending) && old(active) <= active
        decreases |pending|
      {
        var request := pending[0];
        assert active + pending == active + [request] + pending[1..];
        pending := pending[1..];
        active := active + [request];
      }
    }

    // Closes the request and takes it out of either list; everybody else stays, in order.
    method RemoveRequest(request: NodescanRequest)
      requires Valid()
      modifies this, request
      ensures Valid() && request.Contents() == Closed(old(request.Contents()))
      ensures active == Without(old(active), request) && pending == Without(old(pending), request)
      ensures request !in active && request !in pending
    {
      request.Close();
      DistinctParts(active, pending);
      WithoutOne(active, request);
      WithoutOne(pending, request);
      active := Remove(active, request);
      pending := Remove(pending, request);
      WithoutKeeps(old(active), old(pending), request);
    }

    // One request's turn: advanced, failed if that raises, removed once complete.
    method Turn(request: NodescanRequest, o: Answers)
      requires Valid() && request in active && Shaped(request.Contents())
      modifies this, request
      ensures Valid()
      ensures request.Contents() == Advanced(request.settings, old(request.Contents()), o)
      ensures if request.complete then active == Without(old(active), request) && pending == Without(old(pending), request)
              else active == old(active) && pending == old(pending)
    {
      ghost var before := request.Contents();
      var raised := request.Advance(o);
      if raised {
        request.Fail();
      }
      assert request.Contents() == Advanced(request.settings, before, o);
      if request.complete {
        AdvancedIsClosed(request.settings, before, o);
        RemoveRequest(request);
      }
    }
  }

  lemma AdvancedIsClosed(g: Settings, r: Scan, o: Answers)
    requires Shaped(r)
    ensures var r' := Advanced(g, r, o); r'.complete && !r.complete ==> Closed(r') == r'
    ensures r.complete ==> Advanced(g, r, o) == Closed(Advanced(g, r, o))
  {
    if !r.complete {
      AdvanceKeepsShape(g, r, o);
    }
  }

  predicate Distinct<T(==)>(q: seq<T>) { forall i, j :: 0 <= i < j < |q| ==> q[i] != q[j] }

  // list.remove: the first occurrence goes.
  function Remove<T(==)>(q: seq<T>, x: T): seq<T> {
    if q == [] then [] else if q[0] == x then q[1..] else [q[0]] + Remove(q[1..], x)
  }

  function Without<T(==)>(q: seq<T>, x: T): seq<T> {
    if q == [] then [] else (if q[0] == x then [] else [q[0]]) + Without(q[1..], x)
  }

  lemma DistinctParts<T>(p: seq<T>, q: seq<T>)
    requires Distinct(p + q)
    ensures Distinct(p) && Distinct(q)
  {
    forall i, j | 0 <= i < j < |p| ensures p[i] != p[j] {
      assert (p + q)[i] == p[i] && (p + q)[j] == p[j];
    }
    forall i, j | 0 <= i < j < |q| ensures q[i] != q[j] {
      assert (p + q)[|p| + i] == q[i] && (p + q)[|p| + j] == q[j];
    }
  }

  lemma DistinctInsert<T>(p: seq<T>, x: T, q: seq<T>)
    requires Distinct(p + q) && x !in p && x !in q
    ensures Distinct(p + [x] + q)
  {
    var r := p + [x] + q;
    forall i, j | 0 <= i < j < |r| ensures r[i] != r[j] {
      var i', j' := if i < |p| then i else i - 1, if j < |p| then j else j - 1;
      if i != |p| {
        assert r[i] == (p + q)[i'];
      }
      if j != |p| {
        assert r[j] == (p + q)[j'];
      }
      if i == |p| || j == |p| {
        assert x !in p + q;
      }
    }
  }

  lemma {:induction false} WithoutAbsent<T>(q: seq<T>, x: T)
    requires x !in q
    ensures Without(q, x) == q
  {
    if q != [] {
      WithoutAbsent(q[1..], x);
      assert q == [q[0]] + q[1..];
    }
  }

  lemma {:induction false} WithoutOne<T>(q: seq<T>, x: T)
    requires Distinct(q)
    ensures Remove(q, x) == Without(q, x) && x !in Without(q, x)
  {
    if q != [] {
      WithoutOne(q[1..], x);
      if q[0] == x {
        assert x !in q[1..];
        WithoutAbsent(q[1..], x);
      }
    }
  }

  lemma {:induction false} WithoutConcat<T>(p: seq<T>, q: seq<T>, x: T)
    ensures Without(p + q, x) == Without(p, x) + Without(q, x)
  {
    if p == [] {
      assert p + q == q;
    } else {
      WithoutConcat(p[1..], q, x);
      assert (p + q)[1..] == p[1..] + q;
    }
  }

  lemma {:induction false} WithoutDistinct<T>(q: seq<T>, x: T)
    requires Distinct(q)
    ensures Distinct(Without(q, x)) && |Without(q, x)| <= |q|
    ensures forall y :: y in Without(q, x) ==> y in q
  {
    if q != [] {
      WithoutDistinct(q[1..], x);
      assert q[0] !in q[1..];
      var rest := Without(q[1..], x);
      assert Without(q, x) == if q[0] == x then rest else [q[0]] + rest;
    }
  }

  lemma WithoutKeeps<T>(p: seq<T>, q: seq<T>, x: T)
    requires Distinct(p + q)
    ensures Distinct(Without(p, x) + Without(q, x)) && |Without(p, x)| <= |p|
  {
    WithoutConcat(p, q, x);
    WithoutDistinct(p + q, x);
    DistinctParts(p, q);
    WithoutDistinct(p, x);
  }
}
