/**
 Scanning a new node for its ssh host keys (NodescanRequest and NodescanWorker in
 nodepool/driver/statemachine.py).

 The functions give one call of advance as a value, phase by phase, with everything the
 network answers as an input; the class does the same by updating its fields.
 */
module Nodescan {
  import opened Wrappers

  datatype State = START | CONNECTING_INIT | NEGOTIATING_INIT | CONNECTING_KEY | NEGOTIATING_KEY | COMPLETE

  // tried: the index of every key type a connection was opened for.  sources: for each key
  // found, the index of the key type it was found with.  leaked: the sockets replaced
  // without being closed.
  datatype Scan = Scan(state: State, keyTypes: Option<seq<string>>, index: int, tried: seq<int>, keys: seq<string>,
                       sources: seq<int>, sock: bool, transport: bool, leaked: nat, complete: bool, failed: bool)

  // A non-blocking connect is under way, has already succeeded, or raises.
  datatype Connect = Blocks | Immediate | ConnectRaises

  // What one call of advance meets, in the order in which it may ask: whether the polled
  // socket is ready, whether the overall time and the ten seconds per connection are up,
  // the two getsockopt answers, the two negotiations and the connects.
  datatype Answers = Answers(ready: bool, timedOut: bool, slow: bool,
                             startConnect: Connect, errno: bool, startRaises: bool,
                             negotiated: bool, sshError: bool, retryConnect: Connect, offered: seq<string>, firstConnect: Connect,
                             keyErrno: bool, keyStartRaises: bool, keyNegotiated: bool, keySshError: bool,
                             remoteKey: Option<string>, nextConnect: Connect)

  datatype Settings = Settings(registered: bool, hostKeyChecking: bool, gatherHostkeys: bool, fake: bool)

  // How a phase ends: on to the next one, return, or an exception.
  datatype Outcome = Go(scan: Scan) | Return(scan: Scan) | Raise(scan: Scan)

  function NewScan(): Scan { Scan(START, None, -1, [], [], [], false, false, 0, false, false) }

  function Closed(r: Scan): Scan { r.(sock := false, transport := false) }

  // _connect: the new socket replaces the one there was.
  function Connected(r: Scan, c: Connect): Outcome {
    var r1 := r.(sock := true, leaked := r.leaked + if r.sock then 1 else 0);
    match c
    case Blocks => Go(r1.(state := CONNECTING_INIT))
    case Immediate => Go(r1)
    case ConnectRaises => Raise(r1)
  }

  // _nextKey.
  function NextKey(r: Scan, c: Connect): Outcome
    requires r.keyTypes.Some?
  {
    var r1 := Closed(r).(index := r.index + 1);
    if r1.index >= |r1.keyTypes.value| then Go(r1.(state := COMPLETE))
    else
      match Connected(r1.(tried := r1.tried + [r1.index]), c)
      case Raise(r2) => Raise(r2)
      case other => Go(other.scan.(state := CONNECTING_KEY))
  }

  function FromStart(g: Settings, r: Scan, o: Answers): Outcome {
    if r.state != START then Go(r)
    else if !g.registered then Raise(r)
    else if !g.hostKeyChecking then Go(r.(state := COMPLETE))
    else if g.fake then Go(r.(keys := if g.gatherHostkeys then ["ssh-rsa FAKEKEY"] else r.keys, state := COMPLETE))
    else Connected(r, o.startConnect)
  }

  function FromConnecting(g: Settings, r: Scan, o: Answers): Outcome {
    if r.state != CONNECTING_INIT then Go(r)
    else if !o.ready then
      if o.timedOut then Raise(r) else if o.slow then Return(Closed(r).(state := START)) else Return(r)
    else if o.errno then
      var r1 := Closed(r).(state := START);
      if o.timedOut then Raise(r1) else Return(r1)
    else if !g.gatherHostkeys then Go(r.(state := COMPLETE))
    else if o.startRaises then Raise(r.(transport := true))
    else Go(r.(transport := true, state := NEGOTIATING_INIT))
  }

  function FromNegotiating(r: Scan, o: Answers): Outcome {
    if r.state != NEGOTIATING_INIT then Go(r)
    else if !o.negotiated then if o.timedOut then Raise(r) else Return(r)
    else if o.sshError then
      var r1 := Closed(r).(state := START);
      if o.timedOut then Raise(r1)
      else match Connected(r1, o.retryConnect)
           case Raise(r2) => Raise(r2)
           case other => Return(other.scan)
    else NextKey(r.(keyTypes := Some(o.offered), index := -1, tried := [], sources := []), o.firstConnect)
  }

  function FromConnectingKey(r: Scan, o: Answers): Outcome
    requires r.state == CONNECTING_KEY ==> r.keyTypes.Some?
  {
    if r.state != CONNECTING_KEY then Go(r)
    else if !o.ready then if o.timedOut then Raise(r) else Return(r)
    else if o.keyErrno then
      match NextKey(r, o.nextConnect)
      case Raise(r2) => Raise(r2)
      case other => Return(other.scan)
    else if o.keyStartRaises then Raise(r.(transport := true))
    else Go(r.(transport := true, state := NEGOTIATING_KEY))
  }

  function FromNegotiatingKey(r: Scan, o: Answers): Outcome
    requires r.state == NEGOTIATING_KEY ==> r.keyTypes.Some?
  {
    if r.state != NEGOTIATING_KEY then Go(r)
    else if !o.keyNegotiated then if o.timedOut then Raise(r) else Return(r)
    else if o.keySshError || o.remoteKey.None? then NextKey(r, o.nextConnect)
    else NextKey(r.(keys := r.keys + [o.remoteKey.value], sources := r.sources + [r.index]), o.nextConnect)
  }

  function Finished(r: Scan): Scan {
    if r.state == COMPLETE then Closed(r).(complete := true) else r
  }

  // fail(), which the worker calls for whatever advance raises.
  function FailedScan(r: Scan): Scan { Closed(r).(complete := true, state := COMPLETE, failed := true) }


  predicate ByKey(r: Scan) { r.state == CONNECTING_KEY || r.state == NEGOTIATING_KEY }

  // Key types are known from the first successful negotiation on; those up to the current
  // one have been tried, each once and in order, and gave at most one key each.
  predicate Shaped(r: Scan) {
    && (ByKey(r) ==> r.keyTypes.Some? && 0 <= r.index < |r.keyTypes.value|)
    && (r.keyTypes.Some? ==> ByKey(r) || r.state == COMPLETE)
    && (r.complete ==> r.state == COMPLETE && !r.sock && !r.transport)
    && (r.keyTypes.Some? ==> InOrder(|r.keyTypes.value|, r.index, r.tried) && Below(r.sources, Bound(r)) && |r.keys| == |r.sources|)
    && (r.keyTypes.None? ==> r.tried == [] && r.sources == [])
    && (r.keyTypes.None? && r.state != COMPLETE ==> r.keys == [])
  }

  function Bound(r: Scan): int
    requires r.keyTypes.Some?
  {
    if ByKey(r) then r.index else |r.keyTypes.value|
  }

  // Of n key types the first index + 1 have been tried, or all.
  predicate InOrder(n: nat, index: int, tried: seq<int>) {
    && 0 <= index <= n
    && |tried| == (if index < n then index + 1 else n)
    && (forall i :: 0 <= i < |tried| ==> tried[i] == i)
  }

  predicate Below(sources: seq<int>, bound: int) {
    && (forall i :: 0 <= i < |sources| ==> 0 <= sources[i] < bound)
    && (forall i, j :: 0 <= i < j < |sources| ==> sources[i] < sources[j])
  }

  function KeyPhases(r: Scan, o: Answers): Outcome
    requires ByKey(r) ==> r.keyTypes.Some?
  {
    var d := FromConnectingKey(r, o);
    if !d.Go? then d else FromNegotiatingKey(d.scan, o)
  }

  function Phases(g: Settings, r: Scan, o: Answers): Outcome
    requires Shaped(r)
  {
    var a := FromStart(g, r, o);
    if !a.Go? then a
    else
      var b := FromConnecting(g, a.scan, o);
      if !b.Go? then b
      else
        var c := FromNegotiating(b.scan, o);
        if !c.Go? then c
        else
          KeyPhases(c.scan, o)
  }

  // What the worker does with a request: advance, fail it on an exception.
  function Advanced(g: Settings, r: Scan, o: Answers): Scan
    requires Shaped(r)
  {
    match Phases(g, r, o)
    case Go(r1) => Finished(r1)
    case Return(r1) => r1
    case Raise(r1) => FailedScan(r1)
  }

  // ---------------------------------------------------------------- what advance keeps

  lemma BelowMore(sources: seq<int>, bound: int, more: int)
    requires Below(sources, bound) && bound <= more
    ensures Below(sources, more)
  {
  }

  lemma FailKeeps(r: Scan)
    requires Shaped(r)
    ensures Shaped(FailedScan(r))
  {
    if r.keyTypes.Some? {
      BelowMore(r.sources, Bound(r), |r.keyTypes.value|);
    }
  }

  // r has tried the key types up to its index, and has at most one key of each.
  predicate Tried(r: Scan) {
    && r.keyTypes.Some? && -1 <= r.index < |r.keyTypes.value| && !r.complete && |r.keys| == |r.sources|
    && |r.tried| == r.index + 1 && (forall i :: 0 <= i < |r.tried| ==> r.tried[i] == i)
    && Below(r.sources, r.index + 1)
  }

  lemma NextKeyKeeps(r: Scan, c: Connect)
    requires Tried(r)
    ensures var x := NextKey(r, c);
            && x.scan.keyTypes == r.keyTypes && x.scan.index == r.index + 1 && !x.scan.complete && !x.Return?
            && Shaped(FailedScan(x.scan))
            && (x.Go? ==> Shaped(x.scan) && x.scan.state == if x.scan.index < |r.keyTypes.value| then CONNECTING_KEY else COMPLETE)
  {
    BelowMore(r.sources, r.index + 1, |r.keyTypes.value|);
  }

  // Fit: a phase leaves a scan in shape, and one that raises leaves it fit to be failed.
  predicate Fit(x: Outcome) {
    Shaped(FailedScan(x.scan)) && (!x.Raise? ==> Shaped(x.scan) && !x.scan.complete)
  }

  lemma StartKeeps(g: Settings, r: Scan, o: Answers)
    requires Shaped(r) && !r.complete
    ensures Fit(FromStart(g, r, o)) && (r.keyTypes.Some? ==> FromStart(g, r, o) == Go(r))
  {
    hide InOrder;
    hide Below;
    FailKeeps(r);
  }

  lemma ConnectingKeeps(g: Settings, r: Scan, o: Answers)
    requires Shaped(r) && !r.complete
    ensures Fit(FromConnecting(g, r, o)) && (r.keyTypes.Some? ==> FromConnecting(g, r, o) == Go(r))
  {
    hide InOrder;
    hide Below;
    FailKeeps(r);
  }

  lemma NegotiatingKeeps(r: Scan, o: Answers)
    requires Shaped(r) && !r.complete
    ensures Fit(FromNegotiating(r, o)) && (r.keyTypes.Some? ==> FromNegotiating(r, o) == Go(r))
  {
    FailKeeps(r);
    if r.state == NEGOTIATING_INIT && o.negotiated && !o.sshError {
      var r1 := r.(keyTypes := Some(o.offered), index := -1, tried := [], sources := []);
      NextKeyKeeps(r1, o.firstConnect);
    } else {
      hide InOrder;
      hide Below;
    }
  }

  // How far a scan is from its end, once the key types are known.
  function Distance(r: Scan): nat
    requires Shaped(r) && r.keyTypes.Some?
  {
    if r.complete then 0
    else if r.state == COMPLETE then 1
    else 2 * (|r.keyTypes.value| - r.index) + if r.state == CONNECTING_KEY then 1 else 0
  }

  // What a phase does to a scan whose key types are known: nothing, or a step forward.
  predicate Forward(r: Scan, x: Outcome)
    requires Shaped(r) && r.keyTypes.Some?
  {
    && x.scan.keyTypes == r.keyTypes && Fit(x)
    && (!x.Raise? ==> x.scan == r || Distance(x.scan) < Distance(r))
  }

  lemma ConnectingKeyKeeps(r: Scan, o: Answers)
    requires Shaped(r) && !r.complete && r.keyTypes.Some?
    ensures Forward(r, FromConnectingKey(r, o))
  {
    FailKeeps(r);
    if r.state == CONNECTING_KEY && o.ready && o.keyErrno {
      BelowMore(r.sources, r.index, r.index + 1);
      NextKeyKeeps(r, o.nextConnect);
    }
    hide InOrder;
    hide Below;
  }

  lemma NegotiatingKeyKeeps(r: Scan, o: Answers)
    requires Shaped(r) && !r.complete && r.keyTypes.Some?
    ensures Forward(r, FromNegotiatingKey(r, o))
  {
    FailKeeps(r);
    if r.state == NEGOTIATING_KEY && o.keyNegotiated {
      BelowMore(r.sources, r.index, r.index + 1);
      if o.keySshError || o.remoteKey.None? {
        NextKeyKeeps(r, o.nextConnect);
      } else {
        NextKeyKeeps(r.(keys := r.keys + [o.remoteKey.value], sources := r.sources + [r.index]), o.nextConnect);
      }
    }
    hide InOrder;
    hide Below;
  }

  // The last two phases of one call.
  lemma KeyPhasesKeep(r: Scan, o: Answers)
    requires Shaped(r) && !r.complete && r.keyTypes.Some?
    ensures Forward(r, KeyPhases(r, o))
  {
    hide FromConnectingKey;
    hide FromNegotiatingKey;
    ConnectingKeyKeeps(r, o);
    var d := FromConnectingKey(r, o);
    if d.Go? {
      NegotiatingKeyKeeps(d.scan, o);
    }
  }

  lemma AdvanceKeepsShape(g: Settings, r: Scan, o: Answers)
    requires Shaped(r) && !r.complete
    ensures Shaped(Advanced(g, r, o))
  {
    hide FromStart;
    hide FromConnecting;
    hide FromNegotiating;
    hide KeyPhases;
    hide InOrder;
    hide Below;
    StartKeeps(g, r, o);
    var a := FromStart(g, r, o);
    if a.Go? {
      ConnectingKeeps(g, a.scan, o);
      var b := FromConnecting(g, a.scan, o);
      if b.Go? {
        NegotiatingKeeps(b.scan, o);
        var c := FromNegotiating(b.scan, o);
        if c.Go? {
          if c.scan.keyTypes.Some? {
            KeyPhasesKeep(c.scan, o);
          } else {
            NoKeysYet(c.scan, o);
          }
        }
      }
    }
  }

  lemma NoKeysYet(r: Scan, o: Answers)
    requires Shaped(r) && r.keyTypes.None?
    ensures KeyPhases(r, o) == Go(r)
  {
  }

  // After the first successful negotiation a scan keeps its key types, never returns to an
  // initial state, and gets closer to its end with every change.
  lemma AdvanceGoesForward(g: Settings, r: Scan, o: Answers)
    requires Shaped(r) && !r.complete && r.keyTypes.Some?
    ensures var r' := Advanced(g, r, o);
            && Shaped(r') && r'.keyTypes == r.keyTypes && (ByKey(r') || r'.state == COMPLETE)
            && (r' == r || Distance(r') < Distance(r))
  {
    hide FromStart;
    hide FromConnecting;
    hide FromNegotiating;
    hide KeyPhases;
    hide InOrder;
    hide Below;
    StartKeeps(g, r, o);
    ConnectingKeeps(g, r, o);
    NegotiatingKeeps(r, o);
    KeyPhasesKeep(r, o);
  }

  // ---------------------------------------------------------------- whole scans

  // The worker advances a request until it is complete.
  function After(g: Settings, r: Scan, answers: seq<Answers>): (r': Scan)
    requires Shaped(r)
    ensures Shaped(r')
    decreases |answers|
  {
    if answers == [] || r.complete then r
    else
      AdvanceKeepsShape(g, r, answers[0]);
      After(g, Advanced(g, r, answers[0]), answers[1..])
  }

  lemma {:induction false} IncreasingFits(sources: seq<int>, bound: nat)
    requires Below(sources, bound)
    ensures |sources| <= bound
    decreases |sources|
  {
    if sources != [] {
      var last := |sources| - 1;
      IncreasingFits(sources[..last], sources[last]);
    }
  }

  // Whatever the network answers, a scan tries the offered key types in order, each at
  // most once, returns at most one key per type, and holds no socket once complete.
  lemma ScansAreOrderly(g: Settings, answers: seq<Answers>)
    ensures var r := After(g, NewScan(), answers);
            && (forall i :: 0 <= i < |r.tried| ==> r.tried[i] == i)
            && (r.keyTypes.Some? ==> |r.tried| <= |r.keyTypes.value| && |r.keys| == |r.sources| <= |r.keyTypes.value|)
            && (forall i, j :: 0 <= i < j < |r.sources| ==> r.sources[i] < r.sources[j])
            && (r.complete ==> !r.sock && !r.transport)
  {
    var r := After(g, NewScan(), answers);
    if r.keyTypes.Some? {
      BelowMore(r.sources, Bound(r), |r.keyTypes.value|);
      IncreasingFits(r.sources, |r.keyTypes.value|);
    }
  }

  // How often advance changes anything.
  function Changes(g: Settings, r: Scan, answers: seq<Answers>): nat
    requires Shaped(r)
    decreases |answers|
  {
    if answers == [] || r.complete then 0
    else
      AdvanceKeepsShape(g, r, answers[0]);
      var r' := Advanced(g, r, answers[0]);
      (if r' == r then 0 else 1) + Changes(g, r', answers[1..])
  }

  // Once negotiated, a scan never returns to an initial state and changes at most twice per
  // key type left, and twice more.
  lemma {:induction false} NegotiatedScansEnd(g: Settings, r: Scan, answers: seq<Answers>)
    requires Shaped(r) && r.keyTypes.Some?
    ensures var r' := After(g, r, answers);
            && r'.keyTypes == r.keyTypes && (ByKey(r') || r'.state == COMPLETE)
            && Changes(g, r, answers) + Distance(r') <= Distance(r)
    decreases |answers|
  {
    hide Advanced;
    hide Shaped;
    if answers != [] && !r.complete {
      AdvanceGoesForward(g, r, answers[0]);
      NegotiatedScansEnd(g, Advanced(g, r, answers[0]), answers[1..]);
    } else {
      StaysNegotiated(r);
    }
  }

  lemma StaysNegotiated(r: Scan)
    requires Shaped(r) && r.keyTypes.Some?
    ensures ByKey(r) || r.state == COMPLETE
  {
  }

  // ---------------------------------------------------------------- sockets

  predicate Connects(g: Settings) { g.registered && g.hostKeyChecking && !g.fake }

  // In START with a socket: a connect that succeeds at once opens one without leaving START.
  predicate Armed(r: Scan) { r.state == START && r.sock }

  lemma StartLeaks(g: Settings, r: Scan, o: Answers)
    ensures FromStart(g, r, o).scan.leaked == r.leaked + if Armed(r) && Connects(g) then 1 else 0
    ensures !FromStart(g, r, o).Return?
  {
  }

  lemma ConnectingLeaks(g: Settings, r: Scan, o: Answers)
    ensures FromConnecting(g, r, o).scan.leaked == r.leaked
  {
  }

  lemma NegotiatingLeaks(r: Scan, o: Answers)
    ensures FromNegotiating(r, o).scan.leaked == r.leaked
  {
  }

  lemma NextKeyLeaks(r: Scan, c: Connect)
    requires r.keyTypes.Some?
    ensures NextKey(r, c).scan.leaked == r.leaked && NextKey(r, c).scan.keyTypes == r.keyTypes && (NextKey(r, c).Go? ==> NextKey(r, c).scan.state != START)
  {
  }

  lemma ConnectingKeyLeaks(r: Scan, o: Answers)
    requires r.state == CONNECTING_KEY ==> r.keyTypes.Some?
    ensures var x := FromConnectingKey(r, o);
            x.scan.leaked == r.leaked && x.scan.keyTypes == r.keyTypes && (!x.Raise? && r.state != START ==> x.scan.state != START)
    ensures r.state != CONNECTING_KEY ==> FromConnectingKey(r, o) == Go(r)
  {
    if r.state == CONNECTING_KEY {
      NextKeyLeaks(r, o.nextConnect);
    }
    hide NextKey;
  }

  lemma NegotiatingKeyLeaks(r: Scan, o: Answers)
    requires r.state == NEGOTIATING_KEY ==> r.keyTypes.Some?
    ensures var x := FromNegotiatingKey(r, o);
            x.scan.leaked == r.leaked && (!x.Raise? && r.state != START ==> x.scan.state != START)
    ensures r.state != NEGOTIATING_KEY ==> FromNegotiatingKey(r, o) == Go(r)
  {
    if r.state == NEGOTIATING_KEY {
      NextKeyLeaks(r, o.nextConnect);
      if o.remoteKey.Some? {
        NextKeyLeaks(r.(keys := r.keys + [o.remoteKey.value], sources := r.sources + [r.index]), o.nextConnect);
      }
    }
    hide NextKey;
  }

  lemma KeyPhasesLeak(r: Scan, o: Answers)
    requires ByKey(r) ==> r.keyTypes.Some?
    ensures var x := KeyPhases(r, o); x.scan.leaked == r.leaked && (!x.Raise? && r.state != START ==> x.scan.state != START)
    ensures !ByKey(r) ==> KeyPhases(r, o) == Go(r)
  {
    hide FromConnectingKey;
    hide FromNegotiatingKey;
    ConnectingKeyLeaks(r, o);
    if FromConnectingKey(r, o).Go? {
      NegotiatingKeyLeaks(FromConnectingKey(r, o).scan, o);
    }
  }

  // One call replaces at most one socket without closing it, and does so exactly when it
  // starts a scan over that still has one.
  lemma AdvanceLeaksIff(g: Settings, r: Scan, o: Answers)
    requires Shaped(r) && !r.complete
    ensures Advanced(g, r, o).leaked == r.leaked + if Armed(r) && Connects(g) then 1 else 0
  {
    hide FromStart;
    hide FromConnecting;
    hide FromNegotiating;
    hide KeyPhases;
    hide InOrder;
    hide Below;
    StartKeeps(g, r, o);
    StartLeaks(g, r, o);
    var a := FromStart(g, r, o);
    if a.Go? {
      ConnectingKeeps(g, a.scan, o);
      ConnectingLeaks(g, a.scan, o);
      var b := FromConnecting(g, a.scan, o);
      if b.Go? {
        NegotiatingKeeps(b.scan, o);
        NegotiatingLeaks(b.scan, o);
        var c := FromNegotiating(b.scan, o);
        if c.Go? {
          KeyPhasesLeak(c.scan, o);
        }
      }
    }
  }

  // Whether a call gets to asking what the other side offers.
  predicate Negotiates(g: Settings, r: Scan, o: Answers) {
    var a := FromStart(g, r, o);
    a.Go? && FromConnecting(g, a.scan, o).Go? && FromConnecting(g, a.scan, o).scan.state == NEGOTIATING_INIT
  }

  predicate StartsAtOnce(g: Settings, r: Scan, o: Answers) { r.state == START && Connects(g) && o.startConnect.Immediate? }

  predicate RetriesAtOnce(o: Answers) { o.negotiated && o.sshError && !o.timedOut && o.retryConnect.Immediate? }

  lemma StartArms(g: Settings, r: Scan, o: Answers)
    ensures FromStart(g, r, o).Go? && FromStart(g, r, o).scan.state == START <==> StartsAtOnce(g, r, o)
    ensures StartsAtOnce(g, r, o) ==> Armed(FromStart(g, r, o).scan)
  {
  }

  lemma ConnectingArms(g: Settings, r: Scan, o: Answers)
    ensures var x := FromConnecting(g, r, o);
            && (r.state == START ==> x == Go(r))
            && (x.Return? ==> !Armed(x.scan)) && (x.Go? ==> (x.scan.state == START <==> r.state == START))
  {
  }

  lemma NegotiatingArms(r: Scan, o: Answers)
    ensures var x := FromNegotiating(r, o);
            && (r.state == START ==> x == Go(r))
            && (r.state != START && x.Go? ==> x.scan.state != START)
            && (x.Return? ==> (Armed(x.scan) <==> RetriesAtOnce(o)))
            && (r.state == NEGOTIATING_INIT && RetriesAtOnce(o) ==> x.Return?)
            && (x.Return? ==> r.state == NEGOTIATING_INIT)
  {
  }

  // When a call leaves a scan so: a connect succeeded at once, on starting or after a
  // failed negotiation.
  lemma ArmedIff(g: Settings, r: Scan, o: Answers)
    requires Shaped(r) && !r.complete
    ensures Armed(Advanced(g, r, o)) <==> StartsAtOnce(g, r, o) || (Negotiates(g, r, o) && RetriesAtOnce(o))
  {
    hide FromStart;
    hide FromConnecting;
    hide FromNegotiating;
    hide KeyPhases;
    hide InOrder;
    hide Below;
    hide StartsAtOnce;
    hide RetriesAtOnce;
    StartKeeps(g, r, o);
    StartLeaks(g, r, o);
    StartArms(g, r, o);
    var a := FromStart(g, r, o);
    if a.Go? {
      ConnectingKeeps(g, a.scan, o);
      ConnectingArms(g, a.scan, o);
      var b := FromConnecting(g, a.scan, o);
      if b.Go? {
        NegotiatingKeeps(b.scan, o);
        NegotiatingArms(b.scan, o);
        var c := FromNegotiating(b.scan, o);
        if c.Go? {
          KeyPhasesLeak(c.scan, o);
        }
      }
    }
  }

  // A scan that has a socket, or is on its way, has been started.
  predicate Begun(g: Settings, r: Scan) { r.sock || (r.state != START && r.state != COMPLETE) ==> Connects(g) }

  lemma StaysBegun(g: Settings, r: Scan, o: Answers)
    requires Shaped(r) && !r.complete && Begun(g, r)
    ensures Begun(g, Advanced(g, r, o))
  {
    hide InOrder;
    hide Below;
  }

  // The i-th call met a scan in START with a socket.
  predicate ArmedAt(g: Settings, r: Scan, answers: seq<Answers>, i: nat)
    requires Shaped(r) && i <= |answers|
  {
    Armed(After(g, r, answers[..i]))
  }

  lemma ArmedLater(g: Settings, r: Scan, answers: seq<Answers>, i: nat)
    requires Shaped(r) && !r.complete && i < |answers|
    ensures Shaped(Advanced(g, r, answers[0]))
    ensures ArmedAt(g, r, answers, i + 1) == ArmedAt(g, Advanced(g, r, answers[0]), answers[1..], i)
  {
    AdvanceKeepsShape(g, r, answers[0]);
    hide Advanced;
    assert answers[..i + 1][0] == answers[0] && answers[..i + 1][1..] == answers[1..][..i];
  }

  lemma {:induction false} LeaksIff(g: Settings, r: Scan, answers: seq<Answers>)
    requires Shaped(r) && Begun(g, r)
    ensures var r' := After(g, r, answers);
            r'.leaked >= r.leaked && (r'.leaked > r.leaked <==> exists i :: 0 <= i < |answers| && ArmedAt(g, r, answers, i))
    decreases |answers|
  {
    assert answers != [] ==> answers[..0] == [];
    if answers == [] {
    } else if r.complete {
      forall i | 0 <= i < |answers| ensures !ArmedAt(g, r, answers, i) {
      }
    } else {
      var r1 := Advanced(g, r, answers[0]);
      AdvanceKeepsShape(g, r, answers[0]);
      AdvanceLeaksIff(g, r, answers[0]);
      StaysBegun(g, r, answers[0]);
      LeaksIff(g, r1, answers[1..]);
      hide Advanced;
      hide Shaped;
      assert ArmedAt(g, r, answers, 0) == Armed(r);
      forall i: nat | i < |answers| - 1 ensures ArmedAt(g, r, answers, i + 1) == ArmedAt(g, r1, answers[1..], i) {
        ArmedLater(g, r, answers, i);
      }
      if i :| 0 <= i < |answers| && ArmedAt(g, r, answers, i) {
        if i > 0 {
          assert ArmedAt(g, r1, answers[1..], i - 1);
        }
      }
      if i :| 0 <= i < |answers| - 1 && ArmedAt(g, r1, answers[1..], i) {
        assert ArmedAt(g, r, answers, i + 1);
      }
    }
  }

  function OpenSockets(r: Scan): nat { r.leaked + if r.sock then 1 else 0 }

  // A complete scan has closed every socket it opened exactly when none of its calls met
  // it in START with a socket.
  lemma CompleteScansCloseAllIff(g: Settings, answers: seq<Answers>)
    ensures var r := After(g, NewScan(), answers);
            r.complete ==> (OpenSockets(r) == 0 <==> forall i :: 0 <= i < |answers| ==> !ArmedAt(g, NewScan(), answers, i))
  {
    LeaksIff(g, NewScan(), answers);
  }

  // Such a scan: the first connect succeeds at once, and the next call connects again.
  lemma ImmediateConnectLeaks(g: Settings, first: Answers, second: Answers)
    requires Connects(g) && first.startConnect.Immediate?
    ensures After(g, NewScan(), [first, second]).leaked == 1
  {
    ArmedIff(g, NewScan(), first);
    AdvanceLeaksIff(g, NewScan(), first);
    var r := Advanced(g, NewScan(), first);
    AdvanceKeepsShape(g, NewScan(), first);
    assert !r.complete;
    AdvanceLeaksIff(g, r, second);
    AdvanceKeepsShape(g, r, second);
    assert [first, second][1..] == [second] && [second][1..] == [];
    assert After(g, r, [second]) == Advanced(g, r, second);
  }
}
