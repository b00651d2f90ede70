/** What a host key scan comes to: which keys it returns, and when it gives up. */
module NodescanOutcomes {
  import opened Wrappers
  import opened Nodescan

  // ---------------------------------------------------------------- starting

  // Nobody asks for keys, or there is nobody to ask: the first call settles it.
  lemma StartSettles(g: Settings, r: Scan, o: Answers)
    requires Shaped(r) && r.state == START && !r.complete && !Connects(g)
    ensures var r' := Advanced(g, r, o);
            && r'.complete && !r'.sock && !r'.transport
            && (r'.failed <==> r.failed || !g.registered)
            && r'.keys == if g.registered && g.hostKeyChecking && g.gatherHostkeys then ["ssh-rsa FAKEKEY"] else r.keys
  {
  }

  // The first connection succeeds and keys are not wanted: that is all there was to check.
  lemma ConnectionIsEnough(g: Settings, r: Scan, o: Answers)
    requires Shaped(r) && r.state == CONNECTING_INIT && !r.complete && o.ready && !o.errno && !g.gatherHostkeys
    ensures var r' := Advanced(g, r, o); r'.complete && r'.failed == r.failed && r'.keys == r.keys
  {
    hide InOrder;
    hide Below;
  }

  // ---------------------------------------------------------------- waiting

  // What a scan waits for has not come.
  predicate NothingComes(r: Scan, o: Answers) {
    match r.state
    case CONNECTING_INIT => !o.ready
    case NEGOTIATING_INIT => !o.negotiated
    case CONNECTING_KEY => !o.ready
    case NEGOTIATING_KEY => !o.keyNegotiated
    case _ => false
  }

  // Then it waits on, starts over if a first connection takes too long, and fails once its
  // time is up.
  lemma WaitingIs(g: Settings, r: Scan, o: Answers)
    requires Shaped(r) && !r.complete && NothingComes(r, o)
    ensures Advanced(g, r, o)
            == if o.timedOut then r.(sock := false, transport := false, complete := true, state := COMPLETE, failed := true)
               else if r.state == CONNECTING_INIT && o.slow then r.(sock := false, transport := false, state := START)
               else r
  {
    hide InOrder;
    hide Below;
  }

  // A first connection that is refused, or a first negotiation that breaks, starts over,
  // unless the time is up.
  lemma RefusedStartsOver(g: Settings, r: Scan, o: Answers)
    requires Shaped(r) && !r.complete && r.state == CONNECTING_INIT && o.ready && o.errno
    ensures var r' := Advanced(g, r, o);
            if o.timedOut then r'.complete && r'.failed
            else r' == r.(sock := false, transport := false, state := START)
  {
    hide InOrder;
    hide Below;
  }

  lemma BrokenNegotiationStartsOver(g: Settings, r: Scan, o: Answers)
    requires Shaped(r) && !r.complete && r.state == NEGOTIATING_INIT && o.negotiated && o.sshError
    ensures var r' := Advanced(g, r, o);
            if o.timedOut || o.retryConnect.ConnectRaises? then r'.complete && r'.failed
            else !r'.complete && r'.sock && !r'.transport && r'.state == if o.retryConnect.Blocks? then CONNECTING_INIT else START
  {
    hide InOrder;
    hide Below;
  }

  // ---------------------------------------------------------------- one key type

  // The connection for the current key type is negotiated in this call.
  predicate Negotiated(r: Scan, o: Answers) {
    && (r.state == NEGOTIATING_KEY || (r.state == CONNECTING_KEY && o.ready && !o.keyErrno && !o.keyStartRaises))
    && o.keyNegotiated
  }

  // One call for a key type: its key is recorded exactly if the negotiation succeeds and
  // there is one, and it is the key the other side has; the scan moves on to the next type
  // exactly if the connection was refused or negotiated, for better or worse.
  lemma KeyTypeIs(r: Scan, o: Answers)
    requires Shaped(r) && !r.complete && ByKey(r)
    ensures var x := KeyPhases(r, o);
            var got := Negotiated(r, o) && !o.keySshError && o.remoteKey.Some?;
            var movesOn := Negotiated(r, o) || (r.state == CONNECTING_KEY && o.ready && o.keyErrno);
            && x.scan.keys == (if got then r.keys + [o.remoteKey.value] else r.keys)
            && x.scan.sources == (if got then r.sources + [r.index] else r.sources)
            && x.scan.index == (if movesOn then r.index + 1 else r.index)
  {
    ConnectingKeyIs(r, o);
    var d := FromConnectingKey(r, o);
    if d.Go? {
      NegotiatingKeyIs(d.scan, o);
    }
    hide FromConnectingKey;
    hide FromNegotiatingKey;
  }

  lemma NextKeyIs(r: Scan, c: Connect)
    requires r.keyTypes.Some?
    ensures var x := NextKey(r, c);
            x.scan.keys == r.keys && x.scan.sources == r.sources && x.scan.index == r.index + 1 && !x.Return?
            && (x.Go? ==> x.scan.state == CONNECTING_KEY || x.scan.state == COMPLETE)
  {
  }

  lemma ConnectingKeyIs(r: Scan, o: Answers)
    requires r.keyTypes.Some? && ByKey(r)
    ensures var x := FromConnectingKey(r, o);
            && x.scan.keys == r.keys && x.scan.sources == r.sources && x.scan.keyTypes == r.keyTypes
            && x.scan.index == (if r.state == CONNECTING_KEY && o.ready && o.keyErrno then r.index + 1 else r.index)
            && (x.Go? <==> r.state == NEGOTIATING_KEY || (o.ready && !o.keyErrno && !o.keyStartRaises))
            && (x.Go? ==> x.scan.state == NEGOTIATING_KEY)
  {
    NextKeyIs(r, o.nextConnect);
    hide NextKey;
  }

  lemma NegotiatingKeyIs(r: Scan, o: Answers)
    requires r.keyTypes.Some? && r.state == NEGOTIATING_KEY
    ensures var x := FromNegotiatingKey(r, o);
            var got := o.keyNegotiated && !o.keySshError && o.remoteKey.Some?;
            && x.scan.keys == (if got then r.keys + [o.remoteKey.value] else r.keys)
            && x.scan.sources == (if got then r.sources + [r.index] else r.sources)
            && x.scan.index == (if o.keyNegotiated then r.index + 1 else r.index)
  {
    NextKeyIs(r, o.nextConnect);
    if o.remoteKey.Some? {
      NextKeyIs(r.(keys := r.keys + [o.remoteKey.value], sources := r.sources + [r.index]), o.nextConnect);
    }
    hide NextKey;
  }

  // ---------------------------------------------------------------- where keys come from

  // Every key of a scan is the fake one, or one that some answer had.
  predicate Offered(key: string, answers: seq<Answers>) {
    key == "ssh-rsa FAKEKEY" || exists i :: 0 <= i < |answers| && answers[i].remoteKey == Some(key)
  }

  lemma AdvanceAddsOffered(g: Settings, r: Scan, o: Answers)
    requires Shaped(r) && !r.complete
    ensures var keys := Advanced(g, r, o).keys;
            keys == r.keys || keys == ["ssh-rsa FAKEKEY"] || (o.remoteKey.Some? && keys == r.keys + [o.remoteKey.value])
  {
    hide FromStart;
    hide FromConnecting;
    hide FromNegotiating;
    hide KeyPhases;
    hide InOrder;
    hide Below;
    StartKeeps(g, r, o);
    StartAdds(g, r, o);
    var a := FromStart(g, r, o);
    if a.Go? {
      ConnectingKeeps(g, a.scan, o);
      ConnectingAdds(g, a.scan, o);
      var b := FromConnecting(g, a.scan, o);
      if b.Go? {
        NegotiatingKeeps(b.scan, o);
        NegotiatingAdds(b.scan, o);
        var c := FromNegotiating(b.scan, o);
        if c.Go? {
          if ByKey(c.scan) {
            KeyTypeIs(c.scan, o);
          } else {
            KeyPhasesLeak(c.scan, o);
          }
        }
      }
    }
  }

  lemma StartAdds(g: Settings, r: Scan, o: Answers)
    ensures var x := FromStart(g, r, o);
            x.scan.keys == r.keys || (x.scan.keys == ["ssh-rsa FAKEKEY"] && x.Go? && x.scan.state == COMPLETE)
  {
  }

  lemma ConnectingAdds(g: Settings, r: Scan, o: Answers)
    ensures FromConnecting(g, r, o).scan.keys == r.keys
    ensures r.state == COMPLETE ==> FromConnecting(g, r, o) == Go(r)
  {
  }

  lemma NegotiatingAdds(r: Scan, o: Answers)
    ensures FromNegotiating(r, o).scan.keys == r.keys
    ensures r.state == COMPLETE ==> FromNegotiating(r, o) == Go(r)
  {
  }

  lemma {:induction false} KeysAreOffered(g: Settings, r: Scan, answers: seq<Answers>, seen: seq<Answers>)
    requires Shaped(r) && forall i :: 0 <= i < |r.keys| ==> Offered(r.keys[i], seen)
    ensures var r' := After(g, r, answers); forall i :: 0 <= i < |r'.keys| ==> Offered(r'.keys[i], seen + answers)
    decreases |answers|
  {
    hide Advanced;
    hide Shaped;
    if answers == [] || r.complete {
      forall i | 0 <= i < |r.keys| ensures Offered(r.keys[i], seen + answers) {
        StillOffered(r.keys[i], seen, answers);
      }
    } else {
      var r1, o := Advanced(g, r, answers[0]), answers[0];
      AdvanceKeepsShape(g, r, o);
      AdvanceAddsOffered(g, r, o);
      forall i | 0 <= i < |r1.keys| ensures Offered(r1.keys[i], seen + [o]) {
        assert (seen + [o])[|seen|] == o;
        if i < |r.keys| {
          StillOffered(r.keys[i], seen, [o]);
        }
      }
      KeysAreOffered(g, r1, answers[1..], seen + [o]);
      assert seen + [o] + answers[1..] == seen + answers;
      var r' := After(g, r, answers);
      assert r' == After(g, r1, answers[1..]);
      forall i | 0 <= i < |r'.keys| ensures Offered(r'.keys[i], seen + answers) {
      }
    }
  }

  lemma StillOffered(key: string, seen: seq<Answers>, more: seq<Answers>)
    requires Offered(key, seen)
    ensures Offered(key, seen + more)
  {
    if i :| 0 <= i < |seen| && seen[i].remoteKey == Some(key) {
      assert (seen + more)[i] == seen[i];
    }
  }

  lemma ScansReturnOfferedKeys(g: Settings, answers: seq<Answers>)
    ensures var r := After(g, NewScan(), answers); forall i :: 0 <= i < |r.keys| ==> Offered(r.keys[i], answers)
  {
    KeysAreOffered(g, NewScan(), answers, []);
    assert [] + answers == answers;
  }

  // ---------------------------------------------------------------- a scan without trouble

  // A call in which nothing is late and nothing goes wrong.
  predicate Smooth(o: Answers) {
    && o.ready && !o.errno && !o.startRaises && o.negotiated && !o.sshError && o.startConnect.Blocks? && o.firstConnect.Blocks?
    && !o.keyErrno && !o.keyStartRaises && o.keyNegotiated && !o.keySshError && o.remoteKey.Some? && o.nextConnect.Blocks?
  }

  function Remote(answers: seq<Answers>): seq<string>
    requires forall i :: 0 <= i < |answers| ==> Smooth(answers[i])
  {
    if answers == [] then []
    else
      assert Smooth(answers[0]);
      [answers[0].remoteKey.value] + Remote(answers[1..])
  }

  lemma SmoothKeyGives(g: Settings, r: Scan, o: Answers)
    requires Shaped(r) && !r.complete && ByKey(r) && Smooth(o)
    ensures var r' := Advanced(g, r, o); r'.keys == r.keys + [o.remoteKey.value] && r'.keyTypes == r.keyTypes && r'.failed == r.failed
  {
    hide InOrder;
    hide Below;
  }

  lemma SmoothKeyGoesOn(g: Settings, r: Scan, o: Answers)
    requires Shaped(r) && !r.complete && ByKey(r) && Smooth(o)
    ensures var r' := Advanced(g, r, o);
            r'.index == r.index + 1 && if r.index + 1 < |r.keyTypes.value| then !r'.complete && ByKey(r') else r'.complete
  {
    hide InOrder;
    hide Below;
  }

  lemma SmoothKey(g: Settings, r: Scan, o: Answers)
    requires Shaped(r) && !r.complete && ByKey(r) && Smooth(o)
    ensures var r' := Advanced(g, r, o);
            && r'.keys == r.keys + [o.remoteKey.value] && r'.keyTypes == r.keyTypes && r'.failed == r.failed && r'.index == r.index + 1
            && (if r.index + 1 < |r.keyTypes.value| then !r'.complete && ByKey(r') else r'.complete)
  {
    SmoothKeyGives(g, r, o);
    SmoothKeyGoesOn(g, r, o);
    hide Advanced;
  }

  lemma {:induction false} SmoothKeys(g: Settings, r: Scan, answers: seq<Answers>)
    requires Shaped(r) && !r.complete && ByKey(r) && |answers| == |r.keyTypes.value| - r.index
    requires forall i :: 0 <= i < |answers| ==> Smooth(answers[i])
    ensures var r' := After(g, r, answers); r'.complete && r'.failed == r.failed && r'.keys == r.keys + Remote(answers)
    decreases |answers|
  {
    var o, rest := answers[0], answers[1..];
    SmoothKey(g, r, o);
    AdvanceKeepsShape(g, r, o);
    var r1 := Advanced(g, r, o);
    hide Advanced;
    hide Shaped;
    assert Remote(answers) == [o.remoteKey.value] + Remote(rest);
    if rest != [] {
      SmoothKeys(g, r1, rest);
      assert r1.keys + Remote(rest) == r.keys + Remote(answers);
    } else {
      assert After(g, r1, rest) == r1;
      assert r.keys + Remote(answers) == r.keys + [o.remoteKey.value];
    }
  }

  lemma SmoothStart(g: Settings, o: Answers)
    requires Connects(g) && g.gatherHostkeys && Smooth(o)
    ensures var r' := Advanced(g, NewScan(), o);
            && r'.keyTypes == Some(o.offered) && !r'.failed
            && if o.offered == [] then r'.complete && r'.keys == []
               else r'.keys == [o.remoteKey.value] && r'.index == 1 && if |o.offered| == 1 then r'.complete else !r'.complete && ByKey(r')
  {
  }

  // Then a scan takes a call per offered key type and returns the key of each, in order.
  lemma SmoothScan(g: Settings, answers: seq<Answers>)
    requires Connects(g) && g.gatherHostkeys && answers != [] && |answers| == |answers[0].offered|
    requires forall i :: 0 <= i < |answers| ==> Smooth(answers[i])
    ensures var r := After(g, NewScan(), answers); r.complete && !r.failed && r.keys == Remote(answers)
  {
    var o, rest := answers[0], answers[1..];
    SmoothStart(g, o);
    AdvanceKeepsShape(g, NewScan(), o);
    var r1 := Advanced(g, NewScan(), o);
    hide Advanced;
    hide Shaped;
    assert Remote(answers) == [o.remoteKey.value] + Remote(rest);
    if rest != [] {
      SmoothKeys(g, r1, rest);
    } else {
      assert After(g, r1, rest) == r1;
    }
    assert After(g, NewScan(), answers) == After(g, r1, rest);
  }
}
