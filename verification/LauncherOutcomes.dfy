/**
 What every kind of turn of the launcher comes to, and that launching ends: an attempt that
 times out, whose scan fails, or whose machine raises is over, and there are only so many.
 */
module LauncherOutcomes {
  import opened Wrappers
  import opened Launcher
  import opened LauncherRuns

  // ---------------------------------------------------------------- how an attempt ends

  // What the node is known by once an exception has been looked at.
  function KnownAs(l: Launcher): ExternalId {
    if l.machine.Some? && l.machine.value.external != {} then l.machine.value.external else l.external
  }

  // The attempt has failed: the handler stores the id, if there is one; then the node has
  // FAILED if attempts are used up, and otherwise what was made is to be deleted and the
  // next attempt begins, with a new machine unless the restart raises.
  predicate AttemptOver(l: Launcher, t: Turn, l1: Launcher, raised: bool) {
    var stores := l.machine.Some? && l.machine.value.external != {};
    if stores && t.handlerStore.Some? then
      raised && l1 == l.(external := KnownAs(l))
    else
      && l1.external == KnownAs(l) && l1.scan.None? && l1.retries == l.retries && l1.start == l.start
      && if l.attempts >= l.retries then
           && !raised && l1.state.FAILED? && l1.attempts == l.attempts && l1.machine == l.machine
           && l1.deleter == l.deleter && (stores ==> l1.stored == l.state)
         else
           && l1.state == l.state && l1.attempts == l.attempts + 1 && l1.deleter == Some(Deleter(KnownAs(l), false))
           && (raised <==> t.restart.RestartRaises?)
           && l1.machine == if raised then l.machine else Some(Machine(l.attempts + 1, {}, false))
  }

  // The cloud has no room: the node is aborted for good, which counts as no attempt.
  predicate Aborted(l: Launcher, t: Turn, l1: Launcher, raised: bool) {
    && l1.state.ABORTED? && l1.attempts == l.attempts && l1.machine == l.machine && l1.deleter == l.deleter
    && (l.machine.Some? ==> l1.external == l.machine.value.external)
    && (raised <==> t.handlerStore.Some?)
    && (if raised then l1.stored == l.stored else l1.stored.ABORTED? && l1.scan.None?)
  }

  // The session is gone, and with it the node's lock: nothing is stored.
  predicate SessionLost(l: Launcher, l1: Launcher, raised: bool) {
    && !raised && l1.state.FAILED? && l1.stored == l.stored && l1.attempts == l.attempts && l1.scan.None?
    && (l.machine.Some? ==> l1.external == l.machine.value.external)
  }

  predicate EndsBy(l: Launcher, e: Raised, t: Turn, l1: Launcher, raised: bool) {
    match e
    case Other => AttemptOver(l, t, l1, raised)
    case Quota => Aborted(l, t, l1, raised)
    case SessionExpired => SessionLost(l, l1, raised)
  }

  // Before there is a create machine.
  lemma BeforeTheMachine(l: Launcher, t: Turn)
    requires l.machine.None?
    ensures var (l1, raised) := AfterTurn(l, t);
            match l.start
            case Pending => l1 == l && !raised
            case Finished(failure) => EndsBy(l, if failure.Some? then failure.value else Other, t, l1, raised)
  {
  }

  // There is a machine, and its scan has no result yet.
  predicate Waits(l: Launcher) { l.machine.Some? && !Scanned(l) }

  lemma TimedOutTurn(l: Launcher, t: Turn)
    requires Waits(l) && t.timedOut
    ensures var (l1, raised) := AfterTurn(l, t); AttemptOver(l, t, l1, raised)
  {
  }

  lemma FailedScanTurn(l: Launcher, t: Turn)
    requires Scanned(l) && !l.scan.value.result.value
    ensures var (l1, raised) := AfterTurn(l, t); AttemptOver(l, t, l1, raised)
  {
  }

  // A scan with a result makes the node READY; only the write of it can go wrong.
  lemma SuccessfulScanTurn(l: Launcher, t: Turn)
    requires Scanned(l) && l.scan.value.result.value
    ensures var (l1, raised) := AfterTurn(l, t);
            if t.readyStore.None? then !raised && l1 == l.(state := READY, stored := READY)
            else EndsBy(l.(state := READY), t.readyStore.value, t, l1, raised)
  {
  }

  // ---------------------------------------------------------------- deleting first

  // The create machine advances exactly when there is nothing left to delete: there never
  // was, the delete machine was complete the turn before, or it finds nothing.
  lemma AdvancesIff(l: Launcher, t: Turn)
    ensures Advances(l, t) <==>
              && Waits(l) && !t.timedOut
              && (l.deleter.None? || l.deleter.value.complete || l.deleter.value.external == {} || t.deletion.NotFound?)
  {
  }

  // Until then a turn that does not time out touches nothing but the delete machine, which
  // goes on deleting the same resources until the cloud says that they are gone.
  lemma DeletingTurn(l: Launcher, t: Turn)
    requires Waits(l) && !t.timedOut && !Advances(l, t)
    ensures var (l1, raised) := AfterTurn(l, t);
            && !raised && l1 == l.(deleter := Some(Deleter(l.deleter.value.external, t.deletion.Completes?)))
  {
  }

  // ---------------------------------------------------------------- advancing

  // The launcher once the create machine has advanced, before anything is made of it.
  function Moved(l: Launcher, t: Turn): Launcher
    requires l.machine.Some?
  {
    var m := l.machine.value;
    l.(deleter := None, machine := Some(Machine(m.attempt, m.external + t.advance.made, m.complete || t.advance.completes)))
  }

  lemma RaisingAdvance(l: Launcher, t: Turn)
    requires Advances(l, t) && t.advance.raised.Some?
    ensures var (l1, raised) := AfterTurn(l, t); EndsBy(Moved(l, t), t.advance.raised.value, t, l1, raised)
  {
  }

  // Nothing raises: the id is recorded and stored as soon as there is one, the scan is
  // submitted, once, as soon as the machine is complete.
  lemma QuietAdvance(l: Launcher, t: Turn)
    requires Advances(l, t) && t.advance.raised.None? && t.idStore.None? && t.updateStore.None?
    ensures var (l1, raised) := AfterTurn(l, t); var m1 := Moved(l, t).machine.value;
            var completed := m1.complete && l.scan.None?;
            && !raised && l1.machine == Some(m1) && l1.deleter.None?
            && l1.state == l.state && l1.attempts == l.attempts
            && l1.scan == (if completed then Some(Scan(l.attempts, None)) else l.scan)
            && (m1.external != {} ==> l1.external != {})
            && l1.external == (if l.external == {} || (completed && t.advance.instance) then m1.external else l.external)
            && (l1.external != l.external ==> l1.stored == l.state)
  {
  }

  // A write that raises on the way ends the attempt, abandons the node or gives up, as the
  // exception says, with the id already recorded.
  lemma RaisingIdStore(l: Launcher, t: Turn)
    requires Advances(l, t) && t.advance.raised.None?
    requires l.external == {} && Moved(l, t).machine.value.external != {} && t.idStore.Some?
    ensures var (l1, raised) := AfterTurn(l, t); var moved := Moved(l, t);
            EndsBy(moved.(external := moved.machine.value.external), t.idStore.value, t, l1, raised)
  {
  }

  lemma RaisingUpdate(l: Launcher, t: Turn)
    requires Advances(l, t) && t.advance.raised.None? && l.external != {}
    requires Moved(l, t).machine.value.complete && l.scan.None? && t.advance.instance && t.updateStore.Some?
    ensures var (l1, raised) := AfterTurn(l, t); var moved := Moved(l, t);
            EndsBy(moved.(external := moved.machine.value.external), t.updateStore.value, t, l1, raised)
  {
  }

  // ---------------------------------------------------------------- it ends

  predicate Raises(l: Launcher, t: Turn) { AfterTurn(l, t).1 }

  // Every turn of the run times out without raising; between them the cloud may lose things.
  predicate TimesOut(s: System, st: Step) { st.Lose? || (st.Run? && st.turn.timedOut && !Raises(s.l, st.turn)) }

  predicate AllTimeOut(s: System, steps: seq<Step>)
    requires Runs(s, steps)
    decreases |steps|
  {
    steps == [] || (TimesOut(s, steps[0]) && AllTimeOut(Apply(s, steps[0]), steps[1..]))
  }

  function Turns(steps: seq<Step>): nat {
    if steps == [] then 0 else (if steps[0].Run? then 1 else 0) + Turns(steps[1..])
  }

  // Each such turn uses up an attempt, and the last one leaves the node FAILED, after which
  // the launcher is not called any more.
  lemma {:induction false} TimeoutsEnd(s: System, steps: seq<Step>)
    requires Runs(s, steps) && AllTimeOut(s, steps) && s.running && s.l.state.BUILDING? && Waits(s.l)
    ensures var left := if s.l.attempts < s.l.retries then s.l.retries - s.l.attempts else 0; var s' := After(s, steps);
            && Turns(steps) <= left + 1
            && (Turns(steps) == left + 1 ==> s'.l.state.FAILED? && !s'.running)
            && (Turns(steps) <= left ==> s'.running && s'.l.state.BUILDING? && s'.l.attempts == s.l.attempts + Turns(steps))
    decreases |steps|
  {
    hide AfterTurn;
    if steps != [] {
      var s1 := Apply(s, steps[0]);
      if steps[0].Run? {
        TimedOutTurn(s.l, steps[0].turn);
        if s.l.attempts >= s.l.retries {
          GivenUp(s1, steps[1..]);
        } else {
          TimeoutsEnd(s1, steps[1..]);
        }
      } else {
        TimeoutsEnd(s1, steps[1..]);
      }
    }
  }

  lemma {:induction false} GivenUp(s: System, steps: seq<Step>)
    requires Runs(s, steps) && AllTimeOut(s, steps) && !s.running
    ensures Turns(steps) == 0 && After(s, steps).l == s.l && !After(s, steps).running
    decreases |steps|
  {
    if steps != [] {
      GivenUp(Apply(s, steps[0]), steps[1..]);
    }
  }

  // From any reachable state: at most max(1, retries) such turns.
  lemma LaunchingEnds(retries: nat, before: seq<Step>, steps: seq<Step>)
    requires Runs(Initial(retries), before)
    requires var s := After(Initial(retries), before); s.running && s.l.state.BUILDING? && Waits(s.l) && Runs(s, steps) && AllTimeOut(s, steps)
    ensures Turns(steps) <= if retries > 1 then retries else 1
  {
    var s := After(Initial(retries), before);
    TimeoutsEnd(s, steps);
    AttemptsAreBounded(retries, before);
    RetriesAreFixed(Initial(retries), before);
  }
}
