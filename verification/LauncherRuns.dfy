/** A launcher next to a cloud: what every run of it keeps. */
module LauncherRuns {
  import opened Wrappers
  import opened Launcher

  // live: the resources this launcher made that still exist; made: every resource it ever
  // made, with the attempt whose machine made it.  running: the runner still calls the
  // launcher, that is, no turn has ended normally with the node out of BUILDING.
  // restartRaised: the current attempt began with a startStateMachine that raised.
  datatype System = System(l: Launcher, live: set<Resource>, made: map<Resource, nat>, running: bool, restartRaised: bool)

  // StartEnds: FirstStartEnds of the launcher, in the thread pool.
  datatype Step =
    | StartEnds(raised: Option<Raised>)
    | ScanEnds(ok: bool)
    | Lose(gone: set<Resource>)
    | Run(turn: Turn)

  function Initial(retries: nat): System { System(NewLauncher(retries), {}, map[], true, false) }

  // What the adapter promises about one turn.
  predicate Honest(s: System, t: Turn) {
    && (Advances(s.l, t) ==> forall x :: x in t.advance.made ==> x !in s.made)
    && (Deletes(s.l, t) && s.l.deleter.Some? && (t.deletion.Completes? || t.deletion.NotFound?) ==>
          s.l.deleter.value.external !! s.live)
  }

  predicate Enabled(s: System, st: Step) {
    match st
    case StartEnds(_) => s.l.start.Pending?
    case ScanEnds(_) => s.l.scan.Some? && s.l.scan.value.result.None?
    case Lose(_) => true
    case Run(t) => s.running && Honest(s, t)
  }

  function Apply(s: System, st: Step): System
    requires Enabled(s, st)
  {
    match st
    case StartEnds(raised) => s.(l := Started(s.l, raised))
    case ScanEnds(ok) => s.(l := s.l.(scan := Some(s.l.scan.value.(result := Some(ok)))))
    case Lose(gone) => s.(live := s.live - gone)
    case Run(t) =>
      var (l1, raised) := AfterTurn(s.l, t);
      var added := if Advances(s.l, t) then t.advance.made else {};
      System(l1, s.live + added,
             map x | x in s.made.Keys + added :: if x in added then s.l.machine.value.attempt else s.made[x],
             raised || l1.state.BUILDING?,
             if l1.attempts != s.l.attempts then raised else s.restartRaised)
  }

  predicate Runs(s: System, steps: seq<Step>)
    decreases |steps|
  {
    steps == [] || (Enabled(s, steps[0]) && Runs(Apply(s, steps[0]), steps[1..]))
  }

  function After(s: System, steps: seq<Step>): System
    requires Runs(s, steps)
    decreases |steps|
  {
    if steps == [] then s else After(Apply(s, steps[0]), steps[1..])
  }

  // ---------------------------------------------------------------- invariant

  predicate OfOneAttempt(s: System, xs: set<Resource>) {
    && (forall x :: x in xs ==> x in s.made)
    && (forall x, y :: x in xs && y in xs ==> s.made[x] == s.made[y])
  }

  predicate Unwinding(l: Launcher) { l.deleter.Some? && !l.deleter.value.complete }

  predicate LiveOk(s: System) {
    var l := s.l;
    && (l.machine.None? ==> s.live == {})
    && (if Unwinding(l) then
          && s.live <= l.deleter.value.external && l.deleter.value.external == l.external
          && (l.machine.Some? ==> l.machine.value.external == {} || l.machine.value.external == l.external)
        else l.machine.Some? ==> s.live <= l.machine.value.external)
    && (l.deleter.Some? && l.deleter.value.complete ==> s.live == {})
  }

  predicate AttemptsOk(s: System) {
    var l := s.l;
    && 1 <= l.attempts && (l.attempts == 1 || l.attempts <= l.retries)
    && (l.machine.Some? ==> l.machine.value.attempt <= l.attempts && (l.machine.value.attempt == l.attempts <==> !s.restartRaised))
    && (l.start.Pending? ==> l.machine.None? && l.attempts == 1 && !s.restartRaised && l.deleter.None?)
    && (l.scan.Some? ==> l.machine.Some? && l.machine.value.complete && l.scan.value.attempt == l.attempts && l.deleter.None?)
  }

  predicate MadeOk(s: System) {
    && OfOneAttempt(s, s.l.external)
    && (s.l.machine.Some? ==>
          forall x :: x in s.l.machine.value.external ==> x in s.made && s.made[x] == s.l.machine.value.attempt)
  }

  predicate Inv(s: System) {
    && LiveOk(s) && AttemptsOk(s) && MadeOk(s)
    && !s.l.stored.FAILED? && (s.running ==> !s.l.state.FAILED?)
  }

  // ---------------------------------------------------------------- steps

  // s' is s with its launcher moved on by r.
  predicate Follows(s: System, r: (Launcher, bool), s': System) {
    && s'.l == r.0 && s'.live == s.live && s'.made == s.made
    && s'.running == (r.1 || r.0.state.BUILDING?)
    && s'.restartRaised == if r.0.attempts != s.l.attempts then r.1 else s.restartRaised
  }

  // A turn that ends in an except clause.  l is the launcher when the exception is raised.
  lemma HandleKeeps(s: System, e: Raised, t: Turn, s': System)
    requires Inv(s) && !s.l.start.Pending? && !s.l.state.FAILED?
    requires e.Other? || s.l.machine.None? || !Unwinding(s.l)
    requires Follows(s, Handle(s.l, e, t), s')
    ensures Inv(s')
  {
    hide Inv;
    hide Follows;
    hide Handle;
    if e.Other? {
      OtherKeeps(s, t, s');
    } else {
      EndKeeps(s, e, t, s');
    }
  }

  // The last except clause: store what the machine names, and retry.
  function Recorded(l: Launcher): Launcher {
    l.(external := if l.machine.Some? then l.machine.value.external else l.external, stored := l.state)
  }

  lemma RecordedKeeps(s: System)
    requires Inv(s) && s.l.machine.Some? && s.l.machine.value.external != {} && !s.l.state.FAILED?
    ensures Inv(s.(l := Recorded(s.l)))
  {
  }

  lemma RetryKeeps(s: System, t: Turn, s': System)
    requires Inv(s) && !s.l.start.Pending? && !s.l.state.FAILED?
    requires s.l.machine.Some? ==> s.l.machine.value.external == {} || s.l.machine.value.external == s.l.external
    requires Follows(s, Retry(s.l, t), s')
    ensures Inv(s')
  {
  }

  lemma OtherKeeps(s: System, t: Turn, s': System)
    requires Inv(s) && !s.l.start.Pending? && !s.l.state.FAILED?
    requires Follows(s, Handle(s.l, Other, t), s')
    ensures Inv(s')
  {
    hide Retry;
    var l := s.l;
    if l.machine.None? || l.machine.value.external == {} {
      RetryKeeps(s, t, s');
    } else {
      RecordedKeeps(s);
      if t.handlerStore.None? {
        RetryKeeps(s.(l := Recorded(l)), t, s');
      }
    }
  }

  // The clauses that give up.
  lemma EndKeeps(s: System, e: Raised, t: Turn, s': System)
    requires Inv(s) && !s.l.start.Pending? && !s.l.state.FAILED?
    requires !e.Other? && (s.l.machine.None? || !Unwinding(s.l))
    requires Follows(s, Handle(s.l, e, t), s')
    ensures Inv(s')
  {
  }

  // The system between the delete machine and the create machine of one turn, and after
  // the create machine has advanced.
  function Deleted(s: System, t: Turn): System { s.(l := DeleteTurn(s.l, t.deletion).0) }

  function Grown(s: System, t: Turn): System
    requires s.l.machine.Some?
  {
    var m := s.l.machine.value;
    s.(l := s.l.(machine := Some(Machine(m.attempt, m.external + t.advance.made, m.complete || t.advance.completes))),
       live := s.live + t.advance.made,
       made := map x | x in s.made.Keys + t.advance.made :: if x in t.advance.made then m.attempt else s.made[x])
  }

  lemma DeletedKeeps(s: System, t: Turn)
    requires Inv(s) && Honest(s, t) && Deletes(s.l, t)
    ensures Inv(Deleted(s, t)) && (DeleteTurn(s.l, t.deletion).1 ==> Deleted(s, t).l.deleter.None?)
  {
  }

  lemma GrownKeeps(s: System, t: Turn)
    requires Inv(s) && s.l.machine.Some? && s.l.deleter.None? && !s.l.start.Pending?
    requires forall x :: x in t.advance.made ==> x !in s.made
    ensures Inv(Grown(s, t))
  {
    assert s.l.machine.value.external <= Grown(s, t).l.machine.value.external;
  }

  // The node takes over the machine's external id.
  lemma NamedKeeps(s: System, stored: NodeState)
    requires Inv(s) && s.l.machine.Some? && s.l.deleter.None? && !stored.FAILED?
    ensures Inv(s.(l := s.l.(external := s.l.machine.value.external, stored := stored)))
  {
  }

  lemma SubmitKeeps(s: System, t: Turn, s': System)
    requires Inv(s) && s.l.machine.Some? && s.l.deleter.None? && !s.l.start.Pending? && !s.l.state.FAILED?
    requires Follows(s, Submit(s.l, t), s')
    ensures Inv(s')
  {
    var m := s.l.machine.value;
    if m.complete && s.l.scan.None? && t.advance.instance {
      NamedKeeps(s, if t.updateStore.None? then s.l.state else s.l.stored);
      if t.updateStore.Some? {
        HandleKeeps(s.(l := s.l.(external := m.external)), t.updateStore.value, t, s');
      }
    }
  }

  lemma AdvancedKeeps(s: System, t: Turn, s': System)
    requires Inv(s) && s.l.machine.Some? && s.l.deleter.None? && !s.l.start.Pending? && !s.l.state.FAILED?
    requires forall x :: x in t.advance.made ==> x !in s.made
    requires Follows(Grown(s, t), Advanced(s.l, t), s')
    ensures Inv(s')
  {
    hide Inv;
    GrownKeeps(s, t);
    var g := Grown(s, t);
    var m := g.l.machine.value;
    if t.advance.raised.Some? {
      HandleKeeps(g, t.advance.raised.value, t, s');
    } else if g.l.external == {} && m.external != {} {
      var named := g.(l := g.l.(external := m.external, stored := if t.idStore.None? then g.l.state else g.l.stored));
      StoredIsNotFailed(g);
      NamedKeeps(g, named.l.stored);
      if t.idStore.Some? {
        HandleKeeps(named, t.idStore.value, t, s');
      } else {
        SubmitKeeps(named, t, s');
      }
    } else {
      SubmitKeeps(g, t, s');
    }
  }

  lemma StoredIsNotFailed(s: System)
    requires Inv(s)
    ensures !s.l.stored.FAILED?
  {
  }

  lemma RunKeeps(s: System, t: Turn)
    requires Inv(s) && s.running && Honest(s, t)
    ensures Inv(Apply(s, Run(t)))
  {
    var s' := Apply(s, Run(t));
    assert !Advances(s.l, t) ==> s'.live == s.live && s'.made == s.made;
    if s.l.machine.None? {
      if s.l.start.Finished? {
        HandleKeeps(s, if s.l.start.raised.Some? then s.l.start.raised.value else Other, t, s');
      }
    } else if Scanned(s.l) {
      if !s.l.scan.value.result.value {
        HandleKeeps(s, Other, t, s');
      } else if t.readyStore.Some? {
        HandleKeeps(s.(l := s.l.(state := READY)), t.readyStore.value, t, s');
      }
    } else if t.timedOut {
      HandleKeeps(s, Other, t, s');
    } else {
      DeletedKeeps(s, t);
      if DeleteTurn(s.l, t.deletion).1 {
        AdvancedKeeps(Deleted(s, t), t, s');
      }
    }
  }

  lemma StepKeepsInv(s: System, st: Step)
    requires Inv(s) && Enabled(s, st)
    ensures Inv(Apply(s, st))
  {
    match st
    case StartEnds(_) =>
    case ScanEnds(_) =>
    case Lose(_) =>
    case Run(t) => RunKeeps(s, t);
  }

  lemma {:induction false} RunKeepsInv(s: System, steps: seq<Step>)
    requires Inv(s) && Runs(s, steps)
    ensures Inv(After(s, steps))
    decreases |steps|
  {
    if steps != [] {
      StepKeepsInv(s, steps[0]);
      RunKeepsInv(Apply(s, steps[0]), steps[1..]);
    }
  }

  lemma ReachableIsOk(retries: nat, steps: seq<Step>)
    requires Runs(Initial(retries), steps)
    ensures Inv(After(Initial(retries), steps))
  {
    RunKeepsInv(Initial(retries), steps);
  }

  // ---------------------------------------------------------------- theorems

  // Whatever still exists was made by one attempt, and either the node's external id or
  // the current machine's names all of it.
  lemma UndeletedIsOneAttempts(retries: nat, steps: seq<Step>)
    requires Runs(Initial(retries), steps)
    ensures var s := After(Initial(retries), steps);
            && OfOneAttempt(s, s.live)
            && (s.live <= s.l.external || (s.l.machine.Some? && s.live <= s.l.machine.value.external))
  {
    ReachableIsOk(retries, steps);
  }

  // For adapters that make one instance per machine: at most one is undeleted.
  predicate OneEach(s: System) {
    forall x, y :: x in s.made && y in s.made && s.made[x] == s.made[y] ==> x == y
  }

  lemma AtMostOneInstance(retries: nat, steps: seq<Step>)
    requires Runs(Initial(retries), steps) && OneEach(After(Initial(retries), steps))
    ensures |After(Initial(retries), steps).live| <= 1
  {
    var s := After(Initial(retries), steps);
    UndeletedIsOneAttempts(retries, steps);
    if x :| x in s.live {
      assert s.live == {x};
    }
  }

  // A create machine advances only when everything other machines made is gone.
  lemma NoAdvanceBeforeDeletion(retries: nat, steps: seq<Step>, t: Turn)
    requires Runs(Initial(retries), steps)
    requires var s := After(Initial(retries), steps); Enabled(s, Run(t)) && Advances(s.l, t)
    ensures var s := After(Initial(retries), steps); s.live <= s.l.machine.value.external
  {
    var s := After(Initial(retries), steps);
    ReachableIsOk(retries, steps);
    DeletedKeeps(s, t);
  }

  lemma AttemptsAreBounded(retries: nat, steps: seq<Step>)
    requires Runs(Initial(retries), steps)
    ensures var l := After(Initial(retries), steps).l; 1 <= l.attempts <= if retries > 1 then retries else 1
  {
    ReachableIsOk(retries, steps);
    RetriesAreFixed(Initial(retries), steps);
  }

  lemma TurnKeepsRetries(l: Launcher, t: Turn)
    ensures AfterTurn(l, t).0.retries == l.retries
  {
  }

  lemma {:induction false} RetriesAreFixed(s: System, steps: seq<Step>)
    requires Runs(s, steps)
    ensures After(s, steps).l.retries == s.l.retries
    decreases |steps|
  {
    hide AfterTurn;
    hide Honest;
    if steps != [] {
      if steps[0].Run? {
        TurnKeepsRetries(s.l, steps[0].turn);
      }
      RetriesAreFixed(Apply(s, steps[0]), steps[1..]);
    }
  }

  predicate BecomesReady(s: System, t: Turn)
    requires Enabled(s, Run(t))
  {
    s.l.state.BUILDING? && Apply(s, Run(t)).l.state.READY?
  }

  lemma OnlyScansMakeReady(l: Launcher, t: Turn)
    requires l.state.BUILDING? && AfterTurn(l, t).0.state.READY?
    ensures Scanned(l) && l.scan.value.result.value
  {
  }

  // A node becomes READY only after a complete create machine and a successful scan of
  // the current attempt; the machine is the current attempt's exactly when the
  // attempt's startStateMachine did not raise.
  lemma ReadyNeedsMachineAndScan(retries: nat, steps: seq<Step>, t: Turn)
    requires Runs(Initial(retries), steps)
    requires Enabled(After(Initial(retries), steps), Run(t)) && BecomesReady(After(Initial(retries), steps), t)
    ensures var s := After(Initial(retries), steps);
            && s.l.machine.Some? && s.l.machine.value.complete
            && s.l.scan == Some(Scan(s.l.attempts, Some(true)))
            && s.l.deleter.None?
            && (s.l.machine.value.attempt == s.l.attempts <==> !s.restartRaised)
  {
    hide AfterTurn;
    var s := After(Initial(retries), steps);
    ReachableIsOk(retries, steps);
    OnlyScansMakeReady(s.l, t);
  }

  // And it is still the current attempt's when the turn is over exactly when the write of
  // READY succeeds; otherwise the launcher goes on to the next attempt, or raises, with
  // a node that calls itself READY.
  lemma ReadyStaysIffStored(retries: nat, steps: seq<Step>, t: Turn)
    requires Runs(Initial(retries), steps)
    requires Enabled(After(Initial(retries), steps), Run(t)) && BecomesReady(After(Initial(retries), steps), t)
    ensures var s := After(Initial(retries), steps); var l' := Apply(s, Run(t)).l;
            if t.readyStore.None? then l' == s.l.(state := READY, stored := READY)
            else l'.attempts > s.l.attempts || (AfterTurn(s.l, t).1 && l'.stored == s.l.stored)
  {
    hide Inv;
    OnlyScansMakeReady(After(Initial(retries), steps).l, t);
  }

  // FAILED is only ever the launcher's own view of the node.
  lemma FailedIsNeverStored(retries: nat, steps: seq<Step>)
    requires Runs(Initial(retries), steps)
    ensures !After(Initial(retries), steps).l.stored.FAILED?
  {
    ReachableIsOk(retries, steps);
  }

  // ---------------------------------------------------------------- the stale machine

  const QUIET := Advance({}, false, None, false)
  const CALM := Turn(false, Continues, QUIET, None, None, None, None, Restarts)

  lemma {:induction false} RunsConcat(s: System, p: seq<Step>, q: seq<Step>)
    requires Runs(s, p) && Runs(After(s, p), q)
    ensures Runs(s, p + q) && After(s, p + q) == After(After(s, p), q)
    decreases |p|
  {
    hide Enabled;
    hide Apply;
    if p == [] {
      assert p + q == q;
    } else {
      RunsConcat(Apply(s, p[0]), p[1..], q);
      assert (p + q)[1..] == p[1..] + q;
    }
  }

  lemma RunOfTwo(s: System, st0: Step, st1: Step)
    requires Enabled(s, st0) && Enabled(Apply(s, st0), st1)
    ensures Runs(s, [st0, st1]) && After(s, [st0, st1]) == Apply(Apply(s, st0), st1)
  {
    hide Enabled;
    hide Apply;
    assert [st0, st1][1..] == [st1] && [st1][1..] == [];
    assert Runs(Apply(Apply(s, st0), st1), []);
    assert Runs(Apply(s, st0), [st1]);
    assert After(Apply(s, st0), [st1]) == Apply(Apply(s, st0), st1);
  }

  const STALE := Some(Machine(1, {5}, true))

  // The first machine has made resource 5, is complete and being scanned.
  function Waiting(): System {
    System(Launcher(BUILDING, BUILDING, {5}, 1, 2, Finished(None), STALE, None, Some(Scan(1, None))),
           {5}, map[5 := 1], true, false)
  }

  // Its scan has failed and the restart has raised.
  function Stuck(): System {
    System(Launcher(BUILDING, BUILDING, {5}, 2, 2, Finished(None), STALE, Some(Deleter({5}, false)), None),
           {5}, map[5 := 1], true, true)
  }

  // The resource is gone and the first machine is being scanned again.
  function Rescanned(): System {
    System(Launcher(BUILDING, BUILDING, {5}, 2, 2, Finished(None), STALE, None, Some(Scan(2, None))),
           {}, map[5 := 1], true, true)
  }

  const COMPLETING := Run(CALM.(advance := Advance({5}, true, None, true)))
  const FAILING := Run(CALM.(restart := RestartRaises(false)))
  const UNWOUND := Run(CALM.(deletion := NotFound))

  lemma ToWaiting()
    ensures Runs(Initial(2), [StartEnds(None), COMPLETING]) && After(Initial(2), [StartEnds(None), COMPLETING]) == Waiting()
  {
    var s1 := Apply(Initial(2), StartEnds(None));
    var none: ExternalId := {};
    assert none + {5} == {5};
    assert Apply(s1, COMPLETING) == Waiting();
    RunOfTwo(Initial(2), StartEnds(None), COMPLETING);
  }

  lemma ToStuck()
    ensures Runs(Waiting(), [ScanEnds(false), FAILING]) && After(Waiting(), [ScanEnds(false), FAILING]) == Stuck()
  {
    assert Apply(Apply(Waiting(), ScanEnds(false)), FAILING) == Stuck();
    RunOfTwo(Waiting(), ScanEnds(false), FAILING);
  }

  lemma ToRescanned()
    ensures Runs(Stuck(), [Lose({5}), UNWOUND]) && After(Stuck(), [Lose({5}), UNWOUND]) == Rescanned()
  {
    var five: ExternalId := {5};
    assert five - {5} == {} && five + {} == five;
    var lost := Apply(Stuck(), Lose({5}));
    assert lost == Stuck().(live := {});
    assert Apply(lost, UNWOUND) == Rescanned();
    RunOfTwo(Stuck(), Lose({5}), UNWOUND);
  }

  lemma ToReady()
    ensures Runs(Rescanned(), [ScanEnds(true), Run(CALM)])
    ensures var s := After(Rescanned(), [ScanEnds(true), Run(CALM)]);
            s.l.state.READY? && s.l.stored.READY? && s.live == {} && s.l.machine == STALE && s.l.attempts == 2
  {
    RunOfTwo(Rescanned(), ScanEnds(true), Run(CALM));
  }

  // The first machine completes, its scan fails, the restart raises; once the instance is
  // deleted the first machine, complete as ever, is scanned again and the node is READY
  // with nothing behind it.
  lemma StaleMachineBecomesReady()
    ensures exists steps :: Runs(Initial(2), steps)
              && var s := After(Initial(2), steps);
                 s.l.state.READY? && s.l.stored.READY? && s.live == {} && s.l.machine.Some? && s.l.machine.value.attempt < s.l.attempts
  {
    hide Enabled;
    hide Apply;
    ToWaiting();
    ToStuck();
    ToRescanned();
    ToReady();
    var r1, r2, r3, r4 := [StartEnds(None), COMPLETING], [ScanEnds(false), FAILING], [Lose({5}), UNWOUND], [ScanEnds(true), Run(CALM)];
    RunsConcat(Initial(2), r1, r2);
    RunsConcat(Initial(2), r1 + r2, r3);
    RunsConcat(Initial(2), r1 + r2 + r3, r4);
    assert Runs(Initial(2), r1 + r2 + r3 + r4);
  }
}
