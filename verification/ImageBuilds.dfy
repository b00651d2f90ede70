/**
 Build workers and cleanup passes sharing one image (BuildWorker._buildWrapper and the lock
 around it, CleanupWorker._inProgressBuild and _cleanupImage in nodepool/builder.py) as a
 step relation.  A cleanup pass works from a snapshot of the builds that may be stale; a
 session may expire at any moment, after which a worker goes on without its lock.
 */
module ImageBuilds {
  import opened Wrappers

  type BuildId = nat
  type Actor = nat

  datatype BuildState = BUILDING | READY | FAILED | DELETING

  // time: the state_time the writer gave it, by its own clock.
  datatype Build = Build(state: BuildState, time: int)

  // Building: the record is stored and the image is being built; lost: the connection was
  // lost meanwhile.  Decided: the result is known but not stored.
  datatype Worker =
    | Idle
    | Locked
    | Building(build: BuildId, lost: bool)
    | Decided(build: BuildId, result: Build)
    | Stored(build: BuildId)

  // What a pass over the image works from: whether the image is configured, the builds as
  // it read them, and those it keeps.
  datatype Pass = Pass(configured: bool, snapshot: map<BuildId, Build>, keep: set<BuildId>)

  // Cleared: nothing stops the pass from deleting this build, once it has marked it.
  datatype Cleaner =
    | Resting
    | Scanning(pass: Pass)
    | Checking(pass: Pass, build: BuildId)
    | Cleared(pass: Pass, build: BuildId, marked: bool)

  datatype Holder = ByWorker(worker: Actor) | ByCleaner(cleaner: Actor)

  // used: every id ever given; sealed: the builds stored READY by a worker that still held
  // the image lock.
  datatype System = System(builds: map<BuildId, Build>, used: set<BuildId>, lock: Option<Holder>,
                           workers: map<Actor, Worker>, cleaners: map<Actor, Cleaner>, sealed: set<BuildId>)

  function WorkerOf(s: System, a: Actor): Worker { if a in s.workers then s.workers[a] else Idle }

  function CleanerOf(s: System, c: Actor): Cleaner { if c in s.cleaners then s.cleaners[c] else Resting }

  datatype Step =
    | WorkerLocks(worker: Actor)
    | StoreBuilding(worker: Actor, build: BuildId, at: int)
    | Decide(worker: Actor, ok: bool, at: int)
    | StoreResult(worker: Actor)
    | WorkerUnlocks(worker: Actor)
    | WorkerExpires(worker: Actor)
    | CleanerExpires(cleaner: Actor)
    | Snapshot(cleaner: Actor, configured: bool, keep: set<BuildId>)
    | Consider(cleaner: Actor, build: BuildId)
    | Recheck(cleaner: Actor)
    | Mark(cleaner: Actor, at: int)
    | Delete(cleaner: Actor)
    | Leave(cleaner: Actor)

  predicate Is(builds: map<BuildId, Build>, b: BuildId, st: BuildState) { b in builds && builds[b].state == st }

  // The first two READY builds, most recent first; equal times come in any order.
  predicate TopTwo(builds: map<BuildId, Build>, keep: set<BuildId>) {
    && |keep| <= 2 && (forall b :: b in keep ==> Is(builds, b, READY))
    && (forall b :: b in builds && builds[b].state.READY? && b !in keep ==>
          |keep| == 2 && forall k :: k in keep && k in builds ==> builds[k].time >= builds[b].time)
  }

  predicate Enabled(s: System, st: Step) {
    match st
    case WorkerLocks(a) => WorkerOf(s, a).Idle? && s.lock.None?
    case StoreBuilding(a, b, _) => WorkerOf(s, a).Locked? && b !in s.used
    case Decide(a, _, _) => WorkerOf(s, a).Building?
    case StoreResult(a) => WorkerOf(s, a).Decided?
    case WorkerUnlocks(a) => WorkerOf(s, a).Stored?
    case WorkerExpires(_) => true
    case CleanerExpires(_) => true
    case Snapshot(c, configured, keep) =>
      CleanerOf(s, c).Resting? && if configured then TopTwo(s.builds, keep) else keep == {}
    case Consider(c, b) => CleanerOf(s, c).Scanning? && b in CleanerOf(s, c).pass.snapshot
    case Recheck(c) => CleanerOf(s, c).Checking?
    case Mark(c, _) => CleanerOf(s, c).Cleared?
    case Delete(c) => CleanerOf(s, c).Cleared? && (CleanerOf(s, c).marked || Is(CleanerOf(s, c).pass.snapshot, CleanerOf(s, c).build, DELETING))
    case Leave(c) => CleanerOf(s, c).Cleared? || CleanerOf(s, c).Scanning?
  }

  function Goes(s: System, a: Actor, w: Worker): System { s.(workers := s.workers[a := w]) }

  function Turns(s: System, c: Actor, k: Cleaner): System { s.(cleaners := s.cleaners[c := k]) }

  function Unlocked(s: System, h: Holder): System { s.(lock := if s.lock == Some(h) then None else s.lock) }

  // set() on a record that is gone raises; nothing is written.
  function Put(s: System, b: BuildId, v: Build): System {
    if b in s.builds then s.(builds := s.builds[b := v]) else s
  }

  function Apply(s: System, st: Step): System
    requires Enabled(s, st)
  {
    match st
    case WorkerLocks(a) => Goes(s, a, Locked).(lock := Some(ByWorker(a)))
    case StoreBuilding(a, b, at) =>
      Goes(s, a, Building(b, false)).(builds := s.builds[b := Build(BUILDING, at)], used := s.used + {b})
    case Decide(a, ok, at) =>
      var w := WorkerOf(s, a);
      Goes(s, a, Decided(w.build, Build(if w.lost || !ok then FAILED else READY, at)))
    case StoreResult(a) =>
      var w := WorkerOf(s, a);
      Goes(Put(s, w.build, w.result), a, Stored(w.build))
        .(sealed := if w.result.state.READY? && w.build in s.builds && s.lock == Some(ByWorker(a)) then s.sealed + {w.build} else s.sealed)
    case WorkerUnlocks(a) => Unlocked(Goes(s, a, Idle), ByWorker(a))
    case WorkerExpires(a) =>
      var w := WorkerOf(s, a);
      Unlocked(if w.Building? then Goes(s, a, w.(lost := true)) else s, ByWorker(a))
    case CleanerExpires(c) => Unlocked(s, ByCleaner(c))
    case Snapshot(c, configured, keep) => Turns(s, c, Scanning(Pass(configured, s.builds, keep)))
    case Consider(c, b) =>
      var p := CleanerOf(s, c).pass;
      if !p.snapshot[b].state.DELETING? && b in p.keep then s
      else if !p.snapshot[b].state.BUILDING? then Turns(s, c, Cleared(p, b, false))
      else if s.lock.Some? then s
      else Turns(s, c, Checking(p, b)).(lock := Some(ByCleaner(c)))
    case Recheck(c) =>
      var k := CleanerOf(s, c);
      Unlocked(Turns(s, c, if k.build in s.builds && !s.builds[k.build].state.BUILDING? then Scanning(k.pass)
                           else Cleared(k.pass, k.build, false)), ByCleaner(c))
    case Mark(c, at) =>
      var k := CleanerOf(s, c);
      if Is(k.pass.snapshot, k.build, DELETING) then s
      else Turns(Put(s, k.build, Build(DELETING, at)), c, k.(marked := true))
    case Delete(c) => s.(builds := s.builds - {CleanerOf(s, c).build})
    case Leave(c) =>
      var k := CleanerOf(s, c);
      Turns(s, c, if k.Cleared? then Scanning(k.pass) else Resting)
  }

  ghost predicate Runs(s: System, steps: seq<Step>)
    decreases |steps|
  {
    steps == [] || (Enabled(s, steps[0]) && Runs(Apply(s, steps[0]), steps[1..]))
  }

  ghost function After(s: System, steps: seq<Step>): System
    requires Runs(s, steps)
    decreases |steps|
  {
    if steps == [] then s else After(Apply(s, steps[0]), steps[1..])
  }

  function Empty(): System { System(map[], {}, None, map[], map[], {}) }

  // ---------------------------------------------------------------- invariant

  // a is making b and has not stored its result.
  predicate Making(s: System, a: Actor, b: BuildId) {
    var w := WorkerOf(s, a);
    (w.Building? || w.Decided?) && w.build == b
  }

  predicate MadeUnderLock(s: System, b: BuildId) {
    s.lock.Some? && s.lock.value.ByWorker? && Making(s, s.lock.value.worker, b)
  }

  // Its worker still holds the image lock, whether or not the result is stored.
  predicate UnderLock(s: System, a: Actor, b: BuildId) {
    s.lock == Some(ByWorker(a)) && (Making(s, a, b) || WorkerOf(s, a) == Stored(b))
  }

  predicate WorkerOk(s: System, a: Actor) {
    var w := WorkerOf(s, a);
    (w.Building? || w.Decided? || w.Stored? ==> w.build in s.used) && (w.Building? || w.Decided? ==> w.build !in s.sealed)
    && (w.Decided? ==> w.result.state.READY? || w.result.state.FAILED?)
    && (w.Building? || w.Decided? ==> !Is(s.builds, w.build, READY))
  }

  // A build being made under the lock is BUILDING in every snapshot that has it.
  predicate SnapshotOk(s: System, p: Pass) {
    && (forall b :: b in p.snapshot ==> b in s.used && (MadeUnderLock(s, b) ==> p.snapshot[b].state.BUILDING?))
    && (if p.configured then TopTwo(p.snapshot, p.keep) else p.keep == {})
  }

  // A pass that took a build for an abandoned one found the image lock free.
  predicate Unwatched(s: System, b: BuildId) {
    s.lock.Some? && s.lock.value.ByWorker? ==> !UnderLock(s, s.lock.value.worker, b)
  }

  predicate CleanerOk(s: System, c: Actor) {
    match CleanerOf(s, c)
    case Resting => true
    case Scanning(p) => SnapshotOk(s, p)
    case Checking(p, b) =>
      SnapshotOk(s, p) && b in p.snapshot && p.snapshot[b].state.BUILDING? && Unwatched(s, b) && b !in p.keep
    case Cleared(p, b, _) =>
      && SnapshotOk(s, p) && b in p.snapshot && !MadeUnderLock(s, b)
      && (p.snapshot[b].state.BUILDING? ==> Unwatched(s, b) && (b in s.sealed ==> b !in s.builds))
      && (p.snapshot[b].state.DELETING? || b !in p.keep)
  }

  ghost predicate Inv(s: System) {
    && s.builds.Keys <= s.used && s.sealed <= s.used
    && (forall b :: MadeUnderLock(s, b) ==> Is(s.builds, b, BUILDING))
    && (forall b :: b in s.builds && b in s.sealed ==> s.builds[b].state.READY? || s.builds[b].state.DELETING?)
    && (forall a, a2, b :: Making(s, a, b) && Making(s, a2, b) ==> a == a2)
    && (forall a :: WorkerOk(s, a))
    && (forall c :: CleanerOk(s, c))
  }

  predicate ByAWorker(st: Step) {
    st.WorkerLocks? || st.StoreBuilding? || st.Decide? || st.StoreResult? || st.WorkerUnlocks? || st.WorkerExpires?
  }

  lemma StepMakes(s: System, st: Step, a: Actor, b: BuildId)
    requires Enabled(s, st)
    ensures Making(Apply(s, st), a, b) ==> Making(s, a, b) || (st.StoreBuilding? && st.worker == a && st.build == b)
    ensures Making(s, a, b) && st != StoreResult(a) && Inv(s) ==> Making(Apply(s, st), a, b)
  {
  }

  lemma StepKeepsWorkers(s: System, st: Step)
    requires Inv(s) && Enabled(s, st)
    ensures var s' := Apply(s, st);
            && (forall a :: WorkerOk(s', a))
            && (forall a, a2, b :: Making(s', a, b) && Making(s', a2, b) ==> a == a2)
  {
    var s' := Apply(s, st);
    forall a, a2, b | Making(s', a, b) && Making(s', a2, b) ensures a == a2 {
      StepMakes(s, st, a, b);
      StepMakes(s, st, a2, b);
      assert WorkerOk(s, a) && WorkerOk(s, a2);
    }
    forall a ensures WorkerOk(s', a) {
      assert WorkerOk(s, a);
      if st.StoreResult? {
        var b := WorkerOf(s, st.worker).build;
        assert Making(s, st.worker, b);
        assert Making(s, a, b) ==> a == st.worker;
      }
    }
  }

  // The lock never comes back to a build: whoever makes one under the lock already did,
  // or has just stored a build nobody knows.
  lemma StepMadeUnderLock(s: System, st: Step, b: BuildId)
    requires Inv(s) && Enabled(s, st)
    ensures MadeUnderLock(Apply(s, st), b) ==> MadeUnderLock(s, b) || (st.StoreBuilding? && b == st.build && b !in s.used)
    ensures b in s.used && Unwatched(s, b) ==> Unwatched(Apply(s, st), b)
  {
  }

  lemma StepKeepsBuilds(s: System, st: Step)
    requires Inv(s) && Enabled(s, st)
    ensures var s' := Apply(s, st);
            && s'.builds.Keys <= s'.used && s.used <= s'.used && s'.sealed <= s'.used
            && (forall b :: MadeUnderLock(s', b) ==> Is(s'.builds, b, BUILDING))
            && (forall b :: b in s'.builds && b in s'.sealed ==> s'.builds[b].state.READY? || s'.builds[b].state.DELETING?)
  {
    var s' := Apply(s, st);
    if ByAWorker(st) {
      assert WorkerOk(s, st.worker);
      if st.StoreResult? {
        var b0 := WorkerOf(s, st.worker).build;
        assert Making(s, st.worker, b0);
      }
    } else {
      assert CleanerOk(s, st.cleaner);
    }
    forall b | MadeUnderLock(s', b) ensures Is(s'.builds, b, BUILDING) {
      StepMadeUnderLock(s, st, b);
    }
  }

  lemma StepKeepsSnapshot(s: System, st: Step, p: Pass)
    requires Inv(s) && Enabled(s, st) && SnapshotOk(s, p)
    ensures SnapshotOk(Apply(s, st), p)
  {
    StepKeepsBuilds(s, st);
    forall b | b in p.snapshot ensures MadeUnderLock(Apply(s, st), b) ==> p.snapshot[b].state.BUILDING? {
      StepMadeUnderLock(s, st, b);
    }
  }

  // What a pass has cleared stays cleared.
  lemma StepKeepsClearance(s: System, st: Step, b: BuildId)
    requires Inv(s) && Enabled(s, st) && b in s.used && !MadeUnderLock(s, b)
    ensures !MadeUnderLock(Apply(s, st), b) && (Unwatched(s, b) ==> Unwatched(Apply(s, st), b))
    ensures b !in s.builds ==> b !in Apply(s, st).builds
    ensures b in Apply(s, st).sealed ==> b in s.sealed
  {
    StepMadeUnderLock(s, st, b);
  }

  lemma StepKeepsCleaner(s: System, st: Step, c: Actor)
    requires Inv(s) && Enabled(s, st)
    ensures CleanerOk(Apply(s, st), c)
  {
    assert CleanerOk(s, c);
    var k := CleanerOf(s, c);
    if !k.Resting? {
      StepKeepsSnapshot(s, st, k.pass);
      if k.Checking? || k.Cleared? {
        StepKeepsClearance(s, st, k.build);
      }
    }
    if st.Snapshot? && st.cleaner == c {
      assert SnapshotOk(s, Pass(st.configured, s.builds, st.keep));
      StepKeepsSnapshot(s, st, Pass(st.configured, s.builds, st.keep));
    }
    if st.Consider? && st.cleaner == c && !CleanerOf(Apply(s, st), c).Scanning? {
      StepKeepsClearance(s, st, st.build);
    }
  }

  lemma StepKeepsInv(s: System, st: Step)
    requires Inv(s) && Enabled(s, st)
    ensures Inv(Apply(s, st))
  {
    hide Enabled;
    hide Apply;
    StepKeepsWorkers(s, st);
    StepKeepsBuilds(s, st);
    forall c ensures CleanerOk(Apply(s, st), c) {
      StepKeepsCleaner(s, st, c);
    }
  }

  lemma {:induction false} RunKeepsInv(s: System, steps: seq<Step>)
    requires Inv(s) && Runs(s, steps)
    ensures Inv(After(s, steps))
    decreases |steps|
  {
    hide Enabled;
    hide Apply;
    if steps != [] {
      StepKeepsInv(s, steps[0]);
      RunKeepsInv(Apply(s, steps[0]), steps[1..]);
    }
  }

  // ---------------------------------------------------------------- theorems

  // No cleanup pass marks or deletes a build whose worker holds the image lock and has not
  // stored its result, however old the snapshot of the pass.
  lemma BuildsBeingMadeAreSpared(steps: seq<Step>, st: Step)
    requires Runs(Empty(), steps) && (st.Mark? || st.Delete?) && Enabled(After(Empty(), steps), st)
    ensures var s := After(Empty(), steps); forall b :: MadeUnderLock(s, b) ==>
              Is(s.builds, b, BUILDING) && b in Apply(s, st).builds && Apply(s, st).builds[b] == s.builds[b]
  {
    RunKeepsInv(Empty(), steps);
    assert CleanerOk(After(Empty(), steps), st.cleaner);
  }

  // Nor does it touch a build that its snapshot has as BUILDING and that was stored READY
  // under the lock since.
  lemma FinishedBuildsAreSpared(steps: seq<Step>, st: Step)
    requires Runs(Empty(), steps) && (st.Mark? || st.Delete?) && Enabled(After(Empty(), steps), st)
    requires var k := CleanerOf(After(Empty(), steps), st.cleaner);
             Is(k.pass.snapshot, k.build, BUILDING) && k.build in After(Empty(), steps).sealed
    ensures Apply(After(Empty(), steps), st).builds == After(Empty(), steps).builds
  {
    RunKeepsInv(Empty(), steps);
    assert CleanerOk(After(Empty(), steps), st.cleaner);
  }

  // Two other READY builds are at least as recent.
  ghost predicate TwoAsRecent(builds: map<BuildId, Build>, b: BuildId) {
    b in builds && exists p: BuildId, q: BuildId :: p != q && AsRecent(builds, b, p) && AsRecent(builds, b, q)
  }

  predicate AsRecent(builds: map<BuildId, Build>, b: BuildId, p: BuildId)
    requires b in builds
  {
    p != b && Is(builds, p, READY) && builds[p].time >= builds[b].time
  }

  lemma Two<T>(x: set<T>)
    requires |x| == 2
    ensures exists p, q :: p != q && x == {p, q}
  {
    var p :| p in x;
    assert |x - {p}| == 1;
    var q :| q in x - {p};
    assert |x - {p} - {q}| == 0;
    assert x == {p, q};
  }

  lemma LeftOutIsOlder(builds: map<BuildId, Build>, keep: set<BuildId>, b: BuildId)
    requires TopTwo(builds, keep) && Is(builds, b, READY) && b !in keep
    ensures TwoAsRecent(builds, b)
  {
    Two(keep);
    var p, q :| p != q && keep == {p, q};
    assert p in keep && q in keep;
    assert AsRecent(builds, b, p) && AsRecent(builds, b, q);
  }

  lemma {:induction false} MostRecent(builds: map<BuildId, Build>, x: set<BuildId>) returns (m: BuildId)
    requires x != {} && x <= builds.Keys
    ensures m in x && forall b :: b in x ==> builds[m].time >= builds[b].time
  {
    m :| m in x;
    if x != {m} {
      var n := MostRecent(builds, x - {m});
      m := if builds[n].time >= builds[m].time then n else m;
    }
  }

  // Whether the sort may leave a READY build out.
  lemma LeftOutIff(builds: map<BuildId, Build>, b: BuildId)
    requires Is(builds, b, READY)
    ensures (exists keep :: TopTwo(builds, keep) && b !in keep) <==> TwoAsRecent(builds, b)
  {
    if TwoAsRecent(builds, b) {
      var p: BuildId, q: BuildId :| p != q && AsRecent(builds, b, p) && AsRecent(builds, b, q);
      var others := set x | x in builds && builds[x].state.READY? && x != b;
      assert p in others && q in others;
      var m := MostRecent(builds, others);
      assert (if p == m then q else p) in others - {m};
      var n := MostRecent(builds, others - {m});
      assert TopTwo(builds, {m, n});
    } else {
      forall keep | TopTwo(builds, keep) && b !in keep ensures false {
        LeftOutIsOlder(builds, keep, b);
      }
    }
  }

  // In every run, whatever the age of the snapshot: what a pass can do to a build whose
  // worker still holds the image lock.  While it is being made, nothing; once its result
  // is stored, it goes only if the pass saw it FAILED, or marked already, or READY in an
  // image that is no longer configured or has two READY builds at least as recent.
  lemma UnderTheLock(steps: seq<Step>, st: Step, a: Actor)
    requires Runs(Empty(), steps) && (st.Mark? || st.Delete?) && Enabled(After(Empty(), steps), st)
    requires var s := After(Empty(), steps); UnderLock(s, a, CleanerOf(s, st.cleaner).build)
    ensures var s := After(Empty(), steps); var (p, b) := (CleanerOf(s, st.cleaner).pass, CleanerOf(s, st.cleaner).build);
            && b in p.snapshot && WorkerOf(s, a) == Stored(b)
            && (p.snapshot[b].state.FAILED? || p.snapshot[b].state.DELETING?
                || (p.snapshot[b].state.READY? && (p.configured ==> TwoAsRecent(p.snapshot, b))))
  {
    RunKeepsInv(Empty(), steps);
    var s := After(Empty(), steps);
    assert CleanerOk(s, st.cleaner);
    var k := CleanerOf(s, st.cleaner);
    if k.pass.configured && Is(k.pass.snapshot, k.build, READY) {
      LeftOutIsOlder(k.pass.snapshot, k.pass.keep, k.build);
    }
  }

  function OnePass(c: Actor, configured: bool, keep: set<BuildId>, b: BuildId): seq<Step> {
    [Snapshot(c, configured, keep), Consider(c, b), Mark(c, 0), Delete(c)]
  }

  // What one pass does to a build under its worker's lock.
  lemma OnePassRuns(s: System, a: Actor, b: BuildId, c: Actor, configured: bool, keep: set<BuildId>)
    requires s.lock == Some(ByWorker(a)) && b in s.builds && !s.builds[b].state.DELETING? && CleanerOf(s, c).Resting?
    ensures Runs(s, OnePass(c, configured, keep, b)) <==>
              Enabled(s, Snapshot(c, configured, keep)) && b !in keep && !s.builds[b].state.BUILDING?
    ensures Runs(s, OnePass(c, configured, keep, b)) ==>
              var s' := After(s, OnePass(c, configured, keep, b)); s'.lock == s.lock && s'.builds == s.builds - {b}
  {
    var steps := OnePass(c, configured, keep, b);
    var rest := [Mark(c, 0), Delete(c)];
    assert steps[1..] == [Consider(c, b)] + rest && steps[1..][1..] == rest && rest[1..] == [Delete(c)] && rest[1..][1..] == [];
    if Enabled(s, steps[0]) {
      var s1 := Apply(s, steps[0]);
      assert CleanerOf(s1, c) == Scanning(Pass(configured, s.builds, keep)) && s1.lock == s.lock;
      var s2 := Apply(s1, steps[1]);
      if b !in keep && !s.builds[b].state.BUILDING? {
        var s3 := Apply(s2, Mark(c, 0));
        var s4 := Apply(s3, Delete(c));
        assert s4.builds == s.builds - {b};
        assert Runs(s4, []) && Runs(s3, [Delete(c)]) && Runs(s2, rest) && Runs(s1, steps[1..]);
        assert After(s3, [Delete(c)]) == s4 && After(s2, rest) == s4 && After(s1, steps[1..]) == s4;
      } else {
        assert s2 == s1 && !Runs(s2, rest) && !Runs(s1, steps[1..]);
      }
    }
  }

  // And exactly when one can take it: never while BUILDING, always once FAILED, and once
  // READY if the image is not configured or two READY builds are at least as recent, by
  // the clocks of whoever made them.
  lemma UnderTheLockGoesIff(s: System, a: Actor, b: BuildId, c: Actor, configured: bool)
    requires s.lock == Some(ByWorker(a)) && b in s.builds && !s.builds[b].state.DELETING? && CleanerOf(s, c).Resting?
    ensures (exists keep :: Runs(s, OnePass(c, configured, keep, b))) <==>
              match s.builds[b].state
              case BUILDING => false
              case FAILED => true
              case READY => configured ==> TwoAsRecent(s.builds, b)
              case DELETING => false
  {
    forall keep ensures Runs(s, OnePass(c, configured, keep, b)) <==>
              Enabled(s, Snapshot(c, configured, keep)) && b !in keep && !s.builds[b].state.BUILDING? {
      OnePassRuns(s, a, b, c, configured, keep);
    }
    hide Runs;
    if configured {
      var keep := TheTopTwo(s.builds);
      assert Enabled(s, Snapshot(c, configured, keep));
      assert s.builds[b].state.FAILED? ==> b !in keep;
      assert s.builds[b].state.FAILED? ==> Runs(s, OnePass(c, configured, keep, b));
      if s.builds[b].state.READY? {
        LeftOutIff(s.builds, b);
        if TwoAsRecent(s.builds, b) {
          var left :| TopTwo(s.builds, left) && b !in left;
          assert Runs(s, OnePass(c, configured, left, b));
        }
      }
    } else {
      assert Enabled(s, Snapshot(c, configured, {}));
      assert !s.builds[b].state.BUILDING? ==> Runs(s, OnePass(c, configured, {}, b));
    }
  }

  // A pass over a configured image always finds two builds to keep, or all there are.
  lemma TheTopTwo(builds: map<BuildId, Build>) returns (keep: set<BuildId>)
    ensures TopTwo(builds, keep)
  {
    var ready := set x | x in builds && builds[x].state.READY?;
    if ready == {} {
      return {};
    }
    var m := MostRecent(builds, ready);
    if ready == {m} {
      return {m};
    }
    var n := MostRecent(builds, ready - {m});
    assert |{m, n}| == 2;
    return {m, n};
  }

  // ---------------------------------------------------------------- locks and lost sessions

  // The image lock is only ever held by somebody at work.
  predicate LockKnown(s: System) {
    s.lock.Some? ==>
      match s.lock.value
      case ByWorker(a) => !WorkerOf(s, a).Idle?
      case ByCleaner(c) => CleanerOf(s, c).Checking?
  }

  lemma StepKeepsLockKnown(s: System, st: Step)
    requires LockKnown(s) && Enabled(s, st)
    ensures LockKnown(Apply(s, st))
  {
  }

  lemma {:induction false} RunKeepsLockKnown(s: System, steps: seq<Step>)
    requires LockKnown(s) && Runs(s, steps)
    ensures LockKnown(After(s, steps))
    decreases |steps|
  {
    hide Enabled;
    hide Apply;
    if steps != [] {
      StepKeepsLockKnown(s, steps[0]);
      RunKeepsLockKnown(Apply(s, steps[0]), steps[1..]);
    }
  }

  // Nobody who has finished still has the image lock, so the next build can be made.
  lemma LocksAreGivenBack(steps: seq<Step>)
    requires Runs(Empty(), steps)
    ensures var s := After(Empty(), steps);
            && (forall a :: WorkerOf(s, a).Idle? ==> s.lock != Some(ByWorker(a)))
            && (forall c :: !CleanerOf(s, c).Checking? ==> s.lock != Some(ByCleaner(c)))
  {
    RunKeepsLockKnown(Empty(), steps);
  }

  // b is not READY, and whoever may still be making it knows that it has failed.
  predicate Doomed(s: System, a: Actor, b: BuildId) {
    var w := WorkerOf(s, a);
    && b in s.used && !Is(s.builds, b, READY)
    && (Making(s, a, b) ==> (w.Building? && w.lost) || (w.Decided? && w.result.state.FAILED?))
  }

  ghost predicate OnlyMaker(s: System, a: Actor, b: BuildId) { forall x :: Making(s, x, b) ==> x == a }

  lemma StaysDoomed(s: System, a: Actor, b: BuildId, st: Step)
    requires Inv(s) && Enabled(s, st) && Doomed(s, a, b) && OnlyMaker(s, a, b)
    ensures Doomed(Apply(s, st), a, b) && OnlyMaker(Apply(s, st), a, b)
  {
    var s' := Apply(s, st);
    forall x | Making(s', x, b) ensures x == a {
      StepMakes(s, st, x, b);
    }
    StepMakes(s, st, a, b);
    if st.StoreResult? && WorkerOf(s, st.worker).build == b {
      assert Making(s, st.worker, b);
    }
  }

  lemma {:induction false} DoomedForever(s: System, a: Actor, b: BuildId, steps: seq<Step>)
    requires Inv(s) && Runs(s, steps) && Doomed(s, a, b) && OnlyMaker(s, a, b)
    ensures Doomed(After(s, steps), a, b)
    decreases |steps|
  {
    hide Enabled;
    hide Apply;
    hide Inv;
    hide Doomed;
    hide OnlyMaker;
    if steps != [] {
      StaysDoomed(s, a, b, steps[0]);
      StepKeepsInv(s, steps[0]);
      DoomedForever(Apply(s, steps[0]), a, b, steps[1..]);
    }
  }

  // A build during which its worker lost the session is never stored READY.
  lemma LostBuildsAreNeverReady(before: seq<Step>, a: Actor, steps: seq<Step>)
    requires Runs(Empty(), before) && WorkerOf(After(Empty(), before), a).Building?
    requires Runs(Apply(After(Empty(), before), WorkerExpires(a)), steps)
    ensures !Is(After(Apply(After(Empty(), before), WorkerExpires(a)), steps).builds, WorkerOf(After(Empty(), before), a).build, READY)
  {
    RunKeepsInv(Empty(), before);
    var s := After(Empty(), before);
    var b := WorkerOf(s, a).build;
    StepKeepsInv(s, WorkerExpires(a));
    assert Making(s, a, b) && WorkerOk(s, a);
    forall x | Making(Apply(s, WorkerExpires(a)), x, b) ensures x == a {
      StepMakes(s, WorkerExpires(a), x, b);
    }
    DoomedForever(Apply(s, WorkerExpires(a)), a, b, steps);
  }

  // ---------------------------------------------------------------- runs

  // Holding the lock when READY is stored is what it takes.  A worker whose result is
  // decided but not stored when it loses the lock can store READY after the pass has
  // checked, and lose the build.
  lemma ReadyWithoutTheLockIsTaken(s: System, a: Actor, c: Actor, at: int)
    requires Exposed(s, a, c)
    ensures Enabled(s, StoreResult(a))
    ensures var s1 := Apply(s, StoreResult(a)); var b := WorkerOf(s, a).build;
            && Is(s1.builds, b, READY) && Enabled(s1, Mark(c, at)) && b !in s1.sealed - s.sealed
            && Is(Apply(s1, Mark(c, at)).builds, b, DELETING)
  {
  }

  predicate AboutToStore(s: System, a: Actor) { WorkerOf(s, a).Decided? && WorkerOf(s, a).result.state.READY? }

  // c took b for an abandoned build.
  predicate HasCleared(s: System, c: Actor, b: BuildId) {
    var k := CleanerOf(s, c);
    k.Cleared? && k.build == b && Is(k.pass.snapshot, b, BUILDING)
  }

  predicate Exposed(s: System, a: Actor, c: Actor) {
    && AboutToStore(s, a) && WorkerOf(s, a).build in s.builds && s.lock != Some(ByWorker(a))
    && HasCleared(s, c, WorkerOf(s, a).build)
  }

  lemma RunGrows(s: System, steps: seq<Step>, st: Step)
    requires Runs(s, steps) && Enabled(After(s, steps), st)
    ensures Runs(s, steps + [st]) && After(s, steps + [st]) == Apply(After(s, steps), st)
    decreases |steps|
  {
    hide Enabled;
    hide Apply;
    if steps == [] {
      assert [] + [st] == [st] && [st][1..] == [];
      assert Runs(Apply(s, st), []);
    } else {
      RunGrows(Apply(s, steps[0]), steps[1..], st);
      assert (steps + [st])[1..] == steps[1..] + [st];
    }
  }

  lemma {:induction false} RunsJoin(s: System, first: seq<Step>, rest: seq<Step>)
    requires Runs(s, first) && Runs(After(s, first), rest)
    ensures Runs(s, first + rest) && After(s, first + rest) == After(After(s, first), rest)
    decreases |first|
  {
    hide Enabled;
    hide Apply;
    if first == [] {
      assert first + rest == rest;
    } else {
      RunsJoin(Apply(s, first[0]), first[1..], rest);
      assert (first + rest)[1..] == first[1..] + rest;
    }
  }

  // A pass that has b as BUILDING marks or deletes it although it is READY by now.
  predicate Takes(t: System, st: Step, b: BuildId) {
    && (st.Mark? || st.Delete?) && Enabled(t, st)
    && CleanerOf(t, st.cleaner).build == b && Is(CleanerOf(t, st.cleaner).pass.snapshot, b, BUILDING)
    && Is(t.builds, b, READY)
    && !(b in Apply(t, st).builds && Apply(t, st).builds[b] == t.builds[b])
  }

  ghost predicate LosesBy(s: System, a: Actor, steps: seq<Step>, st: Step)
    requires AboutToStore(s, a)
  {
    Runs(s, steps) && WorkerExpires(a) !in steps && Takes(After(s, steps), st, WorkerOf(s, a).build)
  }

  // Some pass can take the finished build although a does not lose its session any more.
  ghost predicate CanLose(s: System, a: Actor)
    requires AboutToStore(s, a)
  {
    exists steps, st :: LosesBy(s, a, steps, st)
  }

  // A build that no pass that has it as BUILDING will ever take once READY: a holds the
  // lock until it has stored it; it did; it is gone; or nobody can take it for abandoned
  // any more.
  ghost predicate Spared(t: System, a: Actor, b: BuildId) {
    || (t.lock == Some(ByWorker(a)) && AboutToStore(t, a) && WorkerOf(t, a).build == b)
    || b in t.sealed
    || (b in t.used && b !in t.builds)
    || (b in t.builds && !t.builds[b].state.BUILDING? && forall c :: !HasCleared(t, c, b))
  }

  lemma SparedIsNotTaken(t: System, a: Actor, b: BuildId, st: Step)
    requires Inv(t) && Spared(t, a, b)
    ensures !Takes(t, st, b)
  {
    if (st.Mark? || st.Delete?) && Enabled(t, st) {
      assert CleanerOk(t, st.cleaner);
      var cleared := HasCleared(t, st.cleaner, b);
    }
    assert MadeUnderLock(t, b) ==> Is(t.builds, b, BUILDING);
  }

  lemma NobodyClears(t: System, st: Step, b: BuildId, c: Actor)
    requires Enabled(t, st) && b in t.builds && !t.builds[b].state.BUILDING? && !HasCleared(t, c, b)
    ensures !HasCleared(Apply(t, st), c, b)
  {
  }

  lemma StaysSpared(t: System, a: Actor, b: BuildId, st: Step)
    requires Inv(t) && Spared(t, a, b) && Enabled(t, st) && st != WorkerExpires(a)
    ensures Spared(Apply(t, st), a, b)
  {
    var t' := Apply(t, st);
    if t.lock == Some(ByWorker(a)) && AboutToStore(t, a) && WorkerOf(t, a).build == b {
      assert MadeUnderLock(t, b);
      assert st == StoreResult(a) ==> b in t'.sealed;
    } else if b in t.sealed || b !in t.builds {
    } else {
      forall c ensures !HasCleared(t', c, b) {
        NobodyClears(t, st, b, c);
      }
      if st.StoreResult? && b in t'.builds && t'.builds[b] != t.builds[b] {
        assert WorkerOk(t, st.worker);
      }
    }
  }

  lemma {:induction false} SparedForever(s: System, a: Actor, b: BuildId, steps: seq<Step>)
    requires Inv(s) && Spared(s, a, b) && Runs(s, steps) && WorkerExpires(a) !in steps
    ensures Inv(After(s, steps)) && Spared(After(s, steps), a, b)
    decreases |steps|
  {
    hide Enabled;
    hide Apply;
    hide Inv;
    hide Spared;
    if steps != [] {
      StepKeepsInv(s, steps[0]);
      StaysSpared(s, a, b, steps[0]);
      SparedForever(Apply(s, steps[0]), a, b, steps[1..]);
    }
  }

  // What becomes of a build whose lock is free: a whole pass takes it for abandoned, the
  // worker stores READY, and the pass marks it.
  function Overtaken(a: Actor, c: Actor, keep: set<BuildId>, b: BuildId): seq<Step> {
    [Snapshot(c, true, keep), Consider(c, b), Recheck(c), StoreResult(a)]
  }

  lemma TakenForAbandoned(s: System, c: Actor, keep: set<BuildId>, b: BuildId)
    requires Is(s.builds, b, BUILDING) && s.lock.None? && CleanerOf(s, c).Resting? && TopTwo(s.builds, keep)
    ensures var steps := [Snapshot(c, true, keep), Consider(c, b), Recheck(c)];
            && Runs(s, steps)
            && var t := After(s, steps); HasCleared(t, c, b) && t.builds == s.builds && t.workers == s.workers && t.lock.None?
  {
    var r0: seq<Step> := [];
    assert Runs(s, r0) && After(s, r0) == s;
    hide Runs;
    hide After;
    RunGrows(s, r0, Snapshot(c, true, keep));
    var r1 := r0 + [Snapshot(c, true, keep)];
    RunGrows(s, r1, Consider(c, b));
    var r2 := r1 + [Consider(c, b)];
    RunGrows(s, r2, Recheck(c));
    assert r2 + [Recheck(c)] == [Snapshot(c, true, keep), Consider(c, b), Recheck(c)];
  }

  lemma FreeLockLoses(s: System, a: Actor, c: Actor, keep: set<BuildId>)
    requires AboutToStore(s, a) && Is(s.builds, WorkerOf(s, a).build, BUILDING) && s.lock.None?
    requires CleanerOf(s, c).Resting? && TopTwo(s.builds, keep)
    ensures LosesBy(s, a, Overtaken(a, c, keep, WorkerOf(s, a).build), Mark(c, 0))
  {
    hide Runs;
    hide After;
    var b := WorkerOf(s, a).build;
    TakenForAbandoned(s, c, keep, b);
    var steps := [Snapshot(c, true, keep), Consider(c, b), Recheck(c)];
    var cleared := After(s, steps);
    ReadyWithoutTheLockIsTaken(cleared, a, c, 0);
    RunGrows(s, steps, StoreResult(a));
    assert steps + [StoreResult(a)] == Overtaken(a, c, keep, b);
  }

  lemma {:induction false} Unused(x: set<Actor>) returns (c: Actor)
    ensures forall y :: y in x ==> y < c
  {
    c := 0;
    if x != {} {
      var y :| y in x;
      var rest := Unused(x - {y});
      c := if rest > y then rest else y + 1;
      forall z | z in x ensures z < c {
        assert z == y || z in x - {y};
      }
    }
  }

  // Whoever else holds the lock may lose it.
  function Release(s: System): seq<Step> {
    match s.lock
    case None => []
    case Some(ByWorker(x)) => [WorkerExpires(x)]
    case Some(ByCleaner(x)) => [CleanerExpires(x)]
  }

  lemma Releases(s: System, a: Actor)
    requires s.lock != Some(ByWorker(a)) && AboutToStore(s, a)
    ensures Runs(s, Release(s)) && WorkerExpires(a) !in Release(s)
    ensures var t := After(s, Release(s));
            t.lock.None? && t.builds == s.builds && t.cleaners == s.cleaners && WorkerOf(t, a) == WorkerOf(s, a)
  {
    if s.lock.Some? {
      var st := Release(s)[0];
      assert Release(s) == [st] && [st][1..] == [];
      assert Runs(Apply(s, st), []);
    }
  }

  // The exact condition: a worker about to store READY can lose the build, to a pass that
  // has it as BUILDING, if and only if it no longer holds the image lock and the build is
  // still stored BUILDING, or already taken for abandoned and not yet deleted.
  lemma ReadyIsLostIff(s: System, a: Actor)
    requires Inv(s) && AboutToStore(s, a)
    ensures var b := WorkerOf(s, a).build;
            CanLose(s, a) <==> s.lock != Some(ByWorker(a)) && (Is(s.builds, b, BUILDING) || (b in s.builds && exists c :: HasCleared(s, c, b)))
  {
    var b := WorkerOf(s, a).build;
    if s.lock != Some(ByWorker(a)) && Is(s.builds, b, BUILDING) {
      var c := Unused(s.cleaners.Keys);
      var keep := TheTopTwo(s.builds);
      Releases(s, a);
      var t := After(s, Release(s));
      FreeLockLoses(t, a, c, keep);
      var steps := Overtaken(a, c, keep, b);
      RunsJoin(s, Release(s), steps);
      assert LosesBy(s, a, Release(s) + steps, Mark(c, 0));
    } else if s.lock != Some(ByWorker(a)) && b in s.builds && exists c :: HasCleared(s, c, b) {
      var c :| HasCleared(s, c, b);
      ReadyWithoutTheLockIsTaken(s, a, c, 0);
      assert [StoreResult(a)][1..] == [];
      assert Runs(Apply(s, StoreResult(a)), []);
      assert LosesBy(s, a, [StoreResult(a)], Mark(c, 0));
    } else {
      assert WorkerOk(s, a);
      assert Spared(s, a, b);
      forall steps, st ensures !LosesBy(s, a, steps, st) {
        if Runs(s, steps) && WorkerExpires(a) !in steps {
          SparedForever(s, a, b, steps);
          SparedIsNotTaken(After(s, steps), a, b, st);
        }
      }
    }
  }

  // Worker 0 makes build 3, decides READY and loses the lock; pass 1 took its snapshot
  // before that and looks after it.
  lemma TheLockCanBeLost()
    ensures exists steps :: Runs(Empty(), steps) && Exposed(After(Empty(), steps), 0, 1)
  {
    var r0: seq<Step> := [];
    assert Runs(Empty(), r0) && After(Empty(), r0) == Empty();
    hide Runs;
    hide After;
    RunGrows(Empty(), r0, WorkerLocks(0));
    var r1 := r0 + [WorkerLocks(0)];
    RunGrows(Empty(), r1, StoreBuilding(0, 3, 0));
    var r2 := r1 + [StoreBuilding(0, 3, 0)];
    RunGrows(Empty(), r2, Decide(0, true, 9));
    var r3 := r2 + [Decide(0, true, 9)];
    var builds := map[3 := Build(BUILDING, 0)];
    var made := System(builds, {3}, Some(ByWorker(0)), map[0 := Decided(3, Build(READY, 9))], map[], {});
    assert After(Empty(), r3) == made;
    assert TopTwo(builds, {});
    RunGrows(Empty(), r3, Snapshot(1, true, {}));
    var r4 := r3 + [Snapshot(1, true, {})];
    RunGrows(Empty(), r4, WorkerExpires(0));
    var r5 := r4 + [WorkerExpires(0)];
    assert After(Empty(), r5) == made.(lock := None, cleaners := map[1 := Scanning(Pass(true, builds, {}))]);
    RunGrows(Empty(), r5, Consider(1, 3));
    var r6 := r5 + [Consider(1, 3)];
    RunGrows(Empty(), r6, Recheck(1));
    assert Runs(Empty(), r6 + [Recheck(1)]);
  }

  // A worker makes a build from start to end, all but giving up the lock.
  function Make(a: Actor, b: BuildId, ok: bool, at: int): seq<Step> {
    [WorkerLocks(a), StoreBuilding(a, b, 0), Decide(a, ok, at), StoreResult(a)]
  }

  function Made(s: System, a: Actor, b: BuildId, ok: bool, at: int): System {
    s.(builds := s.builds[b := Build(if ok then READY else FAILED, at)], used := s.used + {b}, lock := Some(ByWorker(a)),
       workers := s.workers[a := Stored(b)], sealed := if ok then s.sealed + {b} else s.sealed)
  }

  lemma Makes(s: System, a: Actor, b: BuildId, ok: bool, at: int)
    requires WorkerOf(s, a).Idle? && s.lock.None? && b !in s.used
    ensures Runs(s, Make(a, b, ok, at)) && After(s, Make(a, b, ok, at)) == Made(s, a, b, ok, at)
  {
    var r0: seq<Step> := [];
    assert Runs(s, r0) && After(s, r0) == s;
    hide Runs;
    hide After;
    RunGrows(s, r0, WorkerLocks(a));
    var r1 := r0 + [WorkerLocks(a)];
    RunGrows(s, r1, StoreBuilding(a, b, 0));
    var r2 := r1 + [StoreBuilding(a, b, 0)];
    RunGrows(s, r2, Decide(a, ok, at));
    var r3 := r2 + [Decide(a, ok, at)];
    RunGrows(s, r3, StoreResult(a));
    assert r3 + [StoreResult(a)] == Make(a, b, ok, at);
    var t := After(s, Make(a, b, ok, at));
    assert t.workers == s.workers[a := Stored(b)];
    assert t.builds == s.builds[b := Build(if ok then READY else FAILED, at)];
  }

  lemma MakesAndUnlocks(s: System, a: Actor, b: BuildId, at: int)
    requires WorkerOf(s, a).Idle? && s.lock.None? && b !in s.used
    ensures var steps := Make(a, b, true, at) + [WorkerUnlocks(a)];
            Runs(s, steps) && After(s, steps) == Made(s, a, b, true, at).(lock := None, workers := s.workers[a := Idle])
  {
    hide Runs;
    hide After;
    Makes(s, a, b, true, at);
    RunGrows(s, Make(a, b, true, at), WorkerUnlocks(a));
    assert s.workers[a := Stored(b)][a := Idle] == s.workers[a := Idle];
  }

  // A FAILED build goes while its worker still holds the image lock.
  lemma FailedBuildsMayGoUnderTheLock()
    ensures var steps := Make(0, 3, false, 9);
            && Runs(Empty(), steps) && UnderLock(After(Empty(), steps), 0, 3)
            && Runs(Empty(), steps + OnePass(1, true, {}, 3))
            && var s := After(Empty(), steps + OnePass(1, true, {}, 3)); s.lock == Some(ByWorker(0)) && 3 !in s.builds
  {
    hide Runs;
    hide After;
    Makes(Empty(), 0, 3, false, 9);
    var s := Made(Empty(), 0, 3, false, 9);
    assert Enabled(s, Snapshot(1, true, {}));
    OnePassRuns(s, 0, 3, 1, true, {});
    RunsJoin(Empty(), Make(0, 3, false, 9), OnePass(1, true, {}, 3));
  }

  // A READY build goes too, when its builder's clock is behind that of the builder of the
  // two builds before.
  function Older(): seq<Step> { (Make(0, 1, true, 10) + [WorkerUnlocks(0)]) + (Make(0, 2, true, 11) + [WorkerUnlocks(0)]) }

  function TwoReady(): System {
    System(map[1 := Build(READY, 10), 2 := Build(READY, 11)], {1, 2}, None, map[0 := Idle], map[], {1, 2})
  }

  lemma OlderRuns()
    ensures Runs(Empty(), Older()) && After(Empty(), Older()) == TwoReady()
  {
    hide Runs;
    hide After;
    MakesAndUnlocks(Empty(), 0, 1, 10);
    var s1 := System(map[1 := Build(READY, 10)], {1}, None, map[0 := Idle], map[], {1});
    assert Made(Empty(), 0, 1, true, 10).(lock := None, workers := Empty().workers[0 := Idle]) == s1;
    MakesAndUnlocks(s1, 0, 2, 11);
    assert Made(s1, 0, 2, true, 11).(lock := None, workers := s1.workers[0 := Idle]) == TwoReady();
    RunsJoin(Empty(), Make(0, 1, true, 10) + [WorkerUnlocks(0)], Make(0, 2, true, 11) + [WorkerUnlocks(0)]);
  }

  lemma ReadyBuildsMayGoUnderTheLock()
    ensures var steps := Older() + Make(2, 3, true, 9);
            && Runs(Empty(), steps) && UnderLock(After(Empty(), steps), 2, 3) && Is(After(Empty(), steps).builds, 3, READY)
            && Runs(Empty(), steps + OnePass(1, true, {1, 2}, 3))
            && var s := After(Empty(), steps + OnePass(1, true, {1, 2}, 3)); s.lock == Some(ByWorker(2)) && 3 !in s.builds
  {
    hide Runs;
    hide After;
    OlderRuns();
    Makes(TwoReady(), 2, 3, true, 9);
    RunsJoin(Empty(), Older(), Make(2, 3, true, 9));
    var s := Made(TwoReady(), 2, 3, true, 9);
    assert TopTwo(s.builds, {1, 2});
    assert Enabled(s, Snapshot(1, true, {1, 2}));
    OnePassRuns(s, 2, 3, 1, true, {1, 2});
    RunsJoin(Empty(), Older() + Make(2, 3, true, 9), OnePass(1, true, {1, 2}, 3));
  }
}
