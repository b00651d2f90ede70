/** What the coherence invariant gives a reader of the cache. */
module TreeCacheTheorems {
  import opened Wrappers
  import opened TreeCache
  import opened TreeCacheRuns
  import opened TreeCacheProofs

  predicate Quiet(s: System) {
    s.wire == [] && s.cache.events == [] && s.cache.playback == []
  }

  // In every reachable state, for every path, what the cache will say once the items
  // pending for it have been played back is what the store says now.
  lemma EveryRunIsCoherent(cfg: Config, s0: System, steps: seq<Step>, p: Path)
    requires ValidConfig(cfg) && Initial(cfg, s0) && Runs(cfg, s0, steps) && cfg.legal(p)
    requires After(cfg, s0, steps).watch
    ensures var s := After(cfg, s0, steps);
            var last := Last(Pipe(cfg, s), p);
            if last.Some? then Covers(last.value, Lookup(s, p))
            else Coherent(cfg, s, p) || WalkOwes(cfg, s, p)
  {
    InitialInv(cfg, s0);
    RunKeepsInv(cfg, s0, steps);
    assert PathOk(cfg, After(cfg, s0, steps), p);
  }

  // However often the session was lost and the cache restarted, whatever was written
  // meanwhile and whatever was locked in this process: once the walk is over and both
  // queues are drained, the known paths are the store's, every object has a stored path,
  // and a path has an object exactly when its znode has data, unless that znode's own
  // bytes do not decode.  The object is exactly the stored version, unless it has itself
  // been locked in this process since the cache last wrote it.
  lemma DrainedCacheIsTheStore(cfg: Config, s0: System, steps: seq<Step>)
    requires ValidConfig(cfg) && Initial(cfg, s0) && Runs(cfg, s0, steps)
    requires var s := After(cfg, s0, steps); s.watch && s.walk.Done? && Quiet(s)
    ensures var s := After(cfg, s0, steps);
            && s.cache.paths == s.store.Keys - {cfg.root}
            && (forall p, k :: cfg.legal(p) && cfg.parse(p) == Some(k) ==>
                  if p !in s.store || s.store[p].data == "" then k !in s.cache.objects
                  else cfg.decode(s.store[p].data).Some? ==>
                    k in s.cache.objects
                    && (k !in s.touched ==>
                          s.cache.objects[k] == Entry(cfg.decode(s.store[p].data).value, s.store[p].mzxid, false)))
            && (forall k :: k in s.cache.objects ==> exists p :: p in s.store && cfg.parse(p) == Some(k))
  {
    var s := After(cfg, s0, steps);
    assert Pipe(cfg, s) == [];
    InitialInv(cfg, s0);
    RunKeepsInv(cfg, s0, steps);
    forall p | cfg.legal(p) ensures Coherent(cfg, s, p) {
      EveryRunIsCoherent(cfg, s0, steps, p);
    }
    forall p | p in s.cache.paths || p in s.store.Keys - {cfg.root} ensures p in s.cache.paths && p in s.store.Keys - {cfg.root} {
      assert Coherent(cfg, s, p);
    }
  }

  // The object of a path is its current version (or absent, for a znode that is absent
  // or empty).
  predicate UpToDate(s: System, p: Path, k: Key) {
    if p !in s.store || s.store[p].data == "" then k !in s.cache.objects
    else k in s.cache.objects && s.cache.objects[k].mzxid == s.store[p].mzxid
  }

  // Playback logs and drops an item whose data does not decode, so a drained cache is
  // up to date about an object it alone wrote exactly when the stored bytes decode.
  lemma UpToDateIffDecodable(cfg: Config, s: System, p: Path, k: Key)
    requires ValidConfig(cfg) && Inv(cfg, s) && s.watch && s.walk.Done? && Quiet(s)
    requires cfg.legal(p) && cfg.parse(p) == Some(k) && k !in s.touched
    ensures UpToDate(s, p, k) <==> p !in s.store || s.store[p].data == "" || cfg.decode(s.store[p].data).Some?
  {
    assert Pipe(cfg, s) == [];
    assert PathOk(cfg, s, p) && EntryOk(cfg, s, p);
  }

  // A write to a known znode whose notification has been taken in by the event worker.
  function WriteTakenIn(s: System, p: Path, k: Key, data: string): System {
    s.(store := s.store[p := ZNode(data, s.zxid + 1)], zxid := s.zxid + 1,
       cache := s.cache.(playback := [Item(CHANGED, p, InFlight, Some(k))]))
  }

  lemma WriteArrives(cfg: Config, s: System, p: Path, k: Key, data: string)
    requires s.watch && Quiet(s) && p in s.store && p != cfg.root && cfg.parse(p) == Some(k)
    ensures Enabled(cfg, s, SetData(p, data))
    ensures var s1 := Apply(cfg, s, SetData(p, data));
            && Enabled(cfg, s1, Deliver)
            && var s2 := Apply(cfg, s1, Deliver);
            && Enabled(cfg, s2, HandleEvent)
            && Apply(cfg, s2, HandleEvent) == WriteTakenIn(s, p, k, data)
  {
    var s1 := Apply(cfg, s, SetData(p, data));
    assert s1.wire == [Event(CHANGED, p)];
    var s2 := Apply(cfg, s1, Deliver);
    assert s2.cache.events == [Event(CHANGED, p)] && s2.wire == [];
    var s3 := Apply(cfg, s2, HandleEvent);
    assert s3.cache.events == [] && s3.cache.playback == [Item(CHANGED, p, InFlight, Some(k))];
  }

  lemma GarbageIsDropped(cfg: Config, s: System, p: Path, k: Key, garbage: string)
    requires Quiet(s) && p in s.cache.paths && garbage != "" && cfg.decode(garbage).None?
    ensures var s3 := WriteTakenIn(s, p, k, garbage);
            && Enabled(cfg, s3, Resolve(0))
            && var s4 := Apply(cfg, s3, Resolve(0));
            && Enabled(cfg, s4, Playback)
            && Apply(cfg, s4, Playback) == s3.(cache := s.cache)
  {
    var s3 := WriteTakenIn(s, p, k, garbage);
    var s4 := Apply(cfg, s3, Resolve(0));
    assert s4.cache.playback == [Item(CHANGED, p, Got(Some(ZNode(garbage, s.zxid + 1))), Some(k))];
    var s5 := Apply(cfg, s4, Playback);
    assert s5.cache.playback == [] && s5.cache.paths == s.cache.paths;
  }

  // One undecodable write, delivered, fetched and played back in the usual way, leaves
  // the object of the previous version in a drained cache.
  lemma UndecodableWriteGoesStale(cfg: Config, s: System, p: Path, k: Key, garbage: string)
    requires ValidConfig(cfg) && Inv(cfg, s) && s.watch && s.walk.Done? && Quiet(s)
    requires cfg.legal(p) && cfg.parse(p) == Some(k) && p in s.store && k in s.cache.objects
    requires garbage != "" && cfg.decode(garbage).None?
    ensures var run := [SetData(p, garbage), Deliver, HandleEvent, Resolve(0), Playback];
            && Runs(cfg, s, run)
            && var s' := After(cfg, s, run);
               && Quiet(s') && s'.watch && s'.walk == s.walk && s'.touched == s.touched
               && s'.cache.objects == s.cache.objects && p in s'.store && s'.store[p].data == garbage && !UpToDate(s', p, k)
  {
    assert p != cfg.root && p in s.cache.paths && s.cache.objects[k].mzxid <= s.zxid by {
      assert Pipe(cfg, s) == [];
      assert PathOk(cfg, s, p) && EntryOk(cfg, s, p);
    }
    WriteArrives(cfg, s, p, k, garbage);
    GarbageIsDropped(cfg, s, p, k, garbage);
    hide Inv;
    hide Apply;
    hide Enabled;
    hide Runs;
    hide After;
    RunOfFive(cfg, s, SetData(p, garbage), Deliver, HandleEvent, Resolve(0), Playback);
  }

  lemma RunOfFive(cfg: Config, s: System, st1: Step, st2: Step, st3: Step, st4: Step, st5: Step)
    requires Enabled(cfg, s, st1)
    requires var s1 := Apply(cfg, s, st1); Enabled(cfg, s1, st2)
    requires var s2 := Apply(cfg, Apply(cfg, s, st1), st2); Enabled(cfg, s2, st3)
    requires var s3 := Apply(cfg, Apply(cfg, Apply(cfg, s, st1), st2), st3); Enabled(cfg, s3, st4)
    requires var s4 := Apply(cfg, Apply(cfg, Apply(cfg, Apply(cfg, s, st1), st2), st3), st4); Enabled(cfg, s4, st5)
    ensures Runs(cfg, s, [st1, st2, st3, st4, st5])
    ensures After(cfg, s, [st1, st2, st3, st4, st5])
            == Apply(cfg, Apply(cfg, Apply(cfg, Apply(cfg, Apply(cfg, s, st1), st2), st3), st4), st5)
  {
    hide Apply;
    hide Enabled;
    var s1 := Apply(cfg, s, st1);
    var s2 := Apply(cfg, s1, st2);
    var s3 := Apply(cfg, s2, st3);
    var s4 := Apply(cfg, s3, st4);
    RunGrows(cfg, Apply(cfg, s4, st5), s4, st5, []);
    RunGrows(cfg, Apply(cfg, s4, st5), s3, st4, [st5]);
    RunGrows(cfg, Apply(cfg, s4, st5), s2, st3, [st4, st5]);
    RunGrows(cfg, Apply(cfg, s4, st5), s1, st2, [st3, st4, st5]);
    RunGrows(cfg, Apply(cfg, s4, st5), s, st1, [st2, st3, st4, st5]);
  }

  // One more step in front of a run that ends in t.
  lemma RunGrows(cfg: Config, t: System, s: System, st: Step, rest: seq<Step>)
    requires Enabled(cfg, s, st) && Runs(cfg, Apply(cfg, s, st), rest) && After(cfg, Apply(cfg, s, st), rest) == t
    ensures Runs(cfg, s, [st] + rest) && After(cfg, s, [st] + rest) == t
  {
    assert ([st] + rest)[1..] == rest;
  }

  // ---------------------------------------------------------------- draining

  predicate CacheStep(st: Step) {
    st.Deliver? || st.HandleEvent? || st.Resolve? || st.Playback?
  }

  function PlaybackWork(items: seq<Item>): nat {
    2 * |items| + (if items != [] && items[0].fetch.InFlight? then 1 else 0)
  }

  // Left alone, the two workers empty every queue: from any state there is a run of
  // worker steps and fetch answers that ends with nothing pending and the same store.
  lemma QueuesDrain(cfg: Config, s: System) returns (steps: seq<Step>)
    ensures Runs(cfg, s, steps) && Quiet(After(cfg, s, steps))
    ensures forall st :: st in steps ==> CacheStep(st)
    ensures var s' := After(cfg, s, steps);
            s'.store == s.store && s'.watch == s.watch && s'.walk == s.walk && s'.touched <= s.touched
    decreases |s.wire|, |s.cache.events|, PlaybackWork(s.cache.playback)
  {
    if Quiet(s) {
      steps := [];
    } else {
      var st := if s.wire != [] then Deliver
                else if s.cache.events != [] then HandleEvent
                else if s.cache.playback[0].fetch.InFlight? then Resolve(0)
                else Playback;
      var rest := QueuesDrain(cfg, Apply(cfg, s, st));
      steps := [st] + rest;
      assert steps[1..] == rest;
    }
  }

  // ---------------------------------------------------------------- a stale cache is reached

  lemma {:induction false} RunsJoin(cfg: Config, s: System, first: seq<Step>, rest: seq<Step>)
    requires Runs(cfg, s, first) && Runs(cfg, After(cfg, s, first), rest)
    ensures Runs(cfg, s, first + rest) && After(cfg, s, first + rest) == After(cfg, After(cfg, s, first), rest)
    decreases |first|
  {
    hide Enabled;
    hide Apply;
    if first == [] {
      assert first + rest == rest;
    } else {
      RunsJoin(cfg, Apply(cfg, s, first[0]), first[1..], rest);
      assert (first + rest)[1..] == first[1..] + rest;
    }
  }

  // A store with one znode below the root, before anybody watches it.
  function OneZnode(cfg: Config, p: Path, data: string): System {
    System(map[cfg.root := ZNode("", 0), p := ZNode(data, 0)], 0, false, [], Cache(map[], {}, [], []), NotStarted, {})
  }

  // The walk over it: Begun, then Down at the znode, then Over.
  function Begun(cfg: Config, p: Path, data: string): System {
    OneZnode(cfg, p, data).(watch := true, walk := Walking([Emit(cfg.root)], {}))
  }

  function Down(cfg: Config, p: Path, data: string): System {
    Begun(cfg, p, data).(walk := Walking([Emit(p)], {cfg.root}),
                         cache := Cache(map[], {}, [Event(NONE, cfg.root)], []))
  }

  function Over(cfg: Config, p: Path, data: string): System {
    Down(cfg, p, data).(walk := Done, cache := Cache(map[], {}, [Event(NONE, cfg.root), Event(NONE, p)], []))
  }

  function FirstWalk(p: Path): seq<Step> {
    [Restart, WalkBegin] + [WalkEmit, WalkList([p])] + [WalkEmit, WalkList([])] + [WalkFinish([])]
  }

  lemma RunOfTwo(cfg: Config, s: System, s1: System, s2: System, st1: Step, st2: Step)
    requires Enabled(cfg, s, st1) && Apply(cfg, s, st1) == s1 && Enabled(cfg, s1, st2) && Apply(cfg, s1, st2) == s2
    ensures Runs(cfg, s, [st1, st2]) && After(cfg, s, [st1, st2]) == s2
  {
    hide Enabled;
    hide Apply;
    RunGrows(cfg, s2, s1, st2, []);
    RunGrows(cfg, s2, s, st1, [st2]);
  }

  lemma WalkBegins(cfg: Config, p: Path, data: string)
    ensures Runs(cfg, OneZnode(cfg, p, data), [Restart, WalkBegin])
    ensures After(cfg, OneZnode(cfg, p, data), [Restart, WalkBegin]) == Begun(cfg, p, data)
  {
    var s := OneZnode(cfg, p, data);
    RunOfTwo(cfg, s, s.(watch := true, walk := Begin), Begun(cfg, p, data), Restart, WalkBegin);
  }

  lemma WalkGoesDown(cfg: Config, p: Path, data: string)
    requires p != cfg.root && Parent(p) == cfg.root
    ensures Runs(cfg, Begun(cfg, p, data), [WalkEmit, WalkList([p])])
    ensures After(cfg, Begun(cfg, p, data), [WalkEmit, WalkList([p])]) == Down(cfg, p, data)
  {
    var s := Begun(cfg, p, data);
    var s1 := Apply(cfg, s, WalkEmit);
    assert s1.walk == Walking([List(cfg.root)], {cfg.root}) && s1.cache.events == [Event(NONE, cfg.root)];
    assert Emits([p]) + [] == [Emit(p)];
    RunOfTwo(cfg, s, s1, Down(cfg, p, data), WalkEmit, WalkList([p]));
  }

  function Listed(cfg: Config, p: Path, data: string): System {
    Over(cfg, p, data).(walk := Walking([], {cfg.root, p}))
  }

  lemma WalkLists(cfg: Config, p: Path, data: string)
    requires p != cfg.root && Parent(p) == cfg.root
    ensures Runs(cfg, Down(cfg, p, data), [WalkEmit, WalkList([])])
    ensures After(cfg, Down(cfg, p, data), [WalkEmit, WalkList([])]) == Listed(cfg, p, data)
  {
    var s := Down(cfg, p, data);
    var s1 := Apply(cfg, s, WalkEmit);
    assert s1.walk == Walking([List(p)], {cfg.root, p}) && s1.cache.events == [Event(NONE, cfg.root), Event(NONE, p)];
    assert Emits([]) + [] == [];
    RunOfTwo(cfg, s, s1, Listed(cfg, p, data), WalkEmit, WalkList([]));
  }

  lemma WalkEnds(cfg: Config, p: Path, data: string)
    requires p != cfg.root && Parent(p) == cfg.root
    ensures Runs(cfg, Listed(cfg, p, data), [WalkFinish([])])
    ensures After(cfg, Listed(cfg, p, data), [WalkFinish([])]) == Over(cfg, p, data)
  {
    assert NoneEvents([]) == [];
    assert Apply(cfg, Listed(cfg, p, data), WalkFinish([])) == Over(cfg, p, data);
    RunGrows(cfg, Over(cfg, p, data), Listed(cfg, p, data), WalkFinish([]), []);
  }

  lemma WalksOnce(cfg: Config, p: Path, data: string)
    requires p != cfg.root && Parent(p) == cfg.root
    ensures Runs(cfg, OneZnode(cfg, p, data), FirstWalk(p)) && After(cfg, OneZnode(cfg, p, data), FirstWalk(p)) == Over(cfg, p, data)
  {
    hide Runs;
    hide After;
    var s := OneZnode(cfg, p, data);
    WalkBegins(cfg, p, data);
    WalkGoesDown(cfg, p, data);
    WalkLists(cfg, p, data);
    WalkEnds(cfg, p, data);
    RunsJoin(cfg, s, [Restart, WalkBegin], [WalkEmit, WalkList([p])]);
    RunsJoin(cfg, s, [Restart, WalkBegin] + [WalkEmit, WalkList([p])], [WalkEmit, WalkList([])]);
    RunsJoin(cfg, s, [Restart, WalkBegin] + [WalkEmit, WalkList([p])] + [WalkEmit, WalkList([])], [WalkFinish([])]);
  }

  // From a fresh cache, for every kind of tree: a walk, a drain, and one undecodable write
  // leave a drained cache with a stale object.
  lemma StalenessIsReached(cfg: Config, p: Path, k: Key, data: string, garbage: string) returns (steps: seq<Step>)
    requires ValidConfig(cfg) && cfg.legal(p) && Parent(p) == cfg.root && cfg.parse(p) == Some(k)
    requires data != "" && cfg.decode(data).Some? && garbage != "" && cfg.decode(garbage).None?
    ensures Initial(cfg, OneZnode(cfg, p, data)) && Runs(cfg, OneZnode(cfg, p, data), steps)
    ensures var s := After(cfg, OneZnode(cfg, p, data), steps);
            && Quiet(s) && s.watch && s.walk.Done? && s.touched == {}
            && k in s.cache.objects && p in s.store && !UpToDate(s, p, k)
            && s.cache.objects[k] == Entry(cfg.decode(data).value, 0, false)
  {
    hide Runs;
    hide After;
    var s0 := OneZnode(cfg, p, data);
    assert Initial(cfg, s0);
    WalksOnce(cfg, p, data);
    var s1 := Over(cfg, p, data);
    var drain := QueuesDrain(cfg, s1);
    RunsJoin(cfg, s0, FirstWalk(p), drain);
    var s2 := After(cfg, s0, FirstWalk(p) + drain);
    DrainedCacheIsTheStore(cfg, s0, FirstWalk(p) + drain);
    assert s2.touched == {} && s2.store == s0.store;
    InitialInv(cfg, s0);
    RunKeepsInv(cfg, s0, FirstWalk(p) + drain);
    UndecodableWriteGoesStale(cfg, s2, p, k, garbage);
    var write := [SetData(p, garbage), Deliver, HandleEvent, Resolve(0), Playback];
    RunsJoin(cfg, s0, FirstWalk(p) + drain, write);
    steps := FirstWalk(p) + drain + write;
  }

  lemma InitialInv(cfg: Config, s: System)
    requires Initial(cfg, s)
    ensures Inv(cfg, s)
  {
    assert LiftAll(cfg, []) == [];
    assert s.cache.events + s.wire == [];
  }
}
