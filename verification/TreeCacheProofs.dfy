/**
 The coherence of the tree cache in every run: each kind of step keeps the invariant,
 so every reachable state has it, and a drained cache is the store.
 */
module TreeCacheProofs {
  import opened Wrappers
  import opened TreeCache
  import opened TreeCacheRuns

  // ---------------------------------------------------------------- store writes

  lemma LiftAllConcat(cfg: Config, a: seq<Event>, b: seq<Event>)
    ensures LiftAll(cfg, a + b) == LiftAll(cfg, a) + LiftAll(cfg, b)
  {
  }

  lemma LastAppend(items: seq<Item>, it: Item, p: Path)
    ensures Last(items + [it], p) == if it.path == p then Some(it) else Last(items, p)
  {
    assert (items + [it])[..|items|] == items;
  }

  // What a write to one path does to the store.
  ghost predicate IsWrite(cfg: Config, s: System, store: map<Path, ZNode>, e: Event) {
    && e.Event? && (e.path == cfg.root || cfg.legal(e.path))
    && (forall q :: q != e.path ==> (q in store <==> q in s.store) && (q in store ==> store[q] == s.store[q]))
    && (if e.typ.DELETED? then e.path !in store
        else !e.typ.NONE? && e.path in store && store[e.path].mzxid == s.zxid + 1)
  }

  lemma PipeOfWrite(cfg: Config, s: System, store: map<Path, ZNode>, e: Event)
    ensures Pipe(cfg, Written(s, store, e)) == if s.watch then Pipe(cfg, s) + [Lift(cfg, e)] else Pipe(cfg, s)
  {
    var s' := Written(s, store, e);
    if s.watch {
      assert s'.cache.events + s'.wire == (s.cache.events + s.wire) + [e];
      LiftAllConcat(cfg, s.cache.events + s.wire, [e]);
      assert LiftAll(cfg, [e]) == [Lift(cfg, e)];
    }
  }

  // The write's own event covers its path; every other path is as before.
  lemma WriteKeepsPath(cfg: Config, s: System, store: map<Path, ZNode>, e: Event, p: Path)
    requires ValidConfig(cfg) && IsWrite(cfg, s, store, e)
    requires s.watch && cfg.legal(p) && PathOk(cfg, s, p)
    ensures PathOk(cfg, Written(s, store, e), p)
  {
    PipeOfWrite(cfg, s, store, e);
    LastAppend(Pipe(cfg, s), Lift(cfg, e), p);
  }

  lemma WriteKeepsBase(cfg: Config, s: System, store: map<Path, ZNode>, e: Event)
    requires ValidConfig(cfg) && Base(cfg, s) && IsWrite(cfg, s, store, e) && StoreOk(cfg, Written(s, store, e))
    ensures Base(cfg, Written(s, store, e))
  {
    var s' := Written(s, store, e);
    PipeOfWrite(cfg, s, store, e);
    forall p | cfg.legal(p) ensures EntryOk(cfg, s', p) {
      assert EntryOk(cfg, s, p);
    }
    forall it | it in Pipe(cfg, s') ensures ItemOk(cfg, s', it) {
      if it in Pipe(cfg, s) {
        assert ItemOk(cfg, s, it);
      } else {
        assert it == Lift(cfg, e);
      }
    }
  }

  lemma WriteKeepsInv(cfg: Config, s: System, store: map<Path, ZNode>, e: Event)
    requires ValidConfig(cfg) && Inv(cfg, s) && IsWrite(cfg, s, store, e) && StoreOk(cfg, Written(s, store, e))
    ensures Inv(cfg, Written(s, store, e))
  {
    WriteKeepsBase(cfg, s, store, e);
    forall p | cfg.legal(p) && s.watch ensures PathOk(cfg, Written(s, store, e), p) {
      WriteKeepsPath(cfg, s, store, e, p);
    }
  }

  // ---------------------------------------------------------------- moving items along

  // Only the items in the pipe change, and for every path the youngest one keeps
  // covering it.
  lemma PipeKeepsInv(cfg: Config, s: System, s': System)
    requires ValidConfig(cfg) && Inv(cfg, s)
    requires s' == s.(cache := s'.cache, wire := s'.wire)
    requires s'.cache.objects == s.cache.objects && s'.cache.paths == s.cache.paths
    requires forall it :: it in Pipe(cfg, s') ==> ItemOk(cfg, s, it)
    requires forall it :: it in s'.cache.playback ==> !it.fetch.Unissued?
    requires s.watch ==> forall p :: cfg.legal(p) ==> PathOk(cfg, s', p)
    ensures Inv(cfg, s')
  {
    forall p | cfg.legal(p) ensures EntryOk(cfg, s', p) {
      assert EntryOk(cfg, s, p);
    }
  }

  lemma DeliverKeepsInv(cfg: Config, s: System)
    requires ValidConfig(cfg) && Inv(cfg, s) && Enabled(cfg, s, Deliver)
    ensures Inv(cfg, Apply(cfg, s, Deliver))
  {
    var s' := Apply(cfg, s, Deliver);
    assert s'.cache.events + s'.wire == s.cache.events + s.wire;
    forall p | cfg.legal(p) && s.watch ensures PathOk(cfg, s', p) {
      assert PathOk(cfg, s, p);
    }
    PipeKeepsInv(cfg, s, s');
  }

  lemma NotifyKeepsInv(cfg: Config, s: System)
    requires ValidConfig(cfg) && Inv(cfg, s)
    ensures Inv(cfg, Apply(cfg, s, Notify))
  {
    var s' := Apply(cfg, s, Notify);
    assert s'.cache.events + s'.wire == (s.cache.events + s.wire) + [SessionEvent];
    LiftAllConcat(cfg, s.cache.events + s.wire, [SessionEvent]);
    assert LiftAll(cfg, [SessionEvent]) == [Lift(cfg, SessionEvent)];
    assert Pipe(cfg, s') == Pipe(cfg, s) + [Lift(cfg, SessionEvent)];
    forall p | cfg.legal(p) && s.watch ensures PathOk(cfg, s', p) {
      LastAppend(Pipe(cfg, s), Lift(cfg, SessionEvent), p);
      assert PathOk(cfg, s, p);
    }
    PipeKeepsInv(cfg, s, s');
  }

  // Replacing one item of the pipe by one for the same path, or dropping an item for
  // the root, changes the youngest item of a path only if it was that item.
  lemma LastReplace(a: seq<Item>, was: Item, now: seq<Item>, b: seq<Item>, p: Path)
    requires |now| <= 1 && (if now == [] then was.path != p else now[0].path == was.path)
    ensures var l, l' := Last(a + [was] + b, p), Last(a + now + b, p);
            l' == l || (l == Some(was) && now != [] && l' == Some(now[0]))
  {
    LastConcat(a + [was], b, p);
    LastConcat(a + now, b, p);
    LastAppend(a, was, p);
    if now == [] {
      assert a + now == a;
    } else {
      assert now == [now[0]];
      LastAppend(a, now[0], p);
    }
  }

  lemma HandleEventKeepsInv(cfg: Config, s: System)
    requires ValidConfig(cfg) && Inv(cfg, s) && Enabled(cfg, s, HandleEvent)
    ensures Inv(cfg, Apply(cfg, s, HandleEvent))
  {
    var s' := Apply(cfg, s, HandleEvent);
    var e := s.cache.events[0];
    var rest := s.cache.events[1..] + s.wire;
    var now := if Classify(cfg, e).Some? then [Classify(cfg, e).value] else [];
    assert s.cache.events + s.wire == [e] + rest;
    LiftAllConcat(cfg, [e], rest);
    assert LiftAll(cfg, [e]) == [Lift(cfg, e)];
    assert Pipe(cfg, s) == s.cache.playback + [Lift(cfg, e)] + LiftAll(cfg, rest);
    assert Pipe(cfg, s') == s.cache.playback + now + LiftAll(cfg, rest);
    assert Lift(cfg, e) in Pipe(cfg, s);
    assert ItemOk(cfg, s, Lift(cfg, e));
    forall p | cfg.legal(p) && s.watch ensures PathOk(cfg, s', p) {
      assert PathOk(cfg, s, p);
      LastReplace(s.cache.playback, Lift(cfg, e), now, LiftAll(cfg, rest), p);
    }
    PipeKeepsInv(cfg, s, s');
  }

  lemma AnswerKeepsInv(cfg: Config, s: System, i: nat, f: Fetch)
    requires ValidConfig(cfg) && Inv(cfg, s)
    requires i < |s.cache.playback| && s.cache.playback[i].fetch.InFlight?
    requires f == Got(Lookup(s, s.cache.playback[i].path)) || (f == Failed && !s.watch)
    ensures Inv(cfg, s.(cache := s.cache.(playback := s.cache.playback[i := s.cache.playback[i].(fetch := f)])))
  {
    var pb := s.cache.playback;
    var it := pb[i];
    var s' := s.(cache := s.cache.(playback := pb[i := it.(fetch := f)]));
    var b := pb[i + 1..] + LiftAll(cfg, s.cache.events + s.wire);
    assert Pipe(cfg, s) == pb[..i] + [it] + b;
    assert Pipe(cfg, s') == pb[..i] + [it.(fetch := f)] + b;
    assert it in Pipe(cfg, s);
    assert ItemOk(cfg, s, it);
    forall p | cfg.legal(p) && s.watch ensures PathOk(cfg, s', p) {
      assert PathOk(cfg, s, p);
      LastReplace(pb[..i], it, [it.(fetch := f)], b, p);
    }
    PipeKeepsInv(cfg, s, s');
  }

  // ---------------------------------------------------------------- playback

  lemma PlaybackPipe(cfg: Config, s: System)
    requires Enabled(cfg, s, Playback)
    ensures Pipe(cfg, s) == [s.cache.playback[0]] + Pipe(cfg, Apply(cfg, s, Playback))
  {
  }

  lemma PlaybackKeepsEntry(cfg: Config, s: System, p: Path)
    requires ValidConfig(cfg) && Enabled(cfg, s, Playback) && cfg.legal(p)
    requires ItemOk(cfg, s, s.cache.playback[0]) && !s.cache.playback[0].fetch.Unissued?
    requires EntryOk(cfg, s, p)
    ensures EntryOk(cfg, Apply(cfg, s, Playback), p)
  {
  }

  // What playing an item back does to the dictionary and the known paths.
  lemma PlaybackTouches(cfg: Config, s: System)
    requires Enabled(cfg, s, Playback) && ItemOk(cfg, s, s.cache.playback[0]) && !s.cache.playback[0].fetch.Unissued?
    ensures var s' := Apply(cfg, s, Playback); var it := s.cache.playback[0];
            && (forall k :: k in s'.cache.objects && k !in s.cache.objects ==> it.key == Some(k) && it.path in s'.cache.paths)
            && (forall p :: p != it.path ==> (p in s'.cache.paths <==> p in s.cache.paths))
            && (it.path !in s'.cache.paths && it.key.Some? && it.fetch != Failed ==> it.key.value !in s'.cache.objects)
            && (it.fetch == Failed ==> s'.cache.paths == s.cache.paths)
  {
  }

  // What was locked since the cache wrote it stays so unless the item writes it.
  lemma PlaybackKeepsTouched(cfg: Config, s: System)
    requires Enabled(cfg, s, Playback) && ObjectsOk(cfg, s)
    ensures var s' := Apply(cfg, s, Playback);
            && (forall k :: k in s'.cache.objects && s'.cache.objects[k].locked ==> k in s'.touched)
            && s'.touched <= s'.cache.objects.Keys
  {
  }

  lemma PlaybackKeepsObjects(cfg: Config, s: System)
    requires ValidConfig(cfg) && Enabled(cfg, s, Playback) && ObjectsOk(cfg, s)
    requires ItemOk(cfg, s, s.cache.playback[0]) && !s.cache.playback[0].fetch.Unissued?
    ensures ObjectsOk(cfg, Apply(cfg, s, Playback))
  {
    var s' := Apply(cfg, s, Playback);
    var it := s.cache.playback[0];
    assert it.key == cfg.parse(it.path);
    PlaybackTouches(cfg, s);
    PlaybackKeepsTouched(cfg, s);
    hide Apply;
    hide Enabled;
    hide ItemOk;
    hide ValidConfig;
    forall k | k in s'.cache.objects ensures exists p :: p in s'.cache.paths && cfg.parse(p) == Some(k) {
      if k in s.cache.objects {
        var p :| p in s.cache.paths && cfg.parse(p) == Some(k);
        assert p in s'.cache.paths || p == it.path;
      }
    }
  }

  // If the item played back was the only one left for its path, it leaves the path
  // coherent: what it fetched is what is stored, and mzxid suppression only ever keeps
  // an object that is that same version.
  lemma PlaybackSettles(cfg: Config, s: System)
    requires ValidConfig(cfg) && Enabled(cfg, s, Playback) && s.watch && ObjectsOk(cfg, s)
    requires var it := s.cache.playback[0];
             ItemOk(cfg, s, it) && !it.fetch.Unissued? && cfg.legal(it.path) && EntryOk(cfg, s, it.path)
             && Covers(it, Lookup(s, it.path))
    ensures Coherent(cfg, Apply(cfg, s, Playback), s.cache.playback[0].path)
  {
  }

  lemma PlaybackKeepsOthers(cfg: Config, s: System, p: Path)
    requires ValidConfig(cfg) && Enabled(cfg, s, Playback) && cfg.legal(p) && p != s.cache.playback[0].path
    requires ItemOk(cfg, s, s.cache.playback[0]) && !s.cache.playback[0].fetch.Unissued?
    ensures Coherent(cfg, s, p) ==> Coherent(cfg, Apply(cfg, s, Playback), p)
    ensures WalkOwes(cfg, s, p) ==> WalkOwes(cfg, Apply(cfg, s, Playback), p)
  {
  }

  lemma PlaybackKeepsPath(cfg: Config, s: System, p: Path)
    requires ValidConfig(cfg) && Base(cfg, s) && s.watch && Enabled(cfg, s, Playback)
    requires cfg.legal(p) && PathOk(cfg, s, p)
    ensures PathOk(cfg, Apply(cfg, s, Playback), p)
  {
    var s' := Apply(cfg, s, Playback);
    var it := s.cache.playback[0];
    PlaybackPipe(cfg, s);
    assert ItemOk(cfg, s, it);
    LastConcat([it], Pipe(cfg, s'), p);
    LastAppend([], it, p);
    assert [] + [it] == [it];
    if Last(Pipe(cfg, s'), p).None? {
      if p == it.path {
        PlaybackSettles(cfg, s);
      } else {
        PlaybackKeepsOthers(cfg, s, p);
      }
    }
  }

  lemma PlaybackKeepsInv(cfg: Config, s: System)
    requires ValidConfig(cfg) && Inv(cfg, s) && Enabled(cfg, s, Playback)
    ensures Inv(cfg, Apply(cfg, s, Playback))
  {
    var s' := Apply(cfg, s, Playback);
    PlaybackPipe(cfg, s);
    assert s.cache.playback[0] in Pipe(cfg, s);
    PlaybackKeepsObjects(cfg, s);
    forall i | i in Pipe(cfg, s') ensures ItemOk(cfg, s', i) {
      assert ItemOk(cfg, s, i);
    }
    forall p | cfg.legal(p) ensures EntryOk(cfg, s', p) {
      assert EntryOk(cfg, s, p);
      PlaybackKeepsEntry(cfg, s, p);
    }
    forall p | cfg.legal(p) && s.watch ensures PathOk(cfg, s', p) {
      PlaybackKeepsPath(cfg, s, p);
    }
  }

  // ---------------------------------------------------------------- session loss and restart

  lemma LoseKeepsInv(cfg: Config, s: System)
    requires ValidConfig(cfg) && Inv(cfg, s)
    ensures Inv(cfg, Apply(cfg, s, Lose))
  {
    var s' := Apply(cfg, s, Lose);
    LiftAllConcat(cfg, s.cache.events, s.wire);
    assert s.cache.events + [] == s.cache.events;
    forall it | it in Pipe(cfg, s') ensures ItemOk(cfg, s', it) {
      assert it in Pipe(cfg, s);
      assert ItemOk(cfg, s, it);
    }
    forall p | cfg.legal(p) ensures EntryOk(cfg, s', p) {
      assert EntryOk(cfg, s, p);
    }
  }

  // Whatever the old session left behind, every path is coherent or owed an event.
  lemma RestartRestoresInv(cfg: Config, s: System)
    requires ValidConfig(cfg) && Base(cfg, s)
    ensures Inv(cfg, Apply(cfg, s, Restart))
  {
    var s' := Apply(cfg, s, Restart);
    assert Pipe(cfg, s') == [];
    forall p | cfg.legal(p) ensures EntryOk(cfg, s', p) && PathOk(cfg, s', p) {
      assert EntryOk(cfg, s, p);
    }
  }

  // ---------------------------------------------------------------- the walk

  lemma {:induction false} WalkReachesAll(cfg: Config, s: System, p: Path)
    requires ValidConfig(cfg) && StoreOk(cfg, s) && p in s.store
    ensures cfg.root in s.store && Unwalked(cfg.root, [Emit(cfg.root)], p)
    decreases |p|
  {
    if p != cfg.root {
      WalkReachesAll(cfg, s, Parent(p));
    }
  }

  lemma {:induction false} EmitKeepsUnwalked(root: Path, todo: seq<Visit>, p: Path)
    requires todo != [] && todo[0].Emit? && Unwalked(root, todo, p) && p != todo[0].path
    ensures Unwalked(root, [List(todo[0].path)] + todo[1..], p)
    decreases |p|
  {
    var todo' := [List(todo[0].path)] + todo[1..];
    assert todo == [todo[0]] + todo[1..];
    if Emit(p) !in todo && List(Parent(p)) !in todo && Parent(p) != todo[0].path {
      EmitKeepsUnwalked(root, todo, Parent(p));
    }
  }

  // What is still to come when the first visit makes way for its children.
  lemma StillToCome(todo: seq<Visit>, kids: seq<Path>, v: Visit)
    requires todo != [] && v in todo && v != todo[0]
    ensures v in Emits(kids) + todo[1..]
  {
    assert todo == [todo[0]] + todo[1..];
  }

  lemma {:induction false} ListKeepsUnwalked(cfg: Config, s: System, kids: seq<Path>, p: Path)
    requires ValidConfig(cfg) && StoreOk(cfg, s) && p in s.store
    requires s.walk.Walking? && s.walk.todo != [] && Enabled(cfg, s, WalkList(kids))
    requires Unwalked(cfg.root, s.walk.todo, p)
    ensures Unwalked(cfg.root, Emits(kids) + s.walk.todo[1..], p)
    decreases |p|
  {
    var todo := s.walk.todo;
    assert todo[0] == List(todo[0].path);
    if Emit(p) in todo {
      StillToCome(todo, kids, Emit(p));
    } else if Parent(p) == todo[0].path {
      var i :| 0 <= i < |kids| && kids[i] == p;
      assert Emits(kids)[i] == Emit(p);
      assert (Emits(kids) + todo[1..])[i] == Emit(p);
    } else if List(Parent(p)) in todo {
      StillToCome(todo, kids, List(Parent(p)));
    } else {
      assert Unwalked(cfg.root, todo, Parent(p));
      hide Enabled;
      ListKeepsUnwalked(cfg, s, kids, Parent(p));
    }
  }

  // Appending NONE events to the event queue: they cover their own paths and change
  // nothing for the others.
  lemma NonesAppended(cfg: Config, s: System, s': System, paths: seq<Path>, p: Path)
    requires s'.cache == s.cache.(events := s.cache.events + NoneEvents(paths)) && s'.wire == s.wire
    ensures var l, l' := Last(Pipe(cfg, s), p), Last(Pipe(cfg, s'), p);
            (l' == l && (l.None? ==> p !in paths)) || l' == Some(Item(NONE, p, Unissued, None))
  {
    var a := s.cache.playback + LiftAll(cfg, s.cache.events);
    var n := LiftAll(cfg, NoneEvents(paths));
    var w := LiftAll(cfg, s.wire);
    PipeWithNones(cfg, s, s', paths);
    LastConcat(a, w, p);
    LastConcat(a + n, w, p);
    LastConcat(a, n, p);
    if p in paths {
      var i :| 0 <= i < |paths| && paths[i] == p;
      assert n[i].path == p;
    }
  }

  lemma PipeWithNones(cfg: Config, s: System, s': System, paths: seq<Path>)
    requires s'.cache == s.cache.(events := s.cache.events + NoneEvents(paths)) && s'.wire == s.wire
    ensures var a, w := s.cache.playback + LiftAll(cfg, s.cache.events), LiftAll(cfg, s.wire);
            Pipe(cfg, s) == a + w && Pipe(cfg, s') == a + LiftAll(cfg, NoneEvents(paths)) + w
  {
    LiftAllConcat(cfg, s.cache.events, s.wire);
    LiftAllConcat(cfg, s.cache.events + NoneEvents(paths), s.wire);
    LiftAllConcat(cfg, s.cache.events, NoneEvents(paths));
  }

  lemma NonesKeepBase(cfg: Config, s: System, s': System, paths: seq<Path>)
    requires ValidConfig(cfg) && Base(cfg, s) && WalkOk(cfg, s')
    requires s' == s.(walk := s'.walk, cache := s.cache.(events := s.cache.events + NoneEvents(paths)))
    requires forall p :: p in paths ==> p == cfg.root || cfg.legal(p)
    ensures Base(cfg, s')
  {
    PipeWithNones(cfg, s, s', paths);
    forall it | it in Pipe(cfg, s') ensures ItemOk(cfg, s', it) {
      if it in Pipe(cfg, s) {
        assert ItemOk(cfg, s, it);
      } else {
        var i :| 0 <= i < |paths| && it == Item(NONE, paths[i], Unissued, None);
      }
    }
    forall p | cfg.legal(p) ensures EntryOk(cfg, s', p) {
      assert EntryOk(cfg, s, p);
    }
  }

  lemma WalkBeginKeepsInv(cfg: Config, s: System)
    requires ValidConfig(cfg) && Inv(cfg, s) && Enabled(cfg, s, WalkBegin)
    ensures Inv(cfg, Apply(cfg, s, WalkBegin))
  {
    var s' := Apply(cfg, s, WalkBegin);
    assert s.cache.events + NoneEvents([]) == s.cache.events;
    NonesKeepBase(cfg, s, s', []);
    forall p | cfg.legal(p) ensures PathOk(cfg, s', p) {
      assert PathOk(cfg, s, p);
      if p in s.store {
        WalkReachesAll(cfg, s, p);
      }
    }
  }

  lemma WalkEmitKeepsInv(cfg: Config, s: System)
    requires ValidConfig(cfg) && Inv(cfg, s) && Enabled(cfg, s, WalkEmit)
    ensures Inv(cfg, Apply(cfg, s, WalkEmit))
  {
    var s' := Apply(cfg, s, WalkEmit);
    var q := s.walk.todo[0].path;
    assert NoneEvents([q]) == [Event(NONE, q)];
    NonesKeepBase(cfg, s, s', [q]);
    forall p | cfg.legal(p) ensures PathOk(cfg, s', p) {
      assert PathOk(cfg, s, p);
      NonesAppended(cfg, s, s', [q], p);
      if Last(Pipe(cfg, s'), p).None? && WalkOwes(cfg, s, p) && p in s.store {
        EmitKeepsUnwalked(cfg.root, s.walk.todo, p);
      }
    }
  }

  lemma WalkListKeepsInv(cfg: Config, s: System, kids: seq<Path>)
    requires ValidConfig(cfg) && Inv(cfg, s) && Enabled(cfg, s, WalkList(kids))
    ensures Inv(cfg, Apply(cfg, s, WalkList(kids)))
  {
    var s' := Apply(cfg, s, WalkList(kids));
    assert s.cache.events + NoneEvents([]) == s.cache.events;
    NonesKeepBase(cfg, s, s', []);
    forall p | cfg.legal(p) ensures PathOk(cfg, s', p) {
      assert PathOk(cfg, s, p);
      if WalkOwes(cfg, s, p) && p in s.store {
        ListKeepsUnwalked(cfg, s, kids, p);
      }
    }
  }

  lemma NothingLeftToWalk(root: Path, p: Path)
    ensures !Unwalked(root, [], p)
    decreases |p|
  {
  }

  lemma WalkFinishKeepsInv(cfg: Config, s: System, order: seq<Path>)
    requires ValidConfig(cfg) && Inv(cfg, s) && Enabled(cfg, s, WalkFinish(order))
    ensures Inv(cfg, Apply(cfg, s, WalkFinish(order)))
  {
    var s' := Apply(cfg, s, WalkFinish(order));
    var listed := set q | q in order;
    assert listed == s.cache.paths - s.walk.seen;
    forall p | p in order ensures cfg.legal(p) {
      assert p in listed;
    }
    NonesKeepBase(cfg, s, s', order);
    forall p | cfg.legal(p) ensures PathOk(cfg, s', p) {
      assert PathOk(cfg, s, p);
      NonesAppended(cfg, s, s', order, p);
      NothingLeftToWalk(cfg.root, p);
      assert p in listed ==> p in order;
    }
  }

  // ---------------------------------------------------------------- local locks

  lemma LocalKeepsInv(cfg: Config, s: System, k: Key, e: Entry)
    requires ValidConfig(cfg) && Inv(cfg, s) && k in s.cache.objects
    requires e.mzxid == s.cache.objects[k].mzxid
             || exists p :: p in s.store && cfg.legal(p) && cfg.parse(p) == Some(k) && e.mzxid == s.store[p].mzxid
    ensures Inv(cfg, WithObject(s, k, e))
  {
    var s' := WithObject(s, k, e);
    assert Pipe(cfg, s') == Pipe(cfg, s);
    forall it | it in Pipe(cfg, s') ensures ItemOk(cfg, s', it) {
      assert ItemOk(cfg, s, it);
    }
    forall p | cfg.legal(p) ensures EntryOk(cfg, s', p) {
      assert EntryOk(cfg, s, p);
    }
    forall p | cfg.legal(p) && s.watch ensures PathOk(cfg, s', p) {
      assert PathOk(cfg, s, p);
    }
  }

  // ---------------------------------------------------------------- every run

  predicate IsStoreStep(st: Step) { st.Create? || st.SetData? || st.Delete? }

  function StoreEvent(st: Step): Event
    requires IsStoreStep(st)
  {
    Event(if st.Create? then CREATED else if st.SetData? then CHANGED else DELETED, st.path)
  }

  lemma PutWrites(cfg: Config, s: System, p: Path, data: string, e: Event)
    requires StoreOk(cfg, s) && (p == cfg.root || (cfg.legal(p) && Parent(p) in s.store))
    requires e.Event? && e.path == p && (e.typ.CREATED? || e.typ.CHANGED?)
    ensures var store := s.store[p := ZNode(data, s.zxid + 1)];
            IsWrite(cfg, s, store, e) && StoreOk(cfg, Written(s, store, e))
  {
    hide Parent;
  }

  lemma DropWrites(cfg: Config, s: System, p: Path, e: Event)
    requires StoreOk(cfg, s) && p in s.store && !HasChild(s, p, cfg.root)
    requires e == Event(DELETED, p)
    ensures IsWrite(cfg, s, s.store - {p}, e) && StoreOk(cfg, Written(s, s.store - {p}, e))
  {
    hide Parent;
  }

  lemma StoreStepWrites(cfg: Config, s: System, st: Step)
    requires ValidConfig(cfg) && StoreOk(cfg, s) && Enabled(cfg, s, st) && IsStoreStep(st)
    ensures var s' := Apply(cfg, s, st);
            s' == Written(s, s'.store, StoreEvent(st)) && IsWrite(cfg, s, s'.store, StoreEvent(st)) && StoreOk(cfg, s')
  {
    assert st.SetData? ==> st.path in s.store && (st.path == cfg.root || (cfg.legal(st.path) && Parent(st.path) in s.store));
    hide StoreOk;
    hide IsWrite;
    hide Parent;
    match st
    case Create(p, d) => PutWrites(cfg, s, p, d, Event(CREATED, p));
    case SetData(p, d) => PutWrites(cfg, s, p, d, Event(CHANGED, p));
    case Delete(p) => DropWrites(cfg, s, p, Event(DELETED, p));
  }

  lemma StoreStepKeepsInv(cfg: Config, s: System, st: Step)
    requires ValidConfig(cfg) && Inv(cfg, s) && Enabled(cfg, s, st) && IsStoreStep(st)
    ensures Inv(cfg, Apply(cfg, s, st))
  {
    StoreStepWrites(cfg, s, st);
    hide Inv;
    hide Enabled;
    hide Apply;
    hide IsWrite;
    hide StoreOk;
    WriteKeepsInv(cfg, s, Apply(cfg, s, st).store, StoreEvent(st));
  }

  lemma LocalStepKeepsInv(cfg: Config, s: System, st: Step)
    requires ValidConfig(cfg) && Inv(cfg, s) && Enabled(cfg, s, st)
    requires st.LocalLock? || st.LocalUnlock? || st.LocalWrite? || st.LocalRefresh?
    ensures Inv(cfg, Apply(cfg, s, st))
  {
    match st
    case LocalLock(k) => LocalKeepsInv(cfg, s, k, s.cache.objects[k].(locked := true));
    case LocalUnlock(k) => LocalKeepsInv(cfg, s, k, s.cache.objects[k].(locked := false));
    case LocalWrite(k, d) => LocalKeepsInv(cfg, s, k, s.cache.objects[k].(dict := d));
    case LocalRefresh(p) =>
      var d := if s.store[p].data == "" then map[] else cfg.decode(s.store[p].data).value;
      LocalKeepsInv(cfg, s, cfg.parse(p).value, Entry(d, s.store[p].mzxid, true));
  }

  lemma StepKeepsInv(cfg: Config, s: System, st: Step)
    requires ValidConfig(cfg) && Inv(cfg, s) && Enabled(cfg, s, st)
    ensures Inv(cfg, Apply(cfg, s, st))
  {
    match st
    case Create(_, _) => StoreStepKeepsInv(cfg, s, st);
    case SetData(_, _) => StoreStepKeepsInv(cfg, s, st);
    case Delete(_) => StoreStepKeepsInv(cfg, s, st);
    case Notify => NotifyKeepsInv(cfg, s);
    case Deliver => DeliverKeepsInv(cfg, s);
    case HandleEvent => HandleEventKeepsInv(cfg, s);
    case Resolve(i) => AnswerKeepsInv(cfg, s, i, Got(Lookup(s, s.cache.playback[i].path)));
    case Playback => PlaybackKeepsInv(cfg, s);
    case Lose => LoseKeepsInv(cfg, s);
    case FailFetch(i) => AnswerKeepsInv(cfg, s, i, Failed);
    case Restart => RestartRestoresInv(cfg, s);
    case WalkBegin => WalkBeginKeepsInv(cfg, s);
    case WalkEmit => WalkEmitKeepsInv(cfg, s);
    case WalkList(kids) => WalkListKeepsInv(cfg, s, kids);
    case WalkFinish(order) => WalkFinishKeepsInv(cfg, s, order);
    case LocalLock(_) => LocalStepKeepsInv(cfg, s, st);
    case LocalUnlock(_) => LocalStepKeepsInv(cfg, s, st);
    case LocalWrite(_, _) => LocalStepKeepsInv(cfg, s, st);
    case LocalRefresh(_) => LocalStepKeepsInv(cfg, s, st);
  }

  lemma {:induction false} RunKeepsInv(cfg: Config, s: System, steps: seq<Step>)
    requires ValidConfig(cfg) && Inv(cfg, s) && Runs(cfg, s, steps)
    ensures Inv(cfg, After(cfg, s, steps))
    decreases |steps|
  {
    if steps != [] {
      StepKeepsInv(cfg, s, steps[0]);
      RunKeepsInv(cfg, Apply(cfg, s, steps[0]), steps[1..]);
    }
  }
}
