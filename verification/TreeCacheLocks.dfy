/**
 What a process that uses the cache sees of one object: a locked object is its own, and an
 object is only ever replaced by a newer version of itself.
 */
module TreeCacheLocks {
  import opened Wrappers
  import opened TreeCache
  import opened TreeCacheRuns

  // The process's own steps on the object of k.
  predicate OwnStep(cfg: Config, st: Step, k: Key) {
    match st
    case LocalLock(k') => k' == k
    case LocalUnlock(k') => k' == k
    case LocalWrite(k', _) => k' == k
    case LocalRefresh(p) => cfg.parse(p) == Some(k)
    case _ => false
  }

  // The item about to be played back says that k has no data: its znode is gone or empty.
  predicate SaysNoData(s: System, k: Key) {
    s.cache.playback != []
    && var it := s.cache.playback[0];
       && it.key == Some(k) && !it.fetch.Failed?
       && (it.fetch.Got? && it.fetch.znode.Some? ==> it.fetch.znode.value.data == "")
  }

  // A locked object is left alone, whatever arrives, unless its data is gone.
  lemma LockedIsLeftAlone(cfg: Config, s: System, st: Step, k: Key)
    requires Enabled(cfg, s, st) && !OwnStep(cfg, st, k)
    requires k in s.cache.objects && s.cache.objects[k].locked
    ensures var s' := Apply(cfg, s, st);
            && (k !in s'.cache.objects <==> st.Playback? && SaysNoData(s, k))
            && (k in s'.cache.objects ==> s'.cache.objects[k] == s.cache.objects[k])
  {
  }

  // What the holder's own steps make of its object: a write replaces the attributes, a
  // refresh reads the store.
  ghost function OwnView(cfg: Config, s: System, st: Step, k: Key, e: Entry): Entry
    requires Enabled(cfg, s, st)
  {
    match st
    case LocalWrite(k', d) => if k' == k then e.(dict := d) else e
    case LocalRefresh(p) =>
      if cfg.parse(p) != Some(k) then e
      else Entry(if s.store[p].data == "" then map[] else cfg.decode(s.store[p].data).value, s.store[p].mzxid, true)
    case _ => e
  }

  ghost function HolderSees(cfg: Config, s: System, steps: seq<Step>, k: Key, e: Entry): Entry
    requires Runs(cfg, s, steps)
    decreases |steps|
  {
    if steps == [] then e
    else HolderSees(cfg, Apply(cfg, s, steps[0]), steps[1..], k, OwnView(cfg, s, steps[0], k, e))
  }

  // The data of k is never found gone in this run.
  ghost predicate NeverGone(cfg: Config, s: System, steps: seq<Step>, k: Key)
    requires Runs(cfg, s, steps)
    decreases |steps|
  {
    steps == []
    || (!(steps[0].Playback? && SaysNoData(s, k)) && NeverGone(cfg, Apply(cfg, s, steps[0]), steps[1..], k))
  }

  lemma HolderStep(cfg: Config, s: System, st: Step, k: Key)
    requires Enabled(cfg, s, st) && st != LocalUnlock(k) && !(st.Playback? && SaysNoData(s, k))
    requires k in s.cache.objects && s.cache.objects[k].locked
    ensures var s' := Apply(cfg, s, st);
            k in s'.cache.objects && s'.cache.objects[k].locked && s'.cache.objects[k] == OwnView(cfg, s, st, k, s.cache.objects[k])
  {
  }

  // Between locking and unlocking, over any run, the holder sees its own writes and nothing
  // else, unless the data is found gone.
  lemma {:induction false} HolderSeesItsOwnWrites(cfg: Config, s: System, steps: seq<Step>, k: Key)
    requires Runs(cfg, s, steps) && LocalUnlock(k) !in steps && NeverGone(cfg, s, steps, k)
    requires k in s.cache.objects && s.cache.objects[k].locked
    ensures var s' := After(cfg, s, steps);
            k in s'.cache.objects && s'.cache.objects[k].locked
            && s'.cache.objects[k] == HolderSees(cfg, s, steps, k, s.cache.objects[k])
    decreases |steps|
  {
    hide Enabled;
    hide Apply;
    hide SaysNoData;
    hide OwnView;
    if steps != [] {
      HolderStep(cfg, s, steps[0], k);
      HolderSeesItsOwnWrites(cfg, Apply(cfg, s, steps[0]), steps[1..], k);
    }
  }

  // An object is replaced only by a newer version, whether or not anybody has it locked,
  // and the cache itself never locks one.
  lemma VersionsGoForward(cfg: Config, s: System, st: Step, k: Key)
    requires Base(cfg, s) && Enabled(cfg, s, st)
    ensures var s' := Apply(cfg, s, st);
            k in s.cache.objects && k in s'.cache.objects ==>
              && s'.cache.objects[k].mzxid >= s.cache.objects[k].mzxid
              && (!OwnStep(cfg, st, k) && s'.cache.objects[k] != s.cache.objects[k] ==>
                    st.Playback? && s'.cache.objects[k].mzxid > s.cache.objects[k].mzxid && !s'.cache.objects[k].locked)
  {
    if st.LocalRefresh? {
      assert EntryOk(cfg, s, st.path);
    }
  }

  // A fetch that failed says nothing: playing it back changes neither objects nor paths.
  // Any other item changes at most the object of its own key and its own path.
  lemma PlaybackIsLocal(cfg: Config, s: System, k: Key, p: Path)
    requires Enabled(cfg, s, Playback)
    ensures var s' := Apply(cfg, s, Playback); var it := s.cache.playback[0];
            && (it.fetch.Failed? || it.key != Some(k) ==>
                  (k in s'.cache.objects <==> k in s.cache.objects)
                  && (k in s.cache.objects ==> s'.cache.objects[k] == s.cache.objects[k]))
            && (it.fetch.Failed? || it.path != p ==> (p in s'.cache.paths <==> p in s.cache.paths))
            && s'.cache.playback == s.cache.playback[1..] && s'.cache.events == s.cache.events
  {
  }

  // ---------------------------------------------------------------- fetching

  // What a fetch for the event finds makes a difference to some cache.
  ghost predicate FetchMatters(cfg: Config, e: Event)
    requires e.Event?
  {
    exists c, z, z' :: PlayedBack(cfg, c, Item(e.typ, e.path, Got(z), cfg.parse(e.path)))
                       != PlayedBack(cfg, c, Item(e.typ, e.path, Got(z'), cfg.parse(e.path)))
  }

  // Events of the session and of the root are ignored; any other one is queued behind what
  // is there, waiting for a fetch exactly if it is no delete and the fetch can matter.
  lemma FetchedIff(cfg: Config, s: System)
    requires Enabled(cfg, s, HandleEvent)
    ensures var e := s.cache.events[0]; var q, q' := s.cache.playback, Apply(cfg, s, HandleEvent).cache.playback;
            if e.SessionEvent? || e.path == cfg.root then q' == q
            else
              && |q'| == |q| + 1 && q'[..|q|] == q
              && q'[|q|].typ == e.typ && q'[|q|].path == e.path && q'[|q|].key == cfg.parse(e.path)
              && (q'[|q|].fetch.InFlight? || q'[|q|].fetch.NoFetch?)
              && (q'[|q|].fetch.InFlight? <==> !e.typ.DELETED? && FetchMatters(cfg, e))
  {
    var e := s.cache.events[0];
    if e.Event? && !e.typ.DELETED? {
      var key := cfg.parse(e.path);
      if key.Some? {
        FetchedDataMatters(cfg, e, key.value);
      } else if e.typ.NONE? {
        var c := Cache(map[], {}, [], []);
        var z, z' := Some(ZNode("", 0)), None;
        assert e.path in PlayedBack(cfg, c, Item(e.typ, e.path, Got(z), key)).paths;
        assert e.path !in PlayedBack(cfg, c, Item(e.typ, e.path, Got(z'), key)).paths;
      }
    }
  }

  lemma FetchedDataMatters(cfg: Config, e: Event, key: Key)
    requires e.Event? && cfg.parse(e.path) == Some(key)
    ensures FetchMatters(cfg, e)
  {
    var c := Cache(map[key := Entry(map[], 0, false)], {}, [], []);
    var z, z' := Some(ZNode("x", 0)), None;
    assert key in PlayedBack(cfg, c, Item(e.typ, e.path, Got(z), Some(key))).objects;
    assert key !in PlayedBack(cfg, c, Item(e.typ, e.path, Got(z'), Some(key))).objects;
  }

  // A delete waits for nothing: at the head of the queue it is played back at once, and
  // path and object are gone.
  lemma DeletesDoNotWait(cfg: Config, s: System, p: Path)
    requires Enabled(cfg, s, HandleEvent) && s.cache.events[0] == Event(DELETED, p) && p != cfg.root && s.cache.playback == []
    ensures var s1 := Apply(cfg, s, HandleEvent);
            && Enabled(cfg, s1, Playback)
            && p !in Apply(cfg, s1, Playback).cache.paths
            && (cfg.parse(p).Some? ==> cfg.parse(p).value !in Apply(cfg, s1, Playback).cache.objects)
  {
  }
}
