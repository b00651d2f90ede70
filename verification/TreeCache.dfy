/**
 The watch-driven copy of a ZooKeeper subtree (class NodepoolTreeCache in
 nodepool/zk/zookeeper.py).

 A cache is two queues, a dictionary of objects and a set of known paths.  A watch
 event first enters the event queue; the event worker may issue an asynchronous
 fetch for it and moves it to the playback queue; the playback worker waits for the
 fetch and updates the dictionary.  This module gives the two worker bodies as
 functions of the cache's value and as methods of the class that updates its fields
 in place.  TreeCacheRuns.dfy puts the cache next to a store that keeps changing.
 */
module TreeCache {
  import opened Wrappers

  type Path = string
  type Key = seq<string>
  type Dict = map<string, string>

  // A znode: its bytes and the transaction id of the write that produced them.
  datatype ZNode = ZNode(data: string, mzxid: nat)

  // What a subclass supplies: the root of its subtree, parsePath, the decoding of a
  // znode's bytes into an object's attributes (None where it raises), and the paths
  // that clients ever create below the root.
  datatype Config = Config(root: Path,
                           parse: Path -> Option<Key>,
                           decode: string -> Option<Dict>,
                           legal: Path -> bool)

  datatype EventType = CREATED | CHANGED | DELETED | NONE

  // SessionEvent is a NONE event that carries no path (a connection change).
  datatype Event = SessionEvent | Event(typ: EventType, path: Path)

  // The future that travels with an event.  Unissued: the event worker has not seen
  // the event yet.  NoFetch: the worker decided against fetching.  Got(None): the
  // fetch raised NoNodeError.  Failed: the fetch raised anything else.
  datatype Fetch = Unissued | NoFetch | InFlight | Failed | Got(znode: Option<ZNode>)

  datatype Item = Item(typ: EventType, path: Path, fetch: Fetch, key: Option<Key>)

  datatype Entry = Entry(dict: Dict, mzxid: nat, locked: bool)

  datatype Cache = Cache(objects: map<Key, Entry>, paths: set<Path>,
                         events: seq<Event>, playback: seq<Item>)

  // _handleCacheEvent: the playback item for an event, or None if it is ignored.
  function Classify(cfg: Config, e: Event): Option<Item> {
    if e.SessionEvent? || e.path == cfg.root then None
    else
      var key := cfg.parse(e.path);
      var fetch := !e.typ.DELETED? && (key.Some? || e.typ.NONE?);
      Some(Item(e.typ, e.path, if fetch then InFlight else NoFetch, key))
  }

  function HandledEvent(cfg: Config, c: Cache, e: Event): Cache {
    match Classify(cfg, e)
    case None => c
    case Some(item) => c.(playback := c.playback + [item])
  }

  // Whether the event, or failing that the fetch, says the path exists.
  predicate Exists(it: Item) {
    match it.typ
    case CREATED => true
    case CHANGED => true
    case DELETED => false
    case NONE => it.fetch.Got? && it.fetch.znode.Some?
  }

  function Fetched(it: Item): Option<ZNode> {
    if it.fetch.Got? then it.fetch.znode else None
  }

  // The outcome of playing one item back to an object slot.
  datatype Verdict = Keep | Remove | Insert(dict: Dict, mzxid: nat) | Update(dict: Dict, mzxid: nat)

  function Judge(cfg: Config, objects: map<Key, Entry>, it: Item): Verdict {
    if it.key.None? then Keep
    else
      var z := Fetched(it);
      if z.None? || z.value.data == "" then Remove
      else match cfg.decode(z.value.data)
           case None => Keep
           case Some(d) =>
             if it.key.value !in objects then Insert(d, z.value.mzxid)
             else if z.value.mzxid <= objects[it.key.value].mzxid then Keep
             else if objects[it.key.value].locked then Keep
             else Update(d, z.value.mzxid)
  }

  // _handlePlayback, for an item whose fetch has an answer.
  function PlayedBack(cfg: Config, c: Cache, it: Item): Cache {
    if it.fetch.Failed? then c
    else
      var c1 := c.(paths := if Exists(it) then c.paths + {it.path} else c.paths - {it.path});
      match Judge(cfg, c.objects, it)
      case Keep => c1
      case Remove => c1.(objects := c.objects - {it.key.value})
      case Insert(d, m) => c1.(objects := c.objects[it.key.value := Entry(d, m, false)])
      case Update(d, m) =>
        c1.(objects := c.objects[it.key.value := Entry(d, m, false)])
  }

  function NoneEvents(paths: seq<Path>): seq<Event> {
    seq(|paths|, i requires 0 <= i < |paths| => Event(NONE, paths[i]))
  }

  class NodepoolTreeCache {
    const cfg: Config
    var cachedObjects: map<Key, Entry>
    var cachedPaths: set<Path>
    var eventQueue: seq<Event>
    var playbackQueue: seq<Item>

    ghost function Contents(): Cache reads this {
      Cache(cachedObjects, cachedPaths, eventQueue, playbackQueue)
    }

    constructor (cfg: Config)
      ensures this.cfg == cfg && Contents() == Cache(map[], {}, [], [])
    {
      this.cfg := cfg;
      cachedObjects, cachedPaths, eventQueue, playbackQueue := map[], {}, [], [];
    }

    // _start replaces both queues: events of the previous session are not valid.
    method ResetQueues()
      modifies this
      ensures Contents() == old(Contents()).(events := [], playback := [])
    {
      eventQueue := [];
      playbackQueue := [];
    }

    method CacheListener(event: Event)
      modifies this`eventQueue
      ensures Contents() == old(Contents()).(events := old(eventQueue) + [event])
    {
      eventQueue := eventQueue + [event];
    }

    // One turn of _eventWorker: take an event off its queue and _handleCacheEvent it.
    method EventWorkerTurn()
      requires eventQueue != []
      modifies this`eventQueue, this`playbackQueue
      ensures Contents() == HandledEvent(cfg, old(Contents()).(events := old(eventQueue)[1..]), old(eventQueue)[0])
    {
      var event := eventQueue[0];
      eventQueue := eventQueue[1..];
      if event.SessionEvent? {
        return;
      }
      if event.path == cfg.root {
        return;
      }
      var fetch := true;
      if event.typ == DELETED {
        fetch := false;
      }
      var key := cfg.parse(event.path);
      if key.None? && event.typ != NONE {
        fetch := false;
      }
      playbackQueue := playbackQueue + [Item(event.typ, event.path, if fetch then InFlight else NoFetch, key)];
    }

    // One turn of _playbackWorker, once the future of the oldest item has an answer.
    method PlaybackWorkerTurn()
      requires playbackQueue != [] && !playbackQueue[0].fetch.InFlight?
      modifies this
      ensures Contents() == PlayedBack(cfg, old(Contents()).(playback := old(playbackQueue)[1..]), old(playbackQueue)[0])
    {
      var item := playbackQueue[0];
      playbackQueue := playbackQueue[1..];
      var exists_ := false;
      var data, mzxid := "", 0;
      match item.fetch {
        case Failed => return;
        case Got(z) =>
          if z.Some? {
            data, mzxid, exists_ := z.value.data, z.value.mzxid, true;
          }
        case _ =>
      }
      if item.typ == CREATED || item.typ == CHANGED {
        exists_ := true;
      } else if item.typ == DELETED {
        exists_ := false;
      }
      if exists_ {
        cachedPaths := cachedPaths + {item.path};
      } else {
        cachedPaths := cachedPaths - {item.path};
      }
      if item.key.None? {
        return;
      }
      var key := item.key.value;
      if data != "" {
        var dict := cfg.decode(data);
        if dict.None? {
          return;
        }
        if key in cachedObjects {
          var obj := cachedObjects[key];
          if mzxid <= obj.mzxid {
            return;
          }
          if obj.locked {
            return;
          }
          cachedObjects := cachedObjects[key := obj.(dict := dict.value, mzxid := mzxid)];
        } else {
          cachedObjects := cachedObjects[key := Entry(dict.value, mzxid, false)];
        }
      } else {
        cachedObjects := cachedObjects - {key};
      }
    }

    // The last part of _walkTree: a NONE event for every cached path it did not see,
    // each exactly once and in whatever order the copied set is iterated.
    method EmitUnseen(seen: set<Path>) returns (order: seq<Path>)
      modifies this`eventQueue
      ensures (set p | p in order) == cachedPaths - seen
      ensures forall i, j :: 0 <= i < j < |order| ==> order[i] != order[j]
      ensures Contents() == old(Contents()).(events := old(eventQueue) + NoneEvents(order))
    {
      order := [];
      var left := cachedPaths;
      assert eventQueue == old(eventQueue) + NoneEvents(order);
      while left != {}
        invariant left <= cachedPaths
        invariant forall p :: p in order <==> p in cachedPaths && p !in left && p !in seen
        invariant forall i, j :: 0 <= i < j < |order| ==> order[i] != order[j]
        invariant eventQueue == old(eventQueue) + NoneEvents(order)
        decreases left
      {
        var path :| path in left;
        left := left - {path};
        if path !in seen {
          CacheListener(Event(NONE, path));
          assert NoneEvents(order + [path]) == NoneEvents(order) + [Event(NONE, path)];
          order := order + [path];
        }
      }
    }
  }
}
