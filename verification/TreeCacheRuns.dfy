/**
 The tree cache next to the store it copies.

 The store is a map from path to znode with one transaction counter.  Clients create,
 write and delete znodes at any moment; while the recursive watch is set every such
 write queues one watch event, in order.  A fetch is answered with the state of the
 store at some moment after it was issued.  The session may be lost at any moment, and
 the cache may restart at any moment: fresh queues, the watch first, then the tree walk,
 each of whose calls happens at its own moment while the store goes on changing.
 */
module TreeCacheRuns {
  import opened Wrappers
  import opened TreeCache

  // The recursion of _walkTree as its pending work: a call still to make for a path,
  // or, inside a call that has emitted its event, the get_children still to make.
  datatype Visit = Emit(path: Path) | List(path: Path)

  datatype Walk = NotStarted | Begin | Walking(todo: seq<Visit>, seen: set<Path>) | Done

  // touched holds the keys of objects that were locked in this process since they were
  // inserted or last updated by the cache.
  datatype System = System(store: map<Path, ZNode>, zxid: nat, watch: bool, wire: seq<Event>,
                           cache: Cache, walk: Walk, touched: set<Key>)

  datatype Step =
    | Create(path: Path, data: string)
    | SetData(path: Path, data: string)
    | Delete(path: Path)
    | Notify
    | Deliver
    | HandleEvent
    | Resolve(index: nat)
    | Playback
    | Lose
    | FailFetch(index: nat)
    | Restart
    | WalkBegin
    | WalkEmit
    | WalkList(kids: seq<Path>)
    | WalkFinish(order: seq<Path>)
    | LocalLock(key: Key)
    | LocalUnlock(key: Key)
    | LocalWrite(key: Key, dict: Dict)
    | LocalRefresh(path: Path)

  function LastSlash(p: Path): (i: nat)
    ensures i <= |p| && (p != "" ==> i < |p|)
  {
    if p == "" then 0
    else if p[|p| - 1] == '/' then |p| - 1
    else LastSlash(p[..|p| - 1])
  }

  function Parent(p: Path): Path { p[..LastSlash(p)] }

  ghost predicate ValidConfig(cfg: Config) {
    && (forall p :: cfg.legal(p) ==> p != "" && p != cfg.root)
    && (forall p, q :: cfg.legal(p) && cfg.legal(q) && cfg.parse(p).Some? && cfg.parse(p) == cfg.parse(q) ==> p == q)
  }

  function Lookup(s: System, p: Path): Option<ZNode> {
    if p in s.store then Some(s.store[p]) else None
  }

  predicate HasChild(s: System, p: Path, root: Path) {
    exists c :: c in s.store && c != root && Parent(c) == p
  }

  predicate Enabled(cfg: Config, s: System, st: Step) {
    match st
    case Create(p, _) => p !in s.store && (p == cfg.root || (cfg.legal(p) && Parent(p) in s.store))
    case SetData(p, _) => p in s.store
    case Delete(p) => p in s.store && !HasChild(s, p, cfg.root)
    case Notify => true
    case Deliver => s.wire != []
    case HandleEvent => s.cache.events != []
    case Resolve(i) => i < |s.cache.playback| && s.cache.playback[i].fetch.InFlight?
    case Playback => s.cache.playback != [] && !s.cache.playback[0].fetch.InFlight?
    case Lose => true
    case FailFetch(i) => !s.watch && i < |s.cache.playback| && s.cache.playback[i].fetch.InFlight?
    case Restart => true
    case WalkBegin => s.watch && s.walk.Begin?
    case WalkEmit => s.watch && s.walk.Walking? && s.walk.todo != [] && s.walk.todo[0].Emit?
    case WalkList(kids) =>
      && s.watch && s.walk.Walking? && s.walk.todo != [] && s.walk.todo[0].List?
      && (forall c :: c in kids ==> c in s.store && c != cfg.root && Parent(c) == s.walk.todo[0].path)
      && (forall c :: c in s.store && c != cfg.root && Parent(c) == s.walk.todo[0].path ==> c in kids)
    case WalkFinish(order) =>
      && s.watch && s.walk.Walking? && s.walk.todo == []
      && (set p | p in order) == s.cache.paths - s.walk.seen
    case LocalLock(k) => k in s.cache.objects && !s.cache.objects[k].locked
    case LocalUnlock(k) => k in s.cache.objects && s.cache.objects[k].locked
    case LocalWrite(k, _) => k in s.cache.objects && s.cache.objects[k].locked
    case LocalRefresh(p) =>
      && p in s.store && cfg.legal(p) && cfg.parse(p).Some?
      && cfg.parse(p).value in s.cache.objects && s.cache.objects[cfg.parse(p).value].locked
      && (s.store[p].data == "" || cfg.decode(s.store[p].data).Some?)
  }

  function Written(s: System, store: map<Path, ZNode>, e: Event): System {
    s.(store := store, zxid := s.zxid + 1, wire := if s.watch then s.wire + [e] else s.wire)
  }

  function Emits(paths: seq<Path>): seq<Visit> { seq(|paths|, i requires 0 <= i < |paths| => Emit(paths[i])) }

  function WithObject(s: System, k: Key, e: Entry): System {
    s.(cache := s.cache.(objects := s.cache.objects[k := e]), touched := s.touched + {k})
  }

  function Apply(cfg: Config, s: System, st: Step): System
    requires Enabled(cfg, s, st)
  {
    match st
    case Create(p, d) => Written(s, s.store[p := ZNode(d, s.zxid + 1)], Event(CREATED, p))
    case SetData(p, d) => Written(s, s.store[p := ZNode(d, s.zxid + 1)], Event(CHANGED, p))
    case Delete(p) => Written(s, s.store - {p}, Event(DELETED, p))
    case Notify => s.(wire := s.wire + [SessionEvent])
    case Deliver => s.(cache := s.cache.(events := s.cache.events + [s.wire[0]]), wire := s.wire[1..])
    case HandleEvent =>
      s.(cache := HandledEvent(cfg, s.cache.(events := s.cache.events[1..]), s.cache.events[0]))
    case Resolve(i) =>
      var it := s.cache.playback[i];
      s.(cache := s.cache.(playback := s.cache.playback[i := it.(fetch := Got(Lookup(s, it.path)))]))
    case Playback =>
      var it := s.cache.playback[0];
      var c := s.cache.(playback := s.cache.playback[1..]);
      s.(cache := PlayedBack(cfg, c, it),
         touched := if !it.fetch.Failed? && (Judge(cfg, c.objects, it).Remove? || Judge(cfg, c.objects, it).Update?)
                    then s.touched - {it.key.value} else s.touched)
    case Lose => s.(watch := false, wire := [], walk := NotStarted)
    case FailFetch(i) =>
      s.(cache := s.cache.(playback := s.cache.playback[i := s.cache.playback[i].(fetch := Failed)]))
    case Restart => s.(watch := true, wire := [], walk := Begin, cache := s.cache.(events := [], playback := []))
    case WalkBegin =>
      s.(walk := Walking(if cfg.root in s.store then [Emit(cfg.root)] else [], {}))
    case WalkEmit =>
      var p := s.walk.todo[0].path;
      s.(walk := Walking([List(p)] + s.walk.todo[1..], s.walk.seen + {p}),
         cache := s.cache.(events := s.cache.events + [Event(NONE, p)]))
    case WalkList(kids) => s.(walk := s.walk.(todo := Emits(kids) + s.walk.todo[1..]))
    case WalkFinish(order) =>
      s.(walk := Done, cache := s.cache.(events := s.cache.events + NoneEvents(order)))
    case LocalLock(k) => WithObject(s, k, s.cache.objects[k].(locked := true))
    case LocalUnlock(k) => WithObject(s, k, s.cache.objects[k].(locked := false))
    case LocalWrite(k, d) => WithObject(s, k, s.cache.objects[k].(dict := d))
    case LocalRefresh(p) =>
      var d := if s.store[p].data == "" then map[] else cfg.decode(s.store[p].data).value;
      WithObject(s, cfg.parse(p).value, Entry(d, s.store[p].mzxid, true))
  }

  predicate Runs(cfg: Config, s: System, steps: seq<Step>)
    decreases |steps|
  {
    steps == [] || (Enabled(cfg, s, steps[0]) && Runs(cfg, Apply(cfg, s, steps[0]), steps[1..]))
  }

  function After(cfg: Config, s: System, steps: seq<Step>): System
    requires Runs(cfg, s, steps)
    decreases |steps|
  {
    if steps == [] then s else After(cfg, Apply(cfg, s, steps[0]), steps[1..])
  }

  ghost predicate Initial(cfg: Config, s: System) {
    && StoreOk(cfg, s) && !s.watch && s.wire == [] && s.walk.NotStarted? && s.touched == {}
    && s.cache == Cache(map[], {}, [], [])
  }

  // ---------------------------------------------------------------- the pipeline

  // Everything between the store and the dictionary, oldest first: the playback
  // queue, then the event queue, then the events not delivered yet.
  function Lift(cfg: Config, e: Event): Item {
    Item(if e.SessionEvent? then NONE else e.typ, if e.SessionEvent? then cfg.root else e.path, Unissued, None)
  }

  function LiftAll(cfg: Config, es: seq<Event>): seq<Item> {
    seq(|es|, i requires 0 <= i < |es| => Lift(cfg, es[i]))
  }

  function Pipe(cfg: Config, s: System): seq<Item> {
    s.cache.playback + LiftAll(cfg, s.cache.events + s.wire)
  }

  // The youngest item for a path.
  function Last(items: seq<Item>, p: Path): (r: Option<Item>)
    ensures r.Some? ==> r.value in items && r.value.path == p
    ensures r.None? ==> forall it :: it in items ==> it.path != p
  {
    if items == [] then None
    else if items[|items| - 1].path == p then Some(items[|items| - 1])
    else Last(items[..|items| - 1], p)
  }

  lemma {:induction false} LastConcat(a: seq<Item>, b: seq<Item>, p: Path)
    ensures Last(a + b, p) == if Last(b, p).Some? then Last(b, p) else Last(a, p)
  {
    if b == [] {
      assert a + b == a;
    } else {
      var c := b[..|b| - 1];
      assert (a + b)[..|a + b| - 1] == a + c;
      LastConcat(a, c, p);
    }
  }

  // ---------------------------------------------------------------- invariants

  ghost predicate StoreOk(cfg: Config, s: System) {
    forall p :: p in s.store ==>
      && s.store[p].mzxid <= s.zxid
      && (p == cfg.root || (cfg.legal(p) && Parent(p) in s.store))
  }

  // An answer is a version of the znode no newer than the one stored.
  predicate Historical(s: System, p: Path, z: ZNode) {
    && z.mzxid <= s.zxid
    && (p in s.store ==> z.mzxid <= s.store[p].mzxid && (z.mzxid == s.store[p].mzxid ==> z == s.store[p]))
  }

  predicate ItemOk(cfg: Config, s: System, it: Item) {
    && (it.path == cfg.root || cfg.legal(it.path))
    && (it.fetch.Failed? ==> !s.watch)
    && (!it.fetch.Unissued? ==>
          && it.path != cfg.root && it.key == cfg.parse(it.path)
          && (it.fetch.NoFetch? <==> it.typ.DELETED? || (it.key.None? && !it.typ.NONE?)))
    && (it.fetch.Got? && it.fetch.znode.Some? ==> Historical(s, it.path, it.fetch.znode.value))
  }

  predicate EntryOk(cfg: Config, s: System, p: Path) {
    var k := cfg.parse(p);
    k.Some? && k.value in s.cache.objects ==>
      var e := s.cache.objects[k.value];
      && p in s.cache.paths
      && e.mzxid <= s.zxid
      && (p in s.store ==>
            && e.mzxid <= s.store[p].mzxid
            && (e.mzxid == s.store[p].mzxid && k.value !in s.touched ==>
                  s.store[p].data != "" && cfg.decode(s.store[p].data) == Some(e.dict)))
  }

  ghost predicate ObjectsOk(cfg: Config, s: System) {
    && (forall p :: p in s.cache.paths ==> cfg.legal(p))
    && (forall k :: k in s.cache.objects ==> exists p :: p in s.cache.paths && cfg.parse(p) == Some(k))
    && (forall k :: k in s.cache.objects && s.cache.objects[k].locked ==> k in s.touched)
    && s.touched <= s.cache.objects.Keys
  }

  ghost predicate WalkOk(cfg: Config, s: System) {
    s.walk.Walking? ==> forall v :: v in s.walk.todo ==> v.path == cfg.root || cfg.legal(v.path)
  }

  ghost predicate Base(cfg: Config, s: System) {
    && StoreOk(cfg, s)
    && (forall p :: cfg.legal(p) ==> EntryOk(cfg, s, p))
    && ObjectsOk(cfg, s)
    && WalkOk(cfg, s)
    && (forall it :: it in Pipe(cfg, s) ==> ItemOk(cfg, s, it))
    && (forall it :: it in s.cache.playback ==> !it.fetch.Unissued?)
  }

  // The cache says about p what the store says.  An object locked in this process
  // since the cache last wrote it may carry local attributes, and a znode whose bytes
  // do not decode leaves the object of an earlier version, or none, in place.
  predicate Coherent(cfg: Config, s: System, p: Path) {
    && (p in s.cache.paths <==> p in s.store)
    && (var k := cfg.parse(p);
        k.Some? ==>
          if p !in s.store || s.store[p].data == "" then k.value !in s.cache.objects
          else match cfg.decode(s.store[p].data)
               case None => true
               case Some(d) =>
                 && k.value in s.cache.objects
                 && (k.value !in s.touched ==>
                       s.cache.objects[k.value] == Entry(d, s.store[p].mzxid, false)))
  }

  // Playing it back leaves p as stored at z.
  predicate Covers(it: Item, z: Option<ZNode>) {
    && (it.typ.DELETED? ==> z.None?)
    && (it.typ.CREATED? || it.typ.CHANGED? ==> z.Some?)
    && (it.fetch.Got? ==> it.fetch.znode == z)
  }

  // Some path above p, or p itself, is still to be visited by the walk.
  predicate Unwalked(root: Path, todo: seq<Visit>, p: Path)
    decreases |p|
  {
    Emit(p) in todo || (p != root && p != "" && (List(Parent(p)) in todo || Unwalked(root, todo, Parent(p))))
  }

  predicate WalkOwes(cfg: Config, s: System, p: Path) {
    match s.walk
    case NotStarted => false
    case Begin => p in s.store || p in s.cache.paths
    case Walking(todo, seen) =>
      p !in seen && (if p in s.store then Unwalked(cfg.root, todo, p) else p in s.cache.paths)
    case Done => false
  }

  // Each path is settled by its youngest pending item, or, with none pending, is
  // coherent already or still owed an event by the walk.
  predicate PathOk(cfg: Config, s: System, p: Path) {
    var last := Last(Pipe(cfg, s), p);
    if last.Some? then Covers(last.value, Lookup(s, p))
    else Coherent(cfg, s, p) || WalkOwes(cfg, s, p)
  }

  ghost predicate Inv(cfg: Config, s: System) {
    Base(cfg, s) && (s.watch ==> forall p :: cfg.legal(p) ==> PathOk(cfg, s, p))
  }
}
