/**
 Which image uploads a cleanup pass keeps (CleanupWorker._buildUploadRecencyTable,
 _isRecentUpload, _cleanupProvider, _deleteUpload and _cleanupImage in
 nodepool/builder.py), for one image: its builds and their uploads per provider.
 Listing order, locks other workers hold and the cloud's answers are left open.
 */
module ImageRetention {
  import opened Wrappers

  type BuildId = string
  type UploadId = string
  type Provider = string

  datatype BuildState = BUILDING | READY | FAILED | DELETING

  datatype UploadState = UPLOADING | READY | FAILED | DELETING

  datatype Build = Build(state: BuildState, time: int)

  datatype Upload = Upload(state: UploadState, time: int)

  datatype Key = Key(build: BuildId, provider: Provider, id: UploadId)

  // A row of the recency table; also used to sort builds, with an empty upload id.
  datatype Entry = Entry(build: BuildId, upload: UploadId, time: int)

  // ---------------------------------------------------------------- sorting by time

  // Python's stable sort with reverse=True.
  function Insert(q: seq<Entry>, x: Entry): seq<Entry> {
    if q == [] || q[|q| - 1].time >= x.time then q + [x]
    else Insert(q[..|q| - 1], x) + [q[|q| - 1]]
  }

  function Sorted(q: seq<Entry>): seq<Entry> {
    if q == [] then [] else Insert(Sorted(q[..|q| - 1]), q[|q| - 1])
  }

  function TopTwo(q: seq<Entry>): seq<Entry> {
    var s := Sorted(q);
    if |s| <= 2 then s else s[..2]
  }

  // How many entries are at least as recent as t.
  function Count(q: seq<Entry>, t: int): nat {
    if q == [] then 0 else Count(q[..|q| - 1], t) + if q[|q| - 1].time >= t then 1 else 0
  }

  predicate Descending(q: seq<Entry>) { forall i, j :: 0 <= i < j < |q| ==> q[i].time >= q[j].time }

  lemma {:induction false} InsertCounts(q: seq<Entry>, x: Entry, t: int)
    ensures Count(Insert(q, x), t) == Count(q, t) + if x.time >= t then 1 else 0
  {
    if q == [] || q[|q| - 1].time >= x.time {
      assert (q + [x])[..|q|] == q;
    } else {
      var front, last := q[..|q| - 1], q[|q| - 1];
      InsertCounts(front, x, t);
      var r := Insert(front, x);
      assert (r + [last])[..|r|] == r;
    }
  }

  lemma {:induction false} InsertAdds(q: seq<Entry>, x: Entry)
    ensures multiset(Insert(q, x)) == multiset(q) + multiset{x}
  {
    if q != [] && q[|q| - 1].time < x.time {
      var front, last := q[..|q| - 1], q[|q| - 1];
      InsertAdds(front, x);
      assert q == front + [last];
    }
  }

  lemma {:induction false} InsertDescends(q: seq<Entry>, x: Entry)
    requires Descending(q)
    ensures Descending(Insert(q, x))
    ensures forall i :: 0 <= i < |Insert(q, x)| ==> Insert(q, x)[i] == x || Insert(q, x)[i] in q
  {
    if q != [] && q[|q| - 1].time < x.time {
      var front, last := q[..|q| - 1], q[|q| - 1];
      InsertDescends(front, x);
      var r := Insert(front, x);
      assert forall i :: 0 <= i < |r| ==> r[i].time >= last.time;
    }
  }

  lemma {:induction false} SortedKeeps(q: seq<Entry>)
    ensures Descending(Sorted(q)) && multiset(Sorted(q)) == multiset(q)
  {
    if q != [] {
      var front, last := q[..|q| - 1], q[|q| - 1];
      SortedKeeps(front);
      InsertDescends(Sorted(front), last);
      InsertAdds(Sorted(front), last);
      assert q == front + [last];
    }
  }

  lemma {:induction false} SortedCounts(q: seq<Entry>, t: int)
    ensures Count(Sorted(q), t) == Count(q, t)
  {
    if q != [] {
      SortedCounts(q[..|q| - 1], t);
      InsertCounts(Sorted(q[..|q| - 1]), q[|q| - 1], t);
    }
  }

  lemma {:induction false} CountConcat(p: seq<Entry>, q: seq<Entry>, t: int)
    ensures Count(p + q, t) == Count(p, t) + Count(q, t)
    decreases |q|
  {
    if q == [] {
      assert p + q == p;
    } else {
      assert (p + q)[..|p + q| - 1] == p + q[..|q| - 1];
      CountConcat(p, q[..|q| - 1], t);
    }
  }

  lemma {:induction false} CountNone(q: seq<Entry>, t: int)
    requires forall i :: 0 <= i < |q| ==> q[i].time < t
    ensures Count(q, t) == 0
  {
    if q != [] {
      CountNone(q[..|q| - 1], t);
    }
  }

  lemma CountPair(a: Entry, b: Entry, t: int)
    ensures Count([a, b], t) == (if a.time >= t then 1 else 0) + if b.time >= t then 1 else 0
  {
    var one: seq<Entry> := [a];
    assert one[..0] == [] && Count(one, t) == if a.time >= t then 1 else 0;
    var two := one + [b];
    assert two[..1] == one && two == [a, b];
  }

  // Of a descending list the first two answer for all of it, up to two.
  lemma CountFirstTwo(s: seq<Entry>, t: int)
    requires Descending(s) && |s| > 2
    ensures Count(s[..2], t) == if Count(s, t) < 2 then Count(s, t) else 2
  {
    var rest := s[2..];
    assert s[..2] == [s[0], s[1]] && s == [s[0], s[1]] + rest;
    CountPair(s[0], s[1], t);
    CountConcat([s[0], s[1]], rest, t);
    if s[1].time < t {
      CountNone(rest, t);
    }
  }

  // The top two of a list answer every question "how many are as recent as t" the list
  // answers with less than two, and with two otherwise.
  lemma CountTopTwo(q: seq<Entry>, t: int)
    ensures Count(TopTwo(q), t) == if Count(q, t) < 2 then Count(q, t) else 2
  {
    SortedKeeps(q);
    SortedCounts(q, t);
    hide Count;
    hide Sorted;
    var s := Sorted(q);
    if |s| > 2 {
      CountFirstTwo(s, t);
    } else {
      CountAtMost(s, t);
    }
  }

  lemma {:induction false} CountAtMost(q: seq<Entry>, t: int)
    ensures Count(q, t) <= |q|
  {
    if q != [] {
      CountAtMost(q[..|q| - 1], t);
    }
  }

  // x is listed, or two listed entries are at least as recent.
  predicate Covers(q: seq<Entry>, x: Entry) { x in q || Count(q, x.time) >= 2 }

  lemma TopTwoCovers(q: seq<Entry>, x: Entry)
    requires Covers(q, x)
    ensures Covers(TopTwo(q), x)
  {
    CountTopTwo(q, x.time);
    if x in q && x !in TopTwo(q) {
      SortedKeeps(q);
      assert x in multiset(q);
      LeftOutIsDominated(Sorted(q), x);
    }
  }

  lemma LeftOutIsDominated(s: seq<Entry>, x: Entry)
    requires Descending(s) && x in multiset(s) && x !in (if |s| <= 2 then s else s[..2])
    ensures |s| > 2 && Count(s[..2], x.time) >= 2
  {
    assert x in s;
    var i :| 0 <= i < |s| && s[i] == x;
    assert i >= 2;
    assert s[..2] == [s[0], s[1]];
    CountPair(s[0], s[1], x.time);
  }

  lemma TopTwoIsPart(q: seq<Entry>, x: Entry)
    requires x in TopTwo(q)
    ensures x in q
  {
    SortedKeeps(q);
    assert x in Sorted(q);
    assert x in multiset(q);
  }

  lemma CoversConcat(p: seq<Entry>, q: seq<Entry>, x: Entry)
    requires Covers(p, x) || Covers(q, x)
    ensures Covers(p + q, x)
  {
    CountConcat(p, q, x.time);
  }

  predicate NoDuplicates(q: seq<Entry>) { forall i, j :: 0 <= i < j < |q| ==> q[i] != q[j] }

  lemma TopTwoIsDistinct(q: seq<Entry>)
    requires NoDuplicates(q)
    ensures NoDuplicates(TopTwo(q))
  {
    SortedKeeps(q);
    var s := Sorted(q);
    if |s| >= 2 && s[0] == s[1] {
      assert s == [s[0], s[1]] + s[2..];
      assert multiset(s)[s[0]] >= 2;
      CountsOnce(q, s[0]);
    }
  }

  lemma {:induction false} CountsOnce(q: seq<Entry>, x: Entry)
    requires NoDuplicates(q)
    ensures multiset(q)[x] <= 1
  {
    if q != [] {
      var last := |q| - 1;
      CountsOnce(q[..last], x);
      assert q == q[..last] + [q[last]];
      if q[last] == x {
        assert x !in q[..last];
        assert x !in multiset(q[..last]);
      }
    }
  }

  // ---------------------------------------------------------------- the recency table

  function EntryOf(k: Key, u: Upload): Entry { Entry(k.build, k.id, u.time) }

  predicate IsReady(builds: map<BuildId, Build>, uploads: map<Key, Upload>, k: Key) {
    k in uploads && uploads[k].state.READY? && k.build in builds && builds[k.build].state.READY?
  }

  // Every row is a READY upload of a READY build, and every such upload is in the table
  // or no newer than two others that are.
  ghost predicate RowsOk(builds: map<BuildId, Build>, uploads: map<Key, Upload>, provider: Provider, q: seq<Entry>) {
    forall e :: e in q ==> var k := Key(e.build, provider, e.upload); IsReady(builds, uploads, k) && e == EntryOf(k, uploads[k])
  }

  ghost predicate TableOk(builds: map<BuildId, Build>, uploads: map<Key, Upload>, table: map<Provider, seq<Entry>>) {
    && (forall p :: p in table ==> RowsOk(builds, uploads, p, table[p]) && NoDuplicates(table[p]))
    && (forall k :: IsReady(builds, uploads, k) ==> k.provider in table && Covers(table[k.provider], EntryOf(k, uploads[k])))
  }

  lemma LeftOutIsOlder(builds: map<BuildId, Build>, uploads: map<Key, Upload>, table: map<Provider, seq<Entry>>, k: Key)
    requires TableOk(builds, uploads, table) && IsReady(builds, uploads, k)
    requires forall p :: p in table ==> |table[p]| <= 2
    requires EntryOf(k, uploads[k]) !in table[k.provider]
    ensures var q := table[k.provider];
            |q| == 2 && q[0] != q[1] && q[0].time >= uploads[k].time && q[1].time >= uploads[k].time
  {
    var q := table[k.provider];
    var t := uploads[k].time;
    CountAtMost(q, t);
    assert Covers(q, EntryOf(k, uploads[k]));
    assert |q| == 2 && q == q[..1] + [q[1]];
    CountConcat(q[..1], [q[1]], t);
    CountAtMost(q[..1], t);
    CountAtMost([q[1]], t);
    assert q[..1] == [q[0]];
    assert [q[0]][..0] == [] && [q[1]][..0] == [];
  }

  // What others do during a pass: who holds the lock of an upload in progress, and its
  // number's lock while it is marked and while it is removed; which images the cloud
  // deletes; which builds are in progress, and whose id is locked.
  datatype Others = Others(uploading: Key -> bool, marking: Key -> bool, removing: Key -> bool, cloudDeletes: Key -> bool,
                           building: BuildId -> bool, idLocked: BuildId -> bool)

  // An upload that can be marked now, or is already.
  predicate Markable(o: Others, u: Upload, k: Key) {
    u.state.DELETING? || (!(u.state.UPLOADING? && o.uploading(k)) && !o.marking(k))
  }

  // And that can be removed at once.
  predicate Removable(o: Others, u: Upload, k: Key) { Markable(o, u, k) && o.cloudDeletes(k) && !o.removing(k) }

  // k has been dealt with as far as the others let it.
  predicate DealtWith(o: Others, was: map<Key, Upload>, now: map<Key, Upload>, k: Key)
    requires k in was
  {
    && (Removable(o, was[k], k) ==> k !in now)
    && (Markable(o, was[k], k) ==> k !in now || now[k].state.DELETING?)
  }

  // The same for an upload of a build that is kept: a READY one stays, an abandoned one
  // goes, one in progress is left alone, and the rest is dealt with.
  predicate Current(o: Others, was: map<Key, Upload>, now: map<Key, Upload>, k: Key)
    requires k in was
  {
    match was[k].state
    case READY => SameUpload(was, now, k)
    case UPLOADING => if o.uploading(k) then SameUpload(was, now, k) else k !in now
    case FAILED => DealtWith(o, was, now, k)
    case DELETING => DealtWith(o, was, now, k)
  }

  // A build that is to go: not one to keep, unless marked already, nor one in progress.
  predicate Doomed(b: Build, kept: bool, building: bool) {
    b.state.DELETING? || (!kept && !(b.state.BUILDING? && building))
  }

  ghost predicate NoUploads(uploads: map<Key, Upload>, b: BuildId) { forall k :: k in uploads ==> k.build != b }

  ghost predicate AllDeleting(uploads: map<Key, Upload>, b: BuildId) { forall k :: k in uploads && k.build == b ==> uploads[k].state.DELETING? }

  class ImageRecords {
    var builds: map<BuildId, Build>
    var uploads: map<Key, Upload>

    static method List<T(==)>(s: set<T>) returns (q: seq<T>)
      ensures forall x :: x in q <==> x in s
      ensures forall i, j :: 0 <= i < j < |q| ==> q[i] != q[j]
    {
      q := [];
      var left := s;
      while left != {}
        invariant left <= s
        invariant forall x :: x in q <==> x in s && x !in left
        invariant forall i, j :: 0 <= i < j < |q| ==> q[i] != q[j]
        decreases left
      {
        var x :| x in left;
        q := q + [x];
        left := left - {x};
      }
    }

    method GetBuildProviders(b: BuildId) returns (q: seq<Provider>)
      ensures forall p :: p in q <==> exists k :: k in uploads && k.build == b && k.provider == p
      ensures forall i, j :: 0 <= i < j < |q| ==> q[i] != q[j]
    {
      q := List(set k | k in uploads && k.build == b :: k.provider);
    }

    method GetUploads(b: BuildId, p: Provider) returns (q: seq<UploadId>)
      ensures forall u :: u in q <==> Key(b, p, u) in uploads
      ensures forall i, j :: 0 <= i < j < |q| ==> q[i] != q[j]
    {
      q := List(set k | k in uploads && k.build == b && k.provider == p :: k.id);
      assert forall u :: Key(b, p, u) in uploads ==> Key(b, p, u).id == u;
    }

    // getMostRecentBuildImageUploads(2, ..., READY).
    method MostRecentUploads(b: BuildId, p: Provider) returns (recent: seq<Entry>)
      requires b in builds && builds[b].state.READY?
      ensures RowsOk(builds, uploads, p, recent) && NoDuplicates(recent)
      ensures forall e :: e in recent ==> e.build == b
      ensures forall k :: IsReady(builds, uploads, k) && k.build == b && k.provider == p ==> Covers(recent, EntryOf(k, uploads[k]))
    {
      var ids := GetUploads(b, p);
      var matches: seq<Entry> := [];
      var i := 0;
      while i < |ids|
        invariant 0 <= i <= |ids|
        invariant RowsOk(builds, uploads, p, matches) && NoDuplicates(matches)
        invariant forall e :: e in matches ==> e.build == b && e.upload in ids[..i]
        invariant forall u :: u in ids[..i] && uploads[Key(b, p, u)].state.READY? ==> EntryOf(Key(b, p, u), uploads[Key(b, p, u)]) in matches
      {
        var k := Key(b, p, ids[i]);
        assert ids[..i + 1] == ids[..i] + [ids[i]];
        if uploads[k].state.READY? {
          matches := matches + [EntryOf(k, uploads[k])];
        }
        i := i + 1;
      }
      recent := TopTwo(matches);
      TopTwoIsDistinct(matches);
      forall e | e in recent ensures e in matches {
        TopTwoIsPart(matches, e);
      }
      forall k | IsReady(builds, uploads, k) && k.build == b && k.provider == p ensures Covers(recent, EntryOf(k, uploads[k])) {
        assert k == Key(b, p, k.id) && k.id in ids[..i];
        TopTwoCovers(matches, EntryOf(k, uploads[k]));
      }
    }

    // The first half of _buildUploadRecencyTable, for one build.
    method AddBuild(table: map<Provider, seq<Entry>>, b: BuildId, ghost done: set<BuildId>) returns (table': map<Provider, seq<Entry>>)
      requires b in builds && builds[b].state.READY? && b !in done && Gathered(builds, uploads, table, done)
      ensures Gathered(builds, uploads, table', done + {b})
    {
      table' := table;
      var providers := GetBuildProviders(b);
      var i := 0;
      assert PartlyGathered(builds, uploads, table', done, b, providers[..0]);
      while i < |providers|
        invariant 0 <= i <= |providers|
        invariant PartlyGathered(builds, uploads, table', done, b, providers[..i])
      {
        var provider := providers[i];
        if provider !in table' {
          table' := table'[provider := []];
        }
        var recent := MostRecentUploads(b, provider);
        assert providers[..i + 1] == providers[..i] + [provider];
        GatherMore(builds, uploads, table', done, b, providers[..i], provider, recent);
        table' := table'[provider := table'[provider] + recent];
        i := i + 1;
      }
      assert providers[..i] == providers;
    }

    // _buildUploadRecencyTable.
    method BuildUploadRecencyTable() returns (table: map<Provider, seq<Entry>>)
      ensures TableOk(builds, uploads, table) && forall p :: p in table ==> |table[p]| <= 2
    {
      table := map[];
      var ready := List(set b | b in builds && builds[b].state.READY?);
      var i := 0;
      ghost var handled: set<BuildId> := {};
      while i < |ready|
        invariant 0 <= i <= |ready|
        invariant Gathered(builds, uploads, table, handled)
        invariant forall b :: b in handled <==> b in ready[..i]
      {
        assert ready[..i + 1] == ready[..i] + [ready[i]];
        assert ready[i] in ready && ready[i] !in ready[..i];
        table := AddBuild(table, ready[i], handled);
        handled := handled + {ready[i]};
        i := i + 1;
      }
      assert ready[..i] == ready;
      assert TableOk(builds, uploads, table);
      var done: set<Provider> := {};
      while done != table.Keys
        invariant done <= table.Keys && TableOk(builds, uploads, table)
        invariant forall p :: p in done ==> |table[p]| <= 2
        decreases table.Keys - done
      {
        var p :| p in table && p !in done;
        SortRow(builds, uploads, table, p);
        table := table[p := TopTwo(table[p])];
        done := done + {p};
      }
    }

    // ---------------------------------------------------------------- deleting uploads

    // _deleteUpload: an upload that nobody is at goes, or is marked until the cloud lets go
    // of its image; any other stays as it is.
    method DeleteUpload(k: Key, o: Others)
      requires k in uploads
      modifies this`uploads
      ensures k !in uploads <==> Removable(o, old(uploads)[k], k)
      ensures k in uploads ==>
                uploads == if Markable(o, old(uploads)[k], k) then old(uploads)[k := old(uploads)[k].(state := UploadState.DELETING)] else old(uploads)
      ensures k !in uploads ==> uploads == old(uploads) - {k}
    {
      if !uploads[k].state.DELETING? {
        if !(uploads[k].state.UPLOADING? && o.uploading(k)) {
          if o.marking(k) {
            return;
          }
          uploads := uploads[k := uploads[k].(state := UploadState.DELETING)];
        }
      }
      if uploads[k].state.DELETING? {
        if o.cloudDeletes(k) && !o.removing(k) {
          uploads := uploads - {k};
        }
      }
    }

    // _isRecentUpload.
    method IsRecentUpload(table: map<Provider, seq<Entry>>, p: Provider, b: BuildId, u: UploadId) returns (recent: bool)
      ensures recent <==> p in table && exists e :: e in table[p] && e.build == b && e.upload == u
    {
      if p !in table {
        return false;
      }
      var i := 0;
      while i < |table[p]|
        invariant 0 <= i <= |table[p]|
        invariant forall e :: e in table[p][..i] ==> !(e.build == b && e.upload == u)
      {
        if table[p][i].build == b && table[p][i].upload == u {
          return true;
        }
        i := i + 1;
      }
      assert table[p][..i] == table[p];
      return false;
    }

    // _cleanupProvider with recent uploads spared, and _cleanupObsoleteProviderUploads
    // with an empty table.
    method DeleteUploads(table: map<Provider, seq<Entry>>, p: Provider, b: BuildId, o: Others)
      modifies this`uploads
      ensures OnlyDeletes(old(uploads), uploads)
      ensures forall k :: k in old(uploads) && k.provider == p && k.build == b && !InTable(table, k) ==> DealtWith(o, old(uploads), uploads, k)
      ensures forall k :: k in old(uploads) && (k.provider != p || k.build != b || InTable(table, k)) ==> SameUpload(old(uploads), uploads, k)
    {
      var ids := GetUploads(b, p);
      var i := 0;
      while i < |ids|
        invariant 0 <= i <= |ids|
        invariant OnlyDeletes(old(uploads), uploads)
        invariant forall k :: k in old(uploads) && (k.provider != p || k.build != b || InTable(table, k) || k.id in ids[i..]) ==>
                    SameUpload(old(uploads), uploads, k)
        invariant forall k :: k in old(uploads) && k.provider == p && k.build == b && !InTable(table, k) && k.id !in ids[i..] ==>
                    DealtWith(o, old(uploads), uploads, k)
      {
        var k := Key(b, p, ids[i]);
        assert ids[i] in ids[i..] && SameUpload(old(uploads), uploads, k);
        assert forall u :: u in ids[i + 1..] ==> u in ids[i..] && u != ids[i];
        assert forall u :: u in ids[i..] ==> u == ids[i] || u in ids[i + 1..];
        var recent := IsRecentUpload(table, p, b, ids[i]);
        ghost var was := uploads;
        if !recent {
          DeleteUpload(k, o);
        }
        forall x | x in old(uploads) && x.provider == p && x.build == b && !InTable(table, x) && x.id !in ids[i + 1..]
          ensures DealtWith(o, old(uploads), uploads, x)
        {
          if x != k {
            assert x.id !in ids[i..] && DealtWith(o, old(uploads), was, x);
          }
        }
        i := i + 1;
      }
    }

    // ---------------------------------------------------------------- cleaning up builds

    // _cleanupCurrentProviderUploads: READY uploads of a build to keep are left alone.
    method CleanCurrent(p: Provider, b: BuildId, o: Others)
      modifies this`uploads
      ensures OnlyDeletes(old(uploads), uploads)
      ensures forall k :: k in old(uploads) && k.provider == p && k.build == b ==> Current(o, old(uploads), uploads, k)
      ensures forall k :: k in old(uploads) && (k.provider != p || k.build != b || old(uploads)[k].state.READY?) ==>
                SameUpload(old(uploads), uploads, k)
    {
      var ids := GetUploads(b, p);
      var i := 0;
      while i < |ids|
        invariant 0 <= i <= |ids|
        invariant OnlyDeletes(old(uploads), uploads)
        invariant forall k :: k in old(uploads) && (k.provider != p || k.build != b || old(uploads)[k].state.READY? || k.id in ids[i..]) ==>
                    SameUpload(old(uploads), uploads, k)
        invariant forall k :: k in old(uploads) && k.provider == p && k.build == b && k.id !in ids[i..] ==> Current(o, old(uploads), uploads, k)
      {
        var k := Key(b, p, ids[i]);
        assert ids[i] in ids[i..] && SameUpload(old(uploads), uploads, k);
        assert forall u :: u in ids[i + 1..] ==> u in ids[i..] && u != ids[i];
        assert forall u :: u in ids[i..] ==> u == ids[i] || u in ids[i + 1..];
        ghost var was := uploads;
        if uploads[k].state.UPLOADING? && !o.uploading(k) {
          uploads := uploads - {k};
        } else if uploads[k].state.DELETING? || uploads[k].state.FAILED? {
          DeleteUpload(k, o);
        }
        forall x | x in old(uploads) && x.provider == p && x.build == b && x.id !in ids[i + 1..]
          ensures Current(o, old(uploads), uploads, x)
        {
          if x != k {
            assert x.id !in ids[i..] && Current(o, old(uploads), was, x);
          }
        }
        i := i + 1;
      }
    }

    // The first provider loop of _cleanupImage.
    method CleanUnlisted(providers: seq<ProviderConfig>, b: BuildId, kept: bool, ghost table: map<Provider, seq<Entry>>, o: Others)
      modifies this`uploads
      ensures OnlyDeletes(old(uploads), uploads)
      ensures forall k :: k in old(uploads) && k.build == b && Unlisted(providers, k.provider) ==> DealtWith(o, old(uploads), uploads, k)
      ensures forall k :: k in old(uploads) && (k.build != b || Protected(table, providers, old(uploads), k)) ==> SameUpload(old(uploads), uploads, k)
    {
      var i := 0;
      while i < |providers|
        invariant 0 <= i <= |providers| && OnlyDeletes(old(uploads), uploads)
        invariant forall k :: k in old(uploads) && (k.build != b || Protected(table, providers, old(uploads), k)) ==> SameUpload(old(uploads), uploads, k)
        invariant forall k :: k in old(uploads) && k.build == b && Unlisted(providers[..i], k.provider) ==> DealtWith(o, old(uploads), uploads, k)
      {
        var p := providers[i];
        assert providers[..i + 1] == providers[..i] + [p];
        i := i + 1;
        if !p.manages {
          continue;
        }
        ghost var was := uploads;
        if !p.lists {
          DeleteUploads(map[], p.name, b, o);
        }
        ghost var was2 := uploads;
        if kept {
          CleanCurrent(p.name, b, o);
        }
        forall k | k in old(uploads) && k.build == b && Unlisted(providers[..i], k.provider) ensures DealtWith(o, old(uploads), uploads, k) {
          if !p.lists && k.provider == p.name {
            if k in was {
              DealtWithLater(o, old(uploads), was, was2, k);
            }
          } else {
            assert DealtWith(o, old(uploads), was, k);
          }
        }
      }
      assert providers[..i] == providers;
    }

    // The second one: _cleanupProvider for each.
    method CleanProviders(table: map<Provider, seq<Entry>>, providers: seq<ProviderConfig>, b: BuildId, o: Others)
      modifies this`uploads
      ensures OnlyDeletes(old(uploads), uploads)
      ensures forall k :: k in old(uploads) && k.build == b && Managed(providers, k.provider) && !InTable(table, k) ==>
                DealtWith(o, old(uploads), uploads, k)
      ensures forall k :: k in old(uploads) && (k.build != b || InTable(table, k)) ==> SameUpload(old(uploads), uploads, k)
    {
      var i := 0;
      while i < |providers|
        invariant 0 <= i <= |providers| && OnlyDeletes(old(uploads), uploads)
        invariant forall k :: k in old(uploads) && (k.build != b || InTable(table, k)) ==> SameUpload(old(uploads), uploads, k)
        invariant forall k :: k in old(uploads) && k.build == b && Managed(providers[..i], k.provider) && !InTable(table, k) ==>
                    DealtWith(o, old(uploads), uploads, k)
      {
        ghost var was := uploads;
        assert providers[..i + 1] == providers[..i] + [providers[i]];
        if providers[i].manages {
          DeleteUploads(table, providers[i].name, b, o);
        }
        forall k | k in old(uploads) && k.build == b && Managed(providers[..i + 1], k.provider) && !InTable(table, k)
          ensures DealtWith(o, old(uploads), uploads, k)
        {
          if Managed(providers[..i], k.provider) {
            assert DealtWith(o, old(uploads), was, k);
          } else if k in was {
            DealtWithLater(o, old(uploads), was, uploads, k);
          }
        }
        i := i + 1;
      }
      assert providers[..i] == providers;
    }

    // One build of _cleanupImage.  A mark that fails ends the pass.
    method CleanBuild(table: map<Provider, seq<Entry>>, providers: seq<ProviderConfig>, b: BuildId, kept: bool, o: Others) returns (ended: bool)
      requires b in builds
      modifies this
      ensures OnlyDeletes(old(uploads), uploads)
      ensures forall k :: k in old(uploads) && (k.build != b || Protected(table, providers, old(uploads), k)) ==> SameUpload(old(uploads), uploads, k)
      ensures forall k :: k in old(uploads) && k.build == b && Unlisted(providers, k.provider) ==> DealtWith(o, old(uploads), uploads, k)
      ensures Doomed(old(builds)[b], kept, o.building(b)) ==>
                forall k :: k in old(uploads) && k.build == b && Managed(providers, k.provider) && !InTable(table, k) ==>
                  DealtWith(o, old(uploads), uploads, k)
      ensures ended <==> Doomed(old(builds)[b], kept, o.building(b)) && AllDeleting(uploads, b) && !old(builds)[b].state.DELETING? && o.idLocked(b)
      ensures builds == if !Doomed(old(builds)[b], kept, o.building(b)) || !AllDeleting(uploads, b) || ended then old(builds)
                        else if NoUploads(uploads, b) then old(builds) - {b}
                        else old(builds)[b := old(builds)[b].(state := BuildState.DELETING)]
      ensures (exists k :: k in old(uploads) && k.build == b && Protected(table, providers, old(uploads), k)) ==> builds == old(builds)
    {
      CleanUnlisted(providers, b, kept, table, o);
      if !builds[b].state.DELETING? {
        if kept {
          return false;
        }
        if builds[b].state.BUILDING? && o.building(b) {
          return false;
        }
      }
      ghost var mid := uploads;
      CleanProviders(table, providers, b, o);
      forall k | k in old(uploads) && k.build == b && Managed(providers, k.provider) && !InTable(table, k)
        ensures DealtWith(o, old(uploads), uploads, k)
      {
        if k in mid {
          DealtWithLater(o, old(uploads), mid, uploads, k);
        }
      }
      assert forall k :: k in old(uploads) && k.build == b && Protected(table, providers, old(uploads), k) ==>
               SameUpload(old(uploads), uploads, k) && !uploads[k].state.DELETING?;
      ended := FinishBuild(b, o);
    }

    // The end of it: the build is marked as soon as all its uploads are being deleted, and
    // goes with the last of them.
    method FinishBuild(b: BuildId, o: Others) returns (ended: bool)
      requires b in builds
      modifies this`builds
      ensures ended <==> AllDeleting(uploads, b) && !old(builds)[b].state.DELETING? && o.idLocked(b)
      ensures builds == if !AllDeleting(uploads, b) || ended then old(builds)
                        else if NoUploads(uploads, b) then old(builds) - {b}
                        else old(builds)[b := old(builds)[b].(state := BuildState.DELETING)]
    {
      var remaining := set k | k in uploads && k.build == b;
      assert forall k :: k in remaining <==> k in uploads && k.build == b;
      assert NoUploads(uploads, b) ==> remaining == {};
      var allDeleting := forall k :: k in remaining ==> uploads[k].state.DELETING?;
      assert allDeleting <==> AllDeleting(uploads, b);
      if remaining == {} || allDeleting {
        if !builds[b].state.DELETING? {
          if o.idLocked(b) {
            return true;
          }
          builds := builds[b := builds[b].(state := BuildState.DELETING)];
        }
      }
      if remaining == {} {
        builds := builds - {b};
      }
      return false;
    }

    // The two most recent READY builds.
    method BuildsToKeep() returns (keep: seq<Entry>)
      ensures KeepOk(builds, keep) && |keep| <= 2
      ensures forall e :: e in keep ==> e.build in builds && builds[e.build].state.READY?
    {
      var all := List(builds.Keys);
      var ready: seq<Entry> := [];
      var i := 0;
      while i < |all|
        invariant 0 <= i <= |all|
        invariant NoDuplicates(ready)
        invariant forall e :: e in ready <==> e.build in all[..i] && e == Entry(e.build, "", builds[e.build].time) && builds[e.build].state.READY?
      {
        assert all[..i + 1] == all[..i] + [all[i]] && all[i] in all && all[i] !in all[..i];
        if builds[all[i]].state.READY? {
          ready := ready + [Entry(all[i], "", builds[all[i]].time)];
        }
        i := i + 1;
      }
      assert all[..i] == all;
      keep := TopTwo(ready);
      TopTwoIsDistinct(ready);
      forall e | e in keep ensures e in ready {
        TopTwoIsPart(ready, e);
      }
      forall b | b in builds && builds[b].state.READY? ensures Covers(keep, Entry(b, "", builds[b].time)) {
        TopTwoCovers(ready, Entry(b, "", builds[b].time));
      }
    }

    // _cleanupImage with a table that may be any table: what it lists is safe for every
    // provider that still lists the image; of the READY builds of a configured image only
    // those go that are no newer than two it keeps; and what is neither listed nor kept nor
    // in progress does go, as far as the others let it.
    method CleanupImage(table: map<Provider, seq<Entry>>, providers: seq<ProviderConfig>, configured: bool, o: Others)
        returns (ghost keep: seq<Entry>)
      modifies this
      ensures OnlyDeletes(old(uploads), uploads)
      ensures forall k :: k in old(uploads) && Protected(table, providers, old(uploads), k) ==>
                SameUpload(old(uploads), uploads, k) && (k.build in old(builds) ==> SameBuild(old(builds), builds, k.build))
      ensures if configured then KeepOk(old(builds), keep) && |keep| <= 2 else keep == []
      ensures forall e :: e in keep ==> SameBuild(old(builds), builds, e.build)
      ensures forall b :: b in builds ==> b in old(builds)
      ensures NobodyMarks(o) ==> forall b :: b in old(builds) ==>
                CleanedUp(table, providers, keep, o, old(builds), old(uploads), builds, uploads, b)
    {
      hide CleanedUp;
      hide KeepOk;
      OnlyDeletesNothing(uploads);
      var all := List(builds.Keys);
      var kept: seq<Entry> := [];
      if configured {
        kept := BuildsToKeep();
      }
      keep := kept;
      var i := 0;
      assert all[0..] == all && all[..0] == [];
      while i < |all|
        invariant 0 <= i <= |all|
        invariant Underway(table, providers, keep, o, old(builds), old(uploads), builds, uploads, all, i)
      {
        var ended := CleanNext(table, providers, kept, o, old(builds), old(uploads), all, i);
        i := i + 1;
        if ended {
          break;
        }
      }
      assert i == |all| ==> all[..i] == all;
    }

    // Its loop's body.
    method CleanNext(table: map<Provider, seq<Entry>>, providers: seq<ProviderConfig>, kept: seq<Entry>, o: Others,
                     ghost builds0: map<BuildId, Build>, ghost uploads0: map<Key, Upload>, all: seq<BuildId>, i: nat) returns (ended: bool)
      requires i < |all| && (forall j, k :: 0 <= j < k < |all| ==> all[j] != all[k])
      requires Underway(table, providers, kept, o, builds0, uploads0, builds, uploads, all, i)
      requires forall e :: e in kept ==> e.build in builds0 && builds0[e.build].state.READY?
      modifies this
      ensures Underway(table, providers, kept, o, builds0, uploads0, builds, uploads, all, i + 1)
      ensures NobodyMarks(o) ==> !ended
    {
      hide CleanedUp;
      hide DealtWith;
      hide Protected;
      hide OnlyDeletes;
      var b := all[i];
      assert b in all[i..] && SameBuild(builds0, builds, b);
      ghost var was, wasBuilds := uploads, builds;
      var isKept := Lists(kept, b);
      ended := CleanBuild(table, providers, b, isKept, o);
      OnlyDeletesMore(uploads0, was, uploads);
      assert forall x :: x != b && x in wasBuilds ==> SameBuild(wasBuilds, builds, x);
      assert isKept ==> builds == wasBuilds;
      assert forall e :: e in kept ==> SameBuild(builds0, builds, e.build);
      forall k | k in uploads0 && Protected(table, providers, uploads0, k)
        ensures SameUpload(uploads0, uploads, k) && (k.build in builds0 ==> SameBuild(builds0, builds, k.build))
      {
        assert SameUpload(uploads0, was, k) && (k.build in builds0 ==> SameBuild(builds0, wasBuilds, k.build));
        StaysProtected(table, providers, uploads0, was, k);
        assert SameUpload(was, uploads, k);
      }
      forall x | x in all[i + 1..] ensures SameBuild(builds0, builds, x) {
        assert x in all[i..] && x != b;
        assert SameBuild(builds0, wasBuilds, x);
      }
      forall k | k in uploads0 && k.build in all[i + 1..] ensures SameUpload(uploads0, uploads, k) {
        assert k.build in all[i..] && k.build != b && SameUpload(uploads0, was, k);
      }
      if NobodyMarks(o) {
        CleanedNow(table, providers, kept, o, builds0, uploads0, was, builds, uploads, b);
        OneMoreCleaned(table, providers, kept, o, builds0, uploads0, wasBuilds, was, builds, uploads, all, i);
      }
    }

    method Lists(kept: seq<Entry>, b: BuildId) returns (found: bool)
      ensures found <==> exists e :: e in kept && e.build == b
    {
      var i := 0;
      while i < |kept|
        invariant 0 <= i <= |kept|
        invariant forall e :: e in kept[..i] ==> e.build != b
      {
        if kept[i].build == b {
          return true;
        }
        i := i + 1;
      }
      assert kept[..i] == kept;
      return false;
    }

    // A whole pass over an otherwise unchanging store.
    method CleanupPass(providers: seq<ProviderConfig>, configured: bool, o: Others)
        returns (table: map<Provider, seq<Entry>>, ghost keep: seq<Entry>)
      modifies this
      ensures TableOk(old(builds), old(uploads), table) && forall p :: p in table ==> |table[p]| <= 2
      ensures forall p, e :: p in table && e in table[p] && StillListed(providers, p) ==>
                SameUpload(old(uploads), uploads, Key(e.build, p, e.upload)) && SameBuild(old(builds), builds, e.build)
      ensures if configured then KeepOk(old(builds), keep) && |keep| <= 2 else keep == []
      ensures NobodyMarks(o) ==> forall b :: b in old(builds) ==>
                CleanedUp(table, providers, keep, o, old(builds), old(uploads), builds, uploads, b)
    {
      table := BuildUploadRecencyTable();
      assert forall p, e :: p in table && e in table[p] && StillListed(providers, p) ==>
               Protected(table, providers, uploads, Key(e.build, p, e.upload));
      keep := CleanupImage(table, providers, configured, o);
    }
  }

  // A provider of the configuration; lists: the image is among its diskimages.
  datatype ProviderConfig = ProviderConfig(name: Provider, manages: bool, lists: bool)

  // No build id is locked while it is to be marked.
  ghost predicate NobodyMarks(o: Others) { forall b :: !o.idLocked(b) }

  ghost predicate ToKeep(keep: seq<Entry>, b: BuildId) { exists e :: e in keep && e.build == b }

  // Every upload of b can be removed at once.
  ghost predicate AllRemovable(table: map<Provider, seq<Entry>>, providers: seq<ProviderConfig>, o: Others, uploads: map<Key, Upload>, b: BuildId) {
    forall k :: k in uploads && k.build == b ==> Managed(providers, k.provider) && !InTable(table, k) && Removable(o, uploads[k], k)
  }

  // A pass has done for b what there is to do: its uploads that are not protected are dealt
  // with, and the build is gone if they all are.
  ghost predicate CleanedUp(table: map<Provider, seq<Entry>>, providers: seq<ProviderConfig>, keep: seq<Entry>, o: Others,
                            was: map<BuildId, Build>, wasUploads: map<Key, Upload>, builds: map<BuildId, Build>, uploads: map<Key, Upload>,
                            b: BuildId)
    requires b in was
  {
    && (forall k :: k in wasUploads && k.build == b && Unlisted(providers, k.provider) ==> DealtWith(o, wasUploads, uploads, k))
    && (Doomed(was[b], ToKeep(keep, b), o.building(b)) ==>
          && (forall k :: k in wasUploads && k.build == b && Managed(providers, k.provider) && !InTable(table, k) ==> DealtWith(o, wasUploads, uploads, k))
          && (AllRemovable(table, providers, o, wasUploads, b) ==> b !in builds && NoUploads(uploads, b))
          && (AllDeleting(uploads, b) ==> b !in builds || builds[b].state.DELETING?))
    && (!Doomed(was[b], ToKeep(keep, b), o.building(b)) ==> SameBuild(was, builds, b))
  }

  lemma CleanedNow(table: map<Provider, seq<Entry>>, providers: seq<ProviderConfig>, keep: seq<Entry>, o: Others,
                   was: map<BuildId, Build>, wasUploads: map<Key, Upload>, mid: map<Key, Upload>,
                   builds: map<BuildId, Build>, uploads: map<Key, Upload>, b: BuildId)
    requires b in was && OnlyDeletes(wasUploads, mid) && OnlyDeletes(mid, uploads)
    requires forall k :: k in wasUploads && k.build == b ==> SameUpload(wasUploads, mid, k)
    requires forall k :: k in mid && k.build == b && Unlisted(providers, k.provider) ==> DealtWith(o, mid, uploads, k)
    requires Doomed(was[b], ToKeep(keep, b), o.building(b)) ==>
               && (forall k :: k in mid && k.build == b && Managed(providers, k.provider) && !InTable(table, k) ==> DealtWith(o, mid, uploads, k))
               && (NoUploads(uploads, b) ==> b !in builds)
               && (AllDeleting(uploads, b) ==> b !in builds || builds[b].state.DELETING?)
    requires !Doomed(was[b], ToKeep(keep, b), o.building(b)) ==> SameBuild(was, builds, b)
    ensures CleanedUp(table, providers, keep, o, was, wasUploads, builds, uploads, b)
  {
    forall k | k in wasUploads && k.build == b && DealtWith(o, mid, uploads, k) ensures DealtWith(o, wasUploads, uploads, k) {
      assert SameUpload(wasUploads, mid, k);
    }
    if Doomed(was[b], ToKeep(keep, b), o.building(b)) && AllRemovable(table, providers, o, wasUploads, b) {
      forall k | k in mid && k.build == b ensures k !in uploads {
        assert SameUpload(wasUploads, mid, k) && DealtWith(o, mid, uploads, k);
      }
      assert NoUploads(uploads, b);
    }
  }

  lemma StaysCleaned(table: map<Provider, seq<Entry>>, providers: seq<ProviderConfig>, keep: seq<Entry>, o: Others,
                     was: map<BuildId, Build>, wasUploads: map<Key, Upload>, midBuilds: map<BuildId, Build>, mid: map<Key, Upload>,
                     builds: map<BuildId, Build>, uploads: map<Key, Upload>, b: BuildId, x: BuildId)
    requires x in was && x != b && CleanedUp(table, providers, keep, o, was, wasUploads, midBuilds, mid, x)
    requires OnlyDeletes(mid, uploads) && forall k :: k in mid && k.build != b ==> SameUpload(mid, uploads, k)
    requires forall y :: y != b ==> (y in builds <==> y in midBuilds) && (y in builds ==> builds[y] == midBuilds[y])
    ensures CleanedUp(table, providers, keep, o, was, wasUploads, builds, uploads, x)
  {
    forall k | k in wasUploads && k.build == x && DealtWith(o, wasUploads, mid, k) ensures DealtWith(o, wasUploads, uploads, k) {
      assert k in mid ==> SameUpload(mid, uploads, k);
    }
    assert AllDeleting(uploads, x) ==> AllDeleting(mid, x) by {
      assert forall k :: k in mid && k.build == x ==> SameUpload(mid, uploads, k);
    }
  }

  // A pass between two builds: those from the i-th on are as they were, rows and kept builds
  // are safe, and the others have been cleaned up.
  ghost predicate Underway(table: map<Provider, seq<Entry>>, providers: seq<ProviderConfig>, keep: seq<Entry>, o: Others,
                           was: map<BuildId, Build>, wasUploads: map<Key, Upload>, builds: map<BuildId, Build>, uploads: map<Key, Upload>,
                           all: seq<BuildId>, i: nat)
    requires i <= |all|
  {
    && OnlyDeletes(wasUploads, uploads)
    && (forall b :: b in all[i..] ==> SameBuild(was, builds, b))
    && (forall k :: k in wasUploads && k.build in all[i..] ==> SameUpload(wasUploads, uploads, k))
    && (forall k :: k in wasUploads && Protected(table, providers, wasUploads, k) ==>
          SameUpload(wasUploads, uploads, k) && (k.build in was ==> SameBuild(was, builds, k.build)))
    && (forall e :: e in keep ==> SameBuild(was, builds, e.build))
    && (forall b :: b in builds ==> b in was)
    && (NobodyMarks(o) ==> AllCleaned(table, providers, keep, o, was, wasUploads, builds, uploads, all[..i]))
  }

  ghost predicate AllCleaned(table: map<Provider, seq<Entry>>, providers: seq<ProviderConfig>, keep: seq<Entry>, o: Others,
                             was: map<BuildId, Build>, wasUploads: map<Key, Upload>, builds: map<BuildId, Build>, uploads: map<Key, Upload>,
                             done: seq<BuildId>)
  {
    forall b :: b in done ==> b in was && CleanedUp(table, providers, keep, o, was, wasUploads, builds, uploads, b)
  }

  lemma OneMoreCleaned(table: map<Provider, seq<Entry>>, providers: seq<ProviderConfig>, keep: seq<Entry>, o: Others,
                       was: map<BuildId, Build>, wasUploads: map<Key, Upload>, midBuilds: map<BuildId, Build>, mid: map<Key, Upload>,
                       builds: map<BuildId, Build>, uploads: map<Key, Upload>, all: seq<BuildId>, i: nat)
    requires i < |all| && all[i] in was && all[i] !in all[..i]
    requires AllCleaned(table, providers, keep, o, was, wasUploads, midBuilds, mid, all[..i])
    requires CleanedUp(table, providers, keep, o, was, wasUploads, builds, uploads, all[i])
    requires OnlyDeletes(mid, uploads) && forall k :: k in mid && k.build != all[i] ==> SameUpload(mid, uploads, k)
    requires forall y :: y != all[i] ==> (y in builds <==> y in midBuilds) && (y in builds ==> builds[y] == midBuilds[y])
    ensures AllCleaned(table, providers, keep, o, was, wasUploads, builds, uploads, all[..i + 1])
  {
    hide CleanedUp;
    hide OnlyDeletes;
    hide SameUpload;
    forall x | x in all[..i] ensures CleanedUp(table, providers, keep, o, was, wasUploads, builds, uploads, x) {
      StaysCleaned(table, providers, keep, o, was, wasUploads, midBuilds, mid, builds, uploads, all[i], x);
    }
    assert all[..i + 1] == all[..i] + [all[i]];
  }

  predicate Managed(providers: seq<ProviderConfig>, p: Provider) {
    exists i :: 0 <= i < |providers| && providers[i].manages && providers[i].name == p
  }

  predicate Unlisted(providers: seq<ProviderConfig>, p: Provider) {
    exists i :: 0 <= i < |providers| && providers[i].manages && !providers[i].lists && providers[i].name == p
  }

  // An upload that has only been marked in the meantime is dealt with all the same.
  lemma DealtWithLater(o: Others, was: map<Key, Upload>, mid: map<Key, Upload>, now: map<Key, Upload>, k: Key)
    requires k in was && k in mid && (mid[k] == was[k] || mid[k] == was[k].(state := UploadState.DELETING))
    requires DealtWith(o, mid, now, k)
    ensures DealtWith(o, was, now, k)
  {
  }

  predicate StillListed(providers: seq<ProviderConfig>, p: Provider) {
    forall i :: 0 <= i < |providers| && providers[i].manages && providers[i].name == p ==> providers[i].lists
  }

  predicate Protected(table: map<Provider, seq<Entry>>, providers: seq<ProviderConfig>, uploads: map<Key, Upload>, k: Key) {
    k in uploads && uploads[k].state.READY? && InTable(table, k) && StillListed(providers, k.provider)
  }

  lemma StaysProtected(table: map<Provider, seq<Entry>>, providers: seq<ProviderConfig>, was: map<Key, Upload>, now: map<Key, Upload>, k: Key)
    requires k in was && Protected(table, providers, was, k) && SameUpload(was, now, k)
    ensures Protected(table, providers, now, k)
  {
  }

  predicate SameBuild(was: map<BuildId, Build>, builds: map<BuildId, Build>, b: BuildId) {
    b in was && b in builds && builds[b] == was[b]
  }

  // keep lists READY builds, and every READY build is listed or no newer than two that are.
  ghost predicate KeepOk(builds: map<BuildId, Build>, keep: seq<Entry>) {
    && NoDuplicates(keep)
    && (forall e :: e in keep ==> e.build in builds && builds[e.build].state.READY? && e.time == builds[e.build].time)
    && (forall b :: b in builds && builds[b].state.READY? ==> Covers(keep, Entry(b, "", builds[b].time)))
  }

  lemma SortRow(builds: map<BuildId, Build>, uploads: map<Key, Upload>, table: map<Provider, seq<Entry>>, p: Provider)
    requires TableOk(builds, uploads, table) && p in table
    ensures TableOk(builds, uploads, table[p := TopTwo(table[p])]) && |TopTwo(table[p])| <= 2
  {
    TopTwoIsDistinct(table[p]);
    forall e | e in TopTwo(table[p]) ensures e in table[p] {
      TopTwoIsPart(table[p], e);
    }
    forall k | IsReady(builds, uploads, k) && k.provider == p ensures Covers(TopTwo(table[p]), EntryOf(k, uploads[k])) {
      TopTwoCovers(table[p], EntryOf(k, uploads[k]));
    }
  }

  predicate InTable(table: map<Provider, seq<Entry>>, k: Key) {
    k.provider in table && exists e :: e in table[k.provider] && e.build == k.build && e.upload == k.id
  }

  predicate SameUpload(was: map<Key, Upload>, uploads: map<Key, Upload>, k: Key) {
    k in was && k in uploads && uploads[k] == was[k]
  }

  // Uploads disappear or are marked; nothing else happens to them.
  ghost predicate OnlyDeletes(was: map<Key, Upload>, uploads: map<Key, Upload>) {
    forall k :: k in uploads ==> k in was && (uploads[k] == was[k] || uploads[k] == was[k].(state := UploadState.DELETING))
  }

  lemma OnlyDeletesNothing(uploads: map<Key, Upload>)
    ensures OnlyDeletes(uploads, uploads)
  {
  }

  lemma OnlyDeletesMore(was: map<Key, Upload>, mid: map<Key, Upload>, now: map<Key, Upload>)
    requires OnlyDeletes(was, mid) && OnlyDeletes(mid, now)
    ensures OnlyDeletes(was, now)
  {
  }

  // Before sorting: the table covers the READY uploads of the builds in done.
  ghost predicate Gathered(builds: map<BuildId, Build>, uploads: map<Key, Upload>, table: map<Provider, seq<Entry>>, done: set<BuildId>) {
    && (forall p :: p in table ==> RowsOk(builds, uploads, p, table[p]) && NoDuplicates(table[p]))
    && (forall p, e :: p in table && e in table[p] ==> e.build in done)
    && (forall k :: IsReady(builds, uploads, k) && k.build in done ==> k.provider in table && Covers(table[k.provider], EntryOf(k, uploads[k])))
  }

  // The same, and those of b for the providers in part.
  ghost predicate PartlyGathered(builds: map<BuildId, Build>, uploads: map<Key, Upload>, table: map<Provider, seq<Entry>>,
                                 done: set<BuildId>, b: BuildId, part: seq<Provider>) {
    && (forall p :: p in table ==> RowsOk(builds, uploads, p, table[p]) && NoDuplicates(table[p]))
    && (forall p, e :: p in table && e in table[p] ==> e.build in done || (e.build == b && p in part))
    && (forall k :: IsReady(builds, uploads, k) && (k.build in done || (k.build == b && k.provider in part)) ==>
          k.provider in table && Covers(table[k.provider], EntryOf(k, uploads[k])))
  }

  lemma GatherMore(builds: map<BuildId, Build>, uploads: map<Key, Upload>, table: map<Provider, seq<Entry>>,
                   done: set<BuildId>, b: BuildId, part: seq<Provider>, provider: Provider, recent: seq<Entry>)
    requires PartlyGathered(builds, uploads, table, done, b, part) && b !in done && provider !in part && provider in table
    requires RowsOk(builds, uploads, provider, recent) && NoDuplicates(recent) && forall e :: e in recent ==> e.build == b
    requires forall k :: IsReady(builds, uploads, k) && k.build == b && k.provider == provider ==> Covers(recent, EntryOf(k, uploads[k]))
    ensures PartlyGathered(builds, uploads, table[provider := table[provider] + recent], done, b, part + [provider])
  {
    var more := table[provider := table[provider] + recent];
    forall k | IsReady(builds, uploads, k) && (k.build in done || (k.build == b && k.provider in part + [provider]))
      ensures k.provider in more && Covers(more[k.provider], EntryOf(k, uploads[k]))
    {
      if k.provider == provider {
        CoversConcat(table[provider], recent, EntryOf(k, uploads[k]));
      }
    }
  }
}
