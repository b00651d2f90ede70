/**
 Backing up and restoring image records (exportImageData and importImageData in
 nodepool/zk/zookeeper.py) over a tree of znodes in which every parent counts the
 children ever created under it: that count names its next sequence node.
 A path is the sequence of its components.
 */
module ImageBackup {
  type Path = seq<string>

  // ---------------------------------------------------------------- sequence numbers

  function Digit(d: nat): char
    requires d < 10
  {
    "0123456789"[d]
  }

  function DigitValue(c: char): nat { if '0' <= c <= '9' then c as nat - '0' as nat else 0 }

  // The decimal digits of n, at least `width` of them: Python's %0{width}d.
  function Padded(n: nat, width: nat): string
    decreases n, width
  {
    if n < 10 && width <= 1 then [Digit(n)]
    else Padded(n / 10, if width == 0 then 0 else width - 1) + [Digit(n % 10)]
  }

  function SequenceName(n: nat): string { Padded(n, 10) }

  // int() of a string of digits.
  function ParseInt(s: string): nat {
    if s == "" then 0 else 10 * ParseInt(s[..|s| - 1]) + DigitValue(s[|s| - 1])
  }

  lemma {:induction false} ParsePadded(n: nat, width: nat)
    ensures ParseInt(Padded(n, width)) == n
    decreases n, width
  {
    var s := Padded(n, width);
    assert s[|s| - 1] == Digit(n % 10) && DigitValue(Digit(n % 10)) == n % 10;
    if n < 10 && width <= 1 {
      assert s[..|s| - 1] == "";
    } else {
      assert s[..|s| - 1] == Padded(n / 10, if width == 0 then 0 else width - 1);
      ParsePadded(n / 10, if width == 0 then 0 else width - 1);
    }
  }

  // ---------------------------------------------------------------- the image subtree

  function Parent(p: Path): Path
    requires p != []
  {
    p[..|p| - 1]
  }

  predicate UnderImage(p: Path) { |p| >= 4 && p[0] == "nodepool" && p[1] == "images" }

  predicate IsPause(p: Path) { UnderImage(p) && |p| == 4 && p[3] == "pause" }

  predicate IsBuild(p: Path) { UnderImage(p) && |p| == 5 && p[3] == "builds" && p[4] != "lock" }

  predicate IsUpload(p: Path) {
    UnderImage(p) && |p| == 9 && p[3] == "builds" && p[4] != "lock" && p[5] == "providers" && p[7] == "images" && p[8] != "lock"
  }

  predicate IsRecord(p: Path) { IsPause(p) || IsBuild(p) || IsUpload(p) }

  predicate Tree(data: map<Path, string>) {
    forall p :: p in data ==> p != [] && (|p| > 1 ==> Parent(p) in data)
  }

  // What a backup holds: the record paths of a tree, pause flags without their data.
  function Backup(data: map<Path, string>): map<Path, string> {
    map p | p in data && IsRecord(p) :: if IsPause(p) then "" else data[p]
  }

  // Uploads are sequence nodes.
  predicate Numbered(data: map<Path, string>) {
    forall p :: p in data && IsUpload(p) ==> p[8] == SequenceName(ParseInt(p[8]))
  }

  function Number(p: Path): nat
    requires |p| == 9
  {
    ParseInt(p[8])
  }

  // Data that can be imported: records only, uploads numbered, pause flags empty; and
  // complete data: every upload comes with its build.
  predicate Importable(d: map<Path, string>) {
    Numbered(d) && forall p :: p in d ==> IsRecord(p) && (IsPause(p) ==> d[p] == "")
  }

  predicate Complete(d: map<Path, string>) { forall p :: p in d && IsUpload(p) ==> p[..5] in d }

  lemma {:induction false} TreeHasPrefix(data: map<Path, string>, p: Path, n: nat)
    requires Tree(data) && p in data && 0 < n <= |p|
    ensures p[..n] in data
    decreases |p| - n
  {
    if n == |p| {
      assert p[..n] == p;
    } else {
      TreeHasPrefix(data, p, n + 1);
      assert Parent(p[..n + 1]) == p[..n];
    }
  }

  lemma BackupIsImportable(data: map<Path, string>)
    requires Tree(data) && Numbered(data)
    ensures Importable(Backup(data)) && Complete(Backup(data))
  {
    var d := Backup(data);
    forall p | p in d && IsUpload(p) ensures p[..5] in d {
      TreeHasPrefix(data, p, 5);
    }
  }

  // A tree whose nodes are the records of d and their ancestors backs up to d.
  ghost predicate Below(d: map<Path, string>, q: Path) {
    q != [] && exists p :: p in d && q <= p
  }

  lemma RecordBelow(d: map<Path, string>, q: Path)
    requires Importable(d) && Complete(d) && IsRecord(q) && Below(d, q)
    ensures q in d
  {
    var p :| p in d && q <= p;
    if q != p {
      assert IsRecord(p) && q[3] == p[3];
      assert |q| == 5 && p[..5] == q;
    }
  }

  lemma BackupOfRestored(d: map<Path, string>, data: map<Path, string>)
    requires Importable(d) && Complete(d)
    requires forall p :: p in d ==> p in data && data[p] == d[p]
    requires OnlyBelow(d, data)
    ensures Backup(data) == d
  {
    hide Below;
    hide Complete;
    forall q | q in data && IsRecord(q) ensures q in d {
      RecordBelow(d, q);
    }
    assert Backup(data).Keys == d.Keys;
  }

  // ---------------------------------------------------------------- numbers in use

  predicate UploadIn(d: set<Path>, p: Path, key: Path) { p in d && |p| == 9 && Parent(p) == key }

  // highest[key] is the highest number of an upload of d below key.
  ghost predicate Highest(d: set<Path>, highest: map<Path, nat>) {
    && (forall p :: p in d && |p| == 9 ==> Parent(p) in highest && Number(p) <= highest[Parent(p)])
    && (forall key :: key in highest ==> |key| == 8 && exists p :: UploadIn(d, p, key) && Number(p) == highest[key])
  }

  lemma HighestGrows(d: set<Path>, highest: map<Path, nat>, p: Path)
    requires Highest(d, highest)
    ensures |p| != 9 ==> Highest(d + {p}, highest)
    ensures |p| == 9 ==> var key := Parent(p); var most := if key in highest then highest[key] else Number(p);
                         Highest(d + {p}, highest[key := if most > Number(p) then most else Number(p)])
  {
    forall key | key in highest ensures exists q :: UploadIn(d + {p}, q, key) && Number(q) == highest[key] {
      var q :| UploadIn(d, q, key) && Number(q) == highest[key];
      assert UploadIn(d + {p}, q, key);
    }
    if |p| == 9 {
      assert UploadIn(d + {p}, p, Parent(p));
    }
  }

  ghost predicate OnlyBelow(d: map<Path, string>, data: map<Path, string>) {
    forall q :: q in data ==> Below(d, q)
  }

  // The uploads in the tree are those of d whose numbers are already used.
  ghost predicate InUse(d: map<Path, string>, data: map<Path, string>, made: map<Path, nat>) {
    && (forall q :: q in data ==> |q| <= 9)
    && (forall q :: q in data && |q| == 9 ==> q in d)
    && (forall p :: p in d && |p| == 9 ==> (p in data <==> Number(p) < MadeAt(made, Parent(p))))
  }

  lemma SameNumberSameNode(d: map<Path, string>, p: Path, node: Path)
    requires Importable(d) && p in d && |p| == 9
    requires |node| == 9 && node[8] == SequenceName(Number(node)) && Parent(p) == Parent(node) && Number(p) == Number(node)
    ensures p == node
  {
    assert IsRecord(p);
    assert p == Parent(p) + [p[8]] && node == Parent(node) + [node[8]];
  }

  // What a create adds: nothing but ancestors of the node and the node itself.
  ghost predicate Grows(was: map<Path, string>, data: map<Path, string>, node: Path) {
    && (forall q :: q in was ==> q in data && data[q] == was[q])
    && (forall q :: q in data && q !in was ==> q != [] && q <= node)
  }

  // Of the counters of paths at least len long, key's alone has moved, by n.
  ghost predicate Counted(was: map<Path, nat>, made: map<Path, nat>, len: nat, key: Path, n: nat) {
    forall q :: |q| >= len ==> MadeAt(made, q) == MadeAt(was, q) + if q == key then n else 0
  }

  lemma InUseGrows(d: map<Path, string>, was: map<Path, string>, wasMade: map<Path, nat>,
                   data: map<Path, string>, made: map<Path, nat>, node: Path)
    requires Importable(d) && InUse(d, was, wasMade) && Grows(was, data, node) && node in data
    requires |node| == 9 && node[8] == SequenceName(Number(node)) && Number(node) == MadeAt(wasMade, Parent(node))
    requires Counted(wasMade, made, 8, Parent(node), 1)
    ensures InUse(d, if node in d then data else data - {node}, made)
  {
    forall q | q in data && q !in was && |q| == 9 ensures q == node {
      assert q == node[..9] == node;
    }
    forall p | p in d && |p| == 9 ensures p in data <==> Number(p) < MadeAt(made, Parent(p)) {
      if Parent(p) == Parent(node) && Number(p) == Number(node) {
        SameNumberSameNode(d, p, node);
      }
    }
  }

  lemma NumberIsFree(d: map<Path, string>, was: map<Path, string>, wasMade: map<Path, nat>, node: Path)
    requires InUse(d, was, wasMade) && |node| == 9 && Number(node) == MadeAt(wasMade, Parent(node))
    ensures node !in was
  {
  }

  lemma NoChildren(d: map<Path, string>, was: map<Path, string>, wasMade: map<Path, nat>, data: map<Path, string>, node: Path)
    requires InUse(d, was, wasMade) && Grows(was, data, node) && |node| == 9
    ensures forall q :: q in data && |q| > 1 ==> Parent(q) != node
  {
  }

  lemma BelowGrows(d: map<Path, string>, was: map<Path, string>, data: map<Path, string>, p: Path, node: Path)
    requires OnlyBelow(d, was) && Grows(was, data, node) && node != [] && p in d && |p| == |node| && Parent(p) == Parent(node)
    ensures OnlyBelow(d, if node in d then data else data - {node})
  {
    forall q | q in data && q != node ensures Below(d, q) {
      if q in was {
        assert Below(d, q);
      } else {
        assert q == node[..|q|] == Parent(node)[..|q|] == p[..|q|];
      }
    }
    if node in d {
      assert Below(d, node);
    }
  }

  lemma SameNodes(d: map<Path, string>, was: map<Path, string>, data: map<Path, string>, made: map<Path, nat>)
    requires was.Keys == data.Keys
    ensures OnlyBelow(d, was) ==> OnlyBelow(d, data)
    ensures InUse(d, was, made) ==> InUse(d, data, made)
  {
    hide Below;
    assert forall q :: q in was <==> q in data;
  }

  // Of the parents in highest, those in done have used as many numbers as they need.
  ghost predicate ReservedFor(highest: map<Path, nat>, made: map<Path, nat>, done: set<Path>) {
    forall key :: key in highest ==> MadeAt(made, key) == if key in done then highest[key] else 0
  }

  lemma SomeUpload(d: set<Path>, highest: map<Path, nat>, key: Path) returns (p: Path)
    requires Highest(d, highest) && key in highest
    ensures |key| == 8 && UploadIn(d, p, key)
  {
    p :| UploadIn(d, p, key) && Number(p) == highest[key];
  }

  lemma ReservedMore(d: set<Path>, highest: map<Path, nat>, was: map<Path, nat>, made: map<Path, nat>, done: set<Path>, key: Path)
    requires Highest(d, highest) && ReservedFor(highest, was, done) && key in highest && key !in done
    requires Counted(was, made, 8, key, highest[key])
    ensures ReservedFor(highest, made, done + {key})
  {
  }

  lemma AllReserved(highest: map<Path, nat>, made: map<Path, nat>)
    requires ReservedFor(highest, made, highest.Keys)
    ensures UpToHighest(highest, made)
  {
  }

  // From the third loop on: the highest number of a parent is used once its upload is in.
  ghost predicate UpToHighest(highest: map<Path, nat>, made: map<Path, nat>) {
    forall key :: key in highest ==> MadeAt(made, key) == highest[key] || MadeAt(made, key) == highest[key] + 1
  }

  lemma FillingGrows(d: map<Path, string>, highest: map<Path, nat>, was: map<Path, string>, wasMade: map<Path, nat>,
                     data: map<Path, string>, made: map<Path, nat>, p: Path)
    requires Importable(d) && p in d && p != [] && p !in was && p in data && Highest(d.Keys, highest)
    requires InUse(d, was, wasMade) && UpToHighest(highest, wasMade) && Grows(was, data, p)
    requires Counted(wasMade, made, |p| - 1, Parent(p), 1)
    ensures InUse(d, data, made) && UpToHighest(highest, made)
  {
    assert |p| <= 9 && (|p| == 9 ==> p[8] == SequenceName(Number(p))) by {
      assert IsRecord(p);
    }
    if |p| == 9 {
      assert Number(p) == highest[Parent(p)] == MadeAt(wasMade, Parent(p));
      InUseGrows(d, was, wasMade, data, made, p);
      hide InUse;
      hide Importable;
    } else {
      hide Importable;
      ShortGrows(d, was, wasMade, data, made, p);
      assert forall key :: key in highest ==> |key| == 8 && MadeAt(made, key) == MadeAt(wasMade, key);
      hide InUse;
    }
  }

  // Adding a build, a pause flag or what is above them uses no number.
  lemma ShortGrows(d: map<Path, string>, was: map<Path, string>, wasMade: map<Path, nat>,
                   data: map<Path, string>, made: map<Path, nat>, p: Path)
    requires p != [] && |p| < 9 && InUse(d, was, wasMade) && Grows(was, data, p)
    requires Counted(wasMade, made, |p| - 1, Parent(p), 1)
    ensures forall q :: |q| == 8 ==> MadeAt(made, q) == MadeAt(wasMade, q)
    ensures InUse(d, data, made)
  {
    forall q | q in data && |q| == 9 ensures q in was {
    }
  }

  // The number of the next sequence node below any upload parent is one more than the
  // highest imported one.
  ghost predicate NextIsAbove(d: map<Path, string>, made: map<Path, nat>) {
    forall p :: p in d && |p| == 9 ==>
      && Number(p) < MadeAt(made, Parent(p))
      && exists u :: UploadIn(d.Keys, u, Parent(p)) && MadeAt(made, Parent(p)) == Number(u) + 1
  }

  lemma AllFilled(d: map<Path, string>, highest: map<Path, nat>, data: map<Path, string>, made: map<Path, nat>)
    requires InUse(d, data, made) && UpToHighest(highest, made) && Highest(d.Keys, highest)
    requires forall q :: q in d ==> q in data
    ensures NextIsAbove(d, made)
  {
    forall p | p in d && |p| == 9
      ensures Number(p) < MadeAt(made, Parent(p))
      ensures exists u :: UploadIn(d.Keys, u, Parent(p)) && MadeAt(made, Parent(p)) == Number(u) + 1
    {
      var u :| UploadIn(d.Keys, u, Parent(p)) && Number(u) == highest[Parent(p)];
      assert u in data;
    }
  }

  // ---------------------------------------------------------------- listing the tree

  function BuildsPath(image: string): Path { ["nodepool", "images", image, "builds"] }

  function ProvidersPath(image: string, build: string): Path { BuildsPath(image) + [build, "providers"] }

  function UploadsPath(image: string, build: string, provider: string): Path {
    ProvidersPath(image, build) + [provider, "images"]
  }

  function Children(data: map<Path, string>, p: Path): set<string> {
    set q | q in data && |q| == |p| + 1 && p <= q :: q[|p|]
  }

  // ret is the part of the backup of data below path, through the children in names.
  ghost predicate Lists(ret: map<Path, string>, data: map<Path, string>, path: Path, names: set<string>) {
    && (forall p :: p in ret <==> p in Backup(data) && path < p && p[|path|] in names)
    && (forall p :: p in ret ==> ret[p] == Backup(data)[p])
  }

  lemma ChildIsThere(data: map<Path, string>, p: Path, name: string)
    requires name in Children(data, p)
    ensures p + [name] in data
  {
    var q :| q in data && |q| == |p| + 1 && p <= q && q[|p|] == name;
    assert q == p + [name];
  }

  lemma NoMoreChildren(data: map<Path, string>, path: Path, p: Path)
    requires Tree(data) && p in data && path < p
    ensures p[|path|] in Children(data, path)
  {
    TreeHasPrefix(data, p, |path| + 1);
    assert path <= p[..|path| + 1];
  }

  lemma UploadBelow(image: string, build: string, provider: string, name: string, q: Path)
    requires build != "lock"
    ensures var path := UploadsPath(image, build, provider); var p := path + [name];
            && (IsRecord(p) <==> name != "lock") && !IsPause(p)
            && (IsRecord(q) && path < q && q[8] == name ==> q == p)
  {
    var path := UploadsPath(image, build, provider);
    if IsRecord(q) && path < q && q[8] == name {
      assert q == q[..8] + [q[8]];
    }
  }

  lemma ListUpload(ret: map<Path, string>, data: map<Path, string>, image: string, build: string, provider: string,
                   names: set<string>, name: string)
    requires build != "lock"
    requires var path := UploadsPath(image, build, provider); path + [name] in data && Lists(ret, data, path, names)
    ensures var path := UploadsPath(image, build, provider); var p := path + [name];
            Lists(if name == "lock" then ret else ret[p := data[p]], data, path, names + {name})
  {
    var path := UploadsPath(image, build, provider);
    var p := path + [name];
    UploadBelow(image, build, provider, name, p);
    hide IsRecord;
    hide IsPause;
    hide UploadsPath;
    forall q | q in Backup(data) && path < q && q[|path|] == name ensures name != "lock" && q == p {
      UploadBelow(image, build, provider, name, q);
    }
    assert |path| == 8;
    assert path < p && p[8] == name;
  }

  // part is what the backup of data holds below one child of path.
  ghost predicate IsPart(part: map<Path, string>, data: map<Path, string>, path: Path, name: string) {
    && (forall q :: q in part <==> q in Backup(data) && path < q && q[|path|] == name)
    && (forall q :: q in part ==> part[q] == Backup(data)[q])
  }

  lemma ListsJoin(ret: map<Path, string>, part: map<Path, string>, data: map<Path, string>, path: Path, names: set<string>, name: string)
    requires Lists(ret, data, path, names) && IsPart(part, data, path, name)
    ensures Lists(ret + part, data, path, names + {name})
  {
    hide Backup;
  }

  lemma AddThenJoin(ret: map<Path, string>, p: Path, value: string, part: map<Path, string>)
    ensures ret[p := value] + part == ret + (map[p := value] + part)
  {
  }

  lemma ProviderPaths(image: string, build: string, provider: string, q: Path)
    requires IsRecord(q)
    ensures ProvidersPath(image, build) < q && q[6] == provider <==> UploadsPath(image, build, provider) < q
  {
    var under := UploadsPath(image, build, provider);
    if ProvidersPath(image, build) < q && q[6] == provider {
      assert q[..8] == under;
    }
    if under < q {
      assert q[..6] == under[..6] && q[6] == under[6];
    }
  }

  lemma ProviderIsPart(uploads: map<Path, string>, data: map<Path, string>, image: string, build: string, provider: string)
    requires Tree(data)
    requires var path := UploadsPath(image, build, provider); Lists(uploads, data, path, Children(data, path))
    ensures IsPart(uploads, data, ProvidersPath(image, build), provider)
  {
    hide IsRecord;
    hide UploadsPath;
    var under := UploadsPath(image, build, provider);
    assert |ProvidersPath(image, build)| == 6;
    forall q | q in Backup(data)
      ensures q in uploads <==> ProvidersPath(image, build) < q && q[6] == provider
    {
      ProviderPaths(image, build, provider, q);
      if under < q {
        NoMoreChildren(data, under, q);
      }
    }
    hide ProvidersPath;
  }

  lemma BuildPaths(image: string, build: string, q: Path)
    requires IsRecord(q) && build != "lock"
    ensures BuildsPath(image) < q && q[4] == build <==> q == BuildsPath(image) + [build] || ProvidersPath(image, build) < q
  {
    var path, under := BuildsPath(image), ProvidersPath(image, build);
    if path < q && q[4] == build {
      assert q[..5] == path + [build];
      if |q| == 5 {
        assert q[..5] == q;
      } else {
        assert q[..6] == under;
      }
    }
    if under < q {
      assert q[..4] == under[..4] && q[4] == under[4];
    }
  }

  lemma BuildMember(uploads: map<Path, string>, data: map<Path, string>, image: string, build: string, q: Path)
    requires Tree(data) && build != "lock" && BuildsPath(image) + [build] in data
    requires var path := ProvidersPath(image, build); Lists(uploads, data, path, Children(data, path))
    ensures q == BuildsPath(image) + [build] || q in uploads <==>
              q in Backup(data) && BuildsPath(image) < q && q[4] == build
    ensures q in uploads ==> q != BuildsPath(image) + [build] && uploads[q] == Backup(data)[q]
  {
    var under := ProvidersPath(image, build);
    assert IsBuild(BuildsPath(image) + [build]) && |under| == 6;
    if q in Backup(data) {
      BuildPaths(image, build, q);
      if under < q {
        NoMoreChildren(data, under, q);
      }
    }
  }

  lemma BuildIsPart(uploads: map<Path, string>, data: map<Path, string>, image: string, build: string)
    requires Tree(data) && build != "lock" && BuildsPath(image) + [build] in data
    requires var path := ProvidersPath(image, build); Lists(uploads, data, path, Children(data, path))
    ensures var p := BuildsPath(image) + [build]; IsPart(map[p := data[p]] + uploads, data, BuildsPath(image), build)
  {
    var path := BuildsPath(image);
    var p := path + [build];
    var part := map[p := data[p]] + uploads;
    assert |path| == 4 && p in Backup(data) && Backup(data)[p] == data[p] by {
      assert IsBuild(p) && !IsPause(p);
    }
    hide Lists;
    hide Tree;
    hide Backup;
    hide BuildsPath;
    forall q
      ensures q in part <==> q in Backup(data) && path < q && q[|path|] == build
      ensures q in part ==> part[q] == Backup(data)[q]
    {
      BuildMember(uploads, data, image, build, q);
    }
  }

  const ROOT: Path := ["nodepool", "images"]

  lemma ImagePaths(image: string, q: Path)
    requires IsRecord(q)
    ensures ROOT < q && q[2] == image <==> q == ROOT + [image, "pause"] || (BuildsPath(image) < q && q[4] != "lock")
  {
    var pause, under := ROOT + [image, "pause"], BuildsPath(image);
    if ROOT < q && q[2] == image {
      if |q| == 4 {
        assert q == pause;
      } else {
        assert q[..4] == under;
      }
    }
    if under < q {
      assert q[..2] == under[..2] && q[2] == under[2];
    }
  }

  function PausePart(data: map<Path, string>, image: string): map<Path, string> {
    var pause := ROOT + [image, "pause"];
    if pause in data then map[pause := ""] else map[]
  }

  lemma AddPause(ret: map<Path, string>, data: map<Path, string>, image: string, builds: map<Path, string>)
    ensures var pause := ROOT + [image, "pause"];
            (if pause in data then ret[pause := ""] else ret) + builds == ret + (PausePart(data, image) + builds)
  {
    var none: map<Path, string> := map[];
    assert none + builds == builds;
  }

  lemma ImageMember(builds: map<Path, string>, data: map<Path, string>, image: string, q: Path)
    requires Tree(data)
    requires var path := BuildsPath(image); Lists(builds, data, path, Children(data, path) - {"lock"})
    ensures (q == ROOT + [image, "pause"] && q in data) || q in builds <==>
              q in Backup(data) && ROOT < q && q[2] == image
    ensures q in builds ==> q != ROOT + [image, "pause"] && builds[q] == Backup(data)[q]
  {
    var under := BuildsPath(image);
    assert IsPause(ROOT + [image, "pause"]) && |under| == 4;
    if q in Backup(data) {
      ImagePaths(image, q);
      if under < q {
        NoMoreChildren(data, under, q);
      }
    }
  }

  lemma ImageIsPart(builds: map<Path, string>, data: map<Path, string>, image: string)
    requires Tree(data)
    requires var path := BuildsPath(image); Lists(builds, data, path, Children(data, path) - {"lock"})
    ensures IsPart(PausePart(data, image) + builds, data, ROOT, image)
  {
    var pause := ROOT + [image, "pause"];
    var part := PausePart(data, image) + builds;
    assert pause in data ==> pause in Backup(data) && Backup(data)[pause] == "" by {
      assert IsPause(pause);
    }
    hide Lists;
    hide Tree;
    hide Backup;
    hide BuildsPath;
    forall q
      ensures q in part <==> q in Backup(data) && ROOT < q && q[|ROOT|] == image
      ensures q in part ==> part[q] == Backup(data)[q]
    {
      ImageMember(builds, data, image, q);
    }
  }

  lemma ListsAll(ret: map<Path, string>, data: map<Path, string>)
    requires Tree(data) && Lists(ret, data, ROOT, Children(data, ROOT))
    ensures ret == Backup(data)
  {
    forall p | p in Backup(data) ensures p in ret {
      assert p[..2] == ROOT;
      NoMoreChildren(data, ROOT, p);
    }
  }

  // ---------------------------------------------------------------- ZooKeeper

  function MadeAt(made: map<Path, nat>, p: Path): nat { if p in made then made[p] else 0 }

  class ZooKeeper {
    var data: map<Path, string>
    var made: map<Path, nat>

    constructor ()
      ensures data == map[] && made == map[]
    {
      data := map[];
      made := map[];
    }

    // A create whose parent exists; false for NodeExistsError.
    method CreateChild(p: Path, value: string) returns (ok: bool)
      requires Tree(data) && p != [] && (|p| > 1 ==> Parent(p) in data)
      modifies this
      ensures Tree(data) && ok == (p !in old(data))
      ensures data == if ok then old(data)[p := value] else old(data)
      ensures made == if ok then old(made)[Parent(p) := MadeAt(old(made), Parent(p)) + 1] else old(made)
    {
      ok := p !in data;
      if ok {
        data := data[p := value];
        made := made[Parent(p) := MadeAt(made, Parent(p)) + 1];
      }
    }

    // ensure_path: whatever is missing of p is created, with empty data.
    method EnsurePath(p: Path)
      requires Tree(data)
      modifies this
      ensures Tree(data) && (p != [] ==> p in data)
      ensures Grows(old(data), data, p) && Counted(old(made), made, |p|, [], 0)
      decreases |p|
    {
      if p != [] && p !in data {
        EnsurePath(Parent(p));
        var _ := CreateChild(p, "");
      }
    }

    // create(path, value, makepath=True).
    method Create(p: Path, value: string) returns (ok: bool)
      requires Tree(data) && p != []
      modifies this
      ensures Tree(data) && ok == (p !in old(data))
      ensures p in data && (ok ==> data[p] == value)
      ensures Grows(old(data), data, p) && Counted(old(made), made, |p| - 1, Parent(p), if ok then 1 else 0)
    {
      if p !in data {
        EnsurePath(Parent(p));
      }
      ok := CreateChild(p, value);
    }

    // create(parent + '/', makepath=True, sequence=True).
    method CreateSequence(parent: Path) returns (p: Path, ok: bool)
      requires Tree(data) && parent != []
      modifies this
      ensures Tree(data) && p == parent + [SequenceName(MadeAt(old(made), parent))] && ok == (p !in old(data))
      ensures p in data
      ensures Grows(old(data), data, p) && Counted(old(made), made, |parent|, parent, if ok then 1 else 0)
    {
      EnsurePath(parent);
      p := parent + [SequenceName(MadeAt(made, parent))];
      assert Parent(p) == parent;
      ok := CreateChild(p, "");
    }

    // delete of a node without children.
    method Delete(p: Path)
      requires Tree(data) && p in data
      requires forall q :: q in data && |q| > 1 ==> Parent(q) != p
      modifies this`data
      ensures Tree(data) && data == old(data) - {p}
    {
      data := data - {p};
    }

    // ---------------------------------------------------------------- import

    // Where uploads of d live, with the highest number below each.
    method HighestNumbers(d: map<Path, string>) returns (highest: map<Path, nat>)
      requires Importable(d)
      ensures Highest(d.Keys, highest)
    {
      highest := map[];
      var done: set<Path> := {};
      assert Highest(done, highest);
      hide Highest;
      while done != d.Keys
        invariant done <= d.Keys && Highest(done, highest)
        decreases d.Keys - done
      {
        var p :| p in d && p !in done;
        HighestGrows(done, highest, p);
        done := done + {p};
        // An absolute path splits into an empty part and its components.
        if |p| + 1 == 10 {
          var key := p[..8];
          var num := ParseInt(p[8]);
          var most := if key in highest then highest[key] else num;
          highest := highest[key := if most > num then most else num];
        }
      }
    }

    // One reservation: the next number below key is used up, and the node stays only if
    // it is a record to import.  No such create collides.
    method ReserveNumber(d: map<Path, string>, key: Path, ghost p: Path)
      requires Importable(d) && Tree(data) && |key| == 8 && OnlyBelow(d, data) && InUse(d, data, made)
      requires UploadIn(d.Keys, p, key)
      modifies this
      ensures Tree(data) && OnlyBelow(d, data) && InUse(d, data, made) && Counted(old(made), made, 8, key, 1)
    {
      hide OnlyBelow;
      hide InUse;
      hide Counted;
      hide Grows;
      hide Importable;
      ghost var x, was, wasMade := MadeAt(made, key), data, made;
      ParsePadded(x, 10);
      var node, ok := CreateSequence(key);
      assert Parent(node) == key && Number(node) == x;
      NumberIsFree(d, was, wasMade, node);
      assert ok;
      InUseGrows(d, was, wasMade, data, made, node);
      BelowGrows(d, was, data, p, node);
      if node !in d {
        NoChildren(d, was, wasMade, data, node);
        Delete(node);
      }
    }

    // The second loop of the import, for one parent.
    method ReserveNumbers(d: map<Path, string>, key: Path, num: nat, ghost p: Path)
      requires Importable(d) && Tree(data) && |key| == 8 && OnlyBelow(d, data) && InUse(d, data, made)
      requires UploadIn(d.Keys, p, key)
      modifies this
      ensures Tree(data) && OnlyBelow(d, data) && InUse(d, data, made) && Counted(old(made), made, 8, key, num)
    {
      hide OnlyBelow;
      hide InUse;
      hide Importable;
      var x := 0;
      while x < num
        invariant x <= num && Tree(data) && OnlyBelow(d, data) && InUse(d, data, made)
        invariant Counted(old(made), made, 8, key, x)
      {
        ReserveNumber(d, key, p);
        x := x + 1;
      }
    }

    // The second loop.
    method ReserveAll(d: map<Path, string>, highest: map<Path, nat>)
      requires Importable(d) && Highest(d.Keys, highest) && data == map[] && made == map[]
      modifies this
      ensures Tree(data) && OnlyBelow(d, data) && InUse(d, data, made) && UpToHighest(highest, made)
    {
      var done: set<Path> := {};
      assert OnlyBelow(d, data) && InUse(d, data, made) && ReservedFor(highest, made, done);
      hide OnlyBelow;
      hide InUse;
      hide Importable;
      hide Tree;
      hide Highest;
      hide ReservedFor;
      while done != highest.Keys
        invariant done <= highest.Keys
        invariant Tree(data) && OnlyBelow(d, data) && InUse(d, data, made) && ReservedFor(highest, made, done)
        decreases highest.Keys - done
      {
        var key :| key in highest && key !in done;
        ghost var p := SomeUpload(d.Keys, highest, key);
        ghost var was := made;
        ReserveNumbers(d, key, highest[key], p);
        ReservedMore(d.Keys, highest, was, made, done, key);
        done := done + {key};
      }
      AllReserved(highest, made);
    }

    // The third loop's body.
    method Import(d: map<Path, string>, highest: map<Path, nat>, p: Path)
      requires Importable(d) && Highest(d.Keys, highest) && p in d && p != []
      requires Tree(data) && OnlyBelow(d, data) && InUse(d, data, made) && UpToHighest(highest, made)
      modifies this
      ensures Tree(data) && OnlyBelow(d, data) && InUse(d, data, made) && UpToHighest(highest, made)
      ensures p in data && data[p] == d[p]
      ensures forall q :: q in old(data) && q != p ==> q in data && data[q] == old(data)[q]
    {
      hide OnlyBelow;
      hide InUse;
      hide UpToHighest;
      hide Highest;
      hide Importable;
      ghost var was, wasMade := data, made;
      if p in data {
        data := data[p := d[p]];
        SameNodes(d, was, data, made);
      } else {
        hide Counted;
        var ok := Create(p, d[p]);
        assert ok;
        FillingGrows(d, highest, was, wasMade, data, made, p);
        BelowGrows(d, was, data, p, p);
      }
    }

    // The third loop.
    method ImportAll(d: map<Path, string>, highest: map<Path, nat>)
      requires Importable(d) && Highest(d.Keys, highest)
      requires Tree(data) && OnlyBelow(d, data) && InUse(d, data, made) && UpToHighest(highest, made)
      modifies this
      ensures Tree(data) && OnlyBelow(d, data) && InUse(d, data, made) && UpToHighest(highest, made)
      ensures forall p :: p in d ==> p in data && data[p] == d[p]
    {
      hide OnlyBelow;
      hide InUse;
      hide UpToHighest;
      hide Highest;
      assert forall p :: p in d ==> IsRecord(p) && p != [];
      hide Importable;
      hide IsRecord;
      var done: set<Path> := {};
      while done != d.Keys
        invariant done <= d.Keys
        invariant Tree(data) && OnlyBelow(d, data) && InUse(d, data, made) && UpToHighest(highest, made)
        invariant forall p :: p in done ==> p in data && data[p] == d[p]
        decreases d.Keys - done
      {
        var p :| p in d && p !in done;
        Import(d, highest, p);
        done := done + {p};
      }
    }

    // importImageData on an empty store: every record is there, nothing else but the
    // nodes above records, and every number below an upload parent is used up to and
    // including the highest imported one, which the next sequence node will exceed.
    method ImportImageData(d: map<Path, string>)
      requires Importable(d) && data == map[] && made == map[]
      modifies this
      ensures Tree(data) && OnlyBelow(d, data)
      ensures forall p :: p in d ==> p in data && data[p] == d[p]
      ensures NextIsAbove(d, made)
      ensures Complete(d) ==> Backup(data) == d
    {
      hide OnlyBelow;
      hide InUse;
      hide UpToHighest;
      hide Highest;
      hide Importable;
      hide NextIsAbove;
      hide Complete;
      hide Backup;
      hide Tree;
      var highest := HighestNumbers(d);
      ReserveAll(d, highest);
      ImportAll(d, highest);
      AllFilled(d, highest, data, made);
      if Complete(d) {
        BackupOfRestored(d, data);
      }
    }

    // ---------------------------------------------------------------- export

    method GetChildren(p: Path) returns (names: set<string>)
      ensures names == Children(data, p)
    {
      names := Children(data, p);
    }

    method ExportUploads(image: string, build: string, provider: string) returns (ret: map<Path, string>)
      requires build != "lock"
      ensures var path := UploadsPath(image, build, provider); Lists(ret, data, path, Children(data, path))
    {
      ret := map[];
      var path := UploadsPath(image, build, provider);
      var uploads := GetChildren(path);
      var done: set<string> := {};
      assert Lists(ret, data, path, done);
      hide Lists;
      while done != uploads
        invariant done <= uploads && Lists(ret, data, path, done)
        decreases uploads - done
      {
        var upload :| upload in uploads && upload !in done;
        ChildIsThere(data, path, upload);
        ListUpload(ret, data, image, build, provider, done, upload);
        done := done + {upload};
        if upload != "lock" {
          ret := ret[path + [upload] := data[path + [upload]]];
        }
      }
    }

    method ExportProviders(image: string, build: string) returns (ret: map<Path, string>)
      requires Tree(data) && build != "lock"
      ensures var path := ProvidersPath(image, build); Lists(ret, data, path, Children(data, path))
    {
      ret := map[];
      var path := ProvidersPath(image, build);
      var providers := GetChildren(path);
      var done: set<string> := {};
      assert Lists(ret, data, path, done);
      hide Lists;
      while done != providers
        invariant done <= providers && Lists(ret, data, path, done)
        decreases providers - done
      {
        var provider :| provider in providers && provider !in done;
        var uploads := ExportUploads(image, build, provider);
        ProviderIsPart(uploads, data, image, build, provider);
        ListsJoin(ret, uploads, data, path, done, provider);
        ret := ret + uploads;
        done := done + {provider};
      }
    }

    method ExportBuilds(image: string) returns (ret: map<Path, string>)
      requires Tree(data)
      ensures var path := BuildsPath(image); Lists(ret, data, path, Children(data, path) - {"lock"})
    {
      ret := map[];
      var path := BuildsPath(image);
      var children := GetChildren(path);
      var builds := children - {"lock"};
      var done: set<string> := {};
      assert Lists(ret, data, path, done);
      hide Lists;
      hide Tree;
      hide BuildsPath;
      hide ProvidersPath;
      while done != builds
        invariant done <= builds && Lists(ret, data, path, done)
        decreases builds - done
      {
        var build :| build in builds && build !in done;
        ChildIsThere(data, path, build);
        var uploads := ExportProviders(image, build);
        BuildIsPart(uploads, data, image, build);
        ListsJoin(ret, map[path + [build] := data[path + [build]]] + uploads, data, path, done, build);
        AddThenJoin(ret, path + [build], data[path + [build]], uploads);
        ret := ret[path + [build] := data[path + [build]]];
        ret := ret + uploads;
        done := done + {build};
      }
    }

    // exportImageData.
    method ExportImageData() returns (ret: map<Path, string>)
      requires Tree(data)
      ensures ret == Backup(data)
    {
      ret := map[];
      var images := GetChildren(ROOT);
      var done: set<string> := {};
      assert Lists(ret, data, ROOT, done);
      hide Lists;
      hide Tree;
      hide Backup;
      hide BuildsPath;
      hide PausePart;
      while done != images
        invariant done <= images && Lists(ret, data, ROOT, done)
        decreases images - done
      {
        var image :| image in images && image !in done;
        var pause := ROOT + [image, "pause"];
        var builds := ExportBuilds(image);
        ImageIsPart(builds, data, image);
        ListsJoin(ret, PausePart(data, image) + builds, data, ROOT, done, image);
        AddPause(ret, data, image, builds);
        if pause in data {
          ret := ret[pause := ""];
        }
        ret := ret + builds;
        done := done + {image};
      }
      ListsAll(ret, data);
    }

    // A backup restored into an empty store and taken again is the same backup, and the
    // next upload anywhere is numbered above the restored ones.
    method Restore(backup: ZooKeeper) returns (again: map<Path, string>)
      requires Tree(backup.data) && Numbered(backup.data) && backup != this && data == map[] && made == map[]
      modifies this
      ensures again == Backup(backup.data) && Backup(data) == again
      ensures OnlyBelow(again, data) && NextIsAbove(again, made)
    {
      var d := backup.ExportImageData();
      BackupIsImportable(backup.data);
      ImportImageData(d);
      again := ExportImageData();
    }
  }
}
