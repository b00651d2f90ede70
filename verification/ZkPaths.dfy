/**
 The znode paths: the builders (_nodePath, _imageUploadPath, ...) and the parsers the
 caches use as parsePath (nodepool/zk/zookeeper.py).
 */
module ZkPaths {
  import opened Wrappers
  import opened TreeCache
  import Runs = TreeCacheRuns

  const IMAGE_ROOT := "/nodepool/images"
  const REQUEST_ROOT := "/nodepool/requests"
  const REQUEST_LOCK_ROOT := "/nodepool/requests-lock"

  predicate NoSlash(s: string) { forall i :: 0 <= i < |s| ==> s[i] != '/' }

  predicate AllNoSlash(parts: seq<string>) { forall i :: 0 <= i < |parts| ==> NoSlash(parts[i]) }

  // str.split('/')
  function Split(s: string): (parts: seq<string>)
    ensures parts != [] && AllNoSlash(parts)
  {
    if s == "" then [""]
    else
      var rest := Split(s[1..]);
      if s[0] == '/' then [""] + rest else [[s[0]] + rest[0]] + rest[1..]
  }

  // '/'.join(parts)
  function Join(parts: seq<string>): string
    requires parts != []
  {
    if |parts| == 1 then parts[0] else parts[0] + "/" + Join(parts[1..])
  }

  lemma {:induction false} JoinSplit(s: string)
    ensures Join(Split(s)) == s
  {
    if s != "" {
      JoinSplit(s[1..]);
      var rest := Split(s[1..]);
      if s[0] == '/' {
        assert Split(s)[1..] == rest;
      } else {
        assert Split(s)[1..] == rest[1..];
        assert s == [s[0]] + s[1..];
      }
    }
  }

  lemma {:induction false} SplitJoin(parts: seq<string>)
    requires parts != [] && AllNoSlash(parts)
    ensures Split(Join(parts)) == parts
    decreases |parts|, |parts[0]|
  {
    var s := Join(parts);
    if parts[0] != "" {
      var shorter := [parts[0][1..]] + parts[1..];
      assert s[1..] == Join(shorter) by {
        assert shorter[1..] == parts[1..];
      }
      SplitJoin(shorter);
      assert s[0] == parts[0][0] && parts[0] == [s[0]] + shorter[0];
      assert parts == [[s[0]] + shorter[0]] + shorter[1..];
    } else if |parts| > 1 {
      assert s[1..] == Join(parts[1..]);
      SplitJoin(parts[1..]);
      assert parts == [""] + parts[1..];
    }
  }

  // The parts a parser looks at: those of the path with the root's length cut off.
  function Below(root: string, path: string): (r: Option<seq<string>>)
    ensures r.Some? ==> r.value != [] && AllNoSlash(r.value)
  {
    if !(root <= path) then None else Some(Split(path[|root|..]))
  }

  // _parseNodePath, _parseRequestPath and _parseImagePath
  function ParseLeaf(root: string, path: string): Option<Key> {
    var parts := Below(root, path);
    if parts.None? || |parts.value| != 2 || parts.value[1] == "lock" then None
    else Some([parts.value[1]])
  }

  // _parseImageBuildPath
  function ParseBuild(path: string): Option<Key> {
    var parts := Below(IMAGE_ROOT, path);
    if parts.None? || |parts.value| != 4 || parts.value[3] == "lock" then None
    else Some([parts.value[1], parts.value[3]])
  }

  // _parseImageUploadPath
  function ParseUpload(path: string): Option<Key> {
    var parts := Below(IMAGE_ROOT, path);
    if parts.None? || |parts.value| != 8 || parts.value[7] == "lock" then None
    else Some([parts.value[1], parts.value[3], parts.value[5], parts.value[7]])
  }

  // ImageCache.parsePath
  function ParseImageTree(path: string): Option<Key> {
    if ParseUpload(path).Some? then ParseUpload(path)
    else if ParseBuild(path).Some? then ParseBuild(path)
    else ParseLeaf(IMAGE_ROOT, path)
  }

  function LeafPath(root: string, id: string): string { root + "/" + id }

  function UploadPath(image: string, build: string, provider: string, upload: string): string {
    IMAGE_ROOT + Join(["", image, "builds", build, "providers", provider, "images", upload])
  }

  predicate Under(root: string, path: string) { root + "/" <= path && |path| > |root| + 1 }

  lemma BelowJoined(root: string, parts: seq<string>)
    requires parts != [] && AllNoSlash(parts)
    ensures Below(root, root + Join(parts)) == Some(parts)
  {
    assert (root + Join(parts))[|root|..] == Join(parts);
    SplitJoin(parts);
  }

  // Exactly which paths parse to a leaf key: after the root comes any text without a
  // slash, then the slash and the id.  The text is the parsers' blind spot.
  lemma ParseLeafIff(root: string, path: string, id: string)
    ensures ParseLeaf(root, path) == Some([id])
            <==> exists junk :: path == root + junk + "/" + id && NoSlash(junk) && NoSlash(id) && id != "lock"
  {
    if ParseLeaf(root, path) == Some([id]) {
      ParsedLeaf(root, path, id);
    }
    forall junk | path == root + junk + "/" + id && NoSlash(junk) && NoSlash(id) && id != "lock"
      ensures ParseLeaf(root, path) == Some([id])
    {
      LeafParses(root, junk, id);
    }
  }

  lemma ParsedLeaf(root: string, path: string, id: string)
    requires ParseLeaf(root, path) == Some([id])
    ensures exists junk :: path == root + junk + "/" + id && NoSlash(junk) && NoSlash(id) && id != "lock"
  {
    var parts := Below(root, path).value;
    JoinSplit(path[|root|..]);
    var junk := parts[0];
    assert parts == [junk, id] && parts[1..] == [id];
    assert path[|root|..] == junk + "/" + id;
    assert path == root + path[|root|..];
    assert path == root + junk + "/" + id;
  }

  lemma LeafParses(root: string, junk: string, id: string)
    requires NoSlash(junk) && NoSlash(id) && id != "lock"
    ensures ParseLeaf(root, root + junk + "/" + id) == Some([id])
  {
    var parts := [junk, id];
    assert parts[1..] == [id];
    assert Join(parts) == junk + "/" + id;
    assert root + Join(parts) == root + junk + "/" + id;
    BelowJoined(root, parts);
  }

  // Below its own root, a leaf parser inverts the path builder exactly.
  lemma ParseLeafInvertsBuilder(root: string, path: string, id: string)
    requires Under(root, path)
    ensures ParseLeaf(root, path) == Some([id]) <==> path == LeafPath(root, id) && NoSlash(id) && id != "lock"
  {
    ParseLeafIff(root, path, id);
    forall junk | path == root + junk + "/" + id && NoSlash(junk) ensures junk == "" {
      var tail := junk + "/" + id;
      assert path[|root|..] == tail;
      assert tail[0] == (root + "/")[|root|];
    }
    assert root + "" + "/" + id == LeafPath(root, id);
  }

  // Off its own root it does not: a request's lock directory parses as the request.  It
  // lies outside the tree the request cache watches, which therefore never asks.
  lemma RequestLockParsesAsRequest(id: string)
    requires NoSlash(id) && id != "lock"
    ensures LeafPath(REQUEST_LOCK_ROOT, id) != LeafPath(REQUEST_ROOT, id)
    ensures ParseLeaf(REQUEST_ROOT, LeafPath(REQUEST_LOCK_ROOT, id)) == Some([id])
    ensures ParseLeaf(REQUEST_ROOT, LeafPath(REQUEST_ROOT, id)) == Some([id])
  {
    assert REQUEST_LOCK_ROOT == REQUEST_ROOT + "-lock";
    assert LeafPath(REQUEST_LOCK_ROOT, id) == REQUEST_ROOT + "-lock" + "/" + id;
    ParseLeafIff(REQUEST_ROOT, LeafPath(REQUEST_LOCK_ROOT, id), id);
    assert LeafPath(REQUEST_ROOT, id) == REQUEST_ROOT + "" + "/" + id;
    ParseLeafIff(REQUEST_ROOT, LeafPath(REQUEST_ROOT, id), id);
    assert |LeafPath(REQUEST_LOCK_ROOT, id)| != |LeafPath(REQUEST_ROOT, id)|;
  }

  // The configuration of NodeCache and RequestCache.
  function LeafConfig(root: string, decode: string -> Option<Dict>): Config {
    Config(root, path => ParseLeaf(root, path), decode, path => Under(root, path))
  }

  lemma LeafConfigIsValid(root: string, decode: string -> Option<Dict>)
    ensures Runs.ValidConfig(LeafConfig(root, decode))
  {
    forall p, q | Under(root, p) && Under(root, q) && ParseLeaf(root, p).Some? && ParseLeaf(root, p) == ParseLeaf(root, q)
      ensures p == q
    {
      var id := ParseLeaf(root, p).value[0];
      ParseLeafInvertsBuilder(root, p, id);
      ParseLeafInvertsBuilder(root, q, id);
    }
  }

  // The image tree as the path builders lay it out.
  predicate ImageLayout(path: string) {
    && Under(IMAGE_ROOT, path)
    && var parts := Below(IMAGE_ROOT, path).value;
       && (|parts| == 4 ==> parts[2] == "builds")
       && (|parts| == 8 ==> parts[2] == "builds" && parts[4] == "providers" && parts[6] == "images")
  }

  function ImageConfig(decode: string -> Option<Dict>): Config {
    Config(IMAGE_ROOT, ParseImageTree, decode, ImageLayout)
  }

  lemma BelowStartsEmpty(root: string, path: string)
    requires Under(root, path)
    ensures Below(root, path).Some? && Below(root, path).value[0] == ""
    ensures path == root + Join(Below(root, path).value)
  {
    assert path[|root|..][0] == (root + "/")[|root|];
    JoinSplit(path[|root|..]);
    assert path == root + path[|root|..];
  }

  lemma ImageConfigIsValid(decode: string -> Option<Dict>)
    ensures Runs.ValidConfig(ImageConfig(decode))
  {
    forall p, q | ImageLayout(p) && ImageLayout(q) && ParseImageTree(p).Some? && ParseImageTree(p) == ParseImageTree(q)
      ensures p == q
    {
      BelowStartsEmpty(IMAGE_ROOT, p);
      BelowStartsEmpty(IMAGE_ROOT, q);
      var a, b := Below(IMAGE_ROOT, p).value, Below(IMAGE_ROOT, q).value;
      assert |ParseImageTree(p).value| == |a| / 2;
      assert a == b;
    }
  }

  // The layout is needed: the parsers count components and never read the fixed ones.
  lemma FixedComponentsAreNotRead(image: string, build: string, other: string)
    requires NoSlash(image) && NoSlash(build) && NoSlash(other) && build != "lock"
    ensures ParseImageTree(IMAGE_ROOT + "/" + image + "/" + other + "/" + build) == Some([image, build])
  {
    var parts := ["", image, other, build];
    assert Join(parts[2..]) == other + "/" + build;
    assert parts[1..][1..] == parts[2..];
    assert Join(parts[1..]) == image + "/" + Join(parts[2..]);
    assert Join(parts) == "/" + Join(parts[1..]);
    assert IMAGE_ROOT + Join(parts) == IMAGE_ROOT + "/" + image + "/" + other + "/" + build;
    BelowJoined(IMAGE_ROOT, parts);
  }

  lemma UploadPathRoundTrip(image: string, build: string, provider: string, upload: string)
    requires NoSlash(image) && NoSlash(build) && NoSlash(provider) && NoSlash(upload) && upload != "lock"
    ensures ParseImageTree(UploadPath(image, build, provider, upload)) == Some([image, build, provider, upload])
    ensures ImageLayout(UploadPath(image, build, provider, upload))
  {
    var parts := ["", image, "builds", build, "providers", provider, "images", upload];
    BelowJoined(IMAGE_ROOT, parts);
    assert Join(parts) == "/" + Join(parts[1..]);
    assert UploadPath(image, build, provider, upload)[..|IMAGE_ROOT| + 1] == IMAGE_ROOT + "/";
  }
}
