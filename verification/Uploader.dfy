/**
 Uploading a large image in segments (ImageUploader._uploadInner in
 nodepool/driver/utils.py) and the block arithmetic of EBSSnapshotUploader
 (nodepool/driver/aws/adapter.py).
 */
module Uploader {
  type Byte = b: int | 0 <= b < 256

  datatype Segment = Segment(index: nat, offset: nat, data: seq<Byte>)

  // ---------------------------------------------------------------- segments

  function Min(a: int, b: int): int { if a < b then a else b }

  function CeilDiv(a: nat, b: nat): nat
    requires b > 0
  {
    (a + b - 1) / b
  }

  // The i-th value of range(0, ..., size).
  function Offset(i: nat, size: nat): nat { if i == 0 then 0 else Offset(i - 1, size) + size }

  lemma {:induction false} OffsetIs(i: nat, size: nat)
    ensures Offset(i, size) == i * size
  {
    if i > 0 {
      OffsetIs(i - 1, size);
      assert i * size == (i - 1) * size + size;
    }
  }

  // read(size) with the file positioned at `at`.
  function Read(file: seq<Byte>, at: nat, size: nat): seq<Byte>
    requires at <= |file|
  {
    file[at..Min(at + size, |file|)]
  }

  // The i-th segment of a file.
  function SegmentAt(file: seq<Byte>, size: nat, i: nat): Segment
    requires Offset(i, size) <= |file|
  {
    Segment(i, Offset(i, size), Read(file, Offset(i, size), size))
  }

  // The first so many segments, each beginning inside the file.
  predicate Starts(segments: seq<Segment>, file: seq<Byte>, size: nat) {
    forall i :: 0 <= i < |segments| ==> Offset(i, size) < |file| && segments[i] == SegmentAt(file, size, i)
  }

  // All of them: their offsets are the multiples of the size, each holds what the file has
  // from there on, none is empty, and together they are the file.
  ghost predicate Tiles(segments: seq<Segment>, file: seq<Byte>, size: nat) {
    && Contents(segments) == file
    && forall i :: 0 <= i < |segments| ==>
         && segments[i].index == i && segments[i].offset == i * size && segments[i].data != []
         && segments[i].offset + |segments[i].data| == Min(i * size + size, |file|)
  }

  function Contents(segments: seq<Segment>): seq<Byte> {
    if segments == [] then [] else Contents(segments[..|segments| - 1]) + segments[|segments| - 1].data
  }

  lemma Appends(file: seq<Byte>, at: nat, size: nat)
    requires at <= |file|
    ensures file[..at] + Read(file, at, size) == file[..Min(at + size, |file|)]
  {
  }

  lemma {:induction false} StartsHold(segments: seq<Segment>, file: seq<Byte>, size: nat)
    requires Starts(segments, file, size)
    ensures Contents(segments) == file[..Min(Offset(|segments|, size), |file|)]
  {
    if segments != [] {
      var last := |segments| - 1;
      StartsHold(segments[..last], file, size);
      assert segments[last] == SegmentAt(file, size, last);
      Appends(file, Offset(last, size), size);
    }
  }

  // Once the next offset is past the end, the segments tile the file.
  lemma StartsTile(segments: seq<Segment>, file: seq<Byte>, size: nat)
    requires size > 0 && Starts(segments, file, size) && Offset(|segments|, size) >= |file|
    ensures Tiles(segments, file, size)
  {
    StartsHold(segments, file, size);
    assert file[..|file|] == file;
    forall i | 0 <= i < |segments|
      ensures segments[i].index == i && segments[i].offset == i * size && segments[i].data != []
      ensures segments[i].offset + |segments[i].data| == Min(i * size + size, |file|)
    {
      OffsetIs(i, size);
      assert segments[i] == SegmentAt(file, size, i);
    }
  }

  // ---------------------------------------------------------------- the upload loop

  // concurrent.futures.wait: some futures are done, at least one unless a timeout may
  // strike, or all if so asked.
  method Wait(futures: set<nat>, all: bool, hasTimeout: bool) returns (done: set<nat>, left: set<nat>)
    ensures done + left == futures && done !! left
    ensures !hasTimeout && all ==> left == {}
    ensures !hasTimeout && futures != {} ==> done != {}
  {
    if all && !hasTimeout {
      return futures, {};
    }
    var anything: bool := *;
    done := {};
    left := futures;
    if !hasTimeout && futures != {} {
      var first :| first in left;
      done, left := {first}, left - {first};
    }
    while anything && left != {}
      invariant done + left == futures && done !! left && (!hasTimeout && futures != {} ==> done != {})
      decreases left
    {
      var next :| next in left;
      done, left := done + {next}, left - {next};
      anything := *;
    }
  }

  // future.result() for each of them; false when one of them raises.
  method Results(done: set<nat>) returns (ok: bool, succeeded: set<nat>)
    ensures succeeded <= done && (ok ==> succeeded == done)
  {
    succeeded := {};
    while succeeded != done
      invariant succeeded <= done
      decreases done - succeeded
    {
      var future :| future in done && future !in succeeded;
      var raised: bool := *;
      if raised {
        return false, succeeded;
      }
      succeeded := succeeded + {future};
    }
    return true, succeeded;
  }

  lemma AllSucceeded(futures: set<nat>, succeeded: set<nat>, n: nat)
    ensures Accounted(futures, succeeded, n) && futures == {} ==> succeeded == Upto(n)
  {
  }

  // Waiting, looking at the results and checking the time.
  method Drain(futures: set<nat>, succeeded: set<nat>, ghost n: nat, all: bool, hasTimeout: bool)
    returns (left: set<nat>, succeeded': set<nat>, raised: bool)
    requires Accounted(futures, succeeded, n)
    ensures !raised ==> Accounted(left, succeeded', n)
    ensures !raised && !hasTimeout ==> if all then left == {} else futures != {} ==> |left| < |futures|
  {
    var done;
    done, left := Wait(futures, all, hasTimeout);
    Settled(futures, succeeded, n, done, left);
    var ok, results := Results(done);
    succeeded' := succeeded + results;
    if !ok {
      raised := true;
      return;
    }
    var late: bool := *;
    raised := hasTimeout && late;
  }

  // The pool of workers is kept supplied, but not with limit futures or more.
  method MakeRoom(futures: set<nat>, succeeded: set<nat>, ghost n: nat, limit: nat, hasTimeout: bool)
    returns (left: set<nat>, succeeded': set<nat>, raised: bool)
    requires Accounted(futures, succeeded, n) && limit > 0
    ensures !raised ==> Accounted(left, succeeded', n)
    ensures !raised && !hasTimeout && |futures| <= limit ==> |left| < limit
  {
    left, succeeded', raised := futures, succeeded, false;
    if |futures| >= limit {
      left, succeeded', raised := Drain(futures, succeeded, n, false, hasTimeout);
    }
  }

  // The next segment is read and submitted.
  method SubmitNext(file: seq<Byte>, segmentSize: nat, submitted: seq<Segment>, offset: nat) returns (more: seq<Segment>)
    requires Starts(submitted, file, segmentSize) && offset == Offset(|submitted|, segmentSize) && offset < |file|
    ensures Starts(more, file, segmentSize) && |more| == |submitted| + 1
    ensures Offset(|more|, segmentSize) == offset + segmentSize
  {
    var segment := Segment(|submitted|, offset, Read(file, offset, segmentSize));
    StartsGrow(submitted, file, segmentSize);
    more := submitted + [segment];
  }

  // _uploadInner.  peak is the largest number of futures ever waited for at once.
  method UploadInner(file: seq<Byte>, segmentSize: nat, concurrency: nat, hasTimeout: bool)
    returns (submitted: seq<Segment>, succeeded: set<nat>, peak: nat, raised: bool)
    requires segmentSize > 0 && concurrency > 0
    ensures Starts(submitted, file, segmentSize)
    ensures !hasTimeout ==> peak <= 2 * concurrency
    ensures !raised ==> Tiles(submitted, file, segmentSize)
    ensures !raised && !hasTimeout ==> succeeded == Upto(|submitted|)
  {
    submitted, succeeded, peak, raised := [], {}, 0, false;
    var futures: set<nat> := {};
    assert Accounted(futures, succeeded, 0) && Starts(submitted, file, segmentSize);
    hide Accounted;
    hide Starts;
    hide Tiles;
    hide Upto;
    hide Offset;
    assert Offset(0, segmentSize) == 0 by {
      OffsetIs(0, segmentSize);
    }
    var offset := 0;
    while offset < |file|
      invariant offset == Offset(|submitted|, segmentSize) && Starts(submitted, file, segmentSize)
      invariant !hasTimeout ==> peak <= 2 * concurrency && |futures| < 2 * concurrency
      invariant Accounted(futures, succeeded, |submitted|) && !raised
      decreases |file| - offset
    {
      var index := |submitted|;
      submitted := SubmitNext(file, segmentSize, submitted, offset);
      Submitted(futures, succeeded, index);
      futures := futures + {index};
      offset := offset + segmentSize;
      peak := if |futures| > peak then |futures| else peak;
      futures, succeeded, raised := MakeRoom(futures, succeeded, index + 1, 2 * concurrency, hasTimeout);
      if raised {
        return;
      }
    }
    StartsTile(submitted, file, segmentSize);
    futures, succeeded, raised := Drain(futures, succeeded, |submitted|, true, hasTimeout);
    AllSucceeded(futures, succeeded, |submitted|);
  }

  // The indices below n.
  function Upto(n: nat): (s: set<nat>)
    ensures forall i: nat :: i in s <==> i < n
  {
    if n == 0 then {} else Upto(n - 1) + {n - 1}
  }

  // Of the first n uploads, some are still waited for and the others succeeded.
  predicate Accounted(futures: set<nat>, succeeded: set<nat>, n: nat) {
    futures !! succeeded && futures + succeeded == Upto(n)
  }

  lemma Submitted(futures: set<nat>, succeeded: set<nat>, n: nat)
    requires Accounted(futures, succeeded, n)
    ensures Accounted(futures + {n}, succeeded, n + 1) && |futures + {n}| == |futures| + 1
  {
    assert n !in Upto(n);
    assert n !in futures && n !in succeeded;
  }

  lemma Settled(futures: set<nat>, succeeded: set<nat>, n: nat, done: set<nat>, left: set<nat>)
    requires Accounted(futures, succeeded, n) && done + left == futures && done !! left
    ensures Accounted(left, succeeded + done, n) && |left| == |futures| - |done|
  {
    assert left == futures - done;
  }

  lemma StartsGrow(segments: seq<Segment>, file: seq<Byte>, size: nat)
    requires Starts(segments, file, size) && Offset(|segments|, size) < |file|
    ensures Starts(segments + [SegmentAt(file, size, |segments|)], file, size)
  {
  }

  // ---------------------------------------------------------------- EBS blocks

  const KIB := 1024
  const GIB := 1024 * 1024 * 1024
  const BLOCK := 512 * KIB

  // The volume declared for an image, in GiB.
  function VolumeSize(size: nat): nat { CeilDiv(size, GIB) }

  function Zeros(n: nat): seq<Byte> { seq(n, i => 0) }

  // data.ljust(segment_size, zero bytes), done only for short data.
  function BlockData(data: seq<Byte>): (block: seq<Byte>)
    ensures |data| <= BLOCK ==> |block| == BLOCK
  {
    if |data| < BLOCK then data + Zeros(BLOCK - |data|) else data
  }

  // Every block, padding included, lies inside the declared volume.
  lemma BlocksFitTheVolume(file: seq<Byte>, i: nat)
    requires i * BLOCK < |file|
    ensures (i + 1) * BLOCK <= VolumeSize(|file|) * GIB
  {
    var n := VolumeSize(|file|);
    assert n * GIB >= |file|;
    assert GIB == 2048 * BLOCK;
    assert i < n * 2048;
  }

  // Reading the uploaded blocks as a disk gives the image, followed by zeros.
  lemma BlocksHoldTheImage(segments: seq<Segment>, file: seq<Byte>, x: nat)
    requires Starts(segments, file, BLOCK) && x / BLOCK < |segments|
    ensures var block := BlockData(segments[x / BLOCK].data);
            |block| == BLOCK && block[x % BLOCK] == if x < |file| then file[x] else 0
  {
    var i := x / BLOCK;
    OffsetIs(i, BLOCK);
    assert i * BLOCK <= x < i * BLOCK + BLOCK && x % BLOCK == x - i * BLOCK;
    assert segments[i] == SegmentAt(file, BLOCK, i);
  }
}
