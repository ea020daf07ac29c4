/**
 The bounded cache of groups of pictures that lets a new subscriber start at a
 keyframe (src/media/gop_cache.cpp).
 */
module GopCache {

  datatype Frame = Frame(video: bool, keyframe: bool, pts: int, size: nat)

  /** `maxDuration` is in milliseconds; zero or less means no limit. */
  datatype Config = Config(maxGops: nat, maxBytes: nat, maxDuration: int)

  datatype Gop = Gop(frames: seq<Frame>, startPts: int, endPts: int, bytes: nat)

  function Size(frames: seq<Frame>): nat {
    if frames == [] then 0 else Size(frames[..|frames| - 1]) + frames[|frames| - 1].size
  }

  function Bytes(gops: seq<Gop>): nat {
    if gops == [] then 0 else gops[0].bytes + Bytes(gops[1..])
  }

  lemma BytesOfLast(gops: seq<Gop>, g: Gop)
    ensures Bytes(gops + [g]) == Bytes(gops) + g.bytes
  {
    if gops != [] {
      assert (gops + [g])[1..] == gops[1..] + [g];
    }
  }

  // --------------------------------------------------------------- the limits

  predicate TooLong(c: Config, gops: seq<Gop>) {
    |gops| > 1 && c.maxDuration > 0 && gops[|gops| - 1].endPts - gops[0].startPts > c.maxDuration
  }

  predicate Within(c: Config, gops: seq<Gop>) {
    |gops| <= c.maxGops && Bytes(gops) <= c.maxBytes && !TooLong(c, gops)
  }

  /** The first group from `from` on whose suffix is within the limits. */
  function FirstFit(c: Config, gops: seq<Gop>, from: nat): (k: nat)
    requires from <= |gops|
    ensures from <= k <= |gops|
    ensures forall i :: from <= i < k ==> !Within(c, gops[i..])
    ensures k < |gops| ==> Within(c, gops[k..])
    decreases |gops| - from
  {
    if from == |gops| || Within(c, gops[from..]) then from else FirstFit(c, gops, from + 1)
  }

  /** What `trim_locked` keeps: the longest suffix within all three limits. */
  function Trim(c: Config, gops: seq<Gop>): seq<Gop> {
    gops[FirstFit(c, gops, 0)..]
  }

  lemma SingleIsWithin(c: Config, g: Gop)
    requires c.maxGops >= 1 && g.bytes <= c.maxBytes
    ensures Within(c, [g])
  {
  }

  /** The newest group survives every trim, and what is kept is within the limits. */
  lemma TrimKeepsNewest(c: Config, gops: seq<Gop>, newest: Gop)
    requires c.maxGops >= 1 && newest.bytes <= c.maxBytes
    ensures FirstFit(c, gops + [newest], 0) <= |gops|
    ensures Within(c, Trim(c, gops + [newest]))
  {
    hide Within;
    var all := gops + [newest];
    SingleIsWithin(c, newest);
    assert all[|gops|..] == [newest];
  }

  // -------------------------------------------------------------- one push

  predicate Refused(c: Config, f: Frame) {
    !f.video || f.size == 0 || c.maxGops == 0 || c.maxBytes == 0 || f.size > c.maxBytes
  }

  /** Whether `f` may follow a group that starts at `startPts` and holds `bytes`. */
  predicate Joins(c: Config, bytes: nat, startPts: int, f: Frame) {
    bytes + f.size <= c.maxBytes && !(c.maxDuration > 0 && f.pts - startPts > c.maxDuration)
  }

  function Extended(g: Gop, f: Frame): Gop {
    Gop(g.frames + [f], g.startPts, f.pts, g.bytes + f.size)
  }

  function Started(f: Frame): Gop { Gop([f], f.pts, f.pts, f.size) }

  function Push(c: Config, gops: seq<Gop>, f: Frame): seq<Gop> {
    if Refused(c, f) then gops
    else if f.keyframe then Trim(c, gops + [Started(f)])
    else if gops == [] then gops
    else
      var n := |gops| - 1;
      if !Joins(c, gops[n].bytes, gops[n].startPts, f) then gops
      else Trim(c, gops[..n] + [Extended(gops[n], f)])
  }

  function PushAll(c: Config, history: seq<Frame>): seq<Gop> {
    if history == [] then []
    else Push(c, PushAll(c, history[..|history| - 1]), history[|history| - 1])
  }

  // ------------------------------------------------------------- invariants

  ghost predicate GopOk(c: Config, g: Gop) {
    && g.frames != [] && g.frames[0].keyframe
    && g.startPts == g.frames[0].pts && g.endPts == g.frames[|g.frames| - 1].pts
    && g.bytes == Size(g.frames) && g.bytes <= c.maxBytes
    && forall i :: 0 <= i < |g.frames| ==> !Refused(c, g.frames[i])
  }

  ghost predicate CacheOk(c: Config, gops: seq<Gop>) {
    && (forall i :: 0 <= i < |gops| ==> GopOk(c, gops[i]))
    && Within(c, gops)
  }

  lemma ExtendedOk(c: Config, g: Gop, f: Frame)
    requires GopOk(c, g) && !Refused(c, f) && Joins(c, g.bytes, g.startPts, f)
    ensures GopOk(c, Extended(g, f))
  {
  }

  lemma StartedOk(c: Config, f: Frame)
    requires !Refused(c, f) && f.keyframe
    ensures GopOk(c, Started(f))
  {
  }

  lemma TrimKeepsOk(c: Config, gops: seq<Gop>, newest: Gop)
    requires c.maxGops >= 1 && GopOk(c, newest)
    requires forall i :: 0 <= i < |gops| ==> GopOk(c, gops[i])
    ensures CacheOk(c, Trim(c, gops + [newest]))
  {
    hide GopOk, FirstFit;
    assert newest.bytes <= c.maxBytes by { NewestBytes(c, newest); }
  }

  lemma NewestBytes(c: Config, g: Gop)
    requires GopOk(c, g)
    ensures g.bytes <= c.maxBytes
  {
  }

  lemma PushKeepsOk(c: Config, gops: seq<Gop>, f: Frame)
    requires CacheOk(c, gops)
    ensures CacheOk(c, Push(c, gops, f))
  {
    hide Trim, GopOk, Within;
    var n := |gops| - 1;
    if !Refused(c, f) {
      if f.keyframe {
        StartedOk(c, f);
        TrimKeepsOk(c, gops, Started(f));
      } else if gops != [] && Joins(c, gops[n].bytes, gops[n].startPts, f) {
        ExtendedOk(c, gops[n], f);
        TrimKeepsOk(c, gops[..n], Extended(gops[n], f));
      }
    }
  }

  /** After every push: exact byte counts, keyframe-first groups and all three limits. */
  lemma {:induction false} CacheStaysOk(c: Config, history: seq<Frame>)
    ensures CacheOk(c, PushAll(c, history))
  {
    if history != [] {
      CacheStaysOk(c, history[..|history| - 1]);
      PushKeepsOk(c, PushAll(c, history[..|history| - 1]), history[|history| - 1]);
    }
  }

  // ------------------------------------------------- the one-group reference

  function Snapshot(gops: seq<Gop>): seq<Frame> {
    if gops == [] then [] else gops[|gops| - 1].frames
  }

  /** A cache that only ever holds one group: no `maxGops`, no trimming, no counters. */
  function Reference(maxBytes: nat, maxDuration: int, history: seq<Frame>): seq<Frame> {
    if history == [] then []
    else
      var before := Reference(maxBytes, maxDuration, history[..|history| - 1]);
      var f := history[|history| - 1];
      if !f.video || f.size == 0 || f.size > maxBytes then before
      else if f.keyframe then [f]
      else if before != [] && Joins(Config(1, maxBytes, maxDuration), Size(before), before[0].pts, f) then before + [f]
      else before
  }

  /** The snapshot is the reference's, whatever number of groups the cache keeps. */
  lemma {:induction false} SnapshotIsReference(c: Config, history: seq<Frame>)
    requires c.maxGops >= 1
    ensures Snapshot(PushAll(c, history)) == Reference(c.maxBytes, c.maxDuration, history)
  {
    hide Push, CacheOk;
    if history != [] {
      var past, f := history[..|history| - 1], history[|history| - 1];
      var gops := PushAll(c, past);
      SnapshotIsReference(c, past);
      CacheStaysOk(c, past);
      PushedNewest(c, gops, f);
    }
  }

  /** The newest group after a push is a new one, a longer one, or the same. */
  lemma PushedNewest(c: Config, gops: seq<Gop>, f: Frame)
    requires c.maxGops >= 1 && CacheOk(c, gops)
    ensures Snapshot(Push(c, gops, f)) ==
            var before := Snapshot(gops);
            if Refused(c, f) then before
            else if f.keyframe then [f]
            else if before != [] && Joins(c, Size(before), before[0].pts, f) then before + [f]
            else before
  {
    hide FirstFit, Within;
    var n := |gops| - 1;
    if !Refused(c, f) {
      if f.keyframe {
        TrimKeepsNewest(c, gops, Started(f));
      } else if gops != [] && Joins(c, gops[n].bytes, gops[n].startPts, f) {
        TrimKeepsNewest(c, gops[..n], Extended(gops[n], f));
      }
    }
  }

  // -------------------------------------- the published suffix it stands for

  /** The published video frames from the latest keyframe on. */
  function SinceKeyframe(history: seq<Frame>): seq<Frame> {
    if history == [] then []
    else
      var before := SinceKeyframe(history[..|history| - 1]);
      var f := history[|history| - 1];
      if !f.video || f.size == 0 then before
      else if f.keyframe then [f]
      else if before == [] then []
      else before + [f]
  }

  predicate Fits(c: Config, frames: seq<Frame>) {
    && Size(frames) <= c.maxBytes
    && (c.maxDuration > 0 ==>
          forall i :: 0 <= i < |frames| ==> frames[i].pts - frames[0].pts <= c.maxDuration)
  }

  lemma OneFits(c: Config, f: Frame)
    requires f.size <= c.maxBytes
    ensures Fits(c, [f])
  {
  }

  /** No snapshot ever breaks a limit, so an oversize suffix cannot be one. */
  lemma {:induction false} ReferenceFits(c: Config, history: seq<Frame>)
    ensures Fits(c, Reference(c.maxBytes, c.maxDuration, history))
  {
    if history != [] {
      var past, f := history[..|history| - 1], history[|history| - 1];
      ReferenceFits(c, past);
      hide Size, Fits;
      if f.size <= c.maxBytes { OneFits(c, f); }
    }
  }

  lemma {:induction false} FittingSuffixIsReference(c: Config, history: seq<Frame>)
    requires Fits(c, SinceKeyframe(history))
    ensures Reference(c.maxBytes, c.maxDuration, history) == SinceKeyframe(history)
  {
    if history != [] {
      var past, f := history[..|history| - 1], history[|history| - 1];
      if !f.video || f.size == 0 || !f.keyframe { FittingSuffixIsReference(c, past); }
    }
  }

  /**
   The snapshot is exactly what was published since the latest keyframe if and
   only if that suffix is within the byte and duration limits.
   */
  lemma SnapshotIsSuffixIffItFits(c: Config, history: seq<Frame>)
    requires c.maxGops >= 1
    ensures Snapshot(PushAll(c, history)) == SinceKeyframe(history) <==> Fits(c, SinceKeyframe(history))
  {
    SnapshotIsReference(c, history);
    ReferenceFits(c, history);
    if Fits(c, SinceKeyframe(history)) {
      FittingSuffixIsReference(c, history);
    }
  }

  /** An oversize inter frame leaves a hole: the group goes on without it. */
  lemma OversizeFrameLeavesHole()
    ensures var c := Config(4, 10, 0);
            var k, big, p := Frame(true, true, 0, 5), Frame(true, false, 40, 11), Frame(true, false, 80, 5);
            Snapshot(PushAll(c, [k, big, p])) == [k, p]
  {
    var c := Config(4, 10, 0);
    var k, big, p := Frame(true, true, 0, 5), Frame(true, false, 40, 11), Frame(true, false, 80, 5);
    SnapshotIsReference(c, [k, big, p]);
    assert [k, big, p][..2] == [k, big] && [k, big][..1] == [k] && [k][..0] == [];
    assert Size([k]) == Size([]) + 5;
    assert Reference(10, 0, [k, big]) == [k];
  }

  // ---------------------------------------------------------------- the class

  class Cache {
    const config: Config
    var gops: seq<Gop>
    var bytes: nat

    ghost predicate Valid()
      reads this
    {
      CacheOk(config, gops) && bytes == Bytes(gops)
    }

    constructor (config: Config)
      ensures Valid() && this.config == config && gops == []
    {
      this.config := config;
      gops, bytes := [], 0;
    }

    /** `accepted` says whether the frame entered the cache. */
    method PushFrame(f: Frame) returns (accepted: bool)
      requires Valid()
      modifies this
      ensures Valid() && gops == Push(config, old(gops), f)
      ensures accepted ==> Snapshot(gops) != [] && Snapshot(gops)[|Snapshot(gops)| - 1] == f
      ensures !accepted ==> gops == old(gops)
    {
      hide FirstFit, GopOk, Within, Bytes, TooLong;
      PushKeepsOk(config, gops, f);
      if !f.video || f.size == 0 {
        return false;
      }
      if config.maxGops == 0 || config.maxBytes == 0 || f.size > config.maxBytes {
        return false;
      }
      if f.keyframe {
        TrimKeepsNewest(config, gops, Started(f));
        StartNewGop(f);
        TrimGops();
        return true;
      }
      if gops == [] {
        return false;
      }
      var gop := gops[|gops| - 1];
      if gop.bytes > config.maxBytes - f.size
         || (config.maxDuration > 0 && f.pts - gop.startPts > config.maxDuration) {
        return false;
      }
      TrimKeepsNewest(config, gops[..|gops| - 1], Extended(gop, f));
      ExtendLast(f);
      TrimGops();
      accepted := true;
    }

    method StartNewGop(f: Frame)
      requires bytes == Bytes(gops)
      modifies this
      ensures gops == old(gops) + [Started(f)] && bytes == Bytes(gops)
    {
      var gop := Gop([f], f.pts, f.pts, f.size);
      BytesOfLast(gops, gop);
      bytes := bytes + gop.bytes;
      gops := gops + [gop];
    }

    method ExtendLast(f: Frame)
      requires gops != [] && bytes == Bytes(gops)
      modifies this
      ensures var n := |old(gops)| - 1;
              gops == old(gops)[..n] + [Extended(old(gops)[n], f)]
      ensures bytes == Bytes(gops)
    {
      hide Bytes;
      var n := |gops| - 1;
      var gop := gops[n];
      BytesOfLast(gops[..n], gop);
      assert gops == gops[..n] + [gop];
      gop := Gop(gop.frames + [f], gop.startPts, f.pts, gop.bytes + f.size);
      BytesOfLast(gops[..n], gop);
      bytes := bytes + f.size;
      gops := gops[..n] + [gop];
    }

    /** The loop never looks at the front of an empty cache. */
    method TrimGops()
      requires bytes == Bytes(gops) && config.maxGops >= 1
      modifies this
      ensures gops == Trim(config, old(gops)) && bytes == Bytes(gops)
    {
      ghost var was, cut := gops, 0;
      while |gops| > config.maxGops || bytes > config.maxBytes
            || (|gops| > 1 && config.maxDuration > 0
                && gops[|gops| - 1].endPts - gops[0].startPts > config.maxDuration)
        invariant bytes == Bytes(gops)
        invariant cut <= |was| && gops == was[cut..]
        invariant FirstFit(config, was, cut) == FirstFit(config, was, 0)
        decreases |gops|
      {
        cut := cut + 1;
        bytes := bytes - gops[0].bytes;
        gops := gops[1..];
      }
    }

    method SnapshotFromLatestKey() returns (frames: seq<Frame>)
      ensures frames == Snapshot(gops)
    {
      if gops == [] {
        return [];
      }
      frames := gops[|gops| - 1].frames;
    }
  }
}
