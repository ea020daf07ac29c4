/**
 The recorder object itself: the fields and loops of
 src/record/segment_recorder.cpp, proved to do what module `Recorder` says.
 */
module SegmentRecorder {
  import opened Base
  import opened Playlist
  import opened Recorder

  /** One round of the prune loop. */
  function DropOne(s: Rec, stuck: set<Path>): Rec
    requires s.kept != []
  {
    s.(kept := s.kept[1..],
       playlist := DropFrontIf(s.playlist, s.kept[0].path.name),
       disk := Round(s.disk, s.playlist, s.kept, s.currentDay, stuck))
  }

  lemma {:induction false} KeepFromShift(cfg: Config, kept: seq<Kept>, i: nat)
    requires i < |kept|
    ensures KeepFrom(cfg, kept, i + 1) == 1 + KeepFrom(cfg, kept[1..], i)
    decreases |kept| - i
  {
    assert kept[1..][i..] == kept[i + 1..];
    if Over(cfg, kept[i + 1..]) { KeepFromShift(cfg, kept, i + 1); }
  }

  /** Pruning is dropping the oldest segment as long as the window is over a limit. */
  lemma PruneTurn(s: Rec, stuck: set<Path>)
    ensures if Over(s.cfg, s.kept) then s.kept != [] && Prune(s, stuck) == Prune(DropOne(s, stuck), stuck)
            else Prune(s, stuck) == s
  {
    hide Round, DropFrontIf, KeepFrom, Over, DropAll, PruneDisk;
    KeepFromStart(s.cfg, s.kept);
    var k := KeepFrom(s.cfg, s.kept, 0);
    if Over(s.cfg, s.kept) {
      DropAllTurn(s.playlist, s.kept, k);
      PruneDiskTurn(s.disk, s.playlist, s.kept, k, s.currentDay, stuck);
      assert s.kept[k..] == s.kept[1..][k - 1..];
    } else {
      NothingDropped(s.disk, s.playlist, s.kept, s.currentDay, stuck);
    }
  }

  lemma KeepFromStart(cfg: Config, kept: seq<Kept>)
    ensures if Over(cfg, kept) then kept != [] && KeepFrom(cfg, kept, 0) == 1 + KeepFrom(cfg, kept[1..], 0)
            else KeepFrom(cfg, kept, 0) == 0
  {
    assert kept[0..] == kept;
    if Over(cfg, kept) { KeepFromShift(cfg, kept, 0); }
  }

  lemma DropAllTurn(p: List, kept: seq<Kept>, k: nat)
    requires 0 < k <= |kept|
    ensures DropAll(p, kept[..k]) == DropAll(DropFrontIf(p, kept[0].path.name), kept[1..][..k - 1])
  {
    assert kept[..k][1..] == kept[1..][..k - 1];
  }

  lemma PruneDiskTurn(d: Disk, p: List, kept: seq<Kept>, k: nat, today: string, stuck: set<Path>)
    requires 0 < k <= |kept|
    ensures var e, q := Round(d, p, kept, today, stuck), DropFrontIf(p, kept[0].path.name);
            PruneDisk(d, p, kept, k, today, stuck) == PruneDisk(e, q, kept[1..], k - 1, today, stuck)
  {
  }

  lemma NothingDropped(d: Disk, p: List, kept: seq<Kept>, today: string, stuck: set<Path>)
    ensures DropAll(p, kept[..0]) == p && PruneDisk(d, p, kept, 0, today, stuck) == d && kept[0..] == kept
  {
  }

  lemma ListingNext(kept: seq<Kept>, i: nat, day: string)
    requires i < |kept|
    ensures Names(Listing(kept[..i + 1], day))
         == Names(Listing(kept[..i], day)) + if kept[i].path.day == day then [kept[i].path.name] else []
  {
    var more := kept[..i + 1];
    assert more[..|more| - 1] == kept[..i] && more[|more| - 1] == kept[i];
  }

  class Writer {
    const cfg: Config
    var playlist: List
    var kept: seq<Kept>
    var currentDay: string
    var sessionReady: bool
    var formatsReady: bool
    var sound: Sound
    var awaitKey: bool
    var pending: Option<Frame>
    var open: Option<Path>
    var startPts: int
    var lastPts: int
    var policyStart: int
    var disk: Disk
    var begins: nat
    var segments: seq<Segment>
    var rotations: seq<Rotation>

    function State(): Rec
      reads this
    {
      Rec(cfg, playlist, kept, currentDay, sessionReady, formatsReady, sound, awaitKey, pending,
          open, startPts, lastPts, policyStart, disk, begins, segments, rotations)
    }

    constructor (cfg: Config, disk: Disk)
      ensures State() == Init(cfg, disk)
    {
      this.cfg, this.disk := cfg, disk;
      playlist, kept, currentDay := List("", 300, 0, [], false), [], "";
      sessionReady, formatsReady, sound, awaitKey, pending := false, false, NoSound, true, None;
      open, startPts, lastPts, policyStart := None, -1, -1, -1;
      begins, segments, rotations := 0, [], [];
    }

    method OverRetain() returns (over: bool)
      ensures over == Over(cfg, kept)
    {
      if |kept| <= 1 {
        return false;
      }
      var ms, bytes := 0, 0;
      for i := 0 to |kept|
        invariant ms + TotalMs(kept[i..]) == TotalMs(kept)
        invariant bytes + TotalBytes(kept[i..]) == TotalBytes(kept)
      {
        ms, bytes := ms + kept[i].ms, bytes + kept[i].bytes;
      }
      if cfg.retainSec > 0 && ms > cfg.retainSec * 1000 {
        return true;
      }
      over := cfg.maxBytesMb > 0 && bytes > cfg.maxBytesMb * 1024 * 1024;
    }

    method PruneRetained(stuck: set<Path>)
      modifies this`kept, this`playlist, this`disk
      ensures State() == Prune(old(State()), stuck)
    {
      hide Over, Prune, DropOne;
      var over := OverRetain();
      while over
        invariant over == Over(cfg, kept) && Prune(State(), stuck) == Prune(old(State()), stuck)
        decreases |kept|
      {
        PruneTurn(State(), stuck);
        DropOldestSegment(stuck);
        over := OverRetain();
      }
      PruneTurn(State(), stuck);
    }

    /** One round: the list, the file, and the file's day unless it is today. */
    method DropOldestSegment(stuck: set<Path>)
      requires kept != []
      modifies this`kept, this`playlist, this`disk
      ensures State() == DropOne(old(State()), stuck) && |kept| < |old(kept)|
    {
      hide Listing;
      var oldest := kept[0];
      kept := kept[1..];
      if playlist.entries != [] && playlist.entries[0].name == oldest.path.name {
        playlist := DropFrontIf(playlist, oldest.path.name);
        disk := Saved(disk, playlist);
      }
      if oldest.path !in stuck {
        disk := disk.(media := disk.media - {oldest.path});
      }
      var day := oldest.path.day;
      if day != currentDay {
        if HasMedia(disk.media, day) {
          RewriteDayPlaylist(day);
        } else {
          disk := disk.(index := disk.index - {day});
        }
      }
    }

    /** The list of a day that is not today's, from the kept segments. */
    method RewriteDayPlaylist(day: string)
      modifies this`disk
      ensures disk == old(disk).(index := old(disk).index[day := Names(Listing(kept, day))])
    {
      var names := [];
      for i := 0 to |kept|
        invariant names == Names(Listing(kept[..i], day)) && disk == old(disk)
      {
        ListingNext(kept, i, day);
        if kept[i].path.day == day {
          names := names + [kept[i].path.name];
        }
      }
      assert kept[..|kept|] == kept;
      disk := disk.(index := disk.index[day := names]);
    }

    method CloseCurrentSegment(endPlaylist: bool, env: Env)
      modifies this`kept, this`playlist, this`disk, this`open, this`startPts, this`lastPts
      ensures State() == Close(old(State()), endPlaylist, env)
    {
      hide CloseFile, Saved;
      if open.Some? {
        KeepClosedFile(env);
      }
      open, startPts, lastPts := None, -1, -1;
      if endPlaylist && playlist.Active() && !playlist.ended {
        playlist := Finish(playlist);
        disk := Saved(disk, playlist);
      }
    }

    method KeepClosedFile(env: Env)
      requires open.Some?
      modifies this`kept, this`playlist, this`disk
      ensures State() == CloseFile(old(State()), env)
    {
      hide Prune, Append, Saved;
      var ms := RecordedMs(State());
      playlist := Append(playlist, open.value.name, ms);
      disk := Saved(disk, playlist);
      kept := kept + [Kept(open.value, ms, env.bytes)];
      PruneRetained(env.stuck);
    }

    /** A fresh playlist for the day, refilled from the kept segments. */
    method BeginPlaylist(day: string)
      modifies this
      ensures State() == BeginDay(old(State()), day)
    {
      var list := Begin(day, cfg.segmentSec);
      ghost var start := list;
      for i := 0 to |kept|
        invariant AppendDay(list, kept[i..], day) == AppendDay(start, kept, day)
      {
        hide Append;
        if kept[i].path.day == day {
          list := Append(list, kept[i].path.name, kept[i].ms);
        }
      }
      playlist, currentDay, sessionReady, begins := list, day, true, begins + 1;
      disk := Saved(disk, list);
    }

    method CaptureFormats(env: Env) returns (ok: bool)
      modifies this
      ensures (State(), ok) == Capture(old(State()), env)
    {
      if env.capture.None? {
        return false;
      }
      sound := if cfg.audio then env.capture.value else NoSound;
      formatsReady := true;
      ok := true;
    }

    method EnsureSessionReady(env: Env) returns (ok: bool)
      modifies this
      ensures (State(), ok) == EnsureSession(old(State()), env)
    {
      hide BeginDay;
      if sessionReady {
        return true;
      }
      if !formatsReady {
        var captured := CaptureFormats(env);
        if !captured {
          return false;
        }
      }
      if sound.AacWaiting? || env.later.None? || !env.initOk {
        return false;
      }
      if !env.indexOk {
        playlist, begins := Begin(env.later.value.day, cfg.segmentSec), begins + 1;
        return false;
      }
      BeginPlaylist(env.later.value.day);
      ok := true;
    }

    method NextMediaName(st: Stamp) returns (name: string)
      ensures name == NextName(disk.media, st, 1)
    {
      name := Candidate(st, 1);
      var suffix := 2;
      while Path(st.day, name) in disk.media && suffix < 100
        invariant 2 <= suffix <= 100 && name == Candidate(st, suffix - 1)
        invariant NextName(disk.media, st, suffix - 1) == NextName(disk.media, st, 1)
      {
        name := Candidate(st, suffix);
        suffix := suffix + 1;
      }
    }

    method OpenNextSegment(key: Frame, env: Env) returns (ok: bool)
      modifies this
      ensures (State(), ok) == OpenNext(old(State()), key, env)
    {
      hide Settle, OpenFile;
      if env.now.None? {
        return false;
      }
      ok := SettleSession(env);
      if ok {
        ok := OpenMediaFile(key, env);
      }
    }

    method OpenMediaFile(key: Frame, env: Env) returns (ok: bool)
      requires env.now.Some?
      modifies this`open, this`disk, this`startPts, this`lastPts, this`policyStart, this`segments
      ensures (State(), ok) == OpenFile(old(State()), key, env)
    {
      hide NextName;
      if !env.openOk {
        return false;
      }
      var name := NextMediaName(env.now.value);
      var path := Path(env.now.value.day, name);
      open, disk := Some(path), disk.(media := disk.media + {path});
      startPts, lastPts, policyStart := key.pts, key.pts, key.pts;
      segments := segments + [Segment(key, [])];
      ok := true;
    }

    method SettleSession(env: Env) returns (ok: bool)
      requires env.now.Some?
      modifies this
      ensures (State(), ok) == Settle(old(State()), env)
    {
      hide Close, EnsureSession, BeginDay;
      var day := env.now.value.day;
      if sessionReady && day != currentDay {
        CloseCurrentSegment(true, env);
        sessionReady, currentDay := false, "";
      }
      ok := EnsureSessionReady(env);
      if !ok || day == currentDay {
        return;
      }
      CloseCurrentSegment(true, env);
      if !env.reinitOk {
        sessionReady := false;
        return false;
      }
      BeginPlaylist(day);
    }

    method WriteFrame(f: Frame)
      modifies this
      ensures State() == Write(old(State()), f)
    {
      if open.Some? && segments != [] {
        var n := |segments| - 1;
        segments := segments[n := segments[n].(frames := segments[n].frames + [f])];
      }
    }

    method RotateToNewSegment(f: Frame, env: Env)
      modifies this
      ensures State() == Rotate(old(State()), f, env)
    {
      hide Close, OpenNext, Write;
      if open.Some? {
        rotations := rotations + [Rotation(startPts, f.pts, RecordedMs(State()))];
      }
      CloseCurrentSegment(false, env);
      awaitKey := false;
      var ok := OpenNextSegment(f, env);
      if !ok {
        awaitKey := true;
        return;
      }
      WriteFrame(f);
    }

    method ProcessFrame(f: Frame, env: Env)
      modifies this
      ensures State() == Process(old(State()), f, env)
    {
      hide ProcessAudio, ProcessAwaited, Rotate, Write;
      if f.kind.Audio? {
        ProcessAudioFrame(f, env);
        return;
      }
      if !f.kind.Video? {
        return;
      }
      if awaitKey {
        ProcessAwaitedFrame(f, env);
        return;
      }
      if f.keyframe && policyStart >= 0 && f.pts - policyStart >= cfg.RotateMs() {
        RotateToNewSegment(f, env);
        return;
      }
      if open.None? {
        awaitKey := true;
        return;
      }
      WriteFrame(f);
      lastPts := f.pts;
    }

    method ProcessAudioFrame(f: Frame, env: Env)
      modifies this
      ensures State() == ProcessAudio(old(State()), f, env)
    {
      hide OpenNext, Write;
      if !cfg.audio {
        return;
      }
      if sound.AacWaiting? && env.adts {
        sound := AacReady;
        if pending.Some? && open.None? {
          var key := pending.value;
          pending := None;
          var ok := OpenNextSegment(key, env);
          if ok {
            awaitKey := false;
            WriteFrame(key);
          }
        }
      }
      if open.None? || sound.NoSound? || sound.AacWaiting? {
        return;
      }
      WriteFrame(f);
    }

    method ProcessAwaitedFrame(f: Frame, env: Env)
      modifies this
      ensures State() == ProcessAwaited(old(State()), f, env)
    {
      hide OpenNext, Write;
      if !f.keyframe {
        return;
      }
      if !formatsReady {
        var captured := CaptureFormats(env);
        if !captured {
          return;
        }
      }
      if sound.AacWaiting? {
        pending := Some(f);
        return;
      }
      var ok := OpenNextSegment(f, env);
      if !ok {
        return;
      }
      pending, awaitKey := None, false;
      WriteFrame(f);
      lastPts := f.pts;
    }
  }
}
