/**
 The segment recorder (src/record/segment_recorder.cpp) with its rotation policy
 (src/record/duration_segment_policy.cpp): frames become keyframe-aligned
 segments, a retention window and the active day's playlist.

 The clock, the file system and the muxer answer through `Env`. Times are whole
 milliseconds; the list of media files on disk is the set `media`.
 */
module Recorder {
  import opened Base
  import opened Playlist

  datatype Kind = Audio | Video | Other
  datatype Frame = Frame(kind: Kind, keyframe: bool, pts: int)

  /** A media file: its day directory and its file name. */
  datatype Path = Path(day: string, name: string)

  datatype Kept = Kept(path: Path, ms: int, bytes: nat)

  datatype Config = Config(segmentSec: int, retainSec: int, maxBytesMb: int, audio: bool) {
    function SegmentMs(): int { segmentSec * 1000 }
    /** The policy's own reading of the setting. */
    function RotateMs(): int { if segmentSec > 0 then segmentSec * 1000 else 300000 }
  }

  /** `audio_format_` and `audio_config_ready_` together. */
  datatype Sound = NoSound | Plain | AacWaiting | AacReady

  datatype Stamp = Stamp(day: string, time: string)

  /** What the outside world answers while one frame is processed. */
  datatype Env = Env(
    capture: Option<Sound>,        // formats read from the keyframe, or not
    adts: bool,                    // the audio frame carries an AAC configuration
    now: Option<Stamp>,            // day directory made by `open_next_segment`
    later: Option<Stamp>,          // and again by `ensure_session`
    initOk: bool, indexOk: bool,   // its init segment and index file
    reinitOk: bool,                // a second init segment, when midnight fell in between
    openOk: bool,                  // the media file
    bytes: nat,                    // size of the file just closed
    stuck: set<Path>)              // files that cannot be unlinked

  /** One opened media file: the keyframe that opened it and the frames written to it. */
  datatype Segment = Segment(opener: Frame, frames: seq<Frame>)

  /** A close by rotation: first pts, pts of the keyframe that ended it, recorded duration. */
  datatype Rotation = Rotation(start: int, next: int, ms: int)

  datatype Rec = Rec(
    cfg: Config, playlist: List, kept: seq<Kept>, currentDay: string,
    sessionReady: bool, formatsReady: bool, sound: Sound, awaitKey: bool, pending: Option<Frame>,
    open: Option<Path>, startPts: int, lastPts: int, policyStart: int,
    disk: Disk, begins: nat, segments: seq<Segment>, rotations: seq<Rotation>)

  /** On disk: by day, the names its index file lists. */
  type Index = map<string, seq<string>>

  /** The media files and the index files of all days. */
  datatype Disk = Disk(media: set<Path>, index: Index)

  function Init(cfg: Config, disk: Disk): Rec {
    Rec(cfg, List("", 300, 0, [], false), [], "", false, false, NoSound, true, None,
        None, -1, -1, -1, disk, 0, [], [])
  }

  // --------------------------------------------------------------- retention

  function TotalMs(kept: seq<Kept>): int { if kept == [] then 0 else kept[0].ms + TotalMs(kept[1..]) }
  function TotalBytes(kept: seq<Kept>): nat { if kept == [] then 0 else kept[0].bytes + TotalBytes(kept[1..]) }

  predicate WithinLimits(cfg: Config, kept: seq<Kept>) {
    && (cfg.retainSec > 0 ==> TotalMs(kept) <= cfg.retainSec * 1000)
    && (cfg.maxBytesMb > 0 ==> TotalBytes(kept) <= cfg.maxBytesMb * 1024 * 1024)
  }

  /** `over_retain` */
  predicate Over(cfg: Config, kept: seq<Kept>) { |kept| > 1 && !WithinLimits(cfg, kept) }

  /**
   Where pruning stops: the longest suffix that is a single segment or meets both
   limits. The newest segment always survives.
   */
  function KeepFrom(cfg: Config, kept: seq<Kept>, from: nat): (k: nat)
    requires from <= |kept|
    ensures from <= k <= |kept| && (from < |kept| ==> k < |kept|)
    ensures |kept[k..]| <= 1 || WithinLimits(cfg, kept[k..])
    ensures forall i :: from <= i < k ==> |kept[i..]| > 1 && !WithinLimits(cfg, kept[i..])
    decreases |kept| - from
  {
    if Over(cfg, kept[from..]) then KeepFrom(cfg, kept, from + 1) else from
  }

  function DropAll(p: List, dropped: seq<Kept>): List
    decreases |dropped|
  {
    if dropped == [] then p else DropAll(DropFrontIf(p, dropped[0].path.name), dropped[1..])
  }

  function Paths(kept: seq<Kept>): set<Path> { set k | k in kept :: k.path }

  /** What the active playlist should list: the kept segments of the day, in order. */
  function Listing(kept: seq<Kept>, day: string): seq<Entry> {
    if kept == [] then []
    else
      var front := Listing(kept[..|kept| - 1], day);
      var k := kept[|kept| - 1];
      if k.path.day == day then front + [Entry(k.path.name, Clamp(k.ms))] else front
  }

  /** A playlist written to its day's index file. */
  function Saved(d: Disk, p: List): Disk {
    if p.Active() then d.(index := d.index[p.path := Names(p.entries)]) else d
  }

  /** `drop_front_if` rewrites the active list when it drops something. */
  function Delisted(d: Disk, p: List, k: Kept): Disk {
    var q := DropFrontIf(p, k.path.name);
    if q == p then d else Saved(d, q)
  }

  function Unlinked(d: Disk, k: Kept, stuck: set<Path>): Disk {
    if k.path in stuck then d else d.(media := d.media - {k.path})
  }

  predicate HasMedia(media: set<Path>, day: string) { exists q :: q in media && q.day == day }

  /** A day other than today loses its index with its last file, else its list is written anew. */
  function Tidied(d: Disk, rest: seq<Kept>, day: string, today: string): Disk {
    if day == today then d
    else if HasMedia(d.media, day) then d.(index := d.index[day := Names(Listing(rest, day))])
    else d.(index := d.index - {day})
  }

  /** One round of the prune loop: the list, the file, the file's day. */
  function Round(d: Disk, p: List, kept: seq<Kept>, today: string, stuck: set<Path>): Disk
    requires kept != []
  {
    Tidied(Unlinked(Delisted(d, p, kept[0]), kept[0], stuck), kept[1..], kept[0].path.day, today)
  }

  function PruneDisk(d: Disk, p: List, kept: seq<Kept>, n: nat, today: string, stuck: set<Path>): Disk
    requires n <= |kept|
    decreases n
  {
    if n == 0 then d
    else PruneDisk(Round(d, p, kept, today, stuck), DropFrontIf(p, kept[0].path.name), kept[1..], n - 1, today, stuck)
  }

  function Prune(s: Rec, stuck: set<Path>): Rec {
    var k := KeepFrom(s.cfg, s.kept, 0);
    s.(kept := s.kept[k..],
       playlist := DropAll(s.playlist, s.kept[..k]),
       disk := PruneDisk(s.disk, s.playlist, s.kept, k, s.currentDay, stuck))
  }

  // ------------------------------------------------------ closing and opening

  function RecordedMs(s: Rec): int {
    if s.startPts >= 0 && s.lastPts > s.startPts then s.lastPts - s.startPts else s.cfg.SegmentMs()
  }

  /** The closed file enters the playlist and the window. */
  function Remembered(s: Rec, env: Env): Rec
    requires s.open.Some?
  {
    var path := s.open.value;
    var p := Append(s.playlist, path.name, RecordedMs(s));
    s.(playlist := p, disk := Saved(s.disk, p), kept := s.kept + [Kept(path, RecordedMs(s), env.bytes)])
  }

  function CloseFile(s: Rec, env: Env): Rec
    requires s.open.Some?
  {
    Prune(Remembered(s, env), env.stuck)
  }

  function Ended(s: Rec): Rec {
    var p := Finish(s.playlist);
    if p == s.playlist then s else s.(playlist := p, disk := Saved(s.disk, p))
  }

  /** `close_current_segment` */
  function Close(s: Rec, endPlaylist: bool, env: Env): Rec {
    var t := if s.open.Some? then CloseFile(s, env) else s;
    var u := t.(open := None, startPts := -1, lastPts := -1);
    if endPlaylist then Ended(u) else u
  }

  /** The kept segments of a day, appended in order. */
  function AppendDay(p: List, kept: seq<Kept>, day: string): List
    decreases |kept|
  {
    if kept == [] then p
    else
      AppendDay(if kept[0].path.day == day then Append(p, kept[0].path.name, kept[0].ms) else p, kept[1..], day)
  }

  function BeginDay(s: Rec, day: string): Rec {
    var p := AppendDay(Begin(day, s.cfg.segmentSec), s.kept, day);
    s.(playlist := p, disk := Saved(s.disk, p),
       currentDay := day, sessionReady := true, begins := s.begins + 1)
  }

  function Capture(s: Rec, env: Env): (Rec, bool) {
    if env.capture.None? then (s, false)
    else (s.(sound := if s.cfg.audio then env.capture.value else NoSound, formatsReady := true), true)
  }

  /** `ensure_session` */
  function EnsureSession(s: Rec, env: Env): (Rec, bool) {
    if s.sessionReady then (s, true)
    else
      var (t, ok) := if s.formatsReady then (s, true) else Capture(s, env);
      if !ok || t.sound.AacWaiting? || env.later.None? || !env.initOk then (t, false)
      else if !env.indexOk then
        (t.(playlist := Begin(env.later.value.day, t.cfg.segmentSec), begins := t.begins + 1), false)
      else (BeginDay(t, env.later.value.day), true)
  }

  function StampText(st: Stamp): string { st.day + "_" + st.time }

  /** The n-th candidate: the stamp itself, then suffixes 2, 3, ... */
  function Candidate(st: Stamp, n: nat): string {
    StampText(st) + (if n == 1 then "" else "-" + Decimal(n)) + ".m4s"
  }

  /** `next_media_path`: the first free candidate, or the 99th when all are taken. */
  function NextName(media: set<Path>, st: Stamp, n: nat): (name: string)
    requires 1 <= n <= 99
    ensures Path(st.day, name) !in media <==> exists k :: n <= k <= 99 && Path(st.day, Candidate(st, k)) !in media
    ensures exists k :: n <= k <= 99 && name == Candidate(st, k)
    decreases 99 - n
  {
    if Path(st.day, Candidate(st, n)) in media && n < 99 then NextName(media, st, n + 1) else Candidate(st, n)
  }

  /** The day changed while a session was ready. */
  function LeaveDay(s: Rec, env: Env): Rec {
    Close(s, true, env).(sessionReady := false, currentDay := "")
  }

  function OpenFile(s: Rec, key: Frame, env: Env): (Rec, bool)
    requires env.now.Some?
  {
    if !env.openOk then (s, false)
    else
      var path := Path(env.now.value.day, NextName(s.disk.media, env.now.value, 1));
      (s.(open := Some(path), startPts := key.pts, lastPts := key.pts, policyStart := key.pts,
          disk := s.disk.(media := s.disk.media + {path}), segments := s.segments + [Segment(key, [])]), true)
  }

  /** A session on the day of `now` is made ready. */
  function Settle(s: Rec, env: Env): (Rec, bool)
    requires env.now.Some?
  {
    var day := env.now.value.day;
    var t := if s.sessionReady && day != s.currentDay then LeaveDay(s, env) else s;
    var (u, ok) := EnsureSession(t, env);
    if !ok || day == u.currentDay then (u, ok)
    else
      var v := Close(u, true, env);
      if env.reinitOk then (BeginDay(v, day), true) else (v.(sessionReady := false), false)
  }

  /** `open_next_segment` */
  function OpenNext(s: Rec, key: Frame, env: Env): (Rec, bool) {
    if env.now.None? then (s, false)
    else
      var (u, ok) := Settle(s, env);
      if ok then OpenFile(u, key, env) else (u, false)
  }

  // ------------------------------------------------------------------ frames

  function Write(s: Rec, f: Frame): Rec {
    if s.open.None? || s.segments == [] then s
    else
      var n := |s.segments| - 1;
      s.(segments := s.segments[n := s.segments[n].(frames := s.segments[n].frames + [f])])
  }

  predicate ShouldRotate(s: Rec, f: Frame) {
    s.policyStart >= 0 && f.pts - s.policyStart >= s.cfg.RotateMs()
  }

  /** `rotate_to_new_segment` */
  function Rotate(s: Rec, f: Frame, env: Env): Rec {
    var logged := if s.open.None? then s
                  else s.(rotations := s.rotations + [Rotation(s.startPts, f.pts, RecordedMs(s))]);
    var (t, ok) := OpenNext(Close(logged, false, env).(awaitKey := false), f, env);
    if !ok then t.(awaitKey := true) else Write(t, f)
  }

  function ProcessAudio(s: Rec, f: Frame, env: Env): Rec {
    if !s.cfg.audio then s
    else
      var ready := if s.sound.AacWaiting? && env.adts then OpenPending(s.(sound := AacReady), env) else s;
      if ready.open.None? || ready.sound.NoSound? || ready.sound.AacWaiting? then ready else Write(ready, f)
  }

  /** The first AAC configuration releases the keyframe that waited for it. */
  function OpenPending(s: Rec, env: Env): Rec {
    if s.pending.None? || s.open.Some? then s
    else
      var (t, ok) := OpenNext(s.(pending := None), s.pending.value, env);
      if ok then Write(t.(awaitKey := false), s.pending.value) else t
  }

  function ProcessAwaited(s: Rec, f: Frame, env: Env): Rec {
    if !f.keyframe then s
    else
      var (t, ok) := if s.formatsReady then (s, true) else Capture(s, env);
      if !ok then t
      else if t.sound.AacWaiting? then t.(pending := Some(f))
      else
        var (u, done) := OpenNext(t, f, env);
        if !done then u else Write(u.(pending := None, awaitKey := false), f).(lastPts := f.pts)
  }

  /** `process_frame` */
  function Process(s: Rec, f: Frame, env: Env): Rec {
    if f.kind.Audio? then ProcessAudio(s, f, env)
    else if f.kind.Other? then s
    else if s.awaitKey then ProcessAwaited(s, f, env)
    else if f.keyframe && ShouldRotate(s, f) then Rotate(s, f, env)
    else if s.open.None? then s.(awaitKey := true)
    else Write(s, f).(lastPts := f.pts)
  }

  // -------------------------------------------------------------------- runs

  datatype Event =
    | FrameEvent(f: Frame, env: Env)
    | StopEvent(env: Env)
    | StartEvent(found: seq<Kept>, stuck: set<Path>)   // the directory scan, then a prune

  /** A day name as the recorder formats it: no `_`, so the stamp shows where it ends. */
  predicate DayName(day: string) { day != "" && '_' !in day }

  predicate StampOk(st: Option<Stamp>) { st.Some? ==> DayName(st.value.day) }

  /** Some candidate name is still free, as when fewer than 99 files share a second. */
  ghost predicate NameLeft(media: set<Path>, st: Option<Stamp>) {
    st.Some? ==> exists k :: 1 <= k <= 99 && Path(st.value.day, Candidate(st.value, k)) !in media
  }

  ghost predicate Possible(s: Rec, e: Event) {
    match e
    case FrameEvent(f, env) => StampOk(env.now) && StampOk(env.later) && NameLeft(s.disk.media, env.now)
    case StopEvent(env) => true
    case StartEvent(found, stuck) =>
      !s.sessionReady && s.open.None? && Paths(found) <= s.disk.media && Distinct(found)
  }

  function Step(s: Rec, e: Event): Rec {
    match e
    case FrameEvent(f, env) => Process(s, f, env)
    case StopEvent(env) => Close(s, true, env).(sessionReady := false)
    case StartEvent(found, stuck) => Prune(s.(kept := found), stuck)
  }

  ghost predicate Run(s: Rec, events: seq<Event>, s': Rec)
    decreases |events|
  {
    if events == [] then s' == s
    else Possible(s, events[0]) && Run(Step(s, events[0]), events[1..], s')
  }

  ghost predicate Distinct(kept: seq<Kept>) {
    forall i, j :: 0 <= i < j < |kept| ==> kept[i].path != kept[j].path
  }

  // ------------------------------------------- the playlist mirrors the window

  /** File names begin with their day, so no two days share one (see `SameNameSameFile`). */
  predicate WellNamed(p: Path) { DayName(p.day) && p.day + "_" <= p.name }

  ghost predicate FilesOk(s: Rec) {
    && (forall p :: p in s.disk.media ==> WellNamed(p))
    && Paths(s.kept) <= s.disk.media
    && Distinct(s.kept)
    && (s.open.Some? ==> s.open.value in s.disk.media && s.open.value !in Paths(s.kept))
  }

  ghost predicate SessionOk(s: Rec) {
    && (s.sessionReady ==>
          && s.playlist.Active() && s.playlist.path == s.currentDay
          && s.playlist.entries == Listing(s.kept, s.currentDay)
          && s.currentDay in s.disk.index && s.disk.index[s.currentDay] == Names(s.playlist.entries))
    && (s.open.Some? ==> s.sessionReady && s.open.value.day == s.currentDay)
  }

  ghost predicate WindowOk(s: Rec) { FilesOk(s) && SessionOk(s) }

  lemma SameNameSameFile(p: Path, q: Path)
    requires WellNamed(p) && WellNamed(q) && p.name == q.name
    ensures p == q
  {
    DayEndsAtUnderscore(p);
    DayEndsAtUnderscore(q);
  }

  lemma DayEndsAtUnderscore(p: Path)
    requires WellNamed(p)
    ensures |p.day| < |p.name| && p.name[|p.day|] == '_' && p.name[..|p.day|] == p.day
    ensures forall i :: 0 <= i < |p.day| ==> p.name[i] != '_'
  {
  }

  lemma {:induction false} ListingFront(kept: seq<Kept>, day: string)
    requires kept != []
    ensures Listing(kept, day)
         == (if kept[0].path.day == day then [Entry(kept[0].path.name, Clamp(kept[0].ms))] else [])
            + Listing(kept[1..], day)
    decreases |kept|
  {
    if |kept| > 1 {
      var n := |kept| - 1;
      ListingFront(kept[..n], day);
      assert kept[..n][1..] == kept[1..][..n - 1];
    }
  }

  lemma {:induction false} ListingNames(kept: seq<Kept>, day: string, e: Entry)
    requires e in Listing(kept, day)
    ensures exists i :: 0 <= i < |kept| && kept[i].path == Path(day, e.name)
  {
    var n := |kept| - 1;
    if e in Listing(kept[..n], day) {
      ListingNames(kept[..n], day, e);
    }
  }

  /** Dropping the oldest segment drops the front entry exactly when it is listed. */
  lemma DropOldest(p: List, kept: seq<Kept>, day: string)
    requires kept != [] && Distinct(kept) && (forall k :: k in kept ==> WellNamed(k.path))
    requires p.entries == Listing(kept, day)
    ensures DropFrontIf(p, kept[0].path.name).entries == Listing(kept[1..], day)
  {
    ListingFront(kept, day);
    if kept[0].path.day != day && p.entries != [] {
      ListingNames(kept, day, p.entries[0]);
      var i :| 0 <= i < |kept| && kept[i].path == Path(day, p.entries[0].name);
      if p.entries[0].name == kept[0].path.name { SameNameSameFile(kept[0].path, kept[i].path); }
    }
  }

  lemma {:induction false} DropAllOldest(p: List, kept: seq<Kept>, day: string, n: nat)
    requires n <= |kept| && Distinct(kept) && (forall k :: k in kept ==> WellNamed(k.path))
    requires p.entries == Listing(kept, day)
    ensures DropAll(p, kept[..n]).entries == Listing(kept[n..], day)
    decreases n
  {
    hide Listing, DropFrontIf, WellNamed;
    if n > 0 {
      DropOldest(p, kept, day);
      var rest := kept[1..];
      assert kept[..n][1..] == rest[..n - 1] && kept[n..] == rest[n - 1..];
      DropAllOldest(DropFrontIf(p, kept[0].path.name), rest, day, n - 1);
    }
  }

  lemma {:induction false} DropAllPath(p: List, dropped: seq<Kept>)
    ensures DropAll(p, dropped).path == p.path
    decreases |dropped|
  {
    if dropped != [] { DropAllPath(DropFrontIf(p, dropped[0].path.name), dropped[1..]); }
  }

  lemma {:induction false} AppendDayLists(p: List, kept: seq<Kept>, day: string)
    requires p.Active() && forall k :: k in kept ==> WellNamed(k.path)
    ensures AppendDay(p, kept, day).path == p.path
    ensures AppendDay(p, kept, day).entries == p.entries + Listing(kept, day)
    decreases |kept|
  {
    if kept != [] {
      ListingFront(kept, day);
      AppendDayLists(if kept[0].path.day == day then Append(p, kept[0].path.name, kept[0].ms) else p, kept[1..], day);
    }
  }

  lemma {:induction false} PruneDiskFiles(d: Disk, p: List, kept: seq<Kept>, n: nat, today: string, stuck: set<Path>)
    requires n <= |kept|
    ensures PruneDisk(d, p, kept, n, today, stuck).media == d.media - (Paths(kept[..n]) - stuck)
    decreases n
  {
    hide DropFrontIf, Listing, HasMedia;
    if n > 0 {
      var e := Round(d, p, kept, today, stuck);
      assert e.media == d.media - ({kept[0].path} - stuck);
      PruneDiskFiles(e, DropFrontIf(p, kept[0].path.name), kept[1..], n - 1, today, stuck);
      PathsFirst(kept, n);
    }
  }

  lemma PathsFirst(kept: seq<Kept>, n: nat)
    requires 0 < n <= |kept|
    ensures Paths(kept[..n]) == {kept[0].path} + Paths(kept[1..][..n - 1])
  {
    assert kept[..n] == [kept[0]] + kept[1..][..n - 1];
  }

  /** Today's index file follows the active list through a round. */
  lemma RoundShows(d: Disk, p: List, kept: seq<Kept>, today: string, stuck: set<Path>)
    requires kept != [] && p.Active() && p.path == today && today in d.index && d.index[today] == Names(p.entries)
    ensures var e := Round(d, p, kept, today, stuck);
            today in e.index && e.index[today] == Names(DropFrontIf(p, kept[0].path.name).entries)
  {
    hide Names, Listing, HasMedia;
  }

  lemma {:induction false} PruneShows(d: Disk, p: List, kept: seq<Kept>, n: nat, today: string, stuck: set<Path>)
    requires n <= |kept| && p.Active() && p.path == today && today in d.index && d.index[today] == Names(p.entries)
    ensures var e := PruneDisk(d, p, kept, n, today, stuck);
            today in e.index && e.index[today] == Names(DropAll(p, kept[..n]).entries)
    decreases n
  {
    hide Names, Round;
    if n > 0 {
      RoundShows(d, p, kept, today, stuck);
      PruneShows(Round(d, p, kept, today, stuck), DropFrontIf(p, kept[0].path.name), kept[1..], n - 1, today, stuck);
      assert kept[..n][1..] == kept[1..][..n - 1];
    }
  }

  lemma PruneKeepsFiles(s: Rec, stuck: set<Path>)
    requires FilesOk(s)
    ensures FilesOk(Prune(s, stuck))
  {
    hide PruneDisk, DropAll, WellNamed;
    PruneDiskFiles(s.disk, s.playlist, s.kept, KeepFrom(s.cfg, s.kept, 0), s.currentDay, stuck);
  }

  lemma PruneKeepsSession(s: Rec, stuck: set<Path>)
    requires FilesOk(s) && SessionOk(s)
    ensures SessionOk(Prune(s, stuck))
  {
    hide PruneDisk, Names, Listing;
    var k := KeepFrom(s.cfg, s.kept, 0);
    if s.sessionReady {
      assert forall x :: x in s.kept ==> x.path in Paths(s.kept);
      PruneShows(s.disk, s.playlist, s.kept, k, s.currentDay, stuck);
      DropAllOldest(s.playlist, s.kept, s.currentDay, k);
      DropAllPath(s.playlist, s.kept[..k]);
    }
  }

  lemma PruneKeepsWindow(s: Rec, stuck: set<Path>)
    requires WindowOk(s)
    ensures WindowOk(Prune(s, stuck))
  {
    hide FilesOk, SessionOk, Prune;
    PruneKeepsFiles(s, stuck);
    PruneKeepsSession(s, stuck);
  }

  lemma RememberedKeepsWindow(s: Rec, env: Env)
    requires WindowOk(s) && s.open.Some?
    ensures WindowOk(Remembered(s, env).(open := None))
  {
    hide WellNamed, Names;
    assert s.open.value in s.disk.media && WellNamed(s.open.value);
    NamedAfterDay(s.open.value);
  }

  lemma NamedAfterDay(p: Path)
    requires WellNamed(p)
    ensures p.name != ""
  {
  }

  /** What a prune leaves alone. */
  lemma PruneFacts(s: Rec, stuck: set<Path>)
    ensures Prune(s.(open := None), stuck) == Prune(s, stuck).(open := None)
    ensures Prune(s, stuck).disk.media <= s.disk.media
  {
    PruneDiskFiles(s.disk, s.playlist, s.kept, KeepFrom(s.cfg, s.kept, 0), s.currentDay, stuck);
  }

  lemma EndedKeepsWindow(s: Rec)
    requires WindowOk(s)
    ensures WindowOk(Ended(s)) && Ended(s).open == s.open && Ended(s).disk.media == s.disk.media
  {
    hide FilesOk, Names, Listing;
    FilesIgnoreList(s);
  }

  lemma FilesIgnoreList(s: Rec)
    requires FilesOk(s)
    ensures FilesOk(Ended(s))
  {
  }

  lemma CloseKeepsWindow(s: Rec, endPlaylist: bool, env: Env)
    requires WindowOk(s)
    ensures WindowOk(Close(s, endPlaylist, env)) && Close(s, endPlaylist, env).open.None?
    ensures Close(s, endPlaylist, env).disk.media <= s.disk.media
  {
    hide WindowOk, Prune, Ended;
    var t := if s.open.Some? then CloseFile(s, env) else s;
    var u := t.(open := None, startPts := -1, lastPts := -1);
    if s.open.Some? {
      RememberedKeepsWindow(s, env);
      PruneKeepsWindow(Remembered(s, env).(open := None), env.stuck);
      PruneFacts(Remembered(s, env), env.stuck);
      SameWindow(t.(open := None), u);
    } else {
      SameWindow(s, u);
    }
    EndedKeepsWindow(u);
  }

  lemma BeginKeepsWindow(s: Rec, day: string)
    requires FilesOk(s) && s.open.None? && DayName(day)
    ensures WindowOk(BeginDay(s, day))
  {
    AppendDayLists(Begin(day, s.cfg.segmentSec), s.kept, day);
  }

  lemma OpenFileKeepsWindow(s: Rec, key: Frame, env: Env)
    requires WindowOk(s) && s.open.None? && s.sessionReady
    requires env.now.Some? && StampOk(env.now) && NameLeft(s.disk.media, env.now) && env.now.value.day == s.currentDay
    ensures WindowOk(OpenFile(s, key, env).0)
  {
    hide NextName, Candidate, NameLeft;
    if env.openOk { NewNameIsGood(s.disk.media, env.now.value); }
  }

  lemma NewNameIsGood(media: set<Path>, st: Stamp)
    requires NameLeft(media, Some(st))
    ensures Path(st.day, NextName(media, st, 1)) !in media && st.day + "_" <= NextName(media, st, 1)
  {
    hide Candidate;
    var name := NextName(media, st, 1);
    var k :| 1 <= k <= 99 && name == Candidate(st, k);
    CandidateStarts(st, k);
  }

  lemma CandidateStarts(st: Stamp, k: nat)
    ensures st.day + "_" <= Candidate(st, k)
  {
  }

  lemma EnsureKeepsWindow(s: Rec, env: Env)
    requires WindowOk(s) && s.open.None? && StampOk(env.later)
    ensures var (t, ok) := EnsureSession(s, env);
            WindowOk(t) && t.open.None? && t.disk.media == s.disk.media && (ok ==> t.sessionReady)
  {
    if !s.sessionReady {
      var t := if s.formatsReady then s else Capture(s, env).0;
      if env.later.Some? { BeginKeepsWindow(t, env.later.value.day); }
    }
  }

  lemma SettleKeepsWindow(s: Rec, env: Env)
    requires WindowOk(s) && s.open.None? && env.now.Some? && StampOk(env.now) && StampOk(env.later)
    ensures var (u, ok) := Settle(s, env);
            && WindowOk(u) && u.open.None? && u.disk.media <= s.disk.media
            && (ok ==> u.sessionReady && u.currentDay == env.now.value.day)
  {
    hide WindowOk, BeginDay, EnsureSession, Close;
    var day := env.now.value.day;
    var t := if s.sessionReady && day != s.currentDay then LeaveDay(s, env) else s;
    CloseKeepsWindow(s, true, env);
    IdleKeepsWindow(Close(s, true, env), "");
    EnsureKeepsWindow(t, env);
    var (u, ok) := EnsureSession(t, env);
    if ok && day != u.currentDay {
      CloseKeepsWindow(u, true, env);
      var v := Close(u, true, env);
      IdleKeepsWindow(v, v.currentDay);
      assert FilesOk(v) by { WindowHasFiles(v); }
      BeginKeepsWindow(v, day);
      BeginDayFields(v, day);
    }
  }

  lemma WindowHasFiles(s: Rec)
    requires WindowOk(s)
    ensures FilesOk(s)
  {
  }

  lemma OpenNextKeepsWindow(s: Rec, key: Frame, env: Env)
    requires WindowOk(s) && s.open.None?
    requires StampOk(env.now) && StampOk(env.later) && NameLeft(s.disk.media, env.now)
    ensures WindowOk(OpenNext(s, key, env).0)
  {
    hide WindowOk, Settle, OpenFile;
    if env.now.Some? {
      SettleKeepsWindow(s, env);
      var (u, ok) := Settle(s, env);
      if ok { OpenFileKeepsWindow(u, key, env); }
    }
  }

  lemma BeginDayFields(s: Rec, day: string)
    ensures var t := BeginDay(s, day);
            t.open == s.open && t.disk.media == s.disk.media && t.sessionReady && t.currentDay == day
  {
  }

  /** A window without a session promises nothing about the playlist. */
  lemma IdleKeepsWindow(s: Rec, day: string)
    requires WindowOk(s) && s.open.None?
    ensures WindowOk(s.(sessionReady := false, currentDay := day))
    ensures WindowOk(s.(sessionReady := false))
  {
  }

  /** Fields the window does not look at. */
  lemma SameWindow(s: Rec, t: Rec)
    requires WindowOk(s) && t.playlist == s.playlist && t.kept == s.kept && t.currentDay == s.currentDay
    requires t.sessionReady == s.sessionReady && t.open == s.open && t.disk == s.disk
    ensures WindowOk(t)
  {
  }

  lemma StepKeepsWindow(s: Rec, e: Event)
    requires WindowOk(s) && Possible(s, e) && (s.open.Some? ==> !s.awaitKey)
    ensures WindowOk(Step(s, e))
  {
    match e
    case StopEvent(env) => CloseKeepsWindow(s, true, env);
    case StartEvent(found, stuck) => PruneKeepsWindow(s.(kept := found), stuck);
    case FrameEvent(f, env) => ProcessKeepsWindow(s, f, env);
  }

  lemma AudioKeepsWindow(s: Rec, f: Frame, env: Env)
    requires WindowOk(s) && (s.open.Some? ==> !s.awaitKey)
    requires StampOk(env.now) && StampOk(env.later) && NameLeft(s.disk.media, env.now)
    ensures WindowOk(ProcessAudio(s, f, env))
  {
    hide WindowOk, OpenNext;
    var r := s.(sound := AacReady);
    SameWindow(s, r);
    if r.pending.Some? && r.open.None? {
      SameWindow(r, r.(pending := None));
      OpenNextKeepsWindow(r.(pending := None), r.pending.value, env);
      var t := OpenNext(r.(pending := None), r.pending.value, env).0;
      SameWindow(t, OpenPending(r, env));
    }
    var ready := if s.sound.AacWaiting? && env.adts then OpenPending(r, env) else s;
    SameWindow(ready, Write(ready, f));
  }

  lemma AwaitedKeepsWindow(s: Rec, f: Frame, env: Env)
    requires WindowOk(s) && s.open.None?
    requires StampOk(env.now) && StampOk(env.later) && NameLeft(s.disk.media, env.now)
    ensures WindowOk(ProcessAwaited(s, f, env))
  {
    hide WindowOk, OpenNext;
    var t := if s.formatsReady then s else Capture(s, env).0;
    SameWindow(s, t);
    SameWindow(t, t.(pending := Some(f)));
    OpenNextKeepsWindow(t, f, env);
    var u := OpenNext(t, f, env).0;
    SameWindow(u, Write(u.(pending := None, awaitKey := false), f).(lastPts := f.pts));
  }

  lemma RotateKeepsWindow(s: Rec, f: Frame, env: Env)
    requires WindowOk(s)
    requires StampOk(env.now) && StampOk(env.later) && NameLeft(s.disk.media, env.now)
    ensures WindowOk(Rotate(s, f, env))
  {
    hide WindowOk, OpenNext, Close;
    var r := if s.open.None? then s
             else s.(rotations := s.rotations + [Rotation(s.startPts, f.pts, RecordedMs(s))]);
    SameWindow(s, r);
    CloseKeepsWindow(r, false, env);
    var c := Close(r, false, env).(awaitKey := false);
    SameWindow(Close(r, false, env), c);
    OpenNextKeepsWindow(c, f, env);
    SameWindow(OpenNext(c, f, env).0, Rotate(s, f, env));
  }

  lemma ProcessKeepsWindow(s: Rec, f: Frame, env: Env)
    requires WindowOk(s) && (s.open.Some? ==> !s.awaitKey)
    requires StampOk(env.now) && StampOk(env.later) && NameLeft(s.disk.media, env.now)
    ensures WindowOk(Process(s, f, env))
  {
    hide WindowOk, ProcessAudio, ProcessAwaited, Rotate;
    if f.kind.Audio? {
      AudioKeepsWindow(s, f, env);
    } else if f.kind.Video? {
      if s.awaitKey {
        AwaitedKeepsWindow(s, f, env);
      } else if f.keyframe && ShouldRotate(s, f) {
        RotateKeepsWindow(s, f, env);
      } else {
        SameWindow(s, Process(s, f, env));
      }
    }
  }

  // ----------------------------------------- keyframes first, and on schedule

  ghost predicate SegmentOk(seg: Segment) {
    && seg.opener.kind.Video? && seg.opener.keyframe
    && seg.frames != [] && seg.frames[0] == seg.opener
  }

  ghost predicate WritesOk(s: Rec) {
    && (s.open.Some? ==> !s.awaitKey && s.segments != [])
    && (s.pending.Some? ==> s.pending.value.kind.Video? && s.pending.value.keyframe)
    && forall i :: 0 <= i < |s.segments| ==> SegmentOk(s.segments[i])
  }

  /** No file is open in `t`, and what the window does not look at is as in `s`. */
  ghost predicate Idle(s: Rec, t: Rec) {
    && t.open.None? && t.cfg == s.cfg && t.rotations == s.rotations && t.segments == s.segments
    && t.pending == s.pending && t.awaitKey == s.awaitKey
    && (s.formatsReady ==> t.formatsReady && t.sound == s.sound)
  }

  lemma EnsureFacts(s: Rec, env: Env)
    requires s.open.None?
    ensures Idle(s, EnsureSession(s, env).0)
  {
  }

  /** `t` is `s` with a file just opened by `key`. */
  ghost predicate Opened(s: Rec, t: Rec, key: Frame) {
    && Idle(s, t.(open := None, segments := s.segments))
    && t.open.Some? && t.segments == s.segments + [Segment(key, [])]
    && t.startPts == t.lastPts == t.policyStart == key.pts
  }

  lemma OpenFileFacts(s: Rec, t: Rec, key: Frame, env: Env)
    requires Idle(s, t) && env.now.Some?
    ensures var (u, ok) := OpenFile(t, key, env); if ok then Opened(s, u, key) else Idle(s, u)
  {
    hide NextName;
  }

  lemma SettleFacts(s: Rec, env: Env)
    requires s.open.None? && env.now.Some?
    ensures Idle(s, Settle(s, env).0)
  {
    hide Close, AppendDay, EnsureSession;
    CloseFacts(s, true, env);
    var t := if s.sessionReady && env.now.value.day != s.currentDay then LeaveDay(s, env) else s;
    EnsureFacts(t, env);
    CloseFacts(EnsureSession(t, env).0, true, env);
  }

  /** What opening does to the fields that the window does not look at. */
  lemma OpenNextFacts(s: Rec, key: Frame, env: Env)
    requires s.open.None?
    ensures var (t, ok) := OpenNext(s, key, env); if ok then Opened(s, t, key) else Idle(s, t)
  {
    hide Settle, OpenFile, Opened;
    if env.now.Some? {
      SettleFacts(s, env);
      OpenFileFacts(s, Settle(s, env).0, key, env);
    }
  }

  lemma WriteKeepsWrites(s: Rec, key: Frame, seen: seq<Segment>)
    requires s.open.Some? && s.segments == seen + [Segment(key, [])] && key.kind.Video? && key.keyframe
    requires forall i :: 0 <= i < |seen| ==> SegmentOk(seen[i])
    ensures forall i :: 0 <= i < |Write(s, key).segments| ==> SegmentOk(Write(s, key).segments[i])
  {
  }

  lemma OpenAndWrite(s: Rec, key: Frame, env: Env)
    requires WritesOk(s) && s.open.None? && key.kind.Video? && key.keyframe
    ensures var (t, ok) := OpenNext(s, key, env);
            && (ok ==> WritesOk(Write(t.(awaitKey := false), key)))
            && (!ok ==> WritesOk(t))
  {
    hide OpenNext, SegmentOk;
    OpenNextFacts(s, key, env);
    var (t, ok) := OpenNext(s, key, env);
    if ok { WriteKeepsWrites(t.(awaitKey := false), key, s.segments); }
  }

  lemma CloseFacts(s: Rec, endPlaylist: bool, env: Env)
    ensures var t := Close(s, endPlaylist, env);
            && t.open.None? && t.cfg == s.cfg && t.segments == s.segments && t.rotations == s.rotations
            && t.pending == s.pending && t.awaitKey == s.awaitKey && t.formatsReady == s.formatsReady
            && t.sound == s.sound && t.sessionReady == s.sessionReady
  {
  }

  lemma AudioKeepsWrites(s: Rec, f: Frame, env: Env)
    requires WritesOk(s)
    ensures WritesOk(ProcessAudio(s, f, env))
  {
    hide SegmentOk, OpenNext;
    var r := s.(sound := AacReady);
    if r.pending.Some? && r.open.None? { OpenAndWrite(r.(pending := None), r.pending.value, env); }
    var ready := if s.sound.AacWaiting? && env.adts then OpenPending(r, env) else s;
    WriteMoreKeepsWrites(ready, f);
  }

  lemma AwaitedKeepsWrites(s: Rec, f: Frame, env: Env)
    requires WritesOk(s) && s.awaitKey && f.kind.Video?
    ensures WritesOk(ProcessAwaited(s, f, env))
  {
    hide SegmentOk, OpenNext;
    var t := if s.formatsReady then s else Capture(s, env).0;
    if f.keyframe {
      OpenAndWrite(t, f, env);
    }
  }

  lemma RotateKeepsWrites(s: Rec, f: Frame, env: Env)
    requires WritesOk(s) && !s.awaitKey && f.kind.Video? && f.keyframe
    ensures WritesOk(Rotate(s, f, env))
  {
    hide SegmentOk, OpenNext, Close;
    var r := if s.open.None? then s
             else s.(rotations := s.rotations + [Rotation(s.startPts, f.pts, RecordedMs(s))]);
    CloseFacts(r, false, env);
    OpenAndWrite(Close(r, false, env).(awaitKey := false), f, env);
    OpenNextFacts(Close(r, false, env).(awaitKey := false), f, env);
  }

  lemma StepKeepsWrites(s: Rec, e: Event)
    requires WritesOk(s)
    ensures WritesOk(Step(s, e))
  {
    hide SegmentOk, OpenNext, Close, ProcessAudio, ProcessAwaited, Rotate;
    match e
    case StopEvent(env) => CloseFacts(s, true, env);
    case StartEvent(found, stuck) =>
    case FrameEvent(f, env) =>
      if f.kind.Audio? {
        AudioKeepsWrites(s, f, env);
      } else if f.kind.Video? {
        if s.awaitKey {
          AwaitedKeepsWrites(s, f, env);
        } else if f.keyframe && ShouldRotate(s, f) {
          RotateKeepsWrites(s, f, env);
        } else {
          WriteMoreKeepsWrites(s, f);
        }
      }
  }

  lemma WriteMoreKeepsWrites(s: Rec, f: Frame)
    requires WritesOk(s)
    ensures WritesOk(Write(s, f))
  {
  }

  /** The processed video frames so far: the newest pts and the newest keyframe's. */
  datatype Clock = Clock(maxPts: int, lastKey: Option<int>)

  function Tick(c: Clock, e: Event): Clock {
    if !e.FrameEvent? || !e.f.kind.Video? then c
    else Clock(e.f.pts, if e.f.keyframe then Some(e.f.pts) else c.lastKey)
  }

  /** Timestamps never fall and keyframes come at most `gap` ms apart. */
  predicate Paced(c: Clock, e: Event, gap: int) {
    e.FrameEvent? && e.f.kind.Video? ==>
      e.f.pts >= 0 && e.f.pts >= c.maxPts && (e.f.keyframe && c.lastKey.Some? ==> e.f.pts - c.lastKey.value <= gap)
  }

  /** It lasted the configured time up to the next keyframe, and its record is not much longer. */
  predicate RotationOk(cfg: Config, gap: int, r: Rotation) {
    cfg.RotateMs() <= r.next - r.start < cfg.RotateMs() + gap && r.ms < cfg.RotateMs() + gap
  }

  ghost predicate TimingOk(s: Rec, c: Clock, gap: int) {
    && (s.open.Some? ==>
          && 0 <= s.startPts == s.policyStart <= s.lastPts <= c.maxPts
          && c.lastKey.Some? && s.startPts <= c.lastKey.value && c.lastKey.value - s.startPts < s.cfg.RotateMs())
    && (s.pending.Some? ==>
          && s.formatsReady && s.sound.AacWaiting? && s.awaitKey
          && c.lastKey == Some(s.pending.value.pts) && 0 <= s.pending.value.pts <= c.maxPts)
    && forall i :: 0 <= i < |s.rotations| ==> RotationOk(s.cfg, gap, s.rotations[i])
  }

  lemma WriteFacts(s: Rec, f: Frame)
    ensures Write(s, f) == s.(segments := Write(s, f).segments)
  {
  }

  lemma RotateKeepsTiming(s: Rec, c: Clock, f: Frame, env: Env, gap: int)
    requires TimingOk(s, c, gap) && !s.awaitKey && f.kind.Video? && f.keyframe && ShouldRotate(s, f)
    requires Paced(c, FrameEvent(f, env), gap)
    ensures TimingOk(Rotate(s, f, env), Tick(c, FrameEvent(f, env)), gap)
    ensures Rotate(s, f, env).cfg == s.cfg
  {
    hide OpenNext, Close;
    var r := if s.open.None? then s
             else s.(rotations := s.rotations + [Rotation(s.startPts, f.pts, RecordedMs(s))]);
    CloseFacts(r, false, env);
    OpenNextFacts(Close(r, false, env).(awaitKey := false), f, env);
  }

  lemma AwaitedKeepsTiming(s: Rec, c: Clock, f: Frame, env: Env, gap: int)
    requires TimingOk(s, c, gap) && s.awaitKey && s.open.None? && f.kind.Video?
    requires Paced(c, FrameEvent(f, env), gap)
    ensures TimingOk(ProcessAwaited(s, f, env), Tick(c, FrameEvent(f, env)), gap)
    ensures ProcessAwaited(s, f, env).cfg == s.cfg
  {
    hide OpenNext, Write;
    if f.keyframe {
      var t := if s.formatsReady then s else Capture(s, env).0;
      OpenNextFacts(t, f, env);
      WriteFacts(OpenNext(t, f, env).0.(pending := None, awaitKey := false), f);
    }
  }

  lemma AudioKeepsTiming(s: Rec, c: Clock, f: Frame, env: Env, gap: int)
    requires TimingOk(s, c, gap) && (s.open.Some? ==> !s.awaitKey)
    ensures TimingOk(ProcessAudio(s, f, env), c, gap)
    ensures ProcessAudio(s, f, env).cfg == s.cfg
  {
    hide OpenNext, Write;
    var r := s.(sound := AacReady);
    var ready := if s.sound.AacWaiting? && env.adts then OpenPending(r, env) else s;
    if r.pending.Some? && r.open.None? {
      OpenNextFacts(r.(pending := None), r.pending.value, env);
      WriteFacts(OpenNext(r.(pending := None), r.pending.value, env).0.(awaitKey := false), r.pending.value);
    }
    WriteFacts(ready, f);
  }

  lemma StepKeepsTiming(s: Rec, c: Clock, e: Event, gap: int)
    requires TimingOk(s, c, gap) && (s.open.Some? ==> !s.awaitKey) && Paced(c, e, gap)
    ensures TimingOk(Step(s, e), Tick(c, e), gap)
    ensures Step(s, e).cfg == s.cfg
  {
    hide OpenNext, Close, Write, ProcessAudio, ProcessAwaited, Rotate;
    match e
    case StopEvent(env) => CloseFacts(s, true, env);
    case StartEvent(found, stuck) =>
    case FrameEvent(f, env) =>
      if f.kind.Audio? {
        AudioKeepsTiming(s, c, f, env, gap);
      } else if f.kind.Video? {
        if s.awaitKey {
          AwaitedKeepsTiming(s, c, f, env, gap);
        } else if f.keyframe && ShouldRotate(s, f) {
          RotateKeepsTiming(s, c, f, env, gap);
        } else {
          WriteFacts(s, f);
        }
      }
  }

  // ------------------------------------------- sequence numbers while recording

  /** Unless a playlist was begun anew, numbers have only slid. */
  ghost predicate Slid(s: Rec, t: Rec) {
    s.begins <= t.begins && (s.begins == t.begins ==> Slides(s.playlist, t.playlist))
  }

  lemma SlidTransitive(s: Rec, t: Rec, u: Rec)
    requires Slid(s, t) && Slid(t, u)
    ensures Slid(s, u)
  {
  }

  lemma OneOpSlides(p: List, op: Op)
    ensures Slides(p, Do(p, op))
  {
  }

  lemma {:induction false} DropAllSlides(p: List, dropped: seq<Kept>)
    ensures Slides(p, DropAll(p, dropped))
    decreases |dropped|
  {
    if dropped != [] {
      var q := DropFrontIf(p, dropped[0].path.name);
      DropAllSlides(q, dropped[1..]);
    }
  }

  lemma PruneSlides(s: Rec, stuck: set<Path>)
    ensures Slid(s, Prune(s, stuck))
  {
    DropAllSlides(s.playlist, s.kept[..KeepFrom(s.cfg, s.kept, 0)]);
  }

  lemma CloseSlides(s: Rec, endPlaylist: bool, env: Env)
    ensures Slid(s, Close(s, endPlaylist, env))
  {
    hide Slides, Prune, Append, Finish;
    var t := if s.open.Some? then CloseFile(s, env) else s;
    if s.open.Some? {
      var u := Remembered(s, env);
      OneOpSlides(s.playlist, AppendOp(s.open.value.name, RecordedMs(s)));
      PruneSlides(u, env.stuck);
      SlidTransitive(s, u, t);
    }
    OneOpSlides(t.playlist, FinishOp);
    SlidTransitive(s, t, Close(s, endPlaylist, env));
  }

  lemma SlidesReflexive(p: List)
    ensures Slides(p, p)
  {
  }

  lemma EnsureSlides(s: Rec, env: Env)
    ensures Slid(s, EnsureSession(s, env).0)
  {
  }

  lemma SettleSlides(s: Rec, env: Env)
    requires env.now.Some?
    ensures Slid(s, Settle(s, env).0)
  {
    hide Slides, Close, EnsureSession;
    CloseSlides(s, true, env);
    var t := if s.sessionReady && env.now.value.day != s.currentDay then LeaveDay(s, env) else s;
    EnsureSlides(t, env);
    var u := EnsureSession(t, env).0;
    SlidTransitive(s, t, u);
    CloseSlides(u, true, env);
    SlidTransitive(s, u, Close(u, true, env));
  }

  lemma OpenNextSlides(s: Rec, key: Frame, env: Env)
    ensures Slid(s, OpenNext(s, key, env).0)
  {
    hide Slides, Settle;
    SlidesReflexive(s.playlist);
    if env.now.Some? { SettleSlides(s, env); }
  }

  /** Only the playlist and the count of begins matter for sliding. */
  lemma SlidCongruent(s: Rec, t: Rec, s': Rec, t': Rec)
    requires Slid(s, t) && s'.playlist == s.playlist && s'.begins == s.begins
    requires t'.playlist == t.playlist && t'.begins == t.begins
    ensures Slid(s', t')
  {
  }

  lemma RotateSlides(s: Rec, f: Frame, env: Env)
    ensures Slid(s, Rotate(s, f, env))
  {
    hide Slid, Close, OpenNext, Write;
    var r := if s.open.None? then s
             else s.(rotations := s.rotations + [Rotation(s.startPts, f.pts, RecordedMs(s))]);
    CloseSlides(r, false, env);
    var c := Close(r, false, env).(awaitKey := false);
    SlidCongruent(r, Close(r, false, env), s, c);
    OpenNextSlides(c, f, env);
    var t := OpenNext(c, f, env).0;
    SlidTransitive(s, c, t);
    WriteFacts(t, f);
    SlidCongruent(s, t, s, Rotate(s, f, env));
  }

  lemma AwaitedSlides(s: Rec, f: Frame, env: Env)
    ensures Slid(s, ProcessAwaited(s, f, env))
  {
    hide Slides, OpenNext, Write;
    SlidesReflexive(s.playlist);
    var t := if s.formatsReady then s else Capture(s, env).0;
    OpenNextSlides(t, f, env);
    WriteFacts(OpenNext(t, f, env).0.(pending := None, awaitKey := false), f);
  }

  lemma AudioSlides(s: Rec, f: Frame, env: Env)
    ensures Slid(s, ProcessAudio(s, f, env))
  {
    hide Slides, OpenNext, Write;
    SlidesReflexive(s.playlist);
    var r := s.(sound := AacReady);
    if r.pending.Some? {
      OpenNextSlides(r.(pending := None), r.pending.value, env);
      WriteFacts(OpenNext(r.(pending := None), r.pending.value, env).0.(awaitKey := false), r.pending.value);
    }
    WriteFacts(if s.sound.AacWaiting? && env.adts then OpenPending(r, env) else s, f);
  }

  lemma StepSlides(s: Rec, e: Event)
    ensures Slid(s, Step(s, e))
  {
    hide Slides, Close, ProcessAudio, ProcessAwaited, Rotate, Prune, Write;
    SlidesReflexive(s.playlist);
    match e
    case StopEvent(env) => CloseSlides(s, true, env);
    case StartEvent(found, stuck) => PruneSlides(s.(kept := found), stuck);
    case FrameEvent(f, env) =>
      AudioSlides(s, f, env);
      AwaitedSlides(s, f, env);
      RotateSlides(s, f, env);
      WriteFacts(s, f);
  }

  // -------------------------------------------------------------- whole runs

  ghost predicate Ok(s: Rec) { WindowOk(s) && WritesOk(s) }

  lemma {:induction false} RunKeepsOk(s: Rec, events: seq<Event>, s': Rec)
    requires Ok(s) && Run(s, events, s')
    ensures Ok(s') && Slid(s, s')
    decreases |events|
  {
    hide WindowOk, Step, Slides, Possible;
    SlidesReflexive(s.playlist);
    if events != [] {
      StepKeepsWindow(s, events[0]);
      StepKeepsWrites(s, events[0]);
      StepSlides(s, events[0]);
      RunKeepsOk(Step(s, events[0]), events[1..], s');
      SlidTransitive(s, Step(s, events[0]), s');
    }
  }

  /**
   While a session is active, the playlist lists exactly the kept segments of the
   current day, in order, and only files that are on disk.
   */
  lemma PlaylistMirrorsWindow(cfg: Config, disk: Disk, events: seq<Event>, s: Rec)
    requires (forall p :: p in disk.media ==> WellNamed(p)) && Run(Init(cfg, disk), events, s)
    ensures s.sessionReady ==> s.playlist.entries == Listing(s.kept, s.currentDay)
    ensures forall e :: s.sessionReady && e in s.playlist.entries ==> Path(s.currentDay, e.name) in s.disk.media
  {
    RunKeepsOk(Init(cfg, disk), events, s);
    forall e | s.sessionReady && e in s.playlist.entries ensures Path(s.currentDay, e.name) in s.disk.media {
      ListingNames(s.kept, s.currentDay, e);
    }
  }

  /** Between any two moments of one session, a segment listed at both has one number. */
  lemma NumbersSurviveRecording(cfg: Config, disk: Disk, before: seq<Event>, s: Rec, after: seq<Event>, s': Rec)
    requires (forall p :: p in disk.media ==> WellNamed(p)) && Run(Init(cfg, disk), before, s)
    requires Run(s, after, s') && s'.begins == s.begins
    ensures Slides(s.playlist, s'.playlist)
  {
    RunKeepsOk(Init(cfg, disk), before, s);
    RunKeepsOk(s, after, s');
  }

  /** In every run, each opened file starts with the keyframe that opened it. */
  lemma SegmentsStartWithKeyframe(cfg: Config, disk: Disk, events: seq<Event>, s: Rec)
    requires (forall p :: p in disk.media ==> WellNamed(p)) && Run(Init(cfg, disk), events, s)
    ensures forall i :: 0 <= i < |s.segments| ==> SegmentOk(s.segments[i])
    ensures s.open.Some? ==> !s.awaitKey
  {
    RunKeepsOk(Init(cfg, disk), events, s);
  }

  ghost predicate PacedRun(c: Clock, events: seq<Event>, gap: int)
    decreases |events|
  {
    events == [] || (Paced(c, events[0], gap) && PacedRun(Tick(c, events[0]), events[1..], gap))
  }

  lemma {:induction false} RunKeepsTiming(s: Rec, c: Clock, events: seq<Event>, s': Rec, gap: int)
    requires Ok(s) && TimingOk(s, c, gap) && Run(s, events, s') && PacedRun(c, events, gap)
    ensures forall i :: 0 <= i < |s'.rotations| ==> RotationOk(s.cfg, gap, s'.rotations[i])
    decreases |events|
  {
    hide WindowOk, Step, Possible, RotationOk, Paced, Tick;
    if events != [] {
      StepKeepsWindow(s, events[0]);
      StepKeepsWrites(s, events[0]);
      StepKeepsTiming(s, c, events[0], gap);
      RunKeepsTiming(Step(s, events[0]), Tick(c, events[0]), events[1..], s', gap);
    }
  }

  /**
   With steady timestamps and keyframes at most `gap` ms apart, every segment
   closed by rotation lasted the configured time and less than `gap` ms more.
   */
  lemma RotationsAreTimely(cfg: Config, disk: Disk, events: seq<Event>, s: Rec, gap: int)
    requires (forall p :: p in disk.media ==> WellNamed(p)) && Run(Init(cfg, disk), events, s)
    requires PacedRun(Clock(0, None), events, gap)
    ensures forall i :: 0 <= i < |s.rotations| ==> RotationOk(cfg, gap, s.rotations[i])
  {
    RunKeepsTiming(Init(cfg, disk), Clock(0, None), events, s, gap);
  }
}
