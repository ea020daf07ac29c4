/**
 The index files on disk: what each day's list names while segments are closed and
 pruned (src/record/segment_recorder.cpp), and the target duration in every run.
 */
module RecordIndex {
  import opened Base
  import opened Playlist
  import opened Recorder

  /** A day's index names only files that exist. */
  ghost predicate IndexSound(d: Disk, day: string) {
    day in d.index ==> forall n :: n in d.index[day] ==> Path(day, n) in d.media
  }

  ghost predicate AllSound(d: Disk) { forall day :: IndexSound(d, day) }

  // ----------------------------------------- every state a prune passes through

  /** The disk before each round, after the list was rewritten, and after the unlink; then at the end. */
  function Trace(d: Disk, p: List, kept: seq<Kept>, n: nat, today: string, stuck: set<Path>): seq<Disk>
    requires n <= |kept|
    decreases n
  {
    if n == 0 then [d]
    else
      var a := Delisted(d, p, kept[0]);
      [d, a, Unlinked(a, kept[0], stuck)]
      + Trace(Round(d, p, kept, today, stuck), DropFrontIf(p, kept[0].path.name), kept[1..], n - 1, today, stuck)
  }

  function PruneTrace(s: Rec, stuck: set<Path>): seq<Disk> {
    Trace(s.disk, s.playlist, s.kept, KeepFrom(s.cfg, s.kept, 0), s.currentDay, stuck)
  }

  lemma {:induction false} TraceEnds(d: Disk, p: List, kept: seq<Kept>, n: nat, today: string, stuck: set<Path>)
    requires n <= |kept|
    ensures var t := Trace(d, p, kept, n, today, stuck); t != [] && t[|t| - 1] == PruneDisk(d, p, kept, n, today, stuck)
    decreases n
  {
    hide Round, DropFrontIf;
    if n > 0 {
      TraceEnds(Round(d, p, kept, today, stuck), DropFrontIf(p, kept[0].path.name), kept[1..], n - 1, today, stuck);
    }
  }

  /** The trace is that of the prune: it starts at the disk before and ends at the disk after. */
  lemma PruneIsTraced(s: Rec, stuck: set<Path>)
    ensures var t := PruneTrace(s, stuck); t != [] && t[0] == s.disk && t[|t| - 1] == Prune(s, stuck).disk
  {
    var k := KeepFrom(s.cfg, s.kept, 0);
    hide Round, KeepFrom;
    TraceEnds(s.disk, s.playlist, s.kept, k, s.currentDay, stuck);
    PruneDiskFiles(s.disk, s.playlist, s.kept, k, s.currentDay, stuck);
  }

  // ---------------------------------------------------------------- one round

  /** The list `p` is what the window says, and so is today's index file. */
  ghost predicate Mirrors(d: Disk, p: List, kept: seq<Kept>, today: string) {
    && Distinct(kept) && (forall k :: k in kept ==> WellNamed(k.path)) && Paths(kept) <= d.media
    && p.entries == Listing(kept, today)
    && if p.Active() then p.path == today && today in d.index && d.index[today] == Names(p.entries) else today == ""
  }

  lemma {:induction false} NameHasEntry(entries: seq<Entry>, n: string)
    requires n in Names(entries)
    ensures exists e :: e in entries && e.name == n
  {
    var last := entries[|entries| - 1];
    if n != last.name { NameHasEntry(entries[..|entries| - 1], n); }
  }

  lemma ListingIsOnDisk(kept: seq<Kept>, day: string, n: string)
    requires n in Names(Listing(kept, day))
    ensures Path(day, n) in Paths(kept)
  {
    NameHasEntry(Listing(kept, day), n);
    var e :| e in Listing(kept, day) && e.name == n;
    ListingNames(kept, day, e);
    var i :| 0 <= i < |kept| && kept[i].path == Path(day, e.name);
    assert kept[i] in kept;
  }

  lemma RestIsOnDisk(kept: seq<Kept>)
    requires kept != [] && Distinct(kept)
    ensures Distinct(kept[1..]) && Paths(kept[1..]) <= Paths(kept) && kept[0].path !in Paths(kept[1..])
  {
    forall x | x in Paths(kept[1..]) ensures x in Paths(kept) && x != kept[0].path {
      var i :| 0 <= i < |kept| - 1 && kept[1..][i].path == x;
      assert kept[i + 1] in kept && kept[i + 1].path == x;
    }
  }

  /** After the list was rewritten: today's index names the rest of the window. */
  lemma DelistedShows(d: Disk, p: List, kept: seq<Kept>, today: string)
    requires kept != [] && Mirrors(d, p, kept, today)
    ensures var a := Delisted(d, p, kept[0]);
            && a.media == d.media && (forall day :: day != today ==> (day in a.index <==> day in d.index))
            && (forall day :: day != today && day in d.index ==> a.index[day] == d.index[day])
            && (p.Active() ==> today in a.index && a.index[today] == Names(Listing(kept[1..], today)))
            && (!p.Active() ==> a == d)
  {
    hide Names, Listing, WellNamed;
    DropOldest(p, kept, today);
    if !p.Active() { NobodyListed(kept); }
  }

  lemma {:induction false} NobodyListed(kept: seq<Kept>)
    requires forall k :: k in kept ==> WellNamed(k.path)
    ensures Listing(kept, "") == []
  {
    if kept != [] {
      NobodyListed(kept[..|kept| - 1]);
      assert WellNamed(kept[|kept| - 1].path);
    }
  }

  lemma RoundMirrors(d: Disk, p: List, kept: seq<Kept>, today: string, stuck: set<Path>)
    requires kept != [] && Mirrors(d, p, kept, today)
    ensures Mirrors(Round(d, p, kept, today, stuck), DropFrontIf(p, kept[0].path.name), kept[1..], today)
  {
    hide Names, Listing, WellNamed, HasMedia;
    DropOldest(p, kept, today);
    RestIsOnDisk(kept);
    DelistedShows(d, p, kept, today);
  }

  /** Today's index names existing files before, between and after the steps of a round. */
  lemma RoundKeepsToday(d: Disk, p: List, kept: seq<Kept>, today: string, stuck: set<Path>)
    requires kept != [] && Mirrors(d, p, kept, today) && p.Active()
    ensures var a := Delisted(d, p, kept[0]);
            IndexSound(d, today) && IndexSound(a, today) && IndexSound(Unlinked(a, kept[0], stuck), today)
  {
    hide Names, Listing, WellNamed;
    RestIsOnDisk(kept);
    DelistedShows(d, p, kept, today);
    forall n | n in Names(Listing(kept, today)) ensures Path(today, n) in Paths(kept) {
      ListingIsOnDisk(kept, today, n);
    }
    forall n | n in Names(Listing(kept[1..], today)) ensures Path(today, n) in Paths(kept[1..]) {
      ListingIsOnDisk(kept[1..], today, n);
    }
  }

  lemma {:induction false} TodaySoundThroughout(
    d: Disk, p: List, kept: seq<Kept>, n: nat, today: string, stuck: set<Path>)
    requires n <= |kept| && Mirrors(d, p, kept, today) && p.Active()
    ensures forall x :: x in Trace(d, p, kept, n, today, stuck) ==> IndexSound(x, today)
    decreases n
  {
    hide Mirrors, IndexSound, Round, Delisted, Unlinked;
    if n == 0 {
      MirrorsIsSound(d, p, kept, today);
    } else {
      RoundKeepsToday(d, p, kept, today, stuck);
      RoundMirrors(d, p, kept, today, stuck);
      TodaySoundThroughout(
        Round(d, p, kept, today, stuck), DropFrontIf(p, kept[0].path.name), kept[1..], n - 1, today, stuck);
    }
  }

  lemma MirrorsIsSound(d: Disk, p: List, kept: seq<Kept>, today: string)
    requires Mirrors(d, p, kept, today) && p.Active()
    ensures IndexSound(d, today)
  {
    hide Names, Listing, WellNamed;
    forall n | n in Names(Listing(kept, today)) ensures Path(today, n) in Paths(kept) {
      ListingIsOnDisk(kept, today, n);
    }
  }

  // ------------------------------------------------------------ the other days

  /** What is listed besides `k` survives its unlink. */
  lemma UnlinkKeepsOthers(d: Disk, k: Kept, stuck: set<Path>, day: string)
    requires IndexSound(d, day)
    ensures IndexSound(Unlinked(d, k, stuck), day) <==>
            k.path.day != day || k.path in stuck || day !in d.index || k.path.name !in d.index[day]
            || k.path !in d.media
  {
    assert k.path == Path(k.path.day, k.path.name);
  }

  /**
   Between the unlink and the rewrite of the file's own list, all lists are right
   exactly when the file is of today, could not be unlinked, or was not listed.
   */
  lemma OlderListLagsBehind(d: Disk, p: List, kept: seq<Kept>, today: string, stuck: set<Path>)
    requires kept != [] && Mirrors(d, p, kept, today) && AllSound(d)
    ensures var k := kept[0].path;
            AllSound(Unlinked(Delisted(d, p, kept[0]), kept[0], stuck)) <==>
            k.day == today || k in stuck || k.day !in d.index || k.name !in d.index[k.day]
  {
    hide Mirrors, Delisted, Unlinked, IndexSound;
    var a := Delisted(d, p, kept[0]);
    var b := Unlinked(a, kept[0], stuck);
    forall day ensures IndexSound(a, day) { DelistedKeepsDay(d, p, kept, today, day); }
    forall day ensures IndexSound(b, day) <==>
        kept[0].path.day != day || kept[0].path in stuck || day !in a.index || kept[0].path.name !in a.index[day]
    {
      UnlinkKeepsOthers(a, kept[0], stuck, day);
      OldestExists(d, p, kept, today);
    }
    DelistedForgets(d, p, kept, today);
  }

  lemma OldestExists(d: Disk, p: List, kept: seq<Kept>, today: string)
    requires kept != [] && Mirrors(d, p, kept, today)
    ensures kept[0].path in Delisted(d, p, kept[0]).media && DayName(kept[0].path.day)
  {
    assert kept[0] in kept && kept[0].path in Paths(kept);
    assert WellNamed(kept[0].path);
  }

  lemma DelistedKeepsDay(d: Disk, p: List, kept: seq<Kept>, today: string, day: string)
    requires kept != [] && Mirrors(d, p, kept, today) && AllSound(d)
    ensures IndexSound(Delisted(d, p, kept[0]), day)
  {
    hide Mirrors, Delisted;
    DelistedShows(d, p, kept, today);
    assert IndexSound(d, day);
    if day == today && p.Active() { RoundKeepsToday(d, p, kept, today, {}); }
  }

  /** A file of today is no longer listed, and of another day as before. */
  lemma DelistedForgets(d: Disk, p: List, kept: seq<Kept>, today: string)
    requires kept != [] && Mirrors(d, p, kept, today)
    ensures var a, k := Delisted(d, p, kept[0]), kept[0].path;
            if k.day == today then k.day !in a.index || k.name !in a.index[k.day]
            else (k.day in a.index <==> k.day in d.index) && (k.day in d.index ==> a.index[k.day] == d.index[k.day])
  {
    hide Delisted, Names, Listing;
    DelistedShows(d, p, kept, today);
    RestIsOnDisk(kept);
    OldestExists(d, p, kept, today);
    var k := kept[0].path;
    if k.day == today && k.name in Names(Listing(kept[1..], today)) {
      ListingIsOnDisk(kept[1..], today, k.name);
      assert false;
    }
  }

  lemma RoundKeepsAll(d: Disk, p: List, kept: seq<Kept>, today: string, stuck: set<Path>)
    requires kept != [] && Mirrors(d, p, kept, today) && AllSound(d)
    ensures AllSound(Round(d, p, kept, today, stuck))
  {
    hide Mirrors, Delisted, Names, Listing, HasMedia;
    var k, a := kept[0], Delisted(d, p, kept[0]);
    var b := Unlinked(a, k, stuck);
    var e := Round(d, p, kept, today, stuck);
    DelistedForgets(d, p, kept, today);
    RestSurvives(d, p, kept, today, stuck);
    forall day ensures IndexSound(e, day) {
      DelistedKeepsDay(d, p, kept, today, day);
      UnlinkKeepsOthers(a, k, stuck, day);
      if day == k.path.day && day != today && HasMedia(b.media, day) {
        forall n | n in Names(Listing(kept[1..], day)) ensures Path(day, n) in e.media {
          ListingIsOnDisk(kept[1..], day, n);
        }
      }
    }
  }

  lemma RestSurvives(d: Disk, p: List, kept: seq<Kept>, today: string, stuck: set<Path>)
    requires kept != [] && Mirrors(d, p, kept, today)
    ensures Paths(kept[1..]) <= Unlinked(Delisted(d, p, kept[0]), kept[0], stuck).media
  {
    hide Names, Listing, WellNamed;
    RestIsOnDisk(kept);
  }

  lemma {:induction false} PruneKeepsAll(d: Disk, p: List, kept: seq<Kept>, n: nat, today: string, stuck: set<Path>)
    requires n <= |kept| && Mirrors(d, p, kept, today) && AllSound(d)
    ensures AllSound(PruneDisk(d, p, kept, n, today, stuck))
    decreases n
  {
    hide Mirrors, AllSound, Round;
    if n > 0 {
      RoundKeepsAll(d, p, kept, today, stuck);
      RoundMirrors(d, p, kept, today, stuck);
      PruneKeepsAll(Round(d, p, kept, today, stuck), DropFrontIf(p, kept[0].path.name), kept[1..], n - 1, today, stuck);
    }
  }

  // -------------------------------------------------------------- whole runs

  /** All lists are right, and a list without a session is finished or empty. */
  ghost predicate IndexOk(s: Rec) {
    && AllSound(s.disk)
    && (!s.playlist.Active() ==> s.playlist.entries == [] && s.currentDay == "" && !s.sessionReady)
    && (!s.sessionReady ==> s.playlist.ended || s.playlist.entries == [])
  }

  lemma SameIndex(s: Rec, t: Rec)
    requires IndexOk(s) && t.playlist == s.playlist && t.currentDay == s.currentDay
    requires t.sessionReady == s.sessionReady && t.disk == s.disk
    ensures IndexOk(t)
  {
  }

  lemma WindowMirrors(s: Rec)
    requires WindowOk(s)
    requires s.sessionReady || (!s.playlist.Active() && s.playlist.entries == [] && s.currentDay == "")
    ensures Mirrors(s.disk, s.playlist, s.kept, s.currentDay)
  {
    hide Names, Listing, WellNamed;
    assert forall k :: k in s.kept ==> k.path in Paths(s.kept);
    if !s.sessionReady { NobodyListed(s.kept); }
  }

  lemma {:induction false} DropAllKeepsRest(p: List, dropped: seq<Kept>)
    ensures var q := DropAll(p, dropped);
            q.path == p.path && q.ended == p.ended && (p.entries == [] ==> q.entries == [])
    decreases |dropped|
  {
    if dropped != [] { DropAllKeepsRest(DropFrontIf(p, dropped[0].path.name), dropped[1..]); }
  }

  lemma PruneKeepsIndex(s: Rec, stuck: set<Path>)
    requires WindowOk(s) && IndexOk(s) && (s.sessionReady || !s.playlist.Active())
    ensures IndexOk(Prune(s, stuck))
  {
    hide WindowOk, PruneDisk, DropAll, AllSound;
    var k := KeepFrom(s.cfg, s.kept, 0);
    WindowMirrors(s);
    PruneKeepsAll(s.disk, s.playlist, s.kept, k, s.currentDay, stuck);
    PruneDiskFiles(s.disk, s.playlist, s.kept, k, s.currentDay, stuck);
    DropAllKeepsRest(s.playlist, s.kept[..k]);
  }

  lemma RememberedKeepsIndex(s: Rec, env: Env)
    requires WindowOk(s) && IndexOk(s) && s.open.Some?
    ensures IndexOk(Remembered(s, env)) && Remembered(s, env).sessionReady
  {
    hide WellNamed, Names, Listing, IndexSound;
    var t := Remembered(s, env);
    RememberedKeepsWindow(s, env);
    WindowMirrors(t.(open := None));
    assert AllSound(t.disk) by {
      forall day ensures IndexSound(t.disk, day) {
        assert IndexSound(s.disk, day);
        if day != t.playlist.path { SavedKeepsOthers(s.disk, t.playlist, day); }
        MirrorsIsSound(t.disk, t.playlist, t.kept, t.currentDay);
      }
    }
  }

  lemma SavedKeepsOthers(d: Disk, p: List, day: string)
    requires IndexSound(d, day) && day != p.path
    ensures IndexSound(Saved(d, p), day)
  {
  }

  lemma EndedKeepsIndex(s: Rec)
    requires WindowOk(s) && IndexOk(s)
    ensures IndexOk(Ended(s)) && (Ended(s).playlist.Active() ==> Ended(s).playlist.ended)
  {
    hide FilesOk, Listing, IndexSound;
    var t := Ended(s);
    forall day ensures IndexSound(t.disk, day) {
      assert IndexSound(s.disk, day);
      if t != s { SameListIsSound(s.disk, t.playlist, day); }
    }
  }

  /** Writing a list again, or an empty one, harms nobody. */
  lemma SameListIsSound(d: Disk, p: List, day: string)
    requires IndexSound(d, day)
    requires p.entries == [] || !p.Active() || p.path != day
             || (p.path in d.index && d.index[p.path] == Names(p.entries))
    ensures IndexSound(Saved(d, p), day)
  {
  }

  lemma CloseKeepsIndex(s: Rec, endPlaylist: bool, env: Env)
    requires WindowOk(s) && IndexOk(s)
    ensures var t := Close(s, endPlaylist, env);
            && IndexOk(t)
            && (endPlaylist ==>
                  IndexOk(t.(sessionReady := false)) && IndexOk(t.(sessionReady := false, currentDay := "")))
  {
    hide WindowOk, IndexOk, Prune, Ended, Remembered;
    var t := if s.open.Some? then CloseFile(s, env) else s;
    var u := t.(open := None, startPts := -1, lastPts := -1);
    if s.open.Some? {
      RememberedKeepsWindow(s, env);
      RememberedKeepsIndex(s, env);
      var r := Remembered(s, env).(open := None);
      SameIndex(Remembered(s, env), r);
      PruneKeepsIndex(r, env.stuck);
      PruneKeepsWindow(r, env.stuck);
      PruneFacts(Remembered(s, env), env.stuck);
      SameWindow(t.(open := None), u);
      SameIndex(t.(open := None), u);
    } else {
      SameWindow(s, u);
      SameIndex(s, u);
    }
    EndedKeepsIndex(u);
    if endPlaylist { IdleKeepsIndex(Ended(u)); }
  }

  lemma IdleKeepsIndex(s: Rec)
    requires IndexOk(s) && (s.playlist.Active() ==> s.playlist.ended)
    ensures IndexOk(s.(sessionReady := false)) && IndexOk(s.(sessionReady := false, currentDay := ""))
  {
    hide AllSound;
    assert s.(sessionReady := false).disk == s.disk == s.(sessionReady := false, currentDay := "").disk;
  }

  lemma BeginKeepsIndex(s: Rec, day: string)
    requires FilesOk(s) && s.open.None? && AllSound(s.disk) && DayName(day)
    ensures IndexOk(BeginDay(s, day))
  {
    hide WellNamed, Names, Listing, IndexSound, AppendDay;
    var t := BeginDay(s, day);
    BeginKeepsWindow(s, day);
    WindowMirrors(t);
    forall d ensures IndexSound(t.disk, d) {
      assert IndexSound(s.disk, d);
      if d != t.playlist.path { SavedKeepsOthers(s.disk, t.playlist, d); }
      MirrorsIsSound(t.disk, t.playlist, t.kept, t.currentDay);
    }
  }

  lemma EnsureKeepsIndex(s: Rec, env: Env)
    requires WindowOk(s) && IndexOk(s) && s.open.None? && StampOk(env.later)
    ensures IndexOk(EnsureSession(s, env).0)
  {
    hide FilesOk, SessionOk, AllSound, BeginDay;
    if !s.sessionReady {
      var t := if s.formatsReady then s else Capture(s, env).0;
      SameWindow(s, t);
      SameIndex(s, t);
      if env.later.Some? { BeginKeepsIndex(t, env.later.value.day); }
    }
  }

  lemma SettleKeepsIndex(s: Rec, env: Env)
    requires WindowOk(s) && IndexOk(s) && s.open.None?
    requires env.now.Some? && StampOk(env.now) && StampOk(env.later)
    ensures IndexOk(Settle(s, env).0)
  {
    hide WindowOk, IndexOk, BeginDay, EnsureSession, Close;
    var day := env.now.value.day;
    var t := if s.sessionReady && day != s.currentDay then LeaveDay(s, env) else s;
    CloseKeepsWindow(s, true, env);
    CloseKeepsIndex(s, true, env);
    IdleKeepsWindow(Close(s, true, env), "");
    EnsureKeepsWindow(t, env);
    EnsureKeepsIndex(t, env);
    var (u, ok) := EnsureSession(t, env);
    if ok && day != u.currentDay {
      CloseKeepsWindow(u, true, env);
      CloseKeepsIndex(u, true, env);
      var v := Close(u, true, env);
      WindowHasFiles(v);
      IndexIsSound(v);
      BeginKeepsIndex(v, day);
    }
  }

  lemma IndexIsSound(s: Rec)
    requires IndexOk(s)
    ensures AllSound(s.disk)
  {
  }

  lemma OpenFileKeepsIndex(s: Rec, key: Frame, env: Env)
    requires IndexOk(s) && env.now.Some?
    ensures IndexOk(OpenFile(s, key, env).0)
  {
    hide NextName;
    var t := OpenFile(s, key, env).0;
    forall day ensures IndexSound(t.disk, day) { assert IndexSound(s.disk, day); }
  }

  lemma OpenNextKeepsIndex(s: Rec, key: Frame, env: Env)
    requires WindowOk(s) && IndexOk(s) && s.open.None? && StampOk(env.now) && StampOk(env.later)
    ensures IndexOk(OpenNext(s, key, env).0)
  {
    hide WindowOk, IndexOk, Settle, OpenFile;
    if env.now.Some? {
      SettleKeepsIndex(s, env);
      OpenFileKeepsIndex(Settle(s, env).0, key, env);
    }
  }

  lemma AudioKeepsIndex(s: Rec, f: Frame, env: Env)
    requires WindowOk(s) && IndexOk(s) && StampOk(env.now) && StampOk(env.later)
    ensures IndexOk(ProcessAudio(s, f, env))
  {
    hide WindowOk, IndexOk, OpenNext;
    var r := s.(sound := AacReady);
    SameIndex(s, r);
    if r.pending.Some? && r.open.None? {
      SameWindow(s, r.(pending := None));
      SameIndex(s, r.(pending := None));
      OpenNextKeepsIndex(r.(pending := None), r.pending.value, env);
      SameIndex(OpenNext(r.(pending := None), r.pending.value, env).0, OpenPending(r, env));
    }
    var ready := if s.sound.AacWaiting? && env.adts then OpenPending(r, env) else s;
    SameIndex(ready, Write(ready, f));
  }

  lemma AwaitedKeepsIndex(s: Rec, f: Frame, env: Env)
    requires WindowOk(s) && IndexOk(s) && s.open.None? && StampOk(env.now) && StampOk(env.later)
    ensures IndexOk(ProcessAwaited(s, f, env))
  {
    hide WindowOk, IndexOk, OpenNext;
    var t := if s.formatsReady then s else Capture(s, env).0;
    SameWindow(s, t);
    SameIndex(s, t);
    SameIndex(t, t.(pending := Some(f)));
    OpenNextKeepsIndex(t, f, env);
    var u := OpenNext(t, f, env).0;
    SameIndex(u, Write(u.(pending := None, awaitKey := false), f).(lastPts := f.pts));
  }

  lemma RotateKeepsIndex(s: Rec, f: Frame, env: Env)
    requires WindowOk(s) && IndexOk(s) && StampOk(env.now) && StampOk(env.later)
    ensures IndexOk(Rotate(s, f, env))
  {
    hide WindowOk, IndexOk, OpenNext, Close;
    var r := if s.open.None? then s
             else s.(rotations := s.rotations + [Rotation(s.startPts, f.pts, RecordedMs(s))]);
    SameWindow(s, r);
    SameIndex(s, r);
    CloseKeepsWindow(r, false, env);
    CloseKeepsIndex(r, false, env);
    var c := Close(r, false, env).(awaitKey := false);
    SameWindow(Close(r, false, env), c);
    SameIndex(Close(r, false, env), c);
    OpenNextKeepsIndex(c, f, env);
    SameIndex(OpenNext(c, f, env).0, Rotate(s, f, env));
  }

  /** A recorder is started before it has a playlist: each start makes a new one. */
  ghost predicate StartsFresh(s: Rec, e: Event) { e.StartEvent? ==> !s.playlist.Active() }

  lemma StepKeepsIndex(s: Rec, e: Event)
    requires WindowOk(s) && IndexOk(s) && Possible(s, e) && StartsFresh(s, e) && (s.open.Some? ==> !s.awaitKey)
    ensures IndexOk(Step(s, e))
  {
    hide WindowOk, IndexOk, Close, Prune, ProcessAudio, ProcessAwaited, Rotate;
    match e
    case StopEvent(env) => CloseKeepsIndex(s, true, env);
    case StartEvent(found, stuck) =>
      StartKeepsWindow(s, found);
      SameIndex(s, s.(kept := found));
      PruneKeepsIndex(s.(kept := found), stuck);
    case FrameEvent(f, env) =>
      if f.kind.Audio? {
        AudioKeepsIndex(s, f, env);
      } else if f.kind.Video? {
        if s.awaitKey {
          AwaitedKeepsIndex(s, f, env);
        } else if f.keyframe && ShouldRotate(s, f) {
          RotateKeepsIndex(s, f, env);
        } else {
          SameIndex(s, Process(s, f, env));
        }
      }
  }

  lemma StartKeepsWindow(s: Rec, found: seq<Kept>)
    requires WindowOk(s) && !s.sessionReady && s.open.None? && Paths(found) <= s.disk.media && Distinct(found)
    ensures WindowOk(s.(kept := found))
  {
  }

  ghost predicate FreshRun(s: Rec, events: seq<Event>, s': Rec)
    decreases |events|
  {
    if events == [] then s' == s
    else StartsFresh(s, events[0]) && Possible(s, events[0]) && FreshRun(Step(s, events[0]), events[1..], s')
  }

  lemma {:induction false} RunKeepsIndex(s: Rec, events: seq<Event>, s': Rec)
    requires Ok(s) && IndexOk(s) && FreshRun(s, events, s')
    ensures IndexOk(s')
    decreases |events|
  {
    hide WindowOk, IndexOk, Step, Possible, StartsFresh;
    if events != [] {
      StepKeepsWindow(s, events[0]);
      StepKeepsWrites(s, events[0]);
      StepKeepsIndex(s, events[0]);
      RunKeepsIndex(Step(s, events[0]), events[1..], s');
    }
  }

  /**
   In every run, if all index files were right at the beginning, then after every
   step each day's index names only files that exist, today's and all others.
   */
  lemma AllIndexesStaySound(cfg: Config, disk: Disk, events: seq<Event>, s: Rec)
    requires (forall p :: p in disk.media ==> WellNamed(p)) && AllSound(disk)
    requires FreshRun(Init(cfg, disk), events, s)
    ensures AllSound(s.disk)
  {
    hide FreshRun, WellNamed, AllSound;
    RunKeepsIndex(Init(cfg, disk), events, s);
  }

  /**
   In every run, while the open segment is closed and old ones are pruned, today's
   index names only existing files at every intermediate point, whichever files
   cannot be unlinked; and the last point is the disk the close leaves behind.
   */
  lemma IndexSoundThroughout(cfg: Config, disk: Disk, events: seq<Event>, s: Rec, env: Env)
    requires (forall p :: p in disk.media ==> WellNamed(p)) && Run(Init(cfg, disk), events, s) && s.open.Some?
    ensures var t := PruneTrace(Remembered(s, env), env.stuck);
            && (forall x :: x in t ==> IndexSound(x, s.currentDay))
            && t != [] && t[|t| - 1] == CloseFile(s, env).disk
  {
    hide Run, WindowOk, PruneDisk, Trace, IndexSound;
    InitIsOk(cfg, disk);
    RunKeepsOk(Init(cfg, disk), events, s);
    var r := Remembered(s, env);
    OpenHasSession(s, env);
    RememberedKeepsWindow(s, env);
    WindowMirrors(r.(open := None));
    TodaySoundThroughout(r.disk, r.playlist, r.kept, KeepFrom(r.cfg, r.kept, 0), r.currentDay, env.stuck);
    PruneIsTraced(r, env.stuck);
  }

  lemma OpenHasSession(s: Rec, env: Env)
    requires WindowOk(s) && s.open.Some?
    ensures var r := Remembered(s, env); r.sessionReady && r.playlist.Active() && r.currentDay == s.currentDay
  {
  }

  lemma InitIsOk(cfg: Config, disk: Disk)
    requires forall p :: p in disk.media ==> WellNamed(p)
    ensures Ok(Init(cfg, disk))
  {
  }

  /**
   The order matters: when the list cannot be rewritten, the index stays right only
   if the unlink fails as well.
   */
  lemma FailedRewriteBreaksIndex(
    d: Disk, p: List, kept: seq<Kept>, today: string, rewriteOk: bool, unlinkOk: bool)
    requires kept != [] && Mirrors(d, p, kept, today) && p.Active() && kept[0].path.day == today
    ensures var a := if rewriteOk then Delisted(d, p, kept[0]) else d;
            IndexSound(Unlinked(a, kept[0], if unlinkOk then {} else {kept[0].path}), today) <==> rewriteOk || !unlinkOk
  {
    hide Delisted, Names, Listing, WellNamed;
    var a := if rewriteOk then Delisted(d, p, kept[0]) else d;
    RoundKeepsToday(d, p, kept, today, {});
    UnlinkKeepsOthers(a, kept[0], if unlinkOk then {} else {kept[0].path}, today);
    DelistedForgets(d, p, kept, today);
    OldestIsListed(kept, today);
    assert kept[0] in kept && kept[0].path in Paths(kept);
  }

  lemma OldestIsListed(kept: seq<Kept>, day: string)
    requires kept != [] && kept[0].path.day == day
    ensures kept[0].path.name in Names(Listing(kept, day))
  {
    hide Names;
    ListingFront(kept, day);
    var list := Listing(kept, day);
    assert list[0] == Entry(kept[0].path.name, Clamp(kept[0].ms));
    EveryEntryIsNamed(list, list[0]);
  }

  // ------------------------------------------------------ the target duration

  lemma {:induction false} DropAllCovers(p: List, dropped: seq<Kept>)
    requires TargetCovers(p)
    ensures TargetCovers(DropAll(p, dropped))
    decreases |dropped|
  {
    if dropped != [] { DropAllCovers(DropFrontIf(p, dropped[0].path.name), dropped[1..]); }
  }

  lemma {:induction false} AppendDayCovers(p: List, kept: seq<Kept>, day: string)
    requires TargetCovers(p)
    ensures TargetCovers(AppendDay(p, kept, day))
    decreases |kept|
  {
    if kept != [] {
      var q := if kept[0].path.day == day then Append(p, kept[0].path.name, kept[0].ms) else p;
      TargetAlwaysCovers(p, [AppendOp(kept[0].path.name, kept[0].ms)]);
      AppendDayCovers(q, kept[1..], day);
    }
  }

  lemma CloseCovers(s: Rec, endPlaylist: bool, env: Env)
    requires TargetCovers(s.playlist)
    ensures TargetCovers(Close(s, endPlaylist, env).playlist)
  {
    hide DropAll, PruneDisk, KeepFrom;
    if s.open.Some? {
      var t := Remembered(s, env);
      TargetAlwaysCovers(s.playlist, [AppendOp(s.open.value.name, RecordedMs(s))]);
      DropAllCovers(t.playlist, t.kept[..KeepFrom(t.cfg, t.kept, 0)]);
    }
  }

  lemma BeginCovers(s: Rec, day: string)
    ensures TargetCovers(BeginDay(s, day).playlist)
  {
    AppendDayCovers(Begin(day, s.cfg.segmentSec), s.kept, day);
  }

  lemma OpenNextCovers(s: Rec, key: Frame, env: Env)
    requires TargetCovers(s.playlist)
    ensures TargetCovers(OpenNext(s, key, env).0.playlist)
  {
    hide Close, BeginDay, NextName;
    if env.now.Some? {
      var day := env.now.value.day;
      CloseCovers(s, true, env);
      var t := if s.sessionReady && day != s.currentDay then LeaveDay(s, env) else s;
      var c := if t.formatsReady then t else Capture(t, env).0;
      if env.later.Some? { BeginCovers(c, env.later.value.day); }
      var u := EnsureSession(t, env).0;
      CloseCovers(u, true, env);
      BeginCovers(Close(u, true, env), day);
    }
  }

  lemma RotateCovers(s: Rec, f: Frame, env: Env)
    requires TargetCovers(s.playlist)
    ensures TargetCovers(Rotate(s, f, env).playlist)
  {
    hide Close, OpenNext, TargetCovers;
    var r := if s.open.None? then s
             else s.(rotations := s.rotations + [Rotation(s.startPts, f.pts, RecordedMs(s))]);
    CloseCovers(r, false, env);
    OpenNextCovers(Close(r, false, env).(awaitKey := false), f, env);
  }

  lemma AwaitedCovers(s: Rec, f: Frame, env: Env)
    requires TargetCovers(s.playlist)
    ensures TargetCovers(ProcessAwaited(s, f, env).playlist)
  {
    hide OpenNext, TargetCovers;
    OpenNextCovers(if s.formatsReady then s else Capture(s, env).0, f, env);
  }

  lemma AudioCovers(s: Rec, f: Frame, env: Env)
    requires TargetCovers(s.playlist)
    ensures TargetCovers(ProcessAudio(s, f, env).playlist)
  {
    hide OpenNext, TargetCovers, Write;
    var r := s.(sound := AacReady);
    if r.pending.Some? {
      var t := r.(pending := None);
      OpenNextCovers(t, r.pending.value, env);
      WriteFacts(OpenNext(t, r.pending.value, env).0.(awaitKey := false), r.pending.value);
    }
    WriteFacts(if s.sound.AacWaiting? && env.adts then OpenPending(r, env) else s, f);
  }

  lemma StepCovers(s: Rec, e: Event)
    requires TargetCovers(s.playlist)
    ensures TargetCovers(Step(s, e).playlist)
  {
    hide Close, ProcessAudio, ProcessAwaited, Rotate, DropAll, PruneDisk, TargetCovers;
    match e
    case StopEvent(env) => CloseCovers(s, true, env);
    case StartEvent(found, stuck) => DropAllCovers(s.playlist, found[..KeepFrom(s.cfg, found, 0)]);
    case FrameEvent(f, env) =>
      AudioCovers(s, f, env);
      AwaitedCovers(s, f, env);
      RotateCovers(s, f, env);
  }

  lemma {:induction false} RunCovers(s: Rec, events: seq<Event>, s': Rec)
    requires TargetCovers(s.playlist) && Run(s, events, s')
    ensures TargetCovers(s'.playlist)
    decreases |events|
  {
    hide Step, Possible, TargetCovers;
    if events != [] {
      StepCovers(s, events[0]);
      RunCovers(Step(s, events[0]), events[1..], s');
    }
  }

  /** In every run the target duration covers the ceiling of every listed duration (section 4.3.3.1 of RFC 8216). */
  lemma TargetCoversInEveryRun(cfg: Config, disk: Disk, events: seq<Event>, s: Rec)
    requires Run(Init(cfg, disk), events, s)
    ensures TargetCovers(s.playlist)
  {
    hide Run;
    RunCovers(Init(cfg, disk), events, s);
  }
}
