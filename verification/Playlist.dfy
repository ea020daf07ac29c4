/**
 The device's HLS playlist (src/record/hls_playlist.cpp) and the cloud's reading
 of it (cloud/signaling/record_http.js). Durations are whole milliseconds.
 */
module Playlist {
  import opened Base

  datatype Entry = Entry(name: string, ms: int)

  datatype List = List(path: string, target: int, mediaSequence: nat, entries: seq<Entry>, ended: bool) {
    predicate Active() { path != "" }
  }

  // ------------------------------------------------------------- operations

  function Clamp(ms: int): int { if ms > 1 then ms else 1 }

  /** The smallest number of seconds that covers `ms`. */
  function Seconds(ms: int): int { (ms + 999) / 1000 }

  function Begin(path: string, targetSec: int): List {
    List(path, if targetSec > 0 then targetSec else 300, 0, [], false)
  }

  function Append(p: List, name: string, ms: int): List {
    if p.path == "" || name == "" then p
    else
      var d := Clamp(ms);
      p.(target := if Seconds(d) > p.target then Seconds(d) else p.target,
         entries := p.entries + [Entry(name, d)], ended := false)
  }

  function DropFrontIf(p: List, name: string): List {
    if p.entries == [] || p.entries[0].name != name then p
    else p.(entries := p.entries[1..], mediaSequence := p.mediaSequence + 1)
  }

  function Finish(p: List): List {
    if p.path == "" || p.ended then p else p.(ended := true)
  }

  datatype Op = AppendOp(name: string, ms: int) | DropOp(name: string) | FinishOp

  function Do(p: List, op: Op): List {
    match op
    case AppendOp(name, ms) => Append(p, name, ms)
    case DropOp(name) => DropFrontIf(p, name)
    case FinishOp => Finish(p)
  }

  function DoAll(p: List, ops: seq<Op>): List
    decreases |ops|
  {
    if ops == [] then p else DoAll(Do(p, ops[0]), ops[1..])
  }

  /** `EXT-X-TARGETDURATION` covers every listed segment (section 4.3.3.1 of RFC 8216). */
  ghost predicate TargetCovers(p: List) {
    forall i :: 0 <= i < |p.entries| ==> p.entries[i].ms >= 1 && Seconds(p.entries[i].ms) <= p.target
  }

  lemma {:induction false} TargetAlwaysCovers(p: List, ops: seq<Op>)
    requires TargetCovers(p)
    ensures TargetCovers(DoAll(p, ops))
    decreases |ops|
  {
    if ops != [] {
      TargetAlwaysCovers(Do(p, ops[0]), ops[1..]);
    }
  }

  /** The segment with media sequence number `n`, if the playlist lists one. */
  function Numbered(p: List, n: int): Option<Entry> {
    if p.mediaSequence <= n < p.mediaSequence + |p.entries| then Some(p.entries[n - p.mediaSequence]) else None
  }

  /** Numbers are only dropped at the front and only given out at the back. */
  ghost predicate Slides(p: List, q: List) {
    && p.mediaSequence <= q.mediaSequence
    && p.mediaSequence + |p.entries| <= q.mediaSequence + |q.entries|
    && forall n :: Numbered(p, n).Some? && n >= q.mediaSequence ==> Numbered(q, n) == Numbered(p, n)
  }

  /**
   From `begin` on, a listed segment keeps its media sequence number until it is
   dropped (section 4.3.3.2 of RFC 8216).
   */
  lemma {:induction false} NumbersAreStable(p: List, ops: seq<Op>)
    ensures Slides(p, DoAll(p, ops))
    decreases |ops|
  {
    if ops != [] {
      NumbersAreStable(Do(p, ops[0]), ops[1..]);
    }
  }

  // ------------------------------------------------------------ printed text

  function Padded3(n: nat): string
    requires n < 1000
  {
    [Digit(n / 100), Digit(n / 10 % 10), Digit(n % 10)]
  }

  /** `%.3f` of a duration in seconds. */
  function Fixed3(ms: nat): string { Decimal(ms / 1000) + "." + Padded3(ms % 1000) }

  function Integer(n: int): string { if n < 0 then "-" + Decimal(-n) else Decimal(n) }

  function Header(p: List): seq<string> {
    ["#EXTM3U", "#EXT-X-VERSION:7",
     "#EXT-X-TARGETDURATION:" + Integer(p.target),
     "#EXT-X-MEDIA-SEQUENCE:" + Decimal(p.mediaSequence),
     "#EXT-X-INDEPENDENT-SEGMENTS", "#EXT-X-MAP:URI=\"init.mp4\""]
  }

  function ExtInf(e: Entry): string { "#EXTINF:" + Fixed3(if e.ms > 0 then e.ms else 0) + "," }

  function EntryLines(entries: seq<Entry>): seq<string> {
    if entries == [] then []
    else EntryLines(entries[..|entries| - 1]) + [ExtInf(entries[|entries| - 1]), entries[|entries| - 1].name]
  }

  function Lines(p: List): seq<string> {
    Header(p) + EntryLines(p.entries) + if p.ended then ["#EXT-X-ENDLIST"] else []
  }

  /** Every line, each ended by a newline. */
  function Unlines(lines: seq<string>): string {
    if lines == [] then "" else Unlines(lines[..|lines| - 1]) + lines[|lines| - 1] + "\n"
  }

  function Text(p: List): string { Unlines(Lines(p)) }

  // ------------------------------------------------------- the cloud's reading

  /** White space and line terminators of ECMAScript, which `trim` removes. */
  predicate Blank(c: char) {
    || c in {'\t', '\n', '\U{0B}', '\U{0C}', '\r', ' ', '\U{A0}', '\U{1680}', '\U{2028}', '\U{2029}',
             '\U{202F}', '\U{205F}', '\U{3000}', '\U{FEFF}'}
    || '\U{2000}' <= c <= '\U{200A}'
  }

  function TrimLeft(s: string): string { if s != "" && Blank(s[0]) then TrimLeft(s[1..]) else s }

  function TrimRight(s: string): string {
    if s != "" && Blank(s[|s| - 1]) then TrimRight(s[..|s| - 1]) else s
  }

  function Trim(s: string): string { TrimRight(TrimLeft(s)) }

  function WithoutCR(s: string): string { if s != "" && s[|s| - 1] == '\r' then s[..|s| - 1] else s }

  /** The last line break, or -1. */
  function LastBreak(s: string): (k: int)
    ensures -1 <= k < |s|
    ensures k >= 0 ==> s[k] == '\n'
    ensures forall i :: k < i < |s| ==> s[i] != '\n'
  {
    if s == "" then -1
    else if s[|s| - 1] == '\n' then |s| - 1
    else LastBreak(s[..|s| - 1])
  }

  /** `split(/\r?\n/)`: the piece after the last break is kept as it is. */
  function Split(s: string): seq<string>
    decreases |s|
  {
    var k := LastBreak(s);
    if k < 0 then [s] else SplitBroken(s[..k]) + [s[k + 1..]]
  }

  /** The pieces of a text that a break follows. */
  function SplitBroken(s: string): seq<string>
    decreases |s|
  {
    var k := LastBreak(s);
    if k < 0 then [WithoutCR(s)] else SplitBroken(s[..k]) + [WithoutCR(s[k + 1..])]
  }

  /** `/\.m4s$/i` */
  predicate IsMedia(s: string) {
    |s| >= 4 && s[|s| - 4] == '.' && s[|s| - 3] in "mM" && s[|s| - 2] == '4' && s[|s| - 1] in "sS"
  }

  predicate Lists(line: string) { line != "" && line[0] != '#' && IsMedia(line) }

  function Kept(lines: seq<string>): seq<string> {
    if lines == [] then []
    else Kept(lines[..|lines| - 1])
         + var line := Trim(lines[|lines| - 1]); if Lists(line) then [line] else []
  }

  function Listed(text: string): seq<string> { Kept(Split(text)) }

  // --------------------------------------------- printing and reading back

  predicate OneLine(s: string) { '\n' !in s }

  /** What a name must be to survive: one line, no blanks around it, no `#`, an `.m4s` ending. */
  predicate GoodName(s: string) { OneLine(s) && Trim(s) == s && Lists(s) }

  function Names(entries: seq<Entry>): seq<string> {
    if entries == [] then [] else Names(entries[..|entries| - 1]) + [entries[|entries| - 1].name]
  }

  function WithoutCRs(lines: seq<string>): seq<string> {
    if lines == [] then [] else WithoutCRs(lines[..|lines| - 1]) + [WithoutCR(lines[|lines| - 1])]
  }

  lemma LastBreakIs(s: string, k: int)
    requires -1 <= k < |s| && (k >= 0 ==> s[k] == '\n') && forall i :: k < i < |s| ==> s[i] != '\n'
    ensures LastBreak(s) == k
  {
  }

  lemma {:induction false} SplitUnlines(lines: seq<string>)
    requires lines != [] && forall l :: l in lines ==> OneLine(l)
    ensures Unlines(lines) != "" && SplitBroken(Unlines(lines)[..|Unlines(lines)| - 1]) == WithoutCRs(lines)
  {
    hide LastBreak, WithoutCR;
    var front, last := lines[..|lines| - 1], lines[|lines| - 1];
    var body := Unlines(front) + last;
    assert OneLine(last);
    assert Unlines(lines)[..|Unlines(lines)| - 1] == body;
    if front == [] {
      assert body == last;
      LastBreakIs(last, -1);
    } else {
      SplitUnlines(front);
      BreakBefore(Unlines(front), last);
    }
  }

  lemma BreakBefore(a: string, last: string)
    requires a != "" && a[|a| - 1] == '\n' && OneLine(last)
    ensures SplitBroken(a + last) == SplitBroken(a[..|a| - 1]) + [WithoutCR(last)]
  {
    hide WithoutCR;
    var k, body := |a| - 1, a + last;
    LastBreakIs(body, k);
    assert body[..k] == a[..k] && body[k + 1..] == last;
  }

  lemma SplitText(lines: seq<string>)
    requires lines != [] && forall l :: l in lines ==> OneLine(l)
    ensures Split(Unlines(lines)) == WithoutCRs(lines) + [""]
  {
    hide LastBreak, WithoutCR;
    SplitUnlines(lines);
    var text := Unlines(lines);
    LastBreakIs(text, |text| - 1);
    assert text[|text|..] == "";
  }

  lemma {:induction false} KeptConcat(a: seq<string>, b: seq<string>)
    ensures Kept(a + b) == Kept(a) + Kept(b)
    decreases |b|
  {
    if b == [] {
      assert a + b == a;
    } else {
      KeptConcat(a, b[..|b| - 1]);
      assert (a + b)[..|a + b| - 1] == a + b[..|b| - 1];
    }
  }

  lemma WithoutCRsConcat(a: seq<string>, b: seq<string>)
    ensures WithoutCRs(a + b) == WithoutCRs(a) + WithoutCRs(b)
    decreases |b|
  {
    if b == [] {
      assert a + b == a;
    } else {
      WithoutCRsConcat(a, b[..|b| - 1]);
      assert (a + b)[..|a + b| - 1] == a + b[..|b| - 1];
    }
  }

  lemma {:induction false} TrimRightKeepsFirst(s: string)
    requires s != "" && !Blank(s[0])
    ensures TrimRight(s) != "" && TrimRight(s)[0] == s[0]
    decreases |s|
  {
    if Blank(s[|s| - 1]) { TrimRightKeepsFirst(s[..|s| - 1]); }
  }

  predicate IsTag(line: string) { line != "" && line[0] == '#' && OneLine(line) }

  lemma {:induction false} TagsAreNotKept(lines: seq<string>)
    requires forall l :: l in lines ==> IsTag(l)
    ensures Kept(WithoutCRs(lines)) == []
  {
    if lines != [] {
      var front, last := lines[..|lines| - 1], lines[|lines| - 1];
      TagsAreNotKept(front);
      assert (WithoutCRs(front) + [WithoutCR(last)])[..|WithoutCRs(front)|] == WithoutCRs(front);
      assert IsTag(last);
      TrimRightKeepsFirst(WithoutCR(last));
    }
  }

  lemma {:induction false} TrimRightShrinks(s: string)
    ensures |TrimRight(s)| <= |s|
    decreases |s|
  {
    if s != "" && Blank(s[|s| - 1]) { TrimRightShrinks(s[..|s| - 1]); }
  }

  lemma {:induction false} TrimLeftShrinks(s: string)
    ensures |TrimLeft(s)| <= |s|
    decreases |s|
  {
    if s != "" && Blank(s[0]) { TrimLeftShrinks(s[1..]); }
  }

  lemma {:induction false} TrimRightLast(s: string)
    requires s != "" && TrimRight(s) == s
    ensures !Blank(s[|s| - 1])
  {
    if Blank(s[|s| - 1]) { TrimRightShrinks(s[..|s| - 1]); }
  }

  lemma GoodNameIsKept(name: string)
    requires GoodName(name)
    ensures WithoutCR(name) == name && Kept([name]) == [name]
  {
    TrimLeftShrinks(name);
    TrimRightShrinks(TrimLeft(name));
    if Blank(name[0]) { TrimLeftShrinks(name[1..]); }
    TrimRightLast(name);
    assert [name][..0] == [];
  }

  lemma {:induction false} EntriesAreKept(entries: seq<Entry>)
    requires forall e :: e in entries ==> GoodName(e.name)
    ensures Kept(WithoutCRs(EntryLines(entries))) == Names(entries)
  {
    if entries != [] {
      var front, e := entries[..|entries| - 1], entries[|entries| - 1];
      EntriesAreKept(front);
      var two := [ExtInf(e), e.name];
      WithoutCRsConcat(EntryLines(front), two);
      KeptConcat(WithoutCRs(EntryLines(front)), WithoutCRs(two));
      assert two == [ExtInf(e)] + [e.name];
      WithoutCRsConcat([ExtInf(e)], [e.name]);
      KeptConcat(WithoutCRs([ExtInf(e)]), WithoutCRs([e.name]));
      ExtInfIsTag(e);
      TagsAreNotKept([ExtInf(e)]);
      GoodNameIsKept(e.name);
      assert WithoutCRs([e.name]) == WithoutCRs([e.name][..0]) + [e.name];
    }
  }

  lemma ExtInfIsTag(e: Entry)
    ensures IsTag(ExtInf(e))
  {
  }

  lemma HeaderIsTags(p: List)
    ensures Header(p) != []
    ensures forall l :: l in Header(p) ==> IsTag(l)
  {
    TagWithValue("#EXT-X-TARGETDURATION:", Integer(p.target));
    TagWithValue("#EXT-X-MEDIA-SEQUENCE:", Decimal(p.mediaSequence));
  }

  lemma TagWithValue(tag: string, value: string)
    requires IsTag(tag) && OneLine(value)
    ensures IsTag(tag + value)
  {
  }

  lemma {:induction false} EntryLinesAreOneLine(entries: seq<Entry>)
    requires forall e :: e in entries ==> OneLine(e.name)
    ensures forall l :: l in EntryLines(entries) ==> OneLine(l)
  {
    if entries != [] {
      EntryLinesAreOneLine(entries[..|entries| - 1]);
    }
  }

  lemma LinesReadBack(a: seq<string>, b: seq<string>, c: seq<string>)
    requires a != [] && forall l :: l in a + b + c ==> OneLine(l)
    ensures Listed(Unlines(a + b + c)) == Kept(WithoutCRs(a)) + Kept(WithoutCRs(b)) + Kept(WithoutCRs(c))
  {
    hide WithoutCRs, Unlines, Split;
    SplitText(a + b + c);
    WithoutCRsConcat(a + b, c);
    WithoutCRsConcat(a, b);
    KeptConcat(WithoutCRs(a + b + c), [""]);
    KeptConcat(WithoutCRs(a + b), WithoutCRs(c));
    KeptConcat(WithoutCRs(a), WithoutCRs(b));
    assert Kept([""]) == Kept([""][..0]) == [];
  }

  lemma GoodNamesReadBack(p: List)
    requires forall e :: e in p.entries ==> GoodName(e.name)
    ensures Listed(Text(p)) == Names(p.entries)
  {
    hide Header, EntryLines, Kept, WithoutCRs, Unlines, Listed, Names;
    var end := if p.ended then ["#EXT-X-ENDLIST"] else [];
    HeaderIsTags(p);
    EntryLinesAreOneLine(p.entries);
    LinesReadBack(Header(p), EntryLines(p.entries), end);
    TagsAreNotKept(Header(p));
    TagsAreNotKept(end);
    EntriesAreKept(p.entries);
  }

  // ------------------------------------------------ and only such names do

  lemma {:induction false} BrokenPiecesAreOneLine(s: string)
    ensures forall l :: l in SplitBroken(s) ==> OneLine(l)
    decreases |s|
  {
    if LastBreak(s) >= 0 { BrokenPiecesAreOneLine(s[..LastBreak(s)]); }
  }

  lemma {:induction false} TrimLeftIsTrimmed(s: string)
    ensures TrimLeft(s) == "" || !Blank(TrimLeft(s)[0])
    ensures OneLine(s) ==> OneLine(TrimLeft(s))
    decreases |s|
  {
    if s != "" && Blank(s[0]) { TrimLeftIsTrimmed(s[1..]); }
  }

  lemma {:induction false} TrimRightIsTrimmed(s: string)
    ensures TrimRight(TrimRight(s)) == TrimRight(s)
    ensures OneLine(s) ==> OneLine(TrimRight(s))
    ensures s != "" && !Blank(s[0]) ==> TrimLeft(TrimRight(s)) == TrimRight(s)
    decreases |s|
  {
    if s != "" && Blank(s[|s| - 1]) { TrimRightIsTrimmed(s[..|s| - 1]); }
  }

  lemma {:induction false} KeptIsGood(lines: seq<string>)
    requires forall l :: l in lines ==> OneLine(l)
    ensures forall n :: n in Kept(lines) ==> GoodName(n)
  {
    if lines != [] {
      KeptIsGood(lines[..|lines| - 1]);
      var last := lines[|lines| - 1];
      TrimLeftIsTrimmed(last);
      TrimRightIsTrimmed(TrimLeft(last));
    }
  }

  lemma ListedNamesAreGood(text: string)
    ensures forall n :: n in Listed(text) ==> GoodName(n)
  {
    var k := LastBreak(text);
    if k >= 0 { BrokenPiecesAreOneLine(text[..k]); }
    KeptIsGood(Split(text));
  }

  lemma {:induction false} EveryEntryIsNamed(entries: seq<Entry>, e: Entry)
    requires e in entries
    ensures e.name in Names(entries)
  {
    if e != entries[|entries| - 1] { EveryEntryIsNamed(entries[..|entries| - 1], e); }
  }

  /**
   The cloud reads back exactly the names the device listed, in order, if and
   only if every name is a good one.
   */
  lemma ReadsBackIffNamesAreGood(p: List)
    ensures Listed(Text(p)) == Names(p.entries) <==> forall e :: e in p.entries ==> GoodName(e.name)
  {
    if Listed(Text(p)) == Names(p.entries) {
      ListedNamesAreGood(Text(p));
      forall e | e in p.entries ensures GoodName(e.name) { EveryEntryIsNamed(p.entries, e); }
    }
    if forall e :: e in p.entries ==> GoodName(e.name) { GoodNamesReadBack(p); }
  }

  // ------------------------------------------------------------ the classes

  /** The printing loop of `rewrite`. */
  method Print(p: List) returns (text: string)
    ensures text == Text(p)
  {
    hide Header, ExtInf, EntryLines, Unlines;
    text := Unlines(Header(p));
    ghost var lines := Header(p);
    EntryLinesNone();
    for i := 0 to |p.entries|
      invariant lines == Header(p) + EntryLines(p.entries[..i])
      invariant text == Unlines(lines)
    {
      var e := p.entries[i];
      text := text + ExtInf(e) + "\n" + e.name + "\n";
      UnlinesTwo(lines, ExtInf(e), e.name);
      EntryLinesNext(p.entries, i);
      lines := lines + [ExtInf(e), e.name];
    }
    assert p.entries[..|p.entries|] == p.entries;
    if p.ended {
      UnlinesOne(lines, "#EXT-X-ENDLIST");
      text := text + "#EXT-X-ENDLIST" + "\n";
    } else {
      assert lines + [] == lines;
    }
  }

  class HlsPlaylist {
    var path: string
    var target: int
    var mediaSequence: nat
    var entries: seq<Entry>
    var ended: bool
    var file: string          // what the playlist file holds

    function State(): List
      reads this
    {
      List(path, target, mediaSequence, entries, ended)
    }

    /** The file on disk is the printed playlist. */
    ghost predicate Valid()
      reads this
    {
      TargetCovers(State()) && (path != "" ==> file == Text(State()))
    }

    constructor ()
      ensures Valid() && State() == List("", 300, 0, [], false)
    {
      path, target, mediaSequence, entries, ended, file := "", 300, 0, [], false, "";
    }

    method BeginAt(newPath: string, targetSec: int)
      modifies this
      ensures State() == Begin(newPath, targetSec) && Valid()
    {
      hide Text;
      path, mediaSequence, entries, ended := newPath, 0, [], false;
      target := if targetSec > 0 then targetSec else 300;
      Rewrite();
    }

    method AppendSegment(name: string, ms: int)
      requires Valid()
      modifies this
      ensures State() == Append(old(State()), name, ms) && Valid()
    {
      hide Text;
      if path == "" || name == "" {
        return;
      }
      var d := if ms > 1 then ms else 1;
      if Seconds(d) > target {
        target := Seconds(d);
      }
      entries, ended := entries + [Entry(name, d)], false;
      Rewrite();
    }

    method DropFront(name: string) returns (dropped: bool)
      requires Valid()
      modifies this
      ensures State() == DropFrontIf(old(State()), name) && Valid()
      ensures dropped <==> mediaSequence == old(mediaSequence) + 1
    {
      hide Text;
      if entries == [] || entries[0].name != name {
        return false;
      }
      entries, mediaSequence := entries[1..], mediaSequence + 1;
      Rewrite();
      dropped := true;
    }

    method FinishList()
      requires Valid()
      modifies this
      ensures State() == Finish(old(State())) && Valid()
    {
      hide Text;
      if path == "" || ended {
        return;
      }
      ended := true;
      Rewrite();
    }

    method Rewrite()
      modifies this`file
      ensures path != "" ==> file == Text(State())
      ensures path == "" ==> file == old(file)
    {
      hide Text;
      if path == "" {
        return;
      }
      var text := Print(State());
      file := text;
    }
  }

  lemma EntryLinesNone()
    ensures EntryLines([]) == []
  {
  }

  lemma EntryLinesNext(entries: seq<Entry>, i: nat)
    requires i < |entries|
    ensures EntryLines(entries[..i + 1]) == EntryLines(entries[..i]) + [ExtInf(entries[i]), entries[i].name]
  {
    assert entries[..i + 1][..i] == entries[..i];
  }

  lemma UnlinesOne(lines: seq<string>, a: string)
    ensures Unlines(lines + [a]) == Unlines(lines) + a + "\n"
  {
    assert (lines + [a])[..|lines|] == lines;
  }

  lemma UnlinesTwo(lines: seq<string>, a: string, b: string)
    ensures Unlines(lines + [a, b]) == Unlines(lines) + a + "\n" + b + "\n"
  {
    UnlinesOne(lines, a);
    UnlinesOne(lines + [a], b);
    assert lines + [a] + [b] == lines + [a, b];
  }

  /** The cloud's prune over a directory listing: every media file the index does not name is deleted. */
  method PruneUnlisted(text: string, names: seq<string>) returns (deleted: seq<string>)
    ensures forall n :: n in deleted <==> n in names && IsMedia(n) && n !in Listed(text)
  {
    hide Listed, IsMedia;
    var keep := Listed(text);
    deleted := [];
    for i := 0 to |names|
      invariant forall n :: n in deleted <==> n in names[..i] && IsMedia(n) && n !in keep
    {
      if IsMedia(names[i]) && names[i] !in keep {
        deleted := deleted + [names[i]];
      }
    }
  }

  /** Device and cloud together: the prune after an upload deletes exactly the media files the device does not list. */
  method PruneAfterUpload(p: List, names: seq<string>) returns (deleted: seq<string>)
    requires forall e :: e in p.entries ==> GoodName(e.name)
    ensures forall n :: n in deleted <==> n in names && IsMedia(n) && n !in Names(p.entries)
  {
    hide Text, Listed, IsMedia, GoodName;
    GoodNamesReadBack(p);
    var text := Print(p);
    deleted := PruneUnlisted(text, names);
  }
}
