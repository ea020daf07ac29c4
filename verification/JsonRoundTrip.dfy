/** Reading back what the writer printed. */
module JsonRoundTrip {
  import opened Base
  import opened Json
  import opened JsonText

  // ------------------------------------------------------------------- numbers

  lemma {:induction false} AccumulateLast(a: string, c: char, value: nat, threshold: nat)
    requires value < 10 * threshold && IsDigit(c)
    ensures Accumulate(a + [c], value, threshold) ==
            match Accumulate(a, value, threshold)
            case Fits(n) => if n >= threshold then TooBig else Fits(n * 10 + (c as int - '0' as int))
            case other => other
  {
    if a != "" {
      assert (a + [c])[1..] == a[1..] + [c];
      if IsDigit(a[0]) && value < threshold {
        AccumulateLast(a[1..], c, value * 10 + (a[0] as int - '0' as int), threshold);
      }
    }
  }

  /** A printed number is taken for an integer exactly when all but its last digit stay below the threshold. */
  lemma {:induction false} AccumulateDecimal(n: nat, threshold: nat)
    requires threshold > 0
    ensures Accumulate(Decimal(n), 0, threshold) == if n / 10 < threshold then Fits(n) else TooBig
  {
    if n >= 10 {
      AccumulateDecimal(n / 10, threshold);
      AccumulateLast(Decimal(n / 10), Digit(n % 10), 0, threshold);
    }
  }

  /** Text ending here ends a number. */
  predicate Ends(rest: string) { rest == "" || !IsNumberChar(rest[0]) }

  lemma {:induction false} AfterDigits(digits: string, rest: string)
    requires Ends(rest) && forall i :: 0 <= i < |digits| ==> IsNumberChar(digits[i])
    ensures AfterNumber(digits + rest) == rest
  {
    if digits != "" {
      assert (digits + rest)[1..] == digits[1..] + rest;
      AfterDigits(digits[1..], rest);
    }
  }

  /** A scanner that takes every decimal integer, as C's does. */
  ghost predicate TakesIntegers(scan: Scanner) {
    forall n: nat :: scan(Decimal(n)) && scan("-" + Decimal(n))
  }

  lemma SignedText(n: int, text: string)
    requires text == Signed(n)
    ensures text != "" && (IsDigit(text[0]) || text[0] == '-')
    ensures forall i :: 1 <= i < |text| ==> IsDigit(text[i])
    ensures (text[0] == '-') == (n < 0) && !LooksReal(text)
  {
  }

  /** What becomes of an integer: extreme ones come back as reals. */
  function IntAgain(n: int): Value {
    if -2147483639 <= n <= MAX_INT then JInt(n)
    else if MAX_INT < n <= 4294967289 then JUInt(n)
    else JReal(Signed(n))
  }

  lemma DecodeSigned(n: int, scan: Scanner)
    requires TakesIntegers(scan)
    ensures DecodeNumber(Signed(n), scan) == Some(IntAgain(n))
  {
    hide LooksReal, Accumulate, Decimal;
    SignedText(n, Signed(n));
    if n < 0 {
      AccumulateDecimal(-n, 214748364);
    } else {
      AccumulateDecimal(n, 429496729);
    }
  }

  // ------------------------------------------------------------------- strings

  /** One escaped character is skipped whole and decoded to itself. */
  lemma EscapedBack(c: char, s: string, done: string)
    requires c != '\0'
    ensures AfterString(Escaped(c) + s) == AfterString(s)
    ensures Unescape(Escaped(c) + s, done) == Unescape(s, done + [c])
  {
    var e := Escaped(c);
    if |e| > 2 {
      ControlBack(c, s, done);
    }
  }

  lemma HexDigitBack(d: nat)
    requires d < 16
    ensures HexValue(HexDigit(d)) == Some(d) && HexDigit(d) != '\\' && HexDigit(d) != '"'
  {
  }

  lemma ControlBack(c: char, s: string, done: string)
    requires IsControl(c) && |Escaped(c)| > 2
    ensures AfterString(Escaped(c) + s) == AfterString(s)
    ensures Unescape(Escaped(c) + s, done) == Unescape(s, done + [c])
  {
    hide AfterString, Unescape, CodePoint, HexValue;
    var x, y := HexDigit(c as int / 16), HexDigit(c as int % 16);
    HexDigitBack(c as int / 16);
    HexDigitBack(c as int % 16);
    assert Escaped(c) + s == ['\\', 'u'] + (['0', '0', x, y] + s);
    FourCharacters(x, y, s);
    HexBack(x, y, c as int / 16, c as int % 16, s);
    EscapeTurn(['0', '0', x, y] + s, done);
  }

  lemma EscapeTurn(s: string, done: string)
    ensures AfterString(['\\', 'u'] + s) == AfterString(s)
    ensures var cp := CodePoint(s);
            cp.Some? ==> Unescape(['\\', 'u'] + s, done) == Unescape(cp.value.1, done + Utf8(cp.value.0))
  {
    hide CodePoint, Utf8;
  }

  lemma OneCharacter(c: char, s: string)
    requires c != '\\' && c != '"'
    ensures AfterString([c] + s) == AfterString(s)
  {
  }

  lemma FourCharacters(x: char, y: char, s: string)
    requires x != '\\' && x != '"' && y != '\\' && y != '"'
    ensures AfterString(['0', '0', x, y] + s) == AfterString(s)
  {
    hide AfterString;
    OneCharacter(y, s);
    OneCharacter(x, [y] + s);
    OneCharacter('0', [x] + ([y] + s));
    OneCharacter('0', ['0'] + ([x] + ([y] + s)));
    assert ['0', '0', x, y] + s == ['0'] + (['0'] + ([x] + ([y] + s)));
  }

  lemma HexBack(x: char, y: char, h: nat, l: nat, s: string)
    requires HexValue(x) == Some(h) && HexValue(y) == Some(l) && h < 2 && l < 16
    ensures CodePoint(['0', '0', x, y] + s) == Some((h * 16 + l, s))
  {
  }

  lemma {:induction false} EscapeBack(s: string, rest: string, done: string)
    requires NulFree(s)
    ensures AfterString(Escape(s) + ("\"" + rest)) == Some(rest)
    ensures Unescape(Escape(s), done) == Some(done + s)
  {
    if s == "" {
      assert "" + ("\"" + rest) == "\"" + rest && ("\"" + rest)[1..] == rest;
      assert done + s == done;
    } else {
      hide AfterString, Unescape, Escaped;
      var tail := Escape(s[1..]);
      Glue(Escaped(s[0]), tail, "\"" + rest);
      EscapedBack(s[0], tail + ("\"" + rest), done);
      EscapedBack(s[0], tail, done);
      EscapeBack(s[1..], rest, done + [s[0]]);
      Glue(done, [s[0]], s[1..]);
      assert [s[0]] + s[1..] == s;
    }
  }

  /** A quoted string is one token, whatever follows, and decodes to the string. */
  lemma QuotedBack(s: string, rest: string)
    requires NulFree(s)
    ensures ReadToken(Quoted(s) + rest) == Token(StringToken, Quoted(s), rest) == NextToken(Quoted(s) + rest)
    ensures DecodeString(Quoted(s)) == Some(s)
  {
    hide AfterString, Unescape, Escape;
    var t := Quoted(s) + rest;
    var e := Escape(s);
    assert t[0] == '"' && t[1..] == e + ("\"" + rest);
    EscapeBack(s, rest, "");
    assert Quoted(s)[1..|Quoted(s)| - 1] == e;
    assert "" + s == s;
  }

  // -------------------------------------------------------------------- values

  /** What comes back: the value itself, but for its integers. */
  function Again(v: Value): Value
    decreases v
  {
    match v
    case JInt(n) => IntAgain(n)
    case JUInt(u) => IntAgain(u)
    case JArr(items) => JArr(ItemsAgain(items))
    case JObj(members) => JObj(MembersAgain(members))
    case _ => v
  }

  function ItemsAgain(items: seq<Value>): (r: seq<Value>)
    ensures |r| == |items| && forall i :: 0 <= i < |items| ==> r[i] == Again(items[i])
    decreases items
  {
    if items == [] then [] else [Again(items[0])] + ItemsAgain(items[1..])
  }

  function MembersAgain(members: seq<Member>): (r: seq<Member>)
    ensures |r| == |members|
    ensures forall i :: 0 <= i < |members| ==> r[i] == Member(members[i].key, Again(members[i].value))
    decreases members
  {
    if members == [] then [] else [Member(members[0].key, Again(members[0].value))] + MembersAgain(members[1..])
  }

  /** A token of one character. */
  lemma Mark(c: char, s: string)
    requires c in "{}[],:"
    ensures var t := ReadToken([c] + s);
            t.rest == s && t == NextToken([c] + s) && t.kind ==
            (if c == '{' then ObjectBegin else if c == '}' then ObjectEnd else if c == '[' then ArrayBegin
             else if c == ']' then ArrayEnd else if c == ',' then Comma else Colon)
  {
    assert ([c] + s)[1..] == s;
  }

  lemma TextStarts(v: Value)
    requires NoReals(v)
    ensures Text(v) != "" && !IsSpace(Text(v)[0]) && Text(v)[0] != ']'
  {
  }

  lemma NumberIsToken(n: int, rest: string)
    requires Ends(rest)
    ensures NextToken(Signed(n) + rest) == Token(NumberToken, Signed(n), rest)
  {
    hide Signed, AfterNumber;
    var text := Signed(n);
    var t := text + rest;
    SignedText(n, text);
    assert t[1..] == text[1..] + rest;
    AfterDigits(text[1..], rest);
  }

  lemma NumberBack(n: int, rest: string, scan: Scanner)
    requires TakesIntegers(scan) && Ends(rest)
    ensures ReadValue(Signed(n) + rest, scan) == Good(IntAgain(n), rest)
  {
    hide NextToken, DecodeNumber, IntAgain, Signed;
    NumberIsToken(n, rest);
    DecodeSigned(n, scan);
  }

  lemma WordIsToken(v: Value, rest: string)
    requires v.JNull? || v.JBool?
    ensures NextToken(Text(v) + rest) ==
            Token(if v.JNull? then NullToken else if v.b then TrueToken else FalseToken, Text(v), rest)
  {
    hide AfterString, AfterComment, AfterNumber;
    var word := Text(v);
    StartsWith(word[1..], rest);
  }

  lemma StartsWith(word: string, rest: string)
    ensures Starts(word + rest, word) && (word + rest)[|word|..] == rest
  {
  }

  lemma WordBack(v: Value, rest: string, scan: Scanner)
    requires v.JNull? || v.JBool?
    ensures ReadValue(Text(v) + rest, scan) == Good(v, rest)
  {
    hide NextToken, Text;
    WordIsToken(v, rest);
  }

  lemma StringBack(s: string, rest: string, scan: Scanner)
    requires NulFree(s)
    ensures ReadValue(Quoted(s) + rest, scan) == Good(JStr(s), rest)
  {
    hide NextToken, Quoted, DecodeString;
    QuotedBack(s, rest);
  }

  lemma {:induction false} ReadBack(v: Value, rest: string, scan: Scanner)
    requires WellFormed(v) && NoReals(v) && TakesIntegers(scan) && Ends(rest)
    ensures ReadValue(Text(v) + rest, scan) == Good(Again(v), rest)
    decreases v, 1
  {
    match v
    case JInt(n) => NumberBack(n, rest, scan);
    case JUInt(u) => NumberBack(u, rest, scan);
    case JStr(s) => StringBack(s, rest, scan);
    case JArr(items) => ArrayBack(items, rest, scan);
    case JObj(members) => ObjectBack(members, rest, scan);
    case _ => WordBack(v, rest, scan);
  }

  /** One turn of the array loop. */
  lemma ItemsTurn(s: string, items: seq<Value>, scan: Scanner)
    ensures var r := ReadValue(s, scan);
            var t := NextToken(r.rest);
            r.Good? ==> ReadItems(s, items, scan) ==
                        if t.kind == ArrayEnd then Good(JArr(items + [r.value]), t.rest)
                        else ReadItems(t.rest, items + [r.value], scan)
  {
    hide ReadValue, NextToken;
  }

  lemma ArrayStarts(s: string, inside: string, scan: Scanner)
    requires s == "[" + inside && inside != "" && !IsSpace(inside[0])
    ensures ReadValue(s, scan) == if inside[0] == ']' then Good(JArr([]), inside[1..]) else ReadItems(inside, [], scan)
  {
    hide NextToken, ReadToken, ReadItems;
    Mark('[', inside);
  }

  /** One turn of the object loop, up to the mark after the member's value. */
  lemma MembersTurn(
    members: seq<Member>, last: string, key: string, text: string, v: Value, c: char, rest: string, scan: Scanner)
    requires NulFree(key) && (c == '}' || c == ',') && ReadValue(text, scan) == Good(v, [c] + rest)
    ensures ReadMembers(Quoted(key) + (":" + text), members, last, scan) ==
            var now := Put(members, key, v);
            if c == '}' then Good(JObj(now), rest) else ReadMembers(rest, now, key, scan)
  {
    hide ReadValue, NextToken, ReadToken, Put, DecodeString, Quoted;
    QuotedBack(key, ":" + text);
    Mark(':', text);
    Mark(c, rest);
  }

  lemma ObjectStarts(s: string, inside: string, scan: Scanner)
    requires s == "{" + inside
    ensures ReadValue(s, scan) == ReadMembers(inside, [], "", scan)
  {
    hide NextToken, ReadToken, ReadMembers;
    Mark('{', inside);
  }

  lemma ObjectEnds(rest: string, scan: Scanner)
    ensures ReadMembers("}" + rest, [], "", scan) == Good(JObj([]), rest)
  {
    hide NextToken, ReadToken;
    Mark('}', rest);
  }

  ghost predicate ItemsFit(items: seq<Value>) {
    forall i :: 0 <= i < |items| ==> WellFormed(items[i]) && NoReals(items[i])
  }

  lemma {:induction false} ArrayBack(items: seq<Value>, rest: string, scan: Scanner)
    requires ItemsFit(items) && TakesIntegers(scan)
    ensures ReadValue("[" + ItemTexts(items) + rest, scan) == Good(JArr(ItemsAgain(items)), rest)
    decreases items, 2
  {
    hide ReadValue, ReadItems, Text, Again, WellFormed, NoReals;
    var inside := ItemTexts(items) + rest;
    Glue("[", ItemTexts(items), rest);
    if items != [] {
      TextStarts(items[0]);
      ItemsBack(items, [], rest, scan);
      assert [] + ItemsAgain(items) == ItemsAgain(items);
    }
    ArrayStarts("[" + inside, inside, scan);
  }

  lemma {:induction false} ItemsBack(items: seq<Value>, done: seq<Value>, rest: string, scan: Scanner)
    requires items != [] && ItemsFit(items) && TakesIntegers(scan)
    ensures ReadItems(ItemTexts(items) + rest, done, scan) == Good(JArr(done + ItemsAgain(items)), rest)
    decreases items, 1
  {
    hide ReadValue, ReadItems, ReadToken, NextToken, Text, Again, ItemsAgain;
    hide WellFormed, NoReals, TakesIntegers, IsNumberChar, Ends;
    var after := AfterItem(items) + rest;
    var now := done + [Again(items[0])];
    Glue(Text(items[0]), AfterItem(items), rest);
    MarkEnds(after);
    ReadBack(items[0], after, scan);
    ItemsTurn(Text(items[0]) + after, done, scan);
    GatherItems(done, items);
    if |items| == 1 {
      Mark(']', rest);
    } else {
      var more := ItemTexts(items[1..]) + rest;
      Glue(",", ItemTexts(items[1..]), rest);
      Mark(',', more);
      ItemsBack(items[1..], now, rest, scan);
    }
  }

  lemma MarkEnds(after: string)
    requires after != "" && after[0] in "]},"
    ensures Ends(after)
  {
  }

  lemma GatherItems(done: seq<Value>, items: seq<Value>)
    requires items != []
    ensures done + [Again(items[0])] + ItemsAgain(items[1..]) == done + ItemsAgain(items)
    ensures |items| == 1 ==> done + [Again(items[0])] == done + ItemsAgain(items)
  {
    hide Again;
    Glue(done, [Again(items[0])], ItemsAgain(items[1..]));
  }

  ghost predicate MembersFit(members: seq<Member>) {
    && Sorted(members)
    && forall i :: 0 <= i < |members| ==>
         NulFree(members[i].key) && WellFormed(members[i].value) && NoReals(members[i].value)
  }

  lemma {:induction false} ObjectBack(members: seq<Member>, rest: string, scan: Scanner)
    requires MembersFit(members) && TakesIntegers(scan)
    ensures ReadValue("{" + MemberTexts(members) + rest, scan) == Good(JObj(MembersAgain(members)), rest)
    decreases members, 2
  {
    hide ReadValue, ReadMembers, Text, Again, WellFormed, NoReals;
    var inside := MemberTexts(members) + rest;
    Glue("{", MemberTexts(members), rest);
    ObjectStarts("{" + inside, inside, scan);
    if members == [] {
      ObjectEnds(rest, scan);
    } else {
      MembersBack(members, [], "", rest, scan);
      assert [] + MembersAgain(members) == MembersAgain(members);
    }
  }

  lemma FirstMember(members: seq<Member>, rest: string)
    requires members != []
    ensures MemberTexts(members) + rest ==
            Quoted(members[0].key) + (":" + (Text(members[0].value) + (AfterMember(members) + rest)))
  {
    hide Quoted, Text, AfterMember;
  }

  ghost predicate Below(done: seq<Member>, members: seq<Member>) {
    forall d, m :: d in done && m in members ==> Less(d.key, m.key)
  }

  lemma NextMember(done: seq<Member>, members: seq<Member>, v: Value)
    requires members != [] && MembersFit(members) && Below(done, members)
    ensures MembersFit(members[1..]) && Below(done + [Member(members[0].key, v)], members[1..])
    ensures NulFree(members[0].key) && WellFormed(members[0].value) && NoReals(members[0].value)
    ensures Put(done, members[0].key, v) == done + [Member(members[0].key, v)]
  {
    hide WellFormed, NoReals, Less;
    PutLast(done, members[0].key, v);
  }

  lemma {:induction false} MembersBack(
    members: seq<Member>, done: seq<Member>, last: string, rest: string, scan: Scanner)
    requires members != [] && MembersFit(members) && TakesIntegers(scan)
    requires Below(done, members)
    ensures ReadMembers(MemberTexts(members) + rest, done, last, scan) == Good(JObj(done + MembersAgain(members)), rest)
    decreases members, 1
  {
    hide ReadValue, ReadMembers, ReadMember, ReadToken, NextToken, Text, MemberTexts, Again, Quoted, Put;
    hide WellFormed, NoReals, MembersFit, Below, TakesIntegers, IsNumberChar, Ends;
    var m := members[0];
    var v := Again(m.value);
    var now := done + [Member(m.key, v)];
    var after := AfterMember(members) + rest;
    FirstMember(members, rest);
    MarkEnds(after);
    NextMember(done, members, v);
    ReadBack(m.value, after, scan);
    if |members| == 1 {
      MembersTurn(done, last, m.key, Text(m.value) + after, v, '}', rest, scan);
      assert now == done + MembersAgain(members);
    } else {
      var more := MemberTexts(members[1..]) + rest;
      MembersTurn(done, last, m.key, Text(m.value) + after, v, ',', more, scan);
      MembersBack(members[1..], now, m.key, rest, scan);
      Gather(done, members);
    }
  }

  lemma Gather(done: seq<Member>, members: seq<Member>)
    requires members != []
    ensures done + [Member(members[0].key, Again(members[0].value))] + MembersAgain(members[1..])
         == done + MembersAgain(members)
  {
    hide Again;
    Glue(done, [Member(members[0].key, Again(members[0].value))], MembersAgain(members[1..]));
  }

  lemma {:induction false} AgainIsSame(v: Value)
    requires WellFormed(v) && NoReals(v)
    ensures Again(v) == v <==> Exact(v)
    decreases v
  {
    match v
    case JArr(items) =>
      forall i | 0 <= i < |items| ensures Again(items[i]) == items[i] <==> Exact(items[i]) { AgainIsSame(items[i]); }
    case JObj(members) =>
      forall i | 0 <= i < |members| ensures Again(members[i].value) == members[i].value <==> Exact(members[i].value) {
        AgainIsSame(members[i].value);
      }
    case _ =>
  }

  /**
   Parsing what the writer printed always succeeds, and gives the value back exactly
   when its integers keep away from the last few of their range.
   */
  lemma WriteThenParse(v: Value, scan: Scanner)
    requires WellFormed(v) && NoReals(v) && TakesIntegers(scan)
    ensures Parse(Write(v), scan) == Some(Again(v))
    ensures Parse(Write(v), scan) == Some(v) <==> Exact(v)
  {
    ReadBack(v, "\n", scan);
    AgainIsSame(v);
  }

  /** The two ends of the failing range: these print as integers and read as reals. */
  lemma ExtremeIntegersComeBackAsReals(scan: Scanner)
    requires TakesIntegers(scan)
    ensures Parse(Write(JInt(-2147483640)), scan) == Some(JReal(Signed(-2147483640)))
    ensures Parse(Write(JUInt(4294967290)), scan) == Some(JReal(Signed(4294967290)))
  {
    WriteThenParse(JInt(-2147483640), scan);
    WriteThenParse(JUInt(4294967290), scan);
  }

  // ---------------------------------------- everything the reader accepts is good

  ghost predicate Read(v: Value) { WellFormed(v) && Exact(v) }

  lemma NumberIsRead(text: string, scan: Scanner)
    ensures var v := DecodeNumber(text, scan); v.Some? ==> Read(v.value)
  {
  }

  lemma PutIsRead(members: seq<Member>, key: string, v: Value)
    requires Read(JObj(members)) && NulFree(key) && Read(v)
    ensures Read(JObj(Put(members, key, v)))
  {
    PutKeepsOrder(members, key, v);
    PutMembers(members, key, v);
  }

  lemma {:induction false} ValueIsRead(s: string, scan: Scanner)
    ensures var r := ReadValue(s, scan); r.Good? ==> Read(r.value)
    decreases |s|, 0
  {
    var t := NextToken(s);
    match t.kind
    case ObjectBegin => MembersAreRead(t.rest, [], "", scan);
    case ArrayBegin => ItemsAreRead(SkipSpaces(t.rest), [], scan);
    case NumberToken => NumberIsRead(t.text, scan);
    case _ =>
  }

  lemma {:induction false} ItemsAreRead(s: string, items: seq<Value>, scan: Scanner)
    requires Read(JArr(items))
    ensures var r := ReadItems(s, items, scan); r.Good? ==> Read(r.value)
    decreases |s|, 1
  {
    ValueIsRead(s, scan);
    var r := ReadValue(s, scan);
    if r.Good? {
      var t := NextToken(r.rest);
      if t.kind != ArrayEnd { ItemsAreRead(t.rest, items + [r.value], scan); }
    }
  }

  lemma {:induction false} MembersAreRead(s: string, members: seq<Member>, last: string, scan: Scanner)
    requires Read(JObj(members))
    ensures var r := ReadMembers(s, members, last, scan); r.Good? ==> Read(r.value)
    decreases |s|, 0
  {
    var t := NextToken(s);
    if t.kind == StringToken {
      var name := DecodeString(t.text);
      if name.Some? { MemberIsRead(t.rest, members, name.value, scan); }
    }
  }

  lemma {:induction false} MemberIsRead(s: string, members: seq<Member>, name: string, scan: Scanner)
    requires Read(JObj(members))
    ensures var r := ReadMember(s, members, name, scan); r.Good? ==> Read(r.value)
    decreases |s|, 1
  {
    var colon := ReadToken(s);
    if colon.kind == Colon {
      ValueIsRead(colon.rest, scan);
      var r := ReadValue(colon.rest, scan);
      if r.Good? {
        PutIsRead(members, Cut(name), r.value);
        MembersAreRead(NextToken(r.rest).rest, Put(members, Cut(name), r.value), name, scan);
      }
    }
  }

  /**
   Whatever text the reader accepts, its value is well formed, and unless it holds a
   real number, printing and reading it again changes nothing.
   */
  lemma ReprintingIsLossless(document: string, scan: Scanner)
    requires TakesIntegers(scan)
    ensures var v := Parse(document, scan);
            v.Some? ==> WellFormed(v.value) && (NoReals(v.value) ==> Parse(Write(v.value), scan) == v)
  {
    ValueIsRead(document, scan);
    var v := Parse(document, scan);
    if v.Some? && NoReals(v.value) { WriteThenParse(v.value, scan); }
  }
}
