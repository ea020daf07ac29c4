/**
 What the reader makes of texts the printer never writes: Unicode escapes, blanks
 and comments, and arrays with the wrong separator.
 */
module JsonInput {
  import opened Base
  import opened Json
  import opened JsonText
  import opened JsonRoundTrip

  // ------------------------------------------------------------ Unicode escapes

  /** A code point that is not half of a surrogate pair. */
  predicate Scalar(cp: nat) { cp <= 0x10FFFF && !(0xD800 <= cp <= 0xDFFF) }

  function Hex4Text(n: nat): (text: string)
    requires n <= 0xFFFF
    ensures |text| == 4
  {
    [HexDigit(n / 4096), HexDigit(n / 256 % 16), HexDigit(n / 16 % 16), HexDigit(n % 16)]
  }

  /** The JSON escape of a code point: one escape, or a surrogate pair (section 7 of RFC 8259). */
  function EscapePoint(cp: nat): string
    requires Scalar(cp)
  {
    if cp <= 0xFFFF then "\\u" + Hex4Text(cp)
    else "\\u" + Hex4Text(0xD800 + (cp - 0x10000) / 1024) + "\\u" + Hex4Text(0xDC00 + (cp - 0x10000) % 1024)
  }

  /**
   The UTF-8 decoder of section 3 of RFC 3629, for one whole sequence: overlong forms,
   encoded surrogates and values beyond 0x10FFFF are refused.
   */
  function FromUtf8(s: string): Option<nat> {
    match Unpacked(s)
    case None => None
    case Some(cp) => if Scalar(cp) && Shortest(cp) == |s| then Some(cp) else None
  }

  /** The number of bytes a code point takes. */
  function Shortest(cp: nat): nat { if cp < 0x80 then 1 else if cp < 0x800 then 2 else if cp < 0x10000 then 3 else 4 }

  /** The payload bits of a lead byte and its continuation bytes. */
  function Unpacked(s: string): Option<nat> {
    if |s| == 1 && s[0] as int < 0x80 then Some(s[0] as int)
    else if |s| == 2 && 0xC0 <= s[0] as int < 0xE0 && Tail(s[1]) then Some((s[0] as int - 0xC0) * 64 + Low(s[1]))
    else if |s| == 3 && 0xE0 <= s[0] as int < 0xF0 && Tail(s[1]) && Tail(s[2]) then
      Some(((s[0] as int - 0xE0) * 64 + Low(s[1])) * 64 + Low(s[2]))
    else if |s| == 4 && 0xF0 <= s[0] as int < 0xF8 && Tail(s[1]) && Tail(s[2]) && Tail(s[3]) then
      Some((((s[0] as int - 0xF0) * 64 + Low(s[1])) * 64 + Low(s[2])) * 64 + Low(s[3]))
    else None
  }

  predicate Tail(c: char) { 0x80 <= c as int < 0xC0 }

  function Low(c: char): nat
    requires Tail(c)
  {
    c as int - 0x80
  }

  lemma SixtyFourAgain(n: nat, k: nat)
    requires k == 64 || k == 4096
    ensures n / (64 * k) == n / k / 64
  {
  }

  /** The encoder writes valid UTF-8 for exactly the scalar values, and the decoder takes it back. */
  lemma Utf8Decodes(cp: nat)
    ensures FromUtf8(Utf8(cp)) == Some(cp) <==> Scalar(cp)
  {
    if cp <= 0x10FFFF {
      UnpackedBack(cp);
    }
  }

  lemma UnpackedBack(cp: nat)
    requires cp <= 0x10FFFF
    ensures Unpacked(Utf8(cp)) == Some(cp) && |Utf8(cp)| == Shortest(cp)
  {
    assert cp / 64 * 64 + cp % 64 == cp && cp / 4096 * 64 + cp / 64 % 64 == cp / 64 by { SixtyFourAgain(cp, 64); }
    SixtyFourAgain(cp, 64);
    SixtyFourAgain(cp, 4096);
  }

  lemma Hex4Back(n: nat, s: string)
    requires n <= 0xFFFF
    ensures Hex4(Hex4Text(n) + s) == Some(n) && (Hex4Text(n) + s)[4..] == s
  {
    hide HexValue, HexDigit, Hex4;
    HexDigitBack(n / 4096);
    HexDigitBack(n / 256 % 16);
    HexDigitBack(n / 16 % 16);
    HexDigitBack(n % 16);
    FourDigits(HexDigit(n / 4096), HexDigit(n / 256 % 16), HexDigit(n / 16 % 16), HexDigit(n % 16), s);
    FourNibbles(n);
  }

  lemma FourNibbles(n: nat)
    ensures ((n / 4096 * 16 + n / 256 % 16) * 16 + n / 16 % 16) * 16 + n % 16 == n
  {
    SixteenAgain(n, 16);
    SixteenAgain(n, 256);
  }

  lemma SixteenAgain(n: nat, k: nat)
    requires k == 16 || k == 256
    ensures n / (16 * k) == n / k / 16
  {
  }

  lemma FourDigits(a: char, b: char, c: char, d: char, s: string)
    requires HexValue(a).Some? && HexValue(b).Some? && HexValue(c).Some? && HexValue(d).Some?
    ensures Hex4([a, b, c, d] + s) ==
            Some(((HexValue(a).value * 16 + HexValue(b).value) * 16 + HexValue(c).value) * 16 + HexValue(d).value)
  {
    hide HexValue, Hex;
    var x, y := HexValue(a).value, HexValue(b).value;
    var t, u, v := [d] + s, [c] + ([d] + s), [b] + ([c] + ([d] + s));
    HexTurn(a, v, 3, 0);
    HexTurn(b, u, 2, x);
    HexTurn(c, t, 1, x * 16 + y);
    HexTurn(d, s, 0, (x * 16 + y) * 16 + HexValue(c).value);
    HexNone(s, ((x * 16 + y) * 16 + HexValue(c).value) * 16 + HexValue(d).value);
    assert [a, b, c, d] + s == [a] + v;
  }

  lemma HexNone(s: string, acc: nat)
    ensures Hex(s, 0, acc) == Some(acc)
  {
  }

  lemma HexTurn(c: char, s: string, n: nat, acc: nat)
    requires HexValue(c).Some? && n <= |s|
    ensures Hex([c] + s, n + 1, acc) == Hex(s, n, acc * 16 + HexValue(c).value)
  {
    assert ([c] + s)[1..] == s;
  }

  lemma PointBack(cp: nat, s: string)
    requires Scalar(cp)
    ensures |EscapePoint(cp)| >= 2 && CodePoint(EscapePoint(cp)[2..] + s) == Some((cp, s))
  {
    hide Hex4, Hex4Text, CodePoint;
    if cp <= 0xFFFF {
      assert EscapePoint(cp)[2..] == Hex4Text(cp);
      Hex4Back(cp, s);
      SingleBack(cp, Hex4Text(cp) + s, s);
    } else {
      var hi, lo := 0xD800 + (cp - 0x10000) / 1024, 0xDC00 + (cp - 0x10000) % 1024;
      var second := Hex4Text(lo) + s;
      SplitPair(Hex4Text(hi), Hex4Text(lo), s);
      assert EscapePoint(cp)[2..] + s == Hex4Text(hi) + ("\\u" + second);
      Hex4Back(hi, "\\u" + second);
      Hex4Back(lo, s);
      PairBack(hi, lo, Hex4Text(hi) + ("\\u" + second), second, s);
    }
  }

  lemma SplitPair(hi: string, lo: string, s: string)
    ensures ("\\u" + hi + "\\u" + lo)[2..] + s == hi + ("\\u" + (lo + s))
  {
    assert ("\\u" + hi + "\\u" + lo)[2..] == hi + "\\u" + lo;
  }

  lemma SingleBack(cp: nat, t: string, s: string)
    requires Scalar(cp) && |t| >= 4 && t[4..] == s && Hex4(t) == Some(cp)
    ensures CodePoint(t) == Some((cp, s))
  {
    hide Hex4;
  }

  lemma PairBack(hi: nat, lo: nat, t: string, second: string, s: string)
    requires 0xD800 <= hi <= 0xDBFF && 0xDC00 <= lo <= 0xDFFF
    requires |second| >= 4 && |t| >= 4 && t[4..] == "\\u" + second && second[4..] == s
    requires Hex4(t) == Some(hi) && Hex4(second) == Some(lo)
    ensures CodePoint(t) == Some((0x10000 + (hi - 0xD800) * 1024 + (lo - 0xDC00), s))
  {
    hide Hex4;
    assert t[4] == t[4..][0] && t[5] == t[4..][1] && t[6..] == t[4..][2..] && t[10..] == second[4..];
  }

  /**
   Every Unicode character can be written as an escape and comes out as its UTF-8
   encoding, wherever in a string it stands.
   */
  lemma EscapesDecodeToUtf8(cp: nat, s: string, done: string)
    requires Scalar(cp)
    ensures Unescape(EscapePoint(cp) + s, done) == Unescape(s, done + Utf8(cp))
    ensures FromUtf8(Utf8(cp)) == Some(cp)
  {
    hide CodePoint, Utf8, FromUtf8, Unescape, EscapePoint;
    PointBack(cp, s);
    Utf8Decodes(cp);
    EscapeStarts(cp);
    Glue(['\\', 'u'], EscapePoint(cp)[2..], s);
    EscapeTurn(EscapePoint(cp)[2..] + s, done);
  }

  lemma EscapeStarts(cp: nat)
    requires Scalar(cp)
    ensures |EscapePoint(cp)| >= 2 && EscapePoint(cp) == ['\\', 'u'] + EscapePoint(cp)[2..]
  {
  }

  // -------------------------------------------------------- blanks and comments

  lemma {:induction false} SkipBlanks(blanks: string, s: string)
    requires forall i :: 0 <= i < |blanks| ==> IsSpace(blanks[i])
    ensures SkipSpaces(blanks + s) == SkipSpaces(s)
  {
    if blanks == "" {
      assert blanks + s == s;
    } else {
      assert (blanks + s)[1..] == blanks[1..] + s;
      SkipBlanks(blanks[1..], s);
    }
  }

  lemma {:induction false} SkipBlock(text: string, s: string)
    requires forall i :: 0 <= i < |text| - 1 ==> !(text[i] == '*' && text[i + 1] == '/')
    ensures AfterBlock(text + ("*/" + s)) == Some(s)
  {
    if text == "" {
      assert text + ("*/" + s) == "*/" + s && ("*/" + s)[2..] == s;
    } else {
      var t := text + ("*/" + s);
      assert t[1..] == text[1..] + ("*/" + s);
      SkipBlock(text[1..], s);
    }
  }

  /** Blanks in front of a value change nothing. */
  lemma BlanksAreInvisible(blanks: string, s: string, scan: Scanner)
    requires forall i :: 0 <= i < |blanks| ==> IsSpace(blanks[i])
    ensures ReadValue(blanks + s, scan) == ReadValue(s, scan)
  {
    hide Scan, ReadValue;
    SkipBlanks(blanks, s);
    assert ReadToken(blanks + s) == ReadToken(s);
    SameToken(blanks + s, s, scan);
  }

  lemma CommentIsToken(inner: string, s: string)
    requires AfterBlock(inner) == Some(s)
    ensures ReadToken("/*" + inner).kind == Comment && ReadToken("/*" + inner).rest == s
  {
    hide AfterBlock, AfterString, AfterNumber, AfterLine, Word;
    var t := "/*" + inner;
    assert t[1..] == "*" + inner && ("*" + inner)[1..] == inner;
    assert AfterComment(t[1..]) == (true, s);
  }

  /** Nor does a block comment, whatever it says short of its own end. */
  lemma CommentsAreInvisible(text: string, s: string, scan: Scanner)
    requires forall i :: 0 <= i < |text| - 1 ==> !(text[i] == '*' && text[i + 1] == '/')
    ensures ReadValue("/*" + (text + ("*/" + s)), scan) == ReadValue(s, scan)
  {
    hide ReadValue, ReadToken, AfterBlock;
    SkipBlock(text, s);
    CommentIsToken(text + ("*/" + s), s);
    SameToken("/*" + (text + ("*/" + s)), s, scan);
  }

  lemma SameToken(a: string, b: string, scan: Scanner)
    requires NextToken(a) == NextToken(b)
    ensures ReadValue(a, scan) == ReadValue(b, scan)
  {
    hide NextToken;
  }

  // ------------------------------------------------------- separators in arrays

  /**
   What separates two items: any text that is read as one token, with blanks after it
   or not, is accepted if and only if that token is not the closing bracket. The test
   for a bad separator asks for two token types at once and never fires.
   */
  lemma AnyTokenSeparatesItems(a: Value, b: Value, sep: string, blanks: string, scan: Scanner)
    requires WellFormed(a) && NoReals(a) && WellFormed(b) && NoReals(b) && TakesIntegers(scan)
    requires sep != "" && Ends(sep) && forall i :: 0 <= i < |blanks| ==> IsSpace(blanks[i])
    requires var rest := blanks + (Text(b) + "]"); NextToken(sep + rest).rest == rest
    ensures var rest := blanks + (Text(b) + "]");
            Parse("[" + (Text(a) + (sep + rest)), scan) == Some(JArr([Again(a), Again(b)])) <==>
            NextToken(sep + rest).kind != ArrayEnd
  {
    hide ReadValue, ReadItems, ReadToken, NextToken, Text, Again, WellFormed, NoReals, TakesIntegers, IsNumberChar;
    var second := Text(b) + "]";
    var rest := blanks + second;
    var inside := Text(a) + (sep + rest);
    TextStarts(a);
    ArrayStarts("[" + inside, inside, scan);
    EndsFurther(sep, rest);
    ReadBack(a, sep + rest, scan);
    ItemsTurn(inside, [], scan);
    BlanksAreInvisible(blanks, second, scan);
    BracketEnds();
    ReadBack(b, "]", scan);
    ItemsTurn(rest, [Again(a)], scan);
    Mark(']', "");
    assert "]" + "" == "]";
    assert [] + [Again(a)] == [Again(a)] && [Again(a)] + [Again(b)] == [Again(a), Again(b)];
  }

  lemma EndsFurther(sep: string, rest: string)
    requires sep != "" && Ends(sep)
    ensures Ends(sep + rest)
  {
  }

  lemma BracketEnds()
    ensures Ends("]")
  {
  }

  /** In particular every mark but the closing bracket separates. */
  lemma AnyMarkSeparatesItems(a: Value, b: Value, mark: char, scan: Scanner)
    requires WellFormed(a) && NoReals(a) && WellFormed(b) && NoReals(b) && TakesIntegers(scan)
    requires mark in "{}[],:"
    ensures Parse("[" + (Text(a) + ([mark] + (Text(b) + "]"))), scan) == Some(JArr([Again(a), Again(b)]))
            <==> mark != ']'
  {
    hide WellFormed, NoReals, TakesIntegers, NextToken, ReadToken, Parse, Text, Again;
    Mark(mark, Text(b) + "]");
    assert "" + (Text(b) + "]") == Text(b) + "]";
    AnyTokenSeparatesItems(a, b, [mark], "", scan);
  }

  /** And so does a whole string, in front of the second item. */
  lemma StringSeparatesItems(a: Value, b: Value, text: string, scan: Scanner)
    requires WellFormed(a) && NoReals(a) && WellFormed(b) && NoReals(b) && TakesIntegers(scan) && NulFree(text)
    ensures Parse("[" + (Text(a) + (Quoted(text) + (Text(b) + "]"))), scan) == Some(JArr([Again(a), Again(b)]))
  {
    hide WellFormed, NoReals, TakesIntegers, NextToken, ReadToken, Parse, Text, Again;
    QuotedBack(text, Text(b) + "]");
    assert Quoted(text)[0] == '"' && Ends(Quoted(text));
    assert "" + (Text(b) + "]") == Text(b) + "]";
    AnyTokenSeparatesItems(a, b, Quoted(text), "", scan);
  }
}
