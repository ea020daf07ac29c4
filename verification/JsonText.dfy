/**
 What `Json::Reader` makes of a text (3rdpart/jsoncpp/json_reader.cpp), as functions
 of the characters still to be read. `JsonReader` is the object with the cursor.
 */
module JsonText {
  import opened Base
  import opened Json

  // -------------------------------------------------------------------- tokens

  datatype Kind =
    | ObjectBegin | ObjectEnd | ArrayBegin | ArrayEnd | StringToken | NumberToken
    | TrueToken | FalseToken | NullToken | Comma | Colon | Comment | EndOfStream | ErrorToken

  /** A token, its characters, and what follows it. */
  datatype Token = Token(kind: Kind, text: string, rest: string)

  predicate IsSpace(c: char) { c == ' ' || c == '\t' || c == '\r' || c == '\n' }

  predicate IsNumberChar(c: char) { IsDigit(c) || c in ".eE+-" }

  function SkipSpaces(s: string): (r: string)
    ensures |r| <= |s| && (r != "" ==> !IsSpace(r[0]))
  {
    if s != "" && IsSpace(s[0]) then SkipSpaces(s[1..]) else s
  }

  function AfterNumber(s: string): (r: string)
    ensures |r| <= |s|
  {
    if s != "" && IsNumberChar(s[0]) then AfterNumber(s[1..]) else s
  }

  /** Past the closing quote; a string that is never closed takes the whole text. */
  function AfterString(s: string): (r: Option<string>)
    ensures r.Some? ==> |r.value| < |s|
  {
    if s == "" then None
    else if s[0] == '\\' then if |s| == 1 then None else AfterString(s[2..])
    else if s[0] == '"' then Some(s[1..])
    else AfterString(s[1..])
  }

  function AfterBlock(s: string): (r: Option<string>)
    ensures r.Some? ==> |r.value| < |s|
  {
    if s == "" then None
    else if |s| > 1 && s[0] == '*' && s[1] == '/' then Some(s[2..])
    else AfterBlock(s[1..])
  }

  function AfterLine(s: string): (r: string)
    ensures |r| <= |s|
  {
    if s == "" then "" else if s[0] == '\r' || s[0] == '\n' then s[1..] else AfterLine(s[1..])
  }

  /** `readComment`, past the first slash: what follows, and whether it was a comment. */
  function AfterComment(s: string): (r: (bool, string))
    ensures |r.1| <= |s|
  {
    if s == "" then (false, "")
    else if s[0] == '*' then
      var end := AfterBlock(s[1..]);
      (end.Some?, end.UnwrapOr(""))
    else if s[0] == '/' then (true, AfterLine(s[1..]))
    else (false, s[1..])
  }

  predicate Starts(s: string, word: string) { |word| <= |s| && s[..|word|] == word }

  /** The kind of token that begins with this character, and what follows it. */
  function Scan(c: char, s: string): (r: (Kind, string))
    ensures |r.1| <= |s|
  {
    if c == '{' then (ObjectBegin, s)
    else if c == '}' then (ObjectEnd, s)
    else if c == '[' then (ArrayBegin, s)
    else if c == ']' then (ArrayEnd, s)
    else if c == '"' then
      var end := AfterString(s);
      (if end.Some? then StringToken else ErrorToken, end.UnwrapOr(""))
    else if c == '/' then
      var (ok, rest) := AfterComment(s);
      (if ok then Comment else ErrorToken, rest)
    else if IsDigit(c) || c == '-' then (NumberToken, AfterNumber(s))
    else if c == 't' then Word(TrueToken, "rue", s)
    else if c == 'f' then Word(FalseToken, "alse", s)
    else if c == 'n' then Word(NullToken, "ull", s)
    else if c == ',' then (Comma, s)
    else if c == ':' then (Colon, s)
    else if c == '\0' then (EndOfStream, s)
    else (ErrorToken, s)
  }

  function Word(kind: Kind, word: string, s: string): (r: (Kind, string))
    ensures |r.1| <= |s|
  {
    if Starts(s, word) then (kind, s[|word|..]) else (ErrorToken, s)
  }

  /** `readToken` */
  function ReadToken(s: string): (t: Token)
    ensures |t.rest| <= |s| && (t.kind != EndOfStream ==> |t.rest| < |s|)
    ensures t.kind == StringToken ==> |t.text| >= 2
  {
    var t := SkipSpaces(s);
    if t == "" then Token(EndOfStream, "", "")
    else
      var (kind, rest) := Scan(t[0], t[1..]);
      Token(kind, t[..|t| - |rest|], rest)
  }

  /** `skipCommentTokens` */
  function NextToken(s: string): (t: Token)
    ensures |t.rest| <= |s| && (t.kind != EndOfStream ==> |t.rest| < |s|)
    ensures t.kind != Comment && (t.kind == StringToken ==> |t.text| >= 2)
    decreases |s|
  {
    var t := ReadToken(s);
    if t.kind == Comment then NextToken(t.rest) else t
  }

  /** `recoverFromError`: past the next such token, or everything. */
  function Recover(s: string, until: Kind): (r: string)
    ensures |r| <= |s|
    decreases |s|
  {
    var t := ReadToken(s);
    if t.kind == until || t.kind == EndOfStream then t.rest else Recover(t.rest, until)
  }

  // ------------------------------------------------------------------- strings

  function HexValue(c: char): (d: Option<nat>)
    ensures d.Some? ==> d.value < 16
  {
    if '0' <= c <= '9' then Some(c as int - '0' as int)
    else if 'a' <= c <= 'f' then Some(c as int - 'a' as int + 10)
    else if 'A' <= c <= 'F' then Some(c as int - 'A' as int + 10)
    else None
  }

  /** The first `n` characters as hexadecimal digits after `acc`. */
  function Hex(s: string, n: nat, acc: nat): Option<nat>
    requires n <= |s|
    decreases n
  {
    if n == 0 then Some(acc)
    else
      match HexValue(s[0])
      case None => None
      case Some(d) => Hex(s[1..], n - 1, acc * 16 + d)
  }

  /** `decodeUnicodeEscapeSequence` */
  function Hex4(s: string): Option<nat> { if |s| < 4 then None else Hex(s, 4, 0) }

  /** `decodeUnicodeCodePoint`: a high surrogate takes the next escape with it. */
  function CodePoint(s: string): (r: Option<(nat, string)>)
    ensures r.Some? ==> |r.value.1| < |s|
  {
    match Hex4(s)
    case None => None
    case Some(u) =>
      if !(0xD800 <= u <= 0xDBFF) then Some((u, s[4..]))
      else if |s| < 10 || s[4] != '\\' || s[5] != 'u' then None
      else
        match Hex4(s[6..])
        case None => None
        case Some(low) => Some((0x10000 + u % 1024 * 1024 + low % 1024, s[10..]))
  }

  function Byte(n: nat): char
    requires n < 256
  {
    n as char
  }

  /** `codePointToUTF8` */
  function Utf8(cp: nat): string {
    if cp <= 0x7f then [Byte(cp)]
    else if cp <= 0x7ff then [Byte(0xC0 + cp / 64), Byte(0x80 + cp % 64)]
    else if cp <= 0xffff then [Byte(0xE0 + cp / 4096), Byte(0x80 + cp / 64 % 64), Byte(0x80 + cp % 64)]
    else if cp <= 0x10ffff then
      [Byte(0xF0 + cp / 262144), Byte(0x80 + cp / 4096 % 64), Byte(0x80 + cp / 64 % 64), Byte(0x80 + cp % 64)]
    else ""
  }

  function SimpleEscape(c: char): Option<char> {
    match c
    case '"' => Some('"')
    case '/' => Some('/')
    case '\\' => Some('\\')
    case 'b' => Some(8 as char)
    case 'f' => Some(12 as char)
    case 'n' => Some('\n')
    case 'r' => Some('\r')
    case 't' => Some('\t')
    case _ => None
  }

  /** The characters between the quotes, decoded behind `done`. */
  function Unescape(s: string, done: string): Option<string>
    decreases |s|
  {
    if s == "" || s[0] == '"' then Some(done)
    else if s[0] != '\\' then Unescape(s[1..], done + [s[0]])
    else if |s| == 1 then None
    else if s[1] == 'u' then
      match CodePoint(s[2..])
      case None => None
      case Some((cp, rest)) => Unescape(rest, done + Utf8(cp))
    else
      match SimpleEscape(s[1])
      case None => None
      case Some(c) => Unescape(s[2..], done + [c])
  }

  /** `decodeString` on a whole token. */
  function DecodeString(text: string): Option<string>
    requires |text| >= 2
  {
    Unescape(text[1..|text| - 1], "")
  }

  // ------------------------------------------------------------------- numbers

  datatype Number = Fits(n: nat) | TooBig | NotANumber

  /** The digits behind `value`, given up as soon as `value` has reached the threshold. */
  function Accumulate(digits: string, value: nat, threshold: nat): (r: Number)
    requires value < 10 * threshold
    ensures r.Fits? ==> r.n < 10 * threshold
  {
    if digits == "" then Fits(value)
    else if !IsDigit(digits[0]) then NotANumber
    else if value >= threshold then TooBig
    else Accumulate(digits[1..], value * 10 + (digits[0] as int - '0' as int), threshold)
  }

  predicate LooksReal(text: string) {
    exists i :: 0 <= i < |text| && (text[i] in ".eE+" || (text[i] == '-' && i != 0))
  }

  /** Whether the C library scans a number from this text. */
  type Scanner = string -> bool

  /** `decodeDouble` */
  function DecodeDouble(text: string, scan: Scanner): Option<Value> {
    if scan(text) then Some(JReal(text)) else None
  }

  /** `decodeNumber`; the thresholds are a tenth of 2^31 and of 2^32 - 1. */
  function DecodeNumber(text: string, scan: Scanner): Option<Value> {
    if LooksReal(text) then DecodeDouble(text, scan)
    else
      var negative := text != "" && text[0] == '-';
      var digits := if negative then text[1..] else text;
      match Accumulate(digits, 0, if negative then 214748364 else 429496729)
      case NotANumber => None
      case TooBig => DecodeDouble(text, scan)
      case Fits(n) => Some(if negative then JInt(0 - n) else if n <= MAX_INT then JInt(n) else JUInt(n))
  }

  // -------------------------------------------------------------------- values

  /** A value and what follows it, or an error and where recovery ended. */
  datatype Result = Good(value: Value, rest: string) | Bad(rest: string)

  function Lift(v: Option<Value>, rest: string): Result {
    if v.Some? then Good(v.value, rest) else Bad(rest)
  }

  /** `readValue` */
  function ReadValue(s: string, scan: Scanner): (r: Result)
    ensures |r.rest| <= |s| && (r.Good? ==> |r.rest| < |s|)
    decreases |s|, 0
  {
    var t := NextToken(s);
    match t.kind
    case ObjectBegin => ReadMembers(t.rest, [], "", scan)
    case ArrayBegin =>
      var inside := SkipSpaces(t.rest);
      if inside != "" && inside[0] == ']' then Good(JArr([]), inside[1..]) else ReadItems(inside, [], scan)
    case NumberToken => Lift(DecodeNumber(t.text, scan), t.rest)
    case StringToken => Lift(Str(DecodeString(t.text)), t.rest)
    case TrueToken => Good(JBool(true), t.rest)
    case FalseToken => Good(JBool(false), t.rest)
    case NullToken => Good(JNull, t.rest)
    case _ => Bad(t.rest)
  }

  function Str(s: Option<string>): Option<Value> { if s.Some? then Some(JStr(Cut(s.value))) else None }

  /** The loop of `readArray`, with the items read so far. Any token but `]` separates two items. */
  function ReadItems(s: string, items: seq<Value>, scan: Scanner): (r: Result)
    ensures |r.rest| <= |s|
    decreases |s|, 1
  {
    match ReadValue(s, scan)
    case Bad(rest) => Bad(Recover(rest, ArrayEnd))
    case Good(v, rest) =>
      var t := NextToken(rest);
      if t.kind == ArrayEnd then Good(JArr(items + [v]), t.rest) else ReadItems(t.rest, items + [v], scan)
  }

  /** The loop of `readObject`, with the members read so far and the last name. */
  function ReadMembers(s: string, members: seq<Member>, last: string, scan: Scanner): (r: Result)
    ensures |r.rest| <= |s|
    decreases |s|, 0
  {
    var t := NextToken(s);
    if t.kind == ObjectEnd && last == "" then Good(JObj(members), t.rest)
    else if t.kind != StringToken then Bad(Recover(t.rest, ObjectEnd))
    else
      match DecodeString(t.text)
      case None => Bad(Recover(t.rest, ObjectEnd))
      case Some(name) => ReadMember(t.rest, members, name, scan)
  }

  /** The rest of one turn of that loop, past the name. */
  function ReadMember(s: string, members: seq<Member>, name: string, scan: Scanner): (r: Result)
    ensures |r.rest| <= |s|
    decreases |s|, 1
  {
    var colon := ReadToken(s);
    if colon.kind != Colon then Bad(Recover(colon.rest, ObjectEnd))
    else
      match ReadValue(colon.rest, scan)
      case Bad(rest) => Bad(Recover(rest, ObjectEnd))
      case Good(v, rest) =>
        var comma := ReadToken(rest);
        if comma.kind != ObjectEnd && comma.kind != Comma && comma.kind != Comment then
          Bad(Recover(comma.rest, ObjectEnd))
        else
          var next := NextToken(rest);
          if next.kind == ObjectEnd then Good(JObj(Put(members, Cut(name), v)), next.rest)
          else ReadMembers(next.rest, Put(members, Cut(name), v), name, scan)
  }

  /** `parse`: what follows the first value is not looked at. */
  function Parse(document: string, scan: Scanner): Option<Value> {
    var r := ReadValue(document, scan);
    if r.Good? then Some(r.value) else None
  }
}
