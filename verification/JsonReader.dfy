/**
 The parsing object (3rdpart/jsoncpp/json_reader.cpp), its cursor and its list of
 errors, proved against `JsonText`. Values are returned where the original assigns
 them through its stack of nodes.
 */
module JsonReader {
  import opened Base
  import opened Json
  import opened JsonText

  /** One error more exactly on failure. */
  ghost predicate Reported(was: seq<string>, now: seq<string>, ok: bool) {
    if ok then now == was else |now| == |was| + 1
  }

  class Reader {
    const scan: Scanner
    var document: string
    var current: nat
    var errors: seq<string>

    constructor (scan: Scanner)
      ensures this.scan == scan && Valid() && errors == []
    {
      this.scan := scan;
      document, current, errors := "", 0, [];
    }

    ghost predicate Valid()
      reads this
    {
      current <= |document|
    }

    /** What is still to be read. */
    ghost function Rest(): string
      requires Valid()
      reads this
    {
      document[current..]
    }

    // ------------------------------------------------------------------ tokens

    /** The next character, or NUL at the end. */
    method GetNextChar() returns (c: char)
      requires Valid()
      modifies this`current
      ensures Valid()
      ensures if old(Rest()) == "" then c == '\0' && Rest() == "" else c == old(Rest())[0] && Rest() == old(Rest())[1..]
    {
      if current == |document| { return '\0'; }
      c := document[current];
      current := current + 1;
    }

    method PassSpaces()
      requires Valid()
      modifies this`current
      ensures Valid() && Rest() == SkipSpaces(old(Rest())) && old(current) <= current
    {
      while current != |document| && IsSpace(document[current])
        invariant Valid() && old(current) <= current
        invariant SkipSpaces(Rest()) == SkipSpaces(old(Rest()))
      {
        current := current + 1;
      }
    }

    method Match(word: string) returns (ok: bool)
      requires Valid()
      modifies this`current
      ensures Valid() && ok == Starts(old(Rest()), word)
      ensures Rest() == if ok then old(Rest())[|word|..] else old(Rest())
    {
      if |document| - current < |word| { return false; }
      var index := |word|;
      while index > 0
        invariant 0 <= index <= |word|
        invariant forall k :: index <= k < |word| ==> document[current + k] == word[k]
      {
        index := index - 1;
        if document[current + index] != word[index] {
          return false;
        }
      }
      current := current + |word|;
      ok := true;
    }

    method ReadCStyleComment() returns (ok: bool)
      requires Valid()
      modifies this`current
      ensures Valid()
      ensures var end := AfterBlock(old(Rest())); ok == end.Some? && Rest() == end.UnwrapOr("")
    {
      while current != |document|
        invariant Valid() && AfterBlock(Rest()) == AfterBlock(old(Rest()))
        decreases |document| - current
      {
        var c := GetNextChar();
        if c == '*' && current != |document| && document[current] == '/' {
          current := current + 1;
          return true;
        }
      }
      ok := false;
    }

    method ReadCppStyleComment()
      requires Valid()
      modifies this`current
      ensures Valid() && Rest() == AfterLine(old(Rest()))
    {
      while current != |document|
        invariant Valid() && AfterLine(Rest()) == AfterLine(old(Rest()))
        decreases |document| - current
      {
        var c := GetNextChar();
        if c == '\r' || c == '\n' { return; }
      }
    }

    method ReadComment() returns (ok: bool)
      requires Valid()
      modifies this`current
      ensures Valid() && (ok, Rest()) == AfterComment(old(Rest()))
    {
      ok := false;
      if current != |document| {
        var c := GetNextChar();
        if c == '*' {
          ok := ReadCStyleComment();
        } else if c == '/' {
          ReadCppStyleComment();
          ok := true;
        }
      }
    }

    method ReadNumber()
      requires Valid()
      modifies this`current
      ensures Valid() && Rest() == AfterNumber(old(Rest()))
    {
      while current != |document| && IsNumberChar(document[current])
        invariant Valid() && AfterNumber(Rest()) == AfterNumber(old(Rest()))
      {
        current := current + 1;
      }
    }

    method ReadString() returns (ok: bool)
      requires Valid()
      modifies this`current
      ensures Valid()
      ensures var end := AfterString(old(Rest())); ok == end.Some? && Rest() == end.UnwrapOr("")
    {
      while current != |document|
        invariant Valid() && AfterString(Rest()) == AfterString(old(Rest()))
        decreases |document| - current
      {
        var c := GetNextChar();
        if c == '\\' {
          c := GetNextChar();
        } else if c == '"' {
          return true;
        }
      }
      ok := false;
    }

    /** The token that begins with `c`, just read. */
    method ScanToken(c: char) returns (kind: Kind)
      requires Valid()
      modifies this`current
      ensures Valid() && (kind, Rest()) == Scan(c, old(Rest()))
    {
      var ok := true;
      if c == '{' { kind := ObjectBegin; }
      else if c == '}' { kind := ObjectEnd; }
      else if c == '[' { kind := ArrayBegin; }
      else if c == ']' { kind := ArrayEnd; }
      else if c == '"' { kind := StringToken; ok := ReadString(); }
      else if c == '/' { kind := Comment; ok := ReadComment(); }
      else if IsDigit(c) || c == '-' { kind := NumberToken; ReadNumber(); }
      else if c == 't' { kind := TrueToken; ok := Match("rue"); }
      else if c == 'f' { kind := FalseToken; ok := Match("alse"); }
      else if c == 'n' { kind := NullToken; ok := Match("ull"); }
      else if c == ',' { kind := Comma; }
      else if c == ':' { kind := Colon; }
      else if c == '\0' { kind := EndOfStream; }
      else { ok := false; }
      if !ok { kind := ErrorToken; }
    }

    method NextRawToken() returns (kind: Kind, text: string)
      requires Valid()
      modifies this`current
      ensures Valid() && Token(kind, text, Rest()) == ReadToken(old(Rest()))
    {
      PassSpaces();
      var start := current;
      if current == |document| { return EndOfStream, ""; }
      var c := GetNextChar();
      kind := ScanToken(c);
      text := document[start..current];
    }

    method SkipCommentTokens() returns (kind: Kind, text: string)
      requires Valid()
      modifies this`current
      ensures Valid() && Token(kind, text, Rest()) == NextToken(old(Rest()))
    {
      kind, text := NextRawToken();
      while kind == Comment
        invariant Valid()
        invariant NextToken(old(Rest())) == if kind == Comment then NextToken(Rest()) else Token(kind, text, Rest())
        decreases |Rest()|, if kind == Comment then 1 else 0
      {
        kind, text := NextRawToken();
      }
    }

    // ------------------------------------------------------------------ errors

    method AddError(message: string)
      modifies this`errors
      ensures errors == old(errors) + [message]
    {
      errors := errors + [message];
    }

    /** Past the next token of this kind, or to the end. */
    method RecoverFromError(until: Kind)
      requires Valid()
      modifies this`current
      ensures Valid() && Rest() == Recover(old(Rest()), until)
    {
      var kind, text := NextRawToken();
      while kind != until && kind != EndOfStream
        invariant Valid()
        invariant Recover(old(Rest()), until)
               == if kind == until || kind == EndOfStream then Rest() else Recover(Rest(), until)
        decreases |Rest()|, if kind == EndOfStream then 0 else 1
      {
        kind, text := NextRawToken();
      }
    }

    method AddErrorAndRecover(message: string, until: Kind)
      requires Valid()
      modifies this`current, this`errors
      ensures Valid() && Rest() == Recover(old(Rest()), until) && errors == old(errors) + [message]
    {
      AddError(message);
      RecoverFromError(until);
    }

    // ----------------------------------------------------------------- strings

    method DecodeUnicodeEscapeSequence(s: string) returns (unicode: Option<nat>)
      modifies this`errors
      ensures unicode == Hex4(s) && Reported(old(errors), errors, unicode.Some?)
    {
      if |s| < 4 {
        AddError("four digits expected");
        return None;
      }
      var n := 0;
      for index := 0 to 4
        invariant errors == old(errors) && Hex(s[index..], 4 - index, n) == Hex(s, 4, 0)
      {
        var digit := HexValue(s[index]);
        if digit.None? {
          AddError("hexadecimal digit expected");
          return None;
        }
        n := n * 16 + digit.value;
      }
      unicode := Some(n);
    }

    method DecodeUnicodeCodePoint(s: string) returns (r: Option<(nat, string)>)
      modifies this`errors
      ensures r == CodePoint(s) && Reported(old(errors), errors, r.Some?)
    {
      var unicode := DecodeUnicodeEscapeSequence(s);
      if unicode.None? { return None; }
      var u := unicode.value;
      if !(0xD800 <= u <= 0xDBFF) { return Some((u, s[4..])); }
      if |s| < 10 || s[4] != '\\' || s[5] != 'u' {
        AddError("second half of a surrogate pair expected");
        return None;
      }
      var low := DecodeUnicodeEscapeSequence(s[6..]);
      if low.None? { return None; }
      r := Some((0x10000 + u % 1024 * 1024 + low.value % 1024, s[10..]));
    }

    method DecodeStringToken(text: string) returns (decoded: Option<string>)
      requires |text| >= 2
      modifies this`errors
      ensures decoded == DecodeString(text) && Reported(old(errors), errors, decoded.Some?)
    {
      var s := text[1..|text| - 1];
      var done := "";
      while s != "" && s[0] != '"'
        invariant errors == old(errors) && Unescape(s, done) == DecodeString(text)
        decreases |s|
      {
        if s[0] != '\\' {
          s, done := s[1..], done + [s[0]];
        } else if |s| == 1 {
          AddError("empty escape sequence in string");
          return None;
        } else if s[1] == 'u' {
          var point := DecodeUnicodeCodePoint(s[2..]);
          if point.None? { return None; }
          s, done := point.value.1, done + Utf8(point.value.0);
        } else {
          var c := SimpleEscape(s[1]);
          if c.None? {
            AddError("bad escape sequence in string");
            return None;
          }
          s, done := s[2..], done + [c.value];
        }
      }
      decoded := Some(done);
    }

    // ----------------------------------------------------------------- numbers

    method DecodeDoubleToken(text: string) returns (v: Option<Value>)
      modifies this`errors
      ensures v == DecodeDouble(text, scan) && Reported(old(errors), errors, v.Some?)
    {
      if scan(text) { return Some(JReal(text)); }
      AddError("not a number");
      v := None;
    }

    method InspectNumber(text: string) returns (isDouble: bool)
      ensures isDouble == LooksReal(text)
    {
      isDouble := false;
      for i := 0 to |text|
        invariant isDouble <==> exists k :: 0 <= k < i && (text[k] in ".eE+" || (text[k] == '-' && k != 0))
      {
        isDouble := isDouble || text[i] in ".eE+" || (text[i] == '-' && i != 0);
      }
    }

    method DecodeNumberToken(text: string) returns (v: Option<Value>)
      modifies this`errors
      ensures v == DecodeNumber(text, scan) && Reported(old(errors), errors, v.Some?)
    {
      var isDouble := InspectNumber(text);
      if isDouble {
        v := DecodeDoubleToken(text);
        return;
      }
      var negative := text != "" && text[0] == '-';
      var threshold := if negative then 214748364 else 429496729;
      var digits := if negative then text[1..] else text;
      var value := 0;
      var i := 0;
      while i < |digits|
        invariant i <= |digits| && 0 <= value < 10 * threshold && errors == old(errors)
        invariant Accumulate(digits, 0, threshold) == Accumulate(digits[i..], value, threshold)
      {
        if !IsDigit(digits[i]) {
          AddError("not a number");
          return None;
        }
        if value >= threshold {
          v := DecodeDoubleToken(text);
          return;
        }
        value := value * 10 + (digits[i] as int - '0' as int);
        i := i + 1;
      }
      v := Some(if negative then JInt(-value) else if value <= MAX_INT then JInt(value) else JUInt(value));
    }

    // ------------------------------------------------------------------ values

    method ReadOne() returns (v: Option<Value>)
      requires Valid()
      modifies this`current, this`errors
      ensures Valid() && Reported(old(errors), errors, v.Some?)
      ensures Lift(v, Rest()) == ReadValue(old(Rest()), scan)
      decreases |Rest()|, 0
    {
      var kind, text := SkipCommentTokens();
      if kind == ObjectBegin { v := ReadObject(); }
      else if kind == ArrayBegin { v := ReadArray(); }
      else if kind == NumberToken { v := DecodeNumberToken(text); }
      else if kind == StringToken {
        var s := DecodeStringToken(text);
        v := Str(s);
      }
      else if kind == TrueToken { v := Some(JBool(true)); }
      else if kind == FalseToken { v := Some(JBool(false)); }
      else if kind == NullToken { v := Some(JNull); }
      else {
        AddError("value, object or array expected");
        v := None;
      }
    }

    method ReadArray() returns (v: Option<Value>)
      requires Valid()
      modifies this`current, this`errors
      ensures Valid() && Reported(old(errors), errors, v.Some?)
      ensures var inside := SkipSpaces(old(Rest()));
              Lift(v, Rest()) ==
              if inside != "" && inside[0] == ']' then Good(JArr([]), inside[1..]) else ReadItems(inside, [], scan)
      decreases |Rest()|, 3
    {
      PassSpaces();
      if current != |document| && document[current] == ']' {
        current := current + 1;
        return Some(JArr([]));
      }
      ghost var goal := ReadItems(Rest(), [], scan);
      var items := [];
      while true
        invariant Valid() && errors == old(errors)
        invariant |Rest()| <= |old(Rest())| && goal == ReadItems(Rest(), items, scan)
        decreases |Rest()|
      {
        var item := ReadOne();
        if item.None? {
          RecoverFromError(ArrayEnd);
          return None;
        }
        items := items + [item.value];
        var kind, _ := SkipCommentTokens();
        if kind == ArrayEnd { return Some(JArr(items)); }
      }
    }

    /** The colon, the value of the member `name`, and the mark after it; `more` tells that it is not the last. */
    method ReadMemberValue(name: string, ghost members: seq<Member>) returns (value: Option<Value>, more: bool)
      requires Valid()
      modifies this`current, this`errors
      ensures Valid() && Reported(old(errors), errors, value.Some?) && |Rest()| <= |old(Rest())|
      ensures var r := ReadMember(old(Rest()), members, name, scan);
              if value.None? then r == Bad(Rest())
              else
                var now := Put(members, Cut(name), value.value);
                r == if more then ReadMembers(Rest(), now, name, scan) else Good(JObj(now), Rest())
      decreases |Rest()|, 1
    {
      value, more := None, false;
      var kind, text := NextRawToken();
      if kind != Colon {
        AddErrorAndRecover("Missing ':' after object member name", ObjectEnd);
        return;
      }
      var v := ReadOne();
      if v.None? {
        RecoverFromError(ObjectEnd);
        return;
      }
      ghost var after := Rest();
      kind, text := NextRawToken();
      if kind != ObjectEnd && kind != Comma && kind != Comment {
        AddErrorAndRecover("Missing ',' or '}' in object declaration", ObjectEnd);
        return;
      }
      if kind == Comment { kind, text := SkipCommentTokens(); }
      value, more := v, kind != ObjectEnd;
    }

    method ReadObject() returns (v: Option<Value>)
      requires Valid()
      modifies this`current, this`errors
      ensures Valid() && Reported(old(errors), errors, v.Some?)
      ensures Lift(v, Rest()) == ReadMembers(old(Rest()), [], "", scan)
      decreases |Rest()|, 3
    {
      ghost var goal := ReadMembers(Rest(), [], "", scan);
      var members, name := [], "";
      while true
        invariant Valid() && errors == old(errors)
        invariant |Rest()| <= |old(Rest())| && goal == ReadMembers(Rest(), members, name, scan)
        decreases |Rest()|
      {
        var kind, text := SkipCommentTokens();
        if kind == ObjectEnd && name == "" { return Some(JObj(members)); }
        if kind != StringToken {
          AddErrorAndRecover("Missing '}' or object member name", ObjectEnd);
          return None;
        }
        var decoded := DecodeStringToken(text);
        if decoded.None? {
          RecoverFromError(ObjectEnd);
          return None;
        }
        name := decoded.value;
        var value, more := ReadMemberValue(name, members);
        if value.None? { return None; }
        members := Put(members, Cut(name), value.value);
        if !more { return Some(JObj(members)); }
      }
    }

    /** True exactly when no error was recorded, else one was; what follows the first value is only skipped over. */
    method ParseDocument(text: string) returns (ok: bool, root: Value)
      modifies this
      ensures Valid() && document == text
      ensures ok == Parse(text, scan).Some? && (ok ==> Parse(text, scan) == Some(root))
      ensures |errors| == if ok then 0 else 1
    {
      document, current, errors := text, 0, [];
      var v := ReadOne();
      var kind, skipped := SkipCommentTokens();
      ok, root := v.Some?, v.UnwrapOr(JNull);
    }
  }
}
