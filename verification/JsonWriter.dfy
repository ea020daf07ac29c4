/** The printing object (3rdpart/jsoncpp/json_writer.cpp), proved against `Json.Text`. */
module JsonWriter {
  import opened Base
  import opened Json

  lemma {:induction false} DecimalLength(n: nat, digits: nat, power: nat)
    requires digits > 0 && power == Power(digits) && n < power
    ensures |Decimal(n)| <= digits
  {
    if n >= 10 { DecimalLength(n / 10, digits - 1, power / 10); }
  }

  function Power(digits: nat): nat { if digits == 0 then 1 else 10 * Power(digits - 1) }

  function Leading(n: nat): string { if n == 0 then "" else Decimal(n) }

  lemma LastDigit(n: nat, tail: string)
    ensures Decimal(n) + tail == Leading(n / 10) + ([Digit(n % 10)] + tail)
  {
  }

  /** One character in front of the text that ends at `end`. */
  method PutBefore(buffer: array<char>, c: char, end: nat, current: nat) returns (now: nat)
    requires 0 < current <= end <= buffer.Length
    modifies buffer
    ensures now == current - 1 && buffer[now..end] == [c] + old(buffer[current..end])
    ensures forall k :: 0 <= k < now || end <= k < buffer.Length ==> buffer[k] == old(buffer[k])
  {
    now := current - 1;
    buffer[now] := c;
  }

  /** Fills the buffer backwards from `end` and returns where the text starts. */
  method UintToString(value: nat, buffer: array<char>, end: nat) returns (current: nat)
    requires |Decimal(value)| < end <= buffer.Length
    modifies buffer
    ensures current == end - 1 - |Decimal(value)| && buffer[current..end] == Decimal(value) + "\0"
    ensures forall k :: 0 <= k < current || end <= k < buffer.Length ==> buffer[k] == old(buffer[k])
  {
    hide Decimal, Leading;
    LastDigit(value, "\0");
    current := PutBefore(buffer, '\0', end, end);
    current := PutBefore(buffer, Digit(value % 10), end, current);
    var rest: nat := value / 10;
    while rest != 0
      invariant current <= end && Decimal(value) + "\0" == Leading(rest) + buffer[current..end]
      invariant forall k :: 0 <= k < current || end <= k < buffer.Length ==> buffer[k] == old(buffer[k])
    {
      NonzeroLeads(rest);
      LastDigit(rest, buffer[current..end]);
      current := PutBefore(buffer, Digit(rest % 10), end, current);
      rest := rest / 10;
    }
    ZeroLeads();
  }

  lemma NonzeroLeads(n: nat)
    requires n != 0
    ensures Leading(n) == Decimal(n)
  {
  }

  lemma ZeroLeads()
    ensures Leading(0) == ""
  {
  }

  method IntToString(value: int) returns (text: string)
    requires MIN_INT <= value <= MAX_INT
    ensures text == Signed(value)
  {
    var buffer := new char[32];
    var magnitude := if value < 0 then -value else value;
    DecimalLength(magnitude, 10, 10000000000);
    var current := UintToString(magnitude, buffer, 32);
    if value < 0 {
      current := current - 1;
      buffer[current] := '-';
    }
    text := buffer[current..31];
    assert buffer[current..32] == text + "\0";
    DropNul(text, Signed(value));
  }

  method NatToString(value: nat) returns (text: string)
    requires value <= MAX_UINT
    ensures text == Decimal(value)
  {
    var buffer := new char[32];
    DecimalLength(value, 10, 10000000000);
    var current := UintToString(value, buffer, 32);
    text := buffer[current..31];
    DropNul(text, Decimal(value));
  }

  lemma DropNul(a: string, b: string)
    requires a + "\0" == b + "\0"
    ensures a == b
  {
    assert b == (b + "\0")[..|b|];
  }

  predicate IsPlain(c: char) { c != '"' && c != '\\' && !IsControl(c) }

  lemma PlainIsItself(c: char)
    requires IsPlain(c) && c != '\0'
    ensures Escaped(c) == [c]
  {
  }

  lemma {:induction false} PlainNeedsNoEscape(s: string)
    requires forall i :: 0 <= i < |Cut(s)| ==> IsPlain(Cut(s)[i])
    ensures Escape(s) == Cut(s)
  {
    hide Escaped, IsPlain;
    if s != "" && s[0] != '\0' {
      assert Cut(s)[0] == s[0] && Cut(s)[1..] == Cut(s[1..]);
      PlainIsItself(s[0]);
      PlainNeedsNoEscape(s[1..]);
    }
  }

  /** Printed as it is when nothing needs escaping, else escaped character by character. */
  method ValueToQuotedString(value: string) returns (text: string)
    ensures text == Quoted(value)
  {
    var cstr := Cut(value);
    var i := 0;
    while i < |cstr| && IsPlain(cstr[i])
      invariant i <= |cstr| && forall k :: 0 <= k < i ==> IsPlain(cstr[k])
    {
      i := i + 1;
    }
    if i == |cstr| {
      PlainNeedsNoEscape(value);
      return "\"" + (cstr + "\"");
    }
    text := "\"";
    i := 0;
    while i < |value| && value[i] != '\0'
      invariant i <= |value|
      invariant "\"" + Escape(value) == text + Escape(value[i..])
    {
      Glue(text, Escaped(value[i]), Escape(value[i + 1..]));
      text := text + Escaped(value[i]);
      i := i + 1;
    }
    Glue("\"", Escape(value), "\"");
    text := text + "\"";
  }

  class FastWriter {
    var document: string

    constructor ()
      ensures document == ""
    {
      document := "";
    }

    method WriteDocument(root: Value) returns (text: string)
      requires WellFormed(root)
      modifies this
      ensures text == document == Write(root)
    {
      document := "";
      WriteValue(root);
      document := document + "\n";
      text := document;
    }

    method WriteValue(value: Value)
      requires WellFormed(value)
      modifies this
      ensures document == old(document) + Text(value)
      decreases value, 1
    {
      match value
      case JNull => document := document + "null";
      case JBool(b) => document := document + (if b then "true" else "false");
      case JInt(n) =>
        var text := IntToString(n);
        document := document + text;
      case JUInt(u) =>
        var text := NatToString(u);
        document := document + text;
      case JReal(text) => document := document + text;
      case JStr(s) =>
        var text := ValueToQuotedString(s);
        document := document + text;
      case JArr(items) => WriteItems(items);
      case JObj(members) => WriteMembers(members);
    }

    method WriteItems(items: seq<Value>)
      requires forall i :: 0 <= i < |items| ==> WellFormed(items[i])
      modifies this
      ensures document == old(document) + ("[" + ItemTexts(items))
      decreases items, 0
    {
      hide Text, ItemTexts, WellFormed, RestOfItems;
      ItemsEnds(items);
      document := document + "[";
      ghost var goal := document + ItemTexts(items);
      for index := 0 to |items|
        invariant goal == document + RestOfItems(items, index)
      {
        ItemsTurn(document, items, index);
        document := document + Before(index);
        WriteValue(items[index]);
      }
      document := document + "]";
    }

    method WriteMembers(members: seq<Member>)
      requires forall i :: 0 <= i < |members| ==> WellFormed(members[i].value)
      modifies this
      ensures document == old(document) + ("{" + MemberTexts(members))
      decreases members, 0
    {
      hide Text, MemberTexts, WellFormed, RestOfMembers, Quoted;
      MembersEnds(members);
      document := document + "{";
      ghost var goal := document + MemberTexts(members);
      for index := 0 to |members|
        invariant goal == document + RestOfMembers(members, index)
      {
        MembersTurn(document, members, index);
        document := document + Before(index);
        var name := ValueToQuotedString(members[index].key);
        document := document + name;
        document := document + ":";
        WriteValue(members[index].value);
      }
      document := document + "}";
    }
  }

  /** What is still to be printed before the item at `index`. */
  ghost function RestOfItems(items: seq<Value>, index: nat): string
    requires index <= |items|
  {
    if index == |items| then "]" else Before(index) + ItemTexts(items[index..])
  }

  ghost function RestOfMembers(members: seq<Member>, index: nat): string
    requires index <= |members|
  {
    if index == |members| then "}" else Before(index) + MemberTexts(members[index..])
  }

  /** A comma before every entry but the first. */
  function Before(index: nat): string { if index > 0 then "," else "" }

  lemma ItemsEnds(items: seq<Value>)
    ensures RestOfItems(items, 0) == ItemTexts(items) && RestOfItems(items, |items|) == "]"
  {
  }

  lemma MembersEnds(members: seq<Member>)
    ensures RestOfMembers(members, 0) == MemberTexts(members) && RestOfMembers(members, |members|) == "}"
  {
  }

  lemma ItemsTurn(document: string, items: seq<Value>, index: nat)
    requires index < |items|
    ensures document + RestOfItems(items, index) ==
            (document + Before(index)) + Text(items[index]) + RestOfItems(items, index + 1)
  {
    hide Text;
    var todo := items[index..];
    Glue(document, Before(index), Text(items[index]) + AfterItem(todo));
  }

  lemma MembersTurn(document: string, members: seq<Member>, index: nat)
    requires index < |members|
    ensures document + RestOfMembers(members, index) ==
            (document + Before(index)) + Quoted(members[index].key) + ":" + Text(members[index].value)
            + RestOfMembers(members, index + 1)
  {
    hide Text, Quoted;
    assert AfterMember(members[index..]) == RestOfMembers(members, index + 1);
  }
}
