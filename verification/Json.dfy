/**
 JSON values and what `FastWriter` prints for them
 (3rdpart/jsoncpp/json_writer.cpp; the object map of json_value.cpp).

 A `char` stands for one byte. Strings and keys are C strings. A real number is
 kept as its text: printing and scanning reals belong to the C library.
 */
module Json {
  import opened Base

  datatype Value =
    | JNull
    | JBool(b: bool)
    | JInt(n: int)
    | JUInt(u: nat)
    | JReal(text: string)
    | JStr(s: string)
    | JArr(items: seq<Value>)
    | JObj(members: seq<Member>)

  datatype Member = Member(key: string, value: Value)

  const MIN_INT := -0x8000_0000
  const MAX_INT := 0x7fff_ffff
  const MAX_UINT := 0xffff_ffff

  // -------------------------------------------------------------- the key order

  /** `strcmp(a, b) < 0` */
  predicate Less(a: string, b: string) {
    b != "" && (a == "" || a[0] < b[0] || (a[0] == b[0] && Less(a[1..], b[1..])))
  }

  predicate Sorted(members: seq<Member>) {
    forall i, j :: 0 <= i < j < |members| ==> Less(members[i].key, members[j].key)
  }

  /** `object[key] = value` on the ordered map. */
  function Put(members: seq<Member>, key: string, value: Value): seq<Member> {
    if members == [] then [Member(key, value)]
    else if members[0].key == key then [Member(key, value)] + members[1..]
    else if Less(key, members[0].key) then [Member(key, value)] + members
    else [members[0]] + Put(members[1..], key, value)
  }

  // ---------------------------------------------------------------- C strings

  predicate NulFree(s: string) { '\0' !in s }

  /** What a C string keeps of a byte string. */
  function Cut(s: string): (r: string)
    ensures NulFree(r) && (NulFree(s) ==> r == s)
  {
    if s == "" || s[0] == '\0' then "" else [s[0]] + Cut(s[1..])
  }

  // ----------------------------------------------------------- printed values

  predicate IsControl(c: char) { '\0' < c <= (0x1f as char) }

  function HexDigit(d: nat): char
    requires d < 16
  {
    "0123456789ABCDEF"[d]
  }

  /** `valueToQuotedString`, one character. */
  function Escaped(c: char): string {
    if c == '"' then "\\\""
    else if c == '\\' then "\\\\"
    else if c == (8 as char) then "\\b"
    else if c == (12 as char) then "\\f"
    else if c == '\n' then "\\n"
    else if c == '\r' then "\\r"
    else if c == '\t' then "\\t"
    else if IsControl(c) then "\\u00" + [HexDigit(c as int / 16), HexDigit(c as int % 16)]
    else [c]
  }

  function Escape(s: string): string {
    if s == "" || s[0] == '\0' then "" else Escaped(s[0]) + Escape(s[1..])
  }

  function Quoted(s: string): string { "\"" + (Escape(s) + "\"") }

  function Signed(n: int): string { if n < 0 then "-" + Decimal(-n) else Decimal(n) }

  function Text(v: Value): string
    decreases v, 1
  {
    match v
    case JNull => "null"
    case JBool(b) => if b then "true" else "false"
    case JInt(n) => Signed(n)
    case JUInt(u) => Decimal(u)
    case JReal(text) => text
    case JStr(s) => Quoted(s)
    case JArr(items) => "[" + ItemTexts(items)
    case JObj(members) => "{" + MemberTexts(members)
  }

  /** The items, with commas between them and the bracket that closes them. */
  function ItemTexts(items: seq<Value>): string
    decreases items, 0
  {
    if items == [] then "]" else Text(items[0]) + AfterItem(items)
  }

  function AfterItem(items: seq<Value>): string
    requires items != []
    decreases items, 0, 0
  {
    if |items| == 1 then "]" else "," + ItemTexts(items[1..])
  }

  function MemberTexts(members: seq<Member>): string
    decreases members, 0
  {
    if members == [] then "}" else Quoted(members[0].key) + (":" + (Text(members[0].value) + AfterMember(members)))
  }

  function AfterMember(members: seq<Member>): string
    requires members != []
    decreases members, 0, 0
  {
    if |members| == 1 then "}" else "," + MemberTexts(members[1..])
  }

  /** `FastWriter::write` */
  function Write(v: Value): string { Text(v) + "\n" }

  // ------------------------------------------------------------ kinds of value

  /** What the library can hold: 32-bit integers, C strings, one member per key in order. */
  predicate WellFormed(v: Value)
    decreases v
  {
    match v
    case JInt(n) => MIN_INT <= n <= MAX_INT
    case JUInt(u) => u <= MAX_UINT
    case JStr(s) => NulFree(s)
    case JArr(items) => forall i :: 0 <= i < |items| ==> WellFormed(items[i])
    case JObj(members) =>
      && Sorted(members)
      && (forall i :: 0 <= i < |members| ==> NulFree(members[i].key) && WellFormed(members[i].value))
    case _ => true
  }

  predicate NoReals(v: Value)
    decreases v
  {
    match v
    case JReal(_) => false
    case JArr(items) => forall i :: 0 <= i < |items| ==> NoReals(items[i])
    case JObj(members) => forall i :: 0 <= i < |members| ==> NoReals(members[i].value)
    case _ => true
  }

  /** Integers far enough from the ends of their range, and unsigned only beyond the signed range. */
  predicate Exact(v: Value)
    decreases v
  {
    match v
    case JInt(n) => -2147483639 <= n <= MAX_INT
    case JUInt(u) => MAX_INT < u <= 4294967289
    case JArr(items) => forall i :: 0 <= i < |items| ==> Exact(items[i])
    case JObj(members) => forall i :: 0 <= i < |members| ==> Exact(members[i].value)
    case _ => true
  }

  // ----------------------------------------------- the object is a finite map

  function AsMap(members: seq<Member>): map<string, Value> {
    if members == [] then map[] else AsMap(members[1..])[members[0].key := members[0].value]
  }

  lemma LessIsStrict(a: string, b: string)
    ensures !(Less(a, b) && Less(b, a)) && !Less(a, a)
    ensures a == b || Less(a, b) || Less(b, a)
  {
  }

  lemma {:induction false} LessIsTransitive(a: string, b: string, c: string)
    requires Less(a, b) && Less(b, c)
    ensures Less(a, c)
  {
    if a != "" && a[0] == b[0] && b[0] == c[0] { LessIsTransitive(a[1..], b[1..], c[1..]); }
  }

  /** Where the members after a put come from. */
  lemma {:induction false} PutMembers(members: seq<Member>, key: string, value: Value)
    ensures forall m :: m in Put(members, key, value) ==> m == Member(key, value) || m in members
  {
    if members != [] && members[0].key != key && !Less(key, members[0].key) { PutMembers(members[1..], key, value); }
  }

  lemma SortedTail(members: seq<Member>)
    requires members != []
    ensures Sorted(members) <==> Sorted(members[1..]) && forall m :: m in members[1..] ==> Less(members[0].key, m.key)
  {
  }

  lemma {:induction false} PutKeepsOrder(members: seq<Member>, key: string, value: Value)
    requires Sorted(members)
    ensures Sorted(Put(members, key, value))
  {
    var now := Put(members, key, value);
    if members != [] {
      SortedTail(now);
      var first, rest := members[0], members[1..];
      LessIsStrict(first.key, key);
      if Less(key, first.key) {
        forall m | m in members ensures Less(key, m.key) {
          if m != first {
            LessIsTransitive(key, first.key, m.key);
          }
        }
      } else {
        PutKeepsOrder(rest, key, value);
        PutMembers(rest, key, value);
      }
    }
  }

  /** A put on the ordered members is a put on the map they stand for. */
  lemma {:induction false} PutIsMapUpdate(members: seq<Member>, key: string, value: Value)
    requires Sorted(members)
    ensures AsMap(Put(members, key, value)) == AsMap(members)[key := value]
  {
    if members != [] {
      if members[0].key != key && !Less(key, members[0].key) {
        PutIsMapUpdate(members[1..], key, value);
      }
    }
  }

  /** A key beyond all others goes last. */
  lemma {:induction false} PutLast(members: seq<Member>, key: string, value: Value)
    requires forall i :: 0 <= i < |members| ==> Less(members[i].key, key)
    ensures Put(members, key, value) == members + [Member(key, value)]
  {
    if members != [] {
      LessIsStrict(members[0].key, key);
      PutLast(members[1..], key, value);
    }
  }
}
