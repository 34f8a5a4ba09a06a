/** JSON trees, the compact ASCII text that `json.dumps(..., sort_keys=True, separators=(",", ":"),
    ensure_ascii=True)` prints for them, and the scanner suite's truncation of long text fields.

    An object is the sequence of its members in the order in which they are printed. */
module Json {
  import opened Wrappers

  predicate IsAscii(s: string) {
    forall c :: c in s ==> ' ' <= c <= '~'
  }

  /** A number that is not an integer, as the text Python prints for it. */
  type NumberText = s: string | IsAscii(s) witness "0.5"

  datatype Json =
    | Null
    | Bool(b: bool)
    | Int(i: int)
    | Float(text: NumberText)
    | Str(s: string)
    | Arr(items: seq<Json>)
    | Obj(members: seq<Member>)

  datatype Member = Member(key: string, value: Json)

  // ----- printing -----

  const HEX_DIGITS := "0123456789abcdef"

  function HexDigit(d: int): (c: char)
    requires 0 <= d < 0x10
    ensures ' ' <= c <= '~'
  {
    HEX_DIGITS[d]
  }

  function Hex4(n: int): (s: string)
    requires 0 <= n < 0x1_0000
    ensures |s| == 4 && IsAscii(s)
  {
    assert 0 <= n / 0x1000 < 0x10;
    [HexDigit(n / 0x1000), HexDigit(n / 0x100 % 0x10), HexDigit(n / 0x10 % 0x10), HexDigit(n % 0x10)]
  }

  /** The escape of one character, section 7 of RFC 8259; characters beyond the basic plane become a pair. */
  function Escape(c: char): (s: string)
    ensures IsAscii(s)
  {
    if c == '"' then "\\\""
    else if c == '\\' then "\\\\"
    else if c == '\n' then "\\n"
    else if c == '\r' then "\\r"
    else if c == '\t' then "\\t"
    else if c == '\U{0c}' then "\\f"
    else if c == '\U{08}' then "\\b"
    else if ' ' <= c <= '~' then [c]
    else if c as int < 0x1_0000 then "\\u" + Hex4(c as int)
    else
      var v := c as int - 0x1_0000;
      "\\u" + Hex4(0xd800 + v / 0x400) + "\\u" + Hex4(0xdc00 + v % 0x400)
  }

  function Escaped(s: string): (r: string)
    ensures IsAscii(r)
  {
    if s == [] then [] else Escape(s[0]) + Escaped(s[1..])
  }

  predicate IsPlain(s: string) {
    forall k :: 0 <= k < |s| ==> ' ' <= s[k] <= '~' && s[k] != '"' && s[k] != '\\'
  }

  lemma {:induction false} PlainIsNotEscaped(s: string)
    requires IsPlain(s)
    ensures Escaped(s) == s
  {
    if s != [] {
      PlainIsNotEscaped(s[1..]);
      assert [s[0]] + s[1..] == s;
    }
  }

  function Quoted(s: string): (r: string)
    ensures IsAscii(r)
  {
    "\"" + Escaped(s) + "\""
  }

  function Decimal(n: nat): (r: string)
    ensures IsAscii(r)
  {
    (if n < 10 then [] else Decimal(n / 10)) + [HexDigit(n % 10)]
  }

  function Text(j: Json): string {
    match j
    case Null => "null"
    case Bool(b) => if b then "true" else "false"
    case Int(i) => if i < 0 then "-" + Decimal(-i) else Decimal(i)
    case Float(text) => text
    case Str(s) => Quoted(s)
    case Arr(items) => "[" + ItemsText(items) + "]"
    case Obj(members) => "{" + MembersText(members) + "}"
  }

  function ItemsText(items: seq<Json>): string {
    if items == [] then ""
    else Text(items[0]) + (if |items| == 1 then "" else ",") + ItemsText(items[1..])
  }

  function MembersText(members: seq<Member>): string {
    if members == [] then ""
    else
      var m := members[0];
      Quoted(m.key) + ":" + Text(m.value) + (if |members| == 1 then "" else ",") + MembersText(members[1..])
  }

  /** The length of the UTF-8 encoding of the text, which is pure ASCII (see `TextIsAscii`). */
  function Size(j: Json): nat {
    |Text(j)|
  }

  lemma {:induction false} TextIsAscii(j: Json)
    ensures IsAscii(Text(j))
    decreases j, 1
  {
    match j
    case Arr(items) => ItemsTextIsAscii(items);
    case Obj(members) => MembersTextIsAscii(members);
    case _ =>
  }

  lemma {:induction false} ItemsTextIsAscii(items: seq<Json>)
    ensures IsAscii(ItemsText(items))
    decreases items, 0
  {
    if items != [] {
      TextIsAscii(items[0]);
      ItemsTextIsAscii(items[1..]);
    }
  }

  lemma {:induction false} MembersTextIsAscii(members: seq<Member>)
    ensures IsAscii(MembersText(members))
    decreases members, 0
  {
    if members != [] {
      TextIsAscii(members[0].value);
      MembersTextIsAscii(members[1..]);
    }
  }

  lemma {:induction false} MembersTextAfterReplacing(members: seq<Member>, k: nat, value: Json)
    requires k < |members|
    ensures |MembersText(members[k := Member(members[k].key, value)])| ==
            |MembersText(members)| - Size(members[k].value) + Size(value)
  {
    var replaced := members[k := Member(members[k].key, value)];
    if k == 0 {
      assert replaced[1..] == members[1..];
    } else {
      assert replaced[1..] == members[1..][k - 1 := Member(members[k].key, value)];
      MembersTextAfterReplacing(members[1..], k - 1, value);
      assert members[1..][k - 1] == members[k];
    }
  }

  /** Replacing the value of one member changes the printed size by the difference of the two values. */
  lemma SizeAfterReplacing(members: seq<Member>, k: nat, value: Json)
    requires k < |members|
    ensures Size(Obj(members[k := Member(members[k].key, value)])) ==
            Size(Obj(members)) - Size(members[k].value) + Size(value)
  {
    MembersTextAfterReplacing(members, k, value);
  }

  // ----- members -----

  function Get(members: seq<Member>, key: string): Option<Json> {
    if members == [] then None
    else if members[0].key == key then Some(members[0].value)
    else Get(members[1..], key)
  }

  /** Python's `d[key] = value`: replaces the value in place, or appends a member. */
  function Set(members: seq<Member>, key: string, value: Json): seq<Member> {
    if members == [] then [Member(key, value)]
    else if members[0].key == key then [Member(key, value)] + members[1..]
    else [members[0]] + Set(members[1..], key, value)
  }

  lemma {:induction false} SetTwice(members: seq<Member>, key: string, first: Json, second: Json)
    ensures Set(Set(members, key, first), key, second) == Set(members, key, second)
  {
    if members != [] && members[0].key != key {
      SetTwice(members[1..], key, first, second);
      assert Set(members, key, first)[1..] == Set(members[1..], key, first);
    }
  }

  // ----- bounding long strings -----

  const MAX_TEXT_FIELD_CHARS := 1024
  const TRUNCATION_MARKER := "<truncated>"

  function BoundedText(s: string): string {
    if |s| > MAX_TEXT_FIELD_CHARS then s[..MAX_TEXT_FIELD_CHARS] + TRUNCATION_MARKER else s
  }

  /** `_bounded_json_value` on a tree whose keys are strings. */
  function Bounded(j: Json): Json {
    match j
    case Str(s) => Str(BoundedText(s))
    case Arr(items) => Arr(BoundedItems(items))
    case Obj(members) => Obj(BoundedMembers(members))
    case _ => j
  }

  function BoundedItems(items: seq<Json>): (r: seq<Json>)
    ensures |r| == |items|
    decreases items
  {
    if items == [] then [] else [Bounded(items[0])] + BoundedItems(items[1..])
  }

  function BoundedMembers(members: seq<Member>): (r: seq<Member>)
    ensures |r| == |members|
    decreases members
  {
    if members == [] then []
    else [Member(members[0].key, Bounded(members[0].value))] + BoundedMembers(members[1..])
  }

  /** A cut string is longer than the limit, and yet a fixed point; nothing else above the limit is one. */
  lemma CutTextIsFixed(s: string)
    ensures BoundedText(BoundedText(s)) == BoundedText(s)
    ensures |s| > MAX_TEXT_FIELD_CHARS ==>
              |BoundedText(s)| == MAX_TEXT_FIELD_CHARS + |TRUNCATION_MARKER| > MAX_TEXT_FIELD_CHARS
    ensures BoundedText(s) == s <==>
              |s| <= MAX_TEXT_FIELD_CHARS || s[MAX_TEXT_FIELD_CHARS..] == TRUNCATION_MARKER
  {
    if |s| > MAX_TEXT_FIELD_CHARS {
      assert s == s[..MAX_TEXT_FIELD_CHARS] + s[MAX_TEXT_FIELD_CHARS..];
      assert BoundedText(s)[..MAX_TEXT_FIELD_CHARS] == s[..MAX_TEXT_FIELD_CHARS];
      assert BoundedText(s)[MAX_TEXT_FIELD_CHARS..] == TRUNCATION_MARKER;
    }
  }

  /** Bounding twice is bounding once, on every tree. */
  lemma {:induction false} BoundedIsIdempotent(j: Json)
    ensures Bounded(Bounded(j)) == Bounded(j)
    decreases j, 1
  {
    match j
    case Str(s) => CutTextIsFixed(s);
    case Arr(items) => BoundedItemsIsIdempotent(items);
    case Obj(members) => BoundedMembersIsIdempotent(members);
    case _ =>
  }

  lemma {:induction false} BoundedItemsIsIdempotent(items: seq<Json>)
    ensures BoundedItems(BoundedItems(items)) == BoundedItems(items)
    decreases items, 0
  {
    if items != [] {
      BoundedIsIdempotent(items[0]);
      BoundedItemsIsIdempotent(items[1..]);
      assert BoundedItems(items)[1..] == BoundedItems(items[1..]);
    }
  }

  lemma {:induction false} BoundedMembersIsIdempotent(members: seq<Member>)
    ensures BoundedMembers(BoundedMembers(members)) == BoundedMembers(members)
    decreases members, 0
  {
    if members != [] {
      BoundedIsIdempotent(members[0].value);
      BoundedMembersIsIdempotent(members[1..]);
      assert BoundedMembers(members)[1..] == BoundedMembers(members[1..]);
    }
  }
}
