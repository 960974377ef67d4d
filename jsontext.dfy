/**
 * JSON documents as values, and the 2-space serialisation `JSON.stringify(v, null, 2)`
 * for the documents this model needs: numbers are integers here, see README.
 */
module JsonText {
  import opened Wrappers

  datatype Json =
    | JNull
    | JBool(b: bool)
    | JNumber(n: int)
    | JString(s: string)
    | JArray(items: seq<Json>)
    | JObject(fields: seq<Member>)

  /** An object member `"key": value`. */
  datatype Member = Member(key: string, value: Json)

  /** `Number.MAX_SAFE_INTEGER`, the largest safe integer of JavaScript: 2^53 - 1. */
  const MaxSafeInteger := 0x1F_FFFF_FFFF_FFFF

  /** The key has no character other than a decimal digit, as JavaScript's array-index keys do. */
  predicate DigitsOnly(key: string) {
    forall i :: 0 <= i < |key| ==> '0' <= key[i] <= '9'
  }

  /**
   * A value `JSON.parse` can give back as it is: its integers are exact in a
   * JavaScript number, and within each object the keys are distinct and each
   * has a character other than a digit, so the object keeps its members in
   * order.
   */
  ghost predicate Canonical(j: Json)
    decreases j
  {
    match j
    case JNumber(n) => -MaxSafeInteger <= n <= MaxSafeInteger
    case JArray(items) => forall i :: 0 <= i < |items| ==> Canonical(items[i])
    case JObject(fields) =>
      (forall i, k :: 0 <= i < k < |fields| ==> fields[i].key != fields[k].key)
      && forall i :: 0 <= i < |fields| ==> !DigitsOnly(fields[i].key) && Canonical(fields[i].value)
    case _ => true
  }

  /** The value of the first member named `key` of an object, or nothing. */
  function Lookup(j: Json, key: string): (r: Option<Json>)
    ensures r.Some? <==> j.JObject? && exists i :: 0 <= i < |j.fields| && j.fields[i].key == key
    ensures r.Some? ==> FirstMember(j.fields, key, r.value)
  {
    if !j.JObject? then None else LookupField(j.fields, key)
  }

  /** Some member is `key: value` and no member before it is named `key`. */
  ghost predicate FirstMember(fields: seq<Member>, key: string, value: Json) {
    exists i :: 0 <= i < |fields| && fields[i] == Member(key, value) && forall k :: 0 <= k < i ==> fields[k].key != key
  }

  function LookupField(fields: seq<Member>, key: string): (r: Option<Json>)
    ensures r.Some? <==> exists i :: 0 <= i < |fields| && fields[i].key == key
    ensures r.Some? ==> FirstMember(fields, key, r.value)
  {
    if |fields| == 0 then None
    else if fields[0].key == key then
      assert fields[0] == Member(key, fields[0].value);
      Some(fields[0].value)
    else
      var r := LookupField(fields[1..], key);
      assert forall i :: 1 <= i < |fields| ==> fields[i] == fields[1..][i - 1];
      if r.Some? then
        var i :| 0 <= i < |fields[1..]| && fields[1..][i] == Member(key, r.value)
                 && forall k :: 0 <= k < i ==> fields[1..][k].key != key;
        assert forall k :: 0 <= k < i + 1 ==> fields[k].key != key;
        r
      else r
  }

  /** Two spaces per nesting level. */
  function Indent(level: nat): (r: string)
    ensures |r| == 2 * level && forall i :: 0 <= i < |r| ==> r[i] == ' '
  {
    if level == 0 then "" else "  " + Indent(level - 1)
  }

  /** A decimal digit. */
  function Digit(d: int): (c: char)
    requires 0 <= d < 10
    ensures '0' <= c <= '9' && c as int - '0' as int == d
  {
    ('0' as int + d) as char
  }

  /** The number a string of decimal digits denotes, most significant digit first. */
  ghost function DecimalValue(s: string): int {
    if |s| == 0 then 0 else DecimalValue(s[..|s| - 1]) * 10 + (s[|s| - 1] as int - '0' as int)
  }

  /** The decimal text of a natural number, most significant digit first, without leading zeros. */
  function NatText(n: nat): (r: string)
    ensures |r| > 0 && forall i :: 0 <= i < |r| ==> '0' <= r[i] <= '9'
    ensures |r| > 1 ==> r[0] != '0'
    ensures DecimalValue(r) == n
  {
    if n < 10 then [Digit(n)]
    else
      var r := NatText(n / 10) + [Digit(n % 10)];
      assert r[..|r| - 1] == NatText(n / 10);
      r
  }

  /** The text `JSON.stringify` gives an integer of magnitude below 10^21, written out in full. */
  function NumberText(n: int): string {
    if n < 0 then "-" + NatText(-n) else NatText(n)
  }

  /** Four lower-case hexadecimal digits of a code unit below 0x10000. */
  function Hex4(n: nat): (r: string)
    requires n < 0x10000
    ensures |r| == 4
  {
    ["0123456789abcdef"[n / 0x1000], "0123456789abcdef"[n / 0x100 % 16],
     "0123456789abcdef"[n / 0x10 % 16], "0123456789abcdef"[n % 16]]
  }

  /** How `JSON.stringify` writes one character inside a string literal. */
  function EscapeChar(c: char): (r: string)
    ensures |r| > 0
    ensures c != '"' && c != '\\' && c >= ' ' ==> r == [c]
  {
    if ' ' <= c && c != '"' && c != '\\' then [c]
    else if c == '"' then "\\\""
    else if c == '\\' then "\\\\"
    else if c == '\U{0008}' then "\\b"
    else if c == '\t' then "\\t"
    else if c == '\n' then "\\n"
    else if c == '\U{000C}' then "\\f"
    else if c == '\r' then "\\r"
    else "\\u" + Hex4(c as nat)
  }

  function Escape(s: string): string {
    if |s| == 0 then "" else EscapeChar(s[0]) + Escape(s[1..])
  }

  /** No character of `s` needs an escape: no quote, no backslash, no control character. */
  ghost predicate NeedsNoEscape(s: string) {
    forall c :: c in s ==> c != '"' && c != '\\' && c >= ' '
  }

  /** A string with no character that needs an escape is written as it is. */
  lemma {:induction false} EscapeVerbatim(s: string)
    requires NeedsNoEscape(s)
    ensures Escape(s) == s
  {
    if |s| > 0 {
      assert NeedsNoEscape(s[1..]) by {
        assert forall c :: c in s[1..] ==> c in s;
      }
      EscapeVerbatim(s[1..]);
      assert s[0] in s;
      assert s == [s[0]] + s[1..];
    }
  }

  /** A string written as a JSON string literal. */
  function Quote(s: string): string {
    "\"" + Escape(s) + "\""
  }

  /** A string with no character that needs an escape is quoted as it is. */
  lemma QuoteVerbatim(s: string)
    requires NeedsNoEscape(s)
    ensures Quote(s) == "\"" + s + "\""
  {
    EscapeVerbatim(s);
  }

  /** `JSON.stringify(j, null, 2)` for a value nested `level` deep. */
  function Serialize(j: Json, level: nat): string
    decreases j, 1
  {
    match j
    case JNull => "null"
    case JBool(b) => if b then "true" else "false"
    case JNumber(n) => NumberText(n)
    case JString(s) => Quote(s)
    case JArray(items) =>
      if |items| == 0 then "[]"
      else "[\n" + SerializeItems(items, level + 1) + "\n" + Indent(level) + "]"
    case JObject(fields) =>
      if |fields| == 0 then "{}"
      else "{\n" + SerializeMembers(fields, level + 1) + "\n" + Indent(level) + "}"
  }

  /** Array elements, one per line at `level`, separated by commas. */
  function SerializeItems(items: seq<Json>, level: nat): string
    decreases items, 0
  {
    if |items| == 0 then ""
    else
      var line := Indent(level) + Serialize(items[0], level);
      if |items| == 1 then line else line + ",\n" + SerializeItems(items[1..], level)
  }

  /** Object members `"key": value`, one per line at `level`, separated by commas. */
  function SerializeMembers(fields: seq<Member>, level: nat): string
    decreases fields, 0
  {
    if |fields| == 0 then ""
    else
      var line := Indent(level) + Quote(fields[0].key) + ": " + Serialize(fields[0].value, level);
      if |fields| == 1 then line else line + ",\n" + SerializeMembers(fields[1..], level)
  }

  /** `JSON.stringify(j, null, 2)` */
  function Stringify2(j: Json): (r: string)
    ensures |r| > 0
    ensures j.JObject? ==> r[0] == '{' && r[|r| - 1] == '}'
    ensures j.JArray? ==> r[0] == '[' && r[|r| - 1] == ']'
    ensures j.JString? ==> r[0] == '"' && r[|r| - 1] == '"'
  {
    Serialize(j, 0)
  }

  /** An object with two members is written as two lines between the braces. */
  lemma TwoMembersText(m0: Member, m1: Member)
    ensures Stringify2(JObject([m0, m1]))
         == "{\n" + (Indent(1) + Quote(m0.key) + ": " + Serialize(m0.value, 1))
            + ",\n" + (Indent(1) + Quote(m1.key) + ": " + Serialize(m1.value, 1)) + "\n}"
  {
    TwoMembersSerialized(m0, m1);
  }

  lemma TwoMembersSerialized(m0: Member, m1: Member)
    ensures Serialize(JObject([m0, m1]), 0)
         == "{\n" + (Indent(1) + Quote(m0.key) + ": " + Serialize(m0.value, 1))
            + ",\n" + (Indent(1) + Quote(m1.key) + ": " + Serialize(m1.value, 1)) + "\n}"
  {
    TwoMemberLines(m0, m1);
    assert Indent(0) == "";
  }

  lemma TwoMemberLines(m0: Member, m1: Member)
    ensures SerializeMembers([m0, m1], 1)
         == (Indent(1) + Quote(m0.key) + ": " + Serialize(m0.value, 1))
            + ",\n" + (Indent(1) + Quote(m1.key) + ": " + Serialize(m1.value, 1))
  {
    assert [m0, m1][1..] == [m1];
  }
}
