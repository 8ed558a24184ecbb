/**
 * JSON values as JavaScript holds them after `JSON.parse`, with
 * `JSON.stringify`, the conversion `String(v)` and JavaScript truthiness.
 * Numbers are integers here.
 */
module Json {
  import opened Wrappers
  import opened Text
  import opened JsObject

  datatype Json =
    | JNull
    | JBool(b: bool)
    | JNum(n: int)
    | JStr(s: string)
    | JArr(items: seq<Json>)
    | JObj(members: Object<Json>)

  /** `v[k]` on a parsed value: a property of an object, `undefined` otherwise. */
  function Member(v: Json, k: string): (r: Option<Json>)
    ensures r.Some? ==> v.JObj? && k in Keys(v.members)
  {
    if v.JObj? then Get(v.members, k) else None
  }

  /** `Boolean(v)`: `undefined`, `null`, `false`, `0` and `""` are falsy. */
  predicate Truthy(v: Option<Json>) {
    match v
    case None => false
    case Some(JNull) => false
    case Some(JBool(b)) => b
    case Some(JNum(n)) => n != 0
    case Some(JStr(s)) => s != ""
    case Some(_) => true
  }

  /** An optional string is truthy when it is set and not empty. */
  predicate Present(o: Option<string>) {
    o.Some? && o.value != ""
  }

  /** `String(v)`; an array joins its elements with commas, `null` elements as "". */
  function ToJsString(v: Option<Json>): string {
    match v
    case None => "undefined"
    case Some(j) => ValueToString(j)
  }

  function ValueToString(v: Json): string
    decreases v, 1
  {
    match v
    case JNull => "null"
    case JBool(b) => if b then "true" else "false"
    case JNum(n) => IntToString(n)
    case JStr(s) => s
    case JArr(items) => Join(ElementStrings(items), ",")
    case JObj(_) => "[object Object]"
  }

  function ElementStrings(items: seq<Json>): (r: seq<string>)
    ensures |r| == |items|
    decreases items, 0
  {
    if |items| == 0 then []
    else [if items[0].JNull? then "" else ValueToString(items[0])] + ElementStrings(items[1..])
  }

  // ---------------------------------------------------------------------------
  // JSON.stringify

  /** `JSON.stringify(v)`, where `None` is `undefined`, which stringifies to `undefined`. */
  function StringifyOpt(v: Option<Json>): (r: Option<string>)
    ensures r.Some? <==> v.Some?
  {
    match v
    case None => None
    case Some(j) => Some(Stringify(j))
  }

  function Stringify(v: Json): (r: string)
    decreases v, 2
  {
    match v
    case JNull => "null"
    case JBool(b) => if b then "true" else "false"
    case JNum(n) => IntToString(n)
    case JStr(s) => Quote(s)
    case JArr(items) => "[" + Join(StringifyItems(items), ",") + "]"
    case JObj(members) => "{" + Join(StringifyMembers(members), ",") + "}"
  }

  function StringifyItems(items: seq<Json>): (r: seq<string>)
    ensures |r| == |items|
    decreases items, 1
  {
    if |items| == 0 then [] else [Stringify(items[0])] + StringifyItems(items[1..])
  }

  function StringifyMembers(members: Object<Json>): (r: seq<string>)
    ensures |r| == |members|
    decreases members, 1
  {
    if |members| == 0 then []
    else
      assert members[0].1 < JObj(members) by { assert members[0] in members; }
      [Quote(members[0].0) + ":" + Stringify(members[0].1)] + StringifyMembers(members[1..])
  }

  /** A JSON string literal. */
  function Quote(s: string): string {
    "\"" + Escape(s) + "\""
  }

  function Escape(s: string): string
    decreases |s|
  {
    if |s| == 0 then "" else EscapeChar(s[0]) + Escape(s[1..])
  }

  function HexDigit(d: nat): (c: char)
    requires d < 16
  {
    if d < 10 then ('0' as int + d) as char else ('a' as int + d - 10) as char
  }

  /** The escape JSON.stringify writes for one character. */
  function EscapeChar(c: char): string {
    if c == '"' then "\\\""
    else if c == '\\' then "\\\\"
    else if c == '\U{0008}' then "\\b"
    else if c == '\U{000C}' then "\\f"
    else if c == '\n' then "\\n"
    else if c == '\r' then "\\r"
    else if c == '\t' then "\\t"
    else if c < ' ' then "\\u00" + [HexDigit(c as int / 16), HexDigit(c as int % 16)]
    else [c]
  }

  // ---------------------------------------------------------------------------
  // Reading a string literal back: the inverse of Escape.

  function HexValue(c: char): Option<nat> {
    if '0' <= c <= '9' then Some(c as int - '0' as int)
    else if 'a' <= c <= 'f' then Some(c as int - 'a' as int + 10)
    else if 'A' <= c <= 'F' then Some(c as int - 'A' as int + 10)
    else None
  }

  function SimpleEscape(c: char): Option<char> {
    if c == '"' then Some('"')
    else if c == '\\' then Some('\\')
    else if c == '/' then Some('/')
    else if c == 'b' then Some('\U{0008}')
    else if c == 'f' then Some('\U{000C}')
    else if c == 'n' then Some('\n')
    else if c == 'r' then Some('\r')
    else if c == 't' then Some('\t')
    else None
  }

  /** The characters a JSON string body denotes (`\uXXXX` only below U+0100). */
  function Unescape(e: string): Option<string>
    decreases |e|
  {
    if |e| == 0 then Some("")
    else if e[0] != '\\' then
      match Unescape(e[1..])
      case None => None
      case Some(rest) => Some([e[0]] + rest)
    else if |e| >= 2 && SimpleEscape(e[1]).Some? then
      match Unescape(e[2..])
      case None => None
      case Some(rest) => Some([SimpleEscape(e[1]).value] + rest)
    else if |e| >= 6 && e[1] == 'u' && e[2] == '0' && e[3] == '0'
            && HexValue(e[4]).Some? && HexValue(e[5]).Some? then
      match Unescape(e[6..])
      case None => None
      case Some(rest) => Some([(HexValue(e[4]).value * 16 + HexValue(e[5]).value) as char] + rest)
    else None
  }

  lemma HexDigitValue(d: nat)
    requires d < 16
    ensures HexValue(HexDigit(d)) == Some(d)
  {
  }

  lemma UnescapeChar(c: char, rest: string)
    ensures Unescape(EscapeChar(c) + rest) ==
      match Unescape(rest)
      case None => None
      case Some(r) => Some([c] + r)
  {
    var e := EscapeChar(c) + rest;
    if c < ' ' && c != '\U{0008}' && c != '\U{000C}' && c != '\n' && c != '\r' && c != '\t' {
      HexDigitValue(c as int / 16);
      HexDigitValue(c as int % 16);
      assert e[6..] == rest;
    } else if |EscapeChar(c)| == 2 {
      assert e[2..] == rest;
    } else {
      assert e[1..] == rest;
    }
  }

  /** Escaping loses nothing: a JSON string literal reads back as the string it was written from. */
  lemma {:induction false} EscapeRoundTrip(s: string)
    ensures Unescape(Escape(s)) == Some(s)
    decreases |s|
  {
    if |s| > 0 {
      EscapeRoundTrip(s[1..]);
      UnescapeChar(s[0], Escape(s[1..]));
      assert [s[0]] + s[1..] == s;
    }
  }

  /** An escaped string has no raw double quote: the literal ends at its closing quote. */
  lemma {:induction false} EscapeHasNoBareQuote(s: string)
    ensures forall k :: 0 <= k < |Escape(s)| && Escape(s)[k] == '"' ==> k > 0 && Escape(s)[k - 1] == '\\'
    decreases |s|
  {
    if |s| > 0 {
      EscapeHasNoBareQuote(s[1..]);
      var head := EscapeChar(s[0]);
      var e := Escape(s);
      assert e == head + Escape(s[1..]);
      forall k | 0 <= k < |e| && e[k] == '"' ensures k > 0 && e[k - 1] == '\\' {
        if k >= |head| {
          assert e[k] == Escape(s[1..])[k - |head|];
          if k == |head| {
            assert false;
          }
          assert e[k - 1] == Escape(s[1..])[k - 1 - |head|];
        }
      }
    }
  }

  /** The first character of a stringified value tells its kind. */
  lemma StringifyShape(v: Json)
    ensures |Stringify(v)| > 0
    ensures Stringify(v)[0] == '{' <==> v.JObj?
    ensures Stringify(v)[0] == '[' <==> v.JArr?
    ensures Stringify(v)[0] == '"' <==> v.JStr?
  {
    match v
    case JNum(n) =>
      if n < 0 {
        assert Stringify(v)[0] == '-';
      } else {
        assert Stringify(v)[0] == NatToDecimal(n)[0];
      }
    case _ =>
  }
}
