/**
 * `URLSearchParams.prototype.toString`: the application/x-www-form-urlencoded
 * serializer of the WHATWG URL Standard (section 5.2). Each name and value is
 * UTF-8 encoded; ASCII letters, digits and `*-._` stay as they are, a space
 * becomes `+`, every other byte becomes `%XX` with upper-case hex digits; pairs
 * are written `name=value` and joined with `&`.
 */
module FormEncoding {
  import opened Text

  predicate IsUnreserved(c: char) {
    ('a' <= c <= 'z') || ('A' <= c <= 'Z') || ('0' <= c <= '9')
    || c == '*' || c == '-' || c == '.' || c == '_'
  }

  /** The UTF-8 encoding of one Unicode scalar value. */
  function Utf8(c: char): (bytes: seq<nat>)
    ensures 1 <= |bytes| <= 4 && forall k :: 0 <= k < |bytes| ==> bytes[k] < 256
  {
    var v := c as int;
    if v < 0x80 then [v]
    else if v < 0x800 then [0xC0 + v / 64, 0x80 + v % 64]
    else if v < 0x10000 then [0xE0 + v / 4096, 0x80 + (v / 64) % 64, 0x80 + v % 64]
    else [0xF0 + v / 262144, 0x80 + (v / 4096) % 64, 0x80 + (v / 64) % 64, 0x80 + v % 64]
  }

  function UpperHex(d: nat): (c: char)
    requires d < 16
    ensures ('0' <= c <= '9') || ('A' <= c <= 'F')
  {
    if d < 10 then ('0' as int + d) as char else ('A' as int + d - 10) as char
  }

  function PercentBytes(bytes: seq<nat>): (s: string)
    requires forall k :: 0 <= k < |bytes| ==> bytes[k] < 256
    ensures forall k :: 0 <= k < |s| ==> s[k] == '%' || ('0' <= s[k] <= '9') || ('A' <= s[k] <= 'F')
    decreases |bytes|
  {
    if |bytes| == 0 then ""
    else ['%', UpperHex(bytes[0] / 16), UpperHex(bytes[0] % 16)] + PercentBytes(bytes[1..])
  }

  function EncodeChar(c: char): (s: string)
    ensures forall k :: 0 <= k < |s| ==> IsQuerySafe(s[k])
  {
    if IsUnreserved(c) then [c]
    else if c == ' ' then "+"
    else PercentBytes(Utf8(c))
  }

  /** The characters an encoded name or value can contain: never `&`, `=`, `?` or `#`. */
  predicate IsQuerySafe(c: char) {
    IsUnreserved(c) || c == '+' || c == '%'
  }

  function EncodeComponent(s: string): (r: string)
    ensures forall k :: 0 <= k < |r| ==> IsQuerySafe(r[k])
    decreases |s|
  {
    if |s| == 0 then ""
    else
      var head := EncodeChar(s[0]);
      var tail := EncodeComponent(s[1..]);
      assert forall k :: |head| <= k < |head| + |tail| ==> (head + tail)[k] == tail[k - |head|];
      head + tail
  }

  function EncodePair(p: (string, string)): string {
    EncodeComponent(p.0) + "=" + EncodeComponent(p.1)
  }

  function EncodePairs(pairs: seq<(string, string)>): (r: seq<string>)
    ensures |r| == |pairs| && forall i :: 0 <= i < |pairs| ==> r[i] == EncodePair(pairs[i])
  {
    seq(|pairs|, i requires 0 <= i < |pairs| => EncodePair(pairs[i]))
  }

  /** `new URLSearchParams(pairs).toString()`. */
  function Serialize(pairs: seq<(string, string)>): string {
    Join(EncodePairs(pairs), "&")
  }

  lemma EncodedAvoids(s: string, c: char)
    requires !IsQuerySafe(c)
    ensures c !in EncodeComponent(s)
  {
  }

  /** An empty parameter list serializes to the empty string. */
  lemma SerializeEmpty()
    ensures Serialize([]) == ""
  {
  }

  /**
   * The serialized form is unambiguous: splitting it at `&` gives one
   * `name=value` piece per pair, in order, and each piece has exactly one `=`,
   * between the encoded name and the encoded value.
   */
  lemma SerializeSplits(pairs: seq<(string, string)>)
    requires |pairs| >= 1
    ensures Split(Serialize(pairs), '&') == EncodePairs(pairs)
    ensures forall i :: 0 <= i < |pairs| ==>
      Split(EncodePairs(pairs)[i], '=') == [EncodeComponent(pairs[i].0), EncodeComponent(pairs[i].1)]
  {
    var parts := EncodePairs(pairs);
    forall p | p in parts ensures '&' !in p {
      var i :| 0 <= i < |parts| && parts[i] == p;
      EncodedAvoids(pairs[i].0, '&');
      EncodedAvoids(pairs[i].1, '&');
    }
    SplitJoin(parts, '&');
    forall i | 0 <= i < |pairs|
      ensures Split(parts[i], '=') == [EncodeComponent(pairs[i].0), EncodeComponent(pairs[i].1)]
    {
      var n, v := EncodeComponent(pairs[i].0), EncodeComponent(pairs[i].1);
      EncodedAvoids(pairs[i].0, '=');
      EncodedAvoids(pairs[i].1, '=');
      assert Join([n, v], "=") == n + "=" + v;
      SplitJoin([n, v], '=');
    }
  }
}
