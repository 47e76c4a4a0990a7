/**
  Query strings as `net/url` writes them: `QueryEscape` percent-encodes the
  UTF-8 bytes of a value (unreserved characters stay, a space becomes "+",
  every other byte becomes "%XX" in upper-case hex), and `Values.Encode`
  writes "key=value" pairs sorted by key and joined with "&". The keys are
  those a NewsAPI request can carry, one value each.
 */
module UrlQuery {
  import opened Wrappers

  type byte = x: int | 0 <= x < 256

  // ---------------------------------------------------------------------
  // UTF-8

  /** The UTF-8 encoding of one Unicode scalar value. */
  function Utf8(c: char): (bs: seq<byte>)
    ensures 1 <= |bs| <= 4
    ensures |bs| == 1 <==> c as int < 0x80
    ensures |bs| == 1 ==> bs[0] == c as int
    ensures |bs| > 1 ==> forall i :: 0 <= i < |bs| ==> bs[i] >= 0x80
  {
    var n := c as int;
    if n < 0x80 then [n]
    else if n < 0x800 then [0xC0 + n / 64, 0x80 + n % 64]
    else if n < 0x10000 then [0xE0 + n / 4096, 0x80 + (n / 64) % 64, 0x80 + n % 64]
    else [0xF0 + n / 262144, 0x80 + (n / 4096) % 64, 0x80 + (n / 64) % 64, 0x80 + n % 64]
  }

  function Utf8Bytes(s: string): seq<byte> {
    if s == [] then [] else Utf8(s[0]) + Utf8Bytes(s[1..])
  }

  /** An ASCII string encodes to its own character codes. */
  lemma {:induction false} Utf8Ascii(s: string)
    requires forall i :: 0 <= i < |s| ==> s[i] as int < 0x80
    ensures |Utf8Bytes(s)| == |s|
    ensures forall i :: 0 <= i < |s| ==> Utf8Bytes(s)[i] == s[i] as int
  {
    if s != [] {
      Utf8Ascii(s[1..]);
    }
  }

  // ---------------------------------------------------------------------
  // Escaping

  /** Bytes `QueryEscape` leaves as they are: letters, digits, '-', '_', '.', '~'. */
  predicate Unreserved(b: byte) {
    || ('A' as int <= b <= 'Z' as int)
    || ('a' as int <= b <= 'z' as int)
    || ('0' as int <= b <= '9' as int)
    || b == '-' as int || b == '_' as int || b == '.' as int || b == '~' as int
  }

  function HexDigit(d: int): (c: char)
    requires 0 <= d < 16
    ensures IsHex(c) && HexValue(c) == d
  {
    if d < 10 then ('0' as int + d) as char else ('A' as int + d - 10) as char
  }

  predicate IsHex(c: char) {
    ('0' <= c <= '9') || ('a' <= c <= 'f') || ('A' <= c <= 'F')
  }

  function HexValue(c: char): (d: int)
    requires IsHex(c)
    ensures 0 <= d < 16
  {
    if '0' <= c <= '9' then c as int - '0' as int
    else if 'a' <= c <= 'f' then c as int - 'a' as int + 10
    else c as int - 'A' as int + 10
  }

  /** The text one byte becomes. */
  function EscapeByte(b: byte): (s: string)
    ensures 1 <= |s| <= 3
    ensures |s| == 1 <==> Unreserved(b) || b == 0x20
  {
    if Unreserved(b) then [b as char]
    else if b == 0x20 then "+"
    else ['%', HexDigit(b / 16), HexDigit(b % 16)]
  }

  function EscapeBytes(bs: seq<byte>): string {
    if bs == [] then "" else EscapeByte(bs[0]) + EscapeBytes(bs[1..])
  }

  /** `url.QueryEscape`: the escaped UTF-8 bytes of the value. */
  function QueryEscape(s: string): string {
    EscapeBytes(Utf8Bytes(s))
  }

  /** Characters that can appear in escaped text. */
  predicate EscapedChar(c: char) {
    (c as int < 0x80 && Unreserved(c as int)) || c == '+' || c == '%'
  }

  lemma {:induction false} EscapeBytesAlphabet(bs: seq<byte>)
    ensures forall i :: 0 <= i < |EscapeBytes(bs)| ==> EscapedChar(EscapeBytes(bs)[i])
  {
    if bs != [] {
      EscapeBytesAlphabet(bs[1..]);
      var head := EscapeByte(bs[0]);
      var rest := EscapeBytes(bs[1..]);
      assert forall i :: 0 <= i < |head| ==> EscapedChar(head[i]);
      assert EscapeBytes(bs) == head + rest;
    }
  }

  /** Escaped text never contains the separators of a query string, so pairs split unambiguously. */
  lemma QueryEscapeNoSeparators(s: string)
    ensures forall i :: 0 <= i < |QueryEscape(s)| ==>
      QueryEscape(s)[i] !in {'&', '=', '?', '#', ' '}
  {
    EscapeBytesAlphabet(Utf8Bytes(s));
  }

  /** A value made only of unreserved characters is written unchanged. */
  lemma {:induction false} QueryEscapeUnreserved(s: string)
    requires forall i :: 0 <= i < |s| ==> s[i] as int < 0x80 && Unreserved(s[i] as int)
    ensures QueryEscape(s) == s
  {
    if s != [] {
      QueryEscapeUnreserved(s[1..]);
      assert Utf8Bytes(s) == [s[0] as int] + Utf8Bytes(s[1..]);
      assert ([s[0] as int] + Utf8Bytes(s[1..]))[1..] == Utf8Bytes(s[1..]);
      assert [s[0]] + s[1..] == s;
    }
  }

  // ---------------------------------------------------------------------
  // Unescaping, the inverse

  function Prepend(b: byte, rest: Option<seq<byte>>): Option<seq<byte>> {
    if rest.Some? then Some([b] + rest.value) else None
  }

  /** The bytes escaped text stands for, as `url.QueryUnescape` reads ASCII input; None when malformed. */
  function Unescape(s: string): Option<seq<byte>>
    decreases |s|
  {
    if s == [] then Some([])
    else if s[0] == '+' then Prepend(0x20, Unescape(s[1..]))
    else if s[0] == '%' then
      if |s| >= 3 && IsHex(s[1]) && IsHex(s[2]) then Prepend(HexValue(s[1]) * 16 + HexValue(s[2]), Unescape(s[3..]))
      else None
    else if s[0] as int < 0x80 then Prepend(s[0] as int, Unescape(s[1..]))
    else None
  }

  lemma UnescapeByte(b: byte, rest: string)
    ensures Unescape(EscapeByte(b) + rest) == Prepend(b, Unescape(rest))
  {
    var e := EscapeByte(b);
    var s := e + rest;
    if Unreserved(b) || b == 0x20 {
      assert s[1..] == rest;
    } else {
      assert s[3..] == rest;
      assert s[0] == '%' && s[1] == HexDigit(b / 16) && s[2] == HexDigit(b % 16);
    }
  }

  /** Unescaping undoes escaping, byte for byte. */
  lemma {:induction false} UnescapeEscapeBytes(bs: seq<byte>)
    ensures Unescape(EscapeBytes(bs)) == Some(bs)
  {
    if bs != [] {
      UnescapeEscapeBytes(bs[1..]);
      UnescapeByte(bs[0], EscapeBytes(bs[1..]));
      assert [bs[0]] + bs[1..] == bs;
    }
  }

  /** `QueryEscape` loses nothing: unescaping its output gives back the value's UTF-8 bytes. */
  lemma QueryEscapeRoundTrip(s: string)
    ensures Unescape(QueryEscape(s)) == Some(Utf8Bytes(s))
  {
    UnescapeEscapeBytes(Utf8Bytes(s));
  }

  // ---------------------------------------------------------------------
  // Values.Encode

  /** Byte-wise string order, as `sort.Strings` uses. */
  predicate LexLess(a: string, b: string)
    decreases |a|
  {
    if a == [] then b != []
    else if b == [] then false
    else if a[0] != b[0] then a[0] < b[0]
    else LexLess(a[1..], b[1..])
  }

  /** The keys a request can carry, in the order `Values.Encode` writes them. */
  const KeyOrder: seq<string> := ["apiKey", "country", "from", "language", "page", "pageSize", "q", "sortBy", "to"]

  /** The key order is the sorted order. */
  lemma KeyOrderSorted()
    ensures forall i :: 0 <= i < |KeyOrder| - 1 ==> LexLess(KeyOrder[i], KeyOrder[i + 1])
  {
    assert LexLess("apiKey", "country");
    assert LexLess("country", "from");
    assert LexLess("from", "language");
    assert LexLess("page", "pageSize") by {
      assert "page"[1..] == "age" && "pageSize"[1..] == "ageSize";
      assert "age"[1..] == "ge" && "ageSize"[1..] == "geSize";
      assert "ge"[1..] == "e" && "geSize"[1..] == "eSize";
      assert "e"[1..] == "" && "eSize"[1..] == "Size";
    }
    assert LexLess("language", "page");
    assert LexLess("pageSize", "q");
    assert LexLess("q", "sortBy");
    assert LexLess("sortBy", "to");
  }

  /** "k=v" pairs for the keys of `keys` present in `params`, in that order, joined with "&". */
  function EncodeKeys(params: map<string, string>, keys: seq<string>): string {
    if keys == [] then ""
    else
      var rest := EncodeKeys(params, keys[1..]);
      if keys[0] !in params then rest
      else
        var pair := QueryEscape(keys[0]) + "=" + QueryEscape(params[keys[0]]);
        if rest == "" then pair else pair + "&" + rest
  }

  /** `url.Values.Encode` for single-valued parameters whose keys are request keys. */
  function Encode(params: map<string, string>): string
    requires params.Keys <= set k | k in KeyOrder
  {
    EncodeKeys(params, KeyOrder)
  }

  /** Keys are written as they are: they are all unreserved. */
  lemma KeysUnescaped()
    ensures forall k :: k in KeyOrder ==> QueryEscape(k) == k
  {
    forall k | k in KeyOrder
      ensures QueryEscape(k) == k
    {
      assert forall i :: 0 <= i < |k| ==> k[i] as int < 0x80 && Unreserved(k[i] as int);
      QueryEscapeUnreserved(k);
    }
  }

  /** Encoding no parameters gives the empty query. */
  lemma {:induction false} EncodeKeysEmpty(keys: seq<string>)
    ensures EncodeKeys(map[], keys) == ""
  {
    if keys != [] {
      EncodeKeysEmpty(keys[1..]);
    }
  }
}
