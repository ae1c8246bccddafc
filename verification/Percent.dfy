/**
 * Percent-encoding of query values over UTF-8, as shell/ezil/app-history.js prints them and a query parser reads them
 * (section 2 of RFC 3986, and RFC 3629 for the encoding of characters).
 */
module Percent {

  // --- UTF-8 --------------------------------------------------------------------------------------------------------

  function Utf8(c: char): (bytes: seq<nat>)
    ensures 1 <= |bytes| <= 4
  {
    var p := c as int;
    if p < 0x80 then [p]
    else if p < 0x800 then [0xC0 + p / 64, 0x80 + p % 64]
    else if p < 0x10000 then [0xE0 + p / 4096, 0x80 + p / 64 % 64, 0x80 + p % 64]
    else [0xF0 + p / 262144, 0x80 + p / 4096 % 64, 0x80 + p / 64 % 64, 0x80 + p % 64]
  }

  predicate Continues(b: nat) {
    0x80 <= b < 0xC0
  }

  // How many bytes the first character takes, and which it is. A malformed byte stands for U+FFFD.
  function First(b: seq<nat>): (r: (nat, char))
    requires b != []
    ensures 1 <= r.0 <= |b|
  {
    if b[0] < 0x80 then (1, b[0] as char)
    else if 0xC2 <= b[0] < 0xE0 && |b| >= 2 && Continues(b[1]) then
      (2, ((b[0] - 0xC0) * 64 + b[1] - 0x80) as char)
    else if 0xE0 <= b[0] < 0xF0 && |b| >= 3 && Continues(b[1]) && Continues(b[2]) then
      var p := (b[0] - 0xE0) * 4096 + (b[1] - 0x80) * 64 + b[2] - 0x80;
      if 0x800 <= p < 0xD800 || 0xE000 <= p then (3, p as char) else (1, 0xFFFD as char)
    else if 0xF0 <= b[0] < 0xF5 && |b| >= 4 && Continues(b[1]) && Continues(b[2]) && Continues(b[3]) then
      var p := (b[0] - 0xF0) * 262144 + (b[1] - 0x80) * 4096 + (b[2] - 0x80) * 64 + b[3] - 0x80;
      if 0x10000 <= p < 0x110000 then (4, p as char) else (1, 0xFFFD as char)
    else (1, 0xFFFD as char)
  }

  function Characters(b: seq<nat>): string
    decreases |b|
  {
    if b == [] then "" else [First(b).1] + Characters(b[First(b).0..])
  }

  lemma SixBits(p: nat)
    requires p < 0x110000
    ensures p == p / 262144 * 262144 + p / 4096 % 64 * 4096 + p / 64 % 64 * 64 + p % 64 && p / 262144 < 5
  {
    var a := p / 64;
    var b := a / 64;
    var d := b / 64;
    assert p == a * 64 + p % 64 && a == b * 64 + a % 64 && b == d * 64 + b % 64;
    assert p / 4096 == b && p / 262144 == d;
  }

  lemma FirstOfTwo(c: char, rest: seq<nat>)
    requires 0x80 <= c as int < 0x800
    ensures First(Utf8(c) + rest) == (2, c)
  {
    var p := c as int;
    assert p == p / 64 * 64 + p % 64 && 2 <= p / 64 < 32;
  }

  lemma FirstOfThree(c: char, rest: seq<nat>)
    requires 0x800 <= c as int < 0x10000
    ensures First(Utf8(c) + rest) == (3, c)
  {
    var p := c as int;
    ThreeDigits(p);
    var b := Utf8(c) + rest;
    assert b[0] == 0xE0 + p / 4096 && b[1] == 0x80 + p / 64 % 64 && b[2] == 0x80 + p % 64;
    hide Utf8;
  }

  lemma ThreeDigits(p: nat)
    requires p < 0x10000
    ensures p == p / 4096 * 4096 + p / 64 % 64 * 64 + p % 64 && p / 4096 < 16
  {
    var a := p / 64;
    assert p == a * 64 + p % 64 && a == a / 64 * 64 + a % 64;
    assert p / 4096 == a / 64;
  }

  lemma FirstOfFour(c: char, rest: seq<nat>)
    requires 0x10000 <= c as int
    ensures First(Utf8(c) + rest) == (4, c)
  {
    var p := c as int;
    var top, high, mid, low := p / 262144, p / 4096 % 64, p / 64 % 64, p % 64;
    SixBits(p);
    var b := Utf8(c) + rest;
    assert b[0] == 0xF0 + top && b[1] == 0x80 + high && b[2] == 0x80 + mid && b[3] == 0x80 + low;
  }

  lemma FirstOfUtf8(c: char, rest: seq<nat>)
    ensures First(Utf8(c) + rest) == (|Utf8(c)|, c)
  {
    var p := c as int;
    if p < 0x80 {
    } else if p < 0x800 {
      FirstOfTwo(c, rest);
    } else if p < 0x10000 {
      FirstOfThree(c, rest);
    } else {
      FirstOfFour(c, rest);
    }
  }

  function Utf8All(s: string): seq<nat> {
    if s == "" then [] else Utf8(s[0]) + Utf8All(s[1..])
  }

  lemma {:induction false} CharactersOfUtf8(s: string)
    ensures Characters(Utf8All(s)) == s
  {
    if s == "" {
    } else {
      FirstOfUtf8(s[0], Utf8All(s[1..]));
      assert Utf8All(s)[|Utf8(s[0])|..] == Utf8All(s[1..]);
      CharactersOfUtf8(s[1..]);
    }
  }

  // --- Escapes ------------------------------------------------------------------------------------------------------

  function Hex(n: nat): (c: char)
    requires n < 16
    ensures '0' <= c <= '9' || 'A' <= c <= 'F'
  {
    if n < 10 then '0' + (n as char) else 'A' + ((n - 10) as char)
  }

  // Either case is read; -1 is not a digit.
  function HexValue(c: char): (n: int)
    ensures -1 <= n < 16
  {
    if '0' <= c <= '9' then c as int - '0' as int
    else if 'A' <= c <= 'F' then c as int - 'A' as int + 10
    else if 'a' <= c <= 'f' then c as int - 'a' as int + 10
    else -1
  }

  predicate Byte(b: nat) {
    b < 256
  }

  function Escapes(bytes: seq<nat>): string
    requires forall i :: 0 <= i < |bytes| ==> Byte(bytes[i])
  {
    if bytes == [] then ""
    else
      assert Byte(bytes[0]);
      ['%', Hex(bytes[0] / 16), Hex(bytes[0] % 16)] + Escapes(bytes[1..])
  }

  lemma Utf8Bytes(c: char)
    ensures forall i :: 0 <= i < |Utf8(c)| ==> Byte(Utf8(c)[i])
  {
  }

  // What is left as it is in a query value; `/` stays readable.
  predicate Safe(c: char) {
    'A' <= c <= 'Z' || 'a' <= c <= 'z' || '0' <= c <= '9'
    || c == '-' || c == '_' || c == '.' || c == '!' || c == '~' || c == '*' || c == '\'' || c == '(' || c == ')'
    || c == '/'
  }

  function Encode(s: string): string {
    if s == "" then ""
    else
      Utf8Bytes(s[0]);
      (if Safe(s[0]) then [s[0]] else Escapes(Utf8(s[0]))) + Encode(s[1..])
  }

  // The bytes a query name or value stands for.
  function Unescape(s: string): seq<nat>
    decreases |s|
  {
    if s == "" then []
    else if |s| >= 3 && s[0] == '%' && HexValue(s[1]) >= 0 && HexValue(s[2]) >= 0 then
      [HexValue(s[1]) * 16 + HexValue(s[2])] + Unescape(s[3..])
    else if s[0] == '+' then [32] + Unescape(s[1..])
    else Utf8(s[0]) + Unescape(s[1..])
  }

  function Decode(s: string): string {
    Characters(Unescape(s))
  }

  lemma Regroup<T>(a: seq<T>, b: seq<T>, c: seq<T>)
    ensures a + b + c == a + (b + c)
  {
  }

  lemma UnescapeOne(b: nat, rest: string)
    requires Byte(b)
    ensures Unescape(['%', Hex(b / 16), Hex(b % 16)] + rest) == [b] + Unescape(rest)
  {
    assert (['%', Hex(b / 16), Hex(b % 16)] + rest)[3..] == rest;
    assert HexValue(Hex(b / 16)) == b / 16 && HexValue(Hex(b % 16)) == b % 16;
  }

  lemma {:induction false} UnescapeEscapes(bytes: seq<nat>, rest: string)
    requires forall i :: 0 <= i < |bytes| ==> Byte(bytes[i])
    ensures Unescape(Escapes(bytes) + rest) == bytes + Unescape(rest)
  {
    if bytes == [] {
      assert Escapes(bytes) + rest == rest;
    } else {
      var b := bytes[0];
      assert Byte(b);
      var head, more := ['%', Hex(b / 16), Hex(b % 16)], Escapes(bytes[1..]);
      assert Escapes(bytes) == head + more;
      hide Unescape, Escapes, Hex, Byte;
      Regroup(head, more, rest);
      UnescapeOne(b, more + rest);
      UnescapeEscapes(bytes[1..], rest);
      Regroup([b], bytes[1..], Unescape(rest));
      assert bytes == [b] + bytes[1..];
    }
  }

  lemma {:induction false} UnescapeEncode(s: string)
    ensures Unescape(Encode(s)) == Utf8All(s)
  {
    if s == "" {
    } else {
      UnescapeEncode(s[1..]);
      Utf8Bytes(s[0]);
      if Safe(s[0]) {
        assert ([s[0]] + Encode(s[1..]))[1..] == Encode(s[1..]);
      } else {
        UnescapeEscapes(Utf8(s[0]), Encode(s[1..]));
      }
    }
  }

  /** Whatever text is encoded, decoding gives it back. */
  lemma DecodeEncode(s: string)
    ensures Decode(Encode(s)) == s
  {
    UnescapeEncode(s);
    CharactersOfUtf8(s);
  }

  // --- Pairs --------------------------------------------------------------------------------------------------------

  function NameOf(pair: string): string {
    if pair == "" || pair[0] == '=' then "" else [pair[0]] + NameOf(pair[1..])
  }

  function ValueOf(pair: string): string {
    if pair == "" then "" else if pair[0] == '=' then pair[1..] else ValueOf(pair[1..])
  }

  function Pair(key: string, value: string): string {
    Encode(key) + "=" + Encode(value)
  }

  lemma {:induction false} EscapesHaveNoEquals(bytes: seq<nat>)
    requires forall i :: 0 <= i < |bytes| ==> Byte(bytes[i])
    ensures '=' !in Escapes(bytes) && '&' !in Escapes(bytes)
  {
    if bytes == [] {
    } else {
      EscapesHaveNoEquals(bytes[1..]);
    }
  }

  lemma {:induction false} EncodeHasNoEquals(s: string)
    ensures '=' !in Encode(s) && '&' !in Encode(s)
  {
    if s == "" {
    } else {
      Utf8Bytes(s[0]);
      EscapesHaveNoEquals(Utf8(s[0]));
      EncodeHasNoEquals(s[1..]);
    }
  }

  lemma {:induction false} SplitAtEquals(name: string, value: string)
    requires '=' !in name
    ensures NameOf(name + "=" + value) == name && ValueOf(name + "=" + value) == value
  {
    if name == "" {
      assert name + "=" + value == "=" + value && ("=" + value)[1..] == value;
    } else {
      SplitAtEquals(name[1..], value);
      assert (name + "=" + value)[1..] == name[1..] + "=" + value;
    }
  }

  /** A printed pair is read back as its key and its value. */
  lemma PairReadsBack(key: string, value: string)
    ensures Decode(NameOf(Pair(key, value))) == key && Decode(ValueOf(Pair(key, value))) == value
    ensures ValueOf(Pair(key, value)) == Encode(value)
  {
    EncodeHasNoEquals(key);
    SplitAtEquals(Encode(key), Encode(value));
    DecodeEncode(key);
    DecodeEncode(value);
  }

  lemma {:induction false} EncodeSafe(s: string)
    requires forall i :: 0 <= i < |s| ==> Safe(s[i])
    ensures Encode(s) == s
  {
    if s == "" {
    } else {
      EncodeSafe(s[1..]);
      assert [s[0]] + s[1..] == s;
    }
  }
}
