/**
 * What the encoder leaves and what it escapes, and what the decoder makes of any bytes, by their numbers (section 2.1
 * of RFC 3986, section 3 of RFC 3629).
 */
module PercentRules {
  import opened Percent

  // --- Characters as bytes ------------------------------------------------------------------------------------------

  predicate Tail(b: nat) {
    128 <= b < 192
  }

  // These bytes are the character with this number.
  predicate Spells(bytes: seq<nat>, p: nat) {
    match |bytes|
    case 1 => bytes[0] == p && p < 128
    case 2 => Tail(bytes[1]) && p + 192 * 64 + 128 == bytes[0] * 64 + bytes[1] && 128 <= p < 2_048
    case 3 =>
      && Tail(bytes[1]) && Tail(bytes[2])
      && p + 224 * 4_096 + 128 * 64 + 128 == bytes[0] * 4_096 + bytes[1] * 64 + bytes[2] && 2_048 <= p < 65_536
    case 4 =>
      && Tail(bytes[1]) && Tail(bytes[2]) && Tail(bytes[3])
      && p + 240 * 262_144 + 128 * 4_096 + 128 * 64 + 128
         == bytes[0] * 262_144 + bytes[1] * 4_096 + bytes[2] * 64 + bytes[3]
      && 65_536 <= p < 1_114_112
    case _ => false
  }

  /** Every character is written as its number's bytes, the fewest that hold it. */
  lemma Utf8Spells(c: char)
    ensures Spells(Utf8(c), c as int)
  {
    var p := c as int;
    if p < 2_048 {
      assert p == p / 64 * 64 + p % 64;
    } else if p < 65_536 {
      ThreeDigits(p);
    } else {
      SixBits(p);
    }
  }

  /**
   * The decoder reads the character whose bytes come first; if no character's do, it takes one byte and reads the
   * replacement character.
   */
  lemma FirstExactly(bytes: seq<nat>)
    requires bytes != []
    ensures forall c :: Utf8(c) <= bytes ==> First(bytes) == (|Utf8(c)|, c)
    ensures (forall c :: !(Utf8(c) <= bytes)) ==> First(bytes) == (1, 65_533 as char)
  {
    forall c | Utf8(c) <= bytes
      ensures First(bytes) == (|Utf8(c)|, c)
    {
      FirstOfUtf8(c, bytes[|Utf8(c)|..]);
      assert bytes == Utf8(c) + bytes[|Utf8(c)|..];
      hide First, Utf8;
    }
    if First(bytes) != (1, 65_533 as char) {
      var c := First(bytes).1;
      FirstIsWhole(bytes);
      assert Utf8(c) <= bytes;
    }
  }

  lemma FirstIsWhole(bytes: seq<nat>)
    requires bytes != [] && First(bytes) != (1, 65_533 as char)
    ensures Utf8(First(bytes).1) == bytes[..First(bytes).0]
  {
    if First(bytes).0 == 4 {
      FourAreWhole(bytes);
    } else if First(bytes).0 == 3 {
      ThreeBytes(bytes[0] - 224, bytes[1] - 128, bytes[2] - 128);
    } else if First(bytes).0 == 2 {
      TwoBytes(bytes[0] - 192, bytes[1] - 128);
    }
  }

  lemma FourAreWhole(bytes: seq<nat>)
    requires bytes != [] && First(bytes).0 == 4
    ensures Utf8(First(bytes).1) == bytes[..4]
  {
    FourBytes(bytes[0] - 240, bytes[1] - 128, bytes[2] - 128, bytes[3] - 128);
  }

  lemma TwoBytes(a: nat, b: nat)
    requires b < 64
    ensures (a * 64 + b) / 64 == a && (a * 64 + b) % 64 == b
  {
  }

  lemma ThreeBytes(a: nat, b: nat, d: nat)
    requires b < 64 && d < 64
    ensures var p := a * 4_096 + b * 64 + d; p / 4_096 == a && p / 64 % 64 == b && p % 64 == d
  {
    TwoBytes(a * 64 + b, d);
    TwoBytes(a, b);
    assert a * 4_096 + b * 64 + d == (a * 64 + b) * 64 + d;
  }

  lemma FourBytes(a: nat, b: nat, d: nat, e: nat)
    requires b < 64 && d < 64 && e < 64
    ensures var p := a * 262_144 + b * 4_096 + d * 64 + e;
      p / 262_144 == a && p / 4_096 % 64 == b && p / 64 % 64 == d && p % 64 == e
  {
    ThreeBytes(a * 64 + b, d, e);
    TwoBytes(a, b);
    var p := a * 262_144 + b * 4_096 + d * 64 + e;
    assert p == (a * 64 + b) * 4_096 + d * 64 + e;
    assert p / 262_144 == p / 4_096 / 64;
  }

  // --- What is escaped ----------------------------------------------------------------------------------------------

  // Letters, digits, and `!`, `'`, `(`, `)`, `*`, `-`, `.`, `/`, `_` and `~`, by their codes.
  predicate Unescaped(c: char) {
    var p := c as int;
    65 <= p < 91 || 97 <= p < 123 || 48 <= p < 58 || p in {33, 39, 40, 41, 42, 45, 46, 47, 95, 126}
  }

  // The code of a hexadecimal digit, in capitals.
  function Digit(n: nat): nat {
    if n < 10 then 48 + n else 55 + n
  }

  predicate IsEscape(text: string, b: nat) {
    |text| == 3 && text[0] as int == 37 && text[1] as int == Digit(b / 16) && text[2] as int == Digit(b % 16)
  }

  lemma {:induction false} EscapesAre(bytes: seq<nat>)
    requires forall i :: 0 <= i < |bytes| ==> Byte(bytes[i])
    ensures |Escapes(bytes)| == 3 * |bytes|
    ensures forall i :: 0 <= i < |bytes| ==> IsEscape(Escapes(bytes)[3 * i..3 * i + 3], bytes[i])
  {
    if bytes == [] {
    } else {
      var rest, all := Escapes(bytes[1..]), Escapes(bytes);
      assert Byte(bytes[0]);
      EscapesAre(bytes[1..]);
      forall i | 0 <= i < |bytes|
        ensures IsEscape(all[3 * i..3 * i + 3], bytes[i])
      {
        if i == 0 {
          assert all[0..3] == ['%', Hex(bytes[0] / 16), Hex(bytes[0] % 16)];
        } else {
          assert all[3 * i..3 * i + 3] == rest[3 * (i - 1)..3 * (i - 1) + 3];
          assert bytes[1..][i - 1] == bytes[i];
        }
      }
    }
  }

  /**
   * A character is left as it is exactly when it is one of those listed; any other is an escape for each of its bytes.
   */
  lemma EncodedExactly(c: char)
    ensures if Unescaped(c) then Encode([c]) == [c]
            else |Encode([c])| == 3 * |Utf8(c)|
                 && forall i :: 0 <= i < |Utf8(c)| ==> IsEscape(Encode([c])[3 * i..3 * i + 3], Utf8(c)[i])
  {
    Utf8Bytes(c);
    EscapesAre(Utf8(c));
    EncodedOne(c);
    hide Escapes, Encode, Utf8, IsEscape;
  }

  lemma EncodedOne(c: char)
    requires forall i :: 0 <= i < |Utf8(c)| ==> Byte(Utf8(c)[i])
    ensures Encode([c]) == if Safe(c) then [c] else Escapes(Utf8(c))
  {
    hide Utf8, Safe, Escapes;
    assert [c][1..] == "" && Encode("") == "";
    assert Escapes(Utf8(c)) + "" == Escapes(Utf8(c));
  }

  /** A text is encoded character by character. */
  lemma {:induction false} EncodedInParts(a: string, b: string)
    ensures Encode(a + b) == Encode(a) + Encode(b)
  {
    if a == "" {
      assert a + b == b;
    } else {
      assert (a + b)[1..] == a[1..] + b;
      EncodedInParts(a[1..], b);
      Utf8Bytes(a[0]);
      var first := if Safe(a[0]) then [a[0]] else Escapes(Utf8(a[0]));
      hide Utf8, Safe, Escapes;
      assert Encode(a) == first + Encode(a[1..]);
      assert Encode(a + b) == first + Encode((a + b)[1..]) by { assert (a + b)[0] == a[0]; }
      Regroup(first, Encode(a[1..]), Encode(b));
    }
  }

  // The value of a hexadecimal digit, in capitals or not.
  function DigitValue(c: char): int {
    var p := c as int;
    if 48 <= p < 58 then p - 48 else if 65 <= p < 71 then p - 55 else if 97 <= p < 103 then p - 87 else -1
  }

  predicate StartsEscape(s: string) {
    |s| >= 3 && s[0] as int == 37 && DigitValue(s[1]) >= 0 && DigitValue(s[2]) >= 0
  }

  /** A `%` with two digits is their byte, `+` is a space, and any other character its own bytes. */
  lemma DecodedExactly(s: string)
    requires s != ""
    ensures StartsEscape(s) ==> Unescape(s) == [DigitValue(s[1]) * 16 + DigitValue(s[2])] + Unescape(s[3..])
    ensures s[0] as int == 43 ==> Unescape(s) == [32] + Unescape(s[1..])
    ensures !StartsEscape(s) && s[0] as int != 43 ==> Unescape(s) == Utf8(s[0]) + Unescape(s[1..])
  {
    StartsIs(s);
    var head, more := s[0], Unescape(s[1..]);
    if StartsEscape(s) {
      DigitIs(s[1]);
      DigitIs(s[2]);
      var rest := Unescape(s[3..]);
      hide Utf8, HexValue, DigitValue, StartsEscape;
    } else {
      hide Utf8, HexValue, DigitValue, StartsEscape;
    }
  }

  lemma StartsIs(s: string)
    ensures StartsEscape(s) <==> |s| >= 3 && s[0] == '%' && HexValue(s[1]) >= 0 && HexValue(s[2]) >= 0
  {
  }

  lemma DigitIs(c: char)
    ensures HexValue(c) == DigitValue(c)
  {
  }

  /** A pair is its name, and after the first equals sign its value; without one it is all name, and its value empty. */
  lemma {:induction false} SplitsExactly(pair: string)
    ensures '=' !in NameOf(pair)
    ensures pair == if '=' in pair then NameOf(pair) + "=" + ValueOf(pair) else NameOf(pair)
    ensures '=' !in pair ==> ValueOf(pair) == ""
  {
    if pair == "" {
    } else if pair[0] as int == 61 {
      assert pair == "=" + pair[1..];
    } else {
      SplitsExactly(pair[1..]);
      assert pair == [pair[0]] + pair[1..];
    }
  }
}
