/**
 * PHP's `base64_encode`: the base 64 encoding of section 4 of RFC 4648, with
 * the standard alphabet and `=` padding. The encoding is taken in two steps:
 * the bytes are cut into 6-bit values (with `Pad` for each pad position), and
 * each value is written as its alphabet character. The decoder is the partner
 * that shows the encoding is one-to-one.
 */
module Base64 {
  import opened Php

  newtype byte = x: int | 0 <= x < 256

  /** The value that stands for the pad character `=`. */
  const Pad := 64

  /** The character for a 6-bit value (`A`-`Z`, `a`-`z`, `0`-`9`, `+`, `/`), and `=` for `Pad`. */
  function Symbol(v: int): char {
    if 0 <= v < 26 then ('A' as int + v) as char
    else if 26 <= v < 52 then ('a' as int + v - 26) as char
    else if 52 <= v < 62 then ('0' as int + v - 52) as char
    else if v == 62 then '+'
    else if v == 63 then '/'
    else '='
  }

  /** The decoder's table: the value of a character, `Pad` for `=` and -1 outside the alphabet. */
  function Value(c: char): (v: int)
    ensures -1 <= v <= Pad
  {
    if 'A' <= c <= 'Z' then c as int - 'A' as int
    else if 'a' <= c <= 'z' then c as int - 'a' as int + 26
    else if '0' <= c <= '9' then c as int - '0' as int + 52
    else if c == '+' then 62
    else if c == '/' then 63
    else if c == '=' then Pad
    else -1
  }

  /** The table inverts the alphabet. */
  lemma SymbolValue(v: int)
    requires 0 <= v <= Pad
    ensures Value(Symbol(v)) == v
  {
  }

  /** Three bytes as four 6-bit values: the 24 bits cut into four. */
  function Group(a: byte, b: byte, c: byte): seq<int> {
    var x, y, z := a as int, b as int, c as int;
    [x / 4, x % 4 * 16 + y / 16, y % 16 * 4 + z / 64, z % 64]
  }

  /** The 6-bit values of `s`; one or two bytes left over are completed with zero bits and padded. */
  function Sextets(s: seq<byte>): (r: seq<int>)
    ensures forall i :: 0 <= i < |r| ==> 0 <= r[i] <= Pad
    decreases |s|
  {
    if |s| == 0 then []
    else if |s| == 1 then
      var x := s[0] as int;
      [x / 4, x % 4 * 16, Pad, Pad]
    else if |s| == 2 then
      var x, y := s[0] as int, s[1] as int;
      [x / 4, x % 4 * 16 + y / 16, y % 16 * 4, Pad]
    else Group(s[0], s[1], s[2]) + Sextets(s[3..])
  }

  /** Each value written as its character. */
  function Symbols(vs: seq<int>): (r: string)
    ensures |r| == |vs|
  {
    seq(|vs|, i requires 0 <= i < |vs| => Symbol(vs[i]))
  }

  /** `base64_encode(s)`. */
  function Encode(s: seq<byte>): string {
    Symbols(Sextets(s))
  }

  /** Four characters for every three bytes, and four for one or two bytes left over. */
  lemma {:induction false} EncodeLength(s: seq<byte>)
    ensures |Encode(s)| == 4 * ((|s| + 2) / 3)
    decreases |s|
  {
    if |s| > 2 {
      EncodeLength(s[3..]);
      assert Sextets(s) == Group(s[0], s[1], s[2]) + Sextets(s[3..]);
      assert (|s| + 2) / 3 == (|s[3..]| + 2) / 3 + 1;
    }
  }

  /** Every character of the encoding is an alphabet character or the pad character. */
  lemma EncodeChars(s: seq<byte>)
    ensures forall i :: 0 <= i < |Encode(s)| ==> 0 <= Value(Encode(s)[i]) <= Pad
  {
    var vs := Sextets(s);
    forall i | 0 <= i < |vs|
      ensures 0 <= Value(Encode(s)[i]) <= Pad
    {
      SymbolValue(vs[i]);
    }
  }

  /** A character of the encoding is `=` exactly where the value is `Pad`. */
  lemma PadAt(s: seq<byte>, i: int)
    requires 0 <= i < |Sextets(s)|
    ensures Encode(s)[i] == '=' <==> Sextets(s)[i] == Pad
  {
    SymbolValue(Sextets(s)[i]);
  }

  /** A whole number of groups has no pad value. */
  lemma {:induction false} NoPad(s: seq<byte>)
    requires |s| % 3 == 0
    ensures Pad !in Sextets(s)
    decreases |s|
  {
    if |s| > 0 {
      NoPad(s[3..]);
      assert Sextets(s) == Group(s[0], s[1], s[2]) + Sextets(s[3..]);
    }
  }

  /**
   * With one or two bytes left over, the values end in `Pad`, twice exactly
   * when one byte is left, and never three times.
   */
  lemma {:induction false} LastGroup(s: seq<byte>)
    requires |s| % 3 != 0
    ensures var r := Sextets(s);
      |r| >= 4 && r[|r| - 1] == Pad && (r[|r| - 2] == Pad <==> |s| % 3 == 1) && r[|r| - 3] != Pad
    decreases |s|
  {
    if |s| > 3 {
      LastGroup(s[3..]);
      var g, t := Group(s[0], s[1], s[2]), Sextets(s[3..]);
      assert Sextets(s) == g + t;
      assert (g + t)[|g + t| - 1] == t[|t| - 1] && (g + t)[|g + t| - 2] == t[|t| - 2];
      assert (g + t)[|g + t| - 3] == t[|t| - 3];
    }
  }

  /** Padding: none for whole groups, exactly `==` after one trailing byte, exactly `=` after two. */
  lemma Padding(s: seq<byte>)
    ensures var r := Encode(s);
      && (|s| % 3 == 0 ==> '=' !in r)
      && (|s| % 3 == 1 ==> |r| >= 4 && r[|r| - 3] != '=' && r[|r| - 2..] == "==")
      && (|s| % 3 == 2 ==> |r| >= 4 && r[|r| - 2] != '=' && r[|r| - 1] == '=')
  {
    var r, vs := Encode(s), Sextets(s);
    if |s| % 3 == 0 {
      NoPad(s);
      forall i | 0 <= i < |r|
        ensures r[i] != '='
      {
        PadAt(s, i);
      }
    } else {
      LastGroup(s);
      PadAt(s, |r| - 1);
      PadAt(s, |r| - 2);
      PadAt(s, |r| - 3);
      assert r[|r| - 2..] == [r[|r| - 2], r[|r| - 1]];
    }
  }

  /** Four 6-bit values as three bytes. */
  function DecodeGroup(a: int, b: int, c: int, d: int): Option<seq<byte>> {
    if 0 <= a < 64 && 0 <= b < 64 && 0 <= c < 64 && 0 <= d < 64 then
      Some([(a * 4 + b / 16) as byte, (b % 16 * 16 + c / 4) as byte, (c % 4 * 64 + d) as byte])
    else None
  }

  /** The last four values, which may end in one or two pad values. */
  function DecodeLast(a: int, b: int, c: int, d: int): Option<seq<byte>> {
    if 0 <= a < 64 && 0 <= b < 64 && c == Pad && d == Pad then
      Some([(a * 4 + b / 16) as byte])
    else if 0 <= a < 64 && 0 <= b < 64 && 0 <= c < 64 && d == Pad then
      Some([(a * 4 + b / 16) as byte, (b % 16 * 16 + c / 4) as byte])
    else DecodeGroup(a, b, c, d)
  }

  /** The bytes of a sequence of values; `None` unless it is whole groups with padding only at the end. */
  function DecodeSextets(vs: seq<int>): Option<seq<byte>>
    decreases |vs|
  {
    if |vs| == 0 then Some([])
    else if |vs| < 4 then None
    else if |vs| == 4 then DecodeLast(vs[0], vs[1], vs[2], vs[3])
    else match DecodeGroup(vs[0], vs[1], vs[2], vs[3])
      case None => None
      case Some(g) =>
        match DecodeSextets(vs[4..])
        case None => None
        case Some(t) => Some(g + t)
  }

  /** The value of each character. */
  function Values(s: string): (r: seq<int>)
    ensures |r| == |s|
  {
    seq(|s|, i requires 0 <= i < |s| => Value(s[i]))
  }

  /** The inverse of `Encode`; `None` for text that is not padded base 64. */
  function Decode(s: string): Option<seq<byte>> {
    DecodeSextets(Values(s))
  }

  /** Writing values as characters loses nothing. */
  lemma ValuesSymbols(vs: seq<int>)
    requires forall i :: 0 <= i < |vs| ==> 0 <= vs[i] <= Pad
    ensures Values(Symbols(vs)) == vs
  {
    forall i | 0 <= i < |vs|
      ensures Values(Symbols(vs))[i] == vs[i]
    {
      SymbolValue(vs[i]);
    }
  }

  /** A value written in two digits of base `m` reads back digit by digit. */
  lemma Digits(p: int, q: int, m: int)
    requires m > 0 && 0 <= q < m
    ensures (p * m + q) / m == p && (p * m + q) % m == q
  {
    var d, r := (p * m + q) / m, (p * m + q) % m;
    assert (p - d) * m == r - q;
    assert p - d >= 1 ==> (p - d) * m >= m;
    assert p - d <= -1 ==> (p - d) * m <= -m;
  }

  /** The bytes of one group read back from its values. */
  lemma GroupRoundTrip(a: byte, b: byte, c: byte)
    ensures var g := Group(a, b, c); DecodeGroup(g[0], g[1], g[2], g[3]) == Some([a, b, c])
  {
    var x, y, z := a as int, b as int, c as int;
    Digits(x % 4, y / 16, 16);
    Digits(y % 16, z / 64, 4);
    var g := Group(a, b, c);
    assert g[0] * 4 + g[1] / 16 == x;
    assert g[1] % 16 * 16 + g[2] / 4 == y;
    assert g[2] % 4 * 64 + g[3] == z;
  }

  /** One byte left over reads back from its padded values. */
  lemma OneRoundTrip(a: byte)
    ensures DecodeSextets(Sextets([a])) == Some([a])
  {
    var x := a as int;
    Digits(x % 4, 0, 16);
  }

  /** Two bytes left over read back from their padded values. */
  lemma TwoRoundTrip(a: byte, b: byte)
    ensures DecodeSextets(Sextets([a, b])) == Some([a, b])
  {
    var x, y := a as int, b as int;
    Digits(x % 4, y / 16, 16);
    Digits(y % 16, 0, 4);
  }

  /** Decoding the 6-bit values gives back the bytes. */
  lemma {:induction false} SextetsRoundTrip(s: seq<byte>)
    ensures DecodeSextets(Sextets(s)) == Some(s)
    decreases |s|
  {
    if |s| == 1 {
      OneRoundTrip(s[0]);
      assert s == [s[0]];
    } else if |s| == 2 {
      TwoRoundTrip(s[0], s[1]);
      assert s == [s[0], s[1]];
    } else if |s| == 3 {
      GroupRoundTrip(s[0], s[1], s[2]);
      assert Sextets(s) == Group(s[0], s[1], s[2]) + [];
      assert s == [s[0], s[1], s[2]];
    } else if |s| > 3 {
      GroupRoundTrip(s[0], s[1], s[2]);
      SextetsRoundTrip(s[3..]);
      LastGroupLength(s[3..]);
      DecodeCons(Group(s[0], s[1], s[2]), Sextets(s[3..]));
      assert s == [s[0], s[1], s[2]] + s[3..];
    }
  }

  /** A leading full group decodes on its own when more values follow it. */
  lemma DecodeCons(g: seq<int>, t: seq<int>)
    requires |g| == 4 && |t| >= 1
    requires DecodeGroup(g[0], g[1], g[2], g[3]).Some?
    requires DecodeSextets(t).Some?
    ensures DecodeSextets(g + t) == Some(DecodeGroup(g[0], g[1], g[2], g[3]).value + DecodeSextets(t).value)
  {
    var e := g + t;
    assert e[0] == g[0] && e[1] == g[1] && e[2] == g[2] && e[3] == g[3];
    assert e[4..] == t;
  }

  /** A non-empty input has at least one group of values. */
  lemma LastGroupLength(s: seq<byte>)
    requires |s| > 0
    ensures |Sextets(s)| >= 4
  {
  }

  /** Decoding what `base64_encode` produced gives back the bytes. */
  lemma RoundTrip(s: seq<byte>)
    ensures Decode(Encode(s)) == Some(s)
  {
    ValuesSymbols(Sextets(s));
    SextetsRoundTrip(s);
  }

  /** Distinct byte strings have distinct encodings. */
  lemma EncodeInjective(s: seq<byte>, t: seq<byte>)
    ensures Encode(s) == Encode(t) <==> s == t
  {
    RoundTrip(s);
    RoundTrip(t);
  }
}
