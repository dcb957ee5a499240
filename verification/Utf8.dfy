/** UTF-8 as `String::as_bytes` and `String::from_utf8_lossy` use it (RFC 3629). */
module Utf8 {
  import opened Common

  function EncodeChar(c: char): (b: seq<byte>)
    ensures 1 <= |b| <= 4
  {
    var n := c as int;
    if n < 0x80 then [n]
    else if n < 0x800 then [0xC0 + n / 64, 0x80 + n % 64]
    else if n < 0x10000 then [0xE0 + n / 4096, 0x80 + n / 64 % 64, 0x80 + n % 64]
    else [0xF0 + n / 262144, 0x80 + n / 4096 % 64, 0x80 + n / 64 % 64, 0x80 + n % 64]
  }

  function Encode(s: string): seq<byte> {
    if s == "" then [] else EncodeChar(s[0]) + Encode(s[1..])
  }

  /** What the front of some bytes is: a character of `size` bytes, or `size` bytes that are not one. */
  datatype Front = Char(c: char, size: nat) | Broken(size: nat)

  /** The payload of a byte whose marker bits amount to `mark`. */
  function Less(b: byte, mark: int): int {
    b as int - mark
  }

  predicate Tail(b: seq<byte>, i: nat) {
    i < |b| && 0x80 <= b[i] < 0xC0
  }

  /** Whether the second byte can follow the first of a character of three or four bytes. */
  predicate Second(b: seq<byte>)
    requires |b| > 0
  {
    && Tail(b, 1)
    && (b[0] == 0xE0 ==> b[1] >= 0xA0) && (b[0] == 0xED ==> b[1] < 0xA0)
    && (b[0] == 0xF0 ==> b[1] >= 0x90) && (b[0] == 0xF4 ==> b[1] < 0x90)
  }

  function DecodeFront(b: seq<byte>): (f: Front)
    requires b != []
    ensures 1 <= f.size <= |b|
  {
    if b[0] < 0x80 then Char(b[0] as char, 1)
    else if 0xC2 <= b[0] < 0xE0 then
      if Tail(b, 1) then Char((Less(b[0], 0xC0) * 64 + Less(b[1], 0x80)) as char, 2) else Broken(1)
    else if 0xE0 <= b[0] < 0xF0 then
      if !Second(b) then Broken(1)
      else if !Tail(b, 2) then Broken(2)
      else Char((Less(b[0], 0xE0) * 4096 + Less(b[1], 0x80) * 64 + Less(b[2], 0x80)) as char, 3)
    else if 0xF0 <= b[0] < 0xF5 then
      if !Second(b) then Broken(1)
      else if !Tail(b, 2) then Broken(2)
      else if !Tail(b, 3) then Broken(3)
      else
        var high := Less(b[0], 0xF0) * 262144 + Less(b[1], 0x80) * 4096;
        Char((high + Less(b[2], 0x80) * 64 + Less(b[3], 0x80)) as char, 4)
    else Broken(1)
  }

  /** Every broken stretch becomes one replacement character. */
  function DecodeLossy(b: seq<byte>): string {
    if b == [] then ""
    else
      var f := DecodeFront(b);
      [if f.Char? then f.c else '\U{FFFD}'] + DecodeLossy(b[f.size..])
  }

  lemma FrontOfChar(c: char, rest: seq<byte>)
    ensures DecodeFront(EncodeChar(c) + rest) == Char(c, |EncodeChar(c)|)
  {
    var n, b := c as int, EncodeChar(c) + rest;
    if n < 0x80 {
      assert b[0] == n;
    } else if n < 0x800 {
      assert b[0] == 0xC0 + n / 64 && b[1] == 0x80 + n % 64;
    } else if n < 0x10000 {
      FrontOfThree(c, b);
    } else {
      FrontOfFour(c, b);
    }
  }

  lemma FrontOfThree(c: char, b: seq<byte>)
    requires var n := c as int;
      0x800 <= n < 0x10000 && EncodeChar(c) <= b
    ensures DecodeFront(b) == Char(c, 3)
  {
    var n, e := c as int, EncodeChar(c);
    assert b[0] == e[0] && b[1] == e[1] && b[2] == e[2];
    assert n == n / 4096 * 4096 + n / 64 % 64 * 64 + n % 64;
  }

  lemma FrontOfFour(c: char, b: seq<byte>)
    requires c as int >= 0x10000 && EncodeChar(c) <= b
    ensures DecodeFront(b) == Char(c, 4)
  {
    var n, e := c as int, EncodeChar(c);
    assert b[0] == e[0] && b[1] == e[1] && b[2] == e[2] && b[3] == e[3];
    FourDigits(n);
    FrontOfDigits(c, n / 262144, n / 4096 % 64, n / 64 % 64, n % 64, b);
  }

  /** The bits of a character, six by six. */
  lemma FourDigits(n: int)
    requires 0x10000 <= n < 0x110000
    ensures n == n / 262144 * 262144 + n / 4096 % 64 * 4096 + n / 64 % 64 * 64 + n % 64
    ensures n / 262144 <= 4 && (n / 262144 == 0 ==> n / 4096 % 64 >= 16) && (n / 262144 == 4 ==> n / 4096 % 64 < 16)
  {
    var m := n / 64;
    var k := m / 64;
    assert k == n / 4096;
    assert k / 64 == n / 262144;
  }

  lemma FrontOfDigits(c: char, p: nat, q: nat, r: nat, t: nat, b: seq<byte>)
    requires c as int == p * 262144 + q * 4096 + r * 64 + t && p <= 4 && q < 64 && r < 64 && t < 64
    requires (p == 0 ==> q >= 16) && (p == 4 ==> q < 16)
    requires |b| >= 4 && b[0] == 0xF0 + p && b[1] == 0x80 + q && b[2] == 0x80 + r && b[3] == 0x80 + t
    ensures DecodeFront(b) == Char(c, 4)
  {
  }

  /** Section 3 of RFC 3629: how many bytes a character takes, their marker bits, and the number in the other bits. */
  lemma EncodedByRfc3629(c: char)
    ensures var n, b := c as int, EncodeChar(c);
      && (|b| == 1 <==> n <= 0x7F)
      && (|b| == 2 <==> 0x80 <= n <= 0x7FF)
      && (|b| == 3 <==> 0x800 <= n <= 0xFFFF)
      && (|b| == 4 <==> 0x10000 <= n)
      && (forall i | 1 <= i < |b| :: 0x80 <= b[i] < 0xC0)
      && (|b| == 1 ==> b[0] == n)
      && (|b| == 2 ==> 0xC0 <= b[0] < 0xE0 && n == Six(b[0] - 0xC0, b[1] - 0x80))
      && (|b| == 3 ==> 0xE0 <= b[0] < 0xF0 && n == Six(Six(b[0] - 0xE0, b[1] - 0x80), b[2] - 0x80))
      && (|b| == 4 ==> 0xF0 <= b[0] < 0xF8 && n == Six(Six(Six(b[0] - 0xF0, b[1] - 0x80), b[2] - 0x80), b[3] - 0x80))
  {
    var n := c as int;
    if n >= 0x10000 {
      FourDigits(n);
    } else if n >= 0x800 {
      assert n == n / 4096 * 4096 + n / 64 % 64 * 64 + n % 64;
    }
  }

  /** Six more bits. */
  function Six(high: int, low: int): int {
    high * 64 + low
  }

  // ---------------------------------------------------------------- bytes that are not text

  /** The decoder takes exactly the encoding of a character for that character: no overlong form, no surrogate. */
  lemma CharsAreEncodings(b: seq<byte>, c: char)
    requires b != []
    ensures DecodeFront(b).Char? && DecodeFront(b).c == c <==> EncodeChar(c) <= b
    ensures DecodeFront(b) == Char(c, DecodeFront(b).size) ==> DecodeFront(b).size == |EncodeChar(c)|
  {
    if EncodeChar(c) <= b {
      FrontOfChar(c, b[|EncodeChar(c)|..]);
      assert b == EncodeChar(c) + b[|EncodeChar(c)|..];
    }
    if DecodeFront(b).Char? {
      FrontIsEncoded(b);
    }
  }

  lemma FrontIsEncoded(b: seq<byte>)
    requires b != [] && DecodeFront(b).Char?
    ensures EncodeChar(DecodeFront(b).c) == b[..DecodeFront(b).size]
  {
    var f := DecodeFront(b);
    if b[0] >= 0xF0 {
      EncodeOfFour(f.c, b[0] - 0xF0, b[1] - 0x80, b[2] - 0x80, b[3] - 0x80);
      assert b[..4] == [b[0], b[1], b[2], b[3]];
    } else if b[0] >= 0xE0 {
      EncodeOfThree(f.c, b[0] - 0xE0, b[1] - 0x80, b[2] - 0x80);
      assert b[..3] == [b[0], b[1], b[2]];
    } else if b[0] >= 0x80 {
      assert b[..2] == [b[0], b[1]];
    }
  }

  lemma EncodeOfFour(c: char, p: nat, q: nat, r: nat, t: nat)
    requires c as int == p * 262144 + q * 4096 + r * 64 + t && c as int >= 0x10000
    requires p < 5 && q < 64 && r < 64 && t < 64
    ensures EncodeChar(c) == [0xF0 + p, 0x80 + q, 0x80 + r, 0x80 + t]
  {
    Digits(0, p, q);
    Digits(p, q, r);
    Digits(p * 64 + q, r, t);
  }

  lemma EncodeOfThree(c: char, p: nat, q: nat, r: nat)
    requires c as int == p * 4096 + q * 64 + r && 0x800 <= c as int < 0x10000
    requires p < 16 && q < 64 && r < 64
    ensures EncodeChar(c) == [0xE0 + p, 0x80 + q, 0x80 + r]
  {
    Digits(p, q, r);
  }

  lemma Digits(p: int, q: int, r: int)
    requires 0 <= p && 0 <= q < 64 && 0 <= r < 64
    ensures var n := p * 4096 + q * 64 + r;
      n / 4096 == p && n / 64 == p * 64 + q && n / 64 % 64 == q && n % 64 == r
  {
  }

  /** A byte that cannot begin a character is replaced on its own, by U+FFFD. */
  lemma StrayByteIsReplaced(x: byte, rest: seq<byte>)
    requires 0x80 <= x < 0xC2 || x >= 0xF5
    ensures DecodeLossy([x] + rest) == "\U{FFFD}" + DecodeLossy(rest)
  {
    assert ([x] + rest)[1..] == rest;
  }

  /** A character cut short, before a plain character or the end, is replaced as a whole. */
  lemma CutCharIsReplaced(c: char, n: nat, rest: seq<byte>)
    requires 1 <= n < |EncodeChar(c)| && (rest != [] ==> rest[0] < 0x80)
    ensures DecodeLossy(EncodeChar(c)[..n] + rest) == "\U{FFFD}" + DecodeLossy(rest)
  {
    var e := EncodeChar(c);
    var b := e[..n] + rest;
    FrontOfChar(c, []);
    assert e + [] == e;
    assert DecodeFront(b) == Broken(n);
    assert b[n..] == rest;
  }

  /** Text survives its encoding. */
  lemma {:induction false} LossyDecodesEncoded(s: string)
    ensures DecodeLossy(Encode(s)) == s
  {
    if s != "" {
      var e := EncodeChar(s[0]);
      FrontOfChar(s[0], Encode(s[1..]));
      assert (e + Encode(s[1..]))[|e|..] == Encode(s[1..]);
      LossyDecodesEncoded(s[1..]);
    }
  }
}
