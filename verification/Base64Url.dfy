/** Base64 with the URL-safe alphabet and no padding, section 5 of RFC 4648, as `URL_SAFE_NO_PAD` handles it. */
module Base64Url {
  import opened Common

  type Sextet = n: int | 0 <= n < 64

  function Symbol(n: Sextet): char {
    if n < 26 then (65 + n) as char
    else if n < 52 then (97 + (n - 26)) as char
    else if n < 62 then (48 + (n - 52)) as char
    else if n == 62 then '-' else '_'
  }

  function Value(c: char): Option<Sextet> {
    var n := c as int;
    if 'A' <= c <= 'Z' then Some(n - 65)
    else if 'a' <= c <= 'z' then Some(n - 97 + 26)
    else if '0' <= c <= '9' then Some(n - 48 + 52)
    else if c == '-' then Some(62)
    else if c == '_' then Some(63)
    else None
  }

  // The four sextets of three bytes, and the three bytes of four sextets.

  function Sextet0(a: byte): Sextet { a / 4 }

  function Sextet1(a: byte, b: byte): Sextet { a % 4 * 16 + b / 16 }

  function Sextet2(b: byte, c: byte): Sextet { b % 16 * 4 + c / 64 }

  function Sextet3(c: byte): Sextet { c % 64 }

  function Byte0(v0: Sextet, v1: Sextet): byte { v0 * 4 + v1 / 16 }

  function Byte1(v1: Sextet, v2: Sextet): byte { v1 % 16 * 16 + v2 / 4 }

  function Byte2(v2: Sextet, v3: Sextet): byte { v2 % 4 * 64 + v3 }

  /** Three bytes give four symbols; one or two bytes at the end give two or three. */
  function Encode(b: seq<byte>): string {
    if |b| == 0 then ""
    else if |b| == 1 then [Symbol(Sextet0(b[0])), Symbol(Sextet1(b[0], 0))]
    else if |b| == 2 then [Symbol(Sextet0(b[0])), Symbol(Sextet1(b[0], b[1])), Symbol(Sextet2(b[1], 0))]
    else
      [Symbol(Sextet0(b[0])), Symbol(Sextet1(b[0], b[1])), Symbol(Sextet2(b[1], b[2])), Symbol(Sextet3(b[2]))]
      + Encode(b[3..])
  }

  /** Fails on other symbols, padding included, on a single symbol left over, and on spare bits that are not zero. */
  function Decode(s: string): Option<seq<byte>> {
    if |s| == 0 then Some([])
    else if |s| == 1 then None
    else
      var v0, v1 := Value(s[0]), Value(s[1]);
      if v0.None? || v1.None? then None
      else if |s| == 2 then
        if v1.value % 16 != 0 then None else Some([Byte0(v0.value, v1.value)])
      else
        var v2 := Value(s[2]);
        if v2.None? then None
        else if |s| == 3 then
          if v2.value % 4 != 0 then None
          else Some([Byte0(v0.value, v1.value), Byte1(v1.value, v2.value)])
        else
          var v3, rest := Value(s[3]), Decode(s[4..]);
          if v3.None? || rest.None? then None
          else Some([Byte0(v0.value, v1.value), Byte1(v1.value, v2.value), Byte2(v2.value, v3.value)] + rest.value)
  }

  lemma Split4(q: int, r: int)
    requires 0 <= r < 4
    ensures (q * 4 + r) / 4 == q && (q * 4 + r) % 4 == r
  {
  }

  lemma Split16(q: int, r: int)
    requires 0 <= r < 16
    ensures (q * 16 + r) / 16 == q && (q * 16 + r) % 16 == r
  {
  }

  lemma Split64(q: int, r: int)
    requires 0 <= r < 64
    ensures (q * 64 + r) / 64 == q && (q * 64 + r) % 64 == r
  {
  }

  lemma SextetsOfBytes(a: byte, b: byte, c: byte)
    ensures Byte0(Sextet0(a), Sextet1(a, b)) == a
    ensures Byte1(Sextet1(a, b), Sextet2(b, c)) == b
    ensures Byte2(Sextet2(b, c), Sextet3(c)) == c
    ensures Sextet1(a, 0) % 16 == 0 && Sextet2(b, 0) % 4 == 0
  {
    Split16(a % 4, b / 16);
    Split16(a % 4, 0);
    Split4(b % 16, c / 64);
    Split4(b % 16, 0);
  }

  lemma BytesOfSextets(v0: Sextet, v1: Sextet, v2: Sextet, v3: Sextet)
    ensures Sextet0(Byte0(v0, v1)) == v0
    ensures Sextet1(Byte0(v0, v1), Byte1(v1, v2)) == v1
    ensures Sextet2(Byte1(v1, v2), Byte2(v2, v3)) == v2
    ensures Sextet3(Byte2(v2, v3)) == v3
    ensures v1 % 16 == 0 ==> Sextet1(Byte0(v0, v1), 0) == v1
    ensures v2 % 4 == 0 ==> Sextet2(Byte1(v1, v2), 0) == v2
  {
    Split4(v0, v1 / 16);
    Split16(v1 % 16, v2 / 4);
    Split64(v2 % 4, v3);
  }

  lemma SymbolRoundTrip(n: Sextet)
    ensures Value(Symbol(n)) == Some(n)
  {
  }

  lemma ValueRoundTrip(c: char)
    ensures Value(c).Some? ==> Symbol(Value(c).value) == c
  {
  }

  // ---------------------------------------------------------------- what RFC 4648 says

  /** Table 2 of RFC 4648. */
  const ALPHABET := "ABCDEFGHIJKLMNOPQRSTUVWXYZ" + "abcdefghijklmnopqrstuvwxyz" + "0123456789" + "-_"

  lemma SymbolOf(n: Sextet)
    ensures |ALPHABET| == 64 && Symbol(n) == ALPHABET[n]
  {
    var upper, lower, digits := "ABCDEFGHIJKLMNOPQRSTUVWXYZ", "abcdefghijklmnopqrstuvwxyz", "0123456789";
    if n < 26 {
      assert ALPHABET[n] == upper[n];
    } else if n < 52 {
      assert ALPHABET[n] == lower[n - 26];
    } else if n < 62 {
      assert ALPHABET[n] == digits[n - 52];
    }
  }

  /** A symbol stands for its place in the table, and nothing else is a symbol. */
  lemma AlphabetIsTable2(c: char, n: Sextet)
    ensures |ALPHABET| == 64
    ensures Value(c) == Some(n) <==> c == ALPHABET[n]
  {
    SymbolOf(n);
    SymbolRoundTrip(n);
    ValueRoundTrip(c);
  }

  /** Three bytes and the four values they are split into are the same number of 24 bits. */
  lemma GroupsAreNumbers(a: byte, b: byte, c: byte)
    ensures a as int * 65536 + b as int * 256 + c == Sextet0(a) as int * 262144 + Sextet1(a, b) as int * 4096
      + Sextet2(b, c) as int * 64 + Sextet3(c)
  {
  }

  /** The symbols of three bytes at the front, and of one or two bytes left at the end, zero bits being added. */
  lemma EncodesByTable(a: byte, b: byte, c: byte, rest: seq<byte>)
    ensures |ALPHABET| == 64
    ensures exists v0: Sextet, v1: Sextet, v2: Sextet, v3: Sextet ::
      && a as int * 65536 + b as int * 256 + c == v0 as int * 262144 + v1 as int * 4096 + v2 as int * 64 + v3
      && Encode([a, b, c] + rest) == [ALPHABET[v0], ALPHABET[v1], ALPHABET[v2], ALPHABET[v3]] + Encode(rest)
      && (c == 0 ==> Encode([a, b]) == [ALPHABET[v0], ALPHABET[v1], ALPHABET[v2]])
      && (b == 0 && c == 0 ==> Encode([a]) == [ALPHABET[v0], ALPHABET[v1]])
  {
    hide Encode, Sextet0, Sextet1, Sextet2, Sextet3, Symbol;
    GroupsAreNumbers(a, b, c);
    EncodesSextets(a, b, c, rest);
    SymbolOf(Sextet0(a));
    SymbolOf(Sextet1(a, b));
    SymbolOf(Sextet2(b, c));
    SymbolOf(Sextet3(c));
  }

  lemma EncodesSextets(a: byte, b: byte, c: byte, rest: seq<byte>)
    ensures Encode([a, b, c] + rest) ==
      [Symbol(Sextet0(a)), Symbol(Sextet1(a, b)), Symbol(Sextet2(b, c)), Symbol(Sextet3(c))] + Encode(rest)
    ensures c == 0 ==> Encode([a, b]) == [Symbol(Sextet0(a)), Symbol(Sextet1(a, b)), Symbol(Sextet2(b, c))]
    ensures b == 0 && c == 0 ==> Encode([a]) == [Symbol(Sextet0(a)), Symbol(Sextet1(a, b))]
  {
    hide Sextet0, Sextet1, Sextet2, Sextet3, Symbol;
    assert ([a, b, c] + rest)[3..] == rest;
  }

  /** Decoding undoes encoding. */
  lemma {:induction false} DecodeEncode(b: seq<byte>)
    ensures Decode(Encode(b)) == Some(b)
  {
    if |b| == 1 {
      DecodeOne(b[0]);
      assert [b[0]] == b;
    } else if |b| == 2 {
      DecodeTwo(b[0], b[1]);
      assert [b[0], b[1]] == b;
    } else if |b| >= 3 {
      DecodeGroup(b[0], b[1], b[2], Encode(b[3..]));
      DecodeEncode(b[3..]);
      assert [b[0], b[1], b[2]] + b[3..] == b;
    }
  }

  lemma DecodeOne(a: byte)
    ensures Decode([Symbol(Sextet0(a)), Symbol(Sextet1(a, 0))]) == Some([a])
  {
    SextetsOfBytes(a, 0, 0);
    DecodePair(Sextet0(a), Sextet1(a, 0));
  }

  lemma DecodePair(v0: Sextet, v1: Sextet)
    ensures Decode([Symbol(v0), Symbol(v1)]) == if v1 % 16 == 0 then Some([Byte0(v0, v1)]) else None
  {
    SymbolRoundTrip(v0);
    SymbolRoundTrip(v1);
  }

  lemma DecodeTwo(a: byte, b: byte)
    ensures Decode([Symbol(Sextet0(a)), Symbol(Sextet1(a, b)), Symbol(Sextet2(b, 0))]) == Some([a, b])
  {
    SextetsOfBytes(a, b, 0);
    SymbolRoundTrip(Sextet0(a));
    SymbolRoundTrip(Sextet1(a, b));
    SymbolRoundTrip(Sextet2(b, 0));
  }

  lemma DecodeGroup(a: byte, b: byte, c: byte, rest: string)
    ensures var d := Decode(rest);
      Decode([Symbol(Sextet0(a)), Symbol(Sextet1(a, b)), Symbol(Sextet2(b, c)), Symbol(Sextet3(c))] + rest) ==
      if d.None? then None else Some([a, b, c] + d.value)
  {
    SextetsOfBytes(a, b, c);
    SymbolRoundTrip(Sextet0(a));
    SymbolRoundTrip(Sextet1(a, b));
    SymbolRoundTrip(Sextet2(b, c));
    SymbolRoundTrip(Sextet3(c));
    var s := [Symbol(Sextet0(a)), Symbol(Sextet1(a, b)), Symbol(Sextet2(b, c)), Symbol(Sextet3(c))] + rest;
    assert s[4..] == rest;
  }

  /** Every text that decodes is the encoding of what it decodes to. */
  lemma {:induction false} EncodeDecode(s: string)
    requires Decode(s).Some?
    ensures Encode(Decode(s).value) == s
    decreases |s|
  {
    if |s| == 2 {
      EncodePair(s);
    } else if |s| == 3 {
      EncodeTriple(s);
    } else if |s| >= 4 {
      EncodeDecode(s[4..]);
      EncodeGroup(s);
    }
  }

  lemma EncodePair(s: string)
    requires |s| == 2 && Decode(s).Some?
    ensures Encode(Decode(s).value) == s
  {
    ValueRoundTrip(s[0]);
    ValueRoundTrip(s[1]);
    EncodeOne(Value(s[0]).value, Value(s[1]).value);
    DecodePair(Value(s[0]).value, Value(s[1]).value);
    assert s == [s[0], s[1]];
  }

  lemma EncodeOne(v0: Sextet, v1: Sextet)
    requires v1 % 16 == 0
    ensures Encode([Byte0(v0, v1)]) == [Symbol(v0), Symbol(v1)]
  {
    BytesOfSextets(v0, v1, 0, 0);
  }

  lemma EncodeTriple(s: string)
    requires |s| == 3 && Decode(s).Some?
    ensures Encode(Decode(s).value) == s
  {
    var v0, v1, v2 := Value(s[0]).value, Value(s[1]).value, Value(s[2]).value;
    BytesOfSextets(v0, v1, v2, 0);
    ValueRoundTrip(s[0]);
    ValueRoundTrip(s[1]);
    ValueRoundTrip(s[2]);
  }

  lemma EncodeGroup(s: string)
    requires |s| >= 4 && Decode(s).Some? && Encode(Decode(s[4..]).value) == s[4..]
    ensures Encode(Decode(s).value) == s
  {
    var v0, v1, v2, v3 := Value(s[0]).value, Value(s[1]).value, Value(s[2]).value, Value(s[3]).value;
    var b := Decode(s).value;
    BytesOfSextets(v0, v1, v2, v3);
    ValueRoundTrip(s[0]);
    ValueRoundTrip(s[1]);
    ValueRoundTrip(s[2]);
    ValueRoundTrip(s[3]);
    assert b[3..] == Decode(s[4..]).value;
    assert s == [s[0], s[1], s[2], s[3]] + s[4..];
  }

  /** The texts that decode are exactly the encodings, each to its own bytes. */
  lemma DecodesExactlyEncodings(s: string, b: seq<byte>)
    ensures Decode(s) == Some(b) <==> s == Encode(b)
  {
    DecodeEncode(b);
    if Decode(s).Some? {
      EncodeDecode(s);
    }
  }
}
