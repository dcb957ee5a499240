/**
 The text handling the files on disk rely on: `str::lines`, `str::trim`, `char::is_whitespace` and the `hex` crate.
 */
module Text {
  import opened Common

  // ---------------------------------------------------------------- white space

  /** The Unicode White_Space property, which `char::is_whitespace` tests. */
  predicate IsSpace(c: char) {
    var n := c as int;
    9 <= n <= 13 || n == 0x20 || n == 0x85 || n == 0xA0 || n == 0x1680 || 0x2000 <= n <= 0x200A
    || n == 0x2028 || n == 0x2029 || n == 0x202F || n == 0x205F || n == 0x3000
  }

  /** The 25 characters of that property. */
  const SPACES := "\t\n\U{b}\U{c}\r \U{85}\U{a0}\U{1680}\U{2000}\U{2001}\U{2002}\U{2003}\U{2004}\U{2005}\U{2006}"
    + "\U{2007}\U{2008}\U{2009}\U{200a}\U{2028}\U{2029}\U{202f}\U{205f}\U{3000}"

  lemma SpacesAreSpaces(i: nat)
    requires i < |SPACES|
    ensures IsSpace(SPACES[i])
  {
    if i < 9 {
    } else if i < 17 {
    } else {
    }
  }

  /** White space is these characters and no others. */
  lemma SpacesAreListed(c: char)
    ensures IsSpace(c) <==> c in SPACES
  {
    if IsSpace(c) {
      var n := c as int;
      assert SPACES[if n <= 13 then n - 9 else if n == 0x20 then 5 else if n == 0x85 then 6 else if n == 0xA0 then 7
        else if n == 0x1680 then 8 else if n <= 0x200A then n - 0x2000 + 9 else if n == 0x2028 then 20
        else if n == 0x2029 then 21 else if n == 0x202F then 22 else if n == 0x205F then 23 else 24] == c;
    } else if c in SPACES {
      var i :| 0 <= i < |SPACES| && SPACES[i] == c;
      SpacesAreSpaces(i);
    }
  }

  predicate Blank(s: string) {
    forall i | 0 <= i < |s| :: IsSpace(s[i])
  }

  function TrimStart(s: string): string {
    if s != "" && IsSpace(s[0]) then TrimStart(s[1..]) else s
  }

  function TrimEnd(s: string): string {
    if s != "" && IsSpace(s[|s| - 1]) then TrimEnd(s[..|s| - 1]) else s
  }

  function Trim(s: string): string {
    TrimEnd(TrimStart(s))
  }

  lemma {:induction false} TrimStartAppend(a: string, b: string)
    ensures TrimStart(a + b) == if Blank(a) then TrimStart(b) else TrimStart(a) + b
    ensures Blank(a) ==> TrimStart(a) == ""
    decreases |a|
  {
    if a == "" {
      assert a + b == b;
    } else if IsSpace(a[0]) {
      TrimStartAppend(a[1..], b);
      assert (a + b)[1..] == a[1..] + b;
      assert Blank(a) <==> Blank(a[1..]);
    }
  }

  lemma {:induction false} TrimEndAppend(a: string, b: string)
    ensures TrimEnd(a + b) == if Blank(b) then TrimEnd(a) else a + TrimEnd(b)
    ensures Blank(b) ==> TrimEnd(b) == ""
    decreases |b|
  {
    if b == "" {
      assert a + b == a;
    } else if IsSpace(b[|b| - 1]) {
      TrimEndAppend(a, b[..|b| - 1]);
      assert (a + b)[..|a + b| - 1] == a + b[..|b| - 1];
      BlankInit(b);
    }
  }

  lemma BlankInit(b: string)
    requires b != "" && IsSpace(b[|b| - 1])
    ensures Blank(b) <==> Blank(b[..|b| - 1])
  {
  }

  /** A suffix that does not start with white space is left; what went before it was white space. */
  lemma {:induction false} TrimStartSplits(s: string) returns (k: nat)
    ensures k <= |s| && TrimStart(s) == s[k..] && Blank(s[..k])
    ensures TrimStart(s) != "" ==> !IsSpace(TrimStart(s)[0])
    decreases |s|
  {
    if s != "" && IsSpace(s[0]) {
      var k' := TrimStartSplits(s[1..]);
      k := k' + 1;
      assert s[1..][k'..] == s[k..];
      assert s[..k] == [s[0]] + s[1..][..k'];
    } else {
      k := 0;
    }
  }

  lemma {:induction false} TrimEndSplits(s: string) returns (k: nat)
    ensures k <= |s| && TrimEnd(s) == s[..k] && Blank(s[k..])
    ensures TrimEnd(s) != "" ==> !IsSpace(TrimEnd(s)[|TrimEnd(s)| - 1])
    decreases |s|
  {
    if s != "" && IsSpace(s[|s| - 1]) {
      k := TrimEndSplits(s[..|s| - 1]);
      assert s[..|s| - 1][..k] == s[..k];
      assert s[k..] == s[..|s| - 1][k..] + [s[|s| - 1]];
    } else {
      k := |s|;
    }
  }

  /** A text is blank exactly if trimming leaves nothing. */
  lemma TrimBlank(s: string)
    ensures Blank(s) <==> Trim(s) == ""
    ensures Blank(s) <==> TrimEnd(s) == ""
    ensures Blank(s) <==> TrimStart(s) == ""
  {
    var k := TrimStartSplits(s);
    var j := TrimEndSplits(s);
    var i := TrimEndSplits(TrimStart(s));
    TrimStartAppend(s, "");
    TrimEndAppend("", s);
    assert "" + s == s && s + "" == s;
    if Blank(s) {
      assert Trim(s) == "";
    } else {
      assert TrimStart(s) != "" && TrimEnd(s) != "";
      assert TrimStart(s)[0] == s[k] && !IsSpace(s[k]);
    }
  }

  /** Trimming is stable, and its result is a contiguous part of the text. */
  lemma TrimShape(s: string) returns (i: nat, j: nat)
    ensures i <= j <= |s| && Trim(s) == s[i..j] && Blank(s[..i]) && Blank(s[j..])
    ensures Trim(s) != "" ==> !IsSpace(Trim(s)[0]) && !IsSpace(Trim(s)[|Trim(s)| - 1])
  {
    hide TrimStart, TrimEnd, IsSpace;
    i := TrimStartSplits(s);
    var k := TrimEndSplits(TrimStart(s));
    j := i + k;
    TrimStartPlain(s[i..], k);
    assert s[i..][..k] == s[i..j];
    assert s[i..][k..] == s[j..];
  }

  /** A text that does not start with white space, cut somewhere, still does not. */
  lemma TrimStartPlain(s: string, k: nat)
    requires k <= |s| && (s != "" ==> !IsSpace(s[0]))
    ensures s[..k] != "" ==> !IsSpace(s[..k][0])
  {
  }

  lemma TrimIdempotent(s: string)
    ensures Trim(Trim(s)) == Trim(s)
    ensures Trim(TrimEnd(s)) == Trim(s)
  {
    var i, j := TrimShape(s);
    var k := TrimEndSplits(s);
    assert s == s[..k] + s[k..];
    TrimBlankTail(s[..k], s[k..]);
  }

  lemma TrimBlankTail(a: string, b: string)
    requires Blank(b)
    ensures Trim(a + b) == Trim(a)
  {
    TrimStartAppend(a, b);
    if Blank(a) {
      TrimBlank(a);
      TrimBlank(b);
    } else {
      TrimEndAppend(TrimStart(a), b);
    }
  }

  lemma TrimBlankHead(a: string, b: string)
    requires Blank(a)
    ensures Trim(a + b) == Trim(b)
  {
    TrimStartAppend(a, b);
  }

  // ---------------------------------------------------------------- lines

  function First(g: seq<string>): string
    requires g != []
  {
    g[0]
  }

  function Last(g: seq<string>): string
    requires g != []
  {
    g[|g| - 1]
  }

  /** The pieces between newlines; there is always a last one, after the final newline. */
  function Segments(s: string): (g: seq<string>)
    ensures g != []
  {
    if s == "" then [""]
    else
      var g, c := Segments(s[..|s| - 1]), s[|s| - 1];
      if c == '\n' then g + [""] else g[..|g| - 1] + [Last(g) + [c]]
  }

  /** The last segment of one list and the first of the next become one. */
  function Meet(g: seq<string>, h: seq<string>): (f: seq<string>)
    requires g != [] && h != []
    ensures f != []
  {
    g[..|g| - 1] + [Last(g) + First(h)] + h[1..]
  }

  /** Two texts put together meet in the middle of one segment. */
  lemma {:induction false} SegmentsAppend(a: string, b: string)
    ensures Segments(a + b) == Meet(Segments(a), Segments(b))
    decreases |b|
  {
    if b == "" {
      assert a + b == a;
      MeetEmpty(Segments(a));
    } else {
      var b', c := b[..|b| - 1], b[|b| - 1];
      SegmentsAppend(a, b');
      assert (a + b)[..|a + b| - 1] == a + b' && (a + b)[|a + b| - 1] == c;
      if c == '\n' {
        MeetNewline(Segments(a), Segments(b'));
      } else {
        MeetChar(Segments(a), Segments(b'), c);
      }
    }
  }

  lemma MeetEmpty(g: seq<string>)
    requires g != []
    ensures Meet(g, [""]) == g
  {
    assert Last(g) + "" == Last(g);
  }

  lemma MeetNewline(g: seq<string>, h: seq<string>)
    requires g != [] && h != []
    ensures Meet(g, h + [""]) == Meet(g, h) + [""]
  {
  }

  lemma MeetChar(g: seq<string>, h: seq<string>, c: char)
    requires g != [] && h != []
    ensures var f := Meet(g, h);
      f[..|f| - 1] + [Last(f) + [c]] == Meet(g, h[..|h| - 1] + [Last(h) + [c]])
  {
    if |h| == 1 {
      assert Last(g) + h[0] + [c] == Last(g) + (h[0] + [c]);
    }
  }

  lemma {:induction false} SegmentsOfOneLine(s: string)
    requires '\n' !in s
    ensures Segments(s) == [s]
    decreases |s|
  {
    if s != "" {
      SegmentsOfOneLine(s[..|s| - 1]);
      assert s[..|s| - 1] + [s[|s| - 1]] == s;
    }
  }

  lemma {:induction false} SegmentsHaveNoNewline(s: string)
    ensures forall k | 0 <= k < |Segments(s)| :: '\n' !in Segments(s)[k]
    decreases |s|
  {
    if s != "" {
      SegmentsHaveNoNewline(s[..|s| - 1]);
    }
  }

  /** The unfinished last line of a text. */
  function Unfinished(s: string): string {
    Last(Segments(s))
  }

  predicate NewlineEnded(s: string) {
    s == "" || s[|s| - 1] == '\n'
  }

  lemma EndedHasNothingUnfinished(s: string)
    ensures NewlineEnded(s) <==> Unfinished(s) == ""
  {
  }

  lemma SegmentsAfter(h: string, s: string)
    requires '\n' !in h
    ensures Segments(h + s) == [h + First(Segments(s))] + Segments(s)[1..]
  {
    SegmentsOfOneLine(h);
    SegmentsAppend(h, s);
  }

  lemma SegmentsOfFinished(s: string)
    ensures Segments(s + "\n") == Segments(s) + [""]
  {
    assert (s + "\n")[..|s|] == s;
  }

  /** After a newline, the segments of the next text follow as they are. */
  lemma SegmentsAfterNewline(s: string, t: string)
    requires NewlineEnded(s)
    ensures Segments(s + t) == Segments(s)[..|Segments(s)| - 1] + Segments(t)
  {
    hide Segments;
    var g, h := Segments(s), Segments(t);
    EndedHasNothingUnfinished(s);
    SegmentsAppend(s, t);
    assert "" + First(h) == First(h);
    assert [First(h)] + h[1..] == h;
    assert g[..|g| - 1] + [First(h)] + h[1..] == g[..|g| - 1] + ([First(h)] + h[1..]);
  }

  lemma SegmentsOfOneFinished(l: string)
    requires '\n' !in l
    ensures Segments(l + "\n") == [l, ""]
  {
    SegmentsOfOneLine(l);
    SegmentsOfFinished(l);
  }

  function StripCR(line: string): string {
    if line != "" && line[|line| - 1] == '\r' then line[..|line| - 1] else line
  }

  /** `str::lines`: a line ends in "\n" or "\r\n"; a last line without an ending counts unless it is empty. */
  function Lines(s: string): seq<string> {
    var g := Segments(s);
    var n := |g| - 1;
    seq(n, i requires 0 <= i < n => StripCR(g[i])) + (if g[n] == "" then [] else [g[n]])
  }

  /** A line that is finished comes first, without its ending and with all else it has, then the lines of the rest. */
  lemma LinesOneByOne(l: string, s: string)
    requires '\n' !in l
    ensures Lines(l + "\r\n" + s) == [l] + Lines(s)
    ensures l == "" || l[|l| - 1] != '\r' ==> Lines(l + "\n" + s) == [l] + Lines(s)
    ensures Lines(l) == if l == "" then [] else [l]
  {
    hide Segments;
    FinishedLine(l, s);
    FinishedLine(l + "\r", s);
    assert l + "\r" + "\n" + s == l + "\r\n" + s;
    SegmentsOfOneLine(l);
  }

  lemma FinishedLine(l: string, s: string)
    requires '\n' !in l
    ensures Lines(l + "\n" + s) == [StripCR(l)] + Lines(s)
  {
    hide Segments, StripCR;
    SegmentsOfOneFinished(l);
    SegmentsAfterNewline(l + "\n", s);
    assert Segments(l + "\n" + s) == [l] + Segments(s);
    LinesOfMore(l, Segments(s), l + "\n" + s, s);
  }

  lemma LinesOfMore(l: string, g: seq<string>, s: string, s': string)
    requires g != [] && Segments(s) == [l] + g && Segments(s') == g
    ensures Lines(s) == [StripCR(l)] + Lines(s')
  {
    hide Segments, StripCR;
  }

  lemma TrimStripCR(line: string)
    ensures Trim(StripCR(line)) == Trim(line)
  {
    if line != "" && line[|line| - 1] == '\r' {
      TrimBlankTail(line[..|line| - 1], ['\r']);
      assert line[..|line| - 1] + ['\r'] == line;
    }
  }

  /** Up to trimming, the lines are the segments, without the last one if it is empty. */
  lemma LinesAreSegments(s: string)
    ensures var g, l := Segments(s), Lines(s);
      && |l| == (if Last(g) == "" then |g| - 1 else |g|)
      && forall i | 0 <= i < |l| :: Trim(l[i]) == Trim(g[i])
  {
    var g, l := Segments(s), Lines(s);
    forall i | 0 <= i < |l| ensures Trim(l[i]) == Trim(g[i]) {
      TrimStripCR(g[i]);
    }
  }

  // ---------------------------------------------------------------- hexadecimal

  function Digit(n: nat): char
    requires n < 16
  {
    "0123456789abcdef"[n]
  }

  function DigitValue(c: char): Option<nat> {
    if '0' <= c <= '9' then Some(c as int - '0' as int)
    else if 'a' <= c <= 'f' then Some(c as int - 'a' as int + 10)
    else if 'A' <= c <= 'F' then Some(c as int - 'A' as int + 10)
    else None
  }

  function Hex(b: seq<byte>): string {
    if b == [] then "" else [Digit(b[0] / 16), Digit(b[0] % 16)] + Hex(b[1..])
  }

  /** `hex::decode`: an even number of digits of either case. */
  function Unhex(s: string): Option<seq<byte>> {
    if s == "" then Some([])
    else if |s| == 1 then None
    else
      var hi, lo, rest := DigitValue(s[0]), DigitValue(s[1]), Unhex(s[2..]);
      if hi.Some? && lo.Some? && rest.Some? && hi.value < 16 && lo.value < 16
      then Some([hi.value * 16 + lo.value] + rest.value) else None
  }

  lemma DigitRoundTrip(n: nat)
    requires n < 16
    ensures DigitValue(Digit(n)) == Some(n)
    ensures !IsSpace(Digit(n)) && Digit(n) != '#'
  {
  }

  lemma {:induction false} HexRoundTrip(b: seq<byte>)
    ensures Unhex(Hex(b)) == Some(b)
    ensures |Hex(b)| == 2 * |b|
  {
    if b != [] {
      DigitRoundTrip(b[0] / 16);
      DigitRoundTrip(b[0] % 16);
      HexRoundTrip(b[1..]);
      var s := Hex(b);
      assert s[0] == Digit(b[0] / 16) && s[1] == Digit(b[0] % 16) && s[2..] == Hex(b[1..]);
      assert [b[0]] + b[1..] == b;
    }
  }

  /** Printed digits are neither white space nor the start of a comment. */
  lemma {:induction false} HexIsPlain(b: seq<byte>)
    ensures forall i | 0 <= i < |Hex(b)| :: !IsSpace(Hex(b)[i]) && Hex(b)[i] != '#'
  {
    if b != [] {
      DigitRoundTrip(b[0] / 16);
      DigitRoundTrip(b[0] % 16);
      HexIsPlain(b[1..]);
    }
  }

  function Lower(c: char): char {
    if 'A' <= c <= 'Z' then c - 'A' + 'a' else c
  }

  function LowerCase(s: string): string {
    seq(|s|, i requires 0 <= i < |s| => Lower(s[i]))
  }

  /** The digits of a byte stand in its place, the higher one first. */
  lemma {:induction false} HexAt(b: seq<byte>, i: nat)
    requires i < |b|
    ensures |Hex(b)| == 2 * |b|
    ensures Hex(b)[2 * i] == Digit(b[i] / 16) && Hex(b)[2 * i + 1] == Digit(b[i] % 16)
    decreases |b|
  {
    hide Digit, Hex;
    HexRoundTrip(b);
    HexSplits(b);
    if i > 0 {
      HexAt(b[1..], i - 1);
      TwoOn(Hex(b), i);
    }
  }

  lemma TwoOn(h: string, i: nat)
    requires i > 0 && 2 * i + 1 < |h|
    ensures h[2..][2 * (i - 1)] == h[2 * i] && h[2..][2 * (i - 1) + 1] == h[2 * i + 1]
  {
  }

  lemma HexSplits(b: seq<byte>)
    requires b != []
    ensures var h := Hex(b);
      |h| >= 2 && h[0] == Digit(b[0] / 16) && h[1] == Digit(b[0] % 16) && h[2..] == Hex(b[1..])
  {
    hide Digit;
  }

  lemma DigitIs(n: nat)
    requires n < 16
    ensures Digit(n) == "0123456789abcdef"[n]
  {
  }

  /** A text is read as bytes exactly if, in lower case, it is their hexadecimal. */
  lemma {:induction false} UnhexReadsEitherCase(s: string, b: seq<byte>)
    ensures Unhex(s) == Some(b) <==> LowerCase(s) == Hex(b)
    decreases |s|
  {
    hide DigitValue, Lower, Digit;
    if |s| >= 2 && b != [] {
      UnhexReadsEitherCase(s[2..], b[1..]);
      FirstTwoDigits(s, b);
      FirstByte(s, b);
    } else if |s| == 1 {
      HexRoundTrip(b);
    }
  }

  lemma DigitReads(c: char, n: nat)
    requires n < 16
    ensures DigitValue(c) == Some(n) <==> Lower(c) == Digit(n)
  {
  }

  lemma FirstTwoDigits(s: string, b: seq<byte>)
    requires |s| >= 2 && b != []
    ensures LowerCase(s) == Hex(b) <==>
      Lower(s[0]) == Digit(b[0] / 16) && Lower(s[1]) == Digit(b[0] % 16) && LowerCase(s[2..]) == Hex(b[1..])
  {
    hide Lower, Digit;
    assert LowerCase(s) == [Lower(s[0]), Lower(s[1])] + LowerCase(s[2..]);
    TwoThenRest(Lower(s[0]), Lower(s[1]), LowerCase(s[2..]), Digit(b[0] / 16), Digit(b[0] % 16), Hex(b[1..]));
  }

  lemma TwoThenRest(a: char, b: char, s: string, a': char, b': char, s': string)
    ensures [a, b] + s == [a', b'] + s' <==> a == a' && b == b' && s == s'
  {
    if [a, b] + s == [a', b'] + s' {
      assert ([a, b] + s)[0] == a && ([a, b] + s)[1] == b && ([a, b] + s)[2..] == s;
      assert ([a', b'] + s')[0] == a' && ([a', b'] + s')[1] == b' && ([a', b'] + s')[2..] == s';
    }
  }

  lemma FirstByte(s: string, b: seq<byte>)
    requires |s| >= 2 && b != []
    ensures Unhex(s) == Some(b) <==>
      Lower(s[0]) == Digit(b[0] / 16) && Lower(s[1]) == Digit(b[0] % 16) && Unhex(s[2..]) == Some(b[1..])
  {
    hide DigitValue, Lower, Digit;
    DigitReads(s[0], b[0] / 16);
    DigitReads(s[1], b[0] % 16);
    assert b == [b[0]] + b[1..] && b[0] == b[0] / 16 * 16 + b[0] % 16;
    var hi, lo, rest := DigitValue(s[0]), DigitValue(s[1]), Unhex(s[2..]);
    if Unhex(s) == Some(b) {
      Nibbles(hi.value, lo.value);
      assert b == [hi.value * 16 + lo.value] + rest.value;
      assert b[1..] == rest.value;
    }
  }

  lemma Nibbles(q: nat, r: nat)
    requires r < 16
    ensures (q * 16 + r) / 16 == q && (q * 16 + r) % 16 == r
  {
  }

  lemma {:induction false} UnhexLength(s: string)
    ensures Unhex(s).Some? ==> |s| == 2 * |Unhex(s).value|
    decreases |s|
  {
    if |s| >= 2 {
      UnhexLength(s[2..]);
    }
  }

  /** A 32-byte key or seed. */
  type Key = k: seq<byte> | |k| == 32 witness seq(32, _ => 0)

  /** Exactly 32 bytes in hexadecimal, as both files require. */
  function Unhex32(s: string): Option<Key> {
    var v := Unhex(s);
    if v.Some? && |v.value| == 32 then Some(v.value) else None
  }

  /** A key is 64 digits, of either case. */
  lemma DigitsOfKey(h: string, k: Key)
    requires LowerCase(h) == Hex(k)
    ensures |h| == 64
    ensures forall i | 0 <= i < |h| :: h[i] in "0123456789abcdefABCDEF" && !IsSpace(h[i]) && h[i] != '#'
  {
    hide Hex, IsSpace, Lower;
    HexRoundTrip(k);
    forall i | 0 <= i < |h| ensures h[i] in "0123456789abcdefABCDEF" && !IsSpace(h[i]) && h[i] != '#' {
      assert LowerCase(h)[i] == Hex(k)[i];
      HexAt(k, i / 2);
      DigitIs(k[i / 2] / 16);
      DigitIs(k[i / 2] % 16);
      assert i == 2 * (i / 2) || i == 2 * (i / 2) + 1;
      if i % 2 == 0 {
        LowerDigit(h[i], k[i / 2] / 16);
      } else {
        LowerDigit(h[i], k[i / 2] % 16);
      }
    }
  }

  lemma LowerDigit(c: char, n: nat)
    requires n < 16 && Lower(c) == "0123456789abcdef"[n]
    ensures c in "0123456789abcdefABCDEF" && !IsSpace(c) && c != '#'
  {
    var s := "0123456789abcdefABCDEF";
    assert c == s[n] || (n >= 10 && c == s[n + 6]);
  }
}
