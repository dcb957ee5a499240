/** The identity file of src/idfile.rs. */
module IdFile {
  import opened Common
  import opened Text

  /** What `parse_identity` has gathered from the lines so far. */
  datatype Seeds = Seeds(x: Option<Key>, ed: Option<Key>, bare: seq<Key>)

  const X_KEY := "x_seed="
  const ED_KEY := "ed_seed="

  /** A blank line or a comment. */
  predicate Ignored(line: string) {
    var l := Trim(line);
    l == "" || l[0] == '#'
  }

  predicate IsX(line: string) {
    X_KEY <= Trim(line)
  }

  predicate IsEd(line: string) {
    ED_KEY <= Trim(line)
  }

  function XValue(line: string): Option<Key>
    requires IsX(line)
  {
    Unhex32(Trim(Trim(line)[|X_KEY|..]))
  }

  function EdValue(line: string): Option<Key>
    requires IsEd(line)
  {
    Unhex32(Trim(Trim(line)[|ED_KEY|..]))
  }

  function BareValue(line: string): Option<Key> {
    if Ignored(line) || IsX(line) || IsEd(line) then None else Unhex32(Trim(line))
  }

  /** One line read: a keyed line replaces its seed even if it does not decode. */
  function Read(s: Seeds, line: string): Seeds {
    if Ignored(line) then s
    else if IsX(line) then s.(x := XValue(line))
    else if IsEd(line) then s.(ed := EdValue(line))
    else if BareValue(line).Some? then s.(bare := s.bare + [BareValue(line).value])
    else s
  }

  function ReadAll(lines: seq<string>): Seeds {
    if lines == [] then Seeds(None, None, []) else Read(ReadAll(lines[..|lines| - 1]), lines[|lines| - 1])
  }

  /** Two keyed seeds, or else the first two bare ones. */
  function Choose(s: Seeds): Option<(Key, Key)> {
    if s.x.Some? && s.ed.Some? then Some((s.x.value, s.ed.value))
    else if |s.bare| >= 2 then Some((s.bare[0], s.bare[1]))
    else None
  }

  function Parse(raw: string): Option<(Key, Key)> {
    Choose(ReadAll(Lines(raw)))
  }

  /** `parse_identity`. */
  method ParseIdentity(raw: string) returns (r: Option<(Key, Key)>)
    ensures r == Parse(raw)
  {
    hide Trim, Unhex, Lines;
    var lines := Lines(raw);
    var x: Option<Key> := None;
    var ed: Option<Key> := None;
    var bare: seq<Key> := [];
    for i := 0 to |lines|
      invariant Seeds(x, ed, bare) == ReadAll(lines[..i])
    {
      assert lines[..i + 1][..i] == lines[..i];
      var line := Trim(lines[i]);
      if line == "" || line[0] == '#' {
        continue;
      }
      if X_KEY <= line {
        x := Unhex32(Trim(line[|X_KEY|..]));
      } else if ED_KEY <= line {
        ed := Unhex32(Trim(line[|ED_KEY|..]));
      } else {
        var s := Unhex32(line);
        if s.Some? {
          bare := bare + [s.value];
        }
      }
    }
    assert lines[..|lines|] == lines;
    if x.Some? && ed.Some? {
      return Some((x.value, ed.value));
    }
    if |bare| >= 2 {
      return Some((bare[0], bare[1]));
    }
    return None;
  }

  const HEADING := "# usbws machine identity (keep secret)"

  /** The body `write_identity` writes. */
  function Body(xSeed: Key, edSeed: Key): string {
    HEADING + "\n" + X_KEY + Hex(xSeed) + "\n" + ED_KEY + Hex(edSeed) + "\n"
  }

  // ---------------------------------------------------------------- lines and text

  lemma {:induction false} ReadAllAppend(a: seq<string>, b: seq<string>, c: seq<string>)
    requires ReadAll(a) == ReadAll(b)
    ensures ReadAll(a + c) == ReadAll(b + c)
    decreases |c|
  {
    if c == [] {
      assert a + c == a && b + c == b;
    } else {
      ReadAllAppend(a, b, c[..|c| - 1]);
      assert (a + c)[..|a + c| - 1] == a + c[..|c| - 1];
      assert (b + c)[..|b + c| - 1] == b + c[..|c| - 1];
    }
  }

  lemma {:induction false} ReadAllSame(a: seq<string>, b: seq<string>)
    requires |a| == |b| && forall i | 0 <= i < |a| :: Trim(a[i]) == Trim(b[i])
    ensures ReadAll(a) == ReadAll(b)
    decreases |a|
  {
    if a != [] {
      ReadAllSame(a[..|a| - 1], b[..|b| - 1]);
    }
  }

  lemma ReadAllIgnores(a: seq<string>, l: string)
    requires Ignored(l)
    ensures ReadAll(a + [l]) == ReadAll(a)
  {
    assert (a + [l])[..|a|] == a;
  }

  lemma ReadAllOfLines(raw: string)
    ensures ReadAll(Lines(raw)) == ReadAll(Segments(raw))
  {
    var g, l := Segments(raw), Lines(raw);
    LinesAreSegments(raw);
    ReadAllSame(l, g[..|l|]);
    if Last(g) == "" {
      assert g == g[..|l|] + [""];
      ReadAllIgnores(g[..|l|], "");
    } else {
      assert g[..|l|] == g;
    }
  }

  /** Inserting a blank line or a comment between any two lines does not change what is read. */
  lemma InsertedLineIsIgnored(before: string, l: string, after: string)
    requires NewlineEnded(before) && '\n' !in l && Ignored(l)
    ensures Parse(before + (l + "\n") + after) == Parse(before + after)
  {
    var g, h := Segments(before), Segments(after);
    InsertedSegments(before, l, after);
    ReadAllIgnores(g[..|g| - 1], l);
    ReadAllAppend(g[..|g| - 1] + [l], g[..|g| - 1], h);
    ReadAllOfLines(before + (l + "\n") + after);
    ReadAllOfLines(before + after);
  }

  lemma SegmentsAddLine(s: string, l: string)
    requires NewlineEnded(s) && '\n' !in l
    ensures Segments(s + (l + "\n")) == Segments(s)[..|Segments(s)| - 1] + [l, ""]
  {
    SegmentsOfOneFinished(l);
    SegmentsAfterNewline(s, l + "\n");
  }

  lemma InsertedSegments(before: string, l: string, after: string)
    requires NewlineEnded(before) && '\n' !in l
    ensures var g, h := Segments(before), Segments(after);
      && Segments(before + (l + "\n") + after) == g[..|g| - 1] + [l] + h
      && Segments(before + after) == g[..|g| - 1] + h
  {
    var g := Segments(before);
    SegmentsAddLine(before, l);
    SegmentsAfterNewline(before + (l + "\n"), after);
    SegmentsAfterNewline(before, after);
    DropLast(g[..|g| - 1], l);
  }

  lemma DropLast(g: seq<string>, l: string)
    ensures (g + [l, ""])[..|g + [l, ""]| - 1] == g + [l]
  {
  }

  // ---------------------------------------------------------------- the last line with a key decides

  lemma {:induction false} LastX(lines: seq<string>, k: nat)
    requires k < |lines| && IsX(lines[k]) && forall j | k < j < |lines| :: !IsX(lines[j])
    ensures ReadAll(lines).x == XValue(lines[k])
    decreases |lines|
  {
    if k < |lines| - 1 {
      LastX(lines[..|lines| - 1], k);
    }
  }

  lemma {:induction false} LastEd(lines: seq<string>, k: nat)
    requires k < |lines| && IsEd(lines[k]) && forall j | k < j < |lines| :: !IsEd(lines[j])
    ensures ReadAll(lines).ed == EdValue(lines[k])
    decreases |lines|
  {
    if k < |lines| - 1 {
      LastEd(lines[..|lines| - 1], k);
    }
  }

  lemma {:induction false} NoKeyedLine(lines: seq<string>)
    ensures (forall j | 0 <= j < |lines| :: !IsX(lines[j])) ==> ReadAll(lines).x == None
    ensures (forall j | 0 <= j < |lines| :: !IsEd(lines[j])) ==> ReadAll(lines).ed == None
    decreases |lines|
  {
    if lines != [] {
      NoKeyedLine(lines[..|lines| - 1]);
    }
  }

  /** The seeds on lines of their own, in order. */
  function BareValues(lines: seq<string>): seq<Key> {
    if lines == [] then []
    else
      var v := BareValue(lines[|lines| - 1]);
      BareValues(lines[..|lines| - 1]) + if v.Some? then [v.value] else []
  }

  lemma {:induction false} BareAreBareValues(lines: seq<string>)
    ensures ReadAll(lines).bare == BareValues(lines)
    decreases |lines|
  {
    if lines != [] {
      BareAreBareValues(lines[..|lines| - 1]);
    }
  }

  /**
   Each seed is decided by the last line with its key, `i` and `j`. If that line does not decode, an earlier good
   one does not count, and the file is read as if it had no keyed lines.
   */
  lemma LastKeyedLineDecides(raw: string, i: nat, j: nat)
    requires var l := Lines(raw);
      && i < |l| && IsX(l[i]) && (forall k | i < k < |l| :: !IsX(l[k]))
      && j < |l| && IsEd(l[j]) && (forall k | j < k < |l| :: !IsEd(l[k]))
    ensures var l := Lines(raw);
      var x, ed, bare := XValue(l[i]), EdValue(l[j]), BareValues(l);
      Parse(raw) ==
        if x.Some? && ed.Some? then Some((x.value, ed.value))
        else if |bare| >= 2 then Some((bare[0], bare[1])) else None
  {
    LastX(Lines(raw), i);
    LastEd(Lines(raw), j);
    BareAreBareValues(Lines(raw));
  }

  /** Without a line for one of the keys, the bare seeds decide. */
  lemma BareSeedsDecide(raw: string)
    requires var l := Lines(raw);
      (forall k | 0 <= k < |l| :: !IsX(l[k])) || (forall k | 0 <= k < |l| :: !IsEd(l[k]))
    ensures var bare := BareValues(Lines(raw));
      Parse(raw) == if |bare| >= 2 then Some((bare[0], bare[1])) else None
  {
    NoKeyedLine(Lines(raw));
    BareAreBareValues(Lines(raw));
  }

  // ---------------------------------------------------------------- round trip

  lemma ThreeLines(a: string, b: string, c: string)
    requires '\n' !in a && '\n' !in b && '\n' !in c
    ensures Segments(a + "\n" + (b + "\n") + (c + "\n")) == [a, b, c, ""]
  {
    SegmentsOfOneFinished(a);
    SegmentsAddLine(a + "\n", b);
    DropLast([], a);
    assert [a] + [b, ""] == [a, b, ""];
    SegmentsAddLine(a + "\n" + (b + "\n"), c);
    DropLast([a], b);
    assert [a, b] + [c, ""] == [a, b, c, ""];
  }

  lemma BodySegments(xSeed: Key, edSeed: Key)
    ensures Segments(Body(xSeed, edSeed)) == [HEADING, X_KEY + Hex(xSeed), ED_KEY + Hex(edSeed), ""]
  {
    var a, b, c := HEADING, X_KEY + Hex(xSeed), ED_KEY + Hex(edSeed);
    BodyInLines(xSeed, edSeed);
    ThreeLines(a, b, c);
  }

  /** What `write_identity` writes, line by line. */
  lemma BodyInThreeLines(xSeed: Key, edSeed: Key)
    ensures Lines(Body(xSeed, edSeed)) ==
      ["# usbws machine identity (keep secret)", "x_seed=" + Hex(xSeed), "ed_seed=" + Hex(edSeed)]
    ensures NewlineEnded(Body(xSeed, edSeed))
  {
    hide Segments, Hex;
    BodySegments(xSeed, edSeed);
    HexRoundTrip(xSeed);
    HexRoundTrip(edSeed);
    NotEndedInCR("x_seed=", xSeed);
    NotEndedInCR("ed_seed=", edSeed);
  }

  lemma NotEndedInCR(key: string, seed: Key)
    ensures StripCR(key + Hex(seed)) == key + Hex(seed)
  {
    HexIsPlain(seed);
    HexRoundTrip(seed);
  }

  lemma BodyInLines(xSeed: Key, edSeed: Key)
    ensures '\n' !in HEADING && '\n' !in X_KEY + Hex(xSeed) && '\n' !in ED_KEY + Hex(edSeed)
    ensures HEADING + "\n" + (X_KEY + Hex(xSeed) + "\n") + (ED_KEY + Hex(edSeed) + "\n") == Body(xSeed, edSeed)
  {
    hide Hex;
    HexOnOneLine(xSeed);
    HexOnOneLine(edSeed);
  }

  lemma HexOnOneLine(seed: Key)
    ensures '\n' !in Hex(seed)
  {
    HexIsPlain(seed);
  }

  lemma KeyedLineReads(key: string, seed: Key)
    requires key == X_KEY || key == ED_KEY
    ensures Trim(key + Hex(seed)) == key + Hex(seed) && Trim(Hex(seed)) == Hex(seed)
    ensures Unhex32(Hex(seed)) == Some(seed)
  {
    hide Hex, Unhex, TrimEnd;
    HexRoundTrip(seed);
    HexIsPlain(seed);
    TrimEndAppend(key, Hex(seed));
    TrimEndOfHex(seed);
  }

  lemma TrimEndOfHex(seed: Key)
    ensures Hex(seed) != "" && TrimEnd(Hex(seed)) == Hex(seed) && !Blank(Hex(seed))
  {
    HexIsPlain(seed);
  }

  /** What `write_identity` writes is read back as the two seeds. */
  lemma IdentityRoundTrip(xSeed: Key, edSeed: Key)
    ensures Parse(Body(xSeed, edSeed)) == Some((xSeed, edSeed))
  {
    var a, b, c := HEADING, X_KEY + Hex(xSeed), ED_KEY + Hex(edSeed);
    BodySegments(xSeed, edSeed);
    ReadAllOfLines(Body(xSeed, edSeed));
    KeyedLineReads(X_KEY, xSeed);
    KeyedLineReads(ED_KEY, edSeed);
    BodyLinesRead(a, b, c, xSeed, edSeed);
  }

  lemma BodyLinesRead(a: string, b: string, c: string, xSeed: Key, edSeed: Key)
    requires a == HEADING && b == X_KEY + Hex(xSeed) && c == ED_KEY + Hex(edSeed)
    requires Trim(b) == b && Trim(c) == c && Trim(Hex(xSeed)) == Hex(xSeed) && Trim(Hex(edSeed)) == Hex(edSeed)
    requires Unhex32(Hex(xSeed)) == Some(xSeed) && Unhex32(Hex(edSeed)) == Some(edSeed)
    ensures Choose(ReadAll([a, b, c, ""])) == Some((xSeed, edSeed))
  {
    assert b[|X_KEY|..] == Hex(xSeed) && c[|ED_KEY|..] == Hex(edSeed);
    assert b[0] == 'x' && c[0] == 'e';
    LastX([a, b, c, ""], 1);
    LastEd([a, b, c, ""], 2);
  }

  // ---------------------------------------------------------------- files written by hand

  /** Seeds in hexadecimal of either case, with white space around them. */
  datatype Written = Written(before: string, digits: string, after: string)

  ghost predicate Writes(w: Written, seed: Key) {
    && (forall c | c in w.before || c in w.after :: c in SPACES && c != '\n')
    && LowerCase(w.digits) == Hex(seed)
  }

  function WrittenText(w: Written): string {
    w.before + w.digits + w.after
  }

  lemma TrimWritten(w: Written, seed: Key)
    requires Writes(w, seed)
    ensures Trim(WrittenText(w)) == w.digits && |w.digits| == 64 && Unhex32(w.digits) == Some(seed)
    ensures '\n' !in WrittenText(w) && forall i | 0 <= i < 64 :: w.digits[i] in "0123456789abcdefABCDEF"
  {
    hide Hex, Unhex, IsSpace, LowerCase, TrimStart, TrimEnd;
    HexRoundTrip(seed);
    UnhexReadsEitherCase(w.digits, seed);
    DigitsOfKey(w.digits, seed);
    BlankWritten(w, seed);
    TrimBlankTail(w.before + w.digits, w.after);
    TrimBlankHead(w.before, w.digits);
    PlainIsTrimmed(w.digits);
  }

  lemma PlainIsTrimmed(h: string)
    requires forall i | 0 <= i < |h| :: !IsSpace(h[i])
    ensures Trim(h) == h
  {
  }

  lemma BlankWritten(w: Written, seed: Key)
    requires Writes(w, seed)
    ensures Blank(w.before) && Blank(w.after)
  {
    forall i | 0 <= i < |w.before| ensures IsSpace(w.before[i]) {
      SpacesAreListed(w.before[i]);
    }
    forall i | 0 <= i < |w.after| ensures IsSpace(w.after[i]) {
      SpacesAreListed(w.after[i]);
    }
  }

  lemma ReadsTwoLines(a: string, b: string)
    requires '\n' !in a && '\n' !in b
    ensures var s := Read(Read(Seeds(None, None, []), a), b);
      Parse(a + "\n" + b) == Choose(s) && Parse(a + "\n" + b + "\n") == Choose(s)
  {
    hide Segments, Lines, Choose, Read;
    SegmentsOfOneFinished(a);
    SegmentsOfOneLine(b);
    SegmentsAfterNewline(a + "\n", b);
    SegmentsOfFinished(a + "\n" + b);
    assert Segments(a + "\n" + b) == [a, b];
    assert Segments(a + "\n" + b + "\n") == [a, b, ""];
    ReadAllOfLines(a + "\n" + b);
    ReadAllOfLines(a + "\n" + b + "\n");
    ReadAllOfTwo(a, b);
  }

  lemma ReadAllOfTwo(a: string, b: string)
    ensures ReadAll([a, b]) == Read(Read(Seeds(None, None, []), a), b) == ReadAll([a, b, ""])
  {
    hide Read;
    assert [a, b, ""][..2] == [a, b] && [a, b][..1] == [a] && [a][..0] == [];
    assert ReadAll([a]) == Read(ReadAll([]), a);
    assert ReadAll([a, b]) == Read(ReadAll([a]), b);
    BlankIsIgnored(ReadAll([a, b]));
  }

  lemma BlankIsIgnored(s: Seeds)
    ensures Read(s, "") == s
  {
  }

  /** Two bare seeds on two lines: the first is the X25519 seed, the second the Ed25519 one. */
  lemma BareFile(a: Written, b: Written, x: Key, ed: Key)
    requires Writes(a, x) && Writes(b, ed)
    ensures Parse(WrittenText(a) + "\n" + WrittenText(b)) == Some((x, ed))
    ensures Parse(WrittenText(a) + "\n" + WrittenText(b) + "\n") == Some((x, ed))
  {
    hide Read, Writes, WrittenText, Parse;
    TrimWritten(a, x);
    TrimWritten(b, ed);
    ReadsTwoLines(WrittenText(a), WrittenText(b));
    BareRead(Seeds(None, None, []), a, x);
    BareRead(Seeds(None, None, [x]), b, ed);
    var bare: seq<Key> := [];
    assert bare + [x] == [x] && [x] + [ed] == [x, ed];
  }

  lemma BareRead(s: Seeds, w: Written, seed: Key)
    requires Writes(w, seed)
    ensures Read(s, WrittenText(w)) == s.(bare := s.bare + [seed])
  {
    hide Hex, Unhex, Writes, WrittenText, Trim;
    TrimWritten(w, seed);
    NotKeyedLine(w.digits, w.digits);
  }

  /** Keyed seeds are read in either order, whatever white space stands around the key and the digits. */
  lemma KeyedFile(pre: string, a: Written, b: Written, x: Key, ed: Key)
    requires Writes(a, x) && Writes(b, ed) && forall c | c in pre :: c in SPACES && c != '\n'
    ensures var l, m := pre + "x_seed=" + WrittenText(a), pre + "ed_seed=" + WrittenText(b);
      Parse(l + "\n" + m) == Some((x, ed)) == Parse(m + "\n" + l)
  {
    hide Read, Writes, WrittenText, Parse;
    KeyedTrim(pre, "x_seed=", a, x);
    KeyedTrim(pre, "ed_seed=", b, ed);
    var l, m := pre + "x_seed=" + WrittenText(a), pre + "ed_seed=" + WrittenText(b);
    ReadsTwoLines(l, m);
    ReadsTwoLines(m, l);
    XRead(Seeds(None, None, []), l, x);
    EdRead(Seeds(Some(x), None, []), m, ed);
    EdRead(Seeds(None, None, []), m, ed);
    XRead(Seeds(None, Some(ed), []), l, x);
  }

  lemma KeyedTrim(pre: string, key: string, w: Written, seed: Key)
    requires Writes(w, seed) && forall c | c in pre :: c in SPACES && c != '\n'
    requires key == "x_seed=" || key == "ed_seed="
    ensures var l := pre + key + WrittenText(w);
      && '\n' !in l && key <= Trim(l) && Unhex32(Trim(Trim(l)[|key|..])) == Some(seed)
  {
    hide Writes, WrittenText, TrimEnd, TrimStart, Unhex32, IsSpace;
    TrimWritten(w, seed);
    var t := WrittenText(w);
    forall i | 0 <= i < |pre| ensures IsSpace(pre[i]) {
      SpacesAreListed(pre[i]);
    }
    TrimBlankHead(pre, key + t);
    assert pre + (key + t) == pre + key + t;
    TrimBlank(t);
    TrimEndAppend(key, t);
    KeyIsPlain(key);
    TrimStartAppend(key, t);
    TrimIdempotent(t);
    assert Trim(pre + key + t) == key + TrimEnd(t);
    assert (key + TrimEnd(t))[|key|..] == TrimEnd(t);
  }

  lemma KeyIsPlain(key: string)
    requires key == "x_seed=" || key == "ed_seed="
    ensures !Blank(key) && TrimStart(key) == key
  {
    assert !IsSpace(key[0]);
  }

  lemma XRead(s: Seeds, l: string, x: Key)
    requires X_KEY <= Trim(l) && Unhex32(Trim(Trim(l)[|X_KEY|..])) == Some(x)
    ensures Read(s, l) == s.(x := Some(x))
  {
    hide Unhex32, Trim;
    assert Trim(l)[0] == 'x';
  }

  lemma EdRead(s: Seeds, l: string, ed: Key)
    requires ED_KEY <= Trim(l) && Unhex32(Trim(Trim(l)[|ED_KEY|..])) == Some(ed)
    ensures Read(s, l) == s.(ed := Some(ed))
  {
    hide Unhex32, Trim;
    assert Trim(l)[0] == 'e';
  }

  /** Two seeds on one line are not read, whatever white space sets them apart. */
  lemma SeedsOnOneLine(a: string, b: string, x: Key, ed: Key, c: char)
    requires LowerCase(a) == Hex(x) && LowerCase(b) == Hex(ed) && c in SPACES && c != '\n'
    ensures Parse(a + [c] + b) == None
  {
    hide Hex, IsSpace, LowerCase, Trim, Lines, Segments;
    DigitsOfKey(a, x);
    DigitsOfKey(b, ed);
    var l := a + [c] + b;
    assert '\n' !in l by {
      SpacesAreListed('\n');
    }
    SegmentsOfOneLine(l);
    ReadAllOfLines(l);
    assert [l][..0] == [];
    TrimBetween(a, c, b);
    UnhexLength(l);
    NotKeyedLine(l, a);
  }

  lemma TrimBetween(a: string, c: char, b: string)
    requires a != "" && b != "" && !IsSpace(a[0]) && !IsSpace(b[|b| - 1])
    ensures Trim(a + [c] + b) == a + [c] + b
  {
  }

  lemma NotKeyedLine(l: string, a: string)
    requires a <= l && |a| == 64 && forall i | 0 <= i < 64 :: a[i] in "0123456789abcdefABCDEF"
    ensures l[0] != '#' && !(X_KEY <= l) && !(ED_KEY <= l)
  {
    assert l[0] == a[0] && l[2] == a[2];
    assert a[0] in "0123456789abcdefABCDEF" && a[2] in "0123456789abcdefABCDEF";
  }
}
