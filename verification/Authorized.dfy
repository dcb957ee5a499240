/**
 The authorized-initiators table of src/authorized.rs: an ordered table of keys kept as a text file that is only
 ever appended to.
 */
module Authorized {
  import opened Common
  import opened Text

  datatype Entry = Entry(xPub: Key, nick: string)

  /** A read or write of the file may fail. */
  datatype Result<+T> = Ok(value: T) | Failed

  // ---------------------------------------------------------------- what the file says

  /** Where the first white space is, or the length. */
  function WordEnd(l: string): (n: nat)
    ensures n <= |l|
  {
    if l == "" || IsSpace(l[0]) then 0 else 1 + WordEnd(l[1..])
  }

  function ParseLine(line: string): Option<Entry> {
    var l := Trim(line);
    if l == "" || l[0] == '#' then None
    else
      var n := WordEnd(l);
      var key := Unhex32(l[..n]);
      if key.None? then None else Some(Entry(key.value, if n == |l| then "" else Trim(l[n + 1..])))
  }

  function Entries(lines: seq<string>): seq<Entry> {
    if lines == [] then []
    else
      var e := ParseLine(lines[|lines| - 1]);
      Entries(lines[..|lines| - 1]) + (if e.Some? then [e.value] else [])
  }

  function Content(file: Option<string>): string {
    if file.Some? then file.value else ""
  }

  /** The table a file stands for; a missing file is an empty one. */
  function Table(file: Option<string>): seq<Entry> {
    Entries(Lines(Content(file)))
  }

  predicate Contains(t: seq<Entry>, x: Key) {
    exists i | 0 <= i < |t| :: t[i].xPub == x
  }

  /** A nick follows its key after a space; no nick, no space. */
  function Spaced(nick: string): string {
    if nick == "" then "" else " " + nick
  }

  /** How a key and nick are written, by `add` and by `print_table`. */
  function Line(x: Key, nick: string): string {
    Hex(x) + Spaced(nick) + "\n"
  }

  lemma LineShape(x: Key, nick: string)
    ensures Line(x, nick) == if nick == "" then Hex(x) + "\n" else Hex(x) + " " + nick + "\n"
  {
    assert Hex(x) + "" == Hex(x) && Hex(x) + " " + nick == Hex(x) + (" " + nick);
  }

  function Printed(t: seq<Entry>): string {
    if t == [] then "" else Printed(t[..|t| - 1]) + Line(t[|t| - 1].xPub, t[|t| - 1].nick)
  }

  /** The file after `add`. */
  function Added(file: Option<string>, x: Key, nick: string): Option<string> {
    if Contains(Table(file), x) then file else Some(Content(file) + Line(x, nick))
  }

  // ---------------------------------------------------------------- the operations

  class Store {
    var file: Option<string>

    constructor (file: Option<string>)
      ensures this.file == file
    {
      this.file := file;
    }

    /** `load`; `readable` says whether an existing file can be read. */
    method Load(readable: bool) returns (r: Result<seq<Entry>>)
      ensures r == if file.Some? && !readable then Failed else Ok(Table(file))
    {
      if file.None? {
        return Ok([]);
      }
      if !readable {
        return Failed;
      }
      var lines := Lines(file.value);
      var out: seq<Entry> := [];
      for i := 0 to |lines|
        invariant out == Entries(lines[..i])
      {
        assert lines[..i + 1][..i] == lines[..i];
        var line := Trim(lines[i]);
        if line == "" || line[0] == '#' {
          continue;
        }
        var n := WordEnd(line);
        var nick := "";
        if n < |line| {
          nick := Trim(line[n + 1..]);
        }
        var key := Unhex32(line[..n]);
        if key.Some? {
          out := out + [Entry(key.value, nick)];
        }
      }
      assert lines[..|lines|] == lines;
      return Ok(out);
    }

    /** `add`; a write that fails is taken to leave the file as it was. */
    method Add(x: Key, nick: string, readable: bool, writable: bool) returns (ok: bool)
      modifies this
      ensures ok <==> (old(file).Some? ==> readable) && (Contains(Table(old(file)), x) || writable)
      ensures file == if ok then Added(old(file), x, nick) else old(file)
    {
      var existing := Load(readable);
      if existing.Failed? {
        return false;
      }
      if Contains(existing.value, x) {
        return true;
      }
      if !writable {
        return false;
      }
      var line := if nick == "" then Hex(x) + "\n" else Hex(x) + " " + nick + "\n";
      LineShape(x, nick);
      file := Some(Content(file) + line);
      return true;
    }

    /** `print_table`: what goes to standard output. */
    method PrintTable(readable: bool) returns (r: Result<string>)
      ensures r == if file.Some? && !readable then Failed else Ok(Printed(Table(file)))
    {
      hide Hex, Line, Table;
      var entries := Load(readable);
      if entries.Failed? {
        return Failed;
      }
      var t, out := entries.value, "";
      for i := 0 to |t|
        invariant out == Printed(t[..i])
      {
        assert t[..i + 1][..i] == t[..i];
        var line := if t[i].nick == "" then Hex(t[i].xPub) + "\n" else Hex(t[i].xPub) + " " + t[i].nick + "\n";
        LineShape(t[i].xPub, t[i].nick);
        out := out + line;
      }
      assert t[..|t|] == t;
      return Ok(out);
    }
  }

  // ---------------------------------------------------------------- reading what was written

  lemma {:induction false} WordEndAt(a: string, t: string)
    requires forall i | 0 <= i < |a| :: !IsSpace(a[i])
    requires t != "" ==> IsSpace(t[0])
    ensures WordEnd(a + t) == |a|
  {
    if a == "" {
      assert a + t == t;
    } else {
      WordEndAt(a[1..], t);
      assert (a + t)[1..] == a[1..] + t;
    }
  }

  /** A printed key, after blanks and before a nick, is read back. */
  lemma ParsePrinted(pre: string, x: Key, t: string)
    requires Blank(pre)
    requires t != "" ==> IsSpace(t[0])
    ensures ParseLine(pre + Hex(x) + t) == Some(Entry(x, Trim(t)))
  {
    hide Unhex, ParseLine;
    HexRoundTrip(x);
    HexIsPlain(x);
    ParseKey(pre, Hex(x), x, t);
  }

  lemma ParseKey(pre: string, h: string, x: Key, t: string)
    requires Blank(pre) && (t != "" ==> IsSpace(t[0]))
    requires Unhex32(h) == Some(x) && h != "" && forall i | 0 <= i < |h| :: !IsSpace(h[i]) && h[i] != '#'
    ensures ParseLine(pre + h + t) == Some(Entry(x, Trim(t)))
  {
    hide Unhex, Blank, Trim, TrimEnd, WordEnd, ParseLine;
    var u := if Blank(t) then "" else TrimEnd(t);
    TrimPrinted(pre, h, t);
    NickBehind(t);
    WordEndAt(h, u);
    ParseTrimmed(pre + h + t, h, u, x);
  }

  /** A trimmed line of a key and what stands behind it. */
  lemma ParseTrimmed(line: string, h: string, u: string, x: Key)
    requires Trim(line) == h + u && h != "" && h[0] != '#' && WordEnd(h + u) == |h| && Unhex32(h) == Some(x)
    ensures ParseLine(line) == Some(Entry(x, if u == "" then "" else Trim(u[1..])))
  {
    hide Unhex32, Trim, WordEnd;
    assert (h + u)[..|h|] == h;
    if u != "" {
      assert (h + u)[|h| + 1..] == u[1..];
    }
  }

  /** The nick behind a key is set off by a space, which does not belong to it. */
  lemma NickBehind(t: string)
    requires t != "" ==> IsSpace(t[0])
    ensures var u := if Blank(t) then "" else TrimEnd(t);
      && (u != "" ==> IsSpace(u[0]))
      && Trim(t) == if u == "" then "" else Trim(u[1..])
  {
    hide Trim, TrimEnd;
    TrimBlank(t);
    var u := TrimEnd(t);
    if u != "" {
      var k := TrimEndSplits(t);
      assert u[0] == t[0] && [u[0]] + u[1..] == u;
      TrimBlankHead([u[0]], u[1..]);
      TrimIdempotent(t);
    }
  }

  lemma TrimPrinted(pre: string, h: string, t: string)
    requires Blank(pre) && h != "" && forall i | 0 <= i < |h| :: !IsSpace(h[i])
    ensures Trim(pre + h + t) == h + if Blank(t) then "" else TrimEnd(t)
  {
    assert pre + h + t == pre + (h + t);
    TrimBlankHead(pre, h + t);
    TrimEndAppend(h, t);
  }

  lemma {:induction false} EntriesAppend(a: seq<string>, b: seq<string>)
    ensures Entries(a + b) == Entries(a) + Entries(b)
    decreases |b|
  {
    if b == [] {
      assert a + b == a;
    } else {
      EntriesAppend(a, b[..|b| - 1]);
      assert (a + b)[..|a + b| - 1] == a + b[..|b| - 1];
    }
  }

  /** Line endings make no difference to what is read. */
  lemma {:induction false} EntriesSame(a: seq<string>, b: seq<string>)
    requires |a| == |b| && forall i | 0 <= i < |a| :: Trim(a[i]) == Trim(b[i])
    ensures Entries(a) == Entries(b)
    decreases |a|
  {
    if a != [] {
      EntriesSame(a[..|a| - 1], b[..|b| - 1]);
    }
  }

  lemma {:induction false} EntriesOfBlank(a: seq<string>)
    requires forall i | 0 <= i < |a| :: Blank(a[i])
    ensures Entries(a) == []
    decreases |a|
  {
    if a != [] {
      TrimBlank(a[|a| - 1]);
      EntriesOfBlank(a[..|a| - 1]);
    }
  }

  lemma EntriesOfOne(l: string)
    ensures Entries([l]) == if ParseLine(l).Some? then [ParseLine(l).value] else []
  {
    assert [l][..0] == [];
  }

  lemma EntriesOfLines(s: string)
    ensures Entries(Lines(s)) == Entries(Segments(s))
  {
    hide Segments, Lines;
    var g, l := Segments(s), Lines(s);
    LinesAreSegments(s);
    EntriesSame(l, g[..|l|]);
    assert g[..|l|] + (if Last(g) == "" then [""] else []) == g;
    EntriesAppend(g[..|l|], if Last(g) == "" then [""] else []);
    EntriesOfOne("");
  }

  lemma EntriesOfNothing()
    ensures Entries(Lines("")) == [] && Unfinished("") == ""
  {
    EntriesOfLines("");
    EntriesOfOne("");
  }

  lemma SegmentsOfSpaced(x: Key, nick: string)
    ensures Segments(Hex(x) + Spaced(nick)) == [Hex(x) + SpacedFirst(nick)] + Segments(nick)[1..]
  {
    HexIsPlain(x);
    if nick == "" {
      SegmentsOfOneLine(Hex(x) + "");
    } else {
      SegmentsAfter(Hex(x) + " ", nick);
      assert Hex(x) + " " + nick == Hex(x) + (" " + nick);
      assert Hex(x) + " " + First(Segments(nick)) == Hex(x) + (" " + First(Segments(nick)));
    }
  }

  /** What follows the key on its own line. */
  function SpacedFirst(nick: string): string {
    if nick == "" then "" else " " + First(Segments(nick))
  }

  lemma EntriesOfParts(a: seq<string>, m: string, b: seq<string>)
    ensures Entries(a + [m] + b + [""]) == Entries(a) + Entries([m]) + Entries(b)
  {
    EntriesAppend(a + [m] + b, [""]);
    EntriesOfOne("");
    EntriesAppend(a + [m], b);
    EntriesAppend(a, [m]);
  }

  lemma SegmentsOfAppended(s: string, x: Key, nick: string)
    ensures var g := Segments(s);
      Segments(s + Line(x, nick)) ==
      g[..|g| - 1] + [Last(g) + (Hex(x) + SpacedFirst(nick))] + Segments(nick)[1..] + [""]
  {
    hide Segments, Hex, Spaced, SpacedFirst;
    SegmentsOfSpaced(x, nick);
    SegmentsAppend(s, Hex(x) + Spaced(nick));
    SegmentsOfFinished(s + (Hex(x) + Spaced(nick)));
    assert s + (Hex(x) + Spaced(nick)) + "\n" == s + Line(x, nick);
  }

  /** What a file reads as once a line has been appended to it, finished or not. */
  lemma EntriesOfAppended(s: string, x: Key, nick: string)
    ensures Unfinished(s + Line(x, nick)) == ""
    ensures var g := Segments(s);
      Entries(Lines(s + Line(x, nick))) ==
      Entries(g[..|g| - 1]) + Entries([Last(g) + Hex(x) + SpacedFirst(nick)]) + Entries(Segments(nick)[1..])
  {
    hide Segments, Lines, Entries, Hex, Line, SpacedFirst;
    var g := Segments(s);
    SegmentsOfAppended(s, x, nick);
    EntriesOfLines(s + Line(x, nick));
    EntriesOfParts(g[..|g| - 1], Last(g) + (Hex(x) + SpacedFirst(nick)), Segments(nick)[1..]);
    assert Last(g) + (Hex(x) + SpacedFirst(nick)) == Last(g) + Hex(x) + SpacedFirst(nick);
  }

  lemma EntriesUnfinished(s: string)
    ensures var g := Segments(s);
      Entries(Lines(s)) == Entries(g[..|g| - 1]) + Entries([Last(g)])
  {
    var g := Segments(s);
    EntriesOfLines(s);
    EntriesAppend(g[..|g| - 1], [Last(g)]);
    assert g[..|g| - 1] + [Last(g)] == g;
  }

  lemma KeyLineReads(pre: string, x: Key, nick: string)
    requires Blank(pre)
    ensures Entries([pre + Hex(x) + SpacedFirst(nick)]) == [Entry(x, Trim(First(Segments(nick))))]
  {
    EntriesOfOne(pre + Hex(x) + SpacedFirst(nick));
    ParsePrinted(pre, x, SpacedFirst(nick));
    TrimBlankHead(" ", First(Segments(nick)));
  }

  /** Whatever the nick, appending to a file whose last line is finished or blank adds the key after the others. */
  lemma AppendedTable(s: string, x: Key, nick: string)
    requires Blank(Unfinished(s))
    ensures Entries(Lines(s + Line(x, nick))) ==
      Entries(Lines(s)) + [Entry(x, Trim(First(Segments(nick))))] + Entries(Segments(nick)[1..])
  {
    hide Segments, Lines, Entries, Trim, IsSpace, Hex, Blank;
    var u := Unfinished(s);
    EntriesOfAppended(s, x, nick);
    EntriesUnfinished(s);
    EntriesOfOne(u);
    TrimBlank(u);
    KeyLineReads(u, x, nick);
  }

  // ---------------------------------------------------------------- nicks and unfinished lines

  /** A nick whose text, up to its last character that is not white space, stays on one line. */
  predicate OneLine(nick: string) {
    '\n' !in TrimEnd(nick)
  }

  lemma {:induction false} SegmentsOfBlank(s: string)
    requires Blank(s)
    ensures forall k | 0 <= k < |Segments(s)| :: Blank(Segments(s)[k])
    decreases |s|
  {
    if s != "" {
      SegmentsOfBlank(s[..|s| - 1]);
    }
  }

  lemma OneLineReads(nick: string)
    requires OneLine(nick)
    ensures Trim(First(Segments(nick))) == Trim(nick)
    ensures Entries(Segments(nick)[1..]) == []
  {
    var k := TrimEndSplits(nick);
    assert nick == nick[..k] + nick[k..];
    SegmentsOfOneLine(nick[..k]);
    SegmentsAppend(nick[..k], nick[k..]);
    SegmentsOfBlank(nick[k..]);
    EntriesOfBlank(Segments(nick)[1..]);
    TrimBlankTail(nick[..k], First(Segments(nick[k..])));
    TrimBlankTail(nick[..k], nick[k..]);
  }

  lemma SeveralLinesRead(nick: string)
    requires !OneLine(nick)
    ensures Trim(First(Segments(nick))) != Trim(nick)
  {
    var e := TrimEndSplits(nick);
    var k :| 0 <= k < e && nick[k] == '\n';
    NewlineSplitsAt(nick, k);
    var n := |First(Segments(nick))|;
    assert nick[..n] + nick[n..] == nick;
    LongerWithMore(nick[..n], nick[n..]);
  }

  /** Text that is not all white space makes what it is appended to longer, trimmed. */
  lemma LongerWithMore(a: string, b: string)
    requires |TrimEnd(a + b)| > |a|
    ensures |Trim(a)| < |Trim(a + b)|
  {
    TrimEndAppend(a, b);
    TrimStartAppend(a, b);
    var k := TrimEndSplits(a);
    assert !Blank(b);
    TrimBlank(b);
    if Blank(a) {
      TrimBlank(a);
    } else {
      TrimEndAppend(TrimStart(a), b);
      var j := TrimEndSplits(TrimStart(a));
    }
  }

  /** The first segment is what is before the first newline. */
  lemma {:induction false} NewlineSplitsAt(s: string, k: nat)
    requires k < |s| && s[k] == '\n'
    ensures var n := |First(Segments(s))|;
      n <= k && First(Segments(s)) == s[..n] && s[n] == '\n'
    decreases |s|
  {
    hide Segments;
    var s' := s[..|s| - 1];
    if '\n' in s' {
      var j := if k < |s'| then k else var j :| 0 <= j < |s'| && s'[j] == '\n'; j;
      NewlineSplitsAt(s', j);
      var n := |First(Segments(s'))|;
      FirstStays(s');
      FirstOfMore(s);
      assert s'[..n] == s[..n];
    } else {
      SegmentsOfOneLine(s');
      FirstOfMore(s);
    }
  }

  /** Another character does not touch the first segment, unless it is the only one. */
  lemma FirstOfMore(s: string)
    requires s != ""
    ensures |Segments(s[..|s| - 1])| > 1 || s[|s| - 1] == '\n' ==> First(Segments(s)) == First(Segments(s[..|s| - 1]))
  {
  }

  lemma FirstStays(s: string)
    ensures |Segments(s)| == 1 ==> First(Segments(s)) == s
  {
    SegmentsHaveNoNewline(s);
    OnlySegment(s);
  }

  lemma {:induction false} OnlySegment(s: string)
    ensures |Segments(s)| == 1 <==> '\n' !in s
    decreases |s|
  {
    if '\n' !in s {
      SegmentsOfOneLine(s);
    } else {
      OnlySegment(s[..|s| - 1]);
    }
  }
}
