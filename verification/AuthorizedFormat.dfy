/** What may stand in an authorized-keys file written by hand, independently of how `load` reads it. */
module AuthorizedFormat {
  import opened Common
  import opened Text
  import opened Authorized
  import opened AuthorizedLaws
  import opened AuthorizedEdited

  /**
   From `a` to `b` stands the key in hexadecimal of either case, before it white space alone, behind it nothing, or
   white space and the nick.
   */
  ghost predicate ReadsAs(line: string, e: Entry, a: nat, b: nat) {
    && a <= b <= |line|
    && (forall i | 0 <= i < a :: line[i] in SPACES)
    && LowerCase(line[a..b]) == Hex(e.xPub)
    && (b < |line| ==> line[b] in SPACES)
    && e.nick == Trim(line[b..])
  }

  /** Those lines are entries, and no others. */
  lemma EntryLines(line: string, e: Entry)
    ensures ParseLine(line) == Some(e) <==> exists a: nat, b: nat :: ReadsAs(line, e, a, b)
  {
    if ParseLine(line) == Some(e) {
      var a, b := EntryReads(line, e);
    }
    if a: nat, b: nat :| ReadsAs(line, e, a, b) {
      LineReads(line, e, a, b);
    }
  }

  lemma SpaceIsSpace(s: string, n: nat)
    requires n <= |s|
    ensures Blank(s[..n]) <==> forall i | 0 <= i < n :: s[i] in SPACES
  {
    forall i | 0 <= i < n ensures IsSpace(s[i]) <==> s[i] in SPACES {
      SpacesAreListed(s[i]);
    }
    assert forall i | 0 <= i < n :: s[..n][i] == s[i];
  }

  lemma EntryReads(line: string, e: Entry) returns (a: nat, b: nat)
    requires ParseLine(line) == Some(e)
    ensures ReadsAs(line, e, a, b)
  {
    hide ParseLine, TrimStart, TrimEnd, Hex, Unhex, IsSpace, LowerCase;
    var v := TrimStart(line);
    a := TrimStartSplits(line);
    ParseParts(line);
    var n := WordEnd(v);
    b := a + n;
    assert line[a..b] == v[..n];
    UnhexReadsEitherCase(v[..n], e.xPub);
    SpaceIsSpace(line, a);
    WordEndsAtSpace(v);
    assert line[b..] == v[n..];
    if n < |v| {
      assert line[b] == v[n];
      SpacesAreListed(v[n]);
      assert v[n..] == [v[n]] + v[n + 1..];
      TrimBlankHead([v[n]], v[n + 1..]);
    }
    TrimOfNothing();
  }

  lemma TrimOfNothing()
    ensures Trim("") == ""
  {
  }

  lemma {:induction false} WordEndsAtSpace(l: string)
    ensures forall i | 0 <= i < WordEnd(l) :: !IsSpace(l[i])
    ensures WordEnd(l) < |l| ==> IsSpace(l[WordEnd(l)])
    decreases |l|
  {
    if l != "" && !IsSpace(l[0]) {
      WordEndsAtSpace(l[1..]);
    }
  }

  lemma LineReads(line: string, e: Entry, a: nat, b: nat)
    requires ReadsAs(line, e, a, b)
    ensures ParseLine(line) == Some(e)
  {
    hide ParseLine, Hex, Unhex, IsSpace, LowerCase, Trim;
    var h := line[a..b];
    SpaceIsSpace(line, a);
    UnhexReadsEitherCase(h, e.xPub);
    DigitsOfKey(h, e.xPub);
    if b < |line| {
      SpacesAreListed(line[b]);
    }
    assert line == line[..a] + h + line[b..];
    ParseKey(line[..a], h, e.xPub, line[b..]);
  }

  /** One line more at the front of a file, with either ending, is one entry more, or none. */
  lemma FileReadsLineByLine(l: string, s: string)
    requires '\n' !in l
    ensures Table(Some(l + "\n" + s)) == Entries([l]) + Table(Some(s))
    ensures Table(Some(l + "\r\n" + s)) == Entries([l]) + Table(Some(s))
  {
    hide Lines, Trim, Entries, ParseLine;
    OneLineMore(l, s);
    OneLineMore(l + "\r", s);
    assert l + "\r" + "\n" + s == l + "\r\n" + s;
    TrimBlankTail(l, "\r");
    EntriesSame([l + "\r"], [l]);
  }

  lemma OneLineMore(l: string, s: string)
    requires '\n' !in l
    ensures Table(Some(l + "\n" + s)) == Entries([l]) + Table(Some(s))
  {
    hide Lines, Entries, StripCR, Trim;
    FinishedLine(l, s);
    EntriesAppend([StripCR(l)], Lines(s));
    TrimStripCR(l);
    EntriesSame([StripCR(l)], [l]);
  }

  // ---------------------------------------------------------------- a file of such lines

  /** A line as someone may write it: the key in either case, one character of white space, the nick. */
  datatype Row = Row(key: string, x: Key, space: char, nick: string)

  ghost predicate Proper(r: Row) {
    LowerCase(r.key) == Hex(r.x) && r.space in SPACES && r.space != '\n' && '\n' !in r.nick
  }

  function RowText(r: Row): string {
    r.key + [r.space] + r.nick
  }

  function FileOf(rows: seq<Row>): string {
    if rows == [] then "" else RowText(rows[0]) + "\n" + FileOf(rows[1..])
  }

  function EntriesOf(rows: seq<Row>): seq<Entry> {
    seq(|rows|, i requires 0 <= i < |rows| => Entry(rows[i].x, Trim(rows[i].nick)))
  }

  lemma RowReads(r: Row)
    requires Proper(r)
    ensures ParseLine(RowText(r)) == Some(Entry(r.x, Trim(r.nick)))
  {
    hide ParseLine, Hex, Unhex, LowerCase, TrimStart, TrimEnd, IsSpace;
    DigitsOfKey(r.key, r.x);
    UnhexReadsEitherCase(r.key, r.x);
    SpacesAreListed(r.space);
    TrimBlankHead([r.space], r.nick);
    ParseKey("", r.key, r.x, [r.space] + r.nick);
    assert "" + r.key + ([r.space] + r.nick) == RowText(r);
  }

  /** A key, one character of white space, whichever it is, and a nick. */
  lemma KeyThenNick(x: Key, c: char, nick: string)
    requires c in SPACES
    ensures ParseLine(Hex(x) + [c] + nick) == Some(Entry(x, Trim(nick)))
  {
    hide ParseLine, Hex, Trim, IsSpace;
    SpacesAreListed(c);
    TrimBlankHead([c], nick);
    ParsePrinted("", x, [c] + nick);
    assert "" + Hex(x) + ([c] + nick) == Hex(x) + [c] + nick;
  }

  /** Whichever white space stands between keys and nicks, the file is read as the keys and trimmed nicks in order. */
  lemma {:induction false} HandWrittenFile(rows: seq<Row>)
    requires forall i | 0 <= i < |rows| :: Proper(rows[i])
    ensures Table(Some(FileOf(rows))) == EntriesOf(rows)
  {
    hide Table, ParseLine, RowText, Trim, LowerCase, Hex;
    if rows == [] {
      EmptyTable();
    } else {
      var r := rows[0];
      RowOnOneLine(r);
      RowReads(r);
      FileReadsLineByLine(RowText(r), FileOf(rows[1..]));
      EntriesOfOne(RowText(r));
      HandWrittenFile(rows[1..]);
      assert EntriesOf(rows) == [Entry(r.x, Trim(r.nick))] + EntriesOf(rows[1..]);
    }
  }

  lemma EmptyTable()
    ensures Table(Some("")) == []
  {
    EntriesOfNothing();
  }

  lemma RowOnOneLine(r: Row)
    requires Proper(r)
    ensures '\n' !in RowText(r)
  {
    hide LowerCase, Hex;
    DigitsOfKey(r.key, r.x);
    SpacesAreListed('\n');
  }
}
