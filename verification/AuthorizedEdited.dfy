/** What becomes of an authorized-keys file whose last line, perhaps edited by hand, is not finished. */
module AuthorizedEdited {
  import opened Common
  import opened Text
  import opened Authorized
  import opened AuthorizedLaws

  /** The unfinished last line of the file, if there is one, is no entry. */
  predicate Safe(file: Option<string>) {
    ParseLine(Unfinished(Content(file))).None?
  }

  ghost predicate ListsAll(t: seq<Entry>) {
    forall x: Key :: Contains(t, x)
  }

  /** The line is an entry, and ends with its key. */
  predicate KeyAlone(line: string) {
    ParseLine(line).Some? && WordEnd(TrimStart(line)) == |TrimStart(line)|
  }

  /** No key can be lost from the table: an empty one is ready, an unfinished last entry cannot lose its only key. */
  ghost predicate KeepsKeys(file: Option<string>) {
    var t := Table(file);
    if t == [] then Ready(file)
    else KeyAlone(Unfinished(Content(file))) ==> Contains(t[..|t| - 1], t[|t| - 1].xPub) || ListsAll(t)
  }

  // ---------------------------------------------------------------- text after an entry on the same line

  lemma SomeIsNotBlank(line: string)
    requires ParseLine(line).Some?
    ensures !Blank(line)
  {
    TrimBlank(line);
  }

  /** An entry is its line's first word and, trimmed, what follows the white space behind that. */
  lemma ParseParts(line: string)
    requires ParseLine(line).Some?
    ensures var v := TrimStart(line);
      var n, e := WordEnd(v), ParseLine(line).value;
      && v != "" && v[0] != '#' && Unhex32(v[..n]) == Some(e.xPub)
      && e.nick == if n == |v| then "" else Trim(v[n + 1..])
  {
    hide Unhex32, IsSpace, TrimStart, TrimEnd, WordEnd;
    var v := TrimStart(line);
    SomeIsNotBlank(line);
    ParseByWord(line);
    var k := TrimEndSplits(v);
    assert v == v[..k] + v[k..];
    WordOfTrimmed(v[..k], v[k..]);
    assert v[..k][..WordEnd(v)] == v[..WordEnd(v)];
    NickOfTrimmed(v[..k], v[k..], WordEnd(v));
  }

  lemma WordOfTrimmed(a: string, b: string)
    requires Blank(b)
    ensures WordEnd(a + b) == WordEnd(a)
  {
    WordEndAppend(a, b);
    WordEndOfBlank(b);
  }

  /** What follows position n, trimmed, is the same with and without the white space at the end. */
  lemma NickOfTrimmed(a: string, b: string, n: nat)
    requires Blank(b) && n <= |a|
    ensures (if n == |a| then "" else Trim(a[n + 1..])) == (if n == |a + b| then "" else Trim((a + b)[n + 1..]))
  {
    hide Trim, IsSpace;
    if n < |a| {
      assert (a + b)[n + 1..] == a[n + 1..] + b;
      TrimBlankTail(a[n + 1..], b);
    } else if n < |a + b| {
      assert (a + b)[n + 1..] == b[1..];
      TrimBlank(b[1..]);
    }
  }

  /** The line of an entry with a key written behind it: the entry survives with another nick, or not at all. */
  lemma JoinedEntry(pre: string, x: Key, t: string)
    requires ParseLine(pre).Some? && (t != "" ==> IsSpace(t[0]))
    ensures var l := ParseLine(pre + Hex(x) + t);
      if KeyAlone(pre) then l.None? else l.Some? && l.value.xPub == ParseLine(pre).value.xPub
  {
    hide ParseLine, TrimStart, Hex, Unhex, IsSpace, WordEnd;
    HexRoundTrip(x);
    HexIsPlain(x);
    SomeIsNotBlank(pre);
    var v, w := TrimStart(pre), Hex(x) + t;
    assert pre + Hex(x) + t == pre + w;
    TrimStartAppend(pre, w);
    ParseByWord(pre);
    NotBlankMore(pre, w);
    ParseByWord(pre + w);
    WordEndAppend(v, w);
    if KeyAlone(pre) {
      WordEndAt(Hex(x), t);
      UnhexLength((v + w)[..WordEnd(v + w)]);
    } else {
      assert (v + w)[..WordEnd(v)] == v[..WordEnd(v)];
      ParseParts(pre);
      ParseParts(pre + w);
    }
  }

  lemma NotBlankMore(a: string, b: string)
    requires !Blank(a)
    ensures !Blank(a + b)
  {
    var i :| 0 <= i < |a| && !IsSpace(a[i]);
    assert (a + b)[i] == a[i];
  }

  /** A key without a nick written behind an entry that survives makes its nick longer. */
  lemma JoinedNick(pre: string, x: Key)
    requires ParseLine(pre).Some? && ParseLine(pre + Hex(x)).Some?
    ensures |ParseLine(pre).value.nick| < |ParseLine(pre + Hex(x)).value.nick|
  {
    hide ParseLine, TrimStart, Hex, Unhex32, IsSpace, WordEnd, Trim;
    var v, h := TrimStart(pre), Hex(x);
    HexRoundTrip(x);
    HexIsPlain(x);
    SomeIsNotBlank(pre);
    JoinedEntry(pre, x, "");
    assert pre + h + "" == pre + h;
    TrimStartAppend(pre, h);
    ParseParts(pre);
    ParseParts(pre + h);
    WordEndAppend(v, h);
    var n := WordEnd(v);
    assert (v + h)[n + 1..] == v[n + 1..] + h;
    TrimEndOfPlain(v[n + 1..], h);
    LongerWithMore(v[n + 1..], h);
  }

  lemma TrimEndOfPlain(a: string, h: string)
    requires h != "" && forall i | 0 <= i < |h| :: !IsSpace(h[i])
    ensures TrimEnd(a + h) == a + h
  {
  }

  // ---------------------------------------------------------------- appending to any file

  /** Appending to a file whose unfinished line is no entry adds entries after the old ones. */
  lemma AppendedGrows(s: string, x: Key, nick: string)
    requires ParseLine(Unfinished(s)).None?
    ensures Entries(Lines(s)) <= Entries(Lines(s + Line(x, nick)))
  {
    hide Segments, Lines, Entries, ParseLine, Hex, SpacedFirst;
    EntriesOfAppended(s, x, nick);
    EntriesUnfinished(s);
    EntriesOfOne(Unfinished(s));
  }

  /** Whatever the file was, after an addition its last line is finished. */
  lemma AppendedIsReady(s: string, x: Key, nick: string)
    ensures Unfinished(s + Line(x, nick)) == "" && ParseLine(Unfinished(s + Line(x, nick))).None?
  {
    EntriesOfAppended(s, x, nick);
    EntriesOfNothing();
  }

  /** Appending a key without a nick to a file whose unfinished line is an entry loses or changes that entry. */
  lemma AppendedChanges(s: string, x: Key)
    requires ParseLine(Unfinished(s)).Some?
    ensures !(Entries(Lines(s)) <= Entries(Lines(s + Line(x, ""))))
  {
    hide Segments, Lines, Entries, ParseLine, Hex, KeyAlone;
    var u, g := Unfinished(s), Segments(s);
    EntriesOfAppended(s, x, "");
    EntriesUnfinished(s);
    EntriesOfOne(u);
    EntriesOfOne(u + Hex(x) + "");
    NoMoreLines();
    assert u + Hex(x) + "" == u + Hex(x);
    if ParseLine(u + Hex(x)).Some? {
      JoinedNick(u, x);
      LastDiffers(Entries(g[..|g| - 1]), ParseLine(u).value, ParseLine(u + Hex(x)).value);
    }
  }

  lemma NoMoreLines()
    ensures Entries(Segments("")[1..]) == []
  {
  }

  lemma LastDiffers(t: seq<Entry>, e: Entry, e': Entry)
    requires e != e'
    ensures !(t + [e] <= t + [e'] + [])
  {
    assert (t + [e])[|t|] != (t + [e'] + [])[|t|];
  }

  /** What appending leaves of an entry on the unfinished line. */
  lemma AppendedJoins(s: string, x: Key, nick: string)
    requires ParseLine(Unfinished(s)).Some?
    ensures var t, t', e := Entries(Lines(s)), Entries(Lines(s + Line(x, nick))), ParseLine(Unfinished(s)).value;
      && t != [] && t[|t| - 1] == e && t[..|t| - 1] <= t'
      && (KeyAlone(Unfinished(s)) ==> t' == t[..|t| - 1] + Entries(Segments(nick)[1..]))
      && (!KeyAlone(Unfinished(s)) ==> |t| <= |t'| && t'[|t| - 1].xPub == e.xPub)
  {
    hide Segments, Lines, Entries, ParseLine, Hex, KeyAlone;
    var u, g := Unfinished(s), Segments(s);
    EntriesOfAppended(s, x, nick);
    EntriesUnfinished(s);
    EntriesOfOne(u);
    EntriesOfOne(u + Hex(x) + SpacedFirst(nick));
    JoinedEntry(u, x, SpacedFirst(nick));
    var a, m := Entries(g[..|g| - 1]), Entries(Segments(nick)[1..]);
    assert Entries(Lines(s)) == a + [ParseLine(u).value];
    assert (a + [ParseLine(u).value])[..|a|] == a;
    assert a + [] + m == a + m;
  }

  /** Adding a key to a table that keeps its keys keeps them, and leaves such a table. */
  lemma AddedKeepsKeys(file: Option<string>, x: Key, nick: string)
    requires KeepsKeys(file)
    ensures KeepsKeys(Added(file, x, nick))
    ensures forall y: Key | Contains(Table(file), y) :: Contains(Table(Added(file, x, nick)), y)
    ensures Table(file) == [] ==> Contains(Table(Added(file, x, nick)), x)
  {
    hide Segments, Lines, Entries, ParseLine, Line, WordEnd, TrimStart, Trim, Blank;
    if !Contains(Table(file), x) {
      AppendedIsReady(Content(file), x, nick);
      AddedStillLists(file, x, nick);
      AddedIsSomething(file, x, nick);
    }
  }

  lemma AddedStillLists(file: Option<string>, x: Key, nick: string)
    requires KeepsKeys(file) && !Contains(Table(file), x)
    ensures forall y: Key | Contains(Table(file), y) :: Contains(Table(Added(file, x, nick)), y)
    ensures Table(file) == [] ==> Contains(Table(Added(file, x, nick)), x)
  {
    hide Segments, Lines, Entries, ParseLine, Line, WordEnd, TrimStart, Trim, Blank, KeyAlone;
    var s := Content(file);
    var t, t' := Entries(Lines(s)), Entries(Lines(s + Line(x, nick)));
    if ParseLine(Unfinished(s)).None? {
      AppendedGrows(s, x, nick);
      ListsMore(t, t');
      if t == [] {
        AppendedLists(s, x, nick);
      }
    } else {
      AppendedJoins(s, x, nick);
      ListsMost(t, t', KeyAlone(Unfinished(s)));
    }
  }

  lemma AppendedLists(s: string, x: Key, nick: string)
    requires Blank(Unfinished(s))
    ensures Contains(Entries(Lines(s + Line(x, nick))), x)
  {
    hide Segments, Lines, Entries, ParseLine, Line, Trim, Blank;
    AppendedTable(s, x, nick);
    assert Entries(Lines(s + Line(x, nick)))[|Entries(Lines(s))|].xPub == x;
  }

  lemma ListsMore(t: seq<Entry>, t': seq<Entry>)
    requires t <= t'
    ensures forall y: Key | Contains(t, y) :: Contains(t', y)
  {
    forall y: Key | Contains(t, y) ensures Contains(t', y) {
      var i :| 0 <= i < |t| && t[i].xPub == y;
      assert t'[i].xPub == y;
    }
  }

  /** A table whose entries but the last are kept, and the last one's key as well. */
  lemma ListsMost(t: seq<Entry>, t': seq<Entry>, lost: bool)
    requires t != [] && t[..|t| - 1] <= t'
    requires lost ==> Contains(t[..|t| - 1], t[|t| - 1].xPub)
    requires !lost ==> |t| <= |t'| && t'[|t| - 1].xPub == t[|t| - 1].xPub
    ensures forall y: Key | Contains(t, y) :: Contains(t', y)
  {
    var n := |t| - 1;
    ListsMore(t[..n], t');
    forall y: Key | Contains(t, y) ensures Contains(t', y) {
      var i :| 0 <= i < |t| && t[i].xPub == y;
      if i < n {
        assert t[..n][i].xPub == y;
        assert Contains(t[..n], y);
      } else if !lost {
        assert t'[n].xPub == y;
      }
    }
  }

  lemma AddedIsSomething(file: Option<string>, x: Key, nick: string)
    requires !Contains(Table(file), x) && Unfinished(Content(Added(file, x, nick))) == ""
    ensures KeepsKeys(Added(file, x, nick))
  {
    hide Segments, Lines, Entries, Line;
    EntriesOfNothing();
  }

  /** The key of a hand-written line without a newline is lost with the next addition, and the table empty again. */
  lemma UnfinishedKeyIsLost(k: Key, x: Key)
    requires k != x
    ensures Table(Some(Hex(k))) == [Entry(k, "")] && Table(Added(Some(Hex(k)), x, "")) == []
  {
    hide Lines, Hex, Unhex, Line, Segments, ParseLine, KeyAlone, Trim;
    KeyLine(k);
    EntriesUnfinished(Hex(k));
    assert [Hex(k)][..0] == [];
    EntriesOfOne(Hex(k));
    assert !Contains(Table(Some(Hex(k))), x);
    AppendedJoins(Hex(k), x, "");
    NoMoreLines();
  }

  lemma KeyLine(k: Key)
    ensures Segments(Hex(k)) == [Hex(k)] && ParseLine(Hex(k)) == Some(Entry(k, "")) && KeyAlone(Hex(k))
  {
    hide Hex, Unhex;
    HexIsPlain(k);
    NoNewline(Hex(k));
    SegmentsOfOneLine(Hex(k));
    assert "" + Hex(k) + "" == Hex(k);
    ParsePrinted("", k, "");
    OnlyKey(k);
  }

  lemma NoNewline(s: string)
    requires forall i | 0 <= i < |s| :: !IsSpace(s[i])
    ensures '\n' !in s
  {
  }

  lemma OnlyKey(k: Key)
    ensures ParseLine(Hex(k)).Some? ==> KeyAlone(Hex(k))
  {
    HexIsPlain(k);
    HexRoundTrip(k);
    WordEndAt(Hex(k), "");
    assert Hex(k) + "" == Hex(k);
  }
}
