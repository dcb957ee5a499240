/** The text file of src/authorized.rs refines an ordered map from keys to nicks. */
module AuthorizedLaws {
  import opened Common
  import opened Text
  import opened Authorized

  /** The file is missing, or its last line is finished or blank. */
  predicate Ready(file: Option<string>) {
    Blank(Unfinished(Content(file)))
  }

  // ---------------------------------------------------------------- one addition

  /** On a file that is ready, a new key is added with its trimmed nick exactly if the nick stays on one line. */
  lemma NickIsKeptIffOneLine(file: Option<string>, x: Key, nick: string)
    requires Ready(file) && !Contains(Table(file), x)
    ensures Table(Added(file, x, nick)) == Table(file) + [Entry(x, Trim(nick))] <==> OneLine(nick)
  {
    AppendedTable(Content(file), x, nick);
    if OneLine(nick) {
      OneLineReads(nick);
    } else {
      SeveralLinesRead(nick);
      var t := Table(Added(file, x, nick));
      assert t[|Table(file)|] == Entry(x, Trim(First(Segments(nick))));
    }
  }

  lemma {:induction false} WordEndAppend(a: string, b: string)
    ensures WordEnd(a + b) == if WordEnd(a) < |a| then WordEnd(a) else |a| + WordEnd(b)
    decreases |a|
  {
    if a == "" {
      assert a + b == b;
    } else {
      assert (a + b)[1..] == a[1..] + b;
      WordEndAppend(a[1..], b);
    }
  }

  lemma WordEndOfBlank(a: string)
    requires Blank(a)
    ensures WordEnd(a) == 0
  {
  }

  /** Whether a line gives an entry depends on its first word alone. */
  lemma ParseByWord(line: string)
    requires !Blank(line)
    ensures var v := TrimStart(line);
      v != "" && (ParseLine(line).Some? <==> v[0] != '#' && Unhex32(v[..WordEnd(v)]).Some?)
  {
    var v := TrimStart(line);
    TrimBlank(line);
    var k := TrimEndSplits(v);
    assert v == v[..k] + v[k..];
    WordEndAppend(v[..k], v[k..]);
    WordEndOfBlank(v[k..]);
    assert Trim(line)[..WordEnd(v)] == v[..WordEnd(v)];
  }

  /** A key appended to text on the same line is lost, or at best becomes part of the nick before it. */
  lemma JoinedLine(pre: string, x: Key, t: string)
    requires !Blank(pre) && (t != "" ==> IsSpace(t[0]))
    requires ParseLine(pre + Hex(x) + t).Some?
    ensures ParseLine(pre).Some?
  {
    hide ParseLine, TrimStart, Hex, Unhex, IsSpace, WordEnd;
    HexRoundTrip(x);
    HexIsPlain(x);
    var v, w := TrimStart(pre), Hex(x) + t;
    assert pre + Hex(x) + t == pre + w;
    TrimStartAppend(pre, w);
    ParseByWord(pre);
    assert Blank(pre + w) ==> Blank(pre) by {
      assert forall i | 0 <= i < |pre| :: pre[i] == (pre + w)[i];
    }
    ParseByWord(pre + w);
    WordEndAppend(v, w);
    if WordEnd(v) < |v| {
      assert (v + w)[..WordEnd(v)] == v[..WordEnd(v)];
    } else {
      WordEndAt(Hex(x), t);
      UnhexLength((v + w)[..WordEnd(v + w)]);
    }
  }

  /** For a nick on one line, a new key is added exactly if the file's last line was finished or blank. */
  lemma KeyIsAddedIffReady(file: Option<string>, x: Key, nick: string)
    requires OneLine(nick) && !Contains(Table(file), x)
    ensures Table(Added(file, x, nick)) == Table(file) + [Entry(x, Trim(nick))] <==> Ready(file)
  {
    if Ready(file) {
      NickIsKeptIffOneLine(file, x, nick);
    } else {
      var u := Unfinished(Content(file));
      EntriesOfAppended(Content(file), x, nick);
      EntriesUnfinished(Content(file));
      OneLineReads(nick);
      EntriesOfOne(u);
      EntriesOfOne(u + Hex(x) + SpacedFirst(nick));
      if ParseLine(u + Hex(x) + SpacedFirst(nick)).Some? {
        JoinedLine(u, x, SpacedFirst(nick));
      }
      assert |Table(Added(file, x, nick))| <= |Table(file)|;
    }
  }

  lemma JoinedEntries(u: string, x: Key, nick: string)
    requires !Blank(u) && Entries([u]) == []
    ensures Entries([u + Hex(x) + SpacedFirst(nick)]) == []
  {
    EntriesOfOne(u);
    EntriesOfOne(u + Hex(x) + SpacedFirst(nick));
    if ParseLine(u + Hex(x) + SpacedFirst(nick)).Some? {
      JoinedLine(u, x, SpacedFirst(nick));
    }
  }

  /** From an empty table, a key appended to unfinished text is lost; later lines of the nick are read. */
  lemma KeyIsLostUnlessReady(s: string, x: Key, nick: string)
    requires Entries(Lines(s)) == [] && !Blank(Unfinished(s))
    ensures Entries(Lines(s + Line(x, nick))) == Entries(Segments(nick)[1..])
  {
    EntriesOfAppended(s, x, nick);
    EntriesUnfinished(s);
    JoinedEntries(Unfinished(s), x, nick);
  }

  // ---------------------------------------------------------------- any number of additions

  function Insert(t: seq<Entry>, e: Entry): seq<Entry> {
    if Contains(t, e.xPub) then t else t + [Entry(e.xPub, Trim(e.nick))]
  }

  function InsertAll(t: seq<Entry>, adds: seq<Entry>): seq<Entry> {
    if adds == [] then t else Insert(InsertAll(t, adds[..|adds| - 1]), adds[|adds| - 1])
  }

  /** The file after a sequence of `add` calls. */
  function AddAll(file: Option<string>, adds: seq<Entry>): Option<string> {
    if adds == [] then file
    else
      var e := adds[|adds| - 1];
      Added(AddAll(file, adds[..|adds| - 1]), e.xPub, e.nick)
  }

  lemma AddedIsReady(file: Option<string>, x: Key, nick: string)
    requires Ready(file)
    ensures Ready(Added(file, x, nick))
    ensures NewlineEnded(Content(file)) ==> NewlineEnded(Content(Added(file, x, nick)))
  {
    EntriesOfAppended(Content(file), x, nick);
  }

  /** Appending lines to the file is inserting into the table, and keeps the file newline-terminated. */
  lemma {:induction false} AddsRefineInserts(file: Option<string>, adds: seq<Entry>)
    requires Ready(file) && forall i | 0 <= i < |adds| :: OneLine(adds[i].nick)
    ensures Ready(AddAll(file, adds))
    ensures Table(AddAll(file, adds)) == InsertAll(Table(file), adds)
    ensures NewlineEnded(Content(file)) ==> NewlineEnded(Content(AddAll(file, adds)))
    decreases |adds|
  {
    if adds != [] {
      var before, e := adds[..|adds| - 1], adds[|adds| - 1];
      AddsRefineInserts(file, before);
      AddedIsReady(AddAll(file, before), e.xPub, e.nick);
      if !Contains(Table(AddAll(file, before)), e.xPub) {
        NickIsKeptIffOneLine(AddAll(file, before), e.xPub, e.nick);
      }
    }
  }

  /** The position of the first addition of a key. */
  function FirstAdd(adds: seq<Entry>, x: Key): (i: nat)
    ensures i <= |adds| && (i < |adds| ==> adds[i].xPub == x)
    ensures forall j | 0 <= j < i :: adds[j].xPub != x
  {
    if adds == [] then 0
    else
      var i := FirstAdd(adds[..|adds| - 1], x);
      if i < |adds| - 1 || adds[|adds| - 1].xPub == x then i else |adds|
  }

  /** `r` is `t` followed by each key `t` lacks once, in the order of first addition, with its first nick. */
  ghost predicate FirstsAfter(t: seq<Entry>, adds: seq<Entry>, r: seq<Entry>) {
    && t <= r
    && (forall j | 0 <= j < |adds| :: Contains(r, adds[j].xPub))
    && (forall i | |t| <= i < |r| :: !Contains(t, r[i].xPub))
    && (forall i | |t| <= i < |r| ::
          var f := FirstAdd(adds, r[i].xPub);
          f < |adds| && r[i].nick == Trim(adds[f].nick))
    && (forall i, j | |t| <= i < j < |r| :: FirstAdd(adds, r[i].xPub) < FirstAdd(adds, r[j].xPub))
  }

  lemma ContainsMore(t: seq<Entry>, u: seq<Entry>, x: Key)
    ensures Contains(t + u, x) <==> Contains(t, x) || Contains(u, x)
  {
    if Contains(t, x) {
      var i :| 0 <= i < |t| && t[i].xPub == x;
      assert (t + u)[i] == t[i];
    }
    if Contains(u, x) {
      var i :| 0 <= i < |u| && u[i].xPub == x;
      assert (t + u)[|t| + i] == u[i];
    }
  }

  lemma FirstAddStays(adds: seq<Entry>, e: Entry, x: Key)
    ensures FirstAdd(adds, x) < |adds| ==> FirstAdd(adds + [e], x) == FirstAdd(adds, x)
    ensures (forall j | 0 <= j < |adds| :: adds[j].xPub != e.xPub) ==> FirstAdd(adds + [e], e.xPub) == |adds|
  {
    assert (adds + [e])[..|adds|] == adds;
  }

  /** One more addition does not move the first addition of a key added before. */
  lemma FirstsStay(t: seq<Entry>, adds: seq<Entry>, r: seq<Entry>, e: Entry)
    requires FirstsAfter(t, adds, r)
    ensures forall i | |t| <= i < |r| ::
      var f := FirstAdd(adds + [e], r[i].xPub);
      f == FirstAdd(adds, r[i].xPub) && f < |adds| && r[i].nick == Trim((adds + [e])[f].nick)
  {
    forall i | |t| <= i < |r| ensures FirstAdd(adds + [e], r[i].xPub) == FirstAdd(adds, r[i].xPub) {
      FirstAddStays(adds, e, r[i].xPub);
    }
  }

  lemma AllContained(adds: seq<Entry>, r: seq<Entry>, e: Entry)
    requires forall j | 0 <= j < |adds| :: Contains(r, adds[j].xPub)
    ensures forall j | 0 <= j < |adds + [e]| :: Contains(Insert(r, e), (adds + [e])[j].xPub)
  {
    forall j | 0 <= j < |adds + [e]| ensures Contains(Insert(r, e), (adds + [e])[j].xPub) {
      InsertContains(r, e, (adds + [e])[j].xPub);
    }
  }

  lemma NewKey(t: seq<Entry>, adds: seq<Entry>, r: seq<Entry>, e: Entry)
    requires FirstsAfter(t, adds, r) && !Contains(r, e.xPub)
    ensures !Contains(t, e.xPub) && FirstAdd(adds + [e], e.xPub) == |adds|
  {
    hide FirstAdd, Trim;
    assert t + r[|t|..] == r;
    ContainsMore(t, r[|t|..], e.xPub);
    FirstAddStays(adds, e, e.xPub);
  }

  lemma FirstsAfterInsert(t: seq<Entry>, adds: seq<Entry>, r: seq<Entry>, e: Entry)
    requires FirstsAfter(t, adds, r)
    ensures FirstsAfter(t, adds + [e], Insert(r, e))
  {
    hide FirstAdd, Trim, Contains;
    AllContained(adds, r, e);
    FirstsStay(t, adds, r, e);
    if !Contains(r, e.xPub) {
      NewKey(t, adds, r, e);
    }
  }

  lemma InsertContains(r: seq<Entry>, e: Entry, x: Key)
    ensures Contains(Insert(r, e), x) <==> Contains(r, x) || x == e.xPub
  {
    if !Contains(r, e.xPub) {
      ContainsMore(r, [Entry(e.xPub, Trim(e.nick))], x);
      assert Contains([Entry(e.xPub, Trim(e.nick))], x) <==> x == e.xPub by {
        assert [Entry(e.xPub, Trim(e.nick))][0].xPub == e.xPub;
      }
    }
  }

  lemma {:induction false} InsertsAreFirsts(t: seq<Entry>, adds: seq<Entry>)
    ensures FirstsAfter(t, adds, InsertAll(t, adds))
    decreases |adds|
  {
    if adds != [] {
      var before := adds[..|adds| - 1];
      InsertsAreFirsts(t, before);
      FirstsAfterInsert(t, before, InsertAll(t, before), adds[|adds| - 1]);
      assert before + [adds[|adds| - 1]] == adds;
    }
  }

  /** The authorized table refines an ordered map, over any sequence of `add` calls. */
  lemma TableIsAnOrderedMap(file: Option<string>, adds: seq<Entry>)
    requires Ready(file) && forall i | 0 <= i < |adds| :: OneLine(adds[i].nick)
    ensures FirstsAfter(Table(file), adds, Table(AddAll(file, adds)))
    ensures NewlineEnded(Content(file)) ==> NewlineEnded(Content(AddAll(file, adds)))
  {
    AddsRefineInserts(file, adds);
    InsertsAreFirsts(Table(file), adds);
  }

  // ---------------------------------------------------------------- printing and reading again

  /** A nick as `load` returns it. */
  predicate Clean(nick: string) {
    Trim(nick) == nick && '\n' !in nick
  }

  lemma ParsedIsClean(line: string)
    requires '\n' !in line
    ensures ParseLine(line).Some? ==> Clean(ParseLine(line).value.nick)
  {
    hide IsSpace, Unhex32;
    var l := Trim(line);
    TrimmedIsClean(line);
    var n := WordEnd(l);
    if n < |l| {
      TrimmedIsClean(l[n + 1..]);
    } else {
      TrimmedIsClean("");
    }
  }

  lemma TrimmedIsClean(s: string)
    requires '\n' !in s
    ensures Clean(Trim(s))
  {
    hide Trim;
    var i, j := TrimShape(s);
    TrimIdempotent(s);
  }

  lemma {:induction false} EntriesAreClean(lines: seq<string>)
    requires forall i | 0 <= i < |lines| :: '\n' !in lines[i]
    ensures forall i | 0 <= i < |Entries(lines)| :: Clean(Entries(lines)[i].nick)
    decreases |lines|
  {
    if lines != [] {
      EntriesAreClean(lines[..|lines| - 1]);
      ParsedIsClean(lines[|lines| - 1]);
    }
  }

  lemma CleanIsOneLine(nick: string)
    requires Clean(nick)
    ensures OneLine(nick)
  {
    var k := TrimEndSplits(nick);
  }

  lemma PrintedMore(s: string, e: Entry)
    requires Unfinished(s) == "" && Clean(e.nick)
    ensures Unfinished(s + Line(e.xPub, e.nick)) == ""
    ensures Entries(Lines(s + Line(e.xPub, e.nick))) == Entries(Lines(s)) + [e]
  {
    CleanIsOneLine(e.nick);
    OneLineReads(e.nick);
    AppendedTable(s, e.xPub, e.nick);
    EntriesOfAppended(s, e.xPub, e.nick);
  }

  lemma {:induction false} PrintedReadsBack(t: seq<Entry>)
    requires forall i | 0 <= i < |t| :: Clean(t[i].nick)
    ensures Unfinished(Printed(t)) == "" && Entries(Lines(Printed(t))) == t
    decreases |t|
  {
    hide Segments, Lines, Entries, Trim, Line;
    if t != [] {
      PrintedReadsBack(t[..|t| - 1]);
      PrintedMore(Printed(t[..|t| - 1]), t[|t| - 1]);
    } else {
      EntriesOfNothing();
    }
  }

  /** What `print_table` prints of any file reads back as the table of that file. */
  lemma PrintReload(file: Option<string>)
    ensures Table(Some(Printed(Table(file)))) == Table(file)
  {
    SegmentsHaveNoNewline(Content(file));
    EntriesOfLines(Content(file));
    EntriesAreClean(Segments(Content(file)));
    PrintedReadsBack(Table(file));
  }
}
