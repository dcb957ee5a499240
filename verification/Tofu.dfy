/**
 Trust on first use: `authorize_initiator` of src/tcp.rs over the table of src/authorized.rs, across introductions,
 `usbws authorize` calls and restarts of the gate.
 */
module Tofu {
  import opened Common
  import opened Text
  import opened Authorized
  import opened AuthorizedLaws
  import opened AuthorizedEdited

  /** Whether USBWS_NO_PINNING is set for the gate. */
  const PINNING := true
  const NO_PINNING := false

  datatype Verdict = Verdict(accepted: bool, file: Option<string>)

  /** What becomes of an introduction, and of the file. */
  function Decide(file: Option<string>, x: Key, nick: string, pinning: bool, readable: bool, writable: bool): Verdict {
    if !pinning then Verdict(true, file)
    else if file.Some? && !readable then Verdict(false, file)
    else if Table(file) == [] then Verdict(true, if writable then Added(file, x, nick) else file)
    else Verdict(Contains(Table(file), x), file)
  }

  /** `authorize_initiator`: an unreadable table rejects, a table that cannot be written only warns. */
  method AuthorizeInitiator(store: Store, x: Key, nick: string, pinning: bool, readable: bool, writable: bool)
    returns (accepted: bool)
    modifies store
    ensures Verdict(accepted, store.file) == Decide(old(store.file), x, nick, pinning, readable, writable)
  {
    if !pinning {
      return true;
    }
    var table := store.Load(readable);
    if table.Failed? {
      return false;
    }
    if table.value == [] {
      var _ := store.Add(x, nick, readable, writable);
      return true;
    }
    return Contains(table.value, x);
  }

  // ---------------------------------------------------------------- runs

  /** `readable` and `writable` say whether the file can be read and written at that moment. */
  datatype Event =
    | Introduction(x: Key, nick: string, readable: bool, writable: bool)
    | Authorize(x: Key, nick: string, readable: bool, writable: bool)
    | Restart

  /** `peer` is the initiator the gate process has settled on, `accepted` every initiator it ever accepted. */
  datatype Gate = Gate(file: Option<string>, peer: Option<Key>, accepted: seq<Key>)

  function Start(file: Option<string>): Gate {
    Gate(file, None, [])
  }

  function Step(pinning: bool, g: Gate, e: Event): Gate {
    match e
    case Introduction(x, nick, readable, writable) =>
      if g.peer.Some? then g
      else
        var v := Decide(g.file, x, nick, pinning, readable, writable);
        if v.accepted then Gate(v.file, Some(x), g.accepted + [x]) else g.(file := v.file)
    case Authorize(x, nick, readable, writable) =>
      if (g.file.Some? && !readable) || !writable then g else g.(file := Added(g.file, x, nick))
    case Restart => g.(peer := None)
  }

  function Run(pinning: bool, g: Gate, events: seq<Event>): Gate {
    if events == [] then g else Step(pinning, Run(pinning, g, events[..|events| - 1]), events[|events| - 1])
  }

  /** The gate waits for its peer, is started again, and others authorize keys beside it. */
  method ServeEvents(store: Store, pinning: bool, events: seq<Event>)
    returns (peer: Option<Key>, accepted: seq<Key>)
    modifies store
    ensures Gate(store.file, peer, accepted) == Run(pinning, Start(old(store.file)), events)
  {
    hide Table, Contains;
    peer, accepted := None, [];
    for i := 0 to |events|
      invariant Gate(store.file, peer, accepted) == Run(pinning, Start(old(store.file)), events[..i])
    {
      assert events[..i + 1][..i] == events[..i];
      match events[i]
      case Introduction(x, nick, readable, writable) =>
        if peer.None? {
          var ok := AuthorizeInitiator(store, x, nick, pinning, readable, writable);
          if ok {
            peer, accepted := Some(x), accepted + [x];
          }
        }
      case Authorize(x, nick, readable, writable) =>
        var _ := store.Add(x, nick, readable, writable);
      case Restart =>
        peer := None;
    }
    assert events[..|events|] == events;
  }

  predicate IoWorks(events: seq<Event>) {
    forall i | 0 <= i < |events| :: !events[i].Restart? ==> events[i].readable && events[i].writable
  }

  predicate NoneAuthorized(events: seq<Event>) {
    forall i | 0 <= i < |events| :: !events[i].Authorize?
  }

  // ---------------------------------------------------------------- what runs keep

  /** A property every step keeps holds after every run. */
  lemma {:induction false} RunKeeps(pinning: bool, g: Gate, events: seq<Event>,
                                         keeps: Gate -> bool, allowed: Event -> bool)
    requires keeps(g) && forall i | 0 <= i < |events| :: allowed(events[i])
    requires forall h, e | keeps(h) && allowed(e) :: keeps(Step(pinning, h, e))
    ensures keeps(Run(pinning, g, events))
    decreases |events|
  {
    if events != [] {
      RunKeeps(pinning, g, events[..|events| - 1], keeps, allowed);
    }
  }

  lemma StepGrows(pinning: bool, g: Gate, e: Event)
    requires Safe(g.file)
    ensures Safe(Step(pinning, g, e).file) && Table(g.file) <= Table(Step(pinning, g, e).file)
  {
    hide Segments, Lines, Entries, Line, ParseLine;
    if !e.Restart? && !Contains(Table(g.file), e.x) {
      AppendedGrows(Content(g.file), e.x, e.nick);
      AppendedIsReady(Content(g.file), e.x, e.nick);
    }
  }

  /** A table that lists every key is never added to. */
  lemma FullStays(pinning: bool, g: Gate, e: Event)
    requires ListsAll(Table(g.file))
    ensures Step(pinning, g, e).file == g.file
  {
    hide Segments, Lines, Entries, Line;
  }

  lemma GrowsIfSafe(pinning: bool, g: Gate, events: seq<Event>)
    requires Safe(g.file) || ListsAll(Table(g.file))
    ensures Table(g.file) <= Table(Run(pinning, g, events).file)
  {
    hide Segments, Lines, Entries, Line, Step, Safe;
    if Safe(g.file) {
      var keeps := (h: Gate) => Safe(h.file) && Table(g.file) <= Table(h.file);
      forall h, e | keeps(h) ensures keeps(Step(pinning, h, e)) {
        StepGrows(pinning, h, e);
      }
      RunKeeps(pinning, g, events, keeps, _ => true);
    } else {
      var keeps := (h: Gate) => h.file == g.file;
      forall h, e | keeps(h) ensures keeps(Step(pinning, h, e)) {
        FullStays(pinning, h, e);
      }
      RunKeeps(pinning, g, events, keeps, _ => true);
    }
  }

  /** Authorizing a key without a nick behind an unfinished entry changes what was there. */
  lemma UnsafeChanges(pinning: bool, g: Gate, x: Key)
    requires !Safe(g.file) && !Contains(Table(g.file), x)
    ensures !(Table(g.file) <= Table(Run(pinning, g, [Authorize(x, "", true, true)]).file))
  {
    hide Segments, Lines, Entries, Line, ParseLine, Run;
    RunOne(pinning, g, Authorize(x, "", true, true));
    AppendedChanges(Content(g.file), x);
  }

  /**
   The table only grows, over whole runs of introductions, `usbws authorize` calls and restarts and whatever the nicks
   and failures, if and only if the file's unfinished last line is no entry, or every key is listed already.
   */
  lemma TableOnlyGrows(pinning: bool, g: Gate)
    ensures Safe(g.file) || ListsAll(Table(g.file)) <==>
      forall events :: Table(g.file) <= Table(Run(pinning, g, events).file)
  {
    hide Safe, Table, Run, Content;
    if Safe(g.file) || ListsAll(Table(g.file)) {
      forall events ensures Table(g.file) <= Table(Run(pinning, g, events).file) {
        GrowsIfSafe(pinning, g, events);
      }
    } else {
      var x: Key :| !Contains(Table(g.file), x);
      UnsafeChanges(pinning, g, x);
    }
  }

  /** A file that is one key without a newline: an addition empties the table, and whoever comes next is accepted. */
  lemma UnfinishedFileOpensAgain(k: Key, x: Key, y: Key)
    requires k != x
    ensures var g := Run(PINNING, Start(Some(Hex(k))), [Authorize(x, "", true, true), Introduction(y, "", true, true)]);
      Table(Some(Hex(k))) == [Entry(k, "")] && g.accepted == [y]
  {
    hide Segments, Lines, Entries, Line, Hex, Run;
    UnfinishedKeyIsLost(k, x);
    var a, b := Authorize(x, "", true, true), Introduction(y, "", true, true);
    RunAppend(PINNING, Start(Some(Hex(k))), [a], [b]);
    assert [a] + [b] == [a, b];
    RunOne(PINNING, Start(Some(Hex(k))), a);
    RunOne(PINNING, Step(PINNING, Start(Some(Hex(k))), a), b);
    assert [Entry(k, "")][0].xPub == k;
  }

  ghost predicate AllListed(g: Gate) {
    forall i | 0 <= i < |g.accepted| :: Contains(Table(g.file), g.accepted[i])
  }

  lemma ListedStep(g: Gate, e: Event)
    requires KeepsKeys(g.file) && AllListed(g) && (!e.Restart? ==> e.readable && e.writable)
    ensures KeepsKeys(Step(PINNING, g, e).file) && AllListed(Step(PINNING, g, e))
  {
    hide Segments, Lines, Entries, Line, KeepsKeys;
    if !e.Restart? {
      AddedKeepsKeys(g.file, e.x, e.nick);
    }
  }

  lemma ListedIfKept(g: Gate, events: seq<Event>)
    requires KeepsKeys(g.file) && AllListed(g) && IoWorks(events)
    ensures AllListed(Run(PINNING, g, events))
  {
    hide KeepsKeys, Table, Step, AllListed;
    var keeps := (h: Gate) => KeepsKeys(h.file) && AllListed(h);
    var allowed := (e: Event) => !e.Restart? ==> e.readable && e.writable;
    forall h, e | keeps(h) && allowed(e) ensures keeps(Step(PINNING, h, e)) {
      ListedStep(h, e);
    }
    RunKeeps(PINNING, g, events, keeps, allowed);
  }

  /** On an empty table whose file has unfinished text, a key is accepted and not remembered. */
  lemma NotRemembered(g: Gate, x: Key)
    requires Table(g.file) == [] && !Ready(g.file)
    ensures !AllListed(Run(PINNING, g, [Restart, Introduction(x, "", true, true)]))
  {
    hide Segments, Lines, Entries, Line, Run, Blank;
    var i := Introduction(x, "", true, true);
    RunTwo(g, Restart, i);
    KeyIsLostUnlessReady(Content(g.file), x, "");
    NoMoreLines();
    var h := Step(PINNING, Step(PINNING, g, Restart), i);
    assert h.accepted[|g.accepted|] == x && Table(h.file) == [];
  }

  lemma RunTwo(g: Gate, a: Event, b: Event)
    ensures Run(PINNING, g, [a, b]) == Step(PINNING, Step(PINNING, g, a), b)
  {
    RunAppend(PINNING, g, [a], [b]);
    assert [a] + [b] == [a, b];
    RunOne(PINNING, g, a);
    RunOne(PINNING, Step(PINNING, g, a), b);
  }

  /** An unfinished key is accepted, and then lost with an addition. */
  lemma Forgotten(g: Gate, y: Key)
    requires Table(g.file) != [] && KeyAlone(Unfinished(Content(g.file))) && !Contains(Table(g.file), y)
    requires var t := Table(g.file); !Contains(t[..|t| - 1], t[|t| - 1].xPub)
    ensures var t := Table(g.file);
      var k := t[|t| - 1].xPub;
      !AllListed(Run(PINNING, g, [Restart, Introduction(k, "", true, true), Authorize(y, "", true, true)]))
  {
    hide Segments, Lines, Entries, Line, Run, KeyAlone;
    var t := Table(g.file);
    var k := t[|t| - 1].xPub;
    var i, u := Introduction(k, "", true, true), Authorize(y, "", true, true);
    RunThree(g, Restart, i, u);
    KeyAloneIsEntry(Unfinished(Content(g.file)));
    AppendedJoins(Content(g.file), y, "");
    NoMoreLines();
    var h := Step(PINNING, Step(PINNING, Step(PINNING, g, Restart), i), u);
    assert Contains(t, k);
    assert h.accepted[|g.accepted|] == k && Table(h.file) == t[..|t| - 1];
  }

  lemma KeyAloneIsEntry(line: string)
    requires KeyAlone(line)
    ensures ParseLine(line).Some?
  {
  }

  lemma FindsUnlisted(g: Gate) returns (events: seq<Event>)
    requires !KeepsKeys(g.file)
    ensures IoWorks(events) && !AllListed(Run(PINNING, g, events))
  {
    hide Run, AllListed, KeyAlone, Lines, Entries, Segments;
    var t := Table(g.file);
    if t == [] {
      var x: Key := seq(32, _ => 0);
      NotRemembered(g, x);
      events := [Restart, Introduction(x, "", true, true)];
    } else {
      var y: Key :| !Contains(t, y);
      Forgotten(g, y);
      events := [Restart, Introduction(t[|t| - 1].xPub, "", true, true), Authorize(y, "", true, true)];
    }
  }

  /**
   While the file can be read and written, every initiator accepted so far is in the table, over whole runs, if and
   only if the file keeps its keys: no unfinished text in the way of the first one, and no key that an addition
   behind it would destroy.
   */
  lemma AcceptedAreListed(g: Gate)
    requires AllListed(g)
    ensures KeepsKeys(g.file) <==> forall events | IoWorks(events) :: AllListed(Run(PINNING, g, events))
  {
    hide KeepsKeys, Run, AllListed, IoWorks;
    if KeepsKeys(g.file) {
      forall events | IoWorks(events) ensures AllListed(Run(PINNING, g, events)) {
        ListedIfKept(g, events);
      }
    } else {
      var events := FindsUnlisted(g);
    }
  }

  /** A listed key is accepted by a gate that still waits, if its table can be read, and any other key is not. */
  lemma ListedIsAccepted(g: Gate, x: Key, nick: string, writable: bool)
    requires Table(g.file) != [] && g.peer.None?
    ensures Step(PINNING, g, Introduction(x, nick, true, writable)) ==
      if Contains(Table(g.file), x) then Gate(g.file, Some(x), g.accepted + [x]) else g
  {
  }

  /** An introduction to a gate that waits and can read its table is decided by the table that `g` has. */
  ghost predicate DecidedByTable(g: Gate, events: seq<Event>, i: nat)
    requires i < |events|
  {
    var e, h := events[i], Run(PINNING, g, events[..i]);
    e.Introduction? && e.readable && h.peer.None? ==>
      Run(PINNING, g, events[..i + 1]) ==
        if Contains(Table(g.file), e.x) then Gate(g.file, Some(e.x), h.accepted + [e.x]) else h
  }

  /**
   Once the table has an entry, introductions never change it, only keys it lists are accepted, and a key it lists is
   accepted whenever the gate waits and can read it.
   */
  lemma {:induction false} PinnedTable(g: Gate, events: seq<Event>)
    requires Table(g.file) != [] && NoneAuthorized(events)
    ensures var g' := Run(PINNING, g, events);
      && g'.file == g.file && g.accepted <= g'.accepted
      && forall i | |g.accepted| <= i < |g'.accepted| :: Contains(Table(g.file), g'.accepted[i])
    ensures forall i | 0 <= i < |events| :: DecidedByTable(g, events, i)
    decreases |events|
  {
    hide Step, Table, Contains, DecidedByTable;
    if events != [] {
      var n := |events| - 1;
      PinnedTable(g, events[..n]);
      PinnedStep(g, Run(PINNING, g, events[..n]), events[n]);
    }
    forall i | 0 <= i < |events|
      ensures DecidedByTable(g, events, i)
    {
      PinnedTable(g, events[..i]);
      DecidesByTable(g, events, i);
    }
  }

  lemma DecidesByTable(g: Gate, events: seq<Event>, i: nat)
    requires i < |events| && Table(g.file) != [] && Run(PINNING, g, events[..i]).file == g.file
    ensures DecidedByTable(g, events, i)
  {
    hide Step, Table, Contains;
    var e, h := events[i], Run(PINNING, g, events[..i]);
    assert events[..i + 1][..i] == events[..i];
    if e.Introduction? && e.readable && h.peer.None? {
      ListedIsAccepted(h, e.x, e.nick, e.writable);
    }
  }

  lemma PinnedStep(g: Gate, h: Gate, e: Event)
    requires Table(g.file) != [] && h.file == g.file && !e.Authorize?
    requires g.accepted <= h.accepted
    requires forall i | |g.accepted| <= i < |h.accepted| :: Contains(Table(g.file), h.accepted[i])
    ensures var h' := Step(PINNING, h, e);
      && h'.file == g.file && g.accepted <= h'.accepted
      && forall i | |g.accepted| <= i < |h'.accepted| :: Contains(Table(g.file), h'.accepted[i])
  {
    hide Table, Contains;
  }

  // ---------------------------------------------------------------- at most one key by trust on first use

  /** No line of the nick after its first reads as a table entry for a key other than `x`. */
  predicate NamesOnly(x: Key, nick: string) {
    forall i | 0 <= i < |Entries(Segments(nick)[1..])| :: Entries(Segments(nick)[1..])[i].xPub == x
  }

  /** The line written for `x` will be read: the file is ready for it, or the nick repeats the key on a later line. */
  predicate IsLearned(file: Option<string>, nick: string) {
    Ready(file) || Entries(Segments(nick)[1..]) != []
  }

  /** A run of introductions and restarts on an empty table, whose first event introduces `x`. */
  predicate FirstUse(x: Key, nick: string, events: seq<Event>) {
    && events != [] && events[0] == Introduction(x, nick, true, true)
    && IoWorks(events) && NoneAuthorized(events)
  }

  ghost predicate OnlyAccepts(g: Gate, x: Key) {
    forall i | 0 <= i < |g.accepted| :: g.accepted[i] == x
  }

  lemma {:induction false} RunAppend(pinning: bool, g: Gate, a: seq<Event>, b: seq<Event>)
    ensures Run(pinning, g, a + b) == Run(pinning, Run(pinning, g, a), b)
    decreases |b|
  {
    hide Step;
    if b == [] {
      assert a + b == a;
    } else {
      var b0, e := b[..|b| - 1], b[|b| - 1];
      RunAppend(pinning, g, a, b0);
      assert a + b == (a + b0) + [e] && ((a + b0) + [e])[..|a + b0|] == a + b0;
    }
  }

  lemma RunOne(pinning: bool, g: Gate, e: Event)
    ensures Run(pinning, g, [e]) == Step(pinning, g, e)
  {
    assert [e][..0] == [];
  }

  /** The first introduction is accepted and remembered. */
  lemma FirstUseStep(file: Option<string>, x: Key, nick: string)
    requires Table(file) == []
    ensures Step(PINNING, Start(file), Introduction(x, nick, true, true)) == Gate(Added(file, x, nick), Some(x), [x])
    ensures Added(file, x, nick) == Some(Content(file) + Line(x, nick))
  {
  }

  /** What the table lists after the first introduction. */
  lemma FirstUseTable(file: Option<string>, x: Key, nick: string)
    requires Table(file) == []
    ensures Table(Added(file, x, nick)) == Learned(file, x, nick)
  {
    if Ready(file) {
      AppendedTable(Content(file), x, nick);
      FirstUseStep(file, x, nick);
      EmptyBefore(Table(file), [Entry(x, Trim(First(Segments(nick))))], Entries(Segments(nick)[1..]));
    } else {
      FirstUseStep(file, x, nick);
      KeyIsLostUnlessReady(Content(file), x, nick);
    }
  }

  function Learned(file: Option<string>, x: Key, nick: string): seq<Entry> {
    (if Ready(file) then [Entry(x, Trim(First(Segments(nick))))] else []) + Entries(Segments(nick)[1..])
  }

  lemma EmptyBefore(t: seq<Entry>, u: seq<Entry>, v: seq<Entry>)
    requires t == []
    ensures t + u + v == u + v
  {
  }

  lemma LearnedOnly(file: Option<string>, x: Key, nick: string)
    ensures NamesOnly(x, nick) <==> forall y: Key :: Contains(Learned(file, x, nick), y) ==> y == x
  {
    hide Segments, Entries;
    var t, more := Learned(file, x, nick), Entries(Segments(nick)[1..]);
    if NamesOnly(x, nick) {
      forall y: Key | Contains(t, y) ensures y == x {
        var i :| 0 <= i < |t| && t[i].xPub == y;
        if i >= |t| - |more| {
          assert t[i] == more[i - (|t| - |more|)];
        }
      }
    } else {
      var i :| 0 <= i < |more| && more[i].xPub != x;
      assert t[|t| - |more| + i].xPub == more[i].xPub;
      assert Contains(t, more[i].xPub);
    }
  }

  lemma PinnedToOne(g: Gate, x: Key, events: seq<Event>)
    requires Table(g.file) != [] && (forall y: Key :: Contains(Table(g.file), y) ==> y == x)
    requires OnlyAccepts(g, x) && NoneAuthorized(events)
    ensures OnlyAccepts(Run(PINNING, g, events), x)
  {
    PinnedTable(g, events);
  }

  lemma FirstUseAccepts(file: Option<string>, x: Key, nick: string, events: seq<Event>)
    requires Table(file) == [] && NamesOnly(x, nick) && IsLearned(file, nick) && FirstUse(x, nick, events)
    ensures OnlyAccepts(Run(PINNING, Start(file), events), x)
  {
    hide Segments, Lines, Entries, Trim, Line, IsSpace, Run;
    var g := Gate(Added(file, x, nick), Some(x), [x]);
    FirstUseStep(file, x, nick);
    FirstUseTable(file, x, nick);
    LearnedOnly(file, x, nick);
    RunCons(PINNING, Start(file), events);
    PinnedToOne(g, x, events[1..]);
  }

  lemma RunCons(pinning: bool, g: Gate, events: seq<Event>)
    requires events != []
    ensures Run(pinning, g, events) == Run(pinning, Step(pinning, g, events[0]), events[1..])
  {
    assert events == [events[0]] + events[1..];
    RunAppend(pinning, g, [events[0]], events[1..]);
    RunOne(pinning, g, events[0]);
  }

  /** The run in which a second key, `y`, introduces itself to a restarted gate. */
  function Rivals(x: Key, nick: string, y: Key): seq<Event> {
    [Introduction(x, nick, true, true), Restart, Introduction(y, "", true, true)]
  }

  lemma RivalsAreFirstUse(x: Key, nick: string, y: Key)
    ensures FirstUse(x, nick, Rivals(x, nick, y))
  {
  }

  lemma RivalAccepted(file: Option<string>, x: Key, nick: string, y: Key)
    requires Table(file) == []
    ensures var t := Table(Added(file, x, nick));
      Run(PINNING, Start(file), Rivals(x, nick, y)).accepted == if t == [] || Contains(t, y) then [x, y] else [x]
  {
    hide Segments, Lines, Entries, Trim, Line, IsSpace, Run;
    FirstUseStep(file, x, nick);
    RivalRun(Start(file), Introduction(x, nick, true, true), Gate(Added(file, x, nick), Some(x), [x]), y);
  }

  lemma RivalRun(start: Gate, a: Event, g: Gate, y: Key)
    requires Step(PINNING, start, a) == g
    ensures Run(PINNING, start, [a, Restart, Introduction(y, "", true, true)]).accepted ==
      g.accepted + if Table(g.file) == [] || Contains(Table(g.file), y) then [y] else []
  {
    RunThree(start, a, Restart, Introduction(y, "", true, true));
    RestartedAccepts(g, y);
  }

  lemma RestartedAccepts(g: Gate, y: Key)
    ensures Step(PINNING, Step(PINNING, g, Restart), Introduction(y, "", true, true)).accepted ==
      g.accepted + if Table(g.file) == [] || Contains(Table(g.file), y) then [y] else []
  {
  }

  lemma RunThree(g: Gate, a: Event, b: Event, c: Event)
    ensures Run(PINNING, g, [a, b, c]) == Step(PINNING, Step(PINNING, Step(PINNING, g, a), b), c)
  {
    RunAppend(PINNING, g, [a, b], [c]);
    RunAppend(PINNING, g, [a], [b]);
    assert [a, b] + [c] == [a, b, c] && [a] + [b] == [a, b];
    RunOne(PINNING, g, a);
    RunOne(PINNING, Step(PINNING, g, a), b);
    RunOne(PINNING, Step(PINNING, Step(PINNING, g, a), b), c);
  }

  /**
   From an empty table and without `usbws authorize`, one key alone is ever accepted, over any number of
   introductions and restarts, if and only if its line in the file is read back and no later line of the first nick
   names another key.
   */
  lemma AtMostOneKey(file: Option<string>, x: Key, nick: string)
    requires Table(file) == []
    ensures NamesOnly(x, nick) && IsLearned(file, nick) <==>
      forall events | FirstUse(x, nick, events) :: OnlyAccepts(Run(PINNING, Start(file), events), x)
  {
    if NamesOnly(x, nick) && IsLearned(file, nick) {
      forall events | FirstUse(x, nick, events) ensures OnlyAccepts(Run(PINNING, Start(file), events), x) {
        FirstUseAccepts(file, x, nick, events);
      }
    } else {
      var y := AnotherKey(file, x, nick);
      RivalAccepted(file, x, nick, y);
      RivalsAreFirstUse(x, nick, y);
      assert !OnlyAccepts(Run(PINNING, Start(file), Rivals(x, nick, y)), x) by {
        assert Run(PINNING, Start(file), Rivals(x, nick, y)).accepted[1] == y;
      }
    }
  }

  lemma AnotherKey(file: Option<string>, x: Key, nick: string) returns (y: Key)
    requires Table(file) == [] && !(NamesOnly(x, nick) && IsLearned(file, nick))
    ensures var t := Table(Added(file, x, nick));
      y != x && (t == [] || Contains(t, y))
  {
    FirstUseTable(file, x, nick);
    y := NotOnly(file, x, nick);
  }

  lemma NotOnly(file: Option<string>, x: Key, nick: string) returns (y: Key)
    requires !(NamesOnly(x, nick) && IsLearned(file, nick))
    ensures y != x && (Learned(file, x, nick) == [] || Contains(Learned(file, x, nick), y))
  {
    if NamesOnly(x, nick) {
      y := x[0 := if x[0] == 0 then 1 else 0];
      assert y[0] != x[0];
    } else {
      LearnedOnly(file, x, nick);
      y :| Contains(Learned(file, x, nick), y) && y != x;
    }
  }

  /** For a nick on one line it is the file that decides: its last line must be finished or blank. */
  lemma AtMostOneKeyForPlainNicks(file: Option<string>, x: Key, nick: string)
    requires Table(file) == [] && OneLine(nick)
    ensures Ready(file) <==>
      forall events | FirstUse(x, nick, events) :: OnlyAccepts(Run(PINNING, Start(file), events), x)
  {
    OneLineReads(nick);
    AtMostOneKey(file, x, nick);
  }

  /** A nick of two lines whose second is a key: that key is then accepted as well. */
  lemma TwoLineNickListsTwoKeys(x: Key, y: Key)
    requires x != y
    ensures Run(PINNING, Start(None), Rivals(x, "a\n" + Hex(y), y)).accepted == [x, y]
  {
    hide Segments, Lines, Entries, Trim, Hex, IsSpace, Run;
    EntriesOfNothing();
    assert Ready(None) && Table(None) == [];
    TwoLineNick(y);
    FirstUseTable(None, x, "a\n" + Hex(y));
    var t := Table(Added(None, x, "a\n" + Hex(y)));
    assert t[1].xPub == y;
    assert Contains(t, y);
    RivalAccepted(None, x, "a\n" + Hex(y), y);
  }

  lemma TwoLineNick(y: Key)
    ensures Entries(Segments("a\n" + Hex(y))[1..]) == [Entry(y, "")]
  {
    HexIsPlain(y);
    TwoLineSegments(Hex(y));
    EntriesOfOne(Hex(y));
    ParsePrinted("", y, "");
    assert "" + Hex(y) + "" == Hex(y);
  }

  lemma TwoLineSegments(s: string)
    requires '\n' !in s
    ensures Segments("a\n" + s)[1..] == [s]
  {
    SegmentsOfOneLine("a");
    SegmentsOfFinished("a");
    SegmentsAppend("a\n", s);
    SegmentsOfOneLine(s);
    assert "" + s == s;
  }

  // ---------------------------------------------------------------- gates that do not remember

  /** An introduction makes a gate that waits accept it, and never changes the file. */
  ghost predicate Welcomed(g: Gate, events: seq<Event>, i: nat)
    requires i < |events|
  {
    var e, h := events[i], Run(NO_PINNING, g, events[..i]);
    e.Introduction? ==>
      Run(NO_PINNING, g, events[..i + 1]) == if h.peer.None? then Gate(h.file, Some(e.x), h.accepted + [e.x]) else h
  }

  /** Without pinning, whatever the file lists and whether or not it can be read, whoever comes first is the peer. */
  lemma {:induction false} NoPinningWelcomesAll(g: Gate, events: seq<Event>)
    ensures forall i | 0 <= i < |events| :: Welcomed(g, events, i)
    ensures NoneAuthorized(events) ==> Run(NO_PINNING, g, events).file == g.file
    decreases |events|
  {
    hide Table, Contains;
    if events != [] {
      NoPinningWelcomesAll(g, events[..|events| - 1]);
    }
    forall i | 0 <= i < |events| ensures Welcomed(g, events, i) {
      assert events[..i + 1][..i] == events[..i];
    }
  }

  /** Nobody introduces himself while the file could be written. */
  predicate NeverWritable(g: Gate, events: seq<Event>) {
    forall i | 0 <= i < |events| && events[i].Introduction? ::
      !events[i].writable && (g.file.Some? ==> events[i].readable)
  }

  /** A gate that cannot write its empty table is as open as one without pinning. */
  lemma {:induction false} UnwritableIsOpen(g: Gate, events: seq<Event>)
    requires Table(g.file) == [] && NoneAuthorized(events) && NeverWritable(g, events)
    ensures Run(PINNING, g, events) == Run(NO_PINNING, g, events)
    decreases |events|
  {
    hide Table, Contains;
    if events != [] {
      var before := events[..|events| - 1];
      UnwritableIsOpen(g, before);
      NoPinningWelcomesAll(g, before);
    }
  }

  /** A gate that cannot read its file accepts nobody. */
  lemma {:induction false} UnreadableIsShut(g: Gate, events: seq<Event>)
    requires g.file.Some? && NoneAuthorized(events)
    requires forall i | 0 <= i < |events| && events[i].Introduction? :: !events[i].readable
    ensures var g' := Run(PINNING, g, events); g'.file == g.file && g'.accepted == g.accepted
    decreases |events|
  {
    hide Table, Contains;
    if events != [] {
      UnreadableIsShut(g, events[..|events| - 1]);
    }
  }

  /** A gate that has its peer keeps it until it is restarted; introductions then change nothing. */
  lemma {:induction false} SettledUntilRestart(pinning: bool, g: Gate, events: seq<Event>)
    requires g.peer.Some? && forall i | 0 <= i < |events| :: !events[i].Restart?
    ensures var g' := Run(pinning, g, events); g'.peer == g.peer && g'.accepted == g.accepted
    ensures NoneAuthorized(events) ==> Run(pinning, g, events) == g
    decreases |events|
  {
    hide Table, Contains;
    if events != [] {
      SettledUntilRestart(pinning, g, events[..|events| - 1]);
    }
  }

  // ---------------------------------------------------------------- the file as a table

  /** The gate as it would be with a table in memory. */
  datatype Ideal = Ideal(table: seq<Entry>, peer: Option<Key>, accepted: seq<Key>)

  function Abstract(g: Gate): Ideal {
    Ideal(Table(g.file), g.peer, g.accepted)
  }

  function IdealStep(pinning: bool, s: Ideal, e: Event): Ideal {
    match e
    case Restart => s.(peer := None)
    case Authorize(x, nick, _, _) => s.(table := Insert(s.table, Entry(x, nick)))
    case Introduction(x, nick, _, _) =>
      if s.peer.Some? then s
      else if !pinning then s.(peer := Some(x), accepted := s.accepted + [x])
      else if s.table == [] then Ideal([Entry(x, Trim(nick))], Some(x), s.accepted + [x])
      else if exists i | 0 <= i < |s.table| :: s.table[i].xPub == x then
        s.(peer := Some(x), accepted := s.accepted + [x])
      else s
  }

  function IdealRun(pinning: bool, s: Ideal, events: seq<Event>): Ideal {
    if events == [] then s
    else IdealStep(pinning, IdealRun(pinning, s, events[..|events| - 1]), events[|events| - 1])
  }

  predicate PlainNicks(events: seq<Event>) {
    forall i | 0 <= i < |events| :: !events[i].Restart? ==> OneLine(events[i].nick)
  }

  /**
   While the file can be read and written, the gate with its file does in every run what it would do with a table in
   memory, to which keys are added once, with their trimmed nicks: in both modes, if the file's last line is
   finished or blank at the start and the nicks stay on one line.
   */
  lemma {:induction false} FileIsAsGoodAsTable(pinning: bool, g: Gate, events: seq<Event>)
    requires Ready(g.file) && IoWorks(events) && PlainNicks(events)
    ensures Abstract(Run(pinning, g, events)) == IdealRun(pinning, Abstract(g), events)
    ensures Ready(Run(pinning, g, events).file)
    decreases |events|
  {
    hide Ready, Table, Step, IdealStep, Abstract;
    if events != [] {
      var n := |events| - 1;
      FileIsAsGoodAsTable(pinning, g, events[..n]);
      FileStep(pinning, Run(pinning, g, events[..n]), events[n]);
    }
  }

  lemma FileStep(pinning: bool, g: Gate, e: Event)
    requires Ready(g.file) && (!e.Restart? ==> e.readable && e.writable && OneLine(e.nick))
    ensures Abstract(Step(pinning, g, e)) == IdealStep(pinning, Abstract(g), e) && Ready(Step(pinning, g, e).file)
  {
    hide Ready, Table, Trim, OneLine;
    if !e.Restart? {
      AddedIsReady(g.file, e.x, e.nick);
      if !Contains(Table(g.file), e.x) {
        NickIsKeptIffOneLine(g.file, e.x, e.nick);
      }
    }
  }
}
