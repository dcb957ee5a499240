/** What runs of the serial bridge may and may not do: who waits for what, being down, and exiting. */
module BridgeRuns {
  import opened Common
  import opened Bridge

  // ---------------------------------------------------------------- waiting

  /**
   In every reachable state both queues hold at most 256 chunks, and the two waits of a process are for room in
   them alone; a device may deliver any chunk of up to 4096 bytes.
   */
  lemma WaitsForRoomOnly(acts: seq<Action>, side: Side, chunk: Chunk)
    requires Legal(Init(), acts)
    ensures var s := After(Init(), acts);
      var e := s.At(side);
      && |e.devQ| <= 256 && |e.netQ| <= 256
      && (e.rd.Handing? ==> (Enabled(s, Hand(side)) <==> |e.devQ| < 256))
      && (e.held.Some? ==> (Enabled(s, Deliver(side)) <==> e.failed || |e.netQ| < 256))
      && (e.rd.Reading? ==> (Enabled(s, Read(side, Bytes(chunk))) <==> 1 <= |chunk| <= 4096))
      && (!e.failed && |e.netQ| == 256 ==> Enabled(s, Write(side)))
  {
    hide Legal, After, Direction;
    InvInit();
    InvAlways(Init(), acts);
  }

  // ---------------------------------------------------------------- an end that is down, and one that has exited

  /** The steps for which the session loop has to be connected. */
  predicate Online(a: Action) {
    a.Send? || a.SendFail? || a.Take? || a.Exit? || a.Disconnect?
  }

  /** An end that has lost its connection sends and takes nothing until it reconnects, and keeps what it has to send. */
  lemma DownUntilReconnect(s: State, a: Action, acts: seq<Action>)
    requires Enabled(s, a) && (a.Disconnect? || a.SendFail?) && Legal(Next(s, a), acts)
    requires Reconnect(a.side) !in acts
    ensures var e, e' := Next(s, a).At(a.side), After(Next(s, a), acts).At(a.side);
      !e'.up && !e'.exited && e.devQ <= e'.devQ && e'.held == None
    ensures forall i | 0 <= i < |acts| && acts[i].side == a.side :: !Online(acts[i]) && !acts[i].Deliver?
  {
    StaysDown(Next(s, a), acts, a.side);
  }

  lemma {:induction false} StaysDown(s: State, acts: seq<Action>, side: Side)
    requires Legal(s, acts) && Reconnect(side) !in acts && !s.At(side).up && s.At(side).held == None
    ensures var e, e' := s.At(side), After(s, acts).At(side);
      !e'.up && e'.exited == e.exited && e.devQ <= e'.devQ && e'.held == None
    ensures forall i | 0 <= i < |acts| && acts[i].side == side :: !Online(acts[i]) && !acts[i].Deliver?
    decreases |acts|
  {
    hide Enabled, Next, Online;
    if acts != [] {
      DownStep(s, acts[0], side);
      StaysDown(Next(s, acts[0]), acts[1..], side);
    }
  }

  lemma DownStep(s: State, a: Action, side: Side)
    requires Enabled(s, a) && a != Reconnect(side) && !s.At(side).up && s.At(side).held == None
    ensures var e, e' := s.At(side), Next(s, a).At(side);
      !e'.up && e'.exited == e.exited && e.devQ <= e'.devQ && e'.held == None
    ensures a.side == side ==> !Online(a) && !a.Deliver?
  {
  }

  /**
   A bridge that exits has exited for good: of its tasks only the writer thread goes on with what it has, nothing
   more is read or sent, and what it sent before can only be taken or lost.
   */
  lemma ExitIsForGood(s: State, side: Side, acts: seq<Action>)
    requires Enabled(s, Exit(side)) && Legal(Next(s, Exit(side)), acts)
    ensures var s' := After(Next(s, Exit(side)), acts);
      var e, e' := s.At(side), s'.At(side);
      && e'.exited && !e'.up && e'.got == e.got && e'.devQ == [] && |s'.Wire(side)| <= |s.Wire(side)|
    ensures forall i | 0 <= i < |acts| && acts[i].side == side :: acts[i].Write? || acts[i].Fail? || acts[i].Lose?
  {
    StaysExited(Next(s, Exit(side)), acts, side);
  }

  ghost predicate HasExited(e: End) {
    e.exited && !e.up && e.devQ == [] && e.rd.Over? && e.held == None
  }

  lemma {:induction false} StaysExited(s: State, acts: seq<Action>, side: Side)
    requires Legal(s, acts) && HasExited(s.At(side))
    ensures var s' := After(s, acts);
      HasExited(s'.At(side)) && s'.At(side).got == s.At(side).got && |s'.Wire(side)| <= |s.Wire(side)|
    ensures forall i | 0 <= i < |acts| && acts[i].side == side :: acts[i].Write? || acts[i].Fail? || acts[i].Lose?
    decreases |acts|
  {
    hide Enabled, Next, HasExited;
    if acts != [] {
      ExitedStep(s, acts[0], side);
      StaysExited(Next(s, acts[0]), acts[1..], side);
    }
  }

  lemma ExitedStep(s: State, a: Action, side: Side)
    requires Enabled(s, a) && HasExited(s.At(side))
    ensures var s' := Next(s, a);
      HasExited(s'.At(side)) && s'.At(side).got == s.At(side).got && |s'.Wire(side)| <= |s.Wire(side)|
    ensures a.side == side ==> a.Write? || a.Fail? || a.Lose?
  {
  }

  // ---------------------------------------------------------------- getting there

  lemma Prepend(s: State, a: Action, acts: seq<Action>)
    requires Enabled(s, a) && Legal(Next(s, a), acts)
    ensures Legal(s, [a] + acts) && After(s, [a] + acts) == After(Next(s, a), acts)
  {
    assert ([a] + acts)[1..] == acts;
  }

  /** Sending what is queued and then exiting. */
  function Leaving(side: Side, n: nat): seq<Action> {
    if n == 0 then [Exit(side)] else [Send(side)] + Leaving(side, n - 1)
  }

  function Departed(e: End): End {
    e.(devQ := [], up := false, exited := true)
  }

  /** Once its device has ended, a bridge can send all it has queued, in order, and exit. */
  lemma {:induction false} LeavesInSteps(s: State, side: Side)
    requires AtSelect(s.At(side)) && s.At(side).rd.Over?
    ensures var e, acts := s.At(side), Leaving(side, |s.At(side).devQ|);
      && Legal(s, acts)
      && After(s, acts) == s.With(side, Departed(e)).WithWire(side, s.Wire(side) + e.devQ)
      && After(s, acts).At(side).exited
    decreases |s.At(side).devQ|
  {
    var e, w := s.At(side), s.Wire(side);
    if e.devQ == [] {
      assert w + [] == w;
    } else {
      var s' := Next(s, Send(side));
      LeavesInSteps(s', side);
      Prepend(s, Send(side), Leaving(side, |e.devQ| - 1));
      assert w + [e.devQ[0]] + e.devQ[1..] == w + e.devQ;
    }
  }

  predicate Ends(script: seq<Outcome>) {
    exists i | 0 <= i < |script| :: script[i] == Eof || script[i] == OtherError
  }

  /** Both ends are connected and have nothing to do from near to far. */
  ghost predicate AtRest(s: State) {
    && AtSelect(s.near) && AtSelect(s.far) && s.near.rd.Reading?
    && s.near.devQ == [] && s.outward == [] && s.far.netQ == [] && !s.far.failed
  }

  /** The state after one outcome has been dealt with to the end. */
  function Passed(s: State, o: Outcome): State {
    if !o.Bytes? then s
    else
      s.(near := s.near.(got := s.near.got + [o.chunk]),
         far := s.far.(written := s.far.written + [Item(|s.near.got|, o.chunk)]))
  }

  function PassSteps(o: Outcome): seq<Action> {
    [Read(Near, o)] +
    if o.Bytes? then [Hand(Near), Send(Near), Take(Far), Deliver(Far), Write(Far)] else []
  }

  lemma PassesInSteps(s: State, o: Outcome)
    requires AtRest(s) && ReadOk(o) && o != Eof && o != OtherError
    ensures Legal(s, PassSteps(o)) && After(s, PassSteps(o)) == Passed(s, o) && AtRest(Passed(s, o))
  {
    hide Legal, After, Enabled, Next;
    if o.Bytes? {
      var item := Item(|s.near.got|, o.chunk);
      var sent := s.(near := s.near.(got := s.near.got + [o.chunk]), outward := [item]);
      SendsInSteps(s, o.chunk, sent);
      WritesInSteps(sent, item, Passed(s, o));
      Append(s, [Read(Near, o), Hand(Near), Send(Near)], [Take(Far), Deliver(Far), Write(Far)]);
      assert PassSteps(o) == [Read(Near, o), Hand(Near), Send(Near)] + [Take(Far), Deliver(Far), Write(Far)];
    } else {
      NothingRead(s, o);
    }
  }

  lemma NothingRead(s: State, o: Outcome)
    requires AtRest(s) && (o == TimedOut || o == Interrupted || o == Eio)
    ensures Legal(s, PassSteps(o)) && After(s, PassSteps(o)) == s
  {
    assert PassSteps(o)[1..] == [];
  }

  lemma ThreeSteps(s: State, a: Action, b: Action, c: Action)
    requires Enabled(s, a) && Enabled(Next(s, a), b) && Enabled(Next(Next(s, a), b), c)
    ensures Legal(s, [a, b, c]) && After(s, [a, b, c]) == Next(Next(Next(s, a), b), c)
  {
    hide Enabled, Next;
    Prepend(Next(Next(s, a), b), c, []);
    assert [c] + [] == [c];
    Prepend(Next(s, a), b, [c]);
    Prepend(s, a, [b] + [c]);
    assert [a] + ([b] + [c]) == [a, b, c];
  }

  lemma SendsInSteps(s: State, chunk: Chunk, sent: State)
    requires AtRest(s) && ReadOk(Bytes(chunk))
    requires sent ==
      s.(near := s.near.(got := s.near.got + [chunk]), outward := [Item(|s.near.got|, chunk)])
    ensures var acts := [Read(Near, Bytes(chunk)), Hand(Near), Send(Near)];
      Legal(s, acts) && After(s, acts) == sent
  {
    hide Legal, After;
    var s1 := Next(s, Read(Near, Bytes(chunk)));
    var s2 := Next(s1, Hand(Near));
    assert s2.near.devQ == [Item(|s.near.got|, chunk)];
    assert Next(s2, Send(Near)).outward == [Item(|s.near.got|, chunk)] && Next(s2, Send(Near)).near.devQ == [];
    ThreeSteps(s, Read(Near, Bytes(chunk)), Hand(Near), Send(Near));
  }

  lemma WritesInSteps(s: State, item: Item, s': State)
    requires AtSelect(s.far) && s.far.netQ == [] && !s.far.failed && s.outward == [item]
    requires s' == s.(far := s.far.(written := s.far.written + [item]), outward := [])
    ensures var acts := [Take(Far), Deliver(Far), Write(Far)]; Legal(s, acts) && After(s, acts) == s'
  {
    hide Legal, After;
    var s1 := Next(s, Take(Far));
    assert s1.outward == [] && s1.far.held == Some(item);
    var s2 := Next(s1, Deliver(Far));
    assert s2.far.netQ == [item];
    assert Next(s2, Write(Far)).far.netQ == [];
    ThreeSteps(s, Take(Far), Deliver(Far), Write(Far));
  }

  lemma {:induction false} Append(s: State, a: seq<Action>, b: seq<Action>)
    requires Legal(s, a) && Legal(After(s, a), b)
    ensures Legal(s, a + b) && After(s, a + b) == After(After(s, a), b)
    decreases |a|
  {
    hide Enabled, Next;
    if a == [] {
      assert a + b == b;
    } else {
      Append(Next(s, a[0]), a[1..], b);
      assert (a + b)[1..] == a[1..] + b;
    }
  }

  /** From a state at rest: the device ends, all it has delivered is written, and the bridge exits. */
  lemma {:induction false} RunsToTheEnd(s: State, script: seq<Outcome>) returns (acts: seq<Action>)
    requires AtRest(s) && Ends(script) && forall i | 0 <= i < |script| :: ReadOk(script[i])
    ensures Legal(s, acts)
    ensures var s' := After(s, acts);
      s'.near.exited && Contents(s'.far.written) == Contents(s.far.written) + HandedOver(script)
    decreases |script|
  {
    hide Legal, After, AtRest, Passed, PassSteps, Contents;
    var o := script[0];
    if o == Eof || o == OtherError {
      acts := EndsAtOnce(s, o);
      assert Contents(s.far.written) + [] == Contents(s.far.written);
    } else {
      assert Ends(script[1..]) by {
        var i :| 0 <= i < |script| && (script[i] == Eof || script[i] == OtherError);
        assert script[1..][i - 1] == script[i];
      }
      PassesInSteps(s, o);
      var rest := RunsToTheEnd(Passed(s, o), script[1..]);
      Append(s, PassSteps(o), rest);
      acts := PassSteps(o) + rest;
      PassedContents(s, o, HandedOver(script[1..]));
    }
  }

  lemma PassedContents(s: State, o: Outcome, rest: seq<Chunk>)
    ensures Contents(Passed(s, o).far.written) + rest ==
      Contents(s.far.written) + ((if o.Bytes? then [o.chunk] else []) + rest)
  {
    if o.Bytes? {
      assert Contents(Passed(s, o).far.written) == Contents(s.far.written) + [o.chunk];
    }
  }

  lemma EndsAtOnce(s: State, o: Outcome) returns (acts: seq<Action>)
    requires AtRest(s) && (o == Eof || o == OtherError)
    ensures Legal(s, acts) && After(s, acts).near.exited && After(s, acts).far == s.far
  {
    var s' := Next(s, Read(Near, o));
    LeavesInSteps(s', Near);
    Prepend(s, Read(Near, o), Leaving(Near, 0));
    acts := [Read(Near, o)] + Leaving(Near, 0);
  }

  /**
   Whatever the device delivers before it ends, there is a run from the start in which all of it is written at the
   other end and the bridge exits.
   */
  lemma EveryEndIsReached(script: seq<Outcome>) returns (acts: seq<Action>)
    requires Ends(script) && forall i | 0 <= i < |script| :: ReadOk(script[i])
    ensures Legal(Init(), acts)
    ensures var s := After(Init(), acts); s.near.exited && Contents(s.far.written) == HandedOver(script)
  {
    hide Contents, Legal, After;
    var s1 := Next(Init(), Reconnect(Near));
    var s2 := Next(s1, Reconnect(Far));
    var rest := RunsToTheEnd(s2, script);
    NoContents(HandedOver(script));
    Prepend(s1, Reconnect(Far), rest);
    Prepend(Init(), Reconnect(Near), [Reconnect(Far)] + rest);
    acts := [Reconnect(Near)] + ([Reconnect(Far)] + rest);
  }

  lemma NoContents(cs: seq<Chunk>)
    ensures Contents([]) + cs == cs
  {
  }
}
