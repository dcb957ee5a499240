/**
 The serial bridge of src/main.rs: one byte stream in each direction between two devices. Reader thread, session
 loop and writer thread of either end are interleaved step by step; the link may lose frames at a reconnect.
 */
module Bridge {
  import opened Common

  const QUEUE := 256
  const BUFFER := 4096

  /** A chunk on its way; `idx` counts the chunks read from the device. */
  datatype Item = Item(idx: nat, bytes: Chunk)

  /** What a blocking read of the device returns. */
  datatype Outcome = Eof | Bytes(chunk: Chunk) | TimedOut | Interrupted | Eio | OtherError

  /** The reader thread: about to read, waiting to hand over a chunk, or over. */
  datatype Reader = Reading | Handing | Over

  /**
   One process. `held` is the item the session loop waits to hand to the writer thread, `written` what that thread
   has written, `dropped` what it has dropped by failing.
   */
  datatype End = End(
    rd: Reader,
    got: seq<Chunk>,
    devQ: seq<Item>,
    held: Option<Item>,
    netQ: seq<Item>,
    failed: bool,
    written: seq<Item>,
    dropped: seq<Item>,
    up: bool,
    exited: bool)

  // ---------------------------------------------------------------- steps of one process

  predicate ReadOk(o: Outcome) {
    o.Bytes? ==> 0 < |o.chunk| <= BUFFER
  }

  /** `device_read_loop`: a timeout, an interrupt and EIO are no data yet; end of file and other errors end it. */
  function DoRead(e: End, o: Outcome): End {
    match o
    case Bytes(chunk) => e.(rd := Handing, got := e.got + [chunk])
    case Eof => e.(rd := Over)
    case OtherError => e.(rd := Over)
    case _ => e
  }

  function LastItem(e: End): Item
    requires e.got != []
  {
    Item(|e.got| - 1, e.got[|e.got| - 1])
  }

  predicate CanHand(e: End) {
    e.rd.Handing? && e.got != [] && !e.exited && |e.devQ| < QUEUE
  }

  function DoHand(e: End): End
    requires CanHand(e)
  {
    e.(devQ := e.devQ + [LastItem(e)], rd := Reading)
  }

  /** The session loop is connected and at its select. */
  predicate AtSelect(e: End) {
    e.up && !e.exited && e.held.None?
  }

  /** The oldest chunk leaves the queue; if it cannot be sent, the connection is given up. */
  function DoSend(e: End, ok: bool): End
    requires AtSelect(e) && e.devQ != []
  {
    e.(devQ := e.devQ[1..], up := ok)
  }

  function DoTake(e: End, item: Item): End
    requires AtSelect(e)
  {
    e.(held := Some(item))
  }

  /** The queue from the device is empty and its sender is gone: the bridge exits. */
  predicate CanExit(e: End) {
    AtSelect(e) && e.devQ == [] && e.rd.Over?
  }

  function DoDeliver(e: End): End
    requires e.held.Some?
  {
    if e.failed then e.(held := None, dropped := e.dropped + [e.held.value])
    else e.(held := None, netQ := e.netQ + [e.held.value])
  }

  predicate CanDeliver(e: End) {
    e.held.Some? && (e.failed || |e.netQ| < QUEUE)
  }

  predicate CanWrite(e: End) {
    !e.failed && e.netQ != []
  }

  function DoWrite(e: End): End
    requires CanWrite(e)
  {
    e.(written := e.written + [e.netQ[0]], netQ := e.netQ[1..])
  }

  /** A failed write ends the writer thread, and what it had queued goes with it. */
  function DoFail(e: End): End
    requires CanWrite(e)
  {
    e.(failed := true, dropped := e.dropped + e.netQ, netQ := [])
  }

  // ---------------------------------------------------------------- both ends and the link

  datatype Side = Near | Far

  function Other(side: Side): Side {
    if side.Near? then Far else Near
  }

  datatype State = State(near: End, far: End, outward: seq<Item>, inward: seq<Item>, lostOut: nat, lostIn: nat) {
    function At(side: Side): End {
      if side.Near? then near else far
    }

    /** What `side` has sent and the other side has not taken. */
    function Wire(side: Side): seq<Item> {
      if side.Near? then outward else inward
    }

    /** How many frames of `side` have been lost. */
    function Lost(side: Side): nat {
      if side.Near? then lostOut else lostIn
    }

    function With(side: Side, e: End): State {
      if side.Near? then this.(near := e) else this.(far := e)
    }

    function WithWire(side: Side, w: seq<Item>): State {
      if side.Near? then this.(outward := w) else this.(inward := w)
    }

    function Losing(side: Side): State {
      if side.Near? then this.(lostOut := lostOut + 1) else this.(lostIn := lostIn + 1)
    }
  }

  datatype Action =
    | Read(side: Side, outcome: Outcome)
    | Hand(side: Side)
    | Send(side: Side) | SendFail(side: Side)
    | Take(side: Side) | Deliver(side: Side)
    | Write(side: Side) | Fail(side: Side)
    | Exit(side: Side)
    | Disconnect(side: Side) | Reconnect(side: Side)
    | Lose(side: Side, at: nat)

  predicate Enabled(s: State, a: Action) {
    var e := s.At(a.side);
    match a
    case Read(_, o) => e.rd.Reading? && ReadOk(o)
    case Hand(_) => CanHand(e)
    case Send(_) => AtSelect(e) && e.devQ != []
    case SendFail(_) => AtSelect(e) && e.devQ != []
    case Take(_) => AtSelect(e) && s.Wire(Other(a.side)) != []
    case Deliver(_) => CanDeliver(e)
    case Write(_) => CanWrite(e)
    case Fail(_) => CanWrite(e)
    case Exit(_) => CanExit(e)
    case Disconnect(_) => AtSelect(e)
    case Reconnect(_) => !e.up && !e.exited
    case Lose(_, at) => at < |s.Wire(a.side)| && !(s.near.up && s.far.up)
  }

  function Next(s: State, a: Action): State
    requires Enabled(s, a)
  {
    var e, w := s.At(a.side), s.Wire(a.side);
    match a
    case Read(side, o) => s.With(side, DoRead(e, o))
    case Hand(side) => s.With(side, DoHand(e))
    case Send(side) => s.With(side, DoSend(e, true)).WithWire(side, w + [e.devQ[0]])
    case SendFail(side) => s.With(side, DoSend(e, false)).Losing(side)
    case Take(side) =>
      var v := s.Wire(Other(side));
      s.With(side, DoTake(e, v[0])).WithWire(Other(side), v[1..])
    case Deliver(side) => s.With(side, DoDeliver(e))
    case Write(side) => s.With(side, DoWrite(e))
    case Fail(side) => s.With(side, DoFail(e))
    case Exit(side) => s.With(side, e.(exited := true, up := false))
    case Disconnect(side) => s.With(side, e.(up := false))
    case Reconnect(side) => s.With(side, e.(up := true))
    case Lose(side, at) => s.WithWire(side, w[..at] + w[at + 1..]).Losing(side)
  }

  function NewEnd(): End {
    End(Reading, [], [], None, [], false, [], [], false, false)
  }

  function Init(): State {
    State(NewEnd(), NewEnd(), [], [], 0, 0)
  }

  predicate Legal(s: State, acts: seq<Action>)
    decreases |acts|
  {
    acts == [] || (Enabled(s, acts[0]) && Legal(Next(s, acts[0]), acts[1..]))
  }

  function After(s: State, acts: seq<Action>): State
    requires Legal(s, acts)
    decreases |acts|
  {
    if acts == [] then s else After(Next(s, acts[0]), acts[1..])
  }

  // ---------------------------------------------------------------- the stream of one direction

  /** What the receiving end has. */
  function Received(rcv: End): seq<Item> {
    rcv.written + rcv.dropped + rcv.netQ + (if rcv.held.Some? then [rcv.held.value] else [])
  }

  /** What the sending end has still to send. */
  function Unsent(snd: End): seq<Item> {
    snd.devQ + (if snd.rd.Handing? && snd.got != [] then [LastItem(snd)] else [])
  }

  /** Everything read from one device, oldest first, wherever it is now. */
  function Stream(snd: End, wire: seq<Item>, rcv: End): seq<Item> {
    Received(rcv) + (wire + Unsent(snd))
  }

  /** Items carry what was read, in the order it was read and each at most once; all of it unless some was lost. */
  ghost predicate Faithful(t: seq<Item>, got: seq<Chunk>, whole: bool) {
    && (forall i | 0 <= i < |t| :: t[i].idx < |got| && t[i].bytes == got[t[i].idx])
    && (forall i, j | 0 <= i < j < |t| :: t[i].idx < t[j].idx)
    && (whole ==> |t| == |got| && forall i | 0 <= i < |t| :: t[i].idx == i)
  }

  ghost predicate EndOk(e: End) {
    && (e.rd.Handing? ==> e.got != [] && !e.exited)
    && (e.exited ==> e.rd.Over? && e.devQ == [])
    && (e.failed ==> e.netQ == [])
    && (!e.failed ==> e.dropped == [])
    && |e.devQ| <= QUEUE && |e.netQ| <= QUEUE
  }

  ghost predicate Direction(s: State, side: Side) {
    Faithful(Stream(s.At(side), s.Wire(side), s.At(Other(side))), s.At(side).got, s.Lost(side) == 0)
  }

  ghost predicate Inv(s: State) {
    EndOk(s.near) && EndOk(s.far) && Direction(s, Near) && Direction(s, Far)
  }

  lemma FaithfulReads(t: seq<Item>, got: seq<Chunk>, whole: bool, chunk: Chunk)
    requires Faithful(t, got, whole)
    ensures Faithful(t + [Item(|got|, chunk)], got + [chunk], whole)
  {
  }

  lemma FaithfulLoses(t: seq<Item>, got: seq<Chunk>, whole: bool, i: nat)
    requires Faithful(t, got, whole) && i < |t|
    ensures Faithful(t[..i] + t[i + 1..], got, false)
  {
    var u := t[..i] + t[i + 1..];
    forall j | 0 <= j < |u| ensures u[j] == t[if j < i then j else j + 1] {}
  }

  // One lemma for each step that moves an item, on the two ends and the wire between them.

  lemma Reads(snd: End, wire: seq<Item>, rcv: End, o: Outcome, whole: bool)
    requires !snd.rd.Handing? && Faithful(Stream(snd, wire, rcv), snd.got, whole)
    ensures Faithful(Stream(DoRead(snd, o), wire, rcv), DoRead(snd, o).got, whole)
  {
    var t, t' := Stream(snd, wire, rcv), Stream(DoRead(snd, o), wire, rcv);
    if o.Bytes? {
      FaithfulReads(t, snd.got, whole, o.chunk);
      assert t' == t + [Item(|snd.got|, o.chunk)];
    }
  }

  lemma Hands(snd: End, wire: seq<Item>, rcv: End)
    requires CanHand(snd)
    ensures Stream(DoHand(snd), wire, rcv) == Stream(snd, wire, rcv)
  {
    assert Unsent(DoHand(snd)) == Unsent(snd);
  }

  lemma Sends(snd: End, wire: seq<Item>, rcv: End)
    requires snd.devQ != []
    ensures Stream(snd.(devQ := snd.devQ[1..]), wire + [snd.devQ[0]], rcv) == Stream(snd, wire, rcv)
  {
    assert [snd.devQ[0]] + snd.devQ[1..] == snd.devQ;
    assert wire + [snd.devQ[0]] + Unsent(snd.(devQ := snd.devQ[1..])) == wire + Unsent(snd);
  }

  lemma SendFails(snd: End, wire: seq<Item>, rcv: End, whole: bool)
    requires snd.devQ != [] && Faithful(Stream(snd, wire, rcv), snd.got, whole)
    ensures Faithful(Stream(snd.(devQ := snd.devQ[1..], up := false), wire, rcv), snd.got, false)
  {
    var t, t' := Stream(snd, wire, rcv), Stream(snd.(devQ := snd.devQ[1..], up := false), wire, rcv);
    var i := |Received(rcv)| + |wire|;
    assert [snd.devQ[0]] + snd.devQ[1..] == snd.devQ;
    assert t' == t[..i] + t[i + 1..];
    FaithfulLoses(t, snd.got, whole, i);
  }

  lemma Loses(snd: End, wire: seq<Item>, rcv: End, whole: bool, at: nat)
    requires at < |wire| && Faithful(Stream(snd, wire, rcv), snd.got, whole)
    ensures Faithful(Stream(snd, wire[..at] + wire[at + 1..], rcv), snd.got, false)
  {
    var t, t' := Stream(snd, wire, rcv), Stream(snd, wire[..at] + wire[at + 1..], rcv);
    var i := |Received(rcv)| + at;
    assert t' == t[..i] + t[i + 1..];
    FaithfulLoses(t, snd.got, whole, i);
  }

  lemma Takes(snd: End, wire: seq<Item>, rcv: End)
    requires wire != [] && rcv.held.None?
    ensures Stream(snd, wire[1..], rcv.(held := Some(wire[0]))) == Stream(snd, wire, rcv)
  {
    assert wire == [wire[0]] + wire[1..];
    assert Received(rcv.(held := Some(wire[0]))) == Received(rcv) + [wire[0]];
  }

  lemma Delivers(rcv: End)
    requires rcv.held.Some? && (rcv.failed ==> rcv.netQ == [])
    ensures Received(DoDeliver(rcv)) == Received(rcv)
  {
  }

  lemma Writes(rcv: End)
    requires CanWrite(rcv) && rcv.dropped == []
    ensures Received(DoWrite(rcv)) == Received(rcv)
    ensures Received(DoFail(rcv)) == Received(rcv)
  {
    assert [rcv.netQ[0]] + rcv.netQ[1..] == rcv.netQ;
  }

  /** A direction survives every step of the end that sends. */
  lemma SenderStep(s: State, a: Action)
    requires EndOk(s.At(a.side)) && Direction(s, a.side) && Enabled(s, a)
    ensures Direction(Next(s, a), a.side)
  {
    var snd, w, rcv, whole := s.At(a.side), s.Wire(a.side), s.At(Other(a.side)), s.Lost(a.side) == 0;
    match a
    case Read(_, o) => Reads(snd, w, rcv, o, whole);
    case Hand(_) => Hands(snd, w, rcv);
    case Send(_) => Sends(snd, w, rcv);
    case SendFail(_) => SendFails(snd, w, rcv, whole);
    case Lose(_, at) => Loses(snd, w, rcv, whole, at);
    case _ => SenderRests(s, a);
  }

  /** The steps of the sending end that do not touch what it sends. */
  lemma SenderRests(s: State, a: Action)
    requires Enabled(s, a) && !a.Read? && !a.Hand? && !a.Send? && !a.SendFail? && !a.Lose?
    ensures var s', side := Next(s, a), a.side;
      && Stream(s'.At(side), s'.Wire(side), s'.At(Other(side))) == Stream(s.At(side), s.Wire(side), s.At(Other(side)))
      && s'.At(side).got == s.At(side).got && s'.Lost(side) == s.Lost(side)
  {
  }

  /** No step of the receiving end changes what the direction holds as a whole. */
  lemma ReceiverStep(s: State, a: Action)
    requires EndOk(s.At(a.side)) && Enabled(s, a)
    ensures var s', side := Next(s, a), Other(a.side);
      && Stream(s'.At(side), s'.Wire(side), s'.At(a.side)) == Stream(s.At(side), s.Wire(side), s.At(a.side))
      && s'.At(side).got == s.At(side).got && s'.Lost(side) == s.Lost(side)
  {
    var rcv := s.At(a.side);
    if a.Take? {
      Takes(s.At(Other(a.side)), s.Wire(Other(a.side)), rcv);
    } else if a.Deliver? {
      Delivers(rcv);
      ReceiverOnly(s, a);
    } else if a.Write? || a.Fail? {
      Writes(rcv);
      ReceiverOnly(s, a);
    } else {
      ReceiverRests(s, a);
    }
  }

  /** Handing to the writer thread, writing and failing change nothing but the receiving end. */
  lemma ReceiverOnly(s: State, a: Action)
    requires Enabled(s, a) && (a.Deliver? || a.Write? || a.Fail?)
    ensures var s', side := Next(s, a), Other(a.side);
      s'.At(side) == s.At(side) && s'.Wire(side) == s.Wire(side) && s'.Lost(side) == s.Lost(side)
    ensures Next(s, a).At(a.side) ==
      if a.Deliver? then DoDeliver(s.At(a.side)) else if a.Write? then DoWrite(s.At(a.side)) else DoFail(s.At(a.side))
  {
  }

  lemma ReceiverRests(s: State, a: Action)
    requires Enabled(s, a) && !a.Take? && !a.Deliver? && !a.Write? && !a.Fail?
    ensures var s', side := Next(s, a), Other(a.side);
      && Received(s'.At(a.side)) == Received(s.At(a.side)) && s'.At(side) == s.At(side)
      && s'.Wire(side) == s.Wire(side) && s'.Lost(side) == s.Lost(side)
  {
  }

  lemma EndStep(s: State, a: Action, side: Side)
    requires EndOk(s.At(side)) && Enabled(s, a)
    ensures EndOk(Next(s, a).At(side))
  {
  }

  lemma InvStep(s: State, a: Action)
    requires Inv(s) && Enabled(s, a)
    ensures Inv(Next(s, a))
  {
    hide EndOk, Direction, Enabled, Next;
    EndStep(s, a, Near);
    EndStep(s, a, Far);
    SenderStep(s, a);
    ReceivingStep(s, a);
  }

  lemma ReceivingStep(s: State, a: Action)
    requires EndOk(s.At(a.side)) && Direction(s, Other(a.side)) && Enabled(s, a)
    ensures Direction(Next(s, a), Other(a.side))
  {
    hide EndOk, Stream, Faithful, Enabled, Next;
    ReceiverStep(s, a);
  }

  lemma InvInit()
    ensures Inv(Init())
  {
  }

  lemma {:induction false} InvAlways(s: State, acts: seq<Action>)
    requires Inv(s) && Legal(s, acts)
    ensures Inv(After(s, acts))
    decreases |acts|
  {
    if acts != [] {
      InvStep(s, acts[0]);
      InvAlways(Next(s, acts[0]), acts[1..]);
    }
  }

  // ---------------------------------------------------------------- what is delivered

  function Flatten(cs: seq<Chunk>): seq<byte> {
    if cs == [] then [] else Flatten(cs[..|cs| - 1]) + cs[|cs| - 1]
  }

  function Contents(t: seq<Item>): seq<Chunk> {
    seq(|t|, i requires 0 <= i < |t| => t[i].bytes)
  }

  lemma {:induction false} FlattenPrefix(a: seq<Chunk>, b: seq<Chunk>)
    requires a <= b
    ensures Flatten(a) <= Flatten(b)
    decreases |b|
  {
    if |a| < |b| {
      FlattenPrefix(a, b[..|b| - 1]);
    } else {
      assert a == b;
    }
  }

  /** The items carry chunks of `got` from left to right, each at most once. */
  ghost predicate InOrder(t: seq<Item>, got: seq<Chunk>) {
    && (forall i | 0 <= i < |t| :: t[i].idx < |got| && t[i].bytes == got[t[i].idx])
    && (forall i, j | 0 <= i < j < |t| :: t[i].idx < t[j].idx)
  }

  /**
   For every schedule, and although writes may fail: the far device is given chunks read from the near one, in
   order and each at most once; without a lost frame the bytes are a prefix of the bytes read. A bridge that has
   exited has sent every chunk its device delivered.
   */
  lemma BridgeFidelity(acts: seq<Action>, side: Side)
    requires Legal(Init(), acts)
    ensures var s := After(Init(), acts);
      var snd, rcv := s.At(side), s.At(Other(side));
      && InOrder(rcv.written, snd.got)
      && (s.Lost(side) == 0 ==> Flatten(Contents(rcv.written)) <= Flatten(snd.got))
      && (snd.exited ==> Unsent(snd) == [])
      && (s.Lost(side) == 0 && snd.exited && s.Wire(side) == [] && rcv.held.None? && rcv.netQ == [] && !rcv.failed ==>
            Contents(rcv.written) == snd.got)
  {
    hide Faithful, InOrder, Flatten, Contents, Legal, Next, Stream, Unsent;
    InvInit();
    InvAlways(Init(), acts);
    var s := After(Init(), acts);
    DirectionDelivers(s.At(side), s.Wire(side), s.At(Other(side)), s.Lost(side) == 0);
  }

  lemma DirectionDelivers(snd: End, wire: seq<Item>, rcv: End, whole: bool)
    requires EndOk(snd) && EndOk(rcv) && Faithful(Stream(snd, wire, rcv), snd.got, whole)
    ensures InOrder(rcv.written, snd.got)
    ensures whole ==> Flatten(Contents(rcv.written)) <= Flatten(snd.got)
    ensures snd.exited ==> Unsent(snd) == []
    ensures whole && snd.exited && wire == [] && rcv.held.None? && rcv.netQ == [] && !rcv.failed ==>
      Contents(rcv.written) == snd.got
  {
    var t := Stream(snd, wire, rcv);
    forall i | 0 <= i < |rcv.written| ensures t[i] == rcv.written[i] {}
    if whole {
      assert |rcv.written| <= |t|;
      assert Contents(rcv.written) <= snd.got;
      FlattenPrefix(Contents(rcv.written), snd.got);
    }
  }

  // ---------------------------------------------------------------- the threads as loops

  /** The chunks a reader thread hands over: those before the first end of file or fatal error. */
  function HandedOver(script: seq<Outcome>): seq<Chunk> {
    if script == [] || script[0].Eof? || script[0].OtherError? then []
    else (if script[0].Bytes? then [script[0].chunk] else []) + HandedOver(script[1..])
  }

  predicate Fatal(o: Outcome) {
    o.Eof? || o.OtherError?
  }

  /** One read, and the chunk it gave handed over at once. */
  function ReadAndHand(e: End, o: Outcome): End {
    var e' := DoRead(e, o);
    if o.Bytes? then e'.(rd := Reading, devQ := e.devQ + [LastItem(e')]) else e'
  }

  function ReaderRun(e: End, script: seq<Outcome>): End
    decreases |script|
  {
    if script == [] || !e.rd.Reading? then e else ReaderRun(ReadAndHand(e, script[0]), script[1..])
  }

  lemma OneRead(e: End, o: Outcome)
    requires e.rd.Reading?
    ensures var e', cs := ReadAndHand(e, o), if o.Bytes? then [o.chunk] else [];
      && e'.got == e.got + cs && Contents(e'.devQ) == Contents(e.devQ) + cs
      && e'.rd == if Fatal(o) then Over else Reading
  {
    if o.Bytes? {
      assert Contents(ReadAndHand(e, o).devQ) == Contents(e.devQ) + [o.chunk];
    }
  }

  /** The steps of the reader thread deliver what `device_read_loop` hands over. */
  lemma {:induction false} ReaderHandsOver(e: End, script: seq<Outcome>)
    requires e.rd.Reading?
    ensures ReaderRun(e, script).got == e.got + HandedOver(script)
    ensures Contents(ReaderRun(e, script).devQ) == Contents(e.devQ) + HandedOver(script)
    decreases |script|
  {
    if script != [] {
      OneRead(e, script[0]);
      if !Fatal(script[0]) {
        ReaderHandsOver(ReadAndHand(e, script[0]), script[1..]);
      }
    }
  }

  /** Timeouts, interrupts and EIO change nothing; reads after the end do not happen. */
  lemma {:induction false} TransientOutcomesLoseNothing(a: seq<Outcome>, o: Outcome, b: seq<Outcome>)
    ensures o == TimedOut || o == Interrupted || o == Eio ==> HandedOver(a + [o] + b) == HandedOver(a + b)
    ensures o == Eof || o == OtherError ==> HandedOver(a + [o] + b) == HandedOver(a + [o])
    decreases |a|
  {
    if a == [] {
      assert [] + [o] + b == [o] + b && ([o] + b)[1..] == b;
      assert [] + b == b && [] + [o] == [o];
    } else {
      assert (a + [o] + b)[0] == a[0] && (a + [o] + b)[1..] == a[1..] + [o] + b;
      assert (a + b)[0] == a[0] && (a + b)[1..] == a[1..] + b;
      assert (a + [o])[0] == a[0] && (a + [o])[1..] == a[1..] + [o];
      TransientOutcomesLoseNothing(a[1..], o, b);
    }
  }

  /** The reader thread against a device that answers as `script` says. */
  method DeviceReadLoop(script: seq<Outcome>) returns (handed: seq<Chunk>)
    ensures handed == HandedOver(script)
  {
    handed := [];
    var i := 0;
    while i < |script|
      invariant 0 <= i <= |script|
      invariant handed + HandedOver(script[i..]) == HandedOver(script)
    {
      match script[i] {
        case Eof => return;
        case OtherError => return;
        case Bytes(chunk) => handed := handed + [chunk];
        case _ =>
      }
      i := i + 1;
    }
  }

  /** The writer thread, on a device whose write number `bad` fails: what it writes of its queue. */
  method DeviceWriteLoop(queue: seq<Chunk>, bad: nat) returns (written: seq<byte>, ok: bool)
    ensures ok <==> |queue| <= bad
    ensures written == Flatten(if ok then queue else queue[..bad])
    ensures written <= Flatten(queue)
  {
    written, ok := [], true;
    var i := 0;
    while i < |queue|
      invariant 0 <= i <= |queue| && i <= bad
      invariant written == Flatten(queue[..i])
    {
      if i == bad {
        FlattenPrefix(queue[..i], queue);
        return written, false;
      }
      assert queue[..i + 1][..i] == queue[..i];
      written := written + queue[i];
      i := i + 1;
    }
    assert queue[..i] == queue;
  }
}
