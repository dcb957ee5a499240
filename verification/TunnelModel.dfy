/**
 The TCP multiplexer of src/tcp.rs as a state machine: one step for every stretch of a task between two waits.

 A connection accepted by the home side is known by its incarnation, the position at which it was accepted.
 Incarnations are book-keeping: frames carry one as `tag`, but the code only ever looks at the one-byte `id`.
 */
module TunnelModel {
  import opened Common
  import opened Allocator

  const OUT_QUEUE := 512
  const CONN_QUEUE := 256
  const READ_CHUNK := 16384

  /** What a peer frame asks for. `idx` counts the chunks read from the sending socket. */
  datatype Msg = Open | Data(idx: nat, bytes: Chunk) | Close

  datatype Frame = Frame(id: ConnId, tag: nat, msg: Msg)

  /**
   The task that reads a socket: `Holding` a chunk not yet queued, `Ended` with CLOSE not yet queued. Without a
   socket: `Refused` after a failed dial, `Answered` if CLOSE was sent for a connection that was never opened here.
   */
  datatype Reader = NotYet | Answered | Dialing | Refused | Reading | Holding | Ended | Done

  /** The task that writes a socket: `Exiting` has left its loop, `Gone` has removed the map entry. */
  datatype Writer = Absent | Running | Exiting | Gone

  /**
   One end of a connection: `got` are the chunks its reader has read, `queue` what waits for its writer (a Close
   frame stands for Shutdown), `log` what the writer has taken and dealt with.
   */
  datatype Conn = Conn(id: ConnId, rd: Reader, got: seq<Chunk>, wr: Writer, queue: seq<Frame>, log: seq<Frame>)

  /** Where the session loop is: at its select, dialing, waiting on a writer queue, or waiting on `out`. */
  datatype Session = Ready | Dial(id: ConnId, conn: nat) | Deliver(to: nat, frame: Frame) | Emit(frame: Frame)

  /**
   One process. `missed` are the frames that found no map entry, `spilt` counts payload bytes thrown away,
   `tx` and `rx` are TX_BYTES and RX_BYTES.
   */
  datatype Endpoint = Endpoint(
    conns: map<ConnId, nat>,
    out: seq<Frame>,
    sess: Session,
    socks: seq<Conn>,
    up: bool,
    tx: nat,
    rx: nat,
    missed: seq<Frame>,
    spilt: nat)

  function PayloadSize(f: Frame): nat {
    if f.msg.Data? then |f.msg.bytes| else 0
  }

  function Size(p: seq<Frame>): nat {
    if p == [] then 0 else Size(p[..|p| - 1]) + PayloadSize(p[|p| - 1])
  }

  // ---------------------------------------------------------------- socket tasks

  /** Nothing has been done here to open the connection. */
  predicate Fresh(c: Conn) {
    c.rd.NotYet? || c.rd.Answered?
  }

  predicate Live(c: Conn) {
    c.wr.Running? || c.wr.Exiting?
  }

  /** `spawn_connection`: register the socket and start its two halves. */
  function Spawn(e: Endpoint, k: nat): Endpoint
    requires k < |e.socks|
  {
    var c := e.socks[k];
    e.(conns := e.conns[c.id := k], socks := e.socks[k := c.(rd := Reading, wr := Running)])
  }

  predicate CanRead(e: Endpoint, k: nat, chunk: Chunk) {
    k < |e.socks| && e.socks[k].rd.Reading? && 0 < |chunk| <= READ_CHUNK
  }

  function DoRead(e: Endpoint, k: nat, chunk: Chunk): Endpoint
    requires CanRead(e, k, chunk)
  {
    var c := e.socks[k];
    e.(socks := e.socks[k := c.(rd := Holding, got := c.got + [chunk])], tx := e.tx + |chunk|)
  }

  /** The DATA frame for the chunk a reader holds. */
  function HeldData(c: Conn, k: nat): Frame
    requires c.got != []
  {
    Frame(c.id, k, Data(|c.got| - 1, c.got[|c.got| - 1]))
  }

  predicate CanSendData(e: Endpoint, k: nat) {
    k < |e.socks| && e.socks[k].rd.Holding? && e.socks[k].got != [] && |e.out| < OUT_QUEUE
  }

  function DoSendData(e: Endpoint, k: nat): Endpoint
    requires CanSendData(e, k)
  {
    var c := e.socks[k];
    e.(out := e.out + [HeldData(c, k)], socks := e.socks[k := c.(rd := Reading)])
  }

  /** End of stream or a read error. */
  predicate CanEof(e: Endpoint, k: nat) {
    k < |e.socks| && e.socks[k].rd.Reading?
  }

  function DoEof(e: Endpoint, k: nat): Endpoint
    requires CanEof(e, k)
  {
    e.(socks := e.socks[k := e.socks[k].(rd := Ended)])
  }

  predicate CanSendClose(e: Endpoint, k: nat) {
    k < |e.socks| && e.socks[k].rd.Ended? && |e.out| < OUT_QUEUE
  }

  function DoSendClose(e: Endpoint, k: nat): Endpoint
    requires CanSendClose(e, k)
  {
    var c := e.socks[k];
    e.(out := e.out + [Frame(c.id, k, Close)], socks := e.socks[k := c.(rd := Done)])
  }

  predicate CanWrite(e: Endpoint, k: nat) {
    k < |e.socks| && e.socks[k].wr.Running? && e.socks[k].queue != [] && e.socks[k].queue[0].msg.Data?
  }

  /** Take a chunk, count it, write all of it. */
  function DoWrite(e: Endpoint, k: nat): Endpoint
    requires CanWrite(e, k)
  {
    var c := e.socks[k];
    e.(socks := e.socks[k := c.(queue := c.queue[1..], log := c.log + [c.queue[0]])],
       rx := e.rx + PayloadSize(c.queue[0]))
  }

  /** The same, but the write fails: counted, not written, and the writer leaves its loop. */
  function DoWriteErr(e: Endpoint, k: nat): Endpoint
    requires CanWrite(e, k)
  {
    var c := e.socks[k];
    e.(socks := e.socks[k := c.(queue := c.queue[1..], wr := Exiting)], rx := e.rx + PayloadSize(c.queue[0]))
  }

  predicate CanShut(e: Endpoint, k: nat) {
    k < |e.socks| && e.socks[k].wr.Running? && e.socks[k].queue != [] && e.socks[k].queue[0].msg.Close?
  }

  function DoShut(e: Endpoint, k: nat): Endpoint
    requires CanShut(e, k)
  {
    var c := e.socks[k];
    e.(socks := e.socks[k := c.(queue := c.queue[1..], log := c.log + [c.queue[0]], wr := Exiting)])
  }

  /** Some sender for the queue of connection k is left: the map's, or the one the session loop cloned. */
  predicate HasSender(e: Endpoint, k: nat)
    requires k < |e.socks|
  {
    || (e.socks[k].id in e.conns && e.conns[e.socks[k].id] == k)
    || (e.sess.Deliver? && e.sess.to == k)
  }

  /** The channel is empty and has no sender left. */
  predicate CanStarve(e: Endpoint, k: nat) {
    k < |e.socks| && e.socks[k].wr.Running? && e.socks[k].queue == [] && !HasSender(e, k)
  }

  function DoStarve(e: Endpoint, k: nat): Endpoint
    requires CanStarve(e, k)
  {
    e.(socks := e.socks[k := e.socks[k].(wr := Exiting)])
  }

  predicate CanRemove(e: Endpoint, k: nat) {
    k < |e.socks| && e.socks[k].wr.Exiting?
  }

  /** The writer's last act: remove whatever the map holds for its id, and drop its queue. */
  function DoRemove(e: Endpoint, k: nat): Endpoint
    requires CanRemove(e, k)
  {
    var c := e.socks[k];
    e.(conns := e.conns - {c.id}, socks := e.socks[k := c.(wr := Gone, queue := [])], spilt := e.spilt + Size(c.queue))
  }

  // ---------------------------------------------------------------- session loop

  predicate CanDrain(e: Endpoint) {
    e.up && e.sess.Ready? && e.out != []
  }

  function DoDrain(e: Endpoint): Endpoint
    requires CanDrain(e)
  {
    e.(out := e.out[1..])
  }

  predicate CanTake(e: Endpoint, f: Frame) {
    e.up && e.sess.Ready? && f.tag < |e.socks|
  }

  /** `handle_incoming` up to its first wait: OPEN starts a dial, the rest looks its writer up by id. */
  function DoTake(e: Endpoint, f: Frame, dials: bool): Endpoint
    requires CanTake(e, f)
  {
    match f.msg
    case Open =>
      if dials then
        e.(sess := Dial(f.id, f.tag), socks := e.socks[f.tag := e.socks[f.tag].(rd := Dialing)])
      else e
    case Data(_, bytes) =>
      if bytes == [] then e
      else if f.id in e.conns then e.(sess := Deliver(e.conns[f.id], f))
      else e.(missed := e.missed + [f], spilt := e.spilt + |bytes|)
    case Close =>
      if f.id in e.conns then e.(sess := Deliver(e.conns[f.id], f))
      else e.(missed := e.missed + [f])
  }

  predicate CanDialEnd(e: Endpoint) {
    e.sess.Dial? && e.sess.conn < |e.socks|
  }

  function DoDialOk(e: Endpoint): Endpoint
    requires CanDialEnd(e)
  {
    Spawn(e, e.sess.conn).(sess := Ready)
  }

  function DoDialErr(e: Endpoint): Endpoint
    requires CanDialEnd(e)
  {
    var k := e.sess.conn;
    e.(sess := Emit(Frame(e.sess.id, k, Close)), socks := e.socks[k := e.socks[k].(rd := Refused)])
  }

  predicate CanEnqueue(e: Endpoint) {
    && e.sess.Deliver? && e.sess.to < |e.socks|
    && Live(e.socks[e.sess.to]) && |e.socks[e.sess.to].queue| < CONN_QUEUE
  }

  function DoEnqueue(e: Endpoint): Endpoint
    requires CanEnqueue(e)
  {
    var c := e.socks[e.sess.to];
    e.(sess := Ready, socks := e.socks[e.sess.to := c.(queue := c.queue + [e.sess.frame])])
  }

  predicate CanOrphan(e: Endpoint) {
    && e.sess.Deliver? && e.sess.to < |e.socks| && e.socks[e.sess.to].wr.Gone?
    && e.sess.frame.tag < |e.socks|
  }

  function Answer(c: Conn): Conn {
    if c.rd.NotYet? then c.(rd := Answered) else c
  }

  /** The send fails because the writer is gone: for DATA, forget the entry and tell the peer. */
  function DoOrphan(e: Endpoint): Endpoint
    requires CanOrphan(e)
  {
    var f := e.sess.frame;
    if f.msg.Data? then
      e.(conns := e.conns - {f.id}, sess := Emit(Frame(f.id, f.tag, Close)),
         socks := e.socks[f.tag := Answer(e.socks[f.tag])], spilt := e.spilt + PayloadSize(f))
    else e.(sess := Ready)
  }

  predicate CanEmit(e: Endpoint) {
    e.sess.Emit? && |e.out| < OUT_QUEUE
  }

  function DoEmit(e: Endpoint): Endpoint
    requires CanEmit(e)
  {
    e.(out := e.out + [e.sess.frame], sess := Ready)
  }

  // ---------------------------------------------------------------- both ends and the link

  datatype Side = Home | Gate

  function Other(side: Side): Side {
    if side.Home? then Gate else Home
  }

  /** The accept loop: waiting for a socket, about to queue OPEN, about to register the connection. */
  datatype Acceptor = Waiting | Opening | Inserting

  /** `hg` and `gh` are the frames under way, `lostHG` and `lostGH` those that reconnects have cost so far. */
  datatype State = State(
    home: Endpoint,
    gate: Endpoint,
    hg: seq<Frame>,
    gh: seq<Frame>,
    acc: Acceptor,
    next: ConnId,
    lostHG: seq<Frame>,
    lostGH: seq<Frame>)
  {
    function Ep(side: Side): Endpoint {
      if side.Home? then home else gate
    }

    /** The frames under way that `side` has sent. */
    function Wire(side: Side): seq<Frame> {
      if side.Home? then hg else gh
    }

    function Lost(side: Side): seq<Frame> {
      if side.Home? then lostHG else lostGH
    }

    function WithEp(side: Side, e: Endpoint): State {
      if side.Home? then this.(home := e) else this.(gate := e)
    }

    function WithWire(side: Side, w: seq<Frame>): State {
      if side.Home? then this.(hg := w) else this.(gh := w)
    }

    function WithLost(side: Side, l: seq<Frame>): State {
      if side.Home? then this.(lostHG := l) else this.(lostGH := l)
    }

    /** Everything `side` has queued or sent and the other side has not handled, oldest first. */
    function Pipe(side: Side): seq<Frame> {
      Wire(side) + Ep(side).out
    }
  }

  datatype Action =
    | Accept | SendOpen | Insert
    | Read(side: Side, k: nat, chunk: Chunk)
    | SendData(side: Side, k: nat)
    | Eof(side: Side, k: nat)
    | SendClose(side: Side, k: nat)
    | Write(side: Side, k: nat)
    | WriteErr(side: Side, k: nat)
    | Shut(side: Side, k: nat)
    | Starve(side: Side, k: nat)
    | Remove(side: Side, k: nat)
    | Drain(side: Side)
    | Take(side: Side)
    | DialOk | DialErr
    | Enqueue(side: Side)
    | Orphan(side: Side)
    | EmitOut(side: Side)
    | Disconnect(side: Side)
    | Reconnect(side: Side)
    | SendFail(side: Side)
    | Lose(side: Side, at: nat)

  function NewConn(id: ConnId): Conn {
    Conn(id, NotYet, [], Absent, [], [])
  }

  predicate Enabled(s: State, a: Action) {
    match a
    case Accept => s.acc.Waiting?
    case SendOpen => s.acc.Opening? && s.home.socks != [] && |s.home.out| < OUT_QUEUE
    case Insert => s.acc.Inserting? && s.home.socks != []
    case Read(side, k, chunk) => CanRead(s.Ep(side), k, chunk)
    case SendData(side, k) => CanSendData(s.Ep(side), k)
    case Eof(side, k) => CanEof(s.Ep(side), k)
    case SendClose(side, k) => CanSendClose(s.Ep(side), k)
    case Write(side, k) => CanWrite(s.Ep(side), k)
    case WriteErr(side, k) => CanWrite(s.Ep(side), k)
    case Shut(side, k) => CanShut(s.Ep(side), k)
    case Starve(side, k) => CanStarve(s.Ep(side), k)
    case Remove(side, k) => CanRemove(s.Ep(side), k)
    case Drain(side) => CanDrain(s.Ep(side))
    case Take(side) => s.Wire(Other(side)) != [] && CanTake(s.Ep(side), s.Wire(Other(side))[0])
    case DialOk => CanDialEnd(s.gate)
    case DialErr => CanDialEnd(s.gate)
    case Enqueue(side) => CanEnqueue(s.Ep(side))
    case Orphan(side) => CanOrphan(s.Ep(side))
    case EmitOut(side) => CanEmit(s.Ep(side))
    case Disconnect(side) => s.Ep(side).up && s.Ep(side).sess.Ready?
    case Reconnect(side) => !s.Ep(side).up
    case SendFail(side) => CanDrain(s.Ep(side))
    case Lose(side, at) => at < |s.Wire(side)| && !(s.home.up && s.gate.up)
  }

  function Next(s: State, a: Action): State
    requires Enabled(s, a)
  {
    match a
    case Accept =>
      var (id, cursor) := Alloc(s.home.conns.Keys, s.next);
      if id.None? then s
      else s.(
        home := s.home.(socks := s.home.socks + [NewConn(id.value)]),
        gate := s.gate.(socks := s.gate.socks + [NewConn(id.value)]),
        acc := Opening,
        next := cursor)
    case SendOpen =>
      var k := |s.home.socks| - 1;
      s.(home := s.home.(out := s.home.out + [Frame(s.home.socks[k].id, k, Open)]), acc := Inserting)
    case Insert => s.(home := Spawn(s.home, |s.home.socks| - 1), acc := Waiting)
    case Read(side, k, chunk) => s.WithEp(side, DoRead(s.Ep(side), k, chunk))
    case SendData(side, k) => s.WithEp(side, DoSendData(s.Ep(side), k))
    case Eof(side, k) => s.WithEp(side, DoEof(s.Ep(side), k))
    case SendClose(side, k) => s.WithEp(side, DoSendClose(s.Ep(side), k))
    case Write(side, k) => s.WithEp(side, DoWrite(s.Ep(side), k))
    case WriteErr(side, k) => s.WithEp(side, DoWriteErr(s.Ep(side), k))
    case Shut(side, k) => s.WithEp(side, DoShut(s.Ep(side), k))
    case Starve(side, k) => s.WithEp(side, DoStarve(s.Ep(side), k))
    case Remove(side, k) => s.WithEp(side, DoRemove(s.Ep(side), k))
    case Drain(side) =>
      var e := s.Ep(side);
      s.WithEp(side, DoDrain(e)).WithWire(side, s.Wire(side) + [e.out[0]])
    case Take(side) =>
      var w := s.Wire(Other(side));
      s.WithEp(side, DoTake(s.Ep(side), w[0], side.Gate?)).WithWire(Other(side), w[1..])
    case DialOk => s.WithEp(Gate, DoDialOk(s.gate))
    case DialErr => s.WithEp(Gate, DoDialErr(s.gate))
    case Enqueue(side) => s.WithEp(side, DoEnqueue(s.Ep(side)))
    case Orphan(side) => s.WithEp(side, DoOrphan(s.Ep(side)))
    case EmitOut(side) => s.WithEp(side, DoEmit(s.Ep(side)))
    case Disconnect(side) => s.WithEp(side, s.Ep(side).(up := false))
    case Reconnect(side) => s.WithEp(side, s.Ep(side).(up := true))
    case SendFail(side) =>
      var e := s.Ep(side);
      s.WithEp(side, DoDrain(e).(up := false)).WithLost(side, s.Lost(side) + [e.out[0]])
    case Lose(side, at) =>
      var w := s.Wire(side);
      s.WithWire(side, w[..at] + w[at + 1..]).WithLost(side, s.Lost(side) + [w[at]])
  }

  function NewEndpoint(): Endpoint {
    Endpoint(map[], [], Ready, [], false, 0, 0, [], 0)
  }

  /** A fresh listener and a fresh gate, neither connected to the relay yet. */
  function Init(): State {
    State(NewEndpoint(), NewEndpoint(), [], [], Waiting, 0, [], [])
  }
}
