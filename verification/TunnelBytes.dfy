/** Conservation of payload bytes, whatever fails. */
module TunnelBytes {
  import opened Common
  import opened TunnelModel
  import opened TunnelFootprint
  import opened TunnelBase
  import opened TunnelTheorems
  import Stat

  /** Bytes a reader has counted and not yet put into `out`. */
  function InHand(c: Conn): nat {
    if c.rd.Holding? && c.got != [] then |c.got[|c.got| - 1]| else 0
  }

  /** Bytes in the queue of a writer. */
  function Waiting(c: Conn): nat {
    Size(c.queue)
  }

  function Sum(socks: seq<Conn>, of: Conn -> nat): nat {
    if socks == [] then 0 else Sum(socks[..|socks| - 1], of) + of(socks[|socks| - 1])
  }

  lemma {:induction false} SumUpdate(socks: seq<Conn>, k: nat, c: Conn, of: Conn -> nat)
    requires k < |socks|
    ensures Sum(socks[k := c], of) + of(socks[k]) == Sum(socks, of) + of(c)
    decreases |socks|
  {
    var n := |socks| - 1;
    if k == n {
      assert socks[k := c][..n] == socks[..n];
    } else {
      SumUpdate(socks[..n], k, c, of);
      assert socks[k := c][..n] == socks[..n][k := c];
    }
  }

  lemma SumGrows(socks: seq<Conn>, c: Conn, of: Conn -> nat)
    ensures Sum(socks + [c], of) == Sum(socks, of) + of(c)
  {
    assert (socks + [c])[..|socks|] == socks;
  }

  lemma SizeAppend(p: seq<Frame>, f: Frame)
    ensures Size(p + [f]) == Size(p) + PayloadSize(f)
  {
    assert (p + [f])[..|p|] == p;
  }

  lemma {:induction false} SizeConcat(p: seq<Frame>, q: seq<Frame>)
    ensures Size(p + q) == Size(p) + Size(q)
    decreases |q|
  {
    if q == [] {
      assert p + q == p;
    } else {
      assert p + q == (p + q[..|q| - 1]) + [q[|q| - 1]];
      SizeAppend(p + q[..|q| - 1], q[|q| - 1]);
      SizeConcat(p, q[..|q| - 1]);
    }
  }

  lemma SizeWithout(p: seq<Frame>, i: nat)
    requires i < |p|
    ensures Size(p) == Size(p[..i] + p[i + 1..]) + PayloadSize(p[i])
  {
    hide Size, PayloadSize;
    assert p == p[..i] + p[i..] && p[i..][0] == p[i] && p[i..][1..] == p[i + 1..];
    SizeConcat(p[..i], p[i..]);
    SizeTail(p[i..]);
    SizeConcat(p[..i], p[i + 1..]);
  }

  lemma SizeTail(p: seq<Frame>)
    requires p != []
    ensures Size(p) == Size(p[1..]) + PayloadSize(p[0])
  {
    assert p == [p[0]] + p[1..];
    SizeConcat([p[0]], p[1..]);
    SizeAppend([], p[0]);
    assert [] + [p[0]] == [p[0]];
  }

  /** Bytes the session loop is about to queue. */
  function AtSession(e: Endpoint): nat {
    if e.sess.Deliver? then PayloadSize(e.sess.frame) else 0
  }

  /** Bytes counted by the readers of `snd` that are still at that end. */
  function AtSender(snd: Endpoint): nat {
    Sum(snd.socks, InHand) + Size(snd.out)
  }

  /** Bytes that have reached `rcv`: not yet written, written, or thrown away. */
  function AtReceiver(rcv: Endpoint): nat {
    AtSession(rcv) + Sum(rcv.socks, Waiting) + rcv.rx + rcv.spilt
  }

  /** TX_BYTES at one end is accounted for, byte by byte. */
  ghost predicate Conserved(snd: Endpoint, wire: seq<Frame>, rcv: Endpoint, lost: seq<Frame>) {
    snd.tx == AtSender(snd) + Size(wire) + AtReceiver(rcv) + Size(lost)
  }

  ghost predicate ConservedBy(s: State, side: Side) {
    Conserved(s.Ep(side), s.Wire(side), s.Ep(Other(side)), s.Lost(side))
  }

  // ---------------------------------------------------------------- steps as a sending endpoint

  /** How a step changes what is at the sending end: `read` bytes come in, `drained` bytes go onto the wire. */
  ghost predicate SenderMoves(e: Endpoint, e': Endpoint, read: nat, drained: nat) {
    e'.tx == e.tx + read && AtSender(e') + drained == AtSender(e) + read
  }

  /** How a step changes what is at the receiving end: `taken` bytes come off the wire. */
  ghost predicate ReceiverMoves(e: Endpoint, e': Endpoint, taken: nat) {
    AtReceiver(e') == AtReceiver(e) + taken
  }

  lemma ReadMoves(e: Endpoint, k: nat, chunk: Chunk)
    requires CanRead(e, k, chunk)
    ensures SenderMoves(e, DoRead(e, k, chunk), |chunk|, 0) && ReceiverMoves(e, DoRead(e, k, chunk), 0)
  {
    var c' := DoRead(e, k, chunk).socks[k];
    SumUpdate(e.socks, k, c', InHand);
    SumUpdate(e.socks, k, c', Waiting);
  }

  lemma SendDataMoves(e: Endpoint, k: nat)
    requires CanSendData(e, k)
    ensures SenderMoves(e, DoSendData(e, k), 0, 0) && ReceiverMoves(e, DoSendData(e, k), 0)
  {
    var c' := DoSendData(e, k).socks[k];
    SumUpdate(e.socks, k, c', InHand);
    SumUpdate(e.socks, k, c', Waiting);
    SizeAppend(e.out, HeldData(e.socks[k], k));
  }

  lemma EofMoves(e: Endpoint, k: nat)
    requires CanEof(e, k)
    ensures SenderMoves(e, DoEof(e, k), 0, 0) && ReceiverMoves(e, DoEof(e, k), 0)
  {
    var c' := DoEof(e, k).socks[k];
    SumUpdate(e.socks, k, c', InHand);
    SumUpdate(e.socks, k, c', Waiting);
  }

  lemma SendCloseMoves(e: Endpoint, k: nat)
    requires CanSendClose(e, k)
    ensures SenderMoves(e, DoSendClose(e, k), 0, 0) && ReceiverMoves(e, DoSendClose(e, k), 0)
  {
    var c' := DoSendClose(e, k).socks[k];
    SumUpdate(e.socks, k, c', InHand);
    SumUpdate(e.socks, k, c', Waiting);
    SizeAppend(e.out, Frame(e.socks[k].id, k, Close));
  }

  lemma WriteMoves(e: Endpoint, k: nat)
    requires CanWrite(e, k)
    ensures SenderMoves(e, DoWrite(e, k), 0, 0) && ReceiverMoves(e, DoWrite(e, k), 0)
    ensures SenderMoves(e, DoWriteErr(e, k), 0, 0) && ReceiverMoves(e, DoWriteErr(e, k), 0)
  {
    SizeTail(e.socks[k].queue);
    SumUpdate(e.socks, k, DoWrite(e, k).socks[k], InHand);
    SumUpdate(e.socks, k, DoWrite(e, k).socks[k], Waiting);
    SumUpdate(e.socks, k, DoWriteErr(e, k).socks[k], InHand);
    SumUpdate(e.socks, k, DoWriteErr(e, k).socks[k], Waiting);
  }

  lemma ShutMoves(e: Endpoint, k: nat)
    requires CanShut(e, k)
    ensures SenderMoves(e, DoShut(e, k), 0, 0) && ReceiverMoves(e, DoShut(e, k), 0)
  {
    SizeTail(e.socks[k].queue);
    SumUpdate(e.socks, k, DoShut(e, k).socks[k], InHand);
    SumUpdate(e.socks, k, DoShut(e, k).socks[k], Waiting);
  }

  lemma StarveMoves(e: Endpoint, k: nat)
    requires CanStarve(e, k)
    ensures SenderMoves(e, DoStarve(e, k), 0, 0) && ReceiverMoves(e, DoStarve(e, k), 0)
  {
    SumUpdate(e.socks, k, DoStarve(e, k).socks[k], InHand);
    SumUpdate(e.socks, k, DoStarve(e, k).socks[k], Waiting);
  }

  lemma RemoveMoves(e: Endpoint, k: nat)
    requires CanRemove(e, k)
    ensures SenderMoves(e, DoRemove(e, k), 0, 0) && ReceiverMoves(e, DoRemove(e, k), 0)
  {
    SumUpdate(e.socks, k, DoRemove(e, k).socks[k], InHand);
    SumUpdate(e.socks, k, DoRemove(e, k).socks[k], Waiting);
  }

  lemma EnqueueMoves(e: Endpoint)
    requires CanEnqueue(e)
    ensures SenderMoves(e, DoEnqueue(e), 0, 0) && ReceiverMoves(e, DoEnqueue(e), 0)
  {
    var k := e.sess.to;
    SizeAppend(e.socks[k].queue, e.sess.frame);
    SumUpdate(e.socks, k, DoEnqueue(e).socks[k], InHand);
    SumUpdate(e.socks, k, DoEnqueue(e).socks[k], Waiting);
  }

  lemma OrphanMoves(e: Endpoint)
    requires CanOrphan(e)
    ensures SenderMoves(e, DoOrphan(e), 0, 0) && ReceiverMoves(e, DoOrphan(e), 0)
  {
    var k := e.sess.frame.tag;
    SumUpdate(e.socks, k, Answer(e.socks[k]), InHand);
    SumUpdate(e.socks, k, Answer(e.socks[k]), Waiting);
  }

  lemma EmitMoves(e: Endpoint)
    requires CanEmit(e) && SessionOk(e)
    ensures SenderMoves(e, DoEmit(e), 0, 0) && ReceiverMoves(e, DoEmit(e), 0)
  {
    SizeAppend(e.out, e.sess.frame);
  }

  lemma SpawnMoves(e: Endpoint, k: nat, sess: Session)
    requires k < |e.socks| && !e.socks[k].rd.Holding?
    requires sess == e.sess || (!sess.Deliver? && !e.sess.Deliver?)
    ensures var e' := Spawn(e, k).(sess := sess); SenderMoves(e, e', 0, 0) && ReceiverMoves(e, e', 0)
  {
    var c' := Spawn(e, k).socks[k];
    SumUpdate(e.socks, k, c', InHand);
    SumUpdate(e.socks, k, c', Waiting);
  }

  lemma RefuseMoves(e: Endpoint)
    requires CanDialEnd(e) && SessionOk(e)
    ensures SenderMoves(e, DoDialErr(e), 0, 0) && ReceiverMoves(e, DoDialErr(e), 0)
  {
    var k := e.sess.conn;
    SumUpdate(e.socks, k, DoDialErr(e).socks[k], InHand);
    SumUpdate(e.socks, k, DoDialErr(e).socks[k], Waiting);
  }

  lemma TakeMoves(e: Endpoint, f: Frame, dials: bool)
    requires CanTake(e, f)
    requires f.msg.Open? && dials ==> Fresh(e.socks[f.tag])
    ensures SenderMoves(e, DoTake(e, f, dials), 0, 0)
    ensures ReceiverMoves(e, DoTake(e, f, dials), PayloadSize(f))
  {
    if f.msg.Open? && dials {
      var c' := DoTake(e, f, dials).socks[f.tag];
      SumUpdate(e.socks, f.tag, c', InHand);
      SumUpdate(e.socks, f.tag, c', Waiting);
    }
  }

  /** Steps of one endpoint that leave the link alone. */
  ghost predicate OffTheLink(a: Action) {
    !a.Accept? && !a.SendOpen? && !a.Take? && !a.Drain? && !a.SendFail? && !a.Lose?
  }

  function ReadBy(a: Action): nat {
    if a.Read? then |a.chunk| else 0
  }

  lemma LocalMoves(s: State, a: Action, side: Side)
    requires Base(s) && Enabled(s, a) && OffTheLink(a) && !a.Insert? && !a.DialOk? && !a.DialErr?
    requires a.side == side
    ensures SenderMoves(s.Ep(side), Next(s, a).Ep(side), ReadBy(a), 0)
    ensures ReceiverMoves(s.Ep(side), Next(s, a).Ep(side), 0)
  {
    hide SenderMoves, ReceiverMoves, EndpointOk, SessionOk, SameIds, AcceptorOk, OpensOk, FirstRound, Tagged;
    var e := s.Ep(side);
    BaseSessions(s);
    match a
    case Read(_, k, chunk) => ReadMoves(e, k, chunk);
    case SendData(_, k) => SendDataMoves(e, k);
    case Eof(_, k) => EofMoves(e, k);
    case SendClose(_, k) => SendCloseMoves(e, k);
    case Write(_, k) => WriteMoves(e, k);
    case WriteErr(_, k) => WriteMoves(e, k);
    case Shut(_, k) => ShutMoves(e, k);
    case Starve(_, k) => StarveMoves(e, k);
    case Remove(_, k) => RemoveMoves(e, k);
    case Enqueue(_) => EnqueueMoves(e);
    case Orphan(_) => OrphanMoves(e);
    case EmitOut(_) => EmitMoves(e);
    case Disconnect(_) => UpDownMoves(e, false);
    case Reconnect(_) => UpDownMoves(e, true);
    case _ =>
  }

  lemma BaseSessions(s: State)
    requires Base(s)
    ensures SessionOk(s.home) && SessionOk(s.gate)
  {
    hide SessionOk, SameIds, AcceptorOk, OpensOk, FirstRound, Tagged;
  }

  lemma UpDownMoves(e: Endpoint, up: bool)
    ensures SenderMoves(e, e.(up := up), 0, 0) && ReceiverMoves(e, e.(up := up), 0)
  {
  }

  lemma StartMoves(s: State, a: Action, side: Side)
    requires Base(s) && Enabled(s, a) && (a.Insert? || a.DialOk? || a.DialErr?)
    ensures SenderMoves(s.Ep(side), Next(s, a).Ep(side), 0, 0)
    ensures ReceiverMoves(s.Ep(side), Next(s, a).Ep(side), 0)
  {
    hide SameIds, OpensOk, FirstRound, Tagged, AtSender, AtReceiver;
    if a.Insert? {
      assert ConnOk(s.home.socks[|s.home.socks| - 1]);
      SpawnMoves(s.home, |s.home.socks| - 1, s.home.sess);
    } else if a.DialOk? {
      SpawnMoves(s.gate, s.gate.sess.conn, Ready);
    } else {
      RefuseMoves(s.gate);
    }
  }

  /** Balance of one direction after a step of its ends. */
  lemma Balance(snd: Endpoint, snd': Endpoint, w: seq<Frame>, w': seq<Frame>, rcv: Endpoint, rcv': Endpoint,
                lost: seq<Frame>, lost': seq<Frame>, read: nat, drained: nat, taken: nat)
    requires Conserved(snd, w, rcv, lost)
    requires SenderMoves(snd, snd', read, drained) && ReceiverMoves(rcv, rcv', taken)
    requires Size(w') + Size(lost') + taken == Size(w) + Size(lost) + drained
    ensures Conserved(snd', w', rcv', lost')
  {
  }

  lemma DrainBalance(snd: Endpoint, w: seq<Frame>, rcv: Endpoint, lost: seq<Frame>)
    requires Conserved(snd, w, rcv, lost) && CanDrain(snd)
    ensures Conserved(DoDrain(snd), w + [snd.out[0]], rcv, lost)
    ensures Conserved(DoDrain(snd).(up := false), w, rcv, lost + [snd.out[0]])
  {
    SizeTail(snd.out);
    SizeAppend(w, snd.out[0]);
    SizeAppend(lost, snd.out[0]);
  }

  lemma LoseBalance(snd: Endpoint, w: seq<Frame>, rcv: Endpoint, lost: seq<Frame>, i: nat)
    requires Conserved(snd, w, rcv, lost) && i < |w|
    ensures Conserved(snd, w[..i] + w[i + 1..], rcv, lost + [w[i]])
  {
    SizeWithout(w, i);
    SizeAppend(lost, w[i]);
  }

  lemma LinkMoves(s: State, a: Action, side: Side)
    requires ConservedBy(s, side) && Enabled(s, a) && (a.Drain? || a.SendFail? || a.Lose?) && a.side == side
    ensures ConservedBy(Next(s, a), side)
  {
    hide Conserved;
    if a.Lose? {
      LoseBalance(s.Ep(side), s.Wire(side), s.Ep(Other(side)), s.Lost(side), a.at);
    } else {
      DrainBalance(s.Ep(side), s.Wire(side), s.Ep(Other(side)), s.Lost(side));
    }
  }

  lemma NothingMoves(e: Endpoint)
    ensures SenderMoves(e, e, 0, 0) && ReceiverMoves(e, e, 0)
  {
  }

  lemma LinkMovesOther(s: State, a: Action, side: Side)
    requires ConservedBy(s, side) && Enabled(s, a) && (a.Drain? || a.SendFail? || a.Lose?) && a.side != side
    ensures ConservedBy(Next(s, a), side)
  {
  }

  lemma GrowBalance(snd: Endpoint, w: seq<Frame>, rcv: Endpoint, lost: seq<Frame>, id: ConnId)
    requires Conserved(snd, w, rcv, lost)
    ensures Conserved(snd.(socks := snd.socks + [NewConn(id)]), w, rcv.(socks := rcv.socks + [NewConn(id)]), lost)
  {
    SumGrows(snd.socks, NewConn(id), InHand);
    SumGrows(rcv.socks, NewConn(id), Waiting);
  }

  lemma AcceptMoves(s: State, side: Side)
    requires ConservedBy(s, side) && Enabled(s, Accept)
    ensures ConservedBy(Next(s, Accept), side)
  {
    var s' := Next(s, Accept);
    if s' != s {
      GrowBalance(s.Ep(side), s.Wire(side), s.Ep(Other(side)), s.Lost(side), s'.home.socks[|s.home.socks|].id);
    }
  }

  lemma OpenBalance(snd: Endpoint, w: seq<Frame>, rcv: Endpoint, lost: seq<Frame>, f: Frame)
    requires f.msg.Open?
    ensures Conserved(snd, w, rcv, lost) ==> Conserved(snd.(out := snd.out + [f]), w, rcv, lost)
    ensures Conserved(snd, w, rcv, lost) ==> Conserved(snd, w, rcv.(out := rcv.out + [f]), lost)
  {
    SizeAppend(snd.out, f);
  }

  lemma SendOpenMoves(s: State, side: Side)
    requires ConservedBy(s, side) && Enabled(s, SendOpen)
    ensures ConservedBy(Next(s, SendOpen), side)
  {
    var k := |s.home.socks| - 1;
    OpenBalance(s.Ep(side), s.Wire(side), s.Ep(Other(side)), s.Lost(side), Frame(s.home.socks[k].id, k, Open));
  }

  lemma TakeBalance(s: State, a: Action, side: Side)
    requires Base(s) && ConservedBy(s, side) && Enabled(s, a) && a.Take?
    ensures ConservedBy(Next(s, a), side)
  {
    var w := s.Wire(Other(a.side));
    assert s.Pipe(Other(a.side))[0] == w[0];
    TakeMoves(s.Ep(a.side), w[0], a.side.Gate?);
    SizeTail(w);
    var s' := Next(s, a);
    Balance(s.Ep(side), s'.Ep(side), s.Wire(side), s'.Wire(side), s.Ep(Other(side)), s'.Ep(Other(side)),
            s.Lost(side), s'.Lost(side), 0, 0, if a.side == side then 0 else PayloadSize(w[0]));
  }

  lemma StartBalance(s: State, a: Action, side: Side)
    requires Base(s) && ConservedBy(s, side) && Enabled(s, a) && (a.Insert? || a.DialOk? || a.DialErr?)
    ensures ConservedBy(Next(s, a), side)
  {
    StartMoves(s, a, side);
    StartMoves(s, a, Other(side));
    StartKeepsWire(s, a, side);
    var s' := Next(s, a);
    Balance(s.Ep(side), s'.Ep(side), s.Wire(side), s'.Wire(side), s.Ep(Other(side)), s'.Ep(Other(side)),
            s.Lost(side), s'.Lost(side), 0, 0, 0);
  }

  lemma StartKeepsWire(s: State, a: Action, side: Side)
    requires Enabled(s, a) && (a.Insert? || a.DialOk? || a.DialErr?)
    ensures Next(s, a).Wire(side) == s.Wire(side) && Next(s, a).Lost(side) == s.Lost(side)
  {
  }

  lemma LocalKeepsWire(s: State, a: Action, side: Side)
    requires Enabled(s, a) && OffTheLink(a) && !a.Insert? && !a.DialOk? && !a.DialErr?
    ensures Next(s, a).Wire(side) == s.Wire(side) && Next(s, a).Lost(side) == s.Lost(side)
    ensures a.side != side ==> Next(s, a).Ep(side) == s.Ep(side)
  {
    hide Enabled, Next;
    if a.side != side {
      OtherRests(s, a, side);
      LinksRest(s, a, side);
    } else if ByLink(a) {
      LinkTouches(s, a);
    } else {
      LinksRest(s, a, side);
    }
  }

  lemma LocalBalance(s: State, a: Action, side: Side)
    requires Base(s) && ConservedBy(s, side) && Enabled(s, a)
    requires OffTheLink(a) && !a.Insert? && !a.DialOk? && !a.DialErr?
    ensures ConservedBy(Next(s, a), side)
  {
    hide Base, Enabled, Next, SenderMoves, ReceiverMoves, Size;
    LocalMoves(s, a, a.side);
    LocalKeepsWire(s, a, side);
    LocalKeepsWire(s, a, Other(side));
    NothingMoves(s.Ep(Other(a.side)));
    var s' := Next(s, a);
    Balance(s.Ep(side), s'.Ep(side), s.Wire(side), s'.Wire(side), s.Ep(Other(side)), s'.Ep(Other(side)),
            s.Lost(side), s'.Lost(side), if a.side == side then ReadBy(a) else 0, 0, 0);
  }

  lemma ConservedStep(s: State, a: Action, side: Side)
    requires Base(s) && ConservedBy(s, side) && Enabled(s, a)
    ensures ConservedBy(Next(s, a), side)
  {
    if a.Accept? {
      AcceptMoves(s, side);
    } else if a.SendOpen? {
      SendOpenMoves(s, side);
    } else if a.Take? {
      TakeBalance(s, a, side);
    } else if a.Insert? || a.DialOk? || a.DialErr? {
      StartBalance(s, a, side);
    } else if a.Drain? || a.SendFail? || a.Lose? {
      LinkStep(s, a, side);
    } else {
      LocalBalance(s, a, side);
    }
  }

  lemma LinkStep(s: State, a: Action, side: Side)
    requires ConservedBy(s, side) && Enabled(s, a) && (a.Drain? || a.SendFail? || a.Lose?)
    ensures ConservedBy(Next(s, a), side)
  {
    if a.side == side {
      LinkMoves(s, a, side);
    } else {
      LinkMovesOther(s, a, side);
    }
  }

  lemma {:induction false} ConservationFrom(s: State, acts: seq<Action>, side: Side)
    requires Base(s) && ConservedBy(s, side) && Legal(Anything, s, acts)
    ensures ConservedBy(After(Anything, s, acts), side)
    decreases |acts|
  {
    if acts != [] {
      BaseStep(s, acts[0]);
      ConservedStep(s, acts[0], side);
      ConservationFrom(Next(s, acts[0]), acts[1..], side);
    }
  }

  /**
   In every reachable state, whatever has failed on the way, each byte counted by TX_BYTES at one end is in a
   reader's hands, in `out`, under way, held by the session loop, in a writer's queue, counted by RX_BYTES at the
   other end, thrown away there, or lost with the link.
   */
  lemma Conservation(acts: seq<Action>, side: Side)
    requires Legal(Anything, Init(), acts)
    ensures ConservedBy(After(Anything, Init(), acts), side)
  {
    BaseInit();
    ConservedInit(side);
    ConservationFrom(Init(), acts, side);
  }

  lemma ConservedInit(side: Side)
    ensures ConservedBy(Init(), side)
  {
  }

  /**
   No end ever counts more bytes received than the other has counted sent; nor do the counters as they are kept,
   modulo 2^64, show more, until the sent ones wrap for the first time.
   */
  lemma ReceivedIsSent(acts: seq<Action>, side: Side)
    requires Legal(Anything, Init(), acts)
    ensures var s := After(Anything, Init(), acts);
      && s.Ep(Other(side)).rx <= s.Ep(side).tx
      && (s.Ep(side).tx < Stat.WIDTH ==> s.Ep(Other(side)).rx % Stat.WIDTH <= s.Ep(side).tx % Stat.WIDTH)
  {
    hide Sum, Size, Legal, After;
    Conservation(acts, side);
    SmallTotals(After(Anything, Init(), acts).Ep(side).tx, After(Anything, Init(), acts).Ep(Other(side)).rx);
  }

  lemma SmallTotals(tx: nat, rx: nat)
    requires rx <= tx
    ensures tx < Stat.WIDTH ==> rx % Stat.WIDTH <= tx % Stat.WIDTH
  {
  }

  // ---------------------------------------------------------------- what RX_BYTES counts

  /** Bytes the writer of a connection has written. */
  function Written(c: Conn): nat {
    Size(c.log)
  }

  /** The chunk at the front of the queue, if it is its write that fails in this step. */
  function Failing(s: State, a: Action, side: Side): nat
    requires Enabled(s, a)
  {
    if a.WriteErr? && a.side == side then PayloadSize(s.Ep(side).socks[a.k].queue[0]) else 0
  }

  /** The chunks whose writes failed at `side` in the course of a run. */
  ghost function Spoilt(r: Rules, s: State, acts: seq<Action>, side: Side): nat
    requires Legal(r, s, acts)
    decreases |acts|
  {
    if acts == [] then 0 else Failing(s, acts[0], side) + Spoilt(r, Next(s, acts[0]), acts[1..], side)
  }

  /** No log has changed, nor what is counted. */
  ghost predicate LogsStay(e: Endpoint, e': Endpoint) {
    e'.rx == e.rx && |e'.socks| == |e.socks| && forall k | 0 <= k < |e.socks| :: e'.socks[k].log == e.socks[k].log
  }

  lemma {:induction false} SumSame(socks: seq<Conn>, socks': seq<Conn>)
    requires |socks'| == |socks| && forall k | 0 <= k < |socks| :: socks'[k].log == socks[k].log
    ensures Sum(socks', Written) == Sum(socks, Written)
    decreases |socks|
  {
    if socks != [] {
      SumSame(socks[..|socks| - 1], socks'[..|socks| - 1]);
    }
  }

  lemma OneEndpointLogs(s: State, a: Action, side: Side)
    requires Enabled(s, a) && OfOneEndpoint(a) && (a.side == side ==> !ByWriter(a))
    ensures LogsStay(s.Ep(side), Next(s, a).Ep(side))
  {
    hide Enabled, Next;
    if a.side != side {
      OtherRests(s, a, side);
    } else if ByReader(a) {
      ReaderTouches(s, a);
      ReaderChanges(s, a);
    } else if BySession(a) {
      SessionTouches(s, a);
      SessionChanges(s, a);
    } else {
      LinkTouches(s, a);
    }
  }

  lemma OtherLogs(s: State, a: Action, side: Side)
    requires Enabled(s, a) && !OfOneEndpoint(a) && !a.Accept?
    ensures LogsStay(s.Ep(side), Next(s, a).Ep(side))
  {
  }

  lemma AcceptLogs(s: State, side: Side)
    requires Enabled(s, Accept)
    ensures var e, e' := s.Ep(side), Next(s, Accept).Ep(side);
      e'.rx == e.rx && Sum(e'.socks, Written) == Sum(e.socks, Written)
  {
    var s' := Next(s, Accept);
    if s' != s {
      SumGrows(s.Ep(side).socks, NewConn(s'.home.socks[|s.home.socks|].id), Written);
    }
  }

  lemma WriterLogs(s: State, a: Action)
    requires Enabled(s, a) && ByWriter(a)
    ensures var e, e' := s.Ep(a.side), Next(s, a).Ep(a.side);
      e'.rx - Sum(e'.socks, Written) == e.rx - Sum(e.socks, Written) + Failing(s, a, a.side)
  {
    hide Sum, Size;
    var c, c' := s.Ep(a.side).socks[a.k], Next(s, a).Ep(a.side).socks[a.k];
    SumUpdate(s.Ep(a.side).socks, a.k, c', Written);
    if a.Write? || a.Shut? {
      SizeAppend(c.log, c.queue[0]);
    }
  }

  lemma RxStep(s: State, a: Action, side: Side)
    requires Enabled(s, a)
    ensures var e, e' := s.Ep(side), Next(s, a).Ep(side);
      e'.rx - Sum(e'.socks, Written) == e.rx - Sum(e.socks, Written) + Failing(s, a, side)
  {
    hide Enabled, Next, Sum, Size;
    if a.Accept? {
      AcceptLogs(s, side);
    } else if OfOneEndpoint(a) && ByWriter(a) && a.side == side {
      WriterLogs(s, a);
    } else {
      if OfOneEndpoint(a) {
        OneEndpointLogs(s, a, side);
      } else {
        OtherLogs(s, a, side);
      }
      SumSame(s.Ep(side).socks, Next(s, a).Ep(side).socks);
    }
  }

  lemma {:induction false} RxFrom(r: Rules, s: State, acts: seq<Action>, side: Side)
    requires Legal(r, s, acts)
    ensures var e, e' := s.Ep(side), After(r, s, acts).Ep(side);
      e'.rx - Sum(e'.socks, Written) == e.rx - Sum(e.socks, Written) + Spoilt(r, s, acts, side)
    ensures r.NoWriteFails? ==> Spoilt(r, s, acts, side) == 0
    decreases |acts|
  {
    hide Enabled, Next, Sum;
    if acts != [] {
      RxStep(s, acts[0], side);
      RxFrom(r, Next(s, acts[0]), acts[1..], side);
    }
  }

  /** RX_BYTES is what has been written, over all connections, and the one chunk of every write that failed. */
  lemma RxIsWritten(r: Rules, acts: seq<Action>, side: Side)
    requires Legal(r, Init(), acts)
    ensures var e := After(r, Init(), acts).Ep(side);
      && e.rx == Sum(e.socks, Written) + Spoilt(r, Init(), acts, side)
      && (r.NoWriteFails? ==> e.rx == Sum(e.socks, Written))
  {
    hide Legal, After, Spoilt;
    RxFrom(r, Init(), acts, side);
  }
}
