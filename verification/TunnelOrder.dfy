/**
 The order in which frames of reused ids leave home and reach the gate.
 */
module TunnelOrder {
  import opened Common
  import opened Allocator
  import opened TunnelModel
  import opened TunnelFootprint
  import opened TunnelBase
  import opened TunnelGrowth
  import opened TunnelTrack
  import opened TunnelLane
  import opened TunnelSteps
  import opened TunnelInv

  /** Before an id was announced again, every earlier home reader on it had ended. */
  ghost predicate EndedBefore(socks: seq<Conn>, sent: nat) {
    forall j, k | 0 <= j < k < sent && k < |socks| && socks[j].id == socks[k].id :: socks[j].rd.Done?
  }

  /** Frames for one id are in the order of their connections. */
  ghost predicate Sorted(p: seq<Frame>) {
    forall i, m | 0 <= i < m < |p| && p[i].id == p[m].id :: p[i].tag <= p[m].tag
  }

  /**
   A gate entry is the latest announced connection on its id, or the gate dials for each later one, or the OPEN of
   that one is to come or lost.
   */
  ghost predicate EntriesCurrent(p: seq<Frame>, lost: seq<Frame>, gate: Endpoint, sent: nat) {
    forall id, k | id in gate.conns && gate.conns[id] < k < sent && k < |gate.socks| && gate.socks[k].id == id ::
      gate.sess == Dial(id, k) || Frame(id, k, Open) in p || Frame(id, k, Open) in lost
  }

  /** Once the gate has handled an OPEN, the frames of earlier connections on that id are behind it. */
  ghost predicate NoneOvertaken(p: seq<Frame>, gate: seq<Conn>) {
    forall i, k | 0 <= i < |p| && 0 <= k < |gate| && !Fresh(gate[k]) && p[i].id == gate[k].id :: k <= p[i].tag
  }

  ghost predicate Order(p: seq<Frame>, lost: seq<Frame>, home: seq<Conn>, gate: Endpoint, sent: nat) {
    && EndedBefore(home, sent)
    && Sorted(p)
    && EntriesCurrent(p, lost, gate, sent)
    && NoneOvertaken(p, gate.socks)
  }

  ghost predicate OrderOk(s: State) {
    Order(HomePipe(s), s.lostHG, s.home.socks, s.gate, SentCount(s))
  }

  /** An id is announced again only when every earlier home reader on it has ended. */
  predicate ReadersEnded(s: State, a: Action)
    requires Enabled(s, a)
  {
    a.SendOpen? ==>
      var n := |s.home.socks| - 1;
      forall j | 0 <= j < n && s.home.socks[j].id == s.home.socks[n].id :: s.home.socks[j].rd.Done?
  }

  /** When the dial for an OPEN ends, the gate has no entry for its id. */
  predicate EntryFree(s: State, a: Action)
    requires Enabled(s, a)
  {
    a.DialOk? || a.DialErr? ==> s.gate.sess.id !in s.gate.conns
  }

  // ---------------------------------------------------------------- home to gate: routing

  /** The gate has not started on a connection that home has not announced. */
  lemma StartedIsSent(s: State, k: nat)
    requires Base(s) && k < |s.gate.socks| && !Fresh(s.gate.socks[k])
    ensures k < SentCount(s)
  {
  }

  /** OPEN comes before everything else of its connection. */
  lemma OpenComesFirst(snd: Endpoint, wire: seq<Frame>, rcv: Endpoint, whole: bool, f: Frame)
    requires LaneOk(snd, wire, rcv, whole) && wire != [] && wire[0].tag < |snd.socks| && !wire[0].msg.Open?
    requires f.msg.Open? && f.tag == wire[0].tag
    ensures f !in wire + snd.out
  {
    var k := f.tag;
    assert LaneAt(snd, wire, rcv, k, whole);
    HeadMoves(snd, wire, k);
    OpenNotInFront(Back(rcv, k), Front(snd, wire, k), Of(wire + snd.out, k), snd.socks[k], k, whole, f);
    OfMembers(wire + snd.out, k);
  }

  lemma OpenNotInFront(b: seq<Frame>, y: seq<Frame>, z: seq<Frame>, c: Conn, k: nat, whole: bool, f: Frame)
    requires GoodTrack(b + y, c, k, whole) && y != [] && !y[0].msg.Open? && z <= y
    requires f.msg.Open?
    ensures f !in z
  {
    forall i | 0 <= i < |z|
      ensures z[i] != f
    {
      assert (b + y)[|b| + i] == z[i];
    }
  }

  /** Nothing has happened on a connection that is about to be announced. */
  lemma UnsentIsEmpty(s: State)
    requires Base(s) && Lane(s, Home) && s.acc.Opening? && HomeStraight(s.home)
    ensures Track(s.home, s.hg, s.gate, |s.home.socks| - 1) == []
  {
    hide Base, Of, Track, HeldOk, WriterOk, GoodTrack, HomeStraight;
    UnsentIsUntouched(s);
    var k := |s.home.socks| - 1;
    var t := Track(s.home, s.hg, s.gate, k);
    assert LaneAt(s.home, s.hg, s.gate, k, s.lostHG == []);
    if t != [] {
      HeadIsOpen(t, s.home.socks[k], k, s.lostHG == []);
      InTrack(s.home, s.hg, s.gate, k, t[0]);
      UnsentHasNoOpen(s, t[0]);
    }
  }

  lemma UnsentIsUntouched(s: State)
    requires Base(s) && s.acc.Opening? && HomeStraight(s.home)
    ensures s.home.socks != [] && |s.home.socks| == |s.gate.socks|
    ensures var c, g := s.home.socks[|s.home.socks| - 1], s.gate.socks[|s.home.socks| - 1];
      c.rd.NotYet? && c.got == [] && g.log == [] && g.queue == []
  {
    hide Tagged, OpensOk, FirstRound;
    var k := |s.home.socks| - 1;
    assert ConnOk(s.home.socks[k]) && ConnOk(s.gate.socks[k]);
  }

  /** Before anything has been read or ended there can only be OPEN. */
  lemma HeadIsOpen(t: seq<Frame>, c: Conn, k: nat, whole: bool)
    requires GoodTrack(t, c, k, whole) && t != [] && c.got == [] && !Finished(c)
    ensures t[0].msg.Open? && t[0].tag == k && t[0] in t
  {
    assert FrameOk(t[0], c, k);
  }

  /** Where the frames of a connection are that nothing has happened on at either end. */
  lemma InTrack(snd: Endpoint, wire: seq<Frame>, rcv: Endpoint, k: nat, f: Frame)
    requires k < |snd.socks| && k < |rcv.socks| && f in Track(snd, wire, rcv, k)
    requires snd.socks[k].rd.NotYet? && rcv.socks[k].log == [] && rcv.socks[k].queue == []
    ensures f in rcv.missed || f in wire + snd.out || HeldFor(rcv.sess, k) != []
      || (snd.sess.Emit? && f == snd.sess.frame)
  {
    hide HeldFor;
    OfMembers(rcv.missed, k);
    OfMembers(wire + snd.out, k);
  }

  lemma UnsentHasNoOpen(s: State, f: Frame)
    requires Base(s) && s.acc.Opening? && f.tag == |s.home.socks| - 1 && f.msg.Open?
    ensures f !in s.gate.missed && f !in s.hg + s.home.out
    ensures HeldFor(s.gate.sess, f.tag) == []
    ensures s.home.sess.Emit? ==> s.home.sess.frame != f
  {
    hide FirstRound;
    var p := s.hg + s.home.out;
    assert forall i | 0 <= i < |p| && p[i].msg.Open? :: p[i].tag < SentCount(s);
  }

  /** Every frame in the home pipe is of an announced connection. */
  lemma PipeIsSent(s: State)
    requires Base(s) && Lane(s, Home) && HomeStraight(s.home)
    ensures forall i | 0 <= i < |HomePipe(s)| :: HomePipe(s)[i].tag < SentCount(s)
  {
    hide LaneOk, EndpointOk, AcceptorOk, OpensOk, FirstRound, Of, HomeStraight;
    HomePipeTagged(s);
    if s.acc.Opening? {
      UnsentIsUntouched(s);
      var n := |s.home.socks| - 1;
      UnsentIsEmpty(s);
      EmptyParts(Back(s.gate, n), Of(HomePipe(s), n), Pending(s.home, n));
      NoneOf(HomePipe(s), n);
    }
  }

  lemma NoneOf(p: seq<Frame>, k: nat)
    requires Of(p, k) == []
    ensures forall i | 0 <= i < |p| :: p[i].tag != k
  {
    OfMembers(p, k);
    forall i | 0 <= i < |p| ensures p[i].tag != k {
      assert p[i] in p;
    }
  }

  lemma HeadIsSent(s: State)
    requires Base(s) && Lane(s, Home) && HomeStraight(s.home) && s.hg != []
    ensures s.hg[0].tag < SentCount(s)
  {
    PipeIsSent(s);
    assert HomePipe(s)[0] == s.hg[0];
  }

  // ---------------------------------------------------------------- home to gate: order

  lemma OrderGrows(p: seq<Frame>, lost: seq<Frame>, home: seq<Conn>, home': seq<Conn>, gate: Endpoint, gate': Endpoint,
                   sent: nat)
    requires Order(p, lost, home, gate, sent)
    requires |home'| == |home| && forall k | 0 <= k < |home| :: ConnGrows(home[k], home'[k])
    requires NoStarts(gate, gate')
    ensures Order(p, lost, home', gate', sent)
  {
  }

  /** A reader that has not ended queues a frame. */
  lemma OrderAppend(p: seq<Frame>, lost: seq<Frame>, f: Frame, home: seq<Conn>, gate: Endpoint, sent: nat)
    requires Order(p, lost, home, gate, sent)
    requires !f.msg.Open? && f.tag < |home| && f.id == home[f.tag].id && !home[f.tag].rd.Done?
    requires |home| == |gate.socks| && forall k | 0 <= k < |home| :: home[k].id == gate.socks[k].id
    requires Tagged(p, home) && forall i | 0 <= i < |p| :: p[i].tag < sent
    requires forall k | 0 <= k < |gate.socks| && !Fresh(gate.socks[k]) :: k < sent
    ensures Order(p + [f], lost, home, gate, sent)
  {
  }

  /** The acceptor announces the newest connection. */
  lemma OrderOpen(p: seq<Frame>, lost: seq<Frame>, f: Frame, home: seq<Conn>, gate: Endpoint, sent: nat)
    requires Order(p, lost, home, gate, sent)
    requires f.msg.Open? && f.tag == sent && |home| == sent + 1 && f.id == home[sent].id
    requires |home| == |gate.socks| && forall k | 0 <= k < |home| :: home[k].id == gate.socks[k].id
    requires Tagged(p, home)
    requires forall j | 0 <= j < sent && home[j].id == home[sent].id :: home[j].rd.Done?
    ensures Order(p + [f], lost, home, gate, sent + 1)
  {
  }

  /** A frame leaves the pipe: if it is an OPEN, then because it is lost or because the gate dials for it. */
  lemma OrderWithout(p: seq<Frame>, lost: seq<Frame>, lost': seq<Frame>, i: nat, home: seq<Conn>, gate: Endpoint,
                     sent: nat)
    requires Order(p, lost, home, gate, sent) && i < |p| && lost <= lost'
    requires p[i].msg.Open? ==> gate.sess == Dial(p[i].id, p[i].tag) || p[i] in lost'
    ensures Order(p[..i] + p[i + 1..], lost', home, gate, sent)
  {
    var p' := p[..i] + p[i + 1..];
    forall j | 0 <= j < |p'| ensures p'[j] == p[if j < i then j else j + 1] {}
    forall f | f in p && f != p[i] ensures f in p' {
      var j :| 0 <= j < |p| && p[j] == f;
      assert p'[if j < i then j else j - 1] == f;
    }
  }

  /** The gate handles an OPEN. */
  lemma OrderDials(p: seq<Frame>, lost: seq<Frame>, home: seq<Conn>, gate: Endpoint, sent: nat)
    requires Order(p, lost, home, gate, sent) && p != []
    requires p[0].msg.Open? && CanTake(gate, p[0]) && p[0].id == gate.socks[p[0].tag].id
    ensures Order(p[1..], lost, home, DoTake(gate, p[0], true), sent)
  {
    OrderStarts(p, lost, home, gate, sent);
    OrderWithout(p, lost, lost, 0, home, DoTake(gate, p[0], true), sent);
    assert p[..0] + p[1..] == p[1..];
  }

  lemma OrderStarts(p: seq<Frame>, lost: seq<Frame>, home: seq<Conn>, gate: Endpoint, sent: nat)
    requires Order(p, lost, home, gate, sent) && p != []
    requires p[0].msg.Open? && CanTake(gate, p[0]) && p[0].id == gate.socks[p[0].tag].id
    ensures Order(p, lost, home, DoTake(gate, p[0], true), sent)
  {
  }

  /** The gate could not dial. */
  lemma OrderRefuses(p: seq<Frame>, lost: seq<Frame>, home: seq<Conn>, gate: Endpoint, sent: nat)
    requires Order(p, lost, home, gate, sent) && CanDialEnd(gate) && SessionOk(gate) && gate.sess.id !in gate.conns
    ensures Order(p, lost, home, DoDialErr(gate), sent)
  {
  }

  lemma OrderDialErr(s: State)
    requires OrderOk(s) && Enabled(s, DialErr) && SessionOk(s.gate) && s.gate.sess.id !in s.gate.conns
    ensures OrderOk(Next(s, DialErr))
  {
    OrderRefuses(HomePipe(s), s.lostHG, s.home.socks, s.gate, SentCount(s));
  }

  /** The connection the gate dials for is the latest on its id: home cannot have freed that id yet. */
  lemma DialIsLatest(s: State)
    requires InvGH(s) && CanDialEnd(s.gate)
    ensures forall k | s.gate.sess.conn < k < |s.gate.socks| :: s.gate.socks[k].id != s.gate.socks[s.gate.sess.conn].id
  {
    var c := s.gate.sess.conn;
    if s.home.socks[c].wr.Gone? {
      assert LaneAt(s.gate, s.gh, s.home, c, s.lostGH == []);
      StoppedTrack(s.gate, s.gh, s.home, s.lostGH == [], c);
    }
  }

  /** The gate registers the connection it has dialed. */
  lemma OrderSpawn(s: State)
    requires OrderOk(s) && CanDialEnd(s.gate) && SessionOk(s.gate)
    requires forall k | s.gate.sess.conn < k < |s.gate.socks| :: s.gate.socks[k].id != s.gate.socks[s.gate.sess.conn].id
    ensures OrderOk(Next(s, DialOk))
  {
    SpawnOrder(HomePipe(s), s.lostHG, s.home.socks, s.gate, SentCount(s));
  }

  lemma OrderDialOk(s: State)
    requires InvGH(s) && OrderOk(s) && Enabled(s, DialOk)
    ensures OrderOk(Next(s, DialOk))
  {
    hide Base, LaneOk, Retired, LostOpens, AnsweredLost, HomeStraight, Order, Next;
    BaseParts(s);
    DialIsLatest(s);
    OrderSpawn(s);
  }

  lemma SpawnOrder(p: seq<Frame>, lost: seq<Frame>, home: seq<Conn>, gate: Endpoint, sent: nat)
    requires Order(p, lost, home, gate, sent) && CanDialEnd(gate) && SessionOk(gate)
    requires forall k | gate.sess.conn < k < |gate.socks| :: gate.socks[k].id != gate.socks[gate.sess.conn].id
    ensures Order(p, lost, home, DoDialOk(gate), sent)
  {
  }

  lemma OrderAccept(s: State)
    requires OrderOk(s) && s.acc.Waiting? && SameIds(s)
    requires Tagged(HomePipe(s), s.gate.socks) && EntriesOk(s.gate)
    ensures OrderOk(Next(s, Accept))
  {
    var s' := Next(s, Accept);
    if s' != s {
      var c := s'.gate.socks[|s.gate.socks|];
      AcceptOrder(HomePipe(s), s.lostHG, s.home.socks, s.gate, c.id);
    }
  }

  lemma AcceptOrder(p: seq<Frame>, lost: seq<Frame>, home: seq<Conn>, gate: Endpoint, id: ConnId)
    requires Order(p, lost, home, gate, |home|) && |home| == |gate.socks|
    requires Tagged(p, gate.socks) && EntriesOk(gate)
    ensures Order(p, lost, home + [NewConn(id)], gate.(socks := gate.socks + [NewConn(id)]), |home|)
  {
  }

  lemma OrderSendOpen(s: State)
    requires OrderOk(s) && Enabled(s, SendOpen) && ReadersEnded(s, SendOpen)
    requires SameIds(s) && Tagged(HomePipe(s), s.home.socks)
    ensures OrderOk(Next(s, SendOpen))
  {
    var n := |s.home.socks| - 1;
    var f := Frame(s.home.socks[n].id, n, Open);
    assert HomePipe(Next(s, SendOpen)) == HomePipe(s) + [f];
    OrderOpen(HomePipe(s), s.lostHG, f, s.home.socks, s.gate, n);
  }

  /** A step of home, or of the link, that leaves the home pipe and the gate alone. */
  lemma OrderQuiet(s: State, s': State)
    requires OrderOk(s) && Grows(s.home, s'.home)
    requires HomePipe(s') == HomePipe(s) && s'.gate == s.gate
    requires s'.lostHG == s.lostHG && SentCount(s') == SentCount(s)
    ensures OrderOk(s')
  {
    OrderGrows(HomePipe(s), s.lostHG, s.home.socks, s'.home.socks, s.gate, s.gate, SentCount(s));
  }

  /** A home reader queues a frame. */
  lemma OrderQueues(s: State, s': State, f: Frame)
    requires Base(s) && OrderOk(s) && Lane(s, Home) && HomeStraight(s.home) && Grows(s.home, s'.home)
    requires HomePipe(s') == HomePipe(s) + [f] && s'.gate == s.gate
    requires s'.lostHG == s.lostHG && SentCount(s') == SentCount(s)
    requires !f.msg.Open? && f.tag < |s.home.socks| && f.id == s.home.socks[f.tag].id && !s.home.socks[f.tag].rd.Done?
    ensures OrderOk(s')
  {
    forall k | 0 <= k < |s.gate.socks| && !Fresh(s.gate.socks[k])
      ensures k < SentCount(s)
    {
      StartedIsSent(s, k);
    }
    PipeIsSent(s);
    PipeTagged(s);
    OrderAppend(HomePipe(s), s.lostHG, f, s.home.socks, s.gate, SentCount(s));
    OrderGrows(HomePipe(s'), s.lostHG, s.home.socks, s'.home.socks, s.gate, s.gate, SentCount(s));
  }

  lemma OrderReader(s: State, a: Action)
    requires Base(s) && OrderOk(s) && Lane(s, Home) && HomeStraight(s.home)
    requires Enabled(s, a) && (a.SendData? || a.SendClose?) && a.side.Home?
    requires Grows(s.home, Next(s, a).home)
    ensures OrderOk(Next(s, a))
  {
    hide Enabled, Next, Base, Order, LaneOk, HomeStraight, Grows, SentCount;
    var s' := Next(s, a);
    ReaderTouches(s, a);
    ReaderChanges(s, a);
    SentSame(s, a);
    var f := s'.home.out[|s.home.out|];
    assert HomePipe(s') == HomePipe(s) + [f];
    OrderQueues(s, s', f);
  }

  lemma OrderLoses(s: State, a: Action)
    requires Base(s) && OrderOk(s) && Enabled(s, a) && HomeLoses(a)
    ensures OrderOk(Next(s, a))
  {
    hide Order, Enabled, Next, Base, SentCount;
    var i := HomePipeStep(s, a);
    SentSame(s, a);
    LinkTouches(s, a);
    OrderWithout(HomePipe(s), s.lostHG, Next(s, a).lostHG, i, s.home.socks, s.gate, SentCount(s));
  }

  /** Steps of the gate's own tasks. */
  lemma OrderGate(s: State, s': State)
    requires OrderOk(s) && NoStarts(s.gate, s'.gate)
    requires HomePipe(s') == HomePipe(s) && s'.home == s.home && s'.lostHG == s.lostHG && SentCount(s') == SentCount(s)
    ensures OrderOk(s')
  {
    OrderGrows(HomePipe(s), s.lostHG, s.home.socks, s.home.socks, s.gate, s'.gate, SentCount(s));
  }

  lemma OrderTakeGate(s: State)
    requires OrderOk(s) && SameIds(s) && Tagged(s.hg, s.home.socks)
    requires Enabled(s, Take(Gate))
    ensures OrderOk(Next(s, Take(Gate)))
  {
    var p := HomePipe(s);
    assert p[0] == s.hg[0] && p[1..] == s.hg[1..] + s.home.out;
    TakeOrder(p, s.lostHG, s.hg[0], s.home.socks, s.gate, SentCount(s));
  }

  lemma TakeOrder(p: seq<Frame>, lost: seq<Frame>, f: Frame, home: seq<Conn>, gate: Endpoint, sent: nat)
    requires Order(p, lost, home, gate, sent) && p != [] && p[0] == f && CanTake(gate, f)
    requires f.id == gate.socks[f.tag].id
    ensures Order(p[1..], lost, home, DoTake(gate, f, true), sent)
  {
    if f.msg.Open? {
      OrderDials(p, lost, home, gate, sent);
    } else {
      OrderWithout(p, lost, lost, 0, home, gate, sent);
      assert p[..0] + p[1..] == p[1..];
      var gate' := DoTake(gate, f, true);
      assert NoStarts(gate, gate');
      OrderGrows(p[1..], lost, home, home, gate, gate', sent);
    }
  }

  /** Steps of home, or of both links, other than the acceptor's. */
  lemma OrderHome(s: State, a: Action)
    requires Base(s) && OrderOk(s) && Lane(s, Home) && HomeStraight(s.home) && Enabled(s, a)
    requires OfOneEndpoint(a) && a.side.Home? && !s.home.sess.Emit?
    ensures OrderOk(Next(s, a))
  {
    hide OrderOk, LaneOk, Base, Enabled, Next, Grows, HomeStraight;
    StepGrows(s, a, Home);
    if HomeLoses(a) {
      OrderLoses(s, a);
    } else if a.SendData? || a.SendClose? {
      OrderReader(s, a);
    } else {
      HomeKeepsPipe(s, a);
      OrderQuiet(s, Next(s, a));
    }
  }

  lemma HomeKeepsPipe(s: State, a: Action)
    requires Enabled(s, a) && OfOneEndpoint(a) && a.side.Home? && !HomeLoses(a)
    requires !a.SendData? && !a.SendClose? && !s.home.sess.Emit?
    ensures HomePipe(Next(s, a)) == HomePipe(s) && Next(s, a).gate == s.gate
    ensures SentCount(Next(s, a)) == SentCount(s) && Next(s, a).lostHG == s.lostHG
  {
    hide Enabled, Next, SentCount;
    OtherRests(s, a, Gate);
    SentSame(s, a);
    if a.Drain? {
      HomeDrains(s);
    } else if ByReader(a) {
      ReaderTouches(s, a);
    } else if ByWriter(a) {
      WriterTouches(s, a);
    } else if BySession(a) {
      SessionTouches(s, a);
    } else {
      LinkTouches(s, a);
    }
  }

  lemma HomeDrains(s: State)
    requires Enabled(s, Drain(Home))
    ensures HomePipe(Next(s, Drain(Home))) == HomePipe(s) && Next(s, Drain(Home)).lostHG == s.lostHG
  {
    LinkPipe(s.hg, s.home.out, 0);
  }

  lemma OrderStep(s: State, a: Action)
    requires InvGH(s) && OrderOk(s) && Lane(s, Home) && !s.home.sess.Emit? && Enabled(s, a)
    requires ReadersEnded(s, a) && EntryFree(s, a)
    ensures OrderOk(Next(s, a))
  {
    hide OrderOk, LaneOk, Base, Retired, LostOpens, AnsweredLost, HomeStraight, Enabled, Next;
    if OfOneEndpoint(a) {
      OrderTasks(s, a);
    } else if a.Insert? || a == Take(Home) {
      OrderElsewhere(s, a);
    } else if a.DialOk? {
      OrderDialOk(s);
    } else if a.DialErr? {
      BaseParts(s);
      OrderDialErr(s);
    } else {
      OrderPipe(s, a);
    }
  }

  lemma BaseParts(s: State)
    requires Base(s)
    ensures SessionOk(s.gate) && EntriesOk(s.gate) && SameIds(s)
    ensures Tagged(s.hg, s.home.socks)
  {
    hide AcceptorOk, OpensOk, FirstRound, Tagged;
  }

  /** The steps that announce a connection, and the gate's taking a frame. */
  lemma OrderPipe(s: State, a: Action)
    requires Base(s) && OrderOk(s) && Enabled(s, a) && (a.Accept? || a.SendOpen? || a == Take(Gate))
    requires ReadersEnded(s, a)
    ensures OrderOk(Next(s, a))
  {
    hide OrderOk, Base, Next, EntriesOk, SessionOk, Tagged;
    BaseParts(s);
    HomePipeTagged(s);
    if a.Accept? {
      OrderAccept(s);
    } else if a.SendOpen? {
      OrderSendOpen(s);
    } else {
      OrderTakeGate(s);
    }
  }

  lemma OrderElsewhere(s: State, a: Action)
    requires Base(s) && OrderOk(s) && Enabled(s, a) && (a.Insert? || a == Take(Home))
    ensures OrderOk(Next(s, a))
  {
    hide Order, Base, Grows;
    StepGrows(s, a, Home);
    OrderQuiet(s, Next(s, a));
  }

  lemma OrderTasks(s: State, a: Action)
    requires Base(s) && OrderOk(s) && Lane(s, Home) && HomeStraight(s.home) && !s.home.sess.Emit? && Enabled(s, a)
    requires OfOneEndpoint(a)
    ensures OrderOk(Next(s, a))
  {
    hide OrderOk, LaneOk, Base, Enabled, Next, HomeStraight, NoStarts;
    if a.side.Gate? {
      GateStartsNothing(s, a);
      GateKeepsPipe(s, a);
      OrderGate(s, Next(s, a));
    } else {
      OrderHome(s, a);
    }
  }

  lemma GateKeepsPipe(s: State, a: Action)
    requires Enabled(s, a) && OfOneEndpoint(a) && a.side.Gate?
    ensures Next(s, a).home == s.home && HomePipe(Next(s, a)) == HomePipe(s)
    ensures Next(s, a).lostHG == s.lostHG && SentCount(Next(s, a)) == SentCount(s)
  {
    hide Enabled, Next, SentCount, OfOneEndpoint;
    OtherRests(s, a, Home);
    LinksRest(s, a, Home);
    SentSame(s, a);
  }

  lemma HomeNeverEmits(s: State, a: Action)
    requires !s.home.sess.Emit? && !CanOrphan(s.home) && Enabled(s, a)
    ensures !Next(s, a).home.sess.Emit?
  {
    if !OfOneEndpoint(a) {
      SharedNeverEmits(s, a);
    } else if a.side.Gate? {
      OtherRests(s, a, Home);
    } else {
      OwnNeverEmits(s, a);
    }
  }

  lemma SharedNeverEmits(s: State, a: Action)
    requires !s.home.sess.Emit? && Enabled(s, a) && !OfOneEndpoint(a)
    ensures !Next(s, a).home.sess.Emit?
  {
    hide Alloc;
  }

  lemma OwnNeverEmits(s: State, a: Action)
    requires !s.home.sess.Emit? && Enabled(s, a) && OfOneEndpoint(a) && a.side.Home? && a != Orphan(Home)
    ensures !Next(s, a).home.sess.Emit?
  {
    hide Enabled, Next;
    if ByReader(a) {
      ReaderTouches(s, a);
    } else if ByWriter(a) {
      WriterTouches(s, a);
    } else if BySession(a) {
      SessionTouches(s, a);
    } else {
      LinkTouches(s, a);
    }
  }
}
