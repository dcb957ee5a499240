/** Every step of the two endpoints keeps a sound lane sound, under the conditions named by `Harmless`. */
module TunnelSteps {
  import opened Common
  import opened Allocator
  import opened TunnelModel
  import opened TunnelFootprint
  import opened TunnelBase
  import opened TunnelTrack
  import opened TunnelLane

  /** The lane on which `side` sends. */
  ghost predicate Lane(s: State, side: Side) {
    LaneOk(s.Ep(side), s.Wire(side), s.Ep(Other(side)), s.Lost(side) == [])
  }

  /** The frame about to be handled finds the connection its sender meant, or one not started yet. */
  ghost predicate Routed(rcv: Endpoint, f: Frame) {
    && f.tag < |rcv.socks|
    && (f.id in rcv.conns ==> rcv.conns[f.id] == f.tag)
    && (f.id !in rcv.conns ==> rcv.socks[f.tag].wr.Absent?)
  }

  /** The frame finds the entry of another connection, which is stopping. */
  ghost predicate Diverted(rcv: Endpoint, f: Frame) {
    && f.id in rcv.conns && rcv.conns[f.id] < |rcv.socks| && rcv.conns[f.id] != f.tag
    && Stopping(rcv.socks[rcv.conns[f.id]], rcv.conns[f.id])
  }

  /** If the session loop answers, then for a connection that was never opened here. */
  ghost predicate AnswersFresh(e: Endpoint)
    requires CanOrphan(e)
  {
    e.sess.frame.msg.Data? ==> e.socks[e.sess.frame.tag].rd.NotYet?
  }

  /** The frame that finds its writer gone belongs to another connection, and its id is free. */
  ghost predicate OrphansStray(e: Endpoint)
    requires CanOrphan(e)
  {
    e.sess.frame.tag != e.sess.to && (e.sess.frame.msg.Data? ==> e.sess.frame.id !in e.conns)
  }

  /** What the lane on which `side` sends needs of a step. */
  ghost predicate Harmless(s: State, side: Side, a: Action)
    requires Base(s) && Enabled(s, a)
  {
    && (a.WriteErr? ==> a.side == side)
    && (a.Orphan? && a.side == side ==> AnswersFresh(s.Ep(side)))
    && (a.Orphan? && a.side != side ==> OrphansStray(s.Ep(a.side)))
    && (a.Take? && a.side == Other(side) && !s.Wire(side)[0].msg.Open? ==>
          Routed(s.Ep(a.side), s.Wire(side)[0]) || (s.Lost(side) != [] && Diverted(s.Ep(a.side), s.Wire(side)[0])))
    && (a == Take(Gate) && side.Gate? && s.hg[0].msg.Open? ==> s.gate.socks[s.hg[0].tag].rd.NotYet?)
    && (a.Insert? && side.Home? ==> s.home.socks[|s.home.socks| - 1].rd.NotYet?)
    && (a.DialOk? && side.Home? ==> s.gate.sess.id !in s.gate.conns)
    && (a.SendOpen? && side.Home? ==> Track(s.home, s.hg, s.gate, |s.home.socks| - 1) == [])
  }

  lemma StepReader(s: State, side: Side, a: Action)
    requires Lane(s, side) && SessionOk(s.Ep(side)) && Enabled(s, a)
    requires ByReader(a)
    requires a.side == side
    ensures Lane(Next(s, a), side)
  {
    var snd, w, rcv, whole := s.Ep(side), s.Wire(side), s.Ep(Other(side)), s.Lost(side) == [];
    match a
    case Read(_, k, chunk) => LaneReads(snd, w, rcv, whole, k, chunk);
    case SendData(_, k) => LaneSendsData(snd, w, rcv, whole, k);
    case Eof(_, k) => LaneEof(snd, w, rcv, whole, k);
    case SendClose(_, k) => LaneSendsClose(snd, w, rcv, whole, k);
  }

  /** One endpoint of a lane changes, and nothing else. */
  lemma LaneOfSender(s: State, side: Side, snd': Endpoint)
    requires LaneOk(snd', s.Wire(side), s.Ep(Other(side)), s.Lost(side) == [])
    ensures Lane(s.WithEp(side, snd'), side)
  {
    hide LaneOk;
  }

  lemma LaneOfReceiver(s: State, side: Side, rcv': Endpoint)
    requires LaneOk(s.Ep(side), s.Wire(side), rcv', s.Lost(side) == [])
    ensures Lane(s.WithEp(Other(side), rcv'), side)
  {
    hide LaneOk;
  }

  lemma StepReaderElsewhere(s: State, side: Side, a: Action)
    requires Lane(s, side) && Enabled(s, a) && ByReader(a) && a.side != side
    ensures Lane(Next(s, a), side)
  {
    hide Enabled, Next, LaneOk;
    var rcv, rcv' := s.Ep(a.side), Next(s, a).Ep(a.side);
    ReaderTouches(s, a);
    ReaderChanges(s, a);
    LaneReceiverElsewhere(s.Ep(side), s.Wire(side), rcv, rcv', s.Lost(side) == []);
    LaneOfReceiver(s, side, rcv');
  }

  lemma StepWriter(s: State, side: Side, a: Action)
    requires Lane(s, side) && Enabled(s, a)
    requires a.Write? || a.Shut? || a.Starve? || a.Remove?
    requires a.side != side
    ensures Lane(Next(s, a), side)
  {
    var snd, w, rcv, whole := s.Ep(side), s.Wire(side), s.Ep(Other(side)), s.Lost(side) == [];
    NeverStarved(snd, w, rcv, whole, a.k);
    match a
    case Write(_, k) => LaneWrites(snd, w, rcv, whole, k);
    case Shut(_, k) => LaneShuts(snd, w, rcv, whole, k);
    case Remove(_, k) => LaneRemoves(snd, w, rcv, whole, k);
  }

  lemma StepWriterElsewhere(s: State, side: Side, a: Action)
    requires Lane(s, side) && Enabled(s, a) && ByWriter(a) && a.side == side
    ensures Lane(Next(s, a), side)
  {
    hide Enabled, Next, LaneOk;
    var snd' := Next(s, a).Ep(side);
    WriterTouches(s, a);
    WriterChanges(s, a);
    LaneSenderElsewhere(s.Ep(side), snd', s.Wire(side), s.Ep(Other(side)), s.Lost(side) == []);
    LaneOfSender(s, side, snd');
  }

  lemma StepLink(s: State, side: Side, a: Action)
    requires Lane(s, side) && Enabled(s, a)
    requires ByLink(a)
    requires a.side == side
    ensures Lane(Next(s, a), side)
  {
    hide LaneOk;
    var snd, w, rcv, whole := s.Ep(side), s.Wire(side), s.Ep(Other(side)), s.Lost(side) == [];
    if a.SendFail? || a.Lose? {
      StepLoss(s, side, a);
    } else if a.Drain? {
      LinkPipe(w, snd.out, 0);
      LaneDrains(snd, w, rcv, whole, snd.out[1..], snd.up, w + [snd.out[0]]);
    } else {
      LaneDrains(snd, w, rcv, whole, snd.out, a.Reconnect?, w);
    }
  }

  lemma StepLoss(s: State, side: Side, a: Action)
    requires Lane(s, side) && Enabled(s, a) && (a.SendFail? || a.Lose?) && a.side == side
    ensures Lane(Next(s, a), side)
  {
    hide LaneOk;
    var snd, w, rcv, whole := s.Ep(side), s.Wire(side), s.Ep(Other(side)), s.Lost(side) == [];
    LossShape(s, side, a);
    if a.SendFail? {
      LinkPipe(w, snd.out, 0);
      LaneLoses(snd, w, rcv, whole, snd.out[1..], false, w, |w|);
    } else {
      LinkPipe(w, snd.out, a.at);
      LaneLoses(snd, w, rcv, whole, snd.out, snd.up, w[..a.at] + w[a.at + 1..], a.at);
    }
  }

  /** What a loss leaves of the lane it happens on. */
  lemma LossShape(s: State, side: Side, a: Action)
    requires Enabled(s, a) && (a.SendFail? || a.Lose?) && a.side == side
    ensures var s', e, w := Next(s, a), s.Ep(side), s.Wire(side);
      && s'.Ep(Other(side)) == s.Ep(Other(side)) && s'.Lost(side) != []
      && (a.SendFail? ==> s'.Ep(side) == e.(out := e.out[1..], up := false) && s'.Wire(side) == w)
      && (a.Lose? ==> s'.Ep(side) == e.(out := e.out, up := e.up) && s'.Wire(side) == w[..a.at] + w[a.at + 1..])
  {
  }

  lemma StepLinkElsewhere(s: State, side: Side, a: Action)
    requires Lane(s, side) && Enabled(s, a) && ByLink(a) && a.side != side
    ensures Lane(Next(s, a), side)
  {
    hide Enabled, Next, LaneOk;
    LinkTouches(s, a);
    LaneReceiverElsewhere(s.Ep(side), s.Wire(side), s.Ep(a.side), Next(s, a).Ep(a.side), s.Lost(side) == []);
  }

  lemma StepAcceptor(s: State, side: Side, a: Action)
    requires Base(s) && Lane(s, side) && Enabled(s, a)
    requires a.Accept? || a.SendOpen? || a.Insert?
    requires a.SendOpen? && side.Home? ==> Track(s.home, s.hg, s.gate, |s.home.socks| - 1) == []
    requires a.Insert? && side.Home? ==> s.home.socks[|s.home.socks| - 1].rd.NotYet?
    ensures Lane(Next(s, a), side)
  {
    hide Lane, Base, Track, Next;
    if a.Accept? {
      StepAccept(s, side);
    } else if a.SendOpen? {
      StepSendOpen(s, side);
    } else {
      StepInsert(s, side);
    }
  }

  lemma StepSendOpen(s: State, side: Side)
    requires Lane(s, side) && Enabled(s, SendOpen)
    requires side.Home? ==> Track(s.home, s.hg, s.gate, |s.home.socks| - 1) == []
    ensures Lane(Next(s, SendOpen), side)
  {
    hide LaneOk, Track;
    var snd, w, rcv, whole := s.Ep(side), s.Wire(side), s.Ep(Other(side)), s.Lost(side) == [];
    if side.Home? {
      LaneOpens(snd, w, rcv, whole, |snd.socks| - 1);
    } else {
      LaneReceiverElsewhere(snd, w, rcv, Next(s, SendOpen).home, whole);
    }
  }

  lemma StepInsert(s: State, side: Side)
    requires Base(s) && Lane(s, side) && Enabled(s, Insert)
    requires side.Home? ==> s.home.socks[|s.home.socks| - 1].rd.NotYet?
    ensures Lane(Next(s, Insert), side)
  {
    hide LaneOk, Track, OpensOk, FirstRound, Tagged;
    var snd, w, rcv, whole := s.Ep(side), s.Wire(side), s.Ep(Other(side)), s.Lost(side) == [];
    if side.Home? {
      LaneSenderElsewhere(snd, Next(s, Insert).home, w, rcv, whole);
    } else {
      assert ConnOk(rcv.socks[|rcv.socks| - 1]);
      LaneSpawns(snd, w, rcv, whole, |rcv.socks| - 1, rcv.sess);
    }
  }

  lemma StepAccept(s: State, side: Side)
    requires Base(s) && Lane(s, side) && s.acc.Waiting?
    ensures Lane(Next(s, Accept), side)
  {
    hide LaneOk, Track, Alloc;
    var snd, w, rcv, whole := s.Ep(side), s.Wire(side), s.Ep(Other(side)), s.Lost(side) == [];
    var id := Alloc(s.home.conns.Keys, s.next).0;
    if id.Some? {
      TaggedSame(s.gh, s.home.socks, s.gate.socks);
      LaneGrows(snd, w, rcv, whole, id.value);
    }
  }

  lemma StepDialEnd(s: State, side: Side, a: Action)
    requires Base(s) && Lane(s, side) && Enabled(s, a)
    requires a.DialOk? || a.DialErr?
    requires a.DialOk? && side.Home? ==> s.gate.sess.id !in s.gate.conns
    ensures Lane(Next(s, a), side)
  {
    hide Lane, EndpointOk, SessionOk, ConnOk;
    DialedIsIdle(s.gate);
    if a.DialOk? {
      StepDialOk(s, side);
    } else {
      StepDialErr(s, side);
    }
  }

  lemma DialedIsIdle(e: Endpoint)
    requires EndpointOk(e) && CanDialEnd(e)
    ensures SessionOk(e) && ConnOk(e.socks[e.sess.conn])
  {
  }

  lemma StepDialOk(s: State, side: Side)
    requires SessionOk(s.gate) && Lane(s, side) && Enabled(s, DialOk) && ConnOk(s.gate.socks[s.gate.sess.conn])
    requires side.Home? ==> s.gate.sess.id !in s.gate.conns
    ensures Lane(Next(s, DialOk), side)
  {
    hide LaneOk;
    var snd, w, rcv, whole := s.Ep(side), s.Wire(side), s.Ep(Other(side)), s.Lost(side) == [];
    if side.Home? {
      LaneSpawns(snd, w, rcv, whole, rcv.sess.conn, Ready);
    } else {
      LaneSenderElsewhere(snd, DoDialOk(s.gate), w, rcv, whole);
    }
  }

  lemma StepDialErr(s: State, side: Side)
    requires SessionOk(s.gate) && Lane(s, side) && Enabled(s, DialErr)
    ensures Lane(Next(s, DialErr), side)
  {
    hide LaneOk;
    var snd, w, rcv, whole := s.Ep(side), s.Wire(side), s.Ep(Other(side)), s.Lost(side) == [];
    if side.Home? {
      LaneReceiverElsewhere(snd, w, rcv, DoDialErr(s.gate), whole);
    } else {
      LaneRefuses(snd, w, rcv, whole);
    }
  }

  lemma StepSession(s: State, side: Side, a: Action)
    requires Lane(s, side) && Enabled(s, a) && BySession(a) && SessionOk(s.Ep(side))
    requires a.side == side && (a.Orphan? ==> AnswersFresh(s.Ep(side)))
    ensures Lane(Next(s, a), side)
  {
    hide LaneOk;
    var snd, w, rcv, whole := s.Ep(side), s.Wire(side), s.Ep(Other(side)), s.Lost(side) == [];
    if a.EmitOut? {
      LaneEmits(snd, w, rcv, whole);
    } else if a.Orphan? && snd.sess.frame.msg.Data? {
      LaneAnswers(snd, w, rcv, whole);
    } else {
      StepSettles(s, side, a);
    }
  }

  /** The session loop is done with a frame of the other lane. */
  lemma StepSettles(s: State, side: Side, a: Action)
    requires Lane(s, side) && Enabled(s, a) && (a.Enqueue? || a.Orphan?) && a.side == side
    requires a.Orphan? ==> !s.Ep(side).sess.frame.msg.Data?
    ensures Lane(Next(s, a), side)
  {
    hide Enabled, Next, LaneOk;
    var snd' := Next(s, a).Ep(side);
    SessionTouches(s, a);
    SessionChanges(s, a);
    LaneSenderElsewhere(s.Ep(side), snd', s.Wire(side), s.Ep(Other(side)), s.Lost(side) == []);
    LaneOfSender(s, side, snd');
  }

  lemma StepSessionElsewhere(s: State, side: Side, a: Action)
    requires Lane(s, side) && Enabled(s, a) && BySession(a)
    requires a.side != side && (a.Orphan? ==> OrphansStray(s.Ep(a.side)))
    ensures Lane(Next(s, a), side)
  {
    hide LaneOk;
    var rcv := s.Ep(a.side);
    if a.Enqueue? {
      LaneEnqueues(s.Ep(side), s.Wire(side), rcv, s.Lost(side) == []);
    } else {
      if a.Orphan? && rcv.sess.frame.msg.Data? {
        assert rcv.conns - {rcv.sess.frame.id} == rcv.conns;
      }
      StepUnrouted(s, side, a);
    }
  }

  /** The session loop emits or gives up a frame that is not of this lane. */
  lemma StepUnrouted(s: State, side: Side, a: Action)
    requires Lane(s, side) && Enabled(s, a) && (a.Orphan? || a.EmitOut?) && a.side != side
    requires a.Orphan? ==> s.Ep(a.side).sess.frame.tag != s.Ep(a.side).sess.to
    requires a.Orphan? && s.Ep(a.side).sess.frame.msg.Data? ==>
      s.Ep(a.side).conns - {s.Ep(a.side).sess.frame.id} == s.Ep(a.side).conns
    ensures Lane(Next(s, a), side)
  {
    hide Enabled, Next, LaneOk;
    var rcv' := Next(s, a).Ep(a.side);
    SessionTouches(s, a);
    SessionChanges(s, a);
    LaneReceiverElsewhere(s.Ep(side), s.Wire(side), s.Ep(a.side), rcv', s.Lost(side) == []);
    LaneOfReceiver(s, side, rcv');
  }

  /** The sending endpoint takes a frame of the other lane. */
  lemma StepTakeElsewhere(s: State, side: Side)
    requires Lane(s, side) && Enabled(s, Take(side))
    requires var f := s.Wire(Other(side))[0];
      f.msg.Open? && side.Gate? ==> s.gate.socks[f.tag].rd.NotYet?
    ensures Lane(Next(s, Take(side)), side)
  {
    var snd := s.Ep(side);
    var snd' := DoTake(snd, s.Wire(Other(side))[0], side.Gate?);
    LaneSenderElsewhere(snd, snd', s.Wire(side), s.Ep(Other(side)), s.Lost(side) == []);
  }

  /** A frame is taken off the lane. */
  lemma LaneTakes(snd: Endpoint, w: seq<Frame>, rcv: Endpoint, whole: bool, dials: bool)
    requires LaneOk(snd, w, rcv, whole) && w != [] && CanTake(rcv, w[0])
    requires ConnOk(rcv.socks[w[0].tag])
    requires if w[0].msg.Open? then dials else Routed(rcv, w[0]) || (!whole && Diverted(rcv, w[0]))
    ensures LaneOk(snd, w[1..], DoTake(rcv, w[0], dials), whole)
  {
    var f := w[0];
    if f.msg.Open? {
      LaneOpened(snd, w, rcv, whole);
    } else {
      HeadIsGood(snd, w, rcv, whole);
      if Diverted(rcv, f) {
        LaneDiverts(snd, w, rcv, rcv.conns[f.id]);
      } else if f.id in rcv.conns {
        LaneRoutes(snd, w, rcv, whole);
      } else {
        LaneMisses(snd, w, rcv, whole, rcv.spilt + PayloadSize(f));
      }
    }
  }

  /** A frame at the head of the wire carries what its track says. */
  lemma HeadIsGood(snd: Endpoint, wire: seq<Frame>, rcv: Endpoint, whole: bool)
    requires LaneOk(snd, wire, rcv, whole) && wire != [] && wire[0].tag < |snd.socks|
    ensures FrameOk(wire[0], snd.socks[wire[0].tag], wire[0].tag)
    ensures var k := wire[0].tag;
      var t := Track(snd, wire, rcv, k);
      |Back(rcv, k)| < |t| && t[|Back(rcv, k)|] == wire[0]
  {
    var k := wire[0].tag;
    assert LaneAt(snd, wire, rcv, k, whole);
    HeadMoves(snd, wire, k);
    var t := Track(snd, wire, rcv, k);
    assert t[|Back(rcv, k)|] == wire[0];
  }

  lemma StepTake(s: State, side: Side, a: Action)
    requires Base(s) && Lane(s, side) && Enabled(s, a) && Harmless(s, side, a) && a.Take?
    ensures Lane(Next(s, a), side)
  {
    var w := s.Wire(Other(a.side));
    assert s.Pipe(Other(a.side))[0] == w[0];
    if a.side == side {
      StepTakeElsewhere(s, side);
    } else {
      LaneTakes(s.Ep(side), w, s.Ep(a.side), s.Lost(side) == [], a.side.Gate?);
    }
  }

  lemma LaneStep(s: State, side: Side, a: Action)
    requires Base(s) && Lane(s, side) && Enabled(s, a) && Harmless(s, side, a)
    ensures Lane(Next(s, a), side)
  {
    if a.Accept? || a.SendOpen? || a.Insert? {
      StepAcceptor(s, side, a);
    } else if a.DialOk? || a.DialErr? {
      StepDialEnd(s, side, a);
    } else if a.Take? {
      StepTake(s, side, a);
    } else if a.side == side {
      LaneStepOwn(s, side, a);
    } else {
      LaneStepOther(s, side, a);
    }
  }

  lemma LaneStepOwn(s: State, side: Side, a: Action)
    requires Lane(s, side) && SessionOk(s.Ep(side)) && Enabled(s, a) && OfOneEndpoint(a) && a.side == side
    requires a.Orphan? ==> AnswersFresh(s.Ep(side))
    ensures Lane(Next(s, a), side)
  {
    if ByReader(a) {
      StepReader(s, side, a);
    } else if BySession(a) {
      StepSession(s, side, a);
    } else if ByWriter(a) {
      StepWriterElsewhere(s, side, a);
    } else {
      StepLink(s, side, a);
    }
  }

  lemma LaneStepOther(s: State, side: Side, a: Action)
    requires Lane(s, side) && Enabled(s, a) && OfOneEndpoint(a) && a.side != side && !a.WriteErr?
    requires a.Orphan? ==> OrphansStray(s.Ep(a.side))
    ensures Lane(Next(s, a), side)
  {
    if ByReader(a) {
      StepReaderElsewhere(s, side, a);
    } else if BySession(a) {
      StepSessionElsewhere(s, side, a);
    } else if a.Write? || a.Shut? || a.Starve? || a.Remove? {
      StepWriter(s, side, a);
    } else {
      StepLinkElsewhere(s, side, a);
    }
  }
}
