/**
 The inductive invariant of both directions under careful reuse of ids. What a reconnect costs needs care of its
 own: the frames of a connection whose OPEN was lost may find the gate's entry of an earlier one. They are harmless
 if that one has been told to stop, which is so unless its CLOSE was lost as well.
 */
module TunnelGentle {
  import opened Common
  import opened Allocator
  import opened TunnelModel
  import opened TunnelFootprint
  import opened TunnelBase
  import opened TunnelGrowth
  import opened TunnelTrack
  import opened TunnelLane
  import opened TunnelSteps
  import opened TunnelInv
  import opened TunnelOrder

  // ---------------------------------------------------------------- what is known of lost frames

  /** CLOSE of connection j is in its writer's queue or about to be, or the writer has stopped. */
  ghost predicate Told(gate: Endpoint, j: nat)
    requires j < |gate.socks|
  {
    var c := gate.socks[j];
    || (!c.wr.Running? && !c.wr.Absent?)
    || HasClose(c.queue, j)
    || (gate.sess.Deliver? && gate.sess.to == j && gate.sess.frame.tag == j && gate.sess.frame.msg.Close?)
  }

  /** The CLOSE of every home reader that has ended, unless its OPEN was lost, is accounted for. */
  ghost predicate Ledger(p: seq<Frame>, lost: seq<Frame>, home: seq<Conn>, gate: Endpoint) {
    && |home| == |gate.socks|
    && forall j | 0 <= j < |home| && home[j].rd.Done? && Frame(home[j].id, j, Open) !in lost ::
         var f := Frame(home[j].id, j, Close);
         f in lost || f in p || f in gate.missed || Told(gate, j)
  }

  /** The gate has handled this CLOSE, or the OPEN of its connection was lost. */
  ghost predicate Accounted(gate: Endpoint, f: Frame, lost: seq<Frame>) {
    f in gate.missed || (f.tag < |gate.socks| && Told(gate, f.tag)) || Frame(f.id, f.tag, Open) in lost
  }

  /** The gate has no entry of a connection older than one it has answered on the same id. */
  ghost predicate AnsweredFree(gate: Endpoint) {
    forall k | 0 <= k < |gate.socks| && gate.socks[k].rd.Answered? && gate.socks[k].id in gate.conns ::
      k < gate.conns[gate.socks[k].id]
  }

  /** A frame held for the writer of another connection is of one whose OPEN was lost. */
  ghost predicate HeldLost(gate: Endpoint, lost: seq<Frame>) {
    gate.sess.Deliver? && gate.sess.frame.tag != gate.sess.to ==>
      var f := gate.sess.frame;
      && f.tag < |gate.socks| && gate.socks[f.tag].rd.NotYet?
      && Frame(f.id, f.tag, Open) in lost
      && (f.id in gate.conns ==> gate.conns[f.id] == gate.sess.to)
  }

  /** Frames that found no entry are of connections without a socket and without a dial under way. */
  ghost predicate MissedIdle(gate: Endpoint) {
    forall i | 0 <= i < |gate.missed| && gate.missed[i].tag < |gate.socks| ::
      gate.socks[gate.missed[i].tag].wr.Absent? && !gate.socks[gate.missed[i].tag].rd.Dialing?
  }

  ghost predicate GateLosses(gate: Endpoint, lost: seq<Frame>) {
    AnsweredFree(gate) && HeldLost(gate, lost) && MissedIdle(gate)
  }

  /** The gate keeps an entry whose connection's CLOSE was lost, and the OPEN of a later one on that id was lost too. */
  ghost predicate Muddled(gate: Endpoint, lost: seq<Frame>) {
    exists id: ConnId, k: nat ::
      && id in gate.conns && gate.conns[id] < k
      && Frame(id, gate.conns[id], Close) in lost && Frame(id, k, Open) in lost
  }

  ghost predicate InvHG(s: State) {
    && InvGH(s)
    && Lane(s, Home)
    && !s.home.sess.Emit?
    && OrderOk(s)
    && GateLosses(s.gate, s.lostHG)
    && Ledger(HomePipe(s), s.lostHG, s.home.socks, s.gate)
    && !Muddled(s.gate, s.lostHG)
  }

  /**
   No socket write fails; an id is announced again only when every earlier home reader on it has ended; when the dial
   for an OPEN ends the gate has no entry for the id; and CLOSE of a connection that keeps its entry at the gate is not
   lost together with a later OPEN for that id.
   */
  ghost predicate FairHG(s: State, a: Action)
    requires Enabled(s, a)
  {
    !a.WriteErr? && ReadersEnded(s, a) && EntryFree(s, a) && !Muddled(Next(s, a).gate, Next(s, a).lostHG)
  }

  // ---------------------------------------------------------------- routing

  /** The writer of an entry whose home reader has ended is stopping, unless CLOSE was lost or is still to come. */
  lemma EntryStopping(s: State, c: nat)
    requires Base(s) && s.gate.sess.Ready? && MissedIdle(s.gate)
    requires Ledger(HomePipe(s), s.lostHG, s.home.socks, s.gate)
    requires c < |s.gate.socks| && !s.gate.socks[c].wr.Absent? && s.home.socks[c].rd.Done?
    requires Frame(s.home.socks[c].id, c, Open) !in s.lostHG
    requires Frame(s.home.socks[c].id, c, Close) !in s.lostHG
    requires Frame(s.home.socks[c].id, c, Close) !in HomePipe(s)
    ensures Stopping(s.gate.socks[c], c)
  {
    var f := Frame(s.home.socks[c].id, c, Close);
    NotMissed(s.gate, f);
  }

  lemma NotMissed(gate: Endpoint, f: Frame)
    requires MissedIdle(gate) && f.tag < |gate.socks| && !gate.socks[f.tag].wr.Absent?
    ensures f !in gate.missed
  {
  }

  lemma BehindHead(p: seq<Frame>, f: Frame)
    requires Sorted(p) && p != [] && p[0].id == f.id && f.tag < p[0].tag
    ensures f !in p
  {
  }

  /** A frame of connection k finds the entry of an older one: the OPEN of k was lost, and the older one is stopping. */
  lemma StrayFrame(s: State)
    requires InvHG(s) && s.gate.sess.Ready? && s.hg != [] && !s.hg[0].msg.Open? && s.hg[0].id in s.gate.conns
    requires s.gate.conns[s.hg[0].id] < s.hg[0].tag
    ensures var f := s.hg[0];
      && Diverted(s.gate, f) && f.tag < |s.gate.socks| && s.gate.socks[f.tag].rd.NotYet?
      && Frame(f.id, f.tag, Open) in s.lostHG
  {
    hide LaneOk, Retired, HeldLost, Ledger;
    var f, p := s.hg[0], HomePipe(s);
    var k, c := f.tag, s.gate.conns[f.id];
    assert p[0] == f;
    HeadIsSent(s);
    OpenComesFirst(s.home, s.hg, s.gate, s.lostHG == [], Frame(f.id, k, Open));
    assert Frame(f.id, k, Open) in s.lostHG;
    assert ConnOk(s.gate.socks[c]);
    assert s.home.socks[c].rd.Done?;
    BehindHead(p, Frame(f.id, c, Close));
    EntryStopping(s, c);
  }

  lemma RoutedGate(s: State)
    requires InvHG(s) && s.gate.sess.Ready? && s.hg != [] && !s.hg[0].msg.Open?
    ensures var f := s.hg[0];
      || Routed(s.gate, f)
      || (Diverted(s.gate, f) && f.tag < |s.gate.socks| && s.gate.socks[f.tag].rd.NotYet?
          && Frame(f.id, f.tag, Open) in s.lostHG)
  {
    hide LaneOk, Retired, GateLosses, Ledger, Muddled, LostOpens;
    var f, p := s.hg[0], HomePipe(s);
    assert p[0] == f;
    if f.id in s.gate.conns && s.gate.conns[f.id] < f.tag {
      StrayFrame(s);
    } else {
      if f.id in s.gate.conns {
        assert ConnOk(s.gate.socks[s.gate.conns[f.id]]);
      }
      TaggedSame([f], s.home.socks, s.gate.socks);
      HeadRouted(s.home, s.hg, s.gate, s.lostHG == []);
    }
  }

  /** A writer that is gone has no entry, so what its answer removes is not another's. */
  lemma GoneHasNoEntry(s: State)
    requires Lane(s, Home) && HeldLost(s.gate, s.lostHG) && SessionOk(s.gate) && CanOrphan(s.gate)
    ensures OrphansStray(s.gate)
    ensures s.gate.sess.frame.msg.Data? ==>
      var f := s.gate.sess.frame;
      s.gate.socks[f.tag].rd.NotYet? && Frame(s.gate.socks[f.tag].id, f.tag, Open) in s.lostHG
  {
    var f := s.gate.sess.frame;
    if f.tag == s.gate.sess.to {
      NeverOrphaned(s.home, s.hg, s.gate, s.lostHG == []);
    }
    assert LaneAt(s.home, s.hg, s.gate, s.gate.sess.to, s.lostHG == []);
    assert [f][0].id == s.gate.socks[f.tag].id;
  }

  lemma HarmlessHG(s: State, a: Action)
    requires InvHG(s) && Enabled(s, a) && FairHG(s, a)
    ensures Harmless(s, Home, a) && FairGH(s, a)
  {
    hide LaneOk, Retired, LostOpens, AnsweredLost, Ledger, Muddled, Order, Told, GateLosses;
    if a == Take(Gate) {
      if !s.hg[0].msg.Open? {
        RoutedGate(s);
      }
    } else if a.SendOpen? || a.Insert? || a.DialOk? {
      HarmlessStarts(s, a);
    } else {
      HarmlessTasks(s, a);
    }
  }

  lemma HarmlessStarts(s: State, a: Action)
    requires InvHG(s) && Enabled(s, a) && (a.SendOpen? || a.Insert? || a.DialOk?) && EntryFree(s, a)
    ensures Harmless(s, Home, a)
  {
    hide Base, LaneOk, Retired, LostOpens, AnsweredLost, Ledger, Muddled, Order, Told, GateLosses, Diverted, Routed,
      Track, HomeStraight;
    if a.SendOpen? {
      UnsentIsEmpty(s);
    } else if a.Insert? {
      NewestIsUnread(s);
    }
  }

  lemma NewestIsUnread(s: State)
    requires Base(s) && Enabled(s, Insert) && HomeStraight(s.home)
    ensures s.home.socks[|s.home.socks| - 1].rd.NotYet?
  {
    hide Tagged, OpensOk, FirstRound;
    assert ConnOk(s.home.socks[|s.home.socks| - 1]);
  }

  lemma HarmlessTasks(s: State, a: Action)
    requires InvHG(s) && Enabled(s, a) && !a.WriteErr?
    requires a != Take(Gate) && !a.SendOpen? && !a.Insert? && !a.DialOk?
    ensures Harmless(s, Home, a) && FairGH(s, a)
  {
    hide Base, LaneOk, Retired, LostOpens, AnsweredLost, Ledger, Muddled, Order, Told, Diverted, Routed, Track;
    NeverOrphaned(s.gate, s.gh, s.home, s.lostGH == []);
    if a == Orphan(Gate) {
      BaseParts(s);
      GoneHasNoEntry(s);
    }
  }

  // ---------------------------------------------------------------- steps that leave the gate's losses alone

  /** No connection is opened or answered, no entry added, nothing missed or newly held, and nobody untold. */
  ghost predicate Calm(e: Endpoint, e': Endpoint) {
    && |e'.socks| == |e.socks| && e'.missed == e.missed
    && (forall id | id in e'.conns :: id in e.conns && e'.conns[id] == e.conns[id])
    && (e'.sess.Deliver? ==> e'.sess == e.sess)
    && (forall k | 0 <= k < |e.socks| :: CalmConn(e.socks[k], e'.socks[k]))
    && (forall k | 0 <= k < |e.socks| && Told(e, k) :: Told(e', k))
  }

  ghost predicate CalmConn(c: Conn, c': Conn) {
    && c'.id == c.id
    && (c.rd.NotYet? ==> c'.rd.NotYet?) && (c'.rd.Answered? ==> c.rd.Answered?) && (c'.rd.Dialing? ==> c.rd.Dialing?)
    && (c.wr.Absent? ==> c'.wr.Absent?)
  }

  lemma CalmKeeps(e: Endpoint, e': Endpoint, lost: seq<Frame>)
    requires Calm(e, e') && GateLosses(e, lost)
    ensures GateLosses(e', lost)
  {
    hide Told;
  }

  lemma CalmReader(e: Endpoint, k: nat, chunk: Chunk)
    ensures CanRead(e, k, chunk) ==> Calm(e, DoRead(e, k, chunk))
    ensures CanSendData(e, k) ==> Calm(e, DoSendData(e, k))
    ensures CanEof(e, k) ==> Calm(e, DoEof(e, k))
    ensures CanSendClose(e, k) ==> Calm(e, DoSendClose(e, k))
  {
  }

  lemma CloseStays(q: seq<Frame>, k: nat)
    requires q != [] && q[0].msg.Data? && HasClose(q, k)
    ensures HasClose(q[1..], k)
  {
    var h :| 0 <= h < |q| && q[h].msg.Close? && q[h].tag == k;
    assert q[1..][h - 1] == q[h];
  }

  lemma CalmWriter(e: Endpoint, k: nat)
    ensures CanWrite(e, k) ==> Calm(e, DoWrite(e, k))
    ensures CanShut(e, k) ==> Calm(e, DoShut(e, k))
    ensures CanStarve(e, k) ==> Calm(e, DoStarve(e, k))
    ensures CanRemove(e, k) ==> Calm(e, DoRemove(e, k))
  {
    hide HasClose;
    if CanWrite(e, k) && HasClose(e.socks[k].queue, k) {
      CloseStays(e.socks[k].queue, k);
    }
  }

  lemma CloseJoins(q: seq<Frame>, f: Frame, k: nat)
    ensures HasClose(q + [f], k) <==> HasClose(q, k) || (f.msg.Close? && f.tag == k)
  {
    if HasClose(q, k) {
      var h :| 0 <= h < |q| && q[h].msg.Close? && q[h].tag == k;
      assert (q + [f])[h] == q[h];
    }
    if f.msg.Close? && f.tag == k {
      assert (q + [f])[|q|] == f;
    }
  }

  lemma CalmSession(e: Endpoint)
    requires SessionOk(e)
    ensures CanEnqueue(e) ==> Calm(e, DoEnqueue(e))
    ensures CanOrphan(e) && !e.sess.frame.msg.Data? ==> Calm(e, DoOrphan(e))
    ensures CanEmit(e) ==> Calm(e, DoEmit(e))
    ensures CanDialEnd(e) ==> Calm(e, DoDialErr(e))
  {
    hide HasClose;
    if CanEnqueue(e) {
      CloseJoins(e.socks[e.sess.to].queue, e.sess.frame, e.sess.to);
    }
  }

  lemma CalmLink(e: Endpoint, out: seq<Frame>, up: bool)
    ensures Calm(e, e.(out := out, up := up))
  {
  }

  lemma GateIsCalm(s: State, a: Action)
    requires SessionOk(s.gate) && Enabled(s, a) && (a.DialErr? || (OfOneEndpoint(a) && a.side.Gate?))
    requires !a.WriteErr? && (a.Orphan? ==> !s.gate.sess.frame.msg.Data?)
    ensures Calm(s.gate, Next(s, a).gate)
  {
    hide Calm, SessionOk;
    var e := s.gate;
    if a.DialErr? || BySession(a) {
      CalmSession(e);
    } else if ByReader(a) {
      CalmReader(e, a.k, if a.Read? then a.chunk else []);
    } else if a.Write? || a.Shut? || a.Starve? || a.Remove? {
      CalmWriter(e, a.k);
    } else {
      GateOnlyLink(s, a);
      CalmLink(e, Next(s, a).gate.out, Next(s, a).gate.up);
    }
  }

  lemma GateOnlyLink(s: State, a: Action)
    requires Enabled(s, a) && OfOneEndpoint(a) && a.side.Gate?
    requires ByLink(a)
    ensures var e' := Next(s, a).gate; e' == s.gate.(out := e'.out, up := e'.up)
  {
  }

  // ---------------------------------------------------------------- the gate's losses, step by step

  lemma LossesMore(e: Endpoint, lost: seq<Frame>, lost': seq<Frame>)
    requires GateLosses(e, lost) && lost <= lost'
    ensures GateLosses(e, lost')
  {
  }

  /** The gate answers for a connection that it never opened. */
  lemma LossesAnswer(e: Endpoint, lost: seq<Frame>)
    requires GateLosses(e, lost) && SessionOk(e) && CanOrphan(e)
    requires e.sess.frame.msg.Data? && e.sess.frame.id !in e.conns
    ensures GateLosses(DoOrphan(e), lost)
    ensures forall k | 0 <= k < |e.socks| && Told(e, k) :: Told(DoOrphan(e), k)
  {
    assert [e.sess.frame][0].id == e.socks[e.sess.frame.tag].id;
    assert e.conns - {e.sess.frame.id} == e.conns;
  }

  lemma LossesDialOk(e: Endpoint, lost: seq<Frame>)
    requires GateLosses(e, lost) && CanDialEnd(e) && SessionOk(e) && e.socks[e.sess.conn].queue == []
    requires e.socks[e.sess.conn].wr.Absent?
    requires forall k | e.sess.conn < k < |e.socks| :: e.socks[k].id != e.socks[e.sess.conn].id
    ensures GateLosses(DoDialOk(e), lost)
    ensures forall k | 0 <= k < |e.socks| && Told(e, k) :: Told(DoDialOk(e), k)
  {
  }

  /** No frame of a connection has been missed while its OPEN is under way. */
  lemma NothingMissedYet(snd: Endpoint, wire: seq<Frame>, rcv: Endpoint, whole: bool)
    requires LaneOk(snd, wire, rcv, whole) && wire != [] && wire[0].msg.Open? && wire[0].tag < |snd.socks|
    ensures forall i | 0 <= i < |rcv.missed| :: rcv.missed[i].tag != wire[0].tag
  {
    var k := wire[0].tag;
    HeadIsGood(snd, wire, rcv, whole);
    assert LaneAt(snd, wire, rcv, k, whole);
    assert Back(rcv, k) == [];
    assert Of(rcv.missed, k) == [];
    OfMembers(rcv.missed, k);
    forall i | 0 <= i < |rcv.missed| ensures rcv.missed[i].tag != k {
      assert rcv.missed[i] in rcv.missed;
    }
  }

  lemma LossesOpen(e: Endpoint, f: Frame, lost: seq<Frame>)
    requires GateLosses(e, lost) && CanTake(e, f) && f.msg.Open?
    requires forall i | 0 <= i < |e.missed| :: e.missed[i].tag != f.tag
    ensures GateLosses(DoTake(e, f, true), lost)
    ensures forall k | 0 <= k < |e.socks| && Told(e, k) :: Told(DoTake(e, f, true), k)
  {
  }

  /** What the gate may do with a frame that is not OPEN. */
  ghost predicate Placed(e: Endpoint, f: Frame, lost: seq<Frame>) {
    || Routed(e, f)
    || (Diverted(e, f) && f.tag < |e.socks| && e.socks[f.tag].rd.NotYet? && Frame(f.id, f.tag, Open) in lost)
  }

  lemma LossesTake(e: Endpoint, f: Frame, lost: seq<Frame>)
    requires GateLosses(e, lost) && EndpointOk(e) && CanTake(e, f) && !f.msg.Open? && Placed(e, f, lost)
    ensures GateLosses(DoTake(e, f, true), lost)
    ensures forall k | 0 <= k < |e.socks| && Told(e, k) :: Told(DoTake(e, f, true), k)
    ensures f.msg.Close? ==> Accounted(DoTake(e, f, true), f, lost)
  {
    assert forall k | 0 <= k < |e.socks| :: e.socks[k].rd.Dialing? ==> e.sess.Dial?;
  }

  lemma LossesAccept(e: Endpoint, lost: seq<Frame>, id: ConnId)
    requires GateLosses(e, lost) && EndpointOk(e)
    ensures var e' := e.(socks := e.socks + [NewConn(id)]);
      GateLosses(e', lost) && forall k | 0 <= k < |e.socks| && Told(e, k) :: Told(e', k)
  {
    var e' := e.(socks := e.socks + [NewConn(id)]);
    forall i | 0 <= i < |e.missed| ensures e.missed[i].tag < |e.socks| {}
  }

  ghost predicate StillTold(e: Endpoint, e': Endpoint) {
    && |e.socks| <= |e'.socks| && e.missed <= e'.missed
    && forall k | 0 <= k < |e.socks| && Told(e, k) :: Told(e', k)
  }

  lemma GateLossesStep(s: State, a: Action)
    requires InvHG(s) && Enabled(s, a) && FairHG(s, a)
    ensures GateLosses(Next(s, a).gate, Next(s, a).lostHG) && StillTold(s.gate, Next(s, a).gate)
  {
    hide InvGH, Lane, Ledger, OrderOk, GateLosses, Muddled, StillTold, Told;
    LostGrows(s, a);
    GateLossesAt(s, a);
    LossesMore(Next(s, a).gate, s.lostHG, Next(s, a).lostHG);
  }

  lemma GateLossesAt(s: State, a: Action)
    requires InvHG(s) && Enabled(s, a) && FairHG(s, a)
    ensures GateLosses(Next(s, a).gate, s.lostHG) && StillTold(s.gate, Next(s, a).gate)
  {
    hide Base, Lane, Ledger, OrderOk, GateLosses, StillTold, Muddled, Told, Retired, LostOpens, AnsweredLost,
      HomeStraight, Next;
    if a == Take(Gate) {
      GateLossesTake(s);
      TakesAtGate(s);
    } else if a.Accept? {
      BaseGate(s);
      GateLossesAccept(s);
    } else if a.DialOk? {
      GateLossesDialOk(s);
    } else if a == Orphan(Gate) && s.gate.sess.frame.msg.Data? {
      BaseParts(s);
      GateLossesAnswer(s);
      OrphansAtGate(s);
    } else if a.DialErr? || (OfOneEndpoint(a) && a.side.Gate?) {
      BaseParts(s);
      GateLossesCalm(s, a);
    } else {
      GateUntouched(s, a);
      NothingUntold(s.gate);
    }
  }

  lemma BaseGate(s: State)
    requires Base(s)
    ensures EndpointOk(s.gate)
  {
    hide EndpointOk, SameIds, AcceptorOk, OpensOk, FirstRound, Tagged;
  }

  lemma TakesAtGate(s: State)
    requires Enabled(s, Take(Gate))
    ensures Next(s, Take(Gate)).gate == DoTake(s.gate, s.hg[0], true)
  {
    hide DoTake;
  }

  lemma OrphansAtGate(s: State)
    requires Enabled(s, Orphan(Gate))
    ensures Next(s, Orphan(Gate)).gate == DoOrphan(s.gate)
  {
    hide DoOrphan;
  }

  lemma NothingUntold(e: Endpoint)
    ensures StillTold(e, e)
  {
  }

  lemma GateLossesCalm(s: State, a: Action)
    requires GateLosses(s.gate, s.lostHG) && SessionOk(s.gate)
    requires Enabled(s, a) && (a.DialErr? || (OfOneEndpoint(a) && a.side.Gate?))
    requires !a.WriteErr? && (a.Orphan? ==> !s.gate.sess.frame.msg.Data?)
    ensures GateLosses(Next(s, a).gate, s.lostHG) && StillTold(s.gate, Next(s, a).gate)
  {
    hide Enabled, Next, GateLosses, Told;
    GateIsCalm(s, a);
    CalmKeeps(s.gate, Next(s, a).gate, s.lostHG);
  }

  lemma GateLossesDialOk(s: State)
    requires InvGH(s) && GateLosses(s.gate, s.lostHG) && Enabled(s, DialOk)
    ensures GateLosses(Next(s, DialOk).gate, s.lostHG) && StillTold(s.gate, Next(s, DialOk).gate)
  {
    hide Base, EndpointOk, Lane, Retired, LostOpens, AnsweredLost, HomeStraight, GateLosses, Told, SessionOk;
    DialIsLatest(s);
    BaseGate(s);
    DialedIsIdle(s.gate);
    LossesDialOk(s.gate, s.lostHG);
  }

  lemma GateUntouched(s: State, a: Action)
    requires Enabled(s, a) && a != Take(Gate) && !a.Accept? && !a.DialOk? && !a.DialErr?
    requires OfOneEndpoint(a) ==> a.side.Home?
    ensures Next(s, a).gate == s.gate
  {
  }

  lemma GateLossesAnswer(s: State)
    requires CanOrphan(s.gate) && s.gate.sess.frame.msg.Data? && SessionOk(s.gate)
    requires Lane(s, Home) && GateLosses(s.gate, s.lostHG)
    ensures GateLosses(DoOrphan(s.gate), s.lostHG) && StillTold(s.gate, DoOrphan(s.gate))
  {
    hide LaneOk, Told;
    GoneHasNoEntry(s);
    LossesAnswer(s.gate, s.lostHG);
  }

  lemma GateLossesAccept(s: State)
    requires EndpointOk(s.gate) && GateLosses(s.gate, s.lostHG) && Enabled(s, Accept)
    ensures GateLosses(Next(s, Accept).gate, s.lostHG) && StillTold(s.gate, Next(s, Accept).gate)
  {
    hide GateLosses, Told, Alloc;
    var id := Alloc(s.home.conns.Keys, s.next).0;
    if id.Some? {
      LossesAccept(s.gate, s.lostHG, id.value);
    }
  }

  lemma GateLossesTake(s: State)
    requires s.hg != [] && CanTake(s.gate, s.hg[0]) && InvHG(s)
    ensures var e' := DoTake(s.gate, s.hg[0], true);
      && GateLosses(e', s.lostHG) && StillTold(s.gate, e')
      && (s.hg[0].msg.Close? ==> Accounted(e', s.hg[0], s.lostHG))
  {
    hide LaneOk, Ledger, OrderOk, GateLosses, Muddled, Told, Retired, LostOpens, AnsweredLost, HomeStraight;
    var f := s.hg[0];
    assert HomePipe(s)[0] == f;
    if f.msg.Open? {
      NothingMissedYet(s.home, s.hg, s.gate, s.lostHG == []);
      LossesOpen(s.gate, f, s.lostHG);
    } else {
      RoutedGate(s);
      LossesTake(s.gate, f, s.lostHG);
    }
  }

  // ---------------------------------------------------------------- the ledger, step by step

  lemma LedgerMoves(p: seq<Frame>, p': seq<Frame>, lost: seq<Frame>, lost': seq<Frame>,
                    home: seq<Conn>, home': seq<Conn>, gate: Endpoint, gate': Endpoint)
    requires Ledger(p, lost, home, gate) && lost <= lost' && StillTold(gate, gate')
    requires |home| <= |home'| && |home'| == |gate'.socks|
    requires forall j | 0 <= j < |home| :: home'[j].id == home[j].id
    requires forall j | 0 <= j < |home'| && home'[j].rd.Done? && !(j < |home| && home[j].rd.Done?) ::
      Frame(home'[j].id, j, Close) in p'
    requires forall f | f in p && f.msg.Close? ::
      f in p' || f in lost' || Accounted(gate', f, lost')
    ensures Ledger(p', lost', home', gate')
  {
    hide Told;
  }

  /** Only queueing CLOSE makes a home reader done. */
  lemma NewlyDone(s: State, a: Action, j: nat)
    requires Enabled(s, a) && j < |Next(s, a).home.socks| && Next(s, a).home.socks[j].rd.Done?
    requires !(j < |s.home.socks| && s.home.socks[j].rd.Done?)
    ensures a == SendClose(Home, j) && j < |s.home.socks|
    ensures Frame(Next(s, a).home.socks[j].id, j, Close) in Next(s, a).hg + Next(s, a).home.out
  {
    hide Enabled, Next;
    if !OfOneEndpoint(a) {
      NotDoneShared(s, a, j);
    } else if a.side.Gate? {
      OtherRests(s, a, Home);
    } else {
      NewlyDoneOwn(s, a, j);
    }
  }

  lemma NotDoneShared(s: State, a: Action, j: nat)
    requires Enabled(s, a) && !OfOneEndpoint(a) && j < |Next(s, a).home.socks|
    requires !(j < |s.home.socks| && s.home.socks[j].rd.Done?)
    ensures !Next(s, a).home.socks[j].rd.Done?
  {
    hide Alloc;
  }

  lemma NewlyDoneOwn(s: State, a: Action, j: nat)
    requires Enabled(s, a) && OfOneEndpoint(a) && a.side.Home?
    requires j < |Next(s, a).home.socks| && Next(s, a).home.socks[j].rd.Done?
    requires !(j < |s.home.socks| && s.home.socks[j].rd.Done?)
    ensures a == SendClose(Home, j) && j < |s.home.socks|
    ensures Frame(Next(s, a).home.socks[j].id, j, Close) in Next(s, a).hg + Next(s, a).home.out
  {
    hide Enabled, Next;
    if ByReader(a) {
      ReaderTouches(s, a);
      ReaderChanges(s, a);
      var f := Frame(s.home.socks[a.k].id, a.k, Close);
      if a.SendClose? {
        assert (s.hg + (s.home.out + [f]))[|s.hg| + |s.home.out|] == f;
      }
    } else if ByWriter(a) {
      WriterTouches(s, a);
      WriterChanges(s, a);
    } else if BySession(a) {
      SessionChanges(s, a);
    } else {
      LinkTouches(s, a);
    }
  }

  /** What leaves the home pipe is lost or taken. */
  lemma PipeLeaves(s: State, a: Action)
    requires Base(s) && Enabled(s, a) && a != Take(Gate)
    ensures forall f | f in HomePipe(s) :: f in HomePipe(Next(s, a)) || f in Next(s, a).lostHG
  {
    var p, p' := HomePipe(s), HomePipe(Next(s, a));
    if HomeLoses(a) {
      hide Base, Next, HomePipe;
      var i := HomePipeStep(s, a);
      OthersStay(p, i);
    } else if a == Drain(Home) {
      LinkPipe(s.hg, s.home.out, 0);
    } else {
      HomePipeGrows(s, a);
      assert p <= p';
    }
  }

  lemma OthersStay(p: seq<Frame>, i: nat)
    requires i < |p|
    ensures forall f | f in p && f != p[i] :: f in p[..i] + p[i + 1..]
  {
    var p' := p[..i] + p[i + 1..];
    forall f | f in p && f != p[i] ensures f in p' {
      var j :| 0 <= j < |p| && p[j] == f;
      assert p'[if j < i then j else j - 1] == f;
    }
  }

  lemma TakeLeaves(s: State)
    requires s.hg != []
    ensures forall f | f in HomePipe(s) && f != s.hg[0] :: f in s.hg[1..] + s.home.out
  {
    var p, p' := HomePipe(s), s.hg[1..] + s.home.out;
    forall f | f in p && f != s.hg[0] ensures f in p' {
      var j :| 0 <= j < |p| && p[j] == f;
      assert p'[j - 1] == f;
    }
  }

  lemma SocksKeepIds(s: State, a: Action)
    requires Base(s) && Enabled(s, a)
    ensures |s.home.socks| <= |Next(s, a).home.socks|
    ensures forall j | 0 <= j < |s.home.socks| :: Next(s, a).home.socks[j].id == s.home.socks[j].id
  {
    if !a.Accept? {
      StepGrows(s, a, Home);
    }
  }

  lemma LedgerStep(s: State, a: Action)
    requires InvHG(s) && Enabled(s, a) && FairHG(s, a)
    ensures var s' := Next(s, a);
      Ledger(HomePipe(s'), s'.lostHG, s'.home.socks, s'.gate)
  {
    hide Lane, Ledger, OrderOk, GateLosses, Muddled, Told, StillTold, Retired, LostOpens, AnsweredLost, HomeStraight,
      OpensOk, AcceptorOk, FirstRound, EndpointOk;
    var s' := Next(s, a);
    BaseStep(s, a);
    GateLossesStep(s, a);
    LostGrows(s, a);
    SocksKeepIds(s, a);
    forall j | 0 <= j < |s'.home.socks| && s'.home.socks[j].rd.Done? &&
      !(j < |s.home.socks| && s.home.socks[j].rd.Done?)
      ensures Frame(s'.home.socks[j].id, j, Close) in HomePipe(s')
    {
      NewlyDone(s, a, j);
    }
    LedgerLeaves(s, a);
    LedgerMoves(HomePipe(s), HomePipe(s'), s.lostHG, s'.lostHG, s.home.socks, s'.home.socks, s.gate, s'.gate);
  }

  lemma LedgerLeaves(s: State, a: Action)
    requires InvHG(s) && Enabled(s, a) && FairHG(s, a)
    ensures var s' := Next(s, a);
      forall f | f in HomePipe(s) && f.msg.Close? ::
        f in HomePipe(s') || f in s'.lostHG || Accounted(s'.gate, f, s'.lostHG)
  {
    hide Lane, Ledger, OrderOk, GateLosses, Muddled, Told, Retired, LostOpens, AnsweredLost, HomeStraight, FairHG;
    if a == Take(Gate) {
      GateLossesTake(s);
      TakeLeaves(s);
      assert HomePipe(s)[0] == s.hg[0];
    } else {
      PipeLeaves(s, a);
    }
  }

  lemma InvHGStep(s: State, a: Action)
    requires InvHG(s) && Enabled(s, a) && FairHG(s, a)
    ensures InvHG(Next(s, a))
  {
    hide InvGH, Lane, Ledger, OrderOk, GateLosses, Muddled;
    InvHGLanes(s, a);
    GateLossesStep(s, a);
    LedgerStep(s, a);
  }

  lemma InvHGLanes(s: State, a: Action)
    requires InvHG(s) && Enabled(s, a) && FairHG(s, a)
    ensures var s' := Next(s, a);
      InvGH(s') && Lane(s', Home) && !s'.home.sess.Emit? && OrderOk(s')
  {
    hide Base, Lane, Retired, LostOpens, AnsweredLost, Ledger, OrderOk, GateLosses, Muddled, FairGH;
    HarmlessHG(s, a);
    InvGHStep(s, a);
    LaneStep(s, Home, a);
    HomeQuiet(s, a);
    OrderStep(s, a);
  }

  lemma HomeQuiet(s: State, a: Action)
    requires Lane(s, Gate) && HomeStraight(s.home) && !s.home.sess.Emit? && Enabled(s, a)
    ensures !Next(s, a).home.sess.Emit?
  {
    NeverOrphaned(s.gate, s.gh, s.home, s.lostGH == []);
    HomeNeverEmits(s, a);
  }

  lemma InvInit()
    ensures InvHG(Init())
  {
    hide Track, LaneAt, Order, Told;
    BaseInit();
    InitGH();
    InitOrder();
  }

  lemma InitGH()
    ensures InvGH(Init()) && Lane(Init(), Home)
  {
    BaseInit();
  }

  lemma InitOrder()
    ensures OrderOk(Init())
  {
  }
}
