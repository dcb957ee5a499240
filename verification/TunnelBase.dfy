/** What every reachable state satisfies, whatever fails: shapes, bounds, who is where. */
module TunnelBase {
  import opened Common
  import opened Allocator
  import opened TunnelModel
  import opened TunnelFootprint

  /** Frames name a known incarnation and carry its id. */
  ghost predicate Tagged(p: seq<Frame>, socks: seq<Conn>) {
    forall i | 0 <= i < |p| :: p[i].tag < |socks| && p[i].id == socks[p[i].tag].id
  }

  ghost predicate NoOpens(p: seq<Frame>) {
    forall i | 0 <= i < |p| :: !p[i].msg.Open?
  }

  ghost predicate SessionOk(e: Endpoint) {
    match e.sess
    case Ready => true
    case Dial(id, k) => k < |e.socks| && e.socks[k].id == id && e.socks[k].rd.Dialing?
    case Deliver(to, f) =>
      to < |e.socks| && !e.socks[to].wr.Absent? && Tagged([f], e.socks) && e.socks[to].id == f.id && !f.msg.Open?
    case Emit(f) => Tagged([f], e.socks) && f.msg.Close?
  }

  ghost predicate ConnOk(c: Conn) {
    && (c.wr.Absent? <==> Fresh(c) || c.rd.Dialing? || c.rd.Refused?)
    && (c.wr.Absent? ==> c.got == [] && c.queue == [] && c.log == [])
    && (c.rd.Holding? ==> c.got != [])
    && |c.queue| <= CONN_QUEUE
    && (c.wr.Gone? ==> c.queue == [])
    && (forall i | 0 <= i < |c.queue| :: !c.queue[i].msg.Open?)
  }

  /** Entries lead to a started connection of their id. */
  ghost predicate EntriesOk(e: Endpoint) {
    forall id | id in e.conns ::
      e.conns[id] < |e.socks| && e.socks[e.conns[id]].id == id && !e.socks[e.conns[id]].wr.Absent?
  }

  /** One endpoint on its own. */
  ghost predicate EndpointOk(e: Endpoint) {
    && EntriesOk(e)
    && (forall k | 0 <= k < |e.socks| :: ConnOk(e.socks[k]))
    && (forall k | 0 <= k < |e.socks| && e.socks[k].rd.Dialing? :: e.sess == Dial(e.socks[k].id, k))
    && SessionOk(e)
    && |e.out| <= OUT_QUEUE
    && (!e.up ==> e.sess.Ready?)
    && Tagged(e.out, e.socks)
    && Tagged(e.missed, e.socks) && NoOpens(e.missed)
  }

  ghost predicate SameIds(s: State) {
    && |s.home.socks| == |s.gate.socks|
    && forall k | 0 <= k < |s.home.socks| :: s.home.socks[k].id == s.gate.socks[k].id
  }

  /** The incarnations whose OPEN has been queued are those below this bound. */
  function SentCount(s: State): nat {
    if s.acc.Opening? && s.home.socks != [] then |s.home.socks| - 1 else |s.home.socks|
  }

  /** The acceptor works on the newest incarnation; every older one is registered. */
  ghost predicate AcceptorOk(s: State) {
    var socks, n := s.home.socks, |s.home.socks|;
    && (forall k | 0 <= k < n :: socks[k].wr.Absent? <==> !s.acc.Waiting? && k == n - 1)
    && (forall k | 0 <= k < n :: !socks[k].rd.Dialing? && !socks[k].rd.Refused?)
    && (!s.acc.Waiting? ==> n > 0 && socks[n - 1].id !in s.home.conns)
    && (s.acc.Opening? ==> n <= |s.gate.socks| && Fresh(s.gate.socks[n - 1]))
  }

  /** The OPEN frames of a pipe name ever later incarnations. */
  ghost predicate OpensAscend(p: seq<Frame>) {
    forall i, j | 0 <= i < j < |p| && p[i].msg.Open? && p[j].msg.Open? :: p[i].tag < p[j].tag
  }

  /** They name incarnations below `sent` that the gate has not started on. */
  ghost predicate OpensWait(p: seq<Frame>, sent: nat, gate: seq<Conn>) {
    forall i | 0 <= i < |p| && p[i].msg.Open? :: p[i].tag < sent && p[i].tag < |gate| && Fresh(gate[p[i].tag])
  }

  ghost predicate OpensOk(s: State) {
    && OpensAscend(s.hg + s.home.out)
    && OpensWait(s.hg + s.home.out, SentCount(s), s.gate.socks)
    && NoOpens(s.gh + s.gate.out)
  }

  /** Until the cursor has gone round once, incarnation k has id k. */
  ghost predicate FirstRound(s: State) {
    |s.home.socks| <= ID_COUNT ==>
      && (forall k | 0 <= k < |s.home.socks| :: s.home.socks[k].id == k)
      && s.next == if |s.home.socks| == ID_COUNT then 0 else |s.home.socks|
  }

  ghost predicate Base(s: State) {
    && SameIds(s)
    && EndpointOk(s.home) && EndpointOk(s.gate)
    && Tagged(s.hg, s.home.socks) && Tagged(s.gh, s.home.socks)
    && AcceptorOk(s)
    && OpensOk(s)
    && FirstRound(s)
  }

  lemma BaseInit()
    ensures Base(Init())
  {
  }

  // ---------------------------------------------------------------- one endpoint

  /** `e'` is `e` after a step that leaves alone what the acceptor and OPEN frames wait for. */
  ghost predicate Kept(side: Side, e: Endpoint, e': Endpoint) {
    && |e'.socks| == |e.socks|
    && (forall k | 0 <= k < |e.socks| :: e'.socks[k].id == e.socks[k].id)
    && (side.Gate? ==> forall k | 0 <= k < |e.socks| && Fresh(e.socks[k]) :: Fresh(e'.socks[k]))
    && (side.Home? ==>
          && (forall k | 0 <= k < |e.socks| :: e'.socks[k].wr.Absent? <==> e.socks[k].wr.Absent?)
          && (forall k | 0 <= k < |e.socks| && !e.socks[k].rd.Dialing? && !e.socks[k].rd.Refused? ::
                !e'.socks[k].rd.Dialing? && !e'.socks[k].rd.Refused?)
          && e'.conns.Keys <= e.conns.Keys)
  }

  /** `e'` queues at most one frame more than `e`, and no OPEN. */
  ghost predicate QueuesNoOpen(e: Endpoint, e': Endpoint) {
    e'.out == e.out || (e'.out != [] && e'.out[..|e'.out| - 1] == e.out && !e'.out[|e'.out| - 1].msg.Open?)
  }

  ghost predicate LocalStep(side: Side, e: Endpoint, e': Endpoint) {
    EndpointOk(e') && Kept(side, e, e') && QueuesNoOpen(e, e')
  }

  lemma EndpointRead(side: Side, e: Endpoint, k: nat, chunk: Chunk)
    requires EndpointOk(e) && CanRead(e, k, chunk)
    ensures LocalStep(side, e, DoRead(e, k, chunk))
  {
  }

  lemma EndpointSendData(side: Side, e: Endpoint, k: nat)
    requires EndpointOk(e) && CanSendData(e, k)
    ensures LocalStep(side, e, DoSendData(e, k))
  {
  }

  lemma EndpointEof(side: Side, e: Endpoint, k: nat)
    requires EndpointOk(e) && CanEof(e, k)
    ensures LocalStep(side, e, DoEof(e, k))
  {
  }

  lemma EndpointSendClose(side: Side, e: Endpoint, k: nat)
    requires EndpointOk(e) && CanSendClose(e, k)
    ensures LocalStep(side, e, DoSendClose(e, k))
  {
  }

  lemma EndpointWrite(side: Side, e: Endpoint, k: nat)
    requires EndpointOk(e) && CanWrite(e, k)
    ensures LocalStep(side, e, DoWrite(e, k))
  {
  }

  lemma EndpointWriteErr(side: Side, e: Endpoint, k: nat)
    requires EndpointOk(e) && CanWrite(e, k)
    ensures LocalStep(side, e, DoWriteErr(e, k))
  {
  }

  lemma EndpointShut(side: Side, e: Endpoint, k: nat)
    requires EndpointOk(e) && CanShut(e, k)
    ensures LocalStep(side, e, DoShut(e, k))
  {
  }

  lemma EndpointStarve(side: Side, e: Endpoint, k: nat)
    requires EndpointOk(e) && CanStarve(e, k)
    ensures LocalStep(side, e, DoStarve(e, k))
  {
  }

  lemma EndpointRemove(side: Side, e: Endpoint, k: nat)
    requires EndpointOk(e) && CanRemove(e, k)
    ensures LocalStep(side, e, DoRemove(e, k))
  {
  }

  lemma EndpointEnqueue(side: Side, e: Endpoint)
    requires EndpointOk(e) && CanEnqueue(e)
    ensures LocalStep(side, e, DoEnqueue(e))
  {
  }

  lemma EndpointOrphan(side: Side, e: Endpoint)
    requires EndpointOk(e) && CanOrphan(e)
    ensures LocalStep(side, e, DoOrphan(e))
  {
    if e.sess.frame.msg.Data? {
      EndpointAnswers(side, e);
    } else {
      EndpointForgets(side, e);
    }
  }

  lemma EndpointAnswers(side: Side, e: Endpoint)
    requires EndpointOk(e) && CanOrphan(e) && e.sess.frame.msg.Data?
    ensures LocalStep(side, e, DoOrphan(e))
  {
    assert [e.sess.frame][0] == e.sess.frame;
  }

  lemma EndpointForgets(side: Side, e: Endpoint)
    requires EndpointOk(e) && e.sess.Deliver?
    ensures LocalStep(side, e, e.(sess := Ready))
  {
  }

  lemma EndpointEmit(side: Side, e: Endpoint)
    requires EndpointOk(e) && CanEmit(e)
    ensures LocalStep(side, e, DoEmit(e))
  {
  }

  lemma EndpointDialOk(e: Endpoint)
    requires EndpointOk(e) && CanDialEnd(e)
    ensures LocalStep(Gate, e, DoDialOk(e))
  {
  }

  lemma EndpointDialErr(e: Endpoint)
    requires EndpointOk(e) && CanDialEnd(e)
    ensures LocalStep(Gate, e, DoDialErr(e))
  {
  }

  lemma EndpointTake(e: Endpoint, f: Frame, dials: bool)
    requires EndpointOk(e) && CanTake(e, f) && Tagged([f], e.socks)
    requires f.msg.Open? ==> Fresh(e.socks[f.tag])
    ensures EndpointOk(DoTake(e, f, dials))
    ensures !(f.msg.Open? && dials) ==> forall side :: LocalStep(side, e, DoTake(e, f, dials))
  {
    assert [f][0] == f;
    if f.msg.Open? {
      EndpointDials(e, f, dials);
    } else {
      EndpointRoutes(e, f, dials);
    }
  }

  lemma EndpointDials(e: Endpoint, f: Frame, dials: bool)
    requires EndpointOk(e) && CanTake(e, f) && f.msg.Open?
    requires e.socks[f.tag].id == f.id && Fresh(e.socks[f.tag])
    ensures EndpointOk(DoTake(e, f, dials))
    ensures !dials ==> DoTake(e, f, dials) == e && forall side :: LocalStep(side, e, e)
  {
  }

  lemma EndpointRoutes(e: Endpoint, f: Frame, dials: bool)
    requires EndpointOk(e) && CanTake(e, f) && !f.msg.Open? && e.socks[f.tag].id == f.id
    ensures EndpointOk(DoTake(e, f, dials))
    ensures forall side :: LocalStep(side, e, DoTake(e, f, dials))
  {
    if f.id in e.conns {
      EndpointHolds(e, f);
    } else {
      EndpointMisses(e, f, e.spilt + PayloadSize(f));
    }
  }

  lemma EndpointHolds(e: Endpoint, f: Frame)
    requires EndpointOk(e) && CanTake(e, f) && !f.msg.Open? && e.socks[f.tag].id == f.id && f.id in e.conns
    ensures forall side :: LocalStep(side, e, e.(sess := Deliver(e.conns[f.id], f))) && LocalStep(side, e, e)
  {
  }

  lemma EndpointMisses(e: Endpoint, f: Frame, spilt: nat)
    requires EndpointOk(e) && CanTake(e, f) && !f.msg.Open? && e.socks[f.tag].id == f.id
    ensures forall side :: LocalStep(side, e, e.(missed := e.missed + [f], spilt := spilt)) && LocalStep(side, e, e)
  {
  }

  // ---------------------------------------------------------------- the whole system

  lemma OpensAppend(p: seq<Frame>, f: Frame, sent: nat, gate: seq<Conn>)
    requires OpensAscend(p) && OpensWait(p, sent, gate)
    requires f.msg.Open? ==> sent <= f.tag < |gate| && Fresh(gate[f.tag])
    ensures OpensAscend(p + [f]) && OpensWait(p + [f], if f.msg.Open? then f.tag + 1 else sent, gate)
  {
  }

  lemma OpensRemove(p: seq<Frame>, i: nat, sent: nat, gate: seq<Conn>)
    requires i < |p|
    ensures OpensAscend(p) && OpensWait(p, sent, gate) ==>
      OpensAscend(p[..i] + p[i + 1..]) && OpensWait(p[..i] + p[i + 1..], sent, gate)
  {
    var p' := p[..i] + p[i + 1..];
    forall j | 0 <= j < |p'| ensures p'[j] == p[if j < i then j else j + 1] {}
  }

  /** A step of one endpoint that queues no OPEN. */
  lemma BaseLocal(s: State, side: Side, e': Endpoint)
    requires Base(s)
    requires LocalStep(side, s.Ep(side), e')
    ensures Base(s.WithEp(side, e'))
  {
    BaseLocalOpens(s, side, e');
    if side.Home? {
      BaseLocalHome(s, e');
    } else {
      BaseLocalGate(s, e');
    }
  }

  lemma BaseLocalHome(s: State, e': Endpoint)
    requires SameIds(s) && AcceptorOk(s) && FirstRound(s)
    requires Kept(Home, s.home, e')
    ensures var s' := s.(home := e'); SameIds(s') && AcceptorOk(s') && FirstRound(s')
    ensures Tagged(s.hg, s.home.socks) ==> Tagged(s.hg, e'.socks)
    ensures Tagged(s.gh, s.home.socks) ==> Tagged(s.gh, e'.socks)
  {
  }

  lemma BaseLocalGate(s: State, e': Endpoint)
    requires SameIds(s) && AcceptorOk(s)
    requires Kept(Gate, s.gate, e')
    ensures var s' := s.(gate := e'); SameIds(s') && AcceptorOk(s')
  {
  }

  lemma BaseLocalOpens(s: State, side: Side, e': Endpoint)
    requires SameIds(s) && OpensOk(s)
    requires Kept(side, s.Ep(side), e') && QueuesNoOpen(s.Ep(side), e')
    ensures OpensOk(s.WithEp(side, e'))
  {
    var e := s.Ep(side);
    if e'.out != e.out {
      var f := e'.out[|e'.out| - 1];
      assert s.Wire(side) + e'.out == (s.Wire(side) + e.out) + [f];
      if side.Home? {
        OpensAppend(s.hg + s.home.out, f, SentCount(s), s.gate.socks);
      }
    }
  }

  /** `p'` is `p`, or `p` without the frame at `gone`. */
  ghost predicate Without(p: seq<Frame>, gone: nat, p': seq<Frame>) {
    p' == if gone < |p| then p[..gone] + p[gone + 1..] else p
  }

  lemma EndpointOut(e: Endpoint, out: seq<Frame>, up: bool)
    requires EndpointOk(e)
    requires |out| <= |e.out| && Tagged(out, e.socks)
    requires up || e.sess.Ready?
    ensures EndpointOk(e.(out := out, up := up))
  {
  }

  /** The home pipe loses a frame, or frames move from `out` to the wire. */
  lemma BasePipeHome(s: State, out: seq<Frame>, up: bool, w: seq<Frame>, lost: seq<Frame>, gone: nat)
    requires Base(s)
    requires |out| <= |s.home.out|
    requires up || s.home.sess.Ready?
    requires Without(s.hg + s.home.out, gone, w + out)
    ensures Base(s.(home := s.home.(out := out, up := up), hg := w, lostHG := lost))
  {
    TaggedWithout(s.hg, s.home.out, gone, w, out, s.home.socks);
    EndpointOut(s.home, out, up);
    OpensWithout(s, out, up, w, lost, gone);
  }

  lemma OpensWithout(s: State, out: seq<Frame>, up: bool, w: seq<Frame>, lost: seq<Frame>, gone: nat)
    requires SameIds(s) && OpensOk(s) && AcceptorOk(s) && FirstRound(s)
    requires Without(s.hg + s.home.out, gone, w + out)
    ensures var s' := s.(home := s.home.(out := out, up := up), hg := w, lostHG := lost);
      SameIds(s') && OpensOk(s') && AcceptorOk(s') && FirstRound(s')
  {
    OpensFewer(s.hg + s.home.out, gone, w + out, SentCount(s), s.gate.socks);
  }

  lemma OpensFewer(p: seq<Frame>, gone: nat, p': seq<Frame>, sent: nat, gate: seq<Conn>)
    requires Without(p, gone, p') && OpensAscend(p) && OpensWait(p, sent, gate)
    ensures OpensAscend(p') && OpensWait(p', sent, gate)
  {
    if gone < |p| {
      OpensRemove(p, gone, sent, gate);
    }
  }

  lemma BasePipeGate(s: State, out: seq<Frame>, up: bool, w: seq<Frame>, lost: seq<Frame>, gone: nat)
    requires Base(s)
    requires |out| <= |s.gate.out|
    requires up || s.gate.sess.Ready?
    requires Without(s.gh + s.gate.out, gone, w + out)
    ensures Base(s.(gate := s.gate.(out := out, up := up), gh := w, lostGH := lost))
  {
    TaggedSame(s.gate.out, s.home.socks, s.gate.socks);
    TaggedWithout(s.gh, s.gate.out, gone, w, out, s.home.socks);
    TaggedSame(out, s.home.socks, s.gate.socks);
    EndpointOut(s.gate, out, up);
    OpensWithoutGate(s, out, up, w, lost, gone);
  }

  lemma OpensWithoutGate(s: State, out: seq<Frame>, up: bool, w: seq<Frame>, lost: seq<Frame>, gone: nat)
    requires SameIds(s) && OpensOk(s) && AcceptorOk(s) && FirstRound(s)
    requires Without(s.gh + s.gate.out, gone, w + out)
    ensures var s' := s.(gate := s.gate.(out := out, up := up), gh := w, lostGH := lost);
      SameIds(s') && OpensOk(s') && AcceptorOk(s') && FirstRound(s')
  {
    hide OpensAscend, OpensWait, NoOpens, Without;
    NoOpensWithout(s.gh + s.gate.out, gone, w + out);
  }

  lemma NoOpensWithout(p: seq<Frame>, gone: nat, p': seq<Frame>)
    requires Without(p, gone, p') && NoOpens(p)
    ensures NoOpens(p')
  {
    hide Without;
    WithoutIsFewer(p, gone, p');
    forall i | 0 <= i < |p'| ensures !p'[i].msg.Open? {
      assert p'[i] in p;
    }
  }

  lemma TaggedWithout(a: seq<Frame>, b: seq<Frame>, gone: nat, a': seq<Frame>, b': seq<Frame>, socks: seq<Conn>)
    requires Tagged(a, socks) && Tagged(b, socks) && Without(a + b, gone, a' + b')
    ensures Tagged(a', socks) && Tagged(b', socks)
  {
    TaggedPipe(a + b, gone, a' + b', socks);
    TaggedParts(a', b', socks);
  }

  lemma WithoutIsFewer(p: seq<Frame>, gone: nat, p': seq<Frame>)
    requires Without(p, gone, p')
    ensures forall i | 0 <= i < |p'| :: p'[i] in p
  {
  }

  lemma TaggedPipe(p: seq<Frame>, gone: nat, p': seq<Frame>, socks: seq<Conn>)
    requires Tagged(p, socks) && Without(p, gone, p')
    ensures Tagged(p', socks)
  {
    hide Without;
    WithoutIsFewer(p, gone, p');
    forall i | 0 <= i < |p'| ensures p'[i].tag < |socks| && p'[i].id == socks[p'[i].tag].id {
      assert p'[i] in p;
    }
  }

  lemma TaggedParts(a: seq<Frame>, b: seq<Frame>, socks: seq<Conn>)
    requires Tagged(a + b, socks)
    ensures Tagged(a, socks) && Tagged(b, socks)
  {
    forall i | 0 <= i < |a| ensures (a + b)[i] == a[i] {}
    forall i | 0 <= i < |b| ensures (a + b)[|a| + i] == b[i] {}
  }

  lemma TaggedSame(p: seq<Frame>, a: seq<Conn>, b: seq<Conn>)
    requires |a| == |b| && forall k | 0 <= k < |a| :: a[k].id == b[k].id
    ensures Tagged(p, a) <==> Tagged(p, b)
  {
  }

  lemma BaseAccept(s: State)
    requires Base(s) && s.acc.Waiting?
    ensures Base(Next(s, Accept))
  {
    hide FirstRound, CyclicallyFirst, Scan;
    AcceptFirstRound(s);
    AllocatedIsFree(s.home.conns.Keys, s.next);
    var (id, cursor) := Alloc(s.home.conns.Keys, s.next);
    if id.Some? {
      EndpointGrows(s.home, id.value);
      EndpointGrows(s.gate, id.value);
      assert OpensOk(Next(s, Accept));
    }
  }

  lemma AllocatedIsFree(used: set<ConnId>, next: ConnId)
    ensures Alloc(used, next).0.Some? ==> Alloc(used, next).0.value !in used
  {
    AllocIsCyclicFirstFit(used, next);
  }

  lemma AcceptFirstRound(s: State)
    requires FirstRound(s) && EntriesOk(s.home) && s.acc.Waiting?
    ensures FirstRound(Next(s, Accept))
  {
    if s.next !in s.home.conns {
      FreeIsTaken(s.home.conns.Keys, s.next);
    }
  }

  lemma FreeIsTaken(used: set<ConnId>, next: ConnId)
    requires next !in used
    ensures Alloc(used, next) == (Some(next), Succ(next))
  {
  }

  lemma EndpointGrows(e: Endpoint, id: ConnId)
    requires EndpointOk(e)
    ensures EndpointOk(e.(socks := e.socks + [NewConn(id)]))
  {
  }

  lemma BaseSendOpen(s: State)
    requires Base(s) && Enabled(s, SendOpen)
    ensures Base(Next(s, SendOpen))
  {
    hide EndpointOk, OpensOk, FirstRound, Tagged;
    var k := |s.home.socks| - 1;
    SendOpenOpens(s, Frame(s.home.socks[k].id, k, Open));
    EndpointQueues(s.home, Frame(s.home.socks[k].id, k, Open));
    SendOpenRound(s);
  }

  lemma SendOpenOpens(s: State, f: Frame)
    requires SameIds(s) && OpensOk(s) && AcceptorOk(s) && s.acc.Opening?
    requires f.msg.Open? && f.tag == |s.home.socks| - 1
    ensures OpensOk(s.(home := s.home.(out := s.home.out + [f]), acc := Inserting))
  {
    assert s.hg + (s.home.out + [f]) == (s.hg + s.home.out) + [f];
    OpensAppend(s.hg + s.home.out, f, SentCount(s), s.gate.socks);
  }

  lemma SendOpenRound(s: State)
    requires FirstRound(s) && Enabled(s, SendOpen)
    ensures FirstRound(Next(s, SendOpen))
  {
  }

  lemma EndpointQueues(e: Endpoint, f: Frame)
    requires EndpointOk(e) && |e.out| < OUT_QUEUE && f.tag < |e.socks| && f.id == e.socks[f.tag].id
    ensures EndpointOk(e.(out := e.out + [f]))
  {
  }

  lemma BaseInsert(s: State)
    requires Base(s) && s.acc.Inserting? && s.home.socks != []
    ensures Base(s.(home := Spawn(s.home, |s.home.socks| - 1), acc := Waiting))
  {
    EndpointSpawns(s.home, |s.home.socks| - 1);
    InsertAcceptor(s);
    InsertTags(s);
  }

  lemma InsertAcceptor(s: State)
    requires SameIds(s) && AcceptorOk(s) && OpensOk(s) && s.acc.Inserting? && s.home.socks != []
    ensures var s' := s.(home := Spawn(s.home, |s.home.socks| - 1), acc := Waiting);
      SameIds(s') && AcceptorOk(s') && OpensOk(s')
  {
  }

  lemma InsertTags(s: State)
    requires SameIds(s) && FirstRound(s) && s.acc.Inserting? && s.home.socks != []
    requires Tagged(s.hg, s.home.socks) && Tagged(s.gh, s.home.socks)
    ensures var s' := s.(home := Spawn(s.home, |s.home.socks| - 1), acc := Waiting);
      FirstRound(s') && Tagged(s.hg, s'.home.socks) && Tagged(s.gh, s'.home.socks)
  {
  }

  lemma EndpointSpawns(e: Endpoint, k: nat)
    requires EndpointOk(e) && k < |e.socks| && e.socks[k].wr.Absent? && !e.socks[k].rd.Dialing?
    ensures EndpointOk(Spawn(e, k))
  {
  }

  lemma BaseTakeHome(s: State)
    requires Base(s) && s.gh != [] && CanTake(s.home, s.gh[0])
    ensures Base(s.(home := DoTake(s.home, s.gh[0], false), gh := s.gh[1..]))
  {
    var f := s.gh[0];
    var s1 := s.(gh := s.gh[1..]);
    assert (s.gh + s.gate.out)[0] == f;
    PipeHead(s.gh, s.gate.out);
    BasePipeGate(s, s.gate.out, s.gate.up, s.gh[1..], s.lostGH, 0);
    EndpointTake(s.home, f, false);
    BaseLocal(s1, Home, DoTake(s.home, f, false));
  }

  lemma PipeHead(w: seq<Frame>, out: seq<Frame>)
    requires w != []
    ensures Without(w + out, 0, w[1..] + out)
  {
  }

  lemma BaseTakeGate(s: State)
    requires Base(s) && s.hg != [] && CanTake(s.gate, s.hg[0])
    ensures Base(s.(gate := DoTake(s.gate, s.hg[0], true), hg := s.hg[1..]))
  {
    var f := s.hg[0];
    var s1 := s.(hg := s.hg[1..]);
    assert (s.hg + s.home.out)[0] == f;
    PipeHead(s.hg, s.home.out);
    BasePipeHome(s, s.home.out, s.home.up, s.hg[1..], s.lostHG, 0);
    TaggedSame([f], s.home.socks, s.gate.socks);
    EndpointTake(s.gate, f, true);
    if f.msg.Open? {
      BaseDials(s, f);
    } else {
      BaseLocal(s1, Gate, DoTake(s.gate, f, true));
    }
  }

  /** The gate starts to dial: the other OPEN frames under way are for other incarnations. */
  lemma BaseDials(s: State, f: Frame)
    requires Base(s) && s.hg != [] && f == s.hg[0] && f.msg.Open? && CanTake(s.gate, f)
    requires Base(s.(hg := s.hg[1..]))
    requires EndpointOk(DoTake(s.gate, f, true))
    ensures Base(s.(gate := DoTake(s.gate, f, true), hg := s.hg[1..]))
  {
    DialsOpens(s, f);
    DialsAcceptor(s, f);
  }

  lemma DialsOpens(s: State, f: Frame)
    requires SameIds(s) && OpensOk(s) && s.hg != [] && f == s.hg[0] && f.msg.Open? && CanTake(s.gate, f)
    ensures SameIds(s.(gate := DoTake(s.gate, f, true), hg := s.hg[1..]))
    ensures OpensOk(s.(gate := DoTake(s.gate, f, true), hg := s.hg[1..]))
  {
    var p, p1 := s.hg + s.home.out, s.hg[1..] + s.home.out;
    assert p[0] == f;
    forall i | 0 <= i < |p1|
      ensures p1[i] == p[i + 1]
    {
    }
  }

  lemma DialsAcceptor(s: State, f: Frame)
    requires SameIds(s) && OpensOk(s) && AcceptorOk(s) && FirstRound(s)
    requires s.hg != [] && f == s.hg[0] && f.msg.Open? && CanTake(s.gate, f)
    ensures SameIds(s.(gate := DoTake(s.gate, f, true), hg := s.hg[1..]))
    ensures AcceptorOk(s.(gate := DoTake(s.gate, f, true), hg := s.hg[1..]))
    ensures FirstRound(s.(gate := DoTake(s.gate, f, true), hg := s.hg[1..]))
  {
    assert (s.hg + s.home.out)[0] == f;
  }

  lemma LocalReader(s: State, a: Action)
    requires Enabled(s, a) && ByReader(a) && EndpointOk(s.Ep(a.side))
    ensures LocalStep(a.side, s.Ep(a.side), Next(s, a).Ep(a.side))
  {
    hide EndpointOk, LocalStep;
    var e := s.Ep(a.side);
    match a
    case Read(side, k, chunk) => EndpointRead(side, e, k, chunk);
    case SendData(side, k) => EndpointSendData(side, e, k);
    case Eof(side, k) => EndpointEof(side, e, k);
    case SendClose(side, k) => EndpointSendClose(side, e, k);
  }

  lemma LocalWriter(s: State, a: Action)
    requires Enabled(s, a) && ByWriter(a) && EndpointOk(s.Ep(a.side))
    ensures LocalStep(a.side, s.Ep(a.side), Next(s, a).Ep(a.side))
  {
    hide EndpointOk, LocalStep;
    var e := s.Ep(a.side);
    match a
    case Write(side, k) => EndpointWrite(side, e, k);
    case WriteErr(side, k) => EndpointWriteErr(side, e, k);
    case Shut(side, k) => EndpointShut(side, e, k);
    case Starve(side, k) => EndpointStarve(side, e, k);
    case Remove(side, k) => EndpointRemove(side, e, k);
  }

  lemma LocalSession(s: State, a: Action)
    requires Enabled(s, a) && BySession(a) && EndpointOk(s.Ep(a.side))
    ensures LocalStep(a.side, s.Ep(a.side), Next(s, a).Ep(a.side))
  {
    hide EndpointOk, LocalStep;
    var e := s.Ep(a.side);
    match a
    case Enqueue(side) => EndpointEnqueue(side, e);
    case Orphan(side) => EndpointOrphan(side, e);
    case EmitOut(side) => EndpointEmit(side, e);
  }

  /** A step of one endpoint's own tasks. */
  lemma BaseTasks(s: State, a: Action)
    requires Base(s) && Enabled(s, a) && (ByReader(a) || ByWriter(a) || BySession(a))
    ensures Base(Next(s, a))
  {
    hide Enabled, Next, EndpointOk, LocalStep, SameIds, AcceptorOk, OpensOk, FirstRound, Tagged;
    if ByReader(a) {
      LocalReader(s, a);
    } else if ByWriter(a) {
      LocalWriter(s, a);
    } else {
      LocalSession(s, a);
    }
    OneTouches(s, a);
    BaseLocal(s, a.side, Next(s, a).Ep(a.side));
  }

  lemma BaseDialEnd(s: State, a: Action)
    requires Base(s) && Enabled(s, a) && (a.DialOk? || a.DialErr?)
    ensures Base(Next(s, a))
  {
    hide EndpointOk, LocalStep, SameIds, AcceptorOk, OpensOk, FirstRound, Tagged;
    EndpointDialOk(s.gate);
    EndpointDialErr(s.gate);
    BaseLocal(s, Gate, Next(s, a).gate);
  }

  lemma BaseUpDown(s: State, a: Action)
    requires Base(s) && Enabled(s, a) && (a.Disconnect? || a.Reconnect?)
    ensures Base(Next(s, a))
  {
    hide EndpointOk, SameIds, AcceptorOk, OpensOk, FirstRound, Tagged, LocalStep;
    LocalUpDown(a.side, s.Ep(a.side), a.Reconnect?);
    BaseLocal(s, a.side, Next(s, a).Ep(a.side));
  }

  lemma LocalUpDown(side: Side, e: Endpoint, up: bool)
    requires EndpointOk(e) && (up || e.sess.Ready?)
    ensures LocalStep(side, e, e.(up := up))
  {
  }

  lemma BaseDrain(s: State, a: Action)
    requires Base(s) && Enabled(s, a) && (a.Drain? || a.SendFail?)
    ensures Base(Next(s, a))
  {
    var s', w, e := Next(s, a), s.Wire(a.side), s.Ep(a.side);
    var gone := if a.SendFail? then |w| else |w + e.out|;
    LinkPipe(w, e.out, gone);
    if a.side.Home? {
      BasePipeHome(s, e.out[1..], s'.home.up, s'.hg, s'.lostHG, gone);
    } else {
      BasePipeGate(s, e.out[1..], s'.gate.up, s'.gh, s'.lostGH, gone);
    }
  }

  lemma BaseLose(s: State, a: Action)
    requires Base(s) && Enabled(s, a) && a.Lose?
    ensures Base(Next(s, a))
  {
    var s', w, e := Next(s, a), s.Wire(a.side), s.Ep(a.side);
    LinkPipe(w, e.out, a.at);
    if a.side.Home? {
      BasePipeHome(s, e.out, e.up, s'.hg, s'.lostHG, a.at);
    } else {
      BasePipeGate(s, e.out, e.up, s'.gh, s'.lostGH, a.at);
    }
  }

  /** Draining keeps a pipe; a failed send or a loss on the way takes out one frame. */
  lemma LinkPipe(w: seq<Frame>, out: seq<Frame>, at: nat)
    ensures out != [] ==> w + [out[0]] + out[1..] == w + out
    ensures out != [] ==> Without(w + out, |w|, w + out[1..])
    ensures at < |w| ==> Without(w + out, at, w[..at] + w[at + 1..] + out)
  {
  }

  lemma BaseAcceptor(s: State, a: Action)
    requires Base(s) && Enabled(s, a) && (a.Accept? || a.SendOpen? || a.Insert?)
    ensures Base(Next(s, a))
  {
    hide Base, Alloc;
    match a
    case Accept => BaseAccept(s);
    case SendOpen => BaseSendOpen(s);
    case Insert => BaseInsert(s);
  }

  lemma BaseTake(s: State, a: Action)
    requires Base(s) && Enabled(s, a) && a.Take?
    ensures Base(Next(s, a))
  {
    hide Base;
    if a.side.Home? {
      BaseTakeHome(s);
    } else {
      BaseTakeGate(s);
    }
  }

  lemma BaseStep(s: State, a: Action)
    requires Base(s) && Enabled(s, a)
    ensures Base(Next(s, a))
  {
    hide Base, Enabled, Next;
    if a.Accept? || a.SendOpen? || a.Insert? {
      BaseAcceptor(s, a);
    } else if a.Take? {
      BaseTake(s, a);
    } else if a.DialOk? || a.DialErr? {
      BaseDialEnd(s, a);
    } else if a.Disconnect? || a.Reconnect? {
      BaseUpDown(s, a);
    } else if a.Drain? || a.SendFail? {
      BaseDrain(s, a);
    } else if a.Lose? {
      BaseLose(s, a);
    } else {
      BaseTasks(s, a);
    }
  }
}
