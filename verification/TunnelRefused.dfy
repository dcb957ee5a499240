/**
 A dial that fails while the gate still has an entry for the id: a run that keeps every other condition of `FairHG`,
 and in which bytes of the service go to the wrong client. The refused connection's chunk is routed to the writer of
 the earlier one, which is gone when the chunk is to be queued; the gate answers with a second CLOSE, which arrives
 when the id has been opened once more.
 */
module TunnelRefused {
  import opened Common
  import opened Allocator
  import opened TunnelModel
  import opened TunnelOrder
  import opened TunnelTheorems
  import opened TunnelReuse
  import opened TunnelNeeded

  /** Every id but 0 is in use at home, nothing is under way to the gate, and home is idle. */
  ghost predicate ZeroIsNext(s: State) {
    && NoneLost(s) && s.acc.Waiting? && s.next == 1 && |s.home.socks| == |s.gate.socks|
    && Idle(s.home) && Idle(s.gate) && s.hg == []
    && forall x: ConnId :: x in s.home.conns <==> x != 0
  }

  /** The home readers on id 0 have ended, apart from that of connection k. */
  ghost predicate EndedBut(s: State, k: nat) {
    forall j | 0 <= j < |s.home.socks| && j != k && s.home.socks[j].id == 0 :: s.home.socks[j].rd.Done?
  }

  lemma ZeroIsFree(s: State)
    requires ZeroIsNext(s)
    ensures Alloc(s.home.conns.Keys, s.next).0 == Some(0)
  {
    AllocIsCyclicFirstFit(s.home.conns.Keys, s.next);
    assert 0 !in s.home.conns;
  }

  /** Connection 0 keeps its entry at the gate, which could not dial for connection 256. */
  ghost predicate RefusedLate(s: State) {
    && ZeroIsNext(s) && s.gh == [] && |s.home.socks| == ID_COUNT + 1 && EndedBut(s, ID_COUNT)
    && s.home.socks[ID_COUNT].rd.Reading? && s.home.socks[ID_COUNT].id == 0
    && s.gate.socks[0] == FreshConn(0).(rd := Done, queue := [Frame(0, 0, Close)])
    && s.gate.socks[ID_COUNT].rd.Refused? && 0 in s.gate.conns && s.gate.conns[0] == 0
  }

  /** The gate has failed to dial for OPEN frame o, and its answer is under way. */
  function RefusedAt(s: State, o: Frame): State
    requires o.tag < |s.gate.socks|
  {
    s.(gate := s.gate.(socks := s.gate.socks[o.tag := NewConn(o.id).(rd := Refused)]), hg := [],
       gh := [Frame(o.id, o.tag, Close)])
  }

  lemma FailsToDial(r: Rules, s: State, o: Frame)
    requires r.ButRefusals? && Tidy(r, s) && s.hg == [o] && o.msg.Open? && CanTake(s.gate, o)
    requires s.gate.socks[o.tag] == NewConn(o.id) && s.gate.out == [] && s.gh == []
    ensures Reaches(r, s, RefusedAt(s, o))
  {
    hide Reaches, Next;
    var f := Frame(o.id, o.tag, Close);
    var s1 := s.(gate := DialingFor(s.gate, o), hg := []);
    Stay(r, s);
    TakesOpen(s, o);
    ThenAlso(r, s, s, Take(Gate));
    var s2 := s.(gate := s.gate.(sess := Emit(f), socks := RefusedAt(s, o).gate.socks), hg := []);
    GivesUp(s, o);
    ThenAlso(r, s, s1, DialErr);
    EmitsAnswer(r, s2, f);
    Join(r, s, s2, RefusedAt(s, o));
  }

  lemma GivesUp(s: State, o: Frame)
    requires o.tag < |s.gate.socks|
    ensures var t := s.(gate := DialingFor(s.gate, o), hg := []);
      && Enabled(t, DialErr)
      && Next(t, DialErr) ==
         s.(gate := s.gate.(sess := Emit(Frame(o.id, o.tag, Close)), socks := RefusedAt(s, o).gate.socks), hg := [])
  {
    var t := s.(gate := DialingFor(s.gate, o), hg := []);
    assert Next(t, DialErr).gate.socks == RefusedAt(s, o).gate.socks;
  }

  /** The session loop of the gate queues a CLOSE, which goes onto the wire. */
  lemma EmitsAnswer(r: Rules, s: State, f: Frame)
    requires Tidy(r, s) && s.gate.sess == Emit(f) && s.gate.out == [] && s.gate.up && s.gh == []
    ensures Reaches(r, s, s.(gate := s.gate.(sess := Ready), gh := [f]))
  {
    hide Reaches, Tidy;
    var s1 := s.(gate := s.gate.(sess := Ready, out := [f]));
    Stay(r, s);
    Then(r, s, s, EmitOut(Gate));
    assert [] + [f] == [f] && Next(s, EmitOut(Gate)) == s1;
    DrainOne(r, s1, Gate, f);
    Join(r, s, s1, s.(gate := s.gate.(sess := Ready), gh := [f]));
  }

  /** Connection 256 is accepted on id 0 and refused, and its home reader runs on. */
  lemma RefuseLate(r: Rules, s: State) returns (t: State)
    requires r.ButRefusals? && Tidy(r, s) && Laid(s, ID_COUNT) && NoneLost(s) && s.home.socks[0].rd.Done?
    requires s.gate.socks[0] == FreshConn(0).(rd := Done, queue := [Frame(0, 0, Close)])
    requires 0 in s.gate.conns && s.gate.conns[0] == 0
    ensures Reaches(r, s, t) && RefusedLate(t)
  {
    hide Reaches, Alloc;
    RoundIsFree(s);
    OpenHome(r, s, 0);
    var h, o, f := HalfOpened(s, 0), Frame(0, ID_COUNT, Open), Frame(0, ID_COUNT, Close);
    DrainOne(r, h, Home, o);
    var s1 := h.(home := h.home.(out := []), hg := [o]);
    assert h.hg + [o] == [o];
    Join(r, s, h, s1);
    FailsToDial(r, s1, o);
    Join(r, s, s1, RefusedAt(s1, o));
    StopWriter(r, RefusedAt(s1, o), Home, f, ID_COUNT);
    t := s1.(home := StoppedAt(s1.home, ID_COUNT, f), gate := RefusedAt(s1, o).gate, hg := [], gh := []);
    Join(r, s, RefusedAt(s1, o), t);
  }

  /** A second CLOSE for connection 256 is under way to home; every home reader on id 0 has ended. */
  ghost predicate AnsweredTwice(s: State) {
    && ZeroIsNext(s) && s.gh == [Frame(0, ID_COUNT, Close)] && |s.home.socks| == ID_COUNT + 1
    && EndedBut(s, ID_COUNT + 1) && 0 !in s.gate.conns
  }

  /** The gate holds a chunk of connection 256 for the writer of connection 0, which stops. */
  lemma HoldsForGone(r: Rules, s: State) returns (t: State, g: Frame)
    requires r.ButRefusals? && Tidy(r, s) && RefusedLate(s)
    ensures Reaches(r, s, t) && Tidy(r, t) && ID_COUNT < |t.home.socks|
    ensures t.home.socks[ID_COUNT].rd.Reading? && t.home.socks[ID_COUNT].id == 0
    ensures ID_COUNT < |s.home.socks| && t.home.socks == s.home.socks[ID_COUNT := t.home.socks[ID_COUNT]]
    ensures t == s.(home := s.home.(socks := t.home.socks, tx := t.home.tx), gate := t.gate)
    ensures g.id == 0 && g.tag == ID_COUNT && g.msg.Data?
    ensures s.gate.socks != []
    ensures var e := s.gate.(sess := Deliver(0, g), socks := s.gate.socks[0 := FreshConn(0).(rd := Done)]);
      t.gate == StoppedAt(e, 0, Frame(0, 0, Close))
  {
    hide Reaches;
    var n, f, c := ID_COUNT, Frame(0, 0, Close), s.home.socks[ID_COUNT];
    SendChunk(r, s, Home, n, [7]);
    g := NextData(c, n, [7]);
    var s1 := OnWire(s, Home, n, c.(got := c.got + [[7]]), s.home.tx + 1, g);
    assert s1.hg == [g];
    TakesToQueue(s1, Gate, g, 0);
    Then(r, s, s1, Take(Gate));
    var s2 := TakenUp(s1, Gate, g, 0);
    StopQueued(r, s2, Gate, f, 0);
    t := s2.(gate := StoppedAt(s2.gate.(socks := s2.gate.socks[0 := s2.gate.socks[0].(queue := [])]), 0, f));
    Join(r, s, s2, t);
  }

  lemma AnswerTwice(r: Rules, s: State) returns (t: State)
    requires r.ButRefusals? && Tidy(r, s) && RefusedLate(s)
    ensures Reaches(r, s, t) && AnsweredTwice(t)
  {
    hide Reaches;
    var n, f := ID_COUNT, Frame(0, ID_COUNT, Close);
    var s1, g := HoldsForGone(r, s);
    var s2 := s1.(gate := s1.gate.(sess := Emit(f), spilt := s1.gate.spilt + PayloadSize(g)));
    OrphansRefused(r, s1, g);
    Join(r, s, s1, s2);
    EmitsAnswer(r, s2, f);
    var s3 := s2.(gate := s2.gate.(sess := Ready), gh := [f]);
    Join(r, s, s2, s3);
    t := EndsUnnoticed(r, s3, n);
    Join(r, s, s3, t);
  }

  lemma OrphansRefused(r: Rules, s: State, g: Frame)
    requires r.ButRefusals? && Tidy(r, s) && s.gate.sess == Deliver(0, g) && s.gate.socks != []
    requires s.gate.socks[0].wr.Gone? && 0 !in s.gate.conns && g.id == 0 && g.msg.Data?
    requires g.tag < |s.gate.socks| && s.gate.socks[g.tag].rd.Refused?
    ensures var f := Frame(0, g.tag, Close);
      Reaches(r, s, s.(gate := s.gate.(sess := Emit(f), spilt := s.gate.spilt + PayloadSize(g))))
  {
    hide Reaches;
    assert s.gate.conns - {0 as ConnId} == s.gate.conns;
    assert s.gate.socks[g.tag := s.gate.socks[g.tag]] == s.gate.socks;
    Go(r, s, Orphan(Gate));
  }

  /** The home reader of connection k ends, and its CLOSE finds no entry. */
  lemma EndsUnnoticed(r: Rules, s: State, k: nat) returns (t: State)
    requires r.ButRefusals? && Tidy(r, s) && ZeroIsNext(s) && 0 !in s.gate.conns && EndedBut(s, k)
    requires k < |s.home.socks| && s.home.socks[k].rd.Reading? && s.home.socks[k].id == 0
    ensures Reaches(r, s, t) && ZeroIsNext(t) && EndedBut(t, |t.home.socks|) && 0 !in t.gate.conns
    ensures t.gh == s.gh && |t.home.socks| == |s.home.socks|
  {
    hide Reaches;
    var c, f := s.home.socks[k], Frame(0, k, Close);
    SendEnd(r, s, Home, k);
    var s1 := OnWire(s, Home, k, c.(rd := Done), s.home.tx, f);
    assert s1.hg == [f] && [f][1..] == [];
    Then(r, s, s1, Take(Gate));
    t := s1.(gate := s1.gate.(missed := s1.gate.missed + [f]), hg := []);
    assert Next(s1, Take(Gate)) == t;
  }

  /** Connection 257 has lost its entry at home, and only then is opened by the gate. */
  ghost predicate CutOff(s: State) {
    && ZeroIsNext(s) && s.gh == [] && |s.home.socks| == ID_COUNT + 2 && EndedBut(s, ID_COUNT + 1)
    && s.home.socks[ID_COUNT + 1].rd.Reading? && s.home.socks[ID_COUNT + 1].id == 0
    && s.gate.socks[ID_COUNT + 1] == FreshConn(0) && 0 in s.gate.conns && s.gate.conns[0] == ID_COUNT + 1
  }

  lemma CutsOff(r: Rules, s: State) returns (t: State)
    requires r.ButRefusals? && Tidy(r, s) && AnsweredTwice(s)
    ensures Reaches(r, s, t) && CutOff(t)
  {
    hide Reaches, Alloc;
    var n, f := ID_COUNT + 1, Frame(0, ID_COUNT, Close);
    ZeroIsFree(s);
    OpenHome(r, s, 0);
    var h, o := HalfOpened(s, 0), Frame(0, n, Open);
    StopWriter(r, h, Home, f, n);
    var s1 := h.(home := StoppedAt(h.home, n, f), gh := []);
    Join(r, s, h, s1);
    DrainOne(r, s1, Home, o);
    var s2 := s1.(home := s1.home.(out := []), hg := [o]);
    assert s1.hg + [o] == [o];
    Join(r, s, s1, s2);
    DialGate(r, s2, o);
    var e := s2.gate;
    t := s2.(gate := e.(conns := e.conns[0 := n], socks := e.socks[n := FreshConn(0)]), hg := []);
    Join(r, s, s2, t);
  }

  /** Frames of gate reader 257 are routed to connection 258 of home. */
  ghost predicate Crossed(s: State) {
    && NoneLost(s) && Idle(s.gate) && s.gh == [] && s.home.up && s.home.sess.Ready? && |s.home.socks| == |s.gate.socks|
    && RoutedTo(s, Gate, ID_COUNT + 1, ID_COUNT + 2)
  }

  /** Id 0 is opened at home for connection 258, while the gate reader of connection 257 still uses it. */
  lemma OpensOver(r: Rules, s: State) returns (t: State)
    requires r.ButRefusals? && Tidy(r, s) && CutOff(s)
    ensures Reaches(r, s, t) && Tidy(r, t) && Crossed(t)
  {
    hide Reaches, Alloc;
    var n := ID_COUNT + 1;
    var c, f := s.home.socks[n], Frame(0, n, Close);
    SendEnd(r, s, Home, n);
    var s1 := OnWire(s, Home, n, c.(rd := Done), s.home.tx, f);
    assert s1.hg == [f];
    QueueFrame(r, s1, Gate, f, n);
    var s2 := Queued(s1, Gate, f, n);
    Join(r, s, s1, s2);
    ZeroIsFree(s2);
    OpenHome(r, s2, 0);
    t := HalfOpened(s2, 0);
    Join(r, s, s2, t);
  }

  /**
   Without the condition that the gate has no entry for the id when a dial fails, in a run that loses nothing: home
   writes bytes that the service sent on connection 257 into the client's socket of connection 258.
   */
  lemma RefusedWithEntryMixes()
    ensures exists acts ::
      && Legal(ButRefusals, Init(), acts)
      && var s := After(ButRefusals, Init(), acts);
      && NoneLost(s) && ID_COUNT + 2 < |s.home.socks| && Stray(s.home.socks[ID_COUNT + 2], ID_COUNT + 1)
  {
    hide Legal;
    var r := ButRefusals;
    var s := OpensTwice(r);
    var t := CarryBack(r, s);
    Join(r, Init(), s, t);
    var acts :| Legal(r, Init(), acts) && After(r, Init(), acts) == t;
  }

  lemma OpensTwice(r: Rules) returns (t: State)
    requires r.ButRefusals?
    ensures Reaches(r, Init(), t) && Tidy(r, t) && Crossed(t)
  {
    hide Reaches;
    var s0 := CloseWaits(r);
    var s1 := LayRest(r, s0, 1);
    Join(r, Init(), s0, s1);
    var s2 := RefuseLate(r, s1);
    Join(r, Init(), s1, s2);
    var s3 := AnswerTwice(r, s2);
    Join(r, Init(), s2, s3);
    var s4 := CutsOff(r, s3);
    Join(r, Init(), s3, s4);
    t := OpensOver(r, s4);
    Join(r, Init(), s4, t);
  }

  /** A chunk of gate reader 257 ends up in the home socket of connection 258. */
  lemma CarryBack(r: Rules, s: State) returns (t: State)
    requires Tidy(r, s) && Crossed(s)
    ensures Reaches(r, s, t) && NoneLost(t) && ID_COUNT + 2 < |t.home.socks|
    ensures Stray(t.home.socks[ID_COUNT + 2], ID_COUNT + 1)
  {
    hide Reaches;
    var k, q := ID_COUNT + 1, s.gate.socks[ID_COUNT + 1];
    SendChunk(r, s, Gate, k, [7]);
    var f := NextData(q, k, [7]);
    var s1 := OnWire(s, Gate, k, q.(got := q.got + [[7]]), s.gate.tx + 1, f);
    assert s1.gh == [f];
    t := WriteChunk(r, s1, Home, f, k + 1);
    Join(r, s, s1, t);
  }
}
