/**
 Why ids must be reused with care: for each condition of `FairHG` on reuse, a run that keeps all the others and goes
 wrong. All three accept 257 connections, the last one on the id of the first. TunnelRefused has a fourth, for dials
 that fail.
 */
module TunnelNeeded {
  import opened Common
  import opened Allocator
  import opened TunnelModel
  import opened TunnelTrack
  import opened TunnelOrder
  import opened TunnelGentle
  import opened TunnelTheorems
  import opened TunnelReuse

  // ---------------------------------------------------------------- readers that end only before OPEN is handled

  /** The gate cannot dial connection 0: home frees its id, while the home reader of connection 0 runs on. */
  function Refused0(): State {
    var f := Frame(0, 0, Close);
    var s := HalfOpened(Start(), 0);
    s.(home := StoppedAt(s.home.(out := []), 0, f),
       gate := s.gate.(socks := [NewConn(0).(rd := Refused)]))
  }

  lemma RefuseFirst(r: Rules)
    requires Usable(r)
    ensures Reaches(r, Init(), Refused0()) && Tidy(r, Refused0()) && Laid(Refused0(), 1)
    ensures Refused0().home.socks[0].rd.Reading? && 0 !in Refused0().gate.conns
  {
    hide Reaches, Alloc;
    Connects(r);
    FirstIsFree();
    OpenHome(r, Start(), 0);
    var h, f := HalfOpened(Start(), 0), Frame(0, 0, Open);
    Join(r, Init(), Start(), h);
    DrainOne(r, h, Home, f);
    var s1 := h.(home := h.home.(out := []), hg := [f]);
    assert h.hg + [f] == [f];
    Join(r, Init(), h, s1);
    RefuseDial(r, s1);
    Join(r, Init(), s1, Refused0());
  }

  lemma RefuseDial(r: Rules, s: State)
    requires Usable(r)
    requires var h := HalfOpened(Start(), 0); s == h.(home := h.home.(out := []), hg := [Frame(0, 0, Open)])
    ensures Reaches(r, s, Refused0())
  {
    hide Reaches;
    var f := Frame(0, 0, Close);
    Stay(r, s);
    assert s.gate.socks == [NewConn(0)];
    TakesOpen(s, Frame(0, 0, Open));
    ThenAlso(r, s, s, Take(Gate));
    assert s.gate.socks[0 := NewConn(0).(rd := Dialing)] == [NewConn(0).(rd := Dialing)];
    var s1 := s.(gate := s.gate.(sess := Dial(0, 0), socks := [NewConn(0).(rd := Dialing)]), hg := []);
    var s2 := s.(gate := s.gate.(sess := Emit(f), socks := [NewConn(0).(rd := Refused)]), hg := []);
    DialFails(r, s1, s2);
    Join(r, s, s1, s2);
    RefusalArrives(r, s2);
    Join(r, s, s2, Refused0());
  }

  lemma DialFails(r: Rules, s: State, t: State)
    requires Tidy(r, s) && s.gate.sess == Dial(0, 0) && s.gate.socks == [NewConn(0).(rd := Dialing)]
    requires 0 !in s.gate.conns
    requires t == s.(gate := s.gate.(sess := Emit(Frame(0, 0, Close)), socks := [NewConn(0).(rd := Refused)]))
    ensures Reaches(r, s, t)
  {
    hide Reaches, Tidy;
    Stay(r, s);
    Then(r, s, s, DialErr);
    assert Next(s, DialErr) == t;
  }

  lemma RefusalArrives(r: Rules, s: State)
    requires Usable(r)
    requires var h := HalfOpened(Start(), 0);
      s == h.(home := h.home.(out := []),
              gate := h.gate.(sess := Emit(Frame(0, 0, Close)), socks := [NewConn(0).(rd := Refused)]))
    ensures Reaches(r, s, Refused0())
  {
    hide Reaches;
    var f := Frame(0, 0, Close);
    Stay(r, s);
    Then(r, s, s, EmitOut(Gate));
    var s1 := s.(gate := s.gate.(sess := Ready, out := [f]));
    assert [] + [f] == [f] && Next(s, EmitOut(Gate)) == s1;
    DrainOne(r, s1, Gate, f);
    var s2 := s1.(gate := s1.gate.(out := []), gh := [f]);
    Join(r, s, s1, s2);
    assert s2.home.socks == [FreshConn(0)];
    StopWriter(r, s2, Home, f, 0);
    Join(r, s, s2, Refused0());
  }

  /** Connection 256 is announced on id 0, and only then the home reader of connection 0 sends a chunk and ends. */
  function Late(s: State, c: Conn, f: Frame, g: Frame): State
    requires s.home.socks != []
  {
    var h := HalfOpened(s, 0);
    h.(home := h.home.(socks := h.home.socks[0 := c], out := [Frame(0, ID_COUNT, Open), f, g], tx := h.home.tx + 1))
  }

  lemma ReadsLate(r: Rules, s: State) returns (c: Conn, f: Frame, g: Frame)
    requires r.WhenHandled? && Tidy(r, s) && Laid(s, ID_COUNT) && s.home.socks[0].rd.Reading?
    ensures c.rd.Done? && c.id == 0 && f.id == 0 && f.tag == 0 && f.msg.Data? && f.msg.bytes != []
    ensures Reaches(r, s, Late(s, c, f, g)) && Tidy(r, Late(s, c, f, g))
  {
    hide Reaches, Alloc;
    RoundIsFree(s);
    OpenHome(r, s, 0);
    var h, q := HalfOpened(s, 0), s.home.socks[0];
    c, f, g := q.(rd := Done, got := q.got + [[7]]), NextData(q, 0, [7]), Frame(0, 0, Close);
    var s1 := h.(home := h.home.(socks := h.home.socks[0 := c.(rd := Reading)],
                                 out := h.home.out + [f], tx := h.home.tx + 1));
    ReadsOne(r, h, q, f);
    Join(r, s, h, s1);
    EndsOne(r, s1, c.(rd := Reading));
    assert s1.home.out + [g] == [Frame(0, ID_COUNT, Open), f, g];
    assert s1.home.socks[0 := c] == h.home.socks[0 := c];
    Join(r, s, s1, Late(s, c, f, g));
  }

  lemma ReadsOne(r: Rules, s: State, q: Conn, f: Frame)
    requires r.WhenHandled? && Tidy(r, s) && s.home.socks != [] && s.home.socks[0] == q && q.rd.Reading?
    requires |s.home.out| < OUT_QUEUE && f == NextData(q, 0, [7])
    ensures var e := s.home;
      Reaches(r, s, s.(home := e.(socks := e.socks[0 := q.(got := q.got + [[7]])], out := e.out + [f], tx := e.tx + 1)))
  {
    hide Reaches;
    Stay(r, s);
    Then(r, s, s, Read(Home, 0, [7]));
    var s1 := Next(s, Read(Home, 0, [7]));
    Then(r, s, s1, SendData(Home, 0));
    assert Next(s1, SendData(Home, 0)).home.socks == s.home.socks[0 := q.(got := q.got + [[7]])];
  }

  lemma EndsOne(r: Rules, s: State, q: Conn)
    requires r.WhenHandled? && Tidy(r, s) && s.home.socks != [] && s.home.socks[0] == q && q.rd.Reading?
    requires |s.home.out| < OUT_QUEUE
    ensures var e := s.home;
      Reaches(r, s, s.(home := e.(socks := e.socks[0 := q.(rd := Done)], out := e.out + [Frame(q.id, 0, Close)])))
  {
    hide Reaches;
    Stay(r, s);
    Then(r, s, s, Eof(Home, 0));
    var s1 := Next(s, Eof(Home, 0));
    Then(r, s, s1, SendClose(Home, 0));
    assert Next(s1, SendClose(Home, 0)).home.socks == s.home.socks[0 := q.(rd := Done)];
  }

  /** The gate opens connection 256, and is then sent the late chunk. */
  lemma TakesLate(r: Rules, s: State, c: Conn, f: Frame, g: Frame) returns (t: State)
    requires r.WhenHandled? && Laid(s, ID_COUNT) && 0 !in s.gate.conns && c.rd.Done? && c.id == 0
    requires s.lostHG == [] && f.id == 0 && f.tag == 0 && f.msg.Data? && f.msg.bytes != []
    ensures Reaches(r, Late(s, c, f, g), t) && t.lostHG == [] && t.lostGH == s.lostGH
    ensures ID_COUNT < |t.gate.socks| && Stray(t.gate.socks[ID_COUNT], 0)
  {
    hide Reaches;
    var h, o := Late(s, c, f, g), Frame(0, ID_COUNT, Open);
    var s1 := h.(home := h.home.(out := [f, g]), hg := [o]);
    DrainFirst(r, h, o, [f, g]);
    DialGate(r, s1, o);
    var e := s1.gate;
    var s2 := s1.(gate := e.(conns := e.conns[0 := ID_COUNT], socks := e.socks[ID_COUNT := FreshConn(0)]), hg := []);
    Join(r, h, s1, s2);
    var s3 := s2.(home := s2.home.(out := [g]), hg := [f]);
    DrainFirst(r, s2, f, [g]);
    Join(r, h, s2, s3);
    t := WriteChunk(r, s3, Gate, f, ID_COUNT);
    Join(r, h, s3, t);
  }

  lemma DrainFirst(r: Rules, s: State, f: Frame, rest: seq<Frame>)
    requires Tidy(r, s) && s.home.up && s.home.sess.Ready? && s.home.out == [f] + rest && s.hg == []
    ensures Reaches(r, s, s.(home := s.home.(out := rest), hg := [f]))
  {
    hide Reaches;
    Stay(r, s);
    Then(r, s, s, Drain(Home));
    assert [] + [f] == [f];
    assert Next(s, Drain(Home)) == s.(home := s.home.(out := rest), hg := [f]);
  }

  /**
   It is not enough that the earlier home readers on an id have ended when the gate handles its OPEN: without failing
   writes, losses or entries in the way, the gate writes bytes of connection 0 into the socket of connection 256.
   */
  lemma EndedWhenHandledIsTooLate()
    ensures exists acts ::
      && Legal(WhenHandled, Init(), acts)
      && var s := After(WhenHandled, Init(), acts);
      && NoneLost(s) && ID_COUNT < |s.gate.socks| && Stray(s.gate.socks[ID_COUNT], 0)
  {
    hide Legal, Alloc;
    var r := WhenHandled;
    RefuseFirst(r);
    var s := LayRest(r, Refused0(), 1);
    Join(r, Init(), Refused0(), s);
    var c, f, g := ReadsLate(r, s);
    Join(r, Init(), s, Late(s, c, f, g));
    var t := TakesLate(r, s, c, f, g);
    Join(r, Init(), Late(s, c, f, g), t);
    var acts :| Legal(r, Init(), acts) && After(r, Init(), acts) == t;
  }

  // ---------------------------------------------------------------- an entry in the way of OPEN

  /** CLOSE of connection 0 waits in the queue of its gate writer. */
  lemma CloseWaits(r: Rules) returns (t: State)
    requires Usable(r)
    ensures Reaches(r, Init(), t) && Laid(t, 1) && Tidy(r, t) && NoneLost(t)
    ensures t.home.socks[0].rd.Done? && 0 in t.gate.conns && t.gate.conns[0] == 0
    ensures t.gate.socks[0] == FreshConn(0).(rd := Done, queue := [Frame(0, 0, Close)])
  {
    hide Reaches;
    var s := LayFirst(r);
    var f, c := Frame(0, 0, Close), s.home.socks[0];
    SendEnd(r, s, Home, 0);
    var s1 := OnWire(s, Home, 0, c.(rd := Done), s.home.tx, f);
    assert s1.hg == [f];
    Join(r, Init(), s, s1);
    QueueFrame(r, s1, Gate, f, 0);
    t := Queued(s1, Gate, f, 0);
    Join(r, Init(), s1, t);
  }

  /** Connection 256 has taken over the entry that the writer of connection 0 is about to remove. */
  ghost predicate Overtaken(s: State) {
    && Quiet(s) && NoneLost(s) && |s.home.socks| == ID_COUNT + 1
    && s.gate.socks[0] == FreshConn(0).(rd := Done, queue := [Frame(0, 0, Close)])
    && s.home.socks[ID_COUNT] == FreshConn(0) && s.gate.socks[ID_COUNT] == FreshConn(0)
  }

  lemma Overtakes(r: Rules) returns (t: State)
    requires r.ButEntries?
    ensures Reaches(r, Init(), t) && Overtaken(t)
  {
    hide Reaches, Alloc;
    var s := CloseWaits(r);
    var s1 := LayRest(r, s, 1);
    Join(r, Init(), s, s1);
    RoundIsFree(s1);
    OpenOne(r, s1, 0);
    t := Opened(s1, 0);
    Join(r, Init(), s1, t);
  }

  /** The writer of connection 0 removes the entry of connection 256, whose chunk is missed and whose writer starves. */
  lemma EntryIsTaken(r: Rules, s: State) returns (t: State)
    requires r.ButEntries? && Overtaken(s)
    ensures Reaches(r, s, t) && NoneLost(t) && ID_COUNT < |t.home.socks| && ID_COUNT < |t.gate.socks|
    ensures t.gate.socks[ID_COUNT].wr.Exiting? && t.gate.socks[ID_COUNT].log == []
    ensures t.home.socks[ID_COUNT].rd.Reading? && t.home.socks[ID_COUNT].got == [[7]]
  {
    hide Reaches;
    var n, f := ID_COUNT, Frame(0, 0, Close);
    StopQueued(r, s, Gate, f, 0);
    var e := s.gate.(socks := s.gate.socks[0 := s.gate.socks[0].(queue := [])]);
    var s1 := s.(gate := StoppedAt(e, 0, f));
    SendChunk(r, s1, Home, n, [7]);
    var g := NextData(FreshConn(0), n, [7]);
    var s2 := OnWire(s1, Home, n, FreshConn(0).(got := [[7]]), s1.home.tx + 1, g);
    assert [] + [[7 as byte]] == [[7]] && s2.hg == [g];
    Join(r, s, s1, s2);
    t := Starves(r, s2, g);
    Join(r, s, s2, t);
  }

  /** A chunk finds no entry, and its connection's writer no sender. */
  lemma Starves(r: Rules, s: State, g: Frame) returns (t: State)
    requires r.ButEntries? && NoneLost(s) && s.hg == [g]
    requires g.msg.Data? && g.msg.bytes != [] && g.tag < |s.gate.socks|
    requires g.id == 0 && 0 !in s.gate.conns && s.gate.up && s.gate.sess.Ready?
    requires s.gate.socks[g.tag] == FreshConn(0)
    ensures Reaches(r, s, t) && NoneLost(t) && t.home == s.home && |t.gate.socks| == |s.gate.socks|
    ensures t.gate.socks[g.tag].wr.Exiting? && t.gate.socks[g.tag].log == []
  {
    hide Reaches;
    Stay(r, s);
    Then(r, s, s, Take(Gate));
    var s1 := Next(s, Take(Gate));
    Then(r, s, s1, Starve(Gate, g.tag));
    t := Next(s1, Starve(Gate, g.tag));
  }

  /**
   Without the condition that the gate has no entry for the id when it registers the connection, in a run that loses
   nothing: the gate's writer of connection 256 stops and has written nothing, while its home reader reads on and has
   read a chunk.
   */
  lemma EntryInTheWayCutsOff()
    ensures exists acts ::
      && Legal(ButEntries, Init(), acts)
      && var s := After(ButEntries, Init(), acts);
      && NoneLost(s) && ID_COUNT < |s.home.socks| && ID_COUNT < |s.gate.socks|
      && var from, to := s.home.socks[ID_COUNT], s.gate.socks[ID_COUNT];
      && from.rd.Reading? && from.got != [] && Stopped(to) && to.log == []
      && !Delivers(from, to, ID_COUNT) && !DeliversPrefix(from, to)
  {
    hide Legal;
    var r := ButEntries;
    var s := Overtakes(r);
    var t := EntryIsTaken(r, s);
    Join(r, Init(), s, t);
    assert Payloads(t.gate.socks[ID_COUNT].log) == [];
    var acts :| Legal(r, Init(), acts) && After(r, Init(), acts) == t;
  }

  // ---------------------------------------------------------------- CLOSE and a later OPEN lost

  /** A frame alone on the wire is lost at a reconnect of home. */
  lemma LoseOne(r: Rules, s: State, f: Frame)
    requires r.ButLosses? && s.home.up && s.home.sess.Ready? && s.hg == [f]
    ensures Reaches(r, s, s.(hg := [], lostHG := s.lostHG + [f]))
  {
    hide Reaches;
    var s1 := s.(home := s.home.(up := false));
    Stay(r, s);
    Then(r, s, s, Disconnect(Home));
    LosesHead(s1, f);
    ThenAlso(r, s, s1, Lose(Home, 0));
    Reconnects(r, s1.(hg := [], lostHG := s.lostHG + [f]));
    Join(r, s, s1.(hg := [], lostHG := s.lostHG + [f]), s.(hg := [], lostHG := s.lostHG + [f]));
  }

  lemma LosesHead(s: State, f: Frame)
    requires s.hg == [f] && !s.home.up
    ensures Enabled(s, Lose(Home, 0)) && Next(s, Lose(Home, 0)) == s.(hg := [], lostHG := s.lostHG + [f])
  {
    assert [f][..0] + [f][1..] == [];
  }

  lemma Reconnects(r: Rules, s: State)
    requires r.ButLosses? && !s.home.up
    ensures Reaches(r, s, s.(home := s.home.(up := true)))
  {
    hide Reaches;
    Stay(r, s);
    Then(r, s, s, Reconnect(Home));
  }

  /** CLOSE of connection 0 is lost, so that its entry stays at the gate. */
  lemma CloseIsLost(r: Rules) returns (t: State)
    requires r.ButLosses?
    ensures Reaches(r, Init(), t) && Laid(t, 1) && Tidy(r, t)
    ensures t.home.socks[0].rd.Done? && 0 in t.gate.conns && t.gate.conns[0] == 0
    ensures t.gate.socks[0] == FreshConn(0).(rd := Done)
    ensures t.lostHG == [Frame(0, 0, Close)] && t.lostGH == []
  {
    hide Reaches;
    var s := LayFirst(r);
    var f, c := Frame(0, 0, Close), s.home.socks[0];
    SendEnd(r, s, Home, 0);
    var s1 := OnWire(s, Home, 0, c.(rd := Done), s.home.tx, f);
    assert s1.hg == [f];
    Join(r, Init(), s, s1);
    LoseOne(r, s1, f);
    t := s1.(hg := [], lostHG := s1.lostHG + [f]);
    Join(r, Init(), s1, t);
  }

  /** OPEN of connection 256 is lost as well. */
  lemma OpenIsLost(r: Rules, s: State) returns (t: State)
    requires r.ButLosses? && Laid(s, ID_COUNT) && s.home.socks[0].rd.Done? && 0 in s.gate.conns && s.gate.conns[0] == 0
    requires s.gate.socks[0] == FreshConn(0).(rd := Done)
    ensures Reaches(r, s, t) && Tidy(r, t) && Quiet(t) && RoutedTo(t, Home, ID_COUNT, 0)
    ensures t.lostHG == s.lostHG + [Frame(0, ID_COUNT, Open)] && t.lostGH == s.lostGH
  {
    hide Reaches, Alloc;
    RoundIsFree(s);
    OpenHome(r, s, 0);
    var h, o := HalfOpened(s, 0), Frame(0, ID_COUNT, Open);
    DrainOne(r, h, Home, o);
    var s1 := h.(home := h.home.(out := []), hg := [o]);
    assert h.hg + [o] == [o];
    Join(r, s, h, s1);
    LoseOne(r, s1, o);
    t := s1.(hg := [], lostHG := s1.lostHG + [o]);
    Join(r, s, s1, t);
  }

  /**
   Without the condition on losses: if CLOSE of connection 0 and OPEN of connection 256 on the same id are lost, and
   nothing else, the gate writes bytes of connection 256 into the socket of connection 0.
   */
  lemma LosingBothMixes()
    ensures exists acts ::
      && Legal(ButLosses, Init(), acts)
      && var s := After(ButLosses, Init(), acts);
      && s.lostHG == [Frame(0, 0, Close), Frame(0, ID_COUNT, Open)] && s.lostGH == []
      && 0 < |s.gate.socks| && Stray(s.gate.socks[0], ID_COUNT)
  {
    hide Legal;
    var r := ButLosses;
    var s := CloseIsLost(r);
    var s1 := LayRest(r, s, 1);
    Join(r, Init(), s, s1);
    var s2 := OpenIsLost(r, s1);
    Join(r, Init(), s1, s2);
    var t := CarryChunk(r, s2, Home, ID_COUNT, 0);
    Join(r, Init(), s2, t);
    var acts :| Legal(r, Init(), acts) && After(r, Init(), acts) == t;
  }
}
