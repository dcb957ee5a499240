/**
 What reusing an id too early does. Two runs in which no socket write fails and nothing is lost: in the first, bytes
 that a client of one connection sent are written into the service's socket of another; in the second, bytes of the
 service go to the wrong client. Both need 256 connections on ids 0 to 255 first, so that id 0 comes round again while
 the home reader of connection 0 still runs.
 */
module TunnelReuse {
  import opened Common
  import opened Allocator
  import opened TunnelModel
  import opened TunnelFootprint
  import opened TunnelInv
  import opened TunnelOrder
  import opened TunnelGentle
  import opened TunnelTheorems

  ghost predicate Reaches(r: Rules, s: State, t: State) {
    exists acts :: Legal(r, s, acts) && After(r, s, acts) == t
  }

  lemma {:induction false} LegalConcat(r: Rules, s: State, a: seq<Action>, b: seq<Action>)
    requires Legal(r, s, a) && Legal(r, After(r, s, a), b)
    ensures Legal(r, s, a + b) && After(r, s, a + b) == After(r, After(r, s, a), b)
    decreases |a|
  {
    hide Enabled, Allowed, Next;
    if a == [] {
      assert a + b == b;
    } else {
      assert (a + b)[0] == a[0] && (a + b)[1..] == a[1..] + b;
      LegalConcat(r, Next(s, a[0]), a[1..], b);
    }
  }

  lemma Join(r: Rules, s: State, t: State, u: State)
    requires Reaches(r, s, t) && Reaches(r, t, u)
    ensures Reaches(r, s, u)
  {
    var a :| Legal(r, s, a) && After(r, s, a) == t;
    var b :| Legal(r, t, b) && After(r, t, b) == u;
    LegalConcat(r, s, a, b);
  }

  lemma Stay(r: Rules, s: State)
    ensures Reaches(r, s, s)
  {
    assert Legal(r, s, []);
  }

  lemma Go(r: Rules, s: State, a: Action)
    requires Enabled(s, a) && Allowed(r, s, a)
    ensures Reaches(r, s, Next(s, a))
  {
    assert [a][0] == a && [a][1..] == [];
    assert Legal(r, Next(s, a), []) && After(r, Next(s, a), []) == Next(s, a);
    assert Legal(r, s, [a]);
    assert After(r, s, [a]) == After(r, Next(s, a), [a][1..]);
  }

  /** Rules that allow every step other than a failing write and a "writer gone" answer. */
  predicate Lax(r: Rules) {
    r.NoWriteFails? || r.HomeSafe?
  }

  /** The rules of the runs in this module. */
  predicate Usable(r: Rules) {
    Lax(r) || r.FirstRounds? || r.WhenHandled? || Careful(r)
  }

  /** Rules under which an id is announced again only when every earlier home reader on it has ended. */
  predicate Careful(r: Rules) {
    r.ButEntries? || r.ButRefusals? || r.ButLosses?
  }

  /** States in which ordinary steps keep to the rules. */
  ghost predicate Tidy(r: Rules, s: State) {
    && Usable(r)
    && (r.WhenHandled? || r.ButEntries? || r.ButRefusals? ==> s.lostHG == [])
    && (r.FirstRounds? ==> |s.home.socks| <= ID_COUNT)
  }

  /** Steps that concern neither OPEN nor a loss, nor end a dial while the map has an entry for the id. */
  ghost predicate Ordinary(s: State, a: Action)
    requires Enabled(s, a)
  {
    && EntryFree(s, a)
    && !a.WriteErr? && !a.Orphan? && !a.Accept? && !a.SendOpen? && !a.SendFail? && !a.Lose?
    && (a == Take(Gate) ==> !s.hg[0].msg.Open?)
  }

  lemma OrdinaryIsAllowed(r: Rules, s: State, a: Action)
    requires Tidy(r, s) && Enabled(s, a) && Ordinary(s, a)
    ensures Allowed(r, s, a) && Tidy(r, Next(s, a))
    ensures Next(s, a).lostHG == s.lostHG && |Next(s, a).home.socks| == |s.home.socks|
  {
    hide Next, Enabled, Muddled;
    OrdinaryLosesNothing(s, a);
    NothingMuddled(Next(s, a));
  }

  lemma OrdinaryLosesNothing(s: State, a: Action)
    requires Enabled(s, a) && !a.Accept? && !a.SendFail? && !a.Lose?
    ensures Next(s, a).lostHG == s.lostHG && |Next(s, a).home.socks| == |s.home.socks|
  {
    hide Next, Enabled;
    if !OfOneEndpoint(a) {
      NotLostShared(s, a);
      SizeStays(s, a);
    } else {
      AcceptorRests(s, a);
      if ByLink(a) && a.side.Home? {
        LinkTouches(s, a);
      } else {
        LinksRest(s, a, Home);
      }
    }
  }

  lemma SizeStays(s: State, a: Action)
    requires Enabled(s, a) && !OfOneEndpoint(a) && !a.Accept?
    ensures |Next(s, a).home.socks| == |s.home.socks|
  {
  }

  lemma NothingMuddled(s: State)
    ensures s.lostHG == [] ==> !Muddled(s.gate, s.lostHG)
  {
  }

  /** One more ordinary step. */
  lemma Then(r: Rules, s: State, t: State, a: Action)
    requires Reaches(r, s, t) && Tidy(r, t)
    requires Enabled(t, a) && Ordinary(t, a)
    ensures Reaches(r, s, Next(t, a)) && Tidy(r, Next(t, a))
  {
    hide Reaches, Tidy, Enabled, Next, Allowed, Ordinary;
    OrdinaryIsAllowed(r, t, a);
    Go(r, t, a);
    Join(r, s, t, Next(t, a));
  }

  /** One more step that the rules allow. */
  lemma ThenAlso(r: Rules, s: State, t: State, a: Action)
    requires Reaches(r, s, t) && Enabled(t, a) && Allowed(r, t, a)
    ensures Reaches(r, s, Next(t, a))
  {
    hide Reaches, Enabled, Next, Allowed;
    Go(r, t, a);
    Join(r, s, t, Next(t, a));
  }

  /** A connection may be accepted, and its OPEN queued, on this id. */
  ghost predicate MayOpen(r: Rules, s: State, id: ConnId) {
    && (r.FirstRounds? ==> |s.home.socks| < ID_COUNT)
    && (Careful(r) ==>
          forall j | 0 <= j < |s.home.socks| && s.home.socks[j].id == id :: s.home.socks[j].rd.Done?)
  }

  /** An OPEN for this id may be handled. */
  ghost predicate MayHandle(r: Rules, s: State, id: ConnId, k: nat) {
    && (r.WhenHandled? || r.ButRefusals? || r.ButLosses? ==> id !in s.gate.conns)
    && (r.WhenHandled? ==>
          forall j | 0 <= j < k && j < |s.home.socks| && s.home.socks[j].id == id :: s.home.socks[j].rd.Done?)
  }

  /** Both ends connected, nothing under way, nobody waiting. */
  ghost predicate Quiet(s: State) {
    && |s.home.socks| == |s.gate.socks|
    && s.home.up && s.gate.up && s.home.sess.Ready? && s.gate.sess.Ready?
    && s.home.out == [] && s.gate.out == [] && s.hg == [] && s.gh == []
    && s.acc.Waiting?
  }

  /** An endpoint whose session loop is idle and connected, with nothing in `out`. */
  ghost predicate Idle(e: Endpoint) {
    e.up && e.sess.Ready? && e.out == []
  }

  /** The only frame in `out` goes onto the wire. */
  lemma DrainOne(r: Rules, s: State, side: Side, f: Frame)
    requires Tidy(r, s) && s.Ep(side).up && s.Ep(side).sess.Ready? && s.Ep(side).out == [f]
    ensures Reaches(r, s, s.WithEp(side, s.Ep(side).(out := [])).WithWire(side, s.Wire(side) + [f]))
  {
    Stay(r, s);
    Then(r, s, s, Drain(side));
  }

  // ---------------------------------------------------------------- opening a connection

  function FreshConn(id: ConnId): Conn {
    Conn(id, Reading, [], Running, [], [])
  }

  function OpenedAt(e: Endpoint, id: ConnId): Endpoint {
    e.(conns := e.conns[id := |e.socks|], socks := e.socks + [FreshConn(id)])
  }

  /** A quiet state after one more connection has been opened on `id` at both ends. */
  function Opened(s: State, id: ConnId): State {
    s.(home := OpenedAt(s.home, id), gate := OpenedAt(s.gate, id), next := Succ(id))
  }

  /** The same, with OPEN still in home's queue. */
  function HalfOpened(s: State, id: ConnId): State {
    var n := |s.home.socks|;
    s.(home := OpenedAt(s.home, id).(out := [Frame(id, n, Open)]),
       gate := s.gate.(socks := s.gate.socks + [NewConn(id)]),
       next := Succ(id))
  }

  lemma OpenHome(r: Rules, s: State, id: ConnId)
    requires Tidy(r, s) && MayOpen(r, s, id) && Alloc(s.home.conns.Keys, s.next).0 == Some(id)
    requires |s.home.socks| == |s.gate.socks| && s.home.out == [] && s.acc.Waiting?
    ensures Reaches(r, s, HalfOpened(s, id)) && Tidy(r, HalfOpened(s, id))
  {
    hide Alloc, Reaches, Tidy;
    Stay(r, s);
    Accepts(r, s, id);
    var s1 := Accepted(s, id);
    Join(r, s, s, s1);
    Announces(r, s1, id);
    var n, e := |s.home.socks|, s1.home;
    var s2 := s1.(home := e.(out := [Frame(id, n, Open)]), acc := Inserting);
    Join(r, s, s1, s2);
    assert Next(s2, Insert).home.socks == s.home.socks + [FreshConn(id)];
    assert Next(s2, Insert) == HalfOpened(s, id);
    Then(r, s, s2, Insert);
    OrdinaryIsAllowed(r, s2, Insert);
  }

  function Accepted(s: State, id: ConnId): State {
    s.(home := s.home.(socks := s.home.socks + [NewConn(id)]),
       gate := s.gate.(socks := s.gate.socks + [NewConn(id)]),
       acc := Opening, next := Succ(id))
  }

  lemma Accepts(r: Rules, s: State, id: ConnId)
    requires Tidy(r, s) && MayOpen(r, s, id) && s.acc.Waiting? && Alloc(s.home.conns.Keys, s.next).0 == Some(id)
    ensures Reaches(r, s, Accepted(s, id)) && Tidy(r, Accepted(s, id))
  {
    AllocIsCyclicFirstFit(s.home.conns.Keys, s.next);
    hide Alloc;
    assert Next(s, Accept) == Accepted(s, id);
    Go(r, s, Accept);
  }

  lemma Announces(r: Rules, s: State, id: ConnId)
    requires Tidy(r, s) && s.acc.Opening? && s.home.socks != [] && s.home.out == []
    requires var n := |s.home.socks| - 1;
      && s.home.socks[n].id == id
      && (Careful(r) ==>
            forall j | 0 <= j < n && s.home.socks[j].id == id :: s.home.socks[j].rd.Done?)
    ensures var s' := s.(home := s.home.(out := [Frame(id, |s.home.socks| - 1, Open)]), acc := Inserting);
      Reaches(r, s, s') && Tidy(r, s')
  {
    assert [] + [Frame(id, |s.home.socks| - 1, Open)] == [Frame(id, |s.home.socks| - 1, Open)];
    Go(r, s, SendOpen);
  }

  lemma OpenGate(r: Rules, s: State, id: ConnId)
    requires Tidy(r, HalfOpened(s, id)) && Quiet(s) && MayHandle(r, HalfOpened(s, id), id, |s.home.socks|)
    ensures Reaches(r, HalfOpened(s, id), Opened(s, id))
  {
    hide Reaches;
    var h, f := HalfOpened(s, id), Frame(id, |s.home.socks|, Open);
    DrainOne(r, h, Home, f);
    var s1 := h.(home := h.home.(out := []), hg := [f]);
    assert h.hg + [f] == [f];
    DialGate(r, s1, f);
    assert s1.gate.socks[f.tag := FreshConn(id)] == s.gate.socks + [FreshConn(id)];
    Join(r, h, s1, Opened(s, id));
  }

  /** The gate has taken OPEN frame f. */
  function DialingFor(e: Endpoint, f: Frame): Endpoint
    requires f.tag < |e.socks|
  {
    e.(sess := Dial(f.id, f.tag), socks := e.socks[f.tag := NewConn(f.id).(rd := Dialing)])
  }

  lemma DialGate(r: Rules, s: State, f: Frame)
    requires Tidy(r, s) && s.hg == [f] && f.msg.Open? && CanTake(s.gate, f) && s.gate.socks[f.tag] == NewConn(f.id)
    requires MayHandle(r, s, f.id, f.tag)
    ensures var e := s.gate;
      Reaches(r, s, s.(gate := e.(conns := e.conns[f.id := f.tag], socks := e.socks[f.tag := FreshConn(f.id)]),
                       hg := []))
  {
    hide Reaches, Tidy, Next;
    Stay(r, s);
    TakesOpen(s, f);
    TakeOpenAllowed(r, s, f);
    ThenAlso(r, s, s, Take(Gate));
    DialEnds(r, s, f);
    ThenAlso(r, s, s.(gate := DialingFor(s.gate, f), hg := []), DialOk);
  }

  lemma TakeOpenAllowed(r: Rules, s: State, f: Frame)
    requires Tidy(r, s) && s.hg == [f] && f.msg.Open? && CanTake(s.gate, f) && s.gate.socks[f.tag] == NewConn(f.id)
    requires MayHandle(r, s, f.id, f.tag)
    ensures Enabled(s, Take(Gate)) && Allowed(r, s, Take(Gate))
  {
    hide Next;
    TakesOpen(s, f);
  }

  lemma DialEnds(r: Rules, s: State, f: Frame)
    requires Tidy(r, s) && f.tag < |s.gate.socks| && s.gate.socks[f.tag] == NewConn(f.id)
    requires MayHandle(r, s, f.id, f.tag)
    ensures var e, t := s.gate, s.(gate := DialingFor(s.gate, f), hg := []);
      && Enabled(t, DialOk) && Allowed(r, t, DialOk)
      && Next(t, DialOk) ==
         s.(gate := e.(conns := e.conns[f.id := f.tag], sess := Ready, socks := e.socks[f.tag := FreshConn(f.id)]),
            hg := [])
  {
    var t := s.(gate := DialingFor(s.gate, f), hg := []);
    assert Next(t, DialOk).gate.socks == s.gate.socks[f.tag := FreshConn(f.id)];
  }

  lemma TakesOpen(s: State, f: Frame)
    requires s.hg == [f] && f.msg.Open? && CanTake(s.gate, f) && s.gate.socks[f.tag] == NewConn(f.id)
    ensures Next(s, Take(Gate)) == s.(gate := DialingFor(s.gate, f), hg := [])
  {
    assert [f][1..] == [];
  }

  lemma OpenOne(r: Rules, s: State, id: ConnId)
    requires Tidy(r, s) && MayOpen(r, s, id) && Quiet(s) && Alloc(s.home.conns.Keys, s.next).0 == Some(id)
    requires MayHandle(r, s, id, |s.home.socks|)
    ensures Reaches(r, s, Opened(s, id)) && Quiet(Opened(s, id)) && Tidy(r, Opened(s, id))
  {
    hide Alloc, Reaches;
    OpenHome(r, s, id);
    OpenGate(r, s, id);
    Join(r, s, HalfOpened(s, id), Opened(s, id));
  }

  // ---------------------------------------------------------------- a chunk and an end of stream, carried through

  /** Connection c of the other end is the one that frames of reader k at `side` are routed to. */
  ghost predicate RoutedTo(s: State, side: Side, k: nat, c: nat) {
    var snd, rcv := s.Ep(side), s.Ep(Other(side));
    && k < |snd.socks| && snd.socks[k].rd.Reading?
    && c < |rcv.socks| && rcv.socks[c].wr.Running? && rcv.socks[c].queue == [] && rcv.socks[c].id == snd.socks[k].id
    && snd.socks[k].id in rcv.conns && rcv.conns[snd.socks[k].id] == c
  }

  /** Reader k of `side` has put a frame on the wire. */
  function OnWire(s: State, side: Side, k: nat, c': Conn, tx: nat, f: Frame): State
    requires k < |s.Ep(side).socks|
  {
    var e := s.Ep(side);
    s.WithEp(side, e.(socks := e.socks[k := c'], tx := tx)).WithWire(side, s.Wire(side) + [f])
  }

  /** The next DATA frame of a connection. */
  function NextData(c: Conn, k: nat, chunk: Chunk): Frame {
    Frame(c.id, k, Data(|c.got|, chunk))
  }

  lemma SendChunk(r: Rules, s: State, side: Side, k: nat, chunk: Chunk)
    requires Tidy(r, s) && Idle(s.Ep(side)) && CanRead(s.Ep(side), k, chunk)
    ensures var e, c := s.Ep(side), s.Ep(side).socks[k];
      Reaches(r, s, OnWire(s, side, k, c.(got := c.got + [chunk]), e.tx + |chunk|, NextData(c, k, chunk)))
  {
    var e, c, f := s.Ep(side), s.Ep(side).socks[k], NextData(s.Ep(side).socks[k], k, chunk);
    hide Reaches;
    QueueChunk(r, s, side, k, chunk);
    var e' := e.(socks := e.socks[k := c.(got := c.got + [chunk])], tx := e.tx + |chunk|, out := [f]);
    var s2 := s.WithEp(side, e');
    DrainOne(r, s2, side, f);
    Join(r, s, s2, OnWire(s, side, k, c.(got := c.got + [chunk]), e.tx + |chunk|, f));
  }

  lemma QueueChunk(r: Rules, s: State, side: Side, k: nat, chunk: Chunk)
    requires Tidy(r, s) && Idle(s.Ep(side)) && CanRead(s.Ep(side), k, chunk)
    ensures var e, c := s.Ep(side), s.Ep(side).socks[k];
      var c' := c.(got := c.got + [chunk]);
      Reaches(r, s, s.WithEp(side, e.(socks := e.socks[k := c'], tx := e.tx + |chunk|, out := [NextData(c, k, chunk)])))
  {
    hide Reaches, Tidy;
    var e := s.Ep(side);
    var c := e.socks[k];
    Stay(r, s);
    Then(r, s, s, Read(side, k, chunk));
    var s1 := Next(s, Read(side, k, chunk));
    Then(r, s, s1, SendData(side, k));
    var s2 := Next(s1, SendData(side, k));
    assert s2.Ep(side).out == [NextData(c, k, chunk)];
    assert s2.Ep(side).socks == e.socks[k := c.(got := c.got + [chunk])];
  }

  /** A frame alone on the wire enters the queue of the connection that the map holds for its id. */
  function Queued(s: State, side: Side, f: Frame, c: nat): State
    requires c < |s.Ep(side).socks|
  {
    var e := s.Ep(side);
    s.WithEp(side, e.(socks := e.socks[c := e.socks[c].(queue := [f])])).WithWire(Other(side), [])
  }

  lemma QueueFrame(r: Rules, s: State, side: Side, f: Frame, c: nat)
    requires Tidy(r, s) && s.Wire(Other(side)) == [f] && (f.msg.Close? || (f.msg.Data? && f.msg.bytes != []))
    requires var e := s.Ep(side);
      && CanTake(e, f) && f.id in e.conns && e.conns[f.id] == c
      && c < |e.socks| && e.socks[c].wr.Running? && e.socks[c].queue == []
    ensures Reaches(r, s, Queued(s, side, f, c))
  {
    hide Reaches, Tidy, Enabled, Next, Ordinary;
    Stay(r, s);
    TakesToQueue(s, side, f, c);
    Then(r, s, s, Take(side));
    EnqueuesTaken(s, side, f, c);
    Then(r, s, TakenUp(s, side, f, c), Enqueue(side));
  }

  /** The frame has been taken off the wire, and its writer looked up. */
  function TakenUp(s: State, side: Side, f: Frame, c: nat): State {
    s.WithEp(side, s.Ep(side).(sess := Deliver(c, f))).WithWire(Other(side), [])
  }

  lemma TakesToQueue(s: State, side: Side, f: Frame, c: nat)
    requires s.Wire(Other(side)) == [f] && (f.msg.Close? || (f.msg.Data? && f.msg.bytes != []))
    requires CanTake(s.Ep(side), f) && f.id in s.Ep(side).conns && s.Ep(side).conns[f.id] == c
    ensures Enabled(s, Take(side)) && Ordinary(s, Take(side)) && Next(s, Take(side)) == TakenUp(s, side, f, c)
  {
    assert [f][1..] == [];
  }

  lemma EnqueuesTaken(s: State, side: Side, f: Frame, c: nat)
    requires c < |s.Ep(side).socks| && s.Ep(side).socks[c].wr.Running? && s.Ep(side).socks[c].queue == []
    requires s.Ep(side).sess.Ready?
    ensures var t := TakenUp(s, side, f, c);
      Enabled(t, Enqueue(side)) && Ordinary(t, Enqueue(side)) && Next(t, Enqueue(side)) == Queued(s, side, f, c)
  {
    assert [] + [f] == [f];
  }

  /** A DATA frame alone on the wire is written. */
  lemma WriteChunk(r: Rules, s: State, side: Side, f: Frame, c: nat) returns (t: State)
    requires Tidy(r, s) && s.Wire(Other(side)) == [f] && f.msg.Data? && f.msg.bytes != []
    requires var e := s.Ep(side);
      && CanTake(e, f) && f.id in e.conns && e.conns[f.id] == c
      && c < |e.socks| && e.socks[c].wr.Running? && e.socks[c].queue == []
    ensures Reaches(r, s, t) && c < |t.Ep(side).socks| && f in t.Ep(side).socks[c].log
    ensures t.lostHG == s.lostHG && t.lostGH == s.lostGH
  {
    QueueFrame(r, s, side, f, c);
    var s1 := Queued(s, side, f, c);
    Then(r, s, s1, Write(side, c));
    t := Next(s1, Write(side, c));
    var log := t.Ep(side).socks[c].log;
    assert log[|log| - 1] == f;
  }

  /** The socket of this connection has been given bytes of connection k. */
  ghost predicate Stray(c: Conn, k: nat) {
    exists f :: f in c.log && f.tag == k && f.msg.Data?
  }

  /** The bytes of reader k end up in the socket of connection c. */
  lemma CarryChunk(r: Rules, s: State, side: Side, k: nat, c: nat) returns (t: State)
    requires Tidy(r, s) && Quiet(s) && RoutedTo(s, side, k, c)
    ensures Reaches(r, s, t) && c < |t.Ep(Other(side)).socks|
    ensures Stray(t.Ep(Other(side)).socks[c], k)
    ensures t.lostHG == s.lostHG && t.lostGH == s.lostGH
  {
    SendChunk(r, s, side, k, [7]);
    var q := s.Ep(side).socks[k];
    var f := NextData(q, k, [7]);
    var s1 := OnWire(s, side, k, q.(got := q.got + [[7]]), s.Ep(side).tx + 1, f);
    assert s1.Wire(side) == [f];
    t := WriteChunk(r, s1, Other(side), f, c);
    Join(r, s, s1, t);
  }

  /** The end of the stream of reader k goes onto the wire. */
  lemma SendEnd(r: Rules, s: State, side: Side, k: nat)
    requires Tidy(r, s) && Idle(s.Ep(side)) && k < |s.Ep(side).socks| && s.Ep(side).socks[k].rd.Reading?
    ensures var c := s.Ep(side).socks[k];
      Reaches(r, s, OnWire(s, side, k, c.(rd := Done), s.Ep(side).tx, Frame(c.id, k, Close)))
  {
    hide Reaches;
    var e := s.Ep(side);
    var c, f := e.socks[k], Frame(e.socks[k].id, k, Close);
    Stay(r, s);
    Then(r, s, s, Eof(side, k));
    var s1 := Next(s, Eof(side, k));
    Then(r, s, s1, SendClose(side, k));
    var s2 := Next(s1, SendClose(side, k));
    assert s2.Ep(side).out == [f];
    assert s2.Ep(side).socks == e.socks[k := c.(rd := Done)];
    DrainOne(r, s2, side, f);
    Join(r, s, s2, OnWire(s, side, k, c.(rd := Done), e.tx, f));
  }

  /** An endpoint after CLOSE has stopped the writer of connection c. */
  function StoppedAt(e: Endpoint, c: nat, f: Frame): Endpoint
    requires c < |e.socks|
  {
    var q := e.socks[c];
    e.(conns := e.conns - {q.id}, socks := e.socks[c := q.(wr := Gone, log := q.log + [f])])
  }

  /** A CLOSE frame alone on the wire stops the writer that the map holds for its id. */
  lemma StopWriter(r: Rules, s: State, side: Side, f: Frame, c: nat)
    requires Tidy(r, s) && s.Wire(Other(side)) == [f] && f.msg.Close?
    requires var e := s.Ep(side);
      && CanTake(e, f) && f.id in e.conns && e.conns[f.id] == c
      && c < |e.socks| && e.socks[c].wr.Running? && e.socks[c].queue == []
    ensures Reaches(r, s, s.WithEp(side, StoppedAt(s.Ep(side), c, f)).WithWire(Other(side), []))
  {
    QueueFrame(r, s, side, f, c);
    var s1, e := Queued(s, side, f, c), s.Ep(side);
    StopQueued(r, s1, side, f, c);
    assert s1.Ep(side).socks[c := e.socks[c]] == e.socks;
    Join(r, s, s1, s.WithEp(side, StoppedAt(e, c, f)).WithWire(Other(side), []));
  }

  lemma StopQueued(r: Rules, s: State, side: Side, f: Frame, c: nat)
    requires Tidy(r, s) && f.msg.Close? && c < |s.Ep(side).socks|
    requires s.Ep(side).socks[c].wr.Running? && s.Ep(side).socks[c].queue == [f]
    ensures var e := s.Ep(side);
      Reaches(r, s, s.WithEp(side, StoppedAt(e.(socks := e.socks[c := e.socks[c].(queue := [])]), c, f)))
  {
    hide Reaches, Tidy, Enabled, Next, Ordinary;
    Stay(r, s);
    ShutsDown(s, side, f, c);
    Then(r, s, s, Shut(side, c));
    RemovesItself(s, side, f, c);
    Then(r, s, ShutDown(s, side, f, c), Remove(side, c));
  }

  /** The writer has been told to stop and has done so, but still has its entry. */
  function ShutDown(s: State, side: Side, f: Frame, c: nat): State
    requires c < |s.Ep(side).socks|
  {
    var e, q := s.Ep(side), s.Ep(side).socks[c];
    s.WithEp(side, e.(socks := e.socks[c := q.(queue := [], log := q.log + [f], wr := Exiting)]))
  }

  lemma ShutsDown(s: State, side: Side, f: Frame, c: nat)
    requires f.msg.Close? && c < |s.Ep(side).socks|
    requires s.Ep(side).socks[c].wr.Running? && s.Ep(side).socks[c].queue == [f]
    ensures Enabled(s, Shut(side, c)) && Ordinary(s, Shut(side, c))
    ensures Next(s, Shut(side, c)) == ShutDown(s, side, f, c)
  {
    assert [f][1..] == [];
  }

  lemma RemovesItself(s: State, side: Side, f: Frame, c: nat)
    requires c < |s.Ep(side).socks|
    ensures var e, t := s.Ep(side), ShutDown(s, side, f, c);
      && Enabled(t, Remove(side, c)) && Ordinary(t, Remove(side, c))
      && Next(t, Remove(side, c)) ==
         s.WithEp(side, StoppedAt(e.(socks := e.socks[c := e.socks[c].(queue := [])]), c, f))
  {
    var e, t := s.Ep(side), ShutDown(s, side, f, c);
    assert Next(t, Remove(side, c)).Ep(side).socks ==
           e.socks[c := e.socks[c].(queue := [], wr := Gone, log := e.socks[c].log + [f])];
  }

  // ---------------------------------------------------------------- once round the ids

  function Start(): State {
    Init().(home := NewEndpoint().(up := true), gate := NewEndpoint().(up := true))
  }

  lemma Connects(r: Rules)
    requires Usable(r)
    ensures Reaches(r, Init(), Start()) && Quiet(Start()) && Tidy(r, Start())
  {
    hide Reaches;
    Stay(r, Init());
    Then(r, Init(), Init(), Reconnect(Home));
    Then(r, Init(), Next(Init(), Reconnect(Home)), Reconnect(Gate));
  }

  /** n connections have been accepted, each on its own id, and home has freed id 0. */
  ghost predicate Laid(s: State, n: nat) {
    && Quiet(s) && 1 <= n <= ID_COUNT && |s.home.socks| == n
    && s.next == (if n == ID_COUNT then 0 else n)
    && (forall x: ConnId :: x in s.home.conns <==> 1 <= x < n)
    && (forall x | x in s.gate.conns :: x < n)
    && (forall j | 0 <= j < n :: s.home.socks[j].id == j && s.gate.socks[j].id == j)
  }

  ghost predicate NoneLost(s: State) {
    s.lostHG == [] && s.lostGH == []
  }

  /** What connection 0 has become at either end is as it was. */
  ghost predicate SameFirst(s: State, t: State) {
    && s.home.socks != [] && s.gate.socks != [] && t.home.socks != [] && t.gate.socks != []
    && t.home.socks[0] == s.home.socks[0] && t.gate.socks[0] == s.gate.socks[0]
    && (0 in t.gate.conns <==> 0 in s.gate.conns)
    && (0 in s.gate.conns ==> t.gate.conns[0] == s.gate.conns[0])
    && t.lostHG == s.lostHG && t.lostGH == s.lostGH
  }

  lemma {:induction false} LayRest(r: Rules, s: State, n: nat) returns (t: State)
    requires Tidy(r, s) && Laid(s, n)
    ensures Reaches(r, s, t) && Laid(t, ID_COUNT) && SameFirst(s, t) && Tidy(r, t)
    decreases ID_COUNT - n
  {
    hide Reaches, Alloc;
    if n == ID_COUNT {
      Stay(r, s);
      t := s;
    } else {
      NextIsFree(s, n);
      OpenOne(r, s, n);
      var s1 := Opened(s, n);
      LaidOn(s, n);
      t := LayRest(r, s1, n + 1);
      Join(r, s, s1, t);
    }
  }

  lemma NextIsFree(s: State, n: nat)
    requires Laid(s, n) && n < ID_COUNT
    ensures Alloc(s.home.conns.Keys, s.next).0 == Some(n)
  {
    assert n !in s.home.conns;
  }

  lemma LaidOn(s: State, n: nat)
    requires Laid(s, n) && n < ID_COUNT
    ensures Laid(Opened(s, n), n + 1) && SameFirst(s, Opened(s, n))
  {
  }

  /** Both ends have opened connection 0, and home has freed its id because the gate's reader ended. */
  lemma LayFirst(r: Rules) returns (t: State)
    requires Usable(r)
    ensures Reaches(r, Init(), t) && Laid(t, 1) && Tidy(r, t)
    ensures t.home.socks[0].rd.Reading? && t.gate.socks[0] == FreshConn(0).(rd := Done)
    ensures 0 in t.gate.conns && t.gate.conns[0] == 0 && NoneLost(t)
  {
    hide Reaches, Alloc, Tidy;
    var s0 := Start();
    Connects(r);
    FirstIsFree();
    OpenOne(r, s0, 0);
    var s1 := Opened(s0, 0);
    Join(r, Init(), s0, s1);
    t := FreeFirst(r, s1);
    Join(r, Init(), s1, t);
  }

  lemma FirstIsFree()
    ensures Alloc(Start().home.conns.Keys, Start().next).0 == Some(0)
  {
    assert 0 !in Start().home.conns;
  }

  lemma FreeFirst(r: Rules, s1: State) returns (t: State)
    requires Usable(r) && s1 == Opened(Start(), 0)
    ensures Reaches(r, s1, t) && Laid(t, 1) && Tidy(r, t)
    ensures t.home.socks[0].rd.Reading? && t.gate.socks[0] == FreshConn(0).(rd := Done)
    ensures 0 in t.gate.conns && t.gate.conns[0] == 0 && NoneLost(t)
  {
    hide Reaches;
    SendEnd(r, s1, Gate, 0);
    var f := Frame(0, 0, Close);
    var s2 := OnWire(s1, Gate, 0, FreshConn(0).(rd := Done), 0, f);
    assert s1.gate.socks == [FreshConn(0)] && s1.home.socks == [FreshConn(0)] && s2.gh == [f];
    StopWriter(r, s2, Home, f, 0);
    t := s2.(home := StoppedAt(s2.home, 0, f), gh := []);
    Join(r, s1, s2, t);
  }

  /** Connection 256 has been given id 0 while the reader of connection 0 still uses it. */
  ghost predicate Reused(s: State) {
    && Quiet(s) && NoneLost(s) && |s.home.socks| == ID_COUNT + 1 && s.next == 1
    && (forall x: ConnId :: x in s.home.conns) && s.home.conns[0] == ID_COUNT
    && s.home.socks[0].rd.Reading? && s.home.socks[0].id == 0
    && s.home.socks[ID_COUNT] == FreshConn(0) && s.gate.socks[ID_COUNT] == FreshConn(0)
    && 0 in s.gate.conns && s.gate.conns[0] == ID_COUNT
  }

  lemma Reuse(r: Rules) returns (t: State)
    requires Lax(r)
    ensures Reaches(r, Init(), t) && Reused(t)
  {
    hide Reaches, Alloc;
    var s1 := LayFirst(r);
    var s2 := LayRest(r, s1, 1);
    Join(r, Init(), s1, s2);
    RoundIsFree(s2);
    OpenOne(r, s2, 0);
    t := Opened(s2, 0);
    Join(r, Init(), s2, t);
  }

  lemma RoundIsFree(s: State)
    requires Laid(s, ID_COUNT)
    ensures Alloc(s.home.conns.Keys, s.next).0 == Some(0)
  {
    assert 0 !in s.home.conns;
  }

  /**
   Home to gate without any condition on reuse: in a run without failing writes and losses, which is home-safe too if
   `r` says so, the gate writes bytes that the client of connection 0 sent into the socket it opened for connection 256.
   */
  lemma ReuseMixesHomeToGate(r: Rules)
    requires r.NoWriteFails? || r.HomeSafe?
    ensures exists acts ::
      && Legal(r, Init(), acts)
      && var s := After(r, Init(), acts);
      && NoneLost(s) && ID_COUNT < |s.gate.socks| && Stray(s.gate.socks[ID_COUNT], 0)
  {
    hide Legal;
    var s := Reuse(r);
    var t := CarryChunk(r, s, Home, 0, ID_COUNT);
    Join(r, Init(), s, t);
    var acts :| Legal(r, Init(), acts) && After(r, Init(), acts) == t;
  }

  // ---------------------------------------------------------------- the answer of a writer that is gone

  /** The end of stream of connection 0 and a chunk of connection 256, both under id 0, set out for the gate. */
  lemma EndAndChunk(r: Rules, s: State) returns (t: State, f: Frame, g: Frame)
    requires Tidy(r, s) && Reused(s)
    ensures Reaches(r, s, t) && t.hg == [f, g]
    ensures f == Frame(0, 0, Close) && g.id == 0 && g.tag == ID_COUNT && g.msg.Data? && g.msg.bytes != []
    ensures |t.home.socks| == |s.home.socks| && t.home.socks[ID_COUNT] == FreshConn(0).(got := [[7]])
    ensures t == s.(home := s.home.(socks := t.home.socks, tx := t.home.tx), hg := t.hg)
  {
    hide Reaches;
    SendEnd(r, s, Home, 0);
    f := Frame(0, 0, Close);
    var s1 := OnWire(s, Home, 0, s.home.socks[0].(rd := Done), s.home.tx, f);
    var c := s1.home.socks[ID_COUNT];
    SendChunk(r, s1, Home, ID_COUNT, [7]);
    g := NextData(c, ID_COUNT, [7]);
    t := OnWire(s1, Home, ID_COUNT, c.(got := c.got + [[7]]), s1.home.tx + 1, g);
    assert t.hg == [f, g] && c.got + [[7]] == [[7]];
    Join(r, s, s1, t);
  }

  /** The gate, given the two frames, stops connection 256 and answers its DATA with CLOSE. */
  function GivenAnswer(e: Endpoint, f: Frame, g: Frame): Endpoint
    requires ID_COUNT < |e.socks|
  {
    StoppedAt(e, ID_COUNT, f).(sess := Emit(Frame(0, ID_COUNT, Close)), spilt := e.spilt + PayloadSize(g))
  }

  lemma AnswersWithClose(s: State, f: Frame, g: Frame)
    requires s.hg == [f, g] && f == Frame(0, 0, Close)
    requires g.id == 0 && g.tag == ID_COUNT && g.msg.Data? && g.msg.bytes != []
    requires ID_COUNT < |s.gate.socks| && s.gate.socks[ID_COUNT] == FreshConn(0)
    requires 0 in s.gate.conns && s.gate.conns[0] == ID_COUNT && s.gate.up && s.gate.sess.Ready?
    ensures Reaches(NoWriteFails, s, s.(gate := GivenAnswer(s.gate, f, g), hg := []))
  {
    hide Reaches;
    var r, n, e := NoWriteFails, ID_COUNT, s.gate;
    var s3 := s.(hg := [], gate := e.(sess := Deliver(n, g), socks := e.socks[n := e.socks[n].(queue := [f])]));
    HoldsSecond(s, f, g);
    WriterGone(s3, f, g);
    assert s3.gate.socks[n := FreshConn(0)] == e.socks;
    Join(r, s, s3, s.(gate := GivenAnswer(s.gate, f, g), hg := []));
  }

  /** The gate has queued the first frame and holds the second. */
  lemma HoldsSecond(s: State, f: Frame, g: Frame)
    requires s.hg == [f, g] && f == Frame(0, 0, Close)
    requires g.id == 0 && g.tag == ID_COUNT && g.msg.Data? && g.msg.bytes != []
    requires ID_COUNT < |s.gate.socks| && s.gate.socks[ID_COUNT] == FreshConn(0)
    requires 0 in s.gate.conns && s.gate.conns[0] == ID_COUNT && s.gate.up && s.gate.sess.Ready?
    ensures var e, n := s.gate, ID_COUNT;
      Reaches(NoWriteFails, s,
              s.(hg := [], gate := e.(sess := Deliver(n, g), socks := e.socks[n := e.socks[n].(queue := [f])])))
  {
    hide Reaches;
    var r, n, e := NoWriteFails, ID_COUNT, s.gate;
    Stay(r, s);
    Then(r, s, s, Take(Gate));
    var s1 := Next(s, Take(Gate));
    Then(r, s, s1, Enqueue(Gate));
    var s2 := Next(s1, Enqueue(Gate));
    assert s2.hg == [g] && s2.gate.socks[n].queue == [f];
    Then(r, s, s2, Take(Gate));
    assert Next(s2, Take(Gate)) ==
           s.(hg := [], gate := e.(sess := Deliver(n, g), socks := e.socks[n := e.socks[n].(queue := [f])]));
  }

  lemma WriterGone(s: State, f: Frame, g: Frame)
    requires f == Frame(0, 0, Close) && g.id == 0 && g.tag == ID_COUNT && g.msg.Data? && s.hg == []
    requires ID_COUNT < |s.gate.socks| && s.gate.socks[ID_COUNT] == FreshConn(0).(queue := [f])
    requires s.gate.sess == Deliver(ID_COUNT, g)
    ensures var e := s.gate.(socks := s.gate.socks[ID_COUNT := FreshConn(0)]);
      Reaches(NoWriteFails, s, s.(gate := GivenAnswer(e, f, g)))
  {
    hide Reaches;
    var r, n := NoWriteFails, ID_COUNT;
    StopQueued(r, s, Gate, f, n);
    var e := s.gate.(socks := s.gate.socks[n := FreshConn(0)]);
    var s1 := s.(gate := StoppedAt(e, n, f));
    OrphanAnswers(s1, e, f, g);
    Go(r, s1, Orphan(Gate));
    Join(r, s, s1, s.(gate := GivenAnswer(e, f, g)));
  }

  lemma OrphanAnswers(s: State, e: Endpoint, f: Frame, g: Frame)
    requires ID_COUNT < |e.socks| && e.socks[ID_COUNT] == FreshConn(0) && s.gate == StoppedAt(e, ID_COUNT, f)
    requires e.sess == Deliver(ID_COUNT, g) && g.id == 0 && g.tag == ID_COUNT && g.msg.Data?
    ensures CanOrphan(s.gate) && Next(s, Orphan(Gate)) == s.(gate := GivenAnswer(e, f, g))
  {
    assert s.gate.conns - {0 as ConnId} == s.gate.conns;
    assert s.gate.socks[ID_COUNT := s.gate.socks[ID_COUNT]] == s.gate.socks;
  }

  /** The gate's answer travels home and stops connection 256 there, whose gate reader still runs. */
  lemma AnswerArrives(s: State, f: Frame) returns (t: State)
    requires s.gate.sess == Emit(f) && f == Frame(0, ID_COUNT, Close) && s.gate.out == [] && s.gh == [] && s.gate.up
    requires s.home.up && s.home.sess.Ready? && ID_COUNT < |s.home.socks|
    requires s.home.socks[ID_COUNT].wr.Running? && s.home.socks[ID_COUNT].queue == []
    requires s.home.socks[ID_COUNT].id == 0 && 0 in s.home.conns && s.home.conns[0] == ID_COUNT
    ensures Reaches(NoWriteFails, s, t)
    ensures t == s.(gate := s.gate.(sess := Ready), home := StoppedAt(s.home, ID_COUNT, f))
  {
    var r := NoWriteFails;
    Stay(r, s);
    Then(r, s, s, EmitOut(Gate));
    var s1 := Next(s, EmitOut(Gate));
    assert s1.gate.out == [f];
    DrainOne(r, s1, Gate, f);
    var s2 := s.(gate := s.gate.(sess := Ready), gh := [f]);
    assert s1.gh + [f] == [f];
    Join(r, s, s1, s2);
    StopWriter(r, s2, Home, f, ID_COUNT);
    t := s2.(home := StoppedAt(s2.home, ID_COUNT, f), gh := []);
    Join(r, s, s2, t);
  }

  /** Id 0 is free at home once more, and the gate reader of connection 256 still uses it. */
  ghost predicate FreedTwice(s: State) {
    && Quiet(s) && NoneLost(s) && |s.home.socks| == ID_COUNT + 1 && s.next == 1
    && (forall x: ConnId :: x in s.home.conns <==> x != 0)
    && s.gate.socks[ID_COUNT].rd.Reading? && s.gate.socks[ID_COUNT].id == 0
  }

  lemma FreeTwice() returns (t: State)
    ensures Reaches(NoWriteFails, Init(), t) && FreedTwice(t)
  {
    var r := NoWriteFails;
    var s := Reuse(r);
    var s1, f, g := EndAndChunk(r, s);
    Join(r, Init(), s, s1);
    AnswersWithClose(s1, f, g);
    var s2 := s1.(gate := GivenAnswer(s1.gate, f, g), hg := []);
    Join(r, Init(), s1, s2);
    t := AnswerArrives(s2, Frame(0, ID_COUNT, Close));
    Join(r, Init(), s2, t);
  }

  /**
   Gate to home without excluding the gate's "writer gone" answer: in a run without failing writes and losses, home
   writes bytes that the service sent on connection 256 into the client's socket of connection 257.
   */
  lemma AnswerMixesGateToHome()
    ensures exists acts ::
      && Legal(NoWriteFails, Init(), acts)
      && var s := After(NoWriteFails, Init(), acts);
      && NoneLost(s) && ID_COUNT + 1 < |s.home.socks| && Stray(s.home.socks[ID_COUNT + 1], ID_COUNT)
  {
    var r, n := NoWriteFails, ID_COUNT;
    var s := FreeTwice();
    AllocIsCyclicFirstFit(s.home.conns.Keys, s.next);
    assert 0 !in s.home.conns;
    OpenOne(r, s, 0);
    var s1 := Opened(s, 0);
    Join(r, Init(), s, s1);
    var t := CarryChunk(r, s1, Gate, n, n + 1);
    Join(r, Init(), s1, t);
    var acts :| Legal(r, Init(), acts) && After(r, Init(), acts) == t;
  }
}
