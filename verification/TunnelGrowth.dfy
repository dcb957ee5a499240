/** What no step ever undoes: ids are fixed, histories only grow, ended tasks stay ended. */
module TunnelGrowth {
  import opened Common
  import opened TunnelModel
  import opened TunnelFootprint
  import opened TunnelBase
  import opened TunnelTrack

  ghost predicate ConnGrows(c: Conn, c': Conn) {
    && c'.id == c.id
    && c.got <= c'.got
    && c.log <= c'.log
    && (c.wr.Gone? ==> c'.wr.Gone?)
    && (c.rd.Done? ==> c'.rd.Done?)
    && (c.rd.Refused? ==> c'.rd.Refused?)
    && (!Fresh(c) ==> !Fresh(c'))
  }

  ghost predicate Grows(e: Endpoint, e': Endpoint) {
    && |e'.socks| == |e.socks|
    && forall k | 0 <= k < |e.socks| :: ConnGrows(e.socks[k], e'.socks[k])
  }

  /** One connection of an endpoint changes. */
  lemma GrowsAt(e: Endpoint, e': Endpoint, k: nat)
    requires |e'.socks| == |e.socks| && k < |e.socks| && e'.socks == e.socks[k := e'.socks[k]]
    requires ConnGrows(e.socks[k], e'.socks[k])
    ensures Grows(e, e')
  {
  }

  lemma GrowsSame(e: Endpoint, e': Endpoint)
    requires e'.socks == e.socks
    ensures Grows(e, e')
  {
  }

  lemma GrowsReader(s: State, a: Action)
    requires Enabled(s, a) && ByReader(a)
    ensures Grows(s.Ep(a.side), Next(s, a).Ep(a.side))
  {
    hide Enabled, Next, Grows;
    ReaderTouches(s, a);
    ReaderChanges(s, a);
    GrowsAt(s.Ep(a.side), Next(s, a).Ep(a.side), a.k);
  }

  lemma GrowsWriter(s: State, a: Action)
    requires Enabled(s, a) && ByWriter(a)
    ensures Grows(s.Ep(a.side), Next(s, a).Ep(a.side))
  {
    hide Enabled, Next, Grows;
    WriterTouches(s, a);
    WriterChanges(s, a);
    GrowsAt(s.Ep(a.side), Next(s, a).Ep(a.side), a.k);
  }

  lemma GrowsSession(s: State, a: Action)
    requires Enabled(s, a) && BySession(a)
    ensures Grows(s.Ep(a.side), Next(s, a).Ep(a.side))
  {
    hide Enabled, Next;
    SessionTouches(s, a);
    SessionChanges(s, a);
  }

  lemma GrowsLink(s: State, a: Action)
    requires Enabled(s, a) && ByLink(a)
    ensures Grows(s.Ep(a.side), Next(s, a).Ep(a.side))
  {
    hide Enabled, Next, Grows;
    LinkTouches(s, a);
    GrowsSame(s.Ep(a.side), Next(s, a).Ep(a.side));
  }

  lemma GrowsOne(s: State, a: Action, side: Side)
    requires Enabled(s, a) && OfOneEndpoint(a)
    ensures Grows(s.Ep(side), Next(s, a).Ep(side))
  {
    hide Enabled, Next, Grows;
    if a.side != side {
      OtherRests(s, a, side);
      GrowsSame(s.Ep(side), s.Ep(side));
    } else if ByReader(a) {
      GrowsReader(s, a);
    } else if ByWriter(a) {
      GrowsWriter(s, a);
    } else if BySession(a) {
      GrowsSession(s, a);
    } else {
      GrowsLink(s, a);
    }
  }

  lemma GrowsTake(e: Endpoint, f: Frame, dials: bool)
    requires CanTake(e, f)
    requires f.msg.Open? && dials ==> Fresh(e.socks[f.tag])
    ensures Grows(e, DoTake(e, f, dials))
  {
  }

  lemma GrowsTaking(s: State, a: Action, side: Side)
    requires OpensOk(s) && Enabled(s, a) && a.Take?
    ensures Grows(s.Ep(side), Next(s, a).Ep(side))
  {
    hide Grows;
    if a.side == side {
      var w := s.Wire(Other(side));
      assert s.Pipe(Other(side))[0] == w[0];
      GrowsTake(s.Ep(side), w[0], side.Gate?);
    } else {
      GrowsSame(s.Ep(side), s.Ep(side));
    }
  }

  lemma GrowsSpawn(e: Endpoint, k: nat)
    requires k < |e.socks| && Fresh(e.socks[k]) && !e.socks[k].wr.Gone?
    ensures Grows(e, Spawn(e, k))
  {
  }

  lemma GrowsDial(e: Endpoint)
    requires CanDialEnd(e) && SessionOk(e) && ConnOk(e.socks[e.sess.conn])
    ensures Grows(e, DoDialOk(e)) && Grows(e, DoDialErr(e))
  {
  }

  lemma GrowsStarting(s: State, a: Action, side: Side)
    requires Base(s) && Enabled(s, a) && (a.SendOpen? || a.Insert? || a.DialOk? || a.DialErr?)
    ensures Grows(s.Ep(side), Next(s, a).Ep(side))
  {
    hide Grows;
    GrowsSame(s.Ep(side), s.Ep(side));
    if a.Insert? {
      assert ConnOk(s.home.socks[|s.home.socks| - 1]);
      GrowsSpawn(s.home, |s.home.socks| - 1);
    } else if a.SendOpen? {
      GrowsSame(s.home, Next(s, a).home);
    } else {
      assert ConnOk(s.gate.socks[s.gate.sess.conn]);
      GrowsDial(s.gate);
    }
  }

  /** Every step but accepting a connection, seen from either endpoint. */
  lemma StepGrows(s: State, a: Action, side: Side)
    requires Base(s) && Enabled(s, a) && !a.Accept?
    ensures Grows(s.Ep(side), Next(s, a).Ep(side))
  {
    hide Enabled, Next, Grows;
    if OfOneEndpoint(a) {
      GrowsOne(s, a, side);
    } else if a.Take? {
      GrowsTaking(s, a, side);
    } else {
      GrowsStarting(s, a, side);
    }
  }

  /** No connection is started on, no entry is added, and a dial goes on. */
  ghost predicate NoStarts(e: Endpoint, e': Endpoint) {
    && |e'.socks| == |e.socks|
    && (forall k | 0 <= k < |e.socks| ::
          e'.socks[k].id == e.socks[k].id && (Fresh(e.socks[k]) ==> Fresh(e'.socks[k])))
    && (forall id | id in e'.conns :: id in e.conns && e'.conns[id] == e.conns[id])
    && (e.sess.Dial? || e'.sess.Dial? ==> e'.sess == e.sess)
  }

  lemma NoStartsAt(e: Endpoint, e': Endpoint, k: nat)
    requires |e'.socks| == |e.socks| && k < |e.socks| && e'.socks == e.socks[k := e'.socks[k]]
    requires e'.socks[k].id == e.socks[k].id && (Fresh(e.socks[k]) ==> Fresh(e'.socks[k]))
    requires forall id | id in e'.conns :: id in e.conns && e'.conns[id] == e.conns[id]
    requires e'.sess == e.sess
    ensures NoStarts(e, e')
  {
  }

  /** Steps of the gate other than handling a frame and ending a dial. */
  lemma GateStartsNothing(s: State, a: Action)
    requires Enabled(s, a) && OfOneEndpoint(a) && a.side.Gate?
    ensures NoStarts(s.gate, Next(s, a).gate)
  {
    hide Enabled, Next, NoStarts;
    var e, e' := s.gate, Next(s, a).gate;
    if ByReader(a) {
      ReaderTouches(s, a);
      ReaderChanges(s, a);
      NoStartsAt(e, e', a.k);
    } else if ByWriter(a) {
      WriterTouches(s, a);
      WriterChanges(s, a);
      NoStartsAt(e, e', a.k);
    } else {
      SessionStartsNothing(s, a);
    }
  }

  lemma SessionStartsNothing(s: State, a: Action)
    requires Enabled(s, a) && (BySession(a) || ByLink(a)) && a.side.Gate?
    ensures NoStarts(s.gate, Next(s, a).gate)
  {
    hide Enabled, Next;
    if BySession(a) {
      SessionTouches(s, a);
      SessionChanges(s, a);
    } else {
      LinkTouches(s, a);
    }
  }
}
