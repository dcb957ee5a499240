/**
 Why `HomeSafe` has no failing writes at home: a writer that fails frees its id at once, while the gate's reader, which
 nobody tells, goes on sending under it.
 */
module TunnelFailedWrite {
  import opened Common
  import opened Allocator
  import opened TunnelModel
  import opened TunnelTheorems
  import opened TunnelReuse

  /** The first chunk from the gate waits for home's writer of connection 0. */
  ghost predicate AboutToFail(s: State) {
    && s.home.up && s.gate.up && s.home.sess.Ready? && s.gate.sess.Ready?
    && s.home.out == [] && s.gate.out == [] && s.hg == [] && s.gh == [] && s.acc.Waiting? && s.next == 1 && NoneLost(s)
    && s.home.conns == map[0 := 0] && s.gate.conns == map[0 := 0]
    && |s.home.socks| == 1 && |s.gate.socks| == 1
    && s.home.socks[0].id == 0 && s.home.socks[0].wr.Running? && |s.home.socks[0].queue| == 1
    && s.home.socks[0].queue[0].msg.Data?
    && s.gate.socks[0].id == 0 && s.gate.socks[0].rd.Reading?
  }

  lemma ChunkWaits(r: Rules) returns (s: State)
    requires r.NoWriteFails? || r.HomeSafe?
    ensures Reaches(r, Init(), s) && AboutToFail(s) && Tidy(r, s)
  {
    hide Reaches, Alloc;
    var s0 := Start();
    Connects(r);
    FirstIsFree();
    OpenOne(r, s0, 0);
    var s1 := Opened(s0, 0);
    Join(r, Init(), s0, s1);
    assert s1.gate.socks == [FreshConn(0)] && s1.home.socks == [FreshConn(0)];
    SendChunk(r, s1, Gate, 0, [7]);
    var c, f := FreshConn(0), NextData(FreshConn(0), 0, [7]);
    var s2 := OnWire(s1, Gate, 0, c.(got := c.got + [[7]]), 1, f);
    Join(r, Init(), s1, s2);
    assert s2.gh == [f];
    QueueFrame(r, s2, Home, f, 0);
    s := Queued(s2, Home, f, 0);
    Join(r, Init(), s2, s);
  }

  /** The write fails, and the writer gives up its entry. */
  lemma FreedByFailure(r: Rules, s: State) returns (t: State)
    requires Tidy(r, s) && AboutToFail(s) && (r.NoWriteFails? || r.HomeSafe?)
    ensures Enabled(s, WriteErr(Home, 0)) && Reaches(r, Next(s, WriteErr(Home, 0)), t)
    ensures Laid(t, 1) && Tidy(r, t) && NoneLost(t) && t.gate.socks[0].rd.Reading?
  {
    hide Reaches;
    var s1 := Next(s, WriteErr(Home, 0));
    Stay(r, s1);
    Then(r, s1, s1, Remove(Home, 0));
    t := Next(s1, Remove(Home, 0));
  }

  /** Id 0 comes round to connection 256, and what the gate reader of connection 0 sends next is written there. */
  lemma RoundToStray(r: Rules, s: State) returns (t: State)
    requires Tidy(r, s) && Laid(s, 1) && NoneLost(s) && s.gate.socks[0].rd.Reading?
    requires r.NoWriteFails? || r.HomeSafe?
    ensures Reaches(r, s, t) && NoneLost(t) && 256 < |t.home.socks| && Stray(t.home.socks[256], 0)
  {
    hide Reaches, Alloc, Stray, Tidy;
    var s1 := LayRest(r, s, 1);
    RoundIsFree(s1);
    assert MayOpen(r, s1, 0) && MayHandle(r, s1, 0, |s1.home.socks|);
    OpenOne(r, s1, 0);
    var s2 := Opened(s1, 0);
    Join(r, s, s1, s2);
    t := CarryChunk(r, s2, Gate, 0, 256);
    Join(r, s, s2, t);
  }

  /**
   Gate to home with a single failing write at home: before and after it the run keeps to the rules, and nothing is
   lost, but bytes that the service sent on connection 0 are written into the client's socket of connection 256.
   */
  lemma FailedWriteMixes(r: Rules)
    requires r.NoWriteFails? || r.HomeSafe?
    ensures exists a, b ::
      && Legal(r, Init(), a)
      && var s := After(r, Init(), a);
      && Enabled(s, WriteErr(Home, 0)) && Legal(r, Next(s, WriteErr(Home, 0)), b)
      && var t := After(r, Next(s, WriteErr(Home, 0)), b);
      && NoneLost(t) && 256 < |t.home.socks| && Stray(t.home.socks[256], 0)
  {
    hide Legal, After, Enabled, Next, Stray;
    var s := ChunkWaits(r);
    var s1 := FreedByFailure(r, s);
    var t := RoundToStray(r, s1);
    Join(r, Next(s, WriteErr(Home, 0)), s1, t);
    var a :| Legal(r, Init(), a) && After(r, Init(), a) == s;
    var b :| Legal(r, Next(s, WriteErr(Home, 0)), b) && After(r, Next(s, WriteErr(Home, 0)), b) == t;
  }
}
