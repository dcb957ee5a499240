/** A run that leaves the gate waiting on itself: a dial fails while its readers have filled `out`. */
module TunnelStuck {
  import opened Common
  import opened Allocator
  import opened TunnelModel
  import opened TunnelTheorems
  import opened TunnelReuse

  /** The gate is dialing while the reader of connection 0 can read on. */
  ghost predicate Busy(e: Endpoint, n: nat) {
    e.sess.Dial? && e.sess.conn < |e.socks| && |e.socks| > 0 && e.socks[0].rd.Reading? && |e.out| == n
  }

  lemma ReadOne(r: Rules, s: State, n: nat) returns (t: State)
    requires Tidy(r, s) && Busy(s.gate, n) && n < OUT_QUEUE
    ensures Reaches(r, s, t) && Busy(t.gate, n + 1) && Tidy(r, t)
  {
    Stay(r, s);
    Then(r, s, s, Read(Gate, 0, [7]));
    var s1 := Next(s, Read(Gate, 0, [7]));
    Then(r, s, s1, SendData(Gate, 0));
    t := Next(s1, SendData(Gate, 0));
  }

  lemma {:induction false} FillOut(r: Rules, s: State, n: nat) returns (t: State)
    requires Tidy(r, s) && Busy(s.gate, n) && n <= OUT_QUEUE
    ensures Reaches(r, s, t) && Busy(t.gate, OUT_QUEUE) && Tidy(r, t)
    decreases OUT_QUEUE - n
  {
    if n == OUT_QUEUE {
      Stay(r, s);
      t := s;
    } else {
      var s1 := ReadOne(r, s, n);
      t := FillOut(r, s1, n + 1);
      Join(r, s, s1, t);
    }
  }

  /** Connection 0 is open, and the gate dials for connection 1. */
  lemma DialAgain(r: Rules) returns (t: State)
    requires r.FirstRounds?
    ensures Reaches(r, Init(), t) && Busy(t.gate, 0) && Tidy(r, t)
  {
    hide Reaches, Alloc;
    var s0 := Start();
    Connects(r);
    FirstIsFree();
    OpenOne(r, s0, 0);
    var s1 := Opened(s0, 0);
    Join(r, Init(), s0, s1);
    assert s1.gate.socks == [FreshConn(0)];
    SecondIsFree();
    OpenHome(r, s1, 1);
    var s2, f := HalfOpened(s1, 1), Frame(1, 1, Open);
    Join(r, Init(), s1, s2);
    DrainOne(r, s2, Home, f);
    var s3 := s2.(home := s2.home.(out := []), hg := [f]);
    assert s2.hg + [f] == [f];
    Join(r, Init(), s2, s3);
    TakesOpen(s3, f);
    t := s3.(gate := DialingFor(s3.gate, f), hg := []);
    Go(r, s3, Take(Gate));
    Join(r, Init(), s3, t);
  }

  lemma SecondIsFree()
    ensures var s := Opened(Start(), 0); Alloc(s.home.conns.Keys, s.next).0 == Some(1)
  {
    assert 1 !in Opened(Start(), 0).home.conns;
  }

  /** The one stuck state of `StuckOnlyOnItself` is reached with two connections, without a failing write. */
  lemma StuckIsReachable()
    ensures exists acts ::
      && Legal(FirstRounds, Init(), acts)
      && var s := After(FirstRounds, Init(), acts);
      && s.gate.sess.Emit? && |s.gate.out| == 512
  {
    hide Legal;
    var r := FirstRounds;
    var s := DialAgain(r);
    var s1 := FillOut(r, s, 0);
    Join(r, Init(), s, s1);
    Go(r, s1, DialErr);
    var t := Next(s1, DialErr);
    Join(r, Init(), s1, t);
    var acts :| Legal(r, Init(), acts) && After(r, Init(), acts) == t;
  }
}
