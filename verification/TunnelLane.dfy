/**
 One direction of the tunnel, from the sockets of the sending endpoint to those of the receiving one. A lane is
 sound when every track is good and every receiving writer owns its map entry; each step keeps a lane sound,
 provided the frames taken off the link are routed to the connection that their sender meant.
 */
module TunnelLane {
  import opened Common
  import opened TunnelModel
  import opened TunnelBase
  import opened TunnelTrack

  ghost predicate HasClose(q: seq<Frame>, k: nat) {
    exists i | 0 <= i < |q| :: q[i].msg.Close? && q[i].tag == k
  }

  /** Frames of other connections wait only behind the one that tells this writer to stop. */
  ghost predicate QueueOk(c: Conn, k: nat) {
    c.wr.Running? ==> forall i | 0 <= i < |c.queue| && c.queue[i].tag != k :: HasClose(c.queue[..i], k)
  }

  /** The writer has been told to stop, or will be before it gets to anything queued from now on. */
  ghost predicate Stopping(c: Conn, k: nat) {
    !c.wr.Running? || HasClose(c.queue, k)
  }

  /** The session loop holds a frame for the writer of another connection only if that one is stopping. */
  ghost predicate HeldOk(e: Endpoint) {
    e.sess.Deliver? ==>
      e.sess.to < |e.socks| && (e.sess.frame.tag != e.sess.to ==> Stopping(e.socks[e.sess.to], e.sess.to))
  }

  /** A started writer has its entry until it is gone, and stops exactly when it has been told to. */
  ghost predicate WriterOk(e: Endpoint, k: nat)
    requires k < |e.socks|
  {
    var c := e.socks[k];
    && (Live(c) <==> c.id in e.conns && e.conns[c.id] == k)
    && (Closed(c.log) <==> c.wr.Exiting? || c.wr.Gone?)
    && QueueOk(c, k)
  }

  ghost predicate LaneAt(snd: Endpoint, wire: seq<Frame>, rcv: Endpoint, k: nat, whole: bool)
    requires k < |snd.socks| && k < |rcv.socks|
  {
    GoodTrack(Track(snd, wire, rcv, k), snd.socks[k], k, whole) && WriterOk(rcv, k)
  }

  ghost predicate LaneOk(snd: Endpoint, wire: seq<Frame>, rcv: Endpoint, whole: bool) {
    && |snd.socks| == |rcv.socks|
    && HeldOk(rcv)
    && forall k | 0 <= k < |snd.socks| :: LaneAt(snd, wire, rcv, k, whole)
  }

  /** The receiving side of a connection changes, and its track does not. */
  lemma LaneAtKeeps(snd: Endpoint, wire: seq<Frame>, rcv: Endpoint, rcv': Endpoint, k: nat, whole: bool)
    requires k < |snd.socks| && k < |rcv.socks| && k < |rcv'.socks|
    requires LaneAt(snd, wire, rcv, k, whole)
    requires Back(rcv', k) == Back(rcv, k) && WriterOk(rcv', k)
    ensures LaneAt(snd, wire, rcv', k, whole)
  {
    hide Of, GoodTrack, WriterOk, Back, Front;
  }

  /** The same track, for a sending connection that may have come to its end. */
  lemma TrackKeeps(t: seq<Frame>, c: Conn, c': Conn, k: nat, whole: bool)
    requires GoodTrack(t, c, k, whole)
    requires c'.id == c.id && c'.got == c.got && (Finished(c) ==> Finished(c'))
    ensures GoodTrack(t, c', k, whole)
  {
    forall i | 0 <= i < |t| ensures FrameOk(t[i], c', k) { assert FrameOk(t[i], c, k); }
  }

  /** A connection that is not finished has nothing waiting in the session loop. */
  lemma NoEmit(snd: Endpoint, wire: seq<Frame>, rcv: Endpoint, k: nat, whole: bool)
    requires k < |snd.socks| && k < |rcv.socks|
    requires GoodTrack(Track(snd, wire, rcv, k), snd.socks[k], k, whole)
    requires SessionOk(snd) && !Finished(snd.socks[k])
    ensures snd.sess.Emit? ==> snd.sess.frame.tag != k
  {
    var t := Track(snd, wire, rcv, k);
    var i := |Back(rcv, k)| + |Of(wire + snd.out, k)|;
    assert i < |t| ==> FrameOk(t[i], snd.socks[k], k);
    if snd.sess.Emit? {
      assert [snd.sess.frame][0] == snd.sess.frame;
    }
  }

  // ---------------------------------------------------------------- steps of the sending endpoint

  lemma LaneReads(snd: Endpoint, wire: seq<Frame>, rcv: Endpoint, whole: bool, j: nat, chunk: Chunk)
    requires LaneOk(snd, wire, rcv, whole) && CanRead(snd, j, chunk)
    ensures LaneOk(DoRead(snd, j, chunk), wire, rcv, whole)
  {
    var snd' := DoRead(snd, j, chunk);
    forall k | 0 <= k < |snd.socks|
      ensures LaneAt(snd', wire, rcv, k, whole)
    {
      assert LaneAt(snd, wire, rcv, k, whole);
      var t := Track(snd, wire, rcv, k);
      if k == j {
        TrackReads(t, snd.socks[k], k, whole, chunk);
        assert Track(snd', wire, rcv, k) == t + [HeldData(snd'.socks[k], k)];
      }
    }
  }

  lemma LaneSendsData(snd: Endpoint, wire: seq<Frame>, rcv: Endpoint, whole: bool, j: nat)
    requires LaneOk(snd, wire, rcv, whole) && CanSendData(snd, j) && SessionOk(snd)
    ensures LaneOk(DoSendData(snd, j), wire, rcv, whole)
  {
    var snd', f := DoSendData(snd, j), HeldData(snd.socks[j], j);
    forall k | 0 <= k < |snd.socks|
      ensures LaneAt(snd', wire, rcv, k, whole)
    {
      assert LaneAt(snd, wire, rcv, k, whole);
      Queued(snd, wire, f, k);
      if k == j {
        NoEmit(snd, wire, rcv, k, whole);
      }
      assert Front(snd', wire, k) == Front(snd, wire, k);
      TrackKeeps(Track(snd, wire, rcv, k), snd.socks[k], snd'.socks[k], k, whole);
    }
  }

  lemma LaneEof(snd: Endpoint, wire: seq<Frame>, rcv: Endpoint, whole: bool, j: nat)
    requires LaneOk(snd, wire, rcv, whole) && CanEof(snd, j)
    ensures LaneOk(DoEof(snd, j), wire, rcv, whole)
  {
    var snd' := DoEof(snd, j);
    forall k | 0 <= k < |snd.socks|
      ensures LaneAt(snd', wire, rcv, k, whole)
    {
      assert LaneAt(snd, wire, rcv, k, whole);
      TrackKeeps(Track(snd, wire, rcv, k), snd.socks[k], snd'.socks[k], k, whole);
    }
  }

  lemma LaneSendsClose(snd: Endpoint, wire: seq<Frame>, rcv: Endpoint, whole: bool, j: nat)
    requires LaneOk(snd, wire, rcv, whole) && CanSendClose(snd, j) && SessionOk(snd)
    ensures LaneOk(DoSendClose(snd, j), wire, rcv, whole)
  {
    hide Of, GoodTrack, WriterOk, Back, Front, HeldOk;
    var snd', f := DoSendClose(snd, j), Frame(snd.socks[j].id, j, Close);
    forall k | 0 <= k < |snd.socks|
      ensures LaneAt(snd', wire, rcv, k, whole)
    {
      assert LaneAt(snd, wire, rcv, k, whole);
      if k == j {
        NoEmit(snd, wire, rcv, k, whole);
        TrackCloses(Track(snd, wire, rcv, k), snd.socks[k], snd'.socks[k], k, whole);
      } else {
        assert Track(snd, wire, rcv, k) + Only(f, k) == Track(snd, wire, rcv, k);
      }
      CloseJoinsFront(snd, wire, j, k);
      Passed(Back(rcv, k), Front(snd, wire, k), Only(f, k));
    }
  }

  lemma CloseJoinsFront(snd: Endpoint, wire: seq<Frame>, j: nat, k: nat)
    requires CanSendClose(snd, j) && k < |snd.socks| && (k == j && snd.sess.Emit? ==> snd.sess.frame.tag != k)
    ensures Front(DoSendClose(snd, j), wire, k) == Front(snd, wire, k) + Only(Frame(snd.socks[j].id, j, Close), k)
  {
    hide Of;
    Queued(snd, wire, Frame(snd.socks[j].id, j, Close), k);
  }

  /** A failed dial: the connection ends before it has begun. */
  lemma LaneRefuses(snd: Endpoint, wire: seq<Frame>, rcv: Endpoint, whole: bool)
    requires LaneOk(snd, wire, rcv, whole) && CanDialEnd(snd) && SessionOk(snd)
    ensures LaneOk(DoDialErr(snd), wire, rcv, whole)
  {
    var j := snd.sess.conn;
    var snd', f := DoDialErr(snd), Frame(snd.sess.id, j, Close);
    forall k | 0 <= k < |snd.socks|
      ensures LaneAt(snd', wire, rcv, k, whole)
    {
      assert LaneAt(snd, wire, rcv, k, whole);
      var t := Track(snd, wire, rcv, k);
      if k == j {
        TrackCloses(t, snd.socks[k], snd'.socks[k], k, whole);
        assert Track(snd', wire, rcv, k) == t + [f];
      } else {
        assert Front(snd', wire, k) == Front(snd, wire, k);
      }
    }
  }

  /** The session loop answers for a connection that was never opened here. */
  lemma LaneAnswers(snd: Endpoint, wire: seq<Frame>, rcv: Endpoint, whole: bool)
    requires LaneOk(snd, wire, rcv, whole) && CanOrphan(snd) && SessionOk(snd)
    requires snd.sess.frame.msg.Data? && snd.socks[snd.sess.frame.tag].rd.NotYet?
    ensures LaneOk(DoOrphan(snd), wire, rcv, whole)
  {
    var j := snd.sess.frame.tag;
    var snd', f := DoOrphan(snd), Frame(snd.sess.frame.id, j, Close);
    assert [snd.sess.frame][0] == snd.sess.frame;
    forall k | 0 <= k < |snd.socks|
      ensures LaneAt(snd', wire, rcv, k, whole)
    {
      assert LaneAt(snd, wire, rcv, k, whole);
      var t := Track(snd, wire, rcv, k);
      if k == j {
        TrackCloses(t, snd.socks[k], snd'.socks[k], k, whole);
        assert Track(snd', wire, rcv, k) == t + [f];
      } else {
        assert Front(snd', wire, k) == Front(snd, wire, k);
      }
    }
  }

  lemma LaneEmits(snd: Endpoint, wire: seq<Frame>, rcv: Endpoint, whole: bool)
    requires LaneOk(snd, wire, rcv, whole) && CanEmit(snd) && SessionOk(snd)
    ensures LaneOk(DoEmit(snd), wire, rcv, whole)
  {
    var snd', f := DoEmit(snd), snd.sess.frame;
    forall k | 0 <= k < |snd.socks|
      ensures LaneAt(snd', wire, rcv, k, whole)
    {
      assert LaneAt(snd, wire, rcv, k, whole);
      Queued(snd, wire, f, k);
      assert Front(snd', wire, k) == Front(snd, wire, k);
    }
  }

  lemma Queued(snd: Endpoint, wire: seq<Frame>, f: Frame, k: nat)
    requires k < |snd.socks|
    ensures Of(wire + (snd.out + [f]), k) == Of(wire + snd.out, k) + Only(f, k)
  {
    assert wire + (snd.out + [f]) == (wire + snd.out) + [f];
    OfAppend(wire + snd.out, f, k);
  }

  /** The acceptor queues OPEN for a connection whose track is still empty. */
  lemma LaneOpens(snd: Endpoint, wire: seq<Frame>, rcv: Endpoint, whole: bool, j: nat)
    requires LaneOk(snd, wire, rcv, whole) && j < |snd.socks|
    requires Track(snd, wire, rcv, j) == []
    ensures LaneOk(snd.(out := snd.out + [Frame(snd.socks[j].id, j, Open)]), wire, rcv, whole)
  {
    var f := Frame(snd.socks[j].id, j, Open);
    var snd' := snd.(out := snd.out + [f]);
    forall k | 0 <= k < |snd.socks|
      ensures LaneAt(snd', wire, rcv, k, whole)
    {
      assert LaneAt(snd, wire, rcv, k, whole);
      Queued(snd, wire, f, k);
      if k == j {
        EmptyParts(Back(rcv, k), Of(wire + snd.out, k), Pending(snd, k));
        TrackOpens([], snd.socks[k], k, whole);
        JustThis(Back(rcv, k), Of(wire + snd.out, k), f, Pending(snd, k));
      } else {
        assert Of(wire + snd'.out, k) == Of(wire + snd.out, k);
      }
    }
  }

  lemma JustThis(x: seq<Frame>, y: seq<Frame>, f: Frame, z: seq<Frame>)
    requires x == [] && y == [] && z == []
    ensures x + (y + [f] + z) == [] + [f]
  {
  }

  lemma EmptyParts(x: seq<Frame>, y: seq<Frame>, z: seq<Frame>)
    requires x + (y + z) == []
    ensures x == [] && y == [] && z == []
  {
    assert |x| + |y| + |z| == |x + (y + z)|;
  }

  // ---------------------------------------------------------------- steps of the link

  /** Frames may move from `out` to the wire. */
  lemma LaneDrains(snd: Endpoint, wire: seq<Frame>, rcv: Endpoint, whole: bool, out: seq<Frame>, up: bool,
                   wire': seq<Frame>)
    requires LaneOk(snd, wire, rcv, whole)
    requires wire' + out == wire + snd.out
    ensures LaneOk(snd.(out := out, up := up), wire', rcv, whole)
  {
    forall k | 0 <= k < |snd.socks|
      ensures LaneAt(snd.(out := out, up := up), wire', rcv, k, whole)
    {
      assert LaneAt(snd, wire, rcv, k, whole);
    }
  }

  /** A frame is lost, on its way or in a failed send. */
  lemma LaneLoses(snd: Endpoint, wire: seq<Frame>, rcv: Endpoint, whole: bool, out: seq<Frame>, up: bool,
                  wire': seq<Frame>, i: nat)
    requires LaneOk(snd, wire, rcv, whole)
    requires i < |wire + snd.out| && Without(wire + snd.out, i, wire' + out)
    ensures LaneOk(snd.(out := out, up := up), wire', rcv, false)
  {
    forall k | 0 <= k < |snd.socks|
      ensures LaneAt(snd.(out := out, up := up), wire', rcv, k, false)
    {
      assert LaneAt(snd, wire, rcv, k, whole);
      TrackLosesAt(snd, wire, rcv, whole, out, up, wire', i, k);
    }
  }

  lemma TrackLosesAt(snd: Endpoint, wire: seq<Frame>, rcv: Endpoint, whole: bool, out: seq<Frame>, up: bool,
                     wire': seq<Frame>, i: nat, k: nat)
    requires k < |snd.socks| && k < |rcv.socks|
    requires GoodTrack(Track(snd, wire, rcv, k), snd.socks[k], k, whole)
    requires i < |wire + snd.out| && Without(wire + snd.out, i, wire' + out)
    ensures GoodTrack(Track(snd.(out := out, up := up), wire', rcv, k), snd.socks[k], k, false)
  {
    var p := wire + snd.out;
    var a, b := OfWithout(p, i, k);
    SplitTrack(Back(rcv, k), a, Only(p[i], k), b, Pending(snd, k));
    TrackLoses(Back(rcv, k) + a, Only(p[i], k), b + Pending(snd, k), snd.socks[k], k, whole);
  }

  lemma SplitTrack(x: seq<Frame>, a: seq<Frame>, o: seq<Frame>, b: seq<Frame>, y: seq<Frame>)
    ensures x + (a + o + b + y) == (x + a) + o + (b + y)
    ensures x + (a + b + y) == (x + a) + (b + y)
  {
  }

  // ---------------------------------------------------------------- steps of the receiving endpoint

  /** A frame goes where its sender meant it to go. */
  lemma LaneRoutes(snd: Endpoint, wire: seq<Frame>, rcv: Endpoint, whole: bool)
    requires LaneOk(snd, wire, rcv, whole) && rcv.sess.Ready? && wire != [] && wire[0].tag < |rcv.socks|
    ensures LaneOk(snd, wire[1..], rcv.(sess := Deliver(wire[0].tag, wire[0])), whole)
  {
    hide Of, GoodTrack, Front, Only, HasClose;
    var f := wire[0];
    var rcv' := rcv.(sess := Deliver(f.tag, f));
    forall k | 0 <= k < |snd.socks|
      ensures LaneAt(snd, wire[1..], rcv', k, whole)
    {
      assert LaneAt(snd, wire, rcv, k, whole);
      HeadMoves(snd, wire, k);
      HeldJoins(rcv, f, k);
      Passed(Back(rcv, k), Only(f, k), Front(snd, wire[1..], k));
    }
  }

  lemma HeldJoins(rcv: Endpoint, f: Frame, k: nat)
    requires rcv.sess.Ready? && k < |rcv.socks|
    ensures Back(rcv.(sess := Deliver(f.tag, f)), k) == Back(rcv, k) + Only(f, k)
  {
    hide Of;
  }

  /** A frame goes to the writer of another connection that is stopping: it will never be written. */
  lemma LaneDiverts(snd: Endpoint, wire: seq<Frame>, rcv: Endpoint, to: nat)
    requires LaneOk(snd, wire, rcv, false) && rcv.sess.Ready? && wire != []
    requires to < |rcv.socks| && wire[0].tag != to && Stopping(rcv.socks[to], to)
    ensures LaneOk(snd, wire[1..], rcv.(sess := Deliver(to, wire[0])), false)
  {
    var f := wire[0];
    var rcv' := rcv.(sess := Deliver(to, f));
    forall k | 0 <= k < |snd.socks|
      ensures LaneAt(snd, wire[1..], rcv', k, false)
    {
      assert LaneAt(snd, wire, rcv, k, false);
      HeadMoves(snd, wire, k);
      assert Back(rcv', k) == Back(rcv, k);
      Regrouped(Back(rcv, k), Only(f, k), Front(snd, wire[1..], k));
      TrackLoses(Back(rcv, k), Only(f, k), Front(snd, wire[1..], k), snd.socks[k], k, false);
    }
  }

  lemma Regrouped(x: seq<Frame>, o: seq<Frame>, y: seq<Frame>)
    ensures x + (o + y) == x + o + y
  {
  }

  /** The head of the wire moves from the front of its track to the back. */
  lemma HeadMoves(snd: Endpoint, wire: seq<Frame>, k: nat)
    requires k < |snd.socks| && wire != []
    ensures Front(snd, wire, k) == Only(wire[0], k) + Front(snd, wire[1..], k)
  {
    assert (wire + snd.out)[0] == wire[0] && (wire + snd.out)[1..] == wire[1..] + snd.out;
    OfHead(wire + snd.out, k);
  }

  /** A frame for a connection that has not started yet finds no entry. */
  lemma LaneMisses(snd: Endpoint, wire: seq<Frame>, rcv: Endpoint, whole: bool, spilt: nat)
    requires LaneOk(snd, wire, rcv, whole) && rcv.sess.Ready? && wire != []
    requires wire[0].tag < |rcv.socks| && rcv.socks[wire[0].tag].wr.Absent? && ConnOk(rcv.socks[wire[0].tag])
    ensures LaneOk(snd, wire[1..], rcv.(missed := rcv.missed + [wire[0]], spilt := spilt), whole)
  {
    hide Of, GoodTrack, Back, Front, Only, HasClose;
    var f := wire[0];
    var rcv' := rcv.(missed := rcv.missed + [f], spilt := spilt);
    forall k | 0 <= k < |snd.socks|
      ensures LaneAt(snd, wire[1..], rcv', k, whole)
    {
      assert LaneAt(snd, wire, rcv, k, whole);
      HeadMoves(snd, wire, k);
      MissedJoins(rcv, f, spilt, k);
      Passed(Back(rcv, k), Only(f, k), Front(snd, wire[1..], k));
    }
  }

  lemma MissedJoins(rcv: Endpoint, f: Frame, spilt: nat, k: nat)
    requires rcv.sess.Ready? && k < |rcv.socks|
    requires f.tag == k ==> rcv.socks[k].log == [] && rcv.socks[k].queue == []
    ensures Back(rcv.(missed := rcv.missed + [f], spilt := spilt), k) == Back(rcv, k) + Only(f, k)
  {
    OfAppend(rcv.missed, f, k);
  }

  lemma Passed(x: seq<Frame>, f: seq<Frame>, y: seq<Frame>)
    ensures (x + f) + y == x + (f + y)
  {
  }

  /** OPEN leaves its track, by starting a dial. */
  lemma LaneOpened(snd: Endpoint, wire: seq<Frame>, rcv: Endpoint, whole: bool)
    requires LaneOk(snd, wire, rcv, whole) && rcv.sess.Ready? && wire != []
    requires wire[0].msg.Open? && wire[0].tag < |rcv.socks| && CanTake(rcv, wire[0])
    ensures LaneOk(snd, wire[1..], DoTake(rcv, wire[0], true), whole)
  {
    var rcv' := DoTake(rcv, wire[0], true);
    forall k | 0 <= k < |snd.socks|
      ensures LaneAt(snd, wire[1..], rcv', k, whole)
    {
      assert LaneAt(snd, wire, rcv, k, whole);
      assert Back(rcv', k) == Back(rcv, k);
      HeadMoves(snd, wire, k);
      if wire[0].tag == k {
        TrackOpenedAt(Back(rcv, k), wire[0], Front(snd, wire[1..], k), snd.socks[k], k, whole);
      } else {
        assert Front(snd, wire, k) == Front(snd, wire[1..], k);
      }
    }
  }

  lemma TrackOpenedAt(x: seq<Frame>, f: Frame, y: seq<Frame>, c: Conn, k: nat, whole: bool)
    requires GoodTrack(x + ([f] + y), c, k, whole) && f.msg.Open?
    ensures GoodTrack(x + y, c, k, whole)
  {
    var t := x + ([f] + y);
    assert t[|x|] == f;
    TrackOpened(t, c, k, whole);
    assert t[1..] == x + y;
  }

  /** The held frame enters its queue. */
  lemma LaneEnqueues(snd: Endpoint, wire: seq<Frame>, rcv: Endpoint, whole: bool)
    requires LaneOk(snd, wire, rcv, whole) && CanEnqueue(rcv)
    ensures LaneOk(snd, wire, DoEnqueue(rcv), whole)
  {
    hide Of, GoodTrack, WriterOk, Back, Front, HeldOk, HeldFor;
    var rcv' := DoEnqueue(rcv);
    forall k | 0 <= k < |snd.socks|
      ensures LaneAt(snd, wire, rcv', k, whole)
    {
      assert LaneAt(snd, wire, rcv, k, whole);
      EnqueueKeepsWriter(rcv, k);
      LaneAtKeeps(snd, wire, rcv, rcv', k, whole);
    }
    NothingHeld(rcv');
  }

  lemma NothingHeld(e: Endpoint)
    requires !e.sess.Deliver?
    ensures HeldOk(e)
  {
  }

  lemma EnqueueKeepsWriter(rcv: Endpoint, k: nat)
    requires CanEnqueue(rcv) && HeldOk(rcv) && k < |rcv.socks| && WriterOk(rcv, k)
    ensures WriterOk(DoEnqueue(rcv), k) && Back(DoEnqueue(rcv), k) == Back(rcv, k)
  {
    hide Of, HasClose;
    if k == rcv.sess.to {
      var c, f := rcv.socks[k], rcv.sess.frame;
      OfAppend(c.queue, f, k);
      JoinsQueue(c, f, k);
      QueuedBehind(Of(rcv.missed, k) + c.log, Of(c.queue, k), Only(f, k));
    }
  }

  lemma QueuedBehind(x: seq<Frame>, queue: seq<Frame>, f: seq<Frame>)
    ensures x + (queue + f) + [] == x + queue + f
  {
  }

  lemma JoinsQueue(c: Conn, f: Frame, k: nat)
    requires QueueOk(c, k) && (f.tag != k ==> Stopping(c, k))
    ensures QueueOk(c.(queue := c.queue + [f]), k)
  {
    var q := c.queue + [f];
    assert q[..|c.queue|] == c.queue;
    forall i | 0 <= i < |c.queue| ensures q[..i] == c.queue[..i] {}
  }

  /** What a running writer takes is its own, and the rest of its queue is as it should be. */
  lemma LeavesQueue(c: Conn, k: nat)
    requires QueueOk(c, k) && c.wr.Running? && c.queue != []
    ensures c.queue[0].tag == k && Of(c.queue, k) == [c.queue[0]] + Of(c.queue[1..], k)
    ensures c.queue[0].msg.Data? ==> QueueOk(c.(queue := c.queue[1..]), k)
    ensures c.queue[0].msg.Data? && HasClose(c.queue, k) ==> HasClose(c.queue[1..], k)
  {
    var q, r := c.queue, c.queue[1..];
    OfHead(q, k);
    assert q[..0] == [];
    if q[0].msg.Data? {
      forall i | 0 <= i < |r| && HasClose(q[..i + 1], k)
        ensures HasClose(r[..i], k)
      {
        var h :| 0 <= h < i + 1 && q[..i + 1][h].msg.Close? && q[..i + 1][h].tag == k;
        assert r[..i][h - 1] == q[..i + 1][h];
      }
      if HasClose(q, k) {
        var h :| 0 <= h < |q| && q[h].msg.Close? && q[h].tag == k;
        assert r[h - 1] == q[h];
      }
      forall i | 0 <= i < |r| && r[i].tag != k
        ensures HasClose(r[..i], k)
      {
        assert q[i + 1].tag != k;
      }
    }
  }

  lemma LaneWrites(snd: Endpoint, wire: seq<Frame>, rcv: Endpoint, whole: bool, j: nat)
    requires LaneOk(snd, wire, rcv, whole) && CanWrite(rcv, j)
    ensures LaneOk(snd, wire, DoWrite(rcv, j), whole)
  {
    hide Of, GoodTrack, WriterOk, Back, Front, HeldOk;
    var rcv' := DoWrite(rcv, j);
    forall k | 0 <= k < |snd.socks|
      ensures LaneAt(snd, wire, rcv', k, whole)
    {
      assert LaneAt(snd, wire, rcv, k, whole);
      WriteKeepsWriter(rcv, j, k);
      LaneAtKeeps(snd, wire, rcv, rcv', k, whole);
    }
    assert LaneAt(snd, wire, rcv, j, whole);
    WriteKeepsHeld(rcv, j);
  }

  lemma WriteKeepsWriter(rcv: Endpoint, j: nat, k: nat)
    requires CanWrite(rcv, j) && k < |rcv.socks| && WriterOk(rcv, k)
    ensures WriterOk(DoWrite(rcv, j), k) && Back(DoWrite(rcv, j), k) == Back(rcv, k)
  {
    hide Of, HasClose;
    if k == j {
      var c := rcv.socks[k];
      LeavesQueue(c, k);
      assert Closed(c.log + [c.queue[0]]) <==> Closed(c.log);
      Advanced(Of(rcv.missed, k), c.log, c.queue[0], Of(c.queue[1..], k), HeldFor(rcv.sess, k));
    }
  }

  lemma WriteKeepsHeld(rcv: Endpoint, j: nat)
    requires CanWrite(rcv, j) && HeldOk(rcv) && WriterOk(rcv, j)
    ensures HeldOk(DoWrite(rcv, j))
  {
    hide HasClose, QueueOk;
    LeavesQueue(rcv.socks[j], j);
  }

  /** A frame goes from the front of the queue to the end of the log. */
  lemma Advanced(missed: seq<Frame>, log: seq<Frame>, f: Frame, queue: seq<Frame>, held: seq<Frame>)
    ensures missed + (log + [f]) + queue + held == missed + log + ([f] + queue) + held
  {
  }

  lemma LaneShuts(snd: Endpoint, wire: seq<Frame>, rcv: Endpoint, whole: bool, j: nat)
    requires LaneOk(snd, wire, rcv, whole) && CanShut(rcv, j)
    ensures LaneOk(snd, wire, DoShut(rcv, j), whole)
  {
    hide Of, GoodTrack, WriterOk, Back, Front, HeldOk;
    var rcv' := DoShut(rcv, j);
    forall k | 0 <= k < |snd.socks|
      ensures LaneAt(snd, wire, rcv', k, whole)
    {
      assert LaneAt(snd, wire, rcv, k, whole);
      ShutKeepsWriter(rcv, j, k);
      LaneAtKeeps(snd, wire, rcv, rcv', k, whole);
    }
    ShutKeepsHeld(rcv, j);
  }

  lemma ShutKeepsWriter(rcv: Endpoint, j: nat, k: nat)
    requires CanShut(rcv, j) && k < |rcv.socks| && WriterOk(rcv, k)
    ensures WriterOk(DoShut(rcv, j), k) && Back(DoShut(rcv, j), k) == Back(rcv, k)
  {
    hide Of, HasClose;
    if k == j {
      var c := rcv.socks[k];
      LeavesQueue(c, k);
      assert Closed(c.log + [c.queue[0]]);
      Advanced(Of(rcv.missed, k), c.log, c.queue[0], Of(c.queue[1..], k), HeldFor(rcv.sess, k));
    }
  }

  lemma ShutKeepsHeld(rcv: Endpoint, j: nat)
    requires CanShut(rcv, j) && HeldOk(rcv)
    ensures HeldOk(DoShut(rcv, j))
  {
    hide HasClose;
  }

  /** A writer that has been told to stop has nothing left anywhere on its track. */
  lemma StoppedTrack(snd: Endpoint, wire: seq<Frame>, rcv: Endpoint, whole: bool, k: nat)
    requires LaneOk(snd, wire, rcv, whole) && k < |rcv.socks| && Closed(rcv.socks[k].log)
    ensures Of(rcv.socks[k].queue, k) == [] && HeldFor(rcv.sess, k) == [] && Front(snd, wire, k) == []
    ensures Track(snd, wire, rcv, k) == Of(rcv.missed, k) + rcv.socks[k].log
    ensures Finished(snd.socks[k])
  {
    assert LaneAt(snd, wire, rcv, k, whole);
    var t := Track(snd, wire, rcv, k);
    var i := |Of(rcv.missed, k)| + |rcv.socks[k].log| - 1;
    assert t[i].msg.Close?;
    assert FrameOk(t[i], snd.socks[k], k);
  }

  lemma LaneRemoves(snd: Endpoint, wire: seq<Frame>, rcv: Endpoint, whole: bool, j: nat)
    requires LaneOk(snd, wire, rcv, whole) && CanRemove(rcv, j)
    ensures LaneOk(snd, wire, DoRemove(rcv, j), whole)
  {
    hide Of, GoodTrack, WriterOk, Back, Front, HeldOk, HeldFor, Closed;
    var rcv' := DoRemove(rcv, j);
    assert LaneAt(snd, wire, rcv, j, whole);
    ExitingIsClosed(rcv, j);
    StoppedTrack(snd, wire, rcv, whole, j);
    forall k | 0 <= k < |snd.socks|
      ensures LaneAt(snd, wire, rcv', k, whole)
    {
      assert LaneAt(snd, wire, rcv, k, whole);
      RemoveKeepsWriter(rcv, j, k);
      LaneAtKeeps(snd, wire, rcv, rcv', k, whole);
    }
    RemoveKeepsHeld(rcv, j);
  }

  lemma ExitingIsClosed(rcv: Endpoint, j: nat)
    requires CanRemove(rcv, j) && WriterOk(rcv, j)
    ensures Closed(rcv.socks[j].log)
  {
  }

  lemma RemoveKeepsWriter(rcv: Endpoint, j: nat, k: nat)
    requires CanRemove(rcv, j) && k < |rcv.socks| && WriterOk(rcv, k) && WriterOk(rcv, j)
    requires Of(rcv.socks[j].queue, j) == []
    ensures WriterOk(DoRemove(rcv, j), k) && Back(DoRemove(rcv, j), k) == Back(rcv, k)
  {
    hide HasClose;
    if k != j && Live(rcv.socks[k]) {
      assert rcv.conns[rcv.socks[j].id] == j;
    }
  }

  lemma RemoveKeepsHeld(rcv: Endpoint, j: nat)
    requires CanRemove(rcv, j) && HeldOk(rcv)
    ensures HeldOk(DoRemove(rcv, j))
  {
    hide HasClose;
  }

  /** A connection is registered under an id that the map does not hold. */
  lemma LaneSpawns(snd: Endpoint, wire: seq<Frame>, rcv: Endpoint, whole: bool, j: nat, sess: Session)
    requires LaneOk(snd, wire, rcv, whole)
    requires j < |rcv.socks| && rcv.socks[j].wr.Absent? && rcv.socks[j].id !in rcv.conns
    requires forall k | 0 <= k < |rcv.socks| :: HeldFor(sess, k) == HeldFor(rcv.sess, k)
    requires sess.Deliver? ==> sess == rcv.sess && sess.to != j
    requires rcv.socks[j].queue == []
    ensures LaneOk(snd, wire, Spawn(rcv, j).(sess := sess), whole)
  {
    hide Of, GoodTrack, WriterOk, Back, Front, HeldOk, HeldFor;
    var rcv' := Spawn(rcv, j).(sess := sess);
    forall k | 0 <= k < |snd.socks|
      ensures LaneAt(snd, wire, rcv', k, whole)
    {
      assert LaneAt(snd, wire, rcv, k, whole);
      SpawnKeepsWriter(rcv, j, k, sess);
      LaneAtKeeps(snd, wire, rcv, rcv', k, whole);
    }
    SpawnKeepsHeld(rcv, j, sess);
  }

  lemma SpawnKeepsWriter(rcv: Endpoint, j: nat, k: nat, sess: Session)
    requires j < |rcv.socks| && rcv.socks[j].wr.Absent? && rcv.socks[j].id !in rcv.conns && rcv.socks[j].queue == []
    requires k < |rcv.socks| && WriterOk(rcv, k) && HeldFor(sess, k) == HeldFor(rcv.sess, k)
    ensures var rcv' := Spawn(rcv, j).(sess := sess);
      WriterOk(rcv', k) && Back(rcv', k) == Back(rcv, k)
  {
    hide Of, HasClose, HeldFor;
  }

  lemma SpawnKeepsHeld(rcv: Endpoint, j: nat, sess: Session)
    requires j < |rcv.socks| && HeldOk(rcv) && (sess.Deliver? ==> sess == rcv.sess && sess.to != j)
    ensures HeldOk(Spawn(rcv, j).(sess := sess))
  {
    hide HasClose;
  }

  // ---------------------------------------------------------------- steps that do not concern the lane

  /** The sending endpoint does something else. */
  lemma LaneSenderElsewhere(snd: Endpoint, snd': Endpoint, wire: seq<Frame>, rcv: Endpoint, whole: bool)
    requires LaneOk(snd, wire, rcv, whole)
    requires |snd'.socks| == |snd.socks| && snd'.out == snd.out
    requires snd'.sess == snd.sess || (!snd.sess.Emit? && !snd'.sess.Emit?)
    requires forall k | 0 <= k < |snd.socks| ::
      var c, c' := snd.socks[k], snd'.socks[k];
      c'.id == c.id && c'.got == c.got && (c'.rd == c.rd || (!c.rd.Holding? && !c'.rd.Holding? && !Finished(c)))
    ensures LaneOk(snd', wire, rcv, whole)
  {
    hide Of, GoodTrack, WriterOk, HeldOk;
    forall k | 0 <= k < |snd.socks|
      ensures LaneAt(snd', wire, rcv, k, whole)
    {
      assert LaneAt(snd, wire, rcv, k, whole);
      assert Pending(snd', k) == Pending(snd, k);
      TrackKeeps(Track(snd, wire, rcv, k), snd.socks[k], snd'.socks[k], k, whole);
    }
  }

  /** The receiving endpoint does something else. */
  lemma LaneReceiverElsewhere(snd: Endpoint, wire: seq<Frame>, rcv: Endpoint, rcv': Endpoint, whole: bool)
    requires LaneOk(snd, wire, rcv, whole)
    requires |rcv'.socks| == |rcv.socks| && rcv'.conns == rcv.conns && rcv'.missed == rcv.missed
    requires forall k | 0 <= k < |rcv.socks| :: HeldFor(rcv'.sess, k) == HeldFor(rcv.sess, k)
    requires rcv'.sess == rcv.sess || !rcv'.sess.Deliver?
    requires forall k | 0 <= k < |rcv.socks| ::
      var c, c' := rcv.socks[k], rcv'.socks[k];
      c'.id == c.id && c'.wr == c.wr && c'.queue == c.queue && c'.log == c.log
    ensures LaneOk(snd, wire, rcv', whole)
  {
    hide Of, GoodTrack, Front, HeldFor;
    forall k | 0 <= k < |snd.socks|
      ensures LaneAt(snd, wire, rcv', k, whole)
    {
      assert LaneAt(snd, wire, rcv, k, whole);
      LaneAtKeeps(snd, wire, rcv, rcv', k, whole);
    }
  }

  /** A new connection has an empty track. */
  lemma LaneGrows(snd: Endpoint, wire: seq<Frame>, rcv: Endpoint, whole: bool, id: ConnId)
    requires LaneOk(snd, wire, rcv, whole)
    requires EndpointOk(snd) && EndpointOk(rcv) && Tagged(wire, snd.socks)
    ensures LaneOk(snd.(socks := snd.socks + [NewConn(id)]), wire, rcv.(socks := rcv.socks + [NewConn(id)]), whole)
  {
    hide Of, GoodTrack, WriterOk, Back, Front, HeldOk;
    var snd', rcv' := snd.(socks := snd.socks + [NewConn(id)]), rcv.(socks := rcv.socks + [NewConn(id)]);
    forall k | 0 <= k < |snd'.socks|
      ensures LaneAt(snd', wire, rcv', k, whole)
    {
      if k < |snd.socks| {
        assert LaneAt(snd, wire, rcv, k, whole);
        OldTrack(snd, wire, rcv, k, id);
      } else {
        NewTrack(snd, wire, rcv, id);
        EmptyTrackIsGood(snd'.socks[k], k, whole);
      }
    }
    GrowKeepsHeld(rcv, id);
  }

  lemma OldTrack(snd: Endpoint, wire: seq<Frame>, rcv: Endpoint, k: nat, id: ConnId)
    requires k < |snd.socks| && k < |rcv.socks|
    ensures var snd', rcv' := snd.(socks := snd.socks + [NewConn(id)]), rcv.(socks := rcv.socks + [NewConn(id)]);
      && Track(snd', wire, rcv', k) == Track(snd, wire, rcv, k)
      && (WriterOk(rcv, k) ==> WriterOk(rcv', k))
  {
    hide Of, HasClose;
  }

  lemma NewTrack(snd: Endpoint, wire: seq<Frame>, rcv: Endpoint, id: ConnId)
    requires |snd.socks| == |rcv.socks| && EndpointOk(snd) && EndpointOk(rcv) && Tagged(wire, snd.socks)
    ensures var k, snd', rcv' := |snd.socks|, snd.(socks := snd.socks + [NewConn(id)]),
                                 rcv.(socks := rcv.socks + [NewConn(id)]);
      WriterOk(rcv', k) && Track(snd', wire, rcv', k) == []
  {
    var k := |snd.socks|;
    OfNone(rcv.missed, k);
    OfNone(wire + snd.out, k);
    assert snd.sess.Emit? ==> [snd.sess.frame][0].tag < k;
    assert Of([], k) == [];
  }

  lemma EmptyTrackIsGood(c: Conn, k: nat, whole: bool)
    requires c.got == []
    ensures GoodTrack([], c, k, whole)
  {
  }

  lemma GrowKeepsHeld(rcv: Endpoint, id: ConnId)
    requires HeldOk(rcv)
    ensures HeldOk(rcv.(socks := rcv.socks + [NewConn(id)]))
  {
    hide HasClose;
  }

  // ---------------------------------------------------------------- steps a sound lane rules out

  /** In a sound lane the writer that a frame of its own was routed to has not stopped: the send cannot fail. */
  lemma NeverOrphaned(snd: Endpoint, wire: seq<Frame>, rcv: Endpoint, whole: bool)
    requires LaneOk(snd, wire, rcv, whole)
    requires rcv.sess.Deliver? ==> rcv.sess.frame.tag == rcv.sess.to
    ensures !CanOrphan(rcv)
  {
    if CanOrphan(rcv) {
      assert LaneAt(snd, wire, rcv, rcv.sess.to, whole);
      StoppedTrack(snd, wire, rcv, whole, rcv.sess.to);
    }
  }

  /** A running writer has its sender in the map: its channel never runs dry for good. */
  lemma NeverStarved(snd: Endpoint, wire: seq<Frame>, rcv: Endpoint, whole: bool, k: nat)
    requires LaneOk(snd, wire, rcv, whole)
    ensures !CanStarve(rcv, k)
  {
    if k < |rcv.socks| {
      assert LaneAt(snd, wire, rcv, k, whole);
    }
  }
}
