/**
 The tasks of one process as methods on its shared state. Each method is what a task does between two waits and is
 proved to make exactly the step of TunnelModel of the same name; the loops run such steps to the next wait.
 */
module TunnelTasks {
  import opened Common
  import opened Allocator
  import opened TunnelModel
  import opened TunnelTheorems
  import opened TunnelReuse
  import opened TunnelTrack
  import Bytes = TunnelBytes

  /** What a writer does when it is left alone and write number `good` fails: it runs until it waits or has left. */
  function WriterRuns(e: Endpoint, k: nat, good: nat): Endpoint
    requires k < |e.socks|
    decreases |e.socks[k].queue|
  {
    if CanWrite(e, k) then
      if good == 0 then DoRemove(DoWriteErr(e, k), k) else WriterRuns(DoWrite(e, k), k, good - 1)
    else if CanShut(e, k) then DoRemove(DoShut(e, k), k)
    else if CanStarve(e, k) then DoRemove(DoStarve(e, k), k)
    else e
  }

  /** The queue up to and including the first Shutdown, as far as writes do not fail. */
  function Taken(q: seq<Frame>, good: nat): seq<Frame> {
    if q == [] then []
    else if q[0].msg.Close? then [q[0]]
    else if good == 0 then []
    else [q[0]] + Taken(q[1..], good - 1)
  }

  /** What is still in the queue when the writer has dealt with `t`: a chunk whose write failed is gone. */
  function LeftBehind(q: seq<Frame>, t: seq<Frame>): seq<Frame>
    requires |t| <= |q|
  {
    if Closed(t) || |t| == |q| then q[|t|..] else q[|t| + 1..]
  }

  /** The chunk whose write failed. */
  function Unwritten(q: seq<Frame>, t: seq<Frame>): nat
    requires |t| <= |q|
  {
    if Closed(t) || |t| == |q| then 0 else PayloadSize(q[|t|])
  }

  lemma {:induction false} TakenIsFront(q: seq<Frame>, good: nat)
    ensures |Taken(q, good)| <= |q|
    decreases |q|
  {
    if q != [] && !q[0].msg.Close? && good > 0 {
      TakenIsFront(q[1..], good - 1);
    }
  }

  /**
   A writer left alone deals with its queue in order up to Shutdown or a failing write. It gives up its entry exactly
   then, or if it has come to the end of its queue and there is no sender left. RX_BYTES grows by what it has written
   and by the chunk whose write failed; what it leaves in the queue is thrown away.
   */
  lemma WriterRunsInOrder(e: Endpoint, k: nat, good: nat)
    requires k < |e.socks| && e.socks[k].wr.Running?
    requires forall i | 0 <= i < |e.socks[k].queue| :: !e.socks[k].queue[i].msg.Open?
    ensures var q, t, e' := e.socks[k].queue, Taken(e.socks[k].queue, good), WriterRuns(e, k, good);
      && |e'.socks| == |e.socks| && e'.socks == e.socks[k := e'.socks[k]]
      && e'.socks[k].log == e.socks[k].log + t && e'.socks[k].id == e.socks[k].id
      && (e'.socks[k].wr.Gone? <==> Closed(t) || |t| < |q| || !HasSender(e, k))
      && (e'.socks[k].wr.Gone? ==> e'.conns == e.conns - {e.socks[k].id} && e'.socks[k].queue == [])
      && (!e'.socks[k].wr.Gone? ==>
            e'.socks[k] == e.socks[k].(queue := [], log := e'.socks[k].log) && e'.conns == e.conns)
      && e'.sess == e.sess && e'.out == e.out && e'.up == e.up && e'.missed == e.missed && e'.tx == e.tx
      && |t| <= |q|
      && e'.rx == e.rx + Size(t) + Unwritten(q, t) && e'.spilt == e.spilt + Size(LeftBehind(q, t))
  {
    hide WriterRuns, Taken, Closed, HasSender;
    WriterLogsInOrder(e, k, good);
    WriterCounts(e, k, good);
  }

  lemma {:induction false} WriterLogsInOrder(e: Endpoint, k: nat, good: nat)
    requires k < |e.socks| && e.socks[k].wr.Running?
    requires forall i | 0 <= i < |e.socks[k].queue| :: !e.socks[k].queue[i].msg.Open?
    ensures var q, t, e' := e.socks[k].queue, Taken(e.socks[k].queue, good), WriterRuns(e, k, good);
      && |e'.socks| == |e.socks| && e'.socks == e.socks[k := e'.socks[k]]
      && e'.socks[k].log == e.socks[k].log + t && e'.socks[k].id == e.socks[k].id
      && (e'.socks[k].wr.Gone? <==> Closed(t) || |t| < |q| || !HasSender(e, k))
      && (e'.socks[k].wr.Gone? ==> e'.conns == e.conns - {e.socks[k].id} && e'.socks[k].queue == [])
      && (!e'.socks[k].wr.Gone? ==>
            e'.socks[k] == e.socks[k].(queue := [], log := e'.socks[k].log) && e'.conns == e.conns)
      && e'.sess == e.sess && e'.out == e.out && e'.up == e.up && e'.missed == e.missed && e'.tx == e.tx
    decreases |e.socks[k].queue|
  {
    hide Size, PayloadSize, HasSender;
    var q := e.socks[k].queue;
    if CanWrite(e, k) && good > 0 {
      SenderStays(e, k);
      WriterLogsInOrder(DoWrite(e, k), k, good - 1);
      RunsOn(e.socks[k].log, q, good);
    }
  }

  lemma SenderStays(e: Endpoint, k: nat)
    requires CanWrite(e, k)
    ensures HasSender(DoWrite(e, k), k) <==> HasSender(e, k)
  {
  }

  lemma {:induction false} WriterCounts(e: Endpoint, k: nat, good: nat)
    requires k < |e.socks| && e.socks[k].wr.Running?
    requires forall i | 0 <= i < |e.socks[k].queue| :: !e.socks[k].queue[i].msg.Open?
    ensures var q, t, e' := e.socks[k].queue, Taken(e.socks[k].queue, good), WriterRuns(e, k, good);
      && |t| <= |q|
      && e'.rx == e.rx + Size(t) + Unwritten(q, t) && e'.spilt == e.spilt + Size(LeftBehind(q, t))
    decreases |e.socks[k].queue|
  {
    hide Size, PayloadSize;
    var q := e.socks[k].queue;
    if CanWrite(e, k) && good > 0 {
      WriterCounts(DoWrite(e, k), k, good - 1);
      CountsOn(q, good);
    } else {
      LastCounts(q, good);
    }
  }

  /** What a writer counts if it goes no further. */
  lemma LastCounts(q: seq<Frame>, good: nat)
    requires q != [] && !q[0].msg.Close? ==> good == 0
    ensures |Taken(q, good)| <= |q|
    ensures q != [] && q[0].msg.Close? ==> Size(Taken(q, good)) == 0 && LeftBehind(q, Taken(q, good)) == q[1..]
    ensures q == [] || !q[0].msg.Close? ==> Size(Taken(q, good)) == 0
    ensures q != [] && !q[0].msg.Close? ==> LeftBehind(q, Taken(q, good)) == q[1..]
    ensures q == [] ==> Size(LeftBehind(q, Taken(q, good))) == 0
    ensures Unwritten(q, Taken(q, good)) == if q == [] || q[0].msg.Close? then 0 else PayloadSize(q[0])
  {
  }

  lemma CountsOn(q: seq<Frame>, good: nat)
    requires q != [] && !q[0].msg.Close? && good > 0
    ensures |Taken(q, good)| <= |q| && |Taken(q[1..], good - 1)| <= |q[1..]|
    ensures Size(Taken(q, good)) == PayloadSize(q[0]) + Size(Taken(q[1..], good - 1))
    ensures Unwritten(q, Taken(q, good)) == Unwritten(q[1..], Taken(q[1..], good - 1))
    ensures LeftBehind(q, Taken(q, good)) == LeftBehind(q[1..], Taken(q[1..], good - 1))
  {
    hide Size, PayloadSize, Unwritten, LeftBehind, Closed, Taken;
    TakenIsFront(q, good);
    TakenIsFront(q[1..], good - 1);
    TakenMore(q, good);
    CountsBehind(q[0], Taken(q[1..], good - 1), q[1..]);
    assert q == [q[0]] + q[1..];
  }

  lemma TakenMore(q: seq<Frame>, good: nat)
    requires q != [] && !q[0].msg.Close? && good > 0
    ensures Taken(q, good) == [q[0]] + Taken(q[1..], good - 1)
  {
  }

  lemma CountsBehind(f: Frame, t: seq<Frame>, q: seq<Frame>)
    requires |t| <= |q| && !f.msg.Close?
    ensures Size([f] + t) == PayloadSize(f) + Size(t)
    ensures Unwritten([f] + q, [f] + t) == Unwritten(q, t)
    ensures LeftBehind([f] + q, [f] + t) == LeftBehind(q, t)
  {
    hide Size, PayloadSize, Closed;
    assert ([f] + t)[1..] == t;
    Bytes.SizeTail([f] + t);
    ClosedBehind(f, t);
    BehindOne(f, q, |t|);
    if |t| < |q| {
      BehindOne(f, q, |t| + 1);
    }
  }

  lemma BehindOne(f: Frame, q: seq<Frame>, n: nat)
    requires n <= |q|
    ensures ([f] + q)[n + 1..] == q[n..]
  {
  }

  lemma RunsOn(log: seq<Frame>, q: seq<Frame>, good: nat)
    requires q != [] && !q[0].msg.Close? && good > 0
    ensures log + Taken(q, good) == (log + [q[0]]) + Taken(q[1..], good - 1)
    ensures Closed(Taken(q, good)) <==> Closed(Taken(q[1..], good - 1))
    ensures |Taken(q, good)| < |q| <==> |Taken(q[1..], good - 1)| < |q[1..]|
  {
    var t := Taken(q[1..], good - 1);
    assert Taken(q, good) == [q[0]] + t;
    Regroup(log, q[0], t);
    ClosedBehind(q[0], t);
  }

  lemma Regroup(log: seq<Frame>, f: Frame, t: seq<Frame>)
    ensures log + ([f] + t) == (log + [f]) + t
  {
  }

  lemma ClosedBehind(f: Frame, t: seq<Frame>)
    requires !f.msg.Close?
    ensures Closed([f] + t) <==> Closed(t)
  {
  }

  /** What `WriterRuns` does is done by a run of the tunnel in which nothing else happens. */
  lemma {:induction false} WriterRunsInSteps(r: Rules, s: State, side: Side, k: nat, good: nat)
    requires k < |s.Ep(side).socks|
    requires r.Anything? || (r.NoWriteFails? && |s.Ep(side).socks[k].queue| <= good)
    ensures Reaches(r, s, s.WithEp(side, WriterRuns(s.Ep(side), k, good)))
    decreases |s.Ep(side).socks[k].queue|
  {
    hide Reaches;
    var e := s.Ep(side);
    Stay(r, s);
    if CanWrite(e, k) && good > 0 {
      var s' := s.WithEp(side, DoWrite(e, k));
      Go(r, s, Write(side, k));
      WriterRunsInSteps(r, s', side, k, good - 1);
      WithTwice(s, side, DoWrite(e, k), WriterRuns(DoWrite(e, k), k, good - 1));
      Join(r, s, s', s.WithEp(side, WriterRuns(DoWrite(e, k), k, good - 1)));
    } else if CanWrite(e, k) || CanShut(e, k) || CanStarve(e, k) {
      WriterLeaves(r, s, side, k);
    } else {
      WithTwice(s, side, e, e);
    }
  }

  /** A writer leaves its loop and gives up its entry. */
  lemma WriterLeaves(r: Rules, s: State, side: Side, k: nat)
    requires k < |s.Ep(side).socks| && (r.Anything? || r.NoWriteFails?)
    requires (CanWrite(s.Ep(side), k) && r.Anything?) || CanShut(s.Ep(side), k) || CanStarve(s.Ep(side), k)
    ensures var e := s.Ep(side);
      var e' := if CanWrite(e, k) then DoWriteErr(e, k) else if CanShut(e, k) then DoShut(e, k) else DoStarve(e, k);
      Reaches(r, s, s.WithEp(side, DoRemove(e', k)))
  {
    hide Reaches;
    var e := s.Ep(side);
    var a := if CanWrite(e, k) then WriteErr(side, k) else if CanShut(e, k) then Shut(side, k) else Starve(side, k);
    var e' := if CanWrite(e, k) then DoWriteErr(e, k) else if CanShut(e, k) then DoShut(e, k) else DoStarve(e, k);
    var s' := s.WithEp(side, e');
    assert Next(s, a) == s';
    Go(r, s, a);
    WithTwice(s, side, e', DoRemove(e', k));
    Go(r, s', Remove(side, k));
    Join(r, s, s', s.WithEp(side, DoRemove(e', k)));
  }

  lemma WithTwice(s: State, side: Side, e: Endpoint, e': Endpoint)
    ensures s.WithEp(side, e).WithEp(side, e') == s.WithEp(side, e') && s.WithEp(side, s.Ep(side)) == s
    ensures s.WithEp(side, e).Ep(side) == e
  {
  }

  /** Everything in `out` has been sent, or `good` frames have, and the next one was lost with the connection. */
  function Drained(s: State, side: Side, good: nat): State {
    var e := s.Ep(side);
    if |e.out| <= good then s.WithEp(side, e.(out := [])).WithWire(side, s.Wire(side) + e.out)
    else
      s.WithEp(side, e.(out := e.out[good + 1..], up := false)).WithWire(side, s.Wire(side) + e.out[..good])
      .WithLost(side, s.Lost(side) + [e.out[good]])
  }

  /** Draining `out` is a run: the frames sent follow those already on the wire. */
  lemma {:induction false} DrainsInSteps(s: State, side: Side, good: nat)
    requires s.Ep(side).up && s.Ep(side).sess.Ready?
    ensures Reaches(NoWriteFails, s, Drained(s, side, good))
    decreases |s.Ep(side).out|
  {
    hide Reaches, Drained;
    var r, e := NoWriteFails, s.Ep(side);
    Stay(r, s);
    if e.out == [] {
      DrainedNothing(s, side, good);
    } else if good == 0 {
      Go(r, s, SendFail(side));
      DrainedFails(s, side);
    } else {
      Go(r, s, Drain(side));
      DrainsInSteps(Next(s, Drain(side)), side, good - 1);
      DrainedMore(s, side, good);
      Join(r, s, Next(s, Drain(side)), Drained(s, side, good));
    }
  }

  lemma DrainedNothing(s: State, side: Side, good: nat)
    requires s.Ep(side).out == []
    ensures Drained(s, side, good) == s
  {
    assert s.Wire(side) + [] == s.Wire(side);
  }

  lemma DrainedFails(s: State, side: Side)
    requires CanDrain(s.Ep(side))
    ensures Drained(s, side, 0) == Next(s, SendFail(side))
  {
    assert s.Wire(side) + s.Ep(side).out[..0] == s.Wire(side);
  }

  lemma DrainedMore(s: State, side: Side, good: nat)
    requires CanDrain(s.Ep(side)) && good > 0
    ensures Drained(Next(s, Drain(side)), side, good - 1) == Drained(s, side, good)
  {
    var w, o := s.Wire(side), s.Ep(side).out;
    assert w + [o[0]] + o[1..] == w + o;
    if good < |o| {
      assert w + [o[0]] + o[1..][..good - 1] == w + o[..good];
      assert o[1..][good..] == o[good + 1..];
    }
  }

  /** The frames that ask for something: all but DATA that carries nothing. */
  function Meant(frames: seq<Frame>): seq<Frame> {
    if frames == [] then []
    else
      var f := frames[|frames| - 1];
      Meant(frames[..|frames| - 1]) + if f.msg.Data? && f.msg.bytes == [] then [] else [f]
  }

  lemma NothingMeant()
    ensures Meant([]) == [] && Size([]) == 0
  {
  }

  lemma MeantMore(frames: seq<Frame>, f: Frame)
    ensures Size(frames + [f]) == Size(frames) + PayloadSize(f)
    ensures Meant(frames + [f]) == Meant(frames) + if f.msg.Data? && f.msg.bytes == [] then [] else [f]
  {
    assert (frames + [f])[..|frames|] == frames;
  }

  lemma TakesOne(f: Frame)
    ensures Taken([f], 1) == [f] && Size([f]) == PayloadSize(f) && Unwritten([f], [f]) == 0
    ensures Size(LeftBehind([f], [f])) == 0
  {
    assert [f][..0] == [] && [f][1..] == [];
  }

  class Process {
    var conns: map<ConnId, nat>
    var out: seq<Frame>
    var sess: Session
    var socks: seq<Conn>
    var up: bool
    var tx: nat
    var rx: nat
    var missed: seq<Frame>
    var spilt: nat

    function View(): Endpoint
      reads this
    {
      Endpoint(conns, out, sess, socks, up, tx, rx, missed, spilt)
    }

    constructor ()
      ensures View() == NewEndpoint()
    {
      conns, out, sess, socks := map[], [], Ready, [];
      up, tx, rx, missed, spilt := false, 0, 0, [], 0;
    }

    /** The id for an accepted socket: the 256-step loop of the allocator. */
    method AllocConnId(next: ConnId) returns (id: Option<ConnId>, cursor: ConnId)
      ensures (id, cursor) == Alloc(conns.Keys, next)
    {
      cursor := next;
      var tries := 0;
      while tries < ID_COUNT
        invariant 0 <= tries <= ID_COUNT
        invariant Scan(conns.Keys, next, ID_COUNT) == Scan(conns.Keys, cursor, ID_COUNT - tries)
        invariant Offset(next, cursor) == if tries == ID_COUNT then 0 else tries
      {
        var candidate := cursor;
        cursor := Succ(cursor);
        if candidate !in conns {
          return Some(candidate), cursor;
        }
        tries := tries + 1;
      }
      id := None;
    }

    method SendPeer(f: Frame)
      requires |out| < OUT_QUEUE
      modifies this`out
      ensures View() == old(View()).(out := old(out) + [f])
    {
      out := out + [f];
    }

    method SpawnConnection(k: nat)
      requires k < |socks|
      modifies this`conns, this`socks
      ensures View() == Spawn(old(View()), k)
    {
      var c := socks[k];
      conns := conns[c.id := k];
      socks := socks[k := c.(rd := Reading, wr := Running)];
    }

    method ReaderReads(k: nat, chunk: Chunk)
      requires CanRead(View(), k, chunk)
      modifies this`socks, this`tx
      ensures View() == DoRead(old(View()), k, chunk)
    {
      tx := tx + |chunk|;
      socks := socks[k := socks[k].(rd := Holding, got := socks[k].got + [chunk])];
    }

    method ReaderSends(k: nat)
      requires CanSendData(View(), k)
      modifies this`socks, this`out
      ensures View() == DoSendData(old(View()), k)
    {
      SendPeer(HeldData(socks[k], k));
      socks := socks[k := socks[k].(rd := Reading)];
    }

    method ReaderEnds(k: nat)
      requires CanEof(View(), k) && |out| < OUT_QUEUE
      modifies this`socks, this`out
      ensures CanSendClose(DoEof(old(View()), k), k) && View() == DoSendClose(DoEof(old(View()), k), k)
    {
      socks := socks[k := socks[k].(rd := Ended)];
      SendPeer(Frame(socks[k].id, k, Close));
      socks := socks[k := socks[k].(rd := Done)];
    }

    /** One incoming frame, up to the first wait. */
    method HandleIncoming(f: Frame, dials: bool)
      requires CanTake(View(), f)
      modifies this`sess, this`socks, this`missed, this`spilt
      ensures View() == DoTake(old(View()), f, dials)
    {
      match f.msg {
        case Open =>
          if dials {
            sess := Dial(f.id, f.tag);
            socks := socks[f.tag := socks[f.tag].(rd := Dialing)];
          }
        case Data(_, bytes) =>
          if bytes != [] {
            if f.id in conns {
              sess := Deliver(conns[f.id], f);
            } else {
              missed, spilt := missed + [f], spilt + |bytes|;
            }
          }
        case Close =>
          if f.id in conns {
            sess := Deliver(conns[f.id], f);
          } else {
            missed := missed + [f];
          }
      }
    }

    /** The send into the writer's queue comes through, or finds the writer gone. */
    method FinishDelivery()
      requires CanEnqueue(View()) || CanOrphan(View())
      modifies this`sess, this`socks, this`conns, this`spilt
      ensures View() == if CanEnqueue(old(View())) then DoEnqueue(old(View())) else DoOrphan(old(View()))
    {
      var f, to := sess.frame, sess.to;
      if !socks[to].wr.Gone? {
        socks := socks[to := socks[to].(queue := socks[to].queue + [f])];
        sess := Ready;
      } else if f.msg.Data? {
        conns := conns - {f.id};
        sess, spilt := Emit(Frame(f.id, f.tag, Close)), spilt + PayloadSize(f);
        socks := socks[f.tag := Answer(socks[f.tag])];
      } else {
        sess := Ready;
      }
    }

    /** `open_outbound` after the dial. */
    method FinishDial(ok: bool)
      requires CanDialEnd(View())
      modifies this`sess, this`socks, this`conns
      ensures View() == if ok then DoDialOk(old(View())) else DoDialErr(old(View()))
    {
      var k := sess.conn;
      if ok {
        SpawnConnection(k);
        sess := Ready;
      } else {
        sess := Emit(Frame(sess.id, k, Close));
        socks := socks[k := socks[k].(rd := Refused)];
      }
    }

    /** The writer task, run until it waits for more or has left; write number `good` fails. */
    method RunWriter(k: nat, good: nat)
      requires k < |socks|
      modifies this`socks, this`rx, this`conns, this`spilt
      ensures View() == WriterRuns(old(View()), k, good)
    {
      hide Size, DoRemove;
      if !socks[k].wr.Running? {
        return;
      }
      var left := good;
      while socks[k].queue != [] && socks[k].queue[0].msg.Data? && left > 0
        invariant k < |socks| && socks[k].wr.Running?
        invariant WriterRuns(View(), k, left) == WriterRuns(old(View()), k, good)
        decreases |socks[k].queue|
      {
        var c := socks[k];
        rx := rx + PayloadSize(c.queue[0]);
        socks := socks[k := c.(queue := c.queue[1..], log := c.log + [c.queue[0]])];
        left := left - 1;
      }
      var c := socks[k];
      if c.queue != [] && c.queue[0].msg.Data? {
        rx := rx + PayloadSize(c.queue[0]);
        socks := socks[k := c.(queue := c.queue[1..], wr := Exiting)];
        Leave(k);
      } else if c.queue != [] && c.queue[0].msg.Close? {
        socks := socks[k := c.(queue := c.queue[1..], log := c.log + [c.queue[0]], wr := Exiting)];
        Leave(k);
      } else if c.queue == [] && !(c.id in conns && conns[c.id] == k) && !(sess.Deliver? && sess.to == k) {
        socks := socks[k := c.(wr := Exiting)];
        Leave(k);
      }
    }

    /** The writer gives up its entry, and its queue with it. */
    method Leave(k: nat)
      requires CanRemove(View(), k)
      modifies this`socks, this`conns, this`spilt
      ensures View() == DoRemove(old(View()), k)
    {
      var c := socks[k];
      spilt := spilt + Size(c.queue);
      conns := conns - {c.id};
      socks := socks[k := c.(wr := Gone, queue := [])];
    }

    /** The session loop drains `out` for as long as nothing comes in; send number `good` fails and ends the session. */
    method DrainOut(good: nat) returns (sent: seq<Frame>, lost: Option<Frame>)
      requires up && sess.Ready?
      modifies this`out, this`up
      ensures if |old(out)| <= good then sent == old(out) && lost == None && View() == old(View()).(out := [])
              else
                && sent == old(out)[..good] && lost == Some(old(out)[good])
                && View() == old(View()).(out := old(out)[good + 1..], up := false)
    {
      sent, lost := [], None;
      while out != []
        invariant up && sess.Ready? && sent + out == old(out) && |sent| <= good
        decreases |out|
      {
        var f := out[0];
        out := out[1..];
        if |sent| == good {
          lost, up := Some(f), false;
          return;
        }
        sent := sent + [f];
      }
    }

    /** The session loop is idle, and so is the writer of connection k, which owns the entry of its id. */
    predicate Serving(k: nat)
      reads this
    {
      && up && sess.Ready? && k < |socks| && socks[k].wr.Running? && socks[k].queue == []
      && socks[k].id in conns && conns[socks[k].id] == k
    }

    /** A frame for connection k comes in, and its writer deals with it. */
    method ServeOne(k: nat, f: Frame, dials: bool)
      requires Serving(k) && f.id == socks[k].id && f.tag < |socks|
      requires (f.msg.Data? && f.msg.bytes != []) || f.msg.Close?
      modifies this`sess, this`socks, this`missed, this`spilt, this`conns, this`rx
      ensures |socks| == old(|socks|) && socks[k].log == old(socks[k].log) + [f] && socks[k].id == old(socks[k].id)
      ensures f.msg.Data? ==> Serving(k) && conns == old(conns)
      ensures f.msg.Close? ==>
        socks[k].wr.Gone? && socks[k].queue == [] && sess.Ready? && conns == old(conns) - {old(socks[k].id)}
      ensures missed == old(missed) && rx == old(rx) + PayloadSize(f) && spilt == old(spilt)
    {
      hide WriterRuns, Size, Taken, Unwritten, LeftBehind;
      HandleIncoming(f, dials);
      assert View().sess == Deliver(k, f);
      FinishDelivery();
      assert [] + [f] == [f] && View().socks[k].queue == [f];
      WriterRunsInOrder(View(), k, 1);
      TakesOne(f);
      RunWriter(k, 1);
    }

    /**
     Frames of one connection come in while its writer keeps up: what is written, and counted, is what came in. DATA
     that carries nothing has no effect.
     */
    method ServeConnection(k: nat, frames: seq<Frame>, dials: bool)
      requires Serving(k)
      requires forall i | 0 <= i < |frames| ::
        && frames[i].id == socks[k].id && frames[i].tag < |socks|
        && (frames[i].msg.Data? || (frames[i].msg.Close? && i == |frames| - 1))
      modifies this`sess, this`socks, this`missed, this`spilt, this`conns, this`rx
      ensures |socks| == old(|socks|) && socks[k].log == old(socks[k].log) + Meant(frames) && socks[k].queue == []
      ensures if Closed(frames) then socks[k].wr.Gone? && conns == old(conns) - {old(socks[k].id)}
              else Serving(k) && conns == old(conns)
      ensures sess.Ready? && missed == old(missed) && rx == old(rx) + Size(frames) && spilt == old(spilt)
    {
      hide Size, Meant;
      NothingMeant();
      for n := 0 to |frames|
        invariant |socks| == old(|socks|) && sess.Ready? && missed == old(missed)
        invariant rx == old(rx) + Size(frames[..n]) && spilt == old(spilt)
        invariant socks[k].log == old(socks[k].log) + Meant(frames[..n]) && socks[k].queue == []
        invariant socks[k].id == old(socks[k].id)
        invariant if Closed(frames[..n]) then socks[k].wr.Gone? && conns == old(conns) - {old(socks[k].id)}
                  else Serving(k) && conns == old(conns)
        invariant Closed(frames[..n]) ==> n == |frames|
      {
        MeantMore(frames[..n], frames[n]);
        if frames[n].msg.Data? && frames[n].msg.bytes == [] {
          HandleIncoming(frames[n], dials);
        } else {
          ServeOne(k, frames[n], dials);
        }
        assert frames[..n + 1] == frames[..n] + [frames[n]];
      }
      assert frames[..|frames|] == frames;
    }
  }
}
