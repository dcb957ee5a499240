/** What each kind of task may touch. */
module TunnelFootprint {
  import opened Common
  import opened TunnelModel

  predicate ByReader(a: Action) {
    a.Read? || a.SendData? || a.Eof? || a.SendClose?
  }

  predicate ByWriter(a: Action) {
    a.Write? || a.WriteErr? || a.Shut? || a.Starve? || a.Remove?
  }

  /** The session loop with a frame in its hands. */
  predicate BySession(a: Action) {
    a.Enqueue? || a.Orphan? || a.EmitOut?
  }

  predicate ByLink(a: Action) {
    a.Drain? || a.SendFail? || a.Lose? || a.Disconnect? || a.Reconnect?
  }

  /** Steps of one endpoint, other than taking a frame off the other's link. */
  ghost predicate OfOneEndpoint(a: Action) {
    ByReader(a) || ByWriter(a) || BySession(a) || ByLink(a)
  }

  lemma ReaderTouches(s: State, a: Action)
    requires Enabled(s, a) && ByReader(a)
    ensures var e, e' := s.Ep(a.side), Next(s, a).Ep(a.side);
      && Next(s, a) == s.WithEp(a.side, e')
      && a.k < |e.socks| && |e'.socks| == |e.socks|
      && e' == e.(socks := e.socks[a.k := e'.socks[a.k]], out := e'.out, tx := e'.tx)
      && e.out <= e'.out && (a.Read? || a.Eof? ==> e'.out == e.out)
      && (e'.out != e.out ==> |e.out| < OUT_QUEUE)
  {
  }

  /** A reader changes its own state and what it has read, and queues at most the one frame it has to send. */
  lemma ReaderChanges(s: State, a: Action)
    requires Enabled(s, a) && ByReader(a)
    ensures var e, e' := s.Ep(a.side), Next(s, a).Ep(a.side);
      && a.k < |e.socks| && |e'.socks| == |e.socks|
      && var c, c' := e.socks[a.k], e'.socks[a.k];
      && c' == c.(rd := c'.rd, got := c'.got) && c.got <= c'.got
      && (c.rd.Reading? || c.rd.Holding? || c.rd.Ended?)
      && (c'.rd.Reading? || c'.rd.Holding? || c'.rd.Ended? || c'.rd.Done?)
      && (c'.rd.Done? <==> a.SendClose?)
      && (a.SendClose? ==> e'.out == e.out + [Frame(c.id, a.k, Close)])
      && (a.SendData? ==> c.got != [] && e'.out == e.out + [HeldData(c, a.k)])
  {
  }

  lemma WriterTouches(s: State, a: Action)
    requires Enabled(s, a) && ByWriter(a)
    ensures var e, e' := s.Ep(a.side), Next(s, a).Ep(a.side);
      && Next(s, a) == s.WithEp(a.side, e')
      && a.k < |e.socks| && |e'.socks| == |e.socks|
      && e' == e.(conns := e'.conns, socks := e.socks[a.k := e'.socks[a.k]], rx := e'.rx, spilt := e'.spilt)
      && e'.conns == (if a.Remove? then e.conns - {e.socks[a.k].id} else e.conns)
  {
  }

  lemma WriterChanges(s: State, a: Action)
    requires Enabled(s, a) && ByWriter(a)
    ensures var e, e' := s.Ep(a.side), Next(s, a).Ep(a.side);
      && a.k < |e.socks| && |e'.socks| == |e.socks|
      && var c, c' := e.socks[a.k], e'.socks[a.k];
      && c' == c.(wr := c'.wr, queue := c'.queue, log := c'.log) && c.log <= c'.log
      && (c.wr.Running? || c.wr.Exiting?) && !c'.wr.Absent?
      && (a.Remove? <==> c'.wr.Gone?) && (a.Remove? <==> c.wr.Exiting?)
  {
  }

  lemma SessionTouches(s: State, a: Action)
    requires Enabled(s, a) && BySession(a)
    ensures var e, e' := s.Ep(a.side), Next(s, a).Ep(a.side);
      && Next(s, a) == s.WithEp(a.side, e')
      && |e'.socks| == |e.socks|
      && e' == e.(conns := e'.conns, socks := e'.socks, sess := e'.sess, out := e'.out, spilt := e'.spilt)
      && (if a.EmitOut? then e.sess.Emit? && e'.out == e.out + [e.sess.frame] && |e.out| < OUT_QUEUE else
            e.sess.Deliver? && e'.out == e.out)
      && (if a.Orphan? && e.sess.frame.msg.Data? then
            e'.conns == e.conns - {e.sess.frame.id} && e'.sess == Emit(Frame(e.sess.frame.id, e.sess.frame.tag, Close))
          else e'.conns == e.conns && e'.sess.Ready?)
  {
  }

  /** The session loop adds to one queue, or notes down that it has answered. */
  lemma SessionChanges(s: State, a: Action)
    requires Enabled(s, a) && BySession(a)
    ensures var e, e' := s.Ep(a.side), Next(s, a).Ep(a.side);
      match a
      case Enqueue(_) => e.sess.Deliver? && e.sess.to < |e.socks| &&
        e'.socks == e.socks[e.sess.to := e.socks[e.sess.to].(queue := e.socks[e.sess.to].queue + [e.sess.frame])]
      case Orphan(_) => e.sess.Deliver? && e.sess.frame.tag < |e.socks| &&
        e'.socks == (if e.sess.frame.msg.Data?
                     then e.socks[e.sess.frame.tag := Answer(e.socks[e.sess.frame.tag])] else e.socks)
      case _ => e'.socks == e.socks
  {
  }

  lemma LinkTouches(s: State, a: Action)
    requires Enabled(s, a) && ByLink(a)
    ensures var e, e', s' := s.Ep(a.side), Next(s, a).Ep(a.side), Next(s, a);
      && s' == s.WithEp(a.side, e').WithWire(a.side, s'.Wire(a.side)).WithLost(a.side, s'.Lost(a.side))
      && e' == e.(out := e'.out, up := e'.up)
      && (!a.Drain? && !a.SendFail? ==> e'.out == e.out)
      && (!a.Drain? && !a.Lose? ==> s'.Wire(a.side) == s.Wire(a.side))
      && (!a.SendFail? && !a.Lose? ==> s'.Lost(a.side) == s.Lost(a.side))
      && s.Lost(a.side) <= s'.Lost(a.side)
      && (!e.up ==> a.Lose? || a.Reconnect?) && (e'.up && !e.up ==> a.Reconnect?)
      && (a.Drain? || a.SendFail? || a.Disconnect? ==> e.sess.Ready?)
  {
  }

  /** A step of one endpoint keeps its sockets in place; unless it is one of the link, it changes nothing else. */
  lemma OneTouches(s: State, a: Action)
    requires Enabled(s, a) && OfOneEndpoint(a)
    ensures |Next(s, a).Ep(a.side).socks| == |s.Ep(a.side).socks|
    ensures !ByLink(a) ==> Next(s, a) == s.WithEp(a.side, Next(s, a).Ep(a.side))
  {
    hide Enabled, Next;
    if ByReader(a) {
      ReaderTouches(s, a);
    } else if ByWriter(a) {
      WriterTouches(s, a);
    } else if BySession(a) {
      SessionTouches(s, a);
    } else {
      LinkTouches(s, a);
    }
  }

  lemma OtherRests(s: State, a: Action, side: Side)
    requires Enabled(s, a) && OfOneEndpoint(a) && a.side != side
    ensures Next(s, a).Ep(side) == s.Ep(side)
  {
    hide Enabled, Next, ByReader, ByWriter, BySession;
    OneTouches(s, a);
    if ByLink(a) {
      LinkTouches(s, a);
    }
  }

  lemma LinksRest(s: State, a: Action, side: Side)
    requires Enabled(s, a) && OfOneEndpoint(a) && (a.side != side || !ByLink(a))
    ensures Next(s, a).Wire(side) == s.Wire(side) && Next(s, a).Lost(side) == s.Lost(side)
  {
    hide Enabled, Next, ByReader, ByWriter, BySession;
    OneTouches(s, a);
    if ByLink(a) {
      LinkTouches(s, a);
    }
  }

  lemma AcceptorRests(s: State, a: Action)
    requires Enabled(s, a) && OfOneEndpoint(a)
    ensures Next(s, a).acc == s.acc
    ensures |Next(s, a).home.socks| == |s.home.socks| && |Next(s, a).gate.socks| == |s.gate.socks|
  {
    hide Enabled, Next, ByReader, ByWriter, BySession;
    OneTouches(s, a);
    if ByLink(a) {
      LinkTouches(s, a);
    }
  }
}
