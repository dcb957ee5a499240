/** What the tasks of the tunnel wait for, and what others cannot change while they wait. */
module TunnelWaits {
  import opened Common
  import opened Allocator
  import opened TunnelModel
  import opened TunnelFootprint
  import opened TunnelBase
  import opened TunnelTheorems

  // ---------------------------------------------------------------- who waits for what

  /** In every reachable state a reader waits for its socket or for room in `out`, and reads up to 16384 bytes. */
  lemma ReaderWaits(acts: seq<Action>, side: Side, k: nat, chunk: Chunk)
    requires Legal(Anything, Init(), acts) && k < |After(Anything, Init(), acts).Ep(side).socks|
    ensures var s := After(Anything, Init(), acts);
      var e, c := s.Ep(side), s.Ep(side).socks[k];
      && |e.out| <= 512
      && (c.rd.Reading? ==> (Enabled(s, Read(side, k, chunk)) <==> 1 <= |chunk| <= 16384) && Enabled(s, Eof(side, k)))
      && (c.rd.Holding? ==> (Enabled(s, SendData(side, k)) <==> |e.out| < 512))
      && (c.rd.Ended? ==> (Enabled(s, SendClose(side, k)) <==> |e.out| < 512))
  {
    hide Legal, After, SameIds, AcceptorOk, OpensOk, FirstRound, Tagged, EntriesOk, SessionOk, NoOpens;
    var s := ReachedBase(acts);
    assert ConnOk(s.Ep(side).socks[k]);
  }

  /** A writer waits for its queue, and stops waiting exactly if nothing can put anything into it any more. */
  lemma WriterWaits(acts: seq<Action>, side: Side, k: nat)
    requires Legal(Anything, Init(), acts) && k < |After(Anything, Init(), acts).Ep(side).socks|
    ensures var s := After(Anything, Init(), acts);
      var e, c := s.Ep(side), s.Ep(side).socks[k];
      && |c.queue| <= 256
      && (c.wr.Running? && c.queue != [] ==> Enabled(s, Write(side, k)) || Enabled(s, Shut(side, k)))
      && (c.wr.Running? && c.queue == [] ==>
            (Enabled(s, Starve(side, k)) <==>
              !(c.id in e.conns && e.conns[c.id] == k) && !(e.sess.Deliver? && e.sess.to == k)))
      && (c.wr.Exiting? ==> Enabled(s, Remove(side, k)))
  {
    hide Legal, After, SameIds, AcceptorOk, OpensOk, FirstRound, Tagged, EntriesOk, SessionOk, NoOpens;
    var s := ReachedBase(acts);
    assert ConnOk(s.Ep(side).socks[k]);
  }

  /** The session loop, when connected, is ready for both directions, or waits for room in one queue or in `out`. */
  lemma SessionWaits(acts: seq<Action>, side: Side)
    requires Legal(Anything, Init(), acts)
    ensures var s := After(Anything, Init(), acts);
      var e := s.Ep(side);
      match e.sess
      case Ready =>
        && (Enabled(s, Drain(side)) <==> e.up && e.out != [])
        && (Enabled(s, Take(side)) <==> e.up && s.Wire(Other(side)) != [])
        && (Enabled(s, Disconnect(side)) <==> e.up) && (Enabled(s, Reconnect(side)) <==> !e.up)
      case Dial(_, _) => side.Gate? ==> Enabled(s, DialOk) && Enabled(s, DialErr)
      case Emit(_) => Enabled(s, EmitOut(side)) <==> |e.out| < 512
      case Deliver(k, _) =>
        && k < |e.socks|
        && (Enabled(s, Enqueue(side)) <==> !e.socks[k].wr.Gone? && |e.socks[k].queue| < 256)
        && (Enabled(s, Orphan(side)) <==> e.socks[k].wr.Gone?)
  {
    hide Legal, After, Base, Enabled;
    var s := ReachedBase(acts);
    match s.Ep(side).sess
    case Ready =>
      ReadyWaits(s, side);
      TakeWaits(s, side);
    case Dial(_, _) => if side.Gate? { DialWaits(s, side); }
    case Emit(_) => EmitWaits(s, side);
    case Deliver(_, _) => DeliverWaits(s, side);
  }

  lemma ReadyWaits(s: State, side: Side)
    requires s.Ep(side).sess.Ready?
    ensures Enabled(s, Drain(side)) <==> s.Ep(side).up && s.Ep(side).out != []
    ensures (Enabled(s, Disconnect(side)) <==> s.Ep(side).up) && (Enabled(s, Reconnect(side)) <==> !s.Ep(side).up)
  {
  }

  lemma TakeWaits(s: State, side: Side)
    requires Base(s) && s.Ep(side).sess.Ready?
    ensures Enabled(s, Take(side)) <==> s.Ep(side).up && s.Wire(Other(side)) != []
  {
    hide EndpointOk, AcceptorOk, OpensOk, FirstRound;
    if s.Wire(Other(side)) != [] {
      assert s.Wire(Other(side))[0].tag < |s.Ep(side).socks|;
    }
  }

  lemma DialWaits(s: State, side: Side)
    requires Base(s) && s.Ep(side).sess.Dial? && side.Gate?
    ensures Enabled(s, DialOk) && Enabled(s, DialErr)
  {
    hide EntriesOk, Tagged, AcceptorOk, OpensOk, FirstRound, NoOpens, ConnOk;
  }

  lemma EmitWaits(s: State, side: Side)
    requires s.Ep(side).sess.Emit?
    ensures Enabled(s, EmitOut(side)) <==> |s.Ep(side).out| < 512
  {
  }

  lemma DeliverWaits(s: State, side: Side)
    requires Base(s) && s.Ep(side).sess.Deliver?
    ensures var e, k := s.Ep(side), s.Ep(side).sess.to;
      && k < |e.socks|
      && (Enabled(s, Enqueue(side)) <==> !e.socks[k].wr.Gone? && |e.socks[k].queue| < 256)
      && (Enabled(s, Orphan(side)) <==> e.socks[k].wr.Gone?)
  {
    hide EntriesOk, AcceptorOk, OpensOk, FirstRound, NoOpens, ConnOk;
    assert SessionOk(s.Ep(side));
    assert [s.Ep(side).sess.frame][0].tag < |s.Ep(side).socks|;
  }

  /** The accept loop takes one socket at a time, and waits for room in `out` between accepting and registering it. */
  lemma AcceptorWaits(acts: seq<Action>)
    requires Legal(Anything, Init(), acts)
    ensures var s := After(Anything, Init(), acts);
      && (Enabled(s, Accept) <==> s.acc == Waiting)
      && (Enabled(s, SendOpen) <==> s.acc == Opening && |s.home.out| < 512)
      && (Enabled(s, Insert) <==> s.acc == Inserting)
      && (Enabled(s, Accept) && Next(s, Accept) != s ==> Next(s, Accept).acc == Opening)
      && (Enabled(s, SendOpen) ==> Next(s, SendOpen).acc == Inserting)
      && (Enabled(s, Insert) ==> Next(s, Insert).acc == Waiting)
  {
    hide Legal, After, SameIds, EndpointOk, OpensOk, FirstRound, Tagged, Alloc;
    var s := ReachedBase(acts);
    SocketsWhenBusy(s);
  }

  lemma SocketsWhenBusy(s: State)
    requires Base(s)
    ensures !s.acc.Waiting? ==> s.home.socks != []
  {
    hide SameIds, EndpointOk, OpensOk, FirstRound, Tagged;
  }

  lemma ReachedBase(acts: seq<Action>) returns (s: State)
    requires Legal(Anything, Init(), acts)
    ensures s == After(Anything, Init(), acts) && Base(s)
  {
    hide Base, Legal, After;
    BaseInit();
    BaseAlways(Anything, Init(), acts);
    s := After(Anything, Init(), acts);
  }

  // ---------------------------------------------------------------- a writer that has been looked up

  /** The session loop holds frame `f` for writer `k`, which runs and has not been told to stop. */
  ghost predicate LookedUp(e: Endpoint, k: nat, f: Frame) {
    && e.sess == Deliver(k, f) && k < |e.socks| && e.socks[k].wr.Running?
    && forall i | 0 <= i < |e.socks[k].queue| :: !e.socks[k].queue[i].msg.Close?
  }

  lemma LookedUpStep(s: State, a: Action, side: Side, k: nat, f: Frame)
    requires LookedUp(s.Ep(side), k, f) && Enabled(s, a) && a != WriteErr(side, k) && a != Enqueue(side)
    ensures LookedUp(Next(s, a).Ep(side), k, f) && a != Orphan(side)
  {
    hide Next, Enabled;
    if !OfOneEndpoint(a) {
      LookedUpShared(s, a, side, k, f);
    } else if a.side != side {
      OtherRests(s, a, side);
    } else if BySession(a) {
      LookedUpSession(s, a, k, f);
    } else if ByWriter(a) && a.k == k {
      LookedUpWriter(s, a, f);
    } else {
      LookedUpOther(s, a, k, f);
    }
  }

  lemma LookedUpOther(s: State, a: Action, k: nat, f: Frame)
    requires ByReader(a) || ByLink(a) || (ByWriter(a) && a.k != k)
    requires LookedUp(s.Ep(a.side), k, f) && Enabled(s, a)
    ensures LookedUp(Next(s, a).Ep(a.side), k, f)
  {
    hide Next, Enabled;
    if ByReader(a) {
      ReaderTouches(s, a);
      ReaderChanges(s, a);
    } else if ByLink(a) {
      LinkTouches(s, a);
    } else {
      WriterTouches(s, a);
    }
  }

  lemma LookedUpShared(s: State, a: Action, side: Side, k: nat, f: Frame)
    requires LookedUp(s.Ep(side), k, f) && Enabled(s, a) && !OfOneEndpoint(a)
    ensures LookedUp(Next(s, a).Ep(side), k, f)
  {
  }

  lemma LookedUpSession(s: State, a: Action, k: nat, f: Frame)
    requires BySession(a) && LookedUp(s.Ep(a.side), k, f) && Enabled(s, a)
    ensures a.Enqueue?
  {
  }

  /** Its own steps: it writes on, and does not starve. */
  lemma LookedUpWriter(s: State, a: Action, f: Frame)
    requires ByWriter(a) && LookedUp(s.Ep(a.side), a.k, f) && Enabled(s, a) && !a.WriteErr?
    ensures LookedUp(Next(s, a).Ep(a.side), a.k, f)
  {
  }

  /**
   A running writer that the session loop has looked up stays until it has the frame, unless a write of its own
   fails: whatever becomes of its map entry, and whatever all other tasks do. So the delivery does not find it gone.
   */
  lemma {:induction false} LookedUpStays(s: State, acts: seq<Action>, side: Side, k: nat, f: Frame)
    requires LookedUp(s.Ep(side), k, f) && Legal(Anything, s, acts)
    requires WriteErr(side, k) !in acts && Enqueue(side) !in acts
    ensures LookedUp(After(Anything, s, acts).Ep(side), k, f) && Orphan(side) !in acts
    decreases |acts|
  {
    hide LookedUp, Enabled, Next;
    if acts != [] {
      LookedUpStep(s, acts[0], side, k, f);
      LookedUpStays(Next(s, acts[0]), acts[1..], side, k, f);
    }
  }

  // ---------------------------------------------------------------- being disconnected

  /** A step of the session loop, or one for which it has to be connected. */
  predicate Online(a: Action) {
    a.Drain? || a.SendFail? || a.Take? || a.Disconnect? || BySession(a)
  }

  ghost predicate Offline(e: Endpoint) {
    !e.up && e.sess.Ready?
  }

  lemma OfflineStep(s: State, a: Action, side: Side)
    requires Offline(s.Ep(side)) && Enabled(s, a) && a != Reconnect(side)
    ensures Offline(Next(s, a).Ep(side)) && |Next(s, a).Wire(side)| <= |s.Wire(side)|
    ensures Online(a) ==> a.side != side
  {
    hide Next, Enabled;
    if !OfOneEndpoint(a) {
      OfflineShared(s, a, side);
    } else if a.side != side {
      OtherRests(s, a, side);
      LinksRest(s, a, side);
    } else if ByLink(a) {
      OfflineLink(s, a);
    } else {
      LinksRest(s, a, side);
      OfflineTask(s, a);
    }
  }

  lemma OfflineTask(s: State, a: Action)
    requires ByReader(a) || ByWriter(a) || BySession(a)
    requires Offline(s.Ep(a.side)) && Enabled(s, a)
    ensures Offline(Next(s, a).Ep(a.side)) && !BySession(a)
  {
    hide Next, Enabled;
    if ByReader(a) {
      ReaderTouches(s, a);
    } else if ByWriter(a) {
      WriterTouches(s, a);
    } else {
      SessionTouches(s, a);
    }
  }

  lemma OfflineShared(s: State, a: Action, side: Side)
    requires Offline(s.Ep(side)) && Enabled(s, a) && !OfOneEndpoint(a)
    ensures Offline(Next(s, a).Ep(side)) && |Next(s, a).Wire(side)| <= |s.Wire(side)|
    ensures a.Take? ==> a.side != side
  {
  }

  lemma OfflineLink(s: State, a: Action)
    requires ByLink(a) && Offline(s.Ep(a.side)) && Enabled(s, a) && !a.Reconnect?
    ensures a.Lose? && Offline(Next(s, a).Ep(a.side)) && |Next(s, a).Wire(a.side)| <= |s.Wire(a.side)|
  {
  }

  lemma {:induction false} StaysOffline(s: State, acts: seq<Action>, side: Side)
    requires Offline(s.Ep(side)) && Legal(Anything, s, acts) && Reconnect(side) !in acts
    ensures var s' := After(Anything, s, acts); Offline(s'.Ep(side)) && |s'.Wire(side)| <= |s.Wire(side)|
    ensures forall i | 0 <= i < |acts| && Online(acts[i]) :: acts[i].side != side
    decreases |acts|
  {
    hide Offline, Enabled, Next, Online;
    if acts != [] {
      OfflineStep(s, acts[0], side);
      StaysOffline(Next(s, acts[0]), acts[1..], side);
    }
  }

  /** When a send fails or the relay goes, the session loop sends and takes nothing until it has reconnected. */
  lemma DownUntilReconnect(s: State, a: Action, acts: seq<Action>)
    requires Enabled(s, a) && (a.Disconnect? || a.SendFail?) && Legal(Anything, Next(s, a), acts)
    requires Reconnect(a.side) !in acts
    ensures var s' := After(Anything, Next(s, a), acts);
      !s'.Ep(a.side).up && s'.Ep(a.side).sess.Ready? && |s'.Wire(a.side)| <= |s.Wire(a.side)|
    ensures forall i | 0 <= i < |acts| && Online(acts[i]) :: acts[i].side != a.side
  {
    GoesDown(s, a);
    StaysOffline(Next(s, a), acts, a.side);
  }

  lemma GoesDown(s: State, a: Action)
    requires Enabled(s, a) && (a.Disconnect? || a.SendFail?)
    ensures Offline(Next(s, a).Ep(a.side)) && Next(s, a).Wire(a.side) == s.Wire(a.side)
  {
  }

  // ---------------------------------------------------------------- after an answer

  /** Entries appear only when a connection is registered. */
  lemma EntriesShrink(s: State, a: Action, side: Side)
    requires Enabled(s, a) && !a.Insert? && !a.DialOk?
    ensures Next(s, a).Ep(side).conns.Keys <= s.Ep(side).conns.Keys
  {
    hide Next, Enabled;
    if !OfOneEndpoint(a) {
      EntriesShrinkShared(s, a, side);
    } else if a.side != side {
      OtherRests(s, a, side);
    } else if ByReader(a) {
      ReaderTouches(s, a);
    } else if ByWriter(a) {
      WriterTouches(s, a);
    } else if BySession(a) {
      SessionTouches(s, a);
    } else {
      LinkTouches(s, a);
    }
  }

  lemma EntriesShrinkShared(s: State, a: Action, side: Side)
    requires Enabled(s, a) && !OfOneEndpoint(a) && !a.Insert? && !a.DialOk?
    ensures Next(s, a).Ep(side).conns.Keys <= s.Ep(side).conns.Keys
  {
  }

  lemma {:induction false} StaysFree(s: State, acts: seq<Action>, side: Side, id: ConnId)
    requires Legal(Anything, s, acts) && id !in s.Ep(side).conns
    requires forall i | 0 <= i < |acts| :: !acts[i].Insert? && !acts[i].DialOk?
    ensures id !in After(Anything, s, acts).Ep(side).conns
    decreases |acts|
  {
    hide Enabled, Next;
    if acts != [] {
      EntriesShrink(s, acts[0], side);
      StaysFree(Next(s, acts[0]), acts[1..], side, id);
    }
  }

  /**
   DATA for a writer that has gone: the id has no entry from then on, whosever it was, until a connection is registered
   again, and the peer is about to be told.
   */
  lemma AnsweredIsFree(s: State, side: Side, acts: seq<Action>)
    requires Enabled(s, Orphan(side)) && s.Ep(side).sess.frame.msg.Data?
    requires Legal(Anything, Next(s, Orphan(side)), acts)
    requires forall i | 0 <= i < |acts| :: !acts[i].Insert? && !acts[i].DialOk?
    ensures var f := s.Ep(side).sess.frame;
      && Next(s, Orphan(side)).Ep(side).sess == Emit(Frame(f.id, f.tag, Close))
      && f.id !in After(Anything, Next(s, Orphan(side)), acts).Ep(side).conns
  {
    StaysFree(Next(s, Orphan(side)), acts, side, s.Ep(side).sess.frame.id);
  }
}
