/** Ownership of map entries, half-close, reconnects and back-pressure. */
module TunnelLaws {
  import opened Common
  import opened Allocator
  import opened TunnelModel
  import opened TunnelFootprint
  import opened TunnelBase
  import opened TunnelGrowth
  import opened TunnelTrack
  import opened TunnelLane
  import opened TunnelSteps
  import opened TunnelInv
  import opened TunnelOrder
  import opened TunnelGentle
  import opened TunnelTheorems

  // ---------------------------------------------------------------- ownership

  /** Every entry belongs to exactly one writer that has not removed it yet, and every such writer has its entry. */
  ghost predicate Owned(e: Endpoint) {
    && (forall id | id in e.conns ::
          e.conns[id] < |e.socks| && e.socks[e.conns[id]].id == id && Live(e.socks[e.conns[id]]))
    && (forall k | 0 <= k < |e.socks| && Live(e.socks[k]) ::
          e.socks[k].id in e.conns && e.conns[e.socks[k].id] == k)
  }

  lemma LaneOwned(snd: Endpoint, wire: seq<Frame>, rcv: Endpoint, whole: bool)
    requires LaneOk(snd, wire, rcv, whole) && EntriesOk(rcv)
    ensures Owned(rcv)
  {
    forall k | 0 <= k < |rcv.socks|
      ensures Live(rcv.socks[k]) <==> rcv.socks[k].id in rcv.conns && rcv.conns[rcv.socks[k].id] == k
    {
      assert LaneAt(snd, wire, rcv, k, whole);
    }
  }

  /**
   At home, ids being reused at will: entries are owned, the writer a frame is routed to is never gone, registering
   a connection overwrites nothing and a writer removes its own entry.
   */
  lemma HomeOwnership(acts: seq<Action>, k: nat)
    requires Legal(HomeSafe, Init(), acts)
    ensures var s := After(HomeSafe, Init(), acts);
      && Owned(s.home)
      && !Enabled(s, Orphan(Home))
      && (Enabled(s, Insert) ==> s.home.socks[|s.home.socks| - 1].id !in s.home.conns)
      && (Enabled(s, Remove(Home, k)) ==>
            s.home.socks[k].id in s.home.conns && s.home.conns[s.home.socks[k].id] == k)
  {
    hide InvGH, Owned, Legal;
    InitGH();
    HomeSafeAlways(Init(), acts);
    HomeOwnershipOf(After(HomeSafe, Init(), acts), k);
  }

  lemma HomeOwnershipOf(s: State, k: nat)
    requires InvGH(s)
    ensures Owned(s.home) && !Enabled(s, Orphan(Home)) && InsertsFree(s) && RemovesItsOwn(s.home, k)
  {
    hide Owned, InsertsFree, RemovesItsOwn, Retired, LostOpens, AnsweredLost, LaneOk, EndpointOk, OpensOk, FirstRound,
      Tagged, HomeStraight, AcceptorOk;
    HomeEntries(s);
    LaneOwned(s.gate, s.gh, s.home, s.lostGH == []);
    NoOrphans(s);
    InsertsFreeAt(s);
    RemovesOwned(s.home, k);
  }

  lemma HomeEntries(s: State)
    requires Base(s)
    ensures EntriesOk(s.home)
  {
    hide OpensOk, FirstRound, Tagged, AcceptorOk;
  }

  lemma NoOrphans(s: State)
    requires Lane(s, Gate) && HomeStraight(s.home)
    ensures !Enabled(s, Orphan(Home))
  {
    hide LaneOk;
    NeverOrphaned(s.gate, s.gh, s.home, s.lostGH == []);
  }

  ghost predicate InsertsFree(s: State) {
    Enabled(s, Insert) ==> s.home.socks[|s.home.socks| - 1].id !in s.home.conns
  }

  ghost predicate RemovesItsOwn(e: Endpoint, k: nat) {
    CanRemove(e, k) ==> e.socks[k].id in e.conns && e.conns[e.socks[k].id] == k
  }

  lemma InsertsFreeAt(s: State)
    requires AcceptorOk(s)
    ensures InsertsFree(s)
  {
  }

  lemma RemovesOwned(e: Endpoint, k: nat)
    requires Owned(e)
    ensures RemovesItsOwn(e, k)
  {
  }

  /** Registering a connection at home overwrites nothing, whatever fails, despite the wait between its two halves. */
  lemma InsertIsFree(acts: seq<Action>)
    requires Legal(Anything, Init(), acts)
    ensures var s := After(Anything, Init(), acts);
      Enabled(s, Insert) ==> s.home.socks[|s.home.socks| - 1].id !in s.home.conns
  {
    hide EndpointOk, SameIds, OpensOk, FirstRound, Tagged, AcceptorOk, Legal, After;
    BaseInit();
    BaseAlways(Anything, Init(), acts);
    InsertsFreeAt(After(Anything, Init(), acts));
  }

  /** A connection that has been registered and whose id is free again has sent its last frame, and it has arrived. */
  lemma FreedIsOver(snd: Endpoint, wire: seq<Frame>, rcv: Endpoint, whole: bool, j: nat)
    requires LaneOk(snd, wire, rcv, whole) && j < |rcv.socks|
    requires !rcv.socks[j].wr.Absent? && rcv.socks[j].id !in rcv.conns
    ensures Front(snd, wire, j) == [] && Finished(snd.socks[j])
  {
    assert LaneAt(snd, wire, rcv, j, whole);
    StoppedTrack(snd, wire, rcv, whole, j);
  }

  lemma NothingOnItsWay(snd: Endpoint, wire: seq<Frame>, j: nat)
    requires j < |snd.socks| && Front(snd, wire, j) == []
    ensures forall i | 0 <= i < |wire + snd.out| :: (wire + snd.out)[i].tag != j
    ensures snd.sess.Emit? ==> snd.sess.frame.tag != j
  {
    var p := wire + snd.out;
    OfMembers(p, j);
    forall i | 0 <= i < |p| ensures p[i].tag != j {
      assert p[i] in p;
    }
  }

  /**
   When home is about to allocate, no gate frame is under way, queued or about to be queued for any id it may
   choose, and the gate has finished reading on every connection that had it.
   */
  lemma NoStaleFrames(acts: seq<Action>, id: ConnId)
    requires Legal(HomeSafe, Init(), acts)
    ensures var s := After(HomeSafe, Init(), acts);
      s.acc.Waiting? && id !in s.home.conns ==>
        && (forall j | 0 <= j < |s.gate.socks| && s.gate.socks[j].id == id :: Finished(s.gate.socks[j]))
        && (forall i | 0 <= i < |s.Pipe(Gate)| :: s.Pipe(Gate)[i].id != id)
        && (s.gate.sess.Emit? ==> s.gate.sess.frame.id != id)
  {
    InvInit();
    HomeSafeAlways(Init(), acts);
    var s := After(HomeSafe, Init(), acts);
    if s.acc.Waiting? && id !in s.home.conns {
      NoneStale(s, id);
    }
  }

  lemma NoneStale(s: State, id: ConnId)
    requires SameIds(s) && AcceptorOk(s) && Lane(s, Gate) && s.acc.Waiting? && id !in s.home.conns
    requires Tagged(s.gh, s.home.socks) && Tagged(s.gate.out, s.gate.socks) && SessionOk(s.gate)
    ensures forall j | 0 <= j < |s.gate.socks| && s.gate.socks[j].id == id :: Finished(s.gate.socks[j])
    ensures forall i | 0 <= i < |s.Pipe(Gate)| :: s.Pipe(Gate)[i].id != id
    ensures s.gate.sess.Emit? ==> s.gate.sess.frame.id != id
  {
    hide LaneOk, Front, Track;
    forall j | 0 <= j < |s.gate.socks| && s.gate.socks[j].id == id
      ensures Finished(s.gate.socks[j])
      ensures forall i | 0 <= i < |s.Pipe(Gate)| :: s.Pipe(Gate)[i].tag != j
      ensures s.gate.sess.Emit? ==> s.gate.sess.frame.tag != j
    {
      FreedIsOver(s.gate, s.gh, s.home, s.lostGH == [], j);
      NothingOnItsWay(s.gate, s.gh, j);
    }
    forall i | 0 <= i < |s.Pipe(Gate)|
      ensures s.Pipe(Gate)[i].id != id
    {
      var f := s.Pipe(Gate)[i];
      assert f.tag < |s.gate.socks| && s.gate.socks[f.tag].id == f.id;
    }
    if s.gate.sess.Emit? {
      assert [s.gate.sess.frame][0].tag < |s.gate.socks|;
    }
  }

  // ---------------------------------------------------------------- half-close

  /**
   A registered connection keeps its entry and its running writer for as long as the reader at the other end has
   not finished, whatever has become of the opposite direction.
   */
  lemma {:induction false} HalfClose(s: State, acts: seq<Action>, side: Side, k: nat)
    requires InvHG(s) && Legal(Gentle, s, acts)
    requires k < |s.home.socks| && !s.Ep(Other(side)).socks[k].wr.Absent?
    ensures var s' := After(Gentle, s, acts);
      && InvHG(s') && |s'.home.socks| >= |s.home.socks|
      && (!Finished(s'.Ep(side).socks[k]) ==>
            var r := s'.Ep(Other(side));
            r.socks[k].wr.Running? && r.socks[k].id in r.conns && r.conns[r.socks[k].id] == k)
    decreases |acts|
  {
    hide InvHG, FairHG, Finished, Enabled, Next;
    SameSizes(s);
    if acts == [] {
      StillRunning(s, side, k);
    } else {
      InvHGStep(s, acts[0]);
      GentleSizeGrows(s, acts[0]);
      SameSizes(Next(s, acts[0]));
      GentleStaysStarted(s, acts[0], Other(side), k);
      HalfClose(Next(s, acts[0]), acts[1..], side, k);
    }
  }

  lemma SameSizes(s: State)
    requires InvHG(s)
    ensures |s.home.socks| == |s.gate.socks|
  {
    hide Lane, OrderOk, GateLosses, Ledger, Muddled, EndpointOk, AcceptorOk, OpensOk, FirstRound, Tagged, Retired,
      LostOpens, AnsweredLost, HomeStraight;
  }

  lemma GentleSizeGrows(s: State, a: Action)
    requires InvHG(s) && Enabled(s, a)
    ensures |s.home.socks| <= |Next(s, a).home.socks|
  {
    hide Base, Enabled, Next, Lane, OrderOk, GateLosses, Ledger, Muddled;
    SizeGrows(s, a);
  }

  lemma GentleStaysStarted(s: State, a: Action, side: Side, k: nat)
    requires InvHG(s) && Enabled(s, a) && k < |s.Ep(side).socks| && !s.Ep(side).socks[k].wr.Absent?
    ensures k < |Next(s, a).Ep(side).socks| && !Next(s, a).Ep(side).socks[k].wr.Absent?
  {
    hide Base, Enabled, Next, Lane, OrderOk, GateLosses, Ledger, Muddled;
    StaysStarted(s, a, side, k);
  }

  lemma StillRunning(s: State, side: Side, k: nat)
    requires InvHG(s) && k < |s.home.socks| && |s.home.socks| == |s.gate.socks|
    requires !s.Ep(Other(side)).socks[k].wr.Absent?
    ensures !Finished(s.Ep(side).socks[k]) ==>
      var r := s.Ep(Other(side));
      r.socks[k].wr.Running? && r.socks[k].id in r.conns && r.conns[r.socks[k].id] == k
  {
    hide Base, LaneOk, Finished, Retired, LostOpens, AnsweredLost, HomeStraight, OrderOk, GateLosses, Ledger, Muddled;
    if !Finished(s.Ep(side).socks[k]) {
      UnfinishedRuns(s.Ep(side), s.Wire(side), s.Ep(Other(side)), s.Lost(side) == [], k);
    }
  }

  lemma UnfinishedRuns(snd: Endpoint, wire: seq<Frame>, rcv: Endpoint, whole: bool, k: nat)
    requires LaneOk(snd, wire, rcv, whole) && k < |rcv.socks|
    requires !rcv.socks[k].wr.Absent? && !Finished(snd.socks[k])
    ensures rcv.socks[k].wr.Running? && rcv.socks[k].id in rcv.conns && rcv.conns[rcv.socks[k].id] == k
  {
    assert LaneAt(snd, wire, rcv, k, whole);
    if Closed(rcv.socks[k].log) {
      StoppedTrack(snd, wire, rcv, whole, k);
    }
  }

  lemma StaysStarted(s: State, a: Action, side: Side, k: nat)
    requires Base(s) && Enabled(s, a) && k < |s.Ep(side).socks| && !s.Ep(side).socks[k].wr.Absent?
    ensures k < |Next(s, a).Ep(side).socks| && !Next(s, a).Ep(side).socks[k].wr.Absent?
  {
    hide Base, Enabled, Next;
    if !OfOneEndpoint(a) {
      StartedShared(s, a, side, k);
    } else if a.side != side {
      OtherRests(s, a, side);
    } else if ByReader(a) {
      ReaderTouches(s, a);
      ReaderChanges(s, a);
    } else if ByWriter(a) {
      WriterTouches(s, a);
      WriterChanges(s, a);
    } else {
      StartedSession(s, a, k);
    }
  }

  lemma StartedSession(s: State, a: Action, k: nat)
    requires Enabled(s, a) && (BySession(a) || ByLink(a))
    requires k < |s.Ep(a.side).socks| && !s.Ep(a.side).socks[k].wr.Absent?
    ensures k < |Next(s, a).Ep(a.side).socks| && !Next(s, a).Ep(a.side).socks[k].wr.Absent?
  {
    hide Enabled, Next;
    if BySession(a) {
      SessionTouches(s, a);
      SessionChanges(s, a);
    } else {
      LinkTouches(s, a);
    }
  }

  lemma StartedShared(s: State, a: Action, side: Side, k: nat)
    requires Enabled(s, a) && !OfOneEndpoint(a)
    requires k < |s.Ep(side).socks| && !s.Ep(side).socks[k].wr.Absent?
    ensures k < |Next(s, a).Ep(side).socks| && !Next(s, a).Ep(side).socks[k].wr.Absent?
  {
    if a.Take? {
      StartedTake(s, a, side, k);
    } else {
      StartedStart(s, a, side, k);
    }
  }

  lemma StartedTake(s: State, a: Action, side: Side, k: nat)
    requires Enabled(s, a) && a.Take?
    requires k < |s.Ep(side).socks| && !s.Ep(side).socks[k].wr.Absent?
    ensures k < |Next(s, a).Ep(side).socks| && !Next(s, a).Ep(side).socks[k].wr.Absent?
  {
  }

  lemma StartedStart(s: State, a: Action, side: Side, k: nat)
    requires Enabled(s, a) && !OfOneEndpoint(a) && !a.Take?
    requires k < |s.Ep(side).socks| && !s.Ep(side).socks[k].wr.Absent?
    ensures k < |Next(s, a).Ep(side).socks| && !Next(s, a).Ep(side).socks[k].wr.Absent?
  {
    hide Alloc;
  }

  /** An entry goes only when its own lane has delivered CLOSE, behind everything else that lane had to deliver. */
  lemma EntryRemoval(s: State, a: Action, side: Side, k: nat)
    requires InvHG(s) && Enabled(s, a) && EntryFree(s, a) && k < |s.home.socks|
    ensures var snd, r, r' := s.Ep(side), s.Ep(Other(side)), Next(s, a).Ep(Other(side));
      HasEntry(r, r.socks[k].id, k) && !HasEntry(r', r.socks[k].id, k) ==>
        && a == Remove(Other(side), k)
        && Finished(snd.socks[k]) && Closed(r.socks[k].log)
        && Front(snd, s.Wire(side), k) == [] && Of(r.socks[k].queue, k) == []
  {
    var r, r' := s.Ep(Other(side)), Next(s, a).Ep(Other(side));
    if HasEntry(r, r.socks[k].id, k) && !HasEntry(r', r.socks[k].id, k) {
      EntryRemoved(s, a, side, k);
    }
  }

  predicate HasEntry(e: Endpoint, id: ConnId, k: nat) {
    id in e.conns && e.conns[id] == k
  }

  lemma EntryRemoved(s: State, a: Action, side: Side, k: nat)
    requires InvHG(s) && Enabled(s, a) && EntryFree(s, a) && k < |s.home.socks|
    requires HasEntry(s.Ep(Other(side)), s.Ep(Other(side)).socks[k].id, k)
    requires !HasEntry(Next(s, a).Ep(Other(side)), s.Ep(Other(side)).socks[k].id, k)
    ensures a == Remove(Other(side), k)
    ensures Finished(s.Ep(side).socks[k]) && Closed(s.Ep(Other(side)).socks[k].log)
    ensures Front(s.Ep(side), s.Wire(side), k) == [] && Of(s.Ep(Other(side)).socks[k].queue, k) == []
  {
    hide Base, LaneOk, Retired, LostOpens, AnsweredLost, OrderOk, GateLosses, Ledger, Muddled, HomeStraight, Enabled,
      Next, EntryFree, Front, Of, Finished, Closed, EntryStays, Owned;
    var snd, w, r, whole := s.Ep(side), s.Wire(side), s.Ep(Other(side)), s.Lost(side) == [];
    SameSizes(s);
    OrphansNothing(s, a, Other(side));
    EntryChange(s, a, Other(side), r.socks[k].id);
    NotStays(s, a, Other(side), k);
    BothEntries(s);
    LaneOwned(snd, w, r, whole);
    RemovesOwn(s, a, Other(side), k);
    LeavesEmptyLane(snd, w, r, whole, k);
  }

  lemma NotStays(s: State, a: Action, side: Side, k: nat)
    requires Enabled(s, a) && k < |s.Ep(side).socks| && HasEntry(s.Ep(side), s.Ep(side).socks[k].id, k)
    requires !HasEntry(Next(s, a).Ep(side), s.Ep(side).socks[k].id, k)
    ensures !EntryStays(s, a, side, s.Ep(side).socks[k].id)
  {
    hide Enabled, Next;
  }

  lemma BothEntries(s: State)
    requires Base(s)
    ensures EntriesOk(s.home) && EntriesOk(s.gate)
  {
    hide OpensOk, FirstRound, Tagged, AcceptorOk;
  }

  /** A writer on the way out whose connection owns the entry of its id is the owner. */
  lemma RemovesOwn(s: State, a: Action, side: Side, k: nat)
    requires Owned(s.Ep(side)) && k < |s.Ep(side).socks| && HasEntry(s.Ep(side), s.Ep(side).socks[k].id, k)
    requires a.Remove? && a.side == side && a.k < |s.Ep(side).socks| && s.Ep(side).socks[a.k].wr.Exiting?
    requires s.Ep(side).socks[a.k].id == s.Ep(side).socks[k].id
    ensures a == Remove(side, k) && s.Ep(side).socks[k].wr.Exiting?
  {
  }

  lemma LeavesEmptyLane(snd: Endpoint, w: seq<Frame>, r: Endpoint, whole: bool, k: nat)
    requires LaneOk(snd, w, r, whole) && k < |r.socks| && r.socks[k].wr.Exiting?
    ensures Finished(snd.socks[k]) && Closed(r.socks[k].log)
    ensures Front(snd, w, k) == [] && Of(r.socks[k].queue, k) == []
  {
    assert LaneAt(snd, w, r, k, whole);
    StoppedTrack(snd, w, r, whole, k);
  }

  /** Answering for a writer that is gone removes no entry. */
  lemma OrphansNothing(s: State, a: Action, side: Side)
    requires InvHG(s) && Enabled(s, a)
    ensures a == Orphan(side) && s.Ep(side).sess.Deliver? && s.Ep(side).sess.frame.msg.Data? ==>
      s.Ep(side).sess.frame.id !in s.Ep(side).conns
  {
    hide Base, LaneOk, Retired, LostOpens, AnsweredLost, OrderOk, Ledger, Muddled, Next;
    if a == Orphan(side) {
      if side.Home? {
        NoOrphans(s);
      } else {
        BaseParts(s);
        GoneHasNoEntry(s);
      }
    }
  }

  /** Only registering a connection on an id, and a writer on that id leaving, change what the map holds for it. */
  lemma EntryChange(s: State, a: Action, side: Side, id: ConnId)
    requires Base(s) && Enabled(s, a) && EntryFree(s, a) && id in s.Ep(side).conns
    requires a == Orphan(side) && s.Ep(side).sess.Deliver? && s.Ep(side).sess.frame.msg.Data? ==>
      s.Ep(side).sess.frame.id !in s.Ep(side).conns
    ensures EntryStays(s, a, side, id) || LeavesId(s, a, side, id)
  {
    hide Base, Next, EntryStays, LeavesId;
    if a.Insert? || a.DialOk? {
      StartsElsewhere(s, a, side, id);
    } else if a.Remove? {
      RemoveChange(s, a, side, id);
    } else {
      ConnsSame(s, a, side);
      SameEntry(s, a, side, id);
    }
  }

  ghost predicate EntryStays(s: State, a: Action, side: Side, id: ConnId)
    requires Enabled(s, a)
  {
    var e, e' := s.Ep(side), Next(s, a).Ep(side);
    id in e.conns && id in e'.conns && e'.conns[id] == e.conns[id]
  }

  ghost predicate LeavesId(s: State, a: Action, side: Side, id: ConnId) {
    var e := s.Ep(side);
    a.Remove? && a.side == side && a.k < |e.socks| && e.socks[a.k].wr.Exiting? && e.socks[a.k].id == id
  }

  lemma SameEntry(s: State, a: Action, side: Side, id: ConnId)
    requires Enabled(s, a) && id in s.Ep(side).conns && Next(s, a).Ep(side).conns == s.Ep(side).conns
    ensures EntryStays(s, a, side, id)
  {
    hide Enabled, Next;
  }

  lemma RemoveChange(s: State, a: Action, side: Side, id: ConnId)
    requires Enabled(s, a) && a.Remove? && id in s.Ep(side).conns
    ensures EntryStays(s, a, side, id) || LeavesId(s, a, side, id)
  {
    hide Enabled, Next;
    if a.side == side {
      WriterTouches(s, a);
      WriterChanges(s, a);
    } else {
      OtherRests(s, a, side);
    }
  }

  /** The entry added when a connection is registered is under a free id. */
  lemma StartsElsewhere(s: State, a: Action, side: Side, id: ConnId)
    requires Base(s) && Enabled(s, a) && (a.Insert? || a.DialOk?) && EntryFree(s, a) && id in s.Ep(side).conns
    ensures EntryStays(s, a, side, id)
  {
    hide OpensOk, FirstRound, Tagged, SameIds;
    if a.Insert? {
      assert s.home.socks[|s.home.socks| - 1].id !in s.home.conns;
    } else {
      assert s.gate.sess.id == s.gate.socks[s.gate.sess.conn].id;
    }
  }

  lemma ConnsSame(s: State, a: Action, side: Side)
    requires Enabled(s, a) && !a.Insert? && !a.DialOk? && !a.Remove?
    requires a == Orphan(side) && s.Ep(side).sess.frame.msg.Data? ==> s.Ep(side).sess.frame.id !in s.Ep(side).conns
    ensures Next(s, a).Ep(side).conns == s.Ep(side).conns
  {
    hide Next;
    if !OfOneEndpoint(a) {
      ConnsSameShared(s, a, side);
    } else if a.side != side {
      OtherRests(s, a, side);
    } else {
      ConnsSameOwn(s, a);
    }
  }

  lemma ConnsSameOwn(s: State, a: Action)
    requires Enabled(s, a) && OfOneEndpoint(a) && !a.Remove?
    requires a.Orphan? && s.Ep(a.side).sess.frame.msg.Data? ==>
      s.Ep(a.side).sess.frame.id !in s.Ep(a.side).conns
    ensures Next(s, a).Ep(a.side).conns == s.Ep(a.side).conns
  {
    hide Next;
    if ByReader(a) {
      ReaderTouches(s, a);
    } else if ByWriter(a) {
      WriterTouches(s, a);
    } else if BySession(a) {
      SessionTouches(s, a);
      if a.Orphan? && s.Ep(a.side).sess.frame.msg.Data? {
        assert s.Ep(a.side).conns - {s.Ep(a.side).sess.frame.id} == s.Ep(a.side).conns;
      }
    } else {
      LinkTouches(s, a);
    }
  }

  lemma ConnsSameShared(s: State, a: Action, side: Side)
    requires Enabled(s, a) && !OfOneEndpoint(a) && !a.Insert? && !a.DialOk?
    ensures Next(s, a).Ep(side).conns == s.Ep(side).conns
  {
    hide Alloc;
  }

  /** A reader is moved only by its own steps, or by the steps that open its connection or answer for it. */
  lemma ReaderSteps(s: State, a: Action, side: Side, k: nat)
    requires Base(s) && Enabled(s, a) && k < |s.Ep(side).socks|
    requires var e' := Next(s, a).Ep(side);
      k < |e'.socks| && e'.socks[k].rd != s.Ep(side).socks[k].rd
    ensures
      || (ByReader(a) && a.side == side && a.k == k)
      || Fresh(s.Ep(side).socks[k]) || s.Ep(side).socks[k].rd.Dialing?
  {
    if !Fresh(s.Ep(side).socks[k]) && !s.Ep(side).socks[k].rd.Dialing? {
      ReaderKept(s, a, side, k);
    }
  }

  lemma ReaderKept(s: State, a: Action, side: Side, k: nat)
    requires Base(s) && Enabled(s, a) && k < |s.Ep(side).socks|
    requires !Fresh(s.Ep(side).socks[k]) && !s.Ep(side).socks[k].rd.Dialing?
    ensures k < |Next(s, a).Ep(side).socks|
    ensures
      || (ByReader(a) && a.side == side && a.k == k)
      || Next(s, a).Ep(side).socks[k].rd == s.Ep(side).socks[k].rd
  {
    hide Base, Enabled, Next, Fresh;
    if OfOneEndpoint(a) {
      if a.side == side {
        ReadersSameOwn(s, a, k);
      } else {
        OtherRests(s, a, side);
      }
    } else {
      ReadersSameShared(s, a, side, k);
    }
  }

  lemma ReadersSameShared(s: State, a: Action, side: Side, k: nat)
    requires Base(s) && Enabled(s, a) && !OfOneEndpoint(a) && k < |s.Ep(side).socks|
    requires !Fresh(s.Ep(side).socks[k]) && !s.Ep(side).socks[k].rd.Dialing?
    ensures k < |Next(s, a).Ep(side).socks|
    ensures Next(s, a).Ep(side).socks[k].rd == s.Ep(side).socks[k].rd
  {
    hide Base, Fresh;
    BaseParts(s);
    if a == Take(Gate) && side.Gate? {
      ReadersSameTake(s, k);
    } else if a.Insert? && side.Home? {
      ReadersSameInsert(s, k);
    } else if a.DialOk? || a.DialErr? {
      ReadersSameDial(s, a, side, k);
    } else {
      ReadersSameRest(s, a, side, k);
    }
  }

  lemma ReadersSameDial(s: State, a: Action, side: Side, k: nat)
    requires SessionOk(s.gate) && Enabled(s, a) && (a.DialOk? || a.DialErr?) && k < |s.Ep(side).socks|
    requires !s.Ep(side).socks[k].rd.Dialing?
    ensures k < |Next(s, a).Ep(side).socks| && Next(s, a).Ep(side).socks[k].rd == s.Ep(side).socks[k].rd
  {
  }

  lemma ReadersSameRest(s: State, a: Action, side: Side, k: nat)
    requires Enabled(s, a) && k < |s.Ep(side).socks|
    requires a.Accept? || a.SendOpen? || (a.Insert? && side.Gate?) || a == Take(Home) || (a == Take(Gate) && side.Home?)
    ensures k < |Next(s, a).Ep(side).socks| && Next(s, a).Ep(side).socks[k].rd == s.Ep(side).socks[k].rd
  {
    hide Alloc;
  }

  lemma ReadersSameTake(s: State, k: nat)
    requires Base(s) && Enabled(s, Take(Gate)) && k < |s.gate.socks| && !Fresh(s.gate.socks[k])
    ensures DoTake(s.gate, s.hg[0], true).socks[k].rd == s.gate.socks[k].rd
  {
    assert HomePipe(s)[0] == s.hg[0];
  }

  lemma ReadersSameInsert(s: State, k: nat)
    requires Base(s) && Enabled(s, Insert) && k < |s.home.socks| && !Fresh(s.home.socks[k])
    ensures Next(s, Insert).home.socks[k].rd == s.home.socks[k].rd
  {
    assert ConnOk(s.home.socks[|s.home.socks| - 1]);
  }

  lemma ReadersSameOwn(s: State, a: Action, k: nat)
    requires Enabled(s, a) && OfOneEndpoint(a) && k < |s.Ep(a.side).socks| && !Fresh(s.Ep(a.side).socks[k])
    ensures k < |Next(s, a).Ep(a.side).socks|
    ensures (ByReader(a) && a.k == k) || Next(s, a).Ep(a.side).socks[k].rd == s.Ep(a.side).socks[k].rd
  {
    hide Enabled, Next;
    if ByReader(a) {
      ReaderTouches(s, a);
    } else if ByWriter(a) {
      WriterTouches(s, a);
      WriterChanges(s, a);
    } else {
      ReadersSameSession(s, a, k);
    }
  }

  lemma ReadersSameSession(s: State, a: Action, k: nat)
    requires Enabled(s, a) && (BySession(a) || ByLink(a)) && k < |s.Ep(a.side).socks| && !Fresh(s.Ep(a.side).socks[k])
    ensures k < |Next(s, a).Ep(a.side).socks| && Next(s, a).Ep(a.side).socks[k].rd == s.Ep(a.side).socks[k].rd
  {
    hide Enabled, Next;
    if BySession(a) {
      SessionTouches(s, a);
      SessionChanges(s, a);
    } else {
      LinkTouches(s, a);
    }
  }

  // ---------------------------------------------------------------- the first 256 connections

  /**
   With at most 256 connections, connection k has id k and nothing has to be assumed but that no socket write fails:
   both directions deliver, without loss as runs without gaps and to the end, home to gate as a prefix, and all
   entries are owned.
   */
  lemma FirstRoundsDeliver(acts: seq<Action>, k: nat)
    requires Legal(FirstRounds, Init(), acts)
    requires k < |After(FirstRounds, Init(), acts).home.socks|
    ensures var s := After(FirstRounds, Init(), acts);
      && |s.gate.socks| == |s.home.socks|
      && s.home.socks[k].id == k
      && var h, g := s.home.socks[k], s.gate.socks[k];
      && Delivers(h, g, k) && (s.lostHG == [] ==> DeliversPrefix(h, g))
      && Delivers(g, h, k)
      && (s.lostGH == [] ==>
            && DeliversRun(g, h, MissedChunks(s.home, k))
            && (MissedChunks(s.home, k) == 0 ==> DeliversPrefix(g, h)))
      && Owned(s.home) && Owned(s.gate)
  {
    hide Delivers, DeliversRun, DeliversPrefix, MissedChunks, Owned, InvHG, Legal;
    InvInit();
    FirstRoundsAlways(Init(), acts);
    GentleIsHomeSafe(Init(), acts);
    GentleAlways(Init(), acts);
    FirstRoundsSize(Init(), acts);
    GateToHome(acts, k);
    HomeToGate(acts, k);
    FirstRoundAt(After(Gentle, Init(), acts), k);
  }

  lemma FirstRoundAt(s: State, k: nat)
    requires InvHG(s) && |s.home.socks| <= ID_COUNT && k < |s.home.socks|
    ensures s.home.socks[k].id == k && Owned(s.home) && Owned(s.gate)
  {
    hide LaneOk, Retired, LostOpens, AnsweredLost, OrderOk, GateLosses, Ledger, Muddled;
    LaneOwned(s.gate, s.gh, s.home, s.lostGH == []);
    LaneOwned(s.home, s.hg, s.gate, s.lostHG == []);
  }

  lemma {:induction false} FirstRoundsSize(s: State, acts: seq<Action>)
    requires |s.home.socks| <= ID_COUNT && Legal(FirstRounds, s, acts)
    ensures |After(FirstRounds, s, acts).home.socks| <= ID_COUNT
    decreases |acts|
  {
    if acts != [] {
      FirstRoundsSize(Next(s, acts[0]), acts[1..]);
    }
  }

  // ---------------------------------------------------------------- reconnects

  /** While an endpoint is disconnected its waiting frames stay, in order, and are only added to. */
  lemma {:induction false} OutSurvives(s: State, acts: seq<Action>, side: Side)
    requires Base(s) && Legal(Anything, s, acts)
    requires !s.Ep(side).up && Reconnect(side) !in acts
    ensures s.Ep(side).out <= After(Anything, s, acts).Ep(side).out
    decreases |acts|
  {
    if acts != [] {
      BaseStep(s, acts[0]);
      OutStep(s, acts[0], side);
      OutSurvives(Next(s, acts[0]), acts[1..], side);
    }
  }

  /** What leaves `out` is its oldest frame: onto the wire, or lost if that send fails. Nothing else is lost here. */
  lemma OutLoses(s: State, a: Action, side: Side)
    requires Enabled(s, a)
    ensures var e, e', w, w' := s.Ep(side), Next(s, a).Ep(side), s.Wire(side), Next(s, a).Wire(side);
      if a == Drain(side) then
        e.out == [e.out[0]] + e'.out && w' == w + [e.out[0]] && Next(s, a).Lost(side) == s.Lost(side)
      else if a == SendFail(side) then
        e.out == [e.out[0]] + e'.out && w' == w && Next(s, a).Lost(side) == s.Lost(side) + [e.out[0]]
      else e.out <= e'.out && (!a.Lose? ==> Next(s, a).Lost(side) == s.Lost(side))
  {
    if a != Drain(side) && a != SendFail(side) {
      OutKeeps(s, a, side);
      if !a.Lose? {
        LostSame(s, a, side);
      }
    }
  }

  lemma OutKeeps(s: State, a: Action, side: Side)
    requires Enabled(s, a) && a != Drain(side) && a != SendFail(side)
    ensures s.Ep(side).out <= Next(s, a).Ep(side).out
  {
    hide Enabled, Next;
    if !OfOneEndpoint(a) {
      OutKeepsShared(s, a, side);
    } else if a.side != side {
      OtherRests(s, a, side);
    } else if ByReader(a) {
      ReaderTouches(s, a);
    } else if ByWriter(a) {
      WriterTouches(s, a);
    } else if BySession(a) {
      SessionTouches(s, a);
    } else {
      LinkTouches(s, a);
    }
  }

  lemma OutKeepsShared(s: State, a: Action, side: Side)
    requires Enabled(s, a) && !OfOneEndpoint(a)
    ensures s.Ep(side).out <= Next(s, a).Ep(side).out && Next(s, a).Ep(side).up == s.Ep(side).up
  {
    hide Alloc;
  }

  lemma LostSame(s: State, a: Action, side: Side)
    requires Enabled(s, a) && a != SendFail(side) && !a.Lose?
    ensures Next(s, a).Lost(side) == s.Lost(side)
  {
    hide Enabled, Next;
    if !OfOneEndpoint(a) {
      NotLostShared(s, a);
    } else if a.side != side || !ByLink(a) {
      LinksRest(s, a, side);
    } else {
      LinkTouches(s, a);
    }
  }

  lemma OutStep(s: State, a: Action, side: Side)
    requires Enabled(s, a) && !s.Ep(side).up && a != Reconnect(side)
    ensures !Next(s, a).Ep(side).up && s.Ep(side).out <= Next(s, a).Ep(side).out
  {
    hide Next;
    OutLoses(s, a, side);
    StaysDown(s, a, side);
  }

  lemma StaysDown(s: State, a: Action, side: Side)
    requires Enabled(s, a) && !s.Ep(side).up && a != Reconnect(side)
    ensures !Next(s, a).Ep(side).up
  {
    hide Enabled, Next;
    if !OfOneEndpoint(a) {
      OutKeepsShared(s, a, side);
    } else if a.side != side {
      OtherRests(s, a, side);
    } else if ByReader(a) {
      ReaderTouches(s, a);
    } else if ByWriter(a) {
      WriterTouches(s, a);
    } else if BySession(a) {
      SessionTouches(s, a);
    } else {
      LinkTouches(s, a);
    }
  }

  // ---------------------------------------------------------------- back-pressure

  /** The writer that the session loop of `e` waits for can move. */
  predicate AwaitedWriterMoves(e: Endpoint) {
    e.sess.Deliver? && (CanWrite(e, e.sess.to) || CanShut(e, e.sess.to) || CanRemove(e, e.sess.to))
  }

  /** The session loop of `e` can make its next step: drain, reconnect, end a dial, deliver, or answer. */
  predicate SessionMoves(e: Endpoint) {
    CanDrain(e) || !e.up || CanDialEnd(e) || CanEnqueue(e) || CanOrphan(e) || CanEmit(e)
  }

  /**
   When `out` is full, so that readers and acceptor wait, something that will make room can move, except in one
   case: the session loop itself waits to put a frame into the `out` that only it drains.
   */
  lemma StuckOnlyOnItself(acts: seq<Action>, side: Side)
    requires Legal(Anything, Init(), acts)
    ensures var e := After(Anything, Init(), acts).Ep(side);
      && |e.out| <= 512
      && (forall k | 0 <= k < |e.socks| :: |e.socks[k].queue| <= 256)
      && (|e.out| == 512 ==> (!SessionMoves(e) && !AwaitedWriterMoves(e) <==> e.sess.Emit?))
  {
    BaseInit();
    BaseAlways(Anything, Init(), acts);
    FullOut(After(Anything, Init(), acts).Ep(side));
  }

  lemma FullOut(e: Endpoint)
    requires EndpointOk(e)
    ensures |e.out| <= OUT_QUEUE
    ensures forall k | 0 <= k < |e.socks| :: |e.socks[k].queue| <= CONN_QUEUE
    ensures |e.out| == OUT_QUEUE ==> (!SessionMoves(e) && !AwaitedWriterMoves(e) <==> e.sess.Emit?)
  {
    forall k | 0 <= k < |e.socks|
      ensures |e.socks[k].queue| <= CONN_QUEUE
    {
      assert ConnOk(e.socks[k]);
    }
    if e.sess.Deliver? {
      DeliveryMoves(e);
    }
  }

  /** A frame on its way into a queue gets there, or its writer is gone, or its writer can make room. */
  lemma DeliveryMoves(e: Endpoint)
    requires EndpointOk(e) && e.sess.Deliver?
    ensures CanEnqueue(e) || CanOrphan(e) || AwaitedWriterMoves(e)
  {
    var c := e.socks[e.sess.to];
    assert ConnOk(c) && [e.sess.frame][0].tag < |e.socks|;
    if c.wr.Running? && |c.queue| == CONN_QUEUE {
      assert !c.queue[0].msg.Open?;
    }
  }

  /** Once that has happened it stays so: nothing ever leaves that `out` again. */
  lemma {:induction false} StuckForever(s: State, acts: seq<Action>, side: Side)
    requires Legal(Anything, s, acts)
    requires s.Ep(side).sess.Emit? && |s.Ep(side).out| == 512
    ensures var s' := After(Anything, s, acts);
      s'.Ep(side).sess == s.Ep(side).sess && s'.Ep(side).out == s.Ep(side).out
    decreases |acts|
  {
    if acts != [] {
      StuckStep(s, acts[0], side);
      StuckForever(Next(s, acts[0]), acts[1..], side);
    }
  }

  lemma StuckStep(s: State, a: Action, side: Side)
    requires Enabled(s, a) && s.Ep(side).sess.Emit? && |s.Ep(side).out| == OUT_QUEUE
    ensures Next(s, a).Ep(side).sess == s.Ep(side).sess && Next(s, a).Ep(side).out == s.Ep(side).out
  {
    hide Enabled, Next;
    if !OfOneEndpoint(a) {
      StuckShared(s, a, side);
    } else if a.side != side {
      OtherRests(s, a, side);
    } else if ByReader(a) {
      ReaderTouches(s, a);
    } else if ByWriter(a) {
      WriterTouches(s, a);
    } else if BySession(a) {
      SessionTouches(s, a);
    } else {
      LinkTouches(s, a);
    }
  }

  lemma StuckShared(s: State, a: Action, side: Side)
    requires Enabled(s, a) && !OfOneEndpoint(a) && s.Ep(side).sess.Emit? && |s.Ep(side).out| == OUT_QUEUE
    ensures Next(s, a).Ep(side).sess == s.Ep(side).sess && Next(s, a).Ep(side).out == s.Ep(side).out
  {
    hide Alloc;
  }
}
