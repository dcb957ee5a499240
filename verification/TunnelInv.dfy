/**
 The inductive invariant of the direction from gate to home, which needs little: home reuses an id only once its
 writer has removed the entry, which CLOSE, the last gate frame of that connection, made it do. The direction from
 home to gate, where home may free an id while its reader still runs, is the matter of TunnelOrder and TunnelGentle.
 */
module TunnelInv {
  import opened Common
  import opened Allocator
  import opened TunnelModel
  import opened TunnelFootprint
  import opened TunnelBase
  import opened TunnelGrowth
  import opened TunnelTrack
  import opened TunnelLane
  import opened TunnelSteps

  // ---------------------------------------------------------------- gate to home

  /** Home has reused an id only after the writer of its earlier connection was gone. */
  ghost predicate Retired(socks: seq<Conn>) {
    forall j, k | 0 <= j < k < |socks| && socks[j].id == socks[k].id :: socks[j].wr.Gone?
  }

  /** The OPEN of a connection that has been lost is nowhere else, and the gate has not opened the connection. */
  ghost predicate LostOpens(p: seq<Frame>, lost: seq<Frame>, gate: seq<Conn>, sent: nat) {
    forall f | f in lost && f.msg.Open? ::
      && f.tag < sent && f.tag < |gate| && Fresh(gate[f.tag]) && f.id == gate[f.tag].id
      && forall i | 0 <= i < |p| && p[i].msg.Open? :: p[i].tag != f.tag
  }

  /** The gate has answered CLOSE only for connections whose OPEN was lost. */
  ghost predicate AnsweredLost(lost: seq<Frame>, gate: seq<Conn>) {
    forall k | 0 <= k < |gate| && gate[k].rd.Answered? :: Frame(gate[k].id, k, Open) in lost
  }

  /** Home holds frames only for their own connection, and has never answered one. */
  ghost predicate HomeStraight(home: Endpoint) {
    && (home.sess.Deliver? ==> home.sess.frame.tag == home.sess.to)
    && (forall k | 0 <= k < |home.socks| :: !home.socks[k].rd.Answered?)
  }

  function HomePipe(s: State): seq<Frame> {
    s.hg + s.home.out
  }

  ghost predicate InvGH(s: State) {
    && Base(s) && Lane(s, Gate) && Retired(s.home.socks)
    && LostOpens(HomePipe(s), s.lostHG, s.gate.socks, SentCount(s))
    && AnsweredLost(s.lostHG, s.gate.socks)
    && HomeStraight(s.home)
  }

  /**
   No socket write fails at home, and if the gate answers DATA with CLOSE because its writer is gone, then for the
   first time and for a connection it never opened, because the OPEN was lost.
   */
  predicate FairGH(s: State, a: Action)
    requires Enabled(s, a)
  {
    && (a.WriteErr? ==> a.side.Gate?)
    && (a.Orphan? && a.side.Gate? && s.gate.sess.frame.msg.Data? ==>
          var f := s.gate.sess.frame;
          s.gate.socks[f.tag].rd.NotYet? && Frame(s.gate.socks[f.tag].id, f.tag, Open) in s.lostHG)
  }

  /** The next frame of a lane finds its connection, if the entry for its id is not another connection's. */
  lemma HeadRouted(snd: Endpoint, wire: seq<Frame>, rcv: Endpoint, whole: bool)
    requires LaneOk(snd, wire, rcv, whole) && wire != [] && Tagged([wire[0]], rcv.socks)
    requires wire[0].id in rcv.conns ==> rcv.conns[wire[0].id] == wire[0].tag
    ensures Routed(rcv, wire[0])
  {
    var f := wire[0];
    assert [f][0] == f;
    if f.id !in rcv.conns {
      assert LaneAt(snd, wire, rcv, f.tag, whole);
      if Closed(rcv.socks[f.tag].log) {
        StoppedTrack(snd, wire, rcv, whole, f.tag);
        HeadMoves(snd, wire, f.tag);
      }
    }
  }

  /** Gate frames are routed home correctly, even when ids are reused. */
  lemma RoutedHome(s: State)
    requires InvGH(s) && s.gh != []
    ensures Routed(s.home, s.gh[0])
  {
    hide LaneOk, LostOpens, AnsweredLost, HomeStraight, AcceptorOk, FirstRound, OpensOk;
    FindsOwn(s);
    HeadRouted(s.gate, s.gh, s.home, s.lostGH == []);
  }

  /** The entry that the next gate frame finds is that of its own connection. */
  lemma FindsOwn(s: State)
    requires Lane(s, Gate) && Retired(s.home.socks) && EntriesOk(s.home) && Tagged(s.gh, s.home.socks) && s.gh != []
    ensures s.gh[0].id in s.home.conns ==> s.home.conns[s.gh[0].id] == s.gh[0].tag
  {
    hide Of, GoodTrack;
    var f := s.gh[0];
    if f.id in s.home.conns {
      var c, k := s.home.conns[f.id], f.tag;
      assert LaneAt(s.gate, s.gh, s.home, c, s.lostGH == []);
      assert LaneAt(s.gate, s.gh, s.home, k, s.lostGH == []);
      if k < c {
        StoppedTrack(s.gate, s.gh, s.home, s.lostGH == [], k);
        HeadMoves(s.gate, s.gh, k);
      }
    }
  }

  lemma HarmlessGH(s: State, a: Action)
    requires InvGH(s) && Enabled(s, a) && FairGH(s, a)
    ensures Harmless(s, Gate, a)
  {
    NeverOrphaned(s.gate, s.gh, s.home, s.lostGH == []);
    if a == Take(Home) {
      RoutedHome(s);
    } else if a == Take(Gate) && s.hg[0].msg.Open? {
      OpensUnanswered(s);
    }
  }

  /** The gate has not answered for a connection whose OPEN is still under way. */
  lemma OpensUnanswered(s: State)
    requires LostOpens(HomePipe(s), s.lostHG, s.gate.socks, SentCount(s)) && AnsweredLost(s.lostHG, s.gate.socks)
    requires OpensOk(s) && s.hg != [] && s.hg[0].msg.Open?
    ensures s.hg[0].tag < |s.gate.socks| && s.gate.socks[s.hg[0].tag].rd.NotYet?
  {
    var f := s.hg[0];
    assert HomePipe(s)[0] == f;
  }

  lemma RetiredStep(s: State, a: Action)
    requires InvGH(s) && Enabled(s, a)
    ensures Retired(Next(s, a).home.socks)
  {
    if a.Accept? {
      RetiredAccept(s);
    } else {
      StepGrows(s, a, Home);
      RetiredGrows(s.home, Next(s, a).home);
    }
  }

  lemma RetiredGrows(e: Endpoint, e': Endpoint)
    requires Retired(e.socks) && Grows(e, e')
    ensures Retired(e'.socks)
  {
  }

  lemma RetiredAccept(s: State)
    requires InvGH(s) && s.acc.Waiting?
    ensures Retired(Next(s, Accept).home.socks)
  {
    hide LaneOk, LostOpens, AnsweredLost, HomeStraight, EndpointOk, SameIds, OpensOk, FirstRound, Tagged, Alloc,
      CyclicallyFirst;
    AllocatedIsFree(s.home.conns.Keys, s.next);
    var id := Alloc(s.home.conns.Keys, s.next).0;
    forall j | 0 <= j < |s.home.socks| && id == Some(s.home.socks[j].id)
      ensures s.home.socks[j].wr.Gone?
    {
      FreeIsGone(s.gate, s.gh, s.home, j, s.lostGH == []);
    }
  }

  /** A registered connection that has lost its entry has lost its writer. */
  lemma FreeIsGone(snd: Endpoint, wire: seq<Frame>, rcv: Endpoint, j: nat, whole: bool)
    requires LaneOk(snd, wire, rcv, whole) && j < |rcv.socks|
    requires rcv.socks[j].id !in rcv.conns && !rcv.socks[j].wr.Absent?
    ensures rcv.socks[j].wr.Gone?
  {
    assert LaneAt(snd, wire, rcv, j, whole);
  }

  // What has been lost.

  lemma LostOpensSame(p: seq<Frame>, p': seq<Frame>, lost: seq<Frame>, gate: seq<Conn>, gate': seq<Conn>,
                      sent: nat, sent': nat)
    requires LostOpens(p, lost, gate, sent) && sent <= sent'
    requires StaysFresh(gate, gate')
    requires forall i | 0 <= i < |p'| && p'[i].msg.Open? :: p'[i] in p || p'[i].tag >= sent
    ensures LostOpens(p', lost, gate', sent')
  {
  }

  lemma LostOpensTake(s: State)
    requires OpensOk(s) && LostOpens(HomePipe(s), s.lostHG, s.gate.socks, SentCount(s))
    requires s.hg != [] && CanTake(s.gate, s.hg[0])
    ensures LostOpens(s.hg[1..] + s.home.out, s.lostHG, DoTake(s.gate, s.hg[0], true).socks, SentCount(s))
  {
    var p := HomePipe(s);
    assert p[0] == s.hg[0] && p[1..] == s.hg[1..] + s.home.out;
  }

  lemma LostOpensMore(p: seq<Frame>, i: nat, lost: seq<Frame>, gate: seq<Conn>, sent: nat)
    requires LostOpens(p, lost, gate, sent) && OpensAscend(p) && OpensWait(p, sent, gate) && i < |p|
    requires Tagged(p, gate)
    ensures LostOpens(p[..i] + p[i + 1..], lost + [p[i]], gate, sent)
  {
    var p' := p[..i] + p[i + 1..];
    forall j | 0 <= j < |p'| ensures p'[j] == p[if j < i then j else j + 1] {}
  }

  /** Connections that nothing has been done for stay so. */
  ghost predicate StaysFresh(socks: seq<Conn>, socks': seq<Conn>) {
    && |socks| <= |socks'|
    && forall k | 0 <= k < |socks| && Fresh(socks[k]) :: Fresh(socks'[k]) && socks'[k].id == socks[k].id
  }

  /** Only handling OPEN opens a connection at the gate. */
  lemma FreshStays(s: State, a: Action)
    requires Base(s) && Enabled(s, a) && a != Take(Gate)
    ensures StaysFresh(s.gate.socks, Next(s, a).gate.socks)
  {
    hide Enabled, Next, StaysFresh, EndpointOk, SameIds, AcceptorOk, OpensOk, FirstRound, Tagged;
    if OfOneEndpoint(a) && a.side.Gate? {
      FreshStaysOwn(s, a);
    } else if OfOneEndpoint(a) {
      OtherRests(s, a, Gate);
      FreshSame(s.gate.socks);
    } else {
      FreshStaysShared(s, a);
    }
  }

  lemma FreshSame(socks: seq<Conn>)
    ensures StaysFresh(socks, socks)
  {
  }

  lemma FreshStaysShared(s: State, a: Action)
    requires EndpointOk(s.gate) && Enabled(s, a) && !OfOneEndpoint(a) && a != Take(Gate)
    ensures StaysFresh(s.gate.socks, Next(s, a).gate.socks)
  {
    hide Alloc;
  }

  lemma FreshStaysOwn(s: State, a: Action)
    requires Enabled(s, a) && OfOneEndpoint(a) && a.side.Gate?
    ensures StaysFresh(s.gate.socks, Next(s, a).gate.socks)
  {
    hide Enabled, Next, StaysFresh;
    var socks, socks' := s.gate.socks, Next(s, a).gate.socks;
    if ByReader(a) {
      ReaderTouches(s, a);
      ReaderChanges(s, a);
      FreshAt(socks, socks', a.k);
    } else if ByWriter(a) {
      WriterTouches(s, a);
      WriterChanges(s, a);
      FreshAt(socks, socks', a.k);
    } else {
      FreshStaysSession(s, a);
    }
  }

  lemma FreshAt(socks: seq<Conn>, socks': seq<Conn>, k: nat)
    requires |socks'| == |socks| && k < |socks| && socks' == socks[k := socks'[k]]
    requires Fresh(socks[k]) ==> Fresh(socks'[k]) && socks'[k].id == socks[k].id
    ensures StaysFresh(socks, socks')
  {
  }

  lemma FreshStaysSession(s: State, a: Action)
    requires Enabled(s, a) && (BySession(a) || ByLink(a)) && a.side.Gate?
    ensures StaysFresh(s.gate.socks, Next(s, a).gate.socks)
  {
    hide Enabled, Next;
    if BySession(a) {
      SessionTouches(s, a);
      SessionChanges(s, a);
    } else {
      LinkTouches(s, a);
    }
  }

  lemma SentGrows(s: State, a: Action)
    requires AcceptorOk(s) && Enabled(s, a)
    ensures SentCount(s) <= SentCount(Next(s, a))
  {
    if OfOneEndpoint(a) {
      SentSame(s, a);
    } else {
      SentGrowsShared(s, a);
    }
  }

  lemma SentSame(s: State, a: Action)
    requires Enabled(s, a) && OfOneEndpoint(a)
    ensures SentCount(Next(s, a)) == SentCount(s)
  {
    hide Enabled, Next, OfOneEndpoint;
    AcceptorRests(s, a);
  }

  lemma SentGrowsShared(s: State, a: Action)
    requires AcceptorOk(s) && Enabled(s, a) && !OfOneEndpoint(a)
    ensures SentCount(s) <= SentCount(Next(s, a))
  {
    hide Alloc;
  }

  /** What a step other than the gate's taking a frame does to the home pipe and to what it has lost. */
  lemma HomePipeStep(s: State, a: Action) returns (i: nat)
    requires Base(s) && Enabled(s, a) && a != Take(Gate)
    ensures var p, p', s' := HomePipe(s), HomePipe(Next(s, a)), Next(s, a);
      if HomeLoses(a) then
        i < |p| && p' == p[..i] + p[i + 1..] && s'.lostHG == s.lostHG + [p[i]]
      else
        s'.lostHG == s.lostHG && forall j | 0 <= j < |p'| && p'[j].msg.Open? :: p'[j] in p || p'[j].tag >= SentCount(s)
  {
    i := if a.Lose? then a.at else |s.hg|;
    if HomeLoses(a) {
      LinkPipe(s.hg, s.home.out, i);
    } else {
      HomePipeKeeps(s, a);
    }
  }

  lemma HomePipeKeeps(s: State, a: Action)
    requires Base(s) && Enabled(s, a) && a != Take(Gate) && !HomeLoses(a)
    ensures var p, p', s' := HomePipe(s), HomePipe(Next(s, a)), Next(s, a);
      s'.lostHG == s.lostHG && forall j | 0 <= j < |p'| && p'[j].msg.Open? :: p'[j] in p || p'[j].tag >= SentCount(s)
  {
    hide SentCount;
    if a == Drain(Home) {
      LinkPipe(s.hg, s.home.out, 0);
    } else {
      HomePipeAdds(s, a);
    }
  }

  lemma HomePipeAdds(s: State, a: Action)
    requires SessionOk(s.home) && Enabled(s, a) && a != Take(Gate) && !HomeLoses(a) && a != Drain(Home)
    ensures var p, p', s' := HomePipe(s), HomePipe(Next(s, a)), Next(s, a);
      s'.lostHG == s.lostHG && forall j | 0 <= j < |p'| && p'[j].msg.Open? :: p'[j] in p || p'[j].tag >= SentCount(s)
  {
    hide Enabled, Next, SessionOk, SentCount, AddsNewest;
    HomePipeGrows(s, a);
    PipeAdds(s.hg, s.home.out, Next(s, a).home.out, SentCount(s));
  }

  lemma PipeAdds(w: seq<Frame>, out: seq<Frame>, out': seq<Frame>, sent: nat)
    requires AddsNewest(out, out', sent)
    ensures forall j | 0 <= j < |w + out'| && (w + out')[j].msg.Open? ::
      (w + out')[j] in w + out || (w + out')[j].tag >= sent
  {
    var p, p' := w + out, w + out';
    forall j | 0 <= j < |p'| && p'[j].msg.Open? ensures p'[j] in p || p'[j].tag >= sent {
      if j < |p| {
        assert p'[j] == p[j];
      } else {
        assert p'[j] == out'[j - |w|];
      }
    }
  }

  /** What home adds to its pipe in a step is an OPEN only if it is that of the newest connection. */
  ghost predicate AddsNewest(out: seq<Frame>, out': seq<Frame>, sent: nat) {
    out <= out' && forall j | |out| <= j < |out'| && out'[j].msg.Open? :: out'[j].tag >= sent
  }

  lemma HomePipeGrows(s: State, a: Action)
    requires SessionOk(s.home) && Enabled(s, a) && a != Take(Gate) && !HomeLoses(a) && a != Drain(Home)
    ensures Next(s, a).lostHG == s.lostHG && Next(s, a).hg == s.hg
    ensures AddsNewest(s.home.out, Next(s, a).home.out, SentCount(s))
  {
    hide Enabled, Next, SessionOk, SentCount;
    if OfOneEndpoint(a) && a.side.Home? {
      HomePipeGrowsOwn(s, a);
    } else if OfOneEndpoint(a) {
      OtherRests(s, a, Home);
      LinksRest(s, a, Home);
    } else {
      HomePipeGrowsShared(s, a);
    }
  }

  lemma HomePipeGrowsOwn(s: State, a: Action)
    requires SessionOk(s.home) && Enabled(s, a) && OfOneEndpoint(a) && a.side.Home? && !HomeLoses(a) && !a.Drain?
    ensures Next(s, a).lostHG == s.lostHG && Next(s, a).hg == s.hg
    ensures AddsNewest(s.home.out, Next(s, a).home.out, SentCount(s))
  {
    hide Enabled, Next, SentCount;
    if ByReader(a) {
      ReaderTouches(s, a);
      ReaderChanges(s, a);
    } else if ByWriter(a) {
      WriterTouches(s, a);
    } else if BySession(a) {
      SessionTouches(s, a);
    } else {
      LinkTouches(s, a);
    }
  }

  lemma HomePipeGrowsShared(s: State, a: Action)
    requires Enabled(s, a) && !OfOneEndpoint(a) && a != Take(Gate)
    ensures Next(s, a).lostHG == s.lostHG && Next(s, a).hg == s.hg
    ensures AddsNewest(s.home.out, Next(s, a).home.out, SentCount(s))
  {
    hide Alloc;
  }

  predicate HomeLoses(a: Action) {
    a == SendFail(Home) || (a.Lose? && a.side.Home?)
  }

  lemma PipeTagged(s: State)
    requires SameIds(s) && Tagged(s.hg, s.home.socks) && Tagged(s.home.out, s.home.socks)
    ensures Tagged(HomePipe(s), s.home.socks) && Tagged(HomePipe(s), s.gate.socks)
  {
    TaggedSame(HomePipe(s), s.home.socks, s.gate.socks);
  }

  lemma LostOpensLoss(s: State, a: Action)
    requires Base(s) && LostOpens(HomePipe(s), s.lostHG, s.gate.socks, SentCount(s)) && Enabled(s, a) && HomeLoses(a)
    ensures var s' := Next(s, a);
      LostOpens(HomePipe(s'), s'.lostHG, s'.gate.socks, SentCount(s'))
  {
    hide LostOpens, Enabled, Next, SentCount, EndpointOk, AcceptorOk, FirstRound;
    var i := HomePipeStep(s, a);
    HomePipeTagged(s);
    LostOpensMore(HomePipe(s), i, s.lostHG, s.gate.socks, SentCount(s));
    SentSame(s, a);
    OtherRests(s, a, Gate);
  }

  lemma HomePipeTagged(s: State)
    requires Base(s)
    ensures Tagged(HomePipe(s), s.home.socks) && Tagged(HomePipe(s), s.gate.socks)
  {
    hide AcceptorOk, FirstRound, OpensOk;
    PipeTagged(s);
  }

  lemma LostOpensQuiet(s: State, a: Action)
    requires Base(s) && LostOpens(HomePipe(s), s.lostHG, s.gate.socks, SentCount(s)) && Enabled(s, a)
    requires !HomeLoses(a) && a != Take(Gate)
    ensures var s' := Next(s, a);
      LostOpens(HomePipe(s'), s'.lostHG, s'.gate.socks, SentCount(s'))
  {
    hide LostOpens, SentCount, StaysFresh, Enabled, Next;
    var s' := Next(s, a);
    FreshStays(s, a);
    SentGrows(s, a);
    var _ := HomePipeStep(s, a);
    LostOpensSame(HomePipe(s), HomePipe(s'), s.lostHG, s.gate.socks, s'.gate.socks, SentCount(s), SentCount(s'));
  }

  lemma LostOpensStep(s: State, a: Action)
    requires Base(s) && LostOpens(HomePipe(s), s.lostHG, s.gate.socks, SentCount(s)) && Enabled(s, a)
    ensures var s' := Next(s, a);
      LostOpens(HomePipe(s'), s'.lostHG, s'.gate.socks, SentCount(s'))
  {
    hide LostOpens;
    if a == Take(Gate) {
      LostOpensTake(s);
    } else if HomeLoses(a) {
      LostOpensLoss(s, a);
    } else {
      LostOpensQuiet(s, a);
    }
  }

  lemma AnsweredLostStep(s: State, a: Action)
    requires Base(s) && AnsweredLost(s.lostHG, s.gate.socks) && Enabled(s, a) && FairGH(s, a)
    ensures AnsweredLost(Next(s, a).lostHG, Next(s, a).gate.socks)
  {
    if a.Accept? {
      AnsweredLostAccept(s);
    } else {
      AnsweredLostOther(s, a);
    }
  }

  lemma AnsweredLostAccept(s: State)
    requires AnsweredLost(s.lostHG, s.gate.socks) && s.acc.Waiting?
    ensures AnsweredLost(Next(s, Accept).lostHG, Next(s, Accept).gate.socks)
  {
    hide Alloc;
  }

  lemma AnsweredLostOther(s: State, a: Action)
    requires Base(s) && AnsweredLost(s.lostHG, s.gate.socks) && Enabled(s, a) && FairGH(s, a) && !a.Accept?
    ensures AnsweredLost(Next(s, a).lostHG, Next(s, a).gate.socks)
  {
    hide Base, Enabled, Next;
    var s' := Next(s, a);
    StepGrows(s, a, Gate);
    LostGrows(s, a);
    forall k | 0 <= k < |s'.gate.socks| && s'.gate.socks[k].rd.Answered?
      ensures Frame(s'.gate.socks[k].id, k, Open) in s'.lostHG
    {
      assert ConnGrows(s.gate.socks[k], s'.gate.socks[k]);
      if !s.gate.socks[k].rd.Answered? {
        NewlyAnswered(s, a, Gate, k);
      }
    }
  }

  lemma LostGrows(s: State, a: Action)
    requires Enabled(s, a)
    ensures s.lostHG <= Next(s, a).lostHG
  {
    hide Enabled, Next;
    if !OfOneEndpoint(a) {
      NotLostShared(s, a);
    } else if a.side.Gate? || !ByLink(a) {
      LinksRest(s, a, Home);
    } else {
      LinkTouches(s, a);
    }
  }

  lemma NotLostShared(s: State, a: Action)
    requires Enabled(s, a) && !OfOneEndpoint(a)
    ensures Next(s, a).lostHG == s.lostHG && Next(s, a).lostGH == s.lostGH
  {
    hide Alloc;
  }

  /** Only the answer for DATA whose writer is gone makes a connection answered. */
  lemma NewlyAnswered(s: State, a: Action, side: Side, k: nat)
    requires Enabled(s, a) && !a.Accept? && k < |s.Ep(side).socks| && |Next(s, a).Ep(side).socks| == |s.Ep(side).socks|
    requires !s.Ep(side).socks[k].rd.Answered? && Next(s, a).Ep(side).socks[k].rd.Answered?
    ensures a == Orphan(side) && s.Ep(side).sess.Deliver?
    ensures s.Ep(side).sess.frame.msg.Data? && s.Ep(side).sess.frame.tag == k
    ensures s.Ep(side).socks[k].rd.NotYet?
  {
    hide Enabled, Next;
    if OfOneEndpoint(a) {
      if a.side != side {
        OtherRests(s, a, side);
      } else {
        NewlyAnsweredOwn(s, a, k);
      }
    } else {
      NotAnsweredShared(s, a, side, k);
    }
  }

  lemma NewlyAnsweredOwn(s: State, a: Action, k: nat)
    requires Enabled(s, a) && OfOneEndpoint(a) && k < |s.Ep(a.side).socks|
    requires |Next(s, a).Ep(a.side).socks| == |s.Ep(a.side).socks|
    requires !s.Ep(a.side).socks[k].rd.Answered? && Next(s, a).Ep(a.side).socks[k].rd.Answered?
    ensures a.Orphan? && s.Ep(a.side).sess.Deliver?
    ensures s.Ep(a.side).sess.frame.msg.Data? && s.Ep(a.side).sess.frame.tag == k
    ensures s.Ep(a.side).socks[k].rd.NotYet?
  {
    hide Enabled, Next;
    if ByReader(a) {
      ReaderTouches(s, a);
      ReaderChanges(s, a);
    } else if ByWriter(a) {
      WriterTouches(s, a);
      WriterChanges(s, a);
    } else if BySession(a) {
      SessionChanges(s, a);
    } else {
      LinkTouches(s, a);
    }
  }

  lemma NotAnsweredShared(s: State, a: Action, side: Side, k: nat)
    requires Enabled(s, a) && !a.Accept? && !OfOneEndpoint(a) && k < |s.Ep(side).socks|
    requires |Next(s, a).Ep(side).socks| == |s.Ep(side).socks| && !s.Ep(side).socks[k].rd.Answered?
    ensures !Next(s, a).Ep(side).socks[k].rd.Answered?
  {
  }

  lemma HomeStraightStep(s: State, a: Action)
    requires InvGH(s) && Enabled(s, a)
    ensures HomeStraight(Next(s, a).home)
  {
    hide LaneOk, Retired, LostOpens, AnsweredLost, Base;
    NeverOrphaned(s.gate, s.gh, s.home, s.lostGH == []);
    HomeUnanswered(s, a);
    if a == Take(Home) {
      RoutedHome(s);
    } else {
      HoldsSame(s, a);
    }
  }

  lemma HomeUnanswered(s: State, a: Action)
    requires Base(s) && HomeStraight(s.home) && !CanOrphan(s.home) && Enabled(s, a)
    ensures forall k | 0 <= k < |Next(s, a).home.socks| :: !Next(s, a).home.socks[k].rd.Answered?
  {
    if a.Accept? {
      HomeUnansweredAccept(s);
    } else {
      HomeUnansweredOther(s, a);
    }
  }

  lemma HomeUnansweredAccept(s: State)
    requires HomeStraight(s.home) && s.acc.Waiting?
    ensures forall k | 0 <= k < |Next(s, Accept).home.socks| :: !Next(s, Accept).home.socks[k].rd.Answered?
  {
    hide Alloc;
  }

  lemma HomeUnansweredOther(s: State, a: Action)
    requires Base(s) && HomeStraight(s.home) && !CanOrphan(s.home) && Enabled(s, a) && !a.Accept?
    ensures forall k | 0 <= k < |Next(s, a).home.socks| :: !Next(s, a).home.socks[k].rd.Answered?
  {
    hide Base, Next, CanOrphan;
    var s' := Next(s, a);
    StepGrows(s, a, Home);
    forall k | 0 <= k < |s'.home.socks| ensures !s'.home.socks[k].rd.Answered? {
      if s'.home.socks[k].rd.Answered? {
        NewlyAnswered(s, a, Home, k);
      }
    }
  }

  /** Home comes to hold a frame only by taking it off the link. */
  lemma HoldsSame(s: State, a: Action)
    requires Enabled(s, a) && a != Take(Home)
    ensures Next(s, a).home.sess.Deliver? ==> Next(s, a).home.sess == s.home.sess
  {
    hide Enabled, Next;
    if !OfOneEndpoint(a) {
      HoldsSameShared(s, a);
    } else if a.side.Gate? {
      OtherRests(s, a, Home);
    } else if ByReader(a) {
      ReaderTouches(s, a);
    } else if ByWriter(a) {
      WriterTouches(s, a);
    } else if BySession(a) {
      SessionTouches(s, a);
    } else {
      LinkTouches(s, a);
    }
  }

  lemma HoldsSameShared(s: State, a: Action)
    requires Enabled(s, a) && !OfOneEndpoint(a) && a != Take(Home)
    ensures Next(s, a).home.sess.Deliver? ==> Next(s, a).home.sess == s.home.sess
  {
    hide Alloc;
  }

  lemma InvGHStep(s: State, a: Action)
    requires InvGH(s) && Enabled(s, a) && FairGH(s, a)
    ensures InvGH(Next(s, a))
  {
    hide Base, LaneOk, Retired, LostOpens, AnsweredLost, HomeStraight;
    InvGHParts(s, a);
    LostOpensStep(s, a);
    HomeStraightStep(s, a);
  }

  lemma InvGHParts(s: State, a: Action)
    requires InvGH(s) && Enabled(s, a) && FairGH(s, a)
    ensures Base(Next(s, a)) && Lane(Next(s, a), Gate) && Retired(Next(s, a).home.socks)
    ensures AnsweredLost(Next(s, a).lostHG, Next(s, a).gate.socks)
  {
    hide LaneOk, Retired, LostOpens, AnsweredLost, HomeStraight, FairGH;
    BaseStep(s, a);
    HarmlessGH(s, a);
    LaneStep(s, Gate, a);
    RetiredStep(s, a);
    AnsweredLostStep(s, a);
  }

}
