/** What the tunnel delivers, for every run. */
module TunnelTheorems {
  import opened Common
  import opened Allocator
  import opened TunnelModel
  import opened TunnelFootprint
  import opened TunnelBase
  import opened TunnelGrowth
  import opened TunnelTrack
  import opened TunnelLane
  import opened TunnelSteps
  import opened TunnelInv
  import opened TunnelOrder
  import opened TunnelGentle

  /**
   What a run may do. `Gentle` runs have no failing socket write and reuse ids with the care of `FairHG`; `HomeSafe`
   runs only have no failing write at home and no "writer gone" answer of the gate but the harmless one of `FairGH`;
   `FirstRounds` runs have no failing socket write and accept at most 256 connections; `NoWriteFails` asks for just
   the former. `WhenHandled` asks that the entry has gone already when the gate handles an OPEN, and only then that the
   earlier home readers on its id have ended, otherwise what `Gentle` asks; the last three leave out a condition of
   `Gentle`: the one on entries when a dial succeeds, the same when it fails, and the one on losses.
   */
  datatype Rules =
    | Anything | NoWriteFails | HomeSafe | Gentle | FirstRounds
    | WhenHandled | ButEntries | ButRefusals | ButLosses

  /** When the gate handles an OPEN, it has no entry for the id, and every earlier home reader on it has ended. */
  ghost predicate EndedWhenHandled(s: State, a: Action)
    requires Enabled(s, a)
  {
    a == Take(Gate) && s.hg[0].msg.Open? ==>
      && s.hg[0].id !in s.gate.conns
      && forall j | 0 <= j < s.hg[0].tag && j < |s.home.socks| && s.home.socks[j].id == s.hg[0].id ::
           s.home.socks[j].rd.Done?
  }

  ghost predicate Unmuddled(s: State, a: Action)
    requires Enabled(s, a)
  {
    !Muddled(Next(s, a).gate, Next(s, a).lostHG)
  }

  ghost predicate Allowed(r: Rules, s: State, a: Action)
    requires Enabled(s, a)
  {
    match r
    case Anything => true
    case NoWriteFails => !a.WriteErr?
    case HomeSafe => FairGH(s, a)
    case Gentle => FairHG(s, a)
    case FirstRounds => !a.WriteErr? && |Next(s, a).home.socks| <= ID_COUNT
    case WhenHandled => !a.WriteErr? && EndedWhenHandled(s, a) && Unmuddled(s, a)
    case ButEntries => !a.WriteErr? && ReadersEnded(s, a) && (a.DialErr? ==> EntryFree(s, a)) && Unmuddled(s, a)
    case ButRefusals => !a.WriteErr? && ReadersEnded(s, a) && (a.DialOk? ==> EntryFree(s, a)) && Unmuddled(s, a)
    case ButLosses => !a.WriteErr? && ReadersEnded(s, a) && EntryFree(s, a)
  }

  ghost predicate Legal(r: Rules, s: State, acts: seq<Action>)
    decreases |acts|
  {
    acts == [] || (Enabled(s, acts[0]) && Allowed(r, s, acts[0]) && Legal(r, Next(s, acts[0]), acts[1..]))
  }

  ghost function After(r: Rules, s: State, acts: seq<Action>): State
    requires Legal(r, s, acts)
    decreases |acts|
  {
    if acts == [] then s else After(r, Next(s, acts[0]), acts[1..])
  }

  lemma {:induction false} BaseAlways(r: Rules, s: State, acts: seq<Action>)
    requires Base(s) && Legal(r, s, acts)
    ensures Base(After(r, s, acts))
    decreases |acts|
  {
    hide Base, Enabled, Next, Allowed;
    if acts != [] {
      BaseStep(s, acts[0]);
      BaseAlways(r, Next(s, acts[0]), acts[1..]);
    }
  }

  lemma {:induction false} HomeSafeAlways(s: State, acts: seq<Action>)
    requires InvGH(s) && Legal(HomeSafe, s, acts)
    ensures InvGH(After(HomeSafe, s, acts))
    decreases |acts|
  {
    hide InvGH, FairGH, Enabled, Next;
    if acts != [] {
      InvGHStep(s, acts[0]);
      HomeSafeAlways(Next(s, acts[0]), acts[1..]);
    }
  }

  lemma {:induction false} GentleAlways(s: State, acts: seq<Action>)
    requires InvHG(s) && Legal(Gentle, s, acts)
    ensures InvHG(After(Gentle, s, acts))
    decreases |acts|
  {
    hide InvHG, FairHG, Enabled, Next;
    if acts != [] {
      InvHGStep(s, acts[0]);
      GentleAlways(Next(s, acts[0]), acts[1..]);
    }
  }

  /** During the first round of ids nothing can be reused too early. */
  lemma FirstRoundIsGentle(s: State, a: Action)
    requires InvHG(s) && Enabled(s, a) && Allowed(FirstRounds, s, a)
    ensures FairHG(s, a)
  {
    hide Base, LaneOk, Retired, LostOpens, AnsweredLost, HomeStraight, OrderOk, GateLosses, Ledger, Muddled,
      ReadersEnded, EntryFree, Enabled, Next;
    FirstRoundFits(s, a);
    FirstRoundMuddlesNothing(s, a);
  }

  lemma FirstRoundFits(s: State, a: Action)
    requires Base(s) && Enabled(s, a) && |Next(s, a).home.socks| <= ID_COUNT
    ensures ReadersEnded(s, a) && EntryFree(s, a)
  {
    hide Next, AcceptorOk, OpensOk, Tagged;
    SizeGrows(s, a);
    FirstRoundReaders(s, a);
    FirstRoundEntry(s);
  }

  lemma FirstRoundMuddlesNothing(s: State, a: Action)
    requires Base(s) && LostOpens(HomePipe(s), s.lostHG, s.gate.socks, SentCount(s))
    requires Enabled(s, a) && |Next(s, a).home.socks| <= ID_COUNT
    ensures !Muddled(Next(s, a).gate, Next(s, a).lostHG)
  {
    hide Next, Enabled, LostOpens, Muddled, AcceptorOk, OpensOk, Tagged;
    BaseStep(s, a);
    LostOpensStep(s, a);
    FirstRoundUnmuddled(Next(s, a));
  }

  lemma FirstRoundUnmuddled(s: State)
    requires SameIds(s) && FirstRound(s) && |s.home.socks| <= ID_COUNT && EntriesOk(s.gate)
    requires LostOpens(HomePipe(s), s.lostHG, s.gate.socks, SentCount(s))
    ensures !Muddled(s.gate, s.lostHG)
  {
    forall id: ConnId, k: nat | id in s.gate.conns && Frame(id, k, Open) in s.lostHG
      ensures k == s.gate.conns[id]
    {
      assert s.gate.socks[k].id == id && s.home.socks[k].id == k;
    }
  }

  lemma SizeGrows(s: State, a: Action)
    requires Base(s) && Enabled(s, a)
    ensures |s.home.socks| <= |Next(s, a).home.socks|
  {
    hide Base, Alloc;
    if !a.Accept? {
      StepGrows(s, a, Home);
    }
  }

  lemma FirstRoundReaders(s: State, a: Action)
    requires FirstRound(s) && |s.home.socks| <= ID_COUNT && Enabled(s, a)
    ensures ReadersEnded(s, a)
  {
  }

  lemma FirstRoundEntry(s: State)
    requires SameIds(s) && FirstRound(s) && |s.home.socks| <= ID_COUNT && EndpointOk(s.gate)
    ensures s.gate.sess.Dial? ==> s.gate.sess.id !in s.gate.conns
  {
    if s.gate.sess.Dial? {
      assert ConnOk(s.gate.socks[s.gate.sess.conn]);
    }
  }

  lemma {:induction false} FirstRoundsAlways(s: State, acts: seq<Action>)
    requires InvHG(s) && Legal(FirstRounds, s, acts)
    ensures Legal(Gentle, s, acts) && After(Gentle, s, acts) == After(FirstRounds, s, acts)
    decreases |acts|
  {
    hide InvHG, FairHG, Enabled, Next;
    if acts != [] {
      FirstRoundIsGentle(s, acts[0]);
      InvHGStep(s, acts[0]);
      FirstRoundsAlways(Next(s, acts[0]), acts[1..]);
    }
  }

  /** What holds of home-safe runs holds of gentle ones. */
  lemma {:induction false} GentleIsHomeSafe(s: State, acts: seq<Action>)
    requires InvHG(s) && Legal(Gentle, s, acts)
    ensures Legal(HomeSafe, s, acts) && After(HomeSafe, s, acts) == After(Gentle, s, acts)
    decreases |acts|
  {
    hide InvHG, FairHG, FairGH, Harmless, Enabled, Next;
    if acts != [] {
      HarmlessHG(s, acts[0]);
      InvHGStep(s, acts[0]);
      GentleIsHomeSafe(Next(s, acts[0]), acts[1..]);
    }
  }

  // ---------------------------------------------------------------- what is delivered

  /** The chunks of the DATA frames of p. */
  function Payloads(p: seq<Frame>): seq<Chunk> {
    if p == [] then []
    else Payloads(p[..|p| - 1]) + (if p[|p| - 1].msg.Data? then [p[|p| - 1].msg.bytes] else [])
  }

  lemma {:induction false} PayloadsConcat(p: seq<Frame>, q: seq<Frame>)
    ensures Payloads(p + q) == Payloads(p) + Payloads(q)
  {
    if q == [] {
      assert p + q == p;
    } else {
      var q0 := q[..|q| - 1];
      assert (p + q)[..|p + q| - 1] == p + q0;
      PayloadsConcat(p, q0);
    }
  }

  /** `w` can be read off `g` from left to right at the ascending positions `at`. */
  ghost predicate PickedAt(w: seq<Chunk>, g: seq<Chunk>, at: seq<nat>) {
    && |at| == |w|
    && (forall i | 0 <= i < |at| :: at[i] < |g| && w[i] == g[at[i]])
    && (forall i, j | 0 <= i < j < |at| :: at[i] < at[j])
  }

  ghost predicate Subsequence(w: seq<Chunk>, g: seq<Chunk>) {
    exists at :: PickedAt(w, g, at)
  }

  /** The positions from which the DATA frames of a good track were read. */
  lemma {:induction false} PickTrack(t: seq<Frame>, c: Conn, k: nat, bound: nat) returns (at: seq<nat>)
    requires forall i | 0 <= i < |t| :: FrameOk(t[i], c, k)
    requires Ascending(t) && forall i | 0 <= i < |t| && t[i].msg.Data? :: t[i].msg.idx < bound
    ensures PickedAt(Payloads(t), c.got, at)
    ensures forall i | 0 <= i < |at| :: at[i] < bound
    decreases |t|
  {
    if t == [] {
      at := [];
    } else {
      var f := t[|t| - 1];
      if f.msg.Data? {
        assert FrameOk(f, c, k);
        at := PickTrack(t[..|t| - 1], c, k, f.msg.idx);
        PickOneMore(Payloads(t[..|t| - 1]), c.got, at, f.msg.idx);
        at := at + [f.msg.idx];
      } else {
        at := PickTrack(t[..|t| - 1], c, k, bound);
        assert Payloads(t) == Payloads(t[..|t| - 1]);
      }
    }
  }

  lemma PickOneMore(w: seq<Chunk>, g: seq<Chunk>, at: seq<nat>, next: nat)
    requires PickedAt(w, g, at) && next < |g| && forall i | 0 <= i < |at| :: at[i] < next
    ensures PickedAt(w + [g[next]], g, at + [next])
  {
  }

  /** The payloads of a run of consecutive DATA frames. */
  lemma {:induction false} PayloadsInRow(t: seq<Frame>, g: seq<Chunk>, m: nat)
    requires m + |t| <= |g|
    requires forall i | 0 <= i < |t| :: t[i].msg.Data? && t[i].msg.bytes == g[m + i]
    ensures Payloads(t) == g[m..m + |t|]
    decreases |t|
  {
    if t != [] {
      PayloadsInRow(t[..|t| - 1], g, m);
    }
  }

  /** A complete track holds exactly what was read. */
  lemma WholeTrack(t: seq<Frame>, c: Conn, k: nat)
    requires GoodTrack(t, c, k, true)
    ensures Payloads(t) == c.got
  {
    hide Payloads, GoodTrack, OpenOffset;
    var a := OpenOffset(t);
    var b := a + |c.got|;
    WholeEnds(t, c, k);
    WholeMiddle(t, c, k);
    PayloadsOfMiddle(t[..a], t[a..b], t[b..]);
    assert t == t[..a] + (t[a..b] + t[b..]);
  }

  lemma WholeEnds(t: seq<Frame>, c: Conn, k: nat)
    requires GoodTrack(t, c, k, true)
    ensures var a := OpenOffset(t);
      a + |c.got| <= |t| && Payloads(t[..a]) == [] && Payloads(t[a + |c.got|..]) == []
  {
    hide Payloads;
    var a := OpenOffset(t);
    NoPayload(t[..a]);
    NoPayload(t[a + |c.got|..]);
  }

  lemma PayloadsOfMiddle(x: seq<Frame>, y: seq<Frame>, z: seq<Frame>)
    requires Payloads(x) == [] && Payloads(z) == []
    ensures Payloads(x + (y + z)) == Payloads(y)
  {
    hide Payloads;
    PayloadsConcat(y, z);
    PayloadsConcat(x, y + z);
  }

  lemma WholeMiddle(t: seq<Frame>, c: Conn, k: nat)
    requires GoodTrack(t, c, k, true)
    ensures var a := OpenOffset(t); Payloads(t[a..a + |c.got|]) == c.got
  {
    var a := OpenOffset(t);
    var y := t[a..a + |c.got|];
    forall i | 0 <= i < |y|
      ensures y[i].msg.Data? && y[i].msg.bytes == c.got[0 + i]
    {
      assert y[i] == t[a + i];
      assert FrameOk(t[a + i], c, k);
    }
    PayloadsInRow(y, c.got, 0);
  }

  lemma NoPayload(x: seq<Frame>)
    requires |x| <= 1 && (x != [] ==> !x[0].msg.Data?)
    ensures Payloads(x) == []
  {
    if x != [] {
      assert x[..0] == [];
    }
  }

  /** The writer has left its loop. */
  predicate Stopped(c: Conn) {
    c.wr.Exiting? || c.wr.Gone?
  }

  /**
   A socket is only ever given chunks that the reader of the same connection read, in order and each at most once;
   its writer has stopped only if that reader is finished.
   */
  ghost predicate Delivers(from: Conn, to: Conn, k: nat) {
    && (forall i | 0 <= i < |to.log| :: to.log[i].tag == k)
    && Subsequence(Payloads(to.log), from.got)
    && (Stopped(to) ==> Finished(from))
  }

  /** The chunks are a run without gaps behind the `m` that found no entry, up to the end if the writer has stopped. */
  ghost predicate DeliversRun(from: Conn, to: Conn, m: nat) {
    var w, g := Payloads(to.log), from.got;
    m + |w| <= |g| && w == g[m..m + |w|] && (Stopped(to) ==> m + |w| == |g|)
  }

  /** The chunks are a prefix of those read, and all of them if the writer has stopped. */
  ghost predicate DeliversPrefix(from: Conn, to: Conn) {
    Payloads(to.log) <= from.got && (Stopped(to) ==> Payloads(to.log) == from.got)
  }

  lemma RunIsPrefix(from: Conn, to: Conn)
    requires DeliversRun(from, to, 0)
    ensures DeliversPrefix(from, to)
  {
  }

  /** How many chunks of connection k found no entry. */
  function MissedChunks(e: Endpoint, k: nat): nat {
    |Payloads(Of(e.missed, k))|
  }

  /** What one lane delivers to connection k. */
  lemma LaneDelivers(snd: Endpoint, wire: seq<Frame>, rcv: Endpoint, k: nat, whole: bool)
    requires LaneOk(snd, wire, rcv, whole) && k < |snd.socks|
    ensures Delivers(snd.socks[k], rcv.socks[k], k)
    ensures whole ==> DeliversRun(snd.socks[k], rcv.socks[k], MissedChunks(rcv, k))
  {
    hide Subsequence, Payloads, GoodTrack;
    assert LaneAt(snd, wire, rcv, k, whole);
    var t, missed, log := Track(snd, wire, rcv, k), Of(rcv.missed, k), rcv.socks[k].log;
    var rest := Of(rcv.socks[k].queue, k) + HeldFor(rcv.sess, k) + Front(snd, wire, k);
    SplitAtLog(missed, log, Of(rcv.socks[k].queue, k), HeldFor(rcv.sess, k), Front(snd, wire, k));
    LogIsPicked(missed, log, rest, snd.socks[k], k, whole);
    if Closed(log) {
      StoppedTrack(snd, wire, rcv, whole, k);
    }
    if whole {
      LogIsRun(missed, log, rest, snd.socks[k], k);
    }
  }

  lemma LogIsRun(a: seq<Frame>, log: seq<Frame>, b: seq<Frame>, c: Conn, k: nat)
    requires GoodTrack((a + log) + b, c, k, true)
    ensures var m, w := |Payloads(a)|, Payloads(log);
      m + |w| <= |c.got| && w == c.got[m..m + |w|] && (b == [] ==> m + |w| == |c.got|)
  {
    WholeTrack((a + log) + b, c, k);
    PayloadsConcat(a + log, b);
    PayloadsConcat(a, log);
  }

  lemma SplitAtLog(a: seq<Frame>, b: seq<Frame>, c: seq<Frame>, d: seq<Frame>, e: seq<Frame>)
    ensures (a + b + c + d) + e == (a + b) + (c + d + e)
  {
  }

  lemma LogIsPicked(a: seq<Frame>, log: seq<Frame>, b: seq<Frame>, c: Conn, k: nat, whole: bool)
    requires GoodTrack((a + log) + b, c, k, whole)
    ensures forall i | 0 <= i < |log| :: log[i].tag == k
    ensures Subsequence(Payloads(log), c.got)
  {
    var t := (a + log) + b;
    forall i | 0 <= i < |log|
      ensures log[i] == t[|a| + i]
    {
    }
    forall i | 0 <= i < |log|
      ensures FrameOk(log[i], c, k)
    {
      assert FrameOk(t[|a| + i], c, k);
    }
    var at := PickTrack(log, c, k, |c.got|);
  }

  // ---------------------------------------------------------------- gate to home

  /**
   Gate to home, with ids reused at will: a home socket is only ever given chunks that the gate reader of the same
   connection read, in order and each at most once. If the link lost nothing they are a run without gaps, and a
   prefix if nothing came before the connection was registered; a writer that was shut down has written all of it.
   */
  lemma GateToHome(acts: seq<Action>, k: nat)
    requires Legal(HomeSafe, Init(), acts)
    requires k < |After(HomeSafe, Init(), acts).home.socks|
    ensures var s := After(HomeSafe, Init(), acts);
      && |s.gate.socks| == |s.home.socks|
      && var from, to := s.gate.socks[k], s.home.socks[k];
      && Delivers(from, to, k)
      && (s.lostGH == [] ==>
            && DeliversRun(from, to, MissedChunks(s.home, k))
            && (MissedChunks(s.home, k) == 0 ==> DeliversPrefix(from, to)))
  {
    hide InvHG, InvGH, Delivers, DeliversRun, DeliversPrefix, MissedChunks, Legal;
    InvInit();
    InitGH();
    HomeSafeAlways(Init(), acts);
    GateToHomeAt(After(HomeSafe, Init(), acts), k);
  }

  lemma GateToHomeAt(s: State, k: nat)
    requires InvGH(s) && k < |s.home.socks|
    ensures |s.gate.socks| == |s.home.socks|
    ensures Delivers(s.gate.socks[k], s.home.socks[k], k)
    ensures s.lostGH == [] ==>
      && DeliversRun(s.gate.socks[k], s.home.socks[k], MissedChunks(s.home, k))
      && (MissedChunks(s.home, k) == 0 ==> DeliversPrefix(s.gate.socks[k], s.home.socks[k]))
  {
    hide Delivers, DeliversRun, DeliversPrefix, MissedChunks, LaneOk, Retired, LostOpens, AnsweredLost;
    LaneDelivers(s.gate, s.gh, s.home, k, s.lostGH == []);
    if s.lostGH == [] && MissedChunks(s.home, k) == 0 {
      RunIsPrefix(s.gate.socks[k], s.home.socks[k]);
    }
  }

  // ---------------------------------------------------------------- home to gate

  /** Without losses the gate misses only frames of connections it could not dial. */
  ghost predicate MissedOnlyRefused(missed: seq<Frame>, gate: seq<Conn>) {
    forall i | 0 <= i < |missed| :: missed[i].tag < |gate| && gate[missed[i].tag].rd.Refused?
  }

  /** The OPEN of every announced connection the gate has not started on is still under way. */
  ghost predicate Announced(p: seq<Frame>, gate: seq<Conn>, sent: nat) {
    forall k | 0 <= k < sent && k < |gate| && Fresh(gate[k]) :: Frame(gate[k].id, k, Open) in p
  }

  ghost predicate NothingEarly(s: State) {
    s.lostHG == [] ==>
      MissedOnlyRefused(s.gate.missed, s.gate.socks) && Announced(HomePipe(s), s.gate.socks, SentCount(s))
  }

  lemma AnnouncedGrows(s: State, s': State, add: seq<Frame>)
    requires NothingEarly(s) && Grows(s.gate, s'.gate)
    requires s'.lostHG == s.lostHG && s'.gate.missed == s.gate.missed
    requires HomePipe(s') == HomePipe(s) + add
    requires SentCount(s') <= SentCount(s)
    ensures NothingEarly(s')
  {
  }

  lemma EarlySendOpen(s: State)
    requires NothingEarly(s) && SameIds(s) && Enabled(s, SendOpen)
    ensures NothingEarly(Next(s, SendOpen))
  {
    var n := |s.home.socks| - 1;
    var f := Frame(s.home.socks[n].id, n, Open);
    assert HomePipe(Next(s, SendOpen)) == HomePipe(s) + [f];
    assert f in HomePipe(s) + [f];
  }

  lemma EarlyAccept(s: State)
    requires NothingEarly(s) && SameIds(s) && s.acc.Waiting?
    ensures NothingEarly(Next(s, Accept))
  {
    var s' := Next(s, Accept);
    assert HomePipe(s') == HomePipe(s);
  }

  lemma EarlyTake(s: State)
    requires InvHG(s) && NothingEarly(s) && Enabled(s, Take(Gate))
    ensures NothingEarly(Next(s, Take(Gate)))
  {
    var f := s.hg[0];
    assert HomePipe(s)[0] == f;
    if !f.msg.Open? && f.id !in s.gate.conns && s.lostHG == [] {
      RoutedGate(s);
      HeadIsSent(s);
      OpenComesFirst(s.home, s.hg, s.gate, true, Frame(f.id, f.tag, Open));
      assert ConnOk(s.gate.socks[f.tag]);
      assert s.gate.socks[f.tag].rd.Refused?;
    }
    TakeKeepsOthers(s);
  }

  lemma TakeKeepsOthers(s: State)
    requires SameIds(s) && Tagged(s.hg, s.home.socks) && NothingEarly(s) && Enabled(s, Take(Gate))
    requires !s.hg[0].msg.Open? && s.hg[0].id !in s.gate.conns && s.lostHG == [] ==>
      s.gate.socks[s.hg[0].tag].rd.Refused?
    requires s.hg[0].msg.Open? ==> Fresh(s.gate.socks[s.hg[0].tag])
    ensures NothingEarly(Next(s, Take(Gate)))
  {
    var p, p' := HomePipe(s), s.hg[1..] + s.home.out;
    assert p == [s.hg[0]] + p';
    forall g | g in p && g != s.hg[0]
      ensures g in p'
    {
    }
  }

  lemma NothingEarlyStep(s: State, a: Action)
    requires InvHG(s) && NothingEarly(s) && Enabled(s, a) && FairHG(s, a)
    ensures NothingEarly(Next(s, a))
  {
    hide Base, Lane, OrderOk, GateLosses, Ledger, Muddled, FairHG, Retired, LostOpens, AnsweredLost, HomeStraight,
      NothingEarly, Next;
    if a.SendOpen? || a.Accept? {
      BaseParts(s);
      EarlyAnnounces(s, a);
    } else if a == Take(Gate) {
      EarlyTake(s);
    } else {
      EarlyElsewhere(s, a);
    }
  }

  lemma EarlyAnnounces(s: State, a: Action)
    requires NothingEarly(s) && SameIds(s) && Enabled(s, a) && (a.SendOpen? || a.Accept?)
    ensures NothingEarly(Next(s, a))
  {
    hide NothingEarly, Next;
    if a.SendOpen? {
      EarlySendOpen(s);
    } else {
      EarlyAccept(s);
    }
  }

  /** The other steps take nothing out of the home pipe that is not lost. */
  lemma EarlyElsewhere(s: State, a: Action)
    requires Base(s) && NothingEarly(s) && Enabled(s, a) && !s.home.sess.Emit?
    requires !a.SendOpen? && !a.Accept? && a != Take(Gate)
    ensures NothingEarly(Next(s, a))
  {
    hide Base, NothingEarly, Grows, Enabled, Next;
    StepGrows(s, a, Gate);
    if !OfOneEndpoint(a) {
      EarlyShared(s, a);
    } else if a.side.Home? {
      EarlyHome(s, a);
    } else {
      EarlyGate(s, a);
    }
  }

  lemma EarlyGate(s: State, a: Action)
    requires NothingEarly(s) && Enabled(s, a) && Grows(s.gate, Next(s, a).gate) && OfOneEndpoint(a) && a.side.Gate?
    ensures NothingEarly(Next(s, a))
  {
    hide NothingEarly, Grows, Enabled, Next;
    GateKeepsPipe(s, a);
    MissedRests(s, a);
    AnnouncedGrows(s, Next(s, a), []);
  }

  /** Only taking a frame makes the gate miss one. */
  lemma MissedRests(s: State, a: Action)
    requires Enabled(s, a) && OfOneEndpoint(a)
    ensures Next(s, a).gate.missed == s.gate.missed
  {
    hide Enabled, Next;
    if a.side.Home? {
      OtherRests(s, a, Gate);
    } else if ByReader(a) {
      ReaderTouches(s, a);
    } else if ByWriter(a) {
      WriterTouches(s, a);
    } else if BySession(a) {
      SessionTouches(s, a);
    } else {
      LinkTouches(s, a);
    }
  }

  lemma EarlyShared(s: State, a: Action)
    requires NothingEarly(s) && Enabled(s, a) && Grows(s.gate, Next(s, a).gate)
    requires !OfOneEndpoint(a) && !a.SendOpen? && !a.Accept? && a != Take(Gate)
    ensures NothingEarly(Next(s, a))
  {
    hide NothingEarly, Grows;
    assert HomePipe(Next(s, a)) == HomePipe(s) + [];
    AnnouncedGrows(s, Next(s, a), []);
  }

  lemma EarlyHome(s: State, a: Action)
    requires NothingEarly(s) && Enabled(s, a) && Grows(s.gate, Next(s, a).gate) && !s.home.sess.Emit?
    requires OfOneEndpoint(a) && a.side.Home?
    ensures NothingEarly(Next(s, a))
  {
    hide NothingEarly, Grows, Enabled, Next;
    if HomeLoses(a) {
      EarlyLoses(s, a);
    } else if a.SendData? || a.SendClose? {
      EarlyQueues(s, a);
    } else {
      HomeKeepsPipe(s, a);
      AnnouncedGrows(s, Next(s, a), []);
    }
  }

  lemma EarlyLoses(s: State, a: Action)
    requires Enabled(s, a) && HomeLoses(a)
    ensures NothingEarly(Next(s, a))
  {
  }

  lemma EarlyQueues(s: State, a: Action)
    requires NothingEarly(s) && Enabled(s, a) && Grows(s.gate, Next(s, a).gate)
    requires (a.SendData? || a.SendClose?) && a.side.Home?
    ensures NothingEarly(Next(s, a))
  {
    hide NothingEarly, Grows, Enabled, Next, SentCount;
    var s' := Next(s, a);
    ReaderTouches(s, a);
    ReaderChanges(s, a);
    SentSame(s, a);
    var add := [s'.home.out[|s.home.out|]];
    assert HomePipe(s') == HomePipe(s) + add;
    AnnouncedGrows(s, s', add);
  }

  lemma {:induction false} NothingEarlyAlways(s: State, acts: seq<Action>)
    requires InvHG(s) && NothingEarly(s) && Legal(Gentle, s, acts)
    ensures NothingEarly(After(Gentle, s, acts))
    decreases |acts|
  {
    hide InvHG, FairHG, NothingEarly, Enabled, Next;
    if acts != [] {
      InvHGStep(s, acts[0]);
      NothingEarlyStep(s, acts[0]);
      NothingEarlyAlways(Next(s, acts[0]), acts[1..]);
    }
  }

  /**
   Home to gate, under careful reuse of ids and over any number of reconnects: a gate socket is only ever given
   chunks that the home reader of the same connection read, in order and each at most once. If the link lost
   nothing they are a prefix of what was read, and all of it once the writer has been shut down.
   */
  lemma HomeToGate(acts: seq<Action>, k: nat)
    requires Legal(Gentle, Init(), acts)
    requires k < |After(Gentle, Init(), acts).gate.socks|
    ensures var s := After(Gentle, Init(), acts);
      && |s.home.socks| == |s.gate.socks|
      && Delivers(s.home.socks[k], s.gate.socks[k], k)
      && (s.lostHG == [] ==> DeliversPrefix(s.home.socks[k], s.gate.socks[k]))
  {
    hide Delivers, DeliversRun, DeliversPrefix, MissedChunks, LaneOk, Legal;
    InvInit();
    GentleAlways(Init(), acts);
    NothingEarlyAlways(Init(), acts);
    var s := After(Gentle, Init(), acts);
    LaneDelivers(s.home, s.hg, s.gate, k, s.lostHG == []);
    if s.lostHG == [] {
      NothingMissed(s, k);
    }
  }

  lemma NothingMissed(s: State, k: nat)
    requires Base(s) && NothingEarly(s) && s.lostHG == [] && k < |s.gate.socks| && k < |s.home.socks|
    requires DeliversRun(s.home.socks[k], s.gate.socks[k], MissedChunks(s.gate, k))
    ensures DeliversPrefix(s.home.socks[k], s.gate.socks[k])
  {
    assert ConnOk(s.gate.socks[k]);
    if !s.gate.socks[k].wr.Absent? {
      OfNone(s.gate.missed, k);
    } else {
      assert Payloads(s.gate.socks[k].log) == [];
    }
  }
}
