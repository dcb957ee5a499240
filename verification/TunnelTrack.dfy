/**
 The track of a connection in one direction: everything its reader has produced, wherever it is now, oldest
 first. Tasks only move frames along it; this module says what a track looks like and what changes one.
 */
module TunnelTrack {
  import opened Common
  import opened TunnelModel

  /** The frames of incarnation k. */
  function Of(p: seq<Frame>, k: nat): seq<Frame> {
    if p == [] then []
    else Of(p[..|p| - 1], k) + (if p[|p| - 1].tag == k then [p[|p| - 1]] else [])
  }

  function Only(f: Frame, k: nat): seq<Frame> {
    if f.tag == k then [f] else []
  }

  lemma OfAppend(p: seq<Frame>, f: Frame, k: nat)
    ensures Of(p + [f], k) == Of(p, k) + Only(f, k)
  {
    assert (p + [f])[..|p|] == p;
  }

  lemma {:induction false} OfConcat(p: seq<Frame>, q: seq<Frame>, k: nat)
    ensures Of(p + q, k) == Of(p, k) + Of(q, k)
  {
    if q == [] {
      assert p + q == p;
    } else {
      var q0, f := q[..|q| - 1], q[|q| - 1];
      assert p + q == (p + q0) + [f];
      OfAppend(p + q0, f, k);
      OfConcat(p, q0, k);
    }
  }

  lemma OfHead(p: seq<Frame>, k: nat)
    requires p != []
    ensures Of(p, k) == Only(p[0], k) + Of(p[1..], k)
  {
    assert p == [p[0]] + p[1..];
    OfConcat([p[0]], p[1..], k);
    OfAppend([], p[0], k);
    assert [] + [p[0]] == [p[0]];
  }

  /** Taking a frame out of a pipe takes it out of its track and leaves the other tracks alone. */
  lemma OfWithout(p: seq<Frame>, i: nat, k: nat) returns (a: seq<Frame>, b: seq<Frame>)
    requires i < |p|
    ensures Of(p, k) == a + Only(p[i], k) + b
    ensures Of(p[..i] + p[i + 1..], k) == a + b
  {
    a, b := Of(p[..i], k), Of(p[i + 1..], k);
    assert p == p[..i] + p[i..];
    OfConcat(p[..i], p[i..], k);
    OfHead(p[i..], k);
    assert p[i..][1..] == p[i + 1..];
    OfConcat(p[..i], p[i + 1..], k);
  }

  lemma {:induction false} OfMembers(p: seq<Frame>, k: nat)
    ensures forall f :: f in Of(p, k) <==> f in p && f.tag == k
  {
    if p != [] {
      OfMembers(p[..|p| - 1], k);
      assert p == p[..|p| - 1] + [p[|p| - 1]];
    }
  }

  lemma {:induction false} OfNone(p: seq<Frame>, k: nat)
    requires forall i | 0 <= i < |p| :: p[i].tag != k
    ensures Of(p, k) == []
  {
    if p != [] {
      OfNone(p[..|p| - 1], k);
    }
  }

  // ---------------------------------------------------------------- the parts of a track

  /** The frame of connection k that the session loop of the receiving side is about to queue for its writer. */
  function HeldFor(sess: Session, k: nat): seq<Frame> {
    if sess.Deliver? && sess.to == k && sess.frame.tag == k then [sess.frame] else []
  }

  /** What the receiving side has of connection k, frames of other connections in its queue left aside. */
  function Back(rcv: Endpoint, k: nat): seq<Frame>
    requires k < |rcv.socks|
  {
    Of(rcv.missed, k) + rcv.socks[k].log + Of(rcv.socks[k].queue, k) + HeldFor(rcv.sess, k)
  }

  /** What a task of the sending side still has to put into `out`. */
  function Pending(snd: Endpoint, k: nat): seq<Frame>
    requires k < |snd.socks|
  {
    var c := snd.socks[k];
    (if snd.sess.Emit? then Only(snd.sess.frame, k) else []) +
    (if c.rd.Holding? && c.got != [] then [HeldData(c, k)] else [])
  }

  /** What the sending side and the link have of connection k. */
  function Front(snd: Endpoint, wire: seq<Frame>, k: nat): seq<Frame>
    requires k < |snd.socks|
  {
    Of(wire + snd.out, k) + Pending(snd, k)
  }

  function Track(snd: Endpoint, wire: seq<Frame>, rcv: Endpoint, k: nat): seq<Frame>
    requires k < |snd.socks| && k < |rcv.socks|
  {
    Back(rcv, k) + Front(snd, wire, k)
  }

  // ---------------------------------------------------------------- what a track looks like

  /** The sending side will produce nothing more for this connection. */
  predicate Finished(c: Conn) {
    c.rd.Done? || c.rd.Refused? || c.rd.Answered?
  }

  function OpenOffset(t: seq<Frame>): nat {
    if t != [] && t[0].msg.Open? then 1 else 0
  }

  predicate Closed(t: seq<Frame>) {
    t != [] && t[|t| - 1].msg.Close?
  }

  /** Nothing is missing between an OPEN at the front and a CLOSE at the back: chunks 0, 1, ..., n - 1. */
  ghost predicate Complete(t: seq<Frame>, n: nat) {
    var a := OpenOffset(t);
    && |t| == a + n + (if Closed(t) then 1 else 0)
    && forall i | a <= i < a + n :: t[i].msg.Data? && t[i].msg.idx == i - a
  }

  ghost predicate FrameOk(f: Frame, c: Conn, k: nat) {
    && f.tag == k && f.id == c.id
    && (f.msg.Data? ==> f.msg.idx < |c.got| && f.msg.bytes == c.got[f.msg.idx] && f.msg.bytes != [])
    && (f.msg.Close? ==> Finished(c))
  }

  ghost predicate Ascending(t: seq<Frame>) {
    forall i, j | 0 <= i < j < |t| && t[i].msg.Data? && t[j].msg.Data? :: t[i].msg.idx < t[j].msg.idx
  }

  /** OPEN only first, CLOSE only last. */
  ghost predicate Framed(t: seq<Frame>) {
    && (forall i | 0 < i < |t| :: !t[i].msg.Open?)
    && (forall i | 0 <= i < |t| - 1 :: !t[i].msg.Close?)
  }

  /**
   A track holds frames of one incarnation only, with the bytes that were read, in the order they were read, each
   at most once; if the link has lost nothing it holds all of them.
   */
  ghost predicate GoodTrack(t: seq<Frame>, c: Conn, k: nat, whole: bool) {
    && (forall i | 0 <= i < |t| :: FrameOk(t[i], c, k))
    && Ascending(t)
    && Framed(t)
    && (whole ==> Complete(t, |c.got|))
  }

  /** A reader that is not finished reads one more chunk. */
  lemma TrackReads(t: seq<Frame>, c: Conn, k: nat, whole: bool, chunk: Chunk)
    requires GoodTrack(t, c, k, whole) && c.rd.Reading? && chunk != []
    ensures var c' := c.(rd := Holding, got := c.got + [chunk]);
      GoodTrack(t + [HeldData(c', k)], c', k, whole)
  {
    var c' := c.(rd := Holding, got := c.got + [chunk]);
    var t' := t + [HeldData(c', k)];
    forall i | 0 <= i < |t| ensures FrameOk(t[i], c', k) {}
    assert forall i | 0 <= i < |t| :: !t[i].msg.Close?;
    if whole {
      assert !Closed(t) && !Closed(t') && OpenOffset(t') == OpenOffset(t);
    }
  }

  /** A connection that is not finished yet announces its end. */
  lemma TrackCloses(t: seq<Frame>, c: Conn, c': Conn, k: nat, whole: bool)
    requires GoodTrack(t, c, k, whole) && !Finished(c)
    requires Finished(c') && c'.id == c.id && c'.got == c.got
    ensures GoodTrack(t + [Frame(c.id, k, Close)], c', k, whole)
  {
    var t' := t + [Frame(c.id, k, Close)];
    forall i | 0 <= i < |t| ensures FrameOk(t[i], c', k) && !t[i].msg.Close? { assert FrameOk(t[i], c, k); }
    if whole {
      assert !Closed(t) && Closed(t') && OpenOffset(t') == OpenOffset(t);
    }
  }

  /** OPEN is sent before anything has been read. */
  lemma TrackOpens(t: seq<Frame>, c: Conn, k: nat, whole: bool)
    requires GoodTrack(t, c, k, whole) && t == []
    ensures GoodTrack(t + [Frame(c.id, k, Open)], c, k, whole)
  {
  }

  lemma TrackOpened(t: seq<Frame>, c: Conn, k: nat, whole: bool)
    requires GoodTrack(t, c, k, whole) && t != [] && t[0].msg.Open?
    ensures GoodTrack(t[1..], c, k, whole)
  {
    var t' := t[1..];
    forall i | 0 <= i < |t'| ensures t'[i] == t[i + 1] {}
  }

  /** A frame is lost. */
  lemma TrackLoses(a: seq<Frame>, lost: seq<Frame>, b: seq<Frame>, c: Conn, k: nat, whole: bool)
    requires GoodTrack(a + lost + b, c, k, whole) && |lost| <= 1
    ensures GoodTrack(a + b, c, k, false)
  {
    var t, t' := a + lost + b, a + b;
    forall i | 0 <= i < |t'| ensures t'[i] == t[if i < |a| then i else i + |lost|] {}
  }
}
