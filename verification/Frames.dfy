/**
 The layered frame codec of src/proto.rs: an inner message, encrypted and signed, behind a masked routing header.
 The primitives are parameters bound by the laws they promise; random nonces are parameters too.
 */
module Frames {
  import opened Common
  import opened Text

  type Nonce = n: seq<byte> | |n| == 24 witness seq(24, _ => 0)
  type Header = h: seq<byte> | |h| == 8 witness seq(8, _ => 0)
  type Signature = s: seq<byte> | |s| == 64 witness seq(64, _ => 0)

  const ZERO: Header := [0, 0, 0, 0, 0, 0, 0, 0]

  /** X25519, XChaCha20-Poly1305, Ed25519 and the first bytes of a ChaCha20 keystream. */
  datatype Crypto = Crypto(
    xPub: Key -> Key,
    shared: (Key, Key) -> Key,
    seal: (Key, Nonce, seq<byte>) -> seq<byte>,
    unseal: (Key, Nonce, seq<byte>) -> Option<seq<byte>>,
    edPub: Key -> Key,
    sign: (Key, seq<byte>) -> Signature,
    verify: (Key, seq<byte>, Signature) -> bool,
    keystream: (Key, seq<byte>) -> Header)

  /**
   Both sides compute the same secret (section 6.1 of RFC 7748); decryption undoes encryption, which adds a tag of
   16 bytes; a signature verifies under its own key.
   */
  ghost predicate Lawful(c: Crypto) {
    && (forall a, b :: c.shared(a, c.xPub(b)) == c.shared(b, c.xPub(a)))
    && (forall k, n, p :: c.unseal(k, n, c.seal(k, n, p)) == Some(p))
    && (forall k, n, p :: |c.seal(k, n, p)| == |p| + 16)
    && (forall s, m :: c.verify(c.edPub(s), m, c.sign(s, m)))
  }

  // ---------------------------------------------------------------- exclusive or

  function Power(n: nat): nat {
    if n == 0 then 1 else 2 * Power(n - 1)
  }

  /** The exclusive or of two numbers of `n` bits. */
  function XorBits(a: nat, b: nat, n: nat): (r: nat)
    requires a < Power(n) && b < Power(n)
    ensures r < Power(n)
  {
    if n == 0 then 0 else 2 * XorBits(a / 2, b / 2, n - 1) + (if a % 2 == b % 2 then 0 else 1)
  }

  function Xor(a: byte, b: byte): byte {
    PowerOf8();
    XorBits(a, b, 8)
  }

  lemma PowerOf8()
    ensures Power(8) == 256
  {
    assert Power(4) == 16;
  }

  lemma {:induction false} XorBitsTwice(a: nat, k: nat, n: nat)
    requires a < Power(n) && k < Power(n)
    ensures XorBits(XorBits(a, k, n), k, n) == a
  {
    if n > 0 {
      XorBitsTwice(a / 2, k / 2, n - 1);
      var x := XorBits(a, k, n);
      XorHalves(a, k, n);
      XorHalves(x, k, n);
    }
  }

  lemma XorHalves(a: nat, b: nat, n: nat)
    requires n > 0 && a < Power(n) && b < Power(n)
    ensures XorBits(a, b, n) / 2 == XorBits(a / 2, b / 2, n - 1)
    ensures XorBits(a, b, n) % 2 == if a % 2 == b % 2 then 0 else 1
  {
  }

  lemma XorTwice(a: byte, k: byte)
    ensures Xor(Xor(a, k), k) == a
  {
    PowerOf8();
    XorBitsTwice(a, k, 8);
  }

  /** Bit i of a number, counted from the lowest. */
  function Bit(a: nat, i: nat): nat {
    if i == 0 then a % 2 else Bit(a / 2, i - 1)
  }

  lemma {:induction false} XorBitsBit(a: nat, b: nat, n: nat, i: nat)
    requires a < Power(n) && b < Power(n) && i < n
    ensures Bit(XorBits(a, b, n), i) == if Bit(a, i) == Bit(b, i) then 0 else 1
  {
    XorHalves(a, b, n);
    if i > 0 {
      XorBitsBit(a / 2, b / 2, n - 1, i - 1);
    }
  }

  /** Every bit of the result is set exactly where the two bytes differ. */
  lemma XorBit(a: byte, k: byte, i: nat)
    requires i < 8
    ensures Bit(Xor(a, k), i) == if Bit(a, i) == Bit(k, i) then 0 else 1
  {
    PowerOf8();
    XorBitsBit(a, k, 8, i);
  }

  /** The bits of a number tell it from others. */
  lemma {:induction false} SameBits(a: nat, b: nat, n: nat)
    requires a < Power(n) && b < Power(n) && forall i | 0 <= i < n :: Bit(a, i) == Bit(b, i)
    ensures a == b
  {
    if n > 0 {
      assert Bit(a, 0) == Bit(b, 0);
      forall i | 0 <= i < n - 1 ensures Bit(a / 2, i) == Bit(b / 2, i) {
        assert Bit(a, i + 1) == Bit(b, i + 1);
      }
      SameBits(a / 2, b / 2, n - 1);
    }
  }

  lemma {:induction false} NoBits(i: nat)
    ensures Bit(0, i) == 0
  {
    if i > 0 {
      NoBits(i - 1);
    }
  }

  lemma {:induction false} BitIsBinary(a: nat, i: nat)
    ensures Bit(a, i) == 0 || Bit(a, i) == 1
  {
    if i > 0 {
      BitIsBinary(a / 2, i - 1);
    }
  }

  lemma XorOfZero(k: byte)
    ensures Xor(0, k) == k
  {
    PowerOf8();
    forall i | 0 <= i < 8 ensures Bit(Xor(0, k), i) == Bit(k, i) {
      XorBit(0, k, i);
      NoBits(i);
      BitIsBinary(k, i);
    }
    SameBits(Xor(0, k), k, 8);
  }

  /** The key can be told from a byte and what has become of it. */
  lemma XorTellsKey(a: byte, k: byte)
    ensures Xor(a, Xor(a, k)) == k
  {
    PowerOf8();
    forall i | 0 <= i < 8 ensures Bit(Xor(a, Xor(a, k)), i) == Bit(k, i) {
      XorBit(a, Xor(a, k), i);
      XorBit(a, k, i);
      BitIsBinary(a, i);
      BitIsBinary(k, i);
    }
    SameBits(Xor(a, Xor(a, k)), k, 8);
  }

  // ---------------------------------------------------------------- sending

  /** The header under the keystream of a key and of the first 12 bytes of a nonce. */
  function Mask(c: Crypto, key: Key, nonce: Nonce, h: Header): Header {
    var ks := c.keystream(key, nonce[..12]);
    seq(8, i requires 0 <= i < 8 => Xor(h[i], ks[i]))
  }

  /** `xor_header`. */
  method XorHeader(c: Crypto, key: Key, nonce: Nonce, h: array<byte>)
    requires h.Length == 8
    modifies h
    ensures h[..] == Mask(c, key, nonce, old(h[..]))
  {
    var ks := c.keystream(key, nonce[..12]);
    for i := 0 to 8
      invariant forall j | 0 <= j < i :: h[j] == Xor(old(h[j]), ks[j])
      invariant forall j | i <= j < 8 :: h[j] == old(h[j])
    {
      h[i] := Xor(h[i], ks[i]);
    }
  }

  /** A message id of 16 bits, little-endian, and the command go before the body. */
  function Inner(id: nat, cmd: byte, body: seq<byte>): seq<byte>
    requires id < 65536
  {
    [id % 256, id / 256, cmd] + body
  }

  /** `pack_inner`. */
  method PackInner(id: nat, cmd: byte, body: seq<byte>) returns (v: seq<byte>)
    requires id < 65536
    ensures v == Inner(id, cmd, body)
  {
    v := [];
    v := v + [id % 256, id / 256];
    v := v + [cmd];
    v := v + body;
  }

  /** The nonce, the ciphertext and the signature of both. */
  function Packet(c: Crypto, nonce: Nonce, plain: seq<byte>, x: Key, ed: Key, theirX: Key): seq<byte> {
    var body := nonce + c.seal(c.shared(x, theirX), nonce, plain);
    body + c.sign(ed, body)
  }

  /** `encrypt_and_sign`. */
  method EncryptAndSign(c: Crypto, nonce: Nonce, plain: seq<byte>, x: Key, ed: Key, theirX: Key)
    returns (packet: seq<byte>)
    ensures packet == Packet(c, nonce, plain, x, ed, theirX)
  {
    var shared := c.shared(x, theirX);
    var ct := c.seal(shared, nonce, plain);
    packet := [];
    packet := packet + nonce;
    packet := packet + ct;
    assert packet == nonce + ct;
    var sig := c.sign(ed, packet);
    packet := packet + sig;
  }

  /** A frame to be routed to `to`; the server itself is the address zero. */
  function Routed(c: Crypto, nonce: Nonce, to: Header, key: Key, inner: seq<byte>, x: Key, ed: Key, theirX: Key)
    : seq<byte>
  {
    Mask(c, key, nonce, to) + Packet(c, nonce, inner, x, ed, theirX)
  }

  /** `build_peer_frame`. */
  method BuildPeerFrame(c: Crypto, nonce: Nonce, x: Key, ed: Key, peerX: Key, peerId: Header, k: Key, inner: seq<byte>)
    returns (frame: seq<byte>)
    ensures frame == Routed(c, nonce, peerId, k, inner, x, ed, peerX)
  {
    var packet := EncryptAndSign(c, nonce, inner, x, ed, peerX);
    PacketParts(c, nonce, inner, x, ed, peerX);
    var nonce24: Nonce := packet[..24];
    var header := new byte[8](i requires 0 <= i < 8 => peerId[i]);
    assert header[..] == peerId;
    XorHeader(c, k, nonce24, header);
    frame := [];
    frame := frame + header[..];
    frame := frame + packet;
  }

  /** `build_server_bound`. */
  method BuildServerBound(c: Crypto, nonce: Nonce, x: Key, ed: Key, serverX: Key, k: Key, inner: seq<byte>)
    returns (frame: seq<byte>)
    ensures frame == Routed(c, nonce, ZERO, k, inner, x, ed, serverX)
  {
    var packet := EncryptAndSign(c, nonce, inner, x, ed, serverX);
    PacketParts(c, nonce, inner, x, ed, serverX);
    var nonce24: Nonce := packet[..24];
    var header := new byte[8](i => 0);
    assert header[..] == ZERO;
    XorHeader(c, k, nonce24, header);
    frame := [];
    frame := frame + header[..];
    frame := frame + packet;
  }

  lemma PacketParts(c: Crypto, nonce: Nonce, plain: seq<byte>, x: Key, ed: Key, theirX: Key)
    ensures var p := Packet(c, nonce, plain, x, ed, theirX);
      |p| >= 24 && p[..24] == nonce
  {
  }

  // ---------------------------------------------------------------- receiving

  const MIN_PACKET := 24 + 16 + 64
  const MIN_FRAME := 8 + MIN_PACKET

  /** `verify_and_decrypt`. */
  function VerifyAndDecrypt(c: Crypto, packet: seq<byte>, x: Key, theirX: Key, theirEd: Key): Option<seq<byte>> {
    if |packet| < MIN_PACKET then None
    else
      var n := |packet| - 64;
      var body, sig: Signature := packet[..n], packet[n..];
      if !c.verify(theirEd, body, sig) then None
      else c.unseal(c.shared(x, theirX), body[..24], body[24..])
  }

  /** The address of a frame, under the key of the link it came by. */
  function Address(c: Crypto, k: Key, frame: seq<byte>): Header
    requires |frame| >= MIN_FRAME
  {
    Mask(c, k, frame[8..32], frame[..8])
  }

  /** `decode_server_frame`. */
  function DecodeServerFrame(c: Crypto, frame: seq<byte>, k: Key, x: Key, serverX: Key, serverEd: Key)
    : Option<seq<byte>>
  {
    if |frame| < MIN_FRAME then None
    else if Address(c, k, frame) != ZERO then None
    else VerifyAndDecrypt(c, frame[8..], x, serverX, serverEd)
  }

  /** How `handle_incoming` reads a frame: the command and body of a peer's message, or nothing. */
  function DecodePeerFrame(c: Crypto, frame: seq<byte>, k: Key, x: Key, peerX: Key, peerEd: Key)
    : Option<(byte, seq<byte>)>
  {
    if |frame| < MIN_FRAME then None
    else if Address(c, k, frame) == ZERO then None
    else
      var inner := VerifyAndDecrypt(c, frame[8..], x, peerX, peerEd);
      if inner.None? || |inner.value| < 3 then None
      else
        var cmd, body := inner.value[2], inner.value[3..];
        if body == [] then None else Some((cmd, body))
  }

  // ---------------------------------------------------------------- what the mask is

  /** A bit of the header is flipped exactly where the keystream of the nonce's first 12 bytes has a one. */
  lemma MaskFlipsBits(c: Crypto, key: Key, nonce: Nonce, h: Header, i: nat, j: nat)
    requires i < 8 && j < 8
    ensures Bit(Mask(c, key, nonce, h)[i], j) != Bit(h[i], j) <==> Bit(c.keystream(key, nonce[..12])[i], j) == 1
  {
    var k := c.keystream(key, nonce[..12])[i];
    XorBit(h[i], k, j);
    BitIsBinary(h[i], j);
    BitIsBinary(k, j);
  }

  /** The server's address goes out as the bare keystream. */
  lemma ZeroGoesAsKeystream(c: Crypto, key: Key, nonce: Nonce)
    ensures Mask(c, key, nonce, ZERO) == c.keystream(key, nonce[..12])
  {
    var ks := c.keystream(key, nonce[..12]);
    forall i | 0 <= i < 8 ensures Mask(c, key, nonce, ZERO)[i] == ks[i] {
      XorOfZero(ks[i]);
    }
  }

  /** One address under two keystreams gives the same header only if the keystreams are the same. */
  lemma MaskHides(c: Crypto, key: Key, nonce: Nonce, key': Key, nonce': Nonce, h: Header)
    ensures Mask(c, key, nonce, h) == Mask(c, key', nonce', h) <==>
      c.keystream(key, nonce[..12]) == c.keystream(key', nonce'[..12])
  {
    var a, b := c.keystream(key, nonce[..12]), c.keystream(key', nonce'[..12]);
    if Mask(c, key, nonce, h) == Mask(c, key', nonce', h) {
      forall i | 0 <= i < 8 ensures a[i] == b[i] {
        assert Mask(c, key, nonce, h)[i] == Mask(c, key', nonce', h)[i];
        XorTellsKey(h[i], a[i]);
        XorTellsKey(h[i], b[i]);
      }
    }
  }

  // ---------------------------------------------------------------- what is accepted

  /**
   A packet is accepted exactly if it is a nonce, a ciphertext of at least 16 bytes and the peer's signature of both,
   and the ciphertext opens under the shared secret.
   */
  lemma AcceptedPackets(c: Crypto, packet: seq<byte>, x: Key, theirX: Key, theirEd: Key, plain: seq<byte>)
    ensures VerifyAndDecrypt(c, packet, x, theirX, theirEd) == Some(plain) <==>
      exists nonce: Nonce, ct: seq<byte>, sig: Signature ::
        && packet == nonce + ct + sig && |ct| >= 16
        && c.verify(theirEd, nonce + ct, sig) && c.unseal(c.shared(x, theirX), nonce, ct) == Some(plain)
  {
    if VerifyAndDecrypt(c, packet, x, theirX, theirEd) == Some(plain) {
      var n := |packet| - 64;
      var nonce: Nonce, ct, sig: Signature := packet[..24], packet[24..n], packet[n..];
      assert nonce + ct == packet[..n] && packet == nonce + ct + sig;
      assert packet[..n][..24] == nonce && packet[..n][24..] == ct;
    }
    if nonce: Nonce, ct: seq<byte>, sig: Signature :|
         && packet == nonce + ct + sig && |ct| >= 16
         && c.verify(theirEd, nonce + ct, sig) && c.unseal(c.shared(x, theirX), nonce, ct) == Some(plain) {
      PacketOfParts(nonce, ct, sig);
    }
  }

  lemma PacketOfParts(nonce: Nonce, ct: seq<byte>, sig: Signature)
    ensures var p := nonce + ct + sig;
      && |p| == |ct| + 88 && p[..|p| - 64] == nonce + ct && p[|p| - 64..] == sig
      && p[..|p| - 64][..24] == nonce && p[..|p| - 64][24..] == ct
  {
  }

  /**
   A peer's message is read out of exactly the frames that carry one behind an address that is not the server's, and
   a message of the server out of exactly those that carry one behind the address zero.
   */
  lemma AcceptedFrames(c: Crypto, frame: seq<byte>, k: Key, x: Key, peerX: Key, peerEd: Key, cmd: byte, body: seq<byte>)
    ensures forall inner ::
      DecodeServerFrame(c, frame, k, x, peerX, peerEd) == Some(inner) <==>
      && |frame| >= 112 && Mask(c, k, frame[8..32], frame[..8]) == [0, 0, 0, 0, 0, 0, 0, 0]
      && VerifyAndDecrypt(c, frame[8..], x, peerX, peerEd) == Some(inner)
    ensures DecodePeerFrame(c, frame, k, x, peerX, peerEd) == Some((cmd, body)) <==>
      && |frame| >= 112 && Mask(c, k, frame[8..32], frame[..8]) != [0, 0, 0, 0, 0, 0, 0, 0] && body != []
      && exists lo: byte, hi: byte :: VerifyAndDecrypt(c, frame[8..], x, peerX, peerEd) == Some([lo, hi, cmd] + body)
  {
    if DecodePeerFrame(c, frame, k, x, peerX, peerEd) == Some((cmd, body)) {
      var inner := VerifyAndDecrypt(c, frame[8..], x, peerX, peerEd).value;
      assert inner == [inner[0], inner[1], cmd] + body;
    }
    if lo: byte, hi: byte :|
         |frame| >= 112 && VerifyAndDecrypt(c, frame[8..], x, peerX, peerEd) == Some([lo, hi, cmd] + body) {
      assert ([lo, hi, cmd] + body)[3..] == body;
    }
  }

  /** The message id is read back from the first two bytes, low byte first; command and body follow. */
  lemma InnerReadsBack(id: nat, cmd: byte, body: seq<byte>)
    requires id < 65536
    ensures var v := Inner(id, cmd, body);
      |v| == |body| + 3 && v[0] as int + 256 * v[1] as int == id && v[2] == cmd && v[3..] == body
  {
  }

  // ---------------------------------------------------------------- round trips

  lemma MaskTwice(c: Crypto, key: Key, nonce: Nonce, h: Header)
    ensures Mask(c, key, nonce, Mask(c, key, nonce, h)) == h
  {
    var ks := c.keystream(key, nonce[..12]);
    forall i | 0 <= i < 8 ensures Xor(Xor(h[i], ks[i]), ks[i]) == h[i] {
      XorTwice(h[i], ks[i]);
    }
  }

  /** Header, nonce and packet of a frame, where the receiver looks for them. */
  lemma RoutedParts(c: Crypto, nonce: Nonce, to: Header, k: Key, inner: seq<byte>, x: Key, ed: Key, theirX: Key)
    requires Lawful(c)
    ensures var f := Routed(c, nonce, to, k, inner, x, ed, theirX);
      && |f| == |inner| + 112 && f[..8] == Mask(c, k, nonce, to) && f[8..32] == nonce
      && f[8..] == Packet(c, nonce, inner, x, ed, theirX)
  {
    var f := Routed(c, nonce, to, k, inner, x, ed, theirX);
    PacketParts(c, nonce, inner, x, ed, theirX);
    assert f[8..] == Packet(c, nonce, inner, x, ed, theirX);
    assert f[8..][..24] == f[8..32];
  }

  lemma PacketRoundTrip(c: Crypto, nonce: Nonce, plain: seq<byte>, myX: Key, myEd: Key, theirX: Key)
    requires Lawful(c)
    ensures VerifyAndDecrypt(c, Packet(c, nonce, plain, myX, myEd, c.xPub(theirX)), theirX, c.xPub(myX), c.edPub(myEd))
      == Some(plain)
  {
    var key := c.shared(myX, c.xPub(theirX));
    var ct := c.seal(key, nonce, plain);
    var body := nonce + ct;
    var p := Packet(c, nonce, plain, myX, myEd, c.xPub(theirX));
    assert p[..|p| - 64] == body && p[|p| - 64..] == c.sign(myEd, body);
    assert body[..24] == nonce && body[24..] == ct;
    assert c.shared(theirX, c.xPub(myX)) == key;
  }

  /** What the relay does to a peer frame: the address of the sender, under the receiver's key, replaces its header. */
  function Relayed(c: Crypto, frame: seq<byte>, sender: Header, k: Key): seq<byte>
    requires |frame| >= MIN_FRAME
  {
    Mask(c, k, frame[8..32], sender) + frame[8..]
  }

  /**
   A built frame is its body and 115 bytes more; the relay reads the peer's address from it. Relayed, it gives the
   receiver exactly the command and the body, unless the body is empty or the sender's address is zero; under any
   other address it does not pass for a message of the server.
   */
  lemma PeerFrameRoundTrip(c: Crypto, nonce: Nonce, id: nat, cmd: byte, body: seq<byte>,
                           myX: Key, myEd: Key, theirX: Key, theirId: Header, up: Key, sender: Header, down: Key)
    requires Lawful(c) && id < 65536
    ensures var f := Routed(c, nonce, theirId, up, Inner(id, cmd, body), myX, myEd, c.xPub(theirX));
      && |f| == |body| + 115 && |f| >= MIN_FRAME
      && Address(c, up, f) == theirId
      && (var g := Relayed(c, f, sender, down);
          && |g| == |f| && Address(c, down, g) == sender
          && DecodePeerFrame(c, g, down, theirX, c.xPub(myX), c.edPub(myEd)) ==
             (if body == [] || sender == ZERO then None else Some((cmd, body)))
          && (sender != ZERO ==> forall sx, sed :: DecodeServerFrame(c, g, down, theirX, sx, sed) == None))
  {
    var inner := Inner(id, cmd, body);
    RoutedParts(c, nonce, theirId, up, inner, myX, myEd, c.xPub(theirX));
    MaskTwice(c, up, nonce, theirId);
    RelayedRoundTrip(c, nonce, inner, myX, myEd, theirX, theirId, up, sender, down);
    assert inner[3..] == body && inner[2] == cmd;
  }

  lemma RelayedRoundTrip(c: Crypto, nonce: Nonce, inner: seq<byte>, myX: Key, myEd: Key, theirX: Key, theirId: Header,
                         up: Key, sender: Header, down: Key)
    requires Lawful(c) && |inner| >= 3
    ensures var f := Routed(c, nonce, theirId, up, inner, myX, myEd, c.xPub(theirX));
      && |f| >= MIN_FRAME
      && (var g := Relayed(c, f, sender, down);
          && |g| == |f| && Address(c, down, g) == sender
          && VerifyAndDecrypt(c, g[8..], theirX, c.xPub(myX), c.edPub(myEd)) == Some(inner))
  {
    var f := Routed(c, nonce, theirId, up, inner, myX, myEd, c.xPub(theirX));
    RoutedParts(c, nonce, theirId, up, inner, myX, myEd, c.xPub(theirX));
    var g := Relayed(c, f, sender, down);
    assert g[8..] == f[8..] && g[..8] == Mask(c, down, nonce, sender);
    assert g[8..32] == g[8..][..24] && f[8..32] == f[8..][..24];
    MaskTwice(c, down, nonce, sender);
    PacketRoundTrip(c, nonce, inner, myX, myEd, theirX);
  }

  /** A frame with the server at either end has the address zero, is read whole, and is no peer's message. */
  lemma ServerFrameRoundTrip(c: Crypto, nonce: Nonce, inner: seq<byte>, myX: Key, myEd: Key, theirX: Key, k: Key)
    requires Lawful(c)
    ensures var f := Routed(c, nonce, ZERO, k, inner, myX, myEd, c.xPub(theirX));
      && |f| == |inner| + 112 && |f| >= MIN_FRAME && Address(c, k, f) == ZERO
      && DecodeServerFrame(c, f, k, theirX, c.xPub(myX), c.edPub(myEd)) == Some(inner)
      && forall px, ped :: DecodePeerFrame(c, f, k, theirX, px, ped) == None
  {
    RoutedParts(c, nonce, ZERO, k, inner, myX, myEd, c.xPub(theirX));
    MaskTwice(c, k, nonce, ZERO);
    PacketRoundTrip(c, nonce, inner, myX, myEd, theirX);
  }

  // ---------------------------------------------------------------- the laws can be met

  function Sum(a: Key, b: Key): Key {
    seq(32, i requires 0 <= i < 32 => (a[i] as int + b[i] as int) % 256)
  }

  /** Primitives that keep the laws and nothing secret. */
  function Plain(): Crypto {
    Crypto(
      x => x,
      (a, b) => Sum(a, b),
      (k, n, p) => p + seq(16, _ => 0),
      (k, n, ct) => if |ct| < 16 then None else Some(ct[..|ct| - 16]),
      s => s,
      (s, m) => seq(64, _ => 0),
      (k, m, sig) => true,
      (k, n) => k[..8])
  }

  lemma PlainIsLawful()
    ensures Lawful(Plain())
  {
    var c := Plain();
    forall a: Key, b: Key ensures c.shared(a, c.xPub(b)) == c.shared(b, c.xPub(a)) {
      assert Sum(a, b) == Sum(b, a);
    }
    forall k: Key, n: Nonce, p: seq<byte> ensures c.unseal(k, n, c.seal(k, n, p)) == Some(p) {
      assert (p + seq(16, _ => 0))[..|p|] == p;
    }
  }
}
