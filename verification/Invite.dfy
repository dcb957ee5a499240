/** Invites and introductions of src/proto.rs: how a peer's keys and nick reach us as text and as bytes. */
module Invite {
  import opened Common
  import opened Text
  import Base64Url
  import Utf8

  const PREFIX := "K0"

  datatype Peer = Peer(xPub: Key, edPub: Key, id: seq<byte>, nick: string)

  datatype Error = BadPrefix | BadBase64 | TooShort | BadKey

  datatype Result = Ok(peer: Peer) | Err(error: Error)

  /** What of an identity goes into its invite. */
  datatype Identity = Identity(xPub: Key, edPub: Key) {
    function Id(): seq<byte> {
      xPub[..8]
    }
  }

  /** `make_qr`. */
  method MakeQr(me: Identity, nick: string) returns (qr: string)
    ensures qr == Qr(me, nick)
  {
    var combined: seq<byte> := [];
    combined := combined + me.xPub;
    combined := combined + me.edPub;
    combined := combined + Utf8.Encode(nick);
    assert combined == me.xPub + me.edPub + Utf8.Encode(nick);
    qr := PREFIX + Base64Url.Encode(combined);
  }

  function Qr(me: Identity, nick: string): string {
    PREFIX + Base64Url.Encode(me.xPub + me.edPub + Utf8.Encode(nick))
  }

  /** `decode_qr`; `isKey` tells which 32 bytes are an Ed25519 verifying key. */
  function DecodeQr(qr: string, isKey: Key -> bool): Result {
    var s := Trim(qr);
    if !(PREFIX <= s) then Err(BadPrefix)
    else
      var raw := Base64Url.Decode(s[|PREFIX|..]);
      if raw.None? then Err(BadBase64)
      else if |raw.value| < 64 then Err(TooShort)
      else
        var x: Key, ed: Key := raw.value[..32], raw.value[32..64];
        if !isKey(ed) then Err(BadKey)
        else Ok(Peer(x, ed, x[..8], Utf8.DecodeLossy(raw.value[64..])))
  }

  /** `decode_intro_from`: the same peer from the body of an introduction. */
  function DecodeIntro(body: seq<byte>, isKey: Key -> bool): Result {
    if |body| < 64 then Err(TooShort)
    else
      var x: Key, ed: Key := body[..32], body[32..64];
      if !isKey(ed) then Err(BadKey) else Ok(Peer(x, ed, x[..8], Utf8.DecodeLossy(body[64..])))
  }

  /** An introduction is accepted exactly if it is an x key, an Ed25519 key and a nick; the id is the x key's front. */
  lemma DecodesLayout(body: seq<byte>, isKey: Key -> bool, p: Peer)
    ensures DecodeIntro(body, isKey) == Ok(p) <==>
      exists x: Key, ed: Key, nick: seq<byte> ::
        body == x + ed + nick && isKey(ed) && p == Peer(x, ed, x[..8], Utf8.DecodeLossy(nick))
    ensures DecodeIntro(body, isKey) == Err(TooShort) <==> |body| < 64
  {
    if DecodeIntro(body, isKey) == Ok(p) {
      var x: Key, ed: Key, nick := body[..32], body[32..64], body[64..];
      assert body == x + ed + nick;
    }
    if x: Key, ed: Key, nick: seq<byte> :|
         body == x + ed + nick && isKey(ed) && p == Peer(x, ed, x[..8], Utf8.DecodeLossy(nick)) {
      assert body[..32] == x && body[32..64] == ed && body[64..] == nick;
    }
  }

  lemma {:induction false} EncodedIsPlain(b: seq<byte>)
    ensures forall i | 0 <= i < |Base64Url.Encode(b)| :: !IsSpace(Base64Url.Encode(b)[i])
  {
    if |b| >= 3 {
      EncodedIsPlain(b[3..]);
    }
  }

  lemma TrimOfPlain(s: string)
    requires forall i | 0 <= i < |s| :: !IsSpace(s[i])
    ensures Trim(s) == s
  {
  }

  /** An invite made of any bytes decodes exactly as those bytes do as an introduction, errors included. */
  lemma QrOfBytes(b: seq<byte>, isKey: Key -> bool)
    ensures DecodeQr(PREFIX + Base64Url.Encode(b), isKey) == DecodeIntro(b, isKey)
  {
    var e := Base64Url.Encode(b);
    EncodedIsPlain(b);
    TrimOfPlain(PREFIX + e);
    assert (PREFIX + e)[|PREFIX|..] == e;
    Base64Url.DecodeEncode(b);
  }

  /** Nothing else decodes: an accepted text is, between white space, the invite of the one introduction it equals. */
  lemma AcceptedTextsAreInvites(qr: string, isKey: Key -> bool, p: Peer)
    ensures DecodeQr(qr, isKey) == Ok(p) <==>
      exists b: seq<byte> :: Trim(qr) == PREFIX + Base64Url.Encode(b) && DecodeIntro(b, isKey) == Ok(p)
  {
    var s := Trim(qr);
    if DecodeQr(qr, isKey) == Ok(p) {
      var b := Base64Url.Decode(s[|PREFIX|..]).value;
      Base64Url.EncodeDecode(s[|PREFIX|..]);
      assert s == PREFIX + Base64Url.Encode(b) && DecodeIntro(b, isKey) == Ok(p);
    }
    if b: seq<byte> :| s == PREFIX + Base64Url.Encode(b) && DecodeIntro(b, isKey) == Ok(p) {
      QrOfBytes(b, isKey);
      TrimIdempotent(qr);
      assert DecodeQr(qr, isKey) == DecodeQr(s, isKey);
    }
  }

  /** An invite is read back as the identity and the nick it was made of. */
  lemma InviteRoundTrip(me: Identity, nick: string, isKey: Key -> bool)
    requires isKey(me.edPub)
    ensures DecodeQr(Qr(me, nick), isKey) == Ok(Peer(me.xPub, me.edPub, me.xPub[..8], nick))
    ensures me.Id() == me.xPub[..8] && "K0" <= Qr(me, nick)
  {
    var b := me.xPub + me.edPub + Utf8.Encode(nick);
    QrOfBytes(b, isKey);
    Utf8.LossyDecodesEncoded(nick);
    assert b[..32] == me.xPub && b[32..64] == me.edPub && b[64..] == Utf8.Encode(nick);
  }
}
