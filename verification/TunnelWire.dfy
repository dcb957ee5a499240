/** What the tunnel of src/tcp.rs and the serial bridge put into peer frames, and read out of them. */
module TunnelWire {
  import opened Common
  import opened Text
  import opened Frames
  import M = TunnelModel

  const CMD_SERIAL_DATA: byte := 0x30
  const CMD_TCP_OPEN: byte := 0x32
  const CMD_TCP_DATA: byte := 0x33
  const CMD_TCP_CLOSE: byte := 0x34

  /** What `handle_incoming` acts on: the routing id and the request, without the model's book-keeping. */
  datatype Request = Open(id: ConnId) | Data(id: ConnId, bytes: Chunk) | Close(id: ConnId)

  function Asked(f: M.Frame): Request {
    match f.msg
    case Open => Open(f.id)
    case Data(_, bytes) => Data(f.id, bytes)
    case Close => Close(f.id)
  }

  function Command(r: Request): byte {
    match r
    case Open(_) => CMD_TCP_OPEN
    case Data(_, _) => CMD_TCP_DATA
    case Close(_) => CMD_TCP_CLOSE
  }

  /** The connection id goes before the payload. */
  function Body(r: Request): seq<byte> {
    match r
    case Open(id) => [id]
    case Data(id, bytes) => [id] + bytes
    case Close(id) => [id]
  }

  /** How a command and body are understood; DATA without a payload and unknown commands are not. */
  function Understood(cmd: byte, body: seq<byte>): Option<Request> {
    if body == [] then None
    else if cmd == CMD_TCP_OPEN then Some(Open(body[0]))
    else if cmd == CMD_TCP_DATA then (if body[1..] == [] then None else Some(Data(body[0], body[1..])))
    else if cmd == CMD_TCP_CLOSE then Some(Close(body[0]))
    else None
  }

  /** The requests as bytes behind the message id. */
  lemma RequestsAsBytes(id: ConnId, bytes: Chunk)
    ensures Inner(0, Command(Open(id)), Body(Open(id))) == [0, 0, 0x32, id]
    ensures Inner(0, Command(Data(id, bytes)), Body(Data(id, bytes))) == [0, 0, 0x33, id] + bytes
    ensures Inner(0, Command(Close(id)), Body(Close(id))) == [0, 0, 0x34, id]
    ensures Inner(0, CMD_SERIAL_DATA, bytes) == [0, 0, 0x30] + bytes
  {
  }

  /** What bytes behind the message id mean: DATA has to carry something, OPEN and CLOSE may have more behind them. */
  lemma BytesAsRequests(cmd: byte, body: seq<byte>, id: ConnId, bytes: Chunk)
    ensures Understood(cmd, body) == Some(Open(id)) <==> [0x32, id] <= [cmd] + body
    ensures Understood(cmd, body) == Some(Data(id, bytes)) <==> bytes != [] && [cmd] + body == [0x33, id] + bytes
    ensures Understood(cmd, body) == Some(Close(id)) <==> [0x34, id] <= [cmd] + body
  {
    if body != [] {
      HeadAsBytes(0x32, cmd, body, id);
      HeadAsBytes(0x34, cmd, body, id);
      DataAsBytes(cmd, body, id, bytes);
    }
  }

  lemma HeadAsBytes(c: byte, cmd: byte, body: seq<byte>, id: ConnId)
    requires body != []
    ensures [c, id] <= [cmd] + body <==> cmd == c && id == body[0]
  {
    var s := [cmd] + body;
    assert s[..2] == [cmd, body[0]];
    assert [c, id] <= s <==> s[..2] == [c, id];
    assert [cmd, body[0]] == [c, id] <==> cmd == c && body[0] == id by {
      assert [cmd, body[0]][1] == body[0] && [cmd, body[0]][0] == cmd && [c, id][0] == c && [c, id][1] == id;
    }
  }

  lemma DataAsBytes(cmd: byte, body: seq<byte>, id: ConnId, bytes: Chunk)
    requires body != []
    ensures [cmd] + body == [0x33, id] + bytes <==> cmd == 0x33 && id == body[0] && bytes == body[1..]
  {
    var s, t := [cmd] + body, [0x33, id] + bytes;
    assert s[0] == cmd && s[1] == body[0] && s[2..] == body[1..];
    assert t[0] == 0x33 && t[1] == id && t[2..] == bytes;
    assert s == [cmd, body[0]] + body[1..];
  }

  /** `send_peer`. */
  function SentFrame(c: Crypto, nonce: Nonce, r: Request, myX: Key, myEd: Key, peerX: Key, peerId: Header, k: Key)
    : seq<byte>
  {
    Routed(c, nonce, peerId, k, Inner(0, Command(r), Body(r)), myX, myEd, peerX)
  }

  function ReceivedRequest(c: Crypto, frame: seq<byte>, k: Key, x: Key, peerX: Key, peerEd: Key): Option<Request> {
    var m := DecodePeerFrame(c, frame, k, x, peerX, peerEd);
    if m.None? then None else Understood(m.value.0, m.value.1)
  }

  /** Every frame of the tunnel model crosses the codec and the relay unchanged. */
  lemma FrameCrossesTheWire(c: Crypto, nonce: Nonce, f: M.Frame, myX: Key, myEd: Key, theirX: Key, theirId: Header,
                            up: Key, sender: Header, down: Key)
    requires Lawful(c) && sender != ZERO
    requires f.msg.Data? ==> f.msg.bytes != []
    ensures var s := SentFrame(c, nonce, Asked(f), myX, myEd, c.xPub(theirX), theirId, up);
      && |s| >= MIN_FRAME
      && ReceivedRequest(c, Relayed(c, s, sender, down), down, theirX, c.xPub(myX), c.edPub(myEd)) == Some(Asked(f))
  {
    var r := Asked(f);
    PeerFrameRoundTrip(c, nonce, 0, Command(r), Body(r), myX, myEd, theirX, theirId, up, sender, down);
    if r.Data? {
      assert Body(r)[1..] == r.bytes;
    }
  }

  /** The bytes the serial bridge hands to its device for a frame. */
  function ReceivedSerial(c: Crypto, frame: seq<byte>, k: Key, x: Key, peerX: Key, peerEd: Key): Option<Chunk> {
    var m := DecodePeerFrame(c, frame, k, x, peerX, peerEd);
    if m.Some? && m.value.0 == CMD_SERIAL_DATA then Some(m.value.1) else None
  }

  /** A chunk of the serial bridge crosses unchanged, and neither program takes the other's frames. */
  lemma ChunkCrossesTheWire(c: Crypto, nonce: Nonce, chunk: Chunk, myX: Key, myEd: Key, theirX: Key, theirId: Header,
                            up: Key, sender: Header, down: Key)
    requires Lawful(c) && sender != ZERO && chunk != []
    ensures var s := Routed(c, nonce, theirId, up, Inner(0, CMD_SERIAL_DATA, chunk), myX, myEd, c.xPub(theirX));
      && |s| >= MIN_FRAME
      && (var g := Relayed(c, s, sender, down);
          && ReceivedSerial(c, g, down, theirX, c.xPub(myX), c.edPub(myEd)) == Some(chunk)
          && ReceivedRequest(c, g, down, theirX, c.xPub(myX), c.edPub(myEd)) == None)
  {
    PeerFrameRoundTrip(c, nonce, 0, CMD_SERIAL_DATA, chunk, myX, myEd, theirX, theirId, up, sender, down);
  }
}
