# usbws: verification of the tunnel, the bridge and their formats

usbws carries TCP connections and serial lines between two machines over an encrypted relay. This project models
what the program computes and proves what its parts promise, for every input, every schedule and every run.

- **The TCP multiplexer** (`src/tcp.rs`) is a state machine of two endpoints and a link in each direction
  (`TunnelModel`). A step is what one task does between two waits: accept, queue OPEN and register are three steps;
  looking up a writer and sending into its queue are two. Frames carry the number of the accepted connection they
  belong to as book-keeping (`tag`); the steps only look at the one-byte id. `TunnelTasks.Process` is one process
  with its fields, whose methods make exactly these steps.
- **The serial bridge** (`src/main.rs`) is a second, smaller state machine of the same kind (`Bridge`, `BridgeRuns`),
  again with a class whose methods make its steps (`BridgeTasks.Process`).
- **Formats**: the frame codec (`Frames`, `TunnelWire`), the invite (`Base64Url`, `Utf8`, `Invite`), the
  authorized-keys file (`Text`, `Authorized`, `AuthorizedFormat`, `AuthorizedLaws`, `AuthorizedEdited`), the identity
  file (`IdFile`).
- **Trust on first use** (`Tofu`), with pinning and without, and **traffic counters** (`Stat`).

## How the tunnel proof goes

Everything a reader has produced for a connection lies, oldest first, in one *track*: what found no entry, what the
writer has dealt with, its queue, the frame the session loop holds, the wire, `out`, and what the reader still holds
(`TunnelTrack.Track`). Almost every step only moves frames along a track. An invariant over tracks (`TunnelLane.LaneOk`)
says that frames are of one connection, in reading order, each at most once, complete if the link lost nothing, OPEN
first and CLOSE last. What remains is routing: that the entry an id finds is the right connection's, or, for frames of
a connection whose OPEN was lost, that of a writer which will never get to them (`TunnelGentle`). What each kind of task
may touch at all is said once (`TunnelFootprint`), and the proofs about single steps rest on that.

A run is any sequence of enabled steps that keeps to one of the following rules (`TunnelTheorems.Rules`).

| rule | what is asked of a run |
|---|---|
| `Anything` | nothing is excluded |
| `NoWriteFails` | no socket write fails |
| `HomeSafe` | no socket write fails at home, and when the writer the gate had looked up is gone, the gate answers DATA with CLOSE only once per connection and only for one whose OPEN was lost |
| `Gentle` | no socket write fails; an id is announced again only when every earlier home reader on it has ended; when the dial for an OPEN ends, well or not, the gate has no entry for its id; the gate never keeps an entry whose connection's CLOSE was lost while the OPEN of a later connection on that id was lost too |
| `FirstRounds` | no socket write fails, and at most 256 connections are accepted |
| `WhenHandled` | as `Gentle`, but the earlier home readers need only have ended when the gate handles the OPEN, at which time the entry must have gone as well |
| `ButEntries`, `ButRefusals`, `ButLosses` | as `Gentle`, without the condition on entries for dials that succeed, for dials that fail, or without the one on losses |

Read errors, failing dials, disconnects and lost frames are allowed in all of them. `FirstRounds` runs are `Gentle`,
and `Gentle` runs are `HomeSafe`. "Lost nothing" in the statements below means that no frame of that direction has been
lost so far, which is what a session without a reconnect guarantees.

Three things the code decides differently from what one might expect:

- That no write fails is *not* enough to keep connections apart from gate to home. The gate's answer to DATA for a writer that has just left is a CLOSE for an id that may already have been opened again
  (src/tcp.rs:510-516); it can end a later connection at home while its gate reader still sends
  (`TunnelReuse.AnswerMixesGateToHome`). Without that answer the direction is safe, ids being reused at will. A single
  failing write at home is as bad: it frees the id while the gate's reader, which nobody tells, goes on sending under
  it (`TunnelFailedWrite.FailedWriteMixes`).
- For home to gate it is not enough that the gate has no entry for the id when it handles OPEN and that the earlier
  home reader has ended by then: that reader may have queued its last chunks behind the OPEN, and they are written into
  the new connection's socket (`TunnelNeeded.EndedWhenHandledIsTooLate`). It must have ended when home queues the OPEN.
  Nor can the other conditions of `Gentle` be dropped. The entry of an earlier connection may still be there when the
  gate handles OPEN, but not when the dial ends: registering over it cuts the new connection off
  (`TunnelNeeded.EntryInTheWayCutsOff`), and a failed dial leaves the new connection's frames to a writer that stops,
  for which the gate then answers a second time (`TunnelRefused.RefusedWithEntryMixes`). If a CLOSE and a later OPEN are
  both lost, the later connection's bytes go into the earlier one's socket (`TunnelNeeded.LosingBothMixes`); an OPEN that
  is lost alone does no harm.
- A session loop that has to queue a CLOSE into an `out` that is full waits for itself, for ever
  (`TunnelStuck.StuckIsReachable`, `TunnelLaws.StuckForever`).

And in the authorized-keys file: a nick is written as it is, so one that goes on after a newline is read back as
several lines; and a line is appended behind whatever the file ends with, so a hand-edited file without a final newline
can lose its last key, or the new one. `AuthorizedLaws`, `AuthorizedEdited` and `Tofu` say exactly which nicks and files
keep which promise. The comment on the identity file (src/idfile.rs:56-57) lets two seeds stand on one line; the code
reads one seed from a line, so such a file is refused (`IdFile.SeedsOnOneLine`).

## Parameters

Chunks read from sockets and devices, the order of steps, the outcome of dials, reads, writes and sends, and which
frames are lost at a reconnect are chosen freely by a run. Random nonces, the cryptographic primitives (with the laws
in `Frames.Lawful`, which `Frames.PlainIsLawful` shows can be met), which 32 bytes are an Ed25519 key, and whether a
file can be read or written are parameters of the members concerned.

## Model

| member | source | states |
|---|---|---|
| `Allocator.AllocIsCyclicFirstFit` | src/tcp.rs:627-637 | the id returned is exactly the first unmapped one in cyclic order from the cursor, the cursor ends just behind it; none is returned, and the cursor stays, exactly when all 256 are mapped |
| `Allocator.ReuseDistance` | src/tcp.rs:627-637 | over any sequence of calls with any changes of the map in between, between two calls that return the same id every other id is returned or seen mapped |
| `TunnelTasks.Process.AllocConnId` | src/tcp.rs:627-637 | the 256-step loop computes that allocation |
| `TunnelTasks.Process.SpawnConnection` | src/tcp.rs:559-567 | the entry for the id now is this connection's, both tasks start, nothing else changes |
| `TunnelTasks.Process.ReaderReads` | src/tcp.rs:596-605 | a chunk is counted and held |
| `TunnelTasks.Process.ReaderSends` | src/tcp.rs:606-611 | the chunk held, and no other, is queued as DATA |
| `TunnelTasks.Process.ReaderEnds` | src/tcp.rs:597-622 | end of stream or an error queues one CLOSE; the map entry stays |
| `TunnelTasks.Process.HandleIncoming` | src/tcp.rs:492-534 | OPEN starts a dial only at the gate; DATA and CLOSE find their writer by id or are dropped; DATA without payload does nothing |
| `TunnelTasks.Process.FinishDelivery` | src/tcp.rs:510-530 | the frame is queued for its writer; if that is gone, DATA removes the entry and has CLOSE sent, CLOSE does nothing |
| `TunnelTasks.Process.FinishDial` | src/tcp.rs:541-554 | a dialed socket is registered, a failed dial has CLOSE sent |
| `TunnelTasks.Process.RunWriter` | src/tcp.rs:567-590 | the writer task does what `WriterRuns` does, whichever write fails, whether or not a sender is left |
| `TunnelTasks.WriterRunsInOrder` | src/tcp.rs:567-590 | a writer left alone deals with its queue in order up to the first Shutdown or failing write; exactly then, or when its queue is empty and has no sender left, it is gone, and the entry of its id with it; RX_BYTES grows by what it has written and by the one chunk whose write failed |
| `TunnelTasks.WriterRunsInSteps` | src/tcp.rs:567-590 | that is a run of the state machine |
| `TunnelTasks.Process.DrainOut` | src/tcp.rs:428-435 | `out` is sent in order; a failing send loses its frame, keeps the rest and ends the session |
| `TunnelTasks.DrainsInSteps` | src/tcp.rs:428-435 | draining is a run of the state machine that appends to the wire what was sent, and to the losses what was not |
| `TunnelTasks.Process.ServeConnection` | src/tcp.rs:455-590 | from lookup to socket: frames of one connection that come in while its writer keeps up are counted and written in order, DATA that carries nothing has no effect, and CLOSE at the end gives up its entry and no other |
| `TunnelBase.BaseStep` | src/tcp.rs:129-156 | every step of every run, failures included, keeps the basic invariant: both sides know the same connections, frames carry the id of their connection, queues stay within bounds, the acceptor's id stays unmapped until it is registered |
| `TunnelInv.RoutedHome` | src/tcp.rs:503-530 | in every state with the gate to home invariant, the next gate frame finds the entry of its own connection or none, although ids are reused |
| `TunnelInv.InvGHStep` | src/tcp.rs:381-637 | every `HomeSafe` step keeps the gate to home invariant |
| `TunnelGentle.InvHGStep` | src/tcp.rs:381-637 | every `Gentle` step keeps the invariant of both directions |
| `TunnelGentle.RoutedGate` | src/tcp.rs:503-530 | in every state of a `Gentle` run the next home frame finds the entry of its own connection or none, or, if its OPEN was lost, that of a writer that has been told to stop |
| `TunnelTheorems.GateToHome` | src/tcp.rs:492-623 | in every `HomeSafe` run a home socket is given only chunks its own gate reader read, in order, each at most once, over any number of reconnects; if nothing was lost, a run without gaps, a prefix if nothing came before the entry, and everything up to its end once the writer was shut down |
| `TunnelTheorems.HomeToGate` | src/tcp.rs:148-623 | in every `Gentle` run a gate socket is given only chunks its own home reader read, in order, each at most once, over any number of reconnects and lost frames; if nothing was lost, a prefix, and exactly all of it once the writer was shut down |
| `TunnelNeeded.EndedWhenHandledIsTooLate` | src/tcp.rs:129-156 | a run without failing writes or losses, in which whenever the gate handles OPEN it has no entry for the id and the earlier home readers on it have ended, writes bytes of one connection into another's gate socket |
| `TunnelNeeded.EntryInTheWayCutsOff` | src/tcp.rs:559-589 | a run that loses nothing and keeps every condition of `Gentle` but the one on entries when a dial succeeds: the gate's writer stops with nothing written, although its home reader has read a chunk and goes on reading |
| `TunnelRefused.RefusedWithEntryMixes` | src/tcp.rs:510-554 | a run that loses nothing and keeps every condition of `Gentle` but the one on entries when a dial fails: bytes of one gate connection are written into another's home socket |
| `TunnelNeeded.LosingBothMixes` | src/tcp.rs:503-530 | a run that keeps every condition of `Gentle` but the one on losses, and loses one CLOSE and one later OPEN and nothing else: bytes of one connection are written into another's gate socket |
| `TunnelTheorems.GentleIsHomeSafe` | src/tcp.rs:381-637 | `Gentle` runs are `HomeSafe`, so `GateToHome` holds of them as well |
| `TunnelTheorems.FirstRoundsAlways` | src/tcp.rs:129-156 | `FirstRounds` runs are `Gentle`: the allocator alone rules out early reuse for 256 connections |
| `TunnelLaws.FirstRoundsDeliver` | src/tcp.rs:129-156 | up to 256 accepted connections get ids 0, 1, 2, ..., and with no assumption on reuse both directions deliver as in `GateToHome` and `HomeToGate`, gaps, prefixes, ends and tags included, and all entries are owned |
| `TunnelLaws.HomeOwnership` | src/tcp.rs:141-589 | in every `HomeSafe` run each home entry belongs to exactly one writer that has not removed it and vice versa, registering overwrites nothing, a writer removes its own entry, "writer gone" does not happen at home |
| `TunnelLaws.InsertIsFree` | src/tcp.rs:141-153 | in every run, failures included, registering a connection at home overwrites no entry, despite the waits between allocation and registration |
| `TunnelLaws.NoStaleFrames` | src/tcp.rs:129-156 | in every `HomeSafe` run, when home allocates, no gate frame is under way, in `out` or about to be queued for any free id, and every gate reader that had it has finished |
| `TunnelLaws.HalfClose` | src/tcp.rs:523-622 | in every `Gentle` run a registered connection keeps its running writer and its entry until the reader at the other end has finished, whatever becomes of the opposite direction |
| `TunnelLaws.EntryRemoval` | src/tcp.rs:584-589 | in every step of a `Gentle` run, an entry goes only by its own writer's removal, when that lane has delivered CLOSE with nothing of the connection left behind it |
| `TunnelLaws.ReaderSteps` | src/tcp.rs:593-622 | no step of another task, on either side, stops or moves a reader once it reads |
| `TunnelLaws.OutSurvives` | src/tcp.rs:391-450 | frames waiting in `out` stay there in order for as long as the endpoint is disconnected |
| `TunnelWaits.DownUntilReconnect` | src/tcp.rs:425-450 | in every run, once a send has failed or the relay is gone, the session loop sends and takes nothing until it has reconnected |
| `TunnelWaits.ReaderWaits` | src/tcp.rs:593-622 | in every reachable state `out` holds at most 512 frames; a reader can read any chunk of 1 to 16384 bytes, and waits exactly for room in `out` with what it has to send |
| `TunnelWaits.WriterWaits` | src/tcp.rs:569-589 | in every reachable state a queue holds at most 256 frames; a writer with something in its queue can go on, one without ends exactly if neither the map nor the session loop has a sender for it |
| `TunnelWaits.SessionWaits` | src/tcp.rs:409-551 | in every reachable state the session loop is ready for what comes in and goes out, or waits exactly for room in the writer's queue, for the end of a dial, or for room in `out` |
| `TunnelWaits.AcceptorWaits` | src/tcp.rs:131-153 | in every reachable state the acceptor accepts, queues OPEN when there is room, and registers, in this order and one connection at a time |
| `TunnelWaits.LookedUpStays` | src/tcp.rs:503-530 | a running writer that has been looked up stays until it has the frame, whatever all others do and even if its entry is lost, unless a write of its own fails |
| `TunnelWaits.AnsweredIsFree` | src/tcp.rs:508-516 | after DATA for a writer that is gone the id has no entry, in every run until a connection is registered again, and the peer is sent CLOSE for it |
| `TunnelLaws.StuckOnlyOnItself` | src/tcp.rs:54-551 | in every reachable state queues are within 512 and 256; when `out` is full, neither the session loop nor the writer it waits for can move exactly if the session loop itself waits to queue a frame into `out`; a socket write and a dial count as able to end |
| `TunnelLaws.StuckForever` | src/tcp.rs:513-551 | in that case no step of anyone ever changes it |
| `TunnelStuck.StuckIsReachable` | src/tcp.rs:541-551 | that state is reached in a run with two connections and no failing write |
| `TunnelBytes.Conservation` | src/tcp.rs:571-611 | in every reachable state, failures included, TX_BYTES of one end equals the bytes in readers' hands, in `out`, under way, at the session loop, in writer queues, in RX_BYTES of the other end, thrown away and lost |
| `TunnelBytes.RxIsWritten` | src/tcp.rs:570-583 | in every reachable state RX_BYTES is the sum over the connections of what has been written, and the one chunk of every write that failed; without failing writes exactly what has been written |
| `TunnelBytes.ReceivedIsSent` | src/stat.rs:19-22 | RX_BYTES of one end never exceeds TX_BYTES of the other; nor do the wrapped counters, as long as TX_BYTES has not wrapped |
| `TunnelReuse.ReuseMixesHomeToGate` | src/tcp.rs:561-622 | without any condition on reuse, in a run without failing writes or losses, and in such a `HomeSafe` one as well, bytes of one home connection are written to another's gate socket |
| `TunnelReuse.AnswerMixesGateToHome` | src/tcp.rs:510-516 | a run without failing writes or losses in which bytes of one gate connection are written to another's home socket: the condition on the answer cannot be dropped |
| `TunnelFailedWrite.FailedWriteMixes` | src/tcp.rs:569-589 | a run that loses nothing and is `HomeSafe`, or free of failing writes, but for one failing write at home: bytes of one gate connection are written to another's home socket |
| `Bridge.BridgeFidelity` | src/main.rs:448-617 | for every schedule the far device is given chunks of the near one in order, each at most once; the bytes are a prefix if no frame was lost; a bridge that has exited has taken every chunk its device delivered, and if all of them arrive and no write fails they are all written |
| `Bridge.InvStep` | src/main.rs:448-617 | every step keeps the invariant of both directions |
| `BridgeTasks.Process.ReaderTurn` | src/main.rs:578-602 | a chunk goes to the back of the queue, end of file and fatal errors end the thread, timeouts, interrupts and EIO change nothing |
| `BridgeTasks.Process.SendNext` | src/main.rs:488-500 | the oldest chunk is sent, or lost with a reconnect to follow |
| `BridgeTasks.Process.FinishDelivery` | src/main.rs:561-564 | it is queued, or dropped if the thread is over |
| `BridgeTasks.Process.WriterTurn` | src/main.rs:607-617 | the oldest chunk is written; a failure ends the thread and drops its queue |
| `BridgeTasks.Process.SendRestAndExit` | src/main.rs:488-508 | after the device has ended, all that is queued is sent in order before the bridge exits, as in `LeavesInSteps` |
| `BridgeTasks.Transfer` | src/main.rs:470-617 | one direction from device to device: what the near device delivers before its end is read, sent, taken and written in order, and the bridge exits exactly if the device ends |
| `BridgeRuns.LeavesInSteps` | src/main.rs:488-508 | that is a run of the state machine: sends, then the exit; the wire gets the rest of the queue in order, and the bridge has exited |
| `BridgeRuns.ExitIsForGood` | src/main.rs:500-526 | in every run after an exit the bridge stays exited: it reads, sends, takes and reconnects never again, only its writer thread may write what it has |
| `BridgeRuns.EveryEndIsReached` | src/main.rs:448-617 | for every script of a device that ends there is a run from the start in which the near end exits and exactly what the device delivered is written at the far end |
| `BridgeRuns.DownUntilReconnect` | src/main.rs:455-510 | once a send has failed or the relay is gone, the loop sends and takes nothing until it has reconnected, and keeps what it has to send |
| `BridgeRuns.WaitsForRoomOnly` | src/main.rs:438-617 | in every reachable state both queues hold at most 256 chunks, each thread waits exactly for room in its own, and a device may deliver any chunk of 1 to 4096 bytes |
| `Bridge.DeviceReadLoop` | src/main.rs:573-603 | the loop hands over the chunks before the first end of file or fatal error |
| `Bridge.TransientOutcomesLoseNothing` | src/main.rs:590-601 | a timeout, an interrupt or EIO anywhere changes nothing; what comes after the end of file or another error is not read |
| `Bridge.ReaderHandsOver` | src/main.rs:573-603 | the steps of the reader thread queue exactly what the loop hands over |
| `Bridge.DeviceWriteLoop` | src/main.rs:607-617 | the queue is written in order, up to the first failing write, of which nothing counts |
| `Frames.XorHeader` | src/proto.rs:96-100 | the header is masked in place, by `Mask` |
| `Frames.MaskFlipsBits` | src/proto.rs:96-100 | `Mask` flips a bit of the header exactly where the keystream of the key and the first 12 bytes of the nonce has a one |
| `Frames.ZeroGoesAsKeystream` | src/proto.rs:192-193 | the address zero goes out as that keystream |
| `Frames.MaskHides` | src/proto.rs:96-100 | the same address under two keystreams gives the same header exactly if the keystreams are the same |
| `Frames.PackInner` | src/proto.rs:108-114 | message id in little-endian, command and body in this order |
| `Frames.InnerReadsBack` | src/proto.rs:108-114 | the id is read back from the first two bytes, low byte first, then the command and the body |
| `Frames.EncryptAndSign` | src/proto.rs:116-131 | nonce, ciphertext and a signature of both |
| `Frames.BuildPeerFrame` | src/proto.rs:166-181 | the peer's id masked under the nonce of the packet that follows it |
| `Frames.BuildServerBound` | src/proto.rs:184-198 | the same with the address zero |
| `Frames.PacketRoundTrip` | src/proto.rs:116-151 | the addressee decrypts exactly what was encrypted |
| `Frames.AcceptedPackets` | src/proto.rs:133-151 | a packet is accepted exactly if it is 24 bytes of nonce, a ciphertext of at least 16 bytes that opens, and a signature of both that verifies |
| `Frames.PeerFrameRoundTrip` | src/proto.rs:166-217 | a frame is body + 115 bytes; the relay reads the peer's id; relayed, the receiver gets exactly the command and body, except an empty body or a zero sender, and does not take it for a server message |
| `Frames.ServerFrameRoundTrip` | src/proto.rs:184-217 | a server frame unmasks to the zero address, decodes to its inner message, and is no peer's message |
| `Frames.AcceptedFrames` | src/proto.rs:200-217 | frames are read as a server's or a peer's message exactly if they have at least 112 bytes, the header unmasks to zero or not, the packet is accepted, and a peer's message has a body |
| `TunnelWire.FrameCrossesTheWire` | src/tcp.rs:84-534 | every OPEN, DATA and CLOSE of the tunnel model is understood at the other end as the same request for the same id |
| `TunnelWire.RequestsAsBytes` | src/proto.rs:26-37 | the bytes of every request: commands 0x32, 0x33 and 0x34 before the id, 0x30 for a serial chunk |
| `TunnelWire.BytesAsRequests` | src/tcp.rs:484-534 | command and body are understood as a request exactly if they begin with its command and id; DATA has to carry something |
| `TunnelWire.ChunkCrossesTheWire` | src/main.rs:490-565 | a chunk of the serial bridge arrives unchanged, and the tunnel ignores it |
| `Base64Url.DecodesExactlyEncodings` | src/proto.rs:234-272 | section 5 of RFC 4648 without padding: a text decodes to bytes exactly if it is their encoding |
| `Base64Url.AlphabetIsTable2` | src/proto.rs:234-272 | the symbols are the 64 of table 2 of RFC 4648, in its order |
| `Base64Url.EncodesByTable` | src/proto.rs:234-272 | the symbols of three bytes name, most significant first, the four groups of six bits of their 24-bit number |
| `Utf8.LossyDecodesEncoded` | src/proto.rs:242-269 | text survives UTF-8 and lossy decoding |
| `Utf8.EncodedByRfc3629` | src/proto.rs:242-269 | lengths, marker bits and payload of encoded characters are those of section 3 of RFC 3629 |
| `Utf8.CharsAreEncodings` | src/proto.rs:242-260 | bytes are read as a character exactly if they begin with its encoding: no overlong form, no surrogate |
| `Utf8.StrayByteIsReplaced` | src/proto.rs:242-260 | a byte that begins no character is replaced by U+FFFD on its own |
| `Utf8.CutCharIsReplaced` | src/proto.rs:242-260 | a character cut short is replaced by one U+FFFD |
| `Invite.MakeQr` | src/proto.rs:265-274 | the invite of both keys and the nick |
| `Invite.InviteRoundTrip` | src/proto.rs:229-274 | every invite decodes to the keys, the id and the nick it was made of |
| `Invite.QrOfBytes` | src/proto.rs:229-262 | for all bytes, their invite decodes exactly as they do as an introduction, errors included |
| `Invite.DecodesLayout` | src/proto.rs:246-262 | an introduction is accepted exactly if it is 32 bytes, 32 bytes that are a key, and a nick; the id is the first 8 bytes |
| `Invite.AcceptedTextsAreInvites` | src/proto.rs:229-244 | a text decodes to a peer exactly if, trimmed, it is the invite of an introduction of that peer |
| `Authorized.Store.Load` | src/authorized.rs:43-66 | the loop reads the table a file stands for; a missing file is an empty table, an unreadable one an error |
| `AuthorizedFormat.EntryLines` | src/authorized.rs:50-63 | a line is an entry exactly if it is, after white space, 64 hexadecimal digits of either case and then nothing, or one of the 25 White_Space characters and the nick |
| `AuthorizedFormat.KeyThenNick` | src/authorized.rs:56-59 | a key and a nick set apart by any of these characters are read as such |
| `AuthorizedFormat.HandWrittenFile` | src/authorized.rs:43-66 | a file of such lines loads as its keys and trimmed nicks in order |
| `AuthorizedFormat.FileReadsLineByLine` | src/authorized.rs:50-51 | a line in front of a file, ended by a newline with or without a carriage return, adds its entry and changes no other |
| `Authorized.Store.Add` | src/authorized.rs:75-105 | a listed key changes nothing, another is appended as a line, a failure leaves the file |
| `Authorized.LineShape` | src/authorized.rs:84-88 | a line is the key in hexadecimal, a space and the nick if there is one, and a newline |
| `Authorized.Store.PrintTable` | src/authorized.rs:109-125 | the table is printed line by line |
| `AuthorizedLaws.NickIsKeptIffOneLine` | src/authorized.rs:50-88 | on a file whose last line is finished or blank, a new key is read back with its trimmed nick after the old entries, and nothing else, exactly if the nick has no newline before its last visible character |
| `AuthorizedLaws.KeyIsAddedIffReady` | src/authorized.rs:84-103 | for such a nick, this holds exactly if the last line of the file is finished or blank |
| `AuthorizedEdited.AppendedJoins` | src/authorized.rs:84-103 | appending behind an unfinished entry: its key is lost if it was alone on the line, otherwise it stays with another nick; the entries before it stay |
| `AuthorizedLaws.TableIsAnOrderedMap` | src/authorized.rs:43-105 | for a file whose last line is finished or blank and nicks on one line: after any sequence of additions the table is the old one followed by each new key once, in the order of first addition, with its first nick trimmed, and a newline-terminated file still is |
| `AuthorizedLaws.PrintReload` | src/authorized.rs:43-125 | what is printed of any file reads back as its table |
| `Tofu.AuthorizeInitiator` | src/tcp.rs:318-361 | the decision and the file after it, in all five cases, as `Decide`, whose runs the following rows are about |
| `Tofu.ServeEvents` | src/tcp.rs:240-290 | the gate over introductions and restarts, with `usbws authorize` beside it: `Run` is what these methods do together, with pinning and without |
| `Tofu.NoPinningWelcomesAll` | src/tcp.rs:319-326 | with pinning off, over any events, every introduction to a gate that waits is accepted and becomes the peer, and no introduction changes the file, whatever it lists and whether it can be read |
| `Tofu.UnwritableIsOpen` | src/tcp.rs:334-344 | a gate that cannot write its empty table is in every run as open as one without pinning |
| `Tofu.UnreadableIsShut` | src/tcp.rs:327-333 | a gate that cannot read its file accepts nobody in any run |
| `Tofu.SettledUntilRestart` | src/tcp.rs:240-290 | a gate that has its peer keeps it, and accepts nobody else, until it is started again |
| `Tofu.FileIsAsGoodAsTable` | src/tcp.rs:318-361 | while the file can be read and written, a gate with its text file does in every run, in both modes, exactly what one with a table in memory would do, for nicks on one line and a file whose last line is finished or blank |
| `Tofu.TableOnlyGrows` | src/tcp.rs:240-361 | over whole runs of introductions, `usbws authorize` calls and restarts, whatever the nicks and failures, the table only grows, if and only if the unfinished last line of the file is no entry or every key is listed |
| `Tofu.UnfinishedFileOpensAgain` | src/authorized.rs:75-105 | a file of one key without a newline: the next addition empties the table, and then whoever comes is accepted |
| `Tofu.AcceptedAreListed` | src/tcp.rs:334-361 | while the file can be read and written, every key ever accepted is in the table over whole runs, if and only if an empty table has no unfinished text in the way and an unfinished last key is not its only mention |
| `Tofu.PinnedTable` | src/tcp.rs:334-361 | once the table has an entry, over any sequence of introductions and restarts the file stays, every key accepted is listed, and whenever the gate waits and can read its table, the one who introduces himself is accepted exactly if listed |
| `Tofu.AtMostOneKey` | src/tcp.rs:240-344 | from an empty table, without `usbws authorize` and with a working file, one key alone is ever accepted over any number of introductions and restarts if and only if its line is read back and no further line of the first nick names another key |
| `Tofu.AtMostOneKeyForPlainNicks` | src/tcp.rs:240-344 | for a nick on one line, if and only if the file's last line was finished or blank |
| `Tofu.TwoLineNickListsTwoKeys` | src/tcp.rs:334-344 | a nick of two lines with which two keys are accepted |
| `IdFile.ParseIdentity` | src/idfile.rs:58-82 | the loop reads what `Parse` says |
| `IdFile.IdentityRoundTrip` | src/idfile.rs:58-93 | what is written is read back as exactly the two seeds |
| `IdFile.BodyInThreeLines` | src/idfile.rs:88-93 | what is written is the heading and one line for each seed |
| `IdFile.BareFile` | src/idfile.rs:63-81 | a file of two seeds on two lines, in either case and with any white space around them, parses to them in this order |
| `IdFile.KeyedFile` | src/idfile.rs:63-79 | so do the two keyed lines, in either order |
| `IdFile.SeedsOnOneLine` | src/idfile.rs:56-82 | two seeds on one line are not read, whatever white space is between them |
| `IdFile.InsertedLineIsIgnored` | src/idfile.rs:63-67 | inserting a blank line or a comment between any two lines of any file changes nothing |
| `IdFile.LastKeyedLineDecides` | src/idfile.rs:68-81 | each seed is decided by the last line with its key; if that does not decode, the first two bare seeds are used, or nothing |
| `IdFile.BareSeedsDecide` | src/idfile.rs:68-81 | without a line for one of the keys, the first two bare seeds are used, or nothing |
| `Text.HexRoundTrip` | src/idfile.rs:84-86 | hexadecimal as written is read back |
| `Text.UnhexReadsEitherCase` | src/idfile.rs:84-86 | a text is read as bytes exactly if in lower case it is their hexadecimal |
| `Text.HexAt` | src/idfile.rs:84-86 | each byte gives two digits, the higher one first |
| `Text.SpacesAreListed` | src/authorized.rs:51-57 | white space is exactly the 25 characters of the White_Space property |
| `Text.LinesOneByOne` | src/authorized.rs:50 | lines end in a newline or a carriage return and newline, which are not part of them; a last line without an ending counts unless it is empty |
| `Stat.Ticker.OneTick` | src/stat.rs:32-51 | a tick prints both flags and remembers the counters |
| `Stat.CountersHoldTotals` | src/stat.rs:19-22 | the counters are the totals modulo 2^64 |
| `Stat.FlagsTellTraffic` | src/stat.rs:32-51 | over any run the line printed is one of four, "STAT tx=1 rx=0" and so on, and a flag in it is 1 exactly if the bytes counted since the last tick are not a multiple of 2^64 |

## Left out

- The relay: it is not in the repository. It is a FIFO link that re-masks headers and may lose frames while one end is
  disconnected; the links of the two directions are independent.
- Cryptographic primitives, key derivation and the handshake (`src/proto.rs:62-106, 153-163`, `src/relay.rs`): only the
  laws named in `Frames.Lawful`; nothing is said about secrecy or forged frames.
- Liveness: it is not proved that an enabled step is ever taken.
- The map lock: it is held only within single steps, never across a wait, so it does not appear as state.
- Waiting inside a socket write or a device write: taking a chunk and writing it is one step; part of a chunk written
  before a write fails is not counted as written.
- TunnelLaws.StuckOnlyOnItself: a client or service that never reads can hold a socket write up for as long as it likes;
  that is not counted as being stuck.
- TunnelTheorems.GateToHome, TunnelTheorems.HomeToGate: the conditions of `HomeSafe` and `Gentle` are sufficient, and
  none of those on failing writes at home, answers, readers, entries (for either outcome of the dial) and losses can be
  left out; that every run which breaks one goes wrong is not claimed, because it need not.
- A closed `out` channel, ping and pong, ctrl-c, accept errors, log output, timers and back-off.
- A disconnect is noticed when the session loop is back at its select, which is where the code looks for it.
- TunnelBytes.Conservation: TX_BYTES and RX_BYTES are unbounded there; that they wrap at 2^64 is modelled in `Stat`.
- TunnelBytes.ReceivedIsSent: once TX_BYTES has wrapped, the counters as kept no longer compare.
- Tofu.AtMostOneKey: reading the table and appending to it is one step, so two processes that add at the same time are
  not modelled.
- Authorized.Store.Add: an append that fails half way is taken to have written nothing; file modes and the creation of
  directories are left out.
- IdFile: generating seeds, choosing the path and replacing the file are left out.
- Frames.XorHeader: the keystream is a parameter, only its use is modelled.
- Invite and Base64Url: the base64 and UTF-8 of the libraries are written as functions, not as the libraries' loops.
- Serial port and PTY set-up, the command line, the relay connection and the shell scripts.
