/**
 The threads and the session loop of one bridge process as methods on its state. Each method is what is done
 between two waits and is proved to make exactly the step of Bridge of the same name.
 */
module BridgeTasks {
  import opened Common
  import opened Bridge
  import opened BridgeRuns

  class Process {
    var rd: Reader
    var got: seq<Chunk>
    var devQ: seq<Item>
    var held: Option<Item>
    var netQ: seq<Item>
    var failed: bool
    var written: seq<Item>
    var dropped: seq<Item>
    var up: bool
    var exited: bool

    function View(): End
      reads this
    {
      End(rd, got, devQ, held, netQ, failed, written, dropped, up, exited)
    }

    constructor ()
      ensures View() == NewEnd()
    {
      rd, got, devQ, held, netQ := Reading, [], [], None, [];
      failed, written, dropped, up, exited := false, [], [], false, false;
    }

    /** The reader thread reads, and hands over what it got. */
    method ReaderTurn(o: Outcome)
      requires rd.Reading? && ReadOk(o) && !exited && |devQ| < QUEUE
      modifies this`rd, this`got, this`devQ
      ensures View() == ReadAndHand(old(View()), o)
      ensures o.Bytes? ==> CanHand(DoRead(old(View()), o)) && View() == DoHand(DoRead(old(View()), o))
    {
      match o {
        case Bytes(chunk) =>
          devQ := devQ + [Item(|got|, chunk)];
          got := got + [chunk];
        case Eof => rd := Over;
        case OtherError => rd := Over;
        case _ =>
      }
    }

    /** A chunk from the device is sent; if that fails it is lost, and the loop reconnects. */
    method SendNext(ok: bool) returns (sent: Item)
      requires AtSelect(View()) && devQ != []
      modifies this`devQ, this`up
      ensures [sent] + devQ == old(devQ) && View() == DoSend(old(View()), ok)
    {
      sent := devQ[0];
      devQ := devQ[1..];
      up := ok;
    }

    /** A chunk from the peer, up to the wait for the writer thread. */
    method HandleIncoming(item: Item)
      requires AtSelect(View())
      modifies this`held
      ensures View() == DoTake(old(View()), item)
    {
      held := Some(item);
    }

    /** The send into the writer thread's queue comes through, or finds the thread over. */
    method FinishDelivery()
      requires CanDeliver(View())
      modifies this`held, this`netQ, this`dropped
      ensures View() == DoDeliver(old(View()))
    {
      if failed {
        dropped := dropped + [held.value];
      } else {
        netQ := netQ + [held.value];
      }
      held := None;
    }

    /** The writer thread takes a chunk and writes it. */
    method WriterTurn(ok: bool)
      requires CanWrite(View())
      modifies this`written, this`netQ, this`failed, this`dropped
      ensures View() == if ok then DoWrite(old(View())) else DoFail(old(View()))
    {
      if ok {
        written := written + [netQ[0]];
        netQ := netQ[1..];
      } else {
        failed := true;
        dropped := dropped + netQ;
        netQ := [];
      }
    }

    /** After the device has ended, while sends succeed and nothing comes in: the loop sends what is left and exits. */
    method SendRestAndExit() returns (sent: seq<Item>)
      requires AtSelect(View()) && rd.Over?
      modifies this`devQ, this`up, this`exited
      ensures sent == old(devQ)
      ensures View() == Departed(old(View())) && exited
    {
      sent := [];
      while devQ != []
        invariant AtSelect(View()) && rd.Over? && exited == old(exited)
        invariant sent + devQ == old(devQ)
        decreases |devQ|
      {
        var item := SendNext(true);
        sent := sent + [item];
      }
      up := false;
      exited := true;
    }
  }

  /** Both ends are connected and have nothing to do in this direction. */
  predicate Idle(near: Process, far: Process)
    reads near, far
  {
    && near != far && AtSelect(near.View()) && AtSelect(far.View())
    && near.devQ == [] && far.netQ == [] && !far.failed
  }

  function ChunksOf(o: Outcome): seq<Chunk> {
    if o.Bytes? then [o.chunk] else []
  }

  /** One read of the near device, and what it gave sent, taken and written. */
  method Pass(near: Process, far: Process, o: Outcome)
    requires Idle(near, far) && near.rd.Reading? && ReadOk(o)
    modifies near, far
    ensures Idle(near, far) && near.rd == if Fatal(o) then Over else Reading
    ensures Contents(far.written) == old(Contents(far.written)) + ChunksOf(o)
    ensures near.got == old(near.got) + ChunksOf(o)
  {
    hide Contents;
    ghost var written := far.written;
    near.ReaderTurn(o);
    if near.devQ != [] {
      assert near.devQ == [Item(|near.got| - 1, o.chunk)];
      var item := near.SendNext(true);
      assert [item] + near.devQ == [Item(|near.got| - 1, o.chunk)];
      assert item == ([item] + near.devQ)[0];
      far.HandleIncoming(item);
      far.FinishDelivery();
      far.WriterTurn(true);
      assert far.written == written + [item];
      ContentsMore(written, item);
    }
  }

  lemma ContentsMore(t: seq<Item>, item: Item)
    ensures Contents(t + [item]) == Contents(t) + [item.bytes]
  {
  }

  /**
   One direction at work: the near device answers as `script` says, the link loses nothing, the far end keeps up, and
   nothing comes the other way. What the near device delivered is written, and once it has ended the bridge exits.
   */
  method Transfer(near: Process, far: Process, script: seq<Outcome>)
    requires Idle(near, far) && near.rd.Reading? && forall i | 0 <= i < |script| :: ReadOk(script[i])
    modifies near, far
    ensures Contents(far.written) == old(Contents(far.written)) + HandedOver(script)
    ensures near.got == old(near.got) + HandedOver(script) && near.devQ == [] && far.netQ == [] && far.held.None?
    ensures near.exited <==> Ends(script)
  {
    ghost var written, got := Contents(far.written), near.got;
    var i := 0;
    while i < |script| && near.rd.Reading?
      invariant 0 <= i <= |script| && Idle(near, far) && !near.rd.Handing?
      invariant Contents(far.written) + Rest(near.rd, script[i..]) == written + HandedOver(script)
      invariant near.got + Rest(near.rd, script[i..]) == got + HandedOver(script)
      invariant near.rd.Over? <==> Ends(script[..i])
    {
      HandsOnFirst(script[i..]);
      ghost var soFar, read := Contents(far.written), near.got;
      Pass(near, far, script[i]);
      PassedOn(soFar, read, script[i], Rest(near.rd, script[i + 1..]));
      EndsMore(script, i);
      i := i + 1;
    }
    assert near.rd.Over? || script[i..] == [];
    EndsAlready(script, i);
    if near.rd.Over? {
      var _ := near.SendRestAndExit();
    }
  }

  /** What a reader in this state still hands over of a script. */
  function Rest(rd: Reader, script: seq<Outcome>): seq<Chunk> {
    if rd.Reading? then HandedOver(script) else []
  }

  lemma EndsMore(script: seq<Outcome>, i: nat)
    requires i < |script|
    ensures Ends(script[..i + 1]) <==> Ends(script[..i]) || Fatal(script[i])
  {
    assert script[..i + 1] == script[..i] + [script[i]];
    if Ends(script[..i]) {
      var j :| 0 <= j < i && Fatal(script[..i][j]);
      assert script[..i + 1][j] == script[j];
    }
    if Fatal(script[i]) {
      assert script[..i + 1][i] == script[i];
    }
  }

  lemma EndsAlready(script: seq<Outcome>, i: nat)
    requires i <= |script| && (script[i..] == [] || Ends(script[..i]))
    ensures Ends(script) <==> Ends(script[..i])
  {
    if script[i..] == [] {
      assert script[..i] == script;
    } else {
      var j :| 0 <= j < i && Fatal(script[..i][j]);
      assert script[j] == script[..i][j];
    }
  }

  lemma PassedOn(written: seq<Chunk>, got: seq<Chunk>, o: Outcome, rest: seq<Chunk>)
    ensures (written + ChunksOf(o)) + rest == written + (ChunksOf(o) + rest)
    ensures (got + ChunksOf(o)) + rest == got + (ChunksOf(o) + rest)
  {
  }

  lemma HandsOnFirst(script: seq<Outcome>)
    requires script != []
    ensures HandedOver(script) ==
      ChunksOf(script[0]) + if Fatal(script[0]) then [] else HandedOver(script[1..])
  {
  }
}
