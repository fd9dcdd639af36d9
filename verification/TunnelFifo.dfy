/** The bytes of one connection through one endpoint: what Write has queued is what leaves for
    the peer, and what has come from the peer is what Read has returned or will return. The first
    half follows them from Write through the data queue and the write loop to the wire, the second
    from the read loop through the connection's queue and buffer to Read. */
module TunnelFifo {
  import opened Protocol
  import opened Tunnel
  import opened TunnelEndpoint
  import opened TunnelFrames

  // ---- Sending ----

  function WrittenOn(t: Table, id: Id): seq<byte> {
    if Known(t, id) then t.objs[id].written else []
  }

  /** What a step appends to an id's outgoing bytes. */
  function Appends(e: Endpoint, a: Action, id: Id): seq<byte> {
    if a.OnUser? && a.u.UWriteEnqueue? && a.u.ticket in e.calls.writes && e.calls.writes[a.u.ticket].id == id
    then OnWire(Message(MSG_DATA, id, e.calls.writes[a.u.ticket].data)).payload
    else []
  }

  lemma BytesPop(id: Id, q: seq<Req>)
    requires |q| > 0
    ensures Bytes(id, Msgs(q)) == Bytes(id, [q[0].msg]) + Bytes(id, Msgs(q[1..]))
  {
    MsgsPop(q);
    BytesConcat(id, [q[0].msg], Msgs(q[1..]));
  }

  lemma NoDataNoBytes(id: Id, ms: seq<Message>)
    requires Count(MSG_DATA, id, ms) == 0
    ensures Bytes(id, ms) == []
  {
  }

  lemma PickControlPipe(o: Outbox, toPhase2: bool, id: Id)
    requires |o.controlCh| > 0 && Queues(o) && !o.writer.Writing?
    ensures Pipe(PickControl(o, toPhase2), id) == Pipe(o, id)
  {
  }

  lemma PickDataPipe(o: Outbox, id: Id)
    requires |o.dataCh| > 0 && !o.writer.Writing?
    ensures Pipe(PickData(o), id) == Pipe(o, id)
  {
    BytesPop(id, o.dataCh);
  }

  lemma WrotePipe(o: Outbox, id: Id)
    requires o.writer.Writing? && o.lost == []
    ensures Pipe(Wrote(o), id) == Pipe(o, id)
  {
    BytesConcat(id, o.sent, Held(o.writer));
  }

  lemma FailedPipe(o: Outbox, id: Id)
    requires o.writer.Writing?
    ensures Pipe(FailedToWrite(o), id) == Pipe(o, id)
  {
    BytesConcat(id, o.lost, Held(o.writer));
  }

  lemma WriterPipe(e: Endpoint, up: bool, w: WriterStep, id: Id)
    requires CanWriter(e, up, w) && Queues(e.out) && (up ==> e.out.lost == [])
    ensures Pipe(DoWriter(e, up, w).out, id) == Pipe(e.out, id)
  {
    match w {
      case WControl1 => PickControlPipe(e.out, true, id);
      case WControl2 => PickControlPipe(e.out, false, id);
      case WData2 => PickDataPipe(e.out, id);
      case WDone => WrotePipe(e.out, id);
      case WFailed => FailedPipe(e.out, id);
      case _ =>
    }
  }

  /** Only the write loop and Write touch the data on its way out. */
  lemma OutFrame(e: Endpoint, inbox: seq<Message>, up: bool, a: Action)
    requires Enabled(e, inbox, up, a) && !a.OnWriter? && !(a.OnUser? && a.u.UWriteEnqueue?)
    ensures var o, o' := e.out, Apply(e, inbox, up, a).out;
      o'.sent == o.sent && o'.lost == o.lost && o'.writer == o.writer && o'.dataCh == o.dataCh
  {
  }

  lemma EnqueuePipe(e: Endpoint, t: nat, id: Id)
    requires CanWriteEnqueue(e, t)
    ensures Pipe(WriteEnqueue(e, t).out, id) == Pipe(e.out, id) + Appends(e, OnUser(UWriteEnqueue(t)), id)
  {
    var r := Req(OnWire(Message(MSG_DATA, e.calls.writes[t].id, e.calls.writes[t].data)), OfWrite(t));
    MsgsPush(e.out.dataCh, r);
  }

  /** The outgoing bytes of an id grow only by its Writes, at the end. */
  lemma PipeStep(e: Endpoint, inbox: seq<Message>, up: bool, a: Action, id: Id)
    requires Enabled(e, inbox, up, a) && Queues(e.out) && (up ==> e.out.lost == [])
    ensures Pipe(Apply(e, inbox, up, a).out, id) == Pipe(e.out, id) + Appends(e, a, id)
  {
    if a.OnWriter? {
      WriterPipe(e, up, a.w, id);
    } else if a.OnUser? && a.u.UWriteEnqueue? {
      EnqueuePipe(e, a.u.ticket, id);
    } else {
      OutFrame(e, inbox, up, a);
    }
  }

  lemma AckWritten(t: Table, origin: Origin, st: Stage, id: Id)
    ensures WrittenOn(AckTable(t, origin, st), id) == WrittenOn(t, id)
  {
  }

  /** Only Write adds to what is written. */
  lemma WrittenFrame(e: Endpoint, inbox: seq<Message>, up: bool, a: Action, id: Id)
    requires Enabled(e, inbox, up, a) && Admissible(e, inbox, a) && !a.OnWriter? && !a.OnUser?
    ensures WrittenOn(Apply(e, inbox, up, a).table, id) == WrittenOn(e.table, id)
  {
    if Creates(e, inbox, a, id) {
      CreateFrame(e, inbox, up, a, id);
    } else {
      StepFrame(e, inbox, up, a, id);
    }
  }

  lemma UserWritten(e: Endpoint, u: UserStep, id: Id)
    requires CanUse(e, u)
    ensures WrittenOn(DoUse(e, u).table, id) == WrittenOn(e.table, id) + Appends(e, OnUser(u), id)
  {
  }

  lemma WrittenStep(e: Endpoint, inbox: seq<Message>, up: bool, a: Action, id: Id)
    requires Enabled(e, inbox, up, a) && Admissible(e, inbox, a)
    ensures WrittenOn(Apply(e, inbox, up, a).table, id) == WrittenOn(e.table, id) + Appends(e, a, id)
  {
    match a {
      case OnWriter(w) =>
        if w.WDone? || w.WFailed? {
          AckWritten(e.table, e.out.writer.req.origin, if w.WDone? then Acked else Failed, id);
        }
      case OnUser(u) => UserWritten(e, u, id);
      case _ => WrittenFrame(e, inbox, up, a, id);
    }
  }

  // ---- Receiving ----

  function Flat(chunks: seq<seq<byte>>): seq<byte> {
    if |chunks| == 0 then [] else Flat(chunks[..|chunks| - 1]) + chunks[|chunks| - 1]
  }

  lemma {:induction false} FlatPop(chunks: seq<seq<byte>>)
    requires |chunks| > 0
    ensures Flat(chunks) == chunks[0] + Flat(chunks[1..])
  {
    if |chunks| > 1 {
      var init := chunks[..|chunks| - 1];
      FlatPop(init);
      assert init[1..] == chunks[1..][..|chunks[1..]| - 1];
    } else {
      assert chunks[..0] == chunks[1..] == [];
    }
  }

  /** Everything a connection has taken in: returned by Read, in its buffer, in its queue. */
  function TakenIn(c: Conn): seq<byte> {
    c.read + c.readBuf + Flat(c.readCh)
  }

  /** Data the read loop is about to deliver. */
  function Pending(r: Reader, id: Id): seq<byte> {
    if r.AtDeliver? && r.id == id then r.data else []
  }

  /** closeCh is still open, or the read loop closed it, after delivering all it had read. */
  predicate GapFree(once: Once) {
    Signals(once) ==> !once.Sending? && once.closer == ByReader
  }

  predicate RecvOk(t: Table, r: Reader, id: Id, heard: seq<byte>) {
    if Known(t, id) then
      var c := t.objs[id];
      && (id in t.conns && !Signals(c.once) ==> TakenIn(c) + Pending(r, id) == heard)
      && (GapFree(c.once) ==> TakenIn(c) + Pending(r, id) <= heard)
    else heard == []
  }

  lemma DialRecv(e: Endpoint, d: DialStep, id: Id, heard: seq<byte>)
    requires CanDial(e, d) && (d.DStart? ==> !Known(e.table, e.table.nextID + 1))
    requires IdTotals(e, id) && RecvOk(e.table, e.reader, id, heard)
    ensures RecvOk(DoDial(e, d).table, DoDial(e, d).reader, id, heard)
  {
  }

  lemma WriterRecv(e: Endpoint, up: bool, w: WriterStep, id: Id, heard: seq<byte>)
    requires CanWriter(e, up, w)
    requires RecvOk(e.table, e.reader, id, heard)
    ensures RecvOk(DoWriter(e, up, w).table, DoWriter(e, up, w).reader, id, heard)
  {
  }

  lemma OpenRecv(e: Endpoint, o: OpenStep, id: Id, heard: seq<byte>)
    requires CanOpen(e, o)
    requires RecvOk(e.table, e.reader, id, heard)
    ensures RecvOk(DoOpen(e, o).table, DoOpen(e, o).reader, id, heard)
  {
  }

  lemma CloseRecv(e: Endpoint, c: CloseStep, id: Id, heard: seq<byte>)
    requires CanClose(e, c) && IdTotals(e, id)
    requires RecvOk(e.table, e.reader, id, heard)
    ensures RecvOk(DoClose(e, c).table, DoClose(e, c).reader, id, heard)
  {
  }

  lemma RefillTakesIn(e: Endpoint, id: Id)
    requires CanRefill(e, id)
    ensures TakenIn(Refill(e, id).table.objs[id]) == TakenIn(e.table.objs[id])
  {
    FlatPop(e.table.objs[id].readCh);
  }

  lemma TakeTakesIn(e: Endpoint, id: Id, n: nat)
    requires CanTake(e, id, n)
    ensures TakenIn(Take(e, id, n).table.objs[id]) == TakenIn(e.table.objs[id])
  {
    var c := e.table.objs[id];
    assert c.readBuf == c.readBuf[..n] + c.readBuf[n..];
  }

  lemma UserRecv(e: Endpoint, u: UserStep, id: Id, heard: seq<byte>)
    requires CanUse(e, u)
    requires RecvOk(e.table, e.reader, id, heard)
    ensures RecvOk(DoUse(e, u).table, DoUse(e, u).reader, id, heard)
  {
    if u.URefill? && u.id == id {
      RefillTakesIn(e, id);
    } else if u.UTake? && u.id == id {
      TakeTakesIn(e, id, u.n);
    }
  }

  lemma PushRecv(e: Endpoint, id: Id, heard: seq<byte>)
    requires CanPush(e) && RecvOk(e.table, e.reader, id, heard)
    ensures RecvOk(Push(e).table, Push(e).reader, id, heard)
  {
    if e.reader.id == id {
      var c := e.table.objs[id];
      assert TakenIn(Push(e).table.objs[id]) == TakenIn(c) + Pending(e.reader, id);
    }
  }

  lemma ReceiveRecv(e: Endpoint, m: Message, id: Id, heard: seq<byte>)
    requires e.reader == Idle && (m.kind == MSG_OPEN ==> !Known(e.table, m.connID)) && IdTotals(e, id)
    requires RecvOk(e.table, e.reader, id, heard)
    ensures RecvOk(Receive(e, m).table, Receive(e, m).reader, id,
                   heard + if Is(m, MSG_DATA, id) && Known(e.table, id) then m.payload else [])
  {
  }

  lemma ReaderRecv(e: Endpoint, inbox: seq<Message>, up: bool, r: ReaderStep, id: Id, heard: seq<byte>)
    requires CanReader(e, inbox, up, r) && Admissible(e, inbox, OnReader(r)) && IdTotals(e, id)
    requires RecvOk(e.table, e.reader, id, heard)
    ensures var e' := DoReader(e, inbox, up, r);
      RecvOk(e'.table, e'.reader, id,
             heard + if r.RReceive? && Is(inbox[e.got], MSG_DATA, id) && Known(e.table, id)
                        then inbox[e.got].payload else [])
  {
    assert heard + [] == heard;
    match r {
      case RReceive => ReceiveRecv(e, inbox[e.got], id, heard);
      case RPush => PushRecv(e, id, heard);
      case _ =>
    }
  }
}
