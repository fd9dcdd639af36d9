/** What holds over every run of two sessions, whoever dials, before two connections get the same id;
    with one dialler they never do. */
module TunnelTheorems {
  import opened Protocol
  import opened Tunnel
  import opened TunnelEndpoint
  import opened TunnelFrames
  import opened TunnelWire
  import opened TunnelFifo
  import opened TunnelPair

  // ---- Runs without collisions ----

  predicate NoneCollided(evs: seq<Event>)
    requires IsRun(evs)
    decreases |evs|
  {
    |evs| == 0 || (NoneCollided(evs[..|evs| - 1]) && !Collides(After(evs[..|evs| - 1]), evs[|evs| - 1]))
  }

  lemma {:induction false} RunsKeep(evs: seq<Event>)
    requires IsRun(evs) && NoneCollided(evs)
    ensures PairOk(After(evs)) && BytesOk(After(evs))
    decreases |evs|
  {
    if |evs| > 0 {
      var init, ev := evs[..|evs| - 1], evs[|evs| - 1];
      RunsKeep(init);
      PairKeeps(After(init), ev);
      BytesKeep(After(init), ev);
    }
  }

  predicate Respects(ev: Event) {
    ev.Step? && ev.side == Acceptor ==> !StartsDial(ev.action)
  }

  /** With one dialler every connection is made once: the acceptor writes no OPEN, and the dialler
      writes none twice. */
  lemma AllAdmissible(p: Pair, ev: Event)
    requires PairOk(p) && p.acceptor.table.nextID == 0 && CanHappen(p, ev) && Respects(ev)
    ensures !Collides(p, ev)
  {
    if ev.Step? {
      var e, inbox := At(p, ev.side), At(p, Other(ev.side)).out.sent;
      var id := if StartsDial(ev.action) then e.table.nextID + 1
                else if e.got < |inbox| then inbox[e.got].connID else 0;
      assert KnowsIds(e, inbox, id);
      OpensOnce(p, Other(ev.side), id);
      CountPrefix(MSG_OPEN, id, inbox, e.got);
    }
  }

  lemma {:induction false} OneDiallerNeverCollides(evs: seq<Event>)
    requires IsRun(evs) && OneDialler(evs)
    ensures NoneCollided(evs) && After(evs).acceptor.table.nextID == 0
    decreases |evs|
  {
    if |evs| > 0 {
      var init, ev := evs[..|evs| - 1], evs[|evs| - 1];
      assert Respects(ev);
      OneDiallerNeverCollides(init);
      RunsKeep(init);
      AllAdmissible(After(init), ev);
      if ev.Step? {
        CountersFrame(At(After(init), ev.side), At(After(init), Other(ev.side)).out.sent, After(init).up, ev.action);
      }
    }
  }

  // ---- Independent FIFO pipes ----

  function ReadOn(t: Table, id: Id): seq<byte> {
    if Known(t, id) then t.objs[id].read else []
  }

  /** The bytes of an id that have left Write but not reached the peer's read loop: on the wire,
      failed, in WriteRecord, queued. */
  function Outgoing(from: Endpoint, id: Id, got: nat): seq<byte>
    requires got <= |from.out.sent|
  {
    Bytes(id, from.out.sent[got..]) + Bytes(id, from.out.lost)
    + Bytes(id, Held(from.out.writer)) + Bytes(id, Msgs(from.out.dataCh))
  }

  /** The bytes of an id that have reached its conn's end but not been read: in the reader's
      buffer, in its queue, held by the read loop. */
  function Incoming(to: Endpoint, id: Id): seq<byte>
    requires Known(to.table, id)
  {
    to.table.objs[id].readBuf + Flat(to.table.objs[id].readCh) + Pending(to.reader, id)
  }

  lemma PipeSplit(from: Endpoint, id: Id, got: nat)
    requires got <= |from.out.sent|
    ensures Pipe(from.out, id) == Bytes(id, from.out.sent[..got]) + Outgoing(from, id, got)
  {
    var sent := from.out.sent;
    assert sent == sent[..got] + sent[got..];
    BytesConcat(id, sent[..got], sent[got..]);
  }

  lemma TakenInSplit(to: Endpoint, id: Id)
    requires Known(to.table, id)
    ensures TakenIn(to.table.objs[id]) + Pending(to.reader, id) == to.table.objs[id].read + Incoming(to, id)
  {
  }

  lemma Join(written: seq<byte>, heard: seq<byte>, rest: seq<byte>, read: seq<byte>, incoming: seq<byte>)
    requires written == heard + rest && heard == read + incoming
    ensures written == read + incoming + rest
  {
  }

  /** In every reachable state, for both directions and all connections at once: what was written
      on a connection at one end is, byte for byte, what was read at the other end, then what is
      waiting there, then what is still on its way, as long as the reading end is registered and
      its closeCh is open. A connection in a user's hands stays registered until then. */
  lemma MultiplexerIsFifo(evs: seq<Event>, to: Side, id: Id)
    requires IsRun(evs) && NoneCollided(evs)
    ensures var e, peer := At(After(evs), to), At(After(evs), Other(to));
      && e.got <= |peer.out.sent|
      && (Known(e.table, id) && id in e.table.conns && !Signals(e.table.objs[id].once) ==>
            WrittenOn(peer.table, id) == ReadOn(e.table, id) + Incoming(e, id) + Outgoing(peer, id, e.got))
      && (InUse(e.table, id) && !Signals(e.table.objs[id].once) ==> id in e.table.conns)
  {
    RunsKeep(evs);
    var e, peer := At(After(evs), to), At(After(evs), Other(to));
    assert IdTotals(e, id);
    var heard := Bytes(id, peer.out.sent[..e.got]);
    assert RecvOk(e.table, e.reader, id, heard);
    assert Pipe(peer.out, id) == WrittenOn(peer.table, id);
    PipeSplit(peer, id, e.got);
    if Known(e.table, id) && id in e.table.conns && !Signals(e.table.objs[id].once) {
      TakenInSplit(e, id);
      Join(WrittenOn(peer.table, id), heard, Outgoing(peer, id, e.got), ReadOn(e.table, id), Incoming(e, id));
    }
  }

  lemma ReadIsPrefixAt(p: Pair, to: Side, id: Id)
    requires PairOk(p) && BytesOk(p)
    requires var t := At(p, to).table; Known(t, id) ==> GapFree(t.objs[id].once)
    ensures ReadOn(At(p, to).table, id) <= WrittenOn(At(p, Other(to)).table, id)
  {
    var e, peer := At(p, to), At(p, Other(to));
    var heard := Bytes(id, peer.out.sent[..e.got]);
    assert RecvOk(e.table, e.reader, id, heard);
    assert Pipe(peer.out, id) == WrittenOn(peer.table, id);
    PipeSplit(peer, id, e.got);
    if Known(e.table, id) {
      TakenInSplit(e, id);
    }
  }

  /** What a user reads is a prefix of what the peer's user wrote, also after the peer's CLOSE has
      closed the connection; a local Close or stop may leave a gap, of which module TunnelLocalClose
      has a run. */
  lemma ReadIsPrefix(evs: seq<Event>, to: Side, id: Id)
    requires IsRun(evs) && NoneCollided(evs)
    requires var t := At(After(evs), to).table; Known(t, id) ==> GapFree(t.objs[id].once)
    ensures ReadOn(At(After(evs), to).table, id) <= WrittenOn(At(After(evs), Other(to)).table, id)
  {
    RunsKeep(evs);
    ReadIsPrefixAt(After(evs), to, id);
  }

  // ---- Refinement: every event is a FIFO operation of each pipe ----

  /** One direction of one connection, seen from outside: the bytes put in and the bytes got out. */
  datatype Fifo = Fifo(put: seq<byte>, got: seq<byte>)

  function PipeTo(p: Pair, to: Side, id: Id): Fifo {
    Fifo(WrittenOn(At(p, Other(to)).table, id), ReadOn(At(p, to).table, id))
  }

  /** A FIFO pipe does nothing, takes bytes in at its end, or gives out the next bytes it holds. */
  ghost predicate FifoOp(f: Fifo, f': Fifo) {
    || (exists x :: f' == Fifo(f.put + x, f.got))
    || (exists y :: f' == Fifo(f.put, f.got + y) && f.got + y <= f.put)
  }

  /** Only Read returns bytes, and it returns them from its connection. */
  lemma ReadFrame(e: Endpoint, inbox: seq<Message>, up: bool, a: Action, id: Id)
    requires Enabled(e, inbox, up, a) && Admissible(e, inbox, a)
    requires !(a.OnUser? && a.u.UTake? && a.u.id == id)
    ensures ReadOn(Apply(e, inbox, up, a).table, id) == ReadOn(e.table, id)
  {
    if Creates(e, inbox, a, id) {
      CreateFrame(e, inbox, up, a, id);
    } else {
      StepFrame(e, inbox, up, a, id);
    }
  }

  lemma TakeIsFifo(p: Pair, to: Side, id: Id, n: nat)
    requires PairOk(p) && BytesOk(p) && CanHappen(p, Step(to, OnUser(UTake(id, n))))
    requires GapFree(At(p, to).table.objs[id].once)
    ensures FifoOp(PipeTo(p, to, id), PipeTo(Happen(p, Step(to, OnUser(UTake(id, n)))), to, id))
  {
    var e, p' := At(p, to), Happen(p, Step(to, OnUser(UTake(id, n))));
    var f, f' := PipeTo(p, to, id), PipeTo(p', to, id);
    PairKeeps(p, Step(to, OnUser(UTake(id, n))));
    BytesKeep(p, Step(to, OnUser(UTake(id, n))));
    ReadIsPrefixAt(p', to, id);
    assert f' == Fifo(f.put, f.got + e.table.objs[id].readBuf[..n]);
  }

  lemma ReaderSideFifo(p: Pair, a: Action, to: Side, id: Id)
    requires PairOk(p) && BytesOk(p) && CanHappen(p, Step(to, a)) && !Collides(p, Step(to, a))
    requires var t := At(p, to).table; Known(t, id) ==> GapFree(t.objs[id].once)
    ensures FifoOp(PipeTo(p, to, id), PipeTo(Happen(p, Step(to, a)), to, id))
  {
    if a.OnUser? && a.u.UTake? && a.u.id == id {
      TakeIsFifo(p, to, id, a.u.n);
    } else {
      var f := PipeTo(p, to, id);
      ReadFrame(At(p, to), At(p, Other(to)).out.sent, p.up, a, id);
      assert PipeTo(Happen(p, Step(to, a)), to, id) == Fifo(f.put + [], f.got);
    }
  }

  /** Whatever happens anywhere in the pair, each direction of each connection makes a FIFO step of
      its own, until its reading end closes locally. */
  lemma EveryEventIsFifo(p: Pair, ev: Event, to: Side, id: Id)
    requires PairOk(p) && BytesOk(p) && CanHappen(p, ev) && !Collides(p, ev)
    requires var t := At(p, to).table; Known(t, id) ==> GapFree(t.objs[id].once)
    ensures FifoOp(PipeTo(p, to, id), PipeTo(Happen(p, ev), to, id))
  {
    var f := PipeTo(p, to, id);
    assert f == Fifo(f.put + [], f.got);
    if ev.Step? && ev.side == to {
      ReaderSideFifo(p, ev.action, to, id);
    } else if ev.Step? {
      var e := At(p, ev.side);
      WrittenStep(e, At(p, to).out.sent, p.up, ev.action, id);
      assert PipeTo(Happen(p, ev), to, id) == Fifo(f.put + Appends(e, ev.action, id), f.got);
    }
  }
}
