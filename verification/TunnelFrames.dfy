/** What one step of an endpoint can do to one connection, whichever step it is: the frame that the
    invariants of the other modules share.

    The holder, the once and the bytes of a connection move only by the steps that are named here,
    and so do the listener's queue, the Write calls and what these have queued. Each group of steps
    has its own lemma, which looks into the steps of that group only; the lemmas about an arbitrary
    step put these together. A proof elsewhere that one step keeps an invariant uses the frame and
    looks only into the few steps for which the frame leaves something open. */
module TunnelFrames {
  import opened Protocol
  import opened Tunnel
  import opened TunnelEndpoint

  /** Dial and an OPEN that is read make a connection. */
  predicate Creates(e: Endpoint, inbox: seq<Message>, a: Action, id: Id) {
    || (StartsDial(a) && id == e.table.nextID + 1)
    || (a == OnReader(RReceive) && e.got < |inbox| && Is(inbox[e.got], MSG_OPEN, id))
  }

  /** Offered to the listener and not refused, or returned by Dial. */
  predicate KeptHolder(h: Holder) {
    h == Listed || h == User
  }

  /** In the hands of a user, or about to be: Dial has seen its OPEN written. */
  predicate UsableHolder(h: Holder) {
    h == User || (h.Dialling? && h.stage == Acked)
  }

  predicate HolderMoves(e: Endpoint, h: Holder, h': Holder, a: Action, id: Id) {
    && (KeptHolder(h') && !KeptHolder(h) ==>
          || (a == OnOpen(OOffer) && e.reader == AtOpen(id)) || a == OnDial(DReturn(id))
          || (a == OnUser(UAccept) && id in e.table.connCh))
    && (KeptHolder(h) && !KeptHolder(h') ==> a == OnOpen(ORefuse) && e.reader == AtOpen(id))
    && (UsableHolder(h') && !UsableHolder(h) ==>
          || (a == OnWriter(WDone) && e.out.writer.Writing? && e.out.writer.req.origin == OfDial(id))
          || (a == OnUser(UAccept) && id in e.table.connCh))
    && (h'.Dialling? && h'.stage == ToSend ==> h' == h)
  }

  predicate OnceMoves(once: Once, once': Once, a: Action, id: Id) {
    && (UserClosed(once') && !UserClosed(once) ==> a == OnClose(CBegin(id, ByUser)))
    && (UserClosed(once) ==> UserClosed(once'))
    && (once.Done? ==> once' == once)
  }

  predicate BytesMove(c: Conn, c': Conn, a: Action, id: Id) {
    && (!(a.OnUser? && a.u.UTake? && a.u.id == id) ==> c'.read == c.read)
    && (!(a.OnUser? && a.u.UWriteEnqueue?) ==> c'.written == c.written)
  }

  /** How a connection may change in a step. */
  predicate Moves(e: Endpoint, c: Conn, c': Conn, a: Action, id: Id) {
    HolderMoves(e, c.holder, c'.holder, a, id) && OnceMoves(c.once, c'.once, a, id) && BytesMove(c, c', a, id)
  }

  /** Known before and after, and moved as it may. */
  predicate Framed(e: Endpoint, t': Table, a: Action, id: Id) {
    Known(e.table, id) ==> Known(t', id) && Moves(e, e.table.objs[id], t'.objs[id], a, id)
  }

  lemma DialFrame(e: Endpoint, inbox: seq<Message>, d: DialStep, id: Id)
    requires CanDial(e, d) && !Creates(e, inbox, OnDial(d), id)
    ensures Framed(e, DoDial(e, d).table, OnDial(d), id)
    ensures Known(DoDial(e, d).table, id) ==> Known(e.table, id)
  {
  }

  lemma AckFrame(e: Endpoint, st: Stage, id: Id)
    requires e.out.writer.Writing? && (st == Acked || st == Failed)
    ensures Framed(e, AckTable(e.table, e.out.writer.req.origin, st),
                   OnWriter(if st == Acked then WDone else WFailed), id)
    ensures AckTable(e.table, e.out.writer.req.origin, st).objs.Keys == e.table.objs.Keys
  {
  }

  lemma WriterFrame(e: Endpoint, up: bool, w: WriterStep, id: Id)
    requires CanWriter(e, up, w)
    ensures Framed(e, DoWriter(e, up, w).table, OnWriter(w), id)
    ensures Known(DoWriter(e, up, w).table, id) ==> Known(e.table, id)
  {
    if w.WDone? || w.WFailed? {
      AckFrame(e, if w.WDone? then Acked else Failed, id);
    }
  }

  lemma ReaderFrame(e: Endpoint, inbox: seq<Message>, up: bool, r: ReaderStep, id: Id)
    requires CanReader(e, inbox, up, r) && !Creates(e, inbox, OnReader(r), id)
    ensures Framed(e, DoReader(e, inbox, up, r).table, OnReader(r), id)
    ensures Known(DoReader(e, inbox, up, r).table, id) ==> Known(e.table, id)
  {
  }

  lemma OpenFrame(e: Endpoint, o: OpenStep, id: Id)
    requires CanOpen(e, o)
    ensures Framed(e, DoOpen(e, o).table, OnOpen(o), id)
    ensures Known(DoOpen(e, o).table, id) ==> Known(e.table, id)
  {
  }

  lemma CloseFrame(e: Endpoint, c: CloseStep, id: Id)
    requires CanClose(e, c)
    ensures Framed(e, DoClose(e, c).table, OnClose(c), id)
    ensures Known(DoClose(e, c).table, id) ==> Known(e.table, id)
  {
  }

  lemma UserFrame(e: Endpoint, u: UserStep, id: Id)
    requires CanUse(e, u)
    ensures Framed(e, DoUse(e, u).table, OnUser(u), id)
    ensures Known(DoUse(e, u).table, id) ==> Known(e.table, id)
  {
  }

  /** Every step leaves a connection known and moves it as it may, unless it makes a new one. */
  lemma StepFrame(e: Endpoint, inbox: seq<Message>, up: bool, a: Action, id: Id)
    requires Enabled(e, inbox, up, a) && !Creates(e, inbox, a, id)
    ensures Framed(e, Apply(e, inbox, up, a).table, a, id)
    ensures Known(Apply(e, inbox, up, a).table, id) ==> Known(e.table, id)
  {
    match a {
      case OnDial(d) => DialFrame(e, inbox, d, id);
      case OnWriter(w) => WriterFrame(e, up, w, id);
      case OnReader(r) => ReaderFrame(e, inbox, up, r, id);
      case OnOpen(o) => OpenFrame(e, o, id);
      case OnClose(c) => CloseFrame(e, c, id);
      case OnUser(u) => UserFrame(e, u, id);
    }
  }

  // ---- The listener's queue and the read loop's opens ----

  /** The step queues nothing and takes nothing out, and handleOpen begins with no new id. */
  predicate ListsFramed(e: Endpoint, e': Endpoint) {
    && e'.table.connCh == e.table.connCh && e'.table.accepted == e.table.accepted
    && (e'.reader.AtOpen? ==> e'.reader == e.reader)
  }

  lemma DialLists(e: Endpoint, d: DialStep)
    requires CanDial(e, d)
    ensures ListsFramed(e, DoDial(e, d))
  {
  }

  lemma WriterLists(e: Endpoint, up: bool, w: WriterStep)
    requires CanWriter(e, up, w)
    ensures ListsFramed(e, DoWriter(e, up, w))
  {
  }

  lemma ReaderLists(e: Endpoint, inbox: seq<Message>, up: bool, r: ReaderStep)
    requires CanReader(e, inbox, up, r) && !r.RReceive?
    ensures ListsFramed(e, DoReader(e, inbox, up, r))
  {
  }

  lemma CloseLists(e: Endpoint, c: CloseStep)
    requires CanClose(e, c)
    ensures ListsFramed(e, DoClose(e, c))
  {
  }

  lemma UserLists(e: Endpoint, u: UserStep)
    requires CanUse(e, u)
    ensures DoUse(e, u).reader == e.reader
    ensures DoUse(e, u).table.accepted + DoUse(e, u).table.connCh == e.table.accepted + e.table.connCh
  {
  }

  // ---- The Write calls and what they have queued ----

  predicate CallsFramed(e: Endpoint, e': Endpoint) {
    e'.calls == e.calls && e'.out.dataCh == e.out.dataCh && e'.out.writer == e.out.writer
  }

  lemma DialCalls(e: Endpoint, d: DialStep)
    requires CanDial(e, d)
    ensures CallsFramed(e, DoDial(e, d))
  {
  }

  lemma ReaderCalls(e: Endpoint, inbox: seq<Message>, up: bool, r: ReaderStep)
    requires CanReader(e, inbox, up, r)
    ensures CallsFramed(e, DoReader(e, inbox, up, r))
  {
  }

  lemma OpenStepCalls(e: Endpoint, o: OpenStep)
    requires CanOpen(e, o)
    ensures CallsFramed(e, DoOpen(e, o))
  {
  }

  lemma CloseCalls(e: Endpoint, c: CloseStep)
    requires CanClose(e, c)
    ensures CallsFramed(e, DoClose(e, c))
  {
  }

  /** Only the write loop and the user's calls touch them. */
  lemma OthersCalls(e: Endpoint, inbox: seq<Message>, up: bool, a: Action)
    requires Enabled(e, inbox, up, a) && !a.OnWriter? && !a.OnUser?
    ensures CallsFramed(e, Apply(e, inbox, up, a))
  {
    match a {
      case OnDial(d) => DialCalls(e, d);
      case OnReader(r) => ReaderCalls(e, inbox, up, r);
      case OnOpen(o) => OpenStepCalls(e, o);
      case OnClose(c) => CloseCalls(e, c);
    }
  }

  /** The connection that is made. */
  lemma CreateFrame(e: Endpoint, inbox: seq<Message>, up: bool, a: Action, id: Id)
    requires Enabled(e, inbox, up, a) && Creates(e, inbox, a, id)
    ensures var t := Apply(e, inbox, up, a).table;
            Known(t, id) && t.objs[id] == NewConn(if a.OnDial? then Dialling(a.d.addr, ToSend) else Opening)
  {
  }
}
