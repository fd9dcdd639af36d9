/** What every step of one endpoint keeps: which requests can exist, where a connection can be,
    and what has been written for each connection id.

    The first part counts the records of a kind and an id wherever an endpoint can have them: written,
    lost, held by the write loop, in either queue. Records move between these places unchanged, so
    their total grows only when a request is queued. The second part says of each id where its
    connection can be: in the conns map or not, in the listener's queue or not, at which point of the
    read loop, and how many records of each kind it can have emitted by then. The last part ties the
    two together in one invariant, and proves it kept by every step. */
module TunnelEndpoint {
  import opened Protocol
  import opened Tunnel

  // ---- Views of the record streams ----

  function Msgs(q: seq<Req>): (ms: seq<Message>)
    ensures |ms| == |q|
  {
    seq(|q|, i requires 0 <= i < |q| => q[i].msg)
  }

  function Held(w: Writer): seq<Message> {
    if w.Writing? then [w.req.msg] else []
  }

  predicate Is(m: Message, kind: byte, id: Id) {
    m.kind == kind && m.connID == id
  }

  /** How many records of a kind a stream has for an id. */
  function Count(kind: byte, id: Id, ms: seq<Message>): nat {
    if |ms| == 0 then 0
    else Count(kind, id, ms[..|ms| - 1]) + if Is(ms[|ms| - 1], kind, id) then 1 else 0
  }

  /** The bytes that a stream's data records carry for an id. */
  function Bytes(id: Id, ms: seq<Message>): seq<byte> {
    if |ms| == 0 then []
    else Bytes(id, ms[..|ms| - 1]) + if Is(ms[|ms| - 1], MSG_DATA, id) then ms[|ms| - 1].payload else []
  }

  lemma {:induction false} CountConcat(kind: byte, id: Id, a: seq<Message>, b: seq<Message>)
    ensures Count(kind, id, a + b) == Count(kind, id, a) + Count(kind, id, b)
    decreases |b|
  {
    if |b| == 0 {
      assert a + b == a;
    } else {
      CountConcat(kind, id, a, b[..|b| - 1]);
      assert (a + b)[..|a + b| - 1] == a + b[..|b| - 1];
    }
  }

  lemma {:induction false} BytesConcat(id: Id, a: seq<Message>, b: seq<Message>)
    ensures Bytes(id, a + b) == Bytes(id, a) + Bytes(id, b)
    decreases |b|
  {
    if |b| == 0 {
      assert a + b == a;
    } else {
      var init, m := b[..|b| - 1], b[|b| - 1];
      BytesConcat(id, a, init);
      assert (a + b)[..|a + b| - 1] == a + init && (a + b)[|a + b| - 1] == m;
      var last := if Is(m, MSG_DATA, id) then m.payload else [];
      assert (Bytes(id, a) + Bytes(id, init)) + last == Bytes(id, a) + (Bytes(id, init) + last);
    }
  }

  lemma CountOne(kind: byte, id: Id, ms: seq<Message>, m: Message)
    ensures Count(kind, id, ms + [m]) == Count(kind, id, ms) + if Is(m, kind, id) then 1 else 0
  {
    assert (ms + [m])[..|ms|] == ms;
  }

  lemma MsgsPush(q: seq<Req>, r: Req)
    ensures Msgs(q + [r]) == Msgs(q) + [r.msg]
  {
  }

  lemma MsgsPop(q: seq<Req>)
    requires |q| > 0
    ensures Msgs(q) == [q[0].msg] + Msgs(q[1..])
  {
  }

  // ---- Everything an endpoint has handed to its write loop ----

  /** The records of a kind and id that were written, failed, are being written or are queued. */
  function Total(o: Outbox, kind: byte, id: Id): nat {
    Count(kind, id, o.sent) + Count(kind, id, o.lost) + Count(kind, id, Held(o.writer))
    + Count(kind, id, Msgs(o.controlCh)) + Count(kind, id, Msgs(o.dataCh))
  }

  /** The data bytes of an id that have left Write, in the order the peer will see them. */
  function Pipe(o: Outbox, id: Id): seq<byte> {
    Bytes(id, o.sent) + Bytes(id, o.lost) + Bytes(id, Held(o.writer)) + Bytes(id, Msgs(o.dataCh))
  }

  lemma TotalPop(kind: byte, id: Id, q: seq<Req>)
    requires |q| > 0
    ensures Count(kind, id, Msgs(q)) == Count(kind, id, [q[0].msg]) + Count(kind, id, Msgs(q[1..]))
  {
    MsgsPop(q);
    CountConcat(kind, id, [q[0].msg], Msgs(q[1..]));
  }

  lemma TotalPush(kind: byte, id: Id, q: seq<Req>, r: Req)
    ensures Count(kind, id, Msgs(q + [r])) == Count(kind, id, Msgs(q)) + if Is(r.msg, kind, id) then 1 else 0
  {
    MsgsPush(q, r);
    CountOne(kind, id, Msgs(q), r.msg);
  }

  lemma ControlTotal(o: Outbox, m: Message, origin: Origin, kind: byte, id: Id)
    ensures Total(Control(o, m, origin), kind, id) == Total(o, kind, id) + if Is(m, kind, id) then 1 else 0
  {
    TotalPush(kind, id, o.controlCh, Req(m, origin));
  }

  lemma DataTotal(o: Outbox, r: Req, kind: byte, id: Id)
    ensures Total(o.(dataCh := o.dataCh + [r]), kind, id) == Total(o, kind, id) + if Is(r.msg, kind, id) then 1 else 0
  {
    TotalPush(kind, id, o.dataCh, r);
  }

  lemma PickControlTotal(o: Outbox, toPhase2: bool, kind: byte, id: Id)
    requires |o.controlCh| > 0 && !o.writer.Writing?
    ensures Total(PickControl(o, toPhase2), kind, id) == Total(o, kind, id)
  {
    TotalPop(kind, id, o.controlCh);
  }

  lemma PickDataTotal(o: Outbox, kind: byte, id: Id)
    requires |o.dataCh| > 0 && !o.writer.Writing?
    ensures Total(PickData(o), kind, id) == Total(o, kind, id)
  {
    TotalPop(kind, id, o.dataCh);
  }

  lemma WroteTotal(o: Outbox, kind: byte, id: Id)
    requires o.writer.Writing?
    ensures Total(Wrote(o), kind, id) == Total(o, kind, id)
  {
    CountConcat(kind, id, o.sent, Held(o.writer));
  }

  lemma FailedTotal(o: Outbox, kind: byte, id: Id)
    requires o.writer.Writing?
    ensures Total(FailedToWrite(o), kind, id) == Total(o, kind, id)
  {
    CountConcat(kind, id, o.lost, Held(o.writer));
  }

  lemma WriterTotal(e: Endpoint, up: bool, w: WriterStep, kind: byte, id: Id)
    requires CanWriter(e, up, w)
    ensures Total(DoWriter(e, up, w).out, kind, id) == Total(e.out, kind, id)
  {
    match w {
      case WControl1 => PickControlTotal(e.out, true, kind, id);
      case WControl2 => PickControlTotal(e.out, false, kind, id);
      case WData2 => PickDataTotal(e.out, kind, id);
      case WDone => WroteTotal(e.out, kind, id);
      case WFailed => FailedTotal(e.out, kind, id);
      case _ =>
    }
  }

  // ---- Which requests exist ----

  predicate ControlReq(r: Req) {
    match r.origin
    case OfDial(id) => Is(r.msg, MSG_OPEN, id)
    case OfClose(id) => Is(r.msg, MSG_CLOSE, id)
    case OfRefusal(id) => Is(r.msg, MSG_CLOSE, id)
    case OfWrite(_) => false
  }

  predicate DataReq(r: Req) {
    r.origin.OfWrite? && r.msg.kind == MSG_DATA
  }

  /** Control records are in the control queue, data records in the data queue, and each request
      knows who waits for it. */
  predicate Queues(o: Outbox) {
    && (forall i | 0 <= i < |o.controlCh| :: ControlReq(o.controlCh[i]))
    && (forall i | 0 <= i < |o.dataCh| :: DataReq(o.dataCh[i]))
    && (o.writer.Writing? ==> ControlReq(o.writer.req) || DataReq(o.writer.req))
  }

  /** Only connections in a user's hands are written to. */
  predicate CallsOk(e: Endpoint) {
    forall t | t in e.calls.writes :: t < e.calls.tickets && InUse(e.table, e.calls.writes[t].id)
  }

  // ---- Where a connection can be ----

  predicate ReaderAt(r: Reader, id: Id) {
    (r.AtOpen? || r.AtRefuse? || r.AtDeliver? || r.AtClose?) && r.id == id
  }

  /** The user's Close has begun on the connection. */
  predicate UserClosed(once: Once) {
    once.Sending? || (!once.Fresh? && once.closer == ByUser)
  }

  /** The ids that an end has dialled. */
  predicate Own(e: Endpoint, id: Id) {
    1 <= id <= e.table.nextID
  }

  /** How many records of each control kind a connection can account for. */
  function OpensDue(h: Holder, dials: bool): nat {
    if !dials || (h.Dialling? && h.stage == ToSend) then 0 else 1
  }

  function ClosesDue(h: Holder, once: Once, r: Reader, id: Id): nat {
    if (once.Sending? && once.stage != ToSend) || once == Done(ByUser)
      || (h == Refused && r != AtRefuse(id, ToSend)) then 1 else 0
  }

  /** Where a connection with this id can be: in the conns map or not, in the listener's queue or
      not, at some point of the read loop; and how many records it can have emitted. */
  predicate ConnOk(h: Holder, once: Once, listed: bool, queued: bool, r: Reader,
          dials: bool, id: Id, opens: nat, closes: nat, datas: nat) {
    && (if dials then h.Dialling? || h.DialFailed? || h.User?
        else h.Opening? || h.Listed? || h.Refused? || h.User?)
    && (UserClosed(once) ==> h == User)
    && (once.Sending? || once.Done? ==> !listed)
    && (!h.DialFailed? && !h.Refused? && !Signals(once) ==> listed)
    && ((once.Marked? || once.Signalled?) && once.closer == ByReader ==> r == AtClose(id))
    && (h == Opening <==> r == AtOpen(id))
    && (r.AtRefuse? && r.id == id ==> h == Refused)
    && (h == Refused && !(r.AtRefuse? && r.id == id) ==> !listed)
    && (h == DialFailed ==> !listed)
    && (h == Listed <==> queued)
    && opens <= OpensDue(h, dials)
    && closes <= ClosesDue(h, once, r, id)
    && (datas > 0 ==> h == User)
  }

  predicate IdOk(t: Table, r: Reader, dials: bool, id: Id, opens: nat, closes: nat, datas: nat) {
    if Known(t, id) then ConnOk(t.objs[id].holder, t.objs[id].once, id in t.conns, id in t.connCh,
               r, dials, id, opens, closes, datas)
    else !dials && id !in t.conns && id !in t.connCh && !ReaderAt(r, id) && opens == closes == datas == 0
  }

  /** The listener's queue holds no connection twice. */
  predicate QueueDistinct(t: Table) {
    forall i, j | 0 <= i < j < |t.connCh| :: t.connCh[i] != t.connCh[j]
  }

  /** The steps that make a connection make it under an id that is not in use. */
  predicate Admissible(e: Endpoint, inbox: seq<Message>, a: Action) {
    && (StartsDial(a) ==> !Known(e.table, e.table.nextID + 1))
    && (a == OnReader(RReceive) && e.got < |inbox| && inbox[e.got].kind == MSG_OPEN ==>
          !Known(e.table, inbox[e.got].connID))
  }

  lemma DialStartOk(e: Endpoint, dials: bool, addr: seq<byte>, id: Id, opens: nat, closes: nat, datas: nat)
    requires CanDialStart(e) && !Known(e.table, e.table.nextID + 1)
    requires IdOk(e.table, e.reader, dials, id, opens, closes, datas)
    ensures IdOk(DialStart(e, addr).table, e.reader, dials || id == e.table.nextID + 1, id, opens, closes, datas)
  {
  }

  lemma DialGoesOnOk(e: Endpoint, dials: bool, d: DialStep, id: Id, opens: nat, closes: nat, datas: nat)
    requires CanDial(e, d) && !d.DStart?
    requires IdOk(e.table, e.reader, dials, id, opens, closes, datas)
    ensures IdOk(DoDial(e, d).table, e.reader, dials, id,
                 opens + (if d.DEnqueue? && d.id == id then 1 else 0), closes, datas)
  {
  }

  lemma DialOk(e: Endpoint, dials: bool, d: DialStep, id: Id, opens: nat, closes: nat, datas: nat)
    requires CanDial(e, d) && (d.DStart? ==> !Known(e.table, e.table.nextID + 1))
    requires IdOk(e.table, e.reader, dials, id, opens, closes, datas)
    ensures var e' := DoDial(e, d);
      IdOk(e'.table, e'.reader, dials || (d.DStart? && id == e.table.nextID + 1), id,
           opens + (if d.DEnqueue? && d.id == id then 1 else 0), closes, datas)
  {
    if d.DStart? {
      DialStartOk(e, dials, d.addr, id, opens, closes, datas);
    } else {
      DialGoesOnOk(e, dials, d, id, opens, closes, datas);
    }
  }

  lemma AckDialOk(t: Table, r: Reader, dials: bool, x: Id, st: Stage, id: Id, opens: nat, closes: nat, datas: nat)
    requires (st == Acked || st == Failed) && DialAt(t, x, Queued)
    requires IdOk(t, r, dials, id, opens, closes, datas)
    ensures IdOk(DialStage(t, x, st), r, dials, id, opens, closes, datas)
  {
  }

  lemma AckCloseOk(t: Table, r: Reader, dials: bool, x: Id, st: Stage, id: Id, opens: nat, closes: nat, datas: nat)
    requires (st == Acked || st == Failed) && OnceIs(t, x, Sending(Queued))
    requires IdOk(t, r, dials, id, opens, closes, datas)
    ensures IdOk(SetOnce(t, x, Sending(st)), r, dials, id, opens, closes, datas)
  {
  }

  lemma AckRefusalOk(t: Table, r: Reader, dials: bool, st: Stage, id: Id, opens: nat, closes: nat, datas: nat)
    requires (st == Acked || st == Failed) && r.AtRefuse? && r.stage == Queued
    requires IdOk(t, r, dials, id, opens, closes, datas)
    ensures IdOk(t, AtRefuse(r.id, st), dials, id, opens, closes, datas)
  {
  }

  lemma AckOk(t: Table, r: Reader, dials: bool, origin: Origin, st: Stage, id: Id, opens: nat, closes: nat, datas: nat)
    requires st == Acked || st == Failed
    requires IdOk(t, r, dials, id, opens, closes, datas)
    ensures IdOk(AckTable(t, origin, st), AckReader(r, origin, st), dials, id, opens, closes, datas)
  {
    match origin {
      case OfDial(x) =>
        if DialAt(t, x, Queued) {
          AckDialOk(t, r, dials, x, st, id, opens, closes, datas);
        }
      case OfClose(x) =>
        if OnceIs(t, x, Sending(Queued)) {
          AckCloseOk(t, r, dials, x, st, id, opens, closes, datas);
        }
      case OfRefusal(x) =>
        if r == AtRefuse(x, Queued) {
          AckRefusalOk(t, r, dials, st, id, opens, closes, datas);
        }
      case OfWrite(_) =>
    }
  }

  lemma WriterOk(e: Endpoint, dials: bool, up: bool, w: WriterStep, id: Id, opens: nat, closes: nat, datas: nat)
    requires CanWriter(e, up, w)
    requires IdOk(e.table, e.reader, dials, id, opens, closes, datas)
    ensures var e' := DoWriter(e, up, w);
      IdOk(e'.table, e'.reader, dials, id, opens, closes, datas)
  {
    if w.WDone? || w.WFailed? {
      AckOk(e.table, e.reader, dials, e.out.writer.req.origin,
            if w.WDone? then Acked else Failed, id, opens, closes, datas);
    }
  }

  lemma ReceiveOk(e: Endpoint, dials: bool, m: Message, id: Id, opens: nat, closes: nat, datas: nat)
    requires e.reader == Idle && (m.kind == MSG_OPEN ==> !Known(e.table, m.connID))
    requires IdOk(e.table, e.reader, dials, id, opens, closes, datas)
    ensures IdOk(Receive(e, m).table, Receive(e, m).reader, dials, id, opens, closes, datas)
  {
  }

  lemma PushOk(e: Endpoint, dials: bool, id: Id, opens: nat, closes: nat, datas: nat)
    requires CanPush(e)
    requires IdOk(e.table, e.reader, dials, id, opens, closes, datas)
    ensures IdOk(Push(e).table, Push(e).reader, dials, id, opens, closes, datas)
  {
  }

  lemma BackOk(e: Endpoint, dials: bool, r: Reader, id: Id, opens: nat, closes: nat, datas: nat)
    requires CanDrop(e) || CanReturnFromClose(e) || e.reader == Idle
    requires r == Idle || r == ReaderDone
    requires IdOk(e.table, e.reader, dials, id, opens, closes, datas)
    ensures IdOk(e.table, r, dials, id, opens, closes, datas)
  {
  }

  lemma ReaderOk(e: Endpoint, dials: bool, inbox: seq<Message>, up: bool, r: ReaderStep, id: Id,
          opens: nat, closes: nat, datas: nat)
    requires CanReader(e, inbox, up, r) && Admissible(e, inbox, OnReader(r))
    requires IdOk(e.table, e.reader, dials, id, opens, closes, datas)
    ensures var e' := DoReader(e, inbox, up, r);
      IdOk(e'.table, e'.reader, dials, id, opens, closes, datas)
  {
    match r {
      case RReceive => ReceiveOk(e, dials, inbox[e.got], id, opens, closes, datas);
      case RPush => PushOk(e, dials, id, opens, closes, datas);
      case RFail => BackOk(e, dials, ReaderDone, id, opens, closes, datas);
      case _ => BackOk(e, dials, Idle, id, opens, closes, datas);
    }
  }

  lemma OpenOk(e: Endpoint, dials: bool, o: OpenStep, id: Id, opens: nat, closes: nat, datas: nat)
    requires CanOpen(e, o)
    requires IdOk(e.table, e.reader, dials, id, opens, closes, datas)
    ensures var e' := DoOpen(e, o);
      IdOk(e'.table, e'.reader, dials, id, opens, closes + (if o.OEnqueue? && e.reader.id == id then 1 else 0), datas)
  {
  }

  lemma CloseMarkOk(e: Endpoint, dials: bool, c: CloseStep, id: Id, opens: nat, closes: nat, datas: nat)
    requires CanClose(e, c) && (c.CBegin? || c.CSignal?)
    requires IdOk(e.table, e.reader, dials, id, opens, closes, datas)
    ensures IdOk(DoClose(e, c).table, e.reader, dials, id, opens, closes, datas)
  {
  }

  lemma CloseUnlistOk(e: Endpoint, dials: bool, x: Id, id: Id, opens: nat, closes: nat, datas: nat)
    requires CanCloseUnlist(e, x)
    requires IdOk(e.table, e.reader, dials, id, opens, closes, datas)
    ensures IdOk(CloseUnlist(e, x).table, e.reader, dials, id, opens, closes, datas)
  {
  }

  lemma CloseSendOk(e: Endpoint, dials: bool, c: CloseStep, id: Id, opens: nat, closes: nat, datas: nat)
    requires CanClose(e, c) && (c.CEnqueue? || c.CEnd?)
    requires IdOk(e.table, e.reader, dials, id, opens, closes, datas)
    ensures IdOk(DoClose(e, c).table, e.reader, dials, id,
                 opens, closes + (if c.CEnqueue? && c.id == id then 1 else 0), datas)
  {
  }

  lemma CloseOk(e: Endpoint, dials: bool, c: CloseStep, id: Id, opens: nat, closes: nat, datas: nat)
    requires CanClose(e, c)
    requires IdOk(e.table, e.reader, dials, id, opens, closes, datas)
    ensures var e' := DoClose(e, c);
      IdOk(e'.table, e'.reader, dials, id, opens, closes + (if c.CEnqueue? && c.id == id then 1 else 0), datas)
  {
    match c {
      case CUnlist(x) => CloseUnlistOk(e, dials, x, id, opens, closes, datas);
      case CBegin(_, _) => CloseMarkOk(e, dials, c, id, opens, closes, datas);
      case CSignal(_) => CloseMarkOk(e, dials, c, id, opens, closes, datas);
      case _ => CloseSendOk(e, dials, c, id, opens, closes, datas);
    }
  }

  lemma UserOk(e: Endpoint, dials: bool, u: UserStep, id: Id, opens: nat, closes: nat, datas: nat)
    requires CanUse(e, u) && QueueDistinct(e.table) && CallsOk(e)
    requires IdOk(e.table, e.reader, dials, id, opens, closes, datas)
    ensures var e' := DoUse(e, u);
      IdOk(e'.table, e'.reader, dials, id, opens, closes,
           datas + (if u.UWriteEnqueue? && e.calls.writes[u.ticket].id == id then 1 else 0))
  {
  }

  // ---- The invariant of one endpoint ----

  predicate IdTotals(e: Endpoint, id: Id) {
    IdOk(e.table, e.reader, Own(e, id), id,
         Total(e.out, MSG_OPEN, id), Total(e.out, MSG_CLOSE, id), Total(e.out, MSG_DATA, id))
  }

  ghost predicate EndpointOk(e: Endpoint) {
    && Queues(e.out) && CallsOk(e) && QueueDistinct(e.table)
    && forall id :: IdTotals(e, id)
  }

  lemma DialKeepsId(e: Endpoint, d: DialStep, id: Id)
    requires CanDial(e, d) && (d.DStart? ==> !Known(e.table, e.table.nextID + 1)) && IdTotals(e, id)
    ensures IdTotals(DoDial(e, d), id)
  {
    var o, c, n := Total(e.out, MSG_OPEN, id), Total(e.out, MSG_CLOSE, id), Total(e.out, MSG_DATA, id);
    DialOk(e, Own(e, id), d, id, o, c, n);
    if d.DEnqueue? {
      ControlAdds(e, DoDial(e, d), OnWire(Message(MSG_OPEN, d.id, e.table.objs[d.id].holder.addr)),
                  OfDial(d.id), id);
    }
  }

  lemma DialKeeps(e: Endpoint, d: DialStep)
    requires EndpointOk(e) && CanDial(e, d) && (d.DStart? ==> !Known(e.table, e.table.nextID + 1))
    ensures EndpointOk(DoDial(e, d))
  {
    forall id
      ensures IdTotals(DoDial(e, d), id)
    {
      assert IdTotals(e, id);
      DialKeepsId(e, d, id);
    }
  }

  lemma WriterCalls(e: Endpoint, up: bool, w: WriterStep)
    requires CanWriter(e, up, w) && CallsOk(e)
    ensures CallsOk(DoWriter(e, up, w))
  {
  }

  lemma WriterQueues(e: Endpoint, up: bool, w: WriterStep)
    requires CanWriter(e, up, w) && Queues(e.out) && QueueDistinct(e.table)
    ensures Queues(DoWriter(e, up, w).out) && QueueDistinct(DoWriter(e, up, w).table)
  {
  }

  lemma WriterNext(e: Endpoint, up: bool, w: WriterStep)
    requires CanWriter(e, up, w)
    ensures DoWriter(e, up, w).table.nextID == e.table.nextID
  {
  }

  lemma {:induction false} WriterKeepsId(e: Endpoint, up: bool, w: WriterStep, id: Id)
    requires CanWriter(e, up, w) && IdTotals(e, id)
    ensures IdTotals(DoWriter(e, up, w), id)
  {
    var o, c, n := Total(e.out, MSG_OPEN, id), Total(e.out, MSG_CLOSE, id), Total(e.out, MSG_DATA, id);
    WriterNext(e, up, w);
    WriterOk(e, Own(e, id), up, w, id, o, c, n);
    WriterTotal(e, up, w, MSG_OPEN, id);
    WriterTotal(e, up, w, MSG_CLOSE, id);
    WriterTotal(e, up, w, MSG_DATA, id);
  }

  lemma WriterKeeps(e: Endpoint, up: bool, w: WriterStep)
    requires EndpointOk(e) && CanWriter(e, up, w)
    ensures EndpointOk(DoWriter(e, up, w))
  {
    WriterCalls(e, up, w);
    WriterQueues(e, up, w);
    var e' := DoWriter(e, up, w);
    forall id
      ensures IdTotals(e', id)
    {
      assert IdTotals(e, id);
      WriterKeepsId(e, up, w, id);
    }
  }

  lemma ReaderRest(e: Endpoint, inbox: seq<Message>, up: bool, r: ReaderStep)
    requires CanReader(e, inbox, up, r) && Admissible(e, inbox, OnReader(r))
    requires CallsOk(e) && QueueDistinct(e.table)
    ensures var e' := DoReader(e, inbox, up, r);
      e'.out == e.out && CallsOk(e') && QueueDistinct(e'.table)
  {
  }

  lemma ReaderKeeps(e: Endpoint, inbox: seq<Message>, up: bool, r: ReaderStep)
    requires EndpointOk(e) && CanReader(e, inbox, up, r) && Admissible(e, inbox, OnReader(r))
    ensures EndpointOk(DoReader(e, inbox, up, r))
  {
    ReaderRest(e, inbox, up, r);
    var e' := DoReader(e, inbox, up, r);
    forall id
      ensures IdTotals(e', id)
    {
      assert IdTotals(e, id);
      var o, c, n := Total(e.out, MSG_OPEN, id), Total(e.out, MSG_CLOSE, id), Total(e.out, MSG_DATA, id);
      ReaderOk(e, Own(e, id), inbox, up, r, id, o, c, n);
    }
  }

  /** A control record more in the queue is accounted for by one more that its connection owes. */
  lemma ControlAdds(e: Endpoint, e': Endpoint, m: Message, origin: Origin, id: Id)
    requires e'.out == Control(e.out, m, origin) && m.kind != MSG_DATA
    requires IdOk(e'.table, e'.reader, Own(e', id), id,
                  Total(e.out, MSG_OPEN, id) + (if Is(m, MSG_OPEN, id) then 1 else 0),
                  Total(e.out, MSG_CLOSE, id) + (if Is(m, MSG_CLOSE, id) then 1 else 0), Total(e.out, MSG_DATA, id))
    ensures IdTotals(e', id)
  {
    ControlTotal(e.out, m, origin, MSG_OPEN, id);
    ControlTotal(e.out, m, origin, MSG_CLOSE, id);
    ControlTotal(e.out, m, origin, MSG_DATA, id);
  }

  lemma OpenKeepsId(e: Endpoint, o: OpenStep, id: Id)
    requires CanOpen(e, o) && IdTotals(e, id)
    ensures IdTotals(DoOpen(e, o), id)
  {
    var m, c, n := Total(e.out, MSG_OPEN, id), Total(e.out, MSG_CLOSE, id), Total(e.out, MSG_DATA, id);
    OpenOk(e, Own(e, id), o, id, m, c, n);
    if o.OEnqueue? {
      ControlAdds(e, DoOpen(e, o), Message(MSG_CLOSE, e.reader.id, []), OfRefusal(e.reader.id), id);
    }
  }

  /** handleOpen puts only the connection it is working on in the queue. */
  lemma OpenQueues(e: Endpoint, o: OpenStep)
    requires CanOpen(e, o) && QueueDistinct(e.table) && IdTotals(e, e.reader.id)
    ensures QueueDistinct(DoOpen(e, o).table)
  {
  }

  /** It takes nobody out of a user's hands. */
  lemma OpenCalls(e: Endpoint, o: OpenStep)
    requires CanOpen(e, o) && CallsOk(e) && IdTotals(e, e.reader.id)
    ensures CallsOk(DoOpen(e, o))
  {
  }

  lemma OpenKeeps(e: Endpoint, o: OpenStep)
    requires EndpointOk(e) && CanOpen(e, o)
    ensures EndpointOk(DoOpen(e, o))
  {
    assert IdTotals(e, e.reader.id);
    OpenQueues(e, o);
    OpenCalls(e, o);
    forall id
      ensures IdTotals(DoOpen(e, o), id)
    {
      assert IdTotals(e, id);
      OpenKeepsId(e, o, id);
    }
  }

  lemma CloseKeepsId(e: Endpoint, c: CloseStep, id: Id)
    requires CanClose(e, c) && IdTotals(e, id)
    ensures IdTotals(DoClose(e, c), id)
  {
    var o, m, n := Total(e.out, MSG_OPEN, id), Total(e.out, MSG_CLOSE, id), Total(e.out, MSG_DATA, id);
    CloseOk(e, Own(e, id), c, id, o, m, n);
    if c.CEnqueue? {
      ControlAdds(e, DoClose(e, c), Message(MSG_CLOSE, c.id, []), OfClose(c.id), id);
    }
  }

  lemma CloseKeeps(e: Endpoint, c: CloseStep)
    requires EndpointOk(e) && CanClose(e, c)
    ensures EndpointOk(DoClose(e, c))
  {
    forall id
      ensures IdTotals(DoClose(e, c), id)
    {
      assert IdTotals(e, id);
      CloseKeepsId(e, c, id);
    }
  }

  lemma UserKeepsId(e: Endpoint, u: UserStep, id: Id)
    requires CanUse(e, u) && QueueDistinct(e.table) && CallsOk(e) && IdTotals(e, id)
    ensures IdTotals(DoUse(e, u), id)
  {
    var o, c, n := Total(e.out, MSG_OPEN, id), Total(e.out, MSG_CLOSE, id), Total(e.out, MSG_DATA, id);
    UserOk(e, Own(e, id), u, id, o, c, n);
    if u.UWriteEnqueue? {
      var w := e.calls.writes[u.ticket];
      var r := Req(OnWire(Message(MSG_DATA, w.id, w.data)), OfWrite(u.ticket));
      DataTotal(e.out, r, MSG_OPEN, id);
      DataTotal(e.out, r, MSG_CLOSE, id);
      DataTotal(e.out, r, MSG_DATA, id);
    }
  }

  lemma UserCalls(e: Endpoint, u: UserStep)
    requires CanUse(e, u) && CallsOk(e)
    ensures CallsOk(DoUse(e, u))
  {
  }

  lemma UserQueues(e: Endpoint, u: UserStep)
    requires CanUse(e, u) && Queues(e.out) && QueueDistinct(e.table)
    ensures Queues(DoUse(e, u).out) && QueueDistinct(DoUse(e, u).table)
  {
  }

  lemma UserKeeps(e: Endpoint, u: UserStep)
    requires EndpointOk(e) && CanUse(e, u)
    ensures EndpointOk(DoUse(e, u))
  {
    UserCalls(e, u);
    UserQueues(e, u);
    forall id
      ensures IdTotals(DoUse(e, u), id)
    {
      assert IdTotals(e, id);
      UserKeepsId(e, u, id);
    }
  }

  /** Every step of an endpoint keeps its invariant. */
  lemma EndpointKeeps(e: Endpoint, inbox: seq<Message>, up: bool, a: Action)
    requires EndpointOk(e) && Enabled(e, inbox, up, a) && Admissible(e, inbox, a)
    ensures EndpointOk(Apply(e, inbox, up, a))
  {
    match a {
      case OnDial(d) => DialKeeps(e, d);
      case OnWriter(w) => WriterKeeps(e, up, w);
      case OnReader(r) => ReaderKeeps(e, inbox, up, r);
      case OnOpen(o) => OpenKeeps(e, o);
      case OnClose(c) => CloseKeeps(e, c);
      case OnUser(u) => UserKeeps(e, u);
    }
  }
}
