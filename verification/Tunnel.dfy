/** One tunnel session (wormhole/tunnel/session.go) as a state and its atomic steps.

    A step is what one goroutine does between two points where it can block or be seen by another:
    a channel operation, a map operation, a WriteRecord or ReadRecord call. The goroutines are the
    read loop, the write loop, any number of Dial, Write, Close and Read calls, and the closeAll
    sweep. Records on the wire are the messages that Decode returns for them (Protocol.OnWire).

    The fields `sent`, `lost`, `written`, `read`, `accepted` and the two pick counters are the history that
    the theorems speak about; no step looks at them. */
module Tunnel {
  import opened Protocol

  type Id = nat

  const CONTROL_CAP := 64
  const DATA_CAP := 256
  const READ_CAP := 64
  const ACCEPT_CAP := 64

  /** How far a request that waits for the write loop has come. */
  datatype Stage = ToSend | Queued | Acked | Failed

  /** Who has a connection in hand. */
  datatype Holder =
    | Dialling(addr: seq<byte>, stage: Stage)  // Dial has not returned yet
    | DialFailed                               // Dial returned an error
    | Opening                                  // handleOpen stored it and is about to offer it
    | Listed                                   // in the listener's queue
    | Refused                                  // handleOpen rejects it
    | User                                     // returned by Dial or Accept

  /** The once-body that closes a connection: run by Close, by the read loop or by closeAll. */
  datatype Closer = ByUser | ByReader | ByStop

  datatype Once =
    | Fresh
    | Marked(closer: Closer)      // closed = 1
    | Signalled(closer: Closer)   // closeCh closed
    | Sending(stage: Stage)   // Close only: out of the map, sending CLOSE
    | Done(closer: Closer)

  datatype Conn = Conn(
    holder: Holder,
    once: Once,
    readCh: seq<seq<byte>>,
    readBuf: seq<byte>,
    read: seq<byte>,      // everything Read has returned
    written: seq<byte>)   // everything Write has queued, as framed

  datatype Origin = OfDial(id: Id) | OfClose(id: Id) | OfRefusal(id: Id) | OfWrite(ticket: nat)

  /** A queued record, as the message that Decode returns for it, and who waits for it. */
  datatype Req = Req(msg: Message, origin: Origin)

  datatype WriteCall = WriteCall(id: Id, data: seq<byte>, stage: Stage)

  datatype Writer =
    | Phase1
    | Phase2
    | Writing(req: Req, toPhase2: bool)  // in WriteRecord; where the loop goes next
    | WriterDone

  datatype Reader =
    | Idle
    | AtOpen(id: Id)                     // handleOpen, before its select
    | AtRefuse(id: Id, stage: Stage)     // handleOpen, sending CLOSE
    | AtDeliver(id: Id, data: seq<byte>) // deliverData, before its select
    | AtClose(id: Id)                    // handleClose, in remoteClose
    | ReaderDone

  /** The connections of a session and its listener. */
  datatype Table = Table(
    nextID: nat,
    objs: map<Id, Conn>,   // every connection made so far
    conns: set<Id>,        // the keys of the conns map
    connCh: seq<Id>,
    accepted: seq<Id>)

  /** The two queues and the write loop. */
  datatype Outbox = Outbox(
    controlCh: seq<Req>,
    dataCh: seq<Req>,
    writer: Writer,
    sent: seq<Message>,    // every record written
    lost: seq<Message>,    // every record whose write failed
    controlPicks: nat,
    dataPicks: nat)

  /** The Write calls in progress. */
  datatype Calls = Calls(writes: map<nat, WriteCall>, tickets: nat)

  datatype Endpoint = Endpoint(
    table: Table,
    out: Outbox,
    calls: Calls,
    reader: Reader,
    got: nat,              // how many of the peer's records were read
    stopped: bool)

  const NewSession := Endpoint(
    Table(0, map[], {}, [], []), Outbox([], [], Phase1, [], [], 0, 0), Calls(map[], 0), Idle, 0, false)

  function NewConn(holder: Holder): Conn {
    Conn(holder, Fresh, [], [], [], [])
  }

  predicate IsClosed(c: Conn) {  // closed == 1
    c.once != Fresh
  }

  predicate Signals(once: Once) {  // closeCh is closed
    !once.Fresh? && !once.Marked?
  }

  predicate Known(t: Table, id: Id) {
    id in t.objs
  }

  function SetConn(t: Table, id: Id, c: Conn): Table {
    t.(objs := t.objs[id := c])
  }

  function Listing(t: Table, id: Id): Table {  // conns.Store
    t.(conns := t.conns + {id})
  }

  function Unlisting(t: Table, id: Id): Table {  // conns.Delete
    t.(conns := t.conns - {id})
  }

  predicate RoomForControl(o: Outbox) {
    |o.controlCh| < CONTROL_CAP
  }

  function Control(o: Outbox, m: Message, origin: Origin): Outbox {
    o.(controlCh := o.controlCh + [Req(m, origin)])
  }

  // ---- Dial ----

  predicate CanDialStart(e: Endpoint) {
    e.table.nextID + 1 < TWO_64
  }

  function DialStart(e: Endpoint, addr: seq<byte>): Endpoint {
    var id := e.table.nextID + 1;
    e.(table := Listing(SetConn(e.table, id, NewConn(Dialling(addr, ToSend))), id).(nextID := id))
  }

  predicate DialAt(t: Table, id: Id, stage: Stage) {
    Known(t, id) && t.objs[id].holder.Dialling? && t.objs[id].holder.stage == stage
  }

  function DialStage(t: Table, id: Id, stage: Stage): Table
    requires Known(t, id) && t.objs[id].holder.Dialling?
  {
    SetConn(t, id, t.objs[id].(holder := Dialling(t.objs[id].holder.addr, stage)))
  }

  predicate CanDialEnqueue(e: Endpoint, id: Id) {
    DialAt(e.table, id, ToSend) && RoomForControl(e.out)
  }

  function DialEnqueue(e: Endpoint, id: Id): Endpoint
    requires CanDialEnqueue(e, id)
  {
    e.(table := DialStage(e.table, id, Queued),
       out := Control(e.out, OnWire(Message(MSG_OPEN, id, e.table.objs[id].holder.addr)), OfDial(id)))
  }

  /** Dial returns the connection: its record was written. */
  function DialReturn(e: Endpoint, id: Id): Endpoint
    requires DialAt(e.table, id, Acked)
  {
    e.(table := SetConn(e.table, id, e.table.objs[id].(holder := User)))
  }

  predicate CanDialAbort(e: Endpoint, id: Id) {
    DialAt(e.table, id, Failed) || (e.stopped && Known(e.table, id) && e.table.objs[id].holder.Dialling?)
  }

  /** Dial returns an error: the write failed or the session stopped. */
  function DialAbort(e: Endpoint, id: Id): Endpoint
    requires CanDialAbort(e, id)
  {
    e.(table := Unlisting(SetConn(e.table, id, e.table.objs[id].(holder := DialFailed)), id))
  }

  // ---- The write loop ----

  function PickControl(o: Outbox, toPhase2: bool): Outbox
    requires |o.controlCh| > 0
  {
    o.(controlCh := o.controlCh[1..], writer := Writing(o.controlCh[0], toPhase2), controlPicks := o.controlPicks + 1)
  }

  function PickData(o: Outbox): Outbox
    requires |o.dataCh| > 0
  {
    o.(dataCh := o.dataCh[1..], writer := Writing(o.dataCh[0], false), dataPicks := o.dataPicks + 1)
  }

  function Resumed(w: Writer): Writer {
    if w.Writing? && w.toPhase2 then Phase2 else Phase1
  }

  function Wrote(o: Outbox): Outbox
    requires o.writer.Writing?
  {
    o.(writer := Resumed(o.writer), sent := o.sent + [o.writer.req.msg])
  }

  function FailedToWrite(o: Outbox): Outbox
    requires o.writer.Writing?
  {
    o.(writer := Resumed(o.writer), lost := o.lost + [o.writer.req.msg])
  }

  // The result of a write reaches whoever waits for it: a Dial, a Close, the read loop or a Write.

  function AckTable(t: Table, origin: Origin, result: Stage): Table {
    if origin.OfDial? && DialAt(t, origin.id, Queued) then DialStage(t, origin.id, result)
    else if origin.OfClose? && Known(t, origin.id) && t.objs[origin.id].once == Sending(Queued) then
      SetConn(t, origin.id, t.objs[origin.id].(once := Sending(result)))
    else t
  }

  function AckReader(r: Reader, origin: Origin, result: Stage): Reader {
    if origin.OfRefusal? && r == AtRefuse(origin.id, Queued) then AtRefuse(origin.id, result) else r
  }

  function AckCalls(c: Calls, origin: Origin, result: Stage): Calls {
    if origin.OfWrite? && origin.ticket in c.writes then
      c.(writes := c.writes[origin.ticket := c.writes[origin.ticket].(stage := result)])
    else c
  }

  function Ack(e: Endpoint, origin: Origin, result: Stage, out: Outbox): Endpoint {
    e.(table := AckTable(e.table, origin, result), reader := AckReader(e.reader, origin, result),
       calls := AckCalls(e.calls, origin, result), out := out)
  }

  function WriteDone(e: Endpoint): Endpoint
    requires e.out.writer.Writing?
  {
    Ack(e, e.out.writer.req.origin, Acked, Wrote(e.out))
  }

  function WriteFailed(e: Endpoint): Endpoint
    requires e.out.writer.Writing?
  {
    Ack(e, e.out.writer.req.origin, Failed, FailedToWrite(e.out))
  }

  // ---- The read loop ----

  function Receive(e: Endpoint, m: Message): Endpoint {
    var e := e.(got := e.got + 1);
    if m.kind == MSG_OPEN then
      e.(table := Listing(SetConn(e.table, m.connID, NewConn(Opening)), m.connID), reader := AtOpen(m.connID))
    else if m.connID !in e.table.conns then e
    else if m.kind == MSG_DATA then e.(reader := AtDeliver(m.connID, m.payload))
    else if m.kind == MSG_CLOSE then e.(reader := AtClose(m.connID))
    else e
  }

  predicate ReaderOpens(e: Endpoint) {
    e.reader.AtOpen? && Known(e.table, e.reader.id)
  }

  predicate CanOffer(e: Endpoint) {
    ReaderOpens(e) && |e.table.connCh| < ACCEPT_CAP
  }

  function Offer(e: Endpoint): Endpoint
    requires CanOffer(e)
  {
    var id := e.reader.id;
    e.(table := SetConn(e.table, id, e.table.objs[id].(holder := Listed)).(connCh := e.table.connCh + [id]),
       reader := Idle)
  }

  predicate CanRefuse(e: Endpoint) {
    ReaderOpens(e) && (e.stopped || |e.table.connCh| == ACCEPT_CAP)
  }

  function Refuse(e: Endpoint): Endpoint
    requires CanRefuse(e)
  {
    var id := e.reader.id;
    e.(table := SetConn(e.table, id, e.table.objs[id].(holder := Refused)), reader := AtRefuse(id, ToSend))
  }

  predicate CanRefuseEnqueue(e: Endpoint) {
    e.reader.AtRefuse? && e.reader.stage == ToSend && RoomForControl(e.out)
  }

  function RefuseEnqueue(e: Endpoint): Endpoint
    requires CanRefuseEnqueue(e)
  {
    var id := e.reader.id;
    e.(out := Control(e.out, Message(MSG_CLOSE, id, []), OfRefusal(id)), reader := AtRefuse(id, Queued))
  }

  predicate CanRefuseEnd(e: Endpoint) {
    e.reader.AtRefuse? && (e.stopped || e.reader.stage == Acked || e.reader.stage == Failed)
  }

  function RefuseEnd(e: Endpoint): Endpoint
    requires CanRefuseEnd(e)
  {
    e.(table := Unlisting(e.table, e.reader.id), reader := Idle)
  }

  predicate ReaderDelivers(e: Endpoint) {
    e.reader.AtDeliver? && Known(e.table, e.reader.id)
  }

  predicate CanPush(e: Endpoint) {
    ReaderDelivers(e) && |e.table.objs[e.reader.id].readCh| < READ_CAP
  }

  function Push(e: Endpoint): Endpoint
    requires CanPush(e)
  {
    var c := e.table.objs[e.reader.id];
    e.(table := SetConn(e.table, e.reader.id, c.(readCh := c.readCh + [e.reader.data])), reader := Idle)
  }

  predicate CanDrop(e: Endpoint) {
    ReaderDelivers(e) && Signals(e.table.objs[e.reader.id].once)
  }

  function BackToIdle(e: Endpoint): Endpoint {
    e.(reader := Idle)
  }

  predicate CanReturnFromClose(e: Endpoint) {
    e.reader.AtClose? && Known(e.table, e.reader.id) && e.table.objs[e.reader.id].once.Done?
  }

  // ---- Closing one connection ----

  predicate CanCloseBegin(e: Endpoint, id: Id, closer: Closer) {
    && Known(e.table, id)
    && e.table.objs[id].once == Fresh
    && match closer
       case ByUser => e.table.objs[id].holder == User
       case ByReader => e.reader == AtClose(id)
       case ByStop => e.stopped && id in e.table.conns
  }

  predicate OnceIs(t: Table, id: Id, once: Once) {
    Known(t, id) && t.objs[id].once == once
  }

  function SetOnce(t: Table, id: Id, once: Once): Table
    requires Known(t, id)
  {
    SetConn(t, id, t.objs[id].(once := once))
  }

  function CloseBegin(e: Endpoint, id: Id, closer: Closer): Endpoint
    requires CanCloseBegin(e, id, closer)
  {
    e.(table := SetOnce(e.table, id, Marked(closer)))
  }

  predicate CanCloseSignal(e: Endpoint, id: Id) {
    Known(e.table, id) && e.table.objs[id].once.Marked?
  }

  function CloseSignal(e: Endpoint, id: Id): Endpoint
    requires CanCloseSignal(e, id)
  {
    e.(table := SetOnce(e.table, id, Signalled(e.table.objs[id].once.closer)))
  }

  predicate CanCloseUnlist(e: Endpoint, id: Id) {
    Known(e.table, id) && e.table.objs[id].once.Signalled?
  }

  function CloseUnlist(e: Endpoint, id: Id): Endpoint
    requires CanCloseUnlist(e, id)
  {
    var closer := e.table.objs[id].once.closer;
    e.(table := Unlisting(SetOnce(e.table, id, if closer == ByUser then Sending(ToSend) else Done(closer)), id))
  }

  predicate CanCloseEnqueue(e: Endpoint, id: Id) {
    OnceIs(e.table, id, Sending(ToSend)) && RoomForControl(e.out)
  }

  function CloseEnqueue(e: Endpoint, id: Id): Endpoint
    requires CanCloseEnqueue(e, id)
  {
    e.(table := SetOnce(e.table, id, Sending(Queued)), out := Control(e.out, Message(MSG_CLOSE, id, []), OfClose(id)))
  }

  predicate CanCloseEnd(e: Endpoint, id: Id) {
    || (e.stopped && Known(e.table, id) && e.table.objs[id].once.Sending?)
    || OnceIs(e.table, id, Sending(Acked)) || OnceIs(e.table, id, Sending(Failed))
  }

  function CloseEnd(e: Endpoint, id: Id): Endpoint
    requires CanCloseEnd(e, id)
  {
    e.(table := SetOnce(e.table, id, Done(ByUser)))
  }

  // ---- Accept, Read, Write ----

  predicate CanAccept(e: Endpoint) {
    |e.table.connCh| > 0 && Known(e.table, e.table.connCh[0])
  }

  function Accept(e: Endpoint): Endpoint
    requires CanAccept(e)
  {
    var id := e.table.connCh[0];
    e.(table := SetConn(e.table, id, e.table.objs[id].(holder := User))
                  .(connCh := e.table.connCh[1..], accepted := e.table.accepted + [id]))
  }

  predicate InUse(t: Table, id: Id) {
    Known(t, id) && t.objs[id].holder == User
  }

  predicate CanRefill(e: Endpoint, id: Id) {
    InUse(e.table, id) && |e.table.objs[id].readBuf| == 0 && |e.table.objs[id].readCh| > 0
  }

  /** Read takes the next chunk; an empty chunk leaves the buffer empty and reads as io.EOF. */
  function Refill(e: Endpoint, id: Id): Endpoint
    requires CanRefill(e, id)
  {
    var c := e.table.objs[id];
    e.(table := SetConn(e.table, id, c.(readBuf := c.readCh[0], readCh := c.readCh[1..])))
  }

  predicate CanTake(e: Endpoint, id: Id, n: nat) {
    InUse(e.table, id) && |e.table.objs[id].readBuf| > 0 && n <= |e.table.objs[id].readBuf|
  }

  function Take(e: Endpoint, id: Id, n: nat): Endpoint
    requires CanTake(e, id, n)
  {
    var c := e.table.objs[id];
    e.(table := SetConn(e.table, id, c.(read := c.read + c.readBuf[..n], readBuf := c.readBuf[n..])))
  }

  predicate CanWriteBegin(e: Endpoint, id: Id) {
    InUse(e.table, id) && !IsClosed(e.table.objs[id])
  }

  function WriteBegin(e: Endpoint, id: Id, data: seq<byte>): Endpoint
    requires CanWriteBegin(e, id)
  {
    e.(calls := Calls(e.calls.writes[e.calls.tickets := WriteCall(id, data, ToSend)], e.calls.tickets + 1))
  }

  predicate CanWriteEnqueue(e: Endpoint, t: nat) {
    t in e.calls.writes && e.calls.writes[t].stage == ToSend && |e.out.dataCh| < DATA_CAP
    && Known(e.table, e.calls.writes[t].id)
  }

  function WriteEnqueue(e: Endpoint, t: nat): Endpoint
    requires CanWriteEnqueue(e, t)
  {
    var w := e.calls.writes[t];
    var c := e.table.objs[w.id];
    var m := OnWire(Message(MSG_DATA, w.id, w.data));
    e.(table := SetConn(e.table, w.id, c.(written := c.written + m.payload)),
       out := e.out.(dataCh := e.out.dataCh + [Req(m, OfWrite(t))]),
       calls := e.calls.(writes := e.calls.writes[t := w.(stage := Queued)]))
  }

  predicate CanWriteReturn(e: Endpoint, t: nat) {
    t in e.calls.writes && (e.stopped || e.calls.writes[t].stage == Acked || e.calls.writes[t].stage == Failed)
  }

  function WriteReturn(e: Endpoint, t: nat): Endpoint {
    e.(calls := e.calls.(writes := e.calls.writes - {t}))
  }

  // ---- All the steps together ----

  /** Steps of Dial calls. */
  datatype DialStep = DStart(addr: seq<byte>) | DEnqueue(id: Id) | DReturn(id: Id) | DAbort(id: Id)

  /** Steps of the write loop. */
  datatype WriterStep = WStop | WControl1 | WDefault1 | WControl2 | WData2 | WDone | WFailed

  /** Steps of the read loop, other than handleOpen's and closing a connection. */
  datatype ReaderStep = RReceive | RFail | RPush | RDrop | RClosed

  /** Steps of handleOpen after it has stored the connection. */
  datatype OpenStep = OOffer | ORefuse | OEnqueue | OEnd

  /** Steps of the once-body that closes a connection. */
  datatype CloseStep =
      CBegin(id: Id, closer: Closer) | CSignal(id: Id) | CUnlist(id: Id) | CEnqueue(id: Id) | CEnd(id: Id)

  /** Steps of Accept, Read and Write calls, and Session.Close. */
  datatype UserStep =
    | UAccept | URefill(id: Id) | UTake(id: Id, n: nat)
    | UWriteBegin(id: Id, data: seq<byte>) | UWriteEnqueue(ticket: nat) | UWriteReturn(ticket: nat) | UStop

  datatype Action =
    | OnDial(d: DialStep) | OnWriter(w: WriterStep) | OnReader(r: ReaderStep)
    | OnOpen(o: OpenStep) | OnClose(c: CloseStep) | OnUser(u: UserStep)

  predicate CanDial(e: Endpoint, d: DialStep) {
    match d
    case DStart(_) => CanDialStart(e)
    case DEnqueue(id) => CanDialEnqueue(e, id)
    case DReturn(id) => DialAt(e.table, id, Acked)
    case DAbort(id) => CanDialAbort(e, id)
  }

  function DoDial(e: Endpoint, d: DialStep): Endpoint
    requires CanDial(e, d)
  {
    match d
    case DStart(addr) => DialStart(e, addr)
    case DEnqueue(id) => DialEnqueue(e, id)
    case DReturn(id) => DialReturn(e, id)
    case DAbort(id) => DialAbort(e, id)
  }

  predicate CanWriter(e: Endpoint, up: bool, w: WriterStep) {
    match w
    case WStop => e.stopped && (e.out.writer == Phase1 || e.out.writer == Phase2)
    case WControl1 => e.out.writer == Phase1 && |e.out.controlCh| > 0
    case WDefault1 => e.out.writer == Phase1 && |e.out.controlCh| == 0 && !e.stopped
    case WControl2 => e.out.writer == Phase2 && |e.out.controlCh| > 0
    case WData2 => e.out.writer == Phase2 && |e.out.dataCh| > 0
    case WDone => e.out.writer.Writing? && up
    case WFailed => e.out.writer.Writing? && !up
  }

  function DoWriter(e: Endpoint, up: bool, w: WriterStep): Endpoint
    requires CanWriter(e, up, w)
  {
    match w
    case WStop => e.(out := e.out.(writer := WriterDone))
    case WControl1 => e.(out := PickControl(e.out, true))
    case WDefault1 => e.(out := e.out.(writer := Phase2))
    case WControl2 => e.(out := PickControl(e.out, false))
    case WData2 => e.(out := PickData(e.out))
    case WDone => WriteDone(e)
    case WFailed => WriteFailed(e)
  }

  predicate CanReader(e: Endpoint, inbox: seq<Message>, up: bool, r: ReaderStep) {
    match r
    case RReceive => e.reader == Idle && e.got < |inbox|
    case RFail => e.reader == Idle && (!up || e.stopped)
    case RPush => CanPush(e)
    case RDrop => CanDrop(e)
    case RClosed => CanReturnFromClose(e)
  }

  function DoReader(e: Endpoint, inbox: seq<Message>, up: bool, r: ReaderStep): Endpoint
    requires CanReader(e, inbox, up, r)
  {
    match r
    case RReceive => Receive(e, inbox[e.got])
    case RFail => e.(reader := ReaderDone, stopped := true)
    case RPush => Push(e)
    case RDrop => BackToIdle(e)
    case RClosed => BackToIdle(e)
  }

  predicate CanOpen(e: Endpoint, o: OpenStep) {
    match o
    case OOffer => CanOffer(e)
    case ORefuse => CanRefuse(e)
    case OEnqueue => CanRefuseEnqueue(e)
    case OEnd => CanRefuseEnd(e)
  }

  function DoOpen(e: Endpoint, o: OpenStep): Endpoint
    requires CanOpen(e, o)
  {
    match o
    case OOffer => Offer(e)
    case ORefuse => Refuse(e)
    case OEnqueue => RefuseEnqueue(e)
    case OEnd => RefuseEnd(e)
  }

  predicate CanClose(e: Endpoint, c: CloseStep) {
    match c
    case CBegin(id, closer) => CanCloseBegin(e, id, closer)
    case CSignal(id) => CanCloseSignal(e, id)
    case CUnlist(id) => CanCloseUnlist(e, id)
    case CEnqueue(id) => CanCloseEnqueue(e, id)
    case CEnd(id) => CanCloseEnd(e, id)
  }

  function DoClose(e: Endpoint, c: CloseStep): Endpoint
    requires CanClose(e, c)
  {
    match c
    case CBegin(id, closer) => CloseBegin(e, id, closer)
    case CSignal(id) => CloseSignal(e, id)
    case CUnlist(id) => CloseUnlist(e, id)
    case CEnqueue(id) => CloseEnqueue(e, id)
    case CEnd(id) => CloseEnd(e, id)
  }

  predicate CanUse(e: Endpoint, u: UserStep) {
    match u
    case UAccept => CanAccept(e)
    case URefill(id) => CanRefill(e, id)
    case UTake(id, n) => CanTake(e, id, n)
    case UWriteBegin(id, _) => CanWriteBegin(e, id)
    case UWriteEnqueue(t) => CanWriteEnqueue(e, t)
    case UWriteReturn(t) => CanWriteReturn(e, t)
    case UStop => true
  }

  function DoUse(e: Endpoint, u: UserStep): Endpoint
    requires CanUse(e, u)
  {
    match u
    case UAccept => Accept(e)
    case URefill(id) => Refill(e, id)
    case UTake(id, n) => Take(e, id, n)
    case UWriteBegin(id, data) => WriteBegin(e, id, data)
    case UWriteEnqueue(t) => WriteEnqueue(e, t)
    case UWriteReturn(t) => WriteReturn(e, t)
    case UStop => e.(stopped := true)
  }

  /** May the endpoint take a step, given the records its peer has written and whether the
      transport still works? */
  predicate Enabled(e: Endpoint, inbox: seq<Message>, up: bool, a: Action) {
    match a
    case OnDial(d) => CanDial(e, d)
    case OnWriter(w) => CanWriter(e, up, w)
    case OnReader(r) => CanReader(e, inbox, up, r)
    case OnOpen(o) => CanOpen(e, o)
    case OnClose(c) => CanClose(e, c)
    case OnUser(u) => CanUse(e, u)
  }

  function Apply(e: Endpoint, inbox: seq<Message>, up: bool, a: Action): Endpoint
    requires Enabled(e, inbox, up, a)
  {
    match a
    case OnDial(d) => DoDial(e, d)
    case OnWriter(w) => DoWriter(e, up, w)
    case OnReader(r) => DoReader(e, inbox, up, r)
    case OnOpen(o) => DoOpen(e, o)
    case OnClose(c) => DoClose(e, c)
    case OnUser(u) => DoUse(e, u)
  }

  // ---- Two sessions on one transport ----

  datatype Side = Dialler | Acceptor

  datatype Pair = Pair(dialler: Endpoint, acceptor: Endpoint, up: bool)

  datatype Event = Step(side: Side, action: Action) | Break

  const Start := Pair(NewSession, NewSession, true)

  function Other(side: Side): Side {
    if side == Dialler then Acceptor else Dialler
  }

  function At(p: Pair, side: Side): Endpoint {
    if side == Dialler then p.dialler else p.acceptor
  }

  predicate CanHappen(p: Pair, ev: Event) {
    match ev
    case Break => true
    case Step(side, a) => Enabled(At(p, side), At(p, Other(side)).out.sent, p.up, a)
  }

  function Happen(p: Pair, ev: Event): Pair
    requires CanHappen(p, ev)
  {
    match ev
    case Break => p.(up := false)
    case Step(side, a) =>
      var e := Apply(At(p, side), At(p, Other(side)).out.sent, p.up, a);
      if side == Dialler then p.(dialler := e) else p.(acceptor := e)
  }

  /** A run: a list of events, each of which can happen after those before it. */
  predicate IsRun(evs: seq<Event>)
    decreases |evs|, 0
  {
    |evs| == 0 || (IsRun(evs[..|evs| - 1]) && CanHappen(After(evs[..|evs| - 1]), evs[|evs| - 1]))
  }

  function After(evs: seq<Event>): Pair
    requires IsRun(evs)
    decreases |evs|, 1
  {
    if |evs| == 0 then Start else Happen(After(evs[..|evs| - 1]), evs[|evs| - 1])
  }

  predicate StartsDial(a: Action) {
    a.OnDial? && a.d.DStart?
  }

  /** Only one endpoint dials, as when one side runs Forward and the other Serve. */
  predicate OneDialler(evs: seq<Event>) {
    forall i | 0 <= i < |evs| :: evs[i].Step? && evs[i].side == Acceptor ==> !StartsDial(evs[i].action)
  }
}
