/** The session as objects updated in place: tunnelConn and Session of
    wormhole/tunnel/session.go. A method is the code between two blocking points of one goroutine;
    its contract is the step of module Tunnel it performs. */
module TunnelSession {
  import opened Protocol
  import opened Tunnel

  class TunnelConn {
    const id: Id
    var readBuf: seq<byte>
    var readCh: seq<seq<byte>>
    var closed: bool            // closed == 1
    var closeCh: bool           // closeCh has been closed
    var once: Once              // the once, and how far its body is
    ghost var holder: Holder
    ghost var read: seq<byte>
    ghost var written: seq<byte>

    ghost predicate Valid()
      reads this
    {
      (closed <==> once != Fresh) && (closeCh <==> Signals(once))
    }

    ghost function View(): Conn
      reads this
    {
      Conn(holder, once, readCh, readBuf, read, written)
    }

    constructor (id: Id, ghost holder: Holder)
      ensures Valid() && this.id == id && View() == NewConn(holder)
    {
      this.id := id;
      readBuf, readCh, closed, closeCh, once := [], [], false, false, Fresh;
      this.holder, read, written := holder, [], [];
    }

    /** One round of Read's loop: bytes from the buffer, or the next chunk into it, or EOF. With a
        chunk queued and closeCh closed, `either` chooses. */
    method ReadRound(max: nat, either: bool) returns (out: seq<byte>, eof: bool, blocked: bool)
      requires Valid()
      modifies this
      ensures Valid() && once == old(once)
      ensures if |old(readBuf)| > 0 then
          !eof && !blocked && |out| <= max && out + readBuf == old(readBuf) && readCh == old(readCh)
          && View() == old(View()).(read := old(read) + out, readBuf := readBuf)
        else if |old(readCh)| > 0 && (!closeCh || either) then
          out == [] && !blocked && (eof <==> old(readCh)[0] == [])
          && View() == old(View()).(readBuf := old(readCh)[0], readCh := old(readCh)[1..])
        else
          out == [] && View() == old(View()) && (eof <==> closeCh) && (blocked <==> !closeCh)
    {
      out, eof, blocked := [], false, false;
      if |readBuf| > 0 {
        var n := if max < |readBuf| then max else |readBuf|;
        out := readBuf[..n];
        readBuf := readBuf[n..];
        read := read + out;
      } else if |readCh| > 0 && (!closeCh || either) {
        eof := |readCh[0]| == 0;
        readBuf, readCh := readCh[0], readCh[1..];
      } else {
        eof, blocked := closeCh, !closeCh;
      }
    }
  }

  datatype ReaderPos =
    | Reading
    | Offering(conn: TunnelConn)
    | Refusing(conn: TunnelConn, stage: Stage)
    | Delivering(conn: TunnelConn, data: seq<byte>)
    | Closing(conn: TunnelConn)
    | ReaderReturned

  function ReaderOf(r: ReaderPos): Reader {
    match r
    case Reading => Idle
    case Offering(c) => AtOpen(c.id)
    case Refusing(c, stage) => AtRefuse(c.id, stage)
    case Delivering(c, data) => AtDeliver(c.id, data)
    case Closing(c) => AtClose(c.id)
    case ReaderReturned => ReaderDone
  }

  function IdsOf(cs: seq<TunnelConn>): (ids: seq<Id>)
    ensures |ids| == |cs|
  {
    seq(|cs|, i requires 0 <= i < |cs| => cs[i].id)
  }

  /** The effect of remoteClose on the table: that of the three steps of its once-body. */
  function RemoteClosed(t: Table, id: Id, closer: Closer): Table {
    if Known(t, id) && t.objs[id].once == Fresh then Unlisting(SetOnce(t, id, Done(closer)), id) else t
  }

  lemma RemoteCloseIsSteps(e: Endpoint, id: Id, closer: Closer)
    requires closer != ByUser && CanCloseBegin(e, id, closer)
    ensures var e1 := Tunnel.CloseBegin(e, id, closer);
            CanCloseSignal(e1, id) && CanCloseUnlist(Tunnel.CloseSignal(e1, id), id)
            && Tunnel.CloseUnlist(Tunnel.CloseSignal(e1, id), id) == e.(table := RemoteClosed(e.table, id, closer))
  {
    var e2 := Tunnel.CloseSignal(Tunnel.CloseBegin(e, id, closer), id);
    assert Tunnel.CloseUnlist(e2, id).table.objs == e.table.objs[id := e.table.objs[id].(once := Done(closer))];
  }

  /** A registered connection whose once nobody has entered. */
  predicate Closable(t: Table, id: Id) {
    id in t.conns && Known(t, id) && t.objs[id].once == Fresh
  }

  /** The table after the sweep has reached some ids: those that could be closed are closed and out of
      the map, everything else is as it was. */
  ghost function SweptOf(t: Table, ids: set<Id>): Table {
    t.(objs := map id | id in t.objs ::
                 if id in ids && Closable(t, id) then t.objs[id].(once := Done(ByStop)) else t.objs[id],
       conns := set id | id in t.conns && !(id in ids && Closable(t, id)))
  }

  ghost function Swept(t: Table): Table {
    SweptOf(t, t.conns)
  }

  lemma SweepStep(t: Table, done: set<Id>, id: Id)
    requires id in t.conns && id !in done
    ensures SweptOf(t, done + {id}) == RemoteClosed(SweptOf(t, done), id, ByStop)
  {
    var u, v := SweptOf(t, done + {id}), RemoteClosed(SweptOf(t, done), id, ByStop);
    assert u.objs == v.objs;
    assert u.conns == v.conns;
  }

  /** A queued record is held as the message that Decode returns for it (Protocol.RoundTrip). */
  class Session {
    var nextID: nat
    var conns: map<Id, TunnelConn>
    var stopped: bool
    var listenerClosed: bool        // the listener's closed channel has been closed
    var controlCh: seq<Req>
    var dataCh: seq<Req>
    var connCh: seq<TunnelConn>
    var writer: Writer
    var reader: ReaderPos
    var writes: map<nat, WriteCall>
    var tickets: nat
    var objs: map<Id, TunnelConn>   // the connections that goroutines hold: every one made so far
    ghost var table: Table                // what nextID, conns, connCh and the objects stand for
    ghost var sent: seq<Message>
    ghost var lost: seq<Message>
    ghost var got: nat
    ghost var controlPicks: nat
    ghost var dataPicks: nat

    ghost predicate IsConn(c: TunnelConn)
      reads this`objs
    {
      c.id in objs && objs[c.id] == c
    }

    /** What the table says about an id is what the object and the conns map say. */
    ghost predicate ConnAgrees(id: Id)
      reads this`conns, this`objs, this`table, objs.Values
    {
      && (id in objs ==> id in table.objs && objs[id].id == id)
      && (id in objs ==> objs[id].Valid() && objs[id].View() == table.objs[id])
      && (id in conns ==> id in objs && conns[id] == objs[id])
    }

    ghost predicate QueuedAgrees(i: nat)
      reads this`connCh, this`objs
    {
      i < |connCh| ==> IsConn(connCh[i])
    }

    ghost predicate TableAgrees()
      reads this`nextID, this`conns, this`connCh, this`objs, this`table, objs.Values
    {
      && table.nextID == nextID
      && table.objs.Keys == objs.Keys && table.conns == conns.Keys
      && IdsOf(connCh) == table.connCh
      && (forall id {:trigger ConnAgrees(id)} :: ConnAgrees(id))
      && (forall i: nat {:trigger QueuedAgrees(i)} :: QueuedAgrees(i))
    }

    ghost predicate ReaderAgrees()
      reads this`reader, this`objs
    {
      match reader
      case Offering(c) => IsConn(c)
      case Refusing(c, _) => IsConn(c)
      case Delivering(c, _) => IsConn(c)
      case Closing(c) => IsConn(c)
      case _ => true
    }

    ghost predicate Valid()
      reads this, objs.Values
    {
      TableAgrees() && ReaderAgrees()
    }

    ghost function OutboxOf(): Outbox
      reads this
    {
      Outbox(controlCh, dataCh, writer, sent, lost, controlPicks, dataPicks)
    }

    /** The session as a state of module Tunnel. */
    ghost function State(): Endpoint
      reads this
    {
      Endpoint(table, OutboxOf(), Calls(writes, tickets), ReaderOf(reader), got, stopped)
    }

    constructor ()
      ensures Valid() && State() == NewSession && objs == map[]
    {
      nextID, conns, stopped, listenerClosed, controlCh, dataCh, connCh := 0, map[], false, false, [], [], [];
      writer, reader, writes, tickets := Phase1, Reading, map[], 0;
      objs, table, sent, lost, got, controlPicks, dataPicks := map[], NewSession.table, [], [], 0, 0, 0;
    }

    // ---- Changing one connection ----

    ghost method SetHolder(conn: TunnelConn, holder: Holder)
      requires TableAgrees() && IsConn(conn)
      modifies this`table, conn`holder
      ensures TableAgrees() && table == SetConn(old(table), conn.id, old(table).objs[conn.id].(holder := holder))
    {
      assert ConnAgrees(conn.id);
      conn.holder := holder;
      table := SetConn(table, conn.id, conn.View());
      forall id: Id
        ensures ConnAgrees(id)
      {
        assert old(ConnAgrees(id));
      }
    }

    /** closed, closeCh and the once move together as the once-body advances. */
    method SetOnceOf(conn: TunnelConn, once: Once)
      requires TableAgrees() && IsConn(conn)
      modifies this`table, conn`once, conn`closed, conn`closeCh
      ensures TableAgrees() && table == SetConn(old(table), conn.id, old(table).objs[conn.id].(once := once))
    {
      assert ConnAgrees(conn.id);
      conn.once, conn.closed, conn.closeCh := once, once != Fresh, Signals(once);
      table := SetConn(table, conn.id, conn.View());
      forall id: Id
        ensures ConnAgrees(id)
      {
        assert old(ConnAgrees(id));
      }
    }

    /** conns.Store of a new connection, and the id counter. */
    method Store(id: Id, counter: nat, ghost holder: Holder) returns (conn: TunnelConn)
      requires TableAgrees() && id !in objs
      modifies this`nextID, this`conns, this`objs, this`table
      ensures TableAgrees() && table == Listing(SetConn(old(table), id, NewConn(holder)), id).(nextID := counter)
      ensures fresh(conn) && conn.id == id && objs == old(objs)[id := conn]
    {
      conn := new TunnelConn(id, holder);
      nextID, conns, objs := counter, conns[id := conn], objs[id := conn];
      table := Listing(SetConn(table, id, NewConn(holder)), id).(nextID := counter);
      forall id: Id
        ensures ConnAgrees(id)
      {
        assert old(ConnAgrees(id));
      }
      forall i: nat
        ensures QueuedAgrees(i)
      {
        assert old(QueuedAgrees(i));
      }
    }

    /** conns.Delete. */
    method Delete(id: Id)
      requires TableAgrees()
      modifies this`conns, this`table
      ensures TableAgrees() && table == Unlisting(old(table), id)
    {
      conns := conns - {id};
      table := Unlisting(table, id);
      forall x: Id
        ensures ConnAgrees(x)
      {
        assert old(ConnAgrees(x));
      }
    }

    // ---- Dial ----

    method DialStart(addr: seq<byte>) returns (conn: TunnelConn)
      requires Valid() && CanDialStart(State()) && nextID + 1 !in objs
      modifies this`nextID, this`conns, this`objs, this`table
      ensures Valid() && State() == Tunnel.DialStart(old(State()), addr)
      ensures fresh(conn) && conn.id == nextID && objs == old(objs)[nextID := conn]
    {
      conn := Store(nextID + 1, nextID + 1, Dialling(addr, ToSend));
    }

    /** Dial up to its first send; nothing once the session has stopped. */
    method Dial(addr: seq<byte>) returns (conn: TunnelConn?)
      requires Valid() && (!stopped ==> CanDialStart(State()) && nextID + 1 !in objs)
      modifies this`nextID, this`conns, this`objs, this`table
      ensures Valid() && (conn == null <==> stopped)
      ensures State() == if conn == null then old(State()) else Tunnel.DialStart(old(State()), addr)
      ensures conn != null ==> fresh(conn) && conn.id == nextID && objs == old(objs)[nextID := conn]
    {
      if stopped {
        return null;
      }
      conn := DialStart(addr);
    }

    method DialEnqueue(conn: TunnelConn, addr: seq<byte>) returns (blocked: bool)
      requires Valid() && IsConn(conn) && table.objs[conn.id].holder == Dialling(addr, ToSend)
      modifies this`controlCh, this`table, conn`holder
      ensures Valid() && (blocked <==> !CanDialEnqueue(old(State()), conn.id))
      ensures State() == if blocked then old(State()) else Tunnel.DialEnqueue(old(State()), conn.id)
    {
      blocked := |controlCh| >= CONTROL_CAP;
      if !blocked {
        controlCh := controlCh + [Req(OnWire(Message(MSG_OPEN, conn.id, addr)), OfDial(conn.id))];
        SetHolder(conn, Dialling(addr, Queued));
      }
    }

    /** Dial's record was written: it returns the connection. */
    method DialReturn(conn: TunnelConn)
      requires Valid() && IsConn(conn) && DialAt(table, conn.id, Acked)
      modifies this`table, conn`holder
      ensures Valid() && State() == Tunnel.DialReturn(old(State()), conn.id)
    {
      SetHolder(conn, User);
    }

    /** Dial's record failed, or the session stopped: it deletes the connection, returns an error. */
    method DialAbort(conn: TunnelConn)
      requires Valid() && IsConn(conn) && CanDialAbort(State(), conn.id)
      modifies this`conns, this`table, conn`holder
      ensures Valid() && State() == Tunnel.DialAbort(old(State()), conn.id)
    {
      ghost var t := table;
      SetHolder(conn, DialFailed);
      Delete(conn.id);
      assert table == Unlisting(SetConn(t, conn.id, t.objs[conn.id].(holder := DialFailed)), conn.id);
    }

    // ---- The write loop ----

    method TakeControl(toPhase2: bool)
      requires Valid() && |controlCh| > 0
      modifies this`writer, this`controlCh, this`controlPicks
      ensures Valid() && State() == old(State()).(out := PickControl(old(OutboxOf()), toPhase2))
    {
      writer, controlCh := Writing(controlCh[0], toPhase2), controlCh[1..];
      controlPicks := controlPicks + 1;
    }

    method TakeData()
      requires Valid() && |dataCh| > 0
      modifies this`writer, this`dataCh, this`dataPicks
      ensures Valid() && State() == old(State()).(out := PickData(old(OutboxOf())))
    {
      writer, dataCh := Writing(dataCh[0], false), dataCh[1..];
      dataPicks := dataPicks + 1;
    }

    /** The first select: stop or a control request, and neither only if neither is ready. */
    method WritePhase1(either: bool) returns (w: WriterStep)
      requires Valid() && writer == Phase1
      modifies this`writer, this`controlCh, this`controlPicks
      ensures Valid() && CanWriter(old(State()), true, w) && State() == DoWriter(old(State()), true, w)
    {
      if stopped && (either || |controlCh| == 0) {
        writer, w := WriterDone, WStop;
      } else if |controlCh| > 0 {
        w := WControl1;
        TakeControl(true);
      } else {
        writer, w := Phase2, WDefault1;
      }
    }

    /** The second select: stop, a control request or a data request, in any order of preference;
        it blocks only if none is ready. */
    method WritePhase2(preferStop: bool, preferData: bool) returns (w: WriterStep, blocked: bool)
      requires Valid() && writer == Phase2
      modifies this`writer, this`controlCh, this`controlPicks, this`dataCh, this`dataPicks
      ensures Valid()
      ensures blocked ==> State() == old(State()) && !stopped && controlCh == dataCh == []
      ensures !blocked ==> CanWriter(old(State()), true, w) && State() == DoWriter(old(State()), true, w)
    {
      blocked, w := !stopped && |controlCh| == 0 && |dataCh| == 0, WStop;
      if stopped && (preferStop || (|controlCh| == 0 && |dataCh| == 0)) {
        writer := WriterDone;
      } else if |dataCh| > 0 && (preferData || |controlCh| == 0) {
        w := WData2;
        TakeData();
      } else if |controlCh| > 0 {
        w := WControl2;
        TakeControl(false);
      }
    }

    method AckDial(id: Id, result: Stage)
      requires TableAgrees()
      modifies this`table, objs.Values
      ensures TableAgrees() && table == AckTable(old(table), OfDial(id), result)
    {
      if id in objs {
        assert ConnAgrees(id);
        ghost var h := objs[id].holder;
        SetHolder(objs[id], if h.Dialling? && h.stage == Queued then Dialling(h.addr, result) else h);
        assert table.objs == AckTable(old(table), OfDial(id), result).objs;
      }
    }

    method AckClose(id: Id, result: Stage)
      requires TableAgrees()
      modifies this`table, objs.Values
      ensures TableAgrees() && table == AckTable(old(table), OfClose(id), result)
    {
      assert ConnAgrees(id);
      if id in objs && objs[id].once == Sending(Queued) {
        SetOnceOf(objs[id], Sending(result));
      }
    }

    method AckRefusal(id: Id, result: Stage)
      requires Valid()
      modifies this`reader
      ensures Valid() && ReaderOf(reader) == AckReader(ReaderOf(old(reader)), OfRefusal(id), result)
    {
      if reader.Refusing? && reader.conn.id == id && reader.stage == Queued {
        reader := Refusing(reader.conn, result);
      }
    }

    method AckWrite(ticket: nat, result: Stage)
      requires Valid()
      modifies this`writes
      ensures Valid() && Calls(writes, tickets) == AckCalls(old(Calls(writes, tickets)), OfWrite(ticket), result)
    {
      if ticket in writes {
        writes := writes[ticket := writes[ticket].(stage := result)];
      }
    }

    /** req.err <- result: whoever waits for the record learns that it was written, or not. */
    method Acknowledge(origin: Origin, result: Stage)
      requires Valid()
      modifies this`table, this`reader, this`writes, objs.Values
      ensures Valid() && State() == Ack(old(State()), origin, result, old(OutboxOf()))
    {
      match origin {
        case OfDial(id) => AckDial(id, result);
        case OfClose(id) => AckClose(id, result);
        case OfRefusal(id) => AckRefusal(id, result);
        case OfWrite(ticket) => AckWrite(ticket, result);
      }
    }

    /** WriteRecord returns: the record is with the transport, or the transport has failed. */
    method WriteReturns(ok: bool)
      requires Valid() && writer.Writing?
      modifies this`writer, this`sent, this`lost, this`table, this`reader, this`writes, objs.Values
      ensures Valid() && State() == if ok then WriteDone(old(State())) else WriteFailed(old(State()))
    {
      Acknowledge(writer.req.origin, if ok then Acked else Failed);
      Resume(ok);
    }

    /** The loop goes on to its next select. */
    method Resume(ok: bool)
      requires writer.Writing?
      modifies this`writer, this`sent, this`lost
      ensures OutboxOf() == if ok then Wrote(old(OutboxOf())) else FailedToWrite(old(OutboxOf()))
    {
      if ok {
        sent := sent + [writer.req.msg];
      } else {
        lost := lost + [writer.req.msg];
      }
      writer := if writer.toPhase2 then Phase2 else Phase1;
    }

    // ---- The read loop ----

    /** One record read and decoded; a record that does not decode is skipped. */
    method HandleRecord(raw: array<byte>)
      requires Valid() && reader == Reading
      requires Parse(raw[..]).Ok? && Parse(raw[..]).msg.kind == MSG_OPEN ==> Parse(raw[..]).msg.connID !in objs
      modifies this`nextID, this`conns, this`objs, this`table, this`reader, this`got
      ensures Valid()
      ensures State() == match Parse(raw[..])
                         case Ok(m) => Receive(old(State()), m)
                         case Err(_) => old(State()).(got := old(got) + 1)
    {
      var r := Decode(raw);
      got := got + 1;
      if r.Ok? {
        Handle(r.msg);
      }
    }

    /** handleOpen up to its select, handleData and handleClose up to where they can block. */
    method Handle(m: Message)
      requires Valid() && reader == Reading && got > 0
      requires m.kind == MSG_OPEN ==> m.connID !in objs
      modifies this`nextID, this`conns, this`objs, this`table, this`reader
      ensures Valid() && State() == Receive(old(State()).(got := old(got) - 1), m)
    {
      if m.kind == MSG_OPEN {
        var conn := Store(m.connID, nextID, Opening);
        reader := Offering(conn);
      } else if m.connID in conns {
        assert ConnAgrees(m.connID);
        if m.kind == MSG_DATA {
          reader := Delivering(conns[m.connID], m.payload);
        } else if m.kind == MSG_CLOSE {
          reader := Closing(conns[m.connID]);
        }
      }
    }

    /** ln.connCh <- conn. */
    method Enlist(conn: TunnelConn)
      requires TableAgrees() && IsConn(conn)
      modifies this`connCh, this`table
      ensures TableAgrees() && table == old(table).(connCh := old(table).connCh + [conn.id])
    {
      connCh := connCh + [conn];
      table := table.(connCh := table.connCh + [conn.id]);
      forall id: Id
        ensures ConnAgrees(id)
      {
        assert old(ConnAgrees(id));
      }
      forall i: nat
        ensures QueuedAgrees(i)
      {
        assert old(QueuedAgrees(i));
      }
    }

    /** The queued connection that Accept receives. */
    method Unqueue() returns (conn: TunnelConn)
      requires TableAgrees() && |connCh| > 0
      modifies this`connCh, this`table
      ensures TableAgrees() && conn == old(connCh)[0] && IsConn(conn) && conn.id == old(table).connCh[0]
      ensures table == old(table).(connCh := old(table).connCh[1..], accepted := old(table).accepted + [conn.id])
    {
      assert QueuedAgrees(0);
      conn := connCh[0];
      connCh := connCh[1..];
      table := table.(connCh := table.connCh[1..], accepted := table.accepted + [conn.id]);
      forall id: Id
        ensures ConnAgrees(id)
      {
        assert old(ConnAgrees(id));
      }
      forall i: nat
        ensures QueuedAgrees(i)
      {
        assert old(QueuedAgrees(i + 1));
      }
    }

    /** handleOpen's select when the listener has room and the offer is chosen. */
    method Offer()
      requires Valid() && reader.Offering? && CanOffer(State())
      modifies this`connCh, this`table, this`reader, reader.conn`holder
      ensures Valid() && State() == Tunnel.Offer(old(State()))
    {
      var conn := reader.conn;
      ghost var t := table;
      SetHolder(conn, Listed);
      Enlist(conn);
      assert table == SetConn(t, conn.id, t.objs[conn.id].(holder := Listed)).(connCh := t.connCh + [conn.id]);
      reader := Reading;
    }

    method Refuse()
      requires Valid() && reader.Offering? && CanRefuse(State())
      modifies this`table, this`reader, reader.conn`holder
      ensures Valid() && State() == Tunnel.Refuse(old(State()))
    {
      SetHolder(reader.conn, Refused);
      reader := Refusing(reader.conn, ToSend);
    }

    /** handleOpen's select: offered when there is room, refused when there is none; once stopped it
        may refuse even so. It never blocks. */
    method OfferOrRefuse(either: bool)
      requires Valid() && reader.Offering? && |connCh| <= ACCEPT_CAP
      modifies this`connCh, this`table, this`reader, reader.conn`holder
      ensures Valid()
      ensures State() == if |old(connCh)| < ACCEPT_CAP && (!stopped || either) then Tunnel.Offer(old(State()))
                         else Tunnel.Refuse(old(State()))
    {
      if |connCh| < ACCEPT_CAP && (!stopped || either) {
        Offer();
      } else {
        Refuse();
      }
    }

    method RefuseEnqueue() returns (blocked: bool)
      requires Valid() && reader.Refusing? && reader.stage == ToSend
      modifies this`controlCh, this`reader
      ensures Valid() && (blocked <==> !CanRefuseEnqueue(old(State())))
      ensures State() == if blocked then old(State()) else Tunnel.RefuseEnqueue(old(State()))
    {
      blocked := |controlCh| >= CONTROL_CAP;
      if !blocked {
        controlCh := controlCh + [Req(Message(MSG_CLOSE, reader.conn.id, []), OfRefusal(reader.conn.id))];
        reader := Refusing(reader.conn, Queued);
      }
    }

    method RefuseEnd() returns (blocked: bool)
      requires Valid() && reader.Refusing?
      modifies this`conns, this`table, this`reader
      ensures Valid() && (blocked <==> !CanRefuseEnd(old(State())))
      ensures State() == if blocked then old(State()) else Tunnel.RefuseEnd(old(State()))
    {
      blocked := !stopped && reader.stage != Acked && reader.stage != Failed;
      if !blocked {
        Delete(reader.conn.id);
        reader := Reading;
      }
    }

    method PushChunk(conn: TunnelConn, data: seq<byte>)
      requires TableAgrees() && IsConn(conn)
      modifies this`table, conn`readCh
      ensures TableAgrees()
      ensures table == SetConn(old(table), conn.id,
                                     old(table).objs[conn.id].(readCh := old(table).objs[conn.id].readCh + [data]))
    {
      assert ConnAgrees(conn.id);
      conn.readCh := conn.readCh + [data];
      table := SetConn(table, conn.id, conn.View());
      forall id: Id
        ensures ConnAgrees(id)
      {
        assert old(ConnAgrees(id));
      }
    }

    /** deliverData's select: into the connection's queue if there is room, dropped if closeCh is
        closed; with both, `either` chooses; with neither, it blocks. */
    method DeliverData(either: bool) returns (pushed: bool, blocked: bool)
      requires Valid() && reader.Delivering?
      modifies this`table, this`reader, reader.conn`readCh
      ensures Valid()
      ensures blocked ==> State() == old(State()) && !CanPush(State()) && !CanDrop(State())
      ensures !blocked && pushed ==> CanPush(old(State())) && State() == Push(old(State()))
      ensures !blocked && !pushed ==> CanDrop(old(State())) && State() == BackToIdle(old(State()))
    {
      var conn := reader.conn;
      assert ConnAgrees(conn.id);
      var room := |conn.readCh| < READ_CAP;
      blocked := !room && !conn.closeCh;
      pushed := room && (!conn.closeCh || either);
      if !blocked {
        if pushed {
          PushChunk(conn, reader.data);
        }
        reader := Reading;
      }
    }

    /** ReadRecord fails, because the transport is down or the session was closed: the loop closes the
        session, if that has not begun, and returns. */
    method ReadFails()
      requires Valid() && reader == Reading
      modifies this`reader, this`stopped, this`conns, this`table
      modifies objs.Values`once, objs.Values`closed, objs.Values`closeCh
      ensures Valid()
      ensures State() == old(State()).(reader := ReaderDone, stopped := true,
                                       table := if old(stopped) then old(table) else Swept(old(table)))
    {
      CloseOnce();
      reader := ReaderReturned;
    }

    /** handleClose returns once the once-body is done, whoever ran it. */
    method CloseReturns()
      requires Valid() && reader.Closing? && CanReturnFromClose(State())
      modifies this`reader
      ensures Valid() && State() == BackToIdle(old(State()))
    {
      reader := Reading;
    }

    // ---- Closing a connection ----

    /** once.Do: the first caller enters the body and sets closed. */
    method CloseBegin(conn: TunnelConn, closer: Closer)
      requires Valid() && IsConn(conn) && CanCloseBegin(State(), conn.id, closer)
      modifies this`table, conn`once, conn`closed, conn`closeCh
      ensures Valid() && State() == Tunnel.CloseBegin(old(State()), conn.id, closer)
    {
      SetOnceOf(conn, Marked(closer));
    }

    /** close(c.closeCh). */
    method CloseSignal(conn: TunnelConn)
      requires Valid() && IsConn(conn) && CanCloseSignal(State(), conn.id)
      modifies this`table, conn`once, conn`closed, conn`closeCh
      ensures Valid() && State() == Tunnel.CloseSignal(old(State()), conn.id)
    {
      assert ConnAgrees(conn.id);
      SetOnceOf(conn, Signalled(conn.once.closer));
    }

    /** conns.Delete; remoteClose is done then, Close goes on to send CLOSE. */
    method CloseUnlist(conn: TunnelConn)
      requires Valid() && IsConn(conn) && CanCloseUnlist(State(), conn.id)
      modifies this`conns, this`table, conn`once, conn`closed, conn`closeCh
      ensures Valid() && State() == Tunnel.CloseUnlist(old(State()), conn.id)
    {
      assert ConnAgrees(conn.id);
      ghost var t := table;
      var closer := conn.once.closer;
      SetOnceOf(conn, if closer == ByUser then Sending(ToSend) else Done(closer));
      Delete(conn.id);
      assert table == Unlisting(SetOnce(t, conn.id,
                                            if closer == ByUser then Sending(ToSend) else Done(closer)), conn.id);
    }

    method CloseEnqueue(conn: TunnelConn) returns (blocked: bool)
      requires Valid() && IsConn(conn) && OnceIs(table, conn.id, Sending(ToSend))
      modifies this`controlCh, this`table, conn`once, conn`closed, conn`closeCh
      ensures Valid() && (blocked <==> !CanCloseEnqueue(old(State()), conn.id))
      ensures State() == if blocked then old(State()) else Tunnel.CloseEnqueue(old(State()), conn.id)
    {
      blocked := |controlCh| >= CONTROL_CAP;
      if !blocked {
        controlCh := controlCh + [Req(Message(MSG_CLOSE, conn.id, []), OfClose(conn.id))];
        SetOnceOf(conn, Sending(Queued));
      }
    }

    method CloseEnd(conn: TunnelConn)
      requires Valid() && IsConn(conn) && CanCloseEnd(State(), conn.id)
      modifies this`table, conn`once, conn`closed, conn`closeCh
      ensures Valid() && State() == Tunnel.CloseEnd(old(State()), conn.id)
    {
      SetOnceOf(conn, Done(ByUser));
    }

    // ---- Closing the session ----

    /** close(s.stopCh). */
    method Stop()
      requires Valid()
      modifies this`stopped
      ensures Valid() && State() == old(State()).(stopped := true)
    {
      stopped := true;
    }

    /** remoteClose without another goroutine in between; nothing if the once was entered before. */
    method RemoteClose(conn: TunnelConn, closer: Closer)
      requires TableAgrees() && IsConn(conn) && closer != ByUser
      modifies this`conns, this`table, conn`once, conn`closed, conn`closeCh
      ensures TableAgrees() && table == RemoteClosed(old(table), conn.id, closer)
    {
      assert ConnAgrees(conn.id);
      if conn.closed {
        return;
      }
      SetOnceOf(conn, Done(closer));
      Delete(conn.id);
    }

    /** The sweep's next connection. */
    method CloseNext(id: Id, ghost t: Table, ghost done: set<Id>)
      requires TableAgrees() && id in conns
      requires id in t.conns && id !in done && table == SweptOf(t, done)
      modifies this`conns, this`table, objs.Values`once, objs.Values`closed, objs.Values`closeCh
      ensures TableAgrees() && table == SweptOf(t, done + {id}) && old(conns.Keys) - {id} <= conns.Keys
    {
      assert ConnAgrees(id);
      RemoteClose(conns[id], ByStop);
      SweepStep(t, done, id);
    }

    /** closeAll, over the connections that are in the map when it starts. */
    method CloseAll()
      requires TableAgrees()
      modifies this`conns, this`table, objs.Values`once, objs.Values`closed, objs.Values`closeCh
      ensures TableAgrees() && table == Swept(old(table))
    {
      assert SweptOf(table, {}) == table;
      assert {} + conns.Keys == table.conns;
      CloseRest(conns.Keys, table, {});
    }

    /** The sweep from some point on. */
    method CloseRest(rest: set<Id>, ghost t: Table, ghost done: set<Id>)
      requires TableAgrees() && rest <= conns.Keys
      requires done !! rest && done + rest == t.conns && table == SweptOf(t, done)
      modifies this`conns, this`table, objs.Values`once, objs.Values`closed, objs.Values`closeCh
      ensures TableAgrees() && table == Swept(t)
      decreases |rest|
    {
      if rest == {} {
        assert done == t.conns;
        return;
      }
      var id :| id in rest;
      assert id in conns && id in t.conns && id !in done;
      assert done + {id} + (rest - {id}) == t.conns;
      CloseNext(id, t, done);
      CloseRest(rest - {id}, t, done + {id});
    }

    /** close: once only. */
    method CloseOnce()
      requires Valid()
      modifies this`stopped, this`conns, this`table, objs.Values`once, objs.Values`closed, objs.Values`closeCh
      ensures Valid()
      ensures State() == old(State()).(stopped := true, table := if old(stopped) then old(table) else Swept(old(table)))
    {
      if stopped {
        return;
      }
      Stop();
      CloseAll();
    }

    // ---- Accept, Read, Write ----

    /** Accept's select. With a connection queued and the listener closed or the session stopped,
        `either` chooses; no connection means net.ErrClosed, unless the call blocks. */
    method Accept(either: bool) returns (conn: TunnelConn?, blocked: bool)
      requires Valid()
      modifies this`connCh, this`table, (if |connCh| > 0 then {connCh[0]} else {})`holder
      ensures Valid() && (blocked <==> old(connCh) == [] && !stopped && !listenerClosed)
      ensures conn != null ==>
                !blocked && CanAccept(old(State())) && conn == old(connCh)[0] && State() == Tunnel.Accept(old(State()))
      ensures conn == null ==> State() == old(State()) && (stopped || listenerClosed || blocked)
    {
      conn, blocked := null, false;
      if |connCh| > 0 && (either || (!stopped && !listenerClosed)) {
        assert QueuedAgrees(0) && ConnAgrees(connCh[0].id);
        conn := Unqueue();
        SetHolder(conn, User);
      } else {
        blocked := !stopped && !listenerClosed;
      }
    }

    /** The listener's Close, under its once. */
    method CloseListener()
      requires Valid()
      modifies this`listenerClosed
      ensures Valid() && listenerClosed && State() == old(State())
    {
      listenerClosed := true;
    }

    /** One round of Read's loop (TunnelConn.ReadRound) under readMu. */
    method ReadRound(conn: TunnelConn, max: nat, either: bool) returns (out: seq<byte>, eof: bool, blocked: bool)
      requires Valid() && IsConn(conn) && InUse(table, conn.id)
      modifies this`table, conn
      ensures Valid()
      ensures if CanTake(old(State()), conn.id, 0) then
          !eof && !blocked && CanTake(old(State()), conn.id, |out|) && |out| <= max
          && State() == Take(old(State()), conn.id, |out|)
          && out == old(table).objs[conn.id].readBuf[..|out|]
        else if CanRefill(old(State()), conn.id) && (!Signals(table.objs[conn.id].once) || either) then
          out == [] && !blocked && State() == Refill(old(State()), conn.id)
          && (eof <==> old(table).objs[conn.id].readCh[0] == [])
        else out == [] && State() == old(State()) && (eof <==> Signals(table.objs[conn.id].once)) && (blocked <==> !eof)
    {
      assert ConnAgrees(conn.id);
      out, eof, blocked := conn.ReadRound(max, either);
      table := SetConn(table, conn.id, conn.View());
      forall id: Id
        ensures ConnAgrees(id)
      {
        assert old(ConnAgrees(id));
      }
    }

    /** Write's check of closed; the call goes on with a fresh ticket unless the flag is set. */
    method WriteBegin(conn: TunnelConn, data: seq<byte>) returns (ok: bool)
      requires Valid() && IsConn(conn) && InUse(table, conn.id)
      modifies this`writes, this`tickets
      ensures Valid() && (ok <==> CanWriteBegin(old(State()), conn.id))
      ensures State() == if ok then Tunnel.WriteBegin(old(State()), conn.id, data) else old(State())
    {
      assert ConnAgrees(conn.id);
      ok := !conn.closed;
      if ok {
        writes, tickets := writes[tickets := WriteCall(conn.id, data, ToSend)], tickets + 1;
      }
    }

    ghost method AddWritten(conn: TunnelConn, data: seq<byte>)
      requires TableAgrees() && IsConn(conn)
      modifies this`table, conn`written
      ensures TableAgrees()
      ensures table == SetConn(old(table), conn.id,
                                     old(table).objs[conn.id].(written := old(table).objs[conn.id].written + data))
    {
      assert ConnAgrees(conn.id);
      conn.written := conn.written + data;
      table := SetConn(table, conn.id, conn.View());
      forall id: Id
        ensures ConnAgrees(id)
      {
        assert old(ConnAgrees(id));
      }
    }

    method WriteEnqueue(conn: TunnelConn, ticket: nat) returns (blocked: bool)
      requires Valid() && IsConn(conn) && ticket in writes
      requires writes[ticket].stage == ToSend && writes[ticket].id == conn.id
      modifies this`dataCh, this`writes, this`table, conn`written
      ensures Valid() && (blocked <==> !CanWriteEnqueue(old(State()), ticket))
      ensures State() == if blocked then old(State()) else Tunnel.WriteEnqueue(old(State()), ticket)
    {
      blocked := |dataCh| >= DATA_CAP;
      if !blocked {
        var m := OnWire(Message(MSG_DATA, conn.id, writes[ticket].data));
        dataCh := dataCh + [Req(m, OfWrite(ticket))];
        writes := writes[ticket := writes[ticket].(stage := Queued)];
        AddWritten(conn, m.payload);
      }
    }

    method WriteReturn(ticket: nat) returns (blocked: bool)
      requires Valid() && ticket in writes
      modifies this`writes
      ensures Valid() && (blocked <==> !CanWriteReturn(old(State()), ticket))
      ensures State() == if blocked then old(State()) else Tunnel.WriteReturn(old(State()), ticket)
    {
      blocked := !stopped && writes[ticket].stage != Acked && writes[ticket].stage != Failed;
      if !blocked {
        writes := writes - {ticket};
      }
    }
  }
}
