/** What one endpoint has written for each connection id: the OPEN comes first, the CLOSE at most
    once, and no data after it when writers behave. */
module TunnelWire {
  import opened Protocol
  import opened Tunnel
  import opened TunnelEndpoint
  import opened TunnelFrames

  /** Where the records written for one id stand. Late: data after CLOSE. Bad: anything else that
      is not OPEN first (a dialler), then data, then one CLOSE. */
  datatype Phase = Unopened | Open | Closed | Late | Bad

  function NextPhase(p: Phase, kind: byte): Phase {
    if kind == MSG_OPEN && p == Unopened then Open
    else if kind == MSG_DATA && p == Open then Open
    else if kind == MSG_DATA && (p == Closed || p == Late) then Late
    else if kind == MSG_CLOSE && p == Open then Closed
    else Bad
  }

  function PhaseOf(dials: bool, id: Id, ms: seq<Message>): Phase {
    if |ms| == 0 then if dials then Unopened else Open
    else
      var p := PhaseOf(dials, id, ms[..|ms| - 1]);
      if ms[|ms| - 1].connID == id then NextPhase(p, ms[|ms| - 1].kind) else p
  }

  /** The phase tells which records there are. */
  lemma {:induction false} PhaseCounts(dials: bool, id: Id, ms: seq<Message>)
    requires PhaseOf(dials, id, ms) != Bad
    ensures PhaseOf(dials, id, ms) == Unopened <==> dials && Count(MSG_OPEN, id, ms) == 0
    ensures PhaseOf(dials, id, ms) == Unopened ==> Count(MSG_DATA, id, ms) == 0
    ensures (PhaseOf(dials, id, ms) == Closed || PhaseOf(dials, id, ms) == Late) <==> Count(MSG_CLOSE, id, ms) > 0
    ensures dials ==> Count(MSG_OPEN, id, ms) <= 1
    ensures !dials ==> Count(MSG_OPEN, id, ms) == 0
    ensures Count(MSG_CLOSE, id, ms) <= 1
  {
    if |ms| > 0 {
      PhaseCounts(dials, id, ms[..|ms| - 1]);
    }
  }

  lemma {:induction false} BadStays(dials: bool, id: Id, ms: seq<Message>, n: nat)
    requires n <= |ms| && PhaseOf(dials, id, ms[..n]) == Bad
    ensures PhaseOf(dials, id, ms) == Bad
    decreases |ms|
  {
    if n < |ms| {
      assert ms[..|ms| - 1][..n] == ms[..n];
      BadStays(dials, id, ms[..|ms| - 1], n);
    } else {
      assert ms[..n] == ms;
    }
  }

  /** Dial has seen its OPEN written. */
  predicate Usable(t: Table, id: Id) {
    Known(t, id) && UsableHolder(t.objs[id].holder)
  }

  predicate SentOk(e: Endpoint, id: Id) {
    && PhaseOf(Own(e, id), id, e.out.sent) != Bad
    && (Own(e, id) && Usable(e.table, id) ==> Count(MSG_OPEN, id, e.out.sent) > 0)
  }

  /** Only the write loop writes. */
  lemma SentFrame(e: Endpoint, inbox: seq<Message>, up: bool, a: Action)
    requires Enabled(e, inbox, up, a) && a != OnWriter(WDone)
    ensures Apply(e, inbox, up, a).out.sent == e.out.sent
  {
  }

  /** A dialled connection becomes usable only when its OPEN has been written. */
  lemma UsableFrame(e: Endpoint, inbox: seq<Message>, up: bool, a: Action, id: Id)
    requires Enabled(e, inbox, up, a) && IdTotals(e, id) && Own(e, id)
    requires Usable(Apply(e, inbox, up, a).table, id) && !Usable(e.table, id)
    ensures a == OnWriter(WDone) && e.out.writer.req.origin == OfDial(id)
  {
    if Creates(e, inbox, a, id) {
      CreateFrame(e, inbox, up, a, id);
    } else {
      StepFrame(e, inbox, up, a, id);
    }
  }

  /** Nothing was written for an id before it is dialled. */
  lemma {:induction false} BeforeItsOpen(id: Id, ms: seq<Message>)
    requires PhaseOf(false, id, ms) == Open && Count(MSG_DATA, id, ms) == 0
    ensures PhaseOf(true, id, ms) == Unopened
  {
    if |ms| > 0 {
      PhaseCounts(false, id, ms[..|ms| - 1]);
      BeforeItsOpen(id, ms[..|ms| - 1]);
    }
  }

  lemma DialSent(e: Endpoint, addr: seq<byte>, id: Id)
    requires IdTotals(e, id) && SentOk(e, id) && !Known(e.table, e.table.nextID + 1)
    ensures SentOk(DialStart(e, addr), id)
  {
    if id == e.table.nextID + 1 {
      PhaseCounts(false, id, e.out.sent);
      BeforeItsOpen(id, e.out.sent);
    }
  }

  /** The record about to be written fits the phase of its id. */
  lemma WriteFits(e: Endpoint, id: Id)
    requires Queues(e.out) && IdTotals(e, id) && SentOk(e, id)
    requires e.out.writer.Writing? && e.out.writer.req.msg.connID == id
    ensures NextPhase(PhaseOf(Own(e, id), id, e.out.sent), e.out.writer.req.msg.kind) != Bad
  {
    PhaseCounts(Own(e, id), id, e.out.sent);
    var m := e.out.writer.req.msg;
    assert Count(m.kind, id, Held(e.out.writer)) == 1 by {
      CountOne(m.kind, id, [], m);
      assert [] + [m] == Held(e.out.writer);
    }
    assert Total(e.out, m.kind, id) >= 1 + Count(m.kind, id, e.out.sent);
  }

  lemma WriteSent(e: Endpoint, id: Id)
    requires Queues(e.out) && IdTotals(e, id) && SentOk(e, id) && e.out.writer.Writing?
    ensures PhaseOf(Own(e, id), id, e.out.sent + [e.out.writer.req.msg]) != Bad
    ensures Count(MSG_OPEN, id, e.out.sent + [e.out.writer.req.msg]) >= Count(MSG_OPEN, id, e.out.sent)
    ensures e.out.writer.req.origin == OfDial(id) ==>
              Count(MSG_OPEN, id, e.out.sent + [e.out.writer.req.msg]) > 0
  {
    var m := e.out.writer.req.msg;
    CountOne(MSG_OPEN, id, e.out.sent, m);
    if m.connID == id {
      WriteFits(e, id);
    }
  }

  lemma SentKeeps(e: Endpoint, inbox: seq<Message>, up: bool, a: Action, id: Id)
    requires EndpointOk(e) && Enabled(e, inbox, up, a) && Admissible(e, inbox, a)
    requires SentOk(e, id)
    ensures SentOk(Apply(e, inbox, up, a), id)
  {
    var e' := Apply(e, inbox, up, a);
    assert IdTotals(e, id);
    if StartsDial(a) {
      DialSent(e, a.d.addr, id);
    } else {
      OwnFrame(e, inbox, up, a, id);
      if a == OnWriter(WDone) {
        WriteSent(e, id);
      } else {
        SentFrame(e, inbox, up, a);
      }
      if Own(e, id) && Usable(e'.table, id) && !Usable(e.table, id) {
        UsableFrame(e, inbox, up, a, id);
      }
    }
  }

  /** Only a Dial makes an id the end's own. */
  lemma OwnFrame(e: Endpoint, inbox: seq<Message>, up: bool, a: Action, id: Id)
    requires Enabled(e, inbox, up, a)
    ensures Own(Apply(e, inbox, up, a), id) <==> Own(e, id) || (StartsDial(a) && id == e.table.nextID + 1)
  {
  }

  // ---- No data after CLOSE ----

  /** A Write that has passed its check of the closed flag has not queued its record yet, or its
      record waits in the data queue. */
  predicate WritePending(e: Endpoint, id: Id) {
    || (exists t :: t in e.calls.writes && e.calls.writes[t].id == id && e.calls.writes[t].stage == ToSend)
    || (exists i | 0 <= i < |e.out.dataCh| :: e.out.dataCh[i].msg.connID == id)
  }

  /** The user calls Close on this connection only when none of its Writes is pending. */
  predicate Tidy(e: Endpoint, a: Action, id: Id) {
    a == OnClose(CBegin(id, ByUser)) ==> !WritePending(e, id)
  }

  predicate WritesData(w: Writer, id: Id) {
    w.Writing? && Is(w.req.msg, MSG_DATA, id)
  }

  /** Once the user's Close has begun nothing is pending any more, and a record that is still being
      written goes before the CLOSE. */
  predicate Quiet(e: Endpoint, id: Id) {
    Known(e.table, id) && UserClosed(e.table.objs[id].once) ==>
      !WritePending(e, id) && (WritesData(e.out.writer, id) ==> Count(MSG_CLOSE, id, e.out.sent) == 0)
  }

  /** Only Close, called by a user, begins a user's closing. */
  lemma UserClosedFrame(e: Endpoint, inbox: seq<Message>, up: bool, a: Action, id: Id)
    requires Enabled(e, inbox, up, a) && Known(Apply(e, inbox, up, a).table, id)
    requires UserClosed(Apply(e, inbox, up, a).table.objs[id].once)
    ensures a == OnClose(CBegin(id, ByUser)) || (Known(e.table, id) && UserClosed(e.table.objs[id].once))
  {
    if Creates(e, inbox, a, id) {
      CreateFrame(e, inbox, up, a, id);
    } else {
      StepFrame(e, inbox, up, a, id);
    }
  }

  /** Only Write makes a record pending, and only on an open connection. */
  lemma PendingFrame(e: Endpoint, inbox: seq<Message>, up: bool, a: Action, id: Id)
    requires Enabled(e, inbox, up, a) && !WritePending(e, id)
    ensures !WritePending(Apply(e, inbox, up, a), id) ||
            (a.OnUser? && a.u.UWriteBegin? && Known(e.table, id) && e.table.objs[id].once == Fresh
             && Apply(e, inbox, up, a).table == e.table)
  {
    match a {
      case OnUser(u) =>
        if !(u.UWriteBegin? && u.id == id) {
          UserPending(e, u, id);
        }
      case OnWriter(w) => WriterPending(e, up, w, id);
      case _ => OthersCalls(e, inbox, up, a);
    }
  }

  lemma UserPending(e: Endpoint, u: UserStep, id: Id)
    requires CanUse(e, u) && !WritePending(e, id) && !(u.UWriteBegin? && u.id == id)
    ensures !WritePending(DoUse(e, u), id)
  {
    if u.UWriteEnqueue? {
      assert e.calls.writes[u.ticket].id != id;
    }
  }

  lemma WriterPending(e: Endpoint, up: bool, w: WriterStep, id: Id)
    requires CanWriter(e, up, w) && !WritePending(e, id)
    ensures !WritePending(DoWriter(e, up, w), id)
  {
  }

  /** The write loop goes on with the record it has, or takes one from a queue. */
  lemma HeldFrame(e: Endpoint, inbox: seq<Message>, up: bool, a: Action, id: Id)
    requires Enabled(e, inbox, up, a) && Queues(e.out) && !WritePending(e, id)
    requires WritesData(Apply(e, inbox, up, a).out.writer, id)
    ensures WritesData(e.out.writer, id) && Apply(e, inbox, up, a).out.sent == e.out.sent
  {
    match a {
      case OnWriter(w) =>
      case OnUser(u) =>
      case _ =>
        OthersCalls(e, inbox, up, a);
        SentFrame(e, inbox, up, a);
    }
  }

  /** A connection that no user has begun to close has emitted no CLOSE, if it has data. */
  lemma NoCloseBefore(e: Endpoint, id: Id)
    requires IdTotals(e, id) && Known(e.table, id) && e.table.objs[id].holder == User
    requires !UserClosed(e.table.objs[id].once)
    ensures Count(MSG_CLOSE, id, e.out.sent) == 0
  {
  }

  lemma QuietKeeps(e: Endpoint, inbox: seq<Message>, up: bool, a: Action, id: Id)
    requires EndpointOk(e) && Enabled(e, inbox, up, a) && Tidy(e, a, id)
    requires Quiet(e, id)
    ensures Quiet(Apply(e, inbox, up, a), id)
  {
    var e' := Apply(e, inbox, up, a);
    if Known(e'.table, id) && UserClosed(e'.table.objs[id].once) {
      UserClosedFrame(e, inbox, up, a, id);
      if a == OnClose(CBegin(id, ByUser)) {
        assert IdTotals(e, id);
        NoCloseBefore(e, id);
        OthersCalls(e, inbox, up, a);
        SentFrame(e, inbox, up, a);
      } else {
        PendingFrame(e, inbox, up, a, id);
        if WritesData(e'.out.writer, id) {
          HeldFrame(e, inbox, up, a, id);
        }
      }
    }
  }

  /** Data in WriteRecord is not behind a CLOSE. */
  lemma NoCloseYet(e: Endpoint, id: Id)
    requires EndpointOk(e) && Quiet(e, id) && WritesData(e.out.writer, id)
    ensures Count(MSG_CLOSE, id, e.out.sent) == 0
  {
    assert IdTotals(e, id);
    assert Count(MSG_DATA, id, Held(e.out.writer)) == 1 by {
      CountOne(MSG_DATA, id, [], e.out.writer.req.msg);
      assert [] + [e.out.writer.req.msg] == Held(e.out.writer);
    }
    assert e.table.objs[id].holder == User;
    if !UserClosed(e.table.objs[id].once) {
      NoCloseBefore(e, id);
    }
  }

  predicate NotLate(e: Endpoint, id: Id) {
    PhaseOf(Own(e, id), id, e.out.sent) != Bad && PhaseOf(Own(e, id), id, e.out.sent) != Late
  }

  /** So writing the record in WriteRecord does not put data after CLOSE. */
  lemma WriteIsNotLate(e: Endpoint, id: Id)
    requires EndpointOk(e) && Quiet(e, id) && e.out.writer.Writing? && NotLate(e, id)
    ensures PhaseOf(Own(e, id), id, e.out.sent + [e.out.writer.req.msg]) != Late
  {
    var m := e.out.writer.req.msg;
    PhaseCounts(Own(e, id), id, e.out.sent);
    if Is(m, MSG_DATA, id) {
      NoCloseYet(e, id);
    }
  }

  lemma NotLateKeeps(e: Endpoint, inbox: seq<Message>, up: bool, a: Action, id: Id)
    requires EndpointOk(e) && Enabled(e, inbox, up, a) && Admissible(e, inbox, a) && SentOk(e, id)
    requires Quiet(e, id) && NotLate(e, id)
    ensures NotLate(Apply(e, inbox, up, a), id)
  {
    SentKeeps(e, inbox, up, a, id);
    OwnFrame(e, inbox, up, a, id);
    if a == OnWriter(WDone) {
      WriteIsNotLate(e, id);
    } else {
      SentFrame(e, inbox, up, a);
      if StartsDial(a) && id == e.table.nextID + 1 {
        assert IdTotals(e, id);
        PhaseCounts(false, id, e.out.sent);
        BeforeItsOpen(id, e.out.sent);
      }
    }
  }

  // ---- The grammar ----

  /** The kinds of the records of one id, in order. */
  function Kinds(id: Id, ms: seq<Message>): seq<byte> {
    if |ms| == 0 then []
    else Kinds(id, ms[..|ms| - 1]) + if ms[|ms| - 1].connID == id then [ms[|ms| - 1].kind] else []
  }

  function Datas(n: nat): seq<byte> {
    if n == 0 then [] else Datas(n - 1) + [MSG_DATA]
  }

  /** OPEN, from a dialler; then n times DATA. */
  function Word(dials: bool, n: nat): seq<byte> {
    (if dials then [MSG_OPEN] else []) + Datas(n)
  }

  /** The kinds of an id's records, in order, are a prefix of Open Data* Close (a dialler) or of
      Data* Close (an acceptor). */
  ghost predicate InGrammar(dials: bool, kinds: seq<byte>) {
    exists n: nat :: kinds <= Word(dials, n) + [MSG_CLOSE]
  }

  /** The kinds that a phase stands for, with n data records. */
  function Spelled(dials: bool, p: Phase, n: nat): seq<byte> {
    match p
    case Unopened => []
    case Open => Word(dials, n)
    case _ => Word(dials, n) + [MSG_CLOSE]
  }

  lemma SpellNext(dials: bool, p: Phase, n: nat, kind: byte)
    requires NextPhase(p, kind) != Late && NextPhase(p, kind) != Bad && (p == Unopened ==> dials && n == 0)
    ensures Spelled(dials, p, n) + [kind] == Spelled(dials, NextPhase(p, kind), n + if kind == MSG_DATA then 1 else 0)
  {
  }

  /** A stream whose phase is neither Late nor Bad spells what the phase stands for. */
  lemma {:induction false} PhaseSpells(dials: bool, id: Id, ms: seq<Message>)
    requires PhaseOf(dials, id, ms) != Late && PhaseOf(dials, id, ms) != Bad
    ensures Kinds(id, ms) == Spelled(dials, PhaseOf(dials, id, ms), Count(MSG_DATA, id, ms))
  {
    if |ms| > 0 {
      var init, m := ms[..|ms| - 1], ms[|ms| - 1];
      PhaseSpells(dials, id, init);
      PhaseCounts(dials, id, init);
      if m.connID == id {
        SpellNext(dials, PhaseOf(dials, id, init), Count(MSG_DATA, id, init), m.kind);
      }
    }
  }

  lemma GrammarOfPhase(dials: bool, id: Id, ms: seq<Message>)
    requires PhaseOf(dials, id, ms) != Late && PhaseOf(dials, id, ms) != Bad
    ensures InGrammar(dials, Kinds(id, ms))
  {
    PhaseSpells(dials, id, ms);
    assert Kinds(id, ms) <= Word(dials, Count(MSG_DATA, id, ms)) + [MSG_CLOSE];
  }
}
