/** When data can follow a CLOSE on the wire: exactly if a Write is pending while the user calls Close.
    A Write that has passed its check of the closed flag is not stopped by Close, and control records
    overtake data. */
module TunnelLateWrite {
  import opened Protocol
  import opened Tunnel
  import opened TunnelEndpoint
  import opened TunnelFrames
  import opened TunnelWire
  import opened TunnelPair
  import opened TunnelTheorems
  import opened TunnelControl
  import opened TunnelPaths

  // ---- A running write loop ----

  /** The request is not that of a Write which has yet to queue it. */
  predicate Issued(c: Calls, r: Req) {
    r.origin.OfWrite? ==>
      var t := r.origin.ticket; t < c.tickets && (t in c.writes ==> c.writes[t].stage != ToSend)
  }

  /** Every data request was queued by its Write, and the write loop ends only by a stop. */
  predicate Running(e: Endpoint) {
    && (forall t | t in e.calls.writes :: t < e.calls.tickets)
    && (forall i | 0 <= i < |e.out.controlCh| :: Issued(e.calls, e.out.controlCh[i]))
    && (forall i | 0 <= i < |e.out.dataCh| :: Issued(e.calls, e.out.dataCh[i]))
    && (e.out.writer.Writing? ==> Issued(e.calls, e.out.writer.req))
    && (e.out.writer == WriterDone ==> e.stopped)
  }

  lemma WriterRuns(e: Endpoint, up: bool, w: WriterStep)
    requires CanWriter(e, up, w) && Running(e)
    ensures Running(DoWriter(e, up, w))
  {
  }

  lemma UserRuns(e: Endpoint, u: UserStep)
    requires CanUse(e, u) && Running(e)
    ensures Running(DoUse(e, u))
  {
  }

  lemma ControlRuns(e: Endpoint, inbox: seq<Message>, up: bool, a: Action)
    requires Enabled(e, inbox, up, a) && Running(e) && !a.OnWriter? && !a.OnUser?
    ensures Running(Apply(e, inbox, up, a))
  {
    OthersCalls(e, inbox, up, a);
    CountersFrame(e, inbox, up, a);
  }

  lemma StepRuns(e: Endpoint, inbox: seq<Message>, up: bool, a: Action)
    requires Enabled(e, inbox, up, a) && Running(e)
    ensures Running(Apply(e, inbox, up, a))
  {
    match a {
      case OnWriter(w) => WriterRuns(e, up, w);
      case OnUser(u) => UserRuns(e, u);
      case _ => ControlRuns(e, inbox, up, a);
    }
  }

  lemma {:induction false} AlwaysRunning(evs: seq<Event>, side: Side)
    requires IsRun(evs)
    ensures Running(At(After(evs), side))
    decreases |evs|
  {
    if |evs| > 0 {
      var init, ev := evs[..|evs| - 1], evs[|evs| - 1];
      AlwaysRunning(init, side);
      if ev.Step? && ev.side == side {
        StepRuns(At(After(init), side), At(After(init), Other(side)).out.sent, After(init).up, ev.action);
      }
    }
  }

  // ---- The write loop empties its queues ----

  /** What the write loop leaves as it is: connections about to send their CLOSE, Writes about to queue
      their record. */
  predicate Calm(e: Endpoint, e': Endpoint) {
    && e'.table.objs.Keys == e.table.objs.Keys && e'.table.nextID == e.table.nextID && e'.stopped == e.stopped
    && (forall x | x in e.table.objs && e.table.objs[x].once == Sending(ToSend) ::
          e'.table.objs[x].once == Sending(ToSend))
    && (forall t | t in e.calls.writes && e.calls.writes[t].stage == ToSend ::
          t in e'.calls.writes && e'.calls.writes[t] == e.calls.writes[t])
  }

  lemma CalmStep(e: Endpoint, w: WriterStep)
    requires CanWriter(e, true, w) && Running(e)
    ensures Calm(e, DoWriter(e, true, w)) && Running(DoWriter(e, true, w))
  {
    WriterRuns(e, true, w);
  }

  lemma CalmTrans(a: Endpoint, b: Endpoint, c: Endpoint)
    requires Calm(a, b) && Calm(b, c)
    ensures Calm(a, c)
  {
  }

  /** The records that leave before the next one that is queued. */
  function ControlOut(o: Outbox): seq<Message> {
    o.sent + Held(o.writer) + Msgs(o.controlCh)
  }

  predicate Goes(e: Endpoint) {
    !e.stopped && Running(e)
  }

  /** The step by which the write loop empties the control queue. */
  function NextControl(e: Endpoint): WriterStep
    requires Goes(e) && (e.out.writer.Writing? || |e.out.controlCh| > 0)
  {
    if e.out.writer.Writing? then WDone else if e.out.writer == Phase1 then WControl1 else WControl2
  }

  lemma ControlGoesOn(e: Endpoint)
    requires Goes(e) && (e.out.writer.Writing? || |e.out.controlCh| > 0)
    ensures CanWriter(e, true, NextControl(e))
    ensures var e' := DoWriter(e, true, NextControl(e));
      && Goes(e') && Calm(e, e') && ControlOut(e'.out) == ControlOut(e.out) && e'.out.dataCh == e.out.dataCh
      && 2 * |e'.out.controlCh| + |Held(e'.out.writer)| < 2 * |e.out.controlCh| + |Held(e.out.writer)|
  {
    CalmStep(e, NextControl(e));
    if !e.out.writer.Writing? {
      MsgsPop(e.out.controlCh);
    }
  }

  lemma {:induction false} DrainsControl(e: Endpoint, inbox: seq<Message>) returns (acts: seq<Action>)
    requires Goes(e)
    ensures IsPath(e, inbox, acts) && MakesNone(acts)
    ensures var e' := EndOf(e, inbox, acts);
      && Goes(e') && Calm(e, e') && !e'.out.writer.Writing? && e'.out.controlCh == []
      && e'.out.sent == ControlOut(e.out) && e'.out.dataCh == e.out.dataCh
    decreases 2 * |e.out.controlCh| + |Held(e.out.writer)|
  {
    acts := [];
    if e.out.writer.Writing? || |e.out.controlCh| > 0 {
      var w := NextControl(e);
      ControlGoesOn(e);
      var e1 := DoWriter(e, true, w);
      var rest := DrainsControl(e1, inbox);
      acts := [OnWriter(w)] + rest;
      assert acts[1..] == rest;
      OneAct(e, inbox, acts);
      CalmTrans(e, e1, EndOf(e1, inbox, rest));
    } else {
      assert e.out.sent + [] + [] == e.out.sent;
    }
  }

  /** The same with the data queue behind an empty control queue. */
  function DataOut(o: Outbox): seq<Message> {
    o.sent + Held(o.writer) + Msgs(o.dataCh)
  }

  function NextData(e: Endpoint): WriterStep
    requires Goes(e) && (e.out.writer.Writing? || |e.out.dataCh| > 0)
  {
    if e.out.writer.Writing? then WDone else if e.out.writer == Phase1 then WDefault1 else WData2
  }

  function Rank(w: Writer): nat {
    if w.Writing? then 2 else if w == Phase1 then 1 else 0
  }

  lemma DataGoesOn(e: Endpoint)
    requires Goes(e) && e.out.controlCh == [] && (e.out.writer.Writing? || |e.out.dataCh| > 0)
    ensures CanWriter(e, true, NextData(e))
    ensures var e' := DoWriter(e, true, NextData(e));
      && Goes(e') && Calm(e, e') && DataOut(e'.out) == DataOut(e.out) && e'.out.controlCh == []
      && 3 * |e'.out.dataCh| + Rank(e'.out.writer) < 3 * |e.out.dataCh| + Rank(e.out.writer)
  {
    CalmStep(e, NextData(e));
    if e.out.writer == Phase2 {
      MsgsPop(e.out.dataCh);
    }
  }

  lemma {:induction false} DrainsData(e: Endpoint, inbox: seq<Message>) returns (acts: seq<Action>)
    requires Goes(e) && e.out.controlCh == []
    ensures IsPath(e, inbox, acts) && MakesNone(acts)
    ensures var e' := EndOf(e, inbox, acts);
      && Goes(e') && Calm(e, e') && !e'.out.writer.Writing? && e'.out.controlCh == [] && e'.out.dataCh == []
      && e'.out.sent == DataOut(e.out)
    decreases 3 * |e.out.dataCh| + Rank(e.out.writer)
  {
    acts := [];
    if e.out.writer.Writing? || |e.out.dataCh| > 0 {
      var w := NextData(e);
      DataGoesOn(e);
      var e1 := DoWriter(e, true, w);
      var rest := DrainsData(e1, inbox);
      acts := [OnWriter(w)] + rest;
      assert acts[1..] == rest;
      OneAct(e, inbox, acts);
      CalmTrans(e, e1, EndOf(e1, inbox, rest));
    } else {
      assert e.out.sent + [] + [] == e.out.sent;
    }
  }

  // ---- CLOSE, and then the data ----

  /** Close's once-body up to its send. */
  lemma ClosesUp(e: Endpoint, inbox: seq<Message>, id: Id) returns (acts: seq<Action>)
    requires Goes(e) && OnceIs(e.table, id, Marked(ByUser))
    ensures IsPath(e, inbox, acts) && MakesNone(acts)
    ensures var e' := EndOf(e, inbox, acts);
      Goes(e') && OnceIs(e'.table, id, Sending(ToSend)) && e'.out == e.out && e'.calls == e.calls
      && e'.table.objs.Keys == e.table.objs.Keys && e'.table.nextID == e.table.nextID
  {
    acts := [OnClose(CSignal(id)), OnClose(CUnlist(id))];
    OneAct(Apply(e, inbox, true, acts[0]), inbox, acts[1..]);
    OneAct(e, inbox, acts);
  }

  /** Its send, given room. */
  lemma QueuesClose(e: Endpoint, inbox: seq<Message>, id: Id) returns (acts: seq<Action>)
    requires Goes(e) && OnceIs(e.table, id, Sending(ToSend)) && e.out.controlCh == []
    ensures IsPath(e, inbox, acts) && MakesNone(acts)
    ensures var e' := EndOf(e, inbox, acts);
      Goes(e') && e'.out == Control(e.out, Message(MSG_CLOSE, id, []), OfClose(id)) && e'.calls == e.calls
      && e'.table.objs.Keys == e.table.objs.Keys && e'.table.nextID == e.table.nextID
  {
    acts := [OnClose(CEnqueue(id))];
    StepRuns(e, inbox, true, acts[0]);
    OneAct(e, inbox, acts);
  }

  /** What is left of e at e': all that is pending. */
  predicate StillPending(e: Endpoint, e': Endpoint) {
    && e'.out.dataCh == e.out.dataCh && e'.table.objs.Keys == e.table.objs.Keys && e'.table.nextID == e.table.nextID
    && (forall t | t in e.calls.writes && e.calls.writes[t].stage == ToSend ::
          t in e'.calls.writes && e'.calls.writes[t] == e.calls.writes[t])
  }

  /** A run goes on by steps of one end. */
  predicate GoesOn(evs: seq<Event>, more: seq<Event>, side: Side) {
    IsRun(evs) && IsRun(more) && evs <= more
    && (NoneCollided(evs) ==> NoneCollided(more)) && (OneDialler(evs) ==> OneDialler(more))
    && After(more).up && Goes(At(After(more), side))
  }

  lemma ReachesQueue(evs: seq<Event>, side: Side, id: Id) returns (more: seq<Event>)
    requires IsRun(evs) && After(evs).up && Goes(At(After(evs), side))
    requires OnceIs(At(After(evs), side).table, id, Marked(ByUser))
    ensures GoesOn(evs, more, side)
    ensures var e, e' := At(After(evs), side), At(After(more), side);
      StillPending(e, e') && e'.out.controlCh == [Req(Message(MSG_CLOSE, id, []), OfClose(id))]
      && !e'.out.writer.Writing?
  {
    var inbox := At(After(evs), Other(side)).out.sent;
    var close := ClosesUp(At(After(evs), side), inbox, id);
    more := PathIsRun(evs, side, close);
    var first := DrainsControl(At(After(more), side), inbox);
    more := PathIsRun(more, side, first);
    var queue := QueuesClose(At(After(more), side), inbox, id);
    more := PathIsRun(more, side, queue);
  }

  lemma WritesClose(evs: seq<Event>, side: Side, id: Id) returns (more: seq<Event>)
    requires IsRun(evs) && After(evs).up && Goes(At(After(evs), side))
    requires OnceIs(At(After(evs), side).table, id, Marked(ByUser))
    ensures GoesOn(evs, more, side)
    ensures var e, e' := At(After(evs), side), At(After(more), side);
      StillPending(e, e') && e'.out.controlCh == [] && !e'.out.writer.Writing? && Count(MSG_CLOSE, id, e'.out.sent) > 0
  {
    more := ReachesQueue(evs, side, id);
    ghost var o := At(After(more), side).out;
    var last := DrainsControl(At(After(more), side), At(After(more), Other(side)).out.sent);
    more := PathIsRun(more, side, last);
    assert ControlOut(o) == o.sent + [Message(MSG_CLOSE, id, [])];
    CountOne(MSG_CLOSE, id, o.sent, Message(MSG_CLOSE, id, []));
  }

  lemma {:induction false} OneOf(id: Id, q: seq<Req>, i: nat)
    requires i < |q| && Is(q[i].msg, MSG_DATA, id)
    ensures Count(MSG_DATA, id, Msgs(q)) > 0
  {
    CountPrefix(MSG_DATA, id, Msgs(q), i);
  }

  /** The data queue is written out, behind what is on the wire. */
  lemma WritesData(evs: seq<Event>, side: Side) returns (more: seq<Event>)
    requires IsRun(evs) && After(evs).up && Goes(At(After(evs), side)) && At(After(evs), side).out.controlCh == []
    requires !At(After(evs), side).out.writer.Writing?
    ensures GoesOn(evs, more, side)
    ensures var e, e' := At(After(evs), side), At(After(more), side);
      Calm(e, e') && e'.out.controlCh == [] && e'.out.dataCh == [] && !e'.out.writer.Writing?
      && e'.out.sent == e.out.sent + Msgs(e.out.dataCh)
  {
    var acts := DrainsData(At(After(evs), side), At(After(evs), Other(side)).out.sent);
    more := PathIsRun(evs, side, acts);
    ghost var o := At(After(evs), side).out;
    assert o.sent + [] == o.sent;
  }

  /** A Write that has not queued its record yet does so, and the write loop takes it. */
  lemma QueuesData(evs: seq<Event>, side: Side, t: nat) returns (more: seq<Event>)
    requires IsRun(evs) && After(evs).up && Goes(At(After(evs), side))
    requires var e := At(After(evs), side);
      && t in e.calls.writes && e.calls.writes[t].stage == ToSend && Known(e.table, e.calls.writes[t].id)
      && e.out.dataCh == []
    ensures GoesOn(evs, more, side)
    ensures var e, e' := At(After(evs), side), At(After(more), side);
      e'.out.sent == e.out.sent && e'.out.controlCh == e.out.controlCh && e'.out.writer == e.out.writer
      && e'.table.nextID == e.table.nextID
      && |e'.out.dataCh| == 1 && Is(e'.out.dataCh[0].msg, MSG_DATA, e.calls.writes[t].id)
  {
    var e := At(After(evs), side);
    var inbox := At(After(evs), Other(side)).out.sent;
    var acts := [OnUser(UWriteEnqueue(t))];
    OneAct(e, inbox, acts);
    StepRuns(e, inbox, true, acts[0]);
    more := PathIsRun(evs, side, acts);
  }

  /** The write loop empties the data queue, then takes the record of a Write that had yet to queue it. */
  lemma WritesLast(evs: seq<Event>, side: Side, t: nat) returns (more: seq<Event>, late: seq<Message>)
    requires IsRun(evs) && After(evs).up && Goes(At(After(evs), side)) && At(After(evs), side).out.controlCh == []
    requires !At(After(evs), side).out.writer.Writing?
    requires var e := At(After(evs), side);
      t in e.calls.writes && e.calls.writes[t].stage == ToSend && Known(e.table, e.calls.writes[t].id)
    ensures GoesOn(evs, more, side)
    ensures Count(MSG_DATA, At(After(evs), side).calls.writes[t].id, late) > 0
    ensures At(After(more), side).out.sent == At(After(evs), side).out.sent + late
    ensures At(After(more), side).table.nextID == At(After(evs), side).table.nextID
  {
    var e := At(After(evs), side);
    var empty := WritesData(evs, side);
    var queued := QueuesData(empty, side, t);
    var q := At(After(queued), side).out.dataCh;
    OneOf(e.calls.writes[t].id, q, 0);
    CountConcat(MSG_DATA, e.calls.writes[t].id, Msgs(e.out.dataCh), Msgs(q));
    more := WritesData(queued, side);
    late := Msgs(e.out.dataCh) + Msgs(q);
  }

  /** Behind the CLOSE the pending data is written. */
  lemma WritesPending(evs: seq<Event>, side: Side, id: Id) returns (more: seq<Event>, late: seq<Message>)
    requires IsRun(evs) && After(evs).up && Goes(At(After(evs), side)) && At(After(evs), side).out.controlCh == []
    requires !At(After(evs), side).out.writer.Writing? && Queues(At(After(evs), side).out)
    requires WritePending(At(After(evs), side), id) && Known(At(After(evs), side).table, id)
    ensures GoesOn(evs, more, side) && Count(MSG_DATA, id, late) > 0
    ensures At(After(more), side).out.sent == At(After(evs), side).out.sent + late
    ensures At(After(more), side).table.nextID == At(After(evs), side).table.nextID
  {
    var e := At(After(evs), side);
    if i :| 0 <= i < |e.out.dataCh| && e.out.dataCh[i].msg.connID == id {
      more := WritesData(evs, side);
      late := Msgs(e.out.dataCh);
      OneOf(id, e.out.dataCh, i);
    } else {
      var t :| t in e.calls.writes && e.calls.writes[t].id == id && e.calls.writes[t].stage == ToSend;
      more, late := WritesLast(evs, side, t);
    }
  }

  /** Data behind a CLOSE puts the id in the phase Late. */
  lemma {:induction false} DataBehindClose(own: bool, id: Id, ms: seq<Message>, late: seq<Message>)
    requires PhaseOf(own, id, ms) == Closed || PhaseOf(own, id, ms) == Late
    requires PhaseOf(own, id, ms + late) != Bad
    ensures PhaseOf(own, id, ms + late) == if Count(MSG_DATA, id, late) > 0 then Late else PhaseOf(own, id, ms)
    decreases |late|
  {
    if |late| == 0 {
      assert ms + late == ms;
    } else {
      var init := late[..|late| - 1];
      assert (ms + late)[..|ms + late| - 1] == ms + init;
      DataBehindClose(own, id, ms, init);
    }
  }

  // ---- Exactly when ----

  function CallsClose(evs: seq<Event>, side: Side, id: Id): seq<Event> {
    evs + [Step(side, OnClose(CBegin(id, ByUser)))]
  }

  /** A run in which the user's Close of the connection comes next, and which ends with data behind
      the CLOSE, without a stop. */
  predicate LateRun(evs: seq<Event>, more: seq<Event>, side: Side, id: Id) {
    && IsRun(more) && NoneCollided(more) && CallsClose(evs, side, id) <= more
    && var e := At(After(more), side); !e.stopped && PhaseOf(Own(e, id), id, e.out.sent) == Late
  }

  /** The user may call Close now: nobody has closed the connection, and the session works. */
  predicate AboutToClose(evs: seq<Event>, side: Side, id: Id) {
    && IsRun(evs) && NoneCollided(evs) && After(evs).up && !At(After(evs), side).stopped
    && CanCloseBegin(At(After(evs), side), id, ByUser)
  }

  lemma ClosesCalled(evs: seq<Event>, side: Side, id: Id)
    requires AboutToClose(evs, side, id)
    ensures var more := CallsClose(evs, side, id);
      && IsRun(more) && NoneCollided(more) && After(more).up
      && At(After(more), side) == CloseBegin(At(After(evs), side), id, ByUser)
  {
    var ev := Step(side, OnClose(CBegin(id, ByUser)));
    Then(evs, ev);
    assert (evs + [ev])[..|evs|] == evs;
  }

  lemma PendingGoesLate(evs: seq<Event>, side: Side, id: Id) returns (more: seq<Event>)
    requires AboutToClose(evs, side, id) && WritePending(At(After(evs), side), id)
    ensures LateRun(evs, more, side, id) && (OneDialler(evs) ==> OneDialler(more))
  {
    var called := CallsClose(evs, side, id);
    ClosesCalled(evs, side, id);
    AlwaysRunning(called, side);
    assert OneDialler(evs) ==> OneDialler(called);
    var closed := WritesClose(called, side, id);
    RunsKeep(closed);
    var e := At(After(closed), side);
    assert SentOk(e, id);
    PhaseCounts(Own(e, id), id, e.out.sent);
    var late;
    more, late := WritesPending(closed, side, id);
    RunsKeep(more);
    assert SentOk(At(After(more), side), id);
    DataBehindClose(Own(e, id), id, e.out.sent, late);
  }

  /** A connection whose user has begun to close it, in order so far. */
  predicate ClosingInOrder(e: Endpoint, id: Id) {
    Known(e.table, id) && UserClosed(e.table.objs[id].once) && Quiet(e, id) && NotLate(e, id)
  }

  lemma ClosingStep(p: Pair, ev: Event, side: Side, id: Id)
    requires PairOk(p) && CanHappen(p, ev) && !Collides(p, ev) && ClosingInOrder(At(p, side), id)
    ensures ClosingInOrder(At(Happen(p, ev), side), id)
  {
    GrammarStep(p, ev, side, id);
    if ev.Step? && ev.side == side {
      StepFrame(At(p, side), At(p, Other(side)).out.sent, p.up, ev.action, id);
    }
  }

  lemma {:induction false} ClosesInOrder(evs: seq<Event>, n: nat, side: Side, id: Id)
    requires IsRun(evs) && NoneCollided(evs) && n <= |evs|
    requires ClosingInOrder(At(AfterFirst(evs, n), side), id)
    ensures ClosingInOrder(At(After(evs), side), id)
    decreases |evs|
  {
    if n < |evs| {
      var init := evs[..|evs| - 1];
      assert init[..n] == evs[..n];
      ClosesInOrder(init, n, side, id);
      RunsKeep(init);
      ClosingStep(After(init), evs[|evs| - 1], side, id);
    } else {
      assert evs[..n] == evs;
    }
  }

  lemma NoneGoesLate(evs: seq<Event>, more: seq<Event>, side: Side, id: Id)
    requires AboutToClose(evs, side, id) && !WritePending(At(After(evs), side), id)
    ensures !LateRun(evs, more, side, id)
  {
    var called := CallsClose(evs, side, id);
    if IsRun(more) && NoneCollided(more) && called <= more {
      RunsKeep(evs);
      ClosesCalled(evs, side, id);
      BeginsInOrder(At(After(evs), side), id);
      assert more[..|called|] == called;
      ClosesInOrder(more, |called|, side, id);
    }
  }

  lemma BeginsInOrder(e: Endpoint, id: Id)
    requires EndpointOk(e) && SentOk(e, id) && CanCloseBegin(e, id, ByUser) && !WritePending(e, id)
    ensures ClosingInOrder(CloseBegin(e, id, ByUser), id)
  {
    assert IdTotals(e, id);
    NoCloseBefore(e, id);
    PhaseCounts(Own(e, id), id, e.out.sent);
  }

  /** When the user calls Close, data can end up behind the CLOSE if and only if at that moment a Write
      on the connection has yet to queue its record or its record is still in the data queue. A Write
      whose record is being written or written does no harm, although it has not returned. */
  lemma LateExactly(evs: seq<Event>, side: Side, id: Id)
    requires AboutToClose(evs, side, id)
    ensures (exists more :: LateRun(evs, more, side, id)) <==> WritePending(At(After(evs), side), id)
  {
    if WritePending(At(After(evs), side), id) {
      var more := PendingGoesLate(evs, side, id);
    } else {
      forall more
        ensures !LateRun(evs, more, side, id)
      {
        NoneGoesLate(evs, more, side, id);
      }
    }
  }

  // ---- It does happen ----

  lemma WriteBegins(e: Endpoint, acts: seq<Action>)
    requires Dialled(e) && acts == [OnUser(UWriteBegin(1, [7]))]
    ensures IsPath(e, [], acts) && MakesNone(acts)
    ensures var e' := EndOf(e, [], acts);
      WritePending(e', 1) && !e'.stopped && CanCloseBegin(e', 1, ByUser)
  {
    OneAct(e, [], acts);
    assert 0 in Apply(e, [], true, acts[0]).calls.writes;
  }

  /** A run of two sessions of which one dials, without any failure or stop, with data behind CLOSE. */
  lemma LateWriteFollowsClose()
    ensures exists evs, more :: LateRun(evs, more, Dialler, 1) && OneDialler(more)
  {
    var evs := DialsFirst();
    var acts := [OnUser(UWriteBegin(1, [7]))];
    WriteBegins(After(evs).dialler, acts);
    evs := PathIsRun(evs, Dialler, acts);
    OneDiallerNeverCollides(evs);
    var more := PendingGoesLate(evs, Dialler, 1);
  }
}
