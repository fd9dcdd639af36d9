/** Why ReadIsPrefix excludes a local Close: a run in which Read, while Close is under way, returns a
    later chunk after an earlier one was dropped. The dialler writes two chunks; the acceptor's user
    calls Close, which closes closeCh, and before it takes the connection out of the map the read
    loop drops the first chunk and queues the second, as its select may. */
module TunnelLocalClose {
  import opened Protocol
  import opened Tunnel
  import opened TunnelFifo
  import opened TunnelTheorems
  import opened TunnelPaths

  const FIRST := Message(MSG_DATA, 1, [7])
  const SECOND := Message(MSG_DATA, 1, [8])

  // ---- The dialler writes two chunks ----

  predicate TwoQueued(e: Endpoint) {
    && !e.stopped && WrittenOn(e.table, 1) == [7, 8]
    && e.out == Outbox([], [Req(FIRST, OfWrite(0)), Req(SECOND, OfWrite(1))], Phase2, [OPEN1], [], 1, 0)
  }

  predicate OneQueued(e: Endpoint) {
    && !e.stopped && InUse(e.table, 1) && !IsClosed(e.table.objs[1]) && WrittenOn(e.table, 1) == [7]
    && e.calls == Calls(map[0 := WriteCall(1, [7], Queued)], 1)
    && e.out == Outbox([], [Req(FIRST, OfWrite(0))], Phase2, [OPEN1], [], 1, 0)
  }

  lemma QueuesFirst(e0: Endpoint) returns (acts: seq<Action>)
    requires Dialled(e0)
    ensures IsPath(e0, [], acts) && OneQueued(EndOf(e0, [], acts))
  {
    acts := [OnUser(UWriteBegin(1, [7])), OnUser(UWriteEnqueue(0))];
    var e1 := Apply(e0, [], true, acts[0]);
    OneAct(e1, [], acts[1..]);
    OneAct(e0, [], acts);
  }

  lemma QueuesSecond(e0: Endpoint) returns (acts: seq<Action>)
    requires OneQueued(e0)
    ensures IsPath(e0, [], acts) && TwoQueued(EndOf(e0, [], acts))
  {
    acts := [OnUser(UWriteBegin(1, [8])), OnUser(UWriteEnqueue(1))];
    var e1 := Apply(e0, [], true, acts[0]);
    OneAct(e1, [], acts[1..]);
    OneAct(e0, [], acts);
  }

  predicate TwoWritten(e: Endpoint) {
    !e.stopped && WrittenOn(e.table, 1) == [7, 8] && e.out.sent == [OPEN1, FIRST, SECOND]
  }

  lemma WritesTwo(e0: Endpoint) returns (acts: seq<Action>)
    requires TwoQueued(e0)
    ensures IsPath(e0, [], acts) && TwoWritten(EndOf(e0, [], acts))
  {
    acts := [OnWriter(WData2), OnWriter(WDone), OnWriter(WDefault1), OnWriter(WData2), OnWriter(WDone)];
    var e1 := Apply(e0, [], true, acts[0]);
    var e2 := Apply(e1, [], true, acts[1]);
    var e3 := Apply(e2, [], true, acts[2]);
    var e4 := Apply(e3, [], true, acts[3]);
    OneAct(e4, [], acts[4..]);
    OneAct(e3, [], acts[3..]);
    OneAct(e2, [], acts[2..]);
    OneAct(e1, [], acts[1..]);
    OneAct(e0, [], acts);
  }

  // ---- The acceptor drops one and takes the other ----

  const INBOX := [OPEN1, FIRST, SECOND]

  predicate Accepted(e: Endpoint) {
    && e.got == 1 && e.reader == Idle && !e.stopped
    && e.table.conns == {1} && Known(e.table, 1) && e.table.objs[1] == NewConn(User)
  }

  lemma Accepts() returns (acts: seq<Action>)
    ensures IsPath(NewSession, INBOX, acts) && Accepted(EndOf(NewSession, INBOX, acts))
    ensures NoDial(acts)
  {
    acts := [OnReader(RReceive), OnOpen(OOffer), OnUser(UAccept)];
    var e1 := Apply(NewSession, INBOX, true, acts[0]);
    var e2 := Apply(e1, INBOX, true, acts[1]);
    OneAct(e2, INBOX, acts[2..]);
    OneAct(e1, INBOX, acts[1..]);
    OneAct(NewSession, INBOX, acts);
  }

  predicate Dropped(e: Endpoint) {
    && e.got == 2 && e.reader == Idle && !e.stopped
    && e.table.conns == {1} && Known(e.table, 1)
    && e.table.objs[1] == NewConn(User).(once := Signalled(ByUser))
  }

  lemma Drops(e0: Endpoint) returns (acts: seq<Action>)
    requires Accepted(e0)
    ensures IsPath(e0, INBOX, acts) && Dropped(EndOf(e0, INBOX, acts))
    ensures NoDial(acts)
  {
    acts := [OnReader(RReceive), OnClose(CBegin(1, ByUser)), OnClose(CSignal(1)), OnReader(RDrop)];
    var e1 := Apply(e0, INBOX, true, acts[0]);
    var e2 := Apply(e1, INBOX, true, acts[1]);
    var e3 := Apply(e2, INBOX, true, acts[2]);
    OneAct(e3, INBOX, acts[3..]);
    OneAct(e2, INBOX, acts[2..]);
    OneAct(e1, INBOX, acts[1..]);
    OneAct(e0, INBOX, acts);
  }

  lemma Takes(e0: Endpoint) returns (acts: seq<Action>)
    requires Dropped(e0)
    ensures IsPath(e0, INBOX, acts)
    ensures ReadOn(EndOf(e0, INBOX, acts).table, 1) == [8] && !EndOf(e0, INBOX, acts).stopped
    ensures NoDial(acts)
  {
    acts := [OnReader(RReceive), OnReader(RPush), OnUser(URefill(1)), OnUser(UTake(1, 1))];
    var e1 := Apply(e0, INBOX, true, acts[0]);
    var e2 := Apply(e1, INBOX, true, acts[1]);
    var e3 := Apply(e2, INBOX, true, acts[2]);
    OneAct(e3, INBOX, acts[3..]);
    OneAct(e2, INBOX, acts[2..]);
    OneAct(e1, INBOX, acts[1..]);
    OneAct(e0, INBOX, acts);
  }

  // ---- The run ----

  predicate LeavesGap(evs: seq<Event>) {
    && IsRun(evs) && OneDialler(evs) && After(evs).up && !After(evs).dialler.stopped && !After(evs).acceptor.stopped
    && WrittenOn(After(evs).dialler.table, 1) == [7, 8] && ReadOn(After(evs).acceptor.table, 1) == [8]
  }

  /** Neither end has failed or stopped, and Read has returned the second byte without the first. */
  lemma LocalCloseLeavesGap()
    ensures exists evs :: LeavesGap(evs)
  {
    var evs := DialsFirst();
    var one := QueuesFirst(After(evs).dialler);
    evs := PathIsRun(evs, Dialler, one);
    var two := QueuesSecond(After(evs).dialler);
    evs := PathIsRun(evs, Dialler, two);
    var write := WritesTwo(After(evs).dialler);
    evs := PathIsRun(evs, Dialler, write);
    evs := AcceptorTakesSecond(evs);
    assert LeavesGap(evs);
  }

  lemma AcceptorTakesSecond(before: seq<Event>) returns (evs: seq<Event>)
    requires IsRun(before) && OneDialler(before) && After(before).up
    requires After(before).acceptor == NewSession && After(before).dialler.out.sent == INBOX
    ensures IsRun(evs) && OneDialler(evs) && After(evs).up && After(evs).dialler == After(before).dialler
    ensures ReadOn(After(evs).acceptor.table, 1) == [8] && !After(evs).acceptor.stopped
  {
    var accept := Accepts();
    evs := PathIsRun(before, Acceptor, accept);
    var drop := Drops(After(evs).acceptor);
    evs := PathIsRun(evs, Acceptor, drop);
    var take := Takes(After(evs).acceptor);
    evs := PathIsRun(evs, Acceptor, take);
  }
}
