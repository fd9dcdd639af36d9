/** Control records over whole runs: the grammar of each connection's records, no echo of CLOSE,
    and the price that control pays for sharing the writer with data. */
module TunnelControl {
  import opened Protocol
  import opened Tunnel
  import opened TunnelEndpoint
  import opened TunnelFrames
  import opened TunnelWire
  import opened TunnelPair
  import opened TunnelTheorems

  // ---- Wire grammar ----

  /** In the run, whenever the user of an end closes the connection, none of its Writes is pending. */
  predicate TidyRun(evs: seq<Event>, side: Side, id: Id)
    requires IsRun(evs)
  {
    |evs| == 0 ||
    (TidyRun(evs[..|evs| - 1], side, id)
     && (evs[|evs| - 1].Step? && evs[|evs| - 1].side == side ==>
           Tidy(At(After(evs[..|evs| - 1]), side), evs[|evs| - 1].action, id)))
  }

  lemma GrammarStep(p: Pair, ev: Event, side: Side, id: Id)
    requires PairOk(p) && CanHappen(p, ev) && !Collides(p, ev)
    requires Quiet(At(p, side), id) && NotLate(At(p, side), id)
    requires ev.Step? && ev.side == side ==> Tidy(At(p, side), ev.action, id)
    ensures Quiet(At(Happen(p, ev), side), id) && NotLate(At(Happen(p, ev), side), id)
  {
    if ev.Step? && ev.side == side {
      var e, inbox := At(p, side), At(p, Other(side)).out.sent;
      assert SentOk(e, id);
      QuietKeeps(e, inbox, p.up, ev.action, id);
      NotLateKeeps(e, inbox, p.up, ev.action, id);
    }
  }

  lemma {:induction false} GrammarKeeps(evs: seq<Event>, side: Side, id: Id)
    requires IsRun(evs) && NoneCollided(evs) && TidyRun(evs, side, id)
    ensures Quiet(At(After(evs), side), id) && NotLate(At(After(evs), side), id)
    decreases |evs|
  {
    if |evs| > 0 {
      var init := evs[..|evs| - 1];
      GrammarKeeps(init, side, id);
      RunsKeep(init);
      GrammarStep(After(init), evs[|evs| - 1], side, id);
    }
  }

  /** The records an end has written for an id are a prefix of Open Data* Close (an id that it has
      dialled) or of Data* Close (any other), although control records overtake data, if no Write on
      that connection is pending when its Close is called. */
  lemma WireGrammar(evs: seq<Event>, side: Side, id: Id)
    requires IsRun(evs) && NoneCollided(evs) && TidyRun(evs, side, id)
    ensures var e := At(After(evs), side); InGrammar(Own(e, id), Kinds(id, e.out.sent))
  {
    GrammarKeeps(evs, side, id);
    var e := At(After(evs), side);
    GrammarOfPhase(Own(e, id), id, e.out.sent);
  }

  // ---- No close echo ----

  /** Each end emits at most one CLOSE per id, whatever closes it; at most one OPEN for an id that it
      has dialled, and none for another. Emitted counts what was written, failed, is being written or
      is queued. */
  lemma NoCloseEcho(evs: seq<Event>, side: Side, id: Id)
    requires IsRun(evs) && NoneCollided(evs)
    ensures var e := At(After(evs), side);
      Total(e.out, MSG_OPEN, id) <= (if Own(e, id) then 1 else 0) && Total(e.out, MSG_CLOSE, id) <= 1
  {
    RunsKeep(evs);
    assert IdTotals(At(After(evs), side), id);
  }

  /** A connection whose once-body has completed is not in the conns map. */
  lemma ClosedIsGone(evs: seq<Event>, side: Side, id: Id)
    requires IsRun(evs) && NoneCollided(evs)
    ensures var t := At(After(evs), side).table;
      id in t.conns ==> Known(t, id) && !t.objs[id].once.Done? && !t.objs[id].once.Sending?
  {
    RunsKeep(evs);
    assert IdTotals(At(After(evs), side), id);
  }

  lemma DoneFrame(e: Endpoint, inbox: seq<Message>, up: bool, a: Action, id: Id)
    requires Enabled(e, inbox, up, a) && Admissible(e, inbox, a)
    requires Known(e.table, id) && e.table.objs[id].once.Done?
    ensures var t := Apply(e, inbox, up, a).table; Known(t, id) && t.objs[id].once == e.table.objs[id].once
  {
    StepFrame(e, inbox, up, a, id);
  }

  lemma RunPrefix(evs: seq<Event>, n: nat)
    requires IsRun(evs) && n <= |evs|
    ensures IsRun(evs[..n])
    decreases |evs|
  {
    if n < |evs| {
      assert evs[..|evs| - 1][..n] == evs[..n];
      RunPrefix(evs[..|evs| - 1], n);
    } else {
      assert evs[..n] == evs;
    }
  }

  /** The state after the first n events of a run. */
  function AfterFirst(evs: seq<Event>, n: nat): Pair
    requires IsRun(evs) && n <= |evs|
  {
    RunPrefix(evs, n);
    After(evs[..n])
  }

  /** And it never comes back to the map. */
  lemma {:induction false} GoneForGood(evs: seq<Event>, n: nat, side: Side, id: Id)
    requires IsRun(evs) && NoneCollided(evs) && n <= |evs|
    requires var t := At(AfterFirst(evs, n), side).table; Known(t, id) && t.objs[id].once.Done?
    ensures var t := At(After(evs), side).table; Known(t, id) && t.objs[id].once.Done? && id !in t.conns
    decreases |evs|
  {
    if n < |evs| {
      var init, ev := evs[..|evs| - 1], evs[|evs| - 1];
      assert init[..n] == evs[..n];
      GoneForGood(init, n, side, id);
      if ev.Step? && ev.side == side {
        RunsKeep(init);
        DoneFrame(At(After(init), side), At(After(init), Other(side)).out.sent,
                  After(init).up, ev.action, id);
      }
    } else {
      assert evs[..n] == evs;
    }
    ClosedIsGone(evs, side, id);
  }

  // ---- At most three control records per Dial ----

  predicate IsControl(m: Message) {
    m.kind != MSG_DATA
  }

  function Controls(ms: seq<Message>): nat {
    if |ms| == 0 then 0 else Controls(ms[..|ms| - 1]) + if IsControl(ms[|ms| - 1]) then 1 else 0
  }

  /** The OPEN and CLOSE records of the ids 1 to n. */
  function ControlsOf(ms: seq<Message>, n: nat): nat {
    if n == 0 then 0 else ControlsOf(ms, n - 1) + Count(MSG_OPEN, n, ms) + Count(MSG_CLOSE, n, ms)
  }

  lemma {:induction false} ControlsOfOne(ms: seq<Message>, n: nat)
    requires |ms| > 0
    ensures var m := ms[|ms| - 1];
      ControlsOf(ms, n) == ControlsOf(ms[..|ms| - 1], n)
        + if 1 <= m.connID <= n && (m.kind == MSG_OPEN || m.kind == MSG_CLOSE) then 1 else 0
  {
    if n > 0 {
      ControlsOfOne(ms, n - 1);
    }
  }

  lemma {:induction false} ControlsSum(ms: seq<Message>, n: nat)
    requires forall i | 0 <= i < |ms| :: KnownKind(ms[i].kind) && 1 <= ms[i].connID <= n
    ensures Controls(ms) == ControlsOf(ms, n)
  {
    if |ms| > 0 {
      ControlsSum(ms[..|ms| - 1], n);
      ControlsOfOne(ms, n);
    } else {
      NoControls(n);
    }
  }

  lemma {:induction false} NoControls(n: nat)
    ensures ControlsOf([], n) == 0
  {
    if n > 0 {
      NoControls(n - 1);
    }
  }

  /** At most one OPEN for each of the ids 1 to own, none for others, at most one CLOSE for each. */
  predicate Few(ms: seq<Message>, own: nat, id: Id) {
    Count(MSG_OPEN, id, ms) <= (if id <= own then 1 else 0) && Count(MSG_CLOSE, id, ms) <= 1
  }

  lemma {:induction false} ControlsBound(ms: seq<Message>, n: nat, own: nat)
    requires forall id :: Few(ms, own, id)
    ensures ControlsOf(ms, n) <= n + if n <= own then n else own
  {
    if n > 0 {
      ControlsBound(ms, n - 1, own);
      assert Few(ms, own, n);
    }
  }

  lemma {:induction false} KindsAreKnown(dials: bool, ms: seq<Message>, i: nat)
    requires i < |ms| && PhaseOf(dials, ms[i].connID, ms) != Bad
    ensures KnownKind(ms[i].kind)
  {
    if i < |ms| - 1 {
      KindsAreKnown(dials, ms[..|ms| - 1], i);
    }
  }

  function Max(a: nat, b: nat): nat {
    if a < b then b else a
  }

  /** The ids dialled at either end are 1 to this. */
  function MostDials(p: Pair): nat {
    Max(p.dialler.table.nextID, p.acceptor.table.nextID)
  }

  /** Every record written has one of the three kinds and a dialled id. */
  lemma SentIsDialled(p: Pair, side: Side, i: nat)
    requires PairOk(p) && i < |At(p, side).out.sent|
    ensures var m := At(p, side).out.sent[i]; KnownKind(m.kind) && 1 <= m.connID <= MostDials(p)
  {
    var e, peer := At(p, side), At(p, Other(side));
    var m := e.out.sent[i];
    assert SentOk(e, m.connID) && IdTotals(e, m.connID);
    KindsAreKnown(Own(e, m.connID), e.out.sent, i);
    CountPrefix(m.kind, m.connID, e.out.sent, i);
    assert Known(e.table, m.connID);
    if !Own(e, m.connID) {
      assert KnowsIds(e, peer.out.sent, m.connID);
      CountPrefix(MSG_OPEN, m.connID, peer.out.sent, e.got);
      OpensOnce(p, Other(side), m.connID);
    }
  }

  lemma SideControls(p: Pair, side: Side)
    requires PairOk(p)
    ensures Controls(At(p, side).out.sent) <= At(p, side).table.nextID + MostDials(p)
  {
    var e, n := At(p, side), MostDials(p);
    forall i | 0 <= i < |e.out.sent|
      ensures KnownKind(e.out.sent[i].kind) && 1 <= e.out.sent[i].connID <= n
    {
      SentIsDialled(p, side, i);
    }
    ControlsSum(e.out.sent, n);
    forall id: Id
      ensures Few(e.out.sent, e.table.nextID, id)
    {
      assert IdTotals(e, id);
    }
    ControlsBound(e.out.sent, n, e.table.nextID);
  }

  /** Both ends together write an OPEN per Dial and two CLOSEs per id: with one dialler at most three
      control records per Dial, with two at most that, and less if their ids overlap. */
  lemma ThreeControlsPerDial(evs: seq<Event>)
    requires IsRun(evs) && NoneCollided(evs)
    ensures var p := After(evs);
      Controls(p.dialler.out.sent) + Controls(p.acceptor.out.sent)
      <= p.dialler.table.nextID + p.acceptor.table.nextID + 2 * MostDials(p)
  {
    RunsKeep(evs);
    SideControls(After(evs), Dialler);
    SideControls(After(evs), Acceptor);
  }

  // ---- Bounded overtaking ----

  /** One when the write loop has passed its control-only phase and may pick data next. */
  function Credit(w: Writer): nat {
    if w == Phase2 || (w.Writing? && w.toPhase2) then 1 else 0
  }

  lemma CountersGrow(e: Endpoint, inbox: seq<Message>, up: bool, a: Action)
    requires Enabled(e, inbox, up, a)
    ensures Apply(e, inbox, up, a).out.controlPicks >= e.out.controlPicks
    ensures (e.stopped ==> Apply(e, inbox, up, a).stopped)
  {
  }

  /** From o to o', the request at index i of o's control queue has only moved up, and data has
      been picked at most once more than control. */
  predicate Overtaken(o: Outbox, o': Outbox, i: nat) {
    var d := o'.controlPicks - o.controlPicks;
    && 0 <= d <= i < |o.controlCh|
    && i - d < |o'.controlCh| && o'.controlCh[i - d] == o.controlCh[i]
    && o'.dataPicks + Credit(o'.writer) <= o.dataPicks + Credit(o.writer) + d
  }

  lemma OvertakenStep(o: Outbox, e: Endpoint, inbox: seq<Message>, up: bool, a: Action, i: nat)
    requires Overtaken(o, e.out, i) && Enabled(e, inbox, up, a) && !Apply(e, inbox, up, a).stopped
    requires Apply(e, inbox, up, a).out.controlPicks <= o.controlPicks + i
    ensures Overtaken(o, Apply(e, inbox, up, a).out, i)
  {
  }

  /** A control request at index i of the control queue (so the (i+1)-st in line) is still in line,
      moved up, until i+1 control requests have been picked; up to then at most i+1 data requests
      have been picked, however the write loop chooses in its second phase. */
  lemma {:induction false} BoundedOvertaking(evs: seq<Event>, n: nat, side: Side, i: nat)
    requires IsRun(evs) && n <= |evs|
    requires i < |At(AfterFirst(evs, n), side).out.controlCh| && !At(After(evs), side).stopped
    requires At(After(evs), side).out.controlPicks <= At(AfterFirst(evs, n), side).out.controlPicks + i
    ensures var o, o' := At(AfterFirst(evs, n), side).out, At(After(evs), side).out;
      Overtaken(o, o', i) && o'.dataPicks <= o.dataPicks + i + 1
    decreases |evs|
  {
    if n < |evs| {
      var init, ev := evs[..|evs| - 1], evs[|evs| - 1];
      assert init[..n] == evs[..n];
      if ev.Step? && ev.side == side {
        var e, inbox := At(After(init), side), At(After(init), Other(side)).out.sent;
        CountersGrow(e, inbox, After(init).up, ev.action);
        BoundedOvertaking(init, n, side, i);
        OvertakenStep(At(AfterFirst(evs, n), side).out, e, inbox, After(init).up, ev.action, i);
      } else {
        BoundedOvertaking(init, n, side, i);
      }
    } else {
      assert evs[..n] == evs;
    }
  }

  predicate WithinCaps(e: Endpoint) {
    |e.out.controlCh| <= CONTROL_CAP && |e.out.dataCh| <= DATA_CAP && |e.table.connCh| <= ACCEPT_CAP
  }

  lemma CapsStep(e: Endpoint, inbox: seq<Message>, up: bool, a: Action)
    requires Enabled(e, inbox, up, a) && WithinCaps(e)
    ensures WithinCaps(Apply(e, inbox, up, a))
  {
  }

  /** The buffered channels never hold more than their capacity. */
  lemma {:induction false} QueuesBounded(evs: seq<Event>, side: Side)
    requires IsRun(evs)
    ensures WithinCaps(At(After(evs), side))
    decreases |evs|
  {
    if |evs| > 0 {
      var init, ev := evs[..|evs| - 1], evs[|evs| - 1];
      QueuesBounded(init, side);
      if ev.Step? && ev.side == side {
        CapsStep(At(After(init), side), At(After(init), Other(side)).out.sent, After(init).up, ev.action);
      }
    }
  }

  /** So a control request waits for at most 64 data records, wherever it is in line. */
  lemma AtMost64DataRecords(evs: seq<Event>, n: nat, side: Side, i: nat)
    requires IsRun(evs) && n <= |evs|
    requires i < |At(AfterFirst(evs, n), side).out.controlCh| && !At(After(evs), side).stopped
    requires At(After(evs), side).out.controlPicks <= At(AfterFirst(evs, n), side).out.controlPicks + i
    ensures At(After(evs), side).out.dataPicks <= At(AfterFirst(evs, n), side).out.dataPicks + 64
  {
    BoundedOvertaking(evs, n, side, i);
    RunPrefix(evs, n);
    QueuesBounded(evs[..n], side);
  }
}
