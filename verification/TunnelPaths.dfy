/** Runs put together from stretches in which only one end takes steps: the other end, and the records
    that it has written, stay as they are meanwhile. A stretch is a path of that end by itself, which
    is easier to compute with; PathIsRun makes it part of a run of the pair, with what the run keeps.
    The first stretch of most runs, a connection dialled by one end, is here too. */
module TunnelPaths {
  import opened Protocol
  import opened Tunnel
  import opened TunnelPair
  import opened TunnelTheorems

  lemma {:induction false} Then(evs: seq<Event>, ev: Event)
    requires IsRun(evs) && CanHappen(After(evs), ev)
    ensures IsRun(evs + [ev]) && After(evs + [ev]) == Happen(After(evs), ev)
  {
    assert (evs + [ev])[..|evs|] == evs;
  }

  /** Steps of one end, given what the other has written. */
  predicate IsPath(e: Endpoint, inbox: seq<Message>, acts: seq<Action>)
    decreases |acts|
  {
    |acts| > 0 ==> Enabled(e, inbox, true, acts[0]) && IsPath(Apply(e, inbox, true, acts[0]), inbox, acts[1..])
  }

  function EndOf(e: Endpoint, inbox: seq<Message>, acts: seq<Action>): Endpoint
    requires IsPath(e, inbox, acts)
    decreases |acts|
  {
    if |acts| == 0 then e else EndOf(Apply(e, inbox, true, acts[0]), inbox, acts[1..])
  }

  lemma OneAct(e: Endpoint, inbox: seq<Message>, acts: seq<Action>)
    requires |acts| > 0 && Enabled(e, inbox, true, acts[0]) && IsPath(Apply(e, inbox, true, acts[0]), inbox, acts[1..])
    ensures IsPath(e, inbox, acts) && EndOf(e, inbox, acts) == EndOf(Apply(e, inbox, true, acts[0]), inbox, acts[1..])
  {
  }

  predicate NoDial(acts: seq<Action>) {
    forall i | 0 <= i < |acts| :: !StartsDial(acts[i])
  }

  /** Steps that make no connection. */
  predicate MakesNone(acts: seq<Action>) {
    NoDial(acts) && OnReader(RReceive) !in acts
  }

  lemma {:induction false} PathIsRun(evs: seq<Event>, side: Side, acts: seq<Action>) returns (more: seq<Event>)
    requires IsRun(evs) && After(evs).up
    requires IsPath(At(After(evs), side), At(After(evs), Other(side)).out.sent, acts)
    ensures IsRun(more) && After(more).up && evs <= more
    ensures OneDialler(evs) && (side == Acceptor ==> NoDial(acts)) ==> OneDialler(more)
    ensures NoneCollided(evs) && MakesNone(acts) ==> NoneCollided(more)
    ensures At(After(more), side) == EndOf(At(After(evs), side), At(After(evs), Other(side)).out.sent, acts)
    ensures At(After(more), Other(side)) == At(After(evs), Other(side))
    decreases |acts|
  {
    more := evs;
    if |acts| > 0 {
      var ev := Step(side, acts[0]);
      Then(evs, ev);
      assert (evs + [ev])[..|evs|] == evs;
      assert NoDial(acts) ==> NoDial(acts[1..]);
      assert MakesNone(acts) ==> acts[0] in acts && MakesNone(acts[1..]);
      more := PathIsRun(evs + [ev], side, acts[1..]);
    }
  }

  // ---- A connection is dialled ----

  const OPEN1 := Message(MSG_OPEN, 1, [])

  predicate Dialling(e: Endpoint) {
    e == Endpoint(Table(1, map[1 := NewConn(Tunnel.Dialling([], Queued))], {1}, [], []),
                  Outbox([Req(OPEN1, OfDial(1))], [], Phase1, [], [], 0, 0), Calls(map[], 0), Idle, 0, false)
  }

  lemma DialStarts(acts: seq<Action>)
    requires acts == [OnDial(DStart([])), OnDial(DEnqueue(1))]
    ensures IsPath(NewSession, [], acts) && Dialling(EndOf(NewSession, [], acts))
  {
    var e1 := Apply(NewSession, [], true, acts[0]);
    OneAct(e1, [], acts[1..]);
    OneAct(NewSession, [], acts);
  }

  predicate Dialled(e: Endpoint) {
    e == Endpoint(Table(1, map[1 := NewConn(User)], {1}, [], []), Outbox([], [], Phase2, [OPEN1], [], 1, 0),
                  Calls(map[], 0), Idle, 0, false)
  }

  lemma DialReturns(e0: Endpoint, acts: seq<Action>)
    requires Dialling(e0) && acts == [OnWriter(WControl1), OnWriter(WDone), OnDial(DReturn(1))]
    ensures IsPath(e0, [], acts) && Dialled(EndOf(e0, [], acts))
  {
    var e1 := Apply(e0, [], true, acts[0]);
    var e2 := Apply(e1, [], true, acts[1]);
    OneAct(e2, [], acts[2..]);
    OneAct(e1, [], acts[1..]);
    OneAct(e0, [], acts);
  }

  lemma DialsFirst() returns (evs: seq<Event>)
    ensures IsRun(evs) && OneDialler(evs) && After(evs).up
    ensures After(evs).acceptor == NewSession && Dialled(After(evs).dialler)
  {
    var start := [OnDial(DStart([])), OnDial(DEnqueue(1))];
    DialStarts(start);
    evs := PathIsRun([], Dialler, start);
    var dial := [OnWriter(WControl1), OnWriter(WDone), OnDial(DReturn(1))];
    DialReturns(After(evs).dialler, dial);
    evs := PathIsRun(evs, Dialler, dial);
  }
}
