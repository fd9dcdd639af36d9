/** When both ends dial: both count their ids from 1, and this is exactly when they collide. */
module TunnelCollision {
  import opened Protocol
  import opened Tunnel
  import opened TunnelEndpoint
  import opened TunnelPair
  import opened TunnelTheorems
  import opened TunnelPaths

  lemma NextOpenIsNew(p: Pair, side: Side)
    requires PairOk(p)
    requires var e, inbox := At(p, side), At(p, Other(side)).out.sent; e.got < |inbox| && inbox[e.got].kind == MSG_OPEN
    ensures var e, inbox := At(p, side), At(p, Other(side)).out.sent;
            inbox[e.got].connID > 0 && Count(MSG_OPEN, inbox[e.got].connID, inbox[..e.got]) == 0
  {
    var e, inbox := At(p, side), At(p, Other(side)).out.sent;
    OpensOnce(p, Other(side), inbox[e.got].connID);
    CountPrefix(MSG_OPEN, inbox[e.got].connID, inbox, e.got);
  }

  /** The next OPEN collides if and only if its id is at most the number of connections that its
      reader has dialled. */
  predicate OpenGuard(p: Pair, side: Side) {
    var e, inbox := At(p, side), At(p, Other(side)).out.sent;
    e.got < |inbox| && inbox[e.got].kind == MSG_OPEN ==>
      (Collides(p, Step(side, OnReader(RReceive))) <==> inbox[e.got].connID <= e.table.nextID)
  }

  /** A Dial collides if and only if the OPEN of its id has been read. */
  predicate DialGuard(p: Pair, side: Side, addr: seq<byte>) {
    var e, inbox := At(p, side), At(p, Other(side)).out.sent;
    e.got <= |inbox|
    && (Collides(p, Step(side, OnDial(DStart(addr)))) <==> Count(MSG_OPEN, e.table.nextID + 1, inbox[..e.got]) > 0)
  }

  lemma OpenCollides(p: Pair, side: Side)
    requires PairOk(p)
    ensures OpenGuard(p, side)
  {
    var e, inbox := At(p, side), At(p, Other(side)).out.sent;
    if e.got < |inbox| && inbox[e.got].kind == MSG_OPEN {
      assert KnowsIds(e, inbox, inbox[e.got].connID);
      NextOpenIsNew(p, side);
    }
  }

  lemma DialCollides(p: Pair, side: Side, addr: seq<byte>)
    requires PairOk(p)
    ensures DialGuard(p, side, addr)
  {
    var e, inbox := At(p, side), At(p, Other(side)).out.sent;
    assert KnowsIds(e, inbox, e.table.nextID + 1);
  }

  /** In every run of two sessions, whoever dials, as long as no collision has happened, these guards
      tell exactly whether the next OPEN or Dial is one. A connection counts although it is closed
      and out of the conns map: its number is taken. */
  lemma CollidesExactly(evs: seq<Event>, side: Side, addr: seq<byte>)
    requires IsRun(evs) && NoneCollided(evs)
    ensures OpenGuard(After(evs), side) && DialGuard(After(evs), side, addr)
  {
    RunsKeep(evs);
    OpenCollides(After(evs), side);
    DialCollides(After(evs), side, addr);
  }

  // ---- A run ----

  lemma PeerQueuesOpen() returns (evs: seq<Event>)
    ensures |evs| == 2 && IsRun(evs) && evs[0] == Step(Acceptor, OnDial(DStart([])))
    ensures var p := After(evs);
      p.dialler == NewSession && p.up && p.acceptor.out == Control(NewSession.out, Message(MSG_OPEN, 1, []), OfDial(1))
  {
    var a, b := Step(Acceptor, OnDial(DStart([]))), Step(Acceptor, OnDial(DEnqueue(1)));
    Then([], a);
    Then([] + [a], b);
    evs := [] + [a] + [b];
  }

  lemma PeerWritesOpen(evs: seq<Event>) returns (more: seq<Event>)
    requires IsRun(evs)
    requires var p := After(evs);
      p.dialler == NewSession && p.up && p.acceptor.out == Control(NewSession.out, Message(MSG_OPEN, 1, []), OfDial(1))
    ensures |more| == |evs| + 2 && evs <= more && IsRun(more)
    ensures var p := After(more); p.dialler == NewSession && p.acceptor.out.sent == [Message(MSG_OPEN, 1, [])]
  {
    var c, d := Step(Acceptor, OnWriter(WControl1)), Step(Acceptor, OnWriter(WDone));
    Then(evs, c);
    Then(evs + [c], d);
    more := evs + [c] + [d];
  }

  lemma PeerDialsToo() returns (evs: seq<Event>)
    ensures |evs| == 5 && IsRun(evs) && evs[0] == Step(Acceptor, OnDial(DStart([])))
    ensures var p := After(evs);
      p.dialler == DialStart(NewSession, []) && p.acceptor.out.sent == [Message(MSG_OPEN, 1, [])]
  {
    var two := PeerQueuesOpen();
    var four := PeerWritesOpen(two);
    Then(four, Step(Dialler, OnDial(DStart([]))));
    evs := four + [Step(Dialler, OnDial(DStart([])))];
  }

  /** Both ends count ids from 1, so if both dial, an OPEN can arrive for an id that the receiver
      has dialled itself, and replaces that connection in the conns map. */
  lemma TwoDiallersCollide()
    ensures exists evs :: Replaces(evs)
  {
    var five := PeerDialsToo();
    Then(five, Step(Dialler, OnReader(RReceive)));
    var evs := five + [Step(Dialler, OnReader(RReceive))];
    assert evs[..5] == five && evs[0] == five[0];
    assert Replaces(evs);
  }

  /** Its own connection 1, still being dialled, and one event later the peer's in its place. */
  predicate Replaces(evs: seq<Event>) {
    && |evs| == 6 && IsRun(evs) && IsRun(evs[..5]) && !OneDialler(evs)
    && DialAt(After(evs[..5]).dialler.table, 1, ToSend)
    && var t := After(evs).dialler.table; t.nextID == 1 && Known(t, 1) && t.objs[1].holder == Opening
  }
}
