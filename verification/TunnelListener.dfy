/** An end's listener: every OPEN is accepted, queued or refused, in order. */
module TunnelListener {
  import opened Protocol
  import opened Tunnel
  import opened TunnelEndpoint
  import opened TunnelFrames
  import opened TunnelWire
  import opened TunnelPair
  import opened TunnelTheorems
  import opened TunnelControl

  /** The ids of the OPEN records read, in arrival order. */
  function OpenIds(ms: seq<Message>): seq<Id> {
    if |ms| == 0 then []
    else OpenIds(ms[..|ms| - 1]) + if ms[|ms| - 1].kind == MSG_OPEN then [ms[|ms| - 1].connID] else []
  }

  /** Offered to the listener and not refused. */
  predicate Kept(t: Table, id: Id) {
    Known(t, id) && KeptHolder(t.objs[id].holder)
  }

  function KeptOf(ids: seq<Id>, t: Table): seq<Id> {
    if |ids| == 0 then []
    else KeptOf(ids[..|ids| - 1], t) + if Kept(t, ids[|ids| - 1]) then [ids[|ids| - 1]] else []
  }

  lemma {:induction false} OpenIdsCount(ms: seq<Message>, id: Id)
    ensures id in OpenIds(ms) <==> Count(MSG_OPEN, id, ms) > 0
  {
    if |ms| > 0 {
      OpenIdsCount(ms[..|ms| - 1], id);
    }
  }

  lemma {:induction false} KeptSame(ids: seq<Id>, t: Table, t': Table)
    requires forall id | id in ids :: Kept(t, id) == Kept(t', id)
    ensures KeptOf(ids, t) == KeptOf(ids, t')
  {
    if |ids| > 0 {
      KeptSame(ids[..|ids| - 1], t, t');
    }
  }

  lemma AckKept(t: Table, origin: Origin, st: Stage, id: Id)
    ensures Kept(AckTable(t, origin, st), id) == Kept(t, id)
  {
  }

  lemma AcceptKept(e: Endpoint, id: Id)
    requires CanAccept(e) && e.table.objs[e.table.connCh[0]].holder == Listed
    ensures Kept(Accept(e).table, id) == Kept(e.table, id)
  {
  }

  lemma StepKept(e: Endpoint, inbox: seq<Message>, up: bool, a: Action, id: Id)
    requires Enabled(e, inbox, up, a) && Admissible(e, inbox, a) && Known(e.table, id)
    requires !e.table.objs[id].holder.Dialling?
    requires !a.OnWriter? && a != OnUser(UAccept)
    requires e.reader.AtOpen? && e.reader.id == id ==> a != OnOpen(OOffer) && !Kept(e.table, id)
    ensures Kept(Apply(e, inbox, up, a).table, id) == Kept(e.table, id)
  {
    if Creates(e, inbox, a, id) {
      CreateFrame(e, inbox, up, a, id);
    } else {
      StepFrame(e, inbox, up, a, id);
    }
  }

  /** Only handleOpen's offer moves a connection that the peer has opened into the kept ones. */
  lemma KeptFrame(e: Endpoint, inbox: seq<Message>, up: bool, a: Action, id: Id)
    requires Enabled(e, inbox, up, a) && Admissible(e, inbox, a) && EndpointOk(e)
    requires Known(e.table, id) && !Own(e, id)
    requires !(a == OnOpen(OOffer) && e.reader.id == id)
    ensures Kept(Apply(e, inbox, up, a).table, id) == Kept(e.table, id)
  {
    assert IdTotals(e, id);
    match a {
      case OnWriter(w) =>
        if w.WDone? || w.WFailed? {
          AckKept(e.table, e.out.writer.req.origin, if w.WDone? then Acked else Failed, id);
        }
      case OnUser(UAccept) =>
        assert IdTotals(e, e.table.connCh[0]);
        AcceptKept(e, id);
      case _ => StepKept(e, inbox, up, a, id);
    }
  }

  /** The accepted and queued connections are those kept so far, in order; and the one that
      handleOpen is working on is the last opened. */
  predicate ListenerOk(t: Table, r: Reader, ids: seq<Id>) {
    && t.accepted + t.connCh == KeptOf(ids, t)
    && (r.AtOpen? ==> |ids| > 0 && ids[|ids| - 1] == r.id && r.id !in ids[..|ids| - 1])
  }

  lemma QueueFrame(e: Endpoint, inbox: seq<Message>, up: bool, a: Action)
    requires Enabled(e, inbox, up, a)
    ensures var t, t' := e.table, Apply(e, inbox, up, a).table;
      t'.accepted + t'.connCh == t.accepted + t.connCh + if a == OnOpen(OOffer) then [e.reader.id] else []
    ensures var r' := Apply(e, inbox, up, a).reader;
      r'.AtOpen? ==> (a == OnReader(RReceive) && r' == AtOpen(inbox[e.got].connID) && inbox[e.got].kind == MSG_OPEN)
                     || r' == e.reader
  {
    match a {
      case OnDial(d) => DialLists(e, d);
      case OnWriter(w) => WriterLists(e, up, w);
      case OnReader(r) =>
        if !r.RReceive? {
          ReaderLists(e, inbox, up, r);
        }
      case OnOpen(o) =>
      case OnClose(c) => CloseLists(e, c);
      case OnUser(u) => UserLists(e, u);
    }
  }

  lemma OfferListens(e: Endpoint, ids: seq<Id>)
    requires EndpointOk(e) && CanOffer(e) && ListenerOk(e.table, e.reader, ids)
    ensures ListenerOk(Offer(e).table, Offer(e).reader, ids)
  {
    var init, id := ids[..|ids| - 1], e.reader.id;
    assert IdTotals(e, id);
    var t, t' := e.table, Offer(e).table;
    KeptSame(init, t, t');
    assert KeptOf(ids, t') == KeptOf(ids, t) + [id];
    assert t'.accepted + t'.connCh == t.accepted + t.connCh + [id];
  }

  lemma OthersListen(e: Endpoint, inbox: seq<Message>, up: bool, a: Action, ids: seq<Id>)
    requires EndpointOk(e) && Enabled(e, inbox, up, a) && Admissible(e, inbox, a)
    requires a != OnOpen(OOffer) && a != OnReader(RReceive) && ListenerOk(e.table, e.reader, ids)
    requires forall id | id in ids :: Known(e.table, id) && !Own(e, id)
    ensures ListenerOk(Apply(e, inbox, up, a).table, Apply(e, inbox, up, a).reader, ids)
  {
    forall id | id in ids
      ensures Kept(Apply(e, inbox, up, a).table, id) == Kept(e.table, id)
    {
      KeptFrame(e, inbox, up, a, id);
    }
    KeptSame(ids, e.table, Apply(e, inbox, up, a).table);
    QueueFrame(e, inbox, up, a);
  }

  lemma ReceiveListens(e: Endpoint, inbox: seq<Message>, up: bool)
    requires EndOk(e, inbox) && Enabled(e, inbox, up, OnReader(RReceive))
    requires Admissible(e, inbox, OnReader(RReceive))
    requires ListenerOk(e.table, e.reader, OpenIds(inbox[..e.got]))
    ensures ListenerOk(Receive(e, inbox[e.got]).table, Receive(e, inbox[e.got]).reader, OpenIds(inbox[..e.got + 1]))
  {
    var e', m, ids := Receive(e, inbox[e.got]), inbox[e.got], OpenIds(inbox[..e.got]);
    assert inbox[..e.got + 1][..e.got] == inbox[..e.got];
    forall id | id in ids
      ensures Kept(e'.table, id) == Kept(e.table, id)
    {
      OpenedIsForeign(e, inbox, id);
      KeptFrame(e, inbox, up, OnReader(RReceive), id);
    }
    KeptSame(ids, e.table, e'.table);
    var ids' := OpenIds(inbox[..e.got + 1]);
    if m.kind == MSG_OPEN {
      OpenIdsCount(inbox[..e.got], m.connID);
      assert KnowsIds(e, inbox, m.connID);
      assert ids' == ids + [m.connID] && ids'[..|ids|] == ids;
      assert KeptOf(ids', e'.table) == KeptOf(ids, e'.table);
    } else {
      assert ids' == ids;
    }
  }

  lemma OpenedIsForeign(e: Endpoint, inbox: seq<Message>, id: Id)
    requires EndOk(e, inbox)
    ensures id in OpenIds(inbox[..e.got]) <==> Known(e.table, id) && !Own(e, id)
  {
    OpenIdsCount(inbox[..e.got], id);
    assert KnowsIds(e, inbox, id);
  }

  /** The OPENs that an end has heard, in order of arrival. */
  function Heard(p: Pair, side: Side): seq<Id>
    requires At(p, side).got <= |At(p, Other(side)).out.sent|
  {
    OpenIds(At(p, Other(side)).out.sent[..At(p, side).got])
  }

  /** Whatever is heard stays accounted for, step by step. */
  lemma ListenerStep(e: Endpoint, inbox: seq<Message>, up: bool, a: Action)
    requires EndOk(e, inbox) && Enabled(e, inbox, up, a) && Admissible(e, inbox, a)
    requires ListenerOk(e.table, e.reader, OpenIds(inbox[..e.got]))
    ensures var e' := Apply(e, inbox, up, a);
      e'.got <= |inbox| && ListenerOk(e'.table, e'.reader, OpenIds(inbox[..e'.got]))
  {
    CountersFrame(e, inbox, up, a);
    if a == OnOpen(OOffer) {
      OfferListens(e, OpenIds(inbox[..e.got]));
    } else if a == OnReader(RReceive) {
      ReceiveListens(e, inbox, up);
    } else {
      forall id | id in OpenIds(inbox[..e.got])
        ensures Known(e.table, id) && !Own(e, id)
      {
        OpenedIsForeign(e, inbox, id);
      }
      OthersListen(e, inbox, up, a, OpenIds(inbox[..e.got]));
    }
  }

  predicate Listens(p: Pair, side: Side) {
    var e := At(p, side);
    e.got <= |At(p, Other(side)).out.sent| && ListenerOk(e.table, e.reader, Heard(p, side))
  }

  lemma {:induction false} PeerListens(p: Pair, a: Action, side: Side)
    requires Listens(p, side) && CanHappen(p, Step(Other(side), a))
    ensures Listens(Happen(p, Step(Other(side), a)), side)
  {
    var e, peer := At(p, side), At(p, Other(side));
    CountersFrame(peer, e.out.sent, p.up, a);
    PrefixStays(peer.out.sent, Apply(peer, e.out.sent, p.up, a).out.sent, e.got);
  }

  lemma {:induction false} OwnListens(p: Pair, a: Action, side: Side)
    requires PairOk(p) && CanHappen(p, Step(side, a)) && !Collides(p, Step(side, a)) && Listens(p, side)
    ensures Listens(Happen(p, Step(side, a)), side)
  {
    var e, inbox := At(p, side), At(p, Other(side)).out.sent;
    assert EndOk(e, inbox);
    ListenerStep(e, inbox, p.up, a);
  }

  lemma {:induction false} EventListens(p: Pair, ev: Event, side: Side)
    requires PairOk(p) && CanHappen(p, ev) && !Collides(p, ev) && Listens(p, side)
    ensures Listens(Happen(p, ev), side)
  {
    if ev.Step? && ev.side == side {
      OwnListens(p, ev.action, side);
    } else if ev.Step? {
      PeerListens(p, ev.action, side);
    }
  }

  lemma {:induction false} ListenerKeeps(evs: seq<Event>, side: Side)
    requires IsRun(evs) && NoneCollided(evs)
    ensures Listens(After(evs), side)
    decreases |evs|
  {
    if |evs| > 0 {
      var init := evs[..|evs| - 1];
      ListenerKeeps(init, side);
      RunsKeep(init);
      EventListens(After(init), evs[|evs| - 1], side);
    }
  }

  lemma {:induction false} KeptMembers(ids: seq<Id>, t: Table, id: Id)
    ensures id in KeptOf(ids, t) <==> id in ids && Kept(t, id)
  {
    if |ids| > 0 {
      KeptMembers(ids[..|ids| - 1], t, id);
      assert ids == ids[..|ids| - 1] + [ids[|ids| - 1]];
    }
  }

  /** Where a connection is that the peer has opened: with handleOpen, in the queue, accepted, or
      refused; and a refused one is out of the conns map once handleOpen has finished with it. */
  predicate AtOnePlace(e: Endpoint, id: Id)
    requires Known(e.table, id)
  {
    match e.table.objs[id].holder
    case Opening => e.reader == AtOpen(id) && id !in e.table.accepted && id !in e.table.connCh
    case Listed => id in e.table.connCh
    case User => id in e.table.accepted && id !in e.table.connCh
    case Refused =>
      && id !in e.table.accepted && id !in e.table.connCh
      && (!(e.reader.AtRefuse? && e.reader.id == id) ==> id !in e.table.conns)
    case _ => false
  }

  /** The connections returned by Accept, followed by those in the listener's queue of at most 64,
      are the opened and not refused ones in arrival order. The connections whose OPEN has been read
      are those that the end knows and has not dialled, and each is at one place. */
  lemma ListenerAccounting(evs: seq<Event>, side: Side, id: Id)
    requires IsRun(evs) && NoneCollided(evs)
    ensures var e := At(After(evs), side);
      e.got <= |At(After(evs), Other(side)).out.sent| &&
      var ids := Heard(After(evs), side);
      && e.table.accepted + e.table.connCh == KeptOf(ids, e.table)
      && |e.table.connCh| <= 64
      && (id in ids <==> Known(e.table, id) && !Own(e, id))
      && (id in ids ==> AtOnePlace(e, id))
  {
    ListenerKeeps(evs, side);
    RunsKeep(evs);
    QueuesBounded(evs, side);
    var e := At(After(evs), side);
    OpenedIsForeign(e, At(After(evs), Other(side)).out.sent, id);
    KeptMembers(Heard(After(evs), side), e.table, id);
    assert IdTotals(e, id);
    assert id in e.table.accepted + e.table.connCh <==> id in e.table.accepted || id in e.table.connCh;
  }
}
