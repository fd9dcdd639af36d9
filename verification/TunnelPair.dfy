/** The two sessions together. Whoever dials, every event that does not make a connection under an id
    in use keeps the invariants below, so each connection is an independent FIFO byte pipe in each
    direction. */
module TunnelPair {
  import opened Protocol
  import opened Tunnel
  import opened TunnelEndpoint
  import opened TunnelFrames
  import opened TunnelWire
  import opened TunnelFifo

  // ---- Identifiers: who knows which connection ----

  /** An end knows the ids it has dialled and, besides these, those whose OPEN it has read. */
  predicate KnowsIds(e: Endpoint, inbox: seq<Message>, id: Id) {
    && e.got <= |inbox|
    && (Known(e.table, id) <==> Own(e, id) || Count(MSG_OPEN, id, inbox[..e.got]) > 0)
    && (Count(MSG_OPEN, id, inbox[..e.got]) > 0 ==> !Own(e, id))
  }

  /** An endpoint is in order: in itself, in what it has written, and in what it knows. */
  ghost predicate EndOk(e: Endpoint, inbox: seq<Message>) {
    && EndpointOk(e) && e.got <= |inbox|
    && (forall id :: SentOk(e, id))
    && (forall id :: KnowsIds(e, inbox, id))
  }

  ghost predicate PairOk(p: Pair) {
    EndOk(p.dialler, p.acceptor.out.sent) && EndOk(p.acceptor, p.dialler.out.sent)
  }

  lemma CountPrefix(kind: byte, id: Id, ms: seq<Message>, n: nat)
    requires n <= |ms|
    ensures Count(kind, id, ms[..n]) <= Count(kind, id, ms)
    ensures n < |ms| ==> Count(kind, id, ms[..n + 1]) == Count(kind, id, ms[..n]) + if Is(ms[n], kind, id) then 1 else 0
    ensures n < |ms| && Is(ms[n], kind, id) ==> Count(kind, id, ms) > Count(kind, id, ms[..n])
  {
    assert ms == ms[..n] + ms[n..];
    CountConcat(kind, id, ms[..n], ms[n..]);
    if n < |ms| {
      assert ms[..n + 1] == ms[..n] + [ms[n]];
      CountOne(kind, id, ms[..n], ms[n]);
      assert ms == ms[..n + 1] + ms[n + 1..];
      CountConcat(kind, id, ms[..n + 1], ms[n + 1..]);
    }
  }

  /** No end writes an OPEN twice, or one of an id that is not its own. */
  lemma OpensOnce(p: Pair, side: Side, id: Id)
    requires PairOk(p)
    ensures Count(MSG_OPEN, id, At(p, side).out.sent) <= if Own(At(p, side), id) then 1 else 0
  {
    assert SentOk(At(p, side), id);
    PhaseCounts(Own(At(p, side), id), id, At(p, side).out.sent);
  }

  /** The event would put a new connection in the place of one that its end has made before, whether
      that one is still in the conns map or not. */
  predicate Collides(p: Pair, ev: Event) {
    ev.Step? && !Admissible(At(p, ev.side), At(p, Other(ev.side)).out.sent, ev.action)
  }

  /** What a step does to the set of known connections. */
  lemma KnownFrame(e: Endpoint, inbox: seq<Message>, up: bool, a: Action, id: Id)
    requires Enabled(e, inbox, up, a)
    ensures Known(Apply(e, inbox, up, a).table, id) <==>
            Known(e.table, id) || (StartsDial(a) && id == e.table.nextID + 1)
            || (a == OnReader(RReceive) && Is(inbox[e.got], MSG_OPEN, id))
  {
    if Creates(e, inbox, a, id) {
      CreateFrame(e, inbox, up, a, id);
    } else {
      StepFrame(e, inbox, up, a, id);
    }
  }

  lemma CountersFrame(e: Endpoint, inbox: seq<Message>, up: bool, a: Action)
    requires Enabled(e, inbox, up, a)
    ensures var e' := Apply(e, inbox, up, a);
      && e'.table.nextID == e.table.nextID + (if StartsDial(a) then 1 else 0)
      && e'.got == e.got + (if a == OnReader(RReceive) then 1 else 0)
      && e.out.sent <= e'.out.sent
  {
  }

  /** The peer's view is unchanged when an endpoint appends to what it has sent. */
  lemma PrefixStays(sent: seq<Message>, sent': seq<Message>, got: nat)
    requires sent <= sent' && got <= |sent|
    ensures sent'[..got] == sent[..got]
  {
  }

  lemma KnowsKeeps(e: Endpoint, inbox: seq<Message>, up: bool, a: Action, id: Id)
    requires Enabled(e, inbox, up, a) && Admissible(e, inbox, a) && KnowsIds(e, inbox, id)
    ensures KnowsIds(Apply(e, inbox, up, a), inbox, id)
  {
    CountersFrame(e, inbox, up, a);
    KnownFrame(e, inbox, up, a, id);
    OwnFrame(e, inbox, up, a, id);
    if a == OnReader(RReceive) {
      CountPrefix(MSG_OPEN, id, inbox, e.got);
    }
  }

  lemma EndKeeps(e: Endpoint, inbox: seq<Message>, up: bool, a: Action)
    requires EndOk(e, inbox) && Enabled(e, inbox, up, a) && Admissible(e, inbox, a)
    ensures EndOk(Apply(e, inbox, up, a), inbox)
  {
    var e' := Apply(e, inbox, up, a);
    EndpointKeeps(e, inbox, up, a);
    CountersFrame(e, inbox, up, a);
    forall id: Id
      ensures SentOk(e', id) && KnowsIds(e', inbox, id)
    {
      SentKeeps(e, inbox, up, a, id);
      KnowsKeeps(e, inbox, up, a, id);
    }
  }

  /** The peer of an end that takes a step sees more records, but has read the same. */
  lemma PeerKeeps(e: Endpoint, sent: seq<Message>, sent': seq<Message>)
    requires EndOk(e, sent) && sent <= sent'
    ensures EndOk(e, sent')
  {
    PrefixStays(sent, sent', e.got);
    forall id: Id
      ensures KnowsIds(e, sent', id)
    {
      assert KnowsIds(e, sent, id);
    }
  }

  lemma PairKeeps(p: Pair, ev: Event)
    requires PairOk(p) && CanHappen(p, ev) && !Collides(p, ev)
    ensures PairOk(Happen(p, ev))
  {
    if ev.Step? {
      var e, peer := At(p, ev.side), At(p, Other(ev.side));
      EndKeeps(e, peer.out.sent, p.up, ev.action);
      CountersFrame(e, peer.out.sent, p.up, ev.action);
      PeerKeeps(peer, e.out.sent, Apply(e, peer.out.sent, p.up, ev.action).out.sent);
    }
  }

  // ---- Bytes ----

  ghost predicate SideOk(e: Endpoint, inbox: seq<Message>, up: bool) {
    && e.got <= |inbox|
    && (up ==> e.out.lost == [])
    && (forall id :: Pipe(e.out, id) == WrittenOn(e.table, id))
    && (forall id :: RecvOk(e.table, e.reader, id, Bytes(id, inbox[..e.got])))
  }

  ghost predicate BytesOk(p: Pair) {
    SideOk(p.dialler, p.acceptor.out.sent, p.up) && SideOk(p.acceptor, p.dialler.out.sent, p.up)
  }

  /** No data comes for a connection that an endpoint does not know before its OPEN. */
  lemma NothingForUnknown(p: Pair, side: Side, id: Id, n: nat)
    requires PairOk(p) && !Known(At(p, side).table, id) && n <= |At(p, Other(side)).out.sent|
    requires Count(MSG_OPEN, id, At(p, Other(side)).out.sent[..n]) == 0
    ensures Bytes(id, At(p, Other(side)).out.sent[..n]) == []
  {
    var e, peer := At(p, side), At(p, Other(side));
    var inbox := peer.out.sent;
    assert IdTotals(e, id) && IdTotals(peer, id);
    if Own(peer, id) {
      assert SentOk(peer, id);
      if PhaseOf(true, id, inbox[..n]) == Bad {
        BadStays(true, id, inbox, n);
      }
      PhaseCounts(true, id, inbox[..n]);
    } else {
      assert KnowsIds(peer, e.out.sent, id);
      CountPrefix(MSG_OPEN, id, e.out.sent, peer.got);
      CountPrefix(MSG_DATA, id, inbox, n);
    }
    NoDataNoBytes(id, inbox[..n]);
  }

  lemma RecvKeeps(e: Endpoint, inbox: seq<Message>, up: bool, a: Action, id: Id, heard: seq<byte>)
    requires Enabled(e, inbox, up, a) && Admissible(e, inbox, a) && IdTotals(e, id)
    requires RecvOk(e.table, e.reader, id, heard)
    ensures var e' := Apply(e, inbox, up, a);
      RecvOk(e'.table, e'.reader, id,
             heard + if a == OnReader(RReceive) && Is(inbox[e.got], MSG_DATA, id) && Known(e.table, id)
                        then inbox[e.got].payload else [])
  {
    assert heard + [] == heard;
    match a {
      case OnDial(d) => DialRecv(e, d, id, heard);
      case OnWriter(w) => WriterRecv(e, up, w, id, heard);
      case OnReader(r) => ReaderRecv(e, inbox, up, r, id, heard);
      case OnOpen(o) => OpenRecv(e, o, id, heard);
      case OnClose(c) => CloseRecv(e, c, id, heard);
      case OnUser(u) => UserRecv(e, u, id, heard);
    }
  }

  /** What reading one more record adds to the bytes heard. */
  lemma HeardStep(id: Id, inbox: seq<Message>, got: nat)
    requires got < |inbox|
    ensures Bytes(id, inbox[..got + 1]) ==
                Bytes(id, inbox[..got]) + if Is(inbox[got], MSG_DATA, id) then inbox[got].payload else []
  {
    assert inbox[..got + 1] == inbox[..got] + [inbox[got]];
  }

  /** One step of an end against what it has heard, given that nothing is heard of unknown ids. */
  lemma EndRecv(e: Endpoint, inbox: seq<Message>, up: bool, a: Action, id: Id)
    requires Enabled(e, inbox, up, a) && Admissible(e, inbox, a) && IdTotals(e, id)
    requires e.got <= |inbox| && RecvOk(e.table, e.reader, id, Bytes(id, inbox[..e.got]))
    requires a == OnReader(RReceive) && !Known(e.table, id) && Is(inbox[e.got], MSG_DATA, id) ==>
                 inbox[e.got].payload == []
    ensures var e' := Apply(e, inbox, up, a);
      e'.got <= |inbox| && RecvOk(e'.table, e'.reader, id, Bytes(id, inbox[..e'.got]))
  {
    var heard := Bytes(id, inbox[..e.got]);
    CountersFrame(e, inbox, up, a);
    RecvKeeps(e, inbox, up, a, id, heard);
    assert heard + [] == heard;
    if a == OnReader(RReceive) {
      HeardStep(id, inbox, e.got);
    }
  }

  lemma SideRecv(p: Pair, side: Side, a: Action, id: Id)
    requires PairOk(p) && CanHappen(p, Step(side, a)) && !Collides(p, Step(side, a))
    requires var e := At(p, side); RecvOk(e.table, e.reader, id, Bytes(id, At(p, Other(side)).out.sent[..e.got]))
    ensures var inbox := At(p, Other(side)).out.sent;
      var e' := Apply(At(p, side), inbox, p.up, a);
      e'.got <= |inbox| && RecvOk(e'.table, e'.reader, id, Bytes(id, inbox[..e'.got]))
  {
    var e, inbox := At(p, side), At(p, Other(side)).out.sent;
    assert IdTotals(e, id);
    if a == OnReader(RReceive) && !Known(e.table, id) && Is(inbox[e.got], MSG_DATA, id) {
      NoDataForUnknown(p, side, id);
    }
    EndRecv(e, inbox, p.up, a, id);
  }

  lemma NoDataForUnknown(p: Pair, side: Side, id: Id)
    requires PairOk(p) && !Known(At(p, side).table, id)
    requires var e, inbox := At(p, side), At(p, Other(side)).out.sent;
             e.got < |inbox| && Is(inbox[e.got], MSG_DATA, id)
    ensures At(p, Other(side)).out.sent[At(p, side).got].payload == []
  {
    var e, inbox := At(p, side), At(p, Other(side)).out.sent;
    assert KnowsIds(e, inbox, id);
    CountPrefix(MSG_OPEN, id, inbox, e.got);
    NothingForUnknown(p, side, id, e.got + 1);
    HeardStep(id, inbox, e.got);
  }

  lemma SideKeeps(p: Pair, side: Side, a: Action)
    requires PairOk(p) && CanHappen(p, Step(side, a)) && !Collides(p, Step(side, a))
    requires SideOk(At(p, side), At(p, Other(side)).out.sent, p.up)
    ensures SideOk(Apply(At(p, side), At(p, Other(side)).out.sent, p.up, a), At(p, Other(side)).out.sent, p.up)
  {
    var e, inbox := At(p, side), At(p, Other(side)).out.sent;
    var e' := Apply(e, inbox, p.up, a);
    forall id: Id
      ensures Pipe(e'.out, id) == WrittenOn(e'.table, id)
      ensures e'.got <= |inbox| && RecvOk(e'.table, e'.reader, id, Bytes(id, inbox[..e'.got]))
    {
      assert Pipe(e.out, id) == WrittenOn(e.table, id);
      PipeStep(e, inbox, p.up, a, id);
      WrittenStep(e, inbox, p.up, a, id);
      SideRecv(p, side, a, id);
    }
    assert e'.got <= |inbox| by {
      SideRecv(p, side, a, 0);
    }
    if p.up {
      LostFrame(e, inbox, p.up, a);
    }
  }

  lemma LostFrame(e: Endpoint, inbox: seq<Message>, up: bool, a: Action)
    requires Enabled(e, inbox, up, a) && up
    ensures Apply(e, inbox, up, a).out.lost == e.out.lost
  {
  }

  lemma BytesKeep(p: Pair, ev: Event)
    requires PairOk(p) && BytesOk(p) && CanHappen(p, ev) && !Collides(p, ev)
    ensures BytesOk(Happen(p, ev))
  {
    if ev.Step? {
      var me, peer := At(p, ev.side), At(p, Other(ev.side));
      SideKeeps(p, ev.side, ev.action);
      CountersFrame(me, peer.out.sent, p.up, ev.action);
      PrefixStays(me.out.sent, Apply(me, peer.out.sent, p.up, ev.action).out.sent, peer.got);
    }
  }
}
