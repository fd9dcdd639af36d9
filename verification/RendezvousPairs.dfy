/** What every step keeps: one booker and one joiner to a channel, partners that are mutual, slots that
    stand for waiting bookers, messages that are the partner's. */
module RendezvousPairs {
  import opened Words
  import opened Rendezvous

  /** A slot's channel has no other slot and no joiner yet, and its booker is there, still waiting
      under that key. */
  predicate SlotOk(s: State, key: string)
    requires key in s.slots
  {
    && s.slots[key] < s.made
    && (forall other | other in s.slots && s.slots[other] == s.slots[key] :: other == key)
    && (forall c | c in s.clients && s.clients[c].ch == s.slots[key] ::
          && s.clients[c].role == Booker && s.clients[c].key == key
          && (s.clients[c].step == Greeting || s.clients[c].step == Offering))
    && exists c | c in s.clients :: s.clients[c].ch == s.slots[key]
  }

  /** A client by itself: the steps of its role, and no messages before there is a partner. */
  predicate ClientOk(s: State, k: Client) {
    && k.ch < s.made
    && (k.role == Booker ==> k.step !in {Selecting, Sending})
    && (k.role == Joiner ==> k.step !in {Offering, Receiving})
    && (k.step in {Greeting, Offering, Receiving, Selecting} ==> k.rconn == None)
    && (k.rconn == None ==> k.relayed == [])
  }

  /** Two clients: one booker and one joiner to a channel; while the booker waits to receive, the
      joiner already has it as its partner. */
  predicate TwoOk(x: Client, y: Client, a: Id) {
    x.ch == y.ch ==>
      && x.role != y.role && x.key == y.key
      && (x.role == Booker && x.step == Receiving ==> y.rconn == Some(a) && y.step == Sending)
  }

  /** A client and its partner: the booker has its joiner back, the joiner its booker, or that one
      is about to receive it; and the partner's mail is what this client has passed on. */
  predicate PartnerOk(s: State, a: Id)
    requires a in s.clients
  {
    var x := s.clients[a];
    x.rconn.Some? ==>
      && x.rconn.value != a && x.rconn.value in s.clients
      && PairOk(x, s.clients[x.rconn.value], a)
  }

  predicate PairOk(x: Client, y: Client, a: Id) {
    && y.ch == x.ch && y.role != x.role && y.key == x.key
    && y.inbox == x.relayed
    && (x.role == Booker ==> y.rconn == Some(a))
    && (x.role == Joiner && x.step == Sending ==> y.step == Receiving)
    && (x.role == Joiner && x.step == Finished ==> y.rconn == Some(a))
  }

  /** Nobody's partner has no mail. */
  predicate MailOk(s: State, b: Id)
    requires b in s.clients
  {
    s.clients[b].inbox == [] || exists a | a in s.clients :: s.clients[a].rconn == Some(b)
  }

  ghost predicate SlotsOk(s: State) {
    forall key | key in s.slots :: SlotOk(s, key)
  }

  ghost predicate ClientsOk(s: State) {
    forall a | a in s.clients :: ClientOk(s, s.clients[a])
  }

  ghost predicate PairsOk(s: State) {
    forall a, b | a in s.clients && b in s.clients && a != b :: TwoOk(s.clients[a], s.clients[b], a)
  }

  ghost predicate PartnersOk(s: State) {
    forall a {:trigger PartnerOk(s, a)} | a in s.clients :: PartnerOk(s, a)
  }

  ghost predicate MailsOk(s: State) {
    forall b {:trigger MailOk(s, b)} | b in s.clients :: MailOk(s, b)
  }

  ghost predicate Ok(s: State) {
    SlotsOk(s) && ClientsOk(s) && PairsOk(s) && PartnersOk(s) && MailsOk(s)
  }

  // ---- Steps of one client by itself ----

  /** Only the client's step or its open flag changes, and only before it has a partner. */
  predicate SmallStep(k: Client, l: Client) {
    && l == k.(step := l.step, open := l.open)
    && (l.step == k.step || (k.step in {Greeting, Offering, Selecting} && l.step !in {Greeting, Receiving}))
  }

  predicate OneMoves(s: State, t: State, c: Id) {
    && c in s.clients && t.made == s.made && t.slots.Keys <= s.slots.Keys
    && (forall key | key in t.slots :: t.slots[key] == s.slots[key])
    && t.clients.Keys == s.clients.Keys
    && (forall a | a in s.clients && a != c :: t.clients[a] == s.clients[a])
    && SmallStep(s.clients[c], t.clients[c]) && ClientOk(s, t.clients[c])
  }

  lemma OneMovesSlots(s: State, t: State, c: Id)
    requires OneMoves(s, t, c) && SlotsOk(s)
    requires t.clients[c].step != s.clients[c].step ==>
               t.clients[c].step == Offering || forall key | key in t.slots :: t.slots[key] != t.clients[c].ch
    ensures SlotsOk(t)
  {
    forall key | key in t.slots
      ensures SlotOk(t, key)
    {
      assert SlotOk(s, key);
    }
  }

  lemma OneMovesPairs(s: State, t: State, c: Id)
    requires OneMoves(s, t, c) && PairsOk(s)
    ensures PairsOk(t)
  {
    forall a, b | a in t.clients && b in t.clients && a != b
      ensures TwoOk(t.clients[a], t.clients[b], a)
    {
      assert TwoOk(s.clients[a], s.clients[b], a);
    }
  }

  lemma OneMovesPartners(s: State, t: State, c: Id)
    requires OneMoves(s, t, c) && PartnersOk(s) && ClientsOk(s)
    ensures PartnersOk(t)
  {
    forall a | a in t.clients
      ensures PartnerOk(t, a)
    {
      assert PartnerOk(s, a);
      assert ClientOk(s, s.clients[a]);
    }
  }

  lemma OneMovesMail(s: State, t: State, c: Id)
    requires OneMoves(s, t, c) && MailsOk(s)
    ensures MailsOk(t)
  {
    forall b | b in t.clients
      ensures MailOk(t, b)
    {
      assert MailOk(s, b);
      if a :| a in s.clients && s.clients[a].rconn == Some(b) {
        assert t.clients[a].rconn == Some(b);
      }
    }
  }

  lemma OneMovesKeeps(s: State, t: State, c: Id)
    requires OneMoves(s, t, c) && Ok(s)
    requires t.clients[c].step != s.clients[c].step ==>
               t.clients[c].step == Offering || forall key | key in t.slots :: t.slots[key] != t.clients[c].ch
    ensures Ok(t)
  {
    OneMovesSlots(s, t, c);
    OneMovesPairs(s, t, c);
    OneMovesPartners(s, t, c);
    OneMovesMail(s, t, c);
    assert forall a | a in t.clients && a != c :: ClientOk(s, s.clients[a]);
  }

  lemma GreetKeeps(s: State, c: Id)
    requires Ok(s) && c in s.clients && s.clients[c].step == Greeting
    ensures Ok(Greet(s, c))
  {
    var t := Greet(s, c);
    assert ClientOk(s, s.clients[c]);
    if s.clients[c].role == Joiner {
      forall key | key in t.slots
        ensures t.slots[key] != t.clients[c].ch
      {
        assert SlotOk(s, key);
      }
    }
    OneMovesKeeps(s, t, c);
  }

  lemma AbandonKeeps(s: State, c: Id)
    requires Ok(s) && c in s.clients && s.clients[c].step in {Greeting, Offering}
    ensures Ok(Abandon(s, c))
  {
    var t := Abandon(s, c);
    assert ClientOk(s, s.clients[c]);
    forall key | key in t.slots
      ensures t.slots[key] != t.clients[c].ch
    {
      assert SlotOk(s, key);
    }
    OneMovesKeeps(s, t, c);
  }

  lemma ExpireKeeps(s: State, c: Id)
    requires Ok(s) && c in s.clients && s.clients[c].step in {Selecting, Offering}
    ensures Ok(Expire(s, c))
  {
    if s.clients[c].step == Offering {
      AbandonKeeps(s, c);
    } else {
      var t := Expire(s, c);
      assert ClientOk(s, s.clients[c]);
      forall key | key in t.slots
        ensures t.slots[key] != t.clients[c].ch
      {
        assert SlotOk(s, key);
      }
      OneMovesKeeps(s, t, c);
    }
  }

  lemma HangUpKeeps(s: State, c: Id)
    requires Ok(s) && c in s.clients
    ensures Ok(HangUp(s, c))
  {
    assert ClientOk(s, s.clients[c]);
    OneMovesKeeps(s, HangUp(s, c), c);
  }

  // ---- New clients ----

  predicate OneComes(s: State, t: State, c: Id) {
    && c !in s.clients && t.clients.Keys == s.clients.Keys + {c}
    && (forall a | a in s.clients :: t.clients[a] == s.clients[a])
    && t.made >= s.made
    && var k := t.clients[c];
       ClientOk(t, k) && k.rconn == None && k.inbox == [] && k.step == Greeting
  }

  lemma OneComesKeeps(s: State, t: State, c: Id)
    requires OneComes(s, t, c) && Ok(s) && SlotsOk(t)
    requires forall a | a in s.clients && s.clients[a].ch == t.clients[c].ch ::
               s.clients[a].key == t.clients[c].key
               && s.clients[a].role != t.clients[c].role && s.clients[a].step != Receiving
    ensures Ok(t)
  {
    forall a | a in t.clients
      ensures PartnerOk(t, a) && ClientOk(t, t.clients[a])
    {
      if a != c {
        assert PartnerOk(s, a) && ClientOk(s, s.clients[a]);
      }
    }
    forall a, b | a in t.clients && b in t.clients && a != b
      ensures TwoOk(t.clients[a], t.clients[b], a)
    {
      if a != c && b != c {
        assert TwoOk(s.clients[a], s.clients[b], a);
      }
    }
    forall b | b in t.clients
      ensures MailOk(t, b)
    {
      if b != c {
        assert MailOk(s, b);
        if a :| a in s.clients && s.clients[a].rconn == Some(b) {
          assert t.clients[a].rconn == Some(b);
        }
      }
    }
  }

  lemma SlotStays(s: State, t: State, c: Id, key: string)
    requires key in s.slots && SlotOk(s, key) && key in t.slots && OneComes(s, t, c)
    requires t.clients[c].ch != s.slots[key] == t.slots[key]
    requires forall other | other in t.slots && t.slots[other] == s.slots[key] ::
               other in s.slots && s.slots[other] == s.slots[key]
    ensures SlotOk(t, key)
  {
    var x :| x in s.clients && s.clients[x].ch == s.slots[key];
    assert t.clients[x].ch == t.slots[key];
  }

  lemma BookSlots(s: State, c: Id, key: string)
    requires Ok(s) && c !in s.clients && key !in s.slots
    ensures SlotsOk(BookSlot(s, c, key))
  {
    var t := BookSlot(s, c, key);
    assert forall o | o in s.slots :: SlotOk(s, o);
    assert SlotOk(t, key) by {
      assert forall a | a in s.clients :: ClientOk(s, s.clients[a]);
      assert t.clients[c].ch == t.slots[key];
    }
    forall other | other in s.slots
      ensures SlotOk(t, other)
    {
      SlotStays(s, t, c, other);
    }
  }

  lemma BookKeeps(s: State, c: Id, key: string)
    requires Ok(s) && c !in s.clients && key !in s.slots
    ensures Ok(BookSlot(s, c, key))
  {
    BookSlots(s, c, key);
    assert forall a | a in s.clients :: ClientOk(s, s.clients[a]);
    OneComesKeeps(s, BookSlot(s, c, key), c);
  }

  lemma JoinSlots(s: State, c: Id, key: string)
    requires SlotsOk(s) && c !in s.clients && key in s.slots
    ensures SlotsOk(JoinSlot(s, c, key))
  {
    var t := JoinSlot(s, c, key);
    assert SlotOk(s, key);
    forall other | other in t.slots
      ensures SlotOk(t, other)
    {
      assert SlotOk(s, other);
      var x :| x in s.clients && s.clients[x].ch == s.slots[other];
      assert t.clients[x].ch == t.slots[other];
    }
  }

  lemma JoinKeeps(s: State, c: Id, key: string)
    requires Ok(s) && c !in s.clients
    ensures Ok(JoinSlot(s, c, key))
  {
    if key in s.slots {
      JoinSlots(s, c, key);
      assert SlotOk(s, key);
      OneComesKeeps(s, JoinSlot(s, c, key), c);
    }
  }

  // ---- Handing over ----

  /** A channel has one booker and one joiner at most. */
  lemma OneEach(s: State, a: Id, b: Id, x: Id)
    requires PairsOk(s) && a in s.clients && b in s.clients && x in s.clients && a != b
    requires s.clients[a].ch == s.clients[b].ch == s.clients[x].ch
    ensures x == a || x == b
  {
    assert TwoOk(s.clients[a], s.clients[b], a);
    assert x != a ==> TwoOk(s.clients[a], s.clients[x], a);
    assert x != b ==> TwoOk(s.clients[b], s.clients[x], b);
  }

  /** Nobody but a can be the one whose partner is b, once they share a channel. */
  lemma OnlyPartner(s: State, a: Id, b: Id, x: Id)
    requires PairsOk(s) && PartnersOk(s) && a in s.clients && b in s.clients && a != b
    requires s.clients[a].ch == s.clients[b].ch
    requires x in s.clients && s.clients[x].rconn == Some(b)
    ensures x == a
  {
    assert PartnerOk(s, x);
    OneEach(s, a, b, x);
  }

  /** Either a booker hands itself to its joiner, or a joiner that has its booker hands itself back. */
  lemma HandKinds(s: State, a: Id, b: Id)
    requires Ok(s) && Enabled(s, Hand(a, b))
    ensures var x, y := s.clients[a], s.clients[b];
            || (x.role == Booker && x.step == Offering && y.role == Joiner && y.step == Selecting)
            || (x.role == Joiner && x.step == Sending && y.role == Booker && y.step == Receiving && x.rconn == Some(b))
    ensures s.clients[b].rconn == None && s.clients[b].relayed == [] && s.clients[a].inbox == []
  {
    assert TwoOk(s.clients[a], s.clients[b], a) && TwoOk(s.clients[b], s.clients[a], b);
    assert ClientOk(s, s.clients[a]) && ClientOk(s, s.clients[b]);
    assert MailOk(s, a);
    if x :| x in s.clients && s.clients[x].rconn == Some(a) {
      OnlyPartner(s, b, a, x);
    }
  }

  lemma SlotFrame(s: State, t: State, key: string)
    requires key in s.slots && SlotOk(s, key)
    requires t.slots == s.slots && t.made == s.made && t.clients.Keys == s.clients.Keys
    requires forall a | a in s.clients ::
               t.clients[a].ch == s.clients[a].ch
               && (s.clients[a].ch == s.slots[key] ==>
                     t.clients[a].role == s.clients[a].role && t.clients[a].key == s.clients[a].key
                     && t.clients[a].step == s.clients[a].step)
    ensures SlotOk(t, key)
  {
    var x :| x in s.clients && s.clients[x].ch == s.slots[key];
    assert t.clients[x].ch == t.slots[key];
  }

  lemma HandSlots(s: State, a: Id, b: Id)
    requires Ok(s) && Enabled(s, Hand(a, b))
    ensures SlotsOk(HandOver(s, a, b))
  {
    var t := HandOver(s, a, b);
    forall key | key in s.slots
      ensures SlotOk(t, key)
    {
      assert SlotOk(s, key);
      HandsElsewhere(s, a, b, key);
      SlotFrame(s, t, key);
    }
  }

  lemma HandsElsewhere(s: State, a: Id, b: Id, key: string)
    requires Ok(s) && Enabled(s, Hand(a, b)) && key in s.slots
    ensures s.clients[a].ch == s.clients[b].ch != s.slots[key]
  {
    HandKinds(s, a, b);
    assert SlotOk(s, key);
  }

  lemma HandClients(s: State, a: Id, b: Id)
    requires Ok(s) && Enabled(s, Hand(a, b))
    ensures ClientsOk(HandOver(s, a, b))
  {
    var t := HandOver(s, a, b);
    HandKinds(s, a, b);
    forall c | c in t.clients
      ensures ClientOk(t, t.clients[c])
    {
      assert ClientOk(s, s.clients[c]);
    }
  }

  lemma HandPairs(s: State, a: Id, b: Id)
    requires Ok(s) && Enabled(s, Hand(a, b))
    ensures PairsOk(HandOver(s, a, b))
  {
    var t := HandOver(s, a, b);
    HandKinds(s, a, b);
    forall c, d | c in t.clients && d in t.clients && c != d
      ensures TwoOk(t.clients[c], t.clients[d], c)
    {
      assert TwoOk(s.clients[c], s.clients[d], c);
      if s.clients[c].ch == s.clients[d].ch && (c == a || c == b || d == a || d == b) {
        OneEach(s, a, b, c);
        OneEach(s, a, b, d);
      }
    }
  }

  lemma HandPartners(s: State, a: Id, b: Id)
    requires Ok(s) && Enabled(s, Hand(a, b))
    ensures PartnersOk(HandOver(s, a, b))
  {
    var t := HandOver(s, a, b);
    HandKinds(s, a, b);
    forall x | x in t.clients
      ensures PartnerOk(t, x)
    {
      assert PartnerOk(s, x);
      if x != a && x != b && s.clients[x].rconn.Some? {
        if s.clients[x].rconn == Some(a) {
          OnlyPartner(s, b, a, x);
        } else if s.clients[x].rconn == Some(b) {
          OnlyPartner(s, a, b, x);
        }
      }
    }
  }

  lemma HandMail(s: State, a: Id, b: Id)
    requires Ok(s) && Enabled(s, Hand(a, b))
    ensures MailsOk(HandOver(s, a, b))
  {
    var t := HandOver(s, a, b);
    HandKinds(s, a, b);
    forall d | d in t.clients
      ensures MailOk(t, d)
    {
      assert MailOk(s, d);
      if x :| x in s.clients && s.clients[x].rconn == Some(d) {
        assert t.clients[x].rconn == Some(d);
      }
    }
  }

  // ---- Relaying ----

  lemma RelayKeeps(s: State, c: Id, msg: Text)
    requires Ok(s) && c in s.clients
    ensures Ok(RelayMessage(s, c, msg))
  {
    assert ClientOk(s, s.clients[c]);
    assert PartnerOk(s, c);
    if s.clients[c].rconn == None {
      OneMovesKeeps(s, RelayMessage(s, c, msg), c);
    } else {
      RelayShape(s, c, msg);
      RelaySlots(s, c, msg);
      RelayPairs(s, c, msg);
      RelayMail(s, c, msg);
      RelayPartners(s, c, msg);
    }
  }

  /** Two clients change, by a message each. */
  lemma RelayShape(s: State, c: Id, msg: Text)
    requires Ok(s) && c in s.clients && s.clients[c].rconn.Some?
    ensures var t, d := RelayMessage(s, c, msg), s.clients[c].rconn.value;
            && d != c && d in s.clients && t.slots == s.slots && t.made == s.made && t.clients.Keys == s.clients.Keys
            && (forall x | x in s.clients && x != c && x != d :: t.clients[x] == s.clients[x])
            && t.clients[c] == s.clients[c].(relayed := s.clients[c].relayed + [msg])
            && t.clients[d] == s.clients[d].(inbox := s.clients[d].inbox + [msg])
  {
    assert PartnerOk(s, c);
  }

  lemma RelaySlots(s: State, c: Id, msg: Text)
    requires Ok(s) && c in s.clients && s.clients[c].rconn.Some?
    ensures SlotsOk(RelayMessage(s, c, msg))
  {
    RelayShape(s, c, msg);
    forall key | key in s.slots
      ensures SlotOk(RelayMessage(s, c, msg), key)
    {
      assert SlotOk(s, key);
      SlotFrame(s, RelayMessage(s, c, msg), key);
    }
  }

  lemma RelayPairs(s: State, c: Id, msg: Text)
    requires Ok(s) && c in s.clients && s.clients[c].rconn.Some?
    ensures PairsOk(RelayMessage(s, c, msg))
  {
    var t := RelayMessage(s, c, msg);
    RelayShape(s, c, msg);
    forall x, y | x in t.clients && y in t.clients && x != y
      ensures TwoOk(t.clients[x], t.clients[y], x)
    {
      assert TwoOk(s.clients[x], s.clients[y], x);
    }
  }

  lemma RelayMail(s: State, c: Id, msg: Text)
    requires Ok(s) && c in s.clients && s.clients[c].rconn.Some?
    ensures ClientsOk(RelayMessage(s, c, msg)) && MailsOk(RelayMessage(s, c, msg))
  {
    var t, d := RelayMessage(s, c, msg), s.clients[c].rconn.value;
    RelayShape(s, c, msg);
    forall x | x in t.clients
      ensures ClientOk(t, t.clients[x]) && MailOk(t, x)
    {
      assert ClientOk(s, s.clients[x]) && MailOk(s, x);
      assert t.clients[c].rconn == Some(d);
      if y :| y in s.clients && s.clients[y].rconn == Some(x) {
        assert t.clients[y].rconn == Some(x);
      }
    }
  }

  lemma RelayPartners(s: State, c: Id, msg: Text)
    requires Ok(s) && c in s.clients && s.clients[c].rconn.Some?
    ensures PartnersOk(RelayMessage(s, c, msg))
  {
    var t, d := RelayMessage(s, c, msg), s.clients[c].rconn.value;
    RelayShape(s, c, msg);
    assert PartnerOk(s, c);
    forall x | x in t.clients
      ensures PartnerOk(t, x)
    {
      assert PartnerOk(s, x);
      if s.clients[x].rconn == Some(d) {
        OnlyPartner(s, c, d, x);
      }
    }
  }

  lemma EventKeeps(s: State, e: Event)
    requires Ok(s) && Enabled(s, e)
    ensures Ok(Apply(s, e))
  {
    match e
    case Book(c, key) => BookKeeps(s, c, key);
    case Join(c, key) => JoinKeeps(s, c, key);
    case Greeted(c) => GreetKeeps(s, c);
    case GreetFails(c) => AbandonKeeps(s, c);
    case TimeOut(c) => ExpireKeeps(s, c);
    case Hand(a, b) =>
      HandSlots(s, a, b);
      HandClients(s, a, b);
      HandPairs(s, a, b);
      HandPartners(s, a, b);
      HandMail(s, a, b);
    case Relay(c, msg) => RelayKeeps(s, c, msg);
    case Hangup(c) => HangUpKeeps(s, c);
  }

  lemma {:induction false} RunKeeps(s: State, es: seq<Event>)
    requires Ok(s) && IsRun(s, es)
    ensures Ok(After(s, es))
    decreases |es|
  {
    if |es| > 0 {
      EventKeeps(s, es[0]);
      RunKeeps(Apply(s, es[0]), es[1..]);
    }
  }

  // ---- Theorems about every run ----

  lemma RunOk(es: seq<Event>)
    requires IsRun(Init, es)
    ensures Ok(After(Init, es))
  {
    RunKeeps(Init, es);
  }

  /** Handover is mutual and exclusive, whatever the interleaving, the timeouts and the reuse of
      slot numbers: a channel has one booker and one joiner at most, a booker's partner is the joiner
      that asked for its slot and has it as partner in turn, a joiner's partner has the joiner back
      or is about to receive it, and no connection is the partner of two. */
  lemma HandoverIsMutual(es: seq<Event>, a: Id, b: Id)
    requires IsRun(Init, es)
    requires a in After(Init, es).clients && b in After(Init, es).clients && a != b
    ensures var s := After(Init, es);
            var x, y := s.clients[a], s.clients[b];
            && (x.ch == y.ch ==> x.role != y.role && x.key == y.key)
            && (x.rconn == Some(b) ==> x.ch == y.ch)
            && (x.rconn == Some(b) && x.role == Booker ==> y.rconn == Some(a))
            && (x.rconn == Some(b) && x.role == Joiner ==>
                  y.rconn == Some(a) || (y.rconn == None && y.step == Receiving && x.step == Sending))
            && (x.rconn.Some? ==> x.rconn.value in s.clients && x.rconn != y.rconn)
  {
    var s := After(Init, es);
    RunOk(es);
    assert TwoOk(s.clients[a], s.clients[b], a);
    assert PartnerOk(s, a) && PartnerOk(s, b);
    assert ClientOk(s, s.clients[a]) && ClientOk(s, s.clients[b]);
    if s.clients[a].rconn.Some? && s.clients[a].rconn == s.clients[b].rconn {
      OnlyPartner(s, b, s.clients[a].rconn.value, a);
    }
  }

  /** Relaying loses, repeats and reorders nothing and mixes in nothing from elsewhere: what was
      written to a connection is what its one partner's loop has passed on. */
  lemma MailIsThePartners(es: seq<Event>, b: Id)
    requires IsRun(Init, es) && b in After(Init, es).clients
    ensures var s := After(Init, es);
            || s.clients[b].inbox == []
            || exists a | a in s.clients :: s.clients[a].rconn == Some(b) && s.clients[b].inbox == s.clients[a].relayed
    ensures var s := After(Init, es);
            s.clients[b].rconn.Some? ==>
              s.clients[b].rconn.value in s.clients && s.clients[s.clients[b].rconn.value].inbox == s.clients[b].relayed
  {
    var s := After(Init, es);
    RunOk(es);
    assert MailOk(s, b) && PartnerOk(s, b);
    if a :| a in s.clients && s.clients[a].rconn == Some(b) {
      assert PartnerOk(s, a);
    }
  }

  lemma EventKeepsPartner(s: State, e: Event, a: Id)
    requires Ok(s) && Enabled(s, e) && a in s.clients
    ensures a in Apply(s, e).clients
    ensures s.clients[a].rconn.Some? ==> Apply(s, e).clients[a].rconn == s.clients[a].rconn
    ensures s.clients[a].relayed <= Apply(s, e).clients[a].relayed
  {
    assert ClientOk(s, s.clients[a]);
    if e.Hand? {
      HandKinds(s, e.from, e.to);
    }
  }

  /** Once a connection has a partner it keeps it, for the rest of every run. */
  lemma {:induction false} PartnerForever(s: State, es: seq<Event>, a: Id)
    requires Ok(s) && IsRun(s, es) && a in s.clients && s.clients[a].rconn.Some?
    ensures a in After(s, es).clients && After(s, es).clients[a].rconn == s.clients[a].rconn
    decreases |es|
  {
    if |es| > 0 {
      EventKeeps(s, es[0]);
      EventKeepsPartner(s, es[0], a);
      PartnerForever(Apply(s, es[0]), es[1..], a);
    }
  }

  /** A joiner always finds a booker that is still waiting: every slot in the map is a live one. */
  lemma SlotsAreLive(es: seq<Event>, key: string) returns (c: Id)
    requires IsRun(Init, es) && key in After(Init, es).slots
    ensures var s := After(Init, es);
            && c in s.clients && s.clients[c].ch == s.slots[key] && s.clients[c].role == Booker
            && s.clients[c].key == key && (s.clients[c].step == Greeting || s.clients[c].step == Offering)
  {
    var s := After(Init, es);
    RunOk(es);
    assert SlotOk(s, key);
    c :| c in s.clients && s.clients[c].ch == s.slots[key];
  }

  /** The joiner's select ended in the timeout: it goes on to its send without a partner. */
  predicate TimedOut(s: State, j: Id) {
    j in s.clients && var k := s.clients[j]; k.role == Joiner && k.step == Sending && k.rconn == None
  }

  /** Nobody on such a joiner's channel can take part in a handover. */
  lemma NobodyReceives(s: State, j: Id, a: Id, b: Id)
    requires Ok(s) && TimedOut(s, j) && a in s.clients && s.clients[a].ch == s.clients[j].ch
    ensures !Enabled(s, Hand(a, b)) && !Enabled(s, Hand(b, a))
  {
    if Enabled(s, Hand(a, b)) {
      HandKinds(s, a, b);
      OneEach(s, a, b, j);
    }
    if Enabled(s, Hand(b, a)) {
      HandKinds(s, b, a);
      OneEach(s, b, a, j);
    }
  }

  lemma StaysTimedOut(s: State, e: Event, j: Id)
    requires Ok(s) && Enabled(s, e) && TimedOut(s, j)
    ensures TimedOut(Apply(s, e), j) && Apply(s, e).clients[j].ch == s.clients[j].ch
  {
    if e.Hand? && (e.from == j || e.to == j) {
      NobodyReceives(s, j, j, if e.from == j then e.to else e.from);
    }
  }

  /** A joiner whose select ended in the timeout stays at its send for the rest of every run: it never
      gets a partner, and neither it nor anybody else on its channel takes part in a handover. */
  lemma {:induction false} TimedOutJoinerBlocks(s: State, es: seq<Event>, j: Id)
    requires Ok(s) && IsRun(s, es) && TimedOut(s, j)
    ensures var t := After(s, es);
            && TimedOut(t, j) && t.clients[j].ch == s.clients[j].ch
            && forall a, b | a in t.clients && t.clients[a].ch == t.clients[j].ch ::
                 !Enabled(t, Hand(a, b)) && !Enabled(t, Hand(b, a))
    decreases |es|
  {
    if |es| == 0 {
      forall a, b | a in s.clients && s.clients[a].ch == s.clients[j].ch
        ensures !Enabled(s, Hand(a, b)) && !Enabled(s, Hand(b, a))
      {
        NobodyReceives(s, j, a, b);
      }
    } else {
      EventKeeps(s, es[0]);
      StaysTimedOut(s, es[0], j);
      TimedOutJoinerBlocks(Apply(s, es[0]), es[1..], j);
    }
  }
}
