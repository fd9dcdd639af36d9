/** The other way round: every waiting booker can be joined, as long as nobody gives up a key that
    another channel has by then. */
module RendezvousSlots {
  import opened Words
  import opened Rendezvous
  import opened RendezvousPairs

  /** A booker whom nobody has joined yet is still found under its key. */
  predicate Joinable(s: State, c: Id)
    requires c in s.clients
  {
    var k := s.clients[c];
    k.role == Booker && (k.step == Greeting || k.step == Offering) && Unjoined(s, k.ch) ==>
      k.key in s.slots && s.slots[k.key] == k.ch
  }

  predicate Unjoined(s: State, ch: Chan) {
    forall d | d in s.clients && s.clients[d].role == Joiner :: s.clients[d].ch != ch
  }

  ghost predicate AllJoinable(s: State) {
    forall c {:trigger Joinable(s, c)} | c in s.clients :: Joinable(s, c)
  }

  /** A booker gives up, by its timeout or because its first message fails, when its key stands for
      another channel than its own: what a check before the delete could see. */
  predicate Evicts(s: State, e: Event) {
    && (e.TimeOut? || e.GreetFails?) && e.c in s.clients
    && var k := s.clients[e.c];
       k.role == Booker && k.key in s.slots && s.slots[k.key] != k.ch
  }

  /** Steps that leave the map and the channels alone, and let nobody start to wait. */
  lemma StaysJoinable(s: State, t: State)
    requires AllJoinable(s) && t.slots == s.slots && t.clients.Keys == s.clients.Keys
    requires forall a | a in s.clients ::
               && t.clients[a].role == s.clients[a].role && t.clients[a].ch == s.clients[a].ch
               && t.clients[a].key == s.clients[a].key
               && (t.clients[a].step == Offering && t.clients[a].role == Booker ==>
                     s.clients[a].step in {Greeting, Offering})
               && (t.clients[a].step == Greeting ==> s.clients[a].step == Greeting)
    ensures AllJoinable(t)
  {
    forall c | c in t.clients
      ensures Joinable(t, c)
    {
      assert Joinable(s, c);
      if Unjoined(t, t.clients[c].ch) {
        assert Unjoined(s, s.clients[c].ch);
      }
    }
  }

  lemma BookJoinable(s: State, c: Id, key: string)
    requires Ok(s) && AllJoinable(s) && c !in s.clients && key !in s.slots
    ensures AllJoinable(BookSlot(s, c, key))
  {
    var t := BookSlot(s, c, key);
    forall b | b in t.clients
      ensures Joinable(t, b)
    {
      if b != c {
        assert Joinable(s, b) && ClientOk(s, s.clients[b]);
        if Unjoined(t, t.clients[b].ch) {
          UnjoinedBefore(s, t, s.clients[b].ch);
        }
      }
    }
  }

  lemma UnjoinedBefore(s: State, t: State, ch: Chan)
    requires Unjoined(t, ch) && forall a | a in s.clients :: a in t.clients && t.clients[a] == s.clients[a]
    ensures Unjoined(s, ch)
  {
  }

  lemma JoinJoinable(s: State, c: Id, key: string)
    requires Ok(s) && AllJoinable(s) && c !in s.clients
    ensures AllJoinable(JoinSlot(s, c, key))
  {
    var t := JoinSlot(s, c, key);
    if key in s.slots {
      forall b | b in t.clients
        ensures Joinable(t, b)
      {
        if b != c && Unjoined(t, t.clients[b].ch) {
          assert Joinable(s, b);
          UnjoinedBefore(s, t, s.clients[b].ch);
          assert t.clients[c].role == Joiner && t.clients[b].ch != s.slots[key];
        }
      }
    }
  }

  /** A booker that gives up deletes its own key, or nobody's, exactly if no other one stays out. */
  lemma AbandonJoinable(s: State, c: Id)
    requires Ok(s) && AllJoinable(s) && c in s.clients && s.clients[c].step in {Greeting, Offering}
    ensures var k := s.clients[c];
            AllJoinable(Abandon(s, c)) <==> !(k.role == Booker && k.key in s.slots && s.slots[k.key] != k.ch)
  {
    var t, k := Abandon(s, c), s.clients[c];
    if k.role == Booker && k.key in s.slots && s.slots[k.key] != k.ch {
      assert SlotOk(s, k.key);
      var b :| b in s.clients && s.clients[b].ch == s.slots[k.key];
      assert t.clients[b] == s.clients[b];
      assert Unjoined(t, t.clients[b].ch);
      assert !Joinable(t, b);
    } else {
      forall b | b in t.clients
        ensures Joinable(t, b)
      {
        assert Joinable(s, b);
        if b != c && Unjoined(t, t.clients[b].ch) {
          AbandonUnjoined(s, c, t.clients[b].ch);
          assert k.role == Booker ==> TwoOk(s.clients[c], s.clients[b], c);
        }
      }
    }
  }

  lemma AbandonUnjoined(s: State, c: Id, ch: Chan)
    requires c in s.clients
    ensures Unjoined(Abandon(s, c), ch) <==> Unjoined(s, ch)
  {
    var t := Abandon(s, c);
    assert forall a | a in s.clients :: t.clients[a].ch == s.clients[a].ch && t.clients[a].role == s.clients[a].role;
  }

  lemma ExpireJoinable(s: State, c: Id)
    requires Ok(s) && AllJoinable(s) && Enabled(s, TimeOut(c))
    ensures AllJoinable(Expire(s, c)) <==> !Evicts(s, TimeOut(c))
  {
    assert ClientOk(s, s.clients[c]);
    if s.clients[c].step == Offering {
      AbandonJoinable(s, c);
    } else {
      StaysJoinable(s, Expire(s, c));
    }
  }

  lemma HandJoinable(s: State, a: Id, b: Id)
    requires Ok(s) && AllJoinable(s) && Enabled(s, Hand(a, b))
    ensures AllJoinable(HandOver(s, a, b))
  {
    HandKinds(s, a, b);
    StaysJoinable(s, HandOver(s, a, b));
  }

  lemma GreetJoinable(s: State, c: Id)
    requires AllJoinable(s) && Enabled(s, Greeted(c))
    ensures AllJoinable(Greet(s, c))
  {
    StaysJoinable(s, Greet(s, c));
  }

  lemma RelayJoinable(s: State, c: Id, msg: Text)
    requires AllJoinable(s) && c in s.clients
    ensures AllJoinable(RelayMessage(s, c, msg))
  {
    StaysJoinable(s, RelayMessage(s, c, msg));
  }

  /** A step makes a waiting booker impossible to join if and only if it evicts. */
  lemma EvictsExactly(s: State, e: Event)
    requires Ok(s) && Enabled(s, e) && AllJoinable(s)
    ensures AllJoinable(Apply(s, e)) <==> !Evicts(s, e)
  {
    match e
    case Book(c, key) => BookJoinable(s, c, key);
    case Join(c, key) => JoinJoinable(s, c, key);
    case GreetFails(c) => AbandonJoinable(s, c);
    case TimeOut(c) => ExpireJoinable(s, c);
    case Hand(a, b) => HandJoinable(s, a, b);
    case Greeted(c) => GreetJoinable(s, c);
    case Relay(c, msg) => RelayJoinable(s, c, msg);
    case Hangup(c) => StaysJoinable(s, HangUp(s, c));
  }

  /** All through a run, every waiting booker can be joined. */
  ghost predicate AlwaysJoinable(s: State, es: seq<Event>)
    requires IsRun(s, es)
    decreases |es|
  {
    AllJoinable(s) && (|es| > 0 ==> AlwaysJoinable(Apply(s, es[0]), es[1..]))
  }

  /** Some event of a run evicts. */
  ghost predicate EvictsSometime(s: State, es: seq<Event>)
    requires IsRun(s, es)
    decreases |es|
  {
    |es| > 0 && (Evicts(s, es[0]) || EvictsSometime(Apply(s, es[0]), es[1..]))
  }

  lemma {:induction false} JoinableRun(s: State, es: seq<Event>)
    requires Ok(s) && AllJoinable(s) && IsRun(s, es)
    ensures AlwaysJoinable(s, es) <==> !EvictsSometime(s, es)
    decreases |es|
  {
    if |es| > 0 {
      var t := Apply(s, es[0]);
      EvictsExactly(s, es[0]);
      EventKeeps(s, es[0]);
      if AllJoinable(t) {
        JoinableRun(t, es[1..]);
      } else {
        NotAlways(t, es[1..]);
      }
    }
  }

  lemma NotAlways(s: State, es: seq<Event>)
    requires IsRun(s, es) && !AllJoinable(s)
    ensures !AlwaysJoinable(s, es)
  {
  }

  /** In every run: all waiting bookers can be joined all the time, if and only if no booker gives up
      while its key stands for a channel that is not its own. */
  lemma MapIsCleanExactly(es: seq<Event>)
    requires IsRun(Init, es)
    ensures AlwaysJoinable(Init, es) <==> !EvictsSometime(Init, es)
  {
    JoinableRun(Init, es);
  }

  /** Client 2 waits for a joiner that has not come, but joining its slot finds nothing. */
  ghost predicate Strands(es: seq<Event>) {
    IsRun(Init, es) && EvictsSometime(Init, es) &&
    var s := After(Init, es);
    && 2 in s.clients && s.clients[2].step == Offering && s.clients[2].key == "7"
    && (forall c | c in s.clients && c != 2 :: s.clients[c].ch != s.clients[2].ch)
    && JoinSlot(s, 3, "7") == s
  }

  /** And it happens. A joiner takes slot 7, so the number is free and
      another client books it; then the first booker times out and deletes the key: the second
      booker waits on, and a joiner that asks for its slot is turned away. */
  lemma LateTimeoutEvicts()
    ensures exists es :: Strands(es)
  {
    var es := [Book(0, "7"), Greeted(0), Join(1, "7"), Book(2, "7"), Greeted(2), TimeOut(0)];
    var s1 := Apply(Init, es[0]);
    var s2 := Apply(s1, es[1]);
    var s3 := Apply(s2, es[2]);
    var s4 := Apply(s3, es[3]);
    var s5 := Apply(s4, es[4]);
    var s6 := Apply(s5, es[5]);
    OneStep(s5, es[5..]);
    OneStep(s4, es[4..]);
    OneStep(s3, es[3..]);
    OneStep(s2, es[2..]);
    OneStep(s1, es[1..]);
    OneStep(Init, es);
    assert Strands(es);
  }

  lemma OneStep(s: State, es: seq<Event>)
    requires |es| > 0 && Enabled(s, es[0]) && IsRun(Apply(s, es[0]), es[1..])
    ensures IsRun(s, es) && After(s, es) == After(Apply(s, es[0]), es[1..])
  {
  }
}
