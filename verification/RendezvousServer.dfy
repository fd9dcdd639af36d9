/** The signalling server's shared state (cmd/ww/server.go) as it is changed in place: the slot map
    under its lock and the clients' goroutines. Each method is a stretch of freeslot or relay that
    runs without another goroutine getting in between; its effect is a step of Rendezvous. */
module RendezvousServer {
  import opened Varint
  import opened Words
  import opened Codes
  import R = Rendezvous
  import P = RendezvousPairs

  const TRIES_1 := 64
  const TRIES_2 := 1024
  const TRIES_3 := 2048
  const TRIES_4 := 2048
  const LIMIT_1: nat := 0x80
  const LIMIT_2: nat := 0x800
  const LIMIT_3: nat := 0x1_0000
  const LIMIT_4: nat := 0x20_0000

  /** The bound of freeslot's i-th random number: first one byte of numbers, then more. */
  function Bound(i: nat): nat {
    if i < TRIES_1 then LIMIT_1
    else if i < TRIES_1 + TRIES_2 then LIMIT_2
    else if i < TRIES_1 + TRIES_2 + TRIES_3 then LIMIT_3
    else LIMIT_4
  }

  const TRIES := TRIES_1 + TRIES_2 + TRIES_3 + TRIES_4

  /** The random numbers freeslot would draw if it needed all of them. */
  predicate Draws(draws: seq<nat>) {
    |draws| == TRIES && forall i | 0 <= i < TRIES :: draws[i] < Bound(i)
  }

  predicate AllTaken(m: map<string, R.Chan>, draws: seq<nat>) {
    forall i | 0 <= i < |draws| :: Numeral(draws[i], 10) in m
  }

  /** A slot that took few tries has a small number, and its varint few bytes: one, two or three. */
  lemma SmallSlotsFirst(draws: seq<nat>, i: nat)
    requires Draws(draws) && i < TRIES
    ensures |Leb(draws[i])| <= (if i < TRIES_1 then 1 else if i < TRIES_1 + TRIES_2 then 2 else 3)
    ensures ParseInt(Numeral(draws[i], 10), 10, TWO_63) == Some(draws[i])
  {
    assert draws[i] < Bound(i);
    assert Pow128(1) == LIMIT_1 && Pow128(2) == 0x4000 && Pow128(3) == LIMIT_4;
    if i < TRIES_1 {
      LebLength(draws[i], 1);
    } else if i < TRIES_1 + TRIES_2 {
      LebLength(draws[i], 2);
    } else {
      LebLength(draws[i], 3);
    }
    NumeralRoundTrip(draws[i], 10);
  }

  class Server {
    var m: map<string, R.Chan>
    var made: nat
    var clients: map<R.Id, R.Client>

    constructor ()
      ensures Valid() && State() == R.Init
    {
      m, made, clients := map[], 0, map[];
    }

    ghost function State(): R.State
      reads this
    {
      R.State(m, made, clients)
    }

    /** What every critical section, handover and relayed message keeps. */
    ghost predicate Valid()
      reads this
    {
      P.Ok(State())
    }

    /** freeslot: the first number drawn that is not taken; gives up only when all are. */
    method FreeSlot(draws: seq<nat>) returns (slot: string, ok: bool)
      requires Draws(draws)
      ensures ok ==> exists i | 0 <= i < TRIES ::
                       slot == Numeral(draws[i], 10) && slot !in m && AllTaken(m, draws[..i])
      ensures !ok ==> AllTaken(m, draws)
    {
      for i := 0 to TRIES_1
        invariant AllTaken(m, draws[..i])
      {
        var s := Numeral(draws[i], 10);
        if s !in m {
          return s, true;
        }
      }
      var base := TRIES_1;
      for i := 0 to TRIES_2
        invariant AllTaken(m, draws[..base + i])
      {
        var s := Numeral(draws[base + i], 10);
        if s !in m {
          return s, true;
        }
      }
      base := base + TRIES_2;
      for i := 0 to TRIES_3
        invariant AllTaken(m, draws[..base + i])
      {
        var s := Numeral(draws[base + i], 10);
        if s !in m {
          return s, true;
        }
      }
      base := base + TRIES_3;
      for i := 0 to TRIES_4
        invariant AllTaken(m, draws[..base + i])
      {
        var s := Numeral(draws[base + i], 10);
        if s !in m {
          return s, true;
        }
      }
      assert draws[..TRIES] == draws;
      return "", false;
    }

    /** Booking: a free number gets a new channel; without one the connection is closed. */
    method Book(c: R.Id, draws: seq<nat>) returns (slotkey: string, ok: bool)
      requires Valid() && c !in clients && Draws(draws)
      modifies this
      ensures Valid()
      ensures !ok ==> State() == old(State()) && AllTaken(m, draws)
      ensures ok ==> R.Enabled(old(State()), R.Book(c, slotkey)) && State() == R.BookSlot(old(State()), c, slotkey)
    {
      slotkey, ok := FreeSlot(draws);
      if !ok {
        return;
      }
      P.BookKeeps(State(), c, slotkey);
      Store(c, slotkey);
    }

    method Store(c: R.Id, slotkey: string)
      modifies this
      ensures State() == R.BookSlot(old(State()), c, slotkey)
    {
      var sc := made;
      made := made + 1;
      m := m[slotkey := sc];
      clients := clients[c := R.Client(R.Booker, R.Greeting, sc, slotkey, None, true, [], [])];
    }

    /** Joining takes the slot out of the map. */
    method Join(c: R.Id, slotkey: string) returns (ok: bool)
      requires Valid() && c !in clients
      modifies this
      ensures Valid()
      ensures ok == (slotkey in old(m)) && State() == R.JoinSlot(old(State()), c, slotkey)
    {
      P.JoinKeeps(State(), c, slotkey);
      if slotkey !in m {
        return false;
      }
      var sc := m[slotkey];
      m := m - {slotkey};
      clients := clients[c := R.Client(R.Joiner, R.Greeting, sc, slotkey, None, true, [], [])];
      return true;
    }

    method SetStep(c: R.Id, step: R.Step)
      requires c in clients
      modifies `clients
      ensures clients == old(clients)[c := old(clients[c]).(step := step)]
    {
      clients := clients[c := clients[c].(step := step)];
    }

    method Greeted(c: R.Id)
      requires Valid() && R.Enabled(State(), R.Greeted(c))
      modifies this
      ensures Valid()
      ensures State() == R.Greet(old(State()), c)
    {
      P.GreetKeeps(State(), c);
      if clients[c].role == R.Booker {
        SetStep(c, R.Offering);
      } else {
        SetStep(c, R.Selecting);
      }
    }

    method GreetFails(c: R.Id)
      requires Valid() && R.Enabled(State(), R.GreetFails(c))
      modifies this
      ensures Valid()
      ensures State() == R.Abandon(old(State()), c)
    {
      P.AbandonKeeps(State(), c);
      if clients[c].role == R.Booker {
        m := m - {clients[c].key};
      }
      SetStep(c, R.Finished);
    }

    method TimeOut(c: R.Id)
      requires R.Enabled(State(), R.TimeOut(c)) && Valid()
      modifies this
      ensures State() == R.Expire(old(State()), c) && Valid()
    {
      P.ExpireKeeps(State(), c);
      assert P.ClientOk(State(), clients[c]);
      if clients[c].step == R.Offering {
        m := m - {clients[c].key};
        SetStep(c, R.Finished);
      } else {
        SetStep(c, R.Sending);
      }
    }

    /** A send of one goroutine meets the receive of another: the receiver sets rconn. */
    method Hand(a: R.Id, b: R.Id)
      requires Valid() && R.Enabled(State(), R.Hand(a, b))
      modifies this
      ensures Valid()
      ensures State() == R.HandOver(old(State()), a, b)
    {
      ghost var s := State();
      P.EventKeeps(s, R.Hand(a, b));
      HandBoth(a, b);
      assert State() == R.Apply(s, R.Hand(a, b));
    }

    method HandBoth(a: R.Id, b: R.Id)
      requires R.Enabled(State(), R.Hand(a, b))
      modifies this
      ensures State() == R.HandOver(old(State()), a, b)
    {
      if clients[a].step == R.Offering {
        SetStep(a, R.Receiving);
      } else {
        SetStep(a, R.Finished);
      }
      clients := clients[b := clients[b].(rconn := Some(a))];
      if clients[b].step == R.Selecting {
        SetStep(b, R.Sending);
      } else {
        SetStep(b, R.Finished);
      }
    }

    /** One round of the forwarding loop; a failing write to the partner ends it. */
    method Forward(c: R.Id, msg: R.Text, writes: bool)
      requires R.Enabled(State(), R.Relay(c, msg)) && Valid()
      modifies this
      ensures Valid()
      ensures State() == if writes || old(clients[c]).rconn == None then R.RelayMessage(old(State()), c, msg)
                         else R.HangUp(old(State()), c)
    {
      P.RelayKeeps(State(), c, msg);
      P.HangUpKeeps(State(), c);
      assert P.PartnerOk(State(), c);
      var rconn := clients[c].rconn;
      if rconn == None {
        clients := clients[c := clients[c].(open := false)];
        return;
      }
      if !writes {
        Hangup(c);
        return;
      }
      clients := clients[c := clients[c].(relayed := clients[c].relayed + [msg])];
      var d := rconn.value;
      clients := clients[d := clients[d].(inbox := clients[d].inbox + [msg])];
    }

    method Hangup(c: R.Id)
      requires Valid() && R.Enabled(State(), R.Hangup(c))
      modifies this
      ensures Valid()
      ensures State() == R.HangUp(old(State()), c)
    {
      P.HangUpKeeps(State(), c);
      clients := clients[c := clients[c].(open := false)];
    }
  }
}
