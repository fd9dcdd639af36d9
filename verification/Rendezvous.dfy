/** Rendezvous in the signalling server (cmd/ww/server.go): any number of clients book slots, join
    them, time out, and hand their connections to each other over the slot's unbuffered channel.
    Every event is one step that a client's goroutine or forwarding loop takes without another one
    getting in between: a critical section, a channel handover, a select branch, one message. */
module Rendezvous {
  import opened Words

  type Id = nat
  type Chan = nat
  type Text = string

  datatype Role = Booker | Joiner

  /** Where a client's rendezvous goroutine stands. Greeting: the map is updated, the first message
      not yet written. Offering: in the select that sends on the channel. Receiving: before
      rconn = <-sc. Selecting: in the joiner's select. Sending: before the joiner's sc <- conn. */
  datatype Step = Greeting | Offering | Receiving | Selecting | Sending | Finished

  /** A client: its goroutine's variables, whether its forwarding loop still runs, the messages that
      loop has passed on, and those written to the client's own connection. */
  datatype Client = Client(role: Role, step: Step, ch: Chan, key: string, rconn: Option<Id>,
                           open: bool, relayed: seq<Text>, inbox: seq<Text>)

  datatype State = State(slots: map<string, Chan>, made: nat, clients: map<Id, Client>)

  const Init := State(map[], 0, map[])

  datatype Event =
    | Book(c: Id, key: string)      // with the key that freeslot found
    | Join(c: Id, key: string)
    | Greeted(c: Id)                // the first message is written
    | GreetFails(c: Id)
    | TimeOut(c: Id)                // ctx.Done() in either select
    | Hand(from: Id, to: Id)        // a send meets a receive on their channel
    | Relay(c: Id, msg: Text)       // the forwarding loop reads a message
    | Hangup(c: Id)                 // the forwarding loop ends: reading or the write to the partner fails

  predicate Offers(k: Client) {
    k.step == Offering || k.step == Sending
  }

  predicate Takes(k: Client) {
    k.step == Receiving || k.step == Selecting
  }

  ghost predicate Enabled(s: State, e: Event) {
    match e
    case Book(c, key) => c !in s.clients && key !in s.slots
    case Join(c, key) => c !in s.clients
    case Greeted(c) => c in s.clients && s.clients[c].step == Greeting
    case GreetFails(c) => c in s.clients && s.clients[c].step == Greeting
    case TimeOut(c) => c in s.clients && (s.clients[c].step == Offering || s.clients[c].step == Selecting)
    case Hand(a, b) =>
      a != b && a in s.clients && b in s.clients && s.clients[a].ch == s.clients[b].ch
      && Offers(s.clients[a]) && Takes(s.clients[b])
    case Relay(c, _) => c in s.clients && s.clients[c].open
    case Hangup(c) => c in s.clients && s.clients[c].open
  }

  function BookSlot(s: State, c: Id, key: string): State {
    State(s.slots[key := s.made], s.made + 1,
          s.clients[c := Client(Booker, Greeting, s.made, key, None, true, [], [])])
  }

  /** An unknown slot leaves no trace: the connection is closed. */
  function JoinSlot(s: State, c: Id, key: string): State {
    if key !in s.slots then s
    else State(s.slots - {key}, s.made,
               s.clients[c := Client(Joiner, Greeting, s.slots[key], key, None, true, [], [])])
  }

  function Greet(s: State, c: Id): State
    requires c in s.clients
  {
    var k := s.clients[c];
    s.(clients := s.clients[c := k.(step := if k.role == Booker then Offering else Selecting)])
  }

  /** A booker that gives up deletes its key, whatever the key stands for by now. */
  function Abandon(s: State, c: Id): State
    requires c in s.clients
  {
    var k := s.clients[c];
    s.(slots := if k.role == Booker then s.slots - {k.key} else s.slots,
       clients := s.clients[c := k.(step := Finished)])
  }

  /** A booker that times out gives up; a joiner goes on to its send all the same. */
  function Expire(s: State, c: Id): State
    requires c in s.clients
  {
    var k := s.clients[c];
    if k.step == Offering then Abandon(s, c)
    else s.(clients := s.clients[c := k.(step := Sending)])
  }

  function HandOver(s: State, a: Id, b: Id): State
    requires a in s.clients && b in s.clients && a != b
  {
    var x, y := s.clients[a], s.clients[b];
    s.(clients := s.clients
       [a := x.(step := if x.step == Offering then Receiving else Finished)]
       [b := y.(step := if y.step == Selecting then Sending else Finished, rconn := Some(a))])
  }

  /** A message before the partner is known ends the loop; otherwise it goes to the partner. */
  function RelayMessage(s: State, c: Id, msg: Text): State
    requires c in s.clients
  {
    var k := s.clients[c];
    if k.rconn == None || k.rconn.value !in s.clients then s.(clients := s.clients[c := k.(open := false)])
    else
      var d := k.rconn.value;
      var t := s.clients[c := k.(relayed := k.relayed + [msg])];
      s.(clients := t[d := t[d].(inbox := t[d].inbox + [msg])])
  }

  function HangUp(s: State, c: Id): State
    requires c in s.clients
  {
    s.(clients := s.clients[c := s.clients[c].(open := false)])
  }

  ghost function Apply(s: State, e: Event): State
    requires Enabled(s, e)
  {
    match e
    case Book(c, key) => BookSlot(s, c, key)
    case Join(c, key) => JoinSlot(s, c, key)
    case Greeted(c) => Greet(s, c)
    case GreetFails(c) => Abandon(s, c)
    case TimeOut(c) => Expire(s, c)
    case Hand(a, b) => HandOver(s, a, b)
    case Relay(c, msg) => RelayMessage(s, c, msg)
    case Hangup(c) => HangUp(s, c)
  }

  ghost predicate IsRun(s: State, es: seq<Event>)
    decreases |es|
  {
    |es| > 0 ==> Enabled(s, es[0]) && IsRun(Apply(s, es[0]), es[1..])
  }

  ghost function After(s: State, es: seq<Event>): State
    requires IsRun(s, es)
    decreases |es|
  {
    if |es| == 0 then s else After(Apply(s, es[0]), es[1..])
  }
}
