/** The handshake of two browsers (web/ww.ts) over an order-preserving relay: password-authenticated
    keys, then offer and answer, then candidates, all but the first sealed. */
module Handshake {
  import opened Words

  type Pass = nat

  datatype Who = One | Two
  datatype Kind = Offer | Answer
  datatype Desc = Desc(kind: Kind, sdp: nat)

  /** Keys are symbolic: the two players derive the same one exactly if their passwords are the same,
      and only the sealing key opens. */
  datatype Key = Shared(pass: Pass) | Apart(side: Who, a: Pass, b: Pass)

  datatype Body = Describe(desc: Desc) | Candidate(c: nat) | Bye

  /** Hello is the signalling server's first message to each. */
  datatype Msg = Hello | PakeA(pass: Pass) | PakeB(pass: Pass) | Sealed(key: Key, body: Body)

  function Derive(side: Who, a: Pass, b: Pass): Key {
    if a == b then Shared(a) else Apart(side, a, b)
  }

  function Unseal(k: Key, m: Msg): Option<Body> {
    if m.Sealed? && m.key == k then Some(m.body) else None
  }

  /** A player is a state machine whose states may wait for the WebRTC API or for the end of the
      handshake; messages that come meanwhile meet the state the code has set for that time. */
  datatype St =
    | StatePlayer1 | StatePlayer2 | WaitForPAKEA | WaitForPAKEB | WaitForRemoteOffer | WaitForRemoteAnswer
    | WaitForCandidates | WaitForLocalOffer | WaitForLocalAnswer | StateError

  datatype Done = Pending | Resolved(fingerprint: Key) | Rejected

  /** What the handler of a message is awaiting from the WebRTC API. */
  datatype Api = Quiet | CreatingOffer | SettingRemote(desc: Desc) | CreatingAnswer

  /** Queued microtasks: the rest of a handler that awaited this.done; the assignment of a handler's
      result to this.state. */
  datatype Micro = Rest(m: Msg) | Assign(st: St)

  /** A Wormhole object: its fields, its peer connection, the handlers suspended at an await. The
      candidates it has added and those of its own it has sent are kept in order. */
  datatype Player = Player(state: St, pass: Pass, key: Option<Key>, local: Option<Desc>, remote: Option<Desc>,
                           done: Done, api: Api, waiting: seq<Msg>, micro: seq<Micro>, open: bool,
                           added: seq<nat>, produced: seq<nat>)

  datatype Out = Out(p: Player, sent: seq<Msg>)

  function Begin(state: St, pass: Pass): Player {
    Player(state, pass, None, None, None, Pending, Quiet, [], [], true, [], [])
  }

  function Reject(p: Player): Player {
    if p.done == Pending then p.(done := Rejected) else p
  }

  /** fail, as a state's result. */
  function Fail(p: Player): Out {
    Out(Reject(p).(state := StateError), [])
  }

  /** The answer to a message that the key does not open. */
  function BadKey(p: Player, k: Key): Out {
    Out(Reject(p).(open := false, state := StateError), [Sealed(k, Bye)])
  }

  /** processCandidate. Of sealed messages only candidates can be added to a peer connection. */
  function ProcessCandidate(p: Player, m: Msg): Out {
    if p.key == None then Out(p, [])
    else
      match Unseal(p.key.value, m)
      case None => Out(Reject(p).(open := false), [Sealed(p.key.value, Bye)])
      case Some(Candidate(c)) => Out(p.(added := p.added + [c]), [])
      case Some(_) => Out(p, [])
  }

  /** A message, up to the handler's first await; handlers that do not await set the state. */
  function OnMessage(p: Player, m: Msg): Out {
    match p.state
    case StatePlayer1 => if m == Hello then Out(p.(state := WaitForPAKEA), []) else Fail(p)
    case StatePlayer2 => if m == Hello then Out(p.(state := WaitForPAKEB), [PakeA(p.pass)]) else Fail(p)
    case WaitForPAKEA =>
      if m.PakeA? then
        Out(p.(key := Some(Derive(One, m.pass, p.pass)), state := WaitForLocalOffer, api := CreatingOffer),
            [PakeB(p.pass)])
      else Fail(p)
    case WaitForPAKEB =>
      if m.PakeB? then Out(p.(key := Some(Derive(Two, p.pass, m.pass)), state := WaitForRemoteOffer), []) else Fail(p)
    case WaitForRemoteOffer =>
      if p.key == None then Fail(p)
      else (
        match Unseal(p.key.value, m)
        case None => BadKey(p, p.key.value)
        case Some(Describe(d)) =>
          if d.kind == Offer then Out(p.(state := WaitForLocalAnswer, api := SettingRemote(d)), []) else Fail(p)
        case Some(_) => Fail(p))
    case WaitForRemoteAnswer =>
      if p.key == None then Fail(p)
      else (
        match Unseal(p.key.value, m)
        case None => BadKey(p, p.key.value)
        case Some(Describe(d)) =>
          if d.kind == Answer then
            Out(p.(remote := Some(d), state := WaitForCandidates,
                   done := if p.done == Pending then Resolved(p.key.value) else p.done), [])
          else Fail(p)
        case Some(_) => Fail(p))
    case WaitForCandidates =>
      if p.key == None then Fail(p) else ProcessCandidate(p, m)
    case WaitForLocalOffer => Fail(p)
    case WaitForLocalAnswer =>
      if p.done == Pending then Out(p.(waiting := p.waiting + [m]), [])
      else Out(p.(micro := p.micro + [Rest(m)]), [])
    case StateError => Out(p, [])
  }

  function Rests(ms: seq<Msg>): (rs: seq<Micro>)
    ensures |rs| == |ms|
  {
    seq(|ms|, i requires 0 <= i < |ms| => Rest(ms[i]))
  }

  /** The API is done: the handler goes on to its next await or its end. Settling this.done queues
      the handlers that await it ahead of the assignment of this handler's own result. */
  function ApiDone(p: Player, sdp: nat): Out
    requires p.api != Quiet && p.key.Some?
  {
    match p.api
    case CreatingOffer =>
      var d := Desc(Offer, sdp);
      Out(p.(api := Quiet, local := Some(d), state := WaitForRemoteAnswer), [Sealed(p.key.value, Describe(d))])
    case SettingRemote(d) => Out(p.(api := CreatingAnswer, remote := Some(d)), [])
    case CreatingAnswer =>
      var d := Desc(Answer, sdp);
      Out(p.(api := Quiet, local := Some(d), waiting := [],
             done := if p.done == Pending then Resolved(p.key.value) else p.done,
             micro := p.micro + Rests(p.waiting) + [Assign(WaitForCandidates)]),
          [Sealed(p.key.value, Describe(d))])
  }

  /** The first microtask. What a deferred handler returns is the state of that moment. */
  function RunMicro(p: Player): Out
    requires |p.micro| > 0
  {
    var q := p.(micro := p.micro[1..]);
    match p.micro[0]
    case Assign(st) => Out(q.(state := st), [])
    case Rest(m) =>
      if p.done == Rejected then Out(q, [])
      else
        var o := ProcessCandidate(q, m);
        Out(o.p.(micro := o.p.micro + [Assign(o.p.state)]), o.sent)
  }

  /** onicecandidate. */
  function OnIceCandidate(p: Player, c: nat): Out {
    if p.key == None then Out(p, []) else Out(p.(produced := p.produced + [c]), [Sealed(p.key.value, Candidate(c))])
  }

  // ---- Two players and the relay ----

  /** What each has sent to the other, and how many messages each has received, the server's Hello
      counted. */
  datatype Link = Link(one: Player, two: Player, sent1: seq<Msg>, sent2: seq<Msg>, read1: nat, read2: nat)

  function Begun(pass1: Pass, pass2: Pass): Link {
    Link(Begin(StatePlayer1, pass1), Begin(StatePlayer2, pass2), [], [], 0, 0)
  }

  function Me(l: Link, w: Who): Player {
    if w == One then l.one else l.two
  }

  /** All messages for a player, from the first. */
  function Mail(l: Link, w: Who): seq<Msg> {
    [Hello] + if w == One then l.sent2 else l.sent1
  }

  function Read(l: Link, w: Who): nat {
    if w == One then l.read1 else l.read2
  }

  datatype Event = Receive(w: Who) | Ready(w: Who, sdp: nat) | Microtask(w: Who) | Ice(w: Who, c: nat)

  /** Microtasks go before anything else; candidates come after setLocalDescription. */
  predicate Enabled(l: Link, e: Event) {
    var p := Me(l, e.w);
    match e
    case Receive(w) => p.micro == [] && p.open && Read(l, w) < |Mail(l, w)|
    case Ready(_, _) => p.micro == [] && p.api != Quiet && p.key.Some?
    case Microtask(_) => p.micro != []
    case Ice(_, _) => p.micro == [] && p.local.Some?
  }

  function Do(l: Link, e: Event): Out
    requires Enabled(l, e)
  {
    var p := Me(l, e.w);
    match e
    case Receive(w) => OnMessage(p, Mail(l, w)[Read(l, w)])
    case Ready(_, sdp) => ApiDone(p, sdp)
    case Microtask(_) => RunMicro(p)
    case Ice(_, c) => OnIceCandidate(p, c)
  }

  /** A closed socket sends nothing more; its last message is sent before it closes. */
  function Apply(l: Link, e: Event): Link
    requires Enabled(l, e)
  {
    var o := Do(l, e);
    var sent := if Me(l, e.w).open then o.sent else [];
    var n := if e.Receive? then 1 else 0;
    if e.w == One then l.(one := o.p, sent1 := l.sent1 + sent, read1 := l.read1 + n)
    else l.(two := o.p, sent2 := l.sent2 + sent, read2 := l.read2 + n)
  }

  predicate IsRun(l: Link, es: seq<Event>)
    decreases |es|
  {
    |es| > 0 ==> Enabled(l, es[0]) && IsRun(Apply(l, es[0]), es[1..])
  }

  function After(l: Link, es: seq<Event>): Link
    requires IsRun(l, es)
    decreases |es|
  {
    if |es| == 0 then l else After(Apply(l, es[0]), es[1..])
  }

  /** The message kinds a state is there for. */
  predicate Expected(st: St, key: Option<Key>, m: Msg) {
    match st
    case StatePlayer1 => m == Hello
    case StatePlayer2 => m == Hello
    case WaitForPAKEA => m.PakeA?
    case WaitForPAKEB => m.PakeB?
    case WaitForRemoteOffer => m.Sealed? && key == Some(m.key) && m.body.Describe? && m.body.desc.kind == Offer
    case WaitForRemoteAnswer => m.Sealed? && key == Some(m.key) && m.body.Describe? && m.body.desc.kind == Answer
    case WaitForCandidates => m.Sealed? && key == Some(m.key) && m.body.Candidate?
    case WaitForLocalAnswer => m.Sealed? && key == Some(m.key) && m.body.Candidate?
    case WaitForLocalOffer => false
    case StateError => false
  }

  /** The promise of a result settles once, whatever the passwords and the messages. */
  lemma {:induction false} SettlesOnce(l: Link, es: seq<Event>, who: Who)
    requires IsRun(l, es) && Me(l, who).done != Pending
    ensures Me(After(l, es), who).done == Me(l, who).done
    decreases |es|
  {
    if |es| > 0 {
      EventSettles(l, es[0], who);
      SettlesOnce(Apply(l, es[0]), es[1..], who);
    }
  }

  lemma EventSettles(l: Link, e: Event, who: Who)
    requires Enabled(l, e) && Me(l, who).done != Pending
    ensures Me(Apply(l, e), who).done == Me(l, who).done
  {
  }
}
