/** The send queue (web/main.ts): calls of send() may come while a drain loop awaits a transfer; they
    share the globals sendqueue, sending and datachannel. Between two awaits the code runs without
    interruption, so every event is the code from one await, or one call, to the next. */
module SendQueue {
  import opened Words
  import opened Files

  /** A drain loop at its await: the upload, how many of its messages are sent, the channel that its
      transfer uses, and whether what it awaits will never settle. */
  datatype Loop = Loop(upload: Upload, sent: nat, chan: nat, hung: bool)

  /** A data channel: the messages it was given, the uploads whose transfer over it has ended, and
      whether it still takes messages. */
  datatype Channel = Channel(wire: seq<Bytes>, carried: seq<Upload>, open: bool)

  const NewChannel := Channel([], [], true)

  /** The globals and the running loops; besides them, all channels there have been, the uploads whose
      transfer has ended, and the uploads queued, apart from those that a disconnection has dropped.
      While connected, datachannel is the channel that opened last. */
  datatype State = State(queue: seq<Upload>, sending: Option<Upload>, connected: bool, loops: seq<Loop>,
                         channels: seq<Channel>, finished: seq<Upload>, kept: seq<Upload>, dropped: seq<Upload>)

  const Start := State([], None, false, [], [], [], [], [])

  /** Disconnect is the function disconnected(), which also a passing state of the network calls: it
      closes no channel, and a transfer goes on over its own. Close is the end of a channel, before or
      without the handlers' call of disconnected(). */
  datatype Event =
    | Call(u: Upload)   // send(item)
    | Open              // a channel opens: send()
    | Push(i: nat)      // an upload's transfer sends a message
    | Finish(i: nat)    // an awaited transfer has ended
    | Fail(i: nat)      // an awaited transfer throws
    | Hang(i: nat)      // what a transfer awaits (buffer space, a read) will never come
    | Close(k: nat)     // a channel takes no more messages
    | Disconnect

  predicate Enabled(c: Codec, s: State, e: Event) {
    match e
    case Push(i) => Live(s, i) && Left(c, s.loops[i]) && s.channels[s.loops[i].chan].open
    case Finish(i) => Live(s, i) && s.loops[i].sent == |Messages(c, s.loops[i].upload)|
    case Fail(i) => Live(s, i)
    case Hang(i) => Live(s, i)
    case Close(k) => k < |s.channels| && s.channels[k].open
    case _ => true
  }

  predicate Live(s: State, i: nat) {
    i < |s.loops| && !s.loops[i].hung && s.loops[i].chan < |s.channels|
  }

  /** The transfer has messages left to send. */
  predicate Left(c: Codec, l: Loop) {
    l.sent < |Messages(c, l.upload)|
  }

  /** There is a channel, and it takes messages: the condition for a transfer to begin. */
  predicate Usable(s: State) {
    s.connected && |s.channels| > 0 && s.channels[|s.channels| - 1].open
  }

  function SendOne(c: Codec, s: State, i: nat): State
    requires i < |s.loops| && s.loops[i].chan < |s.channels| && Left(c, s.loops[i])
  {
    var l := s.loops[i];
    s.(channels := s.channels[l.chan := Carry(s.channels[l.chan], Messages(c, l.upload)[l.sent])],
       loops := s.loops[i := l.(sent := l.sent + 1)])
  }

  /** A loop for the next upload, at the start of its transfer. */
  function Begun(s: State): State
    requires |s.queue| > 0 && |s.channels| > 0
  {
    s.(sending := Some(s.queue[0]), queue := s.queue[1..],
       loops := s.loops + [Loop(s.queue[0], 0, |s.channels| - 1, false)])
  }

  /** The head of the while loop, and the transfer up to its first await: the header is sent at once.
      Without a channel that takes it this throws, which ends the loop with sending still set. */
  function Continue(c: Codec, s: State): State {
    if |s.queue| == 0 then s.(sending := None)
    else if Usable(s) then SendOne(c, Begun(s), |s.loops|)
    else s.(sending := Some(s.queue[0]), queue := s.queue[1..])
  }

  /** send() without an item. */
  function Kick(c: Codec, s: State): State {
    if !s.connected || s.sending.Some? then s else Continue(c, s)
  }

  function Without(loops: seq<Loop>, i: nat): seq<Loop>
    requires i < |loops|
  {
    loops[..i] + loops[i + 1..]
  }

  function Carry(ch: Channel, m: Bytes): Channel {
    ch.(wire := ch.wire + [m])
  }

  function End(ch: Channel, u: Upload): Channel {
    ch.(carried := ch.carried + [u])
  }

  function Queued(s: State, u: Upload): State {
    s.(queue := s.queue + [u], kept := s.kept + [u])
  }

  function Opened(s: State): State {
    s.(connected := true, channels := s.channels + [NewChannel])
  }

  function Dropped(s: State): State {
    s.(connected := false, queue := [], dropped := s.dropped + s.queue,
       kept := if |s.queue| <= |s.kept| then s.kept[..|s.kept| - |s.queue|] else s.kept)
  }

  function Apply(c: Codec, s: State, e: Event): State
    requires Enabled(c, s, e)
  {
    match e
    case Call(u) => Kick(c, Queued(s, u))
    case Open => Kick(c, Opened(s))
    case Push(i) => SendOne(c, s, i)
    case Finish(i) => Continue(c, Ended(s, i))
    case Fail(i) => s.(loops := Without(s.loops, i))
    case Hang(i) => s.(loops := s.loops[i := s.loops[i].(hung := true)])
    case Close(k) => s.(channels := s.channels[k := s.channels[k].(open := false)])
    case Disconnect => Dropped(s)
  }

  function Ended(s: State, i: nat): State
    requires i < |s.loops| && s.loops[i].chan < |s.channels|
  {
    var l := s.loops[i];
    s.(sending := None, finished := s.finished + [l.upload], loops := Without(s.loops, i),
       channels := s.channels[l.chan := End(s.channels[l.chan], l.upload)])
  }

  predicate IsRun(c: Codec, s: State, es: seq<Event>)
    decreases |es|
  {
    |es| > 0 ==> Enabled(c, s, es[0]) && IsRun(c, Apply(c, s, es[0]), es[1..])
  }

  function After(c: Codec, s: State, es: seq<Event>): State
    requires IsRun(c, s, es)
    decreases |es|
  {
    if |es| == 0 then s else After(c, Apply(c, s, es[0]), es[1..])
  }

  function InFlight(s: State): (us: seq<Upload>) {
    if s.sending.Some? then [s.sending.value] else []
  }

  /** A loop sends what sending says, and no more messages than it has. */
  predicate LoopOk(c: Codec, s: State, l: Loop) {
    && s.sending == Some(l.upload) && l.chan < |s.channels|
    && 0 < l.sent <= |Messages(c, l.upload)|
  }

  /** One loop at most; every upload is finished, in flight or queued, in the order of arrival. */
  predicate Accounts(c: Codec, s: State) {
    && |s.loops| <= 1
    && (|s.loops| == 1 ==> LoopOk(c, s, s.loops[0]))
    && s.finished + InFlight(s) + s.queue == s.kept
    && (s.connected ==> |s.channels| > 0)
  }

  /** And nothing waits while the channel is idle. */
  predicate Ok(c: Codec, s: State) {
    Accounts(c, s) && (s.connected && s.sending.None? ==> s.queue == [])
  }

  lemma ContinueKeeps(c: Codec, s: State)
    requires Accounts(c, s) && s.sending == None
    ensures Ok(c, Continue(c, s))
  {
    assert s.finished + [] == s.finished;
    if |s.queue| > 0 {
      assert s.finished + [s.queue[0]] + s.queue[1..] == s.finished + s.queue;
    }
  }

  lemma KickKeeps(c: Codec, s: State)
    requires Accounts(c, s)
    ensures Ok(c, Kick(c, s))
  {
    if s.connected && s.sending == None {
      ContinueKeeps(c, s);
    }
  }

  lemma EndedKeeps(c: Codec, s: State, i: nat)
    requires Ok(c, s) && Enabled(c, s, Finish(i))
    ensures Accounts(c, Ended(s, i)) && Ended(s, i).sending == None
  {
    assert Without(s.loops, i) == [];
    assert s.finished + InFlight(s) == s.finished + [s.loops[i].upload] + [];
  }

  lemma FinishKeeps(c: Codec, s: State, i: nat)
    requires Ok(c, s) && Enabled(c, s, Finish(i))
    ensures Ok(c, Apply(c, s, Finish(i)))
  {
    EndedKeeps(c, s, i);
    ContinueKeeps(c, Ended(s, i));
  }

  lemma DisconnectKeeps(c: Codec, s: State)
    requires Ok(c, s)
    ensures Ok(c, Dropped(s))
  {
    assert s.kept[..|s.kept| - |s.queue|] == s.finished + InFlight(s);
  }

  lemma CallKeeps(c: Codec, s: State, u: Upload)
    requires Ok(c, s)
    ensures Ok(c, Apply(c, s, Call(u)))
  {
    Associate(s.finished + InFlight(s), s.queue, [u]);
    KickKeeps(c, Queued(s, u));
  }

  lemma OpenKeeps(c: Codec, s: State)
    requires Ok(c, s)
    ensures Ok(c, Apply(c, s, Open))
  {
    KickKeeps(c, Opened(s));
  }

  /** A step of the one loop, or of a channel, that starts and ends nothing. */
  lemma LoopStepKeeps(c: Codec, s: State, e: Event)
    requires Ok(c, s) && Enabled(c, s, e) && (e.Push? || e.Hang? || e.Close?)
    ensures Ok(c, Apply(c, s, e))
  {
    var t := Apply(c, s, e);
    assert |t.channels| == |s.channels| && |t.loops| == |s.loops|;
  }

  lemma FailKeeps(c: Codec, s: State, i: nat)
    requires Ok(c, s) && Enabled(c, s, Fail(i))
    ensures Ok(c, Apply(c, s, Fail(i)))
  {
    assert Without(s.loops, i) == [];
  }

  lemma EventKeeps(c: Codec, s: State, e: Event)
    requires Ok(c, s) && Enabled(c, s, e)
    ensures Ok(c, Apply(c, s, e))
  {
    match e
    case Call(u) => CallKeeps(c, s, u);
    case Open => OpenKeeps(c, s);
    case Finish(i) => FinishKeeps(c, s, i);
    case Fail(i) => FailKeeps(c, s, i);
    case Disconnect => DisconnectKeeps(c, s);
    case _ => LoopStepKeeps(c, s, e);
  }

  function Calls(es: seq<Event>): seq<Upload> {
    if |es| == 0 then [] else CallOf(es[0]) + Calls(es[1..])
  }

  function CallOf(e: Event): seq<Upload> {
    if e.Call? then [e.u] else []
  }

  /** Nothing but disconnected() drops an upload. */
  lemma KeptStep(c: Codec, s: State, e: Event)
    requires Enabled(c, s, e) && e != Disconnect
    ensures Apply(c, s, e).kept == s.kept + CallOf(e) && Apply(c, s, e).dropped == s.dropped
  {
  }

  lemma EventAccounts(c: Codec, s: State, e: Event)
    requires Ok(c, s) && Enabled(c, s, e)
    ensures var t := Apply(c, s, e);
            multiset(t.kept + t.dropped) == multiset(s.kept + s.dropped) + multiset(CallOf(e))
  {
    if e == Disconnect {
      var n := |s.kept| - |s.queue|;
      assert s.kept == s.kept[..n] + s.queue;
    } else {
      KeptStep(c, s, e);
    }
  }

  predicate NeverDisconnects(es: seq<Event>) {
    Disconnect !in es
  }

  lemma {:induction false} RunKeeps(c: Codec, s: State, es: seq<Event>)
    requires Ok(c, s) && IsRun(c, s, es)
    ensures Ok(c, After(c, s, es))
    decreases |es|
  {
    if |es| > 0 {
      EventKeeps(c, s, es[0]);
      RunKeeps(c, Apply(c, s, es[0]), es[1..]);
    }
  }

  lemma {:induction false} RunAccounts(c: Codec, s: State, es: seq<Event>)
    requires Ok(c, s) && IsRun(c, s, es)
    ensures var t := After(c, s, es);
            multiset(t.kept + t.dropped) == multiset(s.kept + s.dropped) + multiset(Calls(es))
    decreases |es|
  {
    if |es| > 0 {
      EventKeeps(c, s, es[0]);
      EventAccounts(c, s, es[0]);
      RunAccounts(c, Apply(c, s, es[0]), es[1..]);
    }
  }

  lemma {:induction false} RunInOrder(c: Codec, s: State, es: seq<Event>)
    requires IsRun(c, s, es) && NeverDisconnects(es)
    ensures After(c, s, es).kept == s.kept + Calls(es) && After(c, s, es).dropped == s.dropped
    decreases |es|
  {
    if |es| > 0 {
      KeptStep(c, s, es[0]);
      RunInOrder(c, Apply(c, s, es[0]), es[1..]);
      Associate(s.kept, CallOf(es[0]), Calls(es[1..]));
    }
  }

  /** Under any interleaving of calls with awaited transfers, failures, disconnections and closing
      channels included, at most one drain loop runs; the uploads finished, in flight and queued are,
      in the order of the calls, those that disconnected() has not dropped from the queue; each call's
      upload is one of these or was dropped. A connected page with nothing in flight has nothing
      waiting. */
  lemma {:induction false} SingleDrainer(c: Codec, es: seq<Event>)
    requires IsRun(c, Start, es)
    ensures var s := After(c, Start, es);
            && |s.loops| <= 1
            && s.finished + InFlight(s) + s.queue == s.kept
            && multiset(s.kept + s.dropped) == multiset(Calls(es))
            && (NeverDisconnects(es) ==> s.kept == Calls(es) && s.dropped == [])
            && (s.connected && s.sending == None ==> s.queue == [] && s.finished == s.kept)
  {
    RunKeeps(c, Start, es);
    AllAccounted(c, Start, es);
    if After(c, Start, es).sending == None {
      NothingWaits(c, After(c, Start, es));
    }
  }

  lemma {:induction false} AllAccounted(c: Codec, s: State, es: seq<Event>)
    requires Ok(c, s) && s.kept == s.dropped == [] && IsRun(c, s, es)
    ensures var t := After(c, s, es);
            && multiset(t.kept + t.dropped) == multiset(Calls(es))
            && (NeverDisconnects(es) ==> t.kept == Calls(es) && t.dropped == [])
  {
    RunAccounts(c, s, es);
    assert s.kept + s.dropped == [];
    if NeverDisconnects(es) {
      RunInOrder(c, s, es);
      assert [] + Calls(es) == Calls(es);
    }
  }

  lemma NothingWaits(c: Codec, s: State)
    requires Ok(c, s) && s.sending == None
    ensures s.finished + s.queue == s.kept && (s.connected ==> s.queue == [] && s.finished == s.kept)
  {
    assert s.finished + [] == s.finished;
  }

  lemma KeptAreCalls(c: Codec, es: seq<Event>, u: Upload)
    requires IsRun(c, Start, es) && u in After(c, Start, es).kept
    ensures u in Calls(es)
  {
    AllAccounted(c, Start, es);
    var s := After(c, Start, es);
    assert u in s.kept + s.dropped;
    assert multiset(s.kept + s.dropped)[u] > 0;
  }

  // ---- Stuck ----

  /** The transfer cannot go on: it waits for what never comes, or its channel takes no more. */
  predicate Dead(c: Codec, s: State, l: Loop) {
    l.hung || (Left(c, l) && l.chan < |s.channels| && !s.channels[l.chan].open)
  }

  /** sending is set, and no loop is left that can clear it. */
  predicate Stuck(c: Codec, s: State) {
    s.sending.Some? && (s.loops == [] || Dead(c, s, s.loops[0]))
  }

  /** A transfer throws or hangs, its channel closes before the last message, or one is to begin
      without a channel that takes messages: after another one, or by a call while the handlers have
      not noticed yet that the channel is closed. */
  predicate Breaks(c: Codec, s: State, e: Event) {
    match e
    case Fail(_) => true
    case Hang(_) => true
    case Close(k) => |s.loops| > 0 && s.loops[0].chan == k && Left(c, s.loops[0])
    case Finish(_) => s.queue != [] && !Usable(s)
    case Call(_) => s.connected && s.sending == None && !Usable(s)
    case _ => false
  }

  /** These events and no others make the queue stuck. */
  lemma BreaksExactly(c: Codec, s: State, e: Event)
    requires Ok(c, s) && Enabled(c, s, e)
    ensures Stuck(c, Apply(c, s, e)) <==> Stuck(c, s) || Breaks(c, s, e)
  {
    match e
    case Finish(i) => FinishBreaks(c, s, i);
    case Call(u) => KickBreaks(c, Queued(s, u));
    case Open => KickBreaks(c, Opened(s));
    case Close(k) => CloseBreaks(c, s, k);
    case _ => LoopBreaks(c, s, e);
  }

  lemma LoopBreaks(c: Codec, s: State, e: Event)
    requires Ok(c, s) && Enabled(c, s, e) && (e.Push? || e.Fail? || e.Hang? || e == Disconnect)
    ensures Stuck(c, Apply(c, s, e)) <==> Stuck(c, s) || Breaks(c, s, e)
  {
    if e.Fail? {
      assert Without(s.loops, e.i) == [];
    }
  }

  lemma CloseBreaks(c: Codec, s: State, k: nat)
    requires Ok(c, s) && Enabled(c, s, Close(k))
    ensures Stuck(c, Apply(c, s, Close(k))) <==> Stuck(c, s) || Breaks(c, s, Close(k))
  {
  }

  lemma KickBreaks(c: Codec, s: State)
    requires Accounts(c, s)
    ensures Stuck(c, Kick(c, s)) <==>
            Stuck(c, s) || (s.connected && s.sending == None && s.queue != [] && !Usable(s))
  {
  }

  lemma ContinueBreaks(c: Codec, s: State)
    requires s.loops == [] && s.sending == None
    ensures Stuck(c, Continue(c, s)) <==> s.queue != [] && !Usable(s)
  {
    if s.queue != [] && Usable(s) {
      OneBegins(c, s);
    }
  }

  lemma FinishBreaks(c: Codec, s: State, i: nat)
    requires Ok(c, s) && Enabled(c, s, Finish(i))
    ensures !Stuck(c, s) && (Stuck(c, Apply(c, s, Finish(i))) <==> s.queue != [] && !Usable(s))
  {
    EndedIs(s, i);
    ContinueBreaks(c, Ended(s, i));
  }

  predicate BreaksSometime(c: Codec, s: State, es: seq<Event>)
    requires IsRun(c, s, es)
    decreases |es|
  {
    |es| > 0 && (Breaks(c, s, es[0]) || BreaksSometime(c, Apply(c, s, es[0]), es[1..]))
  }

  lemma {:induction false} StuckExactly(c: Codec, s: State, es: seq<Event>)
    requires Ok(c, s) && IsRun(c, s, es)
    ensures Stuck(c, After(c, s, es)) <==> Stuck(c, s) || BreaksSometime(c, s, es)
    decreases |es|
  {
    if |es| > 0 {
      EventKeeps(c, s, es[0]);
      BreaksExactly(c, s, es[0]);
      StuckExactly(c, Apply(c, s, es[0]), es[1..]);
    }
  }

  /** The queue ends up stuck if and only if, somewhere in the run, one of these events occurred. */
  lemma QueueSticksExactly(c: Codec, es: seq<Event>)
    requires IsRun(c, Start, es)
    ensures Stuck(c, After(c, Start, es)) <==> BreaksSometime(c, Start, es)
  {
    StuckExactly(c, Start, es);
  }

  /** The channels of t are those of s, with nothing given to any of them since, nor to a later one. */
  predicate NothingSent(s: State, t: State) {
    && |s.channels| <= |t.channels|
    && (forall k | 0 <= k < |s.channels| ::
          t.channels[k].wire == s.channels[k].wire && t.channels[k].carried == s.channels[k].carried)
    && (forall k | |s.channels| <= k < |t.channels| :: t.channels[k].wire == [] && t.channels[k].carried == [])
  }

  lemma StuckStep(c: Codec, s: State, e: Event)
    requires Ok(c, s) && Stuck(c, s) && Enabled(c, s, e)
    ensures NothingSent(s, Apply(c, s, e)) && Apply(c, s, e).finished == s.finished
  {
  }

  /** And then nothing is sent ever after, not even on a new channel. */
  lemma {:induction false} StuckForever(c: Codec, s: State, es: seq<Event>)
    requires Ok(c, s) && Stuck(c, s) && IsRun(c, s, es)
    ensures var t := After(c, s, es);
            Stuck(c, t) && t.finished == s.finished && NothingSent(s, t)
    decreases |es|
  {
    if |es| > 0 {
      EventKeeps(c, s, es[0]);
      BreaksExactly(c, s, es[0]);
      StuckStep(c, s, es[0]);
      StuckForever(c, Apply(c, s, es[0]), es[1..]);
    }
  }

  predicate Finishes(c: Codec, s: State, es: seq<Event>) {
    IsRun(c, s, es) && s.finished < After(c, s, es).finished
  }

  /** Stuck is exactly this: the upload in flight is finished by no continuation whatever. */
  lemma StuckMeansForGood(c: Codec, s: State)
    requires Ok(c, s) && s.sending.Some?
    ensures Stuck(c, s) <==> forall es :: !Finishes(c, s, es)
  {
    if Stuck(c, s) {
      forall es
        ensures !Finishes(c, s, es)
      {
        if IsRun(c, s, es) {
          StuckForever(c, s, es);
        }
      }
    } else {
      var es := GoesOn(c, s);
      assert Finishes(c, s, es);
    }
  }

  /** A transfer that is not dead can send what it has left, and end. */
  lemma {:induction false} GoesOn(c: Codec, s: State) returns (es: seq<Event>)
    requires Ok(c, s) && s.sending.Some? && !Stuck(c, s)
    ensures Finishes(c, s, es)
    decreases |Messages(c, s.sending.value)| - (if |s.loops| > 0 then s.loops[0].sent else 0)
  {
    if Left(c, s.loops[0]) {
      var t := Apply(c, s, Push(0));
      EventKeeps(c, s, Push(0));
      BreaksExactly(c, s, Push(0));
      var rest := GoesOn(c, t);
      Before(c, s, Push(0), rest);
      es := [Push(0)] + rest;
    } else {
      Before(c, s, Finish(0), []);
      es := [Finish(0)] + [];
    }
  }

  /** It does happen, on a fresh connection too: a transfer throws, hangs or is cut off, and a later
      upload is queued for good. */
  lemma FailureSticks(c: Codec, u: Upload, v: Upload, e: Event)
    requires e == Fail(0) || e == Hang(0) || (e == Close(0) && |Messages(c, u)| > 1)
    ensures exists es :: Sticks(c, u, v, [Call(u)] + ([Open] + ([e] + es)))
  {
    var s1 := Apply(c, Start, Call(u));
    var s2 := Apply(c, s1, Open);
    FirstBegins(c, Start, u);
    EventKeeps(c, s2, e);
    BreaksExactly(c, s2, e);
    assert Apply(c, s2, e).sending == Some(u);
    var rest := NextIsQueued(c, Apply(c, s2, e), v);
    Before(c, s2, e, rest);
    Before(c, s1, Open, [e] + rest);
    Before(c, Start, Call(u), [Open] + ([e] + rest));
    assert Sticks(c, u, v, [Call(u)] + ([Open] + ([e] + rest)));
  }

  lemma FirstBegins(c: Codec, s: State, u: Upload)
    requires Ok(c, s) && !s.connected && s.sending == None && s.queue == [] && s.loops == [] && s.channels == []
    ensures var t := Apply(c, Apply(c, s, Call(u)), Open);
            Ok(c, t) && t.loops == [Loop(u, 1, 0, false)] && t.sending == Some(u)
            && |t.channels| == 1 && t.channels[0].open
  {
    var called := Apply(c, s, Call(u));
    EventKeeps(c, s, Call(u));
    EventKeeps(c, called, Open);
    OneBegins(c, Opened(called));
  }

  lemma OneBegins(c: Codec, s: State)
    requires Usable(s) && s.loops == [] && |s.queue| > 0
    ensures var t, n := Continue(c, s), |s.channels|;
            t.loops == [Loop(s.queue[0], 1, n - 1, false)] && t.sending == Some(s.queue[0])
            && |t.channels| == n && t.channels[n - 1].open
  {
    assert Begun(s).loops == [Loop(s.queue[0], 0, |s.channels| - 1, false)];
  }

  lemma NextIsQueued(c: Codec, s: State, v: Upload) returns (es: seq<Event>)
    requires Ok(c, s) && Stuck(c, s)
    ensures IsRun(c, s, es)
    ensures var t := After(c, s, es); Usable(t) && t.queue == [v] && Stuck(c, t) && t.sending == s.sending
  {
    var s1 := Apply(c, s, Disconnect);
    var s2 := Apply(c, s1, Open);
    var s3 := Apply(c, s2, Call(v));
    assert After(c, s3, []) == s3;
    Before(c, s2, Call(v), []);
    Before(c, s1, Open, [Call(v)] + []);
    Before(c, s, Disconnect, [Open] + ([Call(v)] + []));
    es := [Disconnect] + ([Open] + ([Call(v)] + []));
    StuckForever(c, s, es);
  }

  predicate Sticks(c: Codec, u: Upload, v: Upload, es: seq<Event>) {
    IsRun(c, Start, es) &&
    var s := After(c, Start, es);
    Usable(s) && s.queue == [v] && Stuck(c, s) && s.sending == Some(u)
  }

  lemma Before(c: Codec, s: State, e: Event, es: seq<Event>)
    requires Enabled(c, s, e) && IsRun(c, Apply(c, s, e), es)
    ensures IsRun(c, s, [e] + es) && After(c, s, [e] + es) == After(c, Apply(c, s, e), es)
  {
    assert ([e] + es)[1..] == es;
  }

  // ---- From the calls to the other side ----

  /** The uploads carried by the channels, one channel after the other. */
  function AllCarried(chs: seq<Channel>): seq<Upload> {
    if |chs| == 0 then [] else AllCarried(chs[..|chs| - 1]) + chs[|chs| - 1].carried
  }

  function Partial(c: Codec, loops: seq<Loop>, k: nat): seq<Bytes> {
    if |loops| == 1 && loops[0].chan == k && loops[0].sent <= |Messages(c, loops[0].upload)|
    then Messages(c, loops[0].upload)[..loops[0].sent]
    else []
  }

  predicate Silent(chs: seq<Channel>) {
    forall k | 0 <= k < |chs| :: chs[k].wire == [] && chs[k].carried == []
  }

  /** A channel's messages: those of the uploads it has carried, one after the other, then those sent
      of the one in flight. */
  predicate WireOk(c: Codec, s: State, k: nat)
    requires k < |s.channels|
  {
    s.channels[k].wire == AllMessages(c, s.channels[k].carried) + Partial(c, s.loops, k)
  }

  /** While no transfer has thrown: all wires are in order, all that is finished was carried, and the
      channels after the one in use are silent. */
  predicate WiresOk(c: Codec, s: State) {
    && (s.sending.Some? ==> |s.loops| == 1)
    && (|s.loops| == 1 ==> s.loops[0].sent <= |Messages(c, s.loops[0].upload)| && s.loops[0].chan < |s.channels|)
    && (forall k {:trigger WireOk(c, s, k)} | 0 <= k < |s.channels| :: WireOk(c, s, k))
    && AllCarried(s.channels) == s.finished
    && (|s.loops| == 1 ==> Silent(s.channels[s.loops[0].chan + 1..]))
  }

  lemma {:induction false} AllMessagesSnoc(c: Codec, us: seq<Upload>, u: Upload)
    ensures AllMessages(c, us + [u]) == AllMessages(c, us) + Messages(c, u)
  {
    if |us| == 0 {
      assert us + [u] == [u] && [u][1..] == us;
    } else {
      AllMessagesSnoc(c, us[1..], u);
      assert (us + [u])[1..] == us[1..] + [u];
      Associate(Messages(c, us[0]), AllMessages(c, us[1..]), Messages(c, u));
    }
  }

  lemma {:induction false} CarriedAt(chs: seq<Channel>, k: nat, u: Upload)
    requires k < |chs| && Silent(chs[k + 1..])
    ensures AllCarried(chs[k := End(chs[k], u)]) == AllCarried(chs) + [u]
  {
    var n := |chs| - 1;
    var init := chs[..n];
    if k == n {
      assert chs[k := End(chs[k], u)][..n] == init;
      Associate(AllCarried(init), chs[n].carried, [u]);
    } else {
      assert chs[n] == chs[k + 1..][n - k - 1];
      assert init[k + 1..] == chs[k + 1..][..n - k - 1];
      CarriedAt(init, k, u);
      assert chs[k := End(chs[k], u)][..n] == init[k := End(init[k], u)];
      assert AllCarried(init) + [] == AllCarried(init);
      assert AllCarried(init) + [u] + [] == AllCarried(init) + [u];
    }
  }

  lemma BegunWires(c: Codec, s: State)
    requires s.loops == [] && WiresOk(c, s) && |s.queue| > 0 && |s.channels| > 0
    ensures WiresOk(c, Begun(s))
  {
    var t := Begun(s);
    assert t.loops == [Loop(s.queue[0], 0, |s.channels| - 1, false)];
    forall k | 0 <= k < |t.channels|
      ensures WireOk(c, t, k)
    {
      assert WireOk(c, s, k);
      assert Partial(c, t.loops, k) == [];
    }
  }

  lemma ContinueWires(c: Codec, s: State)
    requires s.loops == [] && s.sending == None && WiresOk(c, s)
    requires s.queue == [] || Usable(s)
    ensures WiresOk(c, Continue(c, s))
  {
    if s.queue == [] {
      SameWires(c, s, Continue(c, s));
    } else {
      BegunWires(c, s);
      SendWires(c, Begun(s));
    }
  }

  lemma {:induction false} OpenWires(c: Codec, s: State)
    requires WiresOk(c, s)
    ensures WiresOk(c, Opened(s))
  {
    var t := Opened(s);
    forall k | 0 <= k < |t.channels|
      ensures WireOk(c, t, k)
    {
      OpenWire(c, s, k);
    }
    SameWithNew(s.channels);
    if |s.loops| == 1 {
      SilentWithNew(s.channels, s.loops[0].chan + 1);
    }
  }

  lemma {:induction false} SameWithNew(chs: seq<Channel>)
    ensures AllCarried(chs + [NewChannel]) == AllCarried(chs)
  {
    var all := chs + [NewChannel];
    assert all[..|all| - 1] == chs;
    assert AllCarried(chs) + [] == AllCarried(chs);
  }

  lemma {:induction false} SilentWithNew(chs: seq<Channel>, n: nat)
    requires n <= |chs| && Silent(chs[n..])
    ensures Silent((chs + [NewChannel])[n..])
  {
    assert (chs + [NewChannel])[n..] == chs[n..] + [NewChannel];
  }

  lemma {:induction false} OpenWire(c: Codec, s: State, k: nat)
    requires WiresOk(c, s) && k <= |s.channels|
    ensures WireOk(c, Opened(s), k)
  {
    if k < |s.channels| {
      assert WireOk(c, s, k);
    }
  }

  lemma PartialNext(c: Codec, l: Loop)
    requires l.sent < |Messages(c, l.upload)|
    ensures Partial(c, [l.(sent := l.sent + 1)], l.chan) == Partial(c, [l], l.chan) + [Messages(c, l.upload)[l.sent]]
  {
    var ms := Messages(c, l.upload);
    assert ms[..l.sent + 1] == ms[..l.sent] + [ms[l.sent]];
  }

  lemma SendWire(c: Codec, s: State, k: nat)
    requires WiresOk(c, s) && |s.loops| == 1 && Left(c, s.loops[0]) && k < |s.channels|
    ensures WireOk(c, SendOne(c, s, 0), k)
  {
    var l := s.loops[0];
    var t := SendOne(c, s, 0);
    assert s.loops == [l] && t.loops == [l.(sent := l.sent + 1)];
    assert WireOk(c, s, k);
    if k == l.chan {
      PartialNext(c, l);
      Associate(AllMessages(c, s.channels[k].carried), Partial(c, [l], k), [Messages(c, l.upload)[l.sent]]);
    } else {
      assert t.channels[k] == s.channels[k];
    }
  }

  lemma SendWires(c: Codec, s: State)
    requires WiresOk(c, s) && |s.loops| == 1 && Left(c, s.loops[0])
    ensures WiresOk(c, SendOne(c, s, 0))
  {
    var t := SendOne(c, s, 0);
    forall k | 0 <= k < |t.channels|
      ensures WireOk(c, t, k)
    {
      SendWire(c, s, k);
    }
    SameCarried(s.channels, t.channels);
    var n := s.loops[0].chan + 1;
    assert t.channels[n..] == s.channels[n..];
  }

  lemma {:induction false} SameCarried(a: seq<Channel>, b: seq<Channel>)
    requires |a| == |b| && forall k | 0 <= k < |a| :: a[k].carried == b[k].carried
    ensures AllCarried(a) == AllCarried(b)
  {
    if |a| > 0 {
      SameCarried(a[..|a| - 1], b[..|b| - 1]);
    }
  }

  lemma EndWires(c: Codec, s: State)
    requires WiresOk(c, s) && |s.loops| == 1 && !Left(c, s.loops[0])
    ensures WiresOk(c, Ended(s, 0))
  {
    var l, t := s.loops[0], Ended(s, 0);
    assert t.loops == [];
    CarriedAt(s.channels, l.chan, l.upload);
    forall k | 0 <= k < |t.channels|
      ensures WireOk(c, t, k)
    {
      assert WireOk(c, s, k);
      if k == l.chan {
        AllMessagesSnoc(c, s.channels[k].carried, l.upload);
        assert Messages(c, l.upload)[..l.sent] == Messages(c, l.upload);
      }
      assert t.channels[k].wire + [] == t.channels[k].wire;
    }
  }

  lemma KickWires(c: Codec, s: State)
    requires Accounts(c, s) && WiresOk(c, s)
    requires s.connected && s.sending == None && s.queue != [] ==> Usable(s)
    ensures WiresOk(c, Kick(c, s))
  {
    if s.connected && s.sending == None {
      ContinueWires(c, s);
    }
  }

  lemma FinishWires(c: Codec, s: State, i: nat)
    requires Ok(c, s) && WiresOk(c, s) && Enabled(c, s, Finish(i)) && !Breaks(c, s, Finish(i))
    ensures WiresOk(c, Apply(c, s, Finish(i)))
  {
    EndWires(c, s);
    EndedIs(s, i);
    ContinueWires(c, Ended(s, i));
  }

  lemma EndedIs(s: State, i: nat)
    requires |s.loops| == 1 && i == 0 && s.loops[0].chan < |s.channels|
    ensures var t := Ended(s, i);
            t.loops == [] && t.sending == None && t.queue == s.queue && (Usable(t) <==> Usable(s))
  {
    assert Without(s.loops, i) == [];
  }

  lemma CloseWire(c: Codec, s: State, x: nat, k: nat)
    requires WiresOk(c, s) && x < |s.channels| && k < |s.channels|
    ensures WireOk(c, s.(channels := s.channels[x := s.channels[x].(open := false)]), k)
  {
    assert WireOk(c, s, k);
  }

  lemma CloseWires(c: Codec, s: State, x: nat)
    requires WiresOk(c, s) && Enabled(c, s, Close(x))
    ensures WiresOk(c, Apply(c, s, Close(x)))
  {
    var t := Apply(c, s, Close(x));
    forall k | 0 <= k < |t.channels|
      ensures WireOk(c, t, k)
    {
      CloseWire(c, s, x, k);
    }
    SameCarried(s.channels, t.channels);
  }

  lemma CallWires(c: Codec, s: State, u: Upload)
    requires Ok(c, s) && WiresOk(c, s) && !Breaks(c, s, Call(u))
    ensures WiresOk(c, Apply(c, s, Call(u)))
  {
    Associate(s.finished + InFlight(s), s.queue, [u]);
    SameWires(c, s, Queued(s, u));
    KickWires(c, Queued(s, u));
  }

  lemma {:induction false} OpenStepWires(c: Codec, s: State)
    requires Ok(c, s) && WiresOk(c, s)
    ensures WiresOk(c, Apply(c, s, Open))
  {
    OpenWires(c, s);
    KickWires(c, Opened(s));
  }

  lemma {:induction false} PushWires(c: Codec, s: State, i: nat)
    requires Ok(c, s) && WiresOk(c, s) && Enabled(c, s, Push(i))
    ensures WiresOk(c, Apply(c, s, Push(i)))
  {
    SendWires(c, s);
  }

  lemma {:induction false} WiresKeep(c: Codec, s: State, e: Event)
    requires Ok(c, s) && WiresOk(c, s) && Enabled(c, s, e) && !Breaks(c, s, e)
    ensures WiresOk(c, Apply(c, s, e))
  {
    match e
    case Call(u) => CallWires(c, s, u);
    case Open => OpenStepWires(c, s);
    case Push(i) => PushWires(c, s, i);
    case Finish(i) => FinishWires(c, s, i);
    case Close(k) => CloseWires(c, s, k);
    case Disconnect => SameWires(c, s, Dropped(s));
  }

  lemma SameWires(c: Codec, s: State, t: State)
    requires WiresOk(c, s) && t.loops == s.loops
    requires t.sending == s.sending || (t.sending == None && s.loops == [])
    requires t.channels == s.channels && t.finished == s.finished
    ensures WiresOk(c, t)
  {
    forall k | 0 <= k < |t.channels|
      ensures WireOk(c, t, k)
    {
      assert WireOk(c, s, k);
    }
  }

  lemma {:induction false} WiresRun(c: Codec, s: State, es: seq<Event>)
    requires Ok(c, s) && WiresOk(c, s) && IsRun(c, s, es) && !BreaksSometime(c, s, es)
    ensures WiresOk(c, After(c, s, es))
    decreases |es|
  {
    if |es| > 0 {
      EventKeeps(c, s, es[0]);
      WiresKeep(c, s, es[0]);
      WiresRun(c, Apply(c, s, es[0]), es[1..]);
    }
  }

  lemma {:induction false} CarriedIsIn(chs: seq<Channel>, k: nat, u: Upload)
    requires k < |chs| && u in chs[k].carried
    ensures u in AllCarried(chs)
  {
    if k < |chs| - 1 {
      CarriedIsIn(chs[..|chs| - 1], k, u);
    }
  }

  /** From send() to the other page, in any run with any number of connections after which nothing is
      in flight: each channel was given whole uploads, none interleaved; all channels together were
      given the uploads that were not dropped, in the order of the calls; and the receiver of a channel
      that has delivered all it was given has all those uploads, exactly if none of them is a file that
      cannot arrive. */
  lemma QueueDelivers(c: Codec, es: seq<Event>)
    requires CodecOk(c) && IsRun(c, Start, es) && After(c, Start, es).sending == None
    requires forall u | u in Calls(es) :: UploadOk(u)
    ensures var s := After(c, Start, es);
            && AllCarried(s.channels) + s.queue == s.kept && (s.connected ==> s.queue == [])
            && (NeverDisconnects(es) ==> s.kept == Calls(es))
            && forall k | 0 <= k < |s.channels| :: Delivered(c, s.channels[k])
  {
    RunKeeps(c, Start, es);
    QueueSticksExactly(c, es);
    WiresRun(c, Start, es);
    if NeverDisconnects(es) {
      AllAccounted(c, Start, es);
    }
    var s := After(c, Start, es);
    NothingWaits(c, s);
    forall u | u in s.kept
      ensures UploadOk(u)
    {
      KeptAreCalls(c, es, u);
    }
    forall k | 0 <= k < |s.channels|
      ensures Delivered(c, s.channels[k])
    {
      ChannelDelivers(c, s, k);
    }
  }

  /** A channel was given whole uploads, and its receiver has them all if they can arrive. */
  predicate Delivered(c: Codec, ch: Channel) {
    && ch.wire == AllMessages(c, ch.carried)
    && (ReceiveAll(c, Idle, ch.wire) == Receiver(None, ItemsOf(ch.carried), 0) <==>
          forall u | u in ch.carried :: Arrives(u))
  }

  lemma ChannelDelivers(c: Codec, s: State, k: nat)
    requires CodecOk(c) && Ok(c, s) && WiresOk(c, s) && s.sending == None && k < |s.channels|
    requires forall u | u in s.kept :: UploadOk(u)
    ensures Delivered(c, s.channels[k])
  {
    IdleWire(c, s, k);
    forall u | u in s.channels[k].carried
      ensures UploadOk(u)
    {
      CarriedIsIn(s.channels, k, u);
      assert u in s.finished;
    }
    StreamRoundTrip(c, s.channels[k].carried);
  }

  lemma IdleWire(c: Codec, s: State, k: nat)
    requires Ok(c, s) && WiresOk(c, s) && s.sending == None && k < |s.channels|
    ensures s.channels[k].wire == AllMessages(c, s.channels[k].carried)
  {
    assert WireOk(c, s, k);
    assert s.loops == [];
    var all := AllMessages(c, s.channels[k].carried);
    assert all + [] == all;
  }

  // ---- The page's globals ----

  class Sender {
    const codec: Codec
    var sendqueue: seq<Upload>
    var sending: Option<Upload>
    var connected: bool
    var loops: seq<Loop>
    var channels: seq<Channel>
    var finished: seq<Upload>
    ghost var kept: seq<Upload>
    ghost var dropped: seq<Upload>

    constructor (codec: Codec)
      ensures Valid() && Value() == Start && this.codec == codec
    {
      this.codec := codec;
      sendqueue, sending, connected, loops := [], None, false, [];
      channels, finished, kept, dropped := [], [], [], [];
    }

    ghost function Value(): State
      reads this
    {
      State(sendqueue, sending, connected, loops, channels, finished, kept, dropped)
    }

    /** What every method keeps. */
    ghost predicate Valid()
      reads this
    {
      Ok(codec, Value())
    }

    /** The loop's condition, and its body up to the await. */
    method NextUpload()
      requires Accounts(codec, Value()) && sending == None
      modifies this
      ensures Valid() && Value() == Continue(codec, old(Value()))
    {
      ContinueKeeps(codec, Value());
      if |sendqueue| == 0 {
        sending := None;
        return;
      }
      sending := Some(sendqueue[0]);
      sendqueue := sendqueue[1..];
      if connected && |channels| > 0 && channels[|channels| - 1].open {
        loops := loops + [Loop(sending.value, 0, |channels| - 1, false)];
        SendNext(|loops| - 1);
      }
    }

    /** dc.send of a transfer's next message. */
    method SendNext(i: nat)
      requires i < |loops| && loops[i].chan < |channels| && Left(codec, loops[i])
      modifies this`channels, this`loops
      ensures Value() == SendOne(codec, old(Value()), i)
    {
      var k := loops[i].chan;
      channels := channels[k := Carry(channels[k], Messages(codec, loops[i].upload)[loops[i].sent])];
      loops := loops[i := loops[i].(sent := loops[i].sent + 1)];
    }

    /** send(), up to its first await. */
    method Send(item: Option<Upload>)
      requires if item.Some? then Valid() else Accounts(codec, Value())
      modifies this
      ensures Valid()
      ensures item.Some? ==> Value() == Apply(codec, old(Value()), Call(item.value))
      ensures item.None? ==> Value() == Kick(codec, old(Value()))
    {
      if item.Some? {
        CallKeeps(codec, Value(), item.value);
        Associate(finished + InFlight(Value()), sendqueue, [item.value]);
        sendqueue := sendqueue + [item.value];
        kept := kept + [item.value];
      }
      KickKeeps(codec, Value());
      if !connected {
        return;
      }
      if sending.Some? {
        return;
      }
      NextUpload();
    }

    /** The channel's onopen. */
    method OnOpen()
      requires Valid()
      modifies this
      ensures Valid() && Value() == Apply(codec, old(Value()), Open)
    {
      connected := true;
      channels := channels + [NewChannel];
      Send(None);
    }

    method PushMessage(i: nat)
      requires Valid() && Enabled(codec, Value(), Push(i))
      modifies this`channels, this`loops
      ensures Valid() && Value() == Apply(codec, old(Value()), Push(i))
    {
      LoopStepKeeps(codec, Value(), Push(i));
      SendNext(i);
    }

    /** After the await, up to the next one. */
    method TransferEnds(i: nat)
      requires Valid() && Enabled(codec, Value(), Finish(i))
      modifies this
      ensures Valid() && Value() == Apply(codec, old(Value()), Finish(i))
    {
      EndedKeeps(codec, Value(), i);
      var u, k := loops[i].upload, loops[i].chan;
      finished := finished + [u];
      channels := channels[k := End(channels[k], u)];
      loops := Without(loops, i);
      sending := None;
      assert Value() == Ended(old(Value()), i);
      NextUpload();
    }

    method TransferThrows(i: nat)
      requires Valid() && Enabled(codec, Value(), Fail(i))
      modifies this`loops
      ensures Valid() && Value() == Apply(codec, old(Value()), Fail(i))
    {
      FailKeeps(codec, Value(), i);
      loops := Without(loops, i);
    }

    /** disconnected(). */
    method Disconnected()
      requires Valid()
      modifies this
      ensures Valid() && Value() == Apply(codec, old(Value()), Disconnect)
    {
      DisconnectKeeps(codec, Value());
      connected := false;
      if |sendqueue| <= |kept| {
        kept := kept[..|kept| - |sendqueue|];
      }
      dropped := dropped + sendqueue;
      sendqueue := [];
    }
  }
}
