/** The state field after the handshake: when a handler that waited for it leaves its own state behind. */
module HandshakeState {
  import opened Words
  import opened Handshake
  import opened HandshakeHonest

  /** The state that is left when the queued microtasks have run: a rest of a handler returns the
      state of its moment, whose assignment goes behind all that is queued; last is the latest of
      those assignments. */
  function Left(st: St, micro: seq<Micro>, last: Option<St>): St
    decreases |micro|
  {
    if |micro| == 0 then (if last.Some? then last.value else st)
    else
      match micro[0]
      case Assign(next) => Left(next, micro[1..], last)
      case Rest(_) => Left(st, micro[1..], Some(st))
  }

  function FinalState(p: Player): St {
    Left(p.state, p.micro, None)
  }

  lemma LeftOne(st: St, m: Micro)
    ensures Left(st, [m], None) == if m.Assign? then m.st else st
  {
    assert [m][1..] == [];
    assert Left(if m.Assign? then m.st else st, [], if m.Assign? then None else Some(st))
           == if m.Assign? then m.st else st;
  }

  lemma {:induction false} LeftAssign(st: St, micro: seq<Micro>, a: St, last: Option<St>)
    ensures Left(st, micro + [Assign(a)], last) == Left(st, micro, if last.Some? then last else Some(a))
    decreases |micro|
  {
    if |micro| == 0 {
      assert micro + [Assign(a)] == [Assign(a)];
      assert [Assign(a)][1..] == [];
    } else {
      assert (micro + [Assign(a)])[1..] == micro[1..] + [Assign(a)];
      match micro[0]
      case Assign(next) => LeftAssign(next, micro[1..], a, last);
      case Rest(_) => LeftAssign(st, micro[1..], a, Some(st));
    }
  }

  /** Running a microtask does not change what will be left, so it is what will be left: with an
      empty queue it is the state. */
  lemma RunMicroKeepsFinal(p: Player)
    requires p.micro != [] && p.done != Rejected
    ensures FinalState(RunMicro(p).p) == FinalState(p)
  {
    if p.micro[0].Rest? {
      LeftAssign(p.state, p.micro[1..], p.state, None);
    }
  }

  lemma {:induction false} LeftRests(st: St, ms: seq<Msg>, a: St)
    ensures Left(st, Rests(ms) + [Assign(a)], Some(st)) == st
  {
    var micro := Rests(ms) + [Assign(a)];
    if |ms| == 0 {
      assert micro == [Assign(a)];
      assert micro[1..] == [];
    } else {
      LeftRests(st, ms[1..], a);
      assert micro[1..] == Rests(ms[1..]) + [Assign(a)];
    }
  }

  /** The answer leaves the state for candidates, unless a handler was waiting for it. */
  lemma AnswerLeaves(p: Player, sdp: nat)
    requires p.api == CreatingAnswer && p.key.Some? && p.micro == [] && p.state == WaitForLocalAnswer
    ensures FinalState(ApiDone(p, sdp).p) == if p.waiting == [] then WaitForCandidates else WaitForLocalAnswer
  {
    var micro := ApiDone(p, sdp).p.micro;
    assert micro == Rests(p.waiting) + [Assign(WaitForCandidates)];
    if p.waiting == [] {
      assert micro == [Assign(WaitForCandidates)];
      LeftOne(p.state, Assign(WaitForCandidates));
    } else {
      assert micro[1..] == Rests(p.waiting[1..]) + [Assign(WaitForCandidates)];
      LeftRests(p.state, p.waiting[1..], WaitForCandidates);
    }
  }

  /** Nothing that happens after the answer changes what will be left. */
  lemma FinalStays(l: Link, w: Pass, e: Event)
    requires Honest(l, w) && Enabled(l, e) && l.read2 >= 3 && l.two.local.Some?
    ensures Apply(l, e).two.local.Some? && Apply(l, e).read2 >= 3
    ensures FinalState(Apply(l, e).two) == FinalState(l.two)
  {
    if e.w == Two {
      match e
      case Receive(_) =>
        NextForTwo(l, w);
        CandidateLeaves(l.two, Mail(l, Two)[l.read2]);
      case Microtask(_) => RunMicroKeepsFinal(l.two);
      case _ =>
    }
  }

  lemma CandidateLeaves(p: Player, m: Msg)
    requires p.micro == [] && p.done.Resolved? && (p.state == WaitForLocalAnswer || p.state == WaitForCandidates)
    requires Expected(p.state, p.key, m)
    ensures FinalState(OnMessage(p, m).p) == p.state
  {
    if p.state == WaitForLocalAnswer {
      var micro := OnMessage(p, m).p.micro;
      assert micro == [Rest(m)];
      LeftOne(p.state, Rest(m));
    }
  }

  lemma {:induction false} FinalStaysInRun(l: Link, w: Pass, es: seq<Event>)
    requires Honest(l, w) && IsRun(l, es) && l.read2 >= 3 && l.two.local.Some?
    ensures FinalState(After(l, es).two) == FinalState(l.two)
    decreases |es|
  {
    if |es| > 0 {
      FinalStays(l, w, es[0]);
      EventKeeps(l, w, es[0]);
      FinalStaysInRun(Apply(l, es[0]), w, es[1..]);
    }
  }

  /** After the handshake player 2's state field is left at stateWaitForLocalAnswer, in every run and
      for good, if and only if a candidate had come before its answer was created; otherwise at
      stateWaitForCandidates. Either way the candidates are added, see above. */
  lemma StateFieldLeftBehind(w: Pass, before: seq<Event>, sdp: nat, later: seq<Event>)
    requires IsRun(Begun(w, w), before)
    requires var l := After(Begun(w, w), before);
             l.two.api == CreatingAnswer && Enabled(l, Ready(Two, sdp)) && IsRun(Apply(l, Ready(Two, sdp)), later)
    ensures var l := After(Begun(w, w), before);
            var p := After(Apply(l, Ready(Two, sdp)), later).two;
            && FinalState(p) == (if l.read2 > 3 then WaitForLocalAnswer else WaitForCandidates)
            && (p.micro == [] ==> p.state == FinalState(p))
  {
    RunKeeps(Begun(w, w), w, before);
    var l := After(Begun(w, w), before);
    EventKeeps(l, w, Ready(Two, sdp));
    AnswerLeaves(l.two, sdp);
    FinalStaysInRun(Apply(l, Ready(Two, sdp)), w, later);
  }

  /** Both come about: a candidate may overtake the answer. */
  lemma CandidateBeforeAnswer(w: Pass, c: nat)
    ensures exists es :: EarlyCandidate(w, es)
  {
    var hello := Keying(w);
    var l := After(Begun(w, w), hello);
    var offer := Deferring(w, c, l);
    RunConcat(Begun(w, w), hello, offer);
    assert EarlyCandidate(w, hello + offer);
  }

  predicate EarlyCandidate(w: Pass, es: seq<Event>) {
    IsRun(Begun(w, w), es) && var l := After(Begun(w, w), es); l.two.api == CreatingAnswer && l.read2 > 3
  }

  predicate Keyed(w: Pass, l: Link) {
    && l.one == Begin(WaitForLocalOffer, w).(key := Some(Shared(w)), api := CreatingOffer)
    && l.two == Begin(WaitForRemoteOffer, w).(key := Some(Shared(w)))
    && l.sent1 == [PakeB(w)] && l.sent2 == [PakeA(w)] && l.read1 == 2 && l.read2 == 2
  }

  lemma Keying(w: Pass) returns (es: seq<Event>)
    ensures IsRun(Begun(w, w), es) && Keyed(w, After(Begun(w, w), es))
  {
    es := [Receive(Two), Receive(One), Receive(One), Receive(Two)];
    var l0 := Begun(w, w);
    var l1 := Apply(l0, es[0]);
    var l2 := Apply(l1, es[1]);
    var l3 := Apply(l2, es[2]);
    OneStep(l3, es[3..]);
    OneStep(l2, es[2..]);
    OneStep(l1, es[1..]);
    OneStep(l0, es);
  }

  lemma Deferring(w: Pass, c: nat, l0: Link) returns (es: seq<Event>)
    requires Keyed(w, l0)
    ensures IsRun(l0, es) && After(l0, es).two.api == CreatingAnswer && After(l0, es).read2 > 3
  {
    es := [Ready(One, 0), Ice(One, c), Receive(Two), Receive(Two), Ready(Two, 0)];
    var l1 := Apply(l0, es[0]);
    var l2 := Apply(l1, es[1]);
    var l3 := Apply(l2, es[2]);
    var l4 := Apply(l3, es[3]);
    OneStep(l4, es[4..]);
    OneStep(l3, es[3..]);
    OneStep(l2, es[2..]);
    OneStep(l1, es[1..]);
    OneStep(l0, es);
  }

  lemma OneStep(l: Link, es: seq<Event>)
    requires |es| > 0 && Enabled(l, es[0]) && IsRun(Apply(l, es[0]), es[1..])
    ensures IsRun(l, es) && After(l, es) == After(Apply(l, es[0]), es[1..])
  {
  }

  lemma {:induction false} RunConcat(l: Link, a: seq<Event>, b: seq<Event>)
    requires IsRun(l, a) && IsRun(After(l, a), b)
    ensures IsRun(l, a + b) && After(l, a + b) == After(After(l, a), b)
    decreases |a|
  {
    if |a| == 0 {
      assert a + b == b;
    } else {
      RunConcat(Apply(l, a[0]), a[1..], b);
      assert (a + b)[0] == a[0] && (a + b)[1..] == a[1..] + b;
    }
  }
}
