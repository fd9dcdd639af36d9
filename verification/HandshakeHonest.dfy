/** Runs of the handshake with one password: what has been sent, what a player is at after so many
    messages, and that both ends agree. */
module HandshakeHonest {
  import opened Words
  import opened Handshake

  function Cands(k: Key, cs: seq<nat>): (ms: seq<Msg>)
    ensures |ms| == |cs|
  {
    seq(|cs|, i requires 0 <= i < |cs| => Sealed(k, Candidate(cs[i])))
  }

  /** What player 1 has sent, by how far it is. */
  predicate SaysOne(p: Player, w: Pass, sent: seq<Msg>) {
    if p.state == StatePlayer1 || p.state == WaitForPAKEA then sent == [] && p.local == None && p.produced == []
    else if p.local == None then sent == [PakeB(w)] && p.produced == []
    else p.local.value.kind == Offer
         && sent == [PakeB(w), Sealed(Shared(w), Describe(p.local.value))] + Cands(Shared(w), p.produced)
  }

  predicate SaysTwo(p: Player, w: Pass, sent: seq<Msg>) {
    if p.state == StatePlayer2 then sent == [] && p.local == None && p.produced == []
    else if p.local == None then sent == [PakeA(w)] && p.produced == []
    else p.local.value.kind == Answer
         && sent == [PakeA(w), Sealed(Shared(w), Describe(p.local.value))] + Cands(Shared(w), p.produced)
  }

  /** Player 1 after n messages; d and cs are the other's description and candidates. */
  predicate StandsOne(p: Player, w: Pass, n: nat, d: Option<Desc>, cs: seq<nat>) {
    && p.pass == w && p.open && p.micro == [] && p.waiting == []
    && (p.key == if n >= 2 then Some(Shared(w)) else None)
    && (n <= 1 ==> p.api == Quiet && p.local == None && p.state == if n == 0 then StatePlayer1 else WaitForPAKEA)
    && (n == 2 && p.local == None ==> p.state == WaitForLocalOffer && p.api == CreatingOffer)
    && (n == 2 && p.local.Some? ==> p.state == WaitForRemoteAnswer && p.api == Quiet)
    && (n <= 2 ==> p.done == Pending && p.remote == None && p.added == [])
    && (n >= 3 ==> p.state == WaitForCandidates && p.api == Quiet && p.done == Resolved(Shared(w)) && p.local.Some?
                   && d.Some? && p.remote == d && n - 3 <= |cs| && p.added == cs[..n - 3])
  }

  /** The candidates of the handlers that the queued microtasks will finish. */
  function Queued(micro: seq<Micro>): seq<nat> {
    if |micro| == 0 then [] else Carried(micro[0]) + Queued(micro[1..])
  }

  function Carried(m: Micro): seq<nat> {
    if m.Rest? && m.m.Sealed? && m.m.body.Candidate? then [m.m.body.c] else []
  }

  predicate MicroOk(w: Pass, m: Micro) {
    match m
    case Rest(msg) => msg.Sealed? && msg.key == Shared(w) && msg.body.Candidate?
    case Assign(st) => st == WaitForCandidates || st == WaitForLocalAnswer
  }

  /** Player 2 after n messages. While it makes its answer, the candidates that have come wait; after
      that those added and those still queued, in this order, are the ones that have come. */
  predicate StandsTwo(p: Player, w: Pass, n: nat, d: Option<Desc>, cs: seq<nat>) {
    && p.pass == w && p.open
    && (p.key == if n >= 2 then Some(Shared(w)) else None)
    && (n <= 2 ==> p.state == (if n == 0 then StatePlayer2 else if n == 1 then WaitForPAKEB else WaitForRemoteOffer)
                   && p.api == Quiet && p.local == None && p.remote == None && p.done == Pending
                   && p.added == [] && p.waiting == [] && p.micro == [])
    && (n >= 3 ==> d.Some? && n - 3 <= |cs|)
    && (n >= 3 && p.local == None ==> StandsMaking(p, w, n, d, cs))
    && (n >= 3 && p.local.Some? ==> StandsDone(p, w, n, d, cs))
  }

  predicate StandsMaking(p: Player, w: Pass, n: nat, d: Option<Desc>, cs: seq<nat>)
    requires n >= 3 && d.Some? && n - 3 <= |cs|
  {
    && p.state == WaitForLocalAnswer && p.done == Pending && p.added == [] && p.micro == []
    && (if p.remote == None then p.api == SettingRemote(d.value) else p.api == CreatingAnswer && p.remote == d)
    && p.waiting == Cands(Shared(w), cs[..n - 3])
  }

  predicate StandsDone(p: Player, w: Pass, n: nat, d: Option<Desc>, cs: seq<nat>)
    requires n >= 3 && n - 3 <= |cs|
  {
    && (p.state == WaitForLocalAnswer || p.state == WaitForCandidates)
    && p.done == Resolved(Shared(w)) && p.api == Quiet && p.remote == d && p.waiting == []
    && (forall i | 0 <= i < |p.micro| :: MicroOk(w, p.micro[i]))
    && p.added + Queued(p.micro) == cs[..n - 3]
  }

  predicate Honest(l: Link, w: Pass) {
    && SaysOne(l.one, w, l.sent1) && SaysTwo(l.two, w, l.sent2)
    && StandsOne(l.one, w, l.read1, l.two.local, l.two.produced)
    && StandsTwo(l.two, w, l.read2, l.one.local, l.one.produced)
    && l.read1 <= 1 + |l.sent2| && l.read2 <= 1 + |l.sent1|
  }

  /** What the next message is. */
  lemma NextForOne(l: Link, w: Pass)
    requires Honest(l, w) && l.read1 < 1 + |l.sent2|
    ensures var m := Mail(l, One)[l.read1];
            && Expected(l.one.state, l.one.key, m)
            && (l.read1 == 0 ==> m == Hello) && (l.read1 == 1 ==> m == PakeA(w))
            && (l.read1 == 2 ==>
                  l.one.local.Some? && l.two.local.Some? && m == Sealed(Shared(w), Describe(l.two.local.value)))
            && (l.read1 >= 3 ==>
                  l.read1 - 3 < |l.two.produced| && m == Sealed(Shared(w), Candidate(l.two.produced[l.read1 - 3])))
  {
  }

  lemma NextForTwo(l: Link, w: Pass)
    requires Honest(l, w) && l.read2 < 1 + |l.sent1|
    ensures var m := Mail(l, Two)[l.read2];
            && Expected(l.two.state, l.two.key, m)
            && (l.read2 == 0 ==> m == Hello) && (l.read2 == 1 ==> m == PakeB(w))
            && (l.read2 == 2 ==> l.one.local.Some? && m == Sealed(Shared(w), Describe(l.one.local.value)))
            && (l.read2 >= 3 ==>
                  l.read2 - 3 < |l.one.produced| && m == Sealed(Shared(w), Candidate(l.one.produced[l.read2 - 3])))
  {
  }

  lemma OneReceives(l: Link, w: Pass)
    requires Honest(l, w) && Enabled(l, Receive(One))
    ensures Honest(Apply(l, Receive(One)), w)
  {
    NextForOne(l, w);
    var k := l.read1;
    if k >= 3 {
      var cs := l.two.produced;
      assert cs[..k - 2] == cs[..k - 3] + [cs[k - 3]];
    }
  }

  lemma OneOther(l: Link, w: Pass, e: Event)
    requires Honest(l, w) && Enabled(l, e) && e.w == One && !e.Receive?
    ensures Honest(Apply(l, e), w)
  {
  }

  lemma {:induction false} QueuedConcat(a: seq<Micro>, b: seq<Micro>)
    ensures Queued(a + b) == Queued(a) + Queued(b)
  {
    if |a| == 0 {
      assert a + b == b;
    } else {
      QueuedConcat(a[1..], b);
      assert (a + b)[1..] == a[1..] + b;
      Associate(Carried(a[0]), Queued(a[1..]), Queued(b));
    }
  }

  lemma QueuedOne(m: Micro)
    ensures Queued([m]) == Carried(m)
  {
    assert Queued([m][1..]) == [];
  }

  lemma {:induction false} QueuedRests(k: Key, cs: seq<nat>)
    ensures Queued(Rests(Cands(k, cs))) == cs
  {
    if |cs| > 0 {
      QueuedRests(k, cs[1..]);
      assert Rests(Cands(k, cs))[1..] == Rests(Cands(k, cs[1..]));
    }
  }

  lemma CandsSnoc(k: Key, cs: seq<nat>, i: nat)
    requires i < |cs|
    ensures cs[..i + 1] == cs[..i] + [cs[i]]
    ensures Cands(k, cs[..i + 1]) == Cands(k, cs[..i]) + [Sealed(k, Candidate(cs[i]))]
  {
  }

  /** A candidate that comes during the handshake waits. */
  lemma CandidateWaits(p: Player, w: Pass, n: nat, d: Option<Desc>, cs: seq<nat>)
    requires n >= 3 && StandsTwo(p, w, n, d, cs) && n - 3 < |cs| && p.local == None
    ensures var o := OnMessage(p, Sealed(Shared(w), Candidate(cs[n - 3])));
            StandsTwo(o.p, w, n + 1, d, cs) && o.sent == [] && o.p == p.(waiting := o.p.waiting)
  {
    CandsSnoc(Shared(w), cs, n - 3);
  }

  /** One that comes later is queued, or added at once if the state field allows it. */
  lemma CandidateIsAdded(p: Player, w: Pass, n: nat, d: Option<Desc>, cs: seq<nat>)
    requires n >= 3 && StandsTwo(p, w, n, d, cs) && n - 3 < |cs| && p.local.Some? && p.micro == []
    ensures var o := OnMessage(p, Sealed(Shared(w), Candidate(cs[n - 3])));
            StandsTwo(o.p, w, n + 1, d, cs) && o.sent == [] && o.p == p.(added := o.p.added, micro := o.p.micro)
  {
    var m := Sealed(Shared(w), Candidate(cs[n - 3]));
    assert cs[..n - 2] == cs[..n - 3] + [cs[n - 3]];
    assert p.added + [] == p.added == cs[..n - 3];
    var o := OnMessage(p, m);
    if p.state == WaitForCandidates {
      assert o.p == p.(added := p.added + [cs[n - 3]]);
      assert o.p.added + [] == o.p.added;
    } else {
      assert p.micro + [Rest(m)] == [Rest(m)];
      assert o.p == p.(micro := [Rest(m)]);
      QueuedOne(Rest(m));
    }
  }

  lemma TwoBegins(l: Link, w: Pass)
    requires Honest(l, w) && Enabled(l, Receive(Two)) && l.read2 <= 2
    ensures Honest(Apply(l, Receive(Two)), w)
  {
    NextForTwo(l, w);
  }

  lemma TwoGoesOn(l: Link, w: Pass, p: Player)
    requires Honest(l, w) && 3 <= l.read2 < 1 + |l.sent1|
    requires StandsTwo(p, w, l.read2 + 1, l.one.local, l.one.produced)
    requires p == l.two.(waiting := p.waiting, added := p.added, micro := p.micro)
    ensures Honest(l.(two := p, read2 := l.read2 + 1), w)
  {
  }

  lemma TwoReceives(l: Link, w: Pass)
    requires Honest(l, w) && Enabled(l, Receive(Two))
    ensures Honest(Apply(l, Receive(Two)), w)
  {
    if l.read2 <= 2 {
      TwoBegins(l, w);
    } else {
      NextForTwo(l, w);
      if l.two.local == None {
        CandidateWaits(l.two, w, l.read2, l.one.local, l.one.produced);
      } else {
        CandidateIsAdded(l.two, w, l.read2, l.one.local, l.one.produced);
      }
      TwoGoesOn(l, w, Apply(l, Receive(Two)).two);
    }
  }

  lemma TwoAnswers(p: Player, w: Pass, n: nat, d: Option<Desc>, cs: seq<nat>, sdp: nat)
    requires StandsTwo(p, w, n, d, cs) && p.api == CreatingAnswer
    ensures StandsTwo(ApiDone(p, sdp).p, w, n, d, cs)
  {
    QueuedRests(Shared(w), cs[..n - 3]);
    QueuedOne(Assign(WaitForCandidates));
    QueuedConcat(Rests(p.waiting), [Assign(WaitForCandidates)]);
    assert p.micro + Rests(p.waiting) + [Assign(WaitForCandidates)] == Rests(p.waiting) + [Assign(WaitForCandidates)];
  }

  lemma TwoReady(l: Link, w: Pass, sdp: nat)
    requires Honest(l, w) && Enabled(l, Ready(Two, sdp))
    ensures Honest(Apply(l, Ready(Two, sdp)), w)
  {
    if l.two.api == CreatingAnswer {
      TwoAnswers(l.two, w, l.read2, l.one.local, l.one.produced, sdp);
      assert Cands(Shared(w), []) == [];
    }
  }

  lemma TwoAssigns(p: Player, w: Pass, n: nat, d: Option<Desc>, cs: seq<nat>)
    requires StandsTwo(p, w, n, d, cs) && p.micro != [] && p.micro[0].Assign?
    ensures StandsTwo(RunMicro(p).p, w, n, d, cs)
  {
    assert MicroOk(w, p.micro[0]);
    assert forall i | 0 <= i < |p.micro| - 1 :: MicroOk(w, p.micro[1..][i]);
    assert [] + Queued(p.micro[1..]) == Queued(p.micro[1..]);
  }

  lemma TwoResumes(p: Player, w: Pass, n: nat, d: Option<Desc>, cs: seq<nat>)
    requires StandsTwo(p, w, n, d, cs) && p.micro != [] && p.micro[0].Rest?
    ensures StandsTwo(RunMicro(p).p, w, n, d, cs) && RunMicro(p).sent == []
  {
    assert MicroOk(w, p.micro[0]);
    var c := p.micro[0].m.body.c;
    var o := RunMicro(p);
    assert o.p == p.(micro := p.micro[1..] + [Assign(p.state)], added := p.added + [c]);
    QueuedConcat(p.micro[1..], [Assign(p.state)]);
    QueuedOne(Assign(p.state));
    assert Queued(o.p.micro) == Queued(p.micro[1..]);
    Associate(p.added, [c], Queued(p.micro[1..]));
    assert forall i | 0 <= i < |p.micro| - 1 :: MicroOk(w, p.micro[1..][i]);
  }

  lemma TwoRuns(p: Player, w: Pass, n: nat, d: Option<Desc>, cs: seq<nat>)
    requires StandsTwo(p, w, n, d, cs) && p.micro != []
    ensures var o := RunMicro(p);
            StandsTwo(o.p, w, n, d, cs) && o.sent == [] && o.p.local == p.local && o.p.produced == p.produced
            && o.p.state in {WaitForCandidates, WaitForLocalAnswer}
  {
    if p.micro[0].Assign? {
      TwoAssigns(p, w, n, d, cs);
    } else {
      TwoResumes(p, w, n, d, cs);
    }
  }

  lemma TwoOther(l: Link, w: Pass, e: Event)
    requires Honest(l, w) && Enabled(l, e) && e.w == Two && !e.Receive?
    ensures Honest(Apply(l, e), w)
  {
    match e
    case Ready(_, sdp) => TwoReady(l, w, sdp);
    case Microtask(_) => TwoRuns(l.two, w, l.read2, l.one.local, l.one.produced);
    case Ice(_, c) =>
  }

  lemma EventKeeps(l: Link, w: Pass, e: Event)
    requires Honest(l, w) && Enabled(l, e)
    ensures Honest(Apply(l, e), w)
  {
    if e.w == One {
      if e.Receive? {
        OneReceives(l, w);
      } else {
        OneOther(l, w, e);
      }
    } else {
      if e.Receive? {
        TwoReceives(l, w);
      } else {
        TwoOther(l, w, e);
      }
    }
  }

  lemma {:induction false} RunKeeps(l: Link, w: Pass, es: seq<Event>)
    requires Honest(l, w) && IsRun(l, es)
    ensures Honest(After(l, es), w)
    decreases |es|
  {
    if |es| > 0 {
      EventKeeps(l, w, es[0]);
      RunKeeps(Apply(l, es[0]), w, es[1..]);
    }
  }

  /** With one password no player ever receives a message its state is not there for, however the
      API calls, the candidates and the deliveries interleave: the state between PAKE and offer is
      never asked. */
  lemma NothingUnexpected(w: Pass, es: seq<Event>, who: Who)
    requires IsRun(Begun(w, w), es) && Enabled(After(Begun(w, w), es), Receive(who))
    ensures var l := After(Begun(w, w), es);
            Expected(Me(l, who).state, Me(l, who).key, Mail(l, who)[Read(l, who)])
  {
    RunKeeps(Begun(w, w), w, es);
    var l := After(Begun(w, w), es);
    if who == One {
      NextForOne(l, w);
    } else {
      NextForTwo(l, w);
    }
  }

  /** Nobody fails. If player 1 has resolved, so has player 2, with the same fingerprint, and each
      holds the other's description. If player 2 has resolved, it holds player 1's offer, and its
      answer has been sent. */
  lemma ResolvedTogether(w: Pass, es: seq<Event>)
    requires IsRun(Begun(w, w), es)
    ensures var l := After(Begun(w, w), es);
            && l.one.done != Rejected && l.two.done != Rejected
            && l.one.state != StateError && l.two.state != StateError
            && (l.one.done.Resolved? ==>
                  l.two.done == l.one.done && l.one.remote.Some? && l.one.remote == l.two.local
                  && l.two.remote.Some? && l.two.remote == l.one.local)
            && (l.two.done.Resolved? ==>
                  l.two.remote.Some? && l.two.remote == l.one.local && l.two.local.Some?
                  && Sealed(Shared(w), Describe(l.two.local.value)) in l.sent2)
  {
    RunKeeps(Begun(w, w), w, es);
  }

  lemma TwoAdds(p: Player, w: Pass, n: nat, d: Option<Desc>, cs: seq<nat>)
    requires StandsTwo(p, w, n, d, cs) && n >= 3
    ensures p.added + Queued(Rests(p.waiting)) + Queued(p.micro) == cs[..n - 3]
    ensures p.local == None ==> p.added == []
    ensures p.local.Some? && p.micro == [] ==> p.added == cs[..n - 3]
  {
    if p.local == None {
      QueuedRests(Shared(w), cs[..n - 3]);
    }
    assert p.added + [] == p.added;
  }

  /** Once player 2 has the offer, every candidate of player 1 that it has received is added, waits
      or is queued exactly once and in the order of arrival, and none is added before the answer is
      sent; with no microtask left, all are added. Player 1 adds the candidates after the answer as
      they come. */
  lemma CandidatesInOrder(w: Pass, es: seq<Event>)
    requires IsRun(Begun(w, w), es)
    ensures var l := After(Begun(w, w), es);
            && (l.read2 >= 3 ==>
                  && l.read2 - 3 <= |l.one.produced|
                  && l.two.added + Queued(Rests(l.two.waiting)) + Queued(l.two.micro) == l.one.produced[..l.read2 - 3]
                  && (l.two.local == None ==> l.two.added == [])
                  && (l.two.local.Some? && l.two.micro == [] ==> l.two.added == l.one.produced[..l.read2 - 3]))
            && (l.read1 >= 3 ==> l.read1 - 3 <= |l.two.produced| && l.one.added == l.two.produced[..l.read1 - 3])
  {
    RunKeeps(Begun(w, w), w, es);
    var l := After(Begun(w, w), es);
    if l.read2 >= 3 {
      TwoAdds(l.two, w, l.read2, l.one.local, l.one.produced);
    }
  }
}
