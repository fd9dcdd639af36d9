/** What a player keeps whatever messages come, from an honest peer, one with another password or
    one that sends what it likes. */
module HandshakeSound {
  import opened Words
  import opened Handshake

  /** The states before there is a key. */
  predicate Early(st: St) {
    st == StatePlayer1 || st == StatePlayer2 || st == WaitForPAKEA || st == WaitForPAKEB
  }

  /** A state that the field may have, now or by an assignment still queued. */
  predicate Fits(p: Player, st: St) {
    && (Early(st) ==> p.key == None)
    && (!Early(st) && st != StateError ==> p.key.Some?)
    && (st == WaitForRemoteAnswer ==> p.local.Some?)
  }

  /** Without a key nothing has begun; a resolved promise has the fingerprint of the player's own key,
      and both descriptions are there. */
  predicate Sound(p: Player) {
    && (p.key == None ==>
          && p.api == Quiet && p.local == None && p.remote == None && !p.done.Resolved?
          && p.waiting == [] && p.micro == [] && p.added == [] && p.produced == [])
    && Fits(p, p.state)
    && (forall i | 0 <= i < |p.micro| && p.micro[i].Assign? :: Fits(p, p.micro[i].st))
    && (p.api == CreatingAnswer ==> p.remote.Some?)
    && (p.done.Resolved? ==> p.key == Some(p.done.fingerprint) && p.local.Some? && p.remote.Some?)
  }

  lemma FailSound(p: Player)
    requires Sound(p)
    ensures Sound(Fail(p).p) && Sound(Reject(p))
  {
  }

  lemma EarlySound(p: Player, m: Msg)
    requires Sound(p) && Early(p.state)
    ensures Sound(OnMessage(p, m).p)
  {
    FailSound(p);
  }

  lemma DescriptionSound(p: Player, m: Msg)
    requires Sound(p) && (p.state == WaitForRemoteOffer || p.state == WaitForRemoteAnswer)
    ensures Sound(OnMessage(p, m).p)
  {
    FailSound(p);
  }

  lemma CandidateSound(p: Player, m: Msg)
    requires Sound(p)
    ensures Sound(ProcessCandidate(p, m).p)
  {
    FailSound(p);
  }

  lemma MessageSound(p: Player, m: Msg)
    requires Sound(p)
    ensures Sound(OnMessage(p, m).p)
  {
    if Early(p.state) {
      EarlySound(p, m);
    } else if p.state == WaitForRemoteOffer || p.state == WaitForRemoteAnswer {
      DescriptionSound(p, m);
    } else {
      FailSound(p);
      CandidateSound(p, m);
    }
  }

  lemma ApiSound(p: Player, sdp: nat)
    requires Sound(p) && p.api != Quiet
    ensures Sound(ApiDone(p, sdp).p)
  {
  }

  lemma MicroSound(p: Player)
    requires Sound(p) && p.micro != []
    ensures Sound(RunMicro(p).p)
  {
    var q := p.(micro := p.micro[1..]);
    assert forall i | 0 <= i < |q.micro| :: q.micro[i] == p.micro[i + 1];
    if p.micro[0].Rest? {
      CandidateSound(q, p.micro[0].m);
    }
  }

  lemma IceSound(p: Player, c: nat)
    requires Sound(p)
    ensures Sound(OnIceCandidate(p, c).p)
  {
  }

  lemma EventSound(l: Link, e: Event, who: Who)
    requires Sound(Me(l, who)) && Enabled(l, e)
    ensures Sound(Me(Apply(l, e), who))
  {
    var p := Me(l, who);
    if e.w == who {
      match e
      case Receive(w) => MessageSound(p, Mail(l, w)[Read(l, w)]);
      case Ready(_, sdp) => ApiSound(p, sdp);
      case Microtask(_) => MicroSound(p);
      case Ice(_, c) => IceSound(p, c);
    }
  }

  lemma {:induction false} RunSound(l: Link, es: seq<Event>, who: Who)
    requires Sound(Me(l, who)) && IsRun(l, es)
    ensures Sound(Me(After(l, es), who))
    decreases |es|
  {
    if |es| > 0 {
      EventSound(l, es[0], who);
      RunSound(Apply(l, es[0]), es[1..], who);
    }
  }

  /** Whatever the passwords: who resolves has resolved with the fingerprint of its own key, holding a
      description of its own and one of the other, and does nothing before it has a key. */
  lemma ResolvesWithOwnKey(pass1: Pass, pass2: Pass, es: seq<Event>, who: Who)
    requires IsRun(Begun(pass1, pass2), es)
    ensures var p := Me(After(Begun(pass1, pass2), es), who);
            && (p.done.Resolved? ==> p.key == Some(p.done.fingerprint) && p.local.Some? && p.remote.Some?)
            && (p.key == None ==> p.local == None && p.remote == None && p.added == [] && p.produced == [])
  {
    RunSound(Begun(pass1, pass2), es, who);
  }
}
