/** Runs of the handshake with two passwords: nobody resolves. */
module HandshakeLocked {
  import opened Words
  import opened Handshake

  /** The messages of a player whose key the other does not have: its PAKE message, then messages
      sealed with that key. */
  predicate LockedMsg(i: nat, m: Msg, side: Who, a: Pass, b: Pass) {
    if i == 0 then m == if side == One then PakeB(b) else PakeA(a)
    else m.Sealed? && m.key == Apart(side, a, b)
  }

  predicate LockedSent(sent: seq<Msg>, side: Who, a: Pass, b: Pass) {
    forall i | 0 <= i < |sent| :: LockedMsg(i, sent[i], side, a, b)
  }

  /** Such a player after n messages: the third one, which it cannot open, makes it reject. */
  predicate Locked(p: Player, side: Who, a: Pass, b: Pass, sent: seq<Msg>, n: nat) {
    && p.pass == (if side == One then b else a) && p.waiting == [] && p.micro == [] && p.remote == None
    && LockedSent(sent, side, a, b)
    && (p.key == if n >= 2 then Some(Apart(side, a, b)) else None)
    && (p.done == if n >= 3 then Rejected else Pending)
    && (n <= 1 ==> p.api == Quiet && p.local == None)
    && (p.local.Some? ==> |sent| >= 1) && (n <= 2 ==> p.open)
    && match side
       case One =>
         && (n == 0 ==> p.state == StatePlayer1 && sent == [])
         && (n == 1 ==> p.state == WaitForPAKEA && sent == [])
         && (n >= 2 ==> |sent| >= 1 && (p.api == Quiet || p.api == CreatingOffer))
         && (n == 2 ==> p.state == if p.api == Quiet then WaitForRemoteAnswer else WaitForLocalOffer)
         && (n >= 3 ==> p.state == WaitForRemoteAnswer || p.state == StateError)
       case Two =>
         && p.api == Quiet && p.local == None
         && (n == 0 ==> p.state == StatePlayer2 && sent == [])
         && (n == 1 ==> p.state == WaitForPAKEB && |sent| == 1)
         && (n == 2 ==> p.state == WaitForRemoteOffer && |sent| == 1)
         && (n >= 3 ==> p.state == StateError && |sent| >= 1)
  }

  lemma LockedReceives(p: Player, side: Who, a: Pass, b: Pass, sent: seq<Msg>, n: nat, m: Msg)
    requires a != b && Locked(p, side, a, b, sent, n)
    requires if n == 0 then m == Hello else LockedMsg(n - 1, m, if side == One then Two else One, a, b)
    ensures Locked(OnMessage(p, m).p, side, a, b, sent + (if p.open then OnMessage(p, m).sent else []), n + 1)
  {
  }

  lemma LockedOther(p: Player, side: Who, a: Pass, b: Pass, sent: seq<Msg>, n: nat, e: Event)
    requires a != b && Locked(p, side, a, b, sent, n)
    requires (e.Ready? && p.api != Quiet && p.key.Some?) || (e.Ice? && p.local.Some?)
    ensures var o := if e.Ready? then ApiDone(p, e.sdp) else OnIceCandidate(p, e.c);
            Locked(o.p, side, a, b, sent + (if p.open then o.sent else []), n)
  {
  }

  predicate BothLocked(l: Link, a: Pass, b: Pass) {
    && Locked(l.one, One, a, b, l.sent1, l.read1) && Locked(l.two, Two, a, b, l.sent2, l.read2)
    && l.read1 <= 1 + |l.sent2| && l.read2 <= 1 + |l.sent1|
  }

  lemma LockedKeeps(l: Link, a: Pass, b: Pass, e: Event)
    requires a != b && BothLocked(l, a, b) && Enabled(l, e)
    ensures BothLocked(Apply(l, e), a, b)
  {
    var side := e.w;
    var p, n := Me(l, side), Read(l, side);
    var sent := if side == One then l.sent1 else l.sent2;
    if e.Receive? {
      var m := Mail(l, side)[n];
      if n > 0 {
        assert LockedMsg(n - 1, (if side == One then l.sent2 else l.sent1)[n - 1],
                         if side == One then Two else One, a, b);
      }
      LockedReceives(p, side, a, b, sent, n, m);
    } else {
      LockedOther(p, side, a, b, sent, n, e);
    }
  }

  lemma {:induction false} LockedRun(l: Link, a: Pass, b: Pass, es: seq<Event>)
    requires a != b && BothLocked(l, a, b) && IsRun(l, es)
    ensures BothLocked(After(l, es), a, b)
    decreases |es|
  {
    if |es| > 0 {
      LockedKeeps(l, a, b, es[0]);
      LockedRun(Apply(l, es[0]), a, b, es[1..]);
    }
  }

  /** With two passwords neither player ever resolves or takes over a description or a candidate of
      the other, in any run; whoever receives a sealed message rejects. */
  lemma WrongPasswordNeverResolves(pass1: Pass, pass2: Pass, es: seq<Event>, who: Who)
    requires pass1 != pass2 && IsRun(Begun(pass1, pass2), es)
    ensures var l := After(Begun(pass1, pass2), es);
            var p := Me(l, who);
            && !p.done.Resolved? && p.remote == None
            && (p.done.Rejected? <==> Read(l, who) >= 3)
  {
    LockedRun(Begun(pass1, pass2), pass2, pass1, es);
  }
}
