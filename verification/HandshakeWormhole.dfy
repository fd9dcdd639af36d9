/** The Wormhole class (web/ww.ts) with its fields changed in place. Each method is a state function,
    or a stretch of one between two awaits, and does to the object what Handshake says. */
module HandshakeWormhole {
  import opened Words
  import H = Handshake
  import S = HandshakeSound

  class Wormhole {
    var state: H.St
    var pass: H.Pass
    var key: Option<H.Key>
    var local: Option<H.Desc>
    var remote: Option<H.Desc>
    var done: H.Done
    var api: H.Api
    var waiting: seq<H.Msg>
    var micro: seq<H.Micro>
    var open: bool
    var added: seq<nat>
    var produced: seq<nat>
    /** What the WebSocket has sent. */
    var sent: seq<H.Msg>

    constructor (code: bool, pass: H.Pass)
      ensures Valid() && Value() == H.Begin(if code then H.StatePlayer2 else H.StatePlayer1, pass) && sent == []
    {
      this.pass, key, local, remote, done, api := pass, None, None, None, H.Pending, H.Quiet;
      waiting, micro, open, added, produced, sent := [], [], true, [], [], [];
      if code {
        state := H.StatePlayer2;
      } else {
        state := H.StatePlayer1;
      }
    }

    ghost function Value(): H.Player
      reads this
    {
      H.Player(state, pass, key, local, remote, done, api, waiting, micro, open, added, produced)
    }

    /** What every message, every result of the API and every microtask keeps. */
    ghost predicate Valid()
      reads this
    {
      S.Sound(Value())
    }

    /** The object and its socket are now as the step says. */
    ghost predicate Did(o: H.Out, was: seq<H.Msg>, couldSend: bool)
      reads this
    {
      Value() == o.p && sent == was + if couldSend then o.sent else []
    }

    method Send(m: H.Msg)
      modifies `sent
      ensures sent == old(sent) + if open then [m] else []
    {
      if open {
        sent := sent + [m];
      }
    }

    method Reject()
      modifies `done
      ensures Value() == H.Reject(old(Value()))
    {
      if done == H.Pending {
        done := H.Rejected;
      }
    }

    method Resolve(fingerprint: H.Key)
      modifies `done
      ensures done == if old(done) == H.Pending then H.Resolved(fingerprint) else old(done)
    {
      if done == H.Pending {
        done := H.Resolved(fingerprint);
      }
    }

    method Fail()
      modifies this
      ensures Did(H.Fail(old(Value())), old(sent), old(open))
    {
      Reject();
      state := H.StateError;
    }

    method StatePlayer1(m: H.Msg)
      requires Valid() && state == H.StatePlayer1
      modifies this
      ensures Valid() && Did(H.OnMessage(old(Value()), m), old(sent), old(open))
    {
      S.MessageSound(Value(), m);
      if m != H.Hello {
        Fail();
        return;
      }
      state := H.WaitForPAKEA;
    }

    method StatePlayer2(m: H.Msg)
      requires Valid() && state == H.StatePlayer2
      modifies this
      ensures Valid() && Did(H.OnMessage(old(Value()), m), old(sent), old(open))
    {
      S.MessageSound(Value(), m);
      if m != H.Hello {
        Fail();
        return;
      }
      Send(H.PakeA(pass));
      state := H.WaitForPAKEB;
    }

    /** Up to the await of createOffer. */
    method StateWaitForPAKEA(m: H.Msg)
      requires Valid() && state == H.WaitForPAKEA
      modifies this
      ensures Valid() && Did(H.OnMessage(old(Value()), m), old(sent), old(open))
    {
      S.MessageSound(Value(), m);
      if !m.PakeA? {
        Fail();
        return;
      }
      key := Some(H.Derive(H.One, m.pass, pass));
      Send(H.PakeB(pass));
      state := H.WaitForLocalOffer;
      api := H.CreatingOffer;
    }

    method OfferCreated(sdp: nat)
      requires Valid() && api == H.CreatingOffer
      modifies this
      ensures Valid() && Did(H.ApiDone(old(Value()), sdp), old(sent), old(open))
    {
      S.ApiSound(Value(), sdp);
      var offer := H.Desc(H.Offer, sdp);
      Send(H.Sealed(key.value, H.Describe(offer)));
      local := Some(offer);
      api := H.Quiet;
      state := H.WaitForRemoteAnswer;
    }

    method StateWaitForPAKEB(m: H.Msg)
      requires Valid() && state == H.WaitForPAKEB
      modifies this
      ensures Valid() && Did(H.OnMessage(old(Value()), m), old(sent), old(open))
    {
      S.MessageSound(Value(), m);
      if !m.PakeB? {
        Fail();
        return;
      }
      key := Some(H.Derive(H.Two, pass, m.pass));
      state := H.WaitForRemoteOffer;
    }

    method BadKey()
      requires key.Some?
      modifies this
      ensures Did(H.BadKey(old(Value()), old(key).value), old(sent), old(open))
    {
      Send(H.Sealed(key.value, H.Bye));
      open := false;
      Fail();
    }

    /** Up to the await of setRemoteDescription. */
    method StateWaitForRemoteOffer(m: H.Msg)
      requires state == H.WaitForRemoteOffer
      modifies this
      ensures (old(Valid()) ==> Valid()) && Did(H.OnMessage(old(Value()), m), old(sent), old(open))
    {
      if Valid() {
        S.MessageSound(Value(), m);
      }
      if key == None {
        Fail();
        return;
      }
      var msg := H.Unseal(key.value, m);
      if msg == None {
        BadKey();
        return;
      }
      if !msg.value.Describe? || msg.value.desc.kind != H.Offer {
        Fail();
        return;
      }
      state := H.WaitForLocalAnswer;
      api := H.SettingRemote(msg.value.desc);
    }

    /** Up to the await of createAnswer. */
    method RemoteSet(sdp: nat)
      requires Valid() && api.SettingRemote?
      modifies this
      ensures Valid() && Did(H.ApiDone(old(Value()), sdp), old(sent), old(open))
    {
      S.ApiSound(Value(), sdp);
      remote := Some(api.desc);
      api := H.CreatingAnswer;
    }

    /** Settling this.done queues the handlers that await it, first come first. */
    method WakeWaiting()
      modifies `micro, `waiting
      ensures waiting == [] && micro == old(micro) + H.Rests(old(waiting))
    {
      while |waiting| > 0
        invariant micro + H.Rests(waiting) == old(micro) + H.Rests(old(waiting))
      {
        assert H.Rests(waiting) == [H.Rest(waiting[0])] + H.Rests(waiting[1..]);
        micro := micro + [H.Rest(waiting[0])];
        waiting := waiting[1..];
      }
      assert micro + [] == micro;
    }

    /** From there to the end, and what that queues. */
    method AnswerCreated(sdp: nat)
      requires Valid() && api == H.CreatingAnswer
      modifies this
      ensures Valid() && Did(H.ApiDone(old(Value()), sdp), old(sent), old(open))
    {
      S.ApiSound(Value(), sdp);
      SendAnswer(H.Desc(H.Answer, sdp));
    }

    method SendAnswer(answer: H.Desc)
      requires api == H.CreatingAnswer && key.Some? && answer.kind == H.Answer
      modifies this
      ensures Did(H.ApiDone(old(Value()), answer.sdp), old(sent), old(open))
    {
      Send(H.Sealed(key.value, H.Describe(answer)));
      Resolve(key.value);
      WakeWaiting();
      local := Some(answer);
      api := H.Quiet;
      micro := micro + [H.Assign(H.WaitForCandidates)];
    }

    method StateWaitForRemoteAnswer(m: H.Msg)
      requires state == H.WaitForRemoteAnswer
      modifies this
      ensures (old(Valid()) ==> Valid()) && Did(H.OnMessage(old(Value()), m), old(sent), old(open))
    {
      if Valid() {
        S.MessageSound(Value(), m);
      }
      if key == None {
        Fail();
        return;
      }
      var msg := H.Unseal(key.value, m);
      if msg == None {
        BadKey();
        return;
      }
      if !msg.value.Describe? || msg.value.desc.kind != H.Answer {
        Fail();
        return;
      }
      remote := Some(msg.value.desc);
      Resolve(key.value);
      state := H.WaitForCandidates;
    }

    method ProcessCandidate(m: H.Msg)
      modifies this
      ensures (old(Valid()) ==> Valid()) && Did(H.ProcessCandidate(old(Value()), m), old(sent), old(open))
    {
      if Valid() {
        S.CandidateSound(Value(), m);
      }
      if key == None {
        return;
      }
      var msg := H.Unseal(key.value, m);
      if msg == None {
        Reject();
        Send(H.Sealed(key.value, H.Bye));
        open := false;
        return;
      }
      if msg.value.Candidate? {
        added := added + [msg.value.c];
      }
    }

    method StateWaitForCandidates(m: H.Msg)
      requires state == H.WaitForCandidates
      modifies this
      ensures (old(Valid()) ==> Valid()) && Did(H.OnMessage(old(Value()), m), old(sent), old(open))
    {
      if Valid() {
        S.MessageSound(Value(), m);
      }
      if key == None {
        Fail();
        return;
      }
      ProcessCandidate(m);
    }

    /** Up to the await of this.done. */
    method StateWaitForLocalAnswer(m: H.Msg)
      requires Valid() && state == H.WaitForLocalAnswer
      modifies this
      ensures Valid() && Did(H.OnMessage(old(Value()), m), old(sent), old(open))
    {
      S.MessageSound(Value(), m);
      if done == H.Pending {
        waiting := waiting + [m];
      } else {
        micro := micro + [H.Rest(m)];
      }
    }

    /** onmessage: feed the state machine. */
    method OnMessage(m: H.Msg)
      requires Valid()
      modifies this
      ensures Valid() && Did(H.OnMessage(old(Value()), m), old(sent), old(open))
    {
      S.MessageSound(Value(), m);
      match state {
        case StatePlayer1 => StatePlayer1(m);
        case StatePlayer2 => StatePlayer2(m);
        case WaitForPAKEA => StateWaitForPAKEA(m);
        case WaitForPAKEB => StateWaitForPAKEB(m);
        case WaitForRemoteOffer => StateWaitForRemoteOffer(m);
        case WaitForRemoteAnswer => StateWaitForRemoteAnswer(m);
        case WaitForCandidates => StateWaitForCandidates(m);
        case WaitForLocalAnswer => StateWaitForLocalAnswer(m);
        case WaitForLocalOffer => Fail();
        case StateError =>
      }
    }

    /** One queued microtask. */
    method RunMicrotask()
      requires Valid() && |micro| > 0
      modifies this
      ensures Valid() && Did(H.RunMicro(old(Value())), old(sent), old(open))
    {
      S.MicroSound(Value());
      var first := micro[0];
      micro := micro[1..];
      match first {
        case Assign(st) => state := st;
        case Rest(m) =>
          if done == H.Rejected {
            return;
          }
          ProcessCandidate(m);
          micro := micro + [H.Assign(state)];
      }
    }

    /** The peer connection's onicecandidate. */
    method OnIceCandidate(c: nat)
      requires Valid()
      modifies this
      ensures Valid() && Did(H.OnIceCandidate(old(Value()), c), old(sent), old(open))
    {
      S.IceSound(Value(), c);
      if key == None {
        return;
      }
      Send(H.Sealed(key.value, H.Candidate(c)));
      produced := produced + [c];
    }
  }
}
