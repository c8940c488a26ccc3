/** acceptCall and the accept branch of handleSignal (useCallSession.ts), split at their awaits: the ICE
    configuration is fetched, then the connection is built and media is awaited, then the call turns active,
    whatever has become of it meanwhile. `CallEndpoint` has the same as one step, which is what an
    undisturbed run comes to. */
module CallAwaits {
  import opened Prelude
  import opened CallEndpoint

  /** An answer under way: the caller answers an accept signal, the callee an invite. `reuse` is the stream
      attachLocalMedia found when the connection had been built. */
  datatype Answering = Answering(peer: UserId, media: Media, caller: bool, built: bool, reuse: Option<Stream>)

  datatype Mid = Mid(e: Endpoint, answering: Option<Answering>)

  datatype MidOutcome = MidOutcome(next: Mid, sent: Option<Post>)

  function TapBegun(m: Mid): Mid {
    if !m.e.call.Incoming? || m.answering.Some? then m
    else m.(answering := Some(Answering(m.e.call.peer, m.e.call.media, false, false, None)))
  }

  function AcceptBegun(m: Mid, from: UserId): Mid {
    if !m.e.call.Outgoing? || m.e.call.peer != from || m.answering.Some? then m
    else Mid(m.e.(ringTimer := None), Some(Answering(from, m.e.call.media, true, false, None)))
  }

  /** The catch branch. */
  function GivenUp(e: Endpoint, a: Answering): MidOutcome {
    MidOutcome(Mid(HangUp(e), None), Send(e, a.peer, if a.caller then EndCall else RejectCall))
  }

  /** The ICE configuration arrived, or the fetch failed. */
  function IceFetched(m: Mid, ok: bool): MidOutcome {
    if m.answering.None? || m.answering.value.built then MidOutcome(m, None)
    else if !ok then GivenUp(m.e, m.answering.value)
    else
      var a := m.answering.value.(built := true, reuse := m.e.stream);
      MidOutcome(Mid(m.e.(pc := Some(a.peer)), Some(a)), None)
  }

  /** The found stream, or a newly acquired one, becomes the held stream, whatever is held by then. */
  function Attached(e: Endpoint, a: Answering): Endpoint {
    if a.reuse.None? then e.(stream := Some(Stream(e.acquired, true, true)), acquired := e.acquired + 1)
    else if e.stream.Some? && e.stream.value.id == a.reuse.value.id then e
    else e.(stream := a.reuse)
  }

  /** Media arrived (and for the caller the offer was made), or it failed. */
  function MediaArrived(m: Mid, media: MediaOutcome): MidOutcome {
    if m.answering.None? || !m.answering.value.built then MidOutcome(m, None)
    else
      var a := m.answering.value;
      match media
      case Ready =>
        MidOutcome(Mid(Attached(m.e, a).(call := Active(a.peer, a.media, false, false)), None),
                   Send(m.e, a.peer, if a.caller then Offer else AcceptCall))
      case Refused => GivenUp(m.e, a)
      case Broken => GivenUp(Attached(m.e, a), a)
  }

  /** The handlers in place, beside those of the session. */
  class AnsweringSession {
    const session: CallSession
    var answering: Option<Answering>

    ghost function Model(): Mid
      reads this, session
    {
      Mid(session.Model(), answering)
    }

    constructor (session: CallSession)
      ensures this.session == session && Model() == Mid(session.Model(), None)
    {
      this.session, answering := session, None;
    }

    method BeginAccept()
      modifies this
      ensures Model() == TapBegun(old(Model()))
    {
      if session.callState.Incoming? && answering.None? {
        answering := Some(Answering(session.callState.peer, session.callState.media, false, false, None));
      }
    }

    method BeginAnswer(from: UserId)
      modifies this, session
      ensures Model() == AcceptBegun(old(Model()), from)
    {
      if !session.callState.Outgoing? || session.callState.peer != from || answering.Some? {
        return;
      }
      session.ringTimer := None;
      answering := Some(Answering(from, session.callState.media, true, false, None));
    }

    method GiveUp(peer: UserId, caller: bool) returns (sent: Option<Post>)
      requires answering.Some? && answering.value.peer == peer && answering.value.caller == caller
      modifies this, session
      ensures MidOutcome(Model(), sent) == GivenUp(old(session.Model()), old(answering.value))
    {
      sent := session.SendSignal(peer, if caller then EndCall else RejectCall);
      session.TeardownPeer();
      session.callState := Idle;
      answering := None;
    }

    method BuildPeer(ok: bool) returns (sent: Option<Post>)
      modifies this, session
      ensures MidOutcome(Model(), sent) == IceFetched(old(Model()), ok)
    {
      sent := None;
      if answering.None? || answering.value.built {
        return;
      }
      var a := answering.value;
      if !ok {
        sent := GiveUp(a.peer, a.caller);
        return;
      }
      session.pc := Some(a.peer);
      answering := Some(a.(built := true, reuse := session.localStream));
    }

    method Attach()
      requires answering.Some?
      modifies session
      ensures session.Model() == Attached(old(session.Model()), answering.value)
    {
      var reuse := answering.value.reuse;
      if reuse.None? {
        session.localStream := Some(Stream(session.acquired, true, true));
        session.acquired := session.acquired + 1;
      } else if session.localStream.None? || session.localStream.value.id != reuse.value.id {
        session.localStream := reuse;
      }
    }

    method FinishAnswer(media: MediaOutcome) returns (sent: Option<Post>)
      modifies this, session
      ensures MidOutcome(Model(), sent) == MediaArrived(old(Model()), media)
    {
      sent := None;
      if answering.None? || !answering.value.built {
        return;
      }
      var a := answering.value;
      if !media.Refused? {
        Attach();
      }
      if !media.Ready? {
        sent := GiveUp(a.peer, a.caller);
        return;
      }
      sent := session.SendSignal(a.peer, if a.caller then Offer else AcceptCall);
      session.callState := Active(a.peer, a.media, false, false);
      answering := None;
    }
  }

  // ----- Undisturbed, it is one step -----

  lemma UndisturbedAcceptIsOneStep(e: Endpoint, media: MediaOutcome)
    requires Consistent(e) && e.call.Incoming?
    ensures var o := MediaArrived(IceFetched(TapBegun(Mid(e, None)), true).next, media);
            o.next.answering == None && Outcome(o.next.e, o.sent) == Accept(e, media)
  {
  }

  lemma UndisturbedAnswerIsOneStep(e: Endpoint, media: MediaOutcome, from: UserId)
    requires Consistent(e) && e.call.Outgoing? && e.call.peer == from
    ensures var o := MediaArrived(IceFetched(AcceptBegun(Mid(e, None), from), true).next, media);
            o.next.answering == None && Outcome(o.next.e, o.sent) == OnSignal(e, from, AcceptCall, media)
  {
  }

  /** A failed fetch of the ICE configuration ends as failed media does in one step. */
  lemma FailedFetchGivesUp(e: Endpoint, from: UserId)
    requires Consistent(e)
    ensures e.call.Incoming? ==>
              var o := IceFetched(TapBegun(Mid(e, None)), false);
              o.next.answering == None && Outcome(o.next.e, o.sent) == Accept(e, Refused)
    ensures e.call.Outgoing? && e.call.peer == from ==>
              var o := IceFetched(AcceptBegun(Mid(e, None), from), false);
              o.next.answering == None && Outcome(o.next.e, o.sent) == OnSignal(e, from, AcceptCall, Refused)
  {
  }

  // ----- What may happen in between -----

  /** `Consistent` but for the connection, and for the timer of a call being answered. */
  ghost predicate Loose(e: Endpoint) {
    && (e.ringTimer.Some? ==> e.call.Outgoing? && e.ringTimer == Some(e.call.peer))
    && (e.stream.Some? <==> e.call.Outgoing? || e.call.Active?)
    && (e.dialing.Some? ==> e.call.Idle? && e.dialing.value.gen <= e.gen)
    && (e.stream.Some? ==> e.stream.value.id < e.acquired && e.stream.value.id !in e.stopped)
    && (forall id: nat :: id < e.acquired ==> id in e.stopped || (e.stream.Some? && e.stream.value.id == id))
    && (forall id :: id in e.stopped ==> id < e.acquired)
    && (e.call.Active? ==> e.stream.value.audioOn == !e.call.muted && e.stream.value.videoOn == !e.call.videoOff)
    && (e.call.Outgoing? ==> e.stream.value.audioOn && e.stream.value.videoOn)
  }

  /** Anything but a second answer. */
  predicate Other(event: Event) {
    !event.Accepted? && !(event.Received? && event.signal == AcceptCall)
  }

  ghost predicate AllOther(events: seq<Event>) {
    forall event :: event in events ==> Other(event)
  }

  lemma StepStaysLoose(e: Endpoint, event: Event)
    requires Loose(e) && Other(event)
    ensures Loose(Step(e, event).next) && Step(e, event).next.acquired >= e.acquired
    ensures Step(e, event).next.call.Active? ==> e.call.Active?
  {
  }

  lemma {:induction false} RunStaysLoose(e: Endpoint, events: seq<Event>)
    requires Loose(e) && AllOther(events)
    ensures Loose(Run(e, events)) && Run(e, events).acquired >= e.acquired
    ensures Run(e, events).call.Active? ==> e.call.Active?
    decreases |events|
  {
    if events != [] {
      assert events[0] in events && forall event :: event in events[1..] ==> event in events;
      StepStaysLoose(e, events[0]);
      RunStaysLoose(Step(e, events[0]).next, events[1..]);
    }
  }

  /** When media arrives the endpoint still has what the answer left it with: no timer or prompt, the
      connection built for this peer, and the stream found then, if any. */
  predicate Undisturbed(e: Endpoint, a: Answering) {
    && e.ringTimer == None && e.dialing == None && e.pc == Some(a.peer)
    && match a.reuse
       case None => e.stream == None
       case Some(s) => e.stream.Some? && e.stream.value.id == s.id && e.stream.value.audioOn && e.stream.value.videoOn
  }

  lemma FinishIsConsistentIff(e: Endpoint, a: Answering)
    requires Loose(e) && a.built && (a.reuse.Some? ==> a.reuse.value.id < e.acquired)
    ensures Consistent(MediaArrived(Mid(e, Some(a)), Ready).next.e) <==> Undisturbed(e, a)
  {
  }

  /** The endpoint once the answer has finished, `first` happening while the ICE configuration is fetched and
      `second` while media is awaited; and the answer as it stood then. */
  function Waited(e: Endpoint, a: Answering, first: seq<Event>, second: seq<Event>): Mid {
    var m := IceFetched(Mid(Run(e, first), Some(a)), true).next;
    m.(e := Run(m.e, second))
  }

  lemma WaitingStaysLoose(e: Endpoint, a: Answering, first: seq<Event>, second: seq<Event>)
    requires Loose(e) && !a.built && AllOther(first) && AllOther(second)
    ensures var m := Waited(e, a, first, second);
      && Loose(m.e) && (m.e.call.Active? ==> e.call.Active?) && m.answering.Some? && m.answering.value.built
      && m.answering.value.peer == a.peer && m.answering.value.media == a.media && m.answering.value.caller == a.caller
      && (m.answering.value.reuse.Some? ==> m.answering.value.reuse.value.id < m.e.acquired)
  {
    RunStaysLoose(e, first);
    var m := IceFetched(Mid(Run(e, first), Some(a)), true).next;
    assert Loose(m.e);
    RunStaysLoose(m.e, second);
  }

  /** For everything that can happen during the awaits of an answer, on either side: the endpoint's resources
      are in step with its call state afterwards exactly if it was undisturbed when media arrived. The code
      does not look. In step does not mean that the call is still on: that is the next theorem. */
  lemma AnswerSurvivesIff(e: Endpoint, a: Answering, first: seq<Event>, second: seq<Event>)
    requires Loose(e) && !a.built && AllOther(first) && AllOther(second)
    ensures var m := Waited(e, a, first, second);
            Consistent(MediaArrived(m, Ready).next.e) <==> Undisturbed(m.e, m.answering.value)
  {
    WaitingStaysLoose(e, a, first, second);
    var m := Waited(e, a, first, second);
    FinishIsConsistentIff(m.e, m.answering.value);
  }

  // ----- Whether the call is still on -----

  /** The endpoint is still rung by, or still rings, the peer being answered. */
  predicate StillOn(e: Endpoint, a: Answering) {
    if a.caller then e.call == Outgoing(a.peer, a.media) else e.call == Incoming(a.peer, a.media)
  }

  /** What answering in one step does to the endpoint as it is. */
  function AtOnce(e: Endpoint, a: Answering): Outcome {
    if a.caller then OnSignal(e, a.peer, AcceptCall, Ready) else Accept(e, Ready)
  }

  lemma FinishIsAtOnceIff(e: Endpoint, a: Answering)
    requires Loose(e) && !e.call.Active? && a.built && (a.reuse.Some? ==> a.reuse.value.id < e.acquired)
    ensures var o := MediaArrived(Mid(e, Some(a)), Ready);
            Outcome(o.next.e, o.sent) == AtOnce(e, a) <==> StillOn(e, a) && Undisturbed(e, a)
  {
  }

  /** The answers the two handlers begin. */
  ghost predicate Begun(e: Endpoint, m: Mid) {
    m.answering.Some? && (m == TapBegun(Mid(e, None)) || m == AcceptBegun(Mid(e, None), m.answering.value.peer))
  }

  lemma BegunIsLoose(e: Endpoint, m: Mid)
    requires Consistent(e) && Begun(e, m)
    ensures Loose(m.e) && !m.e.call.Active? && !m.answering.value.built && StillOn(m.e, m.answering.value)
  {
  }

  /** Exactly when an answer reaches the call it is for: begun on either side, with anything happening during its
      awaits, it does in the end what answering at that moment in one step would do, iff the endpoint is still
      rung by (still rings) that peer and undisturbed. */
  lemma AnswerReachesCallIff(e: Endpoint, m: Mid, first: seq<Event>, second: seq<Event>)
    requires Consistent(e) && Begun(e, m) && AllOther(first) && AllOther(second)
    ensures var w := Waited(m.e, m.answering.value, first, second);
            var o := MediaArrived(w, Ready);
            Outcome(o.next.e, o.sent) == AtOnce(w.e, w.answering.value) <==>
              StillOn(w.e, w.answering.value) && Undisturbed(w.e, w.answering.value)
  {
    BegunIsLoose(e, m);
    WaitingStaysLoose(m.e, m.answering.value, first, second);
    var w := Waited(m.e, m.answering.value, first, second);
    FinishIsAtOnceIff(w.e, w.answering.value);
  }

  /** The events that take a call being answered away from under the answer. */
  predicate Interrupts(e: Endpoint, event: Event) {
    match event
    case Rejected => e.call.Incoming?
    case Ended => true
    case RingElapsed => e.ringTimer.Some?
    case Lost => e.pc.Some?
    case LoggedOut => true
    case Received(from, signal, _) => e.call != Idle && from == e.call.peer && signal in {RejectCall, CancelCall, EndCall}
    case _ => false
  }

  /** Exactly which events those are. */
  lemma StepStaysOnIff(e: Endpoint, a: Answering, event: Event)
    requires Loose(e) && StillOn(e, a) && Other(event)
    ensures StillOn(Step(e, event).next, a) <==> !Interrupts(e, event)
    ensures a.built && Undisturbed(e, a) && !Interrupts(e, event) ==> Undisturbed(Step(e, event).next, a)
    ensures !Interrupts(e, event) ==> Step(e, event).next.ringTimer == e.ringTimer
  {
  }

  predicate NeverInterrupted(e: Endpoint, events: seq<Event>)
    decreases |events|
  {
    events != [] ==>
      !Interrupts(e, events[0]) && NeverInterrupted(Step(e, events[0]).next, events[1..])
  }

  lemma {:induction false} RunStaysOn(e: Endpoint, a: Answering, events: seq<Event>)
    requires Loose(e) && StillOn(e, a) && AllOther(events) && NeverInterrupted(e, events)
    ensures StillOn(Run(e, events), a) && Run(e, events).ringTimer == e.ringTimer
    ensures a.built && Undisturbed(e, a) ==> Undisturbed(Run(e, events), a)
    decreases |events|
  {
    if events != [] {
      assert events[0] in events && forall event :: event in events[1..] ==> event in events;
      StepStaysLoose(e, events[0]);
      StepStaysOnIff(e, a, events[0]);
      RunStaysOn(Step(e, events[0]).next, a, events[1..]);
    }
  }

  /** Hence an answer that nothing interrupts reaches its call, whatever else happens. */
  lemma UninterruptedAnswerReachesCall(e: Endpoint, m: Mid, first: seq<Event>, second: seq<Event>)
    requires Consistent(e) && Begun(e, m) && AllOther(first) && AllOther(second)
    requires NeverInterrupted(m.e, first)
    requires NeverInterrupted(Run(m.e, first).(pc := Some(m.answering.value.peer)), second)
    ensures var w := Waited(m.e, m.answering.value, first, second);
            var o := MediaArrived(w, Ready);
            Outcome(o.next.e, o.sent) == AtOnce(w.e, w.answering.value) && Consistent(o.next.e)
  {
    BegunIsLoose(e, m);
    RunStaysLoose(m.e, first);
    RunStaysOn(m.e, m.answering.value, first);
    var built := IceFetched(Mid(Run(m.e, first), m.answering), true).next;
    assert Undisturbed(built.e, built.answering.value);
    RunStaysOn(built.e, built.answering.value, second);
    AnswerReachesCallIff(e, m, first, second);
    AnswerSurvivesIff(m.e, m.answering.value, first, second);
  }

  /** An instance of an interrupted one: a cancel landing in an accept. In whichever await it lands, the callee
      ends up in a call with a peer who has left, accept signal sent and microphone on; if it lands in the
      second, without a connection. */
  lemma CancelledAcceptStrands(e: Endpoint, media: MediaOutcome, late: bool)
    requires Consistent(e) && e.call.Incoming? && e.socketOpen
    ensures var peer, cancel := e.call.peer, [Received(e.call.peer, CancelCall, media)];
            var m := Waited(e, TapBegun(Mid(e, None)).answering.value, if late then [] else cancel, if late then cancel else []);
            var o := MediaArrived(m, Ready);
      && !StillOn(m.e, m.answering.value) && Outcome(o.next.e, o.sent) != AtOnce(m.e, m.answering.value)
      && o.sent == Some(Post(peer, AcceptCall))
      && o.next.e.call == Active(peer, e.call.media, false, false) && o.next.e.stream.Some?
      && o.next.e.pc == if late then None else Some(peer)
  {
    var cancel := Received(e.call.peer, CancelCall, media);
    var left := Step(e, cancel).next;
    assert Run(e, [cancel]) == Run(left, []) == left;
    var built := e.(pc := Some(e.call.peer));
    assert Run(built, [cancel]) == Run(Step(built, cancel).next, []) == Step(built, cancel).next;
  }
}
