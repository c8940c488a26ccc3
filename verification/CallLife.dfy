/** What the call handlers achieve, over two endpoints and the signals one sends the other: a call is set up,
    every way of leaving it frees both sides, and the controls do what they show. */
module CallLife {
  import opened Prelude
  import opened CallEndpoint

  /** Every stream ever acquired is stopped, and nothing of a call is left. */
  ghost predicate Free(e: Endpoint) {
    && e.call == Idle && e.ringTimer == None && e.pc == None && e.stream == None
    && forall id: nat :: id < e.acquired ==> id in e.stopped
  }

  /** `to` hears what `from` has just sent. */
  function Relayed(to: Endpoint, from: UserId, sent: Option<Post>): Outcome {
    if sent.None? then Outcome(to, None) else OnSignal(to, from, sent.value.signal, Ready)
  }

  predicate Facing(a: UserId, ea: Endpoint, b: UserId, eb: Endpoint) {
    && ea.call != Idle && eb.call != Idle && ea.call.peer == b && eb.call.peer == a && a != b
    && ((ea.call.Active? && eb.call.Active?) || (ea.call.Outgoing? && eb.call.Incoming?))
  }

  /** An undisturbed call between two idle users: it rings, is accepted, is negotiated by offer and answer, and
      both end up talking, in the kind of call that was placed, unmuted, with nothing more to hear. */
  lemma CallConnects(a: UserId, ea: Endpoint, b: UserId, eb: Endpoint, kind: Media)
    requires a != b && Consistent(ea) && Consistent(eb) && ea.socketOpen && eb.socketOpen
    requires ea.call == Idle && ea.dialing == None && eb.call == Idle && eb.dialing == None
    ensures var dialled := StartCall(ea, b, kind);
            var rings := Prompted(dialled.next, true);
            var rung := Relayed(eb, a, rings.sent);
            var accepted := Accept(rung.next, Ready);
            var offered := Relayed(rings.next, b, accepted.sent);
            var answered := Relayed(accepted.next, a, offered.sent);
            var done := Relayed(offered.next, b, answered.sent);
      && rings.sent == Some(Post(b, Invite(kind))) && rings.next.call == Outgoing(b, kind)
      && rung.next.call == Incoming(a, kind) && rung.sent == None
      && accepted.sent == Some(Post(a, AcceptCall)) && offered.sent == Some(Post(b, Offer))
      && answered.sent == Some(Post(a, Answer)) && done.sent == None
      && done.next.call == Active(b, kind, false, false) && answered.next.call == Active(a, kind, false, false)
      && done.next.pc == Some(b) && answered.next.pc == Some(a)
  {
  }

  /** Hanging up in any state frees the one who hangs up, and its signal frees the other. */
  lemma HangUpFreesBoth(a: UserId, ea: Endpoint, b: UserId, eb: Endpoint)
    requires Consistent(ea) && Consistent(eb) && ea.socketOpen && (Facing(a, ea, b, eb) || Facing(b, eb, a, ea))
    ensures var left := End(ea); Free(left.next) && left.sent.Some? && left.sent.value.to == b && Free(Relayed(eb, a, left.sent).next)
  {
  }

  /** So does a ring that times out, */
  lemma TimeoutFreesBoth(a: UserId, ea: Endpoint, b: UserId, eb: Endpoint)
    requires Consistent(ea) && Consistent(eb) && ea.socketOpen && Facing(a, ea, b, eb) && ea.call.Outgoing?
    ensures var left := RingTimeout(ea);
            Free(left.next) && left.sent == Some(Post(b, CancelCall)) && Free(Relayed(eb, a, left.sent).next)
  {
  }

  /** a reject, */
  lemma RejectFreesBoth(a: UserId, ea: Endpoint, b: UserId, eb: Endpoint)
    requires Consistent(ea) && Consistent(eb) && ea.socketOpen && Facing(b, eb, a, ea) && ea.call.Incoming?
    ensures var left := Reject(ea);
            Free(left.next) && left.sent == Some(Post(b, RejectCall)) && Free(Relayed(eb, a, left.sent).next)
  {
  }

  /** and an accept whose media fails, on either side. */
  lemma FailedMediaFreesBoth(a: UserId, ea: Endpoint, b: UserId, eb: Endpoint, media: MediaOutcome)
    requires Consistent(ea) && Consistent(eb) && ea.socketOpen && eb.socketOpen && !media.Ready?
    requires Facing(b, eb, a, ea) && ea.call.Incoming?
    ensures var left := Accept(ea, media);
            Free(left.next) && left.sent == Some(Post(b, RejectCall)) && Free(Relayed(eb, a, left.sent).next)
    ensures var accepted := Accept(ea, Ready);
            var left := OnSignal(eb, a, AcceptCall, media);
            Free(left.next) && left.sent == Some(Post(a, EndCall)) && Free(Relayed(accepted.next, b, left.sent).next)
  {
  }

  /** A caller is turned away by anyone who is in a call, ringing or dialing, without disturbing that. */
  lemma BusyTurnsAway(a: UserId, ea: Endpoint, b: UserId, eb: Endpoint, media: MediaOutcome)
    requires Consistent(ea) && Consistent(eb) && ea.call.Outgoing? && ea.call.peer == b && eb.socketOpen
    requires eb.call != Idle || eb.dialing.Some?
    ensures var heard := OnSignal(eb, a, Invite(ea.call.media), media);
            heard.next == eb && heard.sent == Some(Post(a, RejectCall)) && Free(Relayed(ea, b, heard.sent).next)
  {
  }

  /** A lost connection and a logout free an endpoint whatever it was in. */
  lemma LossFrees(e: Endpoint)
    requires Consistent(e)
    ensures e.call.Active? ==> Free(ConnectionLost(e))
    ensures !e.call.Active? ==> ConnectionLost(e) == e
    ensures Free(Logout(e)) && !Logout(e).socketOpen
  {
  }

  /** A candidate gathered in a call goes to the other side of it. */
  lemma CandidatesGoToPeer(e: Endpoint)
    requires Consistent(e) && e.socketOpen
    ensures LocalCandidate(e).next == e
    ensures LocalCandidate(e).sent == if e.call.Active? then Some(Post(e.call.peer, IceCandidate)) else None
  {
  }

  // ----- The controls -----

  /** Mute silences the microphone and shows it, a second tap undoes that, and the camera is not touched; in an
      audio call the camera control does nothing, in a video call it does the same for the camera. */
  lemma ControlsDoWhatTheyShow(e: Endpoint)
    requires Consistent(e) && e.call.Active?
    ensures var m := ToggleMute(e);
      && m.call == e.call.(muted := !e.call.muted) && m.stream.Some? && m.stream.value.audioOn == !m.call.muted
      && m.stream.value.(audioOn := e.stream.value.audioOn) == e.stream.value && ToggleMute(m) == e
    ensures var v := ToggleVideo(e);
      && (e.call.media == Audio ==> v == e)
      && (e.call.media == Video ==>
            && v.call == e.call.(videoOff := !e.call.videoOff) && v.stream.Some? && v.stream.value.videoOn == !v.call.videoOff
            && v.stream.value.(videoOn := e.stream.value.videoOn) == e.stream.value && ToggleVideo(v) == e)
  {
  }

  // ----- The permission prompt -----

  /** The prompt under way is not answered yet. */
  predicate Unanswered(events: seq<Event>) {
    forall e :: e in events ==> !e.Answered?
  }

  lemma {:induction false} PromptStays(e: Endpoint, events: seq<Event>)
    requires Consistent(e) && e.dialing.Some? && Unanswered(events)
    ensures var e' := Run(e, events); Consistent(e') && e'.dialing == e.dialing && e'.gen >= e.gen
    ensures LoggedOut in events ==> Run(e, events).gen > e.gen
    decreases |events|
  {
    if events != [] {
      assert events[0] in events && forall x :: x in events[1..] ==> x in events;
      assert events == [events[0]] + events[1..];
      StepKeepsConsistent(e, events[0]);
      PromptStays(Step(e, events[0]).next, events[1..]);
    }
  }

  /** A prompt answered after a logout, whatever else happened meanwhile, rings nobody, and the stream it
      acquired is stopped at once. */
  lemma LatePromptIsStopped(e: Endpoint, events: seq<Event>)
    requires Consistent(e) && e.dialing.Some? && Unanswered(events) && LoggedOut in events
    ensures var before := Run(e, events);
            var o := Prompted(before, true);
      && o.sent == None && o.next.call == Idle && o.next.stream == None && o.next.dialing == None
      && o.next.acquired == before.acquired + 1 && before.acquired in o.next.stopped
  {
    PromptStays(e, events);
  }

  predicate KeepsSession(events: seq<Event>) {
    forall e :: e in events ==> !e.LoggedOut? && e != SocketChanged(false)
  }

  lemma {:induction false} SessionStays(e: Endpoint, events: seq<Event>)
    requires e.socketOpen && KeepsSession(events)
    ensures Run(e, events).socketOpen && Run(e, events).gen == e.gen
    decreases |events|
  {
    if events != [] {
      assert events[0] in events && forall x :: x in events[1..] ==> x in events;
      SessionStays(Step(e, events[0]).next, events[1..]);
    }
  }

  /** Nobody is rung in vain: a call that is dialled at all, in a session that lasts until the prompt is
      answered, announces itself to the peer exactly when it starts to ring, and holds its stream; a refused
      prompt leaves the endpoint idle. */
  lemma DialledCallIsAnnounced(e: Endpoint, peer: UserId, kind: Media, events: seq<Event>, granted: bool)
    requires Consistent(e) && e.dialing == None && StartCall(e, peer, kind).next.dialing.Some?
    requires Unanswered(events) && KeepsSession(events)
    ensures var before := Run(StartCall(e, peer, kind).next, events);
            var o := Prompted(before, granted);
      && o.next.dialing == None
      && (granted ==> o.next.call == Outgoing(peer, kind) && o.sent == Some(Post(peer, Invite(kind))) && o.next.ringTimer == Some(peer))
      && (!granted ==> o.next == before.(dialing := None) && o.sent == None)
  {
    StepKeepsConsistent(e, Dialled(peer, kind));
    PromptStays(StartCall(e, peer, kind).next, events);
    SessionStays(StartCall(e, peer, kind).next, events);
  }

  /** And a call can be dialled exactly when the endpoint is free for it and the socket is open. */
  lemma DialsIff(e: Endpoint, peer: UserId, kind: Media)
    requires Consistent(e)
    ensures StartCall(e, peer, kind).next.dialing == Some(Dial(peer, kind, e.gen)) && e.dialing == None
            <==> e.call == Idle && e.dialing == None && e.socketOpen
  {
  }
}
