/** One endpoint of the 1-on-1 call state machine (useCallSession.ts): what each handler does to the
    call state, the ring timer, the peer connection, the local stream and the pending permission prompt.
    `Endpoint` and the functions over it say what a handler does; class `CallSession` does it in place. */
module CallEndpoint {
  import opened Prelude

  type UserId = nat

  datatype Media = Audio | Video

  datatype Signal =
    | Invite(media: Media) | AcceptCall | RejectCall | CancelCall | EndCall
    | Offer | Answer | IceCandidate

  /** A signal handed to the relay, addressed to a user. */
  datatype Post = Post(to: UserId, signal: Signal)

  datatype CallState =
    | Idle
    | Outgoing(peer: UserId, media: Media)
    | Incoming(peer: UserId, media: Media)
    | Active(peer: UserId, media: Media, muted: bool, videoOff: bool)

  /** A captured microphone/camera stream; a flag says whether its tracks of that kind are enabled. */
  datatype Stream = Stream(id: nat, audioOn: bool, videoOn: bool)

  /** A startCall that waits on the permission prompt, with the session generation it started in. */
  datatype Dial = Dial(peer: UserId, media: Media, gen: nat)

  /** How the media part of an accept ends: all fine, no stream could be acquired, or a later step threw. */
  datatype MediaOutcome = Ready | Refused | Broken

  datatype Endpoint = Endpoint(
    call: CallState,
    ringTimer: Option<UserId>,   // armed for this peer
    pc: Option<UserId>,          // the peer connection, built towards this peer
    stream: Option<Stream>,      // the held local stream
    dialing: Option<Dial>,       // startingRef together with the suspended startCall
    gen: nat,
    socketOpen: bool,
    acquired: nat,               // streams 0 .. acquired-1 were ever acquired
    stopped: set<nat>)           // streams whose tracks were stopped

  datatype Outcome = Outcome(next: Endpoint, sent: Option<Post>)

  const FRESH := Endpoint(Idle, None, None, None, None, 0, false, 0, {})

  // ----- What each handler does -----

  function Send(e: Endpoint, to: UserId, signal: Signal): Option<Post> {
    if e.socketOpen then Some(Post(to, signal)) else None
  }

  function Teardown(e: Endpoint): Endpoint {
    e.(ringTimer := None, pc := None, stream := None,
       stopped := e.stopped + if e.stream.Some? then {e.stream.value.id} else {})
  }

  function HangUp(e: Endpoint): Endpoint {
    Teardown(e).(call := Idle)
  }

  /** attachLocalMedia: reuse the held stream, or acquire one. */
  function WithMedia(e: Endpoint): Endpoint {
    if e.stream.Some? then e
    else e.(stream := Some(Stream(e.acquired, true, true)), acquired := e.acquired + 1)
  }

  /** startCall up to its await. */
  function StartCall(e: Endpoint, peer: UserId, media: Media): Outcome {
    if e.call != Idle || e.dialing.Some? || !e.socketOpen then Outcome(e, None)
    else Outcome(e.(dialing := Some(Dial(peer, media, e.gen))), None)
  }

  /** startCall after its await: the prompt was answered. */
  function Prompted(e: Endpoint, granted: bool): Outcome {
    if e.dialing.None? then Outcome(e, None)
    else
      var dial := e.dialing.value;
      var back := e.(dialing := None);
      if !granted then Outcome(back, None)
      else if dial.gen != e.gen then
        Outcome(back.(acquired := e.acquired + 1, stopped := e.stopped + {e.acquired}), None)
      else
        Outcome(back.(stream := Some(Stream(e.acquired, true, true)), acquired := e.acquired + 1,
                      call := Outgoing(dial.peer, dial.media), ringTimer := Some(dial.peer)),
                Send(e, dial.peer, Invite(dial.media)))
  }

  function RingTimeout(e: Endpoint): Outcome {
    if e.ringTimer.None? then Outcome(e, None)
    else Outcome(HangUp(e), Send(e, e.ringTimer.value, CancelCall))
  }

  function Accept(e: Endpoint, media: MediaOutcome): Outcome {
    if !e.call.Incoming? then Outcome(e, None)
    else
      var built := e.(pc := Some(e.call.peer));
      match media
      case Ready =>
        Outcome(WithMedia(built).(call := Active(e.call.peer, e.call.media, false, false)),
                Send(e, e.call.peer, AcceptCall))
      case Refused => Outcome(HangUp(built), Send(e, e.call.peer, RejectCall))
      case Broken => Outcome(HangUp(WithMedia(built)), Send(e, e.call.peer, RejectCall))
  }

  function Reject(e: Endpoint): Outcome {
    if !e.call.Incoming? then Outcome(e, None)
    else Outcome(e.(call := Idle), Send(e, e.call.peer, RejectCall))
  }

  function End(e: Endpoint): Outcome {
    if e.call.Idle? then Outcome(e, None)
    else Outcome(HangUp(e), Send(e, e.call.peer, if e.call.Outgoing? then CancelCall else EndCall))
  }

  function ToggleMute(e: Endpoint): Endpoint {
    if !e.call.Active? || e.stream.None? then e
    else
      var next := !e.call.muted;
      e.(stream := Some(e.stream.value.(audioOn := !next)), call := e.call.(muted := next))
  }

  function ToggleVideo(e: Endpoint): Endpoint {
    if !e.call.Active? || e.call.media != Video || e.stream.None? then e
    else
      var next := !e.call.videoOff;
      e.(stream := Some(e.stream.value.(videoOn := !next)), call := e.call.(videoOff := next))
  }

  function OnSignal(e: Endpoint, from: UserId, signal: Signal, media: MediaOutcome): Outcome {
    match signal
    case Invite(kind) =>
      if e.call != Idle || e.dialing.Some? then Outcome(e, Send(e, from, RejectCall))
      else Outcome(e.(call := Incoming(from, kind)), None)
    case AcceptCall =>
      if !e.call.Outgoing? || e.call.peer != from then Outcome(e, None)
      else
        var quiet := e.(ringTimer := None);
        if media.Ready? then
          Outcome(WithMedia(quiet.(pc := Some(from))).(call := Active(from, e.call.media, false, false)),
                  Send(e, from, Offer))
        else Outcome(HangUp(quiet), Send(e, from, EndCall))
    case RejectCall => Outcome(PeerLeft(e, from), None)
    case CancelCall => Outcome(PeerLeft(e, from), None)
    case EndCall => Outcome(PeerLeft(e, from), None)
    case Offer => Outcome(e, if e.pc.Some? then Send(e, from, Answer) else None)
    case Answer => Outcome(e, None)
    case IceCandidate => Outcome(e, None)
  }

  function PeerLeft(e: Endpoint, from: UserId): Endpoint {
    if e.call.Idle? || e.call.peer != from then e else HangUp(e)
  }

  /** onicecandidate of the current peer connection. */
  function LocalCandidate(e: Endpoint): Outcome {
    Outcome(e, if e.pc.Some? then Send(e, e.pc.value, IceCandidate) else None)
  }

  /** onconnectionstatechange; torn down connections have no listener left. */
  function ConnectionLost(e: Endpoint): Endpoint {
    if e.pc.Some? then HangUp(e) else e
  }

  /** The socket effect's cleanup: logout or a user switch. */
  function Logout(e: Endpoint): Endpoint {
    HangUp(e.(gen := e.gen + 1, socketOpen := false))
  }

  // ----- The handlers, in place -----

  class CallSession {
    var callState: CallState
    var ringTimer: Option<UserId>
    var pc: Option<UserId>
    var localStream: Option<Stream>
    var dialing: Option<Dial>
    var sessionGen: nat
    var socketOpen: bool
    var acquired: nat
    var stopped: set<nat>

    ghost function Model(): Endpoint
      reads this
    {
      Endpoint(callState, ringTimer, pc, localStream, dialing, sessionGen, socketOpen, acquired, stopped)
    }

    constructor ()
      ensures Model() == FRESH
    {
      callState, ringTimer, pc, localStream, dialing := Idle, None, None, None, None;
      sessionGen, socketOpen, acquired, stopped := 0, false, 0, {};
    }

    method SendSignal(to: UserId, signal: Signal) returns (sent: Option<Post>)
      ensures sent == Send(Model(), to, signal)
    {
      if !socketOpen {
        return None;
      }
      return Some(Post(to, signal));
    }

    method TeardownPeer()
      modifies this
      ensures Model() == Teardown(old(Model()))
    {
      if ringTimer.Some? {
        ringTimer := None;
      }
      if pc.Some? {
        pc := None;
      }
      if localStream.Some? {
        stopped := stopped + {localStream.value.id};
        localStream := None;
      }
    }

    method AttachLocalMedia()
      modifies this
      ensures Model() == WithMedia(old(Model()))
    {
      if localStream.None? {
        localStream := Some(Stream(acquired, true, true));
        acquired := acquired + 1;
      }
    }

    method BeginCall(peer: UserId, media: Media)
      modifies this
      ensures Outcome(Model(), None) == StartCall(old(Model()), peer, media)
    {
      if !callState.Idle? || dialing.Some? {
        return;
      }
      if !socketOpen {
        return;
      }
      dialing := Some(Dial(peer, media, sessionGen));
    }

    method ResumeCall(granted: bool) returns (sent: Option<Post>)
      modifies this
      ensures Outcome(Model(), sent) == Prompted(old(Model()), granted)
    {
      sent := None;
      if dialing.None? {
        return;
      }
      var dial := dialing.value;
      dialing := None;
      if !granted {
        return;
      }
      var id := acquired;
      acquired := acquired + 1;
      if dial.gen != sessionGen {
        stopped := stopped + {id};
        return;
      }
      localStream := Some(Stream(id, true, true));
      callState := Outgoing(dial.peer, dial.media);
      sent := SendSignal(dial.peer, Invite(dial.media));
      ringTimer := Some(dial.peer);
    }

    method FireRingTimer() returns (sent: Option<Post>)
      modifies this
      ensures Outcome(Model(), sent) == RingTimeout(old(Model()))
    {
      sent := None;
      if ringTimer.Some? {
        sent := SendSignal(ringTimer.value, CancelCall);
        TeardownPeer();
        callState := Idle;
      }
    }

    method TapAccept(media: MediaOutcome) returns (sent: Option<Post>)
      modifies this
      ensures Outcome(Model(), sent) == Accept(old(Model()), media)
    {
      sent := None;
      if !callState.Incoming? {
        return;
      }
      var peer, kind := callState.peer, callState.media;
      pc := Some(peer);
      if !media.Refused? {
        AttachLocalMedia();
      }
      if media.Ready? {
        sent := SendSignal(peer, AcceptCall);
        callState := Active(peer, kind, false, false);
      } else {
        sent := SendSignal(peer, RejectCall);
        TeardownPeer();
        callState := Idle;
      }
    }

    method TapReject() returns (sent: Option<Post>)
      modifies this
      ensures Outcome(Model(), sent) == Reject(old(Model()))
    {
      sent := None;
      if callState.Incoming? {
        sent := SendSignal(callState.peer, RejectCall);
        callState := Idle;
      }
    }

    method TapEnd() returns (sent: Option<Post>)
      modifies this
      ensures Outcome(Model(), sent) == End(old(Model()))
    {
      sent := None;
      if callState.Idle? {
        return;
      }
      var exitType := if callState.Outgoing? then CancelCall else EndCall;
      sent := SendSignal(callState.peer, exitType);
      TeardownPeer();
      callState := Idle;
    }

    method TapMute()
      modifies this
      ensures Model() == ToggleMute(old(Model()))
    {
      if callState.Active? && localStream.Some? {
        var next := !callState.muted;
        localStream := Some(localStream.value.(audioOn := !next));
        callState := callState.(muted := next);
      }
    }

    method TapVideo()
      modifies this
      ensures Model() == ToggleVideo(old(Model()))
    {
      if callState.Active? && callState.media == Video && localStream.Some? {
        var next := !callState.videoOff;
        localStream := Some(localStream.value.(videoOn := !next));
        callState := callState.(videoOff := next);
      }
    }

    method HandleSignal(from: UserId, signal: Signal, media: MediaOutcome) returns (sent: Option<Post>)
      modifies this
      ensures Outcome(Model(), sent) == OnSignal(old(Model()), from, signal, media)
    {
      sent := None;
      match signal {
        case Invite(kind) =>
          if !callState.Idle? || dialing.Some? {
            sent := SendSignal(from, RejectCall);
          } else {
            callState := Incoming(from, kind);
          }
        case AcceptCall =>
          if !callState.Outgoing? || callState.peer != from {
            return;
          }
          ringTimer := None;
          if media.Ready? {
            pc := Some(from);
            AttachLocalMedia();
            sent := SendSignal(from, Offer);
            callState := Active(from, callState.media, false, false);
          } else {
            sent := SendSignal(from, EndCall);
            TeardownPeer();
            callState := Idle;
          }
        case RejectCall => LeaveIfPeer(from);
        case CancelCall => LeaveIfPeer(from);
        case EndCall => LeaveIfPeer(from);
        case Offer =>
          if pc.Some? {
            sent := SendSignal(from, Answer);
          }
        case Answer =>
        case IceCandidate =>
      }
    }

    method LeaveIfPeer(from: UserId)
      modifies this
      ensures Model() == PeerLeft(old(Model()), from)
    {
      if callState.Idle? || callState.peer != from {
        return;
      }
      TeardownPeer();
      callState := Idle;
    }

    method GatherCandidate() returns (sent: Option<Post>)
      ensures Outcome(Model(), sent) == LocalCandidate(Model())
    {
      sent := None;
      if pc.Some? {
        sent := SendSignal(pc.value, IceCandidate);
      }
    }

    method LoseConnection()
      modifies this
      ensures Model() == ConnectionLost(old(Model()))
    {
      if pc.Some? {
        TeardownPeer();
        callState := Idle;
      }
    }

    method ChangeSocket(open: bool)
      modifies this
      ensures Outcome(Model(), None) == Step(old(Model()), SocketChanged(open))
    {
      socketOpen := open;
    }

    method CloseSession()
      modifies this
      ensures Model() == Logout(old(Model()))
    {
      sessionGen := sessionGen + 1;
      socketOpen := false;
      TeardownPeer();
      callState := Idle;
    }
  }

  // ----- What every handler keeps -----

  /** The resources an endpoint holds are exactly those its call state calls for, and no stream leaks. */
  ghost predicate Consistent(e: Endpoint) {
    && (e.ringTimer == if e.call.Outgoing? then Some(e.call.peer) else None)
    && (e.pc == if e.call.Active? then Some(e.call.peer) else None)
    && (e.stream.Some? <==> e.call.Outgoing? || e.call.Active?)
    && (e.dialing.Some? ==> e.call.Idle? && e.dialing.value.gen <= e.gen)
    && (e.stream.Some? ==> e.stream.value.id < e.acquired && e.stream.value.id !in e.stopped)
    && (forall id: nat :: id < e.acquired ==> id in e.stopped || (e.stream.Some? && e.stream.value.id == id))
    && (forall id :: id in e.stopped ==> id < e.acquired)
    && (e.call.Active? ==> e.stream.value.audioOn == !e.call.muted && e.stream.value.videoOn == !e.call.videoOff)
    && (e.call.Outgoing? ==> e.stream.value.audioOn && e.stream.value.videoOn)
  }

  datatype Event =
    | Dialled(peer: UserId, kind: Media) | Answered(granted: bool) | RingElapsed
    | Accepted(media: MediaOutcome) | Rejected | Ended | MuteTapped | VideoTapped
    | Received(from: UserId, signal: Signal, media: MediaOutcome)
    | CandidateGathered | Lost | LoggedOut | SocketChanged(open: bool)

  function Step(e: Endpoint, event: Event): Outcome {
    match event
    case Dialled(peer, kind) => StartCall(e, peer, kind)
    case Answered(granted) => Prompted(e, granted)
    case RingElapsed => RingTimeout(e)
    case Accepted(media) => Accept(e, media)
    case Rejected => Reject(e)
    case Ended => End(e)
    case MuteTapped => Outcome(ToggleMute(e), None)
    case VideoTapped => Outcome(ToggleVideo(e), None)
    case Received(from, signal, media) => OnSignal(e, from, signal, media)
    case CandidateGathered => LocalCandidate(e)
    case Lost => Outcome(ConnectionLost(e), None)
    case LoggedOut => Outcome(Logout(e), None)
    case SocketChanged(open) => Outcome(e.(socketOpen := open), None)
  }

  function Run(e: Endpoint, events: seq<Event>): Endpoint
    decreases |events|
  {
    if events == [] then e else Run(Step(e, events[0]).next, events[1..])
  }

  lemma StepKeepsConsistent(e: Endpoint, event: Event)
    requires Consistent(e)
    ensures Consistent(Step(e, event).next)
  {
  }

  /** Every reachable endpoint is consistent: the timer is armed iff ringing out, the connection exists iff
      in a call, a stream is held iff ringing out or in a call, and every stream ever acquired is either
      that one or stopped, whatever the interleaving of prompts, logouts and signals. */
  lemma {:induction false} RunsStayConsistent(e: Endpoint, events: seq<Event>)
    requires Consistent(e)
    ensures Consistent(Run(e, events))
    decreases |events|
  {
    if events != [] {
      StepKeepsConsistent(e, events[0]);
      RunsStayConsistent(Step(e, events[0]).next, events[1..]);
    }
  }

  lemma EndpointNeverLeaks(events: seq<Event>)
    ensures var e := Run(FRESH, events);
            && (e.ringTimer.Some? <==> e.call.Outgoing?)
            && (e.pc.Some? <==> e.call.Active?)
            && (e.stream.Some? <==> e.call.Outgoing? || e.call.Active?)
            && (forall id: nat :: id < e.acquired ==> (id in e.stopped <==> e.stream.None? || e.stream.value.id != id))
  {
    RunsStayConsistent(FRESH, events);
  }
}
