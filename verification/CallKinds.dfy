/** The kind of a call, audio or video: in every legal run of the network, two endpoints that face each other
    are in the same kind of call. Wherever a call between two users can still come about, an invite in flight
    carries the ringer's kind, and the rung or talking side holds it. */
module CallKinds {
  import opened Prelude
  import opened CallEndpoint
  import opened CallNetwork

  /** The kind carried by the first invite of a queue. */
  function FirstInvite(queue: seq<Signal>): Option<Media> {
    if queue == [] then None
    else if queue[0].Invite? then Some(queue[0].media)
    else FirstInvite(queue[1..])
  }

  lemma {:induction false} FirstInviteAppend(queue: seq<Signal>, signal: Signal)
    ensures FirstInvite(queue + [signal]) ==
            if FirstInvite(queue).Some? then FirstInvite(queue) else if signal.Invite? then Some(signal.media) else None
    decreases |queue|
  {
    if queue == [] {
      assert (queue + [signal])[1..] == [];
    } else {
      assert (queue + [signal])[1..] == queue[1..] + [signal];
      FirstInviteAppend(queue[1..], signal);
    }
  }

  lemma {:induction false} UntaggedHasNoInvite(queue: seq<Signal>)
    requires Tags(queue) == []
    ensures FirstInvite(queue) == None
    decreases |queue|
  {
    if queue != [] {
      assert TagOf(queue[0]) == [] && Tags(queue[1..]) == [];
      UntaggedHasNoInvite(queue[1..]);
    }
  }

  /** `a` is called by `b`, or talks to it. */
  ghost predicate KindsAgree(n: Net, a: UserId, b: UserId)
    requires a in n.ends && b in n.ends
  {
    var l := LinkOf(n, a, b);
    OnCourseThisWay(l.va, l.vb, l.ab, l.ba) ==>
      if l.va == Away then FirstInvite(Wire(n, b, a)) == Some(n.ends[b].call.media)
      else n.ends[a].call.media == n.ends[b].call.media
  }

  ghost predicate AllKindsAgree(n: Net) {
    forall a, b :: a in n.ends && b in n.ends && a != b ==> KindsAgree(n, a, b)
  }

  // ----- How a call gets on course -----

  /** By an act of the called side: only by accepting a call that was. */
  lemma ActsOnCourse(va: View, vb: View, ab: seq<Tag>, ba: seq<Tag>, va': View, out: seq<Tag>)
    requires Acts(va, ba, ab, va', out) && OnCourseThisWay(va', vb, ab + out, ba)
    ensures (va' == va && out == []) || (va == Rung && va' == Talking && OnCourseThisWay(va, vb, ab, ba))
  {
    if out != [] {
      assert |ab + out| == |ab| + 1 && (ab + out)[|ab|] == out[0];
    }
  }

  /** By an act of the calling side: only by ringing. */
  lemma ActsOnCourseThatWay(va: View, vb: View, ab: seq<Tag>, ba: seq<Tag>, va': View, out: seq<Tag>)
    requires Acts(va, ba, ab, va', out) && OnCourseThisWay(vb, va', ba, ab + out)
    ensures (va' == va && out == []) || (va == Away && va' == Ringing && vb == Away && ab == [])
  {
    if out != [] {
      assert |ab + out| == |ab| + 1 && (ab + out)[|ab|] == out[0];
    }
  }

  /** By hearing a signal: an invite of the call, or an accept of it. */
  lemma ConsumesOnCourse(va: View, vb: View, ab: seq<Tag>, ba: seq<Tag>, va': View, out: seq<Tag>)
    requires Linked(va, vb, ab, ba) && ba != [] && Consumes(va, ba[0], va', out)
    requires OnCourseThisWay(va', vb, ab + out, ba[1..])
    ensures || (va == Away && va' == Rung && ba[0] == Inv && OnCourseThisWay(va, vb, ab, ba))
            || (va == Ringing && va' == Talking && OnCourseThisWay(vb, va, ba, ab))
  {
    assert ba == [ba[0]] + ba[1..];
    if out == [] {
      assert ab + out == ab;
    }
  }

  lemma ConsumesOnCourseThatWay(va: View, vb: View, ab: seq<Tag>, ba: seq<Tag>, va': View, out: seq<Tag>)
    requires Linked(va, vb, ab, ba) && ba != [] && Consumes(va, ba[0], va', out)
    requires OnCourseThisWay(vb, va', ba[1..], ab + out)
    ensures va == Ringing && va' == Talking && OnCourseThisWay(vb, va, ba, ab)
  {
    assert ba == [ba[0]] + ba[1..];
    if out == [] {
      assert ab + out == ab;
    }
  }

  // ----- What the handlers do to the kind -----

  lemma LocalKeepsKind(e: Endpoint, event: CallEndpoint.Event, w: UserId)
    requires Consistent(e) && e.socketOpen
    requires !event.Received? && !event.Lost? && !event.LoggedOut? && !event.SocketChanged?
    ensures var o := Step(e, event);
      && (ViewOf(e.call, w) != Away && ViewOf(o.next.call, w) != Away ==> o.next.call.media == e.call.media)
      && (ViewOf(e.call, w) == Away && ViewOf(o.next.call, w) == Ringing ==>
            o.sent == Some(Post(w, Invite(o.next.call.media))))
      && (o.sent.Some? && o.sent.value.signal.Invite? ==> ViewOf(e.call, o.sent.value.to) == Away)
  {
  }

  lemma SignalKeepsKind(e: Endpoint, from: UserId, signal: Signal, media: MediaOutcome)
    requires Consistent(e) && e.socketOpen
    ensures var o := OnSignal(e, from, signal, media);
      && (ViewOf(e.call, from) != Away && ViewOf(o.next.call, from) != Away ==> o.next.call.media == e.call.media)
      && (ViewOf(e.call, from) == Away && ViewOf(o.next.call, from) == Rung ==>
            signal.Invite? && o.next.call.media == signal.media)
      && (o.sent.Some? ==> !o.sent.value.signal.Invite?)
  {
  }

  lemma SignalLeavesCall(e: Endpoint, from: UserId, signal: Signal, media: MediaOutcome, w: UserId)
    requires w != from && ViewOf(e.call, w) != Away
    ensures OnSignal(e, from, signal, media).next.call == e.call
  {
  }

  // ----- Every move keeps the kinds -----

  lemma PostedInvites(n: Net, u: UserId, o: Outcome, a: UserId, b: UserId)
    ensures FirstInvite(Wire(Posted(n, u, o), a, b)) ==
      if a == u && o.sent.Some? && o.sent.value.to == b && o.sent.value.signal.Invite? && FirstInvite(Wire(n, a, b)).None?
      then Some(o.sent.value.signal.media) else FirstInvite(Wire(n, a, b))
  {
    if a == u && o.sent.Some? && o.sent.value.to == b {
      FirstInviteAppend(Wire(n, a, b), o.sent.value.signal);
    }
  }

  lemma LocalKeepsCalled(n: Net, u: UserId, event: CallEndpoint.Event, w: UserId)
    requires Sound(n) && Possible(n, Local(u, event)) && MayInvite(n, Local(u, event))
    requires w in n.ends && w != u && KindsAgree(n, u, w)
    ensures KindsAgree(Moved(n, Local(u, event)), u, w)
  {
    var o, l := Step(n.ends[u], event), LinkOf(n, u, w);
    var va', out := ViewOf(o.next.call, w), SentTo(o.sent, w);
    assert EndSound(n, u);
    LocalActs(n.ends[u], event, w, l.ba, l.ab);
    LocalKeepsKind(n.ends[u], event, w);
    PostedLink(n, u, o, w);
    PostedInvites(n, u, o, w, u);
    if OnCourseThisWay(va', l.vb, l.ab + out, l.ba) {
      ActsOnCourse(l.va, l.vb, l.ab, l.ba, va', out);
      if out == [] {
        assert l.ab + out == l.ab;
      }
    }
  }

  lemma LocalKeepsCalling(n: Net, u: UserId, event: CallEndpoint.Event, w: UserId)
    requires Sound(n) && Possible(n, Local(u, event)) && MayInvite(n, Local(u, event))
    requires w in n.ends && w != u && KindsAgree(n, w, u)
    ensures KindsAgree(Moved(n, Local(u, event)), w, u)
  {
    var o, l := Step(n.ends[u], event), LinkOf(n, u, w);
    var va', out := ViewOf(o.next.call, w), SentTo(o.sent, w);
    assert EndSound(n, u);
    LocalActs(n.ends[u], event, w, l.ba, l.ab);
    LocalKeepsKind(n.ends[u], event, w);
    PostedLink(n, u, o, w);
    PostedInvites(n, u, o, u, w);
    if OnCourseThisWay(l.vb, va', l.ba, l.ab + out) {
      ActsOnCourseThatWay(l.va, l.vb, l.ab, l.ba, va', out);
      if out == [] {
        assert l.ab + out == l.ab;
      } else {
        UntaggedHasNoInvite(Wire(n, u, w));
      }
    }
  }

  /** What hearing `a`'s first signal does to the link of `b` and `a`, and to the invites between them. */
  lemma HeardInvites(n: Net, a: UserId, b: UserId, o: Outcome)
    requires a in n.ends && b in n.ends && a != b && Wire(n, a, b) != []
    requires o.sent.Some? ==> !o.sent.value.signal.Invite?
    ensures var n' := Posted(Take(n, a, b), b, o);
      && FirstInvite(Wire(n', b, a)) == FirstInvite(Wire(n, b, a))
      && (!Wire(n, a, b)[0].Invite? ==> FirstInvite(Wire(n', a, b)) == FirstInvite(Wire(n, a, b)))
  {
    PostedInvites(Take(n, a, b), b, o, b, a);
    PostedInvites(Take(n, a, b), b, o, a, b);
  }

  lemma AnsweringKeepsCalled(n: Net, a: UserId, b: UserId, media: MediaOutcome)
    requires Sound(n) && a in n.ends && b in n.ends && a != b && Wire(n, a, b) != []
    requires KindsAgree(n, b, a) && KindsAgree(n, a, b)
    ensures KindsAgree(Moved(n, Deliver(a, b, media)), b, a)
  {
    var signal := Wire(n, a, b)[0];
    var o := OnSignal(n.ends[b], a, signal, media);
    assert EndSound(n, b) && PairSound(n, b, a);
    SignalConsumes(n.ends[b], a, signal, media);
    SignalKeepsKind(n.ends[b], a, signal, media);
    AnsweringLink(n, a, b, o);
    HeardInvites(n, a, b, o);
    var l, l' := LinkOf(n, b, a), LinkOf(Posted(Take(n, a, b), b, o), b, a);
    if OnCourseThisWay(l'.va, l'.vb, l'.ab, l'.ba) {
      if TagOf(signal) == [] {
        assert l' == l;
      } else {
        assert l.ba[1..] == l'.ba;
        ConsumesOnCourse(l.va, l.vb, l.ab, l.ba, l'.va, SentTo(o.sent, a));
      }
    }
  }

  lemma AnsweringKeepsCalling(n: Net, a: UserId, b: UserId, media: MediaOutcome)
    requires Sound(n) && a in n.ends && b in n.ends && a != b && Wire(n, a, b) != []
    requires KindsAgree(n, b, a) && KindsAgree(n, a, b)
    ensures KindsAgree(Moved(n, Deliver(a, b, media)), a, b)
  {
    var signal := Wire(n, a, b)[0];
    var o := OnSignal(n.ends[b], a, signal, media);
    assert EndSound(n, b) && PairSound(n, b, a);
    SignalConsumes(n.ends[b], a, signal, media);
    SignalKeepsKind(n.ends[b], a, signal, media);
    AnsweringLink(n, a, b, o);
    HeardInvites(n, a, b, o);
    var l, l' := LinkOf(n, b, a), LinkOf(Posted(Take(n, a, b), b, o), b, a);
    if OnCourseThisWay(l'.vb, l'.va, l'.ba, l'.ab) {
      if TagOf(signal) == [] {
        assert l' == l;
      } else {
        assert l.ba[1..] == l'.ba;
        ConsumesOnCourseThatWay(l.va, l.vb, l.ab, l.ba, l'.va, SentTo(o.sent, a));
      }
    }
  }

  /** A delivery to `y` and any user `w` other than its sender. */
  lemma DeliveryKeepsOthers(n: Net, x: UserId, y: UserId, media: MediaOutcome, w: UserId)
    requires Sound(n) && {x, y, w} <= n.ends.Keys && x != y && w != x && w != y && Wire(n, x, y) != []
    requires KindsAgree(n, y, w) && KindsAgree(n, w, y)
    ensures KindsAgree(Moved(n, Deliver(x, y, media)), y, w) && KindsAgree(Moved(n, Deliver(x, y, media)), w, y)
  {
    var signal := Wire(n, x, y)[0];
    var o := OnSignal(n.ends[y], x, signal, media);
    assert EndSound(n, y);
    SignalLeavesOthers(n.ends[y], x, signal, media, w);
    SignalKeepsKind(n.ends[y], x, signal, media);
    if ViewOf(n.ends[y].call, w) != Away {
      SignalLeavesCall(n.ends[y], x, signal, media, w);
    }
    BystandingLink(n, x, y, o, y, w);
    BystandingLink(n, x, y, o, w, y);
    PostedInvites(Take(n, x, y), y, o, y, w);
    PostedInvites(Take(n, x, y), y, o, w, y);
  }

  lemma MoveKeepsKinds(n: Net, move: Move, a: UserId, b: UserId)
    requires Sound(n) && AllKindsAgree(n) && Possible(n, move) && MayInvite(n, move)
    requires a in n.ends && b in n.ends && a != b
    requires move.Deliver? ==> Wire(n, move.sender, move.receiver) != []
    ensures {a, b} <= Moved(n, move).ends.Keys && KindsAgree(Moved(n, move), a, b)
  {
    var u := ActorOf(move);
    assert KindsAgree(n, a, b) && KindsAgree(n, b, a);
    if u != a && u != b {
      BystandersKeepKinds(n, move, a, b);
    } else if move.Local? {
      if u == a {
        LocalKeepsCalled(n, u, move.event, b);
      } else {
        LocalKeepsCalling(n, u, move.event, a);
      }
    } else {
      DeliveryKeepsKinds(n, move.sender, u, move.media, if u == a then b else a);
    }
  }

  lemma DeliveryKeepsKinds(n: Net, x: UserId, y: UserId, media: MediaOutcome, w: UserId)
    requires Sound(n) && {x, y, w} <= n.ends.Keys && x != y && w != y && Wire(n, x, y) != []
    requires KindsAgree(n, y, w) && KindsAgree(n, w, y)
    ensures KindsAgree(Moved(n, Deliver(x, y, media)), y, w) && KindsAgree(Moved(n, Deliver(x, y, media)), w, y)
  {
    if w == x {
      AnsweringKeepsCalled(n, x, y, media);
      AnsweringKeepsCalling(n, x, y, media);
    } else {
      DeliveryKeepsOthers(n, x, y, media, w);
    }
  }

  lemma BystandersKeepKinds(n: Net, move: Move, a: UserId, b: UserId)
    requires Possible(n, move) && {a, b} <= n.ends.Keys && a != b && KindsAgree(n, a, b)
    requires a != ActorOf(move) && b != ActorOf(move)
    ensures {a, b} <= Moved(n, move).ends.Keys && KindsAgree(Moved(n, move), a, b)
  {
    var n' := Moved(n, move);
    assert LinkOf(n', a, b) == LinkOf(n, a, b);
    assert Wire(n', b, a) == Wire(n, b, a) && n'.ends[a] == n.ends[a] && n'.ends[b] == n.ends[b];
  }

  lemma {:induction false} ReplayKeepsKinds(n: Net, moves: seq<Move>)
    requires Sound(n) && AllKindsAgree(n) && Legal(n, moves)
    ensures AllKindsAgree(Replay(n, moves))
    decreases |moves|
  {
    if moves != [] {
      var move, n' := moves[0], Moved(n, moves[0]);
      MoveKeepsSound(n, move);
      if move.Deliver? && Wire(n, move.sender, move.receiver) == [] {
        assert n' == n;
      } else {
        MovedEnds(n, move, ActorOf(move));
        forall a, b | a in n'.ends && b in n'.ends && a != b
          ensures KindsAgree(n', a, b)
        {
          MoveKeepsKinds(n, move, a, b);
        }
      }
      ReplayKeepsKinds(n', moves[1..]);
    }
  }

  lemma QuietKindsAgree(n: Net, u: UserId)
    requires Sound(n) && AllKindsAgree(n) && u in n.ends && n.ends[u].call != Idle
    requires CallsMatch(n) && forall a, b :: a in n.ends && b in n.ends && a != b ==> Wire(n, a, b) == []
    ensures n.ends[u].call.media == n.ends[n.ends[u].call.peer].call.media
  {
    var p := n.ends[u].call.peer;
    assert EndSound(n, u);
    assert KindsAgree(n, u, p) && KindsAgree(n, p, u);
    assert Wire(n, u, p) == [] && Wire(n, p, u) == [];
  }

  /** For any users and any legal run: whenever no signal is in flight, calls form a symmetric matching, and the
      two sides of every call are in the same kind of call, audio or video. */
  lemma QuietCallsAreOfOneKind(users: set<UserId>, moves: seq<Move>)
    requires Legal(Start(users), moves)
    ensures var n := Replay(Start(users), moves);
      (forall a, b :: a in n.ends && b in n.ends && a != b ==> Wire(n, a, b) == []) ==>
        && CallsMatch(n)
        && forall u :: u in n.ends && n.ends[u].call != Idle ==>
             n.ends[u].call.media == n.ends[n.ends[u].call.peer].call.media
  {
    var n := Replay(Start(users), moves);
    QuietCallsMatch(users, moves);
    ReplayKeepsKinds(Start(users), moves);
    ReplayKeepsSound(Start(users), moves);
    if forall a, b :: a in n.ends && b in n.ends && a != b ==> Wire(n, a, b) == [] {
      forall u | u in n.ends && n.ends[u].call != Idle
        ensures n.ends[u].call.media == n.ends[n.ends[u].call.peer].call.media
      {
        QuietKindsAgree(n, u);
      }
    }
  }
}
