/** Any number of call endpoints joined by reliable FIFO channels (the signaling relay). Signals carry no
    call id, so agreement between two endpoints rests on what is in flight between them; `Linked` says
    exactly what that can be, and every handler of every endpoint keeps it for every pair. */
module CallNetwork {
  import opened Prelude
  import opened CallEndpoint

  // ----- The two-party view -----

  /** How one user is engaged with one other user; `Away` covers idle, busy elsewhere and dialing. */
  datatype View = Away | Ringing | Rung | Talking

  datatype Tag = Inv | Acc | Rej | Can | Fin

  function ViewOf(call: CallState, peer: UserId): View {
    if call.Idle? || call.peer != peer then Away
    else if call.Outgoing? then Ringing
    else if call.Incoming? then Rung
    else Talking
  }

  /** The signals that move the call state; negotiation signals (offer, answer, candidate) do not. */
  function TagOf(signal: Signal): (tags: seq<Tag>)
    ensures |tags| <= 1
  {
    match signal
    case Invite(_) => [Inv]
    case AcceptCall => [Acc]
    case RejectCall => [Rej]
    case CancelCall => [Can]
    case EndCall => [Fin]
    case Offer => []
    case Answer => []
    case IceCandidate => []
  }

  function Tags(queue: seq<Signal>): seq<Tag> {
    if queue == [] then [] else TagOf(queue[0]) + Tags(queue[1..])
  }

  lemma {:induction false} TagsAppend(queue: seq<Signal>, signal: Signal)
    ensures Tags(queue + [signal]) == Tags(queue) + TagOf(signal)
    decreases |queue|
  {
    if queue == [] {
      assert (queue + [signal])[1..] == [];
    } else {
      assert (queue + [signal])[1..] == queue[1..] + [signal];
      TagsAppend(queue[1..], signal);
    }
  }

  /** A signal on its way that ends whatever the receiver has with the sender. */
  ghost predicate Closing(queue: seq<Tag>) {
    Rej in queue || Can in queue || Fin in queue
  }

  /** An invite can only head a queue. */
  ghost predicate InviteFirst(queue: seq<Tag>) {
    forall k :: 0 < k < |queue| ==> queue[k] != Inv
  }

  /** If an invite is on its way, so is the signal that withdraws it. */
  ghost predicate Withdrawn(queue: seq<Tag>) {
    Inv in queue ==> Closing(queue)
  }

  /** What two users' views of each other, and the signals in flight either way, can be:
      `ab` travels from the first to the second user, `ba` back. Read up to exchanging the two. */
  ghost predicate LinkedThisWay(va: View, vb: View, ab: seq<Tag>, ba: seq<Tag>) {
    match (va, vb)
    case (Away, Away) => Withdrawn(ab) && Withdrawn(ba)
    case (Away, Ringing) =>
      || (ba == [Inv] && (ab == [] || ab == [Inv, Can]))
      || (ba == [Inv, Rej] && ab == [Can])
      || (Inv !in ba && Closing(ab))
    case (Away, _) => Closing(ab) && Withdrawn(ba)
    case (Rung, Ringing) =>
      (ab == [] && ba == []) || (ab == [Inv, Can] && ba == []) || (ab == [Can] && ba == [Rej])
    case (Talking, Ringing) =>
      (ab == [Acc] && ba == []) || (ab == [Inv, Can, Acc] && ba == []) || (ab == [Can, Acc] && ba == [Rej])
    case (Ringing, Ringing) =>
      || (ab == [Inv] && ba == [Inv]) || (ab == [Inv, Rej] && ba == [])
      || (ab == [] && ba == [Inv, Rej]) || (ab == [Rej] && ba == [Rej])
    case (Talking, Talking) => (ab == [] && ba == []) || (Closing(ab) && Closing(ba))
    case (Talking, Rung) => Closing(ab) && Closing(ba)
    case (Rung, Talking) => Closing(ab) && Closing(ba)
    case (Rung, Rung) => Closing(ab) && Closing(ba)
    case (Ringing, _) => false
    case (_, Away) => false
  }

  ghost predicate Linked(va: View, vb: View, ab: seq<Tag>, ba: seq<Tag>) {
    && InviteFirst(ab) && InviteFirst(ba)
    && (LinkedThisWay(va, vb, ab, ba) || LinkedThisWay(vb, va, ba, ab))
  }

  lemma LinkedSymmetric(va: View, vb: View, ab: seq<Tag>, ba: seq<Tag>)
    ensures Linked(va, vb, ab, ba) == Linked(vb, va, ba, ab)
  {
  }

  /** With nothing in flight the two views agree. */
  ghost predicate Matched(va: View, vb: View) {
    || (va == Away && vb == Away)
    || (va == Talking && vb == Talking)
    || (va == Ringing && vb == Rung)
    || (va == Rung && vb == Ringing)
  }

  lemma QuietLinkIsMatched(va: View, vb: View)
    requires Linked(va, vb, [], [])
    ensures Matched(va, vb)
  {
  }

  /** What may be in flight to the peer and from it when an invite leaves. */
  ghost predicate MayFollow(outq: seq<Tag>, inq: seq<Tag>) {
    outq == [] && (inq == [] || inq == [Inv] || inq == [Inv, Can])
  }

  /** One user acts without consuming a signal: the new view and what is sent to the peer. */
  ghost predicate Acts(v: View, inq: seq<Tag>, outq: seq<Tag>, v': View, out: seq<Tag>) {
    || (v' == v && out == [])
    || (v == Away && v' == Ringing && out == [Inv] && MayFollow(outq, inq))
    || (v == Ringing && v' == Away && out == [Can])
    || (v == Rung && v' == Talking && out == [Acc])
    || (v == Rung && v' == Away && (out == [Rej] || out == [Fin]))
    || (v == Talking && v' == Away && out == [Fin])
  }

  /** One user consumes `tag` from the peer. */
  ghost predicate Consumes(v: View, tag: Tag, v': View, out: seq<Tag>) {
    match tag
    case Inv => (v' == v && out == [Rej]) || (v == Away && v' == Rung && out == [])
    case Acc =>
      if v == Ringing then (v' == Talking && out == []) || (v' == Away && out == [Fin])
      else v' == v && out == []
    case _ => v' == Away && out == []
  }

  lemma ActsKeepLinked(va: View, vb: View, ab: seq<Tag>, ba: seq<Tag>, va': View, out: seq<Tag>)
    requires Linked(va, vb, ab, ba) && Acts(va, ba, ab, va', out)
    ensures Linked(va', vb, ab + out, ba)
  {
    if out == [] {
      assert ab + out == ab;
    }
  }

  lemma ConsumesKeepLinked(va: View, vb: View, ab: seq<Tag>, ba: seq<Tag>, va': View, out: seq<Tag>)
    requires Linked(va, vb, ab, ba) && ba != [] && Consumes(va, ba[0], va', out)
    ensures Linked(va', vb, ab + out, ba[1..])
  {
    if out == [] {
      assert ab + out == ab;
    }
    assert ba == [ba[0]] + ba[1..];
  }

  /** Exactly when an invite keeps two users linked. */
  lemma InviteKeepsLinkedIff(vb: View, ab: seq<Tag>, ba: seq<Tag>)
    requires Linked(Away, vb, ab, ba)
    ensures Linked(Ringing, vb, ab + [Inv], ba) <==> MayFollow(ab, ba)
  {
    if ab == [] {
      assert ab + [Inv] == [Inv];
    } else {
      assert (ab + [Inv])[|ab|] == Inv;
    }
  }

  /** The same for a signal that may carry no tag at all. */
  lemma SignalKeepsLinked(va: View, vb: View, ab: seq<Tag>, tags: seq<Tag>, rest: seq<Tag>, va': View, out: seq<Tag>)
    requires Linked(va, vb, ab, tags + rest) && |tags| <= 1
    requires if tags == [] then va' == va && out == [] else Consumes(va, tags[0], va', out)
    ensures Linked(va', vb, ab + out, rest)
  {
    if tags == [] {
      assert tags + rest == rest && ab + out == ab;
    } else {
      assert (tags + rest)[0] == tags[0] && (tags + rest)[1..] == rest;
      ConsumesKeepLinked(va, vb, ab, tags + rest, va', out);
    }
  }

  // ----- The network -----

  datatype Net = Net(ends: map<UserId, Endpoint>, wires: map<(UserId, UserId), seq<Signal>>)

  datatype Move =
    | Local(user: UserId, event: Event)
    | Deliver(sender: UserId, receiver: UserId, media: MediaOutcome)

  function Wire(n: Net, a: UserId, b: UserId): seq<Signal> {
    if (a, b) in n.wires then n.wires[(a, b)] else []
  }

  /** `user` moves to `outcome.next`, and what it sent joins the wire to its addressee. */
  function Posted(n: Net, user: UserId, outcome: Outcome): Net {
    var wires := if outcome.sent.None? then n.wires else
      var to := outcome.sent.value.to;
      n.wires[(user, to) := Wire(n, user, to) + [outcome.sent.value.signal]];
    Net(n.ends[user := outcome.next], wires)
  }

  function Take(n: Net, a: UserId, b: UserId): Net {
    if Wire(n, a, b) == [] then n else n.(wires := n.wires[(a, b) := Wire(n, a, b)[1..]])
  }

  function Moved(n: Net, move: Move): Net {
    match move
    case Local(u, event) =>
      if u in n.ends then Posted(n, u, Step(n.ends[u], event)) else n
    case Deliver(a, b, media) =>
      if b !in n.ends || Wire(n, a, b) == [] then n
      else Posted(Take(n, a, b), b, OnSignal(n.ends[b], a, Wire(n, a, b)[0], media))
  }

  function Replay(n: Net, moves: seq<Move>): Net
    decreases |moves|
  {
    if moves == [] then n else Replay(Moved(n, moves[0]), moves[1..])
  }

  /** The assumptions on a move: real, distinct users, no lost connection or logout; the ones that
      matter most are in `MayInvite`. */
  ghost predicate Possible(n: Net, move: Move) {
    match move
    case Local(u, event) =>
      && u in n.ends
      && !event.Received? && !event.Lost? && !event.LoggedOut? && !event.SocketChanged?
      && (event.Dialled? ==> event.peer != u && event.peer in n.ends)
    case Deliver(a, b, _) => a in n.ends && b in n.ends && a != b
  }

  /** An invite leaves only when nothing is under way between the two but the peer's own invite, withdrawn or
      not. */
  ghost predicate MayInvite(n: Net, move: Move) {
    move.Local? && move.event == Answered(true) && move.user in n.ends && n.ends[move.user].dialing.Some? ==>
      var peer := n.ends[move.user].dialing.value.peer;
      MayFollow(Tags(Wire(n, move.user, peer)), Tags(Wire(n, peer, move.user)))
  }

  ghost predicate Legal(n: Net, moves: seq<Move>)
    decreases |moves|
  {
    moves != [] ==>
      Possible(n, moves[0]) && MayInvite(n, moves[0]) && Legal(Moved(n, moves[0]), moves[1..])
  }

  function Start(users: set<UserId>): Net {
    Net(map u | u in users :: FRESH.(socketOpen := true), map[])
  }

  // ----- The invariant -----

  ghost predicate EndSound(n: Net, u: UserId)
    requires u in n.ends
  {
    var e := n.ends[u];
    && Consistent(e) && e.socketOpen
    && (e.call != Idle ==> e.call.peer != u && e.call.peer in n.ends)
    && (e.dialing.Some? ==> e.dialing.value.peer != u && e.dialing.value.peer in n.ends)
  }

  /** What two users have with each other: their views and the tags in flight either way. */
  datatype Link = Link(va: View, vb: View, ab: seq<Tag>, ba: seq<Tag>)

  function LinkOf(n: Net, a: UserId, b: UserId): Link
    requires a in n.ends && b in n.ends
  {
    Link(ViewOf(n.ends[a].call, b), ViewOf(n.ends[b].call, a), Tags(Wire(n, a, b)), Tags(Wire(n, b, a)))
  }

  ghost predicate PairSound(n: Net, a: UserId, b: UserId)
    requires a in n.ends && b in n.ends
  {
    var l := LinkOf(n, a, b);
    Linked(l.va, l.vb, l.ab, l.ba)
  }

  ghost predicate Sound(n: Net) {
    && (forall u :: u in n.ends ==> EndSound(n, u))
    && (forall a, b :: a in n.ends && b in n.ends && a != b ==> PairSound(n, a, b))
  }

  /** Every call is faced by its counterpart: talking by talking, ringing out by being rung. */
  ghost predicate CallsMatch(n: Net) {
    forall u :: u in n.ends && n.ends[u].call != Idle ==>
      var p := n.ends[u].call.peer;
      && p in n.ends && n.ends[p].call != Idle && n.ends[p].call.peer == u
      && (n.ends[u].call.Active? <==> n.ends[p].call.Active?)
      && (n.ends[u].call.Outgoing? <==> n.ends[p].call.Incoming?)
      && (n.ends[u].call.Incoming? <==> n.ends[p].call.Outgoing?)
  }

  function SentTo(sent: Option<Post>, w: UserId): seq<Tag> {
    if sent.Some? && sent.value.to == w then TagOf(sent.value.signal) else []
  }

  lemma LocalActs(e: Endpoint, event: Event, w: UserId, inq: seq<Tag>, outq: seq<Tag>)
    requires Consistent(e) && e.socketOpen
    requires !event.Received? && !event.Lost? && !event.LoggedOut? && !event.SocketChanged?
    requires event == Answered(true) && e.dialing.Some? && e.dialing.value.peer == w ==>
               MayFollow(outq, inq)
    ensures var o := Step(e, event);
            Acts(ViewOf(e.call, w), inq, outq, ViewOf(o.next.call, w), SentTo(o.sent, w))
  {
  }

  lemma SignalConsumes(e: Endpoint, from: UserId, signal: Signal, media: MediaOutcome)
    requires Consistent(e) && e.socketOpen
    ensures Answers(e.call, from, signal, OnSignal(e, from, signal, media))
  {
  }

  lemma SignalLeavesOthers(e: Endpoint, from: UserId, signal: Signal, media: MediaOutcome, w: UserId)
    requires w != from
    ensures var o := OnSignal(e, from, signal, media);
            ViewOf(o.next.call, w) == ViewOf(e.call, w) && SentTo(o.sent, w) == []
  {
  }

  /** What a post does to the wires: only those out of the poster grow. */
  lemma PostWires(n: Net, u: UserId, o: Outcome, a: UserId, b: UserId)
    ensures Tags(Wire(Posted(n, u, o), a, b)) == Tags(Wire(n, a, b)) + if a == u then SentTo(o.sent, b) else []
  {
    if o.sent.Some? && a == u && o.sent.value.to == b {
      TagsAppend(Wire(n, a, b), o.sent.value.signal);
    }
  }

  lemma PostedLink(n: Net, u: UserId, o: Outcome, w: UserId)
    requires {u, w} <= n.ends.Keys && u != w
    ensures var l := LinkOf(n, u, w);
            LinkOf(Posted(n, u, o), u, w) == Link(ViewOf(o.next.call, w), l.vb, l.ab + SentTo(o.sent, w), l.ba)
  {
    PostWires(n, u, o, u, w);
    PostWires(n, u, o, w, u);
  }

  lemma LocalKeepsPair(n: Net, u: UserId, event: Event, w: UserId)
    requires Sound(n) && Possible(n, Local(u, event)) && MayInvite(n, Local(u, event))
    requires w in n.ends && w != u
    ensures PairSound(Moved(n, Local(u, event)), u, w)
  {
    var o := Step(n.ends[u], event);
    assert EndSound(n, u) && PairSound(n, u, w);
    var l := LinkOf(n, u, w);
    LocalActs(n.ends[u], event, w, l.ba, l.ab);
    PostedLink(n, u, o, w);
    ActsKeepLinked(l.va, l.vb, l.ab, l.ba, ViewOf(o.next.call, w), SentTo(o.sent, w));
  }

  /** What an outcome of `b` says to the peer whose `signal` it consumed. */
  ghost predicate Answers(call: CallState, from: UserId, signal: Signal, o: Outcome) {
    if TagOf(signal) == [] then ViewOf(o.next.call, from) == ViewOf(call, from) && SentTo(o.sent, from) == []
    else Consumes(ViewOf(call, from), TagOf(signal)[0], ViewOf(o.next.call, from), SentTo(o.sent, from))
  }

  lemma AnsweringLink(n: Net, a: UserId, b: UserId, o: Outcome)
    requires a in n.ends && b in n.ends && a != b && Wire(n, a, b) != []
    ensures var l, signal := LinkOf(n, b, a), Wire(n, a, b)[0];
            var l' := LinkOf(Posted(Take(n, a, b), b, o), b, a);
            && l'.va == ViewOf(o.next.call, a) && l'.vb == l.vb
            && l'.ab == l.ab + SentTo(o.sent, a) && l.ba == TagOf(signal) + l'.ba
  {
    PostWires(Take(n, a, b), b, o, b, a);
    PostWires(Take(n, a, b), b, o, a, b);
  }

  lemma BystandingLink(n: Net, x: UserId, y: UserId, o: Outcome, a: UserId, b: UserId)
    requires {a, b, y} <= n.ends.Keys && a != b && {x, y} != {a, b}
    requires y == a ==> ViewOf(o.next.call, b) == ViewOf(n.ends[y].call, b) && SentTo(o.sent, b) == []
    requires y == b ==> ViewOf(o.next.call, a) == ViewOf(n.ends[y].call, a) && SentTo(o.sent, a) == []
    ensures LinkOf(Posted(Take(n, x, y), y, o), a, b) == LinkOf(n, a, b)
  {
    PostWires(Take(n, x, y), y, o, a, b);
    PostWires(Take(n, x, y), y, o, b, a);
    assert Wire(Take(n, x, y), a, b) == Wire(n, a, b) && Wire(Take(n, x, y), b, a) == Wire(n, b, a);
  }

  lemma AnsweringKeepsPair(n: Net, a: UserId, b: UserId, o: Outcome)
    requires a in n.ends && b in n.ends && a != b && PairSound(n, b, a)
    requires Wire(n, a, b) != [] && Answers(n.ends[b].call, a, Wire(n, a, b)[0], o)
    ensures PairSound(Posted(Take(n, a, b), b, o), b, a)
  {
    AnsweringLink(n, a, b, o);
    var l, l' := LinkOf(n, b, a), LinkOf(Posted(Take(n, a, b), b, o), b, a);
    var tags, out := TagOf(Wire(n, a, b)[0]), SentTo(o.sent, a);
    assert Linked(l.va, l.vb, l.ab, tags + l'.ba);
    SignalKeepsLinked(l.va, l.vb, l.ab, tags, l'.ba, l'.va, out);
    assert Linked(l'.va, l'.vb, l'.ab, l'.ba);
  }

  lemma DeliverKeepsPair(n: Net, a: UserId, b: UserId, media: MediaOutcome, w: UserId)
    requires Sound(n) && Possible(n, Deliver(a, b, media)) && Wire(n, a, b) != []
    requires w in n.ends && w != b
    ensures PairSound(Moved(n, Deliver(a, b, media)), b, w)
  {
    var signal := Wire(n, a, b)[0];
    assert EndSound(n, b) && PairSound(n, b, w);
    var o := OnSignal(n.ends[b], a, signal, media);
    if w == a {
      SignalConsumes(n.ends[b], a, signal, media);
      AnsweringKeepsPair(n, a, b, o);
    } else {
      SignalLeavesOthers(n.ends[b], a, signal, media, w);
      BystandingLink(n, a, b, o, b, w);
    }
  }

  /** A handler engages its endpoint only with the peer it had, the one it dialled, or the sender. */
  lemma StepPeers(e: Endpoint, event: Event)
    requires Consistent(e) && !event.LoggedOut? && !event.SocketChanged?
    ensures var e' := Step(e, event).next;
      && e'.socketOpen == e.socketOpen
      && (e'.call != Idle ==>
            || (e.call != Idle && e'.call.peer == e.call.peer)
            || (event.Answered? && e.dialing.Some? && e'.call.peer == e.dialing.value.peer)
            || (event.Received? && e'.call.peer == event.from))
      && (e'.dialing.Some? ==> e'.dialing == e.dialing || (event.Dialled? && e'.dialing.value.peer == event.peer))
  {
  }

  /** Who acts in a move, and on what event. */
  function ActorOf(move: Move): UserId {
    if move.Local? then move.user else move.receiver
  }

  function EventOf(n: Net, move: Move): Event {
    if move.Local? then move.event
    else if Wire(n, move.sender, move.receiver) == [] then MuteTapped
    else Received(move.sender, Wire(n, move.sender, move.receiver)[0], move.media)
  }

  lemma MovedEnds(n: Net, move: Move, u: UserId)
    requires Possible(n, move) && u in n.ends
    requires move.Deliver? ==> Wire(n, move.sender, move.receiver) != []
    ensures var n' := Moved(n, move);
      && n'.ends.Keys == n.ends.Keys
      && n'.ends[u] == if u == ActorOf(move) then Step(n.ends[u], EventOf(n, move)).next else n.ends[u]
  {
  }

  lemma MoveKeepsEnd(n: Net, move: Move, u: UserId)
    requires Sound(n) && Possible(n, move) && u in n.ends
    requires move.Deliver? ==> Wire(n, move.sender, move.receiver) != []
    ensures Moved(n, move).ends.Keys == n.ends.Keys && EndSound(Moved(n, move), u)
  {
    assert EndSound(n, u);
    MovedEnds(n, move, u);
    if u == ActorOf(move) {
      StepKeepsConsistent(n.ends[u], EventOf(n, move));
      StepPeers(n.ends[u], EventOf(n, move));
    }
  }

  lemma MoveKeepsPair(n: Net, move: Move, a: UserId, b: UserId)
    requires Sound(n) && Possible(n, move) && MayInvite(n, move)
    requires move.Deliver? ==> Wire(n, move.sender, move.receiver) != []
    requires a in n.ends && b in n.ends && a != b && (a == ActorOf(move) || b == ActorOf(move))
    ensures PairSound(Moved(n, move), a, b)
  {
    var actor := ActorOf(move);
    var w := if actor == a then b else a;
    if move.Local? {
      LocalKeepsPair(n, actor, move.event, w);
    } else {
      DeliverKeepsPair(n, move.sender, actor, move.media, w);
    }
    var l := LinkOf(Moved(n, move), a, b);
    LinkedSymmetric(l.va, l.vb, l.ab, l.ba);
  }

  lemma BystandersKeepPair(n: Net, move: Move, a: UserId, b: UserId)
    requires Sound(n) && Possible(n, move) && a in n.ends && b in n.ends && a != b
    requires a != ActorOf(move) && b != ActorOf(move)
    ensures a in Moved(n, move).ends && b in Moved(n, move).ends && PairSound(Moved(n, move), a, b)
  {
    assert PairSound(n, a, b);
    assert LinkOf(Moved(n, move), a, b) == LinkOf(n, a, b);
  }

  lemma MoveKeepsSound(n: Net, move: Move)
    requires Sound(n) && Possible(n, move) && MayInvite(n, move)
    ensures Sound(Moved(n, move))
  {
    if move.Deliver? && Wire(n, move.sender, move.receiver) == [] {
      return;
    }
    var n' := Moved(n, move);
    forall u | u in n.ends
      ensures n'.ends.Keys == n.ends.Keys && EndSound(n', u)
    {
      MoveKeepsEnd(n, move, u);
    }
    assert ActorOf(move) in n.ends;
    MovedEnds(n, move, ActorOf(move));
    forall a, b | a in n'.ends && b in n'.ends && a != b
      ensures PairSound(n', a, b)
    {
      if a == ActorOf(move) || b == ActorOf(move) {
        MoveKeepsPair(n, move, a, b);
      } else {
        BystandersKeepPair(n, move, a, b);
      }
    }
  }

  lemma {:induction false} ReplayKeepsSound(n: Net, moves: seq<Move>)
    requires Sound(n) && Legal(n, moves)
    ensures Sound(Replay(n, moves))
    decreases |moves|
  {
    if moves != [] {
      MoveKeepsSound(n, moves[0]);
      ReplayKeepsSound(Moved(n, moves[0]), moves[1..]);
    }
  }

  lemma SoundAndQuietMatch(n: Net)
    requires Sound(n)
    requires forall a, b :: a in n.ends && b in n.ends && a != b ==> Wire(n, a, b) == []
    ensures CallsMatch(n)
  {
    forall u | u in n.ends && n.ends[u].call != Idle
      ensures var p := n.ends[u].call.peer;
        && p in n.ends && n.ends[p].call != Idle && n.ends[p].call.peer == u
        && (n.ends[u].call.Active? <==> n.ends[p].call.Active?)
        && (n.ends[u].call.Outgoing? <==> n.ends[p].call.Incoming?)
        && (n.ends[u].call.Incoming? <==> n.ends[p].call.Outgoing?)
    {
      var p := n.ends[u].call.peer;
      assert EndSound(n, u) && PairSound(n, u, p);
      assert Wire(n, u, p) == [] && Wire(n, p, u) == [];
      QuietLinkIsMatched(ViewOf(n.ends[u].call, p), ViewOf(n.ends[p].call, u));
    }
  }

  /** For any users and any legal run: whenever no signal is in flight, calls form a symmetric matching. */
  lemma QuietCallsMatch(users: set<UserId>, moves: seq<Move>)
    requires Legal(Start(users), moves)
    ensures var n := Replay(Start(users), moves);
            (forall a, b :: a in n.ends && b in n.ends && a != b ==> Wire(n, a, b) == []) ==> CallsMatch(n)
  {
    ReplayKeepsSound(Start(users), moves);
    var n := Replay(Start(users), moves);
    if forall a, b :: a in n.ends && b in n.ends && a != b ==> Wire(n, a, b) == [] {
      SoundAndQuietMatch(n);
    }
  }

  // ----- Glare -----

  /** Both ring each other, or already had one or both of those attempts rejected. */
  ghost predicate GlareTags(va: View, vb: View, ab: seq<Tag>, ba: seq<Tag>) {
    match (va, vb)
    case (Ringing, Ringing) =>
      || (ab == [Inv] && ba == [Inv]) || (ab == [Inv, Rej] && ba == [])
      || (ab == [] && ba == [Inv, Rej]) || (ab == [Rej] && ba == [Rej])
    case (Ringing, Away) => ab == [] && ba == [Rej]
    case (Away, Ringing) => ab == [Rej] && ba == []
    case (Away, Away) => ab == [] && ba == []
    case _ => false
  }

  ghost predicate Glare(n: Net, a: UserId, b: UserId)
    requires a in n.ends && b in n.ends
  {
    var l := LinkOf(n, a, b);
    GlareTags(l.va, l.vb, l.ab, l.ba)
  }

  /** Neither of the two does anything of its own; anyone else may. */
  ghost predicate HandsOff(moves: seq<Move>, a: UserId, b: UserId) {
    forall move :: move in moves ==> !(move.Local? && (move.user == a || move.user == b))
  }

  lemma ConsumesKeepGlare(va: View, vb: View, ab: seq<Tag>, ba: seq<Tag>, va': View, out: seq<Tag>)
    requires GlareTags(va, vb, ab, ba) && ba != [] && Consumes(va, ba[0], va', out)
    ensures GlareTags(va', vb, ab + out, ba[1..])
  {
    if out == [] {
      assert ab + out == ab;
    }
    assert ba == [ba[0]] + ba[1..];
  }

  lemma AnsweringKeepsGlare(n: Net, a: UserId, b: UserId, o: Outcome)
    requires a in n.ends && b in n.ends && a != b && Glare(n, b, a)
    requires Wire(n, a, b) != [] && Answers(n.ends[b].call, a, Wire(n, a, b)[0], o)
    ensures Glare(Posted(Take(n, a, b), b, o), b, a)
  {
    AnsweringLink(n, a, b, o);
    var signal := Wire(n, a, b)[0];
    var l, l' := LinkOf(n, b, a), LinkOf(Posted(Take(n, a, b), b, o), b, a);
    if TagOf(signal) != [] {
      ConsumesKeepGlare(l.va, l.vb, l.ab, l.ba, l'.va, SentTo(o.sent, a));
      assert l.ba[1..] == l'.ba;
    } else {
      assert l' == l;
    }
  }

  lemma DeliveryKeepsGlare(n: Net, x: UserId, y: UserId, media: MediaOutcome, a: UserId, b: UserId)
    requires Sound(n) && Possible(n, Deliver(x, y, media)) && Wire(n, x, y) != []
    requires a in n.ends && b in n.ends && a != b && Glare(n, a, b)
    ensures Glare(Moved(n, Deliver(x, y, media)), a, b)
  {
    assert EndSound(n, y);
    var o := OnSignal(n.ends[y], x, Wire(n, x, y)[0], media);
    if {x, y} == {a, b} {
      SignalConsumes(n.ends[y], x, Wire(n, x, y)[0], media);
      AnsweringKeepsGlare(n, x, y, o);
    } else {
      if y == a {
        SignalLeavesOthers(n.ends[y], x, Wire(n, x, y)[0], media, b);
      } else if y == b {
        SignalLeavesOthers(n.ends[y], x, Wire(n, x, y)[0], media, a);
      }
      BystandingLink(n, x, y, o, a, b);
    }
  }

  lemma GlareSurvivesMove(n: Net, move: Move, a: UserId, b: UserId)
    requires Sound(n) && Possible(n, move) && HandsOff([move], a, b)
    requires a in n.ends && b in n.ends && a != b && Glare(n, a, b)
    ensures a in Moved(n, move).ends && b in Moved(n, move).ends && Glare(Moved(n, move), a, b)
  {
    assert move in [move];
    if move.Local? {
      var o := Step(n.ends[move.user], move.event);
      PostWires(n, move.user, o, a, b);
      PostWires(n, move.user, o, b, a);
    } else if Wire(n, move.sender, move.receiver) != [] {
      DeliveryKeepsGlare(n, move.sender, move.receiver, move.media, a, b);
    }
  }

  lemma {:induction false} HandsOffKeepsGlare(n: Net, moves: seq<Move>, a: UserId, b: UserId)
    requires Sound(n) && Legal(n, moves) && HandsOff(moves, a, b)
    requires a in n.ends && b in n.ends && a != b && Glare(n, a, b)
    ensures var n' := Replay(n, moves); a in n'.ends && b in n'.ends && Glare(n', a, b)
    decreases |moves|
  {
    if moves != [] {
      assert HandsOff([moves[0]], a, b);
      GlareSurvivesMove(n, moves[0], a, b);
      MoveKeepsSound(n, moves[0]);
      HandsOffKeepsGlare(Moved(n, moves[0]), moves[1..], a, b);
    }
  }

  // ----- Glare with timers, hang-ups and answers -----

  /** The ways a call between the two can still come about. */
  ghost predicate OnCourseThisWay(va: View, vb: View, ab: seq<Tag>, ba: seq<Tag>) {
    || (va == Away && vb == Ringing && ab == [] && ba == [Inv])
    || (va == Rung && vb == Ringing && ab == [] && ba == [])
    || (va == Talking && vb == Ringing && ab == [Acc] && ba == [])
    || (va == Talking && vb == Talking && ab == [] && ba == [])
  }

  ghost predicate Doomed(va: View, vb: View, ab: seq<Tag>, ba: seq<Tag>) {
    Linked(va, vb, ab, ba) && !OnCourseThisWay(va, vb, ab, ba) && !OnCourseThisWay(vb, va, ba, ab)
  }

  /** No call between the two can come about, and neither is dialing the other. */
  ghost predicate PairDoomed(n: Net, a: UserId, b: UserId)
    requires a in n.ends && b in n.ends
  {
    var l := LinkOf(n, a, b);
    Doomed(l.va, l.vb, l.ab, l.ba) && !Dials(n.ends[a], b) && !Dials(n.ends[b], a)
  }

  predicate Dials(e: Endpoint, peer: UserId) {
    e.dialing.Some? && e.dialing.value.peer == peer
  }

  /** Neither of the two calls the other again; their timers, hang-ups, answers and all else are free. */
  ghost predicate NoRedial(moves: seq<Move>, a: UserId, b: UserId) {
    forall move :: move in moves && move.Local? && move.event.Dialled? ==>
      !(move.user == a && move.event.peer == b) && !(move.user == b && move.event.peer == a)
  }

  lemma DoomedSymmetric(va: View, vb: View, ab: seq<Tag>, ba: seq<Tag>)
    ensures Doomed(va, vb, ab, ba) == Doomed(vb, va, ba, ab)
  {
  }

  lemma ActsKeepDoomed(va: View, vb: View, ab: seq<Tag>, ba: seq<Tag>, va': View, out: seq<Tag>)
    requires Doomed(va, vb, ab, ba) && Acts(va, ba, ab, va', out) && !(va == Away && va' == Ringing)
    ensures Doomed(va', vb, ab + out, ba)
  {
    ActsKeepLinked(va, vb, ab, ba, va', out);
    if out == [] {
      assert ab + out == ab;
    } else {
      assert |ab + out| == |ab| + 1 && (ab + out)[|ab|] == out[0];
    }
  }

  lemma ConsumesKeepDoomed(va: View, vb: View, ab: seq<Tag>, ba: seq<Tag>, va': View, out: seq<Tag>)
    requires Doomed(va, vb, ab, ba) && ba != [] && Consumes(va, ba[0], va', out)
    ensures Doomed(va', vb, ab + out, ba[1..])
  {
    ConsumesKeepLinked(va, vb, ab, ba, va', out);
    assert ba == [ba[0]] + ba[1..];
    if out == [] {
      assert ab + out == ab;
    } else {
      assert |ab + out| == |ab| + 1 && (ab + out)[|ab|] == out[0];
    }
  }

  /** Who is not dialing a peer does not start to ring it, nor to dial it but by dialing. */
  lemma StepKeepsUndialled(e: Endpoint, event: Event, w: UserId)
    requires Consistent(e) && !Dials(e, w) && !event.LoggedOut? && !event.SocketChanged?
    requires event.Dialled? ==> event.peer != w
    ensures var e' := Step(e, event).next;
            !Dials(e', w) && !(ViewOf(e.call, w) == Away && ViewOf(e'.call, w) == Ringing)
  {
  }

  lemma PostingKeepsDoomed(n: Net, u: UserId, o: Outcome, w: UserId)
    requires {u, w} <= n.ends.Keys && u != w && PairDoomed(n, u, w) && !Dials(o.next, w)
    requires var l := LinkOf(n, u, w);
             && Acts(l.va, l.ba, l.ab, ViewOf(o.next.call, w), SentTo(o.sent, w))
             && !(l.va == Away && ViewOf(o.next.call, w) == Ringing)
    ensures PairDoomed(Posted(n, u, o), u, w)
  {
    var l := LinkOf(n, u, w);
    PostedLink(n, u, o, w);
    ActsKeepDoomed(l.va, l.vb, l.ab, l.ba, ViewOf(o.next.call, w), SentTo(o.sent, w));
  }

  lemma LocalKeepsDoomed(n: Net, u: UserId, event: Event, w: UserId)
    requires Sound(n) && Possible(n, Local(u, event)) && MayInvite(n, Local(u, event))
    requires w in n.ends && w != u && PairDoomed(n, u, w) && !(event.Dialled? && event.peer == w)
    ensures PairDoomed(Moved(n, Local(u, event)), u, w)
  {
    assert EndSound(n, u);
    LocalActs(n.ends[u], event, w, LinkOf(n, u, w).ba, LinkOf(n, u, w).ab);
    StepKeepsUndialled(n.ends[u], event, w);
    PostingKeepsDoomed(n, u, Step(n.ends[u], event), w);
  }

  lemma AnsweringKeepsDoomed(n: Net, a: UserId, b: UserId, o: Outcome)
    requires a in n.ends && b in n.ends && a != b && PairDoomed(n, b, a) && !Dials(o.next, a)
    requires Wire(n, a, b) != [] && Answers(n.ends[b].call, a, Wire(n, a, b)[0], o)
    ensures PairDoomed(Posted(Take(n, a, b), b, o), b, a)
  {
    AnsweringLink(n, a, b, o);
    var signal := Wire(n, a, b)[0];
    var l, l' := LinkOf(n, b, a), LinkOf(Posted(Take(n, a, b), b, o), b, a);
    if TagOf(signal) != [] {
      ConsumesKeepDoomed(l.va, l.vb, l.ab, l.ba, l'.va, SentTo(o.sent, a));
      assert l.ba[1..] == l'.ba;
    } else {
      assert l' == l;
    }
  }

  lemma SameLinkStaysDoomed(n: Net, n': Net, a: UserId, b: UserId)
    requires {a, b} <= n.ends.Keys && {a, b} <= n'.ends.Keys && PairDoomed(n, a, b)
    requires LinkOf(n', a, b) == LinkOf(n, a, b) && !Dials(n'.ends[a], b) && !Dials(n'.ends[b], a)
    ensures PairDoomed(n', a, b)
  {
    var l, l' := LinkOf(n, a, b), LinkOf(n', a, b);
    assert Doomed(l.va, l.vb, l.ab, l.ba) == Doomed(l'.va, l'.vb, l'.ab, l'.ba);
  }

  lemma BystandingKeepsDoomed(n: Net, x: UserId, y: UserId, o: Outcome, w: UserId)
    requires {w, y} <= n.ends.Keys && w != y && w != x && PairDoomed(n, y, w) && !Dials(o.next, w)
    requires ViewOf(o.next.call, w) == ViewOf(n.ends[y].call, w) && SentTo(o.sent, w) == []
    ensures PairDoomed(Posted(Take(n, x, y), y, o), y, w)
  {
    BystandingLink(n, x, y, o, y, w);
    SameLinkStaysDoomed(n, Posted(Take(n, x, y), y, o), y, w);
  }

  lemma DeliveryKeepsDoomed(n: Net, x: UserId, y: UserId, media: MediaOutcome, w: UserId)
    requires Sound(n) && Possible(n, Deliver(x, y, media)) && Wire(n, x, y) != []
    requires w in n.ends && w != y && PairDoomed(n, y, w)
    ensures PairDoomed(Moved(n, Deliver(x, y, media)), y, w)
  {
    assert EndSound(n, y);
    var signal := Wire(n, x, y)[0];
    var o := OnSignal(n.ends[y], x, signal, media);
    assert !Dials(o.next, w) by {
      StepKeepsUndialled(n.ends[y], Received(x, signal, media), w);
    }
    if w == x {
      SignalConsumes(n.ends[y], x, signal, media);
      AnsweringKeepsDoomed(n, x, y, o);
    } else {
      SignalLeavesOthers(n.ends[y], x, signal, media, w);
      BystandingKeepsDoomed(n, x, y, o, w);
    }
  }

  lemma PairDoomedSymmetric(n: Net, a: UserId, b: UserId)
    requires a in n.ends && b in n.ends
    ensures PairDoomed(n, a, b) == PairDoomed(n, b, a)
  {
    var l := LinkOf(n, a, b);
    DoomedSymmetric(l.va, l.vb, l.ab, l.ba);
  }

  lemma ActorKeepsDoomed(n: Net, move: Move, w: UserId)
    requires Sound(n) && Possible(n, move) && MayInvite(n, move)
    requires move.Deliver? ==> Wire(n, move.sender, move.receiver) != []
    requires w in n.ends && w != ActorOf(move) && PairDoomed(n, ActorOf(move), w)
    requires !(move.Local? && move.event.Dialled? && move.event.peer == w)
    ensures w in Moved(n, move).ends && PairDoomed(Moved(n, move), ActorOf(move), w)
  {
    if move.Local? {
      LocalKeepsDoomed(n, move.user, move.event, w);
    } else {
      DeliveryKeepsDoomed(n, move.sender, move.receiver, move.media, w);
    }
  }

  lemma BystandersStayDoomed(n: Net, move: Move, a: UserId, b: UserId)
    requires Possible(n, move) && a in n.ends && b in n.ends && a != b && PairDoomed(n, a, b)
    requires a != ActorOf(move) && b != ActorOf(move)
    ensures a in Moved(n, move).ends && b in Moved(n, move).ends && PairDoomed(Moved(n, move), a, b)
  {
    assert LinkOf(Moved(n, move), a, b) == LinkOf(n, a, b);
    SameLinkStaysDoomed(n, Moved(n, move), a, b);
  }

  lemma DoomedSurvivesMove(n: Net, move: Move, a: UserId, b: UserId)
    requires Sound(n) && Possible(n, move) && MayInvite(n, move) && NoRedial([move], a, b)
    requires a in n.ends && b in n.ends && a != b && PairDoomed(n, a, b)
    ensures a in Moved(n, move).ends && b in Moved(n, move).ends && PairDoomed(Moved(n, move), a, b)
  {
    assert move in [move];
    if move.Deliver? && Wire(n, move.sender, move.receiver) == [] {
    } else if ActorOf(move) == a {
      ActorKeepsDoomed(n, move, b);
    } else if ActorOf(move) == b {
      PairDoomedSymmetric(n, a, b);
      ActorKeepsDoomed(n, move, a);
      PairDoomedSymmetric(Moved(n, move), a, b);
    } else {
      BystandersStayDoomed(n, move, a, b);
    }
  }

  lemma {:induction false} DoomedStays(n: Net, moves: seq<Move>, a: UserId, b: UserId)
    requires Sound(n) && Legal(n, moves) && NoRedial(moves, a, b)
    requires a in n.ends && b in n.ends && a != b && PairDoomed(n, a, b)
    ensures var n' := Replay(n, moves); a in n'.ends && b in n'.ends && PairDoomed(n', a, b)
    decreases |moves|
  {
    if moves != [] {
      assert NoRedial([moves[0]], a, b);
      DoomedSurvivesMove(n, moves[0], a, b);
      MoveKeepsSound(n, moves[0]);
      DoomedStays(Moved(n, moves[0]), moves[1..], a, b);
    }
  }

  lemma GlareIsDoomed(n: Net, a: UserId, b: UserId)
    requires Sound(n) && a in n.ends && b in n.ends && a != b && Glare(n, a, b)
    requires !Dials(n.ends[a], b) && !Dials(n.ends[b], a)
    ensures PairDoomed(n, a, b)
  {
    assert PairSound(n, a, b);
  }

  /** Two users who ring each other never end up connected: whatever they and everyone else do, timers,
      hang-ups and answers included, unless one of them calls the other again, once the signals between them
      have arrived neither is engaged with the other. If the two do nothing at all, neither is even rung or
      talking in between. */
  lemma GlareEndsApart(n: Net, moves: seq<Move>, a: UserId, b: UserId)
    requires Sound(n) && Legal(n, moves) && NoRedial(moves, a, b)
    requires a in n.ends && b in n.ends && a != b && Glare(n, a, b)
    requires !Dials(n.ends[a], b) && !Dials(n.ends[b], a)
    ensures var n' := Replay(n, moves);
      && a in n'.ends && b in n'.ends
      && (Wire(n', a, b) == [] && Wire(n', b, a) == [] ==>
            ViewOf(n'.ends[a].call, b) == Away && ViewOf(n'.ends[b].call, a) == Away)
      && (HandsOff(moves, a, b) ==>
            ViewOf(n'.ends[a].call, b) !in {Talking, Rung} && ViewOf(n'.ends[b].call, a) !in {Talking, Rung})
  {
    GlareIsDoomed(n, a, b);
    DoomedStays(n, moves, a, b);
    if HandsOff(moves, a, b) {
      HandsOffKeepsGlare(n, moves, a, b);
    }
  }

  /** In a sound network, two users ringing each other is always that situation. */
  lemma RingingEachOtherIsGlare(n: Net, a: UserId, b: UserId)
    requires Sound(n) && a in n.ends && b in n.ends && a != b
    requires n.ends[a].call.Outgoing? && n.ends[a].call.peer == b && n.ends[b].call.Outgoing? && n.ends[b].call.peer == a
    ensures Glare(n, a, b) && !Dials(n.ends[a], b) && !Dials(n.ends[b], a)
  {
    assert PairSound(n, a, b);
    assert EndSound(n, a) && EndSound(n, b);
  }

  // ----- Why an invite must wait for the old reject -----

  /** User 1 rejects user 0's ring; */
  const REJECTED_RING := [Local(0, Dialled(1, Audio)), Local(0, Answered(true)), Deliver(0, 1, Ready), Local(1, Rejected)]
  /** before that arrives, user 0 cancels and rings again; */
  const HASTY_REDIAL := [Local(0, Ended), Local(0, Dialled(1, Audio)), Local(0, Answered(true))]
  /** then everything arrives. */
  const ARRIVALS := [Deliver(0, 1, Ready), Deliver(0, 1, Ready), Deliver(1, 0, Ready)]

  /** Users 0 and 1: their call states, whether 0 waits on a prompt to ring 1, and the signals in flight. */
  ghost predicate Scene(n: Net, call0: CallState, prompt0: bool, call1: CallState, to1: seq<Signal>, to0: seq<Signal>) {
    && n.ends.Keys == {0, 1}
    && n.ends[0].socketOpen && n.ends[0].call == call0
    && n.ends[0].dialing == (if prompt0 then Some(Dial(1, Audio, n.ends[0].gen)) else None)
    && n.ends[1].socketOpen && n.ends[1].call == call1 && n.ends[1].dialing == None
    && Wire(n, 0, 1) == to1 && Wire(n, 1, 0) == to0
  }

  lemma {:induction false} ReplayAppend(n: Net, first: seq<Move>, second: seq<Move>)
    ensures Replay(n, first + second) == Replay(Replay(n, first), second)
    decreases |first|
  {
    if first == [] {
      assert first + second == second;
    } else {
      assert (first + second)[1..] == first[1..] + second;
      ReplayAppend(Moved(n, first[0]), first[1..], second);
    }
  }

  lemma RingRejected()
    ensures Scene(Replay(Start({0, 1}), REJECTED_RING), Outgoing(1, Audio), false, Idle, [], [RejectCall])
  {
    var n := Start({0, 1});
    assert Scene(n, Idle, false, Idle, [], []);
    var n1 := Moved(n, REJECTED_RING[0]);
    assert Scene(n1, Idle, true, Idle, [], []);
    var n2 := Moved(n1, REJECTED_RING[1]);
    assert Scene(n2, Outgoing(1, Audio), false, Idle, [Invite(Audio)], []);
    var n3 := Moved(n2, REJECTED_RING[2]);
    assert Scene(n3, Outgoing(1, Audio), false, Incoming(0, Audio), [], []);
  }

  lemma RedialledHastily(n: Net)
    requires Scene(n, Outgoing(1, Audio), false, Idle, [], [RejectCall])
    ensures Scene(Replay(n, HASTY_REDIAL), Outgoing(1, Audio), false, Idle, [CancelCall, Invite(Audio)], [RejectCall])
  {
    var n1 := Moved(n, HASTY_REDIAL[0]);
    assert Scene(n1, Idle, false, Idle, [CancelCall], [RejectCall]);
    var n2 := Moved(n1, HASTY_REDIAL[1]);
    assert Scene(n2, Idle, true, Idle, [CancelCall], [RejectCall]);
  }

  lemma ArrivalsStrand(n: Net)
    requires Scene(n, Outgoing(1, Audio), false, Idle, [CancelCall, Invite(Audio)], [RejectCall])
    ensures Scene(Replay(n, ARRIVALS), Idle, false, Incoming(0, Audio), [], [])
  {
    var n1 := Moved(n, ARRIVALS[0]);
    assert Scene(n1, Outgoing(1, Audio), false, Idle, [Invite(Audio)], [RejectCall]);
    var n2 := Moved(n1, ARRIVALS[1]);
    assert Scene(n2, Outgoing(1, Audio), false, Incoming(0, Audio), [], [RejectCall]);
  }

  /** User 1 is left ringing for a caller who is idle, with nothing in flight. */
  lemma HastyRedialStrands()
    ensures var n := Replay(Start({0, 1}), REJECTED_RING + HASTY_REDIAL + ARRIVALS);
      && n.ends.Keys == {0, 1} && Wire(n, 0, 1) == [] && Wire(n, 1, 0) == []
      && n.ends[0].call == Idle && n.ends[1].call == Incoming(0, Audio) && !CallsMatch(n)
    ensures !Legal(Start({0, 1}), REJECTED_RING + HASTY_REDIAL + ARRIVALS)
  {
    var start := Start({0, 1});
    ReplayAppend(start, REJECTED_RING + HASTY_REDIAL, ARRIVALS);
    ReplayAppend(start, REJECTED_RING, HASTY_REDIAL);
    RingRejected();
    RedialledHastily(Replay(start, REJECTED_RING));
    ArrivalsStrand(Replay(start, REJECTED_RING + HASTY_REDIAL));
    var run := REJECTED_RING + HASTY_REDIAL + ARRIVALS;
    assert Replay(start, run).ends[1].call != Idle;
    if Legal(start, run) {
      QuietCallsMatch({0, 1}, run);
    }
  }
}
