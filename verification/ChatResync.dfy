/** Reconnect resync of the open conversation (Chat.tsx): the refetch of what is newer than the highest id
    held, racing live frames. The server's log, its capped answers (channel_messages.rs, direct_messages.rs)
    and the frames, requests and responses in flight are explicit. */
module ChatResync {
  import opened Prelude
  import opened ChatFeed

  // ----- The refetch -----

  /** The highest message id held, 0 if none. */
  function LastId(ms: seq<Message>): nat {
    if ms == [] then 0
    else
      var rest := LastId(ms[..|ms| - 1]);
      var m := ms[|ms| - 1];
      if m.id.Some? && m.id.value > rest then m.id.value else rest
  }

  /** The since_id sent, absent if no id is held. */
  datatype Request = Latest | Since(id: MsgId)

  function RequestFor(ms: seq<Message>): Request {
    if LastId(ms) > 0 then Since(LastId(ms)) else Latest
  }

  const PAGE_SIZE := 50
  const CATCH_UP_LIMIT := 500

  function NewerThan(log: seq<Message>, since: nat): seq<Message> {
    if log == [] then []
    else if log[0].id.Some? && log[0].id.value > since then [log[0]] + NewerThan(log[1..], since)
    else NewerThan(log[1..], since)
  }

  /** What the server returns: the oldest messages newer than a since_id, or else the latest page. */
  function Response(log: seq<Message>, request: Request): seq<Message> {
    match request
    case Latest => if |log| <= PAGE_SIZE then log else log[|log| - PAGE_SIZE..]
    case Since(id) =>
      var newer := NewerThan(log, id);
      if |newer| <= CATCH_UP_LIMIT then newer else newer[..CATCH_UP_LIMIT]
  }

  /** The merge of a response into the list as it is by then. */
  function Additions(held: seq<Message>, missed: seq<Message>): seq<Message> {
    if missed == [] then []
    else if missed[0].id.None? || !HasId(held, missed[0].id) then [missed[0]] + Additions(held, missed[1..])
    else Additions(held, missed[1..])
  }

  function Merge(held: seq<Message>, missed: seq<Message>): seq<Message> {
    held + Additions(held, missed)
  }

  class ResyncView {
    var messages: seq<Message>

    constructor (loaded: seq<Message>)
      ensures messages == loaded
    {
      messages := loaded;
    }

    /** The request half: a reduce over the list. */
    method Ask() returns (request: Request)
      ensures request == RequestFor(messages)
    {
      var lastId := 0;
      for i := 0 to |messages|
        invariant lastId == LastId(messages[..i])
      {
        assert messages[..i + 1][..i] == messages[..i];
        if messages[i].id.Some? && messages[i].id.value > lastId {
          lastId := messages[i].id.value;
        }
      }
      assert messages[..|messages|] == messages;
      request := if lastId > 0 then Since(lastId) else Latest;
    }

    /** The response half: the list as it is by then is compared once, before anything is added. */
    method Absorb(missed: seq<Message>)
      modifies this
      ensures messages == Merge(old(messages), missed)
    {
      var additions: seq<Message>, rest := [], missed;
      while rest != []
        invariant additions + Additions(messages, rest) == Additions(messages, missed)
      {
        if rest[0].id.None? || !HasId(messages, rest[0].id) {
          additions := additions + [rest[0]];
        }
        rest := rest[1..];
      }
      messages := messages + additions;
    }
  }

  // ----- The race -----

  /** `frames` are live frames in flight, `asked` requests on their way to the server, `answers` responses on
      their way back. */
  datatype World = World(
    log: seq<Message>,
    list: seq<Message>,
    online: bool,
    frames: seq<Message>,
    asked: seq<Request>,
    answers: seq<seq<Message>>)

  datatype Event =
    | Posted(message: Message)           // someone else's top-level message reaches the server
    | Arrived(frame: nat, again: bool)   // any frame in flight; `again` leaves a duplicate behind
    | Answered(request: nat) | Absorbed(answer: nat)
    | Dropped | Reopened
    | RequestLost(request: nat) | AnswerLost(answer: nat)

  function LessAt<T>(s: seq<T>, k: nat): seq<T>
    requires k < |s|
  {
    s[..k] + s[k + 1..]
  }

  function Step(w: World, event: Event): World {
    match event
    case Posted(m) => w.(log := w.log + [m], frames := if w.online then w.frames + [m] else w.frames)
    case Arrived(k, again) =>
      if k >= |w.frames| then w
      else
        var m := w.frames[k];
        w.(list := if HasId(w.list, m.id) then w.list else w.list + [m],
           frames := if again then w.frames else LessAt(w.frames, k))
    case Answered(k) =>
      if k >= |w.asked| then w
      else w.(asked := LessAt(w.asked, k), answers := w.answers + [Response(w.log, w.asked[k])])
    case Absorbed(k) =>
      if k >= |w.answers| then w
      else w.(list := Merge(w.list, w.answers[k]), answers := LessAt(w.answers, k))
    case Dropped => w.(online := false, frames := [])
    case Reopened => w.(online := true, asked := w.asked + [RequestFor(w.list)])
    case RequestLost(k) => if k >= |w.asked| then w else w.(asked := LessAt(w.asked, k))
    case AnswerLost(k) => if k >= |w.answers| then w else w.(answers := LessAt(w.answers, k))
  }

  function Run(w: World, events: seq<Event>): World
    decreases |events|
  {
    if events == [] then w else Run(Step(w, events[0]), events[1..])
  }

  /** A live frame is handled as `ChatFeed.Receive` handles any frame that is not this tab's own echo. */
  lemma ArrivalIsReceive(f: Feed, w: World, k: nat, again: bool)
    requires k < |w.frames| && f.messages == w.list
    requires !IsOwnEcho(f, w.frames[k]) && w.frames[k].parent.None?
    ensures Receive(f, w.frames[k]).messages == Step(w, Arrived(k, again)).list
  {
  }

  /** The server numbers the top-level messages of a conversation upwards, from 1. */
  ghost predicate Numbered(log: seq<Message>) {
    && (forall i :: 0 <= i < |log| ==> log[i].id.Some? && log[i].id.value > 0 && log[i].parent.None?)
    && (forall i, j :: 0 <= i < j < |log| ==> log[i].id.value < log[j].id.value)
  }

  /** No entry without an id (no unconfirmed send), and no id twice. */
  ghost predicate Distinct(ms: seq<Message>) {
    && (forall i :: 0 <= i < |ms| ==> ms[i].id.Some?)
    && (forall i, j :: 0 <= i < j < |ms| ==> ms[i].id != ms[j].id)
  }

  ghost predicate Within(ms: seq<Message>, log: seq<Message>) {
    forall m :: m in ms ==> HasId(log, m.id)
  }

  lemma {:induction false} LastIdIsHighest(ms: seq<Message>)
    ensures forall m :: m in ms && m.id.Some? ==> m.id.value <= LastId(ms)
    ensures LastId(ms) > 0 ==> HasId(ms, Some(LastId(ms)))
    decreases |ms|
  {
    if ms != [] {
      var front, m := ms[..|ms| - 1], ms[|ms| - 1];
      LastIdIsHighest(front);
      assert ms == front + [m];
      if LastId(ms) == LastId(front) && LastId(front) > 0 {
        var x :| x in front && x.id == Some(LastId(front));
        assert x in ms;
      } else {
        assert m in ms;
      }
    }
  }

  lemma {:induction false} NewerThanIs(log: seq<Message>, since: nat)
    ensures forall m :: m in NewerThan(log, since) <==> m in log && m.id.Some? && m.id.value > since
    decreases |log|
  {
    if log != [] {
      NewerThanIs(log[1..], since);
      assert log == [log[0]] + log[1..];
    }
  }

  lemma {:induction false} NewerThanNumbered(log: seq<Message>, since: nat)
    requires Numbered(log)
    ensures Numbered(NewerThan(log, since))
    decreases |log|
  {
    if log != [] {
      var rest := NewerThan(log[1..], since);
      NewerThanNumbered(log[1..], since);
      NewerThanIs(log[1..], since);
      HeadBelowRest(log, rest);
    }
  }

  /** Anything drawn from the rest of a numbered log comes after its head. */
  lemma HeadBelowRest(log: seq<Message>, rest: seq<Message>)
    requires log != [] && Numbered(log) && Numbered(rest) && forall m :: m in rest ==> m in log[1..]
    ensures Numbered([log[0]] + rest)
  {
    forall i | 0 <= i < |rest|
      ensures log[0].id.value < rest[i].id.value
    {
      assert rest[i] in log[1..];
    }
  }

  lemma {:induction false} AdditionsAre(held: seq<Message>, missed: seq<Message>)
    ensures forall m :: m in Additions(held, missed) <==> m in missed && (m.id.None? || !HasId(held, m.id))
    decreases |missed|
  {
    if missed != [] {
      AdditionsAre(held, missed[1..]);
      assert missed == [missed[0]] + missed[1..];
    }
  }

  lemma {:induction false} AdditionsNumbered(held: seq<Message>, missed: seq<Message>)
    requires Numbered(missed)
    ensures Numbered(Additions(held, missed))
    decreases |missed|
  {
    if missed != [] {
      AdditionsNumbered(held, missed[1..]);
      AdditionsAre(held, missed[1..]);
      HeadBelowRest(missed, Additions(held, missed[1..]));
    }
  }

  lemma HasIdAppend(a: seq<Message>, b: seq<Message>, id: Option<MsgId>)
    ensures HasId(a + b, id) <==> HasId(a, id) || HasId(b, id)
  {
    if HasId(a, id) {
      var m :| m in a && m.id == id;
      assert m in a + b;
    }
    if HasId(b, id) {
      var m :| m in b && m.id == id;
      assert m in a + b;
    }
  }

  lemma MergeHolds(held: seq<Message>, missed: seq<Message>)
    requires Distinct(held) && Numbered(missed)
    ensures Distinct(Merge(held, missed))
    ensures forall m :: m in Merge(held, missed) ==> m in held || m in missed
    ensures forall m :: m in missed ==> HasId(Merge(held, missed), m.id)
    ensures forall m :: m in held ==> m in Merge(held, missed)
  {
    var extra := Additions(held, missed);
    AdditionsAre(held, missed);
    AdditionsNumbered(held, missed);
    forall i, j | 0 <= i < |held| && 0 <= j < |extra|
      ensures held[i].id != extra[j].id
    {
      assert extra[j] in extra && held[i] in held;
    }
    forall m | m in missed
      ensures HasId(Merge(held, missed), m.id)
    {
      HasIdAppend(held, extra, m.id);
      assert m in extra || HasId(held, m.id);
    }
  }

  // ----- What the server answers -----

  lemma ResponseIs(log: seq<Message>, request: Request)
    requires Numbered(log)
    ensures Numbered(Response(log, request))
    ensures forall m :: m in Response(log, request) ==> m in log
    ensures request.Since? ==> forall m :: m in Response(log, request) ==> m.id.value > request.id
  {
    if request.Since? {
      NewerThanIs(log, request.id);
      NewerThanNumbered(log, request.id);
    }
  }

  lemma {:induction false} NewerThanAppend(log: seq<Message>, m: Message, since: nat)
    requires m.id.Some?
    ensures NewerThan(log + [m], since) == NewerThan(log, since) + if m.id.value > since then [m] else []
    decreases |log|
  {
    if log == [] {
      assert (log + [m])[1..] == [];
    } else {
      assert (log + [m])[1..] == log[1..] + [m];
      NewerThanAppend(log[1..], m, since);
    }
  }

  lemma NotInOwnLog(log: seq<Message>, m: Message)
    requires Numbered(log + [m])
    ensures Numbered(log) && m.id.Some? && m !in log && !HasId(log, m.id)
  {
    var all := log + [m];
    assert all[|log|] == m;
    assert forall i :: 0 <= i < |log| ==> all[i] == log[i];
  }

  /** The first message of a full page, which the next one pushes out. */
  predicate AtPageEnd(log: seq<Message>, x: Message) {
    |log| >= PAGE_SIZE && x == log[|log| - PAGE_SIZE]
  }

  /** How a further message changes the answer to a request still on its way: a catch-up is not affected, the
      latest page loses its first message when it is full. */
  lemma ResponseGrows(log: seq<Message>, m: Message, request: Request, x: Message)
    requires Numbered(log + [m]) && x in log
    ensures x in Response(log + [m], request) <==>
            x in Response(log, request) && !(request.Latest? && AtPageEnd(log, x))
  {
    NotInOwnLog(log, m);
    if request.Since? {
      NewerThanAppend(log, m, request.id);
    } else {
      PageGrows(log, m, x);
    }
  }

  lemma PageGrows(log: seq<Message>, m: Message, x: Message)
    requires Numbered(log + [m]) && x in log
    ensures x in Response(log + [m], Latest) <==> x in Response(log, Latest) && !AtPageEnd(log, x)
  {
    NotInOwnLog(log, m);
    if |log| >= PAGE_SIZE {
      var at := |log| - PAGE_SIZE;
      assert (log + [m])[at + 1..] == log[at + 1..] + [m];
      assert log[at..] == [log[at]] + log[at + 1..];
      assert forall k :: at < k < |log| ==> log[k] != log[at];
    }
  }

  // ----- Where a message is -----

  /** Held, or on its way live, or covered by a request or a response under way. */
  ghost predicate OnTheWay(w: World, x: Message) {
    || HasId(w.list, x.id)
    || x in w.frames
    || (exists r :: r in w.asked && x in Response(w.log, r))
    || (exists a :: a in w.answers && x in a)
  }

  /** Only the latest page, still being asked for, covers `x`, and the event pushes it off that page. */
  ghost predicate PushesOut(w: World, event: Event, x: Message) {
    && event.Posted? && Latest in w.asked && AtPageEnd(w.log, x)
    && !HasId(w.list, x.id) && x !in w.frames
    && (forall r :: r in w.asked && r != Latest ==> x !in Response(w.log, r))
    && (forall a :: a in w.answers ==> x !in a)
  }

  /** Nothing but server messages is in the list or in flight, and the list has no duplicates. */
  ghost predicate Proper(w: World) {
    && Numbered(w.log)
    && Distinct(w.list) && Within(w.list, w.log)
    && (forall m :: m in w.frames ==> m in w.log)
    && (forall a :: a in w.answers ==> Numbered(a) && forall m :: m in a ==> m in w.log)
  }

  /** A new message gets the next id. */
  ghost predicate Orderly(w: World, event: Event) {
    event.Posted? ==> Numbered(w.log + [event.message])
  }

  ghost predicate AllOrderly(w: World, events: seq<Event>)
    decreases |events|
  {
    events != [] ==> Orderly(w, events[0]) && AllOrderly(Step(w, events[0]), events[1..])
  }

  /** The connection holds and no request fails. */
  predicate Smooth(event: Event) {
    !event.Dropped? && !event.Reopened? && !event.RequestLost? && !event.AnswerLost?
  }

  ghost predicate AllSmooth(events: seq<Event>) {
    forall e :: e in events ==> Smooth(e)
  }

  lemma LessAtHolds<T>(s: seq<T>, k: nat, x: T)
    requires k < |s|
    ensures x in s <==> x in LessAt(s, k) || x == s[k]
  {
    assert s == s[..k] + [s[k]] + s[k + 1..];
  }

  lemma PostedIsProper(w: World, m: Message)
    requires Proper(w) && Numbered(w.log + [m])
    ensures Proper(Step(w, Posted(m)))
  {
    forall x | x in w.list
      ensures HasId(w.log + [m], x.id)
    {
      HasIdAppend(w.log, [m], x.id);
    }
  }

  lemma ArrivedIsProper(w: World, k: nat, again: bool)
    requires Proper(w) && k < |w.frames|
    ensures Proper(Step(w, Arrived(k, again)))
  {
    var w', m := Step(w, Arrived(k, again)), w.frames[k];
    assert m in w.frames && m in w.log;
    forall x | x in w'.frames
      ensures x in w.frames
    {
      LessAtHolds(w.frames, k, x);
    }
    if !HasId(w.list, m.id) {
      assert forall i :: 0 <= i < |w.list| ==> w.list[i] in w.list;
      var i :| 0 <= i < |w.log| && w.log[i] == m;
      assert m.id.Some?;
    }
  }

  lemma AnsweredIsProper(w: World, k: nat)
    requires Proper(w) && k < |w.asked|
    ensures Proper(Step(w, Answered(k)))
  {
    ResponseIs(w.log, w.asked[k]);
  }

  lemma AbsorbedIsProper(w: World, k: nat)
    requires Proper(w) && k < |w.answers|
    ensures Proper(Step(w, Absorbed(k)))
  {
    var w' := Step(w, Absorbed(k));
    assert w.answers[k] in w.answers;
    MergeHolds(w.list, w.answers[k]);
    forall a | a in w'.answers
      ensures a in w.answers
    {
      LessAtHolds(w.answers, k, a);
    }
    forall x | x in w'.list
      ensures HasId(w.log, x.id)
    {
    }
  }

  lemma StepIsProper(w: World, event: Event)
    requires Proper(w) && Orderly(w, event)
    ensures Proper(Step(w, event))
  {
    match event
    case Posted(m) => PostedIsProper(w, m);
    case Arrived(k, again) =>
      if k < |w.frames| {
        ArrivedIsProper(w, k, again);
      }
    case Answered(k) =>
      if k < |w.asked| {
        AnsweredIsProper(w, k);
      }
    case Absorbed(k) =>
      if k < |w.answers| {
        AbsorbedIsProper(w, k);
      }
    case _ =>
  }

  lemma PostedWay(w: World, m: Message, x: Message)
    requires Proper(w) && Numbered(w.log + [m]) && x in w.log
    ensures OnTheWay(Step(w, Posted(m)), x) <==> OnTheWay(w, x) && !PushesOut(w, Posted(m), x)
  {
    var w' := Step(w, Posted(m));
    NotInOwnLog(w.log, m);
    forall r | r in w.asked
      ensures x in Response(w'.log, r) <==> x in Response(w.log, r) && !(r.Latest? && AtPageEnd(w.log, x))
    {
      ResponseGrows(w.log, m, r, x);
    }
    assert x in w'.frames <==> x in w.frames;
  }

  lemma ArrivedWay(w: World, k: nat, again: bool, x: Message)
    requires Proper(w) && k < |w.frames| && x in w.log
    ensures OnTheWay(Step(w, Arrived(k, again)), x) <==> OnTheWay(w, x)
  {
    var w', m := Step(w, Arrived(k, again)), w.frames[k];
    HasIdAppend(w.list, [m], x.id);
    LessAtHolds(w.frames, k, x);
    assert m in [m] && m in w.log;
    if HasId([m], x.id) {
      SameIdIsSame(w.log, m, x);
    }
  }

  lemma SameIdIsSame(log: seq<Message>, a: Message, b: Message)
    requires Numbered(log) && a in log && b in log && a.id == b.id
    ensures a == b
  {
    var i :| 0 <= i < |log| && log[i] == a;
    var j :| 0 <= j < |log| && log[j] == b;
    assert !(i < j) && !(j < i);
  }

  lemma AnsweredWay(w: World, k: nat, x: Message)
    requires Proper(w) && k < |w.asked| && x in w.log
    ensures OnTheWay(Step(w, Answered(k)), x) <==> OnTheWay(w, x)
  {
    var w', r, a := Step(w, Answered(k)), w.asked[k], Response(w.log, w.asked[k]);
    assert a in w'.answers && r in w.asked;
    assert forall b :: b in w'.answers <==> b in w.answers || b == a;
    forall q: Request
      ensures q in w.asked <==> q in w'.asked || q == r
    {
      LessAtHolds(w.asked, k, q);
    }
  }

  lemma AbsorbedWay(w: World, k: nat, x: Message)
    requires Proper(w) && k < |w.answers| && x in w.log
    ensures OnTheWay(Step(w, Absorbed(k)), x) <==> OnTheWay(w, x)
  {
    var w', a := Step(w, Absorbed(k)), w.answers[k];
    assert a in w.answers;
    MergeHolds(w.list, a);
    AdditionsAre(w.list, a);
    HasIdAppend(w.list, Additions(w.list, a), x.id);
    if HasId(Additions(w.list, a), x.id) {
      var m :| m in Additions(w.list, a) && m.id == x.id;
      SameIdIsSame(w.log, m, x);
    }
    forall b: seq<Message>
      ensures b in w.answers <==> b in w'.answers || b == a
    {
      LessAtHolds(w.answers, k, b);
    }
  }

  /** Exactly which step of a smooth run loses a message: one that pushes it off the page being asked for. And
      none brings back what is not on its way. */
  lemma StepLosesIff(w: World, event: Event, x: Message)
    requires Proper(w) && Orderly(w, event) && Smooth(event) && x in w.log
    ensures OnTheWay(Step(w, event), x) <==> OnTheWay(w, x) && !PushesOut(w, event, x)
  {
    match event
    case Posted(m) => PostedWay(w, m, x);
    case Arrived(k, again) =>
      if k < |w.frames| {
        ArrivedWay(w, k, again, x);
      }
    case Answered(k) =>
      if k < |w.asked| {
        AnsweredWay(w, k, x);
      }
    case Absorbed(k) =>
      if k < |w.answers| {
        AbsorbedWay(w, k, x);
      }
  }

  ghost predicate NeverPushedOut(w: World, events: seq<Event>, x: Message)
    decreases |events|
  {
    events != [] ==> !PushesOut(w, events[0], x) && NeverPushedOut(Step(w, events[0]), events[1..], x)
  }

  lemma {:induction false} RunLosesIff(w: World, events: seq<Event>, x: Message)
    requires Proper(w) && AllOrderly(w, events) && AllSmooth(events) && x in w.log
    ensures var w' := Run(w, events);
            Proper(w') && x in w'.log && (OnTheWay(w', x) <==> OnTheWay(w, x) && NeverPushedOut(w, events, x))
    decreases |events|
  {
    if events != [] {
      assert events[0] in events && forall e :: e in events[1..] ==> e in events;
      StepIsProper(w, events[0]);
      StepLosesIff(w, events[0], x);
      RunLosesIff(Step(w, events[0]), events[1..], x);
    }
  }

  /** What is held or arriving live in a smooth run gets there. */
  ghost predicate Live(w: World, x: Message) {
    HasId(w.list, x.id) || x in w.frames
  }

  lemma StepStaysLive(w: World, event: Event, x: Message)
    requires Smooth(event) && Live(w, x)
    ensures Live(Step(w, event), x)
  {
    match event
    case Arrived(k, again) =>
      if k < |w.frames| {
        HasIdAppend(w.list, [w.frames[k]], x.id);
        LessAtHolds(w.frames, k, x);
        assert w.frames[k] in [w.frames[k]];
      }
    case Absorbed(k) =>
      if k < |w.answers| {
        HasIdAppend(w.list, Additions(w.list, w.answers[k]), x.id);
      }
    case _ =>
  }

  lemma {:induction false} NewStayLive(w: World, events: seq<Event>)
    requires w.online && AllSmooth(events)
    ensures forall x :: Live(w, x) ==> Live(Run(w, events), x)
    ensures forall x :: x in Run(w, events).log ==> x in w.log || Live(Run(w, events), x)
    decreases |events|
  {
    if events != [] {
      assert events[0] in events && forall e :: e in events[1..] ==> e in events;
      var w' := Step(w, events[0]);
      forall x | Live(w, x)
        ensures Live(w', x)
      {
        StepStaysLive(w, events[0], x);
      }
      NewStayLive(w', events[1..]);
    }
  }

  predicate Settled(w: World) {
    w.frames == [] && w.asked == [] && w.answers == []
  }

  // ----- Resync after a reconnect -----

  function Reconnected(log: seq<Message>, list: seq<Message>): World {
    Step(World(log, list, false, [], [], []), Reopened)
  }

  lemma ReconnectedIs(log: seq<Message>, list: seq<Message>, x: Message)
    requires Numbered(log) && Distinct(list) && Within(list, log)
    ensures var w := Reconnected(log, list);
            Proper(w) && (OnTheWay(w, x) <==> HasId(list, x.id) || x in Response(log, RequestFor(list)))
  {
    var w := Reconnected(log, list);
    assert w.asked == [RequestFor(list)] && RequestFor(list) in w.asked;
  }

  /** For every interleaving of new messages, live frames (in any order, also duplicated) and the refetch
      after a reconnect: once nothing is in flight, the list holds server messages only, none twice, and all
      that are newer than the reconnect. An older one is held exactly if it was held before, or the server's
      capped answer covered it and no new message pushed it off that answer meanwhile. */
  lemma ResyncHoldsIff(log: seq<Message>, list: seq<Message>, events: seq<Event>, x: Message)
    requires Numbered(log) && Distinct(list) && Within(list, log)
    requires AllOrderly(Reconnected(log, list), events) && AllSmooth(events)
    ensures var w := Run(Reconnected(log, list), events);
      Settled(w) ==>
        && Distinct(w.list) && Within(w.list, w.log)
        && (x in w.log && x !in log ==> HasId(w.list, x.id))
        && (x in log ==>
              (HasId(w.list, x.id) <==>
                 HasId(list, x.id)
                 || (x in Response(log, RequestFor(list)) && NeverPushedOut(Reconnected(log, list), events, x))))
  {
    var w0 := Reconnected(log, list);
    ReconnectedIs(log, list, x);
    NewStayLive(w0, events);
    if x in log {
      RunLosesIff(w0, events, x);
      if HasId(list, x.id) {
        assert Live(w0, x);
      }
    }
    RunIsProper(w0, events);
  }

  lemma {:induction false} RunIsProper(w: World, events: seq<Event>)
    requires Proper(w) && AllOrderly(w, events)
    ensures Proper(Run(w, events))
    decreases |events|
  {
    if events != [] {
      StepIsProper(w, events[0]);
      RunIsProper(Step(w, events[0]), events[1..]);
    }
  }

  /** The list has every logged message from id `from` up to the highest id it has. */
  ghost predicate GapFree(list: seq<Message>, log: seq<Message>, from: nat) {
    forall m :: m in log && m.id.Some? && from <= m.id.value <= LastId(list) ==> HasId(list, m.id)
  }

  ghost predicate Covers(ms: seq<Message>, log: seq<Message>, from: nat) {
    forall m :: m in log && m.id.Some? && from <= m.id.value ==> HasId(ms, m.id)
  }

  /** The server's caps suffice for what is missing. */
  predicate Fits(list: seq<Message>, log: seq<Message>) {
    match RequestFor(list)
    case Latest => |log| <= PAGE_SIZE
    case Since(id) => |NewerThan(log, id)| <= CATCH_UP_LIMIT
  }

  lemma FittingIsAnswered(log: seq<Message>, list: seq<Message>, x: Message)
    requires Numbered(log) && Fits(list, log) && x in log
    ensures x in Response(log, RequestFor(list)) <==> x.id.value > LastId(list)
  {
    NewerThanIs(log, LastId(list));
    var i :| 0 <= i < |log| && log[i] == x;
    assert log[i].id.value > 0;
  }

  lemma UnfittingIsCut(log: seq<Message>, list: seq<Message>) returns (x: Message)
    requires Numbered(log) && !Fits(list, log)
    ensures x in log && x.id.Some? && x.id.value > LastId(list) && !HasId(Response(log, RequestFor(list)), x.id)
  {
    NewerThanIs(log, LastId(list));
    NewerThanNumbered(log, LastId(list));
    if LastId(list) > 0 {
      x := NewerThan(log, LastId(list))[CATCH_UP_LIMIT];
      assert x in NewerThan(log, LastId(list));
    } else {
      x := log[0];
    }
  }

  /** Exactly when an undisturbed resync recovers everything from `from` on: iff the list had no gap below its
      highest id, and at most 500 newer messages are stored, or at most 50 in all if no id is held. */
  lemma ResyncRecoversIff(log: seq<Message>, list: seq<Message>, from: nat)
    requires Numbered(log) && Distinct(list) && Within(list, log) && from <= LastId(list) + 1
    ensures Covers(Merge(list, Response(log, RequestFor(list))), log, from) <==> GapFree(list, log, from) && Fits(list, log)
  {
    var missed := Response(log, RequestFor(list));
    ResponseIs(log, RequestFor(list));
    forall m | m in log
      ensures HasId(Merge(list, missed), m.id) <==> HasId(list, m.id) || m in missed
    {
      MergeHasIff(log, list, missed, m);
    }
    forall m | m in log && m.id.value <= LastId(list)
      ensures m !in missed
    {
    }
    if Fits(list, log) {
      forall m | m in log
        ensures m in missed <==> m.id.value > LastId(list)
      {
        FittingIsAnswered(log, list, m);
      }
    } else {
      var x := UnfittingIsCut(log, list);
      LastIdIsHighest(list);
      assert !HasId(list, x.id) && x !in missed;
    }
  }

  lemma MergeHasIff(log: seq<Message>, list: seq<Message>, missed: seq<Message>, m: Message)
    requires Numbered(log) && m in log && forall x :: x in missed ==> x in log
    ensures HasId(Merge(list, missed), m.id) <==> HasId(list, m.id) || m in missed
  {
    HasIdAppend(list, Additions(list, missed), m.id);
    AdditionsAre(list, missed);
    if HasId(Additions(list, missed), m.id) {
      var x :| x in Additions(list, missed) && x.id == m.id;
      SameIdIsSame(log, x, m);
    }
  }

  /** No message is posted while the latest page is asked for and already full. */
  ghost predicate PageLasts(w: World, events: seq<Event>)
    decreases |events|
  {
    events != [] ==>
      !(events[0].Posted? && Latest in w.asked && |w.log| >= PAGE_SIZE) && PageLasts(Step(w, events[0]), events[1..])
  }

  lemma {:induction false} LastingPagePushesNothing(w: World, events: seq<Event>, x: Message)
    requires PageLasts(w, events)
    ensures NeverPushedOut(w, events, x)
    decreases |events|
  {
    if events != [] {
      LastingPagePushesNothing(Step(w, events[0]), events[1..], x);
    }
  }

  /** In particular: where the undisturbed resync recovers everything, so does every interleaving in which the
      latest page, if that is asked for, does not overflow before it is answered. */
  lemma ResyncConverges(log: seq<Message>, list: seq<Message>, events: seq<Event>, from: nat)
    requires Numbered(log) && Distinct(list) && Within(list, log) && GapFree(list, log, from) && Fits(list, log)
    requires AllOrderly(Reconnected(log, list), events) && AllSmooth(events)
    requires PageLasts(Reconnected(log, list), events)
    ensures var w := Run(Reconnected(log, list), events);
            Settled(w) ==> Distinct(w.list) && Within(w.list, w.log) && Covers(w.list, w.log, from)
  {
    var w := Run(Reconnected(log, list), events);
    if Settled(w) {
      forall x | x in w.log && x.id.Some? && from <= x.id.value
        ensures HasId(w.list, x.id)
      {
        ResyncHoldsIff(log, list, events, x);
        if x in log {
          FittingIsAnswered(log, list, x);
          LastingPagePushesNothing(Reconnected(log, list), events, x);
        }
      }
      ResyncHoldsIff(log, list, events, Plain(1));
    }
  }

  // ----- A gap is for ever -----

  /** A stored message below the highest id held that is neither held nor on its way. */
  ghost predicate InGap(w: World, x: Message) {
    x in w.log && x.id.Some? && x.id.value <= LastId(w.list) && !OnTheWay(w, x)
  }

  lemma LastIdGrows(ms: seq<Message>, more: seq<Message>)
    ensures LastId(ms) <= LastId(ms + more)
  {
    LastIdIsHighest(ms);
    LastIdIsHighest(ms + more);
    if LastId(ms) > 0 {
      var m :| m in ms && m.id == Some(LastId(ms));
      assert m in ms + more;
    }
  }

  lemma LastIdNeverFalls(w: World, event: Event)
    ensures LastId(w.list) <= LastId(Step(w, event).list)
  {
    match event
    case Arrived(k, _) =>
      if k < |w.frames| {
        LastIdGrows(w.list, [w.frames[k]]);
      }
    case Absorbed(k) =>
      if k < |w.answers| {
        LastIdGrows(w.list, Additions(w.list, w.answers[k]));
      }
    case _ =>
  }

  lemma ReopenedStaysInGap(w: World, x: Message)
    requires Proper(w) && InGap(w, x)
    ensures InGap(Step(w, Reopened), x)
  {
    ResponseIs(w.log, RequestFor(w.list));
    var i :| 0 <= i < |w.log| && w.log[i] == x;
    assert w.log[i].id.value > 0;
  }

  lemma LossStaysInGap(w: World, event: Event, x: Message)
    requires InGap(w, x) && (event.Dropped? || event.RequestLost? || event.AnswerLost?)
    ensures InGap(Step(w, event), x)
  {
    var w' := Step(w, event);
    if event.RequestLost? && event.request < |w.asked| {
      forall r | r in w'.asked
        ensures r in w.asked
      {
        LessAtHolds(w.asked, event.request, r);
      }
    }
    if event.AnswerLost? && event.answer < |w.answers| {
      forall a | a in w'.answers
        ensures a in w.answers
      {
        LessAtHolds(w.answers, event.answer, a);
      }
    }
  }

  lemma StepStaysInGap(w: World, event: Event, x: Message)
    requires Proper(w) && Orderly(w, event) && InGap(w, x)
    ensures InGap(Step(w, event), x)
  {
    if event.Reopened? {
      ReopenedStaysInGap(w, x);
    } else if Smooth(event) {
      StepLosesIff(w, event, x);
      LastIdNeverFalls(w, event);
    } else {
      LossStaysInGap(w, event, x);
    }
  }

  /** A message in a gap is never fetched: after any events whatsoever, however many reconnects and successful
      refetches among them, it is still missing, since every refetch asks from the highest id held. */
  lemma {:induction false} GapIsNeverRefetched(w: World, events: seq<Event>, x: Message)
    requires Proper(w) && AllOrderly(w, events) && InGap(w, x)
    ensures InGap(Run(w, events), x) && !HasId(Run(w, events).list, x.id)
    decreases |events|
  {
    if events != [] {
      StepIsProper(w, events[0]);
      StepStaysInGap(w, events[0], x);
      GapIsNeverRefetched(Step(w, events[0]), events[1..], x);
    }
  }

  // ----- And only a gap is -----

  lemma RunPrepends(w: World, event: Event, events: seq<Event>)
    ensures Run(w, [event] + events) == Run(Step(w, event), events)
    ensures AllOrderly(w, [event] + events) <==> Orderly(w, event) && AllOrderly(Step(w, event), events)
  {
    assert ([event] + events)[1..] == events;
  }

  /** A reconnect with a successful refetch, everything else standing still. */
  function CaughtUp(w: World): World {
    w.(online := true, list := Merge(w.list, Response(w.log, RequestFor(w.list))))
  }

  function CatchUp(w: World): seq<Event> {
    [Reopened, Answered(|w.asked|), Absorbed(|w.answers|)]
  }

  lemma CatchesUp(w: World, events: seq<Event>)
    requires AllOrderly(CaughtUp(w), events)
    ensures Run(w, CatchUp(w) + events) == Run(CaughtUp(w), events) && AllOrderly(w, CatchUp(w) + events)
  {
    var w1 := Step(w, Reopened);
    var w2 := Step(w1, Answered(|w.asked|));
    var w3 := Step(w2, Absorbed(|w.answers|));
    assert w2.asked == w.asked && w2.answers == w.answers + [Response(w.log, RequestFor(w.list))];
    assert w3 == CaughtUp(w) by {
      assert w3.answers == w.answers;
    }
    RunPrepends(w2, Absorbed(|w.answers|), events);
    RunPrepends(w1, Answered(|w.asked|), [Absorbed(|w.answers|)] + events);
    RunPrepends(w, Reopened, [Answered(|w.asked|)] + ([Absorbed(|w.answers|)] + events));
    assert CatchUp(w) + events == [Reopened] + ([Answered(|w.asked|)] + ([Absorbed(|w.answers|)] + events));
  }

  lemma CaughtUpIsProper(w: World)
    requires Proper(w)
    ensures Proper(CaughtUp(w))
  {
    ResponseIs(w.log, RequestFor(w.list));
    MergeHolds(w.list, Response(w.log, RequestFor(w.list)));
  }

  /** An answer that a newer message does not make holds only older ones. */
  lemma CutAnswerIsOlder(log: seq<Message>, since: nat, x: Message)
    requires Numbered(log) && x in log && x.id.Some? && x.id.value > since && x !in Response(log, Since(since))
    ensures var missed := Response(log, Since(since));
            missed != [] && forall m :: m in missed ==> m.id.Some? && since < m.id.value < x.id.value
  {
    var missed, newer := Response(log, Since(since)), NewerThan(log, since);
    NewerThanIs(log, since);
    NewerThanNumbered(log, since);
    var i :| 0 <= i < |newer| && newer[i] == x;
    assert forall j :: 0 <= j < |missed| ==> missed[j] == newer[j] && missed[j] in missed;
  }

  /** A refetch that does not yet reach a newer message brings the highest id held closer to it. */
  lemma CatchingUpApproaches(w: World, x: Message)
    requires Proper(w) && x in w.log && LastId(w.list) > 0 && x.id.Some? && x.id.value > LastId(w.list)
    requires !HasId(CaughtUp(w).list, x.id)
    ensures LastId(w.list) < LastId(CaughtUp(w).list) < x.id.value
  {
    var missed, list := Response(w.log, RequestFor(w.list)), CaughtUp(w).list;
    ResponseIs(w.log, RequestFor(w.list));
    MergeHolds(w.list, missed);
    assert x !in missed;
    CutAnswerIsOlder(w.log, LastId(w.list), x);
    LastIdIsHighest(w.list);
    LastIdIsHighest(list);
    assert missed[0] in missed;
    var m :| m in list && m.id == missed[0].id;
    var last :| last in list && last.id == Some(LastId(list));
    assert last in w.list || last in missed;
  }

  /** Enough reconnects bring any stored message newer than the highest id held. */
  lemma {:induction false} NewerIsFetched(w: World, x: Message) returns (events: seq<Event>)
    requires Proper(w) && x in w.log && x.id.Some? && LastId(w.list) > 0 && x.id.value > LastId(w.list)
    ensures AllOrderly(w, events) && HasId(Run(w, events).list, x.id)
    decreases x.id.value - LastId(w.list)
  {
    if HasId(CaughtUp(w).list, x.id) {
      events := [];
    } else {
      CatchingUpApproaches(w, x);
      CaughtUpIsProper(w);
      events := NewerIsFetched(CaughtUp(w), x);
    }
    CatchesUp(w, events);
    events := CatchUp(w) + events;
  }

  /** What is on its way can arrive. */
  lemma OnTheWayArrives(w: World, x: Message) returns (events: seq<Event>)
    requires Proper(w) && OnTheWay(w, x)
    ensures AllOrderly(w, events) && HasId(Run(w, events).list, x.id)
  {
    if HasId(w.list, x.id) {
      events := [];
    } else if x in w.frames {
      var k :| 0 <= k < |w.frames| && w.frames[k] == x;
      events := [Arrived(k, false)];
      RunPrepends(w, Arrived(k, false), []);
      assert x in Step(w, Arrived(k, false)).list;
    } else if a: seq<Message> :| a in w.answers && x in a {
      events := AnswerArrives(w, a, x);
    } else {
      var r :| r in w.asked && x in Response(w.log, r);
      var k :| 0 <= k < |w.asked| && w.asked[k] == r;
      var w1 := Step(w, Answered(k));
      assert Response(w.log, r) in w1.answers;
      AnsweredIsProper(w, k);
      events := AnswerArrives(w1, Response(w.log, r), x);
      RunPrepends(w, Answered(k), events);
      events := [Answered(k)] + events;
    }
  }

  lemma AnswerArrives(w: World, a: seq<Message>, x: Message) returns (events: seq<Event>)
    requires Proper(w) && a in w.answers && x in a
    ensures AllOrderly(w, events) && HasId(Run(w, events).list, x.id)
  {
    var k :| 0 <= k < |w.answers| && w.answers[k] == a;
    MergeHolds(w.list, a);
    events := [Absorbed(k)];
    RunPrepends(w, Absorbed(k), []);
    assert [Absorbed(k)] + [] == [Absorbed(k)];
  }

  ghost predicate NeverHeld(w: World, x: Message) {
    forall events :: AllOrderly(w, events) ==> !HasId(Run(w, events).list, x.id)
  }

  /** Exactly which stored messages never come: once some id is held (or the message is on the latest page),
      it is missing after every continuation iff it is in a gap. */
  lemma GapIffNeverHeld(w: World, x: Message)
    requires Proper(w) && x in w.log && (LastId(w.list) > 0 || x in Response(w.log, Latest))
    ensures InGap(w, x) <==> NeverHeld(w, x)
  {
    var i :| 0 <= i < |w.log| && w.log[i] == x;
    assert x.id.Some?;
    if InGap(w, x) {
      forall events | AllOrderly(w, events)
        ensures !HasId(Run(w, events).list, x.id)
      {
        GapIsNeverRefetched(w, events, x);
      }
    } else {
      var fetching := Fetches(w, x);
      assert AllOrderly(w, fetching) && HasId(Run(w, fetching).list, x.id);
    }
  }

  lemma Fetches(w: World, x: Message) returns (events: seq<Event>)
    requires Proper(w) && x in w.log && x.id.Some? && !InGap(w, x)
    requires LastId(w.list) > 0 || x in Response(w.log, Latest)
    ensures AllOrderly(w, events) && HasId(Run(w, events).list, x.id)
  {
    if OnTheWay(w, x) {
      events := OnTheWayArrives(w, x);
    } else if LastId(w.list) > 0 {
      events := NewerIsFetched(w, x);
    } else {
      ResponseIs(w.log, Latest);
      MergeHolds(w.list, Response(w.log, Latest));
      CatchesUp(w, []);
      events := CatchUp(w) + [];
    }
  }

  function Plain(id: MsgId): Message {
    Message(Some(id), None, 7, None, Sent, 0, 0, "")
  }

  /** Message 2 is posted while offline, the refetch fails, message 3 arrives live. */
  const FAILED_REFETCH := [Posted(Plain(2)), Reopened, RequestLost(0)]
  const LIVE_AGAIN := [Posted(Plain(3)), Arrived(0, false)]

  const HOLDS_ONE := World([Plain(1)], [Plain(1)], false, [], [], [])
  const HAS_GAP := World([Plain(1), Plain(2), Plain(3)], [Plain(1), Plain(3)], true, [], [], [])

  const MISSED_TWO := World([Plain(1), Plain(2)], [Plain(1)], true, [], [], [])

  lemma RefetchFails()
    ensures Run(HOLDS_ONE, FAILED_REFETCH) == MISSED_TWO
  {
    var w1 := Step(HOLDS_ONE, FAILED_REFETCH[0]);
    assert w1.log == [Plain(1), Plain(2)];
    var w2 := Step(w1, FAILED_REFETCH[1]);
    assert Run(HOLDS_ONE, FAILED_REFETCH) == Run(w1, FAILED_REFETCH[1..]) == Run(w2, FAILED_REFETCH[2..]);
    assert Step(w2, FAILED_REFETCH[2]).asked == [];
  }

  lemma LiveFrameLeavesGap()
    ensures Run(MISSED_TWO, LIVE_AGAIN) == HAS_GAP
  {
    var w1 := Step(MISSED_TWO, LIVE_AGAIN[0]);
    assert w1.log == HAS_GAP.log && w1.frames == [Plain(3)];
    assert !HasId(w1.list, Plain(3).id);
    assert Step(w1, LIVE_AGAIN[1]).frames == [] && Step(w1, LIVE_AGAIN[1]).list == HAS_GAP.list;
    assert Run(MISSED_TWO, LIVE_AGAIN) == Run(w1, LIVE_AGAIN[1..]);
  }

  lemma FailedRefetchLeavesGap()
    ensures Run(Run(HOLDS_ONE, FAILED_REFETCH), LIVE_AGAIN) == HAS_GAP
  {
    RefetchFails();
    LiveFrameLeavesGap();
  }

  lemma GapIsProper()
    ensures Proper(HAS_GAP)
  {
    var log := HAS_GAP.log;
    assert log[0] == Plain(1) && log[1] == Plain(2) && log[2] == Plain(3);
    assert forall m :: m in HAS_GAP.list ==> m in log;
  }

  lemma GapIsReal()
    ensures InGap(HAS_GAP, Plain(2))
  {
    var list := HAS_GAP.list;
    assert list[..1] == [Plain(1)] && LastId(list[..1]) == 1 && LastId(list) == 3;
    assert HAS_GAP.log[1] == Plain(2);
  }

  /** So one failed refetch can lose a message for good. */
  lemma FailedRefetchLosesMessage(events: seq<Event>)
    requires AllOrderly(HAS_GAP, events)
    ensures !HasId(Run(Run(Run(HOLDS_ONE, FAILED_REFETCH), LIVE_AGAIN), events).list, Some(2))
  {
    FailedRefetchLeavesGap();
    GapIsProper();
    GapIsReal();
    GapIsNeverRefetched(HAS_GAP, events, Plain(2));
  }

  // ----- An unconfirmed send -----

  /** The list has an own bubble of client id `c` at `i`, unconfirmed, and nothing else of that client id. */
  ghost predicate Unconfirmed(f: Feed, c: ClientId, i: int) {
    && 0 <= i < |f.messages| && f.messages[i].client == Some(c) && f.messages[i].id == None && c in f.local
    && forall j :: 0 <= j < |f.messages| && j != i ==> f.messages[j].client != Some(c)
  }

  ghost predicate ListedTwice(ms: seq<Message>, id: MsgId) {
    exists i, j :: 0 <= i < j < |ms| && ms[i].id == Some(id) && ms[j].id == Some(id)
  }

  /** The list after the refetch's response and then the echo of the send. */
  function MergedThenEchoed(f: Feed, missed: seq<Message>, echo: Message): seq<Message> {
    Receive(f.(messages := Merge(f.messages, missed)), echo).messages
  }

  /** When a send that is unconfirmed while a refetch is answered ends up listed twice under its server id once
      its echo has come: exactly if the response already holds the stored message. */
  lemma UnconfirmedSendIsDoubledIff(f: Feed, c: ClientId, i: int, k: MsgId, missed: seq<Message>, echo: Message)
    requires Unconfirmed(f, c, i) && !HasId(f.messages, Some(k))
    requires Numbered(missed) && forall m :: m in missed && m.client == Some(c) ==> m.id == Some(k)
    requires echo.sender == f.me && echo.client == Some(c) && echo.id == Some(k) && echo.parent.None?
    ensures ListedTwice(MergedThenEchoed(f, missed, echo), k) <==> HasId(missed, Some(k))
  {
    var merged, extra := Merge(f.messages, missed), Additions(f.messages, missed);
    var shown := MergedThenEchoed(f, missed, echo);
    AdditionsAre(f.messages, missed);
    assert |shown| == |merged| && forall j :: 0 <= j < |merged| ==> shown[j] == ConfirmOne(merged[j], echo);
    assert shown[i].id == Some(k);
    forall j | 0 <= j < |f.messages| && j != i
      ensures shown[j].id != Some(k)
    {
      assert f.messages[j] in f.messages;
    }
    forall j | |f.messages| <= j < |shown|
      ensures shown[j].id == Some(k) ==> HasId(missed, Some(k))
    {
      assert merged[j] == extra[j - |f.messages|] && merged[j] in extra;
    }
    if HasId(missed, Some(k)) {
      var m :| m in missed && m.id == Some(k);
      var j :| 0 <= j < |extra| && extra[j] == m;
      assert shown[|f.messages| + j].id == Some(k);
    }
  }

  /** An instance: the first message of a conversation. */
  lemma UnconfirmedSendIsDoubled()
    ensures var f := SendMessage(Feed(7, [], [], None, {}, map[], CLEARED), 5, Draft("", []), 0);
            var echo := Message(Some(1), Some(5), 7, None, Sent, 0, 0, "");
            var shown := MergedThenEchoed(f, Response([Plain(1)], RequestFor(f.messages)), echo);
            |shown| == 2 && shown[0].id == Some(1) && shown[1].id == Some(1)
  {
    var f := SendMessage(Feed(7, [], [], None, {}, map[], CLEARED), 5, Draft("", []), 0);
    assert f.messages[..0] == [] && LastId(f.messages) == 0;
    assert !HasId(f.messages, Some(1));
    assert Additions(f.messages, [Plain(1)]) == [Plain(1)];
  }
}
