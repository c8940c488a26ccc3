/** Whole runs of the chat feed against an ideal ledger: which bubbles the list shows and in what order,
    how sends end, how delivery ticks add up and how thread counters grow. */
module ChatRuns {
  import opened Prelude
  import opened ChatFeed

  /** What a list entry stands for: a send of this tab, or a message known by its server id. */
  datatype Item = Own(client: ClientId) | Known(id: Option<MsgId>)

  datatype Event =
    | Typed(text: string, files: seq<FileId>)
    | Post(client: ClientId, draft: Draft, at: nat)
    | Answer(client: ClientId, body: string, at: nat)      // a reply in the open thread
    | Frame(message: Message)
    | Tick(id: MsgId, status: Status)
    | Refuse(client: ClientId, reason: string)
    | ThreadOpened(parent: MsgId, replies: seq<Message>)
    | ThreadClosed

  function Step(f: Feed, event: Event): Feed {
    match event
    case Typed(text, files) => Compose(f, text, files)
    case Post(c, draft, at) => SendMessage(f, c, draft, at)
    case Answer(c, body, at) => SendReply(f, c, body, at)
    case Frame(m) => Receive(f, m)
    case Tick(id, status) => StatusUpdate(f, id, status)
    case Refuse(c, reason) => SendFailed(f, c, reason)
    case ThreadOpened(p, replies) => OpenThread(f, p, replies)
    case ThreadClosed => CloseThread(f)
  }

  /** The assumptions: `ids` gives each client id this tab uses the server id its message gets. */
  datatype Setup = Setup(me: UserId, ids: map<ClientId, MsgId>)

  ghost predicate Sane(su: Setup) {
    forall c, d :: c in su.ids && d in su.ids && su.ids[c] == su.ids[d] ==> c == d
  }

  function ItemOf(su: Setup, m: Message): Item {
    if m.client.Some? && m.client.value in su.ids then Own(m.client.value) else Known(m.id)
  }

  /** A message this tab did not send, with a server id of its own. */
  ghost predicate Foreign(su: Setup, m: Message) {
    && (m.client.Some? ==> m.client.value !in su.ids)
    && m.id.Some? && m.id.value !in su.ids.Values
  }

  // ----- The ledger -----

  /** The ideal account of a run. */
  datatype Ledger = Ledger(
    log: seq<Item>,              // what the list should show
    posted: seq<ClientId>,       // top-level sends, in order
    replied: set<ClientId>,      // thread replies sent
    confirmed: set<ClientId>,    // top-level sends echoed at least once
    refused: set<ClientId>,
    heard: seq<Item>,            // other people's messages that were new, in order of arrival
    bumps: multiset<MsgId>)      // replies by parent: sent here or received from elsewhere

  function Removed(log: seq<Item>, x: Item): seq<Item> {
    if log == [] then [] else if log[0] == x then Removed(log[1..], x) else [log[0]] + Removed(log[1..], x)
  }

  function Recorded(l: Ledger, f: Feed, event: Event): Ledger {
    match event
    case Typed(_, _) => l
    case Post(c, _, _) => l.(log := l.log + [Own(c)], posted := l.posted + [c])
    case Answer(c, _, _) =>
      if f.active.None? then l
      else l.(replied := l.replied + {c}, bumps := l.bumps + multiset{f.active.value})
    case Frame(m) =>
      if m.client.Some? && (m.client.value in l.posted || m.client.value in l.replied) then
        if m.parent.None? then l.(confirmed := l.confirmed + {m.client.value}) else l
      else if m.parent.Some? then l.(bumps := l.bumps + multiset{m.parent.value})
      else if Known(m.id) in l.log then l
      else l.(log := l.log + [Known(m.id)], heard := l.heard + [Known(m.id)])
    case Tick(_, _) => l
    case Refuse(c, _) => l.(log := Removed(l.log, Own(c)), refused := l.refused + {c})
    case ThreadOpened(_, _) => l
    case ThreadClosed => l
  }

  /** What the server and the browser may do next. Echoes may repeat and come in any order, live frames
      may be duplicated; client ids are fresh, and a send is either echoed or refused. */
  ghost predicate Allowed(su: Setup, l: Ledger, event: Event) {
    match event
    case Post(c, _, _) => c in su.ids && c !in l.posted && c !in l.replied
    case Answer(c, _, _) => c in su.ids && c !in l.posted && c !in l.replied
    case Frame(m) =>
      || (m.sender == su.me && m.client.Some? && m.client.value in su.ids && m.id == Some(su.ids[m.client.value]) &&
          ((m.parent.None? && m.client.value in l.posted && m.client.value !in l.refused) ||
           (m.parent.Some? && m.client.value in l.replied)))
      || Foreign(su, m)
    case Refuse(c, _) => c in l.posted && c !in l.confirmed && c !in l.refused
    case _ => true
  }

  ghost predicate Legal(su: Setup, f: Feed, l: Ledger, events: seq<Event>)
    decreases |events|
  {
    events != [] ==>
      Allowed(su, l, events[0]) && Legal(su, Step(f, events[0]), Recorded(l, f, events[0]), events[1..])
  }

  function Run(f: Feed, events: seq<Event>): Feed
    decreases |events|
  {
    if events == [] then f else Run(Step(f, events[0]), events[1..])
  }

  function Account(f: Feed, l: Ledger, events: seq<Event>): Ledger
    decreases |events|
  {
    if events == [] then l else Account(Step(f, events[0]), Recorded(l, f, events[0]), events[1..])
  }

  // ----- The list refines the ledger -----

  ghost predicate Shows(su: Setup, ms: seq<Message>, log: seq<Item>) {
    |ms| == |log| && forall i :: 0 <= i < |ms| ==> ItemOf(su, ms[i]) == log[i]
  }

  /** An own bubble carries its server id once it is confirmed, and none before; other entries carry
      ids no send of this tab gets. */
  ghost predicate Faithful(su: Setup, l: Ledger, m: Message) {
    && m.parent.None?
    && match ItemOf(su, m)
       case Own(c) =>
         && m.id == (if c in l.confirmed then Some(su.ids[c]) else None)
         && (c !in l.confirmed ==> m.status == Sent && m.replies == 0)
       case Known(id) => id.Some? && id.value !in su.ids.Values
  }

  ghost predicate Agrees(su: Setup, f: Feed, l: Ledger) {
    && f.me == su.me
    && Shows(su, f.messages, l.log) && NoDup(l.log)
    && (forall m :: m in f.messages ==> Faithful(su, l, m))
    && (forall c :: Own(c) in l.log <==> c in l.posted && c !in l.refused)
    && (forall c :: c in f.local <==> c in l.posted || c in l.replied)
    && (forall c :: c in f.local ==> c in su.ids)
    && (forall c :: c in l.posted ==> c !in l.replied)
    && (forall c :: c in f.pending <==> c in l.posted && c !in l.confirmed && c !in l.refused)
    && (forall c :: c in l.confirmed || c in l.refused ==> c in l.posted)
    && l.confirmed !! l.refused
  }

  lemma {:induction false} RemovedProps(log: seq<Item>, x: Item)
    ensures forall y :: y in Removed(log, x) <==> y in log && y != x
    ensures NoDup(log) ==> NoDup(Removed(log, x))
    decreases |log|
  {
    if log != [] {
      RemovedProps(log[1..], x);
      assert log == [log[0]] + log[1..];
      if NoDup(log) {
        assert NoDup(log[1..]);
        assert log[0] !in log[1..];
      }
    }
  }

  lemma {:induction false} WithoutShows(su: Setup, ms: seq<Message>, log: seq<Item>, c: ClientId)
    requires Shows(su, ms, log) && c in su.ids
    ensures Shows(su, Without(ms, c), Removed(log, Own(c)))
    ensures forall m :: m in Without(ms, c) ==> m in ms
    decreases |ms|
  {
    if ms != [] {
      assert ItemOf(su, ms[0]) == log[0];
      WithoutShows(su, ms[1..], log[1..], c);
    }
  }

  lemma HasIdMeansListed(su: Setup, f: Feed, l: Ledger, id: MsgId)
    requires Agrees(su, f, l) && id !in su.ids.Values
    ensures HasId(f.messages, Some(id)) <==> Known(Some(id)) in l.log
  {
    if HasId(f.messages, Some(id)) {
      var m :| m in f.messages && m.id == Some(id);
      var i :| 0 <= i < |f.messages| && f.messages[i] == m;
      assert Faithful(su, l, m);
      assert ItemOf(su, f.messages[i]) == l.log[i];
    }
    if Known(Some(id)) in l.log {
      var i :| 0 <= i < |l.log| && l.log[i] == Known(Some(id));
      assert ItemOf(su, f.messages[i]) == l.log[i];
      assert f.messages[i] in f.messages;
    }
  }

  lemma EchoAgrees(su: Setup, f: Feed, l: Ledger, m: Message)
    requires Sane(su) && Agrees(su, f, l) && Allowed(su, l, Frame(m))
    requires m.client.Some? && m.client.value in su.ids
    ensures Agrees(su, Receive(f, m), Recorded(l, f, Frame(m)))
  {
    var f', l' := Receive(f, m), Recorded(l, f, Frame(m));
    assert IsOwnEcho(f, m);
    forall x | x in f'.messages
      ensures Faithful(su, l', x)
    {
      var i :| 0 <= i < |f'.messages| && f'.messages[i] == x;
      assert f.messages[i] in f.messages;
      assert Faithful(su, l, f.messages[i]);
    }
  }

  lemma ForeignReplyAgrees(su: Setup, f: Feed, l: Ledger, m: Message)
    requires Agrees(su, f, l) && Foreign(su, m) && m.parent.Some?
    ensures Agrees(su, Receive(f, m), Recorded(l, f, Frame(m)))
  {
    var f', l' := Receive(f, m), Recorded(l, f, Frame(m));
    assert !IsOwnEcho(f, m);
    forall x | x in f'.messages
      ensures Faithful(su, l', x)
    {
      var i :| 0 <= i < |f'.messages| && f'.messages[i] == x;
      assert f.messages[i] in f.messages;
      assert Faithful(su, l, f.messages[i]);
    }
  }

  lemma ForeignMessageAgrees(su: Setup, f: Feed, l: Ledger, m: Message)
    requires Agrees(su, f, l) && Foreign(su, m) && m.parent.None?
    ensures Agrees(su, Receive(f, m), Recorded(l, f, Frame(m)))
  {
    assert !IsOwnEcho(f, m);
    HasIdMeansListed(su, f, l, m.id.value);
    forall x | x in Receive(f, m).messages
      ensures Faithful(su, Recorded(l, f, Frame(m)), x)
    {
      assert x in f.messages ==> Faithful(su, l, x);
    }
  }

  lemma RefuseAgrees(su: Setup, f: Feed, l: Ledger, c: ClientId, reason: string)
    requires Agrees(su, f, l) && Allowed(su, l, Refuse(c, reason))
    ensures Agrees(su, SendFailed(f, c, reason), Recorded(l, f, Refuse(c, reason)))
  {
    assert c in f.local;
    WithoutShows(su, f.messages, l.log, c);
    RemovedProps(l.log, Own(c));
    forall m | m in Without(f.messages, c)
      ensures Faithful(su, Recorded(l, f, Refuse(c, reason)), m)
    {
      assert Faithful(su, l, m);
    }
  }

  lemma PostAgrees(su: Setup, f: Feed, l: Ledger, event: Event)
    requires Agrees(su, f, l) && Allowed(su, l, event) && event.Post?
    ensures Agrees(su, Step(f, event), Recorded(l, f, event))
  {
    forall x | x in Step(f, event).messages
      ensures Faithful(su, Recorded(l, f, event), x)
    {
      assert x in f.messages ==> Faithful(su, l, x);
    }
  }

  lemma PlainStepKeeps(su: Setup, f: Feed, l: Ledger, event: Event)
    requires Allowed(su, l, event) && (event.Tick? || event.Answer?)
    ensures |Step(f, event).messages| == |f.messages|
    ensures forall i :: 0 <= i < |f.messages| ==> Step(f, event).messages[i] == Touched(f, event, f.messages[i])
  {
  }

  lemma TouchedStaysFaithful(su: Setup, f: Feed, l: Ledger, event: Event, m: Message)
    requires Faithful(su, l, m) && (event.Tick? || event.Answer?)
    ensures var m' := Touched(f, event, m); Faithful(su, Recorded(l, f, event), m') && ItemOf(su, m') == ItemOf(su, m)
  {
  }

  lemma TickOrAnswerAgrees(su: Setup, f: Feed, l: Ledger, event: Event)
    requires Agrees(su, f, l) && Allowed(su, l, event) && (event.Tick? || event.Answer?)
    ensures Agrees(su, Step(f, event), Recorded(l, f, event))
  {
    var f', l' := Step(f, event), Recorded(l, f, event);
    PlainStepKeeps(su, f, l, event);
    forall i | 0 <= i < |f'.messages|
      ensures Faithful(su, l', f'.messages[i]) && ItemOf(su, f'.messages[i]) == l.log[i]
    {
      assert f.messages[i] in f.messages;
      TouchedStaysFaithful(su, f, l, event, f.messages[i]);
    }
  }

  lemma PlainStepAgrees(su: Setup, f: Feed, l: Ledger, event: Event)
    requires Agrees(su, f, l) && Allowed(su, l, event) && !event.Frame? && !event.Refuse? && !event.Post?
    ensures Agrees(su, Step(f, event), Recorded(l, f, event))
  {
    if event.Tick? || event.Answer? {
      TickOrAnswerAgrees(su, f, l, event);
    } else {
      assert Step(f, event).messages == f.messages && Recorded(l, f, event) == l;
    }
  }

  lemma StepAgrees(su: Setup, f: Feed, l: Ledger, event: Event)
    requires Sane(su) && Agrees(su, f, l) && Allowed(su, l, event)
    ensures Agrees(su, Step(f, event), Recorded(l, f, event))
  {
    match event
    case Frame(m) =>
      if m.client.Some? && m.client.value in su.ids {
        EchoAgrees(su, f, l, m);
      } else {
        if m.parent.Some? {
          ForeignReplyAgrees(su, f, l, m);
        } else {
          ForeignMessageAgrees(su, f, l, m);
        }
      }
    case Refuse(c, reason) => RefuseAgrees(su, f, l, c, reason);
    case Post(_, _, _) => PostAgrees(su, f, l, event);
    case _ => PlainStepAgrees(su, f, l, event);
  }

  lemma {:induction false} RunAgrees(su: Setup, f: Feed, l: Ledger, events: seq<Event>)
    requires Sane(su) && Agrees(su, f, l) && Legal(su, f, l, events)
    ensures Agrees(su, Run(f, events), Account(f, l, events))
    decreases |events|
  {
    if events != [] {
      StepAgrees(su, f, l, events[0]);
      RunAgrees(su, Step(f, events[0]), Recorded(l, f, events[0]), events[1..]);
    }
  }

  // ----- What the ledger itself says -----

  function Owns(log: seq<Item>): seq<ClientId> {
    if log == [] then [] else if log[0].Own? then [log[0].client] + Owns(log[1..]) else Owns(log[1..])
  }

  function Others(log: seq<Item>): seq<Item> {
    if log == [] then [] else if log[0].Own? then Others(log[1..]) else [log[0]] + Others(log[1..])
  }

  function Kept(posted: seq<ClientId>, refused: set<ClientId>): seq<ClientId> {
    if posted == [] then []
    else if posted[0] in refused then Kept(posted[1..], refused)
    else [posted[0]] + Kept(posted[1..], refused)
  }

  lemma {:induction false} LogAppend(log: seq<Item>, x: Item)
    ensures Owns(log + [x]) == Owns(log) + if x.Own? then [x.client] else []
    ensures Others(log + [x]) == Others(log) + if x.Own? then [] else [x]
    decreases |log|
  {
    if log == [] {
      assert (log + [x])[1..] == [];
    } else {
      assert (log + [x])[1..] == log[1..] + [x];
      LogAppend(log[1..], x);
    }
  }

  lemma {:induction false} LogSplits(log: seq<Item>)
    ensures |log| == |Owns(log)| + |Others(log)|
    decreases |log|
  {
    if log != [] {
      LogSplits(log[1..]);
    }
  }

  lemma {:induction false} KeptAppend(posted: seq<ClientId>, refused: set<ClientId>, c: ClientId)
    ensures Kept(posted + [c], refused) == Kept(posted, refused) + if c in refused then [] else [c]
    decreases |posted|
  {
    if posted == [] {
      assert (posted + [c])[1..] == [];
    } else {
      assert (posted + [c])[1..] == posted[1..] + [c];
      KeptAppend(posted[1..], refused, c);
    }
  }

  function Dropped(cs: seq<ClientId>, c: ClientId): seq<ClientId> {
    if cs == [] then [] else if cs[0] == c then Dropped(cs[1..], c) else [cs[0]] + Dropped(cs[1..], c)
  }

  lemma {:induction false} RemovedSplits(log: seq<Item>, c: ClientId)
    ensures Owns(Removed(log, Own(c))) == Dropped(Owns(log), c)
    ensures Others(Removed(log, Own(c))) == Others(log)
    decreases |log|
  {
    if log != [] {
      RemovedSplits(log[1..], c);
      var head, rest := [log[0]], Removed(log[1..], Own(c));
      if log[0] != Own(c) {
        assert (head + rest)[1..] == rest;
      }
      if log[0].Own? {
        assert ([log[0].client] + Owns(log[1..]))[1..] == Owns(log[1..]);
      }
    }
  }

  lemma {:induction false} DroppedIsKept(posted: seq<ClientId>, refused: set<ClientId>, c: ClientId)
    ensures Dropped(Kept(posted, refused), c) == Kept(posted, refused + {c})
    decreases |posted|
  {
    if posted != [] {
      DroppedIsKept(posted[1..], refused, c);
      if posted[0] !in refused {
        assert ([posted[0]] + Kept(posted[1..], refused))[1..] == Kept(posted[1..], refused);
      }
    }
  }

  lemma {:induction false} KeptLength(posted: seq<ClientId>, refused: set<ClientId>)
    requires NoDup(posted) && forall c :: c in refused ==> c in posted
    ensures |Kept(posted, refused)| == |posted| - |refused|
    decreases |posted|
  {
    if posted == [] {
      assert refused == {};
    } else {
      var c := posted[0];
      assert posted == [c] + posted[1..];
      assert forall k :: 0 < k < |posted| ==> posted[k] != c;
      assert c !in posted[1..];
      KeptLength(posted[1..], refused - {c});
      KeptUnaffected(posted[1..], refused, c);
    }
  }

  lemma {:induction false} KeptUnaffected(posted: seq<ClientId>, refused: set<ClientId>, c: ClientId)
    requires c !in posted
    ensures Kept(posted, refused) == Kept(posted, refused - {c})
    decreases |posted|
  {
    if posted != [] {
      assert posted[0] in posted;
      KeptUnaffected(posted[1..], refused, c);
    }
  }

  /** The ledger is balanced over `base`, the entries the run started from. */
  ghost predicate Balanced(l: Ledger, base: seq<Item>) {
    && Owns(l.log) == Kept(l.posted, l.refused)
    && Others(l.log) == base + l.heard
    && NoDup(l.posted)
    && (forall c :: c in l.refused ==> c in l.posted)
  }

  lemma PostKeepsBalanced(su: Setup, f: Feed, l: Ledger, event: Event, base: seq<Item>)
    requires Balanced(l, base) && Allowed(su, l, event) && event.Post?
    ensures Balanced(Recorded(l, f, event), base)
  {
    LogAppend(l.log, Own(event.client));
    KeptAppend(l.posted, l.refused, event.client);
    assert event.client !in l.refused;
  }

  lemma HearingKeepsBalanced(l: Ledger, x: Item, base: seq<Item>)
    requires Balanced(l, base) && x.Known?
    ensures Balanced(l.(log := l.log + [x], heard := l.heard + [x]), base)
  {
    LogAppend(l.log, x);
    assert Owns(l.log + [x]) == Owns(l.log);
    assert base + (l.heard + [x]) == base + l.heard + [x];
  }

  lemma FrameKeepsBalanced(f: Feed, l: Ledger, m: Message, base: seq<Item>)
    requires Balanced(l, base)
    ensures Balanced(Recorded(l, f, Frame(m)), base)
  {
    var own := m.client.Some? && (m.client.value in l.posted || m.client.value in l.replied);
    if !own && m.parent.None? && Known(m.id) !in l.log {
      HearingKeepsBalanced(l, Known(m.id), base);
    } else {
      var l' := Recorded(l, f, Frame(m));
      assert l'.log == l.log && l'.heard == l.heard && l'.posted == l.posted && l'.refused == l.refused;
    }
  }

  lemma RecordKeepsBalanced(su: Setup, f: Feed, l: Ledger, event: Event, base: seq<Item>)
    requires Balanced(l, base) && Allowed(su, l, event)
    ensures Balanced(Recorded(l, f, event), base)
  {
    match event
    case Post(_, _, _) => PostKeepsBalanced(su, f, l, event, base);
    case Frame(m) => FrameKeepsBalanced(f, l, m, base);
    case Refuse(c, _) =>
      RemovedSplits(l.log, c);
      DroppedIsKept(l.posted, l.refused, c);
    case _ =>
  }

  lemma {:induction false} AccountKeepsBalanced(su: Setup, f: Feed, l: Ledger, events: seq<Event>, base: seq<Item>)
    requires Balanced(l, base) && Legal(su, f, l, events)
    ensures Balanced(Account(f, l, events), base)
    decreases |events|
  {
    if events != [] {
      RecordKeepsBalanced(su, f, l, events[0], base);
      AccountKeepsBalanced(su, Step(f, events[0]), Recorded(l, f, events[0]), events[1..], base);
    }
  }

  // ----- Runs from a freshly loaded conversation -----

  function Opened(su: Setup, loaded: seq<Message>): Feed {
    Feed(su.me, loaded, [], None, {}, map[], CLEARED)
  }

  function Blank(su: Setup, loaded: seq<Message>): Ledger {
    Ledger(seq(|loaded|, i requires 0 <= i < |loaded| => Known(loaded[i].id)), [], {}, {}, {}, [], multiset{})
  }

  ghost predicate Loadable(su: Setup, loaded: seq<Message>) {
    && (forall m :: m in loaded ==> Foreign(su, m) && m.parent.None?)
    && (forall i, j :: 0 <= i < j < |loaded| ==> loaded[i].id != loaded[j].id)
  }

  lemma {:induction false} KnownAreOthers(log: seq<Item>)
    requires forall x :: x in log ==> x.Known?
    ensures Owns(log) == [] && Others(log) == log
    decreases |log|
  {
    if log != [] {
      assert log == [log[0]] + log[1..] && log[0] in log;
      KnownAreOthers(log[1..]);
    }
  }

  lemma OpeningAgrees(su: Setup, loaded: seq<Message>)
    requires Loadable(su, loaded)
    ensures Agrees(su, Opened(su, loaded), Blank(su, loaded))
    ensures Balanced(Blank(su, loaded), Blank(su, loaded).log)
  {
    var l := Blank(su, loaded);
    assert forall i :: 0 <= i < |loaded| ==> loaded[i] in loaded && Foreign(su, loaded[i]);
    KnownAreOthers(l.log);
  }

  lemma DistinctIds(su: Setup, f: Feed, l: Ledger, i: int, j: int)
    requires Sane(su) && Agrees(su, f, l) && 0 <= i < j < |f.messages|
    ensures f.messages[i].id.Some? ==> f.messages[i].id != f.messages[j].id
    ensures f.messages[i].client.Some? && f.messages[i].client.value in su.ids ==>
              f.messages[i].client != f.messages[j].client
  {
    var a, b := f.messages[i], f.messages[j];
    assert Faithful(su, l, a) && Faithful(su, l, b);
    assert ItemOf(su, a) == l.log[i] && ItemOf(su, b) == l.log[j];
  }

  /** For every run of sends, echoes, live frames, refusals, ticks and replies: the main list shows exactly
      the ledger. No server id and no own client id appears twice, every unrefused send keeps one bubble in
      the order of sending, other people's messages keep theirs, replies stay out, each send is in exactly
      one of pending, confirmed and refused, and the length adds up. */
  lemma FeedKeepsTheLedger(su: Setup, loaded: seq<Message>, events: seq<Event>)
    requires Sane(su) && Loadable(su, loaded) && Legal(su, Opened(su, loaded), Blank(su, loaded), events)
    ensures var f, l := Run(Opened(su, loaded), events), Account(Opened(su, loaded), Blank(su, loaded), events);
      && Shows(su, f.messages, l.log)
      && Owns(l.log) == Kept(l.posted, l.refused)
      && Others(l.log) == Blank(su, loaded).log + l.heard
      && (forall m :: m in f.messages ==> m.parent.None?)
      && (forall i, j :: 0 <= i < j < |f.messages| && f.messages[i].id.Some? ==> f.messages[i].id != f.messages[j].id)
      && (forall i, j :: 0 <= i < j < |f.messages| && f.messages[i].client.Some? && f.messages[i].client.value in su.ids ==>
            f.messages[i].client != f.messages[j].client)
      && (forall c :: c in l.posted <==> c in f.pending || c in l.confirmed || c in l.refused)
      && f.pending.Keys !! l.confirmed !! l.refused
      && |f.messages| == |loaded| + |l.posted| - |l.refused| + |l.heard|
  {
    var f0, l0 := Opened(su, loaded), Blank(su, loaded);
    OpeningAgrees(su, loaded);
    RunAgrees(su, f0, l0, events);
    AccountKeepsBalanced(su, f0, l0, events, l0.log);
    var f, l := Run(f0, events), Account(f0, l0, events);
    forall i, j | 0 <= i < j < |f.messages|
      ensures f.messages[i].id.Some? ==> f.messages[i].id != f.messages[j].id
      ensures f.messages[i].client.Some? && f.messages[i].client.value in su.ids ==>
                f.messages[i].client != f.messages[j].client
    {
      DistinctIds(su, f, l, i, j);
    }
    LogSplits(l.log);
    KeptLength(l.posted, l.refused);
  }

  // ----- Ticks and counters -----

  /** The rank an event offers to the entry `x` whose server id is `id`. */
  function Offer(x: Item, id: MsgId, event: Event): nat {
    match event
    case Frame(m) => if x.Own? && m.client == Some(x.client) && m.parent.None? then Rank(m.status) else 0
    case Tick(k, status) => if k == id then Rank(status) else 0
    case _ => 0
  }

  function Max(a: nat, b: nat): nat {
    if a < b then b else a
  }

  function Highest(x: Item, id: MsgId, rank: nat, events: seq<Event>): nat
    decreases |events|
  {
    if events == [] then rank else Highest(x, id, Max(rank, Offer(x, id, events[0])), events[1..])
  }

  /** The list has an entry for `x` with this server id, status rank and reply count. */
  ghost predicate Entry(su: Setup, ms: seq<Message>, x: Item, id: MsgId, rank: nat, replies: nat) {
    exists i :: 0 <= i < |ms| && ItemOf(su, ms[i]) == x && ms[i].id == Some(id) && Rank(ms[i].status) == rank &&
                ms[i].replies == replies
  }

  /** An entry a removal spares moves up by the removed entries before it. */
  lemma {:induction false} WithoutKeeps(ms: seq<Message>, c: ClientId, i: int)
    requires 0 <= i < |ms| && ms[i].client != Some(c)
    ensures var j := |Without(ms[..i], c)|; j < |Without(ms, c)| && Without(ms, c)[j] == ms[i]
    decreases |ms|
  {
    if i > 0 {
      WithoutKeeps(ms[1..], c, i - 1);
      assert ms[..i][1..] == ms[1..][..i - 1];
    }
  }

  /** What an event does to one entry that it does not remove. */
  function Touched(f: Feed, event: Event, m: Message): Message {
    match event
    case Frame(e) =>
      if IsOwnEcho(f, e) then if e.parent.Some? then m else ConfirmOne(m, e)
      else if e.parent.Some? then BumpOne(m, e.parent)
      else m
    case Tick(id, status) => TickOne(m, id, status)
    case Answer(_, _, _) => if f.active.None? then m else BumpOne(m, f.active)
    case _ => m
  }

  predicate Removes(event: Event, m: Message) {
    event.Refuse? && m.client == Some(event.client)
  }

  /** Where an entry stands after an event that does not remove it. */
  function PlaceAfter(f: Feed, event: Event, i: int): nat
    requires 0 <= i < |f.messages|
  {
    if event.Refuse? then |Without(f.messages[..i], event.client)| else i
  }

  lemma StepTouches(f: Feed, event: Event, i: int)
    requires 0 <= i < |f.messages| && !Removes(event, f.messages[i])
    ensures var j := PlaceAfter(f, event, i);
            j < |Step(f, event).messages| && Step(f, event).messages[j] == Touched(f, event, f.messages[i])
  {
    if event.Refuse? {
      WithoutKeeps(f.messages, event.client, i);
    }
  }

  lemma TouchAddsUp(su: Setup, f: Feed, l: Ledger, event: Event, m: Message, id: MsgId)
    requires Sane(su) && Agrees(su, f, l) && Allowed(su, l, event) && m in f.messages && m.id == Some(id)
    ensures var m', l', x := Touched(f, event, m), Recorded(l, f, event), ItemOf(su, m);
      && ItemOf(su, m') == x && m'.id == Some(id)
      && Rank(m'.status) == Max(Rank(m.status), Offer(x, id, event))
      && l'.bumps[id] >= l.bumps[id] && m'.replies == m.replies + l'.bumps[id] - l.bumps[id]
  {
    assert Faithful(su, l, m);
  }

  lemma StepMovesEntry(su: Setup, f: Feed, l: Ledger, event: Event, x: Item, id: MsgId, rank: nat, replies: nat)
    requires Sane(su) && Agrees(su, f, l) && Allowed(su, l, event) && Entry(su, f.messages, x, id, rank, replies)
    ensures Recorded(l, f, event).bumps[id] >= l.bumps[id]
    ensures Entry(su, Step(f, event).messages, x, id, Max(rank, Offer(x, id, event)),
                  replies + Recorded(l, f, event).bumps[id] - l.bumps[id])
  {
    var i :| 0 <= i < |f.messages| && ItemOf(su, f.messages[i]) == x && f.messages[i].id == Some(id) &&
             Rank(f.messages[i].status) == rank && f.messages[i].replies == replies;
    assert Faithful(su, l, f.messages[i]);
    TouchAddsUp(su, f, l, event, f.messages[i], id);
    StepTouches(f, event, i);
    assert ItemOf(su, Step(f, event).messages[PlaceAfter(f, event, i)]) == x;
  }

  /** Status is a join and the counter a sum: for an entry whose server id is known, any run, in any order
      and with repeats, leaves the highest rank among its own and all offered, and the reply count grows by
      exactly the replies this tab sent and the foreign replies delivered, an own echo adding nothing. */
  lemma {:induction false} EntriesAddUp(su: Setup, f: Feed, l: Ledger, events: seq<Event>,
                                       x: Item, id: MsgId, rank: nat, replies: nat)
    requires Sane(su) && Agrees(su, f, l) && Legal(su, f, l, events) && Entry(su, f.messages, x, id, rank, replies)
    ensures Account(f, l, events).bumps[id] >= l.bumps[id]
    ensures Entry(su, Run(f, events).messages, x, id, Highest(x, id, rank, events),
                  replies + Account(f, l, events).bumps[id] - l.bumps[id])
    decreases |events|
  {
    if events != [] {
      var f1, l1 := Step(f, events[0]), Recorded(l, f, events[0]);
      StepMovesEntry(su, f, l, events[0], x, id, rank, replies);
      StepAgrees(su, f, l, events[0]);
      EntriesAddUp(su, f1, l1, events[1..], x, id, Max(rank, Offer(x, id, events[0])), replies + l1.bumps[id] - l.bumps[id]);
    }
  }

  /** `Highest` is the least upper bound of the start and all offers. */
  lemma {:induction false} HighestIsJoin(x: Item, id: MsgId, rank: nat, events: seq<Event>)
    ensures rank <= Highest(x, id, rank, events)
    ensures forall e :: e in events ==> Offer(x, id, e) <= Highest(x, id, rank, events)
    ensures Highest(x, id, rank, events) == rank || exists e :: e in events && Offer(x, id, e) == Highest(x, id, rank, events)
    decreases |events|
  {
    if events != [] {
      HighestIsJoin(x, id, Max(rank, Offer(x, id, events[0])), events[1..]);
      assert events == [events[0]] + events[1..];
      assert events[0] in events;
    }
  }

  /** No step lowers the status of any entry that stays in the list, confirmed or not: the entry is found
      in its place, where a removal has moved it up by the removed entries before it. */
  lemma StatusNeverFalls(f: Feed, event: Event, i: int)
    requires 0 <= i < |f.messages| && !Removes(event, f.messages[i])
    ensures var j := PlaceAfter(f, event, i);
      && j < |Step(f, event).messages|
      && Step(f, event).messages[j] == Touched(f, event, f.messages[i])
      && Rank(f.messages[i].status) <= Rank(Step(f, event).messages[j].status)
  {
    StepTouches(f, event, i);
  }

  // ----- Refused drafts -----

  /** What the last send of `c` in the run took from the composer. */
  function DraftOf(events: seq<Event>, c: ClientId): Option<Draft> {
    if events == [] then None
    else if DraftOf(events[1..], c).Some? then DraftOf(events[1..], c)
    else if events[0].Post? && events[0].client == c then Some(events[0].draft)
    else None
  }

  lemma {:induction false} PendingIsPosted(f: Feed, events: seq<Event>, c: ClientId)
    requires c in Run(f, events).pending
    ensures DraftOf(events, c).Some? || c in f.pending
    ensures Run(f, events).pending[c] == if DraftOf(events, c).Some? then DraftOf(events, c).value else f.pending[c]
    decreases |events|
  {
    if events != [] {
      PendingIsPosted(Step(f, events[0]), events[1..], c);
    }
  }

  /** Over every run: a refused send that is still pending hands back exactly the text and files it took, each
      only if the composer has none by then; what the user has begun since is never overwritten. */
  lemma RefusedDraftReturns(su: Setup, loaded: seq<Message>, events: seq<Event>, c: ClientId, reason: string)
    requires c in Run(Opened(su, loaded), events).pending
    ensures DraftOf(events, c).Some?
    ensures var before := Run(Opened(su, loaded), events);
            var after := SendFailed(before, c, reason);
      && c !in after.pending && after.composer.error == reason
      && (forall m :: m in after.messages ==> m.client != Some(c))
      && after.composer.text == (if IsBlank(before.composer.text) then DraftOf(events, c).value.text else before.composer.text)
      && after.composer.files == (if before.composer.files == [] then DraftOf(events, c).value.files else before.composer.files)
  {
    PendingIsPosted(Opened(su, loaded), events, c);
    WithoutRemoves(Run(Opened(su, loaded), events).messages, c);
  }

  lemma {:induction false} WithoutRemoves(ms: seq<Message>, c: ClientId)
    ensures forall m :: m in Without(ms, c) ==> m.client != Some(c)
    decreases |ms|
  {
    if ms != [] {
      WithoutRemoves(ms[1..], c);
    }
  }

  // ----- What sent messages say -----

  /** The time of the last send or echo of `c` in the run. */
  function StampOf(events: seq<Event>, c: ClientId): Option<nat> {
    if events == [] then None
    else
      var rest, e := StampOf(events[..|events| - 1], c), events[|events| - 1];
      if e.Post? && e.client == c then Some(e.at)
      else if e.Frame? && e.message.client == Some(c) && e.message.parent.None? then Some(e.message.createdAt)
      else rest
  }

  lemma {:induction false} DraftOfAppend(events: seq<Event>, event: Event, c: ClientId)
    ensures DraftOf(events + [event], c) ==
            if event.Post? && event.client == c then Some(event.draft) else DraftOf(events, c)
    decreases |events|
  {
    if events == [] {
      assert (events + [event])[1..] == [];
    } else {
      assert (events + [event])[1..] == events[1..] + [event];
      DraftOfAppend(events[1..], event, c);
    }
  }

  ghost predicate Says(su: Setup, events: seq<Event>, m: Message) {
    m.client.Some? && m.client.value in su.ids ==>
      var c := m.client.value;
      && DraftOf(events, c).Some? && m.body == DraftOf(events, c).value.text
      && Some(m.createdAt) == StampOf(events, c) && m.sender == su.me
  }

  lemma StepKeepsSaying(su: Setup, f: Feed, l: Ledger, events: seq<Event>, event: Event, m: Message)
    requires Agrees(su, f, l) && Allowed(su, l, event) && m in f.messages && Says(su, events, m)
    ensures Says(su, events + [event], Touched(f, event, m))
  {
    assert (events + [event])[..|events|] == events;
    assert Faithful(su, l, m);
    if m.client.Some? && m.client.value in su.ids {
      DraftOfAppend(events, event, m.client.value);
      var i :| 0 <= i < |f.messages| && f.messages[i] == m;
      assert ItemOf(su, f.messages[i]) == l.log[i];
      assert Own(m.client.value) in l.log;
    }
  }

  lemma NewEntrySays(su: Setup, f: Feed, l: Ledger, events: seq<Event>, event: Event, m: Message)
    requires Agrees(su, f, l) && Allowed(su, l, event) && m in Step(f, event).messages
    requires forall x :: x in f.messages ==> Says(su, events, x)
    ensures Says(su, events + [event], m)
  {
    assert (events + [event])[..|events|] == events;
    var i :| 0 <= i < |Step(f, event).messages| && Step(f, event).messages[i] == m;
    if event.Refuse? {
      RefusedIsOld(f.messages, event.client, m);
      StepKeepsSaying(su, f, l, events, event, m);
    } else if i < |f.messages| {
      StepTouches(f, event, i);
      StepKeepsSaying(su, f, l, events, event, f.messages[i]);
    } else if event.Post? {
      DraftOfAppend(events, event, event.client);
    }
  }

  lemma {:induction false} RefusedIsOld(ms: seq<Message>, c: ClientId, m: Message)
    requires m in Without(ms, c)
    ensures m in ms
    decreases |ms|
  {
    if ms[0].client == Some(c) || m != ms[0] {
      RefusedIsOld(ms[1..], c, m);
    }
  }

  lemma {:induction false} RunKeepsSaying(su: Setup, f: Feed, l: Ledger, before: seq<Event>, events: seq<Event>)
    requires Sane(su) && Agrees(su, f, l) && Legal(su, f, l, events)
    requires forall m :: m in f.messages ==> Says(su, before, m)
    ensures forall m :: m in Run(f, events).messages ==> Says(su, before + events, m)
    decreases |events|
  {
    if events == [] {
      assert before + events == before;
    } else {
      forall m | m in Step(f, events[0]).messages
        ensures Says(su, before + [events[0]], m)
      {
        NewEntrySays(su, f, l, before, events[0], m);
      }
      StepAgrees(su, f, l, events[0]);
      RunKeepsSaying(su, Step(f, events[0]), Recorded(l, f, events[0]), before + [events[0]], events[1..]);
      assert before + [events[0]] + events[1..] == before + events;
    }
  }

  /** To the end of every run, the entry of an unrefused send carries the text of its draft, and the time of its
      last echo or, before any, of the send. */
  lemma SendsKeepTheirText(su: Setup, loaded: seq<Message>, events: seq<Event>, m: Message, c: ClientId)
    requires Sane(su) && Loadable(su, loaded) && Legal(su, Opened(su, loaded), Blank(su, loaded), events)
    requires m in Run(Opened(su, loaded), events).messages && m.client == Some(c) && c in su.ids
    ensures DraftOf(events, c).Some? && m.body == DraftOf(events, c).value.text
    ensures Some(m.createdAt) == StampOf(events, c) && m.sender == su.me
  {
    OpeningAgrees(su, loaded);
    forall x | x in loaded
      ensures Says(su, [], x)
    {
      assert Foreign(su, x);
    }
    RunKeepsSaying(su, Opened(su, loaded), Blank(su, loaded), [], events);
    assert [] + events == events;
  }

  // ----- The composer -----

  /** What a step leaves in the composer if it does not hand anything back. */
  predicate LeavesComposer(event: Event) {
    !event.Typed? && !event.Post? && !event.Refuse?
  }

  /** What was typed stays in the composer until it is sent, and a send leaves it empty, whatever arrives. */
  lemma ComposerHolds(f: Feed, event: Event, events: seq<Event>)
    requires forall e :: e in events ==> LeavesComposer(e)
    ensures event.Typed? ==>
              var c := Run(Step(f, event), events).composer; c.text == event.text && c.files == event.files
    ensures event.Post? ==> Run(Step(f, event), events).composer == CLEARED
  {
    ComposerStays(Step(f, event), events);
  }

  lemma {:induction false} ComposerStays(f: Feed, events: seq<Event>)
    requires forall e :: e in events ==> LeavesComposer(e)
    ensures Run(f, events).composer == f.composer
    decreases |events|
  {
    if events != [] {
      assert events[0] in events && forall e :: e in events[1..] ==> e in events;
      ComposerStays(Step(f, events[0]), events[1..]);
    }
  }
}
