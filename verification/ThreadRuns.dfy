/** The replies panel of an open thread over whole runs: exactly the replies it was loaded with, those sent here
    and those received for that parent, each once and in order. */
module ThreadRuns {
  import opened Prelude
  import opened ChatFeed
  import opened ChatRuns

  /** The ideal account of the panel of thread `parent` since it was opened. */
  datatype Panel = Panel(
    log: seq<Item>,                  // what it should show
    texts: map<ClientId, string>,    // what the replies sent here say
    echoed: set<ClientId>)           // those of them that were echoed

  function Noted(su: Setup, parent: MsgId, q: Panel, event: Event): Panel {
    match event
    case Answer(c, body, _) => q.(log := q.log + [Own(c)], texts := q.texts[c := body])
    case Frame(m) =>
      if m.client.Some? && m.client.value in su.ids then
        if Own(m.client.value) in q.log then q.(echoed := q.echoed + {m.client.value}) else q
      else if m.parent == Some(parent) && Known(m.id) !in q.log then q.(log := q.log + [Known(m.id)])
      else q
    case _ => q
  }

  function Notes(su: Setup, parent: MsgId, q: Panel, events: seq<Event>): Panel
    decreases |events|
  {
    if events == [] then q else Notes(su, parent, Noted(su, parent, q, events[0]), events[1..])
  }

  function Loaded(replies: seq<Message>): Panel {
    Panel(seq(|replies|, i requires 0 <= i < |replies| => Known(replies[i].id)), map[], {})
  }

  /** The server's replies of the thread: of that parent, with ids of their own, without client ids. */
  ghost predicate Fetched(replies: seq<Message>, parent: MsgId) {
    && (forall i :: 0 <= i < |replies| ==> replies[i].id.Some? && replies[i].client.None? && replies[i].parent == Some(parent))
    && (forall i, j :: 0 <= i < j < |replies| ==> replies[i].id != replies[j].id)
  }

  /** The thread stays open, and a reply sent here gets an id no reply listed before has. */
  ghost predicate StaysOpen(su: Setup, q: Panel, event: Event) {
    && !event.ThreadOpened? && !event.ThreadClosed?
    && (event.Answer? && event.client in su.ids ==> Known(Some(su.ids[event.client])) !in q.log)
  }

  ghost predicate AllStayOpen(su: Setup, parent: MsgId, q: Panel, events: seq<Event>)
    decreases |events|
  {
    events != [] ==> StaysOpen(su, q, events[0]) && AllStayOpen(su, parent, Noted(su, parent, q, events[0]), events[1..])
  }

  ghost predicate FaithfulReply(su: Setup, parent: MsgId, q: Panel, m: Message) {
    && m.parent == Some(parent)
    && match ItemOf(su, m)
       case Own(c) =>
         && m.client == Some(c) && c in q.texts && m.body == q.texts[c]
         && m.id == if c in q.echoed then Some(su.ids[c]) else None
       case Known(id) => id.Some?
  }

  ghost predicate PanelAgrees(su: Setup, parent: MsgId, f: Feed, l: Ledger, q: Panel) {
    && f.active == Some(parent)
    && Shows(su, f.thread, q.log) && NoDup(q.log)
    && (forall m :: m in f.thread ==> FaithfulReply(su, parent, q, m))
    && (forall c :: Own(c) in q.log <==> c in q.texts) && (forall c :: c in q.echoed ==> c in q.texts)
    && (forall c :: c in q.texts ==> c in su.ids && c in l.replied && Known(Some(su.ids[c])) !in q.log)
  }

  lemma SentReplyAgrees(su: Setup, parent: MsgId, f: Feed, l: Ledger, q: Panel, event: Event)
    requires Agrees(su, f, l) && PanelAgrees(su, parent, f, l, q) && Allowed(su, l, event) && StaysOpen(su, q, event)
    requires event.Answer?
    ensures PanelAgrees(su, parent, Step(f, event), Recorded(l, f, event), Noted(su, parent, q, event))
  {
    var f', q', c := Step(f, event), Noted(su, parent, q, event), event.client;
    assert c !in q.texts;
    forall m | m in f'.thread
      ensures FaithfulReply(su, parent, q', m)
    {
      assert m in f.thread ==> FaithfulReply(su, parent, q, m);
    }
  }

  lemma EchoedReplyAgrees(su: Setup, parent: MsgId, f: Feed, l: Ledger, q: Panel, m: Message)
    requires Sane(su) && Agrees(su, f, l) && PanelAgrees(su, parent, f, l, q) && Allowed(su, l, Frame(m))
    requires m.client.Some? && m.client.value in su.ids
    ensures PanelAgrees(su, parent, Receive(f, m), Recorded(l, f, Frame(m)), Noted(su, parent, q, Frame(m)))
  {
    var f', q', c := Receive(f, m), Noted(su, parent, q, Frame(m)), m.client.value;
    assert IsOwnEcho(f, m);
    forall x | x in f'.thread
      ensures FaithfulReply(su, parent, q', x)
    {
      var i :| 0 <= i < |f'.thread| && f'.thread[i] == x;
      assert f.thread[i] in f.thread && FaithfulReply(su, parent, q, f.thread[i]);
      assert ItemOf(su, f.thread[i]) == q.log[i];
    }
  }

  lemma PanelHasIdIff(su: Setup, parent: MsgId, f: Feed, l: Ledger, q: Panel, id: MsgId)
    requires PanelAgrees(su, parent, f, l, q) && id !in su.ids.Values
    ensures HasId(f.thread, Some(id)) <==> Known(Some(id)) in q.log
  {
    if HasId(f.thread, Some(id)) {
      var m :| m in f.thread && m.id == Some(id);
      var i :| 0 <= i < |f.thread| && f.thread[i] == m;
      assert FaithfulReply(su, parent, q, m) && ItemOf(su, f.thread[i]) == q.log[i];
    }
    if Known(Some(id)) in q.log {
      var i :| 0 <= i < |q.log| && q.log[i] == Known(Some(id));
      assert ItemOf(su, f.thread[i]) == q.log[i] && f.thread[i] in f.thread;
    }
  }

  lemma ForeignReplyJoins(su: Setup, parent: MsgId, f: Feed, l: Ledger, q: Panel, m: Message)
    requires PanelAgrees(su, parent, f, l, q) && Foreign(su, m) && m.parent == Some(parent) && Known(m.id) !in q.log
    ensures PanelAgrees(su, parent, f.(thread := f.thread + [m]), l, q.(log := q.log + [Known(m.id)]))
  {
    var f', q' := f.(thread := f.thread + [m]), q.(log := q.log + [Known(m.id)]);
    forall x | x in f'.thread
      ensures FaithfulReply(su, parent, q', x)
    {
      assert x in f.thread ==> FaithfulReply(su, parent, q, x);
    }
    forall c | c in q'.texts
      ensures Known(Some(su.ids[c])) !in q'.log
    {
      assert su.ids[c] in su.ids.Values;
    }
  }

  lemma ForeignFrameAgrees(su: Setup, parent: MsgId, f: Feed, l: Ledger, q: Panel, m: Message)
    requires Agrees(su, f, l) && PanelAgrees(su, parent, f, l, q) && Foreign(su, m)
    ensures PanelAgrees(su, parent, Receive(f, m), Recorded(l, f, Frame(m)), Noted(su, parent, q, Frame(m)))
  {
    assert !IsOwnEcho(f, m);
    PanelHasIdIff(su, parent, f, l, q, m.id.value);
    if m.parent == Some(parent) && Known(m.id) !in q.log {
      ForeignReplyJoins(su, parent, f, l, q, m);
    }
  }

  lemma StepKeepsPanel(su: Setup, parent: MsgId, f: Feed, l: Ledger, q: Panel, event: Event)
    requires Sane(su) && Agrees(su, f, l) && PanelAgrees(su, parent, f, l, q)
    requires Allowed(su, l, event) && StaysOpen(su, q, event)
    ensures PanelAgrees(su, parent, Step(f, event), Recorded(l, f, event), Noted(su, parent, q, event))
  {
    match event
    case Answer(_, _, _) => SentReplyAgrees(su, parent, f, l, q, event);
    case Frame(m) =>
      if m.client.Some? && m.client.value in su.ids {
        EchoedReplyAgrees(su, parent, f, l, q, m);
      } else {
        ForeignFrameAgrees(su, parent, f, l, q, m);
      }
    case _ =>
  }

  lemma {:induction false} RunKeepsPanel(su: Setup, parent: MsgId, f: Feed, l: Ledger, q: Panel, events: seq<Event>)
    requires Sane(su) && Agrees(su, f, l) && PanelAgrees(su, parent, f, l, q)
    requires Legal(su, f, l, events) && AllStayOpen(su, parent, q, events)
    ensures PanelAgrees(su, parent, Run(f, events), Account(f, l, events), Notes(su, parent, q, events))
    decreases |events|
  {
    if events != [] {
      StepKeepsPanel(su, parent, f, l, q, events[0]);
      StepAgrees(su, f, l, events[0]);
      RunKeepsPanel(su, parent, Step(f, events[0]), Recorded(l, f, events[0]), Noted(su, parent, q, events[0]), events[1..]);
    }
  }

  lemma DistinctReplies(su: Setup, parent: MsgId, f: Feed, l: Ledger, q: Panel, i: int, j: int)
    requires Sane(su) && PanelAgrees(su, parent, f, l, q) && 0 <= i < j < |f.thread| && f.thread[i].id.Some?
    ensures f.thread[i].id != f.thread[j].id
  {
    assert FaithfulReply(su, parent, q, f.thread[i]) && FaithfulReply(su, parent, q, f.thread[j]);
    assert ItemOf(su, f.thread[i]) == q.log[i] && ItemOf(su, f.thread[j]) == q.log[j];
    assert q.log[i] in q.log && q.log[j] in q.log;
  }

  /** Over any run since a thread was opened, the panel shows exactly its account: the replies loaded, then those
      sent here and the foreign ones of that parent in the order they came, each id once. A reply sent here says
      what was sent and carries its server id once it was echoed; no reply of another thread is ever in it. */
  lemma PanelShowsItsThread(su: Setup, f: Feed, l: Ledger, parent: MsgId, replies: seq<Message>, events: seq<Event>)
    requires Sane(su) && Agrees(su, f, l) && Fetched(replies, parent)
    requires Legal(su, OpenThread(f, parent, replies), l, events) && AllStayOpen(su, parent, Loaded(replies), events)
    ensures var g, q := Run(OpenThread(f, parent, replies), events), Notes(su, parent, Loaded(replies), events);
      && g.active == Some(parent) && Shows(su, g.thread, q.log)
      && (forall m :: m in g.thread ==> FaithfulReply(su, parent, q, m))
      && (forall i, j :: 0 <= i < j < |g.thread| && g.thread[i].id.Some? ==> g.thread[i].id != g.thread[j].id)
  {
    var f0, q0 := OpenThread(f, parent, replies), Loaded(replies);
    assert Agrees(su, f0, l);
    assert PanelAgrees(su, parent, f0, l, q0);
    RunKeepsPanel(su, parent, f0, l, q0, events);
    var g, q := Run(f0, events), Notes(su, parent, q0, events);
    forall i, j | 0 <= i < j < |g.thread| && g.thread[i].id.Some?
      ensures g.thread[i].id != g.thread[j].id
    {
      DistinctReplies(su, parent, g, Account(f0, l, events), q, i, j);
    }
  }

  lemma {:induction false} NoThreadStaysEmpty(f: Feed, events: seq<Event>)
    requires f.active == None && f.thread == [] && forall e :: e in events ==> !e.ThreadOpened?
    ensures Run(f, events).active == None && Run(f, events).thread == []
    decreases |events|
  {
    if events != [] {
      assert events[0] in events && forall e :: e in events[1..] ==> e in events;
      NoThreadStaysEmpty(Step(f, events[0]), events[1..]);
    }
  }

  /** Nothing is left in a closed panel, and nothing gets into it. */
  lemma ClosedPanelStaysEmpty(f: Feed, events: seq<Event>)
    requires forall e :: e in events ==> !e.ThreadOpened?
    ensures Run(CloseThread(f), events).active == None && Run(CloseThread(f), events).thread == []
  {
    NoThreadStaysEmpty(CloseThread(f), events);
  }
}
