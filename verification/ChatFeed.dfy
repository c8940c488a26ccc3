/** The message list of the open conversation (Chat.tsx): optimistic bubbles, their echoes, live frames,
    delivery ticks, refused sends, the composer and thread counters. */
module ChatFeed {
  import opened Prelude

  type UserId = nat
  type MsgId = nat
  type ClientId = nat
  type FileId = nat

  datatype Status = Sent | Delivered | Read

  function Rank(s: Status): nat {
    match s case Sent => 0 case Delivered => 1 case Read => 2
  }

  /** Status only ever upgrades. */
  function Join(current: Status, offered: Status): Status {
    if Rank(offered) > Rank(current) then offered else current
  }

  datatype Message = Message(
    id: Option<MsgId>,           // server-assigned; a bubble has none until its echo
    client: Option<ClientId>,
    sender: UserId,
    parent: Option<MsgId>,
    status: Status,
    createdAt: nat,
    replies: nat,
    body: string)

  /** What a send took from the composer: its trimmed text and its files. */
  datatype Draft = Draft(text: string, files: seq<FileId>)

  datatype Composer = Composer(text: string, files: seq<FileId>, error: string)

  const CLEARED := Composer("", [], "")

  datatype Feed = Feed(
    me: UserId,
    messages: seq<Message>,
    thread: seq<Message>,        // the replies panel
    active: Option<MsgId>,       // the parent whose thread is open
    local: set<ClientId>,        // client ids this tab sent
    pending: map<ClientId, Draft>,   // top-level sends neither echoed nor refused
    composer: Composer)

  // ----- List updates -----

  predicate HasId(ms: seq<Message>, id: Option<MsgId>) {
    exists m :: m in ms && m.id == id
  }

  function ConfirmOne(m: Message, echo: Message): Message {
    if m.client == echo.client
    then m.(id := echo.id, createdAt := echo.createdAt, status := Join(m.status, echo.status))
    else m
  }

  function Confirmed(ms: seq<Message>, echo: Message): seq<Message> {
    seq(|ms|, i requires 0 <= i < |ms| => ConfirmOne(ms[i], echo))
  }

  function BumpOne(m: Message, parent: Option<MsgId>): Message {
    if m.id == parent then m.(replies := m.replies + 1) else m
  }

  function Bumped(ms: seq<Message>, parent: Option<MsgId>): seq<Message> {
    seq(|ms|, i requires 0 <= i < |ms| => BumpOne(ms[i], parent))
  }

  function TickOne(m: Message, id: MsgId, status: Status): Message {
    if m.id == Some(id) then m.(status := Join(m.status, status)) else m
  }

  function Ticked(ms: seq<Message>, id: MsgId, status: Status): seq<Message> {
    seq(|ms|, i requires 0 <= i < |ms| => TickOne(ms[i], id, status))
  }

  function Without(ms: seq<Message>, c: ClientId): seq<Message> {
    if ms == [] then []
    else if ms[0].client == Some(c) then Without(ms[1..], c)
    else [ms[0]] + Without(ms[1..], c)
  }

  // ----- What each handler does -----

  predicate IsOwnEcho(f: Feed, m: Message) {
    m.sender == f.me && m.client.Some? && m.client.value in f.local
  }

  function Receive(f: Feed, m: Message): Feed {
    if IsOwnEcho(f, m) then
      var g := f.(pending := f.pending - {m.client.value});
      if m.parent.Some? then g.(thread := Confirmed(f.thread, m)) else g.(messages := Confirmed(f.messages, m))
    else if m.parent.Some? then
      f.(thread := if f.active == m.parent && !HasId(f.thread, m.id) then f.thread + [m] else f.thread,
         messages := Bumped(f.messages, m.parent))
    else
      f.(messages := if HasId(f.messages, m.id) then f.messages else f.messages + [m])
  }

  function StatusUpdate(f: Feed, id: MsgId, status: Status): Feed {
    f.(messages := Ticked(f.messages, id, status))
  }

  /** What String.trim removes: the white space and line terminators of ECMAScript. */
  predicate IsSpace(c: char) {
    || '\t' <= c <= '\r' || c == ' ' || c == '\U{A0}' || c == '\U{1680}' || '\U{2000}' <= c <= '\U{200A}'
    || c in {'\U{2028}', '\U{2029}', '\U{202F}', '\U{205F}', '\U{3000}', '\U{FEFF}'}
  }

  predicate IsBlank(text: string) {
    forall c :: c in text ==> IsSpace(c)
  }

  /** The text and files of a refused send go back to the composer, unless something else is there by now. */
  function HandedBack(composer: Composer, draft: Draft): Composer {
    composer.(text := if IsBlank(composer.text) then draft.text else composer.text,
              files := if composer.files == [] then draft.files else composer.files)
  }

  function SendFailed(f: Feed, c: ClientId, reason: string): Feed {
    var composer := if c in f.pending then HandedBack(f.composer, f.pending[c]) else f.composer;
    f.(pending := f.pending - {c}, messages := Without(f.messages, c), composer := composer.(error := reason))
  }

  function Compose(f: Feed, text: string, files: seq<FileId>): Feed {
    f.(composer := f.composer.(text := text, files := files))
  }

  function Bubble(me: UserId, c: ClientId, parent: Option<MsgId>, body: string, at: nat): Message {
    Message(None, Some(c), me, parent, Sent, at, 0, body)
  }

  function SendMessage(f: Feed, c: ClientId, draft: Draft, at: nat): Feed {
    f.(local := f.local + {c}, pending := f.pending[c := draft],
       messages := f.messages + [Bubble(f.me, c, None, draft.text, at)], composer := CLEARED)
  }

  /** A reply needs an open thread. */
  function SendReply(f: Feed, c: ClientId, body: string, at: nat): Feed {
    if f.active.None? then f
    else f.(local := f.local + {c},
            thread := f.thread + [Bubble(f.me, c, f.active, body, at)],
            messages := Bumped(f.messages, f.active))
  }

  function OpenThread(f: Feed, parent: MsgId, replies: seq<Message>): Feed {
    f.(active := Some(parent), thread := replies)
  }

  function CloseThread(f: Feed): Feed {
    f.(active := None, thread := [])
  }

  // ----- The handlers, in place -----

  class ChatView {
    const me: UserId
    var messages: seq<Message>
    var threadReplies: seq<Message>
    var activeThread: Option<MsgId>
    var localClientIds: set<ClientId>
    var pendingSends: map<ClientId, Draft>
    var composer: Composer

    ghost function Model(): Feed
      reads this
    {
      Feed(me, messages, threadReplies, activeThread, localClientIds, pendingSends, composer)
    }

    constructor (me: UserId, loaded: seq<Message>)
      ensures Model() == Feed(me, loaded, [], None, {}, map[], CLEARED)
    {
      this.me := me;
      messages, threadReplies, activeThread := loaded, [], None;
      localClientIds, pendingSends, composer := {}, map[], CLEARED;
    }

    method AppendRealtimeMessage(m: Message)
      modifies this
      ensures Model() == Receive(old(Model()), m)
    {
      if m.sender == me && m.client.Some? && m.client.value in localClientIds {
        pendingSends := pendingSends - {m.client.value};
        if m.parent.Some? {
          threadReplies := Confirmed(threadReplies, m);
        } else {
          messages := Confirmed(messages, m);
        }
        return;
      }
      if m.parent.Some? {
        if activeThread == m.parent && !HasId(threadReplies, m.id) {
          threadReplies := threadReplies + [m];
        }
        messages := Bumped(messages, m.parent);
        return;
      }
      if !HasId(messages, m.id) {
        messages := messages + [m];
      }
    }

    method HandleStatusUpdate(id: MsgId, status: Status)
      modifies this
      ensures Model() == StatusUpdate(old(Model()), id, status)
    {
      messages := Ticked(messages, id, status);
    }

    method HandleSendFailed(c: ClientId, reason: string)
      modifies this
      ensures Model() == SendFailed(old(Model()), c, reason)
    {
      if c in pendingSends {
        var draft := pendingSends[c];
        if IsBlank(composer.text) {
          composer := composer.(text := draft.text);
        }
        if draft.files != [] && composer.files == [] {
          composer := composer.(files := draft.files);
        }
      }
      pendingSends := pendingSends - {c};
      messages := Without(messages, c);
      composer := composer.(error := reason);
    }

    method Type(text: string, files: seq<FileId>)
      modifies this`composer
      ensures Model() == Compose(old(Model()), text, files)
    {
      composer := composer.(text := text, files := files);
    }

    method Send(c: ClientId, draft: Draft, at: nat)
      modifies this
      ensures Model() == SendMessage(old(Model()), c, draft, at)
    {
      localClientIds := localClientIds + {c};
      pendingSends := pendingSends[c := draft];
      messages := messages + [Bubble(me, c, None, draft.text, at)];
      composer := CLEARED;
    }

    method Reply(c: ClientId, body: string, at: nat)
      modifies this
      ensures Model() == SendReply(old(Model()), c, body, at)
    {
      if activeThread.None? {
        return;
      }
      localClientIds := localClientIds + {c};
      threadReplies := threadReplies + [Bubble(me, c, activeThread, body, at)];
      messages := Bumped(messages, activeThread);
    }

    method ShowThread(parent: MsgId, replies: seq<Message>)
      modifies this
      ensures Model() == OpenThread(old(Model()), parent, replies)
    {
      activeThread := Some(parent);
      threadReplies := replies;
    }

    method HideThread()
      modifies this
      ensures Model() == CloseThread(old(Model()))
    {
      activeThread := None;
      threadReplies := [];
    }
  }
}
