# Proofs about the client's concurrent state

A Dafny model of the parts of the web client whose behaviour only shows over whole runs or over all inputs:
call signalling, the chat message list, idle sign-out across tabs, the encryption-key migration, the codecs,
the two request caches and the reminder alerts. `dafny verify dfyconfig.toml` checks everything.

Code that works by assignment is a class whose methods do the same steps, each proved equal to a function on
values (`Model() == Step(old(Model()), ...)`); the run theorems are then proved about that function. A run is any
sequence of events; a handler between two awaits is one event.

- **Calls** (`CallEndpoint`, `CallLife`, `CallNetwork`, `CallKinds`, `CallAwaits`, `CallRelay`, `IceBuffer`). One endpoint with its timer, connection, stream and
  pending permission prompt; then any number of endpoints joined by reliable FIFO channels. Signals carry no call
  id, so agreement rests on what is in flight, which the invariant `CallNetwork.Linked` lists case by case. The
  assumptions are `Possible` (no user calls itself, no lost connection, no logout, sockets stay open) and
  `MayInvite` (an invite leaves only when nothing but the peer's own invite, withdrawn or not, is under way between the two).
  There a handler is one step, and each user has one connection, to which the relay forwards every signal. `CallAwaits`
  splits the two handlers that await media and says exactly when an answer reaches its call. `CallRelay` has the
  relay's routing (backend/crates/wayve-server/src/call/handler.rs) and one call over it with any number of tabs.
- **Chat** (`ChatFeed`, `ChatRuns`, `ThreadRuns`, `ChatResync`). The list against an ideal ledger, under fresh client ids and one
  server id per client id; and the reconnect refetch racing live frames, against the server's log and its capped
  answers (backend/crates/wayve-server/src/chat/channel_messages.rs:37-99, direct_messages.rs:45-96). The order of
  creation times is taken to be that of ids.
- **Idle sign-out** (`IdleLogout`). Any number of tabs sharing one stored timestamp, against the ideal clock "last
  activity anywhere". The browser clock does not run backwards.
- **Key migration** (`KeyMigration`). Any number of devices and one server record. A key is an opaque value, an
  envelope wraps a key under recovery words. `Steady` says that no fetch of the legacy key fails and that no other
  device puts an envelope on file between the two checks of a login.
- **Codecs** (`Utf8`, `Base64`, `EditorCodec`, `BootToken`, `Numerals`, `Resp`, `RespRoundTrip`,
  `RespServer`, `RateLimitFlush`). UTF-8 after
  section 3 of RFC 3629, base64 after sections 4 and 5 of RFC 4648 and appendix C of RFC 7515, the Redis
  serialization protocol. Text is a sequence of Unicode scalar values.
- **Caches and alerts** (`GetCache`, `LoadCache`, `ReminderAlerts`). The GET cache against a server whose state is a
  version number moved on by mutations; the promise cache; the due, chime, toast, snooze and dismiss bookkeeping.

## Where the code and its comments disagree

The model follows the code.

- frontend/src/api/client.ts:39-42 says callers never see data stale past a mutation. That holds iff no
  mutation is applied while a response is usable from the cache or on its way (`GetCache.StepIsFreshIff`,
  `GetCache.FreshIffNoneServedStale`); a GET under way across a
  mutation is a counterexample (`GetCache.OverlapServesStale`).
- frontend/src/auth/AuthContext.tsx:288-290 says a future login retries a failed delete of the legacy key. No login
  does (`KeyMigration.FailedDeleteIsNeverRetried`).
- frontend/src/components/ReminderPopups.tsx:266 speaks of the snoozed item re-surfacing. A standalone reminder
  never does (`ReminderAlerts.SnoozedReminderNeverReturns`): the shortest snooze outlasts its lead and grace.
- frontend/src/chat/Chat.tsx:326-328 presents the resync as recovering what was sent during a drop. It does so iff
  the list has no gap below its highest id and the server's caps suffice (`ChatResync.ResyncRecoversIff`); a gap is
  never closed (`ChatResync.GapIsNeverRefetched`).
- frontend/src/aifix/AiFixPanel.tsx:163 says the edits were saved. Text typed while the save was under way is not,
  and is gone (`EditorCodec.SaveDropsTyping`).
- frontend/src/auth/AuthContext.tsx:248-250 means an existing envelope never to be overwritten by a new key. A login
  that is between its two server checks while another device migrates does just that (`KeyMigration.RacingLoginsLoseKey`).
- frontend/src/auth/AuthContext.tsx:620-622 wants no private key left on the machine after an explicit logout. A setup
  under way can save it after the wipe (`KeyMigration.LogoutStaysWipedIff`).
- backend/crates/wayve-server/src/call/handler.rs:49-51 has one audit row written when a call resolves. A call overwritten
  by a new invite between the same two gets none (`CallRelay.EveryCallIsAuditedOnce`).
- e2etest/fixtures/global-setup.ts:116 reports keys flushed; keys listed twice by SCAN are counted twice
  (`RateLimitFlush.TotalIsExactIff`).

## Model

| member | source | states |
|---|---|---|
| `CallNetwork.QuietCallsMatch` | frontend/src/call/useCallSession.ts:253-435 | for any set of users and any legal run of all their handlers and deliveries: whenever no signal is in flight, calls form a symmetric matching (talking faces talking, ringing out faces being rung, everyone else idle) |
| `CallKinds.QuietCallsAreOfOneKind` | frontend/src/call/useCallSession.ts:253-435 | and the two sides of every call are then in the same kind of call, audio or video, as it was placed |
| `CallKinds.ReplayKeepsKinds` | frontend/src/call/useCallSession.ts:253-435 | the invariant behind it: wherever a call between two users can still come about, an invite in flight carries the ringer's kind and the rung or talking side holds it |
| `CallKinds.ConsumesOnCourse` | frontend/src/call/useCallSession.ts:373-425 | hearing a signal brings a call on course only as its invite or its accept |
| `CallKinds.SignalKeepsKind` | frontend/src/call/useCallSession.ts:379-425 | an invite is rung as the kind it carries, and an accepted call keeps its kind |
| `CallKinds.LocalKeepsKind` | frontend/src/call/useCallSession.ts:253-371 | an invite carries the kind of the call it starts, and no local handler changes the kind of a call |
| `CallLife.CallConnects` | frontend/src/call/useCallSession.ts:253-450 | an undisturbed call between two idle users: rung, accepted, negotiated by offer and answer, both talking in the kind placed, unmuted |
| `CallLife.HangUpFreesBoth` | frontend/src/call/useCallSession.ts:340-347 | hanging up in any state frees both sides: idle, no timer, no connection, every stream stopped |
| `CallLife.TimeoutFreesBoth` | frontend/src/call/useCallSession.ts:290-295 | so does a ring that times out |
| `CallLife.RejectFreesBoth` | frontend/src/call/useCallSession.ts:334-338 | and a reject |
| `CallLife.FailedMediaFreesBoth` | frontend/src/call/useCallSession.ts:316-325 | and an accept whose media fails, on either side |
| `CallLife.BusyTurnsAway` | frontend/src/call/useCallSession.ts:379-386 | whoever is in a call, ringing or dialing turns a caller away undisturbed, and the caller is free |
| `CallLife.LossFrees` | frontend/src/call/useCallSession.ts:205-214 | a lost connection ends a call and nothing else; a logout frees an endpoint whatever it was in |
| `CallLife.ControlsDoWhatTheyShow` | frontend/src/call/useCallSession.ts:349-371 | mute and camera off change exactly the tracks they show, and a second tap undoes the first; an audio call has no camera to turn off |
| `CallLife.LatePromptIsStopped` | frontend/src/call/useCallSession.ts:263-278 | a prompt answered after a logout, whatever else happened meanwhile, rings nobody and its stream is stopped at once |
| `CallLife.DialledCallIsAnnounced` | frontend/src/call/useCallSession.ts:255-296 | a call that is dialled at all, in a session that lasts, announces itself to the peer exactly when it starts to ring |
| `CallLife.DialsIff` | frontend/src/call/useCallSession.ts:255-261 | a call can be dialled iff the endpoint is idle, not dialing, and the socket open |
| `CallLife.CandidatesGoToPeer` | frontend/src/call/useCallSession.ts:182-190 | a candidate gathered in a call goes to the other side of it |
| `CallNetwork.ReplayKeepsSound` | frontend/src/call/useCallSession.ts:253-435 | the pair invariant `Linked`, which lists what two endpoints and the signals between them can be, survives every legal run for every pair |
| `CallNetwork.MoveKeepsSound` | frontend/src/call/useCallSession.ts:253-435 | one handler or delivery at one endpoint keeps the invariant of every pair of users, those of the actor and those of bystanders |
| `CallNetwork.HastyRedialStrands` | frontend/src/call/useCallSession.ts:253-288 | inviting again while an old reject is in flight is what the hypothesis excludes: in a run of ten moves it leaves one side ringing and the other idle, with nothing in flight |
| `CallNetwork.GlareEndsApart` | frontend/src/call/useCallSession.ts:253-435 | two users who ring each other never end up connected: whatever they (timers, hang-ups and answers included) and everyone else do, unless one calls the other again, once the signals between them have arrived neither is engaged with the other; if the two do nothing, neither is even rung in between |
| `CallNetwork.DoomedStays` | frontend/src/call/useCallSession.ts:253-435 | the invariant behind it: no call between the two can come about any more |
| `CallNetwork.InviteKeepsLinkedIff` | frontend/src/call/useCallSession.ts:279-288 | an invite keeps two users in an allowed situation iff nothing is in flight between them but the peer's own invite, withdrawn or not: the hypothesis on invites is exact for the invariant |
| `CallNetwork.RingingEachOtherIsGlare` | frontend/src/call/useCallSession.ts:378-393 | in every reachable network two users ringing each other are in one of the four situations of crossed invites |
| `CallNetwork.SoundAndQuietMatch` | frontend/src/call/useCallSession.ts:253-435 | the pair invariant with empty channels implies the matching |
| `CallNetwork.ConsumesKeepLinked` | frontend/src/call/useCallSession.ts:373-435 | consuming one signal in any situation the invariant allows, with any of the handler's possible answers, leads to a situation it allows |
| `CallNetwork.ActsKeepLinked` | frontend/src/call/useCallSession.ts:253-347 | the same for what a user can do unprompted: invite, cancel, accept, reject, hang up |
| `CallNetwork.LocalActs` | frontend/src/call/useCallSession.ts:253-371 | every local handler, seen from any other user, is one of those acts and sends that user nothing else |
| `CallNetwork.SignalConsumes` | frontend/src/call/useCallSession.ts:373-481 | every signal handler, seen by the sender, answers as the two-party protocol says |
| `CallNetwork.SignalLeavesOthers` | frontend/src/call/useCallSession.ts:373-481 | a signal from one user changes nothing towards any other user |
| `CallNetwork.StepPeers` | frontend/src/call/useCallSession.ts:253-435 | a handler engages its endpoint only with the peer it had, the one it dialled, or the sender |
| `CallEndpoint.RunsStayConsistent` | frontend/src/call/useCallSession.ts:153-481 | every run of prompts, timers, toggles, signals, lost connections and logouts keeps the endpoint's resources in step with its call state |
| `CallEndpoint.EndpointNeverLeaks` | frontend/src/call/useCallSession.ts:153-173 | in every reachable endpoint the timer is armed iff ringing out, the peer connection exists iff in a call, a stream is held iff ringing out or in a call, and every stream ever acquired is either the held one or stopped, also when a logout falls into the permission prompt |
| `CallEndpoint.StepKeepsConsistent` | frontend/src/call/useCallSession.ts:253-481 | each single handler keeps that correspondence, including the track flags mirroring mute and video-off |
| `CallEndpoint.CallSession.SendSignal` | frontend/src/call/useCallSession.ts:144-151 | a signal leaves iff the socket is open; nothing changes |
| `CallEndpoint.CallSession.TeardownPeer` | frontend/src/call/useCallSession.ts:153-173 | timer, connection and stream are gone, the stream is stopped, nothing else changes |
| `CallEndpoint.CallSession.AttachLocalMedia` | frontend/src/call/useCallSession.ts:235-248 | reuses the held stream, else acquires one |
| `CallEndpoint.CallSession.BeginCall` | frontend/src/call/useCallSession.ts:253-263 | startCall up to the permission prompt, in place |
| `CallEndpoint.CallSession.ResumeCall` | frontend/src/call/useCallSession.ts:264-296 | startCall after the prompt: refused, outdated by a logout (the new stream is stopped), or ringing with the invite sent |
| `CallEndpoint.CallSession.FireRingTimer` | frontend/src/call/useCallSession.ts:290-295 | a ring that times out is cancelled and torn down |
| `CallEndpoint.CallSession.TapAccept` | frontend/src/call/useCallSession.ts:300-332 | accepting as one step, with each way the media can fail ending in a reject and a full teardown |
| `CallEndpoint.CallSession.TapReject` | frontend/src/call/useCallSession.ts:334-338 | rejecting an incoming call; otherwise nothing |
| `CallEndpoint.CallSession.TapEnd` | frontend/src/call/useCallSession.ts:340-347 | hanging up sends a cancel while ringing out and an end otherwise |
| `CallEndpoint.CallSession.TapMute` | frontend/src/call/useCallSession.ts:349-358 | flips the audio tracks together with the muted flag, in a call only |
| `CallEndpoint.CallSession.TapVideo` | frontend/src/call/useCallSession.ts:362-371 | flips the video tracks together with the flag, in a video call only |
| `CallEndpoint.CallSession.HandleSignal` | frontend/src/call/useCallSession.ts:373-481 | every signal type as one step: busy and dialing endpoints auto-reject, an accept counts only from the peer being rung |
| `CallEndpoint.CallSession.LeaveIfPeer` | frontend/src/call/useCallSession.ts:427-435 | reject, cancel and end tear down iff they come from the current peer |
| `CallEndpoint.CallSession.GatherCandidate` | frontend/src/call/useCallSession.ts:182-190 | local candidates go to the peer the connection was built for |
| `CallEndpoint.CallSession.LoseConnection` | frontend/src/call/useCallSession.ts:205-214 | a failed connection tears down and goes idle |
| `CallEndpoint.CallSession.CloseSession` | frontend/src/call/useCallSession.ts:547-555 | logout bumps the session generation, closes the socket and tears everything down |
| `CallRelay.OneTabASideStays` | backend/crates/wayve-server/src/call/handler.rs:151-229 | one call over the relay to any number of the callee's tabs, each accepting, rejecting, hanging up or busy, and the caller cancelling, in any interleaving: with nothing in flight, either it still rings on every tab, or the placing tab talks to exactly the one tab the relay has bound and all others are out of it, or everybody is |
| `CallRelay.AnsweredCallIsPrivate` | backend/crates/wayve-server/src/call/handler.rs:182-229 | once answered, signals reach the peer iff they come from one of the two connections of the call, and reach exactly the other one; no other connection changes what is tracked |
| `CallRelay.RunFits` | backend/crates/wayve-server/src/call/handler.rs:151-229 | the invariant behind it, over every run: what each tab can be in, by the phase of the call at the relay |
| `CallRelay.TabPlan` | backend/crates/wayve-server/src/call/handler.rs:182-229 | what the relay makes of each signal of a callee's tab, by phase |
| `CallRelay.CallerPlan` | backend/crates/wayve-server/src/call/handler.rs:160-229 | and of each signal of the placing tab |
| `CallRelay.BusyTabEndsRinging` | backend/crates/wayve-server/src/call/handler.rs:204-223 | a tab that is busy with somebody else auto-rejects, and that ends the ringing on all other tabs |
| `CallRelay.EveryCallIsAuditedOnce` | backend/crates/wayve-server/src/call/handler.rs:151-229 | over every run, each call placed is still tracked, or has exactly one audit row, or was overwritten by a new invite between the same two and has none |
| `CallRelay.AuditSaysHowItEnded` | backend/crates/wayve-server/src/call/handler.rs:204-223 | a row says rejected if it was, completed if the call had been answered, missed otherwise |
| `CallRelay.Relay.Handle` | backend/crates/wayve-server/src/call/handler.rs:154-229 | the plan for one signal and the calls tracked afterwards |
| `CallAwaits.AnswerReachesCallIff` | frontend/src/call/useCallSession.ts:300-325 | exactly when an answer, on the callee's or the caller's side, reaches the call it is for: with anything happening during its awaits it does in the end what answering at that moment in one step would do, iff the endpoint is still rung by (still rings) that peer and still has the connection and stream of the answer, and no timer or prompt |
| `CallAwaits.StepStaysOnIff` | frontend/src/call/useCallSession.ts:300-435 | exactly which events take the call away meanwhile: a reject, hang-up, ring timeout, lost connection, logout, or the peer leaving |
| `CallAwaits.UninterruptedAnswerReachesCall` | frontend/src/call/useCallSession.ts:300-325 | hence an answer none of these interrupts reaches its call, whatever else happens, and leaves a consistent endpoint |
| `CallAwaits.AnswerSurvivesIff` | frontend/src/call/useCallSession.ts:300-325 | for everything that can happen during the awaits: the resources are in step with the call state afterwards iff the endpoint was undisturbed when media arrived; being in step does not mean that the call is still on |
| `CallAwaits.CancelledAcceptStrands` | frontend/src/call/useCallSession.ts:300-325 | an instance of an interrupted one, for every endpoint being rung: a cancel landing in either await of an accept leaves it in a call with a peer who has left, microphone on, and without a connection if it lands in the second |
| `CallAwaits.BegunIsLoose` | frontend/src/call/useCallSession.ts:300-404 | both kinds of answer start from where these theorems apply |
| `CallAwaits.FinishIsConsistentIff` | frontend/src/call/useCallSession.ts:304-315 | the same for the last step alone |
| `CallAwaits.RunStaysLoose` | frontend/src/call/useCallSession.ts:153-435 | what every handler keeps while an answer is under way: streams, timer and prompt stay accounted for |
| `CallAwaits.UndisturbedAcceptIsOneStep` | frontend/src/call/useCallSession.ts:300-325 | with nothing in between, the split accept is the one-step accept, failures included |
| `CallAwaits.UndisturbedAnswerIsOneStep` | frontend/src/call/useCallSession.ts:396-425 | the same for the caller's side |
| `CallAwaits.FailedFetchGivesUp` | frontend/src/call/useCallSession.ts:300-325 | a failed fetch of the ICE configuration ends as failed media does, on both sides |
| `CallAwaits.AnsweringSession.BeginAccept` | frontend/src/call/useCallSession.ts:300-304 | accepting up to the first await |
| `CallAwaits.AnsweringSession.BeginAnswer` | frontend/src/call/useCallSession.ts:396-404 | the caller's side up to the first await: the ring timer is cleared |
| `CallAwaits.AnsweringSession.BuildPeer` | frontend/src/call/useCallSession.ts:175-217 | the connection is built, and media looked for, once the ICE configuration is there |
| `CallAwaits.AnsweringSession.Attach` | frontend/src/call/useCallSession.ts:235-248 | the stream found then, or a new one, becomes the held one whatever is held by now |
| `CallAwaits.AnsweringSession.FinishAnswer` | frontend/src/call/useCallSession.ts:305-325 | accept or offer sent and the call active, or given up |
| `CallAwaits.AnsweringSession.GiveUp` | frontend/src/call/useCallSession.ts:316-325 | the catch branch: reject or end, teardown, idle |
| `IceBuffer.CandidatesConserved` | frontend/src/call/useCallSession.ts:223-233 | for every interleaving: candidates received since the connection was built = handed over + pending + held by flush loops, as multisets; none is handed over before the remote description; when nothing is under way all have been |
| `IceBuffer.FlushedBufferStaysEmpty` | frontend/src/call/useCallSession.ts:464-472 | once a flush has begun on a connection the pending buffer never grows again while it lives |
| `IceBuffer.EveryCandidateIsHanded` | frontend/src/call/useCallSession.ts:437-479 | from any reachable point of a connection, once its remote description is applied, a flush begins and the loops run out, every candidate received has been handed over, and a later one is handed over at once |
| `IceBuffer.RunsStayAccounted` | frontend/src/call/useCallSession.ts:437-479 | the accounting invariant behind both, over every run |
| `IceBuffer.FlushNextBalances` | frontend/src/call/useCallSession.ts:226-232 | handing over the next queued candidate of any loop keeps the books, also for loops of an older connection |
| `IceBuffer.FlushBegunKeepsAccounted` | frontend/src/call/useCallSession.ts:224-225 | taking the buffer and emptying it keeps the books |
| `IceBuffer.CandidateBuffer.Build` | frontend/src/call/useCallSession.ts:175-217 | a new connection starts with no remote description and nothing received |
| `IceBuffer.CandidateBuffer.Arrive` | frontend/src/call/useCallSession.ts:464-479 | dropped without a connection, buffered before the remote description, handed over after it |
| `IceBuffer.CandidateBuffer.ApplyRemote` | frontend/src/call/useCallSession.ts:437-456 | setRemoteDescription resolving; a flush is then owed |
| `IceBuffer.CandidateBuffer.BeginFlush` | frontend/src/call/useCallSession.ts:223-225 | the flush takes all that is pending |
| `IceBuffer.CandidateBuffer.ContinueFlush` | frontend/src/call/useCallSession.ts:226-232 | one await of a flush loop, into the connection the loop was started for |
| `IceBuffer.CandidateBuffer.TearDown` | frontend/src/call/useCallSession.ts:158-165 | closing drops the connection and the pending candidates |
| `ChatRuns.FeedKeepsTheLedger` | frontend/src/chat/Chat.tsx:243-404 | for every run of sends, repeated echoes, duplicated live frames, refusals, ticks and replies: the list shows exactly the ledger; no server id and no own client id twice; one bubble per unrefused send, in order; each send in exactly one of pending, confirmed, refused; length = initial + sends - refused + distinct inbound |
| `ThreadRuns.PanelShowsItsThread` | frontend/src/chat/Chat.tsx:243-314 | over any run since a thread was opened, the panel shows exactly the replies loaded, then those sent here and the foreign ones of that parent in the order they came, each id once; one sent here says what was sent and carries its server id once echoed; no reply of another thread is ever in it |
| `ThreadRuns.RunKeepsPanel` | frontend/src/chat/Chat.tsx:243-314 | the invariant behind it, over every run |
| `ThreadRuns.ClosedPanelStaysEmpty` | frontend/src/chat/Chat.tsx:471-474 | nothing is left in a closed panel, and nothing gets into it |
| `ChatRuns.SendsKeepTheirText` | frontend/src/chat/Chat.tsx:896-922 | to the end of every run the entry of an unrefused send carries the text of its draft, and the time of its last echo or, before any, of the send |
| `ChatRuns.ComposerHolds` | frontend/src/chat/Chat.tsx:908-925 | what was typed stays in the composer until it is sent, and a send leaves it empty, whatever arrives |
| `ChatRuns.EntriesAddUp` | frontend/src/chat/Chat.tsx:258-314 | for an entry whose id is known, any run leaves the highest of its own status and all offered, and its reply count grows by exactly the replies sent here plus the foreign ones delivered, own echoes adding nothing |
| `ChatRuns.HighestIsJoin` | frontend/src/chat/Chat.tsx:258-263 | that final status is the least upper bound of the start and all offers, hence independent of order and repeats |
| `ChatRuns.StatusNeverFalls` | frontend/src/chat/Chat.tsx:361-375 | no event lowers the status of any entry that stays; the entry is followed by its place, which only a refusal moves, up by the removed entries before it |
| `ChatRuns.RefusedDraftReturns` | frontend/src/chat/Chat.tsx:391-404 | over every run, a refused send that is pending hands back exactly the text and files it took, each only if the composer has none by then; nothing the user has begun since is overwritten |
| `ChatRuns.RunAgrees` | frontend/src/chat/Chat.tsx:243-404 | the list refines the ledger over every legal run |
| `ChatRuns.EchoAgrees` | frontend/src/chat/Chat.tsx:249-292 | an echo confirms exactly its own bubble, however often it comes, and never appends |
| `ChatRuns.ForeignReplyAgrees` | frontend/src/chat/Chat.tsx:298-315 | other people's replies stay out of the main list |
| `ChatRuns.ForeignMessageAgrees` | frontend/src/chat/Chat.tsx:317-321 | a live frame is appended iff its id is not listed |
| `ChatRuns.RefuseAgrees` | frontend/src/chat/Chat.tsx:391-404 | a refusal removes exactly the refused bubble |
| `ChatRuns.AccountKeepsBalanced` | frontend/src/chat/Chat.tsx:243-404 | the ledger's own sends are the unrefused posts in order, and its other entries are the loaded ones followed by those heard |
| `ChatFeed.ChatView.AppendRealtimeMessage` | frontend/src/chat/Chat.tsx:243-324 | echo, foreign reply or live message, on the list, the thread panel, the counters and the pending sends |
| `ChatFeed.ChatView.HandleStatusUpdate` | frontend/src/chat/Chat.tsx:362-375 | a tick upgrades the status of the message with that id |
| `ChatFeed.ChatView.HandleSendFailed` | frontend/src/chat/Chat.tsx:391-404 | a refused send loses its bubble and its pending entry and goes back to an empty composer, with the reason |
| `ChatFeed.ChatView.Send` | frontend/src/chat/Chat.tsx:896-925 | an optimistic bubble without id, its client id remembered, its draft pending, the composer cleared |
| `ChatFeed.ChatView.Reply` | frontend/src/chat/Chat.tsx:478-527 | a reply needs an open thread; it goes to the panel and bumps the parent, not the main list |
| `ChatFeed.ChatView.ShowThread` | frontend/src/chat/Chat.tsx:459-466 | opening a thread replaces the panel |
| `ChatFeed.ChatView.HideThread` | frontend/src/chat/Chat.tsx:471-474 | closing it empties the panel |
| `ChatResync.ResyncHoldsIff` | frontend/src/chat/Chat.tsx:329-359 | for every interleaving of new messages, live frames in any order and duplicated, and the capped refetch: once nothing is in flight the list holds server messages only, none twice, and all newer than the reconnect; an older one is held iff it was before, or the answer covered it and no new message pushed it off meanwhile |
| `ChatResync.ResyncConverges` | frontend/src/chat/Chat.tsx:329-359 | hence everything from a given id on, if the list had no gap, the caps suffice and a latest page asked for does not overflow before it is answered |
| `ChatResync.ResyncRecoversIff` | frontend/src/chat/Chat.tsx:333-355 | an undisturbed resync recovers everything iff the list had no gap below its highest id and at most 500 newer messages are stored, or at most 50 in all if no id is held |
| `ChatResync.StepLosesIff` | frontend/src/chat/Chat.tsx:317-359 | of all steps of such a run exactly one loses a message, a new one pushing it off the latest page being asked for, and none brings one back |
| `ChatResync.ResponseGrows` | backend/crates/wayve-server/src/chat/channel_messages.rs:37-99 | a further message does not change what a catch-up request still on its way will bring, and pushes the first one off a full latest page |
| `ChatResync.GapIsNeverRefetched` | frontend/src/chat/Chat.tsx:326-359 | a message missing below the highest id held, with nothing under way for it, stays missing after any events, however many reconnects and successful refetches among them |
| `ChatResync.GapIffNeverHeld` | frontend/src/chat/Chat.tsx:326-359 | and only such a message: once some id is held (or the message is on the latest page) a stored message is missing after every continuation iff it is in a gap; otherwise enough reconnects bring it |
| `ChatResync.NewerIsFetched` | frontend/src/chat/Chat.tsx:326-359 | reconnects bring any stored message newer than the highest id held, 500 at a time |
| `ChatResync.FailedRefetchLosesMessage` | frontend/src/chat/Chat.tsx:326-359 | one failed refetch and one live frame make such a gap, so whatever happens later the message never comes |
| `ChatResync.UnconfirmedSendIsDoubledIff` | frontend/src/chat/Chat.tsx:347-355 | a send unconfirmed while a refetch is answered ends up listed twice under its id once its echo comes iff the response already holds the stored message |
| `ChatResync.UnconfirmedSendIsDoubled` | frontend/src/chat/Chat.tsx:347-355 | an instance: the first message of a conversation |
| `ChatResync.RunLosesIff` | frontend/src/chat/Chat.tsx:317-359 | what is on its way stays so over a run, and what is not stays lost, up to pushing off |
| `ChatResync.MergeHolds` | frontend/src/chat/Chat.tsx:347-355 | the merge keeps what is held, adds what is missing and makes no duplicate |
| `ChatResync.ArrivalIsReceive` | frontend/src/chat/Chat.tsx:317-321 | the race handles a live frame as the list handler does |
| `ChatResync.LastIdIsHighest` | frontend/src/chat/Chat.tsx:333-337 | the refetch starts from the highest id held |
| `ChatResync.LastIdNeverFalls` | frontend/src/chat/Chat.tsx:333-337 | that id never falls, whatever happens |
| `ChatResync.ResyncView.Ask` | frontend/src/chat/Chat.tsx:333-338 | the reduce computes that id, and none is sent if there is none |
| `ChatResync.ResyncView.Absorb` | frontend/src/chat/Chat.tsx:347-355 | the response is filtered against the list as it is by then and appended |
| `IdleLogout.SignOutFollowsIdealClock` | frontend/src/auth/useIdleLogout.ts:36-77 | for any number of tabs and any run: a tab signs out only if it was idle itself for 30 min and every tab for 30 min less 5 s; it does sign out at any check 30 min after the last activity or mount anywhere; at most once per mount |
| `IdleLogout.ThrottleIsTight` | frontend/src/auth/useIdleLogout.ts:49-55 | the 5 s are really given away: a run in which a tab signs out 29 min 55 s after another tab's activity |
| `IdleLogout.RunStaysClose` | frontend/src/auth/useIdleLogout.ts:36-77 | every tab's clock and the stored one stay within the throttle of the last activity anywhere, over every run |
| `IdleLogout.NotifiedTabWaits` | frontend/src/auth/useIdleLogout.ts:58-63 | a tab told of another tab's activity does not sign out before the limit has passed since, whatever becomes of the stored timestamp |
| `IdleLogout.IdleTimer.constructor` | frontend/src/auth/useIdleLogout.ts:36-47 | mounting counts as activity and is stored |
| `IdleLogout.IdleTimer.Persist` | frontend/src/auth/useIdleLogout.ts:40-46 | writes the shared timestamp |
| `IdleLogout.IdleTimer.Activity` | frontend/src/auth/useIdleLogout.ts:49-55 | own activity is stored only if the last write is more than 5 s old |
| `IdleLogout.IdleTimer.StorageEvent` | frontend/src/auth/useIdleLogout.ts:58-63 | a stored value moves the clock forwards only |
| `IdleLogout.IdleTimer.Poll` | frontend/src/auth/useIdleLogout.ts:65-77 | catches up with the stored value, then signs out at the limit, once |
| `KeyMigration.LegacyAccountKeepsKey` | frontend/src/auth/AuthContext.tsx:231-394 | for an account with legacy key K, every steady interleaving of logins, confirmations, retries, recoveries, reloads and logouts on any number of devices keeps K on the server (blob or envelope), every keystore empty or K, every pending job wrapping K |
| `KeyMigration.LoginEndsIn` | frontend/src/auth/AuthContext.tsx:231-370 | where an undisturbed login ends, on every device and server: a complete keystore settles it at once, the key published and nothing asked; otherwise an envelope on file ends it asking for the words; otherwise the legacy key, or else the generated one, is in the keystore, published, and wrapped by a job, migrating or not |
| `KeyMigration.MigrationCompletes` | frontend/src/auth/AuthContext.tsx:231-394 | a whole migration: after any number of failed confirmations and a successful one, the legacy key is gone from the server but for the envelope |
| `KeyMigration.NewDeviceRecovers` | frontend/src/auth/AuthContext.tsx:251-258 | any other device that then logs in is asked for the words, and with them has the key |
| `KeyMigration.KnownDeviceIsNotAsked` | frontend/src/auth/AuthContext.tsx:583-600 | a device that has the key keeps it over an expired session and a reload, and a login asks it for nothing |
| `KeyMigration.MigrationKeepsKey` | frontend/src/auth/AuthContext.tsx:231-394 | the same from any safe situation |
| `KeyMigration.StepIsSafeIff` | frontend/src/auth/AuthContext.tsx:231-394 | of all steps of all devices, exactly one puts the key at risk: a legacy check that finds nothing, upon which the device sets out to save a generated key |
| `KeyMigration.KeyIsKeptIff` | frontend/src/auth/AuthContext.tsx:231-394 | and the risk is real: the key is kept over any step and one more await of that device iff the step is not that one |
| `KeyMigration.RacingLoginsLoseKey` | frontend/src/auth/AuthContext.tsx:251-361 | two logins on two devices interleaved so that this happens: the only copy of the legacy key is overwritten |
| `KeyMigration.FailedDeleteIsNeverRetried` | frontend/src/auth/AuthContext.tsx:287-299 | once the envelope is on file and no setup is half-way, no later login touches the legacy blob: the comment's retry does not exist |
| `KeyMigration.WordsKeptIff` | frontend/src/auth/AuthContext.tsx:279-394 | the words a user wrote down keep opening the envelope all through a run iff no device uploads a job with other words in it |
| `KeyMigration.StepKeepsWordsIff` | frontend/src/auth/AuthContext.tsx:279-394 | of all steps exactly such an upload makes them worthless |
| `KeyMigration.WordsRecoverIff` | frontend/src/recovery/RecoverPromptModal.tsx:36-60 | words recover the key on a device that asks for them iff the envelope is under these words |
| `KeyMigration.LaterConfirmationOrphansWords` | frontend/src/auth/AuthContext.tsx:279-300 | an instance: if two devices hold wrap jobs and both confirm, the first user's words recover nothing on any device |
| `KeyMigration.LogoutStaysWipedIff` | frontend/src/auth/AuthContext.tsx:620-653 | an explicit logout leaves no key behind, whatever the tab still does before it navigates away, iff no setup was under way that had yet to save one |
| `KeyMigration.EncryptionSetup.BeginSetup` | frontend/src/auth/AuthContext.tsx:235-246 | both halves in the keystore: republish and done; otherwise ask the server |
| `KeyMigration.EncryptionSetup.FetchWrappedKey` | frontend/src/auth/AuthContext.tsx:251-258 | an envelope on file means recovery, a failed fetch ends the setup |
| `KeyMigration.EncryptionSetup.FetchBasicKey` | frontend/src/auth/AuthContext.tsx:264-316 | the legacy key found, or one generated, to be adopted |
| `KeyMigration.EncryptionSetup.AdoptKey` | frontend/src/auth/AuthContext.tsx:273-370 | one await of the adoption: private key saved, public half saved, published, words made and the wrap job pending; whatever throws ends it there |
| `KeyMigration.EncryptionSetup.ConfirmRecovery` | frontend/src/auth/AuthContext.tsx:376-394 | the upload, kept for another try when it fails |
| `KeyMigration.EncryptionSetup.DeleteBasicKey` | frontend/src/auth/AuthContext.tsx:288-299 | the delete after a migration upload; its failure is not fatal and drops the job |
| `KeyMigration.EncryptionSetup.EnterWords` | frontend/src/recovery/RecoverPromptModal.tsx:36-60 | the words open the envelope on file or nothing happens |
| `KeyMigration.EncryptionSetup.LogOut` | frontend/src/auth/AuthContext.tsx:620-625 | wipes the keystore; what runs in the tab goes on |
| `KeyMigration.EncryptionSetup.ReloadPage` | frontend/src/auth/AuthContext.tsx:641-653 | the navigation that follows: memory is gone, the keystore stays as it is |
| `KeyMigration.EncryptionSetup.ExpireSession` | frontend/src/auth/AuthContext.tsx:586-600 | keeps keystore and pending job |
| `RespRoundTrip.ParsesReply` | e2etest/fixtures/global-setup.ts:29-64 | for every nested reply (integers, nulls, errors, CRLF-free simple and bulk strings, arrays) reading its wire form returns its value, or throws the first error in it, and consumes exactly its lines |
| `RespRoundTrip.CommandReadsBackIff` | e2etest/fixtures/global-setup.ts:19-64 | reading an encoded command gives its parts back iff no part contains a CRLF; parts ending in CR or starting with LF are fine |
| `RespRoundTrip.ReadsReply` | e2etest/fixtures/global-setup.ts:34-61 | the same at any line of any input, for any continuation |
| `RespServer.ServerTakesCommand` | e2etest/fixtures/global-setup.ts:19-25 | a server that takes parts by their announced byte length (exactly that many bytes, then CRLF) recovers exactly the parts of an encoded command, with nothing left over, for all parts, line breaks and non-ASCII text included |
| `RespServer.TakesBulk` | e2etest/fixtures/global-setup.ts:21-23 | the same for one bulk string before any further bytes |
| `RespRoundTrip.ReadsPartsIff` | e2etest/fixtures/global-setup.ts:51-56 | an encoded part list is read back iff every part is one line |
| `RespRoundTrip.SplitsOffLine` | e2etest/fixtures/global-setup.ts:31 | splitting at CRLF takes off exactly one CRLF-free line |
| `RespRoundTrip.BreakFollowsLine` | e2etest/fixtures/global-setup.ts:31 | the first break after a line is the one written after it, even if the line ends in CR or the next starts with LF |
| `RespRoundTrip.DecimalReadsBack` | e2etest/fixtures/global-setup.ts:45 | Number reads a printed integer back |
| `Numerals.DigitsReadBack` | e2etest/fixtures/global-setup.ts:20-22 | printed digits are read back |
| `Resp.EncodeCommand` | e2etest/fixtures/global-setup.ts:19-25 | the loop writes the header and each part with its byte length |
| `Resp.Read` | e2etest/fixtures/global-setup.ts:34-61 | reading always advances |
| `Resp.ReadMany` | e2etest/fixtures/global-setup.ts:54-56 | an array has the announced number of items |
| `Resp.ReadManySplits` | e2etest/fixtures/global-setup.ts:54-56 | reading n items is reading m and then the rest, errors included |
| `Resp.ReadNext` | e2etest/fixtures/global-setup.ts:34-61 | the recursive reader with its shared position and pushed array computes the same and ends at the same line |
| `Resp.ParseBytes` | e2etest/fixtures/global-setup.ts:29-64 | the whole reader |
| `RateLimitFlush.FlushRateLimitKeys` | e2etest/fixtures/global-setup.ts:94-110 | the SCAN and DEL loop, for the replies received so far |
| `RateLimitFlush.FlushClears` | e2etest/fixtures/global-setup.ts:94-110 | the commands a complete run has sent, executed on the stored keys while others create more, leave no listed key nobody created again, and every other key |
| `RateLimitFlush.FlushSends` | e2etest/fixtures/global-setup.ts:94-110 | what a run sends is what it had sent so far and what it would send from there |
| `RateLimitFlush.TotalIsExactIff` | e2etest/fixtures/global-setup.ts:96-109 | the reported number is the number of distinct keys iff SCAN listed none twice, and never too low |
| `Utf8.DecodesBack` | frontend/src/aifix/diff.ts:27-34 | UTF-8 decoding undoes encoding for every text |
| `Utf8.TextDecodesBack` | frontend/src/aifix/diff.ts:18-34 | through TextDecoder: the text, less one leading byte order mark |
| `Utf8.OnlyWellFormedIsRead` | frontend/src/aifix/diff.ts:18-21 | the decoder reads a character only from that character's own bytes: no overlong form, surrogate or number beyond the last code point passes |
| `Utf8.CleanTextEncodesBack` | frontend/src/aifix/diff.ts:18-34 | bytes whose text has no replacement character are exactly the encoding of that text |
| `Utf8.CutShortReadsAsOne` | frontend/src/aifix/diff.ts:18-21 | a character cut short reads as one replacement character |
| `Utf8.StrayReadsAsOne` | frontend/src/aifix/diff.ts:18-21 | a byte that can begin no character reads as one |
| `Utf8.ReadsBackChar` | frontend/src/aifix/diff.ts:27-34 | every character is read back from its bytes, whatever follows |
| `Base64.AtobUndoesBtoa` | frontend/src/aifix/diff.ts:18-34 | atob undoes btoa for every byte string |
| `Base64.AtobSkipsSpace` | frontend/src/aifix/diff.ts:18-21 | white space anywhere does not matter to atob |
| `Base64.AtobNeedsNoPadding` | frontend/src/aifix/diff.ts:18-21 | its own padding may be missing |
| `Base64.BytesReadBack` | frontend/src/aifix/diff.ts:18-34 | bytes survive regrouping into sextets and back |
| `Base64.UnpaddedLength` | frontend/src/auth/bootToken.ts:19-20 | the number of padding signs, 0, 1 or 2, follows from the unpadded length, which never is 1 modulo 4 |
| `EditorCodec.ContentReadsBackIff` | frontend/src/aifix/diff.ts:18-34 | decodeContent(encodeContent(t)) = t iff t has no leading byte order mark; otherwise exactly that mark is lost |
| `EditorCodec.BadContentReadsEmpty` | frontend/src/aifix/diff.ts:18-25 | content that is not base64 reads as the empty text |
| `EditorCodec.BuildContent` | frontend/src/aifix/diff.ts:27-34 | the loop turning bytes into characters gives the base64 of the UTF-8 |
| `EditorCodec.SaveIsFaithful` | frontend/src/aifix/AiFixPanel.tsx:155-159 | each edited live file decodes to what the editor showed iff that has no leading mark; deleted and unedited files are unchanged |
| `EditorCodec.SaveLeavesNothingDirtyIff` | frontend/src/aifix/AiFixPanel.tsx:141-162 | against the edits just saved nothing is dirty iff no edit of a live file leads with a mark; with the edits cleared nothing is |
| `EditorCodec.SaveDropsTyping` | frontend/src/aifix/AiFixPanel.tsx:150-162 | from pressing Save to its success with any typing in between: each live file then shows what was on screen at the press (less a leading mark of an edit), and the text on screen at the end survives iff it was not typed since and had no such mark, or equals that |
| `EditorCodec.FailedSaveKeepsTyping` | frontend/src/aifix/AiFixPanel.tsx:160-169 | a refused save changes nothing on screen |
| `EditorCodec.TypingShows` | frontend/src/aifix/AiFixPanel.tsx:309-314 | the editor shows the last text typed for a file |
| `EditorCodec.UndirtyKeptIff` | frontend/src/aifix/AiFixPanel.tsx:141-159 | a save leaves a file that is edited but not dirty as it is iff its content is the encoding of a text without a leading mark |
| `EditorCodec.UndirtyFileIsRewritten` | frontend/src/aifix/AiFixPanel.tsx:141-159 | an instance: a byte that is not UTF-8 is replaced |
| `EditorCodec.NoDirtyPathsMeans` | frontend/src/aifix/AiFixPanel.tsx:141-148 | no path is dirty iff no file is |
| `EditorCodec.DirtyPathsAre` | frontend/src/aifix/AiFixPanel.tsx:141-148 | the dirty paths are those of the dirty files, in their order |
| `EditorCodec.SavesWhenDirty` | frontend/src/aifix/AiFixPanel.tsx:150-162 | a save uploads iff some live file shows something else than is stored, stores what it uploaded, and a second press meanwhile changes nothing |
| `EditorCodec.FixPanel.Type` | frontend/src/aifix/AiFixPanel.tsx:309-314 | typing records the text of the path |
| `EditorCodec.FixPanel.BeginSave` | frontend/src/aifix/AiFixPanel.tsx:150-160 | a save starts iff something is dirty and none is under way |
| `EditorCodec.FixPanel.FinishSave` | frontend/src/aifix/AiFixPanel.tsx:160-169 | success stores the uploaded files and clears all edits; failure keeps both |
| `BootToken.UrlReadsBackIff` | frontend/src/auth/bootToken.ts:17-24 | the decoder recovers a text from the unpadded base64url of its UTF-8 iff it has no leading byte order mark |
| `BootToken.TokenYieldsItsClaims` | frontend/src/auth/bootToken.ts:28-38 | a token over any claims text yields those claims until they expire, whatever header and signature |
| `BootToken.PaddingCompletes` | frontend/src/auth/bootToken.ts:19-20 | padding always completes a multiple of four, with at most two signs iff the length is not 1 modulo 4 |
| `BootToken.NormalizeUndoesUrl` | frontend/src/auth/bootToken.ts:18 | the alphabet mapping undoes the URL-safe one on all base64 text |
| `BootToken.UrlPadsToBtoa` | frontend/src/auth/bootToken.ts:18-20 | normalising and padding a base64url text gives what btoa writes |
| `GetCache.ServedIsCurrent` | frontend/src/api/client.ts:210-238 | in every run in which no mutation is applied while a response is usable from the cache or on its way, whatever is served (cached, shared or fresh) is of the server's version after the last mutation |
| `GetCache.StepIsFreshIff` | frontend/src/api/client.ts:39-47 | of all steps exactly one makes something stale: a mutation applied while a response produced before it is usable from the cache or on its way to a caller |
| `GetCache.FreshIffNoneServedStale` | frontend/src/api/client.ts:214-238 | at any point of any run, nothing is stale in that sense iff no stale response can be served next, at once or after one request settles |
| `GetCache.FreshThroughoutIff` | frontend/src/api/client.ts:39-47 | a run is fresh all along iff it has no such step |
| `GetCache.ApartServesCurrent` | frontend/src/api/client.ts:210-238 | in particular every run in which no GET overlaps a mutation |
| `GetCache.OverlapServesStale` | frontend/src/api/client.ts:39-42 | without that hypothesis it is false: a GET under way across a mutation refills the cache and a later GET, overlapping nothing, is served the old value |
| `GetCache.OneRequestPerKey` | frontend/src/api/client.ts:221-228 | in every run at most one network GET per key is under way |
| `GetCache.EveryCallerIsAnswered` | frontend/src/api/client.ts:221-238 | over every run each caller is in exactly one of waiting, arrived, served and failed; and whoever waits can be served, once its request is answered and settles, whoever else shares it |
| `GetCache.SettlingReachesCallers` | frontend/src/api/client.ts:221-238 | a response brings all callers of its request exactly that response, an error fails exactly them |
| `GetCache.RunAccounts` | frontend/src/api/client.ts:214-238 | the conservation law, over every run |
| `GetCache.HitIff` | frontend/src/api/client.ts:214-235 | after a response was stored, until another is, a mutation begins or a matching invalidation comes, a GET is served it iff it asks for caching and the time to live is not over |
| `GetCache.InvalidatedIsNoHit` | frontend/src/api/client.ts:55-63 | after an invalidation no matching key is a hit until a response is stored for it again, and other keys keep their entries |
| `GetCache.IncludesIff` | frontend/src/api/client.ts:61 | a key matches iff the text is a part of it |
| `GetCache.HitsAreWithinTtl` | frontend/src/api/client.ts:214-235 | after a response was stored for a key, in any run up to the next one stored for it, a hit is that response and comes less than its time to live later |
| `GetCache.NoHitBeforeResponse` | frontend/src/api/client.ts:214-235 | before the first response stored for a key nothing is served from the cache for it |
| `GetCache.SameKeyIff` | frontend/src/api/client.ts:85-87 | two GETs share a key iff they agree on URL and the 401, 404 and 410 flags |
| `GetCache.SharersAgreeIff` | frontend/src/api/client.ts:85-164 | GETs sharing a key want the same treatment of every status iff they agree on 403 and 503, which the key leaves out |
| `GetCache.ApartNeverCatches` | frontend/src/api/client.ts:210-238 | such a run catches nothing |
| `GetCache.RunKeepsSharing` | frontend/src/api/client.ts:221-227 | the sharing table and the requests under way are one to one, over every run |
| `GetCache.ApiClient.Get` | frontend/src/api/client.ts:214-228 | an unexpired hit is served; otherwise the caller joins the request under way or starts one |
| `GetCache.ApiClient.FetchSettled` | frontend/src/api/client.ts:223-228 | settling frees the key and reaches every caller who awaits that request; an error stores nothing |
| `GetCache.ApiClient.GetResumed` | frontend/src/api/client.ts:228-238 | a resumed caller stores an ok response for its own time to live |
| `GetCache.ApiClient.InvalidateGetCache` | frontend/src/api/client.ts:55-63 | drops the entries whose key includes the text, all for an empty one |
| `GetCache.ApiClient.BeginMutation` | frontend/src/api/client.ts:89 | a mutation clears the cache when it starts |
| `LoadCache.HitsAreLatest` | frontend/src/api/cache.ts:13-33 | in every interleaving a hit is the most recently started load of its key, the rejection of that load drops it, that of any older load leaves the store as it is, and once the handlers have run no rejected load is stored |
| `LoadCache.SharedWithinTtlIff` | frontend/src/api/cache.ts:13-29 | a load is shared by every later caller who asks within the time to live it names, and by no other, as long as it is not rejected, invalidated or replaced |
| `LoadCache.InvalidatedLoadsAnew` | frontend/src/api/cache.ts:31-33 | after an invalidation the next caller loads anew, and other keys keep theirs |
| `LoadCache.RunKeepsSound` | frontend/src/api/cache.ts:11-33 | the invariant behind it, over every run |
| `LoadCache.PageCache.GetOrLoad` | frontend/src/api/cache.ts:13-29 | a fresh enough entry is shared, otherwise a new load is started and stored |
| `LoadCache.PageCache.OnRejected` | frontend/src/api/cache.ts:25-27 | evicts the load iff it is still the stored one |
| `LoadCache.PageCache.Drop` | frontend/src/api/cache.ts:31-33 | forgets the key |
| `ReminderAlerts.AlertsAreBounded` | frontend/src/components/ReminderPopups.tsx:208-272 | over any run an item chimes and is shown at most once plus once per snooze of it; a due item not yet shown stays eligible; a dismissed key is never due again |
| `ReminderAlerts.AlertIsExact` | frontend/src/components/ReminderPopups.tsx:223-250 | a key chimes iff it is due and has not chimed since its last snooze, and is shown iff in addition toasts are wanted, it was not shown yet and the browser raises it |
| `ReminderAlerts.TickCatchesUp` | frontend/src/components/ReminderPopups.tsx:157-161 | after a tick an item is due iff the real time is within its lead before and the grace after its time, it was not dismissed and its snooze is over |
| `ReminderAlerts.DismissedIsGone` | frontend/src/components/ReminderPopups.tsx:252-258 | a dismissed item is gone for good, and it alone |
| `ReminderAlerts.SnoozedIsGone` | frontend/src/components/ReminderPopups.tsx:260-272 | a snoozed item goes at once, it alone, and may chime and be shown again |
| `ReminderAlerts.DueAgainIff` | frontend/src/components/ReminderPopups.tsx:208-217 | whatever happens after a snooze, list refreshes and further snoozes included, the item is due exactly if listed with that time at a tick from the end of its last snooze to its time plus the grace and within its lead, and not dismissed |
| `ReminderAlerts.SnoozedReminderNeverReturns` | frontend/src/components/ReminderPopups.tsx:260-272 | with the given constants a snoozed standalone reminder never comes due again with that time, for any snooze options, tick times and list refreshes |
| `ReminderAlerts.ResurfacesIff` | frontend/src/components/ReminderPopups.tsx:208-217 | some tick after the snooze can show the item iff the snooze ends within the grace after its time |
| `ReminderAlerts.KeysNeverCollide` | frontend/src/components/ReminderPopups.tsx:178-195 | reminder and meeting keys never coincide |
| `ReminderAlerts.RunStaysBounded` | frontend/src/components/ReminderPopups.tsx:223-272 | the counting invariant, over every run |
| `ReminderAlerts.SnoozeHolds` | frontend/src/components/ReminderPopups.tsx:260-265 | only another snooze of the item changes when its snooze ends |
| `ReminderAlerts.DueListIs` | frontend/src/components/ReminderPopups.tsx:208-219 | the due list is sorted by time, stably, and holds exactly the due items |
| `ReminderAlerts.ReminderPopups.Due` | frontend/src/components/ReminderPopups.tsx:208-219 | the filter, item by item, and the sort |
| `ReminderAlerts.ReminderPopups.OnDue` | frontend/src/components/ReminderPopups.tsx:223-250 | chimes for the unchimed; toasts only if wanted, and only those that appeared are recorded |
| `ReminderAlerts.ReminderPopups.OnDismiss` | frontend/src/components/ReminderPopups.tsx:252-258 | adds the key |
| `ReminderAlerts.ReminderPopups.OnSnooze` | frontend/src/components/ReminderPopups.tsx:260-272 | sets the end from the real clock and lets the item alert again |
| `ReminderAlerts.ReminderPopups.OnTick` | frontend/src/components/ReminderPopups.tsx:157-161 | the shown time catches up with the clock |

## Left out

- React rendering, effect scheduling, routing and sound: each handler is one step on explicit state, and a chime counts whether or not sound is on.
- The network, WebSocket, WebRTC, getUserMedia, IndexedDB and web storage themselves: they are channels, one shared cell, or success and failure given as parameters.
- Cryptography, mnemonics and the password login wrap (frontend/src/auth/AuthContext.tsx:337-349): keys and envelopes are opaque values.
- JSON, date and time-zone parsing: timestamps are integers, and JSON.parse is a parameter of `BootToken.ParseJwt`.
- resolveBootToken and diffLineClass: storage and URL side effects, and a finite table.
- reset-rate-limits.ts: it repeats the protocol code of global-setup.ts.
- Termination of the SCAN loop, which depends on Redis: a run is given by the replies received so far.
- CallNetwork.QuietCallsMatch: assumes one connection per user and reliable FIFO delivery, and excludes self-calls, lost connections, logouts and closed sockets. Where the relay sees a connection close it tells the peer of a ringing call (handler.rs:242-273), which is not modelled.
- CallNetwork.InviteKeepsLinkedIff: exact for the pair invariant. For the matching the hypothesis on invites is sufficient, and cannot be dropped (`CallNetwork.HastyRedialStrands`); it also excludes, for instance, an invite behind an accept that the peer will ignore.
- CallRelay.OneTabASideStays: one call at a time between the two, from one placing tab; the scope gate lets every signal pass, and no connection opens or closes meanwhile. Audit rows are part of the plan but not of this theorem.
- CallEndpoint.CallSession.TapAccept: one step, although acceptCall awaits; `CallAwaits` splits it, for one answer at a time, and the network theorem is about the one-step form.
- CallEndpoint.CallSession.HandleSignal: one step, although the accept branch awaits media (split in `CallAwaits`) and the offer and answer branches await the remote description (split in `IceBuffer`).
- CallAwaits.AnswerSurvivesIff: a second tap on Accept, or a second accept signal, during an answer is excluded; the caller's offer is made together with its media.
- Error messages shown for media failures, and the remote and local video elements.
- IceBuffer.CandidateBuffer.ApplyRemote: a setRemoteDescription pending on a closed connection never resolves, as WebRTC has it, so no flush starts for it.
- IceBuffer.CandidateBuffer.ContinueFlush: a candidate rejected by the browser still counts as handed over, since the code only logs it.
- ChatFeed.ChatView.Send: what happens before the send leaves (encryption, uploads); the draft it took, already trimmed, is a parameter.
- Reactions, presence, the sidebar summary, decryption and attachments of chat messages; statuses other than the three.
- ChatFeed.ChatView.ShowThread: fetching a thread is atomic with showing it.
- ThreadRuns.PanelShowsItsThread: a reply sent here gets an id that no reply listed before has; replies refused by the server stay in the panel, as the code has no way to remove them.
- ChatRuns.EntriesAddUp: counts a foreign reply once per delivery, as the code does; it equals the number of replies if each is delivered once.
- ChatResync.ResyncHoldsIff: the conversation is not switched meanwhile, and no own send is unconfirmed (`ChatResync.UnconfirmedSendIsDoubledIff` shows why).
- IdleLogout.SignOutFollowsIdealClock: storage works, is not cleared from outside, and the clock does not run backwards.
- KeyMigration.LegacyAccountKeepsKey: fresh registrations, which skip the checks on purpose, are excluded.
- RespRoundTrip.CommandReadsBackIff: Number on anything but decimal integers (hexadecimal, fractions, surrounding blanks) reads as NaN here, and integers are unbounded; neither occurs in what the encoder writes.
- EditorCodec.ContentReadsBackIff: lone surrogates, which are no Unicode scalar values, are not in the domain of texts.
- EditorCodec.FixPanel.FinishSave: polling that replaces the files during a save, and paths that name members of Object.prototype.
- GetCache.SharersAgreeIff: request headers and the token, which the key leaves out too, are not modelled.
- ReminderAlerts.AlertsAreBounded: items have distinct keys, as rows with primary keys do, and a user is signed in; reading the sets back from session storage is left out.
