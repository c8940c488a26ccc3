/** The signaling relay (call/handler.rs): which of a user's connections a signal reaches, and one call played
    over it between the placing tab and any number of the callee's tabs. */
module CallRelay {
  import opened Prelude
  import opened CallEndpoint
  import opened CallNetwork

  type ConnId = nat

  // ----- plan_signal -----

  datatype CallInfo = CallInfo(
    caller: UserId, callee: UserId, connected: bool,
    callerConn: ConnId,            // the connection that placed the call
    calleeConn: Option<ConnId>)    // the connection that answered

  type Calls = map<(UserId, UserId), CallInfo>

  datatype Route = AllOf(user: UserId) | Conn(user: UserId, conn: ConnId) | Nowhere

  datatype Plan = Plan(forward: Route, cancelMyOthers: bool, cancelMe: bool, audit: Option<string>)

  datatype Planned = Planned(calls: Calls, plan: Plan)

  function CallKey(a: UserId, b: UserId): (UserId, UserId) {
    if a <= b then (a, b) else (b, a)
  }

  function Forward(route: Route): Plan {
    Plan(route, false, false, None)
  }

  function RouteTo(info: CallInfo, peer: UserId): Route {
    if peer == info.caller then Conn(peer, info.callerConn)
    else if info.calleeConn.Some? then Conn(peer, info.calleeConn.value)
    else AllOf(peer)
  }

  predicate IsMyConn(info: CallInfo, me: UserId, conn: ConnId) {
    if me == info.caller then info.callerConn == conn else info.calleeConn.None? || info.calleeConn.value == conn
  }

  function OutcomeWhenEnded(info: CallInfo): string {
    if info.connected then "completed" else "missed"
  }

  function PlanSignal(calls: Calls, me: UserId, conn: ConnId, signal: Signal, peer: UserId): Planned {
    var key := CallKey(me, peer);
    if signal.Invite? then
      Planned(calls[key := CallInfo(me, peer, false, conn, None)], Forward(AllOf(peer)))
    else if key !in calls then Planned(calls, Forward(AllOf(peer)))
    else
      var info := calls[key];
      if signal.AcceptCall? && me == info.callee then
        if info.calleeConn.None? then
          var bound := info.(calleeConn := Some(conn), connected := true);
          Planned(calls[key := bound], Plan(RouteTo(bound, peer), true, false, None))
        else if info.calleeConn.value == conn then Planned(calls, Forward(RouteTo(info, peer)))
        else Planned(calls, Plan(Nowhere, false, true, None))
      else if signal.RejectCall? || signal.CancelCall? || signal.EndCall? then
        if !IsMyConn(info, me, conn) then Planned(calls, Forward(Nowhere))
        else
          Planned(calls - {key},
                  Plan(RouteTo(info, peer), me == info.callee && info.calleeConn.None?, false,
                       Some(if signal.RejectCall? then "rejected" else OutcomeWhenEnded(info))))
      else if IsMyConn(info, me, conn) then Planned(calls, Forward(RouteTo(info, peer)))
      else Planned(calls, Forward(Nowhere))
  }

  class Relay {
    var calls: Calls

    constructor ()
      ensures calls == map[]
    {
      calls := map[];
    }

    method Handle(me: UserId, conn: ConnId, signal: Signal, peer: UserId) returns (plan: Plan)
      modifies this
      ensures Planned(calls, plan) == PlanSignal(old(calls), me, conn, signal, peer)
    {
      var key := CallKey(me, peer);
      if signal.Invite? {
        calls := calls[key := CallInfo(me, peer, false, conn, None)];
        return Forward(AllOf(peer));
      }
      if key !in calls {
        return Forward(AllOf(peer));
      }
      var info := calls[key];
      if signal.AcceptCall? && me == info.callee {
        if info.calleeConn.None? {
          info := info.(calleeConn := Some(conn), connected := true);
          calls := calls[key := info];
          return Plan(RouteTo(info, peer), true, false, None);
        }
        if info.calleeConn.value == conn {
          return Forward(RouteTo(info, peer));
        }
        return Plan(Nowhere, false, true, None);
      }
      if signal.RejectCall? || signal.CancelCall? || signal.EndCall? {
        if !IsMyConn(info, me, conn) {
          return Forward(Nowhere);
        }
        var outcome := if signal.RejectCall? then "rejected" else OutcomeWhenEnded(info);
        var others := me == info.callee && info.calleeConn.None?;
        calls := calls - {key};
        return Plan(RouteTo(info, peer), others, false, Some(outcome));
      }
      if IsMyConn(info, me, conn) {
        return Forward(RouteTo(info, peer));
      }
      return Forward(Nowhere);
    }
  }

  /** Once answered, a call is between two connections: signals other than a new invite reach the peer exactly
      if they come from one of them, and then reach exactly the other one; and only one of them can end it. */
  lemma AnsweredCallIsPrivate(calls: Calls, me: UserId, conn: ConnId, signal: Signal, peer: UserId)
    requires CallKey(me, peer) in calls && calls[CallKey(me, peer)].calleeConn.Some? && me != peer && !signal.Invite?
    requires var info := calls[CallKey(me, peer)]; {me, peer} == {info.caller, info.callee}
    ensures var info, p := calls[CallKey(me, peer)], PlanSignal(calls, me, conn, signal, peer);
            var mine, theirs := if me == info.caller then info.callerConn else info.calleeConn.value,
                                if me == info.caller then info.calleeConn.value else info.callerConn;
      && p.plan.forward == (if conn == mine then Conn(peer, theirs) else Nowhere)
      && (conn != mine ==> p.calls == calls)
      && (p.calls != calls ==> signal in {RejectCall, CancelCall, EndCall})
  {
  }

  // ----- Auditing -----

  datatype Sent = Sent(me: UserId, conn: ConnId, signal: Signal, peer: UserId)

  /** The relay after a run, the audit rows written, and the tracked calls a new invite has overwritten. */
  datatype Books = Books(calls: Calls, audits: seq<string>, overwritten: nat)

  function Booked(b: Books, s: Sent): Books {
    var p := PlanSignal(b.calls, s.me, s.conn, s.signal, s.peer);
    Books(p.calls, if p.plan.audit.Some? then b.audits + [p.plan.audit.value] else b.audits,
          b.overwritten + if s.signal.Invite? && CallKey(s.me, s.peer) in b.calls then 1 else 0)
  }

  function Keep(b: Books, sent: seq<Sent>): Books
    decreases |sent|
  {
    if sent == [] then b else Keep(Booked(b, sent[0]), sent[1..])
  }

  function Invites(sent: seq<Sent>): nat {
    if sent == [] then 0 else (if sent[0].signal.Invite? then 1 else 0) + Invites(sent[1..])
  }

  /** A tracked call counts as connected exactly once it is answered. */
  ghost predicate Truthful(calls: Calls) {
    forall key :: key in calls ==> (calls[key].connected <==> calls[key].calleeConn.Some?)
  }

  lemma {:induction false} BooksAddUp(b: Books, sent: seq<Sent>)
    requires Truthful(b.calls)
    ensures var b' := Keep(b, sent);
            Truthful(b'.calls) &&
            |b'.calls| + |b'.audits| + b'.overwritten == |b.calls| + |b.audits| + b.overwritten + Invites(sent)
    decreases |sent|
  {
    if sent != [] {
      BookedAddsUp(b, sent[0]);
      BooksAddUp(Booked(b, sent[0]), sent[1..]);
    }
  }

  lemma PlanKeys(calls: Calls, s: Sent)
    ensures var p, key := PlanSignal(calls, s.me, s.conn, s.signal, s.peer), CallKey(s.me, s.peer);
            if s.signal.Invite? then p.calls.Keys == calls.Keys + {key} && p.plan.audit.None?
            else if p.plan.audit.Some? then key in calls && p.calls.Keys == calls.Keys - {key}
            else p.calls.Keys == calls.Keys
  {
  }

  lemma PlanStaysTruthful(calls: Calls, s: Sent)
    requires Truthful(calls)
    ensures Truthful(PlanSignal(calls, s.me, s.conn, s.signal, s.peer).calls)
  {
  }

  lemma BookedAddsUp(b: Books, s: Sent)
    requires Truthful(b.calls)
    ensures var b' := Booked(b, s);
      && Truthful(b'.calls)
      && |b'.calls| + |b'.audits| + b'.overwritten == |b.calls| + |b.audits| + b.overwritten + (if s.signal.Invite? then 1 else 0)
  {
    var key, b' := CallKey(s.me, s.peer), Booked(b, s);
    PlanKeys(b.calls, s);
    PlanStaysTruthful(b.calls, s);
    assert |b'.calls| == |b'.calls.Keys| && |b.calls| == |b.calls.Keys|;
    if s.signal.Invite? && key in b.calls {
      assert b.calls.Keys + {key} == b.calls.Keys;
    }
  }

  /** Every call placed is still tracked, or has exactly one audit row, or was overwritten by a new invite between
      the same two before it ended, and then has none. */
  lemma EveryCallIsAuditedOnce(sent: seq<Sent>)
    ensures var b := Keep(Books(map[], [], 0), sent);
            Invites(sent) == |b.calls| + |b.audits| + b.overwritten
  {
    BooksAddUp(Books(map[], [], 0), sent);
  }

  /** What the row says: rejected if it was, completed if it had been answered, missed otherwise. */
  lemma AuditSaysHowItEnded(calls: Calls, me: UserId, conn: ConnId, signal: Signal, peer: UserId)
    requires Truthful(calls)
    ensures var p, key := PlanSignal(calls, me, conn, signal, peer), CallKey(me, peer);
      && (p.plan.audit.Some? <==> key in calls && key !in p.calls)
      && (p.plan.audit.Some? ==>
            p.plan.audit.value ==
              if signal.RejectCall? then "rejected" else if calls[key].calleeConn.Some? then "completed" else "missed")
  {
  }

  // ----- One call, many tabs -----

  /** A tab's view of the other user, the signals it has sent to the relay and those on their way back to it. */
  datatype Side = Side(view: View, up: seq<Tag>, down: seq<Tag>)

  /** The caller's placing tab, and the callee's tabs. The caller's other tabs only ever see stray broadcasts,
      which an endpoint that is not engaged ignores. */
  datatype World = World(calls: Calls, caller: Side, tabs: map<ConnId, Side>)

  /** Who calls whom, from which connection. */
  datatype Cast = Cast(a: UserId, b: UserId, placing: ConnId)

  /** A tab acts or hears with a new view and what it sends, as far as its handlers allow. */
  datatype Event =
    | CallerActs(view: View, out: seq<Tag>) | CallerHears(view: View, out: seq<Tag>) | CallerRelayed
    | TabActs(tab: ConnId, view: View, out: seq<Tag>) | TabHears(tab: ConnId, view: View, out: seq<Tag>)
    | TabRelayed(tab: ConnId)

  function SignalOf(tag: Tag): Signal {
    match tag
    case Inv => Invite(Audio)
    case Acc => AcceptCall
    case Rej => RejectCall
    case Can => CancelCall
    case Fin => EndCall
  }

  function Heard(s: Side, tag: Tag): Side {
    s.(down := s.down + [tag])
  }

  function Acted(s: Side, view: View, out: seq<Tag>): Side {
    Side(view, s.up + out, s.down)
  }

  function Heeded(s: Side, view: View, out: seq<Tag>): Side {
    if s.down == [] then s else Side(view, s.up + out, s.down[1..])
  }

  function Relayed(s: Side): Side {
    if s.up == [] then s else s.(up := s.up[1..])
  }

  /** The relay takes the caller's next signal. */
  function CallerRelays(c: Cast, w: World): World {
    if w.caller.up == [] then w
    else
      var tag := w.caller.up[0];
      var p := PlanSignal(w.calls, c.a, c.placing, SignalOf(tag), c.b);
      World(p.calls, Relayed(w.caller), map t | t in w.tabs :: FromCaller(c, p.plan, tag, t, w.tabs[t]))
  }

  function FromCaller(c: Cast, plan: Plan, tag: Tag, t: ConnId, s: Side): Side {
    if plan.forward == AllOf(c.b) || plan.forward == Conn(c.b, t) then Heard(s, tag) else s
  }

  /** The relay takes the next signal of the callee's tab `from`. */
  function TabRelays(c: Cast, w: World, from: ConnId): World {
    if from !in w.tabs || w.tabs[from].up == [] then w
    else
      var tag := w.tabs[from].up[0];
      var p := PlanSignal(w.calls, c.b, from, SignalOf(tag), c.a);
      World(p.calls, FromTab(c, p.plan, tag, w.caller), map t | t in w.tabs :: AmongTabs(p.plan, from, t, w.tabs[t]))
  }

  function FromTab(c: Cast, plan: Plan, tag: Tag, s: Side): Side {
    if plan.forward == AllOf(c.a) || plan.forward == Conn(c.a, c.placing) then Heard(s, tag) else s
  }

  function AmongTabs(plan: Plan, from: ConnId, t: ConnId, s: Side): Side {
    if t == from then if plan.cancelMe then Heard(Relayed(s), Can) else Relayed(s)
    else if plan.cancelMyOthers then Heard(s, Can)
    else s
  }

  function Step(c: Cast, w: World, event: Event): World {
    match event
    case CallerActs(view, out) => w.(caller := Acted(w.caller, view, out))
    case CallerHears(view, out) => w.(caller := Heeded(w.caller, view, out))
    case CallerRelayed => CallerRelays(c, w)
    case TabActs(t, view, out) => if t in w.tabs then w.(tabs := w.tabs[t := Acted(w.tabs[t], view, out)]) else w
    case TabHears(t, view, out) => if t in w.tabs then w.(tabs := w.tabs[t := Heeded(w.tabs[t], view, out)]) else w
    case TabRelayed(t) => TabRelays(c, w, t)
  }

  /** Acts and answers are those of the endpoint's handlers (`CallNetwork.LocalActs`, `SignalConsumes`); nobody
      places another call between the two. */
  ghost predicate MayAct(s: Side, view: View, out: seq<Tag>) {
    Acts(s.view, s.down, s.up, view, out) && !(s.view == Away && view == Ringing)
  }

  ghost predicate MayHear(s: Side, view: View, out: seq<Tag>) {
    s.down != [] ==> Consumes(s.view, s.down[0], view, out)
  }

  ghost predicate Allowed(w: World, event: Event) {
    match event
    case CallerActs(view, out) => MayAct(w.caller, view, out)
    case CallerHears(view, out) => MayHear(w.caller, view, out)
    case TabActs(t, view, out) => t in w.tabs ==> MayAct(w.tabs[t], view, out)
    case TabHears(t, view, out) => t in w.tabs ==> MayHear(w.tabs[t], view, out)
    case _ => true
  }

  ghost predicate AllAllowed(c: Cast, w: World, events: seq<Event>)
    decreases |events|
  {
    events != [] ==> Allowed(w, events[0]) && AllAllowed(c, Step(c, w, events[0]), events[1..])
  }

  function Run(c: Cast, w: World, events: seq<Event>): World
    decreases |events|
  {
    if events == [] then w else Run(c, Step(c, w, events[0]), events[1..])
  }

  /** The call has just been placed; whatever the relay tracked for the two before is overwritten. */
  function Placed(calls: Calls, tabs: set<ConnId>): World {
    World(calls, Side(Ringing, [Inv], []), map t | t in tabs :: Side(Away, [], []))
  }

  // ----- What each tab can be in -----

  datatype Phase = Placing | Waiting | Taken(tab: ConnId) | Over

  function PhaseOf(c: Cast, w: World): Phase {
    if Inv in w.caller.up then Placing
    else if CallKey(c.a, c.b) !in w.calls then Over
    else if w.calls[CallKey(c.a, c.b)].calleeConn.None? then Waiting
    else Taken(w.calls[CallKey(c.a, c.b)].calleeConn.value)
  }

  ghost predicate Is(s: Side, view: View, up: seq<Tag>, down: seq<Tag>) {
    s.view == view && s.up == up && s.down == down
  }

  ghost predicate CallerFits(phase: Phase, s: Side) {
    match phase
    case Placing => Is(s, Ringing, [Inv], []) || Is(s, Away, [Inv, Can], [])
    case Waiting => Is(s, Ringing, [], []) || Is(s, Away, [Can], [])
    case Taken(_) =>
      || Is(s, Ringing, [], [Acc]) || Is(s, Away, [Can], [Acc]) || Is(s, Away, [Can], [])
      || Is(s, Talking, [], []) || Is(s, Away, [Fin], [])
    case Over => Inv !in s.up && Inv !in s.down && s.view != Rung && (s.view == Away || Closing(s.down))
  }

  /** Out of the call, or about to be told so. */
  ghost predicate Leaving(s: Side) {
    && InviteFirst(s.down) && Inv !in s.up && s.view != Ringing
    && ((s.view == Away && Inv !in s.down) || Closing(s.down))
  }

  ghost predicate TabFits(phase: Phase, t: ConnId, s: Side) {
    match phase
    case Placing => Is(s, Away, [], [])
    case Waiting =>
      || Is(s, Away, [], [Inv]) || Is(s, Rung, [], []) || Is(s, Talking, [Acc], [])
      || Is(s, Away, [Rej], []) || Is(s, Away, [Fin], []) || Is(s, Away, [Acc, Fin], [])
    case Taken(x) => if t == x then Is(s, Talking, [], []) || Is(s, Away, [Fin], []) else Leaving(s)
    case Over => Leaving(s)
  }

  ghost predicate Fits(c: Cast, w: World) {
    var phase := PhaseOf(c, w);
    && (phase.Waiting? || phase.Taken? ==>
          var info := w.calls[CallKey(c.a, c.b)];
          info.caller == c.a && info.callee == c.b && info.callerConn == c.placing)
    && (phase.Taken? ==> phase.tab in w.tabs)
    && CallerFits(phase, w.caller)
    && forall t :: t in w.tabs ==> TabFits(phase, t, w.tabs[t])
  }

  lemma CallerMoves(phase: Phase, s: Side, view: View, out: seq<Tag>)
    requires CallerFits(phase, s)
    ensures MayAct(s, view, out) ==>
              CallerFits(phase, Acted(s, view, out)) && (Inv in Acted(s, view, out).up <==> Inv in s.up)
    ensures MayHear(s, view, out) ==>
              CallerFits(phase, Heeded(s, view, out)) && (Inv in Heeded(s, view, out).up <==> Inv in s.up)
  {
    if out == [] {
      assert s.up + out == s.up;
    }
    if s.down != [] {
      assert s.down == [s.down[0]] + s.down[1..];
    }
  }

  lemma LeavingMoves(s: Side, view: View, out: seq<Tag>)
    requires Leaving(s)
    ensures MayAct(s, view, out) ==> Leaving(Acted(s, view, out))
    ensures MayHear(s, view, out) ==> Leaving(Heeded(s, view, out))
  {
    if s.down != [] {
      assert s.down == [s.down[0]] + s.down[1..];
    }
  }

  lemma TabMoves(phase: Phase, t: ConnId, s: Side, view: View, out: seq<Tag>)
    requires TabFits(phase, t, s)
    ensures MayAct(s, view, out) ==> TabFits(phase, t, Acted(s, view, out))
    ensures MayHear(s, view, out) ==> TabFits(phase, t, Heeded(s, view, out))
  {
    if phase.Over? || (phase.Taken? && phase.tab != t) {
      LeavingMoves(s, view, out);
    } else if out == [] {
      assert s.up + out == s.up;
    }
  }

  /** A tab that may be in the call leaves it once it is told to. */
  lemma ToldLeaves(phase: Phase, t: ConnId, s: Side, tag: Tag)
    requires TabFits(phase, t, s) && !phase.Placing? && tag in {Rej, Can, Fin}
    ensures Leaving(Heard(s, tag))
  {
    assert (s.down + [tag])[|s.down|] == tag;
  }

  /** What the relay makes of a signal of the placing tab, by phase. */
  lemma CallerPlan(c: Cast, w: World)
    requires c.a != c.b && Fits(c, w) && w.caller.up != []
    ensures var phase, tag, key := PhaseOf(c, w), w.caller.up[0], CallKey(c.a, c.b);
            var p, phase' := PlanSignal(w.calls, c.a, c.placing, SignalOf(tag), c.b), PhaseOf(c, CallerRelays(c, w));
            match phase
            case Placing =>
              && tag == Inv && p.plan.forward == AllOf(c.b) && phase' == Waiting
              && p.calls == w.calls[key := CallInfo(c.a, c.b, false, c.placing, None)]
            case Waiting => tag == Can && p.plan.forward == AllOf(c.b) && phase' == Over
            case Taken(x) => tag in {Can, Fin} && p.plan.forward == Conn(c.b, x) && phase' == Over
            case Over => tag != Inv && p.plan.forward == AllOf(c.b) && phase' == Over
  {
    assert w.caller.up == [w.caller.up[0]] + w.caller.up[1..];
  }

  lemma RungFits(c: Cast, w: World, t: ConnId)
    requires c.a != c.b && Fits(c, w) && w.caller.up != [] && t in w.tabs
    ensures TabFits(PhaseOf(c, CallerRelays(c, w)), t, CallerRelays(c, w).tabs[t])
  {
    CallerPlan(c, w);
    var phase, tag, s := PhaseOf(c, w), w.caller.up[0], w.tabs[t];
    assert TabFits(phase, t, s);
    if !phase.Placing? {
      if tag in {Rej, Can, Fin} {
        ToldLeaves(phase, t, s, tag);
      } else {
        StrayIsHarmless(s, tag);
      }
    }
  }

  lemma StrayIsHarmless(s: Side, tag: Tag)
    requires Leaving(s) && tag != Inv
    ensures Leaving(Heard(s, tag))
  {
  }

  lemma CallerRelaysFits(c: Cast, w: World)
    requires c.a != c.b && Fits(c, w) && w.caller.up != []
    ensures Fits(c, CallerRelays(c, w))
  {
    var w' := CallerRelays(c, w);
    CallerPlan(c, w);
    assert w.caller.up == [w.caller.up[0]] + w.caller.up[1..];
    assert CallerFits(PhaseOf(c, w'), w'.caller);
    forall t | t in w'.tabs
      ensures TabFits(PhaseOf(c, w'), t, w'.tabs[t])
    {
      RungFits(c, w, t);
    }
  }

  /** What the relay makes of a signal of the callee's tab `from`, by phase. */
  lemma TabPlan(c: Cast, w: World, from: ConnId)
    requires c.a != c.b && Fits(c, w) && from in w.tabs && w.tabs[from].up != []
    ensures var phase, tag, key := PhaseOf(c, w), w.tabs[from].up[0], CallKey(c.a, c.b);
            var p := PlanSignal(w.calls, c.b, from, SignalOf(tag), c.a);
            match phase
            case Placing => false
            case Waiting =>
              && p.plan.forward == Conn(c.a, c.placing) && p.plan.cancelMyOthers && !p.plan.cancelMe && tag in {Acc, Rej, Fin}
              && p.calls == if tag == Acc then w.calls[key := w.calls[key].(calleeConn := Some(from), connected := true)]
                            else w.calls - {key}
            case Taken(x) =>
              if from == x then
                tag == Fin && p.calls == w.calls - {key} && p.plan.(audit := None) == Forward(Conn(c.a, c.placing))
              else p.calls == w.calls && p.plan.forward == Nowhere && !p.plan.cancelMyOthers
            case Over => p.calls == w.calls && p.plan == Forward(AllOf(c.a)) && tag != Inv
  {
    assert TabFits(PhaseOf(c, w), from, w.tabs[from]);
    assert w.tabs[from].up[0] in w.tabs[from].up;
  }

  /** A tab that is busy, in a call with somebody else, rejects at once, and that ends the ringing on all the
      others. */
  lemma BusyTabEndsRinging(c: Cast, w: World, from: ConnId)
    requires c.a != c.b && Fits(c, w) && PhaseOf(c, w) == Waiting && from in w.tabs && w.tabs[from].view == Away
    requires w.tabs[from].down == [Inv]
    ensures Allowed(w, TabHears(from, Away, [Rej]))
    ensures var w' := TabRelays(c, Step(c, w, TabHears(from, Away, [Rej])), from);
      && PhaseOf(c, w') == Over && w'.caller == Heard(w.caller, Rej)
      && forall t :: t in w.tabs && t != from ==> w'.tabs[t] == Heard(w.tabs[t], Can)
  {
    var heard := Step(c, w, TabHears(from, Away, [Rej]));
    assert TabFits(Waiting, from, w.tabs[from]);
    StepFits(c, w, TabHears(from, Away, [Rej]));
    TabPlan(c, heard, from);
  }

  lemma CallerHears(c: Cast, w: World, from: ConnId)
    requires c.a != c.b && Fits(c, w) && from in w.tabs && w.tabs[from].up != []
    ensures CallerFits(PhaseOf(c, TabRelays(c, w, from)), TabRelays(c, w, from).caller)
  {
    TabPlan(c, w, from);
    var tag := w.tabs[from].up[0];
    assert (w.caller.down + [tag])[|w.caller.down|] == tag;
  }

  lemma SpeakerFits(c: Cast, w: World, from: ConnId)
    requires c.a != c.b && Fits(c, w) && from in w.tabs && w.tabs[from].up != []
    ensures TabFits(PhaseOf(c, TabRelays(c, w, from)), from, TabRelays(c, w, from).tabs[from])
  {
    TabPlan(c, w, from);
    var s := w.tabs[from];
    assert TabFits(PhaseOf(c, w), from, s) && s.up == [s.up[0]] + s.up[1..];
    if PlanSignal(w.calls, c.b, from, SignalOf(s.up[0]), c.a).plan.cancelMe {
      ToldLeaves(PhaseOf(c, w), from, s, Can);
    }
  }

  lemma ListenerFits(c: Cast, w: World, from: ConnId, t: ConnId)
    requires c.a != c.b && Fits(c, w) && {from, t} <= w.tabs.Keys && from != t && w.tabs[from].up != []
    ensures TabFits(PhaseOf(c, TabRelays(c, w, from)), t, TabRelays(c, w, from).tabs[t])
  {
    TabPlan(c, w, from);
    assert TabFits(PhaseOf(c, w), t, w.tabs[t]);
    ToldLeaves(PhaseOf(c, w), t, w.tabs[t], Can);
  }

  lemma TabRelaysFits(c: Cast, w: World, from: ConnId)
    requires c.a != c.b && Fits(c, w) && from in w.tabs && w.tabs[from].up != []
    ensures Fits(c, TabRelays(c, w, from))
  {
    var w' := TabRelays(c, w, from);
    TabPlan(c, w, from);
    CallerHears(c, w, from);
    forall t | t in w'.tabs
      ensures TabFits(PhaseOf(c, w'), t, w'.tabs[t])
    {
      if t == from {
        SpeakerFits(c, w, from);
      } else {
        ListenerFits(c, w, from, t);
      }
    }
  }

  lemma TabMovesFits(c: Cast, w: World, t: ConnId, s: Side)
    requires Fits(c, w) && t in w.tabs && TabFits(PhaseOf(c, w), t, s)
    ensures Fits(c, w.(tabs := w.tabs[t := s]))
  {
    assert PhaseOf(c, w.(tabs := w.tabs[t := s])) == PhaseOf(c, w);
  }

  lemma CallerMovesFits(c: Cast, w: World, s: Side)
    requires Fits(c, w) && CallerFits(PhaseOf(c, w), s) && (Inv in s.up <==> Inv in w.caller.up)
    ensures Fits(c, w.(caller := s))
  {
    assert PhaseOf(c, w.(caller := s)) == PhaseOf(c, w);
  }

  lemma StepFits(c: Cast, w: World, event: Event)
    requires c.a != c.b && Fits(c, w) && Allowed(w, event)
    ensures Fits(c, Step(c, w, event))
  {
    match event
    case CallerActs(view, out) =>
      CallerMoves(PhaseOf(c, w), w.caller, view, out);
      CallerMovesFits(c, w, Acted(w.caller, view, out));
    case CallerHears(view, out) =>
      CallerMoves(PhaseOf(c, w), w.caller, view, out);
      CallerMovesFits(c, w, Heeded(w.caller, view, out));
    case CallerRelayed =>
      if w.caller.up != [] {
        CallerRelaysFits(c, w);
      }
    case TabActs(t, view, out) =>
      if t in w.tabs {
        TabMoves(PhaseOf(c, w), t, w.tabs[t], view, out);
        TabMovesFits(c, w, t, Acted(w.tabs[t], view, out));
      }
    case TabHears(t, view, out) =>
      if t in w.tabs {
        TabMoves(PhaseOf(c, w), t, w.tabs[t], view, out);
        TabMovesFits(c, w, t, Heeded(w.tabs[t], view, out));
      }
    case TabRelayed(t) =>
      if t in w.tabs && w.tabs[t].up != [] {
        TabRelaysFits(c, w, t);
      }
  }

  lemma {:induction false} RunFits(c: Cast, w: World, events: seq<Event>)
    requires c.a != c.b && Fits(c, w) && AllAllowed(c, w, events)
    ensures Fits(c, Run(c, w, events))
    decreases |events|
  {
    if events != [] {
      StepFits(c, w, events[0]);
      RunFits(c, Step(c, w, events[0]), events[1..]);
    }
  }

  predicate Quiet(w: World) {
    w.caller.up == [] && w.caller.down == [] && forall t :: t in w.tabs ==> w.tabs[t].up == [] && w.tabs[t].down == []
  }

  /** For a call placed to any number of tabs, with any of them accepting, rejecting or busy and the caller
      cancelling in any interleaving: whenever no signal is in flight, either the call still rings, on every
      tab; or the placing tab talks to exactly one tab, the one the relay has bound, and all others are out of
      it; or everybody is out of it. */
  lemma OneTabASideStays(c: Cast, calls: Calls, tabs: set<ConnId>, events: seq<Event>)
    requires c.a != c.b && AllAllowed(c, Placed(calls, tabs), events)
    ensures var w := Run(c, Placed(calls, tabs), events);
      Quiet(w) ==>
        match PhaseOf(c, w)
        case Placing => false
        case Waiting => w.caller.view == Ringing && forall t :: t in w.tabs ==> w.tabs[t].view == Rung
        case Taken(x) =>
          && w.caller.view == Talking && x in w.tabs
          && forall t :: t in w.tabs ==> w.tabs[t].view == if t == x then Talking else Away
        case Over => w.caller.view == Away && forall t :: t in w.tabs ==> w.tabs[t].view == Away
  {
    var w := Run(c, Placed(calls, tabs), events);
    RunFits(c, Placed(calls, tabs), events);
    if Quiet(w) {
      forall t | t in w.tabs
        ensures TabFits(PhaseOf(c, w), t, w.tabs[t]) && w.tabs[t].up == [] && w.tabs[t].down == []
      {
      }
    }
  }
}
