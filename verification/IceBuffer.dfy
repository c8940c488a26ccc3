/** Early ICE candidates (useCallSession.ts): buffered until the peer connection has its remote
    description, then flushed one await at a time while further candidates keep arriving. */
module IceBuffer {
  import opened Prelude

  type Candidate = nat

  /** A suspended flush loop: the connection it feeds and what it still has to hand over. */
  datatype Flush = Flush(pc: nat, queue: seq<Candidate>)

  datatype Link = Link(
    pc: Option<nat>,             // the current connection; ids are never reused
    built: nat,                  // connections built so far
    remoteSet: bool,             // the current connection has its remote description
    owed: nat,                   // setRemoteDescription calls resolved whose flush has not begun
    flushed: bool,               // a flush has begun on the current connection
    pending: seq<Candidate>,
    flushes: seq<Flush>,
    received: seq<Candidate>,    // arrived since the current connection was built
    handed: seq<Candidate>)      // given to addIceCandidate of the current connection

  const FRESH := Link(None, 0, false, 0, false, [], [], [], [])

  datatype Event =
    | Built | Arrived(candidate: Candidate) | RemoteApplied | FlushBegun | FlushNext(loop: nat) | TornDown

  function Step(l: Link, event: Event): Link {
    match event
    case Built =>
      l.(pc := Some(l.built), built := l.built + 1, remoteSet := false, owed := 0, flushed := false, received := [], handed := [])
    case Arrived(c) =>
      if l.pc.None? then l
      else if !l.remoteSet then l.(received := l.received + [c], pending := l.pending + [c])
      else l.(received := l.received + [c], handed := l.handed + [c])
    case RemoteApplied => if l.pc.None? then l else l.(remoteSet := true, owed := l.owed + 1)
    case FlushBegun =>
      if l.owed == 0 || l.pc.None? then l
      else l.(owed := l.owed - 1, flushed := true, pending := [],
              flushes := l.flushes + [Flush(l.pc.value, l.pending)])
    case FlushNext(k) =>
      if k >= |l.flushes| || l.flushes[k].queue == [] then l
      else
        var loop := l.flushes[k];
        var rest := l.flushes[k := Flush(loop.pc, loop.queue[1..])];
        l.(flushes := rest, handed := if l.pc == Some(loop.pc) then l.handed + [loop.queue[0]] else l.handed)
    case TornDown =>
      l.(pc := None, remoteSet := false, owed := 0, flushed := false, pending := [], received := [], handed := [])
  }

  function Run(l: Link, events: seq<Event>): Link
    decreases |events|
  {
    if events == [] then l else Run(Step(l, events[0]), events[1..])
  }

  /** A connection is built only where none is held, which `CallEndpoint.Consistent` guarantees. */
  ghost predicate Legal(l: Link, events: seq<Event>)
    decreases |events|
  {
    events != [] ==> (events[0].Built? ==> l.pc.None?) && Legal(Step(l, events[0]), events[1..])
  }

  class CandidateBuffer {
    var pc: Option<nat>
    var built: nat
    var remoteSet: bool
    var owed: nat
    ghost var flushed: bool
    var pending: seq<Candidate>
    var flushes: seq<Flush>
    ghost var received: seq<Candidate>
    ghost var handed: seq<Candidate>

    ghost function Model(): Link
      reads this
    {
      Link(pc, built, remoteSet, owed, flushed, pending, flushes, received, handed)
    }

    constructor ()
      ensures Model() == FRESH
    {
      pc, built, remoteSet, owed, flushed := None, 0, false, 0, false;
      pending, flushes, received, handed := [], [], [], [];
    }

    method Build()
      modifies this
      ensures Model() == Step(old(Model()), Built)
    {
      pc := Some(built);
      built := built + 1;
      remoteSet, owed, flushed, received, handed := false, 0, false, [], [];
    }

    method Arrive(candidate: Candidate)
      modifies this
      ensures Model() == Step(old(Model()), Arrived(candidate))
    {
      if pc.None? {
        return;
      }
      received := received + [candidate];
      if !remoteSet {
        pending := pending + [candidate];
        return;
      }
      handed := handed + [candidate];
    }

    method ApplyRemote()
      modifies this
      ensures Model() == Step(old(Model()), RemoteApplied)
    {
      if pc.Some? {
        remoteSet := true;
        owed := owed + 1;
      }
    }

    method BeginFlush()
      modifies this
      ensures Model() == Step(old(Model()), FlushBegun)
    {
      if owed > 0 && pc.Some? {
        owed := owed - 1;
        var queued := pending;
        pending := [];
        flushes := flushes + [Flush(pc.value, queued)];
        flushed := true;
      }
    }

    method ContinueFlush(loop: nat)
      modifies this
      ensures Model() == Step(old(Model()), FlushNext(loop))
    {
      if loop < |flushes| && flushes[loop].queue != [] {
        var candidate := flushes[loop].queue[0];
        if pc == Some(flushes[loop].pc) {
          handed := handed + [candidate];
        }
        flushes := flushes[loop := Flush(flushes[loop].pc, flushes[loop].queue[1..])];
      }
    }

    method TearDown()
      modifies this
      ensures Model() == Step(old(Model()), TornDown)
    {
      pc := None;
      remoteSet, owed, flushed := false, 0, false;
      pending, received, handed := [], [], [];
    }
  }

  /** What the flush loops still hold for one connection. */
  ghost function Queued(flushes: seq<Flush>, pc: nat): multiset<Candidate> {
    if flushes == [] then multiset{}
    else (if flushes[0].pc == pc then multiset(flushes[0].queue) else multiset{}) + Queued(flushes[1..], pc)
  }

  ghost predicate NoLoop(flushes: seq<Flush>, pc: nat) {
    forall k :: 0 <= k < |flushes| ==> flushes[k].pc != pc
  }

  /** Received = handed over + pending + in the flush loops. */
  ghost predicate Balanced(received: seq<Candidate>, handed: seq<Candidate>, pending: seq<Candidate>,
                           flushes: seq<Flush>, pc: nat) {
    multiset(received) == multiset(handed) + multiset(pending) + Queued(flushes, pc)
  }

  ghost predicate Accounted(l: Link) {
    && (l.pc.None? ==> l.pending == [] && l.received == [] && l.handed == [])
    && (forall k :: 0 <= k < |l.flushes| ==> l.flushes[k].pc < l.built)
    && (l.pc.Some? ==>
          && l.pc.value < l.built
          && Balanced(l.received, l.handed, l.pending, l.flushes, l.pc.value))
    && (!l.remoteSet ==> l.handed == [] && l.owed == 0 && !l.flushed)
    && (!l.remoteSet && l.pc.Some? ==> NoLoop(l.flushes, l.pc.value))
    && (l.remoteSet && l.owed == 0 ==> l.flushed)
    && (l.flushed ==> l.pending == [])
  }

  lemma {:induction false} QueuedAppend(flushes: seq<Flush>, f: Flush, pc: nat)
    ensures Queued(flushes + [f], pc) == Queued(flushes, pc) + if f.pc == pc then multiset(f.queue) else multiset{}
    decreases |flushes|
  {
    if flushes == [] {
      assert (flushes + [f])[1..] == [];
    } else {
      assert (flushes + [f])[1..] == flushes[1..] + [f];
      QueuedAppend(flushes[1..], f, pc);
    }
  }

  lemma {:induction false} QueuedNone(flushes: seq<Flush>, pc: nat)
    requires NoLoop(flushes, pc)
    ensures Queued(flushes, pc) == multiset{}
    decreases |flushes|
  {
    if flushes != [] {
      QueuedNone(flushes[1..], pc);
    }
  }

  lemma {:induction false} QueuedPop(flushes: seq<Flush>, k: nat, pc: nat)
    requires k < |flushes| && flushes[k].queue != []
    ensures var f := flushes[k];
            Queued(flushes, pc) ==
              Queued(flushes[k := Flush(f.pc, f.queue[1..])], pc) + if f.pc == pc then multiset{f.queue[0]} else multiset{}
    decreases |flushes|
  {
    var f := flushes[k];
    var popped := Flush(f.pc, f.queue[1..]);
    if k == 0 {
      assert f.queue == [f.queue[0]] + f.queue[1..];
      assert flushes[0 := popped][1..] == flushes[1..];
    } else {
      assert flushes[k := popped][1..] == flushes[1..][k - 1 := popped];
      QueuedPop(flushes[1..], k - 1, pc);
    }
  }

  lemma FlushBegunKeepsAccounted(l: Link)
    requires Accounted(l)
    ensures Accounted(Step(l, FlushBegun))
  {
    if l.pc.Some? {
      QueuedAppend(l.flushes, Flush(l.pc.value, l.pending), l.pc.value);
    }
  }

  lemma FlushNextBalances(received: seq<Candidate>, handed: seq<Candidate>, pending: seq<Candidate>,
                          flushes: seq<Flush>, k: nat, pc: nat)
    requires k < |flushes| && flushes[k].queue != [] && Balanced(received, handed, pending, flushes, pc)
    ensures var f := flushes[k];
            Balanced(received, if f.pc == pc then handed + [f.queue[0]] else handed, pending,
                     flushes[k := Flush(f.pc, f.queue[1..])], pc)
  {
    QueuedPop(flushes, k, pc);
  }

  lemma FlushNextKeepsAccounted(l: Link, k: nat)
    requires Accounted(l) && k < |l.flushes| && l.flushes[k].queue != []
    ensures Accounted(Step(l, FlushNext(k)))
  {
    if l.pc.Some? {
      FlushNextBalances(l.received, l.handed, l.pending, l.flushes, k, l.pc.value);
    }
  }

  lemma StepKeepsAccounted(l: Link, event: Event)
    requires Accounted(l) && (event.Built? ==> l.pc.None?)
    ensures Accounted(Step(l, event))
  {
    match event
    case Built => QueuedNone(l.flushes, l.built);
    case FlushBegun => FlushBegunKeepsAccounted(l);
    case FlushNext(k) =>
      if k < |l.flushes| && l.flushes[k].queue != [] {
        FlushNextKeepsAccounted(l, k);
      }
    case _ =>
  }

  lemma {:induction false} RunsStayAccounted(l: Link, events: seq<Event>)
    requires Accounted(l) && Legal(l, events)
    ensures Accounted(Run(l, events))
    decreases |events|
  {
    if events != [] {
      StepKeepsAccounted(l, events[0]);
      RunsStayAccounted(Step(l, events[0]), events[1..]);
    }
  }

  /** No candidate is lost or invented: whatever the interleaving, those received since the connection
      was built are those handed over, those pending and those in the flush loops; none is handed over
      before the remote description, and once nothing is under way all of them have been. */
  lemma CandidatesConserved(events: seq<Event>)
    requires Legal(FRESH, events)
    ensures var l := Run(FRESH, events);
      l.pc.Some? ==>
        && multiset(l.received) == multiset(l.handed) + multiset(l.pending) + Queued(l.flushes, l.pc.value)
        && (!l.remoteSet ==> l.handed == [] && multiset(l.pending) == multiset(l.received))
        && (l.remoteSet && l.owed == 0 && Queued(l.flushes, l.pc.value) == multiset{} ==>
              multiset(l.handed) == multiset(l.received))
  {
    RunsStayAccounted(FRESH, events);
    var l := Run(FRESH, events);
    if l.pc.Some? && !l.remoteSet {
      QueuedNone(l.flushes, l.pc.value);
    }
  }

  /** After a flush on a connection the buffer stays empty as long as that connection lives. */
  lemma {:induction false} FlushedBufferStaysEmpty(l: Link, events: seq<Event>)
    requires Accounted(l) && Legal(l, events) && l.flushed && l.pc.Some? && TornDown !in events
    ensures var l' := Run(l, events); l'.pc == l.pc && l'.flushed && l'.pending == []
    decreases |events|
  {
    if events != [] {
      StepKeepsAccounted(l, events[0]);
      FlushedBufferStaysEmpty(Step(l, events[0]), events[1..]);
    }
  }

  // ----- Every candidate gets there -----

  /** All steps left of loop `k`, and of the loops from `k` on. */
  function DrainLoop(k: nat, steps: nat): seq<Event> {
    if steps == 0 then [] else [FlushNext(k)] + DrainLoop(k, steps - 1)
  }

  function DrainFrom(flushes: seq<Flush>, k: nat): seq<Event>
    decreases |flushes| - k
  {
    if k >= |flushes| then [] else DrainLoop(k, |flushes[k].queue|) + DrainFrom(flushes, k + 1)
  }

  lemma {:induction false} RunAppend(l: Link, first: seq<Event>, second: seq<Event>)
    ensures Run(l, first + second) == Run(Run(l, first), second)
    decreases |first|
  {
    if first == [] {
      assert first + second == second;
    } else {
      assert (first + second)[1..] == first[1..] + second;
      RunAppend(Step(l, first[0]), first[1..], second);
    }
  }

  lemma {:induction false} LoopDrains(l: Link, k: nat, steps: nat)
    requires Accounted(l) && k < |l.flushes| && steps == |l.flushes[k].queue|
    ensures var l' := Run(l, DrainLoop(k, steps));
      && Accounted(l') && l'.(flushes := l.flushes, handed := l.handed) == l && |l'.flushes| == |l.flushes|
      && l'.flushes[k] == Flush(l.flushes[k].pc, [])
      && forall j :: 0 <= j < |l.flushes| && j != k ==> l'.flushes[j] == l.flushes[j]
    decreases steps
  {
    if steps > 0 {
      FlushNextKeepsAccounted(l, k);
      assert DrainLoop(k, steps)[1..] == DrainLoop(k, steps - 1);
      LoopDrains(Step(l, FlushNext(k)), k, steps - 1);
    } else {
      assert l.flushes[k] == Flush(l.flushes[k].pc, []);
    }
  }

  lemma {:induction false} AllDrain(l: Link, k: nat)
    requires Accounted(l) && k <= |l.flushes| && forall j :: 0 <= j < k ==> l.flushes[j].queue == []
    ensures var l' := Run(l, DrainFrom(l.flushes, k));
      && Accounted(l') && l'.(flushes := l.flushes, handed := l.handed) == l
      && forall j :: 0 <= j < |l'.flushes| ==> l'.flushes[j].queue == []
    decreases |l.flushes| - k
  {
    if k < |l.flushes| {
      var steps := DrainLoop(k, |l.flushes[k].queue|);
      var l1 := Run(l, steps);
      LoopDrains(l, k, |l.flushes[k].queue|);
      SameDrain(l.flushes, l1.flushes, k + 1);
      AllDrain(l1, k + 1);
      RunAppend(l, steps, DrainFrom(l.flushes, k + 1));
    }
  }

  lemma {:induction false} SameDrain(f: seq<Flush>, g: seq<Flush>, k: nat)
    requires |f| == |g| && forall j :: k <= j < |f| ==> f[j] == g[j]
    ensures DrainFrom(f, k) == DrainFrom(g, k)
    decreases |f| - k
  {
    if k < |f| {
      SameDrain(f, g, k + 1);
    }
  }

  lemma {:induction false} EmptyLoopsHoldNothing(flushes: seq<Flush>, pc: nat)
    requires forall j :: 0 <= j < |flushes| ==> flushes[j].queue == []
    ensures Queued(flushes, pc) == multiset{}
    decreases |flushes|
  {
    if flushes != [] {
      EmptyLoopsHoldNothing(flushes[1..], pc);
    }
  }

  /** No candidate is left behind, and each remote description is followed by one flush: from any reachable point of a connection, once its remote description is
      applied, a flush begins and the loops run out, every candidate received has been handed to it; and a
      candidate that arrives then is handed over at once. */
  lemma EveryCandidateIsHanded(events: seq<Event>, late: Candidate)
    requires Legal(FRESH, events) && Run(FRESH, events).pc.Some?
    ensures var l := Run(FRESH, events);
            var begun := Step(Step(l, RemoteApplied), FlushBegun);
            var done := Run(begun, DrainFrom(begun.flushes, 0));
      && done.pc == l.pc && done.received == l.received && done.owed == l.owed
      && multiset(done.handed) == multiset(l.received) && done.pending == []
      && Step(done, Arrived(late)).handed == done.handed + [late]
  {
    RunsStayAccounted(FRESH, events);
    var l := Run(FRESH, events);
    StepKeepsAccounted(l, RemoteApplied);
    FlushBegunKeepsAccounted(Step(l, RemoteApplied));
    var begun := Step(Step(l, RemoteApplied), FlushBegun);
    AllDrain(begun, 0);
    EmptyLoopsHoldNothing(Run(begun, DrainFrom(begun.flushes, 0)).flushes, l.pc.value);
  }
}
