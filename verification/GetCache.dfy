/** The GET cache of the API client (client.ts): identical concurrent GETs share one request, a response may
    be kept for a short time, and every mutation clears the cache. The server's state is one version
    number, which each mutation moves on. */
module GetCache {
  import opened Prelude

  type Time = nat
  type Key = string
  type CallId = nat
  type FetchId = nat

  /** A response and the server version it was produced from. */
  datatype Response = Response(version: nat, ok: bool)

  datatype Entry = Entry(res: Response, expires: Time)

  /** A caller awaiting a shared request, and one whose request has settled. */
  datatype Waiter = Waiter(fetch: FetchId, key: Key, ttl: nat)
  datatype Arrival = Arrival(key: Key, ttl: nat, res: Response)

  datatype Client = Client(
    cache: map<Key, Entry>,
    inflight: map<Key, FetchId>,
    running: map<FetchId, Key>,      // network requests under way
    waiting: map<CallId, Waiter>,
    arrived: map<CallId, Arrival>,
    fetches: nat, calls: nat)        // ids given out so far

  const IDLE := Client(map[], map[], map[], map[], map[], 0, 0)

  datatype GetOutcome = GetOutcome(next: Client, served: Option<Response>)

  // ----- What each part of apiFetch does -----

  function StartGet(c: Client, key: Key, ttl: nat, now: Time): GetOutcome {
    if ttl > 0 && key in c.cache && c.cache[key].expires > now then GetOutcome(c, Some(c.cache[key].res))
    else
      var id := if key in c.inflight then c.inflight[key] else c.fetches;
      var shared := if key in c.inflight then c
        else c.(inflight := c.inflight[key := id], running := c.running[id := key], fetches := c.fetches + 1);
      GetOutcome(shared.(waiting := c.waiting[c.calls := Waiter(id, key, ttl)], calls := c.calls + 1), None)
  }

  /** A request settles: with a response, or with an error thrown to everyone who awaits it. */
  function Settle(c: Client, id: FetchId, res: Option<Response>): Client {
    if id !in c.running then c
    else
      c.(inflight := c.inflight - {c.running[id]},
         running := c.running - {id},
         waiting := map k | k in c.waiting && c.waiting[k].fetch != id :: c.waiting[k],
         arrived := if res.None? then c.arrived
           else c.arrived + map k | k in c.waiting && c.waiting[k].fetch == id ::
                  Arrival(c.waiting[k].key, c.waiting[k].ttl, res.value))
  }

  function Resume(c: Client, call: CallId, now: Time): GetOutcome {
    if call !in c.arrived then GetOutcome(c, None)
    else
      var a := c.arrived[call];
      GetOutcome(c.(arrived := c.arrived - {call},
                    cache := if a.ttl > 0 && a.res.ok then c.cache[a.key := Entry(a.res, now + a.ttl)] else c.cache),
                 Some(a.res))
  }

  /** String.includes; every string includes the empty one. */
  predicate Includes(s: string, part: string) {
    part <= s || (s != [] && Includes(s[1..], part))
  }

  /** An absent prefix is the empty one. */
  function Invalidate(c: Client, prefix: string): Client {
    c.(cache := map key | key in c.cache && !Includes(key, prefix) :: c.cache[key])
  }

  /** The synchronous start of any non-GET request. */
  function StartMutation(c: Client): Client {
    c.(cache := map[])
  }

  // ----- The same, in place -----

  class ApiClient {
    var getCache: map<Key, Entry>
    var inflightGets: map<Key, FetchId>
    var running: map<FetchId, Key>
    var waiting: map<CallId, Waiter>
    var arrived: map<CallId, Arrival>
    var fetches: nat
    var calls: nat

    ghost function Model(): Client
      reads this
    {
      Client(getCache, inflightGets, running, waiting, arrived, fetches, calls)
    }

    constructor ()
      ensures Model() == IDLE
    {
      getCache, inflightGets, running, waiting, arrived := map[], map[], map[], map[], map[];
      fetches, calls := 0, 0;
    }

    method Get(key: Key, ttl: nat, now: Time) returns (served: Option<Response>)
      modifies this
      ensures GetOutcome(Model(), served) == StartGet(old(Model()), key, ttl, now)
    {
      if ttl > 0 && key in getCache {
        var hit := getCache[key];
        if hit.expires > now {
          return Some(hit.res);
        }
      }
      if key !in inflightGets {
        running := running[fetches := key];
        inflightGets := inflightGets[key := fetches];
        fetches := fetches + 1;
      }
      waiting := waiting[calls := Waiter(inflightGets[key], key, ttl)];
      calls := calls + 1;
      return None;
    }

    method FetchSettled(id: FetchId, res: Option<Response>)
      modifies this
      ensures Model() == Settle(old(Model()), id, res)
    {
      if id !in running {
        return;
      }
      inflightGets := inflightGets - {running[id]};
      running := running - {id};
      if res.Some? {
        arrived := arrived + map k | k in waiting && waiting[k].fetch == id ::
                               Arrival(waiting[k].key, waiting[k].ttl, res.value);
      }
      waiting := map k | k in waiting && waiting[k].fetch != id :: waiting[k];
    }

    method GetResumed(call: CallId, now: Time) returns (served: Option<Response>)
      modifies this
      ensures GetOutcome(Model(), served) == Resume(old(Model()), call, now)
    {
      if call !in arrived {
        return None;
      }
      var a := arrived[call];
      arrived := arrived - {call};
      if a.ttl > 0 && a.res.ok {
        getCache := getCache[a.key := Entry(a.res, now + a.ttl)];
      }
      return Some(a.res);
    }

    method InvalidateGetCache(prefix: string)
      modifies this
      ensures Model() == Invalidate(old(Model()), prefix)
    {
      if prefix == "" {
        getCache := map[];
        assert forall key: Key :: Includes(key, "");
        return;
      }
      getCache := map key | key in getCache && !Includes(key, prefix) :: getCache[key];
    }

    method BeginMutation()
      modifies this
      ensures Model() == StartMutation(old(Model()))
    {
      getCache := map[];
    }
  }

  // ----- Client, server and clock -----

  /** `answers` are responses the server has produced for requests still under way; `begun` mutations have
      not reached the server's state yet, `done` ones have but are not back. */
  datatype World = World(client: Client, now: Time, version: nat, answers: map<FetchId, Response>, begun: nat, done: nat)

  datatype Event =
    | Asked(key: Key, ttl: nat) | ServerRead(fetch: FetchId, ok: bool) | Settled(fetch: FetchId) | FetchFailed(fetch: FetchId)
    | Resumed(call: CallId) | Invalidated(prefix: string)
    | MutationBegun | MutationApplied | MutationEnded | Passed(ms: nat)

  datatype Outcome = Outcome(next: World, served: Option<Response>)

  function Step(w: World, event: Event): Outcome {
    match event
    case Asked(key, ttl) =>
      var o := StartGet(w.client, key, ttl, w.now);
      Outcome(w.(client := o.next), o.served)
    case ServerRead(id, ok) =>
      Outcome(if id in w.client.running then w.(answers := w.answers[id := Response(w.version, ok)]) else w, None)
    case Settled(id) =>
      Outcome(if id in w.client.running && id in w.answers
              then w.(client := Settle(w.client, id, Some(w.answers[id])), answers := w.answers - {id}) else w, None)
    case FetchFailed(id) =>
      Outcome(w.(client := Settle(w.client, id, None), answers := w.answers - {id}), None)
    case Resumed(call) =>
      var o := Resume(w.client, call, w.now);
      Outcome(w.(client := o.next), o.served)
    case Invalidated(prefix) => Outcome(w.(client := Invalidate(w.client, prefix)), None)
    case MutationBegun => Outcome(w.(client := StartMutation(w.client), begun := w.begun + 1), None)
    case MutationApplied =>
      Outcome(if w.begun > 0 then w.(begun := w.begun - 1, done := w.done + 1, version := w.version + 1) else w, None)
    case MutationEnded => Outcome(if w.done > 0 then w.(done := w.done - 1) else w, None)
    case Passed(ms) => Outcome(w.(now := w.now + ms), None)
  }

  function Run(w: World, events: seq<Event>): World
    decreases |events|
  {
    if events == [] then w else Run(Step(w, events[0]).next, events[1..])
  }

  const BOOT := World(IDLE, 0, 0, map[], 0, 0)

  ghost predicate Quiet(c: Client) {
    c.running == map[] && c.waiting == map[] && c.arrived == map[]
  }

  /** No GET overlaps a mutation. */
  ghost predicate Apart(w: World, event: Event) {
    && (event.MutationBegun? ==> Quiet(w.client))
    && (event.Asked? ==> w.begun == 0 && w.done == 0)
  }

  ghost predicate AllApart(w: World, events: seq<Event>)
    decreases |events|
  {
    events != [] ==> Apart(w, events[0]) && AllApart(Step(w, events[0]).next, events[1..])
  }

  /** Requests under way and the sharing table are one to one, whatever overlaps. */
  ghost predicate Sharing(c: Client) {
    && (forall id :: id in c.running ==> id < c.fetches && c.running[id] in c.inflight && c.inflight[c.running[id]] == id)
    && (forall key :: key in c.inflight ==> c.inflight[key] in c.running && c.running[c.inflight[key]] == key)
    && (forall k :: k in c.waiting ==> c.waiting[k].fetch in c.running && c.running[c.waiting[k].fetch] == c.waiting[k].key)
  }

  predicate Usable(w: World, key: Key) {
    key in w.client.cache && w.client.cache[key].expires > w.now
  }

  /** Everything still usable from the cache or on its way to a caller is of the current version. */
  ghost predicate Fresh(w: World) {
    && (forall key :: Usable(w, key) ==> w.client.cache[key].res.version == w.version)
    && (forall k :: k in w.client.arrived ==> w.client.arrived[k].res.version == w.version)
    && (forall id :: id in w.answers ==> w.answers[id].version == w.version)
  }

  predicate Holds(w: World) {
    (exists key :: key in w.client.cache && Usable(w, key)) || w.client.arrived != map[] || w.answers != map[]
  }

  /** A mutation reaches the server's state while a response produced before it is usable or on its way. */
  predicate Catches(w: World, event: Event) {
    event.MutationApplied? && w.begun > 0 && Holds(w)
  }

  ghost predicate NeverCatches(w: World, events: seq<Event>)
    decreases |events|
  {
    events != [] ==> !Catches(w, events[0]) && NeverCatches(Step(w, events[0]).next, events[1..])
  }

  ghost predicate FreshThroughout(w: World, events: seq<Event>)
    decreases |events|
  {
    Fresh(w) && (events != [] ==> FreshThroughout(Step(w, events[0]).next, events[1..]))
  }

  /** What the stricter hypothesis `AllApart` keeps as well. */
  ghost predicate Settling(w: World) {
    && (forall id :: id in w.answers ==> id in w.client.running)
    && (w.begun + w.done > 0 ==> w.client.cache == map[] && Quiet(w.client))
  }

  lemma GetKeepsSharing(c: Client, key: Key, ttl: nat, now: Time)
    requires Sharing(c)
    ensures Sharing(StartGet(c, key, ttl, now).next)
  {
  }

  lemma SettleKeepsSharing(c: Client, id: FetchId, res: Option<Response>)
    requires Sharing(c)
    ensures Sharing(Settle(c, id, res))
  {
  }

  lemma StepKeepsSharing(w: World, event: Event)
    requires Sharing(w.client)
    ensures Sharing(Step(w, event).next.client)
  {
    match event
    case Asked(key, ttl) => GetKeepsSharing(w.client, key, ttl, w.now);
    case Settled(id) =>
      if id in w.answers {
        SettleKeepsSharing(w.client, id, Some(w.answers[id]));
      }
    case FetchFailed(id) => SettleKeepsSharing(w.client, id, None);
    case _ =>
  }

  /** Exactly which step makes something stale: a mutation applied while a response is usable or on its way. */
  lemma StepIsFreshIff(w: World, event: Event)
    requires Fresh(w)
    ensures Fresh(Step(w, event).next) <==> !Catches(w, event)
  {
    if Catches(w, event) {
      if exists key :: key in w.client.cache && Usable(w, key) {
        var key :| key in w.client.cache && Usable(w, key);
        assert Usable(Step(w, event).next, key);
      } else if w.client.arrived != map[] {
        var k :| k in w.client.arrived;
        assert k in Step(w, event).next.client.arrived;
      } else {
        var id :| id in w.answers;
        assert id in Step(w, event).next.answers;
      }
    }
  }

  lemma FreshServesCurrent(w: World, event: Event)
    requires Fresh(w)
    ensures Step(w, event).served.Some? ==> Step(w, event).served.value.version == w.version
  {
  }

  /** A run is fresh all along exactly when no step of it catches anything. */
  lemma {:induction false} FreshThroughoutIff(w: World, events: seq<Event>)
    requires Fresh(w)
    ensures FreshThroughout(w, events) <==> NeverCatches(w, events)
    ensures NeverCatches(w, events) ==> Fresh(Run(w, events))
    decreases |events|
  {
    if events != [] {
      StepIsFreshIff(w, events[0]);
      if !Catches(w, events[0]) {
        FreshThroughoutIff(Step(w, events[0]).next, events[1..]);
      }
    }
  }

  /** Every request under way has a caller waiting for it, and every answer a request. */
  ghost predicate Tended(w: World) {
    && (forall id :: id in w.client.running ==> exists k :: k in w.client.waiting && w.client.waiting[k].fetch == id)
    && (forall id :: id in w.answers ==> id in w.client.running)
    && (forall k :: k in w.client.waiting ==> k < w.client.calls)
  }

  lemma AskedStaysTended(w: World, key: Key, ttl: nat)
    requires Tended(w) && Sharing(w.client)
    ensures Tended(Step(w, Asked(key, ttl)).next)
  {
    var c, c' := w.client, Step(w, Asked(key, ttl)).next.client;
    forall id | id in c'.running
      ensures exists k :: k in c'.waiting && c'.waiting[k].fetch == id
    {
      if id in c.running {
        var k :| k in c.waiting && c.waiting[k].fetch == id;
        assert k in c'.waiting && c'.waiting[k] == c.waiting[k];
      } else {
        assert c.calls in c'.waiting;
      }
    }
  }

  lemma SettledStaysTended(w: World, id: FetchId, res: Option<Response>)
    requires Tended(w) && Sharing(w.client) && id in w.client.running
    ensures Tended(w.(client := Settle(w.client, id, res), answers := w.answers - {id}))
  {
    var c, c' := w.client, Settle(w.client, id, res);
    forall other | other in c'.running
      ensures exists k :: k in c'.waiting && c'.waiting[k].fetch == other
    {
      var k :| k in c.waiting && c.waiting[k].fetch == other;
      assert k in c'.waiting && c'.waiting[k] == c.waiting[k];
    }
  }

  lemma StepStaysTended(w: World, event: Event)
    requires Tended(w) && Sharing(w.client)
    ensures Tended(Step(w, event).next)
  {
    match event
    case Asked(key, ttl) => AskedStaysTended(w, key, ttl);
    case Settled(id) =>
      if id in w.client.running && id in w.answers {
        SettledStaysTended(w, id, Some(w.answers[id]));
      }
    case FetchFailed(id) =>
      if id in w.client.running {
        SettledStaysTended(w, id, None);
      } else {
        assert id !in w.answers && w.answers - {id} == w.answers;
      }
    case _ =>
  }

  lemma {:induction false} RunStaysTended(w: World, events: seq<Event>)
    requires Tended(w) && Sharing(w.client)
    ensures Tended(Run(w, events))
    decreases |events|
  {
    if events != [] {
      StepKeepsSharing(w, events[0]);
      StepStaysTended(w, events[0]);
      RunStaysTended(Step(w, events[0]).next, events[1..]);
    }
  }

  /** After at most one more event of the client, a stale response is served. */
  ghost predicate ServesStale(w: World, first: seq<Event>, last: Event) {
    && |first| <= 1 && (forall e :: e in first ==> e.Settled?)
    && Step(Run(w, first), last).served.Some? && Step(Run(w, first), last).served.value.version != w.version
  }

  lemma StaleIsServed(w: World) returns (first: seq<Event>, last: Event)
    requires Tended(w) && !Fresh(w)
    ensures ServesStale(w, first, last)
  {
    if key: Key :| Usable(w, key) && w.client.cache[key].res.version != w.version {
      first, last := [], Asked(key, 1);
    } else if k: CallId :| k in w.client.arrived && w.client.arrived[k].res.version != w.version {
      first, last := [], Resumed(k);
    } else {
      var id :| id in w.answers && w.answers[id].version != w.version;
      var k :| k in w.client.waiting && w.client.waiting[k].fetch == id;
      first, last := [Settled(id)], Resumed(k);
      var w' := Step(w, Settled(id)).next;
      assert k in w'.client.arrived && w'.client.arrived[k].res == w.answers[id];
      assert Run(w, first) == Run(w', []) == w';
    }
  }

  /** At any point of any run: nothing usable or on its way is stale exactly if no stale response can be served
      next, be it at once or after one request settles. */
  lemma FreshIffNoneServedStale(before: seq<Event>)
    ensures var w := Run(BOOT, before);
            Fresh(w) <==> forall first, last :: !ServesStale(w, first, last)
  {
    var w := Run(BOOT, before);
    RunKeepsSharing(BOOT, before);
    RunStaysTended(BOOT, before);
    if !Fresh(w) {
      var first, last := StaleIsServed(w);
    } else {
      forall first: seq<Event>, last: Event | |first| <= 1 && forall e :: e in first ==> e.Settled?
        ensures !ServesStale(w, first, last)
      {
        if first != [] {
          assert first[0] in first && first == [first[0]];
          StepIsFreshIff(w, first[0]);
          assert Run(w, first) == Step(w, first[0]).next;
        }
        FreshServesCurrent(Run(w, first), last);
      }
    }
  }

  lemma StepKeepsSettling(w: World, event: Event)
    requires Settling(w) && Sharing(w.client) && Apart(w, event)
    ensures Settling(Step(w, event).next) && !Catches(w, event)
  {
  }

  lemma {:induction false} RunKeepsSharing(w: World, events: seq<Event>)
    requires Sharing(w.client)
    ensures Sharing(Run(w, events).client)
    decreases |events|
  {
    if events != [] {
      StepKeepsSharing(w, events[0]);
      RunKeepsSharing(Step(w, events[0]).next, events[1..]);
    }
  }

  lemma {:induction false} ApartNeverCatches(w: World, events: seq<Event>)
    requires Settling(w) && Sharing(w.client) && AllApart(w, events)
    ensures NeverCatches(w, events)
    decreases |events|
  {
    if events != [] {
      StepKeepsSharing(w, events[0]);
      StepKeepsSettling(w, events[0]);
      ApartNeverCatches(Step(w, events[0]).next, events[1..]);
    }
  }

  /** In every run in which no mutation is applied while a response is usable or on its way (overlaps that
      catch nothing are fine), whatever is served next (cached, shared or fresh) is what the server holds after
      the last mutation, as a direct fetch would give. */
  lemma ServedIsCurrent(events: seq<Event>, event: Event)
    requires NeverCatches(BOOT, events)
    ensures var w := Run(BOOT, events);
            Step(w, event).served.Some? ==> Step(w, event).served.value.version == w.version
  {
    FreshThroughoutIff(BOOT, events);
    FreshServesCurrent(Run(BOOT, events), event);
  }

  /** In particular in every run in which no GET overlaps a mutation. */
  lemma ApartServesCurrent(events: seq<Event>, event: Event)
    requires AllApart(BOOT, events)
    ensures NeverCatches(BOOT, events)
    ensures var w := Run(BOOT, events);
            Step(w, event).served.Some? ==> Step(w, event).served.value.version == w.version
  {
    ApartNeverCatches(BOOT, events);
    ServedIsCurrent(events, event);
  }

  /** In every run at all, at most one network GET per key is under way. */
  lemma OneRequestPerKey(events: seq<Event>, a: FetchId, b: FetchId)
    ensures var running := Run(BOOT, events).client.running;
            a in running && b in running && running[a] == running[b] ==> a == b
  {
    RunKeepsSharing(BOOT, events);
  }

  /** A GET that is under way while a mutation runs puts its old response into the cache, and a later GET,
      which overlaps nothing, is served it: the cache is stale past a mutation. */
  const OVERLAPPING := [Asked("k", 100), ServerRead(0, true), MutationBegun, MutationApplied, MutationEnded]
  const AFTERWARDS := [Settled(0), Resumed(0)]

  lemma OverlapServesStale()
    ensures var w := Run(Run(BOOT, OVERLAPPING), AFTERWARDS);
      && Quiet(w.client) && w.begun == 0 && w.done == 0 && w.version == 1
      && Step(w, Asked("k", 100)).served == Some(Response(0, true))
  {
    var w1 := Step(BOOT, OVERLAPPING[0]).next;
    assert w1.client == Client(map[], map["k" := 0], map[0 := "k"], map[0 := Waiter(0, "k", 100)], map[], 1, 1);
    var w2 := Step(w1, OVERLAPPING[1]).next;
    assert w2.answers == map[0 := Response(0, true)];
    var w5 := Step(Step(Step(w2, OVERLAPPING[2]).next, OVERLAPPING[3]).next, OVERLAPPING[4]).next;
    assert Run(BOOT, OVERLAPPING) == Run(w2, OVERLAPPING[2..]) == w5;
    var w6 := Step(w5, AFTERWARDS[0]).next;
    assert w6.client.arrived == map[0 := Arrival("k", 100, Response(0, true))];
    assert w6.client.waiting == map[] && w6.client.running == map[];
    var w7 := Step(w6, AFTERWARDS[1]).next;
    assert w7.client.arrived == map[];
    assert Run(w5, AFTERWARDS) == w7;
  }

  // ----- Time to live -----

  /** No caller stores a response for `key` in the course of the run. */
  ghost predicate StoresNothing(w: World, events: seq<Event>, key: Key)
    decreases |events|
  {
    events != [] ==>
      && !(events[0].Resumed? && events[0].call in w.client.arrived &&
           w.client.arrived[events[0].call].key == key && Stores(w.client.arrived[events[0].call]))
      && StoresNothing(Step(w, events[0]).next, events[1..], key)
  }

  predicate Stores(a: Arrival) {
    a.ttl > 0 && a.res.ok
  }

  ghost predicate HoldsAtMost(c: Client, key: Key, entry: Option<Entry>) {
    key in c.cache ==> Some(c.cache[key]) == entry
  }

  lemma StepStoresNothing(w: World, event: Event, key: Key, entry: Option<Entry>)
    requires HoldsAtMost(w.client, key, entry) && StoresNothing(w, [event], key)
    ensures HoldsAtMost(Step(w, event).next.client, key, entry) && w.now <= Step(w, event).next.now
  {
  }

  lemma {:induction false} EntryStays(w: World, events: seq<Event>, key: Key, entry: Option<Entry>)
    requires HoldsAtMost(w.client, key, entry) && StoresNothing(w, events, key)
    ensures HoldsAtMost(Run(w, events).client, key, entry)
    ensures w.now <= Run(w, events).now
    decreases |events|
  {
    if events != [] {
      StepStoresNothing(w, events[0], key, entry);
      EntryStays(Step(w, events[0]).next, events[1..], key, entry);
    }
  }

  /** After a response was stored for a key, in any run up to the next one stored for it, a hit is that
      response and comes less than its time to live later. */
  lemma HitsAreWithinTtl(w: World, call: CallId, events: seq<Event>, ttl: nat)
    requires call in w.client.arrived && Stores(w.client.arrived[call])
    requires StoresNothing(Step(w, Resumed(call)).next, events, w.client.arrived[call].key)
    ensures var a, after := w.client.arrived[call], Run(Step(w, Resumed(call)).next, events);
            var served := Step(after, Asked(a.key, ttl)).served;
            served.Some? ==> served.value == a.res && after.now < w.now + a.ttl
  {
    var a := w.client.arrived[call];
    EntryStays(Step(w, Resumed(call)).next, events, a.key, Some(Entry(a.res, w.now + a.ttl)));
  }

  /** Before the first one, nothing is a hit. */
  lemma NoHitBeforeResponse(events: seq<Event>, key: Key, ttl: nat)
    requires StoresNothing(BOOT, events, key)
    ensures Step(Run(BOOT, events), Asked(key, ttl)).served == None
  {
    EntryStays(BOOT, events, key, None);
  }

  /** Whether the event empties the cache of the key. */
  predicate Drops(event: Event, key: Key) {
    event.MutationBegun? || (event.Invalidated? && Includes(key, event.prefix))
  }

  lemma {:induction false} EntryIsKept(w: World, events: seq<Event>, key: Key)
    requires key in w.client.cache && StoresNothing(w, events, key) && forall e :: e in events ==> !Drops(e, key)
    ensures var c := Run(w, events).client; key in c.cache && c.cache[key] == w.client.cache[key]
    ensures w.now <= Run(w, events).now
    decreases |events|
  {
    if events != [] {
      assert events[0] in events && forall e :: e in events[1..] ==> e in events;
      StepKeepsEntry(w, events[0], key);
      EntryIsKept(Step(w, events[0]).next, events[1..], key);
    }
  }

  lemma StepKeepsEntry(w: World, event: Event, key: Key)
    requires key in w.client.cache && StoresNothing(w, [event], key) && !Drops(event, key)
    ensures var c := Step(w, event).next.client; key in c.cache && c.cache[key] == w.client.cache[key]
    ensures w.now <= Step(w, event).next.now
  {
  }

  /** After a response was stored for a key, and as long as no other is stored, no mutation begins and no
      matching invalidation comes, a GET that asks for caching is served it exactly until its time to live is
      over; a GET that does not is never served from the cache. */
  lemma HitIff(w: World, call: CallId, events: seq<Event>, ttl: nat)
    requires call in w.client.arrived && Stores(w.client.arrived[call])
    requires StoresNothing(Step(w, Resumed(call)).next, events, w.client.arrived[call].key)
    requires forall e :: e in events ==> !Drops(e, w.client.arrived[call].key)
    ensures var a, after := w.client.arrived[call], Run(Step(w, Resumed(call)).next, events);
            Step(after, Asked(a.key, ttl)).served == if ttl > 0 && after.now < w.now + a.ttl then Some(a.res) else None
  {
    EntryIsKept(Step(w, Resumed(call)).next, events, w.client.arrived[call].key);
  }

  lemma {:induction false} IncludesIff(s: string, part: string)
    ensures Includes(s, part) <==> exists before, after :: s == before + part + after
    decreases |s|
  {
    if part <= s {
      assert s == [] + part + s[|part|..];
    } else if s != [] {
      IncludesIff(s[1..], part);
      if Includes(s[1..], part) {
        var before: string, after: string :| s[1..] == before + part + after;
        assert s == [s[0]] + before + part + after;
      }
      forall before: string, after: string | s == before + part + after
        ensures Includes(s[1..], part)
      {
        assert before == [] ==> s == part + after;
        assert s[1..] == before[1..] + part + after;
      }
    } else {
      assert forall before: string, after: string :: |before + part + after| == |before| + |part| + |after|;
    }
  }

  /** After an invalidation no matching key is a hit until a response is stored for it again; other keys keep
      their entries. */
  lemma InvalidatedIsNoHit(w: World, prefix: string, events: seq<Event>, key: Key, ttl: nat)
    requires StoresNothing(Step(w, Invalidated(prefix)).next, events, key)
    ensures Includes(key, prefix) ==> Step(Run(Step(w, Invalidated(prefix)).next, events), Asked(key, ttl)).served == None
    ensures !Includes(key, prefix) ==>
              var c, c' := w.client.cache, Step(w, Invalidated(prefix)).next.client.cache;
              (key in c <==> key in c') && (key in c ==> c'[key] == c[key])
  {
    if Includes(key, prefix) {
      EntryStays(Step(w, Invalidated(prefix)).next, events, key, None);
    }
  }

  // ----- Every caller is answered -----

  /** How the callers ended so far: with which response, or with the error of their request. */
  datatype Tally = Tally(served: map<CallId, Response>, failed: set<CallId>)

  /** The callers of a request. */
  function CallersOf(c: Client, id: FetchId): set<CallId> {
    set k | k in c.waiting && c.waiting[k].fetch == id
  }

  function Tallied(t: Tally, w: World, event: Event): Tally {
    match event
    case FetchFailed(id) => if id in w.client.running then t.(failed := t.failed + CallersOf(w.client, id)) else t
    case Resumed(call) =>
      var served := Step(w, event).served;
      if served.Some? then t.(served := t.served[call := served.value]) else t
    case _ => t
  }

  function Account(t: Tally, w: World, events: seq<Event>): Tally
    decreases |events|
  {
    if events == [] then t else Account(Tallied(t, w, events[0]), Step(w, events[0]).next, events[1..])
  }

  /** Each call id given out is in exactly one place: waiting, arrived, served or failed. */
  ghost predicate Accounted(c: Client, t: Tally) {
    && (forall k: CallId :: k < c.calls <==> k in c.waiting || k in c.arrived || k in t.served || k in t.failed)
    && c.waiting.Keys !! c.arrived.Keys !! t.served.Keys !! t.failed
  }

  /** A request that settles with a response brings all of its callers exactly that response; all others go on
      as before, and the callers of a failed one are gone, they alone. */
  lemma SettlingReachesCallers(c: Client, id: FetchId, res: Option<Response>, k: CallId)
    requires id in c.running && k in c.waiting
    ensures var c' := Settle(c, id, res);
      if c.waiting[k].fetch == id then
        && k !in c'.waiting
        && (res.Some? ==> k in c'.arrived && c'.arrived[k] == Arrival(c.waiting[k].key, c.waiting[k].ttl, res.value))
        && (res.None? ==> c'.arrived == c.arrived)
      else k in c'.waiting && c'.waiting[k] == c.waiting[k]
  {
  }

  lemma SettlingAccounts(c: Client, t: Tally, id: FetchId, res: Option<Response>)
    requires Accounted(c, t) && id in c.running
    ensures Accounted(Settle(c, id, res), if res.Some? then t else t.(failed := t.failed + CallersOf(c, id)))
  {
  }

  lemma StepAccounts(w: World, t: Tally, event: Event)
    requires Accounted(w.client, t)
    ensures Accounted(Step(w, event).next.client, Tallied(t, w, event))
  {
    match event
    case Settled(id) =>
      if id in w.client.running && id in w.answers {
        SettlingAccounts(w.client, t, id, Some(w.answers[id]));
      }
    case FetchFailed(id) =>
      if id in w.client.running {
        SettlingAccounts(w.client, t, id, None);
      }
    case _ =>
  }

  lemma {:induction false} RunAccounts(w: World, t: Tally, events: seq<Event>)
    requires Accounted(w.client, t)
    ensures Accounted(Run(w, events).client, Account(t, w, events))
    decreases |events|
  {
    if events != [] {
      StepAccounts(w, t, events[0]);
      RunAccounts(Step(w, events[0]).next, Tallied(t, w, events[0]), events[1..]);
    }
  }

  /** In every run, no caller is lost and none is answered twice; and whoever still waits can be answered: once
      its request is answered and settles, it is served what the server then held, whoever else shares it. */
  lemma EveryCallerIsAnswered(events: seq<Event>, k: CallId, ok: bool)
    ensures Accounted(Run(BOOT, events).client, Account(Tally(map[], {}), BOOT, events))
    ensures var w := Run(BOOT, events);
            k in w.client.waiting ==>
              var id := w.client.waiting[k].fetch;
              var settled := Step(Step(w, ServerRead(id, ok)).next, Settled(id)).next;
              && id in w.client.running && w.client.running[id] == w.client.waiting[k].key
              && Step(settled, Resumed(k)).served == Some(Response(w.version, ok))
  {
    RunAccounts(BOOT, Tally(map[], {}), events);
    RunKeepsSharing(BOOT, events);
  }

  // ----- The cache key -----

  datatype Flags = Flags(p401: bool, p404: bool, p410: bool, p403: bool, p503: bool)

  function Bit(b: bool): string {
    if b then "1" else "0"
  }

  function CacheKey(url: string, f: Flags): string {
    "GET " + url + "|" + Bit(f.p401) + Bit(f.p404) + Bit(f.p410)
  }

  /** Whether a status is handed back to the caller rather than thrown. */
  predicate HandedBack(status: nat, f: Flags) {
    status != 401 && (
      || (status == 404 && f.p404) || (status == 410 && f.p410) || (status == 403 && f.p403) || (status == 503 && f.p503)
      || 200 <= status < 300)
  }

  /** A key is the URL between a fixed head and three digits. */
  lemma KeyParts(url: string, f: Flags)
    ensures var k := CacheKey(url, f);
            |k| == |url| + 8 && k[4..|k| - 4] == url &&
            k[|k| - 3..] == [if f.p401 then '1' else '0', if f.p404 then '1' else '0', if f.p410 then '1' else '0']
  {
  }

  lemma SameKeyIff(url1: string, f: Flags, url2: string, g: Flags)
    ensures CacheKey(url1, f) == CacheKey(url2, g) <==> url1 == url2 && f.p401 == g.p401 && f.p404 == g.p404 && f.p410 == g.p410
  {
    KeyParts(url1, f);
    KeyParts(url2, g);
    if CacheKey(url1, f) == CacheKey(url2, g) {
      var tail1 := [if f.p401 then '1' else '0', if f.p404 then '1' else '0', if f.p410 then '1' else '0'];
      var tail2 := [if g.p401 then '1' else '0', if g.p404 then '1' else '0', if g.p410 then '1' else '0'];
      assert tail1[0] == tail2[0] && tail1[1] == tail2[1] && tail1[2] == tail2[2];
    }
  }

  /** Two GETs that share one request want the same treatment of every status exactly when they agree on
      403 and 503, which the key leaves out. */
  lemma SharersAgreeIff(url: string, f: Flags, g: Flags)
    requires CacheKey(url, f) == CacheKey(url, g)
    ensures (forall status :: HandedBack(status, f) == HandedBack(status, g)) <==> f.p403 == g.p403 && f.p503 == g.p503
  {
    SameKeyIff(url, f, url, g);
    assert HandedBack(403, f) == f.p403 && HandedBack(403, g) == g.p403;
    assert HandedBack(503, f) == f.p503 && HandedBack(503, g) == g.p503;
  }
}
