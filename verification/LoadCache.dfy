/** The promise cache for page loads (cache.ts): concurrent callers share one load, a load is reused for its
    time to live, and a rejected load evicts itself unless a newer one took its place. */
module LoadCache {
  type Key = nat
  type LoadId = nat
  type Time = nat

  datatype Entry = Entry(at: Time, load: LoadId)

  datatype Fate = Pending | Resolved | Rejected | Handled   // Handled: rejected, and its handler has run

  /** `latest` is the most recently started load of each key, `keys` the key of each load. */
  datatype Cache = Cache(
    store: map<Key, Entry>,
    fates: map<LoadId, Fate>,
    keys: map<LoadId, Key>,
    latest: map<Key, LoadId>,
    loads: nat,
    now: Time)

  const EMPTY := Cache(map[], map[], map[], map[], 0, 0)

  /** The cache afterwards and the load whose promise the caller got. */
  datatype Outcome = Outcome(next: Cache, load: LoadId, hit: bool)

  function CachedLoad(c: Cache, key: Key, ttl: nat): Outcome {
    if key in c.store && c.now - c.store[key].at < ttl then Outcome(c, c.store[key].load, true)
    else
      Outcome(Cache(c.store[key := Entry(c.now, c.loads)], c.fates[c.loads := Pending], c.keys[c.loads := key],
                    c.latest[key := c.loads], c.loads + 1, c.now),
              c.loads, false)
  }

  /** The rejection handler of a load. */
  function Evict(c: Cache, load: LoadId): Cache {
    if load !in c.fates || load !in c.keys || c.fates[load] != Rejected then c
    else
      var key := c.keys[load];
      c.(fates := c.fates[load := Handled],
         store := if key in c.store && c.store[key].load == load then c.store - {key} else c.store)
  }

  function Invalidate(c: Cache, key: Key): Cache {
    c.(store := c.store - {key})
  }

  datatype Event =
    | Load(key: Key, ttl: nat) | Settle(load: LoadId, ok: bool) | HandleRejection(load: LoadId)
    | Invalidated(key: Key) | Passed(ms: nat)

  function Step(c: Cache, event: Event): Cache {
    match event
    case Load(key, ttl) => CachedLoad(c, key, ttl).next
    case Settle(load, ok) =>
      if load in c.fates && c.fates[load].Pending?
      then c.(fates := c.fates[load := if ok then Resolved else Rejected]) else c
    case HandleRejection(load) => Evict(c, load)
    case Invalidated(key) => Invalidate(c, key)
    case Passed(ms) => c.(now := c.now + ms)
  }

  function Run(c: Cache, events: seq<Event>): Cache
    decreases |events|
  {
    if events == [] then c else Run(Step(c, events[0]), events[1..])
  }

  class PageCache {
    var store: map<Key, Entry>
    var fates: map<LoadId, Fate>
    var keys: map<LoadId, Key>
    ghost var latest: map<Key, LoadId>
    var loads: nat
    var now: Time

    ghost function Model(): Cache
      reads this
    {
      Cache(store, fates, keys, latest, loads, now)
    }

    constructor ()
      ensures Model() == EMPTY
    {
      store, fates, keys, latest, loads, now := map[], map[], map[], map[], 0, 0;
    }

    method GetOrLoad(key: Key, ttl: nat) returns (load: LoadId, hit: bool)
      modifies this
      ensures Outcome(Model(), load, hit) == CachedLoad(old(Model()), key, ttl)
    {
      if key in store && now - store[key].at < ttl {
        return store[key].load, true;
      }
      load, hit := loads, false;
      loads := loads + 1;
      fates, keys, latest := fates[load := Pending], keys[load := key], latest[key := load];
      store := store[key := Entry(now, load)];
    }

    method OnRejected(load: LoadId)
      modifies this
      ensures Model() == Evict(old(Model()), load)
    {
      if load !in fates || load !in keys || fates[load] != Rejected {
        return;
      }
      fates := fates[load := Handled];
      if keys[load] in store && store[keys[load]].load == load {
        store := store - {keys[load]};
      }
    }

    method Drop(key: Key)
      modifies this
      ensures Model() == Invalidate(old(Model()), key)
    {
      store := store - {key};
    }
  }

  ghost predicate Sound(c: Cache) {
    && (forall id: LoadId :: id in c.fates <==> id < c.loads)
    && (forall id: LoadId :: id in c.keys <==> id < c.loads)
    && (forall id :: id in c.keys ==> c.keys[id] in c.latest)
    && (forall key :: key in c.latest ==> c.latest[key] < c.loads)
    && (forall key :: key in c.store ==>
          && key in c.latest && c.store[key].load == c.latest[key]
          && c.keys[c.store[key].load] == key
          && c.fates[c.store[key].load] != Handled
          && c.store[key].at <= c.now)
  }

  lemma StepKeepsSound(c: Cache, event: Event)
    requires Sound(c)
    ensures Sound(Step(c, event))
  {
  }

  lemma {:induction false} RunKeepsSound(c: Cache, events: seq<Event>)
    requires Sound(c)
    ensures Sound(Run(c, events))
    decreases |events|
  {
    if events != [] {
      StepKeepsSound(c, events[0]);
      RunKeepsSound(Step(c, events[0]), events[1..]);
    }
  }

  /** In every interleaving of loads, settlements, late rejections, invalidations and clock advances: a hit is
      the most recently started load of its key; the rejection handler of that load drops it, and the handler
      of any older load leaves the store as it is; and once the rejection handlers have run no rejected load
      is stored. */
  lemma HitsAreLatest(events: seq<Event>, key: Key, ttl: nat, load: LoadId)
    ensures var c := Run(EMPTY, events);
      && (CachedLoad(c, key, ttl).hit ==> key in c.latest && CachedLoad(c, key, ttl).load == c.latest[key])
      && (load in c.fates && c.fates[load] == Rejected ==>
            && load in c.keys && c.keys[load] in c.latest
            && Evict(c, load).store == if c.latest[c.keys[load]] == load then c.store - {c.keys[load]} else c.store)
      && ((forall id :: id in c.fates ==> c.fates[id] != Rejected) && key in c.store ==>
            c.store[key].load in c.fates && c.fates[c.store[key].load] in {Pending, Resolved})
  {
    RunKeepsSound(EMPTY, events);
  }

  // ----- Time to live -----

  /** The event ends the life of what is stored for the key. */
  predicate Ends(c: Cache, key: Key, event: Event) {
    match event
    case Load(k, ttl) => k == key && !CachedLoad(c, k, ttl).hit
    case HandleRejection(load) => load in c.fates && load in c.keys && c.fates[load] == Rejected && c.keys[load] == key &&
                                  key in c.store && c.store[key].load == load
    case Invalidated(k) => k == key
    case _ => false
  }

  ghost predicate NeverEnds(c: Cache, key: Key, events: seq<Event>)
    decreases |events|
  {
    events != [] ==> !Ends(c, key, events[0]) && NeverEnds(Step(c, events[0]), key, events[1..])
  }

  lemma {:induction false} StoredStays(c: Cache, key: Key, events: seq<Event>)
    requires key in c.store && NeverEnds(c, key, events)
    ensures var c' := Run(c, events); key in c'.store && c'.store[key] == c.store[key]
    decreases |events|
  {
    if events != [] {
      StoredStays(Step(c, events[0]), key, events[1..]);
    }
  }

  /** A load is shared by every later caller who asks within the time to live it names, and by no other, for as
      long as the load is not rejected, invalidated or replaced. */
  lemma SharedWithinTtlIff(c: Cache, key: Key, ttl: nat, events: seq<Event>, later: nat)
    requires !CachedLoad(c, key, ttl).hit && NeverEnds(CachedLoad(c, key, ttl).next, key, events)
    ensures var load, c' := CachedLoad(c, key, ttl).load, Run(CachedLoad(c, key, ttl).next, events);
            var again := CachedLoad(c', key, later);
      && load == c.loads
      && (again.hit <==> c'.now - c.now < later)
      && (again.hit ==> again.load == load && again.next == c')
      && (!again.hit ==> again.load == c'.loads && again.next.store[key] == Entry(c'.now, c'.loads))
  {
    StoredStays(CachedLoad(c, key, ttl).next, key, events);
  }

  /** After an invalidation the next caller loads anew, as the write that caused it requires. */
  lemma InvalidatedLoadsAnew(c: Cache, key: Key, ttl: nat)
    ensures !CachedLoad(Invalidate(c, key), key, ttl).hit
    ensures forall other :: other != key && other in c.store ==>
              other in Invalidate(c, key).store && Invalidate(c, key).store[other] == c.store[other]
  {
  }
}
