/** Idle sign-out shared by all tabs of a browser (useIdleLogout.ts): each tab keeps its own clock and
    reconciles it with one stored timestamp, which tabs write at most every few seconds. Times are in
    milliseconds; the browser clock does not run backwards. */
module IdleLogout {
  type Time = nat
  type TabId = nat

  const IDLE_LIMIT_MS: nat := 30 * 60 * 1000
  const WRITE_THROTTLE_MS: nat := 5_000

  /** One mounted effect: its local variables. */
  datatype Tab = Tab(last: Time, lastWrite: Time, firedOnce: bool)

  // ----- What each callback does -----

  /** The callback's effect on its own variables, on the stored timestamp, and whether it signs out. */
  datatype Effect = Effect(tab: Tab, stored: Time, fired: bool)

  function Mounted(now: Time): Effect {
    Effect(Tab(now, 0, false), now, false)
  }

  function MarkActive(tab: Tab, stored: Time, now: Time): Effect {
    if now - tab.lastWrite > WRITE_THROTTLE_MS then Effect(tab.(last := now, lastWrite := now), now, false)
    else Effect(tab.(last := now), stored, false)
  }

  function OnStorage(tab: Tab, value: Time): Tab {
    if value > tab.last then tab.(last := value) else tab
  }

  function Check(tab: Tab, stored: Time, now: Time): Effect {
    var caughtUp := OnStorage(tab, stored);
    if !caughtUp.firedOnce && now - caughtUp.last >= IDLE_LIMIT_MS
    then Effect(caughtUp.(firedOnce := true), stored, true)
    else Effect(caughtUp, stored, false)
  }

  // ----- The callbacks, in place -----

  /** localStorage's activity entry. */
  class ActivityCell {
    var stored: Time

    constructor (stored: Time)
      ensures this.stored == stored
    {
      this.stored := stored;
    }
  }

  class IdleTimer {
    const cell: ActivityCell
    var last: Time
    var lastWrite: Time
    var firedOnce: bool

    ghost function Model(): Tab
      reads this
    {
      Tab(last, lastWrite, firedOnce)
    }

    constructor (cell: ActivityCell, now: Time)
      modifies cell
      ensures this.cell == cell
      ensures Effect(Model(), cell.stored, false) == Mounted(now)
    {
      this.cell := cell;
      last, lastWrite, firedOnce := now, 0, false;
      new;
      Persist(now);
    }

    method Persist(t: Time)
      modifies cell
      ensures cell.stored == t
    {
      cell.stored := t;
    }

    method Activity(now: Time)
      modifies this, cell
      ensures Effect(Model(), cell.stored, false) == MarkActive(old(Model()), old(cell.stored), now)
    {
      last := now;
      if last - lastWrite > WRITE_THROTTLE_MS {
        lastWrite := last;
        Persist(last);
      }
    }

    method StorageEvent(value: Time)
      modifies this
      ensures Model() == OnStorage(old(Model()), value)
    {
      if value > last {
        last := value;
      }
    }

    method Poll(now: Time) returns (fired: bool)
      modifies this
      ensures Effect(Model(), cell.stored, fired) == Check(old(Model()), old(cell.stored), now)
    {
      fired := false;
      if cell.stored > last {
        last := cell.stored;
      }
      if !firedOnce && now - last >= IDLE_LIMIT_MS {
        firedOnce := true;
        fired := true;
      }
    }
  }

  // ----- Many tabs -----

  datatype Event =
    | Passed(ms: nat) | Opened(tab: TabId) | Closed(tab: TabId)
    | Moved(tab: TabId)                      // an activity event
    | Notified(tab: TabId, value: Time)      // a storage event, however late
    | Polled(tab: TabId)

  /** `anywhere` and `own` are the ideal clocks: the last activity or mount in any tab, and in each tab;
      `writes` are the values ever stored, `fires` counts the sign-outs of each mount. */
  datatype Browser = Browser(
    now: Time, stored: Time, tabs: map<TabId, Tab>,
    anywhere: Time, own: map<TabId, Time>, writes: set<Time>, fires: map<TabId, nat>)

  function Apply(b: Browser, id: TabId, e: Effect): Browser {
    b.(tabs := b.tabs[id := e.tab], stored := e.stored, writes := b.writes + {e.stored})
  }

  function Step(b: Browser, event: Event): Browser {
    match event
    case Passed(ms) => b.(now := b.now + ms)
    case Opened(t) =>
      if t in b.tabs then b
      else Apply(b, t, Mounted(b.now)).(anywhere := b.now, own := b.own[t := b.now], fires := b.fires[t := 0])
    case Closed(t) => b.(tabs := b.tabs - {t})
    case Moved(t) =>
      if t !in b.tabs then b
      else Apply(b, t, MarkActive(b.tabs[t], b.stored, b.now)).(anywhere := b.now, own := b.own[t := b.now])
    case Notified(t, value) =>
      if t !in b.tabs || value !in b.writes then b
      else b.(tabs := b.tabs[t := OnStorage(b.tabs[t], value)])
    case Polled(t) =>
      if t !in b.tabs then b
      else
        var e := Check(b.tabs[t], b.stored, b.now);
        Apply(b, t, e).(fires := if e.fired && t in b.fires then b.fires[t := b.fires[t] + 1] else b.fires)
  }

  function Run(b: Browser, events: seq<Event>): Browser
    decreases |events|
  {
    if events == [] then b else Run(Step(b, events[0]), events[1..])
  }

  /** No tab is open; `stored` is whatever an earlier session left. */
  function Start(now: Time, stored: Time): Browser {
    Browser(now, stored, map[], 0, map[], {}, map[])
  }

  /** Would the tab sign out if it polled now? */
  predicate Fires(b: Browser, t: TabId) {
    t in b.tabs && Check(b.tabs[t], b.stored, b.now).fired
  }

  /** Every clock lies within the throttle of the ideal one. */
  ghost predicate Close(b: Browser) {
    && b.anywhere <= b.now
    && (forall w :: w in b.writes ==> w <= b.anywhere)
    && (b.tabs != map[] ==> b.stored in b.writes && b.anywhere <= b.stored + WRITE_THROTTLE_MS)
    && (forall t :: t in b.tabs ==> t in b.own && t in b.fires)
    && (forall t :: t in b.tabs ==> b.own[t] <= b.tabs[t].last <= b.anywhere)
    && (forall t :: t in b.tabs ==> b.tabs[t].lastWrite <= b.stored)
    && (forall t :: t in b.tabs ==> b.fires[t] == if b.tabs[t].firedOnce then 1 else 0)
  }

  lemma OpenedStaysClose(b: Browser, t: TabId)
    requires Close(b)
    ensures Close(Step(b, Opened(t)))
  {
  }

  lemma MovedStaysClose(b: Browser, t: TabId)
    requires Close(b)
    ensures Close(Step(b, Moved(t)))
  {
  }

  lemma PolledStaysClose(b: Browser, t: TabId)
    requires Close(b)
    ensures Close(Step(b, Polled(t)))
  {
  }

  lemma StepStaysClose(b: Browser, event: Event)
    requires Close(b)
    ensures Close(Step(b, event))
  {
    match event
    case Opened(t) => OpenedStaysClose(b, t);
    case Moved(t) => MovedStaysClose(b, t);
    case Polled(t) => PolledStaysClose(b, t);
    case _ =>
  }

  lemma {:induction false} RunStaysClose(b: Browser, events: seq<Event>)
    requires Close(b)
    ensures Close(Run(b, events))
    decreases |events|
  {
    if events != [] {
      StepStaysClose(b, events[0]);
      RunStaysClose(Step(b, events[0]), events[1..]);
    }
  }

  /** A tab that is told of another tab's activity does not sign out before the limit has passed since, whatever
      becomes of the stored timestamp. */
  lemma NotifiedTabWaits(b: Browser, t: TabId, value: Time, stored: Time, now: Time)
    requires t in b.tabs && value in b.writes && value <= now < value + IDLE_LIMIT_MS
    ensures var tab := Step(b, Notified(t, value)).tabs[t]; !Check(tab, stored, now).fired
  {
  }

  /** For any number of tabs and any run, a tab's poll follows the ideal clock within the write throttle:
      it signs out only if the tab itself was idle for the whole limit and every tab for the limit less the
      throttle, and it does sign out, once per mount, if nothing happened anywhere for the limit. */
  lemma SignOutFollowsIdealClock(now: Time, stored: Time, events: seq<Event>, t: TabId)
    ensures var b := Run(Start(now, stored), events);
      t in b.tabs ==>
        && t in b.own && b.own[t] <= b.anywhere <= b.now
        && (Fires(b, t) ==> b.now - b.own[t] >= IDLE_LIMIT_MS && b.now - b.anywhere >= IDLE_LIMIT_MS - WRITE_THROTTLE_MS)
        && (b.now - b.anywhere >= IDLE_LIMIT_MS && !b.tabs[t].firedOnce ==> Fires(b, t))
        && t in b.fires && b.fires[t] + (if Fires(b, t) then 1 else 0) <= 1
  {
    RunStaysClose(Start(now, stored), events);
  }

  /** The throttle is really given away: tab 1 is active twice 5 s apart, only the first is stored, and
      tab 2 signs out when the limit has passed since the first. */
  const THROTTLED_ACTIVITY := [Passed(10_000), Opened(1), Opened(2), Moved(1), Passed(5_000), Moved(1), Passed(1_795_000)]

  lemma ThrottleIsTight()
    ensures var b := Run(Start(0, 0), THROTTLED_ACTIVITY);
            2 in b.tabs && Fires(b, 2) && b.now - b.anywhere == IDLE_LIMIT_MS - WRITE_THROTTLE_MS
  {
    var b := Start(0, 0);
    var b3 := Step(Step(Step(b, THROTTLED_ACTIVITY[0]), THROTTLED_ACTIVITY[1]), THROTTLED_ACTIVITY[2]);
    assert Run(b, THROTTLED_ACTIVITY) == Run(b3, THROTTLED_ACTIVITY[3..]);
    assert b3.tabs == map[1 := Tab(10_000, 0, false), 2 := Tab(10_000, 0, false)];
    var b4 := Step(b3, THROTTLED_ACTIVITY[3]);
    assert b4.tabs[1] == Tab(10_000, 10_000, false) && b4.stored == 10_000;
    var b6 := Step(Step(b4, THROTTLED_ACTIVITY[4]), THROTTLED_ACTIVITY[5]);
    assert b6.stored == 10_000 && b6.anywhere == 15_000 && b6.tabs[2] == Tab(10_000, 0, false);
    assert Run(b4, THROTTLED_ACTIVITY[4..]) == Run(b6, THROTTLED_ACTIVITY[6..]);
  }
}
