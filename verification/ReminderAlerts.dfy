/** Reminder and meeting alerts (ReminderPopups.tsx): which items are due, and the chime, toast, snooze and
    dismiss bookkeeping. Times are in milliseconds; `now` is the clock of the last tick, `clock` the real one. */
module ReminderAlerts {
  import opened Numerals

  type Time = int

  const LEAD_MS: int := 60_000
  const GRACE_MS: int := 2 * 60_000
  const SNOOZE_OPTIONS: seq<int> := [5, 10, 30]

  datatype Kind = Reminder | Meeting

  /** `reminder:7` and `meeting:7`. */
  datatype Key = Key(kind: Kind, id: nat)

  datatype Item = Item(key: Key, ts: Time, lead: int)

  datatype Alerts = Alerts(
    items: seq<Item>,
    now: Time,
    clock: Time,
    dismissed: set<Key>,
    snoozed: map<Key, Time>,
    notified: set<Key>,
    chimed: set<Key>,
    chimes: multiset<Key>,       // chimes sounded for, toasts raised for, and snoozes of each key so far
    toasts: multiset<Key>,
    snoozes: multiset<Key>)

  // ----- Keys as stored -----

  function KeyText(k: Key): string {
    (match k.kind case Reminder => "reminder:" case Meeting => "meeting:") + Digits(k.id)
  }

  /** Reminders and meetings never share a stored entry. */
  lemma KeysNeverCollide(j: Key, k: Key)
    ensures KeyText(j) == KeyText(k) <==> j == k
  {
    DigitsReadBack(j.id);
    DigitsReadBack(k.id);
    if KeyText(j) == KeyText(k) {
      assert KeyText(j)[0] == KeyText(k)[0];
      var n := if j.kind.Reminder? then 9 else 8;
      assert KeyText(j)[n..] == Digits(j.id);
      assert KeyText(k)[n..] == Digits(k.id);
    }
  }

  // ----- What each part does -----

  predicate InWindow(i: Item, now: Time) {
    var delta := i.ts - now;
    !(delta > i.lead || delta < -GRACE_MS)
  }

  /** A stored snooze of 0 counts as none. */
  predicate Snoozing(a: Alerts, k: Key) {
    k in a.snoozed && a.snoozed[k] != 0 && a.now < a.snoozed[k]
  }

  predicate IsDue(a: Alerts, i: Item) {
    i in a.items && InWindow(i, a.now) && i.key !in a.dismissed && !Snoozing(a, i.key)
  }

  function DueKeys(a: Alerts): set<Key> {
    set i | i in a.items && IsDue(a, i) :: i.key
  }

  /** The due items in the order of the list; `DueList` sorts them by time. */
  function DueAmong(a: Alerts, items: seq<Item>): seq<Item> {
    if items == [] then []
    else DueAmong(a, items[..|items| - 1]) + (if IsDue(a, items[|items| - 1]) then [items[|items| - 1]] else [])
  }

  function Placed(s: seq<Item>, i: Item): seq<Item> {
    if s == [] || s[|s| - 1].ts <= i.ts then s + [i] else Placed(s[..|s| - 1], i) + [s[|s| - 1]]
  }

  function ByTime(s: seq<Item>): seq<Item> {
    if s == [] then [] else Placed(ByTime(s[..|s| - 1]), s[|s| - 1])
  }

  function DueList(a: Alerts): seq<Item> {
    ByTime(DueAmong(a, a.items))
  }

  ghost predicate InOrder(s: seq<Item>) {
    forall i, j :: 0 <= i < j < |s| ==> s[i].ts <= s[j].ts
  }

  function AtTime(s: seq<Item>, t: Time): seq<Item> {
    if s == [] then [] else AtTime(s[..|s| - 1], t) + (if s[|s| - 1].ts == t then [s[|s| - 1]] else [])
  }

  lemma {:induction false} PlacedHolds(s: seq<Item>, i: Item)
    ensures forall x :: x in Placed(s, i) <==> x in s || x == i
    decreases |s|
  {
    if s != [] {
      PlacedHolds(s[..|s| - 1], i);
      assert s == s[..|s| - 1] + [s[|s| - 1]];
    }
  }

  lemma {:induction false} PlacedSorts(s: seq<Item>, i: Item)
    requires InOrder(s)
    ensures InOrder(Placed(s, i))
    decreases |s|
  {
    if s != [] && s[|s| - 1].ts > i.ts {
      var front := s[..|s| - 1];
      PlacedSorts(front, i);
      PlacedHolds(front, i);
      assert forall k :: 0 <= k < |Placed(front, i)| ==> Placed(front, i)[k] in Placed(front, i);
    }
  }

  lemma {:induction false} PlacedIsStable(s: seq<Item>, i: Item, t: Time)
    ensures AtTime(Placed(s, i), t) == AtTime(s, t) + if i.ts == t then [i] else []
    decreases |s|
  {
    if s != [] && s[|s| - 1].ts > i.ts {
      var front, last := s[..|s| - 1], s[|s| - 1];
      PlacedIsStable(front, i, t);
      assert Placed(s, i)[..|Placed(s, i)| - 1] == Placed(front, i);
    } else {
      assert (s + [i])[..|s|] == s;
    }
  }

  /** Sorting by time keeps exactly the items, those of the same time in their order. */
  lemma {:induction false} ByTimeSorts(s: seq<Item>, t: Time)
    ensures InOrder(ByTime(s)) && AtTime(ByTime(s), t) == AtTime(s, t)
    ensures forall x :: x in ByTime(s) <==> x in s
    decreases |s|
  {
    if s != [] {
      var front, last := s[..|s| - 1], s[|s| - 1];
      ByTimeSorts(front, t);
      PlacedSorts(ByTime(front), last);
      PlacedHolds(ByTime(front), last);
      PlacedIsStable(ByTime(front), last, t);
      assert s == front + [last];
    }
  }

  lemma {:induction false} DueAmongAre(a: Alerts, items: seq<Item>)
    ensures forall i :: i in DueAmong(a, items) <==> i in items && IsDue(a, i)
    decreases |items|
  {
    if items != [] {
      DueAmongAre(a, items[..|items| - 1]);
      assert items == items[..|items| - 1] + [items[|items| - 1]];
    }
  }

  /** The due list is sorted by time, holds exactly the due items, and its keys are those the alerts use. */
  lemma DueListIs(a: Alerts, t: Time)
    ensures InOrder(DueList(a)) && AtTime(DueList(a), t) == AtTime(DueAmong(a, a.items), t)
    ensures forall i :: i in DueList(a) <==> IsDue(a, i)
    ensures (set i | i in DueList(a) :: i.key) == DueKeys(a)
  {
    DueAmongAre(a, a.items);
    ByTimeSorts(DueAmong(a, a.items), t);
  }

  function Tick(a: Alerts): Alerts {
    a.(now := a.clock)
  }

  /** The alert effect. `wanted` says whether desktop notifications are wanted, `appeared` which toasts the
      browser actually raised. The sound itself may be off; it counts as the item's chime. */
  function Alert(a: Alerts, wanted: bool, appeared: set<Key>): Alerts {
    var due := DueKeys(a);
    var chimed := WithChimes(a, due - a.chimed);
    if wanted then WithToasts(chimed, (due - a.notified) * appeared) else chimed
  }

  function WithChimes(a: Alerts, unchimed: set<Key>): Alerts {
    a.(chimed := a.chimed + unchimed, chimes := a.chimes + multiset(unchimed))
  }

  function WithToasts(a: Alerts, raised: set<Key>): Alerts {
    a.(notified := a.notified + raised, toasts := a.toasts + multiset(raised))
  }

  function Dismiss(a: Alerts, k: Key): Alerts {
    a.(dismissed := a.dismissed + {k})
  }

  function Snooze(a: Alerts, k: Key, minutes: int): Alerts {
    a.(snoozed := a.snoozed[k := a.clock + minutes * 60_000], notified := a.notified - {k}, chimed := a.chimed - {k},
       snoozes := a.snoozes + multiset{k})
  }

  class ReminderPopups {
    var items: seq<Item>
    var now: Time
    var clock: Time
    var dismissed: set<Key>
    var snoozed: map<Key, Time>
    var notified: set<Key>
    var chimed: set<Key>
    ghost var chimes: multiset<Key>
    ghost var toasts: multiset<Key>
    ghost var snoozes: multiset<Key>

    ghost function Model(): Alerts
      reads this
    {
      Alerts(items, now, clock, dismissed, snoozed, notified, chimed, chimes, toasts, snoozes)
    }

    constructor (clock: Time)
      ensures Model() == Fresh(clock)
    {
      items, now, this.clock := [], clock, clock;
      dismissed, snoozed, notified, chimed := {}, map[], {}, {};
      chimes, toasts, snoozes := multiset{}, multiset{}, multiset{};
    }

    method OnTick()
      modifies this`now
      ensures Model() == Tick(old(Model()))
    {
      now := clock;
    }

    method Due() returns (due: seq<Item>)
      ensures due == DueList(Model())
    {
      due := [];
      for k := 0 to |items|
        invariant due == DueAmong(Model(), items[..k])
      {
        var i := items[k];
        assert items[..k + 1][..k] == items[..k] && i in items;
        var delta := i.ts - now;
        if !(delta > i.lead || delta < -GRACE_MS) && i.key !in dismissed {
          if !(i.key in snoozed && snoozed[i.key] != 0 && now < snoozed[i.key]) {
            due := due + [i];
          }
        }
      }
      assert items[..|items|] == items;
      due := ByTime(due);
    }

    method OnDue(wanted: bool, appeared: set<Key>)
      modifies this
      ensures Model() == Alert(old(Model()), wanted, appeared)
    {
      var listed := Due();
      DueListIs(Model(), 0);
      var due := set i | i in listed :: i.key;
      Chime(due - chimed);
      if !wanted {
        return;
      }
      Toast((due - notified) * appeared);
    }

    method Chime(unchimed: set<Key>)
      modifies this`chimes, this`chimed
      ensures Model() == WithChimes(old(Model()), unchimed)
    {
      chimes := chimes + multiset(unchimed);
      chimed := chimed + unchimed;
    }

    method Toast(raised: set<Key>)
      modifies this`notified, this`toasts
      ensures Model() == WithToasts(old(Model()), raised)
    {
      notified := notified + raised;
      toasts := toasts + multiset(raised);
    }

    method OnDismiss(k: Key)
      modifies this`dismissed
      ensures Model() == Dismiss(old(Model()), k)
    {
      dismissed := dismissed + {k};
    }

    method OnSnooze(k: Key, minutes: int)
      modifies this
      ensures Model() == Snooze(old(Model()), k, minutes)
    {
      snoozed := snoozed[k := clock + minutes * 60_000];
      notified := notified - {k};
      chimed := chimed - {k};
      snoozes := snoozes + multiset{k};
    }
  }

  // ----- Runs -----

  datatype Event =
    | Passed(ms: nat) | Ticked | Refreshed(items: seq<Item>) | Alerted(wanted: bool, appeared: set<Key>)
    | Dismissed(key: Key) | Snoozed(key: Key, minutes: int)

  function Step(a: Alerts, event: Event): Alerts {
    match event
    case Passed(ms) => a.(clock := a.clock + ms)
    case Ticked => Tick(a)
    case Refreshed(items) => a.(items := items)
    case Alerted(wanted, appeared) => Alert(a, wanted, appeared)
    case Dismissed(k) => Dismiss(a, k)
    case Snoozed(k, minutes) => Snooze(a, k, minutes)
  }

  function Run(a: Alerts, events: seq<Event>): Alerts
    decreases |events|
  {
    if events == [] then a else Run(Step(a, events[0]), events[1..])
  }

  function Fresh(clock: Time): Alerts {
    Alerts([], clock, clock, {}, map[], {}, {}, multiset{}, multiset{}, multiset{})
  }

  ghost predicate Bounded(a: Alerts) {
    && a.now <= a.clock
    && (forall k :: a.chimes[k] <= a.snoozes[k] + if k in a.chimed then 1 else 0)
    && (forall k :: a.toasts[k] <= a.snoozes[k] + if k in a.notified then 1 else 0)
  }

  lemma AlertStaysBounded(a: Alerts, wanted: bool, appeared: set<Key>)
    requires Bounded(a)
    ensures Bounded(Alert(a, wanted, appeared))
  {
    var due := DueKeys(a);
    var b := WithChimes(a, due - a.chimed);
    assert Bounded(b);
    assert Bounded(WithToasts(b, (due - a.notified) * appeared));
  }

  lemma StepStaysBounded(a: Alerts, event: Event)
    requires Bounded(a)
    ensures Bounded(Step(a, event)) && a.dismissed <= Step(a, event).dismissed
  {
    if event.Alerted? {
      AlertStaysBounded(a, event.wanted, event.appeared);
    }
  }

  lemma {:induction false} RunStaysBounded(a: Alerts, events: seq<Event>)
    requires Bounded(a)
    ensures Bounded(Run(a, events))
    ensures a.dismissed <= Run(a, events).dismissed
    decreases |events|
  {
    if events != [] {
      StepStaysBounded(a, events[0]);
      RunStaysBounded(Step(a, events[0]), events[1..]);
    }
  }

  /** Over any run, an item chimes and is shown at most once plus once per snooze of it; a due item whose
      toast has not appeared gets one at the next alert for which it appears; a dismissed key is never due. */
  lemma AlertsAreBounded(clock: Time, events: seq<Event>, later: seq<Event>, k: Key, appeared: set<Key>)
    ensures var a := Run(Fresh(clock), events);
      && a.chimes[k] <= 1 + a.snoozes[k] && a.toasts[k] <= 1 + a.snoozes[k]
      && (k in DueKeys(a) && k !in a.notified && k in appeared ==>
            Alert(a, true, appeared).toasts[k] == a.toasts[k] + 1)
      && (k in a.dismissed ==> k !in DueKeys(Run(a, later)))
  {
    RunStaysBounded(Fresh(clock), events);
    RunStaysBounded(Run(Fresh(clock), events), later);
  }

  /** What an alert does to one key: it chimes exactly if it is due and has not chimed since its last snooze, and
      is shown exactly if in addition it was not yet shown, toasts are wanted and the browser raises this one. */
  lemma AlertIsExact(a: Alerts, wanted: bool, appeared: set<Key>, k: Key)
    ensures var b, due := Alert(a, wanted, appeared), k in DueKeys(a);
      && b.chimes[k] == a.chimes[k] + (if due && k !in a.chimed then 1 else 0)
      && (k in b.chimed <==> k in a.chimed || due)
      && b.toasts[k] == a.toasts[k] + (if due && k !in a.notified && wanted && k in appeared then 1 else 0)
      && (k in b.notified <==> k in a.notified || (due && wanted && k in appeared))
      && DueKeys(b) == DueKeys(a)
  {
    var due := DueKeys(a);
    var b := WithChimes(a, due - a.chimed);
    assert b.chimes[k] == a.chimes[k] + if k in due - a.chimed then 1 else 0;
    assert forall i :: IsDue(Alert(a, wanted, appeared), i) == IsDue(a, i);
  }

  /** A tick brings the clock the filter goes by up to date: afterwards an item is due exactly if its time is
      within its lead before and the grace after the real time, it was not dismissed and its snooze is over. */
  lemma TickCatchesUp(a: Alerts, i: Item)
    ensures IsDue(Tick(a), i) <==>
      && i in a.items && a.clock - GRACE_MS <= i.ts <= a.clock + i.lead && i.key !in a.dismissed
      && (i.key in a.snoozed && a.snoozed[i.key] != 0 ==> a.snoozed[i.key] <= a.clock)
  {
  }

  /** A dismissed item is gone, for good, and it alone. */
  lemma DismissedIsGone(a: Alerts, k: Key, events: seq<Event>)
    requires Bounded(a)
    ensures k !in DueKeys(Run(Dismiss(a, k), events))
    ensures DueKeys(Dismiss(a, k)) == DueKeys(a) - {k}
  {
    RunStaysBounded(Dismiss(a, k), events);
    forall j
      ensures j in DueKeys(Dismiss(a, k)) <==> j in DueKeys(a) && j != k
    {
      forall i | i in a.items && i.key == j && j != k
        ensures IsDue(Dismiss(a, k), i) == IsDue(a, i)
      {
      }
    }
  }

  /** A snoozed item goes at once, and may chime and be shown again. */
  lemma SnoozedIsGone(a: Alerts, k: Key, minutes: int)
    requires a.now <= a.clock && a.clock > 0 && minutes > 0
    ensures var b := Snooze(a, k, minutes); DueKeys(b) == DueKeys(a) - {k} && k !in b.chimed && k !in b.notified
    ensures forall j :: j != k ==> (j in Snooze(a, k, minutes).chimed <==> j in a.chimed)
  {
    var b := Snooze(a, k, minutes);
    forall j
      ensures j in DueKeys(b) <==> j in DueKeys(a) && j != k
    {
      forall i | i in a.items && i.key == j && j != k
        ensures IsDue(b, i) == IsDue(a, i)
      {
      }
    }
  }

  // ----- Snoozing -----

  /** Whether the item can be due at some tick at or after its snooze ends, its time unchanged. */
  ghost predicate CanResurface(i: Item, until: Time) {
    exists t: Time :: t >= until && InWindow(i, t)
  }

  /** A snoozed item resurfaces at some tick iff its snooze ends within the grace after its time. */
  lemma ResurfacesIff(i: Item, until: Time)
    requires i.lead >= 0
    ensures CanResurface(i, until) <==> until <= i.ts + GRACE_MS
  {
    if until <= i.ts + GRACE_MS {
      var t := if until < i.ts - i.lead then i.ts - i.lead else until;
      assert InWindow(i, t);
    }
  }

  function ClockAfter(clock: Time, event: Event): Time {
    if event.Passed? then clock + event.ms else clock
  }

  function EndAfter(clock: Time, until: Time, event: Event, k: Key): Time {
    if event.Snoozed? && event.key == k then clock + event.minutes * 60_000 else until
  }

  /** When the snooze of `k` in force after the run ends, given that one ending at `until` is in force. */
  function SnoozeEnd(clock: Time, until: Time, events: seq<Event>, k: Key): Time
    decreases |events|
  {
    if events == [] then until
    else SnoozeEnd(ClockAfter(clock, events[0]), EndAfter(clock, until, events[0], k), events[1..], k)
  }

  lemma SnoozeSurvives(a: Alerts, event: Event, k: Key)
    requires k in a.snoozed
    ensures var b := Step(a, event);
            b.clock == ClockAfter(a.clock, event) && k in b.snoozed && b.snoozed[k] == EndAfter(a.clock, a.snoozed[k], event, k)
  {
  }

  /** List refreshes, alerts, dismissals and snoozes of other items leave a snooze in force. */
  lemma {:induction false} SnoozeHolds(a: Alerts, events: seq<Event>, k: Key)
    requires k in a.snoozed
    ensures var b := Run(a, events); k in b.snoozed && b.snoozed[k] == SnoozeEnd(a.clock, a.snoozed[k], events, k)
    decreases |events|
  {
    if events != [] {
      SnoozeSurvives(a, events[0], k);
      SnoozeHolds(Step(a, events[0]), events[1..], k);
    }
  }

  /** When a snoozed item is due again, whatever happens meanwhile: exactly if it is listed with that time at
      a tick from the end of the last snooze to its time plus the grace (and within its lead), unless it was
      dismissed. */
  lemma DueAgainIff(a: Alerts, i: Item, minutes: int, events: seq<Event>)
    requires SnoozeEnd(a.clock, a.clock + minutes * 60_000, events, i.key) != 0
    ensures var b := Run(Snooze(a, i.key, minutes), events);
            var until := SnoozeEnd(a.clock, a.clock + minutes * 60_000, events, i.key);
            IsDue(b, i) <==>
              i in b.items && until <= b.now <= i.ts + GRACE_MS && i.ts - i.lead <= b.now && i.key !in b.dismissed
  {
    SnoozeHolds(Snooze(a, i.key, minutes), events, i.key);
  }

  ghost predicate OffersOnly(events: seq<Event>, k: Key) {
    forall e :: e in events && e.Snoozed? && e.key == k ==> e.minutes in SNOOZE_OPTIONS
  }

  /** Snoozing again, with any of the options, never ends before the shortest snooze taken at once would. */
  lemma {:induction false} SnoozesLast(clock: Time, until: Time, events: seq<Event>, k: Key, bound: Time)
    requires OffersOnly(events, k) && bound <= until && bound <= clock + SNOOZE_OPTIONS[0] * 60_000
    ensures SnoozeEnd(clock, until, events, k) >= bound
    decreases |events|
  {
    if events != [] {
      assert events[0] in events && forall e :: e in events[1..] ==> e in events;
      SnoozesLast(ClockAfter(clock, events[0]), EndAfter(clock, until, events[0], k), events[1..], k, bound);
    }
  }

  /** With the given constants a snoozed standalone reminder never comes due again, whichever options were
      chosen and whatever the tick times and list refreshes: snoozing one dismisses it. */
  lemma SnoozedReminderNeverReturns(a: Alerts, i: Item, minutes: int, events: seq<Event>)
    requires a.now <= a.clock && IsDue(a, i) && i.lead == LEAD_MS && a.clock > 0
    requires minutes in SNOOZE_OPTIONS && OffersOnly(events, i.key)
    ensures !IsDue(Run(Snooze(a, i.key, minutes), events), i)
  {
    var until := a.clock + minutes * 60_000;
    SnoozeHolds(Snooze(a, i.key, minutes), events, i.key);
    SnoozesLast(a.clock, until, events, i.key, a.clock + SNOOZE_OPTIONS[0] * 60_000);
  }
}
