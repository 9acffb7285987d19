/** The activity bubbles of the runtime graph: for each owner one slot, one timer and a queue
    (apps/web/src/features/runtime/components/TGA3RuntimeGraph.tsx). Times are in milliseconds. */
module RuntimeGraph {
  import opened Domain

  const ACTIVITY_MIN_MS := 200
  const ACTIVITY_FLASH_MS := 2100

  datatype Activity = Activity(id: string, owner: string, text: string)

  /* ---- one owner ---- */

  /** due: when the armed timer fires. */
  datatype Row = Row(slot: Option<Activity>, due: Option<int>, queue: seq<Activity>, shownAt: Option<int>)

  const EMPTY_ROW := Row(None, None, [], None)

  /** Activities stay for the minimum time while others wait, and flash for longer when none does. */
  function Show(r: Row, a: Activity, now: int): Row {
    Row(Some(a), Some(now + if r.queue != [] then ACTIVITY_MIN_MS else ACTIVITY_FLASH_MS), r.queue, Some(now))
  }

  function Remove(r: Row, clearQueue: bool): Row {
    Row(None, None, if clearQueue then [] else r.queue, None)
  }

  /** The timer callback. */
  function Fired(r: Row, now: int): Row {
    if r.queue == [] then Remove(r, false) else Show(r.(queue := r.queue[1..]), r.queue[0], now)
  }

  function Max(a: int, b: int): int {
    if a >= b then a else b
  }

  function ShownFor(r: Row, now: int): int {
    now - if r.shownAt.Some? then r.shownAt.value else 0
  }

  predicate ShowsAtOnce(r: Row, now: int) {
    r.slot.None? || (ShownFor(r, now) >= ACTIVITY_MIN_MS && r.queue == [])
  }

  function Enqueue(r: Row, a: Activity, now: int): Row {
    if ShowsAtOnce(r, now) then Show(r, a, now)
    else r.(queue := r.queue + [a], due := Some(now + Max(0, ACTIVITY_MIN_MS - ShownFor(r, now))))
  }

  /* ---- one owner over time ---- */

  datatype Display = Display(activity: Activity, at: int)

  /** row and now are the state; the rest is its history since the owner was last cleared: what was enqueued, the time each
      activity was promised for (enqueued with n - 1 others waiting: n minimum times later), and what was shown when. */
  datatype Track = Track(row: Row, now: int, enqueued: seq<Activity>, promised: seq<int>, shown: seq<Display>)

  datatype Event = Tick(dt: nat) | Arrive(a: Activity) | Fire | Clear

  function Start(now: int): Track {
    Track(EMPTY_ROW, now, [], [], [])
  }

  /** The display that appears when a row changes, if any. */
  function Noted(t: Track, r: Row, shows: bool): seq<Display>
    requires shows ==> r.slot.Some?
  {
    if shows then t.shown + [Display(r.slot.value, t.now)] else t.shown
  }

  function ArriveAt(t: Track, a: Activity): Track {
    var r := Enqueue(t.row, a, t.now);
    var atOnce := ShowsAtOnce(t.row, t.now);
    Track(r, t.now, t.enqueued + [a],
          t.promised + [t.now + if atOnce then 0 else ACTIVITY_MIN_MS * (|t.row.queue| + 1)],
          Noted(t, r, atOnce))
  }

  function FireAt(t: Track): Track {
    var r := Fired(t.row, t.now);
    t.(row := r, shown := Noted(t, r, t.row.queue != []))
  }

  /** An event that is not possible changes nothing. A timer never fires early; it may fire late. */
  function Next(t: Track, event: Event): Track {
    match event
    case Tick(dt) => t.(now := t.now + dt)
    case Arrive(a) => ArriveAt(t, a)
    case Fire => if t.row.due.Some? && t.now >= t.row.due.value then FireAt(t) else t
    case Clear => Track(Remove(t.row, true), t.now, [], [], [])
  }

  function Run(t: Track, events: seq<Event>): Track
    decreases |events|
  {
    if events == [] then t else Run(Next(t, events[0]), events[1..])
  }

  /** Exact timers: time does not pass the moment for which the timer is armed. */
  predicate Exact(t: Track, events: seq<Event>)
    decreases |events|
  {
    events == [] ||
    ((events[0].Tick? && t.row.due.Some? ==> t.now + events[0].dt <= t.row.due.value) && Exact(Next(t, events[0]), events[1..]))
  }

  function Activities(shown: seq<Display>): seq<Activity> {
    seq(|shown|, i requires 0 <= i < |shown| => shown[i].activity)
  }

  /** A timer is armed exactly while the slot is occupied, and nothing waits behind an empty slot. */
  predicate Armed(r: Row) {
    && (r.due.Some? <==> r.slot.Some?)
    && (r.shownAt.Some? <==> r.slot.Some?)
    && (r.queue != [] ==> r.slot.Some?)
    && (r.slot.Some? ==> r.due.value >= r.shownAt.value + ACTIVITY_MIN_MS)
  }

  /** Everything enqueued was shown, in order, or waits, in order. */
  predicate InOrder(t: Track) {
    Activities(t.shown) + t.row.queue == t.enqueued && |t.promised| == |t.enqueued|
  }

  predicate Spaced(shown: seq<Display>) {
    forall i :: 0 <= i < |shown| - 1 ==> shown[i + 1].at - shown[i].at >= ACTIVITY_MIN_MS
  }

  predicate LastShown(t: Track) {
    && (t.row.slot.Some? ==> t.row.shownAt.Some? && t.shown != [] && t.shown[|t.shown| - 1] == Display(t.row.slot.value, t.row.shownAt.value))
    && (t.row.slot.None? && t.shown != [] ==> t.now >= t.shown[|t.shown| - 1].at + ACTIVITY_MIN_MS)
    && (t.row.slot.Some? ==> t.row.shownAt.value <= t.now)
  }

  predicate Inv(t: Track) {
    Armed(t.row) && InOrder(t) && Spaced(t.shown) && LastShown(t)
  }

  lemma ActivitiesAppended(shown: seq<Display>, d: Display)
    ensures Activities(shown + [d]) == Activities(shown) + [d.activity]
  {
  }

  lemma ArriveOk(t: Track, a: Activity)
    requires Inv(t)
    ensures Inv(ArriveAt(t, a))
  {
    ActivitiesAppended(t.shown, Display(a, t.now));
    var t1 := ArriveAt(t, a);
    if ShowsAtOnce(t.row, t.now) {
      assert t1.shown == t.shown + [Display(a, t.now)];
      assert t.row.queue == [];
      assert Activities(t.shown) == t.enqueued;
    } else {
      assert Activities(t.shown) + (t.row.queue + [a]) == (Activities(t.shown) + t.row.queue) + [a];
    }
  }

  lemma FireOk(t: Track)
    requires Inv(t) && t.row.due.Some? && t.now >= t.row.due.value
    ensures Inv(FireAt(t))
  {
    var t1 := FireAt(t);
    if t.row.queue != [] {
      var d := Display(t.row.queue[0], t.now);
      ActivitiesAppended(t.shown, d);
      assert t1.shown == t.shown + [d];
      assert Activities(t.shown) + t.row.queue == (Activities(t.shown) + [t.row.queue[0]]) + t.row.queue[1..];
    }
  }

  lemma NextOk(t: Track, event: Event)
    requires Inv(t)
    ensures Inv(Next(t, event))
  {
    match event
    case Arrive(a) => ArriveOk(t, a);
    case Fire =>
      if t.row.due.Some? && t.now >= t.row.due.value {
        FireOk(t);
      }
    case _ =>
  }

  lemma {:induction false} RunOk(t: Track, events: seq<Event>)
    requires Inv(t)
    ensures Inv(Run(t, events))
    decreases |events|
  {
    if events != [] {
      NextOk(t, events[0]);
      RunOk(Next(t, events[0]), events[1..]);
    }
  }

  /** However late the timers: a timer is armed exactly while the slot is occupied; a queue implies an occupied slot;
      activities appear in the order they were enqueued, none is dropped, and each stays the minimum time at least. */
  lemma ShownInOrderAndSpaced(now: int, events: seq<Event>)
    ensures var t := Run(Start(now), events);
      && (t.row.due.Some? <==> t.row.slot.Some?) && (t.row.queue != [] ==> t.row.slot.Some?)
      && Activities(t.shown) + t.row.queue == t.enqueued
      && Spaced(t.shown)
  {
    RunOk(Start(now), events);
  }

  /** In every run, an activity that arrives is shown at once if nothing is shown, or if what is shown has been there for the
      minimum time and nothing waits; otherwise it waits behind the others. */
  lemma ArrivalIsShownIff(now: int, events: seq<Event>, a: Activity)
    ensures var t := Run(Start(now), events);
            var t1 := Next(t, Arrive(a));
      && (t.row.slot.Some? ==> t.row.shownAt.Some?)
      && (t1.shown == t.shown + [Display(a, t.now)] <==>
            t.row.slot.None? || (t.row.queue == [] && t.now - t.row.shownAt.value >= 200))
      && (t1.shown != t.shown + [Display(a, t.now)] ==> t1.shown == t.shown && t1.row.queue == t.row.queue + [a])
  {
    RunOk(Start(now), events);
    assert |Run(Start(now), events).shown + [Display(a, Run(Start(now), events).now)]| > |Run(Start(now), events).shown|;
  }

  /** Whatever happened before, a cleared owner shows nothing, has no timer and nothing waiting, and starts afresh. */
  lemma ClearedOwnerIsEmpty(now: int, events: seq<Event>)
    ensures var t := Next(Run(Start(now), events), Clear);
      && t.row.slot.None? && t.row.due.None? && t.row.queue == [] && t.row.shownAt.None?
      && t == Start(t.now)
  {
  }

  /* ---- the deadline, with exact timers ---- */

  predicate TimerExact(t: Track) {
    t.row.slot.Some? && t.row.due.Some? && t.row.shownAt.Some? ==>
      t.now <= t.row.due.value == t.row.shownAt.value + if t.row.queue != [] then ACTIVITY_MIN_MS else ACTIVITY_FLASH_MS
  }

  /** When the activity numbered k will appear at the latest: those before it take one minimum time each. */
  function Latest(t: Track, k: nat): int
    requires t.row.shownAt.Some?
  {
    t.row.shownAt.value + ACTIVITY_MIN_MS * (k - |t.shown| + 1)
  }

  predicate OnTime(t: Track) {
    && TimerExact(t)
    && |t.promised| == |t.shown| + |t.row.queue|
    && (forall k :: 0 <= k < |t.shown| ==> t.shown[k].at <= t.promised[k])
    && (forall k :: |t.shown| <= k < |t.promised| && t.row.shownAt.Some? ==> Latest(t, k) <= t.promised[k])
  }

  lemma SameLengths(t: Track)
    requires InOrder(t)
    ensures |t.promised| == |t.shown| + |t.row.queue|
  {
    assert |Activities(t.shown) + t.row.queue| == |t.enqueued|;
  }

  lemma ArriveOnTime(t: Track, a: Activity)
    requires Inv(t) && OnTime(t)
    ensures OnTime(ArriveAt(t, a))
  {
    ArriveOk(t, a);
    SameLengths(ArriveAt(t, a));
  }

  lemma FireOnTime(t: Track)
    requires Inv(t) && OnTime(t) && t.row.due.Some? && t.now >= t.row.due.value
    ensures OnTime(FireAt(t))
  {
    var t1 := FireAt(t);
    FireOk(t);
    SameLengths(t1);
    if t.row.queue != [] {
      assert t.now == t.row.shownAt.value + ACTIVITY_MIN_MS;
      forall k | |t1.shown| <= k < |t1.promised| ensures Latest(t1, k) <= t1.promised[k] {
        assert Latest(t, k) == Latest(t1, k);
      }
      assert Latest(t, |t.shown|) == t.now;
    }
  }

  lemma NextOnTime(t: Track, event: Event)
    requires Inv(t) && OnTime(t)
    requires event.Tick? && t.row.due.Some? ==> t.now + event.dt <= t.row.due.value
    ensures OnTime(Next(t, event))
  {
    match event
    case Arrive(a) => ArriveOnTime(t, a);
    case Fire =>
      if t.row.due.Some? && t.now >= t.row.due.value {
        FireOnTime(t);
      }
    case _ =>
  }

  lemma {:induction false} RunOnTime(t: Track, events: seq<Event>)
    requires Inv(t) && OnTime(t) && Exact(t, events)
    ensures Inv(Run(t, events)) && OnTime(Run(t, events))
    decreases |events|
  {
    if events != [] {
      NextOk(t, events[0]);
      NextOnTime(t, events[0]);
      RunOnTime(Next(t, events[0]), events[1..]);
    }
  }

  /** With exact timers an activity enqueued behind n - 1 others, and not cleared, appears within n minimum times: what
      was shown was shown in time, and what still waits is not late. */
  lemma ShownInTime(now: int, events: seq<Event>, k: nat)
    requires Exact(Start(now), events) && k < |Run(Start(now), events).enqueued|
    ensures var t := Run(Start(now), events);
      && |t.promised| == |t.enqueued| && |t.shown| <= |t.enqueued|
      && (if k < |t.shown| then t.shown[k].activity == t.enqueued[k] && t.shown[k].at <= t.promised[k]
          else t.now <= t.promised[k])
  {
    RunOnTime(Start(now), events);
    var t := Run(Start(now), events);
    SameLengths(t);
    assert (Activities(t.shown) + t.row.queue)[k] == t.enqueued[k];
    if k >= |t.shown| {
      assert Latest(t, k) <= t.promised[k];
    }
  }

  /** With exact timers what is shown stays for the minimum time when another activity waits, and for the flash time when
      none does; then the next one appears, or the slot is empty. */
  lemma TimerTurns(now: int, events: seq<Event>)
    requires Exact(Start(now), events) && Run(Start(now), events).row.slot.Some?
    ensures var t := Run(Start(now), events);
      && t.row.due.Some? && t.row.shownAt.Some?
      && t.now <= t.row.due.value == t.row.shownAt.value + (if t.row.queue != [] then 200 else 2100)
      && (t.now == t.row.due.value ==>
            var t1 := Next(t, Fire);
            if t.row.queue == [] then t1.row == EMPTY_ROW && t1.shown == t.shown
            else t1.row.slot == Some(t.row.queue[0]) && t1.row.queue == t.row.queue[1..] && t1.row.shownAt == Some(t.now))
  {
    RunOnTime(Start(now), events);
  }

  /** A concrete run: an activity that nobody follows flashes once and is gone. */
  lemma LoneActivityFlashes(now: int, a: Activity)
    ensures var t := Run(Start(now), [Arrive(a), Tick(2100), Fire]);
      t.row == EMPTY_ROW && t.shown == [Display(a, now)] && t.now == now + 2100
  {
    var t0 := Start(now);
    var t1 := Next(t0, Arrive(a));
    var t2 := Next(t1, Tick(2100));
    assert [Arrive(a), Tick(2100), Fire][1..] == [Tick(2100), Fire] && [Tick(2100), Fire][1..] == [Fire];
    assert Run(t2, [Fire]) == Run(Next(t2, Fire), [Fire][1..]) == Next(t2, Fire);
    assert Run(t1, [Tick(2100), Fire]) == Run(t2, [Fire]);
  }

  /* ---- the component ---- */

  class TGA3RuntimeGraph {
    var slots: map<string, Activity>
    var timers: map<string, int>
    var queues: map<string, seq<Activity>>
    var shownAt: map<string, int>

    function RowOf(owner: string): Row
      reads this
    {
      Row(if owner in slots then Some(slots[owner]) else None,
          if owner in timers then Some(timers[owner]) else None,
          if owner in queues then queues[owner] else [],
          if owner in shownAt then Some(shownAt[owner]) else None)
    }

    /** An activity waits only in its own owner's queue. */
    ghost predicate Valid()
      reads this
    {
      forall o, i :: o in queues && 0 <= i < |queues[o]| ==> queues[o][i].owner == o
    }

    constructor ()
      ensures Valid() && forall o :: RowOf(o) == EMPTY_ROW
    {
      slots, timers, queues, shownAt := map[], map[], map[], map[];
    }

    method RemoveActivity(owner: string, clearQueue: bool)
      requires Valid()
      modifies this
      ensures Valid() && RowOf(owner) == Remove(old(RowOf(owner)), clearQueue)
      ensures forall o :: o != owner ==> RowOf(o) == old(RowOf(o))
    {
      timers := timers - {owner};
      if clearQueue {
        queues := queues - {owner};
      }
      shownAt := shownAt - {owner};
      if owner !in slots {
        return;
      }
      slots := slots - {owner};
    }

    /** Arms the one timer of the owner; a timer that was armed before is cancelled. */
    method ScheduleActivity(owner: string, delay: nat, now: int)
      modifies this`timers
      ensures timers == old(timers)[owner := now + delay]
    {
      timers := timers - {owner};
      timers := timers[owner := now + delay];
    }

    method ShowActivity(a: Activity, now: int)
      requires Valid()
      modifies this
      ensures Valid() && RowOf(a.owner) == Show(old(RowOf(a.owner)), a, now)
      ensures forall o :: o != a.owner ==> RowOf(o) == old(RowOf(o))
    {
      timers := timers - {a.owner};
      slots := slots[a.owner := a];
      shownAt := shownAt[a.owner := now];
      var hasQueued := a.owner in queues && |queues[a.owner]| > 0;
      ScheduleActivity(a.owner, if hasQueued then ACTIVITY_MIN_MS else ACTIVITY_FLASH_MS, now);
    }

    /** The callback of the owner's timer. */
    method TimerFires(owner: string, now: int)
      requires Valid()
      modifies this
      ensures Valid() && RowOf(owner) == Fired(old(RowOf(owner)), now)
      ensures forall o :: o != owner ==> RowOf(o) == old(RowOf(o))
    {
      timers := timers - {owner};
      var queue := if owner in queues then queues[owner] else [];
      if queue == [] {
        queues := queues - {owner};
        RemoveActivity(owner, false);
      } else {
        var next := queue[0];
        queue := queue[1..];
        if |queue| == 0 {
          queues := queues - {owner};
        } else {
          queues := queues[owner := queue];
        }
        ShowActivity(next, now);
      }
    }

    method EnqueueActivity(a: Activity, now: int)
      requires Valid()
      modifies this
      ensures Valid() && RowOf(a.owner) == Enqueue(old(RowOf(a.owner)), a, now)
      ensures forall o :: o != a.owner ==> RowOf(o) == old(RowOf(o))
    {
      if a.owner !in slots {
        ShowActivity(a, now);
        return;
      }
      var shownFor := now - if a.owner in shownAt then shownAt[a.owner] else 0;
      var queue := if a.owner in queues then queues[a.owner] else [];
      if shownFor >= ACTIVITY_MIN_MS && |queue| == 0 {
        ShowActivity(a, now);
        return;
      }
      queues := queues[a.owner := queue + [a]];
      ScheduleActivity(a.owner, Max(0, ACTIVITY_MIN_MS - shownFor), now);
    }

    method ClearActivities()
      modifies this
      ensures Valid() && forall o :: RowOf(o) == EMPTY_ROW
    {
      timers, queues, shownAt, slots := map[], map[], map[], map[];
    }
  }
}
