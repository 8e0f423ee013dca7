/** Firing check-ins on a tick: when a person is due, and how often they are fired at. */
module Scheduler {
  import opened Clock
  import opened Options

  /** London's offset from UTC at an instant. */
  type Zone = Time -> int

  function Local(zone: Zone, t: Time): int { t + zone(t) }

  function DayOf(zone: Zone, t: Time): int { Local(zone, t) / DAY }

  function HourOf(zone: Zone, t: Time): int { (Local(zone, t) % DAY) / HOUR }

  /** Instants count from 1 January 1970, a Thursday; 0 is Sunday. */
  function WeekdayOf(zone: Zone, t: Time): int { (DayOf(zone, t) + 4) % 7 }

  predicate SameSlot(zone: Zone, s: Time, t: Time) {
    DayOf(zone, s) == DayOf(zone, t) && HourOf(zone, s) == HourOf(zone, t)
  }

  /** The start of the hour `now` is in, on London's clock. */
  function SlotStart(zone: Zone, now: Time): Time {
    now - Local(zone, now) % HOUR
  }

  /** Clocks change at night: inside the nine and twenty o'clock hours the offset is constant. */
  ghost predicate ChangesAtNight(zone: Zone) {
    forall s, t :: SameSlot(zone, s, t) && (HourOf(zone, t) == 9 || HourOf(zone, t) == 20) ==> zone(s) == zone(t)
  }

  datatype Answer = Agreed | Refused

  /** What a tick reads of a profile; `consent` is the last answer or refusal of the check-in
      question, and nothing if it was only ever skipped. */
  datatype Profile = Profile(onboarded: bool, frequency: string, consent: Option<Answer>)

  function SlotHours(frequency: string): seq<int> {
    if frequency == "twice-daily" then [9, 20] else [9]
  }

  predicate Due(zone: Zone, p: Profile, last: Option<Time>, now: Time) {
    && p.onboarded
    && !(p.frequency == "weekdays" && (WeekdayOf(zone, now) == 6 || WeekdayOf(zone, now) == 0))
    && HourOf(zone, now) in SlotHours(p.frequency)
    && (last.None? || last.value < SlotStart(zone, now))
  }

  method DueNow(zone: Zone, p: Profile, last: Option<Time>, now: Time) returns (due: bool)
    ensures due == Due(zone, p, last, now)
  {
    if !p.onboarded {
      return false;
    }
    if p.frequency == "weekdays" {
      if WeekdayOf(zone, now) == 6 || WeekdayOf(zone, now) == 0 {
        return false;
      }
    }
    var slot := -1;
    var hours := SlotHours(p.frequency);
    for i := 0 to |hours|
      invariant slot == if HourOf(zone, now) in hours[..i] then HourOf(zone, now) else -1
    {
      if HourOf(zone, now) == hours[i] {
        slot := hours[i];
      }
    }
    if slot < 0 {
      return false;
    }
    if last.None? {
      return true;
    }
    return last.value < SlotStart(zone, now);
  }

  predicate Fires(zone: Zone, p: Profile, last: Option<Time>, now: Time) {
    Due(zone, p, last, now) && p.consent != Some(Refused)
  }

  datatype User = User(id: int, profile: Profile, last: Option<Time>)

  /** The last_triggered_at column, and what one person's row of it holds. */
  type Column = map<int, Time>

  function Row(last: Column, id: int): Option<Time> {
    if id in last then Some(last[id]) else None
  }

  function Stamped(last: Column, id: int, at: Time): Column {
    last[id := at]
  }

  datatype Pass = Pass(fired: seq<int>, last: Column)

  /** One pass over the profiles as they were read when it began.  `stamps` says when each firing
      came to be recorded. */
  function TickPass(zone: Zone, users: seq<User>, stamps: seq<Time>, last: Column, now: Time): Pass
    requires |stamps| == |users|
  {
    if users == [] then Pass([], last)
    else
      var n := |users| - 1;
      var p, u := TickPass(zone, users[..n], stamps[..n], last, now), users[n];
      if Fires(zone, u.profile, u.last, now) then Pass(p.fired + [u.id], Stamped(p.last, u.id, stamps[n])) else p
  }

  class Triggers {
    var last: Column

    constructor ()
      ensures last == map[]
    {
      last := map[];
    }

    method MarkTriggered(id: int, at: Time)
      modifies this
      ensures last == Stamped(old(last), id, at)
    {
      last := last[id := at];
    }

    method Tick(zone: Zone, users: seq<User>, now: Time, stamps: seq<Time>) returns (fired: seq<int>)
      requires |stamps| == |users|
      modifies this
      ensures Pass(fired, last) == TickPass(zone, users, stamps, old(last), now)
    {
      fired := [];
      for i := 0 to |users|
        invariant Pass(fired, last) == TickPass(zone, users[..i], stamps[..i], old(last), now)
      {
        assert users[..i + 1][..i] == users[..i] && stamps[..i + 1][..i] == stamps[..i];
        var u := users[i];
        var due := DueNow(zone, u.profile, u.last, now);
        if !due {
          continue;
        }
        if u.profile.consent == Some(Refused) {
          continue;
        }
        fired := fired + [u.id];
        MarkTriggered(u.id, stamps[i]);
      }
      assert users[..|users|] == users && stamps[..|stamps|] == stamps;
    }
  }

  // ----- one person, any sequence of ticks and triggers ------------------------------------------

  datatype Event =
    | Tick(now: Time, profile: Profile)   // reads the profile and decides
    | Stamp(now: Time)                    // the firing under way is recorded
    | Manual(now: Time)                   // any other trigger

  /** `fired` lists the ticks that fired, and `whom` the profile each of them read. */
  datatype State = State(last: Option<Time>, pending: bool, fired: seq<Time>, whom: seq<Profile>)

  const START := State(None, false, [], [])

  /** Ticks run one after another, so none starts while a firing is under way. */
  function Step(zone: Zone, s: State, e: Event): State {
    match e
    case Tick(now, p) =>
      if !s.pending && Fires(zone, p, s.last, now) then State(s.last, true, s.fired + [now], s.whom + [p]) else s
    case Stamp(now) => if s.pending then s.(last := Some(now), pending := false) else s
    case Manual(now) => s.(last := Some(now))
  }

  function Run(zone: Zone, run: seq<Event>): State {
    if run == [] then START else Step(zone, Run(zone, run[..|run| - 1]), run[|run| - 1])
  }

  predicate Ordered(run: seq<Event>) {
    forall i, j :: 0 <= i < j < |run| ==> run[i].now <= run[j].now
  }

  predicate InSlotHours(zone: Zone, t: Time) {
    HourOf(zone, t) == 9 || HourOf(zone, t) == 20
  }

  predicate Inv(zone: Zone, s: State, now: Time) {
    && (s.last.Some? ==> s.last.value <= now)
    && (forall i :: 0 <= i < |s.fired| ==> s.fired[i] <= now && InSlotHours(zone, s.fired[i]))
    && (forall i, j :: 0 <= i < j < |s.fired| ==> s.fired[i] <= s.fired[j] && !SameSlot(zone, s.fired[i], s.fired[j]))
    && (s.fired != [] && !s.pending ==> s.last.Some? && s.last.value >= s.fired[|s.fired| - 1])
  }

  /** In a slot hour, anything earlier in that slot is not before the slot's start. */
  lemma SlotHoldsItsOwn(zone: Zone, s: Time, t: Time)
    requires ChangesAtNight(zone) && SameSlot(zone, s, t) && InSlotHours(zone, t)
    ensures s >= SlotStart(zone, t)
  {
    var a, b := Local(zone, s), Local(zone, t);
    assert zone(s) == zone(t);
    assert a / DAY == b / DAY && (a % DAY) / HOUR == (b % DAY) / HOUR;
    DayHour(a);
    DayHour(b);
  }

  lemma DayHour(x: int)
    ensures x == (x / DAY) * DAY + ((x % DAY) / HOUR) * HOUR + x % HOUR
  {
    assert DAY == 24 * HOUR;
    assert x % DAY == ((x % DAY) / HOUR) * HOUR + (x % DAY) % HOUR;
    assert (x % DAY) % HOUR == x % HOUR by {
      var q, r := x / DAY, x % DAY;
      assert x == q * 24 * HOUR + r;
      ModShift(r, q * 24);
    }
  }

  lemma ModShift(r: int, k: int)
    ensures (k * HOUR + r) % HOUR == r % HOUR
  {
  }

  /** Whoever was fired at in a slot is not fired at again in it. */
  lemma NotTwiceInASlot(zone: Zone, s: State, p: Profile, was: Time, now: Time, i: int)
    requires ChangesAtNight(zone) && Inv(zone, s, was) && was <= now && !s.pending
    requires 0 <= i < |s.fired| && SameSlot(zone, s.fired[i], now)
    ensures !Fires(zone, p, s.last, now)
  {
    if Fires(zone, p, s.last, now) {
      SlotHoldsItsOwn(zone, s.fired[i], now);
    }
  }

  lemma FiringKeepsInv(zone: Zone, s: State, p: Profile, was: Time, now: Time)
    requires ChangesAtNight(zone) && Inv(zone, s, was) && was <= now && !s.pending && Fires(zone, p, s.last, now)
    ensures Inv(zone, State(s.last, true, s.fired + [now], s.whom + [p]), now)
  {
    forall i | 0 <= i < |s.fired| ensures !SameSlot(zone, s.fired[i], now) {
      if SameSlot(zone, s.fired[i], now) {
        NotTwiceInASlot(zone, s, p, was, now, i);
      }
    }
  }

  lemma {:induction false} RunKeepsInv(zone: Zone, run: seq<Event>, now: Time)
    requires ChangesAtNight(zone) && Ordered(run) && (run != [] ==> run[|run| - 1].now <= now)
    ensures Inv(zone, Run(zone, run), now)
  {
    if run != [] {
      var front, e := run[..|run| - 1], run[|run| - 1];
      RunKeepsInv(zone, front, e.now);
      var s := Run(zone, front);
      if e.Tick? && !s.pending && Fires(zone, e.profile, s.last, e.now) {
        FiringKeepsInv(zone, s, e.profile, e.now, e.now);
      }
    }
  }

  /** At most one scheduled firing per person, London date and slot, over any sequence of ticks,
      manual triggers and profile changes. */
  lemma AtMostOncePerSlot(zone: Zone, run: seq<Event>, i: nat, j: nat)
    requires ChangesAtNight(zone) && Ordered(run)
    requires i < j < |Run(zone, run).fired|
    ensures !SameSlot(zone, Run(zone, run).fired[i], Run(zone, run).fired[j])
  {
    RunKeepsInv(zone, run, if run == [] then 0 else run[|run| - 1].now);
  }

  lemma {:induction false} FiredStays(zone: Zone, run: seq<Event>, more: seq<Event>)
    ensures Run(zone, run).fired <= Run(zone, run + more).fired
  {
    if more == [] {
      assert run + more == run;
    } else {
      assert (run + more)[..|run + more| - 1] == run + more[..|more| - 1];
      FiredStays(zone, run, more[..|more| - 1]);
    }
  }

  lemma {:induction false} LastIsATrigger(zone: Zone, run: seq<Event>, start: Time)
    requires forall i :: 0 <= i < |run| && !run[i].Tick? ==> run[i].now < start
    ensures Run(zone, run).last.Some? ==> Run(zone, run).last.value < start
  {
    if run != [] {
      LastIsATrigger(zone, run[..|run| - 1], start);
    }
  }

  /** Firing `i` is in the slot of `now`, and no other is. */
  predicate OnlyFiringIn(zone: Zone, fired: seq<Time>, now: Time, i: int) {
    && 0 <= i < |fired|
    && SameSlot(zone, fired[i], now)
    && forall j :: 0 <= j < |fired| && j != i ==> !SameSlot(zone, fired[j], now)
  }

  /** And exactly once: if a tick falls in one of the person's slots, with nothing triggered in
      that slot before it and no firing left over from an earlier slot, then that slot sees one
      firing and never another. */
  lemma ExactlyOnceWhenTicked(zone: Zone, run: seq<Event>, now: Time, p: Profile, more: seq<Event>)
    requires ChangesAtNight(zone) && Ordered(run + [Tick(now, p)] + more)
    requires Fires(zone, p, None, now)
    requires forall i :: 0 <= i < |run| && !run[i].Tick? ==> run[i].now < SlotStart(zone, now)
    requires var s := Run(zone, run);
      s.pending ==> s.fired != [] && SameSlot(zone, s.fired[|s.fired| - 1], now)
    ensures exists i :: OnlyFiringIn(zone, Run(zone, run + [Tick(now, p)] + more).fired, now, i)
  {
    var all := run + [Tick(now, p)] + more;
    var s, s' := Run(zone, run), Run(zone, run + [Tick(now, p)]);
    assert (run + [Tick(now, p)])[..|run|] == run;
    LastIsATrigger(zone, run, SlotStart(zone, now));
    var i := |s'.fired| - 1;
    assert s'.fired != [] && SameSlot(zone, s'.fired[i], now);
    FiredStays(zone, run + [Tick(now, p)], more);
    var fired := Run(zone, all).fired;
    assert fired[i] == s'.fired[i];
    forall j | 0 <= j < |fired| && j != i ensures !SameSlot(zone, fired[j], now) {
      if i < j {
        AtMostOncePerSlot(zone, all, i, j);
      } else {
        AtMostOncePerSlot(zone, all, j, i);
      }
    }
    assert OnlyFiringIn(zone, fired, now, i);
  }

  /** Whom a scheduled check-in may reach at an instant. */
  predicate MayBeReached(zone: Zone, p: Profile, now: Time) {
    && p.onboarded
    && p.consent != Some(Refused)
    && !(p.frequency == "weekdays" && WeekdayOf(zone, now) in {0, 6})
    && (HourOf(zone, now) == 9 || (HourOf(zone, now) == 20 && p.frequency == "twice-daily"))
  }

  /** Firing `i` is that of tick `k`, and of somebody who may be reached. */
  predicate FiredByTick(zone: Zone, run: seq<Event>, s: State, i: int, k: int) {
    && 0 <= i < |s.fired| == |s.whom| && 0 <= k < |run|
    && run[k] == Tick(s.fired[i], s.whom[i])
    && MayBeReached(zone, s.whom[i], s.fired[i])
  }

  /** Over any ticks, stamps, triggers and profile changes, every firing is that of a tick which
      found the person introduced, not having refused, and in a slot of their own schedule: never
      someone un-onboarded or refusing, never a weekday schedule at a weekend. */
  lemma {:induction false} OnlyTheWillingAreFiredAt(zone: Zone, run: seq<Event>, i: nat)
    requires i < |Run(zone, run).fired|
    ensures exists k :: FiredByTick(zone, run, Run(zone, run), i, k)
  {
    EachFiringIsOfSomebody(zone, run);
    var n := |run| - 1;
    var before, s := Run(zone, run[..n]), Run(zone, run);
    EachFiringIsOfSomebody(zone, run[..n]);
    if i < |before.fired| {
      OnlyTheWillingAreFiredAt(zone, run[..n], i);
      var k :| FiredByTick(zone, run[..n], before, i, k);
      assert FiredByTick(zone, run, s, i, k);
    } else {
      assert FiredByTick(zone, run, s, i, n);
    }
  }

  lemma {:induction false} EachFiringIsOfSomebody(zone: Zone, run: seq<Event>)
    ensures |Run(zone, run).whom| == |Run(zone, run).fired|
  {
    if run != [] {
      EachFiringIsOfSomebody(zone, run[..|run| - 1]);
    }
  }

  // ----- a pass is a step for each ---------------------------------------------------------------

  lemma {:induction false} PassTouchesOnlyItsOwn(zone: Zone, users: seq<User>, stamps: seq<Time>, last: Column, now: Time, id: int)
    requires |stamps| == |users| && forall i :: 0 <= i < |users| ==> users[i].id != id
    ensures id !in TickPass(zone, users, stamps, last, now).fired
    ensures Row(TickPass(zone, users, stamps, last, now).last, id) == Row(last, id)
  {
    if users != [] {
      var n := |users| - 1;
      PassTouchesOnlyItsOwn(zone, users[..n], stamps[..n], last, now, id);
    }
  }

  /** A pass over everybody is, for each person in it, that person's tick and stamp and nothing
      else. */
  lemma {:induction false} PassIsAStepForEach(
    zone: Zone, users: seq<User>, stamps: seq<Time>, last: Column, now: Time, i: nat, s: State)
    requires |stamps| == |users| && i < |users|
    requires forall j, k :: 0 <= j < k < |users| ==> users[j].id != users[k].id
    requires !s.pending && s.last == users[i].last == Row(last, users[i].id)
    ensures var p := TickPass(zone, users, stamps, last, now);
      var s' := Step(zone, Step(zone, s, Tick(now, users[i].profile)), Stamp(stamps[i]));
      && Row(p.last, users[i].id) == s'.last
      && (users[i].id in p.fired <==> s'.fired == s.fired + [now])
      && (users[i].id !in p.fired <==> s' == s)
  {
    var n := |users| - 1;
    var u := users[i];
    if i < n {
      PassIsAStepForEach(zone, users[..n], stamps[..n], last, now, i, s);
      assert users[n].id != u.id;
    } else {
      PassTouchesOnlyItsOwn(zone, users[..n], stamps[..n], last, now, u.id);
    }
  }

  /** A tick fires at whoever may be reached and was not triggered since the hour began, and at nobody
      else: the morning slot of everybody, weekends included but for weekday schedules, and the
      evening slot of those who asked for two. */
  lemma FiresExactlyAtWhoMayBeReached(zone: Zone, p: Profile, last: Option<Time>, now: Time)
    ensures Fires(zone, p, last, now)
       <==> MayBeReached(zone, p, now) && (last.None? || last.value < now - Local(zone, now) % HOUR)
  {
    assert SlotHours(p.frequency)[0] == 9;
    assert p.frequency == "twice-daily" ==> SlotHours(p.frequency)[1] == 20;
  }

  /** A firing has not been recorded yet. */
  predicate Underway(zone: Zone, run: seq<Event>) {
    if run == [] then false
    else
      var front, e := run[..|run| - 1], run[|run| - 1];
      match e
      case Tick(_, _) => Underway(zone, front) || |Run(zone, run).fired| > |Run(zone, front).fired|
      case Stamp(_) => false
      case Manual(_) => Underway(zone, front)
  }

  /** When anything was triggered: by hand, or by a firing that came to be recorded. */
  function TriggersOf(zone: Zone, run: seq<Event>): seq<Time> {
    if run == [] then []
    else
      var front, e := run[..|run| - 1], run[|run| - 1];
      var rest := TriggersOf(zone, front);
      if e.Manual? || (e.Stamp? && Underway(zone, front)) then rest + [e.now] else rest
  }

  predicate TriggeredSince(zone: Zone, run: seq<Event>, start: Time) {
    exists i :: 0 <= i < |TriggersOf(zone, run)| && TriggersOf(zone, run)[i] >= start
  }

  lemma {:induction false} TriggersAreOrdered(zone: Zone, run: seq<Event>, now: Time)
    requires Ordered(run) && (run != [] ==> run[|run| - 1].now <= now)
    ensures forall i, j :: 0 <= i < j < |TriggersOf(zone, run)| ==> TriggersOf(zone, run)[i] <= TriggersOf(zone, run)[j]
    ensures forall i :: 0 <= i < |TriggersOf(zone, run)| ==> TriggersOf(zone, run)[i] <= now
  {
    if run != [] {
      TriggersAreOrdered(zone, run[..|run| - 1], run[|run| - 1].now);
    }
  }

  lemma {:induction false} RowIsTheLastTrigger(zone: Zone, run: seq<Event>)
    ensures var triggers := TriggersOf(zone, run);
      && Run(zone, run).pending == Underway(zone, run)
      && Run(zone, run).last == if triggers == [] then None else Some(triggers[|triggers| - 1])
  {
    if run != [] {
      RowIsTheLastTrigger(zone, run[..|run| - 1]);
    }
  }

  /** Over every run, a tick fires exactly when the person may be reached, no firing is still under
      way, and nothing was triggered since the hour began, whether by hand or by an earlier tick. */
  lemma TickFiresExactlyWhen(zone: Zone, run: seq<Event>, p: Profile, now: Time)
    requires Ordered(run)
    ensures Step(zone, Run(zone, run), Tick(now, p)).fired
         == if MayBeReached(zone, p, now) && !Underway(zone, run) && !TriggeredSince(zone, run, now - Local(zone, now) % HOUR)
            then Run(zone, run).fired + [now] else Run(zone, run).fired
  {
    var triggers := TriggersOf(zone, run);
    RowIsTheLastTrigger(zone, run);
    TriggersAreOrdered(zone, run, if run == [] then now else run[|run| - 1].now);
    FiresExactlyAtWhoMayBeReached(zone, p, Run(zone, run).last, now);
    if triggers != [] {
      assert forall i :: 0 <= i < |triggers| ==> triggers[i] <= triggers[|triggers| - 1];
    }
  }
}
