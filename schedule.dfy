/**
 * Next-trigger computation of the broadcast loops. Times are whole seconds on the
 * Asia/Kolkata wall clock (UTC+05:30, no daylight saving), so a day starts at a
 * multiple of 86400. A slot is a whole hour of the day; the loop waits for the
 * earliest slot of today strictly after now, or else for the first slot of tomorrow.
 */
module Schedule {

  const Hour: int := 3600
  const Day: int := 86400

  /** 08:00, 12:00, 16:00, 20:00 for facts. */
  const FactSlots: seq<nat> := [8, 12, 16, 20]
  /** 09:00, 13:00, 17:00, 21:00 for trivia. */
  const TriviaSlots: seq<nat> := [9, 13, 17, 21]

  /** Hours of the day in increasing order, first one taken for "tomorrow". */
  predicate ValidSlots(hours: seq<nat>) {
    && |hours| > 0
    && (forall i :: 0 <= i < |hours| ==> hours[i] < 24)
    && (forall i, j :: 0 <= i < j < |hours| ==> hours[i] < hours[j])
  }

  /** Midnight of the day `now` falls on. */
  function DayStart(now: int): (d: int)
    ensures d <= now < d + Day && d % Day == 0
  {
    now - now % Day
  }

  /** `now.replace(hour=h, minute=0, second=0, microsecond=0)` for each slot. */
  function Targets(dayStart: int, hours: seq<nat>): (ts: seq<int>)
    ensures |ts| == |hours|
    ensures forall i :: 0 <= i < |hours| ==> ts[i] == dayStart + hours[i] * Hour
  {
    if hours == [] then [] else [dayStart + hours[0] * Hour] + Targets(dayStart, hours[1..])
  }

  /** `[t for t in ts if t > now]`. */
  function Later(ts: seq<int>, now: int): (r: seq<int>)
    ensures forall t :: t in r <==> t in ts && t > now
  {
    if ts == [] then []
    else if ts[0] > now then [ts[0]] + Later(ts[1..], now)
    else Later(ts[1..], now)
  }

  /** Python's `min` of a non-empty list. */
  function Min(ts: seq<int>): (m: int)
    requires ts != []
    ensures m in ts && forall t :: t in ts ==> m <= t
  {
    if |ts| == 1 then ts[0]
    else
      var rest := Min(ts[1..]);
      assert forall t :: t in ts ==> t == ts[0] || t in ts[1..];
      if ts[0] <= rest then ts[0] else rest
  }

  /** The instant the loop sleeps until (facts.py:93-102, facts.py:298-304, quiz.py:203-210). */
  function NextTrigger(now: int, hours: seq<nat>): int
    requires |hours| > 0
  {
    var targets := Targets(DayStart(now), hours);
    var valid := Later(targets, now);
    if valid != [] then Min(valid) else targets[0] + Day
  }

  /** `t` is one of the slot instants of some day. */
  ghost predicate IsSlotInstant(t: int, hours: seq<nat>) {
    exists i :: 0 <= i < |hours| && t % Day == hours[i] * Hour
  }

  lemma {:induction false} OffsetInDay(d: int, x: int)
    requires d % Day == 0 && 0 <= x < Day
    ensures (d + x) % Day == x && DayStart(d + x) == d
  {
  }

  /** Two midnights are equal or at least a day apart. */
  lemma {:induction false} Midnights(a: int, b: int)
    requires a % Day == 0 && b % Day == 0
    ensures a == b || a >= b + Day || a <= b - Day
  {
    var qa, qb := a / Day, b / Day;
    assert a == qa * Day && b == qb * Day;
    assert qa == qb || qa >= qb + 1 || qa <= qb - 1;
  }

  /** A slot instant is the slot's hour past its own day's midnight. */
  lemma {:induction false} SlotInstantAt(u: int, hours: seq<nat>) returns (i: nat)
    requires ValidSlots(hours) && IsSlotInstant(u, hours)
    ensures i < |hours| && u == DayStart(u) + hours[i] * Hour
  {
    i :| 0 <= i < |hours| && u % Day == hours[i] * Hour;
  }

  lemma {:induction false} SlotOrder(hours: seq<nat>)
    requires ValidSlots(hours)
    ensures forall i :: 0 <= i < |hours| ==> hours[0] <= hours[i] <= hours[|hours| - 1]
  {
    forall i | 0 <= i < |hours| ensures hours[0] <= hours[i] <= hours[|hours| - 1] {
      assert i == 0 || hours[0] < hours[i];
      assert i == |hours| - 1 || hours[i] < hours[|hours| - 1];
    }
  }

  /** The next trigger is a slot instant strictly after now and at most one day later. */
  lemma {:induction false} NextTriggerIsSlotAhead(now: int, hours: seq<nat>)
    requires ValidSlots(hours)
    ensures var t := NextTrigger(now, hours);
      now < t <= now + Day && IsSlotInstant(t, hours)
  {
    var d := DayStart(now);
    var targets := Targets(d, hours);
    var valid := Later(targets, now);
    var t := NextTrigger(now, hours);
    var last := |hours| - 1;
    SlotOrder(hours);
    if valid != [] {
      assert t in targets;
      var i :| 0 <= i < |hours| && t == targets[i];
      OffsetInDay(d, hours[i] * Hour);
      assert t % Day == hours[i] * Hour;
    } else {
      assert targets[last] !in valid;
      OffsetInDay(d + Day, hours[0] * Hour);
      assert t % Day == hours[0] * Hour;
    }
  }

  /** Every slot instant after now is at or after the next trigger. */
  lemma {:induction false} NextTriggerIsFirst(now: int, u: int, hours: seq<nat>)
    requires ValidSlots(hours)
    requires now < u && IsSlotInstant(u, hours)
    ensures NextTrigger(now, hours) <= u
  {
    var d := DayStart(now);
    var targets := Targets(d, hours);
    var valid := Later(targets, now);
    SlotOrder(hours);
    var i := SlotInstantAt(u, hours);
    var du := DayStart(u);
    Midnights(du, d);
    if du == d {
      assert targets[i] == u;
      assert u in valid;
    } else if valid != [] {
      var t := NextTrigger(now, hours);
      assert t in targets;
    }
  }

  /**
   * The next trigger is strictly after now, at most one day later, on a slot, and every
   * slot instant after now is at or after it: no slot lies strictly between.
   */
  lemma {:induction false} NextTriggerSpec(now: int, hours: seq<nat>)
    requires ValidSlots(hours)
    ensures var t := NextTrigger(now, hours);
      && now < t <= now + Day
      && IsSlotInstant(t, hours)
      && forall u :: now < u && IsSlotInstant(u, hours) ==> t <= u
  {
    NextTriggerIsSlotAhead(now, hours);
    forall u | now < u && IsSlotInstant(u, hours) ensures NextTrigger(now, hours) <= u {
      NextTriggerIsFirst(now, u, hours);
    }
  }

  /** Waking up at any instant before the computed trigger leads to the same trigger: no drift. */
  lemma {:induction false} NextTriggerStable(now: int, u: int, hours: seq<nat>)
    requires ValidSlots(hours)
    requires now <= u < NextTrigger(now, hours)
    ensures NextTrigger(u, hours) == NextTrigger(now, hours)
  {
    NextTriggerSpec(now, hours);
    NextTriggerSpec(u, hours);
  }

  /** A later present never yields an earlier trigger. */
  lemma {:induction false} NextTriggerMonotone(a: int, b: int, hours: seq<nat>)
    requires ValidSlots(hours)
    requires a <= b
    ensures NextTrigger(a, hours) <= NextTrigger(b, hours)
  {
    NextTriggerSpec(a, hours);
    NextTriggerSpec(b, hours);
  }

  /** Waking at the trigger (or later, after a failed cycle) never fires the same slot twice. */
  lemma {:induction false} NoDoubleFire(now: int, woke: int, hours: seq<nat>)
    requires ValidSlots(hours)
    requires woke >= NextTrigger(now, hours)
    ensures NextTrigger(woke, hours) > NextTrigger(now, hours)
  {
    NextTriggerSpec(woke, hours);
  }

  /**
   * If slot `j` is the first slot after offset `x` of day `d`, it is the next trigger at
   * `d + x`.
   */
  lemma {:induction false} SlotAfterWithinDay(d: int, x: int, j: nat, hours: seq<nat>)
    requires ValidSlots(hours) && d % Day == 0 && j < |hours| && 0 <= x < hours[j] * Hour
    requires forall i :: 0 <= i < |hours| ==> hours[i] * Hour <= x || hours[j] <= hours[i]
    ensures NextTrigger(d + x, hours) == d + hours[j] * Hour
  {
    var now := d + x;
    OffsetInDay(d, x);
    var targets := Targets(d, hours);
    var valid := Later(targets, now);
    assert targets[j] in valid;
    var t := Min(valid);
    assert t in targets;
    var i :| 0 <= i < |hours| && t == targets[i];
    assert hours[i] * Hour > x;
    assert hours[j] <= hours[i];
  }

  lemma SlotTablesValid()
    ensures ValidSlots(FactSlots) && ValidSlots(TriviaSlots)
  {
  }

  /** At 08:30 the next fact goes out at 12:00 the same day. */
  lemma {:induction false} FactsAtHalfPastEight(d: int)
    requires d % Day == 0
    ensures NextTrigger(d + 8 * Hour + 1800, FactSlots) == d + 12 * Hour
  {
    SlotAfterWithinDay(d, 8 * Hour + 1800, 1, FactSlots);
  }

  /** At 20:30 the next fact goes out at 08:00 the next day. */
  lemma {:induction false} FactsAtHalfPastEightPm(d: int)
    requires d % Day == 0
    ensures NextTrigger(d + 20 * Hour + 1800, FactSlots) == d + Day + 8 * Hour
  {
    OffsetInDay(d, 20 * Hour + 1800);
  }

  /** Exactly at a slot instant that slot is skipped: at 13:00 the next trivia is at 17:00. */
  lemma {:induction false} TriviaAtSlotSkipsIt(d: int)
    requires d % Day == 0
    ensures NextTrigger(d + 13 * Hour, TriviaSlots) == d + 17 * Hour
  {
    SlotAfterWithinDay(d, 13 * Hour, 2, TriviaSlots);
  }
}
