/** Upload pacing of one account: learning a safe rate from flood waits, and
    handing out send slots at that rate. Times and rates are exact reals. */
module UploadLimiter {
  import opened Foundations

  const MINIMUM: real := 0.5
  const MAXIMUM: real := 12.0
  const INITIAL: real := 4.0
  const BURST: real := 2.0
  const DECREASE_FACTOR: real := 0.5
  const INCREASE_STEP: real := 0.5
  const INCREASE_INTERVAL: real := 10.0
  const CLEAN_WINDOW: real := 20.0
  const FIRST_BACKOFF: real := 0.5
  const BACKOFF: real := 0.95
  const CEILING_FLOOR: real := 1.0
  const SLOW_ZONE: real := 0.8
  const SLOW_STEP: real := 0.1
  const SLOW_INTERVAL: real := 30.0
  const PROBE_COOLDOWN: real := 300.0
  const PROBE_COOLDOWN_MAX: real := 1800.0
  const PROBE_STEP: real := 0.2
  const PROBE_CONFIRM: real := 60.0
  const ESCALATION_COUNT: nat := 3
  const ESCALATION_WINDOW: real := 120.0
  const ESCALATED_DECREASE_FACTOR: real := 0.3
  const ESCALATED_CEILING_FACTOR: real := 0.9
  const ESCALATED_CLEAN_WINDOW: real := 60.0
  const ESCALATION_RESET: real := 600.0
  const PREMIUM_CLEAN_WINDOW: real := 60.0
  const DAY: real := 86400.0

  function Least(a: real, b: real): real { if b < a then b else a }

  function Most(a: real, b: real): real { if b > a then b else a }

  datatype Mode = Normal | Frozen | Cautious

  datatype Saved = Saved(rate: real, ceiling: Option<real>)

  /** Everything one account's limiter remembers. */
  datatype Limiter = Limiter(
    rate: real, ceiling: Option<real>,
    nextSlotAt: real, penaltyUntil: real,
    lastFloodAt: Option<real>, lastIncreaseAt: real,
    floods: nat, floodEvents: seq<real>, escalatedUntil: real,
    probeStartedAt: Option<real>, probeCooldown: real, lastProbeEndedAt: real,
    mode: Mode, cleanWindowStart: Option<real>,
    saved: Option<Saved>)

  // ------------------------------------------------------------------- restarting

  /** `_RateStore.load`: what a restart makes of a stored rate and ceiling. */
  function Load(rate: real, ceiling: Option<real>, age: real): Option<Saved> {
    if age >= DAY then None
    else
      var c := if ceiling.Some? && ceiling.value > 0.0
               then Some(Least(MAXIMUM, Most(CEILING_FLOOR, ceiling.value))) else None;
      var cap := if c.Some? then c.value else MAXIMUM;
      Some(Saved(Least(MAXIMUM, Most(MINIMUM, Least(rate, cap) * 0.8)), c))
  }

  function Fresh(now: real, restored: Option<Saved>): Limiter {
    Limiter(if restored.Some? then restored.value.rate else INITIAL,
            if restored.Some? then restored.value.ceiling else None,
            0.0, 0.0, None, 0.0, 0, [], 0.0, None, PROBE_COOLDOWN, now, Normal, None, None)
  }

  // ----------------------------------------------------------------------- learning

  function WaitSeconds(seconds: Option<real>): real {
    if seconds.Some? && seconds.value > 0.0 then seconds.value else 10.0
  }

  function Recent(events: seq<real>, now: real): seq<real> {
    if events == [] then []
    else
      var last := events[|events| - 1];
      Recent(events[..|events| - 1], now) + if now - last < ESCALATION_WINDOW then [last] else []
  }

  /** The flood is the third within the escalation window. */
  predicate Escalates(l: Limiter, now: real) { |Recent(l.floodEvents + [now], now)| >= ESCALATION_COUNT }

  function LearnedCeiling(l: Limiter, now: real): real {
    var raw := match l.ceiling
               case None => l.rate * FIRST_BACKOFF
               case Some(c) => Least(l.rate * BACKOFF, (c + l.rate) / 2.0);
    var scaled := if Escalates(l, now) then raw * ESCALATED_CEILING_FACTOR else raw;
    Least(MAXIMUM, Most(CEILING_FLOOR, scaled))
  }

  /** An ordinary flood outside the current penalty teaches a lower rate. */
  function Learn(l: Limiter, now: real): Limiter {
    var c := LearnedCeiling(l, now);
    var factor := if Escalates(l, now) then ESCALATED_DECREASE_FACTOR else DECREASE_FACTOR;
    var rate := if l.probeStartedAt.Some? then Most(MINIMUM, c * SLOW_ZONE) else Most(MINIMUM, l.rate * factor);
    l.(floodEvents := Recent(l.floodEvents + [now], now),
       escalatedUntil := if Escalates(l, now) then now + ESCALATION_RESET else l.escalatedUntil,
       ceiling := Some(c), rate := rate,
       probeCooldown := if l.probeStartedAt.Some?
         then Least(l.probeCooldown * 2.0, PROBE_COOLDOWN_MAX) else l.probeCooldown,
       lastProbeEndedAt := if l.probeStartedAt.Some? then now else l.lastProbeEndedAt,
       probeStartedAt := None, saved := Some(Saved(rate, Some(c))))
  }

  function Penalized(l: Limiter, now: real, wait: real): Limiter {
    var until := Most(l.penaltyUntil, now + wait + 1.0);
    l.(penaltyUntil := until, nextSlotAt := Most(l.nextSlotAt, until))
  }

  function OnFlood(l: Limiter, now: real, seconds: Option<real>, premium: bool): Limiter {
    var wait := WaitSeconds(seconds);
    if premium then
      Penalized(l.(mode := Frozen, cleanWindowStart := None, lastFloodAt := Some(now)), now, wait)
    else
      var l1 := l.(floods := l.floods + 1, lastFloodAt := Some(now),
                   mode := if l.mode.Normal? then Normal else Frozen,
                   cleanWindowStart := if l.mode.Normal? then l.cleanWindowStart else None);
      Penalized(if now >= l.penaltyUntil then Learn(l1, now) else l1, now, wait)
  }

  function OnSendStarted(l: Limiter, now: real): Limiter {
    if l.mode.Frozen? && now >= l.penaltyUntil && l.cleanWindowStart.None? then l.(cleanWindowStart := Some(now)) else l
  }

  function Raised(l: Limiter, now: real, rate: real): Limiter {
    l.(lastIncreaseAt := now, rate := rate, saved := Some(Saved(rate, l.ceiling)))
  }

  /** A sent part in normal mode: climb, settle a probe, or start one. */
  function Climb(l: Limiter, now: real): Limiter {
    var clean := if now < l.escalatedUntil then ESCALATED_CLEAN_WINDOW else CLEAN_WINDOW;
    if l.lastFloodAt.Some? && now - l.lastFloodAt.value < clean then l
    else if l.rate >= MAXIMUM then l
    else if l.ceiling.None? then
      if now - l.lastIncreaseAt < INCREASE_INTERVAL then l
      else Raised(l, now, Least(MAXIMUM, l.rate + INCREASE_STEP))
    else
      var c := l.ceiling.value;
      if l.probeStartedAt.Some? && now - l.probeStartedAt.value >= PROBE_CONFIRM then
        var confirmed := Least(MAXIMUM, l.rate);
        l.(ceiling := Some(confirmed), probeStartedAt := None, lastProbeEndedAt := now,
           probeCooldown := PROBE_COOLDOWN, saved := Some(Saved(l.rate, Some(confirmed))))
      else if l.rate < c * SLOW_ZONE then
        if now - l.lastIncreaseAt < INCREASE_INTERVAL then l
        else Raised(l, now, Least(c * SLOW_ZONE, l.rate + INCREASE_STEP))
      else if l.rate < c then
        if now - l.lastIncreaseAt < SLOW_INTERVAL then l
        else Raised(l, now, Least(c, l.rate + SLOW_STEP))
      else if l.probeStartedAt.Some? then l
      else if l.lastFloodAt.Some? && now - l.lastFloodAt.value < l.probeCooldown then l
      else if now - l.lastProbeEndedAt < l.probeCooldown then l
      else Raised(l, now, Least(MAXIMUM, l.rate + PROBE_STEP)).(probeStartedAt := Some(now))
  }

  function OnSuccess(l: Limiter, now: real): Limiter {
    match l.mode
    case Frozen =>
      if l.cleanWindowStart.None? || now - l.cleanWindowStart.value < PREMIUM_CLEAN_WINDOW then l
      else l.(mode := Cautious, lastIncreaseAt := now)
    case Cautious =>
      var cap := if l.ceiling.None? then MAXIMUM else Least(MAXIMUM, l.ceiling.value);
      if now - l.lastIncreaseAt < SLOW_INTERVAL || l.rate >= cap then l
      else Raised(l, now, Least(cap, l.rate + SLOW_STEP))
    case Normal => Climb(l, now)
  }

  // -------------------------------------------------------------- what always holds

  /** The limits every history keeps. During a probe the rate stands exactly one
      step above the ceiling; outside a probe it never exceeds it. What was last
      handed to the store is what is in force. */
  ghost predicate Inv(l: Limiter) {
    && MINIMUM <= l.rate <= MAXIMUM
    && (l.ceiling.Some? ==> CEILING_FLOOR <= l.ceiling.value <= MAXIMUM)
    && (l.probeStartedAt.None? && l.ceiling.Some? ==> l.rate <= l.ceiling.value)
    && (l.probeStartedAt.Some? ==>
          l.ceiling.Some? && l.ceiling.value < MAXIMUM && l.rate == Least(MAXIMUM, l.ceiling.value + PROBE_STEP))
    && PROBE_COOLDOWN <= l.probeCooldown <= PROBE_COOLDOWN_MAX
    && l.penaltyUntil <= l.nextSlotAt
    && (l.saved.Some? ==> l.saved.value == Saved(l.rate, l.ceiling))
  }

  lemma FreshInv(now: real, rate: real, ceiling: Option<real>, age: real)
    ensures Inv(Fresh(now, None))
    ensures Load(rate, ceiling, age).Some? ==> Inv(Fresh(now, Load(rate, ceiling, age)))
  {
  }

  lemma FloodInv(l: Limiter, now: real, seconds: Option<real>, premium: bool)
    requires Inv(l)
    ensures Inv(OnFlood(l, now, seconds, premium))
  {
  }

  lemma SuccessInv(l: Limiter, now: real)
    requires Inv(l)
    ensures Inv(OnSuccess(l, now))
  {
  }

  // ------------------------------------------------------------------- send slots

  /** One pass of `pace`: when it was asked, and the instant it was given. */
  datatype Slot = Slot(asked: real, start: real, interval: real)

  function NextSlot(l: Limiter, now: real): Slot
    requires l.rate > 0.0
  {
    var interval := 1.0 / l.rate;
    var earliest := Most(now, l.penaltyUntil);
    Slot(now, Most(l.nextSlotAt, earliest - BURST * interval), interval)
  }

  function OnSlot(l: Limiter, now: real): Limiter
    requires l.rate > 0.0
  {
    var slot := NextSlot(l, now);
    l.(nextSlotAt := slot.start + slot.interval)
  }

  /** When an exact sleeper wakes for a slot. */
  function WakeAt(s: Slot): real { Most(s.asked, s.start) }

  // ------------------------------------------------------------------ whole histories

  datatype Event =
    | Flood(now: real, seconds: Option<real>, premium: bool)
    | Success(now: real)
    | SendStarted(now: real)
    | Asked(now: real)

  function Step(l: Limiter, e: Event): Limiter {
    match e
    case Flood(now, seconds, premium) => OnFlood(l, now, seconds, premium)
    case Success(now) => OnSuccess(l, now)
    case SendStarted(now) => OnSendStarted(l, now)
    case Asked(now) => if l.rate > 0.0 then OnSlot(l, now) else l
  }

  function Run(l: Limiter, events: seq<Event>): Limiter
    decreases |events|
  {
    if events == [] then l else Step(Run(l, events[..|events| - 1]), events[|events| - 1])
  }

  /** Every slot handed out along a history, oldest first. */
  function Slots(l: Limiter, events: seq<Event>): seq<Slot>
    decreases |events|
  {
    if events == [] then []
    else
      var front, e := events[..|events| - 1], events[|events| - 1];
      var before := Run(l, front);
      Slots(l, front) + if e.Asked? && before.rate > 0.0 then [NextSlot(before, e.now)] else []
  }

  lemma MultiplyBoth(a: real, b: real, r: real)
    requires a <= b && r > 0.0
    ensures a * r <= b * r
  {
  }

  /** At any rate within the limits, a slot is an interval of between a twelfth of a second
      and two seconds. */
  lemma IntervalBounds(rate: real)
    requires MINIMUM <= rate <= MAXIMUM
    ensures 1.0 / MAXIMUM <= 1.0 / rate <= 1.0 / MINIMUM
  {
    Reciprocal(rate, 0.5, 12.0);
  }

  lemma Reciprocal(rate: real, low: real, high: real)
    requires 0.0 < low <= rate <= high
    ensures 1.0 / high <= 1.0 / rate <= 1.0 / low
  {
    Shrinks(low, rate);
    Shrinks(rate, high);
  }

  lemma Shrinks(a: real, b: real)
    requires 0.0 < a <= b
    ensures 1.0 / b <= 1.0 / a
  {
    var x, y := 1.0 / a, 1.0 / b;
    assert x * a == 1.0 && y * b == 1.0;
    assert y > 0.0;
    MultiplyBoth(a, b, y);
    Cancel(y, x, a);
  }

  lemma Cancel(p: real, q: real, a: real)
    requires p * a <= q * a && a > 0.0
    ensures p <= q
  {
  }

  lemma SlotInv(l: Limiter, now: real)
    requires Inv(l)
    ensures Inv(OnSlot(l, now))
  {
    IntervalBounds(l.rate);
  }

  lemma StepInv(l: Limiter, e: Event)
    requires Inv(l)
    ensures Inv(Step(l, e))
  {
    match e {
      case Flood(now, seconds, premium) => FloodInv(l, now, seconds, premium);
      case Success(now) => SuccessInv(l, now);
      case SendStarted(now) =>
      case Asked(now) => SlotInv(l, now);
    }
  }

  lemma {:induction false} RunInv(l: Limiter, events: seq<Event>)
    requires Inv(l)
    ensures Inv(Run(l, events))
    decreases |events|
  {
    if events != [] {
      var front := events[..|events| - 1];
      RunInv(l, front);
      StepInv(Run(l, front), events[|events| - 1]);
    }
  }

  /** From a fresh start or a restart on whatever was stored, every history of
      floods, successes and sends keeps the limits. */
  lemma EveryHistoryKeepsTheLimits(start: real, rate: real, ceiling: Option<real>, age: real, events: seq<Event>)
    ensures Inv(Run(Fresh(start, None), events))
    ensures Inv(Run(Fresh(start, Load(rate, ceiling, age)), events))
  {
    FreshInv(start, rate, ceiling, age);
    RunInv(Fresh(start, None), events);
    RunInv(Fresh(start, Load(rate, ceiling, age)), events);
  }

  /** Once a premium flood was seen, normal mode never comes back. */
  lemma {:induction false} NeverNormalAgain(l: Limiter, events: seq<Event>)
    requires !l.mode.Normal?
    ensures !Run(l, events).mode.Normal?
    decreases |events|
  {
    if events != [] { NeverNormalAgain(l, events[..|events| - 1]); }
  }

  /** A flood raises an established ceiling in exactly one case: it ends a probe
      that started from a ceiling below 3.8, outside a penalty and not escalated. */
  lemma FloodRaisesCeilingExactly(l: Limiter, now: real, seconds: Option<real>, premium: bool)
    requires Inv(l) && l.ceiling.Some?
    ensures var l' := OnFlood(l, now, seconds, premium);
      l'.ceiling.Some? &&
      (l'.ceiling.value > l.ceiling.value <==>
        !premium && now >= l.penaltyUntil && l.probeStartedAt.Some? && !Escalates(l, now) && l.ceiling.value < 3.8)
  {
    var l' := OnFlood(l, now, seconds, premium);
    if !premium && now >= l.penaltyUntil {
      assert l'.ceiling == Some(LearnedCeiling(l, now));
      if l.probeStartedAt.None? {
        assert Least(l.rate * BACKOFF, (l.ceiling.value + l.rate) / 2.0) <= l.ceiling.value;
      } else if l.ceiling.value + PROBE_STEP <= MAXIMUM {
        assert l.rate == l.ceiling.value + PROBE_STEP;
        assert (l.ceiling.value + l.rate) / 2.0 == l.ceiling.value + 0.1;
      } else {
        assert l.rate == MAXIMUM;
      }
    }
  }

  /** A save may fail without anyone noticing, so the disk holds what some earlier state of the
      history handed over: the state after `events[..landed]`. A restart resumes no faster than
      that state, with its ceiling, and within all limits. */
  lemma RestartIsNoFaster(l: Limiter, events: seq<Event>, landed: nat, now: real, age: real)
    requires Inv(l) && landed <= |events| && Run(l, events[..landed]).saved.Some?
    ensures var disk := Run(l, events[..landed]).saved.value;
      var r := Load(disk.rate, disk.ceiling, age);
      && disk == Saved(Run(l, events[..landed]).rate, Run(l, events[..landed]).ceiling)
      && (r.Some? ==> r.value.rate <= disk.rate && r.value.ceiling == disk.ceiling && Inv(Fresh(now, r)))
  {
    RunInv(l, events[..landed]);
  }

  // ---------------------------------------------------------------- how many sends

  ghost predicate Spaced(slots: seq<Slot>) {
    forall i, j | 0 <= i && j == i + 1 && j < |slots| :: slots[i].start + slots[i].interval <= slots[j].start
  }

  /** A slot's length lies between two bounds, and it starts at most a burst of
      slots before it was asked for. */
  predicate Lawful(s: Slot, gap: real, wide: real) {
    gap <= s.interval <= wide && s.start >= s.asked - BURST * s.interval
  }

  ghost predicate AllLawful(slots: seq<Slot>, gap: real, wide: real) {
    forall k | 0 <= k < |slots| :: Lawful(slots[k], gap, wide)
  }

  ghost predicate EndBy(slots: seq<Slot>, t: real) {
    slots != [] ==> slots[|slots| - 1].start + slots[|slots| - 1].interval <= t
  }

  lemma SlotAppended(slots: seq<Slot>, s: Slot, gap: real, wide: real)
    requires Spaced(slots) && AllLawful(slots, gap, wide) && EndBy(slots, s.start) && Lawful(s, gap, wide)
    ensures Spaced(slots + [s]) && AllLawful(slots + [s], gap, wide) && EndBy(slots + [s], s.start + s.interval)
  {
  }

  lemma EndsLater(slots: seq<Slot>, t: real, u: real)
    requires EndBy(slots, t) && t <= u
    ensures EndBy(slots, u)
  {
  }

  /** Slots are disjoint, keep the burst allowance, and last a twelfth of a second
      to two seconds. */
  lemma {:induction false} SlotsAre(l: Limiter, events: seq<Event>)
    requires Inv(l)
    ensures var slots := Slots(l, events);
      Spaced(slots) && AllLawful(slots, 1.0 / 12.0, 2.0) && EndBy(slots, Run(l, events).nextSlotAt)
    decreases |events|
  {
    if events != [] {
      var front, e := events[..|events| - 1], events[|events| - 1];
      var before := Run(l, front);
      hide Inv, Step, Lawful, Spaced, AllLawful, EndBy;
      SlotsAre(l, front);
      RunInv(l, front);
      SlotsOnlyLater(before, e);
      EndsLater(Slots(l, front), before.nextSlotAt, Step(before, e).nextSlotAt);
      if e.Asked? {
        SlotIs(before, e.now);
        var s := NextSlot(before, e.now);
        EndsLater(Slots(l, front), before.nextSlotAt, s.start);
        SlotAppended(Slots(l, front), s, 1.0 / 12.0, 2.0);
      }
    }
  }

  lemma SlotIs(l: Limiter, now: real)
    requires Inv(l)
    ensures l.rate > 0.0
    ensures var s := NextSlot(l, now);
      && Lawful(s, 1.0 / 12.0, 2.0) && s.start >= l.nextSlotAt
      && Step(l, Asked(now)).nextSlotAt == s.start + s.interval
  {
    IntervalBounds(l.rate);
  }

  lemma SlotsOnlyLater(l: Limiter, e: Event)
    requires Inv(l)
    ensures l.nextSlotAt <= Step(l, e).nextSlotAt
    ensures e.Asked? ==> l.nextSlotAt <= NextSlot(l, e.now).start
    ensures !e.Flood? ==> Step(l, e).penaltyUntil == l.penaltyUntil
  {
    if e.Asked? { IntervalBounds(l.rate); }
  }

  lemma Scale(a: int, b: int, gap: real)
    requires a <= b && gap >= 0.0
    ensures a as real * gap <= b as real * gap
  {
  }

  /** Slots `i` and `j` start at least `j - i` intervals apart. */
  lemma {:induction false} FarApart(slots: seq<Slot>, i: nat, j: nat, gap: real)
    requires Spaced(slots) && i <= j < |slots|
    requires forall k | 0 <= k < |slots| :: gap <= slots[k].interval
    ensures slots[i].start + (j - i) as real * gap <= slots[j].start
  {
    if i < j {
      FarApart(slots, i, j - 1, gap);
      assert (j - i) as real * gap == (j - 1 - i) as real * gap + gap;
    }
  }

  lemma {:induction false} Extremes(a: set<nat>) returns (lo: nat, hi: nat)
    requires a != {}
    ensures lo in a && hi in a && forall k | k in a :: lo <= k <= hi
    decreases |a|
  {
    var x :| x in a;
    var rest := a - {x};
    if rest == {} {
      assert a == {x};
      return x, x;
    }
    var l, h := Extremes(rest);
    lo, hi := if x < l then x else l, if x > h then x else h;
    assert forall k | k in a :: k == x || k in rest;
  }

  lemma {:induction false} FitsBetween(a: set<nat>, lo: nat, hi: nat)
    requires lo <= hi + 1 && forall k | k in a :: lo <= k <= hi
    ensures |a| <= hi - lo + 1
    decreases hi + 1 - lo
  {
    if lo == hi + 1 {
      assert a == {};
    } else if hi == lo {
      assert a <= {lo};
      if a != {} { assert a == {lo}; }
    } else {
      FitsBetween(a - {hi}, lo, hi - 1);
      if hi !in a { assert a - {hi} == a; }
    }
  }

  lemma SpanBound(n: int, m: int, gap: real, from: real, to: real, room: real)
    requires n <= m && gap >= 0.0 && from + m as real * gap <= to && to - from <= room
    ensures n as real * gap <= room
  {
    Scale(n, m, gap);
  }

  /** The senders of `a` all wake within one window. */
  ghost predicate InWindow(slots: seq<Slot>, a: set<nat>, s: real, length: real) {
    forall k | k in a :: k < |slots| && s <= WakeAt(slots[k]) <= s + length
  }

  /** The slots whose wake-up falls into one window: never more than the window's
      share of slots, plus the burst, plus one. */
  lemma SlotsInWindow(slots: seq<Slot>, a: set<nat>, s: real, length: real, gap: real, wide: real)
    requires Spaced(slots) && 0.0 <= gap
    requires AllLawful(slots, gap, wide) && a != {}
    requires InWindow(slots, a, s, length)
    ensures (|a| - 1) as real * gap <= length + BURST * wide
  {
    hide Spaced, WakeAt;
    var lo, hi := Extremes(a);
    FitsBetween(a, lo, hi);
    FarApart(slots, lo, hi, gap);
    WakesSoon(slots[lo], gap, wide);
    WakesSoon(slots[hi], gap, wide);
    SpanBound(|a| - 1, hi - lo, gap, slots[lo].start, slots[hi].start, length + BURST * wide);
  }

  /** A slot starts at most a burst before its sender wakes. */
  lemma WakesSoon(s: Slot, gap: real, wide: real)
    requires Lawful(s, gap, wide) && 0.0 <= gap
    ensures WakeAt(s) - BURST * wide <= s.start <= WakeAt(s)
  {
  }

  /** The rate stays as it is throughout this stretch of a history, whatever parts are sent,
      asked for or refused in it. */
  ghost predicate SteadyRate(l: Limiter, events: seq<Event>) {
    forall k | 0 <= k <= |events| :: Run(l, events[..k]).rate == l.rate
  }

  lemma SteadyFront(l: Limiter, events: seq<Event>)
    requires SteadyRate(l, events) && events != []
    ensures SteadyRate(l, events[..|events| - 1]) && Run(l, events[..|events| - 1]).rate == l.rate
  {
    hide Run;
    var front := events[..|events| - 1];
    forall k | 0 <= k <= |front| ensures Run(l, front[..k]).rate == l.rate {
      assert front[..k] == events[..k];
    }
  }

  lemma {:induction false} SteadySlots(l: Limiter, events: seq<Event>)
    requires Inv(l) && SteadyRate(l, events)
    ensures AllLawful(Slots(l, events), 1.0 / l.rate, 1.0 / l.rate)
    decreases |events|
  {
    if events != [] {
      var front := events[..|events| - 1];
      SteadyFront(l, events);
      hide SteadyRate;
      SteadySlots(l, front);
    }
  }

  lemma {:induction false} RunAppends(l: Limiter, past: seq<Event>, events: seq<Event>)
    ensures Run(l, past + events) == Run(Run(l, past), events)
    ensures Slots(l, past + events) == Slots(l, past) + Slots(Run(l, past), events)
    decreases |events|
  {
    if events == [] {
      assert past + events == past;
    } else {
      var front, all := events[..|events| - 1], past + events;
      assert all[..|all| - 1] == past + front;
      RunAppends(l, past, front);
    }
  }

  /** New slots in one window, at a constant rate. */
  lemma SteadyBound(l: Limiter, events: seq<Event>, a: set<nat>, s: real, length: real)
    requires Inv(l) && SteadyRate(l, events) && length >= 0.0
    requires InWindow(Slots(l, events), a, s, length)
    ensures |a| as real <= l.rate * length + BURST + 1.0
  {
    hide Slots, Spaced, AllLawful, WakeAt, Run, SteadyRate;
    var r := l.rate;
    if a == {} {
      MultiplyBoth(0.0, length, r);
    } else {
      var i := 1.0 / r;
      assert i * r == 1.0;
      IntervalBounds(r);
      SteadySlots(l, events);
      SlotsAre(l, events);
      SlotsInWindow(Slots(l, events), a, s, length, i, i);
      PerSecond((|a| - 1) as real, i, r, length);
    }
  }

  /** The senders of `a` whose slot was given before slot `n`. */
  ghost function Earlier(a: set<nat>, n: nat): set<nat> { set k | k in a && k < n }

  lemma {:induction false} Shifted(a: set<nat>, n: nat) returns (b: set<nat>)
    requires forall k | k in a :: k >= n
    ensures |b| == |a| && forall k | k in b :: k + n in a
    decreases |a|
  {
    if a == {} { return {}; }
    var x :| x in a;
    var c := Shifted(a - {x}, n);
    b := c + {x - n};
    assert x - n !in c;
  }

  /** While the rate stays `r`, after whatever past, any window of `length` seconds sees at
      most `r * length + burst + 1` wake-ups more than there are senders in it whose slot
      was given before. A sender that wakes inside a penalty asks again instead of sending, so
      wake-ups bound sends. */
  lemma PaceBound(l: Limiter, past: seq<Event>, events: seq<Event>, a: set<nat>, s: real, length: real)
    requires Inv(l) && SteadyRate(Run(l, past), events) && length >= 0.0
    requires InWindow(Slots(l, past + events), a, s, length)
    ensures |a| as real <= Run(l, past).rate * length + BURST + 1.0 + |Earlier(a, |Slots(l, past)|)| as real
  {
    hide Slots, Run, SteadyRate, InWindow, Inv, Earlier;
    RunInv(l, past);
    RunAppends(l, past, events);
    var b := LateOnes(Slots(l, past), Slots(Run(l, past), events), a, s, length);
    SteadyBound(Run(l, past), events, b, s, length);
  }

  /** The others, numbered within the stretch. */
  lemma LateOnes(past: seq<Slot>, recent: seq<Slot>, a: set<nat>, s: real, length: real) returns (b: set<nat>)
    requires InWindow(past + recent, a, s, length)
    ensures InWindow(recent, b, s, length) && |a| == |b| + |Earlier(a, |past|)|
  {
    hide WakeAt;
    var late := a - Earlier(a, |past|);
    b := Shifted(late, |past|);
    assert forall k | k in b :: recent[k] == (past + recent)[k + |past|];
    assert late + Earlier(a, |past|) == a;
  }

  /** After the past, the rate stays for these events and the senders of `a` wake in one window. */
  ghost predicate Watched(l: Limiter, past: seq<Event>, events: seq<Event>, a: set<nat>, s: real, length: real) {
    length >= 0.0 && SteadyRate(Run(l, past), events) && InWindow(Slots(l, past + events), a, s, length)
  }

  /** The bound without allowance for earlier senders, over every steady continuation and every
      window that opens at `from` or later. */
  ghost predicate PlainBound(l: Limiter, past: seq<Event>, from: real) {
    forall events: seq<Event>, a: set<nat>, s: real, length: real
      | s >= from && Watched(l, past, events, a, s, length)
      :: |a| as real <= Run(l, past).rate * length + BURST + 1.0
  }

  /** When slot `k` starts, the next free one included. */
  ghost function Due(l: Limiter, past: seq<Event>, k: nat): real
    requires k <= |Slots(l, past)|
  {
    if k < |Slots(l, past)| then Slots(l, past)[k].start else Run(l, past).nextSlotAt
  }

  /** How many slots the rate `r` and the burst allow from one instant to another. */
  function Share(r: real, from: real, to: real): real { r * (to - from) + BURST }

  /** Slots `i` to `j` are no denser than the present rate and the burst allow. */
  ghost predicate Fit(l: Limiter, past: seq<Event>, i: nat, j: nat)
    requires i <= j <= |Slots(l, past)|
  {
    (j - i) as real <= Share(Run(l, past).rate, Due(l, past, i), Due(l, past, j))
  }

  /** So are all slots already given out for `from` and later, up to the next free one. */
  ghost predicate Calm(l: Limiter, past: seq<Event>, from: real) {
    forall i: nat, j: nat | i < j <= |Slots(l, past)| && Due(l, past, i) >= from :: Fit(l, past, i, j)
  }

  /** Every slot of the past was asked for before `from`. */
  ghost predicate AskedBefore(l: Limiter, past: seq<Event>, from: real) {
    forall k | 0 <= k < |Slots(l, past)| :: Slots(l, past)[k].asked < from
  }

  /** The plain bound holds from `from` on exactly if the slots still to come are calm. */
  lemma PlainBoundExactly(l: Limiter, past: seq<Event>, from: real)
    requires Inv(l) && AskedBefore(l, past, from)
    ensures PlainBound(l, past, from) <==> Calm(l, past, from)
  {
    hide Slots, Run, Due, Fit, Watched, PlainBound, Calm, AskedBefore, Inv;
    if PlainBound(l, past, from) { CalmIfBounded(l, past, from); }
    if Calm(l, past, from) { BoundedIfCalm(l, past, from); }
  }

  lemma CalmIfBounded(l: Limiter, past: seq<Event>, from: real)
    requires Inv(l) && AskedBefore(l, past, from) && PlainBound(l, past, from)
    ensures Calm(l, past, from)
  {
    hide Slots, Run, Due, Fit, PlainBound, AskedBefore, Inv;
    forall i: nat, j: nat | i < j <= |Slots(l, past)| && Due(l, past, i) >= from ensures Fit(l, past, i, j) {
      BoundIsCalm(l, past, from, i, j);
    }
  }

  lemma BoundedIfCalm(l: Limiter, past: seq<Event>, from: real)
    requires Inv(l) && AskedBefore(l, past, from) && Calm(l, past, from)
    ensures PlainBound(l, past, from)
  {
    hide Slots, Run, Due, Watched, Calm, AskedBefore, Inv;
    forall events: seq<Event>, a: set<nat>, s: real, length: real
      | s >= from && Watched(l, past, events, a, s, length)
      ensures |a| as real <= Run(l, past).rate * length + BURST + 1.0
    {
      CalmIsBound(l, past, from, events, a, s, length);
    }
  }

  /** The numbers from `i` to `j`. */
  ghost function Between(i: nat, j: nat): (r: set<nat>)
    requires i <= j
    ensures |r| == j - i + 1 && forall k: nat :: k in r <==> i <= k <= j
    decreases j - i
  {
    if i == j then {i} else Between(i, j - 1) + {j}
  }

  /** The window from slot `i` to slot `j`, with one more sender asking for the next free slot. */
  lemma BoundIsCalm(l: Limiter, past: seq<Event>, from: real, i: nat, j: nat)
    requires Inv(l) && AskedBefore(l, past, from) && PlainBound(l, past, from)
    requires i < j <= |Slots(l, past)| && Due(l, past, i) >= from
    ensures Fit(l, past, i, j)
  {
    hide Slots, Run, Due, Inv, AskedBefore, SteadyRate, InWindow, Fit;
    var events := [Asked(Run(l, past).nextSlotAt)];
    var a, s := Between(i, j), Due(l, past, i);
    var length := Due(l, past, j) - s;
    DueRises(l, past, i, j);
    NextIsSteady(l, past);
    AllInWindow(l, past, from, i, j);
    assert Watched(l, past, events, a, s, length);
    FitFromBound(l, past, i, j, a);
  }

  lemma AllInWindow(l: Limiter, past: seq<Event>, from: real, i: nat, j: nat)
    requires Inv(l) && AskedBefore(l, past, from) && i < j <= |Slots(l, past)| && Due(l, past, i) >= from
    ensures InWindow(Slots(l, past + [Asked(Run(l, past).nextSlotAt)]), Between(i, j),
                     Due(l, past, i), Due(l, past, j) - Due(l, past, i))
  {
    hide Slots, Run, Due, Inv, AskedBefore, SteadyRate, WakeAt;
    var events := [Asked(Run(l, past).nextSlotAt)];
    forall k | k in Between(i, j)
      ensures WakesWhenDue(l, past, events, k) && Due(l, past, i) <= Due(l, past, k) <= Due(l, past, j)
    {
      DueRises(l, past, i, k);
      DueRises(l, past, k, j);
      OneMore(l, past, from, k);
    }
  }

  lemma FitFromBound(l: Limiter, past: seq<Event>, i: nat, j: nat, a: set<nat>)
    requires i < j <= |Slots(l, past)| && |a| == j - i + 1
    requires |a| as real <= Run(l, past).rate * (Due(l, past, j) - Due(l, past, i)) + BURST + 1.0
    ensures Fit(l, past, i, j)
  {
    hide Slots, Run, Due;
  }

  ghost predicate WakesWhenDue(l: Limiter, past: seq<Event>, events: seq<Event>, k: nat)
    requires k <= |Slots(l, past)|
  {
    k < |Slots(l, past + events)| && WakeAt(Slots(l, past + events)[k]) == Due(l, past, k)
  }

  lemma OneMore(l: Limiter, past: seq<Event>, from: real, k: nat)
    requires Inv(l) && AskedBefore(l, past, from) && k <= |Slots(l, past)| && Due(l, past, k) >= from
    ensures WakesWhenDue(l, past, [Asked(Run(l, past).nextSlotAt)], k)
  {
    RunAppends(l, past, [Asked(Run(l, past).nextSlotAt)]);
    RunInv(l, past);
    NextIsDue(Run(l, past));
    hide Slots, Run, Inv, SteadyRate;
  }

  lemma NextIsSteady(l: Limiter, past: seq<Event>)
    requires Inv(l)
    ensures SteadyRate(Run(l, past), [Asked(Run(l, past).nextSlotAt)])
  {
    RunInv(l, past);
    NextIsDue(Run(l, past));
  }

  /** Asking at the next free slot's own time takes it there, and leaves the rate alone. */
  lemma NextIsDue(l: Limiter)
    requires Inv(l)
    ensures var events := [Asked(l.nextSlotAt)];
      SteadyRate(l, events) && |Slots(l, events)| == 1 && Slots(l, events)[0].start == l.nextSlotAt &&
      WakeAt(Slots(l, events)[0]) == l.nextSlotAt
  {
    var events := [Asked(l.nextSlotAt)];
    IntervalBounds(l.rate);
    assert events[..0] == [] && events[..1] == events;
    assert Run(l, []) == l && Slots(l, []) == [];
    assert Run(l, events) == OnSlot(l, l.nextSlotAt);
    assert Slots(l, events) == [NextSlot(l, l.nextSlotAt)];
  }

  lemma DueRises(l: Limiter, past: seq<Event>, i: nat, j: nat)
    requires Inv(l) && i <= j <= |Slots(l, past)|
    ensures Due(l, past, i) <= Due(l, past, j)
  {
    hide Inv, Run, Slots;
    SlotsAre(l, past);
    var slots := Slots(l, past);
    if i < |slots| {
      FarApart(slots, i, if j < |slots| then j else |slots| - 1, 0.0);
      if j == |slots| {
        FarApart(slots, i, j - 1, 0.0);
        assert Lawful(slots[j - 1], 1.0 / 12.0, 2.0);
      }
    }
  }

  lemma CalmIsBound(l: Limiter, past: seq<Event>, from: real, events: seq<Event>, a: set<nat>, s: real, length: real)
    requires Inv(l) && AskedBefore(l, past, from) && Calm(l, past, from)
    requires s >= from && Watched(l, past, events, a, s, length)
    ensures |a| as real <= Run(l, past).rate * length + BURST + 1.0
  {
    hide Run, Slots, SteadyRate, Calm, AskedBefore, Inv, WakeAt, Due, Share;
    var r := Run(l, past).rate;
    RunInv(l, past);
    var _ := Gap(Run(l, past));
    var n := |Slots(l, past)|;
    if forall k | k in a :: k >= n {
      assert Earlier(a, n) == {};
      PaceBound(l, past, events, a, s, length);
    } else {
      var lo, hi := Extremes(a);
      FitsBetween(a, lo, hi);
      DueInWindow(l, past, from, events, lo);
      Stretch(l, past, from, events, lo, hi);
      InShare(|a|, hi - lo, r, Due(l, past, lo), Slots(l, past + events)[hi], s, length);
    }
  }

  lemma InShare(n: nat, m: int, r: real, first: real, last: Slot, s: real, length: real)
    requires n <= m + 1 && m as real <= Share(r, first, last.start)
    requires s <= first && WakeAt(last) <= s + length && r > 0.0
    ensures n as real <= r * length + BURST + 1.0
  {
    MultiplyBoth(last.start - first, length, r);
    assert n as real <= m as real + 1.0;
  }

  /** A slot given before wakes its sender when it starts, if that is at `from` or later. */
  lemma DueInWindow(l: Limiter, past: seq<Event>, from: real, events: seq<Event>, k: nat)
    requires AskedBefore(l, past, from) && k < |Slots(l, past)|
    ensures k < |Slots(l, past + events)|
    ensures var slot := Slots(l, past + events)[k];
      slot.start == Due(l, past, k) && (WakeAt(slot) >= from ==> WakeAt(slot) == slot.start)
  {
    RunAppends(l, past, events);
  }

  /** From a pending slot to any later one, old or new, the rate and the burst hold. */
  lemma Stretch(l: Limiter, past: seq<Event>, from: real, events: seq<Event>, lo: nat, hi: nat)
    requires Inv(l) && AskedBefore(l, past, from) && Calm(l, past, from) && SteadyRate(Run(l, past), events)
    requires lo <= hi < |Slots(l, past + events)| && lo < |Slots(l, past)| && Due(l, past, lo) >= from
    ensures (hi - lo) as real <= Share(Run(l, past).rate, Due(l, past, lo), Slots(l, past + events)[hi].start)
  {
    hide Run, Slots, SteadyRate, Inv, AskedBefore, Due;
    var n := |Slots(l, past)|;
    if hi == lo {
      DueInWindow(l, past, from, events, lo);
    } else if hi < n {
      assert Fit(l, past, lo, hi);
      DueInWindow(l, past, from, events, hi);
    } else {
      assert Fit(l, past, lo, n);
      PastTheOld(l, past, events, lo, hi);
    }
  }

  lemma PastTheOld(l: Limiter, past: seq<Event>, events: seq<Event>, lo: nat, hi: nat)
    requires Inv(l) && SteadyRate(Run(l, past), events)
    requires lo < |Slots(l, past)| <= hi < |Slots(l, past + events)| && Fit(l, past, lo, |Slots(l, past)|)
    ensures (hi - lo) as real <= Share(Run(l, past).rate, Due(l, past, lo), Slots(l, past + events)[hi].start)
  {
    hide Run, Slots, SteadyRate, Inv, Share;
    var n, mid := |Slots(l, past)|, Run(l, past);
    RunInv(l, past);
    var gap := Gap(mid);
    RunAppends(l, past, events);
    NewSlotsFollow(mid, events, hi - n, gap);
    Reach(hi - lo, n - lo, mid.rate, gap, Due(l, past, lo), mid.nextSlotAt, Slots(l, past + events)[hi].start);
  }

  lemma Gap(l: Limiter) returns (gap: real)
    requires Inv(l)
    ensures l.rate > 0.0 && gap * l.rate == 1.0
  {
    gap := 1.0 / l.rate;
  }

  /** `m` of the `n` slots fit the rate, the others are whole intervals. */
  lemma Reach(n: nat, m: nat, r: real, gap: real, from: real, mid: real, to: real)
    requires m <= n && r > 0.0 && gap * r == 1.0 && m as real <= Share(r, from, mid)
    requires to >= mid + (n - m) as real * gap
    ensures n as real <= Share(r, from, to)
  {
    var rest := (n - m) as real;
    MultiplyBoth(mid + rest * gap, to, r);
    assert (mid + rest * gap) * r == mid * r + rest * (gap * r);
    assert r * (to - from) == to * r - from * r;
    assert r * (mid - from) == mid * r - from * r;
  }

  lemma SteadyGaps(l: Limiter, events: seq<Event>, gap: real)
    requires Inv(l) && SteadyRate(l, events) && gap * l.rate == 1.0
    ensures forall k | 0 <= k < |Slots(l, events)| :: gap <= Slots(l, events)[k].interval
  {
    SteadySlots(l, events);
    assert gap == 1.0 / l.rate;
    hide Run, Slots, SteadyRate, Inv;
  }

  /** The slots of a steady stretch follow the next free one at whole intervals. */
  lemma NewSlotsFollow(l: Limiter, events: seq<Event>, k: nat, gap: real)
    requires Inv(l) && SteadyRate(l, events) && k < |Slots(l, events)| && gap * l.rate == 1.0
    ensures Slots(l, events)[k].start >= l.nextSlotAt + k as real * gap
  {
    hide Run, Slots, SteadyRate, Inv, Spaced;
    SteadyGaps(l, events, gap);
    SlotsAre(l, events);
    FirstFollows(l, events);
    FarApart(Slots(l, events), 0, k, gap);
  }

  lemma {:induction false} FirstFollows(l: Limiter, events: seq<Event>)
    requires Inv(l)
    ensures l.nextSlotAt <= Run(l, events).nextSlotAt
    ensures Slots(l, events) != [] ==> Slots(l, events)[0].start >= l.nextSlotAt
    decreases |events|
  {
    if events != [] {
      var front := events[..|events| - 1];
      FirstFollows(l, front);
      RunInv(l, front);
      hide Inv;
      SlotsOnlyLater(Run(l, front), events[|events| - 1]);
    }
  }

  /** With every slot given so far already over, nothing more need be asked. */
  lemma NothingPending(l: Limiter, past: seq<Event>, from: real)
    requires Inv(l) && AskedBefore(l, past, from) && Run(l, past).nextSlotAt <= from
    ensures PlainBound(l, past, from)
  {
    hide Run, Slots, PlainBound, Inv;
    PlainBoundExactly(l, past, from);
    SlotsAre(l, past);
    forall i: nat | i < |Slots(l, past)| ensures Due(l, past, i) < from {
      DueRises(l, past, i, |Slots(l, past)| - 1);
      assert Lawful(Slots(l, past)[|Slots(l, past)| - 1], 1.0 / 12.0, 2.0);
    }
  }

  function Asks(n: nat): (r: seq<Event>) ensures |r| == n { seq(n, i => Asked(0.0)) }

  /** A limiter restarted on a stored rate of 2.5 a second: it resumes at 2 a second. */
  const RESTARTED: Limiter := Fresh(0.0, Load(2.5, Some(2.5), 0.0))

  lemma {:induction false} AsksAtOnce(n: nat)
    ensures Run(RESTARTED, Asks(n)) == RESTARTED.(nextSlotAt := 0.5 * n as real)
    ensures Slots(RESTARTED, Asks(n)) == seq(n, k requires 0 <= k => Slot(0.0, 0.5 * k as real, 0.5))
  {
    assert RESTARTED.rate == 2.0;
    if n > 0 {
      AsksAtOnce(n - 1);
      assert Asks(n)[..n - 1] == Asks(n - 1);
    }
  }

  /** The plain bound is not a law of the pacer. Twelve senders, as many as the window lets in at
      once, ask together; a flood then halves the rate to one a second. The slots of the last
      seven stay half a second apart and past the penalty: seven sends in three seconds, where
      `1 * 3 + burst + 1` is six. */
  lemma QueuedSendersKeepTheOldPace()
    ensures var past := Asks(12) + [Flood(0.05, Some(1.0), false)];
      var mid, slots := Run(RESTARTED, past), Slots(RESTARTED, past);
      && Inv(RESTARTED) && mid.rate == 1.0 && mid.penaltyUntil == 2.05 && |slots| == 12
      && (forall k | 5 <= k < 12 :: 2.5 <= WakeAt(slots[k]) <= 5.5)
      && AskedBefore(RESTARTED, past, 2.05) && !Calm(RESTARTED, past, 2.05) && !PlainBound(RESTARTED, past, 2.05)
  {
    var flood := Flood(0.05, Some(1.0), false);
    var past := Asks(12) + [flood];
    AsksAtOnce(12);
    assert past[..12] == Asks(12);
    var before := RESTARTED.(nextSlotAt := 6.0);
    assert Run(RESTARTED, past) == OnFlood(before, 0.05, Some(1.0), false);
    assert Slots(RESTARTED, past) == Slots(RESTARTED, Asks(12));
    HalvedByFlood(before);
    FreshInv(0.0, 2.5, Some(2.5), 0.0);
    hide Run, Slots, PlainBound, SteadyRate;
    assert Due(RESTARTED, past, 5) == 2.5 && Due(RESTARTED, past, 11) == 5.5;
    assert !Fit(RESTARTED, past, 5, 11);
    PlainBoundExactly(RESTARTED, past, 2.05);
  }

  lemma HalvedByFlood(l: Limiter)
    requires l == RESTARTED.(nextSlotAt := 6.0)
    ensures OnFlood(l, 0.05, Some(1.0), false).rate == 1.0
    ensures OnFlood(l, 0.05, Some(1.0), false).penaltyUntil == 2.05
  {
    assert Recent([0.05], 0.05) == [0.05];
  }

  lemma PerSecond(n: real, i: real, r: real, length: real)
    requires i * r == 1.0 && r > 0.0 && n * i <= length + BURST * i
    ensures n <= r * length + BURST
  {
    MultiplyBoth(n * i, length + BURST * i, r);
    assert (n * i) * r == n * (i * r) == n;
    assert (length + BURST * i) * r == length * r + BURST * (i * r);
  }

  lemma Twelfths(n: real, room: real)
    requires n * (1.0 / 12.0) <= room
    ensures n <= 12.0 * room
  {
  }

  /** Whatever floods and successes happen, no window of `length` seconds ever sees
      more than `12 * length + 49` sends. */
  lemma EveryHistoryIsPaced(l: Limiter, events: seq<Event>, a: set<nat>, s: real, length: real)
    requires Inv(l) && length >= 0.0
    requires InWindow(Slots(l, events), a, s, length)
    ensures |a| as real <= 12.0 * length + 49.0
  {
    if a != {} {
      hide Slots, Spaced, WakeAt;
      SlotsAre(l, events);
      SlotsInWindow(Slots(l, events), a, s, length, 1.0 / 12.0, 2.0);
      Twelfths((|a| - 1) as real, length + 4.0);
    }
  }

  /** With no flood since it asked, a sender that wakes at its slot may send: the
      penalty is over, and `pace` needs no second pass. */
  lemma {:induction false} OnePassIsEnough(l: Limiter, now: real, events: seq<Event>)
    requires Inv(l) && forall i | 0 <= i < |events| :: !events[i].Flood?
    ensures WakeAt(NextSlot(l, now)) >= Run(OnSlot(l, now), events).penaltyUntil
    decreases |events|
  {
    if events != [] {
      var front := events[..|events| - 1];
      OnePassIsEnough(l, now, front);
      SlotInv(l, now);
      RunInv(OnSlot(l, now), front);
      SlotsOnlyLater(Run(OnSlot(l, now), front), events[|events| - 1]);
    }
  }

  // --------------------------------------------------------------- the object itself

  class AdaptiveUploadLimiter {
    var rate: real
    var ceiling: Option<real>
    var nextSlotAt: real
    var penaltyUntil: real
    var lastFloodAt: Option<real>
    var lastIncreaseAt: real
    var floods: nat
    var floodEvents: seq<real>
    var escalatedUntil: real
    var probeStartedAt: Option<real>
    var probeCooldown: real
    var lastProbeEndedAt: real
    var mode: Mode
    var cleanWindowStart: Option<real>
    var saved: Option<Saved>

    function View(): Limiter
      reads this
    {
      Limiter(rate, ceiling, nextSlotAt, penaltyUntil, lastFloodAt, lastIncreaseAt, floods, floodEvents,
              escalatedUntil, probeStartedAt, probeCooldown, lastProbeEndedAt, mode, cleanWindowStart, saved)
    }

    ghost predicate Valid()
      reads this
    {
      Inv(View())
    }

    /** `stored` is the rate, ceiling and age found on disk. */
    constructor (now: real, stored: Option<(real, Option<real>, real)>)
      ensures Valid()
      ensures View() == Fresh(now, if stored.Some? then Load(stored.value.0, stored.value.1, stored.value.2) else None)
    {
      var restored := if stored.Some? then Load(stored.value.0, stored.value.1, stored.value.2) else None;
      rate, ceiling := INITIAL, None;
      if restored.Some? { rate, ceiling := restored.value.rate, restored.value.ceiling; }
      nextSlotAt, penaltyUntil, lastFloodAt, lastIncreaseAt := 0.0, 0.0, None, 0.0;
      floods, floodEvents, escalatedUntil := 0, [], 0.0;
      probeStartedAt, probeCooldown, lastProbeEndedAt := None, PROBE_COOLDOWN, now;
      mode, cleanWindowStart, saved := Normal, None, None;
    }

    method Persist()
      modifies this`saved
      ensures saved == Some(Saved(rate, ceiling))
    {
      saved := Some(Saved(rate, ceiling));
    }

    method Flood(now: real, seconds: Option<real>, premium: bool)
      requires Valid()
      modifies this
      ensures Valid() && View() == OnFlood(old(View()), now, seconds, premium)
    {
      FloodInv(View(), now, seconds, premium);
      hide Inv, Learn, WaitSeconds, Penalized;
      if premium {
        mode, cleanWindowStart, lastFloodAt := Frozen, None, Some(now);
      } else {
        Count(now);
        if now >= penaltyUntil { LearnFrom(now); }
      }
      Penalize(now, WaitSeconds(seconds));
    }

    method Count(now: real)
      modifies this`floods, this`lastFloodAt, this`mode, this`cleanWindowStart
      ensures View() == old(View()).(floods := old(floods) + 1, lastFloodAt := Some(now),
        mode := if old(mode).Normal? then Normal else Frozen,
        cleanWindowStart := if old(mode).Normal? then old(cleanWindowStart) else None)
    {
      floods, lastFloodAt := floods + 1, Some(now);
      if !mode.Normal? { mode, cleanWindowStart := Frozen, None; }
    }

    /** One second of guard after every wait. */
    method Penalize(now: real, wait: real)
      modifies this`penaltyUntil, this`nextSlotAt
      ensures View() == Penalized(old(View()), now, wait)
    {
      penaltyUntil := Most(penaltyUntil, now + wait + 1.0);
      nextSlotAt := Most(nextSlotAt, penaltyUntil);
    }

    method NextCeiling(now: real, escalate: bool) returns (next: real)
      requires escalate == Escalates(View(), now)
      ensures next == LearnedCeiling(View(), now)
    {
      hide Escalates, Most, Least;
      next := if ceiling.None? then rate * FIRST_BACKOFF else Least(rate * BACKOFF, (ceiling.value + rate) / 2.0);
      if escalate { next := next * ESCALATED_CEILING_FACTOR; }
      next := Least(MAXIMUM, Most(CEILING_FLOOR, next));
    }

    method LearnFrom(now: real)
      modifies this
      ensures View() == Learn(old(View()), now)
    {
      hide Recent, Most, Least, LearnedCeiling;
      var previous := rate;
      var events := Recent(floodEvents + [now], now);
      var escalate := |events| >= ESCALATION_COUNT;
      var next := NextCeiling(now, escalate);
      floodEvents := events;
      if escalate { escalatedUntil := now + ESCALATION_RESET; }
      ceiling := Some(next);
      if probeStartedAt.Some? {
        rate := Most(MINIMUM, next * SLOW_ZONE);
        probeCooldown := Least(probeCooldown * 2.0, PROBE_COOLDOWN_MAX);
        lastProbeEndedAt := now;
      } else {
        var factor := if escalate then ESCALATED_DECREASE_FACTOR else DECREASE_FACTOR;
        rate := Most(MINIMUM, previous * factor);
      }
      probeStartedAt := None;
      Persist();
    }

    method MarkSendStarted(now: real)
      requires Valid()
      modifies this`cleanWindowStart
      ensures Valid() && View() == OnSendStarted(old(View()), now)
    {
      if mode.Frozen? && now >= penaltyUntil && cleanWindowStart.None? { cleanWindowStart := Some(now); }
    }

    method Success(now: real)
      requires Valid()
      modifies this
      ensures Valid() && View() == OnSuccess(old(View()), now)
    {
      SuccessInv(View(), now);
      hide Inv, Climb, Least;
      if mode.Frozen? {
        if cleanWindowStart.None? || now - cleanWindowStart.value < PREMIUM_CLEAN_WINDOW { return; }
        mode, lastIncreaseAt := Cautious, now;
        return;
      }
      if mode.Cautious? {
        if now - lastIncreaseAt < SLOW_INTERVAL { return; }
        var cap := if ceiling.None? then MAXIMUM else Least(MAXIMUM, ceiling.value);
        if rate >= cap { return; }
        lastIncreaseAt, rate := now, Least(cap, rate + SLOW_STEP);
        Persist();
        return;
      }
      ClimbOn(now);
    }

    /** A sent part in normal mode. */
    method ClimbOn(now: real)
      modifies this
      ensures View() == Climb(old(View()), now)
    {
      hide Least;
      var clean := if now < escalatedUntil then ESCALATED_CLEAN_WINDOW else CLEAN_WINDOW;
      if lastFloodAt.Some? && now - lastFloodAt.value < clean { return; }
      if rate >= MAXIMUM { return; }
      if ceiling.None? {
        if now - lastIncreaseAt < INCREASE_INTERVAL { return; }
        lastIncreaseAt, rate := now, Least(MAXIMUM, rate + INCREASE_STEP);
      } else if probeStartedAt.Some? && now - probeStartedAt.value >= PROBE_CONFIRM {
        ceiling, probeStartedAt := Some(Least(MAXIMUM, rate)), None;
        lastProbeEndedAt, probeCooldown := now, PROBE_COOLDOWN;
      } else if rate < ceiling.value * SLOW_ZONE {
        if now - lastIncreaseAt < INCREASE_INTERVAL { return; }
        lastIncreaseAt, rate := now, Least(ceiling.value * SLOW_ZONE, rate + INCREASE_STEP);
      } else if rate < ceiling.value {
        if now - lastIncreaseAt < SLOW_INTERVAL { return; }
        lastIncreaseAt, rate := now, Least(ceiling.value, rate + SLOW_STEP);
      } else {
        if probeStartedAt.Some? { return; }
        if lastFloodAt.Some? && now - lastFloodAt.value < probeCooldown { return; }
        if now - lastProbeEndedAt < probeCooldown { return; }
        rate, probeStartedAt, lastIncreaseAt := Least(MAXIMUM, rate + PROBE_STEP), Some(now), now;
      }
      Persist();
    }

    /** The part of `pace` that runs without interruption. */
    method TakeSlot(now: real) returns (start: real)
      requires Valid()
      modifies this`nextSlotAt
      ensures Valid() && View() == OnSlot(old(View()), now) && start == NextSlot(old(View()), now).start
    {
      SlotInv(View(), now);
      var interval := 1.0 / rate;
      var earliest := Most(now, penaltyUntil);
      start := Most(nextSlotAt, earliest - BURST * interval);
      nextSlotAt := start + interval;
    }

    /** `pace` with an exact sleeper and nobody else calling: one slot, and the
        caller goes on when its slot and the penalty have both come. */
    method Pace(now: real) returns (done: real)
      requires Valid()
      modifies this`nextSlotAt
      ensures Valid() && View() == OnSlot(old(View()), now)
      ensures done == WakeAt(NextSlot(old(View()), now)) && done >= penaltyUntil
    {
      OnePassIsEnough(View(), now, []);
      hide Inv, NextSlot, OnSlot;
      done := now;
      var admitted := false;
      while !admitted
        invariant Valid()
        invariant !admitted ==> done == now && View() == old(View())
        invariant admitted ==> View() == OnSlot(old(View()), now)
        invariant admitted ==> done == WakeAt(NextSlot(old(View()), now)) && done >= penaltyUntil
        decreases !admitted
      {
        var start := TakeSlot(done);
        done := Most(done, start);
        admitted := done >= penaltyUntil;
      }
    }
  }
}
