/** The per-account message budget: a token bucket that a flood empties and
    keeps from refilling until its wait has passed. */
module MessageBucket {
  import opened Foundations
  import opened UploadLimiter

  /** One token, up to rounding at refill boundaries. */
  const ONE_TOKEN: real := 1.0 - 0.000000001

  datatype Bucket = Bucket(rate: real, burst: real, tokens: real, lastRefill: real)

  ghost predicate Sound(b: Bucket) { b.rate > 0.0 && b.burst >= 1.0 && 0.0 <= b.tokens <= b.burst }

  function Refilled(b: Bucket, now: real): Bucket {
    if now >= b.lastRefill then
      b.(tokens := Least(b.burst, b.tokens + (now - b.lastRefill) * b.rate), lastRefill := now)
    else b
  }

  /** One pass of `acquire`: admitted, or how long to sleep before the next pass. */
  function Attempt(b: Bucket, now: real): (Bucket, bool) {
    var r := Refilled(b, now);
    if r.tokens >= ONE_TOKEN then (r.(tokens := Most(0.0, r.tokens - 1.0)), true) else (r, false)
  }

  function Delay(b: Bucket, now: real): real
    requires b.rate > 0.0
  {
    Most(0.0, b.lastRefill - now) + (1.0 - b.tokens) / b.rate
  }

  function Flooded(b: Bucket, now: real, seconds: Option<real>): Bucket {
    b.(tokens := 0.0, lastRefill := Most(b.lastRefill, now + WaitSeconds(seconds)))
  }

  datatype BucketEvent = Acquire(now: real) | BucketFlood(now: real, seconds: Option<real>)

  function BucketStep(b: Bucket, e: BucketEvent): Bucket {
    match e
    case Acquire(now) => Attempt(b, now).0
    case BucketFlood(now, seconds) => Flooded(b, now, seconds)
  }

  function BucketRun(b: Bucket, events: seq<BucketEvent>): Bucket
    decreases |events|
  {
    if events == [] then b else BucketStep(BucketRun(b, events[..|events| - 1]), events[|events| - 1])
  }

  function Admitted(b: Bucket, events: seq<BucketEvent>): nat
    decreases |events|
  {
    if events == [] then 0
    else
      var front, e := events[..|events| - 1], events[|events| - 1];
      Admitted(b, front) + if e.Acquire? && Attempt(BucketRun(b, front), e.now).1 then 1 else 0
  }

  /** The clock never runs backwards along a history from `s` to `t`. */
  predicate Timed(events: seq<BucketEvent>, s: real, t: real)
    decreases |events|
  {
    if events == [] then s <= t
    else events[|events| - 1].now <= t && Timed(events[..|events| - 1], s, events[|events| - 1].now)
  }

  // ------------------------------------------------------------------- the budget

  /** What the bucket would hold at `t` if nobody took anything. */
  function Available(b: Bucket, t: real): real {
    if t >= b.lastRefill then Least(b.burst, b.tokens + (t - b.lastRefill) * b.rate) else b.tokens
  }

  lemma Times(a: real, b: real)
    requires a >= 0.0 && b >= 0.0
    ensures a * b >= 0.0
  {
  }

  /** Time adds at most `rate` tokens a second. */
  lemma AvailableGrows(b: Bucket, t: real, u: real)
    requires Sound(b) && t <= u
    ensures 0.0 <= Available(b, t) <= Available(b, u) <= b.burst
    ensures Available(b, u) <= Available(b, t) + (u - t) * b.rate
  {
    Times(u - t, b.rate);
    if t >= b.lastRefill {
      Times(t - b.lastRefill, b.rate);
      assert (u - b.lastRefill) * b.rate == (u - t) * b.rate + (t - b.lastRefill) * b.rate;
    } else if u >= b.lastRefill {
      Times(u - b.lastRefill, b.rate);
      Times(b.lastRefill - t, b.rate);
      assert (u - t) * b.rate == (u - b.lastRefill) * b.rate + (b.lastRefill - t) * b.rate;
    }
  }

  /** One event at `t` uses up what it admits, and never adds anything. */
  lemma StepSpends(b: Bucket, e: BucketEvent)
    requires Sound(b)
    ensures var b' := BucketStep(b, e);
      && Sound(b') && b'.rate == b.rate && b'.burst == b.burst
      && Available(b', e.now) + (if e.Acquire? && Attempt(b, e.now).1 then ONE_TOKEN else 0.0) <= Available(b, e.now)
  {
    AvailableGrows(b, e.now, e.now);
    if e.Acquire? {
      if e.now >= b.lastRefill {
        Times(e.now - b.lastRefill, b.rate);
        assert Refilled(b, e.now).tokens == Available(b, e.now);
        assert (e.now - e.now) * b.rate == 0.0;
      }
    } else if e.now >= Flooded(b, e.now, e.seconds).lastRefill {
      assert (e.now - e.now) * b.rate == 0.0;
    }
  }

  lemma {:induction false} RunSpends(b: Bucket, events: seq<BucketEvent>, s: real, t: real)
    requires Sound(b) && Timed(events, s, t)
    ensures var b' := BucketRun(b, events);
      && s <= t && Sound(b') && b'.rate == b.rate && b'.burst == b.burst
      && Admitted(b, events) as real * ONE_TOKEN + Available(b', t) <= Available(b, s) + (t - s) * b.rate
    decreases |events|
  {
    hide Attempt, Available, BucketStep;
    if events == [] {
      AvailableGrows(b, s, t);
    } else {
      var front, e := events[..|events| - 1], events[|events| - 1];
      var before := BucketRun(b, front);
      RunSpends(b, front, s, e.now);
      StepSpends(before, e);
      AvailableGrows(BucketStep(before, e), e.now, t);
      SplitTime(s, e.now, t, b.rate);
      OneMoreToken(Admitted(b, front));
    }
  }

  lemma SplitTime(s: real, m: real, t: real, rate: real)
    ensures (t - s) * rate == (t - m) * rate + (m - s) * rate
  {
  }

  lemma OneMoreToken(n: nat)
    ensures (n + 1) as real * ONE_TOKEN == n as real * ONE_TOKEN + ONE_TOKEN
  {
  }

  /** In any stretch of time, floods or not, at most the burst plus the refill of
      that stretch is admitted. */
  lemma MessageBound(b: Bucket, events: seq<BucketEvent>, s: real, t: real)
    requires Sound(b) && Timed(events, s, t)
    ensures Admitted(b, events) as real * ONE_TOKEN <= b.burst + b.rate * (t - s)
  {
    RunSpends(b, events, s, t);
    AvailableGrows(b, s, t);
    AvailableGrows(BucketRun(b, events), t, t);
    assert (t - s) * b.rate == b.rate * (t - s);
  }

  /** After a flood nothing is admitted before its wait has passed and one token's
      worth of time after it. */
  lemma {:induction false} NothingBeforeTheWait(b: Bucket, at: real, seconds: Option<real>, events: seq<BucketEvent>,
        t: real)
    requires Sound(b) && Timed(events, at, t)
    requires t < at + WaitSeconds(seconds) + ONE_TOKEN / b.rate
    ensures Admitted(Flooded(b, at, seconds), events) == 0
  {
    var start, until := Flooded(b, at, seconds), at + WaitSeconds(seconds);
    Empty(start, until, events, at, t);
  }

  /** At time `t`: nothing in the bucket before `until`, then only the refill. */
  ghost predicate Dry(b: Bucket, until: real, t: real) {
    b.lastRefill >= until && (b.tokens == 0.0 || (b.lastRefill <= t && b.tokens <= (b.lastRefill - until) * b.rate))
  }

  lemma {:induction false} Empty(b: Bucket, until: real, events: seq<BucketEvent>, s: real, t: real)
    requires Sound(b) && Dry(b, until, s) && Timed(events, s, t) && t < until + ONE_TOKEN / b.rate
    ensures var b' := BucketRun(b, events);
      Admitted(b, events) == 0 && Sound(b') && b'.rate == b.rate && b'.burst == b.burst && Dry(b', until, t) && s <= t
    decreases |events|
  {
    hide Attempt, BucketStep, Dry;
    if events == [] {
      StillDry(b, until, s, t);
    } else {
      var front, e := events[..|events| - 1], events[|events| - 1];
      Empty(b, until, front, s, e.now);
      DryStep(BucketRun(b, front), until, e);
      StillDry(BucketRun(b, events), until, e.now, t);
    }
  }

  lemma StillDry(b: Bucket, until: real, s: real, t: real)
    requires Dry(b, until, s) && s <= t
    ensures Dry(b, until, t)
  {
  }

  lemma DryRefill(b: Bucket, until: real, now: real)
    requires Sound(b) && Dry(b, until, now)
    ensures b.tokens + (now - b.lastRefill) * b.rate <= (now - until) * b.rate
  {
    Times(b.lastRefill - until, b.rate);
    SplitTime(until, b.lastRefill, now, b.rate);
  }

  lemma DryStep(b: Bucket, until: real, e: BucketEvent)
    requires Sound(b) && Dry(b, until, e.now) && e.now < until + ONE_TOKEN / b.rate
    ensures e.Acquire? ==> !Attempt(b, e.now).1
    ensures var b' := BucketStep(b, e); Sound(b') && b'.rate == b.rate && b'.burst == b.burst && Dry(b', until, e.now)
  {
    StepSpends(b, e);
    if e.Acquire? && e.now >= b.lastRefill {
      DryRefill(b, until, e.now);
      LessThanOne(e.now - until, b.rate);
    }
  }

  lemma LessThanOne(d: real, rate: real)
    requires rate > 0.0 && d < ONE_TOKEN / rate
    ensures d * rate < ONE_TOKEN
  {
    assert ONE_TOKEN / rate * rate == ONE_TOKEN;
  }

  /** A refused sender that sleeps its delay undisturbed is admitted next time. */
  lemma OneSleepIsEnough(b: Bucket, now: real)
    requires Sound(b) && !Attempt(b, now).1
    ensures Attempt(Attempt(b, now).0, now + Delay(Attempt(b, now).0, now)).1
  {
    StepSpends(b, Acquire(now));
    var r := Attempt(b, now).0;
    var later := now + Delay(r, now);
    var share := (1.0 - r.tokens) / r.rate;
    assert share * r.rate == 1.0 - r.tokens;
    assert share > 0.0 by { if share <= 0.0 { Times(-share, r.rate); } }
    assert later >= r.lastRefill + share;
    Times(later - r.lastRefill - share, r.rate);
    assert (later - r.lastRefill) * r.rate == (later - r.lastRefill - share) * r.rate + share * r.rate;
  }

  // --------------------------------------------------------------- the object itself

  class MessageTokenBucket {
    const rate: real
    const burst: real
    var tokens: real
    var lastRefill: real

    function View(): Bucket
      reads this
    {
      Bucket(rate, burst, tokens, lastRefill)
    }

    ghost predicate Valid()
      reads this
    {
      Sound(View())
    }

    constructor (rate: real, burst: real, now: real)
      requires rate > 0.0 && burst >= 1.0
      ensures Valid() && View() == Bucket(rate, burst, burst, now)
    {
      this.rate, this.burst, tokens, lastRefill := rate, burst, burst, now;
    }

    /** One pass of `acquire`. */
    method TryAcquire(now: real) returns (admitted: bool, delay: real)
      requires Valid()
      modifies this`tokens, this`lastRefill
      ensures Valid() && (View(), admitted) == Attempt(old(View()), now)
      ensures !admitted ==> delay == Delay(View(), now)
    {
      StepSpends(View(), Acquire(now));
      Refill(now);
      hide Refilled, Sound, Delay;
      admitted := tokens >= ONE_TOKEN;
      if admitted {
        tokens := Most(0.0, tokens - 1.0);
        delay := 0.0;
      } else {
        delay := Wait(now);
      }
    }

    method Refill(now: real)
      modifies this`tokens, this`lastRefill
      ensures View() == Refilled(old(View()), now)
    {
      if now >= lastRefill {
        tokens := Least(burst, tokens + (now - lastRefill) * rate);
        lastRefill := now;
      }
    }

    function Wait(now: real): (delay: real)
      requires rate > 0.0
      reads this
      ensures delay == Delay(View(), now)
    {
      Most(0.0, lastRefill - now) + (1.0 - tokens) / rate
    }

    method Flood(now: real, seconds: Option<real>)
      requires Valid()
      modifies this`tokens, this`lastRefill
      ensures Valid() && View() == Flooded(old(View()), now, seconds)
    {
      tokens := 0.0;
      lastRefill := Most(lastRefill, now + WaitSeconds(seconds));
    }
  }
}
