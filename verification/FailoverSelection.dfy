/** What selection chooses, when the scheduler may sleep, and how much it can do. */
module FailoverSelection {
  import opened Foundations
  import opened FailoverModel
  import opened FailoverInvariant
  import opened FailoverPreserved
  import opened FailoverSafety
  import opened FailoverHistory
  import opened FailoverRuns

  // ------------------------------------------------------------- the best migration

  lemma PickTotal(a: Pick, b: Pick)
    ensures PickLess(a, b) || PickLess(b, a) || a == b
    ensures !(PickLess(a, b) && PickLess(b, a))
  {
  }

  lemma PickTrans(a: Pick, b: Pick, c: Pick)
    requires PickLess(a, b) && PickLess(b, c)
    ensures PickLess(a, c)
  {
  }

  /** `b` is at least as good as `c`. */
  predicate AtLeast(b: Option<Pick>, c: Pick) { b.Some? && (b.value == c || PickLess(c, b.value)) }

  lemma BetterKeeps(best: Option<Pick>, c: Pick, d: Pick)
    ensures AtLeast(Better(best, c), c)
    ensures AtLeast(best, d) ==> AtLeast(Better(best, c), d)
  {
    if best.Some? {
      PickTotal(best.value, c);
      if PickLess(best.value, c) && PickLess(d, best.value) { PickTrans(d, best.value, c); }
    }
  }

  predicate IsPick(w: World, p: Pick) {
    Migratable(w, p.account, p.id) && p == PickOf(w, p.account, p.id)
  }

  lemma {:induction false} BestForAccountIs(w: World, a: AccountId, i: nat, best: Option<Pick>)
    requires best.Some? ==> IsPick(w, best.value) && best.value.account in w.pool.ring
    requires a in w.pool.ring
    ensures var r := BestForAccount(w, a, i, best);
      && (r.Some? ==> IsPick(w, r.value) && r.value.account in w.pool.ring)
      && (forall j :: i <= j < |w.order| && Migratable(w, a, w.order[j]) ==> AtLeast(r, PickOf(w, a, w.order[j])))
      && (forall d :: AtLeast(best, d) ==> AtLeast(r, d))
    decreases |w.order| - i
  {
    if i < |w.order| {
      var b := if Migratable(w, a, w.order[i]) then Better(best, PickOf(w, a, w.order[i])) else best;
      BestForAccountIs(w, a, i + 1, b);
      if Migratable(w, a, w.order[i]) {
        var c := PickOf(w, a, w.order[i]);
        forall d ensures AtLeast(b, c) && (AtLeast(best, d) ==> AtLeast(b, d)) { BetterKeeps(best, c, d); }
      }
    }
  }

  lemma {:induction false} BestIs(w: World, j: nat, best: Option<Pick>)
    requires best.Some? ==> IsPick(w, best.value) && best.value.account in w.pool.ring
    ensures var r := Best(w, j, best);
      && (r.Some? ==> IsPick(w, r.value) && r.value.account in w.pool.ring)
      && (forall k, i :: j <= k < |w.pool.ring| && 0 <= i < |w.order| && Migratable(w, w.pool.ring[k], w.order[i]) ==>
            AtLeast(r, PickOf(w, w.pool.ring[k], w.order[i])))
      && (forall d :: AtLeast(best, d) ==> AtLeast(r, d))
    decreases |w.pool.ring| - j
  {
    if j < |w.pool.ring| {
      BestForAccountIs(w, w.pool.ring[j], 0, best);
      BestIs(w, j + 1, BestForAccount(w, w.pool.ring[j], 0, best));
    }
  }

  /** When no replacement can be started (a drained one may still have been refused, which
      fails its segment) and some migration is possible, selection commits one: the
      lexicographic maximum over every eligible account and every segment, and the
      commit cannot be refused. */
  lemma SelectCommitsTheBest(w: World, a: AccountId, id: Id)
    requires Inv(w) && w.failure.None? && ActivateReplacements(w, 0).1.None?
    requires var w1 := ActivateReplacements(w, 0).0; a in w1.pool.ring && Migratable(w1, a, id)
    ensures var w1 := ActivateReplacements(w, 0).0;
      var b := Best(w1, 0, None);
      && b.Some? && IsPick(w1, b.value) && b.value.account in w1.pool.ring
      && (b.value == PickOf(w1, a, id) || PickLess(PickOf(w1, a, id), b.value))
      && Select(w) == (CommitMigration(w1, b.value.account, b.value.id), None)
      && Select(w).0.tasks[b.value.id] == Migrated(w1.tasks[b.value.id], b.value.account)
      && b.value.account !in w1.tasks[b.value.id].tried
      && Select(w).0.pool.activity[b.value.account].reserved == Some(b.value.id)
  {
    hide ActivateReplacements;
    var w1 := ActivateReplacements(w, 0).0;
    InvReplacements(w, 0);
    BestIs(w1, 0, None);
    var k :| 0 <= k < |w1.pool.ring| && w1.pool.ring[k] == a;
    var i :| 0 <= i < |w1.order| && w1.order[i] == id;
    assert AtLeast(Best(w1, 0, None), PickOf(w1, w1.pool.ring[k], w1.order[i]));
  }

  /** Nothing to migrate: selection starts the first pending segment that finds an
      account, or returns the world unchanged because none does. */
  lemma {:induction false} StartPendingIs(w: World, i: nat)
    requires Inv(w)
    ensures match StartPending(w, i).1
      case Some(act) =>
        && act.taskId in w.tasks && w.tasks[act.taskId].state.Pending?
        && act.attemptId == 1 && !act.migrated && CanAcquire(w.pool, act.accountId, act.taskId)
        && act.taskId in StartPending(w, i).0.tasks
        && StartPending(w, i).0.tasks[act.taskId] == Installed(w.tasks[act.taskId], w.clock, act.accountId, 1)
      case None =>
        && StartPending(w, i).0 == w
        && (forall j, k: nat :: i <= j < |w.order| && w.tasks[w.order[j]].state.Pending? && k < |w.pool.ring| ==>
              !CanAcquire(w.pool, w.pool.ring[Slot(w.pool, k)], w.order[j]))
    decreases |w.order| - i
  {
    if i < |w.order| {
      AcquireFromIs(w.pool, w.order[i], 0);
      if !(w.tasks[w.order[i]].state.Pending? && AcquireFrom(w.pool, w.order[i], 0).Some?) { StartPendingIs(w, i + 1); }
    }
  }

  /** Without a replacement to start and without a candidate, selection starts a pending
      segment, or does nothing beyond failing the segments whose replacement was refused. */
  lemma SelectStartsPending(w: World)
    requires Inv(w) && w.failure.None? && ActivateReplacements(w, 0).1.None?
    requires var w1 := ActivateReplacements(w, 0).0;
      forall a, id :: a in w1.pool.ring && id in w1.tasks ==> !Migratable(w1, a, id)
    ensures var w1 := ActivateReplacements(w, 0).0;
      Select(w) == StartPending(w1, 0) && (Select(w).1.None? ==> Select(w).0 == w1)
  {
    hide ActivateReplacements;
    var w1 := ActivateReplacements(w, 0).0;
    InvReplacements(w, 0);
    BestIs(w1, 0, None);
    StartPendingIs(w1, 0);
  }

  /** A pass over the replacements that starts none changes only segments whose drained
      replacement the pool refused, and those have failed. */
  lemma RefusedReplacements(w: World, id: Id)
    requires Inv(w) && ActivateReplacements(w, 0).1.None? && id in w.tasks
    ensures KeptOrFailed(w, ActivateReplacements(w, 0).0, id)
  {
    NoneStarted(w, 0, id);
  }

  lemma {:induction false} NoneStarted(w: World, i: nat, id: Id)
    requires Inv(w) && ActivateReplacements(w, i).1.None? && id in w.tasks
    ensures KeptOrFailed(w, ActivateReplacements(w, i).0, id)
    decreases |w.order| - i
  {
    if i < |w.order| {
      assert w.order[i] in w.tasks;
      hide Inv, ActivateReplacement, IsTerminal;
      var w1 := ActivateReplacement(w, w.order[i]).0;
      NoReplacement(w, w.order[i], id);
      InvActivateReplacement(w, w.order[i]);
      NoneStarted(w1, i + 1, id);
    }
  }

  predicate KeptOrFailed(w: World, v: World, id: Id) {
    id in w.tasks && id in v.tasks && (v.tasks[id] == w.tasks[id] || v.tasks[id].state.Failed?)
  }

  // --------------------------------------------------------------- when to wake up

  function Later(a: Option<int>, b: int): Option<int> {
    if a.None? || b < a.value then Some(b) else a
  }

  /** The instants one segment contributes to the deadline. */
  function TaskDeadlines(t: Task, now: int, best: Option<int>): Option<int> {
    if !(t.state.Active? && t.migrations == 0 && t.floodAt.Some?) then best
    else
      var age := (if t.startedAt.Some? then t.startedAt.value else now) + CANDIDATE_MIN_AGE;
      var expiry := t.floodAt.value + PREMIUM_RECENCY;
      var b := if age > now then Later(best, age) else best;
      if expiry > now then Later(b, expiry)
      else if expiry == now && Candidate(t, now) then Later(b, expiry + 1)
      else b
  }

  function OverTasks(w: World, i: nat, best: Option<int>): Option<int>
    decreases |w.order| - i
  {
    if i >= |w.order| || w.order[i] !in w.tasks then best
    else OverTasks(w, i + 1, TaskDeadlines(w.tasks[w.order[i]], w.clock, best))
  }

  function SnapshotDeadline(p: Pool, a: AccountId, now: int, best: Option<int>): Option<int> {
    if !Known(p, a) || !Eligible(p.runtimes[a]) then best
    else
      var s := FreshSnapshot(p.activity[a], now);
      if s.Some? && s.value.expiresAt > now then Later(best, s.value.expiresAt) else best
  }

  function OverAccounts(w: World, j: nat, best: Option<int>): Option<int>
    decreases |w.pool.ring| - j
  {
    if j >= |w.pool.ring| then best
    else OverAccounts(w, j + 1, SnapshotDeadline(w.pool, w.pool.ring[j], w.clock, best))
  }

  function NextDeadline(w: World): Option<int> { OverAccounts(w, 0, OverTasks(w, 0, None)) }

  predicate AtMost(a: Option<int>, b: int) { a.Some? && a.value <= b }

  lemma {:induction false} OverTasksIs(w: World, i: nat, best: Option<int>)
    requires OrderOk(w)
    ensures forall d :: AtMost(best, d) ==> AtMost(OverTasks(w, i, best), d)
    ensures forall j, d :: i <= j < |w.order| && AtMost(TaskDeadlines(w.tasks[w.order[j]], w.clock, None), d) ==>
      AtMost(OverTasks(w, i, best), d)
    ensures (best.None? || best.value > w.clock) ==>
      OverTasks(w, i, best).None? || OverTasks(w, i, best).value > w.clock
    decreases |w.order| - i
  {
    if i < |w.order| { OverTasksIs(w, i + 1, TaskDeadlines(w.tasks[w.order[i]], w.clock, best)); }
  }

  lemma {:induction false} OverAccountsIs(w: World, j: nat, best: Option<int>)
    ensures forall d :: AtMost(best, d) ==> AtMost(OverAccounts(w, j, best), d)
    ensures forall k, d ::
      j <= k < |w.pool.ring| && AtMost(SnapshotDeadline(w.pool, w.pool.ring[k], w.clock, None), d) ==>
      AtMost(OverAccounts(w, j, best), d)
    ensures (best.None? || best.value > w.clock) ==>
      OverAccounts(w, j, best).None? || OverAccounts(w, j, best).value > w.clock
    decreases |w.pool.ring| - j
  {
    if j < |w.pool.ring| { OverAccountsIs(w, j + 1, SnapshotDeadline(w.pool, w.pool.ring[j], w.clock, best)); }
  }

  /** No sleeping through an eligibility change: as long as nobody calls, each
      segment's candidacy and the freshness of each eligible account's snapshot
      stay what they are until the deadline, and for ever if there is none. The
      deadline itself always lies in the future. */
  lemma NothingChangesBeforeDeadline(w: World, later: int)
    requires Inv(w) && later >= w.clock
    requires NextDeadline(w).None? || later < NextDeadline(w).value
    ensures NextDeadline(w).Some? ==> NextDeadline(w).value > w.clock
    ensures forall id | id in w.tasks :: Candidate(w.tasks[id], later) == Candidate(w.tasks[id], w.clock)
    ensures forall a | a in w.pool.ring && Known(w.pool, a) && Eligible(w.pool.runtimes[a]) ::
      FreshSnapshot(w.pool.activity[a], later) == FreshSnapshot(w.pool.activity[a], w.clock)
  {
    OverTasksIs(w, 0, None);
    OverAccountsIs(w, 0, OverTasks(w, 0, None));
    forall id | id in w.tasks ensures Candidate(w.tasks[id], later) == Candidate(w.tasks[id], w.clock) {
      var j :| 0 <= j < |w.order| && w.order[j] == id;
      assert Phase(w.tasks[id]);
      CandidacyConstant(w.tasks[w.order[j]], w.clock, later, NextDeadline(w)) by {
        forall d | AtMost(TaskDeadlines(w.tasks[w.order[j]], w.clock, None), d) ensures AtMost(NextDeadline(w), d) {
          assert AtMost(OverTasks(w, 0, None), d);
        }
      }
    }
    forall a | a in w.pool.ring && Known(w.pool, a) && Eligible(w.pool.runtimes[a])
      ensures FreshSnapshot(w.pool.activity[a], later) == FreshSnapshot(w.pool.activity[a], w.clock)
    {
      var k :| 0 <= k < |w.pool.ring| && w.pool.ring[k] == a;
      var s := FreshSnapshot(w.pool.activity[a], w.clock);
      if s.Some? {
        assert AtMost(SnapshotDeadline(w.pool, w.pool.ring[k], w.clock, None), s.value.expiresAt);
        assert AtMost(NextDeadline(w), s.value.expiresAt);
      }
    }
  }

  lemma CandidacyConstant(t: Task, now: int, later: int, deadline: Option<int>)
    requires Phase(t) && later >= now && (deadline.None? || later < deadline.value)
    requires forall d :: AtMost(TaskDeadlines(t, now, None), d) ==> AtMost(deadline, d)
    ensures Candidate(t, later) == Candidate(t, now)
  {
    var first := TaskDeadlines(t, now, None);
    if first.Some? { assert AtMost(first, first.value); }
  }

  lemma RatioDecides(speed: real, a: nat, b: nat, t: Task)
    requires speed > 0.0 && a > 0 && b > 0 && t.logical < t.size
    ensures Ratio(speed, Speed(a), t) == Ratio(speed, Speed(b), t) <==> a == b
  {
    var left, x, y := RemainingRatio(t), speed / Speed(a), speed / Speed(b);
    assert left > 0.0;
    assert x * Speed(a) == speed && y * Speed(b) == speed;
    if x * left == y * left {
      SameFactor(x, y, left);
      SameFactor(Speed(a), Speed(b), x);
    }
  }

  lemma SameFactor(p: real, q: real, k: real)
    requires p * k == q * k && k != 0.0
    ensures p == q
  {
    assert (p - q) * k == 0.0;
  }

  predicate BeforeDeadline(w: World, later: int) { NextDeadline(w).None? || later < NextDeadline(w).value }

  /** The bytes in the window of the segment's current attempt, at a given instant. */
  function BytesAt(w: World, id: Id, at: int): nat
    requires id in w.tasks && w.tasks[id].account.Some?
  {
    AttemptBytes(w.tracker.samples, Lease(id, w.tasks[id].attemptId, w.tasks[id].account.value), at)
  }

  /** Before the deadline a score exists exactly when it exists now, and it is the
      same score exactly when the attempt's window holds the same bytes. */
  lemma ScoreMovesWithTheWindow(w: World, later: int, a: AccountId, id: Id)
    requires Inv(w) && later >= w.clock && a in w.pool.ring && BeforeDeadline(w, later)
    ensures var w' := w.(clock := later);
      && (ScoreOf(w', a, id).Some? <==> ScoreOf(w, a, id).Some?)
      && (ScoreOf(w, a, id).Some? ==>
            (ScoreOf(w', a, id) == ScoreOf(w, a, id) <==> BytesAt(w, id, later) == BytesAt(w, id, w.clock)))
  {
    hide Inv, NextDeadline, AttemptBytes, Ratio, Speed, FreshSnapshot;
    NothingChangesBeforeDeadline(w, later);
    if ScoreOf(w, a, id).Some? {
      var now, left := BytesAt(w, id, w.clock), BytesAt(w, id, later);
      SnapshotIsFast(w, a);
      if now > 0 && left > 0 {
        RatioDecides(FreshSnapshot(w.pool.activity[a], w.clock).value.bytesPerSecond, now, left, w.tasks[id]);
      }
    }
  }

  lemma SnapshotIsFast(w: World, a: AccountId)
    requires Inv(w) && Known(w.pool, a) && FreshSnapshot(w.pool.activity[a], w.clock).Some?
    ensures FreshSnapshot(w.pool.activity[a], w.clock).value.bytesPerSecond > 0.0
  {
    assert AccountOk(w.pool, a);
  }

  /** With what the window will still hold at that instant, the idle account is more than
      twice as fast on what remains of the segment, or nothing is left in the window at all. */
  predicate OutpacedAt(w: World, a: AccountId, id: Id, at: int)
    requires ScoreOf(w, a, id).Some?
  {
    var t, left := w.tasks[id], BytesAt(w, id, at);
    left == 0
    || Ratio(FreshSnapshot(w.pool.activity[a], w.clock).value.bytesPerSecond, Speed(left), t) > SCORE_THRESHOLD
  }

  /** When a migration is possible at some instant before the deadline, decided now: the score
      exists, and the samples that will still count then are slow enough. */
  lemma MigratableBeforeDeadline(w: World, later: int, a: AccountId, id: Id)
    requires Inv(w) && later >= w.clock && a in w.pool.ring && BeforeDeadline(w, later)
    ensures Migratable(w.(clock := later), a, id) <==> ScoreOf(w, a, id).Some? && OutpacedAt(w, a, id, later)
  {
    hide Inv, NextDeadline, AttemptBytes, Ratio, Speed, FreshSnapshot;
    NothingChangesBeforeDeadline(w, later);
  }

  /** A window only loses bytes while nothing is recorded. */
  lemma {:induction false} WindowShrinks(samples: seq<Sample>, l: Lease, now: int, later: int)
    requires now <= later
    ensures AttemptBytes(samples, l, later) <= AttemptBytes(samples, l, now)
  {
    if samples != [] { WindowShrinks(samples[..|samples| - 1], l, now, later); }
  }

  lemma RatioGrows(speed: real, a: nat, b: nat, t: Task)
    requires speed > 0.0 && 0 < a <= b && t.logical < t.size
    ensures Ratio(speed, Speed(b), t) <= Ratio(speed, Speed(a), t)
  {
    var left, x, y := RemainingRatio(t), speed / Speed(a), speed / Speed(b);
    assert left > 0.0;
    assert x * Speed(a) == speed && y * Speed(b) == speed;
    assert y > 0.0;
    Quicker(x, y, Speed(a), Speed(b));
    ScaledUp(y, x, left);
  }

  lemma Quicker(x: real, y: real, p: real, q: real)
    requires x * p == y * q && y > 0.0 && 0.0 < p <= q
    ensures y <= x
  {
    ScaledUp(p, q, y);
    Cancel(y, x, p);
  }

  lemma Cancel(p: real, q: real, k: real)
    requires p * k <= q * k && k > 0.0
    ensures p <= q
  {
  }

  lemma ScaledUp(p: real, q: real, k: real)
    requires p <= q && k > 0.0
    ensures p * k <= q * k
  {
  }

  /** Once outpaced, outpaced for good. */
  lemma StaysOutpaced(w: World, a: AccountId, id: Id, at: int, later: int)
    requires Inv(w) && ScoreOf(w, a, id).Some? && at <= later && OutpacedAt(w, a, id, at)
    ensures OutpacedAt(w, a, id, later)
  {
    hide Inv, AttemptBytes, Ratio, Speed, FreshSnapshot;
    SnapshotIsFast(w, a);
    var t := w.tasks[id];
    WindowShrinks(w.tracker.samples, Lease(id, t.attemptId, t.account.value), at, later);
    var left := BytesAt(w, id, later);
    if left > 0 {
      RatioGrows(FreshSnapshot(w.pool.activity[a], w.clock).value.bytesPerSecond, left, BytesAt(w, id, at), t);
    }
  }

  lemma ScoredHasDeadline(w: World, a: AccountId, id: Id)
    requires Inv(w) && ScoreOf(w, a, id).Some?
    ensures NextDeadline(w).Some? && NextDeadline(w).value > w.clock
  {
    OverTasksIs(w, 0, None);
    OverAccountsIs(w, 0, OverTasks(w, 0, None));
    var j :| 0 <= j < |w.order| && w.order[j] == id;
    var first := TaskDeadlines(w.tasks[w.order[j]], w.clock, None);
    assert first.Some?;
    assert AtMost(first, first.value);
    assert AtMost(OverTasks(w, 0, None), first.value);
  }

  /** Some instant from now until the deadline allows this migration, with no call in between. */
  ghost predicate PossibleMeanwhile(w: World, a: AccountId, id: Id) {
    exists later :: w.clock <= later && BeforeDeadline(w, later) && Migratable(w.(clock := later), a, id)
  }

  /** A sleep until the deadline misses a migration exactly if the pair has a score now and is
      outpaced at the deadline's last tick: one test on the samples already recorded. */
  lemma DeadlineMissesExactly(w: World, a: AccountId, id: Id)
    requires Inv(w) && a in w.pool.ring
    ensures ScoreOf(w, a, id).Some? ==> NextDeadline(w).Some? && NextDeadline(w).value > w.clock
    ensures PossibleMeanwhile(w, a, id)
      <==> ScoreOf(w, a, id).Some? && OutpacedAt(w, a, id, NextDeadline(w).value - 1)
  {
    hide Inv, NextDeadline, OutpacedAt, ScoreOf;
    if ScoreOf(w, a, id).Some? {
      ScoredHasDeadline(w, a, id);
      var last := NextDeadline(w).value - 1;
      MigratableBeforeDeadline(w, last, a, id);
      if PossibleMeanwhile(w, a, id) {
        var later :| w.clock <= later && BeforeDeadline(w, later) && Migratable(w.(clock := later), a, id);
        MigratableBeforeDeadline(w, later, a, id);
        StaysOutpaced(w, a, id, later, last);
      }
    } else {
      forall later | w.clock <= later && BeforeDeadline(w, later) ensures !Migratable(w.(clock := later), a, id) {
        MigratableBeforeDeadline(w, later, a, id);
      }
    }
  }

  // ------------------------------------------------ what the deadline does not cover

  const SLOW: Lease := Lease(0, 1, 5)
  const SENT: Token := Token(0, 1, 5, 0, 1)
  const RICH: Activity := Activity({}, {}, None, Some(IdleSnapshot(200.0, 0, 300000)))
  const SLEEPY_POOL: Pool :=
    Pool(1, [5, 6], 0, map[5 := Runtime(true, true, 1), 6 := Runtime(true, true, 1)],
         map[5 := Activity({}, {}, None, None), 6 := RICH])

  /** A fresh scheduler for one segment; account 6 is idle with a good snapshot. */
  function SleepyStart(): World { Fresh(SLEEPY_POOL, Tracker([], map[], map[]), 0, [Descriptor(0, 0, 6000)]) }

  /** Account 5 takes the segment, sends one half of it, meets a premium flood, and then nothing
      more happens until just before the flood loses its relevance. */
  const SLEEPY_RUN: seq<Event> :=
    [EvSelect, Tick(900), EvBegin(SLOW, 0), EvPhysical(SENT, 3000), EvPart(SLOW, 0, 3000), EvSettled(SENT),
     Tick(100), EvFlood(SLOW), Tick(29900)]

  function SleepyTask(): Task {
    NewTask(Descriptor(0, 0, 6000)).(
      state := Active, attemptId := 1, account := Some(5), tried := {5}, startedAt := Some(0),
      logical := 3000, parts := {0}, inFlight := map[1 := {}], owned := Some(Owned(5, 1)), floodAt := Some(1000))
  }

  /** The world this run ends in. */
  function Sleepy(): World {
    World(30900,
      Pool(1, [5, 6], 1, map[5 := Runtime(true, true, 0), 6 := Runtime(true, true, 1)],
           map[5 := Activity({0}, {}, None, None), 6 := RICH]),
      Tracker([Sample(900, SLOW, 3000)], map[PartKey(0, 1, 0) := 3000], map[SENT := 3000]),
      [0], map[0 := SleepyTask()], {(0, 1)}, 1, None, 3000, 0, 0)
  }

  /** After the selection: account 5 runs the first attempt. */
  function SleepyStarted(): World {
    Sleepy().(
      clock := 0, tracker := Tracker([], map[], map[]), sequence := 0, physical := 0,
      tasks := map[0 := SleepyTask().(logical := 0, parts := {}, floodAt := None)])
  }

  /** While its half is under way. */
  function SleepySending(): World {
    var w := SleepyStarted();
    w.(clock := 900, sequence := 1, tasks := map[0 := w.tasks[0].(inFlight := map[1 := {SENT}])],
       pool := w.pool.(activity := map[5 := Activity({0}, {SENT}, None, None), 6 := RICH]))
  }

  lemma SleepyWaits()
    ensures var w := SleepyStart(); ActivateReplacements(w, 0) == (w, None) && w.order == [0]
    ensures SleepyStart().tasks == map[0 := NewTask(Descriptor(0, 0, 6000))]
  {
    var w, ds := SleepyStart(), [Descriptor(0, 0, 6000)];
    assert OrderFor(ds, 0) == [];
    assert InsertByIndex([], ds, 0) == [0];
    assert ActivateReplacements(w, 1) == (w, None);
    assert ActivateReplacements(w, 0) == (w, None);
  }

  lemma OneMember<T>(x: T)
    ensures {} + {x} == {x} && {x} - {x} == {}
  {
  }

  lemma SleepyAcquires()
    ensures AcquireFrom(SLEEPY_POOL, 0, 0) == Some((SleepyStarted().pool, 5))
  {
    var q := TryAcquire(SLEEPY_POOL, 5, 0).value.(cursor := 1);
    assert q.runtimes == SleepyStarted().pool.runtimes;
    assert BeginJob(Activity({}, {}, None, None), 0) == Activity({0}, {}, None, None) by { OneMember<Id>(0); }
    assert q.activity == SleepyStarted().pool.activity;
  }

  lemma SleepyPoolOk()
    ensures PoolOk(SLEEPY_POOL) && IdsUnused(SLEEPY_POOL, 1)
  {
    assert AccountOk(SLEEPY_POOL, 5) && AccountOk(SLEEPY_POOL, 6);
  }

  lemma SleepyIdles()
    ensures Inv(SleepyStart()) && forall a, id | id in SleepyStart().tasks :: !Migratable(SleepyStart(), a, id)
  {
    SleepyNew();
    SleepyWaits();
    hide Inv, SleepyStart;
    forall a, id | id in SleepyStart().tasks ensures !Migratable(SleepyStart(), a, id) {
      assert !Candidate(NewTask(Descriptor(0, 0, 6000)), SleepyStart().clock);
    }
  }

  lemma SleepyNew()
    ensures Inv(SleepyStart())
  {
    SleepyPoolOk();
    hide PoolOk, IdsUnused;
    FreshInv(SLEEPY_POOL, Tracker([], map[], map[]), 0, [Descriptor(0, 0, 6000)]);
  }

  lemma SleepyInstalled()
    ensures var w := SleepyStart();
      0 in w.tasks && Install(w.(pool := SleepyStarted().pool), 0, 5, 1) == SleepyStarted()
  {
    var w := SleepyStart();
    SleepyWaits();
    assert Installed(w.tasks[0], 0, 5, 1) == SleepyStarted().tasks[0];
    assert w.tasks[0 := SleepyStarted().tasks[0]] == SleepyStarted().tasks;
  }

  lemma SleepyStarts()
    ensures Step(SleepyStart(), EvSelect) == SleepyStarted()
  {
    hide SleepyStart, SleepyStarted, Select, Install;
    SleepyFirst();
    SleepyInstalled();
  }

  lemma SleepyFirst()
    ensures var w := SleepyStart();
      0 in w.tasks && Select(w).0 == Install(w.(pool := SleepyStarted().pool), 0, 5, 1)
  {
    hide SleepyStarted, Select, ActivateReplacements, AcquireFrom, Install, Migratable, Inv;
    SleepyIdles();
    SleepyWaits();
    SleepyAcquires();
    OnlyPending(SleepyStart(), 0, SleepyStarted().pool, 5);
  }

  /** A scheduler with one pending segment and nothing else to do starts it. */
  lemma OnlyPending(w: World, id: Id, p: Pool, a: AccountId)
    requires Inv(w) && w.failure.None? && ActivateReplacements(w, 0) == (w, None)
    requires forall b, j :: b in w.pool.ring && j in w.tasks ==> !Migratable(w, b, j)
    requires w.order == [id] && id in w.tasks && w.tasks[id].state.Pending?
    requires AcquireFrom(w.pool, id, 0) == Some((p, a))
    ensures Select(w).0 == Install(w.(pool := p), id, a, 1)
  {
    SelectStartsPending(w);
    hide Inv, ActivateReplacements, AcquireFrom, Install, Migratable;
    assert StartPending(w, 0).0 == Install(w.(pool := p), id, a, 1);
  }

  lemma SleepyBegins()
    ensures Step(Step(SleepyStarted(), Tick(900)), EvBegin(SLOW, 0)) == SleepySending()
  {
    var w := Step(SleepyStarted(), Tick(900));
    assert NextToken(w, SLOW, 0) == SENT;
    OneMember<Token>(SENT);
    assert StartRequest(Activity({0}, {}, None, None), SENT) == Activity({0}, {SENT}, None, None);
    assert w.tasks[0].inFlight[1 := {SENT}] == map[1 := {SENT}];
    assert Step(w, EvBegin(SLOW, 0)).pool.activity == SleepySending().pool.activity;
  }

  /** Its half has arrived and is counted. */
  function SleepyCounted(): World {
    SleepySending().(tracker := Sleepy().tracker, physical := 3000,
                     tasks := map[0 := SleepyTask().(floodAt := None, inFlight := map[1 := {SENT}])])
  }

  lemma SleepyCounts()
    ensures Step(Step(SleepySending(), EvPhysical(SENT, 3000)), EvPart(SLOW, 0, 3000)) == SleepyCounted()
  {
    var w := Step(SleepySending(), EvPhysical(SENT, 3000));
    assert w.tracker.recorded == map[SENT := 3000];
    assert ValidCurrent(w, SLOW, {Active});
    OneMember<nat>(0);
    var tr := RecordEffective(w.tracker, SLOW, 0, 3000, 900);
    assert tr.effective == map[PartKey(0, 1, 0) := 3000] && tr.samples == [Sample(900, SLOW, 3000)];
    var t := w.tasks[0].(parts := {0}, logical := 3000);
    assert Step(w, EvPart(SLOW, 0, 3000)) == SetTask(w, 0, t).(tracker := tr);
  }

  lemma SleepySettles()
    ensures Step(SleepyCounted(), EvSettled(SENT))
      == Sleepy().(clock := 900, tasks := map[0 := SleepyTask().(floodAt := None)])
  {
    var w := SleepyCounted();
    var frozen := Freeze(w.tracker, w.clock, 5);
    assert {SENT} - {SENT} == {};
    assert SettleRequest(w.pool.activity[5], SENT, frozen) == Activity({0}, {}, None, None);
    assert map[1 := {SENT}][1 := {}] == map[1 := {}];
    var p := SetActivity(w.pool, 5, SettleRequest(w.pool.activity[5], SENT, frozen));
    assert p.activity == Sleepy().pool.activity;
    hide Freeze;
    var t := SleepyTask().(floodAt := None);
    assert SetTask(w, 0, t).(pool := p).tasks[0] == t;
    assert !ShouldClose(t, 1);
  }

  lemma SleepyFloods()
    ensures var w := Sleepy().(clock := 900, tasks := map[0 := SleepyTask().(floodAt := None)]);
      Step(Step(Step(w, Tick(100)), EvFlood(SLOW)), Tick(29900)) == Sleepy()
  {
  }

  lemma RunAnother(w: World, events: seq<Event>, k: nat)
    requires k < |events|
    ensures Run(w, events[..k + 1]) == Step(Run(w, events[..k]), events[k])
  {
    assert events[..k + 1][..k] == events[..k];
  }

  lemma SleepyIsReached()
    ensures Run(SleepyStart(), SLEEPY_RUN) == Sleepy()
  {
    hide Step, Run, Sleepy, SleepyStarted, SleepyStart, SleepySending, SleepyCounted;
    SleepyStarts();
    SleepyBegins();
    SleepyCounts();
    SleepySettles();
    SleepyFloods();
    NineSteps(SleepyStart(), SLEEPY_RUN);
  }

  lemma NineSteps(w: World, e: seq<Event>)
    requires |e| == 9
    ensures var v := Step(Step(Step(w, e[0]), e[1]), e[2]);
      var u := Step(Step(Step(v, e[3]), e[4]), e[5]);
      Run(w, e) == Step(Step(Step(u, e[6]), e[7]), e[8])
  {
    assert Run(w, e[..0]) == w && e[..9] == e;
    hide Step, Run;
    RunAnother(w, e, 0);
    RunAnother(w, e, 1);
    RunAnother(w, e, 2);
    RunAnother(w, e, 3);
    RunAnother(w, e, 4);
    RunAnother(w, e, 5);
    RunAnother(w, e, 6);
    RunAnother(w, e, 7);
    RunAnother(w, e, 8);
  }

  lemma SleepyDeadline()
    ensures NextDeadline(Sleepy()) == Some(31000)
  {
    var w := Sleepy();
    assert TaskDeadlines(SleepyTask(), 30900, None) == Some(31000);
    assert OverTasks(w, 1, Some(31000)) == Some(31000);
    assert OverTasks(w, 0, None) == Some(31000);
    assert OverAccounts(w, 2, Some(31000)) == Some(31000);
    assert OverAccounts(w, 1, Some(31000)) == Some(31000);
    assert OverAccounts(w, 0, Some(31000)) == Some(31000);
  }

  /** The score is not among the things the deadline watches. At the end of this run the segment
      is a candidate, its account has one sample, account 6 is idle, and the score is exactly
      one, too low to migrate. One tick later, well before the deadline and without any call, the
      sample has left the window and the same pair scores infinity: a wait that ends only at the
      deadline sleeps past the moment migration became possible. */
  lemma DeadlineMissesScore()
    ensures PoolOk(SLEEPY_POOL) && IdsUnused(SLEEPY_POOL, 1)
    ensures var w := Run(SleepyStart(), SLEEPY_RUN);
      && w.clock == 30900 && NextDeadline(w) == Some(31000)
      && !Migratable(w, 6, 0) && Migratable(Step(w, Tick(1)), 6, 0)
  {
    SleepyPoolOk();
    SleepyIsReached();
    SleepyDeadline();
    var samples := Sleepy().tracker.samples;
    assert samples[..0] == [];
    assert AttemptBytes(samples, SLOW, 30900) == 3000;
    assert AttemptBytes(samples, SLOW, 30901) == 0;
    assert Speed(3000) == 100.0;
    hide Run;
    assert ScoreOf(Sleepy(), 6, 0) == Some(Finite(200.0 / 100.0 * 0.5));
    assert ScoreOf(Step(Sleepy(), Tick(1)), 6, 0) == Some(Infinite);
  }

  // ------------------------------------------------------------------ bounded work

  /** How many attempts a segment may still start. */
  function AttemptsLeft(t: Task): nat {
    match t.state
    case Pending => 2
    case Active => if t.migrations == 0 then 1 else 0
    case Migrating => 1
    case _ => 0
  }

  function WorkLeft(w: World): map<Id, nat> { map id | id in w.tasks :: AttemptsLeft(w.tasks[id]) }

  lemma {:induction false} TotalPointwise(m: map<Id, nat>, n: map<Id, nat>)
    requires m.Keys == n.Keys && forall k | k in m :: m[k] <= n[k]
    ensures Total(m) <= Total(n)
    ensures (exists k :: k in m && m[k] < n[k]) ==> Total(m) < Total(n)
    decreases |m|
  {
    if m != map[] {
      var k :| k in m && ((exists j :: j in m && m[j] < n[j]) ==> m[k] < n[k]);
      TotalRemove(m, k);
      TotalRemove(n, k);
      RemoveSize(m, k);
      TotalPointwise(m - {k}, n - {k});
    } else {
      assert n == map[];
    }
  }

  lemma EvolvesLeft(t: Task, u: Task)
    requires Evolves(t, u) && Phase(t) && Phase(u)
    ensures AttemptsLeft(u) <= AttemptsLeft(t)
  {
  }

  lemma StepWork(w: World, e: Event)
    requires Inv(w)
    ensures Total(WorkLeft(Step(w, e))) <= Total(WorkLeft(w))
    ensures e.EvSelect? && Select(w).1.Some? ==> Total(WorkLeft(Step(w, e))) < Total(WorkLeft(w))
  {
    hide OrderOk, Links, AccountsKnown, Select;
    var w' := Step(w, e);
    StepOnward(w, e);
    StepKeepsInv(w, e);
    forall id | id in w.tasks ensures AttemptsLeft(w'.tasks[id]) <= AttemptsLeft(w.tasks[id]) {
      assert Phase(w.tasks[id]) && Phase(w'.tasks[id]);
      EvolvesLeft(w.tasks[id], w'.tasks[id]);
    }
    if e.EvSelect? && Select(w).1.Some? {
      var id := Select(w).1.value.taskId;
      ActionStarts(w);
      assert WorkLeft(w')[id] < WorkLeft(w)[id];
    }
    TotalPointwise(WorkLeft(w'), WorkLeft(w));
  }

  /** What an action handed out by selection has just started. */
  predicate Starts(w: World, w': World, a: Action) {
    && a.taskId in w.tasks && a.taskId in w'.tasks
    && w'.tasks[a.taskId].state.Active?
    && w'.tasks[a.taskId].attemptId == a.attemptId
    && w'.tasks[a.taskId].account == Some(a.accountId)
    && w'.tasks[a.taskId].owned == Some(Owned(a.accountId, a.attemptId))
    && ((a.attemptId == 1 && !a.migrated && w.tasks[a.taskId].state.Pending?)
        || (a.attemptId == 2 && a.migrated && w.tasks[a.taskId].state.Migrating?
          && w.tasks[a.taskId].reserved == Some(a.accountId)))
  }

  lemma ReplacementStarts(w: World, id: Id)
    requires Inv(w) && id in w.tasks && ActivateReplacement(w, id).1.Some?
    ensures Starts(w, ActivateReplacement(w, id).0, ActivateReplacement(w, id).1.value)
  {
    assert Phase(w.tasks[id]);
    ReplacementIs(w, id);
  }

  lemma RefusedFails(w: World, id: Id)
    requires Inv(w) && id in w.tasks && Drained(w.tasks[id]) && UseReservation(w, id).1.None?
    ensures UseReservation(w, id).0.tasks == w.tasks[id := UseReservation(w, id).0.tasks[id]]
    ensures UseReservation(w, id).0.tasks[id].state.Failed?
  {
    assert Phase(w.tasks[id]);
    RefusedIs(w, id, Some(REFUSED));
    TerminalFrame(w, id, Failed, Some(REFUSED));
  }

  /** A replacement that starts nothing either touches no segment or fails one. */
  lemma NoReplacement(w: World, id: Id, j: Id)
    requires Inv(w) && id in w.tasks && j in w.tasks && ActivateReplacement(w, id).1.None?
    ensures j in ActivateReplacement(w, id).0.tasks
    ensures ActivateReplacement(w, id).0.tasks[j] == w.tasks[j] || ActivateReplacement(w, id).0.tasks[j].state.Failed?
  {
    if ReplacementReady(w.tasks[id]) {
      ReplacementIs(w, id);
      InvMaybeClose(w, id, 1);
      CloseFrame(w, id, 1);
      RefusedFails(MaybeClose(w, id, 1), id);
    }
  }

  lemma {:induction false} ReplacementsStart(w: World, i: nat)
    requires Inv(w) && ActivateReplacements(w, i).1.Some?
    ensures Starts(w, ActivateReplacements(w, i).0, ActivateReplacements(w, i).1.value)
    decreases |w.order| - i
  {
    var w1 := ActivateReplacement(w, w.order[i]).0;
    if ActivateReplacement(w, w.order[i]).1.Some? {
      ReplacementStarts(w, w.order[i]);
    } else {
      InvActivateReplacement(w, w.order[i]);
      ReplacementsStart(w1, i + 1);
      NoReplacement(w, w.order[i], ActivateReplacements(w1, i + 1).1.value.taskId);
    }
  }

  lemma ActionStarts(w: World)
    requires Inv(w) && Select(w).1.Some?
    ensures Starts(w, Select(w).0, Select(w).1.value)
  {
    if ActivateReplacements(w, 0).1.Some? {
      ReplacementsStart(w, 0);
    } else {
      InvReplacements(w, 0);
      var w1 := ActivateReplacements(w, 0).0;
      StartPendingIs(w1, 0);
      StillReplacements(w, 0);
      PendingBefore(w, w1, Select(w).1.value.taskId);
    }
  }

  lemma PendingBefore(w: World, v: World, id: Id)
    requires Onward(w, v) && id in v.tasks && v.tasks[id].state.Pending?
    ensures id in w.tasks && w.tasks[id].state.Pending?
  {
    assert Evolves(w.tasks[id], v.tasks[id]);
  }

  /** The number of actions selection hands out in a run. */
  function Actions(w: World, events: seq<Event>): nat
    decreases |events|
  {
    if events == [] then 0
    else
      var front := events[..|events| - 1];
      Actions(w, front)
        + if events[|events| - 1].EvSelect? && Select(Run(w, front)).1.Some? then 1 else 0
  }

  lemma {:induction false} ActionsAreWork(w: World, events: seq<Event>)
    requires Inv(w)
    ensures Actions(w, events) + Total(WorkLeft(Run(w, events))) <= Total(WorkLeft(w))
    decreases |events|
  {
    if events != [] {
      var front := events[..|events| - 1];
      ActionsAreWork(w, front);
      RunKeepsInv(w, front);
      StepWork(Run(w, front), events[|events| - 1]);
    }
  }

  lemma {:induction false} TotalAtMostTwo(m: map<Id, nat>)
    requires forall k | k in m :: m[k] <= 2
    ensures Total(m) <= 2 * |m|
    decreases |m|
  {
    if m != map[] {
      var k :| k in m;
      TotalRemove(m, k);
      RemoveSize(m, k);
      TotalAtMostTwo(m - {k});
    }
  }

  /** Bounded work: over any run at all, selection starts at most two attempts per
      segment. */
  lemma AtMostTwoActionsPerSegment(w: World, events: seq<Event>)
    requires Inv(w)
    ensures Actions(w, events) <= 2 * |w.tasks|
  {
    ActionsAreWork(w, events);
    TotalAtMostTwo(WorkLeft(w));
    assert WorkLeft(w).Keys == w.tasks.Keys;
    assert |WorkLeft(w).Keys| == |w.tasks.Keys|;
  }

  /** Event `i` handed out action `a`. */
  predicate HandedOut(w: World, events: seq<Event>, i: nat, a: Action) {
    i < |events| && events[i] == EvSelect && Select(Before(w, events, i)).1 == Some(a)
  }

  lemma StartRanks(w: World, w': World, a: Action)
    requires Inv(w) && Inv(w') && Starts(w, w', a)
    ensures Rank(w.tasks[a.taskId]) == (if a.attemptId == 1 then 5 else 3)
    ensures Rank(w'.tasks[a.taskId]) == (if a.attemptId == 1 then 4 else 2)
  {
    assert Phase(w'.tasks[a.taskId]);
  }

  lemma HandedOutStarts(w: World, events: seq<Event>, i: nat, a: Action)
    requires Inv(w) && HandedOut(w, events, i, a)
    ensures a.taskId in w.tasks
    ensures a.taskId in Before(w, events, i).tasks && a.taskId in Before(w, events, i + 1).tasks
    ensures Rank(Before(w, events, i).tasks[a.taskId]) == (if a.attemptId == 1 then 5 else 3)
    ensures Rank(Before(w, events, i + 1).tasks[a.taskId]) == (if a.attemptId == 1 then 4 else 2)
  {
    BeforeInv(w, events, i);
    BeforeInv(w, events, i + 1);
    BeforeNext(w, events, i);
    ActionStarts(Before(w, events, i));
    StartRanks(Before(w, events, i), Before(w, events, i + 1), a);
    BetweenOnward(w, events, 0, i);
    assert events[..0] == [];
  }

  /** Each attempt of each segment is started at most once in any run. */
  lemma EachAttemptStartsOnce(w: World, events: seq<Event>, i: nat, j: nat, a: Action, b: Action)
    requires Inv(w) && a.taskId == b.taskId && a.attemptId == b.attemptId
    requires HandedOut(w, events, i, a) && HandedOut(w, events, j, b)
    ensures i == j && a == b
  {
    HandedOutStarts(w, events, i, a);
    HandedOutStarts(w, events, j, b);
    if i < j {
      RungsBetween(w, events, i + 1, j, a.taskId);
    } else if j < i {
      RungsBetween(w, events, j + 1, i, a.taskId);
    }
  }
}
