/** The segment scheduler as an object over a shared pool. Every method takes the
    world the object stands for to the world the protocol model says, and keeps
    the joint invariant; what runs guarantee is proved about that model. */
module SegmentScheduler {
  import opened Foundations
  import opened FailoverModel
  import opened FailoverInvariant
  import opened FailoverSafety
  import opened FailoverSelection
  import opened SpeedTracker
  import opened AccountPool

  /** Every account a segment refers to is one the pool lists. */
  predicate Refers(t: Task, accounts: set<AccountId>) {
    && (t.account.Some? ==> t.account.value in accounts)
    && (t.reserved.Some? ==> t.reserved.value in accounts)
    && (t.owned.Some? ==> t.owned.value.accountId in accounts)
  }

  ghost predicate Placed(tasks: map<Id, Task>, order: seq<Id>, accounts: set<AccountId>) {
    && (forall id | id in tasks :: Refers(tasks[id], accounts))
    && (forall i | 0 <= i < |order| :: order[i] in tasks)
  }

  ghost function StoppedWorld(w: World, id: Id, state: SegState, error: Option<string>): World
    requires id in w.tasks
  {
    var t := w.tasks[id];
    var p := if t.reserved.Some? then Unreserve(w.pool, w.tracker, w.clock, t.reserved.value, id) else w.pool;
    SetTask(w, id, Stopped(t, state, error)).(pool := p)
  }

  lemma TerminalVia(w: World, id: Id, state: SegState, error: Option<string>)
    requires id in w.tasks && !IsTerminal(w.tasks[id].state)
    ensures Terminal(w, id, state, error) == MaybeCloseOwned(StoppedWorld(w, id, state, error), id)
  {
  }

  lemma TerminalKeepsFailure(w: World, id: Id, error: Option<string>, failure: Option<string>)
    requires id in w.tasks
    ensures Terminal(w.(failure := failure), id, Failed, error) == Terminal(w, id, Failed, error).(failure := failure)
  {
  }

  lemma FinishedVia(w: World, a: Action, outcome: Option<string>)
    requires a.taskId in w.tasks
    ensures var q := AttemptQuiesced(w, ActionLease(a));
      ExecutorFinished(w, a, outcome) ==
        match outcome
        case Some(e) => FailFrom(Terminal(q.(failure := outcome), a.taskId, Failed, outcome), 0, e)
        case None =>
          if q.tasks[a.taskId].state.Active? && q.tasks[a.taskId].attemptId == a.attemptId
          then Terminal(q.(failure := Some(NO_OUTCOME)), a.taskId, Failed, Some(NO_OUTCOME))
          else q
  {
    var q := AttemptQuiesced(w, ActionLease(a));
    TerminalKeepsFailure(q, a.taskId, outcome, outcome);
    TerminalKeepsFailure(q, a.taskId, Some(NO_OUTCOME), Some(NO_OUTCOME));
  }

  function NewTasks(ds: seq<Descriptor>, n: nat): map<Id, Task>
    requires n <= |ds|
  {
    map id | 0 <= id < n :: NewTask(ds[id])
  }

  lemma OrderForNext(ds: seq<Descriptor>, n: nat)
    requires n < |ds|
    ensures SortedIds(OrderFor(ds, n), ds, n)
    ensures OrderFor(ds, n + 1) == InsertByIndex(OrderFor(ds, n), ds, n)
  {
  }

  lemma FreshPlaced(ds: seq<Descriptor>, accounts: set<AccountId>)
    ensures Placed(NewTasks(ds, |ds|), OrderFor(ds, |ds|), accounts)
  {
    assert SortedIds(OrderFor(ds, |ds|), ds, |ds|);
  }

  class SegmentScheduler {
    const pool: TelegramAccountPool
    var tasks: map<Id, Task>
    /** Task ids by segment index. */
    var order: seq<Id>
    var claimed: set<(Id, nat)>
    var sequence: nat
    var failure: Option<string>
    var physical: nat
    var abandoned: nat
    var migrations: nat

    /** The world this scheduler and its pool stand for, at a given instant. */
    ghost function View(now: int): World
      reads this, pool, pool.activity, pool.activity.tracker
    {
      World(now, pool.View(), pool.activity.tracker.history, order, tasks, claimed, sequence, failure,
            physical, abandoned, migrations)
    }

    ghost predicate Valid(now: int)
      reads this, pool, pool.activity, pool.activity.tracker
    {
      pool.Valid(now) && Placed(tasks, order, pool.runtimes.Keys)
    }

    constructor (pool: TelegramAccountPool, ds: seq<Descriptor>, now: int)
      requires pool.Valid(now)
      ensures Valid(now) && this.pool == pool
      ensures View(now) == Fresh(pool.View(), pool.activity.tracker.history, now, ds)
    {
      this.pool := pool;
      tasks := map[];
      order := [];
      claimed, sequence, failure, physical, abandoned, migrations := {}, 0, None, 0, 0, 0;
      new;
      tasks, order := RegisterAll(ds);
      FreshPlaced(ds, pool.runtimes.Keys);
    }

    /** `register_segment` for each descriptor. */
    static method RegisterAll(ds: seq<Descriptor>) returns (tasks: map<Id, Task>, order: seq<Id>)
      ensures tasks == NewTasks(ds, |ds|) && order == OrderFor(ds, |ds|)
    {
      tasks, order := map[], [];
      for k := 0 to |ds|
        invariant tasks == NewTasks(ds, k) && order == OrderFor(ds, k)
      {
        hide InsertByIndex, OrderFor;
        OrderForNext(ds, k);
        tasks := tasks[k := NewTask(ds[k])];
        order := InsertByIndex(order, ds, k);
      }
    }

    // ------------------------------------------------------------- small steps

    method CloseOwned(id: Id, now: int)
      requires Valid(now) && id in tasks && tasks[id].owned.Some?
      modifies this`tasks, pool`runtimes, pool.activity, pool.activity.tracker`effective, pool.activity.tracker`clock
      ensures Valid(now) && View(now) == FailoverModel.CloseOwned(old(View(now)), id)
    {
      var owned := tasks[id].owned.value;
      tasks := tasks[id := tasks[id].(owned := None)];
      pool.ReleaseUpload(owned.accountId, id, now);
    }

    /** Closing may also be due while another change to the same task is pending,
        so this step asks for the links only. */
    method MaybeClose(id: Id, attempt: nat, now: int) returns (closed: bool)
      requires Valid(now) && id in tasks
      modifies this`tasks, pool`runtimes, pool.activity, pool.activity.tracker`effective, pool.activity.tracker`clock
      ensures Valid(now) && View(now) == FailoverModel.MaybeClose(old(View(now)), id, attempt)
      ensures closed <==> ShouldClose(old(tasks)[id], attempt)
    {
      var t := tasks[id];
      closed := false;
      if t.owned.None? || t.owned.value.attemptId != attempt { return; }
      if InFlight(t, attempt) != {} { return; }
      if attempt in t.quiescent {
        closed := t.state.Migrating? || IsTerminal(t.state) || t.draining == Some(attempt);
      }
      if closed {
        tasks := tasks[id := t.(owned := None)];
        pool.ReleaseUpload(t.owned.value.accountId, id, now);
      }
    }

    /** The part of stopping a segment that comes before its lease is looked at. */
    method Stop(id: Id, state: SegState, error: Option<string>, now: int)
      requires Valid(now) && id in tasks
      modifies this`tasks, pool.activity, pool.activity.tracker`effective, pool.activity.tracker`clock
      ensures Valid(now) && View(now) == StoppedWorld(old(View(now)), id, state, error)
    {
      var t := tasks[id];
      if t.reserved.Some? { pool.ReleaseReservation(t.reserved.value, id, now); }
      tasks := tasks[id := Stopped(t, state, error)];
    }

    method Terminal(id: Id, state: SegState, error: Option<string>, now: int) returns (changed: bool)
      requires Valid(now) && id in tasks
      modifies this`tasks, pool`runtimes, pool.activity, pool.activity.tracker`effective, pool.activity.tracker`clock
      ensures Valid(now) && View(now) == FailoverModel.Terminal(old(View(now)), id, state, error)
      ensures changed <==> !IsTerminal(old(tasks)[id].state)
    {
      var t := tasks[id];
      if IsTerminal(t.state) { return false; }
      TerminalVia(View(now), id, state, error);
      Stop(id, state, error, now);
      if t.owned.Some? { var _ := MaybeClose(id, t.owned.value.attemptId, now); }
      return true;
    }

    method Install(id: Id, account: AccountId, attempt: nat, now: int)
      requires Valid(now) && id in tasks && account in pool.runtimes
      modifies this`tasks, this`claimed
      ensures Valid(now) && View(now) == FailoverModel.Install(old(View(now)), id, account, attempt)
    {
      tasks := tasks[id := Installed(tasks[id], now, account, attempt)];
      claimed := claimed + {(id, attempt)};
    }

    /** `activate`: one pending segment on one exact account. */
    method Activate(id: Id, account: AccountId, now: int) returns (r: Option<Lease>)
      requires Valid(now)
      modifies this`tasks, this`claimed, pool`runtimes, pool.activity, pool.activity.tracker`effective,
        pool.activity.tracker`clock
      ensures Valid(now) && View(now) == ActivateExact(old(View(now)), id, account)
      ensures r.Some? <==> (id in old(tasks) && old(tasks)[id].state.Pending?
                            && CanAcquire(old(pool.View()), Resolve(old(pool.View()), account), id))
      ensures r.Some? ==> r == Some(Lease(id, 1, Resolve(old(pool.View()), account)))
    {
      if id !in tasks || !tasks[id].state.Pending? { return None; }
      var a := pool.AcquireExactUploadLease(account, id, now);
      if a.None? { return None; }
      Install(id, a.value, 1, now);
      return Some(Lease(id, 1, a.value));
    }

    // ------------------------------------------------------- lease-bound operations

    predicate IsCurrent(l: Lease, allowed: set<SegState>)
      reads this
    {
      && l.taskId in tasks
      && !IsTerminal(tasks[l.taskId].state)
      && tasks[l.taskId].attemptId == l.attemptId
      && tasks[l.taskId].account == Some(l.accountId)
      && tasks[l.taskId].state in allowed
    }

    method BeginRequest(l: Lease, part: nat, now: int) returns (r: Option<Token>)
      requires Valid(now)
      modifies this`tasks, this`sequence, pool.activity, pool.activity.tracker`effective, pool.activity.tracker`clock
      ensures Valid(now) && View(now) == FailoverModel.BeginRequest(old(View(now)), l, part)
      ensures r == if ValidCurrent(old(View(now)), l, {Active}) then Some(NextToken(old(View(now)), l, part)) else None
    {
      if !IsCurrent(l, {Active}) { return None; }
      var t := tasks[l.taskId];
      sequence := sequence + 1;
      var token := Token(l.taskId, l.attemptId, l.accountId, part, sequence);
      tasks := tasks[l.taskId := t.(inFlight := t.inFlight[l.attemptId := InFlight(t, l.attemptId) + {token}])];
      var _ := pool.activity.RequestStarted(token, now);
      return Some(token);
    }

    method RequestSettled(token: Token, now: int)
      requires Valid(now)
      modifies this`tasks, pool`runtimes, pool.activity, pool.activity.tracker`effective, pool.activity.tracker`clock
      ensures Valid(now) && View(now) == FailoverModel.RequestSettled(old(View(now)), token)
    {
      if token.accountId !in pool.activity.accounts { return; }
      ghost var before := View(now);
      if token.taskId in tasks {
        var t := tasks[token.taskId];
        if token in InFlight(t, token.attemptId) {
          var left := InFlight(t, token.attemptId) - {token};
          tasks := tasks[token.taskId := t.(inFlight := t.inFlight[token.attemptId := left])];
        } else {
          assert tasks == tasks[token.taskId := t];
        }
      }
      var _ := pool.activity.RequestSettled(token, now);
      if token.taskId in tasks { var _ := MaybeClose(token.taskId, token.attemptId, now); }
    }

    method PhysicalSuccess(token: Token, bytes: nat, now: int) returns (changed: bool)
      requires Valid(now)
      modifies this`physical, pool.activity.tracker`physicalTokens, pool.activity.tracker`history
      ensures Valid(now) && View(now) == FailoverModel.PhysicalSuccess(old(View(now)), token, bytes)
      ensures changed <==> token !in old(View(now)).tracker.recorded
    {
      changed := pool.activity.tracker.RecordPhysical(token, bytes);
      if changed { physical := physical + bytes; }
    }

    method PartSucceeded(l: Lease, part: nat, bytes: nat, now: int) returns (ok: bool)
      requires Valid(now)
      modifies this`tasks, pool.activity.tracker
      ensures Valid(now) && View(now) == FailoverModel.PartSucceeded(old(View(now)), l, part, bytes)
      ensures ok <==> ValidCurrent(old(View(now)), l, {Active}) && part !in old(tasks)[l.taskId].parts
    {
      if !IsCurrent(l, {Active}) || part in tasks[l.taskId].parts { return false; }
      var t := tasks[l.taskId];
      tasks := tasks[l.taskId := t.(parts := t.parts + {part}, logical := Min(t.size, t.logical + bytes))];
      var _ := pool.activity.tracker.RecordEffective(l, part, bytes, now);
      return true;
    }

    method NotifyPremiumFlood(l: Lease, now: int) returns (ok: bool)
      requires Valid(now)
      modifies this`tasks
      ensures Valid(now) && View(now) == PremiumFlood(old(View(now)), l)
      ensures ok <==> ValidCurrent(old(View(now)), l, {Active})
    {
      if !IsCurrent(l, {Active}) { return false; }
      tasks := tasks[l.taskId := tasks[l.taskId].(floodAt := Some(now))];
      return true;
    }

    method CloseActiveUploadLease(l: Lease, now: int) returns (ok: bool)
      requires Valid(now)
      modifies this`tasks, pool`runtimes, pool.activity, pool.activity.tracker`effective, pool.activity.tracker`clock
      ensures Valid(now) && View(now) == FailoverModel.CloseActiveUploadLease(old(View(now)), l)
      ensures ok <==> l.taskId in old(tasks) && old(tasks)[l.taskId].owned == Some(Owned(l.accountId, l.attemptId))
    {
      if l.taskId !in tasks { return false; }
      var owned := tasks[l.taskId].owned;
      if owned.None? || owned.value.attemptId != l.attemptId { return false; }
      if owned.value.accountId != l.accountId { return false; }
      CloseOwned(l.taskId, now);
      return true;
    }

    method AttemptQuiesced(l: Lease, now: int) returns (changed: bool)
      requires Valid(now)
      modifies this`tasks, pool`runtimes, pool.activity, pool.activity.tracker`effective, pool.activity.tracker`clock
      ensures Valid(now) && View(now) == FailoverModel.AttemptQuiesced(old(View(now)), l)
      ensures changed <==>
        (l.taskId in old(tasks) &&
         (var t := old(tasks)[l.taskId];
          l.attemptId !in t.quiescent || ShouldClose(t.(quiescent := t.quiescent + {l.attemptId}), l.attemptId)))
    {
      if l.taskId !in tasks { return false; }
      var t := tasks[l.taskId];
      var before := l.attemptId in t.quiescent;
      var t1 := t.(quiescent := t.quiescent + {l.attemptId});
      tasks := tasks[l.taskId := t1];
      var closed := MaybeClose(l.taskId, l.attemptId, now);
      return !before || closed;
    }

    method BytesPrepared(l: Lease, now: int) returns (ok: bool)
      requires Valid(now)
      modifies this`tasks, pool`runtimes, pool.activity, pool.activity.tracker`effective, pool.activity.tracker`clock
      ensures Valid(now) && View(now) == FailoverModel.BytesPrepared(old(View(now)), l)
      ensures ok <==> BytesReady(old(View(now)), l)
    {
      if !IsCurrent(l, {Active}) { return false; }
      var t := tasks[l.taskId];
      if t.logical < t.size { return false; }
      if InFlight(t, l.attemptId) != {} { return false; }
      if t.owned.None? || t.owned.value.attemptId != l.attemptId { return false; }
      CloseOwned(l.taskId, now);
      return true;
    }

    method GrantFinalize(l: Lease, now: int) returns (ok: bool)
      requires Valid(now)
      modifies this`tasks
      ensures Valid(now) && View(now) == FailoverModel.GrantFinalize(old(View(now)), l)
      ensures ok <==> ValidCurrent(old(View(now)), l, {Active})
    {
      if !IsCurrent(l, {Active}) { return false; }
      tasks := tasks[l.taskId := tasks[l.taskId].(state := Finalizing)];
      return true;
    }

    method FailAttempt(l: Lease, error: string, now: int) returns (ok: bool)
      requires Valid(now)
      modifies this`tasks, pool`runtimes, pool.activity, pool.activity.tracker`effective, pool.activity.tracker`clock
      ensures Valid(now) && View(now) == FailoverModel.FailAttempt(old(View(now)), l, error)
      ensures ok <==> ValidCurrent(old(View(now)), l, {Active, Finalizing})
    {
      if !IsCurrent(l, {Active, Finalizing}) { return false; }
      ok := Terminal(l.taskId, Failed, Some(error), now);
    }

    method CompleteAttempt(l: Lease, result: UploadedPart, now: int) returns (ok: bool)
      requires Valid(now)
      modifies this`tasks, pool`runtimes, pool.activity, pool.activity.tracker`effective, pool.activity.tracker`clock
      ensures Valid(now) && View(now) == FailoverModel.CompleteAttempt(old(View(now)), l, result)
      ensures ok <==> ValidCurrent(old(View(now)), l, {Finalizing})
    {
      if !IsCurrent(l, {Finalizing}) { return false; }
      var t1 := tasks[l.taskId].(result := Some(result));
      tasks := tasks[l.taskId := t1];
      ok := Terminal(l.taskId, Completed, None, now);
    }

    // --------------------------------------------------------------- migration

    method Score(target: AccountId, id: Id, now: int) returns (r: Option<Score>)
      requires Valid(now)
      modifies pool.activity.tracker`attemptEffective, pool.activity.tracker`clock
      ensures Valid(now) && View(now) == old(View(now))
      ensures r == ScoreOf(View(now), target, id)
    {
      if id !in tasks { return None; }
      var t := tasks[id];
      if !Candidate(t, now) || t.account.None? || target in t.tried { return None; }
      if target !in pool.runtimes || !Eligible(pool.runtimes[target]) { return None; }
      var v := pool.activity.Snapshot(target, now);
      if v.None? || !ViewIdle(v.value) || v.value.snapshot.None? { return None; }
      var bytes, speed := pool.activity.tracker.LiveSpeed(Lease(id, t.attemptId, t.account.value), now);
      if bytes == 0 { return Some(Infinite); }
      assert bytes == AttemptBytes(View(now).tracker.samples, Lease(id, t.attemptId, t.account.value), now);
      return Some(Finite(Ratio(v.value.snapshot.value.bytesPerSecond, speed, t)));
    }

    method CommitMigration(target: AccountId, id: Id, now: int) returns (ok: bool)
      requires Valid(now)
      modifies this, pool.activity, pool.activity.tracker`effective, pool.activity.tracker`attemptEffective,
        pool.activity.tracker`clock
      ensures Valid(now) && View(now) == FailoverModel.CommitMigration(old(View(now)), target, id)
      ensures ok <==> Migratable(old(View(now)), target, id)
    {
      var score := Score(target, id, now);
      if score.None? || !Above(score.value, SCORE_THRESHOLD) { return false; }
      ok := pool.TryReserveIdle(target, id, now);
      if !ok { return false; }
      var t := tasks[id];
      tasks := tasks[id := Migrated(t, target)];
      migrations := migrations + 1;
      abandoned := abandoned + t.logical;
    }

    // --------------------------------------------------------------- selection

    method ActivateReplacement(id: Id, now: int) returns (r: Option<Action>)
      requires Valid(now) && id in tasks
      modifies this`tasks, this`claimed, pool`runtimes, pool.activity, pool.activity.tracker`effective,
        pool.activity.tracker`clock
      ensures Valid(now)
      ensures (View(now), r) == FailoverModel.ActivateReplacement(old(View(now)), id)
    {
      var t := tasks[id];
      if !ReplacementReady(t) { return None; }
      var _ := MaybeClose(id, t.draining.value, now);
      r := UseReservation(id, now);
    }

    method UseReservation(id: Id, now: int) returns (r: Option<Action>)
      requires Valid(now) && id in tasks
      modifies this`tasks, this`claimed, pool`runtimes, pool.activity, pool.activity.tracker`effective,
        pool.activity.tracker`clock
      ensures Valid(now)
      ensures (View(now), r) == FailoverModel.UseReservation(old(View(now)), id)
    {
      var t := tasks[id];
      if t.owned.Some? || t.reserved.None? { return None; }
      var target := t.reserved.value;
      var ok := pool.ActivateReservation(target, id, now);
      if !ok {
        pool.ReleaseReservation(target, id, now);
        tasks := tasks[id := t.(reserved := None)];
        var _ := Terminal(id, Failed, Some(REFUSED), now);
        return None;
      }
      tasks := tasks[id := t.(reserved := None, draining := None)];
      Install(id, target, t.attemptId, now);
      return Some(Action(id, target, t.attemptId, true));
    }

    method FindBest(now: int) returns (best: Option<Pick>)
      requires Valid(now)
      modifies pool.activity.tracker`attemptEffective, pool.activity.tracker`clock
      ensures Valid(now) && View(now) == old(View(now))
      ensures best == Best(View(now), 0, None)
    {
      ghost var w := View(now);
      best := None;
      var j := 0;
      while j < |pool.ring|
        invariant 0 <= j <= |pool.ring| && Valid(now) && View(now) == w
        invariant Best(w, 0, None) == Best(w, j, best)
      {
        var a := pool.ring[j];
        ghost var start := best;
        var i := 0;
        while i < |order|
          invariant 0 <= i <= |order| && Valid(now) && View(now) == w
          invariant BestForAccount(w, a, 0, start) == BestForAccount(w, a, i, best)
        {
          var score := Score(a, order[i], now);
          if score.Some? && Above(score.value, SCORE_THRESHOLD) {
            best := Better(best, Pick(score.value, tasks[order[i]].index, a, order[i]));
          }
          i := i + 1;
        }
        j := j + 1;
      }
    }

    method SelectNextAction(now: int) returns (r: Option<Action>)
      requires Valid(now)
      modifies this, pool, pool.activity, pool.activity.tracker
      ensures Valid(now)
      ensures (View(now), r) == Select(old(View(now)))
    {
      if failure.Some? { return None; }
      r := FinishMigrations(now);
      if r.Some? { return; }
      var best := FindBest(now);
      match best {
        case Some(b) =>
          var _ := CommitMigration(b.account, b.id, now);
          return None;
        case None =>
          r := StartPending(now);
      }
    }

    method FinishMigrations(now: int) returns (r: Option<Action>)
      requires Valid(now)
      modifies this`tasks, this`claimed, pool`runtimes, pool.activity, pool.activity.tracker`effective,
        pool.activity.tracker`clock
      ensures Valid(now)
      ensures (View(now), r) == ActivateReplacements(old(View(now)), 0)
    {
      ghost var before := View(now);
      var i := 0;
      while i < |order|
        invariant 0 <= i <= |order| && Valid(now)
        invariant ActivateReplacements(before, 0) == ActivateReplacements(View(now), i)
      {
        r := ActivateReplacement(order[i], now);
        if r.Some? { return; }
        i := i + 1;
      }
      r := None;
    }

    method StartPending(now: int) returns (r: Option<Action>)
      requires Valid(now)
      modifies this`tasks, this`claimed, pool, pool.activity, pool.activity.tracker`effective,
        pool.activity.tracker`clock
      ensures Valid(now)
      ensures (View(now), r) == FailoverModel.StartPending(old(View(now)), 0)
    {
      ghost var before := View(now);
      var i := 0;
      while i < |order|
        invariant 0 <= i <= |order| && Valid(now) && View(now) == before
        invariant FailoverModel.StartPending(before, 0) == FailoverModel.StartPending(before, i)
      {
        var id := order[i];
        if tasks[id].state.Pending? {
          var a := pool.AcquireUploadLease(id, now);
          if a.Some? {
            Install(id, a.value, 1, now);
            return Some(Action(id, a.value, 1, false));
          }
        }
        i := i + 1;
      }
      r := None;
    }

    // -------------------------------------------------------------- executors

    method FailAll(error: string, now: int)
      requires Valid(now)
      modifies this`tasks, pool`runtimes, pool.activity, pool.activity.tracker`effective, pool.activity.tracker`clock
      ensures Valid(now) && View(now) == FailFrom(old(View(now)), 0, error)
    {
      ghost var before := View(now);
      var i := 0;
      while i < |order|
        invariant 0 <= i <= |order| && Valid(now)
        invariant FailFrom(before, 0, error) == FailFrom(View(now), i, error)
      {
        var _ := Terminal(order[i], Failed, Some(error), now);
        i := i + 1;
      }
    }

    method ExecutorFinished(a: Action, outcome: Option<string>, now: int)
      requires Valid(now)
      modifies this`tasks, this`failure, pool`runtimes, pool.activity, pool.activity.tracker`effective,
        pool.activity.tracker`clock
      ensures Valid(now) && View(now) == FailoverModel.ExecutorFinished(old(View(now)), a, outcome)
    {
      if a.taskId !in tasks { return; }
      FinishedVia(View(now), a, outcome);
      var _ := AttemptQuiesced(ActionLease(a), now);
      match outcome {
        case Some(e) => FailEverything(a.taskId, e, now);
        case None =>
          if tasks[a.taskId].state.Active? && tasks[a.taskId].attemptId == a.attemptId {
            failure := Some(NO_OUTCOME);
            var _ := Terminal(a.taskId, Failed, Some(NO_OUTCOME), now);
          }
      }
    }

    method FailEverything(id: Id, error: string, now: int)
      requires Valid(now) && id in tasks
      modifies this`tasks, this`failure, pool`runtimes, pool.activity, pool.activity.tracker`effective,
        pool.activity.tracker`clock
      ensures Valid(now)
      ensures View(now) ==
        FailFrom(FailoverModel.Terminal(old(View(now)).(failure := Some(error)), id, Failed, Some(error)), 0, error)
    {
      failure := Some(error);
      var _ := Terminal(id, Failed, Some(error), now);
      FailAll(error, now);
    }

    method SubmissionFailed(a: Action, error: string, now: int)
      requires Valid(now)
      modifies this`tasks, pool`runtimes, pool.activity, pool.activity.tracker`effective, pool.activity.tracker`clock
      ensures Valid(now) && View(now) == FailoverModel.SubmissionFailed(old(View(now)), a, error)
    {
      if a.taskId !in tasks || tasks[a.taskId].attemptId != a.attemptId { return; }
      var _ := Terminal(a.taskId, Failed, Some(error), now);
      var _ := AttemptQuiesced(ActionLease(a), now);
    }

    method NextDeadline(now: int) returns (r: Option<int>)
      requires Valid(now)
      ensures r == FailoverSelection.NextDeadline(View(now))
    {
      ghost var w := View(now);
      r := None;
      var i := 0;
      while i < |order|
        invariant 0 <= i <= |order|
        invariant OverTasks(w, 0, None) == OverTasks(w, i, r)
      {
        r := TaskDeadlines(tasks[order[i]], now, r);
        i := i + 1;
      }
      var j := 0;
      while j < |pool.ring|
        invariant 0 <= j <= |pool.ring|
        invariant OverAccounts(w, 0, OverTasks(w, 0, None)) == OverAccounts(w, j, r)
      {
        var a := pool.ring[j];
        if Eligible(pool.runtimes[a]) {
          var v := pool.activity.Snapshot(a, now);
          if v.value.snapshot.Some? && v.value.snapshot.value.expiresAt > now {
            r := Later(r, v.value.snapshot.value.expiresAt);
          }
        }
        j := j + 1;
      }
    }
  }
}
