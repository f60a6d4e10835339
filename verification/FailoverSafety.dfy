/** The joint invariant holds in every world any run can reach. */
module FailoverSafety {
  import opened Foundations
  import opened FailoverModel
  import opened FailoverInvariant
  import opened FailoverPreserved

  lemma InvTracker(w: World, tracker: Tracker, physical: nat)
    requires Inv(w)
    ensures Inv(w.(tracker := tracker, physical := physical))
  {
  }

  lemma InvFailure(w: World, failure: Option<string>)
    requires Inv(w)
    ensures Inv(w.(failure := failure))
  {
  }

  function Credited(t: Task, part: nat, bytes: nat): Task {
    t.(parts := t.parts + {part}, logical := Min(t.size, t.logical + bytes))
  }

  lemma PartIs(w: World, l: Lease, part: nat, bytes: nat)
    requires ValidCurrent(w, l, {Active}) && part !in w.tasks[l.taskId].parts
    ensures PartSucceeded(w, l, part, bytes)
      == SetTask(w.(tracker := RecordEffective(w.tracker, l, part, bytes, w.clock), physical := w.physical),
                 l.taskId, Credited(w.tasks[l.taskId], part, bytes))
  {
  }

  lemma InvPart(w: World, l: Lease, part: nat, bytes: nat)
    requires Inv(w)
    ensures Inv(PartSucceeded(w, l, part, bytes))
  {
    if ValidCurrent(w, l, {Active}) && part !in w.tasks[l.taskId].parts {
      PartIs(w, l, part, bytes);
      assert Phase(w.tasks[l.taskId]);
      InvCredited(w, l.taskId, RecordEffective(w.tracker, l, part, bytes, w.clock), part, bytes);
    }
  }

  lemma InvCredited(w: World, id: Id, tracker: Tracker, part: nat, bytes: nat)
    requires Inv(w) && id in w.tasks && w.tasks[id].state.Active?
    ensures Inv(SetTask(w.(tracker := tracker, physical := w.physical), id, Credited(w.tasks[id], part, bytes)))
  {
    InvTracker(w, tracker, w.physical);
    assert Phase(Credited(w.tasks[id], part, bytes)) by { assert Phase(w.tasks[id]); }
    InvQuiet(w.(tracker := tracker, physical := w.physical), id, Credited(w.tasks[id], part, bytes));
  }

  lemma InvFlood(w: World, l: Lease)
    requires Inv(w)
    ensures Inv(PremiumFlood(w, l))
  {
    if ValidCurrent(w, l, {Active}) {
      assert Phase(w.tasks[l.taskId]);
      InvQuiet(w, l.taskId, w.tasks[l.taskId].(floodAt := Some(w.clock)));
    }
  }

  lemma InvGrant(w: World, l: Lease)
    requires Inv(w)
    ensures Inv(GrantFinalize(w, l))
  {
    if ValidCurrent(w, l, {Active}) {
      assert Phase(w.tasks[l.taskId]);
      InvQuiet(w, l.taskId, w.tasks[l.taskId].(state := Finalizing));
    }
  }

  lemma InvLeaseGivenBack(w: World, l: Lease)
    requires Inv(w)
    ensures Inv(BytesPrepared(w, l))
    ensures Inv(CloseActiveUploadLease(w, l))
  {
    if l.taskId in w.tasks { InvClose(w, l.taskId); }
  }

  // ------------------------------------------------------------------- selection

  lemma {:induction false} InvReplacements(w: World, i: nat)
    requires Inv(w)
    ensures Inv(ActivateReplacements(w, i).0)
    decreases |w.order| - i
  {
    if i < |w.order| {
      InvActivateReplacement(w, w.order[i]);
      var (w1, a) := ActivateReplacement(w, w.order[i]);
      if a.None? { InvReplacements(w1, i + 1); }
    }
  }

  lemma {:induction false} InvStartPending(w: World, i: nat)
    requires Inv(w)
    ensures Inv(StartPending(w, i).0)
    decreases |w.order| - i
  {
    if i < |w.order| {
      var id := w.order[i];
      if w.tasks[id].state.Pending? {
        AcquireFromIs(w.pool, id, 0);
        match AcquireFrom(w.pool, id, 0) {
          case Some((q, a)) => InvStart(w, id, a, q.cursor);
          case None => InvStartPending(w, i + 1);
        }
      } else {
        InvStartPending(w, i + 1);
      }
    }
  }

  lemma InvSelect(w: World)
    requires Inv(w)
    ensures Inv(Select(w).0)
  {
    hide Links, Phase, Best, CommitMigration, StartPending, ActivateReplacements;
    InvReplacements(w, 0);
    var w1 := ActivateReplacements(w, 0).0;
    InvStartPending(w1, 0);
    match Best(w1, 0, None) {
      case Some(b) => InvCommit(w1, b.account, b.id);
      case None =>
    }
  }

  // ------------------------------------------------------------------- executors

  lemma {:induction false} InvFailFrom(w: World, i: nat, error: string)
    requires Inv(w)
    ensures Inv(FailFrom(w, i, error))
    decreases |w.order| - i
  {
    if i < |w.order| {
      InvFail(w, w.order[i], Some(error));
      InvFailFrom(Terminal(w, w.order[i], Failed, Some(error)), i + 1, error);
    }
  }

  lemma InvSubmission(w: World, a: Action, error: string)
    requires Inv(w)
    ensures Inv(SubmissionFailed(w, a, error))
  {
    if a.taskId in w.tasks {
      InvFail(w, a.taskId, Some(error));
      InvQuiesced(Terminal(w, a.taskId, Failed, Some(error)), ActionLease(a));
    }
  }

  lemma InvFailWith(w: World, id: Id, error: Option<string>)
    requires Inv(w) && id in w.tasks
    ensures Inv(Terminal(w, id, Failed, error).(failure := error))
  {
    InvFail(w, id, error);
    InvFailure(Terminal(w, id, Failed, error), error);
  }

  lemma InvExecutor(w: World, a: Action, outcome: Option<string>)
    requires Inv(w)
    ensures Inv(ExecutorFinished(w, a, outcome))
  {
    if a.taskId in w.tasks {
      var w1 := AttemptQuiesced(w, ActionLease(a));
      InvQuiesced(w, ActionLease(a));
      match outcome {
        case Some(e) =>
          InvFailWith(w1, a.taskId, outcome);
          InvFailFrom(Terminal(w1, a.taskId, Failed, outcome).(failure := outcome), 0, e);
        case None => InvFailWith(w1, a.taskId, Some(NO_OUTCOME));
      }
    }
  }

  // ----------------------------------------------------- everybody else's events

  lemma OtherTokens(w: World, q: Pool, a: AccountId)
    requires TokenLinks(w) && OnlyAccount(w.pool, q, a)
    requires forall tok: Token | tok.taskId in w.tasks ::
      tok in q.activity[a].requests <==> tok in w.pool.activity[a].requests
    ensures TokenLinks(w.(pool := q))
  {
    var w' := w.(pool := q);
    forall id, k, tok | id in w'.tasks && tok in InFlight(w'.tasks[id], k)
      ensures tok.taskId == id && tok.attemptId == k && tok.sequence <= w'.sequence
        && Known(q, tok.accountId) && tok in q.activity[tok.accountId].requests
    {
      assert tok in InFlight(w.tasks[id], k);
    }
  }

  lemma OtherLeases(w: World, q: Pool, a: AccountId)
    requires LeaseLinks(w) && OnlyAccount(w.pool, q, a)
    requires forall j | j in w.tasks :: j in q.activity[a].jobs <==> j in w.pool.activity[a].jobs
    ensures LeaseLinks(w.(pool := q))
  {
  }

  lemma OtherReservations(w: World, q: Pool, a: AccountId)
    requires ReserveLinks(w) && OnlyAccount(w.pool, q, a)
    requires forall j | j in w.tasks :: q.activity[a].reserved == Some(j) <==> w.pool.activity[a].reserved == Some(j)
    ensures ReserveLinks(w.(pool := q))
  {
  }

  /** Others change one account, and only entries that are not this scheduler's. */
  lemma InvPoolOnly(w: World, q: Pool, a: AccountId)
    requires Inv(w) && OnlyAccount(w.pool, q, a)
    requires forall j | j in w.tasks :: j in q.activity[a].jobs <==> j in w.pool.activity[a].jobs
    requires forall j | j in w.tasks :: q.activity[a].reserved == Some(j) <==> w.pool.activity[a].reserved == Some(j)
    requires forall tok: Token | tok.taskId in w.tasks ::
      tok in q.activity[a].requests <==> tok in w.pool.activity[a].requests
    ensures Inv(w.(pool := q))
  {
    PoolOnlyAccount(w.pool, q, a);
    OtherTokens(w, q, a);
    OtherLeases(w, q, a);
    OtherReservations(w, q, a);
    OtherTasks(w, q);
  }

  lemma OtherTasks(w: World, q: Pool)
    requires Inv(w) && Links(w.(pool := q))
    requires q.runtimes.Keys == w.pool.runtimes.Keys
    ensures Inv(w.(pool := q))
  {
  }

  lemma InvSettled(w: World, token: Token)
    requires Inv(w)
    ensures Inv(RequestSettled(w, token))
  {
    if Known(w.pool, token.accountId) {
      var a := token.accountId;
      var q := SetActivity(w.pool, a, SettleRequest(w.pool.activity[a], token, Freeze(w.tracker, w.clock, a)));
      if token.taskId in w.tasks {
        var id := token.taskId;
        LinksSettled(w, id, token);
        SettledInv(w, SetTask(w, id, Without(w.tasks[id], token)).(pool := q), id, token.attemptId);
      } else {
        InvForeignSettled(w, token);
      }
    }
  }

  lemma InvForeignSettled(w: World, token: Token)
    requires Inv(w) && Known(w.pool, token.accountId) && token.taskId !in w.tasks
    ensures Inv(RequestSettled(w, token))
  {
    hide OrderOk, LeaseLinks, ReserveLinks, TokenLinks, AccountsKnown, Phases;
    var a := token.accountId;
    var frozen := Freeze(w.tracker, w.clock, a);
    RequestEffect(w.pool, token, frozen);
    InvPoolOnly(w, SetActivity(w.pool, a, SettleRequest(w.pool.activity[a], token, frozen)), a);
  }

  lemma InvOtherJobs(w: World, a: AccountId, work: Id)
    requires Inv(w) && work !in w.tasks
    ensures Inv(StepOther(w, OtherAcquire(a, work)))
    ensures Inv(StepOther(w, OtherClose(a, work)))
  {
    hide OrderOk, LeaseLinks, ReserveLinks, TokenLinks, AccountsKnown, Phases, AccountOk;
    if CanAcquire(w.pool, a, work) {
      AcquireEffect(w.pool, a, work);
      InvPoolOnly(w, TryAcquire(w.pool, a, work).value, a);
    }
    if Known(w.pool, a) && work in w.pool.activity[a].jobs {
      CloseEffect(w.pool, w.tracker, w.clock, a, work);
      InvPoolOnly(w, CloseJob(w.pool, w.tracker, w.clock, a, work), a);
    }
  }

  lemma InvOtherReserve(w: World, a: AccountId, work: Id)
    requires Inv(w) && work !in w.tasks
    ensures Inv(StepOther(w, OtherReserve(a, work)))
  {
    if CanReserve(w.pool, a, w.clock) {
      ReserveEffect(w.pool, a, work, w.clock);
      InvPoolOnly(w, Reserve(w.pool, a, work), a);
    }
  }

  lemma InvOtherUnreserve(w: World, a: AccountId, work: Id)
    requires Inv(w) && work !in w.tasks
    ensures Inv(StepOther(w, OtherUnreserve(a, work)))
  {
    if Known(w.pool, a) {
      UnreserveEffect(w.pool, w.tracker, w.clock, a, work);
      InvPoolOnly(w, Unreserve(w.pool, w.tracker, w.clock, a, work), a);
    }
  }

  lemma InvOtherActivate(w: World, a: AccountId, work: Id)
    requires Inv(w) && work !in w.tasks
    ensures Inv(StepOther(w, OtherActivate(a, work)))
  {
    if CanActivate(w.pool, a, work) {
      ActivateEffect(w.pool, a, work);
      assert AccountOk(w.pool, a);
      InvPoolOnly(w, ActivateReservation(w.pool, a, work), a);
    }
  }

  lemma InvOtherRest(w: World, e: Event)
    requires Inv(w) && (e.OtherRequest? || e.OtherSettled? || e.OtherSample? || e.OtherStatus?)
    ensures Inv(StepOther(w, e))
  {
    hide OrderOk, LeaseLinks, ReserveLinks, TokenLinks, AccountsKnown, Phases;
    match e {
      case OtherRequest(token) =>
        if token.taskId !in w.tasks && Known(w.pool, token.accountId) {
          RequestEffect(w.pool, token, None);
          InvPoolOnly(w, SetActivity(w.pool, token.accountId, StartRequest(w.pool.activity[token.accountId], token)),
            token.accountId);
        }
      case OtherSettled(token) => InvSettled(w, token);
      case OtherSample(l, bytes) => InvTracker(w, StepOther(w, e).tracker, w.physical);
      case OtherStatus(a, online, linked) =>
        if Known(w.pool, a) {
          assert AccountOk(w.pool, a);
          InvPoolOnly(w, StepOther(w, e).pool, a);
        }
    }
  }

  lemma InvOther(w: World, e: Event)
    requires Inv(w)
    ensures Inv(StepOther(w, e))
  {
    match e {
      case OtherAcquire(a, work) => if work !in w.tasks { InvOtherJobs(w, a, work); }
      case OtherClose(a, work) => if work !in w.tasks { InvOtherJobs(w, a, work); }
      case OtherReserve(a, work) => if work !in w.tasks { InvOtherReserve(w, a, work); }
      case OtherUnreserve(a, work) => if work !in w.tasks { InvOtherUnreserve(w, a, work); }
      case OtherActivate(a, work) => if work !in w.tasks { InvOtherActivate(w, a, work); }
      case OtherRequest(_) => InvOtherRest(w, e);
      case OtherSettled(_) => InvOtherRest(w, e);
      case OtherSample(_, _) => InvOtherRest(w, e);
      case OtherStatus(_, _, _) => InvOtherRest(w, e);
      case _ =>
    }
  }

  // ------------------------------------------------------------------ the theorem

  lemma InvTick(w: World, n: nat)
    requires Inv(w)
    ensures Inv(w.(clock := w.clock + n))
  {
  }

  /** The calls an executing attempt makes with its lease or token. */
  predicate AttemptCall(e: Event) {
    e.EvBegin? || e.EvSettled? || e.EvPhysical? || e.EvPart? || e.EvFlood? || e.EvCloseLease? || e.EvQuiesced?
    || e.EvPrepared? || e.EvGrant?
  }

  lemma AttemptCallKeepsInv(w: World, e: Event)
    requires Inv(w) && AttemptCall(e)
    ensures Inv(Step(w, e))
  {
    hide OrderOk, Links, AccountsKnown, Phases, BeginRequest, AttemptQuiesced, RequestSettled;
    match e {
      case EvBegin(l, part) => InvBegin(w, l, part);
      case EvSettled(token) => InvSettled(w, token);
      case EvPhysical(token, bytes) => InvTracker(w, RecordPhysical(w.tracker, token, bytes), w.physical + bytes);
      case EvPart(l, part, bytes) => InvPart(w, l, part, bytes);
      case EvFlood(l) => InvFlood(w, l);
      case EvCloseLease(l) => InvLeaseGivenBack(w, l);
      case EvQuiesced(l) => InvQuiesced(w, l);
      case EvPrepared(l) => InvLeaseGivenBack(w, l);
      case EvGrant(l) => InvGrant(w, l);
    }
  }

  predicate DecisionCall(e: Event) {
    e.EvActivate? || e.EvCommit? || e.EvFailAttempt? || e.EvFailTask? || e.EvComplete? || e.EvSelect?
    || e.EvSubmissionFailed? || e.EvExecutorFinished?
  }

  lemma DecisionCallKeepsInv(w: World, e: Event)
    requires Inv(w) && DecisionCall(e)
    ensures Inv(Step(w, e))
  {
    hide OrderOk, Links, AccountsKnown, Phases, Terminal, Select, CommitMigration;
    match e {
      case EvActivate(id, a) => InvActivateExact(w, id, a);
      case EvCommit(a, id) => InvCommit(w, a, id);
      case EvFailAttempt(l, err) => if l.taskId in w.tasks { InvFail(w, l.taskId, Some(err)); }
      case EvFailTask(id, err) => if id in w.tasks { InvFail(w, id, Some(err)); }
      case EvComplete(l, r) => InvComplete(w, l, r);
      case EvSelect => InvSelect(w);
      case EvSubmissionFailed(a, err) => InvSubmission(w, a, err);
      case EvExecutorFinished(a, outcome) => InvExecutor(w, a, outcome);
    }
  }

  lemma StepKeepsInv(w: World, e: Event)
    requires Inv(w)
    ensures Inv(Step(w, e))
  {
    hide OrderOk, Links, AccountsKnown, Phases;
    if AttemptCall(e) {
      AttemptCallKeepsInv(w, e);
    } else if DecisionCall(e) {
      DecisionCallKeepsInv(w, e);
    } else if e.Tick? {
      InvTick(w, e.ticks);
    } else {
      InvOther(w, e);
    }
  }

  lemma {:induction false} RunKeepsInv(w: World, events: seq<Event>)
    requires Inv(w)
    ensures Inv(Run(w, events))
    decreases |events|
  {
    if events != [] {
      RunKeepsInv(w, events[..|events| - 1]);
      StepKeepsInv(Run(w, events[..|events| - 1]), events[|events| - 1]);
    }
  }

  // ------------------------------------------------------------- the first world

  /** Put an id where the segment indices stay in order, after its equals. */
  function InsertByIndex(order: seq<Id>, ds: seq<Descriptor>, id: Id): seq<Id>
    requires id < |ds| && forall i | 0 <= i < |order| :: order[i] < |ds|
  {
    if order == [] || ds[order[|order| - 1]].index <= ds[id].index then order + [id]
    else InsertByIndex(order[..|order| - 1], ds, id) + [order[|order| - 1]]
  }

  ghost predicate SortedIds(order: seq<Id>, ds: seq<Descriptor>, n: nat) {
    && n <= |ds|
    && (forall i | 0 <= i < |order| :: order[i] < n)
    && (forall id: nat | id < n :: id in order)
    && (forall i, j | 0 <= i < j < |order| && order[i] < |ds| && order[j] < |ds| ::
          ds[order[i]].index <= ds[order[j]].index)
  }

  lemma {:induction false} InsertSorted(order: seq<Id>, ds: seq<Descriptor>, id: Id)
    requires id < |ds| && (forall i | 0 <= i < |order| :: order[i] < |ds|)
    requires forall i, j | 0 <= i < j < |order| :: ds[order[i]].index <= ds[order[j]].index
    ensures var r := InsertByIndex(order, ds, id);
      && |r| == |order| + 1
      && (forall x :: x in r <==> x in order || x == id)
      && (forall i, j | 0 <= i < j < |r| && r[i] < |ds| && r[j] < |ds| :: ds[r[i]].index <= ds[r[j]].index)
  {
    if order != [] && ds[order[|order| - 1]].index > ds[id].index {
      var front, last := order[..|order| - 1], order[|order| - 1];
      InsertSorted(front, ds, id);
      var r := InsertByIndex(front, ds, id);
      assert order == front + [last];
      forall i | 0 <= i < |r| ensures r[i] < |ds| && ds[r[i]].index <= ds[last].index {
        assert r[i] in r;
        if r[i] != id { var k :| 0 <= k < |front| && front[k] == r[i]; assert order[k] == r[i]; }
      }
    } else {
      var r := order + [id];
      forall i, j | 0 <= i < j < |r| ensures ds[r[i]].index <= ds[r[j]].index {
        if j == |order| && i < |order| - 1 { assert ds[order[i]].index <= ds[order[|order| - 1]].index; }
      }
    }
  }

  lemma InsertOne(before: seq<Id>, ds: seq<Descriptor>, n: nat)
    requires n < |ds| && SortedIds(before, ds, n)
    ensures SortedIds(InsertByIndex(before, ds, n), ds, n + 1)
  {
    InsertSorted(before, ds, n);
    var r := InsertByIndex(before, ds, n);
    forall i | 0 <= i < |r| ensures r[i] < n + 1 { assert r[i] in r; }
  }

  function OrderFor(ds: seq<Descriptor>, n: nat): (order: seq<Id>)
    requires n <= |ds|
    ensures SortedIds(order, ds, n)
  {
    if n == 0 then []
    else
      var before := OrderFor(ds, n - 1);
      assert SortedIds(before, ds, n - 1);
      InsertOne(before, ds, n - 1);
      InsertByIndex(before, ds, n - 1)
  }

  /** A fresh scheduler over a pool in use by others: every segment pending. */
  function Fresh(pool: Pool, tracker: Tracker, clock: int, ds: seq<Descriptor>): World {
    World(clock, pool, tracker, OrderFor(ds, |ds|),
          map id | 0 <= id < |ds| :: NewTask(ds[id]), {}, 0, None, 0, 0, 0)
  }

  /** The new segments' ids are not yet in use anywhere in the pool. */
  ghost predicate IdsUnused(pool: Pool, n: nat) {
    forall a | a in pool.activity ::
      && (forall j | j in pool.activity[a].jobs :: j >= n)
      && (forall tok | tok in pool.activity[a].requests :: tok.taskId >= n)
      && (pool.activity[a].reserved.Some? ==> pool.activity[a].reserved.value >= n)
  }

  lemma FreshInv(pool: Pool, tracker: Tracker, clock: int, ds: seq<Descriptor>)
    requires PoolOk(pool) && IdsUnused(pool, |ds|)
    ensures Inv(Fresh(pool, tracker, clock, ds))
  {
    var w := Fresh(pool, tracker, clock, ds);
    assert OrderOk(w);
    assert LeaseLinks(w) by {
      forall a, j | a in w.pool.activity && j in w.pool.activity[a].jobs ensures j !in w.tasks {}
    }
    assert TokenLinks(w) by {
      forall a, tok | a in w.pool.activity && tok in w.pool.activity[a].requests ensures tok.taskId !in w.tasks {}
    }
  }

  /** Safety: from a fresh scheduler, every run of its own calls, in any order and
      with any arguments, mixed with everybody else's use of the pool, keeps the
      joint invariant. */
  lemma EveryRunIsSafe(pool: Pool, tracker: Tracker, clock: int, ds: seq<Descriptor>, events: seq<Event>)
    requires PoolOk(pool) && IdsUnused(pool, |ds|)
    ensures Inv(Run(Fresh(pool, tracker, clock, ds), events))
  {
    FreshInv(pool, tracker, clock, ds);
    RunKeepsInv(Fresh(pool, tracker, clock, ds), events);
  }
}
