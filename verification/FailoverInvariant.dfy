/** The joint invariant of scheduler, pool and registry, and its preservation by
    every event, whatever the order and however stale the arguments. */
module FailoverInvariant {
  import opened Foundations
  import opened FailoverModel

  // ---------------------------------------------------------- local conditions

  /** One segment on its own: what each phase of its life promises. */
  ghost predicate Phase(t: Task) {
    && t.migrations <= 1
    && t.logical <= t.size
    && t.attemptId <= t.migrations + 1
    && (t.migrations == 1 ==> t.attemptId == 2)
    && (t.result.Some? <==> t.state.Completed?)
    && (t.state.Pending? ==> Untouched(t))
    && (t.state.Active? || t.state.Finalizing? ==> Running(t))
    && (t.state.Migrating? ==> Draining(t))
    && (IsTerminal(t.state) ==> Ended(t))
  }

  ghost predicate Untouched(t: Task) {
    && t.attemptId == 0 && t.migrations == 0
    && t.account.None? && t.owned.None? && t.reserved.None? && t.draining.None?
    && t.tried == {} && t.parts == {} && t.logical == 0
  }

  /** The current attempt runs. If it is the second one, the first has no RPC in
      flight, its executor is quiescent, and the only lease is the new one. */
  ghost predicate Running(t: Task) {
    && t.account.Some? && t.account.value in t.tried
    && t.attemptId == t.migrations + 1
    && t.reserved.None? && t.draining.None?
    && t.startedAt.Some?
    && (t.owned.Some? ==> t.owned.value == Owned(t.account.value, t.attemptId))
    && (t.attemptId == 2 ==> InFlight(t, 1) == {} && 1 in t.quiescent)
  }

  ghost predicate Draining(t: Task) {
    && t.migrations == 1 && t.draining == Some(1)
    && t.account.None? && t.reserved.Some? && t.reserved.value in t.tried
    && t.logical == 0 && t.parts == {}
    && (t.owned.Some? ==> t.owned.value.attemptId == 1)
  }

  /** A finished segment holds a lease only while that lease's attempt still has
      an RPC in flight or an executor that has not gone quiet. */
  ghost predicate Ended(t: Task) {
    && t.account.None? && t.reserved.None?
    && (t.owned.Some? ==> t.owned.value.attemptId <= t.attemptId)
    && (t.owned.Some? ==> InFlight(t, t.owned.value.attemptId) != {} || t.owned.value.attemptId !in t.quiescent)
  }

  /** One account on its own. */
  ghost predicate AccountOk(p: Pool, a: AccountId)
    requires Known(p, a)
  {
    var act := p.activity[a];
    && p.runtimes[a].free + |act.jobs| == p.capacity
    && (act.snapshot.Some? ==> Idle(act) && act.snapshot.value.bytesPerSecond > 0.0)
    && (act.reserved.Some? ==> act.jobs == {})
    && (forall tok | tok in act.requests :: tok.accountId == a)
  }

  ghost predicate PoolOk(p: Pool) {
    && p.capacity >= 1
    && p.runtimes.Keys == p.activity.Keys
    && 0 !in p.runtimes
    && |p.ring| > 0 && p.cursor < |p.ring|
    && (forall i | 0 <= i < |p.ring| :: p.ring[i] in p.runtimes)
    && (forall a | a in p.runtimes :: AccountOk(p, a))
  }

  // ------------------------------------------------------------- joint conditions

  /** Open leases and registered jobs are the same thing, for this scheduler's
      work ids: a segment's lease is a job of its account and of no other. */
  ghost predicate LeaseLinks(w: World) {
    && (forall id | id in w.tasks && w.tasks[id].owned.Some? ::
          var a := w.tasks[id].owned.value.accountId;
          Known(w.pool, a) && id in w.pool.activity[a].jobs)
    && (forall a, j | a in w.pool.activity && j in w.pool.activity[a].jobs && j in w.tasks ::
          w.tasks[j].owned.Some? && w.tasks[j].owned.value.accountId == a)
  }

  /** An account is reserved for a segment exactly when that segment says so. */
  ghost predicate ReserveLinks(w: World) {
    && (forall id | id in w.tasks && w.tasks[id].reserved.Some? ::
          var a := w.tasks[id].reserved.value;
          Known(w.pool, a) && w.pool.activity[a].reserved == Some(id))
    && (forall a | a in w.pool.activity && w.pool.activity[a].reserved.Some? ::
          var j := w.pool.activity[a].reserved.value;
          j in w.tasks ==> w.tasks[j].reserved == Some(a))
  }

  /** The registry's in-flight requests are the segments' in-flight tokens. */
  ghost predicate TokenLinks(w: World) {
    && (forall id, k, tok | id in w.tasks && tok in InFlight(w.tasks[id], k) ::
          && tok.taskId == id && tok.attemptId == k && tok.sequence <= w.sequence
          && Known(w.pool, tok.accountId) && tok in w.pool.activity[tok.accountId].requests)
    && (forall a, tok | a in w.pool.activity && tok in w.pool.activity[a].requests && tok.taskId in w.tasks ::
          tok in InFlight(w.tasks[tok.taskId], tok.attemptId))
  }

  ghost predicate OrderOk(w: World) {
    && (forall i | 0 <= i < |w.order| :: w.order[i] in w.tasks)
    && (forall id | id in w.tasks :: id in w.order)
    && (forall i, j | 0 <= i < j < |w.order| && w.order[i] in w.tasks && w.order[j] in w.tasks ::
          w.tasks[w.order[i]].index <= w.tasks[w.order[j]].index)
  }

  ghost predicate Links(w: World) {
    && PoolOk(w.pool)
    && LeaseLinks(w)
    && ReserveLinks(w)
    && TokenLinks(w)
  }

  ghost predicate AccountsKnown(w: World) {
    forall id | id in w.tasks && w.tasks[id].account.Some? :: Known(w.pool, w.tasks[id].account.value)
  }

  ghost predicate Phases(w: World) { forall id | id in w.tasks :: Phase(w.tasks[id]) }

  ghost predicate Inv(w: World) { OrderOk(w) && Links(w) && AccountsKnown(w) && Phases(w) }

  // ---------------------------------------------------- effects on one account

  ghost predicate SameTokens(t: Task, u: Task) { forall k: nat :: InFlight(t, k) == InFlight(u, k) }

  /** Only account `a` changed, and it still is sound. */
  ghost predicate OnlyAccount(p: Pool, q: Pool, a: AccountId) {
    && Known(p, a) && Known(q, a)
    && q.capacity == p.capacity && q.ring == p.ring && q.cursor < |q.ring|
    && q.runtimes.Keys == p.runtimes.Keys && q.activity.Keys == p.activity.Keys
    && (forall b | b in p.runtimes && b != a :: q.runtimes[b] == p.runtimes[b])
    && (forall b | b in p.activity && b != a :: q.activity[b] == p.activity[b])
    && AccountOk(q, a)
  }

  lemma PoolOnlyAccount(p: Pool, q: Pool, a: AccountId)
    requires PoolOk(p) && OnlyAccount(p, q, a)
    ensures PoolOk(q)
  {
    forall b | b in q.runtimes ensures AccountOk(q, b) {
      if b != a { assert AccountOk(p, b); }
    }
  }

  lemma AcquireEffect(p: Pool, a: AccountId, work: Id)
    requires PoolOk(p) && CanAcquire(p, a, work)
    ensures OnlyAccount(p, TryAcquire(p, a, work).value, a)
    ensures TryAcquire(p, a, work).value.activity[a].jobs == p.activity[a].jobs + {work}
    ensures TryAcquire(p, a, work).value.activity[a].reserved == p.activity[a].reserved
    ensures TryAcquire(p, a, work).value.activity[a].requests == p.activity[a].requests
  {
    assert AccountOk(p, a);
  }

  lemma CloseEffect(p: Pool, tr: Tracker, now: int, a: AccountId, work: Id)
    requires PoolOk(p) && Known(p, a) && work in p.activity[a].jobs
    ensures var q := CloseJob(p, tr, now, a, work);
      && OnlyAccount(p, q, a)
      && q.activity[a].jobs == p.activity[a].jobs - {work}
      && q.activity[a].reserved == p.activity[a].reserved
      && q.activity[a].requests == p.activity[a].requests
  {
    assert AccountOk(p, a);
  }

  lemma ReserveEffect(p: Pool, a: AccountId, work: Id, now: int)
    requires PoolOk(p) && CanReserve(p, a, now)
    ensures var q := Reserve(p, a, work);
      && OnlyAccount(p, q, a)
      && q.activity[a].jobs == p.activity[a].jobs
      && q.activity[a].reserved == Some(work)
      && q.activity[a].requests == p.activity[a].requests
  {
    assert AccountOk(p, a);
  }

  lemma UnreserveEffect(p: Pool, tr: Tracker, now: int, a: AccountId, work: Id)
    requires PoolOk(p) && Known(p, a)
    ensures var q := Unreserve(p, tr, now, a, work);
      && OnlyAccount(p, q, a)
      && q.activity[a].jobs == p.activity[a].jobs
      && q.activity[a].reserved == (if p.activity[a].reserved == Some(work) then None else p.activity[a].reserved)
      && q.activity[a].requests == p.activity[a].requests
  {
    assert AccountOk(p, a);
  }

  lemma ActivateEffect(p: Pool, a: AccountId, work: Id)
    requires PoolOk(p) && CanActivate(p, a, work)
    ensures var q := ActivateReservation(p, a, work);
      && OnlyAccount(p, q, a)
      && q.activity[a].jobs == p.activity[a].jobs + {work} == {work}
      && q.activity[a].reserved == None
      && q.activity[a].requests == p.activity[a].requests
  {
    assert AccountOk(p, a);
  }

  lemma RequestEffect(p: Pool, tok: Token, frozen: Option<IdleSnapshot>)
    requires PoolOk(p) && Known(p, tok.accountId) && (frozen.Some? ==> frozen.value.bytesPerSecond > 0.0)
    ensures var a := tok.accountId; var act := p.activity[a];
      && OnlyAccount(p, SetActivity(p, a, StartRequest(act, tok)), a)
      && StartRequest(act, tok).jobs == act.jobs && StartRequest(act, tok).reserved == act.reserved
      && StartRequest(act, tok).requests == act.requests + {tok}
      && OnlyAccount(p, SetActivity(p, a, SettleRequest(act, tok, frozen)), a)
      && SettleRequest(act, tok, frozen).jobs == act.jobs && SettleRequest(act, tok, frozen).reserved == act.reserved
      && SettleRequest(act, tok, frozen).requests == act.requests - {tok}
  {
    assert AccountOk(p, tok.accountId);
  }

  // --------------------------------------------------- effects on the joint links

  /** A segment changed, but not its lease, reservation or tokens. */
  lemma LinksQuiet(w: World, id: Id, t: Task)
    requires Links(w) && id in w.tasks
    requires t.owned == w.tasks[id].owned && t.reserved == w.tasks[id].reserved && SameTokens(t, w.tasks[id])
    ensures Links(SetTask(w, id, t))
  {
    var w' := SetTask(w, id, t);
    forall j, k, tok | j in w'.tasks && tok in InFlight(w'.tasks[j], k)
      ensures tok in InFlight(w.tasks[j], k) {}
  }

  /** One account and one segment changed together: the links at that account
      and that segment are all there is to check. */
  ghost predicate LinkedAt(w: World, id: Id, a: AccountId) {
    && id in w.tasks && Known(w.pool, a)
    && var t := w.tasks[id]; var act := w.pool.activity[a];
    && (id in act.jobs <==> t.owned.Some? && t.owned.value.accountId == a)
    && (act.reserved == Some(id) <==> t.reserved == Some(a))
  }

  /** Away from account `a`, segment `id`'s lease and reservation are as before. */
  ghost predicate SameElsewhere(t: Task, u: Task, a: AccountId) {
    && (t.owned.Some? && t.owned.value.accountId != a ==>
          u.owned.Some? && u.owned.value.accountId == t.owned.value.accountId)
    && (u.owned.Some? && u.owned.value.accountId != a ==>
          t.owned.Some? && t.owned.value.accountId == u.owned.value.accountId)
    && (t.reserved.Some? && t.reserved.value != a ==> u.reserved == t.reserved)
    && (u.reserved.Some? && u.reserved.value != a ==> u.reserved == t.reserved)
  }

  lemma LeasePair(w: World, id: Id, t: Task, a: AccountId, q: Pool)
    requires LeaseLinks(w) && id in w.tasks && OnlyAccount(w.pool, q, a)
    requires q.activity[a].jobs - {id} == w.pool.activity[a].jobs - {id}
    requires SameElsewhere(w.tasks[id], t, a)
    requires LinkedAt(SetTask(w, id, t).(pool := q), id, a)
    ensures LeaseLinks(SetTask(w, id, t).(pool := q))
  {
    var w' := SetTask(w, id, t).(pool := q);
    forall j | j in w'.tasks && w'.tasks[j].owned.Some?
      ensures var b := w'.tasks[j].owned.value.accountId; Known(q, b) && j in q.activity[b].jobs
    {
      var b := w'.tasks[j].owned.value.accountId;
      if j != id && b == a { assert j in w.pool.activity[a].jobs - {id}; }
    }
    forall b, j | b in q.activity && j in q.activity[b].jobs && j in w'.tasks
      ensures w'.tasks[j].owned.Some? && w'.tasks[j].owned.value.accountId == b
    {
      if j != id && b == a { assert j in q.activity[a].jobs - {id}; }
    }
  }

  lemma ReservePair(w: World, id: Id, t: Task, a: AccountId, q: Pool)
    requires ReserveLinks(w) && id in w.tasks && OnlyAccount(w.pool, q, a)
    requires q.activity[a].reserved == w.pool.activity[a].reserved
      || (q.activity[a].reserved == None && w.pool.activity[a].reserved == Some(id))
      || (q.activity[a].reserved == Some(id) && w.pool.activity[a].reserved == None)
    requires SameElsewhere(w.tasks[id], t, a)
    requires LinkedAt(SetTask(w, id, t).(pool := q), id, a)
    ensures ReserveLinks(SetTask(w, id, t).(pool := q))
  {
  }

  lemma TokenPair(w: World, id: Id, t: Task, a: AccountId, q: Pool)
    requires TokenLinks(w) && id in w.tasks && OnlyAccount(w.pool, q, a)
    requires q.activity[a].requests == w.pool.activity[a].requests
    requires SameTokens(t, w.tasks[id])
    ensures TokenLinks(SetTask(w, id, t).(pool := q))
  {
    var w' := SetTask(w, id, t).(pool := q);
    forall j, k, tok | j in w'.tasks && tok in InFlight(w'.tasks[j], k)
      ensures && tok.taskId == j && tok.attemptId == k && tok.sequence <= w.sequence
              && Known(q, tok.accountId) && tok in q.activity[tok.accountId].requests
    {
      assert tok in InFlight(w.tasks[j], k);
    }
  }

  lemma LinksPair(w: World, id: Id, t: Task, a: AccountId, q: Pool)
    requires Links(w) && id in w.tasks && OnlyAccount(w.pool, q, a)
    requires q.activity[a].jobs - {id} == w.pool.activity[a].jobs - {id}
    requires q.activity[a].requests == w.pool.activity[a].requests
    requires q.activity[a].reserved == w.pool.activity[a].reserved
      || (q.activity[a].reserved == None && w.pool.activity[a].reserved == Some(id))
      || (q.activity[a].reserved == Some(id) && w.pool.activity[a].reserved == None)
    requires SameTokens(t, w.tasks[id]) && SameElsewhere(w.tasks[id], t, a)
    requires LinkedAt(SetTask(w, id, t).(pool := q), id, a)
    ensures Links(SetTask(w, id, t).(pool := q))
  {
    PoolOnlyAccount(w.pool, q, a);
    LeasePair(w, id, t, a, q);
    ReservePair(w, id, t, a, q);
    TokenPair(w, id, t, a, q);
  }

  lemma LinksClose(w: World, id: Id)
    requires Links(w) && id in w.tasks
    ensures Links(CloseOwned(w, id))
  {
    var t := w.tasks[id];
    if t.owned.Some? {
      var a := t.owned.value.accountId;
      CloseEffect(w.pool, w.tracker, w.clock, a, id);
      LinksPair(w, id, t.(owned := None), a, CloseJob(w.pool, w.tracker, w.clock, a, id));
    }
  }

  lemma LinksMaybeClose(w: World, id: Id, attempt: nat)
    requires Links(w) && id in w.tasks
    ensures Links(MaybeClose(w, id, attempt))
    ensures Links(MaybeCloseOwned(w, id))
  {
    LinksClose(w, id);
  }

  /** The last write to a key wins. */
  lemma UpdateTwice(m: map<Id, Task>, m1: map<Id, Task>, m2: map<Id, Task>, id: Id, x: Task, y: Task)
    requires m1 == m[id := x] && m2 == m1[id := y]
    ensures m2 == m[id := y]
  {
  }

  /** What MaybeClose and Terminal leave alone. */
  lemma CloseFrame(w: World, id: Id, attempt: nat)
    requires id in w.tasks
    ensures var w' := MaybeClose(w, id, attempt);
      w'.tasks == w.tasks[id := w.tasks[id].(owned := w'.tasks[id].owned)]
      && w' == w.(tasks := w'.tasks, pool := w'.pool)
      && w'.pool.runtimes.Keys == w.pool.runtimes.Keys && w'.pool.activity.Keys == w.pool.activity.Keys
      && w'.tasks[id].owned == (if ShouldClose(w.tasks[id], attempt) then None else w.tasks[id].owned)
  {
    assert w.tasks[id].(owned := w.tasks[id].owned) == w.tasks[id];
    assert w.tasks[id := w.tasks[id]] == w.tasks;
  }

  // ------------------------------------------------------- preservation, by operation

  /** One segment moved; everything else the invariant reads stayed put. */
  lemma InvOne(w: World, w': World, id: Id)
    requires Inv(w) && id in w.tasks && id in w'.tasks && Links(w')
    requires w'.order == w.order && w'.tasks == w.tasks[id := w'.tasks[id]]
    requires w'.tasks[id].index == w.tasks[id].index
    requires w'.pool.runtimes.Keys == w.pool.runtimes.Keys
    requires w'.tasks[id].account.Some? ==> Known(w'.pool, w'.tasks[id].account.value)
    requires Phase(w'.tasks[id])
    ensures Inv(w')
  {
  }

  /** A segment changed in fields the joint links do not read. */
  lemma InvQuiet(w: World, id: Id, t: Task)
    requires Inv(w) && id in w.tasks && Phase(t)
    requires t.owned == w.tasks[id].owned && t.reserved == w.tasks[id].reserved && t.inFlight == w.tasks[id].inFlight
    requires t.account == w.tasks[id].account && t.index == w.tasks[id].index
    ensures Inv(SetTask(w, id, t))
  {
    LinksQuiet(w, id, t);
    InvOne(w, SetTask(w, id, t), id);
  }

  lemma InvClose(w: World, id: Id)
    requires Inv(w) && id in w.tasks
    ensures Inv(CloseOwned(w, id))
  {
    LinksClose(w, id);
    var w' := CloseOwned(w, id);
    assert w.tasks[id := w.tasks[id]] == w.tasks;
    assert Phase(w.tasks[id]);
    InvOne(w, w', id);
  }

  lemma InvMaybeClose(w: World, id: Id, attempt: nat)
    requires Inv(w) && id in w.tasks
    ensures Inv(MaybeClose(w, id, attempt))
  {
    InvClose(w, id);
  }

  /** The segment as `Terminal` leaves it, before its lease is looked at. */
  function Stopped(t: Task, state: SegState, error: Option<string>): Task {
    t.(state := state, account := None, error := error, reserved := None)
  }

  lemma LinksTerminal(w: World, id: Id, state: SegState, error: Option<string>)
    requires Links(w) && id in w.tasks
    ensures Links(Terminal(w, id, state, error))
  {
    var t := w.tasks[id];
    if !IsTerminal(t.state) {
      var t1 := Stopped(t, state, error);
      if t.reserved.Some? {
        var a := t.reserved.value;
        UnreserveEffect(w.pool, w.tracker, w.clock, a, id);
        var p := Unreserve(w.pool, w.tracker, w.clock, a, id);
        LinksPair(w, id, t1, a, p);
        LinksMaybeClose(SetTask(w, id, t1).(pool := p), id, 0);
      } else {
        LinksQuiet(w, id, t1);
        assert SetTask(w, id, t1).(pool := w.pool) == SetTask(w, id, t1);
        LinksMaybeClose(SetTask(w, id, t1), id, 0);
      }
    }
  }

  /** What `Terminal` leaves alone, and what it makes of the segment. */
  lemma TerminalFrame(w: World, id: Id, state: SegState, error: Option<string>)
    requires id in w.tasks && !IsTerminal(w.tasks[id].state)
    ensures var w' := Terminal(w, id, state, error);
      var t1 := Stopped(w.tasks[id], state, error);
      && w'.tasks == w.tasks[id := w'.tasks[id]]
      && w' == w.(tasks := w'.tasks, pool := w'.pool)
      && w'.pool.runtimes.Keys == w.pool.runtimes.Keys && w'.pool.activity.Keys == w.pool.activity.Keys
      && w'.tasks[id] == t1.(owned :=
           if t1.owned.Some? && ShouldClose(t1, t1.owned.value.attemptId) then None else t1.owned)
  {
    var t := w.tasks[id];
    var t1 := Stopped(t, state, error);
    var p := if t.reserved.Some? then Unreserve(w.pool, w.tracker, w.clock, t.reserved.value, id) else w.pool;
    var w1 := SetTask(w, id, t1).(pool := p);
    assert w1.tasks[id] == t1;
    if t1.owned.Some? { CloseFrame(w1, id, t1.owned.value.attemptId); }
    assert w.tasks[id := t1][id := t1] == w.tasks[id := t1];
  }

  lemma InvFail(w: World, id: Id, error: Option<string>)
    requires Inv(w) && id in w.tasks
    ensures Inv(Terminal(w, id, Failed, error))
  {
    if !IsTerminal(w.tasks[id].state) {
      LinksTerminal(w, id, Failed, error);
      TerminalFrame(w, id, Failed, error);
      assert Phase(w.tasks[id]);
      InvOne(w, Terminal(w, id, Failed, error), id);
    }
  }

  lemma InvComplete(w: World, l: Lease, result: UploadedPart)
    requires Inv(w)
    ensures Inv(CompleteAttempt(w, l, result))
  {
    if ValidCurrent(w, l, {Finalizing}) {
      var id := l.taskId;
      var t := w.tasks[id].(result := Some(result));
      var w1 := SetTask(w, id, t);
      var w2 := Terminal(w1, id, Completed, None);
      assert Links(w2) by {
        LinksQuiet(w, id, t);
        LinksTerminal(w1, id, Completed, None);
      }
      assert w2.tasks == w.tasks[id := w2.tasks[id]] && w2.pool.runtimes.Keys == w.pool.runtimes.Keys by {
        TerminalFrame(w1, id, Completed, None);
        UpdateTwice(w.tasks, w1.tasks, w2.tasks, id, t, w2.tasks[id]);
      }
      assert Phase(w2.tasks[id]) && w2.tasks[id].index == w.tasks[id].index && w2.tasks[id].account == None by {
        TerminalFrame(w1, id, Completed, None);
        CompletedPhase(w.tasks[id], t, w2.tasks[id]);
      }
      InvOne(w, w2, id);
    }
  }

  lemma CompletedPhase(t: Task, u: Task, v: Task)
    requires Phase(t) && t.state.Finalizing? && u.result.Some? && u == t.(result := u.result)
    requires var s := Stopped(u, Completed, None);
      v == s.(owned := if s.owned.Some? && ShouldClose(s, s.owned.value.attemptId) then None else s.owned)
    ensures Phase(v)
  {
  }

  lemma InstalledPhase(t: Task, u: Task, now: int, a: AccountId, attempt: nat)
    requires Phase(t)
    requires (t.state.Pending? && attempt == 1 && u == t)
      || (ReplacementReady(t) && attempt == 2 && u == t.(reserved := None, draining := None))
    ensures Phase(Installed(u, now, a, attempt)) && SameTokens(Installed(u, now, a, attempt), t)
  {
    assert SameTokens(Installed(u, now, a, attempt), t);
    assert InFlight(Installed(u, now, a, attempt), 1) == InFlight(t, 1);
  }

  /** Installing an attempt whose lease has just been taken. */
  lemma InvInstall(w: World, id: Id, u: Task, a: AccountId, attempt: nat, q: Pool)
    requires Inv(w) && id in w.tasks && w.tasks[id].owned.None?
    requires OnlyAccount(w.pool, q, a)
    requires q.activity[a].jobs == w.pool.activity[a].jobs + {id}
    requires q.activity[a].requests == w.pool.activity[a].requests
    requires
      || (w.tasks[id].state.Pending? && attempt == 1 && u == w.tasks[id]
        && q.activity[a].reserved == w.pool.activity[a].reserved)
      || (ReplacementReady(w.tasks[id]) && attempt == 2 && u == w.tasks[id].(reserved := None, draining := None)
          && w.tasks[id].reserved == Some(a) && q.activity[a].reserved == None)
    ensures Inv(Install(SetTask(w, id, u).(pool := q), id, a, attempt))
  {
    var t2 := Installed(u, w.clock, a, attempt);
    assert Phase(w.tasks[id]);
    InstalledPhase(w.tasks[id], u, w.clock, a, attempt);
    InstalledLinks(w, id, t2, a, q);
    InvOne(w, SetTask(w, id, t2).(pool := q), id);
    InvClaim(SetTask(w, id, t2).(pool := q), w.claimed + {(id, attempt)});
    InstallIs(w, id, u, a, attempt, q);
  }

  lemma InstallIs(w: World, id: Id, u: Task, a: AccountId, attempt: nat, q: Pool)
    requires id in w.tasks
    ensures Install(SetTask(w, id, u).(pool := q), id, a, attempt)
      == SetTask(w, id, Installed(u, w.clock, a, attempt)).(pool := q, claimed := w.claimed + {(id, attempt)})
  {
    var t2 := Installed(u, w.clock, a, attempt);
    assert w.tasks[id := u][id := t2] == w.tasks[id := t2];
  }

  lemma InvClaim(w: World, claimed: set<(Id, nat)>)
    requires Inv(w)
    ensures Inv(w.(claimed := claimed))
  {
  }

  lemma InstalledLinks(w: World, id: Id, t: Task, a: AccountId, q: Pool)
    requires Links(w) && id in w.tasks && w.tasks[id].owned.None? && OnlyAccount(w.pool, q, a)
    requires q.activity[a].jobs == w.pool.activity[a].jobs + {id}
    requires q.activity[a].requests == w.pool.activity[a].requests
    requires t.owned.Some? && t.owned.value.accountId == a && t.reserved == None && SameTokens(t, w.tasks[id])
    requires (w.tasks[id].reserved == None && q.activity[a].reserved == w.pool.activity[a].reserved)
      || (w.tasks[id].reserved == Some(a) && q.activity[a].reserved == None)
    ensures Links(SetTask(w, id, t).(pool := q))
  {
    LinksPair(w, id, t, a, q);
  }
}
