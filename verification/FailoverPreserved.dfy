/** The harder calls keep the joint invariant: starting an attempt, beginning and settling
    requests, migrating, and turning a reservation into the second attempt. */
module FailoverPreserved {
  import opened Foundations
  import opened FailoverModel
  import opened FailoverInvariant

  // -------------------------------------------------------------- taking leases

  lemma InvStart(w: World, id: Id, a: AccountId, cursor: nat)
    requires Inv(w) && id in w.tasks && w.tasks[id].state.Pending? && CanAcquire(w.pool, a, id)
    requires cursor < |w.pool.ring|
    ensures var q := TryAcquire(w.pool, a, id).value.(cursor := cursor);
      Inv(Install(w.(pool := q), id, a, 1))
  {
    hide OrderOk, LeaseLinks, ReserveLinks, TokenLinks, AccountsKnown;
    AcquireEffect(w.pool, a, id);
    var q := TryAcquire(w.pool, a, id).value.(cursor := cursor);
    assert Phase(w.tasks[id]);
    assert OnlyAccount(w.pool, q, a) by {
      var p := TryAcquire(w.pool, a, id).value;
      assert q.runtimes == p.runtimes && q.activity == p.activity;
      assert AccountOk(p, a);
    }
    InvInstall(w, id, w.tasks[id], a, 1, q);
    assert w.tasks[id := w.tasks[id]] == w.tasks;
    assert SetTask(w, id, w.tasks[id]).(pool := q) == w.(pool := q);
  }

  lemma InvActivateExact(w: World, id: Id, account: AccountId)
    requires Inv(w)
    ensures Inv(ActivateExact(w, id, account))
  {
    var a := Resolve(w.pool, account);
    if id in w.tasks && w.tasks[id].state.Pending? && CanAcquire(w.pool, a, id) {
      InvStart(w, id, a, w.pool.cursor);
      var q := TryAcquire(w.pool, a, id).value;
      assert q.(cursor := w.pool.cursor) == q;
    }
  }

  /** The round robin either finds an account that accepts, and moves the cursor
      past it, or every account from `k` on has refused. */
  lemma {:induction false} AcquireFromIs(p: Pool, work: Id, k: nat)
    requires PoolOk(p)
    ensures var r := AcquireFrom(p, work, k);
      match r
      case Some((q, a)) =>
        && a in p.ring && CanAcquire(p, a, work)
        && q.cursor < |p.ring| && q == TryAcquire(p, a, work).value.(cursor := q.cursor)
      case None => forall j: nat :: k <= j < |p.ring| ==> !CanAcquire(p, p.ring[Slot(p, j)], work)
    decreases |p.ring| - k
  {
    if k < |p.ring| && !CanAcquire(p, p.ring[Slot(p, k)], work) { AcquireFromIs(p, work, k + 1); }
  }

  // ---------------------------------------------------------- replacing an attempt

  /** A reservation is only ever refused because its account left the drive: the
      reserved account has no lease open, so a file slot is always free. */
  lemma ReservationHasSlot(w: World, id: Id)
    requires Inv(w) && id in w.tasks && w.tasks[id].reserved.Some?
    ensures var a := w.tasks[id].reserved.value;
      && Known(w.pool, a)
      && w.pool.activity[a].jobs == {}
      && w.pool.runtimes[a].free == w.pool.capacity >= 1
      && (CanActivate(w.pool, a, id) <==> Eligible(w.pool.runtimes[a]))
  {
    var a := w.tasks[id].reserved.value;
    assert AccountOk(w.pool, a);
  }

  /** Once drained, the old lease is closed and the reservation is next. */
  predicate Drained(t: Task) { ReplacementReady(t) && t.owned.None? }

  lemma ReplacementIs(w: World, id: Id)
    requires Inv(w) && id in w.tasks && ReplacementReady(w.tasks[id])
    ensures w.tasks[id].draining == Some(1)
    ensures MaybeClose(w, id, 1).tasks[id] == w.tasks[id].(owned := None)
    ensures Drained(MaybeClose(w, id, 1).tasks[id])
  {
    assert Phase(w.tasks[id]);
    CloseFrame(w, id, 1);
  }

  lemma InvActivateReplacement(w: World, id: Id)
    requires Inv(w) && id in w.tasks
    ensures Inv(ActivateReplacement(w, id).0)
  {
    if ReplacementReady(w.tasks[id]) {
      ReplacementIs(w, id);
      InvMaybeClose(w, id, 1);
      InvReplace(MaybeClose(w, id, 1), id);
    }
  }

  lemma InvReplace(w: World, id: Id)
    requires Inv(w) && id in w.tasks && Drained(w.tasks[id])
    ensures Inv(UseReservation(w, id).0)
  {
    var t := w.tasks[id];
    assert Phase(t);
    var target := t.reserved.value;
    ReservationHasSlot(w, id);
    if CanActivate(w.pool, target, id) {
      ActivateEffect(w.pool, target, id);
      InvInstall(w, id, t.(reserved := None, draining := None), target, 2, ActivateReservation(w.pool, target, id));
    } else {
      RefusedIs(w, id, Some(REFUSED));
      InvFail(w, id, Some(REFUSED));
    }
  }

  /** Dropping the reservation first changes nothing about how the segment fails. */
  lemma RefusedIs(w: World, id: Id, error: Option<string>)
    requires id in w.tasks && w.tasks[id].state.Migrating? && w.tasks[id].reserved.Some?
    ensures var t := w.tasks[id];
      var p := Unreserve(w.pool, w.tracker, w.clock, t.reserved.value, id);
      Terminal(SetTask(w, id, t.(reserved := None)).(pool := p), id, Failed, error) == Terminal(w, id, Failed, error)
  {
    var t := w.tasks[id];
    assert w.tasks[id := t.(reserved := None)][id := Stopped(t, Failed, error)]
        == w.tasks[id := Stopped(t, Failed, error)];
  }

  // ------------------------------------------------------------ requests in flight

  lemma InvBegin(w: World, l: Lease, part: nat)
    requires Inv(w)
    ensures Inv(BeginRequest(w, l, part))
  {
    hide OrderOk, Links;
    if ValidCurrent(w, l, {Active}) {
      var id, t := l.taskId, w.tasks[l.taskId];
      var token := NextToken(w, l, part);
      var t1 := t.(inFlight := t.inFlight[l.attemptId := InFlight(t, l.attemptId) + {token}]);
      var q := SetActivity(w.pool, l.accountId, StartRequest(w.pool.activity[l.accountId], token));
      LinksBegin(w, id, t1, token);
      assert Phase(t);
      assert InFlight(t1, 1) == if l.attemptId == 1 then InFlight(t, 1) + {token} else InFlight(t, 1);
      InvOne(w, SetTask(w, id, t1).(sequence := w.sequence + 1, pool := q), id);
    }
  }

  lemma LinksBegin(w: World, id: Id, t1: Task, token: Token)
    requires Links(w) && id in w.tasks && token.taskId == id && token.sequence == w.sequence + 1
    requires Known(w.pool, token.accountId)
    requires t1 == w.tasks[id].(inFlight := w.tasks[id].inFlight[
      token.attemptId := InFlight(w.tasks[id], token.attemptId) + {token}])
    ensures var q := SetActivity(w.pool, token.accountId, StartRequest(w.pool.activity[token.accountId], token));
      Links(SetTask(w, id, t1).(sequence := w.sequence + 1, pool := q))
  {
    var a := token.accountId;
    var q := SetActivity(w.pool, a, StartRequest(w.pool.activity[a], token));
    RequestEffect(w.pool, token, None);
    PoolOnlyAccount(w.pool, q, a);
    BeginTokens(w, id, t1, token, q);
    QuietPool(w, id, t1, q, a);
  }

  /** Neither the jobs nor the reservations moved. */
  lemma QuietPool(w: World, id: Id, t1: Task, q: Pool, a: AccountId)
    requires LeaseLinks(w) && ReserveLinks(w) && id in w.tasks && OnlyAccount(w.pool, q, a)
    requires t1.owned == w.tasks[id].owned && t1.reserved == w.tasks[id].reserved
    requires q.activity[a].jobs == w.pool.activity[a].jobs && q.activity[a].reserved == w.pool.activity[a].reserved
    ensures forall s: nat :: var w' := SetTask(w, id, t1).(sequence := s, pool := q); LeaseLinks(w') && ReserveLinks(w')
  {
    forall s: nat
      ensures var w' := SetTask(w, id, t1).(sequence := s, pool := q); LeaseLinks(w') && ReserveLinks(w')
    {
      var w' := SetTask(w, id, t1).(sequence := s, pool := q);
      assert LeaseLinks(w');
      assert ReserveLinks(w');
    }
  }

  lemma BeginTokens(w: World, id: Id, t1: Task, token: Token, q: Pool)
    requires TokenLinks(w) && id in w.tasks && token.taskId == id && token.sequence == w.sequence + 1
    requires forall k: nat ::
      (InFlight(t1, k) == if k == token.attemptId then InFlight(w.tasks[id], k) + {token} else InFlight(w.tasks[id], k))
    requires Known(w.pool, token.accountId) && OnlyAccount(w.pool, q, token.accountId)
    requires q.activity[token.accountId].requests == w.pool.activity[token.accountId].requests + {token}
    ensures TokenLinks(SetTask(w, id, t1).(sequence := w.sequence + 1, pool := q))
  {
    hide InFlight, AccountOk;
    var w' := SetTask(w, id, t1).(sequence := w.sequence + 1, pool := q);
    forall j, k, tok | j in w'.tasks && tok in InFlight(w'.tasks[j], k)
      ensures && tok.taskId == j && tok.attemptId == k && tok.sequence <= w'.sequence
              && Known(q, tok.accountId) && tok in q.activity[tok.accountId].requests
    {
      if tok != token || j != id { assert tok in InFlight(w.tasks[j], k); }
    }
  }

  function Without(t: Task, token: Token): Task {
    if token in InFlight(t, token.attemptId)
    then t.(inFlight := t.inFlight[token.attemptId := InFlight(t, token.attemptId) - {token}])
    else t
  }

  lemma LinksSettled(w: World, id: Id, token: Token)
    requires Links(w) && id in w.tasks && token.taskId == id && Known(w.pool, token.accountId)
    ensures var a := token.accountId;
      var q := SetActivity(w.pool, a, SettleRequest(w.pool.activity[a], token, Freeze(w.tracker, w.clock, a)));
      Links(SetTask(w, id, Without(w.tasks[id], token)).(pool := q))
  {
    var a := token.accountId;
    var frozen := Freeze(w.tracker, w.clock, a);
    RequestEffect(w.pool, token, frozen);
    var q := SetActivity(w.pool, a, SettleRequest(w.pool.activity[a], token, frozen));
    PoolOnlyAccount(w.pool, q, a);
    SettleTokens(w, id, Without(w.tasks[id], token), token, q);
    QuietPool(w, id, Without(w.tasks[id], token), q, a);
  }

  lemma SettleTokens(w: World, id: Id, t1: Task, token: Token, q: Pool)
    requires PoolOk(w.pool) && TokenLinks(w) && id in w.tasks && token.taskId == id
    requires forall k: nat ::
      (InFlight(t1, k) == if k == token.attemptId then InFlight(w.tasks[id], k) - {token} else InFlight(w.tasks[id], k))
    requires Known(w.pool, token.accountId) && OnlyAccount(w.pool, q, token.accountId)
    requires q.activity[token.accountId].requests == w.pool.activity[token.accountId].requests - {token}
    ensures TokenLinks(SetTask(w, id, t1).(pool := q))
  {
    var w' := SetTask(w, id, t1).(pool := q);
    forall j, k, tok | j in w'.tasks && tok in InFlight(w'.tasks[j], k)
      ensures && tok.taskId == j && tok.attemptId == k && tok.sequence <= w'.sequence
              && Known(q, tok.accountId) && tok in q.activity[tok.accountId].requests
    {
      assert tok in InFlight(w.tasks[j], k);
    }
    SettledRequests(w, id, t1, token, q);
  }

  lemma SettledRequests(w: World, id: Id, t1: Task, token: Token, q: Pool)
    requires PoolOk(w.pool) && TokenLinks(w) && id in w.tasks && token.taskId == id
    requires forall k: nat ::
      (InFlight(t1, k) == if k == token.attemptId then InFlight(w.tasks[id], k) - {token} else InFlight(w.tasks[id], k))
    requires Known(w.pool, token.accountId) && OnlyAccount(w.pool, q, token.accountId)
    requires q.activity[token.accountId].requests == w.pool.activity[token.accountId].requests - {token}
    ensures var tasks := w.tasks[id := t1];
      forall b, tok | b in q.activity && tok in q.activity[b].requests && tok.taskId in tasks ::
        tok in InFlight(tasks[tok.taskId], tok.attemptId)
  {
    hide InFlight;
    var tasks := w.tasks[id := t1];
    forall b, tok | b in q.activity && tok in q.activity[b].requests && tok.taskId in tasks
      ensures tok in InFlight(tasks[tok.taskId], tok.attemptId)
    {
      assert AccountOk(w.pool, b);
    }
  }

  /** After a token settles or an executor goes quiet, the lease is looked at
      again; a finished segment whose attempt is done gives its lease back there. */
  lemma SettledInv(w: World, w1: World, id: Id, attempt: nat)
    requires Inv(w) && id in w.tasks && Links(w1)
    requires w1 == w.(tasks := w1.tasks, pool := w1.pool) && id in w1.tasks
    requires w1.tasks == w.tasks[id := w1.tasks[id]]
    requires w1.pool.runtimes.Keys == w.pool.runtimes.Keys && w1.pool.activity.Keys == w.pool.activity.Keys
    requires w1.tasks[id] == w.tasks[id].(inFlight := w1.tasks[id].inFlight, quiescent := w1.tasks[id].quiescent)
    requires w.tasks[id].quiescent <= w1.tasks[id].quiescent <= w.tasks[id].quiescent + {attempt}
    requires forall k: nat :: InFlight(w1.tasks[id], k) <= InFlight(w.tasks[id], k)
    requires forall k: nat :: k != attempt ==> InFlight(w1.tasks[id], k) == InFlight(w.tasks[id], k)
    ensures Inv(MaybeClose(w1, id, attempt))
  {
    var w2 := MaybeClose(w1, id, attempt);
    assert Links(w2) by { LinksMaybeClose(w1, id, attempt); }
    assert w2.tasks == w.tasks[id := w2.tasks[id]] && w2.order == w.order
        && w2.pool.runtimes.Keys == w.pool.runtimes.Keys && w2.pool.activity.Keys == w.pool.activity.Keys by {
      CloseFrame(w1, id, attempt);
      UpdateTwice(w.tasks, w1.tasks, w2.tasks, id, w1.tasks[id], w2.tasks[id]);
    }
    assert Phase(w2.tasks[id]) && w2.tasks[id].index == w.tasks[id].index
      && w2.tasks[id].account == w.tasks[id].account by {
      CloseFrame(w1, id, attempt);
      SettledPhase(w.tasks[id], w1.tasks[id], w2.tasks[id], attempt);
    }
    InvOne(w, w2, id);
  }

  lemma SettledPhase(t: Task, u: Task, v: Task, attempt: nat)
    requires Phase(t) && u == t.(inFlight := u.inFlight, quiescent := u.quiescent)
    requires t.quiescent <= u.quiescent <= t.quiescent + {attempt}
    requires forall k: nat :: InFlight(u, k) <= InFlight(t, k)
    requires forall k: nat :: k != attempt ==> InFlight(u, k) == InFlight(t, k)
    requires v == u.(owned := if ShouldClose(u, attempt) then None else u.owned)
    ensures Phase(v)
  {
    assert InFlight(u, 1) == InFlight(v, 1) && InFlight(u, 2) == InFlight(v, 2);
    if t.owned.Some? { assert InFlight(u, t.owned.value.attemptId) == InFlight(v, t.owned.value.attemptId); }
  }

  lemma InvQuiesced(w: World, l: Lease)
    requires Inv(w)
    ensures Inv(AttemptQuiesced(w, l))
  {
    if l.taskId in w.tasks {
      var t := w.tasks[l.taskId];
      var t1 := t.(quiescent := t.quiescent + {l.attemptId});
      LinksQuiet(w, l.taskId, t1);
      SettledInv(w, SetTask(w, l.taskId, t1), l.taskId, l.attemptId);
    }
  }

  // ------------------------------------------------------------------- migration

  lemma InvCommit(w: World, target: AccountId, id: Id)
    requires Inv(w)
    ensures Inv(CommitMigration(w, target, id))
  {
    hide Inv, Migratable, CanReserve, CommittedWorld;
    if Migratable(w, target, id) && CanReserve(w.pool, target, w.clock) {
      CommitIs(w, target, id);
      InvCommitted(w, target, id);
      InvCounters(CommittedWorld(w, target, id), w.migrations + 1, w.abandoned + w.tasks[id].logical);
    }
  }

  lemma InvCommitted(w: World, target: AccountId, id: Id)
    requires Inv(w) && CanReserve(w.pool, target, w.clock)
    requires id in w.tasks && Candidate(w.tasks[id], w.clock) && target !in w.tasks[id].tried
    ensures Inv(CommittedWorld(w, target, id))
  {
    MigratedPhase(w.tasks[id], target, w.clock);
    LinksCommit(w, target, id);
    InvOne(w, CommittedWorld(w, target, id), id);
  }

  lemma MigratedPhase(t: Task, target: AccountId, now: int)
    requires Phase(t) && Candidate(t, now) && target !in t.tried
    ensures Phase(Migrated(t, target)) && t.reserved.None?
  {
  }

  /** A committed migration before the counters move. */
  function CommittedWorld(w: World, target: AccountId, id: Id): World
    requires id in w.tasks
  {
    SetTask(w, id, Migrated(w.tasks[id], target)).(pool := Reserve(w.pool, target, id))
  }

  lemma CommitIs(w: World, target: AccountId, id: Id)
    requires Migratable(w, target, id) && CanReserve(w.pool, target, w.clock)
    ensures id in w.tasks && Candidate(w.tasks[id], w.clock) && target !in w.tasks[id].tried
    ensures CommitMigration(w, target, id) ==
      CommittedWorld(w, target, id).(migrations := w.migrations + 1, abandoned := w.abandoned + w.tasks[id].logical)
  {
  }

  lemma LinksCommit(w: World, target: AccountId, id: Id)
    requires Links(w) && id in w.tasks && CanReserve(w.pool, target, w.clock)
    requires w.tasks[id].reserved.None?
    ensures Links(CommittedWorld(w, target, id))
  {
    ReserveEffect(w.pool, target, id, w.clock);
    assert AccountOk(w.pool, target);
    LinksPair(w, id, Migrated(w.tasks[id], target), target, Reserve(w.pool, target, id));
  }

  lemma InvCounters(w: World, migrations: nat, abandoned: nat)
    requires Inv(w)
    ensures Inv(w.(migrations := migrations, abandoned := abandoned))
  {
  }
}
