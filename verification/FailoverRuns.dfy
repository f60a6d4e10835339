/** What whole runs guarantee: one finalize and one result per segment, stale leases without
    effect, no RPC left behind a replacement, accounts that add up, reservations that hold. */
module FailoverRuns {
  import opened Foundations
  import opened FailoverModel
  import opened FailoverInvariant
  import opened FailoverPreserved
  import opened FailoverSafety
  import opened FailoverHistory

  // ------------------------------------------------------------------- runs split

  /** The world just before event `i` of a run. */
  function Before(w: World, events: seq<Event>, i: nat): World
    requires i <= |events|
  {
    Run(w, events[..i])
  }

  lemma {:induction false} RunSplit(w: World, events: seq<Event>, i: nat, j: nat)
    requires i <= j <= |events|
    ensures Before(w, events, j) == Run(Before(w, events, i), events[i..j])
    decreases j
  {
    if i == j {
      assert events[i..j] == [];
    } else {
      RunSplit(w, events, i, j - 1);
      assert events[..j][..j - 1] == events[..j - 1];
      assert events[i..j][..j - 1 - i] == events[i..j - 1];
    }
  }

  lemma BeforeNext(w: World, events: seq<Event>, i: nat)
    requires i < |events|
    ensures Before(w, events, i + 1) == Step(Before(w, events, i), events[i])
  {
    assert events[..i + 1][..i] == events[..i];
  }

  lemma BeforeInv(w: World, events: seq<Event>, i: nat)
    requires Inv(w) && i <= |events|
    ensures Inv(Before(w, events, i))
  {
    RunKeepsInv(w, events[..i]);
  }

  lemma EvolvesSame(w: World)
    ensures Onward(w, w)
  {
  }

  lemma {:induction false} RunOnward(w: World, events: seq<Event>)
    requires Inv(w)
    ensures Onward(w, Run(w, events))
    decreases |events|
  {
    if events == [] {
      EvolvesSame(w);
    } else {
      var v := Run(w, events[..|events| - 1]);
      RunOnward(w, events[..|events| - 1]);
      RunKeepsInv(w, events[..|events| - 1]);
      StepOnward(v, events[|events| - 1]);
      OnwardTrans(w, v, Run(w, events));
    }
  }

  lemma BetweenOnward(w: World, events: seq<Event>, i: nat, j: nat)
    requires Inv(w) && i <= j <= |events|
    ensures Onward(Before(w, events, i), Before(w, events, j))
  {
    RunSplit(w, events, i, j);
    BeforeInv(w, events, i);
    RunOnward(Before(w, events, i), events[i..j]);
  }

  // -------------------------------------------------- finalize and complete once

  /** Event `i` is a call to `grant_finalize` that answered yes. */
  predicate Granted(w: World, events: seq<Event>, i: nat, l: Lease) {
    i < |events| && events[i] == EvGrant(l) && ValidCurrent(Before(w, events, i), l, {Active})
  }

  /** Event `i` is a call to `complete_attempt` that answered yes. */
  predicate Finished(w: World, events: seq<Event>, i: nat, l: Lease, r: UploadedPart) {
    i < |events| && events[i] == EvComplete(l, r) && ValidCurrent(Before(w, events, i), l, {Finalizing})
  }

  lemma RungsBetween(w: World, events: seq<Event>, i: nat, j: nat, id: Id)
    requires Inv(w) && i <= j <= |events| && id in w.tasks
    ensures id in Before(w, events, i).tasks && id in Before(w, events, j).tasks
    ensures Rank(Before(w, events, j).tasks[id]) <= Rank(Before(w, events, i).tasks[id])
  {
    BetweenOnward(w, events, 0, i);
    BetweenOnward(w, events, i, j);
    assert events[..0] == [];
  }

  lemma GrantOnce(w: World, events: seq<Event>, i: nat, j: nat, l: Lease, m: Lease)
    requires Inv(w) && l.taskId == m.taskId && l.taskId in w.tasks
    requires Granted(w, events, i, l) && Granted(w, events, j, m)
    ensures i == j && l == m
  {
    hide Inv, Run;
    if i > j { GrantOnce(w, events, j, i, m, l); }
    else if i < j {
      BeforeNext(w, events, i);
      RungsBetween(w, events, i + 1, j, l.taskId);
    }
  }

  lemma CompletedRank(w: World, l: Lease, r: UploadedPart)
    requires Inv(w) && ValidCurrent(w, l, {Finalizing})
    ensures l.taskId in CompleteAttempt(w, l, r).tasks && Rank(CompleteAttempt(w, l, r).tasks[l.taskId]) == 0
  {
    CompleteIs(w, l, r);
  }

  lemma CompleteOnce(w: World, events: seq<Event>, i: nat, j: nat, l: Lease, m: Lease, r: UploadedPart, s: UploadedPart)
    requires Inv(w) && l.taskId == m.taskId && l.taskId in w.tasks
    requires Finished(w, events, i, l, r) && Finished(w, events, j, m, s)
    ensures i == j && l == m && r == s
  {
    hide Inv, CompleteAttempt, Run;
    if i > j { CompleteOnce(w, events, j, i, m, l, s, r); }
    else if i < j {
      BeforeNext(w, events, i);
      BeforeInv(w, events, i);
      CompletedRank(Before(w, events, i), l, r);
      RungsBetween(w, events, i + 1, j, l.taskId);
    }
  }

  lemma QuietFinalizing(v: World, v': World, l: Lease)
    requires Quiet(v, v') && ValidCurrent(v', l, {Finalizing})
    ensures ValidCurrent(v, l, {Finalizing})
  {
    assert Calm(v.tasks[l.taskId], v'.tasks[l.taskId]);
    assert Evolves(v.tasks[l.taskId], v'.tasks[l.taskId]);
  }

  lemma CompleteFinalizing(v: World, m: Lease, r: UploadedPart, l: Lease)
    requires Inv(v) && ValidCurrent(CompleteAttempt(v, m, r), l, {Finalizing})
    ensures ValidCurrent(v, l, {Finalizing})
  {
    if ValidCurrent(v, m, {Finalizing}) { CompleteIs(v, m, r); }
  }

  /** The only way into FINALIZING is `grant_finalize` with the current lease. */
  lemma NewFinalizing(v: World, e: Event, l: Lease)
    requires Inv(v) && ValidCurrent(Step(v, e), l, {Finalizing})
    ensures ValidCurrent(v, l, {Finalizing}) || (e == EvGrant(l) && ValidCurrent(v, l, {Active}))
  {
    if e.EvComplete? {
      CompleteFinalizing(v, e.lease, e.result, l);
    } else if !e.EvGrant? {
      StepQuiet(v, e);
      QuietFinalizing(v, Step(v, e), l);
    }
  }

  /** The only way to a result is `complete_attempt` with the current lease. */
  lemma NewResult(v: World, e: Event, id: Id)
    requires Inv(v) && id in v.tasks && id in Step(v, e).tasks && Step(v, e).tasks[id].result.Some?
    ensures v.tasks[id].result == Step(v, e).tasks[id].result
      || (e.EvComplete? && e.lease.taskId == id && ValidCurrent(v, e.lease, {Finalizing})
          && Step(v, e).tasks[id].result == Some(e.result))
  {
    if e.EvComplete? {
      if ValidCurrent(v, e.lease, {Finalizing}) { CompleteIs(v, e.lease, e.result); }
    } else if !e.EvGrant? {
      StepQuiet(v, e);
      assert Calm(v.tasks[id], Step(v, e).tasks[id]);
      assert Evolves(v.tasks[id], Step(v, e).tasks[id]);
    }
  }

  /** A segment that is finalizing was granted that permission, for exactly the
      attempt and account it now runs as. */
  lemma {:induction false} FinalizingWasGranted(w: World, events: seq<Event>, l: Lease) returns (i: nat)
    requires Inv(w) && l.taskId in w.tasks && !w.tasks[l.taskId].state.Finalizing?
    requires ValidCurrent(Run(w, events), l, {Finalizing})
    ensures Granted(w, events, i, l)
    decreases |events|
  {
    hide Inv, Step;
    var n := |events| - 1;
    var front := events[..n];
    BeforeInv(w, events, n);
    NewFinalizing(Run(w, front), events[n], l);
    if ValidCurrent(Run(w, front), l, {Finalizing}) {
      i := FinalizingWasGranted(w, front, l);
      assert front[..i] == events[..i];
    } else {
      i := n;
    }
  }

  /** A result came from one completing call. */
  lemma {:induction false} ResultWasCompleted(w: World, events: seq<Event>, id: Id) returns (j: nat, l: Lease)
    requires Inv(w) && id in w.tasks && w.tasks[id].result.None?
    requires id in Run(w, events).tasks && Run(w, events).tasks[id].result.Some?
    ensures l.taskId == id && Finished(w, events, j, l, Run(w, events).tasks[id].result.value)
    decreases |events|
  {
    hide Inv, Step;
    var n := |events| - 1;
    var front := events[..n];
    BeforeInv(w, events, n);
    RungsBetween(w, events, n, n, id);
    NewResult(Run(w, front), events[n], id);
    if Run(w, front).tasks[id].result.Some? {
      j, l := ResultWasCompleted(w, front, id);
      assert front[..j] == events[..j];
      assert Run(w, front).tasks[id].result == Run(w, events).tasks[id].result by {
        BeforeNext(w, events, n);
        StepOnward(Run(w, front), events[n]);
        assert events[..n + 1] == events;
      }
    } else {
      j, l := n, events[n].lease;
    }
  }

  /** At most one message per segment: a stored result was given by the one call
      that completed the segment, made by the one attempt that was granted
      permission to finalize, and no other grant or completion ever succeeded. */
  lemma ResultProvenance(w: World, events: seq<Event>, id: Id) returns (i: nat, j: nat, l: Lease)
    requires Inv(w) && id in w.tasks && w.tasks[id].state.Pending?
    requires id in Run(w, events).tasks && Run(w, events).tasks[id].result.Some?
    ensures l.taskId == id && i < j
    ensures Granted(w, events, i, l)
    ensures Finished(w, events, j, l, Run(w, events).tasks[id].result.value)
    ensures forall k, m :: Granted(w, events, k, m) && m.taskId == id ==> k == i && m == l
    ensures forall k, m, r :: Finished(w, events, k, m, r) && m.taskId == id ==> k == j && m == l
  {
    hide Links, AccountsKnown, Run;
    assert Phase(w.tasks[id]);
    var r := Run(w, events).tasks[id].result.value;
    j, l := ResultWasCompleted(w, events, id);
    i := FinalizingWasGranted(w, events[..j], l);
    assert events[..j][..i] == events[..i];
    forall k, m | Granted(w, events, k, m) && m.taskId == id ensures k == i && m == l {
      GrantOnce(w, events, k, i, m, l);
    }
    forall k, m, s | Finished(w, events, k, m, s) && m.taskId == id ensures k == j && m == l {
      CompleteOnce(w, events, k, j, m, l, s, r);
    }
  }

  // ------------------------------------------------------------------ stale leases

  /** What an attempt can achieve for its segment. */
  datatype Progress = Progress(
    state: SegState, attemptId: nat, account: Option<AccountId>, logical: nat, parts: set<nat>,
    migrations: nat, tried: set<AccountId>, reserved: Option<AccountId>, result: Option<UploadedPart>)

  function ProgressOf(t: Task): Progress {
    Progress(t.state, t.attemptId, t.account, t.logical, t.parts, t.migrations, t.tried, t.reserved, t.result)
  }

  /** `e` is a call made on behalf of lease `l`. */
  predicate MadeWith(e: Event, l: Lease) {
    match e
    case EvBegin(m, _) => m == l
    case EvSettled(token) => LeaseOf(token) == l
    case EvPhysical(token, _) => LeaseOf(token) == l
    case EvPart(m, _, _) => m == l
    case EvFlood(m) => m == l
    case EvCloseLease(m) => m == l
    case EvQuiesced(m) => m == l
    case EvPrepared(m) => m == l
    case EvGrant(m) => m == l
    case EvFailAttempt(m, _) => m == l
    case EvComplete(m, _) => m == l
    case EvSubmissionFailed(a, _) => ActionLease(a) == l
    case EvExecutorFinished(a, outcome) => ActionLease(a) == l && outcome.None?
    case _ => false
  }

  predicate Stale(w: World, l: Lease) {
    l.taskId in w.tasks && w.tasks[l.taskId].attemptId > l.attemptId
  }

  /** No call made with a superseded lease, an executor's report without an error included,
      changes the segment's progress, owner or result. */
  lemma StaleCallHasNoEffect(w: World, e: Event, l: Lease)
    requires Stale(w, l) && MadeWith(e, l)
    ensures l.taskId in Step(w, e).tasks
    ensures ProgressOf(Step(w, e).tasks[l.taskId]) == ProgressOf(w.tasks[l.taskId])
  {
    match e {
      case EvQuiesced(m) =>
        var t := w.tasks[l.taskId];
        CloseFrame(SetTask(w, l.taskId, t.(quiescent := t.quiescent + {l.attemptId})), l.taskId, l.attemptId);
      case EvSettled(token) =>
        if Known(w.pool, token.accountId) {
          var a := token.accountId;
          var q := SetActivity(w.pool, a, SettleRequest(w.pool.activity[a], token, Freeze(w.tracker, w.clock, a)));
          CloseFrame(SetTask(w, l.taskId, Without(w.tasks[l.taskId], token)).(pool := q), l.taskId, l.attemptId);
        }
      case EvExecutorFinished(a, outcome) =>
        var t := w.tasks[l.taskId];
        CloseFrame(SetTask(w, l.taskId, t.(quiescent := t.quiescent + {l.attemptId})), l.taskId, l.attemptId);
      case _ =>
    }
  }

  /** The one exception, and all of it: an executor's report with an error, however old its
      action, fails the whole upload. Every unfinished segment fails, and finished ones keep
      what they have. */
  lemma StaleErrorFailsTheRest(w: World, a: Action, error: string)
    requires OrderOk(w) && a.taskId in w.tasks
    ensures var v := Step(w, EvExecutorFinished(a, Some(error)));
      && v.failure == Some(error)
      && forall id | id in w.tasks :: (id in v.tasks &&
           if IsTerminal(w.tasks[id].state) then ProgressOf(v.tasks[id]) == ProgressOf(w.tasks[id])
           else v.tasks[id].state.Failed?)
  {
    var w3 := ErrorFails(w, a, error);
    hide Terminal, FailFrom, MaybeClose, ProgressOf;
    FailFromKeeps(w3, 0, error);
    forall id | id in w.tasks
      ensures id in FailFrom(w3, 0, error).tasks && EndedAs(w.tasks[id], FailFrom(w3, 0, error).tasks[id])
    {
      var i :| 0 <= i < |w.order| && w.order[i] == id;
      FailFromIs(w3, 0, error, i);
      EndedStays(w.tasks[id], w3.tasks[id], FailFrom(w3, 0, error).tasks[id]);
    }
  }

  /** The reported segment fails first; the others are as they were. */
  lemma ErrorFails(w: World, a: Action, error: string) returns (v: World)
    requires OrderOk(w) && a.taskId in w.tasks
    ensures Step(w, EvExecutorFinished(a, Some(error))) == FailFrom(v, 0, error)
    ensures v.failure == Some(error) && v.order == w.order && v.tasks.Keys == w.tasks.Keys
    ensures forall id | id in w.tasks :: v.tasks[id] == w.tasks[id] || EndedAs(w.tasks[id], v.tasks[id])
  {
    hide Terminal, FailFrom, MaybeClose, ProgressOf;
    var q := AttemptQuiesced(w, ActionLease(a));
    QuiescedKeeps(w, ActionLease(a));
    EndsOrKeeps(q, a.taskId, Some(error));
    v := Terminal(q, a.taskId, Failed, Some(error)).(failure := Some(error));
    EndedFrom(w.tasks[a.taskId], q.tasks[a.taskId], v.tasks[a.taskId]);
  }

  lemma QuiescedKeeps(w: World, l: Lease)
    requires l.taskId in w.tasks
    ensures var v := AttemptQuiesced(w, l);
      && v.order == w.order && v.tasks.Keys == w.tasks.Keys
      && ProgressOf(v.tasks[l.taskId]) == ProgressOf(w.tasks[l.taskId])
      && forall id | id in w.tasks && id != l.taskId :: v.tasks[id] == w.tasks[id]
  {
    var t := w.tasks[l.taskId];
    CloseFrame(SetTask(w, l.taskId, t.(quiescent := t.quiescent + {l.attemptId})), l.taskId, l.attemptId);
  }

  lemma EndedFrom(t: Task, u: Task, v: Task)
    requires ProgressOf(u) == ProgressOf(t) && EndedAs(u, v)
    ensures EndedAs(t, v)
  {
  }

  lemma EndedStays(t: Task, u: Task, v: Task)
    requires u == t || EndedAs(t, u)
    requires EndedAs(u, v)
    ensures EndedAs(t, v)
  {
  }

  /** What an error makes of a segment. */
  predicate EndedAs(t: Task, u: Task) {
    if IsTerminal(t.state) then ProgressOf(u) == ProgressOf(t) else u.state.Failed?
  }

  lemma EndsOrKeeps(w: World, id: Id, error: Option<string>)
    requires id in w.tasks
    ensures var v := Terminal(w, id, Failed, error);
      && v.tasks.Keys == w.tasks.Keys && v.failure == w.failure && EndedAs(w.tasks[id], v.tasks[id])
      && forall j | j in w.tasks && j != id :: v.tasks[j] == w.tasks[j]
  {
    if !IsTerminal(w.tasks[id].state) { TerminalFrame(w, id, Failed, error); }
  }

  lemma {:induction false} FailFromKeeps(w: World, i: nat, error: string)
    ensures FailFrom(w, i, error).failure == w.failure && FailFrom(w, i, error).tasks.Keys == w.tasks.Keys
    decreases |w.order| - i
  {
    if i < |w.order| && w.order[i] in w.tasks {
      EndsOrKeeps(w, w.order[i], Some(error));
      FailFromKeeps(Terminal(w, w.order[i], Failed, Some(error)), i + 1, error);
    }
  }

  /** Every segment from place `i` of the order on is ended, whatever the ones before are. */
  lemma {:induction false} FailFromIs(w: World, i: nat, error: string, k: nat)
    requires k < |w.order| && forall j | 0 <= j < |w.order| :: w.order[j] in w.tasks
    ensures w.order[k] in FailFrom(w, i, error).tasks
    ensures IsTerminal(w.tasks[w.order[k]].state) || i <= k ==>
      EndedAs(w.tasks[w.order[k]], FailFrom(w, i, error).tasks[w.order[k]])
    decreases |w.order| - i
  {
    FailFromKeeps(w, i, error);
    if i < |w.order| {
      hide Terminal;
      EndsOrKeeps(w, w.order[i], Some(error));
      FailFromIs(Terminal(w, w.order[i], Failed, Some(error)), i + 1, error, k);
    }
  }

  /** Event `i` committed a migration of `id`. */
  predicate Committed(w: World, events: seq<Event>, i: nat, id: Id) {
    && i < |events|
    && id in Before(w, events, i).tasks && id in Before(w, events, i + 1).tasks
    && Before(w, events, i).tasks[id].migrations == 0 && Before(w, events, i + 1).tasks[id].migrations == 1
  }

  /** From the commit of a migration on, for the rest of any run, no call made with
      the first attempt's lease changes the segment's progress, owner or result,
      and the first attempt gains no RPC in flight. */
  lemma MigrationFencesOldLease(w: World, events: seq<Event>, i: nat, k: nat, fenced: Lease)
    requires Inv(w) && fenced.attemptId == 1 && i < k < |events|
    requires Committed(w, events, i, fenced.taskId)
    requires MadeWith(events[k], fenced)
    ensures var id := fenced.taskId;
      && id in Before(w, events, k).tasks && id in Before(w, events, k + 1).tasks
      && ProgressOf(Before(w, events, k + 1).tasks[id]) == ProgressOf(Before(w, events, k).tasks[id])
      && InFlight(Before(w, events, k + 1).tasks[id], 1) <= InFlight(Before(w, events, i + 1).tasks[id], 1)
  {
    hide Inv, Step, Run;
    var id := fenced.taskId;
    SecondForever(w, events, i + 1, k, id);
    SecondForever(w, events, i + 1, k + 1, id);
    BeforeNext(w, events, k);
    StaleCallHasNoEffect(Before(w, events, k), events[k], fenced);
  }

  lemma SecondForever(w: World, events: seq<Event>, i: nat, k: nat, id: Id)
    requires Inv(w) && i <= k <= |events|
    requires id in Before(w, events, i).tasks && Before(w, events, i).tasks[id].migrations == 1
    ensures id in Before(w, events, k).tasks && Before(w, events, k).tasks[id].attemptId == 2
    ensures InFlight(Before(w, events, k).tasks[id], 1) <= InFlight(Before(w, events, i).tasks[id], 1)
  {
    BetweenOnward(w, events, i, k);
    BeforeInv(w, events, i);
    BeforeInv(w, events, k);
    var t, u := Before(w, events, i).tasks[id], Before(w, events, k).tasks[id];
    assert Evolves(t, u) && Phase(t) && Phase(u);
  }

  // ------------------------------------------------------------ drain before replace

  /** In every world of every run: a second attempt runs only behind a first one
      that has no RPC in flight, whose executor is quiescent and whose lease is
      closed; and a segment's lease is a job of exactly one account. */
  lemma DrainBeforeReplace(w: World, events: seq<Event>, id: Id)
    requires Inv(w) && id in Run(w, events).tasks
    ensures var v := Run(w, events); var t := v.tasks[id];
      (t.state.Active? || t.state.Finalizing?) && t.attemptId == 2 ==>
        && InFlight(t, 1) == {} && 1 in t.quiescent
        && (t.owned.Some? ==> t.owned.value.attemptId == 2)
        && (forall a | a in v.pool.activity && id in v.pool.activity[a].jobs :: t.owned.Some? && t.account == Some(a))
  {
    RunKeepsInv(w, events);
    assert Phase(Run(w, events).tasks[id]);
  }

  /** A finished segment keeps an account busy only while the attempt that took the
      lease still has an RPC in flight or an executor that has not come to rest. */
  lemma FinishedSegmentReturnsLease(w: World, events: seq<Event>, id: Id)
    requires Inv(w) && id in Run(w, events).tasks && IsTerminal(Run(w, events).tasks[id].state)
    ensures var v := Run(w, events); var t := v.tasks[id];
      forall a | a in v.pool.activity ::
        && v.pool.activity[a].reserved != Some(id)
        && (id in v.pool.activity[a].jobs ==>
              t.owned.Some? && t.owned.value.accountId == a
              && (InFlight(t, t.owned.value.attemptId) != {} || t.owned.value.attemptId !in t.quiescent))
  {
    RunKeepsInv(w, events);
    var v := Run(w, events);
    assert Ended(v.tasks[id]) by { assert Phase(v.tasks[id]); }
    assert LeaseLinks(v) && ReserveLinks(v);
  }

  /** In every world of every run, an idle account has nothing of this scheduler's
      in flight, and what is reserved, leased and free adds up on every account. */
  lemma AccountsAddUp(w: World, events: seq<Event>, a: AccountId)
    requires Inv(w) && a in Run(w, events).pool.runtimes
    ensures var v := Run(w, events);
      && a in v.pool.activity
      && v.pool.runtimes[a].free + |v.pool.activity[a].jobs| == v.pool.capacity
      && (forall id | id in v.tasks ::
            && (id in v.pool.activity[a].jobs <==> v.tasks[id].owned.Some? && v.tasks[id].owned.value.accountId == a)
            && (v.pool.activity[a].reserved == Some(id)
                <==> v.tasks[id].state.Migrating? && v.tasks[id].reserved == Some(a)))
      && (v.pool.activity[a].reserved.Some? ==> v.pool.runtimes[a].free == v.pool.capacity)
      && (v.pool.activity[a].snapshot.Some? ==>
            forall id, k, tok | id in v.tasks && tok in InFlight(v.tasks[id], k) :: tok.accountId != a)
  {
    RunKeepsInv(w, events);
    var v := Run(w, events);
    assert AccountOk(v.pool, a);
    forall id | id in v.tasks
      ensures v.pool.activity[a].reserved == Some(id)
        <==> v.tasks[id].state.Migrating? && v.tasks[id].reserved == Some(a)
    {
      assert Phase(v.tasks[id]);
    }
  }

  /** Activating a reservation fails only when the account went off line. */
  lemma ReservationsAreHonoured(w: World, events: seq<Event>, id: Id)
    requires Inv(w) && id in Run(w, events).tasks && ReplacementReady(Run(w, events).tasks[id])
    ensures var v := Run(w, events); var t := v.tasks[id];
      && t.reserved.Some? && Known(v.pool, t.reserved.value)
      && (ActivateReplacement(v, id).1 ==
            if Eligible(v.pool.runtimes[t.reserved.value]) then Some(Action(id, t.reserved.value, 2, true)) else None)
      && (!Eligible(v.pool.runtimes[t.reserved.value]) ==> ActivateReplacement(v, id).0.tasks[id].state.Failed?)
  {
    RunKeepsInv(w, events);
    var v := Run(w, events);
    assert Phase(v.tasks[id]);
    ReplacementIs(v, id);
    InvMaybeClose(v, id, 1);
    ReservationHasSlot(v, id);
    SameStatus(v, id);
    HonouredIffEligible(MaybeClose(v, id, 1), id);
  }

  lemma HonouredIffEligible(w: World, id: Id)
    requires Inv(w) && id in w.tasks && Drained(w.tasks[id])
    ensures var a := w.tasks[id].reserved; a.Some? && Known(w.pool, a.value)
    ensures var a := w.tasks[id].reserved.value;
      && (UseReservation(w, id).1 == if Eligible(w.pool.runtimes[a]) then Some(Action(id, a, 2, true)) else None)
      && (!Eligible(w.pool.runtimes[a]) ==> UseReservation(w, id).0.tasks[id].state.Failed?)
  {
    assert Phase(w.tasks[id]);
    ReservationHasSlot(w, id);
    RefusedIs(w, id, Some(REFUSED));
    TerminalFrame(w, id, Failed, Some(REFUSED));
  }

  lemma SameStatus(w: World, id: Id)
    requires id in w.tasks
    ensures forall a | a in w.pool.runtimes ::
      a in MaybeClose(w, id, 1).pool.runtimes
      && (Eligible(MaybeClose(w, id, 1).pool.runtimes[a]) <==> Eligible(w.pool.runtimes[a]))
  {
  }
}
