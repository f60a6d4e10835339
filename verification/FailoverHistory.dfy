/** What one event may do to one segment: the one-way street every segment walks. */
module FailoverHistory {
  import opened Foundations
  import opened FailoverModel
  import opened FailoverInvariant
  import opened FailoverPreserved
  import opened FailoverSafety

  /** Every change of state goes down this ladder. */
  function Rank(t: Task): nat {
    match t.state
    case Pending => 5
    case Active => if t.migrations == 0 then 4 else 2
    case Migrating => 3
    case Finalizing => 1
    case Completed => 0
    case Failed => 0
  }

  ghost predicate Evolves(t: Task, u: Task) {
    && Rank(u) <= Rank(t)
    && (Rank(u) == Rank(t) ==>
          u.state == t.state && u.attemptId == t.attemptId && u.account == t.account
          && u.migrations == t.migrations && u.result == t.result)
    && t.attemptId <= u.attemptId && t.migrations <= u.migrations
    && t.tried <= u.tried && t.quiescent <= u.quiescent
    && u.index == t.index && u.size == t.size
    && (t.logical <= u.logical || t.migrations < u.migrations)
    && (t.result.Some? ==> u.result == t.result)
    && (forall k: nat :: k < t.attemptId ==> InFlight(u, k) <= InFlight(t, k))
  }

  /** Neither the permission to finalize nor a result appears. */
  predicate Calm(t: Task, u: Task) {
    && (u.state.Finalizing? ==> t.state.Finalizing?)
    && (u.result.Some? ==> t.result.Some?)
  }

  ghost predicate Onward(w: World, w': World) {
    && w'.order == w.order && w'.tasks.Keys == w.tasks.Keys
    && forall id | id in w.tasks :: Evolves(w.tasks[id], w'.tasks[id])
  }

  ghost predicate Quiet(w: World, w': World) {
    Onward(w, w') && forall id | id in w.tasks :: Calm(w.tasks[id], w'.tasks[id])
  }

  /** No byte count moves: not the segment's, not the counters'. Only a segment
      without progress may take up its next attempt. */
  predicate SameBooks(t: Task, u: Task) {
    && u.logical == t.logical && u.parts == t.parts
    && t.attemptId <= u.attemptId
    && (t.attemptId < u.attemptId ==> t.parts == {})
  }

  ghost predicate Still(w: World, w': World) {
    && Quiet(w, w')
    && w'.tracker == w.tracker && w'.physical == w.physical && w'.abandoned == w.abandoned
    && forall id | id in w.tasks :: SameBooks(w.tasks[id], w'.tasks[id])
  }

  lemma StillTrans(w: World, v: World, u: World)
    requires Still(w, v) && Still(v, u)
    ensures Still(w, u)
  {
    OnwardTrans(w, v, u);
  }

  lemma StillOne(w: World, w': World, id: Id, t: Task)
    requires id in w.tasks && w'.order == w.order && w'.tasks == w.tasks[id := t]
    requires w'.tracker == w.tracker && w'.physical == w.physical && w'.abandoned == w.abandoned
    requires Evolves(w.tasks[id], t) && Calm(w.tasks[id], t) && SameBooks(w.tasks[id], t)
    ensures Still(w, w')
  {
  }

  lemma StillSame(w: World, w': World)
    requires w'.order == w.order && w'.tasks == w.tasks
    requires w'.tracker == w.tracker && w'.physical == w.physical && w'.abandoned == w.abandoned
    ensures Still(w, w')
  {
  }

  lemma EvolvesTrans(t: Task, u: Task, v: Task)
    requires Evolves(t, u) && Evolves(u, v)
    ensures Evolves(t, v)
  {
    forall k: nat | k < t.attemptId ensures InFlight(v, k) <= InFlight(t, k) {
      assert InFlight(u, k) <= InFlight(t, k);
    }
  }

  lemma OnwardTrans(w: World, v: World, u: World)
    requires Onward(w, v) && Onward(v, u)
    ensures Onward(w, u)
    ensures Quiet(w, v) && Quiet(v, u) ==> Quiet(w, u)
  {
    forall id | id in w.tasks ensures Evolves(w.tasks[id], u.tasks[id]) {
      EvolvesTrans(w.tasks[id], v.tasks[id], u.tasks[id]);
    }
  }

  lemma QuietOne(w: World, w': World, id: Id, t: Task)
    requires id in w.tasks && w'.order == w.order && w'.tasks == w.tasks[id := t]
    requires Evolves(w.tasks[id], t) && Calm(w.tasks[id], t)
    ensures Quiet(w, w')
  {
  }

  lemma QuietSame(w: World, w': World)
    requires w'.order == w.order && w'.tasks == w.tasks
    ensures Quiet(w, w')
  {
  }

  lemma StillMaybeClose(w: World, id: Id, attempt: nat)
    requires id in w.tasks
    ensures Still(w, MaybeClose(w, id, attempt))
    ensures Still(w, CloseOwned(w, id))
  {
    StillOne(w, CloseOwned(w, id), id, CloseOwned(w, id).tasks[id]) by {
      assert w.tasks[id := w.tasks[id]] == w.tasks;
    }
    StillSame(w, w);
  }

  lemma StillFail(w: World, id: Id, error: Option<string>)
    requires Inv(w) && id in w.tasks
    ensures Still(w, Terminal(w, id, Failed, error))
  {
    hide OrderOk, Links, AccountsKnown;
    if IsTerminal(w.tasks[id].state) {
      StillSame(w, w);
    } else {
      assert Phase(w.tasks[id]);
      TerminalFrame(w, id, Failed, error);
      StillOne(w, Terminal(w, id, Failed, error), id, Terminal(w, id, Failed, error).tasks[id]);
    }
  }

  lemma StillStart(w: World, p: Pool, id: Id, a: AccountId)
    requires Inv(w) && id in w.tasks && w.tasks[id].state.Pending?
    ensures Still(w, Install(w.(pool := p), id, a, 1))
  {
    assert Phase(w.tasks[id]);
    StillOne(w, Install(w.(pool := p), id, a, 1), id, Installed(w.tasks[id], w.clock, a, 1));
  }

  lemma StillReplacement(w: World, id: Id)
    requires Inv(w) && id in w.tasks
    ensures Still(w, ActivateReplacement(w, id).0)
  {
    if ReplacementReady(w.tasks[id]) {
      InvMaybeClose(w, id, 1);
      ReplacementIs(w, id);
      StillReplace(MaybeClose(w, id, 1), id);
      StillMaybeClose(w, id, 1);
      StillTrans(w, MaybeClose(w, id, 1), ActivateReplacement(w, id).0);
    } else {
      StillSame(w, w);
    }
  }

  lemma StillReplace(w: World, id: Id)
    requires Inv(w) && id in w.tasks && Drained(w.tasks[id])
    ensures Still(w, UseReservation(w, id).0)
  {
    hide OrderOk, Links, AccountsKnown;
    var t := w.tasks[id];
    assert Phase(t);
    var target := t.reserved.value;
    if CanActivate(w.pool, target, id) {
      var u := t.(reserved := None, draining := None);
      InstallIs(w, id, u, target, 2, ActivateReservation(w.pool, target, id));
      StillOne(w, UseReservation(w, id).0, id, Installed(u, w.clock, target, 2));
    } else {
      RefusedIs(w, id, Some(REFUSED));
      StillFail(w, id, Some(REFUSED));
    }
  }

  lemma {:induction false} StillReplacements(w: World, i: nat)
    requires Inv(w)
    ensures Still(w, ActivateReplacements(w, i).0)
    decreases |w.order| - i
  {
    hide Links, Phases, AccountsKnown, ActivateReplacement, Still;
    if i < |w.order| {
      var w1 := ActivateReplacement(w, w.order[i]).0;
      StillReplacement(w, w.order[i]);
      if ActivateReplacement(w, w.order[i]).1.None? {
        InvActivateReplacement(w, w.order[i]);
        StillReplacements(w1, i + 1);
      }
      StillReplacementsStep(w, i);
    } else {
      StillSame(w, w);
    }
  }

  lemma StillReplacementsStep(w: World, i: nat)
    requires i < |w.order| && w.order[i] in w.tasks
    requires Still(w, ActivateReplacement(w, w.order[i]).0)
    requires ActivateReplacement(w, w.order[i]).1.None? ==>
      Still(ActivateReplacement(w, w.order[i]).0, ActivateReplacements(ActivateReplacement(w, w.order[i]).0, i + 1).0)
    ensures Still(w, ActivateReplacements(w, i).0)
  {
    var w1 := ActivateReplacement(w, w.order[i]).0;
    if ActivateReplacement(w, w.order[i]).1.None? { StillTrans(w, w1, ActivateReplacements(w1, i + 1).0); }
  }

  lemma {:induction false} StillStartPending(w: World, i: nat)
    requires Inv(w)
    ensures Still(w, StartPending(w, i).0)
    decreases |w.order| - i
  {
    StillSame(w, w);
    if i < |w.order| {
      var id := w.order[i];
      match AcquireFrom(w.pool, id, 0) {
        case Some((p, a)) =>
          if w.tasks[id].state.Pending? { StillStart(w, p, id, a); } else { StillStartPending(w, i + 1); }
        case None => StillStartPending(w, i + 1);
      }
    }
  }

  lemma QuietCommit(w: World, a: AccountId, id: Id)
    requires Inv(w)
    ensures Quiet(w, CommitMigration(w, a, id))
  {
    QuietSame(w, w);
    if Migratable(w, a, id) && CanReserve(w.pool, a, w.clock) {
      assert Phase(w.tasks[id]);
      QuietOne(w, CommitMigration(w, a, id), id, Migrated(w.tasks[id], a));
    }
  }

  lemma QuietSelect(w: World)
    requires Inv(w)
    ensures Quiet(w, Select(w).0)
  {
    hide Inv, Evolves, Calm, ActivateReplacements, CommitMigration, StartPending, Best;
    QuietSame(w, w);
    if w.failure.None? {
      var (w1, a1) := ActivateReplacements(w, 0);
      StillReplacements(w, 0);
      if a1.None? {
        InvReplacements(w, 0);
        QuietAfterReplacements(w1);
        OnwardTrans(w, w1, SelectTail(w1).0);
      }
    }
  }

  /** What `Select` does once no replacement is ready. */
  function SelectTail(w: World): (World, Option<Action>) {
    match Best(w, 0, None)
    case Some(b) => (CommitMigration(w, b.account, b.id), None)
    case None => StartPending(w, 0)
  }

  lemma QuietAfterReplacements(w: World)
    requires Inv(w)
    ensures Quiet(w, SelectTail(w).0)
  {
    match Best(w, 0, None) {
      case Some(b) => QuietCommit(w, b.account, b.id);
      case None => StillStartPending(w, 0);
    }
  }

  lemma {:induction false} StillFailFrom(w: World, i: nat, error: string)
    requires Inv(w)
    ensures Still(w, FailFrom(w, i, error))
    decreases |w.order| - i
  {
    hide Links, Phase, Terminal, Still;
    StillSame(w, w);
    if i < |w.order| {
      var w1 := Terminal(w, w.order[i], Failed, Some(error));
      InvFail(w, w.order[i], Some(error));
      StillFail(w, w.order[i], Some(error));
      StillFailFrom(w1, i + 1, error);
      StillTrans(w, w1, FailFrom(w1, i + 1, error));
    }
  }

  lemma StillQuiesced(w: World, l: Lease)
    ensures Still(w, AttemptQuiesced(w, l))
  {
    StillSame(w, w);
    if l.taskId in w.tasks {
      var t := w.tasks[l.taskId];
      var t1 := t.(quiescent := t.quiescent + {l.attemptId});
      StillOne(w, SetTask(w, l.taskId, t1), l.taskId, t1);
      StillMaybeClose(SetTask(w, l.taskId, t1), l.taskId, l.attemptId);
      StillTrans(w, SetTask(w, l.taskId, t1), AttemptQuiesced(w, l));
    }
  }

  lemma StillSettled(w: World, token: Token)
    ensures Still(w, RequestSettled(w, token))
  {
    StillSame(w, w);
    if Known(w.pool, token.accountId) {
      var a := token.accountId;
      var q := SetActivity(w.pool, a, SettleRequest(w.pool.activity[a], token, Freeze(w.tracker, w.clock, a)));
      if token.taskId in w.tasks {
        var id := token.taskId;
        var t1 := Without(w.tasks[id], token);
        StillOne(w, SetTask(w, id, t1).(pool := q), id, t1);
        StillMaybeClose(SetTask(w, id, t1).(pool := q), id, token.attemptId);
        StillTrans(w, SetTask(w, id, t1).(pool := q), RequestSettled(w, token));
      } else {
        StillSame(w, RequestSettled(w, token));
      }
    }
  }

  lemma StillExecutor(w: World, a: Action, outcome: Option<string>)
    requires Inv(w)
    ensures Still(w, ExecutorFinished(w, a, outcome))
  {
    StillSame(w, w);
    if a.taskId in w.tasks {
      var w1 := AttemptQuiesced(w, ActionLease(a));
      InvQuiesced(w, ActionLease(a));
      StillQuiesced(w, ActionLease(a));
      match outcome {
        case Some(e) =>
          var w2 := Terminal(w1, a.taskId, Failed, outcome).(failure := outcome);
          InvFailWith(w1, a.taskId, outcome);
          StillFail(w1, a.taskId, outcome);
          StillTrans(w, w1, w2);
          StillFailFrom(w2, 0, e);
          StillTrans(w, w2, FailFrom(w2, 0, e));
        case None =>
          var w2 := Terminal(w1, a.taskId, Failed, Some(NO_OUTCOME)).(failure := Some(NO_OUTCOME));
          InvFailWith(w1, a.taskId, Some(NO_OUTCOME));
          StillFail(w1, a.taskId, Some(NO_OUTCOME));
          StillTrans(w, w1, w2);
      }
    }
  }

  lemma StillSubmission(w: World, a: Action, error: string)
    requires Inv(w)
    ensures Still(w, SubmissionFailed(w, a, error))
  {
    StillSame(w, w);
    if a.taskId in w.tasks {
      var w1 := Terminal(w, a.taskId, Failed, Some(error));
      InvFail(w, a.taskId, Some(error));
      StillFail(w, a.taskId, Some(error));
      StillQuiesced(w1, ActionLease(a));
      StillTrans(w, w1, AttemptQuiesced(w1, ActionLease(a)));
    }
  }

  lemma StillBegin(w: World, l: Lease, part: nat)
    ensures Still(w, BeginRequest(w, l, part))
  {
    StillSame(w, w);
    if ValidCurrent(w, l, {Active}) {
      var t := w.tasks[l.taskId];
      var t1 := t.(inFlight := t.inFlight[l.attemptId := InFlight(t, l.attemptId) + {NextToken(w, l, part)}]);
      StillOne(w, BeginRequest(w, l, part), l.taskId, t1);
    }
  }

  lemma QuietPart(w: World, l: Lease, part: nat, bytes: nat)
    requires Inv(w)
    ensures Quiet(w, PartSucceeded(w, l, part, bytes))
  {
    QuietSame(w, w);
    if ValidCurrent(w, l, {Active}) && part !in w.tasks[l.taskId].parts {
      assert Phase(w.tasks[l.taskId]);
      QuietOne(w, PartSucceeded(w, l, part, bytes), l.taskId, Credited(w.tasks[l.taskId], part, bytes));
    }
  }

  lemma StillFlood(w: World, l: Lease)
    ensures Still(w, PremiumFlood(w, l))
  {
    StillSame(w, w);
    if ValidCurrent(w, l, {Active}) {
      StillOne(w, PremiumFlood(w, l), l.taskId, w.tasks[l.taskId].(floodAt := Some(w.clock)));
    }
  }

  lemma StillLeaseGivenBack(w: World, l: Lease)
    ensures Still(w, BytesPrepared(w, l))
    ensures Still(w, CloseActiveUploadLease(w, l))
  {
    StillSame(w, w);
    if l.taskId in w.tasks { StillMaybeClose(w, l.taskId, 0); }
  }

  // ---------------------------------------------------------------- every event

  lemma AttemptCallQuiet(w: World, e: Event)
    requires Inv(w) && AttemptCall(e) && !e.EvGrant?
    ensures Quiet(w, Step(w, e))
  {
    match e {
      case EvBegin(l, part) => StillBegin(w, l, part);
      case EvSettled(token) => StillSettled(w, token);
      case EvPhysical(token, bytes) => QuietSame(w, Step(w, e));
      case EvPart(l, part, bytes) => QuietPart(w, l, part, bytes);
      case EvFlood(l) => StillFlood(w, l);
      case EvCloseLease(l) => StillLeaseGivenBack(w, l);
      case EvQuiesced(l) => StillQuiesced(w, l);
      case EvPrepared(l) => StillLeaseGivenBack(w, l);
    }
  }

  lemma DecisionCallQuiet(w: World, e: Event)
    requires Inv(w) && DecisionCall(e) && !e.EvComplete?
    ensures Quiet(w, Step(w, e))
  {
    hide Inv, Quiet, Terminal, Select, SubmissionFailed, ExecutorFinished;
    QuietSame(w, w);
    match e {
      case EvActivate(id, account) =>
        if id in w.tasks && w.tasks[id].state.Pending? {
          match TryAcquire(w.pool, Resolve(w.pool, account), id) {
            case Some(p) => StillStart(w, p, id, Resolve(w.pool, account));
            case None =>
          }
        }
      case EvCommit(a, id) => QuietCommit(w, a, id);
      case EvFailAttempt(l, err) => if l.taskId in w.tasks { StillFail(w, l.taskId, Some(err)); }
      case EvFailTask(id, err) => if id in w.tasks { StillFail(w, id, Some(err)); }
      case EvSelect => QuietSelect(w);
      case EvSubmissionFailed(a, err) => StillSubmission(w, a, err);
      case EvExecutorFinished(a, outcome) => StillExecutor(w, a, outcome);
    }
  }

  lemma OtherQuiet(w: World, e: Event)
    requires Inv(w)
    ensures Quiet(w, StepOther(w, e))
  {
    hide Inv, Quiet;
    QuietSame(w, w);
    match e {
      case OtherSettled(token) => StillSettled(w, token);
      case _ => QuietSame(w, StepOther(w, e));
    }
  }

  /** Only `grant_finalize` and `complete_attempt` are not quiet. */
  lemma StepQuiet(w: World, e: Event)
    requires Inv(w) && !e.EvGrant? && !e.EvComplete?
    ensures Quiet(w, Step(w, e))
  {
    if AttemptCall(e) {
      AttemptCallQuiet(w, e);
    } else if DecisionCall(e) {
      DecisionCallQuiet(w, e);
    } else if e.Tick? {
      QuietSame(w, Step(w, e));
    } else {
      OtherQuiet(w, e);
    }
  }

  lemma CompleteIs(w: World, l: Lease, result: UploadedPart)
    requires Inv(w) && ValidCurrent(w, l, {Finalizing})
    ensures var w' := CompleteAttempt(w, l, result); var id := l.taskId;
      && w' == w.(tasks := w'.tasks, pool := w'.pool) && w'.tasks == w.tasks[id := w'.tasks[id]]
      && w'.tasks[id] == w.tasks[id].(result := Some(result), state := Completed, account := None, error := None,
                                     reserved := None, owned := w'.tasks[id].owned)
  {
    var id := l.taskId;
    var t := w.tasks[id].(result := Some(result));
    var w1 := SetTask(w, id, t);
    TerminalFrame(w1, id, Completed, None);
    var w2 := Terminal(w1, id, Completed, None);
    UpdateTwice(w.tasks, w1.tasks, w2.tasks, id, t, w2.tasks[id]);
  }

  lemma GrantOnward(w: World, l: Lease)
    requires Inv(w)
    ensures Onward(w, GrantFinalize(w, l))
  {
    QuietSame(w, w);
    if ValidCurrent(w, l, {Active}) {
      assert Phase(w.tasks[l.taskId]);
      assert Evolves(w.tasks[l.taskId], w.tasks[l.taskId].(state := Finalizing));
    }
  }

  lemma CompleteOnward(w: World, l: Lease, result: UploadedPart)
    requires Inv(w)
    ensures Onward(w, CompleteAttempt(w, l, result))
  {
    hide OrderOk, Links, AccountsKnown;
    QuietSame(w, w);
    if ValidCurrent(w, l, {Finalizing}) {
      CompleteIs(w, l, result);
      assert Phase(w.tasks[l.taskId]);
      assert Evolves(w.tasks[l.taskId], CompleteAttempt(w, l, result).tasks[l.taskId]);
    }
  }

  /** Every event moves every segment down the ladder or leaves it on its rung. */
  lemma StepOnward(w: World, e: Event)
    requires Inv(w)
    ensures Onward(w, Step(w, e))
  {
    if e.EvGrant? {
      GrantOnward(w, e.lease);
    } else if e.EvComplete? {
      CompleteOnward(w, e.lease, e.result);
    } else {
      StepQuiet(w, e);
    }
  }
}
