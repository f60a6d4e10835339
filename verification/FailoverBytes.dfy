/** Byte accounting: what was sent covers what counts and what was given up. */
module FailoverBytes {
  import opened Foundations
  import opened FailoverModel
  import opened FailoverInvariant
  import opened FailoverPreserved
  import opened FailoverSafety
  import opened FailoverHistory
  import opened FailoverRuns
  import opened FailoverSelection
  import opened SplitPlan

  function LogicalOf(w: World): map<Id, nat> { map id | id in w.tasks :: w.tasks[id].logical }

  /** `metrics_snapshot`: bytes sent beyond the bytes that count. */
  ghost function Overhead(w: World): nat { Max(0, w.physical - Total(LogicalOf(w))) }

  /** The part's bytes were counted as sent, on a token of this lease. */
  ghost predicate Sent(w: World, l: Lease, part: nat, bytes: nat) {
    exists tok :: tok in w.tracker.recorded && LeaseOf(tok) == l && tok.part == part && bytes <= w.tracker.recorded[tok]
  }

  /** The observer reports a part as done only after counting its bytes as sent. */
  ghost predicate Disciplined(w: World, e: Event) {
    e.EvPart? ==> Sent(w, e.lease, e.part, e.bytes)
  }

  ghost predicate DisciplinedRun(w: World, events: seq<Event>)
    decreases |events|
  {
    events == [] || (DisciplinedRun(w, events[..|events| - 1])
                     && Disciplined(Run(w, events[..|events| - 1]), events[|events| - 1]))
  }

  ghost predicate KeyOk(w: World, key: PartKey) {
    && key in w.tracker.effective
    && (exists tok ::
          tok in w.tracker.recorded && KeyOf(tok) == key && w.tracker.effective[key] <= w.tracker.recorded[tok])
    && (key.taskId in w.tasks ==>
          && key.attemptId <= w.tasks[key.taskId].attemptId
          && (key.attemptId == w.tasks[key.taskId].attemptId ==> key.part in w.tasks[key.taskId].parts))
  }

  /** What the shared tracker holds of this scheduler's segments. */
  function OwnParts(w: World): map<PartKey, nat> {
    map k | k in w.tracker.effective && k.taskId in w.tasks :: w.tracker.effective[k]
  }

  function OwnSent(w: World): map<Token, nat> {
    map t | t in w.tracker.recorded && t.taskId in w.tasks :: w.tracker.recorded[t]
  }

  ghost predicate Books(w: World) {
    && w.physical >= Total(OwnSent(w))
    && Total(LogicalOf(w)) + w.abandoned <= Total(OwnParts(w))
    && forall key | key in OwnParts(w) :: KeyOk(w, key)
  }

  lemma StillBooks(w: World, w': World)
    requires Books(w) && Still(w, w')
    ensures Books(w')
  {
    assert LogicalOf(w') == LogicalOf(w) && OwnParts(w') == OwnParts(w) && OwnSent(w') == OwnSent(w);
    forall key | key in OwnParts(w') ensures KeyOk(w', key) {
      assert KeyOk(w, key);
      if key.taskId in w.tasks { assert SameBooks(w.tasks[key.taskId], w'.tasks[key.taskId]); }
    }
  }

  /** A commit gives up exactly what the segment had. */
  lemma CommitBooks(w: World, a: AccountId, id: Id)
    requires Books(w)
    ensures Books(CommitMigration(w, a, id))
  {
    var w' := CommitMigration(w, a, id);
    if Migratable(w, a, id) && CanReserve(w.pool, a, w.clock) {
      assert LogicalOf(w') == LogicalOf(w)[id := 0] && OwnParts(w') == OwnParts(w) && OwnSent(w') == OwnSent(w);
      TotalUpdate(LogicalOf(w), id, 0);
      forall key | key in OwnParts(w') ensures KeyOk(w', key) { CommitKey(w, a, id, key); }
    }
  }

  /** The new attempt has counted nothing yet. */
  lemma CommitKey(w: World, a: AccountId, id: Id, key: PartKey)
    requires Migratable(w, a, id) && CanReserve(w.pool, a, w.clock) && KeyOk(w, key)
    ensures KeyOk(CommitMigration(w, a, id), key)
  {
    assert CommitMigration(w, a, id).tracker == w.tracker;
  }

  lemma PartBooks(w: World, l: Lease, part: nat, bytes: nat)
    requires Books(w) && Sent(w, l, part, bytes)
    ensures Books(PartSucceeded(w, l, part, bytes))
  {
    if ValidCurrent(w, l, {Active}) && part !in w.tasks[l.taskId].parts {
      var w', id, key := PartSucceeded(w, l, part, bytes), l.taskId, PartKey(l.taskId, l.attemptId, part);
      assert key !in w.tracker.effective by {
        assert key in OwnParts(w) ==> KeyOk(w, key);
      }
      assert OwnParts(w') == OwnParts(w)[key := bytes] && OwnSent(w') == OwnSent(w);
      TotalUpdate(OwnParts(w), key, bytes);
      var logical := Min(w.tasks[id].size, w.tasks[id].logical + bytes);
      assert LogicalOf(w') == LogicalOf(w)[id := logical];
      TotalUpdate(LogicalOf(w), id, logical);
      PartKeys(w, l, part, bytes);
    }
  }

  lemma PartKeys(w: World, l: Lease, part: nat, bytes: nat)
    requires (forall key | key in OwnParts(w) :: KeyOk(w, key)) && Sent(w, l, part, bytes)
    requires ValidCurrent(w, l, {Active}) && part !in w.tasks[l.taskId].parts
    ensures var w' := PartSucceeded(w, l, part, bytes); forall k | k in OwnParts(w') :: KeyOk(w', k)
  {
    var w', key := PartSucceeded(w, l, part, bytes), PartKey(l.taskId, l.attemptId, part);
    forall k | k in OwnParts(w') ensures KeyOk(w', k) {
      if k in w.tracker.effective {
        assert KeyOk(w, k);
      } else {
        var tok :| tok in w.tracker.recorded && LeaseOf(tok) == l && tok.part == part
          && bytes <= w.tracker.recorded[tok];
        assert KeyOf(tok) == key;
      }
    }
  }

  lemma PhysicalBooks(w: World, token: Token, bytes: nat)
    requires Books(w)
    ensures Books(PhysicalSuccess(w, token, bytes))
  {
    var w' := PhysicalSuccess(w, token, bytes);
    if token !in w.tracker.recorded {
      TotalUpdate(OwnSent(w), token, bytes);
      assert LogicalOf(w') == LogicalOf(w) && OwnParts(w') == OwnParts(w);
      assert OwnSent(w') == if token.taskId in w.tasks then OwnSent(w)[token := bytes] else OwnSent(w);
      forall k | k in OwnParts(w') ensures KeyOk(w', k) {
        assert KeyOk(w, k);
        var tok :| tok in w.tracker.recorded && KeyOf(tok) == k && w.tracker.effective[k] <= w.tracker.recorded[tok];
        assert tok in w'.tracker.recorded;
      }
    }
  }

  lemma SameBytes(w: World, w': World)
    requires Books(w) && w'.tasks.Keys == w.tasks.Keys
    requires w'.tracker == w.tracker && w'.physical == w.physical && w'.abandoned == w.abandoned
    requires forall id | id in w.tasks :: SameBooks(w.tasks[id], w'.tasks[id])
    ensures Books(w')
  {
    assert LogicalOf(w') == LogicalOf(w) && OwnParts(w') == OwnParts(w) && OwnSent(w') == OwnSent(w);
    forall k | k in OwnParts(w') ensures KeyOk(w', k) { assert KeyOk(w, k); }
  }

  /** Granting and completing move no bytes either. */
  lemma GrantBooks(w: World, l: Lease)
    requires Books(w)
    ensures Books(GrantFinalize(w, l))
  {
    SameBytes(w, GrantFinalize(w, l));
  }

  lemma CompleteBooks(w: World, l: Lease, result: UploadedPart)
    requires Books(w) && Inv(w)
    ensures Books(CompleteAttempt(w, l, result))
  {
    CompleteBytes(w, l, result);
    SameBytes(w, CompleteAttempt(w, l, result));
  }

  lemma CompleteBytes(w: World, l: Lease, result: UploadedPart)
    requires Inv(w)
    ensures var w' := CompleteAttempt(w, l, result);
      && w'.tasks.Keys == w.tasks.Keys
      && w'.tracker == w.tracker && w'.physical == w.physical && w'.abandoned == w.abandoned
      && forall id | id in w.tasks :: SameBooks(w.tasks[id], w'.tasks[id])
  {
    if ValidCurrent(w, l, {Finalizing}) { CompleteIs(w, l, result); }
  }

  lemma SelectBooks(w: World)
    requires Books(w) && Inv(w)
    ensures Books(Select(w).0)
  {
    hide Inv, Books, Still;
    StillReplacements(w, 0);
    StillBooks(w, ActivateReplacements(w, 0).0);
    InvReplacements(w, 0);
    TailBooks(ActivateReplacements(w, 0).0);
  }

  lemma TailBooks(w: World)
    requires Books(w) && Inv(w)
    ensures Books(SelectTail(w).0)
  {
    match Best(w, 0, None) {
      case Some(b) => CommitBooks(w, b.account, b.id);
      case None =>
        StillStartPending(w, 0);
        StillBooks(w, StartPending(w, 0).0);
    }
  }

  lemma StillAttemptCall(w: World, e: Event)
    requires Inv(w) && AttemptCall(e) && !e.EvPart? && !e.EvGrant? && !e.EvPhysical?
    ensures Still(w, Step(w, e))
  {
    match e {
      case EvBegin(l, part) => StillBegin(w, l, part);
      case EvSettled(token) => StillSettled(w, token);
      case EvFlood(l) => StillFlood(w, l);
      case EvCloseLease(l) => StillLeaseGivenBack(w, l);
      case EvQuiesced(l) => StillQuiesced(w, l);
      case EvPrepared(l) => StillLeaseGivenBack(w, l);
    }
  }

  lemma StillDecisionCall(w: World, e: Event)
    requires Inv(w) && DecisionCall(e) && !e.EvCommit? && !e.EvSelect? && !e.EvComplete?
    ensures Still(w, Step(w, e))
  {
    match e {
      case EvActivate(id, account) => StillActivateExact(w, id, account);
      case EvFailAttempt(l, err) => StillFailAttempt(w, l, err);
      case EvFailTask(id, err) => if id in w.tasks { StillFail(w, id, Some(err)); } else { StillSame(w, w); }
      case EvSubmissionFailed(a, err) => StillSubmission(w, a, err);
      case EvExecutorFinished(a, outcome) => StillExecutor(w, a, outcome);
    }
  }

  lemma StillActivateExact(w: World, id: Id, account: AccountId)
    requires Inv(w)
    ensures Still(w, ActivateExact(w, id, account))
  {
    StillSame(w, w);
    if id in w.tasks && w.tasks[id].state.Pending? {
      match TryAcquire(w.pool, Resolve(w.pool, account), id) {
        case Some(p) => StillStart(w, p, id, Resolve(w.pool, account));
        case None =>
      }
    }
  }

  lemma StillFailAttempt(w: World, l: Lease, error: string)
    requires Inv(w)
    ensures Still(w, FailAttempt(w, l, error))
  {
    StillSame(w, w);
    if l.taskId in w.tasks { StillFail(w, l.taskId, Some(error)); }
  }

  lemma StillOther(w: World, e: Event)
    requires !e.OtherSample?
    ensures Still(w, StepOther(w, e))
  {
    StillSame(w, w);
    if e.OtherSettled? {
      StillSettled(w, e.token);
    } else {
      StillSame(w, StepOther(w, e));
    }
  }

  /** Every other call is still, and the two that only count bytes touch no task. */
  lemma StillStep(w: World, e: Event)
    requires Inv(w)
    requires !e.EvPart? && !e.EvCommit? && !e.EvSelect? && !e.EvGrant? && !e.EvComplete?
    ensures if e.EvPhysical? || e.OtherSample? then Step(w, e).tasks == w.tasks else Still(w, Step(w, e))
  {
    if e.EvPhysical? || e.OtherSample? {
    } else if AttemptCall(e) {
      StillAttemptCall(w, e);
    } else if DecisionCall(e) {
      StillDecisionCall(w, e);
    } else if e.Tick? {
      StillSame(w, Step(w, e));
    } else {
      StillOther(w, e);
    }
  }

  lemma SampleBooks(w: World, e: Event)
    requires Books(w) && e.OtherSample?
    ensures Books(Step(w, e))
  {
    hide Books;
    SamplesOnly(w, Step(w, e).tracker.samples);
  }

  lemma SamplesOnly(w: World, samples: seq<Sample>)
    requires Books(w)
    ensures Books(w.(tracker := w.tracker.(samples := samples)))
  {
    var w' := w.(tracker := w.tracker.(samples := samples));
    assert LogicalOf(w') == LogicalOf(w) && OwnParts(w') == OwnParts(w) && OwnSent(w') == OwnSent(w);
    forall k | k in OwnParts(w') ensures KeyOk(w', k) { assert KeyOk(w, k); }
  }

  lemma StepBooks(w: World, e: Event)
    requires Books(w) && Inv(w) && Disciplined(w, e)
    ensures Books(Step(w, e))
  {
    hide Inv, Books, Still;
    match e {
      case EvPhysical(token, bytes) => PhysicalBooks(w, token, bytes);
      case EvPart(l, part, bytes) => PartBooks(w, l, part, bytes);
      case EvCommit(a, id) => CommitBooks(w, a, id);
      case EvSelect => SelectBooks(w);
      case EvGrant(l) => GrantBooks(w, l);
      case EvComplete(l, r) => CompleteBooks(w, l, r);
      case OtherSample(_, _) => SampleBooks(w, e);
      case _ =>
        StillStep(w, e);
        StillBooks(w, Step(w, e));
    }
  }

  lemma {:induction false} RunBooks(w: World, events: seq<Event>)
    requires Books(w) && Inv(w) && DisciplinedRun(w, events)
    ensures Books(Run(w, events))
    decreases |events|
  {
    if events != [] {
      var front := events[..|events| - 1];
      RunBooks(w, front);
      RunKeepsInv(w, front);
      StepBooks(Run(w, front), events[|events| - 1]);
    }
  }

  /** Conservation of bytes: at every state of every run, the bytes sent are at
      least the bytes that count plus the bytes migrations gave up, so the reported
      overhead is at least what was given up. */
  lemma SentCoversCounted(pool: Pool, tracker: Tracker, clock: int, ds: seq<Descriptor>, events: seq<Event>)
    requires PoolOk(pool) && IdsUnused(pool, |ds|) && Untracked(tracker, |ds|)
    requires DisciplinedRun(Fresh(pool, tracker, clock, ds), events)
    ensures var w := Run(Fresh(pool, tracker, clock, ds), events);
      && w.physical >= Total(LogicalOf(w)) + w.abandoned
      && Overhead(w) >= w.abandoned
  {
    var w0 := Fresh(pool, tracker, clock, ds);
    FreshInv(pool, tracker, clock, ds);
    AllZero(LogicalOf(w0));
    assert OwnParts(w0) == map[] && OwnSent(w0) == map[];
    RunBooks(w0, events);
    BooksBalance(Run(w0, events));
  }

  /** The tracker, shared by all uploads, knows nothing of these segments yet. */
  ghost predicate Untracked(tracker: Tracker, n: nat) {
    && (forall k | k in tracker.effective :: k.taskId >= n)
    && (forall t | t in tracker.recorded :: t.taskId >= n)
  }

  lemma BooksBalance(w: World)
    requires Books(w)
    ensures w.physical >= Total(LogicalOf(w)) + w.abandoned
  {
    forall k | k in OwnParts(w)
      ensures exists tok :: tok in OwnSent(w) && KeyOf(tok) == k && OwnParts(w)[k] <= OwnSent(w)[tok]
    {
      assert KeyOk(w, k);
      var tok :| tok in w.tracker.recorded && KeyOf(tok) == k && w.tracker.effective[k] <= w.tracker.recorded[tok];
      assert tok in OwnSent(w);
    }
    TotalInjects(OwnParts(w), OwnSent(w), KeyOf);
  }

  /** Event `i` counts a new token's bytes as sent. */
  predicate CountedAsSent(w: World, events: seq<Event>, i: nat, token: Token, bytes: nat) {
    i < |events| && events[i] == EvPhysical(token, bytes) && token !in Before(w, events, i).tracker.recorded
  }

  /** What the uploader's observer does: before it reports a part it has counted the part's
      bytes as sent, on a token of the same lease; anything may happen in between. */
  ghost predicate ObservedRun(w: World, events: seq<Event>) {
    forall j | 0 <= j < |events| && events[j].EvPart? ::
      exists i: nat, token :: (i < j && CountedAsSent(w, events, i, token, events[j].bytes)
        && LeaseOf(token) == events[j].lease && token.part == events[j].part)
  }

  lemma RecordedStays(w: World, e: Event, token: Token)
    requires Inv(w) && token in w.tracker.recorded
    ensures token in Step(w, e).tracker.recorded && Step(w, e).tracker.recorded[token] == w.tracker.recorded[token]
  {
    hide Inv;
    match e {
      case EvPhysical(_, _) =>
      case EvPart(_, _, _) =>
      case EvCommit(_, _) =>
      case EvGrant(_) =>
      case OtherSample(_, _) =>
      case EvSelect => SelectKeepsTracker(w);
      case EvComplete(l, r) => CompleteBytes(w, l, r);
      case _ => StillStep(w, e);
    }
  }

  lemma SelectKeepsTracker(w: World)
    requires Inv(w)
    ensures Select(w).0.tracker == w.tracker
  {
    hide Inv, ActivateReplacements, StartPending, Best;
    var w1 := ActivateReplacements(w, 0).0;
    StillReplacements(w, 0);
    InvReplacements(w, 0);
    StillStartPending(w1, 0);
  }

  lemma {:induction false} RecordedSince(w: World, events: seq<Event>, i: nat, j: nat, token: Token)
    requires Inv(w) && i <= j <= |events| && token in Before(w, events, i).tracker.recorded
    ensures token in Before(w, events, j).tracker.recorded
    ensures Before(w, events, j).tracker.recorded[token] == Before(w, events, i).tracker.recorded[token]
    decreases j - i
  {
    hide Run, Step, Inv;
    if i < j {
      RecordedSince(w, events, i, j - 1, token);
      BeforeNext(w, events, j - 1);
      BeforeInv(w, events, j - 1);
      RecordedStays(Before(w, events, j - 1), events[j - 1], token);
    }
  }

  /** Such an observer keeps the discipline the accounting relies on, whatever calls come in
      between. */
  lemma {:induction false} ObserverIsDisciplined(w: World, events: seq<Event>)
    requires Inv(w) && ObservedRun(w, events)
    ensures DisciplinedRun(w, events)
    decreases |events|
  {
    if events != [] {
      hide Run, Step, Inv;
      ObservedFront(w, events);
      hide ObservedRun;
      ObserverIsDisciplined(w, events[..|events| - 1]);
      if events[|events| - 1].EvPart? { PartWasSent(w, events, |events| - 1); }
    }
  }

  lemma ObservedFront(w: World, events: seq<Event>)
    requires ObservedRun(w, events) && events != []
    ensures ObservedRun(w, events[..|events| - 1])
  {
    hide Run;
    var front := events[..|events| - 1];
    forall k | 0 <= k < |front| && front[k].EvPart?
      ensures exists i: nat, token :: (i < k && CountedAsSent(w, front, i, token, front[k].bytes)
        && LeaseOf(token) == front[k].lease && token.part == front[k].part)
    {
      var i: nat, token :| i < k && CountedAsSent(w, events, i, token, events[k].bytes)
        && LeaseOf(token) == events[k].lease && token.part == events[k].part;
      assert front[..i] == events[..i];
      assert CountedAsSent(w, front, i, token, front[k].bytes);
    }
  }

  lemma PartWasSent(w: World, events: seq<Event>, j: nat)
    requires Inv(w) && ObservedRun(w, events) && j < |events| && events[j].EvPart?
    ensures Sent(Before(w, events, j), events[j].lease, events[j].part, events[j].bytes)
  {
    hide Run;
    var i: nat, token :| i < j && CountedAsSent(w, events, i, token, events[j].bytes)
      && LeaseOf(token) == events[j].lease && token.part == events[j].part;
    BeforeNext(w, events, i);
    RecordedSince(w, events, i + 1, j, token);
  }

  lemma {:induction false} AllZero(m: map<Id, nat>)
    requires forall k | k in m :: m[k] == 0
    ensures Total(m) == 0
    decreases |m|
  {
    if m != map[] {
      var k :| k in m;
      TotalRemove(m, k);
      RemoveSize(m, k);
      AllZero(m - {k});
    }
  }

  /** Logical progress falls only where a migration commits. */
  lemma ProgressFallsOnlyAtCommit(w: World, e: Event, id: Id)
    requires Inv(w) && id in w.tasks
    ensures id in Step(w, e).tasks
    ensures Step(w, e).tasks[id].logical < w.tasks[id].logical ==>
      w.tasks[id].migrations == 0 && Step(w, e).tasks[id].migrations == 1
  {
    StepOnward(w, e);
    StepKeepsInv(w, e);
    assert Phase(w.tasks[id]) && Phase(Step(w, e).tasks[id]);
  }

  // -------------------------------------------------------- complete means every part

  /** The bytes of part `p` of a segment cut into big parts. */
  function PartBytes(size: nat, p: nat): nat {
    if size <= p * BIG_PART_SIZE then 0 else Min(BIG_PART_SIZE, size - p * BIG_PART_SIZE)
  }

  /** The parts a segment consists of. */
  function Below(n: nat): (s: set<nat>)
    ensures forall p: nat :: p in s <==> p < n
  {
    if n == 0 then {} else Below(n - 1) + {n - 1}
  }

  function PartCount(size: nat): nat { (size + BIG_PART_SIZE - 1) / BIG_PART_SIZE }

  function AllParts(size: nat): set<nat> { Below(PartCount(size)) }

  ghost function Reported(size: nat, parts: set<nat>): nat { Total(BytesOf(size, parts)) }

  /** Reports follow the plan: each names a part of the segment, with its size. */
  predicate ByThePlan(w: World, e: Event) {
    e.EvPart? && e.lease.taskId in w.tasks ==>
      var size := w.tasks[e.lease.taskId].size;
      e.part in AllParts(size) && e.bytes == PartBytes(size, e.part)
  }

  ghost predicate Accurate(w: World) {
    forall id | id in w.tasks ::
      w.tasks[id].parts <= AllParts(w.tasks[id].size)
      && w.tasks[id].logical == Reported(w.tasks[id].size, w.tasks[id].parts)
  }

  function BytesOf(size: nat, parts: set<nat>): map<nat, nat> { map p | p in parts :: PartBytes(size, p) }

  /** The first `n` parts of a segment add up to its first `n` big parts. */
  lemma {:induction false} PrefixReported(size: nat, n: nat)
    ensures Reported(size, Below(n)) == Min(size, n * BIG_PART_SIZE)
  {
    hide Reported;
    if n == 0 {
      NothingReported(size);
    } else {
      PrefixReported(size, n - 1);
      OneMore(size, Below(n - 1), n - 1);
    }
  }

  lemma OneMore(size: nat, parts: set<nat>, p: nat)
    requires p !in parts
    ensures Reported(size, parts + {p}) == Reported(size, parts) + PartBytes(size, p)
  {
    assert BytesOf(size, parts + {p}) == BytesOf(size, parts)[p := PartBytes(size, p)];
    TotalUpdate(BytesOf(size, parts), p, PartBytes(size, p));
  }

  lemma AllPartsReported(size: nat)
    ensures Reported(size, AllParts(size)) == size
  {
    PrefixReported(size, PartCount(size));
  }

  /** Some part is missing exactly when bytes are missing. */
  lemma ReportedIs(size: nat, parts: set<nat>)
    requires parts <= AllParts(size)
    ensures Reported(size, parts) <= size
    ensures Reported(size, parts) == size <==> parts == AllParts(size)
  {
    AllPartsReported(size);
    RestReported(size, parts, AllParts(size));
  }

  /** Adding parts adds bytes, one part at a time. */
  lemma {:induction false} RestReported(size: nat, parts: set<nat>, all: set<nat>)
    requires parts <= all <= AllParts(size)
    ensures Reported(size, parts) <= Reported(size, all)
    ensures Reported(size, parts) == Reported(size, all) <==> parts == all
    decreases |all - parts|
  {
    if parts != all {
      assert !(all <= parts);
      var p :| p in all && p !in parts;
      OneMore(size, parts, p);
      assert all - (parts + {p}) == all - parts - {p};
      assert PartBytes(size, p) > 0;
      RestReported(size, parts + {p}, all);
    }
  }

  lemma NothingReported(size: nat)
    ensures Reported(size, {}) == 0
  {
    assert BytesOf(size, {}) == map[];
  }

  lemma CreditAccurate(size: nat, parts: set<nat>, p: nat)
    requires parts <= AllParts(size) && p in AllParts(size) && p !in parts
    ensures Reported(size, parts + {p}) == Reported(size, parts) + PartBytes(size, p) <= size
  {
    OneMore(size, parts, p);
    ReportedIs(size, parts + {p});
  }

  lemma StillAccurate(w: World, w': World)
    requires Accurate(w) && Still(w, w')
    ensures Accurate(w')
  {
    forall id | id in w'.tasks
      ensures w'.tasks[id].parts <= AllParts(w'.tasks[id].size)
        && w'.tasks[id].logical == Reported(w'.tasks[id].size, w'.tasks[id].parts)
    {
      assert SameBooks(w.tasks[id], w'.tasks[id]) && Evolves(w.tasks[id], w'.tasks[id]);
    }
  }

  lemma CommitAccurate(w: World, a: AccountId, id: Id)
    requires Accurate(w)
    ensures Accurate(CommitMigration(w, a, id))
  {
    if id in w.tasks { NothingReported(w.tasks[id].size); }
  }

  lemma PartAccurate(w: World, l: Lease, part: nat, bytes: nat)
    requires Accurate(w) && ByThePlan(w, EvPart(l, part, bytes))
    ensures Accurate(PartSucceeded(w, l, part, bytes))
  {
    if ValidCurrent(w, l, {Active}) && part !in w.tasks[l.taskId].parts {
      CreditAccurate(w.tasks[l.taskId].size, w.tasks[l.taskId].parts, part);
    }
  }

  lemma FinalAccurate(w: World, e: Event)
    requires Accurate(w) && Inv(w) && (e.EvGrant? || e.EvComplete?)
    ensures Accurate(Step(w, e))
  {
    if e.EvComplete? && ValidCurrent(w, e.lease, {Finalizing}) { CompleteIs(w, e.lease, e.result); }
  }

  lemma SelectAccurate(w: World)
    requires Accurate(w) && Inv(w)
    ensures Accurate(Select(w).0)
  {
    hide Inv, Accurate, Still;
    StillReplacements(w, 0);
    StillAccurate(w, ActivateReplacements(w, 0).0);
    InvReplacements(w, 0);
    TailAccurate(ActivateReplacements(w, 0).0);
  }

  lemma TailAccurate(w: World)
    requires Accurate(w) && Inv(w)
    ensures Accurate(SelectTail(w).0)
  {
    match Best(w, 0, None) {
      case Some(b) => CommitAccurate(w, b.account, b.id);
      case None =>
        StillStartPending(w, 0);
        StillAccurate(w, StartPending(w, 0).0);
    }
  }

  lemma StepAccurate(w: World, e: Event)
    requires Accurate(w) && Inv(w) && ByThePlan(w, e)
    ensures Accurate(Step(w, e))
  {
    hide Links, Phases, AccountsKnown, Still;
    match e {
      case EvPart(l, part, bytes) => PartAccurate(w, l, part, bytes);
      case EvCommit(a, id) => CommitAccurate(w, a, id);
      case EvSelect => SelectAccurate(w);
      case EvGrant(_) => FinalAccurate(w, e);
      case EvComplete(_, _) => FinalAccurate(w, e);
      case _ =>
        StillStep(w, e);
        if !e.EvPhysical? && !e.OtherSample? { StillAccurate(w, Step(w, e)); }
    }
  }

  ghost predicate PlannedRun(w: World, events: seq<Event>)
    decreases |events|
  {
    events == [] || (PlannedRun(w, events[..|events| - 1])
                     && ByThePlan(Run(w, events[..|events| - 1]), events[|events| - 1]))
  }

  lemma {:induction false} RunAccurate(w: World, events: seq<Event>)
    requires Accurate(w) && Inv(w) && PlannedRun(w, events)
    ensures Accurate(Run(w, events))
    decreases |events|
  {
    if events != [] {
      var front := events[..|events| - 1];
      RunAccurate(w, front);
      RunKeepsInv(w, front);
      StepAccurate(Run(w, front), events[|events| - 1]);
    }
  }

  /** When reports follow the part plan, a segment's byte count reaches its size
      exactly when every one of its parts has succeeded in the current attempt, so
      `bytes_prepared` says yes only to an attempt that sent the whole segment. */
  lemma FullExactlyWhenEveryPartSucceeded(w: World, events: seq<Event>, id: Id, l: Lease)
    requires Accurate(w) && Inv(w) && PlannedRun(w, events) && id in Run(w, events).tasks
    ensures var t := Run(w, events).tasks[id];
      && t.logical <= t.size
      && (t.logical == t.size <==> t.parts == AllParts(t.size))
      && (BytesReady(Run(w, events), l) && l.taskId == id ==> t.parts == AllParts(t.size))
  {
    RunAccurate(w, events);
    ReportedIs(Run(w, events).tasks[id].size, Run(w, events).tasks[id].parts);
  }

  /** The planner's parts are the parts counted here. */
  lemma PlanHasTheseParts(size: nat, p: nat)
    requires 0 < size
    ensures var plan := Cut(size, BIG_PART_SIZE, 0);
      && |plan| == PartCount(size)
      && (p < |plan| ==> p in AllParts(size) && plan[p] == Piece(p * BIG_PART_SIZE, PartBytes(size, p)))
  {
    var plan := Cut(size, BIG_PART_SIZE, 0);
    CutTiles(size, BIG_PART_SIZE);
    CountFor(plan, BIG_PART_SIZE, size, PartCount(size));
    CountFor(plan, BIG_PART_SIZE, size, PartCount(size) - 1);
    if p < |plan| { EvenOffsets(plan, BIG_PART_SIZE, size, p); }
  }
}
