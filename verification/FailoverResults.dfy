/** What the finished upload hands back: one message per segment, in order. */
module FailoverResults {
  import opened Foundations
  import opened FailoverModel
  import opened FailoverInvariant
  import opened FailoverSafety
  import opened FailoverHistory
  import opened FailoverRuns
  import opened FailoverBytes

  datatype Results = Results(parts: seq<UploadedPart>) | NotDone(reason: Option<string>)

  /** Some segment failed. */
  ghost predicate AnyFailed(w: World) { exists id :: id in w.tasks && w.tasks[id].state.Failed? }

  ghost predicate AllDone(w: World) {
    forall i | 0 <= i < |w.order| :: w.order[i] in w.tasks && w.tasks[w.order[i]].state.Completed?
      && w.tasks[w.order[i]].result.Some?
  }

  /** `completed_results_by_index` */
  ghost function CompletedResults(w: World): Results {
    if w.failure.Some? then NotDone(w.failure)
    else if AnyFailed(w) || !AllDone(w) then NotDone(None)
    else Results(seq(|w.order|, i requires 0 <= i < |w.order| => w.tasks[w.order[i]].result.value))
  }

  /** Event `j` completed this segment with this result. */
  ghost predicate CompletedBy(w: World, events: seq<Event>, j: nat, l: Lease, id: Id, part: UploadedPart) {
    l.taskId == id && Finished(w, events, j, l, part)
  }

  /** One event completed this segment, with this result, and no other ever did. */
  ghost predicate OnlyCompletion(w: World, events: seq<Event>, id: Id, part: UploadedPart) {
    exists j, l :: (CompletedBy(w, events, j, l, id, part)
      && forall k, m, r | CompletedBy(w, events, k, m, id, r) :: k == j && m == l && r == part)
  }

  /** When a run from a fresh scheduler hands back its parts, there is one for every
      segment, in the order of the segments' indices, and each is what the single
      successful completing call of that segment reported. */
  lemma ResultsAreTheSegments(pool: Pool, tracker: Tracker, clock: int, ds: seq<Descriptor>, events: seq<Event>)
    requires PoolOk(pool) && IdsUnused(pool, |ds|)
    ensures var w := Fresh(pool, tracker, clock, ds);
      var done := CompletedResults(Run(w, events));
      done.Results? ==>
        && |done.parts| == |w.order| && SortedIds(w.order, ds, |ds|)
        && forall i | 0 <= i < |w.order| :: OnlyCompletion(w, events, w.order[i], done.parts[i])
  {
    hide Inv, Run, Evolves;
    var w := Fresh(pool, tracker, clock, ds);
    FreshInv(pool, tracker, clock, ds);
    RunOnward(w, events);
    var w' := Run(w, events);
    var done := CompletedResults(w');
    if done.Results? {
      forall i | 0 <= i < |w.order| ensures OnlyCompletion(w, events, w.order[i], done.parts[i]) {
        var id := w.order[i];
        assert w'.order[i] == id && w'.tasks[id].result == Some(done.parts[i]);
        OneCompletion(w, events, id, done.parts[i]);
      }
    }
  }

  lemma OneCompletion(w: World, events: seq<Event>, id: Id, part: UploadedPart)
    requires Inv(w) && id in w.tasks && w.tasks[id].state.Pending?
    requires id in Run(w, events).tasks && Run(w, events).tasks[id].result == Some(part)
    ensures OnlyCompletion(w, events, id, part)
  {
    hide Inv, Run, Finished;
    var i, j, l := ResultProvenance(w, events, id);
    assert CompletedBy(w, events, j, l, id, part);
    forall k, m, r | CompletedBy(w, events, k, m, id, r) ensures k == j && m == l && r == part {
      CompleteOnce(w, events, k, j, m, l, r, part);
    }
  }

  // ------------------------------------------------------------- messages are whole

  /** Event `i` is a call to `bytes_prepared` that answered yes. */
  predicate Prepared(w: World, events: seq<Event>, i: nat, l: Lease) {
    i < |events| && events[i] == EvPrepared(l) && BytesReady(Before(w, events, i), l)
  }

  /** The executor asks for permission to finalize only once its bytes were
      accepted as prepared. */
  ghost predicate GrantsArePrepared(w: World, events: seq<Event>) {
    forall j, l | Granted(w, events, j, l) :: exists i: nat :: i < j && Prepared(w, events, i, l)
  }

  lemma {:induction false} PlannedPrefix(w: World, events: seq<Event>, n: nat)
    requires PlannedRun(w, events) && n <= |events|
    ensures PlannedRun(w, events[..n])
  {
    if n < |events| {
      var front := events[..|events| - 1];
      PlannedPrefix(w, front, n);
      assert front[..n] == events[..n];
    } else {
      assert events[..n] == events;
    }
  }

  /** An attempt that was prepared and later is granted finalize has, at that
      moment, every part of its segment: nothing in between can take one away. */
  lemma GrantHasEveryPart(w: World, events: seq<Event>, i: nat, j: nat, l: Lease)
    requires Inv(w) && Accurate(w) && PlannedRun(w, events)
    requires i < j && Prepared(w, events, i, l) && Granted(w, events, j, l)
    ensures var t := Before(w, events, j).tasks[l.taskId]; t.parts == AllParts(t.size)
  {
    hide Run, Accurate, PlannedRun, Links, AccountsKnown, OrderOk, AllParts;
    BetweenOnward(w, events, 0, i);
    BetweenOnward(w, events, i, j);
    BeforeInv(w, events, i);
    BeforeInv(w, events, j);
    PlannedPrefix(w, events, j);
    FullExactlyWhenEveryPartSucceeded(w, events[..j], l.taskId, l);
    var t, u := Before(w, events, i).tasks[l.taskId], Before(w, events, j).tasks[l.taskId];
    assert Phase(t) && Phase(u) && Evolves(t, u);
  }

  /** Nothing was reported yet, so nothing is missing from the account. */
  lemma FreshIsAccurate(pool: Pool, tracker: Tracker, clock: int, ds: seq<Descriptor>)
    ensures Accurate(Fresh(pool, tracker, clock, ds))
  {
    forall id | 0 <= id < |ds| ensures Reported(ds[id].size, {}) == 0 { NothingReported(ds[id].size); }
  }

  /** In a run from a fresh scheduler, with an executor that prepares before it finalizes and
      reports by the part plan, the message behind every stored result was created when all
      parts of the segment had been sent by that same attempt. */
  lemma MessagesAreWhole(pool: Pool, tracker: Tracker, clock: int, ds: seq<Descriptor>, events: seq<Event>, id: Id)
    returns (i: nat, j: nat, l: Lease)
    requires PoolOk(pool) && IdsUnused(pool, |ds|)
    requires var w := Fresh(pool, tracker, clock, ds);
      && PlannedRun(w, events) && GrantsArePrepared(w, events) && id in w.tasks
      && id in Run(w, events).tasks && Run(w, events).tasks[id].result.Some?
    ensures var w := Fresh(pool, tracker, clock, ds);
      && l.taskId == id && i < j
      && Granted(w, events, i, l) && Finished(w, events, j, l, Run(w, events).tasks[id].result.value)
      && id in Before(w, events, i).tasks
      && Before(w, events, i).tasks[id].parts == AllParts(Before(w, events, i).tasks[id].size)
  {
    var w := Fresh(pool, tracker, clock, ds);
    FreshInv(pool, tracker, clock, ds);
    FreshIsAccurate(pool, tracker, clock, ds);
    hide Inv, Run, Accurate, PlannedRun, AllParts, PoolOk, IdsUnused;
    i, j, l := ResultProvenance(w, events, id);
    var k: nat :| k < i && Prepared(w, events, k, l);
    GrantHasEveryPart(w, events, k, i, l);
  }
}
