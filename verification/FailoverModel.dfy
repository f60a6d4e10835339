/** The big-file failover upload protocol as a transition system.

    One `World` holds everything the segment scheduler, the account pool, the
    activity registry and the speed tracker share. Each public operation of the
    source, which runs under one lock, is one function from world to world. */
module FailoverModel {
  import opened Foundations

  type Id = nat
  type AccountId = nat

  const SECOND: int := 1000
  const CANDIDATE_MIN_AGE: int := 30 * SECOND
  const PREMIUM_RECENCY: int := 30 * SECOND
  const WINDOW: int := 30 * SECOND
  const SNAPSHOT_TTL: int := 300 * SECOND
  const SCORE_THRESHOLD: real := 2.0

  // ---------------------------------------------------------------- values

  datatype Lease = Lease(taskId: Id, attemptId: nat, accountId: AccountId)

  datatype Token = Token(taskId: Id, attemptId: nat, accountId: AccountId, part: nat, sequence: nat)

  datatype PartKey = PartKey(taskId: Id, attemptId: nat, part: nat)

  datatype UploadedPart = UploadedPart(index: nat, messageId: int, size: int, accountId: AccountId)

  datatype Descriptor = Descriptor(index: nat, offset: nat, size: nat)

  datatype Action = Action(taskId: Id, accountId: AccountId, attemptId: nat, migrated: bool)

  function LeaseOf(t: Token): Lease { Lease(t.taskId, t.attemptId, t.accountId) }

  function KeyOf(t: Token): PartKey { PartKey(t.taskId, t.attemptId, t.part) }

  function ActionLease(a: Action): Lease { Lease(a.taskId, a.attemptId, a.accountId) }

  // ------------------------------------------------------------ speed tracker

  datatype Sample = Sample(at: int, lease: Lease, bytes: nat)

  /** Every effective sample ever recorded, plus the two deduplication tables. */
  datatype Tracker = Tracker(samples: seq<Sample>, effective: map<PartKey, nat>, recorded: map<Token, nat>)

  datatype IdleSnapshot = IdleSnapshot(bytesPerSecond: real, createdAt: int, expiresAt: int)

  function AttemptBytes(samples: seq<Sample>, lease: Lease, now: int): nat {
    if samples == [] then 0
    else
      var last := samples[|samples| - 1];
      AttemptBytes(samples[..|samples| - 1], lease, now)
        + if last.lease == lease && now - WINDOW <= last.at then last.bytes else 0
  }

  function AccountBytes(samples: seq<Sample>, account: AccountId, now: int): nat {
    if samples == [] then 0
    else
      var last := samples[|samples| - 1];
      AccountBytes(samples[..|samples| - 1], account, now)
        + if last.lease.accountId == account && now - WINDOW <= last.at then last.bytes else 0
  }

  function Speed(bytes: nat): real { bytes as real / 30.0 }

  function Freeze(tr: Tracker, now: int, account: AccountId): Option<IdleSnapshot> {
    var total := AccountBytes(tr.samples, account, now);
    if total == 0 then None else Some(IdleSnapshot(Speed(total), now, now + SNAPSHOT_TTL))
  }

  function RecordEffective(tr: Tracker, lease: Lease, part: nat, bytes: nat, now: int): Tracker {
    var key := PartKey(lease.taskId, lease.attemptId, part);
    if key in tr.effective then tr
    else tr.(effective := tr.effective[key := bytes], samples := tr.samples + [Sample(now, lease, bytes)])
  }

  function RecordPhysical(tr: Tracker, token: Token, bytes: nat): Tracker {
    if token in tr.recorded then tr else tr.(recorded := tr.recorded[token := bytes])
  }

  // -------------------------------------------------------- activity registry

  datatype Activity = Activity(
    jobs: set<Id>, requests: set<Token>, reserved: Option<Id>, snapshot: Option<IdleSnapshot>)

  predicate Idle(a: Activity) { a.jobs == {} && a.requests == {} && a.reserved.None? }

  /** The snapshot a reader sees: an expired one counts as absent. */
  function FreshSnapshot(a: Activity, now: int): Option<IdleSnapshot> {
    if a.snapshot.Some? && now < a.snapshot.value.expiresAt then a.snapshot else None
  }

  /** The common tail of every registry update: drop an invalidated snapshot,
      and freeze a new one at the moment the account turns idle. */
  function Settle(a: Activity, beforeIdle: bool, changed: bool, invalidate: bool,
                  frozen: Option<IdleSnapshot>): Activity {
    var b := if invalidate then a.(snapshot := None) else a;
    if changed && !beforeIdle && Idle(b) then b.(snapshot := frozen) else b
  }

  function BeginJob(a: Activity, work: Id): Activity {
    var changed := work !in a.jobs;
    Settle(a.(jobs := a.jobs + {work}), Idle(a), changed, changed, None)
  }

  function EndJob(a: Activity, work: Id, frozen: Option<IdleSnapshot>): Activity {
    Settle(a.(jobs := a.jobs - {work}), Idle(a), work in a.jobs, false, frozen)
  }

  function StartRequest(a: Activity, token: Token): Activity {
    var changed := token !in a.requests;
    Settle(a.(requests := a.requests + {token}), Idle(a), changed, changed, None)
  }

  function SettleRequest(a: Activity, token: Token, frozen: Option<IdleSnapshot>): Activity {
    Settle(a.(requests := a.requests - {token}), Idle(a), token in a.requests, false, frozen)
  }

  function ReserveIfIdle(a: Activity, work: Id): Activity {
    if Idle(a) then Settle(a.(reserved := Some(work)), true, true, true, None) else a
  }

  function DropReservation(a: Activity, work: Id, frozen: Option<IdleSnapshot>): Activity {
    if a.reserved == Some(work) then Settle(a.(reserved := None), Idle(a), true, false, frozen)
    else a
  }

  function TakeReservation(a: Activity, work: Id): Activity {
    if a.reserved != Some(work) then a
    else Settle(a.(reserved := None, jobs := a.jobs + {work}), Idle(a), true, false, None)
  }

  // -------------------------------------------------------------- account pool

  datatype Runtime = Runtime(online: bool, linked: bool, free: nat)

  predicate Eligible(r: Runtime) { r.online && r.linked }

  datatype Pool = Pool(
    capacity: nat, ring: seq<AccountId>, cursor: nat,
    runtimes: map<AccountId, Runtime>, activity: map<AccountId, Activity>)

  predicate Known(p: Pool, a: AccountId) { a in p.runtimes && a in p.activity }

  /** Account zero is the legacy route and means the primary account. */
  function Resolve(p: Pool, a: AccountId): AccountId {
    if a == 0 && |p.ring| > 0 then p.ring[0] else a
  }

  predicate CanAcquire(p: Pool, a: AccountId, work: Id) {
    && Known(p, a)
    && Eligible(p.runtimes[a])
    && p.activity[a].reserved.None?
    && p.runtimes[a].free > 0
    && work !in p.activity[a].jobs
  }

  function TryAcquire(p: Pool, a: AccountId, work: Id): Option<Pool> {
    if !CanAcquire(p, a, work) then None
    else
      var r := p.runtimes[a];
      Some(p.(runtimes := p.runtimes[a := r.(free := r.free - 1)],
              activity := p.activity[a := BeginJob(p.activity[a], work)]))
  }

  /** The runtime the round robin tries `k` places after the cursor. */
  function Slot(p: Pool, k: nat): (i: nat)
    requires |p.ring| > 0
    ensures i < |p.ring|
  {
    (p.cursor + k) % |p.ring|
  }

  /** One pass of the round robin: `k` accounts after the cursor have refused. */
  function AcquireFrom(p: Pool, work: Id, k: nat): Option<(Pool, AccountId)>
    decreases |p.ring| - k
  {
    if k >= |p.ring| then None
    else
      var i := Slot(p, k);
      match TryAcquire(p, p.ring[i], work)
      case Some(q) => Some((q.(cursor := (i + 1) % |p.ring|), p.ring[i]))
      case None => AcquireFrom(p, work, k + 1)
  }

  function SetActivity(p: Pool, a: AccountId, act: Activity): Pool { p.(activity := p.activity[a := act]) }

  function CloseJob(p: Pool, tr: Tracker, now: int, a: AccountId, work: Id): Pool {
    if !Known(p, a) then p
    else
      var r := p.runtimes[a];
      p.(runtimes := p.runtimes[a := r.(free := r.free + 1)],
         activity := p.activity[a := EndJob(p.activity[a], work, Freeze(tr, now, a))])
  }

  predicate CanReserve(p: Pool, a: AccountId, now: int) {
    Known(p, a) && Eligible(p.runtimes[a]) && Idle(p.activity[a]) && FreshSnapshot(p.activity[a], now).Some?
  }

  function Reserve(p: Pool, a: AccountId, work: Id): Pool {
    if !Known(p, a) then p else SetActivity(p, a, ReserveIfIdle(p.activity[a], work))
  }

  function Unreserve(p: Pool, tr: Tracker, now: int, a: AccountId, work: Id): Pool {
    if !Known(p, a) then p else SetActivity(p, a, DropReservation(p.activity[a], work, Freeze(tr, now, a)))
  }

  predicate CanActivate(p: Pool, a: AccountId, work: Id) {
    Known(p, a) && Eligible(p.runtimes[a]) && p.activity[a].reserved == Some(work) && p.runtimes[a].free > 0
  }

  function ActivateReservation(p: Pool, a: AccountId, work: Id): Pool {
    if !CanActivate(p, a, work) then p
    else
      var r := p.runtimes[a];
      p.(runtimes := p.runtimes[a := r.(free := r.free - 1)],
         activity := p.activity[a := TakeReservation(p.activity[a], work)])
  }

  // ----------------------------------------------------------------- segments

  datatype SegState = Pending | Active | Migrating | Finalizing | Completed | Failed

  predicate IsTerminal(s: SegState) { s.Completed? || s.Failed? }

  /** The pool lease a segment holds, with the attempt it was taken for. */
  datatype Owned = Owned(accountId: AccountId, attemptId: nat)

  datatype Task = Task(
    index: nat, offset: nat, size: nat,
    state: SegState,
    attemptId: nat,
    account: Option<AccountId>,
    migrations: nat,
    tried: set<AccountId>,
    startedAt: Option<int>,
    draining: Option<nat>,
    logical: nat,
    parts: set<nat>,
    inFlight: map<nat, set<Token>>,
    floodAt: Option<int>,
    reserved: Option<AccountId>,
    owned: Option<Owned>,
    quiescent: set<nat>,
    result: Option<UploadedPart>,
    error: Option<string>)

  function NewTask(d: Descriptor): Task {
    Task(d.index, d.offset, d.size, Pending, 0, None, 0, {}, None, None, 0, {}, map[], None, None, None, {}, None, None)
  }

  function InFlight(t: Task, attempt: nat): set<Token> {
    if attempt in t.inFlight then t.inFlight[attempt] else {}
  }

  datatype World = World(
    clock: int,
    pool: Pool,
    tracker: Tracker,
    order: seq<Id>,
    tasks: map<Id, Task>,
    claimed: set<(Id, nat)>,
    sequence: nat,
    failure: Option<string>,
    physical: nat,
    abandoned: nat,
    migrations: nat)

  predicate ValidCurrent(w: World, l: Lease, allowed: set<SegState>) {
    && l.taskId in w.tasks
    && var t := w.tasks[l.taskId];
    && !IsTerminal(t.state)
    && t.attemptId == l.attemptId
    && t.account == Some(l.accountId)
    && t.state in allowed
  }

  function SetTask(w: World, id: Id, t: Task): World { w.(tasks := w.tasks[id := t]) }

  // ----------------------------------------------------- lease closing, failing

  function CloseOwned(w: World, id: Id): (r: World)
    requires id in w.tasks
    ensures r.order == w.order && r.tasks.Keys == w.tasks.Keys
  {
    var t := w.tasks[id];
    match t.owned
    case None => w
    case Some(o) =>
      SetTask(w, id, t.(owned := None)).(pool := CloseJob(w.pool, w.tracker, w.clock, o.accountId, id))
  }

  predicate ShouldClose(t: Task, attempt: nat) {
    && t.owned.Some? && t.owned.value.attemptId == attempt
    && InFlight(t, attempt) == {}
    && attempt in t.quiescent
    && (t.state.Migrating? || IsTerminal(t.state) || t.draining == Some(attempt))
  }

  function MaybeClose(w: World, id: Id, attempt: nat): (r: World)
    requires id in w.tasks
    ensures r.order == w.order && r.tasks.Keys == w.tasks.Keys
  {
    if ShouldClose(w.tasks[id], attempt) then CloseOwned(w, id) else w
  }

  function MaybeCloseOwned(w: World, id: Id): (r: World)
    requires id in w.tasks
    ensures r.order == w.order && r.tasks.Keys == w.tasks.Keys
  {
    match w.tasks[id].owned
    case None => w
    case Some(o) => MaybeClose(w, id, o.attemptId)
  }

  function Terminal(w: World, id: Id, state: SegState, error: Option<string>): (r: World)
    requires id in w.tasks
    ensures r.order == w.order && r.tasks.Keys == w.tasks.Keys
  {
    var t := w.tasks[id];
    if IsTerminal(t.state) then w
    else
      var p := if t.reserved.Some? then Unreserve(w.pool, w.tracker, w.clock, t.reserved.value, id) else w.pool;
      var t1 := t.(state := state, account := None, error := error, reserved := None);
      MaybeCloseOwned(SetTask(w, id, t1).(pool := p), id)
  }

  // ------------------------------------------------------------ activation

  function Installed(t: Task, now: int, account: AccountId, attempt: nat): Task {
    t.(state := Active, attemptId := attempt, account := Some(account), startedAt := Some(now),
       tried := t.tried + {account}, owned := Some(Owned(account, attempt)), floodAt := None,
       inFlight := t.inFlight[attempt := InFlight(t, attempt)])
  }

  function Install(w: World, id: Id, account: AccountId, attempt: nat): (r: World)
    requires id in w.tasks
    ensures r.order == w.order && r.tasks.Keys == w.tasks.Keys
  {
    SetTask(w, id, Installed(w.tasks[id], w.clock, account, attempt)).(claimed := w.claimed + {(id, attempt)})
  }

  /** `activate`: a pending task on one exact account. */
  function ActivateExact(w: World, id: Id, account: AccountId): World {
    if id !in w.tasks || !w.tasks[id].state.Pending? then w
    else
      var a := Resolve(w.pool, account);
      match TryAcquire(w.pool, a, id)
      case None => w
      case Some(p) => Install(w.(pool := p), id, a, 1)
  }

  predicate ReplacementReady(t: Task) {
    && t.state.Migrating?
    && t.draining.Some?
    && InFlight(t, t.draining.value) == {}
    && t.draining.value in t.quiescent
  }

  /** Turn the reservation into the new attempt; a pool that refuses fails the
      segment. */
  function UseReservation(w: World, id: Id): (r: (World, Option<Action>))
    requires id in w.tasks
    ensures r.0.order == w.order && r.0.tasks.Keys == w.tasks.Keys
  {
    var t := w.tasks[id];
    if t.owned.Some? || t.reserved.None? then (w, None)
    else
      var target := t.reserved.value;
      if !CanActivate(w.pool, target, id) then
        var w1 := SetTask(w, id, t.(reserved := None)).(
          pool := Unreserve(w.pool, w.tracker, w.clock, target, id));
        (Terminal(w1, id, Failed, Some(REFUSED)), None)
      else
        var w1 := SetTask(w, id, t.(reserved := None, draining := None)).(
          pool := ActivateReservation(w.pool, target, id));
        (Install(w1, id, target, t.attemptId), Some(Action(id, target, t.attemptId, true)))
  }

  const REFUSED: string := "reservation activation failed"

  /** Once the old attempt has drained: close its lease if that is still open,
      then use the reservation. */
  function ActivateReplacement(w: World, id: Id): (r: (World, Option<Action>))
    requires id in w.tasks
    ensures r.0.order == w.order && r.0.tasks.Keys == w.tasks.Keys
  {
    if !ReplacementReady(w.tasks[id]) then (w, None)
    else UseReservation(MaybeClose(w, id, w.tasks[id].draining.value), id)
  }

  // ----------------------------------------------------------- lease-bound calls

  function BeginRequest(w: World, l: Lease, part: nat): World {
    if !ValidCurrent(w, l, {Active}) then w
    else
      var t := w.tasks[l.taskId];
      var token := NextToken(w, l, part);
      var t1 := t.(inFlight := t.inFlight[l.attemptId := InFlight(t, l.attemptId) + {token}]);
      var p := if Known(w.pool, l.accountId)
               then SetActivity(w.pool, l.accountId, StartRequest(w.pool.activity[l.accountId], token))
               else w.pool;
      SetTask(w, l.taskId, t1).(sequence := w.sequence + 1, pool := p)
  }

  function NextToken(w: World, l: Lease, part: nat): Token {
    Token(l.taskId, l.attemptId, l.accountId, part, w.sequence + 1)
  }

  function RequestSettled(w: World, token: Token): World {
    if !Known(w.pool, token.accountId) then w
    else
      var p := SetActivity(w.pool, token.accountId,
                 SettleRequest(w.pool.activity[token.accountId], token, Freeze(w.tracker, w.clock, token.accountId)));
      if token.taskId !in w.tasks then w.(pool := p)
      else
        var t := w.tasks[token.taskId];
        var t1 := if token in InFlight(t, token.attemptId)
                  then t.(inFlight := t.inFlight[token.attemptId := InFlight(t, token.attemptId) - {token}])
                  else t;
        MaybeClose(SetTask(w, token.taskId, t1).(pool := p), token.taskId, token.attemptId)
  }

  function PhysicalSuccess(w: World, token: Token, bytes: nat): World {
    if token in w.tracker.recorded then w
    else w.(tracker := RecordPhysical(w.tracker, token, bytes), physical := w.physical + bytes)
  }

  function PartSucceeded(w: World, l: Lease, part: nat, bytes: nat): World {
    if !ValidCurrent(w, l, {Active}) || part in w.tasks[l.taskId].parts then w
    else
      var t := w.tasks[l.taskId];
      var t1 := t.(parts := t.parts + {part}, logical := Min(t.size, t.logical + bytes));
      SetTask(w, l.taskId, t1).(tracker := RecordEffective(w.tracker, l, part, bytes, w.clock))
  }

  function PremiumFlood(w: World, l: Lease): World {
    if !ValidCurrent(w, l, {Active}) then w
    else SetTask(w, l.taskId, w.tasks[l.taskId].(floodAt := Some(w.clock)))
  }

  function CloseActiveUploadLease(w: World, l: Lease): World {
    if l.taskId !in w.tasks || w.tasks[l.taskId].owned != Some(Owned(l.accountId, l.attemptId)) then w
    else CloseOwned(w, l.taskId)
  }

  function AttemptQuiesced(w: World, l: Lease): World {
    if l.taskId !in w.tasks then w
    else
      var t := w.tasks[l.taskId];
      MaybeClose(SetTask(w, l.taskId, t.(quiescent := t.quiescent + {l.attemptId})), l.taskId, l.attemptId)
  }

  predicate BytesReady(w: World, l: Lease) {
    && ValidCurrent(w, l, {Active})
    && var t := w.tasks[l.taskId];
    && t.logical >= t.size
    && InFlight(t, l.attemptId) == {}
    && t.owned.Some? && t.owned.value.attemptId == l.attemptId
  }

  function BytesPrepared(w: World, l: Lease): World {
    if !BytesReady(w, l) then w else CloseOwned(w, l.taskId)
  }

  function GrantFinalize(w: World, l: Lease): World {
    if !ValidCurrent(w, l, {Active}) then w
    else SetTask(w, l.taskId, w.tasks[l.taskId].(state := Finalizing))
  }

  function FailAttempt(w: World, l: Lease, error: string): World {
    if !ValidCurrent(w, l, {Active, Finalizing}) then w else Terminal(w, l.taskId, Failed, Some(error))
  }

  function FailTask(w: World, id: Id, error: string): World {
    if id !in w.tasks then w else Terminal(w, id, Failed, Some(error))
  }

  function CompleteAttempt(w: World, l: Lease, result: UploadedPart): World {
    if !ValidCurrent(w, l, {Finalizing}) then w
    else
      var w1 := SetTask(w, l.taskId, w.tasks[l.taskId].(result := Some(result)));
      Terminal(w1, l.taskId, Completed, None)
  }

  // ------------------------------------------------------------------ migration

  datatype Score = Finite(value: real) | Infinite

  predicate Above(s: Score, limit: real) { s.Infinite? || s.value > limit }

  predicate Candidate(t: Task, now: int) {
    && t.state.Active?
    && t.migrations == 0
    && t.logical < t.size
    && t.startedAt.Some? && now - t.startedAt.value >= CANDIDATE_MIN_AGE
    && t.floodAt.Some? && now - t.floodAt.value <= PREMIUM_RECENCY
  }

  function RemainingRatio(t: Task): real
    requires t.logical < t.size
  {
    (t.size - t.logical) as real / t.size as real
  }

  /** How much faster the idle account was, weighed by what is left to send. */
  function Ratio(target: real, current: real, t: Task): real
    requires current != 0.0 && t.logical < t.size
  {
    target / current * RemainingRatio(t)
  }

  function ScoreOf(w: World, target: AccountId, id: Id): Option<Score> {
    if id !in w.tasks then None
    else
      var t := w.tasks[id];
      if !Candidate(t, w.clock) || t.account.None? || target in t.tried then None
      else if !Known(w.pool, target) || !Eligible(w.pool.runtimes[target]) then None
      else
        var act := w.pool.activity[target];
        var snap := FreshSnapshot(act, w.clock);
        if !Idle(act) || snap.None? then None
        else
          var current := AttemptBytes(w.tracker.samples, Lease(id, t.attemptId, t.account.value), w.clock);
          if current == 0 then Some(Infinite)
          else Some(Finite(Ratio(snap.value.bytesPerSecond, Speed(current), t)))
  }

  predicate Migratable(w: World, target: AccountId, id: Id) {
    var s := ScoreOf(w, target, id);
    s.Some? && Above(s.value, SCORE_THRESHOLD)
  }

  function Migrated(t: Task, target: AccountId): Task {
    t.(state := Migrating, attemptId := t.attemptId + 1, draining := Some(t.attemptId), account := None,
       logical := 0, parts := {}, migrations := 1, tried := t.tried + {target}, reserved := Some(target))
  }

  function CommitMigration(w: World, target: AccountId, id: Id): World {
    if !Migratable(w, target, id) || !CanReserve(w.pool, target, w.clock) then w
    else
      var t := w.tasks[id];
      SetTask(w, id, Migrated(t, target)).(
        pool := Reserve(w.pool, target, id),
        migrations := w.migrations + 1,
        abandoned := w.abandoned + t.logical)
  }

  // ------------------------------------------------------------------ selection

  datatype Pick = Pick(score: Score, index: nat, account: AccountId, id: Id)

  predicate ScoreLess(a: Score, b: Score) {
    match (a, b)
    case (Infinite, _) => false
    case (Finite(_), Infinite) => true
    case (Finite(x), Finite(y)) => x < y
  }

  /** The source compares the tuples (score, -index, account, task id). */
  predicate PickLess(a: Pick, b: Pick) {
    || ScoreLess(a.score, b.score)
    || (a.score == b.score
        && (a.index > b.index
            || (a.index == b.index && (a.account < b.account || (a.account == b.account && a.id < b.id)))))
  }

  function Better(best: Option<Pick>, c: Pick): Option<Pick> {
    if best.None? || PickLess(best.value, c) then Some(c) else best
  }

  function PickOf(w: World, a: AccountId, id: Id): Pick
    requires Migratable(w, a, id)
  {
    Pick(ScoreOf(w, a, id).value, w.tasks[id].index, a, id)
  }

  function BestForAccount(w: World, a: AccountId, i: nat, best: Option<Pick>): Option<Pick>
    decreases |w.order| - i
  {
    if i >= |w.order| then best
    else
      var b := if Migratable(w, a, w.order[i]) then Better(best, PickOf(w, a, w.order[i])) else best;
      BestForAccount(w, a, i + 1, b)
  }

  function Best(w: World, j: nat, best: Option<Pick>): Option<Pick>
    decreases |w.pool.ring| - j
  {
    if j >= |w.pool.ring| then best
    else Best(w, j + 1, BestForAccount(w, w.pool.ring[j], 0, best))
  }

  /** First finish committed migrations, in index order. */
  function ActivateReplacements(w: World, i: nat): (World, Option<Action>)
    decreases |w.order| - i
  {
    if i >= |w.order| || w.order[i] !in w.tasks then (w, None)
    else
      var (w1, a) := ActivateReplacement(w, w.order[i]);
      if a.Some? then (w1, a) else ActivateReplacements(w1, i + 1)
  }

  /** Last, start the first pending segment that finds an account. */
  function StartPending(w: World, i: nat): (World, Option<Action>)
    decreases |w.order| - i
  {
    if i >= |w.order| || w.order[i] !in w.tasks then (w, None)
    else if !w.tasks[w.order[i]].state.Pending? then StartPending(w, i + 1)
    else
      match AcquireFrom(w.pool, w.order[i], 0)
      case None => StartPending(w, i + 1)
      case Some((p, a)) =>
        (Install(w.(pool := p), w.order[i], a, 1), Some(Action(w.order[i], a, 1, false)))
  }

  function Select(w: World): (World, Option<Action>) {
    if w.failure.Some? then (w, None)
    else
      var (w1, a1) := ActivateReplacements(w, 0);
      if a1.Some? then (w1, a1)
      else
        match Best(w1, 0, None)
        case Some(b) => (CommitMigration(w1, b.account, b.id), None)
        case None => StartPending(w1, 0)
  }

  // -------------------------------------------------------------- executor events

  function SubmissionFailed(w: World, a: Action, error: string): World {
    if a.taskId !in w.tasks || w.tasks[a.taskId].attemptId != a.attemptId then w
    else
      var w1 := Terminal(w, a.taskId, Failed, Some(error));
      var t := w1.tasks[a.taskId];
      MaybeClose(SetTask(w1, a.taskId, t.(quiescent := t.quiescent + {a.attemptId})), a.taskId, a.attemptId)
  }

  function FailFrom(w: World, i: nat, error: string): World
    decreases |w.order| - i
  {
    if i >= |w.order| || w.order[i] !in w.tasks then w
    else
      FailFrom(Terminal(w, w.order[i], Failed, Some(error)), i + 1, error)
  }

  const NO_OUTCOME: string := "executor returned without task outcome"

  function ExecutorFinished(w: World, a: Action, error: Option<string>): World {
    if a.taskId !in w.tasks then w
    else
      var t := w.tasks[a.taskId];
      var w1 := MaybeClose(SetTask(w, a.taskId, t.(quiescent := t.quiescent + {a.attemptId})), a.taskId, a.attemptId);
      match error
      case Some(e) => FailFrom(Terminal(w1, a.taskId, Failed, error).(failure := error), 0, e)
      case None =>
        if w1.tasks[a.taskId].state.Active? && w1.tasks[a.taskId].attemptId == a.attemptId
        then Terminal(w1, a.taskId, Failed, Some(NO_OUTCOME)).(failure := Some(NO_OUTCOME))
        else w1
  }

  // ------------------------------------------------------------------- events

  /** What can happen next. The `Other...` events are everything else that uses
      the same pool: single-message uploads, other files' schedulers, previews,
      and accounts going on or off line. */
  datatype Event =
    | Tick(ticks: nat)
    | EvActivate(id: Id, account: AccountId)
    | EvBegin(lease: Lease, part: nat)
    | EvSettled(token: Token)
    | EvPhysical(token: Token, bytes: nat)
    | EvPart(lease: Lease, part: nat, bytes: nat)
    | EvFlood(lease: Lease)
    | EvCommit(account: AccountId, id: Id)
    | EvCloseLease(lease: Lease)
    | EvQuiesced(lease: Lease)
    | EvPrepared(lease: Lease)
    | EvGrant(lease: Lease)
    | EvFailAttempt(lease: Lease, error: string)
    | EvFailTask(id: Id, error: string)
    | EvComplete(lease: Lease, result: UploadedPart)
    | EvSelect
    | EvSubmissionFailed(action: Action, error: string)
    | EvExecutorFinished(action: Action, outcome: Option<string>)
    | OtherAcquire(account: AccountId, work: Id)
    | OtherClose(account: AccountId, work: Id)
    | OtherReserve(account: AccountId, work: Id)
    | OtherUnreserve(account: AccountId, work: Id)
    | OtherActivate(account: AccountId, work: Id)
    | OtherRequest(token: Token)
    | OtherSettled(token: Token)
    | OtherSample(lease: Lease, bytes: nat)
    | OtherStatus(account: AccountId, online: bool, linked: bool)

  function StepOther(w: World, e: Event): World {
    match e
    case OtherAcquire(a, work) =>
      if work in w.tasks then w
      else (match TryAcquire(w.pool, a, work) case None => w case Some(p) => w.(pool := p))
    case OtherClose(a, work) =>
      if work in w.tasks || !Known(w.pool, a) || work !in w.pool.activity[a].jobs then w
      else w.(pool := CloseJob(w.pool, w.tracker, w.clock, a, work))
    case OtherReserve(a, work) =>
      if work in w.tasks || !CanReserve(w.pool, a, w.clock) then w else w.(pool := Reserve(w.pool, a, work))
    case OtherUnreserve(a, work) =>
      if work in w.tasks then w else w.(pool := Unreserve(w.pool, w.tracker, w.clock, a, work))
    case OtherActivate(a, work) =>
      if work in w.tasks then w else w.(pool := ActivateReservation(w.pool, a, work))
    case OtherRequest(token) =>
      if token.taskId in w.tasks || !Known(w.pool, token.accountId) then w
      else w.(pool := SetActivity(w.pool, token.accountId, StartRequest(w.pool.activity[token.accountId], token)))
    case OtherSettled(token) => if token.taskId in w.tasks then w else RequestSettled(w, token)
    case OtherSample(l, bytes) =>
      if l.taskId in w.tasks then w
      else w.(tracker := w.tracker.(samples := w.tracker.samples + [Sample(w.clock, l, bytes)]))
    case OtherStatus(a, online, linked) =>
      if !Known(w.pool, a) then w
      else
        var r := w.pool.runtimes[a].(online := online, linked := linked);
        w.(pool := w.pool.(runtimes := w.pool.runtimes[a := r]))
    case _ => w
  }

  function Step(w: World, e: Event): World {
    match e
    case Tick(n) => w.(clock := w.clock + n)
    case EvActivate(id, a) => ActivateExact(w, id, a)
    case EvBegin(l, part) => BeginRequest(w, l, part)
    case EvSettled(token) => RequestSettled(w, token)
    case EvPhysical(token, bytes) => PhysicalSuccess(w, token, bytes)
    case EvPart(l, part, bytes) => PartSucceeded(w, l, part, bytes)
    case EvFlood(l) => PremiumFlood(w, l)
    case EvCommit(a, id) => CommitMigration(w, a, id)
    case EvCloseLease(l) => CloseActiveUploadLease(w, l)
    case EvQuiesced(l) => AttemptQuiesced(w, l)
    case EvPrepared(l) => BytesPrepared(w, l)
    case EvGrant(l) => GrantFinalize(w, l)
    case EvFailAttempt(l, err) => FailAttempt(w, l, err)
    case EvFailTask(id, err) => FailTask(w, id, err)
    case EvComplete(l, r) => CompleteAttempt(w, l, r)
    case EvSelect => Select(w).0
    case EvSubmissionFailed(a, err) => SubmissionFailed(w, a, err)
    case EvExecutorFinished(a, outcome) => ExecutorFinished(w, a, outcome)
    case _ => StepOther(w, e)
  }

  function Run(w: World, events: seq<Event>): World
    decreases |events|
  {
    if events == [] then w else Step(Run(w, events[..|events| - 1]), events[|events| - 1])
  }
}
