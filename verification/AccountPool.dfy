/** The activity registry and the account pool, updated in place. Each method's
    new state is a function of the protocol model applied to the old one. */
module AccountPool {
  import opened Foundations
  import opened FailoverModel
  import opened SpeedTracker

  /** What `snapshot` reports of one account. */
  datatype ActivityView = ActivityView(
    jobs: nat, requests: nat, reserved: Option<Id>, snapshot: Option<IdleSnapshot>)

  predicate ViewIdle(v: ActivityView) { v.jobs == 0 && v.requests == 0 && v.reserved.None? }

  class AccountActivityRegistry {
    var accounts: map<AccountId, Activity>
    const tracker: UploadSpeedTracker

    constructor (tracker: UploadSpeedTracker, ids: seq<AccountId>)
      ensures this.tracker == tracker
      ensures accounts == map a | a in ids :: Activity({}, {}, None, None)
    {
      this.tracker := tracker;
      accounts := map a | a in ids :: Activity({}, {}, None, None);
    }

    /** The tail shared by all updates. Freezing asks the tracker, and only at the
        moment an account turns idle. */
    method Change(a: AccountId, after: Activity, beforeIdle: bool, changed: bool, invalidate: bool, now: int)
      requires a in accounts && tracker.Valid() && tracker.clock <= now
      modifies this, tracker`effective, tracker`clock
      ensures tracker.Valid() && tracker.clock <= now
      ensures accounts == old(accounts)[a := Settle(after, beforeIdle, changed, invalidate,
        Freeze(tracker.history, now, a))]
    {
      var act := after;
      if invalidate { act := act.(snapshot := None); }
      if changed && !beforeIdle && Idle(act) {
        var frozen := tracker.FreezeIdleSnapshot(a, now);
        act := act.(snapshot := frozen);
      }
      accounts := accounts[a := act];
    }

    method Snapshot(a: AccountId, now: int) returns (v: Option<ActivityView>)
      ensures v.Some? <==> a in accounts
      ensures v.Some? ==>
        v.value == ActivityView(|accounts[a].jobs|, |accounts[a].requests|, accounts[a].reserved,
          FreshSnapshot(accounts[a], now))
      ensures v.Some? ==> (ViewIdle(v.value) <==> Idle(accounts[a]))
    {
      if a !in accounts { return None; }
      var act := accounts[a];
      return Some(ActivityView(|act.jobs|, |act.requests|, act.reserved, FreshSnapshot(act, now)));
    }

    method BeginJob(a: AccountId, work: Id, now: int) returns (changed: bool)
      requires a in accounts && tracker.Valid() && tracker.clock <= now
      modifies this, tracker`effective, tracker`clock
      ensures tracker.Valid() && tracker.clock <= now
      ensures accounts == old(accounts)[a := FailoverModel.BeginJob(old(accounts)[a], work)]
      ensures changed <==> work !in old(accounts)[a].jobs
    {
      var act := accounts[a];
      changed := work !in act.jobs;
      Change(a, act.(jobs := act.jobs + {work}), Idle(act), changed, changed, now);
    }

    method EndJob(a: AccountId, work: Id, now: int) returns (changed: bool)
      requires a in accounts && tracker.Valid() && tracker.clock <= now
      modifies this, tracker`effective, tracker`clock
      ensures tracker.Valid() && tracker.clock <= now
      ensures accounts == old(accounts)[a := FailoverModel.EndJob(old(accounts)[a], work,
        Freeze(tracker.history, now, a))]
      ensures changed <==> work in old(accounts)[a].jobs
    {
      var act := accounts[a];
      changed := work in act.jobs;
      Change(a, act.(jobs := act.jobs - {work}), Idle(act), changed, false, now);
    }

    method RequestStarted(token: Token, now: int) returns (changed: bool)
      requires token.accountId in accounts && tracker.Valid() && tracker.clock <= now
      modifies this, tracker`effective, tracker`clock
      ensures tracker.Valid() && tracker.clock <= now
      ensures accounts == old(accounts)[token.accountId := StartRequest(old(accounts)[token.accountId], token)]
      ensures changed <==> token !in old(accounts)[token.accountId].requests
    {
      var act := accounts[token.accountId];
      changed := token !in act.requests;
      Change(token.accountId, act.(requests := act.requests + {token}), Idle(act), changed, changed, now);
    }

    method RequestSettled(token: Token, now: int) returns (changed: bool)
      requires token.accountId in accounts && tracker.Valid() && tracker.clock <= now
      modifies this, tracker`effective, tracker`clock
      ensures tracker.Valid() && tracker.clock <= now
      ensures accounts == old(accounts)[token.accountId :=
        SettleRequest(old(accounts)[token.accountId], token, Freeze(tracker.history, now, token.accountId))]
      ensures changed <==> token in old(accounts)[token.accountId].requests
    {
      var act := accounts[token.accountId];
      changed := token in act.requests;
      Change(token.accountId, act.(requests := act.requests - {token}), Idle(act), changed, false, now);
    }

    method ReserveIfIdle(a: AccountId, work: Id, now: int) returns (ok: bool)
      requires a in accounts && tracker.Valid() && tracker.clock <= now
      modifies this, tracker`effective, tracker`clock
      ensures tracker.Valid() && tracker.clock <= now
      ensures ok <==> Idle(old(accounts)[a])
      ensures accounts == old(accounts)[a := FailoverModel.ReserveIfIdle(old(accounts)[a], work)]
    {
      var act := accounts[a];
      if !Idle(act) {
        assert accounts == accounts[a := act];
        return false;
      }
      Change(a, act.(reserved := Some(work)), true, true, true, now);
      return true;
    }

    method ReleaseReservation(a: AccountId, work: Id, now: int) returns (changed: bool)
      requires a in accounts && tracker.Valid() && tracker.clock <= now
      modifies this, tracker`effective, tracker`clock
      ensures tracker.Valid() && tracker.clock <= now
      ensures changed <==> old(accounts)[a].reserved == Some(work)
      ensures accounts == old(accounts)[a := DropReservation(old(accounts)[a], work, Freeze(tracker.history, now, a))]
    {
      var act := accounts[a];
      changed := act.reserved == Some(work);
      if changed { Change(a, act.(reserved := None), Idle(act), changed, false, now); }
      else { assert accounts == accounts[a := act]; }
    }

    method ActivateReservation(a: AccountId, task: Id, work: Id, now: int) returns (changed: bool)
      requires a in accounts && task == work && tracker.Valid() && tracker.clock <= now
      modifies this, tracker`effective, tracker`clock
      ensures tracker.Valid() && tracker.clock <= now
      ensures changed <==> old(accounts)[a].reserved == Some(task)
      ensures accounts == old(accounts)[a := TakeReservation(old(accounts)[a], work)]
    {
      var act := accounts[a];
      if act.reserved != Some(task) {
        assert accounts == accounts[a := act];
        return false;
      }
      Change(a, act.(reserved := None, jobs := act.jobs + {work}), Idle(act), true, false, now);
      return true;
    }
  }

  /** Both tables list the same accounts, and the ring lists accounts. */
  ghost predicate Shape(p: Pool) {
    && p.runtimes.Keys == p.activity.Keys
    && |p.ring| > 0 && p.cursor < |p.ring|
    && (forall i | 0 <= i < |p.ring| :: p.ring[i] in p.runtimes)
  }

  lemma AcquireHere(p: Pool, work: Id, k: nat)
    requires k < |p.ring|
    ensures var a := p.ring[Slot(p, k)];
      AcquireFrom(p, work, k) ==
        if CanAcquire(p, a, work) then Some((TryAcquire(p, a, work).value.(cursor := (Slot(p, k) + 1) % |p.ring|), a))
        else AcquireFrom(p, work, k + 1)
  {
  }

  class TelegramAccountPool {
    const capacity: nat
    const ring: seq<AccountId>
    const activity: AccountActivityRegistry
    var cursor: nat
    var runtimes: map<AccountId, Runtime>

    ghost function View(): Pool
      reads this, activity
    {
      Pool(capacity, ring, cursor, runtimes, activity.accounts)
    }

    ghost predicate Valid(now: int)
      reads this, activity, activity.tracker
    {
      Shape(View()) && activity.tracker.Valid() && activity.tracker.clock <= now
    }

    constructor (ids: seq<AccountId>, capacity: nat, activity: AccountActivityRegistry, now: int)
      requires ids != [] && capacity >= 1
      requires forall a | a in ids :: a > 0
      requires activity.accounts == map a | a in ids :: Activity({}, {}, None, None)
      requires activity.tracker.Valid() && activity.tracker.clock <= now
      ensures Valid(now) && this.activity == activity && this.capacity == capacity && ring == ids
    {
      this.capacity, ring, this.activity, cursor := capacity, ids, activity, 0;
      runtimes := map a | a in ids :: Runtime(false, false, capacity);
    }

    /** `_try_acquire_exact_locked` */
    method TryAcquireExact(a: AccountId, work: Id, now: int) returns (ok: bool)
      requires Valid(now)
      modifies this`runtimes, activity, activity.tracker`effective, activity.tracker`clock
      ensures Valid(now) && cursor == old(cursor)
      ensures ok <==> CanAcquire(old(View()), a, work)
      ensures View() == if ok then TryAcquire(old(View()), a, work).value else old(View())
    {
      if a !in runtimes { return false; }
      var r := runtimes[a];
      if !r.online || !r.linked { return false; }
      var v := activity.Snapshot(a, now);
      if v.value.reserved.Some? { return false; }
      if r.free == 0 { return false; }
      ghost var before := View();
      runtimes := runtimes[a := r.(free := r.free - 1)];
      var changed := activity.BeginJob(a, work, now);
      if !changed {
        runtimes := runtimes[a := r];
        assert before.activity[a].jobs + {work} == before.activity[a].jobs;
        assert activity.accounts == before.activity;
        assert runtimes == before.runtimes;
        return false;
      }
      return true;
    }

    /** One pass of `acquire_upload_lease`, which is all a zero timeout allows. */
    method AcquireUploadLease(work: Id, now: int) returns (r: Option<AccountId>)
      requires Valid(now)
      modifies this, activity, activity.tracker`effective, activity.tracker`clock
      ensures Valid(now)
      ensures match AcquireFrom(old(View()), work, 0)
        case Some((q, a)) => r == Some(a) && View() == q
        case None => r == None && View() == old(View())
      ensures runtimes.Keys == old(runtimes.Keys) && (r.Some? ==> r.value in runtimes)
    {
      ghost var before := View();
      var k := 0;
      while k < |ring|
        invariant 0 <= k <= |ring| && Valid(now) && View() == before
        invariant AcquireFrom(before, work, 0) == AcquireFrom(before, work, k)
      {
        var index := (cursor + k) % |ring|;
        AcquireHere(before, work, k);
        var ok := TryAcquireExact(ring[index], work, now);
        if ok {
          var next := (index + 1) % |ring|;
          cursor := next;
          return Some(ring[index]);
        }
        k := k + 1;
      }
      return None;
    }

    method AcquireExactUploadLease(account: AccountId, work: Id, now: int) returns (r: Option<AccountId>)
      requires Valid(now)
      modifies this`runtimes, activity, activity.tracker`effective, activity.tracker`clock
      ensures Valid(now)
      ensures var a := Resolve(old(View()), account);
        match TryAcquire(old(View()), a, work)
        case Some(q) => r == Some(a) && View() == q
        case None => r == None && View() == old(View())
      ensures runtimes.Keys == old(runtimes.Keys) && (r.Some? ==> r.value in runtimes)
    {
      var a := if account == 0 then ring[0] else account;
      var ok := TryAcquireExact(a, work, now);
      r := if ok then Some(a) else None;
    }

    /** `_release_upload_locked`: end the job, give the file slot back. */
    method ReleaseUpload(a: AccountId, work: Id, now: int)
      requires Valid(now) && a in runtimes
      modifies this`runtimes, activity, activity.tracker`effective, activity.tracker`clock
      ensures Valid(now) && View() == CloseJob(old(View()), activity.tracker.history, now, a, work)
    {
      ghost var before := View();
      var _ := activity.EndJob(a, work, now);
      runtimes := runtimes[a := runtimes[a].(free := runtimes[a].free + 1)];
    }

    method TryReserveIdle(a: AccountId, work: Id, now: int) returns (ok: bool)
      requires Valid(now)
      modifies activity, activity.tracker`effective, activity.tracker`clock
      ensures Valid(now)
      ensures ok <==> CanReserve(old(View()), a, now)
      ensures View() == if ok then Reserve(old(View()), a, work) else old(View())
    {
      if a !in runtimes { return false; }
      if !runtimes[a].online || !runtimes[a].linked { return false; }
      var v := activity.Snapshot(a, now);
      if !ViewIdle(v.value) || v.value.snapshot.None? { return false; }
      ghost var before := View();
      ok := activity.ReserveIfIdle(a, work, now);
    }

    /** Raises exactly when the account is gone or not reserved for this work. */
    method ActivateReservation(a: AccountId, work: Id, now: int) returns (ok: bool)
      requires Valid(now)
      modifies this`runtimes, activity, activity.tracker`effective, activity.tracker`clock
      ensures Valid(now)
      ensures ok <==> CanActivate(old(View()), a, work)
      ensures View() == FailoverModel.ActivateReservation(old(View()), a, work)
    {
      if a !in runtimes { return false; }
      var r := runtimes[a];
      if !r.online || !r.linked { return false; }
      var v := activity.Snapshot(a, now);
      if v.value.reserved != Some(work) { return false; }
      if r.free == 0 { return false; }
      ghost var before := View();
      runtimes := runtimes[a := r.(free := r.free - 1)];
      ok := activity.ActivateReservation(a, work, work, now);
    }

    method ReleaseReservation(a: AccountId, work: Id, now: int)
      requires Valid(now) && a in runtimes
      modifies activity, activity.tracker`effective, activity.tracker`clock
      ensures Valid(now) && View() == Unreserve(old(View()), activity.tracker.history, now, a, work)
    {
      ghost var before := View();
      var _ := activity.ReleaseReservation(a, work, now);
    }
  }
}
