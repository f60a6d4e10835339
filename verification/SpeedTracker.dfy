/** The upload speed tracker: deques pruned in place that answer as if no sample
    had ever been dropped. */
module SpeedTracker {
  import opened Foundations
  import opened FailoverModel

  datatype Entry = Entry(at: int, bytes: nat)

  type Deque = seq<Entry>

  function Sum(d: Deque): nat {
    if d == [] then 0 else Sum(d[..|d| - 1]) + d[|d| - 1].bytes
  }

  /** The entries of one attempt, and of one account, in the full history. */
  function OfAttempt(samples: seq<Sample>, l: Lease): Deque {
    if samples == [] then []
    else
      var s := samples[|samples| - 1];
      OfAttempt(samples[..|samples| - 1], l) + if s.lease == l then [Entry(s.at, s.bytes)] else []
  }

  function OfAccount(samples: seq<Sample>, a: AccountId): Deque {
    if samples == [] then []
    else
      var s := samples[|samples| - 1];
      OfAccount(samples[..|samples| - 1], a) + if s.lease.accountId == a then [Entry(s.at, s.bytes)] else []
  }

  ghost predicate Sorted(d: Deque) { forall i, j | 0 <= i < j < |d| :: d[i].at <= d[j].at }

  ghost predicate SortedSamples(s: seq<Sample>, clock: int) {
    && (forall i, j | 0 <= i < j < |s| :: s[i].at <= s[j].at)
    && (forall i | 0 <= i < |s| :: s[i].at <= clock)
  }

  /** `d` is what is left of `full` after dropping entries older than the window. */
  ghost predicate Represents(d: Deque, full: Deque, clock: int) {
    && |d| <= |full|
    && d == full[|full| - |d|..]
    && (forall i | 0 <= i < |full| - |d| :: full[i].at < clock - WINDOW)
  }

  function InWindow(d: Deque, now: int): nat {
    if d == [] then 0
    else InWindow(d[..|d| - 1], now) + if now - WINDOW <= d[|d| - 1].at then d[|d| - 1].bytes else 0
  }

  lemma {:induction false} AttemptWindow(samples: seq<Sample>, l: Lease, now: int)
    ensures AttemptBytes(samples, l, now) == InWindow(OfAttempt(samples, l), now)
  {
    if samples != [] {
      var front := samples[..|samples| - 1];
      AttemptWindow(front, l, now);
      var d := OfAttempt(samples, l);
      if samples[|samples| - 1].lease == l { assert d[..|d| - 1] == OfAttempt(front, l); }
      else { assert d == OfAttempt(front, l); }
    }
  }

  lemma {:induction false} AccountWindow(samples: seq<Sample>, a: AccountId, now: int)
    ensures AccountBytes(samples, a, now) == InWindow(OfAccount(samples, a), now)
  {
    if samples != [] {
      var front := samples[..|samples| - 1];
      AccountWindow(front, a, now);
      var d := OfAccount(samples, a);
      if samples[|samples| - 1].lease.accountId == a { assert d[..|d| - 1] == OfAccount(front, a); }
      else { assert d == OfAccount(front, a); }
    }
  }

  lemma {:induction false} EntriesSorted(samples: seq<Sample>, l: Lease, a: AccountId, clock: int)
    requires SortedSamples(samples, clock)
    ensures Sorted(OfAttempt(samples, l)) && Sorted(OfAccount(samples, a))
    ensures forall i | 0 <= i < |OfAttempt(samples, l)| :: OfAttempt(samples, l)[i].at <= clock
    ensures forall i | 0 <= i < |OfAccount(samples, a)| :: OfAccount(samples, a)[i].at <= clock
  {
    if samples != [] {
      EntriesSorted(samples[..|samples| - 1], l, a, samples[|samples| - 1].at);
    }
  }

  /** An account's window is the sum over the attempts that used the account. */
  lemma {:induction false} AccountIsItsAttempts(samples: seq<Sample>, a: AccountId, now: int, leases: seq<Lease>)
    requires forall i, j | 0 <= i < j < |leases| :: leases[i] != leases[j]
    requires forall l: Lease :: l in leases ==> l.accountId == a
    requires forall i | 0 <= i < |samples| && samples[i].lease.accountId == a :: samples[i].lease in leases
    ensures AccountBytes(samples, a, now) == OverLeases(samples, leases, now)
  {
    if samples == [] {
      NoSamples(leases, now);
    } else {
      var front, s := samples[..|samples| - 1], samples[|samples| - 1];
      AccountIsItsAttempts(front, a, now, leases);
      OneSample(front, s, leases, now);
      assert front + [s] == samples;
    }
  }

  function OverLeases(samples: seq<Sample>, leases: seq<Lease>, now: int): nat {
    if leases == [] then 0
    else OverLeases(samples, leases[..|leases| - 1], now) + AttemptBytes(samples, leases[|leases| - 1], now)
  }

  lemma {:induction false} NoSamples(leases: seq<Lease>, now: int)
    ensures OverLeases([], leases, now) == 0
  {
    if leases != [] { NoSamples(leases[..|leases| - 1], now); }
  }

  lemma {:induction false} OneSample(front: seq<Sample>, s: Sample, leases: seq<Lease>, now: int)
    requires forall i, j | 0 <= i < j < |leases| :: leases[i] != leases[j]
    ensures OverLeases(front + [s], leases, now) ==
      OverLeases(front, leases, now) + if s.lease in leases && now - WINDOW <= s.at then s.bytes else 0
  {
    if leases != [] {
      var rest, l := leases[..|leases| - 1], leases[|leases| - 1];
      OneSample(front, s, rest, now);
      assert (front + [s])[..|front + [s]| - 1] == front;
      assert leases == rest + [l];
      assert s.lease in leases <==> s.lease in rest || s.lease == l;
      if s.lease in rest { var i :| 0 <= i < |rest| && rest[i] == s.lease; assert leases[i] != l; }
    }
  }

  /** A sorted deque whose front is inside the window is all inside the window. */
  lemma {:induction false} AllInside(d: Deque, now: int)
    requires Sorted(d) && (d != [] ==> now - WINDOW <= d[0].at)
    ensures InWindow(d, now) == Sum(d)
  {
    if d != [] {
      if |d| > 1 { AllInside(d[..|d| - 1], now); }
      assert |d| == 1 ==> d[..0] == [];
      assert d[0].at <= d[|d| - 1].at;
    }
  }

  lemma {:induction false} PrefixOutside(full: Deque, k: nat, now: int)
    requires k <= |full| && forall i | 0 <= i < k :: full[i].at < now - WINDOW
    ensures InWindow(full, now) == InWindow(full[k..], now)
    decreases |full|
  {
    if k == |full| {
      if k > 0 {
        PrefixOutside(full[..k - 1], k - 1, now);
        assert full[..k - 1][k - 1..] == [];
      }
      assert full[k..] == [];
    } else {
      PrefixOutside(full[..|full| - 1], k, now);
      assert full[..|full| - 1][k..] == full[k..][..|full| - k - 1];
    }
  }

  /** Pruning loses nothing that a window now or later could count. */
  lemma PrunedWindow(d: Deque, full: Deque, clock: int, now: int)
    requires Represents(d, full, clock) && clock <= now
    requires Sorted(full) && (d != [] ==> now - WINDOW <= d[0].at)
    ensures Sum(d) == InWindow(full, now)
  {
    PrefixOutside(full, |full| - |d|, now);
    AllInside(d, now);
  }

  function DequeOf<K>(m: map<K, Deque>, k: K): Deque { if k in m then m[k] else [] }

  ghost predicate AttemptsKept(m: map<Lease, Deque>, samples: seq<Sample>, clock: int) {
    forall l :: Represents(DequeOf(m, l), OfAttempt(samples, l), clock)
  }

  ghost predicate AccountsKept(m: map<AccountId, Deque>, samples: seq<Sample>, clock: int) {
    forall a :: Represents(DequeOf(m, a), OfAccount(samples, a), clock)
  }

  /** The pruned deque still answers for the whole history. */
  lemma StillRepresents(d: Deque, kept: Deque, full: Deque, clock: int, now: int)
    requires Represents(d, full, clock) && clock <= now
    requires |kept| <= |d| && kept == d[|d| - |kept|..]
    requires forall i | 0 <= i < |d| - |kept| :: d[i].at < now - WINDOW
    ensures Represents(kept, full, now)
  {
    var k := |full| - |d|;
    forall i | 0 <= i < |full| - |kept| ensures full[i].at < now - WINDOW {
      if i >= k { assert full[i] == d[i - k]; }
    }
  }

  /** `kept` is `d` with its front dropped as far as the window allows. */
  ghost predicate PrunedFrom(kept: Deque, d: Deque, now: int) {
    && |kept| <= |d| && kept == d[|d| - |kept|..]
    && (forall i | 0 <= i < |d| - |kept| :: d[i].at < now - WINDOW)
    && (kept != [] ==> now - WINDOW <= kept[0].at)
  }

  lemma AttemptPruned(m: map<Lease, Deque>, samples: seq<Sample>, clock: int, now: int, l: Lease, kept: Deque)
    requires AttemptsKept(m, samples, clock) && clock <= now && SortedSamples(samples, clock)
    requires PrunedFrom(kept, DequeOf(m, l), now)
    ensures AttemptsKept(m[l := kept], samples, now)
    ensures Sum(kept) == AttemptBytes(samples, l, now)
  {
    var m' := m[l := kept];
    forall k ensures Represents(DequeOf(m', k), OfAttempt(samples, k), now) {
      assert Represents(DequeOf(m, k), OfAttempt(samples, k), clock);
      if k == l { StillRepresents(DequeOf(m, l), kept, OfAttempt(samples, l), clock, now); }
    }
    EntriesSorted(samples, l, 0, clock);
    PrunedWindow(kept, OfAttempt(samples, l), now, now);
    AttemptWindow(samples, l, now);
  }

  lemma AccountPruned(m: map<AccountId, Deque>, samples: seq<Sample>, clock: int, now: int, a: AccountId, kept: Deque)
    requires AccountsKept(m, samples, clock) && clock <= now && SortedSamples(samples, clock)
    requires PrunedFrom(kept, DequeOf(m, a), now)
    ensures AccountsKept(m[a := kept], samples, now)
    ensures Sum(kept) == AccountBytes(samples, a, now)
  {
    var m' := m[a := kept];
    forall k ensures Represents(DequeOf(m', k), OfAccount(samples, k), now) {
      assert Represents(DequeOf(m, k), OfAccount(samples, k), clock);
      if k == a { StillRepresents(DequeOf(m, a), kept, OfAccount(samples, a), clock, now); }
    }
    EntriesSorted(samples, Lease(0, 0, 0), a, clock);
    PrunedWindow(kept, OfAccount(samples, a), now, now);
    AccountWindow(samples, a, now);
  }

  lemma Grown(d: Deque, full: Deque, clock: int, now: int, e: Entry)
    requires Represents(d, full, clock) && clock <= now
    ensures Represents(d + [e], full + [e], now)
  {
    assert (full + [e])[|full| - |d|..] == full[|full| - |d|..] + [e];
  }

  lemma AttemptAppended(m: map<Lease, Deque>, samples: seq<Sample>, clock: int, s: Sample)
    requires AttemptsKept(m, samples, clock) && clock <= s.at
    ensures AttemptsKept(m[s.lease := DequeOf(m, s.lease) + [Entry(s.at, s.bytes)]], samples + [s], s.at)
  {
    var m' := m[s.lease := DequeOf(m, s.lease) + [Entry(s.at, s.bytes)]];
    forall l ensures Represents(DequeOf(m', l), OfAttempt(samples + [s], l), s.at) {
      assert (samples + [s])[..|samples|] == samples;
      assert Represents(DequeOf(m, l), OfAttempt(samples, l), clock);
      Grown(DequeOf(m, l), OfAttempt(samples, l), clock, s.at, Entry(s.at, s.bytes));
      assert l != s.lease ==> OfAttempt(samples + [s], l) == OfAttempt(samples, l);
    }
  }

  lemma AccountAppended(m: map<AccountId, Deque>, samples: seq<Sample>, clock: int, s: Sample)
    requires AccountsKept(m, samples, clock) && clock <= s.at
    ensures AccountsKept(m[s.lease.accountId := DequeOf(m, s.lease.accountId) + [Entry(s.at, s.bytes)]],
                         samples + [s], s.at)
  {
    var b := s.lease.accountId;
    var m' := m[b := DequeOf(m, b) + [Entry(s.at, s.bytes)]];
    forall a ensures Represents(DequeOf(m', a), OfAccount(samples + [s], a), s.at) {
      assert (samples + [s])[..|samples|] == samples;
      assert Represents(DequeOf(m, a), OfAccount(samples, a), clock);
      Grown(DequeOf(m, a), OfAccount(samples, a), clock, s.at, Entry(s.at, s.bytes));
      assert a != b ==> OfAccount(samples + [s], a) == OfAccount(samples, a);
    }
  }

  /** Every deque is the pruned rest of its part of the history. */
  ghost predicate Kept(attempts: map<Lease, Deque>, accounts: map<AccountId, Deque>, samples: seq<Sample>, clock: int) {
    SortedSamples(samples, clock) && AttemptsKept(attempts, samples, clock) && AccountsKept(accounts, samples, clock)
  }

  lemma KeptLater(attempts: map<Lease, Deque>, accounts: map<AccountId, Deque>, samples: seq<Sample>, clock: int,
        now: int)
    requires Kept(attempts, accounts, samples, clock) && clock <= now
    ensures Kept(attempts, accounts, samples, now)
  {
    forall l ensures Represents(DequeOf(attempts, l), OfAttempt(samples, l), now) {
      assert Represents(DequeOf(attempts, l), OfAttempt(samples, l), clock);
    }
    forall a ensures Represents(DequeOf(accounts, a), OfAccount(samples, a), now) {
      assert Represents(DequeOf(accounts, a), OfAccount(samples, a), clock);
    }
  }

  lemma KeptPruned(attempts: map<Lease, Deque>, accounts: map<AccountId, Deque>, samples: seq<Sample>, clock: int,
        now: int, l: Lease, a: AccountId, kept: Deque)
    requires Kept(attempts, accounts, samples, clock) && clock <= now
    ensures PrunedFrom(kept, DequeOf(attempts, l), now) ==>
      Kept(attempts[l := kept], accounts, samples, now) && Sum(kept) == AttemptBytes(samples, l, now)
    ensures PrunedFrom(kept, DequeOf(accounts, a), now) ==>
      Kept(attempts, accounts[a := kept], samples, now) && Sum(kept) == AccountBytes(samples, a, now)
  {
    KeptLater(attempts, accounts, samples, clock, now);
    if PrunedFrom(kept, DequeOf(attempts, l), now) { AttemptPruned(attempts, samples, clock, now, l, kept); }
    if PrunedFrom(kept, DequeOf(accounts, a), now) { AccountPruned(accounts, samples, clock, now, a, kept); }
  }

  lemma KeptAppended(attempts: map<Lease, Deque>, accounts: map<AccountId, Deque>, samples: seq<Sample>, clock: int,
        s: Sample)
    requires Kept(attempts, accounts, samples, clock) && clock <= s.at
    ensures Kept(attempts[s.lease := DequeOf(attempts, s.lease) + [Entry(s.at, s.bytes)]],
                 accounts[s.lease.accountId := DequeOf(accounts, s.lease.accountId) + [Entry(s.at, s.bytes)]],
                 samples + [s], s.at)
  {
    AttemptAppended(attempts, samples, clock, s);
    AccountAppended(accounts, samples, clock, s);
  }

  class UploadSpeedTracker {
    var effective: map<AccountId, Deque>
    var attemptEffective: map<Lease, Deque>
    var effectiveParts: set<PartKey>
    var physicalTokens: set<Token>
    /** Everything ever recorded, and the latest time anyone looked. */
    ghost var history: Tracker
    ghost var clock: int

    ghost predicate Valid()
      reads this
    {
      && effectiveParts == history.effective.Keys
      && physicalTokens == history.recorded.Keys
      && Kept(attemptEffective, effective, history.samples, clock)
    }

    constructor (now: int)
      ensures Valid() && history == Tracker([], map[], map[]) && clock == now
    {
      effective, attemptEffective := map[], map[];
      effectiveParts, physicalTokens := {}, {};
      history := Tracker([], map[], map[]);
      clock := now;
    }

    /** Drop entries older than the window from the left. */
    static method Prune(samples: Deque, now: int) returns (kept: Deque)
      ensures PrunedFrom(kept, samples, now)
    {
      var cutoff := now - WINDOW;
      kept := samples;
      while kept != [] && kept[0].at < cutoff
        invariant |kept| <= |samples| && kept == samples[|samples| - |kept|..]
        invariant forall i | 0 <= i < |samples| - |kept| :: samples[i].at < cutoff
        decreases |kept|
      {
        kept := kept[1..];
      }
    }

    method WindowBytes(samples: Deque) returns (total: nat)
      ensures total == Sum(samples)
    {
      total := 0;
      for i := 0 to |samples|
        invariant total == Sum(samples[..i])
      {
        assert samples[..i + 1][..i] == samples[..i];
        total := total + samples[i].bytes;
      }
      assert samples[..|samples|] == samples;
    }

    method LiveSpeed(l: Lease, now: int) returns (bytes: nat, speed: real)
      requires Valid() && clock <= now
      modifies this`attemptEffective, this`clock
      ensures Valid() && clock == now
      ensures bytes == AttemptBytes(history.samples, l, now) && speed == Speed(bytes)
    {
      hide Kept, AttemptBytes, Speed, PrunedFrom;
      var kept := Prune(DequeOf(attemptEffective, l), now);
      bytes := WindowBytes(kept);
      speed := Speed(bytes);
      KeptPruned(attemptEffective, effective, history.samples, clock, now, l, 0, kept);
      attemptEffective := attemptEffective[l := kept];
      clock := now;
    }

    method AccountLiveSpeed(a: AccountId, now: int) returns (bytes: nat, speed: real)
      requires Valid() && clock <= now
      modifies this`effective, this`clock
      ensures Valid() && clock == now
      ensures bytes == AccountBytes(history.samples, a, now) && speed == Speed(bytes)
    {
      hide Kept, AccountBytes, Speed, PrunedFrom;
      var kept := Prune(DequeOf(effective, a), now);
      bytes := WindowBytes(kept);
      speed := Speed(bytes);
      KeptPruned(attemptEffective, effective, history.samples, clock, now, Lease(0, 0, 0), a, kept);
      effective := effective[a := kept];
      clock := now;
    }

    method FreezeIdleSnapshot(a: AccountId, now: int) returns (r: Option<IdleSnapshot>)
      requires Valid() && clock <= now
      modifies this`effective, this`clock
      ensures Valid() && clock == now
      ensures r == Freeze(history, now, a)
    {
      var total, speed := AccountLiveSpeed(a, now);
      if total == 0 { return None; }
      return Some(IdleSnapshot(speed, now, now + SNAPSHOT_TTL));
    }

    method RecordEffective(l: Lease, part: nat, bytes: nat, now: int) returns (unseen: bool)
      requires Valid() && clock <= now
      modifies this
      ensures Valid() && clock == now
      ensures history == FailoverModel.RecordEffective(old(history), l, part, bytes, now)
      ensures unseen <==> PartKey(l.taskId, l.attemptId, part) !in old(history.effective)
    {
      var key := PartKey(l.taskId, l.attemptId, part);
      unseen := key !in effectiveParts;
      KeptLater(attemptEffective, effective, history.samples, clock, now);
      if unseen {
        KeptAppended(attemptEffective, effective, history.samples, clock, Sample(now, l, bytes));
        effectiveParts := effectiveParts + {key};
        effective := effective[l.accountId := DequeOf(effective, l.accountId) + [Entry(now, bytes)]];
        attemptEffective := attemptEffective[l := DequeOf(attemptEffective, l) + [Entry(now, bytes)]];
      }
      history := FailoverModel.RecordEffective(history, l, part, bytes, now);
      clock := now;
    }

    method RecordPhysical(token: Token, bytes: nat) returns (unseen: bool)
      requires Valid()
      modifies this`physicalTokens, this`history
      ensures Valid()
      ensures history == FailoverModel.RecordPhysical(old(history), token, bytes)
      ensures unseen <==> token !in old(history.recorded)
    {
      if token in physicalTokens { return false; }
      physicalTokens := physicalTokens + {token};
      history := FailoverModel.RecordPhysical(history, token, bytes);
      return true;
    }
  }
}
