/** Settling play sessions without losing one: the running store, the queue and
    the server's acknowledgments, over any history of calls and crashes. */
module PlaytimeSessions {
  import opened Foundations
  import opened Bytes
  import opened PlaytimeLog
  import opened PlaytimeQueue

  datatype ProcessRef = ProcessRef(pid: nat, createTime: real)

  datatype Session = Session(
    id: string, gameId: string, device: string, start: int, root: string, pids: set<ProcessRef>, lastSeen: int)

  /** The record `finish` queues for a session. */
  function RecordFor(s: Session): Record {
    Record(s.id, s.gameId, s.device, s.start, s.lastSeen, Max(0, s.lastSeen - s.start))
  }

  /** What is on disk, and what has ever happened: the ids saved to the store, the
      ids whose record was seen in the queue or written to it whole (whose writer may still
      have got an error, when syncing failed after the write), and the ids the server accepted. */
  datatype World = World(
    store: map<string, Session>, log: seq<Byte>, saved: set<string>, queued: set<string>, acked: set<string>)

  function Empty(): World { World(map[], [], {}, {}, {}) }

  /** One durable step, or the part of it that happened before a crash. `lands`
      says whether a whole-file replacement took place, `bytes` how much of an
      append reached the file. */
  datatype Event =
    | SaveSession(session: Session, lands: bool)
    | AppendRecord(record: Record, bytes: nat)
    | AskContains(id: string)
    | RemoveSession(id: string, lands: bool)
    | Acknowledge(id: string, lands: bool)
    | Reopen

  function OnAppend(c: Codec, w: World, rs: seq<Record>, f: seq<Byte>, r: Record, bytes: nat): World {
    if r.id == "" then w.(log := f)
    else if Has(rs, r.id) then w.(log := f, queued := w.queued + {r.id})
    else if bytes < |Payload(c, r)| then w.(log := Torn(c, f, r, bytes))
    else w.(log := f + Payload(c, r), queued := w.queued + {r.id})
  }

  /** Every queue call reads and repairs the file first. A store entry may be
      removed only once its record was queued. */
  function Step(c: Codec, w: World, e: Event): World {
    match e
    case SaveSession(s, lands) =>
      if lands then w.(store := w.store[s.id := s], saved := w.saved + {s.id}) else w
    case RemoveSession(id, lands) =>
      if lands && id in w.queued then w.(store := w.store - {id}) else w
    case _ =>
      match Load(c, w.log, 1)
      case Corrupt(_) => w
      case Loaded(rs, f) =>
        match e
        case AppendRecord(r, bytes) => OnAppend(c, w, rs, f, r, bytes)
        case AskContains(id) => w.(log := f, queued := w.queued + if Has(rs, id) then {id} else {})
        case Acknowledge(id, lands) =>
          if !Has(rs, id) then w.(log := f)
          else w.(acked := w.acked + {id}, log := if lands then Written(c, Remaining(rs, id)) else f)
        case _ => w.(log := f)
  }

  function Run(c: Codec, w: World, events: seq<Event>): World
    decreases |events|
  {
    if events == [] then w else Step(c, Run(c, w, events[..|events| - 1]), events[|events| - 1])
  }

  // ------------------------------------------------------------------ nothing is lost

  /** The file reads, as these records. */
  ghost predicate Reads(c: Codec, log: seq<Byte>, rs: seq<Record>) {
    Load(c, log, 1).Loaded? && Load(c, log, 1).records == rs
  }

  ghost predicate Accounted(w: World, rs: seq<Record>) {
    && DistinctIds(rs) && NamedRecords(rs)
    && (forall id | id in w.queued :: Has(rs, id) || id in w.acked)
    && (forall id | id in w.saved :: id in w.store || Has(rs, id) || id in w.acked)
  }

  /** Every session ever saved is still in the store, or queued, or accepted; no id
      is queued twice; and the queue file never turns unreadable. */
  ghost predicate Safe(c: Codec, w: World) {
    Load(c, w.log, 1).Loaded? && Accounted(w, Load(c, w.log, 1).records)
  }

  lemma SafeAs(c: Codec, w: World, rs: seq<Record>)
    requires Reads(c, w.log, rs) && Accounted(w, rs)
    ensures Safe(c, w)
  {
  }

  lemma AfterRepair(c: Codec, log: seq<Byte>)
    requires Load(c, log, 1).Loaded?
    ensures var l := Load(c, log, 1); Reads(c, l.file, l.records) && Clean(c, l.file) && Records(c, l.file) == l.records
  {
    RepairTwice(c, log);
    RepairedIsClean(c, log, 1);
  }

  lemma AppendSafe(c: Codec, w: World, r: Record, bytes: nat)
    requires Lawful(c) && Safe(c, w)
    ensures Safe(c, Step(c, w, AppendRecord(r, bytes)))
  {
    hide Load, Lawful, Written, DistinctIds, NamedRecords, Clean, Records;
    var rs, f := Load(c, w.log, 1).records, Load(c, w.log, 1).file;
    var w' := OnAppend(c, w, rs, f, r, bytes);
    AfterRepair(c, w.log);
    if r.id == "" || Has(rs, r.id) {
      SafeAs(c, w', rs);
    } else if bytes < |Payload(c, r)| {
      CrashSafeAppend(c, f, r, bytes);
      OneMoreRecord(rs, r);
      SafeAs(c, w', Load(c, w'.log, 1).records);
    } else {
      CrashSafeAppend(c, f, r, |Payload(c, r)|);
      assert Torn(c, f, r, |Payload(c, r)|) == f + Payload(c, r);
      OneMoreRecord(rs, r);
      SafeAs(c, w', rs + [r]);
    }
  }

  lemma OneMoreRecord(rs: seq<Record>, r: Record)
    requires DistinctIds(rs) && NamedRecords(rs) && !Has(rs, r.id) && r.id != ""
    ensures DistinctIds(rs + [r]) && NamedRecords(rs + [r]) && rs + [] == rs
    ensures forall x :: Has(rs + [r], x) <==> Has(rs, x) || x == r.id
  {
    DistinctSnoc(rs, r);
    HasSnoc(rs, r);
  }

  lemma AcknowledgeSafe(c: Codec, w: World, id: string, lands: bool)
    requires Lawful(c) && Safe(c, w)
    ensures Safe(c, Step(c, w, Acknowledge(id, lands)))
  {
    hide Load, Lawful, Written, DistinctIds, NamedRecords, Clean, Records;
    var rs := Load(c, w.log, 1).records;
    var w' := Step(c, w, Acknowledge(id, lands));
    AfterRepair(c, w.log);
    if Has(rs, id) && lands {
      RemainingIs(rs, id);
      WrittenBack(c, Remaining(rs, id));
      SafeAs(c, w', Remaining(rs, id));
    } else {
      SafeAs(c, w', rs);
    }
  }

  lemma WrittenBack(c: Codec, rs: seq<Record>)
    requires Lawful(c) && NamedRecords(rs)
    ensures Reads(c, Written(c, rs), rs)
  {
    WrittenReads(c, rs);
  }

  lemma StepSafe(c: Codec, w: World, e: Event)
    requires Lawful(c) && Safe(c, w)
    ensures Safe(c, Step(c, w, e))
  {
    hide Lawful, DistinctIds, NamedRecords, Clean, Records, Load;
    match e {
      case AppendRecord(r, bytes) => AppendSafe(c, w, r, bytes);
      case Acknowledge(id, lands) => AcknowledgeSafe(c, w, id, lands);
      case SaveSession(_, _) =>
      case RemoveSession(_, _) =>
      case _ =>
        AfterRepair(c, w.log);
        SafeAs(c, Step(c, w, e), Load(c, w.log, 1).records);
    }
  }

  lemma {:induction false} RunSafe(c: Codec, w: World, events: seq<Event>)
    requires Lawful(c) && Safe(c, w)
    ensures Safe(c, Run(c, w, events))
    decreases |events|
  {
    if events != [] {
      var front := events[..|events| - 1];
      RunSafe(c, w, front);
      StepSafe(c, Run(c, w, front), events[|events| - 1]);
    }
  }

  /** Whatever is called, in whatever order, and wherever it crashes. */
  lemma NoSessionIsLost(c: Codec, events: seq<Event>)
    requires Lawful(c)
    ensures var w := Run(c, Empty(), events);
      && Load(c, w.log, 1).Loaded?
      && DistinctIds(Load(c, w.log, 1).records)
      && forall id | id in w.saved :: id in w.store || Has(Load(c, w.log, 1).records, id) || id in w.acked
  {
    assert Load(c, [], 1) == Loaded([], []);
    assert Safe(c, Empty());
    RunSafe(c, Empty(), events);
  }

  /** A store entry only ever disappears when its record is queued or accepted. */
  lemma RemovedOnlyWhenQueued(c: Codec, events: seq<Event>, e: Event, id: string)
    requires Lawful(c)
    ensures var w := Run(c, Empty(), events);
      && Load(c, w.log, 1).Loaded?
      && (id in w.store && id !in Step(c, w, e).store ==>
            (Has(Load(c, w.log, 1).records, id) || id in w.acked) && e == RemoveSession(id, true))
  {
    assert Load(c, [], 1) == Loaded([], []);
    assert Safe(c, Empty());
    RunSafe(c, Empty(), events);
  }

  // ----------------------------------------------------------------- the objects

  /** The running store: a map in memory and its snapshot on disk. `lands` says
      whether the snapshot replaced the old one or the write failed. */
  class RunningSessionStore {
    var sessions: map<string, Session>
    var disk: map<string, Session>

    ghost predicate Valid()
      reads this
    {
      sessions == disk && forall id | id in sessions :: sessions[id].id == id
    }

    constructor (disk: map<string, Session>)
      requires forall id | id in disk :: disk[id].id == id
      ensures Valid() && this.disk == disk
    {
      sessions, this.disk := disk, disk;
    }

    method Save(s: Session, lands: bool)
      requires Valid()
      modifies this
      ensures Valid() && disk == if lands then old(disk)[s.id := s] else old(disk)
    {
      var previous := if s.id in sessions then Some(sessions[s.id]) else None;
      sessions := sessions[s.id := s];
      if lands {
        disk := sessions;
      } else {
        sessions := if previous.None? then sessions - {s.id} else sessions[s.id := previous.value];
        assert sessions == disk;
      }
    }

    method Remove(id: string, lands: bool)
      requires Valid()
      modifies this
      ensures Valid() && disk == if lands then old(disk) - {id} else old(disk)
    {
      var previous := if id in sessions then Some(sessions[id]) else None;
      sessions := sessions - {id};
      if lands {
        disk := sessions;
      } else {
        if previous.Some? { sessions := sessions[id := previous.value]; }
        assert sessions == disk;
      }
    }
  }

  /** How the durable steps of one call go: how much of the append reaches the
      file if it breaks off, and whether the store's snapshots land. */
  datatype Fault = Fault(torn: Option<nat>, lands: bool)

  const CALM: Fault := Fault(None, true)

  /** Either out of the store with its record queued, or resumed. */
  ghost predicate Settled(store: map<string, Session>, queued: set<string>, id: string, running: set<ProcessRef>) {
    if id in store then running != {} && store[id].pids == running else id in queued
  }

  class PlaytimeService {
    const store: RunningSessionStore
    const queue: PlaytimeQueue
    /** What is on disk now, with its history. */
    ghost var world: World

    ghost predicate Valid()
      reads this, store, queue
    {
      && store.Valid() && Lawful(queue.codec)
      && world.store == store.disk && world.log == queue.disk && Safe(queue.codec, world)
    }

    constructor (store: RunningSessionStore, queue: PlaytimeQueue, ghost world: World)
      requires store.Valid() && Lawful(queue.codec)
      requires world.store == store.disk && world.log == queue.disk && Safe(queue.codec, world)
      ensures Valid() && this.store == store && this.queue == queue && this.world == world
    {
      this.store, this.queue, this.world := store, queue, world;
    }

    /** `append`, as the step of the history it is. */
    method Append(r: Record, torn: Option<nat>) returns (ok: bool)
      requires Valid() && (torn.Some? ==> torn.value <= |Payload(queue.codec, r)|)
      modifies this`world, queue
      ensures Valid() && world.store == old(world.store) && world.saved == old(world.saved)
      ensures old(world.queued) <= world.queued && (ok ==> r.id in world.queued)
      ensures r.id != "" && torn.None? && !old(queue.failed) ==> ok && !queue.failed
    {
      hide Lawful, Load, Written, Accounted;
      ghost var bytes := if torn.Some? then torn.value else |Payload(queue.codec, r)|;
      StepSafe(queue.codec, world, AppendRecord(r, bytes));
      if queue.failed { return false; }
      var outcome := queue.Append(r, torn);
      ok := outcome == Done;
      world := Step(queue.codec, world, AppendRecord(r, bytes));
    }

    /** Queue first, and only then leave the store. */
    method Finish(s: Session, fault: Fault) returns (done: bool)
      requires Valid() && (fault.torn.Some? ==> fault.torn.value <= |Payload(queue.codec, RecordFor(s))|)
      modifies this`world, store, queue
      ensures Valid() && world.saved == old(world.saved) && old(world.queued) <= world.queued
      ensures done ==> s.id in world.queued && store.disk == old(store.disk) - {s.id}
      ensures !done ==> store.disk == old(store.disk)
      ensures s.id != "" && fault == CALM && !old(queue.failed) ==> done && !queue.failed
    {
      hide Lawful, Load, Written, Accounted;
      var queued := Append(RecordFor(s), fault.torn);
      if !queued { return false; }
      store.Remove(s.id, fault.lands);
      StepSafe(queue.codec, world, RemoveSession(s.id, fault.lands));
      world := Step(queue.codec, world, RemoveSession(s.id, fault.lands));
      return fault.lands;
    }

    method Contains(id: string) returns (ok: bool, found: bool)
      requires Valid()
      modifies this`world, queue`disk, queue`records
      ensures Valid() && world.store == old(world.store) && world.saved == old(world.saved)
      ensures old(world.queued) <= world.queued && (found ==> id in world.queued)
      ensures ok <==> !queue.failed
    {
      hide Lawful, Load, Written, Accounted;
      found := false;
      StepSafe(queue.codec, world, AskContains(id));
      if queue.failed { return false, false; }
      var outcome;
      outcome, found := queue.Contains(id);
      ok := outcome == Done;
      world := Step(queue.codec, world, AskContains(id));
    }

    /** One session of `recover_sessions`: settled already, still running, or to be
        finished now. `running` are its processes that are still alive. */
    method RecoverOne(s: Session, running: set<ProcessRef>, fault: Fault) returns (done: bool)
      requires Valid() && s.id in store.disk && store.disk[s.id] == s
      requires fault.torn.Some? ==> fault.torn.value <= |Payload(queue.codec, RecordFor(s))|
      modifies this`world, store, queue
      ensures Valid() && old(world.queued) <= world.queued
        && old(world.saved) <= world.saved <= old(world.saved) + {s.id}
      ensures store.disk == old(store.disk) || store.disk == old(store.disk) - {s.id}
           || (running != {} && store.disk == old(store.disk)[s.id := s.(pids := running)])
      ensures done ==> Settled(store.disk, world.queued, s.id, running)
      ensures s.id != "" && fault == CALM && !old(queue.failed) ==> done && !queue.failed
    {
      hide Lawful, Load, Written, Accounted;
      var ok, found := Contains(s.id);
      if !ok { return false; }
      if found {
        store.Remove(s.id, fault.lands);
        StepSafe(queue.codec, world, RemoveSession(s.id, fault.lands));
        world := Step(queue.codec, world, RemoveSession(s.id, fault.lands));
        return fault.lands;
      }
      if running != {} {
        var resumed := s.(pids := running);
        store.Save(resumed, fault.lands);
        StepSafe(queue.codec, world, SaveSession(resumed, fault.lands));
        world := Step(queue.codec, world, SaveSession(resumed, fault.lands));
        return fault.lands;
      }
      done := Finish(s, fault);
    }

    /** `recover_sessions`, in any order; the first failing step ends it. */
    method RecoverSessions(running: string -> set<ProcessRef>, faults: string -> Fault) returns (done: bool)
      requires Valid() && forall id | id in store.disk :: id != ""
      requires forall id | id in store.disk && faults(id).torn.Some? ::
        faults(id).torn.value <= |Payload(queue.codec, RecordFor(store.disk[id]))|
      modifies this`world, store, queue
      ensures Valid() && store.disk.Keys <= old(store.disk.Keys)
      ensures done ==> forall id | id in old(store.disk) :: Settled(store.disk, world.queued, id, running(id))
      ensures (forall id | id in old(store.disk) :: faults(id) == CALM) && !old(queue.failed) ==> done
    {
      hide Lawful, Load, Written, Accounted, Safe;
      ghost var before := store.disk;
      var todo := store.sessions.Keys;
      while todo != {}
        invariant Valid() && todo <= before.Keys && store.disk.Keys <= before.Keys
        invariant forall id | id in todo :: id in store.disk && store.disk[id] == before[id]
        invariant forall id | id in before && id !in todo :: Settled(store.disk, world.queued, id, running(id))
        invariant (forall id | id in before :: faults(id) == CALM) && !old(queue.failed) ==> !queue.failed
        decreases |todo|
      {
        var id :| id in todo;
        done := RecoverOne(store.sessions[id], running(id), faults(id));
        if !done { return; }
        todo := todo - {id};
      }
      done := true;
    }
  }
}
