/** Following a game's processes: which ones belong to a session, and which session
    a process belongs to. */
module ProcessTree {
  import opened Foundations
  import opened TextOrder
  import opened PlaytimeSessions

  const HEARTBEAT: int := 60

  datatype ProcessInfo = ProcessInfo(ref: ProcessRef, parent: Option<nat>)

  // ------------------------------------------------------------------- descendants

  /** The process a snapshot lists under a pid: the last one listed. */
  function ByPid(snapshot: seq<ProcessInfo>, pid: nat): Option<ProcessRef> {
    if snapshot == [] then None
    else
      var last := snapshot[|snapshot| - 1];
      if last.ref.pid == pid then Some(last.ref) else ByPid(snapshot[..|snapshot| - 1], pid)
  }

  /** A session's processes that are still the ones running under their pids. */
  function StillThere(snapshot: seq<ProcessInfo>, pids: set<ProcessRef>): set<ProcessRef> {
    set ref | ref in pids && ByPid(snapshot, ref.pid) == Some(ref)
  }

  /** The snapshot lists `child` with `parent`'s pid as its parent. */
  ghost predicate ChildOf(snapshot: seq<ProcessInfo>, parent: ProcessRef, child: ProcessRef) {
    exists k :: 0 <= k < |snapshot| && snapshot[k].ref == child && snapshot[k].parent == Some(parent.pid)
  }

  ghost predicate Lineage(snapshot: seq<ProcessInfo>, seeds: set<ProcessRef>, path: seq<ProcessRef>) {
    && path != [] && path[0] in seeds
    && forall i, j | 0 <= i && j == i + 1 && j < |path| :: ChildOf(snapshot, path[i], path[j])
  }

  /** Some chain of parent links leads from a seed to the process. */
  ghost predicate Descends(snapshot: seq<ProcessInfo>, seeds: set<ProcessRef>, ref: ProcessRef) {
    exists path :: Lineage(snapshot, seeds, path) && path[|path| - 1] == ref
  }

  lemma SeedDescends(snapshot: seq<ProcessInfo>, seeds: set<ProcessRef>, ref: ProcessRef)
    requires ref in seeds
    ensures Descends(snapshot, seeds, ref)
  {
    assert Lineage(snapshot, seeds, [ref]) && [ref][|[ref]| - 1] == ref;
  }

  lemma ChildDescends(snapshot: seq<ProcessInfo>, seeds: set<ProcessRef>, parent: ProcessRef, child: ProcessRef)
    requires Descends(snapshot, seeds, parent) && ChildOf(snapshot, parent, child)
    ensures Descends(snapshot, seeds, child)
  {
    var path :| Lineage(snapshot, seeds, path) && path[|path| - 1] == parent;
    var longer := path + [child];
    forall i, j | 0 <= i && j == i + 1 && j < |longer| ensures ChildOf(snapshot, longer[i], longer[j]) {
      if j < |path| { assert ChildOf(snapshot, path[i], path[j]); }
    }
    assert Lineage(snapshot, seeds, longer) && longer[|longer| - 1] == child;
  }

  /** Every child of a member is a member. */
  ghost predicate Closed(snapshot: seq<ProcessInfo>, retained: set<ProcessRef>) {
    forall p, c | p in retained && ChildOf(snapshot, p, c) :: c in retained
  }

  lemma {:induction false} ClosedHoldsLineages(snapshot: seq<ProcessInfo>, seeds: set<ProcessRef>,
                                              retained: set<ProcessRef>, path: seq<ProcessRef>)
    requires seeds <= retained && Closed(snapshot, retained) && Lineage(snapshot, seeds, path)
    ensures path[|path| - 1] in retained
  {
    if |path| > 1 {
      var front := path[..|path| - 1];
      forall i, j | 0 <= i && j == i + 1 && j < |front| ensures ChildOf(snapshot, front[i], front[j]) {
        assert ChildOf(snapshot, path[i], path[j]);
      }
      ClosedHoldsLineages(snapshot, seeds, retained, front);
      var i, j := |path| - 2, |path| - 1;
      assert ChildOf(snapshot, path[i], path[j]);
    }
  }

  function Listed(snapshot: seq<ProcessInfo>): set<ProcessRef> { set item | item in snapshot :: item.ref }

  function Pids(refs: set<ProcessRef>): set<nat> { set ref | ref in refs :: ref.pid }

  /** One pass over the snapshot against the pids known when the pass began. */
  method Pass(snapshot: seq<ProcessInfo>, retained: set<ProcessRef>) returns (more: set<ProcessRef>, changed: bool)
    ensures retained <= more <= retained + Listed(snapshot) && (changed <==> more != retained)
    ensures forall c | c in more :: c in retained || exists p :: p in retained && ChildOf(snapshot, p, c)
    ensures forall p, c | p in retained && ChildOf(snapshot, p, c) :: c in more
  {
    more, changed := retained, false;
    var known := Pids(retained);
    for i := 0 to |snapshot|
      invariant retained <= more <= retained + Listed(snapshot) && (changed <==> more != retained)
      invariant forall c | c in more :: c in retained || exists p :: p in retained && ChildOf(snapshot, p, c)
      invariant forall k | 0 <= k < i && snapshot[k].parent.Some? && snapshot[k].parent.value in known ::
        snapshot[k].ref in more
    {
      var item := snapshot[i];
      if item.parent.Some? && item.parent.value in known && item.ref !in more {
        ghost var p :| p in retained && p.pid == item.parent.value;
        assert ChildOf(snapshot, p, item.ref);
        assert item.ref in Listed(snapshot);
        more, changed := more + {item.ref}, true;
      }
    }
  }

  /** The change-driven loop of `monitor_once`: exactly the seeds and everything that
      descends from them in the snapshot. */
  method Descendants(snapshot: seq<ProcessInfo>, seeds: set<ProcessRef>) returns (retained: set<ProcessRef>)
    ensures forall ref :: ref in retained <==> Descends(snapshot, seeds, ref)
  {
    retained := seeds;
    var changed := true;
    forall ref | ref in seeds ensures Descends(snapshot, seeds, ref) { SeedDescends(snapshot, seeds, ref); }
    while changed
      invariant seeds <= retained <= seeds + Listed(snapshot)
      invariant forall ref | ref in retained :: Descends(snapshot, seeds, ref)
      invariant !changed ==> Closed(snapshot, retained)
      decreases |seeds + Listed(snapshot)| - |retained|, changed
    {
      ghost var before := retained;
      retained, changed := Pass(snapshot, retained);
      forall c | c in retained ensures Descends(snapshot, seeds, c) {
        if c !in before {
          var p :| p in before && ChildOf(snapshot, p, c);
          ChildDescends(snapshot, seeds, p, c);
        }
      }
      SubsetSize(before, retained);
      SubsetSize(retained, seeds + Listed(snapshot));
    }
    forall ref | Descends(snapshot, seeds, ref) ensures ref in retained {
      var path :| Lineage(snapshot, seeds, path) && path[|path| - 1] == ref;
      ClosedHoldsLineages(snapshot, seeds, retained, path);
    }
  }

  lemma SubsetSize(a: set<ProcessRef>, b: set<ProcessRef>)
    requires a <= b
    ensures |a| <= |b| && (a != b ==> |a| < |b|)
  {
    assert b == a + (b - a);
    assert |b| == |a| + |b - a|;
  }

  // ------------------------------------------------------------------------- claims

  /** Who started earlier; ties go by root and then by id. */
  predicate OwnerLess(a: Session, b: Session) {
    a.start < b.start
    || (a.start == b.start && (TextLess(a.root, b.root) || (a.root == b.root && TextLess(a.id, b.id))))
  }

  predicate Eligible(s: Session, ref: ProcessRef) { s.start as real <= ref.createTime }

  /** The session among those that claim the process, and this one, that gets it. */
  ghost predicate Owns(sessions: map<string, Session>, id: string, ref: ProcessRef)
    requires id in sessions
  {
    && Eligible(sessions[id], ref)
    && forall h | h in sessions && h != id && ref in sessions[h].pids && Eligible(sessions[h], ref) ::
         OwnerLess(sessions[h], sessions[id])
  }

  ghost predicate Disjoint(sessions: map<string, Session>) {
    forall g, h | g in sessions && h in sessions && g != h :: sessions[g].pids !! sessions[h].pids
  }

  /** Exactly one of two different claimants comes first. */
  lemma OwnerTotal(a: Session, b: Session)
    requires a.id != b.id
    ensures OwnerLess(a, b) != OwnerLess(b, a)
  {
    TextTotal(a.root, b.root);
    TextTotal(a.id, b.id);
  }

  /** Two sessions never both own a process that either of them lists. */
  lemma OneOwner(sessions: map<string, Session>, g: string, h: string, ref: ProcessRef)
    requires g in sessions && h in sessions && g != h && sessions[g].id == g && sessions[h].id == h
    requires ref in sessions[g].pids && ref in sessions[h].pids
    ensures !(Owns(sessions, g, ref) && Owns(sessions, h, ref))
  {
    OwnerTotal(sessions[g], sessions[h]);
  }

  lemma OwnerTrans(a: Session, b: Session, c: Session)
    requires OwnerLess(a, b) && OwnerLess(b, c)
    ensures OwnerLess(a, c)
  {
    TextTotal(a.root, b.root);
    if TextLess(a.root, b.root) && TextLess(b.root, c.root) { TextTrans(a.root, b.root, c.root); }
    if TextLess(a.id, b.id) && TextLess(b.id, c.id) { TextTrans(a.id, b.id, c.id); }
  }

  ghost predicate Named(sessions: map<string, Session>) { forall id | id in sessions :: sessions[id].id == id }

  /** Only the pids of a session differ, and only by leaving. */
  ghost predicate Shrunk(before: map<string, Session>, after: map<string, Session>, gone: set<ProcessRef>) {
    && after.Keys == before.Keys
    && forall h | h in before ::
         && after[h] == before[h].(pids := after[h].pids)
         && before[h].pids - gone <= after[h].pids <= before[h].pids
  }

  lemma ShrunkDisjoint(before: map<string, Session>, after: map<string, Session>, gone: set<ProcessRef>)
    requires Shrunk(before, after, gone) && Disjoint(before) && Named(before)
    ensures Disjoint(after) && Named(after)
  {
  }

  lemma StrippedOne(before: map<string, Session>, known: map<string, Session>, h: string, ref: ProcessRef)
    requires Shrunk(before, known, {ref}) && h in known
    ensures Shrunk(before, known[h := known[h].(pids := known[h].pids - {ref})], {ref})
  {
  }

  lemma ShrunkTrans(a: map<string, Session>, b: map<string, Session>, c: map<string, Session>, x: set<ProcessRef>,
        y: set<ProcessRef>)
    requires Shrunk(a, b, x) && Shrunk(b, c, y)
    ensures Shrunk(a, c, x + y)
  {
  }

  /** A claim on one process does not decide another. */
  lemma ShrunkOwner(before: map<string, Session>, after: map<string, Session>, gone: set<ProcessRef>, id: string,
        ref: ProcessRef)
    requires Shrunk(before, after, gone) && id in before && ref !in gone
    ensures Owns(before, id, ref) <==> Owns(after, id, ref)
  {
  }

  datatype Poll = Changed | Unchanged | SaveFailed

  class GameLauncher {
    var sessions: map<string, Session>
    /** The durable store's snapshot. */
    var disk: map<string, Session>
    var lastAlive: map<string, int>
    var emptyPolls: map<string, nat>
    /** Whether the store's `n`th save succeeds, and how many were made. */
    const lands: nat -> bool
    var saves: nat

    ghost predicate Valid()
      reads this
    {
      Named(sessions) && Disjoint(sessions) && disk == sessions
    }

    /** Starts on the sessions the store holds, as an earlier launcher left them. */
    constructor (stored: map<string, Session>, lands: nat -> bool)
      requires Named(stored) && Disjoint(stored)
      ensures Valid() && sessions == stored && saves == 0 && this.lands == lands
      ensures lastAlive == map[] && emptyPolls == map[]
    {
      sessions, disk, lastAlive, emptyPolls := stored, stored, map[], map[];
      this.lands, saves := lands, 0;
    }

    /** No save failed since the first `n`. */
    ghost predicate AllLanded(n: nat)
      reads this
    {
      forall k | n <= k < saves :: lands(k)
    }

    method Save(s: Session) returns (ok: bool)
      modifies this`disk, this`saves
      ensures saves == old(saves) + 1 && ok == lands(old(saves))
      ensures disk == if ok then old(disk)[s.id := s] else old(disk)
    {
      ok := lands(saves);
      saves := saves + 1;
      if ok { disk := disk[s.id := s]; }
    }

    /** The latest of some sessions. */
    method Latest(ids: set<string>) returns (owner: string)
      requires Named(sessions) && ids != {} && ids <= sessions.Keys
      ensures owner in ids && forall h | h in ids && h != owner :: OwnerLess(sessions[h], sessions[owner])
    {
      owner :| owner in ids;
      var rest := ids - {owner};
      while rest != {}
        invariant rest <= ids && owner in ids && owner !in rest
        invariant forall h | h in ids - rest && h != owner :: OwnerLess(sessions[h], sessions[owner])
        decreases |rest|
      {
        var h :| h in rest;
        rest := rest - {h};
        OwnerTotal(sessions[h], sessions[owner]);
        if OwnerLess(sessions[owner], sessions[h]) {
          forall k | k in ids - rest && k != h ensures OwnerLess(sessions[k], sessions[h]) {
            if k != owner { OwnerTrans(sessions[k], sessions[owner], sessions[h]); }
          }
          owner := h;
        }
      }
    }

    /** `claim_process`: the latest eligible claimant takes the process from the
        others, one durable save each; a failed save undoes itself and the claim. */
    method ClaimProcess(id: string, ref: ProcessRef) returns (ok: bool)
      requires Valid() && id in sessions
      modifies this`sessions, this`disk, this`saves
      ensures Valid() && Shrunk(old(sessions), sessions, {ref}) && sessions[id] == old(sessions)[id]
        && old(saves) <= saves
      ensures ok ==> Owns(old(sessions), id, ref) && forall h | h in sessions && h != id :: ref !in sessions[h].pids
      ensures !ok && Owns(old(sessions), id, ref) ==> !AllLanded(old(saves))
      ensures !ok && !Owns(old(sessions), id, ref) ==> sessions == old(sessions)
    {
      hide Disjoint, OwnerLess;
      var claimants := (set h | h in sessions && ref in sessions[h].pids) + {id};
      var eligible := set h | h in claimants && Eligible(sessions[h], ref);
      if eligible == {} {
        assert id in claimants && id !in eligible;
        return false;
      }
      var owner := Latest(eligible);
      if owner != id {
        assert OwnerLess(sessions[id], sessions[owner]) || id !in eligible;
        NotOwner(sessions, id, owner, ref);
        return false;
      }
      ok := TakeFromOthers(id, claimants - {id}, ref);
    }

    /** Take the process from one session, and put it back if the save fails. */
    method Strip(h: string, ref: ProcessRef) returns (saved: bool)
      requires disk == sessions && h in sessions && sessions[h].id == h
      modifies this`sessions, this`disk, this`saves
      ensures disk == sessions && saves == old(saves) + 1 && saved == lands(old(saves))
      ensures sessions == if saved then old(sessions)[h := old(sessions)[h].(pids := old(sessions)[h].pids - {ref})]
                          else old(sessions)
    {
      var previous := sessions[h].pids;
      sessions := sessions[h := sessions[h].(pids := previous - {ref})];
      saved := Save(sessions[h]);
      if !saved {
        sessions := sessions[h := sessions[h].(pids := previous)];
        assert sessions == old(sessions);
      }
    }

    method TakeFromOthers(id: string, others: set<string>, ref: ProcessRef) returns (ok: bool)
      requires Valid() && id in sessions && id !in others
      requires forall h | h in sessions && h != id :: h in others <==> ref in sessions[h].pids
      requires others <= sessions.Keys
      modifies this`sessions, this`disk, this`saves
      ensures Valid() && Shrunk(old(sessions), sessions, {ref}) && sessions[id] == old(sessions)[id]
        && old(saves) <= saves
      ensures ok ==> forall h | h in sessions && h != id :: ref !in sessions[h].pids
      ensures !ok ==> !AllLanded(old(saves))
    {
      hide Disjoint;
      ghost var before := sessions;
      var todo := others;
      while todo != {}
        invariant todo <= others && disk == sessions && old(saves) <= saves
        invariant Shrunk(before, sessions, {ref}) && sessions[id] == before[id]
        invariant forall h | h in sessions && h != id && h !in todo :: ref !in sessions[h].pids
        decreases |todo|
      {
        var h :| h in todo;
        todo := todo - {h};
        ghost var known := sessions;
        var saved := Strip(h, ref);
        if !saved {
          ShrunkDisjoint(before, sessions, {ref});
          return false;
        }
        StrippedOne(before, known, h, ref);
      }
      ShrunkDisjoint(before, sessions, {ref});
      return true;
    }

    /** Every wanted process that this session's claim wins. */
    method ClaimAll(id: string, wanted: set<ProcessRef>) returns (owned: set<ProcessRef>)
      requires Valid() && id in sessions
      modifies this`sessions, this`disk, this`saves
      ensures Valid() && Shrunk(old(sessions), sessions, wanted) && sessions[id] == old(sessions)[id]
        && old(saves) <= saves
      ensures forall ref | ref in owned :: ref in wanted && Owns(old(sessions), id, ref)
      ensures forall ref, h | ref in owned && h in sessions && h != id :: ref !in sessions[h].pids
      ensures AllLanded(old(saves)) ==> Shrunk(old(sessions), sessions, owned)
      ensures AllLanded(old(saves)) ==> forall ref | ref in wanted && Owns(old(sessions), id, ref) :: ref in owned
    {
      hide Disjoint, Owns, Named;
      ghost var before := sessions;
      var todo := wanted;
      owned := {};
      while todo != {}
        invariant todo <= wanted && owned <= wanted - todo
        invariant Valid() && Shrunk(before, sessions, wanted - todo) && sessions[id] == before[id]
          && old(saves) <= saves
        invariant forall ref | ref in owned :: Owns(before, id, ref)
        invariant forall ref, h | ref in owned && h in sessions && h != id :: ref !in sessions[h].pids
        invariant AllLanded(old(saves)) ==> Shrunk(before, sessions, owned)
        invariant AllLanded(old(saves)) ==> forall ref | ref in wanted - todo && Owns(before, id, ref) :: ref in owned
        decreases |todo|
      {
        var ref :| ref in todo;
        ghost var known := sessions;
        ShrunkOwner(before, known, wanted - todo, id, ref);
        var claimed := ClaimProcess(id, ref);
        ShrunkTrans(before, known, sessions, wanted - todo, {ref});
        if claimed && Shrunk(before, known, owned) { ShrunkTrans(before, known, sessions, owned, {ref}); }
        assert wanted - (todo - {ref}) == (wanted - todo) + {ref};
        todo := todo - {ref};
        if claimed { owned := owned + {ref}; }
      }
    }

    /** The processes of the game's directory that started with the session or later. */
    method RootScan(s: Session, snapshot: seq<ProcessInfo>, inRoot: ProcessRef -> bool) returns (found: set<ProcessRef>)
      ensures forall ref :: ref in found <==> ref in Listed(snapshot) && Eligible(s, ref) && inRoot(ref)
    {
      found := {};
      for i := 0 to |snapshot|
        invariant forall ref ::
          ref in found <==> Eligible(s, ref) && inRoot(ref) && exists k :: 0 <= k < i && snapshot[k].ref == ref
      {
        if Eligible(s, snapshot[i].ref) && inRoot(snapshot[i].ref) { found := found + {snapshot[i].ref}; }
      }
      forall ref ensures ref in Listed(snapshot) <==> exists k :: 0 <= k < |snapshot| && snapshot[k].ref == ref {
        if ref in Listed(snapshot) {
          var item :| item in snapshot && item.ref == ref;
        }
      }
    }

    /** `monitor_once` */
    method MonitorOnce(id: string, snapshot: seq<ProcessInfo>, inRoot: ProcessRef -> bool, now: int) returns (r: Poll)
      requires Valid() && id in sessions
      modifies this
      ensures Valid() && sessions.Keys == old(sessions.Keys) && old(saves) <= saves
      ensures forall h | h in sessions && h != id ::
        sessions[h] == old(sessions)[h].(pids := sessions[h].pids) && sessions[h].pids <= old(sessions)[h].pids
      ensures r == SaveFailed ==> sessions[id] == old(sessions)[id] && !AllLanded(old(saves))
      ensures r != SaveFailed ==> forall ref | ref in sessions[id].pids ::
        Belongs(old(sessions)[id], snapshot, inRoot, ref) && Owns(old(sessions), id, ref)
      ensures AllLanded(old(saves)) ==>
        forall ref | Belongs(old(sessions)[id], snapshot, inRoot, ref) && Owns(old(sessions), id, ref) ::
          ref in sessions[id].pids
      ensures AllLanded(old(saves)) ==>
        forall h | h in sessions && h != id :: sessions[h].pids == old(sessions)[h].pids - sessions[id].pids
      ensures r != SaveFailed && sessions[id].pids != {} ==> emptyPolls == old(emptyPolls)[id := 0]
      ensures r != SaveFailed && sessions[id].pids == {} ==> emptyPolls == old(emptyPolls)[id :=
        if old(sessions)[id].pids != {} then 1 else (if id in old(emptyPolls) then old(emptyPolls)[id] else 0) + 1]
    {
      hide Descends, Owns, OwnerLess, Lineage;
      var session := sessions[id];
      var retained := Descendants(snapshot, StillThere(snapshot, session.pids));
      var inside := RootScan(session, snapshot, inRoot);
      var current := ClaimAll(id, retained + inside);
      if current != {} { lastAlive := lastAlive[id := now]; }
      r := Settle(id, current, now);
    }

    /** Record the result of one poll. */
    method Settle(id: string, current: set<ProcessRef>, now: int) returns (r: Poll)
      requires Valid() && id in sessions
      requires forall ref, h | ref in current && h in sessions && h != id :: ref !in sessions[h].pids
      modifies this`sessions, this`disk, this`saves, this`emptyPolls
      ensures Valid() && sessions.Keys == old(sessions.Keys) && old(saves) <= saves
      ensures forall h | h in sessions && h != id :: sessions[h] == old(sessions)[h]
      ensures if r == SaveFailed then sessions == old(sessions) && !AllLanded(old(saves))
              else sessions[id].pids == current
      ensures r != SaveFailed ==> emptyPolls == old(emptyPolls)[id :=
        if current != {} then 0
        else if current != old(sessions)[id].pids then 1
        else (if id in old(emptyPolls) then old(emptyPolls)[id] else 0) + 1]
    {
      var previous := sessions[id];
      if current != previous.pids {
        var saved := Update(id, previous.(pids := current));
        if !saved { return SaveFailed; }
        emptyPolls := emptyPolls[id := if current == {} then 1 else 0];
        return Changed;
      }
      if current == {} {
        emptyPolls := emptyPolls[id := (if id in emptyPolls then emptyPolls[id] else 0) + 1];
        return Unchanged;
      }
      emptyPolls := emptyPolls[id := 0];
      if now - previous.lastSeen >= HEARTBEAT {
        var saved := Update(id, previous.(lastSeen := now));
        return if saved then Changed else SaveFailed;
      }
      return Unchanged;
    }

    /** Change one session in memory and on disk, or in neither. */
    method Update(id: string, s: Session) returns (saved: bool)
      requires Valid() && id in sessions && s.id == id
      requires forall h | h in sessions && h != id :: s.pids !! sessions[h].pids
      modifies this`sessions, this`disk, this`saves
      ensures Valid() && saves == old(saves) + 1 && saved == lands(old(saves))
      ensures sessions == if saved then old(sessions)[id := s] else old(sessions)
    {
      var previous := sessions[id];
      sessions := sessions[id := s];
      saved := Save(s);
      if !saved {
        sessions := sessions[id := previous];
        assert sessions == old(sessions);
      }
    }
  }

  /** A process of the session: it descends from one that is still there, or it runs
      from the game's directory and is no older than the session. */
  ghost predicate Belongs(s: Session, snapshot: seq<ProcessInfo>, inRoot: ProcessRef -> bool, ref: ProcessRef) {
    || Descends(snapshot, StillThere(snapshot, s.pids), ref)
    || (ref in Listed(snapshot) && Eligible(s, ref) && inRoot(ref))
  }

  lemma NotOwner(sessions: map<string, Session>, id: string, owner: string, ref: ProcessRef)
    requires id in sessions && owner in sessions && owner != id && Named(sessions)
    requires ref in sessions[owner].pids && Eligible(sessions[owner], ref)
    requires Eligible(sessions[id], ref) ==> OwnerLess(sessions[id], sessions[owner])
    ensures !Owns(sessions, id, ref)
  {
    OwnerTotal(sessions[id], sessions[owner]);
  }
}
