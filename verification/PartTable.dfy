/** The parts of a remote file: which messages hold it, where each starts, and
    which bytes of which part a range of the file touches. */
module PartTable {
  import opened Foundations
  import opened Bytes

  /** Message numbers are only unique within one account. */
  datatype Identity = Identity(account: nat, messageId: int)

  datatype RemotePart = RemotePart(messageId: int, size: int, account: nat, fileId: string)

  datatype Part = Part(remote: RemotePart, start: nat)

  datatype Take = Take(index: nat, inner: nat, bytes: nat)

  /** What each Telegram document really holds. */
  type Store = Identity -> seq<Byte>

  function IdentityOf(p: RemotePart): Identity { Identity(p.account, p.messageId) }

  /** A part stands for the first `size` bytes of its document. */
  function BytesOf(p: RemotePart, store: Store): seq<Byte> { Clip(store(IdentityOf(p)), 0, p.size) }

  /** The file the parts add up to. */
  function Flat(parts: seq<RemotePart>, store: Store): seq<Byte> {
    if parts == [] then []
    else Flat(parts[..|parts| - 1], store) + BytesOf(parts[|parts| - 1], store)
  }

  function SumSizes(parts: seq<RemotePart>): int {
    if parts == [] then 0 else SumSizes(parts[..|parts| - 1]) + parts[|parts| - 1].size
  }

  /** Only the last document may hold less than is registered for it. */
  predicate Full(parts: seq<RemotePart>, store: Store) {
    forall i | 0 <= i < |parts| - 1 :: |store(IdentityOf(parts[i]))| >= parts[i].size
  }

  lemma FlatSnoc(parts: seq<RemotePart>, last: RemotePart, store: Store)
    ensures Flat(parts + [last], store) == Flat(parts, store) + BytesOf(last, store)
    ensures Flat([last], store) == BytesOf(last, store)
  {
    assert (parts + [last])[..|parts|] == parts;
    assert [last][..0] == [];
  }

  lemma SumSnoc(parts: seq<RemotePart>, last: RemotePart)
    ensures SumSizes(parts + [last]) == SumSizes(parts) + last.size
  {
    assert (parts + [last])[..|parts|] == parts;
  }

  lemma {:induction false} FlatAppend(a: seq<RemotePart>, b: seq<RemotePart>, store: Store)
    ensures Flat(a + b, store) == Flat(a, store) + Flat(b, store)
  {
    if b == [] {
      assert a + b == a;
    } else {
      var c := b[..|b| - 1];
      assert (a + b)[..|a + b| - 1] == a + c;
      FlatAppend(a, c, store);
      assert Flat(b, store) == Flat(c, store) + BytesOf(b[|b| - 1], store);
    }
  }

  // ----------------------------------------------------------------- part table

  /** The parts that carry bytes, in order. */
  function Sized(parts: seq<RemotePart>): seq<RemotePart> {
    if parts == [] then []
    else
      var last := parts[|parts| - 1];
      Sized(parts[..|parts| - 1]) + if last.size <= 0 then [] else [last]
  }

  function Remotes(table: seq<Part>): (r: seq<RemotePart>)
    ensures |r| == |table| && forall i | 0 <= i < |table| :: r[i] == table[i].remote
  {
    seq(|table|, i requires 0 <= i < |table| => table[i].remote)
  }

  /** No gaps and no empty parts, from zero to `total`. */
  ghost predicate Laid(table: seq<Part>, total: int) {
    if table == [] then total == 0
    else
      var last := table[|table| - 1];
      && last.remote.size > 0 && last.start + last.remote.size == total
      && Laid(table[..|table| - 1], last.start)
  }

  lemma {:induction false} LaidAt(table: seq<Part>, total: int, i: nat)
    requires Laid(table, total) && i < |table|
    ensures table[i].remote.size > 0 && Laid(table[..i], table[i].start)
    ensures i == 0 ==> table[i].start == 0
    ensures table[i].start + table[i].remote.size == (if i + 1 < |table| then table[i + 1].start else total) <= total
  {
    var front := table[..|table| - 1];
    if i < |table| - 1 {
      LaidAt(front, table[|table| - 1].start, i);
      assert front[..i] == table[..i];
      if i + 1 < |table| - 1 { assert front[i + 1] == table[i + 1]; }
    }
  }

  method BuildPartTable(parts: seq<RemotePart>) returns (table: seq<Part>, total: nat)
    ensures Laid(table, total) && Remotes(table) == Sized(parts)
  {
    table, total := [], 0;
    for i := 0 to |parts|
      invariant Laid(table, total) && Remotes(table) == Sized(parts[..i])
    {
      assert parts[..i + 1][..i] == parts[..i];
      if parts[i].size <= 0 { continue; }
      table := table + [Part(parts[i], total)];
      total := total + parts[i].size;
      assert Remotes(table) == Sized(parts[..i]) + [parts[i]];
    }
    assert parts[..|parts|] == parts;
  }

  lemma {:induction false} FlatSized(parts: seq<RemotePart>, store: Store)
    ensures Flat(Sized(parts), store) == Flat(parts, store)
  {
    if parts != [] {
      var front, last := parts[..|parts| - 1], parts[|parts| - 1];
      FlatSized(front, store);
      if last.size <= 0 {
        assert BytesOf(last, store) == [] && Sized(parts) == Sized(front);
      } else {
        FlatSnoc(Sized(front), last, store);
      }
    }
  }

  /** Where a part starts in the table is where its bytes start in the file. */
  lemma {:induction false} FlatLength(table: seq<Part>, total: int, store: Store)
    requires Laid(table, total) && Full(Remotes(table), store)
    ensures |Flat(Remotes(table), store)| <= total
    ensures table != [] && |store(IdentityOf(table[|table| - 1].remote))| >= table[|table| - 1].remote.size ==>
      |Flat(Remotes(table), store)| == total
  {
    if table != [] {
      var front, last := table[..|table| - 1], table[|table| - 1];
      assert Remotes(table)[..|front|] == Remotes(front);
      FlatLength(front, last.start, store);
    }
  }

  /** The parts before one part are all full. */
  lemma FlatBefore(table: seq<Part>, total: int, store: Store, i: nat)
    requires Laid(table, total) && Full(Remotes(table), store) && i < |table|
    ensures |Flat(Remotes(table)[..i], store)| == table[i].start
  {
    LaidAt(table, total, i);
    assert Remotes(table)[..i] == Remotes(table[..i]);
    FlatLength(table[..i], table[i].start, store);
  }

  // ------------------------------------------------------------------ map_range

  /** The takes cover the file from `lo` to `hi`, one after another, each inside
      its part. */
  ghost predicate Covers(table: seq<Part>, takes: seq<Take>, lo: int, hi: int) {
    if takes == [] then lo == hi
    else
      var t := takes[|takes| - 1];
      && t.index < |table| && t.bytes > 0 && t.inner + t.bytes <= table[t.index].remote.size
      && table[t.index].start + t.inner + t.bytes == hi
      && Covers(table, takes[..|takes| - 1], lo, hi - t.bytes)
  }

  function StartAt(table: seq<Part>, total: nat, i: nat): nat {
    if i < |table| then table[i].start else total
  }

  method MapRange(table: seq<Part>, total: nat, offset: int, length: int) returns (takes: seq<Take>)
    requires Laid(table, total)
    ensures length <= 0 || offset >= total || offset < 0 ==> takes == []
    ensures length > 0 && 0 <= offset < total ==> Covers(table, takes, offset, Min(offset + length, total))
    ensures forall i, j | 0 <= i < j < |takes| :: takes[i].index < takes[j].index
  {
    takes := [];
    if length <= 0 || offset >= total || offset < 0 { return; }
    var end := Min(offset + length, total);
    LaidAt(table, total, 0);
    for i := 0 to |table|
      invariant StartAt(table, total, i) <= offset ==> takes == []
      invariant StartAt(table, total, i) > offset ==> Covers(table, takes, offset, Min(StartAt(table, total, i), end))
      invariant forall k | 0 <= k < |takes| :: takes[k].index < i
      invariant forall k, m | 0 <= k < m < |takes| :: takes[k].index < takes[m].index
    {
      LaidAt(table, total, i);
      var partEnd := table[i].start + table[i].remote.size;
      assert partEnd == StartAt(table, total, i + 1);
      if partEnd <= offset { continue; }
      if table[i].start >= end { break; }
      var inner := Max(0, offset - table[i].start);
      var take := Min(partEnd, end) - (table[i].start + inner);
      if take > 0 {
        ghost var before := takes;
        takes := takes + [Take(i, inner, take)];
        assert takes[..|takes| - 1] == before;
      }
    }
  }

  /** What reading the takes gives. */
  function Gather(table: seq<Part>, takes: seq<Take>, store: Store): seq<Byte>
    requires forall k | 0 <= k < |takes| :: takes[k].index < |table|
  {
    if takes == [] then []
    else
      var t := takes[|takes| - 1];
      Gather(table, takes[..|takes| - 1], store)
        + Clip(store(IdentityOf(table[t.index].remote)), t.inner, t.inner + t.bytes)
  }

  lemma {:induction false} CoversIndices(table: seq<Part>, takes: seq<Take>, lo: int, hi: int)
    requires Covers(table, takes, lo, hi)
    ensures forall k | 0 <= k < |takes| :: takes[k].index < |table|
    ensures lo <= hi
  {
    if takes != [] {
      var front := takes[..|takes| - 1];
      CoversIndices(table, front, lo, hi - takes[|takes| - 1].bytes);
      forall k | 0 <= k < |takes| ensures takes[k].index < |table| {
        if k < |takes| - 1 { assert takes[k] == front[k]; }
      }
    }
  }

  /** A slice of one document is the same slice of the file. */
  lemma PartSlice(table: seq<Part>, total: int, store: Store, i: nat, lo: nat, hi: int)
    requires Laid(table, total) && Full(Remotes(table), store)
    requires i < |table| && lo <= hi <= table[i].remote.size
    ensures Clip(store(IdentityOf(table[i].remote)), lo, hi)
         == Clip(Flat(Remotes(table), store), table[i].start + lo, table[i].start + hi)
  {
    hide Clip, Laid;
    var rs := Remotes(table);
    FlatBefore(table, total, store, i);
    FlatAround(rs, i, store);
    ClipMiddle(Flat(rs[..i], store), BytesOf(rs[i], store), Flat(rs[i + 1..], store), lo, hi);
    ClipClip(store(IdentityOf(rs[i])), 0, rs[i].size, lo, hi);
  }

  lemma FlatAround(rs: seq<RemotePart>, i: nat, store: Store)
    requires i < |rs|
    ensures Flat(rs, store) == Flat(rs[..i], store) + BytesOf(rs[i], store) + Flat(rs[i + 1..], store)
  {
    hide Flat, BytesOf;
    assert rs == rs[..i] + [rs[i]] + rs[i + 1..];
    FlatAppend(rs[..i] + [rs[i]], rs[i + 1..], store);
    FlatSnoc(rs[..i], rs[i], store);
  }

  /** Reading what `map_range` says is reading that range of the file. */
  lemma {:induction false} GatherIsTheRange(table: seq<Part>, total: int, store: Store, takes: seq<Take>, lo: nat,
        hi: int)
    requires Laid(table, total) && Full(Remotes(table), store) && Covers(table, takes, lo, hi)
    ensures forall k | 0 <= k < |takes| :: takes[k].index < |table|
    ensures Gather(table, takes, store) == Clip(Flat(Remotes(table), store), lo, hi)
  {
    hide Clip, Laid, Full, Flat;
    CoversIndices(table, takes, lo, hi);
    if takes != [] {
      var t, front := takes[|takes| - 1], takes[..|takes| - 1];
      CoversIndices(table, front, lo, hi - t.bytes);
      GatherIsTheRange(table, total, store, front, lo, hi - t.bytes);
      PartSlice(table, total, store, t.index, t.inner, t.inner + t.bytes);
      ClipJoin(Flat(Remotes(table), store), lo, hi - t.bytes, hi);
    }
  }

  // --------------------------------------------------------------- listing parts

  /** One row of the split group, already ordered by part index. */
  datatype Row = Row(messageId: Option<int>, size: int, account: nat, fileId: string)

  predicate Usable(r: Row) { r.messageId.Some? && r.fileId != "" }

  function RowIdentity(r: Row): Identity
    requires r.messageId.Some?
  {
    Identity(r.account, r.messageId.value)
  }

  function PartOf(r: Row): RemotePart
    requires r.messageId.Some?
  {
    RemotePart(r.messageId.value, r.size, r.account, r.fileId)
  }

  /** The first usable row of its message. */
  predicate First(rows: seq<Row>, i: nat)
    requires i < |rows|
  {
    && Usable(rows[i])
    && forall j | 0 <= j < i && Usable(rows[j]) :: RowIdentity(rows[j]) != RowIdentity(rows[i])
  }

  function FirstRows(rows: seq<Row>, n: nat): seq<RemotePart>
    requires n <= |rows|
  {
    if n == 0 then [] else FirstRows(rows, n - 1) + if First(rows, n - 1) then [PartOf(rows[n - 1])] else []
  }

  /** The messages the first `n` usable rows name. */
  function Seen(rows: seq<Row>, n: nat): set<Identity>
    requires n <= |rows|
  {
    if n == 0 then {} else Seen(rows, n - 1) + if Usable(rows[n - 1]) then {RowIdentity(rows[n - 1])} else {}
  }

  lemma {:induction false} SeenIs(rows: seq<Row>, n: nat, id: Identity)
    requires n <= |rows|
    ensures id in Seen(rows, n) <==> exists i :: 0 <= i < n && Usable(rows[i]) && RowIdentity(rows[i]) == id
  {
    if n > 0 { SeenIs(rows, n - 1, id); }
  }

  lemma FirstUnseen(rows: seq<Row>, n: nat)
    requires n < |rows| && Usable(rows[n])
    ensures First(rows, n) <==> RowIdentity(rows[n]) !in Seen(rows, n)
  {
    SeenIs(rows, n, RowIdentity(rows[n]));
  }

  function Names(parts: seq<RemotePart>): set<Identity> { set p | p in parts :: IdentityOf(p) }

  ghost predicate DistinctNames(parts: seq<RemotePart>) {
    forall i, j | 0 <= i < j < |parts| :: IdentityOf(parts[i]) != IdentityOf(parts[j])
  }

  /** Each message the rows name is kept exactly once. */
  lemma {:induction false} FirstRowsAre(rows: seq<Row>, n: nat)
    requires n <= |rows|
    ensures Names(FirstRows(rows, n)) == Seen(rows, n) && DistinctNames(FirstRows(rows, n))
  {
    if n > 0 {
      hide Names, DistinctNames;
      FirstRowsAre(rows, n - 1);
      var before := FirstRows(rows, n - 1);
      if Usable(rows[n - 1]) {
        FirstUnseen(rows, n - 1);
        OneMoreName(before, PartOf(rows[n - 1]));
      }
      assert First(rows, n - 1) || FirstRows(rows, n) == before;
    }
  }

  lemma OneMoreName(parts: seq<RemotePart>, p: RemotePart)
    ensures Names(parts + [p]) == Names(parts) + {IdentityOf(p)}
    ensures DistinctNames(parts) && IdentityOf(p) !in Names(parts) ==> DistinctNames(parts + [p])
  {
    forall id ensures id in Names(parts + [p]) <==> id in Names(parts) + {IdentityOf(p)} {
      if id == IdentityOf(p) { assert (parts + [p])[|parts|] == p; }
      if id in Names(parts) {
        var q :| q in parts && IdentityOf(q) == id;
        assert q in parts + [p];
      }
    }
    forall i | 0 <= i < |parts| ensures IdentityOf(parts[i]) in Names(parts) { assert parts[i] in parts; }
  }

  /** The loop of `parts_for`: rows whose message was seen before are dropped. */
  method UsableParts(rows: seq<Row>) returns (parts: seq<RemotePart>)
    ensures parts == FirstRows(rows, |rows|)
    ensures DistinctNames(parts) && Names(parts) == Seen(rows, |rows|)
  {
    parts := [];
    var seen: set<Identity> := {};
    for n := 0 to |rows|
      invariant parts == FirstRows(rows, n) && seen == Seen(rows, n)
    {
      var row := rows[n];
      if row.messageId.None? || row.fileId == "" { continue; }
      var identity := RowIdentity(row);
      FirstUnseen(rows, n);
      if identity in seen { continue; }
      seen := seen + {identity};
      parts := parts + [PartOf(row)];
    }
    FirstRowsAre(rows, |rows|);
  }

  /** Sizes cut so that together they claim at most `actual` bytes. */
  function Clipped(parts: seq<RemotePart>, actual: nat, used: int): seq<RemotePart> {
    if parts == [] || used >= actual then []
    else
      var take := Min(parts[0].size, actual - used);
      [parts[0].(size := take)] + Clipped(parts[1..], actual, used + take)
  }

  function ClippedTo(parts: seq<RemotePart>, actual: Option<nat>): seq<RemotePart> {
    if actual.None? then parts else Clipped(parts, actual.value, 0)
  }

  method ClipParts(parts: seq<RemotePart>, actual: Option<nat>) returns (out: seq<RemotePart>)
    ensures out == ClippedTo(parts, actual)
  {
    if actual.None? { return parts; }
    out := [];
    var used, i := 0, 0;
    while i < |parts|
      invariant 0 <= i <= |parts|
      invariant Clipped(parts, actual.value, 0) == out + Clipped(parts[i..], actual.value, used)
    {
      if used >= actual.value { break; }
      var take := Min(parts[i].size, actual.value - used);
      assert parts[i..][0] == parts[i] && parts[i..][1..] == parts[i + 1..];
      out := out + [parts[i].(size := take)];
      used := used + take;
      i := i + 1;
    }
  }

  /** `total_size`: what the directory listing claims. */
  function TotalSize(parts: seq<RemotePart>, actual: Option<nat>): int {
    var available := SumSizes(ClippedTo(parts, actual));
    if actual.Some? then Min(available, actual.value) else available
  }

  /** `total_size` of a file that is one message: its own registered size. */
  function SingleSize(size: int, actual: Option<nat>): int {
    if actual.Some? then Min(size, actual.value) else size
  }

  function ReaderSize(parts: seq<RemotePart>): nat {
    if parts == [] then 0 else ReaderSize(parts[..|parts| - 1]) + Max(0, parts[|parts| - 1].size)
  }

  lemma {:induction false} TableTotal(table: seq<Part>, total: int)
    requires Laid(table, total)
    ensures total == SumSizes(Remotes(table))
  {
    if table != [] {
      var front := table[..|table| - 1];
      var last := table[|table| - 1];
      TableTotal(front, last.start);
      assert Remotes(table)[..|table| - 1] == Remotes(front);
    }
  }

  lemma {:induction false} SizedSum(parts: seq<RemotePart>)
    ensures SumSizes(Sized(parts)) == ReaderSize(parts)
  {
    if parts != [] {
      var front, last := parts[..|parts| - 1], parts[|parts| - 1];
      SizedSum(front);
      if last.size <= 0 { assert Sized(parts) == Sized(front); } else { SumSnoc(Sized(front), last); }
    }
  }

  lemma {:induction false} SumSplit(a: RemotePart, rest: seq<RemotePart>)
    ensures SumSizes([a] + rest) == a.size + SumSizes(rest)
  {
    if rest == [] {
      assert [a] + rest == [a] && [a][..0] == [];
    } else {
      assert ([a] + rest)[..|rest|] == [a] + rest[..|rest| - 1];
      SumSplit(a, rest[..|rest| - 1]);
    }
  }

  lemma {:induction false} ClippedSum(parts: seq<RemotePart>, actual: nat, used: int)
    requires used <= actual
    ensures used + SumSizes(Clipped(parts, actual, used)) <= actual
    ensures (forall i | 0 <= i < |parts| :: parts[i].size >= 0) ==>
      used + SumSizes(Clipped(parts, actual, used)) == Min(used + SumSizes(parts), actual)
    decreases |parts|
  {
    if parts != [] {
      SumSplit(parts[0], parts[1..]);
      assert [parts[0]] + parts[1..] == parts;
      if used < actual {
        var take := Min(parts[0].size, actual - used);
        SumSplit(parts[0].(size := take), Clipped(parts[1..], actual, used + take));
        ClippedSum(parts[1..], actual, used + take);
        if take < parts[0].size { assert Clipped(parts[1..], actual, actual) == []; SumsGrow(parts[1..]); }
      } else {
        SumsGrow(parts[1..]);
      }
    }
  }

  lemma {:induction false} SumsGrow(parts: seq<RemotePart>)
    ensures (forall i | 0 <= i < |parts| :: parts[i].size >= 0) ==> SumSizes(parts) >= 0
  {
    if parts != [] { SumsGrow(parts[..|parts| - 1]); }
  }

  lemma {:induction false} SumsAgree(parts: seq<RemotePart>)
    ensures SumSizes(parts) <= ReaderSize(parts)
    ensures SumSizes(parts) == ReaderSize(parts) <==> forall i | 0 <= i < |parts| :: parts[i].size >= 0
  {
    if parts != [] { SumsAgree(parts[..|parts| - 1]); }
  }

  /** The listed size is the size the reader opens with, however much padding the
      registered sizes carry, unless a kept part is registered as negative. */
  lemma ListedSizeIsReaderSize(parts: seq<RemotePart>, actual: Option<nat>, table: seq<Part>, total: nat)
    requires Laid(table, total) && Remotes(table) == Sized(ClippedTo(parts, actual))
    ensures total == TotalSize(parts, actual) <==> forall p | p in ClippedTo(parts, actual) :: p.size >= 0
    ensures (forall p | p in parts :: p.size >= 0) ==>
      total == TotalSize(parts, actual) == if actual.Some? then Min(SumSizes(parts), actual.value) else SumSizes(parts)
  {
    var clipped := ClippedTo(parts, actual);
    TableTotal(table, total);
    SizedSum(clipped);
    SumsAgree(clipped);
    if actual.Some? { ClippedSum(parts, actual.value, 0); }
    assert (forall p | p in clipped :: p.size >= 0) <==> forall i | 0 <= i < |clipped| :: clipped[i].size >= 0;
    if forall p | p in parts :: p.size >= 0 {
      if actual.Some? { ClippedNonNegative(parts, actual.value, 0); }
    }
  }

  lemma {:induction false} ClippedNonNegative(parts: seq<RemotePart>, actual: nat, used: int)
    requires forall p | p in parts :: p.size >= 0
    ensures forall p | p in Clipped(parts, actual, used) :: p.size >= 0
    decreases |parts|
  {
    if parts != [] && used < actual {
      ClippedNonNegative(parts[1..], actual, used + Min(parts[0].size, actual - used));
    }
  }

  /** The same for a file that is one message. */
  lemma SingleSizeIsReaderSize(part: RemotePart, actual: Option<nat>, table: seq<Part>, total: nat)
    requires Laid(table, total) && Remotes(table) == Sized(ClippedTo([part], actual))
    ensures total == SingleSize(part.size, actual) <==> part.size >= 0
  {
    SumSplit(part, []);
    assert [part] + [] == [part];
    ListedSizeIsReaderSize([part], actual, table, total);
    TableTotal(table, total);
    SizedSum(ClippedTo([part], actual));
    if actual.Some? && actual.value > 0 {
      var take := Min(part.size, actual.value);
      assert Clipped([part], actual.value, 0) == [part.(size := take)] + Clipped([], actual.value, take);
    }
  }
}
