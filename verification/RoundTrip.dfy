/** Upload and download undo each other: a file cut into messages and upload
    parts, registered with padded sizes, reads back as itself. */
module RoundTrip {
  import opened Foundations
  import opened Bytes
  import opened PartTable
  import opened SplitPlan
  import opened VirtualFile

  ghost predicate AllUsable(rows: seq<Row>, n: nat)
    requires n <= |rows|
  {
    forall i | 0 <= i < n :: rows[i].messageId.Some? && rows[i].fileId != ""
  }

  // --------------------------------------------------------------------- upload

  /** The bytes of a file that consecutive pieces carry. */
  function Carried(file: seq<Byte>, base: nat, ps: seq<Piece>): seq<Byte> {
    if ps == [] then []
    else
      var p := ps[|ps| - 1];
      Carried(file, base, ps[..|ps| - 1]) + Clip(file, base + p.offset, base + p.offset + p.size)
  }

  lemma NothingCarried(file: seq<Byte>)
    ensures Carried(file, 0, []) == []
  {
  }

  lemma OneMoreCarried(file: seq<Byte>, ps: seq<Piece>, n: nat)
    requires n < |ps|
    ensures Carried(file, 0, ps[..n + 1]) == Carried(file, 0, ps[..n])
      + Clip(file, ps[n].offset, ps[n].offset + ps[n].size)
  {
    assert ps[..n + 1][..n] == ps[..n];
  }

  lemma {:induction false} CarriedIs(file: seq<Byte>, base: nat, ps: seq<Piece>, total: nat)
    requires Tiles(ps, total)
    ensures Carried(file, base, ps) == Clip(file, base, base + total)
  {
    hide Clip;
    if ps != [] {
      var front, p := ps[..|ps| - 1], ps[|ps| - 1];
      if front == [] { assert p.offset == 0; } else { assert front[|front| - 1] == ps[|ps| - 2]; }
      assert Tiles(front, p.offset);
      CarriedIs(file, base, front, p.offset);
      ClipJoin(file, base, base + p.offset, base + p.offset + p.size);
    }
  }

  /** What Telegram assembles from the upload parts of one segment. */
  function Document(file: seq<Byte>, segment: Piece, unit: nat): seq<Byte>
    requires unit > 0
  {
    Carried(file, segment.offset, Cut(segment.size, unit, 0))
  }

  lemma DocumentIs(file: seq<Byte>, segment: Piece, unit: nat)
    requires unit > 0
    ensures Document(file, segment, unit) == Clip(file, segment.offset, segment.offset + segment.size)
  {
    CutTiles(segment.size, unit);
    CarriedIs(file, segment.offset, Cut(segment.size, unit, 0), segment.size);
  }

  /** The size the backend records: whole parts. */
  function Padded(size: nat, unit: nat): nat
    requires unit > 0
  {
    |Cut(size, unit, 0)| * unit
  }

  lemma PaddedIs(size: nat, unit: nat, whole: nat)
    requires unit > 0
    ensures size <= Padded(size, unit)
    ensures size == whole * unit ==> Padded(size, unit) == size
  {
    var ps := Cut(size, unit, 0);
    CutTiles(size, unit);
    CountFor(ps, unit, size, |ps|);
    CountFor(ps, unit, size, whole);
    if size == whole * unit { Multiply(|ps|, whole, unit); }
  }

  /** The file's rows as the uploader leaves them: one per segment, in order, each
      a message of its own holding that segment, registered with its padded size. */
  ghost predicate Uploaded(file: seq<Byte>, unit: nat, rows: seq<Row>, store: Store) {
    var segments := SegmentPlan(|file|, MESSAGE_MAX);
    && unit > 0
    && |rows| == |segments|
    && (AllUsable(rows, |rows|))
    && (forall i, j | 0 <= i < j < |rows| :: RowIdentity(rows[i]) != RowIdentity(rows[j]))
    && (forall i | 0 <= i < |rows| :: store(RowIdentity(rows[i])) == Document(file, segments[i], unit))
    && (forall i | 0 <= i < |rows| :: rows[i].size == Padded(segments[i].size, unit))
  }

  // ------------------------------------------------------------------- download

  ghost function PartsOf(rows: seq<Row>, n: nat): seq<RemotePart>
    requires n <= |rows| && AllUsable(rows, n)
  {
    if n == 0 then [] else PartsOf(rows, n - 1) + [PartOf(rows[n - 1])]
  }

  /** Rows that name different messages are all kept. */
  lemma {:induction false} DistinctRowsKept(rows: seq<Row>, n: nat)
    requires n <= |rows| && AllUsable(rows, |rows|)
    requires forall i, j | 0 <= i < j < |rows| :: RowIdentity(rows[i]) != RowIdentity(rows[j])
    ensures FirstRows(rows, n) == PartsOf(rows, n)
    ensures |PartsOf(rows, n)| == n && forall i | 0 <= i < n :: PartsOf(rows, n)[i] == PartOf(rows[i])
  {
    if n > 0 {
      DistinctRowsKept(rows, n - 1);
      assert First(rows, n - 1);
    }
  }

  /** The first `n` documents are the first `n` segments. */
  lemma {:induction false} DocumentsAreTheFile(file: seq<Byte>, unit: nat, rows: seq<Row>, store: Store, n: nat)
    requires Uploaded(file, unit, rows, store) && n <= |rows|
    ensures AllUsable(rows, |rows|)
    ensures Flat(PartsOf(rows, n), store) == Carried(file, 0, SegmentPlan(|file|, MESSAGE_MAX)[..n])
  {
    hide Clip, Cut, Chained, Flat, Carried, BytesOf;
    if n == 0 {
      NoParts(store);
      NothingCarried(file);
    } else {
      var segments := SegmentPlan(|file|, MESSAGE_MAX);
      DocumentsAreTheFile(file, unit, rows, store, n - 1);
      OneMoreCarried(file, segments, n - 1);
      FlatSnoc(PartsOf(rows, n - 1), PartOf(rows[n - 1]), store);
      DocumentIs(file, segments[n - 1], unit);
      PaddedIs(segments[n - 1].size, unit, 0);
      WholeDocument(PartOf(rows[n - 1]), store, file, segments[n - 1]);
    }
  }

  lemma WholeDocument(p: RemotePart, store: Store, file: seq<Byte>, segment: Piece)
    requires store(IdentityOf(p)) == Clip(file, segment.offset, segment.offset + segment.size)
    requires p.size >= segment.size
    ensures BytesOf(p, store) == Clip(file, segment.offset, segment.offset + segment.size)
  {
    hide Clip;
    ClipAll(store(IdentityOf(p)), p.size);
  }

  /** Every message but the last holds exactly what is registered for it. */
  lemma OnlyTheLastIsPadded(file: seq<Byte>, unit: nat, rows: seq<Row>, store: Store, whole: nat)
    requires Uploaded(file, unit, rows, store) && whole * unit == MESSAGE_MAX
    ensures AllUsable(rows, |rows|)
    ensures |PartsOf(rows, |rows|)| == |rows| && Full(PartsOf(rows, |rows|), store)
    ensures forall p | p in PartsOf(rows, |rows|) :: p.size >= 0
  {
    hide Clip, Cut;
    var segments := SegmentPlan(|file|, MESSAGE_MAX);
    var parts := PartsOf(rows, |rows|);
    DistinctRowsKept(rows, |rows|);
    CutTiles(|file|, MESSAGE_MAX);
    forall i | 0 <= i < |parts| - 1 ensures |store(IdentityOf(parts[i]))| >= parts[i].size {
      assert segments[i].size == MESSAGE_MAX;
      PaddedIs(segments[i].size, unit, whole);
      DocumentIs(file, segments[i], unit);
      OffsetsGrow(segments, |file|, i);
    }
  }

  lemma FlatCons(p: RemotePart, rest: seq<RemotePart>, store: Store)
    ensures Flat([p] + rest, store) == BytesOf(p, store) + Flat(rest, store)
  {
    FlatAppend([p], rest, store);
    FlatSnoc([], p, store);
  }

  /** Clipping the sizes clips the file. */
  lemma {:induction false} ClippedFile(parts: seq<RemotePart>, store: Store, actual: nat, used: nat)
    requires Full(parts, store) && forall p | p in parts :: p.size >= 0
    requires used <= actual
    ensures Flat(Clipped(parts, actual, used), store) == Clip(Flat(parts, store), 0, actual - used)
    ensures Full(Clipped(parts, actual, used), store)
    decreases |parts|
  {
    hide Clip, Flat;
    NoParts(store);
    if parts != [] && used < actual {
      var p, rest := parts[0], parts[1..];
      var take := Min(p.size, actual - used);
      assert parts == [p] + rest;
      assert Full(rest, store) by { forall i | 0 <= i < |rest| - 1 ensures rest[i] == parts[i + 1] { } }
      FlatCons(p, rest, store);
      var clipped := Clipped(rest, actual, used + take);
      FlatCons(p.(size := take), clipped, store);
      ClippedFile(rest, store, actual, used + take);
      ClippedHead(p, rest, store, actual - used);
      ClipConcat(BytesOf(p, store), Flat(rest, store), 0, actual - used);
      FullCons(p, rest, clipped, store, take);
    }
  }

  lemma NoParts(store: Store)
    ensures Flat([], store) == []
  {
  }

  lemma FullCons(p: RemotePart, rest: seq<RemotePart>, clipped: seq<RemotePart>, store: Store, take: int)
    requires Full([p] + rest, store) && Full(clipped, store) && take <= p.size && (rest == [] ==> clipped == [])
    ensures Full([p.(size := take)] + clipped, store)
  {
    var parts, out := [p] + rest, [p.(size := take)] + clipped;
    forall i | 0 <= i < |out| - 1 ensures |store(IdentityOf(out[i]))| >= out[i].size {
      if i == 0 { assert parts[0] == p && rest != []; } else { assert out[i] == clipped[i - 1]; }
    }
  }

  /** The first part's share of a clip, and what is left for the rest. */
  lemma ClippedHead(p: RemotePart, rest: seq<RemotePart>, store: Store, room: nat)
    requires Full([p] + rest, store) && p.size >= 0
    ensures BytesOf(p.(size := Min(p.size, room)), store) == Clip(BytesOf(p, store), 0, room)
    ensures Clip(Flat(rest, store), 0 - |BytesOf(p, store)|, room - |BytesOf(p, store)|)
         == Clip(Flat(rest, store), 0, room - Min(p.size, room))
  {
    hide Flat;
    NoParts(store);
    ClipClip(store(IdentityOf(p)), 0, p.size, 0, room);
    if rest != [] {
      assert ([p] + rest)[0] == p;
      assert |BytesOf(p, store)| == p.size;
    }
  }

  lemma {:induction false} FullSized(parts: seq<RemotePart>, store: Store)
    requires Full(parts, store)
    ensures Full(Sized(parts), store)
    ensures forall p | p in Sized(parts[..Max(0, |parts| - 1)]) :: |store(IdentityOf(p))| >= p.size
  {
    if parts != [] {
      var front := parts[..|parts| - 1];
      SizedIn(front);
      forall p | p in Sized(front) ensures |store(IdentityOf(p))| >= p.size {
        var i :| 0 <= i < |front| && front[i] == p;
        assert parts[i] == p;
      }
      forall i | 0 <= i < |Sized(parts)| - 1
        ensures |store(IdentityOf(Sized(parts)[i]))| >= Sized(parts)[i].size
      {
        assert Sized(parts)[i] == Sized(front)[i] && Sized(front)[i] in Sized(front);
      }
    }
  }

  lemma {:induction false} SizedIn(parts: seq<RemotePart>)
    ensures forall p | p in Sized(parts) :: p in parts
  {
    if parts != [] { SizedIn(parts[..|parts| - 1]); }
  }

  /** Whatever was uploaded reads back: the table opened from the registered rows
      spells the file, whether the true length is on record or only padded sizes
      are; with the length on record the opened size is exactly the file's. */
  lemma DownloadUndoesUpload(file: seq<Byte>, unit: nat, whole: nat, rows: seq<Row>, store: Store,
                             actual: Option<nat>, table: seq<Part>, total: nat)
    requires Uploaded(file, unit, rows, store) && whole * unit == MESSAGE_MAX
    requires actual.Some? ==> actual.value == |file|
    requires Laid(table, total) && Remotes(table) == Sized(ClippedTo(FirstRows(rows, |rows|), actual))
    ensures Full(Remotes(table), store) && Flat(Remotes(table), store) == file
    ensures |file| <= total == TotalSize(FirstRows(rows, |rows|), actual)
    ensures actual.Some? ==> total == |file|
  {
    hide Clip, Cut, Flat;
    var segments := SegmentPlan(|file|, MESSAGE_MAX);
    var parts := FirstRows(rows, |rows|);
    OnlyTheLastIsPadded(file, unit, rows, store, whole);
    DistinctRowsKept(rows, |rows|);
    FileOfParts(file, unit, rows, store);
    if actual.Some? { ClippedFile(parts, store, |file|, 0); }
    var clipped := ClippedTo(parts, actual);
    ClipAll(file, |file|);
    FullSized(clipped, store);
    FlatSized(clipped, store);
    FlatLength(table, total, store);
    ListedSizeIsReaderSize(parts, actual, table, total);
  }

  lemma FileOfParts(file: seq<Byte>, unit: nat, rows: seq<Row>, store: Store)
    requires Uploaded(file, unit, rows, store)
    ensures AllUsable(rows, |rows|)
    ensures Flat(PartsOf(rows, |rows|), store) == file
  {
    hide Clip, Cut, Flat;
    var segments := SegmentPlan(|file|, MESSAGE_MAX);
    DocumentsAreTheFile(file, unit, rows, store, |rows|);
    assert segments[..|rows|] == segments;
    CutTiles(|file|, MESSAGE_MAX);
    CarriedIs(file, 0, segments, |file|);
    ClipAll(file, |file|);
  }

  /** Opening an uploaded file from its rows gives a seekable file over its bytes. */
  method OpenUploaded(ghost file: seq<Byte>, ghost unit: nat, ghost whole: nat, rows: seq<Row>,
                      actual: Option<nat>, worker: TelegramWorker, head: seq<Byte>, blockSize: nat, blocksCached: nat)
    returns (f: SeekableRemoteFile)
    requires worker.Valid() && blockSize > 0
    requires Uploaded(file, unit, rows, worker.store) && whole * unit == MESSAGE_MAX
    requires (actual.Some? ==> actual.value == |file|) && head <= file
    ensures fresh(f) && f.Valid() && f.worker == worker
    ensures f.View() == FlatFile(file, f.total, 0) && (actual.Some? ==> f.total == |file|)
  {
    hide Clip, Flat, Laid, Full, Cache;
    var parts := UsableParts(rows);
    var clipped := ClipParts(parts, actual);
    var table, total := BuildPartTable(clipped);
    DownloadUndoesUpload(file, unit, whole, rows, worker.store, actual, table, total);
    ClipAll(head, total);
    f := new SeekableRemoteFile(worker, table, total, head, blockSize, blocksCached);
  }
}
