/** Finding one member's bytes in a remote zip archive behind its local header, and opening a
    stored member. */
module ZipMembers {
  import opened Foundations
  import opened Bytes
  import opened PartTable
  import opened VirtualFile

  const LOCAL_SIZE: nat := 30
  const LOCAL_SIGNATURE: nat := 0x04034B50

  // ---------------------------------------------------------------- the local header

  function Little16(s: seq<Byte>, at: nat): nat
    requires at + 2 <= |s|
  {
    (s[at] as int) + 256 * (s[at + 1] as int)
  }

  function Little32(s: seq<Byte>, at: nat): nat
    requires at + 4 <= |s|
  {
    Little16(s, at) + 65536 * Little16(s, at + 2)
  }

  datatype Offset = DataAt(offset: nat) | Truncated | BadSignature

  /** `local_data_offset` over a flat archive: the file, and where the data starts. */
  function DataOffset(archive: FlatFile, header: nat): (FlatFile, Offset) {
    var (there, _) := FlatStep(archive, SeekOp(header, FromStart));
    var (after, answer) := FlatStep(there, ReadOp(Some(LOCAL_SIZE)));
    var raw := answer.bytes;
    (after,
     if |raw| < LOCAL_SIZE then Truncated
     else if Little32(raw, 0) != LOCAL_SIGNATURE then BadSignature
     else DataAt(header + LOCAL_SIZE + Little16(raw, 26) + Little16(raw, 28)))
  }

  /** A local file header as section 4.3.7 of PKWARE APPNOTE.TXT lays it out: the
      signature, twenty-two bytes this reader skips, and the two lengths. */
  ghost predicate IsLocalHeader(h: seq<Byte>, name: nat, extra: nat) {
    |h| == LOCAL_SIZE && h[0] == 0x50 && h[1] == 0x4B && h[2] == 0x03 && h[3] == 0x04
      && Little16(h, 26) == name && Little16(h, 28) == extra
  }

  /** The archive holds a member with this data behind a local header at `header`, whatever the
      lengths of the name and the extra field, and whatever precedes and follows it. */
  ghost predicate HoldsMember(archive: seq<Byte>, header: nat, data: seq<Byte>) {
    exists before: seq<Byte>, h: seq<Byte>, name: seq<Byte>, extra: seq<Byte>, after: seq<Byte> ::
      LaidOut(archive, before, h, name, extra, data, after) && |before| == header
  }

  ghost predicate LaidOut(archive: seq<Byte>, before: seq<Byte>, h: seq<Byte>, name: seq<Byte>, extra: seq<Byte>,
                          data: seq<Byte>, after: seq<Byte>) {
    archive == before + h + name + extra + data + after && IsLocalHeader(h, |name|, |extra|)
  }

  /** The offset found is where the member's data starts. */
  lemma DataIsAtTheOffset(f: FlatFile, header: nat, data: seq<Byte>)
    requires |f.bytes| <= f.claimed && HoldsMember(f.bytes, header, data)
    ensures var found := DataOffset(f, header).1;
      found.DataAt? && Clip(f.bytes, found.offset, found.offset + |data|) == data
  {
    var before, h, name, extra, after :|
      LaidOut(f.bytes, before, h, name, extra, data, after) && |before| == header;
    var lead := before + h + name + extra;
    hide Clip;
    assert f.bytes == lead + data + after;
    HeaderBytes(before, h, name + extra + data + after);
    assert f.bytes == before + h + (name + extra + data + after);
    ClipMiddle(lead, data, after, 0, |data|);
    ClipAll(data, |data|);
    HeaderRead(f, |before|, h);
    SignatureIs(h, |name|, |extra|);
  }

  lemma SignatureIs(h: seq<Byte>, name: nat, extra: nat)
    requires IsLocalHeader(h, name, extra)
    ensures |h| == LOCAL_SIZE && Little32(h, 0) == LOCAL_SIGNATURE
  {
  }

  lemma HeaderRead(f: FlatFile, at: nat, h: seq<Byte>)
    requires |f.bytes| <= f.claimed && at + LOCAL_SIZE <= |f.bytes| && Clip(f.bytes, at, at + LOCAL_SIZE) == h
    requires |h| == LOCAL_SIZE
    ensures DataOffset(f, at).1 ==
      if Little32(h, 0) != LOCAL_SIGNATURE then BadSignature
      else DataAt(at + LOCAL_SIZE + Little16(h, 26) + Little16(h, 28))
  {
    hide Clip, Little32, Little16;
  }

  lemma HeaderBytes(before: seq<Byte>, h: seq<Byte>, rest: seq<Byte>)
    requires |h| == LOCAL_SIZE
    ensures Clip(before + h + rest, |before|, |before| + LOCAL_SIZE) == h
  {
    ClipMiddle(before, h, rest, 0, LOCAL_SIZE);
    ClipAll(h, LOCAL_SIZE);
  }

  /** `local_data_offset` on an open archive. */
  method LocalDataOffset(archive: SeekableRemoteFile, header: nat) returns (r: Offset)
    requires archive.Valid()
    modifies archive, archive.worker
    ensures archive.Valid() && (archive.View(), r) == DataOffset(old(archive.View()), header)
  {
    var _ := archive.Seek(header, FromStart);
    var raw := archive.Read(Some(LOCAL_SIZE));
    if |raw| < LOCAL_SIZE { return Truncated; }
    if Little32(raw, 0) != LOCAL_SIGNATURE { return BadSignature; }
    return DataAt(header + LOCAL_SIZE + Little16(raw, 26) + Little16(raw, 28));
  }

  // -------------------------------------------------------------------- opening

  /** Everything needed to open the archive anew. */
  datatype Archive = Archive(worker: TelegramWorker, table: seq<Part>, total: nat,
                             head: seq<Byte>, blockSize: nat, blocksCached: nat)

  /** The archive's bytes. */
  ghost function Whole(a: Archive): seq<Byte> { Flat(Remotes(a.table), a.worker.store) }

  ghost predicate Ready(a: Archive)
    reads a.worker
  {
    && a.worker.Valid() && a.blockSize > 0
    && Laid(a.table, a.total) && Full(Remotes(a.table), a.worker.store)
    && Clip(a.head, 0, a.total) <= Whole(a)
  }

  /** Where the member's data starts, once its header has been read. */
  ghost function Found(a: Archive, header: nat): Offset { DataOffset(FlatFile(Whole(a), a.total, 0), header).1 }

  lemma FoundIsTheData(a: Archive, header: nat, data: seq<Byte>)
    requires Ready(a) && HoldsMember(Whole(a), header, data)
    ensures Found(a, header).DataAt?
    ensures Clip(Whole(a), Found(a, header).offset, Found(a, header).offset + |data|) == data
  {
    FlatLength(a.table, a.total, a.worker.store);
    hide HoldsMember, Clip;
    DataIsAtTheOffset(FlatFile(Whole(a), a.total, 0), header, data);
  }

  /** A fresh file over the archive each time, so that readers share no position. */
  method OpenStream(a: Archive) returns (f: SeekableRemoteFile)
    requires Ready(a)
    ensures fresh(f) && f.Valid() && f.worker == a.worker && f.flat == Whole(a)
    ensures f.View() == FlatFile(Whole(a), a.total, 0)
  {
    f := new SeekableRemoteFile(a.worker, a.table, a.total, a.head, a.blockSize, a.blocksCached);
  }

  /** A fresh file and the offset: the one remembered, or the one its header gives. */
  method Locate(a: Archive, header: nat, known: Option<nat>) returns (f: SeekableRemoteFile, r: Offset)
    requires Ready(a) && (known.Some? ==> Found(a, header) == DataAt(known.value))
    modifies a.worker
    ensures Ready(a) && fresh(f) && f.Valid() && f.worker == a.worker && f.flat == Whole(a)
    ensures r == Found(a, header)
  {
    f := OpenStream(a);
    if known.Some? { return f, DataAt(known.value); }
    r := LocalDataOffset(f, header);
  }

  /** `open` of a stored member: if the archive holds it, a file of exactly its bytes. */
  method OpenStored(a: Archive, header: nat, known: Option<nat>, size: nat) returns (r: Offset, member: SlicedReader?)
    requires Ready(a) && (known.Some? ==> Found(a, header) == DataAt(known.value))
    modifies a.worker
    ensures Ready(a) && r == Found(a, header) && (member != null <==> r.DataAt?)
    ensures member != null ==> fresh(member) && fresh(member.base) && member.base.worker == a.worker && member.Valid()
    ensures member != null ==> member.View() == FlatFile(Clip(Whole(a), r.offset, r.offset + size), size, 0)
    ensures forall data: seq<Byte> | HoldsMember(Whole(a), header, data) && |data| == size ::
      member != null && member.View() == FlatFile(data, size, 0)
  {
    hide HoldsMember, Clip, Found, Whole, Laid, Full;
    var f;
    f, r := Locate(a, header, known);
    member := null;
    if r.DataAt? { member := new SlicedReader(f, r.offset, size); }
    forall data: seq<Byte> | HoldsMember(Whole(a), header, data) && |data| == size
      ensures r.DataAt? && Clip(Whole(a), r.offset, r.offset + size) == data
    {
      FoundIsTheData(a, header, data);
    }
  }

  /** A stored member of the archive, opened and used in any way, answers as an array of its
      bytes does. */
  method ReadStored(a: Archive, header: nat, known: Option<nat>, ghost data: seq<Byte>, size: nat, ops: seq<Op>)
    returns (answers: seq<Answer>)
    requires Ready(a) && (known.Some? ==> Found(a, header) == DataAt(known.value))
    requires HoldsMember(Whole(a), header, data) && size == |data|
    modifies a.worker
    ensures Ready(a) && answers == FlatRun(FlatFile(data, |data|, 0), ops).1
  {
    hide HoldsMember, Clip, Found, Whole, Laid, Full, FlatRun;
    var _, member := OpenStored(a, header, known, size);
    answers := member.Replay(ops);
  }
}
