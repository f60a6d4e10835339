/** The queue object over its file. Every call reads and repairs the file first. */
module PlaytimeQueue {
  import opened Foundations
  import opened Bytes
  import opened PlaytimeLog

  datatype Outcome = Done | CorruptLine(line: nat) | Uncertain | BadRecord | WriteFailed

  predicate Has(records: seq<Record>, id: string) { exists i :: 0 <= i < |records| && records[i].id == id }

  /** The records an acknowledgment leaves. */
  function Remaining(records: seq<Record>, id: string): seq<Record> {
    if records == [] then []
    else
      var last := records[|records| - 1];
      Remaining(records[..|records| - 1], id) + if last.id == id then [] else [last]
  }

  ghost predicate DistinctIds(records: seq<Record>) {
    forall i, j | 0 <= i < j < |records| :: records[i].id != records[j].id
  }

  ghost predicate NamedRecords(records: seq<Record>) { forall i | 0 <= i < |records| :: records[i].id != "" }

  lemma {:induction false} RemainingIs(records: seq<Record>, id: string)
    ensures var r := Remaining(records, id);
      && (forall x :: Has(r, x) <==> Has(records, x) && x != id)
      && (DistinctIds(records) ==> DistinctIds(r)) && (NamedRecords(records) ==> NamedRecords(r))
  {
    if records != [] {
      var front, last := records[..|records| - 1], records[|records| - 1];
      hide Has;
      RemainingIs(front, id);
      assert records == front + [last];
      var r := Remaining(front, id);
      HasSnoc(front, last);
      HasSnoc(r, last);
      if last.id == id { assert Remaining(records, id) == r; }
      if DistinctIds(records) {
        LastIsNew(front, last);
        DistinctSnoc(r, last);
      }
    }
  }

  lemma LastIsNew(front: seq<Record>, last: Record)
    requires DistinctIds(front + [last])
    ensures DistinctIds(front) && !Has(front, last.id)
  {
    var all := front + [last];
    forall i | 0 <= i < |front| ensures front[i].id != last.id { assert all[i].id != all[|front|].id; }
    forall i, j | 0 <= i < j < |front| ensures front[i].id != front[j].id { assert all[i].id != all[j].id; }
  }

  lemma HasSnoc(records: seq<Record>, last: Record)
    ensures forall x :: Has(records + [last], x) <==> Has(records, x) || x == last.id
  {
    forall x ensures Has(records + [last], x) <==> Has(records, x) || x == last.id {
      if Has(records, x) {
        var i :| 0 <= i < |records| && records[i].id == x;
        assert (records + [last])[i] == records[i];
      }
      assert (records + [last])[|records|] == last;
    }
  }

  lemma DistinctSnoc(records: seq<Record>, last: Record)
    requires DistinctIds(records) && !Has(records, last.id)
    ensures DistinctIds(records + [last])
  {
  }

  // ------------------------------------------------------------------ reading in a loop

  /** What was read so far in front of what the rest reads as. */
  function Prefixed(records: seq<Record>, file: seq<Byte>, rest: Loaded): Loaded {
    match rest
    case Loaded(rs, f) => Loaded(records + rs, file + f)
    case Corrupt(n) => Corrupt(n)
  }

  /** What the loop has done before line `index`, which starts at `offset`. */
  ghost predicate Reading(c: Codec, raw: seq<Byte>, lines: seq<seq<Byte>>, found: seq<Record>, offset: nat,
        index: nat) {
    && index <= |lines| && offset <= |raw|
    && lines[index..] == Lines(raw[offset..])
    && Load(c, raw, 1) == Prefixed(found, raw[..offset], Load(c, raw[offset..], index + 1))
  }

  lemma ReadingStarts(c: Codec, raw: seq<Byte>)
    ensures Reading(c, raw, Lines(raw), [], 0, 0)
  {
    assert raw[0..] == raw && raw[..0] == [];
    var l := Load(c, raw, 1);
    if l.Loaded? { assert [] + l.records == l.records && [] + l.file == l.file; }
  }

  lemma ReadingEnds(c: Codec, raw: seq<Byte>, lines: seq<seq<Byte>>, found: seq<Record>, offset: nat)
    requires Reading(c, raw, lines, found, offset, |lines|)
    ensures Load(c, raw, 1) == Loaded(found, raw)
  {
    assert raw[offset..] == [];
    assert raw[..offset] == raw && found + [] == found && raw + [] == raw;
  }

  /** The line the loop looks at, and what follows it. */
  lemma TheLine(c: Codec, raw: seq<Byte>, lines: seq<seq<Byte>>, found: seq<Record>, offset: nat, index: nat)
    requires Reading(c, raw, lines, found, offset, index) && index < |lines|
    ensures var line, rest := lines[index], raw[offset..];
      && rest != [] && line != [] && line == rest[..LineEnd(rest)] && offset + |line| <= |raw|
      && rest[LineEnd(rest)..] == raw[offset + |line|..] && lines[index + 1..] == Lines(raw[offset + |line|..])
      && (index == |lines| - 1 <==> raw[offset + |line|..] == [])
  {
    var rest := raw[offset..];
    assert lines[index..][0] == lines[index];
    assert lines[index..][1..] == lines[index + 1..];
    assert rest[LineEnd(rest)..] == raw[offset + LineEnd(rest)..];
  }

  lemma UnfinishedLine(c: Codec, raw: seq<Byte>, lines: seq<seq<Byte>>, found: seq<Record>, offset: nat, index: nat)
    requires Reading(c, raw, lines, found, offset, index) && index == |lines| - 1 && !Complete(lines[index])
    ensures var record := c.decode(Content(lines[index]));
      Load(c, raw, 1) ==
        if record.None? then Loaded(found, raw[..offset]) else Loaded(found + [record.value], raw + [NEWLINE])
  {
    TheLine(c, raw, lines, found, offset, index);
    var line := lines[index];
    assert raw[..offset] + (line + [NEWLINE]) == raw + [NEWLINE];
    assert found + [] == found && raw[..offset] + [] == raw[..offset];
  }

  lemma WholeLine(c: Codec, raw: seq<Byte>, lines: seq<seq<Byte>>, found: seq<Record>, offset: nat, index: nat)
    requires Reading(c, raw, lines, found, offset, index) && index < |lines|
    requires Complete(lines[index]) || index < |lines| - 1
    ensures var line := lines[index]; var record := c.decode(Content(line));
      if record.None? then Load(c, raw, 1) == Corrupt(index + 1)
      else Reading(c, raw, lines, found + [record.value], offset + |line|, index + 1)
  {
    hide Load, Lines, Content, Complete, LineEnd, Prefixed;
    TheLine(c, raw, lines, found, offset, index);
    OneLine(c, raw[offset..], index + 1);
    PrefixedOne(found, raw[..offset], c.decode(Content(lines[index])), lines[index],
                Load(c, raw[offset + |lines[index]|..], index + 2), index + 1);
    assert raw[..offset] + lines[index] == raw[..offset + |lines[index]|] by { Split(raw, offset, lines[index]); }
  }

  lemma Split(raw: seq<Byte>, offset: nat, line: seq<Byte>)
    requires offset + |line| <= |raw| && line <= raw[offset..]
    ensures raw[..offset] + line == raw[..offset + |line|]
  {
  }

  /** `Load` of a text whose first line is not an unfinished last one. */
  lemma OneLine(c: Codec, s: seq<Byte>, n: nat)
    requires s != [] && (Complete(s[..LineEnd(s)]) || s[LineEnd(s)..] != [])
    ensures Load(c, s, n) == AfterLine(c.decode(Content(s[..LineEnd(s)])), s[..LineEnd(s)],
      Load(c, s[LineEnd(s)..], n + 1), n)
  {
  }

  function AfterLine(record: Option<Record>, line: seq<Byte>, rest: Loaded, n: nat): Loaded {
    if record.None? then Corrupt(n) else Prefixed([record.value], line, rest)
  }

  lemma PrefixedOne(found: seq<Record>, before: seq<Byte>, record: Option<Record>, line: seq<Byte>, rest: Loaded,
        n: nat)
    ensures Prefixed(found, before, AfterLine(record, line, rest, n)) ==
      if record.None? then Corrupt(n) else Prefixed(found + [record.value], before + line, rest)
  {
    if record.Some? && rest.Loaded? {
      assert found + ([record.value] + rest.records) == (found + [record.value]) + rest.records;
      assert before + (line + rest.file) == (before + line) + rest.file;
    }
  }

  class PlaytimeQueue {
    const codec: Codec
    /** The file's bytes; none when there is no file. */
    var disk: seq<Byte>
    var records: seq<Record>
    var failed: bool

    constructor (codec: Codec, disk: seq<Byte>)
      ensures this.codec == codec && this.disk == disk && records == [] && !failed
    {
      this.codec, this.disk, records, failed := codec, disk, [], false;
    }

    /** `_read_repair`: line by line, cutting off or completing the last one. */
    method ReadRepair() returns (r: Outcome)
      modifies this`disk, this`records
      ensures match Load(codec, old(disk), 1)
        case Loaded(rs, f) => r == Done && disk == f && records == rs
        case Corrupt(n) => r == CorruptLine(n) && disk == old(disk) && records == old(records)
    {
      hide Reading, Load, Lines, Content, Complete, LineEnd;
      var raw := disk;
      var lines := Lines(raw);
      var found: seq<Record> := [];
      var offset, index := 0, 0;
      ReadingStarts(codec, raw);
      while index < |lines|
        invariant 0 <= index <= |lines| && 0 <= offset && disk == raw && records == old(records)
        invariant Reading(codec, raw, lines, found, offset, index)
      {
        var line := lines[index];
        var content := Content(line);
        TheLine(codec, raw, lines, found, offset, index);
        if !Complete(line) && index == |lines| - 1 {
          UnfinishedLine(codec, raw, lines, found, offset, index);
          var last := codec.decode(content);
          if last.None? {
            disk := raw[..offset];
          } else {
            disk := raw + [NEWLINE];
            found := found + [last.value];
          }
          records := found;
          return Done;
        }
        WholeLine(codec, raw, lines, found, offset, index);
        var record := codec.decode(content);
        if record.None? { return CorruptLine(index + 1); }
        found := found + [record.value];
        offset := offset + |line|;
        index := index + 1;
      }
      ReadingEnds(codec, raw, lines, found, offset);
      records := found;
      return Done;
    }

    /** `_repair_and_load`: after an uncertain write only a reopened queue reads. */
    method RepairAndLoad() returns (r: Outcome)
      modifies this`disk, this`records
      ensures failed ==> r == Uncertain && disk == old(disk) && records == old(records)
      ensures !failed ==>
        match Load(codec, old(disk), 1)
        case Loaded(rs, f) => r == Done && disk == f && records == rs
        case Corrupt(n) => r == CorruptLine(n) && disk == old(disk) && records == old(records)
    {
      if failed { return Uncertain; }
      r := ReadRepair();
    }

    /** `append`. With `fault` the write breaks off after that many bytes. */
    method Append(record: Record, fault: Option<nat>) returns (r: Outcome)
      requires fault.Some? ==> fault.value <= |Payload(codec, record)|
      modifies this`disk, this`records, this`failed
      ensures old(failed) ==> r == Uncertain && disk == old(disk) && records == old(records) && failed
      ensures !old(failed) ==>
        match Load(codec, old(disk), 1)
        case Corrupt(n) => r == CorruptLine(n) && disk == old(disk) && records == old(records) && !failed
        case Loaded(rs, f) =>
          if record.id == "" then r == BadRecord && disk == f && records == rs && !failed
          else if Has(rs, record.id) then r == Done && disk == f && records == rs && !failed
          else if fault.Some? then r == WriteFailed && disk == Torn(codec, f, record, fault.value) && records == rs
            && failed
          else r == Done && disk == f + Payload(codec, record) && records == rs + [record] && !failed
    {
      r := RepairAndLoad();
      if r != Done { return; }
      if record.id == "" { return BadRecord; }
      var present := Contained(record.id);
      if present { return Done; }
      if fault.Some? {
        disk := disk + Payload(codec, record)[..fault.value];
        failed := true;
        return WriteFailed;
      }
      disk := disk + Payload(codec, record);
      records := records + [record];
    }

    method Contained(id: string) returns (found: bool)
      ensures found <==> Has(records, id)
    {
      for i := 0 to |records|
        invariant !Has(records[..i], id)
      {
        if records[i].id == id { return true; }
        assert records[..i + 1] == records[..i] + [records[i]];
      }
      assert records[..|records|] == records;
      return false;
    }

    method Contains(id: string) returns (r: Outcome, found: bool)
      modifies this`disk, this`records
      ensures failed ==> r == Uncertain
      ensures !failed ==>
        match Load(codec, old(disk), 1)
        case Loaded(rs, f) => r == Done && disk == f && records == rs && (found <==> Has(rs, id))
        case Corrupt(n) => r == CorruptLine(n) && disk == old(disk)
    {
      r := RepairAndLoad();
      found := false;
      if r == Done { found := Contained(id); }
    }

    /** `ack`: the file is replaced as a whole, or not at all. */
    method Ack(id: string, replaced: bool) returns (r: Outcome)
      modifies this`disk, this`records
      ensures failed ==> r == Uncertain && disk == old(disk)
      ensures !failed ==>
        match Load(codec, old(disk), 1)
        case Loaded(rs, f) =>
          if replaced then r == Done && disk == Written(codec, Remaining(rs, id)) && records == Remaining(rs, id)
          else r == WriteFailed && disk == f && records == rs
        case Corrupt(n) => r == CorruptLine(n) && disk == old(disk)
    {
      r := RepairAndLoad();
      if r != Done { return; }
      var remaining := Remaining(records, id);
      if !replaced { return WriteFailed; }
      disk := Written(codec, remaining);
      records := remaining;
    }
  }
}
