/** The durable queue of finished play sessions: one JSON record a line, repaired
    on every read so that a crash in the middle of an append loses nothing old. */
module PlaytimeLog {
  import opened Foundations
  import opened Bytes

  const NEWLINE: Byte := 10
  const RETURN: Byte := 13

  datatype Record = Record(id: string, gameId: string, device: string, start: int, end: int, seconds: int)

  /** JSON text of a record, and what `_valid_record` makes of some bytes. */
  datatype Codec = Codec(encode: Record -> seq<Byte>, decode: seq<Byte> -> Option<Record>)

  predicate Plain(s: seq<Byte>) { NEWLINE !in s && RETURN !in s }

  /** What the queue relies on: encodings read back, have no raw line break, and
      no proper prefix of one is itself a record. */
  ghost predicate Lawful(c: Codec) {
    && (forall r: Record | r.id != "" ::
          c.encode(r) != [] && Plain(c.encode(r)) && c.decode(c.encode(r)) == Some(r))
    && (forall r: Record, k: nat | r.id != "" && k < |c.encode(r)| :: c.decode(c.encode(r)[..k]) == None)
    && (forall s :: c.decode(s).Some? ==> c.decode(s).value.id != "")
  }

  // ---------------------------------------------------------------------- lines

  /** Where the first line of a nonempty text ends, its line break included. */
  function LineEnd(s: seq<Byte>): (e: nat)
    ensures e <= |s| && (s != [] ==> e > 0)
  {
    if s == [] then 0
    else if s[0] == NEWLINE then 1
    else if s[0] == RETURN then if |s| > 1 && s[1] == NEWLINE then 2 else 1
    else 1 + LineEnd(s[1..])
  }

  /** `bytes.splitlines(keepends=True)` */
  function Lines(s: seq<Byte>): seq<seq<Byte>>
    decreases |s|
  {
    if s == [] then [] else [s[..LineEnd(s)]] + Lines(s[LineEnd(s)..])
  }

  predicate Ended(s: seq<Byte>) { s != [] && (s[|s| - 1] == NEWLINE || s[|s| - 1] == RETURN) }

  /** Nothing or whole lines, and the next bytes do not extend their last break. */
  predicate Joinable(a: seq<Byte>, b: seq<Byte>) {
    a == [] || (Ended(a) && !(a[|a| - 1] == RETURN && b != [] && b[0] == NEWLINE))
  }

  lemma {:induction false} LineEndJoin(a: seq<Byte>, b: seq<Byte>)
    requires a != [] && (Joinable(a, b) || LineEnd(a) < |a|)
    ensures LineEnd(a + b) == LineEnd(a)
  {
    assert (a + b)[0] == a[0];
    if |a| > 1 {
      assert (a + b)[1] == a[1];
      assert (a + b)[1..] == a[1..] + b;
      if a[0] != NEWLINE && a[0] != RETURN { LineEndJoin(a[1..], b); }
    }
  }

  lemma {:induction false} LineEndCut(s: seq<Byte>)
    requires LineEnd(s) < |s|
    ensures Joinable(s[..LineEnd(s)], s[LineEnd(s)..])
  {
    if s[0] != NEWLINE && s[0] != RETURN {
      LineEndCut(s[1..]);
      var e := LineEnd(s[1..]);
      assert s[..1 + e][e] == s[1..][..e][e - 1];
      assert s[1 + e..] == s[1..][e..];
    }
  }

  lemma {:induction false} PlainLine(p: seq<Byte>)
    requires Plain(p)
    ensures LineEnd(p) == |p| && LineEnd(p + [NEWLINE]) == |p| + 1
  {
    if p != [] {
      assert Plain(p[1..]);
      assert (p + [NEWLINE])[1..] == p[1..] + [NEWLINE];
      PlainLine(p[1..]);
    }
  }

  // ---------------------------------------------------------------- reading the file

  predicate Complete(line: seq<Byte>) { line != [] && line[|line| - 1] == NEWLINE }

  function Content(line: seq<Byte>): seq<Byte> { if Complete(line) then line[..|line| - 1] else line }

  datatype Loaded = Loaded(records: seq<Record>, file: seq<Byte>) | Corrupt(line: nat)

  /** What reading and repairing makes of a file from its `n`th line on: the
      records, and the file it leaves behind. */
  function Load(c: Codec, s: seq<Byte>, n: nat): Loaded
    decreases |s|
  {
    if s == [] then Loaded([], [])
    else
      var line, rest := s[..LineEnd(s)], s[LineEnd(s)..];
      var record := c.decode(Content(line));
      if !Complete(line) && rest == [] then
        if record.None? then Loaded([], []) else Loaded([record.value], line + [NEWLINE])
      else if record.None? then Corrupt(n)
      else
        match Load(c, rest, n + 1)
        case Loaded(records, file) => Loaded([record.value] + records, line + file)
        case Corrupt(m) => Corrupt(m)
  }

  /** Whole lines only, each holding a record. */
  predicate Clean(c: Codec, f: seq<Byte>)
    decreases |f|
  {
    f == [] ||
    (var line, rest := f[..LineEnd(f)], f[LineEnd(f)..];
     Ended(line) && c.decode(Content(line)).Some? && Clean(c, rest))
  }

  function Records(c: Codec, f: seq<Byte>): seq<Record>
    requires Clean(c, f)
    decreases |f|
  {
    if f == [] then []
    else [c.decode(Content(f[..LineEnd(f)])).value] + Records(c, f[LineEnd(f)..])
  }

  lemma FirstLine(line: seq<Byte>, rest: seq<Byte>)
    requires line != [] && LineEnd(line + rest) == |line|
    ensures (line + rest)[..LineEnd(line + rest)] == line && (line + rest)[LineEnd(line + rest)..] == rest
  {
  }

  /** The newline that repair adds to an unfinished but complete record. */
  lemma SealedLine(c: Codec, line: seq<Byte>)
    requires line != [] && !Complete(line) && LineEnd(line) == |line| && c.decode(line).Some?
    ensures Clean(c, line + [NEWLINE]) && Records(c, line + [NEWLINE]) == [c.decode(line).value]
  {
    SealedEnd(line);
    var f := line + [NEWLINE];
    assert f[..LineEnd(f)] == f && f[LineEnd(f)..] == [] && Content(f) == line;
    assert Records(c, []) == [];
  }

  lemma {:induction false} SealedEnd(line: seq<Byte>)
    requires line != [] && !Complete(line) && LineEnd(line) == |line|
    ensures LineEnd(line + [NEWLINE]) == |line| + 1
  {
    if line[0] != RETURN && |line| > 1 {
      assert (line + [NEWLINE])[1..] == line[1..] + [NEWLINE];
      SealedEnd(line[1..]);
    } else if |line| == 1 {
      assert (line + [NEWLINE])[1..] == [NEWLINE];
    }
  }

  /** However broken the file was, what a successful repair leaves is whole lines
      that hold exactly the records it reported. */
  lemma {:induction false} RepairedIsClean(c: Codec, s: seq<Byte>, n: nat)
    requires Load(c, s, n).Loaded?
    ensures var r := Load(c, s, n);
      Clean(c, r.file) && Records(c, r.file) == r.records && (r.file != [] ==> s != [] && r.file[0] == s[0])
    decreases |s|
  {
    if s != [] {
      var e := LineEnd(s);
      var line, rest := s[..e], s[e..];
      if !Complete(line) && rest == [] {
        if c.decode(Content(line)).Some? {
          assert line == s;
          SealedLine(c, line);
        }
      } else {
        RepairedIsClean(c, rest, n + 1);
        LineAtFront(s);
        LineIsOneLine(s);
        CleanCons(c, line, Load(c, rest, n + 1).file);
      }
    }
  }

  /** The first line of a file stays a line in front of anything that starts the
      way its rest did. */
  lemma LineAtFront(s: seq<Byte>)
    requires s != []
    ensures var line, rest := s[..LineEnd(s)], s[LineEnd(s)..];
      rest != [] || Complete(line) ==>
        Ended(line) && forall b | b == [] || (rest != [] && b[0] == rest[0]) :: Joinable(line, b)
  {
    if LineEnd(s) < |s| { LineEndCut(s); }
  }

  lemma CleanCons(c: Codec, line: seq<Byte>, f: seq<Byte>)
    requires line != [] && Joinable(line, f) && LineEnd(line) == |line|
    requires c.decode(Content(line)).Some? && Clean(c, f)
    ensures Clean(c, line + f) && Records(c, line + f) == [c.decode(Content(line)).value] + Records(c, f)
  {
    LineEndJoin(line, f);
    FirstLine(line, f);
  }

  lemma {:induction false} LineIsOneLine(s: seq<Byte>)
    requires s != []
    ensures LineEnd(s[..LineEnd(s)]) == LineEnd(s)
  {
    var e := LineEnd(s);
    assert s[..e][0] == s[0];
    if s[0] == RETURN && e == 2 { assert s[..2][1] == NEWLINE; }
    if s[0] != NEWLINE && s[0] != RETURN {
      assert s[..e][1..] == s[1..][..e - 1];
      if s[1..] != [] { LineIsOneLine(s[1..]); }
    }
  }

  // ------------------------------------------------------------------- append, ack

  function Payload(c: Codec, r: Record): seq<Byte> { c.encode(r) + [NEWLINE] }

  /** What the file holds after some bytes of an append reached it. */
  function Torn(c: Codec, f: seq<Byte>, r: Record, k: nat): seq<Byte>
    requires k <= |Payload(c, r)|
  {
    f + Payload(c, r)[..k]
  }

  /** The first line of a clean file is untouched by what is appended. */
  lemma CleanFirst(c: Codec, f: seq<Byte>, q: seq<Byte>)
    requires f != [] && Clean(c, f) && q != [] && q[0] != NEWLINE
    ensures var e := LineEnd(f);
      LineEnd(f + q) == e && (f + q)[..e] == f[..e] && (f + q)[e..] == f[e..] + q
  {
    hide Clean, LineEnd, Joinable;
    CleanJoin(c, f, q);
    LineEndJoin(f, q);
    CutBefore(f, q, LineEnd(f));
  }

  lemma CutBefore(f: seq<Byte>, q: seq<Byte>, e: nat)
    requires e <= |f|
    ensures (f + q)[..e] == f[..e] && (f + q)[e..] == f[e..] + q
  {
  }

  lemma CleanJoin(c: Codec, f: seq<Byte>, q: seq<Byte>)
    requires f != [] && Clean(c, f) && q != [] && q[0] != NEWLINE
    ensures LineEnd(f) < |f| || Joinable(f, q)
  {
    hide LineEnd;
    if LineEnd(f) == |f| { assert f[..|f|] == f; }
  }

  lemma {:induction false} LoadClean(c: Codec, f: seq<Byte>, n: nat)
    requires Clean(c, f)
    ensures Load(c, f, n).Loaded? && Load(c, f, n).records == Records(c, f)
    decreases |f|
  {
    if f != [] { LoadClean(c, f[LineEnd(f)..], n + 1); }
  }

  /** A clean file in front of some plain text: its records first, then the text's. */
  lemma {:induction false} LoadBehind(c: Codec, f: seq<Byte>, q: seq<Byte>, n: nat, m: nat)
    requires Clean(c, f) && q != [] && q[0] != NEWLINE && Load(c, q, m).Loaded?
    ensures Load(c, f + q, n).Loaded?
    ensures Load(c, f + q, n).records == Records(c, f) + Load(c, q, m).records
    decreases |f|
  {
    if f == [] {
      assert f + q == q;
      LoadCount(c, q, n, m);
    } else {
      CleanTail(c, f);
      LoadBehind(c, f[LineEnd(f)..], q, n + 1, m);
      BehindStep(c, f, q, n, Load(c, q, m).records);
    }
  }

  lemma BehindStep(c: Codec, f: seq<Byte>, q: seq<Byte>, n: nat, more: seq<Record>)
    requires f != [] && Clean(c, f) && q != [] && q[0] != NEWLINE
    requires var rest := f[LineEnd(f)..];
      Clean(c, rest) && Load(c, rest + q, n + 1).Loaded? && Load(c, rest + q, n + 1).records == Records(c, rest) + more
    ensures Load(c, f + q, n).Loaded? && Load(c, f + q, n).records == Records(c, f) + more
  {
    hide Load, Records, Clean, LineEnd;
    CleanFirst(c, f, q);
    OneLineMore(c, f, f + q, n);
  }

  lemma CleanTail(c: Codec, f: seq<Byte>)
    requires f != [] && Clean(c, f)
    ensures Clean(c, f[LineEnd(f)..]) && Records(c, f) != [] && |f[LineEnd(f)..]| < |f|
  {
  }

  lemma OneLineMore(c: Codec, f: seq<Byte>, s: seq<Byte>, n: nat)
    requires f != [] && Clean(c, f) && s != []
    requires s[..LineEnd(s)] == f[..LineEnd(f)] && s[LineEnd(s)..] != []
    requires Load(c, s[LineEnd(s)..], n + 1).Loaded?
    ensures Load(c, s, n).Loaded?
    ensures Load(c, s, n).records == [Records(c, f)[0]] + Load(c, s[LineEnd(s)..], n + 1).records
    ensures Records(c, f) == [Records(c, f)[0]] + Records(c, f[LineEnd(f)..])
  {
  }

  /** Where a text starts only matters for the line number in an error. */
  lemma {:induction false} LoadCount(c: Codec, s: seq<Byte>, n: nat, m: nat)
    ensures Load(c, s, n).Loaded? ==> Load(c, s, n) == Load(c, s, m)
    ensures Load(c, s, n).Loaded? <==> Load(c, s, m).Loaded?
    decreases |s|
  {
    if s != [] { LoadCount(c, s[LineEnd(s)..], n + 1, m + 1); }
  }

  /** What a torn append reads as on its own. */
  lemma TornAlone(c: Codec, r: Record, k: nat, m: nat)
    requires Lawful(c) && r.id != "" && k <= |Payload(c, r)|
    ensures var q := Payload(c, r)[..k];
      && (q != [] ==> q[0] != NEWLINE)
      && Load(c, q, m).Loaded? && Load(c, q, m).records == if k < |c.encode(r)| then [] else [r]
  {
    var code, q := c.encode(r), Payload(c, r)[..k];
    if k <= |code| {
      assert q == code[..k];
      assert Plain(q);
      PlainLine(q);
      if q != [] {
        assert q[0] == code[0] && q[0] in code;
        assert q[..|q|] == q && q[|q|..] == [] && !Complete(q) by { assert q[|q| - 1] in q; }
      }
      if k == |code| { assert q == code; }
    } else {
      assert q == code + [NEWLINE];
      PlainLine(code);
      assert q[..|q|] == q && q[|q|..] == [] && Content(q) == code;
      assert Load(c, [], m + 1) == Loaded([], []);
      assert q[0] == code[0] && code[0] in code;
    }
  }

  /** A crash anywhere in an append: reopening never fails, keeps every old record,
      and has the new one exactly when its whole text reached the disk. */
  lemma CrashSafeAppend(c: Codec, f: seq<Byte>, r: Record, k: nat)
    requires Lawful(c) && Clean(c, f) && r.id != "" && k <= |Payload(c, r)|
    ensures var reopened := Load(c, Torn(c, f, r, k), 1);
      && reopened.Loaded?
      && reopened.records == Records(c, f) + (if k < |c.encode(r)| then [] else [r])
      && Clean(c, reopened.file) && Records(c, reopened.file) == reopened.records
  {
    TornAlone(c, r, k, 1);
    LoadClean(c, f, 1);
    var q := Payload(c, r)[..k];
    if q == [] { assert f + q == f; } else { LoadBehind(c, f, q, 1, 1); }
    RepairedIsClean(c, Torn(c, f, r, k), 1);
  }

  /** Reading again what a repair left gives the same records. */
  lemma RepairTwice(c: Codec, s: seq<Byte>)
    requires Load(c, s, 1).Loaded?
    ensures var again := Load(c, Load(c, s, 1).file, 1);
      again.Loaded? && again.records == Load(c, s, 1).records
  {
    RepairedIsClean(c, s, 1);
    var f := Load(c, s, 1).file;
    LoadClean(c, f, 1);
  }

  /** What `ack` writes: the records, one a line. */
  function Written(c: Codec, records: seq<Record>): seq<Byte> {
    if records == [] then [] else Written(c, records[..|records| - 1]) + Payload(c, records[|records| - 1])
  }

  lemma {:induction false} WrittenReads(c: Codec, records: seq<Record>)
    requires Lawful(c) && forall i | 0 <= i < |records| :: records[i].id != ""
    ensures Load(c, Written(c, records), 1).Loaded? && Load(c, Written(c, records), 1).records == records
    ensures Clean(c, Written(c, records)) && Records(c, Written(c, records)) == records
  {
    if records == [] {
      assert Clean(c, []);
    } else {
      var front, last := records[..|records| - 1], records[|records| - 1];
      WrittenReads(c, front);
      var f := Written(c, front);
      CrashSafeAppend(c, f, last, |Payload(c, last)|);
      assert Payload(c, last)[..|Payload(c, last)|] == Payload(c, last);
      CleanAppend(c, f, last);
    }
  }

  lemma {:induction false} CleanAppend(c: Codec, f: seq<Byte>, r: Record)
    requires Lawful(c) && Clean(c, f) && r.id != ""
    ensures Clean(c, f + Payload(c, r)) && Records(c, f + Payload(c, r)) == Records(c, f) + [r]
    decreases |f|
  {
    if f == [] {
      PayloadAlone(c, r);
      assert f + Payload(c, r) == Payload(c, r);
    } else {
      hide Lawful, Load, Payload;
      var q := Payload(c, r);
      PayloadFirst(c, r);
      CleanFirst(c, f, q);
      CleanAppend(c, f[LineEnd(f)..], r);
    }
  }

  lemma PayloadAlone(c: Codec, r: Record)
    requires Lawful(c) && r.id != ""
    ensures Clean(c, Payload(c, r)) && Records(c, Payload(c, r)) == [r]
  {
    var q, code := Payload(c, r), c.encode(r);
    PlainLine(code);
    assert q[..|q|] == q && q[|q|..] == [] && Content(q) == code;
    assert Clean(c, []) && Records(c, []) == [];
  }

  lemma PayloadFirst(c: Codec, r: Record)
    requires Lawful(c) && r.id != ""
    ensures Payload(c, r) != [] && Payload(c, r)[0] != NEWLINE
  {
    assert c.encode(r)[0] in c.encode(r);
  }
}
