/** A compressed member as a seekable file: reads come from a forward-only stream, backward
    seeks open a new one, forward ones read and drop. */
module MemberReader {
  import opened Foundations
  import opened Bytes
  import opened VirtualFile
  import opened ZipMembers
  import opened Inflating

  const SKIP: nat := 1048576

  // ------------------------------------------------------------ what each call does

  /** What every state of the adapter keeps; its position is what its stream has given out. */
  ghost predicate Usable(s: Stream, size: nat, r: Reader) { Inflates(s) && Sound(s, r) && r.out <= size }

  /** The same source, read up to somewhere else. */
  predicate SameSource(a: Reader, b: Reader) { b.src == a.src.(pos := b.src.pos) }

  /** Forward to `target`: false when a read on the way fails. A member that ends first stops
      there. */
  function Skipped(s: Stream, size: nat, r: Reader, target: nat): (res: (Reader, bool))
    requires Usable(s, size, r)
    ensures Usable(s, size, res.0) && SameSource(r, res.0)
    decreases target - r.out
  {
    hide Inflates, Sound;
    if r.out >= target then (r, true)
    else
      var arg := Some(Min(SKIP, target - r.out));
      ReadStepIs(s, size, r, arg);
      var (next, answer) := ReadStep(s, size, r, arg);
      if !answer.Inflated? then (next, false)
      else if answer.data == [] then (next, true)
      else Skipped(s, size, next, target)
  }

  /** The stream a seek goes forward on: a new one if the target lies behind. */
  function Start(r: Reader, target: nat): Reader { if target < r.out then Opened(r.src) else r }

  lemma StartIsUsable(s: Stream, size: nat, r: Reader, target: nat)
    requires Usable(s, size, r)
    ensures Usable(s, size, Start(r, target)) && SameSource(r, Start(r, target)) && Start(r, target).out <= target
  {
  }

  /** One call on the adapter. `None` is an error of the stream. */
  function MemberStep(s: Stream, size: nat, r: Reader, op: Op): (res: (Reader, Option<Answer>))
    requires Usable(s, size, r)
    ensures Usable(s, size, res.0) && SameSource(r, res.0)
  {
    hide Inflates, Sound;
    match op
    case ReadOp(arg) =>
      ReadStepIs(s, size, r, arg);
      var (next, answer) := ReadStep(s, size, r, arg);
      (next, if answer.Inflated? then Some(Data(answer.data)) else None)
    case SeekOp(offset, whence) =>
      var target := SeekTarget(FlatFile([], size, r.out), offset, whence);
      if whence.OtherWhence? then (r, Some(InvalidWhence))
      else if target < 0 then (r, Some(NegativePosition))
      else
        StartIsUsable(s, size, r, target);
        var (next, ok) := Skipped(s, size, Start(r, target), target);
        (next, if ok then Some(At(next.out)) else None)
  }

  /** Calls in a row, up to the first error. */
  function MemberRun(s: Stream, size: nat, r: Reader, ops: seq<Op>): (res: (Reader, Option<seq<Answer>>))
    requires Usable(s, size, r)
    ensures Usable(s, size, res.0) && SameSource(r, res.0)
    decreases |ops|
  {
    hide Usable, MemberStep;
    if ops == [] then (r, Some([]))
    else
      var (before, answers) := MemberRun(s, size, r, ops[..|ops| - 1]);
      if answers.None? then (before, None)
      else
        var (next, answer) := MemberStep(s, size, before, ops[|ops| - 1]);
        (next, if answer.Some? then Some(answers.value + [answer.value]) else None)
  }

  // ------------------------------------------------------------ against a flat file

  /** The member as an array of its bytes. */
  ghost function FlatMember(s: Stream, size: nat, pos: nat): FlatFile { FlatFile(Clip(s.plain, 0, size), size, pos) }

  lemma {:induction false} SkippedTo(s: Stream, size: nat, r: Reader, target: nat)
    requires Usable(s, size, r) && r.out <= target
    ensures Skipped(s, size, r, target).1 ==> Skipped(s, size, r, target).0.out == Min(target, size)
    decreases target - r.out
  {
    hide Inflates, Sound, ReadStep;
    if r.out < target {
      var arg := Some(Min(SKIP, target - r.out));
      ReadStepIs(s, size, r, arg);
      var (next, answer) := ReadStep(s, size, r, arg);
      if answer.Inflated? && answer.data != [] { SkippedTo(s, size, next, target); }
    }
  }

  /** Whatever call succeeds does what the flat member does; only a seek past the end stops at
      the end instead. */
  lemma StepIsFlat(s: Stream, size: nat, r: Reader, op: Op)
    requires Usable(s, size, r) && MemberStep(s, size, r, op).1.Some?
    ensures var (next, answer) := MemberStep(s, size, r, op);
      if op.SeekOp? && !op.whence.OtherWhence? && SeekTarget(FlatMember(s, size, r.out), op.offset, op.whence) > size
      then next.out == size && answer == Some(At(size))
      else (FlatMember(s, size, next.out), answer.value) == FlatStep(FlatMember(s, size, r.out), op)
  {
    hide Inflates, Sound, Clip;
    match op {
      case ReadOp(arg) =>
        ReadStepIs(s, size, r, arg);
        var n := Due(size, r, arg);
        ClipClip(s.plain, 0, size, r.out, r.out + n);
      case SeekOp(offset, whence) =>
        var target := SeekTarget(FlatFile([], size, r.out), offset, whence);
        if !whence.OtherWhence? && target >= 0 {
          StartIsUsable(s, size, r, target);
          SkippedTo(s, size, Start(r, target), target);
        }
    }
  }

  /** No seek of the sequence goes past the end. */
  ghost predicate StaysInside(f: FlatFile, ops: seq<Op>)
    decreases |ops|
  {
    ops == [] ||
    (var front, last := ops[..|ops| - 1], ops[|ops| - 1];
     StaysInside(f, front)
     && (last.SeekOp? && !last.whence.OtherWhence? ==>
           SeekTarget(FlatRun(f, front).0, last.offset, last.whence) <= f.claimed))
  }

  /** Any sequence of reads and in-range seeks that meets no error gives what the member's bytes
      give. */
  lemma {:induction false} RunIsFlat(s: Stream, size: nat, r: Reader, ops: seq<Op>)
    requires Usable(s, size, r) && MemberRun(s, size, r, ops).1.Some?
    requires StaysInside(FlatMember(s, size, r.out), ops)
    ensures var (next, answers) := MemberRun(s, size, r, ops);
      (FlatMember(s, size, next.out), answers.value) == FlatRun(FlatMember(s, size, r.out), ops)
    decreases |ops|
  {
    hide Usable, MemberStep, Clip, FlatStep;
    if ops != [] {
      var front, last := ops[..|ops| - 1], ops[|ops| - 1];
      RunIsFlat(s, size, r, front);
      StepIsFlat(s, size, MemberRun(s, size, r, front).0, last);
    }
  }

  // ------------------------------------------------------------ when a run meets no error

  /** The stream can give `n` bytes here: feeding does not stall, and it is long enough. */
  predicate Gives(s: Stream, r: Reader, n: nat)
    requires Inflates(s) && Sound(s, r)
  {
    !Stalls(s, r, n) && r.out + n <= |s.plain|
  }

  /** Every chunk read on the way to `target` is given. */
  predicate WayGiven(s: Stream, size: nat, r: Reader, target: nat)
    requires Usable(s, size, r)
    decreases target - r.out
  {
    hide Inflates, Sound;
    r.out >= Min(target, size) ||
    (var arg := Some(Min(SKIP, target - r.out));
     ReadStepIs(s, size, r, arg);
     Gives(s, r, Due(size, r, arg)) && WayGiven(s, size, ReadStep(s, size, r, arg).0, target))
  }

  predicate OpGiven(s: Stream, size: nat, r: Reader, op: Op)
    requires Usable(s, size, r)
  {
    match op
    case ReadOp(arg) => Gives(s, r, Due(size, r, arg))
    case SeekOp(offset, whence) =>
      var target := SeekTarget(FlatFile([], size, r.out), offset, whence);
      whence.OtherWhence? || target < 0 ||
      (StartIsUsable(s, size, r, target); WayGiven(s, size, Start(r, target), target))
  }

  lemma {:induction false} SkippedExactly(s: Stream, size: nat, r: Reader, target: nat)
    requires Usable(s, size, r)
    ensures Skipped(s, size, r, target).1 <==> WayGiven(s, size, r, target)
    decreases target - r.out
  {
    hide Inflates, Sound, ReadStep, Stalls;
    if r.out < target {
      var arg := Some(Min(SKIP, target - r.out));
      ReadStepIs(s, size, r, arg);
      var (next, answer) := ReadStep(s, size, r, arg);
      if answer.Inflated? && answer.data != [] { SkippedExactly(s, size, next, target); }
    }
  }

  lemma StepExactly(s: Stream, size: nat, r: Reader, op: Op)
    requires Usable(s, size, r)
    ensures MemberStep(s, size, r, op).1.Some? <==> OpGiven(s, size, r, op)
  {
    hide Inflates, Sound, Stalls;
    match op {
      case ReadOp(arg) => ReadStepIs(s, size, r, arg);
      case SeekOp(offset, whence) =>
        var target := SeekTarget(FlatFile([], size, r.out), offset, whence);
        if !whence.OtherWhence? && target >= 0 {
          StartIsUsable(s, size, r, target);
          SkippedExactly(s, size, Start(r, target), target);
        }
    }
  }

  /** A run meets no error exactly if each call, where the run has got to, is given what it asks
      of the stream: no read, skipping ones included, stalls or wants more than there is. */
  lemma {:induction false} RunExactly(s: Stream, size: nat, r: Reader, ops: seq<Op>)
    requires Usable(s, size, r)
    ensures MemberRun(s, size, r, ops).1.Some?
      <==> forall i | 0 <= i < |ops| :: OpGiven(s, size, MemberRun(s, size, r, ops[..i]).0, ops[i])
    decreases |ops|
  {
    hide Usable, MemberStep, OpGiven;
    if ops != [] {
      var front := ops[..|ops| - 1];
      RunExactly(s, size, r, front);
      StepExactly(s, size, MemberRun(s, size, r, front).0, ops[|ops| - 1]);
      forall i | 0 <= i < |front| ensures front[..i] == ops[..i] && front[i] == ops[i] {}
    }
  }

  /** On a healthy member nothing fails as long as the inflater never swallows its last input
      while it still owes output. */
  lemma {:induction false} HoldingNothingBackServes(s: Stream, size: nat, r: Reader, ops: seq<Op>)
    requires Usable(s, size, r) && HoldsNothingBack(s) && Healthy(s, r.src, size)
    ensures MemberRun(s, size, r, ops).1.Some?
  {
    hide Inflates, Sound, HoldsNothingBack, MemberRun, OpGiven;
    RunExactly(s, size, r, ops);
    forall i | 0 <= i < |ops| ensures OpGiven(s, size, MemberRun(s, size, r, ops[..i]).0, ops[i]) {
      NothingHeldOp(s, size, MemberRun(s, size, r, ops[..i]).0, ops[i]);
    }
  }

  lemma NothingHeldOp(s: Stream, size: nat, r: Reader, op: Op)
    requires Usable(s, size, r) && HoldsNothingBack(s) && Healthy(s, r.src, size)
    ensures OpGiven(s, size, r, op)
  {
    hide Inflates, Sound, HoldsNothingBack, Stalls;
    match op {
      case ReadOp(arg) => HoldingNothingBackIsEnough(s, r, Due(size, r, arg));
      case SeekOp(offset, whence) =>
        var target := SeekTarget(FlatFile([], size, r.out), offset, whence);
        if !whence.OtherWhence? && target >= 0 {
          StartIsUsable(s, size, r, target);
          NothingHeldWay(s, size, Start(r, target), target);
        }
    }
  }

  lemma {:induction false} NothingHeldWay(s: Stream, size: nat, r: Reader, target: nat)
    requires Usable(s, size, r) && HoldsNothingBack(s) && Healthy(s, r.src, size)
    ensures WayGiven(s, size, r, target)
    decreases target - r.out
  {
    hide Inflates, Sound, HoldsNothingBack, Stalls, ReadStep;
    if r.out < Min(target, size) {
      var arg := Some(Min(SKIP, target - r.out));
      ReadStepIs(s, size, r, arg);
      HoldingNothingBackIsEnough(s, r, Due(size, r, arg));
      NothingHeldWay(s, size, ReadStep(s, size, r, arg).0, target);
    }
  }

  // ------------------------------------------------------------ the object

  class DecompressReader {
    const archive: Archive
    const offset: nat
    const compressed: nat
    const s: Stream
    const size: nat
    var stream: InflateReader
    var pos: nat

    ghost predicate Valid()
      reads this, stream, stream.src, stream.src.base, archive.worker
    {
      && Ready(archive) && Inflates(s) && Source().bytes <= s.bytes
      && stream.src.base.worker == archive.worker && stream.src.base.flat == Whole(archive)
      && stream.src.start == offset && stream.src.size == compressed
      && stream.Valid() && stream.s == s && stream.size == size
      && stream.out == pos && pos <= size
    }

    /** The member's compressed bytes. */
    ghost function Source(): FlatFile {
      FlatFile(Clip(Whole(archive), offset, offset + compressed), compressed, 0)
    }

    constructor (archive: Archive, offset: nat, compressed: nat, s: Stream, size: nat)
      requires Ready(archive) && Inflates(s) && Clip(Whole(archive), offset, offset + compressed) <= s.bytes
      ensures Valid() && fresh(stream) && fresh(stream.src) && fresh(stream.src.base)
      ensures this.archive == archive && this.offset == offset && this.compressed == compressed
      ensures this.s == s && this.size == size && stream.View() == Opened(Source())
    {
      this.archive, this.offset, this.compressed, this.s, this.size, pos := archive, offset, compressed, s, size, 0;
      var first := OpenMember(archive, offset, compressed, s, size);
      stream := first;
    }

    method Read(size: Option<int>) returns (r: Option<Answer>)
      requires Valid()
      modifies this`pos, stream, stream.src, stream.src.base, archive.worker
      ensures (stream.View(), r) == MemberStep(s, this.size, old(stream.View()), ReadOp(size))
      ensures r.Some? ==> Valid()
    {
      hide Clip, Inflates, Sound, ReadStep;
      ReadStepIs(s, this.size, stream.View(), size);
      var answer := stream.Read(size);
      match answer {
        case Inflated(bytes) =>
          pos := pos + |bytes|;
          return Some(Data(bytes));
        case _ =>
          return None;
      }
    }

    /** Backward seeks restart the stream; forward ones read and drop. */
    method Seek(offset: int, whence: Whence) returns (r: Option<Answer>)
      requires Valid()
      modifies this`pos, this`stream, stream, stream.src, stream.src.base, archive.worker
      ensures stream == old(stream) || (fresh(stream) && fresh(stream.src) && fresh(stream.src.base))
      ensures stream.s == s && stream.size == size
      ensures (stream.View(), r) == MemberStep(s, size, old(stream.View()), SeekOp(offset, whence))
      ensures r.Some? ==> Valid()
    {
      hide Clip, Inflates, Sound, Skipped;
      if whence.OtherWhence? { return Some(InvalidWhence); }
      var target := match whence case FromHere => pos + offset case FromEnd => size + offset case _ => offset;
      if target < 0 { return Some(NegativePosition); }
      StartIsUsable(s, size, stream.View(), target);
      if target < pos {
        stream := OpenMember(archive, this.offset, compressed, s, size);
        pos := 0;
      }
      var ok := SkipTo(target);
      return if ok then Some(At(pos)) else None;
    }

    method SkipTo(target: nat) returns (ok: bool)
      requires Valid()
      modifies this`pos, stream, stream.src, stream.src.base, archive.worker
      ensures (stream.View(), ok) == Skipped(s, size, old(stream.View()), target)
      ensures ok ==> Valid()
    {
      hide Clip, Inflates, Sound, ReadStep;
      ghost var start := stream.View();
      while pos < target
        invariant Valid() && Skipped(s, size, stream.View(), target) == Skipped(s, size, start, target)
        decreases target - pos
      {
        ReadStepIs(s, size, stream.View(), Some(Min(SKIP, target - pos)));
        var chunk := stream.Read(Some(Min(SKIP, target - pos)));
        if !chunk.Inflated? { return false; }
        if chunk.data == [] { return true; }
        pos := pos + |chunk.data|;
      }
      return true;
    }

    /** Any sequence of calls up to the first error. It meets none exactly if every call is given
        what it asks of the stream, and then answers as the member's bytes do. */
    method Replay(ops: seq<Op>) returns (r: Option<seq<Answer>>)
      requires Valid()
      modifies this, stream, stream.src, stream.src.base, archive.worker
      ensures (stream.View(), r) == MemberRun(s, size, old(stream.View()), ops)
      ensures r.Some? <==> forall i | 0 <= i < |ops| ::
        OpGiven(s, size, MemberRun(s, size, old(stream.View()), ops[..i]).0, ops[i])
      ensures r.Some? && StaysInside(FlatMember(s, size, old(pos)), ops) ==>
        (FlatMember(s, size, pos), r.value) == FlatRun(FlatMember(s, size, old(pos)), ops)
      ensures r.Some? ==> Valid()
    {
      hide Clip, Inflates, Sound, MemberStep;
      ghost var start := stream.View();
      RunExactly(s, size, start, ops);
      if MemberRun(s, size, start, ops).1.Some? && StaysInside(FlatMember(s, size, pos), ops) {
        RunIsFlat(s, size, start, ops);
      }
      var answers: seq<Answer> := [];
      for i := 0 to |ops|
        invariant stream == old(stream) || (fresh(stream) && fresh(stream.src) && fresh(stream.src.base))
        invariant Valid() && MemberRun(s, size, start, ops[..i]) == (stream.View(), Some(answers))
      {
        assert ops[..i + 1][..i] == ops[..i];
        var answer;
        match ops[i] {
          case SeekOp(offset, whence) => answer := Seek(offset, whence);
          case ReadOp(size) => answer := Read(size);
        }
        if answer.None? {
          Failed(s, size, start, ops, i + 1);
          return None;
        }
        answers := answers + [answer.value];
      }
      assert ops[..|ops|] == ops;
      return Some(answers);
    }
  }

  /** The first error ends the run. */
  lemma {:induction false} Failed(s: Stream, size: nat, r: Reader, ops: seq<Op>, n: nat)
    requires Usable(s, size, r) && n <= |ops| && MemberRun(s, size, r, ops[..n]).1.None?
    ensures MemberRun(s, size, r, ops) == MemberRun(s, size, r, ops[..n])
    decreases |ops|
  {
    hide Usable, MemberStep;
    if n < |ops| {
      var front := ops[..|ops| - 1];
      assert front[..n] == ops[..n];
      Failed(s, size, r, front, n);
    } else {
      assert ops[..n] == ops;
    }
  }

  /** A new stream over the member, on a new file over the archive. */
  method OpenMember(a: Archive, offset: nat, compressed: nat, s: Stream, size: nat) returns (r: InflateReader)
    requires Ready(a) && Inflates(s) && Clip(Whole(a), offset, offset + compressed) <= s.bytes
    ensures fresh(r) && fresh(r.src) && fresh(r.src.base) && r.src.base.worker == a.worker
      && r.src.base.flat == Whole(a)
    ensures r.src.start == offset && r.src.size == compressed && r.s == s && r.size == size
    ensures r.Valid() && r.View() == Opened(FlatFile(Clip(Whole(a), offset, offset + compressed), compressed, 0))
  {
    var f := OpenStream(a);
    var window := new SlicedReader(f, offset, compressed);
    r := new InflateReader(window, s, size);
  }

  /** `open` of a deflated member. Its header is read once; `s` is the inflater's run over the
      bytes found there. */
  method OpenDeflated(a: Archive, header: nat, known: Option<nat>, compressed: nat, s: Stream, size: nat)
    returns (r: Offset, member: DecompressReader?)
    requires Ready(a) && (known.Some? ==> Found(a, header) == DataAt(known.value)) && Inflates(s)
    requires Found(a, header).DataAt? ==>
      Clip(Whole(a), Found(a, header).offset, Found(a, header).offset + compressed) <= s.bytes
    modifies a.worker
    ensures Ready(a) && r == Found(a, header) && (member != null <==> r.DataAt?)
    ensures member != null ==>
      && fresh(member) && fresh(member.stream) && fresh(member.stream.src) && fresh(member.stream.src.base)
      && member.Valid() && member.archive == a && member.s == s && member.size == size && member.pos == 0
      && member.stream.View()
           == Opened(FlatFile(Clip(Whole(a), r.offset, r.offset + compressed), compressed, 0))
  {
    hide Clip, Whole, Ready, Found, Inflates, Sound;
    var _, found := Locate(a, header, known);
    r, member := found, null;
    if r.DataAt? { member := new DecompressReader(a, r.offset, compressed, s, size); }
  }

  /** A deflated member of the archive, recorded as long as its stream inflates to, opened and
      used with any reads and in-range seeks: it answers as an array of the inflated bytes does,
      unless some read stalls, and that is decided by the stream alone. */
  method ReadDeflated(a: Archive, header: nat, known: Option<nat>, s: Stream, ops: seq<Op>)
    returns (r: Option<seq<Answer>>)
    requires Ready(a) && (known.Some? ==> Found(a, header) == DataAt(known.value)) && Inflates(s)
    requires HoldsMember(Whole(a), header, s.bytes)
    modifies a.worker
    ensures r == MemberRun(s, |s.plain|, Opened(FlatFile(s.bytes, |s.bytes|, 0)), ops).1
    ensures r.Some? && StaysInside(FlatFile(s.plain, |s.plain|, 0), ops) ==>
      r.value == FlatRun(FlatFile(s.plain, |s.plain|, 0), ops).1
    ensures HoldsNothingBack(s) ==> r.Some?
  {
    FoundIsTheData(a, header, s.bytes);
    ClipAll(s.plain, |s.plain|);
    hide Clip, Whole, Ready, Found, Inflates, Sound, HoldsNothingBack, HoldsMember;
    var _, member := OpenDeflated(a, header, known, |s.bytes|, s, |s.plain|);
    ghost var start := member.stream.View();
    if HoldsNothingBack(s) { HoldingNothingBackServes(s, |s.plain|, start, ops); }
    r := member.Replay(ops);
  }
}
