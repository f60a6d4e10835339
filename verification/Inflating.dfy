/** A raw deflate stream read forward, one member's compressed bytes at a time. */
module Inflating {
  import opened Foundations
  import opened Bytes
  import opened VirtualFile

  const CHUNK: nat := 256 * 1024
  const MIN_OUTPUT: nat := 65536

  // -------------------------------------------------------------------- the inflater

  /** A raw deflate stream (RFC 1951) as an oracle: its bytes, what they inflate to,
      and how far one call gets, given what was consumed and produced before, how
      much input it is handed and how much output it may give. */
  datatype Stream = Stream(bytes: seq<Byte>, plain: seq<Byte>, turn: (nat, nat, nat, nat) -> (nat, nat))

  /** What any inflater does: it takes its input in order, gives its output in order
      within the limit, and stops only at the limit, for want of input, or at the
      end of the stream. */
  ghost predicate Inflates(s: Stream) {
    s.bytes != [] && forall consumed: nat, produced: nat, given: nat, limit: nat
      | consumed + given <= |s.bytes| && produced <= |s.plain| && given > 0 && limit > 0 ::
        var (ate, made) := s.turn(consumed, produced, given, limit);
        && ate <= given && made <= limit && produced + made <= |s.plain|
        && (made == limit || ate == given || (consumed + ate == |s.bytes| && produced + made == |s.plain|))
        && (consumed + ate == |s.bytes| ==> made == limit || produced + made == |s.plain|)
  }

  /** It never swallows the last of its input while it still owes output. */
  ghost predicate HoldsNothingBack(s: Stream) {
    forall consumed: nat, produced: nat, given: nat, limit: nat
      | consumed + given <= |s.bytes| && produced <= |s.plain| && given > 0 && limit > 0 ::
        var (ate, made) := s.turn(consumed, produced, given, limit);
        consumed + ate == |s.bytes| ==> produced + made == |s.plain|
  }

  datatype Inflater = Inflater(consumed: nat, produced: nat, tail: seq<Byte>, eof: bool)

  function Decompress(s: Stream, z: Inflater, raw: seq<Byte>, limit: nat): (Inflater, seq<Byte>) {
    var (ate, made) := s.turn(z.consumed, z.produced, |raw|, limit);
    var eof := z.consumed + ate == |s.bytes| && z.produced + made == |s.plain|;
    (Inflater(z.consumed + ate, z.produced + made, if eof then [] else Clip(raw, ate, |raw|), eof),
     Clip(s.plain, z.produced, z.produced + made))
  }

  // -------------------------------------------------------------- the forward reader

  datatype Inflated = Inflated(data: seq<Byte>) | EndedEarly | TooShort

  /** Everything `_InflateReader` holds: the compressed source, the inflater, output
      not yet handed out, and how much was handed out. */
  datatype Reader = Reader(src: FlatFile, z: Inflater, buf: seq<Byte>, out: nat)

  ghost predicate Sound(s: Stream, r: Reader) {
    && |r.src.bytes| <= r.src.claimed && r.src.bytes <= s.bytes && r.src.pos <= |r.src.bytes|
    && r.z.consumed <= |s.bytes| && r.z.produced <= |s.plain| && r.out + |r.buf| == r.z.produced
    && r.buf == Clip(s.plain, r.out, r.z.produced)
    && (r.z.eof <==> r.z.consumed == |s.bytes| && r.z.produced == |s.plain|)
    && (!r.z.eof ==> r.z.consumed + |r.z.tail| == r.src.pos && r.z.tail == Clip(s.bytes, r.z.consumed, r.src.pos))
    && (r.z.eof ==> r.z.tail == [])
    && (HoldsNothingBack(s) && r.z.consumed == |s.bytes| ==> r.z.eof)
  }

  function Opened(src: FlatFile): Reader {
    Reader(src.(pos := 0), Inflater(0, 0, [], false), [], 0)
  }

  lemma OpenedIsSound(s: Stream, src: FlatFile)
    requires Inflates(s) && |src.bytes| <= src.claimed && src.bytes <= s.bytes
    ensures Sound(s, Opened(src))
  {
  }

  /** More output is wanted, but the inflater has no input left to be given. */
  predicate Starved(r: Reader, want: nat) {
    |r.buf| < want && !r.z.eof && r.z.tail == [] && r.src.pos >= |r.src.bytes|
  }

  /** One turn of `_fill`: feed the tail or the next chunk. */
  function Feed(s: Stream, r: Reader, want: nat): Reader
    requires |r.buf| < want
  {
    var (src, raw) := Input(r);
    var (z, more) := Decompress(s, r.z, raw, Max(want - |r.buf|, MIN_OUTPUT));
    Reader(src, z, r.buf + more, r.out)
  }

  lemma FeedIs(s: Stream, r: Reader, want: nat)
    requires Inflates(s) && Sound(s, r) && |r.buf| < want && !r.z.eof && !Starved(r, want)
    ensures var r' := Feed(s, r, want);
      && Sound(s, r') && r'.out == r.out && r'.src == r.src.(pos := r'.src.pos)
      && r.z.consumed <= r'.z.consumed <= |s.bytes|
      && (r'.z.eof || |r'.buf| >= want || r.z.consumed < r'.z.consumed)
  {
    hide Inflates, Clip, HoldsNothingBack, Decompress;
    var (src, raw) := Input(r);
    RawIs(s, r, src, raw);
    var limit := Max(want - |r.buf|, MIN_OUTPUT);
    TurnIs(s, r.z, raw, limit, src.pos);
    var (z, more) := Decompress(s, r.z, raw, limit);
    ClipJoin(s.plain, r.out, r.z.produced, z.produced);
  }

  /** What the oracle guarantees about one call. */
  lemma TurnIs(s: Stream, z: Inflater, raw: seq<Byte>, limit: nat, upTo: nat)
    requires Inflates(s) && raw != [] && limit > 0 && z.produced <= |s.plain|
    requires z.consumed + |raw| == upTo <= |s.bytes| && raw == Clip(s.bytes, z.consumed, upTo)
    ensures var (z', more) := Decompress(s, z, raw, limit);
      && z.consumed <= z'.consumed <= upTo && z.produced <= z'.produced <= |s.plain|
        && |more| == z'.produced - z.produced
      && more == Clip(s.plain, z.produced, z'.produced)
      && (z'.eof <==> z'.consumed == |s.bytes| && z'.produced == |s.plain|)
      && (z'.eof ==> z'.tail == [])
      && (!z'.eof ==> |z'.tail| == upTo - z'.consumed && z'.tail == Clip(s.bytes, z'.consumed, upTo))
      && (z'.eof || |more| == limit || z'.consumed == upTo)
      && (HoldsNothingBack(s) && z'.consumed == |s.bytes| ==> z'.eof)
  {
    hide Clip;
    var (ate, made) := s.turn(z.consumed, z.produced, |raw|, limit);
    ClipClip(s.bytes, z.consumed, upTo, ate, |raw|);
  }

  /** The tail if there is one, else the next chunk of the source. */
  function Input(r: Reader): (FlatFile, seq<Byte>) {
    if r.z.tail != [] then (r.src, r.z.tail)
    else
      var (f, a) := FlatStep(r.src, ReadOp(Some(CHUNK)));
      (f, a.bytes)
  }

  /** What is fed is the stream's next bytes. */
  lemma RawIs(s: Stream, r: Reader, src: FlatFile, raw: seq<Byte>)
    requires Sound(s, r) && !r.z.eof && (r.z.tail != [] || r.src.pos < |r.src.bytes|)
    requires (src, raw) == Input(r)
    ensures raw != [] && src == r.src.(pos := src.pos) && src.pos <= |src.bytes|
    ensures r.z.consumed + |raw| == src.pos && raw == Clip(s.bytes, r.z.consumed, src.pos)
  {
    if r.z.tail == [] {
      assert r.src.bytes == s.bytes[..|r.src.bytes|];
      assert raw == r.src.bytes[r.src.pos..src.pos];
    }
  }

  /** `_fill`: feed until `want` bytes wait, the stream has ended, or no input is left. */
  function Filled(s: Stream, r: Reader, want: nat): (f: Reader)
    requires Inflates(s) && Sound(s, r)
    ensures Sound(s, f) && f.out == r.out && f.src == r.src.(pos := f.src.pos)
    ensures |f.buf| >= want || f.z.eof || Starved(f, want)
    decreases if |r.buf| < want && !r.z.eof then 1 + |s.bytes| - r.z.consumed else 0
  {
    if |r.buf| >= want || r.z.eof || Starved(r, want) then r
    else
      FeedIs(s, r, want);
      hide Inflates, Sound, Feed, Starved;
      Filled(s, Feed(s, r, want), want)
  }

  /** From here, feeding runs out of input before `want` bytes wait. */
  predicate Stalls(s: Stream, r: Reader, want: nat)
    requires Inflates(s) && Sound(s, r)
  {
    Starved(Filled(s, r, want), want)
  }

  /** On a member that is there in full, that is: the inflater has swallowed the stream's last
      byte, still owes output, and fewer than `want` bytes wait. On a truncated one: all there
      is has been swallowed. */
  lemma StallsExactly(s: Stream, r: Reader, want: nat)
    requires Inflates(s) && Sound(s, r)
    ensures var f := Filled(s, r, want);
      && (Stalls(s, r, want) <==> |f.buf| < want && !f.z.eof && f.z.consumed == |r.src.bytes|)
      && (r.src.bytes == s.bytes ==>
            (Stalls(s, r, want) <==> |f.buf| < want && f.z.produced < |s.plain| && f.z.consumed == |s.bytes|))
  {
    hide Inflates, HoldsNothingBack;
    var f := Filled(s, r, want);
    assert Sound(s, f);
  }

  /** A member that is there in full, with a recorded size its stream can fill. */
  predicate Healthy(s: Stream, src: FlatFile, size: nat) { src.bytes == s.bytes && size <= |s.plain| }

  lemma HoldingNothingBackIsEnough(s: Stream, r: Reader, want: nat)
    requires Inflates(s) && Sound(s, r) && HoldsNothingBack(s) && r.src.bytes == s.bytes
    ensures !Stalls(s, r, want)
  {
    hide Inflates, HoldsNothingBack;
    assert Sound(s, Filled(s, r, want));
  }

  /** How much a read is for: a member never gives more than its recorded size. */
  function Due(size: nat, r: Reader, arg: Option<int>): nat { Wanted(FlatFile([], size, r.out), arg) }

  /** `_InflateReader.read`. */
  function ReadStep(s: Stream, size: nat, r: Reader, arg: Option<int>): (Reader, Inflated)
    requires Inflates(s) && Sound(s, r)
  {
    var n := Due(size, r, arg);
    if n == 0 then (r, Inflated([]))
    else
      var f := Filled(s, r, n);
      if Starved(f, n) then (f, EndedEarly)
      else if |f.buf| < n then (f.(buf := [], out := f.out + |f.buf|), TooShort)
      else (f.(buf := f.buf[n..], out := f.out + n), Inflated(f.buf[..n]))
  }

  /** A read returns exactly the member's next bytes, or fails: because feeding stalls, or because
      the stream is shorter than recorded. Either way the reader stays sound. */
  lemma ReadStepIs(s: Stream, size: nat, r: Reader, arg: Option<int>)
    requires Inflates(s) && Sound(s, r)
    ensures var (next, answer) := ReadStep(s, size, r, arg);
      var n := Due(size, r, arg);
      && Sound(s, next) && next.src == r.src.(pos := next.src.pos)
      && (answer.EndedEarly? <==> Stalls(s, r, n))
      && (answer.TooShort? <==> !Stalls(s, r, n) && |s.plain| < r.out + n)
      && (n == 0 ==> answer.Inflated?)
      && match answer
         case Inflated(data) => |data| == n && data == Clip(s.plain, r.out, r.out + n) && next.out == r.out + n
         case EndedEarly => next.out == r.out
         case TooShort => next.out == |s.plain|
  {
    hide Inflates, HoldsNothingBack, Clip;
    var n := Due(size, r, arg);
    var f := Filled(s, r, n);
    HandedOut(s, f, n);
  }

  lemma HandedOut(s: Stream, r: Reader, n: nat)
    requires Sound(s, r)
    ensures n <= |r.buf| ==> r.buf[..n] == Clip(s.plain, r.out, r.out + n)
    ensures n <= |r.buf| ==> Sound(s, r.(buf := r.buf[n..], out := r.out + n))
    ensures |r.buf| < n && r.z.eof ==> |s.plain| < r.out + n
    ensures Sound(s, r.(buf := [], out := r.out + |r.buf|))
  {
    if n <= |r.buf| {
      ClipJoin(s.plain, r.out, r.out + n, r.z.produced);
      assert r.buf == r.buf[..n] + r.buf[n..];
    }
  }

  class InflateReader {
    const s: Stream
    const size: nat
    const src: SlicedReader
    var z: Inflater
    var buf: seq<Byte>
    var out: nat

    ghost function View(): Reader
      reads this, src
    {
      Reader(src.View(), z, buf, out)
    }

    ghost predicate Valid()
      reads this, src, src.base, src.base.worker
    {
      src.Valid() && Inflates(s) && Sound(s, View())
    }

    constructor (src: SlicedReader, s: Stream, size: nat)
      requires src.Valid() && src.pos == 0
      requires Inflates(s) && src.View().bytes <= s.bytes
      ensures Valid() && this.src == src && this.s == s && this.size == size && View() == Opened(src.View())
    {
      this.s, this.size, this.src := s, size, src;
      z, buf, out := Inflater(0, 0, [], false), [], 0;
    }

    /** `_fill`. */
    method Fill(want: nat) returns (ok: bool)
      requires Valid()
      modifies this`z, this`buf, src, src.base, src.base.worker
      ensures Valid() && View() == Filled(s, old(View()), want) && (ok <==> !Stalls(s, old(View()), want))
    {
      ghost var start := View();
      hide Inflates, Sound, Clip;
      while |buf| < want && !z.eof
        invariant Valid() && Filled(s, View(), want) == Filled(s, start, want)
        decreases if |buf| < want && !z.eof then 1 + |s.bytes| - z.consumed else 0
      {
        if !Starved(View(), want) { FeedIs(s, View(), want); }
        var fed := Turn(want);
        if !fed { return false; }
      }
      return true;
    }

    /** One turn: nothing happens when there is nothing to feed. */
    method Turn(want: nat) returns (fed: bool)
      requires src.Valid() && |buf| < want && !z.eof
      modifies this`z, this`buf, src, src.base, src.base.worker
      ensures src.Valid() && out == old(out) && (fed <==> !Starved(old(View()), want))
      ensures View() == if fed then Feed(s, old(View()), want) else old(View())
    {
      hide Clip;
      var raw := z.tail;
      if raw == [] { raw := src.Read(Some(CHUNK)); }
      if raw == [] { return false; }
      var (next, more) := Decompress(s, z, raw, Max(want - |buf|, MIN_OUTPUT));
      z, buf := next, buf + more;
      return true;
    }

    /** `read`: exactly the member's next bytes, or one of two errors, each in exactly the case
        stated; the reader stays usable. */
    method Read(size: Option<int>) returns (r: Inflated)
      requires Valid() && out <= this.size
      modifies this`z, this`buf, this`out, src, src.base, src.base.worker
      ensures Valid() && (View(), r) == ReadStep(s, this.size, old(View()), size)
      ensures var n := Due(this.size, old(View()), size);
        && (r.EndedEarly? <==> Stalls(s, old(View()), n))
        && (r.TooShort? <==> !Stalls(s, old(View()), n) && |s.plain| < old(out) + n)
        && (r.Inflated? ==> |r.data| == n && r.data == Clip(s.plain, old(out), old(out) + n) && out == old(out) + n)
    {
      hide Clip, Inflates, Sound, Filled, Starved;
      ReadStepIs(s, this.size, View(), size);
      var remaining := this.size - out;
      var n := if size.None? || size.value < 0 || size.value > remaining then remaining else size.value;
      if n == 0 { return Inflated([]); }
      var ok := Fill(n);
      if !ok { return EndedEarly; }
      var data := if |buf| < n then buf else buf[..n];
      buf := if |buf| < n then [] else buf[n..];
      out := out + |data|;
      return if |data| < n then TooShort else Inflated(data);
    }
  }
}
