/** Cutting a file into messages and a message into upload parts. */
module SplitPlan {
  import opened Foundations

  const BIG_PART_SIZE: nat := 512 * 1024
  const SMALL_PART_SIZE: nat := 128 * 1024
  const SMALL_FILE_MAX: nat := 10 * 1024 * 1024
  const MAX_PARTS: nat := 1000
  const MESSAGE_MAX: nat := MAX_PARTS * BIG_PART_SIZE

  /** A contiguous piece of something longer. */
  datatype Piece = Piece(offset: nat, size: nat)

  ghost predicate Chained(ps: seq<Piece>) {
    forall i, j | 0 <= i && j == i + 1 && j < |ps| :: ps[j].offset == ps[i].offset + ps[i].size
  }

  /** The pieces start at `from`, follow one another without gap or overlap, and
      end at `total`. */
  ghost predicate Spans(ps: seq<Piece>, from: nat, total: nat) {
    && Chained(ps)
    && (if ps == [] then from == total else ps[0].offset == from && ps[|ps| - 1].offset + ps[|ps| - 1].size == total)
  }

  ghost predicate Tiles(ps: seq<Piece>, total: nat) { Spans(ps, 0, total) }

  /** Pieces of `unit` bytes, the last one possibly shorter, none empty. */
  ghost predicate Even(ps: seq<Piece>, unit: nat) {
    && (forall i | 0 <= i < |ps| :: 0 < ps[i].size <= unit)
    && (forall i | 0 <= i < |ps| - 1 :: ps[i].size == unit)
  }

  /** `n` pieces cut from the front. */
  function Cut(total: nat, unit: nat, offset: nat): seq<Piece>
    requires unit > 0 && offset <= total
    decreases total - offset
  {
    if offset == total then []
    else
      var n := Min(unit, total - offset);
      [Piece(offset, n)] + Cut(total, unit, offset + n)
  }

  lemma SpansCons(p: Piece, rest: seq<Piece>, total: nat)
    requires Spans(rest, p.offset + p.size, total)
    ensures Spans([p] + rest, p.offset, total)
  {
    var ps := [p] + rest;
    forall i, j | 0 <= i && j == i + 1 && j < |ps| ensures ps[j].offset == ps[i].offset + ps[i].size {
      assert ps[j] == rest[i];
      if i > 0 { assert ps[i] == rest[i - 1]; }
    }
    assert ps[|ps| - 1] == if rest == [] then p else rest[|rest| - 1];
  }

  lemma {:induction false} CutIs(total: nat, unit: nat, offset: nat)
    requires unit > 0 && offset <= total
    ensures Spans(Cut(total, unit, offset), offset, total) && Even(Cut(total, unit, offset), unit)
    ensures Cut(total, unit, offset) == [] <==> offset == total
    decreases total - offset
  {
    if offset < total {
      var n := Min(unit, total - offset);
      var rest := Cut(total, unit, offset + n);
      CutIs(total, unit, offset + n);
      SpansCons(Piece(offset, n), rest, total);
      assert Cut(total, unit, offset) == [Piece(offset, n)] + rest;
    }
  }

  /** Even pieces sit at multiples of the unit. */
  lemma {:induction false} EvenOffsets(ps: seq<Piece>, unit: nat, total: nat, i: nat)
    requires Tiles(ps, total) && Even(ps, unit) && i < |ps|
    ensures ps[i].offset == i * unit
    ensures ps[i].size == Min(unit, total - i * unit)
  {
    if i == 0 {
      assert 0 * unit == 0;
    } else {
      EvenOffsets(ps, unit, total, i - 1);
      assert ps[i].offset == ps[i - 1].offset + ps[i - 1].size;
      assert ps[i - 1].size == unit;
      assert (i - 1) * unit + unit == i * unit;
    }
    OffsetsGrow(ps, total, i);
  }

  lemma {:induction false} OffsetsGrow(ps: seq<Piece>, total: nat, i: nat)
    requires Tiles(ps, total) && i < |ps|
    ensures ps[i].offset + ps[i].size <= total
    decreases |ps| - i
  {
    if i < |ps| - 1 { OffsetsGrow(ps, total, i + 1); }
  }

  /** There is only one even tiling. */
  lemma EvenTilingUnique(ps: seq<Piece>, qs: seq<Piece>, unit: nat, total: nat)
    requires unit > 0 && Tiles(ps, total) && Even(ps, unit) && Tiles(qs, total) && Even(qs, unit)
    ensures ps == qs
    decreases |ps| < |qs|
  {
    if |ps| < |qs| { EvenTilingUnique(qs, ps, unit, total); }
    forall i | 0 <= i < |qs| ensures ps[i] == qs[i] {
      EvenOffsets(ps, unit, total, i);
      EvenOffsets(qs, unit, total, i);
    }
    if |qs| < |ps| {
      if qs != [] {
        EvenOffsets(ps, unit, total, |qs| - 1);
        EvenOffsets(ps, unit, total, |qs|);
        EvenOffsets(qs, unit, total, |qs| - 1);
      }
      OffsetsGrow(ps, total, |qs|);
    }
  }

  lemma Multiples(a: nat, b: nat, unit: nat)
    ensures a <= b ==> a * unit <= b * unit
    ensures a * unit < b * unit ==> a < b
  {
    if a <= b { assert b * unit == a * unit + (b - a) * unit; }
    if b <= a { assert a * unit == b * unit + (a - b) * unit; }
  }

  lemma CountFor(ps: seq<Piece>, unit: nat, total: nat, limit: nat)
    requires unit > 0 && Tiles(ps, total) && Even(ps, unit)
    ensures |ps| <= limit <==> total <= limit * unit
  {
    if |ps| > 0 {
      var last := |ps| - 1;
      EvenOffsets(ps, unit, total, last);
      OffsetsGrow(ps, total, last);
      assert last * unit < total <= last * unit + unit;
      assert |ps| * unit == last * unit + unit;
      Multiples(|ps|, limit, unit);
      Multiples(limit, last, unit);
    }
  }

  lemma CutTiles(total: nat, unit: nat)
    requires unit > 0
    ensures Tiles(Cut(total, unit, 0), total) && Even(Cut(total, unit, 0), unit)
  {
    CutIs(total, unit, 0);
  }

  // ------------------------------------------------------------------ the planners

  datatype PlanError = NegativeSize | EmptySegment | BadPartSize | TooManyParts

  datatype Plan = Planned(pieces: seq<Piece>) | Refused(error: PlanError)

  /** `_plan_parts`: cut one segment into upload parts, at most a thousand. */
  method PlanParts(size: int, partSize: int) returns (r: Plan)
    ensures size <= 0 ==> r == Refused(EmptySegment)
    ensures size > 0 && partSize <= 0 ==> r == Refused(BadPartSize)
    ensures size > 0 && partSize > 0 ==>
      r == if size <= MAX_PARTS * partSize then Planned(Cut(size, partSize, 0)) else Refused(TooManyParts)
    ensures r.Planned? ==> Tiles(r.pieces, size) && Even(r.pieces, partSize) && 0 < |r.pieces| <= MAX_PARTS
  {
    if size <= 0 { return Refused(EmptySegment); }
    if partSize <= 0 { return Refused(BadPartSize); }
    var out: seq<Piece> := [];
    var offset := 0;
    while offset < size
      invariant 0 <= offset <= size
      invariant Tiles(out, offset)
      invariant forall i | 0 <= i < |out| :: 0 < out[i].size <= partSize
      invariant forall i | 0 <= i < |out| :: out[i].size < partSize ==> i == |out| - 1 && offset == size
    {
      var n := Min(partSize, size - offset);
      out := out + [Piece(offset, n)];
      offset := offset + n;
    }
    CutTiles(size, partSize);
    EvenTilingUnique(out, Cut(size, partSize, 0), partSize, size);
    CountFor(out, partSize, size, MAX_PARTS);
    if |out| > MAX_PARTS { return Refused(TooManyParts); }
    return Planned(out);
  }

  /** `plan_segments`: cut a file into messages; an empty file is one empty message. */
  function SegmentPlan(total: nat, segmentSize: nat): seq<Piece>
    requires segmentSize > 0
  {
    if total == 0 then [Piece(0, 0)] else Cut(total, segmentSize, 0)
  }

  method PlanSegments(total: int, segmentSize: int) returns (r: Plan)
    ensures total < 0 ==> r == Refused(NegativeSize)
    ensures total >= 0 && segmentSize <= 0 ==> r == Refused(BadPartSize)
    ensures total >= 0 && segmentSize > 0 ==>
      r == Planned(SegmentPlan(total, segmentSize)) && Tiles(r.pieces, total) && r.pieces != []
  {
    if total < 0 { return Refused(NegativeSize); }
    if segmentSize <= 0 { return Refused(BadPartSize); }
    if total == 0 { return Planned([Piece(0, 0)]); }
    var out: seq<Piece> := [];
    var offset := 0;
    while offset < total
      invariant 0 <= offset <= total
      invariant Tiles(out, offset)
      invariant forall i | 0 <= i < |out| :: 0 < out[i].size <= segmentSize
      invariant forall i | 0 <= i < |out| :: out[i].size < segmentSize ==> i == |out| - 1 && offset == total
    {
      var size := Min(segmentSize, total - offset);
      out := out + [Piece(offset, size)];
      offset := offset + size;
    }
    CutTiles(total, segmentSize);
    EvenTilingUnique(out, Cut(total, segmentSize, 0), segmentSize, total);
    return Planned(out);
  }

  datatype Protocol = Small | Album | Big | Split

  datatype Decision = Decision(name: Protocol, segments: seq<Piece>, forceBig: bool)

  /** `decide_protocol`: the wire protocol and the message segments of a file. */
  function DecideProtocol(size: int, albumEligible: bool): Option<Decision> {
    if size < 0 then None
    else if albumEligible && size <= SMALL_FILE_MAX then Some(Decision(Album, [Piece(0, size)], false))
    else if size <= SMALL_FILE_MAX then Some(Decision(Small, [Piece(0, size)], false))
    else
      var segments := Cut(size, MESSAGE_MAX, 0);
      Some(Decision(if |segments| == 1 then Big else Split, segments, true))
  }

  function PartUnit(d: Decision): nat { if d.forceBig then BIG_PART_SIZE else SMALL_PART_SIZE }

  /** The uploader's protocol decision and the stager's segment plan cut every
      file the same way, and every segment fits the thousand-part plan of the
      protocol that sends it, unless the file is empty. */
  lemma PlansAgree(size: int, albumEligible: bool)
    ensures DecideProtocol(size, albumEligible).None? <==> size < 0
    ensures size >= 0 ==>
      var d := DecideProtocol(size, albumEligible).value;
      && d.segments == SegmentPlan(size, MESSAGE_MAX)
      && Tiles(d.segments, size) && d.segments != []
      && (d.name.Split? <==> |d.segments| > 1) && (|d.segments| > 1 <==> size > MESSAGE_MAX)
      && (forall i | 0 <= i < |d.segments| ::
            0 < d.segments[i].size <= MAX_PARTS * PartUnit(d) <==> size > 0)
  {
    if size > 0 {
      var d := DecideProtocol(size, albumEligible).value;
      CutTiles(size, MESSAGE_MAX);
      assert Tiles(d.segments, size) && Even(d.segments, MESSAGE_MAX);
      EvenTilingUnique(d.segments, Cut(size, MESSAGE_MAX, 0), MESSAGE_MAX, size);
      CountFor(d.segments, MESSAGE_MAX, size, 1);
      forall i | 0 <= i < |d.segments| ensures d.segments[i].size <= size { OffsetsGrow(d.segments, size, i); }
    }
  }
}
