/** Reading a remote file as one flat array of bytes: aligned chunk requests, an
    LRU block cache, and a head already on disk. */
module VirtualFile {
  import opened Foundations
  import opened Bytes
  import opened PartTable

  const ALIGN: nat := 4096
  const REQUEST_SIZE: nat := 512 * 1024

  // -------------------------------------------------------------- a flat byte file

  datatype Whence = FromStart | FromHere | FromEnd | OtherWhence

  datatype Op = SeekOp(offset: int, whence: Whence) | ReadOp(size: Option<int>)

  datatype Answer = At(position: nat) | Data(bytes: seq<Byte>) | InvalidWhence | NegativePosition

  /** A file object over an array. `claimed` is the size it reports; the array may
      end earlier. */
  datatype FlatFile = FlatFile(bytes: seq<Byte>, claimed: nat, pos: nat)

  function SeekTarget(f: FlatFile, offset: int, whence: Whence): int {
    match whence
    case FromHere => f.pos + offset
    case FromEnd => f.claimed + offset
    case _ => offset
  }

  function Wanted(f: FlatFile, size: Option<int>): nat {
    var left := f.claimed - f.pos;
    Max(0, if size.None? || size.value < 0 then left else Min(size.value, left))
  }

  function FlatStep(f: FlatFile, op: Op): (FlatFile, Answer) {
    match op
    case SeekOp(offset, whence) =>
      var target := SeekTarget(f, offset, whence);
      if whence.OtherWhence? then (f, InvalidWhence)
      else if target < 0 then (f, NegativePosition)
      else (f.(pos := target), At(target))
    case ReadOp(size) =>
      var data := Clip(f.bytes, f.pos, f.pos + Wanted(f, size));
      (f.(pos := f.pos + |data|), Data(data))
  }

  function FlatRun(f: FlatFile, ops: seq<Op>): (FlatFile, seq<Answer>)
    decreases |ops|
  {
    if ops == [] then (f, [])
    else
      var (g, answers) := FlatRun(f, ops[..|ops| - 1]);
      var (h, answer) := FlatStep(g, ops[|ops| - 1]);
      (h, answers + [answer])
  }

  // ------------------------------------------------------------------- one document

  /** One chunk request. It is short only at the end of the document. */
  function Chunk(doc: seq<Byte>, offset: nat): seq<Byte> { Clip(doc, offset, offset + REQUEST_SIZE) }

  datatype Request = Request(client: nat, offset: nat)

  /** Aligned requests, each on the connection after the previous one's. */
  ghost predicate Spread(made: seq<Request>, connections: nat)
    requires connections > 0
  {
    && (forall k | 0 <= k < |made| :: made[k].offset % ALIGN == 0)
    && (forall k | 0 <= k < |made| - 1 :: made[k + 1].client == (made[k].client + 1) % connections)
  }

  lemma NothingMade(connections: nat)
    requires connections > 0
    ensures Spread([], connections)
  {
  }

  lemma OneMoreRequest(made: seq<Request>, connections: nat, r: Request)
    requires connections > 0 && Spread(made, connections) && r.offset % ALIGN == 0
    requires made != [] ==> r.client == (made[|made| - 1].client + 1) % connections
    ensures Spread(made + [r], connections)
  {
  }

  lemma NextStart(start: nat)
    requires start % ALIGN == 0
    ensures (start + REQUEST_SIZE) % ALIGN == 0
  {
  }

  lemma AlignedDown(offset: nat)
    ensures offset % ALIGN <= offset && (offset - offset % ALIGN) % ALIGN == 0
  {
  }

  class TelegramWorker {
    const store: Store
    const connections: nat
    var cursor: nat
    /** Every chunk request made, oldest first. */
    ghost var requests: seq<Request>

    ghost predicate Valid()
      reads this`cursor
    {
      cursor < connections
    }

    constructor (store: Store, connections: nat)
      requires connections > 0
      ensures Valid() && this.store == store && this.connections == connections
    {
      this.store, this.connections, cursor, requests := store, connections, 0, [];
    }

    method NextClient() returns (client: nat)
      requires Valid()
      modifies this`cursor
      ensures Valid() && client == cursor == (old(cursor) + 1) % connections
    {
      cursor := (cursor + 1) % connections;
      return cursor;
    }

    /** Requests of one chunk each, from `start` on, until `need` bytes are covered. */
    method FetchChunks(doc: seq<Byte>, first: nat, need: nat) returns (joined: seq<Byte>, ghost upTo: nat)
      requires Valid() && first % ALIGN == 0
      modifies this
      ensures Valid() && upTo >= first + need && joined == Clip(doc, first, upTo)
      ensures exists made :: requests == old(requests) + made && Spread(made, connections)
    {
      hide Clip, Spread;
      joined := [];
      var start := first;
      ghost var made: seq<Request> := [];
      NothingMade(connections);
      while start < first + need
        invariant Valid() && first <= start && start % ALIGN == 0
        invariant joined == Clip(doc, first, start)
        invariant requests == old(requests) + made && Spread(made, connections)
        invariant made != [] ==> made[|made| - 1].client == cursor
        decreases first + need - start
      {
        var client := NextClient();
        OneMoreRequest(made, connections, Request(client, start));
        requests, made := requests + [Request(client, start)], made + [Request(client, start)];
        NextStart(start);
        ClipJoin(doc, first, start, start + REQUEST_SIZE);
        joined := joined + Chunk(doc, start);
        start := start + REQUEST_SIZE;
      }
      upTo := start;
    }

    /** `_read`: aligned requests spread over the connections, joined and trimmed. */
    method ReadChunks(doc: seq<Byte>, offset: nat, length: nat) returns (data: seq<Byte>)
      requires Valid() && length > 0
      modifies this
      ensures Valid() && data == Clip(doc, offset, offset + length)
      ensures exists made :: requests == old(requests) + made && Spread(made, connections)
    {
      hide Clip, Spread;
      var aligned := offset - offset % ALIGN;
      AlignedDown(offset);
      var skip := offset - aligned;
      var need := skip + length;
      var joined, upTo := FetchChunks(doc, aligned, need);
      data := Clip(joined, skip, need);
      ClipClip(doc, aligned, upTo, skip, need);
    }

    /** `read` of one message's document. */
    method Read(id: Identity, offset: nat, length: int) returns (data: seq<Byte>)
      requires Valid()
      modifies this
      ensures Valid() && data == Clip(store(id), offset, offset + length)
    {
      if length <= 0 { return []; }
      data := ReadChunks(store(id), offset, length);
    }
  }

  // ------------------------------------------------------------------ runs of blocks

  datatype Span = Span(first: int, last: int)

  function Range(first: int, last: int): seq<int>
    decreases last - first
  {
    if last < first then [] else Range(first, last - 1) + [last]
  }

  function Expand(runs: seq<Span>): seq<int> {
    if runs == [] then []
    else Expand(runs[..|runs| - 1]) + Range(runs[|runs| - 1].first, runs[|runs| - 1].last)
  }

  predicate Inside(runs: seq<Span>, i: int) { exists k :: 0 <= k < |runs| && runs[k].first <= i <= runs[k].last }

  lemma ExpandSnoc(runs: seq<Span>, r: Span)
    ensures Expand(runs + [r]) == Expand(runs) + Range(r.first, r.last)
  {
    assert (runs + [r])[..|runs|] == runs;
  }

  lemma EmptyExpand()
    ensures Expand([]) == []
  {
  }

  lemma RangeFrom(first: int)
    ensures Range(first, first) == [first]
  {
  }

  lemma RangeGrows(first: int, last: int)
    requires first <= last
    ensures Range(first, last + 1) == Range(first, last) + [last + 1]
  {
  }

  lemma {:induction false} InRange(first: int, last: int, i: int)
    ensures i in Range(first, last) <==> first <= i <= last
    decreases last - first
  {
    if first <= last { InRange(first, last - 1, i); }
  }

  lemma {:induction false} InExpand(runs: seq<Span>, i: int)
    ensures i in Expand(runs) <==> Inside(runs, i)
  {
    if runs != [] {
      var front, last := runs[..|runs| - 1], runs[|runs| - 1];
      InExpand(front, i);
      InRange(last.first, last.last, i);
      InsideSnoc(front, last, i);
      assert runs == front + [last];
      hide Range, Inside;
    }
  }

  lemma InsideSnoc(front: seq<Span>, last: Span, i: int)
    ensures Inside(front + [last], i) <==> Inside(front, i) || last.first <= i <= last.last
  {
    var runs := front + [last];
    if Inside(front, i) {
      var k :| 0 <= k < |front| && front[k].first <= i <= front[k].last;
      assert runs[k] == front[k];
    }
    assert runs[|front|] == last;
  }

  /** `_contiguous`: the maximal runs of consecutive numbers. */
  method Contiguous(indices: seq<int>) returns (runs: seq<Span>)
    ensures Expand(runs) == indices
    ensures forall k | 0 <= k < |runs| :: runs[k].first <= runs[k].last
    ensures forall k | 0 < k < |runs| :: runs[k].first != runs[k - 1].last + 1
  {
    hide Expand, Range;
    runs := [];
    EmptyExpand();
    if indices == [] { return; }
    var start, prev := indices[0], indices[0];
    RangeFrom(start);
    for i := 1 to |indices|
      invariant Expand(runs) + Range(start, prev) == indices[..i] && start <= prev
      invariant forall k | 0 <= k < |runs| :: runs[k].first <= runs[k].last
      invariant forall k | 0 < k < |runs| :: runs[k].first != runs[k - 1].last + 1
      invariant runs != [] ==> start != runs[|runs| - 1].last + 1
    {
      assert indices[..i + 1] == indices[..i] + [indices[i]];
      if indices[i] == prev + 1 {
        RangeGrows(start, prev);
        assert Expand(runs) + (Range(start, prev) + [prev + 1]) == Expand(runs) + Range(start, prev) + [prev + 1];
        prev := indices[i];
      } else {
        ExpandSnoc(runs, Span(start, prev));
        runs := runs + [Span(start, prev)];
        start, prev := indices[i], indices[i];
        RangeFrom(start);
      }
    }
    ExpandSnoc(runs, Span(start, prev));
    runs := runs + [Span(start, prev)];
    assert indices[..|indices|] == indices;
  }

  // --------------------------------------------------------------------- the cache

  function Block(flat: seq<Byte>, blockSize: nat, index: nat): seq<Byte> {
    Clip(flat, index * blockSize, (index + 1) * blockSize)
  }

  /** What a batch of blocks holds: the whole of each block, and no empty ones. */
  ghost predicate Holds(found: map<int, seq<Byte>>, flat: seq<Byte>, blockSize: nat) {
    forall i | i in found :: i >= 0 && found[i] == Block(flat, blockSize, i) && found[i] != []
  }

  ghost predicate Distinct(s: seq<int>) { forall i, j | 0 <= i < j < |s| :: s[i] != s[j] }

  function Without(recency: seq<int>, index: int): seq<int> {
    if recency == [] then []
    else
      var last := recency[|recency| - 1];
      Without(recency[..|recency| - 1], index) + if last == index then [] else [last]
  }

  lemma {:induction false} WithoutIs(recency: seq<int>, index: int)
    ensures forall x :: x in Without(recency, index) <==> x in recency && x != index
    ensures Distinct(recency) ==> Distinct(Without(recency, index))
  {
    if recency != [] {
      var front, last := recency[..|recency| - 1], recency[|recency| - 1];
      WithoutIs(front, index);
      assert recency == front + [last];
      var w := Without(front, index);
      if Distinct(recency) {
        assert last !in front by {
          forall i | 0 <= i < |front| ensures front[i] != last { assert recency[i] != recency[|front|]; }
        }
        forall i | 0 <= i < |w| ensures w[i] != last {
          var x := w[i];
          assert x in w;
        }
      }
    }
  }

  /** `move_to_end`: the key becomes the newest of the order. */
  function Touch(recency: seq<int>, index: int): seq<int> { Without(recency, index) + [index] }

  /** The order after a batch is cached: its blocks become the newest. */
  function TouchAll(recency: seq<int>, found: map<int, seq<Byte>>, first: int, last: int): seq<int>
    decreases last - first
  {
    if last < first then recency
    else
      var before := TouchAll(recency, found, first, last - 1);
      if last in found then Touch(before, last) else before
  }

  lemma TouchIs(recency: seq<int>, index: int)
    requires Distinct(recency)
    ensures Distinct(Touch(recency, index))
    ensures forall x :: x in Touch(recency, index) <==> x in recency || x == index
  {
    WithoutIs(recency, index);
    var w := Without(recency, index);
    forall i | 0 <= i < |w| ensures w[i] != index { assert w[i] in w; }
  }

  /** The cache dictionary with its order of use: same keys, no key twice. */
  ghost predicate Cache(blocks: map<int, seq<Byte>>, recency: seq<int>, flat: seq<Byte>, blockSize: nat) {
    Holds(blocks, flat, blockSize) && Distinct(recency) && forall i :: i in blocks <==> i in recency
  }

  lemma InBlock(pos: nat, blockSize: nat)
    requires blockSize > 0
    ensures pos / blockSize * blockSize <= pos < (pos / blockSize + 1) * blockSize
  {
  }

  lemma BlockOrder(i: nat, j: nat, blockSize: nat)
    requires i < j
    ensures (i + 1) * blockSize <= j * blockSize && i * blockSize + blockSize == (i + 1) * blockSize
  {
    assert j * blockSize == (i + 1) * blockSize + (j - i - 1) * blockSize;
  }

  /** Reading inside one block is reading the file. */
  lemma BlockSlice(flat: seq<Byte>, blockSize: nat, index: nat, lo: nat, hi: int)
    requires index * blockSize <= lo && hi <= (index + 1) * blockSize
    ensures Clip(Block(flat, blockSize, index), lo - index * blockSize, hi - index * blockSize) == Clip(flat, lo, hi)
  {
    ClipClip(flat, index * blockSize, (index + 1) * blockSize, lo - index * blockSize, hi - index * blockSize);
  }

  lemma BlockSize(flat: seq<Byte>, blockSize: nat, index: nat)
    ensures |Block(flat, blockSize, index)| ==
      Max(0, Min((index + 1) * blockSize, |flat|) - Min(index * blockSize, |flat|))
    ensures blockSize > 0 ==> (Block(flat, blockSize, index) == [] <==> index * blockSize >= |flat|)
  {
    assert (index + 1) * blockSize == index * blockSize + blockSize;
  }

  /** Exactly the blocks from `first` to `last` that have any bytes. */
  ghost predicate Batch(found: map<int, seq<Byte>>, flat: seq<Byte>, blockSize: nat, first: nat, last: int) {
    && Holds(found, flat, blockSize)
    && forall i :: i in found <==> first <= i <= last && i * blockSize < |flat|
  }

  /** The last `n` of the order. */
  function Newest(recency: seq<int>, n: nat): seq<int> {
    if |recency| <= n then recency else recency[|recency| - n..]
  }

  lemma NewestSnoc(s: seq<int>, last: int, d: nat)
    requires d > 0
    ensures Newest(s + [last], d) == Newest(s, d - 1) + [last]
  {
  }

  lemma NewestGrows(s: seq<int>, x: int, d: nat, last: int)
    requires x in Newest(s, d)
    ensures x in Newest(s + [last], d + 1)
  {
    NewestSnoc(s, last, d + 1);
  }

  lemma NewestNothing(s: seq<int>)
    ensures Newest(s, 0) == []
  {
  }

  /** Whatever survives among the newest `d` keys survives the removal of another. */
  lemma {:induction false} NewestWithout(s: seq<int>, index: int, x: int, d: nat)
    requires x in Newest(s, d) && x != index
    ensures x in Newest(Without(s, index), d)
  {
    if s == [] || d == 0 {
      NewestNothing(s);
    } else {
      hide Newest;
      var front, last := s[..|s| - 1], s[|s| - 1];
      var w := Without(front, index);
      assert s == front + [last];
      NewestSnoc(front, last, d);
      if last == index {
        assert Without(s, index) == w;
        NewestWithout(front, index, x, d - 1);
        NewestWider(w, x, d - 1, d);
      } else {
        assert Without(s, index) == w + [last];
        if x in Newest(front, d - 1) {
          NewestWithout(front, index, x, d - 1);
          NewestGrows(w, x, d - 1, last);
        } else {
          NewestLast(w, last, d);
        }
      }
    }
  }

  lemma NewestWider(s: seq<int>, x: int, d: nat, e: nat)
    requires x in Newest(s, d) && d <= e
    ensures x in Newest(s, e)
  {
    var k :| 0 <= k < |Newest(s, d)| && Newest(s, d)[k] == x;
    assert Newest(s, e)[|Newest(s, e)| - |Newest(s, d)| + k] == x;
  }

  lemma NewestLast(s: seq<int>, last: int, d: nat)
    requires d > 0
    ensures last in Newest(s + [last], d)
  {
    var r := Newest(s + [last], d);
    assert r[|r| - 1] == last;
  }

  /** Eviction spares the newest: a batch no wider than the cache stays cached whole. */
  lemma {:induction false} BatchStays(recency: seq<int>, found: map<int, seq<Byte>>, first: int, last: int, i: int,
        cap: nat)
    requires first <= i <= last && i in found && last - i < cap
    ensures i in Newest(TouchAll(recency, found, first, last), cap)
    decreases last - first
  {
    var before := TouchAll(recency, found, first, last - 1);
    if i == last {
      NewestLast(Without(before, last), last, cap);
    } else {
      BatchStays(recency, found, first, last - 1, i, cap - 1);
      if last in found {
        NewestWithout(before, last, i, cap - 1);
        NewestGrows(Without(before, last), i, cap - 1, last);
      } else {
        NewestWider(before, i, cap - 1, cap);
      }
    }
  }

  lemma Multiply(i: nat, j: nat, n: nat)
    requires i <= j
    ensures i * n <= j * n
  {
    assert j * n == i * n + (j - i) * n;
  }

  lemma OneMoreBlock(found: map<int, seq<Byte>>, flat: seq<Byte>, blockSize: nat, index: nat)
    requires blockSize > 0 && Holds(found, flat, blockSize) && index * blockSize < |flat|
    ensures Holds(found[index := Block(flat, blockSize, index)], flat, blockSize)
  {
    BlockSize(flat, blockSize, index);
  }

  lemma NothingTouched(recency: seq<int>, found: map<int, seq<Byte>>, first: int)
    ensures forall last | last < first :: TouchAll(recency, found, first, last) == recency
  {
  }

  lemma TouchedOne(recency: seq<int>, found: map<int, seq<Byte>>, first: int, index: int)
    requires first <= index
    ensures TouchAll(recency, found, first, index) ==
      if index in found then Touch(TouchAll(recency, found, first, index - 1), index)
      else TouchAll(recency, found, first, index - 1)
  {
  }

  lemma CacheOne(blocks: map<int, seq<Byte>>, recency: seq<int>, flat: seq<Byte>, blockSize: nat,
                 found: map<int, seq<Byte>>, index: int)
    requires Cache(blocks, recency, flat, blockSize) && Holds(found, flat, blockSize) && index in found
    ensures Cache(blocks[index := found[index]], Touch(recency, index), flat, blockSize)
  {
    TouchIs(recency, index);
  }

  lemma EvictOne(blocks: map<int, seq<Byte>>, recency: seq<int>, flat: seq<Byte>, blockSize: nat)
    requires Cache(blocks, recency, flat, blockSize) && recency != []
    ensures Cache(blocks - {recency[0]}, recency[1..], flat, blockSize)
  {
    forall i ensures i in recency[1..] <==> i in recency && i != recency[0] {
      if i in recency && i != recency[0] {
        var k :| 0 <= k < |recency| && recency[k] == i;
        assert recency[1..][k - 1] == i;
      }
    }
  }

  lemma InsideNext(runs: seq<Span>, k: nat, i: int)
    requires k < |runs|
    ensures Inside(runs[..k + 1], i) <==> Inside(runs[..k], i) || runs[k].first <= i <= runs[k].last
  {
    if Inside(runs[..k], i) {
      var j :| 0 <= j < k && runs[..k][j].first <= i <= runs[..k][j].last;
      assert runs[..k + 1][j] == runs[j];
    }
    assert runs[..k + 1][k] == runs[k];
    if Inside(runs[..k + 1], i) {
      var j :| 0 <= j < k + 1 && runs[..k + 1][j].first <= i <= runs[..k + 1][j].last;
      if j < k { assert runs[..k][j] == runs[j]; }
    }
  }

  lemma RunsAre(runs: seq<Span>, missing: seq<int>, first: int, last: int, cached: map<int, seq<Byte>>)
    requires Expand(runs) == missing
    requires forall k | 0 <= k < |runs| :: runs[k].first <= runs[k].last
    requires forall i :: i in missing <==> first <= i <= last && i !in cached
    ensures forall i: int :: Inside(runs, i) <==> first <= i <= last && i !in cached
    ensures forall k | 0 <= k < |runs| :: first <= runs[k].first && runs[k].last <= last
  {
    forall i: int ensures Inside(runs, i) <==> i in missing { InExpand(runs, i); }
    forall k | 0 <= k < |runs| ensures first <= runs[k].first && runs[k].last <= last {
      assert Inside(runs, runs[k].first) && Inside(runs, runs[k].last);
    }
  }

  /** `pos` lies in block `index`. */
  predicate In(index: nat, pos: nat, blockSize: nat) {
    index * blockSize <= pos < index * blockSize + blockSize
  }

  lemma DivIn(pos: nat, blockSize: nat)
    requires blockSize > 0
    ensures In(pos / blockSize, pos, blockSize)
  {
    InBlock(pos, blockSize);
    assert (pos / blockSize + 1) * blockSize == pos / blockSize * blockSize + blockSize;
  }

  /** The number of the block that holds a position. */
  function BlockOf(pos: nat, blockSize: nat): (index: nat)
    requires blockSize > 0
    ensures In(index, pos, blockSize)
  {
    DivIn(pos, blockSize);
    pos / blockSize
  }

  lemma InOrder(i: nat, a: nat, j: nat, b: nat, blockSize: nat)
    requires In(i, a, blockSize) && In(j, b, blockSize) && a <= b
    ensures i <= j
  {
    if j < i { BlockOrder(j, i, blockSize); }
  }

  /** What one turn of the copying loop copies; nothing means it stops. */
  function NextBytes(batch: map<int, seq<Byte>>, blockSize: nat, at: nat, end: nat): seq<Byte>
    requires blockSize > 0
  {
    var index := BlockOf(at, blockSize);
    if index !in batch then []
    else
      var inner := at - index * blockSize;
      Clip(batch[index], inner, inner + Min(end - at, |batch[index]| - inner))
  }

  lemma StartsWithin(index: nat, pos: nat, blockSize: nat, total: nat)
    requires In(index, pos, blockSize) && pos < total
    ensures index * blockSize < total
  {
  }

  /** One turn copies the file's next bytes, and stops only where the file ends. */
  lemma NextPiece(flat: seq<Byte>, blockSize: nat, batch: map<int, seq<Byte>>, first: nat, last: nat,
                  offset: nat, at: nat, end: nat)
    requires blockSize > 0 && offset <= at < end && Batch(batch, flat, blockSize, first, last)
    requires In(first, offset, blockSize) && In(last, end - 1, blockSize)
    ensures var more := NextBytes(batch, blockSize, at, end);
      && (more == [] ==> Clip(flat, offset, at) == Clip(flat, offset, end))
      && at + |more| <= end && more == Clip(flat, at, at + |more|)
  {
    hide BlockOf;
    var index := BlockOf(at, blockSize);
    PieceAt(flat, blockSize, batch, first, last, index, offset, at, end);
  }

  lemma PieceAt(flat: seq<Byte>, blockSize: nat, batch: map<int, seq<Byte>>, first: nat, last: nat,
                index: nat, offset: nat, at: nat, end: nat)
    requires blockSize > 0 && offset <= at < end && Batch(batch, flat, blockSize, first, last)
    requires In(first, offset, blockSize) && In(index, at, blockSize) && In(last, end - 1, blockSize)
    ensures var inner := at - index * blockSize;
      && (index !in batch ==> Clip(flat, offset, at) == Clip(flat, offset, end))
      && (index in batch ==>
            var take := Min(end - at, |batch[index]| - inner);
            if take <= 0 then Clip(flat, offset, at) == Clip(flat, offset, end)
            else (|Clip(batch[index], inner, inner + take)| == take
                  && Clip(batch[index], inner, inner + take) == Clip(flat, at, at + take)))
  {
    hide Clip, Block;
    InOrder(first, offset, index, at, blockSize);
    InOrder(index, at, last, end - 1, blockSize);
    BlockSize(flat, blockSize, index);
    assert (index + 1) * blockSize == index * blockSize + blockSize;
    if index !in batch {
      ClipPast(flat, offset, at, end);
    } else {
      var inner := at - index * blockSize;
      var take := Min(end - at, |batch[index]| - inner);
      if take <= 0 { ClipPast(flat, offset, at, end); } else { BlockSlice(flat, blockSize, index, at, at + take); }
    }
  }

  class SeekableRemoteFile {
    const worker: TelegramWorker
    const table: seq<Part>
    const total: nat
    /** Bytes from the start of the file that are already on disk. */
    const head: seq<Byte>
    const blockSize: nat
    const blocksCached: nat
    /** The cache, and its keys from the least to the most recently used. */
    var blocks: map<int, seq<Byte>>
    var recency: seq<int>
    var pos: nat
    /** The file the parts add up to. */
    ghost const flat: seq<Byte>

    ghost predicate Opened() {
      && Laid(table, total) && Full(Remotes(table), worker.store) && flat == Flat(Remotes(table), worker.store)
      && |flat| <= total && blockSize > 0
      && |head| <= |flat| && head == flat[..|head|]
    }

    ghost predicate Valid()
      reads this, worker
    {
      Opened() && worker.Valid() && Cache(blocks, recency, flat, blockSize) && |recency| <= blocksCached
    }

    ghost function View(): FlatFile
      reads this
    {
      FlatFile(flat, total, pos)
    }

    constructor (worker: TelegramWorker, table: seq<Part>, total: nat, head: seq<Byte>, blockSize: nat,
          blocksCached: nat)
      requires worker.Valid() && blockSize > 0
      requires Laid(table, total) && Full(Remotes(table), worker.store)
      requires Clip(head, 0, total) <= Flat(Remotes(table), worker.store)
      ensures Valid() && this.worker == worker && View() == FlatFile(Flat(Remotes(table), worker.store), total, 0)
    {
      FlatLength(table, total, worker.store);
      this.worker, this.table, this.total := worker, table, total;
      this.head := Clip(head, 0, total);
      this.blockSize, this.blocksCached := blockSize, blocksCached;
      blocks, recency, pos := map[], [], 0;
      flat := Flat(Remotes(table), worker.store);
    }

    /** `_fetch`: the parts a range touches, one document read each. */
    method Fetch(offset: nat, length: int) returns (data: seq<Byte>)
      requires Opened() && worker.Valid()
      modifies worker
      ensures worker.Valid() && data == Clip(flat, offset, offset + length)
    {
      hide Clip, Flat, Full, Laid, Remotes;
      var takes := MapRange(table, total, offset, length);
      data := [];
      if length > 0 && offset < total {
        GatherIsTheRange(table, total, worker.store, takes, offset, Min(offset + length, total));
        if offset + length > total { ClipPast(flat, offset, offset + length, total); }
      }
      for i := 0 to |takes|
        invariant worker.Valid() && data == Gather(table, takes[..i], worker.store)
      {
        var t := takes[i];
        var bytes := worker.Read(IdentityOf(table[t.index].remote), t.inner, t.bytes);
        assert takes[..i + 1][..i] == takes[..i];
        data := data + bytes;
      }
      assert takes[..|takes|] == takes;
    }

    /** The first half of `_blocks_for`: what the cache already has. */
    method Lookup(first: nat, last: int) returns (found: map<int, seq<Byte>>, missing: seq<int>)
      requires Valid()
      ensures Holds(found, flat, blockSize)
      ensures forall i :: i in found <==> first <= i <= last && i in blocks
      ensures forall i :: i in missing <==> first <= i <= last && i !in blocks
    {
      hide Distinct, Opened, Block;
      found, missing := map[], [];
      var index: int := first;
      while index <= last
        invariant index >= first && (index <= last + 1 || index == first)
        invariant Holds(found, flat, blockSize)
        invariant forall i :: i in found <==> first <= i < index && i in blocks
        invariant forall i :: i in missing <==> first <= i < index && i !in blocks
        decreases last - index
      {
        if index in blocks { found := found[index := blocks[index]]; }
        else { missing := missing + [index]; }
        index := index + 1;
      }
    }

    /** Fetch one run of missing blocks at once and cut it up. */
    method FetchRun(run: Span, found: map<int, seq<Byte>>) returns (more: map<int, seq<Byte>>)
      requires Opened() && worker.Valid() && Holds(found, flat, blockSize)
      requires 0 <= run.first <= run.last && run.last * blockSize < total
      modifies worker
      ensures worker.Valid() && Holds(more, flat, blockSize)
      ensures forall i: int :: i in more <==> i in found || (run.first <= i <= run.last && i * blockSize < |flat|)
    {
      hide Clip, Flat, Full, Laid, Remotes, Block, Holds;
      var start := run.first * blockSize;
      var stop := Min((run.last + 1) * blockSize, total);
      var data := Fetch(start, stop - start);
      more := found;
      var index := run.first;
      while index <= run.last
        invariant run.first <= index <= run.last + 1
        invariant worker.Valid() && Holds(more, flat, blockSize)
        invariant forall i: int :: i in more <==> i in found || (run.first <= i < index && i * blockSize < |flat|)
      {
        var lo := index * blockSize - start;
        RunBlock(run, index);
        if lo >= |data| { break; }
        OneMoreBlock(more, flat, blockSize, index);
        more := more[index := Clip(data, lo, lo + blockSize)];
        index := index + 1;
      }
    }

    /** The block at `index` of a fetched run is where the run's bytes say. */
    lemma RunBlock(run: Span, index: int)
      requires Opened() && 0 <= run.first <= index <= run.last && run.last * blockSize < total
      ensures var start := run.first * blockSize;
        var data := Clip(flat, start, Min((run.last + 1) * blockSize, total));
        var lo := index * blockSize - start;
        && lo >= 0
        && (lo >= |data| <==> index * blockSize >= |flat|)
        && (forall i | index <= i <= run.last && index * blockSize >= |flat| :: i * blockSize >= |flat|)
        && Clip(data, lo, lo + blockSize) == Block(flat, blockSize, index)
    {
      hide Clip, Flat, Full, Laid, Remotes;
      var start := run.first * blockSize;
      Multiply(run.first, index, blockSize);
      Multiply(index, run.last, blockSize);
      Multiply(index + 1, run.last + 1, blockSize);
      assert (index + 1) * blockSize == index * blockSize + blockSize;
      ClipClip(flat, start, Min((run.last + 1) * blockSize, total), index * blockSize - start,
        (index + 1) * blockSize - start);
      if (index + 1) * blockSize > total { ClipPast(flat, index * blockSize, total, (index + 1) * blockSize); }
      forall i | index <= i <= run.last && index * blockSize >= |flat| ensures i * blockSize >= |flat| {
        Multiply(index, i, blockSize);
      }
    }

    /** The second half of `_blocks_for`: keep the batch, newest last, then evict. */
    method Keep(found: map<int, seq<Byte>>, first: int, last: int)
      requires Valid() && Holds(found, flat, blockSize)
      modifies this`blocks, this`recency
      ensures Valid()
      ensures recency == Newest(TouchAll(old(recency), found, first, last), blocksCached)
    {
      hide Holds, Distinct, Opened, TouchAll, Touch;
      ghost var before := recency;
      var index := first;
      NothingTouched(before, found, first);
      while index <= last
        invariant Opened() && worker.Valid() && index >= first && (index <= last + 1 || index == first)
        invariant Cache(blocks, recency, flat, blockSize) && recency == TouchAll(before, found, first, index - 1)
        decreases last - index
      {
        TouchedOne(before, found, first, index);
        if index in found {
          CacheOne(blocks, recency, flat, blockSize, found, index);
          blocks := blocks[index := found[index]];
          recency := Touch(recency, index);
        }
        index := index + 1;
      }
      if last < first { NothingTouched(before, found, last); }
      ghost var touched := recency;
      while |recency| > blocksCached
        invariant Opened() && worker.Valid() && Cache(blocks, recency, flat, blockSize)
        invariant |recency| <= |touched| && recency == touched[|touched| - |recency|..]
        invariant |recency| >= blocksCached || recency == touched
        decreases |recency|
      {
        EvictOne(blocks, recency, flat, blockSize);
        blocks := blocks - {recency[0]};
        recency := recency[1..];
      }
    }

    /** `_blocks_for`: every block from `first` to `last` that has bytes. */
    method BlocksFor(first: nat, last: nat) returns (found: map<int, seq<Byte>>)
      requires Valid() && first <= last && last * blockSize < total
      modifies worker, this`blocks, this`recency
      ensures Valid() && Batch(found, flat, blockSize, first, last)
      ensures recency == Newest(TouchAll(old(recency), found, first, last), blocksCached)
    {
      var missing;
      found, missing := Lookup(first, last);
      found := FetchMissing(first, last, found, missing);
      Keep(found, first, last);
    }

    method FetchMissing(first: nat, last: nat, cached: map<int, seq<Byte>>, missing: seq<int>)
      returns (found: map<int, seq<Byte>>)
      requires Opened() && worker.Valid() && Holds(cached, flat, blockSize)
      requires first <= last && last * blockSize < total
      requires forall i | i in cached :: first <= i <= last
      requires forall i :: i in missing <==> first <= i <= last && i !in cached
      modifies worker
      ensures worker.Valid() && Batch(found, flat, blockSize, first, last)
    {
      hide Opened, Expand, Range, Block;
      var runs := Contiguous(missing);
      RunsAre(runs, missing, first, last, cached);
      found := cached;
      for k := 0 to |runs|
        invariant worker.Valid() && Holds(found, flat, blockSize)
        invariant forall i: int :: i in found <==> i in cached || (Inside(runs[..k], i) && i * blockSize < |flat|)
      {
        Multiply(runs[k].last, last, blockSize);
        found := FetchRun(runs[k], found);
        forall i: int ensures Inside(runs[..k + 1], i) <==> Inside(runs[..k], i) || runs[k].first <= i <= runs[k].last {
          InsideNext(runs, k, i);
        }
      }
      assert runs[..|runs|] == runs;
      forall i: int | i in cached ensures i * blockSize < |flat| { BlockSize(flat, blockSize, i); }
    }

    /** The copying loop of `_read_at`. It stops early only where the file ends. */
    method Assemble(offset: nat, end: nat, first: nat, last: nat, batch: map<int, seq<Byte>>) returns (out: seq<Byte>)
      requires Opened() && offset < end <= total && Batch(batch, flat, blockSize, first, last)
      requires In(first, offset, blockSize) && In(last, end - 1, blockSize)
      ensures out == Clip(flat, offset, end)
    {
      hide Clip, Flat, Full, Laid, Remotes, Block, Batch, NextBytes;
      out := [];
      var at := offset;
      while at < end
        invariant offset <= at <= end && out == Clip(flat, offset, at)
        decreases end - at
      {
        var more := NextBytes(batch, blockSize, at, end);
        NextPiece(flat, blockSize, batch, first, last, offset, at, end);
        if more == [] { return; }
        ClipJoin(flat, offset, at, at + |more|);
        out := out + more;
        at := at + |more|;
      }
    }

    method ReadBlocks(offset: nat, end: nat) returns (data: seq<Byte>)
      requires Valid() && offset < end <= total
      modifies worker, this`blocks, this`recency
      ensures Valid() && data == Clip(flat, offset, end)
    {
      hide Clip, Flat, Full, Laid, Remotes, Batch, Cache, In, BlockOf;
      var first, last := BlockOf(offset, blockSize), BlockOf(end - 1, blockSize);
      InOrder(first, offset, last, end - 1, blockSize);
      StartsWithin(last, end - 1, blockSize, total);
      var batch := BlocksFor(first, last);
      data := Assemble(offset, end, first, last, batch);
    }

    /** `_read_at`: the head first, then blocks. */
    method ReadAt(offset: nat, length: nat) returns (data: seq<Byte>)
      requires Valid()
      modifies worker, this`blocks, this`recency
      ensures Valid() && data == Clip(flat, offset, offset + length)
      decreases if offset < |head| then 1 else 0
    {
      hide Clip, Flat, Full, Laid, Remotes, Cache;
      var end := Min(offset + length, total);
      if offset + length > total { ClipPast(flat, offset, offset + length, total); }
      if length == 0 || offset >= end { return []; }
      if offset < |head| {
        var take := Min(end, |head|) - offset;
        data := head[offset..offset + take];
        HeadSlice(offset, take);
        if offset + take >= end { return; }
        var rest := ReadAt(offset + take, end - offset - take);
        ClipJoin(flat, offset, offset + take, end);
        return data + rest;
      }
      data := ReadBlocks(offset, end);
    }

    lemma HeadSlice(offset: nat, take: nat)
      requires Opened() && offset + take <= |head|
      ensures head[offset..offset + take] == Clip(flat, offset, offset + take)
    {
      assert head == flat[..|head|];
    }

    method Seek(offset: int, whence: Whence) returns (answer: Answer)
      requires Valid()
      modifies this`pos
      ensures Valid() && (View(), answer) == FlatStep(old(View()), SeekOp(offset, whence))
    {
      if whence.OtherWhence? { return InvalidWhence; }
      var target := match whence case FromHere => pos + offset case FromEnd => total + offset case _ => offset;
      if target < 0 { return NegativePosition; }
      pos := target;
      return At(target);
    }

    method Read(size: Option<int>) returns (data: seq<Byte>)
      requires Valid()
      modifies worker, this`blocks, this`recency, this`pos
      ensures Valid() && (View(), Data(data)) == FlatStep(old(View()), ReadOp(size))
    {
      hide Clip, Cache, Opened;
      var wanted := if size.None? || size.value < 0 then total - pos else size.value;
      wanted := Max(0, Min(wanted, total - pos));
      if wanted == 0 { return []; }
      data := ReadAt(pos, wanted);
      pos := pos + |data|;
    }

    /** `readinto`: as much as fits, the rest of the buffer untouched. */
    method ReadInto(buf: array<Byte>) returns (n: nat)
      requires Valid()
      modifies worker, this`blocks, this`recency, this`pos, buf
      ensures Valid() && n <= buf.Length
      ensures (View(), Data(buf[..n])) == FlatStep(old(View()), ReadOp(Some(buf.Length)))
      ensures buf[n..] == old(buf[n..])
    {
      hide Clip, Cache, Opened;
      if buf.Length == 0 || pos >= total { return 0; }
      var data := ReadAt(pos, Min(buf.Length, total - pos));
      forall i | 0 <= i < |data| { buf[i] := data[i]; }
      assert buf[..|data|] == data;
      pos := pos + |data|;
      n := |data|;
    }

    /** Any sequence of seeks and reads gives what the flat file gives. */
    method Replay(ops: seq<Op>) returns (answers: seq<Answer>)
      requires Valid()
      modifies worker, this`blocks, this`recency, this`pos
      ensures Valid() && (View(), answers) == FlatRun(old(View()), ops)
    {
      hide FlatStep, Cache, Opened;
      answers := [];
      ghost var start := View();
      for i := 0 to |ops|
        invariant Valid() && (View(), answers) == FlatRun(start, ops[..i])
      {
        assert ops[..i + 1][..i] == ops[..i];
        var answer;
        match ops[i] {
          case SeekOp(offset, whence) => answer := Seek(offset, whence);
          case ReadOp(size) =>
            var data := Read(size);
            answer := Data(data);
        }
        answers := answers + [answer];
      }
      assert ops[..|ops|] == ops;
    }
  }

  /** A window onto a remote file, itself a seekable file. */
  class SlicedReader {
    const base: SeekableRemoteFile
    const start: nat
    const size: nat
    var pos: nat

    ghost predicate Valid()
      reads this, base, base.worker
    {
      base.Valid()
    }

    ghost function View(): FlatFile
      reads this
    {
      FlatFile(Clip(base.flat, start, start + size), size, pos)
    }

    constructor (base: SeekableRemoteFile, start: nat, size: nat)
      requires base.Valid()
      ensures Valid() && this.base == base && this.start == start && this.size == size
      ensures View() == FlatFile(Clip(base.flat, start, start + size), size, 0)
    {
      this.base, this.start, this.size, pos := base, start, size, 0;
    }

    method Seek(offset: int, whence: Whence) returns (answer: Answer)
      requires Valid()
      modifies this`pos
      ensures Valid() && (View(), answer) == FlatStep(old(View()), SeekOp(offset, whence))
    {
      if whence.OtherWhence? { return InvalidWhence; }
      var target := match whence case FromHere => pos + offset case FromEnd => size + offset case _ => offset;
      if target < 0 { return NegativePosition; }
      pos := target;
      return At(target);
    }

    method Read(size: Option<int>) returns (data: seq<Byte>)
      requires Valid()
      modifies this`pos, base, base.worker
      ensures Valid() && (View(), Data(data)) == FlatStep(old(View()), ReadOp(size))
    {
      hide Clip, Cache, Laid, Full, Remotes, Flat;
      var wanted := if size.None? || size.value < 0 then this.size - pos else size.value;
      wanted := Max(0, Min(wanted, this.size - pos));
      if wanted == 0 { return []; }
      var _ := base.Seek(start + pos, FromStart);
      data := base.Read(Some(wanted));
      WindowRead(base.flat, base.total, start, this.size, pos, wanted);
      pos := pos + |data|;
    }

    /** Any sequence of seeks and reads gives what the flat file of the window's bytes gives. */
    method Replay(ops: seq<Op>) returns (answers: seq<Answer>)
      requires Valid()
      modifies this`pos, base, base.worker
      ensures Valid() && (View(), answers) == FlatRun(old(View()), ops)
    {
      hide FlatStep, Cache, Clip, Laid, Full, Remotes, Flat;
      answers := [];
      ghost var first := View();
      for i := 0 to |ops|
        invariant Valid() && (View(), answers) == FlatRun(first, ops[..i])
      {
        assert ops[..i + 1][..i] == ops[..i];
        var answer;
        match ops[i] {
          case SeekOp(offset, whence) => answer := Seek(offset, whence);
          case ReadOp(size) =>
            var data := Read(size);
            answer := Data(data);
        }
        answers := answers + [answer];
      }
      assert ops[..|ops|] == ops;
    }
  }

  /** Reading the base at an offset is reading the window. */
  lemma WindowRead(flat: seq<Byte>, total: nat, start: nat, size: nat, pos: nat, wanted: nat)
    requires |flat| <= total && pos + wanted <= size
    ensures Clip(flat, start + pos, start + pos + Wanted(FlatFile(flat, total, start + pos), Some(wanted)))
         == Clip(Clip(flat, start, start + size), pos, pos + wanted)
  {
    hide Clip;
    ClipClip(flat, start, start + size, pos, pos + wanted);
    var n := Wanted(FlatFile(flat, total, start + pos), Some(wanted));
    if n < wanted { ClipPast(flat, start + pos, start + pos + n, start + pos + wanted); }
  }
}
