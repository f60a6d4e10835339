/** A whole, lawful deflate member on which the forward reader fails: its inflater has taken the
    last byte while a match is still being copied out. */
module PendingMatch {
  import opened Foundations
  import opened Bytes
  import opened VirtualFile
  import opened ZipMembers
  import opened Inflating
  import opened MemberReader

  // ------------------------------------------------------------ one fixed-code block

  /** What the block is made of: the literal byte zero, a match of length 258 at distance 1, and
      the end of the block. */
  datatype Symbol = Zero | Repeat | EndOfBlock

  /** Their fixed Huffman codes (sections 3.2.5 and 3.2.6 of RFC 1951), first bit first: literal 0
      is the eight bits of 48, length 258 is code 285 without extra bits and distance 1 is the
      five-bit code 0, the end of the block is seven zeros. */
  function Code(symbol: Symbol): seq<bool> {
    match symbol
    case Zero => [false, false, true, true, false, false, false, false]
    case Repeat => [true, true, false, false, false, true, false, true] + [false, false, false, false, false]
    case EndOfBlock => [false, false, false, false, false, false, false]
  }

  /** The last block, with fixed codes: the bits 1 and 01, low bit first, then the symbols. */
  function Codes(symbols: seq<Symbol>): seq<bool> {
    if symbols == [] then [true, true, false]
    else Codes(symbols[..|symbols| - 1]) + Code(symbols[|symbols| - 1])
  }

  /** What the symbols stand for: a match at distance 1 repeats the last byte. */
  function Unfolded(symbols: seq<Symbol>): seq<Byte> {
    if symbols == [] then []
    else
      var out := Unfolded(symbols[..|symbols| - 1]);
      match symbols[|symbols| - 1]
      case Zero => out + [0]
      case Repeat => out + seq(258, _ => if out == [] then 0 else out[|out| - 1])
      case EndOfBlock => out
  }

  function BitAt(bits: seq<bool>, i: nat): nat { if i < |bits| && bits[i] then 1 else 0 }

  /** Bits fill each byte from its lowest bit up (section 3.1.1 of RFC 1951). */
  function Packed(bits: seq<bool>): (bytes: seq<Byte>)
    ensures |bytes| == (|bits| + 7) / 8
  {
    seq((|bits| + 7) / 8, k requires 0 <= k =>
      BitAt(bits, 8 * k) + 2 * BitAt(bits, 8 * k + 1) + 4 * BitAt(bits, 8 * k + 2) + 8 * BitAt(bits, 8 * k + 3)
        + 16 * BitAt(bits, 8 * k + 4) + 32 * BitAt(bits, 8 * k + 5) + 64 * BitAt(bits, 8 * k + 6)
        + 128 * BitAt(bits, 8 * k + 7))
  }

  // ------------------------------------------------------------ decoding symbol by symbol

  /** The symbols whose codes lie within the first `bits` bits. */
  function Within(symbols: seq<Symbol>, bits: nat): seq<Symbol> {
    if symbols == [] || |Codes(symbols)| <= bits then symbols else Within(symbols[..|symbols| - 1], bits)
  }

  /** How many bytes of input the first `n` bytes of output take. */
  function BytesFor(symbols: seq<Symbol>, n: nat): nat {
    if symbols == [] || |Unfolded(symbols[..|symbols| - 1])| < n then (|Codes(symbols)| + 7) / 8
    else BytesFor(symbols[..|symbols| - 1], n)
  }

  /** An inflater that takes a byte only when the symbol it is at needs it, and stops in the middle
      of a match when its output is full. Without room left it has taken the bytes of what it
      gave; with room left it has taken everything. */
  function DecoderTurn(symbols: seq<Symbol>, consumed: nat, produced: nat, given: nat, limit: nat): (nat, nat) {
    var ready := |Unfolded(Within(symbols, 8 * (consumed + given)))|;
    var made := Min(limit, Max(0, ready - produced));
    (if made < limit then given else Min(given, Max(0, BytesFor(symbols, produced + made) - consumed)), made)
  }

  function Encoded(symbols: seq<Symbol>): Stream {
    Stream(Packed(Codes(symbols)), Unfolded(symbols),
           (consumed: nat, produced: nat, given: nat, limit: nat) =>
             DecoderTurn(symbols, consumed, produced, given, limit))
  }

  lemma {:induction false} WithinGivesLess(symbols: seq<Symbol>, bits: nat)
    ensures |Unfolded(Within(symbols, bits))| <= |Unfolded(symbols)|
    ensures |Codes(symbols)| >= 3
  {
    if symbols != [] { WithinGivesLess(symbols[..|symbols| - 1], bits); }
  }

  /** The decoder is lawful on every block. */
  lemma DecoderIsLawful(symbols: seq<Symbol>)
    ensures Inflates(Encoded(symbols))
  {
    hide Codes, Unfolded, Within, BytesFor;
    var s := Encoded(symbols);
    WithinGivesLess(symbols, 0);
    forall consumed: nat, produced: nat, given: nat, limit: nat
      | consumed + given <= |s.bytes| && produced <= |s.plain| && given > 0 && limit > 0
      ensures var (ate, made) := s.turn(consumed, produced, given, limit);
        && ate <= given && made <= limit && produced + made <= |s.plain|
        && (made == limit || ate == given || (consumed + ate == |s.bytes| && produced + made == |s.plain|))
        && (consumed + ate == |s.bytes| ==> made == limit || produced + made == |s.plain|)
    {
      WithinGivesLess(symbols, 8 * (consumed + given));
      if consumed + given == |s.bytes| { AllWithin(symbols); }
    }
  }

  lemma AllWithin(symbols: seq<Symbol>)
    ensures Within(symbols, 8 * |Packed(Codes(symbols))|) == symbols
  {
  }

  // ------------------------------------------------------------ the member

  /** Ten literals, 254 matches, the end: 65542 zeros in 424 bytes. */
  function Plan(n: nat): (symbols: seq<Symbol>)
    ensures |symbols| == n
  {
    if n == 0 then [] else Plan(n - 1) + [if n <= 10 then Zero else if n <= 264 then Repeat else EndOfBlock]
  }

  lemma {:induction false} PlanIs(n: nat)
    requires n <= 264
    ensures |Codes(Plan(n))| == if n <= 10 then 3 + 8 * n else 83 + 13 * (n - 10)
    ensures |Unfolded(Plan(n))| == if n <= 10 then n else 10 + 258 * (n - 10)
  {
    hide Codes, Unfolded;
    if n == 0 {
      NoSymbol();
    } else {
      PlanIs(n - 1);
      var last := if n <= 10 then Zero else Repeat;
      assert Plan(n) == Plan(n - 1) + [last];
      OneMoreSymbol(Plan(n - 1), last);
    }
  }

  lemma NoSymbol()
    ensures |Codes([])| == 3 && |Unfolded([])| == 0
  {
  }

  lemma OneMoreSymbol(symbols: seq<Symbol>, next: Symbol)
    ensures |Codes(symbols + [next])|
      == |Codes(symbols)| + match next case Zero => 8 case Repeat => 13 case EndOfBlock => 7
    ensures |Unfolded(symbols + [next])|
      == |Unfolded(symbols)| + match next case Zero => 1 case Repeat => 258 case EndOfBlock => 0
  {
    assert (symbols + [next])[..|symbols|] == symbols;
  }

  lemma WholePlan()
    ensures |Codes(Plan(265))| == 3392 && |Unfolded(Plan(265))| == 65542
    ensures BytesFor(Plan(265), 65536) == 424
  {
    PlanIs(264);
    PlanIs(263);
    assert Plan(265)[..264] == Plan(264);
    assert Plan(264)[..263] == Plan(263);
  }

  lemma MemberTurn()
    ensures var s := Encoded(Plan(265));
      |s.bytes| == 424 && |s.plain| == 65542 && s.turn(0, 0, 424, 65536) == (424, 65536)
  {
    WholePlan();
    AllWithin(Plan(265));
    hide Codes, Unfolded, Within, BytesFor, Plan;
  }

  /** The first 65536 bytes come, and with them every byte of input is taken, six bytes into the
      last match. The other six are there for the asking, but the reader asks its exhausted source
      for input instead of asking the inflater for output, and fails: a whole member, a lawful
      inflater, two plain reads. */
  lemma PendingMatchIsNotFetched()
    ensures var s := Encoded(Plan(265));
      var src := FlatFile(s.bytes, |s.bytes|, 0);
      && Inflates(s) && Sound(s, Opened(src)) && Healthy(s, src, |s.plain|) && !HoldsNothingBack(s)
      && ReadStep(s, |s.plain|, Opened(src), Some(65536)).1.Inflated?
      && MemberRun(s, |s.plain|, Opened(src), [ReadOp(Some(65536)), ReadOp(None)]).1.None?
  {
    var s := Encoded(Plan(265));
    var src := FlatFile(s.bytes, |s.bytes|, 0);
    MemberTurn();
    DecoderIsLawful(Plan(265));
    hide Encoded, Plan;
    FirstRead(s, src);
    SecondRead(s, src);
    TwoReads(s, |s.plain|, Opened(src), ReadOp(Some(65536)), ReadOp(None));
  }

  lemma FirstRead(s: Stream, src: FlatFile)
    requires Inflates(s) && src == FlatFile(s.bytes, |s.bytes|, 0)
    requires |s.bytes| == 424 && |s.plain| == 65542 && s.turn(0, 0, 424, 65536) == (424, 65536)
    ensures Sound(s, Opened(src))
    ensures ReadStep(s, |s.plain|, Opened(src), Some(65536))
      == (Reader(src.(pos := 424), Inflater(424, 65536, [], false), [], 65536), Inflated(Clip(s.plain, 0, 65536)))
  {
    var r := Opened(src);
    ClipAll(s.bytes, 424);
    assert Input(r) == (src.(pos := 424), s.bytes);
    var f := Feed(s, r, 65536);
    assert Clip(s.bytes, 424, 424) == [];
    assert f == Reader(src.(pos := 424), Inflater(424, 65536, [], false), Clip(s.plain, 0, 65536), 0);
    assert Sound(s, f) && |f.buf| == 65536 by { FeedIs(s, r, 65536); }
    hide Feed, Clip, Inflates;
    assert Filled(s, f, 65536) == f;
    assert Filled(s, r, 65536) == f;
    assert f.buf[65536..] == [] && f.buf[..65536] == f.buf;
  }

  lemma SecondRead(s: Stream, src: FlatFile)
    requires Inflates(s) && src == FlatFile(s.bytes, |s.bytes|, 0) && |s.bytes| == 424 && |s.plain| == 65542
    requires Sound(s, Reader(src.(pos := 424), Inflater(424, 65536, [], false), [], 65536))
    ensures var r := Reader(src.(pos := 424), Inflater(424, 65536, [], false), [], 65536);
      ReadStep(s, |s.plain|, r, None).1.EndedEarly?
  {
  }

  lemma TwoReads(s: Stream, size: nat, r: Reader, first: Op, second: Op)
    requires Usable(s, size, r) && MemberStep(s, size, r, first).1.Some?
    requires MemberStep(s, size, MemberStep(s, size, r, first).0, second).1.None?
    ensures MemberRun(s, size, r, [first, second]).1.None?
  {
    hide Usable, MemberStep, MemberRun;
    OneRead(s, size, r, first);
    var ops := [first, second];
    assert ops[..|ops| - 1] == [first];
    FailsLast(s, size, r, [first, second]);
  }

  lemma FailsLast(s: Stream, size: nat, r: Reader, ops: seq<Op>)
    requires Usable(s, size, r) && ops != []
    requires var before := MemberRun(s, size, r, ops[..|ops| - 1]).0;
      MemberStep(s, size, before, ops[|ops| - 1]).1.None?
    ensures MemberRun(s, size, r, ops).1.None?
  {
    hide Usable, MemberStep;
  }

  lemma OneRead(s: Stream, size: nat, r: Reader, op: Op)
    requires Usable(s, size, r) && MemberStep(s, size, r, op).1.Some?
    ensures MemberRun(s, size, r, [op]) == (MemberStep(s, size, r, op).0, Some([MemberStep(s, size, r, op).1.value]))
  {
    hide Usable, MemberStep;
    var ops := [op];
    assert ops[..|ops| - 1] == [];
    var none: seq<Answer> := [];
    assert MemberRun(s, size, r, []) == (r, Some(none));
    var answer := MemberStep(s, size, r, op).1.value;
    assert none + [answer] == [answer];
  }

  /** The same from an archive: opened, read to 65536, then to the end. */
  method ReadPending(a: Archive, header: nat) returns (r: Option<seq<Answer>>)
    requires Ready(a) && HoldsMember(Whole(a), header, Encoded(Plan(265)).bytes)
    modifies a.worker
    ensures r == None
  {
    PendingMatchIsNotFetched();
    hide Ready, Whole, HoldsMember, Plan, Encoded, MemberRun, Inflates, Sound;
    r := ReadDeflated(a, header, None, Encoded(Plan(265)), [ReadOp(Some(65536)), ReadOp(None)]);
  }
}
