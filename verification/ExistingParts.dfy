/** Choosing one prior upload among the rows a hash lookup returns, whatever order
    they come in and however many aliases they contain. */
module ExistingParts {
  import opened Foundations
  import opened TextOrder

  datatype Data = Data(
    messageId: int, account: int, size: int, fileId: string, accessHash: Option<string>, hasThumbnail: bool)

  /** `key` holds the texts aliases are ordered by; `data` is absent when the row
      does not describe a usable message. An absent part index is one that is no
      number. */
  datatype Row = Row(group: string, isSplit: bool, partIndex: Option<int>, key: seq<string>, data: Option<Data>)

  datatype UploadedPart = UploadedPart(index: nat, data: Data)

  // ------------------------------------------------------------------- key order

  predicate KeyLess(a: seq<string>, b: seq<string>) {
    b != [] && (a == [] || TextLess(a[0], b[0]) || (a[0] == b[0] && KeyLess(a[1..], b[1..])))
  }

  lemma {:induction false} KeyTotal(a: seq<string>, b: seq<string>)
    ensures KeyLess(a, b) || KeyLess(b, a) || a == b
  {
    if a != [] && b != [] {
      TextTotal(a[0], b[0]);
      if a[0] == b[0] {
        KeyTotal(a[1..], b[1..]);
        assert a == [a[0]] + a[1..] && b == [b[0]] + b[1..];
      }
    }
  }

  lemma {:induction false} KeyTrans(a: seq<string>, b: seq<string>, c: seq<string>)
    requires KeyLess(a, b) && KeyLess(b, c)
    ensures KeyLess(a, c)
  {
    if a != [] {
      TextTotal(a[0], b[0]);
      TextTotal(b[0], c[0]);
      if a[0] == b[0] && b[0] == c[0] { KeyTrans(a[1..], b[1..], c[1..]); }
      else if a[0] != b[0] && b[0] != c[0] { TextTrans(a[0], b[0], c[0]); }
    }
  }

  // ------------------------------------------------------------------ what is chosen

  /** `r` is one of these rows, and none of them has a smaller key. */
  ghost predicate Least(rows: set<Row>, r: Row) {
    r in rows && forall q | q in rows :: !KeyLess(q.key, r.key)
  }

  /** Rows that compare equal describe the same message. */
  ghost predicate Faithful(rows: set<Row>) {
    forall q, r | q in rows && r in rows && q.key == r.key :: q.data == r.data
  }

  lemma LeastData(rows: set<Row>, q: Row, r: Row)
    requires Faithful(rows) && Least(rows, q) && Least(rows, r)
    ensures q.data == r.data
  {
    KeyTotal(q.key, r.key);
  }

  ghost function GroupOf(rows: set<Row>, g: string): set<Row> {
    set r | r in rows && r.isSplit && g != "" && r.group == g
  }

  ghost function At(rows: set<Row>, i: nat): set<Row> { set r | r in rows && r.partIndex == Some(i) }

  function SizeOf(parts: seq<UploadedPart>): int {
    if parts == [] then 0 else SizeOf(parts[..|parts| - 1]) + parts[|parts| - 1].data.size
  }

  predicate SameMessage(a: Data, b: Data) { a.account == b.account && a.messageId == b.messageId }

  /** The parts are exactly the file: numbered from zero, each its own message,
      sizes adding up. */
  ghost predicate Covers(parts: seq<UploadedPart>, size: int) {
    && (forall i | 0 <= i < |parts| :: parts[i].index == i && parts[i].data.size >= 0)
    && (forall i, j | 0 <= i < j < |parts| :: !SameMessage(parts[i].data, parts[j].data))
    && SizeOf(parts) == size
  }

  /** Part `i` comes from the least row with that index. */
  ghost predicate Chosen(rows: set<Row>, parts: seq<UploadedPart>, i: nat)
    requires i < |parts|
  {
    exists r :: Least(At(rows, i), r) && r.data == Some(parts[i].data)
  }

  /** These parts are the split upload that the rows of one group describe. */
  ghost predicate SplitOf(rows: set<Row>, parts: seq<UploadedPart>, size: int) {
    && parts != []
    && (forall r | r in rows :: r.partIndex.Some? && 0 <= r.partIndex.value < |parts|)
    && (forall i | 0 <= i < |parts| :: Chosen(rows, parts, i))
    && Covers(parts, size)
  }

  ghost predicate Splits(rows: set<Row>, g: string, size: int) {
    exists parts :: SplitOf(GroupOf(rows, g), parts, size)
  }

  ghost function Singles(rows: set<Row>, size: int): set<Row> {
    set r | r in rows && !r.isSplit && r.data.Some? && r.data.value.size == size
  }

  /** The choice, in terms of the set of rows alone: the first group that is a whole
      upload; failing that the least single-message row of the right size. */
  ghost predicate Canonical(rows: set<Row>, size: int, parts: seq<UploadedPart>) {
    if size < 0 then parts == []
    else if exists g :: Splits(rows, g, size) then
      exists g :: SplitOf(GroupOf(rows, g), parts, size)
        && forall h | Splits(rows, h, size) :: !TextLess(h, g)
    else if Singles(rows, size) == {} then parts == []
    else exists r :: Least(Singles(rows, size), r) && parts == [UploadedPart(0, r.data.value)]
  }

  lemma FaithfulPart(rows: set<Row>, some: set<Row>)
    requires Faithful(rows) && some <= rows
    ensures Faithful(some)
  {
  }

  lemma SplitUnique(rows: set<Row>, a: seq<UploadedPart>, b: seq<UploadedPart>, size: int)
    requires Faithful(rows) && SplitOf(rows, a, size) && SplitOf(rows, b, size)
    ensures a == b
  {
    Reaches(rows, a, size);
    Reaches(rows, b, size);
    forall i | 0 <= i < |a| ensures a[i] == b[i] {
      assert Chosen(rows, a, i) && Chosen(rows, b, i);
      var q :| Least(At(rows, i), q) && q.data == Some(a[i].data);
      var r :| Least(At(rows, i), r) && r.data == Some(b[i].data);
      FaithfulPart(rows, At(rows, i));
      LeastData(At(rows, i), q, r);
    }
  }

  /** Some row has the highest index. */
  lemma Reaches(rows: set<Row>, parts: seq<UploadedPart>, size: int)
    requires SplitOf(rows, parts, size)
    ensures exists r :: r in rows && r.partIndex == Some(|parts| - 1)
  {
    assert Chosen(rows, parts, |parts| - 1);
    var r :| Least(At(rows, |parts| - 1), r);
    assert r in rows;
  }

  /** The set of rows determines the choice: neither the order of the rows nor
      repeated rows can change it. */
  lemma ChoiceIsDetermined(rows: set<Row>, size: int, a: seq<UploadedPart>, b: seq<UploadedPart>)
    requires Faithful(rows) && Canonical(rows, size, a) && Canonical(rows, size, b)
    ensures a == b
  {
    if size >= 0 {
      if exists g :: Splits(rows, g, size) {
        var g :| SplitOf(GroupOf(rows, g), a, size) && forall h | Splits(rows, h, size) :: !TextLess(h, g);
        var h :| SplitOf(GroupOf(rows, h), b, size) && forall k | Splits(rows, k, size) :: !TextLess(k, h);
        assert Splits(rows, g, size) && Splits(rows, h, size);
        TextTotal(g, h);
        FaithfulPart(rows, GroupOf(rows, g));
        SplitUnique(GroupOf(rows, g), a, b, size);
      } else if Singles(rows, size) != {} {
        var q :| Least(Singles(rows, size), q) && a == [UploadedPart(0, q.data.value)];
        var r :| Least(Singles(rows, size), r) && b == [UploadedPart(0, r.data.value)];
        FaithfulPart(rows, Singles(rows, size));
        LeastData(Singles(rows, size), q, r);
      }
    }
  }

  // ------------------------------------------------------------------ the algorithm

  ghost function Set(rows: seq<Row>): set<Row> { set r | r in rows }

  /** The first of the least rows, as a stable sort would put it in front. */
  method LeastRow(rows: seq<Row>) returns (best: Row)
    requires rows != []
    ensures Least(Set(rows), best)
  {
    best := rows[0];
    KeyIrreflexive(best.key);
    for i := 1 to |rows|
      invariant best in rows
      invariant forall k | 0 <= k < i :: !KeyLess(rows[k].key, best.key)
    {
      if KeyLess(rows[i].key, best.key) {
        forall k | 0 <= k < i ensures !KeyLess(rows[k].key, rows[i].key) {
          if KeyLess(rows[k].key, rows[i].key) { KeyTrans(rows[k].key, rows[i].key, best.key); }
        }
        best := rows[i];
      }
      KeyIrreflexive(best.key);
    }
  }

  lemma {:induction false} KeyIrreflexive(a: seq<string>)
    ensures !KeyLess(a, a)
  {
    if a != [] {
      TextTotal(a[0], a[0]);
      KeyIrreflexive(a[1..]);
    }
  }

  /** The rows of one part index, for every index that occurs. Fails when some row
      has no usable index. */
  method ByIndex(rows: seq<Row>) returns (ok: bool, byIndex: map<int, seq<Row>>)
    ensures ok <==> forall r | r in rows :: r.partIndex.Some? && r.partIndex.value >= 0
    ensures ok ==> forall i: int :: i in byIndex <==> exists r :: r in rows && r.partIndex == Some(i)
    ensures ok ==> forall i: nat | i in byIndex :: byIndex[i] != [] && Set(byIndex[i]) == At(Set(rows), i)
  {
    byIndex := map[];
    for n := 0 to |rows|
      invariant forall k | 0 <= k < n :: rows[k].partIndex.Some? && rows[k].partIndex.value >= 0
      invariant forall i: int :: i in byIndex <==> exists k :: 0 <= k < n && rows[k].partIndex == Some(i)
      invariant forall i | i in byIndex :: byIndex[i] != []
      invariant forall i, r | i in byIndex && r in byIndex[i] :: r in rows && r.partIndex == Some(i)
      invariant forall k | 0 <= k < n ::
        rows[k].partIndex.value in byIndex && rows[k] in byIndex[rows[k].partIndex.value]
    {
      var row := rows[n];
      if row.partIndex.None? || row.partIndex.value < 0 { return false, byIndex; }
      var i := row.partIndex.value;
      byIndex := byIndex[i := (if i in byIndex then byIndex[i] else []) + [row]];
    }
    ok := true;
    forall i: nat | i in byIndex ensures Set(byIndex[i]) == At(Set(rows), i) {
      forall r ensures r in Set(byIndex[i]) <==> r in At(Set(rows), i) { }
    }
  }

  method IsContiguous(byIndex: map<int, seq<Row>>) returns (ok: bool)
    requires forall i | i in byIndex :: i >= 0
    ensures ok <==> forall i: int :: i in byIndex <==> 0 <= i < |byIndex|
  {
    ghost var below: set<int> := {};
    for i := 0 to |byIndex|
      invariant forall k | 0 <= k < i :: k in byIndex
      invariant forall k: int :: k in below <==> 0 <= k < i
      invariant |below| == i && below <= byIndex.Keys
    {
      if i !in byIndex { return false; }
      below := below + {i};
    }
    SameSize(below, byIndex.Keys);
    return true;
  }

  lemma SameSize(a: set<int>, b: set<int>)
    requires a <= b && |a| == |b|
    ensures a == b
  {
    assert b == a + (b - a);
    assert |b| == |a| + |b - a|;
  }

  /** Any parts the rows could mean have the least rows' data. */
  lemma OnlyThisData(rows: set<Row>, parts: seq<UploadedPart>, size: int, i: nat, best: Row)
    requires Faithful(rows) && SplitOf(rows, parts, size) && i < |parts| && Least(At(rows, i), best)
    ensures best.data == Some(parts[i].data)
  {
    assert Chosen(rows, parts, i);
    var r :| Least(At(rows, i), r) && r.data == Some(parts[i].data);
    FaithfulPart(rows, At(rows, i));
    LeastData(At(rows, i), r, best);
  }

  /** The parts chosen so far. */
  ghost predicate ChosenSoFar(rows: set<Row>, parts: seq<UploadedPart>) {
    && (forall i | 0 <= i < |parts| :: parts[i].index == i && parts[i].data.size >= 0 && Chosen(rows, parts, i))
    && (forall i, j | 0 <= i < j < |parts| :: !SameMessage(parts[i].data, parts[j].data))
  }

  /** Whatever parts the rows mean, they begin with these. */
  ghost predicate Forced(rows: set<Row>, parts: seq<UploadedPart>, n: nat, size: int) {
    Faithful(rows) ==> forall ps | SplitOf(rows, ps, size) :: |ps| == n && parts <= ps
  }

  ghost predicate Impossible(rows: set<Row>, size: int) {
    Faithful(rows) ==> forall ps :: !SplitOf(rows, ps, size)
  }

  lemma NumberOfParts(rows: set<Row>, n: nat, size: int)
    requires forall i: int :: (0 <= i < n) <==> exists r :: r in rows && r.partIndex == Some(i)
    ensures Forced(rows, [], n, size)
  {
    forall ps | SplitOf(rows, ps, size) ensures |ps| == n {
      Reaches(rows, ps, size);
      if n > 0 {
        assert 0 <= n - 1 < n;
        var r :| r in rows && r.partIndex == Some(n - 1);
      }
    }
  }

  lemma OneMoreForced(rows: set<Row>, parts: seq<UploadedPart>, n: nat, size: int, best: Row)
    requires Forced(rows, parts, n, size) && |parts| < n && Least(At(rows, |parts|), best)
    ensures best.data.None? || best.data.value.size < 0 ==> Impossible(rows, size)
    ensures best.data.Some? && (exists k :: 0 <= k < |parts| && SameMessage(parts[k].data, best.data.value)) ==>
      Impossible(rows, size)
    ensures best.data.Some? ==> Forced(rows, parts + [UploadedPart(|parts|, best.data.value)], n, size)
  {
    if Faithful(rows) {
      forall ps: seq<UploadedPart> | SplitOf(rows, ps, size)
        ensures best.data.Some? && best.data.value.size >= 0
          && (forall k | 0 <= k < |parts| :: !SameMessage(parts[k].data, best.data.value))
          && parts + [UploadedPart(|parts|, best.data.value)] <= ps
      {
        OnlyThisData(rows, ps, size, |parts|, best);
        var d := ps[|parts|];
        assert d.index == |parts| && d == UploadedPart(|parts|, best.data.value);
        forall k | 0 <= k < |parts| ensures !SameMessage(parts[k].data, best.data.value) {
          assert parts[k] == ps[k];
        }
      }
    }
  }

  lemma OneMoreChosen(rows: set<Row>, parts: seq<UploadedPart>, best: Row)
    requires ChosenSoFar(rows, parts) && Least(At(rows, |parts|), best)
    requires best.data.Some? && best.data.value.size >= 0
    requires forall k | 0 <= k < |parts| :: !SameMessage(parts[k].data, best.data.value)
    ensures ChosenSoFar(rows, parts + [UploadedPart(|parts|, best.data.value)])
  {
    var more := parts + [UploadedPart(|parts|, best.data.value)];
    forall i | 0 <= i < |more| ensures more[i].index == i && more[i].data.size >= 0 && Chosen(rows, more, i) {
      if i < |parts| { assert Chosen(rows, parts, i); }
    }
  }

  function Messages(parts: seq<UploadedPart>): set<(int, int)> {
    set p | p in parts :: (p.data.account, p.data.messageId)
  }

  lemma OneMoreMessage(parts: seq<UploadedPart>, p: UploadedPart)
    ensures Messages(parts + [p]) == Messages(parts) + {(p.data.account, p.data.messageId)}
    ensures (p.data.account, p.data.messageId) in Messages(parts) <==>
      exists k :: 0 <= k < |parts| && SameMessage(parts[k].data, p.data)
  {
    var id := (p.data.account, p.data.messageId);
    assert (parts + [p])[|parts|] == p;
    forall m ensures m in Messages(parts + [p]) <==> m in Messages(parts) + {id} {
      if m in Messages(parts) {
        var q :| q in parts && (q.data.account, q.data.messageId) == m;
        assert q in parts + [p];
      }
    }
    if id in Messages(parts) {
      var q :| q in parts && (q.data.account, q.data.messageId) == id;
      var k :| 0 <= k < |parts| && parts[k] == q;
      assert SameMessage(parts[k].data, p.data);
    }
    if k :| 0 <= k < |parts| && SameMessage(parts[k].data, p.data) { assert parts[k] in parts; }
  }

  /** One part per index: the least row's message, each message once. */
  method ChooseParts(rows: seq<Row>, byIndex: map<int, seq<Row>>, size: int)
    returns (ok: bool, parts: seq<UploadedPart>)
    requires forall i: int | 0 <= i < |byIndex| ::
      i in byIndex && byIndex[i] != [] && Set(byIndex[i]) == At(Set(rows), i)
    requires Forced(Set(rows), [], |byIndex|, size)
    ensures ok ==> |parts| == |byIndex| && ChosenSoFar(Set(rows), parts) && Forced(Set(rows), parts, |byIndex|, size)
    ensures !ok ==> Impossible(Set(rows), size)
  {
    hide Forced, Impossible, Chosen, Least, Set, At;
    parts := [];
    var seen: set<(int, int)> := {};
    ghost var all := Set(rows);
    for i := 0 to |byIndex|
      invariant |parts| == i && ChosenSoFar(all, parts) && Forced(all, parts, |byIndex|, size)
      invariant seen == Messages(parts)
    {
      hide ChosenSoFar, Messages;
      var best := LeastRow(byIndex[i]);
      OneMoreForced(all, parts, |byIndex|, size, best);
      if best.data.None? || best.data.value.size < 0 { return false, parts; }
      var data := best.data.value;
      OneMoreMessage(parts, UploadedPart(i, data));
      if (data.account, data.messageId) in seen { return false, parts; }
      OneMoreChosen(all, parts, best);
      seen := seen + {(data.account, data.messageId)};
      parts := parts + [UploadedPart(i, data)];
    }
    ok := true;
  }

  /** `_canonical_split_candidate`: the parts of one group, or nothing. */
  method SplitCandidate(rows: seq<Row>, size: int) returns (parts: seq<UploadedPart>)
    ensures parts != [] ==> SplitOf(Set(rows), parts, size)
    ensures parts == [] ==> Impossible(Set(rows), size)
  {
    var ok, byIndex := ByIndex(rows);
    if !ok { return []; }
    var contiguous := IsContiguous(byIndex);
    if byIndex == map[] || !contiguous {
      NotContiguous(Set(rows), size, byIndex.Keys);
      return [];
    }
    NumberOfParts(Set(rows), |byIndex|, size);
    ok, parts := ChooseParts(rows, byIndex, size);
    if !ok { return []; }
    WholeOrNothing(Set(rows), parts, |byIndex|, size);
    if SizeOf(parts) != size { return []; }
  }

  lemma WholeOrNothing(rows: set<Row>, parts: seq<UploadedPart>, n: nat, size: int)
    requires ChosenSoFar(rows, parts) && Forced(rows, parts, n, size) && |parts| == n > 0
    requires forall r | r in rows :: r.partIndex.Some? && 0 <= r.partIndex.value < n
    ensures if SizeOf(parts) == size then SplitOf(rows, parts, size) else Impossible(rows, size)
  {
    forall ps: seq<UploadedPart> | Faithful(rows) && SplitOf(rows, ps, size) ensures SizeOf(parts) == size {
      assert ps == parts;
    }
  }

  lemma NotContiguous(rows: set<Row>, size: int, indices: set<int>)
    requires forall i: int :: i in indices <==> exists r :: r in rows && r.partIndex == Some(i)
    requires indices == {} || !(forall i: int :: i in indices <==> 0 <= i < |indices|)
    ensures Impossible(rows, size)
  {
    forall ps | SplitOf(rows, ps, size) ensures false {
      Reaches(rows, ps, size);
      forall i: int ensures i in indices <==> 0 <= i < |ps| {
        if 0 <= i < |ps| {
          assert Chosen(rows, ps, i);
          var r :| Least(At(rows, i), r);
          assert r in rows && r.partIndex == Some(i);
        }
      }
      Upto(indices, |ps|);
    }
  }

  lemma {:induction false} Upto(s: set<int>, n: nat)
    requires forall i: int :: i in s <==> 0 <= i < n
    ensures |s| == n
  {
    if n == 0 {
      assert forall i: int :: i !in s;
    } else {
      Upto(s - {n - 1}, n - 1);
    }
  }

  // ------------------------------------------------------------- the whole selection

  /** The rows of one group, in the order they came. */
  function Members(rows: seq<Row>, g: string): seq<Row> {
    if rows == [] then []
    else
      var last := rows[|rows| - 1];
      Members(rows[..|rows| - 1], g) + if last.isSplit && g != "" && last.group == g then [last] else []
  }

  lemma {:induction false} MembersAre(rows: seq<Row>, g: string)
    ensures Set(Members(rows, g)) == GroupOf(Set(rows), g)
  {
    if rows != [] {
      var front, last := rows[..|rows| - 1], rows[|rows| - 1];
      MembersAre(front, g);
      assert rows == front + [last];
      SetSnoc(front, last);
      SetSnoc(Members(front, g), last);
    }
  }

  lemma SetSnoc(rows: seq<Row>, last: Row)
    ensures Set(rows + [last]) == Set(rows) + {last} && Set(rows + []) == Set(rows)
  {
    assert (rows + [last])[|rows|] == last && rows + [] == rows;
    forall r | r in rows ensures r in rows + [last] { }
  }

  lemma NoMembers(rows: seq<Row>)
    ensures forall g :: Members(rows[..0], g) == []
  {
  }

  lemma OneMoreMember(rows: seq<Row>, n: nat)
    requires n < |rows|
    ensures var row := rows[n];
      forall g :: Members(rows[..n + 1], g) ==
        if row.isSplit && g != "" && row.group == g then Members(rows[..n], g) + [row] else Members(rows[..n], g)
  {
    assert rows[..n + 1][..n] == rows[..n];
  }

  /** The split rows by group. */
  method ByGroup(rows: seq<Row>) returns (groups: map<string, seq<Row>>)
    ensures forall g | g in groups :: Set(groups[g]) == GroupOf(Set(rows), g)
    ensures forall g :: g in groups <==> GroupOf(Set(rows), g) != {}
  {
    hide Set, GroupOf, Members;
    groups := map[];
    assert forall g :: Members(rows[..0], g) == [] by { NoMembers(rows); }
    for n := 0 to |rows|
      invariant forall g | g in groups :: groups[g] == Members(rows[..n], g)
      invariant forall g :: g in groups <==> Members(rows[..n], g) != []
    {
      var row := rows[n];
      OneMoreMember(rows, n);
      if row.isSplit && row.group != "" {
        groups := groups[row.group := (if row.group in groups then groups[row.group] else []) + [row]];
      }
    }
    assert rows[..|rows|] == rows;
    GroupsAre(rows, groups);
  }

  lemma GroupsAre(rows: seq<Row>, groups: map<string, seq<Row>>)
    requires forall g | g in groups :: groups[g] == Members(rows, g)
    requires forall g :: g in groups <==> Members(rows, g) != []
    ensures forall g | g in groups :: Set(groups[g]) == GroupOf(Set(rows), g)
    ensures forall g :: g in groups <==> GroupOf(Set(rows), g) != {}
  {
    hide GroupOf, Members;
    forall g ensures (g in groups <==> GroupOf(Set(rows), g) != {}) && Set(Members(rows, g)) == GroupOf(Set(rows), g) {
      MembersAre(rows, g);
      if Members(rows, g) != [] { assert Members(rows, g)[0] in Set(Members(rows, g)); }
      else { assert Set(Members(rows, g)) == {}; }
    }
  }

  /** The next group in order. */
  method FirstText(todo: set<string>) returns (g: string)
    requires todo != {}
    ensures g in todo && forall h | h in todo :: !TextLess(h, g)
  {
    g :| g in todo;
    var rest := todo - {g};
    TextTotal(g, g);
    while rest != {}
      invariant rest <= todo && g in todo
      invariant forall h | h in todo - rest :: !TextLess(h, g)
      decreases |rest|
    {
      var h :| h in rest;
      rest := rest - {h};
      if TextLess(h, g) {
        forall k | k in todo - rest ensures !TextLess(k, h) {
          TextTotal(h, h);
          if TextLess(k, h) { TextTrans(k, h, g); }
        }
        g := h;
      }
    }
  }

  /** Some kept row is no later than `q`. */
  ghost predicate Dominated(kept: seq<Row>, q: Row) { exists r :: r in kept && !KeyLess(q.key, r.key) }

  /** The single-message rows of the right size, one alias kept per message. */
  method SingleRows(rows: seq<Row>, size: int) returns (kept: seq<Row>)
    ensures forall r | r in kept :: r in Singles(Set(rows), size)
    ensures forall q | q in Singles(Set(rows), size) :: Dominated(kept, q)
  {
    var singles: map<(int, int), Row> := map[];
    for n := 0 to |rows|
      invariant forall id | id in singles :: singles[id] in Singles(Set(rows), size)
      invariant forall k | 0 <= k < n && rows[k] in Singles(Set(rows), size) ::
        exists id :: id in singles && !KeyLess(rows[k].key, singles[id].key)
    {
      var row := rows[n];
      if !row.isSplit && row.data.Some? && row.data.value.size == size {
        var id := (row.data.value.account, row.data.value.messageId);
        ghost var before := singles;
        KeyIrreflexive(row.key);
        if id !in singles || KeyLess(row.key, singles[id].key) { singles := singles[id := row]; }
        forall k | 0 <= k < n && rows[k] in Singles(Set(rows), size)
          ensures exists j :: j in singles && !KeyLess(rows[k].key, singles[j].key)
        {
          var j :| j in before && !KeyLess(rows[k].key, before[j].key);
          if j == id && singles != before && KeyLess(rows[k].key, row.key) {
            KeyTrans(rows[k].key, row.key, before[j].key);
          }
          assert j in singles && !KeyLess(rows[k].key, singles[j].key);
        }
        assert id in singles && !KeyLess(row.key, singles[id].key);
      }
    }
    kept := [];
    var ids := singles.Keys;
    while ids != {}
      invariant ids <= singles.Keys
      invariant forall r | r in kept :: r in Singles(Set(rows), size)
      invariant forall id | id in singles.Keys - ids :: singles[id] in kept
      decreases |ids|
    {
      var id :| id in ids;
      ids := ids - {id};
      kept := kept + [singles[id]];
    }
    forall q | q in Singles(Set(rows), size) ensures Dominated(kept, q) {
      var k :| 0 <= k < |rows| && rows[k] == q;
      var id :| id in singles && !KeyLess(rows[k].key, singles[id].key);
      assert singles[id] in kept;
    }
  }

  lemma NotBelow(q: seq<string>, r: seq<string>, b: seq<string>)
    requires !KeyLess(q, r) && !KeyLess(r, b)
    ensures !KeyLess(q, b)
  {
    KeyTotal(q, r);
    if KeyLess(q, b) && KeyLess(r, q) { KeyTrans(r, q, b); }
  }

  lemma LeastOfKept(kept: seq<Row>, all: set<Row>, best: Row)
    requires Least(Set(kept), best) && (forall r | r in kept :: r in all)
    requires forall q | q in all :: Dominated(kept, q)
    ensures Least(all, best)
  {
    hide KeyLess;
    assert best in kept;
    forall q | q in all ensures !KeyLess(q.key, best.key) {
      var r :| r in kept && !KeyLess(q.key, r.key);
      assert r in Set(kept);
      NotBelow(q.key, r.key, best.key);
    }
  }

  /** The first group, in order, that is a whole upload. */
  method FirstGroup(rows: seq<Row>, size: int) returns (parts: seq<UploadedPart>)
    requires size >= 0
    ensures parts != [] ==> Covers(parts, size) && (Faithful(Set(rows)) ==> Canonical(Set(rows), size, parts))
    ensures parts == [] && Faithful(Set(rows)) ==> forall h :: !Splits(Set(rows), h, size)
  {
    hide Set, GroupOf, Canonical, Impossible, Splits, SplitOf;
    var groups := ByGroup(rows);
    ghost var all := Set(rows);
    var todo := groups.Keys;
    parts := [];
    while todo != {}
      invariant todo <= groups.Keys && parts == []
      invariant Faithful(all) ==> forall g | g in groups.Keys - todo :: !Splits(all, g, size)
      decreases |todo|
    {
      hide Faithful;
      var g := FirstText(todo);
      parts := SplitCandidate(groups[g], size);
      if parts != [] {
        GroupChosen(all, groups.Keys, todo, g, parts, size);
        return;
      }
      GroupFails(all, g, size);
      todo := todo - {g};
    }
    NoGroup(all, groups.Keys, size);
  }

  lemma GroupFails(rows: set<Row>, g: string, size: int)
    requires Impossible(GroupOf(rows, g), size)
    ensures Faithful(rows) ==> !Splits(rows, g, size)
  {
    FaithfulGroup(rows, g);
  }

  /** The least single-message upload of the right size. */
  method SingleUpload(rows: seq<Row>, size: int) returns (parts: seq<UploadedPart>)
    ensures SingleOf(Set(rows), size, parts)
  {
    hide Set, Least, KeyLess, Dominated, Singles;
    var kept := SingleRows(rows, size);
    ghost var all := Singles(Set(rows), size);
    if kept == [] {
      NothingKept(all);
      return [];
    }
    var best := LeastRow(kept);
    LeastOfKept(kept, all, best);
    SingleHasData(Set(rows), size, best);
    parts := [UploadedPart(0, best.data.value)];
  }

  ghost predicate SingleOf(rows: set<Row>, size: int, parts: seq<UploadedPart>) {
    if Singles(rows, size) == {} then parts == []
    else exists r :: Least(Singles(rows, size), r) && parts == [UploadedPart(0, r.data.value)]
  }

  lemma NothingKept(all: set<Row>)
    requires forall q | q in all :: Dominated([], q)
    ensures all == {}
  {
  }

  lemma SingleHasData(rows: set<Row>, size: int, best: Row)
    requires Least(Singles(rows, size), best)
    ensures best.data.Some? && Singles(rows, size) != {}
  {
  }

  lemma SingleCovers(rows: set<Row>, size: int, parts: seq<UploadedPart>)
    requires SingleOf(rows, size, parts) && size >= 0
    ensures parts == [] || Covers(parts, size)
  {
    if parts != [] {
      var r :| Least(Singles(rows, size), r) && parts == [UploadedPart(0, r.data.value)];
      assert r in Singles(rows, size) && parts[..0] == [];
      assert SizeOf(parts) == SizeOf([]) + r.data.value.size;
    }
  }

  /** `canonical_existing_parts` */
  method CanonicalExistingParts(rows: seq<Row>, size: int) returns (parts: seq<UploadedPart>)
    ensures parts == [] || Covers(parts, size)
    ensures Faithful(Set(rows)) ==> Canonical(Set(rows), size, parts)
  {
    if size < 0 { return []; }
    hide Set, Splits, Faithful, Covers, Singles, Least;
    parts := FirstGroup(rows, size);
    if parts != [] { return; }
    parts := SingleUpload(rows, size);
    SingleCovers(Set(rows), size, parts);
  }

  /** Two listings with the same rows, in whatever order, give the same upload. */
  lemma OrderDoesNotMatter(rows: seq<Row>, others: seq<Row>, size: int, a: seq<UploadedPart>, b: seq<UploadedPart>)
    requires multiset(rows) == multiset(others) && Faithful(Set(rows))
    requires Faithful(Set(rows)) ==> Canonical(Set(rows), size, a)
    requires Faithful(Set(others)) ==> Canonical(Set(others), size, b)
    ensures a == b
  {
    hide Canonical;
    forall r ensures r in rows <==> r in others {
      assert r in rows <==> r in multiset(rows);
      assert r in others <==> r in multiset(others);
    }
    assert Set(rows) == Set(others);
    ChoiceIsDetermined(Set(rows), size, a, b);
  }

  /** Two registrations of one message that differ only in whether a thumbnail is recorded, which
      is no part of the sort key. */
  function Registered(hasThumbnail: bool): Row {
    Row("", false, None, ["f", "h", "7", "5", "video"], Some(Data(5, 7, 9, "f", Some("h"), hasThumbnail)))
  }

  /** Without that assumption the rows alone decide nothing: either of these two is a canonical
      choice, and which one is returned is left to the order of the listing. */
  lemma TiedRowsLeaveAChoice()
    ensures var rows := {Registered(true), Registered(false)};
      && !Faithful(rows)
      && Canonical(rows, 9, [UploadedPart(0, Registered(true).data.value)])
      && Canonical(rows, 9, [UploadedPart(0, Registered(false).data.value)])
  {
    var rows := {Registered(true), Registered(false)};
    KeyIrreflexive(Registered(true).key);
    hide KeyLess;
    forall g ensures !Splits(rows, g, 9) { NoSplits(rows, g, 9); }
    assert Singles(rows, 9) == rows;
    assert Least(rows, Registered(true)) && Least(rows, Registered(false));
  }

  lemma NoSplits(rows: set<Row>, g: string, size: int)
    requires forall r | r in rows :: !r.isSplit
    ensures !Splits(rows, g, size)
  {
    if parts :| SplitOf(GroupOf(rows, g), parts, size) { Reaches(GroupOf(rows, g), parts, size); }
  }

  lemma FaithfulGroup(rows: set<Row>, g: string)
    ensures Faithful(rows) ==> Faithful(GroupOf(rows, g))
  {
  }

  lemma GroupChosen(rows: set<Row>, groups: set<string>, todo: set<string>, g: string, parts: seq<UploadedPart>,
        size: int)
    requires forall h :: h in groups <==> GroupOf(rows, h) != {}
    requires Faithful(rows) ==> forall h | h in groups - todo :: !Splits(rows, h, size)
    requires g in todo && (forall h | h in todo :: !TextLess(h, g)) && SplitOf(GroupOf(rows, g), parts, size)
      && size >= 0
    ensures (Faithful(rows) ==> Canonical(rows, size, parts)) && Covers(parts, size)
  {
    assert Splits(rows, g, size);
    forall h | Faithful(rows) && Splits(rows, h, size) ensures !TextLess(h, g) {
      var ps :| SplitOf(GroupOf(rows, h), ps, size);
      Reaches(GroupOf(rows, h), ps, size);
      assert h in groups;
    }
  }

  lemma NoGroup(rows: set<Row>, groups: set<string>, size: int)
    requires forall h :: h in groups <==> GroupOf(rows, h) != {}
    requires Faithful(rows) ==> forall h | h in groups :: !Splits(rows, h, size)
    ensures Faithful(rows) ==> forall h :: !Splits(rows, h, size)
  {
    forall h | Splits(rows, h, size) ensures h in groups {
      var ps :| SplitOf(GroupOf(rows, h), ps, size);
      Reaches(GroupOf(rows, h), ps, size);
    }
  }
}
