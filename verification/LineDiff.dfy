/** The line-level edit script: common ends are trimmed, the middle goes through
    the longest-common-subsequence table. */
module LineDiff {

  type Line = string
  datatype Kind = Same | Del | Add
  datatype Op = Op(kind: Kind, line: Line)

  // ------------------------------------------------------ what a script means

  /** The lines of the operations of some kinds, in order. */
  function Part(ops: seq<Op>, kinds: set<Kind>): seq<Line> {
    if ops == [] then [] else (if ops[0].kind in kinds then [ops[0].line] else []) + Part(ops[1..], kinds)
  }

  /** The text a script starts from: everything but the additions. */
  function Old(ops: seq<Op>): seq<Line> {
    Part(ops, {Same, Del})
  }

  /** The text a script produces: everything but the deletions. */
  function New(ops: seq<Op>): seq<Line> {
    Part(ops, {Same, Add})
  }

  /** The lines a script leaves alone. */
  function Kept(ops: seq<Op>): seq<Line> {
    Part(ops, {Same})
  }

  predicate Turns(ops: seq<Op>, a: seq<Line>, b: seq<Line>) {
    Old(ops) == a && New(ops) == b
  }

  lemma {:induction false} PartConcat(x: seq<Op>, y: seq<Op>, kinds: set<Kind>)
    ensures Part(x + y, kinds) == Part(x, kinds) + Part(y, kinds)
  {
    if x == [] {
      assert x + y == y;
    } else {
      assert (x + y)[1..] == x[1..] + y;
      PartConcat(x[1..], y, kinds);
    }
  }

  lemma PartOne(op: Op, kinds: set<Kind>)
    ensures Part([op], kinds) == if op.kind in kinds then [op.line] else []
  {
    assert [op][1..] == [];
  }

  lemma PartFirst(ops: seq<Op>, kinds: set<Kind>)
    requires ops != []
    ensures |Part(ops, kinds)| == |Part(ops[1..], kinds)| + if ops[0].kind in kinds then 1 else 0
  {
  }

  lemma Snoc(x: seq<Op>, op: Op, kinds: set<Kind>)
    ensures Part(x + [op], kinds) == Part(x, kinds) + (if op.kind in kinds then [op.line] else [])
  {
    PartConcat(x, [op], kinds);
    PartOne(op, kinds);
  }

  // ------------------------------------------------ longest common subsequence

  predicate Subsequence(c: seq<Line>, a: seq<Line>)
    decreases |a|
  {
    c == [] || (a != [] && ((c[0] == a[0] && Subsequence(c[1..], a[1..])) || Subsequence(c, a[1..])))
  }

  predicate Common(c: seq<Line>, a: seq<Line>, b: seq<Line>) {
    Subsequence(c, a) && Subsequence(c, b)
  }

  function Max(x: nat, y: nat): nat { if x >= y then x else y }

  function Lcs(a: seq<Line>, b: seq<Line>): nat
    decreases |a| + |b|
  {
    if a == [] || b == [] then 0
    else if a[0] == b[0] then Lcs(a[1..], b[1..]) + 1
    else Max(Lcs(a[1..], b), Lcs(a, b[1..]))
  }

  lemma {:induction false} SubsequenceTail(c: seq<Line>, a: seq<Line>)
    requires Subsequence(c, a) && c != []
    ensures a != [] && Subsequence(c[1..], a[1..])
    decreases |a|
  {
    if !(c[0] == a[0] && Subsequence(c[1..], a[1..])) {
      SubsequenceTail(c, a[1..]);
      SubsequenceWeaken(c[1..], a[1..]);
    }
  }

  lemma SubsequenceWeaken(c: seq<Line>, a: seq<Line>)
    requires a != [] && Subsequence(c, a[1..])
    ensures Subsequence(c, a)
  {
  }

  /** No common subsequence is longer than Lcs. */
  lemma {:induction false} LcsLongest(c: seq<Line>, a: seq<Line>, b: seq<Line>)
    requires Common(c, a, b)
    ensures |c| <= Lcs(a, b)
    decreases |a| + |b|
  {
    if c != [] {
      SubsequenceTail(c, a);
      SubsequenceTail(c, b);
      if a[0] == b[0] {
        LcsLongest(c[1..], a[1..], b[1..]);
      } else if c[0] == a[0] {
        LcsLongest(c, a, b[1..]);
      } else {
        LcsLongest(c, a[1..], b);
      }
    }
  }

  lemma {:induction false} PartSubsequence(ops: seq<Op>, few: set<Kind>, many: set<Kind>)
    requires few <= many
    ensures Subsequence(Part(ops, few), Part(ops, many))
  {
    if ops != [] {
      var f, m := Part(ops[1..], few), Part(ops[1..], many);
      PartSubsequence(ops[1..], few, many);
      if ops[0].kind in many {
        assert Part(ops, many)[1..] == m;
        if ops[0].kind in few {
          assert Part(ops, few)[1..] == f;
        } else {
          assert Part(ops, few) == f;
        }
      } else {
        assert Part(ops, many) == m && Part(ops, few) == f;
      }
    }
  }

  lemma KeptCommon(ops: seq<Op>)
    ensures Common(Kept(ops), Old(ops), New(ops))
  {
    PartSubsequence(ops, {Same}, {Same, Del});
    PartSubsequence(ops, {Same}, {Same, Add});
  }

  lemma {:induction false} ScriptLength(ops: seq<Op>)
    ensures |ops| == |Old(ops)| + |New(ops)| - |Kept(ops)|
  {
    if ops != [] {
      ScriptLength(ops[1..]);
      PartFirst(ops, {Same, Del});
      PartFirst(ops, {Same, Add});
      PartFirst(ops, {Same});
      assert ops[0].kind in {Same, Del} <==> ops[0].kind != Add;
      assert ops[0].kind in {Same, Add} <==> ops[0].kind != Del;
      assert |Old(ops)| + |New(ops)| - |Kept(ops)| == |Old(ops[1..])| + |New(ops[1..])| - |Kept(ops[1..])| + 1;
    }
  }

  /** A script that keeps Lcs lines is a shortest one, and what it keeps is a
      longest common subsequence. */
  lemma ShortestScript(ops: seq<Op>, other: seq<Op>)
    requires Old(other) == Old(ops) && New(other) == New(ops) && |Kept(ops)| == Lcs(Old(ops), New(ops))
    ensures |ops| <= |other|
  {
    KeptCommon(other);
    LcsLongest(Kept(other), Old(ops), New(ops));
    ScriptLength(ops);
    ScriptLength(other);
  }

  // --------------------------------------------------------------- trimming

  lemma {:induction false} LcsPrefix(p: seq<Line>, a: seq<Line>, b: seq<Line>)
    ensures Lcs(p + a, p + b) == |p| + Lcs(a, b)
  {
    if p == [] {
      assert p + a == a && p + b == b;
    } else {
      assert (p + a)[1..] == p[1..] + a && (p + b)[1..] == p[1..] + b;
      LcsPrefix(p[1..], a, b);
    }
  }

  lemma {:induction false} LcsOneLeft(x: Line, b: seq<Line>)
    ensures Lcs([x], b + [x]) == 1
  {
    if b != [] && b[0] != x {
      assert (b + [x])[1..] == b[1..] + [x];
      LcsOneLeft(x, b[1..]);
    }
  }

  lemma {:induction false} LcsOneRight(x: Line, a: seq<Line>)
    ensures Lcs(a + [x], [x]) == 1
  {
    if a != [] && a[0] != x {
      assert (a + [x])[1..] == a[1..] + [x];
      LcsOneRight(x, a[1..]);
    }
  }

  lemma {:induction false} LcsLast(a: seq<Line>, b: seq<Line>, x: Line)
    ensures Lcs(a + [x], b + [x]) == Lcs(a, b) + 1
    decreases |a| + |b|
  {
    if a == [] {
      LcsOneLeft(x, b);
      assert a + [x] == [x];
    } else if b == [] {
      LcsOneRight(x, a);
      assert b + [x] == [x];
    } else {
      assert (a + [x])[1..] == a[1..] + [x] && (b + [x])[1..] == b[1..] + [x];
      if a[0] == b[0] {
        LcsLast(a[1..], b[1..], x);
      } else {
        LcsLast(a[1..], b, x);
        LcsLast(a, b[1..], x);
      }
    }
  }

  lemma {:induction false} LcsSuffix(a: seq<Line>, b: seq<Line>, s: seq<Line>)
    ensures Lcs(a + s, b + s) == Lcs(a, b) + |s|
    decreases |s|
  {
    if s == [] {
      assert a + s == a && b + s == b;
    } else {
      var front, x := s[..|s| - 1], s[|s| - 1];
      LcsSuffix(a, b, front);
      LcsLast(a + front, b + front, x);
      assert a + s == (a + front) + [x] && b + s == (b + front) + [x];
    }
  }

  // ---------------------------------------------------------------- methods

  lemma LcsAt(a: seq<Line>, b: seq<Line>, i: nat, j: nat)
    requires i < |a| && j < |b|
    ensures Lcs(a[i..], b[j..]) == if a[i] == b[j] then Lcs(a[i + 1..], b[j + 1..]) + 1
                                   else Max(Lcs(a[i + 1..], b[j..]), Lcs(a[i..], b[j + 1..]))
  {
    assert a[i..][1..] == a[i + 1..] && b[j..][1..] == b[j + 1..];
  }

  /** lcs[i, j] is the longest common subsequence of the two remainders. */
  ghost predicate RowDone(lcs: array2<nat>, a: seq<Line>, b: seq<Line>, i: int, from: int)
    requires lcs.Length0 == |a| + 1 && lcs.Length1 == |b| + 1 && 0 <= i <= |a|
    reads lcs
  {
    forall j | 0 <= from <= j <= |b| :: lcs[i, j] == Lcs(a[i..], b[j..])
  }

  method FillTable(a: seq<Line>, b: seq<Line>) returns (lcs: array2<nat>)
    ensures fresh(lcs) && lcs.Length0 == |a| + 1 && lcs.Length1 == |b| + 1
    ensures forall i | 0 <= i <= |a| :: RowDone(lcs, a, b, i, 0)
  {
    lcs := new nat[|a| + 1, |b| + 1]((i, j) => 0);
    var i := |a|;
    while i > 0
      invariant 0 <= i <= |a|
      invariant forall k | i <= k <= |a| :: RowDone(lcs, a, b, k, 0)
      invariant forall k | 0 <= k < i :: lcs[k, |b|] == 0
    {
      i := i - 1;
      label before:
      FillRow(a, b, lcs, i);
      forall k | i <= k <= |a|
        ensures RowDone(lcs, a, b, k, 0)
      {
        if k > i {
          assert old@before(RowDone(lcs, a, b, k, 0));
        }
      }
    }
  }

  method FillRow(a: seq<Line>, b: seq<Line>, lcs: array2<nat>, i: nat)
    requires i < |a| && lcs.Length0 == |a| + 1 && lcs.Length1 == |b| + 1
    requires RowDone(lcs, a, b, i + 1, 0) && lcs[i, |b|] == 0
    modifies lcs
    ensures RowDone(lcs, a, b, i, 0)
    ensures forall k, j | 0 <= k <= |a| && k != i && 0 <= j <= |b| :: lcs[k, j] == old(lcs[k, j])
  {
    hide Lcs;
    LcsEnd(a, b, i);
    var j := |b|;
    while j > 0
      invariant 0 <= j <= |b| && RowDone(lcs, a, b, i, j) && RowDone(lcs, a, b, i + 1, 0)
      invariant forall k, j | 0 <= k <= |a| && k != i && 0 <= j <= |b| :: lcs[k, j] == old(lcs[k, j])
    {
      j := j - 1;
      var cell := if a[i] == b[j] then lcs[i + 1, j + 1] + 1 else Max(lcs[i + 1, j], lcs[i, j + 1]);
      assert cell == Lcs(a[i..], b[j..]) by { LcsAt(a, b, i, j); }
      lcs[i, j] := cell;
    }
  }

  lemma LcsEnd(a: seq<Line>, b: seq<Line>, i: nat)
    requires i <= |a|
    ensures Lcs(a[i..], b[|b|..]) == 0
  {
  }

  /** The script so far covers two prefixes, and what it kept can still be
      completed to a longest common subsequence. */
  ghost predicate Reached(a: seq<Line>, b: seq<Line>, i: nat, j: nat, ops: seq<Op>) {
    && i <= |a| && j <= |b| && Turns(ops, a[..i], b[..j])
    && |Kept(ops)| + Lcs(a[i..], b[j..]) == Lcs(a, b)
  }

  lemma ReachedStart(a: seq<Line>, b: seq<Line>)
    ensures Reached(a, b, 0, 0, [])
  {
    assert a[0..] == a && b[0..] == b;
  }

  lemma ReachedEnd(a: seq<Line>, b: seq<Line>, ops: seq<Op>)
    requires Reached(a, b, |a|, |b|, ops)
    ensures Turns(ops, a, b) && |Kept(ops)| == Lcs(a, b)
  {
    assert a[..|a|] == a && b[..|b|] == b;
  }

  lemma ReachedSame(a: seq<Line>, b: seq<Line>, i: nat, j: nat, ops: seq<Op>)
    requires Reached(a, b, i, j, ops) && i < |a| && j < |b| && a[i] == b[j]
    ensures Reached(a, b, i + 1, j + 1, ops + [Op(Same, a[i])])
  {
    LcsAt(a, b, i, j);
    hide Lcs, Part;
    Extended(ops, Op(Same, a[i]));
    assert a[..i + 1] == a[..i] + [a[i]] && b[..j + 1] == b[..j] + [b[j]];
  }

  lemma ReachedDel(a: seq<Line>, b: seq<Line>, i: nat, j: nat, ops: seq<Op>)
    requires Reached(a, b, i, j, ops) && i < |a|
    requires j < |b| ==> a[i] != b[j] && Lcs(a[i + 1..], b[j..]) >= Lcs(a[i..], b[j + 1..])
    ensures Reached(a, b, i + 1, j, ops + [Op(Del, a[i])])
  {
    if j < |b| {
      LcsAt(a, b, i, j);
    }
    assert Lcs(a[i + 1..], b[j..]) == Lcs(a[i..], b[j..]);
    hide Lcs, Part;
    Extended(ops, Op(Del, a[i]));
    assert a[..i + 1] == a[..i] + [a[i]];
  }

  lemma ReachedAdd(a: seq<Line>, b: seq<Line>, i: nat, j: nat, ops: seq<Op>)
    requires Reached(a, b, i, j, ops) && j < |b|
    requires i < |a| ==> a[i] != b[j] && Lcs(a[i + 1..], b[j..]) <= Lcs(a[i..], b[j + 1..])
    ensures Reached(a, b, i, j + 1, ops + [Op(Add, b[j])])
  {
    if i < |a| {
      LcsAt(a, b, i, j);
    }
    assert Lcs(a[i..], b[j + 1..]) == Lcs(a[i..], b[j..]);
    hide Lcs, Part;
    Extended(ops, Op(Add, b[j]));
    assert b[..j + 1] == b[..j] + [b[j]];
  }

  /** Within a run of changes the deletions come first. */
  predicate DeletionsFirst(ops: seq<Op>) {
    forall k | 0 < k < |ops| && ops[k].kind == Del :: ops[k - 1].kind != Add
  }

  /** After an addition the next old line is needed for a longest common
      subsequence, so it is not deleted. */
  ghost predicate AddForced(a: seq<Line>, b: seq<Line>, i: nat, j: nat, ops: seq<Op>)
    requires i <= |a| && j <= |b|
  {
    ops != [] && ops[|ops| - 1].kind == Add && i < |a| ==> Lcs(a[i + 1..], b[j..]) < Lcs(a[i..], b[j..])
  }

  /** One line less on either side costs at most one. */
  lemma {:induction false} LcsShrinks(a: seq<Line>, b: seq<Line>)
    ensures b != [] ==> Lcs(a, b[1..]) <= Lcs(a, b) <= Lcs(a, b[1..]) + 1
    ensures a != [] ==> Lcs(a[1..], b) <= Lcs(a, b) <= Lcs(a[1..], b) + 1
    decreases |a| + |b|
  {
    if a != [] && b != [] {
      LcsShrinks(a[1..], b);
      LcsShrinks(a, b[1..]);
    }
  }

  lemma DelAllowed(a: seq<Line>, b: seq<Line>, i: nat, j: nat, ops: seq<Op>)
    requires i < |a| && j <= |b| && AddForced(a, b, i, j, ops)
    requires j < |b| ==> a[i] != b[j] && Lcs(a[i + 1..], b[j..]) >= Lcs(a[i..], b[j + 1..])
    ensures ops == [] || ops[|ops| - 1].kind != Add
  {
    if j < |b| {
      LcsAt(a, b, i, j);
    }
  }

  lemma AddForces(a: seq<Line>, b: seq<Line>, i: nat, j: nat, ops: seq<Op>)
    requires i <= |a| && j < |b|
    requires i < |a| ==> Lcs(a[i + 1..], b[j..]) < Lcs(a[i..], b[j + 1..])
    ensures AddForced(a, b, i, j + 1, ops + [Op(Add, b[j])])
  {
    if i < |a| {
      LcsShrinks(a[i + 1..], b[j..]);
      assert b[j..][1..] == b[j + 1..];
    }
  }

  /** An edit script for the middle part, read off the table. */
  method LcsOps(a: seq<Line>, b: seq<Line>) returns (ops: seq<Op>)
    ensures Turns(ops, a, b) && |Kept(ops)| == Lcs(a, b) && DeletionsFirst(ops)
  {
    hide Reached, Lcs, Part, AddForced;
    var lcs := FillTable(a, b);
    ops := [];
    var i, j := 0, 0;
    ReachedStart(a, b);
    NotForced(a, b, 0, 0, []);
    while i < |a| && j < |b|
      invariant i <= |a| && j <= |b| && Reached(a, b, i, j, ops) && DeletionsFirst(ops) && AddForced(a, b, i, j, ops)
      invariant forall i | 0 <= i <= |a| :: RowDone(lcs, a, b, i, 0)
      decreases |a| - i + |b| - j
    {
      assert RowDone(lcs, a, b, i, 0) && RowDone(lcs, a, b, i + 1, 0);
      if a[i] == b[j] {
        ReachedSame(a, b, i, j, ops);
        ops := ops + [Op(Same, a[i])];
        i, j := i + 1, j + 1;
        NotForced(a, b, i, j, ops);
      } else if lcs[i + 1, j] >= lcs[i, j + 1] {
        ReachedDel(a, b, i, j, ops);
        DelAllowed(a, b, i, j, ops);
        ops := ops + [Op(Del, a[i])];
        i := i + 1;
        NotForced(a, b, i, j, ops);
      } else {
        ReachedAdd(a, b, i, j, ops);
        AddForces(a, b, i, j, ops);
        ops := ops + [Op(Add, b[j])];
        j := j + 1;
      }
    }
    while i < |a|
      invariant i <= |a| && j <= |b| && (i < |a| ==> j == |b|) && Reached(a, b, i, j, ops)
      invariant DeletionsFirst(ops) && AddForced(a, b, i, j, ops)
    {
      ReachedDel(a, b, i, j, ops);
      DelAllowed(a, b, i, j, ops);
      ops := ops + [Op(Del, a[i])];
      i := i + 1;
      NotForced(a, b, i, j, ops);
    }
    while j < |b|
      invariant i == |a| && j <= |b| && Reached(a, b, i, j, ops) && DeletionsFirst(ops)
    {
      ReachedAdd(a, b, i, j, ops);
      ops := ops + [Op(Add, b[j])];
      j := j + 1;
    }
    ReachedEnd(a, b, ops);
  }

  lemma NotForced(a: seq<Line>, b: seq<Line>, i: nat, j: nat, ops: seq<Op>)
    requires i <= |a| && j <= |b| && (ops == [] || ops[|ops| - 1].kind != Add)
    ensures AddForced(a, b, i, j, ops)
  {
  }

  /** The edit script of two texts: the shortest there is. */
  method DiffOps(a: seq<Line>, b: seq<Line>) returns (ops: seq<Op>)
    ensures Turns(ops, a, b) && |Kept(ops)| == Lcs(a, b) && DeletionsFirst(ops)
  {
    hide Lcs, Part, DeletionsFirst;
    var p := 0;
    while p < |a| && p < |b| && a[p] == b[p]
      invariant p <= |a| && p <= |b| && a[..p] == b[..p]
    {
      p := p + 1;
    }
    var s := 0;
    while s < |a| - p && s < |b| - p && a[|a| - 1 - s] == b[|b| - 1 - s]
      invariant p + s <= |a| && p + s <= |b| && a[|a| - s..] == b[|b| - s..]
    {
      assert a[|a| - s - 1..] == [a[|a| - 1 - s]] + a[|a| - s..];
      assert b[|b| - s - 1..] == [b[|b| - 1 - s]] + b[|b| - s..];
      s := s + 1;
    }
    var head := Keep(a[..p]);
    var middle := LcsOps(a[p..|a| - s], b[p..|b| - s]);
    var tail := Keep(a[|a| - s..]);
    ops := head + middle + tail;
    ThreeParts(a, p, |a| - s);
    ThreeParts(b, p, |b| - s);
    Trimmed(a[..p], a[p..|a| - s], b[p..|b| - s], a[|a| - s..], head, middle, tail);
    TrimmedOrder(head, middle, tail);
  }

  lemma ThreeParts(x: seq<Line>, p: nat, q: nat)
    requires p <= q <= |x|
    ensures x == x[..p] + x[p..q] + x[q..]
  {
  }

  /** Lines that stand on both sides. */
  method Keep(lines: seq<Line>) returns (ops: seq<Op>)
    ensures Turns(ops, lines, lines) && Kept(ops) == lines && forall k | 0 <= k < |ops| :: ops[k].kind == Same
  {
    ops := [];
    for i := 0 to |lines|
      invariant forall k | 0 <= k < |ops| :: ops[k].kind == Same
      invariant Turns(ops, lines[..i], lines[..i]) && Kept(ops) == lines[..i]
    {
      assert lines[..i + 1] == lines[..i] + [lines[i]];
      Extended(ops, Op(Same, lines[i]));
      ops := ops + [Op(Same, lines[i])];
    }
    assert lines[..|lines|] == lines;
  }

  /** Common ends may be cut off: a longest common subsequence of the middles
      and the ends make one of the wholes. */
  lemma Trimmed(pre: seq<Line>, x: seq<Line>, y: seq<Line>, post: seq<Line>, head: seq<Op>, middle: seq<Op>, tail: seq<Op>)
    requires Turns(head, pre, pre) && Kept(head) == pre
    requires Turns(middle, x, y) && |Kept(middle)| == Lcs(x, y)
    requires Turns(tail, post, post) && Kept(tail) == post
    ensures Turns(head + middle + tail, pre + x + post, pre + y + post)
    ensures |Kept(head + middle + tail)| == Lcs(pre + x + post, pre + y + post)
  {
    hide Lcs, Part;
    TrimmedPart(head, middle, tail, {Same, Del});
    TrimmedPart(head, middle, tail, {Same, Add});
    TrimmedPart(head, middle, tail, {Same});
    LcsPrefix(pre, x + post, y + post);
    LcsSuffix(x, y, post);
    assert pre + x + post == pre + (x + post) && pre + y + post == pre + (y + post);
  }

  lemma TrimmedOrder(head: seq<Op>, middle: seq<Op>, tail: seq<Op>)
    requires (forall k | 0 <= k < |head| :: head[k].kind == Same) && (forall k | 0 <= k < |tail| :: tail[k].kind == Same)
    requires DeletionsFirst(middle)
    ensures DeletionsFirst(head + middle + tail)
  {
    var ops := head + middle + tail;
    forall k | 0 < k < |ops| && ops[k].kind == Del
      ensures ops[k - 1].kind != Add
    {
      assert |head| <= k < |head| + |middle| && ops[k] == middle[k - |head|];
      if k > |head| {
        assert ops[k - 1] == middle[k - |head| - 1];
      }
    }
  }

  lemma TrimmedPart(head: seq<Op>, middle: seq<Op>, tail: seq<Op>, kinds: set<Kind>)
    ensures Part(head + middle + tail, kinds) == Part(head, kinds) + Part(middle, kinds) + Part(tail, kinds)
  {
    PartConcat(head + middle, tail, kinds);
    PartConcat(head, middle, kinds);
  }

  lemma Extended(ops: seq<Op>, op: Op)
    ensures Old(ops + [op]) == Old(ops) + (if op.kind == Add then [] else [op.line])
    ensures New(ops + [op]) == New(ops) + (if op.kind == Del then [] else [op.line])
    ensures Kept(ops + [op]) == Kept(ops) + (if op.kind == Same then [op.line] else [])
  {
    Snoc(ops, op, {Same, Del});
    Snoc(ops, op, {Same, Add});
    Snoc(ops, op, {Same});
  }
}
