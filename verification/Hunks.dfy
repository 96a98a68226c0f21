/** Grouping the changes of a script into hunks with context, and printing them. */
module Hunks {
  import opened Options
  import opened Decimal
  import opened LineDiff
  import opened Patches

  const CONTEXT := 3

  /** The operations start, …, end - 1. */
  datatype Range = Range(start: nat, end: nat)

  predicate Changed(ops: seq<Op>, k: int) {
    0 <= k < |ops| && ops[k].kind != Same
  }

  predicate Inside(r: Range, k: int) {
    r.start <= k < r.end
  }

  ghost predicate Covered(rs: seq<Range>, k: int) {
    exists i :: 0 <= i < |rs| && Inside(rs[i], k)
  }

  /** Within three lines of a change that lies below `bound`. */
  ghost predicate Near(ops: seq<Op>, k: int, bound: int) {
    exists c :: Changed(ops, c) && c < bound && c - CONTEXT <= k <= c + CONTEXT
  }

  ghost predicate NearTo(ops: seq<Op>, k: int, last: int) {
    Near(ops, k, last + 1)
  }

  /** Two changes with only unchanged lines between them. */
  predicate Adjacent(ops: seq<Op>, c: int, d: int) {
    Changed(ops, c) && Changed(ops, d) && c < d && forall k | c < k < d :: !Changed(ops, k)
  }

  predicate Ordered(ops: seq<Op>, rs: seq<Range>) {
    && (forall i | 0 <= i < |rs| :: rs[i].start < rs[i].end <= |ops|)
    && (forall i, j | 0 <= i < j < |rs| :: rs[i].end <= rs[j].start)
  }

  /** Full context on either side, as far as the script goes. */
  ghost predicate Wide(ops: seq<Op>, r: Range) {
    forall c | Inside(r, c) && Changed(ops, c) ::
      (forall k | c - CONTEXT <= k <= c + CONTEXT && 0 <= k < |ops| :: Inside(r, k))
  }

  /** Neighbouring changes of one hunk are at most six positions apart. */
  ghost predicate Dense(ops: seq<Op>, from: int, to: int) {
    forall c, d | from <= c && d < to && Adjacent(ops, c, d) :: d - c <= 2 * CONTEXT
  }

  /** The hunks for all changes below `bound`. */
  ghost predicate Grouped(ops: seq<Op>, rs: seq<Range>, bound: int) {
    && Ordered(ops, rs)
    && (forall k | 0 <= k < |ops| :: Covered(rs, k) <==> Near(ops, k, bound))
    && (forall i | 0 <= i < |rs| :: Wide(ops, rs[i]) && Dense(ops, rs[i].start, rs[i].end))
  }

  /** Every change stands in exactly one hunk. */
  lemma ChangeInOneHunk(ops: seq<Op>, rs: seq<Range>, k: int)
    requires Grouped(ops, rs, |ops|) && Changed(ops, k)
    ensures exists i :: 0 <= i < |rs| && Inside(rs[i], k)
    ensures forall i, j | 0 <= i < |rs| && 0 <= j < |rs| && Inside(rs[i], k) && Inside(rs[j], k) :: i == j
  {
    assert Near(ops, k, |ops|);
    assert Covered(rs, k);
  }

  /** A line is printed exactly if a change stands within three lines of it. */
  lemma ShownIff(ops: seq<Op>, rs: seq<Range>, k: int)
    requires Grouped(ops, rs, |ops|) && 0 <= k < |ops|
    ensures Covered(rs, k) <==> exists c :: Changed(ops, c) && c - 3 <= k <= c + 3
  {
    assert Covered(rs, k) <==> Near(ops, k, |ops|);
  }

  /** Neighbouring changes share a hunk exactly when fewer than six unchanged
      lines stand between them. */
  lemma HunkBoundary(ops: seq<Op>, rs: seq<Range>, c: int, d: int)
    requires Grouped(ops, rs, |ops|) && Adjacent(ops, c, d)
    ensures d - c - 1 < 6 <==> exists i :: 0 <= i < |rs| && Inside(rs[i], c) && Inside(rs[i], d)
  {
    ChangeInOneHunk(ops, rs, c);
    ChangeInOneHunk(ops, rs, d);
    var i :| 0 <= i < |rs| && Inside(rs[i], c);
    var j :| 0 <= j < |rs| && Inside(rs[j], d);
    assert Wide(ops, rs[i]) && Wide(ops, rs[j]) && Dense(ops, rs[i].start, rs[i].end);
    if i != j {
      assert c + CONTEXT < |ops| ==> Inside(rs[i], c + CONTEXT);
      assert 0 <= d - CONTEXT ==> Inside(rs[j], d - CONTEXT);
    }
  }

  // ------------------------------------------------------------ one more group

  /** A run of changes from `first` to `last` with small gaps. */
  ghost predicate Run(ops: seq<Op>, first: int, last: int) {
    && Changed(ops, first) && Changed(ops, last) && first <= last
    && Dense(ops, first, last + 1)
    && (forall k | first - CONTEXT <= k <= last + CONTEXT :: NearTo(ops, k, last))
  }

  lemma RunStart(ops: seq<Op>, first: int)
    requires Changed(ops, first)
    ensures Run(ops, first, first)
  {
  }

  lemma RunExtends(ops: seq<Op>, first: int, last: int, next: int)
    requires Run(ops, first, last) && Adjacent(ops, last, next) && next - last <= 2 * CONTEXT
    ensures Run(ops, first, next)
  {
    forall k | first - CONTEXT <= k <= next + CONTEXT
      ensures NearTo(ops, k, next)
    {
      if k <= last + CONTEXT {
        assert NearTo(ops, k, last);
      }
    }
    forall c, d | first <= c && d < next + 1 && Adjacent(ops, c, d)
      ensures d - c <= 2 * CONTEXT
    {
      if d == next {
        assert c == last;
      } else {
        assert d < last + 1;
      }
    }
  }

  function Span(ops: seq<Op>, first: int, last: int): Range
    requires 0 <= first <= last < |ops|
  {
    Range(if first >= CONTEXT then first - CONTEXT else 0, if last + CONTEXT + 1 <= |ops| then last + CONTEXT + 1 else |ops|)
  }

  lemma AddGroup(ops: seq<Op>, rs: seq<Range>, first: int, last: int, bound: int)
    requires Grouped(ops, rs, first) && Run(ops, first, last) && last < bound <= |ops|
    requires forall k | last < k < bound :: !Changed(ops, k)
    requires rs != [] ==> rs[|rs| - 1].end <= first - CONTEXT
    requires bound < |ops| ==> bound - last > 2 * CONTEXT && Changed(ops, bound)
    ensures Grouped(ops, rs + [Span(ops, first, last)], bound)
    ensures bound < |ops| ==> Span(ops, first, last).end <= bound - CONTEXT
  {
    var r := Span(ops, first, last);
    var rs' := rs + [r];
    assert Ordered(ops, rs');
    assert Wide(ops, r) && Dense(ops, r.start, r.end) by {
      NoChangeAround(ops, rs, first, last, bound);
    }
    forall k | 0 <= k < |ops|
      ensures Covered(rs', k) <==> Near(ops, k, bound)
    {
      CoverStep(ops, rs, first, last, bound, k);
    }
    forall i | 0 <= i < |rs'|
      ensures Wide(ops, rs'[i]) && Dense(ops, rs'[i].start, rs'[i].end)
    {
      if i < |rs| {
        assert rs'[i] == rs[i];
      }
    }
  }

  /** The only changes in the span of a group are those of the group. */
  lemma NoChangeAround(ops: seq<Op>, rs: seq<Range>, first: int, last: int, bound: int)
    requires Grouped(ops, rs, first) && Run(ops, first, last) && last < bound <= |ops|
    requires forall k | last < k < bound :: !Changed(ops, k)
    requires rs != [] ==> rs[|rs| - 1].end <= first - CONTEXT
    requires bound < |ops| ==> bound - last > 2 * CONTEXT && Changed(ops, bound)
    ensures forall c | Inside(Span(ops, first, last), c) && Changed(ops, c) :: first <= c <= last
  {
    forall c | Inside(Span(ops, first, last), c) && Changed(ops, c)
      ensures first <= c <= last
    {
      if c < first {
        assert Near(ops, c, first);
      }
    }
  }

  lemma CoverStep(ops: seq<Op>, rs: seq<Range>, first: int, last: int, bound: int, k: int)
    requires Grouped(ops, rs, first) && Run(ops, first, last) && last < bound <= |ops| && 0 <= k < |ops|
    requires forall k | last < k < bound :: !Changed(ops, k)
    ensures Covered(rs + [Span(ops, first, last)], k) <==> Near(ops, k, bound)
  {
    var r := Span(ops, first, last);
    var rs' := rs + [r];
    if Near(ops, k, bound) {
      var c :| Changed(ops, c) && c < bound && c - CONTEXT <= k <= c + CONTEXT;
      if c < first {
        assert Near(ops, k, first);
        var i :| 0 <= i < |rs| && Inside(rs[i], k);
        assert Inside(rs'[i], k);
      } else {
        assert c <= last;
        assert Inside(rs'[|rs|], k);
      }
    }
    if Covered(rs', k) {
      var i :| 0 <= i < |rs'| && Inside(rs'[i], k);
      if i < |rs| {
        assert Inside(rs[i], k);
        assert Near(ops, k, first);
      } else {
        assert NearTo(ops, k, last);
      }
    }
  }

  // ------------------------------------------------------------------- hunks

  /** The number of the first line of a range, or of the line before it. */
  function Start(before: nat, count: nat): nat {
    if count == 0 then before else before + 1
  }

  function HunkAt(ops: seq<Op>, r: Range): Hunk
    requires r.start <= r.end <= |ops|
  {
    var body := ops[r.start..r.end];
    Hunk(Start(|Old(ops[..r.start])|, |Old(body)|), |Old(body)|, Start(|New(ops[..r.start])|, |New(body)|), |New(body)|, body)
  }

  function HunksOf(ops: seq<Op>, rs: seq<Range>): seq<Hunk>
    requires Ordered(ops, rs)
  {
    seq(|rs|, i requires 0 <= i < |rs| => HunkAt(ops, rs[i]))
  }

  // ---------------------------------------------------------------- applying

  lemma OldNewConcat(x: seq<Op>, y: seq<Op>)
    ensures Old(x + y) == Old(x) + Old(y) && New(x + y) == New(x) + New(y)
  {
    PartConcat(x, y, {Same, Del});
    PartConcat(x, y, {Same, Add});
  }

  lemma {:induction false} Unchanged(ops: seq<Op>)
    requires forall k | 0 <= k < |ops| :: !Changed(ops, k)
    ensures Old(ops) == New(ops)
  {
    if ops != [] {
      assert !Changed(ops, 0);
      forall k | 0 <= k < |ops[1..]|
        ensures !Changed(ops[1..], k)
      {
        assert !Changed(ops, k + 1);
      }
      Unchanged(ops[1..]);
    }
  }

  /** A stretch of the script, in terms of the old text. */
  lemma OldSlice(ops: seq<Op>, k: nat, m: nat)
    requires k <= m <= |ops|
    ensures |Old(ops[..m])| == |Old(ops[..k])| + |Old(ops[k..m])| && |New(ops[..m])| == |New(ops[..k])| + |New(ops[k..m])|
    ensures |Old(ops[..m])| <= |Old(ops)|
    ensures Old(ops)[|Old(ops[..k])|..|Old(ops[..m])|] == Old(ops[k..m])
  {
    assert ops[..m] == ops[..k] + ops[k..m];
    assert ops == ops[..m] + ops[m..];
    OldNewConcat(ops[..k], ops[k..m]);
    OldNewConcat(ops[..m], ops[m..]);
  }

  /** All changes from `k` on stand in hunks from number `i` on. */
  ghost predicate Pending(ops: seq<Op>, rs: seq<Range>, i: nat, k: nat) {
    && (i < |rs| ==> k <= rs[i].start)
    && forall c | k <= c && Changed(ops, c) :: exists j :: i <= j < |rs| && Inside(rs[j], c)
  }

  lemma PendingNext(ops: seq<Op>, rs: seq<Range>, i: nat, k: nat)
    requires Ordered(ops, rs) && i < |rs| && Pending(ops, rs, i, k)
    ensures Pending(ops, rs, i + 1, rs[i].end) && forall c | k <= c < rs[i].start :: !Changed(ops, c)
  {
    forall c | rs[i].end <= c && Changed(ops, c)
      ensures exists j :: i + 1 <= j < |rs| && Inside(rs[j], c)
    {
      var j :| i <= j < |rs| && Inside(rs[j], c);
      assert i + 1 <= j;
    }
  }

  /** From the end of one hunk on: the remaining hunks turn the remaining old
      lines into the remaining new ones. */
  lemma {:induction false} ApplyFrom(ops: seq<Op>, rs: seq<Range>, i: nat, k: nat)
    requires Ordered(ops, rs) && i <= |rs| && k <= |ops| && Pending(ops, rs, i, k)
    ensures |Old(ops[..k])| <= |Old(ops)|
    ensures Apply(Old(ops), |Old(ops[..k])|, |New(ops[..k])|, HunksOf(ops, rs)[i..]) == Some(New(ops[k..]))
    decreases |rs| - i
  {
    hide Part, Apply, HunkAt;
    OldSlice(ops, k, |ops|);
    assert ops[..|ops|] == ops;
    if i == |rs| {
      ApplyRest(ops, k, HunksOf(ops, rs)[i..]);
    } else {
      hide Pending;
      var r := rs[i];
      PendingNext(ops, rs, i, k);
      PendingStart(ops, rs, i, k);
      ApplyFrom(ops, rs, i + 1, r.end);
      assert HunksOf(ops, rs)[i..][0] == HunkAt(ops, r);
      assert HunksOf(ops, rs)[i..][1..] == HunksOf(ops, rs)[i + 1..];
      ApplyStep(ops, k, r, HunksOf(ops, rs)[i..]);
    }
  }

  lemma PendingStart(ops: seq<Op>, rs: seq<Range>, i: nat, k: nat)
    requires i < |rs| && Pending(ops, rs, i, k)
    ensures k <= rs[i].start
  {
  }

  lemma ApplyRest(ops: seq<Op>, k: nat, hs: seq<Hunk>)
    requires k <= |ops| && hs == [] && forall c | k <= c < |ops| :: !Changed(ops, c)
    ensures |Old(ops[..k])| <= |Old(ops)| && Apply(Old(ops), |Old(ops[..k])|, |New(ops[..k])|, hs) == Some(New(ops[k..]))
  {
    OldSlice(ops, k, |ops|);
    assert ops[..|ops|] == ops;
    Unshifted(ops, k, |ops|);
    assert ops[k..|ops|] == ops[k..];
    assert Old(ops)[|Old(ops[..k])|..] == Old(ops[k..]);
  }

  lemma Unshifted(ops: seq<Op>, k: nat, m: nat)
    requires k <= m <= |ops| && forall c | k <= c < m :: !Changed(ops, c)
    ensures Old(ops[k..m]) == New(ops[k..m])
  {
    forall c | 0 <= c < m - k
      ensures !Changed(ops[k..m], c)
    {
      assert !Changed(ops, k + c);
    }
    Unchanged(ops[k..m]);
  }

  lemma ApplyStep(ops: seq<Op>, k: nat, r: Range, hs: seq<Hunk>)
    requires k <= r.start <= r.end <= |ops| && hs != [] && hs[0] == HunkAt(ops, r)
    requires forall c | k <= c < r.start :: !Changed(ops, c)
    requires |Old(ops[..k])| <= |Old(ops)| && |Old(ops[..r.end])| <= |Old(ops)|
    requires Apply(Old(ops), |Old(ops[..r.end])|, |New(ops[..r.end])|, hs[1..]) == Some(New(ops[r.end..]))
    ensures Apply(Old(ops), |Old(ops[..k])|, |New(ops[..k])|, hs) == Some(New(ops[k..]))
  {
    hide Part;
    OldSlice(ops, k, r.start);
    OldSlice(ops, r.start, r.end);
    Unshifted(ops, k, r.start);
    assert ops[k..] == ops[k..r.start] + ops[r.start..r.end] + ops[r.end..];
    OldNewConcat(ops[k..r.start] + ops[r.start..r.end], ops[r.end..]);
    OldNewConcat(ops[k..r.start], ops[r.start..r.end]);
  }

  /** Applying the hunks of a script to its old text gives its new text. */
  lemma HunksApply(ops: seq<Op>, rs: seq<Range>)
    requires Grouped(ops, rs, |ops|)
    ensures Apply(Old(ops), 0, 0, HunksOf(ops, rs)) == Some(New(ops))
  {
    forall c | 0 <= c && Changed(ops, c)
      ensures exists j :: 0 <= j < |rs| && Inside(rs[j], c)
    {
      ChangeInOneHunk(ops, rs, c);
    }
    hide Grouped;
    ApplyFrom(ops, rs, 0, 0);
    assert ops[..0] == [] && ops[0..] == ops && HunksOf(ops, rs)[0..] == HunksOf(ops, rs);
  }

  /** The hunks of a script, printed, can be read back. */
  lemma HunksReadable(ops: seq<Op>, rs: seq<Range>)
    requires Ordered(ops, rs) && Printable(ops)
    ensures ReadPatch(PatchText(HunksOf(ops, rs))) == Some(HunksOf(ops, rs))
  {
    hide ReadPatch, PatchText;
    PatchBack(HunksOf(ops, rs));
  }

  // ---------------------------------------------------------------- printing

  /** The positions of the changes, in order. */
  ghost predicate AllChanges(ops: seq<Op>, changes: seq<nat>, upTo: int) {
    && (forall i | 0 <= i < |changes| :: Changed(ops, changes[i]) && changes[i] < upTo)
    && (forall i, j | 0 <= i < j < |changes| :: changes[i] < changes[j])
    && (forall k | Changed(ops, k) && k < upTo :: k in changes)
  }

  lemma ConsecutiveChanges(ops: seq<Op>, changes: seq<nat>, i: nat)
    requires AllChanges(ops, changes, |ops|) && i < |changes|
    ensures i + 1 < |changes| ==> Adjacent(ops, changes[i], changes[i + 1])
    ensures i + 1 == |changes| ==> forall k | changes[i] < k < |ops| :: !Changed(ops, k)
    ensures i == 0 ==> forall k | k < changes[0] :: !Changed(ops, k)
  {
    forall k | Changed(ops, k)
      ensures exists j :: 0 <= j < |changes| && changes[j] == k
    {
      assert k in changes;
    }
  }

  /** The lines of either side that precede each operation. */
  method Counts(ops: seq<Op>) returns (aAt: array<nat>, bAt: array<nat>)
    ensures fresh(aAt) && fresh(bAt) && aAt.Length == |ops| + 1 && bAt.Length == |ops| + 1
    ensures forall i | 0 <= i <= |ops| :: aAt[i] == |Old(ops[..i])| && bAt[i] == |New(ops[..i])|
  {
    aAt, bAt := new nat[|ops| + 1], new nat[|ops| + 1];
    aAt[0], bAt[0] := 0, 0;
    for i := 0 to |ops|
      invariant forall k | 0 <= k <= i :: aAt[k] == |Old(ops[..k])| && bAt[k] == |New(ops[..k])|
    {
      assert ops[..i + 1] == ops[..i] + [ops[i]];
      Extended(ops[..i], ops[i]);
      aAt[i + 1], bAt[i + 1] := aAt[i], bAt[i];
      if ops[i].kind != Add {
        aAt[i + 1] := aAt[i + 1] + 1;
      }
      if ops[i].kind != Del {
        bAt[i + 1] := bAt[i + 1] + 1;
      }
    }
  }

  method Changes(ops: seq<Op>) returns (changes: seq<nat>)
    ensures AllChanges(ops, changes, |ops|)
  {
    changes := [];
    for i := 0 to |ops|
      invariant AllChanges(ops, changes, i)
    {
      if ops[i].kind != Same {
        changes := changes + [i];
      }
    }
  }

  /** The last change of the group that starts at change number `c`. */
  method GroupEnd(ops: seq<Op>, changes: seq<nat>, c: nat) returns (last: nat)
    requires AllChanges(ops, changes, |ops|) && c < |changes|
    ensures c <= last < |changes| && Run(ops, changes[c], changes[last]) && changes[c] <= changes[last] < |ops|
    ensures last + 1 < |changes| ==> changes[last + 1] - changes[last] > 2 * CONTEXT
  {
    last := c;
    RunStart(ops, changes[c]);
    while last + 1 < |changes| && changes[last + 1] - changes[last] <= 2 * CONTEXT
      invariant c <= last < |changes| && Run(ops, changes[c], changes[last])
    {
      ConsecutiveChanges(ops, changes, last);
      RunExtends(ops, changes[c], changes[last], changes[last + 1]);
      last := last + 1;
    }
  }

  method PrintBody(ops: seq<Op>, start: nat, end: nat) returns (out: string)
    requires start <= end <= |ops|
    ensures out == BodyText(ops[start..end])
  {
    out := "";
    for i := start to end
      invariant out == BodyText(ops[start..i])
    {
      BodyTextSnoc(ops[start..i], ops[i]);
      assert ops[start..i + 1] == ops[start..i] + [ops[i]];
      out := out + OpText(ops[i]);
    }
  }

  /** Position of the change number `c`, or the end. */
  function Bound(ops: seq<Op>, changes: seq<nat>, c: nat): nat {
    if c < |changes| then changes[c] else |ops|
  }

  /** One hunk: header and body. */
  method PrintHunk(ops: seq<Op>, aAt: array<nat>, bAt: array<nat>, start: nat, end: nat) returns (out: string)
    requires start <= end < |ops| && aAt.Length == |ops| + 1 && bAt.Length == |ops| + 1
    requires forall i | 0 <= i <= |ops| :: aAt[i] == |Old(ops[..i])| && bAt[i] == |New(ops[..i])|
    ensures out == HunkText(HunkAt(ops, Range(start, end + 1)))
  {
    hide Part, HeaderText, BodyText;
    OldSlice(ops, start, end + 1);
    var aCount, bCount := aAt[end + 1] - aAt[start], bAt[end + 1] - bAt[start];
    var aStart, bStart := aAt[start] + 1, bAt[start] + 1;
    if aCount == 0 {
      aStart := aStart - 1;
    }
    if bCount == 0 {
      bStart := bStart - 1;
    }
    var body := PrintBody(ops, start, end + 1);
    out := HeaderText(Hunk(aStart, aCount, bStart, bCount, ops[start..end + 1])) + body;
  }

  /** Prints the changes in hunks with their context. */
  method RenderHunks(ops: seq<Op>) returns (out: string, ghost rs: seq<Range>)
    ensures Grouped(ops, rs, |ops|) && out == PatchText(HunksOf(ops, rs))
    ensures out == "" <==> forall k :: !Changed(ops, k)
  {
    hide Grouped, Run, HunksOf, Part, PatchText, HunkText, HunkAt, AllChanges;
    var aAt, bAt := Counts(ops);
    var changes := Changes(ops);
    out, rs := "", [];
    NoGroups(ops, changes);
    var c := 0;
    while c < |changes|
      invariant c <= |changes| && Grouped(ops, rs, Bound(ops, changes, c)) && Ordered(ops, rs)
      invariant rs != [] && c < |changes| ==> rs[|rs| - 1].end <= changes[c] - CONTEXT
      invariant out == PatchText(HunksOf(ops, rs))
      invariant forall i | 0 <= i <= |ops| :: aAt[i] == |Old(ops[..i])| && bAt[i] == |New(ops[..i])|
    {
      var last := GroupEnd(ops, changes, c);
      var start := if changes[c] >= CONTEXT then changes[c] - CONTEXT else 0;
      var end := if changes[last] + CONTEXT <= |ops| - 1 then changes[last] + CONTEXT else |ops| - 1;
      var hunk := PrintHunk(ops, aAt, bAt, start, end);
      out := out + hunk;
      ghost var r := Span(ops, changes[c], changes[last]);
      NextGroup(ops, rs, changes, c, last);
      HunksSnoc(ops, rs, r);
      PatchTextSnoc(HunksOf(ops, rs), HunkAt(ops, r));
      rs := rs + [r];
      c := last + 1;
    }
    TextIffChange(ops, rs);
  }

  lemma SomeText(ops: seq<Op>, rs: seq<Range>, k: int)
    requires Grouped(ops, rs, |ops|) && Changed(ops, k)
    ensures PatchText(HunksOf(ops, rs)) != ""
  {
    ChangeInOneHunk(ops, rs, k);
    HeaderLong(HunksOf(ops, rs)[0]);
  }

  lemma TextIffChange(ops: seq<Op>, rs: seq<Range>)
    requires Grouped(ops, rs, |ops|)
    ensures PatchText(HunksOf(ops, rs)) == "" <==> forall k :: !Changed(ops, k)
  {
    if k :| Changed(ops, k) {
      SomeText(ops, rs, k);
    } else if rs != [] {
      assert Covered(rs, rs[0].start);
    }
  }

  lemma NoGroups(ops: seq<Op>, changes: seq<nat>)
    requires AllChanges(ops, changes, |ops|)
    ensures Grouped(ops, [], Bound(ops, changes, 0)) && PatchText(HunksOf(ops, [])) == ""
  {
    if changes != [] {
      ConsecutiveChanges(ops, changes, 0);
    }
  }

  lemma NextGroup(ops: seq<Op>, rs: seq<Range>, changes: seq<nat>, c: nat, last: nat)
    requires AllChanges(ops, changes, |ops|) && c <= last < |changes| && Grouped(ops, rs, changes[c])
    requires Run(ops, changes[c], changes[last])
    requires last + 1 < |changes| ==> changes[last + 1] - changes[last] > 2 * CONTEXT
    requires rs != [] ==> rs[|rs| - 1].end <= changes[c] - CONTEXT
    ensures var r := Span(ops, changes[c], changes[last]);
            && Grouped(ops, rs + [r], Bound(ops, changes, last + 1)) && Ordered(ops, rs + [r])
            && (last + 1 < |changes| ==> r.end <= changes[last + 1] - CONTEXT)
  {
    ConsecutiveChanges(ops, changes, last);
    AddGroup(ops, rs, changes[c], changes[last], Bound(ops, changes, last + 1));
  }

  lemma HunksSnoc(ops: seq<Op>, rs: seq<Range>, r: Range)
    requires Ordered(ops, rs) && Ordered(ops, rs + [r])
    ensures HunksOf(ops, rs + [r]) == HunksOf(ops, rs) + [HunkAt(ops, (rs + [r])[|rs|])]
  {
    hide HunkAt;
  }
}
