/** The unified diff of two texts. */
module Unified {
  import opened Options
  import opened LineDiff
  import opened Patches
  import opened Hunks

  // -------------------------------------------------------- texts and lines

  /** The pieces between newlines. */
  function Split(s: string): (lines: seq<Line>)
    ensures lines != [] && forall i | 0 <= i < |lines| :: OneLine(lines[i])
  {
    if s == [] then [""]
    else
      var rest := Split(s[1..]);
      if s[0] == '\n' then [""] + rest else [[s[0]] + rest[0]] + rest[1..]
  }

  /** Drops the empty tail that a trailing newline produces. */
  function SplitLines(s: string): (lines: seq<Line>)
    ensures forall l | l in lines :: OneLine(l)
  {
    var lines := Split(s);
    if lines[|lines| - 1] == "" then lines[..|lines| - 1] else lines
  }

  /** Every line followed by a newline. */
  function Unlines(lines: seq<Line>): string {
    if lines == [] then "" else lines[0] + "\n" + Unlines(lines[1..])
  }

  predicate Complete(s: string) {
    s == "" || s[|s| - 1] == '\n'
  }

  /** The text with its last line completed. */
  function Completed(s: string): string {
    if Complete(s) then s else s + "\n"
  }

  lemma SplitLinesNewline(s: string)
    requires s != "" && s[0] == '\n'
    ensures SplitLines(s) == [""] + SplitLines(s[1..])
  {
  }

  lemma SplitLinesLetter(s: string)
    requires s != "" && s[0] != '\n'
    ensures
      var rest := SplitLines(s[1..]);
      SplitLines(s) == if rest == [] then [[s[0]]] else [[s[0]] + rest[0]] + rest[1..]
  {
    var r := Split(s[1..]);
    if |r| == 1 {
      assert Split(s) == [[s[0]] + r[0]];
      if r[0] == "" {
        assert SplitLines(s[1..]) == [] && [s[0]] + r[0] == [s[0]];
      }
    } else {
      assert Split(s)[|r| - 1] == r[|r| - 1];
    }
  }

  lemma UnlinesBlank(lines: seq<Line>)
    ensures Unlines([""] + lines) == "\n" + Unlines(lines)
  {
    assert ([""] + lines)[1..] == lines;
  }

  lemma UnlinesLetter(c: char, lines: seq<Line>)
    ensures lines == [] ==> Unlines([[c]]) == [c] + "\n"
    ensures lines != [] ==> Unlines([[c] + lines[0]] + lines[1..]) == [c] + Unlines(lines)
  {
    if lines == [] {
      assert [[c]][1..] == [];
    } else {
      var first := [c] + lines[0];
      assert ([first] + lines[1..])[1..] == lines[1..];
      assert first + "\n" + Unlines(lines[1..]) == [c] + (lines[0] + "\n" + Unlines(lines[1..]));
    }
  }

  /** The lines of a text, written out, are the completed text. */
  lemma {:induction false} UnlinesSplit(s: string)
    ensures Unlines(SplitLines(s)) == Completed(s)
    ensures s != "" ==> SplitLines(s) != []
  {
    if s == "" {
      EmptyText();
    } else {
      hide SplitLines, Unlines;
      UnlinesSplit(s[1..]);
      CompletedTail(s);
      UnlinesNothing();
      hide Completed, Complete;
      var lines := SplitLines(s[1..]);
      if s[0] == '\n' {
        SplitLinesNewline(s);
        UnlinesBlank(lines);
      } else {
        SplitLinesLetter(s);
        UnlinesLetter(s[0], lines);
      }
    }
  }

  lemma UnlinesNothing()
    ensures SplitLines("") == [] && Completed("") == ""
  {
  }

  lemma EmptyText()
    ensures SplitLines("") == []
  {
  }

  lemma CompletedTail(s: string)
    requires s != ""
    ensures Completed(s) == if s[1..] == "" && s[0] != '\n' then [s[0]] + "\n" else [s[0]] + Completed(s[1..])
  {
    assert s == [s[0]] + s[1..];
  }

  /** Written-out lines split into themselves. */
  lemma {:induction false} SplitUnlines(lines: seq<Line>)
    requires forall l | l in lines :: OneLine(l)
    ensures SplitLines(Unlines(lines)) == lines
  {
    hide SplitLines;
    if lines == [] {
      EmptyText();
    } else {
      SplitUnlines(lines[1..]);
      FirstLine(lines[0], Unlines(lines[1..]));
      assert [lines[0]] + lines[1..] == lines;
    }
  }

  lemma {:induction false} FirstLine(l: Line, rest: string)
    requires OneLine(l)
    ensures SplitLines(l + "\n" + rest) == [l] + SplitLines(rest)
  {
    hide SplitLines;
    var s := l + "\n" + rest;
    if l == "" {
      SplitLinesNewline(s);
      assert s[1..] == rest;
    } else {
      assert s[1..] == l[1..] + "\n" + rest;
      FirstLine(l[1..], rest);
      SplitLinesLetter(s);
      assert [s[0]] + l[1..] == l;
    }
  }

  /** `b` is `a` with the newline that its non-empty last line lacked. */
  predicate NewlineAdded(a: string, b: string) {
    a != "" && a[|a| - 1] != '\n' && b == a + "\n"
  }

  /** Two texts have the same lines exactly when they are equal or differ by one
      trailing newline after a non-empty last line. */
  lemma SameLines(a: string, b: string)
    ensures SplitLines(a) == SplitLines(b) <==> a == b || NewlineAdded(a, b) || NewlineAdded(b, a)
  {
    hide SplitLines;
    UnlinesSplit(a);
    UnlinesSplit(b);
    SplitUnlines(SplitLines(a));
    SplitUnlines(SplitLines(b));
    assert SplitLines(a) == SplitLines(b) <==> Completed(a) == Completed(b);
    if Completed(a) == Completed(b) && Complete(a) == Complete(b) {
      assert a == Completed(a)[..|a|] && b == Completed(b)[..|b|];
    }
  }

  /** Two texts that differ in trailing newlines only and still do not have the
      same lines. */
  lemma BlankLineCounts()
    ensures SplitLines("") != SplitLines("\n") && SplitLines("x\n") != SplitLines("x\n\n")
  {
    hide SplitLines;
    SameLines("", "\n");
    SameLines("x\n", "x\n\n");
  }

  // ------------------------------------------------------------------ method

  lemma {:induction false} NoChange(ops: seq<Op>)
    requires Old(ops) == New(ops) && |Kept(ops)| == Lcs(Old(ops), New(ops))
    ensures forall k :: !Changed(ops, k)
  {
    LcsSelf(Old(ops));
    ScriptLength(ops);
    hide Lcs;
    AllKept(ops);
  }

  lemma {:induction false} LcsSelf(a: seq<Line>)
    ensures Lcs(a, a) == |a|
  {
    if a != [] {
      LcsSelf(a[1..]);
    }
  }

  lemma {:induction false} AllKept(ops: seq<Op>)
    requires |Kept(ops)| >= |ops|
    ensures forall k :: !Changed(ops, k)
  {
    if ops != [] {
      PartFirst(ops, {Same});
      KeptAtMost(ops[1..]);
      AllKept(ops[1..]);
      forall k
        ensures !Changed(ops, k)
      {
        assert 0 < k < |ops| ==> ops[k] == ops[1..][k - 1] && !Changed(ops[1..], k - 1);
      }
    }
  }

  lemma {:induction false} KeptAtMost(ops: seq<Op>)
    ensures |Kept(ops)| <= |ops|
  {
    if ops != [] {
      KeptAtMost(ops[1..]);
      PartFirst(ops, {Same});
    }
  }

  lemma {:induction false} LineOnASide(ops: seq<Op>, op: Op)
    requires op in ops
    ensures op.line in Old(ops) || op.line in New(ops)
  {
    if op == ops[0] {
      assert op.kind == Add || op.kind in {Same, Del};
    } else {
      assert op in ops[1..];
      LineOnASide(ops[1..], op);
    }
  }

  lemma ScriptPrintable(ops: seq<Op>)
    requires (forall l | l in Old(ops) :: OneLine(l)) && (forall l | l in New(ops) :: OneLine(l))
    ensures Printable(ops)
  {
    hide Part;
    forall op | op in ops
      ensures OneLine(op.line)
    {
      LineOnASide(ops, op);
    }
  }

  lemma NothingGrouped(ops: seq<Op>)
    requires forall k :: !Changed(ops, k)
    ensures Grouped(ops, [], |ops|) && PatchText(HunksOf(ops, [])) == "" && Old(ops) == New(ops)
  {
    Unchanged(ops);
  }

  /** The hunks are those of a shortest script from the one text's lines to the
      other's, each change with its context. */
  ghost predicate IsDiff(a: seq<Line>, b: seq<Line>, ops: seq<Op>, rs: seq<Range>, out: string) {
    && Turns(ops, a, b) && |Kept(ops)| == Lcs(a, b) && DeletionsFirst(ops)
    && Grouped(ops, rs, |ops|) && out == PatchText(HunksOf(ops, rs))
  }

  /** The diff of two texts; it is empty exactly when they have the same lines. */
  method UnifiedDiff(a: string, b: string) returns (out: string, ghost ops: seq<Op>, ghost rs: seq<Range>)
    ensures IsDiff(SplitLines(a), SplitLines(b), ops, rs, out)
    ensures out == "" <==> SplitLines(a) == SplitLines(b)
  {
    hide SplitLines, Lcs, Part, PatchText, HunksOf, Grouped;
    var script := DiffOps(SplitLines(a), SplitLines(b));
    ops, rs := script, [];
    var changed, i := false, 0;
    while i < |script| && !changed
      invariant 0 <= i <= |script|
      invariant changed ==> exists k :: Changed(script, k)
      invariant !changed ==> forall k | 0 <= k < i :: !Changed(script, k)
    {
      if script[i].kind != Same {
        assert Changed(script, i);
        changed := true;
      }
      i := i + 1;
    }
    if !changed {
      NothingGrouped(ops);
      return "", ops, rs;
    }
    out, rs := RenderHunks(script);
    if SplitLines(a) == SplitLines(b) {
      NoChange(ops);
    }
  }

  /** The patch round trip: the printed diff reads back by its header counts, and
      the hunks turn the one text's lines into the other's. */
  lemma PatchRoundTrip(a: string, b: string, ops: seq<Op>, rs: seq<Range>, out: string)
    requires IsDiff(SplitLines(a), SplitLines(b), ops, rs, out)
    ensures
      var hs := ReadPatch(out);
      hs == Some(HunksOf(ops, rs)) && Apply(SplitLines(a), 0, 0, hs.value) == Some(SplitLines(b))
  {
    hide SplitLines, Lcs, Part, Apply, ReadPatch, PatchText, Covered, Near, Wide, Dense;
    ScriptPrintable(ops);
    HunksReadable(ops, rs);
    HunksApply(ops, rs);
  }

  /** No script between the two texts has fewer edits than the printed one. */
  lemma FewestEdits(a: seq<Line>, b: seq<Line>, ops: seq<Op>, rs: seq<Range>, out: string, other: seq<Op>)
    requires IsDiff(a, b, ops, rs, out) && Turns(other, a, b)
    ensures |ops| - |Kept(ops)| <= |other| - |Kept(other)|
  {
    hide Lcs, Grouped, HunksOf, PatchText;
    ShortestScript(ops, other);
    ScriptLength(ops);
    ScriptLength(other);
  }
}
