/** Unified-diff text: how hunks are printed, how a reader takes them back by
    their header counts, and what applying them does. */
module Patches {
  import opened Options
  import opened Decimal
  import opened LineDiff

  datatype Hunk = Hunk(aStart: nat, aCount: nat, bStart: nat, bCount: nat, body: seq<Op>)

  predicate OneLine(line: Line) {
    '\n' !in line
  }

  predicate Printable(ops: seq<Op>) {
    forall op | op in ops :: OneLine(op.line)
  }

  // ---------------------------------------------------------------- printing

  function Sign(kind: Kind): char {
    match kind case Same => ' ' case Del => '-' case Add => '+'
  }

  function OpText(op: Op): string {
    [Sign(op.kind)] + (op.line + "\n")
  }

  function BodyText(ops: seq<Op>): string {
    if ops == [] then "" else OpText(ops[0]) + BodyText(ops[1..])
  }

  function HeaderText(h: Hunk): string {
    "@@ -" + (Digits(h.aStart) + ("," + (Digits(h.aCount) + (" +" + (Digits(h.bStart) + ("," + (Digits(h.bCount) + " @@\n")))))))
  }

  function HunkText(h: Hunk): string {
    HeaderText(h) + BodyText(h.body)
  }

  function PatchText(hs: seq<Hunk>): string {
    if hs == [] then "" else HunkText(hs[0]) + PatchText(hs[1..])
  }

  lemma {:induction false} BodyTextSnoc(ops: seq<Op>, op: Op)
    ensures BodyText(ops + [op]) == BodyText(ops) + OpText(op)
  {
    if ops == [] {
      assert ops + [op] == [op] && [op][1..] == [];
      assert BodyText([op]) == OpText(op) + "";
    } else {
      assert (ops + [op])[1..] == ops[1..] + [op];
      BodyTextSnoc(ops[1..], op);
    }
  }

  lemma {:induction false} PatchTextSnoc(hs: seq<Hunk>, h: Hunk)
    ensures PatchText(hs + [h]) == PatchText(hs) + HunkText(h)
  {
    hide HunkText;
    if hs == [] {
      assert hs + [h] == [h] && [h][1..] == [];
      assert PatchText([h]) == HunkText(h) + "";
    } else {
      assert (hs + [h])[1..] == hs[1..] + [h];
      PatchTextSnoc(hs[1..], h);
    }
  }

  // ----------------------------------------------------------------- reading

  function Expect(prefix: string, s: string): Option<string> {
    if prefix <= s then Some(s[|prefix|..]) else None
  }

  function DigitSpan(s: string): (n: nat)
    ensures n <= |s|
  {
    if s == [] || !IsDigit(s[0]) then 0 else 1 + DigitSpan(s[1..])
  }

  function TakeNat(s: string): Option<(nat, string)> {
    var n := DigitSpan(s);
    if n == 0 then None else Some((Value(s[..n]), s[n..]))
  }

  function TakeLine(s: string): Option<(Line, string)> {
    if s == [] then None
    else if s[0] == '\n' then Some(("", s[1..]))
    else match TakeLine(s[1..])
         case Some(r) => Some(([s[0]] + r.0, r.1))
         case None => None
  }

  function TakePair(s: string): Option<(nat, nat, string)> {
    match TakeNat(s)
    case None => None
    case Some(x) =>
      match Expect(",", x.1)
      case None => None
      case Some(s1) =>
        match TakeNat(s1)
        case None => None
        case Some(y) => Some((x.0, y.0, y.1))
  }

  /** "@@ -i,n +j,m @@". */
  function TakeHeader(s: string): Option<(Hunk, string)> {
    match Expect("@@ -", s)
    case None => None
    case Some(s1) =>
      match TakePair(s1)
      case None => None
      case Some(x) =>
        match Expect(" +", x.2)
        case None => None
        case Some(s2) =>
          match TakePair(s2)
          case None => None
          case Some(y) =>
            match Expect(" @@\n", y.2)
            case None => None
            case Some(s3) => Some((Hunk(x.0, x.1, y.0, y.1, []), s3))
  }

  function KindOf(c: char): Option<Kind> {
    if c == ' ' then Some(Same) else if c == '-' then Some(Del) else if c == '+' then Some(Add) else None
  }

  /** Body lines until the header's counts are used up. */
  function TakeBody(s: string, na: nat, nb: nat): Option<(seq<Op>, string)>
    decreases na + nb
  {
    if na == 0 && nb == 0 then Some(([], s))
    else if s == [] then None
    else match KindOf(s[0])
         case None => None
         case Some(kind) =>
           if (kind != Add && na == 0) || (kind != Del && nb == 0) then None
           else match TakeLine(s[1..])
                case None => None
                case Some(l) =>
                  match TakeBody(l.1, if kind == Add then na else na - 1, if kind == Del then nb else nb - 1)
                  case None => None
                  case Some(rest) => Some(([Op(kind, l.0)] + rest.0, rest.1))
  }

  function TakeHunk(s: string): Option<(Hunk, string)> {
    match TakeHeader(s)
    case None => None
    case Some(h) =>
      match TakeBody(h.1, h.0.aCount, h.0.bCount)
      case None => None
      case Some(b) => Some((h.0.(body := b.0), b.1))
  }

  function ReadPatch(s: string): Option<seq<Hunk>>
    decreases |s|
  {
    if s == [] then Some([])
    else match TakeHunk(s)
         case None => None
         case Some(h) =>
           if |h.1| >= |s| then None
           else match ReadPatch(h.1)
                case None => None
                case Some(hs) => Some([h.0] + hs)
  }

  // -------------------------------------------------------------- round trip

  lemma ExpectIt(prefix: string, rest: string)
    ensures Expect(prefix, prefix + rest) == Some(rest)
  {
  }

  lemma {:induction false} SpanOf(ds: string, rest: string)
    requires (forall c | c in ds :: IsDigit(c)) && (rest == [] || !IsDigit(rest[0]))
    ensures DigitSpan(ds + rest) == |ds|
  {
    if ds == [] {
      assert ds + rest == rest;
    } else {
      assert (ds + rest)[1..] == ds[1..] + rest;
      SpanOf(ds[1..], rest);
    }
  }

  lemma NatBack(n: nat, rest: string)
    requires rest == [] || !IsDigit(rest[0])
    ensures TakeNat(Digits(n) + rest) == Some((n, rest))
  {
    SpanOf(Digits(n), rest);
    ValueDigits(n);
    assert (Digits(n) + rest)[..|Digits(n)|] == Digits(n);
  }

  lemma PairBack(m: nat, n: nat, rest: string)
    requires rest == [] || !IsDigit(rest[0])
    ensures TakePair(Digits(m) + ("," + (Digits(n) + rest))) == Some((m, n, rest))
  {
    hide Digits, TakeNat, Expect;
    NatBack(m, "," + (Digits(n) + rest));
    ExpectIt(",", Digits(n) + rest);
    NatBack(n, rest);
  }

  lemma HeaderBack(h: Hunk, rest: string)
    ensures TakeHeader(HeaderText(h) + rest) == Some((h.(body := []), rest))
  {
    hide Digits, TakePair, Expect;
    var t3 := " @@\n" + rest;
    var t2 := Digits(h.bStart) + ("," + (Digits(h.bCount) + t3));
    var t1 := Digits(h.aStart) + ("," + (Digits(h.aCount) + (" +" + t2)));
    assert HeaderText(h) + rest == "@@ -" + t1;
    ExpectIt("@@ -", t1);
    PairBack(h.aStart, h.aCount, " +" + t2);
    ExpectIt(" +", t2);
    PairBack(h.bStart, h.bCount, t3);
    ExpectIt(" @@\n", rest);
  }

  lemma {:induction false} LineBack(line: Line, rest: string)
    requires OneLine(line)
    ensures TakeLine(line + "\n" + rest) == Some((line, rest))
  {
    if line == [] {
      assert line + "\n" + rest == "\n" + rest;
    } else {
      assert (line + "\n" + rest)[1..] == line[1..] + "\n" + rest;
      LineBack(line[1..], rest);
      assert [line[0]] + line[1..] == line;
    }
  }

  lemma PartsOfFirst(ops: seq<Op>)
    requires ops != []
    ensures |Old(ops)| == |Old(ops[1..])| + if ops[0].kind == Add then 0 else 1
    ensures |New(ops)| == |New(ops[1..])| + if ops[0].kind == Del then 0 else 1
  {
    PartFirst(ops, {Same, Del});
    PartFirst(ops, {Same, Add});
  }

  lemma BodyFirst(ops: seq<Op>, rest: string)
    requires ops != []
    ensures
      var s := BodyText(ops) + rest;
      |s| > 0 && s[0] == Sign(ops[0].kind) && s[1..] == ops[0].line + "\n" + (BodyText(ops[1..]) + rest)
  {
    var more := BodyText(ops[1..]);
    assert BodyText(ops) == OpText(ops[0]) + more;
    hide BodyText;
    Regroup(Sign(ops[0].kind), ops[0].line + "\n", more, rest);
  }

  lemma Regroup(c: char, line: string, more: string, rest: string)
    ensures var s := ([c] + line) + more + rest; |s| > 0 && s[0] == c && s[1..] == line + (more + rest)
  {
  }

  lemma TakeBodyStep(s: string, na: nat, nb: nat, op: Op, s': string, more: seq<Op>, rest: string)
    requires |s| > 0 && s[0] == Sign(op.kind) && TakeLine(s[1..]) == Some((op.line, s'))
    requires TakeBody(s', na, nb) == Some((more, rest))
    ensures TakeBody(s, if op.kind == Add then na else na + 1, if op.kind == Del then nb else nb + 1) == Some(([op] + more, rest))
  {
    hide TakeLine;
  }

  lemma {:induction false} BodyBack(ops: seq<Op>, rest: string)
    requires Printable(ops)
    ensures TakeBody(BodyText(ops) + rest, |Old(ops)|, |New(ops)|) == Some((ops, rest))
  {
    if ops == [] {
      assert BodyText(ops) + rest == rest;
    } else {
      hide TakeBody, TakeLine, BodyText, Part;
      var op, more := ops[0], ops[1..];
      PartsOfFirst(ops);
      BodyBack(more, rest);
      LineBack(op.line, BodyText(more) + rest);
      BodyFirst(ops, rest);
      TakeBodyStep(BodyText(ops) + rest, |Old(more)|, |New(more)|, op, BodyText(more) + rest, more, rest);
      assert [op] + more == ops;
    }
  }

  /** The header counts what the body holds. */
  predicate Counted(h: Hunk) {
    h.aCount == |Old(h.body)| && h.bCount == |New(h.body)|
  }

  lemma HunkBack(h: Hunk, rest: string)
    requires Counted(h) && Printable(h.body)
    ensures TakeHunk(HunkText(h) + rest) == Some((h, rest)) && |HunkText(h)| > 0
  {
    hide TakeHeader, TakeBody, HeaderText;
    HeaderBack(h, BodyText(h.body) + rest);
    BodyBack(h.body, rest);
    assert HunkText(h) + rest == HeaderText(h) + (BodyText(h.body) + rest);
    HeaderLong(h);
  }

  lemma HeaderLong(h: Hunk)
    ensures |HeaderText(h)| > 0
  {
  }

  /** Printed hunks are read back exactly, by their header counts. */
  lemma {:induction false} PatchBack(hs: seq<Hunk>)
    requires forall h | h in hs :: Counted(h) && Printable(h.body)
    ensures ReadPatch(PatchText(hs)) == Some(hs)
  {
    hide TakeHunk, HunkText;
    if hs != [] {
      PatchBack(hs[1..]);
      HunkBack(hs[0], PatchText(hs[1..]));
      assert [hs[0]] + hs[1..] == hs;
    }
  }

  // ---------------------------------------------------------------- applying

  /** A start is the number of the first line, or of the line before an empty
      range; both give the number of lines before the range. */
  function Before(start: nat, count: nat): int {
    if count == 0 then start else start - 1
  }

  /** The rest of the patched text, once `pos` lines have been read and `out`
      written. A hunk that does not fit where its header says is an error. */
  function Apply(a: seq<Line>, pos: nat, out: nat, hs: seq<Hunk>): Option<seq<Line>>
    requires pos <= |a|
    decreases |hs|
  {
    if hs == [] then Some(a[pos..])
    else
      var h := hs[0];
      var at := Before(h.aStart, h.aCount);
      if pos <= at && at + h.aCount <= |a| && Before(h.bStart, h.bCount) == out + (at - pos)
         && Old(h.body) == a[at..at + h.aCount] && |New(h.body)| == h.bCount
      then match Apply(a, at + h.aCount, out + (at - pos) + h.bCount, hs[1..])
           case None => None
           case Some(rest) => Some(a[pos..at] + New(h.body) + rest)
      else None
  }
}
