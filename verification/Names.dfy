/** Volume names. `Volume` is the engine's view of a name: which branch and
    which generation of its writable volume, or the text of a source name. The
    lemmas below justify it: printing a `Volume` is injective. */
module Names {
  import opened Decimal

  datatype Volume = RW(branch: string, gen: nat) | SRC(text: string)

  /** [a-z0-9][a-z0-9-]{0,40}: the one gate every branch and source name passes. */
  predicate ValidName(name: string) {
    && 1 <= |name| <= 41 && name[0] != '-'
    && forall c | c in name :: 'a' <= c <= 'z' || '0' <= c <= '9' || c == '-'
  }

  const RW_PREFIX := "pgbranch-br-"
  const SRC_PREFIX := "pgbranch-src-"

  function Suffix(gen: int): string {
    if gen <= 1 then "" else "-g" + Digits(gen)
  }

  function BranchRWVolumeNameGen(branch: string, gen: int): string {
    RW_PREFIX + branch + "-rw" + Suffix(gen)
  }

  function SourceVolumeName(source: string, gen: int): string {
    SRC_PREFIX + source + Suffix(gen)
  }

  /** The volume a source generation is seeded into. */
  function SourceVolume(source: string, gen: int): Volume {
    SRC(source + Suffix(gen))
  }

  function Printed(v: Volume): string {
    match v
    case RW(branch, gen) => BranchRWVolumeNameGen(branch, gen)
    case SRC(text) => SRC_PREFIX + text
  }

  /** The names as an operator sees them, and the longest name there may be. */
  lemma PrintedExamples(long: string)
    requires |long| >= 1 && forall c | c in long :: c == 'a'
    ensures Printed(RW("dev", 1)) == "pgbranch-br-dev-rw" && Printed(RW("dev", 3)) == "pgbranch-br-dev-rw-g3"
    ensures Printed(SourceVolume("main", 1)) == "pgbranch-src-main" && Printed(SourceVolume("main", 2)) == "pgbranch-src-main-g2"
    ensures ValidName(long) <==> |long| <= 41
    ensures !ValidName("") && !ValidName("-a") && !ValidName("A") && !ValidName("a/b") && !ValidName("..")
  {
    assert Digits(2) == "2" && Digits(3) == "3";
    assert "main" + "" == "main";
    assert long[0] in long;
    assert "A"[0] == 'A' && 'A' in "A" && "a/b"[1] == '/' && '/' in "a/b" && ".."[0] == '.' && '.' in "..";
  }

  lemma CancelLeft(p: string, x: string, y: string)
    ensures p + x == p + y <==> x == y
  {
    assert x == (p + x)[|p|..] && y == (p + y)[|p|..];
  }

  lemma CancelRight(x: string, y: string, q: string)
    ensures x + q == y + q <==> x == y
  {
    if x + q == y + q {
      assert |x| == |y|;
      assert x == (x + q)[..|x|] && y == (y + q)[..|y|];
    }
  }

  /** A generation suffix can be told from what stands before it. */
  lemma SuffixUnique(x: string, g: int, y: string, h: int)
    requires 2 <= g && 2 <= h && x + Suffix(g) == y + Suffix(h)
    ensures x == y && g == h
  {
    hide Digits, Suffix;
    TailUnique(x, Digits(g), y, Digits(h)) by {
      SuffixIs(g);
      SuffixIs(h);
    }
    DigitsInjective(g, h);
    CancelRight(x, y, Suffix(g));
  }

  lemma SuffixIs(g: int)
    requires 2 <= g
    ensures Suffix(g) == "-g" + Digits(g)
  {
  }

  lemma TailUnique(x: string, d: string, y: string, e: string)
    requires forall c | c in d :: IsDigit(c)
    requires forall c | c in e :: IsDigit(c)
    requires x + ("-g" + d) == y + ("-g" + e)
    ensures d == e
  {
    var s := x + ("-g" + d);
    assert s[|s| - |d| - 1] == 'g' && s[|s| - |e| - 1] == 'g';
    assert forall i | |s| - |d| <= i < |s| :: s[i] in d;
    assert forall i | |s| - |e| <= i < |s| :: s[i] == e[i - (|s| - |e|)] && s[i] in e;
    assert s[|s| - |d|..] == d && s[|s| - |e|..] == e;
  }

  /** The last character tells a suffixed name from a bare one. */
  lemma SuffixEnds(x: string, g: int)
    ensures g >= 2 ==> x + Suffix(g) != [] && IsDigit((x + Suffix(g))[|x + Suffix(g)| - 1])
    ensures g <= 1 ==> x + Suffix(g) == x
  {
    if g >= 2 {
      var s, d := x + Suffix(g), Digits(g);
      assert s[|s| - 1] == d[|d| - 1] && d[|d| - 1] in d;
    }
  }

  /** Branch and generation can be read off a writable volume's name. */
  lemma RWNameInjective(b: string, g: int, c: string, h: int)
    requires 1 <= g && 1 <= h
    ensures BranchRWVolumeNameGen(b, g) == BranchRWVolumeNameGen(c, h) <==> b == c && g == h
  {
    hide Suffix;
    var x, y := RW_PREFIX + b + "-rw", RW_PREFIX + c + "-rw";
    SuffixEnds(x, g);
    SuffixEnds(y, h);
    assert x[|x| - 1] == 'w' && y[|y| - 1] == 'w';
    if x + Suffix(g) == y + Suffix(h) {
      if g >= 2 && h >= 2 {
        SuffixUnique(x, g, y, h);
      }
      CancelRight(RW_PREFIX + b, RW_PREFIX + c, "-rw");
      CancelLeft(RW_PREFIX, b, c);
    }
  }

  /** Two source generations share a volume name exactly when they are the same
      generation of the same source, or one source's name spells the other's
      name with its generation suffix. */
  lemma SourceNameCollision(s: string, g: int, t: string, h: int)
    requires 1 <= g && 1 <= h
    ensures SourceVolumeName(s, g) == SourceVolumeName(t, h) <==> SourceVolume(s, g) == SourceVolume(t, h)
    ensures SourceVolume(s, g) == SourceVolume(t, h) <==>
            || (s == t && g == h)
            || (g == 1 && h >= 2 && s == t + Suffix(h))
            || (h == 1 && g >= 2 && t == s + Suffix(g))
  {
    hide Suffix;
    SuffixEnds(s, g);
    SuffixEnds(t, h);
    if g >= 2 && h >= 2 && s + Suffix(g) == t + Suffix(h) {
      SuffixUnique(s, g, t, h);
    }
    assert SourceVolumeName(s, g) == SRC_PREFIX + (s + Suffix(g));
    assert SourceVolumeName(t, h) == SRC_PREFIX + (t + Suffix(h));
    CancelLeft(SRC_PREFIX, s + Suffix(g), t + Suffix(h));
  }

  /** Generations of one source never share a volume. */
  lemma GenerationsDistinct(s: string, g: int, h: int)
    requires 1 <= g && 1 <= h && SourceVolume(s, g) == SourceVolume(s, h)
    ensures g == h
  {
    SourceNameCollision(s, g, s, h);
  }

  /** The engine's view of a volume name loses nothing: distinct volumes print
      as distinct names, and no branch volume is ever taken for a source's. */
  lemma PrintedInjective(v: Volume, u: Volume)
    requires v.RW? ==> v.gen >= 1
    requires u.RW? ==> u.gen >= 1
    ensures Printed(v) == Printed(u) <==> v == u
  {
    if v.RW? && u.RW? {
      RWNameInjective(v.branch, v.gen, u.branch, u.gen);
    } else if v.SRC? && u.SRC? {
      assert v.text == Printed(v)[|SRC_PREFIX|..] && u.text == Printed(u)[|SRC_PREFIX|..];
    } else {
      assert Printed(v)[9] == if v.RW? then 'b' else 's';
      assert Printed(u)[9] == if u.RW? then 'b' else 's';
    }
  }
}
