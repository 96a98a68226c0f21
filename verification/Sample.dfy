/** The bounded sample of new rows: both sides send their first n rows in key
    order, and the rows whose key the other side did not send are kept. */
module Sample {

  /** A primary-key column's value. */
  datatype Value = Num(n: int) | Text(s: string)
  type Key = seq<Value>
  datatype Row = Row(key: Key, data: string)

  // ---------------------------------------------- keys as the host sees them

  const EXACT := 0x20_0000_0000_0000   // 2^53

  /** The distance between neighbouring floats at a whole number: 1 below 2^53,
      2 below 2^54, and so on. */
  function Ulp(n: nat): (u: nat)
    ensures u >= 1
  {
    if n < EXACT then 1 else 2 * Ulp(n / 2)
  }

  /** A whole number read as a 64-bit float: round to nearest, ties to even. */
  function Float(n: int): int {
    if n < 0 then 0 - FloatUp(-n) else FloatUp(n)
  }

  function FloatUp(n: nat): nat {
    var u := Ulp(n);
    var q, r := n / u, n % u;
    if 2 * r < u || (2 * r == u && q % 2 == 0) then q * u else (q + 1) * u
  }

  /** The join key of a row. Its JSON decoding turns every number into a float. */
  function HostKey(k: Key): Key {
    seq(|k|, i requires 0 <= i < |k| => if k[i].Num? then Num(Float(k[i].n)) else k[i])
  }

  predicate Small(k: Key) {
    forall i | 0 <= i < |k| && k[i].Num? :: -EXACT <= k[i].n <= EXACT
  }

  lemma FloatExact(n: int)
    requires -EXACT <= n <= EXACT
    ensures Float(n) == n
  {
    assert Ulp(EXACT) == 2;
  }

  /** The first whole number that is not a float, and one past a power of two,
      where the spacing has just doubled. */
  lemma FloatRounds()
    ensures Float(EXACT + 1) == EXACT && Float(4 * EXACT + 3) == 4 * EXACT
  {
    assert Ulp(EXACT) == 2 && Ulp(EXACT + 1) == 2;
    assert Ulp(2 * EXACT + 1) == 4;
    assert Ulp(4 * EXACT + 3) == 8;
  }

  ghost predicate FaithfulUpTo(b: nat) {
    forall x: int, y: int | 0 - b <= x <= b && 0 - b <= y <= b && Float(x) == Float(y) :: x == y
  }

  /** Whole numbers keep apart exactly up to 2^53. */
  lemma FloatThreshold(b: nat)
    ensures FaithfulUpTo(b) <==> b <= 9_007_199_254_740_992
  {
    if b <= EXACT {
      forall x: int, y: int | 0 - b <= x <= b && 0 - b <= y <= b && Float(x) == Float(y)
        ensures x == y
      {
        FloatExact(x);
        FloatExact(y);
      }
    } else {
      FloatRounds();
      FloatExact(EXACT);
      hide Float;
      assert Float(EXACT) == Float(EXACT + 1);
    }
  }

  lemma HostKeyExact(k: Key)
    requires Small(k)
    ensures HostKey(k) == k
  {
    forall i | 0 <= i < |k|
      ensures HostKey(k)[i] == k[i]
    {
      if k[i].Num? {
        FloatExact(k[i].n);
      }
    }
  }

  /** Beyond 2^53 two keys can look the same. */
  lemma FloatCollides()
    ensures HostKey([Num(EXACT)]) == HostKey([Num(EXACT + 1)])
  {
    FloatRounds();
    FloatExact(EXACT);
    hide Float;
    assert HostKey([Num(EXACT)])[0] == HostKey([Num(EXACT + 1)])[0];
  }

  // ------------------------------------------------------------------ tables

  /** A strict order on keys, the same on both sides. */
  ghost predicate StrictOrder(lt: (Key, Key) -> bool) {
    && (forall x :: !lt(x, x))
    && (forall x, y, z :: lt(x, y) && lt(y, z) ==> lt(x, z))
  }

  ghost predicate Ascending(rows: seq<Row>, lt: (Key, Key) -> bool) {
    forall i, j | 0 <= i < j < |rows| :: lt(rows[i].key, rows[j].key)
  }

  ghost predicate HasKey(rows: seq<Row>, k: Key) {
    exists i :: 0 <= i < |rows| && rows[i].key == k
  }

  function First(rows: seq<Row>, n: nat): (first: seq<Row>)
    ensures first <= rows
  {
    if |rows| <= n then rows else rows[..n]
  }

  /** The rows, in order, that satisfy a condition on their key. */
  ghost function Without(rows: seq<Row>, keys: iset<Key>): seq<Row> {
    if rows == [] then []
    else Without(rows[..|rows| - 1], keys) + if rows[|rows| - 1].key in keys then [] else [rows[|rows| - 1]]
  }

  ghost function Keys(rows: seq<Row>): iset<Key> {
    iset k | HasKey(rows, k)
  }

  /** The keys whose host form was among those sent by the base. */
  ghost function Seen(base: seq<Row>): iset<Key> {
    iset k | exists i :: 0 <= i < |base| && HostKey(base[i].key) == HostKey(k)
  }

  lemma {:induction false} WithoutShort(rows: seq<Row>, keys: iset<Key>)
    ensures |Without(rows, keys)| <= |rows|
  {
    if rows != [] {
      WithoutShort(rows[..|rows| - 1], keys);
    }
  }

  lemma {:induction false} WithoutSame(rows: seq<Row>, k1: iset<Key>, k2: iset<Key>)
    requires forall i | 0 <= i < |rows| :: rows[i].key in k1 <==> rows[i].key in k2
    ensures Without(rows, k1) == Without(rows, k2)
  {
    if rows != [] {
      WithoutSame(rows[..|rows| - 1], k1, k2);
    }
  }

  /** Keeps the branch's rows whose join key the base did not send. */
  method SampleTable(branch: seq<Row>, base: seq<Row>, cap: nat) returns (only: seq<Row>)
    ensures only == Without(First(branch, cap), Seen(First(base, cap)))
  {
    var branchRows, baseRows := First(branch, cap), First(base, cap);
    var baseKeys: set<Key> := {};
    for i := 0 to |baseRows|
      invariant forall k :: k in baseKeys <==> exists j :: 0 <= j < i && HostKey(baseRows[j].key) == k
    {
      baseKeys := baseKeys + {HostKey(baseRows[i].key)};
    }
    only := [];
    var i := 0;
    while i < |branchRows| && |only| < cap
      invariant 0 <= i <= |branchRows| && only == Without(branchRows[..i], Seen(baseRows))
    {
      assert branchRows[..i + 1][..i] == branchRows[..i];
      if HostKey(branchRows[i].key) !in baseKeys {
        only := only + [branchRows[i]];
      }
      i := i + 1;
    }
    WithoutShort(branchRows[..i], Seen(baseRows));
    assert i == |branchRows|;
    assert branchRows[..i] == branchRows;
  }

  // -------------------------------------------------------------------- rank

  /** How many of the first i rows have a key that the other side lacks. */
  ghost function Lacking(rows: seq<Row>, other: seq<Row>, i: nat): nat
    requires i <= |rows|
  {
    if i == 0 then 0 else Lacking(rows, other, i - 1) + if HasKey(other, rows[i - 1].key) then 0 else 1
  }

  /** The row stands where it is because of what is below it on either side. */
  ghost predicate Level(branch: seq<Row>, base: seq<Row>, i: nat, j: nat)
    requires i <= |branch| && j <= |base|
  {
    i - Lacking(branch, base, i) == j - Lacking(base, branch, j)
  }

  /** Everything below two positions of one key is below on both sides. */
  ghost predicate Cut(branch: seq<Row>, base: seq<Row>, i: nat, j: nat)
    requires i <= |branch| && j <= |base|
  {
    forall a, b | 0 <= a < |branch| && 0 <= b < |base| && branch[a].key == base[b].key :: a < i <==> b < j
  }

  /** A common cut is level: both sides hold the same number of shared keys below. */
  lemma {:induction false} CutLevel(branch: seq<Row>, base: seq<Row>, lt: (Key, Key) -> bool, i: nat, j: nat)
    requires StrictOrder(lt) && Ascending(branch, lt) && Ascending(base, lt)
    requires i <= |branch| && j <= |base| && Cut(branch, base, i, j)
    ensures Level(branch, base, i, j)
    decreases i + j
  {
    if i > 0 && !HasKey(base, branch[i - 1].key) {
      forall a, b | 0 <= a < |branch| && 0 <= b < |base| && branch[a].key == base[b].key
        ensures a < i - 1 <==> b < j
      {
        assert a != i - 1;
      }
      CutLevel(branch, base, lt, i - 1, j);
    } else if j > 0 && !HasKey(branch, base[j - 1].key) {
      forall a, b | 0 <= a < |branch| && 0 <= b < |base| && branch[a].key == base[b].key
        ensures a < i <==> b < j - 1
      {
        assert b != j - 1;
      }
      CutLevel(branch, base, lt, i, j - 1);
    } else if i > 0 {
      LastShared(branch, base, lt, i, j);
      CutLevel(branch, base, lt, i - 1, j - 1);
    }
  }

  /** If the last rows below a cut are both shared, they are the same row. */
  lemma LastShared(branch: seq<Row>, base: seq<Row>, lt: (Key, Key) -> bool, i: nat, j: nat)
    requires StrictOrder(lt) && Ascending(branch, lt) && Ascending(base, lt)
    requires 0 < i <= |branch| && j <= |base| && Cut(branch, base, i, j)
    requires HasKey(base, branch[i - 1].key) && (j > 0 ==> HasKey(branch, base[j - 1].key))
    ensures j > 0 && branch[i - 1].key == base[j - 1].key && Cut(branch, base, i - 1, j - 1)
  {
    var b :| 0 <= b < |base| && base[b].key == branch[i - 1].key;
    assert b < j;
    var a :| 0 <= a < |branch| && branch[a].key == base[j - 1].key;
    assert a < i;
    NotBoth(lt, branch[i - 1].key, base[j - 1].key);
    assert b == j - 1;
    forall c, d | 0 <= c < |branch| && 0 <= d < |base| && branch[c].key == base[d].key
      ensures c < i - 1 <==> d < j - 1
    {
      SameRow(branch, base, lt, i - 1, j - 1, c, d);
    }
  }

  lemma NotBoth(lt: (Key, Key) -> bool, x: Key, y: Key)
    requires StrictOrder(lt)
    ensures !(lt(x, y) && lt(y, x))
  {
  }

  lemma SameRow(branch: seq<Row>, base: seq<Row>, lt: (Key, Key) -> bool, i: nat, j: nat, c: nat, d: nat)
    requires StrictOrder(lt) && Ascending(branch, lt) && Ascending(base, lt)
    requires i < |branch| && j < |base| && branch[i].key == base[j].key
    requires c < |branch| && d < |base| && branch[c].key == base[d].key
    ensures c == i <==> d == j
    ensures c < i <==> d < j
  {
    var x, y := branch[i].key, branch[c].key;
    assert c < i ==> lt(y, x);
    assert i < c ==> lt(x, y);
    assert d < j ==> lt(y, x);
    assert j < d ==> lt(x, y);
    assert c == i || d == j ==> x == y;
    NotBoth(lt, x, y);
    assert !lt(x, x);
  }

  /** Rank: where a shared row stands in the base is where it stands in the branch,
      less the branch's own rows below it, plus the base's deleted rows below it. */
  lemma RankExact(branch: seq<Row>, base: seq<Row>, lt: (Key, Key) -> bool, i: nat, j: nat)
    requires StrictOrder(lt) && Ascending(branch, lt) && Ascending(base, lt)
    requires i < |branch| && j < |base| && branch[i].key == base[j].key
    ensures j == i - Lacking(branch, base, i) + Lacking(base, branch, j)
  {
    forall a, b | 0 <= a < |branch| && 0 <= b < |base| && branch[a].key == base[b].key
      ensures a < i <==> b < j
    {
      SameRow(branch, base, lt, i, j, a, b);
    }
    CutLevel(branch, base, lt, i, j);
  }

  lemma {:induction false} NoneLacking(rows: seq<Row>, other: seq<Row>, i: nat)
    requires i <= |rows| && forall k | HasKey(rows, k) :: HasKey(other, k)
    ensures Lacking(rows, other, i) == 0
  {
    if i > 0 {
      NoneLacking(rows, other, i - 1);
      assert HasKey(rows, rows[i - 1].key);
    }
  }

  /** With nothing deleted a row cannot stand later in the base than in the branch. */
  lemma RankBound(branch: seq<Row>, base: seq<Row>, lt: (Key, Key) -> bool, i: nat, j: nat)
    requires StrictOrder(lt) && Ascending(branch, lt) && Ascending(base, lt)
    requires forall k | HasKey(base, k) :: HasKey(branch, k)
    requires i < |branch| && j < |base| && branch[i].key == base[j].key
    ensures j <= i
  {
    RankExact(branch, base, lt, i, j);
    NoneLacking(base, branch, j);
  }

  ghost predicate AllSmall(rows: seq<Row>) {
    forall i | 0 <= i < |rows| :: Small(rows[i].key)
  }

  lemma {:induction false} WithoutHas(rows: seq<Row>, keys: iset<Key>, r: Row)
    ensures r in Without(rows, keys) <==> r in rows && r.key !in keys
  {
    if rows != [] {
      var front, last := rows[..|rows| - 1], rows[|rows| - 1];
      WithoutHas(front, keys, r);
      assert rows == front + [last];
    }
  }

  /** A row is taken for new although the base has its key: the base's row stands
      too far down and nothing sent looks like it. */
  ghost predicate Missed(base: seq<Row>, n: nat, k: Key) {
    HasKey(base, k) && k !in Seen(First(base, n))
  }

  /** A row is taken for old although the base lacks its key: one of the base's
      first rows has a different key that looks the same. */
  ghost predicate Mistaken(base: seq<Row>, n: nat, k: Key) {
    !HasKey(base, k) && k in Seen(First(base, n))
  }

  /** Whatever the keys and whatever the branch deleted, the sample is right
      exactly when no sampled row is missed and none is mistaken. */
  lemma SampleRightIff(branch: seq<Row>, base: seq<Row>, n: nat)
    ensures Without(First(branch, n), Seen(First(base, n))) == Without(First(branch, n), Keys(base))
            <==> forall i | 0 <= i < |First(branch, n)| ::
                   !Missed(base, n, First(branch, n)[i].key) && !Mistaken(base, n, First(branch, n)[i].key)
  {
    var bs, seen := First(branch, n), Seen(First(base, n));
    hide Seen, First;
    forall i | 0 <= i < |bs|
      ensures bs[i].key in Keys(base) <==> HasKey(base, bs[i].key)
      ensures bs[i] in Without(bs, seen) <==> bs[i].key !in seen
      ensures bs[i] in Without(bs, Keys(base)) <==> bs[i].key !in Keys(base)
    {
      WithoutHas(bs, seen, bs[i]);
      WithoutHas(bs, Keys(base), bs[i]);
    }
    if forall i | 0 <= i < |bs| :: !Missed(base, n, bs[i].key) && !Mistaken(base, n, bs[i].key) {
      WithoutSame(bs, seen, Keys(base));
    }
  }

  /** A key the base has is seen when the base sent its row. */
  lemma SentIsSeen(base: seq<Row>, n: nat, j: nat)
    requires j < |base| && j < n
    ensures base[j].key in Seen(First(base, n))
  {
    assert First(base, n)[j] == base[j];
  }

  /** If the branch still holds every base key, only look-alikes can mislead: the
      sample is exactly those of the branch's first n rows whose key the whole
      base lacks, although only n rows of the base are looked at, if and only if
      no new row among them looks like one of the base's first n. */
  lemma BoundedSample(branch: seq<Row>, base: seq<Row>, lt: (Key, Key) -> bool, n: nat)
    requires StrictOrder(lt) && Ascending(branch, lt) && Ascending(base, lt)
    requires forall k | HasKey(base, k) :: HasKey(branch, k)
    ensures Without(First(branch, n), Seen(First(base, n))) == Without(First(branch, n), Keys(base))
            <==> forall i | 0 <= i < |First(branch, n)| :: !Mistaken(base, n, First(branch, n)[i].key)
  {
    SampleRightIff(branch, base, n);
    var bs := First(branch, n);
    hide Seen;
    forall i | 0 <= i < |bs|
      ensures !Missed(base, n, bs[i].key)
    {
      FirstAt(branch, n, i);
      if HasKey(base, bs[i].key) {
        var j :| 0 <= j < |base| && base[j].key == bs[i].key;
        RankBound(branch, base, lt, i, j);
        SentIsSeen(base, n, j);
      }
    }
  }

  /** No sampled row looks like a row the base sent, unless it is that row. */
  ghost predicate NoLookAlikes(branch: seq<Row>, base: seq<Row>, n: nat) {
    forall i, j | 0 <= i < |First(branch, n)| && 0 <= j < |First(base, n)| && HostKey(branch[i].key) == HostKey(base[j].key) ::
      branch[i].key == base[j].key
  }

  /** Where the base's row for a sampled key stands, by counting what is below. */
  ghost function Rank(branch: seq<Row>, base: seq<Row>, i: nat, j: nat): int
    requires i <= |branch| && j <= |base|
  {
    i - Lacking(branch, base, i) + Lacking(base, branch, j)
  }

  /** A shared sampled row is missed exactly when, below it, the deletions outweigh
      the insertions by so much that its base row was not sent. */
  lemma MissedByCount(branch: seq<Row>, base: seq<Row>, lt: (Key, Key) -> bool, n: nat, i: nat, j: nat)
    requires StrictOrder(lt) && Ascending(branch, lt) && Ascending(base, lt) && NoLookAlikes(branch, base, n)
    requires i < |First(branch, n)| && j < |base| && branch[i].key == base[j].key
    ensures Missed(base, n, branch[i].key) <==> Rank(branch, base, i, j) >= n
  {
    RankExact(branch, base, lt, i, j);
    if j < n {
      SentIsSeen(base, n, j);
    } else {
      assert HasKey(base, branch[i].key);
      forall m | 0 <= m < |First(base, n)|
        ensures HostKey(First(base, n)[m].key) != HostKey(branch[i].key)
      {
        FirstAt(base, n, m);
        if HostKey(base[m].key) == HostKey(branch[i].key) {
          SameRow(branch, base, lt, i, j, i, m);
        }
      }
    }
  }

  /** The exact condition by counting, whatever was deleted: where nothing looks
      alike, the sample is right if and only if the rank of every shared sampled row
      stays below n. */
  lemma SampleRightByCount(branch: seq<Row>, base: seq<Row>, lt: (Key, Key) -> bool, n: nat)
    requires StrictOrder(lt) && Ascending(branch, lt) && Ascending(base, lt) && NoLookAlikes(branch, base, n)
    ensures Without(First(branch, n), Seen(First(base, n))) == Without(First(branch, n), Keys(base))
            <==> forall i, j | 0 <= i < |First(branch, n)| && 0 <= j < |base| && branch[i].key == base[j].key ::
                   Rank(branch, base, i, j) < n
  {
    SampleRightIff(branch, base, n);
    hide Rank, Missed, Mistaken, StrictOrder, Ascending, NoLookAlikes, Without, Seen, First;
    forall i | 0 <= i < |First(branch, n)|
      ensures i < |branch| && First(branch, n)[i] == branch[i] && !Mistaken(base, n, branch[i].key)
      ensures Missed(base, n, branch[i].key) ==> HasKey(base, branch[i].key)
    {
      FirstAt(branch, n, i);
      NotMistaken(branch, base, n, i);
      MissedIsShared(base, n, branch[i].key);
    }
    forall i, j | 0 <= i < |First(branch, n)| && 0 <= j < |base| && branch[i].key == base[j].key
      ensures Missed(base, n, branch[i].key) <==> Rank(branch, base, i, j) >= n
    {
      MissedByCount(branch, base, lt, n, i, j);
    }
  }

  lemma MissedIsShared(base: seq<Row>, n: nat, k: Key)
    ensures Missed(base, n, k) ==> HasKey(base, k)
  {
  }

  lemma SmallNoLookAlikes(branch: seq<Row>, base: seq<Row>, n: nat)
    requires AllSmall(branch) && AllSmall(base)
    ensures NoLookAlikes(branch, base, n)
  {
    forall i, j | 0 <= i < |First(branch, n)| && 0 <= j < |First(base, n)|
      ensures HostKey(branch[i].key) == branch[i].key && HostKey(base[j].key) == base[j].key
    {
      HostKeyExact(branch[i].key);
      HostKeyExact(base[j].key);
    }
  }

  lemma NotMistaken(branch: seq<Row>, base: seq<Row>, n: nat, i: nat)
    requires NoLookAlikes(branch, base, n) && i < |First(branch, n)|
    ensures !Mistaken(base, n, branch[i].key)
  {
    forall m | 0 <= m < |First(base, n)| && HostKey(First(base, n)[m].key) == HostKey(branch[i].key)
      ensures HasKey(base, branch[i].key)
    {
      FirstAt(base, n, m);
      assert base[m].key == branch[i].key;
    }
  }

  /** Up to 2^53 there are no look-alikes. */
  lemma SmallKeysExact(branch: seq<Row>, base: seq<Row>, lt: (Key, Key) -> bool, n: nat)
    requires StrictOrder(lt) && Ascending(branch, lt) && Ascending(base, lt)
    requires forall k | HasKey(base, k) :: HasKey(branch, k)
    requires AllSmall(branch) && AllSmall(base)
    ensures Without(First(branch, n), Seen(First(base, n))) == Without(First(branch, n), Keys(base))
  {
    BoundedSample(branch, base, lt, n);
    SmallNoLookAlikes(branch, base, n);
    forall i | 0 <= i < |First(branch, n)|
      ensures !Mistaken(base, n, First(branch, n)[i].key)
    {
      FirstAt(branch, n, i);
      NotMistaken(branch, base, n, i);
    }
  }

  /** A look-alike hides a new row: with key 2^55 in the base and a new row 2^55+3
      in the branch, nothing is called new. */
  lemma LookAlikeHides()
    ensures
      var base, branch := [Row([Num(4 * EXACT)], "")], [Row([Num(4 * EXACT)], ""), Row([Num(4 * EXACT + 3)], "")];
      Mistaken(base, 2, branch[1].key) && Without(First(branch, 2), Seen(First(base, 2))) == []
  {
    var base, branch := [Row([Num(4 * EXACT)], "")], [Row([Num(4 * EXACT)], ""), Row([Num(4 * EXACT + 3)], "")];
    assert Ulp(2 * EXACT) == 4;
    assert Ulp(4 * EXACT) == 8;
    assert Float(4 * EXACT) == 4 * EXACT;
    FloatRounds();
    hide Float;
    assert HostKey(branch[1].key)[0] == HostKey(base[0].key)[0];
    assert branch[1].key[0] != base[0].key[0];
    assert branch[0].key in Seen(base) && branch[1].key in Seen(base) && First(base, 2) == base && First(branch, 2) == branch;
    hide Seen;
    assert branch[..1] == [branch[0]] && [branch[0]][..0] == [];
    assert Without([branch[0]], Seen(base)) == Without([], Seen(base)) + [];
    assert Without(branch, Seen(base)) == Without(branch[..1], Seen(base)) + [];
  }

  lemma FirstAt(rows: seq<Row>, n: nat, i: nat)
    requires i < |First(rows, n)|
    ensures i < |rows| && First(rows, n)[i] == rows[i]
  {
  }

  /** A deleted base row can push another out of sight: with keys 1 and 2 in the
      base, only 2 in the branch and a cap of one row, key 2 is called new. */
  lemma DeletionMisleads()
    ensures
      var base, branch := [Row([Num(1)], ""), Row([Num(2)], "")], [Row([Num(2)], "")];
      Without(First(branch, 1), Seen(First(base, 1))) == branch && Without(First(branch, 1), Keys(base)) == []
  {
    var base, branch := [Row([Num(1)], ""), Row([Num(2)], "")], [Row([Num(2)], "")];
    var k := [Num(2)];
    assert First(base, 1) == [base[0]] && First(branch, 1) == branch && branch[..0] == [];
    HostKeyExact([Num(1)]);
    HostKeyExact(k);
    assert HostKey([Num(1)])[0] != HostKey(k)[0];
    assert k !in Seen([base[0]]);
    assert base[1].key == k && HasKey(base, k);
  }
}
