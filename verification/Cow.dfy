/** The layout of a branch container: volume names and mount paths. */
module Cow {
  import opened Decimal
  import opened Names

  datatype Plan = Plan(source: Volume, rw: Volume, layers: seq<Volume>, lowers: seq<string>)

  const LOWER := "/pgbranch/lower"

  /** Mount point of lower layer `i`: 0 is the source, 1.. the frozen layers. */
  function LowerMountTarget(i: nat): string {
    LOWER + Digits(i)
  }

  function LowerPath(i: nat, n: nat): string {
    if i < n then LowerMountTarget(i + 1) + "/upper" else LowerMountTarget(0) + "/data"
  }

  /** Lays out a branch: the newest frozen layer first, the source last. */
  method PlanBranch(rw: Volume, source: Volume, layers: seq<Volume>) returns (plan: Plan)
    ensures plan.rw == rw && plan.source == source && plan.layers == layers
    ensures |plan.lowers| == |layers| + 1
    ensures forall i | 0 <= i <= |layers| :: plan.lowers[i] == LowerPath(i, |layers|)
    ensures forall i: nat | i < |layers| :: plan.lowers[i] == "/pgbranch/lower" + Digits(i + 1) + "/upper"
    ensures plan.lowers[|layers|] == "/pgbranch/lower0/data"
  {
    hide Digits;
    SourceText();
    var lowers := [];
    for i := 0 to |layers|
      invariant |lowers| == i && forall j | 0 <= j < i :: lowers[j] == LowerPath(j, |layers|)
    {
      lowers := lowers + [LowerMountTarget(i + 1) + "/upper"];
    }
    lowers := lowers + [LowerMountTarget(0) + "/data"];
    plan := Plan(source, rw, layers, lowers);
  }

  lemma SourceText()
    ensures LowerMountTarget(0) + "/data" == "/pgbranch/lower0/data"
  {
    assert Digits(0) == "0";
    assert LOWER + "0" + "/data" == "/pgbranch/lower0/data";
  }

  /** The volumes the container's overlay is assembled from, topmost first. */
  function Assembled(plan: Plan): seq<Volume> {
    [plan.rw] + plan.layers + [plan.source]
  }

  // ------------------------------------------------------- inside the container

  datatype Mount = Mount(volume: Volume, target: string, readOnly: bool)

  const RWPATH := "/pgbranch/rw"

  /** A path names the directory `dir` of the volume mounted here. */
  predicate Holds(m: Mount, path: string, dir: string) {
    path == m.target + "/" + dir
  }

  /** The volume and the directory that overlay directory `i` stands for. */
  function LowerOf(plan: Plan, i: nat): (Volume, string)
    requires i <= |plan.layers|
  {
    if i < |plan.layers| then (plan.layers[i], "upper") else (plan.source, "data")
  }

  /** Every overlay directory of the plan is found under exactly one mount, as
      the directory meant. */
  ghost predicate Resolved(plan: Plan, mounts: seq<Mount>) {
    && |mounts| == |plan.layers| + 2 && |plan.lowers| == |plan.layers| + 1
    && forall i | 0 <= i <= |plan.layers| ::
         && (exists k :: 0 <= k < |mounts| && Holds(mounts[k], plan.lowers[i], LowerOf(plan, i).1))
         && (forall k, dir: string | 0 <= k < |mounts| && Holds(mounts[k], plan.lowers[i], dir) ::
               (mounts[k].volume, dir) == LowerOf(plan, i))
  }

  /** Mounts the plan's volumes: the source and the layers read-only, and only
      the branch's own volume writable. */
  method BranchMounts(plan: Plan) returns (mounts: seq<Mount>)
    requires |plan.lowers| == |plan.layers| + 1
    requires forall i | 0 <= i <= |plan.layers| :: plan.lowers[i] == LowerPath(i, |plan.layers|)
    ensures Resolved(plan, mounts)
    ensures Mount(plan.rw, "/pgbranch/rw", false) in mounts
    ensures forall m | m in mounts && !m.readOnly :: m == Mount(plan.rw, "/pgbranch/rw", false)
  {
    hide LowerMountTarget;
    mounts := [Mount(plan.source, LowerMountTarget(0), true)];
    for i := 0 to |plan.layers|
      invariant |mounts| == i + 1 && mounts[0] == Mount(plan.source, LowerMountTarget(0), true)
      invariant forall k | 0 < k <= i :: mounts[k] == Mount(plan.layers[k - 1], LowerMountTarget(k), true)
    {
      mounts := mounts + [Mount(plan.layers[i], LowerMountTarget(i + 1), true)];
    }
    mounts := mounts + [Mount(plan.rw, RWPATH, false)];
    MountsResolve(plan, mounts);
  }

  lemma MountsResolve(plan: Plan, mounts: seq<Mount>)
    requires |plan.lowers| == |plan.layers| + 1 && |mounts| == |plan.layers| + 2
    requires forall i | 0 <= i <= |plan.layers| :: plan.lowers[i] == LowerPath(i, |plan.layers|)
    requires mounts[0] == Mount(plan.source, LowerMountTarget(0), true)
    requires forall k | 0 < k <= |plan.layers| :: mounts[k] == Mount(plan.layers[k - 1], LowerMountTarget(k), true)
    requires mounts[|plan.layers| + 1] == Mount(plan.rw, RWPATH, false)
    ensures Resolved(plan, mounts)
  {
    forall i | 0 <= i <= |plan.layers|
      ensures exists k :: 0 <= k < |mounts| && Holds(mounts[k], plan.lowers[i], LowerOf(plan, i).1)
      ensures forall k, dir: string | 0 <= k < |mounts| && Holds(mounts[k], plan.lowers[i], dir) ::
                (mounts[k].volume, dir) == LowerOf(plan, i)
    {
      hide LowerMountTarget, LowerPath, Holds;
      var at := if i < |plan.layers| then i + 1 else 0;
      LowerIsHeld(plan, mounts[at], i);
      forall k, dir: string | 0 <= k < |mounts| && Holds(mounts[k], plan.lowers[i], dir)
        ensures (mounts[k].volume, dir) == LowerOf(plan, i)
      {
        HeldOnce(plan, mounts[k], i, k, dir);
      }
    }
  }

  lemma LowerIsHeld(plan: Plan, m: Mount, i: nat)
    requires i <= |plan.layers| && |plan.lowers| == |plan.layers| + 1 && plan.lowers[i] == LowerPath(i, |plan.layers|)
    requires m.target == LowerMountTarget(if i < |plan.layers| then i + 1 else 0)
    ensures Holds(m, plan.lowers[i], LowerOf(plan, i).1)
  {
    LowerPathIs(i, |plan.layers|);
  }

  lemma HeldOnce(plan: Plan, m: Mount, i: nat, k: nat, dir: string)
    requires i <= |plan.layers| && |plan.lowers| == |plan.layers| + 1 && plan.lowers[i] == LowerPath(i, |plan.layers|)
    requires k <= |plan.layers| + 1 && m.target == if k <= |plan.layers| then LowerMountTarget(k) else RWPATH
    requires Holds(m, plan.lowers[i], dir)
    ensures k == (if i < |plan.layers| then i + 1 else 0) && dir == LowerOf(plan, i).1
  {
    var at, sub := if i < |plan.layers| then i + 1 else 0, LowerOf(plan, i).1;
    LowerPathIs(i, |plan.layers|);
    hide LowerMountTarget, LowerPath;
    RWElsewhere(at, sub, dir);
    TargetUnique(at, sub, k, dir);
  }

  lemma LowerPathIs(i: nat, n: nat)
    ensures LowerPath(i, n) == LowerMountTarget(if i < n then i + 1 else 0) + "/" + if i < n then "upper" else "data"
  {
    hide LowerMountTarget;
    assert "/" + "upper" == "/upper" && "/" + "data" == "/data";
    assert LowerMountTarget(if i < n then i + 1 else 0) + "/" + (if i < n then "upper" else "data")
        == LowerMountTarget(if i < n then i + 1 else 0) + ("/" + (if i < n then "upper" else "data"));
  }

  /** lower1 is not mistaken for lower10: the slash ends the number. */
  lemma TargetUnique(i: nat, a: string, j: nat, b: string)
    requires LowerMountTarget(i) + "/" + a == LowerMountTarget(j) + "/" + b
    ensures i == j && a == b
  {
    var x, y := Digits(i) + "/" + a, Digits(j) + "/" + b;
    assert LowerMountTarget(i) + "/" + a == LOWER + x && LowerMountTarget(j) + "/" + b == LOWER + y;
    CancelLeft(LOWER, x, y);
    SlashEnds(Digits(i), a, Digits(j), b);
    DigitsInjective(i, j);
  }

  lemma SlashEnds(x: string, a: string, y: string, b: string)
    requires x + "/" + a == y + "/" + b && '/' !in x && '/' !in y
    ensures x == y && a == b
  {
    var s := x + "/" + a;
    assert s[|x|] == '/' && s[|y|] == '/';
    assert forall k | 0 <= k < |x| :: s[k] == x[k] && s[k] in x;
    assert forall k | 0 <= k < |y| :: s[k] == y[k] && s[k] in y;
    assert |x| == |y|;
    assert x == s[..|x|] && y == s[..|y|] && a == s[|x| + 1..] && b == s[|y| + 1..];
  }

  lemma RWElsewhere(i: nat, a: string, b: string)
    ensures LowerMountTarget(i) + "/" + a != RWPATH + "/" + b
  {
    assert (LowerMountTarget(i) + "/" + a)[10] == LOWER[10] && (RWPATH + "/" + b)[10] == RWPATH[10];
  }
}
