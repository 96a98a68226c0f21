/** The state of an installation: the registry's tables and what the driver holds.
    The invariant that every step keeps, and what a step must leave alone. */
module Worlds {
  import opened Options
  import opened BranchStates
  import opened Names
  import opened Overlay

  type Id = nat

  datatype SourceState = Seeding | Seeded | SeedFailed

  datatype Source = Source(name: string, state: SourceState, vol: Volume, gen: nat, masked: bool)

  datatype Branch = Branch(
    name: string, source: Id, state: BranchState, container: Option<Id>,
    rw: Volume, srcVol: Volume, expires: Option<int>, base: Option<Id>,
    parentName: string, updated: int)

  datatype Layer = Layer(source: Id, vol: Volume, parent: Option<Id>)

  /** A volume: what is in it, and which of the things that are done to a fresh
      branch have been completed in it. */
  datatype Disk = Disk(files: Content, masked: bool, rotated: bool)

  const BLANK := Disk(map[], false, false)

  function Wrote(d: Disk, p: Path, e: Entry): Disk {
    d.(files := d.files[p := e])
  }

  /** The registry tables together with what the driver holds, and two things that
      never change: whether branches get passwords of their own, and which
      containers will get to answer. */
  datatype World = World(
    sources: map<Id, Source>, branches: map<Id, Branch>, layers: map<Id, Layer>,
    vols: map<Volume, Disk>, conts: map<Id, seq<Volume>>, nextCid: nat,
    rotate: bool, answers: Id -> bool)

  // ---------------------------------------------------------------- chains

  /** `c` spells the parent links from `at` down to a layer on the source. */
  ghost predicate IsChain(ls: map<Id, Layer>, at: Option<Id>, c: seq<Id>)
    decreases |c|
  {
    if at.None? then c == []
    else at.value in ls && c != [] && c[0] == at.value && IsChain(ls, ls[at.value].parent, c[1..])
  }

  ghost predicate HasChain(ls: map<Id, Layer>, at: Option<Id>) {
    exists c :: IsChain(ls, at, c)
  }

  lemma {:induction false} ChainInLayers(ls: map<Id, Layer>, at: Option<Id>, c: seq<Id>)
    requires IsChain(ls, at, c)
    ensures forall x :: x in c ==> x in ls
    decreases |c|
  {
    if c != [] {
      ChainInLayers(ls, ls[at.value].parent, c[1..]);
    }
  }

  lemma {:induction false} ChainUnique(ls: map<Id, Layer>, at: Option<Id>, c: seq<Id>, d: seq<Id>)
    requires IsChain(ls, at, c) && IsChain(ls, at, d)
    ensures c == d
    decreases |c|
  {
    if c != [] {
      ChainUnique(ls, ls[at.value].parent, c[1..], d[1..]);
      assert c == [c[0]] + c[1..] && d == [d[0]] + d[1..];
    }
  }

  /** The chain starting at `at`, newest layer first. */
  ghost function Chain(ls: map<Id, Layer>, at: Option<Id>): (c: seq<Id>)
    ensures forall x :: x in c ==> x in ls
    ensures HasChain(ls, at) ==> IsChain(ls, at, c)
  {
    if HasChain(ls, at) then
      var c :| IsChain(ls, at, c);
      ChainInLayers(ls, at, c);
      c
    else []
  }

  lemma ChainIs(ls: map<Id, Layer>, at: Option<Id>, c: seq<Id>)
    requires IsChain(ls, at, c)
    ensures HasChain(ls, at) && Chain(ls, at) == c
  {
    ChainUnique(ls, at, c, Chain(ls, at));
  }

  lemma ChainEmpty(ls: map<Id, Layer>)
    ensures HasChain(ls, None) && Chain(ls, None) == []
  {
    ChainIs(ls, None, []);
  }

  lemma ChainUnfold(ls: map<Id, Layer>, x: Id)
    requires HasChain(ls, Some(x))
    ensures x in ls && HasChain(ls, ls[x].parent)
    ensures Chain(ls, Some(x)) == [x] + Chain(ls, ls[x].parent)
  {
    var c := Chain(ls, Some(x));
    ChainIs(ls, ls[x].parent, c[1..]);
    assert c == [c[0]] + c[1..];
  }

  lemma ChainExtend(ls: map<Id, Layer>, x: Id)
    requires x in ls && HasChain(ls, ls[x].parent)
    ensures HasChain(ls, Some(x))
    ensures Chain(ls, Some(x)) == [x] + Chain(ls, ls[x].parent)
  {
    var c := [x] + Chain(ls, ls[x].parent);
    assert c[1..] == Chain(ls, ls[x].parent);
    ChainIs(ls, Some(x), c);
  }

  /** A chain only depends on the layers in it. */
  lemma ChainStable(ls: map<Id, Layer>, ls': map<Id, Layer>, at: Option<Id>)
    requires HasChain(ls, at)
    requires forall x | x in Chain(ls, at) :: x in ls' && ls'[x] == ls[x]
    ensures HasChain(ls', at) && Chain(ls', at) == Chain(ls, at)
  {
    StableChain(ls, ls', at, Chain(ls, at));
    ChainIs(ls', at, Chain(ls, at));
  }

  lemma {:induction false} StableChain(ls: map<Id, Layer>, ls': map<Id, Layer>, at: Option<Id>, c: seq<Id>)
    requires IsChain(ls, at, c)
    requires forall x | x in c :: x in ls && x in ls' && ls'[x] == ls[x]
    ensures IsChain(ls', at, c)
    decreases |c|
  {
    if c != [] {
      StableChain(ls, ls', ls[at.value].parent, c[1..]);
    }
  }

  /** The chain of a member is the rest of the chain from there on. */
  lemma {:induction false} ChainTail(ls: map<Id, Layer>, at: Option<Id>, c: seq<Id>, i: nat)
    requires IsChain(ls, at, c) && i < |c|
    ensures c[i] in ls && IsChain(ls, Some(c[i]), c[i..])
    ensures HasChain(ls, Some(c[i])) && Chain(ls, Some(c[i])) == c[i..]
    decreases i
  {
    if i == 0 {
      assert c[0..] == c;
      ChainIs(ls, at, c);
    } else {
      ChainTail(ls, ls[at.value].parent, c[1..], i - 1);
      assert c[1..][i - 1..] == c[i..];
    }
  }

  /** No layer comes twice in a chain: links are acyclic. */
  lemma ChainNoRepeat(ls: map<Id, Layer>, at: Option<Id>, c: seq<Id>, i: nat, j: nat)
    requires IsChain(ls, at, c) && i < j < |c|
    ensures c[i] != c[j]
  {
    ChainTail(ls, at, c, i);
    ChainTail(ls, at, c, j);
  }

  /** A chain holds the parents of its members. */
  lemma ParentInChain(ls: map<Id, Layer>, at: Option<Id>, x: Id)
    requires HasChain(ls, at) && x in Chain(ls, at) && ls[x].parent.Some?
    ensures ls[x].parent.value in Chain(ls, at)
  {
    var c := Chain(ls, at);
    var i :| 0 <= i < |c| && c[i] == x;
    ChainTail(ls, at, c, i);
    assert c[i..][1..][0] == ls[x].parent.value;
  }

  // -------------------------------------------------------------- ownership

  predicate Live(bs: map<Id, Branch>, id: Id) {
    id in bs && bs[id].state != Destroyed
  }

  predicate IsReady(bs: map<Id, Branch>, id: Id) {
    id in bs && bs[id].state == Ready
  }

  /** A branch's frozen layers, newest first. */
  ghost function Base(ls: map<Id, Layer>, b: Branch): (c: seq<Id>)
    ensures forall x :: x in c ==> x in ls
  {
    Chain(ls, b.base)
  }

  ghost function VolsOf(ls: map<Id, Layer>, c: seq<Id>): (vs: seq<Volume>)
    requires forall x :: x in c ==> x in ls
    ensures |vs| == |c|
  {
    seq(|c|, i requires 0 <= i < |c| => ls[c[i]].vol)
  }

  /** The volumes a branch is mounted from, topmost first. */
  ghost function Stack(ls: map<Id, Layer>, b: Branch): seq<Volume> {
    [b.rw] + VolsOf(ls, Base(ls, b)) + [b.srcVol]
  }

  /** `v` is one of the frozen layers or the pinned source below a branch. */
  ghost predicate Below(ls: map<Id, Layer>, b: Branch, v: Volume) {
    v == b.srcVol || exists x :: x in Base(ls, b) && ls[x].vol == v
  }

  ghost predicate Uses(ls: map<Id, Layer>, b: Branch, v: Volume) {
    v == b.rw || Below(ls, b, v)
  }

  function Contents(vols: map<Volume, Disk>, stack: seq<Volume>): (cs: seq<Content>)
    ensures |cs| == |stack|
  {
    seq(|stack|, i requires 0 <= i < |stack| => if stack[i] in vols then vols[stack[i]].files else map[])
  }

  /** What a client connected to a branch sees. */
  ghost function View(w: World, id: Id): map<Path, string>
    requires id in w.branches
  {
    Merged(Contents(w.vols, Stack(w.layers, w.branches[id])))
  }

  /** What is below a branch's own volume: what a reset returns it to. */
  ghost function Ground(w: World, id: Id): map<Path, string>
    requires id in w.branches
  {
    Merged(Contents(w.vols, Stack(w.layers, w.branches[id])[1..]))
  }

  // -------------------------------------------------------------- invariant

  /** Parent links are closed and acyclic and stay within one source; no two
      layers share a volume; below every later generation of a branch's frozen
      volumes lies its first. */
  ghost predicate LayersOk(ls: map<Id, Layer>) {
    && (forall x | x in ls :: HasChain(ls, Some(x)))
    && (forall x | x in ls && ls[x].parent.Some? ::
          ls[x].parent.value in ls && ls[ls[x].parent.value].source == ls[x].source)
    && (forall x, y | x in ls && y in ls && x != y :: ls[x].vol != ls[y].vol)
    && (forall x | x in ls :: ls[x].vol.RW? && ls[x].vol.gen >= 1)
    && (forall x | x in ls :: Rooted(ls, Chain(ls, Some(x)), ls[x].vol.branch))
  }

  ghost predicate Rooted(ls: map<Id, Layer>, c: seq<Id>, name: string) {
    exists y :: y in c && y in ls && ls[y].vol == RW(name, 1)
  }

  /** What a live branch row refers to. */
  ghost predicate BranchOk(sources: map<Id, Source>, ls: map<Id, Layer>, b: Branch) {
    && b.source in sources && sources[b.source].state == Seeded
    && (b.base.Some? ==> b.base.value in ls && ls[b.base.value].source == b.source)
    && b.rw.RW? && b.rw.branch == b.name && 1 <= b.rw.gen <= |Base(ls, b)| + 1
    && (b.rw.gen >= 2 ==> Rooted(ls, Base(ls, b), b.name))
  }

  /** A frozen volume that bears a live branch's name is of a generation the
      branch has already used, and is not its writable volume. */
  ghost predicate GenerationOk(ls: map<Id, Layer>, b: Branch, v: Volume) {
    v.RW? && v.branch == b.name ==> v.gen <= |Base(ls, b)| + 1 && v != b.rw
  }

  ghost predicate BranchesOk(sources: map<Id, Source>, ls: map<Id, Layer>, bs: map<Id, Branch>) {
    && (forall id | Live(bs, id) :: BranchOk(sources, ls, bs[id]))
    && (forall id, x | Live(bs, id) && x in ls :: GenerationOk(ls, bs[id], ls[x].vol))
    && (forall i, j | Live(bs, i) && Live(bs, j) && i != j :: bs[i].name != bs[j].name)
  }

  ghost predicate SourcesOk(sources: map<Id, Source>) {
    && (forall s | s in sources ::
          && 1 <= sources[s].gen && sources[s].vol == SourceVolume(sources[s].name, sources[s].gen)
          && (sources[s].state != Seeded ==> sources[s].gen == 1))
    && (forall s, t | s in sources && t in sources && s != t && sources[s].name == sources[t].name ::
          sources[s].state == SeedFailed || sources[t].state == SeedFailed)
    && (forall s, t | s in sources && t in sources && s != t && sources[s].vol == sources[t].vol ::
          sources[s].name == sources[t].name)
  }

  /** The generation volume a branch is pinned to belongs to its own source. */
  ghost predicate PinOk(sources: map<Id, Source>, source: Id, v: Volume) {
    && source in sources
    && Generation(sources[source], v)
    && (forall t | t in sources && t != source && sources[t].vol == v ::
          sources[t].state == SeedFailed && sources[t].name == sources[source].name)
  }

  ghost predicate Generation(s: Source, v: Volume) {
    exists g | 1 <= g <= s.gen :: v == SourceVolume(s.name, g)
  }

  ghost predicate PinsOk(sources: map<Id, Source>, bs: map<Id, Branch>) {
    forall id | Live(bs, id) :: PinOk(sources, bs[id].source, bs[id].srcVol)
  }

  /** Everything below a live branch exists; a ready branch's writable volume
      exists too, and so does the current volume of a seeded source. */
  ghost predicate VolumesOk(sources: map<Id, Source>, ls: map<Id, Layer>, bs: map<Id, Branch>, vols: set<Volume>) {
    && (forall id | Live(bs, id) :: BelowExists(ls, bs[id], vols))
    && (forall id | IsReady(bs, id) :: bs[id].rw in vols)
    && (forall s | s in sources && sources[s].state == Seeded :: sources[s].vol in vols)
  }

  ghost predicate BelowExists(ls: map<Id, Layer>, b: Branch, vols: set<Volume>) {
    && b.srcVol in vols
    && (forall x | x in Base(ls, b) :: ls[x].vol in vols)
  }

  /** A ready branch's container runs on exactly the recorded stack, and no two
      live branches claim one container. */
  ghost predicate ContainersOk(ls: map<Id, Layer>, bs: map<Id, Branch>, conts: map<Id, seq<Volume>>, next: nat) {
    && (forall c | c in conts :: c < next)
    && (forall id | Live(bs, id) && bs[id].container.Some? :: bs[id].container.value < next)
    && (forall i, j | Live(bs, i) && Live(bs, j) && i != j && bs[i].container.Some? ::
          bs[i].container != bs[j].container)
    && (forall id | IsReady(bs, id) :: Running(ls, conts, bs[id]))
  }

  /** What is done to a branch before it is handed out has been done: in its first
      volume, which is its own or the oldest of its own frozen layers. */
  ghost predicate Marked(sources: map<Id, Source>, b: Branch, vols: map<Volume, Disk>, rotate: bool) {
    && (b.source in sources && sources[b.source].masked ==> RW(b.name, 1) in vols && vols[RW(b.name, 1)].masked)
    && (rotate ==> RW(b.name, 1) in vols && vols[RW(b.name, 1)].rotated)
  }

  /** A branch is ready only after its masking scripts and its password change, and
      on a container that answers. */
  ghost predicate ServedOk(w: World) {
    forall id | IsReady(w.branches, id) :: Served(w, w.branches[id])
  }

  ghost predicate Served(w: World, b: Branch) {
    Marked(w.sources, b, w.vols, w.rotate) && Answering(b, w.answers)
  }

  ghost predicate Answering(b: Branch, answers: Id -> bool) {
    b.container.Some? && answers(b.container.value)
  }

  ghost predicate Running(ls: map<Id, Layer>, conts: map<Id, seq<Volume>>, b: Branch) {
    b.container.Some? && b.container.value in conts && conts[b.container.value] == Stack(ls, b)
  }

  ghost predicate Inv(w: World) {
    && LayersOk(w.layers)
    && BranchesOk(w.sources, w.layers, w.branches)
    && SourcesOk(w.sources)
    && PinsOk(w.sources, w.branches)
    && VolumesOk(w.sources, w.layers, w.branches, w.vols.Keys)
    && ContainersOk(w.layers, w.branches, w.conts, w.nextCid)
    && ServedOk(w)
  }

  /** The layers of every other source. */
  function LayersNotOf(ls: map<Id, Layer>, s: Id): map<Id, Layer> {
    map x | x in ls && ls[x].source != s :: ls[x]
  }

  /** The branches, live or not, of every other source. */
  function BranchesNotOf(bs: map<Id, Branch>, s: Id): map<Id, Branch> {
    map id | id in bs && bs[id].source != s :: bs[id]
  }

  /** A table with some rows deleted. */
  ghost predicate Fewer<K, V>(m: map<K, V>, m': map<K, V>) {
    m'.Keys <= m.Keys && forall k | k in m' :: m'[k] == m[k]
  }

  // -------------------------------------------------------------- isolation

  /** The rows an operation is allowed to change. */
  datatype Scope = Scope(branches: set<Id>, sources: set<Id>)

  /** A branch's chain and the rows in it are the same in both tables. */
  ghost predicate SameChain(ls: map<Id, Layer>, ls': map<Id, Layer>, at: Option<Id>) {
    && Chain(ls', at) == Chain(ls, at)
    && (forall x | x in Chain(ls, at) :: x in ls' && ls'[x] == ls[x])
  }

  ghost predicate SameContent(vols: map<Volume, Disk>, vols': map<Volume, Disk>, v: Volume) {
    v in vols ==> v in vols' && vols'[v] == vols[v]
  }

  ghost predicate KeptBranch(w: World, w': World, id: Id)
    requires id in w.branches
  {
    && id in w'.branches && w'.branches[id] == w.branches[id]
    && SameChain(w.layers, w'.layers, w.branches[id].base)
    && (forall v | Uses(w.layers, w.branches[id], v) :: SameContent(w.vols, w'.vols, v))
  }

  ghost predicate KeptSource(w: World, w': World, s: Id)
    requires s in w.sources
  {
    && s in w'.sources && w'.sources[s] == w.sources[s]
    && SameContent(w.vols, w'.vols, w.sources[s].vol)
  }

  /** From `w` to `w'` every live branch outside the scope keeps its row, its
      layers and the contents of every volume in its recorded stack, and every
      source outside the scope that is seeded or being seeded keeps its row and
      its data. Failed sources are excepted: a retry under the same name takes
      over their volume. */
  ghost predicate Kept(w: World, w': World, scope: Scope) {
    && (forall id | Live(w.branches, id) && id !in scope.branches :: KeptBranch(w, w', id))
    && (forall s | s in w.sources && w.sources[s].state != SeedFailed && s !in scope.sources :: KeptSource(w, w', s))
  }

  lemma KeptRefl(w: World, scope: Scope)
    ensures Kept(w, w, scope)
  {
    hide Uses;
  }

  lemma KeptTrans(w0: World, w1: World, w2: World, scope: Scope)
    requires Kept(w0, w1, scope) && Kept(w1, w2, scope)
    ensures Kept(w0, w2, scope)
  {
    forall id | Live(w0.branches, id) && id !in scope.branches
      ensures KeptBranch(w0, w2, id)
    {
      assert KeptBranch(w0, w1, id) && KeptBranch(w1, w2, id);
      forall v | Uses(w0.layers, w0.branches[id], v)
        ensures SameContent(w0.vols, w2.vols, v)
      {
        assert Uses(w1.layers, w1.branches[id], v);
      }
    }
    forall s | s in w0.sources && w0.sources[s].state != SeedFailed && s !in scope.sources
      ensures KeptSource(w0, w2, s)
    {
      assert KeptSource(w0, w1, s) && KeptSource(w1, w2, s);
    }
  }

  lemma KeptWiden(w0: World, w1: World, scope: Scope, scope': Scope)
    requires Kept(w0, w1, scope)
    requires scope.branches <= scope'.branches && scope.sources <= scope'.sources
    ensures Kept(w0, w1, scope')
  {
  }

  /** A kept branch that has all its volumes shows its clients the same tree. */
  lemma KeptView(w: World, w': World, id: Id)
    requires id in w.branches && KeptBranch(w, w', id)
    requires forall v | Uses(w.layers, w.branches[id], v) :: v in w.vols
    ensures Stack(w'.layers, w'.branches[id]) == Stack(w.layers, w.branches[id])
    ensures View(w', id) == View(w, id) && Ground(w', id) == Ground(w, id)
  {
    var b := w.branches[id];
    assert VolsOf(w'.layers, Base(w'.layers, b)) == VolsOf(w.layers, Base(w.layers, b));
    var stack := Stack(w.layers, b);
    forall i | 0 <= i < |stack|
      ensures SameContent(w.vols, w'.vols, stack[i]) && stack[i] in w.vols
    {
      StackUses(w.layers, b, i);
    }
    assert Contents(w'.vols, stack) == Contents(w.vols, stack);
    assert Contents(w'.vols, stack[1..]) == Contents(w.vols, stack[1..]);
  }

  lemma StackUses(ls: map<Id, Layer>, b: Branch, i: nat)
    requires i < |Stack(ls, b)|
    ensures Uses(ls, b, Stack(ls, b)[i])
  {
    var c := Base(ls, b);
    if 1 <= i <= |c| {
      assert Stack(ls, b)[i] == ls[c[i - 1]].vol;
    }
  }

  lemma ReadyHasVolumes(w: World, id: Id)
    requires Inv(w) && IsReady(w.branches, id)
    ensures forall v | Uses(w.layers, w.branches[id], v) :: v in w.vols
  {
    assert Live(w.branches, id) && BelowExists(w.layers, w.branches[id], w.vols.Keys);
  }
}
