/** One lemma for every kind of registry write and driver effect: under its
    guard the write keeps the invariant and disturbs nothing outside its scope. */
module Steps {
  import opened Options
  import opened BranchStates
  import opened Names
  import opened Overlay
  import opened Worlds

  /** What the invariant says about one live row. */
  lemma LiveRow(w: World, id: Id)
    requires Inv(w) && Live(w.branches, id)
    ensures BranchOk(w.sources, w.layers, w.branches[id])
    ensures PinOk(w.sources, w.branches[id].source, w.branches[id].srcVol)
    ensures BelowExists(w.layers, w.branches[id], w.vols.Keys)
    ensures HasChain(w.layers, w.branches[id].base)
    ensures forall x | x in w.layers :: GenerationOk(w.layers, w.branches[id], w.layers[x].vol)
  {
    hide BranchOk, PinOk, BelowExists, GenerationOk, SourcesOk, ContainersOk;
    ChainEmpty(w.layers);
    assert w.branches[id].base.Some? ==> w.branches[id].base.value in w.layers by {
      BaseIn(w.sources, w.layers, w.branches[id]);
    }
  }

  lemma LiveContainer(w: World, id: Id)
    requires Inv(w) && Live(w.branches, id)
    ensures w.branches[id].container.Some? ==> w.branches[id].container.value < w.nextCid
    ensures Unclaimed(w.branches, id, w.branches[id].container)
    ensures NameUnused(w.branches, id, w.branches[id].name)
  {
    hide LayersOk, SourcesOk, PinsOk, VolumesOk, BranchOk, GenerationOk, Running;
  }

  lemma BaseIn(sources: map<Id, Source>, ls: map<Id, Layer>, b: Branch)
    requires BranchOk(sources, ls, b)
    ensures b.base.Some? ==> b.base.value in ls
  {
  }

  // ------------------------------------------------------------ branch rows

  /** `b` is the row `a` with another state, container or timestamp. */
  ghost predicate Retouched(a: Branch, b: Branch) {
    b == a.(state := b.state, container := b.container, updated := b.updated)
  }

  /** Nobody else claims the container. */
  ghost predicate Unclaimed(bs: map<Id, Branch>, id: Id, c: Option<Id>) {
    c.Some? ==> forall j | Live(bs, j) && j != id :: bs[j].container != c
  }

  /** Nobody else bears the name. */
  predicate NameUnused(bs: map<Id, Branch>, id: Id, name: string) {
    forall j | j in bs :: Live(bs, j) && j != id ==> bs[j].name != name
  }

  /** A row that may stand in the table under `id`, whatever stood there before. */
  ghost predicate RowOk(w: World, id: Id, b: Branch) {
    && BranchOk(w.sources, w.layers, b)
    && (forall x | x in w.layers :: GenerationOk(w.layers, b, w.layers[x].vol))
    && NameUnused(w.branches, id, b.name)
    && PinOk(w.sources, b.source, b.srcVol)
    && BelowExists(w.layers, b, w.vols.Keys)
    && (b.state == Ready ==> b.rw in w.vols && Running(w.layers, w.conts, b) && Served(w, b))
    && (b.container.Some? ==> b.container.value < w.nextCid)
    && Unclaimed(w.branches, id, b.container)
  }

  lemma PutStep(w: World, id: Id, b: Branch, scope: Scope)
    requires Inv(w) && RowOk(w, id, b)
    requires id in scope.branches || !Live(w.branches, id)
    ensures var w' := w.(branches := w.branches[id := b]); Inv(w') && Kept(w, w', scope)
  {
    hide LayersOk, BranchesOk, SourcesOk, PinsOk, VolumesOk, ContainersOk, Running, BranchOk, GenerationOk, PinOk, BelowExists;
    PutBranches(w.sources, w.layers, w.branches, id, b);
    PutPins(w.sources, w.branches, id, b);
    PutVolumes(w.sources, w.layers, w.branches, w.vols.Keys, id, b);
    PutContainers(w.layers, w.branches, w.conts, w.nextCid, id, b);
    PutServed(w, id, b);
  }

  lemma PutServed(w: World, id: Id, b: Branch)
    requires ServedOk(w) && (b.state == Ready ==> Served(w, b))
    ensures ServedOk(w.(branches := w.branches[id := b]))
  {
    var bs' := w.branches[id := b];
    forall j | IsReady(bs', j)
      ensures Served(w.(branches := bs'), bs'[j])
    {
      assert j != id ==> IsReady(w.branches, j);
    }
  }

  lemma PutBranches(sources: map<Id, Source>, ls: map<Id, Layer>, bs: map<Id, Branch>, id: Id, b: Branch)
    requires BranchesOk(sources, ls, bs) && BranchOk(sources, ls, b) && NameUnused(bs, id, b.name)
    requires forall x | x in ls :: GenerationOk(ls, b, ls[x].vol)
    ensures BranchesOk(sources, ls, bs[id := b])
  {
    hide BranchOk, GenerationOk;
    var bs' := bs[id := b];
    assert forall j: Id | Live(bs', j) :: j == id || (Live(bs, j) && bs'[j] == bs[j]);
  }

  lemma PutPins(sources: map<Id, Source>, bs: map<Id, Branch>, id: Id, b: Branch)
    requires PinsOk(sources, bs) && PinOk(sources, b.source, b.srcVol)
    ensures PinsOk(sources, bs[id := b])
  {
    hide PinOk;
    var bs' := bs[id := b];
    assert forall j: Id | Live(bs', j) :: j == id || (Live(bs, j) && bs'[j] == bs[j]);
  }

  lemma PutVolumes(sources: map<Id, Source>, ls: map<Id, Layer>, bs: map<Id, Branch>, vols: set<Volume>, id: Id, b: Branch)
    requires VolumesOk(sources, ls, bs, vols) && BelowExists(ls, b, vols)
    requires b.state == Ready ==> b.rw in vols
    ensures VolumesOk(sources, ls, bs[id := b], vols)
  {
    hide BelowExists;
    var bs' := bs[id := b];
    assert forall j: Id | Live(bs', j) :: j == id || (Live(bs, j) && bs'[j] == bs[j]);
    assert forall j: Id | IsReady(bs', j) :: j == id || IsReady(bs, j);
  }

  lemma PutContainers(ls: map<Id, Layer>, bs: map<Id, Branch>, conts: map<Id, seq<Volume>>, next: nat, id: Id, b: Branch)
    requires ContainersOk(ls, bs, conts, next)
    requires b.container.Some? ==> b.container.value < next
    requires Unclaimed(bs, id, b.container)
    requires b.state == Ready ==> Running(ls, conts, b)
    ensures ContainersOk(ls, bs[id := b], conts, next)
  {
    hide Running;
    var bs' := bs[id := b];
    assert forall j: Id | Live(bs', j) :: j == id || (Live(bs, j) && bs'[j] == bs[j]);
    assert forall j: Id | IsReady(bs', j) :: j == id || IsReady(bs, j);
  }

  /** A state change, a recorded container or a bumped timestamp. */
  lemma RowStep(w: World, id: Id, b: Branch, scope: Scope)
    requires Inv(w) && Live(w.branches, id) && id in scope.branches
    requires Retouched(w.branches[id], b)
    requires b.container.Some? ==> b.container.value < w.nextCid
    requires Unclaimed(w.branches, id, b.container)
    requires b.state == Ready ==> b.rw in w.vols && Running(w.layers, w.conts, b) && Served(w, b)
    ensures var w' := w.(branches := w.branches[id := b]); Inv(w') && Kept(w, w', scope)
  {
    RetouchedOk(w, id, b);
    PutStep(w, id, b, scope);
  }

  lemma RetouchedOk(w: World, id: Id, b: Branch)
    requires Inv(w) && Live(w.branches, id) && Retouched(w.branches[id], b)
    ensures BranchOk(w.sources, w.layers, b) && PinOk(w.sources, b.source, b.srcVol)
    ensures forall x | x in w.layers :: GenerationOk(w.layers, b, w.layers[x].vol)
    ensures NameUnused(w.branches, id, b.name) && BelowExists(w.layers, b, w.vols.Keys)
  {
    var a := w.branches[id];
    assert BranchOk(w.sources, w.layers, a) && PinOk(w.sources, a.source, a.srcVol);
    assert BelowExists(w.layers, a, w.vols.Keys);
    forall x | x in w.layers
      ensures GenerationOk(w.layers, b, w.layers[x].vol)
    {
      assert GenerationOk(w.layers, a, w.layers[x].vol);
    }
  }

  /** The name-reuse rule: no frozen layer still bears the volume name that a
      new branch of this name would be given. */
  predicate NameFree(ls: map<Id, Layer>, name: string) {
    forall x | x in ls :: ls[x].vol != RW(name, 1)
  }

  lemma NameFreeAllGenerations(ls: map<Id, Layer>, name: string, x: Id)
    requires LayersOk(ls) && NameFree(ls, name) && x in ls
    ensures ls[x].vol.branch != name
  {
    assert Rooted(ls, Chain(ls, Some(x)), ls[x].vol.branch);
  }

  /** A new row is born on the source's current volume, or on (a part of) the
      base of a live branch of the same source. */
  ghost predicate BornOn(sources: map<Id, Source>, bs: map<Id, Branch>, b: Branch) {
    && b.source in sources && sources[b.source].state == Seeded
    && (|| (b.base.None? && b.srcVol == sources[b.source].vol)
        || exists p | Live(bs, p) :: LikeBase(bs[p], b))
  }

  ghost predicate LikeBase(p: Branch, b: Branch) {
    p.source == b.source && p.srcVol == b.srcVol && (b.base.None? || b.base == p.base)
  }

  lemma InsertBranchStep(w: World, id: Id, b: Branch, scope: Scope)
    requires Inv(w) && id !in w.branches
    requires b.state == Creating && b.container.None? && b.rw == RW(b.name, 1)
    requires NameUnused(w.branches, id, b.name) && NameFree(w.layers, b.name)
    requires BornOn(w.sources, w.branches, b)
    ensures var w' := w.(branches := w.branches[id := b]); Inv(w') && Kept(w, w', scope)
  {
    InsertedBranchOk(w, b);
    PutStep(w, id, b, scope);
  }

  lemma InsertedBranchOk(w: World, b: Branch)
    requires Inv(w) && b.rw == RW(b.name, 1) && NameFree(w.layers, b.name)
    requires BornOn(w.sources, w.branches, b)
    ensures BranchOk(w.sources, w.layers, b) && PinOk(w.sources, b.source, b.srcVol)
    ensures BelowExists(w.layers, b, w.vols.Keys)
    ensures forall x | x in w.layers :: GenerationOk(w.layers, b, w.layers[x].vol)
  {
    ChainEmpty(w.layers);
    if p :| Live(w.branches, p) && LikeBase(w.branches[p], b) {
      assert BranchOk(w.sources, w.layers, w.branches[p]);
      assert PinOk(w.sources, w.branches[p].source, w.branches[p].srcVol);
      assert BelowExists(w.layers, w.branches[p], w.vols.Keys);
    } else {
      var s := w.sources[b.source];
      assert Generation(s, b.srcVol) by { assert b.srcVol == SourceVolume(s.name, s.gen); }
    }
    forall x | x in w.layers
      ensures GenerationOk(w.layers, b, w.layers[x].vol)
    {
      NameFreeAllGenerations(w.layers, b.name, x);
    }
  }

  // ----------------------------------------------------------------- layers

  /** Equal chains mean equal facts about a row. */
  lemma ChainFrame(sources: map<Id, Source>, ls: map<Id, Layer>, ls': map<Id, Layer>, b: Branch)
    requires SameChain(ls, ls', b.base) && HasChain(ls, b.base)
    ensures Base(ls', b) == Base(ls, b) && Stack(ls', b) == Stack(ls, b)
    ensures BranchOk(sources, ls, b) ==> BranchOk(sources, ls', b)
    ensures forall vols :: BelowExists(ls, b, vols) ==> BelowExists(ls', b, vols)
    ensures forall conts :: Running(ls, conts, b) ==> Running(ls', conts, b)
  {
    assert VolsOf(ls', Base(ls', b)) == VolsOf(ls, Base(ls, b));
  }

  /** Deleting layers whose children go with them leaves the other chains alone. */
  ghost predicate Pruned(ls: map<Id, Layer>, ls': map<Id, Layer>) {
    && (forall x | x in ls' :: x in ls && ls'[x] == ls[x])
    && (forall x | x in ls' && ls'[x].parent.Some? :: ls'[x].parent.value in ls')
  }

  lemma {:induction false} PrunedChain(ls: map<Id, Layer>, ls': map<Id, Layer>, at: Option<Id>, c: seq<Id>)
    requires Pruned(ls, ls') && IsChain(ls, at, c)
    requires at.None? || at.value in ls'
    ensures forall x | x in c :: x in ls'
    decreases |c|
  {
    if c != [] {
      PrunedChain(ls, ls', ls[at.value].parent, c[1..]);
    }
  }

  lemma PrunedSame(ls: map<Id, Layer>, ls': map<Id, Layer>, at: Option<Id>)
    requires Pruned(ls, ls') && HasChain(ls, at)
    requires at.None? || at.value in ls'
    ensures SameChain(ls, ls', at) && HasChain(ls', at)
  {
    PrunedChain(ls, ls', at, Chain(ls, at));
    ChainStable(ls, ls', at);
  }

  lemma PrunedLayersOk(ls: map<Id, Layer>, ls': map<Id, Layer>)
    requires LayersOk(ls) && Pruned(ls, ls')
    ensures LayersOk(ls')
  {
    forall x | x in ls'
      ensures HasChain(ls', Some(x)) && Rooted(ls', Chain(ls', Some(x)), ls'[x].vol.branch)
    {
      PrunedSame(ls, ls', Some(x));
      assert Rooted(ls, Chain(ls, Some(x)), ls[x].vol.branch);
    }
  }

  /** Every live branch's chain starts at a remaining layer. */
  ghost predicate BasesIn(bs: map<Id, Branch>, ls: map<Id, Layer>) {
    forall id | Live(bs, id) && bs[id].base.Some? :: bs[id].base.value in ls
  }

  /** A row reads the same against the other layers table. */
  ghost predicate RowFramed(w: World, ls': map<Id, Layer>, b: Branch) {
    && SameChain(w.layers, ls', b.base)
    && BranchOk(w.sources, ls', b)
    && BelowExists(ls', b, w.vols.Keys)
    && Stack(ls', b) == Stack(w.layers, b)
  }

  lemma FramedRow(w: World, ls': map<Id, Layer>, id: Id)
    requires Inv(w) && Live(w.branches, id)
    requires SameChain(w.layers, ls', w.branches[id].base)
    ensures RowFramed(w, ls', w.branches[id])
  {
    hide Inv, BranchOk, BelowExists, SameChain, HasChain;
    LiveRow(w, id);
    ChainFrame(w.sources, w.layers, ls', w.branches[id]);
  }

  /** Another layers table in which every live branch finds its own layers. */
  lemma SwapLayers(w: World, ls': map<Id, Layer>, scope: Scope)
    requires Inv(w) && LayersOk(ls')
    requires forall id | Live(w.branches, id) :: RowFramed(w, ls', w.branches[id])
    requires forall id, x | Live(w.branches, id) && x in ls' :: GenerationOk(ls', w.branches[id], ls'[x].vol)
    ensures var w' := w.(layers := ls'); Inv(w') && Kept(w, w', scope)
  {
    hide LayersOk, BranchesOk, SourcesOk, PinsOk, VolumesOk, ContainersOk, Kept, RowFramed, GenerationOk;
    SwapTables(w, ls');
    SwapDriver(w, ls');
    SwapKept(w, ls', scope);
  }

  lemma SwapTables(w: World, ls': map<Id, Layer>)
    requires BranchesOk(w.sources, w.layers, w.branches)
    requires forall id | Live(w.branches, id) :: RowFramed(w, ls', w.branches[id])
    requires forall id, x | Live(w.branches, id) && x in ls' :: GenerationOk(ls', w.branches[id], ls'[x].vol)
    ensures BranchesOk(w.sources, ls', w.branches)
  {
    hide BranchOk, BelowExists, GenerationOk, SameChain, Stack;
  }

  lemma SwapDriver(w: World, ls': map<Id, Layer>)
    requires VolumesOk(w.sources, w.layers, w.branches, w.vols.Keys)
    requires ContainersOk(w.layers, w.branches, w.conts, w.nextCid)
    requires forall id | Live(w.branches, id) :: RowFramed(w, ls', w.branches[id])
    ensures VolumesOk(w.sources, ls', w.branches, w.vols.Keys) && ContainersOk(ls', w.branches, w.conts, w.nextCid)
  {
    hide BranchOk, BelowExists, SameChain, Stack;
    assert forall id: Id | IsReady(w.branches, id) :: Live(w.branches, id);
  }

  lemma SwapKept(w: World, ls': map<Id, Layer>, scope: Scope)
    requires forall id | Live(w.branches, id) :: RowFramed(w, ls', w.branches[id])
    ensures Kept(w, w.(layers := ls'), scope)
  {
    hide BranchOk, BelowExists, SameChain, Stack, Uses;
  }

  lemma PruneStep(w: World, ls': map<Id, Layer>, scope: Scope)
    requires Inv(w) && Pruned(w.layers, ls') && BasesIn(w.branches, ls')
    ensures var w' := w.(layers := ls'); Inv(w') && Kept(w, w', scope)
  {
    PrunedLayersOk(w.layers, ls');
    forall id: Id | Live(w.branches, id)
      ensures RowFramed(w, ls', w.branches[id])
    {
      PrunedFrame(w, ls', id);
    }
    PrunedGenerations(w, ls');
    hide Inv, LayersOk, RowFramed, GenerationOk;
    SwapLayers(w, ls', scope);
  }

  lemma PrunedFrame(w: World, ls': map<Id, Layer>, id: Id)
    requires Inv(w) && Pruned(w.layers, ls') && BasesIn(w.branches, ls') && Live(w.branches, id)
    ensures RowFramed(w, ls', w.branches[id])
  {
    hide Inv, Pruned, RowFramed, HasChain, BranchOk, PinOk, BelowExists, GenerationOk;
    LiveRow(w, id);
    PrunedSame(w.layers, ls', w.branches[id].base);
    FramedRow(w, ls', id);
  }

  lemma PrunedGenerations(w: World, ls': map<Id, Layer>)
    requires Inv(w) && Pruned(w.layers, ls')
    requires forall id: Id | Live(w.branches, id) :: RowFramed(w, ls', w.branches[id])
    ensures forall id, x | Live(w.branches, id) && x in ls' :: GenerationOk(ls', w.branches[id], ls'[x].vol)
  {
    hide Inv, BranchOk, PinOk, BelowExists, Chain, HasChain;
    forall id, x | Live(w.branches, id) && x in ls'
      ensures GenerationOk(ls', w.branches[id], ls'[x].vol)
    {
      LiveRow(w, id);
    }
  }

  /** A layer that may be put on top of an existing chain. */
  ghost predicate LayerFits(ls: map<Id, Layer>, l: Layer) {
    && HasChain(ls, l.parent)
    && (l.parent.Some? ==> l.parent.value in ls && ls[l.parent.value].source == l.source)
    && l.vol.RW? && l.vol.gen >= 1
    && (l.vol.gen >= 2 ==> Rooted(ls, Chain(ls, l.parent), l.vol.branch))
    && (forall y | y in ls :: ls[y].vol != l.vol)
  }

  lemma AddLayerStep(w: World, x: Id, l: Layer, scope: Scope)
    requires Inv(w) && x !in w.layers && LayerFits(w.layers, l)
    requires forall id | Live(w.branches, id) :: w.branches[id].name != l.vol.branch
    ensures var w' := w.(layers := w.layers[x := l]); Inv(w') && Kept(w, w', scope)
  {
    var ls' := w.layers[x := l];
    AddedLayersOk(w.layers, x, l);
    forall id: Id | Live(w.branches, id)
      ensures RowFramed(w, ls', w.branches[id])
    {
      AddedFrame(w, x, l, id);
    }
    forall id, y | Live(w.branches, id) && y in ls'
      ensures GenerationOk(ls', w.branches[id], ls'[y].vol)
    {
      AddedGeneration(w, x, l, id, y);
    }
    hide Inv, LayersOk, RowFramed, GenerationOk, LayerFits;
    SwapLayers(w, ls', scope);
  }

  lemma AddedFrame(w: World, x: Id, l: Layer, id: Id)
    requires Inv(w) && x !in w.layers && Live(w.branches, id)
    ensures RowFramed(w, w.layers[x := l], w.branches[id])
  {
    hide Inv, RowFramed, HasChain, BranchOk, PinOk, BelowExists, GenerationOk;
    LiveRow(w, id);
    ChainStable(w.layers, w.layers[x := l], w.branches[id].base);
    FramedRow(w, w.layers[x := l], id);
  }

  lemma AddedGeneration(w: World, x: Id, l: Layer, id: Id, y: Id)
    requires Inv(w) && x !in w.layers && Live(w.branches, id) && y in w.layers[x := l]
    requires l.vol.RW? && w.branches[id].name != l.vol.branch
    ensures GenerationOk(w.layers[x := l], w.branches[id], w.layers[x := l][y].vol)
  {
    hide Inv, HasChain, BranchOk, PinOk, BelowExists;
    AddedFrame(w, x, l, id);
    LiveRow(w, id);
  }

  lemma AddedLayersOk(ls: map<Id, Layer>, x: Id, l: Layer)
    requires LayersOk(ls) && x !in ls && LayerFits(ls, l)
    ensures LayersOk(ls[x := l])
  {
    hide HasChain, Rooted, Chain;
    var ls' := ls[x := l];
    forall y | y in ls'
      ensures HasChain(ls', Some(y)) && Rooted(ls', Chain(ls', Some(y)), ls'[y].vol.branch)
    {
      AddedChain(ls, x, l, y);
    }
  }

  lemma AddedChain(ls: map<Id, Layer>, x: Id, l: Layer, y: Id)
    requires LayersOk(ls) && x !in ls && LayerFits(ls, l) && y in ls[x := l]
    ensures var ls' := ls[x := l]; HasChain(ls', Some(y)) && Rooted(ls', Chain(ls', Some(y)), ls'[y].vol.branch)
    ensures Chain(ls[x := l], Some(x)) == [x] + Chain(ls, l.parent)
  {
    var ls' := ls[x := l];
    ChainStable(ls, ls', l.parent);
    ChainExtend(ls', x);
    if y != x {
      ChainStable(ls, ls', Some(y));
      assert Rooted(ls, Chain(ls, Some(y)), ls[y].vol.branch);
    } else if l.vol.gen == 1 {
      assert x in Chain(ls', Some(x));
    }
  }

  // ---------------------------------------------------------------- freeze

  /** The rows a freeze commit writes: the parent moves onto its next writable
      volume above the new layer, the child bases on that layer. */
  function FrozenParent(p: Branch, x: Id, rw: Volume, cid: Id, now: int): Branch {
    p.(rw := rw, base := Some(x), container := Some(cid), state := Ready, updated := now)
  }

  function FrozenChild(c: Branch, x: Id, now: int): Branch {
    c.(base := Some(x), updated := now)
  }

  function FrozenRows(bs: map<Id, Branch>, parent: Id, child: Id, x: Id, rw: Volume, cid: Id, now: int): map<Id, Branch>
    requires parent in bs && child in bs
  {
    var bs1 := bs[parent := FrozenParent(bs[parent], x, rw, cid, now)];
    bs1[child := FrozenChild(bs1[child], x, now)]
  }

  /** What the saga has prepared when it commits. */
  ghost predicate ReadyToFreeze(w: World, parent: Id, child: Id, x: Id, rw: Volume, cid: Id) {
    && parent != child && Live(w.branches, parent) && Live(w.branches, child) && x !in w.layers
    && var p, c := w.branches[parent], w.branches[child];
    && p.state == Resetting && c.state == Creating
    && c.base.None? && c.source == p.source && c.srcVol == p.srcVol
    && rw == RW(p.name, |Base(w.layers, p)| + 2)
    && rw in w.vols && p.rw in w.vols
    && cid < w.nextCid && cid in w.conts && w.conts[cid] == [rw] + Stack(w.layers, p)
    && Unclaimed(w.branches, parent, Some(cid))
    && Marked(w.sources, p, w.vols, w.rotate) && w.answers(cid)
  }

  lemma CommitStep(w: World, parent: Id, child: Id, x: Id, rw: Volume, cid: Id, now: int, scope: Scope)
    requires Inv(w) && ReadyToFreeze(w, parent, child, x, rw, cid)
    requires parent in scope.branches && child in scope.branches
    ensures var p := w.branches[parent];
            var w' := w.(layers := w.layers[x := Layer(p.source, p.rw, p.base)],
                         branches := FrozenRows(w.branches, parent, child, x, rw, cid, now));
            Inv(w') && Kept(w, w', scope)
  {
    hide Inv, Kept, RowOk;
    var p, c := w.branches[parent], w.branches[child];
    var l := Layer(p.source, p.rw, p.base);
    var w1 := w.(branches := w.branches[parent := p.(state := Destroyed)]);
    FreezeAside(w, parent, scope);
    FreezeLayerFits(w, parent, x);
    AddLayerStep(w1, x, l, scope);
    var w2 := w1.(layers := w.layers[x := l]);
    KeptTrans(w, w1, w2, scope);
    FreezeChain(w, parent, x);
    FreezeParentOk(w, w2, parent, child, x, rw, cid, now);
    PutStep(w2, parent, FrozenParent(p, x, rw, cid, now), scope);
    var w3 := w2.(branches := w2.branches[parent := FrozenParent(p, x, rw, cid, now)]);
    KeptTrans(w, w2, w3, scope);
    FreezeChildOk(w, w3, parent, child, x, rw, cid, now);
    PutStep(w3, child, FrozenChild(c, x, now), scope);
    var w4 := w3.(branches := w3.branches[child := FrozenChild(c, x, now)]);
    KeptTrans(w, w3, w4, scope);
    assert w3.branches == w.branches[parent := FrozenParent(p, x, rw, cid, now)];
  }

  lemma FreezeAside(w: World, parent: Id, scope: Scope)
    requires Inv(w) && Live(w.branches, parent) && parent in scope.branches
    ensures var w1 := w.(branches := w.branches[parent := w.branches[parent].(state := Destroyed)]);
            Inv(w1) && Kept(w, w1, scope)
  {
    RowStep(w, parent, w.branches[parent].(state := Destroyed), scope);
  }

  lemma FreezeLayerFits(w: World, parent: Id, x: Id)
    requires Inv(w) && Live(w.branches, parent)
    ensures var p := w.branches[parent]; LayerFits(w.layers, Layer(p.source, p.rw, p.base))
    ensures var p := w.branches[parent];
            forall id: Id | Live(w.branches[parent := p.(state := Destroyed)], id) :: w.branches[id].name != p.rw.branch
  {
    hide PinsOk, SourcesOk, VolumesOk, ContainersOk, PinOk, BelowExists, HasChain, Chain, Rooted;
    LiveRow(w, parent);
  }

  /** The chain above the new layer, in the table that has it. */
  lemma FreezeChain(w: World, parent: Id, x: Id)
    requires Inv(w) && Live(w.branches, parent) && x !in w.layers
    ensures var p := w.branches[parent];
            var ls' := w.layers[x := Layer(p.source, p.rw, p.base)];
            Chain(ls', Some(x)) == [x] + Base(w.layers, p) && VolsOf(ls', Chain(ls', Some(x))) + [p.srcVol] == Stack(w.layers, p)
  {
    hide BranchesOk, SourcesOk, PinsOk, VolumesOk, ContainersOk, LayersOk;
    var p := w.branches[parent];
    FreezeLayerFits(w, parent, x);
    AddedChain(w.layers, x, Layer(p.source, p.rw, p.base), x);
    assert [p.rw] + VolsOf(w.layers, Base(w.layers, p))
           == VolsOf(w.layers[x := Layer(p.source, p.rw, p.base)], [x] + Base(w.layers, p));
  }

  lemma FreezeParentOk(w: World, w2: World, parent: Id, child: Id, x: Id, rw: Volume, cid: Id, now: int)
    requires Inv(w) && ReadyToFreeze(w, parent, child, x, rw, cid)
    requires var p := w.branches[parent];
             && w2 == w.(branches := w.branches[parent := p.(state := Destroyed)],
                         layers := w.layers[x := Layer(p.source, p.rw, p.base)])
    ensures RowOk(w2, parent, FrozenParent(w.branches[parent], x, rw, cid, now))
  {
    hide BranchesOk, SourcesOk, PinsOk, VolumesOk, ContainersOk, LayersOk, PinOk;
    var p := w.branches[parent];
    var p' := FrozenParent(p, x, rw, cid, now);
    RetouchedOk(w, parent, p);
    FreezeChain(w, parent, x);
    var c, c' := Base(w.layers, p), Base(w2.layers, p');
    assert p'.source == p.source && c' == [x] + c;
    assert Rooted(w2.layers, c', p.name) by {
      if p.rw.gen >= 2 {
        assert Rooted(w.layers, c, p.name);
      }
    }
    assert forall y | y in w2.layers :: GenerationOk(w2.layers, p', w2.layers[y].vol);
    assert Stack(w2.layers, p') == [rw] + Stack(w.layers, p);
  }

  lemma FreezeChildOk(w: World, w3: World, parent: Id, child: Id, x: Id, rw: Volume, cid: Id, now: int)
    requires Inv(w) && Inv(w3) && ReadyToFreeze(w, parent, child, x, rw, cid)
    requires var p := w.branches[parent];
             && w3 == w.(branches := w.branches[parent := FrozenParent(p, x, rw, cid, now)],
                         layers := w.layers[x := Layer(p.source, p.rw, p.base)])
    ensures RowOk(w3, child, FrozenChild(w.branches[child], x, now))
  {
    hide Inv, PinOk, Rooted, Stack, Chain, HasChain, Running;
    var c, p' := w.branches[child], w3.branches[parent];
    var c' := FrozenChild(c, x, now);
    LiveRow(w3, child);
    LiveRow(w3, parent);
    LiveContainer(w3, child);
    ChainEmpty(w3.layers);
    assert Base(w3.layers, c') == Base(w3.layers, p') && Base(w3.layers, c) == [];
  }

  // ------------------------------------------------------ volumes, containers

  /** Nobody outside the scope has the volume in its recorded stack. */
  ghost predicate Private(w: World, v: Volume, scope: Scope) {
    && (forall id | Live(w.branches, id) && id !in scope.branches :: !Uses(w.layers, w.branches[id], v))
    && (forall s | s in w.sources && w.sources[s].state != SeedFailed && s !in scope.sources :: w.sources[s].vol != v)
  }

  /** No live branch needs the volume: it lies below none, and is the writable
      volume of no ready one. */
  ghost predicate Unneeded(w: World, v: Volume) {
    && (forall id | Live(w.branches, id) :: !Below(w.layers, w.branches[id], v))
    && (forall id | IsReady(w.branches, id) :: w.branches[id].rw != v)
    && (forall s | s in w.sources && w.sources[s].state == Seeded :: w.sources[s].vol != v)
  }

  lemma AddVolumeStep(w: World, v: Volume, scope: Scope)
    requires Inv(w) && v !in w.vols
    ensures var w' := w.(vols := w.vols[v := BLANK]); Inv(w') && Kept(w, w', scope)
  {
    hide LayersOk, BranchesOk, SourcesOk, PinsOk, ContainersOk, Uses;
    assert forall id | Live(w.branches, id) :: BelowExists(w.layers, w.branches[id], w.vols.Keys);
  }

  lemma WriteVolumeStep(w: World, v: Volume, c: Disk, scope: Scope)
    requires Inv(w) && v in w.vols && Private(w, v, scope)
    requires (w.vols[v].masked ==> c.masked) && (w.vols[v].rotated ==> c.rotated)
    ensures var w' := w.(vols := w.vols[v := c]); Inv(w') && Kept(w, w', scope)
  {
    hide LayersOk, BranchesOk, SourcesOk, PinsOk, ContainersOk, VolumesOk, Uses;
    assert w.vols[v := c].Keys == w.vols.Keys;
    forall id | IsReady(w.branches, id)
      ensures Served(w.(vols := w.vols[v := c]), w.branches[id])
    {
      assert Served(w, w.branches[id]);
    }
  }

  lemma RemoveVolumeStep(w: World, v: Volume, scope: Scope)
    requires Inv(w) && Unneeded(w, v) && Private(w, v, scope)
    ensures var w' := w.(vols := w.vols - {v}); Inv(w') && Kept(w, w', scope)
  {
    hide LayersOk, BranchesOk, SourcesOk, PinsOk, ContainersOk, Uses;
    forall id | Live(w.branches, id)
      ensures BelowExists(w.layers, w.branches[id], (w.vols - {v}).Keys)
    {
      assert BelowExists(w.layers, w.branches[id], w.vols.Keys) && !Below(w.layers, w.branches[id], v);
    }
    forall id | IsReady(w.branches, id)
      ensures Served(w.(vols := w.vols - {v}), w.branches[id])
    {
      FirstInStack(w, id);
      assert Served(w, w.branches[id]);
    }
  }

  /** A ready branch's first volume is its own, or one of its frozen layers. */
  lemma FirstInStack(w: World, id: Id)
    requires Inv(w) && IsReady(w.branches, id)
    ensures var b := w.branches[id]; b.rw == RW(b.name, 1) || Below(w.layers, b, RW(b.name, 1))
  {
    hide PinsOk, SourcesOk, VolumesOk, ContainersOk, LayersOk, ServedOk, HasChain, Chain;
    assert Live(w.branches, id) && BranchOk(w.sources, w.layers, w.branches[id]);
  }

  /** What is done to a branch before it is handed out has been done to a ready one,
      in a volume of its own that it is mounted from. */
  lemma ReadyServed(w: World, id: Id)
    requires Inv(w) && IsReady(w.branches, id)
    ensures
      var b := w.branches[id];
      && b.source in w.sources && b.container.Some? && w.answers(b.container.value)
      && (w.sources[b.source].masked ==> exists v | v in Stack(w.layers, b) && v in w.vols :: v.RW? && v.branch == b.name && w.vols[v].masked)
      && (w.rotate ==> exists v | v in Stack(w.layers, b) && v in w.vols :: v.RW? && v.branch == b.name && w.vols[v].rotated)
  {
    hide LayersOk, PinsOk, SourcesOk, VolumesOk, ContainersOk, HasChain, Chain, GenerationOk;
    var b := w.branches[id];
    assert Live(w.branches, id) && BranchOk(w.sources, w.layers, b) && Served(w, b);
    FirstInStack(w, id);
    InStack(w.layers, b, RW(b.name, 1));
  }

  lemma InStack(ls: map<Id, Layer>, b: Branch, v: Volume)
    requires Uses(ls, b, v)
    ensures v in Stack(ls, b)
  {
    hide Chain;
    var c, vs := Base(ls, b), VolsOf(ls, Base(ls, b));
    if x :| x in c && ls[x].vol == v {
      var i :| 0 <= i < |c| && c[i] == x;
      assert vs[i] == v;
    }
  }

  lemma StartStep(w: World, stack: seq<Volume>, scope: Scope)
    requires Inv(w)
    ensures var w' := w.(conts := w.conts[w.nextCid := stack], nextCid := w.nextCid + 1); Inv(w') && Kept(w, w', scope)
  {
    hide LayersOk, BranchesOk, SourcesOk, PinsOk, VolumesOk, Uses, Stack;
  }

  lemma StopStep(w: World, c: Id, scope: Scope)
    requires Inv(w)
    requires forall id | IsReady(w.branches, id) :: w.branches[id].container != Some(c)
    ensures var w' := w.(conts := w.conts - {c}); Inv(w') && Kept(w, w', scope)
  {
    hide LayersOk, BranchesOk, SourcesOk, PinsOk, VolumesOk, Uses, Stack;
  }

  /** A live branch's own writable volume is nobody else's, and once the branch
      is no longer ready nobody needs it. */
  lemma OwnVolume(w: World, id: Id, scope: Scope)
    requires Inv(w) && Live(w.branches, id) && id in scope.branches
    ensures Private(w, w.branches[id].rw, scope)
    ensures !IsReady(w.branches, id) ==> Unneeded(w, w.branches[id].rw)
  {
    var rw := w.branches[id].rw;
    forall j | Live(w.branches, j)
      ensures !Below(w.layers, w.branches[j], rw) && (j != id ==> w.branches[j].rw != rw)
    {
      NotBelow(w, j, rw) by {
        forall x | x in w.layers
          ensures w.layers[x].vol != rw
        {
          assert GenerationOk(w.layers, w.branches[id], w.layers[x].vol);
          assert BranchOk(w.sources, w.layers, w.branches[id]);
        }
        assert BranchOk(w.sources, w.layers, w.branches[id]);
      }
      assert BranchOk(w.sources, w.layers, w.branches[j]);
    }
  }

  /** A writable volume that no layer holds lies below no branch. */
  lemma NotBelow(w: World, id: Id, v: Volume)
    requires Inv(w) && Live(w.branches, id) && v.RW?
    requires forall x | x in w.layers :: w.layers[x].vol != v
    ensures !Below(w.layers, w.branches[id], v)
  {
    assert PinOk(w.sources, w.branches[id].source, w.branches[id].srcVol);
  }

  /** The volume name a freeze picks is used by no live branch and no layer. */
  lemma NextVolumeFresh(w: World, parent: Id, scope: Scope)
    requires Inv(w) && Live(w.branches, parent)
    ensures var v := RW(w.branches[parent].name, |Base(w.layers, w.branches[parent])| + 2);
            && Unneeded(w, v) && Private(w, v, scope)
            && (forall x | x in w.layers :: w.layers[x].vol != v)
            && (forall id | Live(w.branches, id) :: w.branches[id].rw != v)
  {
    var p := w.branches[parent];
    var v := RW(p.name, |Base(w.layers, p)| + 2);
    forall x | x in w.layers
      ensures w.layers[x].vol != v
    {
      assert GenerationOk(w.layers, p, w.layers[x].vol);
    }
    forall id | Live(w.branches, id)
      ensures w.branches[id].rw != v && !Below(w.layers, w.branches[id], v)
    {
      assert BranchOk(w.sources, w.layers, w.branches[id]);
      NotBelow(w, id, v);
    }
  }

  // ---------------------------------------------------------------- sources

  /** The name-reuse rule for sources: whoever already has this generation
      volume, as a source's current one or as a branch's pin, is a source of the
      very same name. */
  predicate OwnNameOnly(sources: map<Id, Source>, bs: map<Id, Branch>, name: string, v: Volume) {
    && (forall t | t in sources :: sources[t].vol == v ==> sources[t].name == name)
    && (forall id | id in bs :: Live(bs, id) && bs[id].srcVol == v ==>
          bs[id].source in sources && sources[bs[id].source].name == name)
  }

  /** No source that is still in use bears the name. */
  predicate SourceNameUnused(sources: map<Id, Source>, name: string) {
    forall t | t in sources :: sources[t].name == name ==> sources[t].state == SeedFailed
  }

  /** Another sources table that serves every live branch just as well. */
  lemma SwapSources(w: World, sources': map<Id, Source>, scope: Scope)
    requires Inv(w) && SourcesOk(sources')
    requires forall id | Live(w.branches, id) ::
      w.branches[id].source in sources' && sources'[w.branches[id].source].state == Seeded && w.branches[id].source in w.sources
      && sources'[w.branches[id].source].masked == w.sources[w.branches[id].source].masked
    requires PinsOk(sources', w.branches)
    requires forall s | s in sources' && sources'[s].state == Seeded :: sources'[s].vol in w.vols
    requires forall s | s in w.sources && w.sources[s].state != SeedFailed && s !in scope.sources ::
      s in sources' && sources'[s] == w.sources[s]
    ensures var w' := w.(sources := sources'); Inv(w') && Kept(w, w', scope)
  {
    hide LayersOk, SourcesOk, PinsOk, ContainersOk, GenerationOk, BelowExists, Uses, Rooted;
    assert BranchesOk(sources', w.layers, w.branches) by {
      forall id | Live(w.branches, id)
        ensures BranchOk(sources', w.layers, w.branches[id])
      {
        assert BranchOk(w.sources, w.layers, w.branches[id]);
      }
    }
  }

  /** A row that may stand in the sources table under `s`. */
  ghost predicate SourceRowOk(sources: map<Id, Source>, s: Id, row: Source) {
    && 1 <= row.gen && row.vol == SourceVolume(row.name, row.gen) && (row.state != Seeded ==> row.gen == 1)
    && (forall t | t in sources && t != s && sources[t].name == row.name ::
          row.state == SeedFailed || sources[t].state == SeedFailed)
    && (forall t | t in sources && t != s && sources[t].vol == row.vol :: sources[t].name == row.name)
  }

  /** A branch whose pin survives the new row: its own source still has the
      generation, and another source does not take it over. */
  ghost predicate PinSurvives(s: Id, row: Source, b: Branch) {
    if b.source == s then row.state == Seeded && Generation(row, b.srcVol) else row.vol != b.srcVol
  }

  lemma PutSourceStep(w: World, s: Id, row: Source, scope: Scope)
    requires Inv(w) && SourceRowOk(w.sources, s, row)
    requires forall id | Live(w.branches, id) :: PinSurvives(s, row, w.branches[id])
    requires row.state == Seeded ==> row.vol in w.vols
    requires s in scope.sources || s !in w.sources || w.sources[s].state == SeedFailed
    requires s in w.sources ==> w.sources[s].name == row.name && w.sources[s].masked == row.masked
    ensures var w' := w.(sources := w.sources[s := row]); Inv(w') && Kept(w, w', scope)
  {
    hide Inv, SourcesOk, PinOk, PinSurvives, SourceRowOk, BranchOk, BelowExists, HasChain, GenerationOk;
    var sources' := w.sources[s := row];
    assert SourcesOk(w.sources) by { SourcesFine(w); }
    PutSourcesOk(w.sources, s, row);
    forall id | Live(w.branches, id)
      ensures w.branches[id].source in sources' && sources'[w.branches[id].source].state == Seeded && w.branches[id].source in w.sources
      ensures sources'[w.branches[id].source].masked == w.sources[w.branches[id].source].masked
      ensures PinOk(sources', w.branches[id].source, w.branches[id].srcVol)
    {
      LiveRow(w, id);
      SeededStays(w, s, row, w.branches[id]);
      PutPin(w.sources, s, row, w.branches[id]);
    }
    assert PinsOk(sources', w.branches);
    assert forall t | t in sources' && sources'[t].state == Seeded :: sources'[t].vol in w.vols by {
      SeededExist(w);
    }
    SwapSources(w, sources', scope);
  }

  lemma SourcesFine(w: World)
    requires Inv(w)
    ensures SourcesOk(w.sources)
  {
    hide SourcesOk;
  }

  lemma SeededStays(w: World, s: Id, row: Source, b: Branch)
    requires BranchOk(w.sources, w.layers, b) && PinSurvives(s, row, b)
    ensures b.source in w.sources
    ensures var sources' := w.sources[s := row]; b.source in sources' && sources'[b.source].state == Seeded
  {
  }

  lemma SeededExist(w: World)
    requires Inv(w)
    ensures forall t | t in w.sources && w.sources[t].state == Seeded :: w.sources[t].vol in w.vols
  {
  }

  lemma PutSourcesOk(sources: map<Id, Source>, s: Id, row: Source)
    requires SourcesOk(sources) && SourceRowOk(sources, s, row)
    ensures SourcesOk(sources[s := row])
  {
    hide SourceVolume;
    var sources' := sources[s := row];
    assert forall t | t in sources' && t != s :: t in sources && sources'[t] == sources[t];
  }

  lemma PutPin(sources: map<Id, Source>, s: Id, row: Source, b: Branch)
    requires PinOk(sources, b.source, b.srcVol) && PinSurvives(s, row, b)
    requires s in sources ==> sources[s].name == row.name
    ensures PinOk(sources[s := row], b.source, b.srcVol)
  {
    hide Generation;
    var sources' := sources[s := row];
    forall t | t in sources' && t != b.source && sources'[t].vol == b.srcVol
      ensures sources'[t].state == SeedFailed && sources'[t].name == sources'[b.source].name
    {
      assert t != s && t in sources;
    }
  }

  lemma InsertSourceStep(w: World, s: Id, row: Source, scope: Scope)
    requires Inv(w) && s !in w.sources
    requires row.state == Seeding && row.gen == 1 && row.vol == SourceVolume(row.name, 1)
    requires SourceNameUnused(w.sources, row.name)
    requires OwnNameOnly(w.sources, w.branches, row.name, row.vol)
    ensures var w' := w.(sources := w.sources[s := row]); Inv(w') && Kept(w, w', scope)
  {
    forall id | Live(w.branches, id)
      ensures PinSurvives(s, row, w.branches[id])
    {
      assert BranchOk(w.sources, w.layers, w.branches[id]);
    }
    hide SourceVolume;
    PutSourceStep(w, s, row, scope);
  }

  /** A seed ends: the source is ready, or the seed failed. */
  lemma SeedEndStep(w: World, s: Id, to: SourceState, scope: Scope)
    requires Inv(w) && s in w.sources && w.sources[s].state == Seeding && to != Seeding && s in scope.sources
    requires to == Seeded ==> w.sources[s].vol in w.vols
    ensures var w' := w.(sources := w.sources[s := w.sources[s].(state := to)]); Inv(w') && Kept(w, w', scope)
  {
    hide SourceVolume, Generation;
    var row := w.sources[s].(state := to);
    forall id | Live(w.branches, id)
      ensures PinSurvives(s, row, w.branches[id])
    {
      assert BranchOk(w.sources, w.layers, w.branches[id]);
      assert PinOk(w.sources, w.branches[id].source, w.branches[id].srcVol);
    }
    PutSourceStep(w, s, row, scope);
  }

  /** While a source is being seeded nobody else has its volume. */
  lemma SeedingPrivate(w: World, s: Id, scope: Scope)
    requires Inv(w) && s in w.sources && w.sources[s].state == Seeding && s in scope.sources
    ensures Private(w, w.sources[s].vol, scope) && Unneeded(w, w.sources[s].vol)
  {
    SourceVolumeUnneeded(w, w.sources[s].vol, scope) by {
      forall id | Live(w.branches, id)
        ensures w.branches[id].srcVol != w.sources[s].vol
      {
        assert PinOk(w.sources, w.branches[id].source, w.branches[id].srcVol);
        assert BranchOk(w.sources, w.layers, w.branches[id]);
      }
    }
  }

  /** A source volume that is nobody's pin and nobody else's current one. */
  lemma SourceVolumeUnneeded(w: World, v: Volume, scope: Scope)
    requires Inv(w) && v.SRC?
    requires forall id | Live(w.branches, id) :: w.branches[id].srcVol != v
    requires forall s | s in w.sources && w.sources[s].state == Seeded :: w.sources[s].vol != v
    requires forall s | s in w.sources && w.sources[s].state != SeedFailed && s !in scope.sources :: w.sources[s].vol != v
    ensures Unneeded(w, v) && Private(w, v, scope)
  {
    forall id | Live(w.branches, id)
      ensures !Uses(w.layers, w.branches[id], v)
    {
      assert BranchOk(w.sources, w.layers, w.branches[id]);
    }
  }

  /** The volume a refresh seeds into is nobody's. */
  lemma NextGenerationFresh(w: World, s: Id, scope: Scope)
    requires Inv(w) && s in w.sources && w.sources[s].state == Seeded
    requires OwnNameOnly(w.sources, w.branches, w.sources[s].name, SourceVolume(w.sources[s].name, w.sources[s].gen + 1))
    ensures var v := SourceVolume(w.sources[s].name, w.sources[s].gen + 1); Private(w, v, scope) && Unneeded(w, v)
  {
    hide LayersOk, BranchesOk, PinsOk, VolumesOk, ContainersOk, Private, Unneeded;
    var src := w.sources[s];
    var v := SourceVolume(src.name, src.gen + 1);
    forall id | Live(w.branches, id)
      ensures w.branches[id].srcVol != v
    {
      PinnedNotNext(w, s, id);
    }
    forall t | t in w.sources && w.sources[t].state != SeedFailed
      ensures w.sources[t].vol != v
    {
      if w.sources[t].vol == v {
        GenerationsDistinct(src.name, src.gen, src.gen + 1);
      }
    }
    SourceVolumeUnneeded(w, v, scope);
  }

  lemma PinnedNotNext(w: World, s: Id, id: Id)
    requires Inv(w) && s in w.sources && w.sources[s].state == Seeded && Live(w.branches, id)
    requires OwnNameOnly(w.sources, w.branches, w.sources[s].name, SourceVolume(w.sources[s].name, w.sources[s].gen + 1))
    ensures w.branches[id].srcVol != SourceVolume(w.sources[s].name, w.sources[s].gen + 1)
  {
    hide SourceVolume;
    var src, b := w.sources[s], w.branches[id];
    assert BranchOk(w.sources, w.layers, b) && PinOk(w.sources, b.source, b.srcVol);
    if b.srcVol == SourceVolume(src.name, src.gen + 1) {
      assert b.source == s;
      var g :| 1 <= g <= src.gen && b.srcVol == SourceVolume(src.name, g);
      GenerationsDistinct(src.name, g, src.gen + 1);
    }
  }

  /** A refresh moves a source on to its next generation. */
  lemma BumpStep(w: World, s: Id, scope: Scope)
    requires Inv(w) && s in w.sources && w.sources[s].state == Seeded && s in scope.sources
    requires var v := SourceVolume(w.sources[s].name, w.sources[s].gen + 1);
             v in w.vols && OwnNameOnly(w.sources, w.branches, w.sources[s].name, v)
    ensures var src := w.sources[s];
            var w' := w.(sources := w.sources[s := src.(gen := src.gen + 1, vol := SourceVolume(src.name, src.gen + 1))]);
            Inv(w') && Kept(w, w', scope)
  {
    hide SourceVolume;
    var src := w.sources[s];
    var row := src.(gen := src.gen + 1, vol := SourceVolume(src.name, src.gen + 1));
    forall id | Live(w.branches, id)
      ensures PinSurvives(s, row, w.branches[id])
    {
      assert PinOk(w.sources, w.branches[id].source, w.branches[id].srcVol);
      PinnedNotNext(w, s, id);
    }
    PutSourceStep(w, s, row, scope);
  }

  lemma DropSourceStep(w: World, s: Id, scope: Scope)
    requires Inv(w) && s in scope.sources
    requires forall id | Live(w.branches, id) :: w.branches[id].source != s
    ensures var w' := w.(sources := w.sources - {s}); Inv(w') && Kept(w, w', scope)
  {
    hide SourceVolume, Generation;
    forall id | Live(w.branches, id)
      ensures w.branches[id].source in w.sources - {s} && (w.sources - {s})[w.branches[id].source].state == Seeded
      ensures PinOk(w.sources - {s}, w.branches[id].source, w.branches[id].srcVol)
    {
      assert BranchOk(w.sources, w.layers, w.branches[id]);
      assert PinOk(w.sources, w.branches[id].source, w.branches[id].srcVol);
    }
    SwapSources(w, w.sources - {s}, scope);
  }

  /** Tombstones may go. */
  lemma DropBranchesStep(w: World, bs': map<Id, Branch>, scope: Scope)
    requires Inv(w)
    requires forall id | id in bs' :: id in w.branches && bs'[id] == w.branches[id]
    requires forall id | Live(w.branches, id) :: id in bs'
    ensures var w' := w.(branches := bs'); Inv(w') && Kept(w, w', scope)
  {
    hide LayersOk, BranchesOk, SourcesOk, PinsOk, VolumesOk, ContainersOk, Kept;
    DropTables(w.sources, w.layers, w.branches, bs');
    DropDriver(w, bs');
    DropKept(w, bs', scope);
  }

  lemma DropTables(sources: map<Id, Source>, ls: map<Id, Layer>, bs: map<Id, Branch>, bs': map<Id, Branch>)
    requires BranchesOk(sources, ls, bs) && PinsOk(sources, bs)
    requires forall id | id in bs' :: id in bs && bs'[id] == bs[id]
    ensures BranchesOk(sources, ls, bs') && PinsOk(sources, bs')
  {
    hide BranchOk, GenerationOk, PinOk;
    assert forall id: Id | Live(bs', id) :: Live(bs, id) && bs'[id] == bs[id];
  }

  lemma DropDriver(w: World, bs': map<Id, Branch>)
    requires VolumesOk(w.sources, w.layers, w.branches, w.vols.Keys)
    requires ContainersOk(w.layers, w.branches, w.conts, w.nextCid)
    requires forall id | id in bs' :: id in w.branches && bs'[id] == w.branches[id]
    ensures VolumesOk(w.sources, w.layers, bs', w.vols.Keys) && ContainersOk(w.layers, bs', w.conts, w.nextCid)
  {
    hide BelowExists, Running;
    assert forall id: Id | Live(bs', id) :: Live(w.branches, id) && bs'[id] == w.branches[id];
    assert forall id: Id | IsReady(bs', id) :: IsReady(w.branches, id);
  }

  lemma DropKept(w: World, bs': map<Id, Branch>, scope: Scope)
    requires forall id | id in bs' :: id in w.branches && bs'[id] == w.branches[id]
    requires forall id | Live(w.branches, id) :: id in bs'
    ensures Kept(w, w.(branches := bs'), scope)
  {
    hide Uses;
  }
}
