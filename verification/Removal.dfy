/** Destroying a branch and collecting what only it still referenced. */
module Removal {
  import opened Options
  import opened BranchStates
  import opened Names
  import opened Overlay
  import opened Worlds
  import opened Steps
  import opened Engine
  import opened Leftovers
  import opened Saga
  import opened Collect

  /** The branch's own resources are gone, or the step that failed is where the
      branch stays. */
  ghost predicate TornDown(w: World, w': World, id: Id, ok: bool, reliable: bool)
    requires id in w.branches
  {
    var b := w.branches[id];
    && id in w'.branches && w' == w.(branches := w.branches[id := w'.branches[id]], vols := w'.vols, conts := w'.conts)
    && Retouched(b, w'.branches[id]) && w'.branches[id].container == b.container
    && (w'.vols == w.vols || w'.vols == w.vols - {b.rw})
    && (w'.conts == w.conts || (b.container.Some? && w'.conts == w.conts - {b.container.value}))
    && w'.branches[id].state == (if ok then Destroyed else Destroying)
    && (b.state == Destroying ==> !ok)
    && (reliable && b.state != Destroying ==>
          && ok && (b.container.Some? ==> b.container.value !in w'.conts)
          && (!KeepsVolume(w, id) ==> b.rw !in w'.vols))
    && (KeepsVolume(w, id) ==> w'.vols == w.vols)
  }

  /** The guard against losing a freeze parent's data: a branch forced out of a
      transient state keeps its volume while another live branch depends on it. */
  predicate KeepsVolume(w: World, id: Id)
    requires id in w.branches
  {
    Transient(w.branches[id].state) && RWReferenced(w.branches, w.branches[id].name, w.branches[id].rw)
  }

  /** A branch's own state does not matter to what others depend on. */
  lemma SameReferencing(bs: map<Id, Branch>, bs': map<Id, Branch>, id: Id, rw: Volume)
    requires id in bs && id in bs' && bs' == bs[id := bs'[id]] && bs'[id].name == bs[id].name
    ensures RWReferenced(bs', bs[id].name, rw) == RWReferenced(bs, bs[id].name, rw)
  {
    var name := bs[id].name;
    if j :| j in bs && bs[j].state != Destroyed && bs[j].name != name && (bs[j].srcVol == rw || bs[j].parentName == name) {
      assert j in bs' && bs'[j] == bs[j];
    }
    if j :| j in bs' && bs'[j].state != Destroyed && bs'[j].name != name && (bs'[j].srcVol == rw || bs'[j].parentName == name) {
      assert j in bs && bs'[j] == bs[j];
    }
  }

  /** Some other live branch still depends on the volume: as its pinned source,
      or by naming this branch as its parent. */
  predicate RWReferenced(bs: map<Id, Branch>, name: string, rw: Volume) {
    exists j | j in bs :: bs[j].state != Destroyed && bs[j].name != name && (bs[j].srcVol == rw || bs[j].parentName == name)
  }

  /** Takes the branch to destroying, forcing it out of a transient state first. */
  method MarkDestroying(e: Engine, id: Id) returns (ok: bool)
    requires e.Valid() && Live(e.reg.branches, id) && id in e.scope.branches
    modifies e.reg`branches, e.reg`journal, e`hist
    ensures e.Valid() && old(e.hist) <= e.hist
    ensures ok == (old(e.reg.branches[id].state) != Destroying)
    ensures e.reg.branches == if ok then old(e.reg.branches)[id := old(e.reg.branches[id]).(state := Destroying, updated := e.reg.clock)]
                              else old(e.reg.branches)
  {
    hide Inv, Kept, Safe, Running;
    if Transient(e.reg.branches[id].state) {
      ok := e.Transition(id, Failed);
    }
    ok := e.Transition(id, Destroying);
  }

  /** Removes the container and then, unless it must be kept, the volume. */
  method DropResources(e: Engine, id: Id, keep: bool) returns (ok: bool)
    requires e.Valid() && id in e.reg.branches && id in e.scope.branches && e.reg.branches[id].state == Destroying
    modifies e.drv`vols, e.drv`done, e.drv`conts, e`hist
    ensures e.Valid() && old(e.hist) <= e.hist
    ensures
      var b := e.reg.branches[id];
      && (e.drv.vols == old(e.drv.vols) || e.drv.vols == old(e.drv.vols) - {b.rw})
      && (e.drv.conts == old(e.drv.conts) || (b.container.Some? && e.drv.conts == old(e.drv.conts) - {b.container.value}))
      && (e.drv.reliable ==> ok && (b.container.Some? ==> b.container.value !in e.drv.conts) && (!keep ==> b.rw !in e.drv.vols))
      && (keep ==> e.drv.vols == old(e.drv.vols))
  {
    hide AtMostOne, Inv, Kept, Safe, Unneeded, Private, Running;
    var b := e.reg.branches[id];
    ok := true;
    if b.container.Some? {
      LiveContainer(e.W(), id);
      ok := e.Stop(b.container.value);
    }
    if ok && !keep {
      ok := RemoveOwnVolume(e, id);
    }
  }

  method Teardown(e: Engine, id: Id) returns (ok: bool)
    requires e.Valid() && Live(e.reg.branches, id) && id in e.scope.branches
    modifies e.reg`branches, e.reg`journal, e.drv`vols, e.drv`done, e.drv`conts, e`hist
    ensures e.Valid() && old(e.hist) <= e.hist
    ensures TornDown(old(e.W()), e.W(), id, ok, e.drv.reliable)
  {
    hide Inv, Kept, Safe, Running, RWReferenced;
    var b := e.reg.branches[id];
    ok := MarkDestroying(e, id);
    SameReferencing(old(e.reg.branches), e.reg.branches, id, b.rw);
    if ok {
      ok := DropResources(e, id, Transient(b.state) && RWReferenced(e.reg.branches, b.name, b.rw));
    }
    if ok {
      ok := e.Transition(id, Destroyed);
    }
    assert e.reg.branches == old(e.reg.branches)[id := e.reg.branches[id]];
  }

  /** A destroy removes rows and resources and adds nothing; it stops at the
      first step that fails, before anything shared is collected. */
  ghost predicate Gone(w: World, w': World, id: Id, ok: bool, reliable: bool)
    requires id in w.branches
  {
    && id in w'.branches && w'.sources == w.sources && w'.nextCid == w.nextCid
    && w'.branches == w.branches[id := w'.branches[id]] && Retouched(w.branches[id], w'.branches[id])
    && w'.branches[id].container == w.branches[id].container
    && Fewer(w.layers, w'.layers) && Fewer(w.vols, w'.vols) && Fewer(w.conts, w'.conts)
    && w'.branches[id].state == (if ok then Destroyed else Destroying)
    && (!ok ==> w'.layers == w.layers)
    && (w.branches[id].state == Destroying ==> !ok)
    && (reliable && w.branches[id].state != Destroying ==> ok)
  }

  /** What a destroy frees: only layers of the branch's own chain that nobody else
      references; where nothing was left over, exactly those; and its pinned old
      generation once that is neither current nor pinned. */
  ghost predicate Freed(w: World, w': World, id: Id, ok: bool, reliable: bool) {
    && id in w.branches
    && (forall x | x in w.layers && x !in w'.layers ::
          x in Base(w.layers, w.branches[id]) && !Referenced(w.layers, w'.branches, x))
    && (ok && reliable && Tight(w) ==> forall x | x in w.layers :: x in w'.layers <==> Referenced(w.layers, w'.branches, x))
    && (ok && reliable && Forgotten(w'.sources, w'.branches, w.branches[id].source, w.branches[id].srcVol) ==>
          w.branches[id].srcVol !in w'.vols)
  }

  lemma NothingFreed(w: World, w': World, id: Id, reliable: bool)
    requires id in w.branches && w'.layers == w.layers
    ensures Freed(w, w', id, false, reliable)
  {
  }

  lemma FreedBy(w: World, w1: World, w2: World, w3: World, id: Id, chain: seq<Id>, vols: seq<Volume>, k: nat, reliable: bool)
    requires Inv(w) && Inv(w1) && Live(w.branches, id) && TornDown(w, w1, id, true, reliable)
    requires chain == Base(w.layers, w.branches[id]) && vols == VolsOf(w.layers, chain)
    requires k <= |chain| && Collected(w1, w2, chain, vols, k)
    requires reliable && TightBut(w1, chain) ==> (k < |chain| ==> Referenced(w1.layers, w1.branches, chain[k]))
    requires w3 == w2.(vols := w3.vols)
    requires reliable && Forgotten(w2.sources, w2.branches, w.branches[id].source, w.branches[id].srcVol) ==> w.branches[id].srcVol !in w3.vols
    ensures Freed(w, w3, id, true, reliable)
  {
    hide Inv, Chain, HasChain, Referenced, Tight, Forgotten, BranchOk, PinOk, BelowExists, GenerationOk;
    LiveRow(w, id);
    if reliable && Tight(w) {
      TightButChain(w, w1, id, chain);
      forall x | x in w3.layers
        ensures Referenced(w.layers, w3.branches, x)
      {
        RestReferenced(w1, w2, w.branches[id].base, chain, vols, k, x);
      }
    }
  }

  /** Another live branch stands on the same layers and the same pin. */
  ghost predicate Shared(w: World, id: Id)
    requires id in w.branches
  {
    exists j | Live(w.branches, j) && j != id :: w.branches[j].base == w.branches[id].base && w.branches[j].srcVol == w.branches[id].srcVol
  }

  method Destroy(e: Engine, id: Id) returns (ok: bool)
    requires e.Valid() && Live(e.reg.branches, id) && id in e.scope.branches
    modifies e.reg`branches, e.reg`journal, e.reg`layers, e.drv`vols, e.drv`done, e.drv`conts, e`hist
    ensures e.Valid() && old(e.hist) <= e.hist
    ensures Gone(old(e.W()), e.W(), id, ok, e.drv.reliable)
    ensures e.drv.reliable && old(Tight(e.W())) ==> Tight(e.W())
    ensures Freed(old(e.W()), e.W(), id, ok, e.drv.reliable)
    ensures old(Shared(e.W(), id)) ==> TornDown(old(e.W()), e.W(), id, ok, e.drv.reliable)
  {
    hide Inv, Kept, Safe, Running, Tight, TornDown, Freed, Forgotten, HasChain, Chain, BranchOk, PinOk, BelowExists, GenerationOk;
    ghost var w := e.W();
    var b := e.reg.branches[id];
    LiveRow(w, id);
    PinFacts(w, id);
    var chain, vols := e.LayerChain(id);
    ok := Teardown(e, id);
    ghost var w1 := e.W();
    TornDownGone(w, w1, id, ok, e.drv.reliable);
    if !ok {
      NothingFreed(w, w1, id, e.drv.reliable);
      return;
    }
    var k := GcLayers(e, chain, vols, b.base);
    ghost var w2 := e.W();
    GcSourceVolume(e, b.source, b.srcVol);
    CollectedGone(w, w1, w2, e.W(), id, chain, vols, k, e.drv.reliable);
    FreedBy(w, w1, w2, e.W(), id, chain, vols, k, e.drv.reliable);
    if e.drv.reliable && Tight(w) {
      DestroyTight(w, w1, w2, e.W(), id, chain, vols, k);
    }
    if Shared(w, id) {
      SharedKeeps(w, w1, w2, e.W(), id, chain, vols, k, e.drv.reliable);
    }
  }

  lemma PinFacts(w: World, id: Id)
    requires Inv(w) && Live(w.branches, id)
    ensures w.branches[id].srcVol.SRC?
    ensures forall t | t in w.sources && w.sources[t].state != SeedFailed && t != w.branches[id].source ::
      w.sources[t].vol != w.branches[id].srcVol
  {
    LiveRow(w, id);
  }

  lemma TornDownGone(w: World, w1: World, id: Id, ok: bool, reliable: bool)
    requires id in w.branches && TornDown(w, w1, id, ok, reliable)
    ensures Gone(w, w1, id, ok, reliable)
    ensures id in w1.branches && w1 == w.(branches := w.branches[id := w1.branches[id]], vols := w1.vols, conts := w1.conts)
    ensures Live(w.branches, id) && reliable && Tight(w) ==> ok
  {
  }

  lemma CollectedGone(w: World, w1: World, w2: World, w3: World, id: Id, chain: seq<Id>, vols: seq<Volume>, k: nat, reliable: bool)
    requires id in w.branches && TornDown(w, w1, id, true, reliable)
    requires k <= |chain| == |vols| && Collected(w1, w2, chain, vols, k)
    requires w3 == w2.(vols := w3.vols) && (w3.vols == w2.vols || w3.vols == w2.vols - {w.branches[id].srcVol})
    ensures Gone(w, w3, id, true, reliable)
  {
    assert Fewer(w1.layers, w2.layers) && Fewer(w1.vols, w2.vols) && Fewer(w2.vols, w3.vols);
  }

  /** Whoever references a layer references everything below it. */
  lemma {:induction false} ReferencedDown(w: World, at: Option<Id>, chain: seq<Id>, i: nat, j: nat)
    requires Inv(w) && IsChain(w.layers, at, chain) && i <= j < |chain|
    requires Referenced(w.layers, w.branches, chain[i])
    ensures Referenced(w.layers, w.branches, chain[j])
    decreases j - i
  {
    hide Inv, Chain;
    if i < j {
      ChainTail(w.layers, at, chain, i);
      assert chain[i..][1..][0] == chain[i + 1];
      var id :| Live(w.branches, id) && chain[i] in Base(w.layers, w.branches[id]);
      AllChains(w);
      ParentInChain(w.layers, w.branches[id].base, chain[i]);
      assert Live(w.branches, id) && chain[i + 1] in Base(w.layers, w.branches[id]);
      ReferencedDown(w, at, chain, i + 1, j);
    }
  }

  lemma TightButChain(w: World, w1: World, id: Id, chain: seq<Id>)
    requires Live(w.branches, id) && Tight(w) && chain == Base(w.layers, w.branches[id])
    requires id in w1.branches && w1.layers == w.layers && w1.branches == w.branches[id := w1.branches[id]]
    ensures TightBut(w1, chain)
  {
    hide Chain;
    forall x | x in w1.layers && x !in chain
      ensures Referenced(w1.layers, w1.branches, x)
    {
      assert Referenced(w.layers, w.branches, x);
      var j :| Live(w.branches, j) && x in Base(w.layers, w.branches[j]);
      assert Live(w1.branches, j) && x in Base(w1.layers, w1.branches[j]);
    }
  }

  lemma RestReferenced(w1: World, w2: World, at: Option<Id>, chain: seq<Id>, vols: seq<Volume>, k: nat, x: Id)
    requires Inv(w1) && IsChain(w1.layers, at, chain) && TightBut(w1, chain)
    requires k <= |chain| == |vols| && Collected(w1, w2, chain, vols, k)
    requires k < |chain| ==> Referenced(w1.layers, w1.branches, chain[k])
    requires x in w2.layers
    ensures Referenced(w2.layers, w2.branches, x) && Referenced(w1.layers, w1.branches, x)
  {
    hide Inv, Chain, HasChain, IsChain, Referenced;
    SameReferences(w1, w2.layers, Elems(chain[..k]), x);
    if x in chain {
      var j :| 0 <= j < |chain| && chain[j] == x;
      assert forall i | 0 <= i < k :: chain[i] in Elems(chain[..k]);
      ReferencedDown(w1, at, chain, k, j);
    }
  }

  lemma DestroyTight(w: World, w1: World, w2: World, w3: World, id: Id, chain: seq<Id>, vols: seq<Volume>, k: nat)
    requires Inv(w) && Inv(w1) && Live(w.branches, id) && Tight(w) && TornDown(w, w1, id, true, true)
    requires chain == Base(w.layers, w.branches[id]) && vols == VolsOf(w.layers, chain)
    requires k <= |chain| && Collected(w1, w2, chain, vols, k)
    requires TightBut(w1, chain) ==>
      (k < |chain| ==> Referenced(w1.layers, w1.branches, chain[k])) && w2.vols == w1.vols - Elems(vols[..k])
    requires w3 == w2.(vols := w3.vols) && (w3.vols == w2.vols || w3.vols == w2.vols - {w.branches[id].srcVol})
    requires Forgotten(w2.sources, w2.branches, w.branches[id].source, w.branches[id].srcVol) ==> w.branches[id].srcVol !in w3.vols
    ensures Tight(w3)
  {
    hide Inv, Chain, HasChain, Referenced, Owned, Claimed, BranchOk, PinOk, BelowExists, GenerationOk;
    LiveRow(w, id);
    TightButChain(w, w1, id, chain);
    forall x | x in w3.layers
      ensures Referenced(w3.layers, w3.branches, x)
    {
      RestReferenced(w1, w2, w.branches[id].base, chain, vols, k, x);
    }
    forall v | v in w3.vols
      ensures Owned(w3, v)
    {
      StillOwned(w, w3, id, chain, vols, k, v);
    }
    forall c | c in w3.conts
      ensures Claimed(w3.branches, c)
    {
      StillClaimed(w.branches, w3.branches, id, c);
    }
    assert forall j: Id | Live(w3.branches, j) :: Live(w.branches, j) && w3.branches[j] == w.branches[j];
  }

  lemma StillClaimed(bs: map<Id, Branch>, bs': map<Id, Branch>, id: Id, c: Id)
    requires Claimed(bs, c) && id in bs' && bs' == bs[id := bs'[id]] && id in bs && bs[id].container != Some(c)
    ensures Claimed(bs', c)
  {
    var j :| Live(bs, j) && bs[j].container == Some(c);
    assert Live(bs', j) && bs'[j].container == Some(c);
  }

  /** Every volume that is left still has an owner. */
  lemma StillOwned(w: World, w3: World, id: Id, chain: seq<Id>, vols: seq<Volume>, k: nat, v: Volume)
    requires Live(w.branches, id) && Owned(w, v) && v != w.branches[id].rw
    requires id in w3.branches && w3.branches == w.branches[id := w3.branches[id]] && w3.sources == w.sources
    requires w3.branches[id].state == Destroyed
    requires |vols| == |chain| && k <= |chain| && (forall x | x in chain :: x in w.layers) && vols == VolsOf(w.layers, chain)
    requires w3.layers == w.layers - Elems(chain[..k]) && v !in vols[..k]
    requires Forgotten(w3.sources, w3.branches, w.branches[id].source, w.branches[id].srcVol) ==> v != w.branches[id].srcVol
    ensures Owned(w3, v)
  {
    hide Chain;
    assert forall i | 0 <= i < k :: w.layers[chain[i]].vol == vols[i] && vols[i] in vols[..k];
    if j :| Live(w.branches, j) && j != id && (w.branches[j].rw == v || w.branches[j].srcVol == v) {
      assert Live(w3.branches, j) && w3.branches[j] == w.branches[j];
    } else if x :| x in w.layers && w.layers[x].vol == v {
      assert x !in chain[..k];
      assert x in w3.layers;
    }
  }

  lemma CollectedFirst(w1: World, w2: World, chain: seq<Id>, vols: seq<Volume>, k: nat)
    requires k <= |chain| == |vols| && Collected(w1, w2, chain, vols, k)
    ensures k > 0 ==> !Referenced(w1.layers, w1.branches, chain[0])
  {
    assert k > 0 ==> chain[..k][0] == chain[0];
  }

  lemma SharedKeeps(w: World, w1: World, w2: World, w3: World, id: Id, chain: seq<Id>, vols: seq<Volume>, k: nat, reliable: bool)
    requires Inv(w) && Live(w.branches, id) && TornDown(w, w1, id, true, reliable) && Shared(w, id)
    requires chain == Base(w.layers, w.branches[id]) && k <= |chain| == |vols| && Collected(w1, w2, chain, vols, k)
    requires w3 == w2.(vols := w3.vols)
    requires w3.vols == w2.vols || Forgotten(w2.sources, w2.branches, w.branches[id].source, w.branches[id].srcVol)
    ensures w3 == w1
  {
    hide Inv, Chain, HasChain;
    var j :| Live(w.branches, j) && j != id && w.branches[j].base == w.branches[id].base && w.branches[j].srcVol == w.branches[id].srcVol;
    assert Live(w1.branches, j) && w1.branches[j] == w.branches[j];
    CollectedFirst(w1, w2, chain, vols, k);
    if chain != [] {
      assert chain[0] in Base(w1.layers, w1.branches[j]);
      assert Referenced(w1.layers, w1.branches, chain[0]);
    }
    assert k == 0;
    assert Elems(chain[..0]) == {} && Elems(vols[..0]) == {};
  }
}
