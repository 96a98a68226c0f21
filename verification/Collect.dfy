/** Garbage collection of frozen layers and of old source generations. */
module Collect {
  import opened Options
  import opened BranchStates
  import opened Names
  import opened Overlay
  import opened Worlds
  import opened Steps
  import opened Engine
  import opened Registry
  import opened Leftovers

  lemma AllChains(w: World)
    requires Inv(w)
    ensures forall id | Live(w.branches, id) :: HasChain(w.layers, w.branches[id].base)
  {
    forall id | Live(w.branches, id)
      ensures HasChain(w.layers, w.branches[id].base)
    {
      LiveRow(w, id);
    }
  }

  /** The volume of a layer that no live branch references is needed by nobody. */
  lemma LayerVolumeUnneeded(w: World, x: Id, scope: Scope)
    requires Inv(w) && x in w.layers && !Referenced(w.layers, w.branches, x)
    ensures Unneeded(w, w.layers[x].vol) && Private(w, w.layers[x].vol, scope)
  {
    hide BranchesOk, PinsOk, VolumesOk, ContainersOk, Uses, Below, Chain;
    forall id | Live(w.branches, id)
      ensures !Uses(w.layers, w.branches[id], w.layers[x].vol)
      ensures !Below(w.layers, w.branches[id], w.layers[x].vol) && w.branches[id].rw != w.layers[x].vol
    {
      LayerUnused(w, x, id);
    }
    assert forall id | IsReady(w.branches, id) :: Live(w.branches, id);
  }

  lemma LayerUnused(w: World, x: Id, id: Id)
    requires Inv(w) && x in w.layers && Live(w.branches, id) && x !in Base(w.layers, w.branches[id])
    ensures !Uses(w.layers, w.branches[id], w.layers[x].vol)
    ensures !Below(w.layers, w.branches[id], w.layers[x].vol) && w.branches[id].rw != w.layers[x].vol
  {
    hide BranchesOk, PinsOk, VolumesOk, ContainersOk, SourcesOk, Chain, HasChain;
    LiveRow(w, id);
  }

  ghost predicate Distinct(chain: seq<Id>) {
    forall i, j | 0 <= i < j < |chain| :: chain[i] != chain[j]
  }

  function Elems<T>(s: seq<T>): set<T> {
    set x | x in s
  }

  /** How far the walk got: the first `k` layers are gone, none of them was
      referenced, and at most one more volume went with them. */
  ghost predicate Collected(w: World, w': World, chain: seq<Id>, vols: seq<Volume>, k: nat)
    requires k <= |chain| == |vols|
  {
    && w' == w.(layers := w'.layers, vols := w'.vols)
    && w'.layers == w.layers - Elems(chain[..k])
    && (forall x | x in chain[..k] :: !Referenced(w.layers, w.branches, x))
    && (|| w'.vols == w.vols - Elems(vols[..k])
        || (k < |chain| && w'.vols == w.vols - Elems(vols[..k + 1]) && !Referenced(w.layers, w.branches, chain[k])))
  }

  /** Every layer outside the chain is referenced by a live branch. */
  ghost predicate TightBut(w: World, chain: seq<Id>) {
    forall x | x in w.layers && x !in chain :: Referenced(w.layers, w.branches, x)
  }

  /** Removing unreferenced layers changes no live branch's chain. */
  lemma SameReferences(w: World, ls': map<Id, Layer>, gone: set<Id>, x: Id)
    requires Inv(w) && ls' == w.layers - gone
    requires forall y | y in gone :: !Referenced(w.layers, w.branches, y)
    ensures Referenced(ls', w.branches, x) <==> Referenced(w.layers, w.branches, x)
  {
    hide Inv, Chain;
    forall id | Live(w.branches, id)
      ensures Base(ls', w.branches[id]) == Base(w.layers, w.branches[id])
    {
      SameBase(w, ls', gone, id);
    }
    hide Base;
  }

  lemma SameBase(w: World, ls': map<Id, Layer>, gone: set<Id>, id: Id)
    requires Inv(w) && ls' == w.layers - gone && Live(w.branches, id)
    requires forall y | y in gone :: !Referenced(w.layers, w.branches, y)
    ensures Base(ls', w.branches[id]) == Base(w.layers, w.branches[id])
  {
    hide Inv, Chain, HasChain, BranchOk, PinOk, BelowExists, GenerationOk;
    LiveRow(w, id);
    ChainStable(w.layers, ls', w.branches[id].base);
  }

  /** The foreign key does not stand in the way: a layer still chained onto an
      unreferenced one would have to be referenced itself. */
  lemma NoChildLeft(w: World, at: Option<Id>, chain: seq<Id>, k: nat, y: Id)
    requires Inv(w) && IsChain(w.layers, at, chain) && k < |chain| && TightBut(w, chain)
    requires !Referenced(w.layers, w.branches, chain[k])
    requires y in w.layers && y !in chain[..k]
    ensures w.layers[y].parent != Some(chain[k])
  {
    hide Inv, HasChain, Chain;
    if y in chain {
      var j :| 0 <= j < |chain| && chain[j] == y;
      ChainTail(w.layers, at, chain, j);
      assert forall i | 0 <= i < k :: chain[i] in chain[..k];
      LaterParent(w.layers, at, chain, k, j);
    } else {
      var id :| Live(w.branches, id) && y in Base(w.layers, w.branches[id]);
      AllChains(w);
      if w.layers[y].parent == Some(chain[k]) {
        ParentInChain(w.layers, w.branches[id].base, y);
      }
    }
  }

  /** Parents point further down a chain, never back up. */
  lemma LaterParent(ls: map<Id, Layer>, at: Option<Id>, chain: seq<Id>, k: nat, j: nat)
    requires IsChain(ls, at, chain) && k <= j < |chain|
    ensures chain[j] in ls && ls[chain[j]].parent != Some(chain[k])
  {
    ChainTail(ls, at, chain, j);
    var rest := chain[j..][1..];
    if ls[chain[j]].parent.Some? {
      assert rest[0] == ls[chain[j]].parent.value && rest[0] == chain[j + 1];
      ChainNoRepeat(ls, at, chain, k, j + 1);
    }
  }

  /** One step of the walk. */
  method GcLayer(e: Engine, ghost w: World, chain: seq<Id>, vols: seq<Volume>, ghost at: Option<Id>, k: nat) returns (stop: bool)
    requires e.Valid() && Inv(w) && IsChain(w.layers, at, chain) && Distinct(chain)
    requires |vols| == |chain| && forall i | 0 <= i < |chain| :: chain[i] in w.layers && w.layers[chain[i]].vol == vols[i]
    requires k < |chain| && Collected(w, e.W(), chain, vols, k) && e.drv.vols == w.vols - Elems(vols[..k])
    modifies e.drv`vols, e.drv`done, e.reg`layers, e`hist
    ensures e.Valid() && old(e.hist) <= e.hist
    ensures !stop ==> Collected(w, e.W(), chain, vols, k + 1) && e.drv.vols == w.vols - Elems(vols[..k + 1])
    ensures stop ==> Collected(w, e.W(), chain, vols, k)
    ensures stop && e.drv.reliable && TightBut(w, chain) ==>
      Referenced(w.layers, w.branches, chain[k]) && e.drv.vols == w.vols - Elems(vols[..k])
  {
    hide AtMostOne, Inv, Kept, Safe, Referenced, HasChain, IsChain, Chain, Unneeded, Private;
    var x := chain[k];
    assert x in e.reg.layers;
    AllChains(e.W());
    var n := e.reg.CountBranchesReferencingLayer(x);
    CountZero(e.reg.layers, e.reg.branches, x, n);
    SameReferences(w, e.reg.layers, Elems(chain[..k]), x);
    if n > 0 {
      return true;
    }
    LayerVolumeUnneeded(e.W(), x, e.scope);
    var ok := e.RemoveVolume(vols[k]);
    if !ok {
      return true;
    }
    assert Elems(vols[..k + 1]) == Elems(vols[..k]) + {vols[k]};
    assert e.drv.vols == w.vols - Elems(vols[..k + 1]);
    ok := e.DeleteLayer(x);
    if ok {
      assert Elems(chain[..k + 1]) == Elems(chain[..k]) + {x};
      assert e.reg.layers == w.layers - Elems(chain[..k + 1]);
      return false;
    }
    if TightBut(w, chain) {
      forall y | y in w.layers && y !in chain[..k]
        ensures w.layers[y].parent != Some(x)
      {
        NoChildLeft(w, at, chain, k, y);
      }
      assert false;
    }
    return true;
  }

  lemma CountZero(ls: map<Id, Layer>, bs: map<Id, Branch>, x: Id, n: nat)
    requires n == |Referents(ls, bs, x)|
    ensures n == 0 <==> !Referenced(ls, bs, x)
    ensures n == 0 ==> forall id | Live(bs, id) :: x !in Base(ls, bs[id])
  {
    hide Base;
    if n == 0 {
      assert Referents(ls, bs, x) == {};
      assert forall id | Live(bs, id) :: id !in Referents(ls, bs, x);
    } else {
      var id :| id in Referents(ls, bs, x);
    }
  }

  /** Walks a chain topmost first and removes layers until one is referenced. */
  method GcLayers(e: Engine, chain: seq<Id>, vols: seq<Volume>, ghost at: Option<Id>) returns (k: nat)
    requires e.Valid() && IsChain(e.reg.layers, at, chain)
    requires |vols| == |chain| && forall i | 0 <= i < |chain| :: chain[i] in e.reg.layers && e.reg.layers[chain[i]].vol == vols[i]
    modifies e.drv`vols, e.drv`done, e.reg`layers, e`hist
    ensures e.Valid() && old(e.hist) <= e.hist
    ensures k <= |chain| && Collected(old(e.W()), e.W(), chain, vols, k)
    ensures e.drv.reliable && old(TightBut(e.W(), chain)) ==>
      && (k < |chain| ==> old(Referenced(e.reg.layers, e.reg.branches, chain[k])))
      && e.drv.vols == old(e.drv.vols) - Elems(vols[..k])
  {
    hide Inv, Kept, Safe, Referenced, HasChain, IsChain, Chain;
    ghost var w := e.W();
    assert Distinct(chain) by {
      forall i, j | 0 <= i < j < |chain|
        ensures chain[i] != chain[j]
      {
        ChainNoRepeat(e.reg.layers, at, chain, i, j);
      }
    }
    k := 0;
    assert chain[..0] == [] && vols[..0] == [];
    while k < |chain|
      invariant k <= |chain| && e.Valid() && old(e.hist) <= e.hist
      invariant Collected(w, e.W(), chain, vols, k) && e.drv.vols == w.vols - Elems(vols[..k])
    {
      var stop := GcLayer(e, w, chain, vols, at, k);
      if stop {
        return;
      }
      k := k + 1;
    }
  }

  /** Removes an old generation's volume once it is neither its source's current
      one nor pinned by a live branch. */
  method GcSourceVolume(e: Engine, s: Id, v: Volume)
    requires e.Valid() && v.SRC?
    requires forall t | t in e.reg.sources && e.reg.sources[t].state != SeedFailed && t != s :: e.reg.sources[t].vol != v
    modifies e.drv`vols, e.drv`done, e`hist
    ensures e.Valid() && old(e.hist) <= e.hist
    ensures e.drv.vols == old(e.drv.vols) || (e.drv.vols == old(e.drv.vols) - {v} && Forgotten(e.reg.sources, e.reg.branches, s, v))
    ensures e.drv.reliable && Forgotten(e.reg.sources, e.reg.branches, s, v) ==> v !in e.drv.vols
  {
    hide AtMostOne, Inv, Kept, Safe, Unneeded, Private;
    if s in e.reg.sources && e.reg.sources[s].vol == v {
      return;
    }
    if exists id | id in e.reg.branches :: Live(e.reg.branches, id) && e.reg.branches[id].srcVol == v {
      return;
    }
    if id: Id :| id in e.reg.branches && Live(e.reg.branches, id) && e.reg.branches[id].rw == v {
      WritableIsNoSource(e.W(), id);
      assert false;
    }
    SourceVolumeUnneeded(e.W(), v, e.scope);
    var ok := e.RemoveVolume(v);
  }

  /** Neither its own source's current volume nor pinned by a live branch. */
  ghost predicate Forgotten(sources: map<Id, Source>, bs: map<Id, Branch>, s: Id, v: Volume) {
    && (s in sources ==> sources[s].vol != v)
    && (forall id | Live(bs, id) :: bs[id].srcVol != v)
  }

  lemma WritableIsNoSource(w: World, id: Id)
    requires Inv(w) && Live(w.branches, id)
    ensures w.branches[id].rw.RW?
  {
    LiveRow(w, id);
  }
}
