/** Nothing is left over: the stronger invariant of runs in which removals
    succeed. */
module Leftovers {
  import opened Options
  import opened BranchStates
  import opened Names
  import opened Overlay
  import opened Worlds
  import opened Steps

  ghost predicate Referenced(ls: map<Id, Layer>, bs: map<Id, Branch>, x: Id) {
    exists id :: Live(bs, id) && x in Base(ls, bs[id])
  }

  /** Some live row or some source still names the volume. */
  ghost predicate Owned(w: World, v: Volume) {
    || (exists id :: Live(w.branches, id) && (w.branches[id].rw == v || w.branches[id].srcVol == v))
    || (exists s :: s in w.sources && w.sources[s].vol == v)
    || (exists x :: x in w.layers && w.layers[x].vol == v)
  }

  ghost predicate Claimed(bs: map<Id, Branch>, c: Id) {
    exists id :: Live(bs, id) && bs[id].container == Some(c)
  }

  /** No branch is caught between two states, no layer is unreferenced, no
      volume unowned, no container unclaimed. */
  ghost predicate Tight(w: World) {
    && (forall id | Live(w.branches, id) :: w.branches[id].state == Ready || w.branches[id].state == Failed)
    && (forall x | x in w.layers :: Referenced(w.layers, w.branches, x))
    && (forall v | v in w.vols :: Owned(w, v))
    && (forall c | c in w.conts :: Claimed(w.branches, c))
  }

  /** A row is added, or provisioned anew; its own volume and container are all
      that is new. */
  lemma TightPut(w: World, w': World, id: Id)
    requires Tight(w) && id in w'.branches
    requires w'.sources == w.sources && w'.layers == w.layers && w'.branches == w.branches[id := w'.branches[id]]
    requires w'.branches[id].state == Ready || w'.branches[id].state == Failed
    requires Live(w.branches, id) ==> Retouched(w.branches[id], w'.branches[id])
    requires w'.vols.Keys <= w.vols.Keys + {w'.branches[id].rw}
    requires forall c | c in w'.conts :: Some(c) == w'.branches[id].container
                                         || (c in w.conts && (id in w.branches ==> w.branches[id].container != Some(c)))
    ensures Tight(w')
  {
    hide Referenced, Owned, Claimed;
    assert forall j: Id | Live(w'.branches, j) :: j == id || Live(w.branches, j);
    forall x | x in w'.layers
      ensures Referenced(w'.layers, w'.branches, x)
    {
      KeepReferenced(w.layers, w.branches, w'.branches, x);
    }
    forall v | v in w'.vols
      ensures Owned(w', v)
    {
      KeepOwned(w, w', id, v);
    }
    forall c | c in w'.conts
      ensures Claimed(w'.branches, c)
    {
      KeepClaimed(w.branches, w'.branches, id, c);
    }
  }

  /** Live rows stay live on the same base. */
  ghost predicate Stays(bs: map<Id, Branch>, bs': map<Id, Branch>) {
    forall j | Live(bs, j) :: Live(bs', j) && bs'[j].base == bs[j].base && bs'[j].rw == bs[j].rw && bs'[j].srcVol == bs[j].srcVol
  }

  lemma KeepReferenced(ls: map<Id, Layer>, bs: map<Id, Branch>, bs': map<Id, Branch>, x: Id)
    requires Referenced(ls, bs, x) && Stays(bs, bs')
    ensures Referenced(ls, bs', x)
  {
    hide Chain;
    var j :| Live(bs, j) && x in Base(ls, bs[j]);
    assert Live(bs', j) && x in Base(ls, bs'[j]);
  }

  lemma KeepOwned(w: World, w': World, id: Id, v: Volume)
    requires Stays(w.branches, w'.branches) && w'.sources == w.sources && w'.layers == w.layers && Live(w'.branches, id)
    requires Owned(w, v) || v == w'.branches[id].rw
    ensures Owned(w', v)
  {
    if v != w'.branches[id].rw {
      if j :| Live(w.branches, j) && (w.branches[j].rw == v || w.branches[j].srcVol == v) {
        assert Live(w'.branches, j);
      }
    }
  }

  lemma KeepClaimed(bs: map<Id, Branch>, bs': map<Id, Branch>, id: Id, c: Id)
    requires Live(bs', id) && bs' == bs[id := bs'[id]]
    requires Some(c) == bs'[id].container || (Claimed(bs, c) && (id in bs ==> bs[id].container != Some(c)))
    ensures Claimed(bs', c)
  {
    if Some(c) != bs'[id].container {
      var j :| Live(bs, j) && bs[j].container == Some(c);
      assert Live(bs', j) && bs'[j].container == Some(c);
    }
  }

  /** A writable volume that no live row and no layer has is nobody's. */
  lemma NotOwned(w: World, v: Volume)
    requires Inv(w) && v.RW?
    requires forall id | Live(w.branches, id) :: w.branches[id].rw != v
    requires forall x | x in w.layers :: w.layers[x].vol != v
    ensures !Owned(w, v)
  {
    forall id | Live(w.branches, id)
      ensures w.branches[id].srcVol != v
    {
      LiveRow(w, id);
    }
    hide LayersOk, BranchesOk, PinsOk, VolumesOk, ContainersOk;
  }

  /** In a tight state the volume a freeze will create does not exist yet. */
  lemma NextVolumeAbsent(w: World, parent: Id)
    requires Inv(w) && Tight(w) && Live(w.branches, parent)
    ensures RW(w.branches[parent].name, |Base(w.layers, w.branches[parent])| + 2) !in w.vols
  {
    hide Inv;
    NextVolumeFresh(w, parent, Scope({}, {}));
    NotOwned(w, RW(w.branches[parent].name, |Base(w.layers, w.branches[parent])| + 2));
  }

  /** Nor does the volume of a new branch whose name is free. */
  lemma FirstVolumeAbsent(w: World, name: string)
    requires Inv(w) && Tight(w) && NameFree(w.layers, name)
    requires forall id | Live(w.branches, id) :: w.branches[id].name != name
    ensures RW(name, 1) !in w.vols
  {
    hide Inv, PinOk, GenerationOk, BelowExists, HasChain, Chain;
    forall id | Live(w.branches, id)
      ensures w.branches[id].rw != RW(name, 1)
    {
      LiveRow(w, id);
    }
    NotOwned(w, RW(name, 1));
  }
}
