/** The operations on sources: seed, refresh into a new generation, remove. */
module Sources {
  import opened Options
  import opened BranchStates
  import opened Names
  import opened Overlay
  import opened Worlds
  import opened Steps
  import opened Engine
  import opened Leftovers
  import opened Collect
  import opened Branching
  import opened Registry

  lemma NoBranchViews(e: Engine, w: World)
    requires e.Valid() && e.origin == w && Inv(w) && e.scope.branches == {}
    ensures ViewsKept(w, e.W(), {})
  {
    ScopeViews(w, e.W(), e.scope);
  }

  /** The sources table and the volumes changed; every volume that is left is
      either owned as before or the named source's current one. */
  lemma TightSources(w: World, w': World, s: Id)
    requires Tight(w) && w' == w.(sources := w'.sources, vols := w'.vols) && s in w'.sources
    requires forall t | t in w.sources && t != s :: t in w'.sources && w'.sources[t].vol == w.sources[t].vol
    requires forall v | v in w'.vols :: v == w'.sources[s].vol || (v in w.vols && (s in w.sources && w.sources[s].vol == v ==> Owned(w', v)))
    ensures Tight(w')
  {
    hide Referenced, Claimed;
    forall v | v in w'.vols
      ensures Owned(w', v)
    {
      if v != w'.sources[s].vol {
        assert Owned(w, v);
      }
    }
  }

  /** Registers a source and seeds it from a live database. */
  method AddSource(e: Engine, name: string, masked: bool, database: Content) returns (ok: bool, s: Option<Id>)
    requires Inv(e.W()) && OwnNameOnly(e.reg.sources, e.reg.branches, name, SourceVolume(name, 1))
    modifies e.reg`sources, e.drv`vols, e.drv`done, e
    ensures e.Valid() && e.origin == old(e.W()) && ViewsKept(old(e.W()), e.W(), {})
    ensures e.drv.reliable && old(Tight(e.W())) ==> Tight(e.W())
    ensures s.None? ==> !ok && e.W() == old(e.W()) && e.scope == Scope({}, {})
    ensures e.drv.perfect && e.reg.freshIds && ValidName(name) && SourceNameUnused(old(e.reg.sources), name) ==> ok
    ensures s.Some? ==> ValidName(name)
    ensures s.Some? ==>
      && s.value !in old(e.reg.sources) && SourceNameUnused(old(e.reg.sources), name) && e.scope == Scope({}, {s.value})
      && e.reg.sources == old(e.reg.sources)[s.value := Source(name, if ok then Seeded else SeedFailed, SourceVolume(name, 1), 1, masked)]
      && (ok ==> SourceVolume(name, 1) in e.drv.vols && e.drv.vols[SourceVolume(name, 1)].files == database)
      && (forall v | v in e.drv.vols :: v in old(e.drv.vols) || v == SourceVolume(name, 1))
      && (!ok && e.drv.reliable ==> e.drv.vols.Keys <= old(e.drv.vols).Keys)
  {
    hide Inv, Kept, Safe, Tight, ViewsKept, SourceVolume, OwnNameOnly, Private, Unneeded, SourceNameUnused, ValidName;
    ghost var w := e.W();
    e.Begin({}, {});
    ok, s := false, None;
    var v := SourceVolume(name, 1);
    if ValidName(name) {
      s := e.CreateSource(Source(name, Seeding, v, 1, masked));
      if s.Some? {
        ok := SeedNew(e, s.value, database);
        AddedTight(w, e.W(), s.value);
      }
    }
    NoBranchViews(e, w);
  }

  lemma AddedTight(w: World, w': World, s: Id)
    requires s !in w.sources && s in w'.sources && w' == w.(sources := w.sources[s := w'.sources[s]], vols := w'.vols)
    requires forall v | v in w'.vols :: v in w.vols || v == w'.sources[s].vol
    ensures Tight(w) ==> Tight(w')
  {
    hide Tight;
    if Tight(w) {
      TightSources(w, w', s);
    }
  }

  /** Volume, seed, and the state the source ends in. */
  method SeedNew(e: Engine, s: Id, database: Content) returns (ok: bool)
    requires e.Valid() && s in e.reg.sources && e.reg.sources[s].state == Seeding && s in e.scope.sources
    modifies e.reg`sources, e.drv`vols, e.drv`done, e`hist
    ensures e.Valid() && old(e.hist) <= e.hist && (e.drv.perfect ==> ok)
    ensures e.reg.sources == old(e.reg.sources)[s := old(e.reg.sources[s]).(state := if ok then Seeded else SeedFailed)]
    ensures ok ==> e.reg.sources[s].vol in e.drv.vols && e.drv.vols[e.reg.sources[s].vol].files == database
    ensures forall v | v in e.drv.vols :: v in old(e.drv.vols) || v == e.reg.sources[s].vol
    ensures !ok && e.drv.reliable ==> e.drv.vols.Keys <= old(e.drv.vols).Keys
  {
    hide AtMostOne, Inv, Kept, Safe, Private, Unneeded;
    var v := e.reg.sources[s].vol;
    ok := e.CreateVolume(v);
    if ok {
      SeedingPrivate(e.W(), s, e.scope);
      ok := e.Seed(v, database);
      if !ok {
        SeedingPrivate(e.W(), s, e.scope);
        var removed := e.RemoveVolume(v);
      }
    }
    e.EndSeed(s, if ok then Seeded else SeedFailed);
  }

  /** Seeds a source's next generation and moves the source on to it. The old
      generation stays for as long as a live branch is pinned to it. */
  method RefreshSource(e: Engine, name: string, database: Content) returns (ok: bool, s: Option<Id>)
    requires Inv(e.W())
    requires forall t | t in e.reg.sources && e.reg.sources[t].name == name && e.reg.sources[t].state == Seeded ::
      OwnNameOnly(e.reg.sources, e.reg.branches, name, SourceVolume(name, e.reg.sources[t].gen + 1))
    modifies e.reg`sources, e.drv`vols, e.drv`done, e
    ensures e.Valid() && e.origin == old(e.W()) && ViewsKept(old(e.W()), e.W(), {})
    ensures e.scope.branches == {}
    ensures e.drv.reliable && old(Tight(e.W())) ==> Tight(e.W())
    ensures s.Some? ==> s.value in old(e.reg.sources)
    ensures !ok ==> e.reg.sources == old(e.reg.sources) && (s.Some? ==> SameContent(old(e.drv.vols), e.drv.vols, old(e.reg.sources)[s.value].vol))
    ensures e.drv.perfect && (exists t :: t in old(e.reg.sources) && old(e.reg.sources)[t].name == name && old(e.reg.sources)[t].state == Seeded) ==> ok
    ensures e.scope.sources == if s.Some? then {s.value} else {}
    ensures ok ==>
      && s.Some? && s.value in old(e.reg.sources) && s.value in e.reg.sources && e.reg.sources[s.value].name == name
      && var src := old(e.reg.sources)[s.value];
      && src.name == name && src.state == Seeded
      && e.reg.sources == old(e.reg.sources)[s.value := src.(gen := src.gen + 1, vol := SourceVolume(name, src.gen + 1))]
      && SourceVolume(name, src.gen + 1) in e.drv.vols && e.drv.vols[SourceVolume(name, src.gen + 1)].files == database
      && (e.drv.reliable && (forall id | Live(e.reg.branches, id) :: e.reg.branches[id].srcVol != src.vol) ==> src.vol !in e.drv.vols)
  {
    hide Inv, Kept, Safe, Tight, ViewsKept, SourceVolume, OwnNameOnly, Private, Unneeded;
    ghost var w := e.W();
    ok := false;
    s := e.reg.GetSourceByName(name);
    SourcePicked(w, name, s);
    e.Begin({}, if s.Some? then {s.value} else {});
    if s.Some? && e.reg.sources[s.value].state == Seeded {
      ok := Regenerate(e, s.value, database);
      if e.drv.reliable && Tight(w) {
        RefreshTight(w, e.W(), s.value, ok);
      }
    } else {
      assert e.W() == w;
    }
    NoBranchViews(e, w);
  }

  method Regenerate(e: Engine, s: Id, database: Content) returns (ok: bool)
    requires e.Valid() && s in e.reg.sources && e.reg.sources[s].state == Seeded && s in e.scope.sources
    requires OwnNameOnly(e.reg.sources, e.reg.branches, e.reg.sources[s].name, SourceVolume(e.reg.sources[s].name, e.reg.sources[s].gen + 1))
    modifies e.reg`sources, e.drv`vols, e.drv`done, e`hist
    ensures e.Valid() && old(e.hist) <= e.hist && (e.drv.perfect ==> ok)
    ensures
      var src := old(e.reg.sources[s]);
      var v := SourceVolume(src.name, src.gen + 1);
      && e.reg.sources == (if ok then old(e.reg.sources)[s := src.(gen := src.gen + 1, vol := v)] else old(e.reg.sources))
      && (forall u | u in e.drv.vols && u != v :: u in old(e.drv.vols))
      && (!ok ==> SameContent(old(e.drv.vols), e.drv.vols, src.vol))
      && (if ok then v != src.vol && v in e.drv.vols && e.drv.vols[v].files == database && (e.drv.reliable && Forgotten(e.reg.sources, e.reg.branches, s, src.vol) ==> src.vol !in e.drv.vols)
          else e.drv.reliable ==> v in e.drv.vols ==> v in old(e.drv.vols))
  {
    hide AtMostOne, Inv, Kept, Safe, SourceVolume, OwnNameOnly, Private, Unneeded;
    var src := e.reg.sources[s];
    var v := SourceVolume(src.name, src.gen + 1);
    OldGeneration(e.W(), s);
    ok := e.CreateVolume(v);
    if !ok {
      return;
    }
    NextGenerationFresh(e.W(), s, e.scope);
    ok := e.Seed(v, database);
    if !ok {
      NextGenerationFresh(e.W(), s, e.scope);
      var removed := e.RemoveVolume(v);
      return;
    }
    e.BumpGeneration(s);
    GcSourceVolume(e, s, src.vol);
  }

  /** The generation a source is leaving is no other seeded source's, and is not
      the one it moves to. */
  lemma OldGeneration(w: World, s: Id)
    requires Inv(w) && s in w.sources && w.sources[s].state == Seeded
    ensures w.sources[s].vol.SRC? && w.sources[s].vol != SourceVolume(w.sources[s].name, w.sources[s].gen + 1)
    ensures forall t | t in w.sources && w.sources[t].state != SeedFailed && t != s :: w.sources[t].vol != w.sources[s].vol
  {
    hide LayersOk, BranchesOk, PinsOk, VolumesOk, ContainersOk;
    if w.sources[s].vol == SourceVolume(w.sources[s].name, w.sources[s].gen + 1) {
      GenerationsDistinct(w.sources[s].name, w.sources[s].gen, w.sources[s].gen + 1);
    }
  }

  lemma RefreshTight(w: World, w': World, s: Id, ok: bool)
    requires Tight(w) && s in w.sources && w' == w.(sources := w'.sources, vols := w'.vols)
    requires
      var src := w.sources[s];
      var v := SourceVolume(src.name, src.gen + 1);
      && w'.sources == (if ok then w.sources[s := src.(gen := src.gen + 1, vol := v)] else w.sources)
      && (forall u | u in w'.vols && u != v :: u in w.vols)
      && (if ok then v in w'.vols && (Forgotten(w'.sources, w'.branches, s, src.vol) ==> src.vol !in w'.vols)
          else v in w'.vols ==> v in w.vols)
    ensures Tight(w')
  {
    hide Tight, SourceVolume;
    forall u | u in w'.vols && u != w'.sources[s].vol && w.sources[s].vol == u
      ensures Owned(w', u)
    {
      var id :| Live(w'.branches, id) && w'.branches[id].srcVol == u;
    }
    TightSources(w, w', s);
  }

  // ------------------------------------------------------------------ remove

  /** A chain stays within one source. */
  lemma {:induction false} ChainSource(ls: map<Id, Layer>, at: Option<Id>, c: seq<Id>, x: Id)
    requires LayersOk(ls) && IsChain(ls, at, c) && x in c
    ensures at.Some? && at.value in ls && x in ls && ls[x].source == ls[at.value].source
    decreases |c|
  {
    if x != c[0] {
      ChainSource(ls, ls[at.value].parent, c[1..], x);
    }
  }

  /** Without live branches of its own a source's layers are unreferenced. */
  lemma SourceLayersUnreferenced(w: World, s: Id, x: Id)
    requires Inv(w) && x in w.layers && w.layers[x].source == s
    requires forall id | Live(w.branches, id) :: w.branches[id].source != s
    ensures !Referenced(w.layers, w.branches, x)
  {
    hide BranchesOk, SourcesOk, PinsOk, VolumesOk, ContainersOk, Chain, LayersOk, HasChain, PinOk, BelowExists, GenerationOk;
    forall id | Live(w.branches, id)
      ensures x !in Base(w.layers, w.branches[id])
    {
      LiveRow(w, id);
      if x in Base(w.layers, w.branches[id]) {
        ChainSource(w.layers, w.branches[id].base, Base(w.layers, w.branches[id]), x);
      }
    }
  }

  /** A source picked by name whose branches are all gone shares its volume with
      nobody that is still in use. */
  lemma PickedRemovable(w: World, s: Id)
    requires Inv(w) && s in w.sources && forall id | Live(w.branches, id) :: w.branches[id].source != s
    requires w.sources[s].state == SeedFailed ==> SourceNameUnused(w.sources, w.sources[s].name)
    ensures Removable(w, s)
  {
    hide LayersOk, BranchesOk, PinsOk, VolumesOk, ContainersOk, GenerationOk, BelowExists, HasChain, Rooted;
    forall id | Live(w.branches, id)
      ensures w.branches[id].srcVol != w.sources[s].vol
    {
      LiveRow(w, id);
    }
  }

  /** What removing the layer volumes of a source leaves of the volumes. */
  ghost predicate LayersDropped(w: World, w': World, s: Id, left: set<Id>) {
    && w' == w.(vols := w'.vols) && Fewer(w.vols, w'.vols)
    && (forall v | v in w.vols && v !in w'.vols :: exists x :: x in w.layers && w.layers[x].source == s && w.layers[x].vol == v)
    && (forall x | x in w.layers && w.layers[x].source == s && x !in left :: w.layers[x].vol !in w'.vols)
  }

  /** Removes the volumes of a source's layers; stops at the first failure. */
  method DropLayerVolumes(e: Engine, s: Id) returns (ok: bool, left: set<Id>)
    requires e.Valid() && forall id | Live(e.reg.branches, id) :: e.reg.branches[id].source != s
    modifies e.drv`vols, e.drv`done, e`hist
    ensures e.Valid() && old(e.hist) <= e.hist && (e.drv.reliable ==> ok)
    ensures LayersDropped(old(e.W()), e.W(), s, left) && (ok ==> left == {})
  {
    hide AtMostOne, Inv, Kept, Safe, Private, Unneeded, Referenced;
    ghost var w := e.W();
    ok := true;
    left := set x | x in e.reg.layers && e.reg.layers[x].source == s;
    while left != {}
      invariant e.Valid() && old(e.hist) <= e.hist && ok
      invariant forall x | x in left :: x in e.reg.layers && e.reg.layers[x].source == s
      invariant LayersDropped(w, e.W(), s, left)
      decreases left
    {
      var x :| x in left;
      SourceLayersUnreferenced(e.W(), s, x);
      LayerVolumeUnneeded(e.W(), x, e.scope);
      ok := e.RemoveVolume(e.reg.layers[x].vol);
      if !ok {
        return;
      }
      left := left - {x};
    }
  }

  /** Refused while a live branch uses the source; otherwise its layers' volumes
      go, then its current volume together with its rows. */
  method RemoveSource(e: Engine, name: string) returns (ok: bool, s: Option<Id>)
    requires Inv(e.W())
    modifies e.reg`sources, e.reg`branches, e.reg`journal, e.reg`layers, e.drv`vols, e.drv`done, e
    ensures e.Valid() && e.origin == old(e.W()) && ViewsKept(old(e.W()), e.W(), {})
    ensures e.scope == Scope({}, if s.Some? then {s.value} else {}) && Fewer(old(e.drv.vols), e.drv.vols)
    ensures !ok ==> e.reg.sources == old(e.reg.sources)
    ensures e.drv.reliable && old(Tight(e.W())) ==> Tight(e.W())
    ensures e.reg.branches.Keys <= old(e.reg.branches).Keys && NoneRisen(old(e.reg.branches), e.reg.branches)
    ensures ok ==>
      && s.Some? && s.value in old(e.reg.sources) && old(e.reg.sources)[s.value].name == name
      && e.reg.sources == old(e.reg.sources) - {s.value}
      && (forall x | x in e.reg.layers :: e.reg.layers[x].source != s.value)
      && (forall id | id in e.reg.branches :: e.reg.branches[id].source != s.value)
    ensures s.None? ==> !ok && e.W() == old(e.W()) && forall t | t in e.reg.sources :: e.reg.sources[t].name != name
    ensures s.Some? ==> s.value in old(e.reg.sources) && old(e.reg.sources)[s.value].name == name
    ensures e.drv.reliable && s.Some? && (forall id | Live(old(e.reg.branches), id) :: old(e.reg.branches)[id].source != s.value) ==> ok
    ensures ok && e.drv.reliable ==>
      && old(e.reg.sources)[s.value].vol !in e.drv.vols
      && forall x | x in old(e.reg.layers) && old(e.reg.layers)[x].source == s.value :: old(e.reg.layers)[x].vol !in e.drv.vols
    ensures s.Some? && (exists id | Live(old(e.reg.branches), id) :: old(e.reg.branches)[id].source == s.value) ==> !ok && e.W() == old(e.W())
  {
    hide Inv, Kept, Safe, Tight, ViewsKept, LayersDropped;
    ghost var w := e.W();
    ok := false;
    s := e.reg.GetSourceByName(name);
    e.Begin({}, if s.Some? then {s.value} else {});
    if s.Some? && !(exists id | id in e.reg.branches :: Live(e.reg.branches, id) && e.reg.branches[id].source == s.value) {
      ghost var mid, left;
      ok, mid, left := DropAll(e, s.value);
      DroppedFacts(w, mid, e.W(), s.value, left, ok, e.drv.reliable);
      if e.drv.reliable && Tight(w) {
        RemoveTight(w, mid, e.W(), s.value);
      }
    }
    NoBranchViews(e, w);
  }

  method DropAll(e: Engine, s: Id) returns (ok: bool, ghost mid: World, ghost left: set<Id>)
    requires e.Valid() && s in e.reg.sources && s in e.scope.sources
    requires forall id | Live(e.reg.branches, id) :: e.reg.branches[id].source != s
    requires e.reg.sources[s].state == SeedFailed ==> SourceNameUnused(e.reg.sources, e.reg.sources[s].name)
    modifies e.reg`sources, e.reg`branches, e.reg`journal, e.reg`layers, e.drv`vols, e.drv`done, e`hist
    ensures e.Valid() && old(e.hist) <= e.hist
    ensures LayersDropped(old(e.W()), mid, s, left) && (ok ==> left == {})
    ensures if ok then s in mid.sources && WithoutSource(mid, e.W(), s) else e.W() == mid
    ensures e.drv.reliable ==> ok && old(e.reg.sources[s].vol) !in e.drv.vols
  {
    hide Inv, Kept, Safe, LayersDropped, SourceNameUnused, WithoutSource, Removable;
    ok, left := DropLayerVolumes(e, s);
    mid := e.W();
    if ok {
      PickedRemovable(mid, s);
      NoneLeft(old(e.W()), mid, s);
      ok := e.DropSource(s);
    }
  }

  lemma NoneLeft(w: World, mid: World, s: Id)
    requires LayersDropped(w, mid, s, {})
    ensures forall x | x in mid.layers && mid.layers[x].source == s :: mid.layers[x].vol !in mid.vols
  {
  }

  /** The same removal asked for again in the state between its last two steps: the
      volumes are gone already, and now the rows go. */
  method RemoveSourceAgain(e: Engine, s: Id) returns (ok: bool)
    requires Gap(e.W(), s)
    modifies e.reg`sources, e.reg`branches, e.reg`journal, e.reg`layers, e.drv`vols, e.drv`done
    ensures e.drv.reliable ==> ok
    ensures if ok then e.W() == SourceDropped(old(e.W()), s, true) && Inv(e.W()) else e.W() == old(e.W())
    ensures ok ==> Kept(old(e.W()), e.W(), Scope({}, {s}))
  {
    hide Inv, Kept;
    ghost var w := e.W();
    ok := true;
    var left := set x | x in e.reg.layers && e.reg.layers[x].source == s;
    while left != {}
      invariant e.W() == w && ok && forall x | x in left :: x in e.reg.layers && e.reg.layers[x].source == s
      decreases left
    {
      var x :| x in left;
      ok := e.drv.RemoveVolume(e.reg.layers[x].vol);
      assert e.drv.vols == w.vols;
      if !ok {
        return;
      }
      left := left - {x};
    }
    ok := e.drv.RemoveVolume(e.reg.sources[s].vol);
    assert e.drv.vols == w.vols;
    if ok {
      GapCloses(w, s);
      ok := e.reg.DeleteSource(s);
    }
  }

  /** Without the rows the state is sound again, and nobody else was disturbed. */
  lemma GapCloses(w: World, s: Id)
    requires Gap(w, s)
    ensures Inv(SourceDropped(w, s, true)) && Kept(w, SourceDropped(w, s, true), Scope({}, {s}))
    ensures SourceDropped(w, s, true).vols == w.vols
  {
    hide Inv, Kept;
    var v := w.sources[s].vol;
    var mended := w.(vols := w.vols[v := BLANK]);
    assert Removable(mended, s);
    DropSourceSteps(mended, s, true, Scope({}, {s}));
    assert SourceDropped(mended, s, true) == SourceDropped(w, s, true);
    UnmendedKept(w, mended, SourceDropped(w, s, true), s);
  }

  lemma UnmendedKept(w: World, mended: World, w': World, s: Id)
    requires s in w.sources && mended == w.(vols := w.vols[w.sources[s].vol := BLANK]) && w.sources[s].vol !in w.vols
    requires Kept(mended, w', Scope({}, {s}))
    ensures Kept(w, w', Scope({}, {s}))
  {
    hide SameChain, Uses;
    forall id | Live(w.branches, id)
      ensures KeptBranch(w, w', id)
    {
      assert KeptBranch(mended, w', id);
      forall v | Uses(w.layers, w.branches[id], v)
        ensures SameContent(w.vols, w'.vols, v)
      {
        assert SameContent(mended.vols, w'.vols, v);
      }
    }
    forall t | t in w.sources && w.sources[t].state != SeedFailed && t != s
      ensures KeptSource(w, w', t)
    {
      assert KeptSource(mended, w', t);
    }
  }

  lemma DroppedFacts(w: World, mid: World, w': World, s: Id, left: set<Id>, ok: bool, reliable: bool)
    requires s in w.sources && LayersDropped(w, mid, s, left) && (ok ==> left == {})
    requires if ok then s in mid.sources && WithoutSource(mid, w', s) else w' == mid
    ensures w'.branches.Keys <= w.branches.Keys && NoneRisen(w.branches, w'.branches) && Fewer(w.vols, w'.vols)
    ensures !ok ==> w'.sources == w.sources
    ensures ok ==>
      && w'.sources == w.sources - {s}
      && (forall x | x in w'.layers :: w'.layers[x].source != s) && (forall id | id in w'.branches :: w'.branches[id].source != s)
      && (forall x | x in w.layers && w.layers[x].source == s :: w.layers[x].vol !in w'.vols)
  {
  }

  /** After a removal every volume that is left has an owner that is left. */
  lemma RemoveTight(w: World, mid: World, w': World, s: Id)
    requires Inv(w) && Tight(w) && s in w.sources && LayersDropped(w, mid, s, {}) && s in mid.sources && WithoutSource(mid, w', s)
    requires w.sources[s].vol !in w'.vols && forall id | Live(w.branches, id) :: w.branches[id].source != s
    ensures Tight(w')
  {
    hide Inv, Referenced, Owned, Claimed;
    RemovedRows(w, mid, w', s);
    assert forall id: Id | Live(w'.branches, id) :: Live(w.branches, id) && w'.branches[id] == w.branches[id];
    forall x | x in w'.layers
      ensures Referenced(w'.layers, w'.branches, x)
    {
      RemoveReferenced(w, w', s, x);
    }
    forall v | v in w'.vols
      ensures Owned(w', v)
    {
      RemoveOwned(w, w', s, v);
    }
    forall c | c in w'.conts
      ensures Claimed(w'.branches, c)
    {
      RemoveClaimed(w.branches, w'.branches, c);
    }
  }

  lemma RemovedRows(w: World, mid: World, w': World, s: Id)
    requires s in w.sources && LayersDropped(w, mid, s, {}) && s in mid.sources && WithoutSource(mid, w', s)
    requires forall id | Live(w.branches, id) :: w.branches[id].source != s
    ensures forall id | Live(w.branches, id) :: id in w'.branches && w'.branches[id] == w.branches[id]
    ensures forall x | x in w.layers && w.layers[x].source != s :: x in w'.layers && w'.layers[x] == w.layers[x]
    ensures forall x | x in w.layers && w.layers[x].source == s :: w.layers[x].vol !in w'.vols
    ensures w'.layers == LayersNotOf(w.layers, s) && w'.sources == w.sources - {s} && w'.conts == w.conts && w'.vols.Keys <= w.vols.Keys
  {
  }

  lemma RemoveReferenced(w: World, w': World, s: Id, x: Id)
    requires Inv(w) && forall id | Live(w.branches, id) :: w.branches[id].source != s && id in w'.branches && w'.branches[id] == w.branches[id]
    requires w'.layers == LayersNotOf(w.layers, s)
    requires Referenced(w.layers, w.branches, x)
    ensures Referenced(w'.layers, w'.branches, x)
  {
    hide Inv, Chain, HasChain, BranchOk, PinOk, BelowExists, GenerationOk, Pruned;
    var id :| Live(w.branches, id) && x in Base(w.layers, w.branches[id]);
    SourceBases(w, s);
    LiveRow(w, id);
    PrunedSame(w.layers, w'.layers, w.branches[id].base);
    assert Live(w'.branches, id) && x in Base(w'.layers, w'.branches[id]);
  }

  lemma RemoveOwned(w: World, w': World, s: Id, v: Volume)
    requires s in w.sources && Owned(w, v) && v != w.sources[s].vol && w'.sources == w.sources - {s}
    requires forall id | Live(w.branches, id) :: id in w'.branches && w'.branches[id] == w.branches[id]
    requires forall x | x in w.layers && w.layers[x].source != s :: x in w'.layers && w'.layers[x] == w.layers[x]
    requires forall x | x in w.layers && w.layers[x].source == s :: w.layers[x].vol != v
    ensures Owned(w', v)
  {
    if id :| Live(w.branches, id) && (w.branches[id].rw == v || w.branches[id].srcVol == v) {
      assert Live(w'.branches, id);
    } else if t :| t in w.sources && w.sources[t].vol == v {
      assert t in w'.sources;
    } else {
      var x :| x in w.layers && w.layers[x].vol == v;
      assert x in w'.layers;
    }
  }

  lemma RemoveClaimed(bs: map<Id, Branch>, bs': map<Id, Branch>, c: Id)
    requires Claimed(bs, c) && forall id | Live(bs, id) :: id in bs' && bs'[id] == bs[id]
    ensures Claimed(bs', c)
  {
    var id :| Live(bs, id) && bs[id].container == Some(c);
    assert Live(bs', id) && bs'[id].container == Some(c);
  }
}
