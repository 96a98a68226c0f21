/** The operations on branches, each a saga run to its end. */
module Branching {
  import opened Options
  import opened BranchStates
  import opened Names
  import opened Overlay
  import opened Worlds
  import opened Steps
  import opened Engine
  import opened Saga
  import opened Leftovers
  import opened Removal
  import opened Freeze
  import Unified

  /** The branch shows the same tree, and a reset would return it to the same. */
  ghost predicate FaceKept(w: World, w': World, id: Id)
    requires id in w.branches && id in w'.branches
  {
    View(w', id) == View(w, id) && Ground(w', id) == Ground(w, id)
  }

  /** Every branch that is ready before and after shows the same tree. */
  ghost predicate ViewsKept(w: World, w': World, subjects: set<Id>) {
    forall id | IsReady(w.branches, id) && IsReady(w'.branches, id) && id !in subjects :: FaceKept(w, w', id)
  }

  lemma ScopeViews(w: World, w': World, scope: Scope)
    requires Inv(w) && Kept(w, w', scope)
    ensures ViewsKept(w, w', scope.branches)
  {
    hide Inv, View, Ground, KeptBranch;
    forall id | IsReady(w.branches, id) && IsReady(w'.branches, id) && id !in scope.branches
      ensures FaceKept(w, w', id)
    {
      assert Live(w.branches, id);
      ReadyHasVolumes(w, id);
      KeptView(w, w', id);
    }
  }

  /** The subjects of an operation that are not ready afterwards need no excuse. */
  lemma FewerSubjects(w: World, w': World, subjects: set<Id>, excused: set<Id>)
    requires ViewsKept(w, w', subjects)
    requires forall id | id in subjects && id !in excused :: !IsReady(w.branches, id) || !IsReady(w'.branches, id)
    ensures ViewsKept(w, w', excused)
  {
    hide FaceKept;
  }

  /** No branch that existed becomes ready. */
  ghost predicate NoneRisen(bs: map<Id, Branch>, bs': map<Id, Branch>) {
    forall id | id in bs && IsReady(bs', id) :: IsReady(bs, id)
  }

  /** A new row, provisioned or failed. */
  ghost predicate Spawned(w: World, w': World, id: Id, b: Branch, ok: bool, reliable: bool) {
    && id !in w.branches && id in w'.branches
    && w' == w.(branches := w.branches[id := w'.branches[id]], vols := w'.vols, conts := w'.conts, nextCid := w'.nextCid)
    && Retouched(b, w'.branches[id]) && w'.branches[id].state == (if ok then Ready else Failed)
    && SameBut(w.vols, w'.vols, b.rw) && NewContainer(b.container, w'.branches[id].container, w.conts)
    && (forall c | c in w.conts :: c in w'.conts && w'.conts[c] == w.conts[c])
    && (ok ==> b.rw in w'.vols && w'.branches[id].container.Some? && Customized(w.sources, b, w'.vols, w.rotate)
               && w'.conts.Keys == w.conts.Keys + {w'.branches[id].container.value})
    && (!ok && reliable ==> w'.vols.Keys <= w.vols.Keys && w'.conts == w.conts)
  }

  /** No live branch bears the name. */
  ghost predicate Unused(bs: map<Id, Branch>, name: string) {
    forall j | Live(bs, j) :: bs[j].name != name
  }

  /** Inserts a row and provisions it; a failed provision leaves a failed row. */
  method Spawn(e: Engine, b: Branch) returns (id: Option<Id>, ok: bool)
    requires e.Valid() && b.state == Creating && b.container.None? && b.rw == RW(b.name, 1) && b.updated == e.reg.clock
    requires NameFree(e.reg.layers, b.name) && BornOn(e.reg.sources, e.reg.branches, b)
    modifies e.reg`branches, e.reg`journal, e.drv, e`hist, e`scope
    ensures e.Valid() && old(e.hist) <= e.hist
    ensures id.None? ==> e.W() == old(e.W()) && e.scope == old(e.scope) && !ok
    ensures e.drv.Flawless() && e.reg.freshIds && Unused(old(e.reg.branches), b.name) ==> ok
    ensures id.Some? ==>
      && id.value !in old(e.reg.branches) && NameUnused(old(e.reg.branches), id.value, b.name)
      && e.scope == Scope(old(e.scope).branches + {id.value}, old(e.scope).sources)
      && Spawned(old(e.W()), e.W(), id.value, b, ok, e.drv.reliable)
      && (ok && b.rw !in old(e.drv.vols) && !e.rotate && b.source in e.reg.sources && !e.reg.sources[b.source].masked ==>
            b.rw in e.drv.vols && e.drv.vols[b.rw].files == map[])
    ensures e.drv.reliable && old(Tight(e.W())) ==> Tight(e.W())
  {
    hide Inv, Kept, Safe, Tight, BornOn, NameFree, Running, Spawned;
    ghost var w := e.W();
    ok := false;
    id := e.InsertBranch(b);
    if id.Some? {
      ok := ProvisionNew(e, id.value, b, w);
      if e.drv.reliable && Tight(w) {
        SpawnedTight(w, e.W(), id.value, b, ok);
      }
    }
  }

  /** Provisions a row that was just inserted. */
  method ProvisionNew(e: Engine, id: Id, b: Branch, ghost w: World) returns (ok: bool)
    requires e.Valid() && id in e.scope.branches && id !in w.branches && b.state == Creating && b.rw == RW(b.name, 1)
    requires e.W() == w.(branches := w.branches[id := b])
    modifies e.reg`branches, e.reg`journal, e.drv, e`hist
    ensures e.Valid() && old(e.hist) <= e.hist && (e.drv.Flawless() ==> ok)
    ensures Spawned(w, e.W(), id, b, ok, e.drv.reliable)
    ensures ok && b.rw !in w.vols && !e.rotate && b.source in e.reg.sources && !e.reg.sources[b.source].masked ==>
      b.rw in e.drv.vols && e.drv.vols[b.rw].files == map[]
  {
    hide Inv, Kept, Safe, Running, Spawned;
    ghost var w1 := e.W();
    ok := Provision(e, id);
    ghost var w2 := e.W();
    if !ok {
      var failed := e.Transition(id, Failed);
    }
    SpawnedFrom(w, w1, w2, e.W(), id, b, ok, e.drv.reliable);
  }

  lemma SpawnedFrom(w: World, w1: World, w2: World, w3: World, id: Id, b: Branch, ok: bool, reliable: bool)
    requires id !in w.branches && b.state == Creating && w1 == w.(branches := w.branches[id := b])
    requires Provisioned(w1, w2, id, ok, reliable) && id in w3.branches
    requires w3 == w2.(branches := w2.branches[id := w3.branches[id]])
    requires if ok then w3 == w2 else w3.branches[id] == w2.branches[id].(state := Failed, updated := w3.branches[id].updated)
    ensures Spawned(w, w3, id, b, ok, reliable)
  {
    assert w3.branches == w.branches[id := w3.branches[id]];
  }

  lemma SpawnedTight(w: World, w': World, id: Id, b: Branch, ok: bool)
    requires Tight(w) && Spawned(w, w', id, b, ok, true)
    ensures Tight(w')
  {
    hide Tight;
    TightPut(w, w', id);
  }

  /** Whether one more branch may be created at all. */
  method Admitted(e: Engine, name: string) returns (ok: bool)
    ensures ok <==> Admissible(e.reg.branches, e.maxBranches, name)
  {
    ok := ValidName(name);
    if e.maxBranches > 0 {
      var live := set id | id in e.reg.branches && e.reg.branches[id].state != Destroyed;
      assert live == LiveIds(e.reg.branches);
      ok := ok && |live| < e.maxBranches;
    }
  }

  function LiveIds(bs: map<Id, Branch>): set<Id> {
    set id | id in bs && Live(bs, id)
  }

  /** A valid name, and with a cap of n > 0 fewer than n live branches. */
  ghost predicate Admissible(bs: map<Id, Branch>, max: nat, name: string) {
    ValidName(name) && (max > 0 ==> |LiveIds(bs)| < max)
  }

  /** All that a create asks of the registry. */
  ghost predicate CanCreate(w: World, max: nat, name: string, source: string) {
    && Admissible(w.branches, max, name) && Unused(w.branches, name)
    && exists s :: s in w.sources && w.sources[s].name == source && w.sources[s].state == Seeded
  }

  /** Creates a branch on a source's current generation. */
  method CreateBranch(e: Engine, name: string, source: string, expires: Option<int>) returns (ok: bool, id: Option<Id>)
    requires Inv(e.W()) && NameFree(e.reg.layers, name)
    modifies e.reg`branches, e.reg`journal, e.drv, e
    ensures e.Valid() && e.origin == old(e.W())
    ensures e.scope == Scope(if id.Some? then {id.value} else {}, {})
    ensures ViewsKept(old(e.W()), e.W(), {})
    ensures e.drv.reliable && old(Tight(e.W())) ==> Tight(e.W())
    ensures id.None? ==> !ok && e.W() == old(e.W())
    ensures old(CanCreate(e.W(), e.maxBranches, name, source)) && e.drv.Flawless() && e.reg.freshIds ==> ok
    ensures !old(Admissible(e.reg.branches, e.maxBranches, name)) || !old(Unused(e.reg.branches, name)) ==> id.None?
    ensures id.Some? ==>
      && id.value !in old(e.reg.branches) && id.value in e.reg.branches && NameUnused(old(e.reg.branches), id.value, name)
      && NoneRisen(old(e.reg.branches), e.reg.branches)
      && var b := e.reg.branches[id.value];
      && b.name == name && b.state == (if ok then Ready else Failed) && b.base.None? && b.expires == expires && b.parentName == ""
      && b.source in e.reg.sources && e.reg.sources[b.source].name == source && e.reg.sources[b.source].state == Seeded && b.srcVol == e.reg.sources[b.source].vol
      && e.reg.branches.Keys == old(e.reg.branches).Keys + {id.value}
      && (ok ==> b.srcVol in old(e.drv.vols) && Ground(e.W(), id.value) == Merged([old(e.drv.vols)[b.srcVol].files]))
      && (ok && Plain(e, e.W(), id.value) && RW(name, 1) !in old(e.drv.vols) ==> View(e.W(), id.value) == Ground(e.W(), id.value))
  {
    hide Inv, Kept, Safe, Tight, NameFree, Running, ViewsKept, View, Ground, Spawned;
    ghost var w := e.W();
    e.Begin({}, {});
    ok, id := false, None;
    var admitted := Admitted(e, name);
    var s := e.reg.GetSourceByName(source);
    SourcePicked(w, source, s);
    if admitted && s.Some? && e.reg.sources[s.value].state == Seeded {
      var b := Branch(name, s.value, Creating, None, RW(name, 1), e.reg.sources[s.value].vol, expires, None, "", e.reg.clock);
      id, ok := Spawn(e, b);
      if id.Some? {
        SpawnedRow(w, e.W(), id.value, b, ok, e.drv.reliable);
        if ok {
          CreatedFace(w, e.W(), id.value, b, e.drv.reliable);
        }
      }
    }
    NewRowViews(e, w, id);
  }

  /** A ready source is found by its name. */
  lemma SourcePicked(w: World, source: string, found: Option<Id>)
    requires Inv(w)
    requires found.Some? ==> found.value in w.sources && w.sources[found.value].name == source
    requires found.Some? && w.sources[found.value].state == SeedFailed ==> SourceNameUnused(w.sources, source)
    requires found.None? ==> forall s | s in w.sources :: w.sources[s].name != source
    ensures forall s | s in w.sources && w.sources[s].name == source && w.sources[s].state == Seeded :: found == Some(s)
  {
    hide LayersOk, BranchesOk, PinsOk, VolumesOk, ContainersOk, ServedOk;
  }

  lemma SpawnedRow(w: World, w': World, id: Id, b: Branch, ok: bool, reliable: bool)
    requires Spawned(w, w', id, b, ok, reliable)
    ensures id in w'.branches && Retouched(b, w'.branches[id]) && w'.branches[id].state == if ok then Ready else Failed
    ensures w'.branches.Keys == w.branches.Keys + {id} && w'.sources == w.sources && NoneRisen(w.branches, w'.branches)
  {
  }

  lemma CreatedFace(w: World, w': World, id: Id, b: Branch, reliable: bool)
    requires Inv(w') && Spawned(w, w', id, b, true, reliable) && b.base.None?
    ensures b.srcVol in w.vols && Ground(w', id) == Merged([w.vols[b.srcVol].files])
    ensures b.rw in w'.vols && (w'.vols[b.rw].files == map[] ==> View(w', id) == Ground(w', id))
  {
    hide Inv, View, Ground, Stack;
    BaseView(w', id);
    LowerStack(w', id);
    SourceLast(w', id);
  }

  lemma SourceLast(w: World, id: Id)
    requires id in w.branches
    ensures w.branches[id].srcVol in Stack(w.layers, w.branches[id])[1..]
  {
    hide Chain;
    var stack := Stack(w.layers, w.branches[id]);
    assert stack[1..][|stack| - 2] == w.branches[id].srcVol;
  }

  /** A ready branch without frozen layers and with an empty volume of its own
      shows what its source volume holds. */
  lemma BaseView(w: World, id: Id)
    requires Inv(w) && IsReady(w.branches, id) && w.branches[id].base.None?
    ensures w.branches[id].srcVol in w.vols && w.branches[id].rw in w.vols
    ensures Ground(w, id) == Merged([w.vols[w.branches[id].srcVol].files])
    ensures w.vols[w.branches[id].rw].files == map[] ==> View(w, id) == Ground(w, id)
  {
    hide Inv, Chain;
    ReadyHasVolumes(w, id);
    var b := w.branches[id];
    assert Uses(w.layers, b, b.srcVol) && Uses(w.layers, b, b.rw);
    ChainEmpty(w.layers);
    assert Stack(w.layers, b) == [b.rw] + [b.srcVol];
    assert Contents(w.vols, [b.rw] + [b.srcVol]) == [w.vols[b.rw].files] + [w.vols[b.srcVol].files];
    assert ([b.rw] + [b.srcVol])[1..] == [b.srcVol] && Contents(w.vols, [b.srcVol]) == [w.vols[b.srcVol].files];
    EmptyLayerOnTop([w.vols[b.srcVol].files]);
  }

  /** An operation whose only subject is a row it created disturbs no view. */
  lemma NewRowViews(e: Engine, w: World, id: Option<Id>)
    requires e.Valid() && e.origin == w && Inv(w)
    requires e.scope.branches == (if id.Some? then {id.value} else {}) && (id.Some? ==> id.value !in w.branches)
    ensures ViewsKept(w, e.W(), {})
  {
    hide Inv, ViewsKept;
    ScopeViews(w, e.W(), e.scope);
    FewerSubjects(w, e.W(), e.scope.branches, {});
  }

  // ------------------------------------------------------------------- reset

  /** Throws away a ready branch's writes and provisions it anew on its own
      base. */
  method ResetBranch(e: Engine, name: string) returns (ok: bool, id: Option<Id>)
    requires Inv(e.W())
    modifies e.reg`branches, e.reg`journal, e.drv, e
    ensures e.Valid() && e.origin == old(e.W())
    ensures e.scope == Scope(if id.Some? then {id.value} else {}, {})
    ensures ViewsKept(old(e.W()), e.W(), if id.Some? then {id.value} else {})
    ensures e.drv.reliable && old(Tight(e.W())) ==> Tight(e.W())
    ensures id.None? ==> !ok && e.W() == old(e.W()) && forall j | IsReady(e.reg.branches, j) :: e.reg.branches[j].name != name
    ensures id.Some? ==>
      && IsReady(old(e.reg.branches), id.value) && old(e.reg.branches)[id.value].name == name && id.value in e.reg.branches
      && Retouched(old(e.reg.branches)[id.value], e.reg.branches[id.value])
      && e.reg.branches[id.value].state == (if ok then Ready else Failed)
      && e.reg.layers == old(e.reg.layers) && e.reg.branches.Keys == old(e.reg.branches).Keys
      && NoneRisen(old(e.reg.branches), e.reg.branches)
      && (ok ==> Ground(e.W(), id.value) == old(Ground(e.W(), id.value)))
      && (ok ==> Customized(e.reg.sources, e.reg.branches[id.value], e.drv.vols, e.rotate))
      && (e.drv.Flawless() ==> ok)
      && (ok && Plain(e, e.W(), id.value) ==> View(e.W(), id.value) == old(Ground(e.W(), id.value)))
  {
    hide Inv, Kept, Safe, Tight, Running, ViewsKept, View, Ground, Stack;
    ghost var w := e.W();
    id := e.reg.GetBranchByName(name);
    if id.None? || e.reg.branches[id.value].state != Ready {
      UniqueName(w, id, name);
      e.Begin({}, {});
      ok, id := false, None;
      SameViews(e, w);
      return;
    }
    e.Begin({id.value}, {});
    ok := Reprovision(e, id.value);
    ScopeViews(w, e.W(), e.scope);
    if ok {
      ResetView(w, e.W(), id.value);
    }
    if e.drv.reliable && Tight(w) {
      ResetTight(w, e.W(), id.value, ok);
    }
  }

  /** Live names are unique. */
  lemma UniqueName(w: World, found: Option<Id>, name: string)
    requires Inv(w)
    requires if found.Some? then Live(w.branches, found.value) && w.branches[found.value].name == name
             else forall id | Live(w.branches, id) :: w.branches[id].name != name
    ensures forall id | Live(w.branches, id) && w.branches[id].name == name :: found == Some(id)
  {
    hide LayersOk, SourcesOk, PinsOk, VolumesOk, ContainersOk, BranchOk, GenerationOk;
  }

  lemma SameViews(e: Engine, w: World)
    requires e.W() == w
    ensures ViewsKept(w, e.W(), {})
  {
  }

  /** One row, its volume and its container were replaced. */
  ghost predicate Replaced(w: World, w': World, id: Id, ok: bool, reliable: bool)
    requires id in w.branches
  {
    var b := w.branches[id];
    && id in w'.branches
    && w' == w.(branches := w.branches[id := w'.branches[id]], vols := w'.vols, conts := w'.conts, nextCid := w'.nextCid)
    && Retouched(b, w'.branches[id]) && w'.branches[id].state == (if ok then Ready else Failed)
    && SameBut(w.vols, w'.vols, b.rw) && w'.vols.Keys <= w.vols.Keys + {b.rw}
    && (ok ==> Customized(w.sources, b, w'.vols, w.rotate))
    && (reliable ==> forall c | c in w'.conts :: Some(c) == w'.branches[id].container || (c in w.conts && b.container != Some(c)))
  }

  /** The branch is resetting; if all went well its container and volume are gone. */
  ghost predicate Unseated(w: World, w': World, id: Id, ok: bool, reliable: bool)
    requires id in w.branches
  {
    var b := w.branches[id];
    && id in w'.branches && w' == w.(branches := w.branches[id := w'.branches[id]], vols := w'.vols, conts := w'.conts)
    && Retouched(b, w'.branches[id]) && w'.branches[id].state == Resetting && w'.branches[id].container == b.container
    && SameBut(w.vols, w'.vols, b.rw) && w'.vols.Keys <= w.vols.Keys && w'.conts.Keys <= w.conts.Keys
    && (reliable ==> ok)
    && (ok ==> b.rw !in w'.vols && (b.container.Some? ==> b.container.value !in w'.conts))
  }

  method Unseat(e: Engine, id: Id) returns (ok: bool)
    requires e.Valid() && IsReady(e.reg.branches, id) && id in e.scope.branches
    modifies e.reg`branches, e.reg`journal, e.drv`vols, e.drv`done, e.drv`conts, e`hist
    ensures e.Valid() && old(e.hist) <= e.hist
    ensures Unseated(old(e.W()), e.W(), id, ok, e.drv.reliable)
  {
    hide AtMostOne, Inv, Kept, Safe, Running, Unneeded, Private;
    var b := e.reg.branches[id];
    ok := e.Transition(id, Resetting);
    if b.container.Some? {
      LiveContainer(e.W(), id);
      ok := e.Stop(b.container.value);
    }
    if ok {
      ok := RemoveOwnVolume(e, id);
    }
  }

  method Reprovision(e: Engine, id: Id) returns (ok: bool)
    requires e.Valid() && IsReady(e.reg.branches, id) && id in e.scope.branches
    modifies e.reg`branches, e.reg`journal, e.drv, e`hist
    ensures e.Valid() && old(e.hist) <= e.hist
    ensures Replaced(old(e.W()), e.W(), id, ok, e.drv.reliable)
    ensures e.drv.Flawless() ==> ok
    ensures ok && Plain(e, e.W(), id) ==> e.drv.vols[e.reg.branches[id].rw].files == map[]
  {
    hide Inv, Kept, Safe, Running, Replaced;
    ghost var w := e.W();
    ok := Unseat(e, id);
    ghost var unseated, w1 := ok, e.W();
    if ok {
      ReadyFacts(w, id);
      StillMarkable(w, w1, w.branches[id], w1.branches[id]);
      ok := Provision(e, id);
    }
    ghost var w2 := e.W();
    if !ok {
      var failed := e.Transition(id, Failed);
    }
    ReplacedFrom(w, w1, w2, e.W(), id, unseated, ok, e.drv.reliable);
  }

  lemma ReplacedFrom(w: World, w1: World, w2: World, w3: World, id: Id, unseated: bool, ok: bool, reliable: bool)
    requires id in w.branches && Unseated(w, w1, id, unseated, reliable) && id in w2.branches && id in w3.branches
    requires if unseated then Provisioned(w1, w2, id, ok, reliable) else w2 == w1 && !ok
    requires w3 == w2.(branches := w2.branches[id := w3.branches[id]])
    requires if ok then w3 == w2 else w3.branches[id] == w2.branches[id].(state := Failed, updated := w3.branches[id].updated)
    ensures Replaced(w, w3, id, ok, reliable)
  {
    assert w3.branches == w.branches[id := w3.branches[id]];
  }

  /** The part of a stack under the writable volume does not hold that volume. */
  lemma LowerStack(w: World, id: Id)
    requires Inv(w) && IsReady(w.branches, id)
    ensures var stack := Stack(w.layers, w.branches[id]);
            stack != [] && stack[0] == w.branches[id].rw && stack == [stack[0]] + stack[1..]
            && forall v | v in stack[1..] :: v != w.branches[id].rw && v in w.vols
  {
    hide Inv, Chain, Uses;
    var b := w.branches[id];
    var lower := VolsOf(w.layers, Base(w.layers, b)) + [b.srcVol];
    StackExists(w, id);
    assert Stack(w.layers, b) == [b.rw] + lower;
    forall i | 0 <= i < |lower|
      ensures lower[i] != b.rw
    {
      LiveRow(w, id);
      PinFacts(w, id);
      if i < |lower| - 1 {
        var x := Base(w.layers, b)[i];
        assert x in w.layers && lower[i] == w.layers[x].vol;
      }
    }
  }

  lemma ResetView(w: World, w': World, id: Id)
    requires Inv(w) && IsReady(w.branches, id) && Replaced(w, w', id, true, false)
    ensures w.branches[id].rw in w'.vols
    ensures Ground(w', id) == Ground(w, id)
    ensures w'.vols[w.branches[id].rw].files == map[] ==> View(w', id) == Ground(w, id)
  {
    hide Inv, Chain;
    LowerStack(w, id);
    var b, lower := w.branches[id], Stack(w.layers, w.branches[id])[1..];
    assert Stack(w'.layers, w'.branches[id]) == [b.rw] + lower;
    assert ([b.rw] + lower)[1..] == lower;
    hide Stack;
    assert Contents(w'.vols, lower) == Contents(w.vols, lower);
    if w'.vols[b.rw].files == map[] {
      EmptyOnTop(w.vols, w'.vols, b.rw, lower);
    }
  }

  lemma ResetTight(w: World, w': World, id: Id, ok: bool)
    requires Tight(w) && id in w.branches && IsReady(w.branches, id) && Replaced(w, w', id, ok, true)
    ensures Tight(w')
  {
    hide Tight;
    TightPut(w, w', id);
  }

  // ----------------------------------------------------------------- destroy

  method DestroyBranch(e: Engine, name: string) returns (ok: bool, id: Option<Id>)
    requires Inv(e.W())
    modifies e.reg`branches, e.reg`journal, e.reg`layers, e.drv`vols, e.drv`done, e.drv`conts, e
    ensures e.Valid() && e.origin == old(e.W())
    ensures e.scope == Scope(if id.Some? then {id.value} else {}, {})
    ensures ViewsKept(old(e.W()), e.W(), {})
    ensures e.drv.reliable && old(Tight(e.W())) ==> Tight(e.W())
    ensures id.None? ==> !ok && e.W() == old(e.W()) && forall j | Live(e.reg.branches, j) :: e.reg.branches[j].name != name
    ensures id.Some? ==>
      && Live(old(e.reg.branches), id.value) && old(e.reg.branches)[id.value].name == name
      && Gone(old(e.W()), e.W(), id.value, ok, e.drv.reliable) && Freed(old(e.W()), e.W(), id.value, ok, e.drv.reliable)
      && e.scope == Scope({id.value}, {})
  {
    hide Inv, Kept, Safe, Tight, ViewsKept, Freed;
    ghost var w := e.W();
    ok := false;
    id := e.reg.GetBranchByName(name);
    if id.None? {
      e.Begin({}, {});
      SameViews(e, w);
      return;
    }
    e.Begin({id.value}, {});
    ok := Destroy(e, id.value);
    ScopeViews(w, e.W(), e.scope);
    FewerSubjects(w, e.W(), e.scope.branches, {});
  }

  // ------------------------------------------------------ branch from branch

  /** Creates a branch whose base is a ready branch's current state. */
  method CreateBranchFrom(e: Engine, name: string, parentName: string, expires: Option<int>)
      returns (ok: bool, parent: Option<Id>, child: Option<Id>, ghost asked: World, ghost x: Id)
    requires Inv(e.W()) && NameFree(e.reg.layers, name)
    modifies e.reg`branches, e.reg`journal, e.reg`layers, e.drv, e
    ensures e.Valid() && e.origin == old(e.W())
    ensures child.None? ==> !ok && e.W() == old(e.W())
    ensures parent.Some? ==> Live(old(e.reg.branches), parent.value) && old(e.reg.branches)[parent.value].name == parentName
    ensures child.Some? ==> parent.Some? && FromParent(old(e.W()), asked, e.W(), e.hist, parent.value, child.value, name, expires, ok, x, e.rotate, e.drv.reliable)
    ensures old(CanBranch(e.reg.branches, e.maxBranches, name, parentName)) && e.drv.Flawless() && e.reg.freshIds ==> child.Some? && ok
    ensures !old(Admissible(e.reg.branches, e.maxBranches, name)) || !old(Unused(e.reg.branches, name)) ==> child.None?
    ensures e.scope.sources == {}
    ensures forall j | j in e.scope.branches :: (child.Some? && j == child.value && j !in old(e.reg.branches)) || (parent.Some? && j == parent.value)
    ensures ViewsKept(old(e.W()), e.W(), if child.Some? && ok && parent.Some? then {parent.value} else {})
    ensures e.drv.reliable && old(Tight(e.W())) ==> Tight(e.W())
  {
    hide Inv, Kept, Safe, Tight, NameFree, ViewsKept, FromParent;
    ghost var w := e.W();
    ok, child, x, asked := false, None, 0, w;
    var admitted := Admitted(e, name);
    parent := e.reg.GetBranchByName(parentName);
    UniqueName(w, parent, parentName);
    if !admitted || parent.None? || e.reg.branches[parent.value].state != Ready {
      e.Begin({}, {});
      SameViews(e, w);
      return;
    }
    ok, child, asked, x := BranchOff(e, name, parent.value, expires);
  }

  /** All that a branch-from-branch asks of the registry. */
  ghost predicate CanBranch(bs: map<Id, Branch>, max: nat, name: string, parentName: string) {
    && Admissible(bs, max, name) && Unused(bs, name)
    && exists p :: IsReady(bs, p) && bs[p].name == parentName
  }

  /** What a branch-from-branch that got as far as a row has done. */
  ghost predicate FromParent(w: World, asked: World, w': World, hist: seq<World>, parent: Id, child: Id, name: string, expires: Option<int>,
                             ok: bool, x: Id, rotate: bool, reliable: bool)
  {
    && parent in w.branches && Inv(asked) && NameUnused(w.branches, child, name)
    && FromOutcome(w, asked, w', Some(parent), child, name, ok, x, hist, rotate, reliable)
    && Requested(w', child, name, w.branches[parent].name, expires)
    && (forall h | h in hist :: Shielded(h, parent, child))
    && (ok && Tight(w) ==> BornAsParent(w, w', parent, child, hist))
    && (ok ==> FrozenFace(w, w', parent))
  }

  method BranchOff(e: Engine, name: string, parent: Id, expires: Option<int>) returns (ok: bool, child: Option<Id>, ghost asked: World, ghost x: Id)
    requires Inv(e.W()) && NameFree(e.reg.layers, name) && IsReady(e.reg.branches, parent)
    modifies e.reg`branches, e.reg`journal, e.reg`layers, e.drv, e
    ensures e.Valid() && e.origin == old(e.W())
    ensures child.None? ==> !ok && e.W() == old(e.W())
    ensures child.Some? ==> FromParent(old(e.W()), asked, e.W(), e.hist, parent, child.value, name, expires, ok, x, e.rotate, e.drv.reliable)
    ensures e.drv.Flawless() && e.reg.freshIds && old(Unused(e.reg.branches, name)) ==> child.Some? && ok
    ensures !old(Unused(e.reg.branches, name)) ==> child.None?
    ensures e.scope.sources == {}
    ensures forall j | j in e.scope.branches :: (child.Some? && j == child.value && j !in old(e.reg.branches)) || j == parent
    ensures ViewsKept(old(e.W()), e.W(), if child.Some? && ok then {parent} else {})
    ensures e.drv.reliable && old(Tight(e.W())) ==> Tight(e.W())
  {
    hide Inv, Kept, Safe, Tight, NameFree, Running, ViewsKept, View, Committed, RolledBack, BornOn, FromParent, FromOutcome, NextVolume, FreezeAsked;
    ghost var w := e.W();
    ok, child, x, asked := false, None, 0, w;
    var p := e.reg.branches[parent];
    e.Begin({parent}, {});
    SourceOfLive(w, parent);
    var b := Branch(name, p.source, Creating, None, RW(name, 1), p.srcVol, expires, None, p.name, e.reg.clock);
    assert BornOn(e.reg.sources, e.reg.branches, b) by { BornLike(w, parent, b); }
    child := e.InsertBranch(b);
    if child.None? {
      SameViews(e, w);
      return;
    }
    asked := e.W();
    AsksFreeze(w, asked, parent, child.value);
    ok, x := FreezeNew(e, w, parent, child.value);
  }

  method FreezeNew(e: Engine, ghost w: World, parent: Id, child: Id) returns (ok: bool, ghost x: Id)
    requires e.Valid() && Inv(w) && e.origin == w && IsReady(w.branches, parent) && child !in w.branches && child in e.reg.branches
    requires e.W() == w.(branches := w.branches[child := e.reg.branches[child]]) && FreezeAsked(e.W(), parent, child)
    requires
      var b := e.reg.branches[child];
      b.rw == RW(b.name, 1) && NameFree(w.layers, b.name) && NameUnused(w.branches, child, b.name) && b.parentName == w.branches[parent].name
    requires e.scope == Scope({parent} + {child}, {})
    modifies e.reg`branches, e.reg`journal, e.reg`layers, e.drv, e`hist
    ensures e.Valid()
    ensures
      var b := old(e.reg.branches[child]);
      FromParent(w, old(e.W()), e.W(), e.hist, parent, child, b.name, b.expires, ok, x, e.rotate, e.drv.reliable)
    ensures e.drv.Flawless() && e.reg.freshIds ==> ok
    ensures ViewsKept(w, e.W(), if ok then {parent} else {})
    ensures e.drv.reliable && Tight(w) ==> Tight(e.W())
  {
    hide Inv, Kept, Safe, Tight, NameFree, Running, ViewsKept, View, Committed, RolledBack, FromParent, FromOutcome, NextVolume, FreezeAsked;
    ghost var asked, b := e.W(), e.reg.branches[child];
    ok, x := FreezeOrFail(e, child, parent);
    AskedOutcome(w, asked, e.W(), parent, child, ok, x, e.hist, e.rotate, e.drv.reliable);
    BranchedOff(w, asked, e.W(), parent, child, b.name, b.expires, ok, x, e.hist, e.scope, e.rotate, e.drv.reliable);
  }

  lemma AsksFreeze(w: World, asked: World, parent: Id, child: Id)
    requires IsReady(w.branches, parent) && child !in w.branches && child in asked.branches
    requires asked == w.(branches := w.branches[child := asked.branches[child]])
    requires var p, c := w.branches[parent], asked.branches[child];
      c.state == Creating && c.base.None? && c.source == p.source && c.srcVol == p.srcVol
    ensures FreezeAsked(asked, parent, child)
  {
  }

  lemma AskedOutcome(w: World, asked: World, w': World, parent: Id, child: Id, ok: bool, x: Id, hist: seq<World>, rotate: bool, reliable: bool)
    requires parent in w.branches && child !in w.branches && child in asked.branches
    requires asked == w.(branches := w.branches[child := asked.branches[child]])
    requires FreezeAsked(asked, parent, child) && asked.branches[child].rw == RW(asked.branches[child].name, 1)
    requires
      var rw := NextVolume(asked, parent);
      if ok then Committed(asked, w', parent, child, x, rw, hist, PlainRow(asked, child, rotate))
      else RolledBack(asked, w', parent, child, rw, reliable) && child in w'.branches && w'.branches[child].state == Failed
    ensures FromOutcome(w, asked, w', Some(parent), child, asked.branches[child].name, ok, x, hist, rotate, reliable)
  {
    hide Committed, RolledBack, NextVolume;
  }

  lemma BranchedOff(w: World, asked: World, w': World, parent: Id, child: Id, name: string, expires: Option<int>, ok: bool, x: Id,
                    hist: seq<World>, scope: Scope, rotate: bool, reliable: bool)
    requires Inv(w) && Inv(asked) && IsReady(w.branches, parent) && NameFree(w.layers, name) && NameUnused(w.branches, child, name)
    requires FromOutcome(w, asked, w', Some(parent), child, name, ok, x, hist, rotate, reliable)
    requires asked.branches[child].parentName == w.branches[parent].name && asked.branches[child].expires == expires
    requires Safe(w, hist, scope) && hist[|hist| - 1] == w' && scope == Scope({parent, child}, {}) && Kept(w, w', scope)
    ensures FromParent(w, asked, w', hist, parent, child, name, expires, ok, x, rotate, reliable)
    ensures ViewsKept(w, w', if ok then {parent} else {}) && (reliable && Tight(w) ==> Tight(w'))
  {
    hide Inv, Kept, Safe, Tight, NameFree, ViewsKept, View, Ground, FromOutcome, FrozenFace, BornAsParent, Shielded;
    FromRows(w, asked, w', parent, child, name, ok, x, hist, rotate, reliable);
    assert w.branches[parent].name != name by { assert Live(w.branches, parent) && parent != child; }
    HistoryShields(w, hist, scope, parent, child);
    FromViews(w, asked, w', parent, child, name, ok, x, hist, rotate, reliable, scope);
    if ok && Tight(w) {
      FromBirth(w, asked, w', parent, child, name, x, hist, rotate, reliable);
    }
    if reliable && Tight(w) {
      FromTight(w, asked, w', parent, child, name, ok, x, hist, rotate);
    }
  }

  /** The child's row as the saga leaves it. */
  lemma FromRows(w: World, asked: World, w': World, parent: Id, child: Id, name: string, ok: bool, x: Id, hist: seq<World>, rotate: bool, reliable: bool)
    requires FromOutcome(w, asked, w', Some(parent), child, name, ok, x, hist, rotate, reliable)
    ensures child in asked.branches && child in w'.branches && SameIdentity(asked.branches[child], w'.branches[child])
    ensures asked.branches[child].name == name && parent != child && child !in w.branches
    ensures w'.branches[child].state == if ok then Ready else Failed
  {
    hide Born, NextVolume, Stack;
  }

  /** The freeze saga; a child that got nowhere is failed. */
  method FreezeOrFail(e: Engine, child: Id, parent: Id) returns (ok: bool, ghost x: Id)
    requires e.Valid() && parent in e.scope.branches && child in e.scope.branches && FreezeAsked(e.W(), parent, child)
    modifies e.reg`branches, e.reg`journal, e.reg`layers, e.drv, e`hist
    ensures e.Valid() && old(e.hist) <= e.hist
    ensures
      var w, rw := old(e.W()), old(NextVolume(e.W(), parent));
      if ok then Committed(w, e.W(), parent, child, x, rw, e.hist, old(Plain(e, e.W(), child)))
      else RolledBack(w, e.W(), parent, child, rw, e.drv.reliable)
           && child in e.reg.branches && e.reg.branches[child].state == Failed
    ensures e.drv.Flawless() && e.reg.freshIds ==> ok
  {
    hide Inv, Kept, Safe, Running, Committed, RolledBack;
    ghost var asked := e.W();
    ok, x := FreezeAndProvision(e, child, parent);
    ghost var w2 := e.W();
    if !ok {
      var failed := e.Transition(child, Failed);
      StillRolledBack(asked, w2, e.W(), parent, child, e.drv.reliable);
    }
  }

  lemma BornLike(w: World, p: Id, b: Branch)
    requires Live(w.branches, p) && LikeBase(w.branches[p], b) && b.source in w.sources && w.sources[b.source].state == Seeded
    ensures BornOn(w.sources, w.branches, b)
  {
  }

  lemma StillRolledBack(w: World, w2: World, w3: World, parent: Id, child: Id, reliable: bool)
    requires FreezeAsked(w, parent, child) && RolledBack(w, w2, parent, child, NextVolume(w, parent), reliable)
    requires child in w2.branches && child in w3.branches && w3 == w2.(branches := w2.branches[child := w3.branches[child]])
    requires w3.branches[child] == w2.branches[child].(state := Failed, updated := w3.branches[child].updated)
    ensures RolledBack(w, w3, parent, child, NextVolume(w, parent), reliable)
  {
    hide NextVolume;
  }

  /** The child's row says what was asked for. */
  ghost predicate Requested(w: World, child: Id, name: string, parentName: string, expires: Option<int>) {
    && child in w.branches && w.branches[child].name == name
    && w.branches[child].parentName == parentName && w.branches[child].expires == expires
  }

  /** While the parent is down for its child, the child's row guards its data. */
  ghost predicate Shielded(h: World, parent: Id, child: Id) {
    child in h.branches && parent in h.branches && h.branches[parent].state == Resetting ==> KeepsVolume(h, parent)
  }

  /** Over a history that drops no source, rows stay, keep their identity, and once
      destroyed stay destroyed. */
  lemma {:induction false} RowForward(w: World, hist: seq<World>, scope: Scope, i: nat, j: nat, id: Id)
    requires Safe(w, hist, scope) && scope.sources == {} && i <= j < |hist| && id in hist[i].branches
    ensures id in hist[j].branches && SameIdentity(hist[i].branches[id], hist[j].branches[id])
    ensures hist[i].branches[id].state == Destroyed ==> hist[j].branches[id].state == Destroyed
    decreases j
  {
    hide Inv, Kept, Sound, OneSide;
    if i < j {
      RowForward(w, hist, scope, i, j - 1, id);
      assert Evolves(hist[j - 1], hist[j]) && hist[j - 1].branches.Keys <= hist[j].branches.Keys;
    }
  }

  lemma HistoryShields(w: World, hist: seq<World>, scope: Scope, parent: Id, child: Id)
    requires Safe(w, hist, scope) && scope.sources == {} && parent in w.branches
    requires
      var w' := hist[|hist| - 1];
      Live(w'.branches, child) && w'.branches[child].parentName == w.branches[parent].name != w'.branches[child].name
    ensures forall h | h in hist :: Shielded(h, parent, child)
  {
    hide Inv, Kept, Sound, OneSide, Evolves;
    forall h | h in hist
      ensures Shielded(h, parent, child)
    {
      var i :| 0 <= i < |hist| && hist[i] == h;
      RowForward(w, hist, scope, 0, i, parent);
      if child in h.branches && h.branches[parent].state == Resetting {
        RowForward(w, hist, scope, i, |hist| - 1, child);
        assert RWReferenced(h.branches, h.branches[parent].name, h.branches[parent].rw);
      }
    }
  }

  /** There is a moment, before masking, at which the child's container serves
      exactly the tree its parent showed. */
  ghost predicate BornAsParent(w: World, w': World, parent: Id, child: Id, hist: seq<World>) {
    && parent in w.branches && child in w'.branches && w'.branches[child].container.Some?
    && var cid := w'.branches[child].container.value;
       exists h | h in hist :: cid in h.conts && Merged(Contents(h.vols, h.conts[cid])) == View(w, parent)
  }

  /** Where nothing is left over, both fresh volumes are new. */
  lemma FromBirth(w: World, asked: World, w': World, parent: Id, child: Id, name: string, x: Id, hist: seq<World>, rotate: bool, reliable: bool)
    requires Inv(w) && Tight(w) && Inv(asked) && parent in w.branches && NameFree(w.layers, name) && NameUnused(w.branches, child, name)
    requires FromOutcome(w, asked, w', Some(parent), child, name, true, x, hist, rotate, reliable)
    ensures BornAsParent(w, w', parent, child, hist) && RW(name, 1) !in w.vols
  {
    hide Inv, View, Born, Chain, Tight, NameFree;
    RowViews(w, asked, parent, child);
    assert Live(w.branches, parent);
    NextVolumeAbsent(w, parent);
    assert forall j: Id | Live(w.branches, j) :: w.branches[j].name != name;
    FirstVolumeAbsent(w, name);
    ChildBornWithParentView(asked, w', parent, child, x, hist, PlainRow(asked, child, rotate));
  }

  /** The child row was inserted, the saga ran, and a failed saga left the child
      failed. */
  ghost predicate FromOutcome(w: World, asked: World, w': World, parent: Option<Id>, child: Id, name: string, ok: bool, x: Id,
                              hist: seq<World>, rotate: bool, reliable: bool)
  {
    && parent.Some? && child !in w.branches && child in asked.branches
    && asked == w.(branches := w.branches[child := asked.branches[child]])
    && parent.value in w.branches
    && FreezeAsked(asked, parent.value, child) && asked.branches[child].name == name && asked.branches[child].rw == RW(name, 1)
    && (ok ==> Committed(asked, w', parent.value, child, x, NextVolume(asked, parent.value), hist, PlainRow(asked, child, rotate)))
    && (!ok ==> RolledBack(asked, w', parent.value, child, NextVolume(asked, parent.value), reliable)
                && child in w'.branches && w'.branches[child].state == Failed)
  }

  ghost predicate PlainRow(w: World, id: Id, rotate: bool)
    requires id in w.branches
  {
    w.branches[id].source in w.sources && !w.sources[w.branches[id].source].masked && !rotate
  }

  /** Nobody else's view moves, and neither does the parent's, unless a leftover
      volume already had the name of its next generation. */
  lemma FromViews(w: World, asked: World, w': World, parent: Id, child: Id, name: string, ok: bool, x: Id,
                  hist: seq<World>, rotate: bool, reliable: bool, scope: Scope)
    requires Inv(w) && Inv(asked) && Kept(w, w', scope) && scope.branches == {parent, child} && parent in w.branches
    requires FromOutcome(w, asked, w', Some(parent), child, name, ok, x, hist, rotate, reliable)
    ensures ViewsKept(w, w', if ok then {parent} else {})
    ensures ok ==> FrozenFace(w, w', parent)
  {
    hide Inv, View, Ground, Committed, RolledBack, Chain, Kept;
    ScopeViews(w, w', scope);
    RowViews(w, asked, parent, child);
    assert NextVolume(asked, parent) == NextVolume(w, parent);
    if ok {
      FreezeKeepsParentView(asked, w', parent, child, x, hist, PlainRow(asked, child, rotate));
      FreezeGround(asked, w', parent, child, x, hist, PlainRow(asked, child, rotate));
    } else {
      RollbackKeepsParentView(asked, w', parent, child, reliable);
    }
  }

  lemma RowViews(w: World, w1: World, parent: Id, child: Id)
    requires parent in w.branches && parent != child && child in w1.branches && w1 == w.(branches := w.branches[child := w1.branches[child]])
    ensures FaceKept(w, w1, parent)
  {
  }

  /** The parent after a committed freeze: its tree has become its ground, and it
      still shows it, unless a leftover volume already had the name of its next
      generation. */
  ghost predicate FrozenFace(w: World, w': World, parent: Id) {
    && parent in w.branches && parent in w'.branches && w'.branches[parent].base != w.branches[parent].base
    && Ground(w', parent) == View(w, parent)
    && (NextVolume(w, parent) !in w.vols ==> View(w', parent) == View(w, parent))
  }

  lemma FromTight(w: World, asked: World, w': World, parent: Id, child: Id, name: string, ok: bool, x: Id, hist: seq<World>, rotate: bool)
    requires Inv(asked) && Tight(w) && parent in w.branches
    requires FromOutcome(w, asked, w', Some(parent), child, name, ok, x, hist, rotate, true)
    ensures Tight(w')
  {
    hide Inv, Tight, Chain, Born;
    if ok {
      hide Committed;
      CommitTight(w, asked, w', parent, child, x, hist, PlainRow(asked, child, rotate));
    } else {
      var wa := w.(branches := w.branches[parent := w'.branches[parent]], vols := w'.vols, conts := w'.conts, nextCid := w'.nextCid);
      TightPut(w, wa, parent);
      assert w'.branches == wa.branches[child := w'.branches[child]];
      TightPut(wa, w', child);
    }
  }

  /** After a commit every layer is still referenced: the new one by parent and
      child, the parent's old ones through it. */
  lemma CommitReferenced(w: World, asked: World, w': World, parent: Id, child: Id, x: Id, y: Id)
    requires Inv(asked) && child !in w.branches && child in asked.branches && asked == w.(branches := w.branches[child := asked.branches[child]])
    requires FreezeAsked(asked, parent, child) && x !in asked.layers
    requires var p := asked.branches[parent]; w'.layers == asked.layers[x := Layer(p.source, p.rw, p.base)]
    requires parent in w'.branches && IsReady(w'.branches, parent) && w'.branches[parent].base == Some(x)
    requires forall id | id in asked.branches && id != parent && id != child :: id in w'.branches && w'.branches[id] == asked.branches[id]
    requires y == x || Referenced(w.layers, w.branches, y)
    ensures Referenced(w'.layers, w'.branches, y)
  {
    hide Inv, Chain, HasChain, BranchOk, PinOk, BelowExists, GenerationOk;
    FreezeChain(asked, parent, x);
    assert Live(w'.branches, parent);
    assert x in Base(w'.layers, w'.branches[parent]);
    if y != x {
      var j :| Live(w.branches, j) && y in Base(w.layers, w.branches[j]);
      if j == parent {
        assert y in Base(w'.layers, w'.branches[parent]);
      } else {
        assert Live(asked.branches, j);
        LiveRow(asked, j);
        ChainStable(asked.layers, w'.layers, asked.branches[j].base);
        assert Live(w'.branches, j) && y in Base(w'.layers, w'.branches[j]);
      }
    }
  }

  lemma CommitOwned(w: World, asked: World, w': World, parent: Id, child: Id, x: Id, hist: seq<World>, plain: bool, v: Volume)
    requires child !in w.branches && child in asked.branches && asked == w.(branches := w.branches[child := asked.branches[child]])
    requires FreezeAsked(asked, parent, child) && Committed(asked, w', parent, child, x, NextVolume(asked, parent), hist, plain)
    requires v in w'.vols && (v in w.vols ==> Owned(w, v))
    ensures Owned(w', v)
  {
    hide Born, Chain, Stack;
    assert Live(w'.branches, parent) && Live(w'.branches, child);
    if v in w.vols {
      if j :| Live(w.branches, j) && (w.branches[j].rw == v || w.branches[j].srcVol == v) {
        assert Live(w'.branches, j);
        assert x in w'.layers && w'.layers[x].vol == asked.branches[parent].rw;
      } else if y :| y in w.layers && w.layers[y].vol == v {
        assert y in w'.layers && w'.layers[y].vol == v;
      }
    }
  }

  lemma CommitClaimed(w: World, asked: World, w': World, parent: Id, child: Id, x: Id, hist: seq<World>, plain: bool, c: Id)
    requires child !in w.branches && child in asked.branches && asked == w.(branches := w.branches[child := asked.branches[child]])
    requires FreezeAsked(asked, parent, child) && Committed(asked, w', parent, child, x, NextVolume(asked, parent), hist, plain)
    requires c in w'.conts && (c in w.conts ==> Claimed(w.branches, c))
    ensures Claimed(w'.branches, c)
  {
    hide Born, Chain, Stack;
    assert Live(w'.branches, parent) && Live(w'.branches, child);
    if w'.branches[parent].container != Some(c) && w'.branches[child].container != Some(c) {
      var j :| Live(w.branches, j) && w.branches[j].container == Some(c);
      assert Live(w'.branches, j) && w'.branches[j].container == Some(c);
    }
  }

  lemma CommitTight(w: World, asked: World, w': World, parent: Id, child: Id, x: Id, hist: seq<World>, plain: bool)
    requires Inv(asked) && Tight(w)
    requires child !in w.branches && child in asked.branches && asked == w.(branches := w.branches[child := asked.branches[child]])
    requires FreezeAsked(asked, parent, child) && Committed(asked, w', parent, child, x, NextVolume(asked, parent), hist, plain)
    ensures Tight(w')
  {
    hide Inv, Referenced, Owned, Claimed, Born, Chain, Stack;
    forall y | y in w'.layers
      ensures Referenced(w'.layers, w'.branches, y)
    {
      CommitReferenced(w, asked, w', parent, child, x, y);
    }
    forall v | v in w'.vols
      ensures Owned(w', v)
    {
      CommitOwned(w, asked, w', parent, child, x, hist, plain, v);
    }
    forall c | c in w'.conts
      ensures Claimed(w'.branches, c)
    {
      CommitClaimed(w, asked, w', parent, child, x, hist, plain, c);
    }
    assert forall id: Id | Live(w'.branches, id) :: id == parent || id == child || (Live(w.branches, id) && w'.branches[id] == w.branches[id]);
  }

  // -------------------------------------------------------------------- diff

  /** A diff leaves the throwaway's tombstone and nothing else; what bore the
      throwaway's volume name is gone. */
  ghost predicate Conservative(w: World, w': World, tw: Id, rw: Volume)
  {
    && tw !in w.branches && tw in w'.branches && w'.branches[tw].state == Destroyed
    && w'.branches == w.branches[tw := w'.branches[tw]]
    && w'.sources == w.sources && w'.layers == w.layers && w'.conts == w.conts && w'.vols == w.vols - {rw}
  }

  /** The throwaway stands, ready, on exactly the layers and the source volume a
      reset of the target would use. */
  ghost predicate BaseTwin(h: World, w: World, tw: Id, target: Id)
    requires target in w.branches
  {
    && IsReady(h.branches, tw)
    && Stack(h.layers, h.branches[tw]) == [h.branches[tw].rw] + Stack(w.layers, w.branches[target])[1..]
  }

  /** The report is a diff from what the throwaway shows to what the target shows. */
  ghost predicate Compared(h: World, w: World, tw: Id, target: Id, dump: map<Path, string> -> string, report: string)
    requires target in w.branches
  {
    BaseTwin(h, w, tw, target) && DiffOf(dump(View(h, tw)), dump(View(w, target)), report)
  }

  /** All that a diff asks of the registry. */
  ghost predicate CanDiff(bs: map<Id, Branch>, name: string, twName: string) {
    Unused(bs, twName) && exists j :: IsReady(bs, j) && bs[j].name == name
  }

  /** Provisions a throwaway on the target's own base, runs the dumps, and
      destroys it again on every path. */
  method DiffBranch(e: Engine, name: string, twName: string) returns (ok: bool, target: Option<Id>, tw: Option<Id>, report: string)
    requires Inv(e.W()) && NameFree(e.reg.layers, twName)
    modifies e.reg`branches, e.reg`journal, e.reg`layers, e.drv, e
    ensures e.Valid() && e.origin == old(e.W())
    ensures e.scope == Scope(if tw.Some? then {tw.value} else {}, {}) && (tw.Some? ==> tw.value !in old(e.reg.branches))
    ensures ViewsKept(old(e.W()), e.W(), {})
    ensures e.drv.reliable && old(Tight(e.W())) ==> Tight(e.W())
    ensures tw.None? ==> !ok && e.W() == old(e.W())
    ensures tw.Some? ==> e.reg.branches.Keys == old(e.reg.branches).Keys + {tw.value} && !IsReady(e.reg.branches, tw.value)
    ensures NoneRisen(old(e.reg.branches), e.reg.branches)
    ensures tw.Some? && e.drv.reliable ==> Conservative(old(e.W()), e.W(), tw.value, RW(twName, 1))
    ensures tw.Some? ==> e.reg.branches[tw.value].name == twName && e.reg.branches[tw.value].expires == Some(e.reg.clock + 3600)
    ensures e.drv.Flawless() && e.reg.freshIds && old(CanDiff(e.reg.branches, name, twName)) ==> ok
    ensures tw.Some? && ok ==>
      && target.Some? && IsReady(old(e.reg.branches), target.value) && old(e.reg.branches)[target.value].name == name
      && (exists h | h in e.hist :: Compared(h, old(e.W()), tw.value, target.value, e.drv.dump, report))
      && (RW(twName, 1) !in old(e.drv.vols) && old(Plain(e, e.W(), target.value)) ==>
            DiffOf(e.drv.dump(old(Ground(e.W(), target.value))), e.drv.dump(old(View(e.W(), target.value))), report))
  {
    hide Inv, Kept, Safe, Tight, NameFree, ViewsKept, View, Ground, BornOn, BaseTwin, Conservative, DiffOf, Stack, Chain, Spawned;
    ghost var w := e.W();
    e.Begin({}, {});
    ok, tw, report := false, None, "";
    target := e.reg.GetBranchByName(name);
    UniqueName(w, target, name);
    if target.Some? && e.reg.branches[target.value].state == Ready {
      var b := e.reg.branches[target.value];
      var expires: Option<int> := Some(e.reg.clock + 3600);
      var row := Branch(twName, b.source, Creating, None, RW(twName, 1), b.srcVol, expires, b.base, "", e.reg.clock);
      SourceOfLive(w, target.value);
      BornLike(w, target.value, row);
      var base, mine;
      ghost var h;
      ok, tw, base, mine, h := Compare(e, target.value, row);
      if ok {
        report := Print(base, mine);
      }
    }
    NewRowViews(e, w, tw);
  }

  /** The text is a unified diff between the two: it applies to the one and gives the
      other, with as few edits as can be, and it is empty exactly if they have the
      same lines. */
  ghost predicate DiffOf(a: string, b: string, out: string) {
    && (exists ops, rs :: Unified.IsDiff(Unified.SplitLines(a), Unified.SplitLines(b), ops, rs, out))
    && (out == "" <==> Unified.SplitLines(a) == Unified.SplitLines(b))
  }

  method Print(a: string, b: string) returns (out: string)
    ensures DiffOf(a, b, out)
  {
    hide Unified.IsDiff, Unified.SplitLines;
    ghost var ops, rs;
    out, ops, rs := Unified.UnifiedDiff(a, b);
  }

  /** The throwaway from birth to destruction, and the two dumps taken in between. */
  method Compare(e: Engine, target: Id, row: Branch)
      returns (ok: bool, tw: Option<Id>, base: string, mine: string, ghost h: World)
    requires e.Valid() && e.origin == e.W() && e.scope.branches == {} && IsReady(e.reg.branches, target)
    requires row.state == Creating && row.container.None? && row.rw == RW(row.name, 1) && row.updated == e.reg.clock
    requires row.source == e.reg.branches[target].source
    requires row.base == e.reg.branches[target].base && row.srcVol == e.reg.branches[target].srcVol
    requires NameFree(e.reg.layers, row.name) && BornOn(e.reg.sources, e.reg.branches, row)
    modifies e.reg`branches, e.reg`journal, e.reg`layers, e.drv, e`hist, e`scope
    ensures e.Valid() && old(e.hist) <= e.hist
    ensures e.drv.reliable && old(Tight(e.W())) ==> Tight(e.W())
    ensures e.drv.Flawless() && e.reg.freshIds && Unused(old(e.reg.branches), row.name) ==> ok
    ensures tw.None? ==> !ok && e.W() == old(e.W()) && e.scope == old(e.scope)
    ensures NoneRisen(old(e.reg.branches), e.reg.branches)
    ensures tw.Some? ==>
      && e.reg.branches.Keys == old(e.reg.branches).Keys + {tw.value} && !IsReady(e.reg.branches, tw.value)
      && tw.value !in old(e.reg.branches) && e.scope == Scope(old(e.scope).branches + {tw.value}, old(e.scope).sources)
      && e.reg.branches[tw.value].name == row.name && e.reg.branches[tw.value].expires == row.expires
      && (e.drv.reliable ==> Conservative(old(e.W()), e.W(), tw.value, row.rw))
    ensures tw.Some? && ok ==>
      && h in e.hist && BaseTwin(h, old(e.W()), tw.value, target) && tw.value in h.branches
      && base == e.drv.dump(View(h, tw.value)) && mine == e.drv.dump(old(View(e.W(), target)))
      && (row.rw !in old(e.drv.vols) && old(Plain(e, e.W(), target)) ==> View(h, tw.value) == old(Ground(e.W(), target)))
  {
    hide Inv, Kept, Safe, Tight, NameFree, Running, View, Ground, Spawned, TornDown, Gone, Stack, Chain, BornOn, Shared, BaseTwin, Conservative;
    ghost var w := e.W();
    base, mine, h := "", "", w;
    SourceOfLive(w, target);
    tw, ok := Spawn(e, row);
    if tw.Some? {
      ghost var w1, spawned := e.W(), ok;
      SpawnedShares(w, w1, tw.value, target, row, ok, e.drv.reliable);
      ghost var up := |e.hist| - 1;
      h := w1;
      assert e.hist[up] == w1;
      if ok {
        ok, base, mine := Measure(e, w, tw.value, target, row);
      }
      var destroyed := Destroy(e, tw.value);
      assert e.hist[up] == w1;
      DiffUndone(w, w1, e.W(), tw.value, row, spawned, destroyed, e.drv.reliable);
    }
  }

  /** Dumps the ready throwaway and its target. */
  method Measure(e: Engine, ghost w: World, tw: Id, target: Id, ghost row: Branch) returns (ok: bool, base: string, mine: string)
    requires Inv(w) && Inv(e.W()) && Kept(w, e.W(), e.scope) && target !in e.scope.branches && IsReady(w.branches, target)
    requires Spawned(w, e.W(), tw, row, true, e.drv.reliable)
    requires row.base == w.branches[target].base && row.srcVol == w.branches[target].srcVol
    ensures BaseTwin(e.W(), w, tw, target) && tw in e.reg.branches && row.rw in e.drv.vols
    ensures ok ==> base == e.drv.dump(View(e.W(), tw)) && mine == e.drv.dump(View(w, target))
    ensures row.rw !in w.vols && e.drv.vols[row.rw].files == map[] ==> View(e.W(), tw) == Ground(w, target)
    ensures e.drv.Flawless() ==> ok
  {
    hide Inv, Kept, View, Ground, Spawned, Stack, BaseTwin;
    ThrowawayBase(w, e.W(), tw, target, row, e.drv.reliable);
    SameFace(w, e.W(), target, e.scope);
    ok, base, mine := Dumps(e, tw, target);
  }

  lemma SameFace(w: World, w1: World, target: Id, scope: Scope)
    requires Inv(w) && Kept(w, w1, scope) && target !in scope.branches && IsReady(w.branches, target)
    ensures IsReady(w1.branches, target) && View(w1, target) == View(w, target)
  {
    hide Inv, View, Ground, SameChain, Uses;
    assert Live(w.branches, target) && KeptBranch(w, w1, target);
    ScopeViews(w, w1, scope);
  }

  /** The dumps and row counts of both instances only read. */
  method Dumps(e: Engine, tw: Id, target: Id) returns (ok: bool, base: string, mine: string)
    requires Inv(e.W()) && IsReady(e.reg.branches, tw) && IsReady(e.reg.branches, target)
    ensures ok ==> base == e.drv.dump(View(e.W(), tw)) && mine == e.drv.dump(View(e.W(), target))
    ensures e.drv.Flawless() ==> ok
  {
    hide Inv, Stack, Merged;
    ReadyFacts(e.W(), tw);
    ReadyFacts(e.W(), target);
    mine := "";
    var a, b := e.reg.branches[tw].container.value, e.reg.branches[target].container.value;
    ok, base := e.drv.Dump(a);
    if ok {
      ok, mine := e.drv.Dump(b);
    }
    if ok {
      ok := e.drv.Probe(a);
    }
    if ok {
      ok := e.drv.Probe(b);
    }
  }

  lemma SpawnedShares(w: World, w1: World, tw: Id, target: Id, row: Branch, ok: bool, reliable: bool)
    requires Spawned(w, w1, tw, row, ok, reliable) && IsReady(w.branches, target)
    requires row.base == w.branches[target].base && row.srcVol == w.branches[target].srcVol
    ensures Live(w1.branches, tw) && Shared(w1, tw) && target in w1.branches
  {
    assert Live(w1.branches, target) && target != tw;
  }

  lemma ThrowawayBase(w: World, w1: World, tw: Id, target: Id, row: Branch, reliable: bool)
    requires Inv(w) && IsReady(w.branches, target) && Spawned(w, w1, tw, row, true, reliable)
    requires row.base == w.branches[target].base && row.srcVol == w.branches[target].srcVol
    ensures row.rw in w1.vols && BaseTwin(w1, w, tw, target) && IsReady(w1.branches, tw)
    ensures row.rw !in w.vols && w1.vols[row.rw].files == map[] ==> View(w1, tw) == Ground(w, target)
  {
    hide Inv, Chain;
    LowerStack(w, target);
    var lower := Stack(w.layers, w.branches[target])[1..];
    assert Stack(w1.layers, w1.branches[tw]) == [row.rw] + lower;
    hide Stack;
    if row.rw !in w.vols && w1.vols[row.rw].files == map[] {
      EmptyOnTop(w.vols, w1.vols, row.rw, lower);
    }
  }

  lemma DiffUndone(w: World, w1: World, w2: World, tw: Id, row: Branch, ok: bool, destroyed: bool, reliable: bool)
    requires Spawned(w, w1, tw, row, ok, reliable) && row.container.None? && tw in w1.branches && TornDown(w1, w2, tw, destroyed, reliable)
    ensures reliable ==> Conservative(w, w2, tw, row.rw)
    ensures w2.branches.Keys == w.branches.Keys + {tw} && !IsReady(w2.branches, tw) && NoneRisen(w.branches, w2.branches)
    ensures w2.branches[tw].name == row.name && w2.branches[tw].expires == row.expires
  {
    if reliable {
      assert w2.branches == w.branches[tw := w2.branches[tw]];
      DiffVolumes(w.vols, w1.vols, w2.vols, row.rw);
      assert w2.conts == w.conts;
    }
  }

  lemma DiffVolumes(vols: map<Volume, Disk>, vols1: map<Volume, Disk>, vols2: map<Volume, Disk>, rw: Volume)
    requires SameBut(vols, vols1, rw) && (vols2 == vols1 || vols2 == vols1 - {rw}) && rw !in vols2
    ensures vols2 == vols - {rw}
  {
  }

  // ------------------------------------------------------------ guest writes

  function Written(tree: map<Path, string>, p: Path, entry: Entry): map<Path, string> {
    match entry case File(data) => tree[p := data] case Whiteout => tree - {p}
  }

  /** A client of a ready branch writes or deletes one path. */
  method GuestWrite(e: Engine, id: Id, p: Path, entry: Entry)
    requires Inv(e.W()) && IsReady(e.reg.branches, id)
    modifies e.drv`vols, e.drv`done, e
    ensures e.Valid() && e.origin == old(e.W())
    ensures e.scope == Scope({id}, {})
    ensures ViewsKept(old(e.W()), e.W(), {id})
    ensures View(e.W(), id) == Written(old(View(e.W(), id)), p, entry) && Ground(e.W(), id) == old(Ground(e.W(), id))
    ensures old(Tight(e.W())) ==> Tight(e.W())
  {
    hide Inv, Kept, Safe, Tight, ViewsKept, View, Ground, Written, Private, Unneeded, Running;
    ghost var w := e.W();
    e.Begin({id}, {});
    ReadyFacts(w, id);
    WrittenRunning(w, id);
    OwnVolume(w, id, e.scope);
    var c := e.reg.branches[id].container.value;
    e.drv.GuestWrite(c, p, entry);
    ghost var rw := e.reg.branches[id].rw;
    WriteVolumeStep(w, rw, e.drv.vols[rw], e.scope);
    assert e.W() == w.(vols := w.vols[rw := e.drv.vols[rw]]);
    e.Note(w);
    ScopeViews(w, e.W(), e.scope);
    WrittenView(w, e.W(), id, p, entry);
    WrittenTight(w, e.W(), rw);
  }

  lemma WrittenRunning(w: World, id: Id)
    requires id in w.branches && Running(w.layers, w.conts, w.branches[id])
    ensures w.branches[id].container.Some? && w.branches[id].container.value in w.conts
    ensures var s := w.conts[w.branches[id].container.value]; s != [] && s[0] == w.branches[id].rw
  {
  }

  lemma WrittenTight(w: World, w': World, rw: Volume)
    requires rw in w.vols && rw in w'.vols && w' == w.(vols := w.vols[rw := w'.vols[rw]])
    ensures Tight(w) ==> Tight(w')
  {
    hide Referenced, Claimed;
    assert forall v :: Owned(w', v) == Owned(w, v);
  }

  lemma WrittenView(w: World, w': World, id: Id, p: Path, entry: Entry)
    requires Inv(w) && IsReady(w.branches, id)
    requires var rw := w.branches[id].rw; rw in w.vols && w' == w.(vols := w.vols[rw := Wrote(w.vols[rw], p, entry)])
    ensures View(w', id) == Written(View(w, id), p, entry) && Ground(w', id) == Ground(w, id)
  {
    hide Inv, Chain;
    LowerStack(w, id);
    var stack := Stack(w.layers, w.branches[id]);
    hide Stack;
    WrittenContents(w.vols, w'.vols, stack[0], stack[1..], p, entry);
  }

  lemma WrittenContents(vols: map<Volume, Disk>, vols': map<Volume, Disk>, rw: Volume, lower: seq<Volume>, p: Path, entry: Entry)
    requires rw in vols && rw !in lower && vols' == vols[rw := Wrote(vols[rw], p, entry)]
    ensures Contents(vols', lower) == Contents(vols, lower)
    ensures Merged(Contents(vols', [rw] + lower)) == Written(Merged(Contents(vols, [rw] + lower)), p, entry)
  {
    hide Merged;
    var under := Contents(vols, lower);
    assert Contents(vols', lower) == under;
    assert Contents(vols, [rw] + lower) == [vols[rw].files] + under;
    assert Contents(vols', [rw] + lower) == [vols[rw].files[p := entry]] + under;
    WriteThrough(vols[rw].files, under, p, if entry.File? then entry.data else "");
  }
}
