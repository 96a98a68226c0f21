/** Reconcile: a read-only plan of convergence steps, and a pass that re-checks
    and applies them one by one. */
module Reconcile {
  import opened Options
  import opened BranchStates
  import opened Names
  import opened Overlay
  import opened Worlds
  import opened Steps
  import opened Engine
  import opened Leftovers
  import opened Removal
  import opened Saga
  import opened Collect
  import opened Branching
  import opened Freeze
  import R = Registry
  import Clock

  datatype Action =
    | Reap(name: string)
    | FailStuck(name: string)
    | RemoveOrphanContainer(c: Id)
    | GCLayer(vol: Volume)
    | GCVolume(vol: Volume)

  predicate Expired(b: Branch, now: int) {
    (b.state == Ready || b.state == Failed) && b.expires.Some? && b.expires.value < now
  }

  /** A row of the cutoff's own second counts too: its stamp has milliseconds, the
      cutoff has not, and the point sorts before the Z. */
  predicate Stuck(b: Branch, cutoff: int) {
    Transient(b.state) && b.updated <= cutoff
  }

  /** The two listings compare texts; on whole seconds they are these conditions. */
  lemma ExpiredAsListed(b: Branch, expiry: nat, now: nat)
    requires Clock.Dated(expiry) && Clock.Dated(now)
    ensures Expired(b.(expires := Some(expiry / 1_000_000_000)), now / 1_000_000_000) <==>
            (b.state == Ready || b.state == Failed) && Clock.ListedExpired(Clock.Rfc3339(expiry), now)
  {
    hide Clock.Dated, Clock.ListedExpired, Clock.Rfc3339;
    Clock.ExpiryListing(expiry, now);
  }

  lemma StuckAsListed(b: Branch, updated: nat, now: nat, timeout: nat)
    requires timeout <= now && Clock.Dated(updated) && Clock.Dated(now - timeout)
    ensures Stuck(b.(updated := updated / 1_000_000_000), (now - timeout) / 1_000_000_000) <==>
            (b.state == Creating || b.state == Resetting) && Clock.ListedStuck(Clock.SqlStamp(updated), now, timeout)
  {
    hide Clock.Dated, Clock.ListedStuck, Clock.SqlStamp;
    Clock.StuckListing(updated, now, timeout);
  }

  function ExpiredIds(bs: map<Id, Branch>, now: int): (ids: set<Id>)
    ensures ids <= bs.Keys
  {
    set id | id in bs && Expired(bs[id], now)
  }

  function StuckIds(bs: map<Id, Branch>, cutoff: int): (ids: set<Id>)
    ensures ids <= bs.Keys
  {
    set id | id in bs && Stuck(bs[id], cutoff)
  }

  /** What a plan is about: the drift that each action removes. */
  ghost predicate Due(w: World, a: Action, now: int, cutoff: int) {
    match a
    case Reap(name) => exists id :: id in ExpiredIds(w.branches, now) && w.branches[id].name == name
    case FailStuck(name) => exists id :: id in StuckIds(w.branches, cutoff) && w.branches[id].name == name
    case RemoveOrphanContainer(c) => c in w.conts && !Claimed(w.branches, c)
    case GCLayer(v) => exists x :: x in w.layers && w.layers[x].vol == v && !Referenced(w.layers, w.branches, x)
    case GCVolume(v) => v in w.vols && !Owned(w, v)
  }

  ghost predicate NoDrift(w: World, now: int, cutoff: int) {
    forall a :: !Due(w, a, now, cutoff)
  }

  // -------------------------------------------------------------------- plan

  method PlanReaps(e: Engine, now: int) returns (plan: seq<Action>)
    ensures forall a :: a in plan <==> a.Reap? && Due(e.W(), a, now, 0)
  {
    var rest := ExpiredIds(e.reg.branches, now);
    plan := [];
    while rest != {}
      invariant rest <= ExpiredIds(e.reg.branches, now)
      invariant forall a :: a in plan <==> a.Reap? && exists id :: id in ExpiredIds(e.reg.branches, now) - rest && e.reg.branches[id].name == a.name
      decreases rest
    {
      var id :| id in rest;
      plan, rest := plan + [Reap(e.reg.branches[id].name)], rest - {id};
    }
  }

  method PlanStuck(e: Engine, cutoff: int) returns (plan: seq<Action>)
    ensures forall a :: a in plan <==> a.FailStuck? && Due(e.W(), a, 0, cutoff)
  {
    var rest := StuckIds(e.reg.branches, cutoff);
    plan := [];
    while rest != {}
      invariant rest <= StuckIds(e.reg.branches, cutoff)
      invariant forall a :: a in plan <==> a.FailStuck? && exists id :: id in StuckIds(e.reg.branches, cutoff) - rest && e.reg.branches[id].name == a.name
      decreases rest
    {
      var id :| id in rest;
      plan, rest := plan + [FailStuck(e.reg.branches[id].name)], rest - {id};
    }
  }

  method PlanContainers(e: Engine) returns (plan: seq<Action>)
    ensures forall a :: a in plan <==> a.RemoveOrphanContainer? && Due(e.W(), a, 0, 0)
  {
    var known := set id | id in e.reg.branches && e.reg.branches[id].state != Destroyed && e.reg.branches[id].container.Some?
                 :: e.reg.branches[id].container.value;
    assert forall c :: c in known <==> Claimed(e.reg.branches, c);
    var rest := e.drv.conts.Keys;
    plan := [];
    while rest != {}
      invariant rest <= e.drv.conts.Keys
      invariant forall a :: a in plan <==> a.RemoveOrphanContainer? && a.c in e.drv.conts && a.c !in rest && !Claimed(e.reg.branches, a.c)
      decreases rest
    {
      var c :| c in rest;
      rest := rest - {c};
      if c !in known {
        plan := plan + [RemoveOrphanContainer(c)];
      }
    }
  }

  method PlanLayers(e: Engine) returns (plan: seq<Action>)
    requires Inv(e.W())
    ensures forall a :: a in plan <==> a.GCLayer? && Due(e.W(), a, 0, 0)
  {
    hide Inv, Referenced;
    AllChains(e.W());
    var rest := e.reg.layers.Keys;
    plan := [];
    while rest != {}
      invariant rest <= e.reg.layers.Keys
      invariant forall a :: a in plan <==> a.GCLayer? && exists x :: x in e.reg.layers.Keys - rest && e.reg.layers[x].vol == a.vol && !Referenced(e.reg.layers, e.reg.branches, x)
      decreases rest
    {
      var x :| x in rest;
      rest := rest - {x};
      var n := e.reg.CountBranchesReferencingLayer(x);
      CountZero(e.reg.layers, e.reg.branches, x, n);
      if n == 0 {
        plan := plan + [GCLayer(e.reg.layers[x].vol)];
      }
    }
  }

  /** Every volume a live branch, a source or a layer still names. */
  method LiveVolumeSet(e: Engine) returns (live: set<Volume>)
    ensures forall v :: v in live <==> Owned(e.W(), v)
  {
    live := set id | id in e.reg.branches && e.reg.branches[id].state != Destroyed :: e.reg.branches[id].rw;
    live := live + set id | id in e.reg.branches && e.reg.branches[id].state != Destroyed :: e.reg.branches[id].srcVol;
    live := live + set s | s in e.reg.sources :: e.reg.sources[s].vol;
    live := live + set x | x in e.reg.layers :: e.reg.layers[x].vol;
  }

  method PlanVolumes(e: Engine) returns (plan: seq<Action>)
    ensures forall a :: a in plan <==> a.GCVolume? && Due(e.W(), a, 0, 0)
  {
    var live := LiveVolumeSet(e);
    hide Owned;
    var rest := e.drv.vols.Keys;
    plan := [];
    while rest != {}
      invariant rest <= e.drv.vols.Keys
      invariant forall a :: a in plan <==> a.GCVolume? && a.vol in e.drv.vols && a.vol !in rest && !Owned(e.W(), a.vol)
      decreases rest
    {
      var v :| v in rest;
      rest := rest - {v};
      if v !in live {
        plan := plan + [GCVolume(v)];
      }
    }
  }

  /** Expired branches are dealt with before anything else. */
  predicate ReapsFirst(plan: seq<Action>) {
    forall i, k | 0 <= i < k < |plan| && plan[k].Reap? :: plan[i].Reap?
  }

  /** The plan lists exactly the drift there is, kind by kind. */
  method PlanReconcile(e: Engine, now: int, timeout: nat) returns (plan: seq<Action>)
    requires Inv(e.W())
    ensures forall a :: a in plan <==> Due(e.W(), a, now, now - timeout)
    ensures ReapsFirst(plan)
    ensures SpelledOut(e.W(), plan, now, now - timeout)
  {
    hide Inv, Due, SpelledOut;
    var reaps := PlanReaps(e, now);
    var stuck := PlanStuck(e, now - timeout);
    var containers := PlanContainers(e);
    var layers := PlanLayers(e);
    var volumes := PlanVolumes(e);
    plan := reaps + (stuck + containers + layers + volumes);
    ReapsThenRest(reaps, stuck + containers + layers + volumes);
    DueByKind(e.W(), now, now - timeout);
    SpellOut(e.W(), plan, now, now - timeout);
  }

  /** A kind of drift depends on the clock only if it is about the clock. */
  lemma DueByKind(w: World, now: int, cutoff: int)
    ensures forall a: Action | a.Reap? :: Due(w, a, now, cutoff) == Due(w, a, now, 0)
    ensures forall a: Action | a.FailStuck? :: Due(w, a, now, cutoff) == Due(w, a, 0, cutoff)
    ensures forall a: Action | !a.Reap? && !a.FailStuck? :: Due(w, a, now, cutoff) == Due(w, a, 0, 0)
  {
    hide ExpiredIds, StuckIds, Referenced, Owned, Claimed;
  }

  /** What is planned, in the terms of the tables. */
  ghost predicate SpelledOut(w: World, plan: seq<Action>, now: int, cutoff: int) {
    && (forall name :: Reap(name) in plan <==> exists id | id in w.branches && w.branches[id].name == name ::
          && (w.branches[id].state == Ready || w.branches[id].state == Failed)
          && w.branches[id].expires.Some? && w.branches[id].expires.value < now)
    && (forall name :: FailStuck(name) in plan <==> exists id | id in w.branches && w.branches[id].name == name ::
          && (w.branches[id].state == Creating || w.branches[id].state == Resetting)
          && w.branches[id].updated <= cutoff)
    && (forall c :: RemoveOrphanContainer(c) in plan <==>
          && c in w.conts
          && forall id | Live(w.branches, id) :: w.branches[id].container != Some(c))
    && (forall v :: GCLayer(v) in plan <==> exists x | x in w.layers && w.layers[x].vol == v ::
          forall id | Live(w.branches, id) :: x !in Base(w.layers, w.branches[id]))
    && (forall v :: GCVolume(v) in plan <==>
          && v in w.vols
          && (forall id | Live(w.branches, id) :: w.branches[id].rw != v && w.branches[id].srcVol != v)
          && (forall s | s in w.sources :: w.sources[s].vol != v)
          && (forall x | x in w.layers :: w.layers[x].vol != v))
  }

  lemma SpellOut(w: World, plan: seq<Action>, now: int, cutoff: int)
    requires forall a :: a in plan <==> Due(w, a, now, cutoff)
    ensures SpelledOut(w, plan, now, cutoff)
  {
    hide Chain;
  }

  lemma ReapsThenRest(reaps: seq<Action>, rest: seq<Action>)
    requires (forall a | a in reaps :: a.Reap?) && (forall a | a in rest :: !a.Reap?)
    ensures ReapsFirst(reaps + rest)
  {
    var plan := reaps + rest;
    forall k | 0 <= k < |plan|
      ensures plan[k].Reap? <==> k < |reaps|
    {
      assert if k < |reaps| then plan[k] in reaps else plan[k] in rest;
    }
  }

  // ------------------------------------------------------------------- apply

  /** Nothing is added; a row that changed is neither ready nor in transit, and
      keeps everything but its state and time stamp. */
  ghost predicate Calmer(w: World, w': World) {
    && w'.sources == w.sources && w'.branches.Keys == w.branches.Keys
    && (forall id | id in w.branches :: w'.branches[id] == w.branches[id] || Quietened(w.branches[id], w'.branches[id]))
    && Fewer(w.layers, w'.layers) && w'.conts.Keys <= w.conts.Keys && w'.vols.Keys <= w.vols.Keys
  }

  ghost predicate Quietened(a: Branch, b: Branch) {
    Retouched(a, b) && b.container == a.container && !Transient(b.state) && b.state != Ready && (a.state == Destroyed ==> b.state == Destroyed)
  }

  /** The branch an action is aimed at, if it is aimed at one. */
  ghost predicate Aimed(w: World, a: Action, id: Id) {
    Live(w.branches, id) && ((a.Reap? && w.branches[id].name == a.name) || (a.FailStuck? && w.branches[id].name == a.name))
  }

  /** What an action is for. */
  ghost predicate Achieved(w: World, a: Action) {
    match a
    case Reap(name) => forall id | Live(w.branches, id) :: w.branches[id].name != name
    case FailStuck(name) => forall id | Live(w.branches, id) && w.branches[id].name == name :: !Transient(w.branches[id].state)
    case RemoveOrphanContainer(c) => c !in w.conts
    case GCLayer(v) => v !in w.vols && forall x | x in w.layers :: w.layers[x].vol != v
    case GCVolume(v) => v !in w.vols
  }

  /** The re-check finds something to do. */
  ghost predicate Applicable(w: World, a: Action) {
    match a
    case Reap(name) => exists id :: Aimed(w, a, id) && w.branches[id].expires.Some? && w.branches[id].state != Destroying
    case FailStuck(name) => exists id :: Aimed(w, a, id) && Transient(w.branches[id].state)
    case RemoveOrphanContainer(c) => !Claimed(w.branches, c)
    case GCLayer(v) => false
    case GCVolume(v) => !Owned(w, v)
  }

  /** An action that is reported has achieved what it is for; when removals succeed,
      one that the re-check let through is reported (but for layers, where another
      layer may be chained onto it). */
  ghost predicate Reported(w: World, w': World, a: Action, applied: bool, reliable: bool) {
    (applied ==> Achieved(w', a)) && (reliable && Applicable(w, a) ==> applied)
  }

  method ApplyReap(e: Engine, name: string) returns (applied: bool)
    requires Inv(e.W())
    modifies e.reg`branches, e.reg`journal, e.reg`layers, e.drv`vols, e.drv`done, e.drv`conts, e
    ensures e.Valid() && e.origin == old(e.W()) && e.scope.sources == {}
    ensures forall id | id in e.scope.branches :: Aimed(old(e.W()), Reap(name), id)
    ensures ViewsKept(old(e.W()), e.W(), {}) && Calmer(old(e.W()), e.W())
    ensures e.drv.reliable && old(Tight(e.W())) ==> Tight(e.W())
    ensures forall id | id in e.reg.branches && e.reg.branches[id] != old(e.reg.branches)[id] :: e.reg.branches[id].state != Failed
    ensures forall id | Aimed(old(e.W()), Reap(name), id) && old(e.reg.branches)[id].expires.None? :: e.W() == old(e.W())
    ensures e.drv.reliable ==> forall id | Aimed(old(e.W()), Reap(name), id) ::
      e.reg.branches[id].state == Destroyed <==> old(e.reg.branches)[id].expires.Some? && old(e.reg.branches)[id].state != Destroying
    ensures Reported(old(e.W()), e.W(), Reap(name), applied, e.drv.reliable)
  {
    hide Inv, Kept, Safe, Tight, ViewsKept;
    ghost var w := e.W();
    var found := e.reg.GetBranchByName(name);
    if found.None? || e.reg.branches[found.value].expires.None? {
      e.Begin({}, {});
      SameViews(e, w);
      UniqueName(w, found, name);
      return false;
    }
    UniqueName(w, found, name);
    var id;
    applied, id := DestroyBranch(e, name);
    UniqueName(w, id, name);
  }

  /** Fails a branch that is still in a transient state; its container goes, and its
      volume too unless another live branch depends on it. */
  method ApplyFailStuck(e: Engine, name: string) returns (applied: bool)
    requires Inv(e.W())
    modifies e.reg`branches, e.reg`journal, e.drv`vols, e.drv`done, e.drv`conts, e
    ensures e.Valid() && e.origin == old(e.W()) && e.scope.sources == {}
    ensures forall id | id in e.scope.branches :: Aimed(old(e.W()), FailStuck(name), id)
    ensures ViewsKept(old(e.W()), e.W(), {}) && Calmer(old(e.W()), e.W())
    ensures old(Tight(e.W())) ==> e.W() == old(e.W())
    ensures forall id | id in e.reg.branches && e.reg.branches[id] != old(e.reg.branches)[id] :: Aimed(old(e.W()), FailStuck(name), id)
    ensures forall id | Aimed(old(e.W()), FailStuck(name), id) && Transient(old(e.reg.branches)[id].state) :: e.reg.branches[id].state == Failed
    ensures forall id | Aimed(old(e.W()), FailStuck(name), id) && !Transient(old(e.reg.branches)[id].state) :: e.W() == old(e.W())
    ensures forall id | Aimed(old(e.W()), FailStuck(name), id) && Transient(old(e.reg.branches)[id].state) ::
      VolumeOutcome(old(e.W()), e.W(), id, e.drv.reliable)
    ensures Reported(old(e.W()), e.W(), FailStuck(name), applied, e.drv.reliable)
  {
    hide Inv, Kept, Safe, ViewsKept, Running, Unneeded, Private, RWReferenced;
    ghost var w := e.W();
    var found := e.reg.GetBranchByName(name);
    UniqueName(w, found, name);
    if found.None? || !Transient(e.reg.branches[found.value].state) {
      e.Begin({}, {});
      SameViews(e, w);
      return false;
    }
    var id := found.value;
    e.Begin({id}, {});
    FailBranch(e, id);
    applied := true;
    ScopeViews(w, e.W(), e.scope);
    FewerSubjects(w, e.W(), {id}, {});
  }

  /** The data of a branch that was failed or forced: kept if another live branch
      depends on it, otherwise gone if the removal succeeds. Its container goes in
      any case. */
  ghost predicate VolumeOutcome(w: World, w': World, id: Id, reliable: bool)
    requires id in w.branches
  {
    var rw := w.branches[id].rw;
    && (KeepsVolume(w, id) ==> w'.vols == w.vols)
    && (reliable && !KeepsVolume(w, id) ==> rw !in w'.vols)
    && (reliable && w.branches[id].container.Some? ==> w.branches[id].container.value !in w'.conts)
  }

  /** Cleans up after a saga that was abandoned half way, ignoring errors, and
      fails the branch; a volume that another branch depends on is kept. */
  method FailBranch(e: Engine, id: Id)
    requires e.Valid() && Live(e.reg.branches, id) && id in e.scope.branches && Transient(e.reg.branches[id].state)
    modifies e.reg`branches, e.reg`journal, e.drv`vols, e.drv`done, e.drv`conts, e`hist
    ensures e.Valid() && old(e.hist) <= e.hist
    ensures e.reg.branches == old(e.reg.branches)[id := old(e.reg.branches[id]).(state := Failed, updated := e.reg.clock)]
    ensures e.drv.vols == old(e.drv.vols) || e.drv.vols == old(e.drv.vols) - {old(e.reg.branches[id].rw)}
    ensures old(KeepsVolume(e.W(), id)) ==> e.drv.vols == old(e.drv.vols)
    ensures e.drv.reliable && !old(KeepsVolume(e.W(), id)) ==> old(e.reg.branches[id].rw) !in e.drv.vols
    ensures e.drv.conts.Keys <= old(e.drv.conts.Keys)
    ensures e.drv.reliable && old(e.reg.branches[id].container.Some?) ==> old(e.reg.branches[id].container.value) !in e.drv.conts
  {
    hide AtMostOne, Inv, Kept, Safe, Running, Unneeded, Private, RWReferenced;
    var b := e.reg.branches[id];
    if b.container.Some? {
      LiveContainer(e.W(), id);
      var stopped := e.Stop(b.container.value);
    }
    if !RWReferenced(e.reg.branches, b.name, b.rw) {
      var removed := RemoveOwnVolume(e, id);
    }
    var failed := e.Transition(id, Failed);
  }

  method ApplyRemoveOrphan(e: Engine, c: Id) returns (applied: bool)
    requires Inv(e.W())
    modifies e.drv`conts, e
    ensures e.Valid() && e.origin == old(e.W()) && e.scope == Scope({}, {})
    ensures ViewsKept(old(e.W()), e.W(), {}) && Calmer(old(e.W()), e.W())
    ensures old(Tight(e.W())) ==> Tight(e.W())
    ensures e.drv.reliable && !Claimed(e.reg.branches, c) ==> c !in e.drv.conts
    ensures Reported(old(e.W()), e.W(), RemoveOrphanContainer(c), applied, e.drv.reliable)
  {
    hide AtMostOne, Inv, Kept, Safe, ViewsKept;
    ghost var w := e.W();
    e.Begin({}, {});
    if exists id | id in e.reg.branches :: e.reg.branches[id].state != Destroyed && e.reg.branches[id].container == Some(c) {
      applied := false;
    } else {
      applied := e.Stop(c);
    }
    ScopeViews(w, e.W(), e.scope);
  }

  /** A layer with another layer chained onto it. */
  ghost predicate HasChild(ls: map<Id, Layer>, v: Volume) {
    exists x, y :: x in ls && ls[x].vol == v && y in ls && ls[y].parent == Some(x)
  }

  method ApplyGCLayer(e: Engine, v: Volume) returns (applied: bool)
    requires Inv(e.W())
    modifies e.reg`layers, e.drv`vols, e.drv`done, e
    ensures e.Valid() && e.origin == old(e.W()) && e.scope == Scope({}, {})
    ensures ViewsKept(old(e.W()), e.W(), {}) && Calmer(old(e.W()), e.W())
    ensures old(Tight(e.W())) ==> e.W() == old(e.W())
    ensures e.drv.reliable && old(Due(e.W(), GCLayer(v), 0, 0)) ==>
      || e.reg.layers.Keys < old(e.reg.layers.Keys) || e.drv.vols.Keys < old(e.drv.vols.Keys)
      || (e.W() == old(e.W()) && HasChild(e.reg.layers, v))
    ensures e.drv.reliable && old(Due(e.W(), GCLayer(v), 0, 0)) ==>
      v !in e.drv.vols && (e.reg.layers == old(e.reg.layers) <==> old(HasChild(e.reg.layers, v)))
    ensures Reported(old(e.W()), e.W(), GCLayer(v), applied, e.drv.reliable)
  {
    hide AtMostOne, Inv, Kept, Safe, ViewsKept, Unneeded, Private, Referenced, HasChain, Chain, Owned, Claimed, Live;
    ghost var w := e.W();
    e.Begin({}, {});
    applied := false;
    if x: Id :| x in e.reg.layers && e.reg.layers[x].vol == v {
      AllChains(w);
      var n := e.reg.CountBranchesReferencingLayer(x);
      CountZero(e.reg.layers, e.reg.branches, x, n);
      VolumeLayer(w, x);
      if n == 0 {
        LayerVolumeUnneeded(w, x, e.scope);
        applied := e.RemoveVolume(v);
        if applied {
          applied := e.DeleteLayer(x);
        }
      }
    }
    ScopeViews(w, e.W(), e.scope);
  }

  /** A layer is known by its volume. */
  lemma VolumeLayer(w: World, x: Id)
    requires Inv(w) && x in w.layers
    ensures forall y | y in w.layers && w.layers[y].vol == w.layers[x].vol :: y == x
  {
    hide BranchesOk, SourcesOk, PinsOk, VolumesOk, ContainersOk;
  }

  method ApplyGCVolume(e: Engine, v: Volume) returns (applied: bool)
    requires Inv(e.W())
    modifies e.drv`vols, e.drv`done, e
    ensures e.Valid() && e.origin == old(e.W()) && e.scope == Scope({}, {})
    ensures ViewsKept(old(e.W()), e.W(), {}) && Calmer(old(e.W()), e.W())
    ensures old(Tight(e.W())) ==> Tight(e.W())
    ensures e.drv.reliable && !old(Owned(e.W(), v)) ==> v !in e.drv.vols
    ensures Reported(old(e.W()), e.W(), GCVolume(v), applied, e.drv.reliable)
  {
    hide AtMostOne, Inv, Kept, Safe, ViewsKept, Unneeded, Private;
    ghost var w := e.W();
    e.Begin({}, {});
    var live := LiveVolumeSet(e);
    if v in live {
      applied := false;
    } else {
      UnownedUnneeded(w, v, e.scope);
      applied := e.RemoveVolume(v);
    }
    ScopeViews(w, e.W(), e.scope);
    if Tight(w) {
      FewerVolumesTight(w, e.W());
    }
  }

  lemma FewerVolumesTight(w: World, w': World)
    requires Tight(w) && w' == w.(vols := w'.vols) && w'.vols.Keys <= w.vols.Keys
    ensures Tight(w')
  {
    hide Referenced, Claimed;
    forall v | v in w'.vols
      ensures Owned(w', v)
    {
      assert Owned(w, v);
    }
  }

  lemma UnownedUnneeded(w: World, v: Volume, scope: Scope)
    requires Inv(w) && !Owned(w, v)
    ensures Unneeded(w, v) && Private(w, v, scope)
  {
    hide Inv, Chain;
  }

  /** What an action does to the branch it finds under its name: a reap destroys
      any branch with an expiry, whatever its date, and a failed stuck branch keeps
      its data exactly if another live branch depends on it. */
  ghost predicate Outcome(w: World, w': World, a: Action, reliable: bool) {
    forall id | Aimed(w, a, id) && id in w'.branches ::
      if a.Reap? then
        && (reliable ==> (w'.branches[id].state == Destroyed <==> w.branches[id].expires.Some? && w.branches[id].state != Destroying))
        && (w.branches[id].expires.None? ==> w' == w)
      else if Transient(w.branches[id].state) then
        w'.branches[id].state == Failed && VolumeOutcome(w, w', id, reliable)
      else w' == w
  }

  /** Re-checks one action against the registry as it is now, whatever happened
      since the plan was made, and carries it out. */
  method ApplyAction(e: Engine, a: Action, ghost now: int, ghost cutoff: int) returns (applied: bool)
    requires Inv(e.W())
    modifies e.reg`branches, e.reg`journal, e.reg`layers, e.drv`vols, e.drv`done, e.drv`conts, e
    ensures e.Valid() && e.origin == old(e.W()) && e.scope.sources == {}
    ensures forall id | id in e.scope.branches :: Aimed(old(e.W()), a, id)
    ensures ViewsKept(old(e.W()), e.W(), {}) && Calmer(old(e.W()), e.W())
    ensures Outcome(old(e.W()), e.W(), a, e.drv.reliable) && Reported(old(e.W()), e.W(), a, applied, e.drv.reliable)
    ensures e.drv.reliable && old(Tight(e.W())) ==> Tight(e.W())
    ensures Sharp(old(e.W()), a, cutoff) ==> Drift(e.W(), now, cutoff) <= Drift(old(e.W()), now, cutoff)
    ensures e.drv.reliable && old(Due(e.W(), a, now, cutoff)) ==>
      || Drift(e.W(), now, cutoff) < Drift(old(e.W()), now, cutoff)
      || (e.W() == old(e.W()) && a.GCLayer? && HasChild(e.reg.layers, a.vol))
  {
    hide Inv, Kept, Safe, Tight, ViewsKept, Drift, Due, Reported;
    ghost var w := e.W();
    match a {
      case Reap(name) =>
        applied := ApplyReap(e, name);
        ReapDrift(w, e.W(), name, now, cutoff, e.drv.reliable);
      case FailStuck(name) =>
        applied := ApplyFailStuck(e, name);
        FailDrift(w, e.W(), name, now, cutoff);
      case RemoveOrphanContainer(c) =>
        applied := ApplyRemoveOrphan(e, c);
        DriverDrift(w, e.W(), a, now, cutoff, e.drv.reliable);
      case GCLayer(v) =>
        assert Due(w, a, now, cutoff) == Due(w, a, 0, 0) by { DueLayer(w, v, now, cutoff); }
        applied := ApplyGCLayer(e, v);
        LayerDrift(w, e.W(), now, cutoff);
      case GCVolume(v) =>
        applied := ApplyGCVolume(e, v);
        DriverDrift(w, e.W(), a, now, cutoff, e.drv.reliable);
    }
  }

  lemma DueLayer(w: World, v: Volume, now: int, cutoff: int)
    ensures Due(w, GCLayer(v), now, cutoff) == Due(w, GCLayer(v), 0, 0)
  {
  }

  // ------------------------------------------------------------- convergence

  /** The measure of drift: a stuck branch counts twice, because failing it may
      make it an expired one. */
  ghost function Drift(w: World, now: int, cutoff: int): nat {
    2 * |StuckIds(w.branches, cutoff)| + |ExpiredIds(w.branches, now)| + |w.layers.Keys| + |w.conts.Keys| + |w.vols.Keys|
  }

  lemma SubsetSize<T>(a: set<T>, b: set<T>)
    requires a <= b
    ensures |a| <= |b| && (a < b ==> |a| < |b|)
  {
    assert b == a + (b - a);
  }

  /** An action aimed at a stuck branch finds it still stuck, if in transit. */
  ghost predicate Sharp(w: World, a: Action, cutoff: int) {
    a.FailStuck? ==> forall id | Aimed(w, a, id) && Transient(w.branches[id].state) :: id in StuckIds(w.branches, cutoff)
  }

  lemma DriverSizes(w: World, w': World)
    requires Calmer(w, w')
    ensures |w'.layers.Keys| <= |w.layers.Keys| && |w'.conts.Keys| <= |w.conts.Keys| && |w'.vols.Keys| <= |w.vols.Keys|
    ensures w'.layers.Keys < w.layers.Keys ==> |w'.layers.Keys| < |w.layers.Keys|
    ensures w'.conts.Keys < w.conts.Keys ==> |w'.conts.Keys| < |w.conts.Keys|
    ensures w'.vols.Keys < w.vols.Keys ==> |w'.vols.Keys| < |w.vols.Keys|
  {
    SubsetSize(w'.layers.Keys, w.layers.Keys);
    SubsetSize(w'.conts.Keys, w.conts.Keys);
    SubsetSize(w'.vols.Keys, w.vols.Keys);
  }

  lemma ReapRows(w: World, w': World, name: string, now: int, cutoff: int, reliable: bool)
    requires Calmer(w, w')
    requires forall id | id in w'.branches && w'.branches[id] != w.branches[id] :: w'.branches[id].state != Failed
    requires reliable ==> forall id | Aimed(w, Reap(name), id) && w.branches[id].expires.Some? && w.branches[id].state != Destroying ::
      w'.branches[id].state == Destroyed
    ensures StuckIds(w'.branches, cutoff) <= StuckIds(w.branches, cutoff)
    ensures ExpiredIds(w'.branches, now) <= ExpiredIds(w.branches, now)
    ensures reliable && Due(w, Reap(name), now, cutoff) ==> ExpiredIds(w'.branches, now) < ExpiredIds(w.branches, now)
  {
    hide Quietened;
    RowsShrink(w.branches, w'.branches, now, cutoff);
    assert w'.branches.Keys == w.branches.Keys;
    hide StuckIds, ExpiredIds, Calmer;
    if reliable && Due(w, Reap(name), now, cutoff) {
      var id :| id in ExpiredIds(w.branches, now) && w.branches[id].name == name;
      ExpiredGone(w, w', id, name, now);
    }
  }

  lemma ReapDrift(w: World, w': World, name: string, now: int, cutoff: int, reliable: bool)
    requires Calmer(w, w')
    requires forall id | id in w'.branches && w'.branches[id] != w.branches[id] :: w'.branches[id].state != Failed
    requires reliable ==> forall id | Aimed(w, Reap(name), id) && w.branches[id].expires.Some? && w.branches[id].state != Destroying ::
      w'.branches[id].state == Destroyed
    ensures Drift(w', now, cutoff) <= Drift(w, now, cutoff)
    ensures reliable && Due(w, Reap(name), now, cutoff) ==> Drift(w', now, cutoff) < Drift(w, now, cutoff)
  {
    ReapRows(w, w', name, now, cutoff, reliable);
    DriverSizes(w, w');
    hide StuckIds, ExpiredIds, Calmer, Due, Aimed;
    SubsetSize(StuckIds(w'.branches, cutoff), StuckIds(w.branches, cutoff));
    SubsetSize(ExpiredIds(w'.branches, now), ExpiredIds(w.branches, now));
  }

  lemma RowsShrink(bs: map<Id, Branch>, bs': map<Id, Branch>, now: int, cutoff: int)
    requires bs'.Keys == bs.Keys && forall id | id in bs :: bs'[id] == bs[id] || Quietened(bs[id], bs'[id])
    ensures StuckIds(bs', cutoff) <= StuckIds(bs, cutoff)
    ensures (forall id | id in bs && bs'[id] != bs[id] :: bs'[id].state != Failed) ==> ExpiredIds(bs', now) <= ExpiredIds(bs, now)
  {
  }

  lemma ExpiredGone(w: World, w': World, id: Id, name: string, now: int)
    requires id in ExpiredIds(w.branches, now) && w.branches[id].name == name && id in w'.branches
    requires forall j | Aimed(w, Reap(name), j) && w.branches[j].expires.Some? && w.branches[j].state != Destroying ::
      j in w'.branches && w'.branches[j].state == Destroyed
    ensures id !in ExpiredIds(w'.branches, now)
  {
    assert Aimed(w, Reap(name), id);
  }

  lemma FailDrift(w: World, w': World, name: string, now: int, cutoff: int)
    requires Inv(w) && Calmer(w, w')
    requires forall id | id in w'.branches && w'.branches[id] != w.branches[id] :: Aimed(w, FailStuck(name), id)
    requires forall id | Aimed(w, FailStuck(name), id) && Transient(w.branches[id].state) :: w'.branches[id].state == Failed
    requires forall id | Aimed(w, FailStuck(name), id) && !Transient(w.branches[id].state) :: w' == w
    ensures Sharp(w, FailStuck(name), cutoff) ==> Drift(w', now, cutoff) <= Drift(w, now, cutoff)
    ensures Due(w, FailStuck(name), now, cutoff) ==> Drift(w', now, cutoff) < Drift(w, now, cutoff)
  {
    hide Inv, Quietened, StuckIds, ExpiredIds, Fewer;
    DriverSizes(w, w');
    RowsShrink(w.branches, w'.branches, now, cutoff);
    SubsetSize(StuckIds(w'.branches, cutoff), StuckIds(w.branches, cutoff));
    if id :| id in StuckIds(w.branches, cutoff) && w.branches[id].name == name {
      FailOne(w, w', id, name, now, cutoff);
      SubsetSize(StuckIds(w'.branches, cutoff), StuckIds(w.branches, cutoff) - {id});
      SubsetSize(ExpiredIds(w'.branches, now), ExpiredIds(w.branches, now) + {id});
    } else if Sharp(w, FailStuck(name), cutoff) {
      NoneFailed(w, w', name, cutoff);
    }
  }

  lemma FailOne(w: World, w': World, id: Id, name: string, now: int, cutoff: int)
    requires Inv(w) && Calmer(w, w') && id in StuckIds(w.branches, cutoff) && w.branches[id].name == name
    requires forall j | j in w'.branches && w'.branches[j] != w.branches[j] :: Aimed(w, FailStuck(name), j)
    requires forall j | Aimed(w, FailStuck(name), j) && Transient(w.branches[j].state) :: w'.branches[j].state == Failed
    ensures StuckIds(w'.branches, cutoff) <= StuckIds(w.branches, cutoff) - {id}
    ensures ExpiredIds(w'.branches, now) <= ExpiredIds(w.branches, now) + {id}
  {
    hide Inv, Quietened;
    assert Aimed(w, FailStuck(name), id);
    UniqueName(w, Some(id), name);
    RowsShrink(w.branches, w'.branches, now, cutoff);
  }

  /** If nothing in transit bears the name, nothing happened. */
  lemma NoneFailed(w: World, w': World, name: string, cutoff: int)
    requires Inv(w) && Calmer(w, w') && Sharp(w, FailStuck(name), cutoff)
    requires forall id | id in StuckIds(w.branches, cutoff) :: w.branches[id].name != name
    requires forall id | id in w'.branches && w'.branches[id] != w.branches[id] :: Aimed(w, FailStuck(name), id)
    requires forall id | Aimed(w, FailStuck(name), id) && !Transient(w.branches[id].state) :: w' == w
    ensures w'.branches == w.branches
  {
    hide Inv;
  }

  lemma DriverDrift(w: World, w': World, a: Action, now: int, cutoff: int, reliable: bool)
    requires Calmer(w, w') && w'.branches == w.branches && (a.RemoveOrphanContainer? || a.GCVolume?)
    requires a.RemoveOrphanContainer? && reliable && !Claimed(w.branches, a.c) ==> a.c !in w'.conts
    requires a.GCVolume? && reliable && !Owned(w, a.vol) ==> a.vol !in w'.vols
    ensures Drift(w', now, cutoff) <= Drift(w, now, cutoff)
    ensures reliable && Due(w, a, now, cutoff) ==> Drift(w', now, cutoff) < Drift(w, now, cutoff)
  {
    hide Owned, Claimed;
    DriverSizes(w, w');
  }

  lemma LayerDrift(w: World, w': World, now: int, cutoff: int)
    requires Calmer(w, w') && w'.branches == w.branches
    ensures Drift(w', now, cutoff) <= Drift(w, now, cutoff)
    ensures w'.layers.Keys < w.layers.Keys || w'.vols.Keys < w.vols.Keys ==> Drift(w', now, cutoff) < Drift(w, now, cutoff)
  {
    DriverSizes(w, w');
  }

  lemma CalmerRefl(w: World)
    ensures Calmer(w, w)
  {
  }

  lemma CalmerTrans(w0: World, w1: World, w2: World)
    requires Calmer(w0, w1) && Calmer(w1, w2)
    ensures Calmer(w0, w2)
  {
    forall id | id in w0.branches
      ensures w2.branches[id] == w0.branches[id] || Quietened(w0.branches[id], w2.branches[id])
    {
      assert id in w1.branches;
    }
    hide Quietened;
  }

  lemma ViewsTrans(w0: World, w1: World, w2: World)
    requires ViewsKept(w0, w1, {}) && ViewsKept(w1, w2, {}) && Calmer(w1, w2)
    ensures ViewsKept(w0, w2, {})
  {
    hide View, Ground;
    assert forall id: Id | IsReady(w2.branches, id) :: IsReady(w1.branches, id);
  }

  /** The branches a plan made in this state may be aimed at. */
  ghost function Targets(w: World, now: int, cutoff: int): set<Id> {
    ExpiredIds(w.branches, now) + StuckIds(w.branches, cutoff)
  }

  /** While a pass runs, an action still finds the branch it was planned for. */
  lemma StillAimed(w0: World, w: World, a: Action, id: Id, now: int, cutoff: int)
    requires Inv(w0) && Calmer(w0, w) && Due(w0, a, now, cutoff) && Aimed(w, a, id)
    ensures id in Targets(w0, now, cutoff)
    ensures a.FailStuck? && Transient(w.branches[id].state) ==> id in StuckIds(w.branches, cutoff)
  {
    hide Inv;
    assert Live(w0.branches, id) && w0.branches[id].name == a.name;
    UniqueName(w0, Some(id), a.name);
    if a.Reap? {
      var j :| j in ExpiredIds(w0.branches, now) && w0.branches[j].name == a.name;
      assert Live(w0.branches, j);
    } else {
      var j :| j in StuckIds(w0.branches, cutoff) && w0.branches[j].name == a.name;
      assert Live(w0.branches, j);
    }
  }

  lemma StillSharp(w0: World, w: World, a: Action, now: int, cutoff: int)
    requires Inv(w0) && Calmer(w0, w) && Due(w0, a, now, cutoff)
    ensures Sharp(w, a, cutoff) && forall id | Aimed(w, a, id) :: id in Targets(w0, now, cutoff)
  {
    hide Inv, Calmer, Due, Targets, StuckIds;
    forall id | Aimed(w, a, id)
      ensures id in Targets(w0, now, cutoff)
      ensures a.FailStuck? && Transient(w.branches[id].state) ==> id in StuckIds(w.branches, cutoff)
    {
      StillAimed(w0, w, a, id, now, cutoff);
    }
  }

  /** Where a pass stands: drift went down, or nothing happened because every
      action so far met a layer that another layer is chained onto. */
  ghost predicate Progress(w0: World, w: World, plan: seq<Action>, i: nat, now: int, cutoff: int)
    requires i <= |plan|
  {
    || Drift(w, now, cutoff) < Drift(w0, now, cutoff)
    || (w == w0 && forall j | 0 <= j < i :: plan[j].GCLayer? && HasChild(w0.layers, plan[j].vol))
  }

  // ----------------------------------------------- what a pass does to the stuck

  /** Branch `j` depends on the data of branch `id`: the guard's condition. */
  ghost predicate DependsOn(bs: map<Id, Branch>, j: Id, id: Id) {
    && id in bs && Live(bs, j) && bs[j].name != bs[id].name
    && (bs[j].srcVol == bs[id].rw || bs[j].parentName == bs[id].name)
  }

  /** Some live branch that is not itself about to be reaped depends on it. */
  ghost predicate Guarded(w: World, id: Id, now: int) {
    exists j :: DependsOn(w.branches, j, id) && j !in ExpiredIds(w.branches, now)
  }

  /** A stuck branch after a pass: failed, and its data is there exactly if it was
      guarded (as far as removals succeed). */
  ghost predicate Settled(w0: World, w: World, id: Id, now: int, reliable: bool)
    requires id in w0.branches
  {
    var rw := w0.branches[id].rw;
    && id in w.branches && w.branches[id].state == Failed
    && (Guarded(w0, id, now) ==> (rw in w.vols <==> rw in w0.vols))
    && (reliable && !Guarded(w0, id, now) ==> rw !in w.vols)
  }

  ghost predicate Waiting(w0: World, w: World, id: Id)
    requires id in w0.branches
  {
    && id in w.branches && w.branches[id] == w0.branches[id]
    && (w0.branches[id].rw in w.vols <==> w0.branches[id].rw in w0.vols)
  }

  /** A pass under way: `done` are the actions behind it. */
  ghost predicate Course(w0: World, w: World, done: set<Action>, now: int, cutoff: int, reliable: bool) {
    && (forall j | Live(w0.branches, j) && j !in ExpiredIds(w0.branches, now) :: Live(w.branches, j))
    && (forall j | j in ExpiredIds(w0.branches, now) ::
          if Reap(w0.branches[j].name) in done then reliable ==> !Live(w.branches, j)
          else j in w.branches && w.branches[j] == w0.branches[j])
    && (forall id | id in StuckIds(w0.branches, cutoff) ::
          if FailStuck(w0.branches[id].name) in done then Settled(w0, w, id, now, reliable) else Waiting(w0, w, id))
  }

  lemma CourseStart(w0: World, now: int, cutoff: int, reliable: bool)
    ensures Course(w0, w0, {}, now, cutoff, reliable)
  {
  }

  /** The guard seen in the middle of a pass is the one of its beginning. */
  lemma GuardHolds(w0: World, w: World, id: Id, done: set<Action>, now: int, cutoff: int, reliable: bool)
    requires Calmer(w0, w) && Course(w0, w, done, now, cutoff, reliable) && id in StuckIds(w0.branches, cutoff)
    requires id in w.branches && w.branches[id] == w0.branches[id]
    requires forall j | j in ExpiredIds(w0.branches, now) :: Reap(w0.branches[j].name) in done
    ensures Guarded(w0, id, now) ==> KeepsVolume(w, id)
    ensures reliable && KeepsVolume(w, id) ==> Guarded(w0, id, now)
  {
    hide Settled, Waiting;
    var name, rw := w0.branches[id].name, w0.branches[id].rw;
    if Guarded(w0, id, now) {
      var j :| DependsOn(w0.branches, j, id) && j !in ExpiredIds(w0.branches, now);
      assert Live(w.branches, j) && Retouched(w0.branches[j], w.branches[j]);
      assert RWReferenced(w.branches, name, rw);
    }
    if reliable && KeepsVolume(w, id) {
      var j :| j in w.branches && w.branches[j].state != Destroyed && w.branches[j].name != name
               && (w.branches[j].srcVol == rw || w.branches[j].parentName == name);
      assert Live(w.branches, j) && Live(w0.branches, j) && Retouched(w0.branches[j], w.branches[j]);
      assert DependsOn(w0.branches, j, id);
    }
  }

  /** Whoever an action of the plan is aimed at was expired or stuck when the plan
      was made, in the way the action says. */
  lemma AimedAsPlanned(w0: World, w: World, a: Action, id: Id, now: int, cutoff: int)
    requires Inv(w0) && Calmer(w0, w) && Due(w0, a, now, cutoff) && Aimed(w, a, id)
    ensures a.Reap? ==> id in ExpiredIds(w0.branches, now)
    ensures a.FailStuck? ==> id in StuckIds(w0.branches, cutoff)
    ensures Live(w0.branches, id) && w0.branches[id].name == w.branches[id].name == a.name
  {
    hide Inv;
    assert Live(w0.branches, id) && w0.branches[id].name == a.name;
    UniqueName(w0, Some(id), a.name);
    if a.Reap? {
      var j :| j in ExpiredIds(w0.branches, now) && w0.branches[j].name == a.name;
      assert Live(w0.branches, j);
    } else {
      var j :| j in StuckIds(w0.branches, cutoff) && w0.branches[j].name == a.name;
      assert Live(w0.branches, j);
    }
  }

  /** A live branch an action is not aimed at keeps its row and its volume. */
  lemma NotAimed(w: World, w': World, a: Action, id: Id, scope: Scope)
    requires Kept(w, w', scope) && Calmer(w, w') && Live(w.branches, id) && !Aimed(w, a, id)
    requires forall i | i in scope.branches :: Aimed(w, a, i)
    ensures id in w'.branches && w'.branches[id] == w.branches[id]
    ensures w.branches[id].rw in w'.vols <==> w.branches[id].rw in w.vols
  {
    hide SameChain, Calmer, Below;
    assert KeptBranch(w, w', id) && Uses(w.layers, w.branches[id], w.branches[id].rw);
    CalmerVolumes(w, w');
  }

  lemma CalmerVolumes(w: World, w': World)
    requires Calmer(w, w')
    ensures w'.vols.Keys <= w.vols.Keys
  {
  }

  lemma CourseStep(w0: World, w: World, w': World, a: Action, done: set<Action>, scope: Scope, now: int, cutoff: int, reliable: bool)
    requires Inv(w0) && Calmer(w0, w) && Calmer(w, w') && Course(w0, w, done, now, cutoff, reliable) && Due(w0, a, now, cutoff)
    requires Kept(w, w', scope) && (forall i | i in scope.branches :: Aimed(w, a, i)) && Outcome(w, w', a, reliable)
    requires !a.Reap? ==> forall j | j in ExpiredIds(w0.branches, now) :: Reap(w0.branches[j].name) in done
    ensures Course(w0, w', done + {a}, now, cutoff, reliable)
  {
    hide Inv, Kept, Due, Calmer, ExpiredIds, StuckIds, Settled, Waiting, Outcome, Aimed;
    forall j | Live(w0.branches, j) && j !in ExpiredIds(w0.branches, now)
      ensures Live(w'.branches, j)
    {
      CourseLive(w0, w, w', a, j, scope, now, cutoff, reliable);
    }
    forall j | j in ExpiredIds(w0.branches, now)
      ensures if Reap(w0.branches[j].name) in done + {a} then reliable ==> !Live(w'.branches, j)
              else j in w'.branches && w'.branches[j] == w0.branches[j]
    {
      CourseReaped(w0, w, w', a, j, scope, now, cutoff, done, reliable);
    }
    forall id | id in StuckIds(w0.branches, cutoff)
      ensures if FailStuck(w0.branches[id].name) in done + {a} then Settled(w0, w', id, now, reliable) else Waiting(w0, w', id)
    {
      CourseStuck(w0, w, w', a, id, done, scope, now, cutoff, reliable);
    }
  }

  lemma CourseLive(w0: World, w: World, w': World, a: Action, j: Id, scope: Scope, now: int, cutoff: int, reliable: bool)
    requires Inv(w0) && Calmer(w0, w) && Calmer(w, w') && Due(w0, a, now, cutoff)
    requires Kept(w, w', scope) && (forall i | i in scope.branches :: Aimed(w, a, i)) && Outcome(w, w', a, reliable)
    requires Live(w.branches, j) && j in w0.branches && j !in ExpiredIds(w0.branches, now)
    ensures Live(w'.branches, j)
  {
    hide Inv, Kept, Due, ExpiredIds, StuckIds, VolumeOutcome;
    if Aimed(w, a, j) {
      AimedAsPlanned(w0, w, a, j, now, cutoff);
    } else {
      NotAimed(w, w', a, j, scope);
    }
  }

  lemma CourseReaped(w0: World, w: World, w': World, a: Action, j: Id, scope: Scope, now: int, cutoff: int,
                     done: set<Action>, reliable: bool)
    requires Inv(w0) && Calmer(w0, w) && Calmer(w, w') && Due(w0, a, now, cutoff)
    requires Kept(w, w', scope) && (forall i | i in scope.branches :: Aimed(w, a, i))
    requires Outcome(w, w', a, reliable) && Course(w0, w, done, now, cutoff, reliable) && j in ExpiredIds(w0.branches, now)
    ensures if Reap(w0.branches[j].name) in done + {a} then reliable ==> !Live(w'.branches, j)
            else j in w'.branches && w'.branches[j] == w0.branches[j]
  {
    hide Inv, Kept, Due, StuckIds, VolumeOutcome, Settled, Waiting;
    if Reap(w0.branches[j].name) !in done {
      assert Live(w.branches, j);
      if Aimed(w, a, j) {
        StuckNotExpired(w0, j, now, cutoff);
        AimedAsPlanned(w0, w, a, j, now, cutoff);
      } else {
        NotAimed(w, w', a, j, scope);
      }
    }
  }

  lemma StuckNotExpired(w0: World, j: Id, now: int, cutoff: int)
    requires j in ExpiredIds(w0.branches, now)
    ensures j !in StuckIds(w0.branches, cutoff)
  {
  }

  lemma CourseStuck(w0: World, w: World, w': World, a: Action, id: Id, done: set<Action>, scope: Scope, now: int, cutoff: int, reliable: bool)
    requires Inv(w0) && Calmer(w0, w) && Calmer(w, w') && Course(w0, w, done, now, cutoff, reliable) && Due(w0, a, now, cutoff)
    requires Kept(w, w', scope) && (forall i | i in scope.branches :: Aimed(w, a, i)) && Outcome(w, w', a, reliable)
    requires !a.Reap? ==> forall j | j in ExpiredIds(w0.branches, now) :: Reap(w0.branches[j].name) in done
    requires id in StuckIds(w0.branches, cutoff)
    ensures if FailStuck(w0.branches[id].name) in done + {a} then Settled(w0, w', id, now, reliable) else Waiting(w0, w', id)
  {
    hide Inv, Kept, Due, Calmer, Guarded;
    var fail := FailStuck(w0.branches[id].name);
    assert if fail in done then Settled(w0, w, id, now, reliable) else Waiting(w0, w, id);
    CalmerRow(w0, w, id);
    CalmerRow(w, w', id);
    if Aimed(w, a, id) {
      AimedAsPlanned(w0, w, a, id, now, cutoff);
      assert a == fail;
      if fail !in done {
        GuardHolds(w0, w, id, done, now, cutoff, reliable);
      }
    } else {
      NotAimed(w, w', a, id, scope);
    }
  }

  lemma CalmerRow(w: World, w': World, id: Id)
    requires Calmer(w, w') && id in w.branches
    ensures id in w'.branches && Retouched(w.branches[id], w'.branches[id])
  {
  }

  // ------------------------------------------------------------------- a pass

  /** No destroy is stuck half way. */
  ghost predicate NoDestroying(bs: map<Id, Branch>) {
    forall id | Live(bs, id) :: bs[id].state != Destroying
  }

  lemma StillNoDestroying(w: World, w': World, a: Action, scope: Scope)
    requires NoDestroying(w.branches) && Calmer(w, w') && Kept(w, w', scope)
    requires (forall i | i in scope.branches :: Aimed(w, a, i)) && Outcome(w, w', a, true)
    ensures NoDestroying(w'.branches)
  {
    hide Kept, VolumeOutcome;
    forall id | Live(w'.branches, id)
      ensures w'.branches[id].state != Destroying
    {
      assert Live(w.branches, id);
      if !Aimed(w, a, id) {
        NotAimed(w, w', a, id, scope);
      }
    }
  }

  /** What a pass has done and kept so far. */
  ghost predicate Passed(w0: World, w: World, trace: seq<World>, plan: seq<Action>, i: nat, taken: seq<Action>, now: int, cutoff: int, reliable: bool)
    requires i <= |plan|
  {
    && var scope := Scope(Targets(w0, now, cutoff), {});
    && Course(w0, w, Elements(plan[..i]), now, cutoff, reliable)
    && (reliable && NoDestroying(w0.branches) ==> NoDestroying(w.branches))
    && Safe(w0, trace, scope) && trace != [] && trace[|trace| - 1] == w
    && Calmer(w0, w) && ViewsKept(w0, w, {}) && Kept(w0, w, scope)
    && (reliable && Tight(w0) ==> Tight(w))
    && (reliable ==> Progress(w0, w, plan, i, now, cutoff))
    && Report(w0, w, plan[..i], taken, now, cutoff, reliable)
  }

  /** Every reported action was planned and has achieved what it is for; when
      removals succeed, every planned action is reported, but for layers. */
  ghost predicate Report(w0: World, w: World, behind: seq<Action>, taken: seq<Action>, now: int, cutoff: int, reliable: bool) {
    && (forall a | a in taken :: Due(w0, a, now, cutoff) && Achieved(w, a))
    && (reliable ==> forall a | a in behind && !a.GCLayer? :: a in taken)
  }

  function Elements(s: seq<Action>): set<Action> {
    set a | a in s
  }

  lemma PassBegins(w0: World, plan: seq<Action>, now: int, cutoff: int, reliable: bool)
    requires Inv(w0)
    ensures Passed(w0, w0, [w0], plan, 0, [], now, cutoff, reliable)
  {
    hide Inv, Kept, Safe, Tight, Drift, Due, Calmer, Targets, NoDestroying, FaceKept;
    var scope := Scope(Targets(w0, now, cutoff), {});
    JustBegun(w0, scope);
    CalmerRefl(w0);
    KeptRefl(w0, scope);
    assert ViewsKept(w0, w0, {}) by { hide View, Ground; SameFaces(w0); }
    CourseStart(w0, now, cutoff, reliable);
    assert Elements(plan[..0]) == {};
  }

  lemma SameFaces(w: World)
    ensures ViewsKept(w, w, {})
  {
  }

  /** One action further. */
  lemma PassGoesOn(w0: World, w: World, w': World, trace: seq<World>, hist: seq<World>, inner: Scope, plan: seq<Action>, i: nat,
                   taken: seq<Action>, applied: bool, now: int, cutoff: int, reliable: bool)
    requires Inv(w0) && i < |plan| && Passed(w0, w, trace, plan, i, taken, now, cutoff, reliable)
    requires ReapsFirst(plan) && forall a :: a in plan <==> Due(w0, a, now, cutoff)
    requires Safe(w, hist, inner) && hist != [] && hist[|hist| - 1] == w' && Kept(w, w', inner) && inner.sources == {}
    requires forall id | id in inner.branches :: Aimed(w, plan[i], id)
    requires Calmer(w, w') && ViewsKept(w, w', {}) && Outcome(w, w', plan[i], reliable) && Reported(w, w', plan[i], applied, reliable)
    requires reliable && Tight(w) ==> Tight(w')
    requires Sharp(w, plan[i], cutoff) ==> Drift(w', now, cutoff) <= Drift(w, now, cutoff)
    requires reliable && Due(w, plan[i], now, cutoff) ==>
      Drift(w', now, cutoff) < Drift(w, now, cutoff) || (w' == w && plan[i].GCLayer? && HasChild(w.layers, plan[i].vol))
    ensures Passed(w0, w', trace + hist, plan, i + 1, if applied then taken + [plan[i]] else taken, now, cutoff, reliable)
  {
    hide Inv, Kept, Safe, Tight, ViewsKept, Drift, Due, Calmer, Targets, Sharp, Aimed, Outcome, Course, NoDestroying, ExpiredIds, Reported, Report;
    var scope, done := Scope(Targets(w0, now, cutoff), {}), Elements(plan[..i]);
    assert plan[i] in plan;
    StillSharp(w0, w, plan[i], now, cutoff);
    if !plan[i].Reap? {
      ReapsBehind(w0, plan, i, now, cutoff);
    }
    CourseStep(w0, w, w', plan[i], done, inner, now, cutoff, reliable);
    if reliable && NoDestroying(w.branches) {
      StillNoDestroying(w, w', plan[i], inner);
    }
    assert plan[..i + 1] == plan[..i] + [plan[i]];
    assert Elements(plan[..i + 1]) == done + {plan[i]};
    SafeConcat(w0, trace, scope, w, hist, inner);
    KeptWiden(w, w', inner, scope);
    KeptTrans(w0, w, w', scope);
    CalmerTrans(w0, w, w');
    ViewsTrans(w0, w, w');
    ReportOn(w0, w, w', plan[..i], plan[i], taken, applied, now, cutoff, reliable);
  }

  lemma ReportOn(w0: World, w: World, w': World, behind: seq<Action>, a: Action, taken: seq<Action>, applied: bool, now: int, cutoff: int, reliable: bool)
    requires Calmer(w0, w) && Calmer(w, w') && Course(w0, w, Elements(behind), now, cutoff, reliable) && Due(w0, a, now, cutoff)
    requires Report(w0, w, behind, taken, now, cutoff, reliable) && Reported(w, w', a, applied, reliable)
    ensures Report(w0, w', behind + [a], if applied then taken + [a] else taken, now, cutoff, reliable)
  {
    hide Due, Course, Calmer, Achieved, Applicable;
    forall b | b in taken
      ensures Achieved(w', b)
    {
      StillAchieved(w, w', b);
    }
    if reliable && a !in behind && !a.GCLayer? {
      PlannedApplies(w0, w, a, Elements(behind), now, cutoff, reliable);
    }
  }

  lemma StillAchieved(w: World, w': World, a: Action)
    requires Calmer(w, w') && Achieved(w, a)
    ensures Achieved(w', a)
  {
    assert forall id: Id | Live(w'.branches, id) :: Live(w.branches, id);
    if a.GCLayer? {
      forall x | x in w'.layers
        ensures w'.layers[x].vol != a.vol
      {
        assert x in w.layers;
      }
    }
  }

  /** Nothing is claimed or owned that was not before. */
  lemma UnclaimedStays(w0: World, w: World, c: Id)
    requires Calmer(w0, w) && Claimed(w.branches, c)
    ensures Claimed(w0.branches, c)
  {
    var id :| Live(w.branches, id) && w.branches[id].container == Some(c);
    assert Live(w0.branches, id) && w0.branches[id].container == Some(c);
  }

  lemma UnownedStays(w0: World, w: World, v: Volume)
    requires Calmer(w0, w) && Owned(w, v)
    ensures Owned(w0, v)
  {
    if id :| Live(w.branches, id) && (w.branches[id].rw == v || w.branches[id].srcVol == v) {
      assert Live(w0.branches, id);
    } else if x :| x in w.layers && w.layers[x].vol == v {
      assert x in w0.layers;
    }
  }

  /** What is planned and not yet dealt with passes the re-check. */
  lemma PlannedApplies(w0: World, w: World, a: Action, done: set<Action>, now: int, cutoff: int, reliable: bool)
    requires Calmer(w0, w) && Course(w0, w, done, now, cutoff, reliable) && Due(w0, a, now, cutoff) && a !in done && !a.GCLayer?
    ensures Applicable(w, a)
  {
    hide Settled;
    match a {
      case Reap(name) =>
        var id :| id in ExpiredIds(w0.branches, now) && w0.branches[id].name == name;
        assert Aimed(w, a, id);
      case FailStuck(name) =>
        var id :| id in StuckIds(w0.branches, cutoff) && w0.branches[id].name == name;
        assert Aimed(w, a, id);
      case RemoveOrphanContainer(c) =>
        if Claimed(w.branches, c) {
          UnclaimedStays(w0, w, c);
        }
      case GCVolume(v) =>
        if Owned(w, v) {
          UnownedStays(w0, w, v);
        }
    }
  }

  /** One pass: plan, then re-check and apply every action in turn. */
  method ApplyReconcile(e: Engine, now: int, timeout: nat) returns (taken: seq<Action>, ghost trace: seq<World>)
    requires Inv(e.W())
    modifies e.reg`branches, e.reg`journal, e.reg`layers, e.drv`vols, e.drv`done, e.drv`conts, e
    ensures Inv(e.W()) && Calmer(old(e.W()), e.W()) && ViewsKept(old(e.W()), e.W(), {})
    ensures Kept(old(e.W()), e.W(), Scope(old(Targets(e.W(), now, now - timeout)), {}))
    ensures forall id | id in StuckIds(old(e.reg.branches), now - timeout) :: Settled(old(e.W()), e.W(), id, now, e.drv.reliable)
    ensures forall a | a in taken :: old(Due(e.W(), a, now, now - timeout)) && Achieved(e.W(), a)
    ensures e.drv.reliable ==> forall a: Action | !a.GCLayer? && old(Due(e.W(), a, now, now - timeout)) :: a in taken
    ensures e.drv.reliable && old(NoDestroying(e.reg.branches)) ==> NoDestroying(e.reg.branches)
    ensures Safe(old(e.W()), trace, Scope(old(Targets(e.W(), now, now - timeout)), {})) && trace != [] && trace[|trace| - 1] == e.W()
    ensures e.drv.reliable && old(Tight(e.W())) ==> Tight(e.W())
    ensures e.drv.reliable && !old(NoDrift(e.W(), now, now - timeout)) ==>
      Drift(e.W(), now, now - timeout) < Drift(old(e.W()), now, now - timeout)
  {
    hide Inv, Kept, Safe, Tight, ViewsKept, Drift, Due, Calmer, Targets, Sharp, Aimed, Outcome, Settled, NoDestroying, StuckIds, SpelledOut,
         Passed, Reported, Achieved, HasChild;
    ghost var w0, cutoff := e.W(), now - timeout;
    var plan := PlanReconcile(e, now, timeout);
    taken, trace := [], [w0];
    PassBegins(w0, plan, now, cutoff, e.drv.reliable);
    for i := 0 to |plan|
      invariant Inv(e.W()) && Passed(w0, e.W(), trace, plan, i, taken, now, cutoff, e.drv.reliable)
    {
      ghost var w := e.W();
      var applied := ApplyAction(e, plan[i], now, cutoff);
      PassGoesOn(w0, w, e.W(), trace, e.hist, e.scope, plan, i, taken, applied, now, cutoff, e.drv.reliable);
      if applied {
        taken := taken + [plan[i]];
      }
      trace := trace + e.hist;
    }
    PassEnds(w0, e.W(), trace, plan, taken, now, cutoff, e.drv.reliable);
  }

  lemma PassEnds(w0: World, w: World, trace: seq<World>, plan: seq<Action>, taken: seq<Action>, now: int, cutoff: int, reliable: bool)
    requires Inv(w0) && Passed(w0, w, trace, plan, |plan|, taken, now, cutoff, reliable)
    requires forall a :: a in plan <==> Due(w0, a, now, cutoff)
    ensures Calmer(w0, w) && ViewsKept(w0, w, {}) && Kept(w0, w, Scope(Targets(w0, now, cutoff), {}))
    ensures forall id | id in StuckIds(w0.branches, cutoff) :: Settled(w0, w, id, now, reliable)
    ensures forall a | a in taken :: Due(w0, a, now, cutoff) && Achieved(w, a)
    ensures reliable ==> forall a: Action | !a.GCLayer? && Due(w0, a, now, cutoff) :: a in taken
    ensures reliable && NoDestroying(w0.branches) ==> NoDestroying(w.branches)
    ensures Safe(w0, trace, Scope(Targets(w0, now, cutoff), {})) && trace != [] && trace[|trace| - 1] == w
    ensures reliable && Tight(w0) ==> Tight(w)
    ensures reliable && !NoDrift(w0, now, cutoff) ==> Drift(w, now, cutoff) < Drift(w0, now, cutoff)
  {
    hide Inv, Kept, Safe, Tight, ViewsKept, Drift, Due, Calmer, Targets, Course, Settled, NoDestroying, StuckIds, Achieved;
    assert plan[..|plan|] == plan;
    AllSettled(w0, w, Elements(plan), plan, now, cutoff, reliable);
    if reliable && !NoDrift(w0, now, cutoff) {
      PassMoves(w0, w, plan, now, cutoff);
    }
  }

  lemma JustBegun(w: World, scope: Scope)
    requires Inv(w)
    ensures Safe(w, [w], scope)
  {
    hide Inv, Kept;
    KeptRefl(w, scope);
  }

  lemma ReapsBehind(w0: World, plan: seq<Action>, i: nat, now: int, cutoff: int)
    requires i < |plan| && ReapsFirst(plan) && !plan[i].Reap? && forall a :: a in plan <==> Due(w0, a, now, cutoff)
    ensures forall j | j in ExpiredIds(w0.branches, now) :: Reap(w0.branches[j].name) in plan[..i]
  {
    forall j | j in ExpiredIds(w0.branches, now)
      ensures Reap(w0.branches[j].name) in plan[..i]
    {
      var a := Reap(w0.branches[j].name);
      assert Due(w0, a, now, cutoff);
      var k :| 0 <= k < |plan| && plan[k] == a;
    }
  }

  lemma AllSettled(w0: World, w: World, done: set<Action>, plan: seq<Action>, now: int, cutoff: int, reliable: bool)
    requires Course(w0, w, done, now, cutoff, reliable) && done == (set a | a in plan)
    requires forall a :: a in plan <==> Due(w0, a, now, cutoff)
    ensures forall id | id in StuckIds(w0.branches, cutoff) :: Settled(w0, w, id, now, reliable)
  {
    hide Settled, Waiting;
    forall id | id in StuckIds(w0.branches, cutoff)
      ensures Settled(w0, w, id, now, reliable)
    {
      assert Due(w0, FailStuck(w0.branches[id].name), now, cutoff);
    }
  }

  /** A non-empty plan cannot leave everything as it is: among unreferenced
      layers there is one that no other layer is chained onto. */
  lemma PassMoves(w0: World, w: World, plan: seq<Action>, now: int, cutoff: int)
    requires Inv(w0) && Progress(w0, w, plan, |plan|, now, cutoff)
    requires forall a :: a in plan <==> Due(w0, a, now, cutoff)
    requires !NoDrift(w0, now, cutoff)
    ensures Drift(w, now, cutoff) < Drift(w0, now, cutoff)
  {
    hide Inv, Drift, Referenced;
    var a :| Due(w0, a, now, cutoff);
    assert a in plan;
    if w == w0 && a.GCLayer? {
      var x :| x in w0.layers && w0.layers[x].vol == a.vol && !Referenced(w0.layers, w0.branches, x);
      var z := LeafLayer(w0, x);
      assert Due(w0, GCLayer(w0.layers[z].vol), now, cutoff);
      assert GCLayer(w0.layers[z].vol) in plan;
      VolumeLayer(w0, z);
    }
  }

  lemma LeafLayer(w: World, x: Id) returns (z: Id)
    requires Inv(w) && x in w.layers && !Referenced(w.layers, w.branches, x)
    ensures z in w.layers && !Referenced(w.layers, w.branches, z)
    ensures forall y | y in w.layers :: w.layers[y].parent != Some(z)
    decreases |w.layers.Keys| - |Chain(w.layers, Some(x))|
  {
    hide Inv, Referenced, HasChain, IsChain, Chain;
    LayerChains(w);
    if y :| y in w.layers && w.layers[y].parent == Some(x) {
      ChainUnfold(w.layers, y);
      ChainBounded(w.layers, Some(y));
      ChildUnreferenced(w, x, y);
      z := LeafLayer(w, y);
    } else {
      z := x;
    }
  }

  lemma LayerChains(w: World)
    requires Inv(w)
    ensures forall x | x in w.layers :: HasChain(w.layers, Some(x))
  {
    hide BranchesOk, SourcesOk, PinsOk, VolumesOk, ContainersOk, HasChain;
  }

  lemma ChildUnreferenced(w: World, x: Id, y: Id)
    requires Inv(w) && y in w.layers && w.layers[y].parent == Some(x) && !Referenced(w.layers, w.branches, x)
    ensures !Referenced(w.layers, w.branches, y)
  {
    hide Inv, Chain;
    if id :| Live(w.branches, id) && y in Base(w.layers, w.branches[id]) {
      AllChains(w);
      ParentInChain(w.layers, w.branches[id].base, y);
    }
  }

  /** A chain without repetitions is no longer than the table. */
  lemma ChainBounded(ls: map<Id, Layer>, at: Option<Id>)
    requires HasChain(ls, at)
    ensures |Chain(ls, at)| <= |ls.Keys|
  {
    var c := Chain(ls, at);
    forall i, j | 0 <= i < j < |c|
      ensures c[i] != c[j]
    {
      ChainNoRepeat(ls, at, c, i, j);
    }
    DistinctSize(c);
    SubsetSize(Elems(c), ls.Keys);
  }

  lemma {:induction false} DistinctSize(c: seq<Id>)
    requires Distinct(c)
    ensures |Elems(c)| == |c|
  {
    if c != [] {
      DistinctSize(c[1..]);
      assert Elems(c) == {c[0]} + Elems(c[1..]);
    }
  }
}
