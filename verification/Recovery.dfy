/** Convergence over many passes, and what it makes of a crash. */
module Recovery {
  import opened Options
  import opened BranchStates
  import opened Names
  import opened Overlay
  import opened Worlds
  import opened Steps
  import opened Engine
  import opened Leftovers
  import opened Removal
  import opened Branching
  import opened Reconcile
  import S = Sources

  /** What no pass touches: a destroy that stopped half way, which nothing
      retries, and a branch that may still be at work. */
  ghost predicate Unfinished(w: World, id: Id, cutoff: int) {
    Live(w.branches, id) && (w.branches[id].state == Destroying || (Transient(w.branches[id].state) && w.branches[id].updated > cutoff))
  }

  ghost predicate AllFinished(w: World, cutoff: int) {
    forall id :: !Unfinished(w, id, cutoff)
  }

  lemma UnfinishedStays(w: World, w': World, id: Id, now: int, cutoff: int)
    requires Unfinished(w, id, cutoff) && Kept(w, w', Scope(Targets(w, now, cutoff), {}))
    ensures id in w'.branches && w'.branches[id] == w.branches[id]
  {
    hide SameChain, Uses;
    assert id !in Targets(w, now, cutoff);
  }

  /** Without drift, and with nothing unfinished, nothing is left over. */
  lemma NoDriftTight(w0: World, w: World, now: int, cutoff: int)
    requires Calmer(w0, w) && NoDrift(w, now, cutoff) && NoDestroying(w.branches)
    requires AllFinished(w0, cutoff)
    ensures Tight(w)
  {
    hide Referenced, Owned, Claimed;
    forall id | Live(w.branches, id)
      ensures w.branches[id].state == Ready || w.branches[id].state == Failed
    {
      assert !Unfinished(w0, id, cutoff);
      assert !Due(w, FailStuck(w.branches[id].name), now, cutoff);
      assert Transient(w.branches[id].state) ==> w.branches[id] == w0.branches[id];
      assert id !in StuckIds(w.branches, cutoff);
    }
    forall x | x in w.layers
      ensures Referenced(w.layers, w.branches, x)
    {
      assert !Due(w, GCLayer(w.layers[x].vol), now, cutoff);
    }
    forall v | v in w.vols
      ensures Owned(w, v)
    {
      assert !Due(w, GCVolume(v), now, cutoff);
    }
    forall c | c in w.conts
      ensures Claimed(w.branches, c)
    {
      assert !Due(w, RemoveOrphanContainer(c), now, cutoff);
    }
  }

  lemma UnfinishedLoose(w: World, id: Id, cutoff: int)
    requires Unfinished(w, id, cutoff)
    ensures !Tight(w)
  {
  }

  /** Repeated passes reach a state without drift; and nothing at all is left over
      if and only if nothing was unfinished. */
  method ReconcileUntilDone(e: Engine, now: int, timeout: nat)
    requires Inv(e.W()) && e.drv.reliable
    modifies e.reg`branches, e.reg`journal, e.reg`layers, e.drv`vols, e.drv`done, e.drv`conts, e
    ensures Inv(e.W()) && ViewsKept(old(e.W()), e.W(), {}) && Calmer(old(e.W()), e.W())
    ensures NoDrift(e.W(), now, now - timeout)
    ensures Tight(e.W()) <==> AllFinished(old(e.W()), now - timeout)
    ensures forall id | id in e.reg.branches && (e.reg.branches[id].state == Ready || e.reg.branches[id].state == Failed) ::
      e.reg.branches[id].expires.Some? ==> e.reg.branches[id].expires.value >= now
    ensures forall id | id in e.reg.branches && (e.reg.branches[id].state == Creating || e.reg.branches[id].state == Resetting) ::
      e.reg.branches[id].updated > now - timeout
  {
    hide Inv, Kept, Safe, Tight, ViewsKept, Drift, Due, Calmer, Targets, NoDestroying, Settled, StuckIds, ExpiredIds, SpelledOut;
    ghost var w0, cutoff := e.W(), now - timeout;
    CalmerRefl(w0);
    SameViews(e, w0);
    var plan := PlanReconcile(e, now, timeout);
    while plan != []
      invariant Inv(e.W()) && Calmer(w0, e.W()) && ViewsKept(w0, e.W(), {})
      invariant forall a :: a in plan <==> Due(e.W(), a, now, now - timeout)
      invariant NoDestroying(w0.branches) ==> NoDestroying(e.reg.branches)
      invariant forall id | Unfinished(w0, id, cutoff) :: Unfinished(e.W(), id, cutoff)
      decreases Drift(e.W(), now, now - timeout)
    {
      ghost var w := e.W();
      assert plan[0] in plan;
      var taken, trace := ApplyReconcile(e, now, timeout);
      CalmerTrans(w0, w, e.W());
      ViewsTrans(w0, w, e.W());
      forall id | Unfinished(w0, id, cutoff)
        ensures Unfinished(e.W(), id, cutoff)
      {
        UnfinishedStays(w, e.W(), id, now, cutoff);
      }
      plan := PlanReconcile(e, now, timeout);
    }
    forall a
      ensures !Due(e.W(), a, now, cutoff)
    {
      assert a !in plan;
    }
    Finished(w0, e.W(), now, cutoff);
    NothingDue(e.W(), now, cutoff);
  }

  /** Without drift no branch is past its expiry or past the timeout. */
  lemma NothingDue(w: World, now: int, cutoff: int)
    requires NoDrift(w, now, cutoff)
    ensures forall id | id in w.branches && (w.branches[id].state == Ready || w.branches[id].state == Failed) ::
      w.branches[id].expires.Some? ==> w.branches[id].expires.value >= now
    ensures forall id | id in w.branches && (w.branches[id].state == Creating || w.branches[id].state == Resetting) ::
      w.branches[id].updated > cutoff
  {
    forall id | id in w.branches
      ensures id !in ExpiredIds(w.branches, now) && id !in StuckIds(w.branches, cutoff)
    {
      assert !Due(w, Reap(w.branches[id].name), now, cutoff) && !Due(w, FailStuck(w.branches[id].name), now, cutoff);
    }
  }

  lemma Finished(w0: World, w: World, now: int, cutoff: int)
    requires Calmer(w0, w) && NoDrift(w, now, cutoff) && (NoDestroying(w0.branches) ==> NoDestroying(w.branches))
    requires forall id | Unfinished(w0, id, cutoff) :: Unfinished(w, id, cutoff)
    ensures Tight(w) <==> AllFinished(w0, cutoff)
  {
    hide Calmer, NoDrift, Tight;
    if id :| Unfinished(w0, id, cutoff) {
      UnfinishedLoose(w, id, cutoff);
    } else {
      assert NoDestroying(w0.branches) by {
        assert forall id | Live(w0.branches, id) :: !Unfinished(w0, id, cutoff);
      }
      NoDriftTight(w0, w, now, cutoff);
    }
  }

  // ------------------------------------------------------------------- crashes

  /** The exact condition for a crash to leave a state that satisfies the invariant:
      it did not fall between the removal of a ready source's volume and that of its
      rows. Nobody out of scope is disturbed in either case. */
  lemma CrashExact(origin: World, hist: seq<World>, scope: Scope, h: World)
    requires Safe(origin, hist, scope) && h in hist
    ensures Kept(origin, h, scope)
    ensures Inv(h) <==> forall s | s in scope.sources :: !Gap(h, s)
  {
    hide Kept, OneSide;
    if Inv(h) {
      forall s | s in scope.sources
        ensures !Gap(h, s)
      {
        ReadyVolumes(h);
      }
    }
  }

  lemma ReadyVolumes(w: World)
    requires Inv(w)
    ensures forall s | s in w.sources && w.sources[s].state == Seeded :: w.sources[s].vol in w.vols
  {
  }

  /** Passes only take away, so none of them closes such a gap. */
  lemma GapStays(w: World, w': World, s: Id)
    requires Gap(w, s) && Calmer(w, w')
    ensures s in w'.sources && w'.sources[s].vol !in w'.vols && !Inv(w')
  {
    hide Inv;
    if Inv(w') {
      ReadyVolumes(w');
    }
  }

  /** An operation was interrupted after any of its steps. If a ready source is found
      without its volume, its removal is asked for again; then the collector runs.
      Every branch out of the operation's scope that is still ready shows what it
      showed when the operation began; and nothing is left over if and only if the
      crash did not leave a destroy half way, nor a row younger than the timeout. */
  method Recover(e: Engine, ghost origin: World, ghost hist: seq<World>, ghost scope: Scope, now: int, timeout: nat)
    requires Inv(origin) && Safe(origin, hist, scope) && e.W() in hist && e.drv.reliable
    modifies e.reg, e.drv, e
    ensures Inv(e.W()) && ViewsKept(origin, e.W(), scope.branches)
    ensures NoDrift(e.W(), now, now - timeout)
    ensures Tight(e.W()) <==> AllFinished(old(e.W()), now - timeout)
  {
    hide Inv, Kept, Tight, ViewsKept, Calmer, NoDrift, AllFinished, Gap, Safe;
    ghost var h := e.W();
    CrashExact(origin, hist, scope, h);
    if s: Id :| s in e.reg.sources && e.reg.sources[s].state == Seeded && e.reg.sources[s].vol !in e.drv.vols {
      TheGap(h, s, scope);
      var ok := S.RemoveSourceAgain(e, s);
      GapClosed(origin, h, s, scope, now - timeout);
    } else {
      NoGap(h, scope);
      ScopeViews(origin, h, scope);
    }
    ghost var h1 := e.W();
    ReconcileUntilDone(e, now, timeout);
    ViewsThrough(origin, h1, e.W(), scope.branches);
  }

  /** A ready source without its volume is the one whose removal was interrupted. */
  lemma TheGap(h: World, s: Id, scope: Scope)
    requires s in h.sources && h.sources[s].state == Seeded && h.sources[s].vol !in h.vols
    requires Inv(h) <==> forall t | t in scope.sources :: !Gap(h, t)
    ensures Gap(h, s) && s in scope.sources
  {
    hide Inv;
    assert !Inv(h) by {
      if Inv(h) {
        ReadyVolumes(h);
      }
    }
    var t :| t in scope.sources && Gap(h, t);
    var mended := h.(vols := h.vols[h.sources[t].vol := BLANK]);
    ReadyVolumes(mended);
    assert h.sources[s].vol == h.sources[t].vol;
    assert s == t;
  }

  lemma NoGap(h: World, scope: Scope)
    requires forall s | s in h.sources && h.sources[s].state == Seeded :: h.sources[s].vol in h.vols
    requires Inv(h) <==> forall t | t in scope.sources :: !Gap(h, t)
    ensures Inv(h)
  {
    hide Inv;
  }

  lemma GapClosed(origin: World, h: World, s: Id, scope: Scope, cutoff: int)
    requires Inv(origin) && Kept(origin, h, scope) && s in h.sources && Gap(h, s) && s in scope.sources
    ensures ViewsKept(origin, SourceDropped(h, s, true), scope.branches)
    ensures AllFinished(SourceDropped(h, s, true), cutoff) <==> AllFinished(h, cutoff)
  {
    hide Inv, Kept, ViewsKept, Gap;
    var w := SourceDropped(h, s, true);
    S.GapCloses(h, s);
    KeptWiden(h, w, Scope({}, {s}), Scope(scope.branches, scope.sources));
    KeptTrans(origin, h, w, scope);
    ScopeViews(origin, w, scope);
    OtherRows(h, s);
    assert forall id: Id :: Unfinished(w, id, cutoff) <==> Unfinished(h, id, cutoff);
  }

  lemma OtherRows(h: World, s: Id)
    requires Gap(h, s)
    ensures forall id: Id | Live(h.branches, id) :: id in SourceDropped(h, s, true).branches
  {
    hide Inv;
  }

  lemma ViewsThrough(w0: World, w1: World, w2: World, subjects: set<Id>)
    requires ViewsKept(w0, w1, subjects) && ViewsKept(w1, w2, {}) && Calmer(w1, w2)
    ensures ViewsKept(w0, w2, subjects)
  {
    hide View, Ground;
    assert forall id: Id | IsReady(w2.branches, id) :: IsReady(w1.branches, id);
  }

  /** For every state there is a time from which all its transient rows are old. */
  lemma {:induction false} EnoughTime(bs: map<Id, Branch>, ids: set<Id>) returns (cutoff: int)
    requires ids <= bs.Keys
    ensures forall id | id in ids :: bs[id].updated < cutoff
    decreases |ids|
  {
    cutoff := 0;
    if ids != {} {
      var id :| id in ids;
      cutoff := EnoughTime(bs, ids - {id});
      if cutoff <= bs[id].updated {
        cutoff := bs[id].updated + 1;
      }
    }
  }

  /** So a crash that was not in the middle of a destroy is always cleaned up, from
      some time on. */
  lemma AllOldEventually(w: World) returns (cutoff: int)
    requires NoDestroying(w.branches)
    ensures AllFinished(w, cutoff)
  {
    cutoff := EnoughTime(w.branches, w.branches.Keys);
  }

  // -------------------------------------------------------- a stranded parent

  /** A parent left resetting by a crash in the middle of a freeze: if its stuck
      children are destroyed first, nobody depends on its data any more and the next
      pass deletes the data. (`ApplyReconcile` gives the exact condition.) */
  method StrandedParent(e: Engine, child: string, parent: Id, now: int, timeout: nat)
    requires Inv(e.W()) && e.drv.reliable && parent in StuckIds(e.reg.branches, now - timeout) && e.reg.branches[parent].name != child
    requires forall j | DependsOn(e.reg.branches, j, parent) :: e.reg.branches[j].name == child && e.reg.branches[j].state != Destroying
    modifies e.reg`branches, e.reg`journal, e.reg`layers, e.drv`vols, e.drv`done, e.drv`conts, e
    ensures parent in e.reg.branches && e.reg.branches[parent].state == Failed
    ensures old(e.reg.branches[parent].rw) !in e.drv.vols
  {
    hide Inv, Kept, Safe, ViewsKept, Tight, Drift, Due, Calmer;
    ghost var w := e.W();
    var ok, id := DestroyBranch(e, child);
    ghost var w1 := e.W();
    assert w1.branches[parent] == w.branches[parent];
    forall j
      ensures !DependsOn(w1.branches, j, parent)
    {
      if DependsOn(w1.branches, j, parent) {
        assert DependsOn(w.branches, j, parent);
        UniqueName(w, id, child);
      }
    }
    var taken, trace := ApplyReconcile(e, now, timeout);
    assert Settled(w1, e.W(), parent, now, true);
  }

  /** A reap looks for an expiry, not at its date: a branch that was created anew
      under the planned name, with an expiry that has not come, is destroyed. */
  method ReapedTooEarly(e: Engine, id: Id, now: int, cutoff: int)
    requires Inv(e.W()) && e.drv.reliable && IsReady(e.reg.branches, id)
    requires e.reg.branches[id].expires.Some? && e.reg.branches[id].expires.value > now
    modifies e.reg`branches, e.reg`journal, e.reg`layers, e.drv`vols, e.drv`done, e.drv`conts, e
    ensures !old(Due(e.W(), Reap(e.reg.branches[id].name), now, cutoff))
    ensures id in e.reg.branches && e.reg.branches[id].state == Destroyed
  {
    hide Inv, Kept, Safe, ViewsKept, Tight, Drift, Sharp;
    ghost var w := e.W();
    UniqueName(w, Some(id), w.branches[id].name);
    assert Live(w.branches, id);
    forall j | j in ExpiredIds(w.branches, now)
      ensures w.branches[j].name != w.branches[id].name
    {
      assert Live(w.branches, j);
    }
    assert Aimed(w, Reap(w.branches[id].name), id);
    var applied := ApplyAction(e, Reap(e.reg.branches[id].name), now, cutoff);
  }
}
