/** The engine's primitive steps: each registry write and each driver call, with
    the guard under which it is safe. The sagas are built from these. */
module Engine {
  import opened Options
  import opened BranchStates
  import opened Names
  import opened Overlay
  import opened Worlds
  import opened Steps
  import R = Registry
  import D = Driver

  /** One statement or one driver call: the tables changed, or what the driver
      holds, never both. */
  ghost predicate OneSide(w: World, w': World) {
    w' == w.(sources := w'.sources, branches := w'.branches, layers := w'.layers)
    || w' == w.(vols := w'.vols, conts := w'.conts, nextCid := w'.nextCid)
  }

  /** What a row says about a branch from its birth on. */
  ghost predicate SameIdentity(a: Branch, b: Branch) {
    b.name == a.name && b.source == a.source && b.srcVol == a.srcVol && b.expires == a.expires && b.parentName == a.parentName
  }

  /** Rows keep their identity and move along legal edges; they go only with their
      source. */
  ghost predicate Evolves(w: World, w': World) {
    forall id | id in w.branches ::
      if id in w'.branches then SameIdentity(w.branches[id], w'.branches[id])
                                && (w'.branches[id].state == w.branches[id].state || Legal(w.branches[id].state, w'.branches[id].state))
      else w.branches[id].source !in w'.sources
  }

  /** The one state between two steps in which the invariant does not hold: the
      volume of a ready source that is being removed is gone and its row is not.
      With the volume back, or with the row gone too, it would. */
  ghost predicate Gap(h: World, s: Id) {
    && s in h.sources && h.sources[s].state == Seeded && h.sources[s].vol !in h.vols
    && Removable(h, s) && (forall x | x in h.layers && h.layers[x].source == s :: h.layers[x].vol !in h.vols)
    && Inv(h.(vols := h.vols[h.sources[s].vol := BLANK]))
  }

  ghost predicate Sound(h: World, scope: Scope) {
    Inv(h) || exists s :: s in scope.sources && Gap(h, s)
  }

  /** Every state the operation passed through, one step after the other: each was
      sound and had disturbed nothing outside the operation's scope. */
  ghost predicate Safe(origin: World, hist: seq<World>, scope: Scope) {
    && hist != [] && hist[0] == origin
    && (forall i | 0 < i < |hist| :: OneSide(hist[i - 1], hist[i]) && Evolves(hist[i - 1], hist[i]))
    && (scope.sources == {} ==> forall i | 0 < i < |hist| :: hist[i - 1].branches.Keys <= hist[i].branches.Keys)
    && (forall h | h in hist :: Sound(h, scope) && Kept(origin, h, scope))
  }

  /** At most one state was noted, the present one. */
  ghost predicate AtMostOne(before: seq<World>, after: seq<World>, w: World) {
    after == before || after == before + [w]
  }

  class Engine {
    const reg: R.Registry
    const drv: D.Driver
    /** Whether every fresh branch gets a password of its own. */
    const rotate: bool
    /** The cap on live branches; 0 means none. */
    const maxBranches: nat

    /** The state in which the running operation started, the rows it may
        change, and every state it has passed through so far. A crash of the
        daemon leaves one of these states behind. */
    ghost var origin: World
    ghost var scope: Scope
    ghost var hist: seq<World>

    constructor (reg: R.Registry, drv: D.Driver, rotate: bool, maxBranches: nat)
      ensures this.reg == reg && this.drv == drv && this.rotate == rotate && this.maxBranches == maxBranches
    {
      this.reg, this.drv, this.rotate, this.maxBranches := reg, drv, rotate, maxBranches;
      new;
      origin, scope, hist := W(), Scope({}, {}), [];
    }

    ghost function W(): World
      reads this, reg, drv
    {
      World(reg.sources, reg.branches, reg.layers, drv.vols, drv.conts, drv.nextCid, rotate, drv.answers)
    }

    ghost predicate Valid()
      reads this, reg, drv
    {
      && Inv(W())
      && Kept(origin, W(), scope)
      && Safe(origin, hist, scope)
      && hist != [] && hist[|hist| - 1] == W()
    }

    // ------------------------------------------------------------ bookkeeping

    /** Starts an operation. */
    ghost method Begin(branches: set<Id>, sources: set<Id>)
      requires Inv(W())
      modifies this`origin, this`scope, this`hist
      ensures Valid() && origin == W() && scope == Scope(branches, sources)
    {
      hide Inv, Kept;
      origin, scope, hist := W(), Scope(branches, sources), [W()];
      KeptRefl(origin, scope);
    }

    /** A row the operation itself created is its own to change. */
    ghost method Adopt(id: Id)
      requires Valid()
      modifies this`scope
      ensures Valid() && scope == Scope(old(scope).branches + {id}, old(scope).sources)
    {
      hide Inv, Kept, OneSide, Evolves, Gap;
      var wider := Scope(scope.branches + {id}, scope.sources);
      SafeWiden(origin, hist, scope, wider);
      KeptWiden(origin, W(), scope, wider);
      scope := wider;
    }

    ghost method AdoptSource(s: Id)
      requires Valid()
      modifies this`scope
      ensures Valid() && scope == Scope(old(scope).branches, old(scope).sources + {s})
    {
      hide Inv, Kept, OneSide, Evolves, Gap;
      var wider := Scope(scope.branches, scope.sources + {s});
      SafeWiden(origin, hist, scope, wider);
      KeptWiden(origin, W(), scope, wider);
      scope := wider;
    }

    /** Notes the state after one step that is known to be safe. */
    ghost method Note(before: World)
      requires Safe(origin, hist, scope) && hist != [] && hist[|hist| - 1] == before && Kept(origin, before, scope)
      requires Inv(W()) && Kept(before, W(), scope) && OneSide(before, W()) && Evolves(before, W())
      requires before.branches.Keys <= W().branches.Keys
      modifies this`hist
      ensures hist == old(hist) + [W()]
      ensures Valid()
    {
      hide Inv, Kept, Safe, OneSide, Evolves;
      KeptTrans(origin, before, W(), scope);
      SafeNext(origin, hist, scope, W());
      hist := hist + [W()];
    }

    // ---------------------------------------------------------- registry steps

    /** The chain of a branch whose links are all there. */
    method LayerChain(id: Id) returns (chain: seq<Id>, vols: seq<Volume>)
      requires id in reg.branches && HasChain(reg.layers, reg.branches[id].base)
      ensures chain == Base(reg.layers, reg.branches[id]) && vols == VolsOf(reg.layers, chain)
    {
      R.ChainEnds(reg.layers, reg.branches[id].base, Chain(reg.layers, reg.branches[id].base));
      var ok;
      ok, chain, vols := reg.LayerChain(id);
    }

    method Transition(id: Id, to: BranchState) returns (ok: bool)
      requires Valid() && Live(reg.branches, id) && id in scope.branches
      requires to == Ready && Legal(reg.branches[id].state, to) ==>
        reg.branches[id].rw in drv.vols && Running(reg.layers, drv.conts, reg.branches[id]) && Served(W(), reg.branches[id])
      modifies reg`branches, reg`journal, this`hist
      ensures old(hist) <= hist
      ensures Valid() && ok == Legal(old(reg.branches[id].state), to)
      ensures reg.branches == if ok then old(reg.branches)[id := old(reg.branches[id]).(state := to, updated := reg.clock)]
                              else old(reg.branches)
    {
      hide R.JournalFits, Inv, Kept, Safe;
      ghost var w := W();
      ok := reg.TransitionBranch(id, to);
      if ok {
        LiveContainer(w, id);
        RowStep(w, id, reg.branches[id], scope) by {
          assert Running(reg.layers, drv.conts, w.branches[id]) ==> Running(reg.layers, drv.conts, reg.branches[id]);
        }
        assert W() == w.(branches := w.branches[id := reg.branches[id]]);
        EvolvesPut(w, id, reg.branches[id]);
        hide Evolves;
        Note(w);
      }
    }

    /** Inserts a branch row; the name rule must hold if the row is accepted. */
    method InsertBranch(b: Branch) returns (id: Option<Id>)
      requires Valid()
      requires b.state == Creating && b.container.None? && b.rw == RW(b.name, 1) && b.updated == reg.clock
      requires NameFree(reg.layers, b.name) && BornOn(reg.sources, reg.branches, b)
      modifies reg`branches, reg`journal, this`hist, this`scope
      ensures old(hist) <= hist
      ensures Valid()
      ensures id.Some? ==> id.value !in old(reg.branches) && reg.branches == old(reg.branches)[id.value := b]
      ensures id.Some? ==> NameUnused(old(reg.branches), id.value, b.name)
      ensures reg.freshIds && (forall j | Live(old(reg.branches), j) :: old(reg.branches)[j].name != b.name) ==> id.Some?
      ensures id.Some? ==> scope == Scope(old(scope).branches + {id.value}, old(scope).sources)
      ensures id.None? ==> W() == old(W()) && scope == old(scope)
    {
      hide R.JournalFits, Inv, Kept, Safe, BornOn, NameFree;
      ghost var w := W();
      id := reg.CreateBranch(b);
      if id.Some? {
        NoteInserted(w, id.value, b);
      }
    }

    ghost method NoteInserted(w: World, id: Id, b: Branch)
      requires Inv(w) && Kept(origin, w, scope) && Safe(origin, hist, scope) && hist != [] && hist[|hist| - 1] == w
      requires id !in w.branches && W() == w.(branches := w.branches[id := b])
      requires b.state == Creating && b.container.None? && b.rw == RW(b.name, 1) && NameUnused(w.branches, id, b.name)
      requires NameFree(w.layers, b.name) && BornOn(w.sources, w.branches, b)
      modifies this`hist, this`scope
      ensures old(hist) <= hist && Valid() && scope == Scope(old(scope).branches + {id}, old(scope).sources)
    {
      hide Inv, Kept, Safe, BornOn, NameFree, Evolves;
      InsertBranchStep(w, id, b, scope);
      EvolvesPut(w, id, b);
      Note(w);
      Adopt(id);
    }

    /** Records the container of a branch that is being provisioned. */
    method SetContainer(id: Id, c: Id)
      requires Valid() && Live(reg.branches, id) && id in scope.branches
      requires reg.branches[id].state != Ready
      requires c < drv.nextCid && Unclaimed(reg.branches, id, Some(c))
      modifies reg`branches, reg`journal, this`hist
      ensures old(hist) <= hist
      ensures Valid()
      ensures reg.branches == old(reg.branches)[id := old(reg.branches[id]).(container := Some(c), updated := reg.clock)]
    {
      hide R.JournalFits, Inv, Kept, Safe, Running;
      ghost var w := W();
      reg.SetBranchContainer(id, c);
      RowStep(w, id, reg.branches[id], scope);
      assert W() == w.(branches := w.branches[id := reg.branches[id]]);
      Note(w);
    }

    method Touch(id: Id)
      requires Valid() && Live(reg.branches, id) && id in scope.branches && reg.branches[id].state != Ready
      modifies reg`branches, reg`journal, this`hist
      ensures old(hist) <= hist
      ensures Valid()
      ensures reg.branches == old(reg.branches)[id := old(reg.branches[id]).(updated := reg.clock)]
    {
      hide R.JournalFits, Inv, Kept, Safe, Running;
      ghost var w := W();
      reg.TouchBranch(id);
      LiveContainer(w, id);
      RowStep(w, id, reg.branches[id], scope);
      assert W() == w.(branches := w.branches[id := reg.branches[id]]);
      Note(w);
    }

    /** Records the container once more and takes the edge to ready. */
    method MarkReady(id: Id, c: Id)
      requires Valid() && Live(reg.branches, id) && id in scope.branches && Transient(reg.branches[id].state)
      requires c < drv.nextCid && Unclaimed(reg.branches, id, Some(c))
      requires reg.branches[id].rw in drv.vols
      requires c in drv.conts && drv.conts[c] == Stack(reg.layers, reg.branches[id])
      requires Marked(reg.sources, reg.branches[id], drv.vols, rotate) && drv.answers(c)
      modifies reg`branches, reg`journal, this`hist
      ensures old(hist) <= hist
      ensures Valid()
      ensures reg.branches == old(reg.branches)[id := old(reg.branches[id]).(container := Some(c), state := Ready, updated := reg.clock)]
    {
      hide Inv, Kept, Safe, Chain;
      SetContainer(id, c);
      var ok := Transition(id, Ready);
    }

    method CommitFreeze(parent: Id, child: Id, rw: Volume, c: Id) returns (x: Option<Id>)
      requires Valid() && parent in scope.branches && child in scope.branches
      requires forall y: Id | y !in reg.layers :: ReadyToFreeze(W(), parent, child, y, rw, c)
      requires parent in reg.branches
      modifies reg`branches, reg`journal, reg`layers, this`hist
      ensures old(hist) <= hist
      ensures Valid()
      ensures x.Some? ==>
        && child in old(reg.branches) && x.value !in old(reg.layers)
        && var p := old(reg.branches)[parent];
        && reg.layers == old(reg.layers)[x.value := Layer(p.source, p.rw, p.base)]
        && reg.branches == FrozenRows(old(reg.branches), parent, child, x.value, rw, c, reg.clock)
      ensures x.None? ==> W() == old(W())
      ensures reg.freshIds ==> x.Some?
    {
      hide R.JournalFits, Inv, Kept, Safe;
      ghost var w := W();
      ghost var y := R.SomeFreshId(reg.layers.Keys);
      assert ReadyToFreeze(w, parent, child, y, rw, c);
      hide ReadyToFreeze;
      x := reg.CommitFreeze(parent, child, reg.branches[parent].rw, rw, c);
      if x.Some? {
        CommitStep(w, parent, child, x.value, rw, c, reg.clock, scope);
        Note(w);
      }
    }

    method DeleteLayer(x: Id) returns (ok: bool)
      requires Valid() && x in reg.layers
      requires forall id | Live(reg.branches, id) :: x !in Base(reg.layers, reg.branches[id])
      modifies reg`layers, this`hist
      ensures old(hist) <= hist
      ensures Valid()
      ensures ok <==> forall y | y in old(reg.layers) :: old(reg.layers)[y].parent != Some(x)
      ensures reg.layers == if ok then old(reg.layers) - {x} else old(reg.layers)
    {
      hide Inv, Kept, Safe, Chain;
      ghost var w := W();
      ok := reg.DeleteLayer(x);
      if ok {
        UnreferencedPrune(w, x);
        PruneStep(w, w.layers - {x}, scope);
        Note(w);
      }
    }

    // ------------------------------------------------------------ driver steps

    method CreateVolume(v: Volume) returns (ok: bool)
      requires Valid()
      modifies drv`vols, drv`done, this`hist
      ensures old(hist) <= hist
      ensures Valid() && (drv.perfect ==> ok)
      ensures drv.vols == if ok && v !in old(drv.vols) then old(drv.vols)[v := BLANK] else old(drv.vols)
    {
      hide Inv, Kept, Safe;
      ghost var w := W();
      ok := drv.CreateVolume(v);
      if ok && v !in w.vols {
        AddVolumeStep(w, v, scope);
        assert W() == w.(vols := w.vols[v := BLANK]);
        Note(w);
      }
    }

    method RemoveVolume(v: Volume) returns (ok: bool)
      requires Valid() && Unneeded(W(), v) && Private(W(), v, scope)
      modifies drv`vols, drv`done, this`hist
      ensures old(hist) <= hist && AtMostOne(old(hist), hist, W())
      ensures Valid() && (drv.reliable ==> ok)
      ensures drv.vols == if ok then old(drv.vols) - {v} else old(drv.vols)
    {
      hide Inv, Kept, Safe, Unneeded, Private;
      ghost var w := W();
      ok := drv.RemoveVolume(v);
      if ok {
        RemoveVolumeStep(w, v, scope);
        assert W() == w.(vols := w.vols - {v});
        Note(w);
      }
    }

    method Start(stack: seq<Volume>) returns (c: Option<Id>)
      requires Valid()
      modifies drv`conts, drv`nextCid, this`hist
      ensures old(hist) <= hist
      ensures Valid()
      ensures c.Some? ==>
        && c.value == old(drv.nextCid) && drv.nextCid == old(drv.nextCid) + 1
        && drv.conts == old(drv.conts)[c.value := stack]
        && c.value !in old(drv.conts)
        && forall id | Live(reg.branches, id) :: reg.branches[id].container != c
      ensures c.None? ==> W() == old(W()) && !drv.perfect
    {
      hide Inv, Kept, Safe;
      ghost var w := W();
      c := drv.StartBranch(stack);
      if c.Some? {
        NextContainerFresh(w);
        StartStep(w, stack, scope);
        assert W() == w.(conts := w.conts[w.nextCid := stack], nextCid := w.nextCid + 1);
        Note(w);
      }
    }

    method Stop(c: Id) returns (ok: bool)
      requires Valid()
      requires forall id | IsReady(reg.branches, id) :: reg.branches[id].container != Some(c)
      modifies drv`conts, this`hist
      ensures old(hist) <= hist && AtMostOne(old(hist), hist, W())
      ensures Valid() && (drv.reliable ==> ok)
      ensures ok ==> drv.conts == old(drv.conts) - {c}
      ensures drv.conts == old(drv.conts) || drv.conts == old(drv.conts) - {c}
    {
      hide Inv, Kept, Safe;
      ghost var w := W();
      ok := drv.StopRemove(c);
      if W() != w {
        StopStep(w, c, scope);
        assert W() == w.(conts := w.conts - {c});
        Note(w);
      }
    }

    /** SQL run inside a container: masking scripts and the password change. */
    method RunSql(c: Id, masking: bool) returns (ok: bool)
      requires Valid() && c in drv.conts && drv.conts[c] != [] && drv.conts[c][0] in drv.vols
      requires Private(W(), drv.conts[c][0], scope)
      modifies drv`vols, drv`done, this`hist
      ensures old(hist) <= hist
      ensures Valid()
      ensures drv.conts[c][0] in drv.vols && drv.vols == old(drv.vols)[drv.conts[c][0] := drv.vols[drv.conts[c][0]]]
      ensures drv.perfect ==> ok
      ensures drv.vols[drv.conts[c][0]].masked == (old(drv.vols[drv.conts[c][0]].masked) || (ok && masking))
      ensures drv.vols[drv.conts[c][0]].rotated == (old(drv.vols[drv.conts[c][0]].rotated) || (ok && !masking))
    {
      hide Inv, Kept, Safe, Private;
      ghost var w := W();
      ok := drv.RunSql(c, masking);
      ghost var v := drv.conts[c][0];
      WriteVolumeStep(w, v, drv.vols[v], scope);
      assert W() == w.(vols := w.vols[v := drv.vols[v]]);
      Note(w);
    }

    /** Fills a volume nobody else has. */
    method Seed(v: Volume, database: Content) returns (ok: bool)
      requires Valid() && v in drv.vols && Private(W(), v, scope)
      modifies drv`vols, drv`done, this`hist
      ensures old(hist) <= hist
      ensures Valid() && v in drv.vols && drv.vols == old(drv.vols)[v := drv.vols[v]]
      ensures (ok ==> drv.vols[v].files == database) && (drv.perfect ==> ok)
    {
      hide Inv, Kept, Safe, Private;
      ghost var w := W();
      ok := drv.Seed(v, database);
      WriteVolumeStep(w, v, drv.vols[v], scope);
      assert W() == w.(vols := w.vols[v := drv.vols[v]]);
      Note(w);
    }

    // ---------------------------------------------------------- source steps

    method CreateSource(row: Source) returns (s: Option<Id>)
      requires Valid() && row.state == Seeding && row.gen == 1 && row.vol == SourceVolume(row.name, 1)
      requires OwnNameOnly(reg.sources, reg.branches, row.name, row.vol)
      modifies reg`sources, this`hist, this`scope
      ensures old(hist) <= hist
      ensures Valid()
      ensures s.Some? ==> s.value !in old(reg.sources) && reg.sources == old(reg.sources)[s.value := row]
                          && SourceNameUnused(old(reg.sources), row.name)
                          && scope == Scope(old(scope).branches, old(scope).sources + {s.value})
      ensures s.None? ==> W() == old(W()) && scope == old(scope)
      ensures reg.freshIds && SourceNameUnused(old(reg.sources), row.name) ==> s.Some?
    {
      hide Inv, Kept, Safe, SourceVolume, OwnNameOnly;
      ghost var w := W();
      s := reg.CreateSource(row);
      if s.Some? {
        InsertSourceStep(w, s.value, row, scope);
        assert W() == w.(sources := w.sources[s.value := row]);
        Note(w);
        AdoptSource(s.value);
      }
    }

    method EndSeed(s: Id, to: SourceState)
      requires Valid() && s in reg.sources && reg.sources[s].state == Seeding && to != Seeding && s in scope.sources
      requires to == Seeded ==> reg.sources[s].vol in drv.vols
      modifies reg`sources, this`hist
      ensures old(hist) <= hist
      ensures Valid() && reg.sources == old(reg.sources)[s := old(reg.sources[s]).(state := to)]
    {
      hide Inv, Kept, Safe;
      ghost var w := W();
      reg.sources := reg.sources[s := reg.sources[s].(state := to)];
      SeedEndStep(w, s, to, scope);
      assert W() == w.(sources := w.sources[s := w.sources[s].(state := to)]);
      Note(w);
    }

    /** Moves a source on to the generation just seeded. */
    method BumpGeneration(s: Id)
      requires Valid() && s in reg.sources && reg.sources[s].state == Seeded && s in scope.sources
      requires var v := SourceVolume(reg.sources[s].name, reg.sources[s].gen + 1);
               v in drv.vols && OwnNameOnly(reg.sources, reg.branches, reg.sources[s].name, v)
      modifies reg`sources, this`hist
      ensures old(hist) <= hist
      ensures
        var src := old(reg.sources[s]);
        Valid() && reg.sources == old(reg.sources)[s := src.(gen := src.gen + 1, vol := SourceVolume(src.name, src.gen + 1))]
    {
      hide Inv, Kept, Safe, SourceVolume, OwnNameOnly;
      ghost var w := W();
      var src := reg.sources[s];
      reg.sources := reg.sources[s := src.(gen := src.gen + 1, vol := SourceVolume(src.name, src.gen + 1))];
      BumpStep(w, s, scope);
      assert W() == w.(sources := w.sources[s := w.sources[s].(gen := src.gen + 1, vol := SourceVolume(src.name, src.gen + 1))]);
      Note(w);
    }

    /** The state between the last two steps of removing a source. */
    ghost method NoteVolumeGone(w: World, s: Id)
      requires Inv(w) && s in w.sources && s in scope.sources && Removable(w, s)
      requires forall x | x in w.layers && w.layers[x].source == s :: w.layers[x].vol !in w.vols
      requires W() == w.(vols := w.vols - {w.sources[s].vol})
      requires Safe(origin, hist, scope) && hist != [] && hist[|hist| - 1] == w && Kept(origin, w, scope)
      modifies this`hist
      ensures old(hist) <= hist && Safe(origin, hist, scope) && hist != [] && hist[|hist| - 1] == W()
    {
      hide Inv, Kept, Safe, Gap, Removable, Evolves;
      VolumeGone(w, s, scope);
      EvolvesDriver(w, W());
      KeptTrans(origin, w, W(), scope);
      assert Sound(W(), scope);
      SafeNext(origin, hist, scope, W());
      hist := hist + [W()];
    }

    ghost method NoteDropped(w: World, mid: World, s: Id, removed: bool)
      requires Inv(w) && s in w.sources && s in scope.sources && Removable(w, s) && mid == w.(vols := mid.vols)
      requires W() == SourceDropped(w, s, removed) && OneSide(mid, W())
      requires Safe(origin, hist, scope) && hist != [] && hist[|hist| - 1] == mid && Kept(origin, w, scope)
      modifies this`hist
      ensures old(hist) <= hist && Valid()
    {
      hide Inv, Kept, Safe, Gap, Removable, Evolves, OneSide;
      DropSourceSteps(w, s, removed, scope);
      KeptTrans(origin, w, W(), scope);
      EvolvesDrop(w, mid, s, removed);
      SafeNext(origin, hist, scope, W());
      hist := hist + [W()];
    }

    /** Removes a source's current volume and, with it, the source. */
    method DropSource(s: Id) returns (ok: bool)
      requires Valid() && s in reg.sources && s in scope.sources && Removable(W(), s)
      requires forall x | x in reg.layers && reg.layers[x].source == s :: reg.layers[x].vol !in drv.vols
      modifies reg`sources, reg`branches, reg`journal, reg`layers, drv`vols, drv`done, this`hist
      ensures old(hist) <= hist
      ensures Valid() && (drv.reliable ==> ok && old(reg.sources[s].vol) !in drv.vols)
      ensures if ok then WithoutSource(old(W()), W(), s) else W() == old(W())
    {
      hide R.JournalFits, Inv, Kept, Safe, Gap, Removable, Evolves;
      ghost var w := W();
      var removed := drv.RemoveVolume(reg.sources[s].vol);
      ok := removed || reg.sources[s].state != Seeded;
      if removed {
        NoteVolumeGone(w, s);
      }
      if ok {
        ghost var mid := W();
        var deleted := reg.DeleteSource(s);
        NoteDropped(w, mid, s, removed);
      }
    }
  }

  lemma SafeWiden(origin: World, hist: seq<World>, scope: Scope, wider: Scope)
    requires Safe(origin, hist, scope) && scope.branches <= wider.branches && scope.sources <= wider.sources
    ensures Safe(origin, hist, wider)
  {
    hide Inv, Kept, OneSide, Evolves, Gap;
    forall h | h in hist
      ensures Sound(h, wider) && Kept(origin, h, wider)
    {
      KeptWiden(origin, h, scope, wider);
    }
  }

  /** One operation after another. */
  lemma SafeConcat(w0: World, first: seq<World>, scope: Scope, w: World, second: seq<World>, inner: Scope)
    requires Safe(w0, first, scope) && first[|first| - 1] == w && Kept(w0, w, scope)
    requires Safe(w, second, inner) && inner.branches <= scope.branches && inner.sources <= scope.sources
    ensures Safe(w0, first + second, scope)
  {
    hide Inv, Kept, Gap;
    SafeWiden(w, second, inner, scope);
    forall h | h in second
      ensures Kept(w0, h, scope)
    {
      KeptTrans(w0, w, h, scope);
    }
    var all := first + second;
    forall i | 0 < i < |all|
      ensures OneSide(all[i - 1], all[i]) && Evolves(all[i - 1], all[i])
    {
      if i > |first| {
        assert OneSide(second[i - |first| - 1], second[i - |first|]) && Evolves(second[i - |first| - 1], second[i - |first|]);
      } else if i == |first| {
        assert all[i] == w && all[i - 1] == w;
      }
    }
    if scope.sources == {} {
      forall i | 0 < i < |all|
        ensures all[i - 1].branches.Keys <= all[i].branches.Keys
      {
        if i > |first| {
          assert second[i - |first| - 1].branches.Keys <= second[i - |first|].branches.Keys;
        } else if i == |first| {
          assert all[i] == w && all[i - 1] == w;
        }
      }
    }
  }

  lemma EvolvesPut(w: World, id: Id, b: Branch)
    requires id in w.branches ==> SameIdentity(w.branches[id], b) && (b.state == w.branches[id].state || Legal(w.branches[id].state, b.state))
    ensures Evolves(w, w.(branches := w.branches[id := b]))
  {
  }

  lemma EvolvesDriver(w: World, w': World)
    requires w'.branches == w.branches
    ensures Evolves(w, w')
  {
  }

  lemma EvolvesDrop(w: World, w1: World, s: Id, removed: bool)
    requires s in w.sources && w1 == w.(vols := w1.vols)
    ensures Evolves(w1, SourceDropped(w, s, removed))
  {
  }

  lemma SafeNext(origin: World, hist: seq<World>, scope: Scope, w: World)
    requires Safe(origin, hist, scope) && Sound(w, scope) && Kept(origin, w, scope)
    requires OneSide(hist[|hist| - 1], w) && Evolves(hist[|hist| - 1], w)
    requires scope.sources == {} ==> hist[|hist| - 1].branches.Keys <= w.branches.Keys
    ensures Safe(origin, hist + [w], scope)
  {
    hide Sound, Kept, OneSide, Evolves;
  }

  /** Between the removal of a source's volume and that of its rows: nobody else is
      disturbed, and the invariant holds exactly if the source was not ready. */
  lemma VolumeGone(w: World, s: Id, scope: Scope)
    requires Inv(w) && s in w.sources && s in scope.sources && Removable(w, s)
    ensures var w1 := w.(vols := w.vols - {w.sources[s].vol});
      && Kept(w, w1, scope)
      && (Inv(w1) <==> w.sources[s].state != Seeded)
      && SourceDropped(w1, s, true) == SourceDropped(w, s, true) && Inv(SourceDropped(w1, s, true))
      && ((forall x | x in w.layers && w.layers[x].source == s :: w.layers[x].vol !in w.vols) && w.sources[s].state == Seeded ==> Gap(w1, s))
  {
    hide Inv, Kept, Gap;
    DropSourceSteps(w, s, true, scope);
    KeptWithout(w, s, scope);
    if w.sources[s].state == Seeded {
      ReadyGone(w, s);
    } else {
      NotReadyGone(w, s, scope);
    }
  }

  lemma ReadyGone(w: World, s: Id)
    requires Inv(w) && s in w.sources && Removable(w, s) && w.sources[s].state == Seeded
    ensures var w1 := w.(vols := w.vols - {w.sources[s].vol});
      && !Inv(w1)
      && ((forall x | x in w.layers && w.layers[x].source == s :: w.layers[x].vol !in w.vols) ==> Gap(w1, s))
  {
    hide Inv;
    var v := w.sources[s].vol;
    var w1 := w.(vols := w.vols - {v});
    ReadyHasVolume(w, s);
    SourceNamed(w, s);
    if Inv(w1) {
      ReadyHasVolume(w1, s);
    }
    SameKeys(w, w1.vols[v := BLANK]);
    assert w1.(vols := w1.vols[v := BLANK]) == w.(vols := w1.vols[v := BLANK]);
  }

  lemma NotReadyGone(w: World, s: Id, scope: Scope)
    requires Inv(w) && s in w.sources && s in scope.sources && Removable(w, s) && w.sources[s].state != Seeded
    ensures Inv(w.(vols := w.vols - {w.sources[s].vol}))
  {
    hide Inv, Private, Unneeded;
    SourceNamed(w, s);
    SourceVolumeUnneeded(w, w.sources[s].vol, scope);
    RemoveVolumeStep(w, w.sources[s].vol, scope);
  }

  lemma ReadyHasVolume(w: World, s: Id)
    requires Inv(w) && s in w.sources && w.sources[s].state == Seeded
    ensures w.sources[s].vol in w.vols
  {
  }

  /** The invariant asks which volumes there are, not what is in a source's. */
  lemma SameKeys(w: World, vols: map<Volume, Disk>)
    requires Inv(w) && vols.Keys == w.vols.Keys && forall u | u in vols && u.RW? :: vols[u] == w.vols[u]
    ensures Inv(w.(vols := vols))
  {
    hide LayersOk, BranchesOk, SourcesOk, PinsOk, VolumesOk, ContainersOk;
    forall id | IsReady(w.branches, id)
      ensures Served(w.(vols := vols), w.branches[id])
    {
      assert Served(w, w.branches[id]);
    }
  }

  lemma KeptWithout(w: World, s: Id, scope: Scope)
    requires Inv(w) && s in w.sources && s in scope.sources && Removable(w, s)
    ensures Kept(w, w.(vols := w.vols - {w.sources[s].vol}), scope)
  {
    hide Inv, BelowExists, HasChain, GenerationOk, PinOk;
    var v := w.sources[s].vol;
    SourceNamed(w, s);
    forall id | Live(w.branches, id)
      ensures !Uses(w.layers, w.branches[id], v)
    {
      LiveRow(w, id);
      LayersNamed(w);
    }
    hide Uses, Base;
  }

  lemma LayersNamed(w: World)
    requires Inv(w)
    ensures forall x | x in w.layers :: w.layers[x].vol.RW?
  {
  }

  /** A source none of whose branches is live, and whose volume nobody else has. */
  ghost predicate Removable(w: World, s: Id)
    requires s in w.sources
  {
    && (forall id | Live(w.branches, id) :: w.branches[id].source != s && w.branches[id].srcVol != w.sources[s].vol)
    && (forall t | t in w.sources && w.sources[t].state != SeedFailed && t != s :: w.sources[t].vol != w.sources[s].vol)
  }

  ghost function SourceDropped(w: World, s: Id, removed: bool): World
    requires s in w.sources
  {
    w.(sources := w.sources - {s},
       layers := LayersNotOf(w.layers, s),
       branches := BranchesNotOf(w.branches, s),
       vols := if removed then w.vols - {w.sources[s].vol} else w.vols)
  }

  /** Nothing of the source is left in the tables, and nothing else is gone. */
  ghost predicate WithoutSource(w: World, w': World, s: Id)
    requires s in w.sources
  {
    w' == SourceDropped(w, s, true) || w' == SourceDropped(w, s, false)
  }

  lemma DropSourceSteps(w: World, s: Id, removed: bool, scope: Scope)
    requires Inv(w) && s in w.sources && s in scope.sources && Removable(w, s)
    ensures var w' := SourceDropped(w, s, removed); Inv(w') && Kept(w, w', scope)
  {
    hide Inv, Kept, Private, Unneeded;
    var w' := SourceDropped(w, s, removed);
    SourceBases(w, s);
    PruneStep(w, w'.layers, scope);
    var w1 := w.(layers := w'.layers);
    DropBranchesStep(w1, w'.branches, scope);
    var w2 := w1.(branches := w'.branches);
    KeptTrans(w, w1, w2, scope);
    assert forall id: Id | Live(w2.branches, id) :: Live(w.branches, id);
    DropSourceStep(w2, s, scope);
    var w3 := w2.(sources := w'.sources);
    KeptTrans(w, w2, w3, scope);
    if removed {
      SourceVolumeUnneeded(w3, w.sources[s].vol, scope) by { SourceNamed(w, s); }
      RemoveVolumeStep(w3, w.sources[s].vol, scope);
      KeptTrans(w, w3, w', scope);
    }
  }

  lemma SourceNamed(w: World, s: Id)
    requires Inv(w) && s in w.sources
    ensures w.sources[s].vol.SRC?
  {
  }

  /** A source's layers chain only onto layers of the same source. */
  lemma SourceBases(w: World, s: Id)
    requires Inv(w) && forall id | Live(w.branches, id) :: w.branches[id].source != s
    ensures var ls' := LayersNotOf(w.layers, s); Pruned(w.layers, ls') && BasesIn(w.branches, ls')
  {
    hide SourcesOk, PinsOk, VolumesOk, ContainersOk, GenerationOk, Rooted, HasChain, Chain;
    forall id | Live(w.branches, id) && w.branches[id].base.Some?
      ensures w.branches[id].base.value in w.layers && w.layers[w.branches[id].base.value].source != s
    {
      LiveRow(w, id);
    }
  }

  lemma UnreferencedPrune(w: World, x: Id)
    requires Inv(w) && x in w.layers
    requires forall id | Live(w.branches, id) :: x !in Base(w.layers, w.branches[id])
    requires forall y | y in w.layers :: w.layers[y].parent != Some(x)
    ensures Pruned(w.layers, w.layers - {x}) && BasesIn(w.branches, w.layers - {x})
  {
    hide BranchesOk, SourcesOk, PinsOk, VolumesOk, ContainersOk, Chain;
    forall id | Live(w.branches, id) && w.branches[id].base.Some?
      ensures w.branches[id].base.value in w.layers - {x}
    {
      LiveRow(w, id);
      ChainUnfold(w.layers, w.branches[id].base.value);
    }
  }

  lemma NextContainerFresh(w: World)
    requires Inv(w)
    ensures w.nextCid !in w.conts
    ensures forall id | Live(w.branches, id) :: w.branches[id].container != Some(w.nextCid)
  {
    hide LayersOk, BranchesOk, SourcesOk, PinsOk, VolumesOk, Running;
  }
}
