/** Branch provisioning, reset and destroy: sequences of fallible steps with
    compensations that run in reverse. */
module Saga {
  import opened Options
  import opened BranchStates
  import opened Names
  import opened Overlay
  import opened Worlds
  import opened Steps
  import opened Engine
  import opened Cow

  /** One registered compensation. */
  datatype Undo = DropVolume(v: Volume) | DropContainer(c: Id)

  ghost predicate UndoOk(w: World, u: Undo, scope: Scope) {
    match u
    case DropVolume(v) => Unneeded(w, v) && Private(w, v, scope)
    case DropContainer(c) => forall id | IsReady(w.branches, id) :: w.branches[id].container != Some(c)
  }

  lemma UndoOkFrame(w: World, w': World, u: Undo, scope: Scope)
    requires UndoOk(w, u, scope)
    requires w'.sources == w.sources && w'.layers == w.layers && w'.branches == w.branches
    ensures UndoOk(w', u, scope)
  {
  }

  /** The driver after the compensations: what they name is gone if removals
      succeed, everything else is as it was. */
  ghost predicate Undone(w: World, w': World, undo: seq<Undo>, reliable: bool) {
    && w' == w.(vols := w'.vols, conts := w'.conts)
    && w'.vols.Keys <= w.vols.Keys && w'.conts.Keys <= w.conts.Keys
    && (forall v | v in w.vols && DropVolume(v) !in undo :: v in w'.vols)
    && (forall v | v in w'.vols :: w'.vols[v] == w.vols[v])
    && (forall c | c in w.conts && DropContainer(c) !in undo :: c in w'.conts)
    && (forall c | c in w'.conts :: w'.conts[c] == w.conts[c])
    && (reliable ==> (forall v | DropVolume(v) in undo :: v !in w'.vols))
    && (reliable ==> (forall c | DropContainer(c) in undo :: c !in w'.conts))
  }

  /** Runs the compensations in reverse, ignoring their errors. */
  method RunUndo(e: Engine, undo: seq<Undo>)
    requires e.Valid() && forall u | u in undo :: UndoOk(e.W(), u, e.scope)
    modifies e.drv`vols, e.drv`done, e.drv`conts, e`hist
    ensures old(e.hist) <= e.hist
    ensures e.Valid() && Undone(old(e.W()), e.W(), undo, e.drv.reliable)
    ensures forall k | |old(e.hist)| <= k < |e.hist| :: SuffixUndone(old(e.W()), e.hist[k], undo, e.drv.reliable)
  {
    hide Inv, Kept, Safe, Unneeded, Private, Undone, SuffixUndone;
    ghost var w0 := e.W();
    NothingUndone(w0, e.drv.reliable);
    var i := |undo|;
    assert undo[i..] == [];
    while i > 0
      invariant old(e.hist) <= e.hist
      invariant 0 <= i <= |undo| && e.Valid() && Undone(w0, e.W(), undo[i..], e.drv.reliable)
      invariant forall k | |old(e.hist)| <= k < |e.hist| :: SuffixUndone(w0, e.hist[k], undo, e.drv.reliable)
    {
      i := i - 1;
      ghost var w := e.W();
      UndoneTables(w0, w, undo[i + 1..], e.drv.reliable);
      UndoOkFrame(w0, e.W(), undo[i], e.scope);
      var ok;
      match undo[i] {
        case DropVolume(v) => ok := e.RemoveVolume(v);
        case DropContainer(c) => ok := e.Stop(c);
      }
      assert undo[i..] == [undo[i]] + undo[i + 1..];
      OneMoreUndone(w0, w, e.W(), undo[i], undo[i + 1..], e.drv.reliable);
      SuffixIs(w0, e.W(), undo, i, e.drv.reliable);
    }
    assert undo[0..] == undo;
  }

  /** Removes a branch's own volume once its container is gone, as far as removals
      succeed. */
  method RemoveOwnVolume(e: Engine, id: Id) returns (ok: bool)
    requires e.Valid() && Live(e.reg.branches, id) && id in e.scope.branches && e.reg.branches[id].state != Ready
    requires e.drv.reliable && e.reg.branches[id].container.Some? ==> e.reg.branches[id].container.value !in e.drv.conts
    modifies e.drv`vols, e.drv`done, e`hist
    ensures e.Valid() && old(e.hist) <= e.hist && (e.drv.reliable ==> ok)
    ensures e.drv.vols == if ok then old(e.drv.vols) - {e.reg.branches[id].rw} else old(e.drv.vols)
  {
    hide AtMostOne, Inv, Kept, Safe, Unneeded, Private;
    OwnVolume(e.W(), id, e.scope);
    ok := e.RemoveVolume(e.reg.branches[id].rw);
  }

  /** The compensations from some point of the list on have been run: a volume goes
      only after the containers that were started over it. */
  ghost predicate SuffixUndone(w: World, h: World, undo: seq<Undo>, reliable: bool) {
    exists i | 0 <= i <= |undo| :: Undone(w, h, undo[i..], reliable)
  }

  lemma SuffixIs(w: World, h: World, undo: seq<Undo>, i: nat, reliable: bool)
    requires i <= |undo| && Undone(w, h, undo[i..], reliable)
    ensures SuffixUndone(w, h, undo, reliable)
  {
    hide Undone;
  }

  lemma NothingUndone(w: World, reliable: bool)
    ensures Undone(w, w, [], reliable)
  {
  }

  lemma UndoneTables(w: World, w': World, undo: seq<Undo>, reliable: bool)
    requires Undone(w, w', undo, reliable)
    ensures w'.sources == w.sources && w'.layers == w.layers && w'.branches == w.branches
  {
  }

  lemma OneMoreUndone(w0: World, w: World, w': World, u: Undo, rest: seq<Undo>, reliable: bool)
    requires Undone(w0, w, rest, reliable) && w' == w.(vols := w'.vols, conts := w'.conts)
    requires match u
             case DropVolume(v) => w'.conts == w.conts && (w'.vols == w.vols - {v} || (!reliable && w'.vols == w.vols))
             case DropContainer(c) => w'.vols == w.vols && (w'.conts == w.conts - {c} || (!reliable && w'.conts == w.conts))
    ensures Undone(w0, w', [u] + rest, reliable)
  {
  }

  /** The scripts and the password change have been completed in the branch's own
      volume, where they are called for. */
  ghost predicate Customized(sources: map<Id, Source>, b: Branch, vols: map<Volume, Disk>, rotate: bool) {
    && b.rw in vols
    && (b.source in sources && sources[b.source].masked ==> vols[b.rw].masked)
    && (rotate ==> vols[b.rw].rotated)
  }

  /** The branch is on its first volume, or what is done in that one was done. */
  ghost predicate Markable(w: World, b: Branch) {
    b.rw == RW(b.name, 1) || Marked(w.sources, b, w.vols, w.rotate)
  }

  /** Masking scripts and the branch's own password, when there are any. */
  method Customize(e: Engine, id: Id, c: Id) returns (ok: bool)
    requires e.Valid() && Live(e.reg.branches, id) && id in e.scope.branches
    requires e.reg.branches[id].source in e.reg.sources
    requires e.reg.branches[id].rw in e.drv.vols
    requires c in e.drv.conts && e.drv.conts[c] != [] && e.drv.conts[c][0] == e.reg.branches[id].rw
    modifies e.drv`vols, e.drv`done, e`hist
    ensures old(e.hist) <= e.hist
    ensures e.Valid()
    ensures
      var b := e.reg.branches[id];
      && b.rw in e.drv.vols && e.drv.vols == old(e.drv.vols)[b.rw := e.drv.vols[b.rw]]
      && (!e.reg.sources[b.source].masked && !e.rotate ==> e.drv.vols == old(e.drv.vols))
      && (ok ==> Customized(e.reg.sources, b, e.drv.vols, e.rotate))
    ensures e.drv.perfect ==> ok
  {
    hide Inv, Kept, Safe, Private, Unneeded, Chain, Running;
    var b := e.reg.branches[id];
    ok := true;
    if e.reg.sources[b.source].masked {
      OwnVolume(e.W(), id, e.scope);
      ok := e.RunSql(c, true);
    }
    if ok && e.rotate {
      OwnVolume(e.W(), id, e.scope);
      ok := e.RunSql(c, false);
    }
  }

  /** Waits for a container. It is recorded on its branch before, so that nobody takes
      it for an orphan meanwhile. */
  method WaitReady(e: Engine, id: Id, c: Id) returns (ok: bool)
    requires id in e.reg.branches && e.reg.branches[id].container == Some(c)
    ensures ok ==> e.drv.answers(c)
    ensures e.drv.perfect && e.drv.answers(c) ==> ok
  {
    ok := e.drv.Probe(c);
  }

  /** The readiness wait, masking, the password change and the address probe;
      then the branch is ready. */
  method AwaitAndMark(e: Engine, id: Id, c: Id) returns (ok: bool)
    requires e.Valid() && Live(e.reg.branches, id) && id in e.scope.branches && Transient(e.reg.branches[id].state)
    requires e.reg.branches[id].source in e.reg.sources
    requires e.reg.branches[id].rw in e.drv.vols
    requires c < e.drv.nextCid && Unclaimed(e.reg.branches, id, Some(c))
    requires c in e.drv.conts && e.drv.conts[c] == Stack(e.reg.layers, e.reg.branches[id])
    requires Markable(e.W(), e.reg.branches[id])
    modifies e.reg`branches, e.reg`journal, e.drv`vols, e.drv`done, e`hist
    ensures old(e.hist) <= e.hist
    ensures e.Valid() && (e.drv.Flawless() ==> ok)
    ensures
      var b := old(e.reg.branches[id]);
      && e.reg.branches == old(e.reg.branches)[id := b.(container := Some(c), updated := e.reg.clock,
                                                        state := if ok then Ready else b.state)]
      && b.rw in e.drv.vols && e.drv.vols == old(e.drv.vols)[b.rw := e.drv.vols[b.rw]]
      && (!e.reg.sources[b.source].masked && !e.rotate ==> e.drv.vols == old(e.drv.vols))
      && (ok ==> Customized(e.reg.sources, b, e.drv.vols, e.rotate))
  {
    hide Inv, Kept, Safe, Private, Unneeded, Chain, Running;
    ghost var w := e.W();
    e.SetContainer(id, c);
    ok := WaitReady(e, id, c);
    if ok {
      ok := Customize(e, id, c);
    }
    StillMarkable(w, e.W(), w.branches[id], e.reg.branches[id]);
    if ok {
      ok := e.drv.Probe(c);
    }
    if ok {
      CustomizedMarked(e.W(), e.reg.branches[id]);
      e.MarkReady(id, c);
    }
  }

  lemma CustomizedMarked(w: World, b: Branch)
    requires Markable(w, b) && Customized(w.sources, b, w.vols, w.rotate)
    ensures Marked(w.sources, b, w.vols, w.rotate)
  {
  }

  /** Writing into one's own volume, or making it, leaves that as it was. */
  lemma StillMarkable(w: World, w': World, b: Branch, b': Branch)
    requires Markable(w, b) && w'.sources == w.sources && w'.rotate == w.rotate && b'.name == b.name && b'.rw == b.rw && b'.source == b.source
    requires forall v | v in w.vols && v != b.rw :: v in w'.vols && w'.vols[v] == w.vols[v]
    ensures Markable(w', b')
  {
  }

  /** A volume, the entrypoint in it, and a container on a stack over it; each
      step that is done registers its compensation. */
  method Launch(e: Engine, rw: Volume, stack: seq<Volume>, undo0: seq<Undo>) returns (c: Option<Id>, undo: seq<Undo>)
    requires e.Valid() && Unneeded(e.W(), rw) && Private(e.W(), rw, e.scope)
    requires forall u | u in undo0 :: UndoOk(e.W(), u, e.scope)
    modifies e.drv, e`hist
    ensures e.Valid() && old(e.hist) <= e.hist && (e.drv.perfect ==> c.Some?)
    ensures c.Some? ==> rw in e.drv.done.scripted
    ensures forall u | u in undo :: UndoOk(e.W(), u, e.scope)
    ensures Launched(old(e.W()), e.W(), rw, stack, c, undo0, undo)
  {
    hide Inv, Kept, Safe, Private, Unneeded;
    ghost var w := e.W();
    c, undo := None, undo0;
    var ok := e.CreateVolume(rw);
    if ok {
      undo := undo + [DropVolume(rw)];
      ok := e.drv.RunHelper(rw);
      if ok {
        c := e.Start(stack);
        if c.Some? {
          undo := undo + [DropContainer(c.value)];
        }
      }
    }
    forall u | u in undo
      ensures UndoOk(e.W(), u, e.scope)
    {
      if u == DropVolume(rw) || u in undo0 {
        UndoOkFrame(w, e.W(), u, e.scope);
      }
    }
  }

  ghost predicate Launched(w: World, w': World, rw: Volume, stack: seq<Volume>, c: Option<Id>, undo0: seq<Undo>, undo: seq<Undo>) {
    && w' == w.(vols := w'.vols, conts := w'.conts, nextCid := w'.nextCid)
    && (w'.vols == w.vols || (rw !in w.vols && w'.vols == w.vols[rw := BLANK]))
    && match c
       case Some(cid) =>
         && rw in w'.vols && undo == undo0 + [DropVolume(rw)] + [DropContainer(cid)]
         && cid == w.nextCid && w'.nextCid == w.nextCid + 1 && cid !in w.conts && w'.conts == w.conts[cid := stack]
         && (forall id | Live(w.branches, id) :: w.branches[id].container != c)
       case None =>
         && w'.conts == w.conts && w'.nextCid == w.nextCid
         && ((undo == undo0 && w'.vols == w.vols) || undo == undo0 + [DropVolume(rw)])
  }

  /** Provisioning changes one row, one volume and at most one container; when
      it fails and removals succeed it leaves nothing new behind. */
  ghost predicate Provisioned(w: World, w': World, id: Id, ok: bool, reliable: bool)
    requires id in w.branches
  {
    var b := w.branches[id];
    && w' == w.(branches := w'.branches, vols := w'.vols, conts := w'.conts, nextCid := w'.nextCid)
    && id in w'.branches && w'.branches == w.branches[id := w'.branches[id]] && Retouched(b, w'.branches[id])
    && w'.branches[id].state == (if ok then Ready else b.state)
    && SameBut(w.vols, w'.vols, b.rw)
    && NewContainer(b.container, w'.branches[id].container, w.conts)
    && (forall c | c in w.conts :: c in w'.conts && w'.conts[c] == w.conts[c])
    && (ok ==> b.rw in w'.vols && w'.branches[id].container.Some? && Customized(w.sources, b, w'.vols, w.rotate)
               && w'.conts.Keys == w.conts.Keys + {w'.branches[id].container.value})
    && (!ok && reliable ==> w'.vols.Keys <= w.vols.Keys && w'.conts == w.conts)
  }

  /** A container that was recorded is one that was not there before. */
  ghost predicate NewContainer(a: Option<Id>, b: Option<Id>, conts: map<Id, seq<Volume>>) {
    b == a || (b.Some? && b.value !in conts)
  }

  ghost predicate SameBut(vols: map<Volume, Disk>, vols': map<Volume, Disk>, rw: Volume) {
    && (forall v | v in vols && v != rw :: v in vols' && vols'[v] == vols[v])
    && (forall v | v in vols' && v != rw :: v in vols)
  }

  /** Nothing is written into a fresh branch before it is handed out. */
  ghost predicate Plain(e: Engine, w: World, id: Id)
    requires id in w.branches
  {
    w.branches[id].source in w.sources && !w.sources[w.branches[id].source].masked && !e.rotate
  }

  /** The steps so far: whatever is new is registered for compensation, and
      nothing else is. */
  ghost predicate Attempted(w: World, w': World, id: Id, ok: bool, undo: seq<Undo>)
    requires id in w.branches
  {
    var b := w.branches[id];
    && w' == w.(branches := w'.branches, vols := w'.vols, conts := w'.conts, nextCid := w'.nextCid)
    && id in w'.branches && w'.branches == w.branches[id := w'.branches[id]] && Retouched(b, w'.branches[id])
    && w'.branches[id].state == (if ok then Ready else b.state)
    && SameBut(w.vols, w'.vols, b.rw) && w'.vols.Keys <= w.vols.Keys + {b.rw} && w.vols.Keys <= w'.vols.Keys
    && NewContainer(b.container, w'.branches[id].container, w.conts)
    && (forall c | c in w.conts :: c in w'.conts && w'.conts[c] == w.conts[c])
    && (b.rw in w'.vols && b.rw !in w.vols ==> DropVolume(b.rw) in undo)
    && (forall c | c in w'.conts && c !in w.conts :: DropContainer(c) in undo)
    && (forall u | u in undo :: if u.DropVolume? then u.v == b.rw else u.c !in w.conts)
    && (ok ==> b.rw in w'.vols && w'.branches[id].container.Some? && Customized(w.sources, b, w'.vols, w.rotate)
               && w'.conts.Keys == w.conts.Keys + {w'.branches[id].container.value})
  }

  lemma AttemptUndone(w: World, w1: World, w2: World, id: Id, undo: seq<Undo>, reliable: bool)
    requires id in w.branches && Attempted(w, w1, id, false, undo) && Undone(w1, w2, undo, reliable)
    ensures Provisioned(w, w2, id, false, reliable)
  {
    assert reliable ==> w2.conts == w.conts;
  }

  method Attempt(e: Engine, id: Id) returns (ok: bool, undo: seq<Undo>)
    requires e.Valid() && Live(e.reg.branches, id) && id in e.scope.branches && Transient(e.reg.branches[id].state)
    requires Markable(e.W(), e.reg.branches[id])
    modifies e.reg`branches, e.reg`journal, e.drv, e`hist
    ensures e.Valid() && old(e.hist) <= e.hist && (e.drv.Flawless() ==> ok)
    ensures Attempted(old(e.W()), e.W(), id, ok, undo)
    ensures !ok ==> forall u | u in undo :: UndoOk(e.W(), u, e.scope)
    ensures ok && old(Plain(e, e.W(), id)) && old(e.reg.branches[id].rw !in e.drv.vols) ==>
      e.drv.vols[e.reg.branches[id].rw].files == map[]
  {
    hide Inv, Kept, Safe, Private, Unneeded, Chain, HasChain, Running, UndoOk, BranchOk, PinOk, BelowExists, GenerationOk, Attempted;
    ghost var w := e.W();
    var b := e.reg.branches[id];
    LiveRow(w, id);
    var chain, lowers := e.LayerChain(id);
    var plan := PlanBranch(b.rw, b.srcVol, lowers);
    OwnVolume(w, id, e.scope);
    var c;
    c, undo := Launch(e, plan.rw, Assembled(plan), []);
    ok := false;
    ghost var w1 := e.W();
    if c.Some? {
      SourceOfLive(w1, id);
      StillMarkable(w, w1, b, w1.branches[id]);
      ok := AwaitAndMark(e, id, c.value);
      AttemptMarked(w, w1, e.W(), id, Assembled(plan), c.value, undo, ok);
      if !ok {
        AwaitedUndo(w1, e.W(), id, c.value, undo, e.scope);
      }
    } else {
      AttemptStopped(w, w1, id, Assembled(plan), undo);
    }
  }

  lemma AttemptStopped(w: World, w1: World, id: Id, stack: seq<Volume>, undo: seq<Undo>)
    requires id in w.branches && Launched(w, w1, w.branches[id].rw, stack, None, [], undo)
    ensures Attempted(w, w1, id, false, undo)
  {
    assert w1.branches == w.branches[id := w1.branches[id]];
  }

  lemma AttemptMarked(w: World, w1: World, w2: World, id: Id, stack: seq<Volume>, c: Id, undo: seq<Undo>, ok: bool)
    requires id in w.branches && Launched(w, w1, w.branches[id].rw, stack, Some(c), [], undo)
    requires w2 == w1.(branches := w2.branches, vols := w2.vols)
    requires id in w2.branches && w2.branches == w.branches[id := w2.branches[id]] && Retouched(w.branches[id], w2.branches[id])
    requires w2.branches[id].state == (if ok then Ready else w.branches[id].state) && w2.branches[id].container == Some(c)
    requires w.branches[id].rw in w2.vols && w2.vols == w1.vols[w.branches[id].rw := w2.vols[w.branches[id].rw]]
    requires ok ==> Customized(w.sources, w.branches[id], w2.vols, w.rotate)
    ensures Attempted(w, w2, id, ok, undo)
  {
  }

  /** A branch that did not get ready holds on to nothing the compensations
      remove. */
  lemma AwaitedUndo(w1: World, w2: World, id: Id, c: Id, undo: seq<Undo>, scope: Scope)
    requires forall u | u in undo :: UndoOk(w1, u, scope)
    requires id in w1.branches && w2 == w1.(branches := w2.branches, vols := w2.vols)
    requires id in w2.branches && w2.branches == w1.branches[id := w2.branches[id]]
    requires Retouched(w1.branches[id], w2.branches[id]) && w2.branches[id].state == w1.branches[id].state != Ready
    ensures forall u | u in undo :: UndoOk(w2, u, scope)
  {
    forall u | u in undo
      ensures UndoOk(w2, u, scope)
    {
      RetouchedUndo(w1, w2, id, u, scope);
    }
  }

  lemma RetouchedUndo(w1: World, w2: World, id: Id, u: Undo, scope: Scope)
    requires UndoOk(w1, u, scope)
    requires id in w1.branches && w2 == w1.(branches := w2.branches, vols := w2.vols)
    requires id in w2.branches && w2.branches == w1.branches[id := w2.branches[id]]
    requires Retouched(w1.branches[id], w2.branches[id]) && w2.branches[id].state == w1.branches[id].state != Ready
    ensures UndoOk(w2, u, scope)
  {
    hide Chain;
    assert forall j: Id | Live(w2.branches, j) :: Live(w1.branches, j);
    assert forall j: Id | IsReady(w2.branches, j) :: IsReady(w1.branches, j) && w2.branches[j] == w1.branches[j];
    assert forall v: Volume :: Below(w2.layers, w2.branches[id], v) == Below(w1.layers, w1.branches[id], v);
  }

  /** Volume, entrypoint, container, readiness: the steps create and reset share. */
  method Provision(e: Engine, id: Id) returns (ok: bool)
    requires e.Valid() && Live(e.reg.branches, id) && id in e.scope.branches && Transient(e.reg.branches[id].state)
    requires Markable(e.W(), e.reg.branches[id])
    modifies e.reg`branches, e.reg`journal, e.drv, e`hist
    ensures e.Valid() && old(e.hist) <= e.hist && (e.drv.Flawless() ==> ok)
    ensures Provisioned(old(e.W()), e.W(), id, ok, e.drv.reliable)
    ensures ok && old(Plain(e, e.W(), id)) && old(e.reg.branches[id].rw !in e.drv.vols) ==>
      e.drv.vols[e.reg.branches[id].rw].files == map[]
  {
    hide Inv, Kept, Safe, UndoOk, Undone;
    ghost var w := e.W();
    var undo;
    ok, undo := Attempt(e, id);
    if !ok {
      ghost var w1 := e.W();
      RunUndo(e, undo);
      AttemptUndone(w, w1, e.W(), id, undo, e.drv.reliable);
    }
  }

  lemma SourceOfLive(w: World, id: Id)
    requires Inv(w) && Live(w.branches, id)
    ensures w.branches[id].source in w.sources && w.sources[w.branches[id].source].state == Seeded
  {
    LiveRow(w, id);
  }
}
