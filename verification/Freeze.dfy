/** Branch-from-branch: the freeze saga and its rollback. */
module Freeze {
  import opened Options
  import opened BranchStates
  import opened Names
  import opened Overlay
  import opened Worlds
  import opened Steps
  import opened Engine
  import opened Saga
  import opened Leftovers

  /** Rows outside `ids` are as before; rows in it have at most another
      container and timestamp, and none of them is ready. */
  ghost predicate RowsStaged(bs: map<Id, Branch>, bs': map<Id, Branch>, ids: set<Id>) {
    && bs'.Keys == bs.Keys
    && forall id | id in bs :: if id in ids then Retouched(bs[id], bs'[id]) && bs'[id].state == bs[id].state != Ready
                               else bs'[id] == bs[id]
  }

  /** What the saga has built so far: only the volumes in `vs` may differ, and
      everything new is registered for compensation, and nothing else is. */
  ghost predicate Staged(w: World, w': World, ids: set<Id>, vs: set<Volume>, undo: seq<Undo>) {
    && w' == w.(branches := w'.branches, vols := w'.vols, conts := w'.conts, nextCid := w'.nextCid)
    && RowsStaged(w.branches, w'.branches, ids)
    && (forall v | v in w.vols :: v in w'.vols && (v in vs || w'.vols[v] == w.vols[v]))
    && (forall v | v in w'.vols && v !in w.vols :: v in vs && DropVolume(v) in undo)
    && (forall c | c in w.conts :: c in w'.conts && w'.conts[c] == w.conts[c])
    && (forall c | c in w'.conts && c !in w.conts :: DropContainer(c) in undo)
    && (forall u | u in undo :: if u.DropVolume? then u.v in vs else u.c !in w.conts)
  }

  lemma StagedTrans(w: World, w1: World, w2: World, ids: set<Id>, vs: set<Volume>, undo1: seq<Undo>, ids2: set<Id>, vs2: set<Volume>, undo2: seq<Undo>)
    requires Staged(w, w1, ids, vs, undo1) && undo1 <= undo2
    requires Staged(w1, w2, ids2, vs2, undo2[|undo1|..])
    ensures Staged(w, w2, ids + ids2, vs + vs2, undo2)
  {
    assert undo2 == undo1 + undo2[|undo1|..];
    assert forall u | u in undo2 :: u in undo1 || u in undo2[|undo1|..];
    StagedRows(w.branches, w1.branches, w2.branches, ids, ids2);
    hide RowsStaged;
  }

  lemma StagedRows(bs: map<Id, Branch>, bs1: map<Id, Branch>, bs2: map<Id, Branch>, ids: set<Id>, ids2: set<Id>)
    requires RowsStaged(bs, bs1, ids) && RowsStaged(bs1, bs2, ids2)
    ensures RowsStaged(bs, bs2, ids + ids2)
  {
  }

  /** Compensations stay harmless while the rows involved are not ready. */
  lemma StagedUndo(w: World, w': World, ids: set<Id>, u: Undo, scope: Scope)
    requires UndoOk(w, u, scope) && w'.sources == w.sources && w'.layers == w.layers && RowsStaged(w.branches, w'.branches, ids)
    ensures UndoOk(w', u, scope)
  {
    hide Chain;
    assert forall j: Id | Live(w'.branches, j) :: Live(w.branches, j);
    assert forall j: Id | IsReady(w'.branches, j) :: IsReady(w.branches, j) && w'.branches[j] == w.branches[j];
    assert forall j: Id, v: Volume | Live(w'.branches, j) :: Below(w'.layers, w'.branches[j], v) == Below(w.layers, w.branches[j], v);
    assert forall j: Id | Live(w'.branches, j) :: w'.branches[j].rw == w.branches[j].rw;
  }

  lemma LaunchedStaged(w: World, w': World, rw: Volume, stack: seq<Volume>, c: Option<Id>, undo0: seq<Undo>, undo: seq<Undo>)
    requires Launched(w, w', rw, stack, c, undo0, undo)
    ensures undo0 <= undo && Staged(w, w', {}, {rw}, undo[|undo0|..])
  {
    var rest := undo[|undo0|..];
    assert c.Some? ==> rest == [DropVolume(rw)] + [DropContainer(c.value)];
    assert c.None? ==> rest == [] || rest == [DropVolume(rw)];
  }

  /** A fresh writable volume and a running container over it, recorded on the
      branch before the readiness wait. */
  method LaunchFor(e: Engine, id: Id, rw: Volume, stack: seq<Volume>, undo0: seq<Undo>) returns (ok: bool, c: Id, undo: seq<Undo>)
    requires e.Valid() && Live(e.reg.branches, id) && id in e.scope.branches && e.reg.branches[id].state != Ready
    requires Unneeded(e.W(), rw) && Private(e.W(), rw, e.scope)
    requires forall u | u in undo0 :: UndoOk(e.W(), u, e.scope)
    modifies e.reg`branches, e.reg`journal, e.drv, e`hist
    ensures e.Valid() && old(e.hist) <= e.hist
    ensures undo0 <= undo && Staged(old(e.W()), e.W(), {id}, {rw}, undo[|undo0|..])
    ensures forall u | u in undo :: UndoOk(e.W(), u, e.scope)
    ensures ok ==>
      && c < e.drv.nextCid && c in e.drv.conts && e.drv.conts[c] == stack && e.drv.conts.Keys == old(e.drv.conts.Keys) + {c}
      && id in e.reg.branches && e.reg.branches[id].container == Some(c)
      && rw in e.drv.vols && e.drv.vols[rw].files == Initial(old(e.drv.vols), rw)
      && forall j | Live(e.reg.branches, j) && j != id :: e.reg.branches[j].container != Some(c)
    ensures (ok ==> e.drv.answers(c)) && (e.drv.Flawless() ==> ok)
  {
    hide Inv, Kept, Safe, Unneeded, Private, UndoOk, Staged;
    ghost var w := e.W();
    var started;
    started, undo := Launch(e, rw, stack, undo0);
    ghost var w1 := e.W();
    LaunchedStaged(w, w1, rw, stack, started, undo0, undo);
    ok, c := false, 0;
    if started.Some? {
      c := started.value;
      e.SetContainer(id, c);
      ok := WaitReady(e, id, c);
    }
    TouchedStaged(w, w1, e.W(), id, rw, undo0, undo, e.scope);
  }

  /** Recording a container on a row that is not ready disturbs no compensation. */
  lemma TouchedStaged(w: World, w1: World, w2: World, id: Id, rw: Volume, undo0: seq<Undo>, undo: seq<Undo>, scope: Scope)
    requires undo0 <= undo && Staged(w, w1, {}, {rw}, undo[|undo0|..])
    requires id in w1.branches && w1.branches[id].state != Ready
    requires id in w2.branches && Retouched(w1.branches[id], w2.branches[id]) && w2.branches[id].state == w1.branches[id].state
    requires w2 == w1.(branches := w1.branches[id := w2.branches[id]])
    requires forall u | u in undo :: UndoOk(w1, u, scope)
    ensures Staged(w, w2, {id}, {rw}, undo[|undo0|..])
    ensures forall u | u in undo :: UndoOk(w2, u, scope)
  {
    var rest := undo[|undo0|..];
    assert RowsStaged(w1.branches, w2.branches, {id});
    StagedRows(w.branches, w1.branches, w2.branches, {}, {id});
    assert {} + {id} == {id};
    assert Staged(w, w2, {id}, {rw}, rest) by { hide UndoOk, RowsStaged; }
    hide UndoOk, RowsStaged, Staged;
    forall u | u in undo
      ensures UndoOk(w2, u, scope)
    {
      StagedUndo(w1, w2, {id}, u, scope);
    }
  }

  /** The two rows as the saga finds them once the parent is stopped. */
  ghost predicate Freezing(w: World, parent: Id, child: Id) {
    && parent != child && Live(w.branches, parent) && Live(w.branches, child)
    && var p, c := w.branches[parent], w.branches[child];
    && p.state == Resetting && c.state == Creating
    && c.base.None? && c.source == p.source && c.srcVol == p.srcVol && p.rw in w.vols
    && Own(p) !! w.conts.Keys
    && Marked(w.sources, p, w.vols, w.rotate)
  }

  /** A branch's recorded container, if any. */
  function Own(b: Branch): set<Id> {
    if b.container.Some? then {b.container.value} else {}
  }

  ghost function NextVolume(w: World, id: Id): Volume
    requires id in w.branches
  {
    RW(w.branches[id].name, |Base(w.layers, w.branches[id])| + 2)
  }

  /** What a volume holds right after it was asked for: creating one that is
      already there keeps what is in it. */
  function Initial(vols: map<Volume, Disk>, v: Volume): Content {
    if v in vols then vols[v].files else map[]
  }

  /** The child's container is up over its parent's frozen stack, whose volumes
      hold what they held before, and its own volume is still empty. */
  ghost predicate Born(h: World, vols: map<Volume, Disk>, rw: Volume, lower: seq<Volume>, cid: Id) {
    && cid in h.conts && h.conts[cid] == [rw] + lower && rw in h.vols && h.vols[rw].files == map[]
    && forall v | v in lower :: SameContent(vols, h.vols, v)
  }

  /** The child's resources, up to the point where only the commit is missing. The
      stuck timers of both rows have just been restarted. */
  method StartChild(e: Engine, child: Id, ghost parent: Id, lower: seq<Volume>, undo0: seq<Undo>) returns (ok: bool, c: Id, undo: seq<Undo>)
    requires e.Valid() && Live(e.reg.branches, child) && child in e.scope.branches && e.reg.branches[child].state == Creating
    requires e.reg.branches[child].updated == e.reg.clock && parent in e.reg.branches && e.reg.branches[parent].updated == e.reg.clock
    requires forall u | u in undo0 :: UndoOk(e.W(), u, e.scope)
    modifies e.reg`branches, e.reg`journal, e.drv, e`hist
    ensures e.Valid() && old(e.hist) <= e.hist
    ensures undo0 <= undo && Staged(old(e.W()), e.W(), {child}, {old(e.reg.branches[child].rw)}, undo[|undo0|..])
    ensures forall u | u in undo :: UndoOk(e.W(), u, e.scope)
    ensures ok ==>
      var rw := old(e.reg.branches[child].rw);
      && c < e.drv.nextCid && c in e.drv.conts && e.drv.conts[c] == [rw] + lower && e.drv.conts.Keys == old(e.drv.conts.Keys) + {c}
      && child in e.reg.branches && e.reg.branches[child].container == Some(c) && rw in e.drv.vols
      && (old(rw !in e.drv.vols) ==> exists h | h in e.hist :: Born(h, old(e.drv.vols), rw, lower, c))
      && (old(rw !in e.drv.vols && Plain(e, e.W(), child)) ==> e.drv.vols[rw].files == map[])
      && forall j | Live(e.reg.branches, j) && j != child :: e.reg.branches[j].container != Some(c)
    ensures ok ==> e.drv.answers(c) && Customized(e.reg.sources, old(e.reg.branches[child]), e.drv.vols, e.rotate)
    ensures e.drv.Flawless() ==> ok
  {
    hide Inv, Kept, Safe, Unneeded, Private, UndoOk, Staged;
    ghost var w := e.W();
    var rw := e.reg.branches[child].rw;
    OwnVolume(w, child, e.scope);
    ok, c, undo := LaunchFor(e, child, rw, [rw] + lower, undo0);
    ghost var w1 := e.W();
    StagedRow(w, w1, {child}, {rw}, undo[|undo0|..], child);
    if ok {
      SourceOfLive(w1, child);
      ghost var up := |e.hist| - 1;
      assert e.hist[up] == w1;
      ok := Customize(e, child, c);
      WrittenStaged(w, w1, e.W(), child, rw, undo0, undo, e.scope);
      assert e.hist[up] == w1 && (rw !in w.vols ==> Born(w1, w.vols, rw, lower, c)) by {
        StagedVolumes(w, w1, {child}, {rw}, undo[|undo0|..]);
      }
      if ok {
        ok := e.drv.Probe(c);
      }
    }
  }

  lemma StagedRow(w: World, w1: World, ids: set<Id>, vs: set<Volume>, undo: seq<Undo>, id: Id)
    requires Staged(w, w1, ids, vs, undo) && Live(w.branches, id)
    ensures Live(w1.branches, id) && Retouched(w.branches[id], w1.branches[id]) && w1.branches[id].state == w.branches[id].state
    ensures w1.layers == w.layers && w1.sources == w.sources
  {
  }

  lemma WrittenStaged(w: World, w1: World, w2: World, id: Id, rw: Volume, undo0: seq<Undo>, undo: seq<Undo>, scope: Scope)
    requires undo0 <= undo && Staged(w, w1, {id}, {rw}, undo[|undo0|..])
    requires rw in w1.vols && rw in w2.vols && w2 == w1.(vols := w1.vols[rw := w2.vols[rw]])
    requires forall u | u in undo :: UndoOk(w1, u, scope)
    ensures Staged(w, w2, {id}, {rw}, undo[|undo0|..])
    ensures forall u | u in undo :: UndoOk(w2, u, scope)
  {
    hide RowsStaged;
    assert Staged(w, w2, {id}, {rw}, undo[|undo0|..]) by { hide UndoOk; }
    hide UndoOk, Staged;
    forall u | u in undo
      ensures UndoOk(w2, u, scope)
    {
      UndoOkFrame(w1, w2, u, scope);
    }
  }

  /** A progress checkpoint on both rows: their stuck timers restart. */
  method TouchBoth(e: Engine, parent: Id, child: Id, undo: seq<Undo>)
    requires e.Valid() && Live(e.reg.branches, parent) && Live(e.reg.branches, child)
    requires parent in e.scope.branches && child in e.scope.branches
    requires e.reg.branches[parent].state != Ready && e.reg.branches[child].state != Ready
    requires forall u | u in undo :: UndoOk(e.W(), u, e.scope)
    modifies e.reg`branches, e.reg`journal, e`hist
    ensures e.Valid() && old(e.hist) <= e.hist
    ensures Staged(old(e.W()), e.W(), {parent, child}, {}, [])
    ensures forall u | u in undo :: UndoOk(e.W(), u, e.scope)
    ensures forall j | j in old(e.reg.branches) :: j in e.reg.branches && e.reg.branches[j].container == old(e.reg.branches[j].container)
    ensures parent in e.reg.branches && e.reg.branches[parent].updated == e.reg.clock
    ensures child in e.reg.branches && e.reg.branches[child].updated == e.reg.clock
  {
    hide Inv, Kept, Safe, UndoOk;
    ghost var w := e.W();
    e.Touch(parent);
    e.Touch(child);
    forall u | u in undo
      ensures UndoOk(e.W(), u, e.scope)
    {
      StagedUndo(w, e.W(), {parent, child}, u, e.scope);
    }
  }

  /** Everything is up; only the commit is missing. */
  ghost predicate Prepared(w: World, w': World, parent: Id, child: Id, rw: Volume, lower: seq<Volume>, pc: Id, cc: Id, hist: seq<World>, plain: bool)
    requires child in w.branches
  {
    var crw := w.branches[child].rw;
    && (forall y: Id | y !in w'.layers :: ReadyToFreeze(w', parent, child, y, rw, pc))
    && child in w'.branches && w'.branches[child].container == Some(cc)
    && cc < w'.nextCid && cc in w'.conts && w'.conts[cc] == [crw] + lower && w'.conts.Keys == w.conts.Keys + {pc, cc}
    && Unclaimed(w'.branches, child, Some(cc)) && pc != cc
    && crw in w'.vols && rw in w'.vols && w'.vols[rw].files == Initial(w.vols, rw)
    && (rw !in w.vols && crw !in w.vols ==> exists h | h in hist :: Born(h, w.vols, crw, lower, cc))
    && (crw !in w.vols && plain ==> w'.vols[crw].files == map[])
    && w'.answers(cc) && Customized(w'.sources, w.branches[child], w'.vols, w'.rotate)
  }

  method Prepare(e: Engine, parent: Id, child: Id, rw: Volume, lower: seq<Volume>) returns (ok: bool, pc: Id, cc: Id, undo: seq<Undo>)
    requires e.Valid() && Freezing(e.W(), parent, child) && parent in e.scope.branches && child in e.scope.branches
    requires rw == NextVolume(e.W(), parent) && lower == Stack(e.reg.layers, e.reg.branches[parent])
    modifies e.reg`branches, e.reg`journal, e.drv, e`hist
    ensures e.Valid() && old(e.hist) <= e.hist
    ensures Staged(old(e.W()), e.W(), {parent, child}, {rw, old(e.reg.branches[child].rw)}, undo)
    ensures forall u | u in undo :: UndoOk(e.W(), u, e.scope)
    ensures ok ==> Prepared(old(e.W()), e.W(), parent, child, rw, lower, pc, cc, e.hist, old(Plain(e, e.W(), child)))
    ensures e.drv.Flawless() ==> ok
  {
    hide Inv, Kept, Safe, Unneeded, Private, UndoOk, Staged, Stack, Chain, Prepared, Born;
    ghost var w := e.W();
    ghost var crw := e.reg.branches[child].rw;
    cc := 0;
    NextVolumeFresh(w, parent, e.scope);
    ok, pc, undo := LaunchFor(e, parent, rw, [rw] + lower, []);
    ghost var w1 := e.W();
    assert undo[0..] == undo;
    WidenStaged(w, w1, {parent}, {rw}, {parent, child}, {rw, crw}, undo);
    if !ok {
      return;
    }
    ok, cc, undo := PrepareChild(e, w, parent, child, rw, lower, pc, undo);
  }

  /** The second half: the parent is up again, and the child follows. */
  method PrepareChild(e: Engine, ghost w: World, parent: Id, child: Id, ghost rw: Volume, lower: seq<Volume>, pc: Id, undo1: seq<Undo>)
      returns (ok: bool, cc: Id, undo: seq<Undo>)
    requires e.Valid() && Freezing(w, parent, child) && parent in e.scope.branches && child in e.scope.branches
    requires rw == NextVolume(w, parent) && lower == Stack(w.layers, w.branches[parent]) && rw != w.branches[child].rw
    requires Staged(w, e.W(), {parent}, {rw}, undo1) && Staged(w, e.W(), {parent, child}, {rw, w.branches[child].rw}, undo1)
    requires forall u | u in undo1 :: UndoOk(e.W(), u, e.scope)
    requires pc in e.drv.conts && e.drv.conts[pc] == [rw] + lower && e.drv.conts.Keys == w.conts.Keys + {pc} && e.drv.answers(pc)
    requires parent in e.reg.branches && e.reg.branches[parent].container == Some(pc)
    requires forall j | Live(e.reg.branches, j) && j != parent :: e.reg.branches[j].container != Some(pc)
    requires rw in e.drv.vols && e.drv.vols[rw].files == Initial(w.vols, rw)
    modifies e.reg`branches, e.reg`journal, e.drv, e`hist
    ensures e.Valid() && old(e.hist) <= e.hist
    ensures Staged(w, e.W(), {parent, child}, {rw, w.branches[child].rw}, undo)
    ensures forall u | u in undo :: UndoOk(e.W(), u, e.scope)
    ensures ok ==> Prepared(w, e.W(), parent, child, rw, lower, pc, cc, e.hist, Plain(e, w, child))
    ensures e.drv.Flawless() ==> ok
  {
    hide Inv, Kept, Safe, UndoOk, Staged, Stack, Chain, Prepared, Born, NextVolume, Marked, Customized;
    ghost var w1, crw := e.W(), w.branches[child].rw;
    StagedRow(w, w1, {parent}, {rw}, undo1, parent);
    StagedRow(w, w1, {parent, child}, {rw, crw}, undo1, child);
    TouchBoth(e, parent, child, undo1);
    ghost var w2 := e.W();
    StagedRow(w1, w2, {parent, child}, {}, [], child);
    ok, cc, undo := StartChild(e, child, parent, lower, undo1);
    ghost var w3 := e.W();
    PrepareStaged(w, w1, w2, w3, parent, child, rw, crw, undo1, undo);
    if ok {
      ok := e.drv.Probe(pc);
      CustomizedLike(w3.sources, w2.branches[child], w.branches[child], w3.vols, w3.rotate);
      PrepareEnd(w, w1, w2, w3, parent, child, rw, lower, pc, cc, undo1, undo, e.hist, Plain(e, w, child));
    }
  }

  lemma CustomizedLike(sources: map<Id, Source>, a: Branch, b: Branch, vols: map<Volume, Disk>, rotate: bool)
    requires Customized(sources, a, vols, rotate) && Retouched(b, a)
    ensures Customized(sources, b, vols, rotate)
  {
  }

  lemma PrepareEnd(w: World, w1: World, w2: World, w3: World, parent: Id, child: Id, rw: Volume, lower: seq<Volume>, pc: Id, cc: Id,
                   undo1: seq<Undo>, undo: seq<Undo>, hist: seq<World>, plain: bool)
    requires Inv(w3) && Freezing(w, parent, child) && rw == NextVolume(w, parent) && lower == Stack(w.layers, w.branches[parent])
    requires Staged(w, w1, {parent}, {rw}, undo1) && Staged(w1, w2, {parent, child}, {}, [])
    requires undo1 <= undo && Staged(w2, w3, {child}, {w.branches[child].rw}, undo[|undo1|..])
    requires pc in w1.conts && w1.conts[pc] == [rw] + lower && w1.conts.Keys == w.conts.Keys + {pc}
    requires parent in w1.branches && w1.branches[parent].container == Some(pc)
    requires forall j | Live(w1.branches, j) && j != parent :: w1.branches[j].container != Some(pc)
    requires forall j | j in w1.branches :: j in w2.branches && w2.branches[j].container == w1.branches[j].container
    requires w3.conts.Keys == w2.conts.Keys + {cc} && child in w3.branches && w3.branches[child].container == Some(cc)
    requires forall j | Live(w3.branches, j) && j != child :: w3.branches[j].container != Some(cc)
    requires rw in w1.vols && rw != w.branches[child].rw && w1.vols[rw].files == Initial(w.vols, rw)
    requires var crw := w.branches[child].rw;
      && cc < w3.nextCid && cc in w3.conts && w3.conts[cc] == [crw] + lower && crw in w3.vols
      && (crw !in w2.vols ==> exists h | h in hist :: Born(h, w2.vols, crw, lower, cc))
      && (crw !in w2.vols && plain ==> w3.vols[crw].files == map[])
    requires w3.answers(pc) && w3.answers(cc) && Customized(w3.sources, w.branches[child], w3.vols, w3.rotate)
    ensures Prepared(w, w3, parent, child, rw, lower, pc, cc, hist, plain)
  {
    hide Inv, Staged, Stack, NextVolume, Born, Unclaimed, Prepared, Marked, Customized;
    var crw := w.branches[child].rw;
    StagedContent(w, w1, w2, w3, parent, child, rw, crw, undo1, undo);
    PrepareRows(w, w1, w2, w3, parent, child, rw, lower, pc, cc, undo1, undo);
    PrepareMarks(w, w1, w2, w3, parent, child, rw, undo1, undo);
    ContainerKnown(w3, pc);
    if rw !in w.vols && crw !in w.vols {
      StagedVolumes(w, w1, {parent}, {rw}, undo1);
      StagedVolumes(w1, w2, {parent, child}, {}, []);
      var h :| h in hist && Born(h, w2.vols, crw, lower, cc);
      BornEarlier(h, w.vols, w2.vols, crw, lower, cc);
    }
    PrepareDone(w, w3, parent, child, rw, lower, pc, cc, hist, plain);
  }

  /** What was done in the parent's first volume stays done: the saga writes into two
      other volumes only. */
  lemma PrepareMarks(w: World, w1: World, w2: World, w3: World, parent: Id, child: Id, rw: Volume, undo1: seq<Undo>, undo: seq<Undo>)
    requires Inv(w3) && Freezing(w, parent, child) && rw == NextVolume(w, parent) && child in w3.branches && parent in w3.branches
    requires Staged(w, w1, {parent}, {rw}, undo1) && Staged(w1, w2, {parent, child}, {}, [])
    requires undo1 <= undo && Staged(w2, w3, {child}, {w.branches[child].rw}, undo[|undo1|..])
    requires Retouched(w.branches[parent], w3.branches[parent]) && Retouched(w.branches[child], w3.branches[child])
    requires Live(w3.branches, parent) && Live(w3.branches, child)
    ensures Marked(w3.sources, w.branches[parent], w3.vols, w3.rotate)
  {
    hide Inv, Staged, Chain;
    NamesApart(w3, parent, child);
    StagedVolumes(w, w1, {parent}, {rw}, undo1);
    StagedVolumes(w1, w2, {parent, child}, {}, []);
    StagedVolumes(w2, w3, {child}, {w.branches[child].rw}, undo[|undo1|..]);
    assert RW(w.branches[parent].name, 1) != rw;
  }

  lemma NamesApart(w: World, i: Id, j: Id)
    requires Inv(w) && Live(w.branches, i) && Live(w.branches, j) && i != j
    ensures w.branches[i].name != w.branches[j].name && w.branches[j].rw.RW? && w.branches[j].rw.branch == w.branches[j].name
  {
    hide LayersOk, SourcesOk, PinsOk, VolumesOk, ContainersOk, ServedOk, GenerationOk, Rooted, Chain;
    assert BranchOk(w.sources, w.layers, w.branches[j]);
  }

  lemma WidenStaged(w: World, w1: World, ids: set<Id>, vs: set<Volume>, ids': set<Id>, vs': set<Volume>, undo: seq<Undo>)
    requires Staged(w, w1, ids, vs, undo) && ids <= ids' && vs <= vs'
    requires forall id | id in ids' && id in w.branches :: w.branches[id].state != Ready
    ensures Staged(w, w1, ids', vs', undo)
  {
  }

  lemma PrepareStaged(w: World, w1: World, w2: World, w3: World, parent: Id, child: Id, rw: Volume, crw: Volume, undo1: seq<Undo>, undo: seq<Undo>)
    requires Staged(w, w1, {parent, child}, {rw, crw}, undo1) && Staged(w1, w2, {parent, child}, {}, [])
    requires undo1 <= undo && Staged(w2, w3, {child}, {crw}, undo[|undo1|..])
    ensures Staged(w, w3, {parent, child}, {rw, crw}, undo)
  {
    hide Staged;
    assert undo1[|undo1|..] == [];
    StagedTrans(w, w1, w2, {parent, child}, {rw, crw}, undo1, {parent, child}, {}, undo1);
    assert {parent, child} + {parent, child} == {parent, child} && {rw, crw} + {} == {rw, crw};
    StagedTrans(w, w2, w3, {parent, child}, {rw, crw}, undo1, {child}, {crw}, undo);
    assert {parent, child} + {child} == {parent, child} && {rw, crw} + {crw} == {rw, crw};
  }

  lemma StagedVolumes(w: World, w1: World, ids: set<Id>, vs: set<Volume>, undo: seq<Undo>)
    requires Staged(w, w1, ids, vs, undo)
    ensures forall v | v in w.vols && v !in vs :: v in w1.vols && w1.vols[v] == w.vols[v]
    ensures w1.sources == w.sources && w1.rotate == w.rotate && w1.answers == w.answers
  {
    hide RowsStaged;
  }

  lemma BornEarlier(h: World, vols: map<Volume, Disk>, vols': map<Volume, Disk>, rw: Volume, lower: seq<Volume>, cid: Id)
    requires Born(h, vols', rw, lower, cid) && forall v | v in vols :: v in vols' && vols'[v] == vols[v]
    ensures Born(h, vols, rw, lower, cid)
  {
    forall v | v in lower
      ensures SameContent(vols, h.vols, v)
    {
      assert SameContent(vols', h.vols, v);
    }
  }

  lemma ContainerKnown(w: World, c: Id)
    requires Inv(w) && c in w.conts
    ensures c < w.nextCid
  {
  }

  /** The parent's fresh volume is not touched while the child is started, and
      the child's is not touched before. */
  lemma StagedContent(w: World, w1: World, w2: World, w3: World, parent: Id, child: Id, rw: Volume, crw: Volume, undo1: seq<Undo>, undo: seq<Undo>)
    requires Staged(w, w1, {parent}, {rw}, undo1) && Staged(w1, w2, {parent, child}, {}, [])
    requires undo1 <= undo && Staged(w2, w3, {child}, {crw}, undo[|undo1|..]) && rw != crw && rw in w1.vols
    ensures crw in w2.vols <==> crw in w.vols
    ensures rw in w3.vols && w3.vols[rw] == w1.vols[rw]
    ensures forall v | v in w.vols :: v in w3.vols
  {
  }

  /** The rows and containers as the commit will find them. */
  lemma PrepareRows(w: World, w1: World, w2: World, w3: World, parent: Id, child: Id, rw: Volume, lower: seq<Volume>, pc: Id, cc: Id, undo1: seq<Undo>, undo: seq<Undo>)
    requires Freezing(w, parent, child)
    requires Staged(w, w1, {parent}, {rw}, undo1) && Staged(w1, w2, {parent, child}, {}, [])
    requires undo1 <= undo && Staged(w2, w3, {child}, {w.branches[child].rw}, undo[|undo1|..])
    requires pc in w1.conts && w1.conts[pc] == [rw] + lower && w1.conts.Keys == w.conts.Keys + {pc}
    requires parent in w1.branches && w1.branches[parent].container == Some(pc)
    requires forall j | Live(w1.branches, j) && j != parent :: w1.branches[j].container != Some(pc)
    requires forall j | j in w1.branches :: j in w2.branches && w2.branches[j].container == w1.branches[j].container
    requires w3.conts.Keys == w2.conts.Keys + {cc} && child in w3.branches && w3.branches[child].container == Some(cc)
    requires forall j | Live(w3.branches, j) && j != child :: w3.branches[j].container != Some(cc)
    ensures w3.layers == w.layers && parent in w3.branches && Retouched(w.branches[parent], w3.branches[parent])
    ensures w3.branches[parent].state == Resetting && w3.branches[child].state == Creating
    ensures Retouched(w.branches[child], w3.branches[child])
    ensures pc in w3.conts && w3.conts[pc] == [rw] + lower && w3.conts.Keys == w.conts.Keys + {pc, cc} && pc != cc
    ensures Unclaimed(w3.branches, parent, Some(pc)) && Unclaimed(w3.branches, child, Some(cc))
  {
    PrepareTables(w.branches, w1.branches, w2.branches, w3.branches, parent, child, pc, cc) by {
      PrepareConts(w, w1, w2, w3, parent, child, rw, lower, pc, cc, undo1, undo);
    }
    PrepareConts(w, w1, w2, w3, parent, child, rw, lower, pc, cc, undo1, undo);
    hide RowsStaged;
  }

  lemma PrepareConts(w: World, w1: World, w2: World, w3: World, parent: Id, child: Id, rw: Volume, lower: seq<Volume>, pc: Id, cc: Id, undo1: seq<Undo>, undo: seq<Undo>)
    requires child in w.branches
    requires Staged(w, w1, {parent}, {rw}, undo1) && Staged(w1, w2, {parent, child}, {}, [])
    requires undo1 <= undo && Staged(w2, w3, {child}, {w.branches[child].rw}, undo[|undo1|..])
    requires pc in w1.conts && w1.conts[pc] == [rw] + lower && w1.conts.Keys == w.conts.Keys + {pc}
    requires w3.conts.Keys == w2.conts.Keys + {cc}
    requires parent in w1.branches && w1.branches[parent].container == Some(pc)
    requires forall j | j in w1.branches :: j in w2.branches && w2.branches[j].container == w1.branches[j].container
    requires forall j | Live(w3.branches, j) && j != child :: w3.branches[j].container != Some(cc)
    requires Live(w.branches, parent) && parent != child
    ensures w3.layers == w.layers
    ensures pc in w3.conts && w3.conts[pc] == [rw] + lower && w3.conts.Keys == w.conts.Keys + {pc, cc} && pc != cc
  {
    hide Staged;
    StagedNothing(w1, w2, {parent, child});
    StagedConts(w, w1, {parent}, {rw}, undo1);
    StagedConts(w1, w2, {parent, child}, {}, []);
    StagedConts(w2, w3, {child}, {w.branches[child].rw}, undo[|undo1|..]);
    StagedLive(w, w1, {parent}, {rw}, undo1, parent);
    StagedLive(w1, w2, {parent, child}, {}, [], parent);
    StagedLive(w2, w3, {child}, {w.branches[child].rw}, undo[|undo1|..], parent);
  }

  lemma StagedLive(w: World, w': World, ids: set<Id>, vs: set<Volume>, undo: seq<Undo>, id: Id)
    requires Staged(w, w', ids, vs, undo) && Live(w.branches, id)
    ensures Live(w'.branches, id) && (id !in ids ==> w'.branches[id] == w.branches[id])
  {
  }

  lemma StagedConts(w: World, w': World, ids: set<Id>, vs: set<Volume>, undo: seq<Undo>)
    requires Staged(w, w', ids, vs, undo)
    ensures w'.layers == w.layers && forall c | c in w.conts :: c in w'.conts && w'.conts[c] == w.conts[c]
  {
  }

  lemma StagedNothing(w: World, w1: World, ids: set<Id>)
    requires Staged(w, w1, ids, {}, [])
    ensures w1.conts == w.conts && w1.vols == w.vols
  {
    hide RowsStaged;
    assert w1.conts == w.conts;
    assert w1.vols == w.vols;
  }

  lemma PrepareTables(bs: map<Id, Branch>, bs1: map<Id, Branch>, bs2: map<Id, Branch>, bs3: map<Id, Branch>, parent: Id, child: Id, pc: Id, cc: Id)
    requires parent != child && Live(bs, parent) && Live(bs, child) && bs[parent].state == Resetting && bs[child].state == Creating
    requires RowsStaged(bs, bs1, {parent}) && RowsStaged(bs1, bs2, {parent, child}) && RowsStaged(bs2, bs3, {child})
    requires forall j | Live(bs1, j) && j != parent :: bs1[j].container != Some(pc)
    requires forall j | j in bs1 :: j in bs2 && bs2[j].container == bs1[j].container
    requires bs3[child].container == Some(cc) && pc != cc
    requires forall j | Live(bs3, j) && j != child :: bs3[j].container != Some(cc)
    ensures Retouched(bs[parent], bs3[parent]) && Retouched(bs[child], bs3[child])
    ensures bs3[parent].state == Resetting && bs3[child].state == Creating
    ensures Unclaimed(bs3, parent, Some(pc)) && Unclaimed(bs3, child, Some(cc))
  {
    forall j | Live(bs3, j) && j != parent
      ensures bs3[j].container != Some(pc)
    {
      assert Live(bs1, j);
    }
  }

  lemma PrepareDone(w: World, w3: World, parent: Id, child: Id, rw: Volume, lower: seq<Volume>, pc: Id, cc: Id, hist: seq<World>, plain: bool)
    requires Freezing(w, parent, child) && rw == NextVolume(w, parent) && lower == Stack(w.layers, w.branches[parent])
    requires w3.layers == w.layers && parent in w3.branches && Retouched(w.branches[parent], w3.branches[parent])
    requires child in w3.branches && Retouched(w.branches[child], w3.branches[child])
    requires w3.branches[parent].state == Resetting && w3.branches[child].state == Creating
    requires pc < w3.nextCid && pc in w3.conts && w3.conts[pc] == [rw] + lower && w3.conts.Keys == w.conts.Keys + {pc, cc} && pc != cc
    requires Unclaimed(w3.branches, parent, Some(pc)) && Unclaimed(w3.branches, child, Some(cc))
    requires w3.branches[child].container == Some(cc) && cc < w3.nextCid && cc in w3.conts
    requires var crw := w.branches[child].rw;
      && w3.conts[cc] == [crw] + lower && crw in w3.vols
      && (rw !in w.vols && crw !in w.vols ==> exists h | h in hist :: Born(h, w.vols, crw, lower, cc))
      && (crw !in w.vols && plain ==> w3.vols[crw].files == map[])
    requires rw in w3.vols && w3.vols[rw].files == Initial(w.vols, rw)
    requires forall v | v in w.vols :: v in w3.vols
    requires w3.answers(pc) && w3.answers(cc) && Customized(w3.sources, w.branches[child], w3.vols, w3.rotate)
    requires Marked(w3.sources, w.branches[parent], w3.vols, w3.rotate)
    ensures Prepared(w, w3, parent, child, rw, lower, pc, cc, hist, plain)
  {
    hide Born, Chain, Unclaimed;
  }

  /** A committed freeze: one new layer holding the parent's old volume, the
      parent ready on the fresh volume above it, the child ready on the layer. */
  ghost predicate Committed(w: World, w': World, parent: Id, child: Id, x: Id, rw: Volume, hist: seq<World>, plain: bool)
    requires parent in w.branches && child in w.branches
  {
    var p, c := w.branches[parent], w.branches[child];
    && w'.sources == w.sources && x !in w.layers
    && w'.layers == w.layers[x := Layer(p.source, p.rw, p.base)]
    && w'.branches.Keys == w.branches.Keys
    && (forall id | id in w.branches && id != parent && id != child :: w'.branches[id] == w.branches[id])
    && w'.branches[parent] == p.(rw := rw, base := Some(x), state := Ready,
                                 container := w'.branches[parent].container, updated := w'.branches[parent].updated)
    && w'.branches[child] == c.(base := Some(x), state := Ready,
                                container := w'.branches[child].container, updated := w'.branches[child].updated)
    && w'.branches[parent].container.Some? && w'.branches[child].container.Some?
    && w'.conts.Keys == w.conts.Keys - Own(p) + {w'.branches[parent].container.value, w'.branches[child].container.value}
    && w'.vols.Keys == w.vols.Keys + {rw, c.rw}
    && (forall v | v in w.vols && v != rw && v != c.rw :: w'.vols[v] == w.vols[v])
    && w'.vols[rw].files == Initial(w.vols, rw)
    && (rw !in w.vols && c.rw !in w.vols ==>
          exists h | h in hist :: Born(h, w.vols, c.rw, Stack(w.layers, p), w'.branches[child].container.value))
    && (c.rw !in w.vols && plain ==> w'.vols[c.rw].files == map[])
  }

  /** From the stopped parent, whose data is on disk, to the commit. */
  method FreezeBody(e: Engine, parent: Id, child: Id, rw: Volume, lower: seq<Volume>) returns (ok: bool, undo: seq<Undo>, ghost x: Id)
    requires e.Valid() && Freezing(e.W(), parent, child) && parent in e.scope.branches && child in e.scope.branches
    requires rw == NextVolume(e.W(), parent) && lower == Stack(e.reg.layers, e.reg.branches[parent])
    requires Own(e.reg.branches[parent]) <= e.drv.done.flushed
    modifies e.reg`branches, e.reg`journal, e.reg`layers, e.drv, e`hist
    ensures e.Valid() && old(e.hist) <= e.hist
    ensures ok ==> Committed(old(e.W()), e.W(), parent, child, x, rw, e.hist, old(Plain(e, e.W(), child)))
    ensures !ok ==> Staged(old(e.W()), e.W(), {parent, child}, {rw, old(e.reg.branches[child].rw)}, undo)
    ensures !ok ==> forall u | u in undo :: UndoOk(e.W(), u, e.scope)
    ensures e.drv.Flawless() && e.reg.freshIds ==> ok
  {
    hide Inv, Kept, Safe, UndoOk, Staged, Stack, Chain, Prepared, Committed, ReadyToFreeze, Born, Marked;
    ghost var w := e.W();
    x := 0;
    var pc, cc;
    ok, pc, cc, undo := Prepare(e, parent, child, rw, lower);
    if ok {
      ghost var w3, hist3 := e.W(), e.hist;
      StagedRow(w, w3, {parent, child}, {rw, w.branches[child].rw}, undo, parent);
      PreparedCommits(w, w3, parent, child, rw, lower, pc, cc, e.hist, old(Plain(e, e.W(), child)));
      var layer := e.CommitFreeze(parent, child, rw, pc);
      ok := layer.Some?;
      if ok {
        x := layer.value;
        ghost var w4 := e.W();
        PreparedMark(w, w3, w4, parent, child, x, rw, lower, pc, cc, undo, hist3, old(Plain(e, e.W(), child)), e.reg.clock);
        PreparedServed(w, w3, w4, parent, child, x, rw, lower, pc, cc, undo, hist3, old(Plain(e, e.W(), child)), e.reg.clock);
        e.MarkReady(child, cc);
        CommittedRows(w, w3, e.W(), parent, child, x, rw, lower, pc, cc, undo, hist3, e.hist, old(Plain(e, e.W(), child)), e.reg.clock);
      }
    }
  }

  lemma PreparedCommits(w: World, w3: World, parent: Id, child: Id, rw: Volume, lower: seq<Volume>, pc: Id, cc: Id, hist: seq<World>, plain: bool)
    requires child in w.branches && Prepared(w, w3, parent, child, rw, lower, pc, cc, hist, plain)
    ensures forall y: Id | y !in w3.layers :: ReadyToFreeze(w3, parent, child, y, rw, pc)
  {
  }

  /** After the commit the child's container runs on exactly the recorded stack. */
  lemma PreparedMark(w: World, w3: World, w4: World, parent: Id, child: Id, x: Id, rw: Volume, lower: seq<Volume>, pc: Id, cc: Id,
                     undo: seq<Undo>, hist: seq<World>, plain: bool, now: int)
    requires Inv(w3) && Freezing(w, parent, child) && lower == Stack(w.layers, w.branches[parent])
    requires Staged(w, w3, {parent, child}, {rw, w.branches[child].rw}, undo)
    requires Prepared(w, w3, parent, child, rw, lower, pc, cc, hist, plain) && x !in w3.layers
    requires parent in w3.branches
    requires w4 == w3.(layers := w3.layers[x := Layer(w3.branches[parent].source, w3.branches[parent].rw, w3.branches[parent].base)],
                       branches := FrozenRows(w3.branches, parent, child, x, rw, pc, now))
    ensures Live(w4.branches, child) && w4.branches[child].state == Creating
    ensures cc < w4.nextCid && Unclaimed(w4.branches, child, Some(cc))
    ensures w4.branches[child].rw in w4.vols
    ensures cc in w4.conts && w4.conts[cc] == Stack(w4.layers, w4.branches[child])
  {
    hide Inv, Chain, Born, ReadyToFreeze, HasChain;
    FreezeChain(w3, parent, x);
    assert Stack(w3.layers, w3.branches[parent]) == lower;
    var c := w4.branches[child];
    assert Base(w4.layers, c) == Chain(w4.layers, Some(x)) && c.srcVol == w3.branches[parent].srcVol;
    assert Stack(w4.layers, c) == [c.rw] + (VolsOf(w4.layers, Chain(w4.layers, Some(x))) + [c.srcVol]);
  }

  lemma PreparedServed(w: World, w3: World, w4: World, parent: Id, child: Id, x: Id, rw: Volume, lower: seq<Volume>, pc: Id, cc: Id,
                       undo: seq<Undo>, hist: seq<World>, plain: bool, now: int)
    requires Inv(w3) && Freezing(w, parent, child) && Staged(w, w3, {parent, child}, {rw, w.branches[child].rw}, undo)
    requires Prepared(w, w3, parent, child, rw, lower, pc, cc, hist, plain) && parent in w3.branches
    requires w4 == w3.(layers := w4.layers, branches := FrozenRows(w3.branches, parent, child, x, rw, pc, now))
    ensures child in w4.branches && w4.answers(cc) && Marked(w4.sources, w4.branches[child], w4.vols, w4.rotate)
  {
    hide Inv, Staged, Born, ReadyToFreeze, Chain;
    StagedRow(w, w3, {parent, child}, {rw, w.branches[child].rw}, undo, child);
    FirstVolume(w3, child);
  }

  /** A branch without frozen layers is on its first volume. */
  lemma FirstVolume(w: World, id: Id)
    requires Inv(w) && Live(w.branches, id)
    ensures w.branches[id].base.None? ==> w.branches[id].rw == RW(w.branches[id].name, 1)
  {
    hide LayersOk, SourcesOk, PinsOk, VolumesOk, ContainersOk, ServedOk, GenerationOk, Rooted, Chain;
    ChainEmpty(w.layers);
    assert BranchOk(w.sources, w.layers, w.branches[id]);
  }

  lemma CommittedRows(w: World, w3: World, w5: World, parent: Id, child: Id, x: Id, rw: Volume, lower: seq<Volume>, pc: Id, cc: Id,
                      undo: seq<Undo>, hist3: seq<World>, hist: seq<World>, plain: bool, now: int)
    requires Freezing(w, parent, child) && lower == Stack(w.layers, w.branches[parent])
    requires Staged(w, w3, {parent, child}, {rw, w.branches[child].rw}, undo)
    requires Prepared(w, w3, parent, child, rw, lower, pc, cc, hist3, plain) && x !in w3.layers && hist3 <= hist
    requires parent in w3.branches && child in w3.branches && child in w5.branches && parent in w5.branches
    requires w5 == w3.(layers := w3.layers[x := Layer(w3.branches[parent].source, w3.branches[parent].rw, w3.branches[parent].base)],
                       branches := FrozenRows(w3.branches, parent, child, x, rw, pc, now)[child := w5.branches[child]])
    requires w5.branches[child] == FrozenChild(w3.branches[child], x, now).(container := Some(cc), state := Ready, updated := now)
    ensures Committed(w, w5, parent, child, x, rw, hist, plain)
  {
    hide Chain, Born, Stack, Staged;
    CommittedVols(w, w3, parent, child, x, rw, lower, pc, cc, undo, hist3, plain);
    CommittedTable(w, w3, w5.branches, parent, child, x, rw, pc, cc, undo, now);
    hide ReadyToFreeze;
    assert forall h | h in hist3 :: h in hist;
  }

  lemma CommittedVols(w: World, w3: World, parent: Id, child: Id, x: Id, rw: Volume, lower: seq<Volume>, pc: Id, cc: Id,
                      undo: seq<Undo>, hist3: seq<World>, plain: bool)
    requires Freezing(w, parent, child)
    requires Staged(w, w3, {parent, child}, {rw, w.branches[child].rw}, undo)
    requires Prepared(w, w3, parent, child, rw, lower, pc, cc, hist3, plain) && x !in w3.layers
    ensures w3.layers == w.layers && w3.sources == w.sources
    ensures w3.vols.Keys == w.vols.Keys + {rw, w.branches[child].rw}
    ensures forall v | v in w.vols && v != rw && v != w.branches[child].rw :: w3.vols[v] == w.vols[v]
  {
    hide Chain, Born, Stack, RowsStaged;
    assert ReadyToFreeze(w3, parent, child, x, rw, pc);
  }

  lemma CommittedTable(w: World, w3: World, bs': map<Id, Branch>, parent: Id, child: Id, x: Id, rw: Volume, pc: Id, cc: Id, undo: seq<Undo>, now: int)
    requires Freezing(w, parent, child)
    requires Staged(w, w3, {parent, child}, {rw, w.branches[child].rw}, undo)
    requires parent in w3.branches && child in w3.branches && child in bs'
    requires bs' == FrozenRows(w3.branches, parent, child, x, rw, pc, now)[child := bs'[child]]
    requires bs'[child] == FrozenChild(w3.branches[child], x, now).(container := Some(cc), state := Ready, updated := now)
    ensures bs'.Keys == w.branches.Keys && bs'[parent].container == Some(pc) && bs'[child].container == Some(cc)
    ensures forall id | id in w.branches && id != parent && id != child :: bs'[id] == w.branches[id]
    ensures bs'[parent] == w.branches[parent].(rw := rw, base := Some(x), state := Ready, container := Some(pc), updated := now)
    ensures bs'[child] == w.branches[child].(base := Some(x), state := Ready, container := Some(cc), updated := now)
    ensures w3.branches[parent].source == w.branches[parent].source && w3.branches[parent].rw == w.branches[parent].rw
            && w3.branches[parent].base == w.branches[parent].base
  {
  }

  /** Back on its own volume and layers, or marked failed; never half way. */
  ghost predicate Restored(w: World, w': World, parent: Id, reliable: bool)
    requires parent in w.branches
  {
    && parent in w'.branches
    && w' == w.(branches := w.branches[parent := w'.branches[parent]], conts := w'.conts, nextCid := w'.nextCid)
    && Retouched(w.branches[parent], w'.branches[parent])
    && (w'.branches[parent].state == Ready || w'.branches[parent].state == Failed)
    && (reliable ==> forall c | c in w'.conts :: c in w.conts || w'.branches[parent].container == Some(c))
  }

  method RestoreParent(e: Engine, parent: Id, stack: seq<Volume>)
    requires e.Valid() && Live(e.reg.branches, parent) && parent in e.scope.branches && e.reg.branches[parent].state == Resetting
    requires e.reg.branches[parent].rw in e.drv.vols && stack == Stack(e.reg.layers, e.reg.branches[parent])
    requires Marked(e.reg.sources, e.reg.branches[parent], e.drv.vols, e.rotate)
    modifies e.reg`branches, e.reg`journal, e.drv`conts, e.drv`nextCid, e`hist
    ensures e.Valid() && old(e.hist) <= e.hist
    ensures Restored(old(e.W()), e.W(), parent, e.drv.reliable)
    ensures parent in e.reg.branches && (e.drv.Flawless() ==> e.reg.branches[parent].state == Ready)
  {
    hide Inv, Kept, Safe, Stack, Running;
    var started := e.Start(stack);
    if started.None? {
      var ok := e.Transition(parent, Failed);
    } else {
      AwaitRestored(e, parent, started.value);
    }
  }

  /** The restored container is owned before the wait; a wait that fails takes
      it down again. */
  method AwaitRestored(e: Engine, parent: Id, c: Id)
    requires e.Valid() && Live(e.reg.branches, parent) && parent in e.scope.branches && e.reg.branches[parent].state == Resetting
    requires e.reg.branches[parent].rw in e.drv.vols && Unclaimed(e.reg.branches, parent, Some(c)) && c < e.drv.nextCid
    requires c in e.drv.conts && e.drv.conts[c] == Stack(e.reg.layers, e.reg.branches[parent])
    requires Marked(e.reg.sources, e.reg.branches[parent], e.drv.vols, e.rotate)
    modifies e.reg`branches, e.reg`journal, e.drv`conts, e`hist
    ensures e.Valid() && old(e.hist) <= e.hist
    ensures
      var p := old(e.reg.branches[parent]);
      && parent in e.reg.branches && e.reg.branches == old(e.reg.branches)[parent := e.reg.branches[parent]]
      && Retouched(p, e.reg.branches[parent]) && e.reg.branches[parent].container == Some(c)
      && (e.reg.branches[parent].state == Ready || e.reg.branches[parent].state == Failed)
      && (e.drv.conts == old(e.drv.conts) || e.drv.conts == old(e.drv.conts) - {c})
      && (e.drv.Flawless() ==> e.reg.branches[parent].state == Ready)
  {
    hide AtMostOne, Inv, Kept, Safe, Chain, Running;
    e.SetContainer(parent, c);
    var ok := WaitReady(e, parent, c);
    if !ok {
      var stopped := e.Stop(c);
    } else {
      ok := e.drv.Probe(c);
    }
    if ok {
      e.MarkReady(parent, c);
    } else {
      ok := e.Transition(parent, Failed);
    }
  }

  /** A freeze that did not commit: no layer, the parent's volume, base and data
      as they were, the parent ready or failed; and if removals succeed nothing
      new is left behind. */
  ghost predicate RolledBack(w: World, w': World, parent: Id, child: Id, rw: Volume, reliable: bool)
    requires parent in w.branches && child in w.branches
  {
    var p, c := w.branches[parent], w.branches[child];
    && w'.sources == w.sources && w'.layers == w.layers && w'.branches.Keys == w.branches.Keys
    && (forall id | id in w.branches && id != parent && id != child :: w'.branches[id] == w.branches[id])
    && Retouched(p, w'.branches[parent]) && (w'.branches[parent].state == Ready || w'.branches[parent].state == Failed)
    && Retouched(c, w'.branches[child]) && (w'.branches[child].state == c.state || w'.branches[child].state == Failed)
    && (forall v | v in w.vols && v != rw && v != c.rw :: v in w'.vols && w'.vols[v] == w.vols[v])
    && w'.vols.Keys <= w.vols.Keys + {rw, c.rw}
    && (reliable ==> w'.vols.Keys <= w.vols.Keys)
    && (reliable ==> forall c | c in w'.conts :: w'.branches[parent].container == Some(c) || (c in w.conts && p.container != Some(c)))
  }

  /** A ready parent and the row its child was just given. */
  ghost predicate FreezeAsked(w: World, parent: Id, child: Id) {
    && parent != child && IsReady(w.branches, parent) && Live(w.branches, child)
    && var p, c := w.branches[parent], w.branches[child];
    && c.state == Creating && c.base.None? && c.source == p.source && c.srcVol == p.srcVol
  }

  /** The parent as it is once quiesced: resetting, its container gone. */
  ghost predicate Quiesced(w: World, w': World, parent: Id)
    requires parent in w.branches
  {
    && parent in w'.branches
    && w' == w.(branches := w.branches[parent := w'.branches[parent]], conts := w.conts - Own(w.branches[parent]))
    && Retouched(w.branches[parent], w'.branches[parent]) && w'.branches[parent].state == Resetting
    && w'.branches[parent].container == w.branches[parent].container
  }

  /** CHECKPOINT, then stop the parent. A failed checkpoint leaves it ready and
      running; a failed stop leaves it failed. */
  method Quiesce(e: Engine, parent: Id, ghost child: Id) returns (ok: bool)
    requires e.Valid() && parent in e.scope.branches && FreezeAsked(e.W(), parent, child)
    modifies e.reg`branches, e.reg`journal, e.drv`conts, e.drv`done, e`hist
    ensures e.Valid() && old(e.hist) <= e.hist
    ensures ok ==> Own(old(e.reg.branches[parent])) <= e.drv.done.flushed
    ensures ok ==> Quiesced(old(e.W()), e.W(), parent)
    ensures !ok ==> RolledBack(old(e.W()), e.W(), parent, child, old(NextVolume(e.W(), parent)), e.drv.reliable)
    ensures child in e.reg.branches && e.reg.branches[child].state == Creating
    ensures e.drv.Flawless() ==> ok
    ensures !ok && e.drv.reliable ==> parent in e.reg.branches && e.reg.branches[parent].state == Ready && e.drv.conts == old(e.drv.conts)
  {
    hide Inv, Kept, Safe, Chain, RolledBack, Running;
    ghost var w := e.W();
    ReadyFacts(w, parent);
    RunningFacts(w.layers, w.conts, w.branches[parent]);
    var c := e.reg.branches[parent].container.value;
    ok := e.Transition(parent, Resetting);
    ok := e.drv.Checkpoint(c);
    if !ok {
      assert Running(e.reg.layers, e.drv.conts, e.reg.branches[parent]) by { SameRunning(w.layers, w.conts, w.branches[parent], e.reg.branches[parent]); }
      var back := e.Transition(parent, Ready);
      NotQuiesced(w, e.W(), parent, child, e.drv.reliable);
    } else {
      ok := StopParent(e, parent, child, c, w);
    }
  }

  method StopParent(e: Engine, parent: Id, ghost child: Id, c: Id, ghost w: World) returns (ok: bool)
    requires e.Valid() && parent in e.scope.branches && FreezeAsked(w, parent, child) && w.branches[parent].container == Some(c)
    requires parent in e.reg.branches && e.reg.branches[parent].state == Resetting && e.reg.branches[parent].container == Some(c)
    requires Retouched(w.branches[parent], e.reg.branches[parent]) && e.W() == w.(branches := w.branches[parent := e.reg.branches[parent]])
    modifies e.reg`branches, e.reg`journal, e.drv`conts, e`hist
    ensures e.Valid() && old(e.hist) <= e.hist && (e.drv.reliable ==> ok)
    ensures ok ==> Quiesced(w, e.W(), parent)
    ensures !ok ==> RolledBack(w, e.W(), parent, child, NextVolume(w, parent), e.drv.reliable)
    ensures child in e.reg.branches && e.reg.branches[child].state == Creating
  {
    hide AtMostOne, Inv, Kept, Safe, Chain, RolledBack, Running;
    LiveContainer(e.W(), parent);
    ok := e.Stop(c);
    if !ok {
      var failed := e.Transition(parent, Failed);
      NotQuiesced(w, e.W(), parent, child, e.drv.reliable);
    }
  }

  lemma RunningFacts(ls: map<Id, Layer>, conts: map<Id, seq<Volume>>, b: Branch)
    requires Running(ls, conts, b)
    ensures b.container.Some?
  {
  }

  lemma SameRunning(ls: map<Id, Layer>, conts: map<Id, seq<Volume>>, a: Branch, b: Branch)
    requires Running(ls, conts, a) && Retouched(a, b) && b.container == a.container
    ensures Running(ls, conts, b)
  {
  }

  lemma NotQuiesced(w: World, w': World, parent: Id, child: Id, reliable: bool)
    requires FreezeAsked(w, parent, child) && parent in w'.branches
    requires w' == w.(branches := w.branches[parent := w'.branches[parent]], conts := w'.conts)
    requires Retouched(w.branches[parent], w'.branches[parent]) && w'.branches[parent].container == w.branches[parent].container
    requires w'.branches[parent].state == Ready || w'.branches[parent].state == Failed
    requires w'.conts.Keys <= w.conts.Keys
    ensures RolledBack(w, w', parent, child, NextVolume(w, parent), reliable)
  {
    hide NextVolume;
  }

  lemma ReadyFacts(w: World, id: Id)
    requires Inv(w) && IsReady(w.branches, id)
    ensures w.branches[id].rw in w.vols && Running(w.layers, w.conts, w.branches[id]) && Served(w, w.branches[id])
  {
    hide LayersOk, BranchesOk, SourcesOk, PinsOk, Running;
  }

  /** The whole saga over the overlay backend. */
  method FreezeAndProvision(e: Engine, child: Id, parent: Id) returns (ok: bool, ghost x: Id)
    requires e.Valid() && parent in e.scope.branches && child in e.scope.branches && FreezeAsked(e.W(), parent, child)
    modifies e.reg`branches, e.reg`journal, e.reg`layers, e.drv, e`hist
    ensures e.Valid() && old(e.hist) <= e.hist
    ensures
      var w, rw := old(e.W()), old(NextVolume(e.W(), parent));
      if ok then Committed(w, e.W(), parent, child, x, rw, e.hist, old(Plain(e, e.W(), child)))
      else RolledBack(w, e.W(), parent, child, rw, e.drv.reliable)
           && child in e.reg.branches && e.reg.branches[child].state == Creating
    ensures e.drv.Flawless() && e.reg.freshIds ==> ok
    ensures e.drv.Flawless() ==> parent in e.reg.branches && e.reg.branches[parent].state == Ready
  {
    hide Inv, Kept, Safe, Chain, Running, HasChain, BranchOk, PinOk, BelowExists, GenerationOk, Staged, Undone, UndoOk, Committed, RolledBack, Restored;
    ghost var w := e.W();
    var p := e.reg.branches[parent];
    x := 0;
    LiveRow(w, parent);
    ReadyFacts(w, parent);
    var chain, vols := e.LayerChain(parent);
    var lower := [p.rw] + vols + [p.srcVol];
    var rw := RW(p.name, |chain| + 2);
    ok := Quiesce(e, parent, child);
    if !ok {
      return;
    }
    ghost var w1 := e.W();
    var undo;
    ok, undo, x := FreezeBody(e, parent, child, rw, lower);
    if ok {
      CommittedReady(w1, e.W(), parent, child, x, rw, e.hist, old(Plain(e, e.W(), child)));
      CommittedFrom(w, w1, e.W(), parent, child, x, rw, e.hist, old(Plain(e, e.W(), child)));
    } else {
      RollBack(e, w, w1, parent, child, rw, lower, undo);
    }
  }

  /** The failure path: the compensations, then the parent on its original stack. */
  method RollBack(e: Engine, ghost w: World, ghost w1: World, parent: Id, ghost child: Id, ghost rw: Volume, lower: seq<Volume>, undo: seq<Undo>)
    requires Inv(w) && FreezeAsked(w, parent, child) && Quiesced(w, w1, parent)
    requires rw == NextVolume(w, parent) && lower == Stack(w.layers, w.branches[parent])
    requires e.Valid() && parent in e.scope.branches && forall u | u in undo :: UndoOk(e.W(), u, e.scope)
    requires Staged(w1, e.W(), {parent, child}, {rw, w.branches[child].rw}, undo)
    modifies e.reg`branches, e.reg`journal, e.drv, e`hist
    ensures e.Valid() && old(e.hist) <= e.hist
    ensures RolledBack(w, e.W(), parent, child, rw, e.drv.reliable)
    ensures child in e.reg.branches && e.reg.branches[child].state == Creating
    ensures e.drv.Flawless() ==> parent in e.reg.branches && e.reg.branches[parent].state == Ready
  {
    hide Inv, Kept, Safe, Chain, Running, Staged, Undone, UndoOk, RolledBack, Restored, Quiesced;
    ghost var w2 := e.W();
    RunUndo(e, undo);
    ghost var w3 := e.W();
    UndoneState(w, w1, w2, w3, parent, child, rw, undo, e.scope, e.drv.reliable);
    RestoreParent(e, parent, lower);
    RolledBackFrom(w, w1, w2, w3, e.W(), parent, child, rw, undo, e.drv.reliable);
  }

  /** The parent as the compensations leave it. */
  lemma UndoneState(w: World, w1: World, w2: World, w3: World, parent: Id, child: Id, rw: Volume, undo: seq<Undo>, scope: Scope, reliable: bool)
    requires Inv(w) && FreezeAsked(w, parent, child) && Quiesced(w, w1, parent) && rw == NextVolume(w, parent)
    requires Staged(w1, w2, {parent, child}, {rw, w.branches[child].rw}, undo) && Undone(w2, w3, undo, reliable)
    ensures Live(w3.branches, parent) && w3.branches[parent].state == Resetting && w3.branches[parent].rw in w3.vols
    ensures Stack(w3.layers, w3.branches[parent]) == Stack(w.layers, w.branches[parent])
    ensures Marked(w3.sources, w3.branches[parent], w3.vols, w3.rotate)
  {
    hide Inv, Staged, Undone, Quiesced, Chain, Running, NextVolume, Marked;
    FreshElsewhere(w, parent, scope);
    OthersVolume(w, parent, child);
    ReadyFacts(w, parent);
    UndonePart(w, w1, w2, w3, parent, child, rw, undo, reliable);
    UndoneMarks(w, w1, w2, w3, parent, child, rw, undo, reliable);
  }

  lemma FreshElsewhere(w: World, parent: Id, scope: Scope)
    requires Inv(w) && Live(w.branches, parent)
    ensures w.branches[parent].rw != NextVolume(w, parent)
  {
    hide Inv, Chain, Unneeded, Private;
    NextVolumeFresh(w, parent, scope);
  }

  lemma OthersVolume(w: World, i: Id, j: Id)
    requires Inv(w) && Live(w.branches, i) && Live(w.branches, j) && i != j
    ensures w.branches[i].rw != w.branches[j].rw
  {
    LiveRow(w, i);
    LiveRow(w, j);
  }

  lemma CommittedReady(w: World, w': World, parent: Id, child: Id, x: Id, rw: Volume, hist: seq<World>, plain: bool)
    requires parent in w.branches && child in w.branches && Committed(w, w', parent, child, x, rw, hist, plain)
    ensures parent in w'.branches && w'.branches[parent].state == Ready
  {
    hide Born, Stack;
  }

  lemma CommittedFrom(w: World, w1: World, w2: World, parent: Id, child: Id, x: Id, rw: Volume, hist: seq<World>, plain: bool)
    requires FreezeAsked(w, parent, child) && Quiesced(w, w1, parent)
    requires parent in w1.branches && child in w1.branches && Committed(w1, w2, parent, child, x, rw, hist, plain)
    ensures Committed(w, w2, parent, child, x, rw, hist, plain)
  {
    hide Chain, Born;
    assert w1.conts.Keys - Own(w1.branches[parent]) == w.conts.Keys - Own(w.branches[parent]);
  }

  /** After the compensations the parent's own volume is still there. */
  lemma UndonePart(w: World, w1: World, w2: World, w3: World, parent: Id, child: Id, rw: Volume, undo: seq<Undo>, reliable: bool)
    requires FreezeAsked(w, parent, child) && Quiesced(w, w1, parent)
    requires Staged(w1, w2, {parent, child}, {rw, w.branches[child].rw}, undo) && Undone(w2, w3, undo, reliable)
    requires w.branches[parent].rw in w.vols && w.branches[parent].rw != rw && w.branches[parent].rw != w.branches[child].rw
    ensures Live(w3.branches, parent) && w3.branches[parent].state == Resetting && Retouched(w.branches[parent], w3.branches[parent])
    ensures w3.layers == w.layers && w.branches[parent].rw in w3.vols
  {
  }

  /** And what was done in its first volume is still done. */
  lemma UndoneMarks(w: World, w1: World, w2: World, w3: World, parent: Id, child: Id, rw: Volume, undo: seq<Undo>, reliable: bool)
    requires Inv(w) && FreezeAsked(w, parent, child) && Quiesced(w, w1, parent) && rw == NextVolume(w, parent)
    requires Staged(w1, w2, {parent, child}, {rw, w.branches[child].rw}, undo) && Undone(w2, w3, undo, reliable)
    ensures parent in w3.branches && Marked(w3.sources, w3.branches[parent], w3.vols, w3.rotate)
  {
    hide Inv, Staged, Undone, Chain, Running;
    NamesApart(w, parent, child);
    ReadyFacts(w, parent);
    RolledBackVols(w1, w2, w3, rw, w.branches[child].rw, undo, reliable, {parent, child});
    StagedVolumes(w1, w2, {parent, child}, {rw, w.branches[child].rw}, undo);
    StagedRow(w1, w2, {parent, child}, {rw, w.branches[child].rw}, undo, parent);
    UndoneConstants(w2, w3, undo, reliable);
    assert RW(w.branches[parent].name, 1) != rw;
  }

  lemma UndoneConstants(w: World, w': World, undo: seq<Undo>, reliable: bool)
    requires Undone(w, w', undo, reliable)
    ensures w'.rotate == w.rotate && w'.answers == w.answers && w'.branches == w.branches
  {
  }

  lemma RolledBackFrom(w: World, w1: World, w2: World, w3: World, w4: World, parent: Id, child: Id, rw: Volume, undo: seq<Undo>, reliable: bool)
    requires FreezeAsked(w, parent, child) && Quiesced(w, w1, parent)
    requires Staged(w1, w2, {parent, child}, {rw, w.branches[child].rw}, undo) && Undone(w2, w3, undo, reliable)
    requires parent in w3.branches && Restored(w3, w4, parent, reliable)
    ensures RolledBack(w, w4, parent, child, rw, reliable)
    ensures child in w4.branches && w4.branches[child].state == Creating
  {
    RolledBackRows(w.branches, w1.branches, w2.branches, w4.branches, parent, child);
    RolledBackVols(w1, w2, w3, rw, w.branches[child].rw, undo, reliable, {parent, child});
    hide Staged, Undone;
  }

  lemma RolledBackRows(bs: map<Id, Branch>, bs1: map<Id, Branch>, bs2: map<Id, Branch>, bs4: map<Id, Branch>, parent: Id, child: Id)
    requires parent != child && parent in bs && child in bs && parent in bs1 && parent in bs2 && parent in bs4
    requires bs1 == bs[parent := bs1[parent]] && Retouched(bs[parent], bs1[parent])
    requires RowsStaged(bs1, bs2, {parent, child})
    requires bs4 == bs2[parent := bs4[parent]] && Retouched(bs2[parent], bs4[parent])
    ensures bs4.Keys == bs.Keys && Retouched(bs[parent], bs4[parent])
    ensures Retouched(bs[child], bs4[child]) && bs4[child].state == bs[child].state
    ensures forall id | id in bs && id != parent && id != child :: bs4[id] == bs[id]
  {
  }

  /** Whatever was staged and then undone is back to what it was. */
  lemma RolledBackVols(w1: World, w2: World, w3: World, rw: Volume, crw: Volume, undo: seq<Undo>, reliable: bool, ids: set<Id>)
    requires Staged(w1, w2, ids, {rw, crw}, undo) && Undone(w2, w3, undo, reliable)
    ensures w3.sources == w1.sources && w3.layers == w1.layers && w3.branches == w2.branches
    ensures forall v | v in w1.vols && v != rw && v != crw :: v in w3.vols && w3.vols[v] == w1.vols[v]
    ensures w3.vols.Keys <= w1.vols.Keys + {rw, crw}
    ensures reliable ==> w3.vols.Keys <= w1.vols.Keys && w3.conts.Keys <= w1.conts.Keys
    ensures RowsStaged(w1.branches, w2.branches, ids)
  {
    hide RowsStaged;
  }

  // ------------------------------------------------------------------ meaning

  /** One more volume on top of an unchanged stack. */
  lemma OnTop(vols: map<Volume, Disk>, vols': map<Volume, Disk>, rw: Volume, lower: seq<Volume>)
    requires rw in vols' && forall v | v in lower :: v in vols && v in vols' && vols'[v] == vols[v]
    ensures Merged(Contents(vols', [rw] + lower)) == Over(vols'[rw].files, Merged(Contents(vols, lower)))
  {
    assert Contents(vols', [rw] + lower) == [vols'[rw].files] + Contents(vols, lower);
    assert ([vols'[rw].files] + Contents(vols, lower))[1..] == Contents(vols, lower);
  }

  lemma EmptyOnTop(vols: map<Volume, Disk>, vols': map<Volume, Disk>, rw: Volume, lower: seq<Volume>)
    requires rw in vols' && vols'[rw].files == map[] && forall v | v in lower :: v in vols && v in vols' && vols'[v] == vols[v]
    ensures Merged(Contents(vols', [rw] + lower)) == Merged(Contents(vols, lower))
  {
    OnTop(vols, vols', rw, lower);
    assert Over(map[], Merged(Contents(vols, lower))) == Merged(Contents(vols, lower));
  }

  lemma StackExists(w: World, id: Id)
    requires Inv(w) && IsReady(w.branches, id)
    ensures forall v | v in Stack(w.layers, w.branches[id]) :: v in w.vols && Uses(w.layers, w.branches[id], v)
  {
    hide Inv, Uses, Stack;
    ReadyHasVolumes(w, id);
    var stack := Stack(w.layers, w.branches[id]);
    forall v | v in stack
      ensures Uses(w.layers, w.branches[id], v)
    {
      var i :| 0 <= i < |stack| && stack[i] == v;
      StackUses(w.layers, w.branches[id], i);
    }
  }

  /** The fresh volumes are in nobody's stack, so not in the parent's. */
  lemma FreshNotInStack(w: World, parent: Id, child: Id)
    requires Inv(w) && FreezeAsked(w, parent, child)
    ensures var stack := Stack(w.layers, w.branches[parent]);
            NextVolume(w, parent) !in stack && w.branches[child].rw !in stack
  {
    hide Inv, Stack;
    StackExists(w, parent);
    NextVolumeFresh(w, parent, Scope({}, {}));
    OwnVolume(w, child, Scope({child}, {}));
    hide Uses;
  }

  /** What the parent shows after a freeze: its old tree, seen through whatever
      was already in the volume it was moved onto. */
  lemma FreezeParentView(w: World, w': World, parent: Id, child: Id, x: Id, hist: seq<World>, plain: bool)
    requires Inv(w) && FreezeAsked(w, parent, child)
    requires Committed(w, w', parent, child, x, NextVolume(w, parent), hist, plain)
    ensures View(w', parent) == Over(Initial(w.vols, NextVolume(w, parent)), View(w, parent))
  {
    hide Inv, Chain, Born;
    var rw, lower := NextVolume(w, parent), Stack(w.layers, w.branches[parent]);
    FreezeChain(w, parent, x);
    StackExists(w, parent);
    FreshNotInStack(w, parent, child);
    assert Stack(w'.layers, w'.branches[parent]) == [rw] + lower;
    hide Stack, NextVolume;
    OnTop(w.vols, w'.vols, rw, lower);
  }

  /** And what a reset of either branch returns it to: the tree the parent showed
      when it was frozen. */
  lemma FreezeGround(w: World, w': World, parent: Id, child: Id, x: Id, hist: seq<World>, plain: bool)
    requires Inv(w) && FreezeAsked(w, parent, child)
    requires Committed(w, w', parent, child, x, NextVolume(w, parent), hist, plain)
    ensures parent in w'.branches && child in w'.branches
    ensures Ground(w', parent) == View(w, parent) && Ground(w', child) == View(w, parent)
    ensures w'.branches[parent].base != w.branches[parent].base
  {
    hide Inv, Chain, Born;
    var rw, lower := NextVolume(w, parent), Stack(w.layers, w.branches[parent]);
    FreezeChain(w, parent, x);
    StackExists(w, parent);
    FreshNotInStack(w, parent, child);
    assert Stack(w'.layers, w'.branches[parent]) == [rw] + lower && Stack(w'.layers, w'.branches[child]) == [w.branches[child].rw] + lower;
    assert ([rw] + lower)[1..] == lower && ([w.branches[child].rw] + lower)[1..] == lower;
    LiveRow(w, parent);
    hide Stack, NextVolume;
    assert Contents(w'.vols, lower) == Contents(w.vols, lower);
  }

  /** A volume shadows a tree when it mentions a path the tree has otherwise. */
  ghost predicate Shadows(top: Content, tree: map<Path, string>) {
    exists p :: p in top && (if top[p].File? then !(p in tree && tree[p] == top[p].data) else p in tree)
  }

  lemma OverShadows(top: Content, tree: map<Path, string>)
    ensures Over(top, tree) == tree <==> !Shadows(top, tree)
  {
    if !Shadows(top, tree) {
      assert Over(top, tree) == tree;
    } else {
      var p :| p in top && (if top[p].File? then !(p in tree && tree[p] == top[p].data) else p in tree);
      assert p in Over(top, tree) <==> top[p].File?;
    }
  }

  /** So a freeze is invisible to the parent exactly when no leftover volume of
      the next generation's name shadows it; in particular when there is none. */
  lemma FreezeKeepsParentView(w: World, w': World, parent: Id, child: Id, x: Id, hist: seq<World>, plain: bool)
    requires Inv(w) && FreezeAsked(w, parent, child)
    requires Committed(w, w', parent, child, x, NextVolume(w, parent), hist, plain)
    ensures View(w', parent) == View(w, parent) <==> !Shadows(Initial(w.vols, NextVolume(w, parent)), View(w, parent))
    ensures NextVolume(w, parent) !in w.vols ==> View(w', parent) == View(w, parent)
  {
    hide Inv, Committed, View, NextVolume;
    FreezeParentView(w, w', parent, child, x, hist, plain);
    OverShadows(Initial(w.vols, NextVolume(w, parent)), View(w, parent));
  }

  /** The child of a freeze is born with exactly the tree its parent showed:
      there is a moment, before masking, at which its container serves it. */
  lemma ChildBornWithParentView(w: World, w': World, parent: Id, child: Id, x: Id, hist: seq<World>, plain: bool)
    requires Inv(w) && FreezeAsked(w, parent, child)
    requires Committed(w, w', parent, child, x, NextVolume(w, parent), hist, plain)
    requires NextVolume(w, parent) !in w.vols && w.branches[child].rw !in w.vols
    ensures var cid := w'.branches[child].container.value;
            exists h | h in hist :: cid in h.conts && Merged(Contents(h.vols, h.conts[cid])) == View(w, parent)
  {
    hide Inv, Chain, Stack;
    var lower, cid := Stack(w.layers, w.branches[parent]), w'.branches[child].container.value;
    StackExists(w, parent);
    var h :| h in hist && Born(h, w.vols, w.branches[child].rw, lower, cid);
    EmptyOnTop(w.vols, h.vols, w.branches[child].rw, lower);
  }

  /** Without masking and without a password of its own the child still shows
      that tree when it is handed out. */
  lemma PlainChildView(w: World, w': World, parent: Id, child: Id, x: Id, hist: seq<World>)
    requires Inv(w) && FreezeAsked(w, parent, child)
    requires Committed(w, w', parent, child, x, NextVolume(w, parent), hist, true)
    requires w.branches[child].rw !in w.vols
    ensures View(w', child) == View(w, parent)
  {
    hide Inv, Chain, Born;
    var lower := Stack(w.layers, w.branches[parent]);
    FreezeChain(w, parent, x);
    StackExists(w, parent);
    FreshNotInStack(w, parent, child);
    assert Stack(w'.layers, w'.branches[child]) == [w.branches[child].rw] + lower;
    hide Stack, NextVolume;
    EmptyOnTop(w.vols, w'.vols, w.branches[child].rw, lower);
  }

  /** A rolled-back freeze whose parent is ready again shows the same tree. */
  lemma RollbackKeepsParentView(w: World, w': World, parent: Id, child: Id, reliable: bool)
    requires Inv(w) && FreezeAsked(w, parent, child)
    requires RolledBack(w, w', parent, child, NextVolume(w, parent), reliable)
    ensures View(w', parent) == View(w, parent) && Ground(w', parent) == Ground(w, parent)
    ensures w.branches[parent].rw in w.vols && w.branches[parent].rw in w'.vols
            && w'.vols[w.branches[parent].rw] == w.vols[w.branches[parent].rw]
  {
    hide Inv, Chain;
    var stack := Stack(w.layers, w.branches[parent]);
    StackExists(w, parent);
    FreshNotInStack(w, parent, child);
    assert stack[0] == w.branches[parent].rw;
    assert Stack(w'.layers, w'.branches[parent]) == stack;
    hide Stack, NextVolume;
    assert Contents(w'.vols, stack) == Contents(w.vols, stack);
    assert Contents(w'.vols, stack[1..]) == Contents(w.vols, stack[1..]);
  }
}
