/** The csi backend: a branch runs directly on a volume cloned from its base.
    Cloning a live parent's volume stops the parent for the duration. */
module Csi {
  import opened Options
  import opened BranchStates
  import opened Names
  import opened Worlds
  import opened Steps
  import opened Registry
  import opened Driver
  import opened Saga
  import opened Leftovers

  /** A branch that serves clients runs a container on its own volume alone. */
  ghost predicate Serving(w: World, b: Branch) {
    b.rw in w.vols && b.container.Some? && b.container.value in w.conts && w.conts[b.container.value] == [b.rw]
  }

  /** A live row names its own volume and the volume it was cloned from; the
      container it records runs on its own volume or is gone; it is ready only
      while it serves, masked and with its password changed. */
  ghost predicate CsiRow(w: World, b: Branch) {
    && ValidName(b.name) && b.rw == RW(b.name, 1) && b.srcVol != b.rw && b.source in w.sources
    && (b.srcVol.SRC? || b.srcVol == RW(b.parentName, 1))
    && (b.container.Some? ==> b.container.value < w.nextCid)
    && (b.container.Some? && b.container.value in w.conts ==> w.conts[b.container.value] == [b.rw])
    && (b.state == Ready ==> Serving(w, b) && Served(w, b))
  }

  ghost predicate Apart(a: Branch, b: Branch) {
    a.name != b.name && (a.container.Some? ==> a.container != b.container)
  }

  ghost predicate CsiOk(w: World) {
    && (forall c | c in w.conts :: c < w.nextCid)
    && (forall j | Live(w.branches, j) :: CsiRow(w, w.branches[j]))
    && (forall i, j | Live(w.branches, i) && Live(w.branches, j) && i != j :: Apart(w.branches[i], w.branches[j]))
  }

  /** A branch's recorded container, if any. */
  function Own(b: Branch): set<Id> {
    if b.container.Some? then {b.container.value} else {}
  }

  /** No container a live branch records is mounted from the volume. */
  ghost predicate Idle(w: World, v: Volume) {
    forall c | c in w.conts && v in w.conts[c] :: !Claimed(w.branches, c)
  }

  /** Every container is one that a live branch records. */
  ghost predicate Sole(w: World) {
    forall c | c in w.conts :: Claimed(w.branches, c)
  }

  /** Then the only container on a live branch's volume is the recorded one. */
  lemma SoleServes(w: World, j: Id, c: Id)
    requires CsiOk(w) && Sole(w) && Live(w.branches, j) && c in w.conts && w.branches[j].rw in w.conts[c]
    ensures w.branches[j].container == Some(c)
  {
    var k :| Live(w.branches, k) && w.branches[k].container == Some(c);
    OwnRow(w, k);
  }

  /** A ready branch runs alone on its own volume, in which the mask scripts of its
      source and its password change have been completed, and answers. */
  lemma CsiReady(w: World, j: Id)
    requires CsiOk(w) && IsReady(w.branches, j)
    ensures
      var b, v := w.branches[j], RW(w.branches[j].name, 1);
      && b.container.Some? && b.container.value in w.conts && w.conts[b.container.value] == [v] && v in w.vols
      && b.source in w.sources && (w.sources[b.source].masked ==> w.vols[v].masked) && (w.rotate ==> w.vols[v].rotated)
      && w.answers(b.container.value)
      && (Sole(w) ==> forall c | c in w.conts && v in w.conts[c] :: b.container == Some(c))
  {
    ReadyServes(w, j);
    OwnRow(w, j);
    if Sole(w) {
      forall c | c in w.conts && RW(w.branches[j].name, 1) in w.conts[c]
        ensures w.branches[j].container == Some(c)
      {
        SoleServes(w, j, c);
      }
    }
  }

  /** And a volume that is idle is mounted by nobody. */
  lemma IdleUnmounted(w: World, v: Volume)
    requires Sole(w) && Idle(w, v)
    ensures forall c | c in w.conts :: v !in w.conts[c]
  {
  }

  // ------------------------------------------------------------ single steps

  /** Rewriting the mutable columns of one row. */
  lemma RowChange(w: World, w': World, id: Id)
    requires CsiOk(w) && Live(w.branches, id) && id in w'.branches
    requires w' == w.(branches := w.branches[id := w'.branches[id]])
    requires Retouched(w.branches[id], w'.branches[id]) && CsiRow(w', w'.branches[id])
    requires w'.branches[id].container == w.branches[id].container
             || (w'.branches[id].container.Some? && Unclaimed(w.branches, id, w'.branches[id].container))
    ensures CsiOk(w')
  {
    forall i, j | Live(w'.branches, i) && Live(w'.branches, j) && i != j
      ensures Apart(w'.branches[i], w'.branches[j])
    {
      assert Live(w.branches, i) && Live(w.branches, j);
      assert Apart(w.branches[i], w.branches[j]) && Apart(w.branches[j], w.branches[i]);
    }
    forall j | Live(w'.branches, j)
      ensures CsiRow(w', w'.branches[j])
    {
      assert Live(w.branches, j);
    }
  }

  /** What has been done in a volume stays done. */
  ghost predicate MarksKept(vols: map<Volume, Disk>, vols': map<Volume, Disk>, v: Volume) {
    v in vols ==> v in vols' && (vols[v].masked ==> vols'[v].masked) && (vols[v].rotated ==> vols'[v].rotated)
  }

  /** Ready branches keep their volumes and containers; new containers have new
      numbers. */
  lemma DriverChange(w: World, w': World)
    requires CsiOk(w) && w' == w.(vols := w'.vols, conts := w'.conts, nextCid := w'.nextCid) && w.nextCid <= w'.nextCid
    requires forall j | IsReady(w.branches, j) :: MarksKept(w.vols, w'.vols, w.branches[j].rw)
    requires forall c | c in w'.conts :: c < w'.nextCid && (c < w.nextCid ==> c in w.conts && w'.conts[c] == w.conts[c])
    requires forall j | IsReady(w.branches, j) && w.branches[j].container.Some? :: w.branches[j].container.value in w'.conts
    ensures CsiOk(w')
  {
    forall j | Live(w'.branches, j)
      ensures CsiRow(w', w'.branches[j])
    {
      assert Live(w.branches, j) && CsiRow(w, w.branches[j]);
      assert w.branches[j].state == Ready ==> IsReady(w.branches, j);
    }
  }

  lemma ReadyServes(w: World, j: Id)
    requires CsiOk(w) && IsReady(w.branches, j)
    ensures Serving(w, w.branches[j]) && Served(w, w.branches[j]) && w.branches[j].container.value < w.nextCid
  {
    assert Live(w.branches, j);
  }

  lemma OwnRow(w: World, id: Id)
    requires CsiOk(w) && Live(w.branches, id)
    ensures CsiRow(w, w.branches[id])
    ensures forall j | Live(w.branches, j) && j != id :: Apart(w.branches[id], w.branches[j]) && Apart(w.branches[j], w.branches[id])
    ensures forall j | Live(w.branches, j) && j != id :: w.branches[j].rw != w.branches[id].rw
  {
    forall j | Live(w.branches, j) && j != id
      ensures w.branches[j].rw != w.branches[id].rw
    {
      assert CsiRow(w, w.branches[j]) && Apart(w.branches[j], w.branches[id]);
    }
  }

  lemma RowVolume(w: World, id: Id)
    requires CsiOk(w) && Live(w.branches, id)
    ensures w.branches[id].rw == RW(w.branches[id].name, 1)
  {
    OwnRow(w, id);
  }

  lemma OthersElsewhere(w: World, id: Id)
    requires CsiOk(w) && Live(w.branches, id) && w.branches[id].container.Some?
    ensures forall j | Live(w.branches, j) && j != id :: w.branches[j].container != w.branches[id].container
  {
    OwnRow(w, id);
  }

  // ------------------------------------------------- what the saga may change

  /** The parent keeps its row but for state, container and time stamp. */
  ghost predicate ParentKept(w: World, w': World, p: Id) {
    && p in w.branches && p in w'.branches && Retouched(w.branches[p], w'.branches[p])
    && (w'.branches[p].state == Ready || w'.branches[p].state == Failed)
    && Moved(w, w', p)
  }

  /** A container that is no longer recorded is gone. */
  ghost predicate Moved(w: World, w': World, p: Id)
    requires p in w.branches && p in w'.branches
  {
    var c := w.branches[p].container;
    c.Some? && c.value in w.conts && w'.branches[p].container != c ==> c.value !in w'.conts
  }

  datatype Target = NoTarget | Refused | Quiesce(p: Id)

  /** The live branch whose volume is about to be cloned. */
  ghost predicate IsTarget(w: World, id: Id, p: Id) {
    && Live(w.branches, id) && Live(w.branches, p)
    && w.branches[id].parentName != "" && w.branches[p].name == w.branches[id].parentName
    && w.branches[p].rw == w.branches[id].srcVol && w.branches[p].container.Some?
  }

  ghost predicate RightTarget(w: World, id: Id, t: Target) {
    match t
    case Quiesce(p) => IsTarget(w, id, p) && w.branches[p].state == Ready && p != id
    case Refused => exists p :: IsTarget(w, id, p) && w.branches[p].state != Ready
    case NoTarget => forall p :: !IsTarget(w, id, p)
  }

  /** Everything but the child, its volume, the parent's mutable columns and
      these two branches' containers is as it was. */
  ghost predicate OthersKept(w: World, w': World, id: Id, t: Target)
    requires id in w.branches
  {
    && w'.sources == w.sources && w'.layers == w.layers
    && w'.branches.Keys == w.branches.Keys
    && (forall j | j in w.branches && j != id && t != Quiesce(j) :: w'.branches[j] == w.branches[j])
    && (forall v | v in w.vols && v != w.branches[id].rw :: v in w'.vols && w'.vols[v] == w.vols[v])
    && (forall v | v in w'.vols && v != w.branches[id].rw :: v in w.vols)
    && (forall c | c in w.conts && !HeldBy(w, t, c) :: c in w'.conts && w'.conts[c] == w.conts[c])
  }

  ghost predicate HeldBy(w: World, t: Target, c: Id) {
    t.Quiesce? && t.p in w.branches && w.branches[t.p].container == Some(c)
  }

  /** Whatever container is new is recorded on the parent, or on the child that
      got ready. */
  ghost predicate NoStrayContainer(w: World, w': World, id: Id, t: Target, ok: bool) {
    forall c | c in w'.conts && c !in w.conts ::
      HeldBy(w', t, c) || (ok && id in w'.branches && w'.branches[id].container == Some(c))
  }

  /** The outcome of the clone saga, whichever driver calls failed. */
  ghost predicate Cloned(w: World, w': World, id: Id, t: Target, ok: bool, reliable: bool)
    requires id in w.branches
  {
    && OthersKept(w, w', id, t) && id in w'.branches
    && Retouched(w.branches[id], w'.branches[id])
    && w'.branches[id].state == (if ok then Ready else w.branches[id].state)
    && (t.Quiesce? ==> ParentKept(w, w', t.p) && (ok ==> w'.branches[t.p].state == Ready))
    && (t.Refused? ==> !ok && w' == w)
    && (!ok && reliable ==> w'.vols.Keys <= w.vols.Keys)
    && (reliable ==> NoStrayContainer(w, w', id, t, ok))
  }

  /** The saga in progress. While `parent` is set the parent is down and
      resetting; otherwise it has settled. Whatever is new is registered for
      compensation or recorded on the parent. */
  ghost predicate Stage(w: World, w': World, id: Id, t: Target, parent: Option<Id>, undo: seq<Undo>, reliable: bool)
    requires id in w.branches
  {
    && OthersKept(w, w', id, t) && id in w'.branches && Live(w.branches, id)
    && Retouched(w.branches[id], w'.branches[id]) && w'.branches[id].state == w.branches[id].state
    && Transient(w.branches[id].state)
    && w.nextCid <= w'.nextCid && (forall c | c in w.conts :: c < w.nextCid)
    && ParentStage(w, w', id, t, parent)
    && (w.branches[id].rw in w'.vols && w.branches[id].rw !in w.vols && reliable ==> DropVolume(w.branches[id].rw) in undo)
    && (reliable ==> forall c | c in w'.conts && c !in w.conts :: DropContainer(c) in undo || HeldBy(w', t, c))
    && (forall u | u in undo :: UndoFits(w, w', id, u))
  }

  ghost predicate ParentStage(w: World, w': World, id: Id, t: Target, parent: Option<Id>) {
    && !t.Refused?
    && (parent.Some? ==> t == Quiesce(parent.value))
    && (t.Quiesce? ==>
         && t.p != id && t.p in w.branches && t.p in w'.branches && Retouched(w.branches[t.p], w'.branches[t.p])
         && (if parent.Some? then w'.branches[t.p].state == Resetting && w'.branches[t.p].rw in w'.vols && Down(w, w', t.p)
             else (w'.branches[t.p].state == Ready || w'.branches[t.p].state == Failed) && Moved(w, w', t.p)))
  }

  /** A parent that is down still names the container it had, which is gone, and its
      volume is as it was when it served. */
  ghost predicate Down(w: World, w': World, p: Id)
    requires p in w.branches && p in w'.branches
  {
    var c := w.branches[p].container;
    && w'.branches[p].container == c && c.Some? && c.value in w.conts && c.value !in w'.conts
    && Marked(w'.sources, w'.branches[p], w'.vols, w'.rotate)
  }

  ghost predicate UndoFits(w: World, w': World, id: Id, u: Undo)
    requires id in w.branches
  {
    match u
    case DropVolume(v) => v == w.branches[id].rw
    case DropContainer(c) =>
      c !in w.conts && forall j | IsReady(w'.branches, j) :: w'.branches[j].container != Some(c)
  }

  lemma StageUndo(w: World, w1: World, id: Id, t: Target, parent: Option<Id>, undo: seq<Undo>, u: Undo, reliable: bool)
    requires id in w.branches && CsiOk(w1) && Stage(w, w1, id, t, parent, undo + [u], reliable)
    ensures u.DropVolume? ==> forall j | IsReady(w1.branches, j) :: w1.branches[j].rw != u.v
    ensures u.DropContainer? ==> forall j | IsReady(w1.branches, j) :: w1.branches[j].container != Some(u.c)
  {
    assert u in undo + [u];
    OwnRow(w1, id);
  }

  lemma ParentElsewhere(w: World, w1: World, id: Id, t: Target, p: Id, undo: seq<Undo>, reliable: bool)
    requires id in w.branches && CsiOk(w1) && Stage(w, w1, id, t, Some(p), undo, reliable)
    ensures p in w1.branches && w1.branches[p].rw != w.branches[id].rw && w1.branches[p].rw == RW(w1.branches[p].name, 1)
  {
    OwnRow(w1, id);
    OwnRow(w1, p);
  }

  /** Another volume was changed. */
  lemma StillMarked(sources: map<Id, Source>, b: Branch, vols: map<Volume, Disk>, vols': map<Volume, Disk>, rotate: bool, rw: Volume)
    requires Marked(sources, b, vols, rotate) && RW(b.name, 1) != rw
    requires forall v | v in vols && v != rw :: v in vols' && vols'[v] == vols[v]
    ensures Marked(sources, b, vols', rotate)
  {
  }

  /** The child's volume was changed; the parent is as it was. */
  lemma ParentStays(w: World, w1: World, w2: World, id: Id, t: Target, parent: Option<Id>, undo: seq<Undo>, reliable: bool)
    requires id in w.branches && CsiOk(w1) && Stage(w, w1, id, t, parent, undo, reliable) && w2 == w1.(vols := w2.vols)
    requires forall v | v in w1.vols && v != w.branches[id].rw :: v in w2.vols && w2.vols[v] == w1.vols[v]
    ensures ParentStage(w, w2, id, t, parent)
  {
    hide CsiOk, Marked, UndoFits, OthersKept;
    if parent.Some? {
      ParentElsewhere(w, w1, id, t, parent.value, undo, reliable);
      StillMarked(w1.sources, w1.branches[parent.value], w1.vols, w2.vols, w1.rotate, w.branches[id].rw);
    }
  }

  lemma StageDropVolume(w: World, w1: World, w2: World, id: Id, t: Target, parent: Option<Id>, undo: seq<Undo>, v: Volume, reliable: bool)
    requires id in w.branches && CsiOk(w1) && Stage(w, w1, id, t, parent, undo + [DropVolume(v)], reliable)
    requires w2 == w1.(vols := w2.vols) && (w2.vols == w1.vols - {v} || (!reliable && w2.vols == w1.vols))
    ensures Stage(w, w2, id, t, parent, undo, reliable)
  {
    hide CsiOk, ParentStage;
    assert DropVolume(v) in undo + [DropVolume(v)];
    assert forall u | u in undo :: u in undo + [DropVolume(v)];
    assert UndoFits(w, w1, id, DropVolume(v));
    ParentStays(w, w1, w2, id, t, parent, undo + [DropVolume(v)], reliable);
    assert OthersKept(w, w2, id, t);
    hide OthersKept;
    forall u | u in undo
      ensures UndoFits(w, w2, id, u)
    {
      assert UndoFits(w, w1, id, u);
    }
  }

  lemma StageDropContainer(w: World, w1: World, w2: World, id: Id, t: Target, parent: Option<Id>, undo: seq<Undo>, c: Id, reliable: bool)
    requires id in w.branches && Stage(w, w1, id, t, parent, undo + [DropContainer(c)], reliable)
    requires w2 == w1.(conts := w2.conts)
    requires w2.conts == w1.conts - {c} || (!reliable && w2.conts == w1.conts)
    ensures Stage(w, w2, id, t, parent, undo, reliable)
  {
    hide OthersKept, ParentStage;
    assert DropContainer(c) in undo + [DropContainer(c)];
    assert forall u | u in undo :: u in undo + [DropContainer(c)];
    assert UndoFits(w, w1, id, DropContainer(c));
    FewerContainers(w, w1, w2, id, t, parent, c);
    forall u | u in undo
      ensures UndoFits(w, w2, id, u)
    {
      assert UndoFits(w, w1, id, u);
    }
  }

  lemma FewerContainers(w: World, w1: World, w2: World, id: Id, t: Target, parent: Option<Id>, c: Id)
    requires id in w.branches && OthersKept(w, w1, id, t) && ParentStage(w, w1, id, t, parent) && c !in w.conts
    requires w2 == w1.(conts := w2.conts) && (w2.conts == w1.conts - {c} || w2.conts == w1.conts)
    ensures OthersKept(w, w2, id, t) && ParentStage(w, w2, id, t, parent)
  {
    hide Marked;
  }

  lemma StageParent(w: World, w1: World, id: Id, t: Target, p: Id, undo: seq<Undo>, reliable: bool)
    requires id in w.branches && Stage(w, w1, id, t, Some(p), undo, reliable)
    ensures Live(w1.branches, p) && w1.branches[p].state == Resetting && w1.branches[p].rw in w1.vols && p != id && t == Quiesce(p)
    ensures Marked(w1.sources, w1.branches[p], w1.vols, w1.rotate)
  {
  }

  /** The parent was down and has been started again, or marked failed. */
  lemma StageRestarted(w: World, w1: World, w2: World, id: Id, t: Target, p: Id, undo: seq<Undo>, ok: bool, reliable: bool)
    requires id in w.branches && Stage(w, w1, id, t, Some(p), undo, reliable)
    requires p in w1.branches && p in w2.branches && w2 == w1.(branches := w1.branches[p := w2.branches[p]], conts := w2.conts, nextCid := w2.nextCid)
    requires w1.nextCid <= w2.nextCid
    requires Retouched(w1.branches[p], w2.branches[p]) && w2.branches[p].state == if ok then Ready else Failed
    requires forall c | c in w1.conts :: c in w2.conts && w2.conts[c] == w1.conts[c]
    requires forall c | c in w2.conts && c !in w1.conts :: c >= w1.nextCid
    requires reliable ==> forall c | c in w2.conts && c !in w1.conts :: w2.branches[p].container == Some(c)
    requires forall u | u in undo :: u.DropVolume?
    ensures Stage(w, w2, id, t, None, undo, reliable)
  {
    forall u | u in undo
      ensures UndoFits(w, w2, id, u)
    {
      assert UndoFits(w, w1, id, u);
    }
  }

  lemma StageOver(w: World, w1: World, id: Id, t: Target, reliable: bool)
    requires id in w.branches && Stage(w, w1, id, t, None, [], reliable)
    ensures Cloned(w, w1, id, t, false, reliable)
  {
  }

  lemma RefusedOver(w: World, id: Id)
    requires id in w.branches
    ensures forall reliable :: Cloned(w, w, id, Refused, false, reliable)
  {
  }

  lemma TargetFacts(w: World, id: Id, p: Id)
    requires RightTarget(w, id, Quiesce(p))
    ensures IsReady(w.branches, p) && p != id
  {
  }

  lemma QuietOver(w: World, w': World, id: Id, p: Id, reliable: bool)
    requires CsiOk(w) && Live(w.branches, id) && p in w.branches && p in w'.branches && p != id
    requires w' == w.(branches := w.branches[p := w'.branches[p]], conts := w'.conts)
    requires Retouched(w.branches[p], w'.branches[p]) && (w'.branches[p].state == Ready || w'.branches[p].state == Failed)
    requires w'.branches[p].container == w.branches[p].container
    requires w'.conts.Keys <= w.conts.Keys
    requires forall c | c in w.conts && w.branches[p].container != Some(c) :: c in w'.conts && w'.conts[c] == w.conts[c]
    ensures Cloned(w, w', id, Quiesce(p), false, reliable)
  {
  }

  lemma StageQuiet(w: World, w': World, id: Id, p: Id, reliable: bool)
    requires CsiOk(w) && Live(w.branches, id) && Transient(w.branches[id].state) && IsReady(w.branches, p) && p != id
    requires p in w'.branches && w' == w.(branches := w.branches[p := w'.branches[p]], conts := w'.conts)
    requires Retouched(w.branches[p], w'.branches[p]) && w'.branches[p].state == Resetting
    requires w'.branches[p].container == w.branches[p].container
    requires w'.conts.Keys <= w.conts.Keys && (w.branches[p].container.Some? ==> w.branches[p].container.value !in w'.conts)
    requires forall c | c in w.conts && w.branches[p].container != Some(c) :: c in w'.conts && w'.conts[c] == w.conts[c]
    ensures Stage(w, w', id, Quiesce(p), Some(p), [], reliable)
  {
    ReadyServes(w, p);
  }

  lemma StageStart(w: World, id: Id, reliable: bool)
    requires CsiOk(w) && Live(w.branches, id) && Transient(w.branches[id].state)
    ensures Stage(w, w, id, NoTarget, None, [], reliable)
  {
  }

  lemma StageRow(w: World, w1: World, id: Id, t: Target, parent: Option<Id>, undo: seq<Undo>, reliable: bool)
    requires id in w.branches && Stage(w, w1, id, t, parent, undo, reliable)
    ensures Live(w1.branches, id) && Transient(w1.branches[id].state) && w1.branches[id].rw == w.branches[id].rw
    ensures w1.branches[id].source == w.branches[id].source && w1.sources == w.sources
  {
  }

  /** The child's volume is nobody else's. */
  lemma StageChild(w: World, w1: World, id: Id, t: Target, parent: Option<Id>, undo: seq<Undo>, reliable: bool)
    requires id in w.branches && CsiOk(w1) && Stage(w, w1, id, t, parent, undo, reliable)
    ensures forall j | IsReady(w1.branches, j) :: w1.branches[j].rw != w.branches[id].rw
    ensures w.branches[id].srcVol != w.branches[id].rw
    ensures forall v | v != w.branches[id].rw :: v in w1.vols <==> v in w.vols
    ensures forall v | v != w.branches[id].rw && v in w1.vols :: w1.vols[v] == w.vols[v]
  {
    OwnRow(w1, id);
  }

  lemma StageClone(w: World, w1: World, w2: World, id: Id, t: Target, parent: Option<Id>, undo: seq<Undo>, ok: bool, reliable: bool)
    requires id in w.branches && CsiOk(w1) && Stage(w, w1, id, t, parent, [], reliable)
    requires w2 == w1.(vols := w2.vols)
    requires forall v | v != w.branches[id].rw :: v in w2.vols <==> v in w1.vols
    requires forall v | v != w.branches[id].rw && v in w2.vols :: w2.vols[v] == w1.vols[v]
    requires undo == if ok then [DropVolume(w.branches[id].rw)] else []
    requires !ok && reliable ==> w2.vols.Keys <= w1.vols.Keys
    ensures Stage(w, w2, id, t, parent, undo, reliable)
  {
    hide CsiOk, ParentStage;
    ParentStays(w, w1, w2, id, t, parent, [], reliable);
  }

  lemma StageStarted(w: World, w1: World, w2: World, id: Id, t: Target, undo: seq<Undo>, c: Option<Id>, undo': seq<Undo>, reliable: bool)
    requires id in w.branches && CsiOk(w1) && Stage(w, w1, id, t, None, undo, reliable)
    requires undo == [DropVolume(w.branches[id].rw)]
    requires w2 == w1.(conts := w2.conts, nextCid := w2.nextCid)
    requires c.None? ==> w2.conts == w1.conts && undo' == undo
    requires c.Some? ==> c.value !in w1.conts && w2.conts == w1.conts[c.value := [w.branches[id].rw]] && undo' == undo + [DropContainer(c.value)]
    requires c.Some? ==> forall j | Live(w1.branches, j) :: w1.branches[j].container != c
    requires w1.nextCid <= w2.nextCid && (c.Some? ==> c.value == w1.nextCid)
    ensures Stage(w, w2, id, t, None, undo', reliable)
  {
    hide CsiOk, Marked;
    assert OthersKept(w, w2, id, t) && ParentStage(w, w2, id, t, None);
    hide OthersKept, ParentStage;
    forall u | u in undo'
      ensures UndoFits(w, w2, id, u)
    {
      if u in undo {
        assert UndoFits(w, w1, id, u);
      }
    }
  }

  lemma StageAwaited(w: World, w1: World, w2: World, id: Id, t: Target, c: Id, undo: seq<Undo>, reliable: bool)
    requires id in w.branches && Stage(w, w1, id, t, None, undo, reliable)
    requires id in w1.branches && id in w2.branches && w2 == w1.(branches := w1.branches[id := w2.branches[id]], vols := w2.vols)
    requires Retouched(w1.branches[id], w2.branches[id]) && w2.branches[id].state == w1.branches[id].state
    requires w.branches[id].rw in w1.vols && w.branches[id].rw in w2.vols
    requires w2.vols == w1.vols[w.branches[id].rw := w2.vols[w.branches[id].rw]]
    ensures Stage(w, w2, id, t, None, undo, reliable)
  {
    forall u | u in undo
      ensures UndoFits(w, w2, id, u)
    {
      assert UndoFits(w, w1, id, u);
      assert forall j | IsReady(w2.branches, j) :: IsReady(w1.branches, j);
    }
  }

  lemma StageDone(w: World, w1: World, w2: World, id: Id, t: Target, c: Id, undo: seq<Undo>, reliable: bool)
    requires id in w.branches && Stage(w, w1, id, t, None, undo, reliable)
    requires undo == [DropVolume(w.branches[id].rw), DropContainer(c)]
    requires id in w1.branches && id in w2.branches && w2 == w1.(branches := w1.branches[id := w2.branches[id]], vols := w2.vols)
    requires Retouched(w1.branches[id], w2.branches[id]) && w2.branches[id].state == Ready && w2.branches[id].container == Some(c)
    requires w.branches[id].rw in w2.vols && w2.vols == w1.vols[w.branches[id].rw := w2.vols[w.branches[id].rw]]
    requires t.Quiesce? ==> IsReady(w1.branches, t.p)
    ensures Cloned(w, w2, id, t, true, reliable)
  {
  }

  /** The state in which the clone is taken: the parent is down, and nothing that a
      live branch records runs on what is cloned. */
  ghost predicate CloneMoment(w: World, h: World, id: Id, t: Target)
    requires id in w.branches
  {
    && h.vols == w.vols && Idle(h, w.branches[id].srcVol)
    && (t.Quiesce? ==> t.p in h.branches && h.branches[t.p].state == Resetting)
    && (Sole(w) ==> forall c | c in h.conts :: w.branches[id].srcVol !in h.conts[c])
  }

  lemma StageIdle(w: World, w1: World, id: Id, t: Target, parent: Option<Id>, reliable: bool)
    requires CsiOk(w) && CsiOk(w1) && id in w.branches && Stage(w, w1, id, t, parent, [], reliable) && RightTarget(w, id, t)
    requires t.Quiesce? <==> parent.Some?
    requires w1 == w.(branches := w1.branches, conts := w1.conts) && w1.conts.Keys <= w.conts.Keys
    requires id in w1.branches && w1.branches[id] == w.branches[id]
    ensures CloneMoment(w, w1, id, t)
  {
    forall c | c in w1.conts && w.branches[id].srcVol in w1.conts[c]
      ensures !Claimed(w1.branches, c)
    {
      NotClaimed(w, w1, id, t, parent, c, reliable);
    }
    if Sole(w) {
      StageSole(w, w1, id, t, parent, reliable);
      IdleUnmounted(w1, w.branches[id].srcVol);
    }
  }

  lemma MomentIdle(w: World, h: World, id: Id, t: Target)
    requires id in w.branches && CloneMoment(w, h, id, t)
    ensures Idle(h, w.branches[id].srcVol)
  {
  }

  lemma NotClaimed(w: World, w1: World, id: Id, t: Target, parent: Option<Id>, c: Id, reliable: bool)
    requires CsiOk(w) && CsiOk(w1) && id in w.branches && Stage(w, w1, id, t, parent, [], reliable) && RightTarget(w, id, t)
    requires t.Quiesce? <==> parent.Some?
    requires c in w1.conts && w.branches[id].srcVol in w1.conts[c]
    ensures !Claimed(w1.branches, c)
  {
    if j :| Live(w1.branches, j) && w1.branches[j].container == Some(c) {
      OwnRow(w1, j);
      OnlyTarget(w, w1, id, t, parent, j, reliable);
    }
  }

  /** Only the target has the cloned volume and a container. */
  lemma OnlyTarget(w: World, w1: World, id: Id, t: Target, parent: Option<Id>, j: Id, reliable: bool)
    requires CsiOk(w) && CsiOk(w1) && id in w.branches && Stage(w, w1, id, t, parent, [], reliable) && RightTarget(w, id, t)
    requires t.Quiesce? <==> parent.Some?
    requires Live(w1.branches, j) && w1.branches[j].rw == w.branches[id].srcVol && w1.branches[j].container.Some?
    ensures t == Quiesce(j)
  {
    OwnRow(w1, j);
    OwnRow(w1, id);
    if t.Quiesce? {
      assert j == t.p by { OwnRow(w1, t.p); }
    } else {
      assert IsTarget(w, id, j);
    }
  }

  lemma StageSole(w: World, w1: World, id: Id, t: Target, parent: Option<Id>, reliable: bool)
    requires id in w.branches && Stage(w, w1, id, t, parent, [], reliable) && Sole(w) && w1.conts.Keys <= w.conts.Keys
    requires t.Quiesce? <==> parent.Some?
    requires w1.branches[id].container == w.branches[id].container
    ensures Sole(w1)
  {
    forall c | c in w1.conts
      ensures Claimed(w1.branches, c)
    {
      var j :| Live(w.branches, j) && w.branches[j].container == Some(c);
      assert Live(w1.branches, j) && w1.branches[j].container == Some(c);
    }
  }

  /** The container a row records, if any, has been removed. */
  ghost predicate NotRunning(w: World, id: Id)
    requires id in w.branches
  {
    w.branches[id].container.Some? ==> w.branches[id].container.value !in w.conts
  }

  /** When removals succeed, the saga leaves no container that nobody records. */
  lemma SoleKept(w: World, w': World, id: Id, t: Target, ok: bool)
    requires id in w.branches && Live(w.branches, id) && Sole(w) && NotRunning(w, id)
    requires RightTarget(w, id, t) && Cloned(w, w', id, t, ok, true)
    ensures Sole(w')
  {
    forall c | c in w'.conts
      ensures Claimed(w'.branches, c)
    {
      if c in w.conts {
        var j :| Live(w.branches, j) && w.branches[j].container == Some(c);
        assert Live(w'.branches, j) && w'.branches[j].container == Some(c);
      } else if HeldBy(w', t, c) {
        assert Live(w'.branches, t.p);
      } else {
        assert Live(w'.branches, id);
      }
    }
  }

  /** What branch-from-branch may do: a new row that is ready or failed, the
      parent ready or failed on the same data, every other row and every other
      volume as before; an unmasked child holds what the parent held. */
  ghost predicate FromParent(w: World, w': World, p: Id, child: Id, name: string, expires: Option<int>, ok: bool, rotate: bool) {
    && w'.sources == w.sources && w'.layers == w.layers && w'.branches.Keys == w.branches.Keys + {child}
    && w'.branches[child].name == name && w'.branches[child].rw == RW(name, 1)
    && w'.branches[child].state == (if ok then Ready else Failed)
    && p in w.branches && w'.branches[child].parentName == w.branches[p].name && w'.branches[child].expires == expires
    && w'.branches[child].source == w.branches[p].source && w'.branches[child].srcVol == w.branches[p].rw
    && ParentKept(w, w', p) && (ok ==> w'.branches[p].state == Ready)
    && (forall j | j in w.branches && j != p && j != child :: w'.branches[j] == w.branches[j])
    && (forall v | v in w.vols && v != RW(name, 1) :: v in w'.vols && w'.vols[v] == w.vols[v])
    && (forall v | v in w'.vols && v != RW(name, 1) :: v in w.vols)
    && w.branches[p].rw in w.vols && w.branches[p].rw != RW(name, 1) && w.branches[p].source in w.sources
    && (ok && !w.sources[w.branches[p].source].masked && !rotate && RW(name, 1) !in w.vols ==>
          RW(name, 1) in w'.vols && w'.vols[RW(name, 1)].files == w.vols[w.branches[p].rw].files)
  }

  function LiveRows(bs: map<Id, Branch>): set<Id> {
    set id | id in bs && Live(bs, id)
  }

  /** No live branch bears the name. */
  ghost predicate Unnamed(bs: map<Id, Branch>, name: string) {
    forall j | Live(bs, j) :: bs[j].name != name
  }

  /** Live names are unique. */
  lemma OnlyNamed(w: World, found: Option<Id>, name: string)
    requires CsiOk(w)
    requires found.Some? ==> Live(w.branches, found.value) && w.branches[found.value].name == name
    requires found.None? ==> Unnamed(w.branches, name)
    ensures forall p | IsReady(w.branches, p) && w.branches[p].name == name :: found == Some(p)
  {
    forall p | IsReady(w.branches, p) && w.branches[p].name == name
      ensures found == Some(p)
    {
      assert Live(w.branches, p);
    }
  }

  /** The child's row was settled; its container is still the one it records. */
  lemma SoleEnd(w: World, w': World, id: Id)
    requires Live(w.branches, id) && Live(w'.branches, id) && w' == w.(branches := w.branches[id := w'.branches[id]])
    requires w'.branches[id].container == w.branches[id].container
    ensures Sole(w) ==> Sole(w')
  {
    if Sole(w) {
      forall c | c in w'.conts
        ensures Claimed(w'.branches, c)
      {
        var j :| Live(w.branches, j) && w.branches[j].container == Some(c);
        assert Live(w'.branches, j) && w'.branches[j].container == Some(c);
      }
    }
  }

  lemma BornChild(w: World, w1: World, p: Id, child: Id)
    requires CsiOk(w) && IsReady(w.branches, p) && child !in w.branches && child in w1.branches
    requires w1 == w.(branches := w.branches[child := w1.branches[child]])
    requires NameUnused(w.branches, child, w1.branches[child].name) && ValidName(w1.branches[child].name)
    requires
      var b, q := w1.branches[child], w.branches[p];
      b.source == q.source && b.state == Creating && b.container == None && b.rw == RW(b.name, 1) && b.srcVol == q.rw && b.parentName == q.name
    ensures w.branches[p].name != "" && CsiOk(w1) && Live(w1.branches, child) && w1.branches[child].source in w1.sources
    ensures w.branches[p].rw in w.vols && (Sole(w) ==> Sole(w1))
  {
    OwnRow(w, p);
    ReadyServes(w, p);
    assert forall j: Id | Live(w.branches, j) :: Live(w1.branches, j) && w1.branches[j] == w.branches[j];
    assert w.branches[p].name != w1.branches[child].name by { assert Live(w.branches, p) && p != child; }
    forall j | Live(w1.branches, j)
      ensures CsiRow(w1, w1.branches[j])
    {
      assert j != child ==> Live(w.branches, j) && CsiRow(w, w.branches[j]);
    }
    forall i, j | Live(w1.branches, i) && Live(w1.branches, j) && i != j
      ensures Apart(w1.branches[i], w1.branches[j])
    {
      assert i != child ==> Live(w.branches, i);
      assert j != child ==> Live(w.branches, j);
    }
  }

  lemma ClonedRow(w: World, w': World, id: Id, t: Target, ok: bool, reliable: bool)
    requires id in w.branches && Cloned(w, w', id, t, ok, reliable)
    ensures id in w'.branches && w'.branches[id].state == if ok then Ready else w.branches[id].state
  {
  }

  /** A ready parent is the branch to be quiesced. */
  lemma ParentIsTarget(w1: World, p: Id, child: Id, t: Target)
    requires CsiOk(w1) && Live(w1.branches, child) && IsReady(w1.branches, p) && p != child
    requires w1.branches[child].parentName == w1.branches[p].name != "" && w1.branches[child].srcVol == w1.branches[p].rw
    requires RightTarget(w1, child, t)
    ensures t == Quiesce(p)
  {
    ReadyServes(w1, p);
    OwnRow(w1, p);
    assert IsTarget(w1, child, p);
    assert forall q | IsTarget(w1, child, q) :: q == p;
  }

  lemma FromEnd(w: World, w1: World, w2: World, w3: World, p: Id, child: Id, t: Target, ok: bool, rotate: bool, reliable: bool)
    requires CsiOk(w) && CsiOk(w1) && IsReady(w.branches, p) && child !in w.branches && child in w1.branches
    requires w1 == w.(branches := w.branches[child := w1.branches[child]]) && Live(w1.branches, child)
    requires w1.branches[child].parentName == w.branches[p].name != "" && w1.branches[child].srcVol == w.branches[p].rw
    requires w1.branches[child].source == w.branches[p].source && w1.branches[child].source in w.sources
    requires w1.branches[child].rw == RW(w1.branches[child].name, 1)
    requires RightTarget(w1, child, t) && Cloned(w1, w2, child, t, ok, reliable)
    requires child in w2.branches && child in w3.branches && w3 == w2.(branches := w2.branches[child := w3.branches[child]])
    requires Retouched(w2.branches[child], w3.branches[child]) && w3.branches[child].state == if ok then Ready else Failed
    requires ok && !w1.sources[w1.branches[child].source].masked && !rotate && w1.branches[child].rw !in w1.vols ==>
      w1.branches[child].srcVol in w1.vols && w1.branches[child].rw in w2.vols
      && w2.vols[w1.branches[child].rw].files == w1.vols[w1.branches[child].srcVol].files
    ensures FromParent(w, w3, p, child, w1.branches[child].name, w1.branches[child].expires, ok, rotate)
  {
    ParentIsTarget(w1, p, child, t);
    ReadyServes(w, p);
    OwnRow(w1, child);
    hide CsiOk;
  }

  class CsiEngine {
    const reg: Registry
    const drv: Driver
    const rotate: bool
    const maxBranches: nat

    constructor (reg: Registry, drv: Driver, rotate: bool, maxBranches: nat)
      ensures this.reg == reg && this.drv == drv && this.rotate == rotate && this.maxBranches == maxBranches
    {
      this.reg, this.drv, this.rotate, this.maxBranches := reg, drv, rotate, maxBranches;
    }

    ghost function W(): World
      reads this, reg, drv
    {
      World(reg.sources, reg.branches, reg.layers, drv.vols, drv.conts, drv.nextCid, rotate, drv.answers)
    }

    ghost predicate Valid()
      reads this, reg, drv
    {
      CsiOk(W())
    }

    method Mark(id: Id, to: BranchState)
      requires Valid() && Live(reg.branches, id) && Legal(reg.branches[id].state, to) && to != Destroyed
      requires to == Ready ==> Serving(W(), reg.branches[id]) && Served(W(), reg.branches[id])
      modifies reg`branches, reg`journal
      ensures Valid() && reg.branches == old(reg.branches)[id := old(reg.branches)[id].(state := to, updated := reg.clock)]
    {
      hide JournalFits;
      ghost var w := W();
      OwnRow(w, id);
      var ok := reg.TransitionBranch(id, to);
      RowChange(w, W(), id);
    }

    /** Records a container that was just started. */
    method Record(id: Id, c: Id)
      requires Valid() && Live(reg.branches, id) && reg.branches[id].state != Ready
      requires c < drv.nextCid && Unclaimed(reg.branches, id, Some(c)) && (c in drv.conts ==> drv.conts[c] == [reg.branches[id].rw])
      modifies reg`branches, reg`journal
      ensures Valid()
      ensures reg.branches == old(reg.branches)[id := old(reg.branches)[id].(container := Some(c), updated := reg.clock)]
    {
      hide JournalFits;
      ghost var w := W();
      OwnRow(w, id);
      reg.SetBranchContainer(id, c);
      RowChange(w, W(), id);
    }

    method Start(rw: Volume) returns (c: Option<Id>)
      requires Valid()
      modifies drv`conts, drv`nextCid
      ensures Valid() && old(drv.nextCid) <= drv.nextCid
      ensures c.None? ==> drv.conts == old(drv.conts) && !drv.perfect
      ensures c.Some? ==>
        && c.value == old(drv.nextCid) && c.value !in old(drv.conts) && drv.conts == old(drv.conts)[c.value := [rw]] && c.value < drv.nextCid
        && forall j | Live(reg.branches, j) :: reg.branches[j].container != c
    {
      ghost var w := W();
      c := drv.StartBranch([rw]);
      forall j | IsReady(w.branches, j)
        ensures Serving(w, w.branches[j]) && w.branches[j].container.value < w.nextCid
      {
        ReadyServes(w, j);
      }
      forall j | Live(w.branches, j)
        ensures w.branches[j].container != Some(w.nextCid)
      {
        assert CsiRow(w, w.branches[j]);
      }
      DriverChange(w, W());
    }

    method Stop(c: Id) returns (ok: bool)
      requires Valid() && forall j | IsReady(reg.branches, j) :: reg.branches[j].container != Some(c)
      modifies drv`conts
      ensures Valid() && (drv.reliable ==> ok) && (ok ==> drv.conts == old(drv.conts) - {c})
      ensures drv.conts == old(drv.conts) || drv.conts == old(drv.conts) - {c}
    {
      ghost var w := W();
      ok := drv.StopRemove(c);
      forall j | IsReady(w.branches, j)
        ensures Serving(w, w.branches[j])
      {
        ReadyServes(w, j);
      }
      DriverChange(w, W());
    }

    /** Finds the parent whose volume the branch clones; a parent that is gone or
        stopped needs no quiescing, one that is busy refuses the clone. */
    method QuiesceTarget(id: Id) returns (t: Target)
      requires Valid() && Live(reg.branches, id)
      ensures RightTarget(W(), id, t)
    {
      var b := reg.branches[id];
      OwnRow(W(), id);
      if b.parentName == "" {
        return NoTarget;
      }
      var found := reg.GetBranchByName(b.parentName);
      if found.None? {
        return NoTarget;
      }
      var p := found.value;
      assert forall q | IsTarget(W(), id, q) :: q == p by {
        OwnRow(W(), p);
      }
      if reg.branches[p].rw != b.srcVol || reg.branches[p].container.None? {
        return NoTarget;
      }
      assert IsTarget(W(), id, p);
      if reg.branches[p].state != Ready {
        return Refused;
      }
      t := Quiesce(p);
    }

    /** Starts a stopped parent on its own volume again, or marks it failed. */
    method Restart(p: Id) returns (ok: bool)
      requires Valid() && Live(reg.branches, p) && reg.branches[p].state == Resetting && reg.branches[p].rw in drv.vols
      requires Marked(reg.sources, reg.branches[p], drv.vols, rotate)
      modifies reg`branches, reg`journal, drv`conts, drv`nextCid
      ensures Valid() && p in reg.branches && old(drv.nextCid) <= drv.nextCid && (drv.Flawless() ==> ok)
      ensures forall c | c in drv.conts && c !in old(drv.conts) :: c >= old(drv.nextCid)
      ensures reg.branches == old(reg.branches)[p := reg.branches[p]] && Retouched(old(reg.branches[p]), reg.branches[p])
      ensures reg.branches[p].state == if ok then Ready else Failed
      ensures forall c | c in old(drv.conts) :: c in drv.conts && drv.conts[c] == old(drv.conts)[c]
      ensures drv.reliable ==> forall c | c in drv.conts && c !in old(drv.conts) :: reg.branches[p].container == Some(c)
    {
      hide CsiOk, Apart;
      var c := Start(reg.branches[p].rw);
      if c.None? {
        Mark(p, Failed);
        return false;
      }
      Record(p, c.value);
      ok := Settle(p, c.value);
    }

    /** Waits for a container that its branch already records. */
    method WaitReady(id: Id, c: Id) returns (ok: bool)
      requires id in reg.branches && reg.branches[id].container == Some(c)
      ensures ok ==> drv.answers(c)
      ensures drv.perfect && drv.answers(c) ==> ok
    {
      ok := drv.Probe(c);
    }

    /** Waits for the restarted parent; it ends ready, or failed. A container that
        never answered is removed, one without an address is left to the row. */
    method Settle(p: Id, c: Id) returns (ok: bool)
      requires Valid() && Live(reg.branches, p) && reg.branches[p].state == Resetting && reg.branches[p].container == Some(c)
      requires reg.branches[p].rw in drv.vols && c in drv.conts && drv.conts[c] == [reg.branches[p].rw]
      requires Marked(reg.sources, reg.branches[p], drv.vols, rotate)
      modifies reg`branches, reg`journal, drv`conts
      ensures Valid() && (drv.Flawless() ==> ok)
      ensures reg.branches == old(reg.branches)[p := old(reg.branches[p]).(state := if ok then Ready else Failed, updated := reg.clock)]
      ensures drv.conts == old(drv.conts) || drv.conts == old(drv.conts) - {c}
    {
      hide CsiOk, Apart, CsiRow;
      OthersElsewhere(W(), p);
      ok := WaitReady(p, c);
      if !ok {
        var gone := Stop(c);
      } else {
        ok := drv.Probe(c);
      }
      Mark(p, if ok then Ready else Failed);
    }

    method RemoveVolume(v: Volume) returns (ok: bool)
      requires Valid() && forall j | IsReady(reg.branches, j) :: reg.branches[j].rw != v
      modifies drv`vols, drv`done
      ensures Valid() && (drv.reliable ==> ok) && drv.vols == if ok then old(drv.vols) - {v} else old(drv.vols)
    {
      ghost var w := W();
      ok := drv.RemoveVolume(v);
      forall j | IsReady(w.branches, j)
        ensures Serving(w, w.branches[j])
      {
        ReadyServes(w, j);
      }
      DriverChange(w, W());
    }

    /** Only a volume that no live branch's container runs on is cloned. */
    method CloneVolume(src: Volume, dst: Volume) returns (ok: bool)
      requires Valid() && forall j | IsReady(reg.branches, j) :: reg.branches[j].rw != dst
      requires Idle(W(), src)
      requires forall j | Live(reg.branches, j) && reg.branches[j].rw == src :: Own(reg.branches[j]) <= drv.done.flushed
      modifies drv`vols, drv`done
      ensures Valid() && (drv.perfect && src in old(drv.vols) ==> ok)
      ensures forall v | v != dst :: v in drv.vols <==> v in old(drv.vols)
      ensures forall v | v != dst && v in drv.vols :: drv.vols[v] == old(drv.vols)[v]
      ensures ok ==> src in old(drv.vols) && dst in drv.vols && (dst !in old(drv.vols) ==> drv.vols[dst] == Disk(old(drv.vols)[src].files, false, false))
      ensures !ok && drv.reliable ==> drv.vols.Keys <= old(drv.vols).Keys
    {
      ghost var w := W();
      ok := drv.CloneVolume(src, dst);
      forall j | IsReady(w.branches, j)
        ensures Serving(w, w.branches[j])
      {
        ReadyServes(w, j);
      }
      DriverChange(w, W());
    }

    /** Brings the parent down: it is resetting and stopped, or it is ready and
        was not touched, or it could not be stopped and is failed. */
    method Quiet(p: Id) returns (ok: bool)
      requires Valid() && IsReady(reg.branches, p)
      modifies reg`branches, reg`journal, drv`conts, drv`done
      ensures Valid() && p in reg.branches
      ensures ok ==> reg.branches[p].container.Some? && reg.branches[p].container.value in drv.done.flushed
      ensures reg.branches == old(reg.branches)[p := reg.branches[p]] && Retouched(old(reg.branches[p]), reg.branches[p])
      ensures reg.branches[p].container == old(reg.branches[p].container)
      ensures if ok then reg.branches[p].state == Resetting else reg.branches[p].state == Ready || reg.branches[p].state == Failed
      ensures reg.branches[p].container.Some? && (ok ==> reg.branches[p].container.value !in drv.conts) && (drv.Flawless() ==> ok)
      ensures !ok && drv.reliable ==> reg.branches[p].state == Ready && drv.conts == old(drv.conts)
      ensures drv.conts.Keys <= old(drv.conts).Keys
      ensures forall c | c in old(drv.conts) && old(reg.branches[p].container) != Some(c) ::
        c in drv.conts && drv.conts[c] == old(drv.conts)[c]
    {
      hide CsiOk;
      ReadyServes(W(), p);
      OthersElsewhere(W(), p);
      Mark(p, Resetting);
      ok := drv.Checkpoint(reg.branches[p].container.value);
      if !ok {
        Mark(p, Ready);
        return;
      }
      ok := Stop(reg.branches[p].container.value);
      if !ok {
        Mark(p, Failed);
      }
    }

    /** The failure path: compensations in reverse, then the parent, if it is
        still down, is started again or marked failed. */
    method Fail(ghost w: World, id: Id, ghost t: Target, parent: Option<Id>, undo: seq<Undo>)
      requires Valid() && id in w.branches && Stage(w, W(), id, t, parent, undo, drv.reliable)
      modifies reg`branches, reg`journal, drv
      ensures Valid() && Cloned(w, W(), id, t, false, drv.reliable)
      ensures parent.Some? && drv.Flawless() ==> parent.value in reg.branches && reg.branches[parent.value].state == Ready
    {
      hide CsiOk, CsiRow, Serving, Stage, Cloned;
      var i := |undo|;
      assert undo[..i] == undo;
      while i > 0
        invariant 0 <= i <= |undo| && Valid() && Stage(w, W(), id, t, parent, undo[..i], drv.reliable)
      {
        i := i - 1;
        assert undo[..i + 1] == undo[..i] + [undo[i]];
        ghost var w1 := W();
        StageUndo(w, w1, id, t, parent, undo[..i], undo[i], drv.reliable);
        var ok;
        match undo[i] {
          case DropVolume(v) =>
            ok := RemoveVolume(v);
            StageDropVolume(w, w1, W(), id, t, parent, undo[..i], v, drv.reliable);
          case DropContainer(c) =>
            ok := Stop(c);
            StageDropContainer(w, w1, W(), id, t, parent, undo[..i], c, drv.reliable);
        }
      }
      assert undo[..0] == [];
      ghost var w1 := W();
      if parent.Some? {
        StageParent(w, w1, id, t, parent.value, [], drv.reliable);
        var ok := Restart(parent.value);
        StageRestarted(w, w1, W(), id, t, parent.value, [], ok, drv.reliable);
      }
      StageOver(w, W(), id, t, drv.reliable);
    }

    /** Readiness, masking, password, address; then the child is ready. */
    method AwaitAndMark(id: Id, c: Id) returns (ok: bool)
      requires Valid() && Live(reg.branches, id) && Transient(reg.branches[id].state)
      requires reg.branches[id].source in reg.sources && reg.branches[id].rw in drv.vols
      requires c < drv.nextCid && Unclaimed(reg.branches, id, Some(c)) && c in drv.conts && drv.conts[c] == [reg.branches[id].rw]
      modifies reg`branches, reg`journal, drv`vols, drv`done
      ensures Valid() && (drv.Flawless() ==> ok)
      ensures
        var b := old(reg.branches[id]);
        && reg.branches == old(reg.branches)[id := b.(container := Some(c), updated := reg.clock,
                                                      state := if ok then Ready else b.state)]
        && b.rw in drv.vols && drv.vols == old(drv.vols)[b.rw := drv.vols[b.rw]]
        && (!reg.sources[b.source].masked && !rotate ==> drv.vols == old(drv.vols))
    {
      hide CsiOk, CsiRow;
      RowVolume(W(), id);
      Record(id, c);
      ok := WaitReady(id, c);
      if ok {
        ok := Customize(id, c);
      }
      if ok {
        ok := drv.Probe(c);
      }
      if ok {
        Mark(id, Ready);
      }
    }

    /** Masking scripts and the branch's own password, when there are any. */
    method Customize(id: Id, c: Id) returns (ok: bool)
      requires Valid() && id in reg.branches && reg.branches[id].source in reg.sources && reg.branches[id].rw in drv.vols
      requires c in drv.conts && drv.conts[c] == [reg.branches[id].rw]
      modifies drv`vols, drv`done
      ensures Valid() && (drv.perfect ==> ok)
      ensures
        var b := reg.branches[id];
        && b.rw in drv.vols && drv.vols == old(drv.vols)[b.rw := drv.vols[b.rw]]
        && (!reg.sources[b.source].masked && !rotate ==> drv.vols == old(drv.vols))
        && (ok && reg.sources[b.source].masked ==> drv.vols[b.rw].masked) && (ok && rotate ==> drv.vols[b.rw].rotated)
    {
      hide CsiOk;
      ok := true;
      if reg.sources[reg.branches[id].source].masked {
        ok := RunSql(c, true);
      }
      if ok && rotate {
        ok := RunSql(c, false);
      }
    }

    method RunSql(c: Id, masking: bool) returns (ok: bool)
      requires Valid() && c in drv.conts && drv.conts[c] != [] && drv.conts[c][0] in drv.vols
      modifies drv`vols, drv`done
      ensures Valid() && (drv.perfect ==> ok)
      ensures drv.conts[c][0] in drv.vols && drv.vols == old(drv.vols)[drv.conts[c][0] := drv.vols[drv.conts[c][0]]]
      ensures MarksKept(old(drv.vols), drv.vols, drv.conts[c][0])
      ensures ok ==> if masking then drv.vols[drv.conts[c][0]].masked else drv.vols[drv.conts[c][0]].rotated
    {
      ghost var w := W();
      ok := drv.RunSql(c, masking);
      forall j | IsReady(w.branches, j)
        ensures Serving(w, w.branches[j])
      {
        ReadyServes(w, j);
      }
      DriverChange(w, W());
    }

    /** Creates the branch's volume as a clone of its base and starts the branch
        on it, stopping a live parent meanwhile. Whichever calls fail, the parent
        ends ready or failed, never resetting, with its data as it was. */
    method Provision(id: Id) returns (ok: bool, ghost t: Target, ghost cut: Option<World>)
      requires Valid() && Live(reg.branches, id) && Transient(reg.branches[id].state) && reg.branches[id].source in reg.sources
      modifies reg`branches, reg`journal, drv
      ensures Valid() && old(RightTarget(W(), id, t)) && Cloned(old(W()), W(), id, t, ok, drv.reliable)
      ensures drv.Flawless() && !t.Refused? && old(reg.branches[id].srcVol in drv.vols) ==> ok
      ensures (ok ==> cut.Some?) && (cut.Some? ==> CloneMoment(old(W()), cut.value, id, t))
      ensures drv.reliable && old(Sole(W()) && NotRunning(W(), id)) ==> Sole(W())
      ensures
        var b := old(reg.branches[id]);
        ok && !reg.sources[b.source].masked && !rotate && b.rw !in old(drv.vols) ==>
          b.srcVol in old(drv.vols) && b.rw in drv.vols && drv.vols[b.rw].files == old(drv.vols[b.srcVol]).files
    {
      hide CsiOk, CsiRow, Serving, Stage, Cloned, RightTarget, OthersKept, Sole, NotRunning;
      ghost var w := W();
      ok, t, cut := Clone(id);
      if drv.reliable && Sole(w) && NotRunning(w, id) {
        SoleKept(w, W(), id, t, ok);
      }
    }

    method Clone(id: Id) returns (ok: bool, ghost t: Target, ghost cut: Option<World>)
      requires Valid() && Live(reg.branches, id) && Transient(reg.branches[id].state) && reg.branches[id].source in reg.sources
      modifies reg`branches, reg`journal, drv
      ensures Valid() && old(RightTarget(W(), id, t)) && Cloned(old(W()), W(), id, t, ok, drv.reliable)
      ensures drv.Flawless() && !t.Refused? && old(reg.branches[id].srcVol in drv.vols) ==> ok
      ensures (ok ==> cut.Some?) && (cut.Some? ==> CloneMoment(old(W()), cut.value, id, t))
      ensures
        var b := old(reg.branches[id]);
        ok && !reg.sources[b.source].masked && !rotate && b.rw !in old(drv.vols) ==>
          b.srcVol in old(drv.vols) && b.rw in drv.vols && drv.vols[b.rw].files == old(drv.vols[b.srcVol]).files
    {
      hide CsiOk, CsiRow, Serving, Stage, Cloned, RightTarget, OthersKept, Idle, CloneMoment;
      ghost var w := W();
      var b := reg.branches[id];
      var parent;
      ok, t, parent := Lull(id);
      cut := None;
      if !ok {
        return;
      }
      ghost var w1 := W();
      cut := Some(w1);
      StageChild(w, w1, id, t, parent, [], drv.reliable);
      MomentIdle(w, w1, id, t);
      ok := CloneVolume(b.srcVol, b.rw);
      if !ok {
        StageClone(w, w1, W(), id, t, parent, [], false, drv.reliable);
        Fail(w, id, t, parent, []);
        return;
      }
      StageClone(w, w1, W(), id, t, parent, [DropVolume(b.rw)], true, drv.reliable);
      ok := drv.RunHelper(b.rw);
      if !ok {
        Fail(w, id, t, parent, [DropVolume(b.rw)]);
        return;
      }
      ok := Second(w, id, t, parent);
    }

    /** Finds the parent, if there is one to stop, and stops it. */
    method Lull(id: Id) returns (ok: bool, ghost t: Target, parent: Option<Id>)
      requires Valid() && Live(reg.branches, id) && Transient(reg.branches[id].state)
      modifies reg`branches, reg`journal, drv`conts, drv`done
      ensures ok ==> forall j | Live(reg.branches, j) && reg.branches[j].rw == old(reg.branches[id].srcVol) :: Own(reg.branches[j]) <= drv.done.flushed
      ensures Valid() && old(RightTarget(W(), id, t)) && (drv.Flawless() && !t.Refused? ==> ok)
      ensures !ok ==> Cloned(old(W()), W(), id, t, false, drv.reliable)
      ensures ok ==>
        && (t.Quiesce? <==> parent.Some?) && CloneMoment(old(W()), W(), id, t)
        && Stage(old(W()), W(), id, t, parent, [], drv.reliable)
    {
      hide CsiOk, CsiRow, Serving, Stage, Cloned, RightTarget, OthersKept, Idle, CloneMoment;
      ghost var w := W();
      var target := QuiesceTarget(id);
      ok, t, parent := true, target, None;
      if target.Refused? {
        RefusedOver(w, id);
        return false, t, None;
      }
      if target.Quiesce? {
        TargetFacts(w, id, target.p);
        ok := Quiet(target.p);
        if !ok {
          QuietOver(w, W(), id, target.p, drv.reliable);
          return;
        }
        parent := Some(target.p);
        StageQuiet(w, W(), id, target.p, drv.reliable);
      } else {
        StageStart(w, id, drv.reliable);
      }
      StageIdle(w, W(), id, target, parent, drv.reliable);
      forall j | Live(reg.branches, j) && reg.branches[j].rw == w.branches[id].srcVol && reg.branches[j].container.Some?
        ensures target == Quiesce(j)
      {
        OnlyTarget(w, W(), id, target, parent, j, drv.reliable);
      }
    }

    /** The second half: the parent is brought back before the child starts. */
    method Second(ghost w: World, id: Id, ghost t: Target, parent: Option<Id>) returns (ok: bool)
      requires Valid() && id in w.branches && w.branches[id].source in w.sources
      requires Stage(w, W(), id, t, parent, [DropVolume(w.branches[id].rw)], drv.reliable)
      requires (t.Quiesce? ==> parent.Some?) && w.branches[id].rw in drv.vols && w.branches[id].rw in drv.done.scripted
      modifies reg`branches, reg`journal, drv
      ensures Valid() && Cloned(w, W(), id, t, ok, drv.reliable) && (drv.Flawless() ==> ok)
      ensures ok && !w.sources[w.branches[id].source].masked && !rotate ==> drv.vols == old(drv.vols)
    {
      hide CsiOk, CsiRow, Serving, Stage, Cloned, OthersKept;
      StageRow(w, W(), id, t, parent, [DropVolume(w.branches[id].rw)], drv.reliable);
      var rw := reg.branches[id].rw;
      if parent.Some? {
        ghost var w1 := W();
        StageParent(w, w1, id, t, parent.value, [DropVolume(rw)], drv.reliable);
        ok := Restart(parent.value);
        StageRestarted(w, w1, W(), id, t, parent.value, [DropVolume(rw)], ok, drv.reliable);
        if !ok {
          Fail(w, id, t, None, [DropVolume(rw)]);
          return;
        }
      }
      ok := StartChild(w, id, t);
    }

    method StartChild(ghost w: World, id: Id, ghost t: Target) returns (ok: bool)
      requires Valid() && id in w.branches && w.branches[id].source in w.sources
      requires Stage(w, W(), id, t, None, [DropVolume(w.branches[id].rw)], drv.reliable)
      requires (t.Quiesce? ==> IsReady(reg.branches, t.p) && t.p != id) && w.branches[id].rw in drv.vols && w.branches[id].rw in drv.done.scripted
      modifies reg`branches, reg`journal, drv
      ensures Valid() && Cloned(w, W(), id, t, ok, drv.reliable) && (drv.Flawless() ==> ok)
      ensures ok && !w.sources[w.branches[id].source].masked && !rotate ==> drv.vols == old(drv.vols)
    {
      hide CsiOk, CsiRow, Serving, Stage, Cloned, OthersKept;
      StageRow(w, W(), id, t, None, [DropVolume(w.branches[id].rw)], drv.reliable);
      var rw := reg.branches[id].rw;
      ghost var w2 := W();
      var c := Start(rw);
      if c.None? {
        StageStarted(w, w2, W(), id, t, [DropVolume(rw)], c, [DropVolume(rw)], drv.reliable);
        Fail(w, id, t, None, [DropVolume(rw)]);
        return false;
      }
      StageStarted(w, w2, W(), id, t, [DropVolume(rw)], c, [DropVolume(rw), DropContainer(c.value)], drv.reliable);
      ok := AwaitChild(w, id, t, c.value);
    }

    method AwaitChild(ghost w: World, id: Id, ghost t: Target, c: Id) returns (ok: bool)
      requires Valid() && id in w.branches && w.branches[id].source in w.sources
      requires Stage(w, W(), id, t, None, [DropVolume(w.branches[id].rw), DropContainer(c)], drv.reliable)
      requires (t.Quiesce? ==> IsReady(reg.branches, t.p) && t.p != id) && w.branches[id].rw in drv.vols
      requires c < drv.nextCid && Unclaimed(reg.branches, id, Some(c)) && c in drv.conts && drv.conts[c] == [w.branches[id].rw]
      modifies reg`branches, reg`journal, drv
      ensures Valid() && Cloned(w, W(), id, t, ok, drv.reliable) && (drv.Flawless() ==> ok)
      ensures ok && !w.sources[w.branches[id].source].masked && !rotate ==> drv.vols == old(drv.vols)
    {
      hide CsiOk, CsiRow, Serving, Stage, Cloned, OthersKept;
      StageRow(w, W(), id, t, None, [DropVolume(w.branches[id].rw), DropContainer(c)], drv.reliable);
      var rw := reg.branches[id].rw;
      ghost var w3 := W();
      ok := AwaitAndMark(id, c);
      if ok {
        StageDone(w, w3, W(), id, t, c, [DropVolume(rw), DropContainer(c)], drv.reliable);
      } else {
        StageAwaited(w, w3, W(), id, t, c, [DropVolume(rw), DropContainer(c)], drv.reliable);
        Fail(w, id, t, None, [DropVolume(rw), DropContainer(c)]);
      }
    }

    /** Branch-from-branch. The child gets a clone of exactly what the parent
        holds; the parent ends ready or failed and its data is never written. */
    method CreateBranchFrom(name: string, parentName: string, expires: Option<int>)
        returns (ok: bool, parent: Option<Id>, child: Option<Id>)
      requires Valid()
      modifies reg`branches, reg`journal, drv
      ensures Valid()
      ensures child.None? ==> !ok && W() == old(W())
      ensures child.Some? ==> parent.Some? && IsReady(old(reg.branches), parent.value) && child.value !in old(reg.branches)
      ensures child.Some? ==> FromParent(old(W()), W(), parent.value, child.value, name, expires, ok, rotate)
      ensures old(CanBranch(name, parentName)) && drv.Flawless() && reg.freshIds ==> ok
      ensures !old(Admissible(name)) || !old(Unnamed(reg.branches, name)) ==> child.None?
      ensures drv.reliable && old(Sole(W())) ==> Sole(W())
    {
      hide CsiOk, CsiRow, Serving, Cloned, RightTarget, FromParent, JournalFits, Sole, CloneMoment;
      ghost var w := W();
      ok, child := false, None;
      parent := reg.GetBranchByName(parentName);
      OnlyNamed(w, parent, parentName);
      var live := set j | j in reg.branches && reg.branches[j].state != Destroyed;
      assert live == LiveRows(reg.branches);
      var quota := maxBranches == 0 || |live| < maxBranches;
      if ValidName(name) && quota && parent.Some? && reg.branches[parent.value].state == Ready {
        ok, child := BranchOff(name, parent.value, expires);
      }
    }

    method BranchOff(name: string, parent: Id, expires: Option<int>) returns (ok: bool, child: Option<Id>)
      requires Valid() && ValidName(name) && IsReady(reg.branches, parent)
      modifies reg`branches, reg`journal, drv
      ensures Valid()
      ensures child.None? ==> !ok && W() == old(W())
      ensures child.Some? ==> child.value !in old(reg.branches)
      ensures child.Some? ==> FromParent(old(W()), W(), parent, child.value, name, expires, ok, rotate)
      ensures old(Unnamed(reg.branches, name)) && drv.Flawless() && reg.freshIds ==> ok
      ensures !old(Unnamed(reg.branches, name)) ==> child.None?
      ensures drv.reliable && old(Sole(W())) ==> Sole(W())
    {
      hide CsiOk, CsiRow, Serving, Cloned, RightTarget, FromParent, JournalFits, Sole, CloneMoment;
      ghost var w := W();
      ok := false;
      var p := reg.branches[parent];
      var b := Branch(name, p.source, Creating, None, RW(name, 1), p.rw, expires, None, p.name, reg.clock);
      child := reg.CreateBranch(b);
      if child.None? {
        return;
      }
      BornChild(w, W(), parent, child.value);
      ok := ProvisionNew(w, parent, child.value);
    }

    /** Provisions a row that was just inserted; a failed provision leaves a failed
        row. */
    method ProvisionNew(ghost w: World, ghost p: Id, child: Id) returns (ok: bool)
      requires Valid() && CsiOk(w) && IsReady(w.branches, p) && child !in w.branches && Live(reg.branches, child)
      requires W() == w.(branches := w.branches[child := reg.branches[child]]) && w.branches[p].rw in w.vols
      requires
        var b, q := reg.branches[child], w.branches[p];
        b.source == q.source && b.state == Creating && b.container == None && b.rw == RW(b.name, 1) && b.srcVol == q.rw
        && b.parentName == q.name != "" && b.source in w.sources
      modifies reg`branches, reg`journal, drv
      ensures Valid()
      ensures FromParent(w, W(), p, child, old(reg.branches[child].name), old(reg.branches[child].expires), ok, rotate)
      ensures (drv.Flawless() ==> ok) && (drv.reliable && old(Sole(W())) ==> Sole(W()))
    {
      hide CsiOk, CsiRow, Serving, Cloned, RightTarget, FromParent, Sole, CloneMoment;
      ghost var w1 := W();
      ghost var t, cut;
      ok, t, cut := Provision(child);
      ParentIsTarget(w1, p, child, t);
      ghost var w2 := W();
      ClonedRow(w1, w2, child, t, ok, drv.reliable);
      if !ok {
        Mark(child, Failed);
      }
      FromEnd(w, w1, w2, W(), p, child, t, ok, rotate, drv.reliable);
      SoleEnd(w2, W(), child);
    }

    /** A valid name, and with a cap of n > 0 fewer than n live branches. */
    ghost predicate Admissible(name: string)
      reads this, reg
    {
      ValidName(name) && (maxBranches > 0 ==> |LiveRows(reg.branches)| < maxBranches)
    }

    /** All that a branch-from-branch asks of the registry. */
    ghost predicate CanBranch(name: string, parentName: string)
      reads this, reg
    {
      Admissible(name) && Unnamed(reg.branches, name) && exists p :: IsReady(reg.branches, p) && reg.branches[p].name == parentName
    }
  }
}
