/** Whole runs: any sequence of operations mixed with guest writes. */
module Runs {
  import opened Options
  import opened BranchStates
  import opened Names
  import opened Overlay
  import opened Worlds
  import opened Steps
  import opened Engine
  import opened Leftovers
  import opened Branching
  import opened Freeze
  import opened Removal
  import S = Sources
  import C = Reconcile

  datatype Command =
    | AddSource(name: string, masked: bool, database: Content)
    | RefreshSource(name: string, database: Content)
    | RemoveSource(name: string)
    | CreateBranch(name: string, source: string, expires: Option<int>)
    | CreateBranchFrom(name: string, parent: string, expires: Option<int>)
    | ResetBranch(name: string)
    | DestroyBranch(name: string)
    | DiffBranch(name: string, throwaway: string)
    | GuestWrite(name: string, path: Path, entry: Entry)
    | Reconcile(now: int, timeout: nat)
    | Wait(seconds: nat)

  /** The name rule: a name is only given to a new branch or source generation
      if no live layer, source or pin already owns the volume name it yields. */
  predicate Allowed(sources: map<Id, Source>, bs: map<Id, Branch>, ls: map<Id, Layer>, cmd: Command) {
    match cmd
    case AddSource(name, _, _) => OwnNameOnly(sources, bs, name, SourceVolume(name, 1))
    case RefreshSource(name, _) =>
      forall t | t in sources :: sources[t].name == name && sources[t].state == Seeded ==>
        OwnNameOnly(sources, bs, name, SourceVolume(name, sources[t].gen + 1))
    case CreateBranch(name, _, _) => NameFree(ls, name)
    case CreateBranchFrom(name, _, _) => NameFree(ls, name)
    case DiffBranch(_, throwaway) => NameFree(ls, throwaway)
    case _ => true
  }

  /** The branches whose view a command may change: the one it writes to or
      resets, and the parent of a freeze that finds a leftover volume. */
  ghost function Subjects(w: World, cmd: Command): set<Id> {
    match cmd
    case ResetBranch(name) => set id | id in w.branches && Live(w.branches, id) && w.branches[id].name == name
    case GuestWrite(name, _, _) => set id | id in w.branches && Live(w.branches, id) && w.branches[id].name == name
    case CreateBranchFrom(_, parent, _) =>
      set id | id in w.branches && Live(w.branches, id) && w.branches[id].name == parent && NextVolume(w, id) in w.vols
    case _ => {}
  }

  /** Without leftovers a freeze has no subject. */
  lemma TightSubjects(w: World, cmd: Command)
    requires Inv(w) && Tight(w) && !cmd.ResetBranch? && !cmd.GuestWrite?
    ensures Subjects(w, cmd) == {}
  {
    hide Inv, Tight, Chain;
    if cmd.CreateBranchFrom? {
      forall id | id in w.branches && Live(w.branches, id)
        ensures NextVolume(w, id) !in w.vols
      {
        NextVolumeAbsent(w, id);
      }
    }
  }

  /** The commands that name a branch as what they write to, reset or freeze. */
  ghost predicate Named(w: World, cmd: Command, id: Id) {
    && id in w.branches
    && match cmd
       case GuestWrite(name, _, _) => w.branches[id].name == name
       case ResetBranch(name) => w.branches[id].name == name
       case CreateBranchFrom(_, parent, _) => w.branches[id].name == parent
       case _ => false
  }

  /** What a command does to a branch that is ready before and after. */
  ghost predicate Effect(w: World, cmd: Command, w': World, id: Id, rotate: bool)
    requires id in w.branches && id in w'.branches
  {
    if !Named(w, cmd, id) then FaceKept(w, w', id)
    else match cmd
      case GuestWrite(_, p, entry) => View(w', id) == Written(View(w, id), p, entry) && Ground(w', id) == Ground(w, id)
      case ResetBranch(_) => Ground(w', id) == Ground(w, id) && (PlainRow(w, id, rotate) ==> View(w', id) == Ground(w, id))
      case _ => (FaceKept(w, w', id) && w'.branches[id].base == w.branches[id].base) || FrozenFace(w, w', id)
  }

  /** Where a new ready branch comes from: a source's current generation, or the
      tree another branch shows. */
  ghost predicate Birth(w: World, cmd: Command, w': World, id: Id, rotate: bool)
    requires id in w'.branches
  {
    && (PlainRow(w', id, rotate) && (Tight(w) || RW(w'.branches[id].name, 1) !in w.vols) ==> View(w', id) == Ground(w', id))
    && match cmd
       case CreateBranch(name, source, _) =>
         && w'.branches[id].name == name
         && exists s :: s in w.sources && w.sources[s].name == source && w.sources[s].state == Seeded && w.sources[s].vol in w.vols
                        && Ground(w', id) == Merged([w.vols[w.sources[s].vol].files])
       case CreateBranchFrom(name, parent, _) =>
         && w'.branches[id].name == name
         && exists p :: IsReady(w.branches, p) && w.branches[p].name == parent && Ground(w', id) == View(w, p)
       case _ => false
  }

  ghost predicate Effects(w: World, cmd: Command, w': World, rotate: bool) {
    && (forall id | IsReady(w.branches, id) && IsReady(w'.branches, id) :: Effect(w, cmd, w', id, rotate))
    && (forall id | id !in w.branches && IsReady(w'.branches, id) :: Birth(w, cmd, w', id, rotate))
    && NoneRisen(w.branches, w'.branches)
  }

  /** What every command of a run guarantees. */
  ghost predicate Step(w: World, cmd: Command, w': World, reliable: bool, rotate: bool) {
    && Inv(w')
    && Effects(w, cmd, w', rotate)
    && SourcesStep(w, cmd, w')
    && (reliable && Tight(w) ==> Tight(w'))
  }

  /** A ready source and what its current volume holds. */
  ghost predicate Stored(w: World, s: Id) {
    s in w.sources && w.sources[s].state == Seeded && w.sources[s].vol in w.vols
  }

  ghost function Held(w: World, s: Id): Content
    requires Stored(w, s)
  {
    w.vols[w.sources[s].vol].files
  }

  /** Every ready source is as it was, or the command has just seeded it. */
  ghost predicate SourcesStep(w: World, cmd: Command, w': World) {
    forall s | s in w'.sources && w'.sources[s].state == Seeded :: SameStore(w, w', s) || Filled(w, cmd, w', s)
  }

  ghost predicate SameStore(w: World, w': World, s: Id) {
    Stored(w, s) && Stored(w', s) && w'.sources[s] == w.sources[s] && Held(w', s) == Held(w, s)
  }

  ghost predicate Filled(w: World, cmd: Command, w': World, s: Id) {
    && Stored(w', s)
    && match cmd
       case AddSource(name, masked, database) =>
         s !in w.sources && w'.sources[s] == Source(name, Seeded, SourceVolume(name, 1), 1, masked) && Held(w', s) == database
       case RefreshSource(name, database) =>
         && Stored(w, s) && w.sources[s].name == name && w'.sources[s].gen == w.sources[s].gen + 1
         && w'.sources[s].vol == SourceVolume(name, w.sources[s].gen + 1) && Held(w', s) == database
       case _ => false
  }

  /** A source out of scope is as it was. */
  lemma SourceOutside(w: World, w': World, s: Id, scope: Scope)
    requires Inv(w) && Inv(w') && Kept(w, w', scope) && s !in scope.sources && s in w.sources && w.sources[s].state == Seeded
    ensures SameStore(w, w', s)
  {
    hide Inv, SameChain, Uses;
    SeededExist(w);
    SeededExist(w');
    assert KeptSource(w, w', s);
  }

  lemma SameSources(w: World, cmd: Command, w': World, scope: Scope)
    requires Inv(w) && Inv(w') && Kept(w, w', scope) && scope.sources == {} && w'.sources == w.sources
    ensures SourcesStep(w, cmd, w')
  {
    hide Inv, Kept, SameStore;
    forall s | s in w'.sources && w'.sources[s].state == Seeded
      ensures SameStore(w, w', s)
    {
      SourceOutside(w, w', s, scope);
    }
  }

  lemma Added(w: World, cmd: Command, w': World, ok: bool, s: Option<Id>, scope: Scope)
    requires Inv(w) && Inv(w') && Kept(w, w', scope) && cmd.AddSource? && scope.sources == if s.Some? then {s.value} else {}
    requires if s.None? then w' == w else
      && s.value !in w.sources
      && w'.sources == w.sources[s.value := Source(cmd.name, if ok then Seeded else SeedFailed, SourceVolume(cmd.name, 1), 1, cmd.masked)]
      && (ok ==> SourceVolume(cmd.name, 1) in w'.vols && w'.vols[SourceVolume(cmd.name, 1)].files == cmd.database)
    ensures SourcesStep(w, cmd, w') && (ok && s.Some? ==> Filled(w, cmd, w', s.value))
  {
    hide Inv, Kept, SameStore, SourceVolume;
    forall t | t in w'.sources && w'.sources[t].state == Seeded
      ensures SameStore(w, w', t) || Filled(w, cmd, w', t)
    {
      if t in w.sources {
        SourceOutside(w, w', t, scope);
      }
    }
  }

  lemma Refreshed(w: World, cmd: Command, w': World, ok: bool, s: Option<Id>, scope: Scope)
    requires Inv(w) && Inv(w') && Kept(w, w', scope) && cmd.RefreshSource? && scope.sources == if s.Some? then {s.value} else {}
    requires s.Some? ==> s.value in w.sources && (!ok ==> SameContent(w.vols, w'.vols, w.sources[s.value].vol))
    requires if !ok then w'.sources == w.sources else
      && s.Some? && w.sources[s.value].state == Seeded && w.sources[s.value].name == cmd.name
      && var v := SourceVolume(cmd.name, w.sources[s.value].gen + 1);
      && w'.sources == w.sources[s.value := w.sources[s.value].(gen := w.sources[s.value].gen + 1, vol := v)]
      && v in w'.vols && w'.vols[v].files == cmd.database
    ensures SourcesStep(w, cmd, w') && (ok ==> Filled(w, cmd, w', s.value))
  {
    hide Inv, Kept, SourceVolume;
    SeededExist(w);
    assert ok ==> Filled(w, cmd, w', s.value);
    forall t | t in w'.sources && w'.sources[t].state == Seeded
      ensures SameStore(w, w', t) || Filled(w, cmd, w', t)
    {
      if s != Some(t) {
        SourceOutside(w, w', t, scope);
      }
    }
  }

  lemma Removed(w: World, cmd: Command, w': World, s: Option<Id>, scope: Scope)
    requires Inv(w) && Inv(w') && Kept(w, w', scope) && scope.sources == (if s.Some? then {s.value} else {}) && Fewer(w.vols, w'.vols)
    requires w'.sources == w.sources || (s.Some? && w'.sources == w.sources - {s.value})
    ensures SourcesStep(w, cmd, w')
  {
    hide Inv, Kept;
    SeededExist(w');
    forall t | t in w'.sources && w'.sources[t].state == Seeded
      ensures SameStore(w, w', t)
    {
      if s != Some(t) {
        SourceOutside(w, w', t, scope);
      }
    }
  }

  /** The branches a command works on; halted half way it may leave them in any
      state. */
  ghost predicate Touches(w: World, cmd: Command, id: Id) {
    && id in w.branches
    && match cmd
       case GuestWrite(name, _, _) => w.branches[id].name == name
       case ResetBranch(name) => w.branches[id].name == name
       case DestroyBranch(name) => w.branches[id].name == name
       case CreateBranchFrom(_, parent, _) => w.branches[id].name == parent
       case Reconcile(now, timeout) => id in C.Targets(w, now, now - timeout)
       case _ => false
  }

  ghost predicate Fits(w: World, cmd: Command, scope: Scope) {
    forall id | id in scope.branches && id in w.branches :: Touches(w, cmd, id)
  }

  /** Every state a command passes through, one step after the other, from its
      beginning to its end. */
  ghost predicate Traced(w: World, cmd: Command, w': World, trace: seq<World>) {
    && trace != [] && trace[|trace| - 1] == w'
    && exists scope :: Safe(w, trace, scope) && Fits(w, cmd, scope)
  }

  lemma OperationTraced(w: World, cmd: Command, w': World, trace: seq<World>, scope: Scope)
    requires Safe(w, trace, scope) && trace != [] && trace[|trace| - 1] == w' && Fits(w, cmd, scope)
    ensures Traced(w, cmd, w', trace)
  {
    hide Safe, Fits;
  }

  lemma NothingTraced(w: World, cmd: Command)
    requires Inv(w)
    ensures Traced(w, cmd, w, [w])
  {
    hide Inv, Safe;
    C.JustBegun(w, Scope({}, {}));
    assert Fits(w, cmd, Scope({}, {}));
  }

  /** A command that was halted in a sound state: the branches it did not work on
      are as they were. */
  ghost predicate Crash(w: World, cmd: Command, h: World) {
    && Inv(h)
    && forall id | IsReady(w.branches, id) && IsReady(h.branches, id) && !Touches(w, cmd, id) :: FaceKept(w, h, id)
  }

  /** Wherever a command is halted the state is such a one, or the state between the
      last two steps of a source's removal. */
  lemma CrashAnywhere(w: World, cmd: Command, w': World, trace: seq<World>, h: World)
    requires Inv(w) && Traced(w, cmd, w', trace) && h in trace
    ensures Crash(w, cmd, h) || exists s :: Gap(h, s)
  {
    hide Inv, Kept, Gap, OneSide, FaceKept, Touches;
    var scope :| Safe(w, trace, scope) && Fits(w, cmd, scope);
    ScopeViews(w, h, scope);
  }

  /** A command that names no branch and creates none. */
  lemma Bystanders(w: World, cmd: Command, w': World, rotate: bool)
    requires ViewsKept(w, w', {}) && (forall id | IsReady(w'.branches, id) :: id in w.branches) && NoneRisen(w.branches, w'.branches)
    requires forall id :: !Named(w, cmd, id)
    ensures Effects(w, cmd, w', rotate)
  {
    hide FaceKept, Birth, Named;
  }

  /** The command asks for nothing that has to be refused. */
  ghost predicate Possible(w: World, max: nat, cmd: Command) {
    match cmd
    case AddSource(name, _, _) => ValidName(name) && SourceNameUnused(w.sources, name)
    case RefreshSource(name, _) => exists s :: s in w.sources && w.sources[s].name == name && w.sources[s].state == Seeded
    case RemoveSource(name) =>
      && (exists s :: s in w.sources && w.sources[s].name == name)
      && (forall id | Live(w.branches, id) && w.branches[id].source in w.sources ::
            w.sources[w.branches[id].source].name != name)
    case CreateBranch(name, source, _) => CanCreate(w, max, name, source)
    case CreateBranchFrom(name, parent, _) => CanBranch(w.branches, max, name, parent)
    case ResetBranch(name) => exists id :: IsReady(w.branches, id) && w.branches[id].name == name
    case DestroyBranch(name) => exists id :: Live(w.branches, id) && w.branches[id].name == name && w.branches[id].state != Destroying
    case DiffBranch(name, throwaway) => CanDiff(w.branches, name, throwaway)
    case _ => true
  }

  /** It has been carried out. */
  ghost predicate Carried(w: World, cmd: Command, w': World) {
    match cmd
    case AddSource(_, _, _) => exists s :: Filled(w, cmd, w', s)
    case RefreshSource(_, _) => exists s :: Filled(w, cmd, w', s)
    case RemoveSource(name) => exists s :: s in w.sources && w.sources[s].name == name && w'.sources == w.sources - {s}
    case CreateBranch(name, source, expires) => exists id :: NewBranch(w, w', id, name, "", expires)
    case CreateBranchFrom(name, parent, expires) => exists id :: NewBranch(w, w', id, name, parent, expires)
    case ResetBranch(name) => exists id :: IsReady(w.branches, id) && w.branches[id].name == name && IsReady(w'.branches, id)
    case DestroyBranch(name) => Unused(w'.branches, name)
    case DiffBranch(_, throwaway) => exists id :: id !in w.branches && id in w'.branches && w'.branches[id].name == throwaway
    case _ => true
  }

  ghost predicate NewBranch(w: World, w': World, id: Id, name: string, parent: string, expires: Option<int>) {
    && id !in w.branches && IsReady(w'.branches, id)
    && w'.branches[id].name == name && w'.branches[id].parentName == parent && w'.branches[id].expires == expires
  }

  method ExecuteOnSource(e: Engine, cmd: Command) returns (ghost trace: seq<World>)
    requires Inv(e.W()) && Allowed(e.reg.sources, e.reg.branches, e.reg.layers, cmd)
    requires cmd.AddSource? || cmd.RefreshSource? || cmd.RemoveSource?
    modifies e.reg, e.drv, e
    ensures Step(old(e.W()), cmd, e.W(), e.drv.reliable, e.rotate) && Traced(old(e.W()), cmd, e.W(), trace)
    ensures e.drv.Flawless() && e.reg.freshIds && old(Possible(e.W(), e.maxBranches, cmd)) ==> Carried(old(e.W()), cmd, e.W())
  {
    hide SourcesStep, Inv, Kept, Safe, Tight, ViewsKept, OwnNameOnly, SourceVolume, Effects, Filled;
    ghost var w := e.W();
    var ok, s;
    match cmd {
      case AddSource(name, masked, database) =>
        ok, s := S.AddSource(e, name, masked, database);
        Added(w, cmd, e.W(), ok, s, e.scope);
      case RefreshSource(name, database) =>
        ok, s := S.RefreshSource(e, name, database);
        Refreshed(w, cmd, e.W(), ok, s, e.scope);
      case RemoveSource(name) =>
        ok, s := S.RemoveSource(e, name);
        Removed(w, cmd, e.W(), s, e.scope);
    }
    Bystanders(w, cmd, e.W(), e.rotate);
    trace := e.hist;
    OperationTraced(w, cmd, e.W(), e.hist, e.scope);
  }

  method ExecuteDestroy(e: Engine, cmd: Command) returns (ghost trace: seq<World>)
    requires Inv(e.W()) && cmd.DestroyBranch?
    modifies e.reg, e.drv, e
    ensures Step(old(e.W()), cmd, e.W(), e.drv.reliable, e.rotate) && Traced(old(e.W()), cmd, e.W(), trace)
    ensures e.drv.Flawless() && e.reg.freshIds && old(Possible(e.W(), e.maxBranches, cmd)) ==> Carried(old(e.W()), cmd, e.W())
  {
    hide SourcesStep, Inv, Kept, Safe, Tight, ViewsKept, Effects, Freed;
    ghost var w := e.W();
    var ok, id := Branching.DestroyBranch(e, cmd.name);
    UniqueName(w, id, cmd.name);
    Bystanders(w, cmd, e.W(), e.rotate);
    SameSources(w, cmd, e.W(), e.scope);
    trace := e.hist;
    OperationTraced(w, cmd, e.W(), e.hist, e.scope);
  }

  method ExecuteDiff(e: Engine, cmd: Command) returns (ghost trace: seq<World>)
    requires Inv(e.W()) && Allowed(e.reg.sources, e.reg.branches, e.reg.layers, cmd) && cmd.DiffBranch?
    modifies e.reg, e.drv, e
    ensures Step(old(e.W()), cmd, e.W(), e.drv.reliable, e.rotate) && Traced(old(e.W()), cmd, e.W(), trace)
    ensures e.drv.Flawless() && e.reg.freshIds && old(Possible(e.W(), e.maxBranches, cmd)) ==> Carried(old(e.W()), cmd, e.W())
  {
    hide SourcesStep, Inv, Kept, Safe, Tight, ViewsKept, NameFree, View, Stack, Effects, Conservative, BaseTwin, DiffOf, CanDiff;
    ghost var w := e.W();
    var ok, id, tw, report := Branching.DiffBranch(e, cmd.name, cmd.throwaway);
    Bystanders(w, cmd, e.W(), e.rotate);
    SameSources(w, cmd, e.W(), e.scope);
    trace := e.hist;
    OperationTraced(w, cmd, e.W(), e.hist, e.scope);
  }

  method ExecuteCreate(e: Engine, cmd: Command) returns (ghost trace: seq<World>)
    requires Inv(e.W()) && Allowed(e.reg.sources, e.reg.branches, e.reg.layers, cmd) && cmd.CreateBranch?
    modifies e.reg, e.drv, e
    ensures Step(old(e.W()), cmd, e.W(), e.drv.reliable, e.rotate) && Traced(old(e.W()), cmd, e.W(), trace)
    ensures e.drv.Flawless() && e.reg.freshIds && old(Possible(e.W(), e.maxBranches, cmd)) ==> Carried(old(e.W()), cmd, e.W())
  {
    hide SourcesStep, Inv, Kept, Safe, Tight, ViewsKept, NameFree, View, Ground, FaceKept;
    ghost var w := e.W();
    var ok, id := Branching.CreateBranch(e, cmd.name, cmd.source, cmd.expires);
    if Tight(w) && id.Some? {
      assert forall j: Id | Live(w.branches, j) :: w.branches[j].name != cmd.name;
      FirstVolumeAbsent(w, cmd.name);
    }
    assert Effects(w, cmd, e.W(), e.rotate) by { KeptEffects(w, cmd, e.W(), {}, e.rotate); }
    assert ok ==> NewBranch(w, e.W(), id.value, cmd.name, "", cmd.expires);
    hide Effects, NewBranch, CanCreate;
    SameSources(w, cmd, e.W(), e.scope);
    trace := e.hist;
    OperationTraced(w, cmd, e.W(), e.hist, e.scope);
  }

  lemma KeptEffects(w: World, cmd: Command, w': World, subjects: set<Id>, rotate: bool)
    requires ViewsKept(w, w', subjects)
    requires forall id | IsReady(w.branches, id) && IsReady(w'.branches, id) && Named(w, cmd, id) :: id in subjects
    ensures forall id | IsReady(w.branches, id) && IsReady(w'.branches, id) && id !in subjects :: Effect(w, cmd, w', id, rotate)
  {
    hide FaceKept, Named;
  }

  method ExecuteReset(e: Engine, cmd: Command) returns (ghost trace: seq<World>)
    requires Inv(e.W()) && cmd.ResetBranch?
    modifies e.reg, e.drv, e
    ensures Step(old(e.W()), cmd, e.W(), e.drv.reliable, e.rotate) && Traced(old(e.W()), cmd, e.W(), trace)
    ensures e.drv.Flawless() && e.reg.freshIds && old(Possible(e.W(), e.maxBranches, cmd)) ==> Carried(old(e.W()), cmd, e.W())
  {
    hide SourcesStep, Inv, Kept, Safe, Tight, ViewsKept, View, Ground, FaceKept;
    ghost var w := e.W();
    var ok, id := Branching.ResetBranch(e, cmd.name);
    NamedOnce(w, id, cmd);
    KeptEffects(w, cmd, e.W(), if id.Some? then {id.value} else {}, e.rotate);
    SameSources(w, cmd, e.W(), e.scope);
    trace := e.hist;
    OperationTraced(w, cmd, e.W(), e.hist, e.scope);
  }

  /** Live names are unique: a command names the branch it finds and no other. */
  lemma NamedOnce(w: World, found: Option<Id>, cmd: Command)
    requires Inv(w) && (cmd.ResetBranch? || cmd.GuestWrite? || cmd.CreateBranchFrom?)
    requires found.Some? ==> Live(w.branches, found.value) && Named(w, cmd, found.value)
    ensures found.Some? ==> forall id | IsReady(w.branches, id) && Named(w, cmd, id) :: id == found.value
  {
    if found.Some? {
      forall id | IsReady(w.branches, id) && Named(w, cmd, id)
        ensures id == found.value
      {
        assert Live(w.branches, id);
        LiveRow(w, id);
      }
    }
  }

  method ExecuteFreeze(e: Engine, cmd: Command) returns (ghost trace: seq<World>)
    requires Inv(e.W()) && Allowed(e.reg.sources, e.reg.branches, e.reg.layers, cmd) && cmd.CreateBranchFrom?
    modifies e.reg, e.drv, e
    ensures Step(old(e.W()), cmd, e.W(), e.drv.reliable, e.rotate) && Traced(old(e.W()), cmd, e.W(), trace)
    ensures e.drv.Flawless() && e.reg.freshIds && old(Possible(e.W(), e.maxBranches, cmd)) ==> Carried(old(e.W()), cmd, e.W())
  {
    hide NewBranch, CanBranch, SourcesStep, Inv, Kept, Safe, Tight, ViewsKept, NameFree, NextVolume, FromParent, View, Ground, FaceKept;
    ghost var w := e.W();
    var ok, parent, child;
    ghost var asked, x;
    ok, parent, child, asked, x := Branching.CreateBranchFrom(e, cmd.name, cmd.parent, cmd.expires);
    if child.Some? {
      FreezeEffects(w, cmd, asked, e.W(), parent.value, child.value, ok, x, e.hist, e.rotate, e.drv.reliable);
      if ok {
        ChildAsked(w, asked, e.W(), e.hist, parent.value, child.value, cmd.name, cmd.expires, x, e.rotate, e.drv.reliable);
      }
    } else {
      NothingDone(w, cmd, e.rotate);
    }
    SameSources(w, cmd, e.W(), e.scope);
    trace := e.hist;
    OperationTraced(w, cmd, e.W(), e.hist, e.scope);
  }

  lemma ChildAsked(w: World, asked: World, w': World, hist: seq<World>, parent: Id, child: Id, name: string, expires: Option<int>, x: Id, rotate: bool, reliable: bool)
    requires FromParent(w, asked, w', hist, parent, child, name, expires, true, x, rotate, reliable)
    ensures parent in w.branches && NewBranch(w, w', child, name, w.branches[parent].name, expires)
  {
    hide Inv, View, Ground, Born, Shielded, BornAsParent, FrozenFace, Stack;
  }

  lemma NothingDone(w: World, cmd: Command, rotate: bool)
    requires cmd.CreateBranchFrom?
    ensures Effects(w, cmd, w, rotate)
  {
    hide View, Ground;
  }

  lemma FreezeEffects(w: World, cmd: Command, asked: World, w': World, parent: Id, child: Id, ok: bool, x: Id,
                      hist: seq<World>, rotate: bool, reliable: bool)
    requires Inv(w) && cmd.CreateBranchFrom? && Live(w.branches, parent) && w.branches[parent].name == cmd.parent
    requires FromParent(w, asked, w', hist, parent, child, cmd.name, cmd.expires, ok, x, rotate, reliable)
    requires NameFree(w.layers, cmd.name) && ViewsKept(w, w', if ok then {parent} else {})
    ensures Effects(w, cmd, w', rotate)
  {
    hide Inv, View, Ground, FaceKept, FrozenFace, Born, Birth, Chain, Stack, NameFree, NameUnused, Shielded, Requested, BornAsParent, Tight;
    NamedOnce(w, Some(parent), cmd);
    assert IsReady(w.branches, parent);
    forall id | IsReady(w.branches, id) && IsReady(w'.branches, id)
      ensures Effect(w, cmd, w', id, rotate)
    {
      if Named(w, cmd, id) {
        assert id == parent;
      }
    }
    forall id | id !in w.branches && IsReady(w'.branches, id)
      ensures Birth(w, cmd, w', id, rotate)
    {
      assert id == child && ok;
      FreezeBirth(w, cmd, asked, w', parent, child, x, hist, rotate, reliable);
    }
  }

  lemma FreezeBirth(w: World, cmd: Command, asked: World, w': World, parent: Id, child: Id, x: Id,
                    hist: seq<World>, rotate: bool, reliable: bool)
    requires Inv(w) && Inv(asked) && cmd.CreateBranchFrom? && IsReady(w.branches, parent) && w.branches[parent].name == cmd.parent
    requires FromOutcome(w, asked, w', Some(parent), child, cmd.name, true, x, hist, rotate, reliable) && child in w'.branches
    requires NameFree(w.layers, cmd.name) && NameUnused(w.branches, child, cmd.name)
    ensures Birth(w, cmd, w', child, rotate)
  {
    hide Inv, View, Ground, Born, Chain, NameFree, NameUnused, Tight, BornAsParent;
    RowViews(w, asked, parent, child);
    if Tight(w) {
      FromBirth(w, asked, w', parent, child, cmd.name, x, hist, rotate, reliable);
    }
    FreezeGround(asked, w', parent, child, x, hist, PlainRow(asked, child, rotate));
    if PlainRow(w', child, rotate) && RW(cmd.name, 1) !in w.vols {
      PlainChildView(asked, w', parent, child, x, hist);
    }
  }

  method ExecuteWrite(e: Engine, cmd: Command) returns (ghost trace: seq<World>)
    requires Inv(e.W()) && cmd.GuestWrite?
    modifies e.drv, e
    ensures Step(old(e.W()), cmd, e.W(), e.drv.reliable, e.rotate) && Traced(old(e.W()), cmd, e.W(), trace)
  {
    hide SourcesStep, Inv, Kept, Safe, Tight, ViewsKept, View, Ground, FaceKept;
    ghost var w := e.W();
    var found := e.reg.GetBranchByName(cmd.name);
    NamedOnce(w, found, cmd);
    if found.Some? && e.reg.branches[found.value].state == Ready {
      Branching.GuestWrite(e, found.value, cmd.path, cmd.entry);
      KeptEffects(w, cmd, e.W(), {found.value}, e.rotate);
      SameSources(w, cmd, e.W(), e.scope);
      trace := e.hist;
      OperationTraced(w, cmd, e.W(), e.hist, e.scope);
    } else {
      SameViews(e, w);
      KeptEffects(w, cmd, e.W(), {}, e.rotate);
      KeptRefl(w, Scope({}, {}));
      SameSources(w, cmd, e.W(), Scope({}, {}));
      trace := [w];
      NothingTraced(w, cmd);
    }
  }

  lemma NothingToCarry(w: World, cmd: Command)
    ensures cmd.GuestWrite? || cmd.Reconcile? || cmd.Wait? ==> forall w' :: Carried(w, cmd, w')
  {
  }

  /** Runs one command to its end. */
  method Execute(e: Engine, cmd: Command) returns (ghost trace: seq<World>)
    requires Inv(e.W()) && Allowed(e.reg.sources, e.reg.branches, e.reg.layers, cmd)
    modifies e.reg, e.drv, e
    ensures Step(old(e.W()), cmd, e.W(), e.drv.reliable, e.rotate) && Traced(old(e.W()), cmd, e.W(), trace)
    ensures e.drv.Flawless() && e.reg.freshIds && old(Possible(e.W(), e.maxBranches, cmd)) ==> Carried(old(e.W()), cmd, e.W())
  {
    hide Possible, Carried, SourcesStep, Inv, Kept, Safe, Tight, ViewsKept, Allowed, Effects;
    ghost var w := e.W();
    NothingToCarry(w, cmd);
    if cmd.AddSource? || cmd.RefreshSource? || cmd.RemoveSource? {
      trace := ExecuteOnSource(e, cmd);
    } else if cmd.CreateBranch? {
      trace := ExecuteCreate(e, cmd);
    } else if cmd.CreateBranchFrom? {
      trace := ExecuteFreeze(e, cmd);
    } else if cmd.ResetBranch? {
      trace := ExecuteReset(e, cmd);
    } else if cmd.GuestWrite? {
      trace := ExecuteWrite(e, cmd);
    } else if cmd.Wait? {
      e.reg.Tick(cmd.seconds);
      SameViews(e, w);
      Bystanders(w, cmd, e.W(), e.rotate);
      KeptRefl(w, Scope({}, {}));
      SameSources(w, cmd, e.W(), Scope({}, {}));
      trace := [w];
      NothingTraced(w, cmd);
    } else if cmd.Reconcile? {
      var taken;
      taken, trace := C.ApplyReconcile(e, cmd.now, cmd.timeout);
      Bystanders(w, cmd, e.W(), e.rotate);
      SameSources(w, cmd, e.W(), Scope(C.Targets(w, cmd.now, cmd.now - cmd.timeout), {}));
      OperationTraced(w, cmd, e.W(), trace, Scope(C.Targets(w, cmd.now, cmd.now - cmd.timeout), {}));
    } else if cmd.DestroyBranch? {
      trace := ExecuteDestroy(e, cmd);
    } else {
      trace := ExecuteDiff(e, cmd);
    }
  }

  ghost predicate Refused(w: World, cmd: Command, w': World) {
    w' == w && !Allowed(w.sources, w.branches, w.layers, cmd)
  }

  /** A run: the states between the commands. A command that breaks the name rule
      is not executed. */
  ghost predicate IsRun(states: seq<World>, cmds: seq<Command>, reliable: bool, rotate: bool) {
    && |states| == |cmds| + 1
    && forall i | 0 <= i < |cmds| ::
         Refused(states[i], cmds[i], states[i + 1]) || Step(states[i], cmds[i], states[i + 1], reliable, rotate)
  }

  /** No command that could be carried out was left undone. */
  ghost predicate AllCarried(states: seq<World>, cmds: seq<Command>, max: nat)
    requires |states| == |cmds| + 1
  {
    forall i | 0 <= i < |cmds| ::
      Allowed(states[i].sources, states[i].branches, states[i].layers, cmds[i]) && Possible(states[i], max, cmds[i]) ==>
        Carried(states[i], cmds[i], states[i + 1])
  }

  /** Executes a whole script. */
  method Run(e: Engine, cmds: seq<Command>) returns (ghost states: seq<World>)
    requires Inv(e.W())
    modifies e.reg, e.drv, e
    ensures IsRun(states, cmds, e.drv.reliable, e.rotate) && states[0] == old(e.W()) && states[|cmds|] == e.W()
    ensures Inv(e.W())
    ensures e.drv.Flawless() && e.reg.freshIds ==> AllCarried(states, cmds, e.maxBranches)
  {
    hide Inv, Step, Allowed, Possible, Carried;
    states := [e.W()];
    for i := 0 to |cmds|
      invariant Inv(e.W()) && IsRun(states, cmds[..i], e.drv.reliable, e.rotate)
      invariant states[0] == old(e.W()) && states[i] == e.W()
      invariant e.drv.Flawless() && e.reg.freshIds ==> AllCarried(states, cmds[..i], e.maxBranches)
    {
      ghost var w := e.W();
      if Allowed(e.reg.sources, e.reg.branches, e.reg.layers, cmds[i]) {
        ghost var trace := Execute(e, cmds[i]);
        StepInv(w, cmds[i], e.W(), e.drv.reliable, e.rotate);
      }
      states := states + [e.W()];
      assert cmds[..i + 1] == cmds[..i] + [cmds[i]];
    }
    assert cmds[..|cmds|] == cmds;
  }

  lemma StepInv(w: World, cmd: Command, w': World, reliable: bool, rotate: bool)
    requires Step(w, cmd, w', reliable, rotate)
    ensures Inv(w')
  {
  }

  /** The invariant, and in runs where removals succeed also its stronger form,
      hold in every state of a run. */
  lemma {:induction false} RunInvariant(states: seq<World>, cmds: seq<Command>, reliable: bool, rotate: bool, i: nat)
    requires IsRun(states, cmds, reliable, rotate) && Inv(states[0]) && i <= |cmds|
    ensures Inv(states[i])
    ensures reliable && Tight(states[0]) ==> Tight(states[i])
  {
    hide Inv, Tight, Effects, Allowed;
    if i > 0 {
      RunInvariant(states, cmds, reliable, rotate, i - 1);
      assert Refused(states[i - 1], cmds[i - 1], states[i]) || Step(states[i - 1], cmds[i - 1], states[i], reliable, rotate);
    }
  }

  /** The branch is ready in each of the first states. */
  ghost predicate ReadyUntil(states: seq<World>, id: Id, i: nat) {
    i < |states| && forall j | 0 <= j <= i :: IsReady(states[j].branches, id)
  }

  /** One step of a run, for a branch that is ready before and after it. */
  lemma StepEffect(states: seq<World>, cmds: seq<Command>, reliable: bool, rotate: bool, id: Id, i: nat)
    requires IsRun(states, cmds, reliable, rotate) && i < |cmds| && IsReady(states[i].branches, id) && IsReady(states[i + 1].branches, id)
    ensures Effect(states[i], cmds[i], states[i + 1], id, rotate) || Refused(states[i], cmds[i], states[i + 1])
  {
    hide Inv, Tight, Effect, Birth, Allowed;
    assert Refused(states[i], cmds[i], states[i + 1]) || Step(states[i], cmds[i], states[i + 1], reliable, rotate);
  }

  /** Isolation over a whole run: a branch that is ready throughout and is never
      itself written to or reset (nor frozen onto a leftover volume) shows in
      the end exactly the tree it showed in the beginning. */
  lemma {:induction false} RunIsolation(states: seq<World>, cmds: seq<Command>, reliable: bool, rotate: bool, id: Id, i: nat)
    requires IsRun(states, cmds, reliable, rotate) && i <= |cmds|
    requires ReadyUntil(states, id, i)
    requires forall j | 0 <= j < i :: id !in Subjects(states[j], cmds[j])
    ensures View(states[i], id) == View(states[0], id)
  {
    hide Step, View, Ground, Allowed, NextVolume;
    if i > 0 {
      RunIsolation(states, cmds, reliable, rotate, id, i - 1);
      StepEffect(states, cmds, reliable, rotate, id, i - 1);
      assert id !in Subjects(states[i - 1], cmds[i - 1]);
    }
  }

  // -------------------------------------------------------- runs with crashes

  /** A run in which any command may be halted after any of its steps, the daemon
      starting again on what it finds. */
  ghost predicate IsCrashRun(states: seq<World>, cmds: seq<Command>, reliable: bool, rotate: bool) {
    && |states| == |cmds| + 1
    && forall i | 0 <= i < |cmds| ::
         || Refused(states[i], cmds[i], states[i + 1])
         || Step(states[i], cmds[i], states[i + 1], reliable, rotate)
         || Crash(states[i], cmds[i], states[i + 1])
  }

  /** The invariant survives crashes. */
  lemma {:induction false} CrashRunInvariant(states: seq<World>, cmds: seq<Command>, reliable: bool, rotate: bool, i: nat)
    requires IsCrashRun(states, cmds, reliable, rotate) && Inv(states[0]) && i <= |cmds|
    ensures Inv(states[i])
  {
    hide Inv, Tight, Effects, Allowed, Touches;
    if i > 0 {
      CrashRunInvariant(states, cmds, reliable, rotate, i - 1);
      assert Refused(states[i - 1], cmds[i - 1], states[i]) || Step(states[i - 1], cmds[i - 1], states[i], reliable, rotate)
             || Crash(states[i - 1], cmds[i - 1], states[i]);
    }
  }

  /** So at no moment of any run, halted commands or not, is a branch ready that was
      not masked: if its source has mask scripts they have completed in a volume of
      its own that it is mounted from, and if branches get passwords of their own
      it has one. */
  lemma RunServed(states: seq<World>, cmds: seq<Command>, reliable: bool, rotate: bool, id: Id, i: nat)
    requires IsCrashRun(states, cmds, reliable, rotate) && Inv(states[0]) && i <= |cmds| && IsReady(states[i].branches, id)
    ensures
      var w, b := states[i], states[i].branches[id];
      && b.source in w.sources && b.container.Some? && w.answers(b.container.value)
      && (w.sources[b.source].masked ==> exists v | v in Stack(w.layers, b) && v in w.vols :: v.RW? && v.branch == b.name && w.vols[v].masked)
      && (w.rotate ==> exists v | v in Stack(w.layers, b) && v in w.vols :: v.RW? && v.branch == b.name && w.vols[v].rotated)
  {
    hide Inv, Stack, Step, Crash, Refused;
    CrashRunInvariant(states, cmds, reliable, rotate, i);
    ReadyServed(states[i], id);
  }

  lemma NamedTouches(w: World, cmd: Command, id: Id)
    requires Named(w, cmd, id)
    ensures Touches(w, cmd, id)
  {
  }

  /** And so does isolation: a branch that is ready throughout, and that no command
      worked on, shows in the end what it showed in the beginning. */
  lemma {:induction false} CrashRunIsolation(states: seq<World>, cmds: seq<Command>, reliable: bool, rotate: bool, id: Id, i: nat)
    requires IsCrashRun(states, cmds, reliable, rotate) && i <= |cmds| && ReadyUntil(states, id, i)
    requires forall j | 0 <= j < i :: !Touches(states[j], cmds[j], id)
    ensures View(states[i], id) == View(states[0], id) && Ground(states[i], id) == Ground(states[0], id)
  {
    hide View, Ground, Allowed, Named, Touches, Inv, Tight, Birth, NoneRisen;
    if i > 0 {
      CrashRunIsolation(states, cmds, reliable, rotate, id, i - 1);
      var w, w', cmd := states[i - 1], states[i], cmds[i - 1];
      assert Refused(w, cmd, w') || Step(w, cmd, w', reliable, rotate) || Crash(w, cmd, w');
      assert IsReady(w.branches, id) && IsReady(w'.branches, id) && !Touches(w, cmd, id);
      if Named(w, cmd, id) {
        NamedTouches(w, cmd, id);
      }
      assert FaceKept(w, w', id);
    }
  }

  // ------------------------------------------------------- a run, branch by branch

  /** A branch as its clients know it: what it shows and what a reset returns it
      to. */
  datatype Face = Face(view: map<Path, string>, ground: map<Path, string>)

  ghost function FaceOf(w: World, id: Id): Face
    requires id in w.branches
  {
    Face(View(w, id), Ground(w, id))
  }

  /** The simple machine a branch ought to be: writes change what it shows, a reset
      returns it to its ground, a freeze makes what it shows its ground. All other
      commands pass it by. */
  function Played(f: Face, cmd: Command, frozen: bool): Face {
    match cmd
    case GuestWrite(_, p, entry) => Face(Written(f.view, p, entry), f.ground)
    case ResetBranch(_) => Face(f.ground, f.ground)
    case CreateBranchFrom(_, _, _) => if frozen then Face(f.view, f.view) else f
    case _ => f
  }

  lemma EffectPlayed(w: World, cmd: Command, w': World, id: Id, rotate: bool)
    requires id in w.branches && id in w'.branches && PlainRow(w, id, rotate) && NextVolume(w, id) !in w.vols
    requires Effect(w, cmd, w', id, rotate) || Refused(w, cmd, w')
    ensures FaceOf(w', id) == if Named(w, cmd, id)
                              then Played(FaceOf(w, id), cmd, w'.branches[id].base != w.branches[id].base) else FaceOf(w, id)
  {
    hide View, Ground, NextVolume;
  }

  /** The machine run on the commands that name the branch, from state `from` on. */
  ghost function Replay(states: seq<World>, cmds: seq<Command>, id: Id, from: nat, i: nat): Face
    requires from <= i <= |cmds| && |states| == |cmds| + 1 && forall j | from <= j <= i :: IsReady(states[j].branches, id)
    decreases i
  {
    assert IsReady(states[i].branches, id);
    if i == from then FaceOf(states[from], id)
    else
      var f := Replay(states, cmds, id, from, i - 1);
      assert IsReady(states[i - 1].branches, id);
      if Named(states[i - 1], cmds[i - 1], id)
      then Played(f, cmds[i - 1], states[i].branches[id].base != states[i - 1].branches[id].base)
      else f
  }

  /** One step of the refinement. */
  lemma StepPlayed(states: seq<World>, cmds: seq<Command>, rotate: bool, id: Id, i: nat)
    requires IsRun(states, cmds, true, rotate) && Inv(states[0]) && Tight(states[0]) && i < |cmds|
    requires IsReady(states[i].branches, id) && IsReady(states[i + 1].branches, id) && PlainRow(states[i], id, rotate)
    ensures FaceOf(states[i + 1], id) ==
            if Named(states[i], cmds[i], id)
            then Played(FaceOf(states[i], id), cmds[i], states[i + 1].branches[id].base != states[i].branches[id].base)
            else FaceOf(states[i], id)
  {
    hide Inv, Tight, Step, FaceOf, Effect, Refused, PlainRow, Named, Played, Chain;
    StepEffect(states, cmds, true, rotate, id, i);
    RunInvariant(states, cmds, true, rotate, i);
    assert Live(states[i].branches, id);
    NextVolumeAbsent(states[i], id);
    EffectPlayed(states[i], cmds[i], states[i + 1], id, rotate);
  }

  /** The engine refines that machine: in a run whose removals succeed, whatever
      all the other branches, the sources and the collector do, and however layers
      are shared, an unmasked branch is for as long as it is ready exactly what its
      own commands made of it. */
  lemma {:induction false} RunReplay(states: seq<World>, cmds: seq<Command>, rotate: bool, id: Id, from: nat, i: nat)
    requires IsRun(states, cmds, true, rotate) && Inv(states[0]) && Tight(states[0]) && from <= i <= |cmds|
    requires forall j | from <= j <= i :: IsReady(states[j].branches, id)
    requires forall j | from <= j < i :: IsReady(states[j].branches, id) && PlainRow(states[j], id, rotate)
    ensures id in states[i].branches && FaceOf(states[i], id) == Replay(states, cmds, id, from, i)
    decreases i
  {
    hide Inv, Tight, Step, Refused, FaceOf, PlainRow, Named, Played;
    assert IsReady(states[i].branches, id);
    if i > from {
      RunReplay(states, cmds, rotate, id, from, i - 1);
      assert IsReady(states[i - 1].branches, id) && PlainRow(states[i - 1], id, rotate);
      StepPlayed(states, cmds, rotate, id, i - 1);
    }
  }

  // ---------------------------------------------- the whole story from the start

  /** The ready source of a name. */
  ghost function SourceNamed(w: World, source: string): Id {
    if exists s: Id :: Stored(w, s) && w.sources[s].name == source
    then var s: Id :| Stored(w, s) && w.sources[s].name == source; s
    else 0
  }

  /** The database a source was last seeded from, told from the commands. Of the
      sources the story asks one thing only: whether a seed went through, which
      makes a new row or a new generation. */
  ghost function SeedStory(states: seq<World>, cmds: seq<Command>, s: Id, i: nat): Content
    requires i <= |cmds| && |states| == |cmds| + 1
    decreases i
  {
    if i == 0 then (if Stored(states[0], s) then Held(states[0], s) else map[])
    else if NewSeed(states[i - 1], states[i], s) then
      match cmds[i - 1] case AddSource(_, _, database) => database case RefreshSource(_, database) => database case _ => map[]
    else SeedStory(states, cmds, s, i - 1)
  }

  ghost predicate NewSeed(w: World, w': World, s: Id) {
    s in w'.sources && (s !in w.sources || w'.sources[s].gen != w.sources[s].gen)
  }

  /** Every ready source of every state of a run holds the database it was last
      seeded from. */
  lemma {:induction false} RunSeeded(states: seq<World>, cmds: seq<Command>, reliable: bool, rotate: bool, s: Id, i: nat)
    requires IsRun(states, cmds, reliable, rotate) && Inv(states[0]) && i <= |cmds|
    requires s in states[i].sources && states[i].sources[s].state == Seeded
    ensures Stored(states[i], s) && Held(states[i], s) == SeedStory(states, cmds, s, i)
    decreases i
  {
    hide Inv, Tight, Effects, Allowed, SourceVolume;
    if i == 0 {
      SeededExist(states[0]);
    } else {
      var w, w' := states[i - 1], states[i];
      assert Refused(w, cmds[i - 1], w') || Step(w, cmds[i - 1], w', reliable, rotate);
      assert w' == w || SourcesStep(w, cmds[i - 1], w');
      if w' == w || SameStore(w, w', s) {
        RunSeeded(states, cmds, reliable, rotate, s, i - 1);
      }
    }
  }

  /** The ready branch of a name. */
  ghost function ReadyNamed(w: World, name: string): Id {
    if exists p: Id :: IsReady(w.branches, p) && w.branches[p].name == name
    then var p: Id :| IsReady(w.branches, p) && w.branches[p].name == name; p
    else 0
  }

  /** What a branch is, told from the beginning of the run: it is born with the
      tree of the database its source was last seeded from, or with the tree its parent's own story has reached; then its own commands
      play on it. Of the branches' layers and volumes the story asks one thing only:
      whether a freeze went through, which gives the parent a new base. */
  ghost function Story(states: seq<World>, cmds: seq<Command>, id: Id, i: nat): Face
    requires i <= |cmds| && |states| == |cmds| + 1
    decreases i
  {
    if i == 0 then Face(map[], map[])
    else
      var w, cmd, w' := states[i - 1], cmds[i - 1], states[i];
      if id !in w.branches then
        match cmd
        case CreateBranch(_, source, _) =>
          var tree := Merged([SeedStory(states, cmds, SourceNamed(w, source), i - 1)]);
          Face(tree, tree)
        case CreateBranchFrom(_, parent, _) =>
          var tree := Story(states, cmds, ReadyNamed(w, parent), i - 1).view;
          Face(tree, tree)
        case _ => Face(map[], map[])
      else if Named(w, cmd, id) then
        Played(Story(states, cmds, id, i - 1), cmd, id in w'.branches && w'.branches[id].base != w.branches[id].base)
      else Story(states, cmds, id, i - 1)
  }

  /** No source of the run has mask scripts. */
  ghost predicate Unmasked(states: seq<World>) {
    forall j, s | 0 <= j < |states| && s in states[j].sources :: !states[j].sources[s].masked
  }

  lemma UnmaskedRow(states: seq<World>, i: nat, id: Id)
    requires i < |states| && Unmasked(states) && Inv(states[i]) && Live(states[i].branches, id)
    ensures PlainRow(states[i], id, false)
  {
    hide Inv, HasChain, Chain, PinOk, BelowExists, GenerationOk;
    LiveRow(states[i], id);
  }

  lemma SourceNamedIs(w: World, s: Id)
    requires Inv(w) && Stored(w, s)
    ensures SourceNamed(w, w.sources[s].name) == s
  {
    hide LayersOk, BranchesOk, PinsOk, VolumesOk, ContainersOk, ServedOk;
    var t := SourceNamed(w, w.sources[s].name);
    assert Stored(w, t) && w.sources[t].name == w.sources[s].name;
  }

  lemma ReadyNamedIs(w: World, p: Id)
    requires Inv(w) && IsReady(w.branches, p)
    ensures ReadyNamed(w, w.branches[p].name) == p
  {
    hide LayersOk, SourcesOk, PinsOk, VolumesOk, ContainersOk, BranchOk, GenerationOk;
    var q := ReadyNamed(w, w.branches[p].name);
    assert IsReady(w.branches, q) && w.branches[q].name == w.branches[p].name;
    assert Live(w.branches, p) && Live(w.branches, q);
  }

  /** A new branch is born with the face its birth says. */
  lemma StepBorn(states: seq<World>, cmds: seq<Command>, id: Id, i: nat)
    requires IsRun(states, cmds, true, false) && Inv(states[0]) && Tight(states[0]) && Unmasked(states) && i < |cmds|
    requires id !in states[i].branches && IsReady(states[i + 1].branches, id)
    ensures var w, w' := states[i], states[i + 1];
      && View(w', id) == Ground(w', id)
      && (cmds[i].CreateBranch? || cmds[i].CreateBranchFrom?)
      && (cmds[i].CreateBranch? ==> Ground(w', id) == Merged([SeedStory(states, cmds, SourceNamed(w, cmds[i].source), i)]))
      && (cmds[i].CreateBranchFrom? ==> exists p :: IsReady(w.branches, p) && w.branches[p].name == cmds[i].parent && Ground(w', id) == View(w, p))
  {
    hide Inv, Tight, View, Ground, Effect, Allowed, Merged, SeedStory, SourceNamed, PlainRow, SourcesStep;
    RunInvariant(states, cmds, true, false, i);
    RunInvariant(states, cmds, true, false, i + 1);
    var w, w' := states[i], states[i + 1];
    assert Refused(w, cmds[i], w') || Step(w, cmds[i], w', true, false);
    assert Birth(w, cmds[i], w', id, false);
    assert Live(w'.branches, id);
    UnmaskedRow(states, i + 1, id);
    if cmds[i].CreateBranch? {
      var s :| s in w.sources && w.sources[s].name == cmds[i].source && w.sources[s].state == Seeded && w.sources[s].vol in w.vols
               && Ground(w', id) == Merged([w.vols[w.sources[s].vol].files]);
      SourceNamedIs(w, s);
      RunSeeded(states, cmds, true, false, s, i);
    }
  }

  /** The story is true: in every run from an installation without branches in
      which removals succeed and nothing is masked, every ready branch shows at every
      moment exactly what its story says, and a reset would return it to exactly
      that. */
  lemma {:induction false} RunStory(states: seq<World>, cmds: seq<Command>, id: Id, i: nat)
    requires IsRun(states, cmds, true, false) && Inv(states[0]) && Tight(states[0]) && Unmasked(states) && i <= |cmds|
    requires states[0].branches == map[] && IsReady(states[i].branches, id)
    ensures FaceOf(states[i], id) == Story(states, cmds, id, i)
    decreases i
  {
    hide Inv, Tight, Unmasked, View, Ground, Played, PlainRow, SeedStory, SourceNamed, ReadyNamed, Merged, SourcesStep, Effect, Birth, Allowed;
    if i > 0 {
      var w := states[i - 1];
      RunInvariant(states, cmds, true, false, i - 1);
      if id in w.branches {
        assert Refused(w, cmds[i - 1], states[i]) || Step(w, cmds[i - 1], states[i], true, false);
        assert IsReady(w.branches, id);
        RunStory(states, cmds, id, i - 1);
        assert Live(w.branches, id);
        UnmaskedRow(states, i - 1, id);
        StepPlayed(states, cmds, false, id, i - 1);
      } else {
        StepBorn(states, cmds, id, i - 1);
        if cmds[i - 1].CreateBranchFrom? {
          var p :| IsReady(w.branches, p) && w.branches[p].name == cmds[i - 1].parent && Ground(states[i], id) == View(w, p);
          ReadyNamedIs(w, p);
          RunStory(states, cmds, p, i - 1);
        }
      }
    }
  }

  /** The commands that are about the branch by name. */
  ghost predicate OwnCommand(w: World, cmd: Command, id: Id) {
    id in w.branches && (cmd.ResetBranch? || cmd.GuestWrite?) && cmd.name == w.branches[id].name
  }

  /** When removals succeed and the run starts without leftovers, only the
      branch's own writes and resets can change what it shows, masked or not. */
  lemma RunIsolationTight(states: seq<World>, cmds: seq<Command>, rotate: bool, id: Id, i: nat)
    requires IsRun(states, cmds, true, rotate) && Inv(states[0]) && Tight(states[0]) && i <= |cmds|
    requires ReadyUntil(states, id, i)
    requires forall j | 0 <= j < i :: !OwnCommand(states[j], cmds[j], id)
    ensures View(states[i], id) == View(states[0], id)
  {
    hide Inv, Tight, View, Step;
    forall j | 0 <= j < i
      ensures id !in Subjects(states[j], cmds[j])
    {
      RunInvariant(states, cmds, true, rotate, j);
      assert !OwnCommand(states[j], cmds[j], id);
      if !cmds[j].ResetBranch? && !cmds[j].GuestWrite? {
        TightSubjects(states[j], cmds[j]);
      }
    }
    RunIsolation(states, cmds, true, rotate, id, i);
  }

  /** The empty installation, from which every run starts, has no leftovers. */
  lemma EmptyWorld(next: nat, rotate: bool, answers: Id -> bool)
    ensures var w := World(map[], map[], map[], map[], map[], next, rotate, answers); Inv(w) && Tight(w)
  {
  }

  /** What the invariant says about the layer graph: links are closed, acyclic
      and within one source; a live branch's whole chain exists and belongs to
      the branch's own source. */
  lemma LayerGraph(w: World)
    requires Inv(w)
    ensures forall x | x in w.layers && w.layers[x].parent.Some? :: w.layers[x].parent.value in w.layers
    ensures forall x | x in w.layers :: HasChain(w.layers, Some(x))
    ensures forall id | Live(w.branches, id) ::
      && HasChain(w.layers, w.branches[id].base)
      && (forall x | x in Base(w.layers, w.branches[id]) :: w.layers[x].source == w.branches[id].source && w.layers[x].vol in w.vols)
      && w.branches[id].srcVol in w.vols
  {
    hide SourcesOk, PinsOk, VolumesOk, ContainersOk, BranchesOk, HasChain, Chain, PinOk, GenerationOk, Rooted;
    forall id | Live(w.branches, id)
      ensures HasChain(w.layers, w.branches[id].base) && w.branches[id].srcVol in w.vols
      ensures forall x | x in Base(w.layers, w.branches[id]) :: w.layers[x].source == w.branches[id].source && w.layers[x].vol in w.vols
    {
      LiveRow(w, id);
      forall x | x in Base(w.layers, w.branches[id])
        ensures w.layers[x].source == w.branches[id].source
      {
        S.ChainSource(w.layers, w.branches[id].base, Base(w.layers, w.branches[id]), x);
      }
    }
  }

  /** Without leftovers the layers are exactly the union of the live chains, and
      every volume there is belongs to a live stack or is a source's current one;
      every container is recorded by a live branch, and no branch is half way. */
  lemma NothingLeft(w: World)
    requires Inv(w) && Tight(w)
    ensures forall x :: x in w.layers <==> exists id :: Live(w.branches, id) && x in Base(w.layers, w.branches[id])
    ensures forall v | v in w.vols ::
      || (exists id :: Live(w.branches, id) && Uses(w.layers, w.branches[id], v))
      || (exists s :: s in w.sources && w.sources[s].vol == v)
    ensures forall c | c in w.conts :: exists id :: Live(w.branches, id) && w.branches[id].container == Some(c)
    ensures forall id | Live(w.branches, id) :: w.branches[id].state == Ready || w.branches[id].state == Failed
  {
    hide Inv, Chain;
    forall x
      ensures x in w.layers <==> exists id :: Live(w.branches, id) && x in Base(w.layers, w.branches[id])
    {
      if x in w.layers {
        assert Referenced(w.layers, w.branches, x);
      }
    }
    forall v | v in w.vols && !exists s :: s in w.sources && w.sources[s].vol == v
      ensures exists id :: Live(w.branches, id) && Uses(w.layers, w.branches[id], v)
    {
      assert Owned(w, v);
      if x :| x in w.layers && w.layers[x].vol == v {
        assert Referenced(w.layers, w.branches, x);
        var id :| Live(w.branches, id) && x in Base(w.layers, w.branches[id]);
        assert Uses(w.layers, w.branches[id], v);
      } else {
        var id :| Live(w.branches, id) && (w.branches[id].rw == v || w.branches[id].srcVol == v);
        assert Uses(w.layers, w.branches[id], v);
      }
    }
  }
}
