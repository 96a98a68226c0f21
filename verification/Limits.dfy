/** Where the guarantees end: concrete states in which a rule the engine relies
    on, but does not enforce, is broken. */
module Limits {
  import opened Options
  import opened BranchStates
  import opened Names
  import opened Decimal
  import opened Overlay
  import opened Worlds
  import opened Steps
  import opened Freeze

  const MAIN := Source("main", Seeded, SRC("main"), 1, false)

  function Row(name: string, state: BranchState, c: Option<Id>, base: Option<Id>, parent: string): Branch {
    Branch(name, 0, state, c, RW(name, 1), SRC("main"), None, base, parent, 0)
  }

  function Holding(files: Content): Disk {
    Disk(files, false, false)
  }

  /** A freeze of "p" failed earlier and its compensation could not remove the
      fresh volume, into which postgres had written when it was started there
      (a start in this model writes nothing); now "p" is asked to freeze again for
      a child "c". */
  function LeftoverWorld(): World {
    World(map[0 := MAIN],
          map[1 := Row("p", Ready, Some(0), None, ""), 2 := Row("c", Creating, None, None, "p")],
          map[],
          map[SRC("main") := Holding(map["f" := File("new")]), RW("p", 1) := BLANK, RW("p", 2) := Holding(map["f" := File("stale")])],
          map[0 := [RW("p", 1), SRC("main")]], 1, false, c => true)
  }

  lemma LeftoverInv()
    ensures Inv(LeftoverWorld()) && FreezeAsked(LeftoverWorld(), 1, 2)
  {
    LeftoverTables();
    LeftoverDriver();
    LeftoverServed();
    hide BranchesOk, SourcesOk, PinsOk, VolumesOk, ContainersOk, ServedOk;
    assert LayersOk(LeftoverWorld().layers);
  }

  lemma LeftoverTables()
    ensures var w := LeftoverWorld();
            BranchesOk(w.sources, w.layers, w.branches) && SourcesOk(w.sources) && PinsOk(w.sources, w.branches)
  {
    LeftoverSources();
    LeftoverBranches();
  }

  lemma MainGeneration()
    ensures SourceVolume("main", 1) == SRC("main") && Generation(MAIN, SRC("main"))
  {
    assert "main" + "" == "main";
    assert SRC("main") == SourceVolume("main", 1);
  }

  lemma LeftoverSources()
    ensures var w := LeftoverWorld(); SourcesOk(w.sources) && PinsOk(w.sources, w.branches)
  {
    var w := LeftoverWorld();
    MainGeneration();
    hide SourceVolume, Generation;
    assert forall id: Id | Live(w.branches, id) :: id == 1 || id == 2;
  }

  lemma LeftoverBranches()
    ensures var w := LeftoverWorld(); BranchesOk(w.sources, w.layers, w.branches)
  {
    var w := LeftoverWorld();
    ChainEmpty(w.layers);
    hide SourceVolume, Chain, Generation;
    assert forall id: Id | Live(w.branches, id) :: id == 1 || id == 2;
  }

  lemma LeftoverDriver()
    ensures var w := LeftoverWorld();
            VolumesOk(w.sources, w.layers, w.branches, w.vols.Keys) && ContainersOk(w.layers, w.branches, w.conts, w.nextCid)
  {
    LeftoverVolumes();
    LeftoverContainers();
  }

  lemma LeftoverVolumes()
    ensures var w := LeftoverWorld(); VolumesOk(w.sources, w.layers, w.branches, w.vols.Keys)
  {
    var w := LeftoverWorld();
    ChainEmpty(w.layers);
    hide Chain;
    assert SRC("main") in w.vols && RW("p", 1) in w.vols;
    assert BelowExists(w.layers, w.branches[1], w.vols.Keys) && BelowExists(w.layers, w.branches[2], w.vols.Keys);
    hide BelowExists;
    assert forall id: Id | Live(w.branches, id) :: id == 1 || id == 2;
    assert forall id: Id | IsReady(w.branches, id) :: id == 1;
  }

  lemma LeftoverServed()
    ensures ServedOk(LeftoverWorld())
  {
    var w := LeftoverWorld();
    assert forall id: Id | IsReady(w.branches, id) :: id == 1;
    assert w.sources[0] == MAIN;
  }

  lemma LeftoverContainers()
    ensures var w := LeftoverWorld(); ContainersOk(w.layers, w.branches, w.conts, w.nextCid)
  {
    var w := LeftoverWorld();
    ChainEmpty(w.layers);
    assert Stack(w.layers, w.branches[1]) == [RW("p", 1), SRC("main")];
    hide Stack;
    assert Running(w.layers, w.conts, w.branches[1]);
    hide Running;
    assert forall id: Id | Live(w.branches, id) :: id == 1 || id == 2;
    assert forall id: Id | IsReady(w.branches, id) :: id == 1;
  }

  /** The leftover shadows the parent's tree, so a freeze that commits here shows
      the parent's clients the stale file instead of the new one. */
  lemma LeftoverBreaksFreeze(w': World, x: Id, hist: seq<World>, plain: bool)
    requires var w := LeftoverWorld();
             FreezeAsked(w, 1, 2) && Committed(w, w', 1, 2, x, NextVolume(w, 1), hist, plain)
    ensures 1 in w'.branches && View(w', 1) != View(LeftoverWorld(), 1)
  {
    var w := LeftoverWorld();
    LeftoverInv();
    ChainEmpty(w.layers);
    assert NextVolume(w, 1) == RW("p", 2);
    LeftoverView();
    var top := w.vols[RW("p", 2)].files;
    assert Initial(w.vols, NextVolume(w, 1)) == top;
    assert Shadows(top, View(w, 1)) by { assert "f" in top; }
    hide Inv, Committed, View, Shadows;
    FreezeKeepsParentView(w, w', 1, 2, x, hist, plain);
  }

  lemma LeftoverView()
    ensures View(LeftoverWorld(), 1) == map["f" := "new"]
  {
    var w := LeftoverWorld();
    ChainEmpty(w.layers);
    assert Stack(w.layers, w.branches[1]) == [RW("p", 1)] + [SRC("main")];
    var lower: Content := map["f" := File("new")];
    assert Contents(w.vols, [RW("p", 1)] + [SRC("main")]) == [map[]] + [lower];
    EmptyLayerOnTop([lower]);
    assert [lower][1..] == [];
    assert Over(lower, map[]) == map["f" := "new"];
  }

  /** "p" was destroyed while its frozen layer lives on below "c"; then the name
      "p" was given to a new branch, whose writable volume is that very layer. */
  function ReusedWorld(content: Content): World {
    World(map[0 := MAIN],
          map[1 := Row("p", Destroyed, None, None, ""), 2 := Row("c", Ready, Some(0), Some(10), "p"), 3 := Row("p", Ready, Some(1), None, "")],
          map[10 := Layer(0, RW("p", 1), None)],
          map[SRC("main") := BLANK, RW("p", 1) := Holding(content), RW("c", 1) := BLANK],
          map[0 := [RW("c", 1), RW("p", 1), SRC("main")], 1 := [RW("p", 1), SRC("main")]], 2, false, c => true)
  }

  lemma ReusedView(content: Content)
    ensures View(ReusedWorld(content), 2) == Over(content, map[])
  {
    var w := ReusedWorld(content);
    var ls := w.layers;
    assert [10][1..] == [];
    assert IsChain(ls, None, []);
    assert IsChain(ls, Some(10), [10]);
    ChainIs(ls, Some(10), [10]);
    assert VolsOf(ls, [10]) == [RW("p", 1)];
    assert Stack(ls, w.branches[2]) == [RW("c", 1)] + ([RW("p", 1)] + [SRC("main")]);
    var empty: Content := map[];
    assert Contents(w.vols, [RW("c", 1)] + ([RW("p", 1)] + [SRC("main")])) == [empty] + ([content] + [empty]);
    EmptyLayerOnTop([content] + [empty]);
    assert ([content] + [empty])[1..] == [empty] && [empty][1..] == [];
    assert Over(empty, map[]) == map[];
    assert Merged([empty]) == map[];
    assert Merged([content] + [empty]) == Over(content, Merged([empty]));
  }

  /** Without the name rule isolation fails: a write by the new "p" shows up in
      "c". The rule is exactly what is violated. */
  lemma ReuseBreaksIsolation()
    ensures !NameFree(ReusedWorld(map[]).layers, "p")
    ensures View(ReusedWorld(map["f" := File("x")]), 2) != View(ReusedWorld(map[]), 2)
  {
    ReusedView(map[]);
    ReusedView(map["f" := File("x")]);
    assert "f" in Over(map["f" := File("x")], map[]);
    assert ReusedWorld(map[]).layers[10].vol == RW("p", 1);
  }

  // ------------------------------------------------- the name rule is needed

  lemma {:induction false} LongestPath(paths: set<Path>) returns (n: nat)
    ensures forall p | p in paths :: |p| <= n
    decreases |paths|
  {
    n := 0;
    if paths != {} {
      var q :| q in paths;
      n := LongestPath(paths - {q});
      if n < |q| {
        n := |q|;
      }
    }
  }

  /** A path that no layer of a stack mentions. */
  lemma {:induction false} FreshPath(layers: seq<Content>, least: nat) returns (p: Path)
    ensures |p| > least && forall i | 0 <= i < |layers| :: p !in layers[i]
    decreases |layers|
  {
    if layers == [] {
      p := seq(least + 1, _ => 'x');
    } else {
      var n := LongestPath(layers[0].Keys);
      p := FreshPath(layers[1..], if n < least then least else n);
      assert forall i | 0 < i < |layers| :: layers[i] == layers[1..][i - 1];
    }
  }

  lemma {:induction false} LookupFile(layers: seq<Content>, p: Path)
    requires forall i | 0 <= i < |layers| && p in layers[i] :: layers[i][p].File?
    ensures Lookup(layers, p).Some? <==> exists i :: 0 <= i < |layers| && p in layers[i]
  {
    if layers != [] {
      LookupFile(layers[1..], p);
      assert forall i | 0 < i < |layers| :: layers[i] == layers[1..][i - 1];
    }
  }

  /** Whenever a branch's writable volume is a layer that another branch stands
      on, some write through the one changes what the other shows. */
  lemma SharedVolumeLeaks(w: World, i: Id, j: Id, x: Id) returns (p: Path)
    requires i in w.branches && j in w.branches && x in w.layers && x in Base(w.layers, w.branches[j])
    requires w.branches[i].rw == w.layers[x].vol && w.branches[i].rw in w.vols
    ensures var rw := w.branches[i].rw; View(w.(vols := w.vols[rw := Wrote(w.vols[rw], p, File(""))]), j) != View(w, j)
  {
    hide Chain;
    var rw, stack := w.branches[i].rw, Stack(w.layers, w.branches[j]);
    assert rw in stack by { LayerInStack(w, j, x); }
    hide Stack;
    var cs := Contents(w.vols, stack);
    p := FreshPath(cs, 0);
    var vols' := w.vols[rw := Wrote(w.vols[rw], p, File(""))];
    var cs' := Contents(vols', stack);
    LookupFile(cs, p);
    MergedIsLookup(cs, p);
    var k :| 0 <= k < |stack| && stack[k] == rw;
    assert p in cs'[k];
    forall m | 0 <= m < |cs'| && p in cs'[m]
      ensures cs'[m][p] == File("")
    {
      assert p !in cs[m];
    }
    LookupFile(cs', p);
    MergedIsLookup(cs', p);
  }

  lemma LayerInStack(w: World, j: Id, x: Id)
    requires j in w.branches && x in Base(w.layers, w.branches[j])
    ensures w.layers[x].vol in Stack(w.layers, w.branches[j])
  {
    hide Chain;
    var c := Base(w.layers, w.branches[j]);
    var k :| 0 <= k < |c| && c[k] == x;
    assert Stack(w.layers, w.branches[j])[k + 1] == w.layers[x].vol;
  }

  /** Generation 2 of source "main" and generation 1 of source "main-g2" print
      as the same volume name. */
  lemma SourcesCollide()
    ensures SourceVolumeName("main", 2) == SourceVolumeName("main-g2", 1)
    ensures SourceVolume("main", 2) == SourceVolume("main-g2", 1)
  {
    assert Digits(2) == "2";
    assert Suffix(2) == "-g2";
    assert "main" + "-g2" == "main-g2" && "main-g2" + "" == "main-g2";
    SourceNameCollision("main", 2, "main-g2", 1);
  }
}
