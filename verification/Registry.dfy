/** The registry: three tables, updated one statement or transaction at a time. */
module Registry {
  import opened Options
  import opened BranchStates
  import opened Names
  import opened Worlds
  import opened Steps
  import T = Transitions

  // -------------------------------------------------- the reference-count query

  /** The live branches whose chain holds the layer. */
  ghost function Referents(ls: map<Id, Layer>, bs: map<Id, Branch>, x: Id): set<Id> {
    set id | id in bs && Live(bs, id) && x in Base(ls, bs[id])
  }

  function Seeds(bs: map<Id, Branch>): set<(Id, Id)> {
    set id | id in bs && bs[id].state != Destroyed && bs[id].base.Some? :: (id, bs[id].base.value)
  }

  function Parents(ls: map<Id, Layer>, refs: set<(Id, Id)>): set<(Id, Id)> {
    set p | p in refs && p.1 in ls && ls[p.1].parent.Some? :: (p.0, ls[p.1].parent.value)
  }

  /** Counts never decrease from a layer to its parent: whoever references a
      layer references what it is chained onto. */
  lemma RefsGrowDownward(ls: map<Id, Layer>, bs: map<Id, Branch>, x: Id)
    requires x in ls && ls[x].parent.Some?
    requires forall id | Live(bs, id) :: HasChain(ls, bs[id].base)
    ensures Referents(ls, bs, x) <= Referents(ls, bs, ls[x].parent.value)
  {
    forall id | id in Referents(ls, bs, x)
      ensures id in Referents(ls, bs, ls[x].parent.value)
    {
      ParentInChain(ls, bs[id].base, x);
    }
  }

  /** A walk along parent links from `at`; the ids it meets, whether or not they have
      rows. */
  ghost predicate IsPath(ls: map<Id, Layer>, at: Option<Id>, c: seq<Id>)
    decreases |c|
  {
    c != [] && at == Some(c[0]) && (|c| == 1 || (c[0] in ls && IsPath(ls, ls[c[0]].parent, c[1..])))
  }

  ghost predicate Reaches(ls: map<Id, Layer>, at: Option<Id>, x: Id) {
    exists c :: IsPath(ls, at, c) && c[|c| - 1] == x
  }

  /** The live branches from whose base the layer is reached. */
  ghost function Reaching(ls: map<Id, Layer>, bs: map<Id, Branch>, x: Id): set<Id> {
    set id | id in bs && Live(bs, id) && Reaches(ls, bs[id].base, x)
  }

  lemma {:induction false} PathExtends(ls: map<Id, Layer>, at: Option<Id>, c: seq<Id>)
    requires IsPath(ls, at, c) && c[|c| - 1] in ls && ls[c[|c| - 1]].parent.Some?
    ensures IsPath(ls, at, c + [ls[c[|c| - 1]].parent.value])
    decreases |c|
  {
    var y := ls[c[|c| - 1]].parent.value;
    assert (c + [y])[1..] == c[1..] + [y];
    if |c| == 1 {
      assert c[1..] + [y] == [y];
    } else {
      PathExtends(ls, ls[c[0]].parent, c[1..]);
    }
  }

  /** Every pair found so far is right. */
  ghost predicate Found(ls: map<Id, Layer>, bs: map<Id, Branch>, refs: set<(Id, Id)>) {
    forall p | p in refs :: Live(bs, p.0) && Reaches(ls, bs[p.0].base, p.1)
  }

  lemma SeedsFound(ls: map<Id, Layer>, bs: map<Id, Branch>)
    ensures Found(ls, bs, Seeds(bs))
  {
    forall p | p in Seeds(bs)
      ensures Live(bs, p.0) && Reaches(ls, bs[p.0].base, p.1)
    {
      assert Live(bs, p.0) && IsPath(ls, bs[p.0].base, [p.1]);
    }
  }

  lemma ParentsFound(ls: map<Id, Layer>, bs: map<Id, Branch>, refs: set<(Id, Id)>)
    requires Found(ls, bs, refs)
    ensures Found(ls, bs, refs + Parents(ls, refs))
  {
    forall p | p in Parents(ls, refs)
      ensures Live(bs, p.0) && Reaches(ls, bs[p.0].base, p.1)
    {
      var q :| q in refs && q.0 == p.0 && q.1 in ls && ls[q.1].parent == Some(p.1);
      assert Live(bs, q.0) && Reaches(ls, bs[q.0].base, q.1);
      var c :| IsPath(ls, bs[q.0].base, c) && c[|c| - 1] == q.1;
      PathExtends(ls, bs[q.0].base, c);
      assert (c + [p.1])[|c + [p.1]| - 1] == p.1;
    }
  }

  lemma {:induction false} PathInRefs(ls: map<Id, Layer>, refs: set<(Id, Id)>, id: Id, at: Option<Id>, c: seq<Id>)
    requires IsPath(ls, at, c) && Parents(ls, refs) <= refs && (id, at.value) in refs
    ensures (id, c[|c| - 1]) in refs
    decreases |c|
  {
    if |c| > 1 {
      var next := ls[c[0]].parent;
      assert (id, next.value) in Parents(ls, refs);
      PathInRefs(ls, refs, id, next, c[1..]);
      assert c[1..][|c| - 2] == c[|c| - 1];
    }
  }

  lemma AllFound(ls: map<Id, Layer>, bs: map<Id, Branch>, refs: set<(Id, Id)>, x: Id)
    requires Found(ls, bs, refs) && Seeds(bs) <= refs && Parents(ls, refs) <= refs
    ensures forall id :: (id, x) in refs <==> id in Reaching(ls, bs, x)
  {
    forall id | id in Reaching(ls, bs, x)
      ensures (id, x) in refs
    {
      var c :| IsPath(ls, bs[id].base, c) && c[|c| - 1] == x;
      assert (id, bs[id].base.value) in Seeds(bs);
      PathInRefs(ls, refs, id, bs[id].base, c);
    }
    forall id | (id, x) in refs
      ensures id in Reaching(ls, bs, x)
    {
      assert Live(bs, (id, x).0);
    }
  }

  lemma {:induction false} ReachesChain(ls: map<Id, Layer>, at: Option<Id>, c: seq<Id>, x: Id)
    requires IsChain(ls, at, c)
    ensures Reaches(ls, at, x) <==> x in c
    decreases |c|
  {
    if at.Some? {
      ReachesChain(ls, ls[at.value].parent, c[1..], x);
      if Reaches(ls, at, x) {
        var d :| IsPath(ls, at, d) && d[|d| - 1] == x;
        if |d| > 1 {
          assert IsPath(ls, ls[at.value].parent, d[1..]) && d[1..][|d| - 2] == x;
        }
      }
      if x in c {
        if x == c[0] {
          assert IsPath(ls, at, [x]) && [x][0] == x;
        } else {
          var d :| IsPath(ls, ls[at.value].parent, d) && d[|d| - 1] == x;
          assert ([at.value] + d)[1..] == d;
          assert IsPath(ls, at, [at.value] + d) && ([at.value] + d)[|d|] == x;
        }
      }
    }
  }

  /** Where chains exist, reaching a layer and having it in the chain are one. */
  lemma ReachingAreReferents(ls: map<Id, Layer>, bs: map<Id, Branch>, x: Id)
    requires forall id | Live(bs, id) :: HasChain(ls, bs[id].base)
    ensures Reaching(ls, bs, x) == Referents(ls, bs, x)
  {
    forall id | Live(bs, id)
      ensures Reaches(ls, bs[id].base, x) <==> x in Base(ls, bs[id])
    {
      ReachesChain(ls, bs[id].base, Chain(ls, bs[id].base), x);
    }
  }

  /** The walk ends: at the source, or at a link without a row. */
  ghost predicate Ends(ls: map<Id, Layer>, at: Option<Id>, c: seq<Id>)
    decreases |c|
  {
    if at.None? || at.value !in ls then c == []
    else c != [] && c[0] == at.value && Ends(ls, ls[at.value].parent, c[1..])
  }

  lemma {:induction false} ChainEnds(ls: map<Id, Layer>, at: Option<Id>, c: seq<Id>)
    requires IsChain(ls, at, c)
    ensures Ends(ls, at, c)
    decreases |c|
  {
    if at.Some? {
      ChainEnds(ls, ls[at.value].parent, c[1..]);
    }
  }

  /** The walk so far: whatever chain is found from here completes one from the
      base, and if there is one from the base there is one from here. */
  ghost predicate Walked(ls: map<Id, Layer>, base: Option<Id>, at: Option<Id>, chain: seq<Id>) {
    && (forall rest | IsChain(ls, at, rest) :: IsChain(ls, base, chain + rest))
    && (HasChain(ls, base) ==> HasChain(ls, at))
  }

  lemma WalkStart(ls: map<Id, Layer>, base: Option<Id>)
    ensures Walked(ls, base, base, [])
  {
    forall rest | IsChain(ls, base, rest)
      ensures IsChain(ls, base, [] + rest)
    {
      assert [] + rest == rest;
    }
  }

  lemma WalkOn(ls: map<Id, Layer>, base: Option<Id>, x: Id, chain: seq<Id>)
    requires x in ls && Walked(ls, base, Some(x), chain)
    ensures Walked(ls, base, ls[x].parent, chain + [x])
  {
    forall rest | IsChain(ls, ls[x].parent, rest)
      ensures IsChain(ls, base, chain + [x] + rest)
    {
      assert ([x] + rest)[1..] == rest;
      assert IsChain(ls, Some(x), [x] + rest);
      assert chain + ([x] + rest) == chain + [x] + rest;
    }
    if HasChain(ls, Some(x)) {
      ChainUnfold(ls, x);
    }
  }

  lemma WalkDone(ls: map<Id, Layer>, base: Option<Id>, chain: seq<Id>)
    requires Walked(ls, base, None, chain)
    ensures HasChain(ls, base) && Chain(ls, base) == chain
  {
    assert IsChain(ls, None, []) && chain + [] == chain;
    ChainIs(ls, base, chain);
  }

  lemma WalkDangles(ls: map<Id, Layer>, base: Option<Id>, x: Id, chain: seq<Id>)
    requires x !in ls && Walked(ls, base, Some(x), chain)
    ensures !HasChain(ls, base)
  {
  }

  ghost predicate JournalFits(bs: map<Id, Branch>, journal: seq<T.Entry>) {
    forall id | id in bs :: T.LegalPath(T.History(journal, id), id, bs[id].state)
  }

  lemma JournalCreated(bs: map<Id, Branch>, journal: seq<T.Entry>, id: Id, b: Branch)
    requires id !in bs
    ensures JournalFits(bs, journal) && T.History(journal, id) == [] && b.state == Creating ==> JournalFits(bs[id := b], journal + [T.Entry(id, None, Creating)])
  {
    hide T.LegalPath, T.History;
    var e := T.Entry(id, None, Creating);
    if JournalFits(bs, journal) && T.History(journal, id) == [] && b.state == Creating {
      forall j | j in bs[id := b]
        ensures T.LegalPath(T.History(journal + [e], j), j, bs[id := b][j].state)
      {
        T.HistoryAppend(journal, e, j);
        if j == id {
          FirstEntry(e);
        } else {
          assert T.History(journal, j) + [] == T.History(journal, j);
        }
      }
    }
  }

  lemma FirstEntry(e: T.Entry)
    requires e.from.None? && e.to == Creating
    ensures T.LegalPath([] + [e], e.id, Creating)
  {
  }

  lemma JournalMoved(bs: map<Id, Branch>, journal: seq<T.Entry>, id: Id, b: Branch)
    requires id in bs && Legal(bs[id].state, b.state)
    ensures JournalFits(bs, journal) ==> JournalFits(bs[id := b], journal + [T.Entry(id, Some(bs[id].state), b.state)])
  {
    hide T.LegalPath, T.History;
    var e := T.Entry(id, Some(bs[id].state), b.state);
    if JournalFits(bs, journal) {
      forall j | j in bs[id := b]
        ensures T.LegalPath(T.History(journal + [e], j), j, bs[id := b][j].state)
      {
        T.HistoryAppend(journal, e, j);
        assert T.LegalPath(T.History(journal, j), j, bs[j].state);
        if j == id {
          T.PathExtends(T.History(journal, id), id, bs[id].state, e);
        } else {
          assert T.History(journal, j) + [] == T.History(journal, j);
        }
      }
    }
  }

  lemma JournalFrozen(bs: map<Id, Branch>, journal: seq<T.Entry>, parent: Id, bs': map<Id, Branch>)
    requires parent in bs && bs[parent].state == Resetting && bs'.Keys == bs.Keys
    requires forall j | j in bs :: bs'[j].state == if j == parent then Ready else bs[j].state
    ensures JournalFits(bs, journal) ==> JournalFits(bs', journal + [T.Entry(parent, Some(Resetting), Ready)])
  {
    JournalMoved(bs, journal, parent, bs[parent].(state := Ready));
    hide T.LegalPath, T.History;
    assert forall j | j in bs' :: bs[parent := bs[parent].(state := Ready)][j].state == bs'[j].state;
  }

  lemma {:induction false} SomeFreshId(taken: set<Id>) returns (id: Id)
    ensures id !in taken && forall x | x in taken :: x < id
    decreases |taken|
  {
    id := 0;
    if taken != {} {
      var x :| x in taken;
      id := SomeFreshId(taken - {x});
      if id <= x {
        id := x + 1;
      }
      assert forall y | y in taken :: y == x || y in taken - {x};
    }
  }

  class Registry {
    var sources: map<Id, Source>
    var branches: map<Id, Branch>
    var layers: map<Id, Layer>
    /** Whether generated ids never collide with ones in use. */
    const freshIds: bool
    /** The transitions table: every state change of a branch, oldest first. */
    var journal: seq<T.Entry>
    /** What SQLite's clock reads: the value every bumped updated_at gets. */
    var clock: int

    constructor (freshIds: bool)
      ensures this.freshIds == freshIds
      ensures sources == map[] && branches == map[] && layers == map[] && Journaled()
    {
      this.freshIds := freshIds;
      sources, branches, layers, journal, clock := map[], map[], map[], [], 0;
    }

    /** The journal of every branch is a legal path from its creation to its state. */
    ghost predicate Journaled()
      reads this
    {
      JournalFits(branches, journal)
    }

    /** Time passes between statements. */
    method Tick(d: nat)
      modifies this`clock
      ensures clock == old(clock) + d
    {
      clock := clock + d;
    }

    /** A fresh random id may collide, unless ids are known to be fresh; the primary
        key then refuses the row. */
    method NewId(taken: set<Id>) returns (id: Id)
      ensures freshIds ==> id !in taken
    {
      id := *;
      if freshIds {
        ghost var some := SomeFreshId(taken);
        id :| id !in taken;
      }
    }

    method GetBranchByName(name: string) returns (found: Option<Id>)
      ensures found.Some? ==> Live(branches, found.value) && branches[found.value].name == name
      ensures found.None? ==> forall id | Live(branches, id) :: branches[id].name != name
    {
      if id: Id :| id in branches && branches[id].state != Destroyed && branches[id].name == name {
        found := Some(id);
      } else {
        found := None;
      }
    }

    /** Failed rows may share a name with a later retry; the retry is preferred. */
    method GetSourceByName(name: string) returns (found: Option<Id>)
      ensures found.Some? ==> found.value in sources && sources[found.value].name == name
      ensures found.Some? && sources[found.value].state == SeedFailed ==> SourceNameUnused(sources, name)
      ensures found.None? ==> forall s | s in sources :: sources[s].name != name
    {
      if s: Id :| s in sources && sources[s].name == name && sources[s].state != SeedFailed {
        found := Some(s);
      } else if s: Id :| s in sources && sources[s].name == name {
        found := Some(s);
      } else {
        found := None;
      }
    }

    /** Inserts a row, stamped with the present time, unless the id or the name of a
        live row is taken. */
    method CreateBranch(b: Branch) returns (id: Option<Id>)
      requires b.updated == clock
      modifies this`branches, this`journal
      ensures id.Some? ==>
        && id.value !in old(branches) && NameUnused(old(branches), id.value, b.name)
        && branches == old(branches)[id.value := b] && journal == old(journal) + [T.Entry(id.value, None, Creating)]
      ensures id.None? ==> branches == old(branches) && journal == old(journal)
      ensures freshIds && (forall j | Live(old(branches), j) :: old(branches)[j].name != b.name) ==> id.Some?
      ensures old(Journaled()) && b.state == Creating && (id.Some? ==> T.History(old(journal), id.value) == []) ==> Journaled()
    {
      var newId := NewId(branches.Keys);
      if newId in branches || !NameUnused(branches, newId, b.name) {
        return None;
      }
      branches := branches[newId := b];
      journal := journal + [T.Entry(newId, None, Creating)];
      id := Some(newId);
      JournalCreated(old(branches), old(journal), newId, b);
    }

    /** The compare-and-swap: a legal edge is taken, anything else is refused. */
    method TransitionBranch(id: Id, to: BranchState) returns (ok: bool)
      modifies this`branches, this`journal
      ensures ok <==> id in old(branches) && Legal(old(branches)[id].state, to)
      ensures ok ==> branches == old(branches)[id := old(branches)[id].(state := to, updated := clock)]
      ensures ok ==> journal == old(journal) + [T.Entry(id, Some(old(branches)[id].state), to)]
      ensures !ok ==> branches == old(branches) && journal == old(journal)
      ensures old(Journaled()) ==> Journaled()
    {
      ok := id in branches && Legal(branches[id].state, to);
      if ok {
        journal := journal + [T.Entry(id, Some(branches[id].state), to)];
        branches := branches[id := branches[id].(state := to, updated := clock)];
        JournalMoved(old(branches), old(journal), id, branches[id]);
      }
    }

    method SetBranchContainer(id: Id, c: Id)
      modifies this`branches
      ensures branches == if id in old(branches)
                          then old(branches)[id := old(branches)[id].(container := Some(c), updated := clock)]
                          else old(branches)
      ensures old(Journaled()) ==> Journaled()
    {
      if id in branches {
        branches := branches[id := branches[id].(container := Some(c), updated := clock)];
      }
    }

    method TouchBranch(id: Id)
      modifies this`branches
      ensures branches == if id in old(branches) then old(branches)[id := old(branches)[id].(updated := clock)] else old(branches)
      ensures old(Journaled()) ==> Journaled()
    {
      if id in branches {
        branches := branches[id := branches[id].(updated := clock)];
      }
    }

    /** Walks the parent links from a branch's base down to the source. It succeeds
        exactly if the branch exists and no link is dangling. */
    method LayerChain(id: Id) returns (ok: bool, chain: seq<Id>, vols: seq<Volume>)
      requires id in branches ==> exists c :: Ends(layers, branches[id].base, c)
      ensures ok <==> id in branches && HasChain(layers, branches[id].base)
      ensures ok ==> chain == Base(layers, branches[id]) && vols == VolsOf(layers, chain)
    {
      chain, vols := [], [];
      if id !in branches {
        return false, [], [];
      }
      var at := branches[id].base;
      ghost var all :| Ends(layers, at, all);
      WalkStart(layers, at);
      hide Walked, HasChain, Chain;
      while at.Some?
        invariant chain <= all && Ends(layers, at, all[|chain|..])
        invariant forall x | x in chain :: x in layers
        invariant vols == VolsOf(layers, chain)
        invariant Walked(layers, branches[id].base, at, chain)
        decreases |all| - |chain|
      {
        if at.value !in layers {
          WalkDangles(layers, branches[id].base, at.value, chain);
          return false, [], [];
        }
        assert all[|chain|..][1..] == all[|chain| + 1..];
        WalkOn(layers, branches[id].base, at.value, chain);
        chain, vols, at := chain + [at.value], vols + [layers[at.value].vol], layers[at.value].parent;
      }
      WalkDone(layers, branches[id].base, chain);
      ok := true;
    }

    /** The reference count of a layer, by the recursive query: start from every
        live branch's base, add parents until nothing new appears, and count the
        branches that reached the layer. Any registry will do, also one with
        dangling or circular links. */
    method CountBranchesReferencingLayer(x: Id) returns (n: nat)
      ensures n == |Reaching(layers, branches, x)|
      ensures (forall id | Live(branches, id) :: HasChain(layers, branches[id].base)) ==> n == |Referents(layers, branches, x)|
    {
      var refs := Seeds(branches);
      var grown := refs + Parents(layers, refs);
      ghost var bases := set id | id in branches && branches[id].base.Some? :: branches[id].base.value;
      ghost var parents := set y | y in layers && layers[y].parent.Some? :: layers[y].parent.value;
      ghost var all := set id, y | id in branches && y in bases + parents :: (id, y);
      SeedsFound(layers, branches);
      ParentsFound(layers, branches, refs);
      while grown != refs
        invariant grown == refs + Parents(layers, refs) && grown <= all
        invariant Seeds(branches) <= refs && Found(layers, branches, refs) && Found(layers, branches, grown)
        decreases all - refs
      {
        assert exists p :: p in grown && p !in refs;
        refs := grown;
        grown := refs + Parents(layers, refs);
        ParentsFound(layers, branches, refs);
      }
      var hits := set p | p in refs && p.1 == x :: p.0;
      AllFound(layers, branches, refs, x);
      assert forall id :: id in hits <==> (id, x) in refs;
      assert hits == Reaching(layers, branches, x);
      if forall id | Live(branches, id) :: HasChain(layers, branches[id].base) {
        ReachingAreReferents(layers, branches, x);
      }
      n := |hits|;
    }

    /** Records a completed freeze, or nothing at all. */
    method CommitFreeze(parent: Id, child: Id, vol: Volume, rw: Volume, c: Id) returns (x: Option<Id>)
      modifies this`branches, this`layers, this`journal
      ensures x.Some? ==> journal == old(journal) + [T.Entry(parent, Some(Resetting), Ready)]
      ensures x.None? ==> journal == old(journal)
      ensures freshIds && parent in old(branches) && old(branches)[parent].state == Resetting && child in old(branches) ==> x.Some?
      ensures old(Journaled()) ==> Journaled()
      ensures x.Some? ==>
        && parent in old(branches) && child in old(branches) && x.value !in old(layers)
        && old(branches)[parent].state == Resetting
        && layers == old(layers)[x.value := Layer(old(branches)[parent].source, vol, old(branches)[parent].base)]
        && branches == FrozenRows(old(branches), parent, child, x.value, rw, c, clock)
      ensures x.None? ==> branches == old(branches) && layers == old(layers)
    {
      var newId := NewId(layers.Keys);
      if parent !in branches || branches[parent].state != Resetting || newId in layers || child !in branches {
        return None;
      }
      var p := branches[parent];
      layers := layers[newId := Layer(p.source, vol, p.base)];
      branches := branches[parent := FrozenParent(p, newId, rw, c, clock)];
      branches := branches[child := FrozenChild(branches[child], newId, clock)];
      journal := journal + [T.Entry(parent, Some(Resetting), Ready)];
      x := Some(newId);
      JournalFrozen(old(branches), old(journal), parent, branches);
    }

    /** Deletes a layer row; the foreign key refuses while another layer chains
        onto it. */
    method DeleteLayer(x: Id) returns (ok: bool)
      modifies this`layers
      ensures ok <==> x in old(layers) && forall y | y in old(layers) :: old(layers)[y].parent != Some(x)
      ensures layers == if ok then old(layers) - {x} else old(layers)
    {
      ok := x in layers && forall y | y in layers :: layers[y].parent != Some(x);
      if ok {
        layers := layers - {x};
      }
    }

    method CreateSource(row: Source) returns (s: Option<Id>)
      modifies this`sources
      ensures s.Some? ==>
        s.value !in old(sources) && SourceNameUnused(old(sources), row.name) && sources == old(sources)[s.value := row]
      ensures s.None? ==> sources == old(sources)
      ensures freshIds && SourceNameUnused(old(sources), row.name) ==> s.Some?
    {
      var newId := NewId(sources.Keys);
      if newId in sources || !SourceNameUnused(sources, row.name) {
        return None;
      }
      sources := sources[newId := row];
      s := Some(newId);
    }

    /** Cascades to the source's layers and to its branches' tombstones; a source
        that is not there is an error, and the transaction is rolled back. */
    method DeleteSource(s: Id) returns (ok: bool)
      modifies this`sources, this`branches, this`layers
      ensures ok <==> s in old(sources)
      ensures ok ==> sources == old(sources) - {s}
      ensures ok ==> layers == LayersNotOf(old(layers), s) && branches == BranchesNotOf(old(branches), s)
      ensures !ok ==> sources == old(sources) && layers == old(layers) && branches == old(branches)
      ensures old(Journaled()) ==> Journaled()
    {
      ok := s in sources;
      if !ok {
        return;
      }
      layers := LayersNotOf(layers, s);
      branches := BranchesNotOf(branches, s);
      sources := sources - {s};
    }
  }
}
