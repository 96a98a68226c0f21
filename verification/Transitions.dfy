/** The branch state machine and its journal, under concurrency. A transition is
    two steps, a read and a guarded update; a creation is two statements, the row
    and its journal entry. Steps of any number of callers interleave freely. */
module Transitions {
  import opened Options
  import opened BranchStates

  type Id = nat
  datatype Entry = Entry(id: Id, from: Option<BranchState>, to: BranchState)

  /** One call of TransitionBranch: asked for, having read a state from which the
      edge is legal, or over. */
  datatype Call = Asked(id: Id, to: BranchState) | HasRead(id: Id, to: BranchState, from: BranchState) | Over(won: bool)

  datatype System = System(rows: map<Id, BranchState>, journal: seq<Entry>, calls: map<nat, Call>, unlogged: set<Id>)

  datatype Event =
    | Insert(id: Id)          // the row of a new branch
    | LogCreated(id: Id)      // its first journal entry
    | Ask(call: nat, id: Id, to: BranchState)
    | Read(call: nat)
    | Update(call: nat)
    | CommitFreeze(parent: Id)

  /** The update of a call goes through exactly when the row is still in the
      state the call read. */
  predicate Wins(s: System, call: nat) {
    call in s.calls && s.calls[call].HasRead? && s.calls[call].id in s.rows && s.rows[s.calls[call].id] == s.calls[call].from
  }

  /** The state change an event makes, if it makes one. */
  function Change(s: System, ev: Event): Option<Entry> {
    match ev
    case Update(call) =>
      if Wins(s, call) then Some(Entry(s.calls[call].id, Some(s.calls[call].from), s.calls[call].to)) else None
    case CommitFreeze(p) =>
      if p in s.rows && s.rows[p] == Resetting then Some(Entry(p, Some(Resetting), Ready)) else None
    case _ => None
  }

  function Next(s: System, ev: Event): System {
    match ev
    case Insert(id) =>
      if id in s.rows || id in s.unlogged || exists e | e in s.journal :: e.id == id then s
      else s.(rows := s.rows[id := Creating], unlogged := s.unlogged + {id})
    case LogCreated(id) =>
      if id in s.unlogged
      then s.(journal := s.journal + [Entry(id, None, Creating)], unlogged := s.unlogged - {id})
      else s
    case Ask(call, id, to) =>
      if call in s.calls then s else s.(calls := s.calls[call := Asked(id, to)])
    case Read(call) =>
      if call in s.calls && s.calls[call].Asked? then
        var c := s.calls[call];
        if c.id in s.rows && Legal(s.rows[c.id], c.to)
        then s.(calls := s.calls[call := HasRead(c.id, c.to, s.rows[c.id])])
        else s.(calls := s.calls[call := Over(false)])
      else s
    case Update(call) =>
      if call in s.calls && s.calls[call].HasRead? then
        var c := s.calls[call];
        if Wins(s, call)
        then s.(rows := s.rows[c.id := c.to], journal := s.journal + [Entry(c.id, Some(c.from), c.to)],
                calls := s.calls[call := Over(true)])
        else s.(calls := s.calls[call := Over(false)])
      else s
    case CommitFreeze(p) =>
      if p in s.rows && s.rows[p] == Resetting
      then s.(rows := s.rows[p := Ready], journal := s.journal + [Entry(p, Some(Resetting), Ready)])
      else s
  }

  const Empty := System(map[], [], map[], {})

  function After(s: System, evs: seq<Event>): System {
    if evs == [] then s else Next(After(s, evs[..|evs| - 1]), evs[|evs| - 1])
  }

  /** A branch's own entries, oldest first. */
  function History(journal: seq<Entry>, id: Id): seq<Entry> {
    if journal == [] then []
    else History(journal[..|journal| - 1], id) + (if journal[|journal| - 1].id == id then [journal[|journal| - 1]] else [])
  }

  /** A legal path from creation to a state. */
  predicate LegalPath(h: seq<Entry>, id: Id, last: BranchState) {
    && h != [] && h[0] == Entry(id, None, Creating) && h[|h| - 1].to == last
    && forall i | 0 < i < |h| :: h[i].from == Some(h[i - 1].to) && Legal(h[i - 1].to, h[i].to)
  }

  lemma HistoryAppend(journal: seq<Entry>, e: Entry, id: Id)
    ensures History(journal + [e], id) == History(journal, id) + (if e.id == id then [e] else [])
  {
    assert (journal + [e])[..|journal|] == journal;
  }

  lemma {:induction false} HistoryNone(journal: seq<Entry>, id: Id)
    requires forall e | e in journal :: e.id != id
    ensures History(journal, id) == []
  {
    if journal != [] {
      HistoryNone(journal[..|journal| - 1], id);
    }
  }

  /** The edges, entered state by entered state: a branch is created once, becomes
      ready or failed only out of a saga that was at work, is reset only from
      ready, torn down only from ready or failed, and gone only after that. */
  lemma EnteredFrom(h: seq<Entry>, id: Id, last: BranchState, i: nat)
    requires LegalPath(h, id, last) && 0 < i < |h|
    ensures h[i].from == Some(h[i - 1].to)
    ensures match h[i].to
            case Creating => false
            case Ready => h[i - 1].to == Creating || h[i - 1].to == Resetting
            case Failed => h[i - 1].to == Creating || h[i - 1].to == Resetting
            case Resetting => h[i - 1].to == Ready
            case Destroying => h[i - 1].to == Ready || h[i - 1].to == Failed
            case Destroyed => h[i - 1].to == Destroying
  {
  }

  /** A failed branch is never brought back: whatever follows is its removal. */
  lemma {:induction false} FailedIsTheEnd(h: seq<Entry>, id: Id, last: BranchState, i: nat, j: nat)
    requires LegalPath(h, id, last) && i < j < |h| && (h[i].to == Failed || h[i].to == Destroying || h[i].to == Destroyed)
    ensures h[j].to == Destroying || h[j].to == Destroyed
    decreases j
  {
    if i + 1 < j {
      FailedIsTheEnd(h, id, last, i, j - 1);
    }
  }

  /** Between two times at which a branch is ready lies a reset. */
  lemma {:induction false} ReadyAgain(h: seq<Entry>, id: Id, last: BranchState, i: nat, j: nat)
    requires LegalPath(h, id, last) && i < j < |h| && h[i].to == Ready && h[j].to == Ready
    ensures exists k :: i < k < j && h[k].to == Resetting
  {
    EnteredFrom(h, id, last, j);
    if h[j - 1].to == Creating {
      if j - 1 > 0 {
        EnteredFrom(h, id, last, j - 1);
      }
    } else {
      assert i < j - 1 < j && h[j - 1].to == Resetting;
    }
  }

  /** The journal of one branch agrees with its row. */
  predicate Agrees(s: System, id: Id) {
    if id in s.rows && id !in s.unlogged then LegalPath(History(s.journal, id), id, s.rows[id])
    else History(s.journal, id) == [] && (id in s.rows ==> s.rows[id] == Creating) && (id in s.unlogged ==> id in s.rows)
  }

  predicate CallsOk(s: System) {
    forall c | c in s.calls && s.calls[c].HasRead? :: Legal(s.calls[c].from, s.calls[c].to)
  }

  /** A change is made to a branch whose creation is not in the journal yet. */
  predicate Premature(s: System, ev: Event) {
    Change(s, ev).Some? && Change(s, ev).value.id in s.unlogged
  }

  predicate Orderly(evs: seq<Event>) {
    forall i | 0 <= i < |evs| :: !Premature(After(Empty, evs[..i]), evs[i])
  }

  lemma NextCalls(s: System, ev: Event)
    requires CallsOk(s)
    ensures CallsOk(Next(s, ev))
  {
  }

  /** What an event does to tables: at most one row and one entry. */
  lemma NextTables(s: System, ev: Event)
    ensures var s' := Next(s, ev);
      if ev.Insert? then s'.journal == s.journal
      else if ev.LogCreated? then s'.rows == s.rows
      else match Change(s, ev)
           case Some(e) => s'.rows == s.rows[e.id := e.to] && s'.journal == s.journal + [e] && s'.unlogged == s.unlogged
                           && e.id in s.rows && e.from == Some(s.rows[e.id])
           case None => s'.rows == s.rows && s'.journal == s.journal && s'.unlogged == s.unlogged
  {
  }

  lemma ChangeLegal(s: System, ev: Event)
    requires CallsOk(s) && Change(s, ev).Some?
    ensures var e := Change(s, ev).value; e.id in s.rows && e.from == Some(s.rows[e.id]) && Legal(s.rows[e.id], e.to)
  {
  }

  lemma PathExtends(h: seq<Entry>, id: Id, last: BranchState, e: Entry)
    requires LegalPath(h, id, last) && e.from == Some(last) && Legal(last, e.to)
    ensures LegalPath(h + [e], id, e.to)
  {
  }

  lemma ChangeAgrees(s: System, s': System, e: Entry, id: Id)
    requires Agrees(s, id) && e.id in s.rows && e.id !in s.unlogged && e.from == Some(s.rows[e.id]) && Legal(s.rows[e.id], e.to)
    requires s'.rows == s.rows[e.id := e.to] && s'.journal == s.journal + [e] && s'.unlogged == s.unlogged
    ensures Agrees(s', id)
  {
    hide LegalPath, History;
    HistoryAppend(s.journal, e, id);
    if id == e.id {
      PathExtends(History(s.journal, id), id, s.rows[id], e);
    } else {
      assert History(s.journal, id) + [] == History(s.journal, id);
    }
  }

  lemma LogAgrees(s: System, x: Id, id: Id)
    requires Agrees(s, id) && Agrees(s, x) && x in s.unlogged
    ensures Agrees(Next(s, LogCreated(x)), id)
  {
    hide History;
    HistoryAppend(s.journal, Entry(x, None, Creating), id);
  }

  lemma InsertAgrees(s: System, x: Id, id: Id)
    requires Agrees(s, id)
    ensures Agrees(Next(s, Insert(x)), id)
  {
    hide LegalPath, History, Change;
    assert Next(s, Insert(x)).journal == s.journal;
  }

  lemma NextAgrees(s: System, ev: Event, id: Id)
    requires CallsOk(s) && (forall x :: Agrees(s, x)) && !Premature(s, ev)
    ensures Agrees(Next(s, ev), id)
  {
    hide LegalPath, History;
    NextTables(s, ev);
    if ev.Insert? {
      InsertAgrees(s, ev.id, id);
    } else if ev.LogCreated? {
      if ev.id in s.unlogged {
        hide Agrees;
        LogAgrees(s, ev.id, id);
      }
    } else if Change(s, ev).Some? {
      ChangeLegal(s, ev);
      hide Next, Agrees;
      ChangeAgrees(s, Next(s, ev), Change(s, ev).value, id);
    }
  }

  lemma {:induction false} HistoryMember(journal: seq<Entry>, id: Id)
    ensures History(journal, id) == [] <==> forall e | e in journal :: e.id != id
  {
    if journal != [] {
      var front, last := journal[..|journal| - 1], journal[|journal| - 1];
      HistoryMember(front, id);
      assert journal == front + [last];
    }
  }

  /** For every interleaving in which no change overtakes a creation's journal
      entry, every journal is a legal path from creating to the row's state. */
  lemma {:induction false} JournalLegal(evs: seq<Event>)
    requires Orderly(evs)
    ensures CallsOk(After(Empty, evs)) && forall id :: Agrees(After(Empty, evs), id)
  {
    if evs != [] {
      var front, last := evs[..|evs| - 1], evs[|evs| - 1];
      OrderlyPrefix(evs);
      JournalLegal(front);
      var s := After(Empty, front);
      NextCalls(s, last);
      forall id
        ensures Agrees(After(Empty, evs), id)
      {
        NextAgrees(s, last, id);
      }
    }
  }

  lemma OrderlyPrefix(evs: seq<Event>)
    requires Orderly(evs) && evs != []
    ensures Orderly(evs[..|evs| - 1]) && !Premature(After(Empty, evs[..|evs| - 1]), evs[|evs| - 1])
  {
    var front := evs[..|evs| - 1];
    assert forall i | 0 <= i < |front| :: front[..i] == evs[..i] && front[i] == evs[i];
  }

  /** A history that does not begin with a creation. */
  predicate Spoilt(s: System, id: Id) {
    History(s.journal, id) != [] && History(s.journal, id)[0].from.Some?
  }

  lemma {:induction false} StaysSpoilt(s: System, evs: seq<Event>, id: Id)
    requires Spoilt(s, id)
    ensures Spoilt(After(s, evs), id)
  {
    hide History;
    if evs != [] {
      var front, last := evs[..|evs| - 1], evs[|evs| - 1];
      StaysSpoilt(s, front, id);
      var t := After(s, front);
      assert Next(t, last).journal == t.journal || exists e :: Next(t, last).journal == t.journal + [e] by { hide Change; }
      if e :| Next(t, last).journal == t.journal + [e] {
        HistoryAppend(t.journal, e, id);
      }
    }
  }

  lemma SpoilStep(s: System, ev: Event)
    requires Premature(s, ev) && Agrees(s, Change(s, ev).value.id)
    ensures Spoilt(Next(s, ev), Change(s, ev).value.id)
  {
    var e := Change(s, ev).value;
    NextTables(s, ev);
    hide Next, Change, History;
    HistoryAppend(s.journal, e, e.id);
  }

  lemma PrematureChange(s: System, ev: Event)
    requires Premature(s, ev)
    ensures Change(s, ev).Some?
  {
  }

  /** A change that overtakes the creation's entry spoils the journal for good. */
  lemma PrematureSpoils(evs: seq<Event>, i: nat) returns (id: Id)
    requires i < |evs| && Orderly(evs[..i]) && Premature(After(Empty, evs[..i]), evs[i])
    ensures Spoilt(After(Empty, evs), id)
  {
    hide After, Next, Orderly, Premature, Agrees, Spoilt, Change;
    var s := After(Empty, evs[..i]);
    PrematureChange(s, evs[i]);
    id := Change(s, evs[i]).value.id;
    JournalLegal(evs[..i]);
    SpoilStep(s, evs[i]);
    AfterSnoc(Empty, evs[..i], evs[i]);
    assert evs[..i + 1] == evs[..i] + [evs[i]];
    AfterSplit(evs, i + 1);
    StaysSpoilt(After(Empty, evs[..i + 1]), evs[i + 1..], id);
  }

  lemma {:induction false} FirstPremature(evs: seq<Event>) returns (i: nat)
    requires !Orderly(evs)
    ensures i < |evs| && Orderly(evs[..i]) && Premature(After(Empty, evs[..i]), evs[i])
  {
    hide After, Premature;
    var front := evs[..|evs| - 1];
    assert forall k | 0 <= k < |front| :: front[..k] == evs[..k] && front[k] == evs[k];
    if Orderly(front) {
      i := |evs| - 1;
    } else {
      i := FirstPremature(front);
      assert front[..i] == evs[..i];
    }
  }

  /** The exact condition: at the end of a run every branch's journal is a legal
      path from creating to its row's state if and only if no change was made to
      a branch whose creation had not been journaled yet. */
  lemma JournalLegalIff(evs: seq<Event>)
    ensures Orderly(evs) <==> forall id :: Agrees(After(Empty, evs), id)
  {
    hide After, Orderly;
    if Orderly(evs) {
      JournalLegal(evs);
    } else {
      var i := FirstPremature(evs);
      var id := PrematureSpoils(evs, i);
      assert !Agrees(After(Empty, evs), id);
    }
  }

  lemma {:induction false} AfterSplit(evs: seq<Event>, i: nat)
    requires i <= |evs|
    ensures After(Empty, evs) == After(After(Empty, evs[..i]), evs[i..])
  {
    if i == |evs| {
      assert evs[..i] == evs;
    } else {
      var front := evs[..|evs| - 1];
      AfterSplit(front, i);
      assert front[..i] == evs[..i] && evs[i..][..|evs| - i - 1] == front[i..];
    }
  }

  lemma AfterSnoc(s: System, evs: seq<Event>, ev: Event)
    ensures After(s, evs + [ev]) == Next(After(s, evs), ev)
  {
    assert (evs + [ev])[..|evs|] == evs;
  }

  /** Such an overtaking exists: a transition that finds the new row by name
      before its creation is journaled. */
  lemma OvertakingExample()
    ensures var evs := [Insert(7)] + [Ask(0, 7, Failed)] + [Read(0)] + [Update(0)] + [LogCreated(7)];
            History(After(Empty, evs).journal, 7) == [Entry(7, Some(Creating), Failed), Entry(7, None, Creating)]
  {
    hide After, History;
    var e1 := [Insert(7)];
    var e2 := e1 + [Ask(0, 7, Failed)];
    var e3 := e2 + [Read(0)];
    var e4 := e3 + [Update(0)];
    assert After(Empty, e1).rows == map[7 := Creating] && After(Empty, e1).unlogged == {7}
           && After(Empty, e1).calls == map[] && After(Empty, e1).journal == [] by { AfterOne(Insert(7)); }
    AfterSnoc(Empty, e1, Ask(0, 7, Failed));
    assert After(Empty, e2).calls == map[0 := Asked(7, Failed)];
    AfterSnoc(Empty, e2, Read(0));
    assert After(Empty, e3).calls == map[0 := HasRead(7, Failed, Creating)];
    AfterSnoc(Empty, e3, Update(0));
    var e := Entry(7, Some(Creating), Failed);
    assert After(Empty, e4).journal == [] + [e] && After(Empty, e4).unlogged == {7};
    AfterSnoc(Empty, e4, LogCreated(7));
    HistoryAppend([], e, 7);
    HistoryAppend([] + [e], Entry(7, None, Creating), 7);
    HistoryMember([], 7);
  }

  lemma AfterOne(ev: Event)
    ensures After(Empty, [ev]) == Next(Empty, ev)
  {
    AfterSnoc(Empty, [], ev);
    assert [] + [ev] == [ev];
  }

  /** Of two calls that read the same state of the same row, the one that
      updates first wins and the other loses, in either order. */
  lemma OneWins(s: System, a: nat, b: nat)
    requires a != b && CallsOk(s) && Wins(s, a) && b in s.calls && s.calls[b].HasRead?
    requires s.calls[a].id == s.calls[b].id && s.calls[a].from == s.calls[b].from
    ensures var s1 := Next(s, Update(a)); s1.calls[a] == Over(true) && Next(s1, Update(b)).calls[b] == Over(false)
    ensures var s1 := Next(s, Update(b)); s1.calls[b] == Over(true) && Next(s1, Update(a)).calls[a] == Over(false)
  {
  }

  /** With other events in between a second win is possible only after some
      other change has brought the row back to the state that was read. */
  lemma {:induction false} ReturnNeeded(s: System, evs: seq<Event>, id: Id, from: BranchState) returns (k: nat)
    requires id in s.rows && s.rows[id] != from
    requires id in After(s, evs).rows && After(s, evs).rows[id] == from
    ensures k < |evs| && Change(After(s, evs[..k]), evs[k]) .Some?
    ensures Change(After(s, evs[..k]), evs[k]).value.id == id && Change(After(s, evs[..k]), evs[k]).value.to == from
  {
    var front, last := evs[..|evs| - 1], evs[|evs| - 1];
    var t := After(s, front);
    NextTables(t, last);
    RowStays(s, front, id);
    if t.rows[id] == from {
      k := ReturnNeeded(s, front, id, from);
      assert front[..k] == evs[..k];
    } else {
      k := |evs| - 1;
    }
  }

  lemma {:induction false} RowStays(s: System, evs: seq<Event>, id: Id)
    requires id in s.rows
    ensures id in After(s, evs).rows
  {
    if evs != [] {
      RowStays(s, evs[..|evs| - 1], id);
    }
  }

  /** Destroyed is final, whatever happens concurrently. */
  lemma {:induction false} DestroyedFinal(s: System, evs: seq<Event>, id: Id)
    requires CallsOk(s) && id in s.rows && s.rows[id] == Destroyed && id !in s.unlogged
    ensures var s' := After(s, evs); CallsOk(s') && id in s'.rows && s'.rows[id] == Destroyed
    ensures id !in After(s, evs).unlogged && History(After(s, evs).journal, id) == History(s.journal, id)
  {
    hide History;
    if evs != [] {
      var front, last := evs[..|evs| - 1], evs[|evs| - 1];
      DestroyedFinal(s, front, id);
      var t := After(s, front);
      NextCalls(t, last);
      NextTables(t, last);
      if Change(t, last).Some? {
        ChangeLegal(t, last);
        HistoryAppend(t.journal, Change(t, last).value, id);
      } else if last.LogCreated? && last.id in t.unlogged {
        HistoryAppend(t.journal, Entry(last.id, None, Creating), id);
      }
    }
  }
}
