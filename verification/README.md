# Verified model of the branch engine

A branch of a Postgres database is a stack: a writable volume, empty at birth,
over a chain of frozen layers, newest first, over the volume of a source. The
project models the engine that builds, freezes, resets, destroys and collects
such stacks, together with the registry it records them in, and proves what
its clients rely on. The driver's calls are nondeterministic: each may fail,
and the theorems hold for every choice. `reliable` says that removals succeed,
`Flawless` that no call fails and every container answers, `freshIds` that no
generated id is taken; under these the operations are shown to succeed.

A volume remembers what was done in it: `masked` once a source's mask scripts
completed there, `rotated` once the password change did. The invariant asks both
of every ready branch that needs them.

How the files build on each other:

- `Overlay`, `Names`, `Decimal`, `Cow`, `BranchStates`, `Options`: merged views,
  volume names, mounts, the state machine's edges.
- `Worlds`: the registry tables and the driver's state as one value, the
  invariant `Inv`, and `Kept` (what must survive for everybody out of an
  operation's scope). `Steps`: one lemma for each single statement or driver call.
- `Registry`, `Driver`, `Engine`: the mutable classes. An operation's history holds
  every state it passes through, one statement or driver call at a time
  (`Engine.Safe`). In each of them `Kept` holds, and `Inv` too but for one: a ready
  source that is being removed is for a moment without its volume (`Engine.Gap`).
- `Saga`, `Collect`, `Removal`, `Freeze`: the multi-step operations with their
  compensations. `Leftovers`: the stronger invariant `Tight` of installations
  whose removals succeed (no volume, container or layer without an owner).
- `Branching`, `Sources`, `Reconcile`: the public operations. `Recovery`: many
  passes, and a crash followed by them. `Runs`: arbitrary sequences of operations
  mixed with guest writes and crashes, and the refinement of a machine that knows nothing of
  layers, volumes or sharing (`Runs.RunStory`). `Limits`: states in which a rule
  the engine relies on, but does not enforce, is broken.
- `Transitions`: the state machine and its journal under interleaving. `Csi`: the
  clone saga of the csi backend.
- `LineDiff`, `Patches`, `Hunks`, `Unified`: the line diff, its hunks and its text.
- `Shell`, `Clock`, `Sample`: argument quoting, time stamps compared as text,
  the bounded row sample.

Two rules are preconditions, as the engine does not enforce them: operations do
not overlap (except in `Transitions`, and between a reconcile plan and each of
its actions), and a name is given to a new branch or source only if the volume
name it yields is nobody else's (`Runs.Allowed`).

## What does not hold

- A freeze keeps the parent's view only if the volume it moves to is new or
  holds nothing that shows (`Freeze.FreezeKeepsParentView`). A fresh volume that
  a failed compensation left behind is reused as it is
  (`Limits.LeftoverBreaksFreeze`); where removals succeed none exists
  (`Leftovers.NextVolumeAbsent`).
- A destroyed branch's frozen layer keeps the branch's first volume name, so
  giving the name away again lets the new branch write into a live layer
  (`Limits.ReuseBreaksIsolation`; `Limits.SharedVolumeLeaks` shows that the rule
  is needed in every such state). Two sources can share a volume name
  (`Names.SourceNameCollision` gives the exact condition).
- A branch's journal need not start with its creation: the row and the first
  entry are separate statements, and a transition between them is journaled first
  (`Transitions.JournalLegalIff`, `Transitions.OvertakingExample`).
- The comment on hunk grouping says that more than six equal lines start a new
  hunk; the code starts one at exactly six (`Hunks.HunkBoundary`). The comment on
  the diff says that trailing-newline-only differences are ignored; only one
  newline after a non-empty last line is (`Unified.SameLines`,
  `Unified.BlankLineCounts`).
- The stuck-row cutoff is a whole second compared with milliseconds, so a row up
  to one second younger than the timeout may be flagged (`Clock.StuckEarly`).
- The row sample can be wrong in two ways: deleted base rows can make an old row look
  new (`Sample.DeletionMisleads`; `Sample.SampleRightByCount` counts how many it
  takes), and whole-number keys beyond 2^53 can look alike because they are decoded as
  floats (`Sample.FloatThreshold`, `Sample.LookAlikeHides`).
- The guard that keeps a freeze parent's data counts live rows that name the parent.
  A parent left resetting by a crash keeps its data through a pass exactly if such a
  row is there and is not itself reaped (`Reconcile.ApplyReconcile`); destroying the
  stuck child first loses the data (`Recovery.StrandedParent`).
- The comment on applying a plan says that every destructive action is checked again;
  the check before a reap asks only for some expiry, so a branch created anew under
  the name is destroyed before its time (`Recovery.ReapedTooEarly`). The comment on
  collecting a layer says that its volume is kept when the foreign key refuses the
  row; the volume has been removed before that, in every such case
  (`Reconcile.ApplyGCLayer`).
- A crash between the last two steps of removing a ready source leaves the source
  without its volume, and no pass repairs that (`Recovery.CrashExact`,
  `Recovery.GapStays`); asking for the removal again does
  (`Sources.RemoveSourceAgain`).
- A destroy that stopped half way is never retried, so after a crash nothing is left
  over exactly if there is none (`Recovery.Recover`).

## Model

| member | source | states |
|---|---|---|
| `Overlay.MergedIsLookup` | internal/cow/plan.go:148-169 | the merged tree of a stack holds a path exactly when a top-down search of the layers finds it, with the same content; a whiteout hides what is below |
| `Overlay.EmptyLayerOnTop` | internal/engine/freeze.go:15-20 | an empty writable volume on top of a stack is invisible: the reason a freeze may swap the parent's volume |
| `Overlay.WriteThrough` | internal/cow/plan.go:152-169 | a write or delete in the top layer changes exactly one path of the merged tree |
| `Names.RWNameInjective` | internal/cow/plan.go:131-142 | (branch, generation) to writable-volume name is injective for all branch names and all generations from 1 |
| `Names.SourceNameCollision` | internal/cow/plan.go:125-130 | two source generations share a volume name if and only if they are the same, or one is a first generation whose source is named like the other with its generation suffix |
| `Names.GenerationsDistinct` | internal/cow/plan.go:125-130 | generations of one source never share a volume name |
| `Names.PrintedInjective` | internal/cow/plan.go:125-142 | printed volume names are injective over writable and source volumes together, so the engine may reason about volumes instead of strings |
| `Names.PrintedExamples` | internal/engine/saga.go:24 | volume names as an operator sees them; a name of one repeated letter is valid exactly up to 41 characters; the empty name, a leading hyphen, capitals, slashes and dots are refused |
| `Decimal.ValueDigits` | internal/diffutil/diffutil.go:150 | a printed number reads back as itself |
| `Cow.PlanBranch` | internal/cow/plan.go:152-169 | the overlay directories are the frozen layers newest first, then the source, under the mount points the container expects |
| `Cow.BranchMounts` | internal/engine/saga.go:195-200 | every overlay directory of the plan lies under exactly one mount, as the intended directory of the intended volume (lower1 is never taken for lower10); the branch's own volume is mounted writable, and nothing else is |
| `Registry.Registry.TransitionBranch` | internal/registry/registry.go:363-417 | the row moves along a legal edge, with its journal entry, or nothing changes; success if and only if the edge is legal; every branch's journal stays a legal path from its creation to its state |
| `Registry.Registry.LayerChain` | internal/registry/registry.go:843-858 | the walk over parent links succeeds exactly if the branch exists and no link is dangling, and then returns exactly the chain from the branch's base to the source, with its volumes |
| `Registry.Registry.CountBranchesReferencingLayer` | internal/registry/registry.go:863-876 | in any registry, dangling or circular links included, the fixpoint of the recursive query counts exactly the live branches that reach the layer; where chains exist these are the branches whose chain contains it |
| `Registry.RefsGrowDownward` | internal/engine/saga.go:557-560 | whoever references a layer references its parent: counts never decrease downward |
| `Registry.Registry.CommitFreeze` | internal/registry/registry.go:894-936 | all of the layer row, the parent's swap, its journal entry and the child's base are recorded, or none; journals stay legal paths |
| `Registry.Registry.DeleteLayer` | internal/registry/registry.go:799-812 | a layer row goes if and only if no other layer is chained onto it |
| `Registry.Registry.DeleteSource` | internal/registry/registry.go:940-970 | the source's row, its layers and its branches' rows go together; a source that is not there is an error without effect |
| `Registry.Registry.CreateBranch` | internal/registry/registry.go:334-342 | a row, stamped with the present time, is inserted with its creation entry unless the id or a live name is taken; journals stay legal paths if the id is new to the journal |
| `Steps.NextVolumeFresh` | internal/engine/freeze.go:94-99 | in every state that satisfies the invariant the name built from chain length + 2 belongs to no live branch, layer or source |
| `Steps.NextGenerationFresh` | internal/engine/engine.go:207 | under the name rule the next generation's volume is no live branch's, layer's or source's |
| `Leftovers.NextVolumeAbsent` | internal/engine/freeze.go:94-99 | without leftovers the next writable volume does not exist yet |
| `Worlds.KeptView` | internal/engine/saga.go:399-594 | a step that keeps a branch's stack and the content of its volumes keeps its merged view |
| `Saga.RunUndo` | internal/engine/saga.go:126-131 | compensations run in reverse: in every state passed some tail of the list has been run and nothing else, so a volume goes only after the containers started over it; in the end what they name is gone if removals succeed, everything else is as before |
| `Saga.Provision` | internal/engine/saga.go:113-164 | whichever call fails: one row, one volume and at most one container changed; a failure with succeeding removals leaves nothing new; if no call fails it succeeds; an unmasked success starts from an empty volume, and every success has the mask scripts and the password change completed in the branch's own volume |
| `Saga.AwaitAndMark` | internal/engine/saga.go:308-328 | only the branch's own volume is written before it is handed out; it becomes ready only after its container answered and after the mask scripts of its source and its password change, where there are any, completed in that volume; if no call fails it does become ready |
| `Steps.ReadyServed` | internal/engine/saga.go:303-321 | in every state that satisfies the invariant, a ready branch of a source with mask scripts is mounted from a volume of its own in which they completed, the same for the password change, and its container answers |
| `Freeze.FreezeAndProvision` | internal/engine/freeze.go:89-226 | for every choice of failing driver calls the saga ends committed (one new layer, parent ready on the fresh volume, child based on the layer) or rolled back (no layer, parent's volume and base unchanged, parent ready or failed and never resetting, fresh volumes gone if removals succeed); if no call fails and the layer's id is new it commits, and if no call fails the parent ends ready |
| `Freeze.Quiesce` | internal/engine/freeze.go:101-130 | the parent is stopped only after its checkpoint completed; if removals succeed, a failed checkpoint leaves it ready on the container it had |
| `Freeze.RestoreParent` | internal/engine/freeze.go:232-261 | the parent ends ready on its original volume and chain, or failed; ready if no call fails |
| `Freeze.FreezeParentView` | internal/engine/freeze.go:101-226 | after a commit the parent shows whatever the fresh volume already held laid over its former view |
| `Freeze.FreezeKeepsParentView` | internal/engine/freeze.go:15-27 | a committed freeze leaves the parent's view unchanged if and only if the fresh volume held nothing that shadows it; always when the volume is new |
| `Freeze.FreezeGround` | internal/engine/freeze.go:94-99 | after a commit the tree the parent showed is what a reset of the parent and of the child returns to |
| `Freeze.ChildBornWithParentView` | internal/engine/freeze.go:12-20 | at the moment its container starts, before masking, the child shows exactly the parent's view, if both fresh volumes are new (Branching.CreateBranchFrom discharges this where nothing is left over) |
| `Freeze.PlainChildView` | internal/engine/freeze.go:166-226 | without masking and password rotation the ready child shows exactly the parent's view, if its volume is new (Runs.RunStory discharges this) |
| `Freeze.RollbackKeepsParentView` | internal/engine/freeze.go:22-27 | after a rollback the parent's view and its original volume are unchanged |
| `Collect.GcLayers` | internal/engine/saga.go:561-573 | exactly a prefix of the chain is collected; the walk stops at the first referenced layer or failed removal |
| `Collect.NoChildLeft` | internal/engine/saga.go:557-573 | where nothing is left over, the layer being collected has no other layer chained onto it, so the foreign key never refuses |
| `Collect.GcSourceVolume` | internal/engine/saga.go:578-594 | a source volume goes exactly when it is neither current nor pinned (removal succeeding), and no view changes |
| `Removal.Teardown` | internal/engine/saga.go:500-549 | the branch is destroyed with its container and volume; a branch forced out of a transient state keeps its volume exactly if another live branch depends on it (removals succeeding) |
| `Removal.Destroy` | internal/engine/saga.go:484-555 | only layers of the branch's own chain that nobody references any more go, exactly those where nothing was left over; its pinned old generation goes once it is neither current nor pinned; every other branch's stack is kept |
| `Removal.DestroyTight` | internal/engine/saga.go:550-573 | with succeeding removals a destroy keeps the exact-ownership invariant: what is left is what live branches use |
| `Branching.CreateBranch` | internal/engine/saga.go:73-102 | refused without effect for an invalid or used name or over the quota; otherwise a new row with the lifetime asked for that ends ready or failed; given a ready source of the name, a new row id and no failing call it ends ready; an unmasked branch shows exactly the source's current generation; no other view changes |
| `Branching.Admitted` | internal/engine/engine.go:112-127 | admitted if and only if the name is valid and, with a cap of n > 0, fewer than n branches are live |
| `Branching.ResetBranch` | internal/engine/saga.go:399-429 | the row ends ready or failed with the same ground, ready if no call fails, and then masked and with a new password again where that is called for; an unmasked branch shows exactly its ground; no other view changes |
| `Branching.DestroyBranch` | internal/engine/saga.go:484-555 | every other view is kept, and without leftovers before there are none after |
| `Branching.CreateBranchFrom` | internal/engine/freeze.go:35-82 | refused without effect, or the freeze outcome with a failed child on rollback; the child's row carries the lifetime asked for and its parent's name, and in every state passed in which the parent is down that row keeps the parent's data from being collected; given a ready parent, a free name within the quota, new ids and no failing call the child ends ready; every other view is kept, the parent keeps its view (unless a leftover volume was found) and gets it as its ground; where nothing was left over the child's container first serves exactly the parent's view |
| `Branching.HistoryShields` | internal/engine/freeze.go:54-58 | over every history in which the child's row names its parent, the guard on the parent's volume holds whenever the parent is resetting |
| `Branching.DiffBranch` | internal/engine/diff.go:84-164 | on every exit whose removals succeed rows, layers, volumes and containers are as before but for the throwaway's tombstone, which expires within the hour; the report is a unified diff, empty exactly if the lines are the same, from the dump of a throwaway on exactly the stack a reset of the target would use to the dump of the target; without masking that is the dump of exactly what a reset would show; if no call fails there is a report |
| `Branching.GuestWrite` | internal/cow/plan.go:152-169 | a client's write changes one path of its own branch's view, not its ground, and no other branch |
| `Sources.AddSource` | internal/engine/engine.go:172-193 | nothing is inserted (always so for an invalid name), or a source that ends ready on a first-generation volume that holds exactly the database it was seeded from, or failed, and then without a new volume if removals succeed; for a valid unused name and no failing call it ends ready; no view changes |
| `Sources.RefreshSource` | internal/engine/engine.go:199-221 | the source moves one generation, onto a volume that holds exactly the database it was seeded from, or stays as it was; a ready source moves if no call fails; pinned branches keep their view; an unpinned old generation is gone at once if removals succeed |
| `Sources.RemoveSource` | internal/engine/engine.go:226-262 | refused without effect while a live branch uses the source; otherwise it succeeds if removals do, and nothing of the source is left; its history passes through the state between its last two steps |
| `Engine.VolumeGone` | internal/engine/engine.go:256-261 | in the state between removing a source's volume and deleting its rows nobody else is disturbed, the invariant holds if and only if the source was not ready, and deleting the rows restores it |
| `Sources.RemoveSourceAgain` | internal/engine/engine.go:226-262 | asked for again in that state, the removal finishes: the rows go, the invariant holds, nobody else is disturbed |
| `Sources.SourceLayersUnreferenced` | internal/engine/engine.go:238-250 | with no live branch on a source none of its layers is referenced: the defensive count never refuses |
| `Reconcile.PlanReconcile` | internal/engine/reconcile.go:61-153 | an action is in the plan if and only if that piece of drift exists, spelled out for all five kinds: a reap exactly for a ready or failed branch with an expiry before now, a failing exactly for a creating or resetting one not updated since the cutoff, a removal exactly for a container, layer or volume that no live row, source or layer needs |
| `Reconcile.ExpiredAsListed` | internal/registry/registry.go:572-576 | on whole seconds the reap condition is the text comparison of the expiry listing |
| `Reconcile.StuckAsListed` | internal/registry/registry.go:578-590 | on whole seconds the failing condition is the text comparison of the stuck-row listing |
| `Reconcile.LiveVolumeSet` | internal/registry/registry.go:609-641 | exactly the volumes owned by a live branch, a source or a layer |
| `Reconcile.ApplyAction` | internal/engine/reconcile.go:200-327 | from any state satisfying the invariant, whatever happened since planning: no view changes, no volume of another live branch's stack or of a source that is seeded or being seeded goes, and a due action lowers the drift measure or is a layer delete refused by the foreign key |
| `Reconcile.ApplyReconcile` | internal/engine/reconcile.go:162-193 | a pass over a non-empty plan strictly decreases 2*stuck + expired + layers + containers + volumes when removals succeed; only branches named by the plan are touched; a stuck branch ends failed, and its data survives the pass if and only if a live branch that is not itself reaped depends on it; every reported action was planned and has achieved what it is for, and when removals succeed every planned action but a layer's is reported |
| `Reconcile.LeafLayer` | internal/registry/schema.go:106-111 | below every unreferenced layer's descendants there is an unreferenced layer nothing is chained onto: a refused delete never blocks a whole pass |
| `Reconcile.ApplyReap` | internal/engine/reconcile.go:202-216 | the branch of the name is destroyed exactly if it has an expiry recorded, whatever the date, and is not already being destroyed |
| `Reconcile.ApplyFailStuck` | internal/engine/reconcile.go:218-255 | only a branch that is still in a transient state is failed; its volume is kept if another live branch depends on it and otherwise gone if the removal succeeds, and its container is gone if the stop succeeds |
| `Reconcile.ApplyGCLayer` | internal/engine/reconcile.go:276-308 | when removals succeed a due layer's volume is gone in every case, and its row stays if and only if another layer is chained onto it |
| `Recovery.ReconcileUntilDone` | internal/engine/reconcile.go:335-349 | repeated passes end with an empty plan and keep every view; then no ready or failed branch has an expiry before now and no creating or resetting one is older than the timeout; nothing at all is left over if and only if no destroy had stopped half way and no transient row was younger than the timeout |
| `Recovery.Recover` | internal/engine/reconcile.go:335-349 | after a crash at any step of any operation (the removal of a source asked for again if it was the crashed one and was past its volume), followed by reconcile, every ready branch out of the operation's scope shows what it showed, and nothing is left over under the same exact condition |
| `Recovery.CrashExact` | internal/engine/engine.go:256-261 | a crash leaves a state that satisfies the invariant if and only if it did not fall between the last two steps of removing a ready source; in either case nobody out of scope is disturbed |
| `Recovery.GapStays` | internal/engine/reconcile.go:335-349 | what a pass may do never closes that gap |
| `Recovery.AllOldEventually` | internal/registry/registry.go:578-590 | for every state without a half-way destroy there is a cutoff from which nothing in it counts as unfinished |
| `Recovery.StrandedParent` | internal/registry/registry.go:752-767 | destroying the stuck child of a parent left resetting by a crash lets the next pass delete the parent's data |
| `Recovery.ReapedTooEarly` | internal/engine/reconcile.go:202-216 | a branch created anew under a planned name, with an expiry still to come, is destroyed |
| `Runs.Execute` | internal/engine/saga.go:73-594 | every command keeps the invariant and leaves every ready branch it does not name exactly as it was, in what it shows and in what a reset returns it to; named branches change as a write, a reset or a freeze says; new ready branches come only from a source's current generation or from a parent's tree, and unmasked ones show exactly that where nothing was left over; every ready source is as it was or holds the database the command names; if no call fails and ids are new, a command that need not be refused is carried out |
| `Runs.Run` | internal/engine/saga.go:73-594 | any script of commands, with any failing driver calls, is a run of such steps; only commands that break the name rule are skipped; if no call fails and ids are new, none that could be carried out is left undone |
| `Runs.RunInvariant` | internal/registry/schema.go:105-114 | the invariant holds in every state of every run; the no-leftovers form in every run whose removals succeed |
| `Runs.RunIsolation` | internal/engine/freeze.go:89-226 | over a whole run a ready branch's view changes only by commands that have it as subject |
| `Runs.RunReplay` | internal/engine/freeze.go:12-33 | refinement: when removals succeed, an unmasked branch is, from any state of any run on and for as long as it is ready, exactly what a two-tree machine (shown tree, ground) makes of the commands that name it |
| `Runs.RunSeeded` | internal/engine/engine.go:171-221 | in every state of every run a ready source holds exactly the database of the last command that seeded it |
| `Runs.RunStory` | internal/engine/freeze.go:12-33 | the whole story: in every unmasked run from an installation without branches whose removals succeed, every ready branch shows, and would be reset to, exactly what its story says: born with the tree of the database its source was last seeded from or with the tree its parent's own story has reached, then changed by its own commands alone |
| `Runs.RunIsolationTight` | internal/engine/saga.go:399-594 | when removals succeed only the branch's own writes and resets change its view, masked or not |
| `Runs.CrashAnywhere` | internal/engine/saga.go:73-594 | every state a command passes through is one in which it may be halted with the branches it does not work on as they were, or the gap in a source's removal |
| `Runs.CrashRunInvariant` | internal/registry/schema.go:105-114 | the invariant holds in every state of every run in which commands are also halted half way |
| `Runs.RunServed` | internal/engine/saga.go:303-321 | at no moment of any run, with commands halted half way or not, is a branch ready whose mask scripts and password change, where called for, have not completed in a volume of its own that it is mounted from |
| `Runs.CrashRunIsolation` | internal/engine/freeze.go:89-226 | in such runs too, a ready branch that no command worked on shows, and would be reset to, what it did in the beginning |
| `Runs.LayerGraph` | internal/registry/schema.go:105-114 | layer links are closed and acyclic, every live branch's whole chain exists within its own source, and its pinned source volume exists |
| `Runs.NothingLeft` | internal/engine/saga.go:550-594 | without leftovers the layer rows are exactly the union of live chains, every volume belongs to a live stack or is a source's current one, every container is recorded by a live branch, and no branch is half way |
| `Runs.EmptyWorld` | internal/registry/registry.go:114-130 | an empty installation satisfies both invariants |
| `Limits.LeftoverBreaksFreeze` | internal/engine/freeze.go:137-141 | a concrete state in which a fresh volume left by a failed compensation makes a committed freeze change the parent's view |
| `Limits.ReuseBreaksIsolation` | internal/engine/saga.go:89-95 | a concrete state in which a new branch named like a destroyed one writes into the layer the old one left behind |
| `Limits.SharedVolumeLeaks` | internal/engine/saga.go:89-95 | the name rule is needed in general: whenever a branch's writable volume is a layer under another branch, some write through the one changes what the other shows |
| `Limits.SourcesCollide` | internal/cow/plan.go:125-130 | source main in generation 2 and source main-g2 in generation 1 share a volume name |
| `Transitions.JournalLegal` | internal/registry/registry.go:363-417 | for every interleaving of reads, guarded updates, freeze commits and creations in which no change overtakes a creation's journal entry, every journal is a legal path from creating to the row's state |
| `Transitions.JournalLegalIff` | internal/registry/registry.go:334-342 | the journals are legal paths if and only if no change was made to a branch whose creation was not yet journaled |
| `Transitions.OvertakingExample` | internal/registry/registry.go:336-341 | such an overtaking exists: the row and its first journal entry are two statements |
| `Transitions.OneWins` | internal/registry/registry.go:381-408 | of two transitions that read the same state exactly one wins, in either order |
| `Transitions.ReturnNeeded` | internal/registry/registry.go:381-408 | a second win needs another change that brought the row back to the state that was read |
| `Transitions.DestroyedFinal` | internal/registry/registry.go:309-315 | destroyed is final under every continuation, and the branch's journal stays as it is |
| `Transitions.EnteredFrom` | internal/registry/registry.go:309-315 | on every legal path each state is entered only from the states the table allows: creating never again, ready and failed only from creating or resetting, resetting only from ready, destroying only from ready or failed, destroyed only from destroying |
| `Transitions.FailedIsTheEnd` | internal/registry/registry.go:309-315 | after failed only destroying and destroyed follow, however long the path |
| `Transitions.ReadyAgain` | internal/registry/registry.go:309-315 | between two times at which a branch is ready lies a reset |
| `Csi.CsiEngine.QuiesceTarget` | internal/engine/csi.go:121-139 | finds exactly the live parent whose volume is cloned; none if gone or stopped, refused if busy |
| `Csi.CsiEngine.Quiet` | internal/engine/csi.go:44-63 | the parent is resetting with its checkpoint completed and its container gone, or it is ready or failed; ready on the container it had if removals succeed |
| `Csi.CsiEngine.Restart` | internal/engine/csi.go:145-171 | the parent ends ready on its own volume or failed, ready if no call fails; its volume is not touched |
| `Csi.CsiEngine.Fail` | internal/engine/csi.go:66-74 | after a failure the clone and the child's container are gone if removals succeed, and a parent that is still down is restarted or failed, restarted if no call fails |
| `Csi.CsiEngine.Provision` | internal/engine/csi.go:37-115 | whichever calls fail the parent ends ready or failed, never resetting, with its data as it was; when the clone is taken the parent is resetting and no container that a live branch records is mounted from the cloned volume, none at all where every container was recorded; if removals succeed every container is recorded afterwards too; if no call fails and the parent is not busy it succeeds; an unmasked clone holds exactly what its base held |
| `Csi.SoleServes` | internal/engine/csi.go:187-196 | where every container is recorded, the only container on a live branch's volume is the one its row records |
| `Csi.CsiReady` | internal/engine/saga.go:303-321 | a ready csi branch runs on its own volume, in which mask scripts and password change, where called for, have completed, and its container answers |
| `Csi.CsiEngine.CreateBranchFrom` | internal/engine/freeze.go:35-82 | the child ends ready or failed with the lifetime asked for and its parent's name, the parent ready or failed, every other row and volume is unchanged, and an unmasked child holds exactly what the parent held; given a ready parent, a free name within the quota, new ids and no failing call the child ends ready; if removals succeed every container stays recorded |
| `LineDiff.LcsLongest` | internal/diffutil/diffutil.go:70-87 | no common subsequence of two line lists is longer than the table's value |
| `LineDiff.FillTable` | internal/diffutil/diffutil.go:71-87 | every cell of the table is the value for the two remainders |
| `LineDiff.LcsOps` | internal/diffutil/diffutil.go:71-110 | the script turns a into b, keeps a longest common subsequence, and puts the deletions of every run of changes first |
| `LineDiff.DiffOps` | internal/diffutil/diffutil.go:50-68 | the same for the whole inputs, through prefix and suffix trimming |
| `LineDiff.LcsSuffix` | internal/diffutil/diffutil.go:47-58 | cutting a common suffix costs exactly its length |
| `LineDiff.ShortestScript` | internal/diffutil/diffutil.go:47-110 | no insert/delete script between the texts is shorter |
| `Hunks.Counts` | internal/diffutil/diffutil.go:116-127 | the prefix counts are the lines of either side before each operation |
| `Hunks.RenderHunks` | internal/diffutil/diffutil.go:115-159 | the hunks are disjoint and increasing, cover exactly the operations within three lines of a change, and are printed with headers that count their bodies; the text is empty exactly when nothing changed |
| `Hunks.ChangeInOneHunk` | internal/diffutil/diffutil.go:135-142 | every change stands in exactly one hunk |
| `Hunks.ShownIff` | internal/diffutil/diffutil.go:140-155 | a line is printed if and only if a change stands within three lines of it |
| `Hunks.HunkBoundary` | internal/diffutil/diffutil.go:136-139 | neighbouring changes share a hunk exactly when fewer than six unchanged lines separate them |
| `Hunks.HunksApply` | internal/diffutil/diffutil.go:115-159 | applying the hunks at the places their headers give turns a's lines into b's |
| `Patches.PatchBack` | internal/diffutil/diffutil.go:150-155 | printed hunks are read back exactly by their header counts, whatever the lines contain |
| `Unified.UnifiedDiff` | internal/diffutil/diffutil.go:22-35 | the diff is that of a shortest script, and empty exactly when the split lists are equal |
| `Unified.SameLines` | internal/diffutil/diffutil.go:37-45 | the split lists are equal exactly when the strings are, or differ by one trailing newline after a non-empty last line |
| `Unified.PatchRoundTrip` | internal/diffutil/diffutil.go:19-35 | the printed diff, read back and applied to a's lines, yields b's lines |
| `Unified.FewestEdits` | internal/diffutil/diffutil.go:22-35 | no script between the two texts has fewer edits than the printed one |
| `Unified.BlankLineCounts` | internal/diffutil/diffutil.go:19-21 | not every trailing-newline-only difference is ignored |
| `Shell.ShellJoin` | internal/engine/zfs.go:36-42 | a POSIX shell splits the joined line into exactly the argument vector |
| `Shell.QuotingRoundTrip` | internal/engine/zfs.go:27-42 | the same for every vector, including empty words and words with quotes, blanks or newlines |
| `Shell.QuotingInjective` | internal/engine/zfs.go:36-42 | different vectors never print the same line |
| `Clock.CivilOrder` | internal/registry/registry.go:572-573 | calendar order is time order over the years 0 to 9999 |
| `Clock.DaysClosed` | internal/registry/registry.go:572-573 | the days before a year are 365 for each and one for every leap year of the Gregorian calendar |
| `Clock.CalendarAnchors` | internal/engine/engine.go:134-145 | the Unix epoch and a leap day lie where Unix time has them |
| `Clock.Rfc3339Order` | internal/registry/registry.go:572-576 | string order of whole-second stamps is the order of their seconds |
| `Clock.Rfc3339Back` | internal/engine/engine.go:134-145 | the text of an instant reads back as the valid calendar date and time of day of its second |
| `Clock.SqlStampOrder` | internal/registry/schema.go:32-33 | a millisecond stamp sorts before a whole-second one exactly when its second is not later |
| `Clock.SqlStampBack` | internal/registry/schema.go:32-33 | a database stamp reads back as the date and time of its second and its millisecond |
| `Clock.ExpiresAtFor` | internal/engine/engine.go:134-145 | the default applies to requests without a lifetime, the cap to all, and no stamp means no expiry |
| `Clock.ExpiryListing` | internal/registry/registry.go:572-576 | a branch is never listed before its expiry and always from one second after |
| `Clock.StuckListing` | internal/engine/reconcile.go:75-79 | every row at least the timeout old is flagged, no row younger than the timeout less one second |
| `Clock.StuckEarly` | internal/registry/registry.go:584-600 | a row younger than the timeout can be flagged |
| `Sample.SampleTable` | internal/engine/diff.go:187-206 | the sample is the branch's first n rows without those whose join key, with whole numbers rounded as 64-bit floats are, the base sent; the cap never cuts it |
| `Sample.BoundedSample` | internal/engine/diff.go:166-209 | if the branch holds every base key, the sample is exactly those of its first n rows that the whole base lacks if and only if no new row among them has the join key of one of the base's first n |
| `Sample.SampleRightIff` | internal/engine/diff.go:166-209 | for any keys and any deletions the sample is right if and only if no sampled row is missed and none mistaken; Sample.SampleRightByCount and Sample.BoundedSample say when that is |
| `Sample.RankExact` | internal/engine/diff.go:166-209 | a shared row stands in the base where it stands in the branch, less the branch's own rows below it, plus the base's deleted rows below it |
| `Sample.MissedByCount` | internal/engine/diff.go:187-206 | where nothing looks alike, a shared sampled row is taken for new if and only if that count reaches n |
| `Sample.SampleRightByCount` | internal/engine/diff.go:166-209 | where nothing looks alike, and whatever was deleted, the sample is right if and only if that count stays below n for every shared sampled row |
| `Sample.SmallKeysExact` | internal/engine/diff.go:166-209 | with whole-number keys up to 2^53 and every base key still in the branch the sample is exact |
| `Sample.FloatThreshold` | internal/engine/diff.go:253-269 | whole numbers up to b keep apart as join keys if and only if b is at most 2^53 |
| `Sample.LookAlikeHides` | internal/engine/diff.go:187-206 | a concrete new row that is hidden by a base row with the same join key |
| `Sample.DeletionMisleads` | internal/engine/diff.go:187-206 | a concrete deletion that makes an old row look new |
| `Sample.HostKeyExact` | internal/engine/diff.go:262-269 | join keys are faithful for whole numbers up to 2^53 |
| `Sample.FloatCollides` | internal/engine/diff.go:253-269 | beyond that two different keys can have the same join key |

## Left out

- Registry.Registry.CommitFreeze: without the host and port columns.
- Registry.Registry.CreateBranch: the row and its entry are one step here; that they are two statements is the subject of `Transitions`.
- Registry.Registry.LayerChain: asks that the walk end, because on circular links the code's loop does not.
- Cow.BranchMounts: asks for a plan as `Cow.PlanBranch` makes it; the joining of the directories with colons is not modelled.
- Sources.RemoveSource: the defensive reference counts are left out because `Sources.SourceLayersUnreferenced` shows they never refuse.
- Saga.AwaitAndMark: masking and password scripts are arbitrary writes into the branch's own volume, of which only their completion is recorded; whether a source has scripts is fixed when it is added.
- Reconcile.PlanReconcile: times are whole seconds; `Reconcile.ExpiredAsListed` and `Reconcile.StuckAsListed` tie them to the texts that are compared.
- Freeze.FreezeAndProvision: a saga takes no time on the registry's clock, so that its touches keep a slow freeze from looking stuck is not shown, only that they are made.
- Branching.DiffBranch: a dump is some function of the tree an instance serves; how the dump's noise is stripped and the table deltas are not modelled.
- Runs.Run: a command that breaks the name rule is skipped; guest writes happen between commands, not inside a saga.
- Runs.CrashRunInvariant: a crash in the gap of a source's removal is not a step of these runs; `Recovery.Recover` takes it from there.
- Transitions.JournalLegal: rows are never deleted; the deletion of a source's tombstones is not part of this state machine.
- Limits.LeftoverBreaksFreeze: starting a container writes nothing into its volume in this model, while postgres does write when it starts; so the non-empty leftover of this state is one the code produces, and no run of the model is shown to reach it.
- Csi.CsiEngine.Provision: the invariant of the csi backend covers this saga and branch-from-branch; its other operations are not modelled.
- Sample.SampleTable: one table; which tables are sampled, the query text and the JSON text of a key are not modelled, and fractional keys and numbers too large for a float, which fail to decode, are left out.
- Shell.ShellJoin: the tokenizer answers "no words" for any unquoted character that a shell treats specially instead of modelling expansions, operators and reserved words.
- Registry write failures: every statement that is not refused by a key succeeds.
- The driver: a failed create or remove has no effect, a failed stop leaves the container's fate open, creating an existing volume keeps its content, container ids are not reused; Docker, Kubernetes and ZFS themselves are not modelled.
- Opaque directories and renames of OverlayFS; a layer is a map from paths to files and whiteouts.
- Hosts, ports, passwords, and the instance label that separates registries sharing a daemon.
- The ZFS backend, the mask-script setter, table deltas and row estimates, and the random suffix of a diff's throwaway (a parameter).
- Overlapping engine operations, rows left in destroying, and the quota under concurrent creates.
- REST handlers, clients, the proxy, the web UI, metrics, webhooks, leader election, encryption at rest: input and output around the engine.
