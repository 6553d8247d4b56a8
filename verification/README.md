# Workflow builder: a verified model

The repository's design prototype lets people build workflows (a trigger and a tree of nodes with
branches, loops and error lists), debug and run them, publish and roll back versions, map data
between systems, mask what is shown, and administer who owns what. This project models that logic
in Dafny and proves what it promises. To verify it: `dafny verify dfyconfig.toml`.

| module | models |
|---|---|
| `Helpers` | small functions that several modules share |
| `Workflow`, `TreeEdits` | the workflow tree, finding, locating, inserting and removing nodes |
| `Scope`, `References` | which nodes a node may reference, and the check of its references |
| `RunPath`, `PathChoices` | the path a run takes, and what it shows, told without following the code |
| `RunTrace`, `TraceReads` | the trace that replays a run, and what it tells its reader |
| `DebugRun` | debug runs and their replay |
| `Clone`, `Paste` | copying nodes under new names and pasting them anywhere |
| `Numbering` | the stable numbers (refs) of nodes |
| `Editor` | drafts, undo and redo, publishing, promoting and rolling back |
| `Cron` | the preview of a schedule |
| `Shares`, `Ownership` | percentage shares, transfer of resources and removal of users |
| `Mapping`, `Masking` | evaluating a field mapping, masking recorded data |
| `BranchPanel` | editing the branches of a node |
| `Issues` | grouping failed runs into issues |

The results that span modules:

* **Scope soundness.** The static check (`Scope`, `References`) and the runner (`RunPath`,
  `RunTrace`) never look at each other in the source. `RunTrace.CheckedReferencesResolve` links
  them: whatever branches are drawn, decided or forced, a reference that passed the check is
  resolved when its step is executed, except in four cases, each of which can be seen from the
  reference and the run alone, and each of which is shown to occur. `TraceReads.TraceReadsAll` says
  what each reference becomes: one to a node reads the output that this very trace shows for that
  node in an earlier step.
* **The path taken.** `PathChoices` pins the path without its code: which branch each exclusive node
  shows, which lists are entered, in what order the nodes come and how often loops run.
  `DebugRun.DebugPathDecides` carries this to payloads, `TraceReads.TraceShowsPicks` to recorded runs.
* **Faithful replay.** A debug run is replayed from its recorded picks alone.
  `DebugRun.ReplayIsFaithful` says exactly when the replay must take the same path, and
  `BranchPanel.AlwaysDecided` shows that nodes edited in the panel always meet that condition.
* **Where a failure is shown.** `RunTrace.FailureShownAtNode` says exactly when a trace shows a
  failure at the node that failed, and `DebugRun.DebugFailureShown` what that means for debug runs.
* **Meaning of copies.** `Paste.PasteKeepsMeaning` follows a reference through cloning, renaming,
  insertion and scoping; `Paste.PastedLoopReference` does so for the loop variable,
  `Paste.ReuseKeepsMeaning` for a node that is cut and pasted back; `Paste.PasteKeepsNumbers` adds
  the numbering.
* **Whole runs.** `Editor.RunKeeps`, `Ownership.RunKeeps` and `BranchPanel.RunKeeps` hold for every
  sequence of operations.

How things are represented: a node carries its child lists as one sequence (branches or the loop
body, then the error list), which is the view that `childLists` gives; a text with references is a
sequence of tokens; a ref is a prefix and a number; `uid` is any supply of names that are not in
use; the random stream is any sequence of draws, each of which selects an index; comparing JSON text
is structural equality; times are minutes or milliseconds as integers. A store update is one step.
Well-formed means: ids are unique, the list keys of a node are distinct and none is `root`, branch
nodes have a branch and loops a body.

Where the code does not do what its texts suggest, the model follows the code:

* The check accepts references that the runner leaves as text: the word `trigger` in a run without a
  payload, the word `loop` in a loop, a variable that the run does not have (the check only warns,
  and looks at the first part of the path where the runner looks at all of it), and forms such as a
  bare node id without a path (`RunTrace.CheckedReferencesResolve`, with an example of each in
  `RunTrace.TriggerWordUnresolved`, `RunTrace.LoopWordUnresolved`, `RunTrace.VariableUnresolved` and
  `RunTrace.NoPathUnresolved`).
* The failure of a trigger, or of a node in an error list, is shown at the first step instead: the
  failing position is at least one (`RunTrace.FailureShownAtNode`, `RunTrace.TriggerFailureMisplaced`).
  A debug run of a workflow whose trigger has a broken connection always does this
  (`DebugRun.BrokenTriggerMisplaced`).
* Pasting back a cut node looks only at the id of the node itself, so it can put an id into the
  workflow twice (`TreeEdits.ReuseIsSafe`, `TreeEdits.ReuseCanBreak`).
* Without a default branch a debug run takes the first branch, records nothing, and its replay may
  take another branch (`DebugRun.UndecidedReplayDiffers`).
* Required fields inside list items are not reported as missing (`Mapping.MissingItemFieldUnreported`),
  and the message for a per-item source that is not a list can never appear (`Mapping.NotAListIsNoError`).
* A schedule needs day of month and weekday to match, and its limit counts steps of the scan, not
  minutes, so it looks at least as far as the limit says (`Cron.Preview`).
* Removing a user without naming another recipient leaves the resources with the removed user
  (`Ownership.RemovedIsGone`, `Ownership.RemovalLeavesOwner`).

## Model

| member | source | states |
|---|---|---|
| `Workflow.FindNode` | design/scripts/domain.js:209-213 | a node is found if and only if its id is in the tree, and it has that id |
| `TreeEdits.RemoveInserted` | design/scripts/domain.js:219-239 | removing a node that was just inserted, at any target and in any nesting, restores the tree |
| `TreeEdits.LocateInserted` | design/scripts/domain.js:219-235 | a node that was just inserted is located at its target with the index clipped to the list, and nowhere if there is no such list |
| `TreeEdits.ReinsertRemoved` | design/scripts/domain.js:219-239 | removing a node and inserting it where it was located restores the tree |
| `TreeEdits.WellFormedAfterInsert` | design/scripts/domain.js:219-223 | inserting a well-formed tree of new ids keeps a workflow well formed, whatever the target |
| `TreeEdits.WellFormedAfterRemove` | design/scripts/domain.js:237-239 | removing any id keeps a workflow well formed |
| `TreeEdits.ReuseIsSafe` | design/scripts/builder.js:298-309 | a node pasted under its own ids into a list that exists keeps the workflow well formed if and only if no id in its whole tree is in use |
| `TreeEdits.ReuseCanBreak` | design/scripts/builder.js:298 | a cut node whose own id is free, as the page checks, and whose paste puts another id into the workflow twice |
| `Scope.VisitSteps` | design/scripts/domain.js:252-264 | the traversal with its running list of earlier nodes computes the recursive specification |
| `Scope.ContextOf` | design/scripts/domain.js:252-269 | looking a node up in the table gives the one entry the traversal made for it |
| `Scope.UpstreamIsTheRule` | design/scripts/shell.js:391 | a node is upstream of another exactly when the documented rule says so: earlier in the same list or in an enclosing one, or enclosing it; never in a sibling branch, never inside a finished branch or loop |
| `Scope.ScopeRule` | design/scripts/domain.js:252-261 | the same for every list of nodes and every starting scope |
| `Scope.DeletedFromScope` | design/scripts/domain.js:237-264 | deleting a node takes exactly its id out of the scope of every node that stays, in order, and leaves the loops around it |
| `Scope.InsertedIntoScope` | design/scripts/domain.js:219-264 | inserting a tree of new ids at any target adds at most its root to the scope of an existing node, loses nothing, and leaves the loops around it |
| `References.ReferenceIssues` | design/scripts/domain.js:483-498 | errors name exactly the references that are not allowed, each once; no error if and only if all references are allowed; a warning exactly for the variables that are not known |
| `References.OwnRefsAre` | design/scripts/domain.js:300-302 | the references that are checked are those in the node's settings and those in the conditions of its branches, and no others |
| `References.DeleteBreaksOnlyItsReferences` | design/scripts/domain.js:237-264 | after a deletion a node that stays has the same references, and passes the check if and only if it passed before and none of them names the deleted node |
| `References.InsertBreaksNothing` | design/scripts/domain.js:219-264 | after an insertion every node has the same references, and passes the check if it passed before |
| `RunPath.ScopeOnPath` | design/scripts/data.js:1003-1019 | whatever is drawn, decided or forced, a node on the path comes after everything in its static scope |
| `RunPath.PathDistinct` | design/scripts/data.js:1003-1019 | no node is on a path twice |
| `RunPath.PathReachable` | design/scripts/data.js:1003-1019 | a path never enters an error list |
| `RunPath.ForcedOnPath` | design/scripts/data.js:1003-1019 | a node that has to be on the path is on it, for every stream of draws, if it lies outside all error lists |
| `RunPath.ForcedExactly` | design/scripts/data.js:1003-1019 | forcing a node works if and only if it lies outside all error lists, and puts it on the path once |
| `PathChoices.PathShows` | design/scripts/data.js:1005-1017 | every exclusive node on a path shows the first branch that holds the forced node, else the branch that was decided, else one that is drawn; a parallel node shows all its branches, other nodes none |
| `PathChoices.PathFollows` | design/scripts/data.js:1003-1019 | below every node on a path, the nodes of a list are on the path if and only if its branch is shown or it is a loop body; all nodes of the outermost list are on it |
| `PathChoices.PathInOrder` | design/scripts/data.js:1003-1019 | the nodes of a path come in the order in which they stand in the tree |
| `PathChoices.PathRounds` | design/scripts/data.js:1013-1016 | a step shows the number of rounds of the outermost loop that is or encloses its node, and none outside loops |
| `RunTrace.Replay` | design/scripts/data.js:1118-1138 | the loop over outputs, offsets and statuses gives each step its status, start time, duration, input, output and error code, from what was recorded before it; the `TraceReads` rows say what these are |
| `RunTrace.BuildRunTrace` | design/scripts/data.js:1098-1139 | the trace has one entry per step of the path; for a run dropped as a duplicate it is the one entry of the trigger, given in full |
| `RunTrace.UpstreamEarlier` | design/scripts/data.js:1105-1107 | whatever a node may reference stands strictly before it on the path of the run |
| `RunTrace.UpstreamRecorded` | design/scripts/data.js:1118-1133 | when a step is neither skipped nor pending, every node in its static scope stands before it on the path, and the output it gave there is what is on record |
| `RunTrace.CheckedReferencesResolve` | design/scripts/data.js:1053-1065 | any reference that passes the check stays unresolved if and only if the runner does not read its form, or it is the word `loop`, the word `trigger` in a run without a payload, or a variable that the run does not have |
| `RunTrace.TriggerWordUnresolved` | design/scripts/data.js:1057 | a step that passes the check and keeps an unresolved `trigger` reference |
| `RunTrace.LoopWordUnresolved` | design/scripts/data.js:1057 | a step in a loop that passes the check and keeps an unresolved `loop` reference |
| `RunTrace.VariableUnresolved` | design/scripts/data.js:1056 | a step that passes the check and keeps an unresolved variable |
| `RunTrace.NoPathUnresolved` | design/scripts/data.js:1055 | a step that passes the check and keeps a reference without a path |
| `RunTrace.TraceShape` | design/scripts/data.js:1108-1129 | every trace reads: reused, successful, at most one step where the run ended or holds, then only skipped or only pending |
| `RunTrace.FailureShown` | design/scripts/data.js:1108-1127 | a failed run shows a failure if and only if the failing position is on the path and not before the restart, and never two |
| `RunTrace.FailureShownAtNode` | design/scripts/data.js:1105-1127 | the failure is shown at the failed node if and only if that node lies outside all error lists (so it is not the trigger) and the restart is not behind it; the failure of the trigger or of a node in an error list is marked at the first step |
| `RunTrace.TriggerFailureMisplaced` | design/scripts/data.js:1109 | a run whose failed trigger is shown as successful and the action after it as failed |
| `TraceReads.TraceShowsPicks` | design/scripts/data.js:1105-1107 | an exclusive node in a trace shows the branch that the record names, unless another one holds the node that has to be shown |
| `TraceReads.TraceReadsAll` | design/scripts/data.js:1053-1065 | in an executed step that passes the check every token becomes: text itself; a variable its value; `trigger` the payload; a node what the trace shows as that node's output in an earlier step; and only the four kinds of exceptions stay as they are |
| `TraceReads.TriggerShowsPayload` | design/scripts/data.js:1130-1132 | the trigger's input and output are the payload, if there is one |
| `TraceReads.NodeShowsOutput` | design/scripts/data.js:1131-1133 | an exclusive node puts out the name of the branch taken, any other its sample, and a step has an output if and only if it succeeded or was reused |
| `TraceReads.ReusedExactly` | design/scripts/data.js:1115-1125 | the reused steps are exactly those before the start node |
| `TraceReads.StandsAtPending` | design/scripts/data.js:1111-1129 | a run that waits at a node outside error lists stands there: executed before, its status there, pending after |
| `TraceReads.StandsAtRecorded` | design/scripts/data.js:1112-1129 | otherwise it stands at the recorded step or in the middle, after the trigger and on the path |
| `TraceReads.EndsAsItDid` | design/scripts/data.js:1124-1136 | a successful run shows success and reuse only; a failure has its own status and the recorded code, or else the usual one |
| `TraceReads.TraceTimes` | design/scripts/data.js:1119-1137 | the first step starts with the run and each next one when the one before is over; which durations are shown |
| `TraceReads.GapIsDuration` | design/scripts/data.js:1121-1123 | each step starts when the one before is over |
| `TraceReads.TimesAreDrawn` | design/scripts/data.js:1121 | the durations are drawn, after the draws for the path; the trigger takes no time |
| `TraceReads.OneDrawEach` | design/scripts/data.js:1121 | behind the trigger, each step draws once, one after the other |
| `DebugRun.FirstSatisfied` | design/scripts/data.js:1047-1049 | the first ordinary branch whose conditions hold, none before it, and none at all if there is no result |
| `DebugRun.FirstDefault` | design/scripts/data.js:1049 | a default branch if and only if there is one |
| `DebugRun.RecordPicks` | design/scripts/builder.js:24-29 | the record holds the decided branch of each exclusive node on the path |
| `DebugRun.FindFailure` | design/scripts/builder.js:30-45 | the first node on the path with a broken connection, else the first action on it that cannot be mapped, each with its code, else nothing because there is neither |
| `DebugRun.MakeDebugRun` | design/scripts/builder.js:12-49 | the path shows the branches the payload decides on; the run has the picks of that path, the failed node and its code, the status that follows, and the duration of its trace, which is the one `buildRunTrace` gives |
| `DebugRun.DebugPathDecides` | design/scripts/builder.js:23-29 | every exclusive node on the path of a debug run shows the first ordinary branch whose conditions hold, else the first default, else its first branch |
| `DebugRun.DebugFailureShown` | design/scripts/builder.js:30-47 | the trace of a debug run shows the failure at its failed node if and only if that node is not the trigger, for every draw |
| `DebugRun.BrokenTriggerMisplaced` | design/scripts/builder.js:30-43 | a trigger with a broken connection always is the failed node, and its failure is never shown at the trigger |
| `DebugRun.ErrorsOffPath` | design/scripts/builder.js:15-33 | leaving out nodes under error lists when looking for the failed node loses none, as no path has one |
| `DebugRun.ReplayIsFaithful` | design/scripts/data.js:1105-1107 | for every workflow and payload, every replay takes the debug run's path if and only if each exclusive node on it was decided, has one branch, or has the failed node in its first branch |
| `DebugRun.DebugTraceFaithful` | design/scripts/builder.js:22-47 | with default branches, the trace of a debug run shows the path of the debug run, with the branches the payload decides on, for every draw |
| `DebugRun.UndecidedReplayDiffers` | design/scripts/data.js:1010 | a workflow without a default branch for which some replay takes another path |
| `Clone.Copier.Clone` | design/scripts/domain.js:304-314 | copying node by node while filling the id map, then remapping, computes the specified clone and map |
| `Clone.CloneIsRenaming` | design/scripts/domain.js:280-314 | the clone is well formed, its node and branch ids are unused names, it is the original under an injective renaming defined on exactly its ids, without refs, and references follow the renaming |
| `Paste.PastedUpstream` | design/scripts/domain.js:219-264 | the scope and the loops of a pasted node are those of the position followed by the renamed ones of its original inside the clip |
| `Paste.PasteKeepsMeaning` | design/scripts/builder.js:295-311 | a reference between copied nodes names the copy and is in scope exactly when the original was; any other is unchanged and in scope exactly when its node is upstream of the target |
| `Paste.PastedLoopReference` | design/scripts/domain.js:280-314 | a reference to the loop variable is unchanged and allowed if and only if a loop around the original was copied along or the target lies in a loop |
| `Paste.ReuseKeepsMeaning` | design/scripts/builder.js:298-309 | for a cut node pasted back under ids that are not in use: references between its nodes are in scope exactly when they were, others exactly when their node is upstream of the target, and the loop variable as for a copy |
| `Paste.PasteNextTo` | design/scripts/builder.js:306-308 | pasting above a node gives the scope and loops of that node, pasting below adds the node, pasting on the trigger gives the trigger's |
| `Paste.PasteKeepsNumbers` | design/scripts/builder.js:309 | pasting a clone and numbering the result leaves the number of every other node |
| `Numbering.Numberer.FixRef` | design/scripts/domain.js:188-197 | one call advances the counters and the set of refs seen as specified |
| `Numbering.Number` | design/scripts/domain.js:181-199 | the traversal that updates counters and seen refs computes the specified numbering |
| `Numbering.NumberingIsStable` | design/scripts/domain.js:169-199 | nodes keep their order and everything but the ref; refs have the node's own prefix, are pairwise distinct, and a ref is kept if and only if its node is the first to hold it validly |
| `Numbering.NumberingKeepsTheRest` | design/scripts/domain.js:181-199 | numbering changes nothing in the whole workflow but refs |
| `Numbering.NewNumbersFollow` | design/scripts/domain.js:182-194 | a node that gets another ref gets one more than the largest number in use for its prefix and than those given to nodes before it |
| `Numbering.KeptByFirstHolder` | design/scripts/domain.js:189-195 | the same for any point of the traversal |
| `Numbering.NumberedIsFixpoint` | design/scripts/domain.js:181-199 | numbering changes nothing if and only if all refs are valid and distinct |
| `Numbering.NumberingIsIdempotent` | design/scripts/domain.js:181-199 | numbering twice is numbering once |
| `Numbering.DeleteKeepsNumbers` | design/scripts/domain.js:181-199 | deleting a node renumbers no survivor |
| `Numbering.InsertKeepsNumbers` | design/scripts/domain.js:181-199 | inserting nodes without refs at any target renumbers none of the others |
| `Numbering.WellFormedAfterNumbering` | design/scripts/domain.js:161-199 | numbering keeps a workflow well formed |
| `Editor.NextVersion` | design/scripts/domain.js:698-704 | larger than every version deployed or on record for the workflow, by one, and 1 if there is none |
| `Editor.Page.CommitDraft` | design/scripts/builder.js:186-203 | the whole new state of the page: history noted or merged, refs given, marker recomputed |
| `Editor.Page.UndoDraft` | design/scripts/builder.js:205-215 | the whole new state after an undo, with nothing to undo included |
| `Editor.Page.RedoDraft` | design/scripts/builder.js:216-222 | the whole new state after a redo, with nothing to redo included |
| `Editor.Page.PublishFlow` | design/scripts/builder.js:1189-1200 | the whole new state after publishing, with one environment or two |
| `Editor.Page.RollbackFlow` | design/scripts/builder.js:1246-1268 | the whole new state after a rollback |
| `Editor.Page.PromoteFlow` | design/scripts/pages/release.js:224-233 | the whole new state after a promotion |
| `Editor.Page.Perform` | design/scripts/builder.js:186-222 | whatever is done on the running page, the new state is the specified one and keeps the invariant |
| `Editor.CommitTakes` | design/scripts/builder.js:186-203 | after a commit the draft is the edited graph but for refs, and is the edited graph itself if that is numbered; a commit of its own keeps the old draft as the next to be undone, behind it the last forty, and leaves nothing to redo; a merged one leaves the history; nothing else changes |
| `Editor.UndoTakes` | design/scripts/builder.js:205-215 | undo makes the last draft of the past the draft and keeps the old one first for redo; nothing else changes |
| `Editor.RedoTakes` | design/scripts/builder.js:216-222 | redo makes the first draft of the future the draft and keeps the old one last for undo; nothing else changes |
| `Editor.CommitThenUndo` | design/scripts/builder.js:186-222 | a commit of its own is taken back by one undo and brought back by one redo |
| `Editor.CreateStarts` | design/scripts/domain.js:620-629 | a new workflow is the given graph but for refs, unpublished and disabled; nothing else changes |
| `Editor.RollbackNotes` | design/scripts/builder.js:1266 | a rollback puts one record in front, with the old content, the version it goes back to and its environments |
| `Editor.RollbackLeaves` | design/scripts/builder.js:1267 | a rollback withdraws no release of another workflow and none that was decided |
| `Editor.PublishNotes` | design/scripts/builder.js:1199 | a publication puts one record in front, with the draft, for the first environment |
| `Editor.OthersStay` | design/scripts/builder.js:195-199 | no step touches the record of any workflow but the one that it is about |
| `Editor.StepKeeps` | design/scripts/builder.js:186-222 | every step keeps the invariant |
| `Editor.StepExtends` | design/scripts/builder.js:1199 | every step only puts versions in front of the history, and changes nothing in it but the environments of a promoted version |
| `Editor.RunKeeps` | design/README.md:97 | over every run: version numbers strictly decrease in list order, deployed versions are on record with their environment, no record is dropped or changed but for environments, the marker is exact, all kept graphs are well formed and numbered, past and future hold at most 41 graphs |
| `Editor.EveryRunKeeps` | design/README.md:97 | every run from the empty store satisfies the invariant |
| `Editor.CommitKeeps` | design/scripts/builder.js:189-191 | every commit, merged or not, leaves nothing to redo |
| `Editor.PublishDeploys` | design/scripts/builder.js:1191-1200 | the draft is deployed under a number larger than all before, with its own record; draft, other environment and releases stay |
| `Editor.RollbackDeploys` | design/scripts/builder.js:1262-1268 | the old content is draft and deployed content under a new number in every environment, and no release of the workflow stays pending |
| `Editor.MarkerIsExact` | design/README.md:91 | after every run the marker of unpublished changes is off if and only if the deployed version's snapshot is the draft |
| `Editor.UndoKeepsTimeline` | design/scripts/builder.js:209-215 | undo leaves past, current and future, taken together, as they are |
| `Editor.RedoKeepsTimeline` | design/scripts/builder.js:216-222 | so does redo |
| `Editor.UndoThenRedo` | design/scripts/builder.js:205-222 | undo and redo restore everything but the memory of the last commit |
| `Editor.RedoThenUndo` | design/scripts/builder.js:205-222 | redo and undo do too |
| `Editor.PromoteKeeps` | design/scripts/pages/release.js:224-233 | promoting a version on record to production keeps the invariant |
| `Editor.PromoteDeploys` | design/scripts/pages/release.js:224-233 | it deploys that version, notes production on its record, and leaves the draft and the test environment |
| `Editor.PromoteNotes` | design/scripts/pages/release.js:231 | every other version on record stays as it is, and none is added |
| `Editor.PromoteCloses` | design/scripts/pages/release.js:232 | the release is carried out and every other release stays as it is |
| `Editor.CreateKeeps` | design/scripts/domain.js:620-629 | creating a workflow keeps the invariant |
| `Cron.Collect` | design/scripts/domain.js:531 | the loop adds exactly the values from a bound to a bound at a stride |
| `Cron.PartMeans` | design/scripts/domain.js:526-531 | by cases, when a part `*`, `n`, `a-b`, with or without a step, is accepted and which values it allows |
| `Cron.ParseField` | design/scripts/domain.js:523-535 | a field is accepted if and only if each part is; it then allows exactly the values of its parts, at least one, all in range |
| `Cron.SkipIsSafe` | design/scripts/domain.js:545 | jumping to the next hour skips no minute that is due |
| `Cron.Preview` | design/scripts/domain.js:539-548 | the scan with jumps finds exactly what the minute-by-minute scan finds up to where it stops: five runs, or at least 576000 minutes |
| `Cron.DueInFinds` | design/scripts/domain.js:544 | the minute-by-minute scan finds a minute if and only if it is due and in the stretch |
| `Cron.DueInOrder` | design/scripts/domain.js:544 | in strictly increasing order |
| `Cron.PreviewIsComplete` | design/scripts/domain.js:543-548 | no due minute before the last run is left out, and with fewer than five runs none before the limit |
| `Cron.CronPreview` | design/scripts/domain.js:519-549 | an expression is accepted if and only if it has five fields and each is accepted; the runs are then the first five due minutes after now, in order, or all that are due within 576000 minutes |
| `Shares.SharesAddUp` | design/scripts/pages/admin.js:90-98 | for any values with a positive total the shares add up to exactly 1000 tenths of a percent |
| `Shares.SharesAreClose` | design/scripts/pages/admin.js:93-97 | each share differs from its exact quota by less than one tenth of a percent |
| `Shares.SharesAreMonotone` | design/scripts/pages/admin.js:90-98 | a larger value never gets a smaller share |
| `Shares.OrderIsSorted` | design/scripts/pages/admin.js:96 | the order is by falling remainder, equal ones in their original order, and without repetition |
| `Shares.FirstHaveRemainders` | design/scripts/pages/admin.js:95-97 | whoever gets one tenth more has a remainder |
| `Shares.NothingToShare` | design/scripts/pages/admin.js:92 | with a total of zero every share is zero |
| `Ownership.TransferKeeps` | design/scripts/pages/admin.js:136-161 | any transfer keeps memberships unique, one owner-role member per project equal to its owner, and connections not shared with their owner |
| `Ownership.TransferMoves` | design/scripts/pages/admin.js:136-158 | a transfer gives exactly the named resources to the recipient, in place, and leaves every other as it was |
| `Ownership.TransferPeople` | design/scripts/pages/admin.js:153-157 | the new owner drops out of the shares of a connection or joins the developers of a connector; all other people stay |
| `Ownership.TransferMembers` | design/scripts/pages/admin.js:142-159 | in a transferred project the new owner has the owner role, the old one becomes an editor, all others keep their roles; nobody joins but the new owner where needed |
| `Ownership.RemovedIsGone` | design/scripts/pages/admin.js:163-178 | a removed user is no owner, member, share or connector developer any more if and only if nothing was owned or another recipient was named |
| `Ownership.RemovalLeavesUsers` | design/scripts/pages/admin.js:170-176 | users, pending requests and receivers lose the removed user and nobody else, in order; the contact stays unless it was that user |
| `Ownership.RemovalLeavesResources` | design/scripts/pages/admin.js:164-173 | every resource stays in its place; what was owned goes to the recipient; connections and connectors keep all other people, up to the hand-over |
| `Ownership.RemovalLeavesMembers` | design/scripts/pages/admin.js:164-171 | the members afterwards are exactly those before but the removed user, with their roles, but for the recipient, who is the owner of what was handed over |
| `Ownership.RemovalLeavesOwner` | design/scripts/pages/admin.js:163-178 | a user removed without a recipient who still owns a workflow |
| `Ownership.RemovalKeeps` | design/scripts/pages/admin.js:163-178 | such a removal keeps the invariant |
| `Ownership.RunKeeps` | design/scripts/pages/admin.js:132-178 | so does any sequence of transfers and such removals, and no resource is lost |
| `Mapping.RunTransforms` | design/scripts/domain.js:1002-1006 | the value went through the transforms one after the other, each applied to what the one before gave, to the last or to the first that failed, with that one's value and error |
| `Mapping.OutcomeIsOne` | design/scripts/domain.js:1002-1006 | there is exactly one such outcome, and it is the one that evaluation uses |
| `Mapping.NoErrorMeansAllApplied` | design/scripts/domain.js:1005 | there is no error if and only if all transforms were applied and none failed |
| `Mapping.RowGoesThrough` | design/scripts/domain.js:994-1008 | a row goes from its source, or else its constant, through its transforms; its error is theirs or that of the check |
| `Mapping.LastRowWins` | design/scripts/domain.js:1011-1013 | under a key stands the value of the last row with that target |
| `Mapping.CheckMeans` | design/scripts/domain.js:981-988 | kind by kind, what passes the check of a field |
| `Mapping.RequiredFieldPresent` | design/scripts/domain.js:1011-1013 | with no row error and nothing missing, every required field is present, not empty, and passes its check |
| `Mapping.MappedFieldPasses` | design/scripts/domain.js:981-1013 | with no row error, the value under every schema key passes that field's check, with duplicate targets too |
| `Mapping.KeysAreTargets` | design/scripts/domain.js:1011-1013 | the result has exactly the non-empty targets as keys |
| `Mapping.ItemFields` | design/scripts/domain.js:996-1000 | a per-item row without an error gives one object per item, whose fields are exactly the mapped ones, each passing its check |
| `Mapping.ItemRowGoesThrough` | design/scripts/domain.js:997-999 | a row for the items of a list reads the item under the word `item` and everything else as outside, and goes through its own transforms |
| `Mapping.ItemErrors` | design/scripts/domain.js:998-1008 | a per-item row fails if and only if a row of some item fails or the list fails its check |
| `Mapping.MissingItemFieldUnreported` | design/scripts/domain.js:998-1000 | a mapping that reports nothing while the required field of an item is absent |
| `Mapping.NotAListIsNoError` | design/scripts/domain.js:997-1000 | a per-item source that is not a list gives an empty list and no error |
| `Masking.Masker.Mask` | design/scripts/domain.js:855-877 | the walk that updates the count computes the specified value and count |
| `Masking.ShownAlike` | design/scripts/domain.js:860-869 | values that differ only in leaves under `all` or a matching field rule are masked identically |
| `Masking.MaskedLeaves` | design/scripts/domain.js:859-876 | masking keeps the shape and counts no more than the leaves; where it is forced every leaf becomes the same constant and each is counted |
| `Masking.MaskedSpots` | design/scripts/domain.js:855-877 | leaf by leaf, with the keys that lead to it: under `all` or below a matching key it becomes the constant, elsewhere what the detectors make of it, and the count is the number of leaves hidden |
| `BranchPanel.MoveBranch` | design/scripts/builder-panel.js:947-951 | two neighbours change places and every other branch stays where it is |
| `BranchPanel.AddDoes` | design/scripts/builder-panel.js:987-991 | a new branch is empty and comes before the default, or last on a parallel node; all others stay |
| `BranchPanel.RemoveDoes` | design/scripts/builder-panel.js:952-956 | removing takes out that one branch and leaves the others in order |
| `BranchPanel.DemotedDoes` | design/scripts/builder-panel.js:940 | making a node parallel leaves every branch in its place with its name and steps, and notes the default |
| `BranchPanel.ExclusiveDoes` | design/scripts/builder-panel.js:943-945 | making a node exclusive puts the former default, or a new empty one, at the end and keeps the others in order |
| `BranchPanel.ApplyKeeps` | design/scripts/builder-panel.js:933-991 | each active operation keeps an exclusive node with one default, last, and another branch, and a parallel node with two branches and no default |
| `BranchPanel.RunKeeps` | design/scripts/builder-panel.js:927-993 | so does every sequence of them |
| `BranchPanel.NewNodeOk` | design/scripts/builder-flow.js:564-569 | a new branch node is of that form |
| `BranchPanel.ThereAndBack` | design/scripts/builder-panel.js:935-946 | switching an exclusive node to parallel and back restores it |
| `BranchPanel.AlwaysDecided` | design/scripts/data.js:1047-1049 | however the panel was used, every payload decides an exclusive node |
| `Issues.IssuesAreSelections` | design/scripts/domain.js:746-782 | the issues are exactly those of the signatures that occur, each made from the failed runs with that signature |
| `Issues.ExactlyOneIssue` | design/scripts/domain.js:752-758 | every failed or timed-out run with a recorded failure lands in exactly one issue |
| `Issues.RunInIssue` | design/scripts/domain.js:746-758 | a run is in an issue if and only if it failed with the signature of the issue |
| `Issues.SignatureMeans` | design/scripts/domain.js:746-750 | failures to authenticate share an issue if and only if they concern the same connection; others do if workflow, node and code are the same |
| `Issues.IssuesPartition` | design/scripts/domain.js:752-760 | all issues together hold exactly those runs, with their multiplicity, so the sizes add up |
| `Issues.TimesBound` | design/scripts/domain.js:760-776 | the first and the last time bound the start times of the group and are taken |
| `Issues.ReopenedExactly` | design/scripts/domain.js:762-768 | an issue is reopened if and only if it was resolved and a run with its signature started later; otherwise it has the recorded status |
| `Issues.LatestFirst` | design/scripts/domain.js:781 | issues come in the order of their last time, latest first |
| `Issues.OtherIssuesUnchanged` | design/scripts/domain.js:746-782 | one more run, wherever in the list, changes no issue but that of its own signature |

## Left out

- Numbering.NumberingIsStable: refs are pairs of prefix and number, so texts that are not in the usual form, such as a number with a leading zero, are not told apart from it.
- RunTrace.CheckedReferencesResolve: says which output and which path in it a reference reads, not whether there is a value at that path, as sample outputs are uninterpreted. It assumes that no node has the id `loop`; ids are generated and never are words.
- RunTrace.Replay: the input of a node that holds a mapping and the texts of error messages are not modelled; the sample output of a node, adapted to the payload, is uninterpreted.
- DebugRun.MakeDebugRun: whether a condition holds, a connection is broken or data cannot be mapped are parameters; the choice of the environment and the texts of failures are not modelled.
- Clone.CloneIsRenaming: names come from any supply of unused names rather than from `uid` itself.
- Paste.PasteKeepsMeaning: clearing connections that the other project cannot use is not modelled.
- Editor.Page.RollbackFlow: reads the version number and acts in one step, where the page waits for a confirmation in between.
- Editor.RunKeeps: the mode of a project, one environment or two, is fixed for the run; times, authors, notes and the status of the test deployment are not part of the state.
- Editor.PromoteKeeps: who may approve, the checks before a promotion, and rejecting or withdrawing a request are not modelled.
- Cron.Preview: each hour has a fixed month, day, hour and weekday; daylight saving and the reading of the text are not modelled.
- Shares.SharesAddUp: exact arithmetic in tenths of a percent instead of floating point.
- Ownership.RunKeeps: join dates, the kind of tip in the permission settings and requests that are no longer pending are not part of the state.
- Mapping.MappedFieldPasses: single transforms, reading of expressions, texts of values and dates are parameters, so the theorems hold for any of them.
- Masking.Masker.Mask: field rules and detectors are parameters.
- Issues.IssuesAreSelections: counts without retries, severity, titles and the lists of workflows, projects and environments of an issue are not modelled.
- `updateInSteps`, `diffGraphs`, release checks, project roles and other reads of the store: they would only add easy members.
- Edit locks, timers, the clipboard, storage, routing and everything that is drawn on the screen.
- The engine, worker and API packages, which are configuration only, the deployment code and the seed data.
