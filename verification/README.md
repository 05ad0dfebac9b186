# A verified model of Amira's patching, diffing, scheduling and publishing code

Amira is a coding agent. Among its parts are a text diff, a patch parser and a patch applier that changes several
files or none, a generator of its protocol's JSON schema, the bookkeeping that brings the reports of background
sub-agents and monitors to the session that asked for them, and scripts that publish updates, document settings and
clean up after themselves. This project models those parts in Dafny and proves what they are for.

`dafny verify dfyconfig.toml` checks everything. Code that the source writes as expressions is a function here; code
that changes variables, fields or the disk step by step is a method or a class, proved against a specification
function or predicate, about which the lemmas then speak. Faults are part of the model: any file system call, promise
or request may fail, and what runs between two awaits may come in any order.

| files | what they model |
|---|---|
| EditScripts, MyersDiff, Hunks, TextDiff | the diff: a shortest edit script by the search of Myers, and its hunks |
| SourceText, Replacements, PatchApply, PatchMeaning | the update of a text by patch hunks, and what it means for each line |
| PatchParser, PatchGrammar | the patch format: parsing, printing as its inverse, and the language of all accepted patches |
| Disk, PatchJournal, PatchCommit, PatchForward, PatchRollback, PatchTransaction, PatchPlan | a patch of many files as a transaction over a failing file system |
| Schemas, SchemaSplit, SchemaDocs, SchemaBundle | the protocol schema compiler, and the JSON that its output accepts |
| AgentReports | background jobs, their notices, batches and waiting calls |
| LineWindow, MonitorEvents, CompletionBatches | reading a window of lines, and turning output into notices |
| TypeGrammar | the type grammar of the settings documentation |
| Versions, Publishing | version order, and the update channel branch that several publishers share |
| Shutdown | teardown with retries and a deadline |
| WorktreeSweep | cleaning up worktrees, and when the user is warned |

The results to read first: `MyersDiff.DiffMiddle` and `TextDiff.DiffTexts` (the greedy search is optimal and its hunks
lose nothing), `PatchPlan.ApplyPatch` with `PatchTransaction.CommitPatch` (all or nothing under every sequence of
failures), `SchemaBundle.Compile` (compiled schemas accept the same JSON, and named ones are defined and referred to), `AgentReports.NothingIsLost` and
`AgentReports.HandedOutOnce`, `MonitorEvents.EveryEventIsSomewhere`, `PatchGrammar.PatchIsUnderstood`,
`PatchMeaning.UpdateKeepsFinalNewline`, `Publishing.RunKeeps`, and `WorktreeSweep.PromiseKeptIfReturned`.

## Promises the code does not keep

For each: what is promised, an input for which it fails, and the condition under which it holds, for all inputs.

- **No final newline is added** (patch-format.ts:246). `FinalNewlineCanAppear` and `FinalNewlineCanBeUncovered` are
  updates that end a text in a newline it did not have: an empty line added last, and the deletion of `b` from
  `a`, a blank line and `b`. `UpdateKeepsFinalNewline`: a nonempty text without a final newline gets one exactly when
  the line that the update leaves last ends in a break itself or is blank with a line before it (`LeavesBreak`). That
  line is read off the file, the hunks and their places by `MergeEnds` and `LastWritten`.
- **Splitting leaves the accepted JSON identical** (gen-protocol-schema.ts:171). `RepeatedValueBreaksOneOf` and
  `OpenBranchBreaksOneOf` are values that `oneOf` accepts before and not after. `SplitKeepsOneOf`: it accepts a value
  after the split exactly when it did before and each accepting branch that is split lists the value's tag exactly once.
  `anyOf` always accepts the same (`SplitKeepsAnyOf`).
- **The total is the number of lines of the file** (lines.ts:10-11). With no characters kept, nothing is carried of a last
  line without a break, and the text `a` counts as having no line. `EveryLineIsCounted`: all lines are counted exactly
  when characters are kept, or the text is empty or ends in a break.
- **Without hard links, rollback rewrites the saved bytes** (apply-patch.ts:309). `UpdatedThenDeleted`: a file that was
  updated and then deleted comes back under a new inode, for which undoing the update is refused.
  `RollBack`, `UndoAll`: when no call fails after the failure, the rollback is complete exactly when no file that was
  changed earlier is deleted without a link (`Strands`).
- **A diff of two texts, applied as a patch, gives the second** (the hunks of diff.ts:20-21 are those of a unified diff,
  and patch-format.ts:206 applies such hunks). `FinalNewlineIsLost`: from `a` to `b` with a final newline, it gives `b`
  without. `DiffThenApply`: for texts of different lines and without carriage returns it gives the second exactly when
  that is empty, or the two agree on ending in a line break, an empty first text counting as ending in one.
- **The user was told a notice before a worktree is deleted** (worktree.ts:404, 410-415). A sweep goes by the time of the
  mark, but the user is told what was marked only when the sweep that did so has waited for git and returned, if it does.
  `ToldLate` and `NeverTold` are runs in which the user is told late, or not at all. `PromiseKeptIfReturned`: in every run
  the promise is kept exactly when each mark that a sweep goes by was listed and its sweep returned a notice before this
  one began. What always holds is `MarkedANoticeBefore`.
- **A worktree is not deleted before the time shown for it** (worktree.ts:353-354). The sweep awaits git between looking at
  the mark and deleting. `KeptAndDeleted`: a worktree the user keeps meanwhile is deleted. `RespectedUnlessMoved`: the
  times shown between the check and the removal are respected exactly when every event that gave a new time gave one that
  is over by the removal; if that is less than an age and a notice after the check, and sweeps that unmark the worktree
  meanwhile began less than a notice before it, exactly when nothing takes the mark away. `NotBeforeShown` and
  `ExtendedLasts` say what holds when no sweep was past its check.
- **A worktree that changed since it was marked is no longer about to go** (worktree.ts:448). `ChangeIsNoExtension`: after
  a change the mark gives the same time as before exactly until a sweep or the user takes it away.
- **Resource teardown is once-only** (shutdown.ts:11). `ThrownStopIsCalledAgain`: when `stopResources` throws instead of
  returning a promise, the next attempt calls it again. `CalledOnceUnlessItThrew`: it is called at most once exactly
  when no attempt begins after a call that threw.
- **Existing metadata is verified before a publication** (publish-update-channel.ts:195), so what was published has to be
  readable: by the next publisher (line 206) and by every client (packages/cli/src/update/index.ts:178), within 1024 bytes.
  A signature is trimmed before it is verified (packages/cli/src/update/manifest.ts:38-39) and published as it is.
  `PaddedSignatureStops`: a valid signature with enough white space after it is published, and every later run is refused.
  `PublishedIsReadable`: exactly when the signature file has at most 1024 bytes is it readable.

## Model

| member | source | states |
|---|---|---|
| `EditScripts.TrimKeepsShortest` | extensions/builtin-tools/src/diff.ts:24-37 | a shortest script for the lines between the shared first and last lines, with those lines put back, is shortest for the whole texts |
| `EditScripts.ReplacedIsScript` | extensions/builtin-tools/src/diff.ts:43-46 | removing every old line and adding every new one is a script from one text to the other, and costs as much as both have lines |
| `MyersDiff.FollowRun` | extensions/builtin-tools/src/diff.ts:62-66 | from a start on a diagonal, every step taken is over a pair of equal lines, and the run stops only where a text ends or the lines differ |
| `MyersDiff.NothingBeyond` | extensions/builtin-tools/src/diff.ts:57-68 | on a diagonal of round d, no grid point further than where the round's run ends is reached with d edits |
| `MyersDiff.NoExitMeansFurther` | extensions/builtin-tools/src/diff.ts:54-71 | when no diagonal of round d ends at the end of both texts, the two are more than d edits apart |
| `MyersDiff.FirstExitIsTheEnd` | extensions/builtin-tools/src/diff.ts:68 | the first diagonal to reach past both ends ends exactly there, and its round number is the edit distance |
| `MyersDiff.Round` | extensions/builtin-tools/src/diff.ts:56-69 | one round over the array: every visited diagonal is left at its furthest point, and the round says whether one has reached the end |
| `MyersDiff.PopRound` | extensions/builtin-tools/src/diff.ts:87-103 | one step back through the trace adds exactly one edit to the script of the rest, and lands on the run of the round before |
| `MyersDiff.Backtrack` | extensions/builtin-tools/src/diff.ts:75-110 | walking the trace back gives a script between the two texts that costs the round the search ended in |
| `MyersDiff.DiffMiddle` | extensions/builtin-tools/src/diff.ts:42-73 | the ops are a script between the two line lists; either no script is cheaper, or everything is replaced and every script costs more than 1000 edits |
| `TextDiff.CommonStart` | extensions/builtin-tools/src/diff.ts:24-25 | the shared first lines, and not one fewer |
| `TextDiff.CommonEnd` | extensions/builtin-tools/src/diff.ts:26-31 | the shared last lines after those, and not one fewer |
| `TextDiff.DiffLines` | extensions/builtin-tools/src/diff.ts:24-37 | the ops of a diff of whole texts are a shortest script, or every script between them costs more than 1000 edits |
| `Hunks.LineNumbers` | extensions/builtin-tools/src/diff.ts:119-131 | before each op, the 1-based numbers of the next old and new line; the counts of added and removed lines of the whole script |
| `Hunks.ChangeEnd` | extensions/builtin-tools/src/diff.ts:139-147 | where a group of changes ends: at a change, with only ops near a change inside, and with more than twice the context unchanged after it |
| `Hunks.NextHunk` | extensions/builtin-tools/src/diff.ts:138-161 | the hunk of a group is the piece of the script around it, with true line numbers and line counts |
| `Hunks.CollectHunks` | extensions/builtin-tools/src/diff.ts:132-163 | the hunks show exactly the ops near a change, in order, without a gap or an overlap; collecting stops early only before a hunk that would go over the line limit |
| `Hunks.ToHunks` | extensions/builtin-tools/src/diff.ts:112-165 | all of that for the whole conversion, with at most the line limit shown, `truncated` exactly when a next hunk is too long, and counts of the whole script even then |
| `TextDiff.DiffTexts` | extensions/builtin-tools/src/diff.ts:21-39 | the whole diff: its counts are those of a shortest script, which keeps a longest common subsequence of the lines (or of texts over 1000 edits apart); when not truncated, applying the hunks at their line numbers turns the old lines into the new ones, and applying them reversed turns them back |
| `TextDiff.FullContextIsOneHunk` | extensions/builtin-tools/src/diff.ts:138-148 | with a context as long as the script, the diff of two different texts is one hunk, the whole script |
| `TextDiff.DiffThenApply` | extensions/builtin-tools/src/patch-format.ts:206-258 | applying a full-context diff as a patch: for texts without carriage returns whose lines differ, it has one hunk, and the result, as the patch applier defines it, is the new text exactly when the old and the new text agree on ending in a line break, an empty text counting as ending in one |
| `TextDiff.FinalNewlineIsLost` | extensions/builtin-tools/src/patch-format.ts:250-256 | the one hunk between `a` and `b` with a final newline, applied to `a`, gives `b` without it |
| `TextDiff.ScriptAsUpdate` | extensions/builtin-tools/src/patch-format.ts:114-127 | the lines of a diff hunk, read as the patch parser reads update lines, are the old and the new side of the script, each kept line paired with itself |
| `SourceText.JoinSourceLines` | extensions/builtin-tools/src/patch-format.ts:143-149 | no character is lost: the source lines of a text, joined with their endings, are the text |
| `SourceText.SourceLinesShape` | extensions/builtin-tools/src/patch-format.ts:143-149 | only the last line may lack an ending, it lacks one exactly when the text does, every ending is `\n`, `\r\n` or `\r`, and only the empty text has no lines |
| `SourceText.SourceLinesAreSplitLines` | extensions/builtin-tools/src/diff.ts:13-18 | for a text without carriage returns, the lines a diff sees are the lines an update sees |
| `SourceText.SeparatedLinesAreRead` | extensions/builtin-tools/src/patch-format.ts:143-149 | lines with any mix of the three endings, joined, are read back as those lines |
| `SourceText.BrokenLinesAreSplit` | extensions/builtin-tools/src/diff.ts:13-18 | lines ended by a newline with or without a carriage return before it, joined, are split into their texts, with one carriage return taken off each and a final break starting no line |
| `SourceText.TrimmedAlike` | extensions/builtin-tools/src/patch-format.ts:163 | the second comparison ignores white space at the end, the third at both ends, and neither anything else |
| `SourceText.LookAlikes` | extensions/builtin-tools/src/patch-format.ts:151-158 | the last comparison takes for each other exactly the dashes, the single quotes, the double quotes and the spaces of its four classes, at the same places of the trimmed lines |
| `PatchApply.Seek` | extensions/builtin-tools/src/patch-format.ts:160-170 | the place found is the first match, at or after the start, of the strictest of the four comparisons that matches anywhere there; for a hunk at the end of the file only the last lines count; -1 exactly when nothing that counts matches |
| `PatchApply.FoundOnce` | extensions/builtin-tools/src/patch-format.ts:160-170 | what a search is asked for has one answer, so the search above is fully described |
| `PatchApply.FoundAtEnd` | extensions/builtin-tools/src/patch-format.ts:162 | a match at the end of the file ends at its last line; there is none exactly when the last lines match by no comparison or begin before the start |
| `PatchApply.EndOfFileHunkEnds` | extensions/builtin-tools/src/patch-format.ts:219-223 | a placed hunk with old lines that is marked as at the end of the file reaches the file's last line, also when it was tried again without its empty last line |
| `PatchApply.Place` | extensions/builtin-tools/src/patch-format.ts:212-225 | where a hunk goes: its context line first, then its old lines, then once more without a trailing empty line; no place is reported exactly when no such place exists |
| `PatchApply.Rebuild` | extensions/builtin-tools/src/patch-format.ts:226-237 | a paired context line is the file's own line; any other new line takes the ending of the old line it stands for, else of the line before, else the default |
| `PatchApply.PlaceAll` | extensions/builtin-tools/src/patch-format.ts:211-240 | hunks are placed one after another, each searched from where the one before ended, up to the first without a place |
| `PatchApply.PlacedApart` | extensions/builtin-tools/src/patch-format.ts:211-240 | the places of all hunks lie apart in the file, insertions at its end after them |
| `Replacements.SortedIsInOrder` | extensions/builtin-tools/src/patch-format.ts:242 | sorting replacements that lie apart by where they start puts them in file order, those that start at the same line in hunk order |
| `Replacements.SortedIsStable` | extensions/builtin-tools/src/patch-format.ts:242 | sorting leaves the replacements that start at any one line as they are and in the order of their hunks |
| `Replacements.SpliceAll` | extensions/builtin-tools/src/patch-format.ts:241-245 | splicing from the last replacement to the first gives the one merge of file and replacements, whatever their sizes |
| `Replacements.Finish` | extensions/builtin-tools/src/patch-format.ts:246-256 | every line but the last gets an ending, and the last one's follows the file's last line |
| `PatchApply.ApplyUpdate` | extensions/builtin-tools/src/patch-format.ts:206-258 | the updated text is the merge of the file with all placed hunks; a failure names the first hunk that has no place |
| `PatchApply.UpdateOnce` | extensions/builtin-tools/src/patch-format.ts:206-258 | that description leaves one answer for every text and hunks |
| `PatchMeaning.UntouchedLineKept` | extensions/builtin-tools/src/patch-format.ts:241-245 | a line outside every hunk is in the result, at its old place moved by what the hunks before it add |
| `PatchMeaning.UntouchedLinesKeepOrder` | extensions/builtin-tools/src/patch-format.ts:241-245 | two lines outside every hunk keep their order |
| `PatchMeaning.ContextLineKept` | extensions/builtin-tools/src/patch-format.ts:226-233 | a context line of any placed hunk is in the merge as the file's own line, not the patch's spelling of it, at the place computed from the hunks before |
| `PatchMeaning.StandsFor` | extensions/builtin-tools/src/patch-format.ts:227-237 | which old line a new line stands for: as many after the last context line before it as there are new lines since, up to the last old line |
| `PatchMeaning.NewLineEnding` | extensions/builtin-tools/src/patch-format.ts:234 | a written line that is no context has the ending of the line it stands for, of the one before if that has none, or else the default |
| `PatchMeaning.DefaultIsFirst` | extensions/builtin-tools/src/patch-format.ts:209 | the default ending is that of the first line that has one, or a newline |
| `PatchMeaning.RetriedIsShortened` | extensions/builtin-tools/src/patch-format.ts:220-224 | a hunk of several old lines placed at the second try replaces what the hunk without its empty last lines would, and by the same |
| `PatchMeaning.ContextOnlyIsIdentity` | extensions/builtin-tools/src/patch-format.ts:206-258 | a patch whose hunks are all context leaves the text as it is, byte for byte, however loosely they matched |
| `PatchMeaning.MergeEnds` | extensions/builtin-tools/src/patch-format.ts:241-245 | how many lines an update leaves, and the last of them, read off the file and the replacements from the end |
| `PatchMeaning.LastWritten` | extensions/builtin-tools/src/patch-format.ts:228-237 | the last line a hunk writes, read off the hunk and where it is placed |
| `PatchMeaning.UpdateKeepsFinalNewline` | extensions/builtin-tools/src/patch-format.ts:250-257 | the final newline, for every update: the new text ends in a break exactly when a line is left, and the file was empty, or ended in a break, or the line left last itself ends in a break or is blank with a line before it |
| `PatchMeaning.FinalNewlineCanAppear` | extensions/builtin-tools/src/patch-format.ts:246-256 | an update that adds an empty line at the end of `a` gives `a` with a final newline, though the source means not to add one |
| `PatchMeaning.FinalNewlineCanBeUncovered` | extensions/builtin-tools/src/patch-format.ts:246-256 | an update that deletes the last line of a file that ended without a newline gives a text with one, when the line before is blank |
| `PatchParser.ParsePatch` | extensions/builtin-tools/src/patch-format.ts:34-130 | the parsing loop computes the parser's reading of the input, or none where it throws; what that is on the lines is said by the grammar below |
| `PatchParser.ParsedIsGood` | extensions/builtin-tools/src/patch-format.ts:47-52 | whatever is accepted, every update has a hunk, no hunk is without lines, and context lines are paired in order with equal lines |
| `PatchParser.OperationFeed` | extensions/builtin-tools/src/patch-format.ts:54-128 | the printed lines of one operation, read after any finished operations, add exactly that operation |
| `PatchParser.PrintedPatchIsRead` | extensions/builtin-tools/src/patch-format.ts:34-130 | a round trip: every list of printable operations, printed as a patch, is read back as that list |
| `PatchGrammar.PatchIsUnderstood` | extensions/builtin-tools/src/patch-format.ts:34-130 | the language of patches: an input is accepted exactly if its lines, perhaps of a here-document, are a well written patch between its two marker lines, and it is read as what that patch means: which operations, which hunks, and which of their lines are expected, left and paired |
| `PatchGrammar.HunkLineReads` | extensions/builtin-tools/src/patch-format.ts:122-127 | a line that is empty or starts with a space adds to both sides and pairs them, one with a plus to the new side, one with a minus to the old |
| `PatchGrammar.BareContextIsContext` | extensions/builtin-tools/src/patch-format.ts:123 | a hunk means the same however many of its empty context lines are written without their space |
| `PatchGrammar.InputIsSplit` | extensions/builtin-tools/src/patch-format.ts:35 | white space around a patch is dropped, and its lines are those between newlines, without one carriage return before each |
| `PatchForward.Unchanged` | extensions/builtin-tools/src/apply-patch.ts:110-120 | the check passes only if the path may be patched and shows the same inode and bytes as the snapshot, and always does when no call fails |
| `PatchForward.MissingParents` | extensions/builtin-tools/src/apply-patch.ts:268-269 | the directories found missing are the ones right above the path, nearest first, up to the first that exists |
| `PatchForward.MakeParents` | extensions/builtin-tools/src/apply-patch.ts:267-274 | making them keeps everything undoable, adds only directories above the path, and succeeds when no call fails |
| `PatchForward.MakeBackup` | extensions/builtin-tools/src/apply-patch.ts:301-310 | the backup is a second name of the very inode, in a fresh directory beside the file, or there is none, and then a call to link or to make that directory has failed |
| `PatchForward.UpdateInPlace` | extensions/builtin-tools/src/apply-patch.ts:276-299 | overwriting a file: at whatever call it stops, the journal still leads back to the start; if it succeeds, the path shows the planned bytes, and it does when no call fails |
| `PatchForward.CreateAndFill` | extensions/builtin-tools/src/apply-patch.ts:276-299 | the same for creating a file, exclusively and under a new inode that belongs to that path alone |
| `PatchForward.DeleteFile` | extensions/builtin-tools/src/apply-patch.ts:300-314 | the same for deleting a file; the deletion is recorded with its backup unless linking failed |
| `PatchForward.MakeChange` | extensions/builtin-tools/src/apply-patch.ts:262-315 | one change, whether or not its calls fail: the journal still leads back to the start; if it succeeds, every changed path shows its last planned content |
| `PatchForward.Forward` | extensions/builtin-tools/src/apply-patch.ts:261-315 | the same over all changes, stopped at any point by any failing call; as many deletions are recorded without a backup as calls to link or to make a backup directory failed |
| `PatchJournal.UndoRestores` | extensions/builtin-tools/src/apply-patch.ts:318-334 | undoing an entry restores the state before it, given a volume that shows the state after it: contents everywhere, and the old names' inodes except where bytes had to be written to a new one |
| `PatchRollback.UndoOne` | extensions/builtin-tools/src/apply-patch.ts:319-333 | the calls that undo one entry do to the volume what undoing means, refuse a path that was replaced or removed, and succeed when no call fails and it can be undone |
| `PatchRollback.UndoAll` | extensions/builtin-tools/src/apply-patch.ts:317-334 | the journal is undone from the last entry to the first; without failures the start is shown again, and when no call fails any more there are failures exactly when a file changed earlier was deleted without a hard link |
| `PatchRollback.UndoneIsShownAgain` | extensions/builtin-tools/src/apply-patch.ts:317-334 | a wholly undone journal shows every path as at the start, through its old inode unless it was rewritten, with no old bytes lost |
| `PatchRollback.CanUndoUnlessRewritten` | extensions/builtin-tools/src/apply-patch.ts:321-329 | an entry can be undone exactly when its path was not rewritten under a new inode |
| `PatchRollback.UpdatedThenDeleted` | extensions/builtin-tools/src/apply-patch.ts:318-334 | the run that fails: a file updated and then deleted on a file system without hard links; undoing the deletion makes a new inode, and the update is then refused though no call fails |
| `PatchRollback.AllBacked` | extensions/builtin-tools/src/apply-patch.ts:301-334 | when every deletion has its backup, nothing is stranded by undoing |
| `PatchTransaction.CleanBackups` | extensions/builtin-tools/src/apply-patch.ts:247-260 | no failure means no backup and no backup directory is left, nothing else is touched, and there is none when no call fails |
| `PatchTransaction.RemoveDirectories` | extensions/builtin-tools/src/apply-patch.ts:336-342 | no failure means every directory the commit made is gone, and only empty ones are ever removed |
| `PatchTransaction.RollBack` | extensions/builtin-tools/src/apply-patch.ts:316-346 | all rolled back means every directory, name and content is as before the commit; when no call fails any more that is the outcome exactly unless a file is stranded as above |
| `PatchTransaction.AsBeforeIsSame` | extensions/builtin-tools/src/apply-patch.ts:316-346 | with no file rewritten, as before means the same names, inodes and bytes |
| `PatchTransaction.CommitPatch` | extensions/builtin-tools/src/apply-patch.ts:236-350 | all or nothing, for every sequence of failing calls: applied means every path shows its last planned content and only needed directories were added; rolled back means everything is as before; nothing outside the claimed paths is ever touched; if no call fails it is applied; deletions without a backup are exactly the failed attempts to link, and if there were none and no call fails any more after the failure, it is wholly rolled back, inodes included |
| `PatchPlan.Planner.Claim` | extensions/builtin-tools/src/apply-patch.ts:148-169 | a path is claimed exactly when it may be patched, is apart from the claimed paths, and shares no inode with them; a second claim answers what is staged |
| `PatchPlan.Planner.Stage` | extensions/builtin-tools/src/apply-patch.ts:170-179 | the change is added last, and later operations see its content |
| `PatchPlan.Planner.PlanOne` | extensions/builtin-tools/src/apply-patch.ts:180-219 | planning an operation is running it on the files as the operations before left them; it is planned only if it makes sense there and its paths may be claimed, and then it is if no call fails |
| `PatchPlan.PlanAll` | extensions/builtin-tools/src/apply-patch.ts:180-219 | the plan of all operations is their run one after another, every claimed path has a change, and planning succeeds when they make sense and no call fails |
| `PatchPlan.Rewrite` | extensions/builtin-tools/src/apply-patch.ts:198-201 | an update operation's new bytes are the encoded update of the decoded text; none exactly when the bytes are no text or a hunk has no place |
| `PatchPlan.RunsOnce` | extensions/builtin-tools/src/apply-patch.ts:180-219 | running operations one by one has one result |
| `PatchPlan.Revalidate` | extensions/builtin-tools/src/apply-patch.ts:220-221 | afterwards every claimed path still shows its snapshot |
| `PatchPlan.MutationsOf` | extensions/builtin-tools/src/apply-patch.ts:226-230 | the capture hook is given each claimed path once, with the bytes before and what is staged |
| `PatchPlan.PlanCaptures` | extensions/builtin-tools/src/apply-patch.ts:223-232 | which are its bytes before the patch and after running all of its operations |
| `PatchPlan.PlanLeavesResult` | extensions/builtin-tools/src/apply-patch.ts:180-231 | carrying out the planned changes leaves every claimed path as running the operations one by one would |
| `PatchPlan.ApplyPatch` | extensions/builtin-tools/src/apply-patch.ts:135-234 | the whole call: committed means the operations make sense in sequence; applied leaves their result, rolled back leaves the start, not planned touches nothing; no unclaimed path changes; if no call fails, it is applied exactly when the operations make sense and their paths may be patched together |
| `SchemaSplit.ValuesHold` | scripts/gen-protocol-schema.ts:149-157 | an accepted object has the tag, and its value is among those listed for the schema |
| `SchemaSplit.DiscriminatorSeparates` | scripts/gen-protocol-schema.ts:159-167 | with a discriminator at most one branch accepts an object, so `oneOf` and `anyOf` of the branches agree on it |
| `Schemas.ValuesAreOfLeaves` | scripts/gen-protocol-schema.ts:149-157 | a schema has values for a tag exactly if every schema at the ends of its nested unions requires and lists it, and they are the values those list |
| `Schemas.DiscriminatorIsFirst` | scripts/gen-protocol-schema.ts:159-167 | the discriminator is the first of the seven keys that every end of every branch lists, with no value listed in two branches; there is none exactly if no key does |
| `SchemaSplit.CopyAccepts` | scripts/gen-protocol-schema.ts:181-184 | a copy accepts what its branch accepts, unless the value has the tag with another value |
| `SchemaSplit.CopiesCount` | scripts/gen-protocol-schema.ts:176-187 | how many copies accept an accepted value: as often as the tag is listed in the enum, and all of them when the value has no tag |
| `SchemaSplit.SplitKeepsAnyOf` | scripts/gen-protocol-schema.ts:169-189 | `anyOf` accepts the same JSON before and after the split |
| `SchemaSplit.SplitKeepsOneOf` | scripts/gen-protocol-schema.ts:169-189 | `oneOf` accepts a value after the split exactly when it did before and every accepting branch that is split lists the value's tag exactly once |
| `SchemaSplit.TidyCountsOnce` | scripts/gen-protocol-schema.ts:169-189 | branches that only admit objects and list no value twice always meet that condition |
| `SchemaSplit.RepeatedValueBreaksOneOf` | scripts/gen-protocol-schema.ts:169-189 | a tag listed twice makes the split reject a value that was accepted |
| `SchemaSplit.OpenBranchBreaksOneOf` | scripts/gen-protocol-schema.ts:169-189 | so does a branch without a type, for a value that is no object |
| `SchemaDocs.SameValues` | scripts/gen-protocol-schema.ts:216-226 | leaving out `enum` for `const` and adding the type of its values changes nothing |
| `SchemaDocs.KindIsOfValues` | scripts/gen-protocol-schema.ts:216-222 | the type emitted for an enum without one is the narrowest that all of its values have, integers before numbers, and none when they differ or are null |
| `SchemaDocs.ValuesAreWrittenOnce` | scripts/gen-protocol-schema.ts:223-226 | an enum of one value is written as `const`, any other as `enum`, and never as both |
| `SchemaDocs.DenotesSame` | scripts/gen-protocol-schema.ts:208-279 | a rendered document, its references looked up, accepts the same JSON as the schema it was rendered from |
| `SchemaBundle.Bundle.Name` | scripts/gen-protocol-schema.ts:134-139 | a schema gets a name once, and no two get the same one |
| `SchemaBundle.Bundle.Refer` | scripts/gen-protocol-schema.ts:141-146 | a reference is to the schema's name, which is defined or waits to be |
| `SchemaBundle.Bundle.Split` | scripts/gen-protocol-schema.ts:173-189 | which branches are taken apart and for which key, a kept split being reused; branches that have a name are left whole |
| `SchemaBundle.Bundle.Hoist` | scripts/gen-protocol-schema.ts:192-206 | every object branch whose tag can be one string only has a name afterwards, made of that string and the suffix unless it had one; no other name is new; it fails only when such a name is taken |
| `SchemaBundle.SingleIsAllListed` | scripts/gen-protocol-schema.ts:193-196 | a branch is named after a string exactly if it has properties and that string is all that the ends of its unions list for the tag |
| `SchemaBundle.HoistKeyIsFirst` | scripts/gen-protocol-schema.ts:197-200 | branches are named by the first key that gives some of them a name and no two the same |
| `SchemaBundle.Bundle.Render` | scripts/gen-protocol-schema.ts:208-279 | the rendered document denotes the schema, whatever names were given on the way: a schema that has a name is a reference to it, and only one without is written out in place; inside a definition nothing is named and nothing fails but the definition's own hoisting |
| `SchemaBundle.Bundle.DefineNext` | scripts/gen-protocol-schema.ts:282-285 | one turn defines the first waiting name and leaves fewer schemas undefined |
| `SchemaBundle.Bundle.Drain` | scripts/gen-protocol-schema.ts:281-286 | the queue runs empty for every input, though rendering adds to it; new names are those of hoisted branches, every definition with a suffix has all of its branches named, and it fails only when a hoisted name is taken |
| `SchemaBundle.PartIsLighter` | scripts/gen-protocol-schema.ts:208-279 | rendering goes to lighter schemas, also through the copies a split makes |
| `SchemaBundle.ReferencesAreDefined` | scripts/gen-protocol-schema.ts:281-286 | with an empty queue every reference in every definition is defined, and different schemas have different names |
| `SchemaBundle.AcceptedJsonIsIdentical` | scripts/gen-protocol-schema.ts:170-171 | definitions and documents accept the JSON of their schemas, when the branches of every `oneOf` are tidy |
| `SchemaBundle.UsedIsDefined` | scripts/gen-protocol-schema.ts:281-286 | every schema that was given a name and is used, however far down, by one that is rendered has its definition |
| `SchemaBundle.NoSuffixNoNames` | scripts/gen-protocol-schema.ts:208-279 | without hoisting, no name is made and none clashes |
| `SchemaBundle.Bundle.Build` | scripts/gen-protocol-schema.ts:127-287 | a bundle used in any way: whatever schemas are named and asked for in whatever order, then drained, every document asked for denotes its schema |
| `SchemaBundle.Compile` | scripts/gen-protocol-schema.ts:127-287 | from an empty bundle through any naming and asking to the drained one: every reference is defined, and every document asked for accepts the JSON of its tidy schema; no schema that was given a name is written out inside another's document, and each one used by what was asked for, however far down, has its definition; the names are the ones given and those of hoisted branches; and it fails only when a name is given twice, a hoisted name is taken, or an unnamed schema is asked for |
| `AgentReports.Extension.Adopt` | extensions/agent/src/index.ts:151-159 | files the job and, if it has a notice and is done, finishes it at once |
| `AgentReports.Extension.Finished` | extensions/agent/src/index.ts:162-172 | a finished job that nobody waits for moves from its table to its commander's batch |
| `AgentReports.Extension.JobDone` | extensions/agent/src/index.ts:157 | a job that ends while nobody waits for it is batched there and then |
| `AgentReports.Extension.Flush` | extensions/agent/src/index.ts:175-187 | the batch goes out as one message, in order, and the lease of each of its jobs is settled once |
| `AgentReports.Extension.DropBackground` | extensions/agent/src/index.ts:214-229 | the commander's batch and table are gone, their leases settled, and exactly its unfinished jobs are cancelled |
| `AgentReports.Extension.EndSessions` | extensions/agent/src/index.ts:236-247 | afterwards only the session that goes on has jobs or a batch |
| `AgentReports.Extension.WhereGone` | extensions/agent/src/tools.ts:207-214 | the answer for a job that is not in the table tells a batched one from one that was sent and one nobody knows |
| `AgentReports.Extension.LookUp` | extensions/agent/src/tools.ts:203-219 | the ids that are filed are found in order; each other one is answered, in order and once: on its way if it is in a batch, already sent if a message carried it, else unknown |
| `AgentReports.AmongAreAll` | extensions/agent/src/tools.ts:215-219 | the ids that are filed and those that are not are together those that were asked for, each as often |
| `AgentReports.Extension.Ask` | extensions/agent/src/tools.ts:202-259 | a call waits exactly when it may and finds a filed job; otherwise each asked id is answered once, those not filed as above and then each found one, with its report if it has ended; on an abort every finished one is passed on to its batch |
| `AgentReports.Extension.Resume` | extensions/agent/src/tools.ts:231-257 | a call that waited answers for every job it found and takes the finished ones; on an abort it hands out nothing and passes them on |
| `AgentReports.Extension.PassOn` | extensions/agent/src/tools.ts:237-242 | after an abort every finished job still in the table is in a batch or waited for by another call |
| `AgentReports.Extension.HandOutAll` | extensions/agent/src/tools.ts:243-257 | each found job gets one part: its report if it is still there, else where it went, else that it still runs |
| `AgentReports.FinishSound` | extensions/agent/src/index.ts:162-172 | batching a job keeps every invariant of jobs, leases, batches and calls |
| `AgentReports.CollectSound` | extensions/agent/src/tools.ts:247-250 | so does handing a report out |
| `AgentReports.FlushSound` | extensions/agent/src/index.ts:175-187 | so does sending a batch |
| `AgentReports.FiledSound` | extensions/agent/src/index.ts:151-159 | so does filing a job |
| `AgentReports.ForgottenSound` | extensions/agent/src/index.ts:221-228 | so does forgetting a commander's jobs |
| `AgentReports.HandedOutOnce` | extensions/agent/src/tools.ts:198 | in every reachable state a report has reached the commander at most once, and then it waits nowhere else |
| `AgentReports.FinishedIsHeld` | extensions/agent/src/index.ts:161-172 | a finished report with a notice is never forgotten: it is in a batch, handed out, or held for a call that waits for it |
| `AgentReports.NothingIsLost` | extensions/agent/src/index.ts:147-187 | once batches are sent and calls answered, every lease of a finished job was settled exactly once, and its report was handed out or dropped with its commander, or it stays in a table without a notice |
| `AgentReports.DroppedIsSettled` | extensions/agent/src/index.ts:213-229 | dropping a commander settles each of its leases exactly once |
| `LineWindow.EveryLineIsCounted` | extensions/builtin-tools/src/lines.ts:61-73 | the lines counted are the text's lines exactly when characters are kept at all, or the text is empty or ends in a line break |
| `LineWindow.WindowIsSlice` | extensions/builtin-tools/src/lines.ts:55-59 | the window is the slice of the lines asked for, each cut to the kept characters and without its carriage return |
| `LineWindow.Reader.Emit` | extensions/builtin-tools/src/lines.ts:55-59 | one line more is counted, kept exactly if it is in the window, and past the window `more` is set |
| `LineWindow.Reader.Feed` | extensions/builtin-tools/src/lines.ts:61-73 | whatever the chunks, the reader holds what reading all of the text so far leads to, and never carries more than the kept characters |
| `LineWindow.WindowIsFinal` | extensions/builtin-tools/src/lines.ts:91-92 | once a line past the window was seen, the window and `more` stay right whatever follows |
| `LineWindow.ReadLineWindow` | extensions/builtin-tools/src/lines.ts:51-99 | the lines answered are the window of the whole file, however it is chunked; the total is right or left out, and left out exactly when enough was read after the window; aborted exactly when the signal came before that |
| `MonitorEvents.Monitor.Feed` | extensions/builtin-tools/src/monitor-events.ts:90-107 | whatever the pieces of output, the state is what reading all of the text so far leads to |
| `MonitorEvents.Monitor.LastLine` | extensions/builtin-tools/src/monitor-events.ts:106 | a last line without a break is counted too; the events are then the first 200 of the whole output |
| `MonitorEvents.Monitor.Line` | extensions/builtin-tools/src/monitor-events.ts:109-131 | a finished line, matched or not, becomes an event or none; a timer is set exactly if there is none and no stop was asked for, and not before the last notice is an interval old |
| `MonitorEvents.Monitor.Count` | extensions/builtin-tools/src/monitor-events.ts:117-126 | an event's line is kept while the bytes allow and else counted as omitted; the 200th event pauses |
| `MonitorEvents.Monitor.Flush` | extensions/builtin-tools/src/monitor-events.ts:133-173 | exactly when there is something to say, or it is the last word, one notice goes out on the current lease, with the lines and counts since the last one |
| `MonitorEvents.NoticesAreFilled` | extensions/builtin-tools/src/monitor-events.ts:117-122 | how many bytes each notice has and what it left out: a line is left out exactly when it does not fit what is still free of the budget since the last notice, which starts anew with each |
| `MonitorEvents.Monitor.Output` | extensions/builtin-tools/src/monitor-events.ts:67-74 | output is read unless the monitor is over or a stop was asked for |
| `MonitorEvents.Monitor.TimerFires` | extensions/builtin-tools/src/monitor-events.ts:129 | a notice goes out when the timer fires exactly if the monitor still owns its notices, no stop was asked for, and there is something to say |
| `MonitorEvents.Monitor.JobEnds` | extensions/builtin-tools/src/monitor-events.ts:75-87 | the end reads the last line and says the last word, once, unless the job was disowned or the timeout came first; then who owns the notices now is kept for the timeout |
| `MonitorEvents.Monitor.TimesOut` | extensions/builtin-tools/src/monitor-events.ts:196-204 | the timeout leaves the last word to `run` and says nothing itself |
| `MonitorEvents.Monitor.Proceed` | extensions/builtin-tools/src/monitor-events.ts:206-217 | `run` after a timeout: it asks for a stop if the job still runs, and fixes who owns the notices; if the job has ended meanwhile, the last word is said at once, once, exactly if they were owned at its end |
| `MonitorEvents.Monitor.StopAnswered` | extensions/builtin-tools/src/monitor-events.ts:210-217 | the stopped job gets its last word, once, if the monitor owned its notices when it asked for the stop |
| `MonitorEvents.Monitor.Close` | extensions/builtin-tools/src/monitor-events.ts:218-226 | every lease taken is settled, and nothing more is said |
| `MonitorEvents.FirstIsFinal` | extensions/builtin-tools/src/monitor-events.ts:123-126 | after 200 events nothing read later changes the events |
| `MonitorEvents.FinalReads` | extensions/builtin-tools/src/monitor-events.ts:90-107 | the events of a finished reading are the first 200 of the whole output's lines |
| `MonitorEvents.OneLease` | extensions/builtin-tools/src/monitor-events.ts:152-171 | in every reachable state a monitor with a lease holds exactly one until it is over, has said at most one last word, and its notices lie an interval apart |
| `MonitorEvents.EveryEventIsSomewhere` | extensions/builtin-tools/src/monitor-events.ts:138-147 | no event is lost: each is in a notice, waits for one, was counted as omitted in one, or was discarded at the close |
| `MonitorEvents.NoFinalYet` | extensions/builtin-tools/src/monitor-events.ts:84-85 | no last word is said before the monitor is over |
| `MonitorEvents.TimerIsDue` | extensions/builtin-tools/src/monitor-events.ts:127-130 | a running timer is never due before the interval after the last notice |
| `CompletionBatches.Batches.Add` | extensions/builtin-tools/src/completion-batches.ts:21-36 | an item joins its owner's batch or opens one; it is refused exactly when there is neither a batch nor a lease, and a lazy lease is made only for a new batch |
| `CompletionBatches.Batches.Flush` | extensions/builtin-tools/src/completion-batches.ts:38-51 | the batch goes out once, with all of its items in order, on its first lease; whether or not rendering throws, every lease is settled |
| `CompletionBatches.Batches.Dispose` | extensions/builtin-tools/src/completion-batches.ts:53-59 | nothing is sent, no batch is left, and every lease ever taken is settled |
| `CompletionBatches.AddedSound` | extensions/builtin-tools/src/completion-batches.ts:21-36 | adding keeps every accepted item in exactly one place and every lease in exactly one batch or settled once |
| `CompletionBatches.RemovedSound` | extensions/builtin-tools/src/completion-batches.ts:38-51 | so does sending a batch |
| `TypeGrammar.Parser.ParseType` | scripts/gen-settings-docs.ts:78-86 | the parser's loop reads what the grammar reads, and stops at the same token; it throws exactly where the grammar has no reading |
| `TypeGrammar.Parser.ParseIntersection` | scripts/gen-settings-docs.ts:88-95 | the same for intersections |
| `TypeGrammar.Parser.ParsePrimary` | scripts/gen-settings-docs.ts:97-125 | the same for primaries and their array suffixes |
| `TypeGrammar.Parser.ParseFields` | scripts/gen-settings-docs.ts:127-141 | the same for the fields of an object type |
| `TypeGrammar.TypeAt` | scripts/gen-settings-docs.ts:78-86 | reading a type moves forward and stays within the tokens, so parsing ends on every input |
| `TypeGrammar.TypeBack` | scripts/gen-settings-docs.ts:78-141 | a printed type is read back from the middle of any tokens, whatever follows that cannot continue it |
| `TypeGrammar.PrintedTypeIsRead` | scripts/gen-settings-docs.ts:78-141 | a round trip: every well-formed type, printed with only the parentheses it needs, is read back as itself to the last token |
| `Versions.OrderReverses` | packages/cli/src/update/semver.ts:21-43 | comparing the other way round negates the result, and it is 0 exactly for equal versions |
| `Versions.OrderIsTransitive` | packages/cli/src/update/semver.ts:21-43 | the order of versions is transitive |
| `Versions.StrictlyBelow` | packages/cli/src/update/semver.ts:21-43 | and so is the strict one |
| `Versions.OrderIsStandard` | packages/cli/src/update/semver.ts:21-43 | the order is that of Semantic Versioning, section 11: by major, minor and patch number, a release above its prereleases, and those by their first different identifier, numbers by value and below words, words by their characters, and a longer list above its beginning |
| `Versions.ValuesDiffer` | packages/cli/src/update/semver.ts:16-17 | different numeric identifiers have different values, because leading zeros are refused |
| `Versions.CompareVersions` | packages/cli/src/update/semver.ts:21-43 | the comparing loop computes that order |
| `Publishing.OwnedBranch` | scripts/publish-update-channel.ts:99-139 | a branch is taken for the channel exactly when its tree is the marker alone or all four entries, with the right modes and this repository's marker |
| `Publishing.LayoutIsReserved` | scripts/publish-update-channel.ts:110-136 | the reserved layout is this repository's marker alone, or it and one directory, one manifest and one signature, each once and with its mode, and nothing else |
| `Publishing.AuthenticIfVerified` | scripts/publish-update-channel.ts:141-148 | metadata are authentic exactly if the manifest has at most a megabyte and the signature, white space around it aside, is 86 base64 characters and two equals signs that verify |
| `Publishing.Channel.CreateCommit` | scripts/publish-update-channel.ts:150-179 | a commit is added and no branch moves |
| `Publishing.Channel.Reserve` | scripts/publish-update-channel.ts:182-191 | reserving is refused exactly when the branch exists, and else makes a commit of the marker alone |
| `Publishing.Channel.CreateRef` | scripts/publish-update-channel.ts:192 | the branch is created only if nobody did meanwhile |
| `Publishing.Channel.Prepare` | scripts/publish-update-channel.ts:196-221 | refused exactly when the branch is not ours or the old or new metadata do not verify; unchanged exactly when the version is not higher; else a commit of the full tree on the head that was read |
| `Publishing.Channel.MoveRef` | scripts/publish-update-channel.ts:222-223 | the branch moves exactly when its head is in the commit's history, and is never forced |
| `Publishing.ReachesIsPrefix` | scripts/publish-update-channel.ts:222-223 | reaching a commit is having its history as a beginning |
| `Publishing.VersionsIncrease` | scripts/publish-update-channel.ts:196-225 | along the history of any commit the published versions strictly increase |
| `Publishing.RunKeeps` | scripts/publish-update-channel.ts:222-223 | over every interleaving of publishers, the history of an earlier head begins that of every later one |
| `Publishing.MovesOnlyUndisturbed` | scripts/publish-update-channel.ts:212-223 | a prepared commit moves the branch exactly when the head is still the one it was prepared on, or the commit itself |
| `Publishing.PublishedIsReadable` | scripts/publish-update-channel.ts:94-96 | what was published can be read by the next run exactly when its signature file, padding included, has at most 1024 bytes |
| `Publishing.PaddedSignatureStops` | scripts/publish-update-channel.ts:196-224 | the run that fails: a newer manifest with a valid signature padded beyond that limit is published, and whatever is published next is refused |
| `Publishing.PaddingOutgrowsLimit` | scripts/publish-update-channel.ts:94-96 | 500 ideographic spaces after a signature keep it under 1024 characters and take it over 1024 bytes |
| `Publishing.PaddedIsAuthentic` | packages/cli/src/update/manifest.ts:38-39 | white space after a signature does not change whether it verifies |
| `Shutdown.OnceAtMost` | scripts/ui-walk/shutdown.ts:49-51 | a call of `stopResources` that does not throw is made at most once, and the window is exhausted at most once |
| `Shutdown.CalledOnceUnlessItThrew` | scripts/ui-walk/shutdown.ts:49-51 | `stopResources` is called at most once exactly when no attempt begins after a call of it that threw |
| `Shutdown.ThrownStopIsCalledAgain` | scripts/ui-walk/shutdown.ts:28-72 | the run that fails, made of `close`, the end of its attempt and the retry: the stop throws and is called again |
| `Shutdown.NothingFollows` | scripts/ui-walk/shutdown.ts:28-42 | after the window is exhausted no retry is scheduled or starts by itself; after files were removed nothing starts at all |
| `Shutdown.Shutdown.Close` | scripts/ui-walk/shutdown.ts:44-74 | a completed shutdown answers at once and a running attempt is joined; else an attempt starts, and the resources are asked to stop unless they were |
| `Shutdown.Shutdown.ResourcesSettle` | scripts/ui-walk/shutdown.ts:51-52 | how the one stop ends is kept for every later attempt |
| `Shutdown.Shutdown.Continue` | scripts/ui-walk/shutdown.ts:52-57 | an attempt goes on to the files exactly if the resources stopped and it was to remove them; else it is over, failed exactly if they did not stop, and the server is stopped |
| `Shutdown.Shutdown.RemovalSettles` | scripts/ui-walk/shutdown.ts:53-57 | however the removal ends, the server is stopped next and the attempt is over |
| `Shutdown.Shutdown.Settle` | scripts/ui-walk/shutdown.ts:59-72 | removed files complete the shutdown and cancel the timers; a failed attempt to remove them leaves a retry and a deadline exactly if the window is open, and nothing else is done |
| `Shutdown.Shutdown.Failed` | scripts/ui-walk/shutdown.ts:28-42 | a failure schedules one retry and keeps the first deadline, or nothing when the window is over |
| `Shutdown.Shutdown.RetryFires` | scripts/ui-walk/shutdown.ts:38-41 | the retry starts an attempt to remove the files by itself, asks the resources to stop only if they were not, and keeps the deadline |
| `Shutdown.Shutdown.DeadlineFires` | scripts/ui-walk/shutdown.ts:32-37 | at the deadline the timers go, the server is stopped and the surrender is reported, in that order, and an attempt in flight goes on |
| `WorktreeSweep.MarkedANoticeBefore` | extensions/agent/src/worktree.ts:447-457 | over every interleaving of sweeps, users and sub-agents: a worktree is deleted only if a sweep marked it at least the notice before the deleting sweep began |
| `WorktreeSweep.PromiseKeptIfReturned` | extensions/agent/src/worktree.ts:404 | in every run, each worktree was told of, by a sweep that marked and listed it, at least the notice before the sweep that deletes it, exactly when each mark gone by was written by a sweep that listed it and had returned by then |
| `WorktreeSweep.WarnedIfReturnedInTime` | extensions/agent/src/worktree.ts:452-454 | at any moment: the user was told of the mark a worktree has at least the notice ago exactly when the sweep that wrote it listed it and returned by then |
| `WorktreeSweep.DeletionIsDecided` | extensions/agent/src/worktree.ts:457-459 | every deletion follows a check by the same sweep, with no other deletion of that sweep in between |
| `WorktreeSweep.ToldLate` | extensions/agent/src/worktree.ts:458-472 | the run that fails: a sweep marks a worktree and waits for git before it returns; a sweep that begins a notice after the mark deletes it, less than a notice after the user was told |
| `WorktreeSweep.NeverTold` | extensions/agent/src/worktree.ts:452-472 | the run that fails: the marking sweep is stopped, or ends without its list, or could not list what it marked; a later sweep deletes a worktree the user was never told of |
| `WorktreeSweep.NotBeforeShown` | extensions/agent/src/worktree.ts:375-377 | unless a sweep was about to delete it when it was shown, no worktree is deleted before the time shown for it |
| `WorktreeSweep.ExtendedLasts` | extensions/agent/src/worktree.ts:562-567 | keeping a worktree when no sweep is about to delete it saves it for another age and notice |
| `WorktreeSweep.RespectedIfNewTimesOver` | extensions/agent/src/worktree.ts:375-377 | a time that is over stays respected exactly as long as every event that gives the worktree another time gives one that is over too |
| `WorktreeSweep.RespectedUnlessMoved` | extensions/agent/src/worktree.ts:457-463 | every time shown up to a sweep's check is over at its removal; those shown in between are over exactly when every event that gave a new time gave one that is over; if less than an age and a notice lies between and sweeps that unmark meanwhile began less than a notice before the removal, exactly when nothing took the mark away |
| `WorktreeSweep.KeptAndDeleted` | extensions/agent/src/worktree.ts:457-463 | the run that fails: a worktree is kept while `git worktree remove` is awaited, a later time is shown, and it is deleted all the same |
| `WorktreeSweep.ChangeIsNoExtension` | extensions/agent/src/worktree.ts:375-377 | a changed worktree keeps the time its mark gives exactly until a sweep or the user takes the mark away |
| `WorktreeSweep.Worktrees.Visit` | extensions/agent/src/worktree.ts:442-457 | what a sweep does with one worktree up to the removal, exactly by its age and mark: unmark it, mark it, check it, or clean up; a mark that a failed write left, or whose listing failed, stays unlisted |
| `WorktreeSweep.Worktrees.Delete` | extensions/agent/src/worktree.ts:458-464 | the removal: with git or with the directory's own removal the worktree goes, the mark only if everything else went |
| `WorktreeSweep.Worktrees.SweepAll` | extensions/agent/src/worktree.ts:417-473 | a whole sweep does at each entry not in `keep` exactly what that entry's own age and mark call for, in order and with no other entry's fault in the way; it touches nothing in `keep`, and returns exactly what it listed and removed, or nothing when the final prune fails |
| `WorktreeSweep.Worktrees.Extend` | extensions/agent/src/worktree.ts:562-567 | keeping touches the directory, removes the mark, and shows a time an age and a notice from now |

## Left out

Of the diff and the updates:

- Texts are sequences of characters; UTF-16 code units, encodings and the detection of binary text are not modelled.
- Array elements are unbounded integers; the search stores no value that would not fit 32 bits.
- An infinite context is any context at least as long as the script.
- The error of a hunk that does not match names the hunk; its text and the similarity score are left out.
- Full context diffs are applied through the specification of an update, `IsUpdate`, which leaves one answer.

Of the patch transaction:

- Disk: making a file, a directory or a temporary directory is assumed to fail without effect. If such a call could take
  effect and then report an error, nothing would record what it made, and all or nothing would not hold.
- No process but the patch writes while it runs, and no inode number is used again. The checks for concurrent changes
  are in the model, but only for what the patch itself does to a path twice.
- A path is its own key: paths that differ only in case, and reaching the workspace through links, are left out, as
  are symbolic links, file modes, empty and outside paths, and the path rules of Windows.
- Temporary directories get names that no other path has. Failures of `handle.stat` and `handle.close` are failures of
  the write.
- Decoding and encoding are parameters: which bytes are a text, and how an updated text is encoded like the old one.
- The stable sort of the replacements is the function `Sorted`; that it is what a stable sort gives is `SortedIsInOrder`.
- Aborts by a signal are failures at the next step. The diffs and details returned to the caller are left out.
- The parser's error messages and line numbers are left out; a patch it refuses is `None`.

Of the schema compiler:

- Descriptions, titles, `x-` annotations, and gated values and fields are left out: they do not change what is accepted.
- SchemaBundle.Compile: which schemas are named and asked for, in which order, is a parameter; so is what `control` and the pairing of operations
  with frames (gen-protocol-schema.ts:289-316) make of the frame schemas before they are compiled.
- Which schema object is meant is a number in the schema; a copy that a split makes names its original and its index.
- Acceptance is that of JSON Schema 2020-12 for schemas and documents alike. The runtime validator of base.ts:136-180 is
  left out; it looks at properties, items and bounds only where the type says so, and admits safe integers only.
- SchemaSplit.DiscriminatorSeparates: is about objects only; two branches without a type may both accept another value.
- The pattern language is a parameter, and numbers are real numbers.

Of the reports, notices and batches:

- AgentReports.Extension.Ask: the ids asked about are given; a call without ids is one about all that are filed.
- The wording of notices, the wake flag, and cutting a notice to its byte limit are left out. Ids of sub-agents are unique.
- `queueMonitorCompletion` is a delivery.
- Decoding of bytes to text is the chunking: chunks are the decoded pieces. The filter is a predicate on lines.
- Opening the file, byte order marks and invalid UTF-8 are left out of the line window.

Of the rest:

- The tokenizer of the type grammar is left out: tokens are given. `array<X>`, which the source reads as the same type
  as `X[]`, is a named type here.
- Version texts are split and checked before they are compared; numbers have no width.
- Contents are texts of Unicode characters, measured in bytes of UTF-8; lone surrogates are left out.
- Hashes, base64, HTTP and the check of a trimmed signature are parameters. Every writer of the branch is a publisher, and nobody
  forces a push.
- `stopServer`, `reportFailure` and `exhausted` do not throw.
- A process that is stopped leaves its `git worktree remove` to finish; nothing else of it goes on.
- Names of worktrees are not used again while a sweep is about to delete one of that name. Reading and setting
  modification times is reading and setting the modelled clock, which does not go back.
