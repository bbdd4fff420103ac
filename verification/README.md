# dev-cli verification

A Dafny model of the parts of dev-cli whose failures would lose or misattribute a
user's work: the agent transfer transaction with its planners, the MCP translators
and their config patching, the concurrent scans, the Git tree hash, the bounded
symlink resolver, and the protocols for archive sync, archive receipts, co-commit
finalization and CI sharding. `dafny verify dfyconfig.toml` checks all of it.

## How it is laid out

| files | what they model |
|---|---|
| `FileTree`, `Journal`, `Apply`, `Execution` | trees of files, directories and links with identities; one-entry publication; the journaled transaction; when a built plan runs to its end |
| `Builder`, `Undo`, `Limits` | the plan builder; undo plans and the round trip; concrete plans at the edges of both guarantees |
| `Order`, `Listing`, `Skills`, `Moves`, `Instructions` | the planners that use the builder |
| `Relations`, `Succession`, `MirrorRuns`, `Receipts` | receipts by status; receipts with what they wrote, over the disk; whole runs of refreshes and undos; the operations as they run |
| `McpValues`, `Mcp`, `McpCode`, `McpUndo`, `Toml` | five MCP dialects around one definition, stanza ownership, the TOML splice |
| `TreeHash`, `Symlinks` | the flat-list tree hash and the symlink resolver |
| `UpdatePool`, `ScanPool` | the two worker pools, under every schedule |
| `Shards`, `Audit` | the shard planner, runner and auditor |
| `IntentStore`, `CoCommit` | the revision-checked store and co-commit finalization |
| `Sync`, `Archive` | archive sync between clones; archive receipts against cleanup readiness |

Code that changes things step by step is a class or a method with loops, proved
against functions and predicates; the laws are lemmas about those. Digests are
injective, so a digest is represented by what it was taken of. Whatever the code only
asks of the outside (the platform, Git, helpers, other programs) may answer anything,
at any step.

## What the proofs show about the code

* A journal entry means the disk under every fault and crash; undo of any confirmed
  prefix restores the start contents (`Transaction.Service.RunEffects`,
  `Undoing.RoundTrip`, `Undoing.ApplyThenUndo`).
* A crash during apply leaves the status `applying`, which neither apply nor undo
  accepts, even when nothing is in flight; the exceptions are the very first write,
  after which the plan may be as it was, and the closing one, which may have saved the
  final status already (`Transaction.Service.Apply`).
* An undo plan is saved whenever the receipt stands, also on a tree where it cannot be
  carried out: a removed file cannot go back once somebody deleted the directory it was
  in. `Undoing.ReturnsIff` is the exact condition, `Undoing.UndoFrom` what then happens.
* A built plan can stop half way for one reason only: a directory over 256 entries,
  which its own effects may create. Undo has the same edge, and a second one where
  names differing only in case stand side by side (`Execution.BuiltPlanRuns`, `Limits`).
* At most one applied successor per receipt is not kept by every run. Undoing the living
  refresh is always fine and brings its predecessor back. But refresh a mirror of a
  source that reads A, then B, then A, then B, with a refresh that changes nothing after
  the first two: undoing those two revives a receipt that has been replaced, and the
  mirror ends with two applied successors (`MirrorRuns.TwoSuccessors`; a request that
  adopts records its stanza again and is never without effect).
  `Succession.SingleStep` gives the exact condition for one step.
* The MCP round trip fails for Codex when the bearer header is not written
  `Authorization`, and when rendered text breaks the text limits; these are the only
  failures (`Mcp.RoundTrip`). An MCP stanza recorded as empty is not saved, so its undo
  removes it (`McpOwnership.TransferUndone`).
* `patchTOML`'s last layout refusal cannot be reached (`Toml.SeenIfThere`), and neither
  can the owner walk's limit (`Relations.OwnerIsNear`), the recount of a shard plan
  (`Shards.ValidatePlan`) or the second ancestry check of a push (`Sync.AncestryStep`).
* A pull by a clone that is ahead ends partial, and so does a push overtaken before its
  check; nothing is lost in either case (`Sync.PullAlone`, `Sync.DeliveredStays`).
* A completed archive of a redacted file leaves the file pending when its private
  original is gone; apply itself never looks at the original
  (`Archiving.ReceiptAfterApply`).
* The symlink resolver cleans `..` lexically. Over the links it follows it agrees with
  the system as long as each `..` drops an existing entry; where it drops a missing name
  the system finds nothing, and where it drops a link the two may find different files
  (`Symlinks.AgreesWithSystem`, `Symlinks.LexicalUpDiffers`).

## Model

| member | source | states |
|---|---|---|
| `FileTree.PublishMeans` | internal/agentinterop/fs.go:176-224 | a supported one-entry step over the kind it expects is carried out, gives that location exactly the wanted entry, and leaves every other node, identity included, as it was |
| `FileTree.SnapshotClosed` | internal/agentinterop/fs.go:92-165 | in a tree, what a snapshot reports is exactly the entry there, an error for a directory over the listing limit, and absence below a directory that lacks the name |
| `Effects.StepRuns` | internal/agentinterop/apply.go:202-218 | every step of a good plan can be published on the disk that its prefix leaves, with its parent a directory and, for a removal, nothing below |
| `Effects.PrefixState` | internal/agentinterop/apply.go:174-251 | after any prefix the disk is a tree and holds exactly the predicted contents |
| `Effects.KeepsNode` | internal/agentinterop/apply.go:174-251 | a location that a stretch of a plan does not name keeps its very node |
| `Transaction.RefreshPosts` | internal/agentinterop/apply.go:232-242 | re-reading the confirmed directory images changes posts only, and succeeds exactly when every one of them can be listed |
| `Transaction.VerifyAncestors` | internal/agentinterop/apply.go:66-93 | accepts exactly when every ancestor is the directory last recorded for it, by identity and mode |
| `Transaction.Service.Save` | internal/agentinterop/apply.go:161-164 | the durable record changes as a whole or not at all, whatever the write reports |
| `Transaction.Service.Fail` | internal/agentinterop/apply.go:165-173 | a stopped run is recorded partial, or interrupted-unknown when an effect is in flight |
| `Transaction.Service.CheckStep` | internal/agentinterop/apply.go:176-201 | a step goes on exactly when posts (for removals and retirements), roots, ancestors and the Before image all hold |
| `Transaction.Service.PublishStep` | internal/agentinterop/apply.go:207-209 | the disk changes by exactly the effect or not at all, and only a platform failure or an unfit effect reports an error |
| `Transaction.Service.Confirm` | internal/agentinterop/apply.go:215-242 | confirmation succeeds exactly when the content read back is the planned one and all recorded directories can still be read; it then counts the effect |
| `Transaction.Service.ApplyEffect` | internal/agentinterop/apply.go:174-251 | under any faults both the durable record and the one in memory mean the disk as it is (JournalMeans), and a publication was attempted only after its checks |
| `Transaction.Service.Turn` | internal/agentinterop/apply.go:174-251 | one turn of the loop, with any edits by others before it, keeps what the journal means and advances by exactly one confirmed effect when it reports success |
| `Transaction.Service.RunEffects` | internal/agentinterop/apply.go:174-259 | wherever the run ends, errs or loses power: nothing in flight means exactly `completed` effects took place, `i` in flight means that many or one more, and every publication was preceded by all its checks; a crash leaves the status `applying` unless it falls on the closing write |
| `Transaction.Service.Close` | internal/agentinterop/apply.go:165-259 | the closing write makes exactly the status durable that the run came to, or leaves `applying` |
| `Transaction.FollowsOn` | internal/agentinterop/apply.go:174-251 | while others edit the disk between the effects, every location they leave alone shows exactly what the effects done so far make of it |
| `Transaction.Service.Apply` | internal/agentinterop/apply.go:95-264 | nothing changes unless every observation, root, parent and payload check passed; afterwards the journal means the disk, an applied record means all effects took place, and with no faults the run completes exactly when every step passes; a crash leaves `applying`, but for the very first and the closing write |
| `Execution.AncestorCheck` | internal/agentinterop/apply.go:66-93 | on the tree it was planned on, the ancestor check of a built plan fails only on a directory over the listing limit |
| `Execution.ConfirmIff` | internal/agentinterop/apply.go:215-242 | the confirming reads of a step succeed exactly when every confirmed directory is within the limit, and then every post is exact |
| `Execution.StepIff` | internal/agentinterop/apply.go:174-251 | one step of a built plan passes exactly when the directories it lists are within the limit, leaving exact posts |
| `Execution.BuiltPlanRuns` | internal/agentinterop/apply.go:174-251 | a built plan applied to the tree it was planned on runs to its end exactly when no directory it must list exceeds 256 entries; at the end every planned location shows its After and every other its old entry |
| `Execution.BuiltIsReady` | internal/agentinterop/apply.go:118-160 | no check before the first mutation refuses a built plan on the tree it was planned on |
| `Execution.ViewsFollow` | internal/agentinterop/apply.go:207-209 | as long as every publication can be carried out, the disk stays a tree and shows the predicted contents, whatever the plan |
| `Execution.OnlyBuiltPasses` | internal/agentinterop/apply.go:174-251 | a plan whose steps cannot follow one another never passes to its end |
| `Planner.Builder.Read` | internal/agentinterop/builder.go:55-83 | what is read is what the tree shows, ancestors are observed first, each observation becomes a guard, and each refusal has its own cause |
| `Planner.Builder.Current` | internal/agentinterop/builder.go:85-91 | a planned location shows its planned image, any other its present one |
| `Planner.Builder.Parents` | internal/agentinterop/builder.go:93-113 | all missing directories above a location, and nothing else, are planned, top down, and the plan stays one that can be carried out |
| `Planner.Builder.Change` | internal/agentinterop/builder.go:115-169 | adds at most one effect, exactly when the content differs; a location is never planned twice; the prediction becomes the old one with this entry; overlap, case collision and unreadable places are refused for exactly those reasons |
| `Planner.Builder.Write` | internal/agentinterop/builder.go:171-192 | predicts the file with the mode of the one that was there, plus missing parents, and without `replace` never other bytes over a file |
| `Planner.Builder.MakeLink` | internal/agentinterop/builder.go:194-212 | predicts the link plus missing parents, or changes nothing when it is there |
| `Planner.Builder.Remove` | internal/agentinterop/builder.go:214-223 | predicts the location gone and nothing else changed, provided what is below went first |
| `Planner.PlannedKept` | internal/agentinterop/builder.go:115-169 | a planned entry is kept by everything planned later |
| `Planner.ReadyIsBuilt` | internal/agentinterop/builder.go:225-234 | what a client of the builder leaves is a built plan: distinct locations, parents before children on create, children before parents on remove, accurate guards covering every ancestor |
| `Undoing.OneBack` | internal/agentinterop/apply.go:305-317 | putting an effect's Before image back leads exactly to the contents before it |
| `Undoing.StepPlanned` | internal/agentinterop/apply.go:305-317 | wherever an effect still shows, its step back is one that `change` accepts and plans, and it restores kind, bytes, link target and mode |
| `Undoing.BackAt` | internal/agentinterop/apply.go:305-317 | after j steps back, the locations of the last j effects show what they did at the start and every other location what it does now |
| `Undoing.ReturnsIff` | internal/agentinterop/apply.go:305-317 | on any later tree that still shows the effects, the steps back can follow one another exactly when everything replaced or removed has a directory to go back to, or one that goes back before it, and nobody put anything else into a directory that is to go |
| `Undoing.Rewinds` | internal/agentinterop/apply.go:305-317 | the reverse effects pass back through the very contents the original run passed through |
| `Undoing.RoundTrip` | internal/agentinterop/apply.go:268-322 | for every confirmed prefix: after j effects of the undo the tree holds what it held j effects earlier, and at the end exactly the start contents |
| `Undoing.PlanUndo` | internal/agentinterop/apply.go:268-322 | size limits aside, an undo plan exists exactly when nothing is in flight, the receipt still stands and no location is obstructed; wherever the effects still show it takes them back, last first, and it is a built plan exactly when everything has a place to go back to |
| `Undoing.SettledPrefix` | internal/agentinterop/apply.go:279-284 | a record that undo accepts counts exactly the effects that took place |
| `Undoing.UndoFrom` | internal/agentinterop/apply.go:95-322 | an undo from any later tree that still shows the effects, with any faults and others at work: each location they leave alone is restored once its step back is done and untouched otherwise, and undisturbed the undo completes exactly when everything has a place to go back to and the listing limit allows |
| `Undoing.ApplyThenUndo` | internal/agentinterop/apply.go:95-322 | a plan applied under any faults, then undone under any faults, always leaves the contents of some prefix of the plan, and the start contents when the undo completes |
| `Limits.BuiltPlanCanStop` | internal/agentinterop/apply.go:184-190 | a built plan that passes every check made before its first effect and still stops half way: it fills a directory past the listing limit |
| `Limits.AppliedPlanCanBeStuck` | internal/agentinterop/builder.go:126-141 | a plan that applies fully and cannot be undone, because the undo must list the overfull directory |
| `Limits.CaseVariantCannotReturn` | internal/agentinterop/builder.go:132-140 | removing one of two names that differ only in case cannot be undone |
| `Listing.ListShape` | internal/agentinterop/skills.go:42-104 | a listing has every directory before what is in it and names no place twice |
| `Listing.ListComplete` | internal/agentinterop/skills.go:42-104 | nothing at or below a plain location is missed |
| `Skills.ReadTree` | internal/agentinterop/skills.go:42-104 | on success the walk returned exactly the complete listing of a tree of plain files and directories without secrets |
| `Skills.CopyEntries` | internal/agentinterop/skills.go:231-253 | the prediction becomes the old one with exactly the listed entries, and the directories above, at the target |
| `Moves.CheckSkill` | internal/agentinterop/skills.go:106-129 | accepts exactly the listings with an acceptable SKILL.md at the top |
| `Moves.RemoveEntries` | internal/agentinterop/skill_move.go:244-248 | removal from the last entry to the first leaves nothing at or below the source, each directory after its contents |
| `Moves.RemoveConsumers` | internal/agentinterop/skill_move.go:192-233 | afterwards no other agent's link to the source remains, and without an owned lock any such link blocks the move |
| `Moves.LeaveLock` | internal/agentinterop/skill_move.go:234-243 | the source lock is rewritten and that effect is marked a retirement |
| `Moves.JoinLock` | internal/agentinterop/skill_move.go:96-160 | the destination lock gets the membership without touching anything at the source |
| `Moves.Retire` | internal/agentinterop/skill_move.go:161-250 | the source, or the link the move was asked for, is gone at the end, and nothing planned before is disturbed |
| `Moves.CopiedBeforeRetired` | internal/agentinterop/skills.go:231-272 | if no effect of a first part touches the source and the target is complete after it, every prefix of the whole plan shows each entry at one of the two places |
| `Moves.MoveEntries` | internal/agentinterop/skills.go:231-272 | a move plans all copies first: at every prefix each source entry is at the source or at the target, and at the end all are at the target and the source is gone |
| `Moves.RejectMember` | internal/agentinterop/skill_move.go:74-94 | a destination lock in another root or scope that lists the skill, or cannot be read, refuses the plan |
| `Moves.PlanSkill` | internal/agentinterop/skills.go:150-275 | copy, move and mirror end with the source's complete tree at the target (or the link) and never at a destination whose lock lists the skill; copy and mirror plan nothing inside the source, and a move never loses an entry at any prefix |
| `Moves.ApplyMove` | internal/agentinterop/apply.go:174-251 | applying a move under any faults, with others at work on the disk, at every crash point leaves every source entry whose two places they left alone at its old or its new one |
| `Instructions.PlanInstructions` | internal/agentinterop/instructions.go:50-140 | each mode ends with the source text shared as asked (copied, moved, linked or imported ahead of the existing text), and is refused for unreadable or secret text |
| `Instructions.PlanMirror` | internal/agentinterop/instructions.go:88-123 | the link or import form, and nothing written when the import line is there |
| `Instructions.PlanCopy` | internal/agentinterop/instructions.go:124-137 | the copy and move forms; a move keeps the bytes at one of the two places at every prefix |
| `Instructions.CheckConsumers` | internal/agentinterop/instructions.go:142-164 | passing means no other native link leads to the source |
| `Instructions.WrittenBeforeRemoved` | internal/agentinterop/instructions.go:127-137 | bytes written before the source is touched are never missing at any prefix |
| `Relations.OwnerIsNear` | internal/agentinterop/refresh.go:32-41 | in every reachable history the walk to the owner takes at most one step, so its limit of 32 is never met |
| `Relations.Kept` | internal/agentinterop/relations.go:64-123 | no operation changes what a receipt is, and none revives an undone one |
| `Relations.UndoneForGood` | internal/agentinterop/relations.go:75-84 | over any run a receipt that was undone stays undone |
| `Relations.SingleNext` | internal/agentinterop/relations.go:64-123 | one operation keeps at most one living successor per receipt exactly when it does not bring back a receipt whose other successor lives |
| `Relations.LivingUndoIsSafe` | internal/agentinterop/relations.go:88-121 | undoing the living successor itself never brings back a clash |
| `Relations.SingleRun` | internal/agentinterop/relations.go:64-123 | every run without such a clash keeps the succession single |
| `Relations.ClashGrows` | internal/agentinterop/relations.go:64-123 | after every clash one more renewal gives the receipt two living successors, the newer one applied and the other with the status it had |
| `Relations.OneUndo` | internal/agentinterop/relations.go:75-84 | of all undos of one receipt, at most one is ever applied |
| `Relations.OneAppliedSuccessor` | internal/agentinterop/relations.go:64-123 | in such a run no receipt has two applied successors with effects, and none beside an applied receipt |
| `Succession.StepIsNext` | internal/agentinterop/relations.go:64-123 | every operation on receipts with what they wrote, over the disk and the configuration files, changes their statuses exactly as the ledger of statuses says for the answers the disk gives |
| `Succession.RunSound` | internal/agentinterop/relations.go:64-123 | over any run every receipt keeps its record and its kind, parents are rooted, and the disk stays a tree |
| `Succession.SingleStep` | internal/agentinterop/relations.go:64-123 | with the disk's own answers: one operation keeps at most one living successor per receipt exactly when it does not bring back a receipt whose other successor lives |
| `Succession.OneAppliedSuccessor` | internal/agentinterop/relations.go:64-123 | in a run without such a clash, from any disk, no receipt has two living successors, and none beside an applied receipt |
| `Succession.UndoneOnce` | internal/agentinterop/apply.go:128-134 | once an undo of a receipt is applied, no other undo of it can be, whatever happens in between |
| `Succession.BackHolds` | internal/agentinterop/relations.go:85-118 | a receipt whose recorded content is there again verifies once its new identities are recorded |
| `Succession.Revival` | internal/agentinterop/relations.go:85-121 | an applied undo closes its receipt, brings the superseded predecessor back exactly when its recorded content is on the disk at that moment, so that its receipt verifies again, and changes no other receipt |
| `MirrorRuns.PutBackUndoes` | internal/agentinterop/mcp_ownership.go:101-129 | the files an undo plan writes hold what the first edit naming each stanza found there |
| `MirrorRuns.RefreshUndone` | internal/agentinterop/relations.go:85-121 | a refresh of a standing configuration mirror that changed the stanza, undone at once, always brings the mirror and its stanza back |
| `MirrorRuns.FileRefreshUndone` | internal/agentinterop/relations.go:85-121 | a refresh of a file mirror, undone at once, restores every location, applies the mirror again and leaves its receipt verifying on the new identities |
| `MirrorRuns.TwoSuccessors` | internal/agentinterop/relations.go:85-121 | from every world in which a configuration mirror stands, a run in which only the source changes, to A, B, A and B again, gives it two applied successors |
| `MirrorRuns.TwoFromNothing` | internal/agentinterop/relations.go:85-121 | the same run from the first plan on, with no receipt before it |
| `MirrorRuns.ClashContinues` | internal/agentinterop/relations.go:64-123 | after every clash over a configuration mirror one edit of the source and one refresh leave it two living successors, the newer one applied and the other with the status it had |
| `MirrorRuns.ClashReachesTwo` | internal/agentinterop/relations.go:64-123 | and a run after the clash in which only the source changes reaches two applied successors |
| `Receipts.Service.VerifyReceipt` | internal/agentinterop/mcp_ownership.go:35-57 | accepts exactly the receipts whose confirmed entries, or edited stanzas, are what is there now |
| `Receipts.Service.FindOwner` | internal/agentinterop/refresh.go:32-41 | finds the first receipt up the chain that changed something, within the limit of 32 steps |
| `Receipts.Service.Refresh` | internal/agentinterop/refresh.go:18-60 | plans exactly for an applied mirror whose owner's receipt verifies, with the owner as parent, and is the refresh step of the run model |
| `Receipts.Service.Compare` | internal/agentinterop/relations.go:101-118 | accepts exactly when each recorded post has the same content now, and then has recorded the new identities |
| `Receipts.Service.UpdateRelationship` | internal/agentinterop/relations.go:64-123 | undoes or supersedes the parent and brings a superseded predecessor back with its posts recorded anew, exactly as the run model settles it |
| `McpValues.SpellingReadsBack` | internal/agentinterop/mcp_model.go:61-131 | every reference a destination can spell is read back as the same reference |
| `McpValues.ValueRoundTrip` | internal/agentinterop/mcp_model.go:61-131 | a value one client's parser accepts and another's formatter can spell is read back unchanged exactly when the spelling passes the text tests |
| `Mcp.ParsedIsSound` | internal/agentinterop/mcp_model.go:161-388 | an accepted definition satisfies every client's rules other than those of spelling |
| `Mcp.StdioRoundTrip` | internal/agentinterop/mcp_model.go:401-447 | a rendered stdio server reads back as itself exactly when its environment text passes the text tests |
| `Mcp.HttpRoundTrip` | internal/agentinterop/mcp_model.go:448-501 | a rendered HTTP server reads back as itself exactly when its header text does and, for Codex, the bearer header is written Authorization |
| `Mcp.RoundTrip` | internal/agentinterop/mcp_model.go:161-506 | for all five clients on both sides: what the destination reads back is the definition that was accepted, exactly when `Readable` holds |
| `Mcp.OtherCaseIsRenamed` | internal/agentinterop/mcp_model.go:468-470 | for every endpoint and variable that pass the text tests, a bearer header written in another case is accepted and rendered for Codex, and comes back under another name |
| `McpTranslator.ReadEnvironment` | internal/agentinterop/mcp_model.go:285-303 | reads a table exactly when every name and value is allowed, each value parsed on its own |
| `McpTranslator.ForwardNames` | internal/agentinterop/mcp_model.go:304-318 | forwards names exactly when each is valid and new |
| `McpTranslator.ReadHeaders` | internal/agentinterop/mcp_model.go:323-350 | reads headers exactly when each is allowed, with the bearer prefix split off |
| `McpTranslator.SortHeaders` | internal/agentinterop/mcp_model.go:463-487 | for Codex, succeeds exactly when every header can be spelled, and splits them into literals, variables and a bearer |
| `McpTranslator.ParseMcp` | internal/agentinterop/mcp_model.go:161-388 | computes the parse that the round trip is about |
| `McpTranslator.RenderMcp` | internal/agentinterop/mcp_model.go:399-506 | computes the rendering that the round trip is about, with some bearer header chosen |
| `McpTranslator.Translate` | internal/agentinterop/mcp_model.go:161-506 | a translation that succeeds is read back as the same definition exactly when its text is readable for the destination |
| `McpOwnership.PlanUndo` | internal/agentinterop/mcp_ownership.go:101-129 | every edited stanza becomes what the first edit naming it found, every other one stays, with several edits of one file too; it never refuses while the receipt holds |
| `McpOwnership.RefusalExplained` | internal/agentinterop/mcp_ownership.go:115-118 | a patch is refused only when the receipt no longer holds, or names a stanza twice or not at all |
| `McpOwnership.UndoHolds` | internal/agentinterop/mcp_ownership.go:35-57 | after an undo its own receipt holds |
| `McpOwnership.UndoOfUndo` | internal/agentinterop/mcp_ownership.go:101-129 | undoing an undo brings every stanza of every file back |
| `McpOwnership.PlannedIsOwned` | internal/agentinterop/mcp.go:275-312 | a transfer records exactly the one or two stanzas it edits, with what they were; its receipt then holds and nothing else changed |
| `McpOwnership.TransferUndone` | internal/agentinterop/mcp_ownership.go:101-129 | a transfer, any unrelated edits, then its undo: each edited name equals its non-empty Before or is absent, every other name keeps its current value |
| `Toml.FindBlocks` | internal/agentinterop/toml.go:65-125 | succeeds exactly on the supported layouts and cuts the file into ordered, disjoint tables with their comments |
| `Toml.Splice` | internal/agentinterop/toml.go:147-167 | everything outside the selected tables survives in order with the replacement in one place; all other servers say what they said and the selected one says the replacement |
| `Toml.PatchToml` | internal/agentinterop/toml.go:43-172 | exactly the supported layouts are patched; the selected server looks up as the new fields or is gone, all else is untouched in meaning and in text |
| `Toml.SeenIfThere` | internal/agentinterop/toml.go:126-128 | in a supported layout a server that is there has a table, so this refusal is never reached |
| `Toml.OtherServers` | internal/agentinterop/toml.go:147-167 | what is said about another server is not affected by leaving one out |
| `TreeHash.TreeDepends` | internal/agentskill/installed_hash.go:104-146 | the hash under a prefix depends on nothing but the files under it |
| `TreeHash.FlatIsDirect` | internal/agentskill/installed_hash.go:97-146 | the hash of the flat list equals the direct recursive hash of the nested directory, directories sorted as name plus slash |
| `TreeHash.HashTells` | internal/agentskill/installed_hash.go:112-145 | equal hashes mean the same names, bytes and execute bits |
| `TreeHash.OrderFree` | internal/agentinterop/provider.go:167-219 | the hash is the same for every order of the file list; this copy of the code is the same recursion |
| `TreeHash.SortMembers` | internal/agentskill/installed_hash.go:130-139 | members come out in the one ascending order of their keys |
| `TreeHash.HashTree` | internal/agentskill/installed_hash.go:104-146 | the closure terminates on every list of distinct names and computes the specified hash |
| `UpdatePool.GroupRows` | internal/agentskill/update.go:86-125 | rows that need no source get their outcome, all others are listed once under their URL and ref |
| `UpdatePool.KeyTells` | internal/agentskill/update.go:114-115 | without NUL in the URL a group key stands for one URL and ref |
| `UpdatePool.SendNeverWaits` | internal/agentskill/update.go:143-148 | a worker with a result never waits for room in the channel |
| `UpdatePool.NeverStuck` | internal/agentskill/update.go:150-206 | an unfinished pool can always step |
| `UpdatePool.StepUsesUp` | internal/agentskill/update.go:150-206 | every step lowers a bound fixed at the start, so the pool ends under every fair schedule |
| `UpdatePool.RunInv` | internal/agentskill/update.go:150-211 | the invariant holds after any schedule of any number of workers |
| `UpdatePool.FinalResults` | internal/agentskill/update.go:150-211 | at the end each group has its row-by-row results and was cloned exactly once |
| `UpdatePool.Merge` | internal/agentskill/update.go:212-217 | rows in groups get their verdict, all others keep what they had, in input order |
| `UpdatePool.CheckUpdates` | internal/agentskill/update.go:86-219 | for every worker count and schedule that ends: rows in input order equal the sequential check, each (URL, ref) is cloned exactly once and every checkable row has one |
| `ScanPool.PoolStep` | internal/agentmcp/scanner.go:234-305 | every step of every worker keeps the invariant of the shared promise cache |
| `ScanPool.NeverStuck` | internal/agentmcp/scanner.go:240-259 | no deadlock: whoever waits for a pending read waits for a worker that can step |
| `ScanPool.StepUsesUp` | internal/agentmcp/scanner.go:281-305 | every step lowers a bound fixed at the start |
| `ScanPool.FinalResults` | internal/agentmcp/scanner.go:275-325 | at the end each target has the rows of all its sources from the same cached bytes, and no file was read twice |
| `ScanPool.RowsAreDirect` | internal/agentmcp/scanner.go:510-570 | rows read through the cache are those of reading directly, if files do not change |
| `ScanPool.ScanSource` | internal/agentmcp/scanner.go:510-570 | one source through the cache, with its approval files |
| `ScanPool.ScanHost` | internal/agentmcp/scanner.go:261-269 | host sources, each file read once |
| `ScanPool.Scan` | internal/agentmcp/scanner.go:224-331 | for every schedule that ends, no (path, project root) is read twice and the sorted result is that of a one-worker scan |
| `Symlinks.ResolveSymlinkPath` | internal/agentmcp/read.go:89-125 | the loop and recursion terminate on every link graph and compute the specified resolution |
| `Symlinks.ResolveBoundedSymlinks` | internal/agentmcp/read.go:81-87 | an answer has no link among its prefixes; it exists exactly when a link-free path is reached within the limit, and the limit error means that one more link remains |
| `Symlinks.ResolveMeans` | internal/agentmcp/read.go:89-125 | which of the three outcomes occurs, by the number of links alone |
| `Symlinks.ResolvedIsLinkFree` | internal/agentmcp/read.go:89-125 | a successful answer has no link among its prefixes and took at most `limit` links |
| `Symlinks.LimitOnlyRefuses` | internal/agentmcp/read.go:107-109 | raising the limit changes no answer but a refusal for too many links |
| `Symlinks.CycleIsRefused` | internal/agentmcp/read.go:107-109 | a chain that returns to a path it has been at is refused at every limit |
| `Symlinks.AgreesWithSystem` | internal/agentmcp/read.go:89-125 | over the links followed from the path: if `..` drops only entries where the walk stands, the resolver finds exactly what the system finds with the same number of links; if it first drops a name that is not there the system finds nothing, so the two part exactly when the resolver finds something |
| `Symlinks.WalkTarget` | internal/agentmcp/read.go:105-125 | cleaning a link target lexically leads where walking it does as long as `..` drops only entries, and the walk fails once it drops a missing name |
| `Symlinks.UpFirstIsFine` | internal/agentmcp/read.go:112-122 | in a tree whose link targets have their `..` first, nothing else is ever dropped |
| `Symlinks.LexicalUpDiffers` | internal/agentmcp/read.go:112-122 | with a `..` after a name the lexical cleaning leads to another file than the system finds |
| `Shards.FewerFit` | scripts/windows-shards.py:62-78 | fewer names never cost more command units |
| `Shards.BatchesHold` | scripts/windows-shards.py:91-102 | the batches hold the names in order, each fits, and none could take the next name |
| `Shards.FewestBatches` | scripts/windows-shards.py:91-102 | no other way of cutting the names into fitting batches needs fewer commands |
| `Shards.SplitShard` | scripts/windows-shards.py:88-102 | the greedy loop gives those batches, and refuses exactly when some name is invalid or does not fit alone |
| `Shards.MakeTasks` | scripts/windows-shards.py:81-107 | planning succeeds exactly when every whole package and every root fits a command of its own, and gives the specified inventory numbered in order |
| `Shards.EveryRootOnce` | scripts/windows-shards.py:86-102 | each discovered root of a split package is named by exactly one command, and no other name is |
| `Shards.EveryPackageOnce` | scripts/windows-shards.py:83-85 | each other package has exactly one command, for the whole of it |
| `Shards.ValidatePlan` | scripts/windows-shards.py:110-130 | a plan is accepted exactly when it is the planner's own; the final recount never refuses |
| `Auditing.ObserveLog` | scripts/windows-shards.py:157-184 | counts root starts and ends, package end and failures of exactly this package |
| `Auditing.CleanProves` | scripts/windows-shards.py:177-184 | a log passes exactly when every expected root started once and finished once, the package ended and nothing failed |
| `Auditing.RunTask` | scripts/windows-shards.py:198-230 | a command is okay exactly when it exited with zero in time and its log proves it |
| `Auditing.RunShard` | scripts/windows-shards.py:233-256 | every command of the shard, and no other, is reported; the exit code is zero exactly when all are okay |
| `Auditing.AuditResult` | scripts/windows-shards.py:271-288 | one result is accepted exactly when its own log proves it and its ledger agrees |
| `Auditing.Audit` | scripts/windows-shards.py:259-292 | the loops accept exactly the audits of `AuditOk` |
| `Auditing.EachTaskOnce` | scripts/windows-shards.py:290-291 | an accepted audit saw every planned command exactly once |
| `Auditing.AuditProves` | scripts/windows-shards.py:259-292 | an accepted audit means that, over all logs, each root of a split package started exactly once and passed or was skipped exactly once |
| `Auditing.WholePackageRan` | scripts/windows-shards.py:259-292 | and that each other package ran whole, to its end, without a failure |
| `Auditing.AuditOfRuns` | scripts/windows-shards.py:233-292 | the reports of all shards are accepted exactly when every planned command passed |
| `IntentStore.Store.Create` | internal/artifact/store.go:58-94 | an intent is created exactly when it is valid, its id is free and every stored intent is readable and of another run; runs stay distinct |
| `IntentStore.Store.UpdateIfRevision` | internal/artifact/store.go:218-271 | a write takes place exactly when the named revision is of the intent stored now and the change is acceptable; it stores that change stamped, spends the revision unless nothing changed, and touches nothing else; stale means missing or another revision |
| `IntentStore.UpdateIsOverReviewed` | internal/artifact/store.go:237-271 | a write happens only over the very intent the caller named, and nothing else changes |
| `IntentStore.SecondWriter` | internal/artifact/store.go:250-252 | of two writers with one revision the second gets through exactly when the first wrote back the same bytes |
| `IntentStore.NoLostUpdate` | internal/artifact/store.go:237-271 | however many writers race, each one that gets through read exactly what the one before it wrote, and the last is what is stored |
| `CoCommit.Finalizer.Invoke` | internal/artifact/co_commit.go:657-684 | one helper call then a fresh inspection; going on means the binding matches and the call worked or a commit is proven |
| `CoCommit.Finalizer.CommitPrepared` | internal/artifact/co_commit.go:696-716 | the commit-capable call is made only after the second guard, recheck and match |
| `CoCommit.Finalizer.Attempt` | internal/artifact/co_commit.go:632-721 | the unproven branch: going on means a proven commit, over an intent marked finalizing |
| `CoCommit.Finalizer.Record` | internal/artifact/co_commit.go:725-741 | the finalized write is over exactly the intent read, right after its commit was verified |
| `CoCommit.Finalizer.Finalize` | internal/artifact/co_commit.go:584-745 | under arbitrary helper, Git, guard and store behaviour the history of a run is safe, nothing at all happens without authorization, and a committed result is stored |
| `CoCommit.CutShort` | internal/artifact/co_commit.go:584-745 | a run cut short at any point has a safe history |
| `CoCommit.CommitOnce` | internal/artifact/co_commit.go:690-717 | at most one commit-capable call in a run |
| `CoCommit.CommitWasPrepared` | internal/artifact/co_commit.go:690-717 | before that call a prepare-only call left the journal prepared, the guard passed again, the store still held the marked intent and head, branch and index were as queued, for the very journal revision passed |
| `CoCommit.CommittingIsReconciled` | internal/artifact/co_commit.go:639-688 | a journal first seen committing gets one reconcile-only call and no other |
| `CoCommit.FinalizedIsProven` | internal/artifact/co_commit.go:501-579 | an intent is stored as finalized only right after its commit was read back with the queued head as only parent, the prepared tree and one matching trailer |
| `Sync.SyncStep` | internal/agenthistory/sync.go:110-285 | each step of each clone keeps the invariant and everything reachable from the remote branches and all heads |
| `Sync.AncestryStep` | internal/agenthistory/sync.go:243-248 | the second ancestry check cannot refuse |
| `Sync.SendStep` | internal/agenthistory/sync.go:249-252 | a leased push, or one whose head is there already, only moves the remote branch forward |
| `Sync.VerifyStep` | internal/agenthistory/sync.go:253-256 | a push is complete exactly when the remote branch is its own head at the check |
| `Sync.MergeStep` | internal/agenthistory/sync.go:268-270 | a fast-forward drops nothing that a head could reach |
| `Sync.RunKeeps` | internal/agenthistory/sync.go:110-285 | for any number of clones and any interleaving with crashes, what the remote branches and each head can reach never shrinks |
| `Sync.CompletePushIsPublished` | internal/agenthistory/sync.go:253-256 | the head of a push marked complete is on the remote branch, then and ever after |
| `Sync.DeliveredStays` | internal/agenthistory/sync.go:249-256 | a push that reached the remote stays published even when its report was lost or it was overtaken before the check |
| `Sync.BrokenLease` | internal/agenthistory/sync.go:250-252 | a branch never comes back to a commit it has left, so a broken lease stays broken |
| `Sync.PullAlone` | internal/agenthistory/sync.go:257-275 | undisturbed, a current pull completes exactly when the clone has no commit of its own beyond the remote one; otherwise it ends partial |
| `Sync.Archives.ApplySync` | internal/agenthistory/sync.go:190-285 | with everyone else active between any two steps, one apply keeps everything reachable, changes only its own plan, and a complete status means what it says |
| `Archiving.VerifyReceipt` | internal/agenthistory/archive.go:535-560 | accepts exactly complete receipts whose commit is reachable, whose blobs are the archived bytes and whose redacted originals are kept |
| `Archiving.Receipts` | internal/agenthistory/find.go:147-168 | collects exactly the verified archive receipts of this project, and gives no answer when a stored plan does not load |
| `Archiving.Ready` | internal/agenthistory/find.go:129-206 | lists as pending exactly the sources without a verified receipt for their current bytes; ready means none |
| `Archiving.ReadyMeansRecoverable` | internal/agenthistory/find.go:181-200 | a regular source is off the pending list exactly when a verified receipt of the project can give its current bytes back, from a blob of its reachable commit or from its own private original |
| `Archiving.History.PreviewArchive` | internal/agenthistory/archive.go:139-294 | each snapshot's digest is of the source bytes, and both the original and the payload are kept under the plan |
| `Archiving.History.ValidateSnapshots` | internal/agenthistory/archive.go:305-330 | passing means every source is untouched and every payload is the reviewed one |
| `Archiving.History.Put` | internal/agenthistory/archive.go:441-449 | an archive file is written only where there is none or the same one |
| `Archiving.CommitIsReviewed` | internal/agenthistory/archive.go:505-533 | a verified commit is exactly the pinned head with the reviewed files on top |
| `Archiving.History.Publish` | internal/agenthistory/archive.go:387-492 | a finished publication is one commit on the pinned head that changes only this project's part of the archive and holds every reviewed payload |
| `Archiving.History.ApplyArchive` | internal/agenthistory/archive.go:332-503 | complete means archived, with unchanged sources, at the archive's head; existing commits, archive files and other plans are untouched whatever happens, and a stopped apply is partial |
| `Archiving.ReceiptAfterApply` | internal/agenthistory/archive.go:535-560 | right after a completed apply the receipt verifies exactly when every redacted original is still kept |
| `Archiving.ArchivedIsCovered` | internal/agenthistory/find.go:181-200 | after a completed apply an archived file is off the pending list exactly when every redacted original of the plan is still kept or another receipt has a copy |
| `Archiving.History.ArchiveAndCheck` | internal/agenthistory/find.go:129-206 | preview, apply and readiness in a row: a chosen file of a completed apply is pending exactly when an original was lost and no other receipt has a copy, and none is lost while the private files are left alone |
| `Archiving.EvidenceSurvives` | internal/agenthistory/archive.go:535-560 | what other plans had proved stays proved after a completed apply |

## Left out

- Undoing.PlanUndo: when an observation limit (count or total size) is hit, only the refusal itself is modelled.
- Planner.Builder.Read: the bytes of directory listings are not part of the total-size limit.
- Transaction.Service.Apply: other programs may edit the disk between two effects, not between the checks of one effect and its publication; the code has the same window.
- Transaction.Service.RunEffects: updating the parent receipts after a run is in `Succession` and `Receipts`, where an application of files is what its confirmed effects leave; crashes inside that update are left out.
- Undoing.UndoFrom: the tree at the start of the undo is arbitrary but must still show the confirmed effects, which the receipt check compares.
- Moves.PlanSkill: the install mode and the refusal for an active cross-project mirror are left out, and lock files are read through policy functions; scope roots are taken as disjoint.
- Instructions.PlanInstructions: EvalSymlinks of other agents' links is a predicate on the link.
- Succession.StepIsNext: configuration files are kept apart from the tree, as maps of stanzas; a file plan is any plan the builder may have left; a move's source lock, consumers and instructions are in `Moves` and `Instructions`.
- MirrorRuns.TwoSuccessors: stated for configuration mirrors that do not adopt; file mirrors share the ledger lemmas.
- Mcp.RoundTrip: the launcher and environment bindings of planMCP are left out, and so are JSON null, unknown agents and header names that collide after Unicode case folding; case folding is ASCII.
- McpOwnership.PlanUndo: the files are maps of stanzas, so JSON and TOML layout is left to `Toml` and to the JSON patch library.
- Toml.PatchToml: works on lines with known expressions; the encoder, CRLF conversion and the final reparse are left out.
- TreeHash.HashTree: hashes are injective terms; the SHA-256 folder hash beside it is left out.
- UpdatePool.CheckUpdates: no cancellation; URL and path validation are predicates of a row.
- ScanPool.Scan: no cancellation; adapters are functions of the bytes read, and the final sort is a given function of the rows.
- Symlinks.ResolveSymlinkPath: the tree does not change during a resolution, and Windows volume names are left out; every Lstat or Readlink error counts as absence.
- Shards.MakeTasks: the message of a refusal, word characters beyond ASCII, and argument quoting by list2cmdline are left out (import paths and root names contain none of the characters it quotes).
- Auditing.Audit: a log is a list of decoded events, and a plan's digest is the plan.
- IntentStore.Store.Create: timestamps are whole numbers, and of the intent's fields those that no check or proof reads are left out.
- CoCommit.Finalizer.Finalize: helper and tool identity checks are one unconstrained answer; queueing and review previews are left out.
- Sync.Archives.ApplySync: URL, cleanliness, key and lock checks can only refuse and are not modelled; users commit and merge but do not reset or switch branches.
- Archiving.History.ApplyArchive: attribute checks, scan inputs and checkout tokens other than the head are one unconstrained answer; which files a session selects is a parameter.
- Archiving.Ready: directory walking, depth limits and the readiness fingerprint are left out.
- File permissions beyond mode bits, umask, Windows ACLs, leftover temporary names and real file identities.
- Reserved names and Unicode tables in location checks; name folding is ASCII.
- History migration, backup publication and the taskflow integration, which repeat the shapes above.
- Agent registries, host path tables, provider processes, connection checks and the command line, which hold only field copies and plumbing.
