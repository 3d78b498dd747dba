# Verified model of klyntbot's activity log, subagents and release numbering

A Dafny 4.11 model of four parts of the repository, with proofs about them. `dafny verify dfyconfig.toml` checks the whole project.

**Work-context inference** (`Tables`, `LinkRows`, `CoAccess`, `Jaccard`, `Vectors`, `Scoring`, `Listing`, `MergePass`, `MergeGate`, `MergeOutcome`, `GateClosure`, `TypeVote`, `InferenceModel`, `InferenceSpec`, `InferenceTicks`, `Engine`). The inference loop assigns logged events to work contexts by a stable argmax of a weighted score, keeps a centroid per context, builds a co-access graph of resources, and merges contexts pairwise. SQL tables are sets of rows or maps; the SQL statements, the passes over them and the tick loop are methods of a class whose fields are the tables and the centroid cache. Which storage calls and which embeddings fail is an input: calls are numbered, and a run is clean exactly when none of its calls failed and every text it needed embedded. The merge pass is proved to leave a forest: every removed context has one surviving root, links are conserved along it, and when all merges commit no two survivors pass the gate. Every turn of a batch, every merge pass and every tick is tied to a relation between the states before and after that is exact whenever no call of its own failed, and theorems about runs of ticks follow from these relations. `event_count` is tied to the log by a ledger that holds after every statement, also where a failure cuts an operation short.

**Ingestion** (`Ingestion`, `IngestQueue`, `Text`). Truncate, exclude, flag, deduplicate and insert, one entry at a time, as a batch, and behind a bounded queue that drops when full.

**Subagents** (`SubagentPool`, `SubagentRuntime`, `ProgressForwarder`, `PartialSummary`). Two step machines whose runs are all interleavings: the ephemeral pool (semaphore, handle table, progress map, events) and the persistent runtime (status rows, cancel tokens, events, spawn, resume and kill, with every repository call allowed to fail). Classes perform the steps on fields and are tied to the machines step by step.

**Release numbering** (`Decimal`, `Calendar`, `SemVer`, `Release`). The release script on tag strings, the calendar it computes with, version texts and the precedence of section 11 of Semantic Versioning 2.0.0, and histories of tagging.

## What the proofs found

- A threshold that is not positive lets the assignment unwrap an empty choice; exactly the positive thresholds are safe (`Scoring.SafeThresholds`). The thresholds come from user configuration (`crates/activity-log/src/inference.rs:45-55`).
- The handler that edits a work context writes back a whole row it read earlier. The write keeps `event_count` right exactly when the copy's count is still current (`Tables.WriteKeepsLedgerIffCurrent`); a copy read before an assignment and written back in the middle of it loses the event (`Tables.StaleCopyLosesAnEvent`, `Tables.StaleCopyIsReachable`).
- Merging does not add co-access edges, so it keeps contexts cliques exactly when the two resource sets were already joined across (`CoAccess.MergeKeepsCliquesIff`); two accesses reach tables where they are not (`CoAccess.MergeCanBreakAClique`).
- Merging can join two contexts that never passed the gate (`MergeOutcome.MergesJoinUngatedContexts`). Over given titles, centroids and resources, every pass joins only gated contexts if and only if the gate is transitive on them, and failures are not to blame: the same holds of the passes in which every merge commits (`GateClosure.JoinsOnlyGatedIff`).
- A batch takes the 500 oldest waiting rows. A waiting row with fewer than 500 others at least as old gets a context at the next undisturbed tick exactly if it embeds, and keeps it; one behind 500 older rows gets none at that tick, even if those can never be embedded (`InferenceTicks.TickServesInTime`, `InferenceTicks.CoveredRowsAreAssigned`).
- A similarity threshold or an overlap threshold above one leaves only contexts with equal titles to be merged (`MergeGate.OutOfReachLeavesTitles`).
- A batch equals one-by-one ingestion exactly when its surviving entries have pairwise distinct hashes (`Ingestion.BatchEqualsOneByOneIff`); two entries with one hash are stored twice by the batch (`Ingestion.SharedHashIsStoredTwice`).
- The preview limit is tested in bytes and applied in characters; the result is the first 500 characters for every text (`Ingestion.TruncationKeepsFirst500`).
- `update_status` reads, then writes. A kill between the two reports Killed and is overwritten (`SubagentRuntime.KilledCanBeOverwritten`). A terminal status survives every continuation exactly when no call or kill of the agent stands between its read and the write of another status (`SubagentRuntime.TerminalSurvivesIff`). Its documentation says that transitions out of terminal states are forbidden; the model follows the code.
- Idle is written before the token is unregistered, so a fast resume can lose its token and no kill can reach it (`SubagentRuntime.FastResumeLosesItsToken`); `SubagentRuntime.LostIff` says exactly which steps throw out a token, and a registered call is registered or fired in every continuation up to the end of its finalization if and only if its row cannot be resumed and no other call of the agent can still reach the registry (`SubagentRuntime.KeepsTokenIff`).
- After a user cancels an ephemeral subagent its detached forwarder can leave a progress entry behind (`SubagentPool.LeftoverProgress`): at rest an entry is left exactly for the agents whose forwarder wrote after their entry was dropped (`SubagentPool.LeftoverIff`), and those were cancelled by the user (`SubagentPool.AtQuiescence`).
- With a maximum of zero concurrent subagents a spawned one waits for ever; with any other maximum nothing gets stuck (`SubagentPool.NeverStuckIff`).
- A legacy stable tag of a year outside 20xx is accepted by the stable channel but not listed by the alpha channel, so an alpha ranks above every stable version exactly when each such tag names a date before today or before the day after a listed one (`Release.AboveEveryStableIff`). The release workflow triggers on the same two patterns and never releases such a tag by itself (`.github/workflows/release-stable.yml:3-7`).
- A listed stable tag that names no calendar date, such as one with month 13, makes every later alpha run fail (`Release.FailsIff`, `Release.FailuresPersist`, `Release.MonthThirteenBlocksAlphas`).
- The dotted stable branch prints its digit groups raw, so `stable-v2026.06.16` yields a text that is not a version (`Release.LeadingZeroIsNoVersion`); `Release.StableTextIsVersionIff` gives the exact condition.

## Model

| member | source | states |
|---|---|---|
| LinkRows.UpdateOrIgnore | crates/activity-log/src/work_context_repo.rs:207-224 | visiting the rows in any order keeps the primary key at every row, moves each row unless its new key is taken, and leaves exactly the conflicting rows behind |
| LinkRows.DeleteOwner | crates/activity-log/src/work_context_repo.rs:226-236 | removes the rows of the removed context and no others |
| LinkRows.MoveStep | crates/activity-log/src/work_context_repo.rs:207-224 | one visited row keeps the key unique and moves exactly one row of the set-level specification |
| LinkRows.MergedMeaning | crates/activity-log/src/work_context_repo.rs:199-237 | after update and delete `keep` owns the union, `remove` owns nothing, rows `keep` had win with their score and dates, other contexts are unchanged, nothing is invented |
| LinkRows.AnyRowOrder | crates/activity-log/src/work_context_repo.rs:207-237 | every order of visiting the rows yields the same table |
| MergePass.PassesGate | crates/activity-log/src/inference.rs:491-513 | the sequence of early exits passes a pair exactly when both centroids are cached and the titles are equal or both similarities reach their thresholds |
| MergePass.CollectCandidates | crates/activity-log/src/inference.rs:481-524 | the nested loops collect the specified candidate list, in order |
| MergePass.CandidatesAreGatedPairs | crates/activity-log/src/inference.rs:486-520 | a pair is a candidate exactly when it comes from two listed rows that pass the gate, oriented toward the busier or earlier one |
| MergeGate.PairedIff | crates/activity-log/src/inference.rs:486-520 | two listed contexts are paired if and only if both have a centroid and their titles are equal, or the cosine of the centroids and the overlap of the resources both reach their thresholds |
| MergeGate.SimilarityDecides | crates/activity-log/src/inference.rs:491-513 | with a centroid each and different titles the two similarities alone decide |
| MergeGate.OutOfReachLeavesTitles | crates/activity-log/src/inference.rs:491-544 | with either threshold above one, only contexts with equal titles are ever merged, whatever fails |
| MergeGate.LowThresholdsPairAll | crates/activity-log/src/inference.rs:491-513 | with thresholds every pair reaches, exactly the pairs with two centroids are candidates |
| MergeGate.StricterPairsLess | crates/activity-log/src/inference.rs:491-513 | raising either threshold only removes candidates |
| MergePass.ReplayIsReplayable | crates/activity-log/src/inference.rs:526-544 | for any candidates and any failures, no context absorbs itself and a removed context never takes part again, so removed ids are distinct |
| MergePass.CommittedCandidatesAreSettled | crates/activity-log/src/inference.rs:530-542 | of every candidate whose merge would commit, one side is gone at the end |
| MergePass.SmoothRunMergesAll | crates/activity-log/src/inference.rs:526-544 | the loop with its storage calls, tried candidate by tried candidate, merges what a pass with every commit merges when none of the calls fails |
| MergePass.RootsSurvive | crates/activity-log/src/inference.rs:526-544 | following `keep` ends at a survivor, and survivors are their own roots |
| MergePass.RootFollowsKeep | crates/activity-log/src/inference.rs:526-544 | a removed context and the one that absorbed it have the same root |
| MergePass.RootIsUnique | crates/activity-log/src/inference.rs:526-544 | any assignment that is constant along `keep` and fixes the survivors is the root assignment |
| MergePass.Conservation | crates/activity-log/src/inference.rs:526-544 | after any chain of merges a survivor owns an item exactly when some context with that root owned it; no row is invented, survivors keep their own rows |
| MergePass.Untouched | crates/activity-log/src/inference.rs:526-544 | contexts that no merge names keep exactly their rows |
| MergeOutcome.CandidatesDescend | crates/activity-log/src/inference.rs:515-520 | every candidate keeps a context that strictly precedes the removed one in (event_count descending, index ascending) |
| MergeOutcome.RootOutranks | crates/activity-log/src/inference.rs:515-544 | the root of a listed context is listed, precedes or equals it, and counts at least as many events |
| MergeOutcome.TopSurvives | crates/activity-log/src/inference.rs:515-544 | the context nothing precedes is never removed |
| MergeOutcome.SurvivorsAreApart | crates/activity-log/src/inference.rs:486-544 | two survivors that pass the gate are explained only by a failed merge of that very pair |
| MergeOutcome.TitlesBecomeUnique | crates/activity-log/src/inference.rs:496-544 | with all centroids present and all merges committed, surviving titles are pairwise distinct |
| MergeOutcome.MergesJoinUngatedContexts | crates/activity-log/src/inference.rs:526-544 | a pass in which two contexts that fail the gate end under one root |
| GateClosure.JoinsOnlyGatedIff | crates/activity-log/src/inference.rs:486-544 | for given titles, centroids and resources: every pass, whatever the counts, the listing order and the failures, joins only contexts that pass the gate pairwise, if and only if the gate is transitive on them; and every pass in which all merges commit, under the same condition |
| GateClosure.TransitiveGateSuffices | crates/activity-log/src/inference.rs:486-544 | under a transitive gate contexts with one root pass the gate pairwise, for any snapshot and any failures |
| Jaccard.Bounds | crates/activity-log/src/inference.rs:855-866 | range, symmetry, one exactly for equal non-empty sets, zero exactly for disjoint sets |
| Jaccard.NearTransitive | crates/activity-log/src/inference.rs:855-866 | J(a,b) + J(b,c) is at most 1 + J(a,c) for all finite sets |
| Jaccard.OverlapsCompose | crates/activity-log/src/inference.rs:503-513 | two overlaps of at least t force the third to be at least 2t - 1 |
| Jaccard.OverlapChain | crates/activity-log/src/inference.rs:503-513 | along a chain of gated overlaps the ends lose at most 1 - t per link |
| Vectors.CauchySchwarz | crates/common/src/helpers.rs:138-158 | the square of a dot product is at most the product of the squared norms |
| Vectors.UpdateInPlace | crates/activity-log/src/inference.rs:383-397 | the in-place blend, measure and divide loops compute the specified centroid |
| Vectors.AbsorbedNorm | crates/activity-log/src/inference.rs:391-397 | the stored centroid has squared norm one, or zero when the blend is the zero vector, and its old length |
| Vectors.AbsorbMovesToward | crates/activity-log/src/inference.rs:383-397 | for every rate in [0,1] and all vectors, zero and mismatched ones included, the cosine to the absorbed vector never drops |
| Vectors.RateZeroKeeps | crates/activity-log/src/inference.rs:391-397 | at rate zero a centroid of norm one is unchanged |
| Vectors.RateOneReplaces | crates/activity-log/src/inference.rs:391-397 | at rate one the result is the event divided by its norm |
| Vectors.LargerRateMovesFurther | crates/activity-log/src/inference.rs:391-397 | of two rates the larger ends at least as close to the event |
| Vectors.CosineMeaning | crates/common/src/helpers.rs:138-158 | between -1 and 1, symmetric, one for a vector with itself, zero where it is undefined |
| Scoring.Choose | crates/activity-log/src/inference.rs:238-262 | reuses exactly when the maximum reaches a positive threshold, and then the earliest context attaining it; otherwise creates, or fails on an empty choice |
| Scoring.OneDecision | crates/activity-log/src/inference.rs:238-306 | exactly one decision satisfies the specification of the choice |
| Scoring.SafeThresholds | crates/activity-log/src/inference.rs:261-262 | no event ever unwraps an empty choice if and only if the threshold is positive |
| Scoring.WeightsApply | crates/activity-log/src/inference.rs:243-245 | a change of the semantic or the temporal part counts with its own weight and no other |
| Scoring.ResourceCounts | crates/activity-log/src/inference.rs:243-245 | naming a resource adds the resource weight divided by the number of resources of a context that has it, and nothing elsewhere |
| Scoring.TitleCounts | crates/activity-log/src/inference.rs:247-253 | 0.20 exactly for the same title, 0.10 or more exactly when one contains the other, else nothing |
| InferenceModel.ScoreOfWeighs | crates/activity-log/src/inference.rs:238-253 | the score of a listed context in an event takes its parts with the configured weights |
| InferenceModel.AgeWeighs | crates/activity-log/src/inference.rs:238-253 | listed contexts that differ in age differ in score by the temporal weight of that |
| CoAccess.LinkMeaning | crates/activity-log/src/context_resource_repo.rs:10-34 | linking keeps the key, adds the resource to one context and changes no other |
| CoAccess.LinkDates | crates/activity-log/src/context_resource_repo.rs:10-34 | a link keeps the date of its first access and takes score and date of its last |
| CoAccess.ConnectToMembers | crates/activity-log/src/inference.rs:441-457 | the edge loop raises exactly the edges to the other members, and a failed upsert only leaves one out |
| CoAccess.RunsFormCliques | crates/activity-log/src/inference.rs:440-459 | over every run of accesses, from any tables in which contexts are cliques without self-edges and so from empty ones, that stays so |
| CoAccess.AccessKeepsMesh | crates/activity-log/src/inference.rs:440-459 | one access keeps every context a clique, from any such tables |
| CoAccess.RunMembers | crates/activity-log/src/context_resource_repo.rs:10-34 | after any accesses a context holds exactly what it held and what was accessed in it |
| CoAccess.WeightCountsAccesses | crates/activity-log/src/resource_edge_repo.rs:8-27 | an edge weight grows by the number of accesses of its source while its target was already in the accessed context |
| CoAccess.GrownWeights | crates/activity-log/src/inference.rs:440-459 | from the tables before to those after a run of the loop whose storage calls succeed and which merges nothing, each weight grows by the count of its accesses |
| CoAccess.NeighborsAreSymmetric | crates/activity-log/src/resource_edge_repo.rs:29-43 | s is a neighbour of r with a weight as often as r is one of s with it |
| CoAccess.MergeKeepsCliquesIff | crates/activity-log/src/work_context_repo.rs:199-237 | a merge keeps all contexts cliques if and only if the two resource sets are joined across |
| CoAccess.MergeCanBreakAClique | crates/activity-log/src/work_context_repo.rs:199-237 | two accesses from empty tables reach cliques that the merge of their contexts breaks |
| Tables.LedgerStep | crates/activity-log/src/work_context_repo.rs:128-152 | every statement the loop issues keeps keys unique and every event_count equal to its assigned log rows plus what is still owed |
| Tables.LedgerOverRuns | crates/activity-log/src/inference.rs:144-183 | in every order of statements, wherever it is cut, no context undercounts, and counts agree exactly when nothing is owed |
| Tables.StatsAddUp | crates/activity-log/src/work_context_repo.rs:128-152 | over any assignments counts and durations add up, the last one dates the context, nothing else changes |
| Tables.RetentionIff | crates/activity-log/src/repo.rs:308-316 | expiry removes exactly the rows older than the cutoff and touches nothing else |
| Tables.CountsAgreeOverOperations | crates/activity-log/src/inference.rs:261-346 | through every interleaving of complete operations each event_count is the number of log rows assigned to the context |
| Tables.WriteKeepsLedgerIffCurrent | crates/app-core/src/handlers/work_context.rs:87-118 | writing back a whole row keeps the ledger if and only if its event_count is current |
| Tables.StaleCopyLosesAnEvent | crates/app-core/src/handlers/work_context.rs:87-118 | for all tables: a row copied before an assignment and written back before its end breaks the ledger, and one more log row points at the context than it counts |
| Tables.StaleCopyIsReachable | crates/activity-log/src/inference.rs:261-346 | a legal run from empty tables reaches a context with one event counted and assigned and another event waiting |
| Listing.OrderedList | crates/activity-log/src/repo.rs:236-251 | ORDER BY with LIMIT: distinct, ordered, and nothing left out comes before anything returned |
| Engine.ContextInferenceEngine.Merge | crates/activity-log/src/work_context_repo.rs:199-262 | the transaction has the set-level effect on both link tables, deletes the context and records the merge, or changes nothing |
| Engine.ContextInferenceEngine.ArchiveDormant | crates/activity-log/src/work_context_repo.rs:184-197 | archives exactly the active contexts older than the cutoff and returns how many |
| Engine.ContextInferenceEngine.ListActive | crates/activity-log/src/work_context_repo.rs:85-94 | every active context once, as stored, latest first |
| Engine.ContextInferenceEngine.UpdateCentroid | crates/activity-log/src/inference.rs:383-402 | the cached centroid becomes the absorbed one, starting from the event's own vector when there was none |
| Engine.ContextInferenceEngine.EnsureCentroids | crates/activity-log/src/inference.rs:87-141 | a new entry is the embedding of the row of its active context, no cached centroid changes, every active context that embeds is covered, and it is clean exactly when none is left without a centroid |
| Engine.ContextInferenceEngine.LinkEventResources | crates/activity-log/src/inference.rs:415-462 | uses the id of the event or a fresh one, keeps rows of contexts and counts, and when no call failed, which is when it is clean, links that resource and raises exactly the edges to the members |
| Engine.ContextInferenceEngine.AutoEnrich | crates/activity-log/src/inference.rs:548-622 | writes the enriched decorations of the one context when no call fails, and never a count or a confidence |
| Engine.ContextInferenceEngine.RefreshContext | crates/activity-log/src/inference.rs:288-298 | recomputes the confidence from the stored count and the number of linked resources, zero when counting them failed, and enriches the decorations of the one context; exactly so when no call fails |
| Engine.ContextInferenceEngine.AssignToExisting | crates/activity-log/src/inference.rs:261-305 | the chosen row gains one event, its duration and the time and is weighed anew, its centroid absorbs the event, its resource is linked, no other row changes; exactly so when no call fails |
| InferenceModel.ElapsedMeaning | crates/activity-log/src/inference.rs:267-282 | a duration the event carries counts as it is, otherwise the gap to the last activity within 0 and 1800 seconds |
| InferenceModel.FreshRow | crates/activity-log/src/inference.rs:306-330 | the row of a new context: title, decorations, one event, its duration if given, confidence 0.3 |
| Engine.ContextInferenceEngine.AssignToNew | crates/activity-log/src/inference.rs:306-346 | one new active context under a fresh id with count one, its resource linked and its centroid the event, nothing else changed; exactly so when no call fails |
| Engine.ContextInferenceEngine.AssignEvent | crates/activity-log/src/inference.rs:195-347 | follows the score decision, with the whole effect on tables and centroids when no call fails; an event that does not embed changes nothing; whatever fails leaves at most one count unmatched and then the event unassigned |
| Engine.ContextInferenceEngine.ProcessOne | crates/activity-log/src/inference.rs:163-181 | one turn assigns the row of its event and no other, with the whole effect of the assignment when none of its calls fails; the batch stops only when the last call, the row update, failed after the assignment |
| Engine.ContextInferenceEngine.ProcessRecentEvents | crates/activity-log/src/inference.rs:144-183 | reads the oldest unassigned events and runs one turn for each in order, each exact unless a call of its own fails; rows outside that list keep their values; without a failed call exactly the listed events that embed are assigned and reported, in order, and nothing new is owed |
| InferenceSpec.BatchAssigns | crates/activity-log/src/inference.rs:163-181 | in a batch an event is assigned only if it embeds, and one that embeds stays unassigned only because a call failed |
| InferenceSpec.SmoothBatchAssigns | crates/activity-log/src/inference.rs:163-181 | without a failed call exactly the events that embed are assigned and reported, in order, for any batch size |
| InferenceModel.OldestAreServed | crates/activity-log/src/repo.rs:236-251 | a batch takes at most 500 waiting rows, in order of time, and none left out is older |
| Engine.ContextInferenceEngine.ExecuteMerges | crates/activity-log/src/inference.rs:526-544 | the loop tries every candidate with both sides left, one call each, and performs exactly the merges whose call succeeds: tables, merge records and centroid cache |
| Engine.ContextInferenceEngine.CheckMergeCandidates | crates/activity-log/src/inference.rs:468-545 | a pass over a fresh snapshot is a replay of the candidates of a gate that has the engine's thresholds, its centroids with the missing ones embedded, and the resources as each read returned them; which failures make it unclean is determined; when clean it leaves unique active titles |
| InferenceModel.TitlesUniqueAfterPass | crates/activity-log/src/inference.rs:468-545 | from a snapshot of the table to the table after the pass: active titles are pairwise distinct |
| Engine.ContextInferenceEngine.PruneArchivedCentroids | crates/activity-log/src/inference.rs:626-642 | keeps exactly the centroids of active contexts, or all when the listing fails |
| Engine.ContextInferenceEngine.ArchivalTick | crates/activity-log/src/inference_loop.rs:80-89 | archives exactly the dormant contexts and then cuts the cache down to the active ones, so it stays within them |
| Engine.ContextInferenceEngine.InferenceTick | crates/activity-log/src/inference_loop.rs:51-79 | keeps the ledger and the cache safe; without a failed storage call it owes nothing new and, when nothing was merged, links and edges grow by the accesses made, so contexts stay cliques; with the embedder up too it is clean and leaves unique active titles |
| Engine.ContextInferenceEngine.RunTick | crates/activity-log/src/inference_loop.rs:46-89 | each tick is the run of its kind; after an undisturbed inference tick with room for the backlog exactly the waiting rows that embed are assigned and, with the embedder up, active titles are distinct; after an archival tick no active context is older than the cutoff |
| InferenceTicks.TickServesInTime | crates/activity-log/src/inference_loop.rs:51-65 | an undisturbed tick gives a waiting row a context exactly if it embeds when fewer than 500 others are at least as old, and leaves it alone when 500 are older |
| InferenceTicks.TickLeavesUniqueTitles | crates/activity-log/src/inference_loop.rs:66-79 | after an undisturbed inference tick with the embedder up active titles are pairwise distinct |
| InferenceTicks.TickArchives | crates/activity-log/src/inference_loop.rs:80-89 | after an archival tick no active context is older than the cutoff, and those archived were |
| InferenceTicks.CoveredRowsAreAssigned | crates/activity-log/src/inference_loop.rs:46-89 | over every schedule a row that an undisturbed inference tick covers in time, and that embeds, has its context at the end whatever fails later, unless rows expire |
| InferenceTicks.ArrivalsWait | crates/activity-log/src/inference_loop.rs:46-89 | a row that arrives waits as it came until an inference tick or expiry |
| InferenceTicks.AssignedStays | crates/activity-log/src/inference_loop.rs:46-89 | an assigned row keeps its context through every later tick without expiry |
| Engine.ContextInferenceEngine.ReclassifyGeneral | crates/activity-log/src/inference.rs:646-682 | puts active general contexts to the vote of their latest five events: each row is as it was or as its vote makes it, all of them as voted exactly when no call failed; same contexts, same counts, same active ones |
| TypeVote.Vote | crates/activity-log/src/inference.rs:659-671 | counting and taking the maximum yields a type that no other outvotes |
| TypeVote.StrictMajorityWins | crates/activity-log/src/inference.rs:659-671 | a type named by more than half of the events is the only winner, in whatever order the map is read |
| TypeVote.AskedAreLatest | crates/activity-log/src/repo.rs:267-284 | at most five events of the context are asked, and none left out is later |
| TypeVote.RetypedRow | crates/activity-log/src/inference.rs:673-680 | a row that changes gets a winning type other than general and its colour, and keeps the rest |
| Engine.ContextInferenceEngine.RunLoop | crates/activity-log/src/inference_loop.rs:23-94 | over every schedule of ticks and arriving rows each tick is the run of its kind, in order, after the startup vote; the ledger holds; when no storage call fails, whatever fails to embed, counts agree unless rows expire, and without merges links and edges grow by exactly the accesses made and contexts stay cliques; with the embedder up too the run is clean and the cache stays within the active contexts |
| Ingestion.TruncationKeepsFirst500 | crates/activity-log/src/types.rs:113-119 | for every text the result is its first 500 characters, and truncating twice changes nothing |
| Ingestion.ListsLookAtTheirField | crates/activity-log/src/privacy.rs:34-90 | applications are matched with the application lists, resources with the URL lists, exclusion and sensitivity each with their own, without regard to case |
| Ingestion.StoredEntry | crates/activity-log/src/service.rs:26-37 | what is stored is the entry with its preview cut and its flag set by a match and cleared by nothing |
| Ingestion.IngestKeepsLogClean | crates/activity-log/src/service.rs:26-51 | ingestion keeps: no excluded row, every sensitive match flagged, previews short, ids and hashes pairwise distinct |
| Ingestion.IngestIsIdempotent | crates/activity-log/src/service.rs:39-50 | ingesting an entry again never adds a row |
| Ingestion.ActivityIngestionService.Ingest | crates/activity-log/src/service.rs:26-51 | the row it adds, when it declines, and that an error changes nothing |
| Ingestion.ActivityIngestionService.InsertBatch | crates/activity-log/src/repo.rs:46-82 | all rows in order with their count, or none when one is refused |
| Ingestion.ActivityIngestionService.IngestBatch | crates/activity-log/src/service.rs:54-80 | appends the survivors of the filters in order and returns their number, or changes nothing |
| Ingestion.BatchEqualsOneByOneIff | crates/activity-log/src/service.rs:54-80 | a batch the table takes equals one-by-one ingestion if and only if its survivors have distinct hashes |
| Ingestion.SharedHashIsStoredTwice | crates/activity-log/src/service.rs:54-80 | whatever the filter, a batch of two entries with one hash keeps both where one-by-one ingestion keeps the first |
| IngestQueue.StepKeepsInv | crates/activity-log/src/service.rs:112-133 | offering, receiving and finishing keep the queue invariant |
| IngestQueue.EveryReachableState | crates/activity-log/src/service.rs:112-133 | in every reachable state: first in first out, never over the buffer, every offer accepted or dropped in order, and the log is the one-by-one ingestion of what was processed |
| IngestQueue.ReplayedIsClean | crates/activity-log/src/service.rs:112-133 | the log of any processed entries, some failed, stays clean |
| IngestQueue.ConsumerDrains | crates/activity-log/src/service.rs:117-123 | the consumer has a step exactly while there is a backlog, and each lowers it |
| IngestQueue.DroppedIff | crates/activity-log/src/service.rs:128-133 | over every run an offer is dropped if and only if exactly the buffer size of accepted entries is unreceived, whatever the consumer is busy with |
| IngestQueue.NothingDroppedIff | crates/activity-log/src/service.rs:128-133 | a run drops nothing if and only if fewer were unreceived at each offer |
| IngestQueue.BatchIngestionService.IngestNonblocking | crates/activity-log/src/service.rs:128-133 | never waits: queues the entry if there is room, else drops it |
| IngestQueue.BatchIngestionService.Drain | crates/activity-log/src/service.rs:117-123 | the receive loop empties the queue and keeps the invariant whatever fails |
| SubagentPool.StepKeepsInv | crates/agent/src/subagent.rs:288-471 | every step of spawn, cancel, run and cleanup keeps the pool invariant |
| SubagentPool.EveryInterleaving | crates/agent/src/subagent.rs:288-471 | permits held plus available is the maximum; the handle table holds exactly the ids neither cancelled nor past removal; each id emits Spawned, then at most one terminal event |
| SubagentPool.AtQuiescence | crates/agent/src/subagent.rs:390-447 | at rest the table is empty, all permits are back, each id reported once, and a progress entry is left only by a user-cancelled run |
| SubagentPool.ReportsTellTheOutcome | crates/agent/src/subagent.rs:400-447 | at rest Completed tells the success a run had, and Cancelled whether the user or a failure ended it, if and only if the run ended so |
| SubagentPool.EveryOutcomeHappens | crates/agent/src/subagent.rs:366-447 | every outcome is reached by a run that comes to rest |
| SubagentPool.ProgressIff | crates/agent/src/subagent.rs:374-391 | in every interleaving an agent has a progress entry if and only if some forward of it has no drop after it |
| SubagentPool.LeftoverIff | crates/agent/src/subagent.rs:374-391 | at rest an agent has an entry if and only if its forwarder wrote after the drop |
| SubagentPool.LeftoverProgress | crates/agent/src/subagent.rs:374-391 | a reachable run in which such an entry is left |
| SubagentPool.NeverStuckIff | crates/agent/src/subagent.rs:367-372 | no interleaving gets stuck if and only if the maximum is positive |
| SubagentPool.InternalStepsUseUpWork | crates/agent/src/subagent.rs:366-447 | each step of a spawned subagent lowers a measure, so they come to rest |
| SubagentPool.SubagentManager.CancelSubagent | crates/agent/src/subagent.rs:456-471 | succeeds exactly for an id in the table, and then removes it and fires its token |
| SubagentPool.SubagentManager.InsertNewHandle | crates/agent/src/subagent.rs:288-301 | a spawn enters its handle under a new id, as the machine does |
| SubagentPool.SubagentManager.Advance | crates/agent/src/subagent.rs:303-447 | each section of spawn's background work does the step of the machine on the fields |
| SubagentPool.SubagentManager.Settle | crates/agent/src/subagent.rs:366-447 | in any scheduling order everything ends with an empty table and all permits back |
| SubagentRuntime.StepKeepsInv | crates/agent/src/subagent_runtime.rs:213-474 | every statement of spawn, resume and kill, failing or not, keeps the runtime invariant |
| SubagentRuntime.TokensInEveryInterleaving | crates/agent/src/subagent_runtime.rs:30-58 | a token is registered only for a run in flight; a run in flight lacks its token only if one kill fired it or another call threw it out |
| SubagentRuntime.NoStaleTokens | crates/agent/src/subagent_runtime.rs:284-287 | when every call has returned, whatever its outcome, the registry is empty |
| SubagentRuntime.LostIff | crates/agent/src/subagent_runtime.rs:36-53 | a token is thrown out if and only if another call of the same agent registers or unregisters while it is in the registry |
| SubagentRuntime.KeepsTokenIff | crates/agent/src/subagent_runtime.rs:213-443 | a registered call whose row exists is, in every continuation, registered or fired up to the end of its finalization, if and only if the row cannot be resumed and no other call of the agent is at a statement from which it can still register or unregister |
| SubagentRuntime.EventsInEveryInterleaving | crates/agent/src/subagent_runtime.rs:170-210 | a registered spawn emits Spawned, Progress 1, 2, ..., k, then one terminal event; a resume the same without Spawned; an abandoned call nothing |
| SubagentRuntime.OutcomesInEveryInterleaving | crates/agent/src/subagent_runtime.rs:499-531 | Completed, with success, exactly when the finalization wrote Idle; after a cap hit Cancelled, with StoppedTurn and a non-empty summary written if and only if no repository call of the finalization failed or found the row terminal in the run |
| SubagentRuntime.TerminalSurvivesIff | crates/storage/src/repos/subagent_instance.rs:120-141 | a terminal status survives every continuation if and only if no call or kill of the agent has read the row and still has to write another status |
| SubagentRuntime.FailedSetupAbandons | crates/agent/src/subagent_runtime.rs:213-415 | a storage call that fails during setup ends the call for good and changes nothing else |
| SubagentRuntime.FailedKillChangesNothing | crates/agent/src/subagent_runtime.rs:447-474 | a storage call that fails during a kill ends it with an error and changes no row |
| SubagentRuntime.KilledCanBeOverwritten | crates/storage/src/repos/subagent_instance.rs:120-141 | a reachable state in which a kill reported Killed and the row is Idle |
| SubagentRuntime.FastResumeLosesItsToken | crates/agent/src/subagent_runtime.rs:284-285 | a reachable state in which a resumed call is running and the registry is empty |
| SubagentRuntime.ActiveSubagentRegistry.Cancel | crates/agent/src/subagent_runtime.rs:41-48 | true exactly when a token was there, which it removes and fires |
| SubagentRuntime.SubagentRuntime.RunStatement | crates/agent/src/subagent_runtime.rs:213-443 | each statement of spawn and resume does the machine's step on rows, registry and events |
| SubagentRuntime.SubagentRuntime.Beat | crates/agent/src/subagent_runtime.rs:170-188 | the heartbeat does the machine's step: the counter goes up by one and is reported |
| SubagentRuntime.SubagentRuntime.KillStatement | crates/agent/src/subagent_runtime.rs:447-474 | each statement of kill does the machine's step |
| SubagentRuntime.SubagentRuntime.Finish | crates/agent/src/subagent_runtime.rs:284-286 | undisturbed and with storage up: Idle and Completed, or StoppedTurn with the partial summary and Cancelled, or the row as it was and Cancelled; never a token left |
| SubagentRuntime.SubagentRuntime.Spawn | crates/agent/src/subagent_runtime.rs:213-262 | undisturbed: a running row, a token, and Spawned |
| SubagentRuntime.SubagentRuntime.Resume | crates/agent/src/subagent_runtime.rs:376-416 | undisturbed: goes through if and only if the row is Idle or StoppedTurn, and then the row runs under a new token; otherwise nothing changes |
| SubagentRuntime.SubagentRuntime.KillAgent | crates/agent/src/subagent_runtime.rs:447-474 | undisturbed: fires the token if there is one; a Failed, Completed or Killed row keeps its status, any other becomes Killed |
| PartialSummary.TruncateChars | crates/common/src/helpers.rs:113-122 | the counting loop keeps at most the given number of characters and appends the suffix only when it cut |
| PartialSummary.TrimMeaning | crates/agent/src/subagent_runtime.rs:538-541 | trimming cuts off white characters at both ends only, and all of them |
| PartialSummary.SummaryIsShortAndNotEmpty | crates/agent/src/subagent_runtime.rs:537-543 | the summary is never empty, never over 2001 characters, and the trimmed text itself when that is short enough |
| ProgressForwarder.ProgressBoard.Forward | crates/agent/src/subagent.rs:804-834 | the event loop leaves the projected snapshot, sends the projected Progress events and touches no other agent's entry |
| ProgressForwarder.FreshAgent | crates/agent/src/subagent.rs:810-829 | for a fresh agent the snapshot is the last iteration or 0 and the last tool if any, and there is none exactly when no event was relevant |
| ProgressForwarder.StartsAreAll | crates/agent/src/subagent.rs:810-824 | Progress events correspond one to one and in order to the iteration starts |
| ProgressForwarder.EmittedMeaning | crates/agent/src/subagent.rs:816-824 | each Progress event carries its agent, the count of its start and the last tool started before it |
| ProgressForwarder.SmallCountsAreShown | crates/agent/src/subagent.rs:810-824 | counts that fit into 32 bits are shown as they were sent |
| ProgressForwarder.LastToolMeaning | crates/agent/src/subagent.rs:812-815 | the tool each carries is that of the last ToolStart before it |
| ProgressForwarder.StreamSplits | crates/agent/src/subagent.rs:807-834 | cutting the stream anywhere changes neither snapshot nor events |
| Decimal.PaddedReadsBack | scripts/compute-release-version.py:50-50 | a zero-padded number reads back as itself |
| Calendar.OrdinalIsTheOrder | scripts/compute-release-version.py:35-36 | comparing dates field by field is comparing day numbers |
| Calendar.NextDayAddsOne | scripts/compute-release-version.py:81-81 | adding a day gives a valid date with the next day number, for every date but 9999-12-31 |
| Calendar.NextDayIsLeast | scripts/compute-release-version.py:81-81 | the next day is the earliest later date |
| Calendar.OrdinalByFormula | scripts/compute-release-version.py:81-81 | the day number is that of the closed formula of the Gregorian calendar |
| Calendar.MonthLengths | scripts/compute-release-version.py:35-36 | every month has the length that formula gives it |
| SemVer.PrecedenceIsTotal | RELEASE.md:5-8 | precedence by section 11 of Semantic Versioning 2.0.0 orders any two versions strictly in exactly one way |
| SemVer.PrecedenceIsTransitive | RELEASE.md:5-8 | precedence is transitive |
| SemVer.SectionElevenExample | RELEASE.md:5-8 | the example chain of section 11 of Semantic Versioning 2.0.0 is ordered as printed there |
| SemVer.VersionReadsBack | RELEASE.md:7-8 | every version reads back from its text |
| Release.DottedFormat | scripts/compute-release-version.py:27-29 | the matcher accepts exactly the dotted tags, with exactly their groups |
| Release.LegacyFormat | scripts/compute-release-version.py:31-34 | the matcher accepts exactly the legacy tags, with exactly their groups |
| Release.LatestStableDate | scripts/compute-release-version.py:23-37 | the scan fails exactly when a listed tag names no calendar date, and otherwise finds the latest named date if any |
| Release.AlphaDateIsLeast | scripts/compute-release-version.py:79-81 | the alpha date is the earliest one not before today and after the latest stable date |
| Release.NextAlphaVersion | scripts/compute-release-version.py:40-52 | the number is one more than the largest used with the prefix, and the three names carry it |
| Release.NumbersCountUp | scripts/compute-release-version.py:40-52 | the next alpha of a day is numbered above every tag printed for that day, and has a predecessor unless it is the first |
| Release.FifthAlpha | scripts/compute-release-version.py:40-52 | after `alpha-v2026.3.7-alpha.0004` come the names of the fifth alpha |
| Release.ReleaseAlpha | scripts/compute-release-version.py:79-83 | the alpha branch yields the specified outcome for any order of the tags |
| Release.OutcomeIsDetermined | scripts/compute-release-version.py:23-52 | the set of tags and the date determine the outcome |
| Release.OutcomeExists | scripts/compute-release-version.py:79-83 | every set of tags has an outcome on every day |
| Release.FailsIff | scripts/compute-release-version.py:26-36 | the alpha branch fails if and only if a listed tag names no calendar date or the last representable one |
| Release.AlphaTextReadsBack | scripts/compute-release-version.py:49-49 | the printed version is a version text of exactly that date and number |
| Release.AlphasIncrease | scripts/compute-release-version.py:79-83 | over every history with a clock that never goes back, each alpha ranks strictly above every earlier one |
| Release.AlphaIsFreshAndAboveStables | scripts/compute-release-version.py:40-52 | over every history each alpha has a new tag and ranks above every stable version git lists |
| Release.FailuresPersist | scripts/compute-release-version.py:26-36 | after one failed alpha run all later ones fail |
| Release.MonthThirteenBlocksAlphas | scripts/compute-release-version.py:26-36 | with `stable-v2026.13.1` among the tags every alpha run fails |
| Release.HiddenIff | scripts/compute-release-version.py:24-24 | a stable tag is not listed if and only if it is legacy and its year does not start with 20 |
| Release.AboveEveryStableIff | scripts/compute-release-version.py:23-37 | an alpha ranks above every stable version if and only if each unlisted tag names a date before today or before the day after a listed one |
| Release.BeforeNextAlphaIff | scripts/compute-release-version.py:79-81 | the tags and the clock alone tell which dates lie before the next alpha |
| Release.HiddenStableOutranksAlpha | scripts/compute-release-version.py:24-24 | a tag for 2100-01-01 outranks the next alpha |
| Release.StableTextIsVersionIff | scripts/compute-release-version.py:65-74 | the stable text is a version if and only if its printed groups have no leading zero, and then it is the named date and the one text of that version |
| Release.LeadingZeroIsNoVersion | scripts/compute-release-version.py:65-74 | `stable-v2026.06.16` is accepted and its text is not a version |

## Left out

- SQLite, LanceDB persistence, the embedder and the language model: tables, fields and functions that may fail stand for them. A statement that reports a failure is taken to have changed nothing; an error after a successful commit is not modelled.
- Timestamps are integers; `exp` decay, the confidence formula, case folding, and the inference of titles, colours, tags, descriptions and of the type that one event suggests are arbitrary functions.
- Floating-point rounding and NaN: reals are exact, and the square root is any function with its defining property.
- Columns that the loop never reads (project links, embedding ids, creation dates, edge dates) and the sources and actors of log entries.
- ULIDs are modelled as ids never issued before, and subagent ids of the ephemeral pool as positions; hashes are opaque texts compared for equality.
- Contexts and rows edited by other handlers while the loop runs, apart from rows that arrive and expire between ticks and the whole-row write above.
- `max_active_contexts`, `assign_event` outside a batch, recording of inference runs, and the startup delay and intervals of the loop.
- `ingest_fire_and_forget`, whose duplicate check races, normalizers, and a channel that is closed.
- The text the ephemeral pool announces on the inbound bus, hooks, tool registries and the registry cache; the event stream is assumed to have a sender installed.
- Callers that drop a spawn halfway: the calls are assumed to run on.
- Fairness of the semaphore: any waiting subagent may get a permit.
- The turn counters of a subagent row, the wrap-around of the runtime's 32-bit iteration counter, the startup sweep of zombie rows, and deletion of sessions with their rows.
- Whether a fired token ends the loop, and with which result: any loop result may follow at any time.
- Digits outside ASCII, which the script's patterns also match, and version texts with build metadata.
- An alpha run whose tag is never created; a history records the tag of each successful run.
- Keyword chains, desktop user interface, language bindings, benches, macros and build configuration.
- Tables.CountsAgreeOverOperations: stated for complete operations without storage failures; with failures counts can exceed the log, by exactly what the ledger calls owed.
- Engine.ContextInferenceEngine.RunLoop: count agreement excludes schedules in which log rows expire, because deletion does not lower the counts.
- SubagentRuntime.OutcomesInEveryInterleaving: says nothing about the status a loop error leaves, because the code leaves the row Running.
