# Context engine: verified model

A model of the deterministic engines of the context service, with proofs of what they promise.

- **Reconciliation** (`Model`, `Screen`, `ScreenOrder`, `Reconciliation*`, `WellFormedViews`, `Reconciler`). A saved view is merged with
  a fresh resolution of its task against another revision of the machine model. `Reconciled` is the specification;
  `Reconciler.Reconcile` is the engine function with its loops, and refines it. The specification has two extra
  arguments: the order in which the two hash maps of old dependencies are walked, which the language leaves open. All
  results hold for every order. A *well-formed* view is one that `resolve_task` or an earlier reconciliation made.
- **Journal** (`Crc32c`, `Frames`, `FrameLog`, `OperationalStore`, `JournalCorruption`). The file is a sequence of bytes,
  a crash keeps any prefix of it. CRC-32C is the checksum of section 12.1 of RFC 3720.
- **Retrieval** (`PromptTerms`, `Retrieval`, `Budget*`, `RetrievalProperties`, `Retriever`, `RetrievalCache`, `Pipeline`,
  `InterpretationRuns`, `CacheExamples`).
  Scoring, scope, the budget loop, the caches of retrievals and interpretations, and the way from a prompt to a view
  by rules alone. The length of a serialised object is a function parameter.
- **Saved views** (`ViewTable`, `ViewProtocol`, `ViewHistories`) and **telemetry** (`Telemetry*`) under concurrency: every
  critical section and every atomic operation is one step, threads hold what they computed from a snapshot, and all
  interleavings are considered.
- **Worker pool** (`WorkerPool`), **bounded cache** (`BoundedCache`), **CSV and bundle import** (`Csv`, `Tables`, `Import`,
  `Bundle*`), from the texts of the tables to a model that the engine accepts. The CSV dialect is that of section 2 of
  RFC 4180.

Imperative code is modelled by methods and classes whose contracts equate the result or the new state with a
specification function; the properties are lemmas about those functions. Character data are sequences of `char`,
one for each byte.

Five findings deserve a reader's attention:

1. Reconciling an alarm view twice with one model can change it once more. `ReconciliationTwice.FixedPoint` gives the
   exact condition, `ReconciliationExamples.OnePassIsNotEnough` an instance; an overview is always settled after one pass.
2. The result of a first pass can be too large for the next one. Each bound alarm can add two issues and the fresh view
   one more, against a limit of 4096. `ReconciliationLimits.SecondFits` says exactly when: 2048 alarms, each redefined and
   on a changed tag of its own, none in scope any more. `ReconciliationExamples.TooManyIssues` is an instance.
3. The status of a saved view can fall. A view in conflict that a new model refuses to reconcile is marked for review, and
   nothing in its status tells the conflict any more: `ViewHistories.ChangeKeepsBlocks` gives the exact condition,
   `ViewHistories.ConflictForgotten` an instance. Its blocked components stay blocked, over whole runs
   (`ViewHistories.BlocksStickInRuns`).
4. A model may spell a numeric data type in capitals, but telemetry then takes the tag for text, and an alarm on it can
   never be shown with a value: `TelemetryNumbers.AlarmShownExactly` and `TelemetryNumbers.CapitalsSilence`. Imported
   models are not concerned (`TelemetryNumbers.ImportedAlarmsShow`).
5. The key of the interpretation cache is one string with separators, and the name of the interpreter in it is looked up
   before it is checked. Keys tell everything apart as long as that name holds no separator, which is all the names under
   which anything is stored; `RetrievalCache.KeyDetermines` gives the exact condition for equal keys, and
   `CacheExamples.OddModeHits` is a run in which two prompts share one.

The retrieval cache by itself would answer a prompt that is empty or too long if a prompt of the same spelling had been
answered (`RetrievalCache.RetrievalHitIsFresh`), but the routes reject such prompts before they reach it, so that for
every request the answer is that of retrieval itself (`RetrievalCache.RouteIsTransparent`), and that of retrieval and
rules themselves when both caches work together (`InterpretationRuns.CachesAreTransparent`).

## Model

| member | source | states |
|---|---|---|
| Model.IndexItems | src/context_hmi/model_validation.cpp:157-185 | One loop of the indexer accepts exactly the arrays whose items are all valid and whose identifiers are all distinct, and then returns the map from identifier to item. |
| Model.IndexModel | src/context_hmi/model_validation.cpp:130-266 | The indexer succeeds exactly on valid models and returns their four lookup maps; anything else is an invalid model. |
| Model.AlarmFacts | src/context_hmi/model_validation.cpp:231-264 | In an accepted model every alarm is found by its identifier, and its tag exists and has the same owner. |
| Screen.RequestedRoles | src/context_hmi/screen_composer.cpp:42-58 | The role loop accepts exactly the nonempty lists of at most 16 distinct, nonempty, bounded roles and returns their set. |
| Screen.ResolveOverview | src/context_hmi/screen_composer.cpp:126-175 | The overview loops build exactly the specified view: assets in order, their wanted tags in order, one component and one dependency each, and review when there is none. |
| Screen.ResolveAlarms | src/context_hmi/screen_composer.cpp:177-216 | The alarm loops build exactly the specified view: the alarms in scope, sorted, one component and one dependency each, and review when there is none. |
| Screen.ResolveTask | src/context_hmi/screen_composer.cpp:218-253 | Resolution fails exactly on an unacceptable task (kind, revision, model, request, anchor, roles), and otherwise gives the overview or the alarm view. |
| Screen.OverviewMembers | src/context_hmi/screen_composer.cpp:147-168 | An overview is bound to exactly the declared tags in the scope of its task, each once. |
| Screen.AlarmMembers | src/context_hmi/screen_composer.cpp:191-204 | An alarm view is bound to exactly the declared alarms in the scope of its task, each once. |
| ScreenOrder.ListingIrrelevant | src/context_hmi/screen_composer.cpp:140-204 | Two listings of one model, in whatever order of assets, tags and alarms, resolve every task to the same view. |
| Reconciler.DetectTags | src/context_hmi/reconciliation.cpp:79-138 | Whatever the order in which the map of old tag dependencies is walked, the loop fills the two sets with the changed and the gone tags and adds each change and issue once. |
| Reconciler.InspectAlarm | src/context_hmi/reconciliation.cpp:141-213 | One turn of the alarm loop decides exactly whether the alarm is gone or redefined and whether the tag it now names is gone or changed, and adds the matching changes and issues once. |
| Reconciler.DetectAlarms | src/context_hmi/reconciliation.cpp:139-213 | Whatever the order of the walk, the loop extends the tag sets and fills the alarm sets with exactly the specified members, and adds each change and issue once. |
| Reconciler.DetectRelationships | src/context_hmi/reconciliation.cpp:215-249 | The relationship loop fills the two relationship sets and adds the matching changes and issues once, component by component. |
| Reconciler.Preserve | src/context_hmi/reconciliation.cpp:258-288 | The six assignments in a row leave the mark of the last one that applies: relationships over alarms over tags, and a conflict over a removal. |
| Reconciler.MergeOne | src/context_hmi/reconciliation.cpp:253-310 | One old component is kept with its mark if anything blocks it, replaced by the fresh one with its identifier if there is one, and marked as no longer declared otherwise. |
| Reconciler.MergeComponents | src/context_hmi/reconciliation.cpp:251-318 | The two component loops give the merged old components in their order followed by the fresh ones with new identifiers in theirs. |
| Reconciler.MergeDependencies | src/context_hmi/reconciliation.cpp:319-360 | The two dependency loops give the merged old dependencies in their order followed by the fresh ones with new keys in theirs. |
| Reconciler.HadConflict | src/context_hmi/reconciliation.cpp:364-373 | A conflict counts as prior if the status, any recorded change or any component says so. |
| Reconciler.Reconcile | src/context_hmi/reconciliation.cpp:10-384 | The whole engine function refines the specification for some walk of its two hash maps, with the same errors for the same views. |
| ReconciliationChains.ComponentConservation | src/context_hmi/reconciliation.cpp:251-360 | Reconciled identifiers are the old ones in the old order followed by the fresh ones not among them in fresh order; the same law for dependency keys; and distinctness is preserved. |
| ReconciliationChains.StepFollows | src/context_hmi/reconciliation.cpp:262-295 | One reconciliation never lowers the status of the view in ready < needs-review < conflict, and a blocked component stays blocked with nothing but its status and reason changed. |
| ReconciliationChains.BlocksStick | src/context_hmi/reconciliation.cpp:262-381 | The same holds between any two points of any chain of successful reconciliations over arbitrary models. |
| WellFormedViews.DifferencesRead | src/context_hmi/reconciliation.cpp:79-213 | For views with distinct keys the four tag and alarm sets say exactly what became of the recorded dependencies. |
| WellFormedViews.TouchedIsBlocked | src/context_hmi/reconciliation.cpp:327-336 | A dependency that no longer stands as it was recorded is always held back by the merge. |
| WellFormedViews.ResolvedIsFresh | src/context_hmi/screen_composer.cpp:126-253 | A resolved view is well formed, live, untouched by its own model, and ready exactly when it has no issue. |
| WellFormedViews.UntouchedIsFound | src/context_hmi/reconciliation.cpp:297-303 | An untouched dependency in the scope of the task is found again in the fresh view, at one place with its component. |
| ReconciliationProperties.MergeAt | src/context_hmi/reconciliation.cpp:253-351 | At every place of a well-formed view either the old parts are kept, blocked, or the fresh parts with the same identity stand there, except under a block that was there before. |
| ReconciliationProperties.StepWellFormed | src/context_hmi/reconciliation.cpp:10-384 | Reconciliation keeps views well formed, whatever revision they meet. |
| ReconciliationFixedPoint.NotesMembers | src/context_hmi/reconciliation.cpp:79-213 | The changes and issues that a pass adds are exactly those of the dependencies, in whatever order the maps are walked. |
| ReconciliationFixedPoint.DifferencesEmpty | src/context_hmi/reconciliation.cpp:374-377 | A conflict set is nonempty exactly if some bound tag or alarm kept its identity and changed its meaning; a removal set exactly if something bound is gone. |
| ReconciliationFixedPoint.VerdictExact | src/context_hmi/reconciliation.cpp:361-381 | The exact status of any successful reconciliation of a well-formed view. |
| ReconciliationFixedPoint.FirstVerdict | src/context_hmi/reconciliation.cpp:79-381 | Between two revisions of one model a resolved view becomes conflict exactly if something in its scope kept its identity and changed its meaning, else needs-review exactly if something in scope is gone or either view has an issue, else ready. |
| ReconciliationFixedPoint.ReadyMeansFresh | src/context_hmi/reconciliation.cpp:251-381 | A ready verdict means that the components are exactly the live ones of the fresh view. |
| ReconciliationTwice.OverviewHasNoLateBlock | src/context_hmi/reconciliation.cpp:311-315 | In an overview no new component can stand on a tag in conflict. |
| ReconciliationTwice.SecondPass | src/context_hmi/reconciliation.cpp:10-384 | Reconciling a result again with the same model changes nothing but the components that the second merge still blocks; it fails only if the result outgrew the limits of the input. |
| ReconciliationTwice.FixedPoint | src/context_hmi/reconciliation.cpp:10-384 | From any well-formed view: the second pass succeeds unless the first result exceeds the input limits, and equals it exactly when no newly declared component stands on a tag in conflict; for overviews it always does. |
| ReconciliationTwice.ThirdPass | src/context_hmi/reconciliation.cpp:251-360 | The third pass always equals the second. |
| ReconciliationOutcomes.FirstSucceeds | src/context_hmi/reconciliation.cpp:19-44 | The first reconciliation of a resolved view with a revision of the same model succeeds exactly if its anchor still exists; otherwise the task is invalid; the component limit is never reached. |
| ReconciliationOutcomes.ReconciledWithItself | src/context_hmi/reconciliation.cpp:41-53 | Reconciling a view with the model that produced it only adds the mark of reconciliation and an empty list of changes. |
| ReconciliationOutcomes.BlockedExactly | src/context_hmi/reconciliation.cpp:163-173 | A dependency is held back exactly if it was touched itself or if another bound alarm now names its tag and was bound to something else: also an unchanged sibling. |
| ReconciliationOutcomes.WalkIrrelevant | src/context_hmi/reconciliation.cpp:81-141 | The order in which the hash maps are walked shows in nothing but the order of new changes and issues. |
| ReconciliationLimits.OverviewFits | src/context_hmi/reconciliation.cpp:15-29 | The result of a first reconciliation of an overview never exceeds the limits on the input of the next one. |
| ReconciliationLimits.SecondFits | src/context_hmi/reconciliation.cpp:15-29 | The result of a first reconciliation exceeds those limits exactly for an alarm view of 2048 alarms, all redefined and on changed tags that are all different, none of them in scope any more. |
| ReconciliationLimits.ResolvedFixedPoint | src/context_hmi/reconciliation.cpp:10-384 | From a resolved view: the second pass is refused exactly in that case; otherwise it equals the first for every overview, and for an alarm view exactly when no newly declared alarm stands on a tag in conflict. |
| ReconciliationExamples.OnePassIsNotEnough | src/context_hmi/reconciliation.cpp:311-315 | A concrete pair of models and an alarm task for which the first pass admits a component live and the second blocks it. |
| ReconciliationExamples.TooManyIssues | src/context_hmi/reconciliation.cpp:15-29 | A concrete pair of valid models with 2048 alarms for which the first pass succeeds and the second refuses its result as an invalid view. |
| Crc32c.ComputeUpdate | src/context_hmi/operational_store.cpp:78-87 | The nested loops compute the register function, byte by byte and bit by bit. |
| Crc32c.UpdateInjective | src/context_hmi/operational_store.cpp:78-87 | Two different registers stay different over the same bytes. |
| Crc32c.WindowInjective | src/context_hmi/operational_store.cpp:78-87 | Up to four bytes act injectively on the register. |
| Crc32c.BurstDetected | src/context_hmi/operational_store.cpp:78-87 | Altering a window of at most four bytes anywhere always changes the result. |
| Frames.PutField | src/context_hmi/operational_store.cpp:33-51 | Writing a field changes exactly its bytes of the header, to the little-endian form of the value. |
| Frames.GetField | src/context_hmi/operational_store.cpp:53-76 | Reading a field gives the value of its little-endian bytes. |
| Frames.LittleEndianRoundTrip | src/context_hmi/operational_store.cpp:33-76 | A value that fits its field is read back from its bytes. |
| Frames.ReadHeader | src/context_hmi/operational_store.cpp:269-281 | Decodes the header array field by field. |
| Frames.WriteHeader | src/context_hmi/operational_store.cpp:331-338 | Fills a fresh header array with the encoding of the header. |
| Frames.HeaderRoundTrip | src/context_hmi/operational_store.cpp:269-338 | A written header, whatever follows it, decodes to itself. |
| Frames.ComputeFrameCrc | src/context_hmi/operational_store.cpp:89-103 | Chains the three updates over sequence, kind and payload. |
| Frames.ReadWrittenFrame | src/context_hmi/operational_store.cpp:257-304 | A written frame, whatever follows it, reads back as its record if its payload nests no deeper than replay accepts, and is refused otherwise. |
| Frames.ReadTornFrame | src/context_hmi/operational_store.cpp:259-294 | Every proper nonempty prefix of a written frame reads as a torn tail. |
| FrameLog.ReplayFrames | src/context_hmi/operational_store.cpp:254-306 | Replaying whole frames followed by other bytes gives their records joined with the replay of those bytes, or a refusal. |
| FrameLog.CutFrames | src/context_hmi/operational_store.cpp:254-306 | A cut splits a sequence of frames into the whole ones and a proper prefix of the next. |
| FrameLog.ReplayCut | src/context_hmi/operational_store.cpp:254-306 | Replaying frames that were cut anywhere yields exactly the records whose frames end by the cut. |
| OperationalStore.ReadNext | src/context_hmi/operational_store.cpp:257-298 | Reading through the header buffer agrees with the frame specification: end, torn tail, corruption or a record. |
| OperationalStore.Journal.ReplayLoop | src/context_hmi/operational_store.cpp:254-306 | The replay loop computes the specified outcome, and its window holds the last records of it. |
| OperationalStore.Journal.OpenAndRecover | src/context_hmi/operational_store.cpp:195-307 | Opening succeeds exactly when the specification does, and leaves the object and the truncated file in its state. |
| OperationalStore.Journal.Append | src/context_hmi/operational_store.cpp:309-371 | An append either fails with the specified error and changes nothing, or extends the file by one frame and the object by one record. |
| OperationalStore.Journal.Recent | src/context_hmi/operational_store.cpp:373-378 | Returns the last records of the window, as many as asked for and there are. |
| OperationalStore.CrashRecovery | src/context_hmi/operational_store.cpp:195-307 | Cut the file of any history anywhere: reopening succeeds exactly if the magic survived and no surviving payload nests too deep; it then yields the records whose frames end by the cut, truncates to that boundary, reports the torn bytes and continues the numbering. |
| OperationalStore.ReopenIffReplayable | src/context_hmi/operational_store.cpp:172-180 | The whole file of a history reopens exactly if no payload nests deeper than replay accepts, which append never checks. |
| OperationalStore.AppendKeepsConsistent | src/context_hmi/operational_store.cpp:309-371 | A completed append keeps the object, the file and the history in agreement. |
| OperationalStore.CrashKeepsConsistent | src/context_hmi/operational_store.cpp:254-306 | A crash with a successful reopen leaves them in agreement over the surviving records. |
| OperationalStore.RunRefinesHistory | src/context_hmi/operational_store.cpp:195-371 | Over any run of appends and crashes the journal is its list of records: file, numbering and window; the run stops exactly at a reopen that the condition refuses. |
| OperationalStore.FreshJournal | src/context_hmi/operational_store.cpp:213-235 | A missing file starts the empty history. |
| OperationalStore.RecentOfHistory | src/context_hmi/operational_store.cpp:298-302 | The last k of the window are the last min(k, limit) of the history. |
| OperationalStore.FramesLength | src/context_hmi/operational_store.cpp:321-325 | Every frame takes at least 33 bytes, so the file limit bounds the numbering. |
| JournalCorruption.BurstRefused | src/context_hmi/operational_store.cpp:282-297 | Altering any window of up to four bytes in the kind and payload of any frame makes the journal refuse to open, whatever follows. |
| JournalCorruption.BurstReadsCorrupt | src/context_hmi/operational_store.cpp:295-297 | Such a frame reads as corrupt. |
| JournalCorruption.EnlargedLengthDropsRecord | src/context_hmi/operational_store.cpp:274-294 | The length is outside the checksum: an enlarged payload length in the last frame reads as a torn tail, and the record is cut off. |
| JournalCorruption.SyncFlagUnchecked | src/context_hmi/operational_store.cpp:269-271 | The synchronization flag is outside the checksum: either value reads back as the same record. |
| PromptTerms.ScanWords | src/context_hmi/context_retrieval.cpp:49-65 | The character loop collects the maximal runs of letters and digits, lowered and canonical. |
| PromptTerms.TermsFor | src/context_hmi/context_retrieval.cpp:49-69 | The terms are the sorted, duplicate-free canonical words. |
| PromptTerms.TermsAscend | src/context_hmi/context_retrieval.cpp:66-68 | They ascend strictly, and are exactly the canonical forms of the words. |
| PromptTerms.WordIffStands | src/context_hmi/context_retrieval.cpp:49-65 | A word is collected exactly if it stands in the text as a run that no letter or digit extends. |
| PromptTerms.HasScopePhrase | src/context_hmi/context_retrieval.cpp:75-91 | The padded copy is searched for the four phrases. |
| PromptTerms.PhraseIsWord | src/context_hmi/context_retrieval.cpp:75-91 | A phrase is found exactly when one of the four prepositions is a word of the prompt. |
| PromptTerms.NormalizedCachePrompt | src/context_hmi/runtime_context.cpp:16-34 | The character loop computes the cached spelling: blanks collapsed and trimmed, letters lowered. |
| PromptTerms.NormalizedKeepsWords | src/context_hmi/runtime_context.cpp:16-34 | The cached spelling has the same words as the prompt. |
| PromptTerms.SameSpelling | src/context_hmi/runtime_context.cpp:16-34 | Prompts of one cached spelling have the same terms and agree on the scope phrase. |
| Retriever.RateAsset | src/context_hmi/context_retrieval.cpp:209-253 | The score and the reasons of one asset: by shared terms, identifier, name and first alias, and nothing on a conflict of numbers. |
| Retriever.RankAssets | src/context_hmi/context_retrieval.cpp:208-264 | The scoring loop and the sort compute the specified ranking. |
| Retriever.IsSpecific | src/context_hmi/context_retrieval.cpp:200-271 | Whether the prompt refers to a specific asset, by kind, number, phrase or strong evidence. |
| Retriever.SelectCandidates | src/context_hmi/context_retrieval.cpp:272-298 | The candidates up to the limit, with the eligible ones marked and listed. |
| Retriever.CountEligible | src/context_hmi/context_retrieval.cpp:299-305 | All assets that tie at the top, also beyond the limit. |
| Retriever.FindScope | src/context_hmi/context_retrieval.cpp:307-330 | The scope: the eligible assets, or the first ones, expanded over the relationships when there is a single one. |
| Retriever.ExpandScope | src/context_hmi/context_retrieval.cpp:317-330 | The single pass over the relationships grows the set while it looks at it, as specified. |
| Retriever.OrderIds | src/context_hmi/context_retrieval.cpp:332-344 | Eligible identifiers first, then the other assets in scope in model order, each once. |
| Retriever.CompactAssets | src/context_hmi/context_retrieval.cpp:346-365 | The listed assets, up to the limit. |
| Retriever.Collect | src/context_hmi/context_retrieval.cpp:367-381 | Counts the relevant items and keeps as many of them as the limit allows. |
| Retriever.HintRoles | src/context_hmi/context_retrieval.cpp:145-164 | The roles of tags whose role or name is in the prompt, sorted, each once. |
| Retriever.OrderTags | src/context_hmi/context_retrieval.cpp:401-420 | One tag for each hinted role first, in the order of the hints, then the others. |
| Retriever.Assemble | src/context_hmi/context_retrieval.cpp:197-486 | The object before trimming, field by field. |
| Retriever.Trim | src/context_hmi/context_retrieval.cpp:519-570 | One round of the budget loop makes the first removal that changes something, or reports that none does. |
| Retriever.FitBudget | src/context_hmi/context_retrieval.cpp:488-580 | The budget loop ends where the specification says: at the first object that fits, or in a refusal. |
| Retriever.RetrieveFor | src/context_hmi/context_retrieval.cpp:183-581 | Retrieval as a whole: the same errors for the same inputs, and the same object. |
| RetrievalProperties.ScoreExplained | src/context_hmi/context_retrieval.cpp:209-253 | A score is the sum of the points of its reasons, and the reasons are exactly the evidence that holds, or none when the numbers conflict. |
| RetrievalProperties.RankedMembers | src/context_hmi/context_retrieval.cpp:208-264 | The ranking lists exactly the assets with a positive score, each once, best first and then by identifier. |
| RetrievalProperties.EligibleExactly | src/context_hmi/context_retrieval.cpp:272-305 | Eligible are exactly the assets whose score is the highest of all and at least 12; the candidate limit only shortens the list that is shown. |
| RetrievalProperties.ExpandReaches | src/context_hmi/context_retrieval.cpp:317-330 | Everything in the expanded scope lies in every set around the start that is closed under relationships: it is reachable from the start. |
| RetrievalProperties.NeighboursCovered | src/context_hmi/context_retrieval.cpp:321-328 | Unless the scope is reported as truncated, every direct neighbour of the start is in it. |
| RetrievalProperties.FillBounded | src/context_hmi/context_retrieval.cpp:307-316 | Without a reference the scope is as many of the first assets as the limit allows, and truncated exactly if there are more. |
| RetrievalProperties.ScopeBounded | src/context_hmi/context_retrieval.cpp:307-330 | The scope is made of declared assets, holds the eligible ones and respects the asset limit. |
| RetrievalProperties.RoleHintsExactly | src/context_hmi/context_retrieval.cpp:145-164 | A role is hinted exactly if some tag in the measured scope has it and its role or name is in the prompt. |
| RetrievalProperties.RoleTagsFollow | src/context_hmi/context_retrieval.cpp:403-413 | The first tags answer the hinted roles one for one, in order. |
| RetrievalProperties.AssembledShows | src/context_hmi/context_retrieval.cpp:332-365 | With a candidate limit not above the asset limit, every eligible asset is shown in the scope. |
| RetrievalProperties.AssembledFollows | src/context_hmi/context_retrieval.cpp:401-431 | With room for them, the first tags of the scope carry the hinted roles in order. |
| Budget.RoundLightens | src/context_hmi/context_retrieval.cpp:519-571 | Every round removes something: the loop terminates. |
| BudgetProperties.LoopKeeps | src/context_hmi/context_retrieval.cpp:519-571 | From any state of the loop: what the end shares with the object assembled, in which order things were given up, what the flags say, and that role tags and eligible assets survive with their hints and identifiers. |
| BudgetProperties.BudgetKeepsIdentity | src/context_hmi/context_retrieval.cpp:488-580 | The object returned is the one measured within budget; nothing was given up before everything less needed; a sole eligible identifier survives; an eligible one that survives keeps its asset; a surviving hint keeps its tag; a dropped hint forces clarification. |
| BudgetProperties.FirstThatFits | src/context_hmi/context_retrieval.cpp:519-571 | The loop stops at the first object that fits, and throws exactly if none on the way does, with nothing but identity left. |
| BudgetProperties.NothingLeft | src/context_hmi/context_retrieval.cpp:520-567 | No removal is left exactly when only identity remains. |
| RetrievalCache.KeyDetermines | src/context_hmi/runtime_context.cpp:43-55 | Under the options of one process, two keys are equal exactly if model, revision, generation, mode and cached spelling are, or one mode holds the separator and goes on like the other key. |
| RetrievalCache.KeysCollide | src/context_hmi/runtime_context.cpp:43-55 | The family of such collisions: a prompt that spells out the options, and a mode that takes them over. |
| RetrievalCache.DecimalInjective | src/context_hmi/runtime_context.cpp:46-54 | Different numbers print differently. |
| RetrievalCache.SameSpellingSameAnswer | src/context_hmi/runtime_context.cpp:86-96 | Two bounded prompts of one cached spelling are answered alike on every model. |
| RetrievalCache.HitTraced | src/context_hmi/runtime_context.cpp:131-150 | For a lookup in any mode, at any point of any run over one map with entries of several modes: what is found was stored for the same generation, mode and spelling, unless the mode that was asked for holds the separator and collides. |
| RetrievalCache.HitExplained | src/context_hmi/runtime_context.cpp:86-96 | What is found under a key of the computed mode was computed for the same generation from a prompt of the same spelling, also if it was stored late, and never comes from another mode. |
| RetrievalCache.RetrievalHitIsFresh | src/context_hmi/runtime_context.cpp:89-96 | A retrieval hit equals recomputation exactly if the prompt is within bounds; out of bounds recomputation would refuse it. |
| RetrievalCache.RouteIsTransparent | src/context_hmi/task_routes.cpp:48-61 | Behind the route, which rejects empty and oversized prompts first, the answer through the cache is in every state of every run, for every prompt, that of retrieval itself. |
| RetrievalCache.BlankAnswersEmpty | src/context_hmi/runtime_context.cpp:16-96 | Without the route's check: once a blank prompt has been answered, on any model, the empty one hits, though retrieval refuses it. |
| CacheExamples.EmptyPromptHits | src/context_hmi/runtime_context.cpp:16-96 | Such a run at a concrete model, with nothing assumed. |
| Pipeline.RuleInterpretation | src/context_hmi/inference_rules.cpp:8-45 | Builds and edits the interpretation as specified. |
| Pipeline.NotClarified | src/context_hmi/context_retrieval.cpp:452-463 | A retrieval that asks for no clarification has lost no role and has at most one eligible asset, the sole one or none. |
| Pipeline.RulesPassScope | src/context_hmi/context_retrieval.cpp:583-641 | The interpretation made by rules is always allowed by the evidence it was made from, when the tag limit covers the hinted roles. |
| Pipeline.RulesResolve | src/context_hmi/screen_composer.cpp:218-253 | Its task resolves on the model it was retrieved from exactly if it names at most 16 roles. |
| Pipeline.RulesPassSchema | src/context_hmi/inference_validation.cpp:34-146 | The schema accepts it exactly if it names at most 16 roles, none longer than 128 bytes. |
| Pipeline.OverviewCoversRoles | src/context_hmi/screen_composer.cpp:147-168 | An overview made by rules shows a component for every hinted role. |
| Pipeline.RetrievedShowsEligible | src/context_hmi/context_retrieval.cpp:488-580 | Any successful retrieval is within its budget and shows every eligible asset it names. |
| Pipeline.SameSpellingSameInterpretation | src/context_hmi/runtime_context.cpp:138-167 | Two bounded prompts of one spelling get the same interpretation but for the echoed prompt. |
| Pipeline.InterpretationHitIsFresh | src/context_hmi/runtime_context.cpp:131-167 | In a map that also holds anything of the model-based interpreters, a rules hit for a bounded prompt equals recomputation except that it echoes the prompt of whoever asked first. |
| Pipeline.OddModeIsAnswered | src/context_hmi/runtime_context.cpp:131-150 | The lookup precedes the check of the interpreter's name: once a prompt that spells out the options has been answered, on any model, a name that no interpreter has, with the separator in it, finds that answer for another prompt. |
| CacheExamples.OddModeHits | src/context_hmi/runtime_context.cpp:131-150 | Such a run at a concrete model, with nothing assumed. |
| Pipeline.RulesAnswerExactly | src/context_hmi/inference_rules.cpp:8-45 | The rules answer exactly the prompts that retrieval answers, unless their task would name more than 16 roles or one longer than 128 bytes. |
| InterpretationRuns.RunProjects | src/context_hmi/runtime_context.cpp:111-151 | A run of the service over both caches, in which interpretations are made from whatever retrieval a request holds, is a run of either cache alone, and every retrieval in hand is what retrieval itself gives. |
| InterpretationRuns.CachesAreTransparent | src/context_hmi/runtime_context.cpp:111-167 | In every state of every such run, with other requests, evictions and model changes between the lookups, a request under rules is given what retrieval and rules give without any cache, or refused where they refuse, except that the answer may echo a prompt of the same spelling. |
| ViewTable.Views.Insert | src/context_hmi/runtime_context.cpp:256-262 | Makes room by dropping the oldest view and inserts the new one last. |
| ViewTable.Views.Publish | src/context_hmi/runtime_context.cpp:250-263 | Commits only if the generation is still that of the snapshot, and otherwise changes nothing. |
| ViewTable.Views.Rollback | src/context_hmi/runtime_context.cpp:273-281 | Takes a publication back, from the table and from the order. |
| ViewTable.Views.CommitReconciled | src/context_hmi/runtime_context.cpp:314-327 | Commits only if neither the generation nor the view has changed, and otherwise changes nothing. |
| ViewTable.Views.ApplyModelChange | src/context_hmi/runtime_lifecycle.cpp:348-390 | Refuses a rescan that does not advance the revision; otherwise revises every saved view, marks those that cannot be reconciled, and advances the generation. |
| ViewTable.Views.RestoreRecords | src/context_hmi/service_records.cpp:16-52 | Rebuilds the table from journaled tasks of the active model, skipping those that no longer resolve. |
| ViewProtocol.StepSafe | src/context_hmi/runtime_context.cpp:245-328 | Every step of every thread keeps the system safe: one generation throughout the table, a duplicate-free order of its keys, bounded size, well-formed views, and no result in hand that is taken for current when it is not. |
| ViewProtocol.RunSafe | src/context_hmi/runtime_context.cpp:245-328 | Hence every state of every run from a restored table, under every interleaving with model changes and failed journal writes. |
| ViewProtocol.RestoreSafe | src/context_hmi/service_records.cpp:16-52 | Restoring records gives a safe table. |
| ViewProtocol.PublishIsAtomic | src/context_hmi/runtime_context.cpp:245-263 | A publication that commits stores what resolving its task on the active model gives at that moment, under an unused identifier. |
| ViewProtocol.ReconcileIsAtomic | src/context_hmi/runtime_context.cpp:303-328 | A reconciliation that commits replaces the view that is there by its reconciliation with the active model; one that does not leaves the table alone. |
| ViewHistories.ChangeKeepsBlocks | src/context_hmi/runtime_lifecycle.cpp:365-384 | A model change keeps every block; the status of a view falls exactly if it was in conflict and the new model refuses it: the view is oversized or of another model, its task is unacceptable, or the merge would have too many components. |
| ViewHistories.ConflictForgotten | src/context_hmi/runtime_lifecycle.cpp:365-384 | An instance: an overview in conflict whose anchor the next model no longer declares falls back to review. |
| ViewHistories.StepRetires | src/context_hmi/runtime_context.cpp:250-281 | An identifier that has been given out and is not in the table is never inserted again. |
| ViewHistories.StepKeepsView | src/context_hmi/runtime_context.cpp:245-328 | Any step leaves a saved view with its blocks, and lowers its status only in that case. |
| ViewHistories.BlocksStickInRuns | src/context_hmi/runtime_context.cpp:245-328 | Between any two states of any run that have a view under one identifier, it was there all the time, every component blocked in the first is blocked in the second with only status and reason changed, and its status has not fallen unless a model refused it in conflict on the way. |
| TelemetryStore.TelemetryValues.CheckValues | src/context_hmi/telemetry_store.cpp:181-191 | Every value must belong to a declared tag and fit its type. |
| TelemetryStore.TelemetryValues.Ingest | src/context_hmi/telemetry_store.cpp:144-227 | A batch commits as a whole or changes nothing but the count of rejections, with the specified error. |
| TelemetryStore.TelemetryValues.Snapshot | src/context_hmi/telemetry_store.cpp:229-281 | The readings of all tags, with staleness and overall quality, as specified. |
| TelemetryStore.TelemetryValues.SnapshotAlarms | src/context_hmi/telemetry_store.cpp:282-303 | Every alarm is read from the reading of its tag: available on a number of usable quality, active if that meets the threshold. |
| TelemetryStore.TelemetryValues.Reconfigure | src/context_hmi/telemetry_store.cpp:307-313 | A new generation starts with no values and no sequences. |
| TelemetryProtocol.StepKeeps | src/context_hmi/telemetry_store.cpp:195-226 | Every step of every caller keeps the store equal to what its accepted batches say, each made for and checked against its generation. |
| TelemetryProtocol.ShownIsGenuine | src/context_hmi/telemetry_store.cpp:245-273 | Whatever is shown for a generation, at any point of any run, was sent in a batch naming it, fits the tag of its model, and is the latest accepted for that tag. |
| TelemetryProtocol.SequencesAdvance | src/context_hmi/telemetry_store.cpp:200-212 | Accepted sequences of a source strictly increase within a generation. |
| TelemetryProtocol.ActiveIsCurrent | src/context_hmi/telemetry_store.cpp:282-303 | An alarm can be active only on a number of its own generation that meets its threshold. |
| TelemetryNumbers.AvailableIsNumeric | src/context_hmi/telemetry_store.cpp:50-95 | Over any run: a value that an alarm could use is only ever shown for a tag that spells its numeric type in lower case. |
| TelemetryNumbers.AlarmShownExactly | src/context_hmi/telemetry_store.cpp:282-303 | An alarm of a valid model can be shown with a value, in some run, exactly if its tag does so and batches may hold a value at all. |
| TelemetryNumbers.CapitalsSilence | src/context_hmi/telemetry_store.cpp:50-95 | A valid model with a tag of type Number whose alarm never has a value, while under the spelling number it can. |
| TelemetryNumbers.ImportedAlarmsShow | src/context_hmi/context_import_records.cpp:103-107 | In a model imported from texts every alarm can be shown with a value, since the importer writes types in lower case. |
| WorkerPool.PoolState.Enqueue | src/context_hmi/worker_pool.cpp:47-56 | Accepts exactly while accepting and below capacity; a job that is not accepted is only counted. |
| WorkerPool.PoolState.Look | src/context_hmi/worker_pool.cpp:61-70 | With the lock a worker takes the oldest job, parks, or returns when stopping with an empty queue. |
| WorkerPool.PoolState.Shutdown | src/context_hmi/worker_pool.cpp:83-90 | Only the first call sets the flags. |
| WorkerPool.PoolStepKeeps | src/context_hmi/worker_pool.cpp:47-98 | Every step keeps the counters, the order of jobs, and the bound of the queue by the workers about to look whenever someone is parked. |
| WorkerPool.JobsConserved | src/context_hmi/worker_pool.cpp:52-78 | Submitted is queued plus running plus uncounted plus completed, and jobs start in the order of acceptance, each once. |
| WorkerPool.NoLostWakeUp | src/context_hmi/worker_pool.cpp:54-63 | While a job is queued some worker is neither parked nor gone. |
| WorkerPool.ShutdownDrained | src/context_hmi/worker_pool.cpp:82-98 | When the draining shutdown returns, nothing is queued or running and everything accepted is completed. |
| WorkerPool.JoiningProgress | src/context_hmi/worker_pool.cpp:92-96 | While it joins, every step of a worker leaves less to do and nothing adds to it. |
| WorkerPool.JoiningEnabled | src/context_hmi/worker_pool.cpp:92-96 | And until all workers have returned one of them can take such a step. |
| BoundedCache.BoundedJsonCache.Get | src/context_hmi/bounded_cache.cpp:17-34 | Answers with an unexpired value and refreshes its key, drops an expired one, and counts. |
| BoundedCache.BoundedJsonCache.Put | src/context_hmi/bounded_cache.cpp:36-56 | Replaces and refreshes an existing key, or evicts the least recent one for a new key when full. |
| BoundedCache.BoundedJsonCache.Clear | src/context_hmi/bounded_cache.cpp:58-63 | Empties the cache and counts the entries as invalidated. |
| BoundedCache.TraceSound | src/context_hmi/bounded_cache.cpp:17-63 | After any trace the recency list names the keys, each once, and there are at most as many as the capacity. |
| BoundedCache.CacheRefines | src/context_hmi/bounded_cache.cpp:17-63 | After any trace, for any key, the cache holds what an unbounded store would, or nothing; and nothing only once at least as many other keys as its capacity were touched since. |
| BoundedCache.LookupAnswers | src/context_hmi/bounded_cache.cpp:17-34 | A lookup answers with the last value put if that is alive and the key was not pushed out, which takes as many other keys as the capacity. |
| BoundedCache.EvictedHasMany | src/context_hmi/bounded_cache.cpp:46-52 | The key that is evicted saw at least as many distinct other keys as the capacity put or found since it was. |
| BoundedCache.EntriesConserved | src/context_hmi/bounded_cache.cpp:17-63 | New keys put are the entries plus evictions, expirations and invalidations. |
| Csv.TakeCharacter | src/context_hmi/context_import_csv.cpp:40-103 | One turn of the character loop, with its look-ahead for doubled quotes and CR LF. |
| Csv.DoFinishRow | src/context_hmi/context_import_csv.cpp:21-38 | The end of a row: limits, and a line with nothing on it is no row. |
| Csv.ParseCsv | src/context_hmi/context_import_csv.cpp:9-114 | The parser as a whole computes the specified result or the specified error. |
| Csv.AcceptedWithin | src/context_hmi/context_import_csv.cpp:16-38 | Every accepted text respects the limits on columns, fields and rows, and has a row. |
| Csv.RoundTrip | src/context_hmi/context_import_csv.cpp:9-114 | Rows within the limits, printed with any choice of quotes and any mix of LF, CR LF and CR, with or without a final line ending, are read back exactly. |
| Csv.ReadsFields | src/context_hmi/context_import_csv.cpp:40-103 | The same for the fields of one row. |
| Tables.TrimText | src/context_hmi/context_import_common.cpp:53-69 | Both ends are trimmed of blanks. |
| Tables.HeaderMap | src/context_hmi/context_import_csv.cpp:116-127 | The column map exists exactly if the trimmed names are nonempty, bounded and distinct, and then takes each name to its column. |
| Tables.CheckRowWidth | src/context_hmi/context_import_csv.cpp:168-178 | Accepts exactly the tables whose rows are all as wide as the header and no more than allowed. |
| Tables.DeclaredCellReads | src/context_hmi/context_import_csv.cpp:129-157 | In a checked table a required cell of a declared column is its text exactly if that is nonempty, bounded and printable. |
| Tables.PrintedCellReads | src/context_hmi/context_import_csv.cpp:9-157 | From text to cells: a printed table gives back every such cell by the name of its column. |
| Import.ImportState.ParseRelationships | src/context_hmi/context_import_records.cpp:56-78 | The row loop of relationships computes the specified fold. |
| Import.ImportState.ParseTags | src/context_hmi/context_import_records.cpp:80-124 | The row loop of tags computes the specified fold. |
| Import.ImportState.ParseAlarm | src/context_hmi/context_import_records.cpp:153-197 | One alarm row is refused, reported or emitted as specified. |
| Import.ImportState.ImportBundle | src/context_hmi/context_import_records.cpp:13-199 | The four artifacts in order, stopping at the first refusal. |
| Import.ImportSound | src/context_hmi/context_import_records.cpp:13-199 | A successful import refers only to what it emitted, emits no identifier twice, and turns every row into exactly one record or one unresolved entry. |
| BundleText.ReadTable | src/context_hmi/context_import_csv.cpp:9-178 | Text to table: parsed, with proper headers, the required columns, one width and no more rows than allowed, or the first error in that order. |
| BundleText.CellAgrees | src/context_hmi/context_import_csv.cpp:129-157 | The checks on a cell, required or not, agree with those on the fields of a record. |
| BundleText.ImportTexts | src/context_hmi/context_import_records.cpp:13-199 | From the asset records and the three table texts to the bundle, or the first error: each artifact is parsed, checked, taken and counted against the total limit before the next one is looked at. |
| BundleText.TextsSound | src/context_hmi/context_import_records.cpp:13-199 | Whatever the texts, an accepted bundle is closed under reference, has no identifier twice, and every row of its tables is one record or one unresolved entry, within the total limit. |
| BundleRoundTrip.ModelImports | src/context_hmi/context_import_records.cpp:13-199 | Any model the engine accepts, written as tables with columns in any order and others between them, with any quotes and line endings, is imported from its texts as a whole, types and severities in lower case, nothing unresolved. |
| BundleRoundTrip.ModelReturns | src/context_hmi/context_import.cpp:142-163 | And the engine accepts the result again, the same records in the order of their identifiers. |
| BundleRoundTrip.PlainSheetShows | src/context_hmi/context_import_csv.cpp:9-178 | Printing records under the required columns alone, everything in quotes, is an admissible layout whenever headers, cells and counts are within the limits. |
| BundleRoundTrip.EveryModelReturns | src/context_hmi/context_import.cpp:142-163 | For every valid model within the limits that layout serves for all three tables, so the model has texts from which it is imported as a whole and accepted again, with no premise on the tables left. |
| Import.EngineAccepts | src/context_hmi/model_validation.cpp:130-266 | The engine accepts the imported model exactly if the caps hold, level and flow tags are numeric, and alarmed tags are numeric. |

## Left out

- JSON text: parsing and printing are parameters (the payload codec of the journal, assumed to read back what it writes, and the size of a retrieval); branches on malformed JSON values, absent optional fields of old dependencies and components without identifiers are not modelled.
- Views without the `dependencies` or `components` field, view and session identifiers inside a view, the layout and the client description.
- Fingerprints: some function of the snapshots (`Model.Digest`), never an identity.
- Filesystem checks, fsync and platform calls of the journal; an append that throws after writing part of a frame and is retried by the same process.
- OperationalStore.CrashRecovery: assumes that the file is within the configured limit, as every append of the same configuration leaves it; a crash keeps a prefix of the file, so reordered or lost writes in the middle are not considered.
- JournalCorruption.BurstRefused: covers windows of up to four consecutive bytes in kind and payload; damage to the lengths is not always refused, as `JournalCorruption.EnlargedLengthDropsRecord` shows.
- Scenario names, descriptions and metadata of a model, and the finiteness of floating-point thresholds: a threshold is a real number with equality and order.
- Hash-map iteration in `resolve_overview` and `resolve_alarms` is modelled in array order; by `ScreenOrder.ListingIrrelevant` any other order gives the same views.
- Binary search in the sorted terms is modelled as membership.
- The numeric constants of `RetrievalLimits` for the runtime are fixed as in its header; other limits are parameters.
- RetrievalCache.RetrievalHitIsFresh: speaks of the entries as a map from which anything may vanish at any time; which entries vanish is the subject of `BoundedCache`.
- The refusal of an answer whose model was replaced while it was made (src/context_hmi/runtime_context.cpp:168-171), which drops the answer and leaves both caches as they are.
- Model-based interpreters, the network, sessions, streaming, routes, options, the lifecycle table and the diagnostic logger.
- Exceptions other than domain errors in the middle of a model change, which would leave some views revised.
- The name of a view is a number of its own kind instead of a string with the session in front.
- TelemetryStore.TelemetryValues.Ingest: leaves out the fields of the batch envelope that have one admissible value, and the report of a caller who finds after its commit that the model has changed (src/context_hmi/runtime_surface.cpp:62-66), which says stale although the batch was stored.
- WorkerPool.ShutdownDrained: a second call of shutdown returns at once and promises nothing; construction with failing threads, futures and coroutine frames are left out.
- The pool, the cache and the view table are sequentially consistent in the model; memory orders are left out.
- BoundedCache.CacheRefines: time is an arbitrary number sampled by each operation, so lookups and insertions may see it go backwards.
- Import.ImportState.ImportBundle: takes rows as records of cells, and leaves out the total record limit; `BundleText.ImportTexts` starts from the texts and has the limit.
- BundleText.ImportTexts: leaves out the I/O and metadata artifacts, which add no record to the model, and takes the asset records as read from JSON; manifests, paths and provenance are not part of this model.
- Import.EngineAccepts: takes the machine fields of the manifest as read by the importer.
