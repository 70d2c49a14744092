# Simulate: verified model of the deterministic engines

Simulate reproduces failures of AI agents in disposable sandboxes. Behind its I/O sit deterministic
engines: grouping of failures, assembly of traces, fault injection and retries, compilation of portable
bundles, versioned stores, a review lifecycle, verdicts over runs, a refund tool, event streams, and
retrieval. This project models those engines in Dafny and proves what they guarantee for every input,
every run and every interleaving.

Code that works step by step is modelled by methods with loops and by classes with mutable fields, each
proved equal to a function of its inputs or of its old state; the results are lemmas about that function.
Protocols that many clients run at once are state machines with one step per await on the store.

| module | what it models |
|---|---|
| `Ordering`, `Text`, `Runs` | ids ordered as their text, stable sorting; white space; finite runs of a step relation |
| `FeatureDistance`, `Grouping`, `GroupingTheorems`, `GroupingResults`, `GroupingBound` | density-based grouping of failure candidates |
| `RunTree`, `RunTreeResults`, `EventTree` | from a flat run list to a forest, a pre-order list and a validated event tree |
| `FaultScript`, `ReferenceRunner`, `ReferenceResults`, `ReferenceCaptures` | fault scripts, the retry loop of a reference run, the approval gate |
| `Simulation`, `Bundle`, `Evaluators`, `Replay` | business state, its compilation to seeds and back, two evaluators, and runs on the reloaded state |
| `VersionedStore`, `ImportProtocol`, `ImportService`, `RegressionCases` | numbered immutable versions, with a lock and without |
| `Review`, `ReviewProtocol`, `ReviewResults` | proposals and their single review |
| `Comparison`, `ModelLab`, `ModelLabResults` | verdicts over two runs and over a cohort |
| `RefundAgent`, `RefundResults` | the customer-bound tools, the observed repository and the sandbox |
| `EventCollector`, `Fusion`, `FusionResults`, `Chunking` | bounded event queues, reciprocal-rank fusion, overlapping chunks |

## Where the code does less than its documentation says

Each of these has a concrete input or run, and beside it the exact condition under which the code does meet the
claim.

- On candidates identified by their ids grouping always succeeds, and always yields a partition, exactly for
  `min_samples` up to 3. From 4 on a border point can lie in two groups: the coverage can exceed one, and the
  metrics schema turns the call into an error; or it does not, and the groups overlap
  (`GroupingBound.GroupingSucceedsIff`, `GroupingBound.PartitionIff`).
- The outcome of grouping is independent of the input order exactly when candidates that share an id are the same
  candidate, or every order is rejected (`GroupingResults.CallOrderIndependentIff`).
- The event-tree check accepts an event that names itself as its parent, because the event is recorded before
  its parent is looked up; chains reach the root exactly when there is no such event (`EventTree.ChainsReachRootIff`).
- A simulation event that is refused for its attributes has used up a number: the transcript is numbered 1..n
  exactly when no refused emit precedes an accepted one (`EventCollector.NumberedIff`).
- A one-time fault entry without arguments can be taken by a call with other arguments: the n-th call gets the n-th
  matching entry in every run exactly when each such entry comes after one that answers the call forever
  (`FaultScript.NthCallGetsNthEntryIff`).
- The evaluator of required state transitions ignores the wildcard for created tickets and looks only at status
  changes: a run of the tools can fulfil exactly the confirmed refunds of the customer's delivered orders, and no
  ticket creation, with the wildcard or without (`RefundResults.FulfilledBySomeRunIff`).
- Saving an older bundle again answers the newest row and stores nothing (`RegressionCases.SaveAnswers`). Without a
  lock, a caller can be answered another caller's row while its own content is not stored
  (`RegressionCases.SaveCanBeLost`): its insert is accepted exactly when the row it read is still the newest and its
  content is new, and otherwise its answer names its content exactly when that is the newest row
  (`RegressionCases.InsertAcceptedIff`, `RegressionCases.OwnContentIff`).
- Locking a proposal that does not exist yet locks nothing. Two reviewers can pass the lock then, and the second is
  answered the first one's decision as a success (`ReviewResults.UnlockedReviewerCanBeMisled`). Accepted answers are
  the caller's own decision exactly when the proposal was stored as the lock was requested
  (`ReviewResults.OwnGuaranteedIff`).
- A chunk found by both retrievers outranks every chunk found by one exactly while the lists hold at most k + 1
  hits (`FusionResults.BothAlwaysWinsIff`).
- The last return of the cohort recommendation, and its branch for a lower success rate, cannot be reached.

## Model

| member | source | states |
|---|---|---|
| `FeatureDistance.MeasureDistance` | src/app/domain/failures/grouping.py:48-68 | the loop over all feature names computes the average term, whatever the order of the names; `FeatureDistance.DistanceCounts` says what the average is |
| `FeatureDistance.DistanceFacts` | src/app/domain/failures/grouping.py:48-68 | the distance is symmetric, lies in 0..1, and is zero exactly when both sides have equal features under the source language's equality |
| `FeatureDistance.DistanceCounts` | src/app/domain/failures/grouping.py:48-68 | the distance is, shared out over all names, the number of names that one side lacks or that differ, plus for each name with a number on both sides the gap in units of the largest of 1 and the two sizes, at most one |
| `FeatureDistance.NearIff` | src/app/domain/failures/grouping.py:48-91 | two candidates are within epsilon exactly when that total is at most epsilon for each name |
| `FeatureDistance.NearIffFewDiffer` | src/app/domain/failures/grouping.py:48-91 | without shared numbers that is the case exactly when at most epsilon times the number of names differ |
| `Grouping.MeasureNeighbours` | src/app/domain/failures/grouping.py:85-94 | the measured dictionary holds, per id, the ids within epsilon, in order |
| `Grouping.Search` | src/app/domain/failures/grouping.py:102-110 | the worklist search ends, and its members are exactly the ids that walks from the seed reach through cores only |
| `Grouping.CollectClusters` | src/app/domain/failures/grouping.py:96-112 | seeds are expanded in id order, those already assigned skipped; the groups are their reachable sets in that order |
| `Grouping.GroupCandidates` | src/app/domain/failures/grouping.py:71-145 | groups, outliers, metrics and both input errors, including the rejection of a coverage above one, are the specified function of the candidates; what it yields is stated by the rows of `GroupingResults` |
| `Grouping.SharedFeatures` | src/app/domain/failures/grouping.py:148-154 | the shared features are exactly the entries of the first member on which all members agree |
| `GroupingTheorems.GraphSymmetric` | src/app/domain/failures/grouping.py:85-95 | when ids identify candidates the neighbour graph is reflexive and symmetric, and its cores are exactly the ids with enough neighbours |
| `GroupingTheorems.GroupedIffReached` | src/app/domain/failures/grouping.py:99-114 | a candidate is in some group exactly when some core reaches it |
| `GroupingTheorems.OutlierIffNoCoreNear` | src/app/domain/failures/grouping.py:99-114 | the outliers are exactly the candidates with no core neighbour |
| `GroupingTheorems.CoresNotShared` | src/app/domain/failures/grouping.py:98-114 | two groups never share a core |
| `GroupingTheorems.GroupsDisjoint` | src/app/domain/failures/grouping.py:98-114 | up to `min_samples` 3 two groups share nothing |
| `GroupingTheorems.NoBorder` | src/app/domain/failures/grouping.py:95-114 | up to `min_samples` 2, the default, every grouped candidate is a core |
| `GroupingTheorems.GroupsAreComponents` | src/app/domain/failures/grouping.py:95-114 | up to `min_samples` 2 two candidates are grouped together exactly when a chain of epsilon-neighbours joins them |
| `GroupingTheorems.ClusterMerges` | src/app/domain/failures/grouping.py:96-114 | in a larger graph every old group lies inside some new group |
| `GroupingResults.GroupsOrderIndependent` | src/app/domain/failures/grouping.py:84-136 | groups, outliers, their order and the metrics are the same for every permutation of the input, when ids identify candidates |
| `GroupingResults.OrderIndependentIff` | src/app/domain/failures/grouping.py:84-117 | groups and outliers, before the metrics are validated, are the same for all permutations if and only if candidates that share an id are equal |
| `GroupingResults.DistinguishingOrder` | src/app/domain/failures/grouping.py:84-86 | otherwise some permutation gives other groups or outliers |
| `GroupingResults.CallOrderIndependentIff` | src/app/domain/failures/grouping.py:71-136 | the outcome of the call, rejections included, is the same for all permutations if and only if candidates that share an id are equal or every permutation is rejected |
| `GroupingResults.RaisingEpsilonMerges` | src/app/domain/failures/grouping.py:84-117 | raising epsilon keeps every old group inside a new one and only removes outliers |
| `GroupingResults.AtMostThreePartitions` | src/app/domain/failures/grouping.py:98-136 | up to `min_samples` 3 the call succeeds, groups and outliers partition the candidates, and coverage stays in 0..1 |
| `GroupingResults.OutlierIffFar` | src/app/domain/failures/grouping.py:84-117 | at the default of two samples a candidate is an outlier exactly when it is listed once and its difference from every other candidate is more than epsilon for each feature name |
| `GroupingResults.ResultInIdOrder` | src/app/domain/failures/grouping.py:84-117 | every result lists the members of a group by id, the groups by their first id, and the outliers by id |
| `GroupingResults.MetricsBalance` | src/app/domain/failures/grouping.py:129-136 | up to `min_samples` 3 grouped and outlying candidates add up to all, and the coverage is one less the share of outliers |
| `GroupingBound.LineRejected` | src/app/domain/failures/grouping.py:98-136 | for every `min_samples` from 4 on, a line of points whose two groups share one border point makes the call fail |
| `GroupingBound.GroupingSucceedsIff` | src/app/domain/failures/grouping.py:71-136 | the call succeeds on all inputs with identifying ids if and only if `min_samples` is at most 3 |
| `GroupingBound.OverlapAccepted` | src/app/domain/failures/grouping.py:98-136 | with one outlier more the coverage is one: for every `min_samples` from 4 on a call succeeds with overlapping groups |
| `GroupingBound.PartitionIff` | src/app/domain/failures/grouping.py:71-136 | success means a partition, on all inputs with identifying ids, if and only if `min_samples` is at most 3 |
| `RunTree.TreesFromFlatRuns` | src/app/adapters/sources/langsmith.py:188-208 | after one pass every known parent has exactly its children and the roots are the parentless runs; of runs with one id the last counts, and children and roots stand in the order in which the response first lists them |
| `RunTree.FlattenRunTree` | src/app/adapters/sources/langsmith.py:176-185 | the worklist, which puts children in front, yields the recursive pre-order |
| `RunTreeResults.ForestHoldsWholeChains` | src/app/adapters/sources/langsmith.py:176-208 | for any run list, with fragments and parent cycles, the flattened forest holds exactly the runs whose parent chain reaches a parentless run, each once |
| `RunTreeResults.SubtreesInOrder` | src/app/adapters/sources/langsmith.py:176-208 | of two runs with the same parent, or without one, the whole subtree of the one that the response lists first comes before the whole subtree of the other in the flattened forest |
| `RunTreeResults.FetchRunTree` | src/app/adapters/sources/langsmith.py:139-151 | a run's tree is found exactly when its parent chain is whole; the tree contains the run and has a parentless root |
| `RunTreeResults.TreeParentsFirst` | src/app/adapters/sources/langsmith.py:176-208 | in a flattened tree the root is first, ids are distinct, and every other run comes after its parent |
| `RunTreeResults.CheckRuns` | src/app/domain/evidence/mapping.py:259-271 | the checks accept exactly the non-empty lists with distinct ids, one root and known parents, and report the first failing check otherwise |
| `RunTreeResults.ConvertIff` | src/app/adapters/sources/langsmith.py:239-273 | a provider run converts exactly when it has a non-empty id and name and usable times; an absent, empty or non-text parent counts as none |
| `RunTreeResults.MapEvents` | src/app/domain/evidence/mapping.py:273-291 | events keep the order, ids, parents, times, names and kinds of the runs, usable allowlisted attributes and stable error codes; a sensitive attribute outside the allowlist refuses the trace |
| `RunTreeResults.InferEventKind` | src/app/domain/evidence/mapping.py:83-88 | the kind of the first prefix of the name that is known |
| `RunTreeResults.SingleTreePassesChecks` | src/app/domain/evidence/mapping.py:259-271 | a single flattened tree never fails the duplicate, root or parent check |
| `RunTreeResults.TreeAcceptedIffTimes` | src/app/domain/evidence/schemas.py:211-249 | the events of a single tree are accepted exactly when no run ends before it starts or starts before its parent |
| `EventTree.ValidateEventTree` | src/app/domain/evidence/schemas.py:221-249 | the single pass reports the first problem of an event list, and none exactly for accepted lists |
| `EventTree.AcceptedIff` | src/app/domain/evidence/schemas.py:221-249 | accepted lists are exactly those with one parentless event whose every event has a new id, does not end early, carries allowed attributes only, and starts no earlier than a parent that stands at or before it; otherwise the first bad event is reported for the first check that it fails |
| `EventTree.ChainsReachRootIff` | src/app/domain/evidence/schemas.py:221-249 | in an accepted list all ancestor chains reach the root if and only if no event is its own parent |
| `EventTree.RootFirstAndEarliest` | src/app/domain/evidence/schemas.py:221-249 | then the only parentless event is the first, and no event starts before it |
| `EventTree.SelfParentAccepted` | src/app/domain/evidence/schemas.py:224-242 | a list whose first event is its own parent, ahead of the root, is accepted |
| `FaultScript.FaultInjectingRepository.NextEntry` | src/app/domain/simulation/faults.py:158-180 | the scan returns the first matching entry that is unused or repeats, and uses it up unless it repeats |
| `FaultScript.FaultInjectingRepository.Invoke` | src/app/domain/simulation/faults.py:132-156 | one call reaches the wrapped repository exactly when it draws no entry or a delay; otherwise it raises the entry's error |
| `FaultScript.EffectMeans` | src/app/domain/simulation/faults.py:132-180 | a call raises a timeout, a connection error or a malformed response exactly when the first entry available to it is of that kind; it goes through on a delay or without an entry |
| `FaultScript.FaultInjectingRepository.GetTicketById` | src/app/domain/simulation/faults.py:118-119 | reading a ticket bypasses the script |
| `FaultScript.RunOperations` | src/app/domain/simulation/faults.py:100-156 | in a run the wrapped repository receives what each operation lets through, in order |
| `FaultScript.SeenIsReaching` | src/app/domain/simulation/faults.py:100-156 | over any run it sees exactly the operations that bypass the script and the calls that drew no entry or a delay |
| `FaultScript.FiresOnce` | src/app/domain/simulation/faults.py:158-180 | in any run an entry that answers two calls is a repeating one |
| `FaultScript.NthCallGetsNthEntryIff` | src/app/domain/simulation/faults.py:158-180 | in every run the n-th call with one tool and arguments gets the n-th matching entry, the first repeat entry answering from then on, if and only if every one-time entry for any arguments of that tool comes after an entry that answers the call forever |
| `FaultScript.SharedEntryIsTaken` | src/app/domain/simulation/faults.py:158-180 | the shortest run in which a call with other arguments takes an entry that both match |
| `ReferenceRunner.ResolveArguments` | src/app/domain/reference/runner.py:157-176 | `$tool.field` becomes the captured text of that field, every other argument stays as it is, and resolution fails exactly when some referenced field was not captured |
| `ReferenceRunner.FaultInjection.Apply` | src/app/domain/reference/runner.py:113-154 | the scan over the entries, with its consumed set, is the specified one; a malformed entry crashes |
| `ReferenceRunner.RunReferenceCase` | src/app/domain/reference/runner.py:210-361 | the retry loop ends and reports the specified run: stop reason, repository, captures, counters and verdict; what the tools receive and why it stops are the rows of `ReferenceCaptures` |
| `ReferenceCaptures.CallsReceiveCaptures` | src/app/domain/reference/runner.py:157-294 | in every run each completed call ran the first tool of its name, on arguments in which each reference was replaced by that field of the latest earlier completed call of the tool that captured anything |
| `ReferenceCaptures.RunEnds` | src/app/domain/reference/runner.py:240-294 | a run stops at the first call whose tool is unknown or needs a missing approval, unless it was over before; safety flag, selections and number of errors follow from why it ended and how often it retried |
| `ReferenceCaptures.ScriptDecides` | src/app/domain/reference/runner.py:113-154 | the first entry that answers a call and is not a delay decides it, and exactly the answering entries up to it are used up |
| `ReferenceResults.RunBounds` | src/app/domain/reference/runner.py:237-294 | at most 3 selections and 2 retries per planned call, 18 tokens per completed call; the run completes exactly when the whole plan was executed |
| `ReferenceResults.SelectionsInOrder` | src/app/domain/reference/runner.py:240-294 | the selected tools are those of the plan in order: each completed call 1 to 3 times, then up to 3 selections of the call at which the run stopped |
| `ReferenceResults.RunInPlanOrder` | src/app/domain/reference/runner.py:240-294 | whatever the script and the tools do, the completed calls are a plan prefix, each by one success after at most two attempts that timed out by themselves, and no other attempt changes repository or captures |
| `ReferenceResults.RunIsPlanPrefix` | src/app/domain/reference/runner.py:236-294 | when no tool times out by itself, the final repository and captures are those of running the completed calls once each, in plan order, whatever the fault script |
| `ReferenceResults.GatedToolsNeverRun` | src/app/domain/reference/runner.py:250-262 | without a verified approval the run does not depend on what the protected unsafe tools do: they never run |
| `ReferenceResults.FaultTransparency` | src/app/domain/reference/runner.py:113-154 | within the retry budget a faulted run stops at the same index with the same repository, captures, outcome, transitions and verdict as without faults |
| `ReferenceResults.ThreeTimeoutsExhaust` | src/app/domain/reference/runner.py:264-284 | the budget is tight: three timeouts of one tool end a run that completes without faults |
| `ReferenceResults.VerdictNeedsContract` | src/app/domain/reference/runner.py:308-340 | the verdict is not a failure exactly when clean-up works, all observed transitions are permitted, all required ones observed and the outcome is the expected one |
| `ReferenceResults.VerdictMeans` | src/app/domain/reference/runner.py:308-340 | transitions are the recorded creations and status changes; the errors are the disallowed ones, then the missing ones; outcome, reason and verdict of a failed clean-up, a broken contract, and otherwise of the observation |
| `Simulation.RenamingKeepsReferences` | src/app/domain/bundle/extract.py:28-91 | an injective renaming keeps distinct ids distinct and references resolved, and creates neither |
| `Simulation.SoundIff` | src/app/domain/support/models.py:20-89 | a state fits the tables exactly when order, ticket and policy ids are distinct, no amount is negative, no two policies share slug and version, and tickets name existing orders |
| `Bundle.ExtractResourceSeeds` | src/app/domain/bundle/extract.py:93-129 | extraction yields the non-empty seeds in resource order exactly when every text is non-empty and allowed, and nothing otherwise |
| `Bundle.ExtractableIff` | src/app/domain/bundle/extract.py:38-129 | a state can be extracted exactly when the text rule allows each status, subject and policy text and none of the free texts is empty |
| `Bundle.ResourcesByType` | src/app/domain/bundle/schemas.py:293-300 | grouping joins the records of all seeds of a resource, in order |
| `Bundle.StateFromBundle` | src/app/domain/simulation/runner.py:146-179 | loading yields a state exactly when the records of each resource describe its orders, tickets and policies one by one, in order, and fails otherwise |
| `Bundle.ReloadIsRename` | src/app/domain/simulation/runner.py:146-179 | loading what was extracted gives exactly the source state with every id renamed |
| `Bundle.ReloadIsFaithful` | src/app/domain/bundle/extract.py:28-129 | states with the same seeds are equal, when the renaming merges no ids |
| `Bundle.CustomersSeededOnce` | src/app/domain/bundle/extract.py:38-49 | a customer is seeded exactly when an order or ticket references it, and then once, under its synthetic id with name and address derived from the first digits of that id |
| `Evaluators.CheckStateTransitions` | src/app/domain/comparison/evaluators.py:165-188 | the check reports, in order, the required transitions that no mutation fulfils, and passes exactly when all occurred |
| `Evaluators.MissingInOrder` | src/app/domain/comparison/evaluators.py:165-188 | missing transitions are reported in the order in which they are required |
| `Evaluators.UnexpectedMembers` | src/app/domain/comparison/evaluators.py:221-239 | the unexpected mutations are exactly those that no permitted transition covers; `Evaluators.UnexpectedIffOutside` and `RefundResults.NothingUnexpectedIff` say when one does |
| `Evaluators.UnexpectedIffOutside` | src/app/domain/comparison/evaluators.py:191-239 | a mutation is reported exactly when it differs from every permitted transition in resource, id, field, reason, origin or target |
| `Evaluators.UnnamedIsReported` | src/app/domain/comparison/evaluators.py:191-239 | without a wildcard a change of a resource that no permitted transition names is always reported |
| `Evaluators.UnexpectedInOrder` | src/app/domain/comparison/evaluators.py:221-239 | unexpected changes are reported in the order in which they happened |
| `Evaluators.MissingRenamed` | src/app/domain/bundle/compiler.py:131-149 | renaming expectation and mutations alike leaves the same transitions missing |
| `Evaluators.UnexpectedRenamed` | src/app/domain/bundle/compiler.py:149-168 | and the same mutations unexpected |
| `Evaluators.VerdictsKept` | src/app/domain/bundle/compiler.py:131-168 | both evaluators judge alike before and after, whatever ids the replay gives to resources the expectation does not name |
| `Evaluators.KeepsVerdictsIffInjective` | src/app/domain/bundle/extract.py:28-35 | a renaming keeps every verdict of both checks if and only if it is injective |
| `Evaluators.FulfillableIffConcrete` | src/app/domain/comparison/evaluators.py:165-188 | some list of mutations fulfils the required transitions if and only if none uses the wildcard; what runs of the tools fulfil is `RefundResults.FulfilledBySomeRunIff` |
| `Evaluators.FulfilledIsPermitted` | src/app/domain/comparison/evaluators.py:191-218 | what fulfils a transition is permitted by it, except for ticket creations, where the two checks look at different fields |
| `Replay.RunsSame` | src/app/domain/simulation/postgres.py:305-352 | the tools respect renaming: renamed calls on renamed tables leave the renamed tables, proposals and log |
| `Replay.CallSame` | src/app/domain/agent/service.py:162-277 | each tool call answers the renamed reply |
| `Replay.BundleRepeatsRun` | src/app/domain/simulation/runner.py:146-205 | a run on the reloaded bundle writes the renamed log of the run on the source state |
| `Replay.BundleKeepsVerdict` | src/app/domain/bundle/compiler.py:131-190 | and the compiled expectation judges it as the source expectation judges the source run |
| `VersionedStore.VersionsAreOneToN` | src/app/domain/evidence/store.py:93-98 | the stored versions of an id are exactly 1 up to the largest |
| `VersionedStore.RowsDiffer` | src/app/domain/evidence/models.py:27-37 | later rows of an id have a larger version and another hash |
| `ImportProtocol.RunKeepsInv` | src/app/domain/evidence/service.py:57-118 | the invariant of locks, open inserts and answers holds in every state of every interleaving |
| `ImportProtocol.TableFacts` | src/app/domain/evidence/service.py:57-118 | over every interleaving versions are exactly 1..n, a version or a hash names one row, and every row was written by the one transaction that committed and reported it |
| `ImportProtocol.AnswersNameRows` | src/app/domain/evidence/service.py:65-118 | each answer of a committed transaction names a stored row with the content sent; no two transactions report inserting one version or one content of an id |
| `ImportProtocol.RunOnlyAppends` | src/app/domain/evidence/store.py:100-137 | rows are append-only and committed answers final |
| `ImportProtocol.RaceNeverLost` | src/app/domain/evidence/service.py:95-109 | under the lock the branch for a lost race is unreachable and no insert waits, however many imports a transaction makes |
| `ImportProtocol.EvidenceImportsSerialized` | src/app/domain/evidence/store.py:62-65 | with the evidence lock key, two imports under way at once are of ids that differ in their first eight bytes |
| `ImportService.ImportStore.ImportEvidence` | src/app/domain/evidence/service.py:44-118 | one call without events is an error; otherwise an exact copy is found again, and anything else becomes the next version |
| `ImportService.ImportStore.SaveImport` | src/app/domain/evidence/store.py:100-137 | a row is appended exactly when it violates neither uniqueness constraint |
| `ImportService.ImportAnswers` | src/app/domain/evidence/service.py:57-118 | a stored content is answered with its version and changes nothing; a new one is stored under the next version, counting from one, and answered as inserted |
| `ImportService.ImportsAreDeduplicated` | src/app/domain/failures/feedback.py:159-193 | after any sequence of imports an id has one version per different content, and no other |
| `ImportService.ReimportFindsVersion` | src/app/domain/evidence/service.py:59-73 | importing a content again, after anything else, answers the version it first got and changes nothing |
| `ImportService.UndisturbedImport` | src/app/domain/evidence/service.py:57-118 | one import of a transaction, without interruption, does what the service method does and answers the same |
| `ImportService.UndisturbedTransaction` | src/app/adapters/sources/langsmith_feedback.py:31-46 | a whole transaction of several imports stores what its imports would store one after the other |
| `RegressionCases.CaseLibrary.SaveCase` | src/app/domain/regression/service.py:41-112 | the review and hash errors change nothing; otherwise the table and the answer are the specified ones |
| `RegressionCases.CaseLibrary.InsertVersion` | src/app/domain/regression/repository.py:112-139 | a row is stored exactly when neither its version nor its content is stored for the case |
| `RegressionCases.SaveAnswers` | src/app/domain/regression/service.py:63-112 | the answer always names the newest row; it holds the content sent if and only if that content is new to the case or is its newest; otherwise nothing is stored and the status is updated |
| `RegressionCases.SaveStatus` | src/app/domain/regression/service.py:63-112 | the first save of a case is answered as created, one of its newest content as unchanged, and any other as updated |
| `RegressionCases.OlderContentAnswersNewest` | src/app/domain/regression/service.py:90-105 | saving A, B and A again answers B's row as updated |
| `RegressionCases.UniquenessAlone` | src/app/domain/regression/service.py:63-112 | over every interleaving without a lock versions are exactly 1..n, answers name stored rows, and the case-not-found error after a refused insert is unreachable |
| `RegressionCases.InsertAcceptedIff` | src/app/domain/regression/service.py:73-90 | in every run an insert is accepted if and only if the row that was read is still the newest and the content is not stored yet |
| `RegressionCases.OwnContentIff` | src/app/domain/regression/service.py:63-112 | in every run the answer names the content sent if and only if it was inserted or is the newest row at the answering step; otherwise it names the newest row, as updated |
| `RegressionCases.RunOnlyAppends` | src/app/domain/regression/models.py:20-26 | history is never rewritten |
| `RegressionCases.SaveCanBeLost` | src/app/domain/regression/service.py:64-105 | a run in which a caller is answered another caller's row and its own content is stored nowhere |
| `Review.ReviewRepository.SaveProposal` | src/app/domain/failures/repository.py:58-69 | an equal fingerprint keeps and answers the stored proposal |
| `Review.ReviewRepository.ProposeGroups` | src/app/domain/failures/service.py:31-41 | proposals are stored in order, equal fingerprints once, and agreement with the reviews is kept |
| `Review.ReviewRepository.ReviewProposal` | src/app/domain/failures/service.py:55-120 | the input errors in order, then not found, then exactly one accepted review, repeats answered and conflicts refused |
| `Review.ReviewRepository.RequireConfirmed` | src/app/domain/failures/service.py:122-140 | the confirmed group, or nothing |
| `Review.DecideKeeps` | src/app/domain/failures/service.py:55-120 | a review call keeps every proposal in agreement with its review |
| `Review.InputErrorMeans` | src/app/domain/failures/service.py:66-74 | a review is accepted exactly when reviewer and reason have a character that is not white space and a kind comes with a correction and with nothing else; the error names what is missing first |
| `Review.StatusShowsReview` | src/app/domain/failures/schemas.py:165-177 | a proposal is open exactly while it has no review, and otherwise shows its decision, reviewer and corrected kind |
| `Review.DecisionStands` | src/app/domain/failures/service.py:31-120 | an accepted decision is complete and stored as sent, and stands through any later calls: proposing does not reopen it, the same review is answered alike, every other is refused |
| `Review.ConfirmedIff` | src/app/domain/failures/service.py:122-140 | a group is handed on if and only if it was reviewed and not rejected, with the corrected kind when there is one |
| `ReviewProtocol.RunKeepsInv` | src/app/domain/failures/service.py:55-120 | the invariant over row locks, open writes and answers holds in every state of every interleaving |
| `ReviewResults.DatabaseAlwaysAgrees` | src/app/domain/failures/repository.py:162-233 | in every state of every run a proposal is open exactly when it has no review, and otherwise equals the proposal settled by that review |
| `ReviewResults.SettledForever` | src/app/domain/failures/repository.py:194-233 | settled proposals and reviews never change or disappear |
| `ReviewResults.AnswersAreFinal` | src/app/domain/failures/service.py:72-120 | every accepted review call was answered the proposal as it stays stored |
| `ReviewResults.LockedReviewerIsNotRefused` | src/app/domain/failures/service.py:72-109 | while a reviewer holds the row lock its review is not refused, and no review appears once it saw the proposal open |
| `ReviewResults.LockHolderIsNotMisled` | src/app/domain/failures/service.py:72-120 | in every run, a reviewer that asked for the lock while the proposal was stored is answered its own decision, or an error |
| `ReviewResults.OwnGuaranteedIff` | src/app/domain/failures/service.py:72-120 | accepted answers are the caller's own decision, in all runs, if and only if the proposal was stored when the lock was requested |
| `ReviewResults.IdenticalRepeat` | src/app/domain/failures/service.py:74-83 | in every run, a call that comes after the decision is answered the stored proposal if it repeats the stored review, and is refused otherwise |
| `ReviewResults.UnlockedReviewerCanBeMisled` | src/app/domain/failures/repository.py:194-199 | a run in which a lock taken before the proposal exists lets a second reviewer be answered the first one's decision |
| `Comparison.EvaluatorMap` | src/app/domain/comparison/compare.py:80-81 | the last result of an evaluator counts, an absent one failed |
| `Comparison.BuildDeltas` | src/app/domain/comparison/compare.py:126-233 | the deltas, evaluator by evaluator in name order |
| `Comparison.DeltaMeans` | src/app/domain/comparison/compare.py:126-233 | each delta is marked as changed, and as a regression, exactly for what its own criterion says of the two runs |
| `Comparison.EvaluatorsByName` | src/app/domain/comparison/compare.py:152-176 | the outcome comes first and the evaluators follow by name |
| `Comparison.MeasurementsLast` | src/app/domain/comparison/compare.py:177-233 | the six last deltas are state, trajectory, retries, latency, tokens and cost |
| `Comparison.RegressionsIff` | src/app/domain/comparison/compare.py:126-350 | a criterion is listed as regressed exactly when the candidate is worse in it |
| `Comparison.BlockedIff` | src/app/domain/comparison/compare.py:236-350 | the blocking reasons of comparable runs are exactly the declared budgets that one run did not measure, the regressed safety evaluators, and a lost outcome |
| `Comparison.RegressedIff` | src/app/domain/comparison/compare.py:126-233 | some delta is a regression exactly when the candidate is not at least as good |
| `Comparison.CompareRuns` | src/app/domain/comparison/compare.py:253-364 | a run of another bundle, version or scenario is an error; otherwise the branching verdict is the one given by the order on outcome match, evaluators and retries, and regressions and blocking reasons are those of the deltas and budgets |
| `Comparison.PassesIsDominance` | src/app/domain/comparison/compare.py:320-350 | passing is strict Pareto dominance among comparable, fully measured runs |
| `Comparison.PassesTransitive` | src/app/domain/comparison/compare.py:253-350 | passing is transitive |
| `Comparison.PassesIrreflexive` | src/app/domain/comparison/compare.py:253-350 | no run passes or regresses against itself |
| `Comparison.SwapRegresses` | src/app/domain/comparison/compare.py:253-350 | a candidate passes exactly when the swapped comparison regresses and this one does not |
| `Comparison.NoDifferenceIsEquality` | src/app/domain/comparison/compare.py:320-350 | no material difference means equal outcome match, equal evaluators passed and equal retries |
| `Comparison.NoDifferenceIsEquivalence` | src/app/domain/comparison/compare.py:320-350 | it is an equivalence among comparable, fully measured runs |
| `Comparison.VerdictRespectsEquivalence` | src/app/domain/comparison/compare.py:253-350 | the verdict does not distinguish runs without a material difference |
| `ModelLab.BuildSideTotals` | src/app/domain/comparison/model_lab.py:161-198 | the counters, sums, rounded rates and tool counts of one side |
| `ModelLabResults.OneMoreOutcome` | src/app/domain/comparison/model_lab.py:161-198 | what one more outcome adds to each counter and sum of its side |
| `ModelLabResults.TotalsAreRounded` | src/app/domain/comparison/model_lab.py:161-198 | costs are rounded to a millionth, latencies to a hundredth and rates to four places, and averages divide by the successes, the measured latencies and the outcomes |
| `ModelLab.RunModelLab` | src/app/domain/comparison/model_lab.py:311-442 | the empty cohort and the bound; otherwise the cases are those of the cohort, in order, the totals are theirs, and the advice is computed from them: `ModelLabResults.ReasonIff` says which |
| `ModelLab.RoundToMonotone` | src/app/domain/comparison/model_lab.py:183-194 | rounding half to even never reverses an order |
| `ModelLab.AlwaysDecisive` | src/app/domain/comparison/model_lab.py:297-308 | the last return is dead for all totals |
| `ModelLabResults.SuccessesBalance` | src/app/domain/comparison/model_lab.py:345-436 | baseline successes plus improvements equal candidate successes plus regressions |
| `ModelLabResults.LowerSuccessIsDead` | src/app/domain/comparison/model_lab.py:265-272 | without regressions the candidate succeeds at least as often, so the lower-success branch is dead |
| `ModelLabResults.RecommendedIff` | src/app/domain/comparison/model_lab.py:201-308 | the exact condition of a recommendation, in terms of the cases |
| `ModelLabResults.KeepBaselineIff` | src/app/domain/comparison/model_lab.py:201-308 | the baseline is kept exactly when there are enough cases and one regresses in task success, safety or state, or all are sound, both sides succeed and the candidate costs more per success |
| `ModelLabResults.InconclusiveIff` | src/app/domain/comparison/model_lab.py:201-308 | nothing is advised exactly when there are too few cases, or none is worse and no side succeeds, a measurement is missing, or rate and cost per success are equal |
| `ModelLabResults.ReasonIff` | src/app/domain/comparison/model_lab.py:201-308 | the reason of each answer is exactly the one that the cases give |
| `ModelLabResults.CaseMeans` | src/app/domain/comparison/model_lab.py:345-436 | when a case counts, which side succeeds, what each kind of regression is, and that the measurements are those of the runs |
| `ModelLabResults.RecommendationKeepsSuccesses` | src/app/domain/comparison/model_lab.py:201-308 | a recommended candidate keeps every baseline success, fully measured |
| `RefundAgent.SupportRepository.RefundOrderIfDelivered` | src/app/domain/support/repository.py:52-67 | a delivered order of the customer is refunded, otherwise nothing changes |
| `RefundAgent.ObservedRepository.RefundOrderIfDelivered` | src/app/domain/simulation/postgres.py:139-153 | the refund is logged exactly when it happened, with the next number |
| `RefundAgent.ObservedRepository.CreateTicket` | src/app/domain/simulation/postgres.py:155-165 | a created ticket is logged with its whole row |
| `RefundAgent.SupportAgent.RequestRefund` | src/app/domain/support/service.py:51-71 | ownership, then status, then the atomic refund; a raised error changes nothing |
| `RefundAgent.SupportAgent.ToolProposeRefund` | src/app/domain/agent/service.py:191-238 | a proposal is made only for the customer's delivered order |
| `RefundAgent.SupportAgent.ToolConfirmRefund` | src/app/domain/agent/service.py:240-262 | a refund needs the trusted flag and a pending proposal, which success alone consumes |
| `RefundAgent.SupportAgent.ToolEscalate` | src/app/domain/agent/service.py:264-277 | a ticket for the bound customer |
| `RefundAgent.SupportAgent.ConfirmedRefundFor` | src/app/domain/agent/service.py:134-145 | the confirmed refund, while its order is the last one read |
| `RefundAgent.PostgresSandbox.Seed` | src/app/domain/simulation/postgres.py:268-277 | the state is remembered, and the tools start on the seeded tables with an empty log unless it violates a key, a reference or a check |
| `RefundAgent.TablesHoldRows` | src/app/domain/simulation/postgres.py:268-300 | the seeded tables hold exactly the rows of the state, under their ids |
| `RefundAgent.PostgresSandbox.Reset` | src/app/domain/simulation/postgres.py:296-300 | whatever was called before, the tools start over on the seeded tables |
| `RefundAgent.PostgresSandbox.CallTool` | src/app/domain/simulation/postgres.py:305-367 | nothing can be called before seeding |
| `RefundResults.RefundNeedsProposal` | src/app/domain/agent/service.py:240-262 | a call logs a refund only with the trusted flag, an earlier unconsumed proposal for that order, and the customer's delivered order |
| `RefundResults.PendingIsOpenProposal` | src/app/domain/agent/service.py:226-262 | the pending proposals are exactly those made and not consumed since |
| `RefundResults.ConfirmationAlwaysPasses` | src/app/domain/comparison/evaluators.py:135-149 | after any sequence of tool calls the refund-confirmation check passes |
| `RefundResults.LogReplays` | src/app/domain/simulation/postgres.py:184-206 | the log is numbered 1..n, and replaying it on the seeded tables gives the final orders and tickets |
| `RefundResults.RefundedOnce` | src/app/domain/simulation/postgres.py:139-153 | no order is refunded twice |
| `RefundResults.ReportedRefundIsReal` | src/app/domain/agent/service.py:134-145 | a reported confirmed refund is the stored, refunded order of the customer |
| `RefundResults.OthersUntouched` | src/app/domain/support/service.py:26-36 | orders of other customers never change, and of the customer's only a delivered status does |
| `RefundResults.OnlyRefundsFulfil` | src/app/domain/comparison/evaluators.py:165-188 | a required transition that a run fulfils is the confirmed refund of an order that was the customer's and delivered at the start |
| `RefundResults.FulfilledBySomeRunIff` | src/app/domain/comparison/evaluators.py:165-188 | some run of the tools fulfils a required transition if and only if it is the confirmed refund, from delivered, of an order that is the customer's and delivered at the start; ticket creations never are |
| `RefundResults.SeededFulfilledIff` | src/app/domain/simulation/postgres.py:268-300 | the same, and the refund-confirmation check, for a sandbox that was seeded or reset |
| `RefundResults.RefundedWereDelivered` | src/app/domain/support/repository.py:52-67 | every logged refund is of an order that was the customer's and delivered at the start |
| `RefundResults.NothingUnexpectedIff` | src/app/domain/comparison/evaluators.py:191-239 | after any calls of the tools nothing unexpected is reported if and only if every order that changed is permitted to go from delivered to refunded, and every ticket that appeared is permitted by its id or by the wildcard |
| `RefundResults.RepliesFit` | src/app/domain/agent/service.py:162-277 | every reply and every error of a tool fits the tables before the call and after it: what it shows, what it changed, and why it was refused |
| `RefundResults.LogEntriesMean` | src/app/domain/simulation/postgres.py:139-165 | every entry of the log records a refund, from delivered to refunded, of the customer's order, or a whole new ticket of the customer |
| `RefundResults.ReportedIff` | src/app/domain/agent/service.py:134-145 | a refund is reported if and only if a call made it and no other order was read since its order was last read |
| `EventCollector.MakeCollector` | src/app/domain/simulation/events.py:155-162 | a buffer below one is refused |
| `EventCollector.Collector.EmitEvent` | src/app/domain/simulation/events.py:164-182 | the event gets the next number and enters every queue, a full one losing its oldest event; an event with an attribute outside the allowlist is refused after its number was given out |
| `EventCollector.Collector.Turn` | src/app/domain/simulation/events.py:200-214 | a stream ends only when told to and drained, and otherwise delivers the head of its queue |
| `EventCollector.StreamFacts` | src/app/domain/simulation/events.py:122-214 | in every interleaving, refused emits included, the numbers of the transcript rise strictly, each queue is its contiguous end within the bound, deliveries rise strictly, and events since the subscription are delivered, waiting or dropped |
| `EventCollector.NumberedIff` | src/app/domain/simulation/events.py:170-177 | the transcript is numbered 1..n if and only if no refused emit precedes an accepted one |
| `EventCollector.TranscriptIsAsked` | src/app/domain/simulation/events.py:164-182 | the transcript holds exactly the allowed emits of the run, in order, payload and attributes unchanged |
| `EventCollector.SequenceCountsRefusals` | src/app/domain/simulation/events.py:170-177 | the last number given out is ahead of the transcript by one for each refused emit |
| `EventCollector.RefusedEmitLeavesGap` | src/app/domain/simulation/events.py:122-177 | one refused emit and an accepted one: the transcript starts at number two |
| `EventCollector.DrainedIsComplete` | src/app/domain/simulation/events.py:188-214 | a drained stream delivered every event since it subscribed if and only if its queue never overflowed |
| `EventCollector.NextDelivery` | src/app/domain/simulation/events.py:177-182 | the next delivery is the event in the transcript after the last one delivered, or, with more than the bound outstanding, the oldest the queue still holds |
| `Fusion.MergeLists` | src/app/domain/retrieval/fusion.py:29-39 | the four dictionaries hold, per chunk, its first hit, summed score, and last position and score per source |
| `Fusion.ReciprocalRankFusion` | src/app/domain/retrieval/fusion.py:12-56 | a limit below one gives nothing, then a k below one is an error; otherwise the first chunks of the fused order, so a smaller limit gives a prefix |
| `FusionResults.EarlierOutranks` | src/app/domain/retrieval/fusion.py:40-43 | no chunk appears twice; a chunk comes earlier for its score, or at equal scores for its id |
| `FusionResults.FusedOrderComplete` | src/app/domain/retrieval/fusion.py:29-43 | the fused order holds exactly the retrieved chunks |
| `FusionResults.ScoreIsReciprocalSum` | src/app/domain/retrieval/fusion.py:29-39 | in lists without duplicates the score of a chunk is the sum, over the lists that hold it, of one over k plus its position |
| `FusionResults.FusedHitMeans` | src/app/domain/retrieval/fusion.py:29-56 | a fused hit is ranked from one, carries the first retrieved hit of its chunk, and shows for each source the position and score of that source's last hit |
| `FusionResults.FusionPermutes` | src/app/domain/retrieval/fusion.py:12-56 | permuting the lists changes neither chunks nor scores nor order |
| `FusionResults.DominantOutranks` | src/app/domain/retrieval/fusion.py:29-43 | a chunk ahead of another in every list that holds the other outranks it |
| `FusionResults.BothAlwaysWinsIff` | src/app/domain/retrieval/fusion.py:29-43 | a chunk in both of two duplicate-free lists outranks every chunk in one if and only if the lists hold at most k + 1 hits |
| `Chunking.MakeChunker` | src/app/domain/retrieval/chunking.py:25-36 | the settings errors, in order |
| `Chunking.SplitJoin` | src/app/domain/retrieval/chunking.py:13-15 | splitting the text of a chunk gives its tokens back, so the text is never empty |
| `Chunking.TokensAtSpace` | src/app/domain/retrieval/chunking.py:13-15 | white space parts a text into the tokens before it and those after it |
| `Chunking.DeterministicChunker.ChunkText` | src/app/domain/retrieval/chunking.py:38-69 | chunk i starts i steps in, there is one chunk or 1 + ceil((n - size) / step) of them, their words are parted by single spaces, and the empty-text break is never taken |
| `Chunking.NeighboursOverlap` | src/app/domain/retrieval/chunking.py:44-69 | every chunk but the last is full, and neighbours share exactly `overlap` tokens |
| `Chunking.ChunksRebuild` | src/app/domain/retrieval/chunking.py:44-69 | the first chunk and every later one without its first `overlap` tokens rebuild the token list |

## Left out

- Floating-point rounding: distances, scores, costs and latencies are reals. Only the decimal rounding of the cohort totals is modelled.
- UUIDs, hashes and JSON text: a UUID is its 128-bit value, and a version-5 UUID (section 5.5 of RFC 9562) or a SHA-256 digest is an injective function of what it is computed from.
- Clocks, sleeping and time limits: a tool that exceeds its limit is a tool that raises a timeout.
- Group ids, candidate normalisation of feature texts, and the payload of proposals: strings that carry no logic here.
- Token, timing and dependency aggregates of a trace, dropped keys, durations, and the allowlists for task input and output.
- `Bundle.StateFromBundle`: a scalar of another JSON type makes loading fail; the program would turn it into text, but the schema of a seed has refused it before.
- Run trees keep children as a map from id to ids; the program shares one list object between the two places it is stored in.
- Reference runs: the event transcript, the wording of the recorded errors, and repositories that tools change behind the workflow's back; a repository is a value that each tool maps to the next.
- Bundle identity, evidence links, fixtures, coverage, redaction and the secret scan; the text rule is a parameter that accepts or refuses a text.
- The other eight evaluators, the wording of evaluator reasons, and the verdict of a single simulation run, which is an input of `Comparison`.
- Row locks and uniqueness checks of PostgreSQL are the steps of the protocols; deadlock detection appears only as the right of any open transaction to abort. Session caches are not modelled.
- A proposer stores one proposal per transaction in `ReviewProtocol`; the service method stores a sequence.
- `ImportService.ImportStore.ImportEvidence`: models the SQL store with both constraints; the in-memory feedback store checks only the revision.
- Parsing of annotations and their trace and event references, before the feedback import takes its lock.
- Case listing and retrieval, evidence links of cases, and the bundle JSON stored with them.
- The text of comparison deltas, the policy-outcome counters of a cohort, and the wording of recommendations.
- `RefundAgent.PostgresSandbox.CallTool`: leaves out get_policy, which changes no table, and the parsing of tool names and arguments, which fails before any call.
- Tracing spans, tool errors kept for the response, and the routing of turns.
- Streams: the 0.1 second poll is one turn of the loop; an event lost by a cancelled wait is not modelled.
- Chunk ids, content hashes and metadata; retrieval stages and their spans.
- HTTP, command line, viewers, configuration, logging, migrations, hosted models and embeddings.
