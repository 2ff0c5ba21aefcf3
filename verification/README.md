# Verification of the news service's core

This project models the parts of the repository whose correctness is a statement
about many steps at once, and proves what they promise. Each area has its own
modules; the classes are the mapped rows or objects whose fields the source
assigns, their methods are proved against functions on values, and those functions
are what the labelled transition systems and the theorems are about.

- **Search projections** (`Projections`, `SearchProtocol`, `SearchSafety`,
  `SearchPreservation`, `SearchTheorems`, `SearchProgress`, `SearchRebuilds`,
  `SearchBatches`). News commits, projection events, the indexer's transactions, the
  six statements that read a document, the engine's queue, crashes and full rebuilds
  are steps of their own, in any order. A document may be torn over several commits; every part
  carries its provenance. The theorems say what a row that is ready, or whose
  visibility has caught up, guarantees about the public index.
- **Delivery** (`Outbox`, `Inbox`, `Delivery`, `DeliveryTheorems`). Publishers with
  leases, a broker that may lose its answer, redelivery at any time, an inbox
  transaction and dead letters.
- **Freshness** (`Freshness`). Both together: a commit and its event are one
  transaction, and so are the inbox marker and the projection's new target.
- **Fencing** (`Attachments`, `AttachmentFencing`; `Coordinator`, `PipelineRuns`,
  `PipelineTheorems`; `Rematerialization`, `Sweeps`). Attachment jobs and attempts,
  pipelines that must give a news item up once they are superseded and those that have
  yet to begin, and the cursor sweep of a rematerialization.
- **Labels** (`Normalization`, `Scoring`, `Opinions`, `Materializer`,
  `MaterializerTheorems`, `ManualLabels`, `ManualEdits`, `ManualTheorems`). What is
  kept of a classifier's answer, how the opinions stored about a news item resolve,
  which scores follow, and why an editor's decision cannot be overridden.
- **Reposts** (`SimilarityGraph`, `UnionFind`, `Duplicates`, `DuplicateGroups`). The
  inverted index and the union-find with path halving against the connected
  components of the similarity graph.
- **Arithmetic of the tools** (`Quotas`, `Sampling`, `Kappa`) and the **taxonomy**
  plan with its fixed point (`Taxonomy`, `TaxonomySources`, `TaxonomyFixedPoint`).
- `Sorting`, `Filtering`, `Texts` and `Options` hold what several areas share.

How the source is read:

- A database transaction is one atomic step that happens or does not. Where the
  source locks a row the step takes effect at once; where it skips locked ones, any
  row that qualifies may be taken. The advisory lock of the indexer is the single
  worker slot of the search protocol.
- Every statement of the document query sees all commits made before it. Claims
  about search projections are phrased by revision and not by status, because
  starting a pipeline changes a status without raising the revision.
- The search engine runs what it accepted in order, each piece succeeds or fails,
  and may finish long after its waiter gave up. Temporary indexes have unused names.
- Ids that are only compared are numbers, except where their text matters (decision
  ids, keys of opinions). Times are numbers that do not decrease. Confidences and
  ratios are exact: floating point rounding is not modelled.
- Random choices are parameters: the sample drawn from a pool is any function that
  returns so many distinct positions of it. New ids are parameters required to be
  unused.

Results worth knowing before changing the code:

- The outcome of a recomputation depends on the order of its queries exactly when
  two opinions tie for the first place of an axis (`OrderMattersExactly`). A tie needs
  one key stored under two origins of the same priority; the schema allows that, as
  with an attempt filed both as a classifier's and as a shadow's
  (`FiledTwiceFollowsOrder`), though an attempt's labels are written only once.
- A dead letter among attachment jobs is not final: a slot that outlives its lease may
  still complete the job another slot has given up. `DeadLetterCanSucceed` has the run
  and `DeadLetterStaysOrSucceeds` the exact condition.
- Starting a pipeline is not fenced. A reprocess or a newer pipeline supersedes an older
  one exactly if that has begun (`ReprocessSupersedes`, `NewerSupersedes`). One that has
  not begun takes the news item when its turn comes (`UnbegunTakesTheNews`), and can
  publish it in the newer one's place (`OlderOvertakes`).
- Quotas may exceed the asked size through rounding, by at most half a post per
  channel, exactly when the first shares do (`OvershootsExactly`, `FiveOvershoot`).
- Changing the kind of a stored facet in the taxonomy file can never go through: the
  plan patches the facet and the server refuses (`KindChangeIsRefused`,
  `KindChangeExample`). `GoesThroughExactly` says when a plan does.
- Which evidence a kept label carries follows the order of the answers exactly where
  another answer has the same axis, value, confidence and reason
  (`EvidenceInAnyOrder`, `EvidenceFollowsOrder`).

## Model

| member | source | states |
|---|---|---|
| Projections.Row.Claim | services/main/lib/infra/clients/search/indexer.py:184-210 | a claim marks the row as being indexed, stamps it, and hands out its target revision and the engine task already sent for it; nothing else moves |
| Projections.Row.StoreTask | services/main/lib/infra/clients/search/indexer.py:212-219 | the task id is stored, and the row stamped, exactly while the target still is the claimed revision; else nothing changes |
| Projections.Row.Complete | services/main/lib/infra/clients/search/indexer.py:221-237 | the row becomes ready at the claimed revision with the news's visibility, or, when target or news moved on, goes back to pending with its target raised and its engine task forgotten |
| Projections.Row.Fail | services/main/lib/infra/clients/search/indexer.py:239-248 | the row becomes failed; its engine task is forgotten exactly when that failed |
| Projections.Row.Zero | services/main/lib/infra/clients/search/indexer.py:122-135 | before a rebuild a row forgets what is indexed and visible and its engine task |
| Projections.Row.Record | services/main/lib/infra/clients/search/indexer.py:137-156 | the checkpoint of a rebuild: ready only if the news still is at the snapshot's two revisions, else pending towards the newer one |
| Projections.Row.Request | services/main/lib/core/workers.py:247-257 | an event raises the target to the larger of its own revision, the row's and the news's, and forgets the engine task |
| SearchPreservation.ScanStepSeen | services/main/lib/infra/clients/search/indexer.py:159-182 | during a rebuild each statement of a document is read no earlier than the revision the document is checkpointed at, and the checkpoint's two revisions differ as the news's do |
| SearchTheorems.StepKeepsInv | services/main/lib/infra/clients/search/indexer.py:76-248 | every step of news writers, events, indexer, engine, crashes and rebuild keeps the invariant of the protocol for every news item |
| SearchTheorems.ReadyAgrees | services/main/lib/infra/clients/search/indexer.py:76-94 | in every reachable state, a row that is ready at revision r means every part the public index serves for the item, or its absence, was read while the news was at r, and no accepted engine task will change it |
| SearchTheorems.SingleStateIsExact | services/main/lib/infra/clients/search/indexer.py:250-322 | if only one committed state of the news has revision r, a document read at r is that state's document, untorn |
| SearchTheorems.VisibilityBarrier | services/main/lib/infra/clients/search/indexer.py:96-113 | once a row's visibility revision has caught up with the news's, the index serves what was read at the current revision, before, during and after a rebuild |
| SearchTheorems.NothingWithdrawnIsServed | services/main/lib/infra/clients/search/indexer.py:96-113 | behind an open barrier a news item none of whose states at its current revision is public is not in the index |
| SearchTheorems.NoLostWakeup | services/main/lib/infra/clients/search/indexer.py:184-210 | indexed <= desired <= news revision always, and a row is behind its target exactly if it is claimable one lease from now |
| SearchTheorems.RebuildCovers | services/main/lib/infra/clients/search/indexer.py:122-156 | when a rebuild records its checkpoints every news item it began with has one, the index serves what was read no earlier than the checkpoint, and nothing else |
| SearchProgress.OnePass | services/main/lib/infra/clients/search/indexer.py:76-94 | one undisturbed pass over a claimable row ends ready, serving exactly the document of the newest state or what the engine task already sent had read at the target; or pending with the target moved to the newest revision; or, if that task had failed, with the task forgotten and the row claimable a lease later |
| SearchProgress.AlwaysCatchesUp | services/main/lib/infra/clients/search/indexer.py:76-248 | from every reachable state a row that is behind can still be brought to ready at the newest revision, in at most three passes, with the index serving what was read there |
| SearchProgress.StoreKeepsTheTask | services/main/lib/infra/clients/search/indexer.py:212-219 | a task just sent is on the row afterwards if the row still aims at what it was read for, and the indexer waits for it |
| SearchProgress.FailureKeepsTheTask | services/main/lib/infra/clients/search/indexer.py:239-248 | a failure forgets the task exactly if the task is what failed; a crash forgets nothing |
| SearchProgress.ClaimHandsOutTheTask | services/main/lib/infra/clients/search/indexer.py:184-210 | a later claim hands out the stored task and the target |
| SearchProgress.CrashedPassResumes | services/main/lib/infra/clients/search/indexer.py:76-94 | a pass cut short after its task was stored is taken up again without sending the engine anything, and unless the task failed ends with what it wrote being served |
| SearchProgress.RecordedIsReadyExactly | services/main/lib/infra/clients/search/indexer.py:137-156 | a checkpoint leaves a row ready exactly if the news still is at the snapshot's two revisions, else pending with its target no lower |
| SearchRebuilds.RebuildCanFinish | services/main/lib/infra/clients/search/indexer.py:115-156 | from every reachable state a rebuild left alone ends with every news item's row ready at its newest revision and the public index serving exactly the newest document of each item that has one, and nothing else |
| SearchBatches.ReplaceAll | services/main/lib/infra/clients/search/client.py:161-178 | the batches put are the documents in order, each within its limits of size and number unless it is a single document, and none is cut before it had to be |
| SearchBatches.GreedyMeans | services/main/lib/infra/clients/search/client.py:161-178 | a batch of more than one document respects both limits, and one is followed by another only if it was full or the next document would have passed the size limit |
| SimilarityGraph.Similarity | tools/lib/interactor/use_cases/duplicates.py:87-91 | the similarity is 0 if either fingerprint is empty, lies in 0..1, and is positive exactly if they share a shingle; its value is fixed by the next row |
| SimilarityGraph.SimilarityIsOverlap | tools/lib/interactor/use_cases/duplicates.py:87-91 | the similarity times the size of the union is the size of the intersection |
| SimilarityGraph.EdgeExactly | tools/lib/interactor/use_cases/duplicates.py:141-144 | two posts make an edge exactly if they share shingles, as many as the threshold asks of their union, and their dates overlap or one gives none |
| SimilarityGraph.SimilaritySymmetric | tools/lib/interactor/use_cases/duplicates.py:87-91 | it does not matter which post is compared with which |
| SimilarityGraph.FullSimilarity | tools/lib/interactor/use_cases/duplicates.py:87-91 | it is 1 exactly for equal fingerprints that are not empty |
| SimilarityGraph.IndexMissesNothing | tools/lib/interactor/use_cases/duplicates.py:118-122 | for a positive threshold two posts that make an edge share a shingle, so the inverted index offers one to the other |
| Duplicates.FindCandidates | tools/lib/interactor/use_cases/duplicates.py:118-122 | the candidates are exactly the earlier indexed posts that share a shingle with the post |
| UnionFind.Root | tools/lib/interactor/use_cases/duplicates.py:130-134 | the walk with path halving ends at the representative of its start and leaves every post's representative as it was |
| UnionFind.Join | tools/lib/interactor/use_cases/duplicates.py:152-154 | joining merges exactly the two classes |
| Duplicates.LinkPosts | tools/lib/interactor/use_cases/duplicates.py:125-156 | after the loop representatives and best scores account for every edge between posts |
| Duplicates.RepIsComponent | tools/lib/interactor/use_cases/duplicates.py:125-156 | two posts have the same representative if and only if a path of edges joins them |
| Duplicates.BestIsBest | tools/lib/interactor/use_cases/duplicates.py:145-150 | a post has a best score exactly if it has an edge, and it is its largest edge weight and at least the threshold |
| DuplicateGroups.FindGroups | tools/lib/interactor/use_cases/duplicates.py:125-169 | the groups are exactly the connected components of two or more posts, each once, sorted by size and date |
| DuplicateGroups.MakesGroup | tools/lib/interactor/use_cases/duplicates.py:163-168 | a group's origin is its member least by date and id and never a copy; each copy carries its best edge weight |
| DuplicateGroups.OriginIsEarliest | tools/lib/interactor/use_cases/duplicates.py:163-168 | the origin of a group was published before each of its copies, or at the same time with a smaller id, and the copies follow in that order |
| DuplicateGroups.LargerGroupsFirst | tools/lib/interactor/use_cases/duplicates.py:169-169 | groups of more copies come first, and of as many those whose origin is earlier |
| DuplicateGroups.KeepsOnePerComponent | tools/lib/interactor/use_cases/sample.py:38-47 | with distinct ids, dropping the copies leaves exactly one post of every component, posts alone included |
| DuplicateGroups.Candidates | tools/lib/interactor/use_cases/sample.py:38-47 | the candidates are live items, and with distinct ids exactly one of every component of live posts |
| Quotas.RaiseCeiling | tools/lib/interactor/use_cases/sample.py:19-22 | the ceiling is raised only until the channels can fill the sample |
| Quotas.RoundedSum | tools/lib/interactor/use_cases/sample.py:23-23 | rounding every share, halves to even, moves the whole by at most half a post per channel |
| Quotas.DealRound | tools/lib/interactor/use_cases/sample.py:26-32 | one round gives each channel in order at most one more post, within its cap, and stops as soon as the sample is full |
| Quotas.Deal | tools/lib/interactor/use_cases/sample.py:25-34 | the rounds end with the target met or the first shares if they exceed it; the exit for a round that moved nothing is never taken |
| Quotas.Quotas | tools/lib/interactor/use_cases/sample.py:14-35 | the quotas total max(min(size, population), sum of the first shares), at most half a post per channel above the target, none above its channel or the ceiling, the ceiling minimal, and they are the first shares dealt round by round from the largest channel down |
| Quotas.OvershootsExactly | tools/lib/interactor/use_cases/sample.py:17-34 | more posts than wanted are asked for exactly if the first rounded shares under the least ceiling, which channels, size and ratio decide, already sum to more; never fewer |
| Quotas.RoundIsNearest | tools/lib/interactor/use_cases/sample.py:23-23 | rounding gives the nearest integer, and the even one of two that are as near |
| Quotas.FirstShareIs | tools/lib/interactor/use_cases/sample.py:23-23 | a first share is within its channel and the ceiling, never more than half a post above the channel's part of the sample, and as close below it unless one of the two cuts it |
| Quotas.FirstCeilingIs | tools/lib/interactor/use_cases/sample.py:19-19 | the first ceiling is the allowed part of the sample rounded down, but at least one |
| Quotas.OrderIsBySize | tools/lib/interactor/use_cases/sample.py:24-24 | the turns go to larger channels first, and of equal ones to that of the smaller key |
| Quotas.DealtFairly | tools/lib/interactor/use_cases/sample.py:25-34 | while a channel can still take a post none has been dealt over one more than it, and none that has its turn later any more |
| Quotas.FiveOvershoot | tools/lib/interactor/use_cases/sample.py:23-34 | five channels of three posts asked for three give five |
| Sampling.Pick | tools/lib/interactor/use_cases/sample.py:50-75 | every kept item is chosen as often as it occurs, nothing else more often; each channel has exactly the larger of its quota and what was kept of it; the result is sorted by channel and date |
| Kappa.ChanceCountsPairs | tools/lib/interactor/use_cases/eval_kappa.py:62-63 | the chance sum counts the pairs of positions with equal categories |
| Kappa.ChanceBound | tools/lib/interactor/use_cases/eval_kappa.py:60-66 | twice the chance sum is at most n*n + n*agreements, which is what bounds kappa from below |
| Kappa.KappaRange | tools/lib/interactor/use_cases/eval_kappa.py:57-66 | kappa is refused exactly for empty or unequal sequences, lies in -1..1, is symmetric, and is 1 exactly for equal sequences |
| Kappa.KappaIs | tools/lib/interactor/use_cases/eval_kappa.py:57-66 | kappa of n records with g agreements and e chance pairs is (n*g - e) / (n*n - e), and 1 if every pair is one |
| Kappa.MultiKappaRange | tools/lib/interactor/use_cases/eval_kappa.py:96-104 | the figure of a multi-valued facet lies in -1..1 and is 1 exactly when the annotators agree on every value of every record |
| Kappa.MultiKappaIsMean | tools/lib/interactor/use_cases/eval_kappa.py:96-104 | it is the mean of the kappas of the values anyone gave, and 1 if there are none |
| Normalization.NormalizeLabels | services/main/lib/interactor/use_cases/processing/normalization.py:10-47 | the kept labels are exactly the strongest accepted answer of each value, only the strongest of the axis where it takes one value, by axis and rank |
| Normalization.NormalIsBounded | services/main/lib/interactor/use_cases/processing/normalization.py:21-46 | no answer can add an axis, a value or a second value on a single axis; confidences lie in 0..1 and lengths within their limits |
| Normalization.AnswersInAnyOrder | services/main/lib/interactor/use_cases/processing/normalization.py:20-38 | the order of the answers, and repeating some, changes nothing but evidence |
| Normalization.EvidenceInAnyOrder | services/main/lib/interactor/use_cases/processing/normalization.py:20-38 | nor evidence, where no accepted answer equals a kept label in all but evidence |
| Normalization.EvidenceFollowsOrder | services/main/lib/interactor/use_cases/processing/normalization.py:35-37 | where one does, some rearrangement keeps other evidence |
| Normalization.NormalizingAgain | services/main/lib/interactor/use_cases/processing/normalization.py:10-47 | normalizing the result gives it back, evidence included |
| Normalization.ThresholdsCommute | services/main/lib/interactor/use_cases/processing/normalization.py:28-29 | normalizing at a higher minimum is filtering what a lower one keeps, also on single axes |
| Normalization.AcceptedExactly | services/main/lib/interactor/use_cases/processing/normalization.py:21-34 | an answer becomes a label exactly if its axis is known and allowed, its value belongs to it and its confidence, 1 if left out, 0 if odd and cut to 0..1 otherwise, reaches the minimum |
| Normalization.KeptWasSaid | services/main/lib/interactor/use_cases/processing/normalization.py:35-47 | every kept label is what some answer says |
| Normalization.SaidIsKeptOrBeaten | services/main/lib/interactor/use_cases/processing/normalization.py:35-47 | whatever an answer says is matched by a kept label as strong, of the same value where the axis takes several |
| Normalization.KeptInOrder | services/main/lib/interactor/use_cases/processing/normalization.py:43-47 | labels come by axis, on one axis the more confident first and then by value |
| Scoring.EvaluateScores | services/main/lib/interactor/use_cases/scoring.py:21-49 | the rules are applied in order of priority and id up to the first applied one that says stop |
| Scoring.ScoresStayBounded | services/main/lib/interactor/use_cases/scoring.py:61-62 | every score stays in 0..100 and importance, their sum, in 0..300 |
| Scoring.RulesInAnyOrder | services/main/lib/interactor/use_cases/scoring.py:29-32 | with distinct priority and id the order in which rules are handed in is forgotten |
| Scoring.OnlyValuesCount | services/main/lib/interactor/use_cases/scoring.py:52-58 | only which values an axis has counts |
| Scoring.StopHidesTheRest | services/main/lib/interactor/use_cases/scoring.py:47-48 | nothing behind an applied rule that says stop is looked at |
| Scoring.AppliesExactly | services/main/lib/interactor/use_cases/scoring.py:52-58 | a rule applies exactly if every one of its conditions is met by some label of its axis |
| Scoring.RuleSetsThenAdds | services/main/lib/interactor/use_cases/scoring.py:39-46 | a rule sets a dimension and then adds to it, cutting to 0..100 each time, and leaves the dimensions it does not name |
| Scoring.OrderedByPriority | services/main/lib/interactor/use_cases/scoring.py:29-32 | the enabled rules, each as often as it was given, the smaller priority first and then the smaller id |
| Scoring.RulesChain | services/main/lib/interactor/use_cases/scoring.py:33-49 | each rule works on what the ones before it left |
| Texts.PartitionOfJoin | services/main/lib/infra/storage/postgres/labels/materializer.py:71-71 | the classifier slug and attempt id are read back from the key they were joined into, if the slug has no colon |
| Opinions.LatestAttempts | services/main/lib/infra/storage/postgres/labels/classifier_attempts.py:12-41 | per classifier slug the id of its first attempt in the order of the query |
| Opinions.LatestIsNewest | services/main/lib/infra/storage/postgres/labels/classifier_attempts.py:20-41 | that attempt succeeded on the current version and no other of the slug is newer by completion, start and id |
| Opinions.LatestByTime | services/main/lib/infra/storage/postgres/labels/classifier_attempts.py:20-41 | a slug has a latest attempt exactly if one of its attempts counts; no attempt that counts completed later, or as late and started later, or equal in both with a larger id, and an uncompleted one yields to any completed |
| Opinions.WinnersAreOneGroup | services/main/lib/infra/storage/postgres/labels/materializer.py:107-120 | the labels of an axis all come from one opinion group that no other outranks: the whole group by confidence and value, or its first label on a single axis |
| Opinions.WinnersByOrigin | services/main/lib/infra/storage/postgres/labels/materializer.py:23-28 | with an editor's label among the candidates all winners are the editor's; else with a source default all are source defaults; else with a parser's all are the parser's; else with a classifier's or shadow's all are of those |
| Opinions.WinnersByPriority | services/main/lib/infra/storage/postgres/labels/materializer.py:150-160 | among candidates of the winner's origin none has a classifier of larger priority, and none of the same priority a larger key |
| Materializer.SelectWinners | services/main/lib/infra/storage/postgres/labels/materializer.py:107-120 | the dictionary of groups and the maximum over its keys find that group |
| Materializer.NewestDecisions | services/main/lib/infra/storage/postgres/labels/manual_decisions.py:88-107 | per enabled facet the manual decision with the highest revision |
| Materializer.NewsItem.Recompute | services/main/lib/infra/storage/postgres/labels/materializer.py:30-148 | the effective labels, manual facets, scores and importance become the specified outcome of everything stored, and both revisions rise by one |
| MaterializerTheorems.OrderIsForgotten | services/main/lib/infra/storage/postgres/labels/materializer.py:34-46 | the outcome is a function of the sets of rows read, whatever order the queries return them in, if no axis has two opinions tied for first place |
| MaterializerTheorems.FiledOnceForgetsOrder | services/main/lib/infra/storage/postgres/labels/materializer.py:107-114 | that holds in particular when no key is stored under two origins of the same priority |
| MaterializerTheorems.TieFollowsOrder | services/main/lib/infra/storage/postgres/labels/materializer.py:111-114 | where two opinions tie on an axis, some other order of the same rows gives other effective labels |
| MaterializerTheorems.OrderMattersExactly | services/main/lib/infra/storage/postgres/labels/materializer.py:34-120 | the outcome is the same for every order of the queries if and only if no axis has two opinions tied for first place |
| MaterializerTheorems.FiledTwiceFollowsOrder | services/main/lib/infra/storage/postgres/labels/materializer.py:111-114 | a news item that meets every constraint of the schema, with an attempt filed under two origins, whose effective labels depend on the order of its rows |
| MaterializerTheorems.RecomputingAgain | services/main/lib/infra/storage/postgres/labels/materializer.py:85-91 | recomputing again gives the same labels, manual facets and scores |
| MaterializerTheorems.OutcomeIsSound | services/main/lib/infra/storage/postgres/labels/materializer.py:92-146 | every axis of an outcome is won by a single maximal group, and scores and importance are in range |
| MaterializerTheorems.OutcomeByOrigin | services/main/lib/infra/storage/postgres/labels/materializer.py:107-120 | every axis of an outcome is decided by origin as above, among its candidates |
| MaterializerTheorems.WinnersByConfidence | services/main/lib/infra/storage/postgres/labels/materializer.py:117-119 | winners come by confidence and then value; a single axis has one, the strongest of its group; a multi axis has the whole group |
| MaterializerTheorems.CandidatesExactly | services/main/lib/infra/storage/postgres/labels/materializer.py:34-104 | the candidates of an axis are exactly the rows of the current version on enabled facets and values that are not provenance, pass their classifier's terms and belong to the newest attempt, and that the newest decision or an old manual mark admits |
| MaterializerTheorems.ManualExactly | services/main/lib/infra/storage/postgres/labels/materializer.py:85-89 | an axis is manual afterwards exactly if its newest decision is a set, or it was marked manual and no editor has decided it |
| ManualEdits.LabelStore.Append | services/main/lib/infra/storage/postgres/labels/manual_decisions.py:54-86 | a decision is numbered after every earlier one about its facet and version, and refused without a current version |
| ManualEdits.LabelStore.Resolve | services/main/lib/infra/storage/postgres/labels/resolver.py:11-41 | values resolve exactly if the facet is enabled, knows and enables each of them, and takes that many |
| ManualEdits.ResolvableExactly | services/main/lib/infra/storage/postgres/labels/resolver.py:11-41 | the condition in terms of the facet: enabled, every value known and enabled, and no two different values unless it takes several |
| ManualEdits.LabelStore.ReleaseFacets | services/main/lib/infra/storage/postgres/labels/manual_decisions.py:37-52 | a release goes through exactly if every facet is known, and then appends one release decision each |
| ManualEdits.LabelStore.ReplaceLabels | services/main/lib/infra/storage/postgres/labels/manual_decisions.py:14-35 | a set goes through exactly if every facet and value resolves, and then appends one set decision each with a row for every value |
| ManualEdits.LabelStore.Apply | services/main/lib/infra/storage/postgres/labels/manual_labels.py:25-40 | the request goes through exactly if it is acceptable, applying releases, sets and a recomputation, and otherwise changes nothing |
| ManualTheorems.SetShowsItsValues | services/main/lib/infra/storage/postgres/labels/manual_labels.py:25-40 | after a request each set axis has exactly the values asked for, whatever anyone else has stored, and no label if none was asked for |
| ManualTheorems.ReleaseForgetsEditor | services/main/lib/infra/storage/postgres/labels/manual_labels.py:25-40 | each released axis has what a recomputation would give had no editor ever touched it |
| ManualTheorems.OtherAxesKeepTheirs | services/main/lib/infra/storage/postgres/labels/manual_labels.py:25-40 | every axis the request does not name keeps its winners |
| ManualTheorems.RequestSets | services/main/lib/infra/storage/postgres/labels/manual_labels.py:25-40 | a request that was not refused, with newly drawn ids, leaves every axis it sets manual and with exactly the values it asked for |
| ManualTheorems.RequestReleases | services/main/lib/infra/storage/postgres/labels/manual_labels.py:25-40 | and every enabled axis it releases as if no editor had ever touched it |
| ManualTheorems.RequestKeepsTheRest | services/main/lib/infra/storage/postgres/labels/manual_labels.py:25-40 | and every other axis with the winners it had |
| ManualLabels.SetAxisIsExact | services/main/lib/infra/storage/postgres/labels/materializer.py:95-100 | an axis whose newest decision is a set shows the enabled values stored with that decision and nothing else |
| ManualLabels.ReleasedAxisForgetsEditor | services/main/lib/infra/storage/postgres/labels/materializer.py:101-102 | an axis whose newest decision is a release shows what it would without any editor's row or decision |
| ManualLabels.AppendedIsNewest | services/main/lib/infra/storage/postgres/labels/manual_decisions.py:65-79 | an appended decision becomes the newest of its facet and of no other |
| Outbox.OutboxEvent.Claim | services/main/lib/infra/clients/nats/outbox.py:87-90 | a claim takes the row for one lease and counts the attempt up to the counter's limit |
| Outbox.OutboxEvent.MarkDelivered | services/main/lib/infra/clients/nats/outbox.py:129-139 | only the owner of an undelivered row marks it delivered |
| Outbox.OutboxEvent.MarkFailed | services/main/lib/infra/clients/nats/outbox.py:141-171 | only the owner of an undelivered row puts it off, by the backoff, or into quarantine |
| Outbox.DelayGrows | services/main/lib/infra/clients/nats/outbox.py:149-149 | the backoff never shrinks with the attempts and lies between one second and fifteen minutes |
| Outbox.DelayTable | services/main/lib/infra/clients/nats/outbox.py:149-149 | the backoff doubles from one second and is fifteen minutes from the tenth attempt on |
| Inbox.Handler.Call | services/main/lib/infra/clients/nats/database_inbox_handler.py:33-44 | a message takes effect together with its marker or not at all, and not again once the marker is there |
| Inbox.Subscription.Process | services/main/lib/infra/clients/nats/consumer.py:73-133 | a message that can be read and is marked or does not raise is handled, and acknowledged exactly if the server confirms; any other below the allowed deliveries is returned with the delay min(2^min(deliveries, 8), ack wait); any other has its dead letter recorded exactly if the broker takes it, and is acknowledged exactly if that was answered and the server confirms |
| DeliveryTheorems.StepKeepsInv | services/main/lib/infra/clients/nats/outbox.py:60-139 | every step of publishers, broker and consumers keeps the invariant of the delivery protocol |
| DeliveryTheorems.EffectAtMostOnce | services/main/lib/infra/clients/nats/database_inbox_handler.py:33-44 | in every reachable state each event took effect at most once on each consumer, its marker is there exactly if it did, and only emitted and accepted events did |
| DeliveryTheorems.DeliveredWasAccepted | services/main/lib/infra/clients/nats/outbox.py:119-139 | an event is marked delivered only after the broker accepted it |
| DeliveryTheorems.DeliveredOnce | services/main/lib/infra/clients/nats/outbox.py:66-139 | the mark is set once; no later step of any run changes the row |
| DeliveryTheorems.AcknowledgedIsSettled | services/main/lib/infra/clients/nats/consumer.py:73-133 | an acknowledged message took effect exactly once, or its dead letter was accepted after at least the allowed deliveries |
| DeliveryTheorems.NoEventForgotten | services/main/lib/infra/clients/nats/outbox.py:66-91 | an undelivered valid event is claimable once the longest lease and backoff have passed |
| DeliveryTheorems.QuarantineIsDeserved | services/main/lib/infra/clients/nats/outbox.py:103-118 | a quarantined event fails the publisher's own check, was never accepted and never took effect |
| DeliveryTheorems.CanQuarantine | services/main/lib/infra/clients/nats/outbox.py:103-118 | from every reachable state an event that fails the check can still be quarantined |
| DeliveryTheorems.StreamGrowsExactly | services/main/lib/infra/clients/nats/outbox.py:119-128 | the stream grows by a message exactly when the broker took one, whether or not its answer arrived |
| DeliveryTheorems.AcknowledgedExactly | services/main/lib/infra/clients/nats/consumer.py:97-133 | a message becomes acknowledged exactly by a confirmed acknowledgement of the worker that has it, and gets its dead letter exactly when a worker gives it up and the broker takes the letter |
| DeliveryTheorems.EffectsGrowExactly | services/main/lib/infra/clients/nats/database_inbox_handler.py:33-44 | an event takes effect exactly by a committed callback that finds no marker |
| DeliveryTheorems.OldestFirst | services/main/lib/infra/clients/nats/outbox.py:70-86 | a batch is worked off by creation and then id, each event once |
| DeliveryTheorems.CanStillGetThrough | services/main/lib/infra/clients/nats/outbox.py:60-139 | from every reachable state an undelivered valid event can still be delivered, take its one effect and be acknowledged |
| DeliveryTheorems.LostAnswerRepeats | services/main/lib/infra/clients/nats/outbox.py:119-139 | from every reachable state a lost answer can put an undelivered valid event into the stream twice, both messages be acknowledged, and its effect still be one |
| Freshness.StepKeepsInv | services/main/lib/core/workers.py:247-257 | every joint step of commits with their events, delivery, inbox and indexer keeps this: a request names a committed revision, and once its event took effect the projection aims at least there |
| Freshness.LagIsExplained | services/main/lib/infra/storage/postgres/news_administration/base.py:22-40 | a projection that does not aim at an announced revision has that event still undelivered, unacknowledged or dead |
| Freshness.CanStillBeIndexed | services/main/lib/core/workers.py:247-257 | from every reachable state an announced revision whose event delivery has not given up can still be indexed: the index then serves what was read at that revision or a later one |
| Attachments.JobRow.Claim | services/main/lib/infra/storage/postgres/attachment_processing_storage.py:54-112 | a claim starts a new attempt in place of the one it overtakes, or retires a job without attempts or attachment left |
| Attachments.JobRow.Finish | services/main/lib/infra/storage/postgres/attachment_processing_storage.py:137-177 | completion writes job, attempt and attachment together, exactly if the job is still the ticket's and the pipeline still wanted |
| Attachments.JobRow.Fail | services/main/lib/infra/storage/postgres/attachment_processing_storage.py:181-208 | a failure writes only while the job is the ticket's, and backs off or gives up |
| AttachmentFencing.StepKeepsInv | services/main/lib/infra/storage/postgres/attachment_processing_storage.py:54-216 | every interleaving of claims, expiries, completions, failures and crashes keeps the fencing invariant |
| AttachmentFencing.OneAttemptSucceeds | services/main/lib/infra/storage/postgres/attachment_processing_storage.py:145-177 | at most one attempt of a job ever succeeds, it is the one that wrote the object, and it wrote once |
| AttachmentFencing.TimedOutChangesNothing | services/main/lib/infra/storage/postgres/attachment_processing_storage.py:82-90 | a worker whose attempt timed out changes no job, attempt or attachment |
| AttachmentFencing.UnwantedWritesNothing | services/main/lib/infra/storage/postgres/attachment_processing_storage.py:152-156 | however long the run, a job whose pipeline has lost the news item never succeeds, and none of its attempts completes or writes an object |
| AttachmentFencing.CompletionWritesExactly | services/main/lib/infra/storage/postgres/attachment_processing_storage.py:137-177 | a completion writes the stored object, the attempt and the job exactly if the job still waits for that attempt, the attachment is there and the news item has not moved on; otherwise nothing |
| AttachmentFencing.FailureGivesUpExactly | services/main/lib/infra/storage/postgres/attachment_processing_storage.py:181-208 | a failure of the awaited attempt puts the job back with its backoff exactly if attempts are left and gives it up otherwise, and marks attempt and attachment; any other changes nothing |
| Attachments.CooldownTable | services/main/lib/infra/storage/postgres/attachment_processing_storage.py:206-208 | the backoff is the cooldown after the first attempt, doubles with each, and stays at 256 cooldowns from the ninth |
| AttachmentFencing.SucceededForGood | services/main/lib/infra/storage/postgres/attachment_processing_storage.py:173-177 | a succeeded job keeps every field for good |
| AttachmentFencing.ClaimsAreCounted | services/main/lib/infra/storage/postgres/attachment_processing_storage.py:91-92 | generation minus attempt count is constant, each claim is one attempt, and there are at most the allowed number |
| AttachmentFencing.DeadLetterStaysOrSucceeds | services/main/lib/infra/storage/postgres/attachment_processing_storage.py:71-74 | a dead letter leaves that status exactly if the worker of its last attempt comes back while the completion still commits, and is then a success |
| AttachmentFencing.DeadLetterCanSucceed | services/main/lib/infra/storage/postgres/attachment_processing_storage.py:71-74 | a run from the start in which a job is given up and then completed |
| Coordinator.ParentRow.Start | services/main/lib/infra/storage/postgres/pipeline_coordinator_storage.py:78-136 | a pipeline opens its attempt and takes the news, or gives up without news or version |
| Coordinator.ParentRow.Finish | services/main/lib/infra/storage/postgres/pipeline_coordinator_storage.py:201-242 | finishing touches news and attempt exactly while the attempt is the news's current one, publishing only without failures and when allowed; otherwise the pipeline is cancelled |
| PipelineRuns.StepKeepsInv | services/main/lib/infra/storage/postgres/pipeline_coordinator_storage.py:56-242 | every step of coordinator, editors, settings and children keeps the pipelines' invariant |
| PipelineTheorems.OneAttemptPerPipeline | services/main/lib/infra/storage/postgres/pipeline_coordinator_storage.py:86-102 | a pipeline opens at most one attempt, exactly one once begun, ended exactly if the pipeline succeeded |
| PipelineTheorems.ClosedForGood | services/main/lib/infra/storage/postgres/pipeline_coordinator_storage.py:59-66 | a pipeline ends at most once |
| PipelineTheorems.SupersededForGood | services/main/lib/infra/storage/postgres/pipeline_coordinator_storage.py:208-211 | a pipeline superseded before it succeeded never gets its news back: it can only be cancelled, and touches no news, attempt or event |
| PipelineTheorems.ReprocessSupersedes | services/main/lib/infra/storage/postgres/news_administration/lifecycle.py:75-90 | of the open pipelines of a news item a reprocess supersedes exactly those that have begun |
| PipelineTheorems.NewerSupersedes | services/main/lib/infra/storage/postgres/pipeline_coordinator_storage.py:101-102 | so does another pipeline that begins on it |
| PipelineTheorems.UnbegunTakesTheNews | services/main/lib/infra/storage/postgres/pipeline_coordinator_storage.py:78-102 | a pipeline that has not begun takes the news item when its turn comes, whatever was made or begun since |
| PipelineTheorems.OlderOvertakes | services/main/lib/infra/storage/postgres/pipeline_coordinator_storage.py:78-102 | a run from the start in which the older pipeline publishes and the one a reprocess made is superseded |
| PipelineTheorems.PublishedProperly | services/main/lib/infra/storage/postgres/pipeline_coordinator_storage.py:212-266 | a news item becomes published by an editor, or by the pipeline it waits for with automatic publication on, every required facet labelled and every child of every stage a success; the pipeline then lets it go and announces the new revision |
| PipelineTheorems.PublishesExactly | services/main/lib/infra/storage/postgres/pipeline_coordinator_storage.py:212-266 | when an advance ends a pipeline that still owns its news item, the item is published if automatic publication is on, every required facet is labelled and every child of every stage succeeded, and needs review otherwise; attempt, event and revisions follow |
| PipelineTheorems.EndsExactly | services/main/lib/infra/storage/postgres/pipeline_coordinator_storage.py:138-158 | a waiting pipeline ends exactly if no child is open and it is in its last stage, has a failed child or is not to be classified; it succeeds exactly if it still owns the item |
| PipelineTheorems.SecondStageBegins | services/main/lib/infra/storage/postgres/pipeline_coordinator_storage.py:160-199 | when every attachment succeeded and the item is to be classified, the children of the second stage are open and the first stage is remembered |
| PipelineTheorems.WaitsForChildren | services/main/lib/infra/storage/postgres/pipeline_coordinator_storage.py:149-151 | while a child is open an advance only puts the pipeline off by the cooldown |
| PipelineTheorems.PublishedWithoutFailures | services/main/lib/infra/storage/postgres/pipeline_coordinator_storage.py:212-226 | an attempt recorded as having published had no failed child in any stage and still has none |
| PipelineTheorems.RevisionsMoveTogether | services/main/lib/infra/storage/postgres/news_administration/lifecycle.py:39-90 | a news item's two revisions move together, by at most one a step and never back |
| PipelineTheorems.EditIs | services/main/lib/infra/storage/postgres/news_administration/lifecycle.py:35-43 | an edit gives the item a version and asks for its search entry exactly if it is published |
| PipelineTheorems.TransitionTable | services/main/lib/infra/storage/postgres/news_administration/lifecycle.py:45-63 | from which statuses an editor may move an item to which |
| PipelineTheorems.TransitionIs | services/main/lib/infra/storage/postgres/news_administration/lifecycle.py:64-73 | a transition moves the status, stamps a publication and always asks for the search entry |
| PipelineTheorems.ReprocessIs | services/main/lib/infra/storage/postgres/news_administration/lifecycle.py:75-90 | a reprocess puts the item back to pending without an attempt and makes a pipeline at the new revision |
| PipelineTheorems.RelabelIs | services/main/lib/infra/storage/postgres/labels/materializer.py:147-148 | new labels raise both revisions and leave status and attempt alone |
| PipelineTheorems.AdvanceMakesProgress | services/main/lib/infra/storage/postgres/pipeline_coordinator_storage.py:138-158 | each advance brings a pipeline a stage nearer its end or finds an open child and only waits; no other step touches it |
| Rematerialization.SweepJob.ProcessChunk | services/main/lib/infra/storage/postgres/rematerialization_storage.py:66-90 | a chunk held by its owner recomputes each of its ids still there once and moves the cursor to the last, or ends the sweep if there are none |
| Rematerialization.SweepJob.Claim | services/main/lib/infra/storage/postgres/rematerialization_storage.py:60-64 | a claim takes the job for one lease |
| Rematerialization.SweepJob.Retry | services/main/lib/infra/storage/postgres/rematerialization_storage.py:140-149 | a failure puts the job off only while it is still held |
| Sweeps.SweptExactlyOnce | services/main/lib/infra/storage/postgres/rematerialization_storage.py:41-149 | through any claims, crashes, takeovers and retries no news item is recomputed twice, and when the sweep has succeeded each one live and in scope all along was recomputed exactly once |
| Sweeps.SteadyUntilGone | services/main/lib/infra/storage/postgres/rematerialization_storage.py:92-136 | a news item there from the start stays counted until it is deleted or leaves the scope |
| Sweeps.ChunkMakesProgress | services/main/lib/infra/storage/postgres/rematerialization_storage.py:92-138 | a chunk ends the sweep or leaves strictly fewer ids ahead of the cursor |
| Sweeps.ChunkIsFull | services/main/lib/infra/storage/postgres/rematerialization_storage.py:92-138 | a held chunk takes as many of the remaining ids as a batch allows, the lowest ones, and the sweep ends exactly if none remained |
| Sweeps.BrokenChunkIsRetried | services/main/lib/infra/storage/postgres/rematerialization_storage.py:140-149 | a chunk that breaks leaves cursor and log as they were, and the job is claimable again exactly from the cooldown on |
| Sweeps.NeverAbandoned | services/main/lib/infra/storage/postgres/rematerialization_storage.py:41-64 | a sweep that has not succeeded can be claimed again after a lease and a cooldown |
| Sweeps.CanFinish | services/main/lib/infra/storage/postgres/rematerialization_storage.py:31-90 | one worker left alone finishes the sweep |
| Sweeps.SucceededForGood | services/main/lib/infra/storage/postgres/rematerialization_storage.py:72-77 | a sweep that has succeeded is never taken up again |
| Taxonomy.PlanChanges | tools/lib/interactor/use_cases/apply_taxonomy.py:63-120 | the plan creates, patches and lists for deactivation what the file and the stored facets and values call for: creates are what it mentions and the store lacks, deactivations what is active and left out, of values only within the facets it mentions |
| Taxonomy.WantedIsTheFile | tools/lib/interactor/use_cases/apply_taxonomy.py:63-98 | what is wanted is what the file mentions, each facet with the fields the file gives |
| Taxonomy.ValueOfAt | tools/lib/interactor/use_cases/apply_taxonomy.py:82-84 | each value with the fields the file gives and its place in the list |
| TaxonomySources.SourceDefaults | tools/lib/interactor/use_cases/apply_taxonomy.py:123-131 | the loops compute the bindings of the file |
| TaxonomySources.DefaultsAreNamed | tools/lib/interactor/use_cases/apply_taxonomy.py:123-131 | a source is bound to exactly the values that name it, each once |
| TaxonomySources.PlanSources | tools/lib/interactor/use_cases/apply_taxonomy.py:134-157 | a source is patched exactly if some bound facet's labels differ as sets with repetition; unknown sources are listed in order |
| TaxonomyFixedPoint.Server.Apply | tools/lib/interactor/use_cases/apply_taxonomy.py:254-286 | a plan goes through exactly if no request is refused when its turn comes, and then every object of the plan is in place; until then nothing is lost and what differs is what a request carried |
| TaxonomyFixedPoint.GoesThroughExactly | tools/lib/interactor/use_cases/apply_taxonomy.py:254-286 | the plan for a file goes through exactly if the server takes what its requests carry and the file gives no stored facet another kind |
| TaxonomyFixedPoint.PatchKeepsTheRest | tools/lib/interactor/use_cases/apply_taxonomy.py:57-60 | a patch sent over the wire brings the stored object back with its changes and nothing else lost |
| TaxonomyFixedPoint.PlanningAgainFindsNothing | tools/lib/interactor/use_cases/apply_taxonomy.py:63-157 | once a plan went through, planning again for the same file and flag finds no work |
| TaxonomyFixedPoint.TheRestIsKept | tools/lib/interactor/use_cases/apply_taxonomy.py:99-119 | what the file does not mention keeps its contents apart from deactivation when asked, and of what it does mention only differences change |
| TaxonomyFixedPoint.FacetInForce | tools/lib/interactor/use_cases/apply_taxonomy.py:66-80 | after a plan went through every facet of the file has the title, hint, kind and place the file gives |
| TaxonomyFixedPoint.ValueInForce | tools/lib/interactor/use_cases/apply_taxonomy.py:83-98 | and every value its title, hint, synonyms, patterns and place |
| TaxonomyFixedPoint.SourceInForce | tools/lib/interactor/use_cases/apply_taxonomy.py:134-157 | a source ends up with the labels the file binds to it on a bound facet, whatever their order, and with the ones it had on any other |
| TaxonomyFixedPoint.CreatedAs | tools/lib/interactor/use_cases/apply_taxonomy.py:254-286 | a new facet or value is sent with what the file gives, active, and with defaults elsewhere |
| TaxonomyFixedPoint.LeftOutFacetIs | tools/lib/interactor/use_cases/apply_taxonomy.py:109-119 | a facet the file leaves out is deactivated exactly if that was asked for and it was active |
| TaxonomyFixedPoint.LeftOutValueIs | tools/lib/interactor/use_cases/apply_taxonomy.py:99-108 | and a value left out, only where the file mentions its facet |
| TaxonomyFixedPoint.KindChangeIsRefused | services/main/lib/infra/storage/postgres/repositories/taxonomy_repository.py:67-68 | the plan for a file that changes a stored facet's kind patches that facet, the patch is refused, and the plan never goes through |
| TaxonomyFixedPoint.KindChangeExample | services/main/lib/infra/storage/postgres/repositories/taxonomy_repository.py:67-68 | a stored facet of one value and a file that wants several |

## Left out

- HTTP handlers, wiring, configuration, migrations and the user interface: they add no state of their own.
- The insides of PostgreSQL, JetStream, Meilisearch and S3: only atomic transactions, unique constraints, acceptance or refusal and an ordered queue are used.
- A commit whose outcome is unknown counts as not having happened, except in the inbox, where a handler may also fail after its commit.
- The broker's age limit on messages: a message older than that would be lost without a trace.
- Signatures, tokens, URL policies and encryption.
- Text normalization, shingling, date extraction and document extraction: fingerprints and date sets are given sets.
- The classification worker's own claiming and callbacks: its jobs are children whose status may change in any way except from succeeded.
- Editors' status changes, including deletion, are not protected from a later finish of the current pipeline, so nothing of the kind is claimed.
- Deleting news rows and the jobs that go with them; in the sweep a deleted news item is one that is no longer live.
- Texts of errors, audit rows, results stored on jobs and attempts, and timestamps that nothing reads.
- The ack wait and the delays before a redelivery: a message that is not acknowledged may be redelivered at any time, and is owed no particular delay.
- The pages and limits of admin listings, percentile and F1 figures, and range headers: easy to add, nothing to prove across steps.
- Taxonomy.PlanChanges: plans are maps by slug instead of lists, so the order of requests within one kind is not captured, nor what repeated slugs in the file would do; the claim is made for distinct slugs.
- TaxonomyFixedPoint.Server.Apply: the grounds for refusal other than missing fields, nulls, taken slugs and changed kinds are a parameter; which requests were sent before a refusal is not said.
- Rematerialization.SweepJob.ProcessChunk: the recomputation of each news item is an entry in a log here; what it computes is specified in `Materializer`.
- The queries that decide which news items a scope concerns: the scope is a set that may change at any step; an unknown scope is a worker whose chunks always fail.
- Sweeps.SweptExactlyOnce: news items that arrive below the cursor, or come into scope there, are not covered, as in the source.
- Quotas.Quotas: a channel that the source leaves out of its dictionary has share 0 here.
- Sampling.Pick: the seed and the generator are replaced by an arbitrary choice of the drawn items.
- DuplicateGroups.FindGroups: groups hold positions of posts instead of the posts.
- Normalization.NormalizeLabels: conversions of odd values to text or numbers are given as their result (missing, a finite number, anything else).
- Scoring.EvaluateScores: numbers in rules are integers; a rule whose `set` or `add` is not a mapping has empty ones.
- ManualEdits.LabelStore.Apply: rows carry the facet's kind as of when they were stored, so changing a facet between edits is not modelled there.
- Materializer.NewsItem.Recompute: deleting and inserting effective rows is an assignment of the set of them.
- SearchTheorems.ReadyAgrees: agreement is with what was read at the ready revision; two commits at the same revision may be mixed, which `SingleStateIsExact` makes precise. One indexer at a time is assumed: a worker that lost the connection holding its advisory lock and goes on beside the next holder is not modelled.
- SearchTheorems.StepKeepsInv: the second statement of a document sees the newest commit like the others, where the source reads the version the first one named; that version belongs to a state within the same revisions.
- Freshness.CanStillBeIndexed: commits that announce nothing, such as edits of a news item that is not published, are covered only by the next one that does.
- SearchProgress.OnePass: progress is shown for a pass in which nobody else moves; fairness of the scheduler is not modelled.
- SearchRebuilds.RebuildCanFinish: the same holds there, and every engine task from then on succeeds.
