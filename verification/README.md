# A verification model of the KuaiRand research agent

This project models the parts of the repository whose correctness is hard to see
from the code, and proves properties of the model with Dafny.  `dafny verify
dfyconfig.toml` checks everything.

- **Metrics** (`Auc`, `Ndcg`, `Evaluate`, over `Sums`, `Sorting`, `Powers`): the
  official evaluation.  The specification of AUC counts pairs; the program sorts
  and averages ranks.
- **Factorization machine** (`Interaction`, `FactorizationMachine`, `Training`,
  `EarlyStopping`, `Encoder`): logits, gradients, the Adam step on arrays in
  place, early stopping with a snapshot, and the encoder that makes the gradient
  exact.
- **Fold scheduler** (`FoldScheduler`): the parallel rung against the sequential
  loop, for every completion order.
- **Control cache** (`CacheEntry`, `ControlCache`): entries, validation, and the
  publish and import protocol of many processes around one key, with crashes and
  an adversary that rewrites the entry.
- **Control plane** (`Lifecycle`, `SearchPolicy`, `Store`, `Discipline`,
  `PlannedWrites`, `RecordSoundness`, `Histories`, `Causes`, `Supervisor`,
  `Counterexamples`): the durable record as pure transactions, the writes the
  supervisor plans, theorems over all histories, the answers of hooks, clock and
  policy that each write rests on, and the supervisor itself as a class whose
  every store call may be the last before a crash.
- **Patch attempts** (`PatchLoop`), **trackers** (`Trackers`) and **provider
  routing** (`Provider`).

Three results say where the program does less than its documentation suggests:

- A rejected finalist leaves the run in `FINALIST_LOCKED`.  The phase is
  documented as moving on to `OFFICIAL_EVALUATED`, but
  `reject_non_improving` (`src/rex/store/repository.py:1378-1460`) does not touch
  it.  `Supervisor.Autopilot.Run` finalizes or meets exactly this record, which
  it never changes; `Counterexamples.StuckIsReachable` reaches it.
- A crash between the failure transition and the reservation of the next repair,
  when an earlier repair was finished, leaves an experiment that
  `_resume_repair` replays without effect: the process writes nothing about it
  and never finalizes (`RunCandidate`, `Run`, `RunAgainAndAgain`,
  `StaleIsReachable`).
- Patch attempts cannot always be resumed.  Exactly three kinds of records make
  `ApplyPatchAttempts` raise whatever the provider and the checks answer
  (`Wedged`): a later diff in the tree that the first rejected one does not clean;
  a first diff whose own tree is not recognised, as with a new empty file, which
  the status shows as untracked; an accepted diff that the status does not show
  and that does not apply again.

Reals stand for floats.  The logarithmic discount, sigmoid, square root, random
start, permutations, hashes, git, providers, hooks and clocks are parameters.
Nothing is assumed of hashes, git, providers, hooks and clocks unless a
statement says so: `Collisionless` digests and unforged manifests for
`CacheIsInvisible`, `Benign` worlds where the absence of exceptions is claimed.
The square root is not negative, the discount's divisors are positive and rise, a
wait returns at least one finished fold, and the permutations are permutations.

## Model

| member | source | states |
|---|---|---|
| Auc.Auc | kuairand-starter-kit/evaluate.py:15-33 | sort, average ranks of tie runs and closed formula give the share of (positive, negative) pairs ranked right, a tied pair counting one half; 0.5 when a class is missing |
| Auc.AverageRanks | kuairand-starter-kit/evaluate.py:18-27 | every element gets the midpoint of the ranks its tie run occupies |
| Auc.TieRunRank | kuairand-starter-kit/evaluate.py:20-27 | the average rank of a tie run is the number of elements below plus half of the ties |
| Auc.RankSumIsPairCount | kuairand-starter-kit/evaluate.py:32-33 | the rank sum of the positives minus npos(npos+1)/2 counts the pairs (double counting) |
| Auc.SpecOfRearrangement | kuairand-starter-kit/evaluate.py:15-33 | the order of the input does not matter |
| Auc.AucInUnitInterval | kuairand-starter-kit/evaluate.py:15-33 | the AUC lies in [0, 1] |
| Auc.AucOfNegatedScores | kuairand-starter-kit/evaluate.py:15-33 | negating every score turns the AUC into one minus itself |
| Auc.AucOfSameOrder | kuairand-starter-kit/evaluate.py:15-33 | two score columns that order the elements alike, ties included, have the same AUC |
| Auc.PerfectAuc | kuairand-starter-kit/evaluate.py:15-33 | the AUC is 1 when every positive scores above every negative |
| Ndcg.DcgAtMostIdeal | kuairand-starter-kit/evaluate.py:35-41 | no order of the labels has a higher DCG at k than the descending one (exchange argument) |
| Ndcg.NdcgInUnitInterval | kuairand-starter-kit/evaluate.py:35-41 | nDCG at k lies in [0, 1] |
| Ndcg.NdcgPerfect | kuairand-starter-kit/evaluate.py:35-41 | for binary labels with a positive and k >= 1, nDCG is 1 exactly when the first min(k, positives) items are positive |
| Ndcg.NdcgWithoutPositives | kuairand-starter-kit/evaluate.py:35-41 | nDCG is 0 without a positive |
| Ndcg.ItemAdds | kuairand-starter-kit/evaluate.py:37-38 | the item at position i adds 2^label - 1 over the discount of that position while i is below k, and nothing from k on |
| Ndcg.NdcgTimesIdeal | kuairand-starter-kit/evaluate.py:38-41 | nDCG times the DCG of the labels in descending order is the DCG in the given order |
| Evaluate.GroupByUser | kuairand-starter-kit/evaluate.py:45-47 | the dictionary holds, for each user in first-seen order, that user's rows in log order |
| Evaluate.Evaluate | kuairand-starter-kit/evaluate.py:43-61 | the loop computes the positives-weighted AUC, the mean nDCG and their mean as sums over the users |
| Evaluate.EvaluateIsValid | src/rex/contracts.py:102-118 | every evaluation satisfies the bounds and the mean rule of the metrics contract |
| Evaluate.GaucIsWeightedMean | kuairand-starter-kit/evaluate.py:50-58 | GAUC times the positives of the users with both labels is the sum of their positives times their AUC; without such a user it is one half |
| Evaluate.OneMixedUser | kuairand-starter-kit/evaluate.py:50-58 | with one user that has both labels GAUC is that user's AUC |
| Evaluate.NdcgIsMean | kuairand-starter-kit/evaluate.py:57-61 | the reported nDCG times the number of users is the sum of the users' nDCG, each over the labels by falling score |
| Evaluate.EvaluateOfSameOrder | kuairand-starter-kit/evaluate.py:43-61 | scores that order each user's rows alike give the same metrics |
| Evaluate.UserBiasIsInvisible | kuairand-starter-kit/README.md:122-124 | adding any constant per user to the scores changes nothing |
| Evaluate.EvaluateOfRearrangedLog | kuairand-starter-kit/evaluate.py:43-61 | rearranging the log while keeping each user's internal order changes nothing |
| Evaluate.NdcgCeiling | kuairand-starter-kit/README.md:57-59 | the nDCG of any model is at most the share of users with a positive |
| Evaluate.OracleReachesCeiling | kuairand-starter-kit/README.md:57-59 | scoring by the labels themselves reaches that ceiling, and GAUC 1 |
| Sorting.SortStable | kuairand-starter-kit/evaluate.py:51 | equal keys keep their order in the sort |
| Interaction.FastIsPairwise | kuairand-starter-kit/baseline.py:49-53 | half of squared sum minus sum of squares is the sum over field pairs of embedding dot products, repeated ids included |
| Interaction.NudgedInteraction | kuairand-starter-kit/baseline.py:49-61 | changing one embedding entry by d changes the interaction by d times (S - E), plus a second-order term only a repeated id causes |
| FactorizationMachine.LogitIsPairwise | kuairand-starter-kit/baseline.py:49-53 | the logit is bias plus weights plus all pairwise products |
| FactorizationMachine.GradientOfBatch | kuairand-starter-kit/baseline.py:55-61 | the scattered gradient is the slope of the weighted logits, up to an explicit term for repeated ids |
| FactorizationMachine.GradientIsExact | kuairand-starter-kit/baseline.py:55-61 | when no row repeats an id the scattered gradient is exact |
| FactorizationMachine.RepeatedIdBends | kuairand-starter-kit/baseline.py:55-61 | a concrete row with a repeated id where the gradient is not the change |
| FactorizationMachine.WeightGradient | kuairand-starter-kit/baseline.py:59-60 | the scattered weight gradient is exact for every row |
| FactorizationMachine.BiasGradient | kuairand-starter-kit/baseline.py:49-53 | raising the bias raises every logit by as much |
| Training.ScatterTable | kuairand-starter-kit/baseline.py:59-61 | the scatter-add loop builds, per id and entry, the sum of the rows' shares |
| Training.ScatterVector | kuairand-starter-kit/baseline.py:59-60 | the scatter-add of the linear weights is the sum per id |
| Training.AdamTable | kuairand-starter-kit/baseline.py:65-68 | moments and parameters are overwritten in place with one bias-corrected Adam step |
| Training.AdamVector | kuairand-starter-kit/baseline.py:65-68 | the same for the linear weights |
| Training.FM.Gradients | kuairand-starter-kit/baseline.py:59-62 | both gradients with their L2 terms, in fresh arrays |
| Training.FM.Step | kuairand-starter-kit/baseline.py:55-69 | the whole state after one step (parameters, both moments, step count) is a function of the old state and the batch, each number given by gradient, moments and bias correction |
| Training.MovesAgainstMoment | kuairand-starter-kit/baseline.py:65-68 | with a positive rate every number moves against its new first moment, and stays exactly when that is zero |
| Training.SteadyGradient | kuairand-starter-kit/baseline.py:64-68 | under a steady gradient the moments are it and its square times the bias corrections of 0.9 and 0.999 |
| Training.FirstStep | kuairand-starter-kit/baseline.py:55-69 | from zero moments the first step moves every entry by exactly -lr g / (sqrt(g^2) + 1e-8) |
| Training.BiasStep | kuairand-starter-kit/baseline.py:69 | the bias takes a plain step against the sum of the residuals |
| Training.ResidualSign | kuairand-starter-kit/baseline.py:57-58 | a residual is positive exactly when the prediction is above the label |
| Training.FullGradientIsSlope | kuairand-starter-kit/baseline.py:59-62 | what a step descends is the slope of the residual-weighted logits and half the squared size of the embeddings |
| Training.FM.Predict | kuairand-starter-kit/baseline.py:72-73 | chunked prediction equals whole-batch logits for every positive chunk size; an empty input raises |
| EarlyStopping.WatchedBest | kuairand-starter-kit/baseline.py:80-95 | the recorded epoch holds the recorded score, beats every earlier epoch, and no epoch beats it by more than 1e-5 |
| EarlyStopping.StopsSoonAfterBest | kuairand-starter-kit/baseline.py:88-95 | training ends at most max(1, patience) epochs after its best, exactly so when it stops early |
| EarlyStopping.TrainEpoch | kuairand-starter-kit/baseline.py:82-83 | an epoch leaves the arrays in exactly the state that the steps over the batches of the permutation make of the state before |
| EarlyStopping.EpochSteps | kuairand-starter-kit/baseline.py:82-83 | an epoch takes as many steps as there are rows over the batch size, rounded up |
| EarlyStopping.EachRowOnce | kuairand-starter-kit/baseline.py:82-83 | each epoch trains on every row exactly once, together with its own label |
| EarlyStopping.RunFM | kuairand-starter-kit/baseline.py:75-98 | snapshot j holds the parameters that training makes of the initial state in j + 1 epochs; the model ends with those of the recorded best epoch although later epochs overwrote its arrays |
| Encoder.BuildVocabs | kuairand-starter-kit/data.py:44-48 | the dictionaries number the training values of each field in order of appearance |
| Encoder.RawTells | kuairand-starter-kit/data.py:41-42 | field by field two rows agree exactly when they agree on user, video, author, tab, or the bucket of the duration |
| Encoder.BucketBetweenEdges | kuairand-starter-kit/data.py:42 | a duration falls between the last edge below it and the next one |
| Encoder.Offsets | kuairand-starter-kit/data.py:49-51 | the offsets are the running sums of the field sizes with one extra slot each |
| Encoder.EncodeSplit | kuairand-starter-kit/data.py:53-64 | ids, labels and users of a split, cell by cell |
| Encoder.SameCode | kuairand-starter-kit/data.py:44-60 | two values share a code in a field exactly when they are equal or both unseen in training |
| Encoder.RowIdsDistinct | kuairand-starter-kit/data.py:49-60 | the ids of a row are all different and below the total dimension |
| Encoder.BlocksDisjoint | kuairand-starter-kit/data.py:49-51 | the id blocks of two fields do not meet |
| Encoder.EveryIdIsUsed | kuairand-starter-kit/data.py:49-64 | the blocks tile the whole range: each id is some seen value's code or a field's slot for unseen values |
| Encoder.EncodedGradientIsExact | kuairand-starter-kit/data.py:53-64 | on encoded rows the gradient of the step is exact |
| FoldScheduler.RunRung | src/rex/control/scientific_hooks.py:2973-3046 | for every order in which folds finish the report is the sequential loop's when no cancellation catches a fold; otherwise success still means every fold succeeded, and an error comes from a fold that failed; each fold is submitted at most once, in order |
| FoldScheduler.EvaluatePair | src/rex/control/scientific_hooks.py:2701-2728 | a fold reports its sides in turn, whether they run at once or not, unless a failed control still cancels the candidate |
| FoldScheduler.RunPairedRung | src/rex/control/scientific_hooks.py:2701-3046 | folds and their sides together: the models running at once never exceed the configured workers, and the report is that of one model after the other unless a cancellation catches one; even then success is true success and an error a true failure |
| FoldScheduler.WidthIsLargest | src/rex/control/scientific_hooks.py:2973-2996 | one more fold in flight would be idle, or exceed one of the two limits |
| FoldScheduler.Scheduler.Round | src/rex/control/scientific_hooks.py:3025-3044 | one wait: nothing is submitted after a failure was seen, the work left shrinks |
| FoldScheduler.Scheduler.Submit | src/rex/control/scientific_hooks.py:3007-3023 | the next fold is submitted once, in order |
| FoldScheduler.RunOneByOne | src/rex/control/scientific_hooks.py:2989-2996 | the single-worker loop is the sequential reference |
| FoldScheduler.BlameIsSequential | src/rex/control/scientific_hooks.py:3036-3046 | the raised error is the sequential one exactly when no earlier failing fold was lost to a cancellation |
| FoldScheduler.RunSides | src/rex/control/scientific_hooks.py:2701-2724 | two sides at once report what the sides in turn report, except when a failed control still cancels the candidate |
| CacheEntry.ValidateEntry | src/rex/control/control_cache.py:379-458 | the checks in program order accept exactly the valid entries |
| CacheEntry.ForeignBundleIsRefused | src/rex/control/control_cache.py:431-442 | a bundle fitted for another plugin, config, commit, data view, schema or seed makes the entry invalid |
| CacheEntry.OneBundleOneFit | src/rex/control/control_cache.py:431-442 | valid entries with the same bundle file belong to identities that agree on all of these |
| CacheEntry.UnfitPartsAreRefused | src/rex/control/control_cache.py:431-450 | so does an undecodable bundle, and predictions that do not fit the rows of the identity |
| CacheEntry.AlteredEntryIsRefused | src/rex/control/control_cache.py:379-428 | so does another key or owner, and a file that was added, lost or altered |
| CacheEntry.FilesOfEntry | src/rex/control/control_cache.py:416-447 | a valid entry holds the bundle, its members and the predictions, and nothing else |
| CacheEntry.BundleFixesEntry | src/rex/control/control_cache.py:379-458 | bundle and predictions fix all files and directories of a valid entry when digests do not collide |
| CacheEntry.ExpectedDirectories | src/rex/control/control_cache.py:360-377 | walking up from the indexed files gives every parent directory |
| CacheEntry.ManifestFixesFiles | src/rex/control/control_cache.py:379-458 | two valid entries with one manifest hold the same files when digests do not collide |
| CacheEntry.BuiltEntryIsValid | src/rex/control/control_cache.py:495-589 | what a publisher stages from a valid execution passes the validation |
| CacheEntry.ValidIsPublishable | src/rex/control/control_cache.py:329-358 | publication asks for no more than validation: the parts of a valid entry may be published again |
| CacheEntry.CopyIsFaithful | src/rex/control/control_cache.py:482-493 | a copy of a valid entry is the entry |
| ControlCache.StepInv | src/rex/control/control_cache.py:306-326 | one lock holder; staged, moved and answered entries stay what they were checked to be, in every step of every process |
| ControlCache.RunInv | src/rex/control/control_cache.py:495-666 | the invariant over every interleaving with crashes and corruption |
| ControlCache.SlotChanges | src/rex/control/control_cache.py:460-589 | the final path changes only by corruption, by quarantining an invalid entry, or by moving a just validated one into the empty place |
| ControlCache.EvictedIffForeign | src/rex/control/control_cache.py:591-666 | an untouched entry is thrown out exactly by a process of another identity |
| ControlCache.OwnEntryIsFound | src/rex/control/control_cache.py:495-666 | an untouched entry of the own identity is answered by a second publisher, and hit by an importer that has a valid copy |
| ControlCache.NothingIsMissed | src/rex/control/control_cache.py:591-666 | an importer that finds nothing, or an entry of another identity, misses, and the entry goes to the quarantine |
| ControlCache.MoveIsAnswered | src/rex/control/control_cache.py:556-589 | a move that nobody rewrites before it is checked again is answered with exactly what was moved |
| ControlCache.EntriesAreKept | src/rex/control/control_cache.py:460-480 | what was published is at the final path or in the quarantine ever after, unless somebody rewrites it |
| ControlCache.PublicationStays | src/rex/control/control_cache.py:495-589 | with distinct keys for distinct identities an untouched publication is never replaced |
| ControlCache.CollisionEvicts | src/rex/control/control_cache.py:93-95 | a run in which two identities share a key and the second one evicts the first one's sound entry |
| ControlCache.HitsAreOwn | src/rex/control/control_cache.py:591-666 | a hit is valid for the identity that asked, even when keys collide |
| ControlCache.HitsAreTrue | src/rex/control/control_cache.py:591-666 | unless damage forges a manifest, a hit carries the manifest that publishing its identity's own execution would write |
| ControlCache.CacheIsInvisible | src/rex/control/scientific_hooks.py:2407-2567 | with digests that do not collide, and damage that forges no manifest, the caller scores with exactly the predictions of an uncached run after any history |
| ControlCache.ForgeryIsServed | src/rex/control/control_cache.py:591-666 | a run in which one rewrite installs a valid entry with a forged manifest, and the next import answers with it |
| SearchPolicy.NextCardChooses | src/rex/agents/search_policy.py:537-559 | none exactly when no card is eligible; otherwise the isolation card or an eligible card no other beats |
| SearchPolicy.NextCardMayRun | src/rex/agents/search_policy.py:537-548 | a chosen card is a search card, untried, with prerequisite and dependencies earned; when none is chosen every card lacks one of these |
| SearchPolicy.ChosenIsWorthMost | src/rex/agents/search_policy.py:553-559 | apart from the isolation card no eligible card is worth more than the chosen one, and among equals the earlier id is taken |
| SearchPolicy.WorthOfDearCard | src/rex/agents/search_policy.py:553-557 | cost beyond ten minutes divides the worth by its multiple, memory beyond 1536 MB by one more per eight GiB |
| SearchPolicy.FlagsMeaning | src/rex/agents/search_policy.py:561-572 | a flag is there exactly when a supported card earns it or the supported cards are diverse in one of two ways |
| SearchPolicy.ChoiceIgnoresQueueOrder | src/rex/agents/search_policy.py:537-559 | with unique ids the queue order does not matter |
| SearchPolicy.CollectFlags | src/rex/agents/search_policy.py:561-572 | the loop collects exactly these flags |
| SearchPolicy.FlagsOnlyGrow | src/rex/agents/search_policy.py:561-572 | more evidence never takes a flag away |
| RecordSoundness.GoSound | src/rex/store/repository.py:724-774 | a planned plain step finds its key unused, is a compare-and-set, and keeps the record sound |
| RecordSoundness.FailingSound | src/rex/control/production_supervisor.py:2344-2354 | recording a failure keeps the record sound under its fresh key |
| RecordSoundness.StartingSound | src/rex/control/production_supervisor.py:2376-2383 | beginning a repair writes once; begun again after it was finished it is a replay without effect, or refused when the rung differs |
| RecordSoundness.EndingSound | src/rex/control/production_supervisor.py:2521-2532 | ending a repair returns to its rung, or replays without effect |
| RecordSoundness.FailingRepairSound | src/rex/control/production_supervisor.py:2509-2519 | a repair that raised ends the experiment, and is refused outside the repairing state |
| RecordSoundness.ReserveSound | src/rex/store/repository.py:945-1023 | a reservation takes number used + 1 and is refused at the maximum |
| RecordSoundness.CompleteSound | src/rex/store/repository.py:1025-1059 | completion fills the evidence once; a replay needs the same evidence |
| RecordSoundness.MeterSound | src/rex/store/repository.py:1291-1376 | official metrics are counted once and only for the locked finalist |
| RecordSoundness.ShadowSound | src/rex/store/repository.py:1561-1681 | the champion stays a supported candidate that no other supported one beats |
| RecordSoundness.CreateSound | src/rex/store/repository.py:583-674 | a new proposal adds one experiment within the cap; a clash is refused |
| RecordSoundness.LockSound | src/rex/store/repository.py:183-271 | locking the champion of a settled field sets phase and finalist together and nothing else |
| RecordSoundness.PromoteSound | src/rex/store/repository.py:1742-1893 | promotion or rejection of the finalist and the end of the phase are one transaction |
| RecordSoundness.PlannedIsSound | src/rex/control/production_supervisor.py:1877-2084 | every write the supervisor plans keeps the record sound and is one legal step forward |
| Histories.RunIsChain | src/rex/control/production_supervisor.py:1877-2084 | in every run of planned transactions from a new search each record is sound and a legal successor of the one before |
| Histories.PhaseOnlyAdvances | src/rex/contracts.py:29-39 | over any run the phase only moves forward and the finalist never changes |
| Histories.NothingProposedAfterTheLock | src/rex/control/production_supervisor.py:774-831 | after the lock no experiment is added |
| Histories.ExperimentsOnlyAdvance | src/rex/control/state_machine.py:28-127 | an experiment never falls back, and a terminal state is final |
| Histories.TrailIsAppendOnly | src/rex/store/repository.py:724-774 | rows, results, metrics and repairs are never rewritten |
| Histories.ChangesAreBounded | src/rex/control/production_supervisor.py:1877-2084 | an experiment changes state a bounded number of times over all processes together |
| Histories.FinalistWasLockedOnce | src/rex/control/production_supervisor.py:1110-1169 | the finalist was bound at one moment, when every experiment had settled, as the strongest supported candidate |
| Histories.OnlyTheFinalistIsEvaluated | src/rex/control/production_supervisor.py:1993-2012 | whoever is on the official split is the finalist, then and ever after; official evaluation happens at most once |
| Histories.RepairsWithinAllowance | src/rex/agents/recovery.py:56-122 | in every record of a run repairs stay within the maximum across all rungs, and only the newest is open |
| Histories.GatesAreObeyed | src/rex/control/production_supervisor.py:1899-1920 | in every record of a run a promoted experiment passed all three gates, a rejected one failed one or was no new best |
| Histories.ChampionOnlyRises | src/rex/store/repository.py:1640-1681 | over any run the shadow champion gives way only to a strictly better candidate; a tie changes nothing |
| Histories.PhaseEndsByPassing | src/rex/store/repository.py:1742-1893 | over any run the official phase ends only by a finalist that passed the official gate |
| Histories.AfterTheOfficialRung | src/rex/control/state_machine.py:28-127 | once the official rung is complete an experiment is promoted, rejected or abandoned and nothing else |
| Histories.EachCardOnce | src/rex/control/production_supervisor.py:1171-1192 | a run proposes no more experiments than there are cards |
| Causes.TriedMeaning | src/rex/control/production_supervisor.py:1171-1192 | a new experiment is for a search card that was bound, untried and had earned its prerequisites, below both caps, at a time the clock did not ask to stop |
| Causes.ClosedMeaning | src/rex/control/production_supervisor.py:808-826 | discovery is closed only when the clock asks for it, a cap is reached, or no card is left that could be tried |
| Causes.DiscoveryWasClosable | src/rex/control/production_supervisor.py:808-826 | over any run, whenever discovery is over there was an earlier record and moment at which it could be closed |
| Causes.ResultsWereMeasured | src/rex/control/production_supervisor.py:2086-2152 | over any run every stored result is what the hook of a rung answered at some moment |
| Causes.MetricsWereMeasured | src/rex/control/production_supervisor.py:2086-2152 | over any run every counted metric was measured by the hook of a rung |
| Causes.RowsWereAnswered | src/rex/control/production_supervisor.py:1635-2152 | over any run a ready, abandoned, diagnosed or failed experiment has the answer of a hook that says so |
| Causes.RepairsWereCarriedOut | src/rex/control/production_supervisor.py:2467-2508 | over any run every finished repair holds the evidence its hook returned |
| Causes.RepairsAreDue | src/rex/agents/recovery.py:56-122 | over any run no repair is reserved for a success, an untyped crash or an interruption |
| Causes.GivenUpWithoutHope | src/rex/control/production_supervisor.py:2355-2375 | over any run an experiment is given up only after a failure whose status or number of repairs allows no other |
| Causes.DiagnosesAreEarned | src/rex/control/production_supervisor.py:1924-1948 | over any run a diagnosis is recorded exactly for experiments that reached it, after a passed cheap rung and a measured full one |
| Causes.BestIsMeasured | src/rex/store/repository.py:1742-1893 | over any run the best result is the first one, or what the finalist measured officially if that is more |
| Supervisor.Autopilot.Call | src/rex/store/repository.py:724-774 | one transaction: it happens entirely, is refused, or the process dies first; the history stays a run of transactions with their causes |
| Supervisor.Autopilot.ExecuteRepair | src/rex/control/production_supervisor.py:2467-2532 | a repair ends at its rung, or in failure exactly when the hook raised or contradicts the stored evidence; a stale one writes nothing |
| Supervisor.Autopilot.HandleFailure | src/rex/control/production_supervisor.py:2325-2384 | an interruption is raised and writes nothing; any other failure is repaired exactly when its status and the number of repairs allow it and the hook succeeds, and is final otherwise; only a crash after an earlier repair can leave a stale experiment, and a crash right after the failure was recorded does |
| Supervisor.Autopilot.ResumeRepair | src/rex/control/production_supervisor.py:2386-2465 | the newest repair is taken up and succeeds exactly when its hook does; a stale experiment is not changed |
| Supervisor.Autopilot.CompleteRung | src/rex/control/production_supervisor.py:2086-2152 | the stored evidence is the earlier one or what the hook answered; termination through repairs |
| Supervisor.Autopilot.JudgeCheap | src/rex/control/production_supervisor.py:1899-1920 | the cheap gate alone decides between rejection and the full rung |
| Supervisor.Autopilot.JudgeShadow | src/rex/control/production_supervisor.py:1949-2012 | unsupported candidates are rejected, supported ones wait, and only the locked finalist goes on |
| Supervisor.Autopilot.JudgeOfficial | src/rex/control/production_supervisor.py:2024-2066 | promoted exactly when the gate passes with a new best; the phase ends exactly when the gate passes |
| Supervisor.Autopilot.RunCandidate | src/rex/control/production_supervisor.py:1877-2084 | without a crash it ends: at rest or with an exception the hooks caused; a stale experiment makes it loop until the process dies |
| Supervisor.Autopilot.ResumePreparation | src/rex/control/production_supervisor.py:1777-1875 | the preparation is finished when the hooks prepared it, abandoned when they rejected it as a proposal |
| Supervisor.Autopilot.PrepareCandidate | src/rex/control/production_supervisor.py:1635-1731 | exactly one experiment is added, for the chosen card; ready or abandoned as the hooks prepared or rejected it |
| Supervisor.Autopilot.ResumeActive | src/rex/control/production_supervisor.py:1733-1775 | afterwards every experiment rests, and under the lock is terminal; exceptions need a faulty hook or crash debris |
| Supervisor.Autopilot.LockShadowFinalist | src/rex/control/production_supervisor.py:1110-1169 | the lock takes the champion, or reports that no candidate is left |
| Supervisor.Autopilot.StopReason | src/rex/control/production_supervisor.py:1059-1076 | discovery is to stop exactly when the clock says so at this moment or one of the two caps is reached |
| Supervisor.Autopilot.DiscoveryTurn | src/rex/control/production_supervisor.py:808-831 | discovery is closed exactly when it may be; otherwise one experiment is added for the card that the policy chooses in this record |
| Supervisor.Autopilot.NextCard | src/rex/control/production_supervisor.py:1171-1192 | the chosen card is bound, never tried, and its prerequisites were earned by diagnosed cards |
| Supervisor.Autopilot.Run | src/rex/control/production_supervisor.py:774-832 | a process that closes discovery had a record and a moment of its own at which the clock asked for it, a cap was reached or no card was left; every experiment was added for a card that could be tried then; it finalizes for a stated reason, or returns from the one stuck record, which it never changes; termination without a crash; with one store call left a second failure makes it die stale |
| Supervisor.Autopilot.RunAgainAndAgain | src/rex/control/production_supervisor.py:774-832 | over any number of crashes and restarts a stale experiment blocks finalization and stays as it is |
| Supervisor.RunUninterrupted | src/rex/control/production_supervisor.py:774-832 | a run no crash interrupts, with hooks that do not raise, ends; it finalizes unless the official gate rejected the finalist |
| Supervisor.EvidenceOnlyGrows | src/rex/control/production_supervisor.py:1171-1192 | attempted cards and earned flags only grow over a run |
| Counterexamples.StaleIsReachable | src/rex/control/production_supervisor.py:2344-2376 | a process replays the store calls of a repaired failure, runs, and dies with a stale experiment |
| Counterexamples.StuckIsReachable | src/rex/store/repository.py:1378-1460 | a process replays the store calls up to a failed official rung, runs without a crash, and returns with the phase still locked |
| Counterexamples.OneCardIsTryable | src/rex/control/production_supervisor.py:1171-1192 | the hypotheses of both counterexamples on the policy hold for a policy with one free card |
| Counterexamples.NeverConcluded | src/rex/store/repository.py:1378-1460 | once the locked finalist has failed the official rung no later record of the run can finalize |
| PatchLoop.Preparation.ApplyOrVerify | src/rex/agents/coordinator.py:621-656 | the diff ends up in the tree or is refused; it raises exactly when a dirty tree does not pass for the diff |
| PatchLoop.Preparation.RestoreRejected | src/rex/agents/coordinator.py:559-571 | it succeeds exactly from a clean tree or from one that the reversed diff cleans |
| PatchLoop.Preparation.Check | src/rex/agents/coordinator.py:384-413 | a check passes only when the world answers so at that moment about that tree |
| PatchLoop.Preparation.RunChecks | src/rex/agents/coordinator.py:384-413 | success means that change contract, audit, static gate and fixture gate were asked in this order and each passed the tree that holds the diff; a refusal names the check that refused |
| PatchLoop.Preparation.Reject | src/rex/agents/coordinator.py:414-453 | a rejection is written only at a clean tree and for a cause: the diff did not apply, or a check refused the tree that held it |
| PatchLoop.Preparation.Accept | src/rex/agents/coordinator.py:454-485 | an acceptance is written only after all four checks passed, in order, one tree that held the diff |
| PatchLoop.Preparation.Reserve | src/rex/agents/coordinator.py:583-612 | each attempt after the first has one repair, numbered after the rejection before it |
| PatchLoop.Preparation.TakeBack | src/rex/agents/coordinator.py:414-441 | a refused diff is rejected exactly when its tree can be cleaned |
| PatchLoop.Preparation.TryAttempt | src/rex/agents/coordinator.py:375-485 | an attempt ends accepted with its diff in the tree, or rejected with the tree clean; a process with one act left dies with the diff applied |
| PatchLoop.Preparation.Revisit | src/rex/agents/coordinator.py:331-374 | a decided attempt is taken over, or raises only when wedged |
| PatchLoop.RejectedForCause | src/rex/agents/coordinator.py:375-441 | a rejected diff did not apply to a clean tree, or some check refused a tree that held it |
| PatchLoop.AcceptedAfterChecks | src/rex/agents/coordinator.py:384-485 | an accepted diff had one tree that passed contract, audit, static gate and fixture gate, one after the other |
| PatchLoop.Preparation.ApplyPatchAttempts | src/rex/agents/coordinator.py:273-487 | at every crash point rejections in a row then at most one acceptance, at most maximum + 1 responses; a returned diff passed all four checks in order; with a benign world and reversible diffs it raises exactly when it is wedged |
| PatchLoop.WedgeBySecondDiff | src/rex/agents/coordinator.py:362-369 | a process dies with the second diff in the tree, and the rejected first one cannot be reversed there |
| PatchLoop.WedgeByUntrackedFile | src/rex/agents/coordinator.py:634-641 | a process dies with a diff in the tree whose own tree does not pass for it |
| PatchLoop.WedgeByIgnoredFile | src/rex/agents/coordinator.py:331-340 | an accepted diff leaves the status clean and does not apply a second time |
| Trackers.BestIsMaximum | src/rex/control/budget.py:76-96 | the best is the running maximum in metric units |
| Trackers.StreakIsLongestFlatSuffix | src/rex/control/budget.py:76-96 | the streak is the longest suffix of candidates that do not rise by more than epsilon |
| Trackers.NewBestAndConverged | src/rex/control/budget.py:76-96 | a new best beats all before it; the tracker has converged exactly when the streak has reached the patience |
| Trackers.StreakBoundsTheRise | src/rex/control/budget.py:76-96 | over a streak of N the best rises by at most N times epsilon |
| Trackers.UnitsAreClose | src/rex/control/budget.py:16-17 | rounding moves a value by at most half a unit |
| Trackers.FlatMeansClose | agent/state.py:125-141 | a window is flat exactly when no two of its scores differ by more than epsilon and a billionth |
| Trackers.WindowRuleImpliesStreak | agent/state.py:125-141 | a flat window of n scores means a streak of at least n - 1 for epsilon plus two units |
| Trackers.IterationState.RecordIteration | agent/state.py:107-144 | window, first best and sticky flag after each iteration, failed ones included |
| Trackers.ConvergedRunHadAStreak | agent/state.py:125-141 | whenever the window rule has fired the unit tracker had such a streak |
| Provider.AutoRoute | src/rex/agents/provider.py:744-755 | automatic routing visits each configured name once and the paid one only when allowed |
| Provider.AutoRouteKeepsOrder | src/rex/agents/provider.py:744-755 | the providers are asked in the order in which they are configured |
| Provider.TriesMeaning | src/rex/agents/provider.py:700-738 | a provider is left only on an answer, a final error, or exhausted retries |
| Provider.CallsAreBounded | src/rex/agents/provider.py:692-738 | at most (retries + 1) calls per provider |
| Provider.Router.AskProvider | src/rex/agents/provider.py:700-738 | calls made, last reply and sleep of one provider |
| Provider.Router.Generate | src/rex/agents/provider.py:679-742 | the first provider that answers, one error per provider before it, bounded calls and sleep |
| Provider.RoutedIsUnique | src/rex/agents/provider.py:679-742 | the route and the replies decide the result completely |
| Provider.CallsStayWithinCap | src/rex/agents/provider.py:567-573 | no history of reservations and charges lifts the calls above max(initial, cap) |
| Provider.NothingIsLost | src/rex/agents/provider.py:532-573 | every completed call's tokens are counted, and while they last every reservation is granted until the calls reach their cap |

## Left out

- Floating point: rounding, overflow and the widths of the numpy types are not modelled; real arithmetic throughout.
- The loss value returned by `FM.step`, the quantile edges of the duration buckets, and the popularity and random baselines.
- The translation of exceptions into rung failures, the artifacts and diagnostics of a rung, and cached rungs in `run_rung`.
- Other keys of the control cache: one state holds one key, since keys share no lock and no path; file locks, fsync and permissions are not modelled.
- The baseline verification before the search and the finalization after it; a model run starts in SEARCHING with no experiments and ends in FINALIZING.
- Convergence bookkeeping of the store (streak, transactions, stop reason): stopping is an arbitrary decision of the environment, besides the two caps that the code checks.
- Evidence links, events, time stamps, LLM call records, worktree cleanup and commit provenance of the store.
- A rung's observations are one value (gate verdict and mean primary in units); the gates over thresholds and uncertainty intervals are not spelled out.
- The reason and plan texts in payloads: a replay is compared by rung, status and repair number only.
- Supervisor.Autopilot.LockShadowFinalist: the fallback that takes the maximum over the candidates is absent, because the durable champion is proved to be a candidate whenever there is one.
- Supervisor.Autopilot.PrepareCandidate: an id that already belongs to an experiment is refused for a new card; the identity of the other proposal fields is not compared.
- Repairs of a preparation and repairs of a run live in two databases; the supervisor model holds only those of the run, `PatchLoop` only those of the preparation.
- PatchLoop.Preparation.ApplyPatchAttempts: HEAD never moves during the attempts and is not a variable.
- PatchLoop.Preparation.RunChecks: the fixture audit is part of the audit stage.
- ControlCache.CacheIsInvisible: damage may leave any files and any broken manifest, but no readable manifest other than a true one, because an import trusts a consistent entry; `ForgeryIsServed` is the run that shows it.
- Provider.Router.Generate: sleep is counted in units of the backoff; unexpected exceptions are errors that are not retried.
- Provider.CallsStayWithinCap: requests in flight are not bounded by the token cap, which is only checked before a call.
- Trackers.IterationState.RecordIteration: heartbeat, checkpoint path and the component metrics are not stored.
- Sampling of users and pairs and date batches (`src/rex/data`): single-pass selections that would add only easy members.
- Feature recipes, sandboxing, the command line, reports and the fixture supervisor, which is a smaller copy of the modelled life cycle.
- Process sessions and takeover: one controller at a time.
