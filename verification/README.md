# Verified model of the landscaper service controllers

The landscaper service runs Landscaper installations for tenants. A LandscaperDeployment is turned into an Instance,
which is placed on one of several target clusters (ServiceTargetConfigs); health watchers, admission webhooks and a
sidecar for customer namespaces complete it. This project models the logic of these controllers in Dafny and proves
what they promise, over whole runs and with failing API calls. Verify it with
`dafny verify dfyconfig.toml`.

- **The protocol of LandscaperDeployments, Instances and ServiceTargetConfigs** (`Lifecycle*.dfy`). Both controllers
  are sequential workers on one store with versions, deletion marks and finalizers, interleaved at every API call. A
  call may fail, or be applied while its response is lost; processes may crash; somebody may also delete an Instance
  directly. `LifecycleInvariant` and `LifecycleSteps` prove one inductive invariant; `LifecycleTheorems`,
  `LifecycleUsage` and `LifecycleRemoval` (direct deletions) draw the consequences; `LifecycleRecovery` proves that every
  pass without failures repairs whatever happened before. `DeploymentController` is the deployment controller as it is
  written, statement by statement, with arbitrary interference between its calls: it is proved to produce only runs of
  the protocol, and to reach its goal when nothing interferes or fails and a target, an ID and a name can be found.
- **Scheduling** (`Targets`, `Sorting`, `Allocation`, `Selectors`, `TargetValidation`, `ErrorPaths`, `Scheduling`,
  `TargetChoice`). The selector language and its admission, the search for a target on all inputs, the stable sort in
  64-bit arithmetic, the proportional allocation that repeated picking amounts to, and the choice of a target in the
  deployment controller.
- **The teardown of an Instance** (`Teardown`, `TeardownTheorems`, `TeardownProtocol`): order, progress and the exact
  number of passes; every pass is a run of the protocol.
- **The health watcher** (`Health`, `HealthHistory`): FailedSince as a summary of the whole history of observations.
- **Customer namespaces** (`Subjects`, `Registrations`, `RegistrationTheorems`, `RegistrationProgress`, `SubjectSync`,
  `SidecarRuns`): the phases of a registration, its deletion strategies, and the coherence of role bindings that two
  controllers write.
- **Specs** (`InstallationSpecs`, `Admission`, `AdmissionTheorems`, `Ids`, `References`): comparison, admission along
  chains of updates, unique IDs, reference lists.

What the code turned out not to guarantee, each with a concrete case and the exact condition:

- A usage list can keep a reference to a vanished Instance (`LifecycleUsage.EarlyDeletionLeavesReference`): after a run
  without direct deletions of Instances exactly if a listed Instance was deleted before the instance controller had
  given it its finalizer (`LifecycleUsage.CoherentUnlessRacyDelete`); with direct deletions
  (`LifecycleRemoval.EarlyRemovalLeavesReference`, `VanishedIsListed`) the lists are right throughout a run exactly if
  no step drops a listed Instance or lists a vanished one (`LifecycleRemoval.CoherentThroughout`).
- An Instance can come back under its old name with another ID (`LifecycleRemoval.RemovedComesBack`), exactly if it is
  gone when its deployment reads it, which takes a direct deletion (`LifecycleTheorems.RecreateOnlyAfterRemoval`).
- The comparison of priorities can overflow for admitted priorities (`Sorting.BeforeOverflows`); all configs within
  bounds on priority and usage are compared rightly exactly if the product of the bounds fits into 64 bits
  (`Sorting.ComparesRightIffFits`).
- A present but empty `or` or `and` list passes admission although its evaluation always fails
  (`TargetValidation.EmptyListAdmittedButFails`); admitted selectors are well-formed exactly without such lists
  (`TargetValidation.AdmittedIsWellFormed`).
- Whether an ill-formed rule is an error depends on the order of the rules (`Scheduling.IllFormedRuleDependsOnOrder`;
  `Scheduling.RulesCollect` says exactly when).
- An admitted chain of deployment updates can end in an Instance spec that admission rejects
  (`AdmissionTheorems.ReplacedToleranceIsRejected`), exactly if the failure tolerance was replaced by way of an update
  without it (`AdmissionTheorems.InstanceFollowsDeployment`).
- A failing streak is forgotten when a pass leaves out the Instance (`HealthHistory.ProgressForgetsTheStreak`);
  FailedSince is exactly that of the current streak (`HealthHistory.EntrySummarizesHistory`).
- A teardown takes one pass more than there are dependents to delete (`TeardownTheorems.MarkedDependentDelays`), exactly
  if the first one in the way is already marked (`TeardownTheorems.TeardownPassesExactly`).
- A restart of the sidecar can leave a role binding without subjects until the next sync
  (`SidecarRuns.RestartLeavesBindingEmpty`), exactly if the binding was missing and the list has subjects
  (`SidecarRuns.RestartCoherence`).

## Model

| member | source | states |
|---|---|---|
| LifecycleTheorems.AtMostOneInstance | pkg/controllers/landscaperdeployments/reconcile.go:40-63 | After every run of both controllers, users, crashes, failing calls and lost responses: at most one Instance per deployment, and a status reference of the deployment names it |
| LifecycleTheorems.NoOrphanedInstance | pkg/controllers/landscaperdeployments/reconcile_delete.go:22-80 | After every run an existing Instance has an existing deployment that carries the finalizer; a deleting Instance has a deleting deployment, or was deleted directly |
| LifecycleTheorems.IdsAreDistinct | pkg/controllers/landscaperdeployments/reconcile.go:141-156 | After every run the Instances of a namespace have pairwise distinct IDs |
| LifecycleTheorems.IdentityNeverChanges | pkg/controllers/landscaperdeployments/reconcile.go:127-156 | Whenever an Instance is seen again later in a run, its owner is the same; unless it was deleted directly, its ID and target are the same too, and it does not come back once it is gone |
| LifecycleTheorems.RecreateOnlyAfterRemoval | pkg/controllers/landscaperdeployments/reconcile.go:40-52 | CreateOrUpdate takes the branch that creates under the name from the status exactly if that Instance is gone when it is read, and that only happens after the Instance was deleted directly |
| LifecycleTheorems.StepKeeps | pkg/controllers/landscaperdeployments/controller.go:80-119 | The inductive invariant of the protocol is kept by every single API call of either controller, every user action, the direct deletion of an Instance and every crash |
| LifecycleTheorems.AlwaysSafe | pkg/controllers/landscaperdeployments/reconcile.go:31-102 | The safety properties above in one predicate, for every run |
| LifecycleTheorems.FailedCallChangesNothing | pkg/controllers/landscaperdeployments/controller.go:97-118 | A call of either controller that fails changes nothing |
| LifecycleTheorems.ErrorEndsDeployment | pkg/controllers/landscaperdeployments/reconcile.go:31-102 | A call whose response is an error ends the pass of the deployment controller, also if it was applied; only a generated name that is taken is replaced |
| LifecycleTheorems.ErrorEndsInstance | pkg/controllers/instances/reconcile_delete.go:112-130 | The same for the instance controller |
| LifecycleTheorems.WritesAreMade | pkg/controllers/landscaperdeployments/reconcile.go:50-56 | An Instance is written, based on its current version, exactly if something differs |
| LifecycleSteps.FetchedKeeps | pkg/controllers/landscaperdeployments/controller.go:97-118 | The invariant across the status write of the observed generation, the finalizer and the dispatch |
| LifecycleSteps.ListingOwnedKeeps | pkg/controllers/landscaperdeployments/reconcile.go:264-295 | The invariant across the look for an owned Instance in the cluster; afterwards the pass knows that there is none, or has its reference |
| LifecycleSteps.WritingKeeps | pkg/controllers/landscaperdeployments/reconcile.go:50-56 | The invariant across the create or update of the Instance, also if it is applied and its response is lost |
| LifecycleSteps.SavingConfigKeeps | pkg/controllers/landscaperdeployments/reconcile.go:93-99 | The invariant across the write of the usage list with an optimistic lock |
| LifecycleSteps.DroppingFinalizerKeeps | pkg/controllers/landscaperdeployments/reconcile_delete.go:34-39 | The invariant when the finalizer of the deployment is dropped: no Instance is left |
| LifecycleSteps.UnlistingKeeps | pkg/controllers/instances/reconcile_delete.go:112-125 | The invariant when the instance controller takes an Instance off the usage list |
| LifecycleSteps.ReleasingKeeps | pkg/controllers/instances/reconcile_delete.go:126-130 | The invariant when the finalizer of the Instance is dropped: it is not listed any more |
| LifecycleInvariant.DeployerUndisturbed | pkg/controllers/landscaperdeployments/reconcile.go:31-102 | Whatever the others do between two calls of the deployment controller, what its pass relies on stays true |
| LifecycleInvariant.TenderUndisturbed | pkg/controllers/instances/controller.go:113-158 | The same for the instance controller |
| LifecycleUsage.CoherentUnlessRacyDelete | pkg/controllers/landscaperdeployments/reconcile.go:83-99 | After a run in which no Instance is deleted directly, every usage list is duplicate free and holds only existing Instances of its target, if and only if the run has no racy delete: no deletion of a listed Instance before the instance controller has given it its finalizer |
| LifecycleUsage.StepCoherence | pkg/controllers/instances/reconcile_delete.go:112-130 | The same for a single step that is no direct deletion: it leaves the lists right exactly if they were right and it is no racy delete |
| LifecycleUsage.ListedOnceAtItsTarget | pkg/controllers/landscaperdeployments/reconcile.go:93-99 | In every run an Instance is listed at most once, and only at its own target, unless it was deleted directly and created again for another target |
| LifecycleUsage.RegisteredStaysListed | pkg/controllers/landscaperdeployments/reconcile.go:83-99 | From its first successful pass on, an Instance stays listed until it is marked for deletion, unless it was deleted directly before |
| LifecycleUsage.ListsAreExact | pkg/controllers/landscaperdeployments/reconcile.go:83-99 | Once every Instance has had a successful pass and none is being deleted, each list holds exactly the Instances of its target, if there was no racy delete and no direct deletion |
| LifecycleUsage.EarlyDeletionLeavesReference | pkg/controllers/landscaperdeployments/reconcile_delete.go:74-78 | A concrete run in which an early deletion leaves a reference to a vanished Instance in a usage list |
| LifecycleRecovery.EveryCalmPassSettles | pkg/controllers/landscaperdeployments/reconcile.go:31-102 | From every reachable state, every pass without failures over a deployment with its finalizer ends with an Instance that the status names and the list of its target holds |
| LifecycleRecovery.EveryCalmPassDeletes | pkg/controllers/landscaperdeployments/reconcile_delete.go:22-80 | From every reachable state, every pass without failures over a deleting deployment brings the deletion one step further, unless it waits for the release of the Instance |
| LifecycleRecovery.EveryCalmReleaseReleases | pkg/controllers/instances/reconcile_delete.go:112-130 | Every pass of the instance controller without failures over a marked Instance whose dependents are gone releases it |
| LifecycleRecovery.CalmReleaseEnds | pkg/controllers/instances/reconcile_delete.go:37-133 | Such a pass can be brought to its end from wherever it stands |
| LifecycleRecovery.CalmPassesDelete | pkg/controllers/landscaperdeployments/reconcile_delete.go:22-80 | From every reachable state, any calm pass of the deployment controller, any of the instance controller over the marked Instance if there is one, and another one of the deployment controller complete the deletion of a deployment |
| LifecycleRecovery.CalmPassEnds | pkg/controllers/landscaperdeployments/controller.go:80-119 | While there is a target, every pass without failures can be brought to its end from wherever it stands |
| LifecycleRecovery.StaysOnTrack | pkg/controllers/landscaperdeployments/reconcile.go:31-102 | Every single step without a failure keeps a pass on its way to the settled deployment, or to the next step of its deletion |
| LifecycleRemoval.CoherentThroughout | pkg/controllers/landscaperdeployments/reconcile.go:83-99 | Over all runs, direct deletions of Instances included: the usage lists are right throughout the run if and only if no step breaks them, that is, a listed Instance is dropped or a vanished Instance is listed |
| LifecycleRemoval.StepBreaks | pkg/controllers/instances/reconcile_delete.go:112-130 | The same for a single step of anybody from any reachable state with right lists |
| LifecycleRemoval.ReleasedIsListedLate | pkg/controllers/instances/reconcile_delete.go:119-130 | An Instance about to be released is only listed if it was deleted directly and a pass over its deployment has put it on the list again after it was taken off |
| LifecycleRemoval.EarlyRemovalLeavesReference | pkg/controllers/landscaperdeployments/reconcile.go:93-99 | A concrete run in which an Instance that is deleted directly before it has its finalizer stays listed |
| LifecycleRemoval.VanishedIsListed | pkg/controllers/landscaperdeployments/reconcile.go:83-99 | A concrete run in which a pass lists an Instance that has been deleted meanwhile |
| LifecycleRemoval.RemovedComesBack | pkg/controllers/landscaperdeployments/reconcile.go:44-50 | A concrete run in which a directly deleted Instance is created again under its old name with another ID |
| LifecycleRemoval.RemovedExactly | pkg/webhook/add.go:76-82 | Admission does not stop deletions: the directly deleted Instances are exactly those of deletion events that find the Instance |
| DeploymentController.Cluster.Serve | pkg/controllers/landscaperdeployments/controller.go:80-119 | The worker, call by call with arbitrary interference between calls: after any requests the cluster is safe, and all that happened is a run of the protocol |
| DeploymentController.Cluster.Reconcile | pkg/controllers/landscaperdeployments/controller.go:80-119 | A pass is a run of the protocol; a pass that reports success has prepared the deployment with its finalizer or has registered its Instance. Without interference and failures, and with a target, an unused ID and an unused name if an Instance is to be created, it does report success: a new deployment is prepared, a prepared one settled, a deleting one comes a step nearer to its end unless it waits for the release of the Instance |
| DeploymentController.Cluster.HandleDeployment | pkg/controllers/landscaperdeployments/controller.go:96-119 | The pass after the first read, with the finalizer before anything else. Without interference and failures it settles the deployment, or takes its deletion one step further |
| DeploymentController.Cluster.HandleError | pkg/controllers/landscaperdeployments/controller.go:122-145 | The status is written once more, and the result of that write does not matter |
| DeploymentController.Cluster.GetInstanceRef | pkg/controllers/landscaperdeployments/reconcile.go:242-262 | Success means the reference is in the status, or the cluster was searched and holds no Instance of the deployment; without failures it succeeds |
| DeploymentController.Cluster.GetInstanceRefFromCluster | pkg/controllers/landscaperdeployments/reconcile.go:264-295 | Finds some Instance whose owner is the deployment, exactly if there is one; fails exactly if the list call fails |
| DeploymentController.Cluster.ReconcileInstance | pkg/controllers/landscaperdeployments/reconcile.go:31-102 | Follows the protocol in the order Instance, status, usage list; success means that the Instance is registered, and without failures it succeeds and settles the deployment |
| DeploymentController.Cluster.RecordInstance | pkg/controllers/landscaperdeployments/reconcile.go:65-99 | The reference is written to the status before the usage list; success means that the Instance is registered, and without failures it succeeds |
| DeploymentController.Cluster.CreateOrUpdateInstance | pkg/controllers/landscaperdeployments/reconcile.go:50-63 | Reads, mutates and writes the Instance as the protocol allows; success leaves its reference in the copy, and without failures it succeeds |
| DeploymentController.Cluster.MutateInstance | pkg/controllers/landscaperdeployments/reconcile.go:105-167 | The owner becomes the deployment; a target or an ID that is there already is kept, a new target is a winner of scheduling if nobody interferes, a new ID is the beginning of a draw and not in use in the namespace; without failures it succeeds if there is a target and an unused draw |
| DeploymentController.Cluster.FindTarget | pkg/controllers/landscaperdeployments/reconcile.go:127-139 | A target that is there already is kept; a new one is a winner of scheduling over the stored configs; fails only for a foreign owner, a failed call, or if no target can be chosen |
| TargetChoice.FindTarget | pkg/controllers/landscaperdeployments/reconcile.go:169-190 | A target is found exactly if all rules pass and an eligible config is stored and visible, and then it is a best one of these if nothing overflows |
| TargetChoice.ListConfigs | pkg/controllers/landscaperdeployments/reconcile.go:192-209 | The visible configs with their usage lists, each once |
| TargetChoice.FreePolicyPlaces | pkg/controllers/landscaperdeployments/reconcile.go:169-190 | Without rules a target is found exactly if some config is visible and not restricted |
| DeploymentController.Cluster.FindId | pkg/controllers/landscaperdeployments/reconcile.go:141-156 | An ID that is there already is kept; a new one is the beginning of a draw and not in use in the namespace; fails only if the list call fails or no draw within the patience of the search is unused |
| DeploymentController.Cluster.AddToUsageList | pkg/controllers/landscaperdeployments/reconcile.go:83-99 | Success means that the Instance is registered at its target; without failures it succeeds |
| DeploymentController.Cluster.HandleDelete | pkg/controllers/landscaperdeployments/reconcile_delete.go:22-42 | The finalizer is dropped only where no Instance is left; without interference and failures the deletion comes one step further, unless it waits for the release of the Instance |
| DeploymentController.Cluster.DrawId | pkg/controllers/landscaperdeployments/reconcile.go:147-156 | An ID that no Instance of the namespace has, exactly if one of the draws within the patience is unused |
| DeploymentController.ServeDeployment | pkg/controllers/landscaperdeployments/controller.go:80-119 | For all names a cluster can be set up with which a new deployment is prepared, settled and, once deleted, brought nearer to its end: the assumptions of the controller can all be met |
| DeploymentController.Cluster.EnsureDeleteInstance | pkg/controllers/landscaperdeployments/reconcile_delete.go:45-80 | Permission to drop the finalizer means that the deployment owns no Instance; otherwise success means that its Instance is marked or gone; without failures it succeeds |
| Ids.FindUnusedId | pkg/controllers/landscaperdeployments/reconcile.go:147-156 | The first draw that gives an unused ID: the beginning of the draw, eight characters long or as long as the draw; after at most one draw more than there are Instances if the draws are distinct |
| Ids.DistinctDrawsSuffice | pkg/controllers/landscaperdeployments/controller.go:42-48 | Among one more distinct truncated draws than Instances, one is unused |
| References.ContainsReference | pkg/utils/utils.go:34-41 | Finds the reference exactly if it is in the list |
| References.RemoveReference | pkg/utils/utils.go:44-53 | The slice that remains after the swap removal in place; cells beyond the slice stay |
| References.RemovedMultiset | pkg/utils/utils.go:44-53 | The removal takes out exactly one occurrence and keeps all others |
| References.RemovedOfDistinct | pkg/utils/utils.go:44-53 | In a duplicate-free list exactly the reference is missing afterwards, and no duplicates arise |
| Sorting.SortServiceTargetConfigs | pkg/controllers/landscaperdeployments/scheduling/sort.go:29-41 | The array becomes its stable descending arrangement, in place |
| Sorting.PickServiceTargetConfig | pkg/controllers/landscaperdeployments/scheduling/sort.go:18-26 | Error exactly for an empty list; otherwise the first of the configs with the greatest quotient, if nothing overflows |
| Sorting.BeforeComparesQuotients | pkg/controllers/landscaperdeployments/scheduling/sort.go:39-39 | The 64-bit cross multiplication compares priority / (usage + 1) for priorities of any sign, if the products fit |
| Sorting.ComparesRightIffFits | pkg/controllers/landscaperdeployments/scheduling/sort.go:39-39 | All configs with priorities up to p and divisors up to u are compared as their quotients are, if and only if p * u fits into 64 bits |
| Sorting.BeforeIsStrictWeakOrder | pkg/controllers/landscaperdeployments/scheduling/sort.go:35-40 | Without overflow the comparison is a strict weak order |
| Sorting.BeforeOverflows | pkg/controllers/landscaperdeployments/scheduling/sort.go:39-39 | A pair of admissible configs for which the products overflow and the comparison is wrong |
| Sorting.StableSortUnique | pkg/controllers/landscaperdeployments/scheduling/sort.go:34-40 | Descending by quotient and keeping the order of equal quotients determines the list: every stable sort gives this one |
| Sorting.StableSortedPermutes | pkg/controllers/landscaperdeployments/scheduling/sort.go:34-40 | The result is a permutation of the input, even with overflow |
| Sorting.HeadIsFirstBest | pkg/controllers/landscaperdeployments/scheduling/sort.go:24-25 | The head has the greatest quotient, and is the first of those in the input |
| Allocation.ProportionalAllocation | pkg/controllers/landscaperdeployments/reconcile.go:89-99 | After N placements, however ties break: N * p_i < P * (n_i + 1) and P * n_i <= p_i * (N + k - 1) for every target |
| Allocation.LowerQuota | pkg/controllers/landscaperdeployments/scheduling/sort.go:14-17 | Every target has at least its proportional share, rounded down |
| Allocation.LargestLoadIsMinimal | pkg/controllers/landscaperdeployments/scheduling/sort.go:14-17 | No other distribution of the same number of Instances has a smaller largest load per priority |
| Allocation.GreedyBalances | pkg/controllers/landscaperdeployments/reconcile.go:93-99 | The invariant of the allocation: p_i * n_j <= p_j * (n_i + 1) for every used target j |
| Allocation.WinnerIsBest | pkg/controllers/landscaperdeployments/scheduling/sort.go:24-25 | A config wins the scheduling among unrestricted configs exactly if it is a best target of the allocation |
| Allocation.ScheduledIsGreedy | pkg/controllers/landscaperdeployments/reconcile.go:89-99 | Repeated scheduling among unrestricted configs with the append to the usage list of the winner is a run of the greedy allocation |
| Allocation.SchedulingIsProportional | pkg/controllers/landscaperdeployments/scheduling/scheduling.go:14-44 | The proportional bounds hold for every such run of the scheduler |
| Selectors.EvaluateSelector | pkg/controllers/landscaperdeployments/scheduling/selector.go:22-43 | Evaluation with all its early exits and errors |
| Selectors.EvaluateOrTerms | pkg/controllers/landscaperdeployments/scheduling/selector.go:54-67 | The first true term or the first error decides |
| Selectors.EvaluateAndTerms | pkg/controllers/landscaperdeployments/scheduling/selector.go:69-82 | The first false term or the first error decides |
| Selectors.CountConditions | pkg/controllers/landscaperdeployments/scheduling/selector.go:93-116 | Counts the conditions that are present, an empty list included |
| Selectors.EvaluateIsMeaning | pkg/controllers/landscaperdeployments/scheduling/selector.go:14-91 | Evaluation fails exactly if it reaches an ill-formed selector, and otherwise gives the denotational value, with tenant and labels compared on the deployment itself |
| Selectors.FormsEvaluate | pkg/controllers/landscaperdeployments/scheduling/selector.go:22-52 | A selector is refused exactly if it has none of the five forms; a tenant selector compares the tenant, a label selector holds exactly if the label has that value, an empty list is an empty selector |
| Selectors.WellFormedEvaluates | pkg/controllers/landscaperdeployments/scheduling/selector.go:14-91 | Well-formed selectors evaluate to their meaning for every deployment |
| Selectors.DeMorgan | pkg/controllers/landscaperdeployments/scheduling/selector.go:54-91 | De Morgan rewritings preserve the result, errors included |
| Selectors.DoubleNegation | pkg/controllers/landscaperdeployments/scheduling/selector.go:84-91 | Double negation preserves the result, errors included |
| TargetValidation.ValidateTargetScheduling | pkg/apis/validation/targetscheduling.go:14-23 | The list of all errors of all rules with their paths; it is empty exactly for admissible rules |
| TargetValidation.ValidateSchedulingRule | pkg/apis/validation/targetscheduling.go:25-55 | The errors of a rule: priority, targets, selectors |
| TargetValidation.ValidateSchedulingSelector | pkg/apis/validation/targetscheduling.go:57-115 | The errors of a nested selector with their paths |
| TargetValidation.SchedulingErrorsExact | pkg/apis/validation/targetscheduling.go:14-115 | No error exactly for rules with non-negative priority, complete targets and one condition at every level of the selectors |
| ErrorPaths.SchedulingErrorsPoint | pkg/apis/validation/targetscheduling.go:14-115 | The path of every error leads through the rules to the part that is wrong: an empty text or list, a negative priority, or a selector without exactly one condition |
| TargetValidation.AdmittedIsWellFormed | pkg/apis/validation/targetscheduling.go:57-115 | An admitted selector is well-formed exactly if it has no empty list |
| TargetValidation.EmptyListAdmittedButFails | pkg/controllers/landscaperdeployments/scheduling/selector.go:32-42 | An empty list passes admission, and its evaluation fails for every deployment |
| Scheduling.FindServiceTargetConfig | pkg/controllers/landscaperdeployments/scheduling/scheduling.go:14-44 | For all rules and configs with distinct names: succeeds exactly if every rule passes and an eligible config exists, and returns an eligible config with the greatest quotient if nothing overflows |
| Scheduling.EvaluateRules | pkg/controllers/landscaperdeployments/scheduling/scheduling.go:46-90 | The loop over the rules, with the branch order of the code |
| Scheduling.GetUnrestricted | pkg/controllers/landscaperdeployments/scheduling/scheduling.go:92-107 | The references of the unrestricted configs in order |
| Scheduling.ConvertAndFilter | pkg/controllers/landscaperdeployments/scheduling/scheduling.go:111-128 | Exactly the existing configs that are referred to, each once, in any order |
| Scheduling.GetMapValues | pkg/utils/utils.go:121-127 | The values of a map, in any order |
| Scheduling.RulesCollect | pkg/controllers/landscaperdeployments/scheduling/scheduling.go:46-90 | The loop succeeds exactly if every rule passes, and has collected the targets of the matching rules of the highest matching priority |
| Scheduling.CandidatesAreEligible | pkg/controllers/landscaperdeployments/scheduling/scheduling.go:20-36 | The candidates are exactly the eligible configs |
| Scheduling.SoundPasses | pkg/controllers/landscaperdeployments/scheduling/scheduling.go:46-90 | The rules of a sound scheduling pass in every order |
| Scheduling.AdmittedIsSound | pkg/apis/validation/targetscheduling.go:25-55 | Admission and the absence of empty lists make a scheduling sound |
| Scheduling.OrderIsIrrelevant | pkg/controllers/landscaperdeployments/scheduling/scheduling.go:46-128 | The set of winners depends neither on the order of the rules nor on that of the configs |
| Scheduling.AnyBestCanBePicked | pkg/controllers/landscaperdeployments/scheduling/scheduling.go:111-128 | Every best config is picked for some order of the map |
| Scheduling.IllFormedRuleDependsOnOrder | pkg/controllers/landscaperdeployments/scheduling/scheduling.go:58-74 | An ill-formed rule of lower priority is an error or goes unnoticed, depending on the order |
| Teardown.Cluster.HandleDelete | pkg/controllers/instances/reconcile_delete.go:37-133 | One pass, call by call, equals the pass function under every combination of failing calls and vanishing objects |
| Teardown.Cluster.EnsureDeleteReferenced | pkg/controllers/instances/reconcile_delete.go:136-282 | One dependent with a reference: read, clear the reference if it is gone, delete it if it is not marked |
| Teardown.Cluster.DeleteSecretsForContext | pkg/controllers/instances/reconcile_delete.go:284-307 | All pull secrets are tried; an error of one does not stop the others |
| Teardown.Cluster.EnsureDeleteNamespace | pkg/controllers/instances/reconcile_delete.go:310-352 | The hosting namespace on the target cluster, if it can be named |
| TeardownTheorems.PassProgress | pkg/controllers/instances/reconcile_delete.go:37-133 | Whatever calls fail, nothing comes back, and the order of the chain is kept |
| TeardownTheorems.StageExactly | pkg/controllers/instances/reconcile_delete.go:136-352 | Exactly when a dependent is marked, its reference cleared, and the chain goes on or waits, over all combinations of failing calls and vanishing objects |
| TeardownTheorems.ReleasesExactly | pkg/controllers/instances/reconcile_delete.go:112-130 | Exactly when the Instance is taken off the list, and when it is released |
| TeardownTheorems.EverySecretIsTried | pkg/controllers/instances/reconcile_delete.go:284-307 | What becomes of a pull secret depends on its own calls alone, and an error is reported exactly if one of the calls failed |
| TeardownTheorems.TeardownIsOrdered | pkg/controllers/instances/reconcile_delete.go:49-130 | In every state of every run a dependent is marked only if all earlier ones are gone, the context only after its secrets, and the finalizer is dropped last |
| TeardownTheorems.PassReducesRemaining | pkg/controllers/instances/reconcile_delete.go:37-133 | Every pass changes nothing or reduces a well-founded measure |
| TeardownTheorems.TeardownTakesOnePassPerDependent | pkg/controllers/instances/reconcile_delete.go:37-133 | With successful calls and removals between passes the finalizer is gone after exactly 1 + m passes for m live dependents |
| TeardownTheorems.TeardownPassesExactly | pkg/controllers/instances/reconcile_delete.go:37-133 | The exact number of passes from any state: one more if the first dependent in the way is already marked |
| TeardownTheorems.MarkedDependentDelays | pkg/controllers/instances/reconcile_delete.go:49-64 | A concrete state with nothing left to delete in which a teardown takes two passes |
| TeardownTheorems.PassWaits | pkg/controllers/instances/reconcile_delete.go:49-110 | Without removals a further pass changes nothing |
| TeardownProtocol.PassIsRun | pkg/controllers/instances/reconcile_delete.go:37-133 | From every state of the protocol at the start of a teardown, every pass of the teardown is a run of the instance controller in the protocol: it ends at rest with the Instance, its finalizer and its place on the list as the pass leaves them, touches nothing else and keeps the invariant |
| TeardownProtocol.ChainShows | pkg/controllers/instances/reconcile_delete.go:49-130 | The same from every stage of the chain on, with the status writes that clear references |
| Health.AvailabilityInstance.SetStatusAndFailedSince | pkg/apis/core/v1alpha1/types_availabilitycollection.go:77-89 | FailedSince is set once and kept, or cleared |
| Health.AvailabilityInstance.TransferLsHealthCheckStatus | pkg/controllers/healthwatcher/controllger.go:280-310 | Status and FailedSince that a list of health checks leads to |
| Health.AvailabilityInstance.constructor | pkg/controllers/healthwatcher/controllger.go:244-262 | FailedSince is taken over from the first earlier entry of the Instance |
| Health.AvailabilityCollection.Reconcile | pkg/controllers/healthwatcher/controllger.go:68-199 | One pass: not due, aborted, or all entries rewritten in the order of the spec, and lost if the status cannot be written |
| HealthHistory.PassEntries | pkg/controllers/healthwatcher/controllger.go:86-176 | A pass that can be written leaves exactly one entry, in order, for each Instance that is monitored: everything but a missing, unfinished or unreferenced installation, or missing checks; all but healthy ones have FailedSince, and those whose checks cannot be read are Failed |
| HealthHistory.EntrySummarizesHistory | pkg/controllers/healthwatcher/controllger.go:87-180 | FailedSince is empty exactly if the latest pass saw one fresh Ok check, and otherwise the time of the first pass of the current streak; Failed exactly for an unusable check or a fresh failing one in a streak older than the timeout |
| HealthHistory.FailedUntilSeenHealthy | pkg/controllers/healthwatcher/controllger.go:300-307 | With a clock that does not run backwards, an Instance Failed by age stays Failed while it is seen failing |
| HealthHistory.ProgressForgetsTheStreak | pkg/controllers/healthwatcher/controllger.go:124-128 | A pass that leaves out an Instance ends its streak, and a Failed Instance is reported as Ok again |
| Registrations.Sidecar.Reconcile | pkg/controllers/namespaceregistration/controller.go:73-120 | A pass, call by call, equals the pass function: the same calls in the same order and the same result for every combination of failing calls |
| Registrations.Sidecar.HandleDelete | pkg/controllers/namespaceregistration/controller.go:122-154 | Deletion with and without a namespace |
| Registrations.Sidecar.RemoveResourcesAndNamespace | pkg/controllers/namespaceregistration/controller.go:143-206 | Installations, executions, deploy items and target syncs hold up the deletion in this order |
| Registrations.Sidecar.RemoveAccessDataAndNamespace | pkg/controllers/namespaceregistration/controller.go:208-240 | Bindings before roles, the namespace after both, the finalizer last |
| Registrations.Sidecar.ReconcileCreate | pkg/controllers/namespaceregistration/controller.go:242-306 | The creation of namespace, roles and bindings with its phases |
| Registrations.Sidecar.TriggerDeletionOfInstallations | pkg/controllers/namespaceregistration/controller.go:308-326 | All root installations are tried; an error of one does not stop the others |
| Registrations.Sidecar.TriggerDeletion | pkg/controllers/namespaceregistration/deletion_handler.go:22-92 | What each deletion strategy does with a root installation |
| Registrations.Sidecar.DeleteOrRetriggerDelete | pkg/controllers/namespaceregistration/deletion_handler.go:94-112 | Delete a live installation, retrigger a finished one |
| RegistrationTheorems.PassIsSafe | pkg/controllers/namespaceregistration/controller.go:73-306 | Whatever calls fail: every call is made only in a state that allows it (the phase is written before anything is created or removed, the namespace is deleted only if empty and after all access to it, the finalizer is dropped only if the namespace is gone or terminating, completion is announced only when namespace, roles and bindings exist), no customer namespace loses its registration, managed bindings stay on the list, nothing else is touched, and the deletion strategy is followed |
| RegistrationTheorems.TriggeredFine | pkg/controllers/namespaceregistration/deletion_handler.go:44-112 | All calls for installations are allowed by the annotation of the registration: root only, annotated only by default, annotation before the mark without uninstall, deletion once, a retrigger only of an idle deletion, none for an unknown annotation |
| RegistrationTheorems.RemoveAccessFine | pkg/controllers/namespaceregistration/controller.go:208-240 | The namespace is deleted only after both bindings and both roles are gone |
| RegistrationTheorems.CreateAccessFine | pkg/controllers/namespaceregistration/controller.go:258-298 | A creation without failure leaves namespace, roles and bindings with the converted subjects |
| RegistrationProgress.CreatePassCompletes | pkg/controllers/namespaceregistration/controller.go:242-306 | With successful calls a creation pass completes from any interrupted state, exactly if there is a SubjectList and the namespace is not terminating with access objects missing; otherwise it stays in creation, and in any case with the finalizer |
| RegistrationProgress.DeletePassReleases | pkg/controllers/namespaceregistration/controller.go:122-240 | With successful calls a deletion pass releases the registration exactly if the namespace is gone or empty, and otherwise leaves it in deletion |
| RegistrationProgress.DeletePassMarks | pkg/controllers/namespaceregistration/deletion_handler.go:44-112 | With successful calls exactly the root installations that the annotation of the registration covers are marked, annotated beforehand if they are not to be uninstalled, and started again if their deletion is idle; all others stay as they are |
| RegistrationProgress.DeletePassDeletesTargetSyncs | pkg/controllers/namespaceregistration/controller.go:180-206 | With successful calls a deletion pass over a namespace in which only target syncs are left marks all of them |
| RegistrationProgress.StrategiesByName | pkg/controllers/namespaceregistration/deletion_handler.go:26-41 | The strategy by the text of the annotation; any other text is unknown |
| RegistrationProgress.WrongNameIsReportedOnce | pkg/controllers/namespaceregistration/controller.go:86-102 | A registration whose name lacks the prefix fails with that reason, which is written once |
| RegistrationProgress.CompletedIsFinal | pkg/controllers/namespaceregistration/controller.go:245-248 | A completed registration that is not deleted is never changed by a pass |
| Subjects.CreateSubjectsForSubjectList | pkg/controllers/subjectsync/subjects.go:14-47 | The conversion loop |
| Subjects.ConversionKeepsOrder | pkg/controllers/subjectsync/subjects.go:14-47 | The subjects are the entries of the kinds User, Group and ServiceAccount, each once and in order, with their kind, name, API group and namespace |
| Subjects.EntryGivesSubject | pkg/controllers/subjectsync/subjects.go:50-74 | An entry gives a subject exactly if its kind is known; API group and namespace on the entry itself |
| Subjects.ConversionKeepsIdentity | pkg/controllers/subjectsync/subjects.go:50-74 | A subject stands for the same user, group or service account as its entry, and determines it |
| SubjectSync.Synchronizer.Reconcile | pkg/controllers/subjectsync/controller.go:52-112 | A pass equals the pass function under every combination of failing calls |
| SubjectSync.Synchronizer.SyncAll | pkg/controllers/subjectsync/controller.go:114-157 | The loop updates exactly the managed bindings with the subjects of their kind, until an update fails |
| SubjectSync.SyncMakesCoherent | pkg/controllers/subjectsync/controller.go:83-157 | A pass that comes to its end leaves all managed bindings on the list; no pass takes a cluster off it; bindings that are not managed are never touched |
| SubjectSync.SyncEnds | pkg/controllers/subjectsync/controller.go:83-157 | With successful calls a pass comes to its end exactly if the list has its finalizer, is not marked, and the listed managed bindings exist; then every binding, by its name, has the subjects or viewers of the list |
| SubjectSync.TwoPassesSync | pkg/controllers/subjectsync/controller.go:66-81 | Two passes with successful calls synchronize a cluster with any unmarked list; the first only gives the list its finalizer if it has none |
| SubjectSync.ManagedByName | pkg/controllers/subjectsync/controller.go:120-154 | The managed bindings by name and namespace |
| SubjectSync.MarkedListIsNotSynced | pkg/controllers/subjectsync/controller.go:75-78 | A list marked for deletion is not synchronized any more |
| SidecarRuns.SynchronizedIsCoherent | pkg/controllers/namespaceregistration/controller.go:270-298 | Over all runs of both controllers: while the list is as it was at the last completed sync, every managed binding, also one created since, carries exactly its conversion |
| SidecarRuns.NamespacesStayOwned | pkg/controllers/namespaceregistration/controller.go:104-120 | Over all runs a customer namespace that is not terminating has a registration held by the finalizer |
| SidecarRuns.UnmanagedIsUntouched | pkg/controllers/subjectsync/controller.go:120-154 | Neither controller ever touches a binding that is not managed |
| SidecarRuns.RestartCoherence | pkg/controllers/subjectsync/roledefinition.go:171-189 | A restart takes the cluster off the list exactly if it creates the missing binding while the list has subjects |
| SidecarRuns.RestartLeavesBindingEmpty | pkg/controllers/subjectsync/roledefinition.go:171-189 | A concrete run in which a restart after a completed sync leaves a role binding without the subjects of the list |
| InstallationSpecs.InstallationSpecDeepEquals | pkg/controllers/instances/installation_equals.go:16-45 | True exactly if both specs have the same keys, all mappings parse, to the same values, and the rest is equal; both arguments lose their mappings if these are equal |
| InstallationSpecs.EqualIffParsedEqual | pkg/controllers/instances/installation_equals.go:16-45 | The comparison is that of the parsed values |
| InstallationSpecs.EqualityIsPartialEquivalence | pkg/controllers/instances/installation_equals.go:16-45 | Symmetric and transitive, and reflexive exactly on specs that parse |
| InstallationSpecs.Installation.Mutate | pkg/controllers/instances/reconcile.go:693-702 | The annotation is set exactly if the specs differ, and the spec itself is kept |
| InstallationSpecs.AnnotatedIffChanged | pkg/controllers/instances/reconcile.go:508-509 | In a run of reconciles with re-encoded storage, a reconcile that finds the annotation removed sets it exactly if the parsed values differ from those of the reconcile before |
| InstallationSpecs.NeverAnnotatedAgain | pkg/controllers/instances/reconcile.go:693-702 | While the desired values stay the same, the annotation does not come back once it has been removed |
| Admission.ValidateInstance | pkg/apis/validation/instance.go:23-92 | Reports exactly the errors that the spec and the update have |
| Admission.ValidateInstanceSpec | pkg/apis/validation/instance.go:39-64 | Reports exactly the errors of the spec |
| Admission.ValidateInstanceSpecUpdate | pkg/apis/validation/instance.go:66-92 | Reports exactly the forbidden changes |
| Admission.ValidateLandscaperDeployment | pkg/apis/validation/landscaperdeployment.go:23-31 | Reports exactly the errors that the spec and the update have |
| Admission.ValidateLandscaperDeploymentSpec | pkg/apis/validation/landscaperdeployment.go:39-63 | Reports exactly the errors of the spec |
| Admission.ValidateLandscaperDeploymentSpecUpdate | pkg/apis/validation/landscaperdeployment.go:65-83 | Reports exactly the forbidden changes |
| Admission.ValidateDataPlane | pkg/apis/validation/shared.go:50-66 | Exactly one of secret and kubeconfig, and a complete secret reference |
| Admission.ValidateSecretReference | pkg/apis/validation/shared.go:14-23 | Key, name and namespace must not be empty |
| Admission.ValidateObjectReference | pkg/apis/validation/shared.go:26-38 | Name and namespace must not be empty |
| Admission.ValidateHighAvailabilityConfig | pkg/apis/validation/shared.go:40-48 | Only zone and node are allowed |
| Admission.ErrorsByField | pkg/apis/validation/instance.go:39-92 | Each field is reported exactly if it is wrong |
| Admission.InstanceAdmission | pkg/apis/validation/instance.go:39-92 | The specs and updates without an error are exactly the valid ones |
| Admission.DeploymentAdmission | pkg/apis/validation/landscaperdeployment.go:39-83 | The specs and updates without an error are exactly the valid ones |
| AdmissionTheorems.InstanceFollowsDeployment | pkg/controllers/landscaperdeployments/reconcile.go:158-162 | After any chain of admitted deployment updates the copied Instance spec is valid, and accepted as an update exactly if the tolerance has not been replaced meanwhile |
| AdmissionTheorems.MutatedIsInSync | pkg/controllers/landscaperdeployments/reconcile.go:158-162 | The copied spec takes over tenant, configuration, OIDC, tolerance and data plane, field by field, and keeps ID and target |
| AdmissionTheorems.NewIdIsAdmitted | pkg/apis/validation/instance.go:47-49 | An ID cut from a draw of at least eight characters has the length that admission asks for |
| AdmissionTheorems.InstanceFollowsEachUpdate | pkg/controllers/landscaperdeployments/reconcile.go:158-162 | After a single admitted deployment update the copied Instance spec is always accepted |
| AdmissionTheorems.InstanceKeepsIdentity | pkg/apis/validation/instance.go:66-92 | Tenant, ID, target and kind of data plane are constant along any chain of accepted updates |
| AdmissionTheorems.ToleranceCanBeReplaced | pkg/apis/validation/instance.go:81-85 | The tolerance is not constant: it can be replaced by way of an update without it |
| AdmissionTheorems.ReplacedToleranceIsRejected | pkg/controllers/landscaperdeployments/reconcile.go:158-162 | A concrete chain of admitted deployment updates after which the copied Instance spec is rejected |
| AdmissionTheorems.HostingNamespaceIsUnique | pkg/controllers/instances/reconcile_delete.go:310-318 | The hosting namespace name identifies tenant and ID of admitted Instances |

## Left out

- The API server, clients, watches, requeues and rate limits are an abstract store; `CreateOrUpdate` is get, mutate,
  then create or update. Generated names are never used twice, and reads are not cached
  (cmd/landscaper-service-controller/app/app.go:63).
- The instance controller's part in the protocol is a state machine on values; the code of its teardown is modelled
  imperatively in `Teardown`, without interference between the calls of a pass, and `TeardownProtocol` connects the two
  for such passes. Its pass over a live Instance is reduced to status writes, and the other fields of specs and statuses
  to version changes. Update in place and aliasing of these objects are not captured.
- In the protocol a deployment or an Instance has only the finalizer of the service; the garbage collector of
  Kubernetes, manual edits of finalizers, specs and statuses, and the removal of ServiceTargetConfigs are not modelled.
- Whether a status write has anything to write is decided nondeterministically, except that a new Instance reference is
  always written by `DeploymentController`.
- Context, Target and Installation of an Instance have no second look at the cluster, so nothing like
  `AtMostOneInstance` is claimed for them.
- `sort.SliceStable` sorts by insertion here; `StableSortUnique` shows that any stable sort gives the same list as long
  as no product overflows. With overflow only the permutation is meaningful.
- LifecycleUsage.CoherentUnlessRacyDelete: only for runs without direct deletions of Instances, because the creation that
  follows a direct deletion can repair a list; `LifecycleRemoval.CoherentThroughout` is for all runs.
- LifecycleUsage.ListsAreExact: only for runs without direct deletions of Instances.
- RegistrationTheorems.PassIsSafe: a pass is not interrupted, so the customer namespace is empty when it is listed, and
  an Installation that somebody creates between that list and the delete of the namespace is not covered.
- Ids.FindUnusedId: assumes that an unused ID is drawn at some time, because the search does not end otherwise.
- DeploymentController.Cluster.FindTarget: the scheduling object and the list of configs are read by one call; rules,
  visibility, priorities and restrictions may differ from call to call, and a failed read of the object is a failed call.
- DeploymentController.Cluster.DrawId: a search that does not find an unused ID in any number of draws fixed beforehand
  (`patience`) ends the pass as a failed call does, where the code would go on drawing; the generator of identifiers is
  assumed never to return an empty one.
- SidecarRuns.SynchronizedIsCoherent: treats each pass as atomic, so a change of the list in the middle of a pass is
  not modelled; it is picked up by the next sync.
- SidecarRuns.NamespacesStayOwned: assumes that nobody but the controller creates customer namespaces or drops the
  finalizer of a registration.
- Rules of roles, the namespace and the list created at startup, and cluster roles other than their bindings.
- Messages, reasons, time stamps of errors, the check of the service's own landscaper, and the truncation of stored
  times to seconds in the health watcher.
- Installations are assumed to have a finalizer, so that a delete marks them; a repeated delete of target syncs is only
  a mark.
- `deleteTargetClusterRBAC` is best effort and promises nothing. Field copying into import mappings, defaults, JSON and
  YAML encoding (an abstract parser), kubeconfigs, uploads, certificates, webhook serving, CRD management and object
  metadata validation are foreign or hold only easy properties.
