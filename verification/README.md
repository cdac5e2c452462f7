# A verified model of the pod-to-ASG controller

The controller keeps each Azure address prefix set equal to the IPs of the pods that a
`PodASGMapping` selects. This project models its hard core in Dafny and proves, for all inputs and
all runs:

- **The incremental cache is the full recompute.** Pod add, update and delete events mutate a cache
  entry in place. Each mutation keeps every derived field (prefixes, snapshot, tracked rules,
  per-rule counts, pending count) equal to the single-pass recompute, *exactly when* it clobbers no
  shared target, and never clobbers one when no target is shared by two rules.
- **The publish protocol.** In every interleaving of pod events, mapping changes, invalidations,
  deletes and any number of reconciles, what the cache serves is the recompute of the current
  pods, and what reaches the diff is the recompute of some instant within that reconcile, unless a
  clobbering event hit the entry since it was published. A publish commits exactly when nothing hit
  its key meanwhile, and an undisturbed reconcile reaches the diff.
- **Diff, patch and the ETag retry executor** against a store that others write at any moment: what
  every write serves, that a resolved conflict leaves the desired set, and that it is resolved.
- **Write-ahead ownership and the cleanup finalizer**, with a crash between any two steps, and exactly
  which outdated reads of the mapping can lose a prefix set.
- **Last-sync times** through per-selector queues, with the exact condition under which a recomputed
  status is stable, and the **pruned churn window**.

| file | contents |
|---|---|
| `Model.dfy` | pods, rules, mappings, targets |
| `DesiredState.dfy` | what a mapping wants, declaratively; the rule-major, pod-major and single-pass computations |
| `Incremental.dfy` | the cache mutations as functions; exactly when they keep parity |
| `CacheEntry.dfy` | the loops that mutate an entry |
| `CacheState.dfy` | the cache as a value, its operations and fences |
| `DesiredStateCache.dfy` | the cache object |
| `PodHandler.dfy` | dispatch of pod events to cache operations |
| `Replay.dfy` | queued pod events that trail behind a published recompute |
| `CacheProtocol.dfy` | runs of the whole protocol |
| `CacheProgress.dfy` | an undisturbed reconcile reaches the diff |
| `Diff.dfy`, `Executor.dfy` | diff, patch, conditional writes, retry |
| `Ownership.dfy` | annotation and finalizer |
| `Status.dfy`, `PodChurn.dfy` | status rows, churn rate |

`dafny verify dfyconfig.toml` checks everything. Every lemma switches Dafny's automatic induction off,
so each proof is the one that is written.

## How the source is represented

- `Address` carries a pod IP together with its CIDR, and `Target` a resource ID together with its
  normalised key, so every statement holds for any `toCIDR` and any normalisation.
- A selector is equality on every listed label; a selector that does not compile selects nothing.
- Azure is a map from key to prefixes and entity tag, with a log of every write. A schedule of
  ticks gives, for each request, the writes of others that precede it and the fault that befalls
  it (before or after it took effect). Results hold for every schedule.
- Reconciles, the API server and the informer are threads and steps of `CacheProtocol.World`.

Conditions the code needs, stated where they are used:

- `RulesSeparated`: no target is reached by two rules of one mapping. Without it an update or a
  delete can drop a prefix that is still wanted (`Incremental.SharedTargetIsClobbered`,
  `Incremental.DeleteIsClobbered`); `UpdateClobbers` and `DeleteClobbers` are the exact per-event
  conditions, and the run theorems need only that no such event hit the entry.
- `OneSpelling`: one spelling per target in a mapping; `FedUnderOneSpelling` is the exact condition,
  and `Incremental.TwoSpellingsDisagree` a mapping that fails it.
- Event consistency: an added pod is new, the old object of an update or delete is the one last
  applied. Events of a pod that a published recompute is ahead of restore the sets once drained
  (`Replay.DrainedQueueRestores`); on the way they may disturb that pod's own prefixes
  (`Replay.QueuedUpdateDisturbs`), and the counters may drift.
- Fence counters are naturals, generations are at least 1, UIDs are not reused, every store write
  has a fresh tag, and a 404 is only answered for a set that is absent, be it that its ASG is gone.
- Reconciles of one mapping are serialised, and no request of a crashed process lands after the
  crash; only this mapping creates prefix sets under its ownership key. The object a reconcile reads
  may be any outdated one: `SafeToStart` and, for a cleanup, `azure <= Candidates(seen)` are exactly
  the reads that lose nothing, every up-to-date read is one (`Ownership.FreshReadsAreSafe`), and
  `Ownership.StaleReadOrphans`, `StaleReadSkips`, `StaleReadShrinks` and `StaleCleanupOrphans` are
  reads that are not.

## Model

| member | source | states |
|---|---|---|
| Model.SelectsIsInclusion | internal/engine/desired_state_snapshot.go:31-43 | a selector accepts exactly the label sets that include it |
| DesiredState.MatchPodToRuleIndices | internal/engine/desired_state_snapshot.go:31-43 | returns exactly the rules whose selector accepts the labels, in increasing order |
| DesiredState.ResolveRuleTargets | internal/engine/desired_state_snapshot.go:49-65 | returns exactly the targets of the references that parse |
| DesiredState.Merge | internal/engine/desired_state.go:63-82 | adds the prefixes under the key of each target and nowhere else; a key that is there keeps its first spelling |
| DesiredState.MatchedIps | internal/engine/desired_state.go:47-55 | collects exactly the prefixes of the pods of the namespace that the rule selects |
| DesiredState.ComputeDesiredState | internal/engine/desired_state.go:23-92 | rule-major computation: under each key exactly what some mapping wants |
| DesiredState.ComputeDesiredStateWithSnapshot | internal/engine/desired_state_snapshot.go:110-171 | pod-major computation: the same, with no empty target, and a snapshot of exactly the matched pods with an IP |
| DesiredState.ComputeArtifacts | internal/engine/desired_state_snapshot.go:193-263 | single pass: prefixes as wanted, and snapshot, per-rule counts, tracked rules and pending count of the listed pods |
| DesiredState.ComputeMatchedPodsByMapping | internal/controller/status.go:297-311 | the per-rule counts equal those of the single pass |
| DesiredState.CoversExactly | internal/engine/desired_state_snapshot.go:242-260 | a computation that covers the mappings holds, under every key, exactly the wanted prefixes |
| DesiredState.ComputationsAgree | internal/engine/desired_state_snapshot.go:184-187 | rule-major, pod-major and single-pass results agree on every prefix set Azure distinguishes |
| DesiredState.TrackingAgrees | internal/engine/desired_state_snapshot.go:184-187 | for one mapping the pod-major snapshot and the separately computed counts are those of the single pass |
| DesiredState.CoversPerTarget | internal/engine/desired_state_snapshot.go:258-260 | with one spelling per target the result is the per-target account, up to empty targets |
| DesiredState.CoversPerTargetIff | internal/engine/desired_state_snapshot.go:244-254 | the recompute agrees target by target if and only if no prefix set is fed under two spellings |
| Incremental.RecomputeParity | internal/engine/desired_state_snapshot.go:189-192 | a recompute is in parity with its pods in every derived field |
| Incremental.RecomputeParityIff | internal/engine/desired_state_snapshot.go:189-192 | for given pods, exactly when no prefix set is fed under two spellings |
| Incremental.TwoSpellingsDisagree | internal/engine/desired_state_snapshot.go:244-254 | concrete mapping, one ASG in two spellings, for which no recompute agrees target by target |
| Incremental.OthersOfRule | internal/engine/desired_state_cache.go:331-346 | the other-contributor scan finds one exactly when another pod of that rule has the prefix |
| Incremental.AddKeepsSets | internal/engine/desired_state_cache.go:213-258 | adding a pod, also one already reflected, keeps prefixes, snapshot and tracked rules in parity |
| Incremental.AddKeepsParity | internal/engine/desired_state_cache.go:187-264 | adding a new pod keeps every field in parity |
| Incremental.DeletePerTarget | internal/engine/desired_state_cache.go:313-358 | after a delete a target holds what the other pods want if and only if it is not clobbered |
| Incremental.DeleteKeepsSetsIff | internal/engine/desired_state_cache.go:291-361 | a delete, also one already reflected, keeps the sets in parity if and only if it clobbers no target |
| Incremental.DeleteKeepsCounters | internal/engine/desired_state_cache.go:321-324 | counts and pending count stay exact, and the positive guards never hide an underflow |
| Incremental.DeleteKeepsParityIff | internal/engine/desired_state_cache.go:267-370 | a delete keeps every field in parity if and only if it clobbers no target |
| Incremental.DeleteReachesTracked | internal/engine/desired_state_cache.go:313-358 | whatever the deleted object's labels, every tracked or matched rule is uncounted and gives up the prefix unless another pod of the rule has it |
| Incremental.SettleOld | internal/engine/desired_state_cache.go:498-524 | the old prefix survives the rule loop exactly when no rule removes it, or a rule puts it back and no later rule removes it |
| Incremental.UpdatePerTarget | internal/engine/desired_state_cache.go:456-526 | after an update a target holds what the new pods want if and only if it is not clobbered |
| Incremental.UpdateKeepsSetsIff | internal/engine/desired_state_cache.go:456-547 | an update, also one already reflected, keeps the sets in parity if and only if it clobbers no target |
| Incremental.UpdateKeepsCounters | internal/engine/desired_state_cache.go:469-486 | counts and pending count move exactly with the selector transitions, without underflow |
| Incremental.UpdateKeepsParityIff | internal/engine/desired_state_cache.go:374-558 | whatever labels and IP change, an update keeps every field in parity if and only if it clobbers no target |
| Incremental.SeparatedNeverDeleteClobbers | internal/engine/desired_state_cache.go:348-357 | with separated rules no delete clobbers |
| Incremental.SeparatedNeverUpdateClobbers | internal/engine/desired_state_cache.go:499-518 | with separated rules no update clobbers |
| Incremental.SharedPrefixSurvives | internal/engine/desired_state_cache.go:331-346 | a prefix shared by two pods of a rule survives the deletion of either |
| Incremental.ReplayKeepsSets | internal/engine/desired_state_cache.go:213-547 | the latest event of a pod, already reflected in a recompute, leaves prefixes, snapshot and tracked rules equal to it |
| Incremental.ReplayedAddDrifts | internal/engine/desired_state_cache.go:244-247 | a replayed add leaves the per-rule counts right if and only if the pod matches no rule |
| Incremental.SharedTargetIsClobbered | internal/engine/desired_state_cache.go:499-518 | concrete mapping and update for which parity is lost, because two rules share a target |
| Incremental.DeleteIsClobbered | internal/engine/desired_state_cache.go:331-357 | concrete mapping and delete for which parity is lost: two pods with one IP, selected by two rules of one target |
| Incremental.IrrelevantPod | internal/controller/pod_handler.go:264-276 | a pod no rule matches does not affect any derived field |
| CacheEntry.HasOtherContributor | internal/engine/desired_state_cache.go:333-346 | scanning tracked pods in any order decides whether another pod of the rule has the prefix |
| CacheEntry.VisitAdded | internal/engine/desired_state_cache.go:215-248 | one matching rule: contribution tracked, prefix added to each of its targets, count raised |
| CacheEntry.AddPod | internal/engine/desired_state_cache.go:213-263 | the add loops compute the add mutation |
| CacheEntry.VisitRemoved | internal/engine/desired_state_cache.go:313-358 | one contributing rule: count lowered if positive, prefix dropped from its targets unless another pod of the rule has it |
| CacheEntry.RemovePod | internal/engine/desired_state_cache.go:289-369 | the delete loops compute the delete mutation |
| CacheEntry.TouchTargets | internal/engine/desired_state_cache.go:488-525 | visiting a rule changes each of its targets once, also when it is listed twice |
| CacheEntry.VisitChanged | internal/engine/desired_state_cache.go:456-526 | one affected rule of an update advances counts, tracked rules and prefixes together |
| CacheEntry.ChangePod | internal/engine/desired_state_cache.go:404-557 | the update loops compute the update mutation |
| CacheState.FencesGrow | internal/engine/desired_state_cache.go:714-716 | no operation lowers a fence; every pod event, invalidation or delete raises the version of the keys it hits |
| CacheState.PublishNeedsQuiet | internal/engine/desired_state_cache.go:718-723 | a publish succeeds only if, since its fences were captured, nothing hit its key or namespace |
| CacheState.PublishCommitsIff | internal/engine/desired_state_cache.go:705-737 | a publish of a mapping without a rival since its key was deleted commits if and only if nothing hit its key since its fences were captured, whether or not its slot is cached |
| CacheState.MissKeepsFences | internal/engine/desired_state_cache.go:714-723 | what does not hit a key leaves both its fences alone |
| CacheState.IncarnationsStayApart | internal/engine/desired_state_cache.go:725-730 | no publish replaces the entry of another incarnation |
| CacheState.PublishedIsServed | internal/engine/desired_state_cache.go:617-634 | after a committed publish, until the key is evicted or published again, the cache serves the published artifacts as the pod events moved them |
| CacheState.OtherIncarnationMisses | internal/engine/desired_state_cache.go:617-634 | and serves them to no other incarnation |
| CacheState.ReachableIsRolled | internal/engine/desired_state_cache.go:732-752 | every reachable cache has at most one entry per key, at the latest committed generation |
| CacheState.ReachableKnows | internal/engine/desired_state_cache.go:740-744 | the generation of every entry is among the known ones of its key |
| CacheState.NoResurrection | internal/engine/desired_state_cache.go:594-610 | an emptied key stays empty until a publish with a newer lifecycle fence |
| CacheState.DeleteFences | internal/engine/desired_state_cache.go:591-610 | after a delete only a publish whose fence was captured after it brings an entry back |
| CacheState.InvalidateFences | internal/engine/desired_state_cache.go:561-589 | after an invalidation of the key or its namespace only a publish whose version was captured after it brings an entry back |
| DesiredStateCache.DesiredStateCache.OnPodAdd | internal/engine/desired_state_cache.go:187-264 | the whole new state: version bumped, cached entry mutated, nothing else |
| DesiredStateCache.DesiredStateCache.OnPodDelete | internal/engine/desired_state_cache.go:267-370 | the whole new state of a delete |
| DesiredStateCache.DesiredStateCache.OnPodUpdate | internal/engine/desired_state_cache.go:374-558 | the whole new state of an update; refused exactly when only another generation is cached, and every path bumps the version |
| DesiredStateCache.DesiredStateCache.Invalidate | internal/engine/desired_state_cache.go:561-572 | removes the entries of the key and bumps its version |
| DesiredStateCache.DesiredStateCache.InvalidateNamespace | internal/engine/desired_state_cache.go:577-589 | removes the namespace's entries, bumping its epoch and each entry's key |
| DesiredStateCache.DesiredStateCache.Delete | internal/engine/desired_state_cache.go:594-610 | bumps both fences, removes entries and generation tracking |
| DesiredStateCache.DesiredStateCache.GetWithVersion | internal/engine/desired_state_cache.go:617-634 | serves the entry of this generation and UID, with both fences, also on a miss |
| DesiredStateCache.DesiredStateCache.SetFromRecomputeArtifactsIfVersion | internal/engine/desired_state_cache.go:705-755 | commits exactly when fences, UID and generation guards pass, and prunes older generations |
| PodHandler.PodToMappingEventHandler.On | internal/controller/pod_handler.go:63-230 | every listed mapping reacts to the event; a failed listing invalidates the namespace |
| PodHandler.PodToMappingEventHandler.OnOne | internal/controller/pod_handler.go:158-184 | the reaction of one mapping: invalidate, add, delete, update, or update and invalidate |
| PodHandler.DispatchAt | internal/controller/pod_handler.go:158-184 | dispatching to all mappings is, on each key, that mapping's reaction alone, in whatever order |
| PodHandler.ReactIsReaction | internal/controller/pod_handler.go:170-184 | the handler subjects the cached entry to exactly the add, delete or update mutation that fits the event |
| PodHandler.UnselectedIsSilent | internal/controller/pod_handler.go:145-161 | a pod no rule selects, before or after, leaves cache and fences alone |
| Replay.EventLags | internal/engine/desired_state_cache.go:187-558 | each reaction moves an entry that is ahead of its events along with the replayed state of the pod |
| Replay.DrainedQueueRestores | internal/controller/pod_handler.go:145-184 | any queue of events of a pod that ends in its listed state leaves prefixes, snapshot and tracked rules equal to the recompute |
| Replay.QueueOnlyDisturbsItsPod | internal/engine/desired_state_cache.go:331-357 | while the queue drains no prefix of another pod is lost and nothing but the pod's own listed and replayed prefix is added |
| Replay.QueuedUpdateDisturbs | internal/engine/desired_state_cache.go:499-518 | concrete queue of two updates whose first leaves a prefix the recompute does not have |
| CacheProtocol.NamespaceListing | internal/controller/mapping_reconciler.go:267-273 | listing only the mapping's namespace computes the same artifacts as all pods |
| CacheProtocol.ReactionKeepsParityIff | internal/controller/pod_handler.go:145-184 | whatever the event, a recompute stays one if and only if the event does not clobber it |
| CacheProtocol.ReactKeepsParityIff | internal/controller/pod_handler.go:145-184 | the same of the cached entry, which stays cached |
| CacheProtocol.SeparatedNeverClobbers | internal/engine/desired_state_cache.go:348-357 | no event clobbers a mapping whose rules share no target |
| CacheProtocol.QuietEventKeeps | internal/engine/desired_state_cache.go:380-402 | an event that leaves a current mapping's version alone leaves its recompute alone |
| CacheProtocol.PublishKeeps | internal/controller/mapping_reconciler.go:287-290 | a committed publish stores a recompute of the current pods if its mapping is current |
| CacheProtocol.StepKeeps | internal/controller/mapping_reconciler.go:231-354 | every step of every participant keeps the protocol invariant |
| CacheProtocol.CacheServesRecompute | internal/engine/desired_state_cache.go:187-755 | in every run, what the cache serves for a live mapping that no event clobbered since its publish is the recompute over the current pods in every field |
| CacheProtocol.DiffSeesRecompute | internal/controller/mapping_reconciler.go:231-354 | in every run, on every path, the state that reaches the diff is the recompute of some instant since the reconcile started, unless it was served from a clobbered entry |
| CacheProtocol.SeparatedAreSafe | internal/controller/mapping_reconciler.go:231-354 | in no run is a mapping with separated rules clobbered, or a reconcile of one served from a clobbered entry |
| CacheProgress.QuietReconcileReachesDiff | internal/controller/mapping_reconciler.go:231-354 | a reconcile nothing disturbs publishes its recompute, over a cached entry too, and brings it to the diff |
| CacheProgress.HitReachesDiff | internal/controller/mapping_reconciler.go:231-354 | a cache hit brings the served state to the diff |
| CacheProgress.RetriedReconcileReachesDiff | internal/controller/mapping_reconciler.go:295-335 | a reconcile that lost the race once publishes a second recompute and brings that to the diff |
| Diff.IpSetsEqual | internal/engine/diff.go:111-121 | equal length and inclusion decide set equality |
| Diff.ComputeIpDelta | internal/engine/diff.go:146-160 | the two set differences |
| Diff.ComputeDiff | internal/engine/diff.go:14-109 | one correct action (create, update, patch by threshold, delete) per differing key and none otherwise |
| Diff.DiffConverges | internal/engine/diff.go:53-89 | applying the actions to the actual state yields exactly the desired state |
| Diff.AnyOrder | internal/engine/diff.go:91-106 | a reordering of a diff is a diff, so convergence does not depend on order |
| Diff.OneActionPerDifference | internal/engine/diff.go:53-89 | a key has an action exactly when it differs, and only one |
| Diff.SecondDiffIsEmpty | internal/engine/diff.go:53-89 | after convergence a further diff is empty |
| Diff.ApplyPatchDelta | internal/azure/executor.go:184-201 | the result holds what is added and what was current and is not removed |
| Diff.PatchRefinesUpdate | internal/azure/executor.go:162-201 | a patch is a full update on the state it was diffed from, and on a drifted state misses the desired set exactly by what drifted |
| Diff.PatchThreshold | internal/engine/diff.go:162-171 | the threshold in terms of what the sets share: disjoint sets are patched only at 100 percent, where every differing pair is |
| Diff.ThresholdDecides | internal/engine/diff.go:48-89 | from 1 to 100 the configured threshold, else 50, decides by what the sets share whether a changed set is patched or updated |
| Executor.PutIfKeeps | internal/azure/address_prefix_set_client.go:413-471 | a conditional write that meets its condition replaces exactly the version that was read |
| Executor.ExecuteKeeps | internal/azure/executor.go:146-181 | one execution writes only what its action says; success installs it, a 404 means absence |
| Executor.ExecuteKeepsPresence | internal/azure/executor.go:146-181 | where nobody else writes the set, an action with prefixes never makes it vanish and a delete never makes it appear |
| Executor.Recompute | internal/azure/executor.go:295-312 | the recompute is exactly the one needed action, a no-op, or the read error; more than one action is impossible |
| Executor.NeededKeepsIntent | internal/azure/executor.go:317-331 | the recomputed action keeps target and desired set; a delete stays a delete; only an empty desired set can become one |
| Executor.ExecuteWithETagRetry | internal/azure/executor.go:203-291 | at most `maxRetries` rounds, none after cancellation, each carrying out what was recomputed from a fresh read after the conflict before; all writes serve the original intent; success means a read found the set settled or the last action was carried out on the version it replaced, and after a conflict nobody else interfered with it leaves the set exactly as desired; failure only by cancellation, another error, a failed read, or a conflict in the last round |
| Executor.RetrySettles | internal/azure/executor.go:276-290 | an execution that succeeds after a conflict leaves exactly the desired set, or none for a delete, if nobody else wrote the set since that conflict |
| Executor.QuietConflictIsResolved | internal/azure/executor.go:217-290 | once nothing disturbs the set after a conflict, the loop succeeds with the set settled |
| Executor.FirstSuccessIsFinal | internal/azure/executor.go:212-215 | a first execution that succeeds is the only one |
| Executor.NoLostUpdate | internal/azure/address_prefix_set_client.go:413-471 | a create, update or patch replaces exactly the version, or the absence, its execution read |
| Executor.IntentKept | internal/azure/executor.go:203-331 | a delete never stores, an action with prefixes never removes the set, every write adds only desired and removes only undesired prefixes |
| Executor.DiffMovesTowards | internal/engine/diff.go:53-89 | every action of a diff meets what the retry loop asks of its action |
| Executor.UndisturbedExecution | internal/azure/executor.go:88-158 | while others write only other sets, an execution does to its set what the diff assumes |
| Executor.UndisturbedActionConverges | internal/azure/executor.go:88-158 | so each action of a diff leaves its set as desired, whatever the interleaving |
| Ownership.UpdateOwnedAfterResults | internal/controller/ownership_store.go:92-136 | the references are the desired ones and every owned one without a successful delete, each key once |
| Ownership.FillOwned | internal/controller/mapping_reconciler.go:428-436 | adds exactly the owned, no longer desired targets that Azure did not return, as empty |
| Ownership.PlanCoversOwned | internal/controller/mapping_reconciler.go:399-441 | the plan touches only desired and owned targets, deletes exactly the undesired, and deletes every owned undesired one |
| Ownership.OwnershipConverges | internal/controller/mapping_reconciler.go:525-541 | when all actions succeed the annotation ends as exactly the desired targets |
| Ownership.ReconcileDelete | internal/controller/mapping_reconciler.go:850-949 | deletes the mapping's set at every candidate and nothing else; fails exactly on a client, list or delete failure, so never when every request works; success leaves none |
| Ownership.PlanIsEnabled | internal/controller/mapping_reconciler.go:428-441 | the actions of any diff of the filled actual state are a plan the protocol allows |
| Ownership.ExecutionIsEnabled | internal/azure/executor.go:203-291 | what the retry executor promises of an action is an execution step the protocol allows, with the presence it leaves |
| Ownership.ExecutionSteps | internal/controller/mapping_reconciler.go:480-483 | taking the results of a plan as steps empties the plan and records exactly the successful deletes |
| Ownership.WriteBehindStores | internal/controller/mapping_reconciler.go:525-541 | the write-behind stores exactly the references computed from those results |
| Ownership.SuccessSettlesOwnership | internal/controller/mapping_reconciler.go:480-541 | when every action succeeds exactly the desired targets end up recorded and no set is anywhere else |
| Ownership.CleanupSteps | internal/controller/mapping_reconciler.go:893-936 | the cleanup loop is a run of cleanup steps with the same sets gone and the same failure |
| Ownership.StepKeeps | internal/controller/mapping_reconciler.go:428-541 | every step, crash and failure keeps the ownership invariant |
| Ownership.NeverOrphaned | internal/controller/mapping_reconciler.go:461-541 | after every run whose reads are safe, each existing prefix set is listed in the stored annotation |
| Ownership.FreshReadsAreSafe | internal/controller/mapping_reconciler.go:102-134 | every run that reads the stored object reads safely |
| Ownership.FreshReadsNeverOrphan | internal/controller/mapping_reconciler.go:461-541 | so in it each existing prefix set is always listed |
| Ownership.FinalizerOutlivesSets | internal/controller/mapping_reconciler.go:134-157 | the finalizer goes only after a cleanup without failures, and with no prefix set left |
| Ownership.CleanupCompletes | internal/controller/mapping_reconciler.go:134-157 | a cleanup whose requests all work takes the finalizer off and leaves no set among its candidates |
| Ownership.DeletionCompletes | internal/controller/mapping_reconciler.go:134-157 | from every sound idle state an up-to-date cleanup can remove every set and let the object go |
| Ownership.SafeToStartIff | internal/controller/mapping_reconciler.go:391-541 | acting on an annotation that was read, outdated or not, loses no set whatever follows if and only if the write-ahead and write-behind keep every existing set, a skipped write-ahead already lists what may be created, and the finalizer guards it |
| Ownership.UnsafeStartLoses | internal/controller/mapping_reconciler.go:461-541 | from every unsafe read some continuation of that reconcile loses a set |
| Ownership.SafeCleanupIff | internal/controller/mapping_reconciler.go:134-157 | a cleanup loses no set if and only if the candidates it read include every existing one |
| Ownership.StaleReadOrphans | internal/controller/mapping_reconciler.go:465-478 | an outdated read makes the write-ahead update drop a set |
| Ownership.StaleReadSkips | internal/controller/mapping_reconciler.go:465-478 | an outdated read makes the write-ahead update be skipped, and a set is created unlisted |
| Ownership.StaleReadShrinks | internal/controller/mapping_reconciler.go:525-541 | an outdated read makes the update after a successful delete drop a set |
| Ownership.StaleCleanupOrphans | internal/controller/mapping_reconciler.go:134-157 | an outdated read makes the cleanup miss a set and remove the finalizer |
| Status.BuildPreviousLastSyncBySelector | internal/controller/status.go:190-196 | per hash, the queue of previous times in row order |
| Status.PopPreviousLastSync | internal/controller/status.go:201-209 | pops the earliest time of the hash and touches no other queue |
| Status.ComputeStatus | internal/controller/status.go:50-179 | every row: hash, matched pods, verdict and the last-sync time its mode prescribes |
| Status.FailuresShow | internal/controller/status.go:147-174 | in the final phase a row fails exactly when an action on one of its targets failed, with exactly those messages; otherwise it is synced now |
| Status.OtherwiseAllShow | internal/controller/status.go:130-145 | pending rows, and the reconcile error of a reconcile without results in every row |
| Status.IssuesShow | internal/controller/status.go:116-123 | with an invalid spec every row fails with the messages of its own issues, or a general one |
| Status.MessagesInOrder | internal/controller/status.go:223-232 | the messages of a row are those of its issues, all of them and in order |
| Status.RowsFollowRules | internal/controller/status.go:107-117 | each row has its rule's hash and count; a synced row shows the current time, and by index any other the previous row's |
| Status.ReconciledIff | internal/controller/status.go:55-74 | accepted if and only if there is no issue, reconciled if and only if moreover nothing failed; generation, clock and messages |
| Status.StatusSemanticEqual | internal/controller/status.go:257-284 | the comparison loops decide semantic equality |
| Status.SemanticEqualIff | internal/controller/status.go:257-284 | which is equality but for the transition times |
| Status.KeptTimesAreFifo | internal/controller/status.go:187-221 | in hash mode the kept times of a hash are a first-in-first-out prefix of the previous ones; nothing is invented |
| Status.NoTimeIsUsedTwice | internal/controller/status.go:198-209 | no previous row lends its time to two rows |
| Status.RecomputeIsStable | internal/controller/status.go:89-177 | recomputing from its own output is semantically equal when no kept row follows a synced one of its hash |
| Status.IndexModeIsStable | internal/controller/status.go:181-185 | it always is when no rule has a hash and rows are matched by index |
| Status.RecomputeIsStableIff | internal/controller/status.go:89-177 | where no previous row shows the current time, these are exactly the inputs for which it is |
| Status.PendingIsStable | internal/controller/status.go:130-136 | which is always so for a pending or invalid-spec status |
| Status.SyncedBeforeDrifts | internal/controller/status.go:161-174 | a synced row before a failing row of the same hash makes the recomputed time drift |
| Status.ConditionsMatchRows | internal/controller/status.go:55-74 | conditions and rows agree: reconciled means every row synced now, pending all pending, an invalid spec all failing, and any failing row forbids reconciled |
| PodChurn.ComputeDelta | internal/metrics/pod_churn.go:191-222 | added, deleted and updated are the sizes of those sets of pods |
| PodChurn.DeltaConserves | internal/metrics/pod_churn.go:191-222 | the new snapshot has the old pods plus the added minus the deleted |
| PodChurn.DeltaPartitions | internal/metrics/pod_churn.go:191-222 | every pod is counted once, as added, updated, deleted or unchanged; a first snapshot is compared with an empty one |
| PodChurn.NoChangeIff | internal/metrics/pod_churn.go:200-214 | nothing is counted exactly when both snapshots have the same pods with the same IPs |
| PodChurn.PodChurnTracker.ObserveSnapshot | internal/metrics/pod_churn.go:116-182 | the whole new record, the delta and the rate over the pruned history |
| PodChurn.PruningIsLossless | internal/metrics/pod_churn.go:144-177 | for non-decreasing times the pruned rate equals the rate of the full history, now and later |
| PodChurn.PruneRetains | internal/metrics/pod_churn.go:144-152 | what is retained is exactly what ended less than a minute ago |
| PodChurn.HistoryRecordsChanges | internal/metrics/pod_churn.go:136-142 | the history grows by one interval exactly when an observation changed something since a timed, earlier one, with that delta |
| PodChurn.WeightAtEdges | internal/metrics/pod_churn.go:156-174 | an interval inside the window counts in full, one that ended before it not at all |
| PodChurn.WeightStraddles | internal/metrics/pod_churn.go:156-174 | an interval that straddles the start of the window counts by its part inside |
| PodChurn.RateInsideWindow | internal/metrics/pod_churn.go:154-178 | intervals inside the window give their changes per second |
| PodChurn.RateBounded | internal/metrics/pod_churn.go:154-178 | the rate lies between zero and the retained changes over the window |

## Left out

- HTTP, tokens, JSON, long-running-operation polling, pagination and client-level retries: replaced by the schedule of requests, writes and faults.
- Kubernetes client, informers, work queue, debounce and requeue intervals: replaced by steps; `shouldForceDesiredStateRecompute` is the free `forced` choice.
- Informer lag over whole runs: events are applied to the pod set and the cache in one step; queued events behind a newer listing are proved pod by pod, not for interleaved queues of several pods.
- Diff.ComputeIpDelta: does not model the sorted order of the two lists, because they are sets wherever they are used.
- Diff.ComputeDiff: does not model the final sort, because every result is proved for any order.
- Diff.ApplyPatchDelta: does not model the sorted order of the result, because Azure keeps a set of prefixes.
- Ownership.UpdateOwnedAfterResults: does not model the sort of the references, which only serves comparison; whether a reference is spelled otherwise than before is the free choice `respelled`.
- PodHandler.PodToMappingEventHandler.On: lists the mappings once per event, where the source's update lists them once for the old and once for the new pod; the model takes both listings to return the same objects.
- Incremental.ReplayKeepsSets: covers the latest event of a pod only; `Replay.DrainedQueueRestores` covers queues.
- DesiredState.ComputationsAgree: compares prefixes only; `DesiredState.TrackingAgrees` compares snapshots and counts.
- Deep copies of cached state: entries are values, so aliasing cannot arise in the model.
- `Executor.Execute`'s goroutines and semaphore: each action is executed against arbitrary interference, which includes the other actions.
- Reconciles without a desired-state cache, the unversioned `SetFromRecompute` variants, and deletion timestamps in the freshness gate (which only make it refuse more).
- Prometheus recorders, convergence tracking, conditions beyond the two set by `ComputeStatus`, NIC and ASG clients, rate limiting, configuration.
- Floating point: churn rates are real numbers.
