# Verified model of the propagation controller

The propagation controller moves versions through waves of deployments. Every deployment has a
controller that publishes its own status to an OCI registry, polls the statuses of the deployments it
depends on, folds each observation into a compacted history, and tells its deployment to take a new
version once every deployment of the wave before was seen to run it Healthy, the wave's bake time ago
or more, and was never recorded Unhealthy on it since. The first wave of an environment also waits for all later waves to be on its own version before it moves on.

This project models that decision engine and proves what it guarantees, from raw status observations
to whole fleets of controllers acting in any order:

| file | content |
|---|---|
| `Statuses.dfy` | the history fold behind `AppendStatus`, its normal form, and what no poll can take back |
| `Compaction.dfy` | a batch definition of the compacted history, and the proof that the fold computes it |
| `Selection.dfy` | healthy durations and the choice of a version, with its independent characterisation |
| `PollLogs.dfy` | the complete log of a deployment's polls, failed ones included, against the history kept of them |
| `Guarantees.dfy` | what a choice means in terms of complete logs and later polls |
| `Soaking.dfy` | when a baked version also ran without interruption, read off its history |
| `Topology.dfy` | the searches of the wave configuration, and the order they induce |
| `StatusReport.dfy` | `DeploymentStatusesReport` as a Go slice header over a shared array, updated in place |
| `Propagation.dfy` | the lookup, `NextVersion` and the poll of a reconcile over such reports, aliasing included |
| `Reconciliation.dfy` | a reconcile cut into the steps between which others may act, and its gate and publish laws |
| `Reconciles.dfy` | whole reconciles and any number of them: exactly when one propagates, and what all of them keep |
| `Reconciler.dfy` | `Reconcile` as a method that updates its state in place, equal to the run of those steps |
| `Fleet.dfy`, `FleetSafety.dfy` | a fleet under any interleaving of steps, failures, crashes and rollouts, and its safety |
| `FleetReleases.dfy` | how a release gets to the front of the waves |
| `FleetSchedule.dfy` | reconciles that nothing interrupts, as events of the fleet |
| `FleetSteps.dfy`, `FleetProgress.dfy`, `FleetRounds.dfy` | what single steps keep of a rollout, its stages, and progress over fair rounds of interleaved reconciles |
| `Artifacts.dfy`, `CachedClient.dfy` | registry tags, artifacts, the caching client and the clientset, in place |
| `ClientSimulation.dfy`, `ClientSavings.dfy` | the caching client against a client without caches; what caching saves |
| `ClientFleet.dfy` | one caching client for each controller on one registry, against a fleet without caches |
| `FleetRegistry.dfy` | the fleet's registry as what the tags of the OCI registry stand for |
| `CachingFleet.dfy` | the fleet as it is deployed, every access through a caching client, as a run of the fleet |

Time is an unbounded integer and every function that reads the clock takes it as an argument. Names,
versions and tags are strings. Every backend call and every status update may fail. Where the source
works in place, the model does too: a method is proved equal to a function of the old state, and the
laws are proved about that function.

Assumptions are named predicates: `WellFormed` (waves are not empty, every deployment name occurs once),
`PositiveBakes`, `Proper` (a version is neither empty nor the default tag `latest`), `Canonical` and
`World` (what the caching client may rely on: a digest determines content, released manifests never
change, nobody else writes what this client publishes), and `Honest`: a push that reports failure left
its tag unchanged. Without the last one the caching client need not agree with a direct one;
`AgreesExactlyWhenHarmless` says when it does. In the fleet that uses the registry directly a push that
was taken and reports failure is a publish whose status update fails, or a deploy.

## Where the code differs from what one might expect

- The bake period of a version ends at the *last* later entry that is not Healthy, so a later fault of
  another version can still shorten or lengthen it (`LaterFaultMovesTheEnd`).
- The documentation of `DeployAfter` asks for continuous healthy states over the bake time
  (`api/v1alpha1/propagation_types.go:74-75`). The code asks for a first Healthy observation that long
  ago and no faults: a version that was replaced after a moment still counts as baked later
  (`BakedNeedNotHaveSoaked`). `SoakedExactly` says how the report tells the two apart.
- An Unhealthy observation is lost when the fetch of another deployment fails in the same poll, unless
  the history ends in a Pending entry of that version (`UnhealthyCanBeLost`,
  `FailedPollRecordsExactly`, `FailedPollVetoesExactly`).
- A bake time of zero, or no time at all, accepts the newest version whatever its state
  (`ZeroBakeTakesTheNewest`).
- A failed poll persists the old reports, but after Pending tails in them were overwritten through
  arrays that the new reports share (`Poll`, `SettledIsPermanent`).
- A reconcile whose calls all succeed need not leave the registry showing the running version: when a
  status was published, its update of the API server failed, and the deployment rolled back, nothing
  is published again (`RollbackAfterFailedUpdateIsNotPublished`). `RegistryAgreesExactly` says when it
  does.
- The clientset keeps the caches of a client when it replaces its backend, so a publish to the new
  backend can be suppressed (`ReplacedBackendIsNotWritten`, `PublishTakesEffectExactly`).
- When a push reports failure although the registry took it, publishing the earlier content again is
  suppressed and the tag keeps the later one (`LostAcknowledgementIsNotRepaired`).
- The schema of the status lists the state `Degraded` (`api/v1alpha1/propagation_types.go:192`) while
  the constant is `Unhealthy`; the model has the constants and a case for any other string.

## Model

| member | source | states |
|---|---|---|
| Statuses.AppendEndsWithObserved | api/v1alpha1/propagation_types.go:160-186 | right after an append, the last entry has the version and state just observed |
| Statuses.NormalForm | api/v1alpha1/propagation_types.go:160-177 | every history built from empty has no neighbours of equal version and state, no Pending entry followed by its own version, Starts sorted under a monotone clock, and ends with what was observed last |
| Statuses.SameVersionNeighbours | api/v1alpha1/propagation_types.go:160-177 | neighbouring entries of one version differ in state, and the earlier one is not Pending |
| Statuses.PollRateIndependence | api/v1alpha1/propagation_types.go:160-177 | the history of a log is that of the log without immediate repeats, so polling more often changes nothing |
| Statuses.DestutteredHasNoRepeats | api/v1alpha1/propagation_types.go:160-177 | a log without immediate repeats has none, and ends as the log does |
| Statuses.RepeatLeavesNoTrace | api/v1alpha1/propagation_types.go:160-177 | one repeated observation more or less, anywhere in a log, makes no difference to the history |
| Statuses.BlipRestoresHistory | api/v1alpha1/propagation_types.go:160-177 | from a history ending Healthy, Pendings of the same version and Healthy again restore exactly that history: the bake clock is not reset |
| Statuses.SettledIsPermanent | api/v1alpha1/propagation_types.go:160-177 | all of a history but a Pending last entry is a prefix of every later history, over any appends and any rewrites of the Pending tail that a failed poll leaves |
| Statuses.SortedIsPermanent | api/v1alpha1/propagation_types.go:160-177 | Starts stay sorted over any such appends and rewrites under a clock that does not run backwards |
| Compaction.HistoryIsCompaction | api/v1alpha1/propagation_types.go:160-177 | folding appends over any log equals a direct batch definition per run of one version: one entry per stretch, Healthy ones dated by their first Healthy observation, others by where the stretch before ended, and one entry for trailing Pendings |
| Compaction.CompactThen | api/v1alpha1/propagation_types.go:160-177 | the batch definition of a log with one more observation is one append to the batch definition of the log |
| Compaction.ConclusiveIsRecorded | api/v1alpha1/propagation_types.go:160-177 | no observation other than Pending is ever lost from the history |
| Compaction.HealthyIsObserved | api/v1alpha1/propagation_types.go:160-177 | every Healthy entry is an observation of the log with that observation's own time |
| Compaction.VersionIsObserved | api/v1alpha1/propagation_types.go:160-177 | no history mentions a version that was never observed |
| Selection.DurationEndsAtLastFault | api/v1alpha1/propagation_types.go:139-158 | the duration of a version of which every entry is Healthy ends at the Start of the last later entry that is not, whatever comes after it |
| Selection.DurationRunsToNow | api/v1alpha1/propagation_types.go:139-158 | when every entry from its first on is Healthy the duration runs from that entry to now |
| Selection.NoDuration | api/v1alpha1/propagation_types.go:139-158 | a version that does not occur, or has an entry in any other state, has no duration |
| Selection.DurationBounds | api/v1alpha1/propagation_types.go:139-158 | on sorted histories the duration lies between 0 and now minus the first Start of the version |
| Selection.DurationMonotone | api/v1alpha1/propagation_types.go:139-158 | for a fixed history the duration never shrinks as time passes |
| Selection.LaterFaultMovesTheEnd | api/v1alpha1/propagation_types.go:146-153 | a later entry of another version that is not Healthy becomes the end point, even though an earlier one was there already |
| Selection.PositiveDuration | api/v1alpha1/propagation_types.go:139-158 | a positive duration means that the version occurs and none of its entries is anything but Healthy |
| Selection.ChoiceIsNewestQualifying | api/v1alpha1/propagation_types.go:212-236 | a chosen version meets the bake time in every listed report and nothing later in the first listed report does; no choice means no version there does |
| Selection.NothingPrecedesTheFront | api/v1alpha1/propagation_types.go:209-211 | with no deployments to come after, the answer is `latest`, whatever has been reported |
| Selection.NextVersionIsNewestBaked | api/v1alpha1/propagation_types.go:212-236 | otherwise the answer is a version of the first listed report whose duration in every listed report is at least the bake time while every version later in that report falls short somewhere, or the empty string when all of its versions fall short |
| Selection.ChoiceExists | api/v1alpha1/propagation_types.go:212-236 | with a positive bake time a choice exists if and only if any version at all qualifies in all listed reports |
| Selection.OrderOfDeploymentsIsIrrelevant | api/v1alpha1/propagation_types.go:212-236 | permuting the listed deployments never changes whether there is an answer |
| PollLogs.DurationIsBackedByLog | api/v1alpha1/propagation_types.go:139-177 | a bake time met in the history was met in the complete log of polls: Healthy at least that long ago in a recorded one, and nothing but Healthy or Pending in any recorded one, so in any that succeeded |
| PollLogs.HealthyWasRecorded | api/v1alpha1/propagation_types.go:160-177 | every Healthy entry is the observation of a recorded poll, with its time |
| PollLogs.RecordedIsKept | api/v1alpha1/propagation_types.go:160-177 | no recorded observation other than Pending is ever lost, whatever fails later |
| PollLogs.FailedPollRecordsExactly | internal/controller/propagation_controller.go:145-168 | when another fetch failed an observation ends up in the history if and only if a Pending last entry of its version takes it in or the history ended like it before; otherwise nothing changes |
| PollLogs.FailedPollVetoesExactly | internal/controller/propagation_controller.go:145-168 | such a poll vetoes an unhealthy version for good if and only if it records it or it was vetoed before |
| PollLogs.UnhealthyCanBeLost | internal/controller/propagation_controller.go:145-168 | a version seen Unhealthy in a poll in which another fetch failed is still chosen |
| Guarantees.ChoiceIsBakedInEveryLog | api/v1alpha1/propagation_types.go:139-237 | a chosen version was, in the complete log of every listed deployment's polls, seen Healthy at least the bake time ago in a recorded poll and never seen Unhealthy in one |
| Soaking.SoakedExactly | api/v1alpha1/propagation_types.go:71-79 | in an all-Healthy log a version was observed over a stretch of the bake time with no other version in between if and only if one of its entries lasted that long, up to the next entry or now |
| Soaking.EntryStandsForStretch | api/v1alpha1/propagation_types.go:160-177 | an entry of an all-Healthy history stands for a maximal stretch of observations of its version |
| Soaking.BakedNeedNotHaveSoaked | api/v1alpha1/propagation_types.go:139-158 | a version that was replaced after one time unit is chosen for a bake time of 50 |
| Guarantees.MoveLeavesOneEntry | api/v1alpha1/propagation_types.go:160-177 | a move to a new version, by any Pendings and then Healthy observations, leaves the old history and one entry dated by the first Healthy one |
| Guarantees.SettlingTime | api/v1alpha1/propagation_types.go:139-237 | when all listed deployments move to a new version it is chosen from the largest first Healthy observation plus the bake time on, and not before |
| Guarantees.NewestQualifyingIsChosen | api/v1alpha1/propagation_types.go:212-236 | the last version of the first listed history is chosen if and only if it qualifies |
| Guarantees.NoRegression | api/v1alpha1/propagation_types.go:139-237 | over any further Healthy observations and ticks an answer stays an answer, and its last position in the first listed history never decreases |
| Guarantees.VetoIsPermanent | api/v1alpha1/propagation_types.go:139-177 | once the settled history holds anything but Healthy about a version its healthy duration is 0 forever, whatever is polled and whichever fetches fail |
| Guarantees.VetoedIsNeverChosen | api/v1alpha1/propagation_types.go:208-237 | such a version is never chosen again while its deployment is listed with a positive bake time |
| Guarantees.ZeroBakeTakesTheNewest | api/v1alpha1/propagation_types.go:230-234 | without a positive bake time the newest entry is chosen whatever its state and whatever the others report |
| Topology.SearchesAgree | internal/controller/propagation_controller.go:273-309 | the searches for DeployAfter and DeployWith fail together, and where they succeed all three searches find the same wave, whose bake time is the deployment's |
| Topology.AfterGoesBackOneWave | internal/controller/propagation_controller.go:273-289 | everyone in DeployAfter is one wave earlier in the flattened order, and the bake time required is that deployment's own |
| Topology.WithIsLaterWaves | internal/controller/propagation_controller.go:293-309 | DeployWith holds exactly the members of later waves of the environment, for its first wave, and nobody otherwise |
| Topology.AllDeploymentsInOrder | internal/controller/propagation_controller.go:299-301 | the deployments of several waves come in the order of the configuration |
| Topology.AfterAndWithAreDisjoint | internal/controller/propagation_controller.go:311-324 | nobody is both in DeployAfter and in DeployWith, and nobody waits for itself |
| Topology.ChainWalksBack | internal/controller/propagation_controller.go:273-289 | n steps of DeployAfter lead exactly n waves back in the flattened order, and to nobody beyond its start: chains end |
| Topology.WithIsAfterReversed | internal/controller/propagation_controller.go:273-309 | b is in DeployWith of a if and only if a is in its environment's first wave, b is in a later wave of it, and wave-index many DeployAfter steps lead from b to a's wave |
| Topology.RequiredOnce | internal/controller/propagation_controller.go:136 | no deployment is polled twice in one reconcile |
| Topology.DeployAfterFromConfig | internal/controller/propagation_controller.go:273-289 | the nested search with its remembered last wave finds the wave before the one that lists the deployment, or fails when none lists it |
| Topology.DeployWithFromConfig | internal/controller/propagation_controller.go:293-309 | the nested search collects the later waves of the environment for a first-wave deployment, nobody for any other, and fails when no wave lists it |
| Topology.DeployConditionsFromConfig | internal/controller/propagation_controller.go:311-324 | both conditions, or the failure both searches share |
| Topology.BakeTimeOf | pkg/repo/config/config.go:20-29 | the bake time lookup returns the bake time of the first wave of the flattened order that lists the deployment, or 0 |
| StatusReport.DeploymentStatusesReport.LastStatus | api/v1alpha1/propagation_types.go:179-186 | nil exactly for an empty report, else the position of its last entry |
| StatusReport.DeploymentStatusesReport.Grow | api/v1alpha1/propagation_types.go:163-170 | Go's append: one more entry, in place or in a larger copy, with the old slice unchanged |
| StatusReport.DeploymentStatusesReport.RewriteOrGrow | api/v1alpha1/propagation_types.go:161-171 | the opening step rewrites a Pending tail of the version in place or adds an entry, and the old header sees only the rewrite |
| StatusReport.DeploymentStatusesReport.TruncateRepeat | api/v1alpha1/propagation_types.go:172-176 | the closing step drops the new tail exactly when the entry before it says the same |
| StatusReport.DeploymentStatusesReport.AppendStatus | api/v1alpha1/propagation_types.go:160-177 | in place, the report becomes the folded history, and whoever holds the old slice header sees exactly a rewritten Pending tail |
| StatusReport.DeploymentStatusesReport.VersionHealthyDuration | api/v1alpha1/propagation_types.go:139-158 | the nested loops with their early return compute the closed form of the duration |
| Propagation.FindDeploymentStatusReport | api/v1alpha1/propagation_types.go:124-131 | the first report of that name, or none |
| Propagation.NextVersionFor | api/v1alpha1/propagation_types.go:208-237 | the loops and the labelled continue compute the first qualifying version of the newest-first candidates, the default tag when nothing precedes, or nothing |
| Propagation.FirstBaked | api/v1alpha1/propagation_types.go:224-236 | the labelled loop returns the first candidate that every listed report has baked, or nothing |
| Propagation.Poll | internal/controller/propagation_controller.go:136-157 | the new reports are the old histories with the fetched observations appended, the old ones are left with their Pending tails rewritten, and the poll fails exactly when some fetch did |
| Propagation.FetchedExactly | internal/controller/propagation_controller.go:148-154 | a required deployment is fetched if and only if it is in reach and has published, with the published version and state and the time of the fetch; the poll succeeds if and only if that holds of all |
| Propagation.OnlyFirstIsAliased | internal/controller/propagation_controller.go:139-145 | a poll touches an old report only when it is the first about a deployment that was fetched |
| Reconciliation.PollGivesOneReportEach | internal/controller/propagation_controller.go:135-179 | a poll that gets to the gate leaves exactly one non-empty report per required deployment, its old history with the observation appended, so the gate never dereferences a missing last status |
| Reconciles.PropagatesExactly | internal/controller/propagation_controller.go:63-219 | a reconcile propagates a version if and only if it gets to poll, every fetch succeeds, the registry shows every DeployWith deployment at the running version, Healthy and baked for its own wave with this observation included, and the version is the choice over the polled histories and has a manifest in reach; what is deployed changes only then, and to that manifest |
| Reconciles.ConditionsArePersisted | internal/controller/propagation_controller.go:77-89 | a reconcile that gets the configuration, finds its deployment there and persists the derived conditions leaves them stored whatever fails later; any other leaves everything as it was |
| Reconciles.LastConditionsAreStored | internal/controller/propagation_controller.go:77-89 | over any reconciles the stored conditions are those of the last one that got that far |
| Reconciles.NothingStoredBefore | internal/controller/propagation_controller.go:77-89 | until one did, nothing is stored at all |
| Reconciles.EndsBeforeDeciding | internal/controller/propagation_controller.go:66-168 | a reconcile that does not get to decide fails, without an error exactly when the update of the status it just published fails |
| Reconciles.EndsDecided | internal/controller/propagation_controller.go:186-218 | one that does waits for the first DeployWith deployment that is not open, or has no candidate, or propagates its choice, or fails to pull or publish it |
| Reconciles.EndPollIsPoll | internal/controller/propagation_controller.go:136-179 | the end of a poll, persisted or not, leaves each polled history as one poll outcome leaves it: appended to, rewritten at a Pending tail, or as it was |
| Reconciles.HistoryIsFoldOfPolls | internal/controller/propagation_controller.go:63-219 | after any reconciles, whatever failed in them, the history kept of a polled deployment is the fold of the outcomes of its polls |
| Reconciles.SettledSurvivesReconciles | internal/controller/propagation_controller.go:135-179 | so its settled part is a prefix of what any further reconciles leave |
| Reconciles.SortedSurvivesReconciles | internal/controller/propagation_controller.go:135-179 | and its Starts stay sorted while the clock does not run backwards |
| Reconciles.VetoedIsNeverPropagated | internal/controller/propagation_controller.go:135-211 | after a veto in the settled part no reconcile ever propagates the version, whichever calls fail in between, while the configuration lists that deployment with a positive bake time |
| Reconciles.WhatIsPropagatedIsBaked | internal/controller/propagation_controller.go:135-211 | end to end: what a controller that started from nothing propagates was, in the complete log of its polls of every DeployAfter deployment, seen Healthy at least the bake time ago and never seen Unhealthy by a recorded poll |
| Reconciles.NoRegressionOverReconciles | internal/controller/propagation_controller.go:111-211 | while the registry holds only Healthy statuses an answer stays an answer through any further reconciles, whichever fail, and never moves back in the first listed history |
| Reconciliation.PassOnOwnStatus | internal/controller/propagation_controller.go:111-131 | a reconcile persists a new own status only after publishing it in the same reconcile, and publishes nothing else |
| Reconciliation.PublishedStatusIs | internal/controller/propagation_controller.go:115-118 | what is published is the running version, Healthy, without a time |
| Reconciliation.PublishBeforePersist | internal/controller/propagation_controller.go:111-131 | over any sequence of reconciles with any failures every persisted own status was published before, and the registry shows the last one published |
| Reconciliation.RegistryAgreesExactly | internal/controller/propagation_controller.go:113-131 | after a reconcile whose calls succeed the stored status is the running version, and so is the registry's if and only if the stored one called for publishing or the registry showed it already |
| Reconciliation.SyncIsKept | internal/controller/propagation_controller.go:111-131 | stored and published status stay equal unless a status update fails |
| Reconciliation.RollbackAfterFailedUpdateIsNotPublished | internal/controller/propagation_controller.go:113-131 | a failed update followed by a rollback leaves the registry at a version that no longer runs although the next reconcile succeeds |
| Reconciler.PropagationReconciler.WaitFor | internal/controller/propagation_controller.go:186-199 | the gate's loop returns the first DeployWith deployment that does not hold the gate open |
| Reconciler.PropagationReconciler.IsOpen | internal/controller/propagation_controller.go:188-192 | one deployment's condition, with the last status always there to be read |
| Reconciler.PropagationReconciler.Reconcile | internal/controller/propagation_controller.go:63-219 | in place, a reconcile leaves the stored status, the registry and the outcome that the run of its separate steps leaves, on every failure path |
| Fleet.JustificationLasts | internal/controller/propagation_controller.go:111-211 | what justifies running a version keeps justifying it as time passes and more is published and recorded |
| FleetSafety.StepKeeps | internal/controller/propagation_controller.go:63-219 | every step of every controller, crash, tick, release and rollout keeps the fleet's invariant |
| FleetSafety.RunKeeps | internal/controller/propagation_controller.go:63-219 | the invariant holds in every state reachable from an installed fleet |
| FleetSafety.OnlyBakedVersionsRun | internal/controller/propagation_controller.go:111-211 | in any interleaving a version other than the initial one runs behind a wave only if each deployment of that wave published it and the controller recorded that at least its bake time ago |
| FleetSafety.PublishedInEveryEarlierWave | internal/controller/propagation_controller.go:111-211 | that carries back wave by wave: every member of every earlier wave published a new version before, by at least the bake times in between |
| FleetSafety.NewVersionsClimbTheLadder | internal/controller/propagation_controller.go:111-211 | the same for every state of every run: a version that nothing started with runs anywhere only after every deployment of every earlier wave published it, the sum of the bake times in between ago or more |
| FleetSafety.FirstWavesWaitForTheRest | internal/controller/propagation_controller.go:186-211 | in any interleaving a controller about to propagate has recorded the version it loaded at every DeployWith deployment, at least the bake time of that deployment's own wave before, after that deployment published it |
| FleetSchedule.FullReconcileIsPass | internal/controller/propagation_controller.go:63-219 | the step semantics without interruption is the reconcile as a whole |
| FleetSteps.RipeChoice | api/v1alpha1/propagation_types.go:208-237 | a version that ends every listed history and was first seen in each the bake time ago is the one chosen |
| FleetSteps.EndPollSees | internal/controller/propagation_controller.go:135-179 | a poll that ends well has seen what the polled deployments showed, and no poll forgets since when |
| FleetSteps.ShowsStays | internal/controller/propagation_controller.go:111-131 | a deployment that shows the version it runs goes on showing it through every step of every controller, its own reconcile under way included |
| FleetSteps.SeenStays | internal/controller/propagation_controller.go:135-179 | a controller that saw the version and has fetched nothing else goes on having seen it through every step |
| FleetSteps.DeploysStays | internal/controller/propagation_controller.go:201-213 | a deployment behind the first wave that was told to run the version, and has seen it baked, is told nothing else by any step |
| FleetSteps.RipeDecides | internal/controller/propagation_controller.go:186-211 | a deployment behind the first wave that has seen the version everywhere for the bake time chooses it whenever it decides |
| FleetProgress.StaysOnTrack | internal/controller/propagation_controller.go:63-219 | a reconcile that started in a stage stays on track through its own steps without failed calls and through any steps of others |
| FleetProgress.UnderwayStays | internal/controller/propagation_controller.go:63-219 | no step of any controller undoes a stage of the rollout |
| FleetRounds.StageRuns | internal/controller/propagation_controller.go:63-219 | over any interleaving of steps, failed ones included, a stage stays reached, and every deployment that got one reconcile through without a failed call has done what the stage asks for |
| FleetRounds.LaterWavesFollow | internal/controller/propagation_controller.go:186-211 | while the first wave stays on a version, the wave at distance n runs it after any 5 n or more rounds of interleaved single steps, in each of which every deployment gets one reconcile through without a failed call |
| FleetRounds.FirstWaveIsReleased | internal/controller/propagation_controller.go:186-211 | from three rounds after the last wave needs on, through any further steps, every first-wave reconcile that decides finds its gate open and goes for the version it chooses, if there is one, and for `latest` in the very first wave |
| FleetRounds.UsualRoundIsFair | internal/controller/propagation_controller.go:181-218 | waiting for the longest bake time, restarting and reconciling everybody and rolling out everybody behind the first wave is a fair round in every state whose first wave runs the version, reconciles under way included |
| FleetRounds.FairRoundsExist | internal/controller/propagation_controller.go:181-218 | so from every such state any number of fair rounds is possible, and the two results above are not empty |
| FleetRounds.EveryWaveCanFollow | internal/controller/propagation_controller.go:186-211 | from every ready fleet some run of single steps brings the version to any deployment behind the first wave |
| FleetRounds.RoundsAreRuns | internal/controller/propagation_controller.go:63-219 | rounds are runs of the fleet, so all safety results hold of them |
| FleetRounds.InstalledIsReady | internal/controller/propagation_controller.go:63-219 | a freshly installed fleet is ready for any version that the first wave of its first environment runs |
| FleetReleases.FrontDecides | internal/controller/propagation_controller.go:186-211 | a deployment of the very first wave whose gate is open goes for `latest`, whatever it has recorded |
| FleetReleases.LatestStands | internal/controller/propagation_controller.go:211 | what was released last stays under `latest` through any steps until the next release to that deployment |
| FleetReleases.ReleaseReachesTheFront | internal/controller/propagation_controller.go:211 | when the front pulls `latest` after a release and before the next one, its deploy makes it run that release once it is applied, whatever others do in between |
| Artifacts.TagsTellArtifactsApart | pkg/clients/propagation_backend_client_oci.go:95-114 | two artifacts have one tag if and only if type and deployment agree and, for manifests only, the version |
| CachedClient.StatusTag | pkg/clients/propagation_backend_client_oci.go:99-113 | statuses are under `statuses/<deployment>:latest` |
| CachedClient.ManifestTag | pkg/clients/propagation_backend_client_oci.go:102-113 | manifests are under `manifests/<deployment>:<version>` |
| CachedClient.DeployTag | pkg/clients/propagation_backend_client_oci.go:104-113 | what a deployment is to run is under `deploy/<deployment>:latest` |
| CachedClient.ConfigTag | pkg/clients/propagation_backend_client_oci.go:107-113 | the configuration is under `config:latest` |
| CachedClient.OciArtifact.Bytes | pkg/clients/propagation_backend_client_oci.go:69-80 | the image's content, kept for the next call |
| CachedClient.OciBackendClient.Digest | pkg/clients/propagation_backend_client_oci.go:117-119 | the digest under the tag, if it is in reach |
| CachedClient.OciBackendClient.Fetch | pkg/clients/propagation_backend_client_oci.go:122-128 | a new artifact of the image under the tag, if it is in reach |
| CachedClient.OciBackendClient.Publish | pkg/clients/propagation_backend_client_oci.go:131-136 | the tag holds the artifact's image when the registry took the push, which the answer need not tell; otherwise nothing changed |
| CachedClient.CachedPropagationBackendClient.Fetch | pkg/clients/propagation_backend_client_oci.go:287-305 | released manifests come from the cache, others when their digest is still current, everything else from the backend, which is then cached; and which requests that takes |
| CachedClient.CachedPropagationBackendClient.Publish | pkg/clients/propagation_backend_client_oci.go:308-328 | content equal to what was published last is not published again; otherwise it is, and remembered if that succeeds |
| CachedClient.PropagationClient.PublishStatus | pkg/clients/propagation_backend_client_oci.go:340-350 | publishes under the deployment's status tag, through the cache |
| CachedClient.PropagationClient.GetStatus | pkg/clients/propagation_backend_client_oci.go:352-367 | the content under the deployment's status tag, through the cache |
| CachedClient.PropagationClient.PublishConfig | pkg/clients/propagation_backend_client_oci.go:386-391 | publishes the configuration, through the cache |
| CachedClient.PropagationClient.GetConfig | pkg/clients/propagation_backend_client_oci.go:393-400 | the content of the configuration, through the cache |
| CachedClient.PropagationClient.Propagate | pkg/clients/propagation_backend_client_oci.go:369-384 | fetches the manifest of the version and publishes it as what the deployment is to run, both through the caches |
| CachedClient.PropagationClientset.Propagation | pkg/clients/propagation_backend_client_oci.go:240-268 | the known client with its caches and the new backend, or a fresh one; nothing changes when the backend cannot be set up |
| ClientSimulation.OperationsTouch | pkg/clients/propagation_backend_client_oci.go:348-400 | each operation reads and writes its own tag |
| ClientSimulation.FetchAgrees | pkg/clients/propagation_backend_client_oci.go:287-305 | a cached fetch answers what a fetch from the registry would, and keeps the caches coherent |
| ClientSimulation.PublishAgrees | pkg/clients/propagation_backend_client_oci.go:308-328 | a cached publish leaves the content that publishing would if and only if what it suppresses, if it does, is under the tag |
| ClientSimulation.PropagateAgrees | pkg/clients/propagation_backend_client_oci.go:369-384 | the same of propagating, fetch and publish together, which is harmless while pushes report what they did |
| ClientSimulation.CachedRunIsDirectRun | pkg/clients/propagation_backend_client_oci.go:286-400 | any run of operations, with calls failing and others writing in between, gives the answers and leaves the contents of a run without caches in which no more calls fail |
| ClientSimulation.AgreesExactlyWhenHarmless | pkg/clients/propagation_backend_client_oci.go:286-400 | when a push may also report failure although the registry took it, the two runs agree after every call if and only if no publish suppresses content that is not under its tag, and then all answers agree |
| ClientSimulation.CachesAreInvisible | pkg/clients/propagation_backend_client_oci.go:286-400 | from empty caches and with the backend in reach the two runs of the same operations agree on every answer and on the content under every tag |
| ClientSavings.RepeatedPropagateIsSilent | pkg/clients/propagation_backend_client_oci.go:369-384 | after a successful propagate, propagating that version again succeeds without any request until another version is propagated there |
| ClientSavings.ReleasedManifestIsFree | pkg/clients/propagation_backend_client_oci.go:288-292 | a released manifest that was fetched once is answered without any request |
| ClientSavings.CurrentIsNotPulled | pkg/clients/propagation_backend_client_oci.go:293-297 | anything else whose digest is still current is answered from the cache for one digest request, whether it could be pulled or not |
| ClientSavings.OthersArePulled | pkg/clients/propagation_backend_client_oci.go:299-304 | what is stale, or was never fetched, is pulled and remembered, the digest being asked for only in the first case; a failed pull changes nothing |
| ClientSavings.RepeatedReadIsOneDigest | pkg/clients/propagation_backend_client_oci.go:352-400 | once a status or the configuration was read, reading it again costs one digest request and succeeds, whichever pulls fail, through any operations until somebody writes it |
| ClientSavings.PublishPushesOnce | pkg/clients/propagation_backend_client_oci.go:308-328 | content published last makes no request; anything else makes one push, is under the tag when that was taken, and is remembered when that was reported |
| ClientSavings.PropagateCosts | pkg/clients/propagation_backend_client_oci.go:369-384 | a first propagate pulls the manifest and pushes it, or only pulls when there is none; one of a fetched release only pushes |
| ClientSavings.PropagateTouchesTwoTags | pkg/clients/propagation_backend_client_oci.go:369-384 | propagating asks only for the manifest of that version and writes only what that deployment is to run |
| ClientSavings.PropagatedIsToRun | pkg/clients/propagation_backend_client_oci.go:369-384 | when it succeeds, what the deployment is to run is the content of that manifest |
| ClientFleet.CachingFleetIsDirectFleet | pkg/clients/propagation_backend_client_oci.go:286-400 | however the calls of all controllers' caching clients interleave, the two halves of a propagate included, fail, and lose their caches in restarts, every client gets the answers and the registry the contents of a fleet without caches in which no more calls fail; that nobody else writes what a client publishes is proved, not assumed |
| ClientFleet.CachingFleetIsInvisible | pkg/clients/propagation_backend_client_oci.go:286-400 | from empty caches and with the registry in reach the two fleets agree on every answer and on the content under every tag |
| FleetRegistry.PublishingIsPublishOwn | internal/controller/propagation_controller.go:120-123 | publishing a status under its tag is the publishing step of the fleet's registry |
| FleetRegistry.GettingIsFetch | internal/controller/propagation_controller.go:148-152 | getting a status is the fetch of a poll |
| FleetRegistry.PullingIsPull | pkg/clients/propagation_backend_client_oci.go:369-375 | fetching the manifest is the pull of the fleet's registry |
| FleetRegistry.DeployingIsDeploy | pkg/clients/propagation_backend_client_oci.go:377-383 | publishing it as what the deployment is to run is the deploy, whatever happened in between |
| FleetRegistry.ReleasingIsRelease | pkg/clients/propagation_backend_client_oci.go:95-114 | a manifest pushed under its version and under the default tag is the fleet's release |
| CachingFleet.StepMirrors | internal/controller/propagation_controller.go:63-219 | every step of the fleet of caching clients is a step of the fleet that uses the registry directly, in which exactly the accesses fail that fail for the client |
| CachingFleet.CachingRunIsDirectRun | internal/controller/propagation_controller.go:63-219 | so is every run, with pull and deploy interleaving, suppressed publishes, cached answers while the registry is out of reach, and caches lost in crashes; controllers, evidence, clock and what runs are the same and the registry's tags stand for the direct one |
| CachingFleet.OnlyBakedVersionsRunBehindCaches | internal/controller/propagation_controller.go:111-211 | the safety of the fleet holds of the fleet as it is deployed |
| CachingFleet.InstalledMirrors | internal/controller/propagation_controller.go:63-219 | a fresh fleet of caching clients mirrors an installed fleet whose registry its tags stand for |
| CachingFleet.CrashLosesCaches | pkg/clients/propagation_backend_client_oci.go:278-284 | after a crash a controller has to pull what it asks for |
| ClientSavings.PublishedIsFetched | pkg/clients/propagation_backend_client_oci.go:340-367 | what a client published is what it fetches back |
| ClientSavings.PublishTakesEffectExactly | pkg/clients/propagation_backend_client_oci.go:308-328 | a publish that reports success leaves its content under the tag if and only if it was not suppressed or the content was there |
| ClientSavings.ReplacedBackendIsNotWritten | pkg/clients/propagation_backend_client_oci.go:259-262 | after its backend is replaced a client reports success for a publish that never reaches the new backend |
| ClientSavings.LostAcknowledgementIsNotRepaired | pkg/clients/propagation_backend_client_oci.go:308-328 | after a push that was taken without acknowledgement, publishing the content before it again is suppressed and does not restore it |

## Left out

- Reconcile: assumes that one reconcile requires no deployment twice (`RequiredOnce` proves it for well-formed configurations), because with a repeated name two goroutines race on one array.
- PropagatesExactly: the same assumption, and for the same reason.
- Poll: fetches one after the other; each goroutine of the source writes only its own report, and in the fleet model the fetches of a poll happen at any times and in any order.
- OnlyBakedVersionsRun: assumes that versions are neither empty nor `latest`, that bake times are positive and that the configuration does not change.
- VetoedIsNeverPropagated: like the other results over many reconciles of one controller, takes each reconcile as a whole and anything at all happening to the registry in between, under one configuration.
- LaterWavesFollow: does not allow for a status update that fails after its publish went through when it is to replace a stored status of the version; `RollbackAfterFailedUpdateIsNotPublished` shows why. All other calls may fail.
- FirstWaveIsReleased: the same; what the first wave then chooses is not followed further.
- CachedRunIsDirectRun: assumes honest pushes, which `AgreesExactlyWhenHarmless` does without, and compares contents, not digests: a suppressed publish may leave an image of another digest with the same content.
- Propagation: the clientset's secret lookup and URL parsing are one optional backend argument.
- TagsTellArtifactsApart: deployment names with the path elements `.`, `..` or empty ones, which Go's `path.Join` cleans, are not modelled; an empty deployment name is.
- SoakedExactly: for all-Healthy logs, which is all that controllers publish; a history does not record the Pending observations between two Healthy ones.
- CachingRunIsDirectRun: assumes honest pushes, one client for each deployment and plain names; the configuration is read as a flag of the load, not through the client.
- Kubernetes API access, conditions and their messages, requeue times, watches and leader election.
- The lookup of the running version by field path: reading it gives a version or fails.
- JSON encoding, image layers and exporting: an image is a digest and a content, exporting it does not fail, and an operation publishes an image it is given.
- Duration overflow, the truncation of stored times to seconds, and clock readings that differ within one decision.
- Concurrent use of one caching client; the source takes no locks around its maps.
- The promotion controller, the command line tools, health objects and the release cadence, which the source does not implement.
