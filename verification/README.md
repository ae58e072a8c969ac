# odh-observability, modelled and proved in Dafny

A model of the operator that reconciles the cluster-wide `Monitoring` resource, and proofs about it.
The centre is one reconcile round and what every sequence of rounds keeps. A round resolves storage
Secrets to canonical locations and decides whether two log pipelines would share one. It withholds what
it cannot vouch for, renders the rest, applies it, and sweeps whatever it owns that is neither desired nor
shielded. Then it publishes the endpoints that decide what the next round renders. Around that stand the
smaller cores: exporter validation, the installed-CSV resolver, the watches, the webhook's TLS recovery
and the proxy curve filter.

## How it is laid out

- `Text.dfy`: trimming, splitting, joining, lower-casing
- `StorageLocation.dfy`: canonical location keys and a structured reference for them
- `Isolation.dfy`, `StorageIsolation.dfy`: the isolation check over any claims, then over Secrets
- `Conditions.dfy`: conditions, their aggregation, the `ConditionsManager` object
- `Cluster.dfy`: live resources, applying, and the three-phase sweep
- `Monitoring.dfy`: spec, observations, deploy actions, the gate, plans
- `Round.dfy`: one round as a function of state and observations
- `Controller.dfy`: the reconciler and the cluster as objects, each method proved against those functions
- `PlanProperties.dfy`, `RoundProperties.dfy`: what holds of every plan and at the end of every round
- `Runs.dfy`, `Convergence.dfy`: what holds over every run, and the fixed point
- `Exits.dfy`, `Verdicts.dfy`: what each way out of a round, and each verdict of the gate, leaves behind
- `CoreActions.dfy`, `Pipelines.dfy`: what the actions report and render, on spec and observations
- `Failures.dfy`: which rounds return an error
- `Retries.dfy`: which rounds do not come back by themselves, on their inputs
- `Examples.dfy`: concrete inputs at the edges of the exact conditions
- `Exporters.dfy`, `InstalledCsv.dfy`, `Watches.dfy`, `WebhookTls.dfy`, `ProxyCurves.dfy`: the smaller cores

The source updates status, conditions and cluster in place, so `Controller` and `Conditions` are classes with
loops. Each method's new state is tied to a function of the old one, and the theorems are about those
functions. A map that the source ranges over is walked by picking any remaining key, so a method that meets
its contract gives the same answer in every iteration order.

Everything a round reads from the API server is a field of `Obs`, one per read, each with its absent and
failing answers. Between rounds the live resources and the CA Secret may change in any way; only rounds
write the status. `url.Parse`, template rendering, YAML, number parsing and the TLS library are parameters,
and what is assumed of them is written in the contracts (`WellFormed`, `SchemeBlind`, `RendersScoped`).

## What the proofs found

- A key can name no host. The comment at internal/controller/actions.go:1239 says that no valid endpoint
  has the key of an empty one, but stripping the bucket label can empty the host: endpoint `logs..` with
  bucket `logs` is accepted and gives `///logs`. `HostSurvivesExactly` says when, `EmptiedHostExample` shows it.
- A bucket name with a slash shares its key with another bucket under a path prefix
  (`SlashInBucketMerges`); without slashes keys are faithful.
- A host that already ends in a dot is a different key from the same host with one more dot
  (`RootDotIgnoredExactly`, `SecondRootDotExample`), and the bucket label comes off the host once only
  (`VirtualHostFoldsExactly`, `RepeatedLabelExample`).
- The comment at internal/controller/actions.go:168 says that both conditions are marked when a CRD is
  missing; the code marks only the missing one. The model follows the code. `CoreUnwrittenExactly` says when a
  condition stays unwritten and `UnwrittenSiblingExample` shows it; Ready still cannot be True on the stale
  one (`ReadyMeans`).
- The component shield does not cover the TargetAllocator Role and RoleBinding, whose collection predicate
  reads no component label. `ShieldedDeletedExactly` says which shielded objects go, and
  `AllocatorRoleSweptExample` shows one.
- A completed, error-free round may return with no requeue of its own although a configured usage logs
  collector is not True. There are two causes: its CRD is missing (`MissingCrdExample`), or this very round
  publishes the endpoint the collector waits for (`FirstEndpointExample`). `UnretriedCollectorExactly` gives
  the condition on the inputs, `NoRequeueExactly` the one for any requeue.

## Model

| member | source | states |
|---|---|---|
| Runs.CollectorDeletionHasCause | internal/controller/monitoring_reconciler.go:691-736 | over any run with usage log storage, once the endpoint is published, a sweep in a round that wants the collector deletes a collector resource only if an earlier completed round ended with the stack condition False; Unknown, aborted, unpatched, withheld and Removed rounds, and rounds without CRD or credential in between, never cause it |
| Runs.EndpointStaysPublished | internal/controller/monitoring_reconciler.go:691-736 | by induction over a run: a published endpoint stays published while no completed round ends with the stack False |
| Runs.PublishedEndpointKeepsCollector | internal/controller/monitoring_reconciler.go:981-1024 | in a round that starts with a published endpoint no sweep, complete or failing, deletes a collector resource: it is desired or it is shielded |
| Runs.PlanKeepsCollector | internal/controller/actions.go:662-774 | with an endpoint published, a plan that did not fail renders the collector keys or withholds the pipeline |
| Runs.FalseStackStopsCollector | internal/controller/actions.go:662-690 | the converse cause: a completed, patched round that ends with the stack False clears the endpoint, and the next round renders no collector template even when it is clean |
| Runs.FalseStackSweepsCollector | internal/controller/monitoring_reconciler.go:769-815 | and that next round, once it completes without a refusal and its sweep reports no error, has deleted every listed, labelled, owned, in-scope object that only the collector templates render |
| Runs.UndesiredReachesSweep | internal/controller/monitoring_reconciler.go:361-397 | CA step and deploy leave an undesired live object as it was |
| Runs.StoppedKeeps | internal/controller/monitoring_reconciler.go:252-390 | a round that does not complete keeps the published endpoint and stamps nothing, and unless the spec is Removed it deletes nothing |
| Runs.StepKeepsEndpoint | internal/controller/monitoring_reconciler.go:691-736 | one round, patched or not, keeps an endpoint published unless it completes with the stack False |
| Runs.StepStamps | internal/controller/monitoring_reconciler.go:259-282 | the release after a round is the version read if and only if the round stamps, and the old one otherwise |
| Runs.OnlyCompletedRoundsStamp | internal/controller/monitoring_reconciler.go:411-425 | a stamping round is managed, met its preconditions, built its data and was not refused |
| Runs.ReleaseIsLatestStamp | internal/controller/monitoring_reconciler.go:411-425 | over any run the platform release equals the version read in the latest stamping round |
| Convergence.ThirdRoundChangesNothing | internal/controller/monitoring_reconciler.go:252-450 | convergence: with spec and observations fixed, from any status and any live set, patched or not, the third round changes neither status nor any live resource |
| Convergence.SettledRoundRepeats | internal/controller/monitoring_reconciler.go:252-450 | once a round leaves the endpoint as it found it, the whole state is a fixed point of the round |
| Convergence.EndpointSettles | internal/controller/monitoring_reconciler.go:691-736 | the endpoint is settled after one completed round, whatever the first round started from |
| Convergence.BodyRepeats | internal/controller/monitoring_reconciler.go:252-450 | a round repeated from the cluster it left has the same cluster effect, error and stamping, on every exit path |
| Convergence.CommitRepeats | internal/controller/monitoring_reconciler.go:358-395 | CA step, apply and sweep repeated from their own result change nothing, wherever they stopped |
| Convergence.ApplyAfterSweep | internal/controller/monitoring_reconciler.go:373-397 | applying the same manifests over what a sweep left restores exactly that state, and sweeping again finds nothing |
| Convergence.ApplyTwice | internal/controller/monitoring_reconciler.go:373-382 | applying the same two batches of manifests twice is applying them once |
| Convergence.CaStepRepeats | internal/controller/monitoring_reconciler.go:624-656 | the CA step repeated after itself gives the same readiness, error and Secret, on any live set |
| Convergence.ConcludeRepeats | internal/controller/monitoring_reconciler.go:399-450 | endpoints, forwarding names and aggregated conditions repeat once the status carries the features just written |
| Convergence.StackConditionIgnoresEndpoint | internal/controller/actions.go:752-774 | the condition of the usage logs stack does not depend on the endpoint the round started with |
| RoundProperties.ReadyExactly | internal/controller/monitoring_reconciler.go:252-450 | Ready is True at the end of a round if and only if the round completed without an error and every feature condition is True or informational |
| RoundProperties.ReadyMeans | internal/controller/monitoring_reconciler.go:259-282 | Ready=True further means dependencies True, provisioning True, Degraded False, phase Ready, CA ready, and every feature condition written in this very round |
| Verdicts.AggregatedExactly | internal/controller/conditions/conditions.go:250-293 | Ready, Degraded and provisioning after a completed error-free round, on the feature conditions it ends with: failing makes Ready False and Degraded True, otherwise unknown makes Ready Unknown |
| RoundProperties.WrittenOrFailing | internal/controller/monitoring_reconciler.go:579-615 | a round whose plan did not fail wrote each feature condition or leaves some feature failing, so no stale condition can carry Ready |
| RoundProperties.FailedMeansDegraded | internal/controller/monitoring_reconciler.go:262-268 | every round that returns an error ends Ready False, provisioning False, Degraded True and not in phase Ready |
| Failures.RoundFailsExactly | internal/controller/monitoring_reconciler.go:252-450 | exactly which rounds return an error, on spec, observations and the outcome of the CA step and the Removed sweep |
| Failures.PlanFailsExactly | internal/controller/monitoring_reconciler.go:564-622 | a plan fails exactly when a core action does, the templates do not render, or the gate is clean and a pipeline fails |
| Failures.CoreFailsExactly | internal/controller/monitoring_reconciler.go:579-605 | the core actions fail exactly when a read that one of them reaches is not answered or a cleanup it makes fails |
| Failures.ActionFailsExactly | internal/controller/actions.go:142-660 | the same of each action |
| Failures.UsageFailsExactly | internal/controller/actions.go:662-774 | exactly when the usage logs pipeline fails |
| Failures.ForwardingFailsExactly | internal/controller/actions.go:1328-1401 | exactly when the log forwarding pipeline fails |
| RoundProperties.EarlyExitIsNotReady | internal/controller/monitoring_reconciler.go:291-352 | every way out before the sweep that returns no error writes Ready False |
| Exits.RemovedRound | internal/controller/monitoring_reconciler.go:291-304 | a Removed round leaves exactly what the sweep that keeps nothing leaves, fails exactly when that sweep reports an error, otherwise reports Removed, and keeps the endpoints |
| Exits.RemovedRoundDeletes | internal/controller/monitoring_reconciler.go:817-846 | it deletes nothing that is not labelled and owned, and if it does not fail every listed, labelled, owned object in scope is gone |
| Exits.NamespaceExit | internal/controller/monitoring_reconciler.go:306-314 | a spec that names another namespace than the operator's is reported on five conditions and nothing else changes |
| Exits.OperatorsExit | internal/controller/monitoring_reconciler.go:316-334 | missing operators are reported through the aggregation and nothing else changes |
| Exits.ConfigurationExit | internal/controller/monitoring_reconciler.go:1172-1181 | a configuration error is reported, charged to the usage logs collector only when its exporter caused it, and nothing else changes |
| Exits.UnansweredReadFails | internal/controller/monitoring_reconciler.go:284-353 | a read that fails before rendering fails the round and leaves cluster, endpoints and feature conditions |
| Exits.FailedPlanAborts | internal/controller/monitoring_reconciler.go:355-359 | a failed plan fails the round before it touches the cluster and keeps what the actions had written |
| Exits.BaseConditions | internal/controller/templatedata.go:577-595 | every completed round writes the version condition, informational unless the version is supported, and reports dependencies and service True |
| RoundProperties.NoLostRetry | internal/controller/monitoring_reconciler.go:411-504 | a completed error-free round comes back within 30 seconds while a configured LokiStack is not True or a credential is awaited, and within 5 minutes if the sweep failed or a configured OpenTelemetry collector is not True; exactly when it does not come back, on the conditions it ends with |
| Retries.NoRequeueExactly | internal/controller/monitoring_reconciler.go:427-504 | the same on the inputs: a completed error-free round returns no requeue if and only if neither log forwarding nor metrics storage is configured, the sweep reported no error, the configured stack and OpenTelemetry collector were found ready, and no credential is awaited |
| Retries.UnretriedCollectorExactly | internal/controller/actions.go:662-748 | a configured usage logs collector is left not True and without a requeue if and only if, besides, its endpoint was not published before the round, or its CRD is missing and its credential is not |
| Retries.UsageConditionsExactly | internal/controller/actions.go:662-774 | on the inputs, exactly when a completed error-free round ends with the usage logs stack True, with the collector True, and with a credential awaited |
| Retries.TelemetryConditionExactly | internal/controller/actions.go:278-349 | on the inputs, exactly when it ends with a configured OpenTelemetry collector not True |
| Retries.CaReadyWithoutMetrics | internal/controller/helpers.go:198-203 | without metrics storage a completed round always had its CA ready |
| Examples.MissingCrdExample | internal/controller/actions.go:662-748 | a completed, error-free round that leaves the usage logs collector not True for want of its CRD and returns no requeue |
| Examples.FirstEndpointExample | internal/controller/monitoring_reconciler.go:691-736 | another, with everything found and ready: the round that publishes the endpoint, whose text it ends with |
| RoundProperties.ConcludedRequeue | internal/controller/monitoring_reconciler.go:427-489 | the requeue of a concluded round, deferred helpers included, as a function of the conditions it ends with |
| RoundProperties.RefusedRoundShieldsLogs | internal/controller/monitoring_reconciler.go:391-409 | when the gate refuses, the round fails and no object labelled with a log component and no LokiStack is swept, the TargetAllocator RBAC names excepted |
| RoundProperties.RefusedRoundDeletesExactly | internal/controller/monitoring_reconciler.go:1026-1046 | when that sweep reports no error over complete lists, such an object is deleted if and only if it is labelled, owned, not opted out and undesired TargetAllocator RBAC |
| RoundProperties.StackAppliedOnlyWithCa | internal/controller/monitoring_reconciler.go:361-382 | with metrics storage, or with templates of which only the MonitoringStack one renders that kind: a MonitoringStack is applied, even by a deploy that stops half way, only in a round that leaves the CA Secret holding the non-empty CA it read |
| RoundProperties.PendingCaKeepsStack | internal/controller/monitoring_reconciler.go:364-397 | while the CA is pending exactly the MonitoringStack manifests are left out of the apply and no desired object is swept, a live MonitoringStack included |
| RoundProperties.StackLeftOut | internal/controller/monitoring_reconciler.go:658-666 | what is left after dropping the MonitoringStack contains none and only members of the desired list |
| CoreActions.CaStepExactly | internal/controller/helpers.go:198-269 | exactly when the CA step is ready, pending or failed, and what the Secret then holds |
| CoreActions.CaStepWithoutStack | internal/controller/monitoring_reconciler.go:624-656 | without a MonitoringStack there is nothing to do; without the ConfigMap, or with its apply refused, the step fails |
| CoreActions.CaConfigMapIsLast | internal/controller/monitoring_reconciler.go:629-640 | the ConfigMap applied first is the last rendered one at the key the CA is read from |
| CoreActions.StackCounts | internal/controller/monitoring_reconciler.go:629-637 | a MonitoringStack counts exactly where it is rendered into the monitoring namespace |
| RoundProperties.PipelinesDoNotInterfere | internal/controller/actions.go:827-989 | two completed rounds with the same gate verdict and log forwarding observations end with the same forwarding conditions, endpoint and templates, whatever the usage logs side observed |
| RoundProperties.PublishedFromConditions | internal/controller/monitoring_reconciler.go:691-736 | endpoints and forwarding names can be read off the conditions the round ends with |
| Verdicts.EndpointsFollowStacks | internal/controller/monitoring_reconciler.go:691-736 | in a completed round each endpoint ends as its URL if its stack ends True, as it was if Unknown, empty if False, and empty where the stack is not configured |
| RoundProperties.LogConditions | internal/controller/monitoring_reconciler.go:607-621 | the four log conditions end the round as the plan wrote them |
| RoundProperties.PlannedConditions | internal/controller/monitoring_reconciler.go:361-409 | every feature the plan wrote ends a completed round as the plan wrote it, the MonitoringStack condition excepted |
| Pipelines.LogConditionsExactly | internal/controller/actions.go:662-989 | the four log conditions after a completed round that was not refused, with their reasons, on spec and observations |
| Pipelines.LogTemplatesExactly | internal/controller/actions.go:662-989 | exactly when each log template is in a plan that neither failed nor was refused |
| Pipelines.UnansweredUsageStack | internal/controller/actions.go:942-989 | a usage logs stack that cannot be read fails the round with the stack Unknown; cluster and endpoints stay |
| Pipelines.UnansweredLogsStack | internal/controller/actions.go:942-989 | the same of the log forwarding stack |
| CoreActions.CoreConditionsExactly | internal/controller/actions.go:142-660 | each core feature after a completed round: True where wanted and found, informational where not wanted, failing otherwise |
| CoreActions.StackConditionExactly | internal/controller/monitoring_reconciler.go:364-400 | the MonitoringStack condition with its later writers, the CA step and the Thanos sync |
| CoreActions.PlanRendersExactly | internal/controller/actions.go:142-660 | exactly when each core template is in a plan, on spec and observations |
| CoreActions.PlanReports | internal/controller/actions.go:142-660 | the same conditions in the plan |
| PlanProperties.BothStacksOnlyIfDisjoint | internal/controller/actions.go:1064-1094 | both LokiStack templates are in a plan only if both Secrets read in that round resolved to disjoint canonical locations |
| PlanProperties.CleanGateMeansDisjoint | internal/controller/actions.go:1115-1168 | with both stacks claimed the gate is clean if and only if the two Secrets resolve to disjoint locations |
| PlanProperties.RefusedPlanRendersNoLogs | internal/controller/actions.go:827-863 | a refused plan renders no template of either log pipeline and withholds both components |
| PlanProperties.WithheldDependentFollowsStack | internal/controller/actions.go:874-895 | a withheld dependent carries its stack's status and reason |
| PlanProperties.GateShape | internal/controller/actions.go:1064-1094 | the gate refuses both claimants with one verdict or refuses nobody |
| Verdicts.ConflictIsFalse | internal/controller/actions.go:1064-1094 | if both Secrets resolve and share a location, a completed round ends with all four log conditions False for StorageConflict, both endpoints empty, and an error |
| Verdicts.UnresolvedIsUnknown | internal/controller/errors.go:105-151 | if either Secret does not resolve, it ends with all four Unknown with the reason of the first such Secret, both endpoints as they were, and an error |
| Verdicts.GateOfTwo | internal/controller/actions.go:1115-1168 | the verdict on two claims, from what their Secrets resolve to |
| PlanProperties.PipelineMarks | internal/controller/actions.go:827-989 | a pipeline writes its own two conditions only; both when it ran to its end, the dependent alone when withheld |
| PlanProperties.PlanPipelineMarks | internal/controller/monitoring_reconciler.go:607-621 | in a plan that did not fail both conditions of each pipeline are written, with the gate or the pipeline as their source |
| PlanProperties.PlanCoverage | internal/controller/monitoring_reconciler.go:579-615 | a plan that did not fail wrote every feature, or some feature it wrote is failing |
| PlanProperties.CoreUnwrittenExactly | internal/controller/monitoring_reconciler.go:579-605 | after the core actions a feature of theirs is unwritten if and only if metrics storage is configured and, of the two CRDs behind stack and querier, its own is there and the other is missing; then that other one is marked False |
| PlanProperties.PlanUnwrittenExactly | internal/controller/monitoring_reconciler.go:579-621 | the same of the whole plan and every feature |
| Examples.UnwrittenSiblingExample | internal/controller/actions.go:168-188 | an input at which only one of the two conditions is marked although a CRD is missing |
| Examples.AnsweredActionsSucceed | internal/controller/monitoring_reconciler.go:579-605 | core actions whose reads are all answered and whose cleanups succeed never fail |
| PlanProperties.ActionWritesExactly | internal/controller/actions.go:155-216 | the same of one action |
| PlanProperties.LogsLeaveCore | internal/controller/monitoring_reconciler.go:607-615 | gate and pipelines leave the core features as the core actions wrote them |
| PlanProperties.SourcesComeFrom | internal/controller/monitoring_reconciler.go:579-615 | a log template in a plan came from its own pipeline, which was not withheld |
| PlanProperties.StackTemplateNeedsStorage | internal/controller/actions.go:155-216 | a plan holds the MonitoringStack template only with metrics storage configured |
| PlanProperties.ForwardingIgnoresUsage | internal/controller/actions.go:790-813 | log forwarding conditions and templates depend on the gate and its own observations only |
| PlanProperties.UsageIgnoresForwarding | internal/controller/actions.go:752-788 | the usage logs pipeline depends on the gate, the published endpoint and its own observations only |
| PlanProperties.UsageMarks | internal/controller/actions.go:662-774 | usage logs: the stack condition is always written, the collector condition exactly when nothing failed |
| PlanProperties.ForwardingMarks | internal/controller/actions.go:1328-1401 | log forwarding: the stack condition is always written, the forwarder condition exactly when nothing failed |
| Sweep.SweepIsExact | internal/controller/monitoring_reconciler.go:769-815 | a sweep that reports no error over complete lists deletes exactly the collectable objects |
| Sweep.MainPhaseDeletes | internal/controller/monitoring_reconciler.go:769-800 | a sweep that reports no error leaves no listed object that its main phase accepts |
| Sweep.SweepIsSound | internal/controller/monitoring_reconciler.go:769-1067 | whatever fails on the way a sweep only removes objects, each accepted by one of its phases |
| Sweep.SweptMeans | internal/controller/monitoring_reconciler.go:848-1067 | on the fields of the object: any sweep deletes only labelled objects with the owner's UID that are in scope, allow-listed or TargetAllocator RBAC and neither desired, opted out nor shielded; one that reports no error over complete lists deletes all of them |
| Sweep.DesiredSurvives | internal/controller/monitoring_reconciler.go:981-1046 | no sweep deletes a desired object |
| Sweep.WithheldSurvives | internal/controller/monitoring_reconciler.go:981-1024 | no sweep, failing ones included, deletes an object of a withheld component, nor any LokiStack while a Loki component is withheld, unless it is TargetAllocator RBAC |
| Sweep.ShieldedDeletedExactly | internal/controller/monitoring_reconciler.go:1026-1046 | a sweep that reports no error over complete lists deletes a shielded object if and only if it is labelled and the TargetAllocator predicate accepts it |
| Sweep.AllocatorRoleSweptExample | internal/controller/monitoring_reconciler.go:1026-1046 | a Role of a withheld component that is swept |
| Sweep.SweepIsIdempotent | internal/controller/monitoring_reconciler.go:769-815 | sweeping twice is sweeping once, failures included |
| Sweep.DeleteAllIsSweep | internal/controller/monitoring_reconciler.go:817-846 | deleting everything owned equals the sweep with nothing desired and nothing withheld |
| Sweep.DeleteListedSound | internal/controller/monitoring_reconciler.go:848-891 | one RBAC phase removes only accepted objects and, if it reports no error, leaves no accepted one of its list |
| Cluster.ApplySettles | internal/controller/monitoring_reconciler.go:373-382 | applying again over a state that agrees on the applied keys changes nothing |
| Cluster.ApplyHoldsLast | internal/controller/monitoring_reconciler.go:373-382 | after an apply each key holds the body of its last manifest, labelled and owned |
| Controller.MonitoringReconciler.Reconcile | internal/controller/monitoring_reconciler.go:252-450 | the object's round, deferred block included, takes the state and returns the error and requeue of the round function |
| Controller.MonitoringReconciler.Run | internal/controller/monitoring_reconciler.go:284-331 | the body up to the namespace check, with its early exits, updates conditions, cluster and status in place as specified |
| Controller.MonitoringReconciler.CheckOperators | internal/controller/monitoring_reconciler.go:315-337 | the precondition check and its aggregated early exit |
| Controller.MonitoringReconciler.Configure | internal/controller/monitoring_reconciler.go:339-359 | the Perses probe, template data and rendering, with the configuration error exit |
| Controller.MonitoringReconciler.Commit | internal/controller/monitoring_reconciler.go:361-397 | CA step, deploy, policy cleanup and sweep in order, stopping where the first of them fails |
| Controller.MonitoringReconciler.Conclude | internal/controller/monitoring_reconciler.go:399-450 | publishing, aggregation and the choice of return value |
| Controller.MonitoringReconciler.Deferred | internal/controller/monitoring_reconciler.go:462-489 | the requeue the deferred helpers leave |
| Controller.MonitoringReconciler.RenderMonitoringResources | internal/controller/monitoring_reconciler.go:564-622 | the loop over actions, the gate and the pipelines write the conditions and collect the templates of the plan |
| Controller.MonitoringReconciler.RunActions | internal/controller/monitoring_reconciler.go:579-605 | the action loop accumulates conditions and templates and stops at the first error |
| Controller.MonitoringReconciler.ValidateStorageIsolation | internal/controller/actions.go:1064-1094 | the gate marks and withholds every claimant on a refusal and nobody otherwise |
| Controller.MonitoringReconciler.DeployLokiStacks | internal/controller/actions.go:827-863 | the component loop; a withheld pipeline reads its verdict back from the status |
| Controller.MonitoringReconciler.MarkWithheldPipeline | internal/controller/actions.go:874-895 | copies False or Unknown with its reason from the stack to the dependent, and nothing on True |
| Controller.MonitoringReconciler.PreparePrometheusWebTLSCA | internal/controller/monitoring_reconciler.go:624-656 | finds the stack and the last CA ConfigMap in one pass, applies the latter and syncs it |
| Controller.MonitoringReconciler.SyncPrometheusWebTLSCA | internal/controller/helpers.go:198-269 | the CA Secret after the sync, and whether it is ready or failed |
| Controller.MonitoringReconciler.PublishLokiEndpoints | internal/controller/monitoring_reconciler.go:691-736 | both endpoints and the short requeue, from the conditions in the status |
| Controller.MonitoringReconciler.PublishForwarding | internal/controller/monitoring_reconciler.go:1186-1219 | forwarding names exactly while the collector is True, and whether a credential is awaited |
| Controller.ClusterState.CollectGarbage | internal/controller/monitoring_reconciler.go:769-815 | the three-phase sweep in place |
| Controller.ClusterState.DeleteAllOwned | internal/controller/monitoring_reconciler.go:817-846 | the Removed sweep in place |
| Controller.ClusterState.DeleteListed | internal/controller/monitoring_reconciler.go:848-891 | the list-and-delete loop stops at the first deletion that fails |
| Controller.ClusterState.Deploy | internal/controller/monitoring_reconciler.go:373-382 | inserts or replaces the manifests in order |
| Conditions.ConditionsManager.AggregateReady | internal/controller/conditions/conditions.go:250-293 | writes provisioning, Ready and Degraded from one scan of the list, equal to the quantified aggregate of the conditions as a map |
| Conditions.ConditionsManager.Scan | internal/controller/conditions/conditions.go:250-293 | the scan finds a failing or unknown feature if and only if there is one |
| Conditions.ConditionsManager.Set | internal/controller/conditions/conditions.go:164-245 | upsert by type: one entry changes, types stay unique |
| Conditions.ConditionsManager.MarkTrue | internal/controller/conditions/conditions.go:164-174 | sets the type True and leaves all others |
| Conditions.ConditionsManager.MarkFalse | internal/controller/conditions/conditions.go:187-196 | sets the type False with a reason and leaves all others |
| Conditions.ConditionsManager.MarkUnknown | internal/controller/conditions/conditions.go:229-240 | sets the type Unknown with a reason and leaves all others |
| Conditions.ConditionsManager.MarkNotConfigured | internal/controller/conditions/conditions.go:198-227 | sets the type False with informational severity and leaves all others |
| Conditions.ConditionsManager.Phase | internal/controller/conditions/conditions.go:296-301 | phase Ready if and only if the Ready condition is True |
| Conditions.AggregateReadsFeatures | internal/controller/conditions/conditions.go:250-293 | aggregation depends on the dependencies condition and the features only |
| Isolation.CheckIsolation | internal/controller/actions.go:1115-1168 | the map-based check refines the pairwise one for claim lists of any length: clean iff fewer than two claims or all resolved and pairwise disjoint, else the first unresolved cause, else exactly the shared locations and the claimants that touch them, without repeats |
| Isolation.BookAll | internal/controller/actions.go:1123-1150 | the booking loop: the map holds exactly the claimants of each location in claim order, up to the first unresolved claim |
| Isolation.Report | internal/controller/actions.go:1150-1168 | reads the shared locations and their claimants off the map |
| Isolation.VerdictIgnoresClaimOrder | internal/controller/actions.go:1115-1168 | class of verdict and shared locations do not change when the claims are permuted |
| Isolation.VerdictIgnoresListing | internal/controller/actions.go:1123-1167 | nor when a claimant repeats or reorders its own locations |
| StorageIsolation.CheckStorageIsolation | internal/controller/actions.go:1115-1168 | the same for Secrets and canonical keys |
| StorageIsolation.LokiStorageLocations | internal/controller/actions.go:1182-1227 | what a Secret resolves to: missing, unreadable, invalid, or the keys of its non-blank buckets |
| StorageIsolation.BucketLocations | internal/controller/actions.go:1206-1227 | the bucket loop skips blanks and fails on the first rejected bucket or on none at all |
| StorageIsolation.SecretResolves | internal/controller/actions.go:1182-1227 | nameless, missing, unreadable and invalid Secrets told apart; otherwise exactly the locations of the non-blank comma-separated entries |
| StorageIsolation.RespellingKeepsLocations | internal/controller/actions.go:1206-1221 | repeating, reordering or re-spelling buckets inside one Secret names the same locations |
| StorageIsolation.VerdictIgnoresBucketSpelling | internal/controller/actions.go:1123-1167 | so the verdict and the shared locations stay the same for any claim list |
| StorageLocation.CanonicalLocationsAreFaithful | internal/controller/actions.go:1271-1325 | two accepted pairs have equal keys exactly when folded host, non-default port, resolved path segments and folded bucket agree, for buckets without slash or colon |
| StorageLocation.KeysAreFaithful | internal/controller/actions.go:1289-1324 | the same on parsed endpoints |
| StorageLocation.KeysDetermineAuthority | internal/controller/actions.go:1289-1324 | with slashes allowed: keys are equal exactly when host, port and the text of prefix and bucket together agree |
| StorageLocation.SlashInBucketMerges | internal/controller/actions.go:1319-1324 | counterexample: a bucket with a slash shares its key with another bucket under a prefix |
| StorageLocation.AuthorityInjective | internal/controller/actions.go:1306-1315 | the authority text determines host and port |
| StorageLocation.WhitespaceIgnored | internal/controller/actions.go:1272-1276 | whitespace around endpoint and bucket is ignored |
| StorageLocation.SchemeIgnored | internal/controller/actions.go:1278-1287 | a scheme in front of an endpoint written bare leaves the location unchanged; where nothing or a slash stands in place of the authority both spellings are rejected |
| StorageLocation.HostCaseAndDefaultPortIgnored | internal/controller/actions.go:1289-1315 | host case is ignored on every port, and no port, 80 and 443 are the same |
| StorageLocation.PortsFoldExactly | internal/controller/actions.go:1304-1309 | no port, 80 and 443 give one key; two other ports give one key only if they are equal |
| Text.LowerAgrees | internal/controller/actions.go:1289-1291 | case folding identifies a letter with its other case and nothing else |
| StorageLocation.PlainKey | internal/controller/actions.go:1271-1325 | the text of the key for plain parts |
| StorageLocation.BucketSpellingIgnored | internal/controller/actions.go:1276 | a bucket in any case, with any whitespace around it, gives the same location |
| StorageLocation.DotSegmentsIgnored | internal/controller/actions.go:1317-1322 | repeated slashes, dot segments and a segment taken back do not reach the prefix |
| StorageLocation.CleanIsIdempotent | internal/controller/actions.go:1317-1322 | cleaning a cleaned path changes nothing |
| StorageLocation.RootDotIgnoredExactly | internal/controller/actions.go:1289-1294 | a trailing root dot is ignored exactly when the host does not already end in one, virtual-host spellings included |
| StorageLocation.SecondRootDotExample | internal/controller/actions.go:1289-1294 | two hosts that differ in a second root dot and in their keys |
| StorageLocation.VirtualHostFoldsExactly | internal/controller/actions.go:1296-1302 | the virtual-host spelling folds onto the path style exactly when the base host does not begin with the bucket label |
| StorageLocation.RepeatedLabelExample | internal/controller/actions.go:1296-1302 | a base host that begins with the bucket label, whose virtual-host spelling has another key |
| StorageLocation.HostSurvivesExactly | internal/controller/actions.go:1291-1302 | an accepted endpoint loses its host in the key exactly when the folded host is the bucket label and a dot |
| StorageLocation.EmptiedHostExample | internal/controller/actions.go:1291-1302 | such an endpoint |
| Exporters.ValidateExporters | internal/controller/templatedata.go:1057-1113 | walking the map in any order accepts if and only if every exporter is valid by itself and the raw sizes sum to at most 51200, and then returns the output of exactly the non-empty ones |
| Exporters.ValidateConfigDepthAndTypes | internal/controller/templatedata.go:1160-1198 | the recursive walk, map entries in any order, decides the limits |
| Exporters.LimitsHoldEverywhere | internal/controller/templatedata.go:1160-1198 | the recursive check accepts exactly the trees in which every reachable position is at most 10 deep and meets the width and length limits by itself |
| Exporters.AcceptedTreeIsBounded | internal/controller/templatedata.go:1153-1198 | an accepted configuration has at most 1 + 50 (100^9 - 1) / 99 values |
| Exporters.AcceptedConfigsAreBounded | internal/controller/templatedata.go:1057-1113 | both hold of every configuration in an accepted set |
| Exporters.AcceptedInNumbers | internal/controller/templatedata.go:96-105 | every position of an accepted configuration within 50 fields, 100 items, 1024 bytes and 10 levels |
| Exporters.AcceptedNames | internal/controller/templatedata.go:1062-1087 | reserved names are never accepted; 10240 bytes each and 51200 in all |
| Exporters.WithinNumbersAccepted | internal/controller/templatedata.go:1057-1113 | a lone exporter within those numbers, under a good name and without a schema, is accepted |
| Exporters.AcceptedShrinks | internal/controller/templatedata.go:1057-1113 | an accepted set stays accepted when an exporter is dropped |
| Exporters.TotalTakesAny | internal/controller/templatedata.go:1060-1087 | the running total does not depend on the order of iteration |
| Exporters.PositionsAreReached | internal/controller/templatedata.go:1160-1198 | the counted positions are exactly the reachable ones |
| Exporters.ValidateConfig | internal/controller/templatedata.go:1090-1110 | decode, limits, schema and encode decide validity behind the size checks |
| Exporters.ValidateSchema | internal/controller/templatedata.go:1342-1374 | required, allowed, typed and ruled fields, in any order, decide the schema |
| Exporters.ValidateField | internal/controller/templatedata.go:1356-1371 | one field passes if and only if its type and all its rules hold |
| Exporters.KindsExactly | internal/controller/templatedata.go:1402-1441 | value by value, the field types it is accepted for |
| InstalledCsv.CooInstalledCSVVersion | internal/controller/templatedata.go:500-575 | the two loops compute the answer: an error on any unreadable candidate, the version of the one current CSV, otherwise the ClusterExtension |
| InstalledCsv.Collect | internal/controller/templatedata.go:520-555 | the first pass finds the installed CSVs in order and exactly the keys they replace |
| InstalledCsv.ListOrderIgnored | internal/controller/templatedata.go:557-575 | the answer does not depend on list order |
| InstalledCsv.ChainHeadIsFound | internal/controller/templatedata.go:557-575 | the head of any replacement chain in one namespace is found, whatever its length and wherever its members stand in the list |
| InstalledCsv.IrrelevantIgnored | internal/controller/templatedata.go:523-540 | another operator's CSV, a copy or one that has not succeeded does not change the answer |
| InstalledCsv.LoneVersion | internal/controller/templatedata.go:542-546 | a lone succeeded CSV gives the version its name carries |
| InstalledCsv.NothingInstalled | internal/controller/templatedata.go:564-573 | without a relevant CSV the ClusterExtension decides, without the CSV API the fallback, and any other list failure is an error |
| InstalledCsv.TwoCurrent | internal/controller/templatedata.go:564-573 | two current CSVs are answered like none |
| InstalledCsv.AcyclicLeavesCurrent | internal/controller/templatedata.go:557-565 | a non-empty acyclic replacement relation leaves a current CSV |
| InstalledCsv.NoCurrentMeansCycle | internal/controller/templatedata.go:557-565 | if every installed CSV is replaced there is a cycle of replacements |
| Watches.ListAllNamespaces | internal/controller/helpers.go:114-147 | the list is strictly ascending and holds exactly the live non-system namespaces, the fallback if live, and the fallback if not mentioned |
| Watches.Collect | internal/controller/helpers.go:114-141 | the collecting loop with its fallback rule |
| Watches.DroppedUpdateKeepsList | internal/controller/monitoring_reconciler.go:1235-1250 | a namespace update the predicate drops cannot change the list |
| Watches.ListedIsNotSystem | internal/controller/helpers.go:156-192 | a listed namespace other than the fallback is live and bears no system name, prefix, label or annotation |
| Watches.UnmarkedIsListed | internal/controller/helpers.go:156-192 | and every such namespace is listed |
| Watches.UnwatchedSecretKeepsGate | internal/controller/monitoring_reconciler.go:1126-1151 | a Secret change mapped to no request cannot change the gate's verdict, nor what it writes and withholds |
| Watches.EnqueuesExactlyClaims | internal/controller/monitoring_reconciler.go:1126-1151 | a Secret change enqueues exactly when a claim names that Secret in the namespace the gate reads |
| Watches.BelowIsStrictOrder | internal/controller/helpers.go:143-147 | the order of the list is a strict total order |
| Ordering.AscendingUnique | internal/controller/helpers.go:143-147 | a set of names has one ascending listing |
| WebhookTls.RestartsAreBounded | cmd/tls.go:319-394 | over any sequence of reads and outside restarts the poller restarts the process at most once per change from stand-in to no stand-in |
| WebhookTls.RestartExactly | cmd/tls.go:319-394 | exactly when the poller restarts it |
| WebhookTls.RestartDoesNotBounce | cmd/tls.go:346-363 | the observation that caused a restart does not stand in again at startup |
| WebhookTls.RecoveryAgreesWithStartup | cmd/tls.go:376-394 | the poller keeps the stand-in if and only if startup would stand in; it leaves to fail closed only where startup refuses |
| WebhookTls.StartupExactly | cmd/tls.go:134-232 | on the observation, exactly when startup stands in, refuses, or serves the settings it read |
| WebhookTls.DegradedIsStrictIntermediate | cmd/tls.go:211-232 | degraded if and only if standing in; then Strict Intermediate, not watchable and handed to the poller only, with the options of that profile where the library honors Strict |
| WebhookTls.Webhook.Resolve | cmd/tls.go:179-232 | startup returns the posture and sets the gauge to it, leaving it on a refusal |
| WebhookTls.Webhook.Poll | cmd/tls.go:319-363 | the poller cancels at the first attempt that is not made while stopping and does not stand in, and only then |
| ProxyCurves.FilterProxyCurvePreferences | internal/controller/proxy_tls.go:116-147 | the loop keeps the first entry of each allowed curve in order, with an error on a non-number or an empty result |
| ProxyCurves.FiltersCompose | internal/controller/proxy_tls.go:116-147 | filtering is idempotent, and FIPS filtering is the FIPS filter of the plain result, errors included |
| ProxyCurves.FirstsDistinct | internal/controller/proxy_tls.go:121-141 | no curve is kept twice |
| ProxyCurves.FirstsCover | internal/controller/proxy_tls.go:121-141 | a curve is kept if and only if it is allowed and listed |
| ProxyCurves.KeptCurves | internal/controller/proxy_tls.go:39-60 | by number: a listed curve is kept exactly when proxies know it and, in FIPS mode, it is approved; each once |

## Left out

- Template contents, rendering, server-side apply and the discovery behind the main sweep: a template renders to some manifests, an apply inserts or replaces, the sweep deletes listed objects that its predicate accepts. A deploy or a sweep may stop anywhere.
- Templates outside the log pipelines are kept in the groups in which an action adds them, not one by one.
- `status.url`, message texts, transition times, observed generation and the module's own release entry: nothing else reads them.
- Reasons that nothing tells apart are grouped (all missing CRDs are one reason).
- The outer `Reconcile` (fetching the resource, the finalizer, the status patch): a run only says whether a round's patch was accepted, and an unpatched round keeps the stored status.
- Deletions that an action makes by name (old Perses objects, old token Secrets, OpenTelemetry Operator NetworkPolicies): only whether they succeed.
- The Thanos route CA and URL sync: only whether it succeeds.
- Stale caches: a round sees one answer per read.
- Unicode: case folding is ASCII, whitespace is the ASCII set with U+0085 and U+00A0, and one char stands for one byte in the exporter limits.
- `url.Parse`: any function whose results have a host that is a name or an IPv6 literal and a numeric port.
- SchemeIgnored: stated for parsers that read an authority the same with and without the scheme and find no host where a slash or nothing stands in its place, and for endpoints that contain no second scheme marker.
- WithheldSurvives: one way only, because it covers sweeps that fail; ShieldedDeletedExactly has both directions for sweeps that report no error.
- RefusedRoundShieldsLogs: excepts the TargetAllocator RBAC, which RefusedRoundDeletesExactly decides, and nothing is said of log objects that carry no component label other than LokiStacks.
- ThirdRoundChangesNothing: stated for templates that render ClusterRoles and ClusterRoleBindings without a namespace, as cluster-scoped objects have none.
- StackAppliedOnlyWithCa: without metrics storage it needs templates of which only the MonitoringStack one renders that kind, as the embedded templates do.
- CollectorDeletionHasCause: about objects labelled with the usage logs component at keys the collector templates render in that round.
- NoRequeueExactly: the outcome of the sweep stays in the condition as an outcome; whether a watch event brings a round back is not modelled.
- NoLostRetry: about completed rounds; earlier exits may return with no requeue by design.
- The names in the cluster RBAC allow-lists: the theorems hold for any lists.
- The exporter schema table and its patterns: the theorems hold for any table and any patterns.
- Which of several errors is reported where the source ranges over a map: only whether there is one.
- The cipher suite check for HTTP/2, resource and image defaults, the simple template data setters: short, with easy properties.
- The admission injector and probe, the method gate, flags, logging and manager wiring: I/O plumbing.
