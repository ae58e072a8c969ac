/** One reconcile round as a function of the state it starts from and what it observes. */
module Round {
  import opened Text
  import opened Conditions
  import opened Cluster
  import opened Sweep
  import opened StorageIsolation
  import opened Monitoring

  /** The CA Secret beside the injected ConfigMap; standard is the Opaque type. */
  datatype CaSecret = NoSecret | CaSecret(standard: bool, cert: string)

  datatype MonitoringStatus = MonitoringStatus(
    conditions: Marks,
    usageLogsEndpoint: string,
    logsEndpoint: string,
    forwarding: seq<string>,
    phaseReady: bool,
    platformRelease: string)

  datatype State = State(status: MonitoringStatus, live: Live, caSecret: CaSecret)

  function OwnerOf(env: Env, spec: Spec): Owner {
    Owner(env.uid, EffectiveNamespace(env, spec))
  }

  // ---- Endpoints ----

  function GatewayURL(stack: string, namespace: string): (url: string)
    ensures url != ""
  {
    "https://" + stack + "-gateway-http." + namespace + ".svc.cluster.local:8080/api/logs/v1/application"
  }

  function UsageLogsURL(namespace: string): (url: string)
    ensures url != ""
  {
    GatewayURL("data-science-usage-logs-lokistack", namespace) + "/otlp"
  }

  function LokiQueryURL(namespace: string): (url: string)
    ensures url != ""
  {
    GatewayURL("data-science-lokistack", namespace)
  }

  /** An endpoint as published, and whether a short requeue is needed. */
  datatype Published = Published(endpoint: string, requeue: bool)

  /** Cleared when off or confirmed not ready, held when the stack could not be observed. */
  function Publish(configured: bool, conditions: Marks, stack: Feature, url: string, current: string): Published {
    if !configured then Published("", false)
    else if HasStatus(conditions, Feature(stack), True) then Published(url, false)
    else if HasStatus(conditions, Feature(stack), Unknown) then Published(current, true)
    else Published("", true)
  }

  predicate AwaitingCredential(conditions: Marks) {
    var t := Feature(UsageLogsCollectorAvailable);
    HasStatus(conditions, t, False) && conditions[t].reason == CredentialNotFound
  }

  // ---- The Prometheus CA ----

  const CA_CONFIG_MAP := "prometheus-web-tls-ca"

  predicate IsStackIn(m: Manifest, namespace: string) {
    m.key.kind.MonitoringStackKind? && m.key.namespace == namespace
  }

  predicate IsCaConfigMap(m: Manifest, namespace: string) {
    m.key == Key(ConfigMapKind, namespace, CA_CONFIG_MAP)
  }

  predicate HasStack(desired: seq<Manifest>, namespace: string) {
    exists i :: 0 <= i < |desired| && IsStackIn(desired[i], namespace)
  }

  /** The last CA ConfigMap among the manifests. */
  function CaConfigMap(desired: seq<Manifest>, namespace: string): Option<Manifest> {
    if desired == [] then None
    else if IsCaConfigMap(desired[|desired| - 1], namespace) then Some(desired[|desired| - 1])
    else CaConfigMap(desired[..|desired| - 1], namespace)
  }

  datatype CaStep = CaStep(ready: bool, failed: bool, live: Live, caSecret: CaSecret)

  /** Copies the injected CA into the Secret that MonitoringStack reads. */
  function SyncCA(spec: Spec, o: CaObs, live: Live, current: CaSecret): CaStep {
    if !MetricsStorage(spec) then CaStep(true, false, live, current)
    else match o.ca {
      case CaUnreadable => CaStep(false, true, live, current)
      case CaPending => CaStep(false, false, live, current)
      case CaCert(cert) =>
        if cert == "" then CaStep(false, false, live, current)
        else if !o.secretReadable then CaStep(false, true, live, current)
        else if current == CaSecret(true, cert) then CaStep(true, false, live, current)
        else if !o.secretPatched then CaStep(false, true, live, current)
        else CaStep(true, false, live, CaSecret(true, cert))
    }
  }

  /** Applies the CA ConfigMap ahead of everything else and syncs its content. */
  function PrepareCA(env: Env, spec: Spec, o: CaObs, desired: seq<Manifest>, live: Live, current: CaSecret): CaStep {
    var namespace := EffectiveNamespace(env, spec);
    if !HasStack(desired, namespace) then CaStep(true, false, live, current)
    else match CaConfigMap(desired, namespace) {
      case None => CaStep(false, true, live, current)
      case Some(configMap) =>
        if !o.configMapApplied then CaStep(false, true, live, current)
        else SyncCA(spec, o, Apply(env.uid, live, [configMap]), current)
    }
  }

  function WithoutMonitoringStack(desired: seq<Manifest>): seq<Manifest> {
    if desired == [] then []
    else (if desired[0].key.kind.MonitoringStackKind? then [] else [desired[0]]) + WithoutMonitoringStack(desired[1..])
  }

  // ---- What a round leaves to the deferred block ----

  /** How far a round got. A stopped round may have applied some manifests. */
  datatype Trace =
    | Stopped(attempted: seq<Manifest>)
    | Completed(plan: Plan, desired: seq<Manifest>, applied: seq<Manifest>, caReady: bool,
                beforeSweep: Live, swept: Swept)

  datatype Draft = Draft(
    marks: Marks,
    live: Live,
    caSecret: CaSecret,
    usageLogsEndpoint: string,
    logsEndpoint: string,
    forwarding: seq<string>,
    failed: bool,
    requeue: nat,
    stamps: bool,
    trace: Trace)

  /** Returning early without an error. */
  function Exit(s: State, marks: Marks, live: Live): Draft {
    Draft(marks, live, s.caSecret, s.status.usageLogsEndpoint, s.status.logsEndpoint, s.status.forwarding,
          false, 0, false, Stopped([]))
  }

  /** Returning an error before the endpoints are published. */
  function Abort(s: State, marks: Marks, live: Live, caSecret: CaSecret, attempted: seq<Manifest>): Draft {
    Draft(marks, live, caSecret, s.status.usageLogsEndpoint, s.status.logsEndpoint, s.status.forwarding,
          true, 0, false, Stopped(attempted))
  }

  predicate CooConfigured(spec: Spec) {
    !spec.removed && MetricsStorage(spec)
  }

  function CooCondition(coo: CooVersion): Condition {
    match coo
    case CooSupported => TRUE
    case CooUnsupported => OffFor(UnsupportedVersion)
    case CooUnavailable => OffFor(VersionUnavailable)
  }

  const REMOVED_MARKS: Marks := map[
    DependenciesReady := OffFor(Removed), MonitoringAvailable := OffFor(Removed),
    Ready := FalseFor(Removed), ProvisioningSucceeded := FalseFor(Removed), Degraded := FalseFor(NotDegraded)]

  const NAMESPACE_MARKS: Marks := map[
    MonitoringAvailable := FalseFor(NamespaceMismatch), Feature(Korrel8rAvailable) := FalseFor(NamespaceMismatch),
    ProvisioningSucceeded := FalseFor(NamespaceMismatch), Ready := FalseFor(NamespaceMismatch),
    Degraded := FalseFor(NotDegraded)]

  function ConfigurationMarks(usageLogsExporter: bool): Marks {
    (if usageLogsExporter then map[Feature(UsageLogsCollectorAvailable) := FalseFor(ConfigurationError)] else map[]) +
    map[ProvisioningSucceeded := FalseFor(ConfigurationError), Ready := FalseFor(ConfigurationError),
        Degraded := FalseFor(NotDegraded)]
  }

  const FAILED_MARKS: Marks := map[
    Ready := FalseFor(ReconcileFailed), ProvisioningSucceeded := FalseFor(ReconcileFailed), Degraded := TRUE]

  // ---- The body of a round ----

  ghost function Body(env: Env, spec: Spec, obs: Obs, s: State): Draft {
    var w: Marks := if CooConfigured(spec) then map[] else map[COOVersionCompatible := OffFor(NotConfigured)];
    if obs.platformVersion.Unreadable? then Abort(s, w, s.live, s.caSecret, [])
    else if spec.removed then
      var r := DeleteAllOwned(OwnerOf(env, spec), env.allowed, obs.sweep, s.live);
      if !r.ok then Abort(s, w, r.live, s.caSecret, []) else Exit(s, w + REMOVED_MARKS, r.live)
    else if !NamespaceMatches(env, spec) then Exit(s, w + NAMESPACE_MARKS, s.live)
    else CheckOperators(env, spec, obs, s, w[COOVersionCompatible := CooCondition(obs.coo)])
  }

  ghost function CheckOperators(env: Env, spec: Spec, obs: Obs, s: State, w: Marks): Draft {
    match obs.preconditions
    case PreconditionsUnknown => Abort(s, w, s.live, s.caSecret, [])
    case OperatorsMissing =>
      var w' := w[DependenciesReady := FalseFor(MissingOperator)][MonitoringAvailable := FalseFor(MissingOperator)];
      Exit(s, w' + Aggregate(s.status.conditions + w'), s.live)
    case Met => Configure(env, spec, obs, s, w[DependenciesReady := TRUE][MonitoringAvailable := TRUE])
  }

  ghost function Configure(env: Env, spec: Spec, obs: Obs, s: State, w: Marks): Draft {
    if !obs.persesProbed || obs.data.TlsUnresolved? then Abort(s, w, s.live, s.caSecret, [])
    else if obs.data.Misconfigured? then Exit(s, w + ConfigurationMarks(obs.data.usageLogsExporter), s.live)
    else
      var plan := MakePlan(env, spec, obs, s.status.usageLogsEndpoint);
      if plan.failed then Abort(s, w + plan.marks, s.live, s.caSecret, [])
      else Commit(env, spec, obs, s, w + plan.marks, plan)
  }

  /** Applies the desired resources, sweeps the rest and concludes. */
  ghost function Commit(env: Env, spec: Spec, obs: Obs, s: State, w: Marks, plan: Plan): Draft
    requires obs.data.Built?
  {
    var desired := Render(obs.render, plan.sources);
    var ca := PrepareCA(env, spec, obs.ca, desired, s.live, s.caSecret);
    if ca.failed then Abort(s, w, ca.live, ca.caSecret, [])
    else
      var w' := if ca.ready then w else w[Feature(MonitoringStackAvailable) := FalseFor(PrometheusCAUnavailable)];
      var applied := if ca.ready then desired else WithoutMonitoringStack(desired);
      match obs.deployStopped
      case Some(done) => Abort(s, w', Apply(env.uid, ca.live, Only(applied, done)), ca.caSecret, Only(applied, done))
      case None =>
        var live := Apply(env.uid, ca.live, applied);
        if !obs.policyCleanup then Abort(s, w', live, ca.caSecret, applied)
        else
          var kept := Kept(Keys(desired), plan.withheld);
          var swept := CollectGarbage(OwnerOf(env, spec), env.allowed, kept, obs.sweep, live);
          Conclude(env, spec, obs, s, w', ca.caSecret, Completed(plan, desired, applied, ca.ready, live, swept))
  }

  /** Publishes endpoints and forwarding names, aggregates, and picks the requeue. */
  ghost function Conclude(env: Env, spec: Spec, obs: Obs, s: State, w: Marks, caSecret: CaSecret, trace: Trace): Draft
    requires obs.data.Built? && trace.Completed?
  {
    var w' := if MetricsStorage(spec) && !obs.thanosSynced
              then w[Feature(MonitoringStackAvailable) := FalseFor(ThanosCASyncFailed)] else w;
    var conditions := s.status.conditions + w';
    var namespace := EffectiveNamespace(env, spec);
    var usage := Publish(UsageStorage(spec), conditions, UsageLogsLokiStackAvailable, UsageLogsURL(namespace),
                         s.status.usageLogsEndpoint);
    var logs := Publish(spec.logs.Some?, conditions, LokiStackAvailable, LokiQueryURL(namespace), s.status.logsEndpoint);
    var forwarding := if HasStatus(conditions, Feature(UsageLogsCollectorAvailable), True) then obs.data.exporterNames else [];
    var marks := w' + Aggregate(conditions);
    var pending := !trace.plan.refused && !trace.caReady;
    Draft(if pending then marks[ProvisioningSucceeded := FalseFor(PrometheusCAUnavailable)] else marks,
          trace.swept.live, caSecret, usage.endpoint, logs.endpoint, forwarding,
          trace.plan.refused,
          if trace.plan.refused then 0
          else if pending then 15
          else if usage.requeue || logs.requeue || AwaitingCredential(conditions) then 30
          else if spec.logs.Some? then 300
          else if !trace.swept.ok then 60
          else 0,
          !trace.plan.refused && trace.caReady, trace)
  }

  // ---- The deferred block ----

  predicate CollectorAwaitsReadiness(spec: Spec, conditions: Marks) {
    (spec.metrics.Some? || spec.traces.Some?) && !HasStatus(conditions, Feature(OpenTelemetryCollectorAvailable), True)
  }

  function DeferredRequeue(spec: Spec, failed: bool, requeue: nat, conditions: Marks): nat {
    if failed || requeue != 0 then requeue
    else if CooConfigured(spec) then 300
    else if !spec.removed && spec.logs.None? && !MetricsStorage(spec) && CollectorAwaitsReadiness(spec, conditions) then 30
    else 0
  }

  function Version(read: Read<string>): string {
    if read.Present? then read.value else ""
  }

  /** What a round returns, and how far it got. */
  datatype Outcome = Outcome(failed: bool, requeue: nat, written: Marks, trace: Trace)

  datatype Result = Result(state: State, outcome: Outcome)

  function Finish(spec: Spec, obs: Obs, s: State, d: Draft): Result {
    var written := if d.failed then d.marks + FAILED_MARKS else d.marks;
    var conditions := s.status.conditions + written;
    var release := if d.stamps && Version(obs.platformVersion) != "" then Version(obs.platformVersion)
                   else s.status.platformRelease;
    Result(
      State(MonitoringStatus(conditions, d.usageLogsEndpoint, d.logsEndpoint, d.forwarding,
                             HasStatus(conditions, Ready, True), release),
            d.live, d.caSecret),
      Outcome(d.failed, DeferredRequeue(spec, d.failed, d.requeue, s.status.conditions + d.marks), written, d.trace))
  }

  ghost function Reconcile(env: Env, spec: Spec, obs: Obs, s: State): Result {
    Finish(spec, obs, s, Body(env, spec, obs, s))
  }
}
