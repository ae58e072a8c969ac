/** The Monitoring resource, what one round observes of the cluster, and the deploy actions. */
module Monitoring {
  import opened Text
  import opened Conditions
  import opened Cluster
  import opened Sweep
  import opened StorageLocation
  import opened Isolation
  import opened StorageIsolation

  // ---- Spec ----

  datatype Metrics = Metrics(storage: bool)

  datatype TraceStorage = NoTraceStorage | PersistentVolume | ObjectStore

  datatype Traces = Traces(storage: TraceStorage)

  /** storage names the Secret; exporters counts them. */
  datatype UsageLogs = UsageLogs(storage: Option<string>, exporters: nat, namesCredential: bool)

  datatype Logs = Logs(storage: Option<string>)

  datatype Spec = Spec(
    removed: bool,
    namespace: string,
    metrics: Option<Metrics>,
    traces: Option<Traces>,
    usageLogs: Option<UsageLogs>,
    alerting: bool,
    logs: Option<Logs>)

  predicate MetricsStorage(spec: Spec) {
    spec.metrics.Some? && spec.metrics.value.storage
  }

  predicate TracesStorage(spec: Spec) {
    spec.traces.Some? && !spec.traces.value.storage.NoTraceStorage?
  }

  predicate UsageStorage(spec: Spec) {
    spec.usageLogs.Some? && spec.usageLogs.value.storage.Some?
  }

  /** The API server's rule on the resource: log forwarding names its storage. */
  predicate Admitted(spec: Spec) {
    spec.logs.Some? ==> spec.logs.value.storage.Some?
  }

  // ---- Environment and observations ----

  /** Fixed for the life of the process. monitoringNamespace is the variable of that name. */
  datatype Env = Env(parse: UrlParser, uid: string, monitoringNamespace: string, allowed: Allowed)

  const DEFAULT_NAMESPACE := "opendatahub"

  function EffectiveNamespace(env: Env, spec: Spec): string {
    if spec.namespace != "" then spec.namespace
    else if env.monitoringNamespace != "" then env.monitoringNamespace
    else DEFAULT_NAMESPACE
  }

  predicate NamespaceMatches(env: Env, spec: Spec) {
    env.monitoringNamespace == "" || EffectiveNamespace(env, spec) == env.monitoringNamespace
  }

  /** A yes/no question to the API server, which may not be answered. */
  datatype Answer = Yes | No | NoAnswer

  datatype Preconditions = Met | OperatorsMissing | PreconditionsUnknown

  datatype CooVersion = CooSupported | CooUnsupported | CooUnavailable

  datatype DataBuild = Built(exporterNames: seq<string>) | TlsUnresolved | Misconfigured(usageLogsExporter: bool)

  /** The service CA in the injected ConfigMap; an empty certificate is not injected yet. */
  datatype CaRead = CaUnreadable | CaPending | CaCert(cert: string)

  datatype CaObs = CaObs(configMapApplied: bool, ca: CaRead, secretReadable: bool, secretPatched: bool)

  datatype CoreObs = CoreObs(
    webhookSecret: Read<bool>,
    monitoringStackCrd: Answer, thanosQuerierCrd: Answer,
    instrumentationCrd: Answer, tempoCrd: Answer,
    collectorCrd: Answer, collectorReady: Answer,
    alertRuleCrd: Answer, operatorRuleCrd: Answer,
    korrel8rReady: Answer,
    persesFound: bool, persesV2: bool, persesCrd: Answer,
    tempoDatasourceCrd: Answer, tempoDashboardCrd: Answer, tempoCleanup: bool,
    prometheusDatasourceCrd: Answer, legacyCleanup: bool)

  datatype StackObs = StackObs(crd: Answer, ready: Answer)

  datatype UsageObs = UsageObs(stack: StackObs, credential: Answer, collectorCrd: Answer)

  datatype ForwarderObs = ForwarderObs(stack: StackObs, crd: Answer, lokiCrd: Answer, lokiReady: Answer, ready: Answer)

  /** Everything one round reads, each read its own field. */
  datatype Obs = Obs(
    platformVersion: Read<string>,
    preconditions: Preconditions,
    coo: CooVersion,
    persesProbed: bool,
    data: DataBuild,
    core: CoreObs,
    secret: SecretReader,
    usage: UsageObs,
    forwarder: ForwarderObs,
    renders: bool,
    render: Template -> seq<Manifest>,
    ca: CaObs,
    deployStopped: Option<set<Key>>,
    policyCleanup: bool,
    sweep: SweepObs,
    thanosSynced: bool)

  // ---- Templates ----

  /** The templates of the log pipelines one by one, the others in the groups in which
      an action adds them. */
  datatype Template =
    | AdmissionPolicies
    | PrometheusWebTLSService | MonitoringStackTemplate | MetricsStackSupport
    | Instrumentation | TempoStackTemplate | TempoMonolithicTemplate | TempoMonolithicPolicy
    | Collector | CollectorMetrics | CollectorMLflow | CollectorTempo
    | OperatorRules | ClusterProxy | Korrel8rTemplates | PersesTemplates
    | PersesTempoDatasource | PersesTempoDashboard(v2: bool) | PersesPrometheusDatasources
    | UsageLogsLokiStackTemplate | UsageLogsLokiStackPolicy
    | UsageLogsCollectorTemplate | UsageLogsCollectorRBAC | UsageLogsCollectorPolicy
    | LokiStackTemplate | LokiStackPolicy | LokiStackGatewayPolicy
    | ForwarderTemplate | ForwarderRBAC | ForwarderPolicy

  function Render(render: Template -> seq<Manifest>, sources: seq<Template>): seq<Manifest> {
    if sources == [] then [] else render(sources[0]) + Render(render, sources[1..])
  }

  // ---- Deploy actions ----

  /** What an action did: conditions it wrote, templates it added, and whether it returned
      an error. An action can write and add before it fails. */
  datatype Effect = Effect(marks: Marks, sources: seq<Template>, failed: bool)

  const NOTHING := Effect(map[], [], false)

  function Mark(f: Feature, c: Condition): Effect {
    Effect(map[Feature(f) := c], [], false)
  }

  const FAILURE := Effect(map[], [], true)

  /** One action after another; an error stops the sequence. */
  function Then(first: Effect, second: Effect): Effect {
    if first.failed then first
    else Effect(first.marks + second.marks, first.sources + second.sources, second.failed)
  }

  datatype Action =
    | WebhookInfrastructure | MonitoringAdmissionPolicies | MonitoringStackWithQuerier | TracingStack
    | OpenTelemetryCollector | Alerting | OperatorMonitoring | NodeMetricsEndpoint | Korrel8r
    | Perses | PersesTempoIntegration | PersesPrometheusIntegration

  const ACTIONS: seq<Action> := [
    WebhookInfrastructure, MonitoringAdmissionPolicies, MonitoringStackWithQuerier, TracingStack,
    OpenTelemetryCollector, Alerting, OperatorMonitoring, NodeMetricsEndpoint, Korrel8r,
    Perses, PersesTempoIntegration, PersesPrometheusIntegration]

  function DeployWebhookInfrastructure(o: CoreObs): Effect {
    match o.webhookSecret
    case Absent => Mark(WebhookAvailable, OffFor(TLSSecretPending))
    case Unreadable => FAILURE
    case Present(populated) => Mark(WebhookAvailable, if populated then TRUE else OffFor(TLSSecretPending))
  }

  /** When one of the two CRDs is missing only that one's condition is written. */
  function DeployMonitoringStack(spec: Spec, o: CoreObs): Effect {
    if !MetricsStorage(spec) then
      Then(Mark(MonitoringStackAvailable, OffFor(NotConfigured)), Mark(ThanosQuerierAvailable, OffFor(NotConfigured)))
    else if o.monitoringStackCrd == NoAnswer || o.thanosQuerierCrd == NoAnswer then FAILURE
    else if o.monitoringStackCrd == No || o.thanosQuerierCrd == No then
      Then(if o.monitoringStackCrd == No then Mark(MonitoringStackAvailable, FalseFor(CRDNotFound)) else NOTHING,
           if o.thanosQuerierCrd == No then Mark(ThanosQuerierAvailable, FalseFor(CRDNotFound)) else NOTHING)
    else
      Effect(map[Feature(MonitoringStackAvailable) := TRUE, Feature(ThanosQuerierAvailable) := TRUE],
             [PrometheusWebTLSService, MonitoringStackTemplate, MetricsStackSupport], false)
  }

  function DeployTempo(spec: Spec, o: CoreObs): Effect {
    if !TracesStorage(spec) then Mark(TempoAvailable, OffFor(NotConfigured))
    else match o.tempoCrd {
      case NoAnswer => FAILURE
      case No => Mark(TempoAvailable, FalseFor(CRDNotFound))
      case Yes =>
        Effect(map[Feature(TempoAvailable) := TRUE],
               if spec.traces.value.storage.PersistentVolume? then [TempoMonolithicTemplate, TempoMonolithicPolicy]
               else [TempoStackTemplate], false)
    }
  }

  function DeployTracingStack(spec: Spec, o: CoreObs): Effect {
    if spec.traces.None? then
      Then(Mark(TempoAvailable, OffFor(NotConfigured)), Mark(InstrumentationAvailable, OffFor(NotConfigured)))
    else match o.instrumentationCrd {
      case NoAnswer => FAILURE
      case No => Then(Mark(InstrumentationAvailable, FalseFor(CRDNotFound)), DeployTempo(spec, o))
      case Yes => Then(Effect(map[Feature(InstrumentationAvailable) := TRUE], [Instrumentation], false), DeployTempo(spec, o))
    }
  }

  function DeployCollector(spec: Spec, o: CoreObs): Effect {
    if spec.metrics.None? && spec.traces.None? then Mark(OpenTelemetryCollectorAvailable, OffFor(NotConfigured))
    else if o.collectorCrd == NoAnswer then FAILURE
    else if o.collectorCrd == No then Mark(OpenTelemetryCollectorAvailable, FalseFor(CRDNotFound))
    else if o.collectorReady == NoAnswer then FAILURE
    else
      Effect(map[Feature(OpenTelemetryCollectorAvailable) := if o.collectorReady == Yes then TRUE else FalseFor(NotReady)],
             [Collector] + (if MetricsStorage(spec) then [CollectorMetrics] else [])
             + (if spec.traces.Some? then [CollectorMLflow] else [])
             + (if TracesStorage(spec) then [CollectorTempo] else []), false)
  }

  function DeployAlerting(spec: Spec, o: CoreObs): Effect {
    if !spec.alerting then Mark(AlertingAvailable, OffFor(NotConfigured))
    else match o.alertRuleCrd {
      case NoAnswer => FAILURE
      case No => Mark(AlertingAvailable, FalseFor(CRDNotFound))
      case Yes => Mark(AlertingAvailable, TRUE)
    }
  }

  function DeployKorrel8r(spec: Spec, o: CoreObs): Effect {
    if spec.metrics.None? && spec.traces.None? && spec.logs.None? then Mark(Korrel8rAvailable, OffFor(NotConfigured))
    else if o.korrel8rReady == NoAnswer then FAILURE
    else Effect(map[Feature(Korrel8rAvailable) := if o.korrel8rReady == Yes then TRUE else FalseFor(NotReady)],
                [Korrel8rTemplates], false)
  }

  function DeployPerses(spec: Spec, o: CoreObs): Effect {
    if !MetricsStorage(spec) && !TracesStorage(spec) then Mark(PersesAvailable, OffFor(NotConfigured))
    else if !o.persesFound then Mark(PersesAvailable, FalseFor(CRDNotFound))
    else match o.persesCrd {
      case NoAnswer => FAILURE
      case No => Mark(PersesAvailable, FalseFor(CRDNotFound))
      case Yes => Effect(map[Feature(PersesAvailable) := TRUE], [PersesTemplates], false)
    }
  }

  function DeployPersesTempo(spec: Spec, o: CoreObs): Effect {
    if o.persesFound && (o.tempoDatasourceCrd == NoAnswer || o.tempoDashboardCrd == NoAnswer) then FAILURE
    else
      var datasource := o.persesFound && o.tempoDatasourceCrd == Yes;
      var dashboard := o.persesFound && o.tempoDashboardCrd == Yes;
      if !TracesStorage(spec) then
        if (datasource || dashboard) && !o.tempoCleanup then FAILURE
        else Mark(PersesTempoDataSourceAvailable, OffFor(NotConfigured))
      else if !datasource then Mark(PersesTempoDataSourceAvailable, FalseFor(CRDNotFound))
      else Effect(map[Feature(PersesTempoDataSourceAvailable) := TRUE],
                  [PersesTempoDatasource] + (if dashboard then [PersesTempoDashboard(o.persesV2)] else []), false)
  }

  function DeployPersesPrometheus(spec: Spec, o: CoreObs): Effect {
    if !MetricsStorage(spec) then Mark(PersesPrometheusDataSourceAvailable, OffFor(NotConfigured))
    else if !o.persesFound then Mark(PersesPrometheusDataSourceAvailable, FalseFor(CRDNotFound))
    else match o.prometheusDatasourceCrd {
      case NoAnswer => FAILURE
      case No => Mark(PersesPrometheusDataSourceAvailable, FalseFor(CRDNotFound))
      case Yes =>
        if !o.legacyCleanup then FAILURE
        else Effect(map[Feature(PersesPrometheusDataSourceAvailable) := TRUE], [PersesPrometheusDatasources], false)
    }
  }

  function RunAction(a: Action, spec: Spec, o: CoreObs): Effect {
    match a
    case WebhookInfrastructure => DeployWebhookInfrastructure(o)
    case MonitoringAdmissionPolicies => Effect(map[], [AdmissionPolicies], false)
    case MonitoringStackWithQuerier => DeployMonitoringStack(spec, o)
    case TracingStack => DeployTracingStack(spec, o)
    case OpenTelemetryCollector => DeployCollector(spec, o)
    case Alerting => DeployAlerting(spec, o)
    case OperatorMonitoring =>
      if o.operatorRuleCrd == NoAnswer then FAILURE
      else Effect(map[], if o.operatorRuleCrd == Yes then [OperatorRules] else [], false)
    case NodeMetricsEndpoint =>
      if MetricsStorage(spec) then Effect(map[Feature(NodeMetricsEndpointAvailable) := TRUE], [ClusterProxy], false)
      else Mark(NodeMetricsEndpointAvailable, OffFor(NotConfigured))
    case Korrel8r => DeployKorrel8r(spec, o)
    case Perses => DeployPerses(spec, o)
    case PersesTempoIntegration => DeployPersesTempo(spec, o)
    case PersesPrometheusIntegration => DeployPersesPrometheus(spec, o)
  }

  function RunActions(actions: seq<Action>, spec: Spec, o: CoreObs): Effect {
    if actions == [] then NOTHING
    else Then(RunAction(actions[0], spec, o), RunActions(actions[1..], spec, o))
  }

  // ---- The storage gate ----

  /** A claim with the condition that reports on it and the component it shields. */
  datatype LogClaim = LogClaim(claim: Claim, condition: Feature, component: Component)

  function LogClaims(spec: Spec): seq<LogClaim> {
    (if UsageStorage(spec) then
       [LogClaim(Claim("usageLogs.storage", spec.usageLogs.value.storage.value), UsageLogsLokiStackAvailable, LokiUsageLogs)]
     else []) +
    (if spec.logs.Some? && spec.logs.value.storage.Some? then
       [LogClaim(Claim("logs.storage", spec.logs.value.storage.value), LokiStackAvailable, LokiLogs)]
     else [])
  }

  function StorageClaims(claims: seq<LogClaim>): seq<Claim> {
    if claims == [] then [] else [claims[0].claim] + StorageClaims(claims[1..])
  }

  /** How a refusal is reported: a conflict is a determinate False, a check that could not
      run establishes nothing and is Unknown. */
  function Refusal(gate: Gate): Condition {
    match gate
    case Clash => FalseFor(StorageConflict)
    case Unclear(SecretMissing) => UnknownFor(StorageSecretNotFound)
    case Unclear(SecretInvalid) => UnknownFor(StorageSecretInvalid)
    case Unclear(CheckFailed) => UnknownFor(StorageCheckFailed)
    case Clean => TRUE
  }

  datatype Gated = Gated(marks: Marks, withheld: set<Component>, refused: bool)

  function Refuse(claims: seq<LogClaim>, c: Condition): Gated {
    if claims == [] then Gated(map[], {}, true)
    else
      var n := |claims| - 1;
      var front := Refuse(claims[..n], c);
      Gated(front.marks[Feature(claims[n].condition) := c], front.withheld + {claims[n].component}, true)
  }

  ghost function GateFor(env: Env, spec: Spec, read: SecretReader): Gate {
    GateVerdict(env.parse, read, StorageClaims(LogClaims(spec)))
  }

  /** On a refusal every claimant is marked and withheld. */
  ghost function ValidateStorage(env: Env, spec: Spec, read: SecretReader): Gated {
    var gate := GateFor(env, spec, read);
    if gate.Clean? then Gated(map[], {}, false) else Refuse(LogClaims(spec), Refusal(gate))
  }

  // ---- The log pipelines ----

  function DeployLokiStack(configured: bool, o: StackObs, f: Feature, templates: seq<Template>): Effect {
    if !configured then Mark(f, OffFor(NotRequired))
    else match o.crd {
      case NoAnswer => Effect(map[Feature(f) := UnknownFor(LokiCRDCheckFailed)], [], true)
      case No => Mark(f, FalseFor(MissingOperator))
      case Yes =>
        match o.ready
        case NoAnswer => Effect(map[Feature(f) := UnknownFor(ReadinessCheckFailed)], templates, true)
        case No => Effect(map[Feature(f) := FalseFor(LokiStackNotReady)], templates, false)
        case Yes => Effect(map[Feature(f) := TRUE], templates, false)
    }
  }

  const USAGE_COLLECTOR: seq<Template> := [UsageLogsCollectorTemplate, UsageLogsCollectorRBAC, UsageLogsCollectorPolicy]

  /** The collector renders only once an earlier round published the stack's endpoint. */
  function DeployUsageLogsCollector(spec: Spec, o: UsageObs, endpoint: string): Effect {
    if spec.usageLogs.None? || (spec.usageLogs.value.storage.None? && spec.usageLogs.value.exporters == 0) then
      Mark(UsageLogsCollectorAvailable, OffFor(NotConfigured))
    else if UsageStorage(spec) && endpoint == "" then
      Mark(UsageLogsCollectorAvailable, FalseFor(LokiStackNotReady))
    else if AwaitsCredential(spec) && o.credential == NoAnswer then FAILURE
    else if AwaitsCredential(spec) && o.credential == No then
      Mark(UsageLogsCollectorAvailable, FalseFor(CredentialNotFound))
    else match o.collectorCrd {
      case NoAnswer => FAILURE
      case No => Mark(UsageLogsCollectorAvailable, FalseFor(CRDNotFound))
      case Yes =>
        Effect(map[Feature(UsageLogsCollectorAvailable) :=
                     if UsageStorage(spec) then TRUE else Condition(True, ForwardingOnly, false)],
               USAGE_COLLECTOR, false)
    }
  }

  predicate AwaitsCredential(spec: Spec) {
    spec.usageLogs.Some? && spec.usageLogs.value.namesCredential && spec.usageLogs.value.exporters > 0
  }

  function DeployUsageLogs(spec: Spec, o: UsageObs, endpoint: string): Effect {
    Then(DeployLokiStack(UsageStorage(spec), o.stack, UsageLogsLokiStackAvailable,
                         [UsageLogsLokiStackTemplate, UsageLogsLokiStackPolicy]),
         DeployUsageLogsCollector(spec, o, endpoint))
  }

  function DeployClusterLogForwarder(spec: Spec, o: ForwarderObs): Effect {
    var f := Feature(ClusterLogForwarderAvailable);
    var templates := [ForwarderTemplate, ForwarderRBAC, ForwarderPolicy];
    if spec.logs.None? then Mark(ClusterLogForwarderAvailable, OffFor(NotConfigured))
    else if o.crd == NoAnswer then FAILURE
    else if o.crd == No then Mark(ClusterLogForwarderAvailable, FalseFor(CRDNotFound))
    else if o.lokiCrd == NoAnswer then FAILURE
    else if o.lokiCrd == No then Mark(ClusterLogForwarderAvailable, FalseFor(CRDNotFound))
    else if o.lokiReady == NoAnswer then Effect(map[], templates, true)
    else if o.lokiReady == No then Effect(map[f := FalseFor(LokiStackNotReady)], templates, false)
    else if o.ready == NoAnswer then Effect(map[], templates, true)
    else Effect(map[f := if o.ready == Yes then TRUE else FalseFor(NotReady)], templates, false)
  }

  function DeployLogForwarding(spec: Spec, o: ForwarderObs): Effect {
    Then(DeployLokiStack(spec.logs.Some?, o.stack, LokiStackAvailable,
                         [LokiStackTemplate, LokiStackPolicy, LokiStackGatewayPolicy]),
         DeployClusterLogForwarder(spec, o))
  }

  /** Copies the gate's verdict from a stack's condition to its dependent's. */
  function WithheldMarks(conditions: Marks, stack: Feature, dependent: Feature): Marks {
    if Feature(stack) !in conditions then map[]
    else
      var c := conditions[Feature(stack)];
      match c.status
      case False => map[Feature(dependent) := FalseFor(c.reason)]
      case Unknown => map[Feature(dependent) := UnknownFor(c.reason)]
      case True => map[]
  }

  /** The workload that ships into a component's stack reports on this condition. */
  function StackOf(c: Component): Feature {
    if c == LokiUsageLogs then UsageLogsLokiStackAvailable else LokiStackAvailable
  }

  function DependentOf(c: Component): Feature {
    if c == LokiUsageLogs then UsageLogsCollectorAvailable else ClusterLogForwarderAvailable
  }

  /** One pipeline: withheld as a unit, or its stack and then its workload. */
  function DeployPipeline(c: Component, spec: Spec, obs: Obs, endpoint: string, gated: Gated): Effect {
    if c in gated.withheld then Effect(WithheldMarks(gated.marks, StackOf(c), DependentOf(c)), [], false)
    else if c == LokiUsageLogs then DeployUsageLogs(spec, obs.usage, endpoint)
    else DeployLogForwarding(spec, obs.forwarder)
  }

  function DeployPipelines(components: seq<Component>, spec: Spec, obs: Obs, endpoint: string, gated: Gated): Effect {
    if components == [] then NOTHING
    else Then(DeployPipeline(components[0], spec, obs, endpoint, gated),
              DeployPipelines(components[1..], spec, obs, endpoint, gated))
  }

  /** Everything a round decides before it touches the cluster. */
  datatype Plan = Plan(marks: Marks, sources: seq<Template>, withheld: set<Component>, refused: bool, failed: bool)

  ghost function MakePlan(env: Env, spec: Spec, obs: Obs, endpoint: string): Plan {
    var core := RunActions(ACTIONS, spec, obs.core);
    if core.failed then Plan(core.marks, core.sources, {}, false, true)
    else
      var gated := ValidateStorage(env, spec, obs.secret);
      var logs := DeployPipelines(LOKI_COMPONENTS, spec, obs, endpoint, gated);
      Plan(core.marks + gated.marks + logs.marks, core.sources + logs.sources,
           gated.withheld, gated.refused, logs.failed || !obs.renders)
  }
}
