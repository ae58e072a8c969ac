/** What the core actions report and render, on the spec and their observations. */
module CoreActions {
  import opened Text
  import opened Conditions
  import opened Cluster
  import opened StorageIsolation
  import opened Monitoring
  import opened PlanProperties
  import opened Round
  import opened RoundProperties
  import opened Exits

  // ---- Conditions ----

  predicate Telemetry(spec: Spec) {
    spec.metrics.Some? || spec.traces.Some?
  }

  /** The spec asks for the feature; the webhook counts as asked for once its certificate is there. */
  predicate IsWanted(spec: Spec, o: CoreObs, f: Feature) {
    match f
    case WebhookAvailable => o.webhookSecret == Present(true)
    case TempoAvailable => TracesStorage(spec)
    case PersesTempoDataSourceAvailable => TracesStorage(spec)
    case InstrumentationAvailable => spec.traces.Some?
    case OpenTelemetryCollectorAvailable => Telemetry(spec)
    case AlertingAvailable => spec.alerting
    case Korrel8rAvailable => Telemetry(spec) || spec.logs.Some?
    case PersesAvailable => MetricsStorage(spec) || TracesStorage(spec)
    case _ => MetricsStorage(spec)
  }

  /** What the feature needs was found, and ready where that is asked. */
  predicate IsFound(o: CoreObs, f: Feature) {
    match f
    case MonitoringStackAvailable => o.monitoringStackCrd == Yes && o.thanosQuerierCrd == Yes
    case ThanosQuerierAvailable => o.monitoringStackCrd == Yes && o.thanosQuerierCrd == Yes
    case TempoAvailable => o.tempoCrd == Yes
    case InstrumentationAvailable => o.instrumentationCrd == Yes
    case OpenTelemetryCollectorAvailable => o.collectorCrd == Yes && o.collectorReady == Yes
    case AlertingAvailable => o.alertRuleCrd == Yes
    case Korrel8rAvailable => o.korrel8rReady == Yes
    case PersesAvailable => o.persesFound && o.persesCrd == Yes
    case PersesTempoDataSourceAvailable => o.persesFound && o.tempoDatasourceCrd == Yes
    case PersesPrometheusDataSourceAvailable => o.persesFound && o.prometheusDatasourceCrd == Yes
    case _ => true
  }

  /** True where wanted and found, informational where not wanted, failing otherwise. */
  predicate Reports(c: Condition, wanted: bool, found: bool) {
    && c.status == (if wanted && found then True else False)
    && c.info == !wanted
  }

  lemma ActionReports(a: Action, spec: Spec, o: CoreObs, f: Feature)
    requires !RunAction(a, spec, o).failed && ActionOf(f) == Some(a) && Feature(f) in RunAction(a, spec, o).marks
    ensures Reports(RunAction(a, spec, o).marks[Feature(f)], IsWanted(spec, o, f), IsFound(o, f))
  {
  }

  /** A core feature that a plan wrote, which is all of them but a missing CRD's sibling. */
  lemma PlanReports(env: Env, spec: Spec, obs: Obs, endpoint: string, f: Feature)
    requires !MakePlan(env, spec, obs, endpoint).failed && ActionOf(f).Some? && !SiblingMissing(spec, obs.core, f)
    ensures Feature(f) in MakePlan(env, spec, obs, endpoint).marks
    ensures Reports(MakePlan(env, spec, obs, endpoint).marks[Feature(f)], IsWanted(spec, obs.core, f), IsFound(obs.core, f))
  {
    hide MakePlan;
    hide RunActions;
    hide RunAction;
    hide ValidateStorage;
    hide DeployPipeline;
    hide IsWanted;
    hide IsFound;
    var a := ActionOf(f).value;
    PlanShape(env, spec, obs, endpoint);
    CoreUnwrittenExactly(spec, obs.core, f);
    ActionsWrite(ACTIONS, spec, obs.core, Feature(f));
    ActionsKeepMarks(ACTIONS, spec, obs.core, a);
    ActionReports(a, spec, obs.core, f);
    LogsLeaveCore(env, spec, obs, endpoint, f);
  }

  /** The conditions of the core features at the end of a completed round. */
  lemma CoreConditionsExactly(env: Env, spec: Spec, obs: Obs, s: State, f: Feature)
    requires Completes(env, spec, obs, s) && ActionOf(f).Some? && !f.MonitoringStackAvailable?
    requires !SiblingMissing(spec, obs.core, f)
    ensures var c := Reconcile(env, spec, obs, s).state.status.conditions;
            Feature(f) in c && Reports(c[Feature(f)], IsWanted(spec, obs.core, f), IsFound(obs.core, f))
  {
    hide Body;
    hide Finish;
    hide MakePlan;
    hide IsWanted;
    hide IsFound;
    CompletedShape(env, spec, obs, s);
    PlanReports(env, spec, obs, s.status.usageLogsEndpoint, f);
    PlannedConditions(env, spec, obs, s, f);
  }

  /** The MonitoringStack's condition has two more writers, the later one winning. */
  lemma StackConditionExactly(env: Env, spec: Spec, obs: Obs, s: State)
    requires Completes(env, spec, obs, s)
    ensures var c := Reconcile(env, spec, obs, s).state.status.conditions;
            var t := Feature(MonitoringStackAvailable);
            if MetricsStorage(spec) && !obs.thanosSynced then Exits.Holds(c, t, Condition(False, ThanosCASyncFailed, false))
            else if !CaOf(env, spec, obs, s).ready then Exits.Holds(c, t, Condition(False, PrometheusCAUnavailable, false))
            else if SiblingMissing(spec, obs.core, MonitoringStackAvailable) then SameAt(c, s.status.conditions, t)
            else t in c && Reports(c[t], MetricsStorage(spec), obs.core.monitoringStackCrd == Yes && obs.core.thanosQuerierCrd == Yes)
  {
    hide Body;
    hide Finish;
    hide MakePlan;
    hide PrepareCA;
    hide Conclude;
    var f := MonitoringStackAvailable;
    CompletedShape(env, spec, obs, s);
    PlanUnwrittenExactly(env, spec, obs, s.status.usageLogsEndpoint, f);
    if !SiblingMissing(spec, obs.core, f) { PlanReports(env, spec, obs, s.status.usageLogsEndpoint, f); }
    ConcludedFeatures(env, spec, obs, s, WorkMarks(env, spec, obs, s), CaOf(env, spec, obs, s).caSecret,
                      TraceOf(env, spec, obs, s), f);
  }

  // ---- Templates ----

  /** The action that adds a template. */
  function RendererOf(t: Template): Option<Action> {
    match t
    case AdmissionPolicies => Some(MonitoringAdmissionPolicies)
    case PrometheusWebTLSService => Some(MonitoringStackWithQuerier)
    case MonitoringStackTemplate => Some(MonitoringStackWithQuerier)
    case MetricsStackSupport => Some(MonitoringStackWithQuerier)
    case Instrumentation => Some(TracingStack)
    case TempoStackTemplate => Some(TracingStack)
    case TempoMonolithicTemplate => Some(TracingStack)
    case TempoMonolithicPolicy => Some(TracingStack)
    case Collector => Some(OpenTelemetryCollector)
    case CollectorMetrics => Some(OpenTelemetryCollector)
    case CollectorMLflow => Some(OpenTelemetryCollector)
    case CollectorTempo => Some(OpenTelemetryCollector)
    case OperatorRules => Some(OperatorMonitoring)
    case ClusterProxy => Some(NodeMetricsEndpoint)
    case Korrel8rTemplates => Some(Korrel8r)
    case PersesTemplates => Some(Perses)
    case PersesTempoDatasource => Some(PersesTempoIntegration)
    case PersesTempoDashboard(_) => Some(PersesTempoIntegration)
    case PersesPrometheusDatasources => Some(PersesPrometheusIntegration)
    case _ => None
  }

  /** When a core template is in a plan. */
  predicate IsRendered(spec: Spec, o: CoreObs, t: Template) {
    match t
    case AdmissionPolicies => true
    case PrometheusWebTLSService => MetricsStorage(spec) && o.monitoringStackCrd == Yes && o.thanosQuerierCrd == Yes
    case MonitoringStackTemplate => MetricsStorage(spec) && o.monitoringStackCrd == Yes && o.thanosQuerierCrd == Yes
    case MetricsStackSupport => MetricsStorage(spec) && o.monitoringStackCrd == Yes && o.thanosQuerierCrd == Yes
    case Instrumentation => spec.traces.Some? && o.instrumentationCrd == Yes
    case TempoStackTemplate => spec.traces.Some? && spec.traces.value.storage == ObjectStore && o.tempoCrd == Yes
    case TempoMonolithicTemplate => spec.traces.Some? && spec.traces.value.storage == PersistentVolume && o.tempoCrd == Yes
    case TempoMonolithicPolicy => spec.traces.Some? && spec.traces.value.storage == PersistentVolume && o.tempoCrd == Yes
    case Collector => Telemetry(spec) && o.collectorCrd == Yes
    case CollectorMetrics => MetricsStorage(spec) && o.collectorCrd == Yes
    case CollectorMLflow => spec.traces.Some? && o.collectorCrd == Yes
    case CollectorTempo => TracesStorage(spec) && o.collectorCrd == Yes
    case OperatorRules => o.operatorRuleCrd == Yes
    case ClusterProxy => MetricsStorage(spec)
    case Korrel8rTemplates => Telemetry(spec) || spec.logs.Some?
    case PersesTemplates => (MetricsStorage(spec) || TracesStorage(spec)) && o.persesFound && o.persesCrd == Yes
    case PersesTempoDatasource => TracesStorage(spec) && o.persesFound && o.tempoDatasourceCrd == Yes
    case PersesTempoDashboard(v2) =>
      && TracesStorage(spec) && o.persesFound && o.tempoDatasourceCrd == Yes && o.tempoDashboardCrd == Yes
      && v2 == o.persesV2
    case PersesPrometheusDatasources => MetricsStorage(spec) && o.persesFound && o.prometheusDatasourceCrd == Yes
    case _ => false
  }

  predicate RendersAs(a: Action, spec: Spec, o: CoreObs, t: Template) {
    RendererOf(t) == Some(a) && IsRendered(spec, o, t)
  }

  lemma ActionRenders(a: Action, spec: Spec, o: CoreObs, t: Template)
    requires !RunAction(a, spec, o).failed
    ensures t in RunAction(a, spec, o).sources <==> RendersAs(a, spec, o, t)
  {
    hide DeployMonitoringStack;
    hide DeployTracingStack;
    hide DeployCollector;
    hide DeployPersesTempo;
    match a
    case MonitoringStackWithQuerier => StackRenders(spec, o, t);
    case TracingStack => TracingRenders(spec, o, t);
    case OpenTelemetryCollector => CollectorRenders(spec, o, t);
    case PersesTempoIntegration => PersesTempoRenders(spec, o, t);
    case _ =>
  }

  lemma StackRenders(spec: Spec, o: CoreObs, t: Template)
    requires !DeployMonitoringStack(spec, o).failed
    ensures t in DeployMonitoringStack(spec, o).sources <==> RendersAs(MonitoringStackWithQuerier, spec, o, t)
  {
  }

  lemma PersesTempoRenders(spec: Spec, o: CoreObs, t: Template)
    requires !DeployPersesTempo(spec, o).failed
    ensures t in DeployPersesTempo(spec, o).sources <==> RendersAs(PersesTempoIntegration, spec, o, t)
  {
  }

  lemma TempoRenders(spec: Spec, o: CoreObs, t: Template)
    requires !DeployTempo(spec, o).failed && spec.traces.Some?
    ensures t in DeployTempo(spec, o).sources <==> !t.Instrumentation? && RendersAs(TracingStack, spec, o, t)
  {
  }

  lemma TracingRenders(spec: Spec, o: CoreObs, t: Template)
    requires !DeployTracingStack(spec, o).failed
    ensures t in DeployTracingStack(spec, o).sources <==> RendersAs(TracingStack, spec, o, t)
  {
    hide DeployTempo;
    if spec.traces.Some? { TempoRenders(spec, o, t); }
  }

  lemma CollectorRenders(spec: Spec, o: CoreObs, t: Template)
    requires !DeployCollector(spec, o).failed
    ensures t in DeployCollector(spec, o).sources <==> RendersAs(OpenTelemetryCollector, spec, o, t)
  {
  }

  lemma {:induction false} ActionsRender(actions: seq<Action>, spec: Spec, o: CoreObs, t: Template)
    requires !RunActions(actions, spec, o).failed
    ensures t in RunActions(actions, spec, o).sources <==> exists a :: a in actions && RendersAs(a, spec, o, t)
  {
    hide RunAction;
    hide RendersAs;
    if actions != [] {
      ActionsRender(actions[1..], spec, o, t);
      ActionRenders(actions[0], spec, o, t);
      assert forall a :: a in actions <==> a == actions[0] || a in actions[1..];
    }
  }

  /** A plan that did not fail holds a core template exactly when the spec and the
      observations ask for it. */
  lemma PlanRendersExactly(env: Env, spec: Spec, obs: Obs, endpoint: string, t: Template)
    requires !MakePlan(env, spec, obs, endpoint).failed && !UsageTemplate(t) && !ForwardingTemplate(t)
    ensures t in MakePlan(env, spec, obs, endpoint).sources <==> IsRendered(spec, obs.core, t)
  {
    hide MakePlan;
    hide RunActions;
    hide ValidateStorage;
    hide DeployPipeline;
    hide IsRendered;
    var gated := ValidateStorage(env, spec, obs.secret);
    PlanShape(env, spec, obs, endpoint);
    ActionsRender(ACTIONS, spec, obs.core, t);
    assert LOKI_COMPONENTS[0] == LokiUsageLogs && LOKI_COMPONENTS[1] == LokiLogs;
    if t in DeployPipeline(LokiUsageLogs, spec, obs, endpoint, gated).sources {
      PipelineTemplates(LokiUsageLogs, spec, obs, endpoint, gated, t);
    }
    if t in DeployPipeline(LokiLogs, spec, obs, endpoint, gated).sources {
      PipelineTemplates(LokiLogs, spec, obs, endpoint, gated, t);
    }
    EveryTemplateHasRenderer(spec, obs.core, t);
  }

  lemma EveryTemplateHasRenderer(spec: Spec, o: CoreObs, t: Template)
    requires !UsageTemplate(t) && !ForwardingTemplate(t)
    ensures IsRendered(spec, o, t) <==> exists a :: a in ACTIONS && RendersAs(a, spec, o, t)
  {
    hide IsRendered;
    if RendererOf(t).Some? {
      EveryActionRuns(RendererOf(t).value);
      if IsRendered(spec, o, t) { assert RendersAs(RendererOf(t).value, spec, o, t); }
    }
  }

  // ---- The Prometheus CA ----

  /** The CA step, where a MonitoringStack and its ConfigMap are rendered and metrics storage
      is configured: ready exactly when a certificate is there and the Secret holds it or
      could be patched; pending exactly when no certificate is there; failed otherwise. */
  lemma CaStepExactly(env: Env, spec: Spec, o: CaObs, desired: seq<Manifest>, live: Live, current: CaSecret)
    requires MetricsStorage(spec) && HasStack(desired, EffectiveNamespace(env, spec))
    requires CaConfigMap(desired, EffectiveNamespace(env, spec)).Some? && o.configMapApplied
    ensures var step := PrepareCA(env, spec, o, desired, live, current);
            var found := o.ca.CaCert? && o.ca.cert != "";
            && (step.ready <==> found && o.secretReadable && (current == CaSecret(true, o.ca.cert) || o.secretPatched))
            && (!step.ready && !step.failed <==> o.ca.CaPending? || (o.ca.CaCert? && o.ca.cert == ""))
            && step.caSecret == (if step.ready then CaSecret(true, o.ca.cert) else current)
  {
  }

  /** Without the ConfigMap the step fails; without a MonitoringStack there is nothing to do. */
  lemma CaStepWithoutStack(env: Env, spec: Spec, o: CaObs, desired: seq<Manifest>, live: Live, current: CaSecret)
    ensures var step := PrepareCA(env, spec, o, desired, live, current);
            var namespace := EffectiveNamespace(env, spec);
            && (!HasStack(desired, namespace) ==> step == CaStep(true, false, live, current))
            && (HasStack(desired, namespace) && (CaConfigMap(desired, namespace).None? || !o.configMapApplied) ==>
                  step == CaStep(false, true, live, current))
  {
  }

  /** The ConfigMap that is applied first is the last rendered one at the key the CA is read
      from. */
  lemma {:induction false} CaConfigMapIsLast(desired: seq<Manifest>, namespace: string)
    ensures var key := Key(ConfigMapKind, namespace, "prometheus-web-tls-ca");
            match CaConfigMap(desired, namespace)
            case None => forall i :: 0 <= i < |desired| ==> desired[i].key != key
            case Some(m) => exists i :: 0 <= i < |desired| && desired[i] == m && m.key == key
                                        && forall j :: i < j < |desired| ==> desired[j].key != key
  {
    if desired != [] && desired[|desired| - 1].key != Key(ConfigMapKind, namespace, "prometheus-web-tls-ca") {
      CaConfigMapIsLast(desired[..|desired| - 1], namespace);
    }
  }

  /** A MonitoringStack counts where it is rendered into the monitoring namespace. */
  lemma StackCounts(desired: seq<Manifest>, namespace: string)
    ensures HasStack(desired, namespace) <==>
            exists i :: 0 <= i < |desired| && desired[i].key.kind == MonitoringStackKind && desired[i].key.namespace == namespace
  {
  }
}
