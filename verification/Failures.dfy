/** Exactly which rounds return an error. */
module Failures {
  import opened Conditions
  import opened Cluster
  import opened Sweep
  import opened Monitoring
  import opened PlanProperties
  import opened Round
  import opened RoundProperties
  import opened Retries
  import opened Exits
  import opened CoreActions

  // ---- Actions ----

  /** A read that the action reaches was not answered, or a cleanup it makes failed. */
  predicate Breaks(a: Action, spec: Spec, o: CoreObs) {
    match a
    case WebhookInfrastructure => o.webhookSecret.Unreadable?
    case MonitoringStackWithQuerier =>
      MetricsStorage(spec) && (o.monitoringStackCrd == NoAnswer || o.thanosQuerierCrd == NoAnswer)
    case TracingStack =>
      spec.traces.Some? && (o.instrumentationCrd == NoAnswer || (TracesStorage(spec) && o.tempoCrd == NoAnswer))
    case OpenTelemetryCollector =>
      Telemetry(spec) && (o.collectorCrd == NoAnswer || (o.collectorCrd == Yes && o.collectorReady == NoAnswer))
    case Alerting => spec.alerting && o.alertRuleCrd == NoAnswer
    case OperatorMonitoring => o.operatorRuleCrd == NoAnswer
    case Korrel8r => (Telemetry(spec) || spec.logs.Some?) && o.korrel8rReady == NoAnswer
    case Perses => (MetricsStorage(spec) || TracesStorage(spec)) && o.persesFound && o.persesCrd == NoAnswer
    case PersesTempoIntegration =>
      && o.persesFound
      && (|| o.tempoDatasourceCrd == NoAnswer || o.tempoDashboardCrd == NoAnswer
          || (&& !TracesStorage(spec) && !o.tempoCleanup
              && (o.tempoDatasourceCrd == Yes || o.tempoDashboardCrd == Yes)))
    case PersesPrometheusIntegration =>
      && MetricsStorage(spec) && o.persesFound
      && (o.prometheusDatasourceCrd == NoAnswer || (o.prometheusDatasourceCrd == Yes && !o.legacyCleanup))
    case _ => false
  }

  lemma ActionFailsExactly(a: Action, spec: Spec, o: CoreObs)
    ensures RunAction(a, spec, o).failed <==> Breaks(a, spec, o)
  {
  }

  lemma {:induction false} ActionsFailExactly(actions: seq<Action>, spec: Spec, o: CoreObs)
    ensures RunActions(actions, spec, o).failed <==> exists a :: a in actions && Breaks(a, spec, o)
  {
    hide RunAction;
    hide Breaks;
    if actions != [] {
      ActionsFailExactly(actions[1..], spec, o);
      ActionFailsExactly(actions[0], spec, o);
      assert forall a :: a in actions <==> a == actions[0] || a in actions[1..];
    }
  }

  ghost predicate CoreBreaks(spec: Spec, o: CoreObs) {
    exists a :: Breaks(a, spec, o)
  }

  /** The core actions fail exactly when one of them does. */
  lemma CoreFailsExactly(spec: Spec, o: CoreObs)
    ensures RunActions(ACTIONS, spec, o).failed <==> CoreBreaks(spec, o)
  {
    hide RunActions;
    hide Breaks;
    ActionsFailExactly(ACTIONS, spec, o);
    if a :| Breaks(a, spec, o) { EveryActionRuns(a); }
  }

  // ---- Pipelines ----

  predicate StackBreaks(configured: bool, o: StackObs) {
    configured && (o.crd == NoAnswer || (o.crd == Yes && o.ready == NoAnswer))
  }

  predicate UsageBreaks(spec: Spec, o: UsageObs, endpoint: string) {
    || StackBreaks(UsageStorage(spec), o.stack)
    || (&& CollectorConfigured(spec) && !AwaitsEndpoint(spec, endpoint)
        && (|| (spec.usageLogs.value.namesCredential && spec.usageLogs.value.exporters > 0 && o.credential == NoAnswer)
            || (!CredentialMissing(spec, o) && o.collectorCrd == NoAnswer)))
  }

  predicate ForwardingBreaks(spec: Spec, o: ForwarderObs) {
    && spec.logs.Some?
    && (|| StackBreaks(true, o.stack)
        || o.crd == NoAnswer
        || (o.crd == Yes && (|| o.lokiCrd == NoAnswer
                             || (o.lokiCrd == Yes && (o.lokiReady == NoAnswer || (o.lokiReady == Yes && o.ready == NoAnswer))))))
  }

  lemma UsageFailsExactly(spec: Spec, o: UsageObs, endpoint: string)
    ensures DeployUsageLogs(spec, o, endpoint).failed <==> UsageBreaks(spec, o, endpoint)
  {
  }

  lemma ForwardingFailsExactly(spec: Spec, o: ForwarderObs)
    ensures DeployLogForwarding(spec, o).failed <==> ForwardingBreaks(spec, o)
  {
  }

  // ---- Plans ----

  ghost predicate PlanBreaks(env: Env, spec: Spec, obs: Obs, endpoint: string) {
    || CoreBreaks(spec, obs.core)
    || !obs.renders
    || (&& GateFor(env, spec, obs.secret).Clean?
        && (UsageBreaks(spec, obs.usage, endpoint) || ForwardingBreaks(spec, obs.forwarder)))
  }

  /** A plan fails exactly when a core action does, the templates do not render, or the gate
      is clean and a pipeline fails. */
  lemma PlanFailsExactly(env: Env, spec: Spec, obs: Obs, endpoint: string)
    ensures MakePlan(env, spec, obs, endpoint).failed <==> PlanBreaks(env, spec, obs, endpoint)
  {
    hide RunActions;
    hide ValidateStorage;
    hide CoreBreaks;
    hide UsageBreaks;
    hide ForwardingBreaks;
    hide GateFor;
    hide DeployPipeline;
    CoreFailsExactly(spec, obs.core);
    TwoPipelines(spec, obs, endpoint, ValidateStorage(env, spec, obs.secret));
    PipelinesFail(env, spec, obs, endpoint);
  }

  lemma PipelinesFail(env: Env, spec: Spec, obs: Obs, endpoint: string)
    ensures var gated := ValidateStorage(env, spec, obs.secret);
            var clean := GateFor(env, spec, obs.secret).Clean?;
            && (DeployPipeline(LokiUsageLogs, spec, obs, endpoint, gated).failed <==> clean && UsageBreaks(spec, obs.usage, endpoint))
            && (DeployPipeline(LokiLogs, spec, obs, endpoint, gated).failed <==> clean && ForwardingBreaks(spec, obs.forwarder))
  {
    hide ValidateStorage;
    hide GateFor;
    hide DeployUsageLogs;
    hide DeployLogForwarding;
    hide UsageBreaks;
    hide ForwardingBreaks;
    GateShape(env, spec, obs.secret);
    UsageFailsExactly(spec, obs.usage, endpoint);
    ForwardingFailsExactly(spec, obs.forwarder);
  }

  // ---- Rounds ----

  /** What can fail once the round got as far as rendering. */
  ghost predicate WorkBreaks(env: Env, spec: Spec, obs: Obs, s: State) {
    || PlanBreaks(env, spec, obs, s.status.usageLogsEndpoint)
    || CaOf(env, spec, obs, s).failed
    || obs.deployStopped.Some?
    || !obs.policyCleanup
    || !GateFor(env, spec, obs.secret).Clean?
  }

  lemma WorkFailsExactly(env: Env, spec: Spec, obs: Obs, s: State)
    requires Plans(env, spec, obs)
    ensures Reconcile(env, spec, obs, s).outcome.failed <==> WorkBreaks(env, spec, obs, s)
  {
    hide MakePlan;
    hide ValidateStorage;
    hide PrepareCA;
    hide CollectGarbage;
    hide DeleteAllOwned;
    hide Aggregate;
    hide Publish;
    hide GateFor;
    hide PlanBreaks;
    hide DeferredRequeue;
    var endpoint := s.status.usageLogsEndpoint;
    PlanFailsExactly(env, spec, obs, endpoint);
    if !MakePlan(env, spec, obs, endpoint).failed {
      PlanShape(env, spec, obs, endpoint);
      GateShape(env, spec, obs.secret);
    }
  }

  /** A round returns an error exactly when the version cannot be read; or it is Removed and
      its sweep reports an error; or, past the namespace check, the preconditions cannot be
      determined; or, with the operators there, the probe or the TLS profile fails, or the
      data is built and the plan, the CA step, the deploy, the cleanup or the gate fails. */
  lemma RoundFailsExactly(env: Env, spec: Spec, obs: Obs, s: State)
    ensures Reconcile(env, spec, obs, s).outcome.failed <==>
            || obs.platformVersion.Unreadable?
            || (spec.removed && !CollectGarbage(Owner(env.uid, EffectiveNamespace(env, spec)), env.allowed, Kept({}, {}), obs.sweep, s.live).ok)
            || (&& !spec.removed && !NamespaceConflict(env, spec)
                && (|| obs.preconditions.PreconditionsUnknown?
                    || (&& obs.preconditions.Met?
                        && (!obs.persesProbed || obs.data.TlsUnresolved? || (obs.data.Built? && WorkBreaks(env, spec, obs, s))))))
  {
    hide Reconcile;
    hide CollectGarbage;
    hide WorkBreaks;
    if obs.platformVersion.Unreadable? {
      UnansweredReadFails(env, spec, obs, s);
    } else if spec.removed {
      RemovedRound(env, spec, obs, s);
    } else if NamespaceConflict(env, spec) {
      NamespaceExit(env, spec, obs, s);
    } else if obs.preconditions.OperatorsMissing? {
      OperatorsExit(env, spec, obs, s);
    } else if obs.preconditions.PreconditionsUnknown? || !obs.persesProbed || obs.data.TlsUnresolved? {
      UnansweredReadFails(env, spec, obs, s);
    } else if obs.data.Misconfigured? {
      ConfigurationExit(env, spec, obs, s);
    } else {
      WorkFailsExactly(env, spec, obs, s);
    }
  }
}
