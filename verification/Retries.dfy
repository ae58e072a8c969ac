/** When a round comes back by itself, read off what it was given and what it observed. */
module Retries {
  import opened Conditions
  import opened Cluster
  import opened Monitoring
  import opened PlanProperties
  import opened Round
  import opened RoundProperties

  /** A round that completed without an error. */
  ghost predicate Succeeds(env: Env, spec: Spec, obs: Obs, s: State) {
    Completes(env, spec, obs, s) && !Reconcile(env, spec, obs, s).outcome.failed
  }

  ghost function EndConditions(env: Env, spec: Spec, obs: Obs, s: State): Marks {
    Reconcile(env, spec, obs, s).state.status.conditions
  }

  predicate CollectorConfigured(spec: Spec) {
    spec.usageLogs.Some? && (spec.usageLogs.value.storage.Some? || spec.usageLogs.value.exporters > 0)
  }

  /** The collector waits for an endpoint that no earlier round has published. */
  predicate AwaitsEndpoint(spec: Spec, endpoint: string) {
    UsageStorage(spec) && endpoint == ""
  }

  predicate CredentialMissing(spec: Spec, o: UsageObs) {
    && spec.usageLogs.Some? && spec.usageLogs.value.namesCredential && spec.usageLogs.value.exporters > 0
    && o.credential == No
  }

  /** The OpenTelemetry collector is there and ready, wherever it is configured. */
  predicate TelemetryReady(spec: Spec, o: CoreObs) {
    spec.metrics.Some? || spec.traces.Some? ==> o.collectorCrd == Yes && o.collectorReady == Yes
  }

  predicate UsageStackReady(spec: Spec, o: UsageObs) {
    UsageStorage(spec) ==> o.stack == StackObs(Yes, Yes)
  }

  // ---- Conditions at the end of a round, from its inputs ----

  lemma SucceedsUnrefused(env: Env, spec: Spec, obs: Obs, s: State)
    requires Succeeds(env, spec, obs, s)
    ensures var plan := PlanOf(env, spec, obs, s); !plan.failed && !plan.refused
    ensures ValidateStorage(env, spec, obs.secret).withheld == {}
  {
    hide Body;
    hide MakePlan;
    hide ValidateStorage;
    hide Conclude;
    hide PrepareCA;
    CompletedShape(env, spec, obs, s);
    ConcludeWrites(env, spec, obs, s, WorkMarks(env, spec, obs, s), CaOf(env, spec, obs, s).caSecret,
                   TraceOf(env, spec, obs, s));
    PlanShape(env, spec, obs, s.status.usageLogsEndpoint);
    GateShape(env, spec, obs.secret);
  }

  lemma UsageStackMark(spec: Spec, o: UsageObs, endpoint: string)
    requires !DeployUsageLogs(spec, o, endpoint).failed
    ensures var marks := DeployUsageLogs(spec, o, endpoint).marks;
            UsageStorage(spec) ==> (HasStatus(marks, Feature(UsageLogsLokiStackAvailable), True) <==> o.stack == StackObs(Yes, Yes))
  {
    hide DeployUsageLogsCollector;
    CollectorMarks(spec, o, endpoint);
  }

  lemma UsageCollectorMark(spec: Spec, o: UsageObs, endpoint: string)
    requires !DeployUsageLogs(spec, o, endpoint).failed
    ensures var marks := DeployUsageLogs(spec, o, endpoint).marks;
            && (HasStatus(marks, Feature(UsageLogsCollectorAvailable), True) <==>
                CollectorConfigured(spec) && !AwaitsEndpoint(spec, endpoint) && !CredentialMissing(spec, o) && o.collectorCrd == Yes)
            && (AwaitingCredential(marks) <==> !AwaitsEndpoint(spec, endpoint) && CredentialMissing(spec, o))
  {
    hide DeployLokiStack;
    var templates := [UsageLogsLokiStackTemplate, UsageLogsLokiStackPolicy];
    StackMarks(UsageStorage(spec), o.stack, UsageLogsLokiStackAvailable, templates);
  }

  /** The usage logs conditions after a round that succeeds: the stack's is True exactly when
      the stack was found ready; the collector's exactly when it is configured, its endpoint
      was published before the round, and neither credential nor CRD is missing. */
  lemma UsageConditionsExactly(env: Env, spec: Spec, obs: Obs, s: State)
    requires Succeeds(env, spec, obs, s)
    ensures var conditions := EndConditions(env, spec, obs, s);
            var endpoint := s.status.usageLogsEndpoint;
            && (UsageStorage(spec) ==>
                  (HasStatus(conditions, Feature(UsageLogsLokiStackAvailable), True) <==> UsageStackReady(spec, obs.usage)))
            && (HasStatus(conditions, Feature(UsageLogsCollectorAvailable), True) <==>
                && CollectorConfigured(spec) && !AwaitsEndpoint(spec, endpoint)
                && !CredentialMissing(spec, obs.usage) && obs.usage.collectorCrd == Yes)
            && (AwaitingCredential(conditions) <==> !AwaitsEndpoint(spec, endpoint) && CredentialMissing(spec, obs.usage))
  {
    hide Body;
    hide Finish;
    hide MakePlan;
    hide ValidateStorage;
    hide DeployUsageLogs;
    hide DeployLogForwarding;
    var endpoint := s.status.usageLogsEndpoint;
    SucceedsUnrefused(env, spec, obs, s);
    PlanShape(env, spec, obs, endpoint);
    assert LOKI_COMPONENTS[0] == LokiUsageLogs;
    PlanPipelineMarks(env, spec, obs, endpoint, LokiUsageLogs);
    UsageStackMark(spec, obs.usage, endpoint);
    UsageCollectorMark(spec, obs.usage, endpoint);
    LogConditions(env, spec, obs, s, UsageLogsLokiStackAvailable);
    LogConditions(env, spec, obs, s, UsageLogsCollectorAvailable);
  }

  lemma TelemetryMark(spec: Spec, o: CoreObs)
    requires !RunAction(OpenTelemetryCollector, spec, o).failed && (spec.metrics.Some? || spec.traces.Some?)
    ensures var marks := RunAction(OpenTelemetryCollector, spec, o).marks;
            && Feature(OpenTelemetryCollectorAvailable) in marks
            && (HasStatus(marks, Feature(OpenTelemetryCollectorAvailable), True) <==> TelemetryReady(spec, o))
  {
  }

  /** The OpenTelemetry collector's condition after a round that succeeds. */
  lemma TelemetryConditionExactly(env: Env, spec: Spec, obs: Obs, s: State)
    requires Succeeds(env, spec, obs, s)
    ensures CollectorAwaitsReadiness(spec, EndConditions(env, spec, obs, s)) <==> !TelemetryReady(spec, obs.core)
  {
    hide Body;
    hide Finish;
    hide MakePlan;
    hide RunActions;
    hide RunAction;
    hide ValidateStorage;
    hide DeployPipeline;
    if spec.metrics.Some? || spec.traces.Some? {
      var f, endpoint := OpenTelemetryCollectorAvailable, s.status.usageLogsEndpoint;
      SucceedsUnrefused(env, spec, obs, s);
      PlanShape(env, spec, obs, endpoint);
      EveryActionRuns(OpenTelemetryCollector);
      ActionsKeepMarks(ACTIONS, spec, obs.core, OpenTelemetryCollector);
      TelemetryMark(spec, obs.core);
      ActionsWrite(ACTIONS, spec, obs.core, Feature(f));
      LogsLeaveCore(env, spec, obs, endpoint, f);
      PlannedConditions(env, spec, obs, s, f);
    }
  }

  lemma CaReadyWithoutMetrics(env: Env, spec: Spec, obs: Obs, s: State)
    requires Completes(env, spec, obs, s) && !MetricsStorage(spec)
    ensures CaOf(env, spec, obs, s).ready
  {
    hide Body;
    hide MakePlan;
    CompletedShape(env, spec, obs, s);
  }

  // ---- Which rounds do not come back by themselves ----

  /** On its inputs and the outcome of its sweep: a round that succeeds returns no requeue
      if and only if neither log forwarding nor metrics storage is configured, the sweep
      reported no error, the configured collector and stack were found ready, and no
      credential is awaited. */
  lemma NoRequeueExactly(env: Env, spec: Spec, obs: Obs, s: State)
    requires Succeeds(env, spec, obs, s)
    ensures var r := Reconcile(env, spec, obs, s);
            r.outcome.requeue == 0 <==>
            && spec.logs.None? && !MetricsStorage(spec) && r.outcome.trace.swept.ok
            && UsageStackReady(spec, obs.usage) && TelemetryReady(spec, obs.core)
            && (AwaitsEndpoint(spec, s.status.usageLogsEndpoint) || !CredentialMissing(spec, obs.usage))
  {
    hide Body;
    hide Finish;
    hide MakePlan;
    hide PrepareCA;
    hide CollectorAwaitsReadiness;
    hide AwaitingCredential;
    NoLostRetry(env, spec, obs, s);
    UsageConditionsExactly(env, spec, obs, s);
    TelemetryConditionExactly(env, spec, obs, s);
    TraceIsCompleted(env, spec, obs, s);
    if !MetricsStorage(spec) { CaReadyWithoutMetrics(env, spec, obs, s); }
  }

  lemma TraceIsCompleted(env: Env, spec: Spec, obs: Obs, s: State)
    requires Completes(env, spec, obs, s)
    ensures Reconcile(env, spec, obs, s).outcome.trace == TraceOf(env, spec, obs, s)
  {
    hide Body;
    hide MakePlan;
    hide PrepareCA;
    hide Aggregate;
    hide Publish;
    CompletedShape(env, spec, obs, s);
  }

  /** A configured usage logs collector is left not True and without a retry in exactly two
      ways: its endpoint is published by this very round, or its CRD is missing and no
      credential is; and nothing else brings the round back. */
  lemma UnretriedCollectorExactly(env: Env, spec: Spec, obs: Obs, s: State)
    requires Succeeds(env, spec, obs, s) && CollectorConfigured(spec)
    ensures var r := Reconcile(env, spec, obs, s);
            r.outcome.requeue == 0 && !HasStatus(r.state.status.conditions, Feature(UsageLogsCollectorAvailable), True) <==>
            && spec.logs.None? && !MetricsStorage(spec) && r.outcome.trace.swept.ok
            && UsageStackReady(spec, obs.usage) && TelemetryReady(spec, obs.core)
            && (|| AwaitsEndpoint(spec, s.status.usageLogsEndpoint)
                || (obs.usage.collectorCrd == No && !CredentialMissing(spec, obs.usage)))
  {
    hide Body;
    hide Finish;
    hide MakePlan;
    NoRequeueExactly(env, spec, obs, s);
    UsageConditionsExactly(env, spec, obs, s);
    CollectorCrdAnswered(env, spec, obs, s);
  }

  /** Behind endpoint and credential the CRD was asked for and answered. */
  lemma CollectorCrdAnswered(env: Env, spec: Spec, obs: Obs, s: State)
    requires Succeeds(env, spec, obs, s) && CollectorConfigured(spec)
    ensures AwaitsEndpoint(spec, s.status.usageLogsEndpoint) || CredentialMissing(spec, obs.usage) || obs.usage.collectorCrd != NoAnswer
  {
    hide Body;
    hide MakePlan;
    hide ValidateStorage;
    hide DeployLokiStack;
    hide DeployLogForwarding;
    SucceedsUnrefused(env, spec, obs, s);
    PlanShape(env, spec, obs, s.status.usageLogsEndpoint);
  }
}
