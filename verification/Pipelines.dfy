/** What the log pipelines report and render, on the spec and their observations. */
module Pipelines {
  import opened Conditions
  import opened Cluster
  import opened Monitoring
  import opened PlanProperties
  import opened Round
  import opened RoundProperties
  import opened Retries
  import opened Exits

  /** A pipeline that is not withheld contributes its own effect to a plan. */
  lemma OpenPlan(env: Env, spec: Spec, obs: Obs, endpoint: string)
    requires !MakePlan(env, spec, obs, endpoint).failed && !MakePlan(env, spec, obs, endpoint).refused
    ensures var plan := MakePlan(env, spec, obs, endpoint);
            var usage, logs := DeployUsageLogs(spec, obs.usage, endpoint), DeployLogForwarding(spec, obs.forwarder);
            && !usage.failed && !logs.failed
            && (forall f: Feature | f.UsageLogsLokiStackAvailable? || f.UsageLogsCollectorAvailable? ::
                  Feature(f) in plan.marks && Feature(f) in usage.marks && plan.marks[Feature(f)] == usage.marks[Feature(f)])
            && (forall f: Feature | f.LokiStackAvailable? || f.ClusterLogForwarderAvailable? ::
                  Feature(f) in plan.marks && Feature(f) in logs.marks && plan.marks[Feature(f)] == logs.marks[Feature(f)])
            && (forall t :: UsageTemplate(t) ==> (t in plan.sources <==> t in usage.sources))
            && (forall t :: ForwardingTemplate(t) ==> (t in plan.sources <==> t in logs.sources))
  {
    hide MakePlan;
    hide ValidateStorage;
    hide DeployUsageLogs;
    hide DeployLogForwarding;
    PlanShape(env, spec, obs, endpoint);
    GateShape(env, spec, obs.secret);
    assert LOKI_COMPONENTS[0] == LokiUsageLogs && LOKI_COMPONENTS[1] == LokiLogs;
    PlanPipelineMarks(env, spec, obs, endpoint, LokiUsageLogs);
    PlanPipelineMarks(env, spec, obs, endpoint, LokiLogs);
    forall t | UsageTemplate(t) || ForwardingTemplate(t)
      ensures UsageTemplate(t) ==>
                (t in MakePlan(env, spec, obs, endpoint).sources <==> t in DeployUsageLogs(spec, obs.usage, endpoint).sources)
      ensures ForwardingTemplate(t) ==>
                (t in MakePlan(env, spec, obs, endpoint).sources <==> t in DeployLogForwarding(spec, obs.forwarder).sources)
    {
      PipelineSources(env, spec, obs, endpoint, t);
    }
  }

  // ---- Stacks ----

  /** How a stack that was looked at ends: off, without its operator, not ready or ready. */
  predicate StackReports(c: Condition, configured: bool, o: StackObs) {
    && (!configured ==> c == Condition(False, NotRequired, true))
    && (configured && o.crd == No ==> c == Condition(False, MissingOperator, false))
    && (configured && o.crd == Yes && o.ready == No ==> c == Condition(False, LokiStackNotReady, false))
    && (configured && o.crd == Yes && o.ready == Yes ==> c == Condition(True, Available, false))
    && (configured ==> o.crd == No || (o.crd == Yes && o.ready != NoAnswer))
  }

  lemma UsageStackReports(spec: Spec, o: UsageObs, endpoint: string)
    requires !DeployUsageLogs(spec, o, endpoint).failed
    ensures var e := DeployUsageLogs(spec, o, endpoint);
            && Feature(UsageLogsLokiStackAvailable) in e.marks
            && StackReports(e.marks[Feature(UsageLogsLokiStackAvailable)], UsageStorage(spec), o.stack)
    ensures forall t: Template :: t.UsageLogsLokiStackTemplate? || t.UsageLogsLokiStackPolicy? ==>
              (t in DeployUsageLogs(spec, o, endpoint).sources <==> UsageStorage(spec) && o.stack.crd == Yes)
  {
    hide DeployUsageLogsCollector;
    CollectorMarks(spec, o, endpoint);
    CollectorTemplates(spec, o, endpoint);
  }

  lemma ForwardingStackReports(spec: Spec, o: ForwarderObs)
    requires !DeployLogForwarding(spec, o).failed
    ensures var e := DeployLogForwarding(spec, o);
            && Feature(LokiStackAvailable) in e.marks
            && StackReports(e.marks[Feature(LokiStackAvailable)], spec.logs.Some?, o.stack)
    ensures forall t: Template :: t.LokiStackTemplate? || t.LokiStackPolicy? || t.LokiStackGatewayPolicy? ==>
              (t in DeployLogForwarding(spec, o).sources <==> spec.logs.Some? && o.stack.crd == Yes)
  {
    hide DeployClusterLogForwarder;
    ForwarderMarks(spec, o);
    ForwarderTemplates(spec, o);
  }

  // ---- Workloads ----

  /** How the collector ends, in the order in which it is asked about. */
  predicate CollectorReports(c: Condition, spec: Spec, o: UsageObs, endpoint: string) {
    if !CollectorConfigured(spec) then c == Condition(False, NotConfigured, true)
    else if AwaitsEndpoint(spec, endpoint) then c == Condition(False, LokiStackNotReady, false)
    else if CredentialMissing(spec, o) then c == Condition(False, CredentialNotFound, false)
    else if o.collectorCrd == No then c == Condition(False, CRDNotFound, false)
    else c == Condition(True, if UsageStorage(spec) then Available else ForwardingOnly, false)
  }

  lemma CollectorReportsSo(spec: Spec, o: UsageObs, endpoint: string)
    requires !DeployUsageLogs(spec, o, endpoint).failed
    ensures var e := DeployUsageLogs(spec, o, endpoint);
            var t := Feature(UsageLogsCollectorAvailable);
            && t in e.marks && CollectorReports(e.marks[t], spec, o, endpoint)
            && (forall u: Template :: u.UsageLogsCollectorTemplate? || u.UsageLogsCollectorRBAC? || u.UsageLogsCollectorPolicy? ==>
                  (u in e.sources <==> e.marks[t].status == True))
  {
    hide DeployLokiStack;
    var templates := [UsageLogsLokiStackTemplate, UsageLogsLokiStackPolicy];
    StackMarks(UsageStorage(spec), o.stack, UsageLogsLokiStackAvailable, templates);
    StackTemplates(UsageStorage(spec), o.stack, UsageLogsLokiStackAvailable, templates);
  }

  /** How the forwarder ends, in the order in which it is asked about. */
  predicate ForwarderReports(c: Condition, spec: Spec, o: ForwarderObs) {
    if spec.logs.None? then c == Condition(False, NotConfigured, true)
    else if o.crd == No || o.lokiCrd == No then c == Condition(False, CRDNotFound, false)
    else if o.lokiReady == No then c == Condition(False, LokiStackNotReady, false)
    else if o.ready == No then c == Condition(False, NotReady, false)
    else c == Condition(True, Available, false)
  }

  lemma ForwarderReportsSo(spec: Spec, o: ForwarderObs)
    requires !DeployLogForwarding(spec, o).failed
    ensures var e := DeployLogForwarding(spec, o);
            var t := Feature(ClusterLogForwarderAvailable);
            && t in e.marks && ForwarderReports(e.marks[t], spec, o)
            && (forall u: Template :: u.ForwarderTemplate? || u.ForwarderRBAC? || u.ForwarderPolicy? ==>
                  (u in e.sources <==> spec.logs.Some? && o.crd == Yes && o.lokiCrd == Yes))
  {
    hide DeployLokiStack;
    var templates := [LokiStackTemplate, LokiStackPolicy, LokiStackGatewayPolicy];
    StackMarks(spec.logs.Some?, o.stack, LokiStackAvailable, templates);
    StackTemplates(spec.logs.Some?, o.stack, LokiStackAvailable, templates);
  }

  // ---- A completed round that was not refused ----

  /** The four log conditions at the end of a completed round that was not refused. */
  lemma LogConditionsExactly(env: Env, spec: Spec, obs: Obs, s: State)
    requires Completes(env, spec, obs, s) && !PlanOf(env, spec, obs, s).refused
    ensures var c := Reconcile(env, spec, obs, s).state.status.conditions;
            var usage, collector := Feature(UsageLogsLokiStackAvailable), Feature(UsageLogsCollectorAvailable);
            var logs, forwarder := Feature(LokiStackAvailable), Feature(ClusterLogForwarderAvailable);
            && usage in c && StackReports(c[usage], UsageStorage(spec), obs.usage.stack)
            && collector in c && CollectorReports(c[collector], spec, obs.usage, s.status.usageLogsEndpoint)
            && logs in c && StackReports(c[logs], spec.logs.Some?, obs.forwarder.stack)
            && forwarder in c && ForwarderReports(c[forwarder], spec, obs.forwarder)
  {
    hide Reconcile;
    hide Completes;
    hide MakePlan;
    hide DeployUsageLogs;
    hide DeployLogForwarding;
    hide StackReports;
    hide CollectorReports;
    hide ForwarderReports;
    var endpoint := s.status.usageLogsEndpoint;
    LogConditions(env, spec, obs, s, UsageLogsLokiStackAvailable);
    LogConditions(env, spec, obs, s, UsageLogsCollectorAvailable);
    LogConditions(env, spec, obs, s, LokiStackAvailable);
    LogConditions(env, spec, obs, s, ClusterLogForwarderAvailable);
    OpenPlan(env, spec, obs, endpoint);
    UsageStackReports(spec, obs.usage, endpoint);
    CollectorReportsSo(spec, obs.usage, endpoint);
    ForwardingStackReports(spec, obs.forwarder);
    ForwarderReportsSo(spec, obs.forwarder);
  }

  /** The log templates of a plan that neither failed nor was refused. */
  lemma LogTemplatesExactly(env: Env, spec: Spec, obs: Obs, endpoint: string, t: Template)
    requires !MakePlan(env, spec, obs, endpoint).failed && !MakePlan(env, spec, obs, endpoint).refused
    requires UsageTemplate(t) || ForwardingTemplate(t)
    ensures t in MakePlan(env, spec, obs, endpoint).sources <==>
            match t
            case UsageLogsLokiStackTemplate => UsageStorage(spec) && obs.usage.stack.crd == Yes
            case UsageLogsLokiStackPolicy => UsageStorage(spec) && obs.usage.stack.crd == Yes
            case LokiStackTemplate => spec.logs.Some? && obs.forwarder.stack.crd == Yes
            case LokiStackPolicy => spec.logs.Some? && obs.forwarder.stack.crd == Yes
            case LokiStackGatewayPolicy => spec.logs.Some? && obs.forwarder.stack.crd == Yes
            case ForwarderTemplate => spec.logs.Some? && obs.forwarder.crd == Yes && obs.forwarder.lokiCrd == Yes
            case ForwarderRBAC => spec.logs.Some? && obs.forwarder.crd == Yes && obs.forwarder.lokiCrd == Yes
            case ForwarderPolicy => spec.logs.Some? && obs.forwarder.crd == Yes && obs.forwarder.lokiCrd == Yes
            case _ => && CollectorConfigured(spec) && !AwaitsEndpoint(spec, endpoint)
                      && !CredentialMissing(spec, obs.usage) && obs.usage.collectorCrd != No
  {
    hide MakePlan;
    hide DeployUsageLogs;
    hide DeployLogForwarding;
    OpenPlan(env, spec, obs, endpoint);
    UsageStackReports(spec, obs.usage, endpoint);
    CollectorReportsSo(spec, obs.usage, endpoint);
    ForwardingStackReports(spec, obs.forwarder);
    ForwarderReportsSo(spec, obs.forwarder);
  }

  // ---- Reads that are not answered ----

  /** The stack's CRD or its readiness could not be read. */
  predicate Unanswered(o: StackObs) {
    o.crd == NoAnswer || (o.crd == Yes && o.ready == NoAnswer)
  }

  predicate UsageAnswered(o: UsageObs) {
    !Unanswered(o.stack) && o.credential != NoAnswer && o.collectorCrd != NoAnswer
  }

  function UnansweredReason(o: StackObs): Reason {
    if o.crd == NoAnswer then LokiCRDCheckFailed else ReadinessCheckFailed
  }

  lemma UnansweredUsagePlan(env: Env, spec: Spec, obs: Obs, endpoint: string)
    requires !RunActions(ACTIONS, spec, obs.core).failed && GateFor(env, spec, obs.secret).Clean?
    requires UsageStorage(spec) && Unanswered(obs.usage.stack)
    ensures var plan := MakePlan(env, spec, obs, endpoint);
            plan.failed && Exits.Holds(plan.marks, Feature(UsageLogsLokiStackAvailable),
                                       Condition(Unknown, UnansweredReason(obs.usage.stack), false))
  {
    hide RunActions;
    hide GateFor;
    hide DeployUsageLogsCollector;
    hide DeployLogForwarding;
    TwoPipelines(spec, obs, endpoint, ValidateStorage(env, spec, obs.secret));
  }

  /** Where the core actions succeed and the gate is clean, a usage logs stack that cannot be
      read fails the round with the stack Unknown; cluster and endpoints stay as they were. */
  lemma UnansweredUsageStack(env: Env, spec: Spec, obs: Obs, s: State)
    requires Plans(env, spec, obs) && !RunActions(ACTIONS, spec, obs.core).failed && GateFor(env, spec, obs.secret).Clean?
    requires UsageStorage(spec) && Unanswered(obs.usage.stack)
    ensures var r := Reconcile(env, spec, obs, s);
            && r.outcome.failed && KeepsAllButConditions(s, r.state)
            && Exits.Holds(r.state.status.conditions, Feature(UsageLogsLokiStackAvailable),
                           Condition(Unknown, UnansweredReason(obs.usage.stack), false))
  {
    hide Reconcile;
    hide MakePlan;
    hide RunActions;
    hide GateFor;
    UnansweredUsagePlan(env, spec, obs, s.status.usageLogsEndpoint);
    FailedPlanAborts(env, spec, obs, s);
  }

  lemma AnsweredUsageSucceeds(spec: Spec, o: UsageObs, endpoint: string)
    requires UsageAnswered(o)
    ensures !DeployUsageLogs(spec, o, endpoint).failed
    ensures Feature(LokiStackAvailable) !in DeployUsageLogs(spec, o, endpoint).marks
  {
    UsageMarks(spec, o, endpoint);
  }

  lemma UnansweredLogsPlan(env: Env, spec: Spec, obs: Obs, endpoint: string)
    requires !RunActions(ACTIONS, spec, obs.core).failed && GateFor(env, spec, obs.secret).Clean?
    requires UsageAnswered(obs.usage) && spec.logs.Some? && Unanswered(obs.forwarder.stack)
    ensures var plan := MakePlan(env, spec, obs, endpoint);
            plan.failed && Exits.Holds(plan.marks, Feature(LokiStackAvailable),
                                       Condition(Unknown, UnansweredReason(obs.forwarder.stack), false))
  {
    hide RunActions;
    hide GateFor;
    hide DeployUsageLogs;
    hide DeployClusterLogForwarder;
    AnsweredUsageSucceeds(spec, obs.usage, endpoint);
    TwoPipelines(spec, obs, endpoint, ValidateStorage(env, spec, obs.secret));
  }

  /** The same of the log forwarding stack, where the usage logs reads were answered. */
  lemma UnansweredLogsStack(env: Env, spec: Spec, obs: Obs, s: State)
    requires Plans(env, spec, obs) && !RunActions(ACTIONS, spec, obs.core).failed && GateFor(env, spec, obs.secret).Clean?
    requires UsageAnswered(obs.usage) && spec.logs.Some? && Unanswered(obs.forwarder.stack)
    ensures var r := Reconcile(env, spec, obs, s);
            && r.outcome.failed && KeepsAllButConditions(s, r.state)
            && Exits.Holds(r.state.status.conditions, Feature(LokiStackAvailable),
                           Condition(Unknown, UnansweredReason(obs.forwarder.stack), false))
  {
    hide Reconcile;
    hide MakePlan;
    hide RunActions;
    hide GateFor;
    UnansweredLogsPlan(env, spec, obs, s.status.usageLogsEndpoint);
    FailedPlanAborts(env, spec, obs, s);
  }
}
