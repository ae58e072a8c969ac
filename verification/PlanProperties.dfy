/** What the deploy actions, the storage gate and the pipelines contribute to a plan. */
module PlanProperties {
  import opened Text
  import opened Conditions
  import opened Cluster
  import opened Isolation
  import opened StorageIsolation
  import opened Monitoring

  // ---- Core actions ----

  /** The core action that reports on a feature. */
  function ActionOf(f: Feature): Option<Action> {
    match f
    case WebhookAvailable => Some(WebhookInfrastructure)
    case MonitoringStackAvailable => Some(MonitoringStackWithQuerier)
    case ThanosQuerierAvailable => Some(MonitoringStackWithQuerier)
    case TempoAvailable => Some(TracingStack)
    case InstrumentationAvailable => Some(TracingStack)
    case OpenTelemetryCollectorAvailable => Some(OpenTelemetryCollector)
    case AlertingAvailable => Some(Alerting)
    case NodeMetricsEndpointAvailable => Some(NodeMetricsEndpoint)
    case Korrel8rAvailable => Some(Korrel8r)
    case PersesAvailable => Some(Perses)
    case PersesTempoDataSourceAvailable => Some(PersesTempoIntegration)
    case PersesPrometheusDataSourceAvailable => Some(PersesPrometheusIntegration)
    case _ => None
  }

  predicate OwnMark(a: Action, t: Type) {
    t.Feature? && ActionOf(t.feature) == Some(a)
  }

  lemma ActionWritesItsOwn(a: Action, spec: Spec, o: CoreObs)
    ensures forall t :: t in RunAction(a, spec, o).marks ==> OwnMark(a, t)
  {
  }

  /** The one case in which an action leaves a feature of its own as it was: of the two CRDs
      behind the stack and the querier only the other one is missing. */
  predicate SiblingMissing(spec: Spec, o: CoreObs, f: Feature) {
    && MetricsStorage(spec)
    && (|| (f.MonitoringStackAvailable? && o.monitoringStackCrd == Yes && o.thanosQuerierCrd == No)
        || (f.ThanosQuerierAvailable? && o.thanosQuerierCrd == Yes && o.monitoringStackCrd == No))
  }

  function Sibling(f: Feature): Feature {
    if f.MonitoringStackAvailable? then ThanosQuerierAvailable else MonitoringStackAvailable
  }

  /** An action that did not fail wrote each feature it reports on, except in that case. */
  lemma ActionWritesExactly(a: Action, spec: Spec, o: CoreObs, f: Feature)
    requires ActionOf(f) == Some(a) && !RunAction(a, spec, o).failed
    ensures Feature(f) !in RunAction(a, spec, o).marks <==> SiblingMissing(spec, o, f)
    ensures SiblingMissing(spec, o, f) ==> RunAction(a, spec, o).marks == map[Feature(Sibling(f)) := FalseFor(CRDNotFound)]
  {
  }

  lemma {:induction false} ActionsWrite(actions: seq<Action>, spec: Spec, o: CoreObs, t: Type)
    ensures t in RunActions(actions, spec, o).marks ==>
            && t.Feature? && ActionOf(t.feature).Some? && ActionOf(t.feature).value in actions
            && t in RunAction(ActionOf(t.feature).value, spec, o).marks
            && RunActions(actions, spec, o).marks[t] == RunAction(ActionOf(t.feature).value, spec, o).marks[t]
  {
    if actions != [] {
      ActionsWrite(actions[1..], spec, o, t);
      ActionWritesItsOwn(actions[0], spec, o);
    }
  }

  lemma {:induction false} ActionsKeepMarks(actions: seq<Action>, spec: Spec, o: CoreObs, a: Action)
    requires !RunActions(actions, spec, o).failed && a in actions
    ensures !RunAction(a, spec, o).failed
    ensures RunAction(a, spec, o).marks.Keys <= RunActions(actions, spec, o).marks.Keys
  {
    if a != actions[0] {
      ActionsKeepMarks(actions[1..], spec, o, a);
    }
  }

  lemma EveryActionRuns(a: Action)
    ensures a in ACTIONS
  {
    match a
    case WebhookInfrastructure => assert ACTIONS[0] == a;
    case MonitoringAdmissionPolicies => assert ACTIONS[1] == a;
    case MonitoringStackWithQuerier => assert ACTIONS[2] == a;
    case TracingStack => assert ACTIONS[3] == a;
    case OpenTelemetryCollector => assert ACTIONS[4] == a;
    case Alerting => assert ACTIONS[5] == a;
    case OperatorMonitoring => assert ACTIONS[6] == a;
    case NodeMetricsEndpoint => assert ACTIONS[7] == a;
    case Korrel8r => assert ACTIONS[8] == a;
    case Perses => assert ACTIONS[9] == a;
    case PersesTempoIntegration => assert ACTIONS[10] == a;
    case PersesPrometheusIntegration => assert ACTIONS[11] == a;
  }

  /** Once the core actions ran, exactly such a feature of theirs is unwritten, and then its
      sibling is marked as missing. */
  lemma CoreUnwrittenExactly(spec: Spec, o: CoreObs, f: Feature)
    requires !RunActions(ACTIONS, spec, o).failed && ActionOf(f).Some?
    ensures var marks := RunActions(ACTIONS, spec, o).marks;
            && (Feature(f) !in marks <==> SiblingMissing(spec, o, f))
            && (SiblingMissing(spec, o, f) ==>
                  Feature(Sibling(f)) in marks && marks[Feature(Sibling(f))] == FalseFor(CRDNotFound))
  {
    hide RunAction;
    var a := ActionOf(f).value;
    EveryActionRuns(a);
    ActionsKeepMarks(ACTIONS, spec, o, a);
    ActionWritesExactly(a, spec, o, f);
    ActionsWrite(ACTIONS, spec, o, Feature(f));
    ActionsWrite(ACTIONS, spec, o, Feature(Sibling(f)));
  }

  /** Once the core actions ran, a feature of theirs was written or another is failing. */
  lemma CoreCoverage(spec: Spec, o: CoreObs, f: Feature)
    requires !RunActions(ACTIONS, spec, o).failed && ActionOf(f).Some?
    ensures Feature(f) in RunActions(ACTIONS, spec, o).marks || CoreFails(spec, o)
  {
    CoreUnwrittenExactly(spec, o, f);
    if Feature(f) !in RunActions(ACTIONS, spec, o).marks {
      assert ActionOf(Sibling(f)).Some? && Failing(RunActions(ACTIONS, spec, o).marks[Feature(Sibling(f))]);
    }
  }

  ghost predicate CoreFails(spec: Spec, o: CoreObs) {
    exists g :: ActionOf(g).Some? && Feature(g) in RunActions(ACTIONS, spec, o).marks &&
                Failing(RunActions(ACTIONS, spec, o).marks[Feature(g)])
  }

  lemma CoreLeavesLogs(spec: Spec, o: CoreObs, t: Type)
    requires t in RunActions(ACTIONS, spec, o).marks
    ensures t.Feature? && ActionOf(t.feature).Some?
  {
    ActionsWrite(ACTIONS, spec, o, t);
  }

  // ---- Templates of the log pipelines ----

  predicate UsageTemplate(t: Template) {
    || t.UsageLogsLokiStackTemplate? || t.UsageLogsLokiStackPolicy?
    || t.UsageLogsCollectorTemplate? || t.UsageLogsCollectorRBAC? || t.UsageLogsCollectorPolicy?
  }

  predicate ForwardingTemplate(t: Template) {
    || t.LokiStackTemplate? || t.LokiStackPolicy? || t.LokiStackGatewayPolicy?
    || t.ForwarderTemplate? || t.ForwarderRBAC? || t.ForwarderPolicy?
  }

  predicate TemplateOf(c: Component, t: Template) {
    if c == LokiUsageLogs then UsageTemplate(t) else ForwardingTemplate(t)
  }

  /** What a core action may add: no log template, and the stack only with metrics storage. */
  predicate CoreTemplate(spec: Spec, t: Template) {
    !UsageTemplate(t) && !ForwardingTemplate(t) && (t.MonitoringStackTemplate? ==> MetricsStorage(spec))
  }

  lemma ActionTemplates(a: Action, spec: Spec, o: CoreObs, t: Template)
    requires t in RunAction(a, spec, o).sources
    ensures CoreTemplate(spec, t)
  {
    hide DeployTracingStack;
    hide DeployCollector;
    if a == TracingStack { TracingTemplates(spec, o, t); }
    if a == OpenTelemetryCollector { CollectorActionTemplates(spec, o, t); }
  }

  lemma TracingTemplates(spec: Spec, o: CoreObs, t: Template)
    requires t in DeployTracingStack(spec, o).sources
    ensures CoreTemplate(spec, t)
  {
    hide DeployTempo;
    TempoTemplates(spec, o, t);
  }

  lemma TempoTemplates(spec: Spec, o: CoreObs, t: Template)
    ensures t in DeployTempo(spec, o).sources ==> CoreTemplate(spec, t)
  {
  }

  lemma CollectorActionTemplates(spec: Spec, o: CoreObs, t: Template)
    requires t in DeployCollector(spec, o).sources
    ensures CoreTemplate(spec, t)
  {
  }

  lemma {:induction false} CoreTemplates(actions: seq<Action>, spec: Spec, o: CoreObs, t: Template)
    requires t in RunActions(actions, spec, o).sources
    ensures CoreTemplate(spec, t)
  {
    if actions != [] {
      if t in RunAction(actions[0], spec, o).sources {
        ActionTemplates(actions[0], spec, o, t);
      } else {
        CoreTemplates(actions[1..], spec, o, t);
      }
    }
  }

  // ---- The two pipelines ----

  lemma TwoPipelines(spec: Spec, obs: Obs, endpoint: string, gated: Gated)
    ensures DeployPipelines(LOKI_COMPONENTS, spec, obs, endpoint, gated) ==
            Then(DeployPipeline(LokiUsageLogs, spec, obs, endpoint, gated),
                 DeployPipeline(LokiLogs, spec, obs, endpoint, gated))
  {
    var usage := DeployPipeline(LokiUsageLogs, spec, obs, endpoint, gated);
    var logs := DeployPipeline(LokiLogs, spec, obs, endpoint, gated);
    assert LOKI_COMPONENTS[1..] == [LokiLogs];
    assert [LokiLogs][1..] == [];
    assert DeployPipelines([LokiLogs], spec, obs, endpoint, gated) == Then(logs, NOTHING);
    assert logs.marks + map[] == logs.marks && logs.sources + [] == logs.sources;
  }

  /** The gate refuses both claimants or nobody. */
  lemma GateShape(env: Env, spec: Spec, read: SecretReader)
    ensures var gated := ValidateStorage(env, spec, read);
            var refused := !GateFor(env, spec, read).Clean?;
            && gated.refused == refused
            && (refused ==> UsageStorage(spec) && spec.logs.Some? && spec.logs.value.storage.Some?)
            && gated.withheld == (if refused then {LokiUsageLogs, LokiLogs} else {})
            && gated.marks == (if refused then map[Feature(UsageLogsLokiStackAvailable) := Refusal(GateFor(env, spec, read)),
                                                   Feature(LokiStackAvailable) := Refusal(GateFor(env, spec, read))]
                               else map[])
  {
    var claims := LogClaims(spec);
    ClaimsLength(claims);
    if |claims| == 2 {
      var c := Refusal(GateFor(env, spec, read));
      var first := claims[..1];
      assert first[..0] == [];
      assert Refuse(first, c).withheld == {LokiUsageLogs};
      assert Refuse(first, c).marks == map[Feature(UsageLogsLokiStackAvailable) := c];
      assert Refuse(claims, c).withheld == {LokiUsageLogs, LokiLogs};
    }
  }

  lemma {:induction false} ClaimsLength(claims: seq<LogClaim>)
    ensures |StorageClaims(claims)| == |claims|
    ensures forall i :: 0 <= i < |claims| ==> StorageClaims(claims)[i] == claims[i].claim
  {
    if claims != [] {
      ClaimsLength(claims[1..]);
    }
  }

  /** A pipeline adds only its own templates, and none when it is withheld. */
  lemma PipelineTemplates(c: Component, spec: Spec, obs: Obs, endpoint: string, gated: Gated, t: Template)
    requires c in LOKI_COMPONENTS && t in DeployPipeline(c, spec, obs, endpoint, gated).sources
    ensures TemplateOf(c, t) && c !in gated.withheld
  {
    hide DeployUsageLogs;
    hide DeployLogForwarding;
    if c == LokiUsageLogs {
      UsageTemplates(spec, obs.usage, endpoint, t);
    } else {
      ForwardingTemplates(spec, obs.forwarder, t);
    }
  }

  lemma UsageTemplates(spec: Spec, o: UsageObs, endpoint: string, t: Template)
    ensures t in DeployUsageLogs(spec, o, endpoint).sources ==> UsageTemplate(t)
  {
    hide DeployLokiStack;
    hide DeployUsageLogsCollector;
    var templates := [UsageLogsLokiStackTemplate, UsageLogsLokiStackPolicy];
    StackTemplates(UsageStorage(spec), o.stack, UsageLogsLokiStackAvailable, templates);
    CollectorTemplates(spec, o, endpoint);
  }

  lemma ForwardingTemplates(spec: Spec, o: ForwarderObs, t: Template)
    ensures t in DeployLogForwarding(spec, o).sources ==> ForwardingTemplate(t)
  {
    hide DeployLokiStack;
    hide DeployClusterLogForwarder;
    var templates := [LokiStackTemplate, LokiStackPolicy, LokiStackGatewayPolicy];
    StackTemplates(spec.logs.Some?, o.stack, LokiStackAvailable, templates);
    ForwarderTemplates(spec, o);
  }

  lemma StackTemplates(configured: bool, o: StackObs, f: Feature, templates: seq<Template>)
    ensures DeployLokiStack(configured, o, f, templates).sources in [[], templates]
  {
  }

  lemma CollectorTemplates(spec: Spec, o: UsageObs, endpoint: string)
    ensures DeployUsageLogsCollector(spec, o, endpoint).sources in [[], USAGE_COLLECTOR]
  {
  }

  lemma ForwarderTemplates(spec: Spec, o: ForwarderObs)
    ensures DeployClusterLogForwarder(spec, o).sources in [[], [ForwarderTemplate, ForwarderRBAC, ForwarderPolicy]]
  {
  }

  /** A withheld pipeline's dependent carries its stack's status and reason; a pipeline that
      ran to its end wrote both conditions. */
  lemma PipelineMarks(c: Component, env: Env, spec: Spec, obs: Obs, endpoint: string)
    requires c in LOKI_COMPONENTS
    ensures var gated := ValidateStorage(env, spec, obs.secret);
            var e := DeployPipeline(c, spec, obs, endpoint, gated);
            var stack, dependent := Feature(StackOf(c)), Feature(DependentOf(c));
            && (forall t :: t in e.marks ==> t in {stack, dependent})
            && (c in gated.withheld ==>
                  && stack in gated.marks && e.marks == map[dependent := gated.marks[stack]]
                  && gated.marks[stack].status != True && !e.failed)
            && (c !in gated.withheld && !e.failed ==> stack in e.marks && dependent in e.marks)
  {
    if c in ValidateStorage(env, spec, obs.secret).withheld {
      WithheldPipeline(c, env, spec, obs, endpoint);
    } else {
      OpenPipeline(c, spec, obs, endpoint, ValidateStorage(env, spec, obs.secret));
    }
  }

  lemma WithheldPipeline(c: Component, env: Env, spec: Spec, obs: Obs, endpoint: string)
    requires c in LOKI_COMPONENTS && c in ValidateStorage(env, spec, obs.secret).withheld
    ensures var gated := ValidateStorage(env, spec, obs.secret);
            var stack := Feature(StackOf(c));
            && stack in gated.marks && gated.marks[stack].status != True
            && DeployPipeline(c, spec, obs, endpoint, gated) ==
               Effect(map[Feature(DependentOf(c)) := gated.marks[stack]], [], false)
  {
    GateShape(env, spec, obs.secret);
    var refusal := Refusal(GateFor(env, spec, obs.secret));
    assert ValidateStorage(env, spec, obs.secret).marks[Feature(StackOf(c))] == refusal;
    assert refusal == FalseFor(refusal.reason) || refusal == UnknownFor(refusal.reason);
  }

  lemma OpenPipeline(c: Component, spec: Spec, obs: Obs, endpoint: string, gated: Gated)
    requires c in LOKI_COMPONENTS && c !in gated.withheld
    ensures var e := DeployPipeline(c, spec, obs, endpoint, gated);
            e.marks.Keys == {Feature(StackOf(c))} + (if e.failed then {} else {Feature(DependentOf(c))})
  {
    if c == LokiUsageLogs {
      UsageMarks(spec, obs.usage, endpoint);
    } else {
      ForwardingMarks(spec, obs.forwarder);
    }
  }

  lemma StackMarks(configured: bool, o: StackObs, f: Feature, templates: seq<Template>)
    ensures DeployLokiStack(configured, o, f, templates).marks.Keys == {Feature(f)}
  {
  }

  lemma CollectorMarks(spec: Spec, o: UsageObs, endpoint: string)
    ensures var e := DeployUsageLogsCollector(spec, o, endpoint);
            e.marks.Keys == if e.failed then {} else {Feature(UsageLogsCollectorAvailable)}
  {
  }

  lemma ForwarderMarks(spec: Spec, o: ForwarderObs)
    ensures var e := DeployClusterLogForwarder(spec, o);
            e.marks.Keys == if e.failed then {} else {Feature(ClusterLogForwarderAvailable)}
  {
  }

  lemma UsageMarks(spec: Spec, o: UsageObs, endpoint: string)
    ensures var e := DeployUsageLogs(spec, o, endpoint);
            e.marks.Keys == {Feature(UsageLogsLokiStackAvailable)} +
                            (if e.failed then {} else {Feature(UsageLogsCollectorAvailable)})
  {
    StackMarks(UsageStorage(spec), o.stack, UsageLogsLokiStackAvailable, [UsageLogsLokiStackTemplate, UsageLogsLokiStackPolicy]);
    CollectorMarks(spec, o, endpoint);
  }

  lemma ForwardingMarks(spec: Spec, o: ForwarderObs)
    ensures var e := DeployLogForwarding(spec, o);
            e.marks.Keys == {Feature(LokiStackAvailable)} +
                            (if e.failed then {} else {Feature(ClusterLogForwarderAvailable)})
  {
    StackMarks(spec.logs.Some?, o.stack, LokiStackAvailable, [LokiStackTemplate, LokiStackPolicy, LokiStackGatewayPolicy]);
    ForwarderMarks(spec, o);
  }

  // ---- Plans ----

  lemma PlanShape(env: Env, spec: Spec, obs: Obs, endpoint: string)
    requires !MakePlan(env, spec, obs, endpoint).failed
    ensures var gated := ValidateStorage(env, spec, obs.secret);
            var usage := DeployPipeline(LokiUsageLogs, spec, obs, endpoint, gated);
            var logs := DeployPipeline(LokiLogs, spec, obs, endpoint, gated);
            var core := RunActions(ACTIONS, spec, obs.core);
            var plan := MakePlan(env, spec, obs, endpoint);
            && !core.failed && !usage.failed && !logs.failed
            && plan.marks == core.marks + gated.marks + (usage.marks + logs.marks)
            && plan.sources == core.sources + (usage.sources + logs.sources)
            && plan.withheld == gated.withheld && plan.refused == gated.refused
  {
    TwoPipelines(spec, obs, endpoint, ValidateStorage(env, spec, obs.secret));
  }

  /** What a plan that did not fail says about one pipeline's two conditions. */
  lemma PlanPipelineMarks(env: Env, spec: Spec, obs: Obs, endpoint: string, c: Component)
    requires c in LOKI_COMPONENTS && !MakePlan(env, spec, obs, endpoint).failed
    ensures var gated := ValidateStorage(env, spec, obs.secret);
            var e := DeployPipeline(c, spec, obs, endpoint, gated);
            var plan := MakePlan(env, spec, obs, endpoint);
            var stack, dependent := Feature(StackOf(c)), Feature(DependentOf(c));
            && stack in plan.marks && dependent in plan.marks
            && dependent in e.marks && plan.marks[dependent] == e.marks[dependent]
            && (c in gated.withheld ==> stack in gated.marks && plan.marks[stack] == gated.marks[stack])
            && (c !in gated.withheld ==> stack in e.marks && plan.marks[stack] == e.marks[stack])
  {
    hide MakePlan;
    hide RunActions;
    hide ValidateStorage;
    hide DeployPipeline;
    PlanShape(env, spec, obs, endpoint);
    GateShape(env, spec, obs.secret);
    PipelineMarks(LokiUsageLogs, env, spec, obs, endpoint);
    PipelineMarks(LokiLogs, env, spec, obs, endpoint);
  }

  /** A withheld dependent always carries its stack's status and reason. */
  lemma WithheldDependentFollowsStack(env: Env, spec: Spec, obs: Obs, endpoint: string, c: Component)
    requires !MakePlan(env, spec, obs, endpoint).failed && c in MakePlan(env, spec, obs, endpoint).withheld
    ensures var plan := MakePlan(env, spec, obs, endpoint);
            var stack, dependent := Feature(StackOf(c)), Feature(DependentOf(c));
            stack in plan.marks && dependent in plan.marks && plan.marks[dependent] == plan.marks[stack]
  {
    PlanShape(env, spec, obs, endpoint);
    GateShape(env, spec, obs.secret);
    assert c in LOKI_COMPONENTS by { assert LOKI_COMPONENTS[0] == LokiUsageLogs && LOKI_COMPONENTS[1] == LokiLogs; }
    PlanPipelineMarks(env, spec, obs, endpoint, c);
    PipelineMarks(c, env, spec, obs, endpoint);
  }

  /** A plan that did not fail wrote every feature, or some feature it wrote is failing. */
  lemma PlanCoverage(env: Env, spec: Spec, obs: Obs, endpoint: string, f: Feature)
    requires !MakePlan(env, spec, obs, endpoint).failed
    ensures Feature(f) in MakePlan(env, spec, obs, endpoint).marks || PlanFails(env, spec, obs, endpoint)
  {
    hide MakePlan;
    hide RunActions;
    hide ValidateStorage;
    hide DeployPipeline;
    var plan := MakePlan(env, spec, obs, endpoint);
    PlanShape(env, spec, obs, endpoint);
    assert LOKI_COMPONENTS[0] == LokiUsageLogs && LOKI_COMPONENTS[1] == LokiLogs;
    if ActionOf(f).Some? {
      CoreCoverage(spec, obs.core, f);
      if Feature(f) !in plan.marks {
        var g :| ActionOf(g).Some? && Feature(g) in RunActions(ACTIONS, spec, obs.core).marks &&
                 Failing(RunActions(ACTIONS, spec, obs.core).marks[Feature(g)]);
        LogsLeaveCore(env, spec, obs, endpoint, g);
        assert Failing(plan.marks[Feature(g)]);
      }
    } else if f == UsageLogsLokiStackAvailable || f == UsageLogsCollectorAvailable {
      PlanPipelineMarks(env, spec, obs, endpoint, LokiUsageLogs);
    } else {
      PlanPipelineMarks(env, spec, obs, endpoint, LokiLogs);
    }
  }

  ghost predicate PlanFails(env: Env, spec: Spec, obs: Obs, endpoint: string) {
    exists g :: ActionOf(g).Some? && Feature(g) in MakePlan(env, spec, obs, endpoint).marks &&
                Failing(MakePlan(env, spec, obs, endpoint).marks[Feature(g)])
  }

  predicate LogMark(t: Type) {
    t.Feature? && ActionOf(t.feature).None?
  }

  lemma GateWritesLogs(env: Env, spec: Spec, read: SecretReader, t: Type)
    requires t in ValidateStorage(env, spec, read).marks
    ensures LogMark(t)
  {
    GateShape(env, spec, read);
  }

  lemma PipelineWritesLogs(c: Component, env: Env, spec: Spec, obs: Obs, endpoint: string, t: Type)
    requires t in DeployPipeline(c, spec, obs, endpoint, ValidateStorage(env, spec, obs.secret)).marks
    requires c in LOKI_COMPONENTS
    ensures LogMark(t)
  {
    hide ValidateStorage;
    hide DeployPipeline;
    PipelineMarks(c, env, spec, obs, endpoint);
  }

  lemma LayersKeep(core: Marks, gate: Marks, usage: Marks, logs: Marks, t: Type)
    requires t in core && t !in gate && t !in usage && t !in logs
    ensures t in core + gate + (usage + logs) && (core + gate + (usage + logs))[t] == core[t]
  {
  }

  /** Gate and pipelines leave the core features as the core actions wrote them. */
  lemma LogsLeaveCore(env: Env, spec: Spec, obs: Obs, endpoint: string, g: Feature)
    requires !MakePlan(env, spec, obs, endpoint).failed && ActionOf(g).Some?
    requires Feature(g) in RunActions(ACTIONS, spec, obs.core).marks
    ensures Feature(g) in MakePlan(env, spec, obs, endpoint).marks
    ensures MakePlan(env, spec, obs, endpoint).marks[Feature(g)] == RunActions(ACTIONS, spec, obs.core).marks[Feature(g)]
  {
    PlanShape(env, spec, obs, endpoint);
    var gated := ValidateStorage(env, spec, obs.secret);
    var usage := DeployPipeline(LokiUsageLogs, spec, obs, endpoint, gated).marks;
    var logs := DeployPipeline(LokiLogs, spec, obs, endpoint, gated).marks;
    var t := Feature(g);
    OnlyCoreWritesCore(env, spec, obs, endpoint, g);
    LayersKeep(RunActions(ACTIONS, spec, obs.core).marks, gated.marks, usage, logs, t);
  }

  /** A plan that did not fail leaves a feature unwritten exactly in that case. */
  lemma PlanUnwrittenExactly(env: Env, spec: Spec, obs: Obs, endpoint: string, f: Feature)
    requires !MakePlan(env, spec, obs, endpoint).failed
    ensures Feature(f) !in MakePlan(env, spec, obs, endpoint).marks <==> SiblingMissing(spec, obs.core, f)
  {
    hide MakePlan;
    hide RunActions;
    hide ValidateStorage;
    hide DeployPipeline;
    PlanShape(env, spec, obs, endpoint);
    if ActionOf(f).Some? {
      CoreUnwrittenExactly(spec, obs.core, f);
      OnlyCoreWritesCore(env, spec, obs, endpoint, f);
    } else {
      assert LOKI_COMPONENTS[0] == LokiUsageLogs && LOKI_COMPONENTS[1] == LokiLogs;
      PlanPipelineMarks(env, spec, obs, endpoint, LokiUsageLogs);
      PlanPipelineMarks(env, spec, obs, endpoint, LokiLogs);
    }
  }

  lemma OnlyCoreWritesCore(env: Env, spec: Spec, obs: Obs, endpoint: string, f: Feature)
    requires ActionOf(f).Some?
    ensures var gated := ValidateStorage(env, spec, obs.secret);
            && Feature(f) !in gated.marks
            && Feature(f) !in DeployPipeline(LokiUsageLogs, spec, obs, endpoint, gated).marks
            && Feature(f) !in DeployPipeline(LokiLogs, spec, obs, endpoint, gated).marks
  {
    hide ValidateStorage;
    hide DeployPipeline;
    var gated := ValidateStorage(env, spec, obs.secret);
    assert LOKI_COMPONENTS[0] == LokiUsageLogs && LOKI_COMPONENTS[1] == LokiLogs;
    var t := Feature(f);
    if t in gated.marks { GateWritesLogs(env, spec, obs.secret, t); }
    if t in DeployPipeline(LokiUsageLogs, spec, obs, endpoint, gated).marks {
      PipelineWritesLogs(LokiUsageLogs, env, spec, obs, endpoint, t);
    }
    if t in DeployPipeline(LokiLogs, spec, obs, endpoint, gated).marks {
      PipelineWritesLogs(LokiLogs, env, spec, obs, endpoint, t);
    }
  }

  // ---- Storage isolation of what is rendered ----

  /** A claimant's storage, as the Secret read in this round resolves it. */
  function StorageOf(env: Env, spec: Spec, obs: Obs, c: Component): Resolution<string>
    requires UsageStorage(spec) && spec.logs.Some? && spec.logs.value.storage.Some?
  {
    var name := if c == LokiUsageLogs then spec.usageLogs.value.storage.value else spec.logs.value.storage.value;
    ResolveSecret(env.parse, name, obs.secret(name))
  }

  ghost predicate DisjointStorage(a: Resolution<string>, b: Resolution<string>) {
    a.Locations? && b.Locations? && forall l :: l in a.locs ==> l !in b.locs
  }

  /** With both stacks claimed, the gate is clean exactly when the two Secrets resolve to
      disjoint locations. */
  lemma CleanGateMeansDisjoint(env: Env, spec: Spec, obs: Obs)
    requires UsageStorage(spec) && spec.logs.Some? && spec.logs.value.storage.Some?
    ensures GateFor(env, spec, obs.secret).Clean? <==>
            DisjointStorage(StorageOf(env, spec, obs, LokiUsageLogs), StorageOf(env, spec, obs, LokiLogs))
  {
    var claims := StorageClaims(LogClaims(spec));
    ClaimsLength(LogClaims(spec));
    var rs := Resolutions(Resolver(env.parse, obs.secret), claims);
    var a, b := StorageOf(env, spec, obs, LokiUsageLogs), StorageOf(env, spec, obs, LokiLogs);
    assert |rs| == 2 && rs[0] == a && rs[1] == b;
    AllResolved(rs);
    if a.Locations? && b.Locations? { TwoDisjoint(rs); }
  }

  lemma TwoDisjoint<L(!new)>(rs: seq<Resolution<L>>)
    requires |rs| == 2 && rs[0].Locations? && rs[1].Locations?
    ensures PairwiseDisjoint(rs) <==> forall l :: l in rs[0].locs ==> l !in rs[1].locs
  {
    forall l
      ensures Shared(rs, l) <==> l in rs[0].locs && l in rs[1].locs
    {
      if l in rs[0].locs && l in rs[1].locs {
        assert Holds(rs, 0, l) && Holds(rs, 1, l);
      }
    }
  }

  /** Both LokiStack templates are rendered only if both Secrets read in the round resolve
      to disjoint canonical locations. */
  lemma BothStacksOnlyIfDisjoint(env: Env, spec: Spec, obs: Obs, endpoint: string)
    requires Admitted(spec)
    requires UsageLogsLokiStackTemplate in MakePlan(env, spec, obs, endpoint).sources
    requires LokiStackTemplate in MakePlan(env, spec, obs, endpoint).sources
    ensures UsageStorage(spec) && spec.logs.Some? && spec.logs.value.storage.Some?
    ensures DisjointStorage(StorageOf(env, spec, obs, LokiUsageLogs), StorageOf(env, spec, obs, LokiLogs))
  {
    var core := RunActions(ACTIONS, spec, obs.core);
    var gated := ValidateStorage(env, spec, obs.secret);
    var usage := DeployPipeline(LokiUsageLogs, spec, obs, endpoint, gated);
    var logs := DeployPipeline(LokiLogs, spec, obs, endpoint, gated);
    assert LOKI_COMPONENTS[0] == LokiUsageLogs && LOKI_COMPONENTS[1] == LokiLogs;
    SourcesComeFrom(env, spec, obs, endpoint, UsageLogsLokiStackTemplate);
    SourcesComeFrom(env, spec, obs, endpoint, LokiStackTemplate);
    GateShape(env, spec, obs.secret);
    CleanGateMeansDisjoint(env, spec, obs);
  }

  /** A log template in a plan came from its own pipeline, which was not withheld. */
  lemma SourcesComeFrom(env: Env, spec: Spec, obs: Obs, endpoint: string, t: Template)
    requires t in MakePlan(env, spec, obs, endpoint).sources && (UsageTemplate(t) || ForwardingTemplate(t))
    ensures var gated := ValidateStorage(env, spec, obs.secret);
            var c := if UsageTemplate(t) then LokiUsageLogs else LokiLogs;
            t in DeployPipeline(c, spec, obs, endpoint, gated).sources && c !in gated.withheld
  {
    hide RunActions;
    hide ValidateStorage;
    hide DeployPipeline;
    var core := RunActions(ACTIONS, spec, obs.core);
    var gated := ValidateStorage(env, spec, obs.secret);
    if t in core.sources { CoreTemplates(ACTIONS, spec, obs.core, t); }
    assert LOKI_COMPONENTS[0] == LokiUsageLogs && LOKI_COMPONENTS[1] == LokiLogs;
    TwoPipelines(spec, obs, endpoint, gated);
    if t in DeployPipeline(LokiUsageLogs, spec, obs, endpoint, gated).sources {
      PipelineTemplates(LokiUsageLogs, spec, obs, endpoint, gated, t);
    }
    if t in DeployPipeline(LokiLogs, spec, obs, endpoint, gated).sources {
      PipelineTemplates(LokiLogs, spec, obs, endpoint, gated, t);
    }
  }

  /** A plan holds the MonitoringStack template only with metrics storage configured. */
  lemma StackTemplateNeedsStorage(env: Env, spec: Spec, obs: Obs, endpoint: string)
    requires MonitoringStackTemplate in MakePlan(env, spec, obs, endpoint).sources
    ensures MetricsStorage(spec)
  {
    hide RunActions;
    hide ValidateStorage;
    hide DeployPipeline;
    var t := MonitoringStackTemplate;
    var gated := ValidateStorage(env, spec, obs.secret);
    assert LOKI_COMPONENTS[0] == LokiUsageLogs && LOKI_COMPONENTS[1] == LokiLogs;
    TwoPipelines(spec, obs, endpoint, gated);
    if t in RunActions(ACTIONS, spec, obs.core).sources { CoreTemplates(ACTIONS, spec, obs.core, t); }
    if t in DeployPipeline(LokiUsageLogs, spec, obs, endpoint, gated).sources {
      PipelineTemplates(LokiUsageLogs, spec, obs, endpoint, gated, t);
    }
    if t in DeployPipeline(LokiLogs, spec, obs, endpoint, gated).sources {
      PipelineTemplates(LokiLogs, spec, obs, endpoint, gated, t);
    }
  }

  /** A refused plan renders no template of either log pipeline and withholds both. */
  lemma RefusedPlanRendersNoLogs(env: Env, spec: Spec, obs: Obs, endpoint: string, t: Template)
    requires MakePlan(env, spec, obs, endpoint).refused && (UsageTemplate(t) || ForwardingTemplate(t))
    ensures t !in MakePlan(env, spec, obs, endpoint).sources
    ensures MakePlan(env, spec, obs, endpoint).withheld == {LokiUsageLogs, LokiLogs}
  {
    GateShape(env, spec, obs.secret);
    if t in MakePlan(env, spec, obs, endpoint).sources {
      SourcesComeFrom(env, spec, obs, endpoint, t);
    }
  }

  // ---- The pipelines do not interfere ----

  /** Log forwarding depends on the gate and its own observations only. */
  lemma ForwardingIgnoresUsage(env: Env, spec: Spec, spec': Spec, obs: Obs, obs': Obs, endpoint: string, endpoint': string)
    requires spec.logs == spec'.logs && obs.forwarder == obs'.forwarder
    requires GateFor(env, spec, obs.secret) == GateFor(env, spec', obs'.secret)
    requires !MakePlan(env, spec, obs, endpoint).failed && !MakePlan(env, spec', obs', endpoint').failed
    ensures var p, q := MakePlan(env, spec, obs, endpoint), MakePlan(env, spec', obs', endpoint');
            var stack, dependent := Feature(LokiStackAvailable), Feature(ClusterLogForwarderAvailable);
            && stack in p.marks && stack in q.marks && p.marks[stack] == q.marks[stack]
            && dependent in p.marks && dependent in q.marks && p.marks[dependent] == q.marks[dependent]
            && (forall t :: ForwardingTemplate(t) ==> (t in p.sources <==> t in q.sources))
  {
    hide MakePlan;
    hide ValidateStorage;
    hide DeployPipeline;
    assert LOKI_COMPONENTS[1] == LokiLogs;
    PlanPipelineMarks(env, spec, obs, endpoint, LokiLogs);
    PlanPipelineMarks(env, spec', obs', endpoint', LokiLogs);
    SameForwarding(env, spec, spec', obs, obs', endpoint, endpoint');
    forall t | ForwardingTemplate(t)
      ensures t in MakePlan(env, spec, obs, endpoint).sources <==> t in MakePlan(env, spec', obs', endpoint').sources
    {
      PipelineSources(env, spec, obs, endpoint, t);
      PipelineSources(env, spec', obs', endpoint', t);
    }
  }

  lemma SameForwarding(env: Env, spec: Spec, spec': Spec, obs: Obs, obs': Obs, endpoint: string, endpoint': string)
    requires spec.logs == spec'.logs && obs.forwarder == obs'.forwarder
    requires GateFor(env, spec, obs.secret) == GateFor(env, spec', obs'.secret)
    ensures DeployPipeline(LokiLogs, spec, obs, endpoint, ValidateStorage(env, spec, obs.secret))
         == DeployPipeline(LokiLogs, spec', obs', endpoint', ValidateStorage(env, spec', obs'.secret))
    ensures ValidateStorage(env, spec, obs.secret).marks == ValidateStorage(env, spec', obs'.secret).marks
    ensures ValidateStorage(env, spec, obs.secret).withheld == ValidateStorage(env, spec', obs'.secret).withheld
  {
    GateShape(env, spec, obs.secret);
    GateShape(env, spec', obs'.secret);
    assert DeployLogForwarding(spec, obs.forwarder) == DeployLogForwarding(spec', obs'.forwarder);
  }

  /** A log template is in a plan that did not fail exactly when its pipeline added it. */
  lemma PipelineSources(env: Env, spec: Spec, obs: Obs, endpoint: string, t: Template)
    requires !MakePlan(env, spec, obs, endpoint).failed && (UsageTemplate(t) || ForwardingTemplate(t))
    ensures var c := if UsageTemplate(t) then LokiUsageLogs else LokiLogs;
            t in MakePlan(env, spec, obs, endpoint).sources <==>
            t in DeployPipeline(c, spec, obs, endpoint, ValidateStorage(env, spec, obs.secret)).sources
  {
    PlanShape(env, spec, obs, endpoint);
    if t in MakePlan(env, spec, obs, endpoint).sources { SourcesComeFrom(env, spec, obs, endpoint, t); }
  }

  /** The usage logs pipeline depends on the gate, the published endpoint and its own
      observations only. */
  lemma UsageIgnoresForwarding(env: Env, spec: Spec, spec': Spec, obs: Obs, obs': Obs, endpoint: string)
    requires spec.usageLogs == spec'.usageLogs && obs.usage == obs'.usage
    requires GateFor(env, spec, obs.secret) == GateFor(env, spec', obs'.secret)
    requires !MakePlan(env, spec, obs, endpoint).failed && !MakePlan(env, spec', obs', endpoint).failed
    ensures var p, q := MakePlan(env, spec, obs, endpoint), MakePlan(env, spec', obs', endpoint);
            var stack, dependent := Feature(UsageLogsLokiStackAvailable), Feature(UsageLogsCollectorAvailable);
            && stack in p.marks && stack in q.marks && p.marks[stack] == q.marks[stack]
            && dependent in p.marks && dependent in q.marks && p.marks[dependent] == q.marks[dependent]
            && (forall t :: UsageTemplate(t) ==> (t in p.sources <==> t in q.sources))
  {
    hide MakePlan;
    hide ValidateStorage;
    hide DeployPipeline;
    assert LOKI_COMPONENTS[0] == LokiUsageLogs;
    PlanPipelineMarks(env, spec, obs, endpoint, LokiUsageLogs);
    PlanPipelineMarks(env, spec', obs', endpoint, LokiUsageLogs);
    SameUsage(env, spec, spec', obs, obs', endpoint);
    forall t | UsageTemplate(t)
      ensures t in MakePlan(env, spec, obs, endpoint).sources <==> t in MakePlan(env, spec', obs', endpoint).sources
    {
      PipelineSources(env, spec, obs, endpoint, t);
      PipelineSources(env, spec', obs', endpoint, t);
    }
  }

  lemma SameUsage(env: Env, spec: Spec, spec': Spec, obs: Obs, obs': Obs, endpoint: string)
    requires spec.usageLogs == spec'.usageLogs && obs.usage == obs'.usage
    requires GateFor(env, spec, obs.secret) == GateFor(env, spec', obs'.secret)
    ensures DeployPipeline(LokiUsageLogs, spec, obs, endpoint, ValidateStorage(env, spec, obs.secret))
         == DeployPipeline(LokiUsageLogs, spec', obs', endpoint, ValidateStorage(env, spec', obs'.secret))
    ensures ValidateStorage(env, spec, obs.secret).marks == ValidateStorage(env, spec', obs'.secret).marks
    ensures ValidateStorage(env, spec, obs.secret).withheld == ValidateStorage(env, spec', obs'.secret).withheld
  {
    GateShape(env, spec, obs.secret);
    GateShape(env, spec', obs'.secret);
    assert DeployUsageLogs(spec, obs.usage, endpoint) == DeployUsageLogs(spec', obs'.usage, endpoint);
  }
}
