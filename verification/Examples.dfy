/** Concrete inputs at the edges of the exact conditions. */
module Examples {
  import opened Text
  import opened Conditions
  import opened Cluster
  import opened Sweep
  import opened StorageIsolation
  import opened Monitoring
  import opened PlanProperties
  import opened Round
  import opened RoundProperties
  import opened Retries
  import opened Verdicts

  // ---- Core actions that all get their answers ----

  /** Every read of the core actions was answered and every cleanup went through. */
  predicate Answered(o: CoreObs) {
    && !o.webhookSecret.Unreadable? && o.tempoCleanup && o.legacyCleanup
    && NoAnswer !in [o.monitoringStackCrd, o.thanosQuerierCrd, o.instrumentationCrd, o.tempoCrd, o.collectorCrd,
                     o.collectorReady, o.alertRuleCrd, o.operatorRuleCrd, o.korrel8rReady, o.persesCrd,
                     o.tempoDatasourceCrd, o.tempoDashboardCrd, o.prometheusDatasourceCrd]
  }

  lemma AnsweredActionSucceeds(a: Action, spec: Spec, o: CoreObs)
    requires Answered(o)
    ensures !RunAction(a, spec, o).failed
  {
  }

  lemma {:induction false} AnsweredActionsSucceed(actions: seq<Action>, spec: Spec, o: CoreObs)
    requires Answered(o)
    ensures !RunActions(actions, spec, o).failed
  {
    hide RunAction;
    hide Answered;
    if actions != [] {
      AnsweredActionSucceeds(actions[0], spec, o);
      AnsweredActionsSucceed(actions[1..], spec, o);
    }
  }

  function CoreWith(stack: Answer, querier: Answer): CoreObs {
    CoreObs(Present(true), stack, querier, Yes, Yes, Yes, Yes, Yes, Yes, Yes, true, true, Yes, Yes, Yes, true, Yes, true)
  }

  // ---- One of the two metrics CRDs is missing ----

  const METRICS_SPEC := Spec(false, "", Some(Metrics(true)), None, None, false, None)

  /** The querier's CRD is missing, and only its own condition says so. */
  lemma UnwrittenSiblingExample()
    ensures var e := RunActions(ACTIONS, METRICS_SPEC, CoreWith(Yes, No));
            && !e.failed
            && Feature(MonitoringStackAvailable) !in e.marks
            && Feature(ThanosQuerierAvailable) in e.marks
            && e.marks[Feature(ThanosQuerierAvailable)] == FalseFor(CRDNotFound)
  {
    hide RunActions;
    AnsweredActionsSucceed(ACTIONS, METRICS_SPEC, CoreWith(Yes, No));
    CoreUnwrittenExactly(METRICS_SPEC, CoreWith(Yes, No), MonitoringStackAvailable);
  }

  // ---- A usage logs collector that is not retried ----

  /** Usage log storage and nothing else. */
  const USAGE_SPEC := Spec(false, "", None, None, Some(UsageLogs(Some("loki"), 0, false)), false, None)

  const PLAIN_ENV := Env(_ => None, "uid", "", Allowed({}, {}))

  const QUIET_SWEEP := SweepObs({}, None, Some([]), Some([]), Some([]), Some([]), {})

  /** Everything is found and ready, up to the collector's CRD. */
  function ObsWith(collectorCrd: Answer): Obs {
    Obs(Present("1.0"), Met, CooSupported, true, Built([]), CoreWith(Yes, Yes), _ => Absent,
        UsageObs(StackObs(Yes, Yes), Yes, collectorCrd), ForwarderObs(StackObs(No, No), No, No, No, No),
        true, _ => [], CaObs(true, CaPending, true, true), None, true, QUIET_SWEEP, true)
  }

  function StateWith(endpoint: string): State {
    State(MonitoringStatus(map[], endpoint, "", [], false, ""), map[], NoSecret)
  }

  lemma {:induction false} RendersNothing(sources: seq<Template>, crd: Answer)
    ensures Render(ObsWith(crd).render, sources) == []
  {
    if sources != [] { RendersNothing(sources[1..], crd); }
  }

  lemma QuietSweepSucceeds(owner: Owner, allowed: Allowed, kept: Kept, live: Live)
    ensures CollectGarbage(owner, allowed, kept, QUIET_SWEEP, live).ok
  {
  }

  lemma GateIsClean(crd: Answer)
    ensures ValidateStorage(PLAIN_ENV, USAGE_SPEC, ObsWith(crd).secret) == Gated(map[], {}, false)
  {
    GateShape(PLAIN_ENV, USAGE_SPEC, ObsWith(crd).secret);
  }

  lemma PlanSucceeds(crd: Answer, endpoint: string)
    requires !crd.NoAnswer?
    ensures var plan := PlanOf(PLAIN_ENV, USAGE_SPEC, ObsWith(crd), StateWith(endpoint)); !plan.failed && !plan.refused
  {
    hide RunActions;
    hide ValidateStorage;
    AnsweredActionsSucceed(ACTIONS, USAGE_SPEC, ObsWith(crd).core);
    GateIsClean(crd);
    assert !DeployUsageLogs(USAGE_SPEC, ObsWith(crd).usage, endpoint).failed;
    TwoPipelines(USAGE_SPEC, ObsWith(crd), endpoint, Gated(map[], {}, false));
  }

  lemma RoundSucceeds(crd: Answer, endpoint: string)
    requires !crd.NoAnswer?
    ensures Succeeds(PLAIN_ENV, USAGE_SPEC, ObsWith(crd), StateWith(endpoint))
    ensures var trace := Reconcile(PLAIN_ENV, USAGE_SPEC, ObsWith(crd), StateWith(endpoint)).outcome.trace;
            trace.Completed? && trace.swept.ok
  {
    hide MakePlan;
    hide CollectGarbage;
    hide Aggregate;
    hide Publish;
    PlanSucceeds(crd, endpoint);
    var plan := PlanOf(PLAIN_ENV, USAGE_SPEC, ObsWith(crd), StateWith(endpoint));
    RendersNothing(plan.sources, crd);
    var owner := OwnerOf(PLAIN_ENV, USAGE_SPEC);
    QuietSweepSucceeds(owner, PLAIN_ENV.allowed, Kept(Keys([]), plan.withheld), Apply("uid", map[], []));
  }

  /** A round that succeeds, returns no requeue, and leaves the usage logs collector not True. */
  ghost predicate LeavesCollector(r: Result) {
    && r.outcome.trace.Completed? && !r.outcome.failed && r.outcome.requeue == 0
    && !HasStatus(r.state.status.conditions, Feature(UsageLogsCollectorAvailable), True)
  }

  /** The collector's CRD is missing. */
  lemma MissingCrdExample()
    ensures LeavesCollector(Reconcile(PLAIN_ENV, USAGE_SPEC, ObsWith(No), StateWith("https://loki")))
  {
    hide Reconcile;
    hide Completes;
    RoundSucceeds(No, "https://loki");
    UnretriedCollectorExactly(PLAIN_ENV, USAGE_SPEC, ObsWith(No), StateWith("https://loki"));
  }

  const USAGE_ENDPOINT :=
    "https://" + "data-science-usage-logs-lokistack" + "-gateway-http." + "opendatahub"
    + ".svc.cluster.local:8080/api/logs/v1/application" + "/otlp"

  lemma UsageEndpointText()
    ensures UsageLogsURL(EffectiveNamespace(PLAIN_ENV, USAGE_SPEC)) == USAGE_ENDPOINT
  {
  }

  /** Everything is found and ready, and this round is the one that publishes the endpoint. */
  lemma FirstEndpointExample()
    ensures var r := Reconcile(PLAIN_ENV, USAGE_SPEC, ObsWith(Yes), StateWith(""));
            LeavesCollector(r) && r.state.status.usageLogsEndpoint == USAGE_ENDPOINT
  {
    hide Reconcile;
    hide Completes;
    hide UsageLogsURL;
    RoundSucceeds(Yes, "");
    UnretriedCollectorExactly(PLAIN_ENV, USAGE_SPEC, ObsWith(Yes), StateWith(""));
    UsageConditionsExactly(PLAIN_ENV, USAGE_SPEC, ObsWith(Yes), StateWith(""));
    EndpointsFollowStacks(PLAIN_ENV, USAGE_SPEC, ObsWith(Yes), StateWith(""));
    UsageEndpointText();
  }
}
