/** What holds at the end of every single round, whichever way it ends. */
module RoundProperties {
  import opened Conditions
  import opened Cluster
  import opened Sweep
  import opened Monitoring
  import opened PlanProperties
  import opened Round

  // ---- The shape of a completed round ----

  /** The conditions a round writes ahead of its plan. */
  function BaseMarks(spec: Spec, obs: Obs): Marks {
    var w: Marks := if CooConfigured(spec) then map[] else map[COOVersionCompatible := OffFor(NotConfigured)];
    w[COOVersionCompatible := CooCondition(obs.coo)][DependenciesReady := TRUE][MonitoringAvailable := TRUE]
  }

  ghost function PlanOf(env: Env, spec: Spec, obs: Obs, s: State): Plan {
    MakePlan(env, spec, obs, s.status.usageLogsEndpoint)
  }

  ghost function CaOf(env: Env, spec: Spec, obs: Obs, s: State): CaStep {
    PrepareCA(env, spec, obs.ca, Render(obs.render, PlanOf(env, spec, obs, s).sources), s.live, s.caSecret)
  }

  /** Everything written before endpoints are published. */
  ghost function WorkMarks(env: Env, spec: Spec, obs: Obs, s: State): Marks {
    var w := BaseMarks(spec, obs) + PlanOf(env, spec, obs, s).marks;
    if CaOf(env, spec, obs, s).ready then w else w[Feature(MonitoringStackAvailable) := FalseFor(PrometheusCAUnavailable)]
  }

  function AfterThanosSync(spec: Spec, obs: Obs, w: Marks): Marks {
    if MetricsStorage(spec) && !obs.thanosSynced
    then w[Feature(MonitoringStackAvailable) := FalseFor(ThanosCASyncFailed)] else w
  }

  /** The trace of a round that reaches the sweep. */
  ghost function TraceOf(env: Env, spec: Spec, obs: Obs, s: State): Trace {
    var plan := PlanOf(env, spec, obs, s);
    var desired := Render(obs.render, plan.sources);
    var ca := CaOf(env, spec, obs, s);
    var applied := if ca.ready then desired else WithoutMonitoringStack(desired);
    var live := Apply(env.uid, ca.live, applied);
    Completed(plan, desired, applied, ca.ready, live,
              CollectGarbage(OwnerOf(env, spec), env.allowed, Kept(Keys(desired), plan.withheld), obs.sweep, live))
  }

  ghost predicate Completes(env: Env, spec: Spec, obs: Obs, s: State) {
    Body(env, spec, obs, s).trace.Completed?
  }

  lemma CompletedShape(env: Env, spec: Spec, obs: Obs, s: State)
    requires Completes(env, spec, obs, s)
    ensures !spec.removed && obs.data.Built? && !PlanOf(env, spec, obs, s).failed && !CaOf(env, spec, obs, s).failed
    ensures Body(env, spec, obs, s) ==
            Conclude(env, spec, obs, s, WorkMarks(env, spec, obs, s), CaOf(env, spec, obs, s).caSecret,
                     TraceOf(env, spec, obs, s))
  {
    hide MakePlan;
    hide PrepareCA;
    hide CollectGarbage;
    hide DeleteAllOwned;
    hide Aggregate;
    hide Conclude;
  }

  lemma CompletedMeans(env: Env, spec: Spec, obs: Obs, s: State)
    requires Completes(env, spec, obs, s)
    ensures !spec.removed && obs.preconditions.Met? && obs.data.Built? && NamespaceMatches(env, spec)
    ensures obs.persesProbed && !obs.platformVersion.Unreadable?
  {
  }

  // ---- Ready ----

  predicate Healthy(c: Condition) {
    c.status == True || (c.status == False && c.info)
  }

  lemma CommitStopsOnlyOnErrors(env: Env, spec: Spec, obs: Obs, s: State, w: Marks, plan: Plan)
    requires obs.data.Built? && Commit(env, spec, obs, s, w, plan).trace.Stopped?
    ensures Commit(env, spec, obs, s, w, plan).failed
  {
  }

  lemma ConfigureExitIsNotReady(env: Env, spec: Spec, obs: Obs, s: State, w: Marks)
    requires var d := Configure(env, spec, obs, s, w); d.trace.Stopped? && !d.failed
    ensures HasStatus(Configure(env, spec, obs, s, w).marks, Ready, False)
  {
    if obs.persesProbed && obs.data.Built? {
      var plan := MakePlan(env, spec, obs, s.status.usageLogsEndpoint);
      if !plan.failed { CommitStopsOnlyOnErrors(env, spec, obs, s, w + plan.marks, plan); }
    }
  }

  lemma OperatorsExitIsNotReady(env: Env, spec: Spec, obs: Obs, s: State, w: Marks)
    requires var d := CheckOperators(env, spec, obs, s, w); d.trace.Stopped? && !d.failed
    ensures HasStatus(CheckOperators(env, spec, obs, s, w).marks, Ready, False)
  {
    if obs.preconditions.Met? {
      ConfigureExitIsNotReady(env, spec, obs, s, w[DependenciesReady := TRUE][MonitoringAvailable := TRUE]);
    }
  }

  /** A round that stops without an error does not report Ready. */
  lemma EarlyExitIsNotReady(env: Env, spec: Spec, obs: Obs, s: State)
    requires !Completes(env, spec, obs, s) && !Body(env, spec, obs, s).failed
    ensures HasStatus(Body(env, spec, obs, s).marks, Ready, False)
  {
    if !obs.platformVersion.Unreadable? && !spec.removed && NamespaceMatches(env, spec) {
      var w: Marks := if CooConfigured(spec) then map[] else map[COOVersionCompatible := OffFor(NotConfigured)];
      OperatorsExitIsNotReady(env, spec, obs, s, w[COOVersionCompatible := CooCondition(obs.coo)]);
    }
  }

  predicate SameAt(a: Marks, b: Marks, t: Type) {
    (t in a <==> t in b) && (t in a ==> a[t] == b[t])
  }

  lemma AggregateLeavesFeatures(conditions: Marks, f: Feature)
    ensures Feature(f) !in Aggregate(conditions)
  {
  }

  lemma ConcludeLeavesFeatures(env: Env, spec: Spec, obs: Obs, s: State, w: Marks, ca: CaSecret, t: Trace, f: Feature)
    requires obs.data.Built? && t.Completed?
    ensures SameAt(Conclude(env, spec, obs, s, w, ca, t).marks, AfterThanosSync(spec, obs, w), Feature(f))
  {
    AggregateLeavesFeatures(s.status.conditions + AfterThanosSync(spec, obs, w), f);
  }

  lemma FinishLeavesFeatures(spec: Spec, obs: Obs, s: State, d: Draft, w: Marks, f: Feature)
    requires SameAt(d.marks, w, Feature(f))
    ensures var r := Finish(spec, obs, s, d);
            && SameAt(r.state.status.conditions, s.status.conditions + w, Feature(f))
            && SameAt(r.outcome.written, w, Feature(f))
  {
    assert Feature(f) !in FAILED_MARKS;
  }

  /** The features after a concluded round are those before aggregation. */
  lemma ConcludedFeatures(env: Env, spec: Spec, obs: Obs, s: State, w: Marks, ca: CaSecret, t: Trace, f: Feature)
    requires obs.data.Built? && t.Completed?
    ensures var r := Finish(spec, obs, s, Conclude(env, spec, obs, s, w, ca, t));
            && SameAt(r.state.status.conditions, s.status.conditions + AfterThanosSync(spec, obs, w), Feature(f))
            && SameAt(r.outcome.written, AfterThanosSync(spec, obs, w), Feature(f))
  {
    ConcludeLeavesFeatures(env, spec, obs, s, w, ca, t, f);
    FinishLeavesFeatures(spec, obs, s, Conclude(env, spec, obs, s, w, ca, t), AfterThanosSync(spec, obs, w), f);
  }

  lemma AggregatedReady(before: Marks)
    requires HasStatus(before, DependenciesReady, True)
    ensures var a := Aggregate(before);
            && DependenciesReady !in a && HasStatus(a, ProvisioningSucceeded, True) && Ready in a && Degraded in a
            && (HasStatus(a, Ready, True) <==> !AnyFailing(before) && !AnyUnknown(before))
            && (HasStatus(a, Ready, True) ==> HasStatus(a, Degraded, False))
  {
  }

  lemma ConcludeWrites(env: Env, spec: Spec, obs: Obs, s: State, w: Marks, ca: CaSecret, t: Trace)
    requires obs.data.Built? && t.Completed?
    ensures var d := Conclude(env, spec, obs, s, w, ca, t);
            var w' := AfterThanosSync(spec, obs, w);
            var marks := w' + Aggregate(s.status.conditions + w');
            && d.failed == t.plan.refused
            && d.marks == (if t.plan.refused || t.caReady then marks
                           else marks[ProvisioningSucceeded := FalseFor(PrometheusCAUnavailable)])
  {
    hide Aggregate;
    hide Publish;
    hide EffectiveNamespace;
  }

  lemma ConcludedReady(env: Env, spec: Spec, obs: Obs, s: State, w: Marks, ca: CaSecret, t: Trace)
    requires obs.data.Built? && t.Completed? && HasStatus(w, DependenciesReady, True)
    ensures var r := Finish(spec, obs, s, Conclude(env, spec, obs, s, w, ca, t));
            var before := s.status.conditions + AfterThanosSync(spec, obs, w);
            && (HasStatus(r.state.status.conditions, Ready, True) <==>
                !t.plan.refused && !AnyFailing(before) && !AnyUnknown(before))
            && HasStatus(r.state.status.conditions, DependenciesReady, True)
            && (HasStatus(r.state.status.conditions, Ready, True) ==>
                  && HasStatus(r.state.status.conditions, Degraded, False)
                  && (t.caReady ==> HasStatus(r.state.status.conditions, ProvisioningSucceeded, True)))
  {
    hide Conclude;
    hide DeferredRequeue;
    hide Aggregate;
    ConcludeWrites(env, spec, obs, s, w, ca, t);
    assert HasStatus(AfterThanosSync(spec, obs, w), DependenciesReady, True);
    AggregatedReady(s.status.conditions + AfterThanosSync(spec, obs, w));
  }

  lemma PlanWritesFeatures(env: Env, spec: Spec, obs: Obs, endpoint: string, t: Type)
    requires !MakePlan(env, spec, obs, endpoint).failed && t in MakePlan(env, spec, obs, endpoint).marks
    ensures t.Feature?
  {
    PlanShape(env, spec, obs, endpoint);
    var gated := ValidateStorage(env, spec, obs.secret);
    assert LOKI_COMPONENTS[0] == LokiUsageLogs && LOKI_COMPONENTS[1] == LokiLogs;
    if t in DeployPipeline(LokiLogs, spec, obs, endpoint, gated).marks {
      PipelineWritesLogs(LokiLogs, env, spec, obs, endpoint, t);
    } else if t in DeployPipeline(LokiUsageLogs, spec, obs, endpoint, gated).marks {
      PipelineWritesLogs(LokiUsageLogs, env, spec, obs, endpoint, t);
    } else if t in gated.marks {
      GateWritesLogs(env, spec, obs.secret, t);
    } else {
      CoreLeavesLogs(spec, obs.core, t);
    }
  }

  lemma WorkMarksOver(env: Env, spec: Spec, obs: Obs, s: State, t: Type)
    ensures var plan := PlanOf(env, spec, obs, s);
            var w := WorkMarks(env, spec, obs, s);
            && (t in plan.marks && t != Feature(MonitoringStackAvailable) ==> t in w && w[t] == plan.marks[t])
            && (t in plan.marks ==> t in w)
            && (Feature(MonitoringStackAvailable) in plan.marks && Failing(plan.marks[Feature(MonitoringStackAvailable)]) ==>
                  Failing(w[Feature(MonitoringStackAvailable)]))
            && (!CaOf(env, spec, obs, s).ready ==> HasStatus(w, Feature(MonitoringStackAvailable), False)
                                                   && Failing(w[Feature(MonitoringStackAvailable)]))
  {
  }

  lemma DependenciesWritten(env: Env, spec: Spec, obs: Obs, s: State)
    requires !PlanOf(env, spec, obs, s).failed
    ensures HasStatus(WorkMarks(env, spec, obs, s), DependenciesReady, True)
  {
    if DependenciesReady in PlanOf(env, spec, obs, s).marks {
      PlanWritesFeatures(env, spec, obs, s.status.usageLogsEndpoint, DependenciesReady);
    }
  }

  /** This round wrote every feature, or some feature it wrote is failing. */
  lemma WrittenOrFailing(env: Env, spec: Spec, obs: Obs, s: State, f: Feature)
    requires !PlanOf(env, spec, obs, s).failed
    ensures var w := AfterThanosSync(spec, obs, WorkMarks(env, spec, obs, s));
            Feature(f) in w || AnyFailing(s.status.conditions + w)
  {
    var endpoint := s.status.usageLogsEndpoint;
    var plan := PlanOf(env, spec, obs, s);
    var w := AfterThanosSync(spec, obs, WorkMarks(env, spec, obs, s));
    PlanCoverage(env, spec, obs, endpoint, f);
    WorkMarksOver(env, spec, obs, s, Feature(f));
    if Feature(f) !in plan.marks {
      var g :| ActionOf(g).Some? && Feature(g) in plan.marks && Failing(plan.marks[Feature(g)]);
      WorkMarksOver(env, spec, obs, s, Feature(g));
      assert Feature(g) in w && Failing(w[Feature(g)]);
      assert Failing((s.status.conditions + w)[Feature(g)]);
    }
  }

  ghost predicate AllHealthy(conditions: Marks) {
    forall f: Feature :: Feature(f) in conditions ==> Healthy(conditions[Feature(f)])
  }

  lemma HealthyExactly(conditions: Marks)
    ensures AllHealthy(conditions) <==> !AnyFailing(conditions) && !AnyUnknown(conditions)
  {
  }

  /** Ready is True at the end of a round exactly when the round completed without an
      error and every feature condition is healthy. */
  lemma ReadyExactly(env: Env, spec: Spec, obs: Obs, s: State)
    ensures var r := Reconcile(env, spec, obs, s);
            HasStatus(r.state.status.conditions, Ready, True) <==>
            !r.outcome.failed && r.outcome.trace.Completed? && AllHealthy(r.state.status.conditions)
  {
    hide Body;
    hide MakePlan;
    hide Conclude;
    var d := Body(env, spec, obs, s);
    if Completes(env, spec, obs, s) {
      CompletedShape(env, spec, obs, s);
      DependenciesWritten(env, spec, obs, s);
      var w, ca, t := WorkMarks(env, spec, obs, s), CaOf(env, spec, obs, s).caSecret, TraceOf(env, spec, obs, s);
      ConcludedReadyExactly(env, spec, obs, s, w, ca, t);
    } else if !d.failed {
      EarlyExitIsNotReady(env, spec, obs, s);
    } else {
      FailedMeansDegraded(env, spec, obs, s);
    }
  }

  lemma ConcludedReadyExactly(env: Env, spec: Spec, obs: Obs, s: State, w: Marks, ca: CaSecret, t: Trace)
    requires obs.data.Built? && t.Completed? && HasStatus(w, DependenciesReady, True)
    ensures var r := Finish(spec, obs, s, Conclude(env, spec, obs, s, w, ca, t));
            HasStatus(r.state.status.conditions, Ready, True) <==>
            !r.outcome.failed && AllHealthy(r.state.status.conditions)
  {
    var r := Finish(spec, obs, s, Conclude(env, spec, obs, s, w, ca, t));
    var before := s.status.conditions + AfterThanosSync(spec, obs, w);
    ConcludedReady(env, spec, obs, s, w, ca, t);
    HealthyExactly(before);
    forall f: Feature
      ensures Feature(f) in r.state.status.conditions <==> Feature(f) in before
      ensures Feature(f) in before ==> r.state.status.conditions[Feature(f)] == before[Feature(f)]
    {
      ConcludedFeatures(env, spec, obs, s, w, ca, t, f);
    }
  }

  /** Ready=True further means: dependencies are True, Degraded is not, the phase is Ready,
      the CA was ready, and this same round wrote every feature condition. */
  lemma ReadyMeans(env: Env, spec: Spec, obs: Obs, s: State)
    requires HasStatus(Reconcile(env, spec, obs, s).state.status.conditions, Ready, True)
    ensures var r := Reconcile(env, spec, obs, s);
            var conditions := r.state.status.conditions;
            && HasStatus(conditions, DependenciesReady, True)
            && HasStatus(conditions, ProvisioningSucceeded, True)
            && HasStatus(conditions, Degraded, False)
            && r.state.status.phaseReady
            && r.outcome.trace.Completed? && r.outcome.trace.caReady
    ensures forall f: Feature :: Feature(f) in Reconcile(env, spec, obs, s).outcome.written
  {
    hide Body;
    hide MakePlan;
    hide PrepareCA;
    hide CollectGarbage;
    hide Aggregate;
    hide Publish;
    ReadyExactly(env, spec, obs, s);
    CompletedShape(env, spec, obs, s);
    DependenciesWritten(env, spec, obs, s);
    var w, ca, t := WorkMarks(env, spec, obs, s), CaOf(env, spec, obs, s).caSecret, TraceOf(env, spec, obs, s);
    ConcludedReady(env, spec, obs, s, w, ca, t);
    if !t.caReady { PendingCaFails(env, spec, obs, s); }
    forall f: Feature
      ensures Feature(f) in Reconcile(env, spec, obs, s).outcome.written
    {
      WrittenOrFailing(env, spec, obs, s, f);
      ConcludedFeatures(env, spec, obs, s, w, ca, t, f);
    }
  }

  lemma PendingCaFails(env: Env, spec: Spec, obs: Obs, s: State)
    requires !CaOf(env, spec, obs, s).ready
    ensures AnyFailing(s.status.conditions + AfterThanosSync(spec, obs, WorkMarks(env, spec, obs, s)))
  {
    var w := AfterThanosSync(spec, obs, WorkMarks(env, spec, obs, s));
    WorkMarksOver(env, spec, obs, s, DependenciesReady);
    assert Failing((s.status.conditions + w)[Feature(MonitoringStackAvailable)]);
  }

  /** Every round that returns an error ends not ready and degraded. */
  lemma FailedMeansDegraded(env: Env, spec: Spec, obs: Obs, s: State)
    requires Reconcile(env, spec, obs, s).outcome.failed
    ensures var r := Reconcile(env, spec, obs, s);
            && HasStatus(r.state.status.conditions, Ready, False)
            && HasStatus(r.state.status.conditions, ProvisioningSucceeded, False)
            && HasStatus(r.state.status.conditions, Degraded, True)
            && !r.state.status.phaseReady
  {
    FinishFailed(spec, obs, s, Body(env, spec, obs, s));
  }

  lemma FinishFailed(spec: Spec, obs: Obs, s: State, d: Draft)
    requires d.failed
    ensures var r := Finish(spec, obs, s, d);
            && HasStatus(r.state.status.conditions, Ready, False)
            && HasStatus(r.state.status.conditions, ProvisioningSucceeded, False)
            && HasStatus(r.state.status.conditions, Degraded, True)
            && !r.state.status.phaseReady
  {
    assert Ready in FAILED_MARKS && ProvisioningSucceeded in FAILED_MARKS && Degraded in FAILED_MARKS;
  }

  // ---- Retries ----

  predicate WaitsForLoki(spec: Spec, conditions: Marks) {
    || (UsageStorage(spec) && !HasStatus(conditions, Feature(UsageLogsLokiStackAvailable), True))
    || (spec.logs.Some? && !HasStatus(conditions, Feature(LokiStackAvailable), True))
  }

  /** The requeue of a concluded round, read off the conditions it ends with. */
  lemma ConcludedRequeue(env: Env, spec: Spec, obs: Obs, s: State, w: Marks, ca: CaSecret, t: Trace)
    requires obs.data.Built? && t.Completed? && !t.plan.refused && !spec.removed
    ensures var r := Finish(spec, obs, s, Conclude(env, spec, obs, s, w, ca, t));
            var conditions := r.state.status.conditions;
            r.outcome.requeue ==
              if !t.caReady then 15
              else if WaitsForLoki(spec, conditions) || AwaitingCredential(conditions) then 30
              else if spec.logs.Some? then 300
              else if !t.swept.ok then 60
              else if MetricsStorage(spec) then 300
              else if CollectorAwaitsReadiness(spec, conditions) then 30
              else 0
  {
    ConcludedFeatures(env, spec, obs, s, w, ca, t, UsageLogsLokiStackAvailable);
    ConcludedFeatures(env, spec, obs, s, w, ca, t, LokiStackAvailable);
    ConcludedFeatures(env, spec, obs, s, w, ca, t, UsageLogsCollectorAvailable);
    ConcludedFeatures(env, spec, obs, s, w, ca, t, OpenTelemetryCollectorAvailable);
  }

  /** No lost retry: a completed round without an error comes back within 30 seconds while
      a configured LokiStack is not True or a credential is awaited, and within 5 minutes if
      the sweep failed or a configured OpenTelemetry collector is not True; the last clause
      says exactly when it does not come back by itself. */
  lemma NoLostRetry(env: Env, spec: Spec, obs: Obs, s: State)
    requires Completes(env, spec, obs, s) && !Reconcile(env, spec, obs, s).outcome.failed
    ensures var r := Reconcile(env, spec, obs, s);
            var conditions := r.state.status.conditions;
            && (WaitsForLoki(spec, conditions) || AwaitingCredential(conditions) ==> 0 < r.outcome.requeue <= 30)
            && (!r.outcome.trace.swept.ok || CollectorAwaitsReadiness(spec, conditions) ==> 0 < r.outcome.requeue <= 300)
            && (r.outcome.requeue == 0 <==>
                  && r.outcome.trace.caReady && r.outcome.trace.swept.ok
                  && spec.logs.None? && !MetricsStorage(spec)
                  && !WaitsForLoki(spec, conditions) && !AwaitingCredential(conditions)
                  && !CollectorAwaitsReadiness(spec, conditions))
  {
    CompletedShape(env, spec, obs, s);
    ConcludedRequeue(env, spec, obs, s, WorkMarks(env, spec, obs, s), CaOf(env, spec, obs, s).caSecret,
                     TraceOf(env, spec, obs, s));
  }

  // ---- A refused round ----

  /** When the gate refuses, the round fails with the verdict on both stacks and on their
      workloads, and no object labelled with a log component and no LokiStack is swept;
      only the TargetAllocator RBAC names are not shielded. */
  lemma RefusedRoundShieldsLogs(env: Env, spec: Spec, obs: Obs, s: State, k: Key)
    requires Completes(env, spec, obs, s) && PlanOf(env, spec, obs, s).refused
    ensures var r := Reconcile(env, spec, obs, s);
            var t := TraceOf(env, spec, obs, s);
            && r.outcome.failed && r.outcome.trace == t
            && (k in t.beforeSweep && !IsTargetAllocatorRBAC(k)
                && (t.beforeSweep[k].component in {LokiUsageLogs, LokiLogs} || k.kind.LokiStackKind?)
                ==> k in r.state.live && r.state.live[k] == t.beforeSweep[k])
  {
    hide Body;
    hide MakePlan;
    hide PrepareCA;
    hide CollectGarbage;
    hide Aggregate;
    hide Publish;
    CompletedShape(env, spec, obs, s);
    var t := TraceOf(env, spec, obs, s);
    var kept := Kept(Keys(t.desired), t.plan.withheld);
    RefusedPlanRendersNoLogs(env, spec, obs, s.status.usageLogsEndpoint, LokiStackTemplate);
    assert AnyLokiWithheld(kept.withheld) by { assert LOKI_COMPONENTS[0] == LokiUsageLogs; }
    SweepIsSound(OwnerOf(env, spec), env.allowed, kept, obs.sweep, t.beforeSweep);
    if k in t.beforeSweep && !IsTargetAllocatorRBAC(k)
       && (t.beforeSweep[k].component in {LokiUsageLogs, LokiLogs} || k.kind.LokiStackKind?) {
      WithheldSurvives(OwnerOf(env, spec), env.allowed, kept, obs.sweep, t.beforeSweep, k);
    }
  }

  /** And exactly: when the sweep reports no error over complete lists, a refused round
      deletes such an object if and only if it is TargetAllocator RBAC that is not desired. */
  lemma RefusedRoundDeletesExactly(env: Env, spec: Spec, obs: Obs, s: State, k: Key)
    requires Completes(env, spec, obs, s) && PlanOf(env, spec, obs, s).refused
    requires var t := TraceOf(env, spec, obs, s);
             && t.swept.ok && ListsAll(obs.sweep, t.beforeSweep) && k in t.beforeSweep
             && (t.beforeSweep[k].component in {LokiUsageLogs, LokiLogs} || k.kind.LokiStackKind?)
    ensures var t := TraceOf(env, spec, obs, s);
            k !in Reconcile(env, spec, obs, s).state.live <==>
            && t.beforeSweep[k].partOf
            && CollectsTargetAllocator(OwnerOf(env, spec), Kept(Keys(t.desired), t.plan.withheld), k, t.beforeSweep[k])
  {
    hide Body;
    hide MakePlan;
    hide PrepareCA;
    hide CollectGarbage;
    hide Aggregate;
    hide Publish;
    hide ListsAll;
    CompletedShape(env, spec, obs, s);
    var t := TraceOf(env, spec, obs, s);
    var kept := Kept(Keys(t.desired), t.plan.withheld);
    RefusedPlanRendersNoLogs(env, spec, obs, s.status.usageLogsEndpoint, LokiStackTemplate);
    assert AnyLokiWithheld(kept.withheld) by { assert LOKI_COMPONENTS[0] == LokiUsageLogs; }
    ShieldedDeletedExactly(OwnerOf(env, spec), env.allowed, kept, obs.sweep, t.beforeSweep, k);
  }

  // ---- The Prometheus CA ----

  predicate HoldsCa(secret: CaSecret, o: CaObs) {
    o.ca.CaCert? && o.ca.cert != "" && secret == CaSecret(true, o.ca.cert)
  }

  lemma ReadyCaIsHeld(env: Env, spec: Spec, o: CaObs, desired: seq<Manifest>, live: Live, current: CaSecret)
    requires HasStack(desired, EffectiveNamespace(env, spec)) && MetricsStorage(spec)
    requires PrepareCA(env, spec, o, desired, live, current).ready
    ensures HoldsCa(PrepareCA(env, spec, o, desired, live, current).caSecret, o)
  {
  }

  lemma {:induction false} StackLeftOut(desired: seq<Manifest>, i: nat)
    requires i < |WithoutMonitoringStack(desired)|
    ensures !WithoutMonitoringStack(desired)[i].key.kind.MonitoringStackKind?
    ensures WithoutMonitoringStack(desired)[i] in desired
  {
    if desired[0].key.kind.MonitoringStackKind? {
      assert WithoutMonitoringStack(desired) == WithoutMonitoringStack(desired[1..]);
      StackLeftOut(desired[1..], i);
    } else if i > 0 {
      assert WithoutMonitoringStack(desired)[i] == WithoutMonitoringStack(desired[1..])[i - 1];
      StackLeftOut(desired[1..], i - 1);
    }
  }

  lemma {:induction false} OthersStay(desired: seq<Manifest>, m: Manifest)
    requires m in desired && !m.key.kind.MonitoringStackKind?
    ensures m in WithoutMonitoringStack(desired)
  {
    if m != desired[0] {
      OthersStay(desired[1..], m);
    }
  }

  lemma {:induction false} OnlyMembers(manifests: seq<Manifest>, done: set<Key>, m: Manifest)
    requires m in Only(manifests, done)
    ensures m in manifests
  {
    if manifests[0].key !in done || m != manifests[0] {
      OnlyMembers(manifests[1..], done, m);
    }
  }

  /** The manifests a round applies, whether or not it gets to the sweep. */
  function AppliedBy(t: Trace): seq<Manifest> {
    match t
    case Stopped(attempted) => attempted
    case Completed(_, _, applied, _, _, _) => applied
  }

  /** Only the MonitoringStack template renders that kind. */
  ghost predicate RendersStackOnce(render: Template -> seq<Manifest>) {
    forall t, i :: 0 <= i < |render(t)| && render(t)[i].key.kind.MonitoringStackKind? ==> t.MonitoringStackTemplate?
  }

  lemma {:induction false} RenderedBy(render: Template -> seq<Manifest>, sources: seq<Template>, m: Manifest)
    requires m in Render(render, sources)
    ensures exists t :: t in sources && m in render(t)
  {
    if m !in render(sources[0]) {
      RenderedBy(render, sources[1..], m);
    }
  }

  lemma RenderedStackNeedsStorage(env: Env, spec: Spec, obs: Obs, s: State, m: Manifest)
    requires RendersStackOnce(obs.render) && m.key.kind.MonitoringStackKind?
    requires m in Render(obs.render, PlanOf(env, spec, obs, s).sources)
    ensures MetricsStorage(spec)
  {
    hide MakePlan;
    var sources := PlanOf(env, spec, obs, s).sources;
    RenderedBy(obs.render, sources, m);
    var t :| t in sources && m in obs.render(t);
    var i :| 0 <= i < |obs.render(t)| && obs.render(t)[i] == m;
    StackTemplateNeedsStorage(env, spec, obs, s.status.usageLogsEndpoint);
  }

  /** A MonitoringStack in the monitoring namespace is applied only in a round that leaves
      the CA Secret holding the non-empty CA read from the ConfigMap. */
  lemma StackAppliedOnlyWithCa(env: Env, spec: Spec, obs: Obs, s: State, m: Manifest)
    requires MetricsStorage(spec) || RendersStackOnce(obs.render)
    requires m in AppliedBy(Reconcile(env, spec, obs, s).outcome.trace) && IsStackIn(m, EffectiveNamespace(env, spec))
    ensures HoldsCa(Reconcile(env, spec, obs, s).state.caSecret, obs.ca)
  {
    hide Body;
    hide MakePlan;
    hide PrepareCA;
    var d := Body(env, spec, obs, s);
    assert AppliedBy(d.trace) != [];
    CommittedShape(env, spec, obs, s);
    var plan := PlanOf(env, spec, obs, s);
    var ca := CaOf(env, spec, obs, s);
    var desired := Render(obs.render, plan.sources);
    var applied := if ca.ready then desired else WithoutMonitoringStack(desired);
    assert m in applied by {
      if obs.deployStopped.Some? { OnlyMembers(applied, obs.deployStopped.value, m); }
    }
    if !ca.ready {
      var i :| 0 <= i < |applied| && applied[i] == m;
      StackLeftOut(desired, i);
    }
    var i :| 0 <= i < |desired| && desired[i] == m;
    assert IsStackIn(desired[i], EffectiveNamespace(env, spec));
    if !MetricsStorage(spec) { RenderedStackNeedsStorage(env, spec, obs, s, m); }
    ReadyCaIsHeld(env, spec, obs.ca, desired, s.live, s.caSecret);
  }

  /** A round that applied anything got as far as the deploy. */
  lemma CommittedShape(env: Env, spec: Spec, obs: Obs, s: State)
    requires AppliedBy(Body(env, spec, obs, s).trace) != []
    ensures var ca := CaOf(env, spec, obs, s);
            var desired := Render(obs.render, PlanOf(env, spec, obs, s).sources);
            var applied := if ca.ready then desired else WithoutMonitoringStack(desired);
            && !ca.failed && Body(env, spec, obs, s).caSecret == ca.caSecret
            && AppliedBy(Body(env, spec, obs, s).trace) ==
               (if obs.deployStopped.Some? then Only(applied, obs.deployStopped.value) else applied)
  {
    hide MakePlan;
    hide PrepareCA;
    hide CollectGarbage;
    hide DeleteAllOwned;
    hide Aggregate;
    hide Publish;
  }

  /** While the CA is pending exactly the MonitoringStack manifests are left out of the
      apply, and no desired object is swept, a live MonitoringStack included. */
  lemma PendingCaKeepsStack(env: Env, spec: Spec, obs: Obs, s: State, m: Manifest, k: Key)
    requires Completes(env, spec, obs, s) && !TraceOf(env, spec, obs, s).caReady
    ensures var t := TraceOf(env, spec, obs, s);
            m in t.applied <==> m in t.desired && !m.key.kind.MonitoringStackKind?
    ensures var t := TraceOf(env, spec, obs, s);
            k in t.beforeSweep && k in Keys(t.desired) && WellScoped(k) ==>
              k in Reconcile(env, spec, obs, s).state.live
  {
    CompletedShape(env, spec, obs, s);
    var t := TraceOf(env, spec, obs, s);
    if m in t.applied {
      var i :| 0 <= i < |t.applied| && t.applied[i] == m;
      StackLeftOut(t.desired, i);
    }
    if m in t.desired && !m.key.kind.MonitoringStackKind? { OthersStay(t.desired, m); }
    if k in t.beforeSweep && k in Keys(t.desired) && WellScoped(k) {
      DesiredSurvives(OwnerOf(env, spec), env.allowed, Kept(Keys(t.desired), t.plan.withheld), obs.sweep, t.beforeSweep, k);
    }
  }

  // ---- The pipelines do not interfere ----

  /** What a round ends with for one pipeline: its two conditions as written, the endpoint
      and the templates it rendered. */
  datatype PipelineEnd = PipelineEnd(stack: Condition, dependent: Condition, endpoint: string, templates: set<Template>)

  function LogTemplates(c: Component, plan: Plan): set<Template> {
    set t | t in plan.sources && TemplateOf(c, t)
  }

  /** The end of the forwarding pipeline, from the plan alone. */
  function ForwardingEnd(env: Env, spec: Spec, s: State, plan: Plan): PipelineEnd
    requires Feature(LokiStackAvailable) in plan.marks && Feature(ClusterLogForwarderAvailable) in plan.marks
  {
    PipelineEnd(plan.marks[Feature(LokiStackAvailable)], plan.marks[Feature(ClusterLogForwarderAvailable)],
                Publish(spec.logs.Some?, plan.marks, LokiStackAvailable, LokiQueryURL(EffectiveNamespace(env, spec)),
                        s.status.logsEndpoint).endpoint,
                LogTemplates(LokiLogs, plan))
  }

  ghost predicate EndsForwardingWith(r: Result, end: PipelineEnd) {
    && r.outcome.trace.Completed?
    && Feature(LokiStackAvailable) in r.outcome.written && r.outcome.written[Feature(LokiStackAvailable)] == end.stack
    && Feature(ClusterLogForwarderAvailable) in r.outcome.written
    && r.outcome.written[Feature(ClusterLogForwarderAvailable)] == end.dependent
    && r.state.status.logsEndpoint == end.endpoint
    && LogTemplates(LokiLogs, r.outcome.trace.plan) == end.templates
  }

  lemma ForwardingEnds(env: Env, spec: Spec, obs: Obs, s: State)
    requires Completes(env, spec, obs, s)
    ensures var plan := PlanOf(env, spec, obs, s);
            && !plan.failed
            && Feature(LokiStackAvailable) in plan.marks && Feature(ClusterLogForwarderAvailable) in plan.marks
            && EndsForwardingWith(Reconcile(env, spec, obs, s), ForwardingEnd(env, spec, s, plan))
  {
    CompletedShape(env, spec, obs, s);
    PlanWritesForwarding(env, spec, obs, s.status.usageLogsEndpoint);
    WorkMarksOver(env, spec, obs, s, Feature(LokiStackAvailable));
    WorkMarksOver(env, spec, obs, s, Feature(ClusterLogForwarderAvailable));
    ConcludedForwarding(env, spec, obs, s, WorkMarks(env, spec, obs, s), CaOf(env, spec, obs, s).caSecret,
                        TraceOf(env, spec, obs, s));
  }

  lemma PlanWritesForwarding(env: Env, spec: Spec, obs: Obs, endpoint: string)
    requires !MakePlan(env, spec, obs, endpoint).failed
    ensures var marks := MakePlan(env, spec, obs, endpoint).marks;
            Feature(LokiStackAvailable) in marks && Feature(ClusterLogForwarderAvailable) in marks
  {
    assert LOKI_COMPONENTS[1] == LokiLogs;
    PlanPipelineMarks(env, spec, obs, endpoint, LokiLogs);
  }

  lemma ConcludedForwarding(env: Env, spec: Spec, obs: Obs, s: State, w: Marks, ca: CaSecret, t: Trace)
    requires obs.data.Built? && t.Completed?
    requires Feature(LokiStackAvailable) in t.plan.marks && SameAt(w, t.plan.marks, Feature(LokiStackAvailable))
    requires Feature(ClusterLogForwarderAvailable) in t.plan.marks && SameAt(w, t.plan.marks, Feature(ClusterLogForwarderAvailable))
    ensures EndsForwardingWith(Finish(spec, obs, s, Conclude(env, spec, obs, s, w, ca, t)), ForwardingEnd(env, spec, s, t.plan))
  {
    ConcludedFeatures(env, spec, obs, s, w, ca, t, LokiStackAvailable);
    ConcludedFeatures(env, spec, obs, s, w, ca, t, ClusterLogForwarderAvailable);
    ConcludedPublished(env, spec, obs, s, w, ca, t);
  }

  lemma SameForwardingEnd(env: Env, spec: Spec, spec': Spec, obs: Obs, obs': Obs, s: State, s': State)
    requires !PlanOf(env, spec, obs, s).failed && !PlanOf(env, spec', obs', s').failed
    requires spec.logs == spec'.logs && spec.namespace == spec'.namespace && obs.forwarder == obs'.forwarder
    requires GateFor(env, spec, obs.secret) == GateFor(env, spec', obs'.secret)
    requires s.status.logsEndpoint == s'.status.logsEndpoint
    ensures var p, q := PlanOf(env, spec, obs, s), PlanOf(env, spec', obs', s');
            && Feature(LokiStackAvailable) in p.marks && Feature(ClusterLogForwarderAvailable) in p.marks
            && Feature(LokiStackAvailable) in q.marks && Feature(ClusterLogForwarderAvailable) in q.marks
            && ForwardingEnd(env, spec, s, p) == ForwardingEnd(env, spec', s', q)
  {
    hide MakePlan;
    ForwardingIgnoresUsage(env, spec, spec', obs, obs', s.status.usageLogsEndpoint, s'.status.usageLogsEndpoint);
    assert EffectiveNamespace(env, spec) == EffectiveNamespace(env, spec');
  }

  /** Two completed rounds with the same gate verdict and the same log forwarding
      observations agree on its conditions, endpoint and templates, whatever the usage
      logs pipeline observed. */
  lemma PipelinesDoNotInterfere(env: Env, spec: Spec, spec': Spec, obs: Obs, obs': Obs, s: State, s': State)
    requires Completes(env, spec, obs, s) && Completes(env, spec', obs', s')
    requires spec.logs == spec'.logs && spec.namespace == spec'.namespace && obs.forwarder == obs'.forwarder
    requires GateFor(env, spec, obs.secret) == GateFor(env, spec', obs'.secret)
    requires s.status.logsEndpoint == s'.status.logsEndpoint
    ensures exists end :: EndsForwardingWith(Reconcile(env, spec, obs, s), end) &&
                          EndsForwardingWith(Reconcile(env, spec', obs', s'), end)
  {
    ForwardingEnds(env, spec, obs, s);
    ForwardingEnds(env, spec', obs', s');
    SameForwardingEnd(env, spec, spec', obs, obs', s, s');
  }

  predicate IsLogFeature(f: Feature) {
    f.UsageLogsLokiStackAvailable? || f.UsageLogsCollectorAvailable? || f.LokiStackAvailable? || f.ClusterLogForwarderAvailable?
  }

  /** In a completed round a feature that the plan wrote ends as the plan wrote it; only the
      stack's condition may be rewritten behind the plan. */
  lemma PlannedConditions(env: Env, spec: Spec, obs: Obs, s: State, f: Feature)
    requires Completes(env, spec, obs, s) && !f.MonitoringStackAvailable?
    requires Feature(f) in PlanOf(env, spec, obs, s).marks
    ensures var r := Reconcile(env, spec, obs, s);
            var plan := PlanOf(env, spec, obs, s);
            var t := Feature(f);
            && t in r.outcome.written && r.outcome.written[t] == plan.marks[t]
            && t in r.state.status.conditions && r.state.status.conditions[t] == plan.marks[t]
  {
    hide Body;
    hide MakePlan;
    hide Conclude;
    hide Finish;
    CompletedShape(env, spec, obs, s);
    WorkMarksOver(env, spec, obs, s, Feature(f));
    ConcludedFeatures(env, spec, obs, s, WorkMarks(env, spec, obs, s), CaOf(env, spec, obs, s).caSecret,
                      TraceOf(env, spec, obs, s), f);
  }

  /** The log conditions are among them. */
  lemma LogConditions(env: Env, spec: Spec, obs: Obs, s: State, f: Feature)
    requires Completes(env, spec, obs, s) && IsLogFeature(f)
    ensures var r := Reconcile(env, spec, obs, s);
            var plan := PlanOf(env, spec, obs, s);
            var t := Feature(f);
            && !plan.failed && t in plan.marks
            && t in r.outcome.written && r.outcome.written[t] == plan.marks[t]
            && t in r.state.status.conditions && r.state.status.conditions[t] == plan.marks[t]
  {
    hide Body;
    hide MakePlan;
    hide Conclude;
    hide Finish;
    CompletedShape(env, spec, obs, s);
    PlanWritesLog(env, spec, obs, s.status.usageLogsEndpoint, f);
    PlannedConditions(env, spec, obs, s, f);
  }

  lemma PlanWritesLog(env: Env, spec: Spec, obs: Obs, endpoint: string, f: Feature)
    requires !MakePlan(env, spec, obs, endpoint).failed && IsLogFeature(f)
    ensures Feature(f) in MakePlan(env, spec, obs, endpoint).marks
  {
    assert LOKI_COMPONENTS[0] == LokiUsageLogs && LOKI_COMPONENTS[1] == LokiLogs;
    PlanPipelineMarks(env, spec, obs, endpoint, LokiUsageLogs);
    PlanPipelineMarks(env, spec, obs, endpoint, LokiLogs);
  }

  /** Endpoints and forwarding names are read off the conditions the round ends with. */
  lemma PublishedFromConditions(env: Env, spec: Spec, obs: Obs, s: State)
    requires Completes(env, spec, obs, s)
    ensures var status := Reconcile(env, spec, obs, s).state.status;
            var namespace := EffectiveNamespace(env, spec);
            && obs.data.Built?
            && status.usageLogsEndpoint == Publish(UsageStorage(spec), status.conditions, UsageLogsLokiStackAvailable,
                                                   UsageLogsURL(namespace), s.status.usageLogsEndpoint).endpoint
            && status.logsEndpoint == Publish(spec.logs.Some?, status.conditions, LokiStackAvailable,
                                              LokiQueryURL(namespace), s.status.logsEndpoint).endpoint
            && status.forwarding == (if HasStatus(status.conditions, Feature(UsageLogsCollectorAvailable), True)
                                     then obs.data.exporterNames else [])
  {
    CompletedShape(env, spec, obs, s);
    ConcludedPublished(env, spec, obs, s, WorkMarks(env, spec, obs, s), CaOf(env, spec, obs, s).caSecret,
                       TraceOf(env, spec, obs, s));
  }

  lemma ConcludedPublished(env: Env, spec: Spec, obs: Obs, s: State, w: Marks, ca: CaSecret, t: Trace)
    requires obs.data.Built? && t.Completed?
    ensures var status := Finish(spec, obs, s, Conclude(env, spec, obs, s, w, ca, t)).state.status;
            var namespace := EffectiveNamespace(env, spec);
            && status.usageLogsEndpoint == Publish(UsageStorage(spec), status.conditions, UsageLogsLokiStackAvailable,
                                                   UsageLogsURL(namespace), s.status.usageLogsEndpoint).endpoint
            && status.logsEndpoint == Publish(spec.logs.Some?, status.conditions, LokiStackAvailable,
                                              LokiQueryURL(namespace), s.status.logsEndpoint).endpoint
            && status.forwarding == (if HasStatus(status.conditions, Feature(UsageLogsCollectorAvailable), True)
                                     then obs.data.exporterNames else [])
  {
    ConcludedFeatures(env, spec, obs, s, w, ca, t, UsageLogsLokiStackAvailable);
    ConcludedFeatures(env, spec, obs, s, w, ca, t, LokiStackAvailable);
    ConcludedFeatures(env, spec, obs, s, w, ca, t, UsageLogsCollectorAvailable);
  }
}
