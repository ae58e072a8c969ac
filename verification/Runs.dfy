/** What every sequence of rounds keeps. */
module Runs {
  import opened Conditions
  import opened Cluster
  import opened Sweep
  import opened Monitoring
  import opened PlanProperties
  import opened Round
  import opened RoundProperties

  /** One round of a run: the spec it read, what it observed, and whether its status patch
      was accepted. */
  datatype Input = Input(spec: Spec, obs: Obs, patched: bool)

  ghost function RoundOf(env: Env, i: Input, s: State): Result {
    Reconcile(env, i.spec, i.obs, s)
  }

  /** The state after a round; without the patch the stored status stays. */
  ghost function Step(env: Env, i: Input, s: State): State {
    var r := RoundOf(env, i, s);
    if i.patched then r.state else r.state.(status := s.status)
  }

  /** Only rounds write the status; between rounds anything may happen to the cluster. */
  ghost predicate IsRun(env: Env, states: seq<State>, inputs: seq<Input>) {
    |states| == |inputs| &&
    forall i :: 0 <= i < |inputs| - 1 ==> states[i + 1].status == Step(env, inputs[i], states[i]).status
  }

  // ---- Endpoints ----

  lemma CommitStoppedKeeps(env: Env, spec: Spec, obs: Obs, s: State, w: Marks, plan: Plan)
    requires obs.data.Built?
    ensures var d := Commit(env, spec, obs, s, w, plan);
            d.trace.Stopped? ==> d.usageLogsEndpoint == s.status.usageLogsEndpoint && !d.stamps
                                 && s.live.Keys <= d.live.Keys
  {
    var desired := Render(obs.render, plan.sources);
    var ca := PrepareCA(env, spec, obs.ca, desired, s.live, s.caSecret);
    CaGrows(env, spec, obs.ca, desired, s.live, s.caSecret);
    var applied := if ca.ready then desired else WithoutMonitoringStack(desired);
    ApplyFrame(env.uid, ca.live, applied);
    if obs.deployStopped.Some? { ApplyFrame(env.uid, ca.live, Only(applied, obs.deployStopped.value)); }
  }

  lemma CaGrows(env: Env, spec: Spec, o: CaObs, desired: seq<Manifest>, live: Live, current: CaSecret)
    ensures live.Keys <= PrepareCA(env, spec, o, desired, live, current).live.Keys
  {
    var configMap := CaConfigMap(desired, EffectiveNamespace(env, spec));
    if configMap.Some? { ApplyFrame(env.uid, live, [configMap.value]); }
  }

  /** A round that does not complete keeps the published endpoint and stamps nothing; unless
      the spec is Removed it deletes nothing either. */
  lemma StoppedKeeps(env: Env, spec: Spec, obs: Obs, s: State)
    requires !Completes(env, spec, obs, s)
    ensures Body(env, spec, obs, s).usageLogsEndpoint == s.status.usageLogsEndpoint
    ensures !Body(env, spec, obs, s).stamps
    ensures !spec.removed ==> s.live.Keys <= Body(env, spec, obs, s).live.Keys
  {
    hide MakePlan;
    hide Commit;
    hide DeleteAllOwned;
    hide Aggregate;
    if obs.data.Built? {
      var plan := MakePlan(env, spec, obs, s.status.usageLogsEndpoint);
      CommitStoppedKeeps(env, spec, obs, s, BaseMarks(spec, obs) + plan.marks, plan);
    }
  }

  // ---- Deleting the usage logs collector has a cause ----

  /** A managed round with usage log storage, in which neither a missing collector CRD nor a
      missing credential keeps the collector from rendering. */
  predicate CollectorWanted(i: Input) {
    && !i.spec.removed && UsageStorage(i.spec)
    && i.obs.usage.collectorCrd != No
    && (AwaitsCredential(i.spec) ==> i.obs.usage.credential != No)
  }

  /** The round completed and left the usage logs stack confirmed not ready. */
  ghost predicate EndsStackFalse(env: Env, i: Input, s: State) {
    Completes(env, i.spec, i.obs, s) &&
    HasStatus(RoundOf(env, i, s).state.status.conditions, Feature(UsageLogsLokiStackAvailable), False)
  }

  /** A completed round that does not end with the stack False keeps an endpoint published. */
  lemma CompletedKeepsEndpoint(env: Env, i: Input, s: State)
    requires UsageStorage(i.spec) && Completes(env, i.spec, i.obs, s) && !EndsStackFalse(env, i, s)
    requires s.status.usageLogsEndpoint != ""
    ensures RoundOf(env, i, s).state.status.usageLogsEndpoint != ""
  {
    hide Body;
    hide MakePlan;
    PublishedFromConditions(env, i.spec, i.obs, s);
    StackConditionPresent(env, i.spec, i.obs, s);
  }

  lemma StackConditionPresent(env: Env, spec: Spec, obs: Obs, s: State)
    requires Completes(env, spec, obs, s)
    ensures Feature(UsageLogsLokiStackAvailable) in Reconcile(env, spec, obs, s).state.status.conditions
  {
    LogConditions(env, spec, obs, s, UsageLogsLokiStackAvailable);
  }

  lemma StepKeepsEndpoint(env: Env, i: Input, s: State)
    requires UsageStorage(i.spec) && !EndsStackFalse(env, i, s)
    requires s.status.usageLogsEndpoint != ""
    ensures Step(env, i, s).status.usageLogsEndpoint != ""
  {
    if Completes(env, i.spec, i.obs, s) {
      CompletedKeepsEndpoint(env, i, s);
    } else {
      StoppedKeeps(env, i.spec, i.obs, s);
    }
  }

  /** The keys a round's sweep deletes. */
  ghost function SweptAway(env: Env, i: Input, s: State): set<Key> {
    match RoundOf(env, i, s).outcome.trace
    case Stopped(_) => {}
    case Completed(_, _, _, _, before, swept) => before.Keys - swept.live.Keys
  }

  /** A live object, labelled as the usage logs templates label it, at a key that the
      collector templates render in this round. */
  ghost predicate IsCollectorResource(env: Env, i: Input, s: State, k: Key) {
    var before := TraceOf(env, i.spec, i.obs, s).beforeSweep;
    && k in before && before[k].component == LokiUsageLogs
    && k in Keys(Render(i.obs.render, USAGE_COLLECTOR))
    && WellScoped(k) && !IsTargetAllocatorRBAC(k)
  }

  lemma {:induction false} RenderConcat(render: Template -> seq<Manifest>, a: seq<Template>, b: seq<Template>)
    ensures Render(render, a + b) == Render(render, a) + Render(render, b)
  {
    if a == [] {
      assert a + b == b;
    } else {
      assert (a + b)[0] == a[0] && (a + b)[1..] == a[1..] + b;
      RenderConcat(render, a[1..], b);
    }
  }

  lemma KeysConcat(a: seq<Manifest>, b: seq<Manifest>)
    ensures Keys(a + b) == Keys(a) + Keys(b)
  {
    forall k | k in Keys(a)
      ensures k in Keys(a + b)
    {
      var i :| 0 <= i < |a| && a[i].key == k;
      assert (a + b)[i].key == k;
    }
    forall k | k in Keys(b)
      ensures k in Keys(a + b)
    {
      var i :| 0 <= i < |b| && b[i].key == k;
      assert (a + b)[|a| + i].key == k;
    }
  }

  lemma RenderedAmong(render: Template -> seq<Manifest>, a: seq<Template>, b: seq<Template>, c: seq<Template>, k: Key)
    requires k in Keys(Render(render, b))
    ensures k in Keys(Render(render, a + b + c))
  {
    RenderConcat(render, a + b, c);
    RenderConcat(render, a, b);
    KeysConcat(Render(render, a + b), Render(render, c));
    KeysConcat(Render(render, a), Render(render, b));
  }

  /** The usage logs pipeline, open and with an endpoint, renders the collector or fails. */
  lemma CollectorRenders(i: Input, endpoint: string)
    requires CollectorWanted(i) && endpoint != "" && !DeployUsageLogs(i.spec, i.obs.usage, endpoint).failed
    ensures exists stack :: DeployUsageLogs(i.spec, i.obs.usage, endpoint).sources == stack + USAGE_COLLECTOR
  {
    var stack := DeployLokiStack(UsageStorage(i.spec), i.obs.usage.stack, UsageLogsLokiStackAvailable,
                                 [UsageLogsLokiStackTemplate, UsageLogsLokiStackPolicy]);
    assert DeployUsageLogsCollector(i.spec, i.obs.usage, endpoint).sources == USAGE_COLLECTOR;
    assert DeployUsageLogs(i.spec, i.obs.usage, endpoint).sources == stack.sources + USAGE_COLLECTOR;
  }

  /** With an endpoint published, the plan of a round that did not fail renders the collector
      or withholds its pipeline. */
  lemma PlanKeepsCollector(env: Env, i: Input, endpoint: string, k: Key)
    requires CollectorWanted(i) && endpoint != "" && !MakePlan(env, i.spec, i.obs, endpoint).failed
    requires k in Keys(Render(i.obs.render, USAGE_COLLECTOR))
    ensures var plan := MakePlan(env, i.spec, i.obs, endpoint);
            LokiUsageLogs in plan.withheld || k in Keys(Render(i.obs.render, plan.sources))
  {
    hide MakePlan;
    hide ValidateStorage;
    hide RunActions;
    var plan := MakePlan(env, i.spec, i.obs, endpoint);
    PlanShape(env, i.spec, i.obs, endpoint);
    var gated := ValidateStorage(env, i.spec, i.obs.secret);
    if LokiUsageLogs !in gated.withheld {
      var core := RunActions(ACTIONS, i.spec, i.obs.core);
      var logs := DeployPipeline(LokiLogs, i.spec, i.obs, endpoint, gated);
      CollectorRenders(i, endpoint);
      var stack :| DeployUsageLogs(i.spec, i.obs.usage, endpoint).sources == stack + USAGE_COLLECTOR;
      assert plan.sources == (core.sources + stack) + USAGE_COLLECTOR + logs.sources;
      RenderedAmong(i.obs.render, core.sources + stack, USAGE_COLLECTOR, logs.sources, k);
    }
  }

  /** With an endpoint published, no sweep deletes a collector resource. */
  lemma PublishedEndpointKeepsCollector(env: Env, i: Input, s: State, k: Key)
    requires CollectorWanted(i) && s.status.usageLogsEndpoint != ""
    requires IsCollectorResource(env, i, s, k)
    ensures k !in SweptAway(env, i, s)
  {
    hide Body;
    hide MakePlan;
    hide PrepareCA;
    hide CollectGarbage;
    if Completes(env, i.spec, i.obs, s) {
      CompletedShape(env, i.spec, i.obs, s);
      PlanKeepsCollector(env, i, s.status.usageLogsEndpoint, k);
      var t := TraceOf(env, i.spec, i.obs, s);
      var kept := Kept(Keys(t.desired), t.plan.withheld);
      if LokiUsageLogs in kept.withheld {
        WithheldSurvives(OwnerOf(env, i.spec), env.allowed, kept, i.obs.sweep, t.beforeSweep, k);
      } else {
        DesiredSurvives(OwnerOf(env, i.spec), env.allowed, kept, i.obs.sweep, t.beforeSweep, k);
      }
    }
  }

  lemma {:induction false} EndpointStaysPublished(env: Env, states: seq<State>, inputs: seq<Input>, j: nat, n: nat)
    requires IsRun(env, states, inputs) && j <= n < |states|
    requires states[j].status.usageLogsEndpoint != ""
    requires forall m :: j <= m < n ==> UsageStorage(inputs[m].spec) && !EndsStackFalse(env, inputs[m], states[m])
    ensures states[n].status.usageLogsEndpoint != ""
  {
    hide Step;
    hide EndsStackFalse;
    if j < n {
      EndpointStaysPublished(env, states, inputs, j, n - 1);
      StepKeepsEndpoint(env, inputs[n - 1], states[n - 1]);
    }
  }

  /** Whole-run causality. Once the endpoint is published, a sweep in a round that wants the
      collector deletes a collector resource only after a completed round that ended with
      the stack's condition False; Unknown, aborted, unpatched, withheld and Removed rounds,
      and rounds without the CRD or the credential, never cause it. */
  lemma CollectorDeletionHasCause(env: Env, states: seq<State>, inputs: seq<Input>, j: nat, n: nat, k: Key)
    requires IsRun(env, states, inputs) && j <= n < |states|
    requires states[j].status.usageLogsEndpoint != ""
    requires forall m :: j <= m < n ==> UsageStorage(inputs[m].spec)
    requires CollectorWanted(inputs[n])
    requires IsCollectorResource(env, inputs[n], states[n], k) && k in SweptAway(env, inputs[n], states[n])
    ensures exists m :: j <= m < n && EndsStackFalse(env, inputs[m], states[m])
  {
    hide Step;
    hide EndsStackFalse;
    hide IsCollectorResource;
    hide SweptAway;
    if forall m :: j <= m < n ==> !EndsStackFalse(env, inputs[m], states[m]) {
      EndpointStaysPublished(env, states, inputs, j, n);
      PublishedEndpointKeepsCollector(env, inputs[n], states[n], k);
    }
  }

  /** The cause is a real one: a completed round that ends with the stack False clears the
      endpoint, and the next round renders no collector template, clean or not. */
  lemma FalseStackStopsCollector(env: Env, i: Input, s: State, next: Input, s': State, t: Template)
    requires UsageStorage(i.spec) && UsageStorage(next.spec) && EndsStackFalse(env, i, s) && i.patched
    requires s'.status == Step(env, i, s).status
    requires t in USAGE_COLLECTOR
    ensures s'.status.usageLogsEndpoint == ""
    ensures t !in PlanOf(env, next.spec, next.obs, s').sources
  {
    hide Body;
    hide MakePlan;
    PublishedFromConditions(env, i.spec, i.obs, s);
    NoEndpointNoCollector(env, next, s', t);
  }

  /** The manifests the CA step applies ahead of the deploy. */
  function AppliedFirst(env: Env, spec: Spec, o: CaObs, desired: seq<Manifest>): seq<Manifest> {
    var namespace := EffectiveNamespace(env, spec);
    var configMap := CaConfigMap(desired, namespace);
    if HasStack(desired, namespace) && configMap.Some? && o.configMapApplied then [configMap.value] else []
  }

  lemma {:induction false} CaConfigMapDesired(desired: seq<Manifest>, namespace: string)
    ensures CaConfigMap(desired, namespace).Some? ==> CaConfigMap(desired, namespace).value.key in Keys(desired)
  {
    if desired != [] {
      var n := |desired| - 1;
      CaConfigMapDesired(desired[..n], namespace);
      assert desired == desired[..n] + [desired[n]];
      KeysConcat(desired[..n], [desired[n]]);
      assert [desired[n]][0].key in Keys([desired[n]]);
    }
  }

  lemma AppliedFirstDesired(env: Env, spec: Spec, o: CaObs, desired: seq<Manifest>)
    ensures Keys(AppliedFirst(env, spec, o, desired)) <= Keys(desired)
  {
    CaConfigMapDesired(desired, EffectiveNamespace(env, spec));
  }

  lemma CaStepApplies(env: Env, spec: Spec, o: CaObs, desired: seq<Manifest>, live: Live, current: CaSecret)
    ensures PrepareCA(env, spec, o, desired, live, current).live == Apply(env.uid, live, AppliedFirst(env, spec, o, desired))
  {
  }

  lemma {:induction false} WithoutStackKeys(desired: seq<Manifest>)
    ensures Keys(WithoutMonitoringStack(desired)) <= Keys(desired)
  {
    if desired != [] {
      WithoutStackKeys(desired[1..]);
      KeysFirst(desired);
      var rest := WithoutMonitoringStack(desired[1..]);
      if desired[0].key.kind.MonitoringStackKind? {
        assert WithoutMonitoringStack(desired) == rest;
      } else {
        assert WithoutMonitoringStack(desired)[1..] == rest;
        KeysFirst(WithoutMonitoringStack(desired));
      }
    }
  }

  /** No template but the collector's renders the key. */
  ghost predicate OnlyCollectorRenders(render: Template -> seq<Manifest>, k: Key) {
    forall t :: t !in USAGE_COLLECTOR ==> k !in Keys(render(t))
  }

  lemma {:induction false} NotRendered(render: Template -> seq<Manifest>, sources: seq<Template>, k: Key)
    requires forall t :: t in sources ==> k !in Keys(render(t))
    ensures k !in Keys(Render(render, sources))
  {
    if sources != [] {
      NotRendered(render, sources[1..], k);
      KeysConcat(render(sources[0]), Render(render, sources[1..]));
    }
  }

  /** An object that a round does not desire reaches its sweep as it was. */
  lemma UndesiredReachesSweep(env: Env, spec: Spec, obs: Obs, s: State, k: Key)
    requires var t := TraceOf(env, spec, obs, s); k in s.live && k !in Keys(t.desired)
    ensures var t := TraceOf(env, spec, obs, s); k in t.beforeSweep && t.beforeSweep[k] == s.live[k]
  {
    hide MakePlan;
    hide PrepareCA;
    hide CollectGarbage;
    var desired := Render(obs.render, PlanOf(env, spec, obs, s).sources);
    var ca := CaOf(env, spec, obs, s);
    CaStepApplies(env, spec, obs.ca, desired, s.live, s.caSecret);
    AppliedFirstDesired(env, spec, obs.ca, desired);
    ApplyFrame(env.uid, s.live, AppliedFirst(env, spec, obs.ca, desired));
    WithoutStackKeys(desired);
    ApplyFrame(env.uid, ca.live, if ca.ready then desired else WithoutMonitoringStack(desired));
  }

  /** What the next round does with the collector: once it completes without a refusal and
      its sweep reports no error, every listed, labelled, owned and in-scope object that
      only the collector templates render is gone. */
  lemma FalseStackSweepsCollector(env: Env, i: Input, s: State, next: Input, s': State, k: Key)
    requires UsageStorage(i.spec) && UsageStorage(next.spec) && EndsStackFalse(env, i, s) && i.patched
    requires s'.status == Step(env, i, s).status
    requires Completes(env, next.spec, next.obs, s') && !PlanOf(env, next.spec, next.obs, s').refused
    requires TraceOf(env, next.spec, next.obs, s').swept.ok && OnlyCollectorRenders(next.obs.render, k)
    requires k in s'.live && s'.live[k].partOf && k in next.obs.sweep.listed
    requires IsOwned(OwnerOf(env, next.spec), s'.live[k]) && InScope(OwnerOf(env, next.spec), k)
    ensures k !in RoundOf(env, next, s').state.live
  {
    hide Body;
    hide MakePlan;
    hide PrepareCA;
    hide CollectGarbage;
    hide Aggregate;
    hide Publish;
    hide Step;
    var t := TraceOf(env, next.spec, next.obs, s');
    var kept := Kept(Keys(t.desired), t.plan.withheld);
    forall template | template in t.plan.sources
      ensures k !in Keys(next.obs.render(template))
    {
      if template in USAGE_COLLECTOR { FalseStackStopsCollector(env, i, s, next, s', template); }
    }
    NotRendered(next.obs.render, t.plan.sources, k);
    UndesiredReachesSweep(env, next.spec, next.obs, s', k);
    CompletedShape(env, next.spec, next.obs, s');
    OpenPlanWithholdsNothing(env, next.spec, next.obs, s');
    MainPhaseDeletes(OwnerOf(env, next.spec), env.allowed, kept, next.obs.sweep, t.beforeSweep, k);
  }

  lemma OpenPlanWithholdsNothing(env: Env, spec: Spec, obs: Obs, s: State)
    requires var plan := PlanOf(env, spec, obs, s); !plan.refused && !plan.failed
    ensures PlanOf(env, spec, obs, s).withheld == {}
  {
    hide MakePlan;
    hide ValidateStorage;
    PlanShape(env, spec, obs, s.status.usageLogsEndpoint);
    GateShape(env, spec, obs.secret);
  }

  lemma NoEndpointNoCollector(env: Env, i: Input, s: State, t: Template)
    requires UsageStorage(i.spec) && s.status.usageLogsEndpoint == "" && t in USAGE_COLLECTOR
    ensures t !in PlanOf(env, i.spec, i.obs, s).sources
  {
    hide MakePlan;
    hide ValidateStorage;
    hide DeployUsageLogs;
    hide DeployLogForwarding;
    assert UsageTemplate(t);
    if t in PlanOf(env, i.spec, i.obs, s).sources {
      SourcesComeFrom(env, i.spec, i.obs, "", t);
      NoEndpointStackOnly(i.spec, i.obs.usage, t);
    }
  }

  lemma NoEndpointStackOnly(spec: Spec, o: UsageObs, t: Template)
    requires UsageStorage(spec) && t in USAGE_COLLECTOR
    ensures t !in DeployUsageLogs(spec, o, "").sources
  {
    hide DeployLokiStack;
    StackTemplates(UsageStorage(spec), o.stack, UsageLogsLokiStackAvailable, [UsageLogsLokiStackTemplate, UsageLogsLokiStackPolicy]);
  }

  // ---- The platform release ----

  /** The rounds that stamp: completed, without an error, with the CA ready and a version read. */
  ghost predicate Stamps(env: Env, i: Input, s: State) {
    var r := RoundOf(env, i, s);
    i.patched && !r.outcome.failed && r.outcome.trace.Completed? && r.outcome.trace.caReady
    && Version(i.obs.platformVersion) != ""
  }

  lemma StepStamps(env: Env, i: Input, s: State)
    ensures Step(env, i, s).status.platformRelease ==
            if Stamps(env, i, s) then Version(i.obs.platformVersion) else s.status.platformRelease
  {
    hide Body;
    hide MakePlan;
    hide PrepareCA;
    hide CollectGarbage;
    hide Aggregate;
    hide Publish;
    if Completes(env, i.spec, i.obs, s) {
      CompletedShape(env, i.spec, i.obs, s);
    } else {
      StoppedKeeps(env, i.spec, i.obs, s);
    }
  }

  /** No failing, removed or early-exit round stamps. */
  lemma OnlyCompletedRoundsStamp(env: Env, i: Input, s: State)
    requires Stamps(env, i, s)
    ensures !i.spec.removed && i.obs.preconditions.Met? && i.obs.data.Built? && NamespaceMatches(env, i.spec)
    ensures !PlanOf(env, i.spec, i.obs, s).refused
  {
    CompletedMeans(env, i.spec, i.obs, s);
    CompletedShape(env, i.spec, i.obs, s);
  }

  lemma RunStamps(env: Env, states: seq<State>, inputs: seq<Input>, m: nat)
    requires IsRun(env, states, inputs) && m + 1 < |states|
    ensures states[m + 1].status.platformRelease ==
            if Stamps(env, inputs[m], states[m]) then Version(inputs[m].obs.platformVersion)
            else states[m].status.platformRelease
  {
    hide Step;
    hide Stamps;
    StepStamps(env, inputs[m], states[m]);
  }

  lemma {:induction false} ReleaseUnchanged(env: Env, states: seq<State>, inputs: seq<Input>, j: nat, n: nat)
    requires IsRun(env, states, inputs) && j <= n < |states|
    requires forall m :: j <= m < n ==> !Stamps(env, inputs[m], states[m])
    ensures states[n].status.platformRelease == states[j].status.platformRelease
  {
    hide Step;
    hide Stamps;
    if j < n {
      ReleaseUnchanged(env, states, inputs, j, n - 1);
      RunStamps(env, states, inputs, n - 1);
    }
  }

  /** Over any run the release is the version read in the latest stamping round. */
  lemma ReleaseIsLatestStamp(env: Env, states: seq<State>, inputs: seq<Input>, j: nat, n: nat)
    requires IsRun(env, states, inputs) && j < n < |states|
    requires Stamps(env, inputs[j], states[j])
    requires forall m :: j < m < n ==> !Stamps(env, inputs[m], states[m])
    ensures states[n].status.platformRelease == Version(inputs[j].obs.platformVersion)
  {
    hide Step;
    hide Stamps;
    RunStamps(env, states, inputs, j);
    ReleaseUnchanged(env, states, inputs, j + 1, n);
  }
}
