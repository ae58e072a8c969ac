/** With spec and observations held fixed, rounds reach a fixed point at the second one. */
module Convergence {
  import opened Conditions
  import opened Cluster
  import opened Sweep
  import opened Monitoring
  import opened PlanProperties
  import opened Round
  import opened RoundProperties
  import opened Runs

  /** The templates render cluster RBAC without a namespace. */
  ghost predicate RendersScoped(render: Template -> seq<Manifest>) {
    forall t, i :: 0 <= i < |render(t)| ==> WellScoped(render(t)[i].key)
  }

  lemma {:induction false} RenderedScoped(render: Template -> seq<Manifest>, sources: seq<Template>, i: nat)
    requires RendersScoped(render) && i < |Render(render, sources)|
    ensures WellScoped(Render(render, sources)[i].key)
  {
    var first := render(sources[0]);
    if i < |first| {
      assert Render(render, sources)[i] == first[i];
    } else {
      RenderedScoped(render, sources[1..], i - |first|);
    }
  }

  lemma RenderedKeysScoped(render: Template -> seq<Manifest>, sources: seq<Template>, k: Key)
    requires RendersScoped(render) && k in Keys(Render(render, sources))
    ensures WellScoped(k)
  {
    var desired := Render(render, sources);
    var i :| 0 <= i < |desired| && desired[i].key == k;
    RenderedScoped(render, sources, i);
  }

  // ---- What a round applies, applied again ----

  lemma {:induction false} ApplyConcat(uid: string, live: Live, a: seq<Manifest>, b: seq<Manifest>)
    ensures Apply(uid, Apply(uid, live, a), b) == Apply(uid, live, a + b)
    decreases a
  {
    if a == [] {
      assert a + b == b;
    } else {
      assert (a + b)[0] == a[0] && (a + b)[1..] == a[1..] + b;
      ApplyConcat(uid, live[a[0].key := Stamp(uid, a[0].body)], a[1..], b);
    }
  }

  /** Applying the same manifests twice is applying them once. */
  lemma ApplyTwice(uid: string, live: Live, a: seq<Manifest>, b: seq<Manifest>)
    ensures var once := Apply(uid, Apply(uid, live, a), b);
            Apply(uid, Apply(uid, once, a), b) == once
  {
    ApplyConcat(uid, live, a, b);
    var once := Apply(uid, live, a + b);
    ApplyConcat(uid, once, a, b);
    ApplyFrame(uid, live, a + b);
    ApplySettles(uid, live, a + b, once);
  }

  /** The same with a sweep that keeps those manifests in between. */
  lemma ApplyAfterSweep(env: Env, owner: Owner, kept: Kept, obs: SweepObs, live: Live, a: seq<Manifest>, b: seq<Manifest>)
    requires Keys(a) <= kept.desired && Keys(b) <= kept.desired
    requires forall k :: k in kept.desired ==> WellScoped(k)
    ensures var applied := Apply(env.uid, Apply(env.uid, live, a), b);
            var swept := CollectGarbage(owner, env.allowed, kept, obs, applied);
            && Apply(env.uid, Apply(env.uid, swept.live, a), b) == swept.live
            && CollectGarbage(owner, env.allowed, kept, obs, swept.live) == swept
  {
    var uid := env.uid;
    ApplyConcat(uid, live, a, b);
    var applied := Apply(uid, live, a + b);
    var swept := CollectGarbage(owner, env.allowed, kept, obs, applied);
    ApplyFrame(uid, live, a + b);
    SweepIsSound(owner, env.allowed, kept, obs, applied);
    KeysConcat(a, b);
    forall k | k in Keys(a + b)
      ensures k in swept.live && swept.live[k] == applied[k]
    {
      DesiredSurvives(owner, env.allowed, kept, obs, applied, k);
    }
    ApplySettles(uid, live, a + b, swept.live);
    ApplyConcat(uid, swept.live, a, b);
    SweepIsIdempotent(owner, env.allowed, kept, obs, applied);
  }

  // ---- The CA step, repeated ----

  /** The CA step repeats its answer, and its live effect is the manifests above. */
  lemma CaStepRepeats(env: Env, spec: Spec, o: CaObs, desired: seq<Manifest>, live: Live, current: CaSecret, live': Live)
    ensures var c := PrepareCA(env, spec, o, desired, live, current);
            var c' := PrepareCA(env, spec, o, desired, live', c.caSecret);
            && c.live == Apply(env.uid, live, AppliedFirst(env, spec, o, desired))
            && c'.live == Apply(env.uid, live', AppliedFirst(env, spec, o, desired))
            && c'.ready == c.ready && c'.failed == c.failed && c'.caSecret == c.caSecret
  {
    CaStepApplies(env, spec, o, desired, live, current);
    var c := PrepareCA(env, spec, o, desired, live, current);
    CaStepApplies(env, spec, o, desired, live', c.caSecret);
    CaStepAnswers(env, spec, o, desired, live, current, live');
  }

  lemma SyncRepeats(spec: Spec, o: CaObs, live: Live, current: CaSecret, live': Live)
    ensures var c := SyncCA(spec, o, live, current);
            var c' := SyncCA(spec, o, live', c.caSecret);
            c'.ready == c.ready && c'.failed == c.failed && c'.caSecret == c.caSecret
  {
  }

  lemma CaStepAnswers(env: Env, spec: Spec, o: CaObs, desired: seq<Manifest>, live: Live, current: CaSecret, live': Live)
    ensures var c := PrepareCA(env, spec, o, desired, live, current);
            var c' := PrepareCA(env, spec, o, desired, live', c.caSecret);
            c'.ready == c.ready && c'.failed == c.failed && c'.caSecret == c.caSecret
  {
    var configMap := CaConfigMap(desired, EffectiveNamespace(env, spec));
    if configMap.Some? {
      SyncRepeats(spec, o, Apply(env.uid, live, [configMap.value]), current, Apply(env.uid, live', [configMap.value]));
    }
  }

  // ---- The cluster after a round is a fixed point of the round ----

  /** Two drafts that end the same way on the cluster. */
  predicate SameCluster(a: Draft, b: Draft) {
    && a.live == b.live && a.caSecret == b.caSecret
    && a.failed == b.failed && a.stamps == b.stamps
    && (a.trace.Completed? <==> b.trace.Completed?)
  }

  /** The four ways a commit can end, each with what it leaves on the cluster. */
  lemma CommitEnds(env: Env, spec: Spec, obs: Obs, s: State, w: Marks, plan: Plan)
    requires obs.data.Built?
    ensures var d := Commit(env, spec, obs, s, w, plan);
            var desired := Render(obs.render, plan.sources);
            var ca := PrepareCA(env, spec, obs.ca, desired, s.live, s.caSecret);
            var applied := if ca.ready then desired else WithoutMonitoringStack(desired);
            && d.caSecret == ca.caSecret
            && d.live == (if ca.failed then ca.live
                          else if obs.deployStopped.Some? then Apply(env.uid, ca.live, Only(applied, obs.deployStopped.value))
                          else if !obs.policyCleanup then Apply(env.uid, ca.live, applied)
                          else CollectGarbage(OwnerOf(env, spec), env.allowed, Kept(Keys(desired), plan.withheld),
                                              obs.sweep, Apply(env.uid, ca.live, applied)).live)
            && (d.trace.Completed? <==> !ca.failed && obs.deployStopped.None? && obs.policyCleanup)
            && d.failed == (if d.trace.Completed? then plan.refused else true)
            && d.stamps == (d.trace.Completed? && !plan.refused && ca.ready)
  {
    hide PrepareCA;
    hide CollectGarbage;
    hide Aggregate;
    hide Publish;
  }

  lemma CommitRepeats(env: Env, spec: Spec, obs: Obs, s: State, t: State, w: Marks, plan: Plan)
    requires obs.data.Built? && RendersScoped(obs.render)
    requires var d := Commit(env, spec, obs, s, w, plan); t.live == d.live && t.caSecret == d.caSecret
    ensures SameCluster(Commit(env, spec, obs, t, w, plan), Commit(env, spec, obs, s, w, plan))
  {
    var desired := Render(obs.render, plan.sources);
    CommitEnds(env, spec, obs, s, w, plan);
    CommitEnds(env, spec, obs, t, w, plan);
    CaStepRepeats(env, spec, obs.ca, desired, s.live, s.caSecret, t.live);
    var ca := PrepareCA(env, spec, obs.ca, desired, s.live, s.caSecret);
    var applied := if ca.ready then desired else WithoutMonitoringStack(desired);
    WithoutStackKeys(desired);
    AppliedFirstDesired(env, spec, obs.ca, desired);
    PushRepeats(env, spec, obs, s.live, plan, AppliedFirst(env, spec, obs.ca, desired), applied);
  }

  /** Pushing the same manifests and sweeping again from what is left changes nothing. */
  lemma PushRepeats(env: Env, spec: Spec, obs: Obs, live: Live, plan: Plan, first: seq<Manifest>, applied: seq<Manifest>)
    requires RendersScoped(obs.render)
    requires Keys(first) <= Keys(Render(obs.render, plan.sources)) && Keys(applied) <= Keys(Render(obs.render, plan.sources))
    ensures var once := Apply(env.uid, live, first); Apply(env.uid, once, first) == once
    ensures obs.deployStopped.Some? ==>
              var part := Only(applied, obs.deployStopped.value);
              var once := Apply(env.uid, Apply(env.uid, live, first), part);
              Apply(env.uid, Apply(env.uid, once, first), part) == once
    ensures var once := Apply(env.uid, Apply(env.uid, live, first), applied);
            Apply(env.uid, Apply(env.uid, once, first), applied) == once
    ensures var kept := Kept(Keys(Render(obs.render, plan.sources)), plan.withheld);
            var swept := CollectGarbage(OwnerOf(env, spec), env.allowed, kept, obs.sweep,
                                        Apply(env.uid, Apply(env.uid, live, first), applied));
            && CollectGarbage(OwnerOf(env, spec), env.allowed, kept, obs.sweep,
                              Apply(env.uid, Apply(env.uid, swept.live, first), applied)) == swept
  {
    ApplyTwice(env.uid, live, first, []);
    if obs.deployStopped.Some? { ApplyTwice(env.uid, live, first, Only(applied, obs.deployStopped.value)); }
    ApplyTwice(env.uid, live, first, applied);
    var desired := Render(obs.render, plan.sources);
    forall k | k in Keys(desired)
      ensures WellScoped(k)
    {
      RenderedKeysScoped(obs.render, plan.sources, k);
    }
    ApplyAfterSweep(env, OwnerOf(env, spec), Kept(Keys(desired), plan.withheld), obs.sweep, live, first, applied);
  }

  lemma ConfigureRepeats(env: Env, spec: Spec, obs: Obs, s: State, t: State, w: Marks)
    requires RendersScoped(obs.render) && t.status.usageLogsEndpoint == s.status.usageLogsEndpoint
    requires var d := Configure(env, spec, obs, s, w); t.live == d.live && t.caSecret == d.caSecret
    ensures SameCluster(Configure(env, spec, obs, t, w), Configure(env, spec, obs, s, w))
  {
    if obs.persesProbed && obs.data.Built? {
      var plan := MakePlan(env, spec, obs, s.status.usageLogsEndpoint);
      if !plan.failed { CommitRepeats(env, spec, obs, s, t, w + plan.marks, plan); }
    }
  }

  lemma BodyRepeats(env: Env, spec: Spec, obs: Obs, s: State, t: State)
    requires RendersScoped(obs.render) && t.status.usageLogsEndpoint == s.status.usageLogsEndpoint
    requires var d := Body(env, spec, obs, s); t.live == d.live && t.caSecret == d.caSecret
    ensures SameCluster(Body(env, spec, obs, t), Body(env, spec, obs, s))
  {
    hide MakePlan;
    hide Commit;
    hide CollectGarbage;
    hide DeleteAllOwned;
    hide Aggregate;
    if obs.platformVersion.Unreadable? {
    } else if spec.removed {
      var owner := OwnerOf(env, spec);
      DeleteAllIsSweep(owner, env.allowed, obs.sweep, s.live);
      DeleteAllIsSweep(owner, env.allowed, obs.sweep, t.live);
      SweepIsIdempotent(owner, env.allowed, Kept({}, {}), obs.sweep, s.live);
    } else if NamespaceMatches(env, spec) && obs.preconditions.Met? {
      ConfigureRepeats(env, spec, obs, s, t, BaseMarks(spec, obs));
    }
  }

  // ---- So is the status, once the endpoint is settled ----

  /** Two drafts that end the same way on the status. */
  predicate SameStatus(a: Draft, b: Draft) {
    && a.marks == b.marks && a.usageLogsEndpoint == b.usageLogsEndpoint
    && a.logsEndpoint == b.logsEndpoint && a.forwarding == b.forwarding
  }

  /** t carries what s would carry after the conditions of w are written and aggregated. */
  ghost predicate Follows(s: State, t: State, w: Marks) {
    && (forall f: Feature :: SameAt(t.status.conditions, s.status.conditions + w, Feature(f)))
    && HasStatus(w, DependenciesReady, True)
  }

  lemma AggregateRepeats(s: State, t: State, w: Marks)
    requires Follows(s, t, w)
    ensures Aggregate(t.status.conditions + w) == Aggregate(s.status.conditions + w)
    ensures forall f: Feature :: SameAt(t.status.conditions + w, s.status.conditions + w, Feature(f))
  {
    forall f: Feature
      ensures SameAt(t.status.conditions + w, s.status.conditions + w, Feature(f))
    {
      assert SameAt(t.status.conditions, s.status.conditions + w, Feature(f));
    }
    AggregateReadsFeatures(t.status.conditions + w, s.status.conditions + w);
  }

  lemma PublishRepeats(configured: bool, a: Marks, b: Marks, stack: Feature, url: string, current: string)
    requires SameAt(a, b, Feature(stack))
    ensures Publish(configured, a, stack, url, Publish(configured, b, stack, url, current).endpoint).endpoint ==
            Publish(configured, b, stack, url, current).endpoint
  {
  }

  lemma ConcludeRepeats(env: Env, spec: Spec, obs: Obs, s: State, t: State, w: Marks, ca: CaSecret, x: Trace, y: Trace)
    requires obs.data.Built? && x.Completed? && y.Completed? && x.plan == y.plan && x.caReady == y.caReady
    requires Follows(s, t, AfterThanosSync(spec, obs, w))
    requires var d := Conclude(env, spec, obs, s, w, ca, x);
             && t.status.usageLogsEndpoint == d.usageLogsEndpoint && t.status.logsEndpoint == d.logsEndpoint
    ensures SameStatus(Conclude(env, spec, obs, t, w, ca, y), Conclude(env, spec, obs, s, w, ca, x))
  {
    var w' := AfterThanosSync(spec, obs, w);
    var a, b := t.status.conditions + w', s.status.conditions + w';
    AggregateRepeats(s, t, w');
    var namespace := EffectiveNamespace(env, spec);
    assert SameAt(a, b, Feature(UsageLogsLokiStackAvailable));
    assert SameAt(a, b, Feature(LokiStackAvailable));
    assert SameAt(a, b, Feature(UsageLogsCollectorAvailable));
    PublishRepeats(UsageStorage(spec), a, b, UsageLogsLokiStackAvailable, UsageLogsURL(namespace), s.status.usageLogsEndpoint);
    PublishRepeats(spec.logs.Some?, a, b, LokiStackAvailable, LokiQueryURL(namespace), s.status.logsEndpoint);
  }

  lemma ConcludedFollows(env: Env, spec: Spec, obs: Obs, s: State, w: Marks, ca: CaSecret, x: Trace)
    requires obs.data.Built? && x.Completed? && HasStatus(w, DependenciesReady, True)
    ensures Follows(s, Finish(spec, obs, s, Conclude(env, spec, obs, s, w, ca, x)).state, AfterThanosSync(spec, obs, w))
  {
    var t := Finish(spec, obs, s, Conclude(env, spec, obs, s, w, ca, x)).state;
    forall f: Feature
      ensures SameAt(t.status.conditions, s.status.conditions + AfterThanosSync(spec, obs, w), Feature(f))
    {
      ConcludedFeatures(env, spec, obs, s, w, ca, x, f);
    }
  }

  lemma CompletedStatusRepeats(env: Env, spec: Spec, obs: Obs, s: State, t: State)
    requires Completes(env, spec, obs, s) && Completes(env, spec, obs, t)
    requires t == Reconcile(env, spec, obs, s).state && t.status.usageLogsEndpoint == s.status.usageLogsEndpoint
    ensures SameStatus(Body(env, spec, obs, t), Body(env, spec, obs, s))
  {
    hide Body;
    hide MakePlan;
    hide Aggregate;
    hide Publish;
    hide PrepareCA;
    hide CollectGarbage;
    CompletedShape(env, spec, obs, s);
    CompletedShape(env, spec, obs, t);
    var desired := Render(obs.render, PlanOf(env, spec, obs, s).sources);
    CaStepRepeats(env, spec, obs.ca, desired, s.live, s.caSecret, t.live);
    DependenciesWritten(env, spec, obs, s);
    SameWork(env, spec, obs, s, t);
    var w, ca := WorkMarks(env, spec, obs, s), CaOf(env, spec, obs, s).caSecret;
    ConcludedFollows(env, spec, obs, s, w, ca, TraceOf(env, spec, obs, s));
    ConcludeRepeats(env, spec, obs, s, t, w, ca, TraceOf(env, spec, obs, s), TraceOf(env, spec, obs, t));
  }

  lemma SameWork(env: Env, spec: Spec, obs: Obs, s: State, t: State)
    requires t.status.usageLogsEndpoint == s.status.usageLogsEndpoint && t.caSecret == CaOf(env, spec, obs, s).caSecret
    ensures PlanOf(env, spec, obs, t) == PlanOf(env, spec, obs, s)
    ensures CaOf(env, spec, obs, t).ready == CaOf(env, spec, obs, s).ready
    ensures CaOf(env, spec, obs, t).caSecret == CaOf(env, spec, obs, s).caSecret
    ensures WorkMarks(env, spec, obs, t) == WorkMarks(env, spec, obs, s)
  {
    CaStepRepeats(env, spec, obs.ca, Render(obs.render, PlanOf(env, spec, obs, s).sources), s.live, s.caSecret, t.live);
  }

  /** A stopped round writes the same conditions from any state with the same endpoint and
      CA Secret outcome. */
  lemma StoppedCommit(env: Env, spec: Spec, obs: Obs, s: State, w: Marks, plan: Plan)
    requires obs.data.Built?
    ensures var d := Commit(env, spec, obs, s, w, plan);
            var ca := PrepareCA(env, spec, obs.ca, Render(obs.render, plan.sources), s.live, s.caSecret);
            && (d.trace.Stopped? <==> ca.failed || obs.deployStopped.Some? || !obs.policyCleanup)
            && d.caSecret == ca.caSecret
            && (d.trace.Stopped? ==>
                  d.marks == if ca.failed || ca.ready then w
                             else w[Feature(MonitoringStackAvailable) := FalseFor(PrometheusCAUnavailable)])
  {
    hide PrepareCA;
    hide CollectGarbage;
    hide Aggregate;
    hide Publish;
  }

  lemma CommitMarksRepeat(env: Env, spec: Spec, obs: Obs, s: State, t: State, w: Marks, plan: Plan)
    requires obs.data.Built? && t.caSecret == Commit(env, spec, obs, s, w, plan).caSecret
    requires Commit(env, spec, obs, s, w, plan).trace.Stopped?
    ensures Commit(env, spec, obs, t, w, plan).marks == Commit(env, spec, obs, s, w, plan).marks
    ensures Commit(env, spec, obs, t, w, plan).trace.Stopped?
  {
    hide Commit;
    hide PrepareCA;
    StoppedCommit(env, spec, obs, s, w, plan);
    StoppedCommit(env, spec, obs, t, w, plan);
    CaStepRepeats(env, spec, obs.ca, Render(obs.render, plan.sources), s.live, s.caSecret, t.live);
  }

  lemma ConfigureMarksRepeat(env: Env, spec: Spec, obs: Obs, s: State, t: State, w: Marks)
    requires t.status.usageLogsEndpoint == s.status.usageLogsEndpoint
    requires t.caSecret == Configure(env, spec, obs, s, w).caSecret && Configure(env, spec, obs, s, w).trace.Stopped?
    ensures Configure(env, spec, obs, t, w).marks == Configure(env, spec, obs, s, w).marks
  {
    if obs.persesProbed && obs.data.Built? {
      var plan := MakePlan(env, spec, obs, s.status.usageLogsEndpoint);
      if !plan.failed { CommitMarksRepeat(env, spec, obs, s, t, w + plan.marks, plan); }
    }
  }

  lemma StoppedMarksRepeat(env: Env, spec: Spec, obs: Obs, s: State, t: State)
    requires !Completes(env, spec, obs, s) && t.status.usageLogsEndpoint == s.status.usageLogsEndpoint
    requires t.live == Body(env, spec, obs, s).live && t.caSecret == Body(env, spec, obs, s).caSecret
    ensures Body(env, spec, obs, t).marks == Body(env, spec, obs, s).marks
  {
    hide MakePlan;
    hide Commit;
    hide CollectGarbage;
    hide DeleteAllOwned;
    if obs.platformVersion.Unreadable? {
    } else if spec.removed {
      var owner := OwnerOf(env, spec);
      DeleteAllIsSweep(owner, env.allowed, obs.sweep, s.live);
      DeleteAllIsSweep(owner, env.allowed, obs.sweep, t.live);
      SweepIsIdempotent(owner, env.allowed, Kept({}, {}), obs.sweep, s.live);
    } else if NamespaceMatches(env, spec) && obs.preconditions.Met? {
      ConfigureMarksRepeat(env, spec, obs, s, t, BaseMarks(spec, obs));
    }
  }

  lemma StoppedStatusCopied(env: Env, spec: Spec, obs: Obs, s: State)
    requires !Completes(env, spec, obs, s)
    ensures var d := Body(env, spec, obs, s);
            && d.usageLogsEndpoint == s.status.usageLogsEndpoint && d.logsEndpoint == s.status.logsEndpoint
            && d.forwarding == s.status.forwarding
  {
    hide MakePlan;
    hide Commit;
    hide DeleteAllOwned;
    hide Aggregate;
    if obs.data.Built? {
      var plan := MakePlan(env, spec, obs, s.status.usageLogsEndpoint);
      CommitStatusCopied(env, spec, obs, s, BaseMarks(spec, obs) + plan.marks, plan);
    }
  }

  lemma CommitStatusCopied(env: Env, spec: Spec, obs: Obs, s: State, w: Marks, plan: Plan)
    requires obs.data.Built?
    ensures var d := Commit(env, spec, obs, s, w, plan);
            d.trace.Stopped? ==>
              && d.usageLogsEndpoint == s.status.usageLogsEndpoint && d.logsEndpoint == s.status.logsEndpoint
              && d.forwarding == s.status.forwarding
  {
  }

  lemma FinishRepeats(spec: Spec, obs: Obs, s: State, d: Draft, e: Draft)
    requires SameCluster(e, d) && SameStatus(e, d)
    ensures Finish(spec, obs, Finish(spec, obs, s, d).state, e).state == Finish(spec, obs, s, d).state
  {
    var written := if d.failed then d.marks + FAILED_MARKS else d.marks;
    assert (s.status.conditions + written) + written == s.status.conditions + written;
  }

  /** Once a round leaves the endpoint as it found it, the next round changes nothing. */
  lemma SettledRoundRepeats(env: Env, spec: Spec, obs: Obs, s: State)
    requires RendersScoped(obs.render)
    requires Reconcile(env, spec, obs, s).state.status.usageLogsEndpoint == s.status.usageLogsEndpoint
    ensures var t := Reconcile(env, spec, obs, s).state;
            Reconcile(env, spec, obs, t).state == t
  {
    var d := Body(env, spec, obs, s);
    var t := Reconcile(env, spec, obs, s).state;
    BodyRepeats(env, spec, obs, s, t);
    if Completes(env, spec, obs, s) {
      CompletedStatusRepeats(env, spec, obs, s, t);
    } else {
      StoppedMarksRepeat(env, spec, obs, s, t);
      StoppedStatusCopied(env, spec, obs, s);
      StoppedStatusCopied(env, spec, obs, t);
    }
    FinishRepeats(spec, obs, s, d, Body(env, spec, obs, t));
  }

  // ---- The endpoint settles after one round ----

  /** The stack's condition does not depend on the endpoint the round started with. */
  lemma StackConditionIgnoresEndpoint(env: Env, spec: Spec, obs: Obs, e: string, f: string)
    requires !MakePlan(env, spec, obs, e).failed && !MakePlan(env, spec, obs, f).failed
    ensures var t := Feature(UsageLogsLokiStackAvailable);
            var p, q := MakePlan(env, spec, obs, e).marks, MakePlan(env, spec, obs, f).marks;
            t in p && t in q && p[t] == q[t]
  {
    assert LOKI_COMPONENTS[0] == LokiUsageLogs;
    PlanPipelineMarks(env, spec, obs, e, LokiUsageLogs);
    PlanPipelineMarks(env, spec, obs, f, LokiUsageLogs);
    OpenStackMark(spec, obs, e, ValidateStorage(env, spec, obs.secret));
    OpenStackMark(spec, obs, f, ValidateStorage(env, spec, obs.secret));
  }

  lemma OpenStackMark(spec: Spec, obs: Obs, endpoint: string, gated: Gated)
    ensures var e := DeployPipeline(LokiUsageLogs, spec, obs, endpoint, gated);
            var t := Feature(UsageLogsLokiStackAvailable);
            LokiUsageLogs !in gated.withheld && !e.failed ==>
              t in e.marks && e.marks[t] == DeployLokiStack(UsageStorage(spec), obs.usage.stack, UsageLogsLokiStackAvailable,
                                                            [UsageLogsLokiStackTemplate, UsageLogsLokiStackPolicy]).marks[t]
  {
    StackMarks(UsageStorage(spec), obs.usage.stack, UsageLogsLokiStackAvailable, [UsageLogsLokiStackTemplate, UsageLogsLokiStackPolicy]);
    CollectorMarks(spec, obs.usage, endpoint);
  }

  lemma StackConditionOf(env: Env, spec: Spec, obs: Obs, s: State)
    requires Completes(env, spec, obs, s)
    ensures var t := Feature(UsageLogsLokiStackAvailable);
            var plan := PlanOf(env, spec, obs, s);
            var conditions := Reconcile(env, spec, obs, s).state.status.conditions;
            !plan.failed && t in plan.marks && t in conditions && conditions[t] == plan.marks[t]
  {
    LogConditions(env, spec, obs, s, UsageLogsLokiStackAvailable);
  }

  /** What a completed round publishes for the usage logs stack. */
  ghost function EndpointAfter(env: Env, spec: Spec, obs: Obs, s: State): string {
    Publish(UsageStorage(spec), PlanOf(env, spec, obs, s).marks, UsageLogsLokiStackAvailable,
            UsageLogsURL(EffectiveNamespace(env, spec)), s.status.usageLogsEndpoint).endpoint
  }

  lemma CompletedEndpoint(env: Env, spec: Spec, obs: Obs, s: State)
    requires Completes(env, spec, obs, s)
    ensures Reconcile(env, spec, obs, s).state.status.usageLogsEndpoint == EndpointAfter(env, spec, obs, s)
    ensures !PlanOf(env, spec, obs, s).failed
  {
    hide Body;
    hide MakePlan;
    StackConditionOf(env, spec, obs, s);
    PublishedFromConditions(env, spec, obs, s);
  }

  lemma EndpointAfterRepeats(env: Env, spec: Spec, obs: Obs, s: State, t: State)
    requires !PlanOf(env, spec, obs, s).failed && !PlanOf(env, spec, obs, t).failed
    requires t.status.usageLogsEndpoint == EndpointAfter(env, spec, obs, s)
    ensures EndpointAfter(env, spec, obs, t) == t.status.usageLogsEndpoint
  {
    StackConditionIgnoresEndpoint(env, spec, obs, s.status.usageLogsEndpoint, t.status.usageLogsEndpoint);
    PublishRepeats(UsageStorage(spec), PlanOf(env, spec, obs, t).marks, PlanOf(env, spec, obs, s).marks,
                   UsageLogsLokiStackAvailable, UsageLogsURL(EffectiveNamespace(env, spec)), s.status.usageLogsEndpoint);
  }

  /** A round that follows a completed one leaves the endpoint as it is. */
  lemma EndpointSettles(env: Env, spec: Spec, obs: Obs, s: State, t: State)
    requires Completes(env, spec, obs, s) && t.status == Reconcile(env, spec, obs, s).state.status
    ensures Reconcile(env, spec, obs, t).state.status.usageLogsEndpoint == t.status.usageLogsEndpoint
  {
    CompletedEndpoint(env, spec, obs, s);
    if Completes(env, spec, obs, t) {
      CompletedEndpoint(env, spec, obs, t);
      EndpointAfterRepeats(env, spec, obs, s, t);
    } else {
      StoppedStatusCopied(env, spec, obs, t);
    }
  }

  lemma TwoRoundsSettle(env: Env, spec: Spec, obs: Obs, s: State)
    requires RendersScoped(obs.render)
    ensures var t := Reconcile(env, spec, obs, s).state;
            var u := Reconcile(env, spec, obs, t).state;
            Reconcile(env, spec, obs, u).state == u
  {
    var t := Reconcile(env, spec, obs, s).state;
    if Completes(env, spec, obs, s) {
      EndpointSettles(env, spec, obs, s, t);
      SettledRoundRepeats(env, spec, obs, t);
    } else {
      StoppedStatusCopied(env, spec, obs, s);
      SettledRoundRepeats(env, spec, obs, s);
    }
  }

  lemma UnpatchedRoundRepeats(env: Env, i: Input, s: State)
    requires RendersScoped(i.obs.render) && !i.patched
    ensures Step(env, i, Step(env, i, s)) == Step(env, i, s)
  {
    BodyRepeats(env, i.spec, i.obs, s, Step(env, i, s));
  }

  /** Convergence: with spec and all observations fixed, from any state, the third round
      changes nothing that the second one left: status and live resources alike. */
  lemma ThirdRoundChangesNothing(env: Env, i: Input, s: State)
    requires RendersScoped(i.obs.render)
    ensures var second := Step(env, i, Step(env, i, s));
            Step(env, i, second) == second
  {
    if i.patched {
      TwoRoundsSettle(env, i.spec, i.obs, s);
    } else {
      UnpatchedRoundRepeats(env, i, s);
      UnpatchedRoundRepeats(env, i, Step(env, i, s));
    }
  }
}
