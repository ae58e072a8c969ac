/** The reconciler as the object it is: it updates status, conditions and cluster in place. */
module Controller {
  import opened Text
  import opened Conditions
  import opened Cluster
  import opened Sweep
  import opened Isolation
  import opened StorageIsolation
  import opened Monitoring
  import opened PlanProperties
  import opened Round
  import opened RoundProperties

  /** The live resources, updated by applies and sweeps. */
  class ClusterState {
    var live: Live

    constructor (initial: Live)
      ensures live == initial
    {
      live := initial;
    }

    method Deploy(uid: string, manifests: seq<Manifest>)
      modifies this
      ensures live == Apply(uid, old(live), manifests)
    {
      assert manifests[0..] == manifests;
      for i := 0 to |manifests|
        invariant Apply(uid, live, manifests[i..]) == Apply(uid, old(live), manifests)
      {
        assert manifests[i..][0] == manifests[i] && manifests[i..][1..] == manifests[i + 1..];
        live := live[manifests[i].key := Stamp(uid, manifests[i].body)];
      }
    }

    /** The main phase, with the predicate it is given. */
    method GcRun(obs: SweepObs, accepts: (Key, Object) -> bool) returns (ok: bool)
      modifies this
      ensures ok == obs.stopped.None?
      ensures var hits := set k | k in old(live) && k in obs.listed && accepts(k, old(live)[k]);
              live == old(live) - (if obs.stopped.None? then hits else hits * obs.stopped.value)
    {
      var hits := set k | k in live && k in obs.listed && accepts(k, live[k]);
      ok := obs.stopped.None?;
      live := live - (if ok then hits else hits * obs.stopped.value);
    }

    /** Deletes what the phase accepts of a list, up to the first deletion that fails. */
    method DeleteListed(owner: Owner, kept: Kept, phase: Phase, undeletable: set<Key>, keys: seq<Key>) returns (ok: bool)
      modifies this
      ensures Swept(live, ok) == Sweep.DeleteListed(owner, kept, phase, undeletable, old(live), keys)
    {
      assert keys[0..] == keys;
      for i := 0 to |keys|
        invariant Sweep.DeleteListed(owner, kept, phase, undeletable, live, keys[i..]) ==
                  Sweep.DeleteListed(owner, kept, phase, undeletable, old(live), keys)
      {
        assert keys[i..][0] == keys[i] && keys[i..][1..] == keys[i + 1..];
        if keys[i] !in live || !Collects(owner, kept, phase, keys[i], live[keys[i]]) { continue; }
        if keys[i] in undeletable { return false; }
        live := live - {keys[i]};
      }
      ok := true;
    }

    method RunPhase(owner: Owner, kept: Kept, phase: Phase, undeletable: set<Key>, keys: Option<seq<Key>>) returns (ok: bool)
      modifies this
      ensures Swept(live, ok) == Sweep.RunPhase(owner, kept, phase, undeletable, keys, Swept(old(live), true))
    {
      if keys.None? { return false; }
      ok := DeleteListed(owner, kept, phase, undeletable, keys.value);
    }

    /** The RBAC phases behind the main one. */
    method CollectRBAC(owner: Owner, allowed: Allowed, kept: Kept, obs: SweepObs) returns (ok: bool)
      modifies this
      ensures var a := Swept(old(live), true);
              var b := Sweep.RunPhase(owner, kept, ScopedRole(allowed.clusterRoles), obs.undeletable, obs.clusterRoles, a);
              var c := Sweep.RunPhase(owner, kept, ScopedBinding(allowed.clusterRoleBindings), obs.undeletable, obs.clusterRoleBindings, b);
              var d := Sweep.RunPhase(owner, kept, AllocatorRole, obs.undeletable, obs.roles, c);
              Swept(live, ok) == Sweep.RunPhase(owner, kept, AllocatorBinding, obs.undeletable, obs.roleBindings, d)
    {
      ok := RunPhase(owner, kept, ScopedRole(allowed.clusterRoles), obs.undeletable, obs.clusterRoles);
      if !ok { return; }
      ok := RunPhase(owner, kept, ScopedBinding(allowed.clusterRoleBindings), obs.undeletable, obs.clusterRoleBindings);
      if !ok { return; }
      ok := RunPhase(owner, kept, AllocatorRole, obs.undeletable, obs.roles);
      if !ok { return; }
      ok := RunPhase(owner, kept, AllocatorBinding, obs.undeletable, obs.roleBindings);
    }

    method CollectGarbage(owner: Owner, allowed: Allowed, kept: Kept, obs: SweepObs) returns (ok: bool)
      modifies this
      ensures Swept(live, ok) == Sweep.CollectGarbage(owner, allowed, kept, obs, old(live))
    {
      ok := GcRun(obs, (k, o) => Collects(owner, kept, Owned, k, o));
      assert Swept(live, ok) == Sweep.Run(owner, kept, obs, old(live)) by {
        assert (set k | k in old(live) && k in obs.listed && ((k, o) => Collects(owner, kept, Owned, k, o))(k, old(live)[k]))
            == (set k | k in old(live) && k in obs.listed && Collects(owner, kept, Owned, k, old(live)[k]));
      }
      if !ok { return; }
      ok := CollectRBAC(owner, allowed, kept, obs);
    }

    method DeleteAllOwned(owner: Owner, allowed: Allowed, obs: SweepObs) returns (ok: bool)
      modifies this
      ensures Swept(live, ok) == Sweep.DeleteAllOwned(owner, allowed, obs, old(live))
    {
      ok := GcRun(obs, (k, o) => OwnedAndInScope(owner, k, o));
      assert (set k | k in old(live) && k in obs.listed && ((k, o) => OwnedAndInScope(owner, k, o))(k, old(live)[k]))
          == (set k | k in old(live) && k in obs.listed && OwnedAndInScope(owner, k, old(live)[k]));
      if !ok { return; }
      ok := CollectRBAC(owner, allowed, Kept({}, {}), obs);
    }
  }

  class MonitoringReconciler {
    const env: Env
    const cm: ConditionsManager
    const cluster: ClusterState
    var caSecret: CaSecret
    var usageLogsEndpoint: string
    var logsEndpoint: string
    var forwarding: seq<string>
    var phaseReady: bool
    var platformRelease: string

    ghost predicate Valid()
      reads this, cm
    {
      cm.Valid()
    }

    ghost function Snapshot(): State
      reads this, cm, cluster
    {
      State(MonitoringStatus(cm.View(), usageLogsEndpoint, logsEndpoint, forwarding, phaseReady, platformRelease),
            cluster.live, caSecret)
    }

    constructor (env: Env, conditions: seq<Entry>, live: Live, caSecret: CaSecret,
                 usageLogsEndpoint: string, logsEndpoint: string, forwarding: seq<string>,
                 phaseReady: bool, platformRelease: string)
      requires UniqueTypes(conditions)
      ensures Valid() && fresh(cm) && fresh(cluster) && this.env == env
      ensures Snapshot() == State(MonitoringStatus(ViewOf(conditions), usageLogsEndpoint, logsEndpoint, forwarding,
                                                   phaseReady, platformRelease), live, caSecret)
    {
      this.env := env;
      cm := new ConditionsManager(conditions);
      cluster := new ClusterState(live);
      this.caSecret := caSecret;
      this.usageLogsEndpoint, this.logsEndpoint := usageLogsEndpoint, logsEndpoint;
      this.forwarding, this.phaseReady, this.platformRelease := forwarding, phaseReady, platformRelease;
    }

    /** Writes the conditions of one action. */
    method Write(marks: Marks)
      requires Valid()
      modifies cm
      ensures Valid() && cm.View() == old(cm.View()) + marks
    {
      var left := marks.Keys;
      while left != {}
        invariant Valid() && left <= marks.Keys
        invariant cm.View() == old(cm.View()) + (map t | t in marks && t !in left :: marks[t])
        decreases |left|
      {
        var t :| t in left;
        ghost var before := map t | t in marks && t !in left :: marks[t];
        cm.Set(t, marks[t]);
        left := left - {t};
        assert (map t | t in marks && t !in left :: marks[t]) == before[t := marks[t]];
      }
      assert (map t | t in marks && t !in left :: marks[t]) == marks;
    }

    // ---- Rendering ----

    method RunActions(actions: seq<Action>, spec: Spec, o: CoreObs) returns (sources: seq<Template>, failed: bool)
      requires Valid()
      modifies cm
      ensures Valid()
      ensures var e := Monitoring.RunActions(actions, spec, o);
              cm.View() == old(cm.View()) + e.marks && sources == e.sources && failed == e.failed
    {
      hide RunAction;
      hide Then;
      sources, failed := [], false;
      ghost var all := Monitoring.RunActions(actions, spec, o);
      ghost var written: Marks := map[];
      assert actions[0..] == actions;
      NothingThen(all);
      for i := 0 to |actions|
        invariant Valid() && !failed
        invariant cm.View() == old(cm.View()) + written
        invariant all == Then(Effect(written, sources, false), Monitoring.RunActions(actions[i..], spec, o))
      {
        assert actions[i..][0] == actions[i] && actions[i..][1..] == actions[i + 1..];
        var e := RunAction(actions[i], spec, o);
        Write(e.marks);
        ThenAssociates(Effect(written, sources, false), e, Monitoring.RunActions(actions[i + 1..], spec, o));
        written := written + e.marks;
        sources := sources + e.sources;
        if e.failed {
          FailureStays(Effect(written, sources, true), Monitoring.RunActions(actions[i + 1..], spec, o));
          failed := true;
          return;
        }
      }
      assert actions[|actions|..] == [];
      ThenNothing(Effect(written, sources, false));
    }

    /** Checks the claims and, on a refusal, marks and withholds every claimant. */
    method ValidateStorageIsolation(spec: Spec, read: SecretReader) returns (ghost gated: Gated, withheld: set<Component>, refused: bool)
      requires Valid()
      modifies cm
      ensures Valid() && gated == ValidateStorage(env, spec, read)
      ensures cm.View() == old(cm.View()) + gated.marks && withheld == gated.withheld && refused == gated.refused
    {
      hide ViewOf;
      hide UniqueTypes;
      hide GateVerdict;
      hide LogClaims;
      hide StorageClaims;
      hide Refusal;
      var claims := LogClaims(spec);
      var verdict := CheckStorageIsolation(env.parse, read, StorageClaims(claims));
      gated := ValidateStorage(env, spec, read);
      if verdict.Isolated? {
        return gated, {}, false;
      }
      var c := Refusal(Classify(verdict));
      withheld, refused := {}, true;
      for i := 0 to |claims|
        invariant Valid()
        invariant withheld == Refuse(claims[..i], c).withheld
        invariant cm.View() == old(cm.View()) + Refuse(claims[..i], c).marks
      {
        assert claims[..i + 1][..i] == claims[..i];
        cm.Set(Feature(claims[i].condition), c);
        withheld := withheld + {claims[i].component};
      }
      assert claims[..|claims|] == claims;
    }

    /** Copies a withheld stack's verdict to its dependent, as the status holds it. */
    method MarkWithheldPipeline(stack: Feature, dependent: Feature)
      requires Valid()
      modifies cm
      ensures Valid() && cm.View() == old(cm.View()) + WithheldMarks(old(cm.View()), stack, dependent)
    {
      var found, c := cm.Find(Feature(stack));
      if !found { return; }
      match c.status
      case False => cm.MarkFalse(Feature(dependent), c.reason);
      case Unknown => cm.MarkUnknown(Feature(dependent), c.reason);
      case True =>
    }

    method DeployLokiStacks(components: seq<Component>, spec: Spec, obs: Obs, withheld: set<Component>, ghost gated: Gated)
      returns (sources: seq<Template>, failed: bool)
      requires Valid() && gated == ValidateStorage(env, spec, obs.secret) && withheld == gated.withheld
      requires components <= LOKI_COMPONENTS
      requires forall c :: c in components ==> VerdictShows(cm.View(), gated, c)
      modifies cm
      ensures Valid()
      ensures var e := DeployPipelines(components, spec, obs, usageLogsEndpoint, gated);
              cm.View() == old(cm.View()) + e.marks && sources == e.sources && failed == e.failed
    {
      hide DeployPipeline;
      hide ValidateStorage;
      hide VerdictShows;
      hide Then;
      hide ViewOf;
      hide UniqueTypes;
      sources, failed := [], false;
      ghost var all := DeployPipelines(components, spec, obs, usageLogsEndpoint, gated);
      ghost var written: Marks := map[];
      assert components[0..] == components;
      NothingThen(all);
      for i := 0 to |components|
        invariant Valid() && !failed
        invariant forall j :: i <= j < |components| ==> VerdictShows(cm.View(), gated, components[j])
        invariant cm.View() == old(cm.View()) + written
        invariant all == Then(Effect(written, sources, false),
                              DeployPipelines(components[i..], spec, obs, usageLogsEndpoint, gated))
      {
        var c := components[i];
        assert components[i..][0] == c && components[i..][1..] == components[i + 1..];
        ghost var e := DeployPipeline(c, spec, obs, usageLogsEndpoint, gated);
        PipelineKeepsLaterStacks(components, i, env, spec, obs, usageLogsEndpoint, cm.View());
        var more, stop := DeployComponent(c, spec, obs, withheld, gated);
        ThenAssociates(Effect(written, sources, false), e,
                       DeployPipelines(components[i + 1..], spec, obs, usageLogsEndpoint, gated));
        written := written + e.marks;
        sources := sources + more;
        if stop {
          FailureStays(Effect(written, sources, true),
                       DeployPipelines(components[i + 1..], spec, obs, usageLogsEndpoint, gated));
          failed := true;
          return;
        }
      }
      assert components[|components|..] == [];
      ThenNothing(Effect(written, sources, false));
    }

    /** One pipeline of the loop above. */
    method DeployComponent(c: Component, spec: Spec, obs: Obs, withheld: set<Component>, ghost gated: Gated)
      returns (sources: seq<Template>, failed: bool)
      requires Valid() && c in LOKI_COMPONENTS && gated == ValidateStorage(env, spec, obs.secret) && withheld == gated.withheld
      requires VerdictShows(cm.View(), gated, c)
      modifies cm
      ensures Valid()
      ensures var e := DeployPipeline(c, spec, obs, usageLogsEndpoint, gated);
              cm.View() == old(cm.View()) + e.marks && sources == e.sources && failed == e.failed
    {
      if c in withheld {
        MarkWithheldPipeline(StackOf(c), DependentOf(c));
        return [], false;
      }
      var e := if c == LokiUsageLogs then DeployUsageLogs(spec, obs.usage, usageLogsEndpoint)
               else DeployLogForwarding(spec, obs.forwarder);
      Write(e.marks);
      return e.sources, e.failed;
    }

    /** Runs the actions, the gate and the pipelines, and renders what they collected. */
    method RenderMonitoringResources(spec: Spec, obs: Obs, ghost plan: Plan)
      returns (desired: seq<Manifest>, withheld: set<Component>, refused: bool, failed: bool)
      requires Valid() && plan == MakePlan(env, spec, obs, usageLogsEndpoint)
      modifies cm
      ensures Valid() && cm.View() == old(cm.View()) + plan.marks && failed == plan.failed
      ensures !failed ==> desired == Render(obs.render, plan.sources) && withheld == plan.withheld && refused == plan.refused
    {
      hide Monitoring.RunActions;
      hide ValidateStorage;
      hide DeployPipelines;
      hide VerdictShows;
      hide ViewOf;
      hide UniqueTypes;
      hide Render;
      desired, withheld, refused := [], {}, false;
      ghost var start := cm.View();
      var sources, stop := RunActions(ACTIONS, spec, obs.core);
      ghost var core := Monitoring.RunActions(ACTIONS, spec, obs.core);
      if stop { return [], {}, false, true; }
      ghost var gated: Gated;
      gated, withheld, refused := ValidateStorageIsolation(spec, obs.secret);
      forall c | c in LOKI_COMPONENTS
        ensures VerdictShows(cm.View(), gated, c)
      {
        GateShows(env, spec, obs.secret, start + core.marks, c);
      }
      var more: seq<Template>;
      more, stop := DeployLokiStacks(LOKI_COMPONENTS, spec, obs, withheld, gated);
      ghost var logs := DeployPipelines(LOKI_COMPONENTS, spec, obs, usageLogsEndpoint, gated);
      Layered(start, core.marks, gated.marks);
      Layered(start, core.marks + gated.marks, logs.marks);
      failed := stop || !obs.renders;
      if !failed { desired := Render(obs.render, sources + more); }
    }

    // ---- Applying ----

    /** Finds the stack and the CA ConfigMap, applies the latter and syncs its content. */
    method PreparePrometheusWebTLSCA(spec: Spec, o: CaObs, desired: seq<Manifest>) returns (ready: bool, failed: bool)
      modifies this`caSecret, cluster
      ensures CaStep(ready, failed, cluster.live, caSecret) ==
              PrepareCA(env, spec, o, desired, old(cluster.live), old(caSecret))
    {
      var namespace := EffectiveNamespace(env, spec);
      var stackFound := false;
      var configMap: Option<Manifest> := None;
      for i := 0 to |desired|
        invariant stackFound <==> exists j :: 0 <= j < i && IsStackIn(desired[j], namespace)
        invariant configMap == CaConfigMap(desired[..i], namespace)
      {
        assert desired[..i + 1][..i] == desired[..i];
        if IsStackIn(desired[i], namespace) { stackFound := true; }
        if IsCaConfigMap(desired[i], namespace) { configMap := Some(desired[i]); }
      }
      assert desired[..|desired|] == desired;
      if !stackFound { return true, false; }
      if configMap.None? || !o.configMapApplied { return false, true; }
      cluster.Deploy(env.uid, [configMap.value]);
      ready, failed := SyncPrometheusWebTLSCA(spec, o);
    }

    method SyncPrometheusWebTLSCA(spec: Spec, o: CaObs) returns (ready: bool, failed: bool)
      modifies this`caSecret
      ensures CaStep(ready, failed, cluster.live, caSecret) == SyncCA(spec, o, cluster.live, old(caSecret))
    {
      if !MetricsStorage(spec) { return true, false; }
      match o.ca
      case CaUnreadable => return false, true;
      case CaPending => return false, false;
      case CaCert(cert) =>
        if cert == "" { return false, false; }
        if !o.secretReadable { return false, true; }
        if caSecret == CaSecret.CaSecret(true, cert) { return true, false; }
        if !o.secretPatched { return false, true; }
        caSecret := CaSecret.CaSecret(true, cert);
        return true, false;
    }

    /** Publishes both endpoints off the conditions; true if a short requeue is needed. */
    method PublishLokiEndpoints(spec: Spec) returns (requeue: bool)
      requires Valid()
      modifies this`usageLogsEndpoint, this`logsEndpoint
      ensures var namespace := EffectiveNamespace(env, spec);
              var usage := Publish(UsageStorage(spec), cm.View(), UsageLogsLokiStackAvailable, UsageLogsURL(namespace),
                                   old(usageLogsEndpoint));
              var logs := Publish(spec.logs.Some?, cm.View(), LokiStackAvailable, LokiQueryURL(namespace), old(logsEndpoint));
              usageLogsEndpoint == usage.endpoint && logsEndpoint == logs.endpoint && requeue == (usage.requeue || logs.requeue)
    {
      var namespace := EffectiveNamespace(env, spec);
      var usage := PublishOne(UsageStorage(spec), UsageLogsLokiStackAvailable, UsageLogsURL(namespace), usageLogsEndpoint);
      var logs := PublishOne(spec.logs.Some?, LokiStackAvailable, LokiQueryURL(namespace), logsEndpoint);
      usageLogsEndpoint, logsEndpoint := usage.endpoint, logs.endpoint;
      requeue := usage.requeue || logs.requeue;
    }

    method PublishOne(configured: bool, stack: Feature, url: string, current: string) returns (p: Published)
      requires Valid()
      ensures p == Publish(configured, cm.View(), stack, url, current)
    {
      if !configured { return Published("", false); }
      var found, c := cm.Find(Feature(stack));
      if found && c.status == True { return Published(url, false); }
      if found && c.status == Unknown { return Published(current, true); }
      return Published("", true);
    }

    /** Publishes the exporters the collector ships to; true while it awaits a credential. */
    method PublishForwarding(exporterNames: seq<string>) returns (awaiting: bool)
      requires Valid()
      modifies this`forwarding
      ensures forwarding == if HasStatus(cm.View(), Feature(UsageLogsCollectorAvailable), True) then exporterNames else []
      ensures awaiting <==> AwaitingCredential(cm.View())
    {
      var found, collector := cm.Find(Feature(UsageLogsCollectorAvailable));
      forwarding := if found && collector.status == True then exporterNames else [];
      awaiting := found && collector.status == False && collector.reason == CredentialNotFound;
    }

    // ---- A round ----

    /** The state agrees with what the round has done so far to the state it started from. */
    ghost predicate Agrees(s: State, d: Draft)
      reads this, cm, cluster
    {
      && Valid() && cm.View() == s.status.conditions + d.marks
      && cluster.live == d.live && caSecret == d.caSecret
      && usageLogsEndpoint == d.usageLogsEndpoint && logsEndpoint == d.logsEndpoint && forwarding == d.forwarding
      && phaseReady == s.status.phaseReady && platformRelease == s.status.platformRelease
    }

    /** Still as at the start of the round, but for the conditions written. */
    ghost predicate Untouched(s: State, w: Marks)
      reads this, cm, cluster
    {
      Valid() && Snapshot() == s.(status := s.status.(conditions := s.status.conditions + w))
    }

    method Conclude(spec: Spec, obs: Obs, refused: bool, caReady: bool, sweepOk: bool,
                    ghost s: State, ghost w: Marks, ghost trace: Trace)
      returns (failed: bool, requeue: nat, stamps: bool)
      requires obs.data.Built? && trace.Completed?
      requires refused == trace.plan.refused && caReady == trace.caReady && Swept(cluster.live, sweepOk) == trace.swept
      requires Valid() && cm.View() == s.status.conditions + w
      requires usageLogsEndpoint == s.status.usageLogsEndpoint && logsEndpoint == s.status.logsEndpoint
      requires phaseReady == s.status.phaseReady && platformRelease == s.status.platformRelease
      modifies this, cm
      ensures var d := Round.Conclude(env, spec, obs, s, w, old(caSecret), trace);
              Agrees(s, d) && failed == d.failed && requeue == d.requeue && stamps == d.stamps
    {
      hide Aggregate;
      hide Publish;
      hide EffectiveNamespace;
      hide UsageLogsURL;
      hide LokiQueryURL;
      hide AwaitingCredential;
      hide HasStatus;
      hide ViewOf;
      hide UniqueTypes;
      ghost var w' := AfterThanosSync(spec, obs, w);
      if MetricsStorage(spec) && !obs.thanosSynced {
        cm.MarkFalse(Feature(MonitoringStackAvailable), ThanosCASyncFailed);
        LayeredMark(s.status.conditions, w, Feature(MonitoringStackAvailable), FalseFor(ThanosCASyncFailed));
      }
      ghost var conditions := cm.View();
      var short := PublishLokiEndpoints(spec);
      var awaiting := PublishForwarding(obs.data.exporterNames);
      cm.AggregateReady();
      Layered(s.status.conditions, w', Aggregate(conditions));
      failed, requeue, stamps := refused, 0, false;
      if refused { return; }
      stamps := caReady;
      if !caReady {
        cm.MarkFalse(ProvisioningSucceeded, PrometheusCAUnavailable);
        LayeredMark(s.status.conditions, w' + Aggregate(conditions), ProvisioningSucceeded, FalseFor(PrometheusCAUnavailable));
        requeue := 15;
        return;
      }
      requeue := if short || awaiting then 30 else if spec.logs.Some? then 300 else if !sweepOk then 60 else 0;
    }

    method Commit(spec: Spec, obs: Obs, desired: seq<Manifest>, withheld: set<Component>, refused: bool,
                  ghost s: State, ghost w: Marks, ghost plan: Plan)
      returns (failed: bool, requeue: nat, stamps: bool)
      requires obs.data.Built? && Untouched(s, w)
      requires desired == Render(obs.render, plan.sources) && withheld == plan.withheld && refused == plan.refused
      modifies this, cm, cluster
      ensures var d := Round.Commit(env, spec, obs, s, w, plan);
              Agrees(s, d) && failed == d.failed && requeue == d.requeue && stamps == d.stamps
    {
      hide Round.Conclude;
      hide PrepareCA;
      hide Sweep.CollectGarbage;
      failed, requeue, stamps := true, 0, false;
      var caReady, stop := PreparePrometheusWebTLSCA(spec, obs.ca, desired);
      if stop { return; }
      ghost var w' := w;
      var applied := desired;
      if !caReady {
        cm.MarkFalse(Feature(MonitoringStackAvailable), PrometheusCAUnavailable);
        w' := w[Feature(MonitoringStackAvailable) := FalseFor(PrometheusCAUnavailable)];
        LayeredMark(s.status.conditions, w, Feature(MonitoringStackAvailable), FalseFor(PrometheusCAUnavailable));
        applied := WithoutMonitoringStack(desired);
      }
      if obs.deployStopped.Some? {
        cluster.Deploy(env.uid, Only(applied, obs.deployStopped.value));
        return;
      }
      cluster.Deploy(env.uid, applied);
      if !obs.policyCleanup { return; }
      ghost var before := cluster.live;
      var sweepOk := cluster.CollectGarbage(OwnerOf(env, spec), env.allowed, Kept(Keys(desired), withheld), obs.sweep);
      failed, requeue, stamps := Conclude(spec, obs, refused, caReady, sweepOk, s, w',
        Completed(plan, desired, applied, caReady, before, Swept(cluster.live, sweepOk)));
    }

    method Configure(spec: Spec, obs: Obs, ghost s: State, ghost w: Marks) returns (failed: bool, requeue: nat, stamps: bool)
      requires Untouched(s, w)
      modifies this, cm, cluster
      ensures var d := Round.Configure(env, spec, obs, s, w);
              Agrees(s, d) && failed == d.failed && requeue == d.requeue && stamps == d.stamps
    {
      hide Round.Commit;
      hide MakePlan;
      hide ConfigurationMarks;
      failed, requeue, stamps := true, 0, false;
      if !obs.persesProbed || obs.data.TlsUnresolved? { return; }
      if obs.data.Misconfigured? {
        Write(ConfigurationMarks(obs.data.usageLogsExporter));
        Layered(s.status.conditions, w, ConfigurationMarks(obs.data.usageLogsExporter));
        return false, 0, false;
      }
      ghost var plan := MakePlan(env, spec, obs, usageLogsEndpoint);
      var desired, withheld, refused, stop := RenderMonitoringResources(spec, obs, plan);
      Layered(s.status.conditions, w, plan.marks);
      if stop { return; }
      failed, requeue, stamps := Commit(spec, obs, desired, withheld, refused, s, w + plan.marks, plan);
    }

    method CheckOperators(spec: Spec, obs: Obs, ghost s: State, ghost w: Marks) returns (failed: bool, requeue: nat, stamps: bool)
      requires Untouched(s, w)
      modifies this, cm, cluster
      ensures var d := Round.CheckOperators(env, spec, obs, s, w);
              Agrees(s, d) && failed == d.failed && requeue == d.requeue && stamps == d.stamps
    {
      hide Round.Configure;
      hide Aggregate;
      match obs.preconditions
      case PreconditionsUnknown => return true, 0, false;
      case OperatorsMissing =>
        cm.MarkFalse(DependenciesReady, MissingOperator);
        cm.MarkFalse(MonitoringAvailable, MissingOperator);
        LayeredTwice(s.status.conditions, w, DependenciesReady, MonitoringAvailable, FalseFor(MissingOperator));
        ghost var w' := w[DependenciesReady := FalseFor(MissingOperator)][MonitoringAvailable := FalseFor(MissingOperator)];
        Layered(s.status.conditions, w', Aggregate(s.status.conditions + w'));
        cm.AggregateReady();
        return false, 0, false;
      case Met =>
        cm.MarkTrue(DependenciesReady);
        cm.MarkTrue(MonitoringAvailable);
        LayeredTwice(s.status.conditions, w, DependenciesReady, MonitoringAvailable, TRUE);
        ghost var w' := w[DependenciesReady := TRUE][MonitoringAvailable := TRUE];
        failed, requeue, stamps := Configure(spec, obs, s, w');
    }

    method Run(spec: Spec, obs: Obs, ghost s: State) returns (failed: bool, requeue: nat, stamps: bool)
      requires Valid() && Snapshot() == s
      modifies this, cm, cluster
      ensures var d := Body(env, spec, obs, s);
              Agrees(s, d) && failed == d.failed && requeue == d.requeue && stamps == d.stamps
    {
      hide Round.CheckOperators;
      hide Sweep.DeleteAllOwned;
      hide NamespaceMatches;
      hide CooCondition;
      hide OwnerOf;
      failed, requeue, stamps := true, 0, false;
      ghost var base := s.status.conditions;
      ghost var w: Marks := map[];
      assert base + map[] == base;
      if !CooConfigured(spec) {
        cm.MarkNotConfigured(COOVersionCompatible, NotConfigured);
        w := map[COOVersionCompatible := OffFor(NotConfigured)];
        LayeredMark(base, map[], COOVersionCompatible, OffFor(NotConfigured));
      }
      if obs.platformVersion.Unreadable? { return; }
      if spec.removed {
        var ok := cluster.DeleteAllOwned(OwnerOf(env, spec), env.allowed, obs.sweep);
        if !ok { return; }
        Write(REMOVED_MARKS);
        Layered(base, w, REMOVED_MARKS);
        return false, 0, false;
      }
      if !NamespaceMatches(env, spec) {
        Write(NAMESPACE_MARKS);
        Layered(base, w, NAMESPACE_MARKS);
        return false, 0, false;
      }
      cm.Set(COOVersionCompatible, CooCondition(obs.coo));
      LayeredMark(base, w, COOVersionCompatible, CooCondition(obs.coo));
      failed, requeue, stamps := CheckOperators(spec, obs, s, w[COOVersionCompatible := CooCondition(obs.coo)]);
    }

    /** One round: the body, then the block deferred over every way out of it. */
    method Reconcile(spec: Spec, obs: Obs) returns (failed: bool, requeue: nat)
      requires Valid()
      modifies this, cm, cluster
      ensures Valid()
      ensures var r := Round.Reconcile(env, spec, obs, old(Snapshot()));
              Snapshot() == r.state && failed == r.outcome.failed && requeue == r.outcome.requeue
    {
      ghost var s := Snapshot();
      ghost var d := Body(env, spec, obs, s);
      var wait: nat, stamps: bool;
      failed, wait, stamps := Run(spec, obs, s);
      requeue := Deferred(spec, failed, wait);
      if failed {
        Write(FAILED_MARKS);
        Layered(s.status.conditions, d.marks, FAILED_MARKS);
      }
      phaseReady := cm.Phase();
      if stamps && Version(obs.platformVersion) != "" {
        platformRelease := Version(obs.platformVersion);
      }
    }

    method Deferred(spec: Spec, failed: bool, wait: nat) returns (requeue: nat)
      requires Valid()
      ensures requeue == DeferredRequeue(spec, failed, wait, cm.View())
    {
      if failed || wait != 0 { return wait; }
      if CooConfigured(spec) { return 300; }
      if spec.removed || spec.logs.Some? || MetricsStorage(spec) { return 0; }
      if spec.metrics.None? && spec.traces.None? { return 0; }
      var found, c := cm.Find(Feature(OpenTelemetryCollectorAvailable));
      return if found && c.status == True then 0 else 30;
    }
  }

  /** The status shows the gate's verdict on a withheld component. */
  predicate VerdictShows(conditions: Marks, gated: Gated, c: Component) {
    c in gated.withheld ==>
      var t := Feature(StackOf(c)); t in gated.marks && t in conditions && conditions[t] == gated.marks[t]
  }

  lemma GateShows(env: Env, spec: Spec, read: SecretReader, conditions: Marks, c: Component)
    requires c in LOKI_COMPONENTS
    ensures var gated := ValidateStorage(env, spec, read); VerdictShows(conditions + gated.marks, gated, c)
  {
    hide ValidateStorage;
    GateShape(env, spec, read);
  }

  /** A pipeline leaves the verdicts on the stacks behind it alone. */
  lemma PipelineKeepsLaterStacks(components: seq<Component>, i: nat, env: Env, spec: Spec, obs: Obs, endpoint: string, conditions: Marks)
    requires i < |components| && components <= LOKI_COMPONENTS
    requires forall j :: i <= j < |components| ==> VerdictShows(conditions, ValidateStorage(env, spec, obs.secret), components[j])
    ensures var gated := ValidateStorage(env, spec, obs.secret);
            var marks := DeployPipeline(components[i], spec, obs, endpoint, gated).marks;
            && components[i] in LOKI_COMPONENTS
            && (forall j :: i < j < |components| ==> VerdictShows(conditions + marks, gated, components[j]))
  {
    hide DeployPipeline;
    hide ValidateStorage;
    assert components[i] == LOKI_COMPONENTS[i];
    PipelineMarks(components[i], env, spec, obs, endpoint);
  }

  lemma Layered(base: Marks, w: Marks, more: Marks)
    ensures base + w + more == base + (w + more)
  {
  }

  lemma LayeredMark(base: Marks, w: Marks, t: Type, c: Condition)
    ensures (base + w)[t := c] == base + w[t := c]
  {
  }

  lemma LayeredTwice(base: Marks, w: Marks, t: Type, u: Type, c: Condition)
    ensures (base + w)[t := c][u := c] == base + w[t := c][u := c]
  {
    LayeredMark(base, w, t, c);
    LayeredMark(base, w[t := c], u, c);
  }

  lemma NothingThen(e: Effect)
    ensures Then(Effect(map[], [], false), e) == e
  {
    assert map[] + e.marks == e.marks && [] + e.sources == e.sources;
  }

  lemma ThenNothing(e: Effect)
    ensures Then(e, NOTHING) == e
  {
    assert e.marks + map[] == e.marks && e.sources + [] == e.sources;
  }

  lemma FailureStays(e: Effect, more: Effect)
    requires e.failed
    ensures Then(e, more) == e
  {
  }

  lemma ThenAssociates(a: Effect, b: Effect, c: Effect)
    requires !a.failed
    ensures Then(a, Then(b, c)) == Then(Effect(a.marks + b.marks, a.sources + b.sources, b.failed), c)
  {
    assert a.marks + (b.marks + c.marks) == a.marks + b.marks + c.marks;
    assert a.sources + (b.sources + c.sources) == a.sources + b.sources + c.sources;
  }
}
