/** What each way out of a round before its sweep leaves behind. */
module Exits {
  import opened Conditions
  import opened Cluster
  import opened Sweep
  import opened Monitoring
  import opened Round
  import opened RoundProperties

  /** Nothing but conditions changed: cluster, CA Secret, endpoints and names are as before. */
  predicate KeepsAllButConditions(s: State, t: State) {
    && t.live == s.live && t.caSecret == s.caSecret
    && t.status.usageLogsEndpoint == s.status.usageLogsEndpoint && t.status.logsEndpoint == s.status.logsEndpoint
    && t.status.forwarding == s.status.forwarding && t.status.platformRelease == s.status.platformRelease
  }

  predicate Holds(conditions: Marks, t: Type, c: Condition) {
    t in conditions && conditions[t] == c
  }

  // ---- Removed ----

  /** A Removed round is the sweep that keeps nothing. It fails exactly when that sweep
      reports an error, and otherwise reports Removed; endpoints stay as they were. */
  lemma RemovedRound(env: Env, spec: Spec, obs: Obs, s: State)
    requires spec.removed && !obs.platformVersion.Unreadable?
    ensures var r := Reconcile(env, spec, obs, s);
            var owner := Owner(env.uid, EffectiveNamespace(env, spec));
            var swept := CollectGarbage(owner, env.allowed, Kept({}, {}), obs.sweep, s.live);
            && r.state.live == swept.live && r.outcome.failed == !swept.ok && r.outcome.requeue == 0
            && KeepsAllButConditions(s.(live := swept.live), r.state)
            && (!r.outcome.failed ==>
                  var c := r.state.status.conditions;
                  && Holds(c, Ready, Condition(False, Removed, false))
                  && Holds(c, ProvisioningSucceeded, Condition(False, Removed, false))
                  && Holds(c, DependenciesReady, Condition(False, Removed, true))
                  && Holds(c, MonitoringAvailable, Condition(False, Removed, true))
                  && Holds(c, COOVersionCompatible, Condition(False, NotConfigured, true))
                  && HasStatus(c, Degraded, False))
  {
    hide CollectGarbage;
    hide DeleteAllOwned;
    hide CheckOperators;
    DeleteAllIsSweep(OwnerOf(env, spec), env.allowed, obs.sweep, s.live);
  }

  /** Labelled, owned and in a namespace that the sweep covers. */
  predicate Ours(env: Env, spec: Spec, k: Key, o: Object) {
    && o.partOf && env.uid != "" && o.controllerUid == env.uid
    && InSweptNamespace(Owner(env.uid, EffectiveNamespace(env, spec)), k)
  }

  /** On the object: a Removed round deletes nothing that is not labelled and owned, and if
      it does not fail every listed, labelled, owned object in scope is gone. */
  lemma RemovedRoundDeletes(env: Env, spec: Spec, obs: Obs, s: State, k: Key)
    requires spec.removed && !obs.platformVersion.Unreadable? && k in s.live
    ensures var r := Reconcile(env, spec, obs, s);
            var o := s.live[k];
            && (k !in r.state.live ==> o.partOf && env.uid != "" && o.controllerUid == env.uid)
            && (k in r.state.live ==> r.state.live[k] == o)
            && (!r.outcome.failed && k in obs.sweep.listed && Ours(env, spec, k, o) ==> k !in r.state.live)
  {
    hide CollectGarbage;
    hide Body;
    hide Finish;
    RemovedRound(env, spec, obs, s);
    var owner := Owner(env.uid, EffectiveNamespace(env, spec));
    SweptMeans(owner, env.allowed, Kept({}, {}), obs.sweep, s.live, k);
    if k in obs.sweep.listed && Collects(owner, Kept({}, {}), Owned, k, s.live[k])
       && CollectGarbage(owner, env.allowed, Kept({}, {}), obs.sweep, s.live).ok {
      MainPhaseDeletes(owner, env.allowed, Kept({}, {}), obs.sweep, s.live, k);
    }
  }

  // ---- Early exits ----

  /** The spec names a namespace other than the operator's. */
  predicate NamespaceConflict(env: Env, spec: Spec) {
    env.monitoringNamespace != "" && spec.namespace != "" && spec.namespace != env.monitoringNamespace
  }

  predicate PastVersion(spec: Spec, obs: Obs) {
    !spec.removed && !obs.platformVersion.Unreadable?
  }

  lemma NamespaceExit(env: Env, spec: Spec, obs: Obs, s: State)
    requires PastVersion(spec, obs) && NamespaceConflict(env, spec)
    ensures var r := Reconcile(env, spec, obs, s);
            var c := r.state.status.conditions;
            var mismatch := Condition(False, NamespaceMismatch, false);
            && !r.outcome.failed && KeepsAllButConditions(s, r.state)
            && Holds(c, MonitoringAvailable, mismatch) && Holds(c, Feature(Korrel8rAvailable), mismatch)
            && Holds(c, ProvisioningSucceeded, mismatch) && Holds(c, Ready, mismatch) && HasStatus(c, Degraded, False)
  {
    hide CheckOperators;
    hide DeleteAllOwned;
  }

  lemma OperatorsExit(env: Env, spec: Spec, obs: Obs, s: State)
    requires PastVersion(spec, obs) && !NamespaceConflict(env, spec) && obs.preconditions.OperatorsMissing?
    ensures var r := Reconcile(env, spec, obs, s);
            var c := r.state.status.conditions;
            var missing := Condition(False, MissingOperator, false);
            && !r.outcome.failed && KeepsAllButConditions(s, r.state)
            && Holds(c, DependenciesReady, missing) && Holds(c, MonitoringAvailable, missing)
            && Holds(c, Ready, Condition(False, PreconditionsFailed, false))
            && Holds(c, ProvisioningSucceeded, Condition(False, PreconditionsFailed, false)) && HasStatus(c, Degraded, False)
  {
    hide Configure;
    hide DeleteAllOwned;
  }

  /** A configuration error is reported without touching the cluster, and charged to the
      usage logs collector only when one of its exporters caused it. */
  lemma ConfigurationExit(env: Env, spec: Spec, obs: Obs, s: State)
    requires PastVersion(spec, obs) && !NamespaceConflict(env, spec) && obs.preconditions.Met? && obs.persesProbed
    requires obs.data.Misconfigured?
    ensures var r := Reconcile(env, spec, obs, s);
            var c := r.state.status.conditions;
            var wrong := Condition(False, ConfigurationError, false);
            var collector := Feature(UsageLogsCollectorAvailable);
            && !r.outcome.failed && KeepsAllButConditions(s, r.state)
            && Holds(c, ProvisioningSucceeded, wrong) && Holds(c, Ready, wrong) && HasStatus(c, Degraded, False)
            && (if obs.data.usageLogsExporter then Holds(c, collector, wrong) else SameAt(c, s.status.conditions, collector))
  {
    hide MakePlan;
    hide Commit;
    hide DeleteAllOwned;
  }

  /** A read that fails before rendering fails the round and leaves all but conditions. */
  lemma UnansweredReadFails(env: Env, spec: Spec, obs: Obs, s: State)
    requires || obs.platformVersion.Unreadable?
             || (&& PastVersion(spec, obs) && !NamespaceConflict(env, spec)
                 && (|| obs.preconditions.PreconditionsUnknown?
                     || (obs.preconditions.Met? && (!obs.persesProbed || obs.data.TlsUnresolved?))))
    ensures var r := Reconcile(env, spec, obs, s);
            && r.outcome.failed && KeepsAllButConditions(s, r.state)
            && (forall f: Feature :: SameAt(r.state.status.conditions, s.status.conditions, Feature(f)))
  {
    hide MakePlan;
    hide Commit;
    hide DeleteAllOwned;
  }

  /** The round gets as far as rendering. */
  predicate Plans(env: Env, spec: Spec, obs: Obs) {
    && PastVersion(spec, obs) && !NamespaceConflict(env, spec)
    && obs.preconditions.Met? && obs.persesProbed && obs.data.Built?
  }

  /** A failed plan fails the round before it touches the cluster; the conditions that the
      actions had written by then are kept. */
  lemma FailedPlanAborts(env: Env, spec: Spec, obs: Obs, s: State)
    requires Plans(env, spec, obs) && PlanOf(env, spec, obs, s).failed
    ensures var r := Reconcile(env, spec, obs, s);
            var marks := PlanOf(env, spec, obs, s).marks;
            && r.outcome.failed && KeepsAllButConditions(s, r.state)
            && (forall f: Feature :: Feature(f) in marks ==> Holds(r.state.status.conditions, Feature(f), marks[Feature(f)]))
  {
    hide MakePlan;
    hide Commit;
    hide DeleteAllOwned;
  }

  /** Every completed round writes the version condition as the version was found, and
      reports the operators and the service available. */
  lemma BaseConditions(env: Env, spec: Spec, obs: Obs, s: State)
    requires Completes(env, spec, obs, s)
    ensures var c := Reconcile(env, spec, obs, s).state.status.conditions;
            && Holds(c, DependenciesReady, Condition(True, Available, false))
            && Holds(c, MonitoringAvailable, Condition(True, Available, false))
            && Holds(c, COOVersionCompatible,
                     match obs.coo
                     case CooSupported => Condition(True, Available, false)
                     case CooUnsupported => Condition(False, UnsupportedVersion, true)
                     case CooUnavailable => Condition(False, VersionUnavailable, true))
  {
    hide Body;
    hide Finish;
    hide MakePlan;
    hide PrepareCA;
    hide Conclude;
    CompletedShape(env, spec, obs, s);
    var w, t := WorkMarks(env, spec, obs, s), TraceOf(env, spec, obs, s);
    forall u | u in {COOVersionCompatible, DependenciesReady, MonitoringAvailable}
      ensures u !in PlanOf(env, spec, obs, s).marks
    {
      if u in PlanOf(env, spec, obs, s).marks { PlanWritesFeatures(env, spec, obs, s.status.usageLogsEndpoint, u); }
    }
    ConcludedBase(env, spec, obs, s, w, CaOf(env, spec, obs, s).caSecret, t, COOVersionCompatible);
    ConcludedBase(env, spec, obs, s, w, CaOf(env, spec, obs, s).caSecret, t, DependenciesReady);
    ConcludedBase(env, spec, obs, s, w, CaOf(env, spec, obs, s).caSecret, t, MonitoringAvailable);
  }

  lemma ConcludedBase(env: Env, spec: Spec, obs: Obs, s: State, w: Marks, ca: CaSecret, t: Trace, u: Type)
    requires obs.data.Built? && t.Completed? && u in {COOVersionCompatible, DependenciesReady, MonitoringAvailable} && u in w
    ensures Holds(Finish(spec, obs, s, Conclude(env, spec, obs, s, w, ca, t)).state.status.conditions, u, w[u])
  {
    hide Conclude;
    hide DeferredRequeue;
    ConcludeWrites(env, spec, obs, s, w, ca, t);
    assert u !in Aggregate(s.status.conditions + AfterThanosSync(spec, obs, w));
    assert u !in FAILED_MARKS;
  }
}
