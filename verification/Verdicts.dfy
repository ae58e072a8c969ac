/** What a completed round reports and publishes, read off what it was given. */
module Verdicts {
  import opened Conditions
  import opened Cluster
  import opened Isolation
  import opened StorageIsolation
  import opened Monitoring
  import opened PlanProperties
  import opened Round
  import opened RoundProperties
  import opened Exits

  ghost function EndStatus(env: Env, spec: Spec, obs: Obs, s: State): MonitoringStatus {
    Reconcile(env, spec, obs, s).state.status
  }

  // ---- Endpoints ----

  /** What an endpoint ends as: the URL on True, held on Unknown, cleared on False. */
  predicate EndpointFollows(status: Status, url: string, before: string, after: string) {
    match status
    case True => after == url
    case Unknown => after == before
    case False => after == ""
  }

  /** In a completed round both endpoints follow their stack's condition, and are empty where
      the stack is not configured. */
  lemma EndpointsFollowStacks(env: Env, spec: Spec, obs: Obs, s: State)
    requires Completes(env, spec, obs, s)
    ensures var end := EndStatus(env, spec, obs, s);
            var usage, logs := Feature(UsageLogsLokiStackAvailable), Feature(LokiStackAvailable);
            var namespace := EffectiveNamespace(env, spec);
            && usage in end.conditions && logs in end.conditions
            && (if UsageStorage(spec)
                then EndpointFollows(end.conditions[usage].status, UsageLogsURL(namespace),
                                     s.status.usageLogsEndpoint, end.usageLogsEndpoint)
                else end.usageLogsEndpoint == "")
            && (if spec.logs.Some?
                then EndpointFollows(end.conditions[logs].status, LokiQueryURL(namespace),
                                     s.status.logsEndpoint, end.logsEndpoint)
                else end.logsEndpoint == "")
  {
    hide Body;
    hide Finish;
    hide MakePlan;
    hide UsageLogsURL;
    hide LokiQueryURL;
    PublishedFromConditions(env, spec, obs, s);
    LogConditions(env, spec, obs, s, UsageLogsLokiStackAvailable);
    LogConditions(env, spec, obs, s, LokiStackAvailable);
  }

  // ---- The gate's verdict ----

  predicate BothClaimed(spec: Spec) {
    UsageStorage(spec) && spec.logs.Some? && spec.logs.value.storage.Some?
  }

  /** The gate on two claims, from what their Secrets resolve to. */
  lemma GateOfTwo(env: Env, spec: Spec, obs: Obs)
    requires BothClaimed(spec)
    ensures var a, b := StorageOf(env, spec, obs, LokiUsageLogs), StorageOf(env, spec, obs, LokiLogs);
            var gate := GateFor(env, spec, obs.secret);
            && (a.Unresolved? ==> gate == Unclear(a.cause))
            && (a.Locations? && b.Unresolved? ==> gate == Unclear(b.cause))
            && (a.Locations? && b.Locations? ==> gate == if DisjointStorage(a, b) then Clean else Clash)
  {
    hide ResolveSecret;
    var claims := StorageClaims(LogClaims(spec));
    ClaimsLength(LogClaims(spec));
    var rs := Resolutions(Resolver(env.parse, obs.secret), claims);
    var a, b := StorageOf(env, spec, obs, LokiUsageLogs), StorageOf(env, spec, obs, LokiLogs);
    assert |rs| == 2 && rs[0] == a && rs[1] == b;
    AllResolved(rs);
    if a.Unresolved? {
      FirstUnresolvedAt(rs, 0);
    } else if b.Unresolved? {
      FirstUnresolvedAt(rs, 1);
    } else {
      TwoDisjoint(rs);
    }
  }

  lemma RefusedConditions(env: Env, spec: Spec, obs: Obs, s: State, f: Feature)
    requires Completes(env, spec, obs, s) && IsLogFeature(f) && !GateFor(env, spec, obs.secret).Clean?
    ensures Exits.Holds(EndStatus(env, spec, obs, s).conditions, Feature(f), Refusal(GateFor(env, spec, obs.secret)))
    ensures Reconcile(env, spec, obs, s).outcome.failed
  {
    hide Body;
    hide MakePlan;
    hide ValidateStorage;
    hide GateFor;
    hide DeployPipeline;
    hide PrepareCA;
    hide Conclude;
    hide Refusal;
    var endpoint := s.status.usageLogsEndpoint;
    LogConditions(env, spec, obs, s, f);
    GateShape(env, spec, obs.secret);
    PlanShape(env, spec, obs, endpoint);
    assert LOKI_COMPONENTS[0] == LokiUsageLogs && LOKI_COMPONENTS[1] == LokiLogs;
    var c := if f.UsageLogsLokiStackAvailable? || f.UsageLogsCollectorAvailable? then LokiUsageLogs else LokiLogs;
    PlanPipelineMarks(env, spec, obs, endpoint, c);
    PipelineMarks(c, env, spec, obs, endpoint);
    CompletedShape(env, spec, obs, s);
    ConcludeWrites(env, spec, obs, s, WorkMarks(env, spec, obs, s), CaOf(env, spec, obs, s).caSecret,
                   TraceOf(env, spec, obs, s));
  }

  ghost predicate EndsInConflict(env: Env, spec: Spec, obs: Obs, s: State, f: Feature) {
    var end := EndStatus(env, spec, obs, s);
    && Exits.Holds(end.conditions, Feature(f), Condition(False, StorageConflict, false))
    && end.usageLogsEndpoint == "" && end.logsEndpoint == ""
    && Reconcile(env, spec, obs, s).outcome.failed
  }

  lemma ClashEnds(env: Env, spec: Spec, obs: Obs, s: State, f: Feature)
    requires Completes(env, spec, obs, s) && BothClaimed(spec) && IsLogFeature(f)
    requires GateFor(env, spec, obs.secret) == Clash
    ensures EndsInConflict(env, spec, obs, s, f)
  {
    hide Reconcile;
    hide Completes;
    hide GateFor;
    RefusedConditions(env, spec, obs, s, f);
    RefusedConditions(env, spec, obs, s, UsageLogsLokiStackAvailable);
    RefusedConditions(env, spec, obs, s, LokiStackAvailable);
    EndpointsFollowStacks(env, spec, obs, s);
  }

  /** Two Secrets that share a location are a conflict: all four log conditions end False,
      both endpoints are cleared, and the round fails. */
  lemma ConflictIsFalse(env: Env, spec: Spec, obs: Obs, s: State, f: Feature, location: string)
    requires Completes(env, spec, obs, s) && BothClaimed(spec) && IsLogFeature(f)
    requires var a, b := StorageOf(env, spec, obs, LokiUsageLogs), StorageOf(env, spec, obs, LokiLogs);
             a.Locations? && b.Locations? && location in a.locs && location in b.locs
    ensures EndsInConflict(env, spec, obs, s, f)
  {
    hide EndsInConflict;
    hide Completes;
    hide GateFor;
    hide StorageOf;
    GateOfTwo(env, spec, obs);
    ClashEnds(env, spec, obs, s, f);
  }

  /** How the reason of a check that could not run follows from its cause. */
  predicate ReasonFor(cause: Cause, reason: Reason) {
    match cause
    case SecretMissing => reason == StorageSecretNotFound
    case SecretInvalid => reason == StorageSecretInvalid
    case CheckFailed => reason == StorageCheckFailed
  }

  ghost predicate EndsUnknown(env: Env, spec: Spec, obs: Obs, s: State, f: Feature, cause: Cause) {
    var end := EndStatus(env, spec, obs, s);
    var t := Feature(f);
    && t in end.conditions && end.conditions[t].status == Unknown && !end.conditions[t].info
    && ReasonFor(cause, end.conditions[t].reason)
    && end.usageLogsEndpoint == s.status.usageLogsEndpoint && end.logsEndpoint == s.status.logsEndpoint
    && Reconcile(env, spec, obs, s).outcome.failed
  }

  lemma UnclearEnds(env: Env, spec: Spec, obs: Obs, s: State, f: Feature, cause: Cause)
    requires Completes(env, spec, obs, s) && BothClaimed(spec) && IsLogFeature(f)
    requires GateFor(env, spec, obs.secret) == Unclear(cause)
    ensures EndsUnknown(env, spec, obs, s, f, cause)
  {
    hide Reconcile;
    hide Completes;
    hide GateFor;
    RefusedConditions(env, spec, obs, s, f);
    RefusedConditions(env, spec, obs, s, UsageLogsLokiStackAvailable);
    RefusedConditions(env, spec, obs, s, LokiStackAvailable);
    EndpointsFollowStacks(env, spec, obs, s);
  }

  /** A Secret that does not resolve establishes nothing: all four log conditions end Unknown
      with the reason of the first such Secret, both endpoints are held, and the round fails. */
  lemma UnresolvedIsUnknown(env: Env, spec: Spec, obs: Obs, s: State, f: Feature)
    requires Completes(env, spec, obs, s) && BothClaimed(spec) && IsLogFeature(f)
    requires StorageOf(env, spec, obs, LokiUsageLogs).Unresolved? || StorageOf(env, spec, obs, LokiLogs).Unresolved?
    ensures var a, b := StorageOf(env, spec, obs, LokiUsageLogs), StorageOf(env, spec, obs, LokiLogs);
            EndsUnknown(env, spec, obs, s, f, if a.Unresolved? then a.cause else b.cause)
  {
    hide EndsUnknown;
    hide Completes;
    hide GateFor;
    hide StorageOf;
    var a, b := StorageOf(env, spec, obs, LokiUsageLogs), StorageOf(env, spec, obs, LokiLogs);
    GateOfTwo(env, spec, obs);
    UnclearEnds(env, spec, obs, s, f, if a.Unresolved? then a.cause else b.cause);
  }

  // ---- Aggregation ----

  ghost predicate SomeFeature(conditions: Marks, status: Status, info: bool) {
    exists f: Feature :: Feature(f) in conditions && conditions[Feature(f)].status == status
                         && conditions[Feature(f)].info == info
  }

  ghost predicate SomeUnknown(conditions: Marks) {
    SomeFeature(conditions, Unknown, true) || SomeFeature(conditions, Unknown, false)
  }

  /** A completed round without an error, on the conditions it ends with: a feature that is
      False and not informational makes Ready False and Degraded True; otherwise an unknown
      one makes Ready Unknown; provisioning is True unless the CA is pending. */
  lemma AggregatedExactly(env: Env, spec: Spec, obs: Obs, s: State)
    requires Completes(env, spec, obs, s) && !Reconcile(env, spec, obs, s).outcome.failed
    ensures var c := EndStatus(env, spec, obs, s).conditions;
            var bad := SomeFeature(c, False, false);
            && HasStatus(c, Ready, if bad then False else if SomeUnknown(c) then Unknown else True)
            && HasStatus(c, Degraded, if bad then True else False)
            && HasStatus(c, ProvisioningSucceeded, if CaOf(env, spec, obs, s).ready then True else False)
            && HasStatus(c, DependenciesReady, True)
  {
    hide Body;
    hide MakePlan;
    hide PrepareCA;
    hide Conclude;
    CompletedShape(env, spec, obs, s);
    DependenciesWritten(env, spec, obs, s);
    ConcludeWrites(env, spec, obs, s, WorkMarks(env, spec, obs, s), CaOf(env, spec, obs, s).caSecret,
                   TraceOf(env, spec, obs, s));
    ConcludedAggregate(env, spec, obs, s, WorkMarks(env, spec, obs, s), CaOf(env, spec, obs, s).caSecret,
                       TraceOf(env, spec, obs, s));
  }

  lemma ConcludedAggregate(env: Env, spec: Spec, obs: Obs, s: State, w: Marks, ca: CaSecret, t: Trace)
    requires obs.data.Built? && t.Completed? && !t.plan.refused && HasStatus(w, DependenciesReady, True)
    ensures var c := Finish(spec, obs, s, Conclude(env, spec, obs, s, w, ca, t)).state.status.conditions;
            var bad := SomeFeature(c, False, false);
            && HasStatus(c, Ready, if bad then False else if SomeUnknown(c) then Unknown else True)
            && HasStatus(c, Degraded, if bad then True else False)
            && HasStatus(c, ProvisioningSucceeded, if t.caReady then True else False)
            && HasStatus(c, DependenciesReady, True)
  {
    hide Conclude;
    hide DeferredRequeue;
    var c := Finish(spec, obs, s, Conclude(env, spec, obs, s, w, ca, t)).state.status.conditions;
    var w' := AfterThanosSync(spec, obs, w);
    var before := s.status.conditions + w';
    assert HasStatus(w', DependenciesReady, True);
    ConcludeWrites(env, spec, obs, s, w, ca, t);
    forall f: Feature
      ensures SameAt(c, before, Feature(f))
    {
      ConcludedFeatures(env, spec, obs, s, w, ca, t, f);
    }
    SameFeatures(c, before);
    AggregateValues(before);
  }

  lemma SameFeatures(c: Marks, before: Marks)
    requires forall f: Feature :: SameAt(c, before, Feature(f))
    ensures AnyFailing(before) <==> SomeFeature(c, False, false)
    ensures AnyUnknown(before) <==> SomeUnknown(c)
  {
    if f: Feature :| Feature(f) in before && Failing(before[Feature(f)]) { assert SameAt(c, before, Feature(f)); }
    if f: Feature :| Feature(f) in before && before[Feature(f)].status == Unknown { assert SameAt(c, before, Feature(f)); }
    if f: Feature :| Feature(f) in c && c[Feature(f)].status == False && !c[Feature(f)].info { assert SameAt(c, before, Feature(f)); }
    if f: Feature :| Feature(f) in c && c[Feature(f)].status == Unknown { assert SameAt(c, before, Feature(f)); }
  }

  lemma AggregateValues(before: Marks)
    requires HasStatus(before, DependenciesReady, True)
    ensures var a := Aggregate(before);
            && a.Keys == {Ready, Degraded, ProvisioningSucceeded} && a[ProvisioningSucceeded].status == True
            && a[Ready].status == (if AnyFailing(before) then False else if AnyUnknown(before) then Unknown else True)
            && a[Degraded].status == (if AnyFailing(before) then True else False)
  {
  }
}
