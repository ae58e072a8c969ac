/** Status conditions of the Monitoring resource and their aggregation. */
module Conditions {

  /** The conditions that take part in the Ready/Degraded aggregation. */
  datatype Feature =
    | MonitoringStackAvailable | ThanosQuerierAvailable | TempoAvailable | InstrumentationAvailable
    | OpenTelemetryCollectorAvailable | AlertingAvailable | PersesAvailable
    | PersesTempoDataSourceAvailable | PersesPrometheusDataSourceAvailable
    | NodeMetricsEndpointAvailable | WebhookAvailable | UsageLogsCollectorAvailable
    | UsageLogsLokiStackAvailable | LokiStackAvailable | ClusterLogForwarderAvailable
    | Korrel8rAvailable

  datatype Type =
    | Feature(feature: Feature)
    | Ready | ProvisioningSucceeded | Degraded
    | DependenciesReady | MonitoringAvailable | COOVersionCompatible
    | Foreign(name: string)

  datatype Status = True | False | Unknown

  datatype Reason =
    | Available | ForwardingOnly
    | ReconcileFailed | Removed | NamespaceMismatch | MissingOperator | ConfigurationError | PreconditionsFailed
    | FeatureUnavailable | Progressing | NotDegraded | NotConfigured | NotRequired
    | CRDNotFound | NotReady | TLSSecretPending | CredentialNotFound | LokiStackNotReady
    | PrometheusCAUnavailable | ThanosCASyncFailed
    | StorageConflict | StorageCheckFailed | StorageSecretNotFound | StorageSecretInvalid
    | LokiCRDCheckFailed | ReadinessCheckFailed
    | VersionUnavailable | UnsupportedVersion

  /** A condition without its message and timestamps; info is the Info severity. */
  datatype Condition = Condition(status: Status, reason: Reason, info: bool)

  type Marks = map<Type, Condition>

  const TRUE := Condition(True, Available, false)

  function FalseFor(reason: Reason): Condition {
    Condition(False, reason, false)
  }

  function UnknownFor(reason: Reason): Condition {
    Condition(Unknown, reason, false)
  }

  /** Intentionally off: False at Info severity. */
  function OffFor(reason: Reason): Condition {
    Condition(False, reason, true)
  }

  predicate HasStatus(conditions: Marks, t: Type, status: Status) {
    t in conditions && conditions[t].status == status
  }

  // ---- Aggregation ----

  predicate Failing(c: Condition) {
    c.status == False && !c.info
  }

  ghost predicate AnyFailing(conditions: Marks) {
    exists f: Feature :: Feature(f) in conditions && Failing(conditions[Feature(f)])
  }

  ghost predicate AnyUnknown(conditions: Marks) {
    exists f: Feature :: Feature(f) in conditions && conditions[Feature(f)].status == Unknown
  }

  /** What AggregateReady writes, as a function of the conditions it reads. */
  ghost function Aggregate(conditions: Marks): Marks {
    if !HasStatus(conditions, DependenciesReady, True) then
      map[ProvisioningSucceeded := FalseFor(PreconditionsFailed),
          Ready := FalseFor(PreconditionsFailed),
          Degraded := FalseFor(NotDegraded)]
    else if AnyFailing(conditions) then
      map[ProvisioningSucceeded := TRUE, Ready := FalseFor(FeatureUnavailable), Degraded := TRUE]
    else if AnyUnknown(conditions) then
      map[ProvisioningSucceeded := TRUE, Ready := UnknownFor(Progressing), Degraded := FalseFor(NotDegraded)]
    else
      map[ProvisioningSucceeded := TRUE, Ready := TRUE, Degraded := FalseFor(NotDegraded)]
  }

  /** Aggregation reads the dependencies condition and the features, nothing else. */
  lemma AggregateReadsFeatures(a: Marks, b: Marks)
    requires DependenciesReady in a <==> DependenciesReady in b
    requires DependenciesReady in a ==> a[DependenciesReady] == b[DependenciesReady]
    requires forall f: Feature :: Feature(f) in a <==> Feature(f) in b
    requires forall f: Feature :: Feature(f) in a ==> a[Feature(f)] == b[Feature(f)]
    ensures Aggregate(a) == Aggregate(b)
  {
    assert AnyFailing(a) <==> AnyFailing(b);
    assert AnyUnknown(a) <==> AnyUnknown(b);
  }

  // ---- The list the status holds ----

  datatype Entry = Entry(kind: Type, condition: Condition)

  predicate UniqueTypes(list: seq<Entry>) {
    forall i, j :: 0 <= i < j < |list| ==> list[i].kind != list[j].kind
  }

  /** The list as a map; a type listed twice would be read at its first entry. */
  ghost function ViewOf(list: seq<Entry>): Marks {
    if list == [] then map[] else ViewOf(list[1..])[list[0].kind := list[0].condition]
  }

  lemma {:induction false} ViewMembers(list: seq<Entry>, t: Type)
    ensures t in ViewOf(list) <==> exists i :: 0 <= i < |list| && list[i].kind == t
  {
    if list != [] {
      var rest := list[1..];
      ViewMembers(rest, t);
      if exists i :: 0 <= i < |rest| && rest[i].kind == t {
        var i :| 0 <= i < |rest| && rest[i].kind == t;
        assert list[i + 1].kind == t;
      }
      if exists i :: 0 <= i < |list| && list[i].kind == t {
        var i :| 0 <= i < |list| && list[i].kind == t;
        if i > 0 { assert rest[i - 1].kind == t; }
      }
    }
  }

  lemma {:induction false} ViewAt(list: seq<Entry>, i: nat)
    requires i < |list| && forall j :: 0 <= j < i ==> list[j].kind != list[i].kind
    ensures list[i].kind in ViewOf(list) && ViewOf(list)[list[i].kind] == list[i].condition
  {
    if i > 0 {
      assert list[1..][i - 1] == list[i];
      assert forall j :: 0 <= j < i - 1 ==> list[1..][j].kind == list[j + 1].kind;
      ViewAt(list[1..], i - 1);
    }
  }

  lemma {:induction false} ViewReplace(list: seq<Entry>, i: nat, c: Condition)
    requires i < |list| && forall j :: 0 <= j < i ==> list[j].kind != list[i].kind
    ensures ViewOf(list[i := Entry(list[i].kind, c)]) == ViewOf(list)[list[i].kind := c]
  {
    var t := list[i].kind;
    var list' := list[i := Entry(t, c)];
    if i == 0 {
      assert list'[1..] == list[1..];
    } else {
      var rest := list[1..];
      assert rest[i - 1] == list[i];
      assert forall j :: 0 <= j < i - 1 ==> rest[j].kind == list[j + 1].kind;
      assert list'[1..] == rest[i - 1 := Entry(t, c)];
      assert list'[0] == list[0];
      ViewReplace(rest, i - 1, c);
    }
  }

  lemma {:induction false} ViewAppend(list: seq<Entry>, t: Type, c: Condition)
    requires forall j :: 0 <= j < |list| ==> list[j].kind != t
    ensures ViewOf(list + [Entry(t, c)]) == ViewOf(list)[t := c]
  {
    var list' := list + [Entry(t, c)];
    if list == [] {
      assert list'[1..] == [];
    } else {
      assert list'[1..] == list[1..] + [Entry(t, c)];
      ViewAppend(list[1..], t, c);
    }
  }

  /** Writes the conditions of one Monitoring resource in place. */
  class ConditionsManager {
    var conditions: seq<Entry>

    ghost predicate Valid()
      reads this
    {
      UniqueTypes(conditions)
    }

    ghost function View(): Marks
      reads this
    {
      ViewOf(conditions)
    }

    constructor (initial: seq<Entry>)
      requires UniqueTypes(initial)
      ensures Valid() && conditions == initial
    {
      conditions := initial;
    }

    /** The first entry of a type, if the list has one. */
    method Find(t: Type) returns (found: bool, c: Condition)
      ensures found <==> t in View()
      ensures found ==> c == View()[t]
    {
      c := TRUE;
      for i := 0 to |conditions|
        invariant forall j :: 0 <= j < i ==> conditions[j].kind != t
      {
        if conditions[i].kind == t {
          ViewAt(conditions, i);
          return true, conditions[i].condition;
        }
      }
      ViewMembers(conditions, t);
      found := false;
    }

    /** Upserts by type. */
    method Set(t: Type, c: Condition)
      requires Valid()
      modifies this
      ensures Valid() && View() == old(View())[t := c]
    {
      for i := 0 to |conditions|
        invariant forall j :: 0 <= j < i ==> conditions[j].kind != t
        invariant conditions == old(conditions)
      {
        if conditions[i].kind == t {
          ViewReplace(conditions, i, c);
          conditions := conditions[i := Entry(t, c)];
          return;
        }
      }
      ViewAppend(conditions, t, c);
      conditions := conditions + [Entry(t, c)];
    }

    method MarkTrue(t: Type)
      requires Valid()
      modifies this
      ensures Valid() && View() == old(View())[t := TRUE]
    {
      Set(t, TRUE);
    }

    method MarkFalse(t: Type, reason: Reason)
      requires Valid()
      modifies this
      ensures Valid() && View() == old(View())[t := FalseFor(reason)]
    {
      Set(t, FalseFor(reason));
    }

    method MarkUnknown(t: Type, reason: Reason)
      requires Valid()
      modifies this
      ensures Valid() && View() == old(View())[t := UnknownFor(reason)]
    {
      Set(t, UnknownFor(reason));
    }

    /** MarkNotConfigured and MarkWarning write the same condition. */
    method MarkNotConfigured(t: Type, reason: Reason)
      requires Valid()
      modifies this
      ensures Valid() && View() == old(View())[t := OffFor(reason)]
    {
      Set(t, OffFor(reason));
    }

    /** Scans the features and writes ProvisioningSucceeded, Ready and Degraded. */
    method AggregateReady()
      requires Valid()
      modifies this
      ensures Valid() && View() == old(View()) + Aggregate(old(View()))
    {
      hide ViewOf;
      hide UniqueTypes;
      hide AnyFailing;
      hide AnyUnknown;
      ghost var before := View();
      var known, dependencies := Find(DependenciesReady);
      if !known || dependencies.status != True {
        MarkFalse(ProvisioningSucceeded, PreconditionsFailed);
        MarkFalse(Ready, PreconditionsFailed);
        MarkFalse(Degraded, NotDegraded);
        return;
      }
      var anyFailing, anyUnknown := Scan();
      MarkTrue(ProvisioningSucceeded);
      if anyFailing {
        MarkFalse(Ready, FeatureUnavailable);
        MarkTrue(Degraded);
      } else if anyUnknown {
        MarkUnknown(Ready, Progressing);
        MarkFalse(Degraded, NotDegraded);
      } else {
        MarkTrue(Ready);
        MarkFalse(Degraded, NotDegraded);
      }
    }

    method Scan() returns (anyFailing: bool, anyUnknown: bool)
      requires Valid()
      ensures anyFailing <==> AnyFailing(View())
      ensures anyUnknown <==> AnyUnknown(View())
    {
      anyFailing, anyUnknown := false, false;
      for i := 0 to |conditions|
        invariant anyFailing <==>
                  exists j :: 0 <= j < i && conditions[j].kind.Feature? && Failing(conditions[j].condition)
        invariant anyUnknown <==>
                  exists j :: 0 <= j < i && conditions[j].kind.Feature? && conditions[j].condition.status == Unknown
      {
        var e := conditions[i];
        if !e.kind.Feature? { continue; }
        match e.condition.status
        case True =>
        case False => if !e.condition.info { anyFailing := true; }
        case Unknown => anyUnknown := true;
      }
      ScanSeesView(conditions);
    }

    /** The lifecycle phase: ready exactly when the Ready condition is True. */
    method Phase() returns (ready: bool)
      ensures ready <==> HasStatus(View(), Ready, True)
    {
      var known, c := Find(Ready);
      ready := known && c.status == True;
    }
  }

  /** With unique types, scanning the list and quantifying over the map agree. */
  lemma ScanSeesView(list: seq<Entry>)
    requires UniqueTypes(list)
    ensures (exists j :: 0 <= j < |list| && list[j].kind.Feature? && Failing(list[j].condition)) <==> AnyFailing(ViewOf(list))
    ensures (exists j :: 0 <= j < |list| && list[j].kind.Feature? && list[j].condition.status == Unknown) <==> AnyUnknown(ViewOf(list))
  {
    forall j | 0 <= j < |list|
      ensures list[j].kind in ViewOf(list) && ViewOf(list)[list[j].kind] == list[j].condition
    {
      ViewAt(list, j);
    }
    forall f: Feature | Feature(f) in ViewOf(list)
      ensures exists j :: 0 <= j < |list| && list[j].kind == Feature(f) && list[j].condition == ViewOf(list)[Feature(f)]
    {
      ViewMembers(list, Feature(f));
      var j :| 0 <= j < |list| && list[j].kind == Feature(f);
      assert ViewOf(list)[list[j].kind] == list[j].condition;
    }
    if j :| 0 <= j < |list| && list[j].kind.Feature? && Failing(list[j].condition) {
      assert Feature(list[j].kind.feature) in ViewOf(list);
    }
    if j :| 0 <= j < |list| && list[j].kind.Feature? && list[j].condition.status == Unknown {
      assert Feature(list[j].kind.feature) in ViewOf(list);
    }
  }
}
