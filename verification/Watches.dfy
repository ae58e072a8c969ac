/** Strictly ascending sequences under any strict total order. */
module Ordering {

  ghost predicate StrictOrder<T(!new)>(less: (T, T) -> bool) {
    && (forall a :: !less(a, a))
    && (forall a, b, c :: less(a, b) && less(b, c) ==> less(a, c))
    && (forall a, b :: a == b || less(a, b) || less(b, a))
  }

  predicate Ascending<T>(xs: seq<T>, less: (T, T) -> bool) {
    forall i, j :: 0 <= i < j < |xs| ==> less(xs[i], xs[j])
  }

  lemma FirstIsLeast<T(!new)>(xs: seq<T>, less: (T, T) -> bool, x: T)
    requires StrictOrder(less) && Ascending(xs, less) && x in xs
    ensures x == xs[0] || less(xs[0], x)
  {
  }

  lemma TailMembers<T(!new)>(xs: seq<T>, less: (T, T) -> bool, x: T)
    requires StrictOrder(less) && Ascending(xs, less) && xs != []
    ensures x in xs[1..] <==> x in xs && x != xs[0]
  {
    if x in xs && x != xs[0] {
      var i :| 0 <= i < |xs| && xs[i] == x;
      assert xs[1..][i - 1] == x;
    }
  }

  /** A set has one ascending listing. */
  lemma {:induction false} AscendingUnique<T(!new)>(xs: seq<T>, ys: seq<T>, less: (T, T) -> bool)
    requires StrictOrder(less) && Ascending(xs, less) && Ascending(ys, less)
    requires forall x :: x in xs <==> x in ys
    ensures xs == ys
  {
    assert ys != [] ==> ys[0] in ys;
    if xs != [] {
      assert xs[0] in xs;
      FirstIsLeast(ys, less, xs[0]);
      FirstIsLeast(xs, less, ys[0]);
      forall x: T
        ensures x in xs[1..] <==> x in ys[1..]
      {
        TailMembers(xs, less, x);
        TailMembers(ys, less, x);
      }
      AscendingUnique(xs[1..], ys[1..], less);
    }
  }

  method Insert<T(!new)>(xs: seq<T>, x: T, less: (T, T) -> bool) returns (ys: seq<T>)
    requires StrictOrder(less) && Ascending(xs, less) && x !in xs
    ensures Ascending(ys, less) && forall y :: y in ys <==> y in xs || y == x
  {
    var k := 0;
    while k < |xs| && less(xs[k], x)
      invariant k <= |xs| && forall i :: 0 <= i < k ==> less(xs[i], x)
    {
      k := k + 1;
    }
    ys := xs[..k] + [x] + xs[k..];
    assert xs == xs[..k] + xs[k..];
    forall i | k <= i < |xs|
      ensures less(x, xs[i])
    {
      assert less(xs[k], x) || less(x, xs[k]);
    }
  }

  /** Lists a set in ascending order. */
  method Sorted<T(==, !new)>(s: set<T>, less: (T, T) -> bool) returns (xs: seq<T>)
    requires StrictOrder(less)
    ensures Ascending(xs, less) && forall x :: x in xs <==> x in s
  {
    xs := [];
    var left := s;
    while left != {}
      invariant left <= s && Ascending(xs, less)
      invariant forall x :: x in xs <==> x in s - left
      decreases |left|
    {
      var x :| x in left;
      xs := Insert(xs, x, less);
      left := left - {x};
    }
  }
}

/** The watches against what they guard. */
module Watches {
  import opened Text
  import opened Ordering
  import opened Isolation
  import opened StorageIsolation
  import opened Monitoring
  import opened PlanProperties

  // ---- Text order ----

  predicate Below(a: string, b: string) {
    b != "" && (a == "" || a[0] < b[0] || (a[0] == b[0] && Below(a[1..], b[1..])))
  }

  lemma {:induction false} BelowIsTotal(a: string, b: string)
    ensures a == b || Below(a, b) || Below(b, a)
  {
    if a != "" && b != "" && a[0] == b[0] {
      BelowIsTotal(a[1..], b[1..]);
      assert a == [a[0]] + a[1..] && b == [b[0]] + b[1..];
    }
  }

  lemma {:induction false} BelowIsIrreflexive(a: string)
    ensures !Below(a, a)
  {
    if a != "" { BelowIsIrreflexive(a[1..]); }
  }

  lemma {:induction false} BelowIsTransitive(a: string, b: string, c: string)
    requires Below(a, b) && Below(b, c)
    ensures Below(a, c)
  {
    if a != "" && a[0] == b[0] == c[0] { BelowIsTransitive(a[1..], b[1..], c[1..]); }
  }

  lemma BelowIsStrictOrder()
    ensures StrictOrder(Below)
  {
    forall a
      ensures !Below(a, a)
    {
      BelowIsIrreflexive(a);
    }
    forall a, b, c | Below(a, b) && Below(b, c)
      ensures Below(a, c)
    {
      BelowIsTransitive(a, b, c);
    }
    forall a, b
      ensures a == b || Below(a, b) || Below(b, a)
    {
      BelowIsTotal(a, b);
    }
  }

  // ---- Namespaces ----

  datatype Namespace = Namespace(name: string, deleting: bool, labels: map<string, string>, annotations: map<string, string>)

  const RUN_LEVEL_LABEL := "openshift.io/run-level"
  const CLUSTER_MONITORING_KEY := "openshift.io/cluster-monitoring"
  const CLUSTER_LOGGING_KEY := "openshift.io/cluster-logging"
  const HYPERSHIFT_MANAGED_LABEL := "hypershift.openshift.io/managed"
  const OPERATOR_GROUP_PREFIX := "olm.operatorgroup.uid/"

  const SYSTEM_NAMES: set<string> := {
    "", "default", "kube-system", "kube-public", "kube-node-lease", "openshift", "openshift-infra", "openshift-node"}

  predicate Says(values: map<string, string>, key: string) {
    key in values && values[key] == "true"
  }

  predicate IsSystem(n: Namespace) {
    || n.name in SYSTEM_NAMES
    || "openshift-" <= n.name
    || RUN_LEVEL_LABEL in n.labels
    || Says(n.labels, CLUSTER_MONITORING_KEY) || Says(n.annotations, CLUSTER_MONITORING_KEY)
    || Says(n.labels, CLUSTER_LOGGING_KEY) || Says(n.annotations, CLUSTER_LOGGING_KEY)
    || Says(n.labels, HYPERSHIFT_MANAGED_LABEL)
    || exists key :: key in n.labels && OPERATOR_GROUP_PREFIX <= key
  }

  /** Live and named, and not a system namespace unless it is the fallback. */
  predicate Counts(n: Namespace, fallback: string) {
    n.name != "" && !n.deleting && (n.name == fallback || !IsSystem(n))
  }

  /** The live non-system namespaces and, if the list does not mention it, the fallback. */
  ghost predicate Covered(list: seq<Namespace>, fallback: string, name: string) {
    || (exists i :: 0 <= i < |list| && list[i].name == name && Counts(list[i], fallback))
    || (name == fallback && fallback != "" && !Mentioned(list, fallback))
  }

  ghost predicate Mentioned(list: seq<Namespace>, name: string) {
    exists i :: 0 <= i < |list| && list[i].name == name
  }

  /** None where the list cannot be read. */
  method ListAllNamespaces(list: Option<seq<Namespace>>, fallback: string) returns (result: Option<seq<string>>)
    ensures result.Some? <==> list.Some?
    ensures result.Some? ==>
              && Ascending(result.value, Below)
              && forall name :: name in result.value <==> Covered(list.value, fallback, name)
  {
    if list.None? { return None; }
    var namespaces := Collect(list.value, fallback);
    BelowIsStrictOrder();
    var names := Sorted(namespaces, Below);
    result := Some(names);
  }

  method Collect(list: seq<Namespace>, fallback: string) returns (namespaces: set<string>)
    ensures forall name :: name in namespaces <==> Covered(list, fallback, name)
  {
    hide IsSystem;
    namespaces := {};
    var fallbackFound := false;
    for i := 0 to |list|
      invariant fallbackFound <==> exists j :: 0 <= j < i && list[j].name == fallback
      invariant forall name :: name in namespaces <==>
                               exists j :: 0 <= j < i && list[j].name == name && Counts(list[j], fallback)
    {
      var n := list[i];
      if n.name == "" || n.deleting {
        if n.name == fallback { fallbackFound := true; }
        continue;
      }
      if n.name == fallback {
        fallbackFound := true;
        namespaces := namespaces + {n.name};
        continue;
      }
      if !IsSystem(n) { namespaces := namespaces + {n.name}; }
    }
    if fallback != "" && !fallbackFound { namespaces := namespaces + {fallback}; }
  }

  /** A listed namespace other than the fallback is a live one that bears no system mark. */
  lemma ListedIsNotSystem(list: seq<Namespace>, fallback: string, name: string)
    requires Covered(list, fallback, name) && name != fallback
    ensures name !in {"", "default", "kube-system", "kube-public", "kube-node-lease", "openshift", "openshift-infra", "openshift-node"}
    ensures !("openshift-" <= name)
    ensures exists i :: 0 <= i < |list| && list[i].name == name && !list[i].deleting && Unmarked(list[i])
  {
    var i :| 0 <= i < |list| && list[i].name == name && Counts(list[i], fallback);
  }

  /** No label or annotation marks the namespace as a system one. */
  predicate Unmarked(n: Namespace) {
    && "openshift.io/run-level" !in n.labels
    && (forall key :: key in {"openshift.io/cluster-monitoring", "openshift.io/cluster-logging"} ==>
          (key in n.labels ==> n.labels[key] != "true") && (key in n.annotations ==> n.annotations[key] != "true"))
    && ("hypershift.openshift.io/managed" in n.labels ==> n.labels["hypershift.openshift.io/managed"] != "true")
    && (forall key :: key in n.labels ==> !("olm.operatorgroup.uid/" <= key))
  }

  /** The other way: such a namespace is listed. */
  lemma UnmarkedIsListed(list: seq<Namespace>, fallback: string, i: nat)
    requires i < |list| && !list[i].deleting && Unmarked(list[i]) && !("openshift-" <= list[i].name)
    requires list[i].name !in {"", "default", "kube-system", "kube-public", "kube-node-lease", "openshift", "openshift-infra", "openshift-node"}
    ensures Covered(list, fallback, list[i].name)
  {
    assert Counts(list[i], fallback);
  }

  /** The update events that pass. */
  predicate UpdatePasses(before: Namespace, after: Namespace) {
    before.deleting != after.deleting || IsSystem(before) != IsSystem(after)
  }

  lemma DroppedUpdateKeepsCovered(list: seq<Namespace>, fallback: string, i: nat, after: Namespace, name: string)
    requires i < |list| && after.name == list[i].name && !UpdatePasses(list[i], after)
    ensures Covered(list, fallback, name) <==> Covered(list[i := after], fallback, name)
  {
    hide IsSystem;
    var changed := list[i := after];
    assert Counts(list[i], fallback) <==> Counts(after, fallback);
    forall j | 0 <= j < |list|
      ensures list[j].name == changed[j].name && (Counts(list[j], fallback) <==> Counts(changed[j], fallback))
    {
    }
    assert Mentioned(list, fallback) <==> Mentioned(changed, fallback);
  }

  /** An update the predicate drops cannot change the namespace list. */
  lemma DroppedUpdateKeepsList(list: seq<Namespace>, fallback: string, i: nat, after: Namespace, r: seq<string>, r': seq<string>)
    requires i < |list| && after.name == list[i].name && !UpdatePasses(list[i], after)
    requires Ascending(r, Below) && forall name :: name in r <==> Covered(list, fallback, name)
    requires Ascending(r', Below) && forall name :: name in r' <==> Covered(list[i := after], fallback, name)
    ensures r == r'
  {
    hide Covered;
    hide Below;
    hide UpdatePasses;
    BelowIsStrictOrder();
    forall name: string
      ensures name in r <==> name in r'
    {
      DroppedUpdateKeepsCovered(list, fallback, i, after, name);
    }
    AscendingUnique(r, r', Below);
  }

  // ---- Storage Secrets ----

  /** All Secrets of the cluster, by namespace and name. */
  type Secrets = (string, string) -> Read<Secret>

  function InNamespace(secrets: Secrets, namespace: string): SecretReader {
    name => secrets(namespace, name)
  }

  predicate Names(storage: Option<string>, name: string) {
    storage.Some? && storage.value == name
  }

  /** A change of this Secret enqueues the Monitoring resource. */
  predicate Enqueues(env: Env, spec: Spec, namespace: string, name: string) {
    && namespace == EffectiveNamespace(env, spec)
    && (|| (spec.usageLogs.Some? && Names(spec.usageLogs.value.storage, name))
        || (spec.logs.Some? && Names(spec.logs.value.storage, name)))
  }

  /** The two clusters differ in one Secret at most. */
  ghost predicate DifferAt(before: Secrets, after: Secrets, namespace: string, name: string) {
    forall ns, n :: ns != namespace || n != name ==> before(ns, n) == after(ns, n)
  }

  lemma ClaimNamesSpec(spec: Spec, i: nat)
    requires i < |StorageClaims(LogClaims(spec))|
    ensures var name := StorageClaims(LogClaims(spec))[i].secretName;
            || (spec.usageLogs.Some? && Names(spec.usageLogs.value.storage, name))
            || (spec.logs.Some? && Names(spec.logs.value.storage, name))
  {
    ClaimsLength(LogClaims(spec));
  }

  /** The watch is tight: a Secret change enqueues exactly when a claim names that Secret in
      the namespace the gate reads. */
  lemma EnqueuesExactlyClaims(env: Env, spec: Spec, namespace: string, name: string)
    ensures Enqueues(env, spec, namespace, name) <==>
            && namespace == EffectiveNamespace(env, spec)
            && exists i :: 0 <= i < |StorageClaims(LogClaims(spec))| && StorageClaims(LogClaims(spec))[i].secretName == name
  {
    hide EffectiveNamespace;
    var claims := LogClaims(spec);
    ClaimsLength(claims);
    forall i | 0 <= i < |StorageClaims(claims)|
      ensures StorageClaims(claims)[i].secretName == claims[i].claim.secretName
    {
    }
    if Enqueues(env, spec, namespace, name) {
      var i := if UsageStorage(spec) && spec.usageLogs.value.storage.value == name then 0 else |claims| - 1;
      assert StorageClaims(claims)[i].secretName == name;
    }
    if i :| 0 <= i < |StorageClaims(claims)| && StorageClaims(claims)[i].secretName == name { ClaimNamesSpec(spec, i); }
  }

  /** A Secret change that enqueues nothing leaves every claim resolving as before, so the
      gate's verdict and everything it writes and withholds stay the same. */
  lemma UnwatchedSecretKeepsGate(env: Env, spec: Spec, before: Secrets, after: Secrets, namespace: string, name: string)
    requires DifferAt(before, after, namespace, name) && !Enqueues(env, spec, namespace, name)
    ensures var ns := EffectiveNamespace(env, spec);
            && GateFor(env, spec, InNamespace(before, ns)) == GateFor(env, spec, InNamespace(after, ns))
            && ValidateStorage(env, spec, InNamespace(before, ns)) == ValidateStorage(env, spec, InNamespace(after, ns))
  {
    hide ResolveSecret;
    hide GateOf;
    hide LogClaims;
    hide StorageClaims;
    var ns := EffectiveNamespace(env, spec);
    var claims := StorageClaims(LogClaims(spec));
    var rs := Resolutions(Resolver(env.parse, InNamespace(before, ns)), claims);
    var ss := Resolutions(Resolver(env.parse, InNamespace(after, ns)), claims);
    forall i | 0 <= i < |claims|
      ensures rs[i] == ss[i]
    {
      ClaimNamesSpec(spec, i);
      var secret := claims[i].secretName;
      assert before(ns, secret) == after(ns, secret);
    }
    assert rs == ss;
  }
}
