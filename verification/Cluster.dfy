/** The resources of the cluster as the reconciler sees them: keys, ownership and labels. */
module Cluster {

  datatype Kind =
    | LokiStackKind | MonitoringStackKind | ConfigMapKind
    | ClusterRoleKind | ClusterRoleBindingKind | RoleKind | RoleBindingKind
    | OtherKind(gvk: string)

  datatype Key = Key(kind: Kind, namespace: string, name: string)

  /** The value of the component label. */
  datatype Component = LokiUsageLogs | LokiLogs | Unlabelled | Labelled(text: string)

  /** What garbage collection reads of an object, and the rest of it as content.
      controllerUid is empty when no controller owns the object. */
  datatype Object = Object(partOf: bool, component: Component, controllerUid: string, optedOut: bool, content: string)

  datatype Manifest = Manifest(key: Key, body: Object)

  type Live = map<Key, Object>

  const LOKI_COMPONENTS: seq<Component> := [LokiUsageLogs, LokiLogs]

  const CLUSTER_LOGGING_NAMESPACE := "openshift-logging"

  const TARGET_ALLOCATOR_RBAC_NAME := "data-science-collector-targetallocator-secrets"

  predicate Submap(a: Live, b: Live) {
    a.Keys <= b.Keys && forall k :: k in a ==> a[k] == b[k]
  }

  // ---- Applying manifests ----

  function Keys(manifests: seq<Manifest>): set<Key> {
    set i | 0 <= i < |manifests| :: manifests[i].key
  }

  /** An applied object belongs to the Monitoring resource and carries the part-of label. */
  function Stamp(uid: string, o: Object): Object {
    o.(partOf := true, controllerUid := uid)
  }

  /** Insert or replace, in order. */
  function Apply(uid: string, live: Live, manifests: seq<Manifest>): Live
    decreases manifests
  {
    if manifests == [] then live
    else Apply(uid, live[manifests[0].key := Stamp(uid, manifests[0].body)], manifests[1..])
  }

  /** The manifests a failed deploy had applied before it stopped. */
  function Only(manifests: seq<Manifest>, done: set<Key>): seq<Manifest> {
    if manifests == [] then []
    else (if manifests[0].key in done then [manifests[0]] else []) + Only(manifests[1..], done)
  }

  lemma {:induction false} KeysFirst(manifests: seq<Manifest>)
    requires manifests != []
    ensures Keys(manifests) == {manifests[0].key} + Keys(manifests[1..])
  {
    var rest := manifests[1..];
    forall k | k in Keys(manifests)
      ensures k in {manifests[0].key} + Keys(rest)
    {
      var i :| 0 <= i < |manifests| && manifests[i].key == k;
      if i > 0 { assert rest[i - 1].key == k; }
    }
    forall k | k in Keys(rest)
      ensures k in Keys(manifests)
    {
      var i :| 0 <= i < |rest| && rest[i].key == k;
      assert manifests[i + 1].key == k;
    }
  }

  lemma {:induction false} ApplyFrame(uid: string, live: Live, manifests: seq<Manifest>)
    ensures Apply(uid, live, manifests).Keys == live.Keys + Keys(manifests)
    ensures forall k :: k in live && k !in Keys(manifests) ==> Apply(uid, live, manifests)[k] == live[k]
    decreases manifests
  {
    if manifests != [] {
      var live' := live[manifests[0].key := Stamp(uid, manifests[0].body)];
      ApplyFrame(uid, live', manifests[1..]);
      KeysFirst(manifests);
    }
  }

  /** What an apply leaves at its own keys does not depend on what was there before. */
  lemma {:induction false} ApplyOverwrites(uid: string, a: Live, b: Live, manifests: seq<Manifest>, k: Key)
    requires k in Keys(manifests)
    ensures k in Apply(uid, a, manifests) && k in Apply(uid, b, manifests)
    ensures Apply(uid, a, manifests)[k] == Apply(uid, b, manifests)[k]
    decreases manifests
  {
    var m := manifests[0];
    var rest := manifests[1..];
    KeysFirst(manifests);
    var a', b' := a[m.key := Stamp(uid, m.body)], b[m.key := Stamp(uid, m.body)];
    if k in Keys(rest) {
      ApplyOverwrites(uid, a', b', rest, k);
    } else {
      ApplyFrame(uid, a', rest);
      ApplyFrame(uid, b', rest);
    }
  }

  /** After an apply a key holds the body of its last manifest, labelled and owned. */
  lemma {:induction false} ApplyHoldsLast(uid: string, live: Live, manifests: seq<Manifest>, i: nat)
    requires i < |manifests| && forall j :: i < j < |manifests| ==> manifests[j].key != manifests[i].key
    ensures var m := manifests[i];
            var after := Apply(uid, live, manifests);
            && m.key in after
            && after[m.key].partOf && after[m.key].controllerUid == uid
            && after[m.key].component == m.body.component && after[m.key].optedOut == m.body.optedOut
            && after[m.key].content == m.body.content
    decreases manifests
  {
    var m, rest := manifests[0], manifests[1..];
    var live' := live[m.key := Stamp(uid, m.body)];
    if i == 0 {
      ApplyFrame(uid, live', rest);
    } else {
      assert rest[i - 1] == manifests[i];
      ApplyHoldsLast(uid, live', rest, i - 1);
    }
  }

  /** Applying again over a state that agrees with the first result on the applied keys
      changes nothing. */
  lemma ApplySettles(uid: string, before: Live, manifests: seq<Manifest>, later: Live)
    requires forall k :: k in Keys(manifests) ==>
               k in later && k in Apply(uid, before, manifests) && later[k] == Apply(uid, before, manifests)[k]
    ensures Apply(uid, later, manifests) == later
  {
    ApplyFrame(uid, later, manifests);
    forall k | k in Keys(manifests)
      ensures Apply(uid, later, manifests)[k] == later[k]
    {
      ApplyOverwrites(uid, before, later, manifests, k);
    }
  }

  lemma {:induction false} OnlyKeys(manifests: seq<Manifest>, done: set<Key>)
    ensures Keys(Only(manifests, done)) <= Keys(manifests)
  {
    if manifests != [] {
      OnlyKeys(manifests[1..], done);
      KeysFirst(manifests);
      var rest := Only(manifests[1..], done);
      if manifests[0].key in done {
        assert Only(manifests, done)[1..] == rest;
        KeysFirst(Only(manifests, done));
      } else {
        assert Only(manifests, done) == rest;
      }
    }
  }
}

/** Garbage collection of owned resources that are neither desired nor shielded. */
module Sweep {
  import opened Text
  import opened Cluster

  datatype Owner = Owner(uid: string, namespace: string)

  /** The cluster-scoped RBAC names the controller may delete. */
  datatype Allowed = Allowed(clusterRoles: set<string>, clusterRoleBindings: set<string>)

  /** What a sweep must leave alone. */
  datatype Kept = Kept(desired: set<Key>, withheld: set<Component>)

  /** What the API answers during a sweep. Discovery lists a set of objects for the main
      phase, which either finishes or stops after some deletions; each RBAC list is a
      sequence of keys or fails; some deletions fail. */
  datatype SweepObs = SweepObs(
    listed: set<Key>,
    stopped: Option<set<Key>>,
    clusterRoles: Option<seq<Key>>,
    clusterRoleBindings: Option<seq<Key>>,
    roles: Option<seq<Key>>,
    roleBindings: Option<seq<Key>>,
    undeletable: set<Key>)

  datatype Swept = Swept(live: Live, ok: bool)

  // ---- Which objects a sweep may delete ----

  predicate IsOwned(owner: Owner, o: Object) {
    owner.uid != "" && o.controllerUid == owner.uid
  }

  predicate InScope(owner: Owner, k: Key) {
    k.namespace == "" || k.namespace == owner.namespace || k.namespace == CLUSTER_LOGGING_NAMESPACE
  }

  predicate AnyLokiWithheld(withheld: set<Component>) {
    exists i :: 0 <= i < |LOKI_COMPONENTS| && LOKI_COMPONENTS[i] in withheld
  }

  /** The main phase. A LokiStack is shielded by kind too: one created before the
      component label existed does not carry it. */
  predicate CollectsOwned(owner: Owner, kept: Kept, k: Key, o: Object) {
    && IsOwned(owner, o) && InScope(owner, k)
    && o.component !in kept.withheld
    && !(k.kind.LokiStackKind? && AnyLokiWithheld(kept.withheld))
    && k !in kept.desired
  }

  predicate CollectsScoped(owner: Owner, kept: Kept, names: set<string>, k: Key, o: Object) {
    && k.name in names
    && IsOwned(owner, o) && !o.optedOut
    && o.component !in kept.withheld
    && Key(k.kind, "", k.name) !in kept.desired
  }

  predicate IsTargetAllocatorRBAC(k: Key) {
    k.name == TARGET_ALLOCATOR_RBAC_NAME && (k.kind.RoleKind? || k.kind.RoleBindingKind?)
  }

  predicate CollectsTargetAllocator(owner: Owner, kept: Kept, k: Key, o: Object) {
    && IsTargetAllocatorRBAC(k)
    && IsOwned(owner, o) && !o.optedOut
    && k !in kept.desired
  }

  datatype Phase = Owned | ScopedRole(names: set<string>) | ScopedBinding(names: set<string>) | AllocatorRole | AllocatorBinding

  predicate Collects(owner: Owner, kept: Kept, phase: Phase, k: Key, o: Object) {
    o.partOf &&
    match phase
    case Owned => CollectsOwned(owner, kept, k, o)
    case ScopedRole(names) => k.kind.ClusterRoleKind? && CollectsScoped(owner, kept, names, k, o)
    case ScopedBinding(names) => k.kind.ClusterRoleBindingKind? && CollectsScoped(owner, kept, names, k, o)
    case AllocatorRole => k.kind.RoleKind? && CollectsTargetAllocator(owner, kept, k, o)
    case AllocatorBinding => k.kind.RoleBindingKind? && CollectsTargetAllocator(owner, kept, k, o)
  }

  // ---- The sweep ----

  /** gc.Run: deletes the listed objects the predicate accepts, or some of them. */
  function Run(owner: Owner, kept: Kept, obs: SweepObs, live: Live): Swept {
    var hits := set k | k in live && k in obs.listed && Collects(owner, kept, Owned, k, live[k]);
    match obs.stopped
    case None => Swept(live - hits, true)
    case Some(done) => Swept(live - (hits * done), false)
  }

  /** Deletes accepted objects in list order, up to the first deletion that fails. */
  function DeleteListed(owner: Owner, kept: Kept, phase: Phase, undeletable: set<Key>, live: Live, keys: seq<Key>): Swept {
    if keys == [] then Swept(live, true)
    else if keys[0] !in live || !Collects(owner, kept, phase, keys[0], live[keys[0]]) then
      DeleteListed(owner, kept, phase, undeletable, live, keys[1..])
    else if keys[0] in undeletable then Swept(live, false)
    else DeleteListed(owner, kept, phase, undeletable, live - {keys[0]}, keys[1..])
  }

  /** One RBAC phase: list, then delete. */
  function RunPhase(owner: Owner, kept: Kept, phase: Phase, undeletable: set<Key>, keys: Option<seq<Key>>, before: Swept): Swept {
    if !before.ok then before
    else match keys
      case None => Swept(before.live, false)
      case Some(list) => DeleteListed(owner, kept, phase, undeletable, before.live, list)
  }

  function CollectGarbage(owner: Owner, allowed: Allowed, kept: Kept, obs: SweepObs, live: Live): Swept {
    var a := Run(owner, kept, obs, live);
    var b := RunPhase(owner, kept, ScopedRole(allowed.clusterRoles), obs.undeletable, obs.clusterRoles, a);
    var c := RunPhase(owner, kept, ScopedBinding(allowed.clusterRoleBindings), obs.undeletable, obs.clusterRoleBindings, b);
    var d := RunPhase(owner, kept, AllocatorRole, obs.undeletable, obs.roles, c);
    RunPhase(owner, kept, AllocatorBinding, obs.undeletable, obs.roleBindings, d)
  }

  // ---- Every deletion is allowed ----

  /** Some phase accepts the object. */
  predicate Collectable(owner: Owner, allowed: Allowed, kept: Kept, obs: SweepObs, k: Key, o: Object) {
    || (k in obs.listed && Collects(owner, kept, Owned, k, o))
    || Collects(owner, kept, ScopedRole(allowed.clusterRoles), k, o)
    || Collects(owner, kept, ScopedBinding(allowed.clusterRoleBindings), k, o)
    || Collects(owner, kept, AllocatorRole, k, o)
    || Collects(owner, kept, AllocatorBinding, k, o)
  }

  lemma {:induction false} DeleteListedSound(owner: Owner, kept: Kept, phase: Phase, undeletable: set<Key>, live: Live, keys: seq<Key>)
    ensures var r := DeleteListed(owner, kept, phase, undeletable, live, keys);
            && Submap(r.live, live)
            && (forall k :: k in live && k !in r.live ==> Collects(owner, kept, phase, k, live[k]))
            && (r.ok ==> forall i :: 0 <= i < |keys| && keys[i] in r.live ==> !Collects(owner, kept, phase, keys[i], live[keys[i]]))
  {
    if keys != [] {
      var k, rest := keys[0], keys[1..];
      if k !in live || !Collects(owner, kept, phase, k, live[k]) {
        DeleteListedSound(owner, kept, phase, undeletable, live, rest);
      } else if k !in undeletable {
        DeleteListedSound(owner, kept, phase, undeletable, live - {k}, rest);
      }
      assert forall i :: 0 < i < |keys| ==> keys[i] == rest[i - 1];
    }
  }

  lemma RunPhaseSound(owner: Owner, kept: Kept, phase: Phase, undeletable: set<Key>, keys: Option<seq<Key>>, before: Swept)
    ensures var r := RunPhase(owner, kept, phase, undeletable, keys, before);
            && Submap(r.live, before.live)
            && (forall k :: k in before.live && k !in r.live ==> Collects(owner, kept, phase, k, before.live[k]))
            && (r.ok ==> before.ok && keys.Some?)
            && (r.ok ==> forall k :: k in keys.value && k in r.live ==> !Collects(owner, kept, phase, k, r.live[k]))
  {
    if before.ok && keys.Some? {
      DeleteListedSound(owner, kept, phase, undeletable, before.live, keys.value);
      var r := RunPhase(owner, kept, phase, undeletable, keys, before);
      forall k | r.ok && k in keys.value && k in r.live
        ensures !Collects(owner, kept, phase, k, r.live[k])
      {
        var i :| 0 <= i < |keys.value| && keys.value[i] == k;
      }
    }
  }

  /** Whatever fails on the way, a sweep only removes objects, and only collectable ones. */
  lemma SweepIsSound(owner: Owner, allowed: Allowed, kept: Kept, obs: SweepObs, live: Live)
    ensures Submap(CollectGarbage(owner, allowed, kept, obs, live).live, live)
    ensures forall k :: k in live && k !in CollectGarbage(owner, allowed, kept, obs, live).live ==>
                        Collectable(owner, allowed, kept, obs, k, live[k])
  {
    var a := Run(owner, kept, obs, live);
    var b := RunPhase(owner, kept, ScopedRole(allowed.clusterRoles), obs.undeletable, obs.clusterRoles, a);
    var c := RunPhase(owner, kept, ScopedBinding(allowed.clusterRoleBindings), obs.undeletable, obs.clusterRoleBindings, b);
    var d := RunPhase(owner, kept, AllocatorRole, obs.undeletable, obs.roles, c);
    RunPhaseSound(owner, kept, ScopedRole(allowed.clusterRoles), obs.undeletable, obs.clusterRoles, a);
    RunPhaseSound(owner, kept, ScopedBinding(allowed.clusterRoleBindings), obs.undeletable, obs.clusterRoleBindings, b);
    RunPhaseSound(owner, kept, AllocatorRole, obs.undeletable, obs.roles, c);
    RunPhaseSound(owner, kept, AllocatorBinding, obs.undeletable, obs.roleBindings, d);
  }

  // ---- A complete sweep deletes exactly the collectable objects ----

  predicate Lists(keys: Option<seq<Key>>, kind: Kind, live: Live) {
    keys.Some? && forall k :: k in live && k.kind == kind && live[k].partOf ==> k in keys.value
  }

  /** The RBAC lists name every labelled object of their kind. */
  predicate ListsAll(obs: SweepObs, live: Live) {
    && Lists(obs.clusterRoles, ClusterRoleKind, live)
    && Lists(obs.clusterRoleBindings, ClusterRoleBindingKind, live)
    && Lists(obs.roles, RoleKind, live)
    && Lists(obs.roleBindings, RoleBindingKind, live)
  }

  /** An RBAC phase collects labelled objects of its own kind. */
  lemma CollectsKind(owner: Owner, kept: Kept, names: set<string>, k: Key, o: Object)
    ensures Collects(owner, kept, ScopedRole(names), k, o) ==> k.kind.ClusterRoleKind? && o.partOf
    ensures Collects(owner, kept, ScopedBinding(names), k, o) ==> k.kind.ClusterRoleBindingKind? && o.partOf
    ensures Collects(owner, kept, AllocatorRole, k, o) ==> k.kind.RoleKind? && o.partOf
    ensures Collects(owner, kept, AllocatorBinding, k, o) ==> k.kind.RoleBindingKind? && o.partOf
  {
  }

  /** A sweep that reports no error deletes exactly the collectable objects. */
  lemma SweepIsExact(owner: Owner, allowed: Allowed, kept: Kept, obs: SweepObs, live: Live)
    requires CollectGarbage(owner, allowed, kept, obs, live).ok && ListsAll(obs, live)
    ensures CollectGarbage(owner, allowed, kept, obs, live).live ==
            map k | k in live && !Collectable(owner, allowed, kept, obs, k, live[k]) :: live[k]
  {
    hide Collects;
    hide RunPhase;
    SweepIsSound(owner, allowed, kept, obs, live);
    var a := Run(owner, kept, obs, live);
    var b := RunPhase(owner, kept, ScopedRole(allowed.clusterRoles), obs.undeletable, obs.clusterRoles, a);
    var c := RunPhase(owner, kept, ScopedBinding(allowed.clusterRoleBindings), obs.undeletable, obs.clusterRoleBindings, b);
    var d := RunPhase(owner, kept, AllocatorRole, obs.undeletable, obs.roles, c);
    RunPhaseSound(owner, kept, ScopedRole(allowed.clusterRoles), obs.undeletable, obs.clusterRoles, a);
    RunPhaseSound(owner, kept, ScopedBinding(allowed.clusterRoleBindings), obs.undeletable, obs.clusterRoleBindings, b);
    RunPhaseSound(owner, kept, AllocatorRole, obs.undeletable, obs.roles, c);
    RunPhaseSound(owner, kept, AllocatorBinding, obs.undeletable, obs.roleBindings, d);
    forall k | k in live
      ensures k in CollectGarbage(owner, allowed, kept, obs, live).live ==> !Collectable(owner, allowed, kept, obs, k, live[k])
    {
      CollectsKind(owner, kept, allowed.clusterRoles, k, live[k]);
      CollectsKind(owner, kept, allowed.clusterRoleBindings, k, live[k]);
    }
  }

  /** The main phase of a sweep that reports no error leaves nothing it accepts. */
  lemma MainPhaseDeletes(owner: Owner, allowed: Allowed, kept: Kept, obs: SweepObs, live: Live, k: Key)
    requires CollectGarbage(owner, allowed, kept, obs, live).ok
    requires k in live && k in obs.listed && Collects(owner, kept, Owned, k, live[k])
    ensures k !in CollectGarbage(owner, allowed, kept, obs, live).live
  {
    hide Collects;
    hide RunPhase;
    var a := Run(owner, kept, obs, live);
    var b := RunPhase(owner, kept, ScopedRole(allowed.clusterRoles), obs.undeletable, obs.clusterRoles, a);
    var c := RunPhase(owner, kept, ScopedBinding(allowed.clusterRoleBindings), obs.undeletable, obs.clusterRoleBindings, b);
    var d := RunPhase(owner, kept, AllocatorRole, obs.undeletable, obs.roles, c);
    RunPhaseSound(owner, kept, ScopedRole(allowed.clusterRoles), obs.undeletable, obs.clusterRoles, a);
    RunPhaseSound(owner, kept, ScopedBinding(allowed.clusterRoleBindings), obs.undeletable, obs.clusterRoleBindings, b);
    RunPhaseSound(owner, kept, AllocatorRole, obs.undeletable, obs.roles, c);
    RunPhaseSound(owner, kept, AllocatorBinding, obs.undeletable, obs.roleBindings, d);
  }

  // ---- The same on the fields of the object ----

  predicate InSweptNamespace(owner: Owner, k: Key) {
    k.namespace == "" || k.namespace == owner.namespace || k.namespace == "openshift-logging"
  }

  /** What a sweep may delete: objects that carry the label and the owner's UID, and are
      - listed, in scope, not desired, not of a withheld component, and no LokiStack while a
        Loki component is withheld; or
      - cluster RBAC on the allow-list, not opted out, not desired, not of a withheld component; or
      - the TargetAllocator's RBAC, not opted out and not desired. */
  predicate Sweepable(owner: Owner, allowed: Allowed, kept: Kept, listed: set<Key>, k: Key, o: Object) {
    && o.partOf && owner.uid != "" && o.controllerUid == owner.uid
    && (|| (&& k in listed && InSweptNamespace(owner, k) && k !in kept.desired && o.component !in kept.withheld
            && (k.kind == LokiStackKind ==> LokiUsageLogs !in kept.withheld && LokiLogs !in kept.withheld))
        || (&& ((k.kind == ClusterRoleKind && k.name in allowed.clusterRoles)
                || (k.kind == ClusterRoleBindingKind && k.name in allowed.clusterRoleBindings))
            && !o.optedOut && k.(namespace := "") !in kept.desired && o.component !in kept.withheld)
        || (&& (k.kind == RoleKind || k.kind == RoleBindingKind)
            && k.name == "data-science-collector-targetallocator-secrets"
            && !o.optedOut && k !in kept.desired))
  }

  lemma CollectableMeans(owner: Owner, allowed: Allowed, kept: Kept, obs: SweepObs, k: Key, o: Object)
    ensures Collectable(owner, allowed, kept, obs, k, o) <==> Sweepable(owner, allowed, kept, obs.listed, k, o)
  {
    assert AnyLokiWithheld(kept.withheld) <==> LokiUsageLogs in kept.withheld || LokiLogs in kept.withheld by {
      assert LOKI_COMPONENTS[0] == LokiUsageLogs && LOKI_COMPONENTS[1] == LokiLogs;
    }
  }

  /** Whatever fails on the way, a sweep deletes only sweepable objects; one that reports no
      error over complete lists deletes all of them. */
  lemma SweptMeans(owner: Owner, allowed: Allowed, kept: Kept, obs: SweepObs, live: Live, k: Key)
    requires k in live
    ensures var swept := CollectGarbage(owner, allowed, kept, obs, live);
            && (k !in swept.live ==> Sweepable(owner, allowed, kept, obs.listed, k, live[k]))
            && (k in swept.live ==> swept.live[k] == live[k])
            && (swept.ok && ListsAll(obs, live) ==>
                  (k !in swept.live <==> Sweepable(owner, allowed, kept, obs.listed, k, live[k])))
  {
    hide CollectGarbage;
    hide Collectable;
    hide Sweepable;
    hide ListsAll;
    SweepIsSound(owner, allowed, kept, obs, live);
    CollectableMeans(owner, allowed, kept, obs, k, live[k]);
    if CollectGarbage(owner, allowed, kept, obs, live).ok && ListsAll(obs, live) {
      SweepIsExact(owner, allowed, kept, obs, live);
    }
  }

  // ---- What a sweep never deletes ----

  /** Cluster-scoped RBAC objects carry no namespace. */
  predicate WellScoped(k: Key) {
    k.kind.ClusterRoleKind? || k.kind.ClusterRoleBindingKind? ==> k.namespace == ""
  }

  /** No sweep deletes a desired object. */
  lemma DesiredSurvives(owner: Owner, allowed: Allowed, kept: Kept, obs: SweepObs, live: Live, k: Key)
    requires k in live && k in kept.desired && WellScoped(k)
    ensures k in CollectGarbage(owner, allowed, kept, obs, live).live
  {
    SweepIsSound(owner, allowed, kept, obs, live);
    assert k.namespace == "" ==> Key(k.kind, "", k.name) == k;
  }

  /** No sweep deletes an object labelled with a withheld component, or a LokiStack while
      any Loki component is withheld; the TargetAllocator RBAC is the one exception. */
  lemma WithheldSurvives(owner: Owner, allowed: Allowed, kept: Kept, obs: SweepObs, live: Live, k: Key)
    requires k in live && !IsTargetAllocatorRBAC(k)
    requires live[k].component in kept.withheld || (k.kind.LokiStackKind? && AnyLokiWithheld(kept.withheld))
    ensures k in CollectGarbage(owner, allowed, kept, obs, live).live
  {
    SweepIsSound(owner, allowed, kept, obs, live);
  }

  /** Exactly what the shield does not cover: a sweep that reports no error deletes a
      shielded object if and only if the TargetAllocator phase accepts it. */
  lemma ShieldedDeletedExactly(owner: Owner, allowed: Allowed, kept: Kept, obs: SweepObs, live: Live, k: Key)
    requires CollectGarbage(owner, allowed, kept, obs, live).ok && ListsAll(obs, live)
    requires k in live
    requires live[k].component in kept.withheld || (k.kind.LokiStackKind? && AnyLokiWithheld(kept.withheld))
    ensures k !in CollectGarbage(owner, allowed, kept, obs, live).live <==>
            live[k].partOf && CollectsTargetAllocator(owner, kept, k, live[k])
  {
    hide CollectGarbage;
    hide ListsAll;
    SweepIsExact(owner, allowed, kept, obs, live);
  }

  /** Such an object: a labelled Role of a withheld component, owned and not desired. */
  lemma AllocatorRoleSweptExample()
    ensures var k := Key(RoleKind, "monitoring", TARGET_ALLOCATOR_RBAC_NAME);
            var o := Object(true, LokiUsageLogs, "uid", false, "");
            var obs := SweepObs({k}, None, Some([]), Some([]), Some([k]), Some([]), {});
            var kept := Kept({}, {LokiUsageLogs});
            var swept := CollectGarbage(Owner("uid", "monitoring"), Allowed({}, {}), kept, obs, map[k := o]);
            o.component in kept.withheld && swept.ok && k !in swept.live
  {
    var k := Key(RoleKind, "monitoring", TARGET_ALLOCATOR_RBAC_NAME);
    var o := Object(true, LokiUsageLogs, "uid", false, "");
    var owner, kept, live := Owner("uid", "monitoring"), Kept({}, {LokiUsageLogs}), map[k := o];
    assert !Collects(owner, kept, Owned, k, o);
    var obs := SweepObs({k}, None, Some([]), Some([]), Some([k]), Some([]), {});
    var none: set<Key> := {};
    assert (set j | j in live && j in obs.listed && Collects(owner, kept, Owned, j, live[j])) == none;
    assert live - none == live;
    assert Collects(owner, kept, AllocatorRole, k, o);
    assert [k][1..] == [];
    assert DeleteListed(owner, kept, AllocatorRole, {}, live, [k]) == Swept(live - {k}, true);
  }

  // ---- Sweeping twice ----

  lemma {:induction false} NothingLeftToDelete(owner: Owner, kept: Kept, phase: Phase, undeletable: set<Key>, live: Live, keys: seq<Key>)
    requires forall i :: 0 <= i < |keys| && keys[i] in live ==> !Collects(owner, kept, phase, keys[i], live[keys[i]])
    ensures DeleteListed(owner, kept, phase, undeletable, live, keys) == Swept(live, true)
  {
    if keys != [] {
      NothingLeftToDelete(owner, kept, phase, undeletable, live, keys[1..]);
    }
  }

  /** A phase that stopped at a failed deletion stops there again. */
  lemma {:induction false} StopsAgain(owner: Owner, kept: Kept, phase: Phase, undeletable: set<Key>, live: Live, keys: seq<Key>)
    requires !DeleteListed(owner, kept, phase, undeletable, live, keys).ok
    ensures var r := DeleteListed(owner, kept, phase, undeletable, live, keys);
            DeleteListed(owner, kept, phase, undeletable, r.live, keys) == r
  {
    var k, rest := keys[0], keys[1..];
    var r := DeleteListed(owner, kept, phase, undeletable, live, keys);
    if k !in live || !Collects(owner, kept, phase, k, live[k]) {
      DeleteListedSound(owner, kept, phase, undeletable, live, rest);
      StopsAgain(owner, kept, phase, undeletable, live, rest);
    } else if k !in undeletable {
      DeleteListedSound(owner, kept, phase, undeletable, live - {k}, rest);
      StopsAgain(owner, kept, phase, undeletable, live - {k}, rest);
    }
  }

  /** A phase repeated over what is left after it, or after later phases, finds nothing. */
  lemma PhaseSettles(owner: Owner, kept: Kept, phase: Phase, undeletable: set<Key>, keys: Option<seq<Key>>,
                     before: Swept, last: Live)
    requires var r := RunPhase(owner, kept, phase, undeletable, keys, before);
             if r.ok then Submap(last, r.live) else last == r.live
    ensures var r := RunPhase(owner, kept, phase, undeletable, keys, before);
            RunPhase(owner, kept, phase, undeletable, keys, Swept(last, before.ok)) == Swept(last, r.ok)
  {
    var r := RunPhase(owner, kept, phase, undeletable, keys, before);
    if before.ok && keys.Some? {
      RunPhaseSound(owner, kept, phase, undeletable, keys, before);
      if r.ok {
        NothingLeftToDelete(owner, kept, phase, undeletable, last, keys.value);
      } else {
        StopsAgain(owner, kept, phase, undeletable, before.live, keys.value);
      }
    }
  }

  lemma RunSettles(owner: Owner, kept: Kept, obs: SweepObs, live: Live, last: Live)
    requires Submap(last, Run(owner, kept, obs, live).live)
    ensures Run(owner, kept, obs, last) == Swept(last, Run(owner, kept, obs, live).ok)
  {
    var hits := set k | k in live && k in obs.listed && Collects(owner, kept, Owned, k, live[k]);
    var left := set k | k in last && k in obs.listed && Collects(owner, kept, Owned, k, last[k]);
    assert left <= hits;
    assert obs.stopped.None? ==> left == {};
    assert obs.stopped.Some? ==> left * obs.stopped.value == {};
    assert last - {} == last;
  }

  /** Sweeping is idempotent, whether or not the sweep failed. */
  lemma SweepIsIdempotent(owner: Owner, allowed: Allowed, kept: Kept, obs: SweepObs, live: Live)
    ensures var r := CollectGarbage(owner, allowed, kept, obs, live);
            CollectGarbage(owner, allowed, kept, obs, r.live) == r
  {
    var roles, bindings := ScopedRole(allowed.clusterRoles), ScopedBinding(allowed.clusterRoleBindings);
    var a := Run(owner, kept, obs, live);
    var b := RunPhase(owner, kept, roles, obs.undeletable, obs.clusterRoles, a);
    var c := RunPhase(owner, kept, bindings, obs.undeletable, obs.clusterRoleBindings, b);
    var d := RunPhase(owner, kept, AllocatorRole, obs.undeletable, obs.roles, c);
    var e := RunPhase(owner, kept, AllocatorBinding, obs.undeletable, obs.roleBindings, d);
    RunPhaseSound(owner, kept, roles, obs.undeletable, obs.clusterRoles, a);
    RunPhaseSound(owner, kept, bindings, obs.undeletable, obs.clusterRoleBindings, b);
    RunPhaseSound(owner, kept, AllocatorRole, obs.undeletable, obs.roles, c);
    RunPhaseSound(owner, kept, AllocatorBinding, obs.undeletable, obs.roleBindings, d);
    RunSettles(owner, kept, obs, live, e.live);
    PhaseSettles(owner, kept, roles, obs.undeletable, obs.clusterRoles, a, e.live);
    PhaseSettles(owner, kept, bindings, obs.undeletable, obs.clusterRoleBindings, b, e.live);
    PhaseSettles(owner, kept, AllocatorRole, obs.undeletable, obs.roles, c, e.live);
    PhaseSettles(owner, kept, AllocatorBinding, obs.undeletable, obs.roleBindings, d, e.live);
  }

  // ---- Deleting everything owned ----

  /** The main phase of deleteAllOwned has its own, shorter predicate. */
  predicate OwnedAndInScope(owner: Owner, k: Key, o: Object) {
    o.partOf && IsOwned(owner, o) && InScope(owner, k)
  }

  function DeleteAllOwned(owner: Owner, allowed: Allowed, obs: SweepObs, live: Live): Swept {
    var hits := set k | k in live && k in obs.listed && OwnedAndInScope(owner, k, live[k]);
    var a := match obs.stopped
      case None => Swept(live - hits, true)
      case Some(done) => Swept(live - (hits * done), false);
    var none := Kept({}, {});
    var b := RunPhase(owner, none, ScopedRole(allowed.clusterRoles), obs.undeletable, obs.clusterRoles, a);
    var c := RunPhase(owner, none, ScopedBinding(allowed.clusterRoleBindings), obs.undeletable, obs.clusterRoleBindings, b);
    var d := RunPhase(owner, none, AllocatorRole, obs.undeletable, obs.roles, c);
    RunPhase(owner, none, AllocatorBinding, obs.undeletable, obs.roleBindings, d)
  }

  /** Deleting everything owned is the sweep that keeps nothing. */
  lemma DeleteAllIsSweep(owner: Owner, allowed: Allowed, obs: SweepObs, live: Live)
    ensures DeleteAllOwned(owner, allowed, obs, live) == CollectGarbage(owner, allowed, Kept({}, {}), obs, live)
  {
    var hits := set k | k in live && k in obs.listed && OwnedAndInScope(owner, k, live[k]);
    assert hits == set k | k in live && k in obs.listed && Collects(owner, Kept({}, {}), Owned, k, live[k]);
  }
}
