/** What every reachable store looks like to somebody who sees only labels, names and selectors. */
module Labelled {
  import opened Naming
  import opened Api
  import opened Pipeline
  import opened Invariants
  import opened Reads
  import opened Runs

  /** The object under k bears the UUID of some cluster. */
  predicate Ours(k: Key, s: Server) {
    k in s.objs && !Foreign(s.objs[k], s.minted)
  }

  lemma HasRole(s: Server, k: Key) returns (r: Role)
    requires Inv(s) && Ours(k, s)
    ensures Holds(r, k, s, UuidOf(s.objs[k]))
  {
    var u := UuidOf(s.objs[k]);
    assert Known(k, s.objs[k], s.minted);
    r :| IsRole(r, k, s.objs[k], u, s.minted[u].name);
  }

  predicate IsExternal(obj: Obj) {
    EXTERNAL_KEY in obj.labels
  }

  /**
   In every run, stale lists and failing calls included, a cluster UUID is on at most one headless
   and one external service, on one autoscaler, and on config maps of the three fixed names only.
   */
  lemma UniqueInEveryRun(steps: seq<Step>, k: Key, k': Key)
    requires Obeys(INIT, steps, (t, step) => Allowed(t, step))
    requires Ours(k, After(INIT, steps)) && Ours(k', After(INIT, steps))
    requires
      var obj, obj' := After(INIT, steps).objs[k], After(INIT, steps).objs[k'];
      && UuidOf(obj) == UuidOf(obj') && k.kind == k'.kind != ReplicaSet
      && (k.kind == Service ==> (IsExternal(obj) <==> IsExternal(obj')))
    ensures Sliceable(UuidOf(After(INIT, steps).objs[k]))
    ensures k.kind == ConfigMap ==>
      exists r: Role ::
        r in {CoordConfig, WorkerConfig, CatalogConfig} && k.name == ConfigName(r, UuidOf(After(INIT, steps).objs[k]))
    ensures k.kind != ConfigMap || k.name == k'.name ==> k == k'
  {
    hide Allowed, Take;
    ReachableInv(steps);
    var s := After(INIT, steps);
    SameRoleSameKey(s, k, k');
  }

  lemma SameRoleSameKey(s: Server, k: Key, k': Key)
    requires Inv(s) && Ours(k, s) && Ours(k', s)
    requires
      var obj, obj' := s.objs[k], s.objs[k'];
      && UuidOf(obj) == UuidOf(obj') && k.kind == k'.kind != ReplicaSet
      && (k.kind == Service ==> (IsExternal(obj) <==> IsExternal(obj')))
    ensures Sliceable(UuidOf(s.objs[k]))
    ensures k.kind == ConfigMap ==>
      exists r: Role :: r in {CoordConfig, WorkerConfig, CatalogConfig} && k.name == ConfigName(r, UuidOf(s.objs[k]))
    ensures k.kind != ConfigMap || k.name == k'.name ==> k == k'
  {
    hide Inv;
    var r := HasRole(s, k);
    var r' := HasRole(s, k');
  }

  /**
   In every run, a service of the operator selects a ReplicaSet's pods exactly if both are of the
   same cluster and, for the external service, the pods are coordinators.
   */
  lemma RoutesInEveryRun(steps: seq<Step>, svc: Key, pods: Key)
    requires Obeys(INIT, steps, (t, step) => Allowed(t, step))
    requires svc.kind == Service && Ours(svc, After(INIT, steps))
    requires pods.kind == ReplicaSet && Ours(pods, After(INIT, steps))
    ensures
      var service, set' := After(INIT, steps).objs[svc], After(INIT, steps).objs[pods];
      && service.body.ServiceBody? && set'.body.ReplicaSetBody?
      && (Matches(service.body.selector, set'.body.template.labels)
          <==> UuidOf(service) == UuidOf(set') && (IsExternal(service) ==> COORDINATOR_KEY in set'.labels))
  {
    hide Allowed, Take;
    ReachableInv(steps);
    Routes(After(INIT, steps), svc, pods);
  }

  lemma Routes(s: Server, svc: Key, pods: Key)
    requires Inv(s)
    requires svc.kind == Service && Ours(svc, s) && pods.kind == ReplicaSet && Ours(pods, s)
    ensures
      var service, set' := s.objs[svc], s.objs[pods];
      && service.body.ServiceBody? && set'.body.ReplicaSetBody?
      && (Matches(service.body.selector, set'.body.template.labels)
          <==> UuidOf(service) == UuidOf(set') && (IsExternal(service) ==> COORDINATOR_KEY in set'.labels))
  {
    hide Inv;
    var r := HasRole(s, svc);
    var r' := HasRole(s, pods);
    var u, v := UuidOf(s.objs[svc]), UuidOf(s.objs[pods]);
    var selector, labels := s.objs[svc].body.selector, s.objs[pods].body.template.labels;
    assert r == Headless ==> selector[UUID_KEY] == u && labels[UUID_KEY] == v;
    assert r == External ==> COORDINATOR_KEY in selector && selector[COORDINATOR_KEY] == u;
    assert r' == CoordSet ==> labels[COORDINATOR_KEY] == v;
    assert r' == WorkerSet ==> COORDINATOR_KEY !in labels;
  }
}
