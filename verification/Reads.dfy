/** Listings that are exact, complete or truthful, and what a passed check then says of the store. */
module Reads {
  import opened PrestoTypes
  import opened Naming
  import opened Api
  import opened Pipeline
  import opened NormalForm
  import opened Invariants

  predicate Lists(l: Listing, k: Key) {
    l.Listed? && exists i :: 0 <= i < |l.items| && l.items[i].key == k
  }

  /** Everything listed is still there, with the same labels (its contents may be older). */
  ghost predicate Truthful(l: Listing, s: Server) {
    l.Listed? ==>
      forall i :: 0 <= i < |l.items| ==>
        l.items[i].key in s.objs && s.objs[l.items[i].key].labels == l.items[i].obj.labels
  }

  /** Everything the query selects is listed; in particular, "not found" is not answered. */
  ghost predicate Complete(l: Listing, q: Query, s: Server) {
    && (l.ListFailed? ==> l.error.reason != NotFound)
    && (l.Listed? ==> forall k :: k in s.objs && q.Selects(k, s.objs[k]) ==> Lists(l, k))
  }

  ghost predicate Exact(l: Listing, q: Query, s: Server) {
    && l.Listed?
    && (forall i :: 0 <= i < |l.items| ==>
          && l.items[i].key in s.objs && s.objs[l.items[i].key] == l.items[i].obj
          && q.Selects(l.items[i].key, l.items[i].obj))
    && (forall k :: k in s.objs && q.Selects(k, s.objs[k]) ==> Lists(l, k))
  }

  /** Every list the stages make shows the store as it is. */
  ghost predicate FreshLists(s: Server, o: Oracle) {
    forall role: Role, q: Query :: Exact(o.list(At(role), q), q, s)
  }

  /** The object under k is the one the given stage made for cluster u. */
  ghost predicate Holds(r: Role, k: Key, s: Server, u: string) {
    k in s.objs && u in s.minted && k.ns == s.minted[u].ns && IsRole(r, k, s.objs[k], u, s.minted[u].name)
  }

  ghost predicate Present(r: Role, s: Server, u: string) {
    exists k :: Holds(r, k, s, u)
  }

  function FixedName(r: Role, u: string): Option<string>
    requires Sliceable(u)
  {
    match r
    case Headless => Some(PodDiscoveryServiceName(u))
    case External => Some(ExternalServiceName(u))
    case CoordSet => None
    case WorkerSet => None
    case Autoscaler => Some(HpaName(u))
    case _ => Some(ConfigName(r, u))
  }

  lemma ConfigNamesDiffer(u: string)
    requires Sliceable(u)
    ensures CoordinatorConfigMapName(u) != WorkerConfigMapName(u)
    ensures CoordinatorConfigMapName(u) != CatalogConfigMapName(u)
    ensures WorkerConfigMapName(u) != CatalogConfigMapName(u)
  {
    assert CoordinatorConfigMapName(u)[0] == 'c' && CoordinatorConfigMapName(u)[1] == 'o';
    assert CatalogConfigMapName(u)[0] == 'c' && CatalogConfigMapName(u)[1] == 'a';
    assert WorkerConfigMapName(u)[0] == 'w';
  }

  /** Each stage's selector finds whatever an earlier call made at that stage. */
  lemma RoleIsSelected(r: Role, k: Key, obj: Obj, u: string, pk: PKey)
    requires IsRole(r, k, obj, u, pk.name) && k.ns == pk.ns
    ensures QueryOf(r, pk, u).Selects(k, obj)
  {
  }

  /** The object a stage's selector finds under the stage's name is that stage's own. */
  lemma SelectedRole(role: Role, k: Key, s: Server, pk: PKey, u: string)
    requires Inv(s) && u in s.minted && s.minted[u] == pk
    requires k in s.objs && QueryOf(role, pk, u).Selects(k, s.objs[k])
    requires role in {CoordConfig, WorkerConfig, CatalogConfig} ==> k.name == ConfigName(role, u)
    ensures role.Headless? ==> Holds(Headless, k, s, u) || Holds(External, k, s, u)
    ensures !role.Headless? ==> Holds(role, k, s, u)
  {
    SelectedIsOurs(role, Item(k, s.objs[k]), s, pk, u);
    ConfigNamesDiffer(u);
  }

  // ---------------------------------------------------------------- checks in terms of the store

  /** A cluster has at most one object of the given role. */
  ghost predicate AtMostOne(r: Role, s: Server, u: string) {
    forall k, k' :: Holds(r, k, s, u) && Holds(r, k', s, u) ==> k == k'
  }

  /** The spec lets the stage look for its object at all. */
  predicate SpecAllows(role: Role, p: Presto, o: Oracle) {
    match role
    case External => p.spec.service.serviceType != "ExternalName"
    case CoordConfig => o.plan.coordConfig.Ok?
    case WorkerConfig => o.plan.workerConfig.Ok?
    case _ => true
  }

  predicate ScaledAs(obj: Obj, spec: PrestoSpec) {
    AutoscalingOn(spec) || spec.worker.count.None? ||
    (obj.body.ReplicaSetBody? && obj.body.replicas == spec.worker.count.value)
  }

  /** What the stage wants is in the store. */
  ghost predicate Satisfied(role: Role, s: Server, u: string, spec: PrestoSpec) {
    match role
    case Headless => Present(Headless, s, u) || Present(External, s, u)
    case WorkerSet => exists k :: Holds(WorkerSet, k, s, u) && ScaledAs(s.objs[k], spec)
    case Autoscaler =>
      if AutoscalingOn(spec)
      then exists k :: Holds(Autoscaler, k, s, u) && TunedAs(HpaSpecOf(s.objs[k]), spec.worker.autoscaling)
      else !Present(Autoscaler, s, u)
    case _ => Present(role, s, u)
  }

  ghost predicate Looks(s: Server, pk: PKey, p: Presto, o: Oracle) {
    && Inv(s) && FreshLists(s, o)
    && p.status.uuid in s.minted && s.minted[p.status.uuid] == pk
  }

  lemma ListedIsHeld(role: Role, i: nat, s: Server, pk: PKey, p: Presto, o: Oracle)
    requires Looks(s, pk, p, o)
    requires Answer(role, pk, p, o).Listed? && i < |Answer(role, pk, p, o).items|
    requires role in {CoordConfig, WorkerConfig, CatalogConfig} ==>
               Answer(role, pk, p, o).items[i].key.name == ConfigName(role, p.status.uuid)
    ensures
      var it := Answer(role, pk, p, o).items[i];
      && it.key in s.objs && s.objs[it.key] == it.obj
      && (role.Headless? ==> Holds(Headless, it.key, s, p.status.uuid) || Holds(External, it.key, s, p.status.uuid))
      && (!role.Headless? ==> Holds(role, it.key, s, p.status.uuid))
  {
    var u := p.status.uuid;
    var it := Answer(role, pk, p, o).items[i];
    assert Exact(o.list(At(role), QueryOf(role, pk, u)), QueryOf(role, pk, u), s);
    SelectedRole(role, it.key, s, pk, u);
  }

  lemma HeldIsListed(role: Role, k: Key, s: Server, pk: PKey, p: Presto, o: Oracle)
    requires Looks(s, pk, p, o) && Holds(role, k, s, p.status.uuid)
    ensures Lists(Answer(role, pk, p, o), k)
    ensures role.External? ==> Lists(Answer(Headless, pk, p, o), k)
  {
    var u := p.status.uuid;
    RoleIsSelected(role, k, s.objs[k], u, pk);
    assert Exact(o.list(At(role), QueryOf(role, pk, u)), QueryOf(role, pk, u), s);
    assert Exact(o.list(At(Headless), QueryOf(Headless, pk, u)), QueryOf(Headless, pk, u), s);
    if role.External? {
      assert QueryOf(Headless, pk, u).Selects(k, s.objs[k]);
    }
  }

  /** Something is listed exactly if the role is present; what comes first is held. */
  lemma ListedIffPresent(role: Role, s: Server, pk: PKey, p: Presto, o: Oracle)
    requires Looks(s, pk, p, o) && role in {External, CoordSet, WorkerSet, Autoscaler}
    ensures SomethingListed(Answer(role, pk, p, o)) <==> Present(role, s, p.status.uuid)
    ensures SomethingListed(Answer(role, pk, p, o)) ==>
              var it := Answer(role, pk, p, o).items[0];
              it.key in s.objs && s.objs[it.key] == it.obj && Holds(role, it.key, s, p.status.uuid)
    ensures Answer(role, pk, p, o).Listed?
  {
    var u := p.status.uuid;
    var l := Answer(role, pk, p, o);
    assert Exact(o.list(At(role), QueryOf(role, pk, u)), QueryOf(role, pk, u), s);
    if SomethingListed(l) {
      ListedIsHeld(role, 0, s, pk, p, o);
    }
    if Present(role, s, u) {
      var k :| Holds(role, k, s, u);
      HeldIsListed(role, k, s, pk, p, o);
    }
  }

  lemma HeadlessListedIff(s: Server, pk: PKey, p: Presto, o: Oracle)
    requires Looks(s, pk, p, o) && Sliceable(p.status.uuid)
    ensures Passes(Headless, pk, p, o) <==> Satisfied(Headless, s, p.status.uuid, p.spec)
  {
    var u := p.status.uuid;
    var l := Answer(Headless, pk, p, o);
    assert Exact(o.list(At(Headless), QueryOf(Headless, pk, u)), QueryOf(Headless, pk, u), s);
    if SomethingListed(l) {
      ListedIsHeld(Headless, 0, s, pk, p, o);
    }
    if r: Role :| r in {Headless, External} && Present(r, s, u) {
      var k :| Holds(r, k, s, u);
      HeldIsListed(r, k, s, pk, p, o);
    }
  }

  lemma ConfigListedIff(role: Role, s: Server, pk: PKey, p: Presto, o: Oracle)
    requires Looks(s, pk, p, o) && Sliceable(p.status.uuid) && role in {CoordConfig, WorkerConfig, CatalogConfig}
    ensures Passes(role, pk, p, o) <==> SpecAllows(role, p, o) && Satisfied(role, s, p.status.uuid, p.spec)
  {
    var u := p.status.uuid;
    var l := Answer(role, pk, p, o);
    assert Exact(o.list(At(role), QueryOf(role, pk, u)), QueryOf(role, pk, u), s);
    if HasName(l.items, ConfigName(role, u)) {
      var i :| 0 <= i < |l.items| && l.items[i].key.name == ConfigName(role, u);
      ListedIsHeld(role, i, s, pk, p, o);
    }
    if Present(role, s, u) {
      var k :| Holds(role, k, s, u);
      HeldIsListed(role, k, s, pk, p, o);
    }
  }

  /** With fresh listings, a stage whose check passes has what it wants in the store. */
  lemma PassedIsSatisfied(role: Role, s: Server, pk: PKey, p: Presto, o: Oracle)
    requires Looks(s, pk, p, o) && Sliceable(p.status.uuid) && Passes(role, pk, p, o)
    ensures SpecAllows(role, p, o) && Satisfied(role, s, p.status.uuid, p.spec)
  {
    hide Inv, Answer;
    match role {
      case Headless => HeadlessListedIff(s, pk, p, o);
      case CoordConfig => ConfigListedIff(role, s, pk, p, o);
      case WorkerConfig => ConfigListedIff(role, s, pk, p, o);
      case CatalogConfig => ConfigListedIff(role, s, pk, p, o);
      case _ => ListedIffPresent(role, s, pk, p, o);
    }
  }

  /** With fresh listings, a stage's check passes exactly if the spec allows it and the store satisfies it. */
  lemma PassesIff(role: Role, s: Server, pk: PKey, p: Presto, o: Oracle)
    requires Looks(s, pk, p, o) && Sliceable(p.status.uuid)
    requires AtMostOne(WorkerSet, s, p.status.uuid) && AtMostOne(Autoscaler, s, p.status.uuid)
    ensures Passes(role, pk, p, o) <==> SpecAllows(role, p, o) && Satisfied(role, s, p.status.uuid, p.spec)
  {
    hide Inv, Answer;
    match role {
      case Headless => HeadlessListedIff(s, pk, p, o);
      case CoordConfig => ConfigListedIff(role, s, pk, p, o);
      case WorkerConfig => ConfigListedIff(role, s, pk, p, o);
      case CatalogConfig => ConfigListedIff(role, s, pk, p, o);
      case _ => ListedIffPresent(role, s, pk, p, o);
    }
  }
}
