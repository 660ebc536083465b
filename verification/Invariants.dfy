/**
 What every object the operator ever made looks like, what the API may answer, and what one
 Reconcile can do to the store.
 */
module Invariants {
  import opened PrestoTypes
  import opened Naming
  import opened Api
  import opened Pipeline
  import opened NormalForm

  // ---------------------------------------------------------------- shapes

  /** obj, stored under k, is what the given stage makes for cluster u of resource `name`, its owner. */
  predicate IsRole(r: Role, k: Key, obj: Obj, u: string, name: string) {
    Sliceable(u) && obj.owner.name == name &&
    match r
    case Headless =>
      && k.kind == Service && k.name == PodDiscoveryServiceName(u)
      && obj.labels == DiscoveryLabels(u, name)
      && obj.body.ServiceBody? && obj.body.selector == DiscoveryLabels(u, name)
    case External =>
      && k.kind == Service && k.name == ExternalServiceName(u)
      && obj.labels == ClusterLabels(u, name)
      && obj.body.ServiceBody? && obj.body.selector == map[COORDINATOR_KEY := u] && obj.body.ports != []
    case CoordSet =>
      && k.kind == ReplicaSet && obj.labels == CoordinatorLabels(u, name)
      && obj.body.ReplicaSetBody?
      && obj.body.matchLabels == obj.labels && obj.body.template.labels == obj.labels
    case WorkerSet =>
      && k.kind == ReplicaSet && obj.labels == WorkerLabels(u, name)
      && obj.body.ReplicaSetBody?
      && obj.body.matchLabels == obj.labels && obj.body.template.labels == obj.labels
    case Autoscaler =>
      && k.kind == Hpa && k.name == HpaName(u)
      && obj.labels == ClusterLabels(u, name) && obj.body.HpaBody?
    case _ =>
      && k.kind == ConfigMap && k.name == ConfigName(r, u)
      && obj.labels == ClusterLabels(u, name) && obj.body.ConfigMapBody?
  }

  /** An object that is none of the operator's business: no label of it names a cluster. */
  predicate Foreign(obj: Obj, minted: map<string, PKey>) {
    forall k :: k in UUID_KEYS && k in obj.labels ==> obj.labels[k] !in minted
  }

  function UuidOf(obj: Obj): string {
    if UUID_KEY in obj.labels then obj.labels[UUID_KEY] else ""
  }

  /** Every stored object is foreign, or made by some stage for the resource its UUID was given to. */
  ghost predicate Known(k: Key, obj: Obj, minted: map<string, PKey>) {
    || Foreign(obj, minted)
    || (UuidOf(obj) in minted && minted[UuidOf(obj)].ns == k.ns &&
        exists r: Role :: IsRole(r, k, obj, UuidOf(obj), minted[UuidOf(obj)].name))
  }

  ghost predicate GoodUuid(u: string, pk: PKey, minted: map<string, PKey>) {
    u == "" || (u in minted && minted[u] == pk)
  }

  /** An item of the past has the shape its labels promise, and its version identifies its contents. */
  ghost predicate ItemFits(it: Item, s: Server) {
    && Known(it.key, it.obj, s.minted)
    && it.obj.rv < s.clock
    && (it.key in s.objs && s.objs[it.key].rv == it.obj.rv ==> s.objs[it.key] == it.obj)
  }

  ghost predicate PrestoFits(p: Presto, pk: PKey, s: Server) {
    && p.rv < s.clock
    && GoodUuid(p.status.uuid, pk, s.minted)
    && (pk in s.prestos && s.prestos[pk].rv == p.rv ==> s.prestos[pk] == p)
  }

  /** The history holds what the server holds, and all of it fits. */
  ghost predicate Remembers(s: Server) {
    && (forall k :: k in s.objs ==> Item(k, s.objs[k]) in s.held)
    && (forall it :: it in s.held ==> ItemFits(it, s))
    && (forall pk :: pk in s.prestos ==> Version(pk, s.prestos[pk]) in s.versions)
    && (forall w :: w in s.versions ==> PrestoFits(w.presto, w.pk, s))
  }

  ghost predicate InShape(s: Server) {
    && (forall k :: k in s.objs ==> Known(k, s.objs[k], s.minted) && s.objs[k].rv < s.clock)
    && (forall pk :: pk in s.prestos ==>
          s.prestos[pk].rv < s.clock && GoodUuid(s.prestos[pk].status.uuid, pk, s.minted))
    && (forall u :: u in s.minted ==> Sliceable(u))
  }

  ghost predicate Inv(s: Server) {
    InShape(s) && Remembers(s)
  }

  // ---------------------------------------------------------------- what the API may answer

  ghost predicate HonestListing(l: Listing, q: Query, s: Server) {
    l.Listed? ==> forall i :: 0 <= i < |l.items| ==> q.Selects(l.items[i].key, l.items[i].obj) && l.items[i] in s.held
  }

  /** The listing after a create may show the new object too, so only its shape is known. */
  ghost predicate ShapedListing(l: Listing, q: Query, s: Server) {
    l.Listed? ==>
      forall i :: 0 <= i < |l.items| ==>
        q.Selects(l.items[i].key, l.items[i].obj) && Known(l.items[i].key, l.items[i].obj, s.minted)
  }

  ghost predicate HonestIo(io: StatusIo, pk: PKey, s: Server) {
    forall l: Labels :: io.read(l).Snapshot? ==>
      forall i :: 0 <= i < |io.read(l).items| ==>
        Version(PKey(pk.ns, io.read(l).items[i].name), io.read(l).items[i].presto) in s.versions
  }

  /** No label that may name a cluster names u. */
  predicate Unlabelled(obj: Obj, u: string) {
    forall k :: k in UUID_KEYS && k in obj.labels ==> obj.labels[k] != u
  }

  /** The call has a UUID to give. */
  predicate DrawsUuid(o: Oracle) {
    o.get.Found? && o.get.presto.status.uuid == ""
  }

  /** A random UUID: given to no resource before, and on no label. */
  ghost predicate Unused(u: string, s: Server) {
    Sliceable(u) && u !in s.minted && forall it :: it in s.held ==> Unlabelled(it.obj, u)
  }

  /**
   Reads may be as stale and as incomplete as they like, and any call may fail; but they show only
   what the server once held, a UUID that is needed is not drawn twice, and a service is built with
   a port.
   */
  ghost predicate Honest(s: Server, pk: PKey, o: Oracle) {
    && (forall site: Site, q: Query :: site != Relist ==> HonestListing(o.list(site, q), q, s))
    && (forall q: Query :: ShapedListing(o.list(Relist, q), q, s))
    && (forall site: Site :: HonestIo(o.status(site), pk, s))
    && (o.get.Found? ==> Version(pk, o.get.presto) in s.versions)
    && (DrawsUuid(o) ==> Unused(o.freshUuid, s))
    && o.plan.ports != []
  }

  /** What is read of the resource inside updateStatus fits. */
  ghost predicate IoFits(io: StatusIo, pk: PKey, s: Server) {
    forall l: Labels :: io.read(l).Snapshot? ==>
      forall i :: 0 <= i < |io.read(l).items| ==>
        PrestoFits(io.read(l).items[i].presto, PKey(pk.ns, io.read(l).items[i].name), s)
  }

  lemma ReadsFit(s: Server, pk: PKey, o: Oracle, site: Site)
    requires Inv(s) && Honest(s, pk, o)
    ensures IoFits(o.status(site), pk, s)
    ensures o.get.Found? ==> PrestoFits(o.get.presto, pk, s)
  {
    hide InShape, PrestoFits, HonestListing, ShapedListing, Unused;
    assert HonestIo(o.status(site), pk, s);
  }

  // ---------------------------------------------------------------- what a label pair tells

  lemma SelectedIsOurs(role: Role, it: Item, s: Server, pk: PKey, u: string)
    requires u in s.minted && s.minted[u] == pk && Sliceable(u)
    requires Known(it.key, it.obj, s.minted)
    requires QueryOf(role, pk, u).Selects(it.key, it.obj)
    ensures UuidOf(it.obj) == u && it.key.ns == pk.ns
    ensures role.Headless? ==>
              IsRole(Headless, it.key, it.obj, u, pk.name) || IsRole(External, it.key, it.obj, u, pk.name)
    ensures role in {External, CoordSet, WorkerSet, Autoscaler} ==> IsRole(role, it.key, it.obj, u, pk.name)
    ensures role in {CoordConfig, WorkerConfig, CatalogConfig} ==>
              exists r: Role :: r in {CoordConfig, WorkerConfig, CatalogConfig} && IsRole(r, it.key, it.obj, u, pk.name)
  {
    hide IsRole, Matches, Foreign;
    SelectedIsLabelled(role, it, pk, u, s.minted);
    var v := UuidOf(it.obj);
    var r: Role :| IsRole(r, it.key, it.obj, v, s.minted[v].name);
    SelectedFits(r, role, it, pk, u, v, s.minted[v].name);
  }

  lemma SelectedIsLabelled(role: Role, it: Item, pk: PKey, u: string, minted: map<string, PKey>)
    requires QueryOf(role, pk, u).Selects(it.key, it.obj)
    ensures u in minted ==> !Foreign(it.obj, minted)
  {
    var selector, labels := QueryOf(role, pk, u).selector, it.obj.labels;
    if role.Headless? { assert DISCOVERY_KEY in selector && labels[DISCOVERY_KEY] == u; }
    else if role.External? { assert EXTERNAL_KEY in selector && labels[EXTERNAL_KEY] == u; }
    else if role.CoordSet? { assert COORDINATOR_KEY in selector && labels[COORDINATOR_KEY] == u; }
    else if role.WorkerSet? { assert WORKER_KEY in selector && labels[WORKER_KEY] == u; }
    else { assert UUID_KEY in selector && labels[UUID_KEY] == u; }
  }

  /** An object of some role answers only the search its own labels and kind fit. */
  lemma SelectedFits(r: Role, role: Role, it: Item, pk: PKey, u: string, v: string, n: string)
    requires IsRole(r, it.key, it.obj, v, n) && QueryOf(role, pk, u).Selects(it.key, it.obj)
    ensures v == u
    ensures role.Headless? ==> r in {Headless, External}
    ensures role in {External, CoordSet, WorkerSet, Autoscaler} ==> r == role
    ensures role in {CoordConfig, WorkerConfig, CatalogConfig} ==> r in {CoordConfig, WorkerConfig, CatalogConfig}
  {
    var selector, labels := QueryOf(role, pk, u).selector, it.obj.labels;
    if role.Headless? { assert DISCOVERY_KEY in selector && labels[DISCOVERY_KEY] == u; }
    else if role.External? { assert EXTERNAL_KEY in selector && labels[EXTERNAL_KEY] == u; }
    else if role.CoordSet? { assert COORDINATOR_KEY in selector && labels[COORDINATOR_KEY] == u; }
    else if role.WorkerSet? { assert WORKER_KEY in selector && labels[WORKER_KEY] == u; }
    else { assert UUID_KEY in selector && labels[UUID_KEY] == u; }
  }

  // ---------------------------------------------------------------- what one call does

  /** The one change a Reconcile can make to the stored objects. */
  datatype Change =
    | Nothing
    | Made(role: Role, key: Key, obj: Obj)
    | Rescaled(key: Key, obj: Obj)
    | Retuned(key: Key, obj: Obj)
    | Removed(key: Key)

  predicate NothingFound(r: Role, pk: PKey, p: Presto, o: Oracle)
    requires Sliceable(p.status.uuid)
  {
    var l := Answer(r, pk, p, o);
    match r
    case Headless => l == Listed([])
    case External => l == Listed([])
    case CoordSet => FirstItem(l) == Ok(None)
    case WorkerSet => FirstItem(l) == Ok(None)
    case Autoscaler => FirstItem(l) == Ok(None)
    case _ => l.Listed? && !HasName(l.items, ConfigName(r, p.status.uuid))
  }

  predicate TunedAs(h: HpaSpec, a: AutoscalingSpec) {
    && a.minReplicas.Some? && a.minReplicas == h.minReplicas
    && a.maxReplicas == Some(h.maxReplicas)
    && a.targetCpu.Some? && a.targetCpu == h.targetCpu
  }

  /** Comparing the two, left to right, comes to a number that one side lacks before one that differs. */
  predicate LacksNumber(h: HpaSpec, a: AutoscalingSpec) {
    a.maxReplicas.None? ||
    (h.maxReplicas == a.maxReplicas.value &&
      (|| a.minReplicas.None? || h.minReplicas.None?
       || (h.minReplicas == a.minReplicas && (a.targetCpu.None? || h.targetCpu.None?))))
  }

  /** The autoscaler scales the first worker ReplicaSet the call has listed. */
  predicate TargetsListed(h: HpaSpec, pk: PKey, p: Presto, o: Oracle) {
    var found := FirstFound(WorkerSet, pk, p, o);
    found.Ok? && found.value.Some? && h.target == found.value.value.key.name
  }

  /** The payload of a new object comes from the spec, and its owner is the resource that was read. */
  predicate BuiltFor(r: Role, obj: Obj, pk: PKey, p: Presto, o: Oracle) {
    obj.owner.uid == p.uid &&
    match r
    case Headless =>
      && obj.body.ServiceBody? && obj.body.clusterIp == "None" && obj.body.serviceType == "" && obj.body.ports == []
    case External =>
      && obj.body.ServiceBody? && obj.body.ports == o.plan.ports
      && obj.body.clusterIp == p.spec.service.clusterIp && obj.body.serviceType == p.spec.service.serviceType
    case CoordSet =>
      && obj.body.ReplicaSetBody? && obj.body.replicas == 1 && o.plan.coordPod == Ok(obj.body.template.pod)
    case WorkerSet =>
      && obj.body.ReplicaSetBody?
      && p.spec.worker.count == Some(obj.body.replicas) && o.plan.workerPod == Ok(obj.body.template.pod)
    case Autoscaler =>
      && AutoscalingOn(p.spec) && TunedAs(HpaSpecOf(obj), p.spec.worker.autoscaling)
      && TargetsListed(HpaSpecOf(obj), pk, p, o)
    case _ => obj.body.ConfigMapBody? && ConfigData(r, o.plan) == Ok(obj.body.data)
  }

  function HpaKey(pk: PKey, u: string): Key
    requires Sliceable(u)
  {
    Key(Hpa, pk.ns, HpaName(u))
  }

  /** The key of a ReplicaSet: its role's prefix and the suffix the API generated. */
  function SetKey(r: Role, pk: PKey, u: string, suffix: string): Key
    requires Sliceable(u)
  {
    Key(ReplicaSet, pk.ns, (if r.CoordSet? then CoordinatorReplicaSetName(u) else WorkerReplicaSetName(u)) + suffix)
  }

  /** A write a stage decides on is the one its spec, UUID and empty-handed search call for. */
  ghost predicate Justified(role: Role, op: Op, s: Server, pk: PKey, p: Presto, o: Oracle)
    requires Sliceable(p.status.uuid)
  {
    var u := p.status.uuid;
    match op
    case CreateOp(k, obj) =>
      && k.ns == pk.ns && IsRole(role, k, obj, u, pk.name)
      && BuiltFor(role, obj, pk, p, o) && NothingFound(role, pk, p, o)
      && (role.CoordSet? ==> k == SetKey(CoordSet, pk, u, o.coordSuffix))
      && (role.WorkerSet? ==> k == SetKey(WorkerSet, pk, u, o.workerSuffix))
    case UpdateOp(k, obj) =>
      var latest := k in s.objs && s.objs[k].rv == obj.rv;
      && k.ns == pk.ns
      && (role.WorkerSet? || role.Autoscaler?)
      && (role.WorkerSet? ==>
            && !AutoscalingOn(p.spec) && p.spec.worker.count.Some?
            && (latest ==>
                  && IsRole(WorkerSet, k, s.objs[k], u, pk.name)
                  && p.spec.worker.count.value != s.objs[k].body.replicas
                  && obj == WithReplicas(s.objs[k], p.spec.worker.count.value)))
      && (role.Autoscaler? ==>
            && AutoscalingOn(p.spec) && k == HpaKey(pk, u)
            && IsRole(Autoscaler, k, obj, u, pk.name) && BuiltFor(Autoscaler, obj, pk, p, o)
            && (latest ==> IsRole(Autoscaler, k, s.objs[k], u, pk.name)))
    case DeleteOp(k) =>
      role.Autoscaler? && !AutoscalingOn(p.spec) && k == HpaKey(pk, u)
  }

  ghost predicate Applies(s: Server, pk: PKey, p: Presto, o: Oracle) {
    && Inv(s) && Honest(s, pk, o) && o.get == Found(p)
    && p.status.uuid != ""
  }

  lemma FirstFoundIsOurs(role: Role, s: Server, pk: PKey, p: Presto, o: Oracle)
    requires Applies(s, pk, p, o) && Sliceable(p.status.uuid)
    requires role in {External, CoordSet, WorkerSet, Autoscaler}
    requires Answer(role, pk, p, o).Listed? && Answer(role, pk, p, o).items != []
    ensures
      var it := Answer(role, pk, p, o).items[0];
      IsRole(role, it.key, it.obj, p.status.uuid, pk.name) && it.key.ns == pk.ns && ItemFits(it, s)
  {
    var u := p.status.uuid;
    var it := Answer(role, pk, p, o).items[0];
    assert HonestListing(Answer(role, pk, p, o), QueryOf(role, pk, u), s);
    SelectedIsOurs(role, it, s, pk, u);
  }

  /** The first object a stage that may update finds, if any, is the cluster's own. */
  ghost predicate FindsOwn(role: Role, s: Server, pk: PKey, p: Presto, o: Oracle)
    requires Sliceable(p.status.uuid)
  {
    var l := Answer(role, pk, p, o);
    l.Listed? && l.items != [] ==>
      var it := l.items[0];
      && IsRole(role, it.key, it.obj, p.status.uuid, pk.name) && it.key.ns == pk.ns
      && (it.key in s.objs && s.objs[it.key].rv == it.obj.rv ==> s.objs[it.key] == it.obj)
  }

  lemma WriteJustified(role: Role, s: Server, pk: PKey, p: Presto, o: Oracle)
    requires Sliceable(p.status.uuid) && o.plan.ports != []
    requires role in {WorkerSet, Autoscaler} ==> FindsOwn(role, s, pk, p, o)
    ensures
      var d := Decide(role, pk, p, o, CtxAt(Index(role), pk, p, o));
      d.Write? ==> Justified(role, d.op, s, pk, p, o)
  {
    hide Decide, Justified;
    match role {
      case Headless => ServiceWriteJustified(Headless, s, pk, p, o);
      case External => ServiceWriteJustified(External, s, pk, p, o);
      case CoordSet => SetWriteJustified(CoordSet, s, pk, p, o);
      case WorkerSet => SetWriteJustified(WorkerSet, s, pk, p, o);
      case Autoscaler => AutoscalerWriteJustified(s, pk, p, o);
      case _ => ConfigWriteJustified(role, s, pk, p, o);
    }
  }

  lemma ServiceWriteJustified(role: Role, s: Server, pk: PKey, p: Presto, o: Oracle)
    requires Sliceable(p.status.uuid) && o.plan.ports != [] && role in {Headless, External}
    ensures
      var d := Decide(role, pk, p, o, CtxAt(Index(role), pk, p, o));
      d.Write? ==> Justified(role, d.op, s, pk, p, o)
  {
  }

  lemma ConfigWriteJustified(role: Role, s: Server, pk: PKey, p: Presto, o: Oracle)
    requires Sliceable(p.status.uuid) && role in {CoordConfig, WorkerConfig, CatalogConfig}
    ensures
      var d := Decide(role, pk, p, o, CtxAt(Index(role), pk, p, o));
      d.Write? ==> Justified(role, d.op, s, pk, p, o)
  {
  }

  lemma SetWriteJustified(role: Role, s: Server, pk: PKey, p: Presto, o: Oracle)
    requires Sliceable(p.status.uuid) && role in {CoordSet, WorkerSet}
    requires role == WorkerSet ==> FindsOwn(WorkerSet, s, pk, p, o)
    ensures
      var d := Decide(role, pk, p, o, CtxAt(Index(role), pk, p, o));
      d.Write? ==> Justified(role, d.op, s, pk, p, o)
  {
  }

  lemma AutoscalerWriteJustified(s: Server, pk: PKey, p: Presto, o: Oracle)
    requires Sliceable(p.status.uuid) && FindsOwn(Autoscaler, s, pk, p, o)
    ensures
      var d := Decide(Autoscaler, pk, p, o, CtxAt(Index(Autoscaler), pk, p, o));
      d.Write? ==> Justified(Autoscaler, d.op, s, pk, p, o)
  {
  }

  lemma DecisionJustified(role: Role, s: Server, pk: PKey, p: Presto, o: Oracle)
    requires Applies(s, pk, p, o)
    ensures Sliceable(p.status.uuid) && p.status.uuid in s.minted && s.minted[p.status.uuid] == pk
    ensures
      var d := Decide(role, pk, p, o, CtxAt(Index(role), pk, p, o));
      d.Write? ==> Justified(role, d.op, s, pk, p, o)
  {
    assert p.status.uuid in s.minted;
    var l := Answer(role, pk, p, o);
    if role in {WorkerSet, Autoscaler} && l.Listed? && l.items != [] {
      FirstFoundIsOurs(role, s, pk, p, o);
    }
    WriteJustified(role, s, pk, p, o);
  }
}
