/**
 One call of Reconcile as a function of the server's state and of an Oracle: the answers
 the API gives to each read and write, and the values that are not the operator's to choose
 (the random UUID, the generated name suffixes, the metrics).
 */
module Pipeline {
  import opened PrestoTypes
  import opened Naming
  import opened Api
  import Text

  // ---------------------------------------------------------------- oracle

  /** Where in Reconcile a call is made. */
  datatype Site = AtUuid | At(role: Role) | Relist | AtEnd

  datatype Listing = Listed(items: seq<Item>) | ListFailed(error: Error)

  datatype PodListing = PodsListed(pods: seq<Pod>) | PodsFailed(error: Error)

  datatype GetResult = Found(presto: Presto) | GetFailed(error: Error)

  datatype NamedPresto = NamedPresto(name: string, presto: Presto)

  /** How updateStatus's own listing of Presto resources is answered. */
  datatype PrestoRead = Live | Snapshot(items: seq<NamedPresto>) | ReadFailed(error: Error)

  /** What the configuration compiler makes of a spec for this UUID; see module Compiler. */
  datatype Plan = Plan(
    ports: seq<ServicePort>,
    coordConfig: Result<map<string, string>, Error>,
    workerConfig: Result<map<string, string>, Error>,
    catalogConfig: map<string, string>,
    coordPod: Result<PodSpec, Error>,
    workerPod: Result<PodSpec, Error>)

  /** How the two calls inside updateStatus are answered. */
  datatype StatusIo = StatusIo(read: Labels -> PrestoRead, write: WriteMode)

  datatype Oracle = Oracle(
    get: GetResult,
    list: (Site, Query) -> Listing,
    pods: (string, Labels) -> PodListing,
    write: Site -> WriteMode,
    status: Site -> StatusIo,
    freshUuid: string,
    coordSuffix: string,
    workerSuffix: string,
    plan: Plan,
    coordinatorCpu: int,
    workerCpu: int)

  // ---------------------------------------------------------------- status

  function Or<T>(o: Option<T>, otherwise: T): T {
    if o.Some? then o.value else otherwise
  }

  function Address(r: ServiceRef): string
    requires r.ports != []
  {
    var port := r.ports[0];
    r.clusterIp + ":" + Text.Decimal(port.port) + "/" + Text.Decimal(Or(port.nodePort, 0))
  }

  /** The field-by-field merge of updateStatus. */
  function Merge(st: Status, a: Action): Status
    requires a.service.Some? ==> a.service.value.ports != []
  {
    Status(
      Or(a.clusterUuid, st.uuid),
      if a.workerSet.Some? then a.workerSet.value.replicas else st.desiredWorkers,
      if a.workerSet.Some? then a.workerSet.value.available else st.currentWorkers,
      Or(a.headlessService, st.headlessService),
      if a.service.Some? then a.service.value.name else st.service,
      if a.service.Some? then Address(a.service.value) else st.coordinatorAddress,
      Or(a.catalogConfig, st.catalogConfig),
      Or(a.coordinatorConfig, st.coordinatorConfig),
      Or(a.workerConfig, st.workerConfig),
      if a.workerSet.Some? then a.workerSet.value.name else st.workerReplicaset,
      Or(a.coordinatorSet, st.coordinatorReplicaset),
      Or(a.hpaName, st.hpaName),
      if a.clusterState.Some? then a.clusterState else st.clusterState,
      Or(a.errorReason, st.errorReason),
      Or(a.coordinatorCpu, st.coordinatorCpu),
      Or(a.workerCpu, st.workerCpu))
  }

  function FindByName(items: seq<NamedPresto>, name: string): Option<Presto> {
    if items == [] then None
    else if items[0].name == name then Some(items[0].presto)
    else FindByName(items[1..], name)
  }

  /** getPresto: list by the labels of the copy in hand, then pick by name. */
  function GetPresto(s: Server, pk: PKey, inHand: Presto, read: PrestoRead): Result<Option<Presto>, Error> {
    match read
    case ReadFailed(e) => Err(e)
    case Snapshot(items) => Ok(FindByName(items, pk.name))
    case Live =>
      if pk in s.prestos && Matches(inHand.labels, s.prestos[pk].labels) then Ok(Some(s.prestos[pk])) else Ok(None)
  }

  /** `held` is the caller's own copy afterwards: it is the one edited when the listing does not show the resource. */
  datatype StatusOut = StatusOut(s: Server, updated: bool, error: Option<Error>, panicked: bool, held: Presto)

  /** The same resource but for its status and version, and of the same cluster. */
  predicate Alike(p: Presto, h: Presto) {
    h == p.(status := h.status, rv := h.rv) && h.status.uuid == p.status.uuid
  }

  function UpdateStatus(s: Server, pk: PKey, presto: Presto, io: StatusIo, a: Action): (r: StatusOut)
    ensures r.s.objs == s.objs && r.s.held == s.held && r.s.pods == s.pods
    ensures r.s.prestos.Keys == s.prestos.Keys && r.s.clock >= s.clock
    ensures a.service.None? ==> !r.panicked
    ensures a.clusterUuid.None? ==> r.s.minted == s.minted
    ensures r.s.log == s.log || r.s.log == s.log + [StatusWritten(pk, a)]
    ensures a.clusterUuid.None? ==> Alike(presto, r.held)
  {
    match GetPresto(s, pk, presto, io.read(presto.labels))
    case Err(e) => StatusOut(s, false, Some(e), false, presto)
    case Ok(found) =>
      var copy := Or(found, presto);
      if a.service.Some? && a.service.value.ports == [] then StatusOut(s, false, None, true, presto)
      else if a == Action() then StatusOut(s, false, None, false, presto)
      else
        var edited := copy.(status := Merge(copy.status, a));
        var w := WriteStatus(s, pk, edited, a, io.write);
        StatusOut(w.s, w.error.None?, w.error, false,
                  if found.Some? then presto else if w.error.None? then edited.(rv := s.clock) else edited)
  }

  // ---------------------------------------------------------------- stages

  /** What later stages see of earlier ones: the shared label map and the worker ReplicaSet. */
  datatype Ctx = Ctx(labels: Labels, workerSet: Option<SetRef>)

  datatype Op =
    | CreateOp(key: Key, obj: Obj)
    | UpdateOp(key: Key, obj: Obj)
    | DeleteOp(key: Key)

  /**
   What a stage makes of the answers it reads. A write carries its follow-up: the status
   update to make when it succeeds, or the error of a read made after it.
   */
  datatype Decision =
    | Skip(ctx: Ctx, note: Option<Note>)
    | Abort(ctx: Ctx, error: Error)
    | Crash(ctx: Ctx)
    | Write(ctx: Ctx, op: Op, tolerant: bool, after: Result<Option<Note>, Error>)

  function OwnerOf(pk: PKey, p: Presto): Owner {
    Owner(pk.name, p.uid)
  }

  function OperatorError(msg: string): Error {
    Error(OtherReason, msg)
  }

  function Pending(a: Note): Result<Option<Note>, Error> {
    Ok(Some(a.(clusterState := Some(ClusterPending))))
  }

  /** Create an object and announce it. */
  function Make(ctx: Ctx, k: Key, obj: Obj, a: Note): Decision {
    Write(ctx, CreateOp(k, obj), false, Pending(a))
  }

  function DecideHeadless(pk: PKey, p: Presto, o: Oracle, ctx: Ctx): Decision
    requires Sliceable(p.status.uuid)
  {
    var u := p.status.uuid;
    var ctx := ctx.(labels := ctx.labels[DISCOVERY_KEY := u]);
    var name := PodDiscoveryServiceName(u);
    match o.list(At(Headless), Query(Service, pk.ns, map[DISCOVERY_KEY := u]))
    case ListFailed(e) => Abort(ctx, e)
    case Listed(items) =>
      if items != [] then Skip(ctx, None)
      else
        Make(ctx, Key(Service, pk.ns, name),
             Obj(ctx.labels, OwnerOf(pk, p), 0, ServiceBody(ctx.labels, "None", "", [])),
             Action(headlessService := Some(name)))
  }

  function RefOf(it: Item): ServiceRef {
    if it.obj.body.ServiceBody? then ServiceRef(it.key.name, it.obj.body.clusterIp, it.obj.body.ports)
    else ServiceRef(it.key.name, "", [])
  }

  function FirstService(items: seq<Item>): Option<ServiceRef> {
    if items == [] then None else Some(RefOf(items[0]))
  }

  function ServiceAction(svc: Option<ServiceRef>): Note {
    Action(service := svc, clusterState := Some(ClusterPending))
  }

  function ExternalObject(pk: PKey, p: Presto, ports: seq<ServicePort>, labels: Labels): Obj {
    Obj(labels, OwnerOf(pk, p), 0,
        ServiceBody(map[COORDINATOR_KEY := p.status.uuid], p.spec.service.clusterIp,
                    p.spec.service.serviceType, ports))
  }

  /** The address is recorded when the service is new or the address still unknown. */
  function DecideExternal(pk: PKey, p: Presto, o: Oracle, ctx: Ctx): Decision
    requires Sliceable(p.status.uuid)
  {
    var u := p.status.uuid;
    var ctx := ctx.(labels := ctx.labels[EXTERNAL_KEY := u]);
    if p.spec.service.serviceType == "ExternalName" then
      Abort(ctx, OperatorError("Service of the following type not supported: ExternalName"))
    else
      match o.list(At(External), Query(Service, pk.ns, map[EXTERNAL_KEY := u]))
      case ListFailed(e) => Abort(ctx, e)
      case Listed(items) =>
        if items != [] then
          Skip(ctx, if p.status.coordinatorAddress == "" then Some(ServiceAction(FirstService(items))) else None)
        else
          Write(ctx,
                CreateOp(Key(Service, pk.ns, ExternalServiceName(u)), ExternalObject(pk, p, o.plan.ports, ctx.labels)),
                false,
                match o.list(Relist, Query(Service, pk.ns, ctx.labels))
                case ListFailed(e) => Err(e)
                case Listed(again) => Ok(Some(ServiceAction(FirstService(again)))))
  }

  function ConfigName(role: Role, u: string): string
    requires Sliceable(u)
  {
    match role
    case CoordConfig => CoordinatorConfigMapName(u)
    case WorkerConfig => WorkerConfigMapName(u)
    case _ => CatalogConfigMapName(u)
  }

  function ConfigData(role: Role, plan: Plan): Result<map<string, string>, Error> {
    match role
    case CoordConfig => plan.coordConfig
    case WorkerConfig => plan.workerConfig
    case _ => Ok(plan.catalogConfig)
  }

  function ConfigAction(role: Role, name: string): Note {
    match role
    case CoordConfig => Action(coordinatorConfig := Some(name))
    case WorkerConfig => Action(workerConfig := Some(name))
    case _ => Action(catalogConfig := Some(name))
  }

  predicate HasName(items: seq<Item>, name: string) {
    exists i :: 0 <= i < |items| && items[i].key.name == name
  }

  /** The three config-map stages: build, then look the name up among the cluster's maps, then create. */
  function DecideConfig(role: Role, pk: PKey, p: Presto, o: Oracle, ctx: Ctx): Decision
    requires Sliceable(p.status.uuid)
  {
    var name := ConfigName(role, p.status.uuid);
    match ConfigData(role, o.plan)
    case Err(e) => Abort(ctx, e)
    case Ok(data) =>
      match o.list(At(role), Query(ConfigMap, pk.ns, ctx.labels))
      case ListFailed(e) => Abort(ctx, e)
      case Listed(items) =>
        if HasName(items, name) then Skip(ctx, None)
        else
          Make(ctx, Key(ConfigMap, pk.ns, name),
               Obj(ctx.labels, OwnerOf(pk, p), 0, ConfigMapBody(data)), ConfigAction(role, name))
  }

  /** getReplicaSet: a listing that failed with "not found" counts as empty. */
  function FirstItem(l: Listing): Result<Option<Item>, Error> {
    match l
    case ListFailed(e) => if e.reason == NotFound then Ok(None) else Err(e)
    case Listed(items) => Ok(if items == [] then None else Some(items[0]))
  }

  function SetObject(pk: PKey, p: Presto, labels: Labels, replicas: int, pod: PodSpec): Obj {
    Obj(labels, OwnerOf(pk, p), 0, ReplicaSetBody(replicas, 0, labels, Template(labels, pod)))
  }

  function DecideCoordSet(pk: PKey, p: Presto, o: Oracle, ctx: Ctx): Decision
    requires Sliceable(p.status.uuid)
  {
    var u := p.status.uuid;
    match FirstItem(o.list(At(CoordSet), Query(ReplicaSet, pk.ns, map[COORDINATOR_KEY := u])))
    case Err(e) => Abort(ctx, e)
    case Ok(Some(_)) => Skip(ctx, None)
    case Ok(None) =>
      match o.plan.coordPod
      case Err(e) => Abort(ctx, e)
      case Ok(pod) =>
        Make(ctx, Key(ReplicaSet, pk.ns, CoordinatorReplicaSetName(u) + o.coordSuffix),
             SetObject(pk, p, ctx.labels[COORDINATOR_KEY := u], 1, pod),
             Action(coordinatorSet := Some(CoordinatorReplicaSetName(u))))
  }

  function SetRefOf(it: Item): SetRef {
    if it.obj.body.ReplicaSetBody? then SetRef(it.key.name, it.obj.body.replicas, it.obj.body.available)
    else SetRef(it.key.name, 0, 0)
  }

  function WithReplicas(obj: Obj, n: int): Obj {
    if obj.body.ReplicaSetBody? then obj.(body := obj.body.(replicas := n)) else obj
  }

  predicate AutoscalingOn(spec: PrestoSpec) {
    Or(spec.worker.autoscaling.enabled, false)
  }

  /** The worker count is written back only when autoscaling is off. */
  predicate NeedsRescale(spec: PrestoSpec, it: Item) {
    !AutoscalingOn(spec) && spec.worker.count.Some? && spec.worker.count.value != SetRefOf(it).replicas
  }

  function DecideWorkerSet(pk: PKey, p: Presto, o: Oracle, ctx: Ctx): Decision
    requires Sliceable(p.status.uuid)
  {
    var u := p.status.uuid;
    match FirstItem(o.list(At(WorkerSet), Query(ReplicaSet, pk.ns, map[WORKER_KEY := u])))
    case Err(e) => Abort(ctx, e)
    case Ok(None) =>
      if p.spec.worker.count.None? then Crash(ctx)
      else if o.plan.workerPod.Err? then Abort(ctx, o.plan.workerPod.error)
      else
        var key := Key(ReplicaSet, pk.ns, WorkerReplicaSetName(u) + o.workerSuffix);
        var obj := SetObject(pk, p, ctx.labels[WORKER_KEY := u], p.spec.worker.count.value, o.plan.workerPod.value);
        var ref := SetRefOf(Item(key, obj));
        Make(ctx.(workerSet := Some(ref)), key, obj, Action(workerSet := Some(ref)))
    case Ok(Some(it)) =>
      if NeedsRescale(p.spec, it) then
        var obj := WithReplicas(it.obj, p.spec.worker.count.value);
        var ref := SetRefOf(Item(it.key, obj));
        Write(ctx.(workerSet := Some(ref)), UpdateOp(it.key, obj), false, Pending(Action(workerSet := Some(ref))))
      else Skip(ctx.(workerSet := Some(SetRefOf(it))), None)
  }

  datatype Comparison = Same | Differs | NilDereference

  function HpaSpecOf(obj: Obj): HpaSpec {
    if obj.body.HpaBody? then obj.body.hpa else HpaSpec("", None, 0, None)
  }

  /** autoscaleSpecChanged: dereferences on both sides, left to right, stopping at the first difference. */
  function CompareAutoscaling(h: HpaSpec, a: AutoscalingSpec): Comparison {
    if a.maxReplicas.None? then NilDereference
    else if h.maxReplicas != a.maxReplicas.value then Differs
    else if h.minReplicas.None? || a.minReplicas.None? then NilDereference
    else if h.minReplicas != a.minReplicas then Differs
    else if h.targetCpu.None? || a.targetCpu.None? then NilDereference
    else if h.targetCpu != a.targetCpu then Differs
    else Same
  }

  /** createHPASpec: the three numbers must be given, and the worker ReplicaSet is dereferenced last. */
  function DecideTuning(pk: PKey, p: Presto, ctx: Ctx, rv: nat, exists': bool): Decision
    requires Sliceable(p.status.uuid)
  {
    var a := p.spec.worker.autoscaling;
    if a.minReplicas.None? then Abort(ctx, OperatorError("MinReplicas cannot be null"))
    else if a.maxReplicas.None? then Abort(ctx, OperatorError("MaxReplicas cannot be null"))
    else if a.targetCpu.None? then Abort(ctx, OperatorError("TargetCPUUtilizationPercentage cannot be null"))
    else if ctx.workerSet.None? then Crash(ctx)
    else
      var key := Key(Hpa, pk.ns, HpaName(p.status.uuid));
      var hpa := HpaSpec(ctx.workerSet.value.name, a.minReplicas, a.maxReplicas.value, a.targetCpu);
      var obj := Obj(ctx.labels, OwnerOf(pk, p), rv, HpaBody(hpa));
      if exists' then Write(ctx, UpdateOp(key, obj), true, Ok(None))
      else Write(ctx, CreateOp(key, obj), true, Pending(Action(hpaName := Some(HpaName(p.status.uuid)))))
  }

  function DecideAutoscaler(pk: PKey, p: Presto, o: Oracle, ctx: Ctx): Decision
    requires Sliceable(p.status.uuid)
  {
    var on := AutoscalingOn(p.spec);
    match FirstItem(o.list(At(Autoscaler), Query(Hpa, pk.ns, ctx.labels)))
    case Err(e) => Abort(ctx, e)
    case Ok(None) => if on then DecideTuning(pk, p, ctx, 0, false) else Skip(ctx, None)
    case Ok(Some(it)) =>
      if !on then Write(ctx, DeleteOp(it.key), false, Pending(Action(hpaName := Some(""))))
      else
        match CompareAutoscaling(HpaSpecOf(it.obj), p.spec.worker.autoscaling)
        case NilDereference => Crash(ctx)
        case Same => Skip(ctx, None)
        case Differs => DecideTuning(pk, p, ctx, it.obj.rv, true)
  }

  function Decide(role: Role, pk: PKey, p: Presto, o: Oracle, ctx: Ctx): Decision
    requires Sliceable(p.status.uuid)
  {
    match role
    case Headless => DecideHeadless(pk, p, o, ctx)
    case External => DecideExternal(pk, p, o, ctx)
    case CoordConfig => DecideConfig(CoordConfig, pk, p, o, ctx)
    case WorkerConfig => DecideConfig(WorkerConfig, pk, p, o, ctx)
    case CatalogConfig => DecideConfig(CatalogConfig, pk, p, o, ctx)
    case CoordSet => DecideCoordSet(pk, p, o, ctx)
    case WorkerSet => DecideWorkerSet(pk, p, o, ctx)
    case Autoscaler => DecideAutoscaler(pk, p, o, ctx)
  }

  // ---------------------------------------------------------------- carrying a decision out

  datatype Verdict = Fine | Failed(error: Error) | Panicked

  /** A stage's result; `note` is the status update the stage then makes. */
  datatype StageOut = StageOut(s: Server, verdict: Verdict, changed: bool, ctx: Ctx, note: Option<Note>) {
    /** Reconcile returns right after this stage. */
    predicate Stops() {
      verdict != Fine || changed
    }
  }

  function EffectOf(op: Op): Effect {
    match op
    case CreateOp(k, _) => Created(k)
    case UpdateOp(k, _) => Updated(k)
    case DeleteOp(k) => Deleted(k)
  }

  function Do(op: Op, s: Server, m: WriteMode): (w: Written)
    ensures w.s.prestos == s.prestos && w.s.versions == s.versions && w.s.pods == s.pods && w.s.minted == s.minted
    ensures w.s.clock >= s.clock
    ensures w.s == s || w.s.log == s.log + [EffectOf(op)]
  {
    match op
    case CreateOp(k, obj) => CreateObject(s, k, obj, m)
    case UpdateOp(k, obj) => UpdateObject(s, k, obj, m)
    case DeleteOp(k) => DeleteObject(s, k, m)
  }

  function What(role: Role): string {
    match role
    case Headless => "headless service for pods"
    case External => "service for pods"
    case CoordConfig => "coordinator config map"
    case WorkerConfig => "worker config map"
    case CatalogConfig => "catalog config map"
    case CoordSet => "coordinator replicaset"
    case WorkerSet => "worker replicaset"
    case Autoscaler => "autoscale config"
  }

  function FailureNote(role: Role, e: Error): Note {
    Action(errorReason := Some("Failed to create " + What(role) + " " + e.msg), clusterState := Some(ClusterFailed))
  }

  function GiveUp(role: Role, s: Server, e: Error, ctx: Ctx): StageOut {
    StageOut(s, Failed(e), false, ctx, Some(FailureNote(role, e)))
  }

  /** "Already exists" does not count as a failure when the autoscaler is created or updated. */
  predicate Succeeded(e: Option<Error>, tolerant: bool) {
    e.None? || (tolerant && e.value.reason == AlreadyExists)
  }

  function Perform(role: Role, d: Decision, s: Server, m: WriteMode): (r: StageOut)
    ensures r.s == if d.Write? then Do(d.op, s, m).s else s
  {
    match d
    case Skip(ctx, note) => StageOut(s, Fine, false, ctx, note)
    case Abort(ctx, e) => GiveUp(role, s, e, ctx)
    case Crash(ctx) => StageOut(s, Panicked, false, ctx, None)
    case Write(ctx, op, tolerant, after) =>
      var w := Do(op, s, m);
      if !Succeeded(w.error, tolerant) then GiveUp(role, w.s, w.error.value, ctx)
      else if after.Err? then GiveUp(role, w.s, after.error, ctx)
      else StageOut(w.s, Fine, true, ctx, after.value)
  }

  /** A stage's status update: its own failure is ignored, a nil dereference in it is not. */
  function Announce(r: StageOut, pk: PKey, p: Presto, io: StatusIo): StageOut {
    match r.note
    case None => r
    case Some(a) =>
      var q := UpdateStatus(r.s, pk, p, io, a);
      r.(s := q.s, verdict := if q.panicked then Panicked else r.verdict)
  }

  function RunStage(role: Role, s: Server, pk: PKey, p: Presto, o: Oracle, ctx: Ctx): StageOut
    requires Sliceable(p.status.uuid)
  {
    Announce(Perform(role, Decide(role, pk, p, o, ctx), s, o.write(At(role))), pk, p, o.status(At(role)))
  }

  /** The caller's copy after a stage's status update, if it made one. */
  function InHand(role: Role, s: Server, pk: PKey, p: Presto, o: Oracle, ctx: Ctx): (h: Presto)
    requires Sliceable(p.status.uuid)
    ensures Alike(p, h)
  {
    var r := Perform(role, Decide(role, pk, p, o, ctx), s, o.write(At(role)));
    if r.note.None? then p else UpdateStatus(r.s, pk, p, o.status(At(role)), r.note.value).held
  }

  // ---------------------------------------------------------------- the end of the pipeline

  function CoordinatorPhase(l: PodListing): PodPhase {
    match l
    case PodsFailed(_) => PodUnknown
    case PodsListed(pods) => if pods == [] then PodUnknown else pods[0].phase
  }

  function Percent(n: int): string {
    Text.Decimal(n) + "%"
  }

  function FinalAction(phase: PodPhase, o: Oracle, ctx: Ctx): Note {
    match phase
    case PodPending => Action(clusterState := Some(ClusterPending), workerSet := ctx.workerSet)
    case PodFailed => Action(clusterState := Some(ClusterFailed), workerSet := ctx.workerSet)
    case PodRunning =>
      Action(clusterState := Some(ClusterReady), workerSet := ctx.workerSet,
             workerCpu := Some(Percent(o.workerCpu)), coordinatorCpu := Some(Percent(o.coordinatorCpu)))
    case _ => Action(clusterState := Some(ClusterUnknown), workerSet := ctx.workerSet)
  }

  /** The pod listing's selector: coordinator pods carry the shared map plus the coordinator pair. */
  function CoordinatorPods(p: Presto, ctx: Ctx): Labels {
    ctx.labels[COORDINATOR_KEY := p.status.uuid]
  }

  function Finish(s: Server, pk: PKey, p: Presto, o: Oracle, ctx: Ctx): StageOut {
    var phase := CoordinatorPhase(o.pods(pk.ns, CoordinatorPods(p, ctx)));
    Announce(StageOut(s, Fine, false, ctx, Some(FinalAction(phase, o, ctx))), pk, p, o.status(AtEnd))
  }

  /** The stages from number i on, each run only if no earlier one wrote or failed. */
  function RunFrom(i: nat, s: Server, pk: PKey, p: Presto, o: Oracle, ctx: Ctx): StageOut
    requires i <= |PIPELINE|
    requires Sliceable(p.status.uuid)
    decreases |PIPELINE| - i
  {
    if i == |PIPELINE| then Finish(s, pk, p, o, ctx)
    else
      var r := RunStage(PIPELINE[i], s, pk, p, o, ctx);
      if r.Stops() then r else RunFrom(i + 1, r.s, pk, InHand(PIPELINE[i], s, pk, p, o, ctx), o, r.ctx)
  }

  // ---------------------------------------------------------------- Reconcile

  /** What Reconcile does to the map of periodically woken resources. */
  datatype Registration = Untouched | Register | Unregister

  datatype ReconcileOut = ReconcileOut(s: Server, verdict: Verdict, registration: Registration)

  function InitialCtx(pk: PKey, p: Presto): Ctx {
    Ctx(BaseLabels(p.status.uuid, pk.name), None)
  }

  function RunPipeline(s: Server, pk: PKey, p: Presto, o: Oracle): ReconcileOut {
    if !Sliceable(p.status.uuid) then ReconcileOut(s, Panicked, Register)
    else
      var r := RunFrom(0, s, pk, p, o, InitialCtx(pk, p));
      ReconcileOut(r.s, r.verdict, Register)
  }

  function Reconcile(s: Server, pk: PKey, o: Oracle): ReconcileOut {
    match o.get
    case GetFailed(e) =>
      if e.reason == NotFound then ReconcileOut(s, Fine, Unregister) else ReconcileOut(s, Failed(e), Untouched)
    case Found(p) =>
      if p.status.uuid != "" then RunPipeline(s, pk, p, o)
      else
        var r := UpdateStatus(s, pk, p, o.status(AtUuid), Action(clusterUuid := Some(o.freshUuid)));
        if r.error.Some? then ReconcileOut(r.s, Failed(r.error.value), Register)
        else if r.updated then ReconcileOut(r.s, Fine, Register)
        else RunPipeline(r.s, pk, p, o)
  }
}
