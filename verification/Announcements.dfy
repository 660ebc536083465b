/** What the status says after a call. */
module Announcements {
  import opened PrestoTypes
  import opened Naming
  import opened Api
  import opened Pipeline
  import opened NormalForm
  import opened Invariants
  import opened Effects
  import opened Calls
  import opened Reads
  import opened Convergence
  import opened Text

  /** Status updates find the resource and are accepted; nothing is said of other reads and writes. */
  ghost predicate HeardBy(s: Server, pk: PKey, o: Oracle) {
    && Inv(s) && Honest(s, pk, o) && pk in s.prestos && o.get == Found(s.prestos[pk])
    && s.prestos[pk].status.uuid != ""
    && (forall site: Site, l: Labels :: o.status(site).read(l) == Live && o.status(site).write == Accept)
  }

  lemma CalmIsHeard(s: Server, pk: PKey, o: Oracle)
    requires Calm(s, pk, o) && UuidAt(s, pk) != ""
    ensures HeardBy(s, pk, o)
  {
    hide Inv, Honest, NamesFree, FreshLists;
  }

  lemma HeardApplies(s: Server, pk: PKey, o: Oracle)
    requires HeardBy(s, pk, o)
    ensures
      var p := s.prestos[pk];
      Applies(s, pk, p, o) && Sliceable(p.status.uuid) && p.status.uuid in s.minted && s.minted[p.status.uuid] == pk
  {
  }

  // ---------------------------------------------------------------- the UUID

  /** The copy a status update writes back: the first one listed under the name, else the caller's own. */
  ghost predicate CopyIs(copy: Presto, s: Server, pk: PKey, own: Presto, read: PrestoRead) {
    match read
    case ReadFailed(_) => false
    case Live =>
      copy == if pk in s.prestos && (forall l :: l in own.labels ==> (l, own.labels[l]) in s.prestos[pk].labels.Items)
              then s.prestos[pk] else own
    case Snapshot(items) =>
      || (copy == own && forall i :: 0 <= i < |items| ==> items[i].name != pk.name)
      || (exists i :: 0 <= i < |items| && items[i].name == pk.name && copy == items[i].presto
                      && forall j :: 0 <= j < i ==> items[j].name != pk.name)
  }

  lemma {:induction false} FirstOfName(items: seq<NamedPresto>, name: string)
    ensures match FindByName(items, name)
            case None => forall i :: 0 <= i < |items| ==> items[i].name != name
            case Some(p) => exists i :: 0 <= i < |items| && items[i].name == name && p == items[i].presto
                                        && forall j :: 0 <= j < i ==> items[j].name != name
  {
    if items != [] && items[0].name != name {
      FirstOfName(items[1..], name);
      if FindByName(items, name).Some? {
        var i :| 0 <= i < |items[1..]| && items[1..][i].name == name
                 && FindByName(items, name).value == items[1..][i].presto
                 && forall j :: 0 <= j < i ==> items[1..][j].name != name;
        assert items[i + 1] == items[1..][i];
        assert forall j :: 0 < j < i + 1 ==> items[j] == items[1..][j - 1];
      } else {
        assert forall i :: 0 < i < |items| ==> items[i] == items[1..][i - 1];
      }
    }
  }

  lemma CopyWritten(s: Server, pk: PKey, own: Presto, read: PrestoRead)
    requires !read.ReadFailed?
    ensures GetPresto(s, pk, own, read).Ok? && CopyIs(Or(GetPresto(s, pk, own, read).value, own), s, pk, own, read)
  {
    if read.Snapshot? {
      FirstOfName(read.items, pk.name);
    }
  }

  /** Why the UUID was not recorded, or not known to be: the listing, the write, a stale copy or a lost reply. */
  function UuidError(s: Server, pk: PKey, io: StatusIo, read: PrestoRead, copy: Presto): Option<Error> {
    if read.ReadFailed? then Some(read.error)
    else if io.write.Reject? then Some(io.write.error)
    else if pk !in s.prestos then Some(Error(NotFound, "not found"))
    else if copy.rv != s.prestos[pk].rv then Some(Error(Conflict, "conflict"))
    else if io.write.LoseReply? then Some(io.write.error)
    else None
  }

  /**
   A call that finds no UUID fails with the first thing that goes wrong, or else succeeds; then the
   new UUID is in the status, which is otherwise that of the copy read, and no object is written.
   */
  lemma UuidIsRecorded(s: Server, pk: PKey, o: Oracle)
    requires o.get.Found? && o.get.presto.status.uuid == ""
    ensures
      var own, io, r := o.get.presto, o.status(AtUuid), Reconcile(s, pk, o);
      exists copy :: (io.read(own.labels).ReadFailed? || CopyIs(copy, s, pk, own, io.read(own.labels)))
        && var error := UuidError(s, pk, io, io.read(own.labels), copy);
        && r.s.objs == s.objs
        && (error.Some? ==> r.verdict == Failed(error.value))
        && (error.None? ==>
              && r.verdict == Fine && pk in r.s.prestos
              && r.s.prestos[pk].status == copy.status.(uuid := o.freshUuid))
  {
    hide RunPipeline, CopyIs;
    var own, io := o.get.presto, o.status(AtUuid);
    if !io.read(own.labels).ReadFailed? {
      CopyWritten(s, pk, own, io.read(own.labels));
    }
    var g := GetPresto(s, pk, own, io.read(own.labels));
    var copy := if g.Ok? then Or(g.value, own) else own;
    assert io.read(own.labels).ReadFailed? || CopyIs(copy, s, pk, own, io.read(own.labels));
  }

  /** No answer of the API saves a call from panicking, exactly if the UUID is too short to be sliced. */
  lemma DoomedIffShort(s: Server, pk: PKey, o: Oracle)
    requires o.get.Found? && o.get.presto.status.uuid != ""
    ensures (forall o': Oracle :: o'.get == o.get ==> Reconcile(s, pk, o').verdict.Panicked?)
       <==> |o.get.presto.status.uuid| < 8
  {
    hide UpdateStatus;
    if |o.get.presto.status.uuid| >= 8 {
      var o' := o.(list := (site: Site, q: Query) => ListFailed(Error(OtherReason, "")));
      assert !RunStage(Headless, s, pk, o.get.presto, o', InitialCtx(pk, o.get.presto)).verdict.Panicked?;
      assert !Reconcile(s, pk, o').verdict.Panicked?;
    }
  }

  /** A status update says it was made exactly if it reached the server and the reply came back. */
  lemma UpdatedIff(s: Server, pk: PKey, own: Presto, io: StatusIo, a: Action)
    ensures
      var r := UpdateStatus(s, pk, own, io, a);
      r.updated <==> r.s.log == s.log + [StatusWritten(pk, a)] && io.write.Accept?
  {
    hide Merge, GetPresto;
  }

  // ---------------------------------------------------------------- the address

  /** ip:port/nodePort, with 0 for a node port that is not set. */
  function AddressText(body: Body): string
    requires body.ServiceBody? && body.ports != []
  {
    var port := body.ports[0];
    body.clusterIp + ":" + Decimal(port.port) + "/" + Decimal(if port.nodePort.Some? then port.nodePort.value else 0)
  }

  /** The status once the address of the service, if it is known, has been recorded. */
  function Recorded(st: Status, services: seq<Item>): Status {
    if services != [] && services[0].obj.body.ServiceBody? && services[0].obj.body.ports != []
    then st.(service := services[0].key.name,
             coordinatorAddress := AddressText(services[0].obj.body),
             clusterState := Some(ClusterPending))
    else st.(clusterState := Some(ClusterPending))
  }

  lemma MergedAddress(st: Status, services: seq<Item>)
    requires services == [] || (services[0].obj.body.ServiceBody? && services[0].obj.body.ports != [])
    ensures Mergeable(ServiceAction(FirstService(services)))
    ensures Merge(st, ServiceAction(FirstService(services))) == Recorded(st, services)
  {
    hide Decimal;
  }

  /** The status a stage past the services starts from. */
  function Base(s: Server, pk: PKey, o: Oracle, j: nat): Status
    requires pk in s.prestos
  {
    var p := s.prestos[pk];
    var l := Answer(External, pk, p, o);
    if j > 1 && SomethingListed(l) && p.status.coordinatorAddress == "" then Recorded(p.status, l.items) else p.status
  }

  lemma ListedServices(s: Server, pk: PKey, o: Oracle)
    requires HeardBy(s, pk, o)
    ensures
      var l := Answer(External, pk, s.prestos[pk], o);
      SomethingListed(l) ==> l.items[0].obj.body.ServiceBody? && l.items[0].obj.body.ports != []
  {
    hide Inv, Honest, ItemFits;
    HeardApplies(s, pk, o);
    if SomethingListed(Answer(External, pk, s.prestos[pk], o)) {
      FirstFoundIsOurs(External, s, pk, s.prestos[pk], o);
    }
  }

  lemma ReachedStatus(s: Server, pk: PKey, o: Oracle, j: nat)
    requires HeardBy(s, pk, o)
    ensures
      var p := s.prestos[pk];
      var at, h := StateAt(j, s, pk, p, o), HeldAt(j, s, pk, p, o);
      && pk in at.prestos && at.prestos[pk] == p.(status := Base(s, pk, o, j), rv := at.prestos[pk].rv)
      && h.labels == at.prestos[pk].labels
  {
    hide Inv, Honest, Merge, UpdateStatus, Recorded, Decimal;
    var p := s.prestos[pk];
    var l := Answer(External, pk, p, o);
    ListedServices(s, pk, o);
    if j > 1 && SomethingListed(l) && p.status.coordinatorAddress == "" {
      MergedAddress(p.status, l.items);
      LiveLands(s, pk, p, o.status(At(External)), ServiceAction(FirstService(l.items)));
    }
  }

  // ---------------------------------------------------------------- the end of the pipeline

  /** The state that goes with the first coordinator pod listed. */
  function StateOf(l: PodListing): ClusterState {
    if l.PodsFailed? || l.pods == [] then ClusterUnknown
    else if l.pods[0].phase == PodPending then ClusterPending
    else if l.pods[0].phase == PodFailed then ClusterFailed
    else if l.pods[0].phase == PodRunning then ClusterReady
    else ClusterUnknown
  }

  /** The status of a complete cluster: its state, its workers and, if it is Ready, its CPU figures. */
  function Completed(st: Status, state: ClusterState, name: string, replicas: int, available: int, o: Oracle): Status {
    var counted := st.(clusterState := Some(state), workerReplicaset := name,
                       desiredWorkers := replicas, currentWorkers := available);
    if state == ClusterReady
    then counted.(workerCpu := Decimal(o.workerCpu) + "%", coordinatorCpu := Decimal(o.coordinatorCpu) + "%")
    else counted
  }

  lemma MergedEnd(st: Status, l: PodListing, o: Oracle, ctx: Ctx)
    requires ctx.workerSet.Some?
    ensures
      var a, set' := FinalAction(CoordinatorPhase(l), o, ctx), ctx.workerSet.value;
      && Mergeable(a) && a != Action()
      && Merge(st, a) == Completed(st, StateOf(l), set'.name, set'.replicas, set'.available, o)
  {
    hide Decimal;
  }

  lemma FinishedStatus(s: Server, pk: PKey, o: Oracle)
    requires HeardBy(s, pk, o) && FirstOpen(0, pk, s.prestos[pk], o) == |PIPELINE|
    requires Sliceable(s.prestos[pk].status.uuid) && SomethingListed(Answer(WorkerSet, pk, s.prestos[pk], o))
    ensures
      var p := s.prestos[pk];
      var it, s' := Answer(WorkerSet, pk, p, o).items[0], Reconcile(s, pk, o).s;
      var l := o.pods(pk.ns, CoordinatorLabels(p.status.uuid, pk.name));
      && pk in s'.prestos
      && s'.prestos[pk].status == Completed(Base(s, pk, o, 8), StateOf(l), it.key.name, SetRefOf(it).replicas,
                                            SetRefOf(it).available, o)
  {
    hide Inv, Honest, Merge, UpdateStatus, RunFrom, Base, Completed, StateOf, FinalAction, CoordinatorPhase;
    var p := s.prestos[pk];
    HeardApplies(s, pk, o);
    PipelineIsFirstOpen(s, pk, p, o);
    ReachedStatus(s, pk, o, 8);
    var at, h, ctx := StateAt(8, s, pk, p, o), HeldAt(8, s, pk, p, o), CtxAt(8, pk, p, o);
    var l := o.pods(pk.ns, CoordinatorLabels(p.status.uuid, pk.name));
    assert CoordinatorPods(h, ctx) == CoordinatorLabels(p.status.uuid, pk.name);
    MergedEnd(at.prestos[pk].status, l, o, ctx);
    LiveLands(at, pk, h, o.status(AtEnd), FinalAction(CoordinatorPhase(l), o, ctx));
  }

  /**
   A call that finds a complete cluster reports it: the state is that of the first coordinator pod
   listed, the counts are those of the worker ReplicaSet, the CPU figures are reported only when
   Ready, and nothing else changes but an address that was not known yet.
   */
  lemma CompleteIsReported(s: Server, pk: PKey, o: Oracle, k: Key)
    requires Calm(s, pk, o) && UuidAt(s, pk) != "" && Measure(s, pk) == 0 && Holds(WorkerSet, k, s, UuidAt(s, pk))
    ensures s.objs[k].body.ReplicaSetBody?
    ensures
      var p, s', set' := s.prestos[pk], Reconcile(s, pk, o).s, s.objs[k].body;
      var l := o.pods(pk.ns, CoordinatorLabels(p.status.uuid, pk.name));
      && pk in s'.prestos
      && s'.prestos[pk].status == Completed(Base(s, pk, o, 8), StateOf(l), k.name, set'.replicas, set'.available, o)
  {
    hide Inv, Honest, NamesFree, Base, Completed, StateOf, Reconcile, Comparable, Passes, FreshLists;
    var p := s.prestos[pk];
    CalmLooks(s, pk, p, o);
    CalmIsHeard(s, pk, o);
    OpenIffMissing(s, pk, p, o);
    ListedIffPresent(WorkerSet, s, pk, p, o);
    assert Present(WorkerSet, s, p.status.uuid);
    SetHasBody(k, s, p.status.uuid);
    FinishedStatus(s, pk, o);
  }

  lemma SetHasBody(k: Key, s: Server, u: string)
    requires Holds(WorkerSet, k, s, u)
    ensures s.objs[k].body.ReplicaSetBody?
  {
  }

  // ---------------------------------------------------------------- a stage that writes

  function Pended(st: Status): Status {
    st.(clusterState := Some(ClusterPending))
  }

  /** The status after a stage has made or changed its object; `found` is what it had listed first. */
  function Told(role: Role, st: Status, u: string, spec: PrestoSpec, found: Option<Item>, relisted: seq<Item>,
                suffix: string): Status
    requires |u| >= 8
  {
    match role
    case Headless => Pended(st.(headlessService := "pod-discovery-" + u[..8]))
    case External => Recorded(st, relisted)
    case CoordConfig => Pended(st.(coordinatorConfig := "coordinatorconfig-" + u[..8]))
    case WorkerConfig => Pended(st.(workerConfig := "workerconfig-" + u[..8]))
    case CatalogConfig => Pended(st.(catalogConfig := "catalogconfig-" + u[..8]))
    case CoordSet => Pended(st.(coordinatorReplicaset := "coordinatorreplicaset-" + u[..8]))
    case WorkerSet =>
      var counted := st.(desiredWorkers := if spec.worker.count.Some? then spec.worker.count.value else 0);
      if found.None?
      then Pended(counted.(workerReplicaset := "workerreplicaset-" + u[..8] + suffix, currentWorkers := 0))
      else
        var available := if found.value.obj.body.ReplicaSetBody? then found.value.obj.body.available else 0;
        Pended(counted.(workerReplicaset := found.value.key.name, currentWorkers := available))
    case Autoscaler =>
      if spec.worker.autoscaling.enabled != Some(true) then Pended(st.(hpaName := ""))
      else if found.None? then Pended(st.(hpaName := "hpa-" + u[..8]))
      else st
  }

  function FoundFirst(role: Role, pk: PKey, p: Presto, o: Oracle): Option<Item> {
    var l := Answer(role, pk, p, o);
    if SomethingListed(l) then Some(l.items[0]) else None
  }

  function Relisted(pk: PKey, u: string, o: Oracle): seq<Item> {
    var l := o.list(Relist, Query(Service, pk.ns, ClusterLabels(u, pk.name)));
    if l.Listed? then l.items else []
  }

  /** What a stage decides to note, merged. */
  lemma NoteTold(role: Role, pk: PKey, p: Presto, o: Oracle, st: Status)
    requires Sliceable(p.status.uuid)
    requires
      var d := Decide(role, pk, p, o, CtxAt(Index(role), pk, p, o));
      && d.Write? && d.after.Ok? && (d.after.value.Some? ==> Mergeable(d.after.value.value))
      && (role == WorkerSet && FoundFirst(WorkerSet, pk, p, o).Some? ==>
            FoundFirst(WorkerSet, pk, p, o).value.obj.body.ReplicaSetBody?)
    ensures
      var d := Decide(role, pk, p, o, CtxAt(Index(role), pk, p, o));
      var found, u := FoundFirst(role, pk, p, o), p.status.uuid;
      && (d.after.value.Some? ==> d.after.value.value != Action())
      && (if d.after.value.None? then st else Merge(st, d.after.value.value))
         == Told(role, st, u, p.spec, found, Relisted(pk, u, o), o.workerSuffix)
  {
    hide Decimal, HasName, DecideExternal, DecideWorkerSet, DecideAutoscaler;
    match role {
      case External => ExternalNote(pk, p, o, st);
      case WorkerSet => WorkersNote(pk, p, o, st);
      case Autoscaler => AutoscalerNote(pk, p, o, st);
      case _ =>
    }
  }

  lemma WorkersNote(pk: PKey, p: Presto, o: Oracle, st: Status)
    requires Sliceable(p.status.uuid) && DecideWorkerSet(pk, p, o, CtxAt(6, pk, p, o)).Write?
    requires
      var found := FoundFirst(WorkerSet, pk, p, o);
      found.Some? ==> found.value.obj.body.ReplicaSetBody?
    ensures
      var after := DecideWorkerSet(pk, p, o, CtxAt(6, pk, p, o)).after;
      && after.Ok? && after.value.Some? && Mergeable(after.value.value) && after.value.value != Action()
      && Merge(st, after.value.value)
         == Told(WorkerSet, st, p.status.uuid, p.spec, FoundFirst(WorkerSet, pk, p, o), [], o.workerSuffix)
  {
    hide Decimal;
  }

  lemma AutoscalerNote(pk: PKey, p: Presto, o: Oracle, st: Status)
    requires Sliceable(p.status.uuid) && DecideAutoscaler(pk, p, o, CtxAt(7, pk, p, o)).Write?
    ensures
      var after := DecideAutoscaler(pk, p, o, CtxAt(7, pk, p, o)).after;
      && after.Ok? && (after.value.Some? ==> Mergeable(after.value.value) && after.value.value != Action())
      && (if after.value.None? then st else Merge(st, after.value.value))
         == Told(Autoscaler, st, p.status.uuid, p.spec, FoundFirst(Autoscaler, pk, p, o), [], o.workerSuffix)
  {
    hide Decimal;
  }

  lemma ExternalNote(pk: PKey, p: Presto, o: Oracle, st: Status)
    requires Sliceable(p.status.uuid)
    requires
      var d := DecideExternal(pk, p, o, CtxAt(1, pk, p, o));
      d.Write? && d.after.Ok? && (d.after.value.Some? ==> Mergeable(d.after.value.value))
    ensures
      var d := DecideExternal(pk, p, o, CtxAt(1, pk, p, o));
      && d.after.value.Some? && d.after.value.value != Action()
      && Merge(st, d.after.value.value) == Recorded(st, Relisted(pk, p.status.uuid, o))
  {
    hide Merge, Recorded;
    assert CtxAt(1, pk, p, o).labels[EXTERNAL_KEY := p.status.uuid] == ClusterLabels(p.status.uuid, pk.name);
    MergedAddress(st, Relisted(pk, p.status.uuid, o));
  }

  /** A write that succeeds is followed by its note, merged into the status as it was then. */
  lemma NotedStatus(role: Role, d: Decision, at: Server, pk: PKey, h: Presto, io: StatusIo)
    requires DecidesWrite(d, at) && pk in at.prestos && h.labels == at.prestos[pk].labels
    requires io.read(h.labels) == Live && io.write == Accept
    requires d.after.value.Some? ==> Mergeable(d.after.value.value) && d.after.value.value != Action()
    ensures
      var s', st := Announce(Perform(role, d, at, Accept), pk, h, io).s, at.prestos[pk].status;
      pk in s'.prestos && s'.prestos[pk].status == if d.after.value.None? then st else Merge(st, d.after.value.value)
  {
    hide UpdateStatus, Merge;
    if d.after.value.Some? {
      LiveLands(Do(d.op, at, Accept).s, pk, h, io, d.after.value.value);
    }
  }

  /** An undisturbed call with something to write says in the status what it wrote, and nothing else. */
  lemma StageIsReported(s: Server, pk: PKey, o: Oracle)
    requires Calm(s, pk, o) && UuidAt(s, pk) != "" && Sliceable(UuidAt(s, pk))
    requires FirstOpen(0, pk, s.prestos[pk], o) < |PIPELINE|
    ensures
      var p, s', j := s.prestos[pk], Reconcile(s, pk, o).s, FirstOpen(0, pk, s.prestos[pk], o);
      var role, u := PIPELINE[j], p.status.uuid;
      && pk in s'.prestos
      && s'.prestos[pk].status == Told(role, Base(s, pk, o, j), u, p.spec, FoundFirst(role, pk, p, o),
                                       Relisted(pk, u, o), o.workerSuffix)
  {
    hide Inv, Honest, NamesFree, Base, Told, Comparable, Passes, FreshLists, Decide, Perform, Announce, RunFrom, Merge;
    var p, j := s.prestos[pk], FirstOpen(0, pk, s.prestos[pk], o);
    var role := PIPELINE[j];
    IndexOfStage(j);
    CalmLooks(s, pk, p, o);
    CalmIsHeard(s, pk, o);
    PipelineIsFirstOpen(s, pk, p, o);
    CalmOpenStage(j, s, pk, p, o);
    NotesMergeable(role, s, pk, p, o);
    ReachedStatus(s, pk, o, j);
    WorkersHaveBody(s, pk, o);
    var at, h := StateAt(j, s, pk, p, o), HeldAt(j, s, pk, p, o);
    var d := Decide(role, pk, p, o, CtxAt(j, pk, p, o));
    NoteTold(role, pk, p, o, at.prestos[pk].status);
    NotedStatus(role, d, at, pk, h, o.status(At(role)));
  }

  lemma WorkersHaveBody(s: Server, pk: PKey, o: Oracle)
    requires HeardBy(s, pk, o)
    ensures
      var found := FoundFirst(WorkerSet, pk, s.prestos[pk], o);
      found.Some? ==> found.value.obj.body.ReplicaSetBody?
  {
    hide Inv, Honest, ItemFits;
    HeardApplies(s, pk, o);
    if SomethingListed(Answer(WorkerSet, pk, s.prestos[pk], o)) {
      FirstFoundIsOurs(WorkerSet, s, pk, s.prestos[pk], o);
    }
  }

  // ---------------------------------------------------------------- a stage that fails

  function WhatSays(role: Role): string {
    match role
    case Headless => "headless service for pods"
    case External => "service for pods"
    case CoordConfig => "coordinator config map"
    case WorkerConfig => "worker config map"
    case CatalogConfig => "catalog config map"
    case CoordSet => "coordinator replicaset"
    case WorkerSet => "worker replicaset"
    case Autoscaler => "autoscale config"
  }

  lemma MergedFailure(role: Role, st: Status, e: Error)
    ensures
      var a := FailureNote(role, e);
      && Mergeable(a) && a != Action()
      && Merge(st, a) == st.(clusterState := Some(ClusterFailed),
                             errorReason := "Failed to create " + WhatSays(role) + " " + e.msg)
  {
    assert What(role) == WhatSays(role);
  }

  lemma FailedStage(role: Role, d: Decision, at: Server, m: WriteMode, pk: PKey, h: Presto, io: StatusIo, e: Error)
    requires Announce(Perform(role, d, at, m), pk, h, io).verdict == Failed(e)
    requires pk in at.prestos && h.labels == at.prestos[pk].labels && io.read(h.labels) == Live && io.write == Accept
    ensures
      var s' := Announce(Perform(role, d, at, m), pk, h, io).s;
      && pk in s'.prestos
      && s'.prestos[pk].status == at.prestos[pk].status.(
           clusterState := Some(ClusterFailed), errorReason := "Failed to create " + WhatSays(role) + " " + e.msg)
  {
    hide UpdateStatus, Merge, FailureNote, WhatSays, Do;
    var r := Perform(role, d, at, m);
    assert r.note == Some(FailureNote(role, e)) && r.s.prestos == at.prestos;
    MergedFailure(role, at.prestos[pk].status, e);
    LiveLands(r.s, pk, h, io, FailureNote(role, e));
  }

  /** Whatever makes a call fail, the status says which stage it was and why, and is otherwise as before. */
  lemma FailureIsReported(s: Server, pk: PKey, o: Oracle, e: Error)
    requires HeardBy(s, pk, o) && Sliceable(UuidAt(s, pk)) && Reconcile(s, pk, o).verdict == Failed(e)
    ensures
      var s', j := Reconcile(s, pk, o).s, FirstOpen(0, pk, s.prestos[pk], o);
      && j < |PIPELINE| && pk in s'.prestos
      && s'.prestos[pk].status == Base(s, pk, o, j).(
           clusterState := Some(ClusterFailed),
           errorReason := "Failed to create " + WhatSays(PIPELINE[j]) + " " + e.msg)
  {
    hide Inv, Honest, Base, Passes, FirstOpen, Decide, Perform, Announce, RunFrom, Merge, WhatSays;
    var p, j := s.prestos[pk], FirstOpen(0, pk, s.prestos[pk], o);
    PipelineIsFirstOpen(s, pk, p, o);
    ReachedStatus(s, pk, o, j);
    var at, h := StateAt(j, s, pk, p, o), HeldAt(j, s, pk, p, o);
    if j == |PIPELINE| {
      NoFailureAtEnd(at, pk, h, o, CtxAt(j, pk, p, o));
    } else {
      var role := PIPELINE[j];
      IndexOfStage(j);
      var d := Decide(role, pk, p, o, CtxAt(j, pk, p, o));
      FailedStage(role, d, at, o.write(At(role)), pk, h, o.status(At(role)), e);
    }
  }

  lemma NoFailureAtEnd(at: Server, pk: PKey, h: Presto, o: Oracle, ctx: Ctx)
    ensures !Finish(at, pk, h, o, ctx).verdict.Failed?
  {
    hide UpdateStatus;
  }

  /** A list that fails at the first open stage fails the call; "not found" counts as empty past the config maps. */
  lemma ListErrorFails(role: Role, s: Server, pk: PKey, o: Oracle, e: Error)
    requires HeardBy(s, pk, o) && Sliceable(UuidAt(s, pk)) && FirstOpen(0, pk, s.prestos[pk], o) == Index(role)
    requires Answer(role, pk, s.prestos[pk], o) == ListFailed(e)
    requires role in {CoordSet, WorkerSet, Autoscaler} ==> e.reason != NotFound
    requires role == External ==> s.prestos[pk].spec.service.serviceType != "ExternalName"
    requires ConfigData(role, o.plan).Ok?
    ensures Reconcile(s, pk, o).verdict == Failed(e)
  {
    hide Inv, Honest, FirstOpen, RunFrom, UpdateStatus;
    var p := s.prestos[pk];
    PipelineIsFirstOpen(s, pk, p, o);
    assert Decide(role, pk, p, o, CtxAt(Index(role), pk, p, o)).Abort?;
  }

  /** What the compiler cannot build fails the call that needs it, with the compiler's error. */
  lemma BuildErrorFails(role: Role, s: Server, pk: PKey, o: Oracle, e: Error)
    requires HeardBy(s, pk, o) && Sliceable(UuidAt(s, pk)) && FirstOpen(0, pk, s.prestos[pk], o) == Index(role)
    requires
      || (role == CoordConfig && o.plan.coordConfig == Err(e))
      || (role == WorkerConfig && o.plan.workerConfig == Err(e))
      || (role == CoordSet && Answer(role, pk, s.prestos[pk], o) == Listed([]) && o.plan.coordPod == Err(e))
      || (&& role == WorkerSet && Answer(role, pk, s.prestos[pk], o) == Listed([]) && o.plan.workerPod == Err(e)
          && s.prestos[pk].spec.worker.count.Some?)
    ensures Reconcile(s, pk, o).verdict == Failed(e)
  {
    hide Inv, Honest, FirstOpen, RunFrom, UpdateStatus;
    var p := s.prestos[pk];
    PipelineIsFirstOpen(s, pk, p, o);
    assert Decide(role, pk, p, o, CtxAt(Index(role), pk, p, o)).Abort?;
  }

  function MissingNumber(a: AutoscalingSpec): string {
    if a.minReplicas.None? then "MinReplicas cannot be null"
    else if a.maxReplicas.None? then "MaxReplicas cannot be null"
    else "TargetCPUUtilizationPercentage cannot be null"
  }

  /** A spec the operator does not support, or that lacks a number for a new autoscaler, is refused in these words. */
  lemma SpecErrorFails(role: Role, s: Server, pk: PKey, o: Oracle, msg: string)
    requires HeardBy(s, pk, o) && Sliceable(UuidAt(s, pk)) && FirstOpen(0, pk, s.prestos[pk], o) == Index(role)
    requires
      var spec := s.prestos[pk].spec;
      var a := spec.worker.autoscaling;
      || (&& role == External && spec.service.serviceType == "ExternalName"
          && msg == "Service of the following type not supported: ExternalName")
      || (&& role == Autoscaler && a.enabled == Some(true) && Answer(role, pk, s.prestos[pk], o) == Listed([])
          && (a.minReplicas.None? || a.maxReplicas.None? || a.targetCpu.None?)
          && msg == MissingNumber(a))
    ensures Reconcile(s, pk, o).verdict == Failed(Error(OtherReason, msg))
  {
    hide Inv, Honest, FirstOpen, RunFrom, UpdateStatus;
    var p := s.prestos[pk];
    PipelineIsFirstOpen(s, pk, p, o);
    assert Decide(role, pk, p, o, CtxAt(Index(role), pk, p, o)).Abort?;
  }

  /** Only for an autoscaler that is wanted does a write take "already exists" for success. */
  lemma ForgivingWrites(role: Role, pk: PKey, p: Presto, o: Oracle, ctx: Ctx)
    requires Sliceable(p.status.uuid) && Decide(role, pk, p, o, ctx).Write?
    ensures
      var d := Decide(role, pk, p, o, ctx);
      && d.tolerant == (role == Autoscaler && p.spec.worker.autoscaling.enabled == Some(true))
      && (d.tolerant ==> d.after.Ok? && (d.after.value.Some? ==> d.after.value.value.service.None?))
  {
    hide HasName, SetObject;
  }

  lemma RefusedStage(role: Role, d: Decision, at: Server, pk: PKey, h: Presto, io: StatusIo, e: Error)
    requires d.Write? && (d.tolerant ==> d.after.Ok? && (d.after.value.Some? ==> d.after.value.value.service.None?))
    ensures
      var r := Announce(Perform(role, d, at, Reject(e)), pk, h, io);
      r.s.objs == at.objs && r.verdict == if d.tolerant && e.reason == AlreadyExists then Fine else Failed(e)
  {
    hide UpdateStatus;
  }

  /** A refused write fails the call with that error and writes nothing; not "already exists" for an autoscaler. */
  lemma RefusalFails(role: Role, s: Server, pk: PKey, o: Oracle, e: Error)
    requires HeardBy(s, pk, o) && Sliceable(UuidAt(s, pk)) && FirstOpen(0, pk, s.prestos[pk], o) == Index(role)
    requires Decide(role, pk, s.prestos[pk], o, CtxAt(Index(role), pk, s.prestos[pk], o)).Write?
    requires o.write(At(role)) == Reject(e)
    ensures
      var r, enabled := Reconcile(s, pk, o), s.prestos[pk].spec.worker.autoscaling.enabled;
      && r.s.objs == s.objs
      && r.verdict == if role == Autoscaler && enabled == Some(true) && e.reason == AlreadyExists then Fine
                      else Failed(e)
  {
    hide Inv, Honest, FirstOpen, RunFrom, UpdateStatus, Decide, Perform, Announce;
    var p, j := s.prestos[pk], Index(role);
    PipelineIsFirstOpen(s, pk, p, o);
    var ctx := CtxAt(j, pk, p, o);
    ForgivingWrites(role, pk, p, o, ctx);
    var d, at, h := Decide(role, pk, p, o, ctx), StateAt(j, s, pk, p, o), HeldAt(j, s, pk, p, o);
    RefusedStage(role, d, at, pk, h, o.status(At(role)), e);
  }

  /** A list that fails after the external service was created fails the call, and the service stays. */
  lemma RelistErrorFails(s: Server, pk: PKey, o: Oracle, e: Error)
    requires HeardBy(s, pk, o) && Sliceable(UuidAt(s, pk)) && FirstOpen(0, pk, s.prestos[pk], o) == Index(External)
    requires s.prestos[pk].spec.service.serviceType != "ExternalName"
    requires Answer(External, pk, s.prestos[pk], o) == Listed([]) && o.write(At(External)) == Accept
    requires Key(Service, pk.ns, "external-presto-svc-" + Short(UuidAt(s, pk))) !in s.objs
    requires o.list(Relist, Query(Service, pk.ns, ClusterLabels(UuidAt(s, pk), pk.name))) == ListFailed(e)
    ensures
      var r := Reconcile(s, pk, o);
      r.verdict == Failed(e) && Key(Service, pk.ns, "external-presto-svc-" + Short(UuidAt(s, pk))) in r.s.objs
  {
    hide Inv, Honest, FirstOpen, RunFrom, UpdateStatus;
    var p := s.prestos[pk];
    PipelineIsFirstOpen(s, pk, p, o);
    var ctx := CtxAt(1, pk, p, o);
    assert ctx.labels[EXTERNAL_KEY := p.status.uuid] == ClusterLabels(p.status.uuid, pk.name);
    assert Decide(External, pk, p, o, ctx).Write? && Decide(External, pk, p, o, ctx).after == Err(e);
  }

  // ---------------------------------------------------------------- lists that find nothing

  /** The same answers, but an empty list where ReplicaSets or autoscalers were "not found". */
  ghost predicate Emptied(o: Oracle, o': Oracle) {
    && o' == o.(list := o'.list)
    && (forall site: Site, q: Query ::
          var l := o.list(site, q);
          o'.list(site, q) ==
          if q.kind in {ReplicaSet, Hpa} && l.ListFailed? && l.error.reason == NotFound then Listed([]) else l)
  }

  lemma EmptiedDecides(role: Role, pk: PKey, p: Presto, o: Oracle, o': Oracle, ctx: Ctx)
    requires Sliceable(p.status.uuid) && Emptied(o, o')
    ensures Decide(role, pk, p, o, ctx) == Decide(role, pk, p, o', ctx)
  {
    hide HasName, DecideTuning, SetObject;
  }

  lemma {:induction false} EmptiedRuns(i: nat, s: Server, pk: PKey, p: Presto, o: Oracle, o': Oracle, ctx: Ctx)
    requires i <= |PIPELINE| && Sliceable(p.status.uuid) && Emptied(o, o')
    ensures RunFrom(i, s, pk, p, o, ctx) == RunFrom(i, s, pk, p, o', ctx)
    decreases |PIPELINE| - i
  {
    hide Decide, Perform, Announce, UpdateStatus;
    if i < |PIPELINE| {
      var role := PIPELINE[i];
      EmptiedDecides(role, pk, p, o, o', ctx);
      var r := RunStage(role, s, pk, p, o, ctx);
      assert r == RunStage(role, s, pk, p, o', ctx);
      var h := InHand(role, s, pk, p, o, ctx);
      assert h == InHand(role, s, pk, p, o', ctx) && h.status.uuid == p.status.uuid;
      EmptiedRuns(i + 1, r.s, pk, h, o, o', r.ctx);
    }
  }

  /** "Not found" from a list of ReplicaSets or autoscalers is an empty list, for the whole call. */
  lemma NotFoundIsEmpty(s: Server, pk: PKey, o: Oracle, o': Oracle)
    requires Emptied(o, o')
    ensures Reconcile(s, pk, o) == Reconcile(s, pk, o')
  {
    hide RunFrom, UpdateStatus;
    forall t: Server, p: Presto | Sliceable(p.status.uuid)
      ensures RunPipeline(t, pk, p, o) == RunPipeline(t, pk, p, o')
    {
      EmptiedRuns(0, t, pk, p, o, o', InitialCtx(pk, p));
    }
  }
}
