/**
 The reconciler in its own form: an object that reads and writes the API server, a label map
 shared with the functions it calls, loops over listings, and status fields assigned one by one.
 Each method is proved against the pipeline's functions.
 */
module Controller {
  import opened PrestoTypes
  import opened Naming
  import opened Api
  import P = Pipeline

  /** The map Reconcile hands to every stage; two of them write into it. */
  class LabelMap {
    var pairs: Labels

    constructor (pairs: Labels)
      ensures this.pairs == pairs
    {
      this.pairs := pairs;
    }

    method Put(key: string, value: string)
      modifies this
      ensures pairs == old(pairs)[key := value]
    {
      pairs := pairs[key := value];
    }
  }

  /** The copy of the resource that Reconcile reads once and passes on to everything it calls. */
  class PrestoCopy {
    var value: Presto

    constructor (value: Presto)
      ensures this.value == value
    {
      this.value := value;
    }
  }

  /** A function that returns (error, changed) did what the pipeline's stage result r says. */
  predicate Returned(r: P.StageOut, error: Option<Error>, changed: bool, panicked: bool) {
    && r.verdict == (if panicked then P.Panicked else if error.Some? then P.Failed(error.value) else P.Fine)
    && r.changed == changed
  }

  class ReconcilePresto {
    var server: Server
    var registered: set<PKey>

    constructor (server: Server)
      ensures this.server == server && registered == {}
    {
      this.server := server;
      this.registered := {};
    }

    // -------------------------------------------------------------- status

    /** getPresto: list, then walk the list for the name. */
    method GetPresto(pk: PKey, inHand: Presto, read: P.PrestoRead) returns (r: Result<Option<Presto>, Error>)
      ensures r == P.GetPresto(server, pk, inHand, read)
    {
      match read {
        case ReadFailed(e) => return Err(e);
        case Live =>
          if pk in server.prestos && Matches(inHand.labels, server.prestos[pk].labels) {
            return Ok(Some(server.prestos[pk]));
          }
          return Ok(None);
        case Snapshot(items) =>
          var i := 0;
          while i < |items|
            invariant 0 <= i <= |items|
            invariant P.FindByName(items, pk.name) == P.FindByName(items[i..], pk.name)
          {
            if items[i].name == pk.name {
              return Ok(Some(items[i].presto));
            }
            i := i + 1;
          }
          return Ok(None);
      }
    }

    /** The assignments of updateStatus, each under its own nil check: the UUID and the services, */
    static method AssignServices(status: Status, a: Action) returns (st: Status, update: bool)
      requires a.service.Some? ==> a.service.value.ports != []
      ensures st == status.(
        uuid := P.Or(a.clusterUuid, status.uuid),
        service := if a.service.Some? then a.service.value.name else status.service,
        coordinatorAddress := if a.service.Some? then P.Address(a.service.value) else status.coordinatorAddress,
        headlessService := P.Or(a.headlessService, status.headlessService))
      ensures update <==> a.clusterUuid.Some? || a.service.Some? || a.headlessService.Some?
    {
      st, update := status, false;
      if a.clusterUuid.Some? {
        st, update := st.(uuid := a.clusterUuid.value), true;
      }
      if a.service.Some? {
        st := st.(service := a.service.value.name, coordinatorAddress := P.Address(a.service.value));
        update := true;
      }
      if a.headlessService.Some? {
        st, update := st.(headlessService := a.headlessService.value), true;
      }
    }

    /** the names of the other objects, */
    static method AssignNames(status: Status, a: Action) returns (st: Status, update: bool)
      ensures st == status.(
        workerConfig := P.Or(a.workerConfig, status.workerConfig),
        coordinatorConfig := P.Or(a.coordinatorConfig, status.coordinatorConfig),
        catalogConfig := P.Or(a.catalogConfig, status.catalogConfig),
        coordinatorReplicaset := P.Or(a.coordinatorSet, status.coordinatorReplicaset),
        hpaName := P.Or(a.hpaName, status.hpaName))
      ensures update <==> a.workerConfig.Some? || a.coordinatorConfig.Some? || a.catalogConfig.Some?
                          || a.coordinatorSet.Some? || a.hpaName.Some?
    {
      st, update := status, false;
      if a.workerConfig.Some? {
        st, update := st.(workerConfig := a.workerConfig.value), true;
      }
      if a.coordinatorConfig.Some? {
        st, update := st.(coordinatorConfig := a.coordinatorConfig.value), true;
      }
      if a.catalogConfig.Some? {
        st, update := st.(catalogConfig := a.catalogConfig.value), true;
      }
      if a.coordinatorSet.Some? {
        st, update := st.(coordinatorReplicaset := a.coordinatorSet.value), true;
      }
      if a.hpaName.Some? {
        st, update := st.(hpaName := a.hpaName.value), true;
      }
    }

    /** and the observed state. */
    static method AssignState(status: Status, a: Action) returns (st: Status, update: bool)
      ensures st == status.(
        clusterState := if a.clusterState.Some? then a.clusterState else status.clusterState,
        errorReason := P.Or(a.errorReason, status.errorReason),
        workerCpu := P.Or(a.workerCpu, status.workerCpu),
        coordinatorCpu := P.Or(a.coordinatorCpu, status.coordinatorCpu),
        workerReplicaset := if a.workerSet.Some? then a.workerSet.value.name else status.workerReplicaset,
        desiredWorkers := if a.workerSet.Some? then a.workerSet.value.replicas else status.desiredWorkers,
        currentWorkers := if a.workerSet.Some? then a.workerSet.value.available else status.currentWorkers)
      ensures update <==> a.clusterState.Some? || a.errorReason.Some? || a.workerCpu.Some?
                          || a.coordinatorCpu.Some? || a.workerSet.Some?
    {
      st, update := status, false;
      if a.clusterState.Some? {
        st, update := st.(clusterState := a.clusterState), true;
      }
      if a.errorReason.Some? {
        st, update := st.(errorReason := a.errorReason.value), true;
      }
      if a.workerCpu.Some? {
        st, update := st.(workerCpu := a.workerCpu.value), true;
      }
      if a.coordinatorCpu.Some? {
        st, update := st.(coordinatorCpu := a.coordinatorCpu.value), true;
      }
      if a.workerSet.Some? {
        var set' := a.workerSet.value;
        st := st.(workerReplicaset := set'.name, desiredWorkers := set'.replicas, currentWorkers := set'.available);
        update := true;
      }
    }

    static method Assign(status: Status, a: Action) returns (st: Status, update: bool)
      requires a.service.Some? ==> a.service.value.ports != []
      ensures st == P.Merge(status, a)
      ensures update <==> a != Action()
    {
      var services, names, state;
      st, services := AssignServices(status, a);
      st, names := AssignNames(st, a);
      st, state := AssignState(st, a);
      update := services || names || state;
    }

    /** updateStatus: when the listing does not show the resource, the copy it edits is the caller's own. */
    method UpdateStatus(pk: PKey, presto: PrestoCopy, io: P.StatusIo, a: Action)
      returns (updated: bool, error: Option<Error>, panicked: bool)
      modifies this`server, presto
      ensures P.StatusOut(server, updated, error, panicked, presto.value)
           == P.UpdateStatus(old(server), pk, old(presto.value), io, a)
    {
      updated, error, panicked := false, None, false;
      var found := GetPresto(pk, presto.value, io.read(presto.value.labels));
      if found.Err? {
        error := Some(found.error);
        return;
      }
      var copy := presto;
      if found.value.Some? {
        copy := new PrestoCopy(found.value.value);
      }
      if a.service.Some? && a.service.value.ports == [] {
        panicked := true;
        return;
      }
      var st, update := Assign(copy.value.status, a);
      if update {
        copy.value := copy.value.(status := st);
        var w := WriteStatus(server, pk, copy.value, a, io.write);
        server := w.s;
        updated, error := w.error.None?, w.error;
        if updated {
          copy.value := copy.value.(rv := server.prestos[pk].rv);
        }
      }
    }

    /** The tail every stage shares: announce an error or a change in the status. */
    method Announce(pk: PKey, presto: PrestoCopy, io: P.StatusIo, note: Option<Note>) returns (panicked: bool)
      modifies this`server, presto
      ensures
        var r := P.StageOut(old(server), P.Fine, false, P.Ctx(map[], None), note);
        var q := P.Announce(r, pk, old(presto.value), io);
        server == q.s && panicked == q.verdict.Panicked?
      ensures presto.value == if note.None? then old(presto.value)
                              else P.UpdateStatus(old(server), pk, old(presto.value), io, note.value).held
    {
      panicked := false;
      if note.Some? {
        var updated, error, p := UpdateStatus(pk, presto, io, note.value);
        panicked := p;
      }
    }

    // -------------------------------------------------------------- services

    /** createHeadLessPodDiscoverySvc writes its pair into the caller's map before it looks. */
    method CreateHeadlessService(pk: PKey, p: Presto, o: P.Oracle, labels: LabelMap, ghost workers: Option<SetRef>)
      returns (error: Option<Error>, created: bool)
      requires Sliceable(p.status.uuid)
      modifies this`server, labels
      ensures
        var d := P.DecideHeadless(pk, p, o, P.Ctx(old(labels.pairs), workers));
        var r := P.Perform(Headless, d, old(server), o.write(P.At(Headless)));
        server == r.s && labels.pairs == r.ctx.labels && Returned(r, error, created, false)
    {
      error, created := None, false;
      labels.Put(DISCOVERY_KEY, p.status.uuid);
      var listing := o.list(P.At(Headless), Query(Service, pk.ns, map[DISCOVERY_KEY := p.status.uuid]));
      if listing.ListFailed? {
        error := Some(listing.error);
        return;
      }
      if |listing.items| == 0 {
        var service := Obj(labels.pairs, P.OwnerOf(pk, p), 0, ServiceBody(labels.pairs, "None", "", []));
        var key := Key(Service, pk.ns, PodDiscoveryServiceName(p.status.uuid));
        var w := CreateObject(server, key, service, o.write(P.At(Headless)));
        server := w.s;
        if w.error.Some? {
          error := w.error;
          return;
        }
        created := true;
      }
    }

    method HeadlessServiceConfig(pk: PKey, presto: PrestoCopy, o: P.Oracle, labels: LabelMap,
                                 ghost workers: Option<SetRef>)
      returns (error: Option<Error>, changed: bool, panicked: bool)
      requires Sliceable(presto.value.status.uuid)
      modifies this`server, presto, labels
      ensures
        var p, ctx := old(presto.value), P.Ctx(old(labels.pairs), workers);
        var r := P.RunStage(Headless, old(server), pk, p, o, ctx);
        && presto.value == P.InHand(Headless, old(server), pk, p, o, ctx)
        && server == r.s && labels.pairs == r.ctx.labels && Returned(r, error, changed, panicked)
        && (!r.Stops() ==> r.ctx == P.Ctx(labels.pairs, workers))
    {
      hide P.UpdateStatus;
      var p := presto.value;
      error, changed := CreateHeadlessService(pk, p, o, labels, workers);
      var note: Option<Note> := None;
      if error.Some? {
        note := Some(P.FailureNote(Headless, error.value));
      } else if changed {
        note := Some(Action(headlessService := Some(PodDiscoveryServiceName(p.status.uuid)),
                            clusterState := Some(ClusterPending)));
      }
      panicked := Announce(pk, presto, o.status(P.At(Headless)), note);
    }

    /** createOrGetService: list, create if absent, list again by the whole map. */
    method CreateOrGetService(pk: PKey, p: Presto, o: P.Oracle, labels: LabelMap, ghost workers: Option<SetRef>)
      returns (error: Option<Error>, service: Option<ServiceRef>, created: bool)
      requires Sliceable(p.status.uuid)
      modifies this`server, labels
      ensures
        var d := P.DecideExternal(pk, p, o, P.Ctx(old(labels.pairs), workers));
        var r := P.Perform(External, d, old(server), o.write(P.At(External)));
        && server == r.s && labels.pairs == r.ctx.labels
        && r.verdict == (if error.Some? then P.Failed(error.value) else P.Fine)
        && (error.None? ==> created == r.changed)
        && (error.None? ==>
              r.note == if created || p.status.coordinatorAddress == "" then Some(P.ServiceAction(service)) else None)
        && (error.Some? ==> !r.changed && r.note == Some(P.FailureNote(External, error.value)))
    {
      error, service, created := None, None, false;
      var u := p.status.uuid;
      labels.Put(EXTERNAL_KEY, u);
      if p.spec.service.serviceType == "ExternalName" {
        error := Some(P.OperatorError("Service of the following type not supported: ExternalName"));
        return;
      }
      var listing := o.list(P.At(External), Query(Service, pk.ns, map[EXTERNAL_KEY := u]));
      if listing.ListFailed? {
        error := Some(listing.error);
        return;
      }
      service := P.FirstService(listing.items);
      if service.None? {
        var w := CreateObject(server, Key(Service, pk.ns, ExternalServiceName(u)),
                              P.ExternalObject(pk, p, o.plan.ports, labels.pairs), o.write(P.At(External)));
        server := w.s;
        if w.error.Some? {
          error := w.error;
          return;
        }
        created := true;
        var again := o.list(P.Relist, Query(Service, pk.ns, labels.pairs));
        if again.ListFailed? {
          error := Some(again.error);
          return;
        }
        service := P.FirstService(again.items);
      }
    }

    static lemma ExternalKeepsWorkers(pk: PKey, p: Presto, o: P.Oracle, ctx: P.Ctx, s: Server, m: WriteMode)
      requires Sliceable(p.status.uuid)
      ensures P.Perform(External, P.DecideExternal(pk, p, o, ctx), s, m).ctx.workerSet == ctx.workerSet
    {
      hide P.Do;
    }

    method ServiceConfig(pk: PKey, presto: PrestoCopy, o: P.Oracle, labels: LabelMap, ghost workers: Option<SetRef>)
      returns (error: Option<Error>, changed: bool, panicked: bool)
      requires Sliceable(presto.value.status.uuid)
      modifies this`server, presto, labels
      ensures
        var p, ctx := old(presto.value), P.Ctx(old(labels.pairs), workers);
        var r := P.RunStage(External, old(server), pk, p, o, ctx);
        && presto.value == P.InHand(External, old(server), pk, p, o, ctx)
        && server == r.s && labels.pairs == r.ctx.labels
        && r.verdict == (if panicked then P.Panicked else if error.Some? then P.Failed(error.value) else P.Fine)
        && (error.None? ==> changed == r.changed)
        && (!r.Stops() ==> r.ctx == P.Ctx(labels.pairs, workers))
    {
      hide P.UpdateStatus, P.DecideExternal, P.Perform;
      var p := presto.value;
      ExternalKeepsWorkers(pk, p, o, P.Ctx(labels.pairs, workers), server, o.write(P.At(External)));
      var service;
      error, service, changed := CreateOrGetService(pk, p, o, labels, workers);
      var note: Option<Note> := None;
      if error.Some? {
        note := Some(P.FailureNote(External, error.value));
      } else if changed || p.status.coordinatorAddress == "" {
        note := Some(P.ServiceAction(service));
      }
      panicked := Announce(pk, presto, o.status(P.At(External)), note);
    }

    // -------------------------------------------------------------- config maps

    static function ConfigNote(role: Role, p: Presto, error: Option<Error>, created: bool): Option<Note>
      requires Sliceable(p.status.uuid)
    {
      if error.Some? then Some(P.FailureNote(role, error.value))
      else if created then P.Pending(P.ConfigAction(role, P.ConfigName(role, p.status.uuid))).value
      else None
    }

    /** createConfigMap: walk the cluster's maps for the name, create if it is not among them. */
    method CreateConfigMap(role: Role, pk: PKey, p: Presto, o: P.Oracle, data: map<string, string>, labels: LabelMap)
      returns (error: Option<Error>, created: bool)
      requires Sliceable(p.status.uuid) && role in {CoordConfig, WorkerConfig, CatalogConfig}
      requires P.ConfigData(role, o.plan) == Ok(data)
      modifies this`server
      ensures
        var d := P.DecideConfig(role, pk, p, o, P.Ctx(labels.pairs, None));
        var r := P.Perform(role, d, old(server), o.write(P.At(role)));
        && server == r.s && Returned(r, error, created, false)
        && r.ctx == P.Ctx(labels.pairs, None) && r.note == ConfigNote(role, p, error, created)
    {
      error, created := None, false;
      var name := P.ConfigName(role, p.status.uuid);
      var listing := o.list(P.At(role), Query(ConfigMap, pk.ns, labels.pairs));
      if listing.ListFailed? {
        error := Some(listing.error);
        return;
      }
      var items := listing.items;
      for i := 0 to |items|
        invariant server == old(server)
        invariant forall j :: 0 <= j < i ==> items[j].key.name != name
      {
        if items[i].key.name == name {
          return;
        }
      }
      var obj := Obj(labels.pairs, P.OwnerOf(pk, p), 0, ConfigMapBody(data));
      var w := CreateObject(server, Key(ConfigMap, pk.ns, name), obj, o.write(P.At(role)));
      server := w.s;
      error, created := w.error, w.error.None?;
    }

    /** coordinatorConfig, workerConfig and catalogConfig: the configuration is built before the store is read. */
    method ConfigStage(role: Role, pk: PKey, presto: PrestoCopy, o: P.Oracle, labels: LabelMap)
      returns (error: Option<Error>, changed: bool, panicked: bool)
      requires Sliceable(presto.value.status.uuid) && role in {CoordConfig, WorkerConfig, CatalogConfig}
      modifies this`server, presto
      ensures
        var p, ctx := old(presto.value), P.Ctx(labels.pairs, None);
        var r := P.RunStage(role, old(server), pk, p, o, ctx);
        && presto.value == P.InHand(role, old(server), pk, p, o, ctx)
        && server == r.s && r.ctx == P.Ctx(labels.pairs, None) && Returned(r, error, changed, panicked)
    {
      hide P.UpdateStatus;
      var p := presto.value;
      error, changed := None, false;
      var built := P.ConfigData(role, o.plan);
      if built.Err? {
        error := Some(built.error);
      } else {
        error, changed := CreateConfigMap(role, pk, p, o, built.value, labels);
      }
      panicked := Announce(pk, presto, o.status(P.At(role)), ConfigNote(role, p, error, changed));
    }

    // -------------------------------------------------------------- replica sets

    method CoordinatorReplicaSet(pk: PKey, presto: PrestoCopy, o: P.Oracle, labels: LabelMap)
      returns (error: Option<Error>, changed: bool, panicked: bool)
      requires Sliceable(presto.value.status.uuid)
      modifies this`server, presto
      ensures
        var p, ctx := old(presto.value), P.Ctx(labels.pairs, None);
        var r := P.RunStage(CoordSet, old(server), pk, p, o, ctx);
        && presto.value == P.InHand(CoordSet, old(server), pk, p, o, ctx)
        && server == r.s && r.ctx == P.Ctx(labels.pairs, None) && Returned(r, error, changed, panicked)
    {
      hide P.UpdateStatus;
      var p := presto.value;
      error, changed := None, false;
      var u := p.status.uuid;
      var podLabels := CopyLabels(labels.pairs, COORDINATOR_KEY, u);
      var found := P.FirstItem(o.list(P.At(CoordSet), Query(ReplicaSet, pk.ns, map[COORDINATOR_KEY := u])));
      if found.Err? {
        error := Some(found.error);
      } else if found.value.None? {
        if o.plan.coordPod.Err? {
          error := Some(o.plan.coordPod.error);
        } else {
          var key := Key(ReplicaSet, pk.ns, CoordinatorReplicaSetName(u) + o.coordSuffix);
          var set' := P.SetObject(pk, p, podLabels, 1, o.plan.coordPod.value);
          var w := CreateObject(server, key, set', o.write(P.At(CoordSet)));
          server := w.s;
          error, changed := w.error, w.error.None?;
        }
      }
      var note: Option<Note> := None;
      if error.Some? {
        note := Some(P.FailureNote(CoordSet, error.value));
      } else if changed {
        note := Some(Action(coordinatorSet := Some(CoordinatorReplicaSetName(u)),
                            clusterState := Some(ClusterPending)));
      }
      panicked := Announce(pk, presto, o.status(P.At(CoordSet)), note);
    }

    static function WorkerNote(workers: Option<SetRef>, error: Option<Error>, changed: bool): Option<Note> {
      if error.Some? then Some(P.FailureNote(WorkerSet, error.value))
      else if changed then Some(Action(workerSet := workers, clusterState := Some(ClusterPending)))
      else None
    }

    /** createUpdateReplicaSetForWorker: create, or write the count back when autoscaling is off. */
    method CreateUpdateWorkers(pk: PKey, p: Presto, o: P.Oracle, labels: LabelMap)
      returns (workers: Option<SetRef>, error: Option<Error>, changed: bool, crashed: bool)
      requires Sliceable(p.status.uuid)
      modifies this`server
      ensures
        var d := P.DecideWorkerSet(pk, p, o, P.Ctx(labels.pairs, None));
        var r := P.Perform(WorkerSet, d, old(server), o.write(P.At(WorkerSet)));
        && server == r.s && Returned(r, error, changed, crashed)
        && (error.None? && !crashed ==> workers == r.ctx.workerSet && workers.Some?)
        && r.note == WorkerNote(workers, error, changed)
        && (!r.Stops() ==> r.ctx == P.Ctx(labels.pairs, workers))
    {
      workers, error, changed, crashed := None, None, false, false;
      var u, spec := p.status.uuid, p.spec.worker;
      var podLabels := CopyLabels(labels.pairs, WORKER_KEY, u);
      var found := P.FirstItem(o.list(P.At(WorkerSet), Query(ReplicaSet, pk.ns, map[WORKER_KEY := u])));
      if found.Err? {
        error := Some(found.error);
        return;
      }
      if found.value.None? {
        if spec.count.None? {
          crashed := true;
          return;
        }
        if o.plan.workerPod.Err? {
          error := Some(o.plan.workerPod.error);
          return;
        }
        var key := Key(ReplicaSet, pk.ns, WorkerReplicaSetName(u) + o.workerSuffix);
        var obj := P.SetObject(pk, p, podLabels, spec.count.value, o.plan.workerPod.value);
        var w := CreateObject(server, key, obj, o.write(P.At(WorkerSet)));
        server := w.s;
        error, changed := w.error, w.error.None?;
        workers := Some(P.SetRefOf(Item(key, obj)));
        return;
      }
      var it := found.value.value;
      workers := Some(P.SetRefOf(it));
      if spec.autoscaling.enabled.None? || !spec.autoscaling.enabled.value {
        if spec.count.Some? && spec.count.value != workers.value.replicas {
          var obj := P.WithReplicas(it.obj, spec.count.value);
          var w := UpdateObject(server, it.key, obj, o.write(P.At(WorkerSet)));
          server := w.s;
          error, changed := w.error, w.error.None?;
          workers := Some(P.SetRefOf(Item(it.key, obj)));
        }
      }
    }

    method WorkerReplicaSet(pk: PKey, presto: PrestoCopy, o: P.Oracle, labels: LabelMap)
      returns (workers: Option<SetRef>, error: Option<Error>, changed: bool, panicked: bool)
      requires Sliceable(presto.value.status.uuid)
      modifies this`server, presto
      ensures
        var p, ctx := old(presto.value), P.Ctx(labels.pairs, None);
        var r := P.RunStage(WorkerSet, old(server), pk, p, o, ctx);
        && presto.value == P.InHand(WorkerSet, old(server), pk, p, o, ctx)
        && server == r.s && Returned(r, error, changed, panicked)
        && (!r.Stops() ==> r.ctx == P.Ctx(labels.pairs, workers))
    {
      hide P.UpdateStatus;
      var p := presto.value;
      var crashed;
      workers, error, changed, crashed := CreateUpdateWorkers(pk, p, o, labels);
      panicked := Announce(pk, presto, o.status(P.At(WorkerSet)), WorkerNote(workers, error, changed));
      panicked := panicked || crashed;
    }

    // -------------------------------------------------------------- the autoscaler

    /** createHPASpec, up to the three numbers it insists on. */
    static method CreateHpaSpec(a: AutoscalingSpec) returns (r: Result<(int, int, int), Error>)
      ensures r.Ok? <==> a.minReplicas.Some? && a.maxReplicas.Some? && a.targetCpu.Some?
      ensures r.Ok? ==> r.value == (a.minReplicas.value, a.maxReplicas.value, a.targetCpu.value)
      ensures r.Err? ==> r.error == P.OperatorError(
        if a.minReplicas.None? then "MinReplicas cannot be null"
        else if a.maxReplicas.None? then "MaxReplicas cannot be null"
        else "TargetCPUUtilizationPercentage cannot be null")
    {
      if a.minReplicas.None? {
        return Err(P.OperatorError("MinReplicas cannot be null"));
      }
      if a.maxReplicas.None? {
        return Err(P.OperatorError("MaxReplicas cannot be null"));
      }
      if a.targetCpu.None? {
        return Err(P.OperatorError("TargetCPUUtilizationPercentage cannot be null"));
      }
      return Ok((a.minReplicas.value, a.maxReplicas.value, a.targetCpu.value));
    }

    static function AutoscalerNote(p: Presto, error: Option<Error>, created: bool, deleted: bool): Option<Note>
      requires Sliceable(p.status.uuid)
    {
      if error.Some? then Some(P.FailureNote(Autoscaler, error.value))
      else if created then Some(Action(hpaName := Some(HpaName(p.status.uuid)), clusterState := Some(ClusterPending)))
      else if deleted then Some(Action(hpaName := Some(""), clusterState := Some(ClusterPending)))
      else None
    }

    /** handleReplicaSet: create, update or delete the autoscaler; "already exists" is no failure. */
    method HandleAutoscaler(pk: PKey, p: Presto, o: P.Oracle, labels: LabelMap, workers: Option<SetRef>)
      returns (error: Option<Error>, created: bool, updated: bool, deleted: bool, crashed: bool)
      requires Sliceable(p.status.uuid)
      modifies this`server
      ensures
        var d := P.DecideAutoscaler(pk, p, o, P.Ctx(labels.pairs, workers));
        var r := P.Perform(Autoscaler, d, old(server), o.write(P.At(Autoscaler)));
        && server == r.s && Returned(r, error, created || updated || deleted, crashed)
        && r.note == AutoscalerNote(p, error, created, deleted)
    {
      error, created, updated, deleted, crashed := None, false, false, false, false;
      var on := P.AutoscalingOn(p.spec);
      var found := P.FirstItem(o.list(P.At(Autoscaler), Query(Hpa, pk.ns, labels.pairs)));
      if found.Err? {
        error := Some(found.error);
        return;
      }
      var key, mode := Key(Hpa, pk.ns, HpaName(p.status.uuid)), o.write(P.At(Autoscaler));
      if found.value.Some? && !on {
        var w := DeleteObject(server, found.value.value.key, mode);
        server := w.s;
        error, deleted := w.error, w.error.None?;
        return;
      }
      if !on {
        return;
      }
      var rv := 0;
      if found.value.Some? {
        var compared := P.CompareAutoscaling(P.HpaSpecOf(found.value.value.obj), p.spec.worker.autoscaling);
        if compared.NilDereference? {
          crashed := true;
          return;
        }
        if compared.Same? {
          return;
        }
        rv := found.value.value.obj.rv;
      }
      var numbers := CreateHpaSpec(p.spec.worker.autoscaling);
      if numbers.Err? {
        error := Some(numbers.error);
        return;
      }
      if workers.None? {
        crashed := true;
        return;
      }
      var (min, max, cpu) := numbers.value;
      var hpa := HpaSpec(workers.value.name, Some(min), max, Some(cpu));
      var obj := Obj(labels.pairs, P.OwnerOf(pk, p), rv, HpaBody(hpa));
      var w := if found.value.Some? then UpdateObject(server, key, obj, mode) else CreateObject(server, key, obj, mode);
      server := w.s;
      if w.error.Some? && w.error.value.reason != AlreadyExists {
        error := w.error;
        return;
      }
      created, updated := found.value.None?, found.value.Some?;
    }

    static lemma AutoscalerKeepsCtx(pk: PKey, p: Presto, o: P.Oracle, ctx: P.Ctx, s: Server, m: WriteMode)
      requires Sliceable(p.status.uuid)
      ensures P.Perform(Autoscaler, P.DecideAutoscaler(pk, p, o, ctx), s, m).ctx == ctx
    {
      hide P.Do;
    }

    method AutoscalerStage(pk: PKey, presto: PrestoCopy, o: P.Oracle, labels: LabelMap, workers: Option<SetRef>)
      returns (error: Option<Error>, changed: bool, panicked: bool)
      requires Sliceable(presto.value.status.uuid)
      modifies this`server, presto
      ensures
        var p, ctx := old(presto.value), P.Ctx(labels.pairs, workers);
        var r := P.RunStage(Autoscaler, old(server), pk, p, o, ctx);
        && presto.value == P.InHand(Autoscaler, old(server), pk, p, o, ctx)
        && server == r.s && Returned(r, error, changed, panicked)
        && (!r.Stops() ==> r.ctx == P.Ctx(labels.pairs, workers))
    {
      hide P.UpdateStatus, P.DecideAutoscaler, P.Perform, AutoscalerNote;
      var p := presto.value;
      AutoscalerKeepsCtx(pk, p, o, P.Ctx(labels.pairs, workers), server, o.write(P.At(Autoscaler)));
      var created, updated, deleted, crashed;
      error, created, updated, deleted, crashed := HandleAutoscaler(pk, p, o, labels, workers);
      changed := created || updated || deleted;
      panicked := Announce(pk, presto, o.status(P.At(Autoscaler)), AutoscalerNote(p, error, created, deleted));
      panicked := panicked || crashed;
    }

    // -------------------------------------------------------------- Reconcile

    static function VerdictOf(error: Option<Error>, panicked: bool): P.Verdict {
      if panicked then P.Panicked else if error.Some? then P.Failed(error.value) else P.Fine
    }

    /** The stages in order, each followed by its two early returns. */
    method RunStages(pk: PKey, presto: PrestoCopy, o: P.Oracle) returns (verdict: P.Verdict)
      requires Sliceable(presto.value.status.uuid)
      modifies this`server, presto
      ensures
        var r := P.RunFrom(0, old(server), pk, old(presto.value), o, P.InitialCtx(pk, old(presto.value)));
        server == r.s && verdict == r.verdict
    {
      hide P.RunStage, P.InHand;
      var labels := new LabelMap(BaseLabels(presto.value.status.uuid, pk.name));
      var error, changed, panicked := HeadlessServiceConfig(pk, presto, o, labels, None);
      if error.Some? || changed || panicked {
        return VerdictOf(error, panicked);
      }
      assert NextStage(0, old(server), server, pk, old(presto.value), presto.value, o,
                       P.InitialCtx(pk, old(presto.value)), P.Ctx(labels.pairs, None));
      verdict := RunFromService(pk, presto, o, labels);
    }

    method RunFromService(pk: PKey, presto: PrestoCopy, o: P.Oracle, labels: LabelMap) returns (verdict: P.Verdict)
      requires Sliceable(presto.value.status.uuid)
      modifies this`server, presto, labels
      ensures
        var r := P.RunFrom(1, old(server), pk, old(presto.value), o, P.Ctx(old(labels.pairs), None));
        server == r.s && verdict == r.verdict
    {
      hide P.RunStage, P.InHand;
      var error, changed, panicked := ServiceConfig(pk, presto, o, labels, None);
      if error.Some? || changed || panicked {
        return VerdictOf(error, panicked);
      }
      assert NextStage(1, old(server), server, pk, old(presto.value), presto.value, o,
                       P.Ctx(old(labels.pairs), None), P.Ctx(labels.pairs, None));
      verdict := RunConfigsAndSets(pk, presto, o, labels);
    }

    /** One stage has passed and the run goes on with the next. */
    static ghost predicate NextStage(i: nat, s: Server, s': Server, pk: PKey, p: Presto, p': Presto, o: P.Oracle,
                                     ctx: P.Ctx, ctx': P.Ctx)
      requires i < |PIPELINE| && Sliceable(p.status.uuid)
    {
      Sliceable(p'.status.uuid) && P.RunFrom(i, s, pk, p, o, ctx) == P.RunFrom(i + 1, s', pk, p', o, ctx')
    }

    method RunConfigsAndSets(pk: PKey, presto: PrestoCopy, o: P.Oracle, labels: LabelMap) returns (verdict: P.Verdict)
      requires Sliceable(presto.value.status.uuid)
      modifies this`server, presto
      ensures
        var r := P.RunFrom(2, old(server), pk, old(presto.value), o, P.Ctx(labels.pairs, None));
        server == r.s && verdict == r.verdict
    {
      hide P.RunStage, P.InHand;
      ghost var ctx := P.Ctx(labels.pairs, None);
      ghost var s0, p0 := server, presto.value;
      var error, changed, panicked := ConfigStage(CoordConfig, pk, presto, o, labels);
      if error.Some? || changed || panicked {
        return VerdictOf(error, panicked);
      }
      assert NextStage(2, s0, server, pk, p0, presto.value, o, ctx, ctx);
      s0, p0 := server, presto.value;
      error, changed, panicked := ConfigStage(WorkerConfig, pk, presto, o, labels);
      if error.Some? || changed || panicked {
        return VerdictOf(error, panicked);
      }
      assert NextStage(3, s0, server, pk, p0, presto.value, o, ctx, ctx);
      s0, p0 := server, presto.value;
      error, changed, panicked := ConfigStage(CatalogConfig, pk, presto, o, labels);
      if error.Some? || changed || panicked {
        return VerdictOf(error, panicked);
      }
      assert NextStage(4, s0, server, pk, p0, presto.value, o, ctx, ctx);
      verdict := RunSets(pk, presto, o, labels);
    }

    method RunSets(pk: PKey, presto: PrestoCopy, o: P.Oracle, labels: LabelMap) returns (verdict: P.Verdict)
      requires Sliceable(presto.value.status.uuid)
      modifies this`server, presto
      ensures
        var r := P.RunFrom(5, old(server), pk, old(presto.value), o, P.Ctx(labels.pairs, None));
        server == r.s && verdict == r.verdict
    {
      hide P.RunStage, P.InHand;
      ghost var ctx := P.Ctx(labels.pairs, None);
      ghost var s0, p0 := server, presto.value;
      var error, changed, panicked := CoordinatorReplicaSet(pk, presto, o, labels);
      if error.Some? || changed || panicked {
        return VerdictOf(error, panicked);
      }
      assert NextStage(5, s0, server, pk, p0, presto.value, o, ctx, ctx);
      s0, p0 := server, presto.value;
      var workers;
      workers, error, changed, panicked := WorkerReplicaSet(pk, presto, o, labels);
      if error.Some? || changed || panicked {
        return VerdictOf(error, panicked);
      }
      ghost var ctx' := P.Ctx(labels.pairs, workers);
      assert NextStage(6, s0, server, pk, p0, presto.value, o, ctx, ctx');
      s0, p0 := server, presto.value;
      error, changed, panicked := AutoscalerStage(pk, presto, o, labels, workers);
      if error.Some? || changed || panicked {
        return VerdictOf(error, panicked);
      }
      assert NextStage(7, s0, server, pk, p0, presto.value, o, ctx', ctx');
      panicked := Finish(pk, presto, o, labels, workers);
      verdict := if panicked then P.Panicked else P.Fine;
    }

    /** The end of Reconcile: the status follows the phase of the first coordinator pod listed. */
    method Finish(pk: PKey, presto: PrestoCopy, o: P.Oracle, labels: LabelMap, workers: Option<SetRef>)
      returns (panicked: bool)
      modifies this`server, presto
      ensures
        var r := P.Finish(old(server), pk, old(presto.value), o, P.Ctx(labels.pairs, workers));
        server == r.s && panicked == r.verdict.Panicked?
    {
      var podLabels := CopyLabels(labels.pairs, COORDINATOR_KEY, presto.value.status.uuid);
      var phase := P.CoordinatorPhase(o.pods(pk.ns, podLabels));
      var note: Note;
      if phase == PodPending {
        note := Action(clusterState := Some(ClusterPending), workerSet := workers);
      } else if phase == PodFailed {
        note := Action(clusterState := Some(ClusterFailed), workerSet := workers);
      } else if phase == PodRunning {
        note := Action(clusterState := Some(ClusterReady), workerSet := workers,
                       workerCpu := Some(P.Percent(o.workerCpu)), coordinatorCpu := Some(P.Percent(o.coordinatorCpu)));
      } else {
        note := Action(clusterState := Some(ClusterUnknown), workerSet := workers);
      }
      panicked := Announce(pk, presto, o.status(P.AtEnd), Some(note));
    }

    method Reconcile(pk: PKey, o: P.Oracle) returns (verdict: P.Verdict)
      modifies this
      ensures
        var r := P.Reconcile(old(server), pk, o);
        && server == r.s && verdict == r.verdict
        && registered == match r.registration
                         case Register => old(registered) + {pk}
                         case Unregister => old(registered) - {pk}
                         case Untouched => old(registered)
    {
      if o.get.GetFailed? {
        if o.get.error.reason == NotFound {
          registered := registered - {pk};
          return P.Fine;
        }
        return P.Failed(o.get.error);
      }
      var presto := new PrestoCopy(o.get.presto);
      if pk !in registered {
        registered := registered + {pk};
      }
      if |presto.value.status.uuid| == 0 {
        var action := Action(clusterUuid := Some(o.freshUuid));
        var updated, error, panicked := UpdateStatus(pk, presto, o.status(P.AtUuid), action);
        if error.Some? {
          return P.Failed(error.value);
        }
        if updated {
          return P.Fine;
        }
      }
      if !Sliceable(presto.value.status.uuid) {
        return P.Panicked;
      }
      verdict := RunStages(pk, presto, o);
    }
  }
}
