/**
 The API server as the operator sees it: a store of labelled objects and one of Presto
 resources, with optimistic concurrency on resource versions. The last four fields are history:
 what the operator wrote, which resource each cluster UUID was given to, and every object and
 every resource version the server ever held.
 */
module Api {
  import opened PrestoTypes
  import opened Naming

  datatype Kind = Service | ConfigMap | ReplicaSet | Hpa

  datatype Key = Key(kind: Kind, ns: string, name: string)

  datatype Owner = Owner(name: string, uid: string)

  datatype Template = Template(labels: Labels, pod: PodSpec)

  datatype HpaSpec = HpaSpec(target: string, minReplicas: Option<int>, maxReplicas: int, targetCpu: Option<int>)

  datatype Body =
    | ServiceBody(selector: Labels, clusterIp: string, serviceType: string, ports: seq<ServicePort>)
    | ConfigMapBody(data: map<string, string>)
    | ReplicaSetBody(replicas: int, available: int, matchLabels: Labels, template: Template)
    | HpaBody(hpa: HpaSpec)

  datatype Obj = Obj(labels: Labels, owner: Owner, rv: nat, body: Body)

  datatype Item = Item(key: Key, obj: Obj)

  datatype PodPhase = PodPending | PodRunning | PodSucceeded | PodFailed | PodUnknown

  datatype Pod = Pod(labels: Labels, phase: PodPhase)

  datatype Query = Query(kind: Kind, ns: string, selector: Labels) {
    predicate Selects(k: Key, obj: Obj) {
      k.kind == kind && k.ns == ns && Matches(selector, obj.labels)
    }
  }

  // ------------------------------------------------------- status updates

  datatype ServiceRef = ServiceRef(name: string, clusterIp: string, ports: seq<ServicePort>)

  datatype SetRef = SetRef(name: string, replicas: int, available: int)

  /** ClusterUpdateAction: an unset field leaves the status field as it is. */
  datatype Action = Action(
    nameonly clusterUuid: Option<string> := None,
    nameonly service: Option<ServiceRef> := None,
    nameonly headlessService: Option<string> := None,
    nameonly workerConfig: Option<string> := None,
    nameonly coordinatorConfig: Option<string> := None,
    nameonly catalogConfig: Option<string> := None,
    nameonly coordinatorSet: Option<string> := None,
    nameonly hpaName: Option<string> := None,
    nameonly workerSet: Option<SetRef> := None,
    nameonly clusterState: Option<ClusterState> := None,
    nameonly errorReason: Option<string> := None,
    nameonly coordinatorCpu: Option<string> := None,
    nameonly workerCpu: Option<string> := None)

  /** An action that leaves the cluster UUID alone. */
  type Note = a: Action | a.clusterUuid.None? witness Action()

  datatype Effect =
    | Created(key: Key)
    | Updated(key: Key)
    | Deleted(key: Key)
    | StatusWritten(pk: PKey, action: Action)

  /** A write of a cluster UUID or of any object other than status fields. */
  predicate IsMajor(e: Effect) {
    e.StatusWritten? ==> e.action.clusterUuid.Some?
  }

  datatype Version = Version(pk: PKey, presto: Presto)

  datatype Server = Server(
    objs: map<Key, Obj>,
    prestos: map<PKey, Presto>,
    pods: map<PKey, Pod>,
    clock: nat,
    log: seq<Effect>,
    minted: map<string, PKey>,
    held: set<Item>,
    versions: set<Version>)

  /** How the server answers a write: it may also apply it and lose the reply. */
  datatype WriteMode = Accept | Reject(error: Error) | LoseReply(error: Error)

  datatype Written = Written(s: Server, error: Option<Error>)

  function ReplyTo(m: WriteMode): Option<Error> {
    match m
    case Accept => None
    case Reject(e) => Some(e)
    case LoseReply(e) => Some(e)
  }

  function CreateObject(s: Server, k: Key, obj: Obj, m: WriteMode): (w: Written)
    ensures w.error.None? ==> k !in s.objs && k in w.s.objs
  {
    if m.Reject? then Written(s, Some(m.error))
    else if k in s.objs then Written(s, Some(Error(AlreadyExists, "already exists")))
    else
      Written(s.(objs := s.objs[k := obj.(rv := s.clock)],
                 held := s.held + {Item(k, obj.(rv := s.clock))},
                 clock := s.clock + 1,
                 log := s.log + [Created(k)]),
              ReplyTo(m))
  }

  /** Replaces an object, if the caller read its latest version. */
  function UpdateObject(s: Server, k: Key, obj: Obj, m: WriteMode): (w: Written)
    ensures w.error.None? ==> k in s.objs && s.objs[k].rv == obj.rv
  {
    if m.Reject? then Written(s, Some(m.error))
    else if k !in s.objs then Written(s, Some(Error(NotFound, "not found")))
    else if s.objs[k].rv != obj.rv then Written(s, Some(Error(Conflict, "conflict")))
    else
      Written(s.(objs := s.objs[k := obj.(rv := s.clock)],
                 held := s.held + {Item(k, obj.(rv := s.clock))},
                 clock := s.clock + 1,
                 log := s.log + [Updated(k)]),
              ReplyTo(m))
  }

  function DeleteObject(s: Server, k: Key, m: WriteMode): (w: Written)
    ensures w.error.None? ==> k in s.objs && k !in w.s.objs
  {
    if m.Reject? then Written(s, Some(m.error))
    else if k !in s.objs then Written(s, Some(Error(NotFound, "not found")))
    else
      Written(s.(objs := s.objs - {k}, log := s.log + [Deleted(k)]), ReplyTo(m))
  }

  /** Status().Update: only the status part of `copy` is taken, and only from the latest version. */
  function WriteStatus(s: Server, pk: PKey, copy: Presto, a: Action, m: WriteMode): (w: Written)
    ensures w.s.objs == s.objs
    ensures w.error.None? ==> pk in s.prestos && s.prestos[pk].rv == copy.rv
  {
    if m.Reject? then Written(s, Some(m.error))
    else if pk !in s.prestos then Written(s, Some(Error(NotFound, "not found")))
    else if s.prestos[pk].rv != copy.rv then Written(s, Some(Error(Conflict, "conflict")))
    else
      Written(s.(prestos := s.prestos[pk := s.prestos[pk].(status := copy.status, rv := s.clock)],
                 versions := s.versions + {Version(pk, s.prestos[pk].(status := copy.status, rv := s.clock))},
                 clock := s.clock + 1,
                 log := s.log + [StatusWritten(pk, a)],
                 minted := if a.clusterUuid.Some? then s.minted[a.clusterUuid.value := pk] else s.minted),
              ReplyTo(m))
  }
}
