/** The custom resource and the pieces of a pod, as plain values. */
module PrestoTypes {

  datatype Option<+T> = None | Some(value: T)

  datatype Result<+T, +E> = Ok(value: T) | Err(error: E)

  /** Why an API call (or the operator itself) refused. */
  datatype Reason = NotFound | AlreadyExists | Conflict | OtherReason

  datatype Error = Error(reason: Reason, msg: string)

  type Labels = map<string, string>

  // ---------------------------------------------------------------- spec

  datatype AutoscalingSpec = AutoscalingSpec(
    enabled: Option<bool>,
    minReplicas: Option<int>,
    maxReplicas: Option<int>,
    targetCpu: Option<int>)

  datatype WorkerSpec = WorkerSpec(
    memoryLimit: string,
    additionalJvm: string,
    additionalProps: map<string, string>,
    cpuLimit: string,
    cpuRequest: string,
    terminationGrace: Option<int>,
    count: Option<int>,
    autoscaling: AutoscalingSpec)

  datatype CoordinatorSpec = CoordinatorSpec(
    memoryLimit: string,
    additionalJvm: string,
    additionalProps: map<string, string>,
    cpuLimit: string,
    cpuRequest: string,
    httpsEnabled: bool,
    httpsSecretName: string,
    httpsSecretKey: string,
    httpsPassword: string)

  datatype CatalogSpec = CatalogSpec(name: string, content: map<string, string>)

  datatype CatalogSecret = CatalogSecret(secretName: string, secretKey: string)

  datatype ServiceSpec = ServiceSpec(
    serviceType: string,
    clusterIp: string,
    port: Option<int>,
    nodePort: Option<int>)

  datatype VolumeSpec = VolumeSpec(
    name: string,
    source: string,
    readOnly: bool,
    mountPath: string,
    subPath: string,
    mountPropagation: Option<string>,
    subPathExpr: string)

  datatype PrestoSpec = PrestoSpec(
    coordinator: CoordinatorSpec,
    worker: WorkerSpec,
    catalogSecrets: seq<CatalogSecret>,
    catalogs: seq<CatalogSpec>,
    service: ServiceSpec,
    imageName: string,
    prestoPath: string,
    propFiles: map<string, string>,
    volumes: seq<VolumeSpec>)

  // -------------------------------------------------------------- status

  datatype ClusterState = ClusterFailed | ClusterReady | ClusterPending | ClusterUnknown

  datatype Status = Status(
    uuid: string,
    desiredWorkers: int,
    currentWorkers: int,
    headlessService: string,
    service: string,
    coordinatorAddress: string,
    catalogConfig: string,
    coordinatorConfig: string,
    workerConfig: string,
    workerReplicaset: string,
    coordinatorReplicaset: string,
    hpaName: string,
    clusterState: Option<ClusterState>,
    errorReason: string,
    coordinatorCpu: string,
    workerCpu: string)

  datatype Presto = Presto(
    uid: string,
    labels: Labels,
    spec: PrestoSpec,
    status: Status,
    rv: nat,
    generation: nat)

  /** A namespaced name. */
  datatype PKey = PKey(ns: string, name: string)

  // ---------------------------------------------------------------- pods

  datatype Quantity = Quantity(value: int, milli: int)

  datatype Resources = Resources(cpu: Quantity, memory: Option<Quantity>)

  datatype KeyToPath = KeyToPath(key: string, path: string)

  datatype Projection =
    | ConfigMapProjection(name: string)
    | SecretProjection(name: string, items: seq<KeyToPath>)

  datatype VolumeSource =
    | Projected(sources: seq<Projection>)
    | SecretSource(secretName: string)
    | UserSource(source: string)

  datatype Volume = Volume(name: string, source: VolumeSource)

  datatype Mount = Mount(
    name: string,
    readOnly: bool,
    mountPath: string,
    subPath: string,
    mountPropagation: Option<string>,
    subPathExpr: string)

  datatype PodSpec = PodSpec(
    terminationGrace: Option<int>,
    containerName: string,
    image: string,
    limits: Resources,
    requests: Resources,
    preStop: Option<seq<string>>,
    hostname: string,
    subdomain: string,
    volumes: seq<Volume>,
    mounts: seq<Mount>)

  datatype ServicePort = ServicePort(name: string, port: int, nodePort: Option<int>, targetPort: int)
}
