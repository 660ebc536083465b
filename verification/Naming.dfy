/** Object names and label pairs, all of them functions of the cluster UUID. */
module Naming {
  import opened PrestoTypes

  /** The stages of the pipeline after the UUID gate, in the order Reconcile runs them. */
  datatype Role =
    | Headless
    | External
    | CoordConfig
    | WorkerConfig
    | CatalogConfig
    | CoordSet
    | WorkerSet
    | Autoscaler

  const PIPELINE: seq<Role> :=
    [Headless, External, CoordConfig, WorkerConfig, CatalogConfig, CoordSet, WorkerSet, Autoscaler]

  function Index(r: Role): (i: nat)
    ensures i < |PIPELINE| && PIPELINE[i] == r
  {
    match r
    case Headless => 0
    case External => 1
    case CoordConfig => 2
    case WorkerConfig => 3
    case CatalogConfig => 4
    case CoordSet => 5
    case WorkerSet => 6
    case Autoscaler => 7
  }

  lemma IndexOfStage(i: nat)
    requires i < |PIPELINE|
    ensures Index(PIPELINE[i]) == i
  {
  }

  /** Slicing the first eight characters panics in Go when there are fewer. */
  predicate Sliceable(u: string) {
    |u| >= 8
  }

  function Short(u: string): string
    requires Sliceable(u)
  {
    u[..8]
  }

  function PodDiscoveryServiceName(u: string): string requires Sliceable(u) { "pod-discovery-" + Short(u) }
  function ExternalServiceName(u: string): string requires Sliceable(u) { "external-presto-svc-" + Short(u) }
  function CoordinatorConfigMapName(u: string): string requires Sliceable(u) { "coordinatorconfig-" + Short(u) }
  function WorkerConfigMapName(u: string): string requires Sliceable(u) { "workerconfig-" + Short(u) }
  function CatalogConfigMapName(u: string): string requires Sliceable(u) { "catalogconfig-" + Short(u) }
  function CoordinatorReplicaSetName(u: string): string requires Sliceable(u) { "coordinatorreplicaset-" + Short(u) }
  function WorkerReplicaSetName(u: string): string requires Sliceable(u) { "workerreplicaset-" + Short(u) }
  function HpaName(u: string): string requires Sliceable(u) { "hpa-" + Short(u) }
  function CatalogVolumeName(u: string): string requires Sliceable(u) { "catalogvol-" + Short(u) }
  function HttpsSecretVolumeName(u: string): string requires Sliceable(u) { "httpssecret-" + Short(u) }
  function CoordinatorConfigVolumeName(u: string): string requires Sliceable(u) { "coordinatorconfvol-" + Short(u) }
  function WorkerConfigVolumeName(u: string): string requires Sliceable(u) { "workerconfvol-" + Short(u) }
  function CoordinatorContainerName(u: string): string requires Sliceable(u) { "coordinatorcontainer-" + Short(u) }
  function WorkerContainerName(u: string): string requires Sliceable(u) { "workerrcontainer-" + Short(u) }

  function CoordinatorInternalName(u: string): string
    requires Sliceable(u)
  {
    CoordinatorContainerName(u) + "." + PodDiscoveryServiceName(u)
  }

  // -------------------------------------------------------------- labels

  const UUID_KEY := "clusterUUID"
  const NAME_KEY := "clusterName"
  const DISCOVERY_KEY := "pod-discovery"
  const EXTERNAL_KEY := "external-presto-svc"
  const COORDINATOR_KEY := "coordinator"
  const WORKER_KEY := "worker"

  /** The label keys whose value, on an object the operator makes, is a cluster UUID. */
  const UUID_KEYS: set<string> := {UUID_KEY, DISCOVERY_KEY, EXTERNAL_KEY, COORDINATOR_KEY, WORKER_KEY}

  function BaseLabels(u: string, name: string): Labels {
    map[UUID_KEY := u, NAME_KEY := name]
  }

  /** The shared map once the headless stage has written its pair into it. */
  function DiscoveryLabels(u: string, name: string): Labels {
    BaseLabels(u, name)[DISCOVERY_KEY := u]
  }

  /** The shared map once the external-service stage has written its pair into it. */
  function ClusterLabels(u: string, name: string): Labels {
    DiscoveryLabels(u, name)[EXTERNAL_KEY := u]
  }

  function CoordinatorLabels(u: string, name: string): Labels {
    ClusterLabels(u, name)[COORDINATOR_KEY := u]
  }

  function WorkerLabels(u: string, name: string): Labels {
    ClusterLabels(u, name)[WORKER_KEY := u]
  }

  /** A label selector: every pair must be present. */
  predicate Matches(selector: Labels, labels: Labels) {
    forall k :: k in selector ==> k in labels && labels[k] == selector[k]
  }

  /** getCoordinatorPodLabels and getWorkerPodLabels: a new map, filled in any order, plus one pair. */
  method CopyLabels(base: Labels, key: string, value: string) returns (copy: Labels)
    ensures copy == base[key := value]
  {
    copy := map[];
    var rest := base.Keys;
    while rest != {}
      invariant rest <= base.Keys && copy.Keys == base.Keys - rest
      invariant forall k :: k in copy ==> copy[k] == base[k]
    {
      var k :| k in rest;
      copy := copy[k := base[k]];
      rest := rest - {k};
    }
    copy := copy[key := value];
  }
}
