/** What is in the objects the operator has made, in every run and in the words of the spec. */
module Contents {
  import opened PrestoTypes
  import opened Naming
  import opened Properties
  import opened Settings
  import opened ConfigFiles
  import opened Api
  import opened Pipeline
  import opened Invariants
  import opened Reads
  import opened Runs
  import opened Compiler

  // ---------------------------------------------------------------- pods

  function PathOf(spec: PrestoSpec): string {
    if spec.prestoPath == "" then "/etc/presto" else spec.prestoPath
  }

  /** The container: image, names, resources, and for a worker how it is stopped. */
  predicate ContainerSays(pod: PodSpec, coordinator: bool, u: string, spec: PrestoSpec, lib: Library)
    requires |u| >= 8
  {
    var limit := if coordinator then spec.coordinator.cpuLimit else spec.worker.cpuLimit;
    var request := if coordinator then spec.coordinator.cpuRequest else spec.worker.cpuRequest;
    && pod.image == (if spec.imageName == "" then "prestosql/presto:333" else spec.imageName)
    && pod.containerName == (if coordinator then "coordinatorcontainer-" else "workerrcontainer-") + u[..8]
    && pod.hostname == (if coordinator then "coordinatorcontainer-" + u[..8] else "")
    && pod.subdomain == (if coordinator then "pod-discovery-" + u[..8] else "")
    && pod.terminationGrace == (if coordinator then None
                                else if spec.worker.terminationGrace.None? then Some(7200)
                                else spec.worker.terminationGrace)
    && pod.preStop == (if coordinator then None else Some(["/bin/sh", PathOf(spec) + "/presto_shutdown.sh"]))
    && lib.parse(limit) == Ok(pod.limits.cpu)
    && pod.limits.memory.Some? && lib.parse(spec.worker.memoryLimit) == Ok(pod.limits.memory.value)
    && lib.parse(if request == "" then limit else request) == Ok(pod.requests.cpu)
    && pod.requests.memory == None
  }

  /** The source is mounted under that name, read-only, at the path. */
  predicate MountedAt(pod: PodSpec, name: string, path: string, source: VolumeSource) {
    Volume(name, source) in pod.volumes && Mount(name, true, path, "", None, "") in pod.mounts
  }

  /** The catalog map first, then one file for each secret. */
  predicate CatalogSources(sources: seq<Projection>, configMap: string, secrets: seq<CatalogSecret>) {
    && |sources| == |secrets| + 1 && sources[0] == ConfigMapProjection(configMap)
    && forall i :: 0 <= i < |secrets| ==>
         sources[i + 1]
         == SecretProjection(secrets[i].secretName,
                             [KeyToPath(secrets[i].secretKey, secrets[i].secretKey + ".properties")])
  }

  predicate HasUserVolume(pod: PodSpec, v: VolumeSpec) {
    && Volume(v.name, UserSource(v.source)) in pod.volumes
    && Mount(v.name, v.readOnly, v.mountPath, v.subPath, v.mountPropagation, v.subPathExpr) in pod.mounts
  }

  /** The volumes: configuration, catalogs, the HTTPS secret, the user's, and nothing else. */
  ghost predicate VolumesSay(pod: PodSpec, coordinator: bool, u: string, spec: PrestoSpec,
                             config: string, catalogs: string)
    requires |u| >= 8
  {
    var https := coordinator && spec.coordinator.httpsEnabled;
    var name := (if coordinator then "coordinatorconfvol-" else "workerconfvol-") + u[..8];
    var secret := SecretSource(spec.coordinator.httpsSecretName);
    && MountedAt(pod, name, PathOf(spec), Projected([ConfigMapProjection(config)]))
    && (exists sources :: CatalogSources(sources, catalogs, spec.catalogSecrets)
          && MountedAt(pod, "catalogvol-" + u[..8], PathOf(spec) + "/catalog/", Projected(sources)))
    && (https ==> MountedAt(pod, "httpssecret-" + u[..8], "/etc/httpssecret", secret))
    && (forall i :: 0 <= i < |spec.volumes| ==> HasUserVolume(pod, spec.volumes[i]))
    && |pod.volumes| == |pod.mounts| == |spec.volumes| + if https then 3 else 2
  }

  lemma ContainerBuilt(pod: PodSpec, coordinator: bool, u: string, spec: PrestoSpec, lib: Library)
    requires Sliceable(u) && PodFrom(pod, coordinator, u, spec, lib)
    ensures ContainerSays(pod, coordinator, u, spec, lib)
  {
    hide Pods.Volumes, Pods.Mounts;
    assert PrestoPath(spec) + "/" + SCRIPT_FILE == PathOf(spec) + "/presto_shutdown.sh";
  }

  lemma SourcesBuilt(u: string, spec: PrestoSpec)
    requires Sliceable(u)
    ensures CatalogSources(Catalogs.Projections(u, spec), CatalogConfigMapName(u), spec.catalogSecrets)
  {
  }

  lemma VolumesBuilt(pod: PodSpec, coordinator: bool, u: string, spec: PrestoSpec, lib: Library)
    requires Sliceable(u) && PodFrom(pod, coordinator, u, spec, lib)
    ensures
      var config := if coordinator then CoordinatorConfigMapName(u) else WorkerConfigMapName(u);
      VolumesSay(pod, coordinator, u, spec, config, CatalogConfigMapName(u))
  {
    hide Pods.BarePod, Catalogs.Projections, Pods.LimitsOf, Pods.RequestsOf, Pods.PodBuildable, CatalogSources;
    SourcesBuilt(u, spec);
    assert PrestoPath(spec) + Pods.CATALOG_PATH == PathOf(spec) + "/catalog/";
    assert pod.volumes[0] == Pods.CatalogVolume(u, spec) && pod.mounts[1] == Pods.CatalogMount(u, spec);
    assert pod.volumes[1] == Pods.PropsVolume(coordinator, u) && pod.mounts[0] == Pods.PropsMount(coordinator, u, spec);
    var n, https := |spec.volumes|, coordinator && spec.coordinator.httpsEnabled;
    if https {
      assert pod.volumes[n + 2] == Pods.HttpsVolume(u, spec) && pod.mounts[2] == Pods.HttpsMount(u);
    }
    forall i | 0 <= i < n
      ensures HasUserVolume(pod, spec.volumes[i])
    {
      assert pod.volumes[i + 2] == Pods.UserVolume(spec.volumes[i]);
      assert pod.mounts[i + if https then 3 else 2] == Pods.UserMount(spec.volumes[i]);
    }
  }

  /** The runs in which every call uses the compiler. */
  ghost predicate CompiledSteps(steps: seq<Step>, lib: Library) {
    Obeys(INIT, steps, (t, step) => Allowed(t, step) && UsesCompiler(step, lib))
  }

  lemma MadeInRun(steps: seq<Step>, lib: Library, r: Role, k: Key, u: string) returns (spec: PrestoSpec)
    requires CompiledSteps(steps, lib) && Holds(r, k, After(INIT, steps), u)
    ensures Sliceable(u)
    ensures spec in SpecsOf(After(INIT, steps), u) && Makes(r, After(INIT, steps).objs[k], u, spec, lib)
  {
    hide Allowed, UsesCompiler, Makes, SpecsOf, Take, IsRole;
    SliceableHolder(r, k, After(INIT, steps), u);
    MadeByCompiler(steps, lib);
    var obj := After(INIT, steps).objs[k];
    assert FromSpec(r, obj, u, lib, SpecsOf(After(INIT, steps), u));
    spec :| spec in SpecsOf(After(INIT, steps), u) && Makes(r, obj, u, spec, lib);
  }

  lemma SliceableHolder(r: Role, k: Key, s: Server, u: string)
    requires Holds(r, k, s, u)
    ensures Sliceable(u)
  {
  }

  /**
   In every run each ReplicaSet's pod is what one of the specs of its resource says: container,
   resources and hook, and at the Presto path exactly the configuration map of its own role and
   cluster, at the catalog path its catalog map and the secrets.
   */
  lemma PodsInEveryRun(steps: seq<Step>, lib: Library, r: Role, k: Key, u: string) returns (spec: PrestoSpec)
    requires CompiledSteps(steps, lib) && r in {CoordSet, WorkerSet} && Holds(r, k, After(INIT, steps), u)
    ensures Sliceable(u) && spec in SpecsOf(After(INIT, steps), u)
    ensures After(INIT, steps).objs[k].body.ReplicaSetBody?
    ensures
      var pod := After(INIT, steps).objs[k].body.template.pod;
      && ContainerSays(pod, r == CoordSet, u, spec, lib)
      && (forall c, d ::
            && Holds(if r == CoordSet then CoordConfig else WorkerConfig, c, After(INIT, steps), u)
            && Holds(CatalogConfig, d, After(INIT, steps), u)
            ==> VolumesSay(pod, r == CoordSet, u, spec, c.name, d.name))
  {
    hide CompiledSteps, SpecsOf, PodFrom, ContainerSays, VolumesSay, Take, Buildable;
    spec := MadeInRun(steps, lib, r, k, u);
    var pod := After(INIT, steps).objs[k].body.template.pod;
    ContainerBuilt(pod, r == CoordSet, u, spec, lib);
    VolumesBuilt(pod, r == CoordSet, u, spec, lib);
  }

  // ---------------------------------------------------------------- services and configuration maps

  /** In every run the external service is as a spec of its resource asks for, and the headless one has no address. */
  lemma ServicesInEveryRun(steps: seq<Step>, lib: Library, r: Role, k: Key, u: string) returns (spec: PrestoSpec)
    requires CompiledSteps(steps, lib) && r in {Headless, External} && Holds(r, k, After(INIT, steps), u)
    ensures spec in SpecsOf(After(INIT, steps), u) && After(INIT, steps).objs[k].body.ServiceBody?
    ensures
      var body := After(INIT, steps).objs[k].body;
      if r == Headless then body.clusterIp == "None" && body.ports == []
      else
        var port := ClientPort(spec);
        && body.clusterIp == spec.service.clusterIp && body.serviceType == spec.service.serviceType
        && body.ports == [ServicePort("presto-coordinator-port", port,
                                      if body.serviceType == "ClusterIP" then None else spec.service.nodePort, port)]
  {
    hide CompiledSteps, SpecsOf, Take;
    spec := MadeInRun(steps, lib, r, k, u);
  }

  /** In every run the files of a configuration map say what a spec of its resource asks for. */
  lemma ConfigsInEveryRun(steps: seq<Step>, lib: Library, r: Role, k: Key, u: string) returns (spec: PrestoSpec)
    requires CompiledSteps(steps, lib) && r in {CoordConfig, WorkerConfig} && Holds(r, k, After(INIT, steps), u)
    ensures Sliceable(u) && spec in SpecsOf(After(INIT, steps), u)
    ensures After(INIT, steps).objs[k].body.ConfigMapBody?
    ensures
      var data, coordinator := After(INIT, steps).objs[k].body.data, r == CoordConfig;
      && "config.properties" in data
      && (&& OneLine(Short(u)) && "config.properties" !in spec.propFiles && PlainProps(AdditionalFor(coordinator, spec))
          && (coordinator ==> PlainStrings(u, spec.coordinator)) ==>
            var file := Parse(data["config.properties"]);
            && (coordinator ==>
                  SaysCoordinator(file, u, spec) && (spec.coordinator.httpsEnabled ==> SaysHttps(file, spec)))
            && (!coordinator ==> SaysWorker(file, u, spec)))
  {
    hide CompiledSteps, SpecsOf, Take, Built, PlainProps, PlainStrings, OneLine, Parse;
    hide SaysCoordinator, SaysHttps, SaysWorker;
    spec := MadeInRun(steps, lib, r, k, u);
    var data := After(INIT, steps).objs[k].body.data;
    FilesSay(Ok(data), r == CoordConfig, u, spec, lib);
    if && OneLine(Short(u)) && "config.properties" !in spec.propFiles
       && PlainProps(AdditionalFor(r == CoordConfig, spec))
       && (r == CoordConfig ==> PlainStrings(u, spec.coordinator))
    {
      ConfigSays(Ok(data), r == CoordConfig, u, spec, lib);
    }
  }

  // ---------------------------------------------------------------- names and labels

  /** The name a role's object goes by; ReplicaSets get theirs from the API. */
  function NameSays(r: Role, u: string): Option<string>
    requires |u| >= 8
  {
    match r
    case Headless => Some("pod-discovery-" + u[..8])
    case External => Some("external-presto-svc-" + u[..8])
    case CoordConfig => Some("coordinatorconfig-" + u[..8])
    case WorkerConfig => Some("workerconfig-" + u[..8])
    case CatalogConfig => Some("catalogconfig-" + u[..8])
    case Autoscaler => Some("hpa-" + u[..8])
    case _ => None
  }

  function LabelsSay(r: Role, u: string, name: string): Labels {
    var shared := map["clusterUUID" := u, "clusterName" := name, "pod-discovery" := u];
    match r
    case Headless => shared
    case CoordSet => shared + map["external-presto-svc" := u, "coordinator" := u]
    case WorkerSet => shared + map["external-presto-svc" := u, "worker" := u]
    case _ => shared + map["external-presto-svc" := u]
  }

  lemma LabelsAre(u: string, name: string)
    ensures DiscoveryLabels(u, name) == LabelsSay(Headless, u, name)
    ensures forall r: Role :: r !in {Headless, CoordSet, WorkerSet} ==> ClusterLabels(u, name) == LabelsSay(r, u, name)
    ensures CoordinatorLabels(u, name) == LabelsSay(CoordSet, u, name)
    ensures WorkerLabels(u, name) == LabelsSay(WorkerSet, u, name)
  {
  }

  /** Whatever a cluster holds is in its namespace, owned by its resource, and named and labelled by its UUID. */
  lemma NamedAndLabelled(r: Role, k: Key, s: Server, u: string)
    requires Holds(r, k, s, u)
    ensures
      var owner := s.minted[u];
      && |u| >= 8 && k.ns == owner.ns && s.objs[k].owner.name == owner.name
      && (NameSays(r, u).Some? ==> k.name == NameSays(r, u).value)
      && s.objs[k].labels == LabelsSay(r, u, owner.name)
  {
    hide DiscoveryLabels, ClusterLabels, CoordinatorLabels, WorkerLabels, LabelsSay;
    LabelsAre(u, s.minted[u].name);
  }

  /** What is selected: headless by the first labels, external by the coordinator's, ReplicaSets by all of theirs. */
  lemma SelectorsSay(r: Role, k: Key, s: Server, u: string)
    requires Holds(r, k, s, u)
    ensures
      var labels, body := LabelsSay(r, u, s.minted[u].name), s.objs[k].body;
      && (r == Headless ==> body.ServiceBody? && body.selector == labels)
      && (r == External ==> body.ServiceBody? && body.selector == map["coordinator" := u])
      && (r in {CoordSet, WorkerSet} ==>
            body.ReplicaSetBody? && body.matchLabels == labels && body.template.labels == labels)
  {
    hide DiscoveryLabels, ClusterLabels, CoordinatorLabels, WorkerLabels, LabelsSay, ConfigName;
    LabelsAre(u, s.minted[u].name);
  }
}
