/** The pod specs: volumes and their mounts are appended in different orders and must agree. */
module Pods {
  import opened PrestoTypes
  import opened Naming
  import opened Settings
  import opened Catalogs
  import opened Properties
  import opened Text

  const DEFAULT_IMAGE := "prestosql/presto:333"
  const DEFAULT_GRACE := 7200
  const CATALOG_PATH := "/catalog/"

  // ---------------------------------------------------------------- the pieces

  function OperatorMount(name: string, path: string): Mount {
    Mount(name, true, path, "", None, "")
  }

  function CatalogVolume(u: string, spec: PrestoSpec): Volume
    requires Sliceable(u)
  {
    Volume(CatalogVolumeName(u), Projected(Projections(u, spec)))
  }

  function CatalogMount(u: string, spec: PrestoSpec): Mount
    requires Sliceable(u)
  {
    OperatorMount(CatalogVolumeName(u), PrestoPath(spec) + CATALOG_PATH)
  }

  function PropsVolumeName(coordinator: bool, u: string): string
    requires Sliceable(u)
  {
    if coordinator then CoordinatorConfigVolumeName(u) else WorkerConfigVolumeName(u)
  }

  function PropsVolume(coordinator: bool, u: string): Volume
    requires Sliceable(u)
  {
    var name := if coordinator then CoordinatorConfigMapName(u) else WorkerConfigMapName(u);
    Volume(PropsVolumeName(coordinator, u), Projected([ConfigMapProjection(name)]))
  }

  function PropsMount(coordinator: bool, u: string, spec: PrestoSpec): Mount
    requires Sliceable(u)
  {
    OperatorMount(PropsVolumeName(coordinator, u), PrestoPath(spec))
  }

  function HttpsVolume(u: string, spec: PrestoSpec): Volume
    requires Sliceable(u)
  {
    Volume(HttpsSecretVolumeName(u), SecretSource(spec.coordinator.httpsSecretName))
  }

  function HttpsMount(u: string): Mount
    requires Sliceable(u)
  {
    OperatorMount(HttpsSecretVolumeName(u), HTTPS_PATH)
  }

  function UserVolume(v: VolumeSpec): Volume {
    Volume(v.name, UserSource(v.source))
  }

  function UserMount(v: VolumeSpec): Mount {
    Mount(v.name, v.readOnly, v.mountPath, v.subPath, v.mountPropagation, v.subPathExpr)
  }

  function UserVolumes(vs: seq<VolumeSpec>): seq<Volume> {
    seq(|vs|, i requires 0 <= i < |vs| => UserVolume(vs[i]))
  }

  function UserMounts(vs: seq<VolumeSpec>): seq<Mount> {
    seq(|vs|, i requires 0 <= i < |vs| => UserMount(vs[i]))
  }

  // ---------------------------------------------------------------- the whole

  predicate HasHttps(coordinator: bool, spec: PrestoSpec) {
    coordinator && spec.coordinator.httpsEnabled
  }

  function Volumes(coordinator: bool, u: string, spec: PrestoSpec): seq<Volume>
    requires Sliceable(u)
  {
    [CatalogVolume(u, spec), PropsVolume(coordinator, u)] + UserVolumes(spec.volumes)
    + if HasHttps(coordinator, spec) then [HttpsVolume(u, spec)] else []
  }

  function Mounts(coordinator: bool, u: string, spec: PrestoSpec): seq<Mount>
    requires Sliceable(u)
  {
    [PropsMount(coordinator, u, spec), CatalogMount(u, spec)]
    + (if HasHttps(coordinator, spec) then [HttpsMount(u)] else []) + UserMounts(spec.volumes)
  }

  /** The spec before any volume is attached. */
  function BarePod(coordinator: bool, u: string, spec: PrestoSpec, limits: Resources, requests: Resources): (r: PodSpec)
    requires Sliceable(u)
    ensures r.volumes == [] && r.mounts == []
  {
    PodSpec(
      if coordinator then None
      else if spec.worker.terminationGrace.None? then Some(DEFAULT_GRACE) else spec.worker.terminationGrace,
      if coordinator then CoordinatorContainerName(u) else WorkerContainerName(u),
      if spec.imageName == "" then DEFAULT_IMAGE else spec.imageName,
      limits,
      requests,
      if coordinator then None else Some(["/bin/sh", PrestoPath(spec) + "/" + SCRIPT_FILE]),
      if coordinator then CoordinatorContainerName(u) else "",
      if coordinator then PodDiscoveryServiceName(u) else "",
      [],
      [])
  }

  function Pod(coordinator: bool, u: string, spec: PrestoSpec, limits: Resources, requests: Resources): (r: PodSpec)
    requires Sliceable(u)
    ensures r.limits == limits && r.requests == requests
  {
    BarePod(coordinator, u, spec, limits, requests).(
      volumes := Volumes(coordinator, u, spec), mounts := Mounts(coordinator, u, spec))
  }

  /** A pod spec the helpers append to in place. */
  class PodDraft {
    var spec: PodSpec

    constructor (bare: PodSpec)
      ensures spec == bare
    {
      spec := bare;
    }

    method AddVolume(v: Volume)
      modifies this
      ensures spec == old(spec).(volumes := old(spec).volumes + [v])
    {
      spec := spec.(volumes := spec.volumes + [v]);
    }

    method AddMount(m: Mount)
      modifies this
      ensures spec == old(spec).(mounts := old(spec).mounts + [m])
    {
      spec := spec.(mounts := spec.mounts + [m]);
    }

    method CatalogVolumeMount(u: string, presto: PrestoSpec) returns (m: Mount)
      requires Sliceable(u)
      modifies this
      ensures spec == old(spec).(volumes := old(spec).volumes + [CatalogVolume(u, presto)])
      ensures m == CatalogMount(u, presto)
    {
      var slots := FillProjections(u, presto);
      AddVolume(Volume(CatalogVolumeName(u), Projected(slots[..])));
      m := OperatorMount(CatalogVolumeName(u), PrestoPath(presto) + CATALOG_PATH);
    }

    method PropsVolumeMount(coordinator: bool, u: string, presto: PrestoSpec) returns (m: Mount)
      requires Sliceable(u)
      modifies this
      ensures spec == old(spec).(volumes := old(spec).volumes + [PropsVolume(coordinator, u)])
      ensures m == PropsMount(coordinator, u, presto)
    {
      var configMap, volume := WorkerConfigMapName(u), WorkerConfigVolumeName(u);
      if coordinator {
        configMap, volume := CoordinatorConfigMapName(u), CoordinatorConfigVolumeName(u);
      }
      AddVolume(Volume(volume, Projected([ConfigMapProjection(configMap)])));
      m := OperatorMount(volume, PrestoPath(presto));
    }

    method HttpsVolumeMount(u: string, presto: PrestoSpec) returns (m: Mount)
      requires Sliceable(u)
      modifies this
      ensures spec == old(spec).(volumes := old(spec).volumes + [HttpsVolume(u, presto)])
      ensures m == HttpsMount(u)
    {
      AddVolume(Volume(HttpsSecretVolumeName(u), SecretSource(presto.coordinator.httpsSecretName)));
      m := OperatorMount(HttpsSecretVolumeName(u), HTTPS_PATH);
    }

    method AddUserVolumes(vs: seq<VolumeSpec>)
      modifies this
      ensures spec == old(spec).(volumes := old(spec).volumes + UserVolumes(vs))
    {
      for i := 0 to |vs|
        invariant spec == old(spec).(volumes := old(spec).volumes + UserVolumes(vs[..i]))
      {
        AddVolume(Volume(vs[i].name, UserSource(vs[i].source)));
        assert UserVolumes(vs[..i + 1]) == UserVolumes(vs[..i]) + [UserVolume(vs[i])];
      }
      assert vs[..|vs|] == vs;
    }

    method AddUserMounts(vs: seq<VolumeSpec>)
      modifies this
      ensures spec == old(spec).(mounts := old(spec).mounts + UserMounts(vs))
    {
      for i := 0 to |vs|
        invariant spec == old(spec).(mounts := old(spec).mounts + UserMounts(vs[..i]))
      {
        var v := vs[i];
        AddMount(Mount(v.name, v.readOnly, v.mountPath, v.subPath, v.mountPropagation, v.subPathExpr));
        assert UserMounts(vs[..i + 1]) == UserMounts(vs[..i]) + [UserMount(v)];
      }
      assert vs[..|vs|] == vs;
    }
  }

  method CreatePodSpec(coordinator: bool, u: string, spec: PrestoSpec, limits: Resources, requests: Resources)
    returns (r: PodSpec)
    requires Sliceable(u)
    ensures r == Pod(coordinator, u, spec, limits, requests)
  {
    hide BarePod, CatalogVolume, PropsVolume, HttpsVolume, UserVolumes;
    hide CatalogMount, PropsMount, HttpsMount, UserMounts;
    var pod := new PodDraft(BarePod(coordinator, u, spec, limits, requests));
    var catalogMount := pod.CatalogVolumeMount(u, spec);
    var propsMount := pod.PropsVolumeMount(coordinator, u, spec);
    pod.AddUserVolumes(spec.volumes);
    pod.AddMount(propsMount);
    pod.AddMount(catalogMount);
    if coordinator && spec.coordinator.httpsEnabled {
      var httpsMount := pod.HttpsVolumeMount(u, spec);
      pod.AddMount(httpsMount);
    }
    pod.AddUserMounts(spec.volumes);
    r := pod.spec;
    assert r.volumes == Volumes(coordinator, u, spec);
    assert r.mounts == Mounts(coordinator, u, spec);
  }

  function ParseError(field: string, text: string, why: string): Error {
    OperatorError("cannot parse presto.Spec." + field + ": '" + text + "': " + why)
  }

  function CpuLimit(coordinator: bool, spec: PrestoSpec): string {
    if coordinator then spec.coordinator.cpuLimit else spec.worker.cpuLimit
  }

  /** The CPU request, which is the limit if none is given. */
  function CpuRequest(coordinator: bool, spec: PrestoSpec): string {
    var request := if coordinator then spec.coordinator.cpuRequest else spec.worker.cpuRequest;
    if request == "" then CpuLimit(coordinator, spec) else request
  }

  predicate PodBuildable(coordinator: bool, spec: PrestoSpec, lib: Library) {
    && lib.parse(CpuLimit(coordinator, spec)).Ok? && lib.parse(spec.worker.memoryLimit).Ok?
    && lib.parse(CpuRequest(coordinator, spec)).Ok?
  }

  function LimitsOf(coordinator: bool, spec: PrestoSpec, lib: Library): Resources
    requires PodBuildable(coordinator, spec, lib)
  {
    Resources(lib.parse(CpuLimit(coordinator, spec)).value, Some(lib.parse(spec.worker.memoryLimit).value))
  }

  function RequestsOf(coordinator: bool, spec: PrestoSpec, lib: Library): Resources
    requires PodBuildable(coordinator, spec, lib)
  {
    Resources(lib.parse(CpuRequest(coordinator, spec)).value, None)
  }

  /** getPrestoWorkerPod and getPrestoCoordinatorPodSpec; both take the worker's memory limit. */
  method PodSpecFor(coordinator: bool, u: string, spec: PrestoSpec, lib: Library) returns (r: Result<PodSpec, Error>)
    requires Sliceable(u)
    ensures r.Ok? <==> PodBuildable(coordinator, spec, lib)
    ensures
      var cpu, memory := lib.parse(CpuLimit(coordinator, spec)), lib.parse(spec.worker.memoryLimit);
      var asked, who := lib.parse(CpuRequest(coordinator, spec)), if coordinator then "Coordinator" else "Worker";
      r == if cpu.Err? then Err(ParseError(who + ".CpuLimit", CpuLimit(coordinator, spec), cpu.error))
           else if memory.Err? then Err(ParseError("Worker.MemoryLimit", spec.worker.memoryLimit, memory.error))
           else if asked.Err? then Err(ParseError(who + ".CpuRequest", CpuRequest(coordinator, spec), asked.error))
           else Ok(Pod(coordinator, u, spec, LimitsOf(coordinator, spec, lib), RequestsOf(coordinator, spec, lib)))
  {
    var who := if coordinator then "Coordinator" else "Worker";
    var limit := if coordinator then spec.coordinator.cpuLimit else spec.worker.cpuLimit;
    var request := if coordinator then spec.coordinator.cpuRequest else spec.worker.cpuRequest;
    var cpu := lib.parse(limit);
    if cpu.Err? {
      return Err(ParseError(who + ".CpuLimit", limit, cpu.error));
    }
    var memory := lib.parse(spec.worker.memoryLimit);
    if memory.Err? {
      return Err(ParseError("Worker.MemoryLimit", spec.worker.memoryLimit, memory.error));
    }
    var asked := cpu.value;
    if request != "" {
      var parsed := lib.parse(request);
      if parsed.Err? {
        return Err(ParseError(who + ".CpuRequest", request, parsed.error));
      }
      asked := parsed.value;
    }
    var pod := CreatePodSpec(coordinator, u, spec, Resources(cpu.value, Some(memory.value)), Resources(asked, None));
    return Ok(pod);
  }

  // ---------------------------------------------------------------- referential integrity

  function VolumeNames(vs: seq<Volume>): seq<string> {
    seq(|vs|, i requires 0 <= i < |vs| => vs[i].name)
  }

  function MountNames(ms: seq<Mount>): seq<string> {
    seq(|ms|, i requires 0 <= i < |ms| => ms[i].name)
  }

  function UserNames(vs: seq<VolumeSpec>): seq<string> {
    seq(|vs|, i requires 0 <= i < |vs| => vs[i].name)
  }

  function HttpsNames(coordinator: bool, u: string, spec: PrestoSpec): seq<string>
    requires Sliceable(u)
  {
    if HasHttps(coordinator, spec) then [HttpsSecretVolumeName(u)] else []
  }

  lemma NamesOfVolumes(coordinator: bool, u: string, spec: PrestoSpec)
    requires Sliceable(u)
    ensures VolumeNames(Volumes(coordinator, u, spec))
         == [CatalogVolumeName(u), PropsVolumeName(coordinator, u)] + UserNames(spec.volumes)
            + HttpsNames(coordinator, u, spec)
  {
    hide CatalogVolumeName, PropsVolumeName, HttpsSecretVolumeName, Projections;
  }

  lemma NamesOfMounts(coordinator: bool, u: string, spec: PrestoSpec)
    requires Sliceable(u)
    ensures MountNames(Mounts(coordinator, u, spec))
         == [PropsVolumeName(coordinator, u), CatalogVolumeName(u)] + HttpsNames(coordinator, u, spec)
            + UserNames(spec.volumes)
  {
    hide CatalogVolumeName, PropsVolumeName, HttpsSecretVolumeName, Projections;
  }

  /** Every volume is mounted as often as it is declared, and nothing else is. */
  lemma MountsMatchVolumes(coordinator: bool, u: string, spec: PrestoSpec)
    requires Sliceable(u)
    ensures multiset(MountNames(Mounts(coordinator, u, spec))) == multiset(VolumeNames(Volumes(coordinator, u, spec)))
  {
    hide CatalogVolumeName, PropsVolumeName, HttpsNames, UserNames, Volumes, Mounts, VolumeNames, MountNames;
    NamesOfVolumes(coordinator, u, spec);
    NamesOfMounts(coordinator, u, spec);
    var a, b := CatalogVolumeName(u), PropsVolumeName(coordinator, u);
    var user, https := UserNames(spec.volumes), HttpsNames(coordinator, u, spec);
    assert multiset([a, b] + user + https) == multiset{a, b} + multiset(user) + multiset(https);
    assert multiset([b, a] + https + user) == multiset{a, b} + multiset(user) + multiset(https);
  }

  predicate Distinct(names: seq<string>) {
    forall i, j :: 0 <= i < j < |names| ==> names[i] != names[j]
  }

  lemma OperatorNamesDiffer(coordinator: bool, u: string)
    requires Sliceable(u)
    ensures CatalogVolumeName(u) != PropsVolumeName(coordinator, u)
    ensures CatalogVolumeName(u) != HttpsSecretVolumeName(u)
    ensures PropsVolumeName(coordinator, u) != HttpsSecretVolumeName(u)
  {
    assert CatalogVolumeName(u)[0] == 'c' && CatalogVolumeName(u)[1] == 'a';
    assert CoordinatorConfigVolumeName(u)[0] == 'c' && CoordinatorConfigVolumeName(u)[1] == 'o';
    assert WorkerConfigVolumeName(u)[0] == 'w' && HttpsSecretVolumeName(u)[0] == 'h';
  }

  predicate OperatorName(coordinator: bool, u: string, spec: PrestoSpec, name: string)
    requires Sliceable(u)
  {
    || name == CatalogVolumeName(u)
    || name == PropsVolumeName(coordinator, u)
    || (HasHttps(coordinator, spec) && name == HttpsSecretVolumeName(u))
  }

  /** The user's volumes are named apart from each other and from the operator's. */
  predicate UserNamesApart(coordinator: bool, u: string, spec: PrestoSpec)
    requires Sliceable(u)
  {
    && Distinct(UserNames(spec.volumes))
    && forall i :: 0 <= i < |spec.volumes| ==> !OperatorName(coordinator, u, spec, spec.volumes[i].name)
  }

  predicate Apart(a: seq<string>, b: seq<string>) {
    forall i, j :: 0 <= i < |a| && 0 <= j < |b| ==> a[i] != b[j]
  }

  lemma DistinctBoth(a: seq<string>, b: seq<string>)
    ensures Distinct(a + b) <==> Distinct(a) && Distinct(b) && Apart(a, b)
  {
    var all := a + b;
    assert forall i :: 0 <= i < |a| ==> all[i] == a[i];
    assert forall j :: 0 <= j < |b| ==> b[j] == all[|a| + j];
  }

  lemma DistinctThree(front: seq<string>, user: seq<string>, back: seq<string>)
    ensures Distinct(front + user + back)
       <==> && Distinct(front) && Distinct(user) && Distinct(back)
            && Apart(front, user) && Apart(front, back) && Apart(user, back)
  {
    DistinctBoth(front, user + back);
    DistinctBoth(user, back);
    assert front + user + back == front + (user + back);
    assert Apart(front, user + back) <==> Apart(front, user) && Apart(front, back) by {
      assert forall j :: 0 <= j < |user| ==> user[j] == (user + back)[j];
      assert forall j :: 0 <= j < |back| ==> back[j] == (user + back)[|user| + j];
    }
  }

  /** All volume names of a pod differ exactly if the user's do. */
  lemma VolumesDistinctIff(coordinator: bool, u: string, spec: PrestoSpec)
    requires Sliceable(u)
    ensures Distinct(VolumeNames(Volumes(coordinator, u, spec))) <==> UserNamesApart(coordinator, u, spec)
  {
    hide CatalogVolumeName, PropsVolumeName, HttpsSecretVolumeName, Volumes, VolumeNames;
    NamesOfVolumes(coordinator, u, spec);
    OperatorNamesDiffer(coordinator, u);
    var front := [CatalogVolumeName(u), PropsVolumeName(coordinator, u)];
    var user, https := UserNames(spec.volumes), HttpsNames(coordinator, u, spec);
    DistinctThree(front, user, https);
    assert Distinct(front) && Distinct(https) && Apart(front, https);
    UserApart(coordinator, u, spec);
  }

  lemma UserApart(coordinator: bool, u: string, spec: PrestoSpec)
    requires Sliceable(u)
    ensures Apart([CatalogVolumeName(u), PropsVolumeName(coordinator, u)], UserNames(spec.volumes))
         && Apart(UserNames(spec.volumes), HttpsNames(coordinator, u, spec))
       <==> forall i :: 0 <= i < |spec.volumes| ==> !OperatorName(coordinator, u, spec, spec.volumes[i].name)
  {
    hide CatalogVolumeName, PropsVolumeName, HttpsSecretVolumeName;
    var front := [CatalogVolumeName(u), PropsVolumeName(coordinator, u)];
    var user, https := UserNames(spec.volumes), HttpsNames(coordinator, u, spec);
    if Apart(front, user) && Apart(user, https) {
      forall i | 0 <= i < |spec.volumes|
        ensures !OperatorName(coordinator, u, spec, spec.volumes[i].name)
      {
        assert front[0] != user[i] && front[1] != user[i];
        assert https != [] ==> user[i] != https[0];
      }
    }
  }

  /** With HTTPS on, the configured keystore path lies in the mounted secret, which has a name. */
  lemma KeystoreIsMounted(u: string, spec: PrestoSpec)
    requires Sliceable(u) && spec.coordinator.httpsEnabled && SystemProps(u, spec).Ok?
    ensures KEYSTORE_PATH in SystemProps(u, spec).value && spec.coordinator.httpsSecretName != ""
    ensures HttpsVolume(u, spec) in Volumes(true, u, spec) && HttpsMount(u) in Mounts(true, u, spec)
    ensures HttpsVolume(u, spec).name == HttpsMount(u).name
    ensures SystemProps(u, spec).value[KEYSTORE_PATH] == HttpsMount(u).mountPath + "/" + spec.coordinator.httpsSecretKey
  {
    hide Decimal, CoordinatorUri, CoordinatorInternalName, Projections;
    var vs, ms := Volumes(true, u, spec), Mounts(true, u, spec);
    assert vs[|vs| - 1] == HttpsVolume(u, spec);
    assert ms[2] == HttpsMount(u);
  }

  /** The worker's stop hook names a file that its configuration volume brings into the pod. */
  lemma StopHookIsMounted(r: Result<map<string, string>, Error>, u: string, spec: PrestoSpec, lib: Library,
                          limits: Resources, requests: Resources)
    requires Sliceable(u) && Built(r, false, u, spec, lib) && r.Ok?
    ensures
      var pod := Pod(false, u, spec, limits, requests);
      var mount, volume := PropsMount(false, u, spec), PropsVolume(false, u);
      && SCRIPT_FILE in r.value
      && mount in pod.mounts && volume in pod.volumes && mount.name == volume.name
      && volume.source == Projected([ConfigMapProjection(WorkerConfigMapName(u))])
      && pod.preStop == Some(["/bin/sh", mount.mountPath + "/" + SCRIPT_FILE])
  {
    hide Projections, CoordinatorUri, Decimal, RendersBoth;
    var pod := Pod(false, u, spec, limits, requests);
    assert pod.mounts[0] == PropsMount(false, u, spec) && pod.volumes[1] == PropsVolume(false, u);
  }

  /** The address the configurations use for the coordinator is the name its pod answers to. */
  lemma AddressIsHost(u: string, spec: PrestoSpec, limits: Resources, requests: Resources)
    requires Sliceable(u) && SystemProps(u, spec).Ok?
    ensures
      var pod, props := Pod(true, u, spec, limits, requests), SystemProps(u, spec).value;
      && "node.internal-address" in props && props["node.internal-address"] == pod.hostname + "." + pod.subdomain
      && HTTP_PORT in props
      && WorkerProps(u, spec)[DISCOVERY_URI]
         == "http://" + (pod.hostname + "." + pod.subdomain) + ":" + props[HTTP_PORT]
  {
    hide Decimal, Volumes, Mounts, CoordinatorContainerName, PodDiscoveryServiceName;
    PortsAgree(u, spec);
  }
}
