/**
 The configuration compiler inside the control loop: every object the operator has made, in every
 run, carries the output of the compiler for some spec of its resource, and what the compiler
 validates in one stage holds for the objects of the later ones.
 */
module Compiler {
  import opened PrestoTypes
  import opened Naming
  import opened Api
  import opened Pipeline
  import opened NormalForm
  import opened Invariants
  import opened Reads
  import opened Runs
  import opened Holders
  import opened Calls
  import opened Readiness
  import opened Settings
  import opened Catalogs
  import Pods
  import opened Convergence

  ghost predicate PodMade(r: Result<PodSpec, Error>, coordinator: bool, u: string, spec: PrestoSpec, lib: Library)
    requires Sliceable(u)
  {
    && (r.Ok? <==> Pods.PodBuildable(coordinator, spec, lib))
    && (r.Ok? ==> PodFrom(r.value, coordinator, u, spec, lib))
  }

  ghost predicate PodFrom(pod: PodSpec, coordinator: bool, u: string, spec: PrestoSpec, lib: Library)
    requires Sliceable(u)
  {
    Pods.PodBuildable(coordinator, spec, lib) &&
    pod == Pods.Pod(coordinator, u, spec,
                    Pods.LimitsOf(coordinator, spec, lib), Pods.RequestsOf(coordinator, spec, lib))
  }

  /** The plan is what the compiler makes of the spec, for some iteration order of every map. */
  ghost predicate Compiled(plan: Plan, u: string, spec: PrestoSpec, lib: Library)
    requires Sliceable(u)
  {
    && plan.ports == [ServicePortOf(spec)]
    && Built(plan.coordConfig, true, u, spec, lib)
    && Built(plan.workerConfig, false, u, spec, lib)
    && CatalogData(plan.catalogConfig, spec)
    && PodMade(plan.coordPod, true, u, spec, lib)
    && PodMade(plan.workerPod, false, u, spec, lib)
  }

  method Compile(u: string, spec: PrestoSpec, lib: Library) returns (plan: Plan)
    requires Sliceable(u)
    ensures Compiled(plan, u, spec, lib)
  {
    hide Built, CatalogData, Pods.Pod, Pods.PodBuildable;
    var coordConfig := BuildConfigMap(true, u, spec, lib);
    var workerConfig := BuildConfigMap(false, u, spec, lib);
    var catalogs := BuildCatalogs(spec);
    var coordPod := Pods.PodSpecFor(true, u, spec, lib);
    var workerPod := Pods.PodSpecFor(false, u, spec, lib);
    plan := Plan([ServicePortOf(spec)], coordConfig, workerConfig, catalogs, coordPod, workerPod);
  }

  /** What a user has to get right for every stage to have something to create. */
  predicate Compilable(u: string, spec: PrestoSpec, lib: Library)
    requires Sliceable(u)
  {
    && Buildable(true, u, spec, lib) && Buildable(false, u, spec, lib)
    && Pods.PodBuildable(true, spec, lib) && Pods.PodBuildable(false, spec, lib)
  }

  /** The conditions do not depend on the UUID the cluster gets. */
  lemma CompilableForAll(u: string, u': string, spec: PrestoSpec, lib: Library)
    requires Sliceable(u) && Sliceable(u') && Compilable(u, spec, lib)
    ensures Compilable(u', spec, lib)
  {
    hide Pods.PodBuildable, SystemProps, WorkerProps;
    SameKeys(true, u, u', spec);
    SameKeys(false, u, u', spec);
  }

  lemma SameKeys(coordinator: bool, u: string, u': string, spec: PrestoSpec)
    requires Sliceable(u) && Sliceable(u')
    ensures PropsFor(coordinator, u, spec).Ok? <==> PropsFor(coordinator, u', spec).Ok?
    ensures PropsFor(coordinator, u, spec).Ok? ==>
              PropsFor(coordinator, u, spec).value.Keys == PropsFor(coordinator, u', spec).value.Keys
  {
    hide CoordinatorUri, CoordinatorInternalName, HttpPorts;
  }

  lemma PlanValidIff(plan: Plan, u: string, spec: PrestoSpec, lib: Library)
    requires Sliceable(u) && Compiled(plan, u, spec, lib)
    ensures ValidPlan(plan) <==> Compilable(u, spec, lib)
  {
  }

  // ---------------------------------------------------------------- over whole runs

  /** The object holds the compiler's output for its role and this spec. */
  ghost predicate Makes(r: Role, obj: Obj, u: string, spec: PrestoSpec, lib: Library)
    requires Sliceable(u)
  {
    match r
    case Headless => obj.body.ServiceBody? && obj.body.clusterIp == "None" && obj.body.ports == []
    case External =>
      && obj.body.ServiceBody? && obj.body.ports == [ServicePortOf(spec)]
      && obj.body.clusterIp == spec.service.clusterIp && obj.body.serviceType == spec.service.serviceType
    case CoordConfig => obj.body.ConfigMapBody? && Built(Ok(obj.body.data), true, u, spec, lib)
    case WorkerConfig => obj.body.ConfigMapBody? && Built(Ok(obj.body.data), false, u, spec, lib)
    case CatalogConfig => obj.body.ConfigMapBody? && CatalogData(obj.body.data, spec)
    case CoordSet =>
      // its configuration was built first
      obj.body.ReplicaSetBody? && PodFrom(obj.body.template.pod, true, u, spec, lib) && Buildable(true, u, spec, lib)
    case WorkerSet =>
      obj.body.ReplicaSetBody? && PodFrom(obj.body.template.pod, false, u, spec, lib)
    case _ => true
  }

  /** The specs the resource of cluster u has ever had. */
  ghost function SpecsOf(s: Server, u: string): set<PrestoSpec> {
    set w | w in s.versions && u in s.minted && w.pk == s.minted[u] :: w.presto.spec
  }

  /** The object holds the compiler's output for one of these specs. */
  ghost predicate FromSpec(r: Role, obj: Obj, u: string, lib: Library, specs: set<PrestoSpec>)
    requires Sliceable(u)
  {
    exists spec :: spec in specs && Makes(r, obj, u, spec, lib)
  }

  ghost predicate AllFromSpec(s: Server, lib: Library) {
    forall r: Role, k: Key, u: string :: Holds(r, k, s, u) ==> FromSpec(r, s.objs[k], u, lib, SpecsOf(s, u))
  }

  /** The call used the compiler on the copy it had read. */
  ghost predicate UsesCompiler(step: Step, lib: Library) {
    step.Call? && step.o.get.Found? && Sliceable(step.o.get.presto.status.uuid) ==>
      Compiled(step.o.plan, step.o.get.presto.status.uuid, step.o.get.presto.spec, lib)
  }

  lemma CompiledConfigBuilds(plan: Plan, u: string, spec: PrestoSpec, lib: Library)
    requires Sliceable(u) && Compiled(plan, u, spec, lib)
    ensures plan.coordConfig.Ok? ==> Buildable(true, u, spec, lib)
  {
  }

  lemma MadeFromSpec(r: Role, obj: Obj, pk: PKey, p: Presto, o: Oracle, lib: Library)
    requires Sliceable(p.status.uuid) && Compiled(o.plan, p.status.uuid, p.spec, lib)
    requires FirstOpen(0, pk, p, o) == Index(r) && BuiltFor(r, obj, pk, p, o)
    ensures Makes(r, obj, p.status.uuid, p.spec, lib)
  {
    hide Built, CatalogData, Pods.Pod, Buildable, Pods.PodBuildable;
    if r == CoordSet {
      CompiledConfigBuilds(o.plan, p.status.uuid, p.spec, lib);
      assert Passes(PIPELINE[2], pk, p, o);
    }
  }

  /** The same payload, replicas and autoscaler numbers aside. */
  ghost predicate SameLoad(r: Role, obj: Obj, obj': Obj) {
    || obj'.body == obj.body
    || (obj.body.ReplicaSetBody? && obj'.body.ReplicaSetBody? && obj'.body.template == obj.body.template)
    || r.Autoscaler?
  }

  /** An object of the same role with the same payload, at a later time, is as good. */
  lemma SamePayload(r: Role, obj: Obj, obj': Obj, u: string, lib: Library, s: Server, s': Server)
    requires Sliceable(u) && u in s.minted && NewsIsCurrent(s, s') && SameLoad(r, obj, obj')
    requires FromSpec(r, obj, u, lib, SpecsOf(s, u))
    ensures FromSpec(r, obj', u, lib, SpecsOf(s', u))
  {
    hide Built, CatalogData, PodFrom, ServicePortOf, Unused;
    var spec :| spec in SpecsOf(s, u) && Makes(r, obj, u, spec, lib);
    assert spec in SpecsOf(s', u) && Makes(r, obj', u, spec, lib);
  }

  lemma CallKeepsFromSpec(s: Server, pk: PKey, o: Oracle, lib: Library)
    requires Inv(s) && Honest(s, pk, o) && UsesCompiler(Call(pk, o), lib) && AllFromSpec(s, lib)
    ensures AllFromSpec(Reconcile(s, pk, o).s, lib)
  {
    hide FromSpec, Compiled, Reconcile, Inv, NewsIsCurrent, SpecsOf;
    var c, v := CallMoves(s, pk, o);
    CallNews(s, pk, o);
    var s' := Reconcile(s, pk, o).s;
    forall r: Role, k: Key, u: string | Holds(r, k, s', u)
      ensures FromSpec(r, s'.objs[k], u, lib, SpecsOf(s', u))
    {
      assert HeldAfter(r, k, u, c, s, v);
      ChangeFromSpec(c, v, r, k, u, s, pk, o, lib);
    }
  }

  /** What a call does not create it leaves with its payload; only an autoscaler may be retuned. */
  lemma KeptLoad(c: Change, v: string, r: Role, k: Key, u: string, s: Server, pk: PKey, o: Oracle)
    requires Accounts(c, v, s, pk, o) && !(c.Made? && k == c.key)
    requires HeldAfter(r, k, u, c, s, v) && Holds(r, k, Reconcile(s, pk, o).s, u)
    ensures k in s.objs && SameLoad(r, s.objs[k], Reconcile(s, pk, o).s.objs[k])
  {
    hide Reconcile, FirstOpen, BuiltFor, NothingFound, Moves, Passes, IsRole;
    var s' := Reconcile(s, pk, o).s;
    if c.Retuned? && k == c.key {
      RoleIsUnique(r, Autoscaler, k, s'.objs[k], u, v, s'.minted[u].name, pk.name);
    }
  }

  lemma ChangeFromSpec(c: Change, v: string, r: Role, k: Key, u: string, s: Server, pk: PKey, o: Oracle, lib: Library)
    requires UsesCompiler(Call(pk, o), lib) && AllFromSpec(s, lib) && Accounts(c, v, s, pk, o)
    requires NewsIsCurrent(s, Reconcile(s, pk, o).s) && (o.get.Found? ==> Version(pk, o.get.presto) in s.versions)
    requires HeldAfter(r, k, u, c, s, v) && Holds(r, k, Reconcile(s, pk, o).s, u)
    ensures FromSpec(r, Reconcile(s, pk, o).s.objs[k], u, lib, SpecsOf(Reconcile(s, pk, o).s, u))
  {
    hide FromSpec, Compiled, Reconcile, FirstOpen, BuiltFor, NothingFound, Moves, Unused, SpecsOf;
    var s' := Reconcile(s, pk, o).s;
    if c.Made? && k == c.key {
      MadeFromSpec(r, c.obj, pk, o.get.presto, o, lib);
      ReadSpecIsOne(r, c.obj, s, s', pk, o.get.presto, lib);
    } else {
      KeptLoad(c, v, r, k, u, s, pk, o);
      SamePayload(r, s.objs[k], s'.objs[k], u, lib, s, s');
    }
  }

  lemma ReadSpecIsOne(r: Role, obj: Obj, s: Server, s': Server, pk: PKey, p: Presto, lib: Library)
    requires Sliceable(p.status.uuid) && p.status.uuid in s.minted && s.minted[p.status.uuid] == pk
    requires NewsIsCurrent(s, s') && Version(pk, p) in s.versions && Makes(r, obj, p.status.uuid, p.spec, lib)
    ensures FromSpec(r, obj, p.status.uuid, lib, SpecsOf(s', p.status.uuid))
  {
    hide Makes, Unused;
    assert Version(pk, p) in s'.versions;
    assert p.spec in SpecsOf(s', p.status.uuid);
  }

  lemma OutsideKeepsFromSpec(s: Server, step: Step, lib: Library)
    requires Inv(s) && Allowed(s, step) && !step.Call? && AllFromSpec(s, lib)
    ensures AllFromSpec(Take(s, step), lib)
  {
    hide FromSpec, Inv, Allowed, Take, SpecsOf, NewsIsCurrent;
    OutsideMoves(s, step);
    OutsideNews(s, step);
    var c := if step.OutsideDelete? then Removed(step.key) else Nothing;
    var s' := Take(s, step);
    forall r: Role, k: Key, u: string | Holds(r, k, s', u)
      ensures FromSpec(r, s'.objs[k], u, lib, SpecsOf(s', u))
    {
      assert HeldAfter(r, k, u, c, s, "");
      OutsideKeepsPayload(s, step, r, k, u);
      SamePayload(r, s.objs[k], s'.objs[k], u, lib, s, s');
    }
  }

  lemma OutsideKeepsPayload(s: Server, step: Step, r: Role, k: Key, u: string)
    requires !step.Call? && Holds(r, k, s, u) && Holds(r, k, Take(s, step), u)
    ensures SameLoad(r, s.objs[k], Take(s, step).objs[k])
  {
    hide Reconcile;
  }

  /**
   In every run whose calls use the compiler, each object the operator made carries the compiler's
   output, for its role and some spec its resource has had; a coordinator's pod comes only from one
   whose configuration is valid.
   */
  lemma MadeByCompiler(steps: seq<Step>, lib: Library)
    requires Obeys(INIT, steps, (t, step) => Allowed(t, step) && UsesCompiler(step, lib))
    ensures AllFromSpec(After(INIT, steps), lib)
  {
    hide FromSpec, Compiled, Take, Inv, Allowed;
    var rule: Rule := (t, step) => Allowed(t, step) && UsesCompiler(step, lib);
    var P := (t: Server) => Inv(t) && AllFromSpec(t, lib);
    forall t: Server, step: Step | P(t) && rule(t, step)
      ensures P(Take(t, step))
    {
      StepKeepsInv(t, step);
      StepKeepsFromSpec(t, step, lib);
    }
    InitHolds();
    HoldsThroughout(INIT, steps, P, rule);
  }

  lemma StepKeepsFromSpec(s: Server, step: Step, lib: Library)
    requires Inv(s) && Allowed(s, step) && UsesCompiler(step, lib) && AllFromSpec(s, lib)
    ensures AllFromSpec(Take(s, step), lib)
  {
    hide FromSpec, Compiled, Inv, Honest, SpecsOf;
    if step.Call? {
      CallKeepsFromSpec(s, step.pk, step.o, lib);
    } else {
      OutsideKeepsFromSpec(s, step, lib);
    }
  }

  lemma InitHolds()
    ensures Inv(INIT)
  {
  }

  // ---------------------------------------------------------------- convergence

  /** A run whose calls nobody interferes with and whose plans are the compiler's. */
  ghost predicate CompiledRun(s: Server, pk: PKey, os: seq<Oracle>, lib: Library)
    decreases |os|
  {
    os != [] ==>
      && QuietAnswers(s, pk, os[0]) && UsesCompiler(Call(pk, os[0]), lib)
      && CompiledRun(Reconcile(s, pk, os[0]).s, pk, os[1..], lib)
  }

  /** If the spec compiles, such a run is undisturbed. */
  lemma {:induction false} CompiledIsCalm(s: Server, pk: PKey, os: seq<Oracle>, u: string, lib: Library)
    requires Undisturbed(s, pk) && CompiledRun(s, pk, os, lib)
    requires Sliceable(u) && Compilable(u, s.prestos[pk].spec, lib)
    ensures CalmRun(s, pk, os)
    decreases |os|
  {
    hide Reconcile, Compilable, Compiled, Inv, NamesFree, ValidSpec, AtMostOne, Comparable, Measure;
    if os != [] {
      CompiledAnswersCalm(s, pk, os[0], u, lib);
      CalmStaysUndisturbed(s, pk, os[0]);
      CalmStepCloser(s, pk, os[0]);
      CompiledIsCalm(Reconcile(s, pk, os[0]).s, pk, os[1..], u, lib);
    }
  }

  lemma CompiledAnswersCalm(s: Server, pk: PKey, o: Oracle, u: string, lib: Library)
    requires Undisturbed(s, pk) && QuietAnswers(s, pk, o) && UsesCompiler(Call(pk, o), lib)
    requires Sliceable(u) && Compilable(u, s.prestos[pk].spec, lib)
    ensures CalmAnswers(s, pk, o)
  {
    hide Honest, FreshLists, AcceptsAll, Compiled, Compilable, NamesFree, Remembers, Known;
    var p := s.prestos[pk];
    if p.status.uuid != "" {
      assert GoodUuid(p.status.uuid, pk, s.minted);
      CompilableForAll(u, p.status.uuid, p.spec, lib);
      PlanValidIff(o.plan, p.status.uuid, p.spec, lib);
    }
  }

  /** Convergence, with the user's conditions on the spec in place of any on the compiler's output. */
  lemma CompiledConverges(s: Server, pk: PKey, os: seq<Oracle>, u: string, lib: Library)
    requires Undisturbed(s, pk) && CompiledRun(s, pk, os, lib) && |os| >= Measure(s, pk)
    requires Sliceable(u) && Compilable(u, s.prestos[pk].spec, lib)
    ensures
      var t := CalmEnd(s, pk, os);
      && MajorCount(t.log) == MajorCount(s.log) + Measure(s, pk)
      && (Desired(t, pk) <==> !HeadlessLost(s, UuidAt(s, pk)))
  {
    hide Undisturbed, CompiledRun, Compilable, Desired, HeadlessLost, Measure, MajorCount, CalmEnd, CalmRun;
    CompiledIsCalm(s, pk, os, u, lib);
    Converges(s, pk, os);
  }

  // ---------------------------------------------------------------- what it buys

  ghost predicate MountsAllVolumes(pod: PodSpec) {
    multiset(Pods.MountNames(pod.mounts)) == multiset(Pods.VolumeNames(pod.volumes))
  }

  ghost predicate SecretsNamed(pod: PodSpec) {
    forall i :: 0 <= i < |pod.volumes| && pod.volumes[i].source.SecretSource? ==> pod.volumes[i].source.secretName != ""
  }

  lemma CoordPodSound(pod: PodSpec, u: string, spec: PrestoSpec, lib: Library)
    requires Sliceable(u) && PodFrom(pod, true, u, spec, lib) && Buildable(true, u, spec, lib)
    ensures MountsAllVolumes(pod) && SecretsNamed(pod)
  {
    Pods.MountsMatchVolumes(true, u, spec);
    assert SystemProps(u, spec).Ok?;
  }

  lemma WorkerPodSound(pod: PodSpec, u: string, spec: PrestoSpec, lib: Library)
    requires Sliceable(u) && PodFrom(pod, false, u, spec, lib)
    ensures MountsAllVolumes(pod) && SecretsNamed(pod)
  {
    Pods.MountsMatchVolumes(false, u, spec);
  }

  /** With HTTPS on, the keystore the configuration names lies in a secret, by name, that the pod mounts. */
  ghost predicate KeystoreInReach(pod: PodSpec, u: string, spec: PrestoSpec)
    requires Sliceable(u)
  {
    SystemProps(u, spec).Ok? &&
    (spec.coordinator.httpsEnabled ==>
      var props := SystemProps(u, spec).value;
      exists m, v :: m in pod.mounts && v in pod.volumes && m.name == v.name
        && v.source.SecretSource? && v.source.secretName != ""
        && KEYSTORE_PATH in props && props[KEYSTORE_PATH] == m.mountPath + "/" + spec.coordinator.httpsSecretKey)
  }

  lemma KeystoreFound(pod: PodSpec, u: string, spec: PrestoSpec, lib: Library)
    requires Sliceable(u) && PodFrom(pod, true, u, spec, lib) && Buildable(true, u, spec, lib)
    ensures KeystoreInReach(pod, u, spec)
  {
    assert SystemProps(u, spec).Ok?;
    if spec.coordinator.httpsEnabled {
      Pods.KeystoreIsMounted(u, spec);
    }
  }

  /** Every ReplicaSet the operator ever made mounts exactly its volumes and names every secret it mounts. */
  lemma TemplatesAreSound(steps: seq<Step>, lib: Library, r: Role, k: Key, u: string)
    requires Obeys(INIT, steps, (t, step) => Allowed(t, step) && UsesCompiler(step, lib))
    requires r in {CoordSet, WorkerSet} && Holds(r, k, After(INIT, steps), u)
    ensures After(INIT, steps).objs[k].body.ReplicaSetBody?
    ensures
      var pod := After(INIT, steps).objs[k].body.template.pod;
      && MountsAllVolumes(pod) && SecretsNamed(pod) && Sliceable(u)
      && (r == CoordSet ==> exists spec :: spec in SpecsOf(After(INIT, steps), u) && KeystoreInReach(pod, u, spec))
  {
    hide Allowed, UsesCompiler, PodFrom, Buildable, MountsAllVolumes, SecretsNamed, KeystoreInReach, Take;
    MadeByCompiler(steps, lib);
    var obj := After(INIT, steps).objs[k];
    assert FromSpec(r, obj, u, lib, SpecsOf(After(INIT, steps), u));
    var pod := obj.body.template.pod;
    var spec :| spec in SpecsOf(After(INIT, steps), u) && Makes(r, obj, u, spec, lib);
    if r == CoordSet {
      CoordPodSound(pod, u, spec, lib);
      KeystoreFound(pod, u, spec, lib);
    } else {
      WorkerPodSound(pod, u, spec, lib);
    }
  }

  /** The coordinator's own address and the workers' discovery URI name the pod by its host and subdomain. */
  ghost predicate Addressed(pod: PodSpec, u: string, spec: PrestoSpec)
    requires Sliceable(u)
  {
    SystemProps(u, spec).Ok? &&
    var props, host := SystemProps(u, spec).value, pod.hostname + "." + pod.subdomain;
    && "node.internal-address" in props && props["node.internal-address"] == host
    && HTTP_PORT in props && WorkerProps(u, spec)[DISCOVERY_URI] == "http://" + host + ":" + props[HTTP_PORT]
  }

  lemma AddressFound(pod: PodSpec, u: string, spec: PrestoSpec, lib: Library)
    requires Sliceable(u) && PodFrom(pod, true, u, spec, lib) && Buildable(true, u, spec, lib)
    ensures Addressed(pod, u, spec)
  {
    assert SystemProps(u, spec).Ok?;
    Pods.AddressIsHost(u, spec, pod.limits, pod.requests);
  }

  /** In every run a coordinator's pod is reached, by the name in the configurations, through its headless service. */
  lemma DiscoveryResolves(steps: seq<Step>, lib: Library, k: Key, svc: Key, u: string)
    requires Obeys(INIT, steps, (t, step) => Allowed(t, step) && UsesCompiler(step, lib))
    requires Holds(CoordSet, k, After(INIT, steps), u) && Holds(Headless, svc, After(INIT, steps), u)
    ensures Sliceable(u) && After(INIT, steps).objs[k].body.ReplicaSetBody?
    ensures
      var pod := After(INIT, steps).objs[k].body.template.pod;
      && svc.ns == k.ns && svc.name == pod.subdomain
      && exists spec :: spec in SpecsOf(After(INIT, steps), u) && Addressed(pod, u, spec)
  {
    hide Allowed, UsesCompiler, Take, Buildable, Addressed;
    MadeByCompiler(steps, lib);
    var obj := After(INIT, steps).objs[k];
    assert FromSpec(CoordSet, obj, u, lib, SpecsOf(After(INIT, steps), u));
    var spec :| spec in SpecsOf(After(INIT, steps), u) && Makes(CoordSet, obj, u, spec, lib);
    AddressFound(obj.body.template.pod, u, spec, lib);
  }
}
