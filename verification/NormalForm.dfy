/**
 The pipeline in normal form: Reconcile runs exactly one stage that can write an object, the
 first one whose check does not pass, on a store no earlier stage has touched.
 */
module NormalForm {
  import opened PrestoTypes
  import opened Naming
  import opened Api
  import opened Pipeline

  /** The shared label map at the entry of stage i, as a function of UUID and name alone. */
  function LabelsAt(i: nat, u: string, name: string): Labels {
    if i == 0 then BaseLabels(u, name) else if i == 1 then DiscoveryLabels(u, name) else ClusterLabels(u, name)
  }

  /** The one list query a stage makes before it writes. */
  function QueryOf(role: Role, pk: PKey, u: string): Query {
    match role
    case Headless => Query(Service, pk.ns, map[DISCOVERY_KEY := u])
    case External => Query(Service, pk.ns, map[EXTERNAL_KEY := u])
    case CoordConfig => Query(ConfigMap, pk.ns, ClusterLabels(u, pk.name))
    case WorkerConfig => Query(ConfigMap, pk.ns, ClusterLabels(u, pk.name))
    case CatalogConfig => Query(ConfigMap, pk.ns, ClusterLabels(u, pk.name))
    case CoordSet => Query(ReplicaSet, pk.ns, map[COORDINATOR_KEY := u])
    case WorkerSet => Query(ReplicaSet, pk.ns, map[WORKER_KEY := u])
    case Autoscaler => Query(Hpa, pk.ns, ClusterLabels(u, pk.name))
  }

  function Answer(role: Role, pk: PKey, p: Presto, o: Oracle): Listing {
    o.list(At(role), QueryOf(role, pk, p.status.uuid))
  }

  function FirstFound(role: Role, pk: PKey, p: Presto, o: Oracle): Result<Option<Item>, Error> {
    FirstItem(Answer(role, pk, p, o))
  }

  predicate SomethingListed(l: Listing) {
    l.Listed? && l.items != []
  }

  /** The check of a stage: it finds what it wants and has nothing to write. */
  predicate Passes(role: Role, pk: PKey, p: Presto, o: Oracle)
    requires Sliceable(p.status.uuid)
  {
    var l := Answer(role, pk, p, o);
    match role
    case Headless => SomethingListed(l)
    case External =>
      && p.spec.service.serviceType != "ExternalName"
      && SomethingListed(l)
      && (p.status.coordinatorAddress != "" || RefOf(l.items[0]).ports != [] ||
          o.status(At(External)).read(p.labels).ReadFailed?)
    case CoordSet =>
      && FirstItem(l).Ok?
      && FirstItem(l).value.Some?
    case WorkerSet =>
      && FirstItem(l).Ok?
      && FirstItem(l).value.Some?
      && !NeedsRescale(p.spec, FirstItem(l).value.value)
    case Autoscaler =>
      && FirstItem(l).Ok?
      && (if FirstItem(l).value.None? then !AutoscalingOn(p.spec)
          else AutoscalingOn(p.spec) &&
               CompareAutoscaling(HpaSpecOf(FirstItem(l).value.value.obj), p.spec.worker.autoscaling) == Same)
    case _ => ConfigData(role, o.plan).Ok? && l.Listed? && HasName(l.items, ConfigName(role, p.status.uuid))
  }

  function AfterExternal(s: Server, pk: PKey, p: Presto, o: Oracle): Server {
    var l := Answer(External, pk, p, o);
    if SomethingListed(l) && p.status.coordinatorAddress == ""
    then UpdateStatus(s, pk, p, o.status(At(External)), ServiceAction(FirstService(l.items))).s
    else s
  }

  /** The server when stage i is reached: untouched, but for the recorded service address. */
  function StateAt(i: nat, s: Server, pk: PKey, p: Presto, o: Oracle): (r: Server)
    ensures r.objs == s.objs && r.held == s.held && r.pods == s.pods && r.minted == s.minted && r.clock >= s.clock
  {
    if i <= 1 then s else AfterExternal(s, pk, p, o)
  }

  /** The copy in hand when stage i is reached: edited only if recording the address found no listed copy. */
  function HeldAt(i: nat, s: Server, pk: PKey, p: Presto, o: Oracle): (h: Presto)
    ensures Alike(p, h)
  {
    var l := Answer(External, pk, p, o);
    if i > 1 && SomethingListed(l) && p.status.coordinatorAddress == ""
    then UpdateStatus(s, pk, p, o.status(At(External)), ServiceAction(FirstService(l.items))).held
    else p
  }

  function CtxAt(i: nat, pk: PKey, p: Presto, o: Oracle): Ctx {
    var found := FirstFound(WorkerSet, pk, p, o);
    Ctx(LabelsAt(i, p.status.uuid, pk.name),
        if i > 6 && found.Ok? && found.value.Some? then Some(SetRefOf(found.value.value)) else None)
  }

  /** The external-service stage may pass with an address to record; no other stage passes with a note. */
  function NoteAt(role: Role, pk: PKey, p: Presto, o: Oracle): Option<Note> {
    var l := Answer(External, pk, p, o);
    if role.External? && SomethingListed(l) && p.status.coordinatorAddress == ""
    then Some(ServiceAction(FirstService(l.items))) else None
  }

  /** What a stage decides is a function of its check: skip exactly if it passes. */
  lemma DecisionPasses(role: Role, pk: PKey, p: Presto, o: Oracle)
    requires Sliceable(p.status.uuid)
    ensures
      var d := Decide(role, pk, p, o, CtxAt(Index(role), pk, p, o));
      && (Passes(role, pk, p, o) ==> d == Skip(CtxAt(Index(role) + 1, pk, p, o), NoteAt(role, pk, p, o)))
      && (!Passes(role, pk, p, o) && d.Skip? ==> role.External? && d.note == NoteAt(role, pk, p, o))
  {
  }

  /** Carrying a decision out lets Reconcile go on only for a skip whose note does not panic. */
  lemma SkipGoesOn(role: Role, d: Decision, s: Server, m: WriteMode, pk: PKey, p: Presto, io: StatusIo)
    ensures
      var r := Announce(Perform(role, d, s, m), pk, p, io);
      if d.Skip? then
        if d.note.None? then !r.Stops() && r.s == s && r.ctx == d.ctx
        else
          var q := UpdateStatus(s, pk, p, io, d.note.value);
          r.Stops() == q.panicked && r.s == q.s && r.ctx == d.ctx
      else r.Stops()
  {
  }

  lemma PanicsWithoutPorts(s: Server, pk: PKey, p: Presto, io: StatusIo, svc: ServiceRef)
    ensures UpdateStatus(s, pk, p, io, ServiceAction(Some(svc))).panicked
       <==> svc.ports == [] && !io.read(p.labels).ReadFailed?
  {
  }

  /** Past the external service, no stage looks at what the edited copy may differ in. */
  lemma AlikeDecides(role: Role, pk: PKey, p: Presto, h: Presto, o: Oracle, ctx: Ctx)
    requires Sliceable(p.status.uuid) && Alike(p, h) && (role.External? ==> h == p)
    ensures Decide(role, pk, h, o, ctx) == Decide(role, pk, p, o, ctx)
  {
  }

  /** The stage as decided on the copy first read, with the copy in hand only announcing it. */
  function OpenStage(role: Role, at: Server, pk: PKey, p: Presto, h: Presto, o: Oracle): StageOut
    requires Sliceable(p.status.uuid)
  {
    var d := Decide(role, pk, p, o, CtxAt(Index(role), pk, p, o));
    Announce(Perform(role, d, at, o.write(At(role))), pk, h, o.status(At(role)))
  }

  lemma HeldStage(role: Role, s: Server, pk: PKey, p: Presto, o: Oracle)
    requires Sliceable(p.status.uuid)
    ensures
      var i := Index(role);
      var at, h := StateAt(i, s, pk, p, o), HeldAt(i, s, pk, p, o);
      RunStage(role, at, pk, h, o, CtxAt(i, pk, p, o)) == OpenStage(role, at, pk, p, h, o)
  {
    hide Decide, Perform, Announce;
    AlikeDecides(role, pk, p, HeldAt(Index(role), s, pk, p, o), o, CtxAt(Index(role), pk, p, o));
  }

  lemma StagePasses(role: Role, s: Server, pk: PKey, p: Presto, o: Oracle)
    requires Sliceable(p.status.uuid)
    ensures
      var i := Index(role);
      var at, h := StateAt(i, s, pk, p, o), HeldAt(i, s, pk, p, o);
      var r := OpenStage(role, at, pk, p, h, o);
      && (r.Stops() <==> !Passes(role, pk, p, o))
      && (!r.Stops() ==>
            && r.s == StateAt(i + 1, s, pk, p, o) && r.ctx == CtxAt(i + 1, pk, p, o)
            && InHand(role, at, pk, h, o, CtxAt(i, pk, p, o)) == HeldAt(i + 1, s, pk, p, o))
  {
    var i := Index(role);
    var at, h := StateAt(i, s, pk, p, o), HeldAt(i, s, pk, p, o);
    var d := Decide(role, pk, p, o, CtxAt(i, pk, p, o));
    var io := o.status(At(role));
    DecisionPasses(role, pk, p, o);
    AlikeDecides(role, pk, p, h, o, CtxAt(i, pk, p, o));
    SkipGoesOn(role, d, at, o.write(At(role)), pk, h, io);
    var l := Answer(External, pk, p, o);
    if SomethingListed(l) {
      PanicsWithoutPorts(at, pk, h, io, RefOf(l.items[0]));
    }
  }

  /** The first stage from i on whose check fails, or the end of the pipeline. */
  function FirstOpen(i: nat, pk: PKey, p: Presto, o: Oracle): (j: nat)
    requires i <= |PIPELINE| && Sliceable(p.status.uuid)
    ensures i <= j <= |PIPELINE|
    ensures forall k :: i <= k < j ==> Passes(PIPELINE[k], pk, p, o)
    ensures j < |PIPELINE| ==> !Passes(PIPELINE[j], pk, p, o)
    decreases |PIPELINE| - i
  {
    if i == |PIPELINE| || !Passes(PIPELINE[i], pk, p, o) then i else FirstOpen(i + 1, pk, p, o)
  }

  lemma OpenNoLater(role: Role, pk: PKey, p: Presto, o: Oracle)
    requires Sliceable(p.status.uuid) && !Passes(role, pk, p, o)
    ensures FirstOpen(0, pk, p, o) <= Index(role)
  {
  }

  function RunOpen(j: nat, s: Server, pk: PKey, p: Presto, o: Oracle): StageOut
    requires j <= |PIPELINE| && Sliceable(p.status.uuid)
  {
    var at, h := StateAt(j, s, pk, p, o), HeldAt(j, s, pk, p, o);
    if j == |PIPELINE| then Finish(at, pk, h, o, CtxAt(j, pk, p, o)) else OpenStage(PIPELINE[j], at, pk, p, h, o)
  }

  lemma {:induction false} SkipPassed(i: nat, s: Server, pk: PKey, p: Presto, o: Oracle)
    requires i <= |PIPELINE| && Sliceable(p.status.uuid)
    ensures RunFrom(i, StateAt(i, s, pk, p, o), pk, HeldAt(i, s, pk, p, o), o, CtxAt(i, pk, p, o))
         == RunOpen(FirstOpen(i, pk, p, o), s, pk, p, o)
    decreases |PIPELINE| - i
  {
    hide Passes, OpenStage, RunStage, InHand, Finish;
    if i < |PIPELINE| {
      IndexOfStage(i);
      HeldStage(PIPELINE[i], s, pk, p, o);
      StagePasses(PIPELINE[i], s, pk, p, o);
      if Passes(PIPELINE[i], pk, p, o) {
        SkipPassed(i + 1, s, pk, p, o);
      }
    }
  }

  /** Past the UUID gate, Reconcile is the first open stage and nothing else. */
  lemma PipelineIsFirstOpen(s: Server, pk: PKey, p: Presto, o: Oracle)
    requires Sliceable(p.status.uuid)
    ensures
      var r := RunOpen(FirstOpen(0, pk, p, o), s, pk, p, o);
      RunPipeline(s, pk, p, o) == ReconcileOut(r.s, r.verdict, Register)
  {
    SkipPassed(0, s, pk, p, o);
    assert CtxAt(0, pk, p, o) == InitialCtx(pk, p);
  }

  /** Two oracles that differ at most in how they answer queries other than the fixed ones. */
  ghost predicate AgreeOnFixedQueries(o: Oracle, o': Oracle, pk: PKey, u: string) {
    && o' == o.(list := o'.list)
    && (forall role :: o.list(At(role), QueryOf(role, pk, u)) == o'.list(At(role), QueryOf(role, pk, u)))
    && o.list(Relist, Query(Service, pk.ns, ClusterLabels(u, pk.name)))
       == o'.list(Relist, Query(Service, pk.ns, ClusterLabels(u, pk.name)))
  }

  /** A check depends on no list but its own. */
  lemma SamePasses(r: Role, pk: PKey, p: Presto, o: Oracle, o': Oracle)
    requires Sliceable(p.status.uuid) && o' == o.(list := o'.list) && Answer(r, pk, p, o) == Answer(r, pk, p, o')
    ensures Passes(r, pk, p, o) == Passes(r, pk, p, o')
  {
  }

  lemma {:induction false} SameFirstOpen(i: nat, pk: PKey, p: Presto, o: Oracle, o': Oracle)
    requires i <= |PIPELINE| && Sliceable(p.status.uuid)
    requires AgreeOnFixedQueries(o, o', pk, p.status.uuid)
    ensures FirstOpen(i, pk, p, o) == FirstOpen(i, pk, p, o')
    decreases |PIPELINE| - i
  {
    hide Passes;
    if i < |PIPELINE| {
      SamePasses(PIPELINE[i], pk, p, o, o');
      SameFirstOpen(i + 1, pk, p, o, o');
    }
  }

  /** Two oracles that differ at most in lists the given stage does not look at. */
  ghost predicate AgreeOn(role: Role, o: Oracle, o': Oracle, pk: PKey, u: string) {
    && o' == o.(list := o'.list)
    && o.list(At(role), QueryOf(role, pk, u)) == o'.list(At(role), QueryOf(role, pk, u))
    && o.list(At(External), QueryOf(External, pk, u)) == o'.list(At(External), QueryOf(External, pk, u))
    && o.list(At(WorkerSet), QueryOf(WorkerSet, pk, u)) == o'.list(At(WorkerSet), QueryOf(WorkerSet, pk, u))
    && o.list(Relist, Query(Service, pk.ns, ClusterLabels(u, pk.name)))
       == o'.list(Relist, Query(Service, pk.ns, ClusterLabels(u, pk.name)))
  }

  lemma SameDecision(role: Role, pk: PKey, p: Presto, o: Oracle, o': Oracle)
    requires Sliceable(p.status.uuid) && AgreeOn(role, o, o', pk, p.status.uuid)
    ensures CtxAt(Index(role), pk, p, o) == CtxAt(Index(role), pk, p, o')
    ensures Decide(role, pk, p, o, CtxAt(Index(role), pk, p, o))
         == Decide(role, pk, p, o', CtxAt(Index(role), pk, p, o'))
  {
    var u := p.status.uuid;
    assert role.External? ==> CtxAt(1, pk, p, o).labels[EXTERNAL_KEY := u] == ClusterLabels(u, pk.name);
  }

  lemma SameRun(role: Role, at: Server, pk: PKey, p: Presto, h: Presto, o: Oracle, o': Oracle)
    requires Sliceable(p.status.uuid) && AgreeOn(role, o, o', pk, p.status.uuid)
    ensures OpenStage(role, at, pk, p, h, o) == OpenStage(role, at, pk, p, h, o')
  {
    SameDecision(role, pk, p, o, o');
  }

  lemma SameOpen(j: nat, s: Server, pk: PKey, p: Presto, o: Oracle, o': Oracle)
    requires j <= |PIPELINE| && Sliceable(p.status.uuid)
    requires AgreeOn(if j == |PIPELINE| then WorkerSet else PIPELINE[j], o, o', pk, p.status.uuid)
    ensures RunOpen(j, s, pk, p, o) == RunOpen(j, s, pk, p, o')
  {
    var at, h := StateAt(j, s, pk, p, o), HeldAt(j, s, pk, p, o);
    assert at == StateAt(j, s, pk, p, o') && h == HeldAt(j, s, pk, p, o');
    if j < |PIPELINE| {
      IndexOfStage(j);
      SameRun(PIPELINE[j], at, pk, p, h, o, o');
    } else {
      assert CtxAt(j, pk, p, o) == CtxAt(j, pk, p, o');
    }
  }

  /** A call that stops earlier never looks at the autoscalers. */
  lemma LaterListsUnseen(s: Server, pk: PKey, p: Presto, o: Oracle, o': Oracle)
    requires Sliceable(p.status.uuid) && FirstOpen(0, pk, p, o) < Index(Autoscaler)
    requires forall role: Role :: role != Autoscaler ==> AgreeOn(role, o, o', pk, p.status.uuid)
    ensures RunPipeline(s, pk, p, o) == RunPipeline(s, pk, p, o')
  {
    hide Passes, RunFrom, RunOpen, AgreeOn;
    var j := FirstOpen(0, pk, p, o);
    forall i | 0 <= i <= j
      ensures Passes(PIPELINE[i], pk, p, o) == Passes(PIPELINE[i], pk, p, o')
    {
      IndexOfStage(i);
      SamePassesOn(PIPELINE[i], pk, p, o, o');
    }
    IndexOfStage(j);
    SameOpen(j, s, pk, p, o, o');
    PipelineIsFirstOpen(s, pk, p, o);
    PipelineIsFirstOpen(s, pk, p, o');
  }

  lemma SamePassesOn(r: Role, pk: PKey, p: Presto, o: Oracle, o': Oracle)
    requires Sliceable(p.status.uuid) && AgreeOn(r, o, o', pk, p.status.uuid)
    ensures Passes(r, pk, p, o) == Passes(r, pk, p, o')
  {
    hide Passes;
    SamePasses(r, pk, p, o, o');
  }

  /**
   Label accumulation is stable: whatever exists and whatever earlier stages did to the shared
   map, the selectors Reconcile lists by are the same function of UUID and name every time.
   */
  lemma QueriesAreFixed(s: Server, pk: PKey, p: Presto, o: Oracle, o': Oracle)
    requires Sliceable(p.status.uuid)
    requires AgreeOnFixedQueries(o, o', pk, p.status.uuid)
    ensures RunPipeline(s, pk, p, o) == RunPipeline(s, pk, p, o')
  {
    PipelineIsFirstOpen(s, pk, p, o);
    PipelineIsFirstOpen(s, pk, p, o');
    SameFirstOpen(0, pk, p, o, o');
    var j := FirstOpen(0, pk, p, o);
    SameOpen(j, s, pk, p, o, o');
  }
}
