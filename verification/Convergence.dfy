/** Undisturbed, repeated calls reach the desired state, one write at a time. */
module Convergence {
  import opened PrestoTypes
  import opened Naming
  import opened Api
  import opened Pipeline
  import opened NormalForm
  import opened Invariants
  import opened Effects
  import opened Calls
  import opened Reads
  import opened Runs
  import opened Holders
  import opened Uniqueness
  import opened Readiness

  // ---------------------------------------------------------------- calm calls

  predicate ValidSpec(spec: PrestoSpec) {
    && spec.service.serviceType != "ExternalName"
    && spec.worker.count.Some?
    && (AutoscalingOn(spec) ==>
          && spec.worker.autoscaling.minReplicas.Some?
          && spec.worker.autoscaling.maxReplicas.Some?
          && spec.worker.autoscaling.targetCpu.Some?)
  }

  predicate ValidPlan(plan: Plan) {
    plan.coordConfig.Ok? && plan.workerConfig.Ok? && plan.coordPod.Ok? && plan.workerPod.Ok?
  }

  function KindOf(r: Role): Kind {
    match r
    case Headless => Service
    case External => Service
    case CoordSet => ReplicaSet
    case WorkerSet => ReplicaSet
    case Autoscaler => Hpa
    case _ => ConfigMap
  }

  /** Nobody else sits on the names of cluster u; the autoscaler's matters only where one is wanted. */
  ghost predicate NamesFree(s: Server, pk: PKey, u: string, spec: PrestoSpec) {
    Sliceable(u) &&
    forall r: Role :: FixedName(r, u).Some? && (r == Autoscaler ==> AutoscalingOn(spec)) ==>
      var k := Key(KindOf(r), pk.ns, FixedName(r, u).value);
      k in s.objs ==> Holds(r, k, s, u)
  }

  ghost predicate AcceptsAll(o: Oracle) {
    && (forall site: Site :: o.write(site) == Accept && o.status(site).write == Accept)
    && (forall site: Site, l: Labels :: o.status(site).read(l) == Live)
    && (forall q: Query :: o.list(Relist, q).Listed?)
  }

  /** A ReplicaSet still to be made gets a name nobody has. */
  ghost predicate SuffixFree(r: Role, s: Server, pk: PKey, u: string, suffix: string) {
    Sliceable(u) && !Present(r, s, u) ==> SetKey(r, pk, u, suffix) !in s.objs
  }

  /** The cluster's autoscaler, if it is wanted and there, can be compared with the spec. */
  ghost predicate Comparable(s: Server, u: string, spec: PrestoSpec) {
    AutoscalingOn(spec) ==>
      forall k :: Holds(Autoscaler, k, s, u) ==> !LacksNumber(HpaSpecOf(s.objs[k]), spec.worker.autoscaling)
  }

  /**
   A store in any condition, but with a valid spec, nobody else on the cluster's names, at most one
   worker ReplicaSet of the cluster, and no number missing in its autoscaler.
   */
  ghost predicate Undisturbed(s: Server, pk: PKey) {
    Inv(s) && pk in s.prestos &&
    var p := s.prestos[pk];
    && ValidSpec(p.spec) && AtMostOne(WorkerSet, s, p.status.uuid)
    && (p.status.uuid != "" ==> NamesFree(s, pk, p.status.uuid, p.spec))
    && Comparable(s, p.status.uuid, p.spec)
  }

  /** A call nobody interferes with: fresh reads, every write accepted, no drawn name taken. */
  ghost predicate QuietAnswers(s: Server, pk: PKey, o: Oracle) {
    && Honest(s, pk, o) && FreshLists(s, o) && AcceptsAll(o)
    && pk in s.prestos && o.get == Found(s.prestos[pk])
    && SuffixFree(CoordSet, s, pk, s.prestos[pk].status.uuid, o.coordSuffix)
    && SuffixFree(WorkerSet, s, pk, s.prestos[pk].status.uuid, o.workerSuffix)
    && (s.prestos[pk].status.uuid == "" ==> NamesFree(s, pk, o.freshUuid, s.prestos[pk].spec))
  }

  /** And one for which the compiler has something for every stage to create. */
  ghost predicate CalmAnswers(s: Server, pk: PKey, o: Oracle) {
    QuietAnswers(s, pk, o) && (s.prestos[pk].status.uuid != "" ==> ValidPlan(o.plan))
  }

  ghost predicate Calm(s: Server, pk: PKey, o: Oracle) {
    Undisturbed(s, pk) && CalmAnswers(s, pk, o)
  }

  // ---------------------------------------------------------------- the measure

  ghost function Missing(i: nat, s: Server, u: string, spec: PrestoSpec): nat
    requires i <= |PIPELINE|
    decreases |PIPELINE| - i
  {
    if i == |PIPELINE| then 0
    else (if Satisfied(PIPELINE[i], s, u, spec) then 0 else 1) + Missing(i + 1, s, u, spec)
  }

  /** UUID unset + objects missing + worker count off + autoscaler off. */
  ghost function Measure(s: Server, pk: PKey): nat
    requires pk in s.prestos
  {
    var p := s.prestos[pk];
    (if p.status.uuid == "" then 1 else 0) + Missing(0, s, p.status.uuid, p.spec)
  }

  lemma {:induction false} MissingSame(i: nat, s: Server, s': Server, u: string, u': string, spec: PrestoSpec)
    requires i <= |PIPELINE|
    requires forall j :: i <= j < |PIPELINE| ==>
               Satisfied(PIPELINE[j], s, u, spec) == Satisfied(PIPELINE[j], s', u', spec)
    ensures Missing(i, s, u, spec) == Missing(i, s', u', spec)
    decreases |PIPELINE| - i
  {
    if i < |PIPELINE| {
      MissingSame(i + 1, s, s', u, u', spec);
    }
  }

  lemma {:induction false} MissingOneLess(i: nat, j: nat, s: Server, s': Server, u: string, spec: PrestoSpec)
    requires i <= j < |PIPELINE|
    requires !Satisfied(PIPELINE[j], s, u, spec) && Satisfied(PIPELINE[j], s', u, spec)
    requires forall k :: i <= k < |PIPELINE| && k != j ==>
               Satisfied(PIPELINE[k], s, u, spec) == Satisfied(PIPELINE[k], s', u, spec)
    ensures Missing(i, s, u, spec) == Missing(i, s', u, spec) + 1
    decreases j - i
  {
    if i < j {
      MissingOneLess(i + 1, j, s, s', u, spec);
    } else {
      MissingSame(i + 1, s, s', u, u, spec);
    }
  }

  lemma {:induction false} NoneMissing(i: nat, s: Server, u: string, spec: PrestoSpec)
    requires i <= |PIPELINE|
    ensures Missing(i, s, u, spec) == 0 <==> forall j :: i <= j < |PIPELINE| ==> Satisfied(PIPELINE[j], s, u, spec)
    decreases |PIPELINE| - i
  {
    hide IsRole;
    if i < |PIPELINE| {
      NoneMissing(i + 1, s, u, spec);
    }
  }

  // ---------------------------------------------------------------- the write of a calm call

  /** A write the server carries out. */
  predicate CanDo(op: Op, s: Server) {
    match op
    case CreateOp(k, _) => k !in s.objs
    case UpdateOp(k, obj) => k in s.objs && s.objs[k].rv == obj.rv
    case DeleteOp(k) => k in s.objs
  }

  ghost predicate CalmPast(s: Server, pk: PKey, p: Presto, o: Oracle) {
    Calm(s, pk, o) && p == s.prestos[pk] && p.status.uuid != ""
  }

  lemma CalmLooks(s: Server, pk: PKey, p: Presto, o: Oracle)
    requires CalmPast(s, pk, p, o)
    ensures Applies(s, pk, p, o) && Looks(s, pk, p, o) && Sliceable(p.status.uuid)
    ensures AtMostOne(WorkerSet, s, p.status.uuid) && AtMostOne(Autoscaler, s, p.status.uuid)
    ensures o.plan.ports != []
  {
    NamedAtMostOne(Autoscaler, s, p.status.uuid);
  }

  lemma NamedCanCreate(r: Role, s: Server, pk: PKey, u: string, spec: PrestoSpec)
    requires NamesFree(s, pk, u, spec) && FixedName(r, u).Some? && !Present(r, s, u)
    requires r == Autoscaler ==> AutoscalingOn(spec)
    ensures Key(KindOf(r), pk.ns, FixedName(r, u).value) !in s.objs
  {
  }

  ghost predicate DecidesWrite(d: Decision, s: Server) {
    d.Write? && d.after.Ok? && CanDo(d.op, s)
  }

  lemma CalmServiceDecision(r: Role, s: Server, pk: PKey, p: Presto, o: Oracle)
    requires CalmPast(s, pk, p, o) && r in {Headless, External, CoordConfig, WorkerConfig, CatalogConfig}
    requires Sliceable(p.status.uuid) && !Passes(r, pk, p, o)
    ensures DecidesWrite(Decide(r, pk, p, o, CtxAt(Index(r), pk, p, o)), s)
  {
    hide Inv, Honest;
    CalmLooks(s, pk, p, o);
    PassesIff(r, s, pk, p, o);
    var q := QueryOf(r, pk, p.status.uuid);
    assert Exact(o.list(At(r), q), q, s);
    NamedCanCreate(r, s, pk, p.status.uuid, p.spec);
    if r.External? {
      ListedIffPresent(r, s, pk, p, o);
    }
  }

  lemma CalmSetDecision(r: Role, s: Server, pk: PKey, p: Presto, o: Oracle)
    requires CalmPast(s, pk, p, o) && r in {CoordSet, WorkerSet}
    requires Sliceable(p.status.uuid) && !Passes(r, pk, p, o)
    ensures DecidesWrite(Decide(r, pk, p, o, CtxAt(Index(r), pk, p, o)), s)
  {
    CalmLooks(s, pk, p, o);
    ListedIffPresent(r, s, pk, p, o);
  }

  lemma CalmAutoscalerDecision(s: Server, pk: PKey, p: Presto, o: Oracle)
    requires CalmPast(s, pk, p, o) && Sliceable(p.status.uuid)
    requires Passes(WorkerSet, pk, p, o) && !Passes(Autoscaler, pk, p, o)
    ensures DecidesWrite(Decide(Autoscaler, pk, p, o, CtxAt(7, pk, p, o)), s)
  {
    hide Inv, Known, Honest, Present;
    CalmLooks(s, pk, p, o);
    ListedIffPresent(Autoscaler, s, pk, p, o);
    if !Present(Autoscaler, s, p.status.uuid) {
      NamedCanCreate(Autoscaler, s, pk, p.status.uuid, p.spec);
    }
  }

  /** Reaching a stage writes no more than the service's address. */
  lemma CalmReaches(j: nat, s: Server, pk: PKey, p: Presto, o: Oracle)
    requires CalmPast(s, pk, p, o)
    ensures
      var at := StateAt(j, s, pk, p, o);
      at.objs == s.objs && MajorCount(at.log) == MajorCount(s.log)
  {
    var e := AddressLog(j, s, pk, p, o);
    CountAppended(s.log, e);
  }

  lemma WriteShows(op: Op, at: Server)
    requires CanDo(op, at) && (forall k :: k in at.objs ==> at.objs[k].rv < at.clock)
    ensures Do(op, at, Accept).error.None? && Do(op, at, Accept).s.objs != at.objs
    ensures Do(op, at, Accept).s.log != at.log
  {
    var s' := Do(op, at, Accept).s;
    match op {
      case CreateOp(k, _) => assert k in s'.objs;
      case UpdateOp(k, _) => assert s'.objs[k].rv == at.clock;
      case DeleteOp(k) => assert k !in s'.objs;
    }
  }

  /** Carrying out a possible write changes the store and counts as one major write. */
  lemma PerformedWrite(role: Role, d: Decision, at: Server)
    requires DecidesWrite(d, at) && (forall k :: k in at.objs ==> at.objs[k].rv < at.clock)
    ensures
      var r := Perform(role, d, at, Accept);
      && r.verdict == Fine && r.s.objs != at.objs && r.note == d.after.value
      && MajorCount(r.s.log) == MajorCount(at.log) + 1
  {
    hide Do, MajorCount, CanDo;
    WriteShows(d.op, at);
    var e := PerformLog(role, d, at, Accept);
    assert e == [] ==> at.log + e == at.log;
    CountAppended(at.log, e);
  }

  lemma DoneWrite(role: Role, d: Decision, at: Server, pk: PKey, p: Presto, io: StatusIo)
    requires DecidesWrite(d, at) && (forall k :: k in at.objs ==> at.objs[k].rv < at.clock)
    requires d.after.value.Some? ==> Mergeable(d.after.value.value)
    ensures
      var r := Announce(Perform(role, d, at, Accept), pk, p, io);
      && r.verdict == Fine && r.s.objs != at.objs
      && MajorCount(r.s.log) == MajorCount(at.log) + 1
  {
    var r := Perform(role, d, at, Accept);
    PerformedWrite(role, d, at);
    var e := AnnounceLog(r, pk, p, io);
    CountAppended(r.s.log, e);
  }

  lemma CalmOpenStage(j: nat, s: Server, pk: PKey, p: Presto, o: Oracle)
    requires CalmPast(s, pk, p, o) && Sliceable(p.status.uuid)
    requires j < |PIPELINE| && FirstOpen(0, pk, p, o) == j
    ensures DecidesWrite(Decide(PIPELINE[j], pk, p, o, CtxAt(j, pk, p, o)), s)
  {
    IndexOfStage(j);
    if j <= 4 {
      CalmServiceDecision(PIPELINE[j], s, pk, p, o);
    } else if j <= 6 {
      CalmSetDecision(PIPELINE[j], s, pk, p, o);
    } else {
      assert Passes(PIPELINE[6], pk, p, o);
      CalmAutoscalerDecision(s, pk, p, o);
    }
  }

  /** A calm call with an open stage makes exactly one object write. */
  lemma CalmCallWrites(s: Server, pk: PKey, p: Presto, o: Oracle)
    requires CalmPast(s, pk, p, o) && Sliceable(p.status.uuid)
    requires FirstOpen(0, pk, p, o) < |PIPELINE|
    ensures
      var r := Reconcile(s, pk, o);
      && r.verdict == Fine && r.s.objs != s.objs
      && MajorCount(r.s.log) == MajorCount(s.log) + 1
  {
    hide Honest, FirstOpen, Decide, RunFrom;
    var j := FirstOpen(0, pk, p, o);
    var role := PIPELINE[j];
    IndexOfStage(j);
    PipelineIsFirstOpen(s, pk, p, o);
    CalmOpenStage(j, s, pk, p, o);
    CalmReaches(j, s, pk, p, o);
    CalmLooks(s, pk, p, o);
    NotesMergeable(role, s, pk, p, o);
    var at, h := StateAt(j, s, pk, p, o), HeldAt(j, s, pk, p, o);
    DoneWrite(role, Decide(role, pk, p, o, CtxAt(j, pk, p, o)), at, pk, h, o.status(At(role)));
  }

  // ---------------------------------------------------------------- what the write achieves

  ghost predicate Advances(role: Role, s: Server, s': Server, u: string, spec: PrestoSpec) {
    && Satisfied(role, s', u, spec)
    && (forall r: Role :: r != role && (r.Headless? ==> Satisfied(Headless, s, u, spec) || !role.External?) ==>
          Satisfied(r, s, u, spec) == Satisfied(r, s', u, spec))
  }

  lemma ChangeAdvances(c: Change, s: Server, s': Server, pk: PKey, p: Presto, o: Oracle)
    requires Inv(s) && c != Nothing
    requires Sliceable(p.status.uuid) && p.status.uuid in s.minted && s.minted[p.status.uuid] == pk
    requires Explains(c, s, s', pk, p, o) && s'.minted == s.minted
    ensures Advances(PIPELINE[FirstOpen(0, pk, p, o)], s, s', p.status.uuid, p.spec)
  {
    hide Inv, Passes;
    var u, spec := p.status.uuid, p.spec;
    ChangeMoves(c, s, s', pk, p, o);
    match c {
      case Made(r, k, obj) =>
        assert HeldAfter(r, k, u, c, s, u);
        OthersUnmoved(r, c, s, s', u, spec);
      case Rescaled(k, obj) =>
        assert HeldAfter(WorkerSet, k, u, c, s, u);
        OthersUnmoved(WorkerSet, c, s, s', u, spec);
      case Retuned(k, obj) =>
        assert HeldAfter(Autoscaler, k, u, c, s, u);
        OthersUnmoved(Autoscaler, c, s, s', u, spec);
      case Removed(k) =>
        RemovedIsGone(k, s, s', pk, u);
        OthersUnmoved(Autoscaler, c, s, s', u, spec);
    }
  }

  lemma RemovedIsGone(k: Key, s: Server, s': Server, pk: PKey, u: string)
    requires Sliceable(u) && u in s.minted && s.minted[u] == pk && k == HpaKey(pk, u)
    requires Moves(Removed(k), u, s, s')
    ensures !Present(Autoscaler, s', u)
  {
    forall k' ensures !Holds(Autoscaler, k', s', u) {
      assert HeldAfter(Autoscaler, k', u, Removed(k), s, u) ==> k' == k;
    }
  }

  ghost predicate Touches(c: Change, role: Role, s: Server, u: string) {
    match c
    case Made(r, _, _) => r == role
    case Rescaled(k, _) => role == WorkerSet && Holds(WorkerSet, k, s, u)
    case Retuned(k, _) => role == Autoscaler && Holds(Autoscaler, k, s, u)
    case Removed(k) => role == Autoscaler && k.kind == Hpa
    case Nothing => false
  }

  function ChangedKey(c: Change): Key
    requires c != Nothing
  {
    c.key
  }

  /** The change is the given role's and leaves every other key alone. */
  ghost predicate Local(role: Role, c: Change, s: Server, s': Server, u: string) {
    && c != Nothing && Moves(c, u, s, s') && Touches(c, role, s, u)
    && (forall k :: k in s.objs && k in s'.objs && k != ChangedKey(c) ==> s.objs[k] == s'.objs[k])
    && (c.Made? ==> c.key !in s.objs)
  }

  lemma HolderUnmoved(r: Role, k: Key, role: Role, c: Change, s: Server, s': Server, u: string)
    requires Local(role, c, s, s', u) && r != role
    ensures Holds(r, k, s, u) <==> Holds(r, k, s', u)
    ensures Holds(r, k, s, u) ==> s.objs[k] == s'.objs[k]
  {
    assert Holds(r, k, s', u) <==> HeldAfter(r, k, u, c, s, u);
    if Holds(r, k, s, u) && k == ChangedKey(c) && !c.Removed? {
      RoleIsUnique(r, role, k, s.objs[k], u, u, s.minted[u].name, s.minted[u].name);
    }
  }

  lemma RoleUnmoved(r: Role, role: Role, c: Change, s: Server, s': Server, u: string)
    requires Local(role, c, s, s', u) && r != role
    ensures Present(r, s, u) == Present(r, s', u)
    ensures forall k :: Holds(r, k, s, u) <==> Holds(r, k, s', u)
    ensures forall k :: Holds(r, k, s, u) ==> s.objs[k] == s'.objs[k]
  {
    forall k
      ensures Holds(r, k, s, u) <==> Holds(r, k, s', u)
      ensures Holds(r, k, s, u) ==> s.objs[k] == s'.objs[k]
    {
      HolderUnmoved(r, k, role, c, s, s', u);
    }
  }

  lemma SatisfactionUnmoved(r: Role, role: Role, c: Change, s: Server, s': Server, u: string, spec: PrestoSpec)
    requires Local(role, c, s, s', u) && r != role
    requires r.Headless? && role.External? ==> Satisfied(Headless, s, u, spec) && Present(External, s', u)
    ensures Satisfied(r, s, u, spec) == Satisfied(r, s', u, spec)
  {
    RoleUnmoved(r, role, c, s, s', u);
    if r.Headless? && !role.External? {
      RoleUnmoved(External, role, c, s, s', u);
    }
  }

  lemma OthersUnmoved(role: Role, c: Change, s: Server, s': Server, u: string, spec: PrestoSpec)
    requires Local(role, c, s, s', u) && Satisfied(role, s', u, spec)
    ensures Advances(role, s, s', u, spec)
  {
    forall r: Role | r != role && (r.Headless? ==> Satisfied(Headless, s, u, spec) || !role.External?)
      ensures Satisfied(r, s, u, spec) == Satisfied(r, s', u, spec)
    {
      SatisfactionUnmoved(r, role, c, s, s', u, spec);
    }
  }

  // ---------------------------------------------------------------- one calm call

  lemma OpenIffMissing(s: Server, pk: PKey, p: Presto, o: Oracle)
    requires CalmPast(s, pk, p, o) && Sliceable(p.status.uuid)
    ensures FirstOpen(0, pk, p, o) == |PIPELINE| <==> Measure(s, pk) == 0
    ensures forall i :: 0 <= i < |PIPELINE| ==>
              (Passes(PIPELINE[i], pk, p, o) <==> Satisfied(PIPELINE[i], s, p.status.uuid, p.spec))
  {
    CalmLooks(s, pk, p, o);
    forall i | 0 <= i < |PIPELINE|
      ensures Passes(PIPELINE[i], pk, p, o) <==> Satisfied(PIPELINE[i], s, p.status.uuid, p.spec)
    {
      PassesIff(PIPELINE[i], s, pk, p, o);
    }
    NoneMissing(0, s, p.status.uuid, p.spec);
  }

  lemma AdvanceCounts(j: nat, s: Server, s': Server, u: string, spec: PrestoSpec)
    requires j < |PIPELINE| && Advances(PIPELINE[j], s, s', u, spec) && !Satisfied(PIPELINE[j], s, u, spec)
    requires forall i :: 0 <= i < j ==> Satisfied(PIPELINE[i], s, u, spec)
    ensures Missing(0, s, u, spec) == Missing(0, s', u, spec) + 1
  {
    forall k | 0 <= k < |PIPELINE| && k != j
      ensures Satisfied(PIPELINE[k], s, u, spec) == Satisfied(PIPELINE[k], s', u, spec)
    {
      IndexOfStage(k);
      IndexOfStage(j);
    }
    MissingOneLess(0, j, s, s', u, spec);
  }

  /** What one calm call does to the measure and to the count of major writes. */
  ghost predicate OneStepCloser(s: Server, s': Server, pk: PKey) {
    && pk in s.prestos && pk in s'.prestos
    && s'.prestos[pk].spec == s.prestos[pk].spec
    && (Measure(s, pk) == 0 ==> s'.objs == s.objs && Measure(s', pk) == 0 && MajorCount(s'.log) == MajorCount(s.log))
    && (Measure(s, pk) > 0 ==> Measure(s', pk) == Measure(s, pk) - 1 && MajorCount(s'.log) == MajorCount(s.log) + 1)
  }

  lemma SettledCall(s: Server, pk: PKey, p: Presto, o: Oracle)
    requires CalmPast(s, pk, p, o) && Sliceable(p.status.uuid) && FirstOpen(0, pk, p, o) == |PIPELINE|
    ensures OneStepCloser(s, Reconcile(s, pk, o).s, pk)
  {
    var s' := Reconcile(s, pk, o).s;
    var c := PipelineEffect(s, pk, p, o);
    var w := PipelineLog(s, pk, p, o);
    CountAppended(s.log, w.address);
    CountAppended(s.log + w.address, w.resource);
    CountAppended(s.log + w.address + w.resource, w.status);
    OpenIffMissing(s, pk, p, o);
    assert s'.objs == s.objs;
    SameStoreSameMissing(s, s', p.status.uuid, p.spec);
  }

  lemma SameStoreSameMissing(s: Server, s': Server, u: string, spec: PrestoSpec)
    requires s'.objs == s.objs && s'.minted == s.minted
    ensures Missing(0, s', u, spec) == Missing(0, s, u, spec)
  {
    forall r: Role, k: Key
      ensures Holds(r, k, s, u) == Holds(r, k, s', u)
    {
    }
    forall r: Role
      ensures Present(r, s, u) == Present(r, s', u)
    {
    }
    MissingSame(0, s', s, u, u, spec);
  }

  lemma WritingCall(s: Server, pk: PKey, p: Presto, o: Oracle)
    requires CalmPast(s, pk, p, o) && Sliceable(p.status.uuid) && FirstOpen(0, pk, p, o) < |PIPELINE|
    ensures OneStepCloser(s, Reconcile(s, pk, o).s, pk)
  {
    hide Reconcile, Inv, Honest, FreshLists, Satisfied, Explains, Advances, Passes, NamesFree, MajorCount, AtMostOne;
    var s' := Reconcile(s, pk, o).s;
    var j := FirstOpen(0, pk, p, o);
    CalmCallWrites(s, pk, p, o);
    var c := PipelineEffect(s, pk, p, o);
    ChangeAdvances(c, s, s', pk, p, o);
    OpenIffMissing(s, pk, p, o);
    AdvanceCounts(j, s, s', p.status.uuid, p.spec);
  }

  lemma MintingLands(s: Server, pk: PKey, o: Oracle)
    requires Calm(s, pk, o) && s.prestos[pk].status.uuid == ""
    ensures Reconcile(s, pk, o).s == Landed(s, pk, Action(clusterUuid := Some(o.freshUuid)))
    ensures Unused(o.freshUuid, s)
  {
    hide RunFrom, NamesFree, FreshLists;
    UuidGate(s, pk, o);
    var p := s.prestos[pk];
    assert GetPresto(s, pk, p, o.status(AtUuid).read(p.labels)) == Ok(Some(p));
  }

  lemma NothingHeldYet(s: Server, s': Server, u: string, pk: PKey)
    requires Inv(s) && Unused(u, s) && s'.objs == s.objs && s'.minted == s.minted[u := pk]
    ensures forall r: Role :: !Present(r, s, "") && !Present(r, s', u)
  {
    MintingMoves(s, s', u, pk);
    forall r: Role, k: Key
      ensures !Holds(r, k, s, "") && !Holds(r, k, s', u)
    {
      assert Holds(r, k, s', u) <==> HeldAfter(r, k, u, Nothing, s, u);
    }
  }

  lemma SatisfiedByNothing(r: Role, s: Server, u: string, spec: PrestoSpec)
    requires forall r': Role :: !Present(r', s, u)
    ensures Satisfied(r, s, u, spec) <==> r.Autoscaler? && !AutoscalingOn(spec)
  {
    assert !Present(r, s, u) && !Present(External, s, u);
  }

  /** Names no object has are free for whoever is given them. */
  lemma NamesFreeForNobody(s: Server, s': Server, pk: PKey, u: string, spec: PrestoSpec)
    requires NamesFree(s, pk, u, spec) && u !in s.minted && s'.objs == s.objs
    ensures NamesFree(s', pk, u, spec)
  {
  }

  lemma MintingCall(s: Server, pk: PKey, o: Oracle)
    requires Calm(s, pk, o) && s.prestos[pk].status.uuid == ""
    ensures
      var s' := Reconcile(s, pk, o).s;
      && s' == Landed(s, pk, Action(clusterUuid := Some(o.freshUuid)))
      && OneStepCloser(s, s', pk)
      && NamesFree(s', pk, o.freshUuid, s.prestos[pk].spec)
      && (forall r: Role :: !Present(r, s, "") && !Present(r, s', o.freshUuid))
  {
    hide Inv, Reconcile, Honest, FreshLists, Satisfied, Present, Holds;
    MintingLands(s, pk, o);
    var p, s', u := s.prestos[pk], Reconcile(s, pk, o).s, o.freshUuid;
    CountAppended(s.log, [StatusWritten(pk, Action(clusterUuid := Some(u)))]);
    NothingHeldYet(s, s', u, pk);
    forall r: Role
      ensures Satisfied(r, s, "", p.spec) == Satisfied(r, s', u, p.spec)
    {
      SatisfiedByNothing(r, s, "", p.spec);
      SatisfiedByNothing(r, s', u, p.spec);
    }
    MissingSame(0, s, s', "", u, p.spec);
    NamesFreeForNobody(s, s', pk, u, p.spec);
  }

  // ---------------------------------------------------------------- repeated calm calls

  lemma FixedNamesDiffer(r: Role, r': Role, u: string)
    requires Sliceable(u) && KindOf(r) == KindOf(r') && FixedName(r, u).Some? && FixedName(r, u) == FixedName(r', u)
    ensures r == r'
  {
    ConfigNamesDiffer(u);
    assert PodDiscoveryServiceName(u)[0] == 'p' && ExternalServiceName(u)[0] == 'e';
  }

  lemma NamesStayFree(c: Change, s: Server, s': Server, pk: PKey, p: Presto, o: Oracle)
    requires Sliceable(p.status.uuid) && p.status.uuid in s.minted && s.minted[p.status.uuid] == pk
    requires Explains(c, s, s', pk, p, o) && s'.minted == s.minted && NamesFree(s, pk, p.status.uuid, p.spec)
    ensures NamesFree(s', pk, p.status.uuid, p.spec)
  {
    var u := p.status.uuid;
    ChangeMoves(c, s, s', pk, p, o);
    forall r: Role | FixedName(r, u).Some? && (r == Autoscaler ==> AutoscalingOn(p.spec))
      ensures
        var k := Key(KindOf(r), pk.ns, FixedName(r, u).value);
        k in s'.objs ==> Holds(r, k, s', u)
    {
      var k := Key(KindOf(r), pk.ns, FixedName(r, u).value);
      assert Holds(r, k, s', u) <==> HeldAfter(r, k, u, c, s, u);
      if c.Made? && k == c.key {
        FixedNamesDiffer(r, c.role, u);
      }
    }
  }

  lemma FreshSeesAll(s: Server, pk: PKey, o: Oracle)
    requires FreshLists(s, o)
    ensures SeesSets(s, Call(pk, o)) && SeesServices(s, Call(pk, o))
  {
    forall role: Role, q: Query
      ensures Complete(o.list(At(role), q), q, s)
    {
      assert Exact(o.list(At(role), q), q, s);
    }
  }

  lemma CalmStepCloser(s: Server, pk: PKey, o: Oracle)
    requires Calm(s, pk, o)
    ensures OneStepCloser(s, Reconcile(s, pk, o).s, pk)
  {
    var p := s.prestos[pk];
    if p.status.uuid == "" {
      MintingCall(s, pk, o);
    } else {
      CalmLooks(s, pk, p, o);
      if FirstOpen(0, pk, p, o) == |PIPELINE| {
        SettledCall(s, pk, p, o);
      } else {
        WritingCall(s, pk, p, o);
      }
    }
  }

  /** What a call writes into the autoscaler can be compared with the spec it came from. */
  lemma StaysComparable(c: Change, s: Server, s': Server, pk: PKey, p: Presto, o: Oracle)
    requires Sliceable(p.status.uuid) && p.status.uuid in s.minted && s.minted[p.status.uuid] == pk
    requires Explains(c, s, s', pk, p, o) && s'.minted == s.minted && Comparable(s, p.status.uuid, p.spec)
    ensures Comparable(s', p.status.uuid, p.spec)
  {
    hide FirstOpen, Passes, NothingFound;
    var u := p.status.uuid;
    ChangeMoves(c, s, s', pk, p, o);
    forall k | AutoscalingOn(p.spec) && Holds(Autoscaler, k, s', u)
      ensures !LacksNumber(HpaSpecOf(s'.objs[k]), p.spec.worker.autoscaling)
    {
      assert HeldAfter(Autoscaler, k, u, c, s, u);
    }
  }

  lemma CalmStaysUndisturbed(s: Server, pk: PKey, o: Oracle)
    requires Calm(s, pk, o)
    ensures Undisturbed(Reconcile(s, pk, o).s, pk)
  {
    var p, s' := s.prestos[pk], Reconcile(s, pk, o).s;
    FreshSeesAll(s, pk, o);
    ReconcileKeepsInv(s, pk, o);
    CalmStepCloser(s, pk, o);
    if p.status.uuid == "" {
      MintingCall(s, pk, o);
      assert !Present(WorkerSet, s', o.freshUuid) && !Present(Autoscaler, s', o.freshUuid);
    } else {
      CallKeepsAtMostOne(s, pk, o, WorkerSet, p.status.uuid);
      var c := PipelineEffect(s, pk, p, o);
      NamesStayFree(c, s, s', pk, p, o);
      StaysComparable(c, s, s', pk, p, o);
    }
  }

  function UuidAt(s: Server, pk: PKey): string {
    if pk in s.prestos then s.prestos[pk].status.uuid else ""
  }

  /** The loss of the headless service is neither caused nor repaired by calm calls. */
  lemma CalmKeepsLoss(s: Server, pk: PKey, o: Oracle)
    requires Calm(s, pk, o)
    ensures HeadlessLost(Reconcile(s, pk, o).s, UuidAt(Reconcile(s, pk, o).s, pk)) == HeadlessLost(s, UuidAt(s, pk))
  {
    hide Reconcile, Inv, Explains, PrestosKept, Honest;
    var p := s.prestos[pk];
    var u := p.status.uuid;
    FreshSeesAll(s, pk, o);
    if u == "" {
      MintingCall(s, pk, o);
    } else {
      var c := PipelineEffect(s, pk, p, o);
      if HeadlessLost(s, u) {
        CallKeepsHeadlessLost(s, pk, o, u);
      } else {
        CallKeepsHeadlessFirst(s, pk, o, u);
      }
    }
  }

  /** Everything the spec asks for is there. */
  ghost predicate Desired(s: Server, pk: PKey) {
    pk in s.prestos &&
    var p := s.prestos[pk];
    && p.status.uuid != ""
    && (forall r: Role :: r != Autoscaler ==> Present(r, s, p.status.uuid))
    && ScalingSettled(s, p.status.uuid, p.spec)
  }

  /** The measure is 0 exactly at the desired state, or when only the headless service is lost. */
  lemma MeasureZeroIff(s: Server, pk: PKey)
    requires pk in s.prestos && s.prestos[pk].status.uuid != ""
    ensures Measure(s, pk) == 0 && !HeadlessLost(s, s.prestos[pk].status.uuid) <==> Desired(s, pk)
  {
    hide Holds;
    var p := s.prestos[pk];
    var u := p.status.uuid;
    NoneMissing(0, s, u, p.spec);
    if Measure(s, pk) == 0 && !HeadlessLost(s, u) {
      forall r: Role
        ensures Satisfied(r, s, u, p.spec)
      {
        assert Satisfied(PIPELINE[Index(r)], s, u, p.spec);
      }
      forall r: Role | r != Autoscaler && r != Headless
        ensures Present(r, s, u)
      {
        SatisfiedIsPresent(r, s, u, p.spec);
      }
      assert Satisfied(WorkerSet, s, u, p.spec) && Satisfied(Autoscaler, s, u, p.spec);
    }
  }

  lemma LiveLands(at: Server, pk: PKey, h: Presto, io: StatusIo, a: Action)
    requires pk in at.prestos && h.labels == at.prestos[pk].labels && Mergeable(a) && a != Action()
    requires io.read(h.labels) == Live && io.write == Accept
    ensures UpdateStatus(at, pk, h, io, a).s == Landed(at, pk, a)
  {
  }

  /** With every check passed, an undisturbed call ends by announcing Ready exactly if the coordinator runs. */
  lemma FinishAnnounces(at: Server, pk: PKey, p: Presto, h: Presto, o: Oracle)
    requires pk in at.prestos && Alike(p, h) && h.labels == at.prestos[pk].labels && AcceptsAll(o)
    ensures
      var r, a := Finish(at, pk, h, o, CtxAt(8, pk, p, o)), StatusWritten(pk, FinalNote(pk, p, o));
      && r.s.log == at.log + [a]
      && (Announces(a, ClusterReady) <==> CoordinatorPhase(CoordinatorListing(pk, p, o)) == PodRunning)
  {
    hide UpdateStatus, Merge;
    LiveLands(at, pk, h, o.status(AtEnd), FinalNote(pk, p, o));
  }

  function CoordinatorListing(pk: PKey, p: Presto, o: Oracle): PodListing {
    o.pods(pk.ns, CoordinatorLabels(p.status.uuid, pk.name))
  }

  function FinalNote(pk: PKey, p: Presto, o: Oracle): Note {
    FinalAction(CoordinatorPhase(CoordinatorListing(pk, p, o)), o, CtxAt(8, pk, p, o))
  }

  /** An undisturbed call announces Ready exactly if nothing is missing and the first coordinator pod listed runs. */
  lemma ReadyIff(s: Server, pk: PKey, o: Oracle)
    requires Calm(s, pk, o) && s.prestos[pk].status.uuid != ""
    ensures AnnouncesReady(s, pk, o)
       <==> Measure(s, pk) == 0 && CoordinatorPhase(CoordinatorListing(pk, s.prestos[pk], o)) == PodRunning
  {
    hide Inv, Honest, FreshLists, NamesFree, AtMostOne, ValidSpec, Passes, RunFrom, Measure;
    hide Finish, FinalNote, AcceptsAll;
    var p, s' := s.prestos[pk], Reconcile(s, pk, o).s;
    CalmLooks(s, pk, p, o);
    OpenIffMissing(s, pk, p, o);
    if AnnouncesReady(s, pk, o) {
      ReadyPassesAll(s, pk, o);
    }
    if FirstOpen(0, pk, p, o) == |PIPELINE| {
      PipelineIsFirstOpen(s, pk, p, o);
      ReachesStage(8, s, pk, p, o);
      var at := StateAt(8, s, pk, p, o);
      var e := AddressLog(8, s, pk, p, o);
      FinishAnnounces(at, pk, p, HeldAt(8, s, pk, p, o), o);
      assert s'.log[|s'.log| - 1] == StatusWritten(pk, FinalNote(pk, p, o));
    }
  }

  ghost predicate CalmRun(s: Server, pk: PKey, os: seq<Oracle>)
    decreases |os|
  {
    os != [] ==> CalmAnswers(s, pk, os[0]) && CalmRun(Reconcile(s, pk, os[0]).s, pk, os[1..])
  }

  function CalmEnd(s: Server, pk: PKey, os: seq<Oracle>): Server
    decreases |os|
  {
    if os == [] then s else CalmEnd(Reconcile(s, pk, os[0]).s, pk, os[1..])
  }

  function Min(a: int, b: int): int {
    if a < b then a else b
  }

  /**
   Convergence: from any store, n undisturbed calls make exactly min(n, measure) major writes and
   lower the measure by as many; after that the desired state is reached, for good, if and only if
   the headless service was not missing under a standing external one to begin with.
   */
  lemma {:induction false} Converges(s: Server, pk: PKey, os: seq<Oracle>)
    requires Undisturbed(s, pk) && CalmRun(s, pk, os)
    ensures
      var t := CalmEnd(s, pk, os);
      && Undisturbed(t, pk)
      && Measure(t, pk) == Measure(s, pk) - Min(|os|, Measure(s, pk))
      && MajorCount(t.log) == MajorCount(s.log) + Min(|os|, Measure(s, pk))
      && HeadlessLost(t, UuidAt(t, pk)) == HeadlessLost(s, UuidAt(s, pk))
      && (|os| >= Measure(s, pk) ==> (Desired(t, pk) <==> !HeadlessLost(s, UuidAt(s, pk))))
    decreases |os|
  {
    hide Reconcile, Present;
    if os == [] {
      if Measure(s, pk) == 0 {
        MeasureZeroIff(s, pk);
      }
    } else {
      var s' := Reconcile(s, pk, os[0]).s;
      CalmStepCloser(s, pk, os[0]);
      CalmStaysUndisturbed(s, pk, os[0]);
      CalmKeepsLoss(s, pk, os[0]);
      Converges(s', pk, os[1..]);
    }
  }
}
