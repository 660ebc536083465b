/** The hypotheses of the run theorems can be met, and the runs they warn about exist. */
module Witness {
  import opened PrestoTypes
  import opened Naming
  import opened Api
  import opened Pipeline
  import opened NormalForm
  import opened Invariants
  import opened Effects
  import opened Calls
  import opened Reads
  import opened Runs
  import opened Holders
  import opened Uniqueness
  import opened Readiness
  import opened Convergence
  import opened History

  // ---------------------------------------------------------------- answers that exist

  lemma {:induction false} ListSelected(keys: set<Key>, s: Server, q: Query) returns (items: seq<Item>)
    requires keys <= s.objs.Keys
    ensures forall i :: 0 <= i < |items| ==>
      && items[i].key in keys && items[i].obj == s.objs[items[i].key] && q.Selects(items[i].key, items[i].obj)
    ensures forall k :: k in keys && q.Selects(k, s.objs[k]) ==> Lists(Listed(items), k)
    decreases |keys|
  {
    if keys == {} {
      items := [];
    } else {
      var k :| k in keys;
      var others := ListSelected(keys - {k}, s, q);
      items := if q.Selects(k, s.objs[k]) then others + [Item(k, s.objs[k])] else others;
      forall k' | k' in keys && q.Selects(k', s.objs[k'])
        ensures Lists(Listed(items), k')
      {
        if k' == k {
          assert items[|others|].key == k;
        } else {
          assert k' in keys - {k};
          var i :| 0 <= i < |others| && others[i].key == k';
          assert items[i].key == k';
        }
      }
    }
  }

  lemma SomeExact(s: Server, q: Query)
    ensures exists l: Listing :: Exact(l, q, s)
  {
    var items := ListSelected(s.objs.Keys, s, q);
    assert Exact(Listed(items), q, s);
  }

  ghost function ExactListing(s: Server, q: Query): (l: Listing)
    ensures Exact(l, q, s)
  {
    SomeExact(s, q);
    var l: Listing :| Exact(l, q, s);
    l
  }

  ghost function CalmOracle(s: Server, p: Presto, drawn: string, suffix: string, plan: Plan): Oracle {
    Oracle(Found(p), (site, q) => ExactListing(s, q), (ns, labels) => PodsListed([]), site => Accept,
           site => StatusIo(labels => Live, Accept), drawn, suffix, suffix, plan, 0, 0)
  }

  /** A list of an earlier store is honest as long as that store is remembered. */
  lemma EarlierIsHonest(early: Server, s: Server, q: Query)
    requires Inv(s) && forall k :: k in early.objs ==> Item(k, early.objs[k]) in s.held
    ensures HonestListing(ExactListing(early, q), q, s) && ShapedListing(ExactListing(early, q), q, s)
  {
    hide Known;
    var l := ExactListing(early, q);
    forall i | 0 <= i < |l.items|
      ensures l.items[i] in s.held && Known(l.items[i].key, l.items[i].obj, s.minted)
    {
      assert l.items[i] == Item(l.items[i].key, early.objs[l.items[i].key]);
      assert ItemFits(l.items[i], s);
    }
  }

  lemma OracleIsHonest(s: Server, pk: PKey, p: Presto, drawn: string, suffix: string, plan: Plan)
    requires Inv(s) && Version(pk, p) in s.versions && plan.ports != []
    requires p.status.uuid == "" ==> Unused(drawn, s)
    ensures Honest(s, pk, CalmOracle(s, p, drawn, suffix, plan))
    ensures FreshLists(s, CalmOracle(s, p, drawn, suffix, plan))
    ensures AcceptsAll(CalmOracle(s, p, drawn, suffix, plan))
  {
    hide Known, ItemFits, PrestoFits, Unused;
    forall q: Query
      ensures HonestListing(ExactListing(s, q), q, s) && ShapedListing(ExactListing(s, q), q, s)
    {
      EarlierIsHonest(s, s, q);
    }
  }

  /** The given suffix will do for whichever ReplicaSet of the cluster is still to be made. */
  ghost predicate RoomFor(s: Server, pk: PKey, u: string, suffix: string) {
    SuffixFree(CoordSet, s, pk, u, suffix) && SuffixFree(WorkerSet, s, pk, u, suffix)
  }

  /** Names for a cluster: a UUID drawn by nobody, if one is to be drawn, and a suffix. */
  ghost predicate Provided(s: Server, pk: PKey, drawn: string, suffix: string) {
    pk in s.prestos &&
    if s.prestos[pk].status.uuid == ""
    then Unused(drawn, s) && NamesFree(s, pk, drawn, s.prestos[pk].spec) && RoomFor(s, pk, drawn, suffix)
    else RoomFor(s, pk, s.prestos[pk].status.uuid, suffix)
  }

  /** Whatever has gone missing, calm answers exist. */
  lemma SomeCalmAnswers(s: Server, pk: PKey, plan: Plan, drawn: string, suffix: string)
    requires Inv(s) && ValidPlan(plan) && plan.ports != [] && Provided(s, pk, drawn, suffix)
    ensures CalmAnswers(s, pk, CalmOracle(s, s.prestos[pk], drawn, suffix, plan))
  {
    hide Inv, Honest, FreshLists, AcceptsAll, NamesFree, Unused;
    CurrentIsVersion(s, pk);
    OracleIsHonest(s, pk, s.prestos[pk], drawn, suffix, plan);
  }

  lemma CurrentIsVersion(s: Server, pk: PKey)
    requires Inv(s) && pk in s.prestos
    ensures Version(pk, s.prestos[pk]) in s.versions
  {
  }

  /** The names stay provided until they are used. */
  lemma StaysProvided(s: Server, pk: PKey, o: Oracle, suffix: string)
    requires Calm(s, pk, o) && Provided(s, pk, o.freshUuid, suffix) && o.coordSuffix == o.workerSuffix == suffix
    ensures Provided(Reconcile(s, pk, o).s, pk, o.freshUuid, suffix)
  {
    hide Inv, Honest, FreshLists, NamesFree, Reconcile, AtMostOne, Comparable, Unused;
    var s' := Reconcile(s, pk, o).s;
    UuidIsSet(s, pk, o);
    if UuidAt(s, pk) == "" {
      DrawnIsSliceable(s, o.freshUuid);
      MintingCall(s, pk, o);
      NothingHeldYet(s, s', o.freshUuid, pk);
      RoomAtFirst(s, s', pk, o.freshUuid, suffix);
    } else {
      var c := PipelineEffect(s, pk, s.prestos[pk], o);
      KeepsRoom(c, s, s', pk, s.prestos[pk], o, suffix, CoordSet);
      KeepsRoom(c, s, s', pk, s.prestos[pk], o, suffix, WorkerSet);
    }
  }

  /** After a calm call the UUID is set, to the one drawn if it was not before. */
  lemma UuidIsSet(s: Server, pk: PKey, o: Oracle)
    requires Calm(s, pk, o)
    ensures
      var s' := Reconcile(s, pk, o).s;
      pk in s'.prestos && UuidAt(s', pk) == (if UuidAt(s, pk) == "" then o.freshUuid else UuidAt(s, pk)) != ""
  {
    hide Reconcile, Inv, NamesFree;
    if UuidAt(s, pk) == "" {
      MintingLands(s, pk, o);
    } else {
      var c := PipelineEffect(s, pk, s.prestos[pk], o);
    }
  }

  lemma DrawnIsSliceable(s: Server, u: string)
    requires Unused(u, s)
    ensures Sliceable(u) && u != "" && forall r: Role :: !Present(r, s, u)
  {
  }

  lemma RoomAtFirst(s: Server, s': Server, pk: PKey, u: string, suffix: string)
    requires RoomFor(s, pk, u, suffix) && s'.objs == s.objs && forall r: Role :: !Present(r, s, u)
    ensures RoomFor(s', pk, u, suffix)
  {
    hide Holds;
  }

  lemma KeepsRoom(c: Change, s: Server, s': Server, pk: PKey, p: Presto, o: Oracle, suffix: string, r: Role)
    requires Sliceable(p.status.uuid) && p.status.uuid in s.minted && s.minted[p.status.uuid] == pk
    requires Explains(c, s, s', pk, p, o) && s'.minted == s.minted && o.coordSuffix == o.workerSuffix == suffix
    requires r in {CoordSet, WorkerSet} && SuffixFree(r, s, pk, p.status.uuid, suffix)
    ensures SuffixFree(r, s', pk, p.status.uuid, suffix)
  {
    hide FirstOpen, Passes, BuiltFor, NothingFound, IsRole;
    var u := p.status.uuid;
    ChangeMoves(c, s, s', pk, p, o);
    if k :| Holds(r, k, s, u) {
      assert HeldAfter(r, k, u, c, s, u) || c == Removed(k);
      SetsStay(c, s, s', pk, p, o, r, k);
    } else if c.Made? && c.key == SetKey(r, pk, u, suffix) {
      MadeUnder(c, s, s', pk, p, o, r, suffix);
      assert HeldAfter(r, c.key, u, c, s, u);
    }
  }

  /** No call removes a ReplicaSet. */
  lemma SetsStay(c: Change, s: Server, s': Server, pk: PKey, p: Presto, o: Oracle, r: Role, k: Key)
    requires Sliceable(p.status.uuid) && Explains(c, s, s', pk, p, o) && Moves(c, p.status.uuid, s, s')
    requires r in {CoordSet, WorkerSet} && Holds(r, k, s, p.status.uuid)
    ensures Present(r, s', p.status.uuid)
  {
    hide FirstOpen, Passes, BuiltFor, NothingFound;
    assert HeldAfter(r, k, p.status.uuid, c, s, p.status.uuid);
  }

  /** The two ReplicaSets have different prefixes. */
  lemma MadeUnder(c: Change, s: Server, s': Server, pk: PKey, p: Presto, o: Oracle, r: Role, suffix: string)
    requires Sliceable(p.status.uuid) && Explains(c, s, s', pk, p, o) && o.coordSuffix == o.workerSuffix == suffix
    requires r in {CoordSet, WorkerSet} && c.Made? && c.key == SetKey(r, pk, p.status.uuid, suffix)
    ensures c.role == r
  {
    hide FirstOpen, Passes, BuiltFor, NothingFound;
    var u := p.status.uuid;
    assert SetKey(CoordSet, pk, u, suffix).name[0] == 'c' && SetKey(WorkerSet, pk, u, suffix).name[0] == 'w';
  }

  /** From every undisturbed store there are undisturbed runs of every length, given names for what is to be made. */
  lemma {:induction false} SomeCalmRun(s: Server, pk: PKey, plan: Plan, drawn: string, suffix: string, n: nat)
    returns (os: seq<Oracle>)
    requires Undisturbed(s, pk) && ValidPlan(plan) && plan.ports != [] && Provided(s, pk, drawn, suffix)
    ensures |os| == n && CalmRun(s, pk, os)
    ensures forall o :: o in os ==> o.freshUuid == drawn && o.coordSuffix == o.workerSuffix == suffix
    decreases n
  {
    hide Inv, NamesFree, AtMostOne, Comparable, ValidSpec, CalmAnswers, Reconcile, Provided;
    os := [];
    if n > 0 {
      var o := CalmOracle(s, s.prestos[pk], drawn, suffix, plan);
      SomeCalmAnswers(s, pk, plan, drawn, suffix);
      CalmStaysUndisturbed(s, pk, o);
      StaysProvided(s, pk, o, suffix);
      var rest := SomeCalmRun(Reconcile(s, pk, o).s, pk, plan, drawn, suffix, n - 1);
      os := [o] + rest;
    }
  }

  // ---------------------------------------------------------------- a cluster from nothing

  function Created(pk: PKey, uid: string, labels: Labels, spec: PrestoSpec): Server {
    Take(INIT, CreatePresto(pk, uid, labels, spec))
  }

  lemma CreatedIsUndisturbed(pk: PKey, uid: string, labels: Labels, spec: PrestoSpec, u: string, suffix: string)
    requires ValidSpec(spec) && Sliceable(u)
    ensures
      var s := Created(pk, uid, labels, spec);
      && s.objs == map[] && s.minted == map[] && s.held == {}
      && Undisturbed(s, pk) && UuidAt(s, pk) == "" && !HeadlessLost(s, "") && Provided(s, pk, u, suffix)
  {
  }

  lemma FirstCall(pk: PKey, uid: string, labels: Labels, spec: PrestoSpec, plan: Plan, u: string) returns (o: Oracle)
    requires ValidSpec(spec) && ValidPlan(plan) && plan.ports != [] && Sliceable(u)
    ensures
      var s := Created(pk, uid, labels, spec);
      var t := Reconcile(s, pk, o).s;
      && Calm(s, pk, o) && Undisturbed(t, pk)
      && t == Landed(s, pk, Action(clusterUuid := Some(u)))
      && OneStepCloser(s, t, pk)
  {
    hide Undisturbed, CalmAnswers, Reconcile, Inv, Provided;
    var s := Created(pk, uid, labels, spec);
    CreatedIsUndisturbed(pk, uid, labels, spec, u, "");
    o := CalmOracle(s, s.prestos[pk], u, "", plan);
    SomeCalmAnswers(s, pk, plan, u, "");
    CalmStaysUndisturbed(s, pk, o);
    MintingCall(s, pk, o);
  }

  /** A new resource with a valid spec can be brought to its desired state, one write per call, whatever its UUID. */
  lemma NewClusterConverges(pk: PKey, uid: string, labels: Labels, spec: PrestoSpec, plan: Plan, u: string,
                            suffix: string)
    returns (os: seq<Oracle>)
    requires ValidSpec(spec) && ValidPlan(plan) && plan.ports != [] && Sliceable(u)
    ensures
      var s := Created(pk, uid, labels, spec);
      var t := CalmEnd(s, pk, os);
      && Undisturbed(s, pk) && CalmRun(s, pk, os) && os != [] && os[0].freshUuid == u
      && Undisturbed(t, pk) && Desired(t, pk) && MajorCount(t.log) == MajorCount(s.log) + |os|
  {
    hide Undisturbed, CalmAnswers, Reconcile, Desired, HeadlessLost, Provided, MajorCount, CalmRun, CalmEnd, Missing;
    var s := Created(pk, uid, labels, spec);
    CreatedIsUndisturbed(pk, uid, labels, spec, u, suffix);
    os := SomeCalmRun(s, pk, plan, u, suffix, Measure(s, pk));
    Converges(s, pk, os);
  }

  // ---------------------------------------------------------------- the runs to beware of

  predicate CoordinatorListedRunning(s: Server, pk: PKey, o: Oracle) {
    pk in s.prestos && CoordinatorPhase(CoordinatorListing(pk, s.prestos[pk], o)) == PodRunning
  }

  /** A finished cluster whose headless service is deleted: undisturbed calls announce Ready and never bring it back. */
  lemma HeadlessCanBeLost(s: Server, pk: PKey) returns (k: Key)
    requires Undisturbed(s, pk) && Desired(s, pk)
    ensures Holds(Headless, k, s, UuidAt(s, pk))
    ensures
      var t := Take(s, OutsideDelete(k));
      && Undisturbed(t, pk) && HeadlessLost(t, UuidAt(t, pk))
      && (forall os :: CalmRun(t, pk, os) ==> !Desired(CalmEnd(t, pk, os), pk))
      && (forall o :: CalmAnswers(t, pk, o) && CoordinatorListedRunning(t, pk, o) ==> AnnouncesReady(t, pk, o))
  {
    hide Reconcile, Inv, Holds, ScalingSettled, AnnouncesReady, CoordinatorListing;
    var u := UuidAt(s, pk);
    assert Present(Headless, s, u);
    k :| Holds(Headless, k, s, u);
    var t := Take(s, OutsideDelete(k));
    LossByDeletion(s, pk, k);
    NothingElseMissing(s, pk, k, t);
    forall os | CalmRun(t, pk, os)
      ensures !Desired(CalmEnd(t, pk, os), pk)
    {
      Converges(t, pk, os);
    }
    forall o | CalmAnswers(t, pk, o) && CoordinatorListedRunning(t, pk, o)
      ensures AnnouncesReady(t, pk, o)
    {
      ReadyIff(t, pk, o);
    }
  }

  /** The standing external service passes for the headless one. */
  lemma NothingElseMissing(s: Server, pk: PKey, k: Key, t: Server)
    requires Undisturbed(s, pk) && Desired(s, pk) && Holds(Headless, k, s, UuidAt(s, pk))
    requires t == s.(objs := s.objs - {k})
    ensures Measure(t, pk) == 0
  {
    hide Inv, IsRole, NamesFree, ValidSpec, AutoscalingOn, ScaledAs, TunedAs;
    var u, spec := UuidAt(s, pk), s.prestos[pk].spec;
    forall r: Role, k'
      ensures Holds(r, k', t, u) <==> Holds(r, k', s, u) && k' != k
      ensures Holds(r, k', s, u) && r != Headless ==> k' != k
    {
      if Holds(r, k', s, u) && k' == k {
        RoleIsUnique(r, Headless, k, s.objs[k], u, u, s.minted[u].name, s.minted[u].name);
      }
    }
    forall r: Role
      ensures Satisfied(r, t, u, spec)
    {
      assert Present(External, s, u) && (r != Autoscaler ==> Present(r, s, u));
      assert Satisfied(WorkerSet, s, u, spec) && Satisfied(Autoscaler, s, u, spec);
    }
    NoneMissing(0, t, u, spec);
  }

  lemma DeletionMoves(s: Server, k: Key, r: Role, k': Key, u: string)
    requires Inv(s)
    ensures Holds(r, k', Take(s, OutsideDelete(k)), u) <==> Holds(r, k', s, u) && k' != k
  {
    hide Inv, IsRole;
  }

  lemma LossByDeletion(s: Server, pk: PKey, k: Key)
    requires Undisturbed(s, pk) && Desired(s, pk) && Holds(Headless, k, s, UuidAt(s, pk))
    ensures
      var t := Take(s, OutsideDelete(k));
      Undisturbed(t, pk) && HeadlessLost(t, UuidAt(t, pk))
  {
    hide Inv, Holds, ScalingSettled, ValidSpec;
    var u, t := UuidAt(s, pk), Take(s, OutsideDelete(k));
    StepKeepsInv(s, OutsideDelete(k));
    forall r: Role, k', v: string
      ensures Holds(r, k', t, v) <==> Holds(r, k', s, v) && k' != k
    {
      DeletionMoves(s, k, r, k', v);
    }
    ComparableWithout(s, t, k, u, s.prestos[pk].spec);
    NamedAtMostOne(Headless, s, u);
    assert Present(External, s, u);
    var e :| Holds(External, e, s, u);
    RolesApart(s, k, e, u);
    assert Holds(External, e, t, u);
    NamesStayFreeOfDeleted(s, t, pk, k, u, s.prestos[pk].spec);
  }

  lemma ComparableWithout(s: Server, t: Server, k: Key, u: string, spec: PrestoSpec)
    requires Comparable(s, u, spec) && t.objs == s.objs - {k} && t.minted == s.minted
    ensures Comparable(t, u, spec)
  {
    hide IsRole, LacksNumber;
    assert forall k' :: Holds(Autoscaler, k', t, u) ==> Holds(Autoscaler, k', s, u);
  }

  lemma RolesApart(s: Server, k: Key, e: Key, u: string)
    requires Holds(Headless, k, s, u) && Holds(External, e, s, u)
    ensures k != e
  {
    if k == e {
      RoleIsUnique(Headless, External, k, s.objs[k], u, u, s.minted[u].name, s.minted[u].name);
    }
  }

  lemma NamesStayFreeOfDeleted(s: Server, t: Server, pk: PKey, k: Key, u: string, spec: PrestoSpec)
    requires NamesFree(s, pk, u, spec) && t.objs == s.objs - {k}
    requires forall r: Role, k', v: string :: Holds(r, k', t, v) <==> Holds(r, k', s, v) && k' != k
    ensures NamesFree(t, pk, u, spec)
  {
    hide Holds, FixedName;
  }

  /** A call that reads the resource from before its UUID was set, and then the current one, replaces the UUID. */
  lemma UuidCanBeReplaced(pk: PKey, uid: string, labels: Labels, spec: PrestoSpec, plan: Plan, u: string, u': string)
    returns (o: Oracle, o': Oracle)
    requires ValidSpec(spec) && ValidPlan(plan) && plan.ports != [] && Sliceable(u) && Sliceable(u') && u != u'
    ensures
      var s := Created(pk, uid, labels, spec);
      var t := Reconcile(s, pk, o).s;
      && Honest(s, pk, o) && Honest(t, pk, o')
      && pk in t.prestos && t.prestos[pk].status.uuid == u
      && pk in Reconcile(t, pk, o').s.prestos
      && Reconcile(t, pk, o').s.prestos[pk].status.uuid != u
  {
    hide Reconcile, NamesFree, Inv, Honest, ValidSpec;
    var s := Created(pk, uid, labels, spec);
    o := FirstCall(pk, uid, labels, spec, plan, u);
    var t := Reconcile(s, pk, o).s;
    o' := CalmOracle(t, s.prestos[pk], u', "", plan);
    OracleIsHonest(t, pk, s.prestos[pk], u', "", plan);
    UuidOverwrittenIff(t, pk, o');
  }

  /** A finished cluster whose autoscaling is switched off still has its autoscaler. */
  lemma SwitchedOffLingers(s: Server, pk: PKey, spec: PrestoSpec) returns (k: Key)
    requires Undisturbed(s, pk) && Desired(s, pk) && AutoscalingOn(s.prestos[pk].spec)
    requires ValidSpec(spec) && !AutoscalingOn(spec)
    ensures Lingers(Take(s, EditSpec(pk, spec)), pk, UuidAt(s, pk), k, spec)
  {
    hide Inv, IsRole, ValidSpec, AutoscalingOn;
    var u, t := UuidAt(s, pk), Take(s, EditSpec(pk, spec));
    assert Present(WorkerSet, s, u) && Present(Autoscaler, s, u);
    k :| Holds(WorkerSet, k, s, u);
    var h :| Holds(Autoscaler, h, s, u);
    StepKeepsInv(s, EditSpec(pk, spec));
    forall r: Role, k', v: string
      ensures Holds(r, k', t, v) <==> Holds(r, k', s, v)
    {
    }
    assert Holds(Autoscaler, h, t, u);
  }

  lemma MeddlingKeepsRoom(s: Server, k: Key, spec: PrestoSpec, pk: PKey, u: string, suffix: string)
    requires Inv(s) && RoomFor(s, pk, u, suffix)
    ensures RoomFor(Take(s, Meddle(k, spec)), pk, u, suffix)
  {
    hide Inv, Holds, Reconcile;
    var t := Take(s, Meddle(k, spec));
    OutsideMoves(s, Meddle(k, spec));
    forall r: Role | Present(r, s, u)
      ensures Present(r, t, u)
    {
      var k' :| Holds(r, k', s, u);
      assert Holds(r, k', t, u) <==> HeldAfter(r, k', u, Nothing, s, "");
    }
  }

  /** From there the autoscaler can be kept alive through any number of otherwise undisturbed calls. */
  lemma {:induction false} SomeMeddledRun(s: Server, pk: PKey, u: string, k: Key, spec: PrestoSpec, plan: Plan,
                                          suffix: string, n: nat)
    returns (os: seq<Oracle>)
    requires Lingers(s, pk, u, k, spec) && ValidPlan(plan) && plan.ports != [] && RoomFor(s, pk, u, suffix)
    ensures |os| == n && MeddledRun(s, pk, k, spec, os)
    ensures Present(Autoscaler, MeddledEnd(s, pk, k, spec, os), u)
    decreases n
  {
    hide Inv, NamesFree, AtMostOne, Comparable, CalmAnswers, Reconcile, Satisfied, AutoscalingOn, Holds, Take, RoomFor;
    os := [];
    if n > 0 {
      var t := Take(s, Meddle(k, spec));
      MeddlingLingers(s, pk, u, k, spec);
      MeddlingKeepsRoom(s, k, spec, pk, u, suffix);
      var o := CalmOracle(t, t.prestos[pk], "", suffix, plan);
      SomeCalmAnswers(t, pk, plan, "", suffix);
      CallLingers(t, pk, o, u, k, spec);
      StaysProvided(t, pk, o, suffix);
      var rest := SomeMeddledRun(Reconcile(t, pk, o).s, pk, u, k, spec, plan, suffix, n - 1);
      os := [o] + rest;
      assert os[1..] == rest;
    }
  }

  // ---------------------------------------------------------------- the calls that crash

  /** The first stage that is not satisfied is the first one open. */
  lemma OpenAt(j: nat, s: Server, pk: PKey, p: Presto, o: Oracle)
    requires Looks(s, pk, p, o) && Sliceable(p.status.uuid) && AtMostOne(WorkerSet, s, p.status.uuid)
    requires p.spec.service.serviceType != "ExternalName" && ValidPlan(o.plan) && j < |PIPELINE|
    requires forall i :: 0 <= i < j ==> Satisfied(PIPELINE[i], s, p.status.uuid, p.spec)
    requires !Satisfied(PIPELINE[j], s, p.status.uuid, p.spec)
    ensures FirstOpen(0, pk, p, o) == j
  {
    hide Looks, Satisfied, Passes;
    NamedAtMostOne(Autoscaler, s, p.status.uuid);
    forall i | 0 <= i <= j
      ensures Passes(PIPELINE[i], pk, p, o) <==> i < j
    {
      PassesIff(PIPELINE[i], s, pk, p, o);
    }
  }

  lemma UuidIsMinted(s: Server, pk: PKey)
    requires Inv(s) && UuidAt(s, pk) != ""
    ensures UuidAt(s, pk) in s.minted && s.minted[UuidAt(s, pk)] == pk && Sliceable(UuidAt(s, pk))
  {
  }

  lemma SameHolders(s: Server, t: Server, r: Role, u: string)
    requires t.objs == s.objs && t.minted == s.minted
    ensures Present(r, t, u) == Present(r, s, u)
    ensures forall k :: Holds(r, k, t, u) <==> Holds(r, k, s, u)
  {
    hide IsRole;
    assert forall k :: Holds(r, k, t, u) <==> Holds(r, k, s, u);
  }

  function WithoutCount(spec: PrestoSpec): PrestoSpec {
    spec.(worker := spec.worker.(count := None))
  }

  function WithoutMaximum(spec: PrestoSpec): PrestoSpec {
    spec.(worker := spec.worker.(autoscaling := spec.worker.autoscaling.(maxReplicas := None)))
  }

  /** A finished cluster loses its workers and its spec the count: the next call crashes. */
  lemma CountCanPanic(s: Server, pk: PKey, plan: Plan) returns (k: Key, o: Oracle)
    requires Undisturbed(s, pk) && Desired(s, pk) && ValidPlan(plan) && plan.ports != []
    ensures Holds(WorkerSet, k, s, UuidAt(s, pk))
    ensures
      var t := Take(Take(s, OutsideDelete(k)), EditSpec(pk, WithoutCount(s.prestos[pk].spec)));
      Honest(t, pk, o) && FreshLists(t, o) && Reconcile(t, pk, o).verdict.Panicked?
  {
    hide Reconcile, Inv, IsRole, NamesFree, Honest, FreshLists, Passes, Answer, FirstOpen;
    var u := UuidAt(s, pk);
    assert Present(WorkerSet, s, u);
    k :| Holds(WorkerSet, k, s, u);
    var edit := EditSpec(pk, WithoutCount(s.prestos[pk].spec));
    var t := Take(Take(s, OutsideDelete(k)), edit);
    StepKeepsInv(s, OutsideDelete(k));
    StepKeepsInv(Take(s, OutsideDelete(k)), edit);
    WorkersGone(s, pk, k, t);
    var p := t.prestos[pk];
    o := CalmOracle(t, p, "", "", plan);
    CurrentIsVersion(t, pk);
    OracleIsHonest(t, pk, p, "", "", plan);
    OpenAt(6, t, pk, p, o);
    ListedIffPresent(WorkerSet, t, pk, p, o);
    CrashesIff(t, pk, o);
  }

  lemma WorkersGone(s: Server, pk: PKey, k: Key, t: Server)
    requires Undisturbed(s, pk) && Desired(s, pk) && Holds(WorkerSet, k, s, UuidAt(s, pk))
    requires t.objs == s.objs - {k} && t.minted == s.minted
    ensures
      var u := UuidAt(s, pk);
      && Sliceable(u) && u in t.minted && t.minted[u] == pk
      && !Present(WorkerSet, t, u)
      && forall i, spec :: 0 <= i < 6 ==> Satisfied(PIPELINE[i], t, u, spec)
  {
    hide IsRole, NamesFree, ScalingSettled;
    var u := UuidAt(s, pk);
    assert AtMostOne(WorkerSet, s, u);
    forall k'
      ensures !Holds(WorkerSet, k', t, u)
    {
      assert Holds(WorkerSet, k', t, u) ==> Holds(WorkerSet, k', s, u);
    }
    forall r: Role, k' | Holds(r, k', s, u) && r != WorkerSet
      ensures Holds(r, k', t, u)
    {
      if k' == k {
        RoleIsUnique(r, WorkerSet, k, s.objs[k], u, u, s.minted[u].name, s.minted[u].name);
      }
    }
    forall r: Role | r != WorkerSet && r != Autoscaler
      ensures Present(r, t, u)
    {
      assert Present(r, s, u);
    }
  }

  /** A finished, autoscaled cluster whose spec loses a number: the next call crashes comparing it. */
  lemma NumberCanPanic(s: Server, pk: PKey, plan: Plan) returns (o: Oracle)
    requires Undisturbed(s, pk) && Desired(s, pk) && AutoscalingOn(s.prestos[pk].spec)
    requires ValidPlan(plan) && plan.ports != []
    ensures
      var t := Take(s, EditSpec(pk, WithoutMaximum(s.prestos[pk].spec)));
      Honest(t, pk, o) && FreshLists(t, o) && Reconcile(t, pk, o).verdict.Panicked?
  {
    hide Reconcile, Inv, IsRole, NamesFree, Honest, FreshLists, Passes;
    var u := UuidAt(s, pk);
    var edit := EditSpec(pk, WithoutMaximum(s.prestos[pk].spec));
    var t := Take(s, edit);
    StepKeepsInv(s, edit);
    NumbersGone(s, pk, t);
    var p := t.prestos[pk];
    o := CalmOracle(t, p, "", "", plan);
    CurrentIsVersion(t, pk);
    OracleIsHonest(t, pk, p, "", "", plan);
    OpenAt(7, t, pk, p, o);
    ListedIffPresent(Autoscaler, t, pk, p, o);
    CrashesIff(t, pk, o);
  }

  lemma NumbersGone(s: Server, pk: PKey, t: Server)
    requires Undisturbed(s, pk) && Desired(s, pk) && AutoscalingOn(s.prestos[pk].spec)
    requires t.objs == s.objs && t.minted == s.minted
    ensures
      var u, spec := UuidAt(s, pk), WithoutMaximum(s.prestos[pk].spec);
      && Sliceable(u) && u in t.minted && t.minted[u] == pk
      && Present(Autoscaler, t, u) && !Satisfied(Autoscaler, t, u, spec) && AtMostOne(WorkerSet, t, u)
      && forall i :: 0 <= i < 7 ==> Satisfied(PIPELINE[i], t, u, spec)
  {
    hide Inv, IsRole, NamesFree, ValidSpec;
    var u, spec := UuidAt(s, pk), WithoutMaximum(s.prestos[pk].spec);
    UuidIsMinted(s, pk);
    assert AtMostOne(WorkerSet, s, u);
    SameHolders(s, t, WorkerSet, u);
    SameHolders(s, t, Autoscaler, u);
    assert Present(External, s, u);
    forall r: Role | r != Autoscaler
      ensures Satisfied(r, t, u, spec)
    {
      assert Present(r, s, u);
      SameHolders(s, t, r, u);
    }
    assert forall i :: 0 <= i < 7 ==> PIPELINE[i] != Autoscaler;
  }

  function WithoutTarget(hpa: HpaSpec): HpaSpec {
    hpa.(targetCpu := None)
  }

  /** With a complete spec, somebody else's edit of the autoscaler, to a target other than CPU, is enough. */
  lemma TuningCanPanic(s: Server, pk: PKey, plan: Plan) returns (k: Key, o: Oracle)
    requires Undisturbed(s, pk) && Desired(s, pk) && AutoscalingOn(s.prestos[pk].spec)
    requires ValidPlan(plan) && plan.ports != []
    ensures Holds(Autoscaler, k, s, UuidAt(s, pk))
    ensures
      var t := Take(s, OutsideTune(k, WithoutTarget(HpaSpecOf(s.objs[k]))));
      && pk in t.prestos && ValidSpec(t.prestos[pk].spec)
      && Honest(t, pk, o) && FreshLists(t, o) && Reconcile(t, pk, o).verdict.Panicked?
  {
    hide Reconcile, Inv, IsRole, NamesFree, Honest, FreshLists, Passes, FirstOpen, Answer;
    var u := UuidAt(s, pk);
    assert Satisfied(Autoscaler, s, u, s.prestos[pk].spec);
    k :| Holds(Autoscaler, k, s, u) && TunedAs(HpaSpecOf(s.objs[k]), s.prestos[pk].spec.worker.autoscaling);
    var tune := OutsideTune(k, WithoutTarget(HpaSpecOf(s.objs[k])));
    var t := Take(s, tune);
    StepKeepsInv(s, tune);
    UuidIsMinted(s, pk);
    TargetGone(s, pk, k, t);
    var p := t.prestos[pk];
    o := CalmOracle(t, p, "", "", plan);
    CurrentIsVersion(t, pk);
    OracleIsHonest(t, pk, p, "", "", plan);
    OpenAt(7, t, pk, p, o);
    CrashChangesNothing(t, pk, o);
  }

  lemma TargetGone(s: Server, pk: PKey, k: Key, t: Server)
    requires Undisturbed(s, pk) && Desired(s, pk) && AutoscalingOn(s.prestos[pk].spec)
    requires Holds(Autoscaler, k, s, UuidAt(s, pk))
    requires TunedAs(HpaSpecOf(s.objs[k]), s.prestos[pk].spec.worker.autoscaling)
    requires t == Take(s, OutsideTune(k, WithoutTarget(HpaSpecOf(s.objs[k]))))
    ensures
      var u, spec := UuidAt(s, pk), s.prestos[pk].spec;
      && t.prestos == s.prestos && t.minted == s.minted
      && !Comparable(t, u, spec) && !Satisfied(Autoscaler, t, u, spec) && AtMostOne(WorkerSet, t, u)
      && forall i :: 0 <= i < 7 ==> Satisfied(PIPELINE[i], t, u, spec)
  {
    hide Inv, IsRole, NamesFree, ValidSpec, Reconcile;
    var u, spec, tune := UuidAt(s, pk), s.prestos[pk].spec, OutsideTune(k, WithoutTarget(HpaSpecOf(s.objs[k])));
    AutoscalerHasBody(k, s, u);
    OutsideMoves(s, tune);
    StepKeepsAtMostOne(s, tune, WorkerSet, u);
    forall r: Role, k'
      ensures Holds(r, k', t, u) <==> Holds(r, k', s, u)
    {
      assert Holds(r, k', t, u) <==> HeldAfter(r, k', u, Nothing, s, "");
    }
    assert Holds(Autoscaler, k, t, u);
    IncomparableIsUnsettled(t, u, spec);
    forall r: Role | r != Autoscaler
      ensures Satisfied(r, t, u, spec)
    {
      assert Present(r, s, u);
      var k' :| Holds(r, k', s, u);
      assert Holds(r, k', t, u);
    }
    assert forall i :: 0 <= i < 7 ==> PIPELINE[i] != Autoscaler;
  }

  lemma AutoscalerHasBody(k: Key, s: Server, u: string)
    requires Holds(Autoscaler, k, s, u)
    ensures s.objs[k].body.HpaBody?
  {
  }
}
