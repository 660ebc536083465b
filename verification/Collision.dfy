/** Two clusters whose UUIDs begin alike, and a lagging autoscaler list: a run in which one loses to the other. */
module Collision {
  import opened PrestoTypes
  import opened Naming
  import opened Api
  import opened Pipeline
  import opened NormalForm
  import opened Invariants
  import opened Reads
  import opened Runs
  import opened Holders
  import opened Uniqueness
  import opened Readiness
  import opened Convergence
  import opened Isolation
  import opened Witness
  import opened Lagging

  // ---------------------------------------------------------------- the names they share

  /** The keys of the cluster's services and config maps. */
  function ServiceKeys(pk: PKey, u: string): seq<Key>
    requires Sliceable(u)
  {
    [Key(Service, pk.ns, PodDiscoveryServiceName(u)), Key(Service, pk.ns, ExternalServiceName(u)),
     Key(ConfigMap, pk.ns, CoordinatorConfigMapName(u)), Key(ConfigMap, pk.ns, WorkerConfigMapName(u)),
     Key(ConfigMap, pk.ns, CatalogConfigMapName(u))]
  }

  /** Nothing is under the names of cluster u's services and config maps. */
  ghost predicate Cleared(s: Server, pk: PKey, u: string)
    requires Sliceable(u)
  {
    forall k :: k in ServiceKeys(pk, u) ==> k !in s.objs
  }

  lemma ClearedNames(s: Server, pk: PKey, u: string, spec: PrestoSpec)
    requires Sliceable(u) && Cleared(s, pk, u) && (AutoscalingOn(spec) ==> HpaKey(pk, u) !in s.objs)
    ensures NamesFree(s, pk, u, spec)
    ensures u in s.minted && s.minted[u] == pk ==> !Present(External, s, u)
    ensures u in s.minted && s.minted[u] == pk && AutoscalingOn(spec) ==> !Present(Autoscaler, s, u)
  {
    var keys := ServiceKeys(pk, u);
    assert keys[0] in keys && keys[1] in keys && keys[2] in keys && keys[3] in keys && keys[4] in keys;
  }

  /** Two UUIDs with the same first eight characters. */
  predicate Alike8(u: string, v: string) {
    Sliceable(u) && Sliceable(v) && u != v && Short(u) == Short(v)
  }

  lemma AlikeNames(pk: PKey, pk': PKey, u: string, v: string, r: Role, suffix: string)
    requires Alike8(u, v) && pk.ns == pk'.ns
    ensures ServiceKeys(pk, u) == ServiceKeys(pk', v) && HpaKey(pk, u) == HpaKey(pk', v)
    ensures SetKey(r, pk, u, suffix) == SetKey(r, pk', v, suffix)
  {
  }

  // ---------------------------------------------------------------- the first cluster

  /** The first cluster finished, with the second one's UUID and suffix still unused. */
  ghost predicate First(s: Server, pk: PKey, u: string, v: string, b: string) {
    && Undisturbed(s, pk) && Desired(s, pk) && UuidAt(s, pk) == u && Sliceable(u) && Unused(v, s)
    && s.prestos.Keys == {pk} && SetNamesFree(s, pk, u, b)
  }

  ghost predicate SetNamesFree(s: Server, pk: PKey, u: string, suffix: string)
    requires Sliceable(u)
  {
    SetKey(CoordSet, pk, u, suffix) !in s.objs && SetKey(WorkerSet, pk, u, suffix) !in s.objs
  }

  lemma FirstUp(pk: PKey, spec: PrestoSpec, plan: Plan, u: string, v: string, a: string, b: string)
    returns (steps: seq<Step>, s: Server)
    requires ValidSpec(spec) && ValidPlan(plan) && plan.ports != [] && Sliceable(u) && Sliceable(v) && u != v && a != b
    ensures Leads(INIT, steps, s, None) && First(s, pk, u, v, b) && s.prestos[pk].spec == spec
  {
    hide Undisturbed, Desired, HeadlessLost, Provided, Leads, ValidSpec, ValidPlan, CalmRun, CalmEnd, Missing, Spares;
    var create, t := CreatePresto(pk, "", map[], spec), Witness.Created(pk, "", map[], spec);
    CreatedIsUndisturbed(pk, "", map[], spec, u, a);
    OneStep(INIT, create, None);
    var os := SomeCalmRun(t, pk, plan, u, a, Measure(t, pk));
    s := CalmEnd(t, pk, os);
    CalmLeads(t, pk, os);
    Converges(t, pk, os);
    CalmRunSpares(t, pk, os, a);
    Joined(INIT, [create], t, Calls(pk, os), s, None);
    steps := [create] + Calls(pk, os);
    UnusedFromNothing(t, v);
    NamesSpared(t, s, pk, u, a, b);
  }

  function Calls(pk: PKey, os: seq<Oracle>): seq<Step> {
    seq(|os|, i requires 0 <= i < |os| => Call(pk, os[i]))
  }

  lemma {:induction false} CalmLeads(s: Server, pk: PKey, os: seq<Oracle>)
    requires CalmRun(s, pk, os)
    ensures Leads(s, Calls(pk, os), CalmEnd(s, pk, os), None)
    decreases |os|
  {
    hide Reconcile, Honest, Lags;
    if os != [] {
      CalmLeads(Reconcile(s, pk, os[0]).s, pk, os[1..]);
      assert Calls(pk, os)[1..] == Calls(pk, os[1..]);
    }
  }

  lemma UnusedFromNothing(s: Server, v: string)
    requires s.minted == map[] && s.held == {} && Sliceable(v)
    ensures Unused(v, s)
  {
  }

  /** ReplicaSets named with one suffix leave the names with another free. */
  lemma NamesSpared(s: Server, t: Server, pk: PKey, u: string, a: string, b: string)
    requires Spares(s, t, pk, u, a) && s.objs == map[] && Sliceable(u) && a != b
    ensures SetNamesFree(t, pk, u, b) && forall v :: Unused(v, s) && v != u ==> Unused(v, t)
    ensures t.prestos.Keys == s.prestos.Keys
  {
    hide Unused;
    SuffixesApart(pk, u, a, b, CoordSet);
    SuffixesApart(pk, u, a, b, WorkerSet);
  }

  lemma SuffixesApart(pk: PKey, u: string, a: string, b: string, r: Role)
    requires Sliceable(u) && a != b && r in {CoordSet, WorkerSet}
    ensures Spared(SetKey(r, pk, u, b), pk, u, a)
  {
    var prefix := if r.CoordSet? then CoordinatorReplicaSetName(u) else WorkerReplicaSetName(u);
    assert (prefix + b)[|prefix|..] == b && (prefix + a)[|prefix|..] == a;
    assert SetKey(CoordSet, pk, u, a).name[0] == 'c' && SetKey(WorkerSet, pk, u, a).name[0] == 'w';
    assert SetKey(CoordSet, pk, u, b).name[0] == 'c' && SetKey(WorkerSet, pk, u, b).name[0] == 'w';
  }

  // ---------------------------------------------------------------- the second cluster

  /** Where the first cluster has given up autoscaling and lost its services, config maps and autoscaler. */
  ghost predicate Vacated(s: Server, first: Server, pk: PKey, u: string) {
    && Inv(s) && Recalls(s, first) && pk in s.prestos && UuidAt(s, pk) == u && Sliceable(u)
    && u in s.minted && s.minted[u] == pk
    && ValidSpec(s.prestos[pk].spec) && !AutoscalingOn(s.prestos[pk].spec)
    && AtMostOne(WorkerSet, s, u) && Present(CoordSet, s, u) && Present(WorkerSet, s, u)
    && Cleared(s, pk, u)
  }

  lemma Abandoned(first: Server, pk: PKey, u: string, v: string, b: string, off: PrestoSpec)
    returns (steps: seq<Step>, t: Server)
    requires First(first, pk, u, v, b) && ValidSpec(off) && !AutoscalingOn(off)
    ensures Leads(first, steps, t, Some(first)) && Vacated(t, first, pk, u) && HpaKey(pk, u) !in t.objs
    ensures t.prestos.Keys == {pk} && Unused(v, t) && SetNamesFree(t, pk, u, b)
  {
    hide ValidSpec, AutoscalingOn, Leads, NamesFree, Inv, IsRole, Comparable, ScalingSettled, Unused;
    hide Recalls, AtMostOne, Cleared, ServiceKeys, Reconcile;
    var edit, s' := EditSpec(pk, off), Take(first, EditSpec(pk, off));
    var keys := ServiceKeys(pk, u) + [HpaKey(pk, u)];
    OneStep(first, edit, Some(first));
    t := Without(s', keys);
    DeletionsLead(s', keys, Some(first));
    Joined(first, [edit], s', Deletions(keys), t, Some(first));
    steps := [edit] + Deletions(keys);
    Remembered(first, steps, t, Some(first));
    UuidIsMinted(t, pk);
    KeysRemoved(s', t, pk, u);
    SetsSurvive(first, t, u, keys);
    StillUnused(first, t, v);
    RecallsItself(first, t);
    assert Present(CoordSet, first, u) && Present(WorkerSet, first, u);
  }

  lemma KeysRemoved(s: Server, t: Server, pk: PKey, u: string)
    requires Sliceable(u) && t == Without(s, ServiceKeys(pk, u) + [HpaKey(pk, u)])
    ensures Cleared(t, pk, u) && HpaKey(pk, u) !in t.objs && forall k :: k in t.objs ==> k in s.objs
    ensures forall k :: k in ServiceKeys(pk, u) + [HpaKey(pk, u)] ==> k.kind != ReplicaSet
  {
    var keys := ServiceKeys(pk, u) + [HpaKey(pk, u)];
    assert HpaKey(pk, u) in keys && forall k :: k in ServiceKeys(pk, u) ==> k in keys;
  }

  lemma StillUnused(s: Server, t: Server, v: string)
    requires Unused(v, s) && t.minted == s.minted && t.held == s.held
    ensures Unused(v, t)
  {
  }

  lemma RecallsItself(s: Server, t: Server)
    requires Inv(s) && s.held <= t.held
    ensures Recalls(t, s)
  {
  }

  /** Removing objects of other kinds leaves the ReplicaSets. */
  lemma SetsSurvive(s: Server, t: Server, u: string, keys: seq<Key>)
    requires t.minted == s.minted && t.objs == s.objs - (set k | k in keys)
    requires forall k :: k in keys ==> k.kind != ReplicaSet
    ensures forall r: Role :: r in {CoordSet, WorkerSet} ==> (Present(r, t, u) <==> Present(r, s, u))
    ensures AtMostOne(WorkerSet, s, u) ==> AtMostOne(WorkerSet, t, u)
  {
    forall r: Role, k | r in {CoordSet, WorkerSet}
      ensures Holds(r, k, t, u) <==> Holds(r, k, s, u)
    {
    }
  }

  /** A second resource, in a store that has nothing under the names it is about to use. */
  lemma NewcomerIsUndisturbed(s: Server, pk: PKey, spec: PrestoSpec, v: string, suffix: string)
    requires Inv(s) && pk !in s.prestos && ValidSpec(spec) && Unused(v, s) && Sliceable(v)
    requires Cleared(s, pk, v) && HpaKey(pk, v) !in s.objs && SetNamesFree(s, pk, v, suffix)
    ensures
      var t := Take(s, CreatePresto(pk, "", map[], spec));
      Undisturbed(t, pk) && UuidAt(t, pk) == "" && !HeadlessLost(t, "") && Provided(t, pk, v, suffix)
  {
    hide NamesFree, IsRole, Known, ItemFits, PrestoFits;
    var t := Take(s, CreatePresto(pk, "", map[], spec));
    StepKeepsInv(s, CreatePresto(pk, "", map[], spec));
    ClearedNames(t, pk, v, spec);
    assert "" !in t.minted;
  }

  /** The second cluster takes over the names, while the autoscaler lists show what they showed before. */
  lemma SecondUp(s: Server, first: Server, pk: PKey, pk': PKey, u: string, v: string, spec: PrestoSpec, plan: Plan,
                 b: string)
    returns (steps: seq<Step>, t: Server)
    requires Vacated(s, first, pk, u) && Inv(first) && Unused(v, first) && Unused(v, s) && HpaKey(pk, u) !in s.objs
    requires s.prestos.Keys == {pk} && pk' != pk && pk.ns == pk'.ns && Alike8(u, v) && SetNamesFree(s, pk, u, b)
    requires ValidSpec(spec) && AutoscalingOn(spec) && ValidPlan(plan) && plan.ports != []
    ensures Leads(s, steps, t, Some(first)) && Inv(t) && s.held <= t.held
    ensures pk in t.prestos && t.prestos[pk] == s.prestos[pk] && u in t.minted && t.minted[u] == pk
    ensures v in t.minted && t.minted[v] == pk' && Holds(Autoscaler, HpaKey(pk, u), t, v)
    ensures forall r: Role :: Present(r, s, u) ==> Present(r, t, u)
    ensures AtMostOne(WorkerSet, t, u)
  {
    hide ValidSpec, ValidPlan, Leads, Inv, Unused, Provided, CalmRun, CalmEnd, Missing, HeadlessLost, Recalls;
    hide AtMostOne, Undisturbed, Desired, Unnoticed, ShowsNone, Present, Cleared, Spares;
    var step, s' := CreatePresto(pk', "", map[], spec), Take(s, CreatePresto(pk', "", map[], spec));
    AlikeNames(pk, pk', u, v, CoordSet, b);
    AlikeNames(pk, pk', u, v, WorkerSet, b);
    SameCleared(s, pk, pk', u, v);
    NewcomerIsUndisturbed(s, pk', spec, v, b);
    OneStep(s, step, Some(first));
    CreationRecalls(s, pk', spec, first);
    UnusedShowsNone(first, pk', v);
    NoUuidUnnoticed(s', pk', first);
    var os := SomeCalmRun(s', pk', plan, v, b, Measure(s', pk'));
    t := CalmEnd(s', pk', os);
    var calls := LaggedRun(s', pk', os, first);
    Converges(s', pk', os);
    CalmRunSpares(s', pk', os, b);
    Joined(s, [step], s', calls, t, Some(first));
    steps := [step] + calls;
    Remembered(s, steps, t, Some(first));
    SecondIsUp(s, s', t, pk, pk', u, v, b);
    CreationKeepsOne(s, pk', spec, u);
    CalmRunKeepsOne(s', pk', os, WorkerSet, u);
  }

  lemma SameCleared(s: Server, pk: PKey, pk': PKey, u: string, v: string)
    requires Alike8(u, v) && pk.ns == pk'.ns && Cleared(s, pk, u)
    ensures Cleared(s, pk', v)
  {
    AlikeNames(pk, pk', u, v, CoordSet, "");
  }

  lemma CreationRecalls(s: Server, pk: PKey, spec: PrestoSpec, first: Server)
    requires Recalls(s, first)
    ensures Recalls(Take(s, CreatePresto(pk, "", map[], spec)), first)
  {
    hide Reconcile;
  }

  lemma CreationKeepsOne(s: Server, pk: PKey, spec: PrestoSpec, u: string)
    requires Inv(s) && AtMostOne(WorkerSet, s, u)
    ensures var s' := Take(s, CreatePresto(pk, "", map[], spec)); Inv(s') && AtMostOne(WorkerSet, s', u)
  {
    hide Inv, AtMostOne, Take;
    StepKeepsInv(s, CreatePresto(pk, "", map[], spec));
    StepKeepsAtMostOne(s, CreatePresto(pk, "", map[], spec), WorkerSet, u);
  }

  lemma NoUuidUnnoticed(s: Server, pk: PKey, first: Server)
    requires pk in s.prestos && UuidAt(s, pk) == ""
    ensures Unnoticed(s, pk, first)
  {
  }

  lemma SecondIsUp(s: Server, s': Server, t: Server, pk: PKey, pk': PKey, u: string, v: string, b: string)
    requires pk in s.prestos && pk != pk' && pk.ns == pk'.ns && Alike8(u, v) && s'.objs == s.objs
    requires pk' in s'.prestos && s'.prestos == s.prestos[pk' := s'.prestos[pk']] && Spares(s', t, pk', v, b)
    requires Undisturbed(t, pk') && Desired(t, pk') && UuidAt(t, pk') == v && AutoscalingOn(t.prestos[pk'].spec)
    requires forall w :: w in s.minted ==> w in t.minted && t.minted[w] == s.minted[w]
    ensures pk in t.prestos && t.prestos[pk] == s.prestos[pk]
    ensures v in t.minted && t.minted[v] == pk' && Holds(Autoscaler, HpaKey(pk, u), t, v)
    ensures forall r: Role :: Present(r, s, u) ==> Present(r, t, u)
  {
    hide Inv, NamesFree, ValidSpec, Unused, Spared, IsRole, Comparable, AtMostOne;
    UuidIsMinted(t, pk');
    assert Satisfied(Autoscaler, t, v, t.prestos[pk'].spec);
    var h :| Holds(Autoscaler, h, t, v);
    HeldByName(h, t, pk', v);
    AlikeNames(pk, pk', u, v, CoordSet, b);
    forall r: Role | Present(r, s, u)
      ensures Present(r, t, u)
    {
      var k :| Holds(r, k, s, u);
      RoleIsLabelled(r, k, s.objs[k], u, s.minted[u].name);
      assert Holds(r, k, t, u);
    }
  }

  lemma HeldByName(k: Key, s: Server, pk: PKey, u: string)
    requires u in s.minted && s.minted[u] == pk && Sliceable(u) && Holds(Autoscaler, k, s, u)
    ensures k == HpaKey(pk, u)
  {
  }

  // ---------------------------------------------------------------- the first cluster again

  /** The first cluster comes back, without an autoscaler, once its own names are free again. */
  lemma BackUp(s: Server, first: Server, pk: PKey, u: string, plan: Plan) returns (steps: seq<Step>, t: Server)
    requires Vacated(s, first, pk, u) && !Present(Autoscaler, s, u) && ValidPlan(plan) && plan.ports != []
    ensures Leads(s, steps, t, Some(first)) && Undisturbed(t, pk) && Desired(t, pk) && UuidAt(t, pk) == u
    ensures t.prestos[pk].spec == s.prestos[pk].spec && Spares(s, t, pk, u, "")
  {
    hide ValidPlan, Leads, Provided, CalmRun, CalmEnd, Missing, Recalls, Desired, Spares, NamesFree, Remembers;
    BackIsUndisturbed(s, first, pk, u);
    var os := SomeCalmRun(s, pk, plan, "", "", Measure(s, pk));
    t := CalmEnd(s, pk, os);
    steps := LaggedRun(s, pk, os, first);
    Converges(s, pk, os);
    CalmRunSpares(s, pk, os, "");
  }

  lemma BackIsUndisturbed(s: Server, first: Server, pk: PKey, u: string)
    requires Vacated(s, first, pk, u) && !Present(Autoscaler, s, u)
    ensures Undisturbed(s, pk) && !HeadlessLost(s, u) && Provided(s, pk, "", "") && Unnoticed(s, pk, first)
  {
    hide Inv, Recalls, ValidSpec, Cleared, NamesFree, IsRole;
    ClearedNames(s, pk, u, s.prestos[pk].spec);
  }

  /** Then the second cluster loses its own services and config maps, and the first comes back. */
  lemma BesideEachOther(s: Server, first: Server, pk: PKey, pk': PKey, u: string, v: string, on: PrestoSpec, plan: Plan,
                        b: string)
    returns (steps: seq<Step>, t: Server)
    requires Vacated(s, first, pk, u) && Inv(first) && Unused(v, first) && Unused(v, s) && HpaKey(pk, u) !in s.objs
    requires s.prestos.Keys == {pk} && pk' != pk && pk.ns == pk'.ns && Alike8(u, v) && SetNamesFree(s, pk, u, b)
    requires ValidSpec(on) && AutoscalingOn(on) && ValidPlan(plan) && plan.ports != []
    ensures Leads(s, steps, t, Some(first)) && Undisturbed(t, pk) && Desired(t, pk)
    ensures UuidAt(t, pk) == u && t.prestos[pk].spec == s.prestos[pk].spec
    ensures v in t.minted && t.minted[v] == pk' && HpaKey(pk, u) in t.objs && UuidOf(t.objs[HpaKey(pk, u)]) == v
  {
    hide Inv, ValidSpec, ValidPlan, AutoscalingOn, Leads, Undisturbed, Desired, Unused, IsRole, AtMostOne;
    var up, s', back;
    up, s' := SecondUp(s, first, pk, pk', u, v, on, plan, b);
    var k, keys := HpaKey(pk, u), ServiceKeys(pk, u);
    RoleIsLabelled(Autoscaler, k, s'.objs[k], v, pk'.name);
    var gone := Without(s', keys);
    DeletionsLead(s', keys, Some(first));
    Remembered(s', Deletions(keys), gone, Some(first));
    SetsSurvive(s', gone, u, keys);
    TakenIsNotOwn(gone, pk, u);
    back, t := BackUp(gone, first, pk, u, plan);
    Remembered(gone, back, t, Some(first));
    Joined(s', Deletions(keys), gone, back, t, Some(first));
    Joined(s, up, s', Deletions(keys) + back, t, Some(first));
    steps := up + (Deletions(keys) + back);
  }

  lemma TakenIsNotOwn(s: Server, pk: PKey, u: string)
    requires Sliceable(u) && u in s.minted && s.minted[u] == pk
    requires HpaKey(pk, u) in s.objs && UuidOf(s.objs[HpaKey(pk, u)]) != u
    ensures !Present(Autoscaler, s, u)
  {
  }

  // ---------------------------------------------------------------- the last call

  /** A finished cluster passes every check before the last. */
  lemma EarlierPass(i: nat, s: Server, pk: PKey, o: Oracle)
    requires Undisturbed(s, pk) && Desired(s, pk) && ValidPlan(o.plan) && FreshLists(s, o) && i < 7
    ensures Sliceable(s.prestos[pk].status.uuid) && Passes(PIPELINE[i], pk, s.prestos[pk], o)
  {
    hide IsRole, NamesFree, Remembers, Known, Passes, Exact, Comparable;
    var p := s.prestos[pk];
    assert Present(External, s, p.status.uuid) && Present(PIPELINE[i], s, p.status.uuid);
    NamedAtMostOne(Autoscaler, s, p.status.uuid);
    PassesIff(PIPELINE[i], s, pk, p, o);
  }

  lemma AutoscalerListed(early: Server, pk: PKey, u: string)
    requires u in early.minted && early.minted[u] == pk && Present(Autoscaler, early, u)
    ensures SomethingListed(ExactListing(early, QueryOf(Autoscaler, pk, u)))
  {
    var k :| Holds(Autoscaler, k, early, u);
    RoleIsSelected(Autoscaler, k, early.objs[k], u, pk);
    assert Lists(ExactListing(early, QueryOf(Autoscaler, pk, u)), k);
  }

  /** A finished cluster without an autoscaler deletes the one a lagging list still shows. */
  lemma LaggingDeletes(s: Server, early: Server, pk: PKey, plan: Plan)
    requires Undisturbed(s, pk) && Desired(s, pk) && ValidPlan(plan) && !AutoscalingOn(s.prestos[pk].spec)
    requires
      var u := UuidAt(s, pk);
      u in early.minted && early.minted[u] == pk && Present(Autoscaler, early, u)
    ensures DeletesAutoscaler(pk, Lagged(CalmOracle(s, s.prestos[pk], "", "", plan), early))
  {
    hide Inv, AtMostOne, Comparable, NamesFree, ValidSpec, ScalingSettled;
    hide ExactListing, Present, AutoscalingOn, ValidPlan;
    var p := s.prestos[pk];
    var exact := CalmOracle(s, p, "", "", plan);
    var o := Lagged(exact, early);
    EarlierPass(0, s, pk, exact);
    forall i | 0 <= i < 7
      ensures Passes(PIPELINE[i], pk, p, o)
    {
      EarlierPass(i, s, pk, exact);
      SamePasses(PIPELINE[i], pk, p, exact, o);
    }
    AutoscalerListed(early, pk, p.status.uuid);
    assert !Passes(PIPELINE[7], pk, p, o);
  }

  lemma LastCall(first: Server, late: seq<Step>, s: Server, pk: PKey, plan: Plan) returns (o: Oracle)
    requires Leads(first, late, s, Some(first)) && Undisturbed(first, pk) && Desired(first, pk)
    requires AutoscalingOn(first.prestos[pk].spec) && UuidAt(first, pk) == UuidAt(s, pk)
    requires Undisturbed(s, pk) && Desired(s, pk) && !AutoscalingOn(s.prestos[pk].spec)
    requires ValidPlan(plan) && plan.ports != []
    ensures Honest(s, pk, o) && Lags(o, s, first)
    ensures Sliceable(UuidAt(s, pk)) && HpaKey(pk, UuidAt(s, pk)) !in Reconcile(s, pk, o).s.objs
  {
    hide AtMostOne, Comparable, ValidSpec, ValidPlan, Leads, NamesFree, ItemFits, PrestoFits, Known;
    hide Reconcile, Honest, DeletesAutoscaler, Exact, IsRole, Lagged, Lags;
    Remembered(first, late, s, Some(first));
    UuidIsMinted(s, pk);
    UuidIsMinted(first, pk);
    var p := s.prestos[pk];
    var exact := CalmOracle(s, p, "", "", plan);
    CurrentIsVersion(s, pk);
    OracleIsHonest(s, pk, p, "", "", plan);
    o := Lagged(exact, first);
    LaggedIsHonest(s, pk, exact, first);
    LaggedLags(s, exact, first);
    LaggedGets(exact, first);
    LaggingDeletes(s, first, pk, plan);
    DeletionHits(s, pk, p, o);
  }

  /**
   Isolation can break, for any two UUIDs that share their first eight characters. The autoscaler
   lists stop moving once the first cluster is finished; it gives up autoscaling and loses its
   autoscaler, the second cluster comes up under the same names, and then a call of the first, still
   shown its own autoscaler, deletes the second one's.
   */
  lemma IsolationCanBreak(pk: PKey, pk': PKey, u: string, v: string, a: string, b: string,
                          on: PrestoSpec, off: PrestoSpec, plan: Plan)
    returns (early: seq<Step>, first: Server, late: seq<Step>, s: Server, o: Oracle, k: Key)
    requires pk != pk' && pk.ns == pk'.ns && Alike8(u, v) && a != b && ValidPlan(plan) && plan.ports != []
    requires ValidSpec(on) && AutoscalingOn(on) && ValidSpec(off) && !AutoscalingOn(off)
    ensures Leads(INIT, early, first, None) && Leads(first, late, s, Some(first))
    ensures Honest(s, pk, o) && Lags(o, s, first)
    ensures UuidAt(s, pk) == u && v in s.minted && s.minted[v] == pk'
    ensures k in s.objs && UuidOf(s.objs[k]) == v && k !in Reconcile(s, pk, o).s.objs
  {
    hide Inv, ValidSpec, ValidPlan, AutoscalingOn, Leads, Desired, Reconcile, Honest, Lags;
    hide Recalls, Cleared, Unused, SetNamesFree, NamesFree, AtMostOne, Comparable, Present;
    var vacated, away, both;
    early, first := FirstUp(pk, on, plan, u, v, a, b);
    away, vacated := Abandoned(first, pk, u, v, b, off);
    both, s := BesideEachOther(vacated, first, pk, pk', u, v, on, plan, b);
    late, k := away + both, HpaKey(pk, u);
    Joined(first, away, vacated, both, s, Some(first));
    o := LastCall(first, late, s, pk, plan);
  }
}
