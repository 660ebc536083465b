/** Undisturbed runs beside other clusters, and with autoscaler lists that stay behind. */
module Lagging {
  import opened PrestoTypes
  import opened Naming
  import opened Api
  import opened Pipeline
  import opened NormalForm
  import opened Invariants
  import opened Effects
  import opened Calls
  import opened Reads
  import opened Runs
  import opened Holders
  import opened Uniqueness
  import opened Convergence
  import opened Isolation
  import opened Witness

  // ---------------------------------------------------------------- runs, put together

  /** Every list but the autoscalers' shows the store as it is; that one shows an earlier store. */
  ghost predicate Lags(o: Oracle, s: Server, early: Server) {
    forall role: Role, q: Query :: Exact(o.list(At(role), q), q, if role.Autoscaler? then early else s)
  }

  /** A run that may happen, and where it ends; `shown` is what its autoscaler lists show, if they lag. */
  ghost predicate Leads(s: Server, steps: seq<Step>, t: Server, shown: Option<Server>) {
    && Obeys(s, steps, (r, step) => Allowed(r, step) && (step.Call? && shown.Some? ==> Lags(step.o, r, shown.value)))
    && After(s, steps) == t
  }

  lemma {:induction false} Joined(s: Server, a: seq<Step>, t: Server, b: seq<Step>, w: Server, shown: Option<Server>)
    requires Leads(s, a, t, shown) && Leads(t, b, w, shown)
    ensures Leads(s, a + b, w, shown)
    decreases |a|
  {
    hide Allowed, Take, Lags;
    if a == [] {
      assert a + b == b;
    } else {
      Joined(Take(s, a[0]), a[1..], t, b, w, shown);
      assert (a + b)[1..] == a[1..] + b;
    }
  }

  lemma OneStep(s: Server, step: Step, shown: Option<Server>)
    requires Allowed(s, step) && (step.Call? && shown.Some? ==> Lags(step.o, s, shown.value))
    ensures Leads(s, [step], Take(s, step), shown)
  {
    var steps := [step];
    assert steps[0] == step && steps[1..] == [];
  }

  /** The past is kept throughout a run. */
  lemma {:induction false} Remembered(s: Server, steps: seq<Step>, t: Server, shown: Option<Server>)
    requires Inv(s) && Leads(s, steps, t, shown)
    ensures Inv(t) && s.held <= t.held
    ensures forall u :: u in s.minted ==> u in t.minted && t.minted[u] == s.minted[u]
    decreases |steps|
  {
    hide Inv, Take, Allowed, Unused, Lags;
    if steps != [] {
      StepKeepsInv(s, steps[0]);
      StepNews(s, steps[0]);
      Remembered(Take(s, steps[0]), steps[1..], t, shown);
    }
  }

  lemma StepNews(s: Server, step: Step)
    requires Inv(s) && Allowed(s, step)
    ensures NewsIsCurrent(s, Take(s, step))
  {
    hide Inv, NewsIsCurrent, Honest, Reconcile;
    if step.Call? {
      CallNews(s, step.pk, step.o);
    } else {
      OutsideNews(s, step);
    }
  }

  function Deletions(keys: seq<Key>): seq<Step> {
    seq(|keys|, i requires 0 <= i < |keys| => OutsideDelete(keys[i]))
  }

  function Without(s: Server, keys: seq<Key>): Server {
    s.(objs := s.objs - (set k | k in keys))
  }

  lemma {:induction false} DeletionsLead(s: Server, keys: seq<Key>, shown: Option<Server>)
    ensures Leads(s, Deletions(keys), Without(s, keys), shown)
    decreases |keys|
  {
    hide Reconcile, Lags;
    if keys == [] {
      assert Without(s, keys) == s;
    } else {
      var s' := Take(s, OutsideDelete(keys[0]));
      DeletionsLead(s', keys[1..], shown);
      assert Deletions(keys)[1..] == Deletions(keys[1..]);
      assert (set k | k in keys) == {keys[0]} + (set k | k in keys[1..]);
      assert s'.objs - (set k | k in keys[1..]) == s.objs - (set k | k in keys);
    }
  }

  // ---------------------------------------------------------------- what an undisturbed run leaves alone

  /** Resources and objects that are not the cluster's own stay as they are, and so do names it does not use. */
  ghost predicate Spares(s: Server, t: Server, pk: PKey, u: string, suffix: string) {
    && t.prestos.Keys == s.prestos.Keys
    && (forall q :: q in s.prestos && q != pk ==> t.prestos[q] == s.prestos[q])
    && (forall k :: k in s.objs && UuidOf(s.objs[k]) != u ==> k in t.objs && t.objs[k] == s.objs[k])
    && (forall v :: Unused(v, s) && v != u ==> Unused(v, t))
    && (forall k: Key :: k.kind == ReplicaSet && k !in s.objs && Spared(k, pk, u, suffix) ==> k !in t.objs)
  }

  /** Not a name the cluster gives to one of its ReplicaSets. */
  predicate Spared(k: Key, pk: PKey, u: string, suffix: string) {
    Sliceable(u) ==> k != SetKey(CoordSet, pk, u, suffix) && k != SetKey(WorkerSet, pk, u, suffix)
  }

  lemma ChangeSparesNames(c: Change, s: Server, s': Server, pk: PKey, p: Presto, o: Oracle, suffix: string)
    requires Sliceable(p.status.uuid) && Explains(c, s, s', pk, p, o) && o.coordSuffix == o.workerSuffix == suffix
    ensures forall k: Key :: k.kind == ReplicaSet && k !in s.objs && Spared(k, pk, p.status.uuid, suffix) ==>
              k !in s'.objs
  {
    hide FirstOpen, Passes, BuiltFor, NothingFound;
  }

  /** New objects bear no UUID but their cluster's. */
  lemma ChangeSparesUuid(c: Change, s: Server, s': Server, pk: PKey, p: Presto, o: Oracle, v: string)
    requires Sliceable(p.status.uuid) && Explains(c, s, s', pk, p, o) && s'.minted == s.minted
    requires Unused(v, s) && v != p.status.uuid && (forall k :: k in s.objs ==> Item(k, s.objs[k]) in s.held)
    ensures Unused(v, s')
  {
    hide FirstOpen, Passes, BuiltFor, NothingFound, Unlabelled;
    match c {
      case Made(r, k, obj) => RoleUnlabelled(r, k, obj, p.status.uuid, pk.name, v);
      case Rescaled(k, obj) => RoleUnlabelled(WorkerSet, k, obj, p.status.uuid, pk.name, v);
      case Retuned(k, obj) => RoleUnlabelled(Autoscaler, k, obj, p.status.uuid, pk.name, v);
      case _ =>
    }
  }

  lemma RoleUnlabelled(r: Role, k: Key, obj: Obj, u: string, n: string, v: string)
    requires IsRole(r, k, obj, u, n) && u != v
    ensures Unlabelled(obj, v)
  {
    assert NAME_KEY !in UUID_KEYS;
  }

  lemma CallSpares(s: Server, pk: PKey, o: Oracle, suffix: string)
    requires Calm(s, pk, o) && UuidAt(s, pk) != "" && o.coordSuffix == o.workerSuffix == suffix
    ensures Spares(s, Reconcile(s, pk, o).s, pk, UuidAt(s, pk), suffix)
  {
    hide Reconcile, InShape, ItemFits, PrestoFits, Honest, NamesFree, ValidSpec, Explains, Spared, Unused, Comparable;
    var p, s' := s.prestos[pk], Reconcile(s, pk, o).s;
    var c := PipelineEffect(s, pk, p, o);
    forall q: Query
      ensures Truthful(o.list(At(Autoscaler), q), s)
    {
      assert Exact(o.list(At(Autoscaler), q), q, s);
    }
    forall k | k in s.objs && UuidOf(s.objs[k]) != UuidAt(s, pk)
      ensures k in s'.objs && s'.objs[k] == s.objs[k]
    {
      Isolated(s, pk, o, k);
    }
    forall v | Unused(v, s) && v != p.status.uuid
      ensures Unused(v, s')
    {
      ChangeSparesUuid(c, s, s', pk, p, o, v);
    }
    ChangeSparesNames(c, s, s', pk, p, o, suffix);
  }

  lemma CalmCallSpares(s: Server, pk: PKey, o: Oracle, suffix: string)
    requires Calm(s, pk, o) && o.coordSuffix == o.workerSuffix == suffix
    ensures Spares(s, Reconcile(s, pk, o).s, pk, UuidAt(Reconcile(s, pk, o).s, pk), suffix)
  {
    hide Reconcile, Inv, Honest, NamesFree, ValidSpec, FreshLists, AcceptsAll, Unlabelled, Comparable;
    UuidIsSet(s, pk, o);
    if UuidAt(s, pk) == "" {
      MintingLands(s, pk, o);
    } else {
      CallSpares(s, pk, o, suffix);
    }
  }

  lemma SparesOnward(s: Server, s': Server, t: Server, pk: PKey, u: string, suffix: string)
    requires Spares(s, s', pk, u, suffix) && Spares(s', t, pk, u, suffix)
    ensures Spares(s, t, pk, u, suffix)
  {
    hide Unused, Spared;
  }

  lemma SparesItself(s: Server, pk: PKey, u: string, suffix: string)
    ensures Spares(s, s, pk, u, suffix)
  {
  }

  lemma {:induction false} CalmRunSpares(s: Server, pk: PKey, os: seq<Oracle>, suffix: string)
    requires Undisturbed(s, pk) && CalmRun(s, pk, os)
    requires forall o :: o in os ==> o.coordSuffix == o.workerSuffix == suffix
    ensures
      var t := CalmEnd(s, pk, os);
      && Spares(s, t, pk, UuidAt(t, pk), suffix)
      && pk in t.prestos && t.prestos[pk].spec == s.prestos[pk].spec
      && UuidAt(t, pk) == (if UuidAt(s, pk) == "" && os != [] then os[0].freshUuid else UuidAt(s, pk))
    decreases |os|
  {
    hide Reconcile, Inv, AtMostOne, Comparable, NamesFree, ValidSpec, CalmAnswers, Measure, Spares;
    if os == [] {
      SparesItself(s, pk, UuidAt(s, pk), suffix);
    } else {
      var s', t := Reconcile(s, pk, os[0]).s, CalmEnd(s, pk, os);
      CalmStaysUndisturbed(s, pk, os[0]);
      CalmStepCloser(s, pk, os[0]);
      UuidIsSet(s, pk, os[0]);
      CalmCallSpares(s, pk, os[0], suffix);
      CalmRunSpares(s', pk, os[1..], suffix);
      SparesOnward(s, s', t, pk, UuidAt(t, pk), suffix);
    }
  }

  /** Nor do undisturbed calls give any cluster a second ReplicaSet. */
  lemma {:induction false} CalmRunKeepsOne(s: Server, pk: PKey, os: seq<Oracle>, r: Role, v: string)
    requires Inv(s) && CalmRun(s, pk, os) && r in {CoordSet, WorkerSet} && AtMostOne(r, s, v)
    ensures AtMostOne(r, CalmEnd(s, pk, os), v)
    decreases |os|
  {
    hide Inv, Reconcile, AtMostOne, Honest, FreshLists, AcceptsAll;
    if os != [] {
      FreshSeesAll(s, pk, os[0]);
      CallKeepsAtMostOne(s, pk, os[0], r, v);
      ReconcileKeepsInv(s, pk, os[0]);
      CalmRunKeepsOne(Reconcile(s, pk, os[0]).s, pk, os[1..], r, v);
    }
  }

  // ---------------------------------------------------------------- an autoscaler list that lags

  ghost function Lagged(o: Oracle, early: Server): Oracle {
    o.(list := (site, q) => if site == At(Autoscaler) then ExactListing(early, q) else o.list(site, q))
  }

  lemma LaggedLags(s: Server, o: Oracle, early: Server)
    requires FreshLists(s, o)
    ensures Lags(Lagged(o, early), s, early)
  {
    forall role: Role, q: Query
      ensures Exact(Lagged(o, early).list(At(role), q), q, if role.Autoscaler? then early else s)
    {
      assert Exact(o.list(At(role), q), q, s) && Exact(ExactListing(early, q), q, early);
    }
  }

  /** Everything the earlier store has is remembered. */
  ghost predicate Recalls(s: Server, early: Server) {
    forall k :: k in early.objs ==> Item(k, early.objs[k]) in s.held
  }

  lemma LaggedIsHonest(s: Server, pk: PKey, o: Oracle, early: Server)
    requires Inv(s) && Honest(s, pk, o) && Recalls(s, early)
    ensures Honest(s, pk, Lagged(o, early))
  {
    hide Inv, Unused, Recalls;
    forall q: Query
      ensures HonestListing(ExactListing(early, q), q, s)
    {
      LaggedListIsHonest(early, s, q);
    }
  }

  lemma LaggedListIsHonest(early: Server, s: Server, q: Query)
    requires Inv(s) && Recalls(s, early)
    ensures HonestListing(ExactListing(early, q), q, s)
  {
    hide Inv;
    EarlierIsHonest(early, s, q);
  }

  /** The earlier store has no autoscaler the cluster would find. */
  ghost predicate ShowsNone(early: Server, pk: PKey, u: string) {
    forall k :: k in early.objs ==> !QueryOf(Autoscaler, pk, u).Selects(k, early.objs[k])
  }

  lemma UnusedShowsNone(early: Server, pk: PKey, u: string)
    requires Inv(early) && Unused(u, early)
    ensures ShowsNone(early, pk, u)
  {
    forall k | k in early.objs
      ensures !QueryOf(Autoscaler, pk, u).Selects(k, early.objs[k])
    {
      assert Item(k, early.objs[k]) in early.held && Unlabelled(early.objs[k], u);
      assert UUID_KEY in QueryOf(Autoscaler, pk, u).selector && UUID_KEY in UUID_KEYS;
    }
  }

  /** The cluster has no autoscaler; if it wants one, the earlier store does not seem to have it either. */
  ghost predicate Unnoticed(s: Server, pk: PKey, early: Server) {
    pk in s.prestos &&
    var p := s.prestos[pk];
    p.status.uuid == "" ||
    (!Present(Autoscaler, s, p.status.uuid) && (AutoscalingOn(p.spec) ==> ShowsNone(early, pk, p.status.uuid)))
  }

  lemma GateReadsNoList(s: Server, pk: PKey, o: Oracle, early: Server)
    requires o.get.Found? && o.get.presto.status.uuid == ""
    ensures Reconcile(s, pk, Lagged(o, early)) == Reconcile(s, pk, o)
  {
    hide UpdateStatus;
  }

  lemma LagAgrees(o: Oracle, early: Server, pk: PKey, u: string, role: Role)
    requires role != Autoscaler
    ensures AgreeOn(role, o, Lagged(o, early), pk, u)
  {
    hide ExactListing;
  }

  lemma LagAgreesOnNone(o: Oracle, early: Server, pk: PKey, u: string)
    requires o.list(At(Autoscaler), QueryOf(Autoscaler, pk, u)) == Listed([]) && ShowsNone(early, pk, u)
    ensures AgreeOnFixedQueries(o, Lagged(o, early), pk, u)
  {
    var q := QueryOf(Autoscaler, pk, u);
    ListedIsSelected(ExactListing(early, q), q, early);
  }

  lemma ListedIsSelected(l: Listing, q: Query, s: Server)
    requires Exact(l, q, s)
    ensures l == Listed([]) || exists k :: k in s.objs && q.Selects(k, s.objs[k])
  {
    if l.items != [] {
      var k := l.items[0].key;
      assert k in s.objs && q.Selects(k, s.objs[k]);
    }
  }

  /** A call with something left to do for such a cluster does not notice the lag. */
  lemma LagUnnoticed(s: Server, pk: PKey, o: Oracle, early: Server)
    requires Calm(s, pk, o) && Unnoticed(s, pk, early) && Measure(s, pk) > 0
    ensures Reconcile(s, pk, Lagged(o, early)).s == Reconcile(s, pk, o).s
  {
    hide Inv, Honest, FreshLists, NamesFree, RunPipeline, Measure, Present, Passes, FirstOpen;
    hide Lagged, Answer, ShowsNone, AgreeOn;
    var p := s.prestos[pk];
    var u := p.status.uuid;
    if u == "" {
      GateReadsNoList(s, pk, o, early);
    } else {
      LaggedGets(o, early);
      CalmLooks(s, pk, p, o);
      OpenIffMissing(s, pk, p, o);
      if AutoscalingOn(p.spec) {
        NoneListed(s, pk, p, o);
        LagAgreesOnNone(o, early, pk, u);
        QueriesAreFixed(s, pk, p, o, Lagged(o, early));
      } else {
        AbsentIsSatisfied(s, u, p.spec);
        assert Passes(PIPELINE[7], pk, p, o);
        forall role: Role | role != Autoscaler
          ensures AgreeOn(role, o, Lagged(o, early), pk, u)
        {
          LagAgrees(o, early, pk, u, role);
        }
        LaterListsUnseen(s, pk, p, o, Lagged(o, early));
      }
    }
  }

  lemma LaggedGets(o: Oracle, early: Server)
    ensures Lagged(o, early).get == o.get
  {
  }

  lemma NoneListed(s: Server, pk: PKey, p: Presto, o: Oracle)
    requires Looks(s, pk, p, o) && !Present(Autoscaler, s, p.status.uuid)
    ensures o.list(At(Autoscaler), QueryOf(Autoscaler, pk, p.status.uuid)) == Listed([])
  {
    hide Looks, Present;
    ListedIffPresent(Autoscaler, s, pk, p, o);
  }

  lemma AbsentIsSatisfied(s: Server, u: string, spec: PrestoSpec)
    requires !Present(Autoscaler, s, u) && !AutoscalingOn(spec)
    ensures Satisfied(Autoscaler, s, u, spec)
  {
  }

  lemma {:induction false} OnlyLastMissing(i: nat, s: Server, u: string, spec: PrestoSpec)
    requires i <= 7 && forall j :: i <= j < 7 ==> Satisfied(PIPELINE[j], s, u, spec)
    ensures Missing(i, s, u, spec) == Missing(7, s, u, spec) <= 1
    decreases 7 - i
  {
    hide Satisfied;
    if i < 7 {
      OnlyLastMissing(i + 1, s, u, spec);
    } else {
      assert Missing(8, s, u, spec) == 0;
    }
  }

  /** The cluster stays without an autoscaler until nothing else is missing. */
  lemma StaysUnnoticed(s: Server, pk: PKey, o: Oracle, early: Server)
    requires Calm(s, pk, o) && Unnoticed(s, pk, early) && Measure(s, pk) > 0
    requires UuidAt(s, pk) == "" ==> ShowsNone(early, pk, o.freshUuid)
    ensures
      var s' := Reconcile(s, pk, o).s;
      pk in s'.prestos && (Unnoticed(s', pk, early) || Measure(s', pk) == 0)
  {
    hide Inv, Honest, FreshLists, NamesFree, Reconcile, Present, Passes, FirstOpen;
    hide ShowsNone, Satisfied, Explains, Missing;
    var p, s' := s.prestos[pk], Reconcile(s, pk, o).s;
    CalmStepCloser(s, pk, o);
    UuidIsSet(s, pk, o);
    if p.status.uuid == "" {
      MintingCall(s, pk, o);
    } else {
      CalmLooks(s, pk, p, o);
      OpenIffMissing(s, pk, p, o);
      var c := PipelineEffect(s, pk, p, o);
      if FirstOpen(0, pk, p, o) < 7 {
        EarlierStagesMakeNone(c, s, s', pk, p, o);
      } else {
        OnlyLastMissing(0, s, p.status.uuid, p.spec);
      }
    }
  }

  lemma EarlierStagesMakeNone(c: Change, s: Server, s': Server, pk: PKey, p: Presto, o: Oracle)
    requires Sliceable(p.status.uuid) && p.status.uuid in s.minted && s.minted[p.status.uuid] == pk
    requires Explains(c, s, s', pk, p, o) && s'.minted == s.minted
    requires FirstOpen(0, pk, p, o) < 7 && !Present(Autoscaler, s, p.status.uuid)
    ensures !Present(Autoscaler, s', p.status.uuid)
  {
    hide FirstOpen, Passes, BuiltFor, NothingFound, IsRole;
    var u := p.status.uuid;
    ChangeMoves(c, s, s', pk, p, o);
    forall k
      ensures !Holds(Autoscaler, k, s', u)
    {
      assert Holds(Autoscaler, k, s', u) <==> HeldAfter(Autoscaler, k, u, c, s, u);
    }
  }

  /** As long as there is something to do, an undisturbed run goes the same with a lagging autoscaler list. */
  lemma {:induction false} LaggedRun(s: Server, pk: PKey, os: seq<Oracle>, early: Server) returns (steps: seq<Step>)
    requires Undisturbed(s, pk) && CalmRun(s, pk, os) && |os| <= Measure(s, pk) && Recalls(s, early)
    requires Unnoticed(s, pk, early)
    requires UuidAt(s, pk) == "" && os != [] ==> ShowsNone(early, pk, os[0].freshUuid)
    ensures Leads(s, steps, CalmEnd(s, pk, os), Some(early))
    decreases |os|
  {
    hide Inv, NamesFree, AtMostOne, Comparable, ValidSpec, Measure, Reconcile, Honest, FreshLists, AcceptsAll;
    hide Unnoticed, ShowsNone, Recalls, Leads, Lagged;
    steps := [];
    if os == [] {
      NoSteps(s, early);
    } else {
      var o, s' := os[0], Reconcile(s, pk, os[0]).s;
      var step := Call(pk, Lagged(o, early));
      LaggedCall(s, pk, o, early);
      var rest := [];
      if |os| == 1 {
        NoSteps(s', early);
        assert CalmEnd(s', pk, os[1..]) == s';
      } else {
        CalmStaysUndisturbed(s, pk, o);
        CalmStepCloser(s, pk, o);
        UuidIsSet(s, pk, o);
        StaysUnnoticed(s, pk, o, early);
        StillRecalls(s, pk, o, early);
        rest := LaggedRun(s', pk, os[1..], early);
      }
      Joined(s, [step], s', rest, CalmEnd(s, pk, os), Some(early));
      steps := [step] + rest;
    }
  }

  lemma NoSteps(s: Server, early: Server)
    ensures Leads(s, [], s, Some(early))
  {
  }

  lemma LaggedCall(s: Server, pk: PKey, o: Oracle, early: Server)
    requires Calm(s, pk, o) && Unnoticed(s, pk, early) && Measure(s, pk) > 0 && Recalls(s, early)
    ensures Leads(s, [Call(pk, Lagged(o, early))], Reconcile(s, pk, o).s, Some(early))
  {
    hide Inv, NamesFree, Measure, Reconcile, Honest, FreshLists, Lagged, Lags, Unnoticed, Recalls, Leads;
    LaggedIsHonest(s, pk, o, early);
    LaggedLags(s, o, early);
    LagUnnoticed(s, pk, o, early);
    OneStep(s, Call(pk, Lagged(o, early)), Some(early));
  }

  lemma StillRecalls(s: Server, pk: PKey, o: Oracle, early: Server)
    requires Inv(s) && Honest(s, pk, o) && Recalls(s, early)
    ensures Recalls(Reconcile(s, pk, o).s, early)
  {
    hide Inv, Honest, Reconcile, Unused;
    CallNews(s, pk, o);
  }
}
