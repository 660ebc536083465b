/** An autoscaled cluster whose autoscaler name is taken: it stays Pending, and writes nothing. */
module Clash {
  import opened PrestoTypes
  import opened Naming
  import opened Api
  import opened Pipeline
  import opened NormalForm
  import opened Invariants
  import opened Effects
  import opened Calls
  import opened Reads
  import opened Runs
  import opened Holders
  import opened Uniqueness
  import opened Convergence
  import opened Witness

  /** Everything is there but the autoscaler, and somebody else's object has its name. */
  ghost predicate Clashed(s: Server, pk: PKey) {
    && Inv(s) && pk in s.prestos
    && var p := s.prestos[pk];
    var u := p.status.uuid;
    && Sliceable(u) && AtMostOne(WorkerSet, s, u) && ValidSpec(p.spec) && AutoscalingOn(p.spec)
    && (forall r: Role :: r != Autoscaler ==> Satisfied(r, s, u, p.spec))
    && HpaKey(pk, u) in s.objs && UuidOf(s.objs[HpaKey(pk, u)]) != u
  }

  lemma AutoscalerAbsent(s: Server, pk: PKey)
    requires Clashed(s, pk)
    ensures !Present(Autoscaler, s, UuidAt(s, pk))
  {
    hide Inv, AtMostOne, ValidSpec, Satisfied;
    var u := UuidAt(s, pk);
    UuidIsMinted(s, pk);
    forall k
      ensures !Holds(Autoscaler, k, s, u)
    {
      if Holds(Autoscaler, k, s, u) {
        RoleIsLabelled(Autoscaler, k, s.objs[k], u, s.minted[u].name);
      }
    }
  }

  /** Only the last stage is open, and it finds workers but no autoscaler. */
  lemma ClashedIsOpen(s: Server, pk: PKey, o: Oracle)
    requires Clashed(s, pk) && CalmAnswers(s, pk, o)
    ensures Applies(s, pk, s.prestos[pk], o) && FirstOpen(0, pk, s.prestos[pk], o) == 7
    ensures Answer(Autoscaler, pk, s.prestos[pk], o) == Listed([])
    ensures SomethingListed(Answer(WorkerSet, pk, s.prestos[pk], o))
  {
    hide Inv, Honest, Passes, NamesFree, AcceptsAll, FreshLists, IsRole;
    var p := s.prestos[pk];
    UuidIsMinted(s, pk);
    assert AtMostOne(WorkerSet, s, p.status.uuid);
    AutoscalerAbsent(s, pk);
    OpenAt(7, s, pk, p, o);
    ListedIffPresent(Autoscaler, s, pk, p, o);
    assert Satisfied(WorkerSet, s, p.status.uuid, p.spec);
    ListedIffPresent(WorkerSet, s, pk, p, o);
  }

  lemma ClashDecided(pk: PKey, p: Presto, o: Oracle)
    requires Sliceable(p.status.uuid) && ValidSpec(p.spec) && AutoscalingOn(p.spec)
    requires Answer(Autoscaler, pk, p, o) == Listed([]) && SomethingListed(Answer(WorkerSet, pk, p, o))
    ensures
      var d := Decide(Autoscaler, pk, p, o, CtxAt(7, pk, p, o));
      && d.Write? && d.op.CreateOp? && d.op.key == HpaKey(pk, p.status.uuid) && d.tolerant
      && d.after == Pending(Action(hpaName := Some(HpaName(p.status.uuid))))
  {
  }

  /** The refused create is announced like a successful one. */
  lemma ClashAnnounced(at: Server, pk: PKey, h: Presto, io: StatusIo, d: Decision, u: string)
    requires pk in at.prestos && h.labels == at.prestos[pk].labels && io.read(h.labels) == Live && io.write == Accept
    requires d.Write? && d.op.CreateOp? && d.op.key in at.objs && d.tolerant
    requires Sliceable(u) && d.after == Pending(Action(hpaName := Some(HpaName(u))))
    ensures
      var r := Announce(Perform(Autoscaler, d, at, Accept), pk, h, io);
      && r.verdict == Fine && r.s.objs == at.objs
      && pk in r.s.prestos && r.s.prestos[pk].status.clusterState == Some(ClusterPending)
  {
    LiveLands(at, pk, h, io, d.after.value.value);
  }

  /** One undisturbed call: no object changes, no error is reported, and the status says Pending. */
  lemma ClashedCall(s: Server, pk: PKey, o: Oracle)
    requires Clashed(s, pk) && CalmAnswers(s, pk, o)
    ensures
      var r := Reconcile(s, pk, o);
      && r.verdict == Fine && r.s.objs == s.objs && Clashed(r.s, pk)
      && r.s.prestos[pk].status.clusterState == Some(ClusterPending)
  {
    hide RunFrom, Remembers, Known, Passes, NamesFree, Decide, Announce, Perform, UpdateStatus, Satisfied;
    var p, s' := s.prestos[pk], Reconcile(s, pk, o).s;
    ClashedIsOpen(s, pk, o);
    ClashDecided(pk, p, o);
    PipelineIsFirstOpen(s, pk, p, o);
    ReachesStage(7, s, pk, p, o);
    var c := PipelineEffect(s, pk, p, o);
    var at, h := StateAt(7, s, pk, p, o), HeldAt(7, s, pk, p, o);
    var d := Decide(Autoscaler, pk, p, o, CtxAt(7, pk, p, o));
    ClashAnnounced(at, pk, h, o.status(At(Autoscaler)), d, p.status.uuid);
    ReconcileKeepsInv(s, pk, o);
    ClashStays(s, s', pk);
  }

  lemma ClashStays(s: Server, s': Server, pk: PKey)
    requires Clashed(s, pk) && Inv(s') && s'.objs == s.objs && s'.minted == s.minted
    requires pk in s'.prestos && s'.prestos[pk].spec == s.prestos[pk].spec && UuidAt(s', pk) == UuidAt(s, pk)
    ensures Clashed(s', pk)
  {
    hide Inv, IsRole, ValidSpec;
    var u, spec := UuidAt(s, pk), s.prestos[pk].spec;
    SameHolders(s, s', External, u);
    SameHolders(s, s', WorkerSet, u);
    forall r: Role | r != Autoscaler
      ensures Satisfied(r, s', u, spec)
    {
      assert Satisfied(r, s, u, spec);
      SameHolders(s, s', r, u);
    }
  }

  /** Such a cluster stays Pending through any number of undisturbed calls, and they write no object. */
  lemma {:induction false} StaysPending(s: Server, pk: PKey, os: seq<Oracle>)
    requires Clashed(s, pk) && CalmRun(s, pk, os) && os != []
    ensures
      var t := CalmEnd(s, pk, os);
      Clashed(t, pk) && t.objs == s.objs && t.prestos[pk].status.clusterState == Some(ClusterPending)
    decreases |os|
  {
    hide Reconcile, Inv, AtMostOne, ValidSpec, Satisfied, CalmAnswers;
    ClashedCall(s, pk, os[0]);
    if |os| > 1 {
      StaysPending(Reconcile(s, pk, os[0]).s, pk, os[1..]);
    }
  }

  // ---------------------------------------------------------------- how it comes about

  /** Somebody else's autoscaler under the cluster's name, and then autoscaling switched on. */
  lemma NameCanBeTaken(s: Server, pk: PKey, on: PrestoSpec, obj: Obj)
    requires Undisturbed(s, pk) && Desired(s, pk) && !AutoscalingOn(s.prestos[pk].spec)
    requires ValidSpec(on) && AutoscalingOn(on) && Foreign(obj, s.minted)
    ensures Sliceable(UuidAt(s, pk))
    ensures
      var create := OutsideCreate(HpaKey(pk, UuidAt(s, pk)), obj);
      Allowed(s, create) && Clashed(Take(Take(s, create), EditSpec(pk, on)), pk)
  {
    hide Inv, AtMostOne, IsRole, ValidSpec, NamesFree, Reconcile, Foreign;
    UuidIsMinted(s, pk);
    var u := UuidAt(s, pk);
    var create, edit := OutsideCreate(HpaKey(pk, u), obj), EditSpec(pk, on);
    var s' := Take(s, create);
    var t := Take(s', edit);
    StepKeepsInv(s, create);
    StepKeepsInv(s', edit);
    StepKeepsAtMostOne(s, create, WorkerSet, u);
    StepKeepsAtMostOne(s', edit, WorkerSet, u);
    OutsideMoves(s, create);
    OutsideMoves(s', edit);
    forall r: Role, k: Key
      ensures Holds(r, k, t, u) <==> Holds(r, k, s, u)
    {
      assert Holds(r, k, s', u) <==> HeldAfter(r, k, u, Nothing, s, "");
      assert Holds(r, k, t, u) <==> HeldAfter(r, k, u, Nothing, s', "");
    }
    forall r: Role | r != Autoscaler
      ensures Satisfied(r, t, u, on)
    {
      assert Present(r, s, u);
      var k :| Holds(r, k, s, u);
      assert Holds(r, k, t, u);
    }
    TakenByAnother(t, pk);
  }

  /** What has the autoscaler's name without being the autoscaler has another label. */
  lemma TakenByAnother(s: Server, pk: PKey)
    requires Inv(s) && pk in s.prestos && Sliceable(UuidAt(s, pk)) && HpaKey(pk, UuidAt(s, pk)) in s.objs
    requires !Holds(Autoscaler, HpaKey(pk, UuidAt(s, pk)), s, UuidAt(s, pk))
    ensures UuidOf(s.objs[HpaKey(pk, UuidAt(s, pk))]) != UuidAt(s, pk)
  {
    UuidIsMinted(s, pk);
    var k := HpaKey(pk, UuidAt(s, pk));
    assert Known(k, s.objs[k], s.minted);
    assert UUID_KEY in UUID_KEYS;
  }

  lemma {:induction false} SomeClashedRun(s: Server, pk: PKey, plan: Plan, n: nat) returns (os: seq<Oracle>)
    requires Clashed(s, pk) && ValidPlan(plan) && plan.ports != []
    ensures |os| == n && CalmRun(s, pk, os)
    decreases n
  {
    hide Inv, AtMostOne, ValidSpec, IsRole, CalmAnswers, Reconcile;
    os := [];
    if n > 0 {
      var o := CalmOracle(s, s.prestos[pk], "", "", plan);
      var u, spec := UuidAt(s, pk), s.prestos[pk].spec;
      assert Satisfied(CoordSet, s, u, spec) && Satisfied(WorkerSet, s, u, spec);
      SomeCalmAnswers(s, pk, plan, "", "");
      ClashedCall(s, pk, o);
      var rest := SomeClashedRun(Reconcile(s, pk, o).s, pk, plan, n - 1);
      os := [o] + rest;
    }
  }
}
