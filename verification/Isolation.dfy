/** Clusters do not touch each other, taken names do no harm, and the autoscaler keeps its say. */
module Isolation {
  import opened PrestoTypes
  import opened Naming
  import opened Api
  import opened Pipeline
  import opened NormalForm
  import opened Invariants
  import opened Effects
  import opened Calls
  import opened Reads
  import opened Runs
  import opened Holders
  import opened Order
  import opened Readiness

  // ---------------------------------------------------------------- isolation

  /** The autoscaler listing of a call still shows something to delete. */
  predicate DeletesAutoscaler(pk: PKey, o: Oracle) {
    o.get.Found? && Sliceable(o.get.presto.status.uuid) &&
    var p := o.get.presto;
    && FirstOpen(0, pk, p, o) == Index(Autoscaler) && !AutoscalingOn(p.spec)
    && SomethingListed(Answer(Autoscaler, pk, p, o)) && !o.write(At(Autoscaler)).Reject?
  }

  /** The object of another cluster under k is left exactly as it was. */
  predicate Untouched(s: Server, s': Server, k: Key)
    requires k in s.objs
  {
    k in s'.objs && s'.objs[k] == s.objs[k]
  }

  lemma OthersKept(c: Change, s: Server, s': Server, pk: PKey, p: Presto, o: Oracle, k: Key)
    requires Sliceable(p.status.uuid) && Explains(c, s, s', pk, p, o)
    requires k in s.objs && UuidOf(s.objs[k]) != p.status.uuid
    ensures Untouched(s, s', k) || (c == Removed(k) && k == HpaKey(pk, p.status.uuid))
    ensures forall k' :: k' in s'.objs && k' !in s.objs ==> UuidOf(s'.objs[k']) == p.status.uuid
  {
    if c.Rescaled? {
      RoleIsLabelled(WorkerSet, c.key, s.objs[c.key], p.status.uuid, pk.name);
    } else if c.Retuned? {
      RoleIsLabelled(Autoscaler, c.key, s.objs[c.key], p.status.uuid, pk.name);
    } else if c.Made? {
      RoleIsLabelled(c.role, c.key, c.obj, p.status.uuid, pk.name);
    }
  }

  /** The deletion goes to the autoscaler name of the cluster, whoever sits on it now. */
  lemma DeletionHits(s: Server, pk: PKey, p: Presto, o: Oracle)
    requires Applies(s, pk, p, o) && Sliceable(p.status.uuid) && DeletesAutoscaler(pk, o)
    ensures HpaKey(pk, p.status.uuid) !in Reconcile(s, pk, o).s.objs
  {
    hide Decide, Passes, FirstOpen, Answer, Honest, Inv, UpdateStatus, RunFrom, CtxAt;
    PipelineIsFirstOpen(s, pk, p, o);
    DeletionDecided(s, pk, p, o);
    var at := StateAt(7, s, pk, p, o);
    var d := Decide(Autoscaler, pk, p, o, CtxAt(7, pk, p, o));
    assert Perform(Autoscaler, d, at, o.write(At(Autoscaler))).s == Do(d.op, at, o.write(At(Autoscaler))).s;
  }

  lemma DeletionDecided(s: Server, pk: PKey, p: Presto, o: Oracle)
    requires Applies(s, pk, p, o) && Sliceable(p.status.uuid) && DeletesAutoscaler(pk, o)
    ensures
      var d := Decide(Autoscaler, pk, p, o, CtxAt(7, pk, p, o));
      d.Write? && d.op == DeleteOp(HpaKey(pk, p.status.uuid))
  {
    hide FirstOpen, Passes, Inv, Honest, Known;
    FirstFoundIsOurs(Autoscaler, s, pk, p, o);
  }

  /**
   A call changes an object labelled with another cluster's UUID exactly when it deletes, from a
   listing that still shows its own autoscaler, the name that other cluster has taken since.
   */
  lemma IsolationIff(s: Server, pk: PKey, o: Oracle, k: Key)
    requires Inv(s) && Honest(s, pk, o) && k in s.objs
    requires o.get.Found? && o.get.presto.status.uuid != "" && UuidOf(s.objs[k]) != o.get.presto.status.uuid
    ensures Sliceable(o.get.presto.status.uuid)
    ensures Untouched(s, Reconcile(s, pk, o).s, k)
       <==> !(DeletesAutoscaler(pk, o) && k == HpaKey(pk, o.get.presto.status.uuid))
  {
    var p := o.get.presto;
    var c := PipelineEffect(s, pk, p, o);
    OthersKept(c, s, Reconcile(s, pk, o).s, pk, p, o, k);
    if DeletesAutoscaler(pk, o) {
      DeletionHits(s, pk, p, o);
    }
    if c.Removed? {
      RemovalListed(s, pk, p, o);
    }
  }

  lemma RemovalListed(s: Server, pk: PKey, p: Presto, o: Oracle)
    requires Applies(s, pk, p, o) && Sliceable(p.status.uuid)
    requires FirstOpen(0, pk, p, o) == Index(Autoscaler) && !AutoscalingOn(p.spec)
    requires Reconcile(s, pk, o).s.objs != s.objs
    ensures DeletesAutoscaler(pk, o)
  {
    hide RunFrom, Passes, Honest, Announce, Perform, UpdateStatus, Inv;
    PipelineIsFirstOpen(s, pk, p, o);
    if !SomethingListed(Answer(Autoscaler, pk, p, o)) || o.write(At(Autoscaler)).Reject? {
      var d := Decide(Autoscaler, pk, p, o, CtxAt(7, pk, p, o));
      var at, h := StateAt(7, s, pk, p, o), HeldAt(7, s, pk, p, o);
      UnchangedWithout(Autoscaler, d, at, o.write(At(Autoscaler)), pk, h, o.status(At(Autoscaler)));
    }
  }

  lemma UnchangedWithout(r: Role, d: Decision, at: Server, m: WriteMode, pk: PKey, p: Presto, io: StatusIo)
    requires !d.Write? || m.Reject?
    ensures Announce(Perform(r, d, at, m), pk, p, io).s.objs == at.objs
  {
  }

  /** When the autoscalers listed are still there, no call ever touches another cluster's objects. */
  lemma Isolated(s: Server, pk: PKey, o: Oracle, k: Key)
    requires Inv(s) && Honest(s, pk, o) && k in s.objs
    requires forall q: Query :: Truthful(o.list(At(Autoscaler), q), s)
    requires o.get.Found? && o.get.presto.status.uuid != "" && UuidOf(s.objs[k]) != o.get.presto.status.uuid
    ensures Untouched(s, Reconcile(s, pk, o).s, k)
    ensures
      var s' := Reconcile(s, pk, o).s;
      forall k' :: k' in s'.objs && k' !in s.objs ==> UuidOf(s'.objs[k']) == o.get.presto.status.uuid
  {
    hide Reconcile, Inv, Honest;
    var p := o.get.presto;
    var c := PipelineEffect(s, pk, p, o);
    OthersKept(c, s, Reconcile(s, pk, o).s, pk, p, o, k);
    IsolationIff(s, pk, o, k);
    if DeletesAutoscaler(pk, o) {
      assert Truthful(o.list(At(Autoscaler), QueryOf(Autoscaler, pk, p.status.uuid)), s);
      TruthfullyHeld(Autoscaler, 0, s, pk, p, o);
      var k' := Answer(Autoscaler, pk, p, o).items[0].key;
      RoleIsLabelled(Autoscaler, k', s.objs[k'], p.status.uuid, pk.name);
    }
  }

  // ---------------------------------------------------------------- name clashes

  /** A create under a taken name changes no object; only the autoscaler stage then claims success. */
  lemma ClashIsHarmless(s: Server, pk: PKey, p: Presto, o: Oracle, r: Role)
    requires Applies(s, pk, p, o) && Sliceable(p.status.uuid) && FirstOpen(0, pk, p, o) == Index(r)
    requires
      var d := Decide(r, pk, p, o, CtxAt(Index(r), pk, p, o));
      d.Write? && d.op.CreateOp? && d.op.key in s.objs
    ensures Reconcile(s, pk, o).s.objs == s.objs
    ensures r != Autoscaler ==> Reconcile(s, pk, o).verdict.Failed?
    ensures r == Autoscaler && o.write(At(r)).Accept? ==> Reconcile(s, pk, o).verdict.Fine?
  {
    hide RunFrom, Passes, Honest, Announce, Perform, UpdateStatus, Inv, Decide;
    PipelineIsFirstOpen(s, pk, p, o);
    var d := Decide(r, pk, p, o, CtxAt(Index(r), pk, p, o));
    CreateTolerance(r, pk, p, o);
    var at, h := StateAt(Index(r), s, pk, p, o), HeldAt(Index(r), s, pk, p, o);
    ClashPerformed(r, d, at, o.write(At(r)), pk, h, o.status(At(r)));
  }

  lemma CreateTolerance(r: Role, pk: PKey, p: Presto, o: Oracle)
    requires Sliceable(p.status.uuid)
    ensures
      var d := Decide(r, pk, p, o, CtxAt(Index(r), pk, p, o));
      d.Write? && d.op.CreateOp? ==>
        && d.tolerant == r.Autoscaler?
        && (r.Autoscaler? ==> d.after.Ok? && d.after.value.Some? && d.after.value.value.service.None?)
  {
  }

  lemma ClashPerformed(r: Role, d: Decision, at: Server, m: WriteMode, pk: PKey, p: Presto, io: StatusIo)
    requires d.Write? && d.op.CreateOp? && d.op.key in at.objs
    requires d.tolerant ==> d.after.Ok? && d.after.value.Some? && d.after.value.value.service.None?
    ensures
      var q := Announce(Perform(r, d, at, m), pk, p, io);
      q.s.objs == at.objs && (if d.tolerant then m.Accept? ==> q.verdict.Fine? else q.verdict.Failed?)
  {
    ClashRefused(r, d, at, m);
  }

  lemma ClashRefused(r: Role, d: Decision, at: Server, m: WriteMode)
    requires d.Write? && d.op.CreateOp? && d.op.key in at.objs
    requires d.tolerant ==> d.after.Ok? && d.after.value.Some? && d.after.value.value.service.None?
    ensures
      var q := Perform(r, d, at, m);
      && q.s == at && (q.note.Some? ==> q.note.value.service.None?)
      && (if d.tolerant then m.Accept? ==> q.verdict.Fine? else q.verdict.Failed?)
  {
  }

  /** While another cluster sits on its autoscaler's name, an autoscaled cluster is never announced Ready. */
  lemma ClashNeverReady(s: Server, pk: PKey, o: Oracle)
    requires Inv(s) && Honest(s, pk, o) && FreshLists(s, o) && o.get.Found?
    requires Sliceable(o.get.presto.status.uuid) && AutoscalingOn(o.get.presto.spec)
    requires
      var k := HpaKey(pk, o.get.presto.status.uuid);
      k in s.objs && UuidOf(s.objs[k]) != o.get.presto.status.uuid
    ensures !AnnouncesReady(s, pk, o)
  {
    hide Inv, Honest, FreshLists, AnnouncesReady, Reconcile, Passes, IsRole;
    if AnnouncesReady(s, pk, o) {
      ReadyPassesAll(s, pk, o);
      var p := o.get.presto;
      assert Passes(PIPELINE[7], pk, p, o);
      var k := PassedIsHeld(s, pk, p, o);
      RoleIsLabelled(Autoscaler, k, s.objs[k], p.status.uuid, pk.name);
      assert false;
    }
  }

  lemma PassedIsHeld(s: Server, pk: PKey, p: Presto, o: Oracle) returns (k: Key)
    requires Looks(s, pk, p, o) && Sliceable(p.status.uuid) && AutoscalingOn(p.spec) && Passes(Autoscaler, pk, p, o)
    ensures k == HpaKey(pk, p.status.uuid) && Holds(Autoscaler, k, s, p.status.uuid)
  {
    ListedIffPresent(Autoscaler, s, pk, p, o);
    k :| Holds(Autoscaler, k, s, p.status.uuid);
  }

  // ---------------------------------------------------------------- who owns the replica count

  /** Every call for cluster u sees autoscaling on; outside scaling stays within bounds; k is not deleted. */
  ghost predicate AutoscalerInCharge(s: Server, step: Step, u: string, k: Key, lo: int, hi: int) {
    && (step.Call? && step.o.get.Found? && step.o.get.presto.status.uuid == u ==> AutoscalingOn(step.o.get.presto.spec))
    && (step.OutsideScale? && step.key == k ==> lo <= step.replicas <= hi)
    && (step.OutsideDelete? ==> step.key != k)
  }

  ghost predicate Bounded(s: Server, u: string, k: Key, lo: int, hi: int) {
    Holds(WorkerSet, k, s, u) && lo <= s.objs[k].body.replicas <= hi
  }

  lemma WorkerSetKept(c: Change, s: Server, s': Server, pk: PKey, p: Presto, o: Oracle, u: string, k: Key)
    requires Sliceable(p.status.uuid) && Explains(c, s, s', pk, p, o) && Holds(WorkerSet, k, s, u)
    requires p.status.uuid == u ==> AutoscalingOn(p.spec)
    ensures k in s'.objs && s'.objs[k] == s.objs[k]
  {
    hide FirstOpen, Passes, BuiltFor, Justified;
    match c {
      case Rescaled(k', _) =>
        if k' == k {
          RoleIsUnique(WorkerSet, WorkerSet, k, s.objs[k], u, p.status.uuid, s.minted[u].name, pk.name);
        }
      case _ =>
    }
  }

  /** With autoscaling on, a call leaves the worker count of its cluster exactly as it was. */
  lemma CallKeepsReplicas(s: Server, pk: PKey, o: Oracle, u: string, k: Key)
    requires Inv(s) && Honest(s, pk, o) && Holds(WorkerSet, k, s, u)
    requires o.get.Found? && o.get.presto.status.uuid == u ==> AutoscalingOn(o.get.presto.spec)
    ensures
      var s' := Reconcile(s, pk, o).s;
      Holds(WorkerSet, k, s', u) && s'.objs[k] == s.objs[k]
  {
    if o.get.Found? {
      if o.get.presto.status.uuid == "" {
        UuidGate(s, pk, o);
      } else {
        var c := PipelineEffect(s, pk, o.get.presto, o);
        WorkerSetKept(c, s, Reconcile(s, pk, o).s, pk, o.get.presto, o, u, k);
      }
    }
  }

  lemma StepKeepsBounds(s: Server, step: Step, u: string, k: Key, lo: int, hi: int)
    requires Inv(s) && Allowed(s, step) && AutoscalerInCharge(s, step, u, k, lo, hi) && Bounded(s, u, k, lo, hi)
    ensures Bounded(Take(s, step), u, k, lo, hi)
  {
    hide Inv, Reconcile, Honest;
    if step.Call? {
      CallKeepsReplicas(s, step.pk, step.o, u, k);
    } else {
      OutsideMoves(s, step);
      var c := if step.OutsideDelete? then Removed(step.key) else Nothing;
      assert Holds(WorkerSet, k, Take(s, step), u) <==> HeldAfter(WorkerSet, k, u, c, s, "");
    }
  }

  /** Over any run in which autoscaling stays on, bounds the autoscaler respects are never broken by the operator. */
  lemma ReplicasStayBounded(s: Server, steps: seq<Step>, u: string, k: Key, lo: int, hi: int)
    requires Inv(s) && Bounded(s, u, k, lo, hi)
    requires Obeys(s, steps, (t, step) => Allowed(t, step) && AutoscalerInCharge(t, step, u, k, lo, hi))
    ensures Bounded(After(s, steps), u, k, lo, hi)
  {
    var rule: Rule := (t, step) => Allowed(t, step) && AutoscalerInCharge(t, step, u, k, lo, hi);
    var P := (t: Server) => Inv(t) && Bounded(t, u, k, lo, hi);
    forall t: Server, step: Step | P(t) && rule(t, step)
      ensures P(Take(t, step))
    {
      StepKeepsInv(t, step);
      StepKeepsBounds(t, step, u, k, lo, hi);
    }
    HoldsThroughout(s, steps, P, rule);
  }
}
