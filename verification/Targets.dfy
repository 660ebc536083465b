/** What an autoscaler scales. */
module Targets {
  import opened PrestoTypes
  import opened Naming
  import opened Api
  import opened Pipeline
  import opened NormalForm
  import opened Invariants
  import opened Effects
  import opened Reads
  import opened Runs
  import opened Holders
  import opened Order

  /** Where the target of the autoscaler under k would be. */
  function TargetKey(k: Key, obj: Obj): Key {
    Key(ReplicaSet, k.ns, HpaSpecOf(obj).target)
  }

  /** The call created an autoscaler or gave one new numbers. */
  predicate Aims(c: Change) {
    (c.Made? && c.role == Autoscaler) || c.Retuned?
  }

  /** A new or retuned autoscaler scales a worker ReplicaSet that is there, if lists show the store as it is. */
  lemma FreshTarget(c: Change, s: Server, pk: PKey, o: Oracle, u: string)
    requires Accounts(c, u, s, pk, o) && Aims(c) && Inv(s) && Honest(s, pk, o) && FreshLists(s, o)
    ensures Holds(WorkerSet, TargetKey(c.key, c.obj), s, u)
  {
    hide Inv, Honest, FirstOpen, Passes, Moves, NothingFound, Reconcile, IsRole;
    ListedIffPresent(WorkerSet, s, pk, o.get.presto, o);
  }

  /** However stale the list, it scales one the cluster had, and still has if nobody deletes worker ReplicaSets. */
  lemma ListedTarget(c: Change, s: Server, pk: PKey, o: Oracle, u: string)
    requires Accounts(c, u, s, pk, o) && Aims(c) && Inv(s) && Honest(s, pk, o) && StaysHeld(WorkerSet, s, u)
    ensures Holds(WorkerSet, TargetKey(c.key, c.obj), s, u)
  {
    hide InShape, Known, PrestoFits, FirstOpen, Passes, Moves, NothingFound, Reconcile;
    var p := o.get.presto;
    FirstFoundIsOurs(WorkerSet, s, pk, p, o);
    var it := Answer(WorkerSet, pk, p, o).items[0];
    assert HonestListing(Answer(WorkerSet, pk, p, o), QueryOf(WorkerSet, pk, u), s);
    assert WasRole(WorkerSet, it, s, u);
  }

  // ---------------------------------------------------------------- over whole runs

  /** Every autoscaler of the cluster scales one of its worker ReplicaSets. */
  ghost predicate Aimed(s: Server, u: string) {
    forall k :: Holds(Autoscaler, k, s, u) ==> Holds(WorkerSet, TargetKey(k, s.objs[k]), s, u)
  }

  /** Nobody else deletes the cluster's worker ReplicaSets or points its autoscaler elsewhere. */
  ghost predicate KeepsAim(s: Server, step: Step, u: string) {
    && (step.OutsideDelete? ==> !Holds(WorkerSet, step.key, s, u))
    && (step.OutsideTune? && Holds(Autoscaler, step.key, s, u) ==>
          step.hpa.target == HpaSpecOf(s.objs[step.key]).target)
  }

  lemma CallKeepsAimed(s: Server, pk: PKey, o: Oracle, u: string)
    requires Inv(s) && Honest(s, pk, o) && StaysHeld(WorkerSet, s, u) && Aimed(s, u)
    ensures Aimed(Reconcile(s, pk, o).s, u)
  {
    hide Inv, Honest, Reconcile, StaysHeld, Explains, IsRole;
    var c, v := CallMoves(s, pk, o);
    var s' := Reconcile(s, pk, o).s;
    forall k | Holds(Autoscaler, k, s', u)
      ensures Holds(WorkerSet, TargetKey(k, s'.objs[k]), s', u)
    {
      assert HeldAfter(Autoscaler, k, u, c, s, v);
      TargetBefore(c, v, s, pk, o, u, k);
      var target := TargetKey(k, s'.objs[k]);
      if c.Removed? {
        RemovedComesLast(c, s, pk, o, v, WorkerSet, target, u);
      }
      assert HeldAfter(WorkerSet, target, u, c, s, v);
    }
  }

  /** The target an autoscaler has after the call was a worker ReplicaSet of the cluster before it. */
  lemma TargetBefore(c: Change, v: string, s: Server, pk: PKey, o: Oracle, u: string, k: Key)
    requires Inv(s) && Honest(s, pk, o) && StaysHeld(WorkerSet, s, u) && Aimed(s, u) && Accounts(c, v, s, pk, o)
    requires Holds(Autoscaler, k, Reconcile(s, pk, o).s, u) && HeldAfter(Autoscaler, k, u, c, s, v)
    ensures Holds(WorkerSet, TargetKey(k, Reconcile(s, pk, o).s.objs[k]), s, u)
  {
    hide Inv, Honest, Reconcile, StaysHeld, FirstOpen, Moves, BuiltFor, NothingFound, Passes, IsRole;
    var s' := Reconcile(s, pk, o).s;
    if Aims(c) && k == c.key {
      RoleIsUnique(Autoscaler, Autoscaler, k, s'.objs[k], u, v, s'.minted[u].name, pk.name);
      ListedTarget(c, s, pk, o, u);
    } else if c.Rescaled? && k == c.key {
      RoleIsUnique(Autoscaler, WorkerSet, k, s.objs[k], u, v, s.minted[u].name, pk.name);
    } else {
      assert Holds(Autoscaler, k, s, u) && s'.objs[k] == s.objs[k];
    }
  }

  lemma OutsideKeepsAimed(s: Server, step: Step, u: string)
    requires Inv(s) && Allowed(s, step) && !step.Call? && KeepsAim(s, step, u) && Aimed(s, u)
    ensures Aimed(Take(s, step), u)
  {
    hide Inv, Allowed, IsRole, Reconcile;
    OutsideMoves(s, step);
    var c := if step.OutsideDelete? then Removed(step.key) else Nothing;
    var s' := Take(s, step);
    forall k | Holds(Autoscaler, k, s', u)
      ensures Holds(WorkerSet, TargetKey(k, s'.objs[k]), s', u)
    {
      assert HeldAfter(Autoscaler, k, u, c, s, "");
      assert TargetKey(k, s'.objs[k]) == TargetKey(k, s.objs[k]);
      assert HeldAfter(WorkerSet, TargetKey(k, s.objs[k]), u, c, s, "");
    }
  }

  /**
   In every run, with any stale lists, in which nobody else deletes the cluster's worker ReplicaSets
   or retargets its autoscaler, the autoscaler scales a worker ReplicaSet of its own cluster.
   */
  lemma AimedInEveryRun(steps: seq<Step>, u: string)
    requires Obeys(INIT, steps, (t, step) => Allowed(t, step) && KeepsAim(t, step, u))
    ensures Aimed(After(INIT, steps), u)
  {
    hide Allowed, KeepsAim, Take, Holds;
    var rule: Rule := (t, step) => Allowed(t, step) && KeepsAim(t, step, u);
    var P := (t: Server) => Inv(t) && StaysHeld(WorkerSet, t, u) && Aimed(t, u);
    forall t: Server, step: Step | P(t) && rule(t, step)
      ensures P(Take(t, step))
    {
      StepKeepsInv(t, step);
      StepKeepsAimed(t, step, u);
    }
    NothingToAim(u);
    HoldsThroughout(INIT, steps, P, rule);
  }

  lemma StepKeepsAimed(s: Server, step: Step, u: string)
    requires Inv(s) && Allowed(s, step) && KeepsAim(s, step, u) && StaysHeld(WorkerSet, s, u) && Aimed(s, u)
    ensures StaysHeld(WorkerSet, Take(s, step), u) && Aimed(Take(s, step), u)
  {
    hide Inv, Honest, Reconcile, StaysHeld, Aimed, Holds, Foreign;
    if step.Call? {
      CallKeepsHeld(s, step.pk, step.o, WorkerSet, u);
      CallKeepsAimed(s, step.pk, step.o, u);
    } else {
      OutsideKeepsHeld(s, step, WorkerSet, u);
      OutsideKeepsAimed(s, step, u);
    }
  }

  lemma NothingToAim(u: string)
    ensures Inv(INIT) && StaysHeld(WorkerSet, INIT, u) && Aimed(INIT, u)
  {
  }
}
