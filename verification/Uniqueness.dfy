/** At most one object per role and cluster, in every run. */
module Uniqueness {
  import opened PrestoTypes
  import opened Naming
  import opened Api
  import opened Pipeline
  import opened NormalForm
  import opened Invariants
  import opened Effects
  import opened Reads
  import opened Runs
  import opened Holders

  /** Objects with fixed names cannot be there twice, however stale the lists are. */
  lemma NamedAtMostOne(r: Role, s: Server, u: string)
    requires r != CoordSet && r != WorkerSet
    ensures AtMostOne(r, s, u)
  {
  }

  ghost predicate OneSetEach(s: Server) {
    forall u: string :: AtMostOne(CoordSet, s, u) && AtMostOne(WorkerSet, s, u)
  }

  /** The listings of ReplicaSets show every one there is, in particular the operator's own. */
  ghost predicate SeesSets(s: Server, step: Step) {
    step.Call? ==>
      forall q: Query ::
        Complete(step.o.list(At(CoordSet), q), q, s) && Complete(step.o.list(At(WorkerSet), q), q, s)
  }

  /** A ReplicaSet is created only if the cluster has none of its role. */
  lemma SetMadeOnlyIfNone(r: Role, k: Key, obj: Obj, s: Server, pk: PKey, o: Oracle, u: string)
    requires r in {CoordSet, WorkerSet} && Accounts(Made(r, k, obj), u, s, pk, o) && SeesSets(s, Call(pk, o))
    ensures !Present(r, s, u)
  {
    var q := QueryOf(r, pk, u);
    assert Complete(o.list(At(r), q), q, s);
    if Present(r, s, u) {
      var k' :| Holds(r, k', s, u);
      RoleIsSelected(r, k', s.objs[k'], u, pk);
    }
  }

  lemma CallKeepsAtMostOne(s: Server, pk: PKey, o: Oracle, r: Role, v: string)
    requires Inv(s) && Honest(s, pk, o) && SeesSets(s, Call(pk, o))
    requires r in {CoordSet, WorkerSet} && AtMostOne(r, s, v)
    ensures AtMostOne(r, Reconcile(s, pk, o).s, v)
  {
    hide Explains, Holds, Reconcile, Inv, Honest;
    var c, u := CallMoves(s, pk, o);
    if c.Made? && c.role == r {
      SetMadeOnlyIfNone(r, c.key, c.obj, s, pk, o, u);
    }
    var s' := Reconcile(s, pk, o).s;
    forall k, k' | Holds(r, k, s', v) && Holds(r, k', s', v)
      ensures k == k'
    {
      assert HeldAfter(r, k, v, c, s, u) && HeldAfter(r, k', v, c, s, u);
    }
  }

  lemma StepKeepsAtMostOne(s: Server, step: Step, r: Role, v: string)
    requires Inv(s) && Allowed(s, step) && SeesSets(s, step)
    requires r in {CoordSet, WorkerSet} && AtMostOne(r, s, v)
    ensures AtMostOne(r, Take(s, step), v)
  {
    hide Inv, Holds, Reconcile, Honest, Foreign, SeesSets;
    if step.Call? {
      CallKeepsAtMostOne(s, step.pk, step.o, r, v);
    } else {
      OutsideMoves(s, step);
    }
  }

  lemma StepKeepsOneSet(s: Server, step: Step)
    requires Inv(s) && Allowed(s, step) && SeesSets(s, step) && OneSetEach(s)
    ensures OneSetEach(Take(s, step))
  {
    hide Inv, Allowed, SeesSets, AtMostOne, Take;
    forall v: string
      ensures AtMostOne(CoordSet, Take(s, step), v) && AtMostOne(WorkerSet, Take(s, step), v)
    {
      StepKeepsAtMostOne(s, step, CoordSet, v);
      StepKeepsAtMostOne(s, step, WorkerSet, v);
    }
  }

  /**
   In every run, with arbitrary environment steps and API failures, a cluster has at most one
   ReplicaSet per role as long as the operator's listings show its own creations.
   */
  lemma OneSetPerRole(steps: seq<Step>)
    requires Obeys(INIT, steps, (t, step) => Allowed(t, step) && SeesSets(t, step))
    ensures OneSetEach(After(INIT, steps))
  {
    var rule: Rule := (t, step) => Allowed(t, step) && SeesSets(t, step);
    var P := (t: Server) => Inv(t) && OneSetEach(t);
    forall t: Server, step: Step | P(t) && rule(t, step)
      ensures P(Take(t, step))
    {
      StepKeepsInv(t, step);
      StepKeepsOneSet(t, step);
    }
    HoldsThroughout(INIT, steps, P, rule);
  }
}
