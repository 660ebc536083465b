/** With autoscaling off, two undisturbed calls settle the workers. */
module Scaling {
  import opened PrestoTypes
  import opened Naming
  import opened Api
  import opened Pipeline
  import opened Invariants
  import opened Effects
  import opened Reads
  import opened Readiness
  import opened Convergence

  lemma CallKeepsResource(s: Server, pk: PKey, o: Oracle)
    requires Calm(s, pk, o) && UuidAt(s, pk) != ""
    ensures pk in Reconcile(s, pk, o).s.prestos
    ensures Reconcile(s, pk, o).s.prestos[pk].spec == s.prestos[pk].spec
    ensures UuidAt(Reconcile(s, pk, o).s, pk) == UuidAt(s, pk)
  {
    hide Reconcile, Honest, Inv;
    var c := PipelineEffect(s, pk, s.prestos[pk], o);
  }

  lemma {:induction false} RunKeepsResource(s: Server, pk: PKey, os: seq<Oracle>)
    requires Undisturbed(s, pk) && CalmRun(s, pk, os) && UuidAt(s, pk) != ""
    ensures
      var t := CalmEnd(s, pk, os);
      pk in t.prestos && t.prestos[pk].spec == s.prestos[pk].spec && UuidAt(t, pk) == UuidAt(s, pk)
    decreases |os|
  {
    hide Inv, NamesFree, CalmAnswers, Reconcile;
    if os != [] {
      CallKeepsResource(s, pk, os[0]);
      CalmStaysUndisturbed(s, pk, os[0]);
      RunKeepsResource(Reconcile(s, pk, os[0]).s, pk, os[1..]);
    }
  }

  /** The stages before the workers have what they want. */
  ghost predicate ReachesWorkers(s: Server, pk: PKey) {
    && pk in s.prestos && UuidAt(s, pk) != ""
    && forall i :: 0 <= i < Index(WorkerSet) ==> Satisfied(PIPELINE[i], s, UuidAt(s, pk), s.prestos[pk].spec)
  }

  lemma AtMostTwoLeft(s: Server, pk: PKey)
    requires ReachesWorkers(s, pk)
    ensures Measure(s, pk) <= 2
  {
    hide Satisfied;
    var u, spec := UuidAt(s, pk), s.prestos[pk].spec;
    assert Missing(8, s, u, spec) == 0;
    assert Missing(7, s, u, spec) <= 1;
    assert Missing(6, s, u, spec) <= 2;
    assert Missing(4, s, u, spec) == Missing(6, s, u, spec);
    assert Missing(2, s, u, spec) == Missing(4, s, u, spec);
    assert Missing(0, s, u, spec) == Missing(2, s, u, spec);
  }

  ghost predicate HasWorkers(s: Server, u: string, n: int) {
    exists k :: Holds(WorkerSet, k, s, u) && s.objs[k].body.ReplicaSetBody? && s.objs[k].body.replicas == n
  }

  lemma SettledMeans(t: Server, u: string, spec: PrestoSpec)
    requires Satisfied(WorkerSet, t, u, spec) && Satisfied(Autoscaler, t, u, spec)
    requires !AutoscalingOn(spec) && spec.worker.count.Some?
    ensures !Present(Autoscaler, t, u)
    ensures HasWorkers(t, u, spec.worker.count.value)
  {
  }

  /** Two calls past the earlier stages, or more, leave as many workers as the spec counts and no autoscaler. */
  lemma SettledInTwo(s: Server, pk: PKey, os: seq<Oracle>)
    requires Undisturbed(s, pk) && ReachesWorkers(s, pk) && !AutoscalingOn(s.prestos[pk].spec)
    requires CalmRun(s, pk, os) && |os| >= 2
    ensures
      var t, u := CalmEnd(s, pk, os), UuidAt(s, pk);
      && !Present(Autoscaler, t, u)
      && s.prestos[pk].spec.worker.count.Some? && HasWorkers(t, u, s.prestos[pk].spec.worker.count.value)
  {
    hide Inv, NamesFree, CalmAnswers, Reconcile, HeadlessLost, Satisfied, Holds, CalmRun, CalmEnd, Desired;
    var t, u := CalmEnd(s, pk, os), UuidAt(s, pk);
    Converges(s, pk, os);
    AtMostTwoLeft(s, pk);
    RunKeepsResource(s, pk, os);
    NoneMissing(0, t, u, t.prestos[pk].spec);
    assert Satisfied(PIPELINE[6], t, u, t.prestos[pk].spec) && Satisfied(PIPELINE[7], t, u, t.prestos[pk].spec);
    SettledMeans(t, u, t.prestos[pk].spec);
  }
}
