/** What a cluster announced Ready is guaranteed to have. */
module Readiness {
  import opened PrestoTypes
  import opened Naming
  import opened Api
  import opened Pipeline
  import opened NormalForm
  import opened Invariants
  import opened Effects
  import opened Calls
  import opened Reads
  import opened Runs
  import opened Holders
  import opened Order

  /** The call writes Ready into a status. */
  ghost predicate AnnouncesReady(s: Server, pk: PKey, o: Oracle) {
    var s' := Reconcile(s, pk, o).s;
    exists i :: |s.log| <= i < |s'.log| && Announces(s'.log[i], ClusterReady)
  }

  /** The pod listing shows exactly the pods with the given labels. */
  ghost predicate ExactPods(l: PodListing, ns: string, selector: Labels, s: Server) {
    && l.PodsListed?
    && (forall i :: 0 <= i < |l.pods| ==>
          Matches(selector, l.pods[i].labels) && exists n :: n in s.pods && n.ns == ns && s.pods[n] == l.pods[i])
    && (forall n :: n in s.pods && n.ns == ns && Matches(selector, s.pods[n].labels) ==> s.pods[n] in l.pods)
  }

  ghost predicate FreshPods(s: Server, o: Oracle) {
    forall ns: string, l: Labels :: ExactPods(o.pods(ns, l), ns, l, s)
  }

  ghost predicate FreshReads(s: Server, o: Oracle) {
    FreshLists(s, o) && FreshPods(s, o)
  }

  ghost predicate CoordinatorRuns(s: Server, pk: PKey, u: string) {
    exists n :: n in s.pods && n.ns == pk.ns && s.pods[n].phase == PodRunning
             && Matches(CoordinatorLabels(u, pk.name), s.pods[n].labels)
  }

  /** The worker count and the autoscaler are as the spec asks. */
  ghost predicate ScalingSettled(s: Server, u: string, spec: PrestoSpec) {
    Satisfied(WorkerSet, s, u, spec) && Satisfied(Autoscaler, s, u, spec)
  }

  /** Of what a call appends to the log, only the last entry can announce Ready. */
  lemma ReadyIsLast(w: Written3, s: Server, s': Server, i: nat)
    requires Appends(w, s, s') && |s.log| <= i < |s'.log| && Announces(s'.log[i], ClusterReady)
    ensures w.status != [] && Announces(w.status[0], ClusterReady)
  {
  }

  lemma NotReadyAtGate(s: Server, pk: PKey, o: Oracle)
    requires Inv(s) && Honest(s, pk, o) && AnnouncesReady(s, pk, o)
    ensures o.get.Found? && o.get.presto.status.uuid != ""
  {
    if o.get.Found? && o.get.presto.status.uuid == "" {
      UuidGate(s, pk, o);
    }
  }

  lemma ReadyPassesAll(s: Server, pk: PKey, o: Oracle)
    requires Inv(s) && Honest(s, pk, o) && AnnouncesReady(s, pk, o)
    ensures o.get.Found? && Applies(s, pk, o.get.presto, o) && Sliceable(o.get.presto.status.uuid)
    ensures o.get.presto.status.uuid in s.minted && s.minted[o.get.presto.status.uuid] == pk
    ensures FirstOpen(0, pk, o.get.presto, o) == |PIPELINE|
    ensures CoordinatorPhase(o.pods(pk.ns, CoordinatorLabels(o.get.presto.status.uuid, pk.name))) == PodRunning
    ensures MajorCount(Reconcile(s, pk, o).s.log) == MajorCount(s.log)
    ensures Reconcile(s, pk, o).s.objs == s.objs
  {
    NotReadyAtGate(s, pk, o);
    var p, s' := o.get.presto, Reconcile(s, pk, o).s;
    var c := PipelineEffect(s, pk, p, o);
    var w := PipelineLog(s, pk, p, o);
    var i :| |s.log| <= i < |s'.log| && Announces(s'.log[i], ClusterReady);
    ReadyIsLast(w, s, s', i);
    CountAppended(s.log, w.address);
    CountAppended(s.log + w.address, w.resource);
    CountAppended(s.log + w.address + w.resource, w.status);
  }

  /** With fresh listings, no open stage means that every stage is satisfied. */
  lemma AllSatisfied(r: Role, s: Server, pk: PKey, p: Presto, o: Oracle)
    requires Looks(s, pk, p, o) && Sliceable(p.status.uuid)
    requires FirstOpen(0, pk, p, o) == |PIPELINE|
    ensures SpecAllows(r, p, o) && Satisfied(r, s, p.status.uuid, p.spec)
  {
    assert Passes(PIPELINE[Index(r)], pk, p, o);
    PassedIsSatisfied(r, s, pk, p, o);
  }

  lemma RunningPodExists(s: Server, pk: PKey, o: Oracle, u: string)
    requires FreshPods(s, o) && CoordinatorPhase(o.pods(pk.ns, CoordinatorLabels(u, pk.name))) == PodRunning
    ensures CoordinatorRuns(s, pk, u)
  {
    var l := o.pods(pk.ns, CoordinatorLabels(u, pk.name));
    assert ExactPods(l, pk.ns, CoordinatorLabels(u, pk.name), s);
    assert l.pods[0].phase == PodRunning;
  }

  /** Everything but the headless service is there, and scaling is as the spec asks. */
  ghost predicate ReadyStore(s: Server, u: string, spec: PrestoSpec) {
    && (forall r: Role :: r != Headless && r != Autoscaler ==> Present(r, s, u))
    && ScalingSettled(s, u, spec)
  }

  lemma SatisfiedIsPresent(r: Role, s: Server, u: string, spec: PrestoSpec)
    requires r != Headless && r != Autoscaler && Satisfied(r, s, u, spec)
    ensures Present(r, s, u)
  {
  }

  lemma ReadyStoreHolds(s: Server, pk: PKey, p: Presto, o: Oracle)
    requires Looks(s, pk, p, o) && Sliceable(p.status.uuid)
    requires FirstOpen(0, pk, p, o) == |PIPELINE|
    ensures ReadyStore(s, p.status.uuid, p.spec)
  {
    var u := p.status.uuid;
    forall r: Role | r != Headless && r != Autoscaler
      ensures Present(r, s, u)
    {
      AllSatisfied(r, s, pk, p, o);
      SatisfiedIsPresent(r, s, u, p.spec);
    }
    AllSatisfied(WorkerSet, s, pk, p, o);
    AllSatisfied(Autoscaler, s, pk, p, o);
  }

  /**
   A call that writes Ready makes no UUID or object write, and at that point every mandatory object
   but the headless service is there, the coordinator runs, and scaling is as the spec asks.
   */
  lemma ReadyIsSound(s: Server, pk: PKey, o: Oracle)
    requires Inv(s) && Honest(s, pk, o) && FreshReads(s, o) && AnnouncesReady(s, pk, o)
    ensures o.get.Found? && Reconcile(s, pk, o).s.objs == s.objs
    ensures MajorCount(Reconcile(s, pk, o).s.log) == MajorCount(s.log)
    ensures ReadyStore(s, o.get.presto.status.uuid, o.get.presto.spec)
    ensures CoordinatorRuns(s, pk, o.get.presto.status.uuid)
  {
    ReadyPassesAll(s, pk, o);
    ReadyStoreHolds(s, pk, o.get.presto, o);
    RunningPodExists(s, pk, o, o.get.presto.status.uuid);
  }

  // ---------------------------------------------------------------- the headless service

  /** No external service without the headless one. */
  ghost predicate HeadlessFirst(s: Server, u: string) {
    Present(External, s, u) ==> Present(Headless, s, u)
  }

  /** Nobody takes the headless service away while the external one stands. */
  ghost predicate SparesHeadless(s: Server, step: Step, u: string) {
    step.OutsideDelete? && Holds(Headless, step.key, s, u) ==> !Present(External, s, u)
  }

  /** What cluster u's own calls list as its headless service is still there. */
  ghost predicate TruthfulHeadless(s: Server, step: Step, u: string) {
    step.Call? && step.o.get.Found? && step.o.get.presto.status.uuid == u ==>
      Truthful(step.o.list(At(Headless), QueryOf(Headless, step.pk, u)), s)
  }

  lemma CallKeepsHeadlessFirst(s: Server, pk: PKey, o: Oracle, u: string)
    requires Inv(s) && Honest(s, pk, o) && TruthfulHeadless(s, Call(pk, o), u) && HeadlessFirst(s, u)
    ensures HeadlessFirst(Reconcile(s, pk, o).s, u)
  {
    hide Inv, Reconcile, BuiltFor;
    var c, v := CallMoves(s, pk, o);
    var s' := Reconcile(s, pk, o).s;
    if Present(External, s', u) {
      PresentBefore(External, c, v, s, s', u);
      if !Present(External, s, u) {
        assert Passes(PIPELINE[0], pk, o.get.presto, o);
        TruthfullyHeld(Headless, 0, s, pk, o.get.presto, o);
      }
      var k :| Holds(Headless, k, s, u);
      PresentAfter(Headless, c, v, s, s', u);
    }
  }

  lemma OutsideKeepsHeadlessFirst(s: Server, step: Step, u: string)
    requires Inv(s) && Allowed(s, step) && !step.Call? && SparesHeadless(s, step, u) && HeadlessFirst(s, u)
    ensures HeadlessFirst(Take(s, step), u)
  {
    OutsideMoves(s, step);
    var c := if step.OutsideDelete? then Removed(step.key) else Nothing;
    var s' := Take(s, step);
    if Present(External, s', u) {
      PresentBefore(External, c, "", s, s', u);
      var k :| Holds(Headless, k, s, u);
      PresentAfter(Headless, c, "", s, s', u);
    }
  }

  /**
   In every run that never takes the headless service away under a standing external one, a
   cluster announced Ready has all seven mandatory objects.
   */
  lemma ReadyHasAllSeven(steps: seq<Step>, pk: PKey, o: Oracle, u: string)
    requires Obeys(INIT, steps, (t, step) =>
      Allowed(t, step) && TruthfulHeadless(t, step, u) && SparesHeadless(t, step, u))
    requires
      var s := After(INIT, steps);
      Honest(s, pk, o) && FreshReads(s, o) && AnnouncesReady(s, pk, o) && o.get.presto.status.uuid == u
    ensures forall r: Role :: r != Autoscaler ==> Present(r, After(INIT, steps), u)
    ensures CoordinatorRuns(After(INIT, steps), pk, u) && ScalingSettled(After(INIT, steps), u, o.get.presto.spec)
  {
    hide Reconcile, IsRole;
    var rule: Rule := (t, step) =>
      Allowed(t, step) && TruthfulHeadless(t, step, u) && SparesHeadless(t, step, u);
    var P := (t: Server) => Inv(t) && HeadlessFirst(t, u);
    forall t: Server, step: Step | P(t) && rule(t, step)
      ensures P(Take(t, step))
    {
      StepKeepsInv(t, step);
      if step.Call? {
        CallKeepsHeadlessFirst(t, step.pk, step.o, u);
      } else {
        OutsideKeepsHeadlessFirst(t, step, u);
      }
    }
    HoldsThroughout(INIT, steps, P, rule);
    ReadyIsSound(After(INIT, steps), pk, o);
  }

  /** The external service stands and the headless one is gone. */
  ghost predicate HeadlessLost(s: Server, u: string) {
    Present(External, s, u) && !Present(Headless, s, u)
  }

  /** The headless stage's listing shows every service there is. */
  ghost predicate SeesServices(s: Server, step: Step) {
    step.Call? ==> forall q: Query :: Complete(step.o.list(At(Headless), q), q, s)
  }

  ghost predicate SparesExternal(s: Server, step: Step, u: string) {
    step.OutsideDelete? ==> !Holds(External, step.key, s, u)
  }

  lemma CallKeepsHeadlessLost(s: Server, pk: PKey, o: Oracle, u: string)
    requires Inv(s) && Honest(s, pk, o) && SeesServices(s, Call(pk, o)) && HeadlessLost(s, u)
    ensures HeadlessLost(Reconcile(s, pk, o).s, u)
  {
    hide Reconcile, Honest, Inv, Explains, IsRole;
    var c, v := CallMoves(s, pk, o);
    var s' := Reconcile(s, pk, o).s;
    var k :| Holds(External, k, s, u);
    if c.Removed? {
      RemovedComesLast(c, s, pk, o, v, External, k, u);
    }
    PresentAfter(External, c, v, s, s', u);
    if Present(Headless, s', u) {
      PresentBefore(Headless, c, v, s, s', u);
      MadeOnlyIfUnlisted(c, k, s, pk, o, u);
    }
  }

  /** The external service answers the headless stage's search. */
  lemma MadeOnlyIfUnlisted(c: Change, k: Key, s: Server, pk: PKey, o: Oracle, u: string)
    requires Accounts(c, u, s, pk, o) && SeesServices(s, Call(pk, o)) && Holds(External, k, s, u)
    ensures !(c.Made? && c.role == Headless)
  {
    hide Reconcile, FirstOpen, Moves, BuiltFor;
    var q := QueryOf(Headless, pk, u);
    assert Complete(o.list(At(Headless), q), q, s);
    assert u in s.minted && s.minted[u] == pk ==> q.Selects(k, s.objs[k]);
  }

  lemma OutsideKeepsHeadlessLost(s: Server, step: Step, u: string)
    requires Inv(s) && Allowed(s, step) && !step.Call? && SparesExternal(s, step, u) && HeadlessLost(s, u)
    ensures HeadlessLost(Take(s, step), u)
  {
    OutsideMoves(s, step);
    var c := if step.OutsideDelete? then Removed(step.key) else Nothing;
    var s' := Take(s, step);
    var k :| Holds(External, k, s, u);
    PresentAfter(External, c, "", s, s', u);
    if Present(Headless, s', u) {
      PresentBefore(Headless, c, "", s, s', u);
    }
  }

  /**
   Once lost under a standing external service, the headless service never comes back: its stage
   takes the external service, which carries the same label, for it.
   */
  lemma HeadlessNeverReturns(s: Server, steps: seq<Step>, u: string)
    requires Inv(s) && HeadlessLost(s, u)
    requires Obeys(s, steps, (t, step) => Allowed(t, step) && SeesServices(t, step) && SparesExternal(t, step, u))
    ensures HeadlessLost(After(s, steps), u)
  {
    var rule: Rule := (t, step) => Allowed(t, step) && SeesServices(t, step) && SparesExternal(t, step, u);
    var P := (t: Server) => Inv(t) && HeadlessLost(t, u);
    forall t: Server, step: Step | P(t) && rule(t, step)
      ensures P(Take(t, step))
    {
      StepKeepsInv(t, step);
      if step.Call? {
        CallKeepsHeadlessLost(t, step.pk, step.o, u);
      } else {
        OutsideKeepsHeadlessLost(t, step, u);
      }
    }
    HoldsThroughout(s, steps, P, rule);
  }
}
