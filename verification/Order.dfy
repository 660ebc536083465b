/** Objects appear in pipeline order. */
module Order {
  import opened PrestoTypes
  import opened Naming
  import opened Api
  import opened Pipeline
  import opened NormalForm
  import opened Invariants
  import opened Effects
  import opened Reads
  import opened Runs
  import opened Holders

  ghost predicate SparesCluster(s: Server, step: Step, u: string) {
    step.OutsideDelete? ==> !(step.key in s.objs && UuidOf(s.objs[step.key]) == u)
  }

  /** The object an item of a truthful listing names is held by the cluster that lists it. */
  lemma TruthfullyHeld(role: Role, i: nat, s: Server, pk: PKey, p: Presto, o: Oracle)
    requires Applies(s, pk, p, o) && Truthful(Answer(role, pk, p, o), s)
    requires Sliceable(p.status.uuid) && p.status.uuid in s.minted && s.minted[p.status.uuid] == pk
    requires Answer(role, pk, p, o).Listed? && i < |Answer(role, pk, p, o).items|
    requires role in {CoordConfig, WorkerConfig, CatalogConfig} ==>
               Answer(role, pk, p, o).items[i].key.name == ConfigName(role, p.status.uuid)
    ensures
      var k := Answer(role, pk, p, o).items[i].key;
      && (role.Headless? ==> Holds(Headless, k, s, p.status.uuid) || Holds(External, k, s, p.status.uuid))
      && (!role.Headless? ==> Holds(role, k, s, p.status.uuid))
  {
    var u := p.status.uuid;
    var l := Answer(role, pk, p, o);
    assert HonestListing(o.list(At(role), QueryOf(role, pk, u)), QueryOf(role, pk, u), s);
    SelectedRole(role, l.items[i].key, s, pk, u);
  }

  /** What a call removes is an autoscaler. */
  lemma RemovedComesLast(c: Change, s: Server, pk: PKey, o: Oracle, v: string, r: Role, k: Key, u: string)
    requires Accounts(c, v, s, pk, o) && c.Removed? && r != Autoscaler && Holds(r, k, s, u)
    ensures k != c.key
  {
    hide Reconcile, FirstOpen, Moves;
  }

  // ---------------------------------------------------------------- nothing of the past is gone

  /** The item is one the given stage made for cluster u. */
  ghost predicate WasRole(r: Role, it: Item, s: Server, u: string) {
    u in s.minted && it.key.ns == s.minted[u].ns && IsRole(r, it.key, it.obj, u, s.minted[u].name)
  }

  /** What cluster u ever held in the given role it still holds. */
  ghost predicate StaysHeld(r: Role, s: Server, u: string) {
    forall it: Item :: it in s.held && WasRole(r, it, s, u) ==> Holds(r, it.key, s, u)
  }

  /** What cluster u ever held, autoscalers aside, it still holds. */
  ghost predicate StillHeld(s: Server, u: string) {
    forall r: Role :: r != Autoscaler ==> StaysHeld(r, s, u)
  }

  /** An item of the past of s, seen from s', had its role already in s. */
  lemma WasRoleBefore(r: Role, it: Item, s: Server, s': Server, u: string)
    requires NewsIsCurrent(s, s') && it in s.held && WasRole(r, it, s', u)
    ensures WasRole(r, it, s, u)
  {
    if u !in s.minted {
      assert Unused(u, s);
      NotAnothersYet(r, it.key, it.obj, u, s'.minted[u].name);
    }
  }

  lemma CallKeepsHeld(s: Server, pk: PKey, o: Oracle, r: Role, u: string)
    requires Inv(s) && Honest(s, pk, o) && r != Autoscaler && StaysHeld(r, s, u)
    ensures StaysHeld(r, Reconcile(s, pk, o).s, u)
  {
    hide Inv, Honest, Reconcile, Explains, IsRole, Unused;
    var c, v := CallMoves(s, pk, o);
    CallNews(s, pk, o);
    var s' := Reconcile(s, pk, o).s;
    forall it: Item | it in s'.held && WasRole(r, it, s', u)
      ensures Holds(r, it.key, s', u)
    {
      if it in s.held {
        WasRoleBefore(r, it, s, s', u);
        if c.Removed? {
          RemovedComesLast(c, s, pk, o, v, r, it.key, u);
        }
        assert HeldAfter(r, it.key, u, c, s, v);
      }
    }
  }

  lemma OutsideKeepsHeld(s: Server, step: Step, r: Role, u: string)
    requires Inv(s) && Allowed(s, step) && !step.Call? && StaysHeld(r, s, u)
    requires step.OutsideDelete? ==> !Holds(r, step.key, s, u)
    ensures StaysHeld(r, Take(s, step), u)
  {
    hide Inv, Allowed, Take, IsRole, Unused;
    OutsideMoves(s, step);
    OutsideNews(s, step);
    var c := if step.OutsideDelete? then Removed(step.key) else Nothing;
    var s' := Take(s, step);
    forall it: Item | it in s'.held && WasRole(r, it, s', u)
      ensures Holds(r, it.key, s', u)
    {
      if it in s.held {
        WasRoleBefore(r, it, s, s', u);
        assert HeldAfter(r, it.key, u, c, s, "");
      }
    }
  }

  lemma CallKeepsStillHeld(s: Server, pk: PKey, o: Oracle, u: string)
    requires Inv(s) && Honest(s, pk, o) && StillHeld(s, u)
    ensures StillHeld(Reconcile(s, pk, o).s, u)
  {
    hide Inv, Honest, Reconcile, StaysHeld;
    forall r: Role | r != Autoscaler
      ensures StaysHeld(r, Reconcile(s, pk, o).s, u)
    {
      CallKeepsHeld(s, pk, o, r, u);
    }
  }

  lemma OutsideKeepsStillHeld(s: Server, step: Step, u: string)
    requires Inv(s) && Allowed(s, step) && !step.Call? && SparesCluster(s, step, u) && StillHeld(s, u)
    ensures StillHeld(Take(s, step), u)
  {
    hide Inv, Allowed, Take, IsRole, StaysHeld;
    forall r: Role | r != Autoscaler
      ensures StaysHeld(r, Take(s, step), u)
    {
      if step.OutsideDelete? && Holds(r, step.key, s, u) {
        RoleIsLabelled(r, step.key, s.objs[step.key], u, s.minted[u].name);
      } else {
        OutsideKeepsHeld(s, step, r, u);
      }
    }
  }

  /** However stale its list, a stage that passes has its object in the store; the headless stage, one of two. */
  lemma PassedIsPresent(role: Role, s: Server, pk: PKey, p: Presto, o: Oracle)
    requires Applies(s, pk, p, o) && StillHeld(s, p.status.uuid) && role != Autoscaler
    requires Sliceable(p.status.uuid) && p.status.uuid in s.minted && s.minted[p.status.uuid] == pk
    requires Passes(role, pk, p, o)
    ensures Present(role, s, p.status.uuid) || (role.Headless? && Present(External, s, p.status.uuid))
  {
    hide IsRole, InShape, Known;
    var l := Answer(role, pk, p, o);
    if role in {CoordConfig, WorkerConfig, CatalogConfig} {
      var i :| 0 <= i < |l.items| && l.items[i].key.name == ConfigName(role, p.status.uuid);
      var r := ListedWasOurs(role, i, s, pk, p, o);
    } else {
      var r := ListedWasOurs(role, 0, s, pk, p, o);
    }
  }

  /** A listed item is of the role searched for, and still held. */
  lemma ListedWasOurs(role: Role, i: nat, s: Server, pk: PKey, p: Presto, o: Oracle) returns (r: Role)
    requires Applies(s, pk, p, o) && StillHeld(s, p.status.uuid) && role != Autoscaler
    requires Sliceable(p.status.uuid) && p.status.uuid in s.minted && s.minted[p.status.uuid] == pk
    requires Answer(role, pk, p, o).Listed? && i < |Answer(role, pk, p, o).items|
    requires role in {CoordConfig, WorkerConfig, CatalogConfig} ==>
               Answer(role, pk, p, o).items[i].key.name == ConfigName(role, p.status.uuid)
    ensures r == role || (role.Headless? && r == External)
    ensures Holds(r, Answer(role, pk, p, o).items[i].key, s, p.status.uuid)
  {
    hide InShape, Known;
    var u := p.status.uuid;
    var it := Answer(role, pk, p, o).items[i];
    assert HonestListing(o.list(At(role), QueryOf(role, pk, u)), QueryOf(role, pk, u), s);
    assert ItemFits(it, s);
    SelectedIsOurs(role, it, s, pk, u);
    if role in {CoordConfig, WorkerConfig, CatalogConfig} {
      r :| r in {CoordConfig, WorkerConfig, CatalogConfig} && IsRole(r, it.key, it.obj, u, pk.name);
      ConfigNamesDiffer(u);
    } else if role.Headless? && !IsRole(Headless, it.key, it.obj, u, pk.name) {
      r := External;
    } else {
      r := role;
    }
    assert StaysHeld(r, s, u) && WasRole(r, it, s, u);
  }

  // ---------------------------------------------------------------- dependency order

  /** The cluster's objects form a prefix of the pipeline. */
  ghost predicate InOrder(s: Server, u: string) {
    forall i :: 0 < i < |PIPELINE| && Present(PIPELINE[i], s, u) ==> Present(PIPELINE[i - 1], s, u)
  }

  lemma {:induction false} AllBefore(s: Server, u: string, i: nat, j: nat)
    requires InOrder(s, u) && i <= j < |PIPELINE| && Present(PIPELINE[j], s, u)
    ensures Present(PIPELINE[i], s, u)
    decreases j
  {
    if i < j {
      AllBefore(s, u, i, j - 1);
    }
  }

  lemma PresentAfter(r: Role, c: Change, v: string, s: Server, s': Server, u: string)
    requires Moves(c, v, s, s')
    requires Present(r, s, u) && (c.Removed? ==> exists k :: Holds(r, k, s, u) && k != c.key)
    ensures Present(r, s', u)
  {
    var k :| Holds(r, k, s, u) && (c.Removed? ==> k != c.key);
    assert HeldAfter(r, k, u, c, s, v);
  }

  lemma PresentBefore(r: Role, c: Change, v: string, s: Server, s': Server, u: string)
    requires Moves(c, v, s, s') && Present(r, s', u)
    ensures Present(r, s, u) || (c.Made? && c.role == r && v == u)
  {
    var k :| Holds(r, k, s', u);
    assert HeldAfter(r, k, u, c, s, v);
  }

  /** What a call makes follows something already there: the stage before it has passed. */
  lemma MadeAfterPrevious(c: Change, s: Server, pk: PKey, o: Oracle, u: string, i: nat)
    requires Inv(s) && Honest(s, pk, o) && StillHeld(s, u) && InOrder(s, u)
    requires 0 < i < |PIPELINE| && Accounts(c, u, s, pk, o) && c.Made? && c.role == PIPELINE[i]
    ensures Present(PIPELINE[i - 1], s, u)
  {
    hide Reconcile, Inv, Honest, Moves, Justified, StillHeld;
    var p := o.get.presto;
    IndexOfStage(i);
    assert Passes(PIPELINE[i - 1], pk, p, o);
    PassedIsPresent(PIPELINE[i - 1], s, pk, p, o);
    assert Present(PIPELINE[1], s, u) ==> Present(PIPELINE[0], s, u);
  }

  lemma CallKeepsOrder(s: Server, pk: PKey, o: Oracle, u: string)
    requires Inv(s) && Honest(s, pk, o) && StillHeld(s, u) && InOrder(s, u)
    ensures InOrder(Reconcile(s, pk, o).s, u)
  {
    hide Reconcile, Inv, Honest, StillHeld, Explains, Holds;
    var c, v := CallMoves(s, pk, o);
    var s' := Reconcile(s, pk, o).s;
    forall i | 0 < i < |PIPELINE| && Present(PIPELINE[i], s', u)
      ensures Present(PIPELINE[i - 1], s', u)
    {
      PresentBefore(PIPELINE[i], c, v, s, s', u);
      if !Present(PIPELINE[i], s, u) {
        MadeAfterPrevious(c, s, pk, o, u, i);
      }
      var k :| Holds(PIPELINE[i - 1], k, s, u);
      if c.Removed? {
        RemovedComesLast(c, s, pk, o, v, PIPELINE[i - 1], k, u);
      }
      PresentAfter(PIPELINE[i - 1], c, v, s, s', u);
    }
  }

  lemma OutsideKeepsOrder(s: Server, step: Step, u: string)
    requires Inv(s) && Allowed(s, step) && !step.Call? && SparesCluster(s, step, u) && InOrder(s, u)
    ensures InOrder(Take(s, step), u)
  {
    OutsideMoves(s, step);
    var c := if step.OutsideDelete? then Removed(step.key) else Nothing;
    var s' := Take(s, step);
    forall i | 0 < i < |PIPELINE| && Present(PIPELINE[i], s', u)
      ensures Present(PIPELINE[i - 1], s', u)
    {
      PresentBefore(PIPELINE[i], c, "", s, s', u);
      var k :| Holds(PIPELINE[i - 1], k, s, u);
      RoleIsLabelled(PIPELINE[i - 1], k, s.objs[k], u, s.minted[u].name);
      PresentAfter(PIPELINE[i - 1], c, "", s, s', u);
    }
  }

  /**
   In every run in which nobody else deletes the cluster's objects, under any interleaving of spec
   edits, other clusters' calls and API failures, its objects form a prefix of the pipeline: no
   ReplicaSet before both services and all three config maps, no autoscaler before the workers.
   */
  lemma DependencyOrder(steps: seq<Step>, u: string, i: nat, j: nat)
    requires Obeys(INIT, steps, (t, step) => Allowed(t, step) && SparesCluster(t, step, u))
    requires i <= j < |PIPELINE| && Present(PIPELINE[j], After(INIT, steps), u)
    ensures Present(PIPELINE[i], After(INIT, steps), u)
  {
    var rule: Rule := (t, step) => Allowed(t, step) && SparesCluster(t, step, u);
    var P := (t: Server) => Inv(t) && StillHeld(t, u) && InOrder(t, u);
    forall t: Server, step: Step | P(t) && rule(t, step)
      ensures P(Take(t, step))
    {
      StepKeepsInv(t, step);
      if step.Call? {
        CallKeepsStillHeld(t, step.pk, step.o, u);
        CallKeepsOrder(t, step.pk, step.o, u);
      } else {
        OutsideKeepsStillHeld(t, step, u);
        OutsideKeepsOrder(t, step, u);
      }
    }
    HoldsThroughout(INIT, steps, P, rule);
    AllBefore(After(INIT, steps), u, i, j);
  }
}
