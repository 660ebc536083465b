/** The operator and its environment as a transition system, and what holds in every run of it. */
module Runs {
  import opened PrestoTypes
  import opened Naming
  import opened Api
  import opened Pipeline
  import opened Invariants
  import opened Calls

  const NO_STATUS := Status("", 0, 0, "", "", "", "", "", "", "", "", "", None, "", "", "")

  const INIT := Server(map[], map[], map[], 0, [], map[], {}, {})

  datatype Step =
    | Call(pk: PKey, o: Oracle)
    | CreatePresto(pk: PKey, uid: string, labels: Labels, spec: PrestoSpec)
    | EditSpec(pk: PKey, spec: PrestoSpec)
    | EditLabels(pk: PKey, labels: Labels)
    | DeletePresto(pk: PKey)
    | OutsideDelete(key: Key)
    | OutsideScale(key: Key, replicas: int, available: int)
    | OutsideTune(key: Key, hpa: HpaSpec)
    | OutsideCreate(key: Key, obj: Obj)
    | SetPod(pod: PKey, to: Option<Pod>)

  function EditPresto(s: Server, pk: PKey, p: Presto): Server {
    s.(prestos := s.prestos[pk := p.(rv := s.clock)],
       versions := s.versions + {Version(pk, p.(rv := s.clock))},
       clock := s.clock + 1)
  }

  function EditObject(s: Server, k: Key, obj: Obj): Server {
    s.(objs := s.objs[k := obj.(rv := s.clock)],
       held := s.held + {Item(k, obj.(rv := s.clock))},
       clock := s.clock + 1)
  }

  function Take(s: Server, step: Step): Server {
    match step
    case Call(pk, o) => Reconcile(s, pk, o).s
    case CreatePresto(pk, uid, labels, spec) =>
      if pk in s.prestos then s else EditPresto(s, pk, Presto(uid, labels, spec, NO_STATUS, 0, 1))
    case EditSpec(pk, spec) =>
      if pk !in s.prestos then s
      else EditPresto(s, pk, s.prestos[pk].(spec := spec, generation := s.prestos[pk].generation + 1))
    case EditLabels(pk, labels) =>
      if pk !in s.prestos then s else EditPresto(s, pk, s.prestos[pk].(labels := labels))
    case DeletePresto(pk) => s.(prestos := s.prestos - {pk})
    case OutsideDelete(k) => s.(objs := s.objs - {k})
    case OutsideScale(k, n, available) =>
      if k !in s.objs || !s.objs[k].body.ReplicaSetBody? then s
      else EditObject(s, k, s.objs[k].(body := s.objs[k].body.(replicas := n, available := available)))
    case OutsideTune(k, hpa) =>
      if k !in s.objs || !s.objs[k].body.HpaBody? then s else EditObject(s, k, s.objs[k].(body := HpaBody(hpa)))
    case OutsideCreate(k, obj) => if k in s.objs then s else EditObject(s, k, obj)
    case SetPod(pod, to) => s.(pods := if to.None? then s.pods - {pod} else s.pods[pod := to.value])
  }

  /** The API shows only what the server once held, and nobody else puts a cluster's UUID on an object. */
  ghost predicate Allowed(s: Server, step: Step) {
    match step
    case Call(pk, o) => Honest(s, pk, o)
    case OutsideCreate(_, obj) => Foreign(obj, s.minted)
    case _ => true
  }

  function After(s: Server, steps: seq<Step>): Server
    decreases |steps|
  {
    if steps == [] then s else After(Take(s, steps[0]), steps[1..])
  }

  type Rule = (Server, Step) -> bool

  /** Every step of the run, taken where the run is then, satisfies the rule. */
  ghost predicate Obeys(s: Server, steps: seq<Step>, rule: Rule)
    decreases |steps|
  {
    steps != [] ==> rule(s, steps[0]) && Obeys(Take(s, steps[0]), steps[1..], rule)
  }

  ghost predicate Preserves(P: Server -> bool, rule: Rule) {
    forall t: Server, step: Step :: P(t) && rule(t, step) ==> P(Take(t, step))
  }

  /** A property every permitted step keeps holds at the end of every permitted run. */
  lemma {:induction false} HoldsThroughout(s: Server, steps: seq<Step>, P: Server -> bool, rule: Rule)
    requires P(s) && Obeys(s, steps, rule) && Preserves(P, rule)
    ensures P(After(s, steps))
    decreases |steps|
  {
    if steps != [] {
      HoldsThroughout(Take(s, steps[0]), steps[1..], P, rule);
    }
  }

  // ---------------------------------------------------------------- the shape of the store

  lemma EditedIsKnown(s: Server, k: Key, obj: Obj)
    requires k in s.objs && Known(k, s.objs[k], s.minted)
    requires obj.labels == s.objs[k].labels && obj.owner == s.objs[k].owner
    requires s.objs[k].body.ReplicaSetBody? ==>
               obj.body.ReplicaSetBody? && obj.body.matchLabels == s.objs[k].body.matchLabels
               && obj.body.template == s.objs[k].body.template
    requires s.objs[k].body.HpaBody? ==> obj.body.HpaBody?
    requires s.objs[k].body.ReplicaSetBody? || s.objs[k].body.HpaBody?
    ensures Known(k, obj, s.minted)
  {
    if !Foreign(obj, s.minted) {
      var u := UuidOf(obj);
      var r: Role :| IsRole(r, k, s.objs[k], u, s.minted[u].name);
      assert IsRole(r, k, obj, u, s.minted[u].name);
    }
  }

  lemma ForeignIsKnown(k: Key, obj: Obj, s: Server)
    requires Foreign(obj, s.minted)
    ensures Known(k, obj.(rv := s.clock), s.minted)
  {
  }

  lemma EditObjectKeepsInv(s: Server, k: Key, obj: Obj)
    requires Inv(s) && Known(k, obj.(rv := s.clock), s.minted)
    ensures Inv(EditObject(s, k, obj))
  {
    hide Known, PrestoFits;
    var s', it := EditObject(s, k, obj), Item(k, obj.(rv := s.clock));
    forall old' | old' in s.held
      ensures ItemFits(old', s')
    {
      assert ItemFits(old', s);
    }
    assert ItemFits(it, s');
    VersionsUntouched(s, s');
  }

  /** The past of the resources fits as long as they stay as they are. */
  lemma VersionsUntouched(s: Server, s': Server)
    requires Remembers(s) && s'.versions == s.versions && s'.minted == s.minted && s'.clock >= s.clock
    requires forall pk :: pk in s'.prestos ==> pk in s.prestos && s'.prestos[pk] == s.prestos[pk]
    ensures forall pk :: pk in s'.prestos ==> Version(pk, s'.prestos[pk]) in s'.versions
    ensures forall w :: w in s'.versions ==> PrestoFits(w.presto, w.pk, s')
  {
    forall w | w in s'.versions
      ensures PrestoFits(w.presto, w.pk, s')
    {
      assert PrestoFits(w.presto, w.pk, s);
    }
  }

  lemma ItemsUntouched(s: Server, s': Server)
    requires Remembers(s) && s'.held == s.held && s'.minted == s.minted && s'.clock >= s.clock
    requires forall k :: k in s'.objs ==> k in s.objs && s'.objs[k] == s.objs[k]
    ensures forall k :: k in s'.objs ==> Item(k, s'.objs[k]) in s'.held
    ensures forall it :: it in s'.held ==> ItemFits(it, s')
  {
    hide Known;
    forall it | it in s'.held
      ensures ItemFits(it, s')
    {
      assert ItemFits(it, s);
    }
  }

  lemma OutsideEditKeepsInv(s: Server, step: Step)
    requires Inv(s) && (step.OutsideScale? || step.OutsideTune?)
    ensures Inv(Take(s, step))
  {
    hide Known, Remembers, Reconcile;
    if Take(s, step) != s {
      var obj := Take(s, step).objs[step.key];
      EditedIsKnown(s, step.key, obj);
      EditObjectKeepsInv(s, step.key, obj);
    }
  }

  lemma EditPrestoKeepsInv(s: Server, pk: PKey, p: Presto)
    requires Inv(s) && GoodUuid(p.status.uuid, pk, s.minted)
    ensures Inv(EditPresto(s, pk, p))
  {
    hide Known;
    var s' := EditPresto(s, pk, p);
    ItemsUntouched(s, s');
    forall w | w in s.versions
      ensures PrestoFits(w.presto, w.pk, s')
    {
      assert PrestoFits(w.presto, w.pk, s);
    }
    assert PrestoFits(s'.prestos[pk], pk, s');
  }

  lemma PrestoStepKeepsInv(s: Server, step: Step)
    requires Inv(s) && (step.CreatePresto? || step.EditSpec? || step.EditLabels?)
    ensures Inv(Take(s, step))
  {
    hide Known, Remembers, EditPresto, Reconcile;
    if step.CreatePresto? && step.pk !in s.prestos {
      EditPrestoKeepsInv(s, step.pk, Presto(step.uid, step.labels, step.spec, NO_STATUS, 0, 1));
    } else if step.EditSpec? && step.pk in s.prestos {
      var p := s.prestos[step.pk];
      EditPrestoKeepsInv(s, step.pk, p.(spec := step.spec, generation := p.generation + 1));
    } else if step.EditLabels? && step.pk in s.prestos {
      EditPrestoKeepsInv(s, step.pk, s.prestos[step.pk].(labels := step.labels));
    }
  }

  lemma DeletionKeepsInv(s: Server, step: Step)
    requires Inv(s) && (step.DeletePresto? || step.OutsideDelete? || step.SetPod?)
    ensures Inv(Take(s, step))
  {
    hide Known, ItemFits, PrestoFits, Reconcile;
    ItemsUntouched(s, Take(s, step));
    VersionsUntouched(s, Take(s, step));
  }

  lemma StepKeepsInv(s: Server, step: Step)
    requires Inv(s) && Allowed(s, step)
    ensures Inv(Take(s, step))
  {
    hide Inv, Honest, Known, Reconcile;
    match step {
      case Call(pk, o) => ReconcileKeepsInv(s, pk, o);
      case OutsideScale(_, _, _) => OutsideEditKeepsInv(s, step);
      case OutsideTune(_, _) => OutsideEditKeepsInv(s, step);
      case OutsideCreate(k, obj) =>
        ForeignIsKnown(k, obj, s);
        if k !in s.objs {
          EditObjectKeepsInv(s, k, obj);
        }
      case OutsideDelete(_) => DeletionKeepsInv(s, step);
      case SetPod(_, _) => DeletionKeepsInv(s, step);
      case DeletePresto(_) => DeletionKeepsInv(s, step);
      case _ => PrestoStepKeepsInv(s, step);
    }
  }

  /** In every run each stored object is foreign or exactly what some stage made for its UUID. */
  lemma ReachableInv(steps: seq<Step>)
    requires Obeys(INIT, steps, (t, step) => Allowed(t, step))
    ensures Inv(After(INIT, steps))
  {
    hide Allowed, Take;
    var rule: Rule := (t, step) => Allowed(t, step);
    var P := (t: Server) => Inv(t);
    forall t: Server, step: Step | P(t) && rule(t, step)
      ensures P(Take(t, step))
    {
      StepKeepsInv(t, step);
    }
    HoldsThroughout(INIT, steps, P, rule);
  }
}
