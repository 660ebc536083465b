/** How the objects a cluster holds come and go, step by step. */
module Holders {
  import opened PrestoTypes
  import opened Naming
  import opened Api
  import opened Pipeline
  import opened NormalForm
  import opened Invariants
  import opened Effects
  import opened Calls
  import opened Reads
  import opened Runs

  /** An object has one role, for one cluster. */
  lemma RoleIsUnique(r: Role, r': Role, k: Key, obj: Obj, u: string, u': string, n: string, n': string)
    requires IsRole(r, k, obj, u, n) && IsRole(r', k, obj, u', n')
    ensures r == r' && u == u' && n == n'
  {
    assert obj.labels[UUID_KEY] == u && obj.labels[UUID_KEY] == u';
    assert obj.labels[NAME_KEY] == n && obj.labels[NAME_KEY] == n';
    ConfigNamesDiffer(u);
    assert EXTERNAL_KEY in ClusterLabels(u, n) && EXTERNAL_KEY !in DiscoveryLabels(u, n);
    assert COORDINATOR_KEY in CoordinatorLabels(u, n) && COORDINATOR_KEY !in WorkerLabels(u, n);
  }

  /** Who holds what in s', given the one change c made for cluster u. */
  ghost predicate HeldAfter(r: Role, k: Key, v: string, c: Change, s: Server, u: string) {
    match c
    case Made(r0, k0, _) => Holds(r, k, s, v) || (r == r0 && k == k0 && v == u)
    case Removed(k0) => Holds(r, k, s, v) && k != k0
    case _ => Holds(r, k, s, v)
  }

  ghost predicate Moves(c: Change, u: string, s: Server, s': Server) {
    forall r: Role, k: Key, v: string :: Holds(r, k, s', v) <==> HeldAfter(r, k, v, c, s, u)
  }

  lemma MadeMoves(s: Server, s': Server, r0: Role, k0: Key, obj: Obj, u: string, pk: PKey)
    requires u in s.minted && s.minted[u] == pk && s'.minted == s.minted
    requires k0 !in s.objs && k0.ns == pk.ns && s'.objs == s.objs[k0 := obj] && IsRole(r0, k0, obj, u, pk.name)
    ensures Moves(Made(r0, k0, obj), u, s, s')
  {
    forall r: Role, k: Key, v: string
      ensures Holds(r, k, s', v) <==> HeldAfter(r, k, v, Made(r0, k0, obj), s, u)
    {
      if k == k0 && Holds(r, k, s', v) {
        RoleIsUnique(r, r0, k, obj, v, u, s.minted[v].name, pk.name);
      }
    }
  }

  /** Replacing an object by one of the same role moves nothing. */
  lemma ReplacedMoves(s: Server, s': Server, r0: Role, k0: Key, obj: Obj, u: string, pk: PKey, c: Change)
    requires u in s.minted && s.minted[u] == pk && s'.minted == s.minted && (c.Rescaled? || c.Retuned?)
    requires k0 in s.objs && k0.ns == pk.ns && s'.objs == s.objs[k0 := obj]
    requires IsRole(r0, k0, s.objs[k0], u, pk.name) && IsRole(r0, k0, obj, u, pk.name)
    ensures Moves(c, u, s, s')
  {
    forall r: Role, k: Key, v: string
      ensures Holds(r, k, s', v) <==> HeldAfter(r, k, v, c, s, u)
    {
      if k == k0 && Holds(r, k, s', v) {
        RoleIsUnique(r, r0, k, obj, v, u, s.minted[v].name, pk.name);
      }
      if k == k0 && Holds(r, k, s, v) {
        RoleIsUnique(r, r0, k, s.objs[k0], v, u, s.minted[v].name, pk.name);
      }
    }
  }

  lemma RoleIsLabelled(r: Role, k: Key, obj: Obj, u: string, n: string)
    ensures IsRole(r, k, obj, u, n) ==> UuidOf(obj) == u && UUID_KEY in obj.labels && obj.labels[UUID_KEY] == u
  {
  }

  lemma ForeignHasNoRole(r: Role, k: Key, obj: Obj, u: string, n: string, minted: map<string, PKey>)
    requires Foreign(obj, minted) && u in minted
    ensures !IsRole(r, k, obj, u, n)
  {
    RoleIsLabelled(r, k, obj, u, n);
    assert UUID_KEY in UUID_KEYS;
  }

  lemma NotAnothersYet(r: Role, k: Key, obj: Obj, u: string, n: string)
    requires Unlabelled(obj, u)
    ensures !IsRole(r, k, obj, u, n)
  {
    RoleIsLabelled(r, k, obj, u, n);
    assert UUID_KEY in UUID_KEYS;
  }

  /** Nothing held yet by a UUID that was only just drawn. */
  lemma MintingMoves(s: Server, s': Server, u: string, pk: PKey)
    requires Inv(s) && Unused(u, s) && s'.objs == s.objs && s'.minted == s.minted[u := pk]
    ensures Moves(Nothing, u, s, s')
  {
    forall r: Role, k: Key, v: string
      ensures Holds(r, k, s', v) <==> Holds(r, k, s, v)
    {
      if k in s.objs {
        assert Item(k, s.objs[k]) in s.held;
        NotAnothersYet(r, k, s.objs[k], u, pk.name);
      }
    }
  }

  lemma ChangeMoves(c: Change, s: Server, s': Server, pk: PKey, p: Presto, o: Oracle)
    requires Sliceable(p.status.uuid) && p.status.uuid in s.minted && s.minted[p.status.uuid] == pk
    requires Explains(c, s, s', pk, p, o) && s'.minted == s.minted
    ensures Moves(c, p.status.uuid, s, s')
  {
    match c {
      case Nothing =>
      case Made(r, k, obj) => MadeMoves(s, s', r, k, obj, p.status.uuid, pk);
      case Rescaled(k, obj) => ReplacedMoves(s, s', WorkerSet, k, obj, p.status.uuid, pk, c);
      case Retuned(k, obj) => ReplacedMoves(s, s', Autoscaler, k, obj, p.status.uuid, pk, c);
      case Removed(k) =>
    }
  }

  /** The change a call makes, with the UUID it makes it for. */
  ghost predicate Accounts(c: Change, u: string, s: Server, pk: PKey, o: Oracle) {
    var s' := Reconcile(s, pk, o).s;
    && Moves(c, u, s, s')
    && (c == Nothing ==> s'.objs == s.objs && s'.held == s.held)
    && (c != Nothing ==>
          && o.get.Found? && o.get.presto.status.uuid == u && Sliceable(u)
          && u in s.minted && s.minted[u] == pk
          && Explains(c, s, s', pk, o.get.presto, o))
  }

  lemma CallMoves(s: Server, pk: PKey, o: Oracle) returns (c: Change, u: string)
    requires Inv(s) && Honest(s, pk, o)
    ensures Accounts(c, u, s, pk, o)
  {
    c, u := Nothing, "";
    if o.get.Found? {
      var p := o.get.presto;
      var s' := Reconcile(s, pk, o).s;
      if p.status.uuid != "" {
        u := p.status.uuid;
        c := PipelineEffect(s, pk, p, o);
        ChangeMoves(c, s, s', pk, p, o);
      } else {
        UuidGate(s, pk, o);
        if s' != s {
          u := o.freshUuid;
          MintingMoves(s, s', u, pk);
        }
      }
    }
  }

  /** Nothing of the past is lost; what is new in it is in the store; a new UUID is on nothing of the past. */
  ghost predicate NewsIsCurrent(s: Server, s': Server) {
    && s.held <= s'.held && s.versions <= s'.versions
    && (forall it :: it in s'.held ==> it in s.held || (it.key in s'.objs && s'.objs[it.key] == it.obj))
    && (forall u :: u in s.minted ==> u in s'.minted && s'.minted[u] == s.minted[u])
    && (forall u :: u in s'.minted && u !in s.minted ==> Unused(u, s) && s'.held == s.held)
  }

  lemma CallNews(s: Server, pk: PKey, o: Oracle)
    requires Inv(s) && Honest(s, pk, o)
    ensures NewsIsCurrent(s, Reconcile(s, pk, o).s)
  {
    hide Inv, IsRole, Passes, FirstOpen, Justified, BuiltFor, UpdateStatus, RunFrom;
    if o.get.Found? {
      if o.get.presto.status.uuid != "" {
        var c := PipelineEffect(s, pk, o.get.presto, o);
      } else {
        UuidGate(s, pk, o);
      }
    }
  }

  lemma OutsideNews(s: Server, step: Step)
    requires !step.Call?
    ensures NewsIsCurrent(s, Take(s, step))
  {
    hide Reconcile;
  }

  lemma OutsideMoves(s: Server, step: Step)
    requires Inv(s) && Allowed(s, step) && !step.Call?
    ensures
      var c := if step.OutsideDelete? then Removed(step.key) else Nothing;
      Moves(c, "", s, Take(s, step))
  {
    hide Inv, Take, Holds, Allowed;
    var s' := Take(s, step);
    forall r: Role, k: Key, v: string
      ensures Holds(r, k, s', v) <==> Holds(r, k, s, v) && !(step.OutsideDelete? && k == step.key)
    {
      OutsideMovesAt(s, step, r, k, v);
    }
  }

  lemma OutsideMovesAt(s: Server, step: Step, r: Role, k: Key, v: string)
    requires Allowed(s, step) && !step.Call?
    ensures Holds(r, k, Take(s, step), v) <==> Holds(r, k, s, v) && !(step.OutsideDelete? && k == step.key)
  {
    hide IsRole, Take, SameShape;
    TakeAt(s, step, k);
    var s' := Take(s, step);
    if v in s.minted && k in s'.objs {
      if k in s.objs {
        ShapeKeepsRole(r, k, s.objs[k], s'.objs[k], v, s.minted[v].name);
      } else {
        ForeignHasNoRole(r, k, s'.objs[k], v, s.minted[v].name, s.minted);
      }
    }
  }

  /** Equal but for replicas, or for autoscaler numbers. */
  predicate SameShape(obj: Obj, obj': Obj) {
    obj'.labels == obj.labels && obj'.owner == obj.owner &&
    (|| obj'.body == obj.body
     || (obj.body.HpaBody? && obj'.body.HpaBody?)
     || (&& obj.body.ReplicaSetBody? && obj'.body.ReplicaSetBody?
         && obj'.body.matchLabels == obj.body.matchLabels && obj'.body.template == obj.body.template))
  }

  /** What a step of the environment can do to one key. */
  lemma TakeAt(s: Server, step: Step, k: Key)
    requires !step.Call?
    ensures
      var s' := Take(s, step);
      && s'.minted == s.minted
      && (step.OutsideDelete? && k == step.key ==> k !in s'.objs)
      && (k in s.objs && !(step.OutsideDelete? && k == step.key) ==> k in s'.objs && SameShape(s.objs[k], s'.objs[k]))
      && (k in s'.objs && k !in s.objs ==> step.OutsideCreate? && s'.objs[k] == step.obj.(rv := s.clock))
  {
    hide Reconcile;
  }

  lemma ShapeKeepsRole(r: Role, k: Key, obj: Obj, obj': Obj, u: string, n: string)
    requires SameShape(obj, obj')
    ensures IsRole(r, k, obj, u, n) <==> IsRole(r, k, obj', u, n)
  {
  }
}
