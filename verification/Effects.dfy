/** What one Reconcile call does to the server, whatever the API answers. */
module Effects {
  import opened PrestoTypes
  import opened Naming
  import opened Api
  import opened Pipeline
  import opened NormalForm
  import opened Invariants

  // ---------------------------------------------------------------- status updates

  predicate Mergeable(a: Action) {
    a.service.Some? ==> a.service.value.ports != []
  }

  /** The server after action a has been merged into the current status of pk. */
  function Landed(t: Server, pk: PKey, a: Action): Server
    requires pk in t.prestos && Mergeable(a)
  {
    var presto := t.prestos[pk].(status := Merge(t.prestos[pk].status, a), rv := t.clock);
    t.(prestos := t.prestos[pk := presto],
       versions := t.versions + {Version(pk, presto)},
       clock := t.clock + 1,
       log := t.log + [StatusWritten(pk, a)],
       minted := if a.clusterUuid.Some? then t.minted[a.clusterUuid.value := pk] else t.minted)
  }

  /** Either the update had no effect, or it was merged into what the server held then. */
  predicate Lands(t: Server, t': Server, pk: PKey, a: Action) {
    t' == t || (pk in t.prestos && Mergeable(a) && t' == Landed(t, pk, a))
  }

  /** t is s, except that pk may have got a newer version since. */
  ghost predicate SinceThen(s: Server, t: Server, pk: PKey) {
    && t.clock >= s.clock
    && (pk in t.prestos ==> t.prestos[pk].rv >= s.clock || (pk in s.prestos && t.prestos[pk] == s.prestos[pk]))
  }

  lemma {:induction false} FoundByName(items: seq<NamedPresto>, name: string)
    ensures FindByName(items, name).Some? ==>
              exists i :: 0 <= i < |items| && items[i].name == name && items[i].presto == FindByName(items, name).value
  {
    if items != [] && items[0].name != name {
      FoundByName(items[1..], name);
      if FindByName(items, name).Some? {
        var i :| 0 <= i < |items[1..]| && items[1..][i].name == name
              && items[1..][i].presto == FindByName(items[1..], name).value;
        assert items[i + 1] == items[1..][i];
      }
    }
  }

  /** The copy is what the server holds, or of another version. */
  predicate CurrentIfLatest(p: Presto, t: Server, pk: PKey) {
    pk in t.prestos && t.prestos[pk].rv == p.rv ==> t.prestos[pk] == p
  }

  /** updateStatus falls back on the copy in hand. */
  predicate Unlisted(t: Server, pk: PKey, p: Presto, io: StatusIo) {
    GetPresto(t, pk, p, io.read(p.labels)) == Ok(None)
  }

  /** The copy updateStatus writes back is the current version, or its write is refused. */
  lemma CopyIsCurrent(s: Server, t: Server, pk: PKey, p: Presto, io: StatusIo)
    requires IoFits(io, pk, s) && SinceThen(s, t, pk) && (Unlisted(t, pk, p, io) ==> CurrentIfLatest(p, t, pk))
    ensures
      var g := GetPresto(t, pk, p, io.read(p.labels));
      g.Ok? && pk in t.prestos && Or(g.value, p).rv == t.prestos[pk].rv ==> Or(g.value, p) == t.prestos[pk]
  {
    var read := io.read(p.labels);
    if read.Snapshot? {
      FoundByName(read.items, pk.name);
    }
  }

  /**
   Frame of updateStatus: with any honest reads, a status update that reaches the server is the
   field-by-field merge of its action into the status the server held at that moment.
   */
  lemma StatusLands(s: Server, t: Server, pk: PKey, p: Presto, io: StatusIo, a: Action)
    requires IoFits(io, pk, s) && SinceThen(s, t, pk) && (Unlisted(t, pk, p, io) ==> CurrentIfLatest(p, t, pk))
    ensures Lands(t, UpdateStatus(t, pk, p, io, a).s, pk, a)
  {
    CopyIsCurrent(s, t, pk, p, io);
  }

  // ---------------------------------------------------------------- the store

  /** The item a change adds to the history. */
  function NewItems(c: Change): set<Item> {
    match c
    case Made(_, k, obj) => {Item(k, obj)}
    case Rescaled(k, obj) => {Item(k, obj)}
    case Retuned(k, obj) => {Item(k, obj)}
    case _ => {}
  }

  /** s' differs from s by change c, which the answers read by the first open stage call for. */
  ghost predicate Explains(c: Change, s: Server, s': Server, pk: PKey, p: Presto, o: Oracle)
    requires Sliceable(p.status.uuid)
  {
    var u := p.status.uuid;
    var j := FirstOpen(0, pk, p, o);
    s'.held == s.held + NewItems(c) &&
    match c
    case Nothing => s'.objs == s.objs
    case Made(r, k, obj) =>
      && j == Index(r) && k !in s.objs && s'.objs == s.objs[k := obj] && s.clock <= obj.rv < s'.clock
      && Justified(r, CreateOp(k, obj), s, pk, p, o)
    case Rescaled(k, obj) =>
      && j == Index(WorkerSet) && k in s.objs && k.ns == pk.ns
      && s'.objs == s.objs[k := obj] && s.clock <= obj.rv < s'.clock
      && !AutoscalingOn(p.spec) && IsRole(WorkerSet, k, s.objs[k], u, pk.name)
      && p.spec.worker.count.Some? && p.spec.worker.count.value != s.objs[k].body.replicas
      && obj == WithReplicas(s.objs[k], p.spec.worker.count.value).(rv := obj.rv)
    case Retuned(k, obj) =>
      && j == Index(Autoscaler) && k in s.objs && k.ns == pk.ns
      && s'.objs == s.objs[k := obj] && s.clock <= obj.rv < s'.clock
      && AutoscalingOn(p.spec) && IsRole(Autoscaler, k, s.objs[k], u, pk.name)
      && IsRole(Autoscaler, k, obj, u, pk.name) && BuiltFor(Autoscaler, obj, pk, p, o)
    case Removed(k) =>
      && j == Index(Autoscaler) && k in s.objs && s'.objs == s.objs - {k}
      && !AutoscalingOn(p.spec) && k == HpaKey(pk, u)
  }

  /** A version of pk that has come up since s, and is the current one or out of date. */
  ghost predicate NewVersion(w: Version, s: Server, s': Server, pk: PKey) {
    && w.pk == pk && pk in s.prestos && pk in s'.prestos
    && s.clock <= w.presto.rv < s'.clock && w.presto.status.uuid == s.prestos[pk].status.uuid
    && (w.presto.rv == s'.prestos[pk].rv ==> w.presto == s'.prestos[pk])
  }

  ghost predicate VersionsKept(s: Server, s': Server, pk: PKey) {
    && s.versions <= s'.versions
    && (forall w :: w in s'.versions ==> w in s.versions || NewVersion(w, s, s', pk))
    && (pk in s.prestos && pk in s'.prestos && s'.prestos[pk] != s.prestos[pk] ==>
          Version(pk, s'.prestos[pk]) in s'.versions)
  }

  /** Nothing but the status of pk has changed among the Presto resources, and its UUID has not. */
  ghost predicate PrestosKept(s: Server, s': Server, pk: PKey) {
    && s'.minted == s.minted && s'.pods == s.pods && s'.clock >= s.clock
    && s'.prestos.Keys == s.prestos.Keys && VersionsKept(s, s', pk)
    && (forall q :: q in s.prestos && q != pk ==> s'.prestos[q] == s.prestos[q])
    && (pk in s.prestos ==>
          var old', new' := s.prestos[pk], s'.prestos[pk];
          && new' == old'.(status := new'.status, rv := new'.rv)
          && new'.status.uuid == old'.status.uuid
          && (new' == old' || s.clock <= new'.rv < s'.clock))
  }

  /** The status of pk was replaced by st, which names the same UUID, and nothing else happened. */
  predicate Rewrites(t: Server, t': Server, pk: PKey, st: Status) {
    pk in t.prestos && st.uuid == t.prestos[pk].status.uuid &&
    var presto := t.prestos[pk].(status := st, rv := t.clock);
    && t'.prestos == t.prestos[pk := presto] && t'.versions == t.versions + {Version(pk, presto)}
    && t'.clock == t.clock + 1 && t'.minted == t.minted && t'.pods == t.pods
  }

  lemma RewriteKeepsVersions(s: Server, t: Server, t': Server, pk: PKey, st: Status)
    requires PrestosKept(s, t, pk) && Rewrites(t, t', pk, st)
    ensures VersionsKept(s, t', pk)
  {
  }

  lemma RewriteKeeps(s: Server, t: Server, t': Server, pk: PKey, st: Status)
    requires PrestosKept(s, t, pk) && Rewrites(t, t', pk, st)
    ensures PrestosKept(s, t', pk)
  {
    hide VersionsKept;
    RewriteKeepsVersions(s, t, t', pk, st);
  }

  lemma LandingKeeps(s: Server, t: Server, t': Server, pk: PKey, a: Action)
    requires PrestosKept(s, t, pk) && Lands(t, t', pk, a) && a.clusterUuid.None?
    ensures PrestosKept(s, t', pk) && t'.objs == t.objs
  {
    hide PrestosKept;
    if t' != t {
      RewriteKeeps(s, t, t', pk, Merge(t.prestos[pk].status, a));
    }
  }

  /** The copy in hand during a call: its status may have been edited, its version only by a write that landed. */
  ghost predicate HeldFits(s: Server, pk: PKey, p: Presto, h: Presto) {
    Alike(p, h) && (h.rv != p.rv ==> pk in s.prestos && s.prestos[pk] == p)
  }

  lemma HeldAtFits(j: nat, s: Server, pk: PKey, p: Presto, o: Oracle)
    requires PrestoFits(p, pk, s)
    ensures HeldFits(s, pk, p, HeldAt(j, s, pk, p, o))
  {
  }

  /** Whatever copy is written back, a status update changes nothing but the status, and no UUID. */
  lemma StatusKeeps(s: Server, t: Server, pk: PKey, p: Presto, h: Presto, io: StatusIo, a: Note)
    requires PrestoFits(p, pk, s) && HeldFits(s, pk, p, h) && IoFits(io, pk, s) && PrestosKept(s, t, pk)
    ensures PrestosKept(s, UpdateStatus(t, pk, h, io, a).s, pk) && UpdateStatus(t, pk, h, io, a).s.objs == t.objs
  {
    hide Merge, VersionsKept;
    var t' := UpdateStatus(t, pk, h, io, a).s;
    if Unlisted(t, pk, h, io) {
      OwnCopyKeeps(s, t, pk, p, h, io, a);
    } else {
      StatusLands(s, t, pk, h, io, a);
      LandingKeeps(s, t, t', pk, a);
    }
  }

  /** The copy in hand is written back with the status it was edited to, and the UUID it came with. */
  lemma OwnCopyKeeps(s: Server, t: Server, pk: PKey, p: Presto, h: Presto, io: StatusIo, a: Note)
    requires PrestoFits(p, pk, s) && HeldFits(s, pk, p, h) && PrestosKept(s, t, pk) && Unlisted(t, pk, h, io)
    ensures PrestosKept(s, UpdateStatus(t, pk, h, io, a).s, pk)
  {
    hide VersionsKept;
    var t' := UpdateStatus(t, pk, h, io, a).s;
    if t' != t {
      RewriteKeeps(s, t, t', pk, t'.prestos[pk].status);
    }
  }

  function RoleChange(role: Role, op: Op, at: Server): Change {
    match op
    case CreateOp(k, obj) => Made(role, k, obj.(rv := at.clock))
    case UpdateOp(k, obj) =>
      if role.WorkerSet? then Rescaled(k, obj.(rv := at.clock)) else Retuned(k, obj.(rv := at.clock))
    case DeleteOp(k) => Removed(k)
  }

  lemma DoKeepsPrestos(op: Op, s: Server, at: Server, m: WriteMode, pk: PKey)
    requires PrestosKept(s, at, pk)
    ensures PrestosKept(s, Do(op, at, m).s, pk)
  {
    hide Do;
  }

  lemma LaterClock(s: Server, at: Server, pk: PKey)
    requires PrestosKept(s, at, pk)
    ensures at.clock >= s.clock
  {
  }

  lemma DoExplained(role: Role, op: Op, s: Server, at: Server, m: WriteMode, pk: PKey, p: Presto, o: Oracle)
    returns (c: Change)
    requires Sliceable(p.status.uuid) && Justified(role, op, s, pk, p, o)
    requires FirstOpen(0, pk, p, o) == Index(role)
    requires PrestosKept(s, at, pk) && at.objs == s.objs && at.held == s.held
    ensures Explains(c, s, Do(op, at, m).s, pk, p, o)
    ensures PrestosKept(s, Do(op, at, m).s, pk)
  {
    hide FirstOpen, Passes, PrestosKept, NothingFound;
    DoKeepsPrestos(op, s, at, m, pk);
    LaterClock(s, at, pk);
    c := if Do(op, at, m).s == at then Nothing else RoleChange(role, op, at);
  }

  lemma ExplainsLater(c: Change, s: Server, t: Server, t': Server, pk: PKey, p: Presto, o: Oracle)
    requires Sliceable(p.status.uuid) && Explains(c, s, t, pk, p, o)
    requires t'.objs == t.objs && t'.held == t.held && t'.clock >= t.clock
    ensures Explains(c, s, t', pk, p, o)
  {
  }

  lemma ReachesStage(j: nat, s: Server, pk: PKey, p: Presto, o: Oracle)
    requires Inv(s) && Honest(s, pk, o) && o.get == Found(p)
    ensures PrestosKept(s, StateAt(j, s, pk, p, o), pk) && StateAt(j, s, pk, p, o).objs == s.objs
  {
    ReadsFit(s, pk, o, At(External));
    var l := Answer(External, pk, p, o);
    if SomethingListed(l) {
      StatusKeeps(s, s, pk, p, p, o.status(At(External)), ServiceAction(FirstService(l.items)));
    }
  }

  lemma EndEffect(s: Server, at: Server, pk: PKey, p: Presto, h: Presto, o: Oracle)
    requires PrestoFits(p, pk, s) && IoFits(o.status(AtEnd), pk, s) && PrestosKept(s, at, pk)
    requires HeldFits(s, pk, p, h)
    ensures
      var t := Finish(at, pk, h, o, CtxAt(|PIPELINE|, pk, p, o)).s;
      PrestosKept(s, t, pk) && t.objs == at.objs
  {
    var ctx := CtxAt(|PIPELINE|, pk, p, o);
    var a := FinalAction(CoordinatorPhase(o.pods(pk.ns, CoordinatorPods(h, ctx))), o, ctx);
    StatusKeeps(s, at, pk, p, h, o.status(AtEnd), a);
  }

  /** One Reconcile past the UUID gate changes at most one object, and of the Presto only its status. */
  lemma PipelineEffect(s: Server, pk: PKey, p: Presto, o: Oracle) returns (c: Change)
    requires Applies(s, pk, p, o)
    ensures Sliceable(p.status.uuid) && p.status.uuid in s.minted && s.minted[p.status.uuid] == pk
    ensures Explains(c, s, Reconcile(s, pk, o).s, pk, p, o)
    ensures PrestosKept(s, Reconcile(s, pk, o).s, pk)
  {
    var j := FirstOpen(0, pk, p, o);
    PipelineIsFirstOpen(s, pk, p, o);
    ReachesStage(j, s, pk, p, o);
    ReadsFit(s, pk, o, AtEnd);
    HeldAtFits(j, s, pk, p, o);
    var at, h := StateAt(j, s, pk, p, o), HeldAt(j, s, pk, p, o);
    if j == |PIPELINE| {
      c := Nothing;
      EndEffect(s, at, pk, p, h, o);
    } else {
      var role := PIPELINE[j];
      IndexOfStage(j);
      c := OpenStageEffect(role, s, at, pk, p, h, o);
    }
  }

  lemma OpenStageEffect(role: Role, s: Server, at: Server, pk: PKey, p: Presto, h: Presto, o: Oracle)
    returns (c: Change)
    requires Applies(s, pk, p, o) && Sliceable(p.status.uuid) && HeldFits(s, pk, p, h)
    requires FirstOpen(0, pk, p, o) == Index(role)
    requires PrestosKept(s, at, pk) && at.objs == s.objs && at.held == s.held
    ensures Explains(c, s, OpenStage(role, at, pk, p, h, o).s, pk, p, o)
    ensures PrestosKept(s, OpenStage(role, at, pk, p, h, o).s, pk)
  {
    hide Justified, Perform, Decide, FirstOpen, Passes, Inv, UpdateStatus;
    var d := Decide(role, pk, p, o, CtxAt(Index(role), pk, p, o));
    var m := o.write(At(role));
    var r := Perform(role, d, at, m);
    if d.Write? {
      DecisionJustified(role, s, pk, p, o);
      c := DoExplained(role, d.op, s, at, m, pk, p, o);
      assert r.s == Do(d.op, at, m).s;
    } else {
      c := Nothing;
      assert r.s == at;
    }
    ReadsFit(s, pk, o, At(role));
    if r.note.Some? {
      StatusKeeps(s, r.s, pk, p, h, o.status(At(role)), r.note.value);
      ExplainsLater(c, s, r.s, UpdateStatus(r.s, pk, h, o.status(At(role)), r.note.value).s, pk, p, o);
    }
  }
}
