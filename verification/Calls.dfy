/** Theorems about a single Reconcile call. */
module Calls {
  import opened PrestoTypes
  import opened Naming
  import opened Api
  import opened Pipeline
  import opened NormalForm
  import opened Invariants
  import opened Effects

  // ---------------------------------------------------------------- the invariant

  lemma KnownLater(k: Key, obj: Obj, minted: map<string, PKey>, u: string, pk: PKey)
    requires Known(k, obj, minted) && u !in minted && Unlabelled(obj, u)
    ensures Known(k, obj, minted[u := pk])
  {
  }

  /** A new UUID, which nothing of the past bears, leaves the objects and their past fitting. */
  lemma MintedItemsFit(s: Server, s': Server, pk: PKey, u: string)
    requires Inv(s) && Unused(u, s)
    requires s'.objs == s.objs && s'.held == s.held && s'.clock >= s.clock && s'.minted == s.minted[u := pk]
    ensures forall k :: k in s'.objs ==> Known(k, s'.objs[k], s'.minted) && Item(k, s'.objs[k]) in s'.held
    ensures forall it :: it in s'.held ==> ItemFits(it, s')
  {
    hide Known, PrestoFits;
    forall it | it in s.held
      ensures ItemFits(it, s') && Known(it.key, it.obj, s'.minted)
    {
      assert ItemFits(it, s);
      KnownLater(it.key, it.obj, s.minted, u, pk);
    }
    forall k | k in s'.objs
      ensures Known(k, s'.objs[k], s'.minted) && Item(k, s'.objs[k]) in s'.held
    {
      assert Item(k, s.objs[k]) in s.held;
    }
  }

  lemma MintedVersionsFit(s: Server, s': Server, pk: PKey, u: string)
    requires Inv(s) && u !in s.minted && pk in s.prestos && s' == Landed(s, pk, Action(clusterUuid := Some(u)))
    ensures forall q :: q in s'.prestos ==> Version(q, s'.prestos[q]) in s'.versions
    ensures forall w :: w in s'.versions ==> PrestoFits(w.presto, w.pk, s')
  {
    hide Known, ItemFits, InShape, Merge;
    MintedUuid(s.prestos[pk].status, u);
    forall w | w in s'.versions
      ensures PrestoFits(w.presto, w.pk, s')
    {
      if w in s.versions {
        assert PrestoFits(w.presto, w.pk, s);
      } else {
        assert w == Version(pk, s'.prestos[pk]);
      }
    }
  }

  lemma MintedUuid(st: Status, u: string)
    ensures Merge(st, Action(clusterUuid := Some(u))).uuid == u
  {
  }

  /** A first UUID keeps the shape of the store and of its past. */
  lemma UuidCallKeepsInv(s: Server, s': Server, pk: PKey, u: string)
    requires Inv(s) && Unused(u, s)
    requires Lands(s, s', pk, Action(clusterUuid := Some(u)))
    ensures Inv(s')
  {
    hide Known, ItemFits, PrestoFits;
    if s' != s {
      MintedItemsFit(s, s', pk, u);
      MintedVersionsFit(s, s', pk, u);
    }
  }

  lemma MadeIsKnown(s: Server, k: Key, obj: Obj, r: Role, u: string, pk: PKey)
    requires u in s.minted && s.minted[u] == pk && k.ns == pk.ns && IsRole(r, k, obj, u, pk.name)
    ensures Known(k, obj, s.minted)
  {
    assert UuidOf(obj) == u;
  }

  lemma ChangeKeepsInv(c: Change, s: Server, s': Server, pk: PKey, p: Presto, o: Oracle)
    requires Inv(s) && Sliceable(p.status.uuid) && p.status.uuid in s.minted && s.minted[p.status.uuid] == pk
    requires Explains(c, s, s', pk, p, o) && PrestosKept(s, s', pk)
    ensures Inv(s')
  {
    hide Explains, Known, GoodUuid, PrestoFits, ItemFits, VersionsKept;
    ChangeKeepsStore(c, s, s', pk, p, o);
    VersionsStillFit(s, s', pk);
    forall q | q in s'.prestos
      ensures s'.prestos[q].rv < s'.clock && GoodUuid(s'.prestos[q].status.uuid, q, s'.minted)
    {
      assert q in s.prestos;
    }
  }

  lemma VersionsStillFit(s: Server, s': Server, pk: PKey)
    requires Inv(s) && PrestosKept(s, s', pk)
    ensures forall q :: q in s'.prestos ==> Version(q, s'.prestos[q]) in s'.versions
    ensures forall w :: w in s'.versions ==> PrestoFits(w.presto, w.pk, s')
  {
    hide Known, ItemFits;
    forall w | w in s'.versions
      ensures PrestoFits(w.presto, w.pk, s')
    {
      if w in s.versions {
        assert PrestoFits(w.presto, w.pk, s);
      } else {
        assert NewVersion(w, s, s', pk);
      }
    }
    forall q | q in s'.prestos
      ensures Version(q, s'.prestos[q]) in s'.versions
    {
      assert q in s.prestos && Version(q, s.prestos[q]) in s.versions;
    }
  }

  lemma ChangeKeepsStore(c: Change, s: Server, s': Server, pk: PKey, p: Presto, o: Oracle)
    requires Inv(s) && Sliceable(p.status.uuid) && p.status.uuid in s.minted && s.minted[p.status.uuid] == pk
    requires Explains(c, s, s', pk, p, o) && s'.minted == s.minted && s'.clock >= s.clock
    ensures forall k :: k in s'.objs ==> Known(k, s'.objs[k], s'.minted) && s'.objs[k].rv < s'.clock
    ensures forall k :: k in s'.objs ==> Item(k, s'.objs[k]) in s'.held
    ensures forall it :: it in s'.held ==> ItemFits(it, s')
  {
    hide FirstOpen, BuiltFor, NothingFound, PrestoFits, Known, Passes;
    var u := p.status.uuid;
    match c {
      case Nothing =>
      case Made(r, k, obj) => MadeIsKnown(s, k, obj, r, u, pk);
      case Rescaled(k, obj) => MadeIsKnown(s, k, obj, WorkerSet, u, pk);
      case Retuned(k, obj) => MadeIsKnown(s, k, obj, Autoscaler, u, pk);
      case Removed(k) =>
    }
  }

  /** Every Reconcile keeps the shape of the store, whatever it reads and whichever call fails. */
  lemma ReconcileKeepsInv(s: Server, pk: PKey, o: Oracle)
    requires Inv(s) && Honest(s, pk, o)
    ensures Inv(Reconcile(s, pk, o).s)
  {
    if o.get.Found? {
      var p := o.get.presto;
      if p.status.uuid == "" {
        UuidGate(s, pk, o);
        UuidCallKeepsInv(s, Reconcile(s, pk, o).s, pk, o.freshUuid);
      } else {
        var c := PipelineEffect(s, pk, p, o);
        ChangeKeepsInv(c, s, Reconcile(s, pk, o).s, pk, p, o);
      }
    }
  }

  /** A Presto without a UUID gets one, or nothing happens: no stage runs in the same call. */
  lemma UuidGate(s: Server, pk: PKey, o: Oracle)
    requires Inv(s) && Honest(s, pk, o) && o.get.Found? && o.get.presto.status.uuid == ""
    ensures Lands(s, Reconcile(s, pk, o).s, pk, Action(clusterUuid := Some(o.freshUuid)))
    ensures !Reconcile(s, pk, o).verdict.Panicked?
  {
    ReadsFit(s, pk, o, AtUuid);
    StatusLands(s, s, pk, o.get.presto, o.status(AtUuid), Action(clusterUuid := Some(o.freshUuid)));
  }

  // ---------------------------------------------------------------- the UUID is written once

  /** The copy the status update of the UUID gate would write back. */
  function UuidCopy(s: Server, pk: PKey, o: Oracle): Option<Presto>
    requires o.get.Found?
  {
    var g := GetPresto(s, pk, o.get.presto, o.status(AtUuid).read(o.get.presto.labels));
    if g.Err? then None else Some(Or(g.value, o.get.presto))
  }

  /**
   A UUID already given is overwritten exactly when Get still shows the resource without one
   while the listing inside updateStatus already shows its latest version.
   */
  lemma UuidOverwrittenIff(s: Server, pk: PKey, o: Oracle)
    requires Inv(s) && Honest(s, pk, o) && pk in s.prestos && s.prestos[pk].status.uuid != ""
    ensures
      var s' := Reconcile(s, pk, o).s;
      pk in s'.prestos &&
      (s'.prestos[pk].status.uuid != s.prestos[pk].status.uuid
       <==> && o.get.Found? && o.get.presto.status.uuid == ""
            && UuidCopy(s, pk, o).Some? && UuidCopy(s, pk, o).value.rv == s.prestos[pk].rv
            && !o.status(AtUuid).write.Reject?)
  {
    hide Inv, Honest, RunFrom, UpdateStatus, Explains;
    if o.get.Found? {
      if o.get.presto.status.uuid != "" {
        var c := PipelineEffect(s, pk, o.get.presto, o);
      } else {
        GateOverwritesIff(s, pk, o);
      }
    }
  }

  /** At the gate a new UUID is written exactly if the copy read there is current and the write not refused. */
  lemma GateOverwritesIff(s: Server, pk: PKey, o: Oracle)
    requires Inv(s) && Honest(s, pk, o) && pk in s.prestos && s.prestos[pk].status.uuid != ""
    requires o.get.Found? && o.get.presto.status.uuid == ""
    ensures
      var s' := Reconcile(s, pk, o).s;
      pk in s'.prestos &&
      (s'.prestos[pk].status.uuid != s.prestos[pk].status.uuid
       <==> && UuidCopy(s, pk, o).Some? && UuidCopy(s, pk, o).value.rv == s.prestos[pk].rv
            && !o.status(AtUuid).write.Reject?)
  {
    hide Landed, RunFrom;
    UuidGate(s, pk, o);
  }

  /** The two reads of one call show the same version of the resource. */
  predicate ReadsAgree(s: Server, pk: PKey, o: Oracle) {
    o.get.Found? ==> UuidCopy(s, pk, o).Some? ==> UuidCopy(s, pk, o).value == o.get.presto
  }

  /** When the two reads agree, a UUID once given stays, for every resource. */
  lemma UuidKept(s: Server, pk: PKey, o: Oracle, q: PKey)
    requires Inv(s) && Honest(s, pk, o) && ReadsAgree(s, pk, o)
    requires q in s.prestos && s.prestos[q].status.uuid != ""
    ensures
      var s' := Reconcile(s, pk, o).s;
      q in s'.prestos && s'.prestos[q].status.uuid == s.prestos[q].status.uuid
  {
    hide RunFrom, PrestosKept;
    if q == pk {
      UuidOverwrittenIff(s, pk, o);
    } else if o.get.Found? {
      if o.get.presto.status.uuid != "" {
        var c := PipelineEffect(s, pk, o.get.presto, o);
      } else {
        UuidGate(s, pk, o);
      }
    }
  }

  // ---------------------------------------------------------------- recorded services have a port

  /** Services the operator lists have a port, so recording their address is safe. */
  lemma NotesMergeable(role: Role, s: Server, pk: PKey, p: Presto, o: Oracle)
    requires Applies(s, pk, p, o) && Sliceable(p.status.uuid)
    requires p.status.uuid in s.minted && s.minted[p.status.uuid] == pk
    ensures
      var d := Decide(role, pk, p, o, CtxAt(Index(role), pk, p, o));
      && (d.Skip? && d.note.Some? ==> Mergeable(d.note.value))
      && (d.Write? && d.after.Ok? && d.after.value.Some? ==> Mergeable(d.after.value.value))
  {
    hide Applies, CtxAt, Decide, Mergeable;
    if role == External {
      ExternalNotesMergeable(s, pk, p, o);
    } else {
      OtherNotesMergeable(role, pk, p, o, CtxAt(Index(role), pk, p, o));
    }
  }

  lemma OtherNotesMergeable(role: Role, pk: PKey, p: Presto, o: Oracle, ctx: Ctx)
    requires Sliceable(p.status.uuid) && role != External
    ensures
      var d := Decide(role, pk, p, o, ctx);
      && (d.Skip? && d.note.Some? ==> Mergeable(d.note.value))
      && (d.Write? && d.after.Ok? && d.after.value.Some? ==> Mergeable(d.after.value.value))
  {
  }

  lemma ExternalNotesMergeable(s: Server, pk: PKey, p: Presto, o: Oracle)
    requires Applies(s, pk, p, o) && Sliceable(p.status.uuid)
    requires p.status.uuid in s.minted && s.minted[p.status.uuid] == pk
    ensures
      var d := Decide(External, pk, p, o, CtxAt(Index(External), pk, p, o));
      && (d.Skip? && d.note.Some? ==> Mergeable(d.note.value))
      && (d.Write? && d.after.Ok? && d.after.value.Some? ==> Mergeable(d.after.value.value))
  {
    hide Applies;
    RelistedHasPorts(s, pk, p, o);
    var l := Answer(External, pk, p, o);
    if l.Listed? && l.items != [] {
      FirstFoundIsOurs(External, s, pk, p, o);
    }
  }

  lemma RelistedHasPorts(s: Server, pk: PKey, p: Presto, o: Oracle)
    requires Applies(s, pk, p, o) && Sliceable(p.status.uuid)
    requires p.status.uuid in s.minted && s.minted[p.status.uuid] == pk
    ensures
      var l := o.list(Relist, Query(Service, pk.ns, CtxAt(1, pk, p, o).labels[EXTERNAL_KEY := p.status.uuid]));
      l.Listed? && l.items != [] ==> RefOf(l.items[0]).ports != []
  {
    var u := p.status.uuid;
    var q := Query(Service, pk.ns, CtxAt(1, pk, p, o).labels[EXTERNAL_KEY := u]);
    var l := o.list(Relist, q);
    assert ShapedListing(l, q, s);
    if l.Listed? && l.items != [] {
      assert q.Selects(l.items[0].key, l.items[0].obj);
      assert QueryOf(External, pk, u).Selects(l.items[0].key, l.items[0].obj);
      SelectedIsOurs(External, l.items[0], s, pk, u);
    }
  }

  // ---------------------------------------------------------------- what is written

  function MajorCount(log: seq<Effect>): nat {
    if log == [] then 0
    else MajorCount(log[..|log| - 1]) + if IsMajor(log[|log| - 1]) then 1 else 0
  }

  lemma {:induction false} CountAppended(log: seq<Effect>, more: seq<Effect>)
    requires |more| <= 1
    ensures MajorCount(log + more) == MajorCount(log) + if more != [] && IsMajor(more[0]) then 1 else 0
  {
    if more == [] {
      assert log + more == log;
    } else {
      assert (log + more)[..|log|] == log;
    }
  }

  predicate Announces(e: Effect, state: ClusterState) {
    e.StatusWritten? && e.action.clusterState == Some(state)
  }

  /** What a call appends to the log: an address, then at most one object, then a status. */
  datatype Written3 = Written3(address: seq<Effect>, resource: seq<Effect>, status: seq<Effect>)

  ghost predicate Appends(w: Written3, s: Server, s': Server) {
    && s'.log == s.log + w.address + w.resource + w.status
    && |w.address| <= 1 && |w.resource| <= 1 && |w.status| <= 1
    && (w.address != [] ==> !IsMajor(w.address[0]) && Announces(w.address[0], ClusterPending))
    && (w.resource != [] ==> !w.resource[0].StatusWritten?)
    && (w.status != [] ==> !IsMajor(w.status[0]))
  }

  lemma StageNote(role: Role, pk: PKey, p: Presto, o: Oracle, s: Server)
    requires Sliceable(p.status.uuid)
    ensures
      var r := Perform(role, Decide(role, pk, p, o, CtxAt(Index(role), pk, p, o)), s, o.write(At(role)));
      r.note.Some? ==> r.note.value.clusterState in {Some(ClusterPending), Some(ClusterFailed)}
  {
    hide CtxAt, Do, FirstItem;
  }

  lemma AddressLog(j: nat, s: Server, pk: PKey, p: Presto, o: Oracle) returns (e: seq<Effect>)
    ensures StateAt(j, s, pk, p, o).log == s.log + e && |e| <= 1
    ensures e != [] ==> !IsMajor(e[0]) && Announces(e[0], ClusterPending)
  {
    var l := Answer(External, pk, p, o);
    var a := ServiceAction(FirstService(if l.Listed? then l.items else []));
    e := if StateAt(j, s, pk, p, o).log == s.log then [] else [StatusWritten(pk, a)];
  }

  lemma AnnounceLog(r: StageOut, pk: PKey, p: Presto, io: StatusIo) returns (e: seq<Effect>)
    ensures Announce(r, pk, p, io).s.log == r.s.log + e && |e| <= 1
    ensures e != [] ==> r.note.Some? && e == [StatusWritten(pk, r.note.value)]
  {
    e := if Announce(r, pk, p, io).s.log == r.s.log then [] else [StatusWritten(pk, r.note.value)];
  }

  lemma PerformLog(role: Role, d: Decision, s: Server, m: WriteMode) returns (e: seq<Effect>)
    ensures Perform(role, d, s, m).s.log == s.log + e && |e| <= 1
    ensures e != [] ==> !e[0].StatusWritten?
  {
    e := if Perform(role, d, s, m).s == s then [] else [EffectOf(d.op)];
  }

  /** The log of a call past the UUID gate; Ready is announced only at the end of the pipeline. */
  lemma PipelineLog(s: Server, pk: PKey, p: Presto, o: Oracle) returns (w: Written3)
    requires o.get == Found(p) && Sliceable(p.status.uuid)
    ensures Appends(w, s, Reconcile(s, pk, o).s)
    ensures w.status != [] && Announces(w.status[0], ClusterReady) ==>
              && FirstOpen(0, pk, p, o) == |PIPELINE|
              && CoordinatorPhase(o.pods(pk.ns, CoordinatorLabels(p.status.uuid, pk.name))) == PodRunning
    ensures FirstOpen(0, pk, p, o) == |PIPELINE| ==> w.resource == []
  {
    hide Perform, Decide, Announce, FirstOpen, QueryOf, RunStage, Passes, RunFrom, UpdateStatus;
    var j := FirstOpen(0, pk, p, o);
    PipelineIsFirstOpen(s, pk, p, o);
    var at, h, ctx := StateAt(j, s, pk, p, o), HeldAt(j, s, pk, p, o), CtxAt(j, pk, p, o);
    var address := AddressLog(j, s, pk, p, o);
    if j == |PIPELINE| {
      var phase := CoordinatorPhase(o.pods(pk.ns, CoordinatorPods(h, ctx)));
      assert CoordinatorPods(h, ctx) == CoordinatorLabels(p.status.uuid, pk.name);
      var final := StageOut(at, Fine, false, ctx, Some(FinalAction(phase, o, ctx)));
      var status := AnnounceLog(final, pk, h, o.status(AtEnd));
      w := Written3(address, [], status);
    } else {
      var role := PIPELINE[j];
      IndexOfStage(j);
      var resource, status := StageLog(role, at, pk, p, h, o);
      w := Written3(address, resource, status);
    }
  }

  lemma StageLog(role: Role, at: Server, pk: PKey, p: Presto, h: Presto, o: Oracle)
    returns (resource: seq<Effect>, status: seq<Effect>)
    requires Sliceable(p.status.uuid)
    ensures OpenStage(role, at, pk, p, h, o).s.log == at.log + resource + status
    ensures |resource| <= 1 && |status| <= 1
    ensures resource != [] ==> !resource[0].StatusWritten?
    ensures status != [] ==> !IsMajor(status[0]) && !Announces(status[0], ClusterReady)
  {
    var d := Decide(role, pk, p, o, CtxAt(Index(role), pk, p, o));
    StageNote(role, pk, p, o, at);
    resource := PerformLog(role, d, at, o.write(At(role)));
    status := AnnounceLog(Perform(role, d, at, o.write(At(role))), pk, h, o.status(At(role)));
  }

  /** Each Reconcile makes at most one UUID-or-object write. */
  lemma AtMostOneMajorWrite(s: Server, pk: PKey, o: Oracle)
    requires Inv(s) && Honest(s, pk, o)
    ensures MajorCount(s.log) <= MajorCount(Reconcile(s, pk, o).s.log) <= MajorCount(s.log) + 1
  {
    if o.get.Found? {
      var p := o.get.presto;
      if p.status.uuid != "" {
        var _ := PipelineEffect(s, pk, p, o);
        var w := PipelineLog(s, pk, p, o);
        CountAppended(s.log, w.address);
        CountAppended(s.log + w.address, w.resource);
        CountAppended(s.log + w.address + w.resource, w.status);
      } else {
        UuidGate(s, pk, o);
        CountAppended(s.log, [StatusWritten(pk, Action(clusterUuid := Some(o.freshUuid)))]);
      }
    }
  }
}
