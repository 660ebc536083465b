/** Properties of whole histories: UUIDs, status contents, crashes, and a deletion that never comes. */
module History {
  import opened PrestoTypes
  import opened Naming
  import opened Api
  import opened Pipeline
  import opened NormalForm
  import opened Invariants
  import opened Effects
  import opened Calls
  import opened Reads
  import opened Runs
  import opened Holders
  import opened Order
  import opened Uniqueness
  import opened Convergence

  // ---------------------------------------------------------------- UUIDs

  /** Get and the later List of each call agree, and pk is not deleted. */
  ghost predicate AgreesAndKeeps(s: Server, step: Step, pk: PKey) {
    && (step.Call? ==> ReadsAgree(s, step.pk, step.o))
    && (step.DeletePresto? ==> step.pk != pk)
  }

  ghost predicate HasUuid(s: Server, pk: PKey, u: string) {
    Inv(s) && pk in s.prestos && s.prestos[pk].status.uuid == u
  }

  lemma StepKeepsUuid(s: Server, step: Step, pk: PKey, u: string)
    requires HasUuid(s, pk, u) && u != "" && Allowed(s, step) && AgreesAndKeeps(s, step, pk)
    ensures HasUuid(Take(s, step), pk, u)
  {
    hide Inv, Reconcile, Honest, Foreign, ReadsAgree;
    StepKeepsInv(s, step);
    if step.Call? {
      UuidKept(s, step.pk, step.o, pk);
    }
  }

  /** In every run whose calls read consistently, a UUID once given never changes, and it can be sliced. */
  lemma UuidForever(s: Server, steps: seq<Step>, pk: PKey, u: string)
    requires Inv(s) && u != "" && pk in s.prestos && s.prestos[pk].status.uuid == u
    requires Obeys(s, steps, (t, step) => Allowed(t, step) && AgreesAndKeeps(t, step, pk))
    ensures
      var t := After(s, steps);
      pk in t.prestos && t.prestos[pk].status.uuid == u && Sliceable(u)
  {
    hide Take, Allowed, AgreesAndKeeps, Remembers, Known;
    var rule: Rule := (t, step) => Allowed(t, step) && AgreesAndKeeps(t, step, pk);
    var P := (t: Server) => HasUuid(t, pk, u);
    forall t: Server, step: Step | P(t) && rule(t, step)
      ensures P(Take(t, step))
    {
      StepKeepsUuid(t, step, pk, u);
    }
    HoldsThroughout(s, steps, P, rule);
  }

  // ---------------------------------------------------------------- status contents

  function MergeIfPossible(st: Status, a: Action): Status {
    if Mergeable(a) then Merge(st, a) else st
  }

  /** The status of pk after the logged updates, in order: the last set value wins, unset fields stay. */
  function Replay(st: Status, log: seq<Effect>, pk: PKey): Status {
    if log == [] then st
    else
      var e := log[|log| - 1];
      var before := Replay(st, log[..|log| - 1], pk);
      if e.StatusWritten? && e.pk == pk then MergeIfPossible(before, e.action) else before
  }

  /** From s to s' the log has grown, and replaying the growth explains the status of pk. */
  ghost predicate Told(s: Server, s': Server, pk: PKey) {
    && s.log <= s'.log
    && (pk in s.prestos ==>
          pk in s'.prestos && s'.prestos[pk].status == Replay(s.prestos[pk].status, s'.log[|s.log|..], pk))
  }

  lemma {:induction false} ReplaySplits(st: Status, a: seq<Effect>, b: seq<Effect>, pk: PKey)
    ensures Replay(st, a + b, pk) == Replay(Replay(st, a, pk), b, pk)
    decreases |b|
  {
    if b == [] {
      assert a + b == a;
    } else {
      var b' := b[..|b| - 1];
      assert (a + b)[..|a + b| - 1] == a + b';
      ReplaySplits(st, a, b', pk);
    }
  }

  lemma ToldTwice(s: Server, t: Server, s': Server, pk: PKey)
    requires Told(s, t, pk) && Told(t, s', pk)
    ensures Told(s, s', pk)
  {
    if pk in s.prestos {
      assert s'.log[|s.log|..] == t.log[|s.log|..] + s'.log[|t.log|..];
      ReplaySplits(s.prestos[pk].status, t.log[|s.log|..], s'.log[|t.log|..], pk);
    }
  }

  lemma LandingIsTold(t: Server, t': Server, pk: PKey, a: Action, q: PKey)
    requires Lands(t, t', pk, a)
    ensures Told(t, t', q)
  {
    if t' == t {
      assert t'.log[|t.log|..] == [];
    } else {
      var growth := t'.log[|t.log|..];
      assert growth == [StatusWritten(pk, a)];
      assert growth[..0] == [];
    }
  }

  lemma PerformIsTold(role: Role, d: Decision, s: Server, m: WriteMode, q: PKey)
    ensures Told(s, Perform(role, d, s, m).s, q)
  {
    var s' := Perform(role, d, s, m).s;
    var e := PerformLog(role, d, s, m);
    assert s'.log[|s.log|..] == e;
    assert e != [] ==> e[..0] == [];
    assert s'.prestos == s.prestos;
  }

  /** One status update is told, if the copy it may fall back on is current or goes nowhere. */
  lemma UpdateIsTold(s: Server, t: Server, pk: PKey, h: Presto, io: StatusIo, a: Note, q: PKey)
    requires IoFits(io, pk, s) && SinceThen(s, t, pk)
    requires q == pk && Unlisted(t, pk, h, io) && !io.write.Reject? ==> CurrentIfLatest(h, t, pk)
    ensures Told(t, UpdateStatus(t, pk, h, io, a).s, q)
  {
    var t' := UpdateStatus(t, pk, h, io, a).s;
    if q != pk || t' == t {
      assert t'.log[|t.log|..] == [] || t'.log[|t.log|..] == [StatusWritten(pk, a)];
      assert [StatusWritten(pk, a)][..0] == [];
    } else {
      StatusLands(s, t, pk, h, io, a);
      LandingIsTold(t, t', pk, a, q);
    }
  }

  // ---------------------------------------------------------------- the copy in hand

  /** Recording the address fell back on the copy in hand, edited it, and was refused. */
  predicate AddressRefused(s: Server, pk: PKey, p: Presto, o: Oracle) {
    && SomethingListed(Answer(External, pk, p, o)) && p.status.coordinatorAddress == ""
    && Unlisted(s, pk, p, o.status(At(External))) && o.status(At(External)).write.Reject?
  }

  /** The status update made after stage j is reached, if any. */
  function LaterNote(j: nat, s: Server, pk: PKey, p: Presto, o: Oracle): Option<Note>
    requires j <= |PIPELINE| && Sliceable(p.status.uuid)
  {
    var ctx := CtxAt(j, pk, p, o);
    if j < |PIPELINE| then Perform(PIPELINE[j], Decide(PIPELINE[j], pk, p, o, ctx), s, o.write(At(PIPELINE[j]))).note
    else Some(FinalAction(CoordinatorPhase(o.pods(pk.ns, CoordinatorPods(p, ctx))), o, ctx))
  }

  function LaterSite(j: nat): Site
    requires j <= |PIPELINE|
  {
    if j < |PIPELINE| then At(PIPELINE[j]) else AtEnd
  }

  /** The call's later status update falls back on the copy that a refused address update has edited. */
  predicate AddressLeaks(s: Server, pk: PKey, o: Oracle) {
    o.get.Found? && Sliceable(o.get.presto.status.uuid) &&
    var p := o.get.presto;
    var j := FirstOpen(0, pk, p, o);
    var io := o.status(LaterSite(j));
    && j > 1 && pk in s.prestos && s.prestos[pk] == p && AddressRefused(s, pk, p, o)
    && LaterNote(j, s, pk, p, o).Some? && Unlisted(s, pk, p, io) && !io.write.Reject?
  }

  lemma HeldIsCurrent(j: nat, s: Server, pk: PKey, p: Presto, o: Oracle)
    requires PrestoFits(p, pk, s)
    requires !(j > 1 && pk in s.prestos && s.prestos[pk] == p && AddressRefused(s, pk, p, o))
    ensures CurrentIfLatest(HeldAt(j, s, pk, p, o), StateAt(j, s, pk, p, o), pk)
  {
  }

  lemma RefusedLeavesStore(j: nat, s: Server, pk: PKey, p: Presto, o: Oracle)
    requires AddressRefused(s, pk, p, o)
    ensures StateAt(j, s, pk, p, o) == s
  {
  }

  lemma AddressIsTold(j: nat, s: Server, pk: PKey, p: Presto, o: Oracle, q: PKey)
    requires PrestoFits(p, pk, s) && IoFits(o.status(At(External)), pk, s)
    ensures Told(s, StateAt(j, s, pk, p, o), q)
  {
    var l := Answer(External, pk, p, o);
    var items := if l.Listed? then l.items else [];
    UpdateIsTold(s, s, pk, p, o.status(At(External)), ServiceAction(FirstService(items)), q);
    assert s.log[|s.log|..] == [];
  }

  /** The update made once stage j is reached is told, unless it leaks. */
  lemma LaterIsTold(j: nat, s: Server, t: Server, pk: PKey, p: Presto, o: Oracle, a: Note, q: PKey)
    requires Applies(s, pk, p, o) && Sliceable(p.status.uuid) && j == FirstOpen(0, pk, p, o)
    requires LaterNote(j, StateAt(j, s, pk, p, o), pk, p, o) == Some(a)
    requires q == pk ==> !AddressLeaks(s, pk, o)
    requires t.prestos == StateAt(j, s, pk, p, o).prestos && SinceThen(s, t, pk)
    ensures Told(t, UpdateStatus(t, pk, HeldAt(j, s, pk, p, o), o.status(LaterSite(j)), a).s, q)
  {
    hide Inv, Perform, Decide, FirstOpen, UpdateStatus, FinalAction;
    ReadsFit(s, pk, o, LaterSite(j));
    if q == pk {
      if j > 1 && pk in s.prestos && s.prestos[pk] == p && AddressRefused(s, pk, p, o) {
        RefusedLeavesStore(j, s, pk, p, o);
      } else {
        HeldIsCurrent(j, s, pk, p, o);
      }
    }
    UpdateIsTold(s, t, pk, HeldAt(j, s, pk, p, o), o.status(LaterSite(j)), a, q);
  }

  lemma StageIsTold(j: nat, s: Server, pk: PKey, p: Presto, o: Oracle, q: PKey)
    requires Applies(s, pk, p, o) && Sliceable(p.status.uuid) && j == FirstOpen(0, pk, p, o)
    requires PrestosKept(s, StateAt(j, s, pk, p, o), pk) && (q == pk ==> !AddressLeaks(s, pk, o))
    ensures Told(StateAt(j, s, pk, p, o), RunOpen(j, s, pk, p, o).s, q)
  {
    hide Inv, Decide, FirstOpen, UpdateStatus, FinalAction, AddressLeaks, Honest;
    var at, h, ctx := StateAt(j, s, pk, p, o), HeldAt(j, s, pk, p, o), CtxAt(j, pk, p, o);
    var a := LaterNote(j, at, pk, p, o);
    if j < |PIPELINE| {
      IndexOfStage(j);
      var role := PIPELINE[j];
      var d := Decide(role, pk, p, o, ctx);
      var r := Perform(role, d, at, o.write(At(role)));
      PerformIsTold(role, d, at, o.write(At(role)), q);
      if a.Some? {
        LaterIsTold(j, s, r.s, pk, p, o, a.value, q);
        ToldTwice(at, r.s, RunOpen(j, s, pk, p, o).s, q);
      }
    } else {
      assert CoordinatorPods(h, ctx) == CoordinatorPods(p, ctx);
      LaterIsTold(j, s, at, pk, p, o, a.value, q);
    }
  }

  /** After a call that leaks no address, each status is the merge of what was logged into what it was. */
  lemma CallIsTold(s: Server, pk: PKey, o: Oracle, q: PKey)
    requires Inv(s) && Honest(s, pk, o) && (q == pk ==> !AddressLeaks(s, pk, o))
    ensures Told(s, Reconcile(s, pk, o).s, q)
  {
    hide AddressLeaks, FirstOpen, Known;
    if !o.get.Found? {
      assert s.log[|s.log|..] == [];
    } else if o.get.presto.status.uuid == "" {
      UuidGate(s, pk, o);
      LandingIsTold(s, Reconcile(s, pk, o).s, pk, Action(clusterUuid := Some(o.freshUuid)), q);
    } else {
      var p := o.get.presto;
      assert Sliceable(p.status.uuid);
      PipelineIsFirstOpen(s, pk, p, o);
      ReadsFit(s, pk, o, At(External));
      var j := FirstOpen(0, pk, p, o);
      AddressIsTold(j, s, pk, p, o, q);
      ReachesStage(j, s, pk, p, o);
      StageIsTold(j, s, pk, p, o, q);
      ToldTwice(s, StateAt(j, s, pk, p, o), Reconcile(s, pk, o).s, q);
    }
  }

  /** Past the external service no update sets the address, and every one sets something. */
  lemma LaterNoteShape(j: nat, s: Server, pk: PKey, p: Presto, o: Oracle)
    requires 1 < j <= |PIPELINE| && Sliceable(p.status.uuid) && LaterNote(j, s, pk, p, o).Some?
    ensures
      var a := LaterNote(j, s, pk, p, o).value;
      a.service.None? && a.clusterState.Some?
  {
    hide CtxAt, Do, FirstItem;
  }

  /** The edited copy carries the address the refused update was to record. */
  lemma HeldCarriesAddress(j: nat, s: Server, pk: PKey, p: Presto, o: Oracle)
    requires 1 < j <= |PIPELINE| && Sliceable(p.status.uuid)
    requires AddressRefused(s, pk, p, o) && Passes(External, pk, p, o)
    ensures
      var h := HeldAt(j, s, pk, p, o);
      h == p.(status := h.status) && h.status.coordinatorAddress != ""
  {
    var svc := RefOf(Answer(External, pk, p, o).items[0]);
    assert svc.ports != [];
    assert ':' in Address(svc);
  }

  /** An update through the edited copy lands with the address in it. */
  lemma EditedCopyLands(t: Server, pk: PKey, p: Presto, h: Presto, io: StatusIo, a: Note)
    requires pk in t.prestos && t.prestos[pk] == p && h == p.(status := h.status) && Alike(p, h)
    requires Unlisted(t, pk, p, io) && !io.write.Reject? && a.service.None? && a.clusterState.Some?
    ensures
      var t' := UpdateStatus(t, pk, h, io, a).s;
      && t'.log == t.log + [StatusWritten(pk, a)]
      && pk in t'.prestos && t'.prestos[pk].status.coordinatorAddress == h.status.coordinatorAddress
  {
  }

  lemma ReplayKeepsAddress(st: Status, e: seq<Effect>, a: Note, pk: PKey)
    requires |e| <= 1 && (e != [] ==> !e[0].StatusWritten?) && a.service.None?
    ensures Replay(st, e + [StatusWritten(pk, a)], pk).coordinatorAddress == st.coordinatorAddress
  {
    assert (e + [StatusWritten(pk, a)])[..|e|] == e;
    if e != [] {
      assert e[..0] == [];
    }
    assert Replay(st, e, pk) == st;
  }

  /** A call in which the address was refused is its later update, on a store with the same resources. */
  lemma LaterUpdateOf(j: nat, s: Server, pk: PKey, p: Presto, o: Oracle) returns (t: Server, e: seq<Effect>)
    requires o.get == Found(p) && Sliceable(p.status.uuid) && j == FirstOpen(0, pk, p, o) && AddressRefused(s, pk, p, o)
    requires LaterNote(j, s, pk, p, o).Some?
    ensures t.prestos == s.prestos && t.log == s.log + e && |e| <= 1 && (e != [] ==> !e[0].StatusWritten?)
    ensures
      var h, a := HeldAt(j, s, pk, p, o), LaterNote(j, s, pk, p, o).value;
      Reconcile(s, pk, o).s == UpdateStatus(t, pk, h, o.status(LaterSite(j)), a).s
  {
    hide UpdateStatus, Decide, Passes, FinalAction, FirstOpen, RunFrom, Perform, AddressRefused;
    PipelineIsFirstOpen(s, pk, p, o);
    RefusedLeavesStore(j, s, pk, p, o);
    var h, ctx := HeldAt(j, s, pk, p, o), CtxAt(j, pk, p, o);
    if j < |PIPELINE| {
      IndexOfStage(j);
      var role := PIPELINE[j];
      var d := Decide(role, pk, p, o, ctx);
      t := Perform(role, d, s, o.write(At(role))).s;
      e := PerformLog(role, d, s, o.write(At(role)));
    } else {
      assert CoordinatorPods(h, ctx) == CoordinatorPods(p, ctx);
      t, e := s, [];
    }
  }

  lemma LeakIsUntold(s: Server, pk: PKey, o: Oracle)
    requires AddressLeaks(s, pk, o)
    ensures !Told(s, Reconcile(s, pk, o).s, pk)
  {
    hide UpdateStatus, Decide, Passes, LaterNote, Merge, Reconcile, Replay, HeldAt;
    var p := o.get.presto;
    var j := FirstOpen(0, pk, p, o);
    assert Passes(PIPELINE[1], pk, p, o);
    var t, e := LaterUpdateOf(j, s, pk, p, o);
    HeldCarriesAddress(j, s, pk, p, o);
    LaterNoteShape(j, s, pk, p, o);
    var h, a := HeldAt(j, s, pk, p, o), LaterNote(j, s, pk, p, o).value;
    EditedCopyLands(t, pk, p, h, o.status(LaterSite(j)), a);
    var s' := Reconcile(s, pk, o).s;
    assert s'.log[|s.log|..] == e + [StatusWritten(pk, a)];
    ReplayKeepsAddress(p.status, e, a, pk);
  }

  /** The status after a call is the merge of what was logged exactly if the call leaks no address. */
  lemma CallIsToldIff(s: Server, pk: PKey, o: Oracle)
    requires Inv(s) && Honest(s, pk, o) && pk in s.prestos
    ensures Told(s, Reconcile(s, pk, o).s, pk) <==> !AddressLeaks(s, pk, o)
  {
    hide Inv, Honest, Reconcile, Told;
    if AddressLeaks(s, pk, o) {
      LeakIsUntold(s, pk, o);
    } else {
      CallIsTold(s, pk, o, pk);
    }
  }

  /**
   Get and the later lists of a call read one cache, which only moves forward: a copy that Get has
   returned, and that is still the server's, is found by its own labels.
   */
  ghost predicate OneCache(s: Server, pk: PKey, o: Oracle) {
    o.get.Found? && pk in s.prestos && s.prestos[pk] == o.get.presto ==>
      forall site: Site :: !Unlisted(s, pk, o.get.presto, o.status(site))
  }

  /** The read lists every resource the cache selects by the given labels. */
  ghost predicate ListsCache(read: PrestoRead, cache: map<PKey, Presto>, ns: string, labels: Labels) {
    read.Snapshot? ==>
      forall q :: q in cache && q.ns == ns && Matches(labels, cache[q].labels) ==>
        exists i :: 0 <= i < |read.items| && read.items[i].name == q.name
  }

  lemma {:induction false} NameIsFound(items: seq<NamedPresto>, name: string, i: nat)
    requires i < |items| && items[i].name == name
    ensures FindByName(items, name).Some?
  {
    if i > 0 {
      NameIsFound(items[1..], name, i - 1);
    }
  }

  /** A cache that answers Get with its copy and the lists with what it selects is one. */
  lemma CacheIsOne(s: Server, pk: PKey, o: Oracle, cache: map<PKey, Presto>)
    requires o.get.Found? ==> pk in cache && cache[pk] == o.get.presto
    requires forall site: Site, l: Labels :: ListsCache(o.status(site).read(l), cache, pk.ns, l)
    ensures OneCache(s, pk, o)
  {
    if o.get.Found? && pk in s.prestos && s.prestos[pk] == o.get.presto {
      forall site: Site
        ensures !Unlisted(s, pk, o.get.presto, o.status(site))
      {
        var read := o.status(site).read(o.get.presto.labels);
        assert ListsCache(read, cache, pk.ns, o.get.presto.labels);
        if read.Snapshot? {
          var i :| 0 <= i < |read.items| && read.items[i].name == pk.name;
          NameIsFound(read.items, pk.name, i);
        }
      }
    }
  }

  lemma OneCacheNeverLeaks(s: Server, pk: PKey, o: Oracle)
    requires OneCache(s, pk, o)
    ensures !AddressLeaks(s, pk, o)
  {
    hide FirstOpen, LaterNote, Unlisted;
  }

  /** The calls for pk read one cache, and nobody deletes the resource. */
  ghost predicate ReadsAndKeeps(s: Server, step: Step, pk: PKey) {
    && (step.Call? && step.pk == pk ==> OneCache(s, pk, step.o))
    && (step.DeletePresto? ==> step.pk != pk)
  }

  /** In every run, the status is the fold of the updates that succeeded: the last set value wins, unset fields stay. */
  lemma {:induction false} StatusIsReplay(s: Server, steps: seq<Step>, pk: PKey)
    requires Inv(s) && pk in s.prestos
    requires Obeys(s, steps, (t, step) => Allowed(t, step) && ReadsAndKeeps(t, step, pk))
    ensures Told(s, After(s, steps), pk)
    decreases |steps|
  {
    if steps == [] {
      assert s.log[|s.log|..] == [];
    } else {
      var t := Take(s, steps[0]);
      StepKeepsInv(s, steps[0]);
      StepIsTold(s, steps[0], pk);
      StatusIsReplay(t, steps[1..], pk);
      ToldTwice(s, t, After(s, steps), pk);
    }
  }

  lemma StepIsTold(s: Server, step: Step, pk: PKey)
    requires Inv(s) && Allowed(s, step) && pk in s.prestos && ReadsAndKeeps(s, step, pk)
    ensures Told(s, Take(s, step), pk) && pk in Take(s, step).prestos
  {
    hide Inv, RunFrom, Reconcile, Honest, Known;
    if step.Call? {
      if step.pk == pk {
        OneCacheNeverLeaks(s, pk, step.o);
      }
      CallIsTold(s, step.pk, step.o, pk);
    } else {
      assert Take(s, step).log[|s.log|..] == [];
    }
  }

  // ---------------------------------------------------------------- crashes

  /** The first worker ReplicaSet would be created without a worker count. */
  predicate CountMissing(pk: PKey, p: Presto, o: Oracle)
    requires Sliceable(p.status.uuid)
  {
    && FirstOpen(0, pk, p, o) == Index(WorkerSet)
    && FirstFound(WorkerSet, pk, p, o) == Ok(None) && p.spec.worker.count.None?
  }

  /** An existing autoscaler is compared with the spec, and one of them lacks a number. */
  predicate NumberMissing(pk: PKey, p: Presto, o: Oracle)
    requires Sliceable(p.status.uuid)
  {
    && FirstOpen(0, pk, p, o) == Index(Autoscaler) && AutoscalingOn(p.spec)
    && SomethingListed(Answer(Autoscaler, pk, p, o))
    && LacksNumber(HpaSpecOf(Answer(Autoscaler, pk, p, o).items[0].obj), p.spec.worker.autoscaling)
  }

  lemma CrashDecision(role: Role, pk: PKey, p: Presto, o: Oracle)
    requires Sliceable(p.status.uuid) && FirstOpen(0, pk, p, o) == Index(role)
    ensures Decide(role, pk, p, o, CtxAt(Index(role), pk, p, o)).Crash?
       <==> CountMissing(pk, p, o) || NumberMissing(pk, p, o)
  {
    hide FirstOpen, HasName;
    if role == Autoscaler {
      assert Passes(PIPELINE[6], pk, p, o);
    }
  }

  lemma CrashPerformed(role: Role, d: Decision, at: Server, m: WriteMode, pk: PKey, p: Presto, io: StatusIo)
    requires d.Skip? && d.note.Some? ==> Mergeable(d.note.value)
    requires d.Write? && d.after.Ok? && d.after.value.Some? ==> Mergeable(d.after.value.value)
    ensures Announce(Perform(role, d, at, m), pk, p, io).verdict.Panicked? <==> d.Crash?
  {
    var r := Perform(role, d, at, m);
    assert r.note.Some? ==> Mergeable(r.note.value);
    if r.note.Some? {
      MergeableIsSafe(r.s, pk, p, io, r.note.value);
    }
  }

  lemma MergeableIsSafe(s: Server, pk: PKey, p: Presto, io: StatusIo, a: Action)
    requires Mergeable(a)
    ensures !UpdateStatus(s, pk, p, io, a).panicked
  {
  }

  /** A call crashes exactly on a nil worker count or a nil autoscaling number; it never slices too short a UUID. */
  lemma CrashesIff(s: Server, pk: PKey, o: Oracle)
    requires Inv(s) && Honest(s, pk, o)
    ensures o.get.Found? && o.get.presto.status.uuid != "" ==> Sliceable(o.get.presto.status.uuid)
    ensures Reconcile(s, pk, o).verdict.Panicked?
       <==> && o.get.Found? && o.get.presto.status.uuid != ""
            && (CountMissing(pk, o.get.presto, o) || NumberMissing(pk, o.get.presto, o))
  {
    if o.get.Found? {
      var p := o.get.presto;
      if p.status.uuid == "" {
        UuidGate(s, pk, o);
      } else {
        ReadsFit(s, pk, o, AtEnd);
        assert Sliceable(p.status.uuid);
        PipelineIsFirstOpen(s, pk, p, o);
        var j := FirstOpen(0, pk, p, o);
        if j < |PIPELINE| {
          IndexOfStage(j);
          StageCrashes(PIPELINE[j], s, StateAt(j, s, pk, p, o), pk, p, HeldAt(j, s, pk, p, o), o);
        } else {
          EndIsSafe(StateAt(j, s, pk, p, o), pk, HeldAt(j, s, pk, p, o), o, CtxAt(j, pk, p, o));
        }
      }
    }
  }

  lemma EndIsSafe(at: Server, pk: PKey, p: Presto, o: Oracle, ctx: Ctx)
    ensures Finish(at, pk, p, o, ctx).verdict.Fine?
  {
    var a := FinalAction(CoordinatorPhase(o.pods(pk.ns, CoordinatorPods(p, ctx))), o, ctx);
    MergeableIsSafe(at, pk, p, o.status(AtEnd), a);
  }

  lemma StageCrashes(role: Role, s: Server, at: Server, pk: PKey, p: Presto, h: Presto, o: Oracle)
    requires Applies(s, pk, p, o) && Sliceable(p.status.uuid) && FirstOpen(0, pk, p, o) == Index(role)
    ensures OpenStage(role, at, pk, p, h, o).verdict.Panicked?
       <==> CountMissing(pk, p, o) || NumberMissing(pk, p, o)
  {
    CrashDecision(role, pk, p, o);
    NotesMergeable(role, s, pk, p, o);
    var d := Decide(role, pk, p, o, CtxAt(Index(role), pk, p, o));
    CrashPerformed(role, d, at, o.write(At(role)), pk, h, o.status(At(role)));
  }

  // ---------------------------------------------------------------- an autoscaler that cannot be compared

  /** A call that reaches an autoscaler lacking a number crashes there, and changes no object. */
  lemma CrashChangesNothing(s: Server, pk: PKey, o: Oracle)
    requires pk in s.prestos && Looks(s, pk, s.prestos[pk], o) && Honest(s, pk, o) && o.get == Found(s.prestos[pk])
    requires s.prestos[pk].status.uuid != "" && !Comparable(s, s.prestos[pk].status.uuid, s.prestos[pk].spec)
    requires Sliceable(s.prestos[pk].status.uuid) && FirstOpen(0, pk, s.prestos[pk], o) == Index(Autoscaler)
    ensures Reconcile(s, pk, o).verdict.Panicked? && Reconcile(s, pk, o).s.objs == s.objs
  {
    hide Inv, Honest, FreshLists, FirstOpen, Passes, Decide, RunFrom, UpdateStatus, IsRole;
    var p := s.prestos[pk];
    NamedAtMostOne(Autoscaler, s, p.status.uuid);
    ListedIffPresent(Autoscaler, s, pk, p, o);
    assert NumberMissing(pk, p, o);
    CrashesIff(s, pk, o);
    CrashDecision(Autoscaler, pk, p, o);
    PipelineIsFirstOpen(s, pk, p, o);
  }

  lemma IncomparableStays(s: Server, pk: PKey, o: Oracle)
    requires Inv(s) && CalmAnswers(s, pk, o) && UuidAt(s, pk) != ""
    requires !Comparable(s, UuidAt(s, pk), s.prestos[pk].spec)
    ensures
      var s' := Reconcile(s, pk, o).s;
      && Inv(s') && pk in s'.prestos && s'.prestos[pk].spec == s.prestos[pk].spec
      && UuidAt(s', pk) == UuidAt(s, pk) && !Comparable(s', UuidAt(s, pk), s.prestos[pk].spec)
  {
    hide Inv, Honest, FreshLists, FirstOpen, Passes, RunFrom, IsRole, BuiltFor, NothingFound, LacksNumber, Reconcile;
    var p, s' := s.prestos[pk], Reconcile(s, pk, o).s;
    var u := p.status.uuid;
    ReconcileKeepsInv(s, pk, o);
    var c := PipelineEffect(s, pk, p, o);
    ChangeMoves(c, s, s', pk, p, o);
    var k :| Holds(Autoscaler, k, s, u) && LacksNumber(HpaSpecOf(s.objs[k]), p.spec.worker.autoscaling);
    assert HeldAfter(Autoscaler, k, u, c, s, u) ==> Holds(Autoscaler, k, s', u);
    if FirstOpen(0, pk, p, o) == Index(Autoscaler) {
      CrashChangesNothing(s, pk, o);
    }
    assert s'.objs[k] == s.objs[k];
  }

  /** A cluster whose autoscaler lacks a number it would be compared by never settles. */
  lemma {:induction false} NeverSettles(s: Server, pk: PKey, os: seq<Oracle>)
    requires Inv(s) && pk in s.prestos && UuidAt(s, pk) != "" && CalmRun(s, pk, os)
    requires !Comparable(s, UuidAt(s, pk), s.prestos[pk].spec)
    ensures
      var t := CalmEnd(s, pk, os);
      && pk in t.prestos && t.prestos[pk].spec == s.prestos[pk].spec && UuidAt(t, pk) == UuidAt(s, pk)
      && !Comparable(t, UuidAt(t, pk), t.prestos[pk].spec) && !Desired(t, pk)
    decreases |os|
  {
    hide Inv, CalmAnswers, Reconcile, Comparable;
    if os == [] {
      IncomparableIsUnsettled(s, UuidAt(s, pk), s.prestos[pk].spec);
    } else {
      IncomparableStays(s, pk, os[0]);
      NeverSettles(Reconcile(s, pk, os[0]).s, pk, os[1..]);
    }
  }

  lemma IncomparableIsUnsettled(s: Server, u: string, spec: PrestoSpec)
    requires !Comparable(s, u, spec)
    ensures !Satisfied(Autoscaler, s, u, spec)
  {
    hide IsRole;
    NamedAtMostOne(Autoscaler, s, u);
  }

  // ---------------------------------------------------------------- a deletion that never comes

  function Meddle(k: Key, spec: PrestoSpec): Step {
    OutsideScale(k, Or(spec.worker.count, 0) + 1, 0)
  }

  /** Before every call, the worker count is moved off the value the spec asks for. */
  ghost predicate MeddledRun(s: Server, pk: PKey, k: Key, spec: PrestoSpec, os: seq<Oracle>)
    decreases |os|
  {
    os != [] ==>
      var t := Take(s, Meddle(k, spec));
      CalmAnswers(t, pk, os[0]) && MeddledRun(Reconcile(t, pk, os[0]).s, pk, k, spec, os[1..])
  }

  function MeddledEnd(s: Server, pk: PKey, k: Key, spec: PrestoSpec, os: seq<Oracle>): Server
    decreases |os|
  {
    if os == [] then s
    else MeddledEnd(Reconcile(Take(s, Meddle(k, spec)), pk, os[0]).s, pk, k, spec, os[1..])
  }

  /** Autoscaling is off, yet the autoscaler is still there, beside a worker ReplicaSet under k. */
  ghost predicate Lingers(s: Server, pk: PKey, u: string, k: Key, spec: PrestoSpec) {
    && Undisturbed(s, pk) && s.prestos[pk].spec == spec && s.prestos[pk].status.uuid == u && u != ""
    && !AutoscalingOn(spec) && Present(Autoscaler, s, u) && Holds(WorkerSet, k, s, u)
  }

  lemma MeddlingLingers(s: Server, pk: PKey, u: string, k: Key, spec: PrestoSpec)
    requires Lingers(s, pk, u, k, spec)
    ensures
      var t := Take(s, Meddle(k, spec));
      Lingers(t, pk, u, k, spec) && !Satisfied(WorkerSet, t, u, spec)
  {
    hide Inv, Reconcile;
    var step := Meddle(k, spec);
    var t := Take(s, step);
    StepKeepsInv(s, step);
    StepKeepsAtMostOne(s, step, WorkerSet, u);
    OutsideMoves(s, step);
    assert Holds(WorkerSet, k, t, u) <==> HeldAfter(WorkerSet, k, u, Nothing, s, "");
    PresentAfter(Autoscaler, Nothing, "", s, t, u);
    MeddlingKeepsNames(s, pk, u, k, spec);
    assert AtMostOne(WorkerSet, t, u);
  }

  lemma MeddlingKeepsNames(s: Server, pk: PKey, u: string, k: Key, spec: PrestoSpec)
    requires Inv(s) && NamesFree(s, pk, u, spec)
    ensures NamesFree(Take(s, Meddle(k, spec)), pk, u, spec)
  {
    var t := Take(s, Meddle(k, spec));
    OutsideMoves(s, Meddle(k, spec));
    forall r: Role | FixedName(r, u).Some? && (r == Autoscaler ==> AutoscalingOn(spec))
      ensures
        var k' := Key(KindOf(r), pk.ns, FixedName(r, u).value);
        k' in t.objs ==> Holds(r, k', t, u)
    {
      var k' := Key(KindOf(r), pk.ns, FixedName(r, u).value);
      assert Holds(r, k', t, u) <==> HeldAfter(r, k', u, Nothing, s, "");
    }
  }

  lemma CallLingers(t: Server, pk: PKey, o: Oracle, u: string, k: Key, spec: PrestoSpec)
    requires Lingers(t, pk, u, k, spec) && CalmAnswers(t, pk, o) && !Satisfied(WorkerSet, t, u, spec)
    ensures Lingers(Reconcile(t, pk, o).s, pk, u, k, spec)
  {
    hide Holds, RunFrom, Reconcile, Inv, Honest, FreshLists;
    var p, s' := t.prestos[pk], Reconcile(t, pk, o).s;
    CalmStaysUndisturbed(t, pk, o);
    CalmLooks(t, pk, p, o);
    var c := PipelineEffect(t, pk, p, o);
    PassesIff(WorkerSet, t, pk, p, o);
    OpenNoLater(WorkerSet, pk, p, o);
    ChangeMoves(c, t, s', pk, p, o);
    assert Holds(WorkerSet, k, s', u) <==> HeldAfter(WorkerSet, k, u, c, t, u);
    PresentAfter(Autoscaler, c, u, t, s', u);
  }

  /**
   Convergence needs non-interference: with autoscaling switched off, an autoscaler that rewrites the
   worker count before every call postpones its own deletion for as long as it likes.
   */
  lemma {:induction false} PostponedForever(s: Server, pk: PKey, u: string, k: Key, spec: PrestoSpec, os: seq<Oracle>)
    requires Lingers(s, pk, u, k, spec) && MeddledRun(s, pk, k, spec, os)
    ensures Lingers(MeddledEnd(s, pk, k, spec, os), pk, u, k, spec)
    decreases |os|
  {
    if os != [] {
      var t := Take(s, Meddle(k, spec));
      MeddlingLingers(s, pk, u, k, spec);
      CallLingers(t, pk, os[0], u, k, spec);
      PostponedForever(Reconcile(t, pk, os[0]).s, pk, u, k, spec, os[1..]);
    }
  }
}
