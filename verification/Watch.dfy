/**
 How a Presto resource gets the operator's attention: the informer's cache and its feed of
 versions, the filter on updates, the work queue, and the map of resources woken by the ticker.
 */
module Watch {
  import opened PrestoTypes
  import opened Naming
  import opened Api
  import opened Pipeline
  import opened NormalForm
  import opened Invariants
  import opened Effects
  import opened Calls
  import opened Runs

  // ---------------------------------------------------------------- the update filter

  datatype UpdateEvent = UpdateEvent(
    metaOld: Option<nat>, objectOld: bool, objectNew: bool, metaNew: Option<nat>)

  /** GenerationChangedPredicate.Update; the metadata are given by their generation. */
  predicate LetsThrough(e: UpdateEvent) {
    if e.metaOld.None? then false
    else if !e.objectOld then false
    else if !e.objectNew then false
    else if e.metaNew.None? then false
    else if e.metaNew.value == e.metaOld.value && e.metaNew.value != 0 then false
    else true
  }

  function EventOf(before: Presto, after: Presto): UpdateEvent {
    UpdateEvent(Some(before.generation), true, true, Some(after.generation))
  }

  // ---------------------------------------------------------------- the system

  /** What a cache or a feed has of a resource: a version of it, or that it is gone. */
  type Entry = Option<Presto>

  datatype System = System(
    server: Server,
    cache: map<PKey, Presto>,
    feeds: map<PKey, seq<Entry>>,
    queue: set<PKey>,
    registered: set<PKey>,
    owned: set<PKey>)

  const BOOT := System(INIT, map[], map[], {}, {}, {})

  function Lookup(m: map<PKey, Presto>, pk: PKey): Entry {
    if pk in m then Some(m[pk]) else None
  }

  function Feed(sys: System, pk: PKey): seq<Entry> {
    if pk in sys.feeds then sys.feeds[pk] else []
  }

  /** The server moves on: every resource it changed gets a new version on its feed. */
  function Publish(sys: System, s': Server): System {
    var changed := set pk | pk in sys.server.prestos.Keys + s'.prestos.Keys
                            && Lookup(sys.server.prestos, pk) != Lookup(s'.prestos, pk);
    sys.(server := s',
         feeds := map pk | pk in sys.feeds.Keys + changed ::
                    Feed(sys, pk) + if pk in changed then [Lookup(s'.prestos, pk)] else [])
  }

  /** Whether moving the cache from one version to the next puts the key on the queue. */
  predicate Enqueues(before: Entry, after: Entry) {
    match (before, after)
    case (None, None) => false
    case (None, Some(_)) => true
    case (Some(_), None) => true
    case (Some(p), Some(q)) => LetsThrough(EventOf(p, q))
  }

  function Store(cache: map<PKey, Presto>, pk: PKey, v: Entry): map<PKey, Presto> {
    if v.Some? then cache[pk := v.value] else cache - {pk}
  }

  /** The next version of pk reaches the cache. */
  function Deliver(sys: System, pk: PKey): System {
    var feed := Feed(sys, pk);
    if feed == [] then sys
    else
      sys.(cache := Store(sys.cache, pk, feed[0]),
           feeds := sys.feeds[pk := feed[1..]],
           queue := if Enqueues(Lookup(sys.cache, pk), feed[0]) then sys.queue + {pk} else sys.queue)
  }

  /** The kinds whose events are watched for their owner; the autoscaler's is not among them. */
  predicate Watched(k: Key) {
    k.kind in {Service, ConfigMap, ReplicaSet}
  }

  function Stored(s: Server, k: Key): Option<Obj> {
    if k in s.objs then Some(s.objs[k]) else None
  }

  /** The resource that owns the object under k; the owner of a foreign object need not name one. */
  function OwnersAt(s: Server, k: Key): set<PKey> {
    if k in s.objs then {PKey(k.ns, s.objs[k].owner.name)} else {}
  }

  /** The owners an event goes to: those of every watched object created, changed or deleted. */
  function Woken(s: Server, s': Server): set<PKey> {
    set k, pk | k in s.objs.Keys + s'.objs.Keys && Watched(k) && Stored(s, k) != Stored(s', k)
                && pk in OwnersAt(s, k) + OwnersAt(s', k) :: pk
  }

  /** The operator restarts: everything in memory is gone, and every resource and watched object is listed anew. */
  function Restart(sys: System): System {
    sys.(cache := map[], queue := {}, registered := {},
         owned := set k, pk | k in sys.server.objs.Keys && Watched(k) && pk in OwnersAt(sys.server, k) :: pk,
         feeds := map pk | pk in sys.server.prestos.Keys :: [Some(sys.server.prestos[pk])])
  }

  /** One item of the queue is processed; a result without error is not requeued, RequeueAfter 0 included. */
  function Process(sys: System, pk: PKey, o: Oracle): System {
    var r := Reconcile(sys.server, pk, o);
    var next := Publish(sys, r.s);
    var registered :=
      match r.registration
      case Register => sys.registered + {pk}
      case Unregister => sys.registered - {pk}
      case Untouched => sys.registered;
    if r.verdict.Panicked? then Restart(next)
    else
      next.(registered := registered,
            queue := if r.verdict.Failed? then sys.queue else sys.queue - {pk},
            owned := sys.owned + Woken(sys.server, r.s))
  }

  datatype Event =
    | Outside(step: Step)
    | Delivery(pk: PKey)
    | OwnedDelivery(pk: PKey)
    | Resync(pk: PKey)
    | Tick
    | Handle(pk: PKey, o: Oracle)
    | Crash

  function Happen(sys: System, e: Event): System {
    match e
    case Outside(step) =>
      var s' := Take(sys.server, step);
      Publish(sys, s').(owned := sys.owned + Woken(sys.server, s'))
    case Delivery(pk) => Deliver(sys, pk)
    case OwnedDelivery(pk) =>
      sys.(owned := sys.owned - {pk}, queue := if pk in sys.owned then sys.queue + {pk} else sys.queue)
    case Resync(pk) => sys.(owned := sys.owned + {pk})
    case Tick => sys.(queue := sys.queue + sys.registered)
    case Handle(pk, o) => Process(sys, pk, o)
    case Crash => Restart(sys)
  }

  /** What Get returns: the cached version, or "not found" if there is none, or some other error. */
  predicate ReadsCache(sys: System, pk: PKey, get: GetResult) {
    match get
    case Found(p) => Lookup(sys.cache, pk) == Some(p)
    case GetFailed(e) => e.reason == NotFound ==> pk !in sys.cache
  }

  predicate Possible(sys: System, e: Event) {
    match e
    case Outside(step) => !step.Call?
    case Handle(pk, o) => pk in sys.queue && ReadsCache(sys, pk, o.get)
    case _ => true
  }

  function HappenAll(sys: System, es: seq<Event>): System
    decreases |es|
  {
    if es == [] then sys else HappenAll(Happen(sys, es[0]), es[1..])
  }

  predicate AllPossible(sys: System, es: seq<Event>)
    decreases |es|
  {
    es != [] ==> Possible(sys, es[0]) && AllPossible(Happen(sys, es[0]), es[1..])
  }

  // ---------------------------------------------------------------- no lost wake-up

  /** What the cache will hold once the feed is delivered. */
  function Eventually(sys: System, pk: PKey): Entry {
    var feed := Feed(sys, pk);
    if feed == [] then Lookup(sys.cache, pk) else feed[|feed| - 1]
  }

  ghost predicate Attentive(sys: System) {
    && (forall pk :: Eventually(sys, pk) == Lookup(sys.server.prestos, pk))
    && (forall pk :: pk in sys.cache ==> pk in sys.queue || pk in sys.registered)
  }

  lemma PublishKeepsFeeds(sys: System, s': Server)
    requires forall pk :: Eventually(sys, pk) == Lookup(sys.server.prestos, pk)
    ensures forall pk :: Eventually(Publish(sys, s'), pk) == Lookup(s'.prestos, pk)
  {
    hide Publish, Lookup, Feed;
    var next := Publish(sys, s');
    forall pk
      ensures Eventually(next, pk) == Lookup(s'.prestos, pk)
    {
      assert Eventually(sys, pk) == Lookup(sys.server.prestos, pk);
      PublishedFeed(sys, s', pk);
    }
  }

  lemma PublishedFeed(sys: System, s': Server, pk: PKey)
    ensures Publish(sys, s').cache == sys.cache && Publish(sys, s').server == s'
    ensures
      var same := Lookup(sys.server.prestos, pk) == Lookup(s'.prestos, pk);
      Feed(Publish(sys, s'), pk) == Feed(sys, pk) + if same then [] else [Lookup(s'.prestos, pk)]
  {
    var changed := set q | q in sys.server.prestos.Keys + s'.prestos.Keys
                           && Lookup(sys.server.prestos, q) != Lookup(s'.prestos, q);
    assert pk in changed <==> Lookup(sys.server.prestos, pk) != Lookup(s'.prestos, pk);
  }

  lemma DeliverKeepsFeeds(sys: System, pk: PKey)
    requires forall q :: Eventually(sys, q) == Lookup(sys.server.prestos, q)
    ensures forall q :: Eventually(Deliver(sys, pk), q) == Lookup(sys.server.prestos, q)
  {
    var next := Deliver(sys, pk);
    forall q
      ensures Eventually(next, q) == Lookup(sys.server.prestos, q)
    {
      assert Eventually(sys, q) == Lookup(sys.server.prestos, q);
      if q == pk && Feed(sys, pk) != [] {
        assert Feed(next, pk) == Feed(sys, pk)[1..];
      } else {
        assert Feed(next, q) == Feed(sys, q) && Lookup(next.cache, q) == Lookup(sys.cache, q);
      }
    }
  }

  lemma RestartAttentive(sys: System)
    ensures Attentive(Restart(sys))
  {
    var next := Restart(sys);
    forall pk
      ensures Eventually(next, pk) == Lookup(next.server.prestos, pk)
    {
      assert pk in sys.server.prestos.Keys ==> Feed(next, pk) == [Some(sys.server.prestos[pk])];
    }
  }

  /** Registration follows what Get returned. */
  lemma RegistrationOf(s: Server, pk: PKey, o: Oracle)
    ensures
      var r := Reconcile(s, pk, o);
      match o.get
      case Found(_) => r.registration == Register
      case GetFailed(e) =>
        if e.reason == NotFound then r.registration == Unregister && r.verdict == Fine
        else r.registration == Untouched && r.verdict.Failed?
  {
  }

  lemma ProcessAttentive(sys: System, pk: PKey, o: Oracle)
    requires Attentive(sys) && pk in sys.queue && ReadsCache(sys, pk, o.get)
    ensures Attentive(Process(sys, pk, o))
  {
    hide Reconcile, Publish, Restart;
    var r := Reconcile(sys.server, pk, o);
    RegistrationOf(sys.server, pk, o);
    if r.verdict.Panicked? {
      RestartAttentive(Publish(sys, r.s));
    } else {
      var published := Publish(sys, r.s);
      PublishKeepsFeeds(sys, r.s);
      PublishedFeed(sys, r.s, pk);
      var next := Process(sys, pk, o);
      assert next.server == r.s && next.cache == sys.cache && next.feeds == published.feeds;
      forall q
        ensures Eventually(next, q) == Lookup(next.server.prestos, q)
      {
        assert Eventually(next, q) == Eventually(published, q);
      }
    }
  }

  lemma OutsideAttentive(sys: System, step: Step)
    requires Attentive(sys)
    ensures Attentive(Happen(sys, Outside(step)))
  {
    hide Take, Publish, Woken;
    var s' := Take(sys.server, step);
    var next, published := Happen(sys, Outside(step)), Publish(sys, s');
    PublishKeepsFeeds(sys, s');
    PublishKeepsQueue(sys, s');
    forall q
      ensures Eventually(next, q) == Lookup(next.server.prestos, q)
    {
      assert Eventually(next, q) == Eventually(published, q);
    }
  }

  lemma PublishKeepsQueue(sys: System, s': Server)
    ensures
      var next := Publish(sys, s');
      next.server == s' && next.cache == sys.cache && next.queue == sys.queue && next.registered == sys.registered
  {
  }

  lemma EventAttentive(sys: System, e: Event)
    requires Attentive(sys) && Possible(sys, e)
    ensures Attentive(Happen(sys, e))
  {
    match e {
      case Outside(step) => OutsideAttentive(sys, step);
      case Delivery(pk) => DeliverKeepsFeeds(sys, pk);
      case Handle(pk, o) => ProcessAttentive(sys, pk, o);
      case Crash => RestartAttentive(sys);
      case _ =>
        forall q
          ensures Eventually(Happen(sys, e), q) == Eventually(sys, q)
        {
        }
    }
  }

  lemma {:induction false} AlwaysAttentive(sys: System, es: seq<Event>)
    requires Attentive(sys) && AllPossible(sys, es)
    ensures Attentive(HappenAll(sys, es))
    decreases |es|
  {
    if es != [] {
      EventAttentive(sys, es[0]);
      AlwaysAttentive(Happen(sys, es[0]), es[1..]);
    }
  }

  /** A creation of pk is still to be delivered. */
  predicate CreationPending(sys: System, pk: PKey) {
    pk !in sys.cache && exists i :: 0 <= i < |Feed(sys, pk)| && Feed(sys, pk)[i].Some?
  }

  /**
   No lost wake-up: after any events, restarts included, each existing resource is queued, or woken
   by the ticker, or about to be queued by the delivery of its creation.
   */
  lemma NoLostWakeUp(es: seq<Event>, pk: PKey)
    requires AllPossible(BOOT, es)
    ensures
      var sys := HappenAll(BOOT, es);
      pk in sys.server.prestos ==> pk in sys.queue || pk in sys.registered || CreationPending(sys, pk)
  {
    AlwaysAttentive(BOOT, es);
    var sys := HappenAll(BOOT, es);
    assert Eventually(sys, pk) == Lookup(sys.server.prestos, pk);
  }

  function DeliverAll(sys: System, pk: PKey): System
    decreases |Feed(sys, pk)|
  {
    if Feed(sys, pk) == [] then sys
    else
      assert Feed(Deliver(sys, pk), pk) == Feed(sys, pk)[1..];
      DeliverAll(Deliver(sys, pk), pk)
  }

  /** Once its feed is delivered, every existing resource is queued or woken by the ticker. */
  lemma {:induction false} DeliveryWakes(sys: System, pk: PKey)
    requires Attentive(sys) && pk in sys.server.prestos
    ensures
      var next := DeliverAll(sys, pk);
      && Attentive(next) && next.server == sys.server
      && Lookup(next.cache, pk) == Some(sys.server.prestos[pk])
      && (pk in next.queue || pk in next.registered)
    decreases |Feed(sys, pk)|
  {
    if Feed(sys, pk) == [] {
      assert Eventually(sys, pk) == Lookup(sys.server.prestos, pk);
    } else {
      assert Feed(Deliver(sys, pk), pk) == Feed(sys, pk)[1..];
      EventAttentive(sys, Delivery(pk));
      DeliveryWakes(Deliver(sys, pk), pk);
    }
  }

  // ---------------------------------------------------------------- what a delivery queues

  /** The filter lets an update through exactly if nothing is missing and the generation is new, or was never set. */
  lemma FilterIff(e: UpdateEvent)
    ensures LetsThrough(e)
       <==> && e.metaOld.Some? && e.metaNew.Some? && e.objectOld && e.objectNew
            && (e.metaOld.value != e.metaNew.value || e.metaNew.value == 0)
  {
  }

  /**
   The next delivered version queues the resource exactly if it comes into being, goes away, or has a
   generation that differs from the cached one or was never set.
   */
  lemma DeliveryQueuesIff(sys: System, pk: PKey)
    requires Feed(sys, pk) != []
    ensures
      var after := Feed(sys, pk)[0];
      pk in Deliver(sys, pk).queue
      <==> || pk in sys.queue
           || (pk !in sys.cache && after.Some?)
           || (pk in sys.cache && after.None?)
           || (&& pk in sys.cache && after.Some?
               && (after.value.generation != sys.cache[pk].generation || after.value.generation == 0))
  {
    hide LetsThrough;
    if pk in sys.cache && Feed(sys, pk)[0].Some? {
      FilterIff(EventOf(sys.cache[pk], Feed(sys, pk)[0].value));
    }
  }

  lemma {:induction false} QueuedThroughDeliveries(sys: System, pk: PKey)
    ensures pk in sys.queue ==> pk in DeliverAll(sys, pk).queue
    decreases |Feed(sys, pk)|
  {
    if Feed(sys, pk) != [] {
      assert Feed(Deliver(sys, pk), pk) == Feed(sys, pk)[1..];
      QueuedThroughDeliveries(Deliver(sys, pk), pk);
    }
  }

  /** However many versions are on the way, a generation the cache has not seen gets the resource queued. */
  lemma {:induction false} NewGenerationQueues(sys: System, pk: PKey)
    requires pk in sys.cache && Eventually(sys, pk).Some?
    requires Eventually(sys, pk).value.generation != sys.cache[pk].generation
    ensures pk in DeliverAll(sys, pk).queue
    decreases |Feed(sys, pk)|
  {
    hide Enqueues, LetsThrough;
    var next, feed := Deliver(sys, pk), Feed(sys, pk);
    assert Feed(next, pk) == feed[1..];
    DeliveryQueuesIff(sys, pk);
    if pk in next.queue {
      QueuedThroughDeliveries(next, pk);
    } else {
      assert pk in next.cache && Eventually(next, pk) == Eventually(sys, pk);
      NewGenerationQueues(next, pk);
    }
  }

  /** A user's change to the spec is looked at once it is delivered, whatever else has changed since. */
  lemma SpecEditIsQueued(sys: System, pk: PKey, spec: PrestoSpec)
    requires Attentive(sys) && pk in sys.server.prestos && pk in sys.cache
    requires sys.cache[pk].generation <= sys.server.prestos[pk].generation
    ensures pk in DeliverAll(Happen(sys, Outside(EditSpec(pk, spec))), pk).queue
  {
    hide Woken, Publish, Reconcile, DeliverAll;
    var next := Happen(sys, Outside(EditSpec(pk, spec)));
    OutsideAttentive(sys, EditSpec(pk, spec));
    PublishKeepsQueue(sys, Take(sys.server, EditSpec(pk, spec)));
    assert Eventually(next, pk) == Lookup(next.server.prestos, pk);
    NewGenerationQueues(next, pk);
  }

  /** A change to the labels alone is not. */
  lemma LabelEditIsDropped(sys: System, pk: PKey, labels: Labels)
    requires InSync(sys, pk) && pk !in sys.queue
    ensures pk !in DeliverAll(Happen(sys, Outside(EditLabels(pk, labels))), pk).queue
  {
    hide Woken, Publish, Reconcile, DeliverAll, Enqueues;
    var s' := Take(sys.server, EditLabels(pk, labels));
    var next := Happen(sys, Outside(EditLabels(pk, labels)));
    PublishedFeed(sys, s', pk);
    PublishKeepsQueue(sys, s');
    assert Feed(next, pk) == Feed(Publish(sys, s'), pk);
    if Feed(next, pk) != [] {
      DeliveryQueuesIff(next, pk);
    }
    DeliveredOnce(next, pk);
  }

  lemma DeliveredOnce(sys: System, pk: PKey)
    requires |Feed(sys, pk)| <= 1
    ensures DeliverAll(sys, pk) == if Feed(sys, pk) == [] then sys else Deliver(sys, pk)
  {
    if Feed(sys, pk) != [] {
      assert Feed(Deliver(sys, pk), pk) == [];
    }
  }

  // ---------------------------------------------------------------- deleted resources

  /** Whatever is on the ticker is cached, or about to be looked at. */
  ghost predicate TickerFollows(sys: System) {
    forall pk :: pk in sys.registered ==> pk in sys.cache || pk in sys.queue
  }

  lemma EventKeepsTicker(sys: System, e: Event)
    requires TickerFollows(sys) && Possible(sys, e)
    ensures TickerFollows(Happen(sys, e))
  {
    hide Reconcile, Take;
    if e.Handle? {
      RegistrationOf(sys.server, e.pk, e.o);
    }
  }

  lemma {:induction false} TickerAlwaysFollows(sys: System, es: seq<Event>)
    requires TickerFollows(sys) && AllPossible(sys, es)
    ensures TickerFollows(HappenAll(sys, es))
    decreases |es|
  {
    hide TickerFollows, Happen, Possible;
    if es != [] {
      EventKeepsTicker(sys, es[0]);
      TickerAlwaysFollows(Happen(sys, es[0]), es[1..]);
    }
  }

  /**
   After any events, a resource that is deleted, and whose deletion has been delivered, is off the
   ticker or still queued; and processing it takes it off both, or keeps it queued if the read failed.
   */
  lemma DeletedIsUnregistered(es: seq<Event>, pk: PKey)
    requires AllPossible(BOOT, es)
    requires pk !in HappenAll(BOOT, es).server.prestos && Feed(HappenAll(BOOT, es), pk) == []
    ensures pk in HappenAll(BOOT, es).registered ==> pk in HappenAll(BOOT, es).queue
    ensures
      var sys := HappenAll(BOOT, es);
      forall o: Oracle :: pk in sys.queue && ReadsCache(sys, pk, o.get) ==>
        && o.get.GetFailed?
        && var next := Process(sys, pk, o);
           if o.get.error.reason == NotFound then pk !in next.registered && pk !in next.queue else pk in next.queue
  {
    hide Reconcile, Publish, Restart;
    TickerAlwaysFollows(BOOT, es);
    AlwaysAttentive(BOOT, es);
    var sys := HappenAll(BOOT, es);
    assert Eventually(sys, pk) == Lookup(sys.server.prestos, pk);
    forall o: Oracle | pk in sys.queue && ReadsCache(sys, pk, o.get)
      ensures o.get.GetFailed?
      ensures var next := Process(sys, pk, o);
              if o.get.error.reason == NotFound then pk !in next.registered && pk !in next.queue else pk in next.queue
    {
      RegistrationOf(sys.server, pk, o);
    }
  }

  // ---------------------------------------------------------------- what a call itself wakes

  /** Whatever a call writes into a status, the update filter drops it. */
  lemma StatusWritesAreFiltered(s: Server, pk: PKey, o: Oracle, q: PKey)
    requires Inv(s) && Honest(s, pk, o) && q in s.prestos && s.prestos[q].generation > 0
    ensures
      var s' := Reconcile(s, pk, o).s;
      q in s'.prestos && !Enqueues(Some(s.prestos[q]), Some(s'.prestos[q]))
  {
    hide Inv, Honest, RunFrom, Merge;
    if o.get.Found? {
      if o.get.presto.status.uuid == "" {
        UuidGate(s, pk, o);
      } else {
        var c := PipelineEffect(s, pk, o.get.presto, o);
      }
    }
  }

  /** The cache shows pk as the server has it. */
  predicate InSync(sys: System, pk: PKey) {
    && pk in sys.server.prestos && Lookup(sys.cache, pk) == Some(sys.server.prestos[pk])
    && Feed(sys, pk) == [] && sys.server.prestos[pk].generation > 0
  }

  /** A call changes an object a watch looks at. */
  predicate ChangesWatched(s: Server, pk: PKey, o: Oracle) {
    && o.get.Found? && o.get.presto.status.uuid != "" && Sliceable(o.get.presto.status.uuid)
    && FirstOpen(0, pk, o.get.presto, o) < Index(Autoscaler) && Reconcile(s, pk, o).s.objs != s.objs
  }

  /** A call wakes its own resource exactly if it changes an object before the autoscaler's stage, and no other ever. */
  lemma CallWakes(s: Server, pk: PKey, o: Oracle)
    requires Inv(s) && Honest(s, pk, o)
    ensures Woken(s, Reconcile(s, pk, o).s) == if ChangesWatched(s, pk, o) then {pk} else {}
  {
    hide Inv, Honest, RunFrom, Passes, FirstOpen, BuiltFor, NothingFound, Woken;
    var s' := Reconcile(s, pk, o).s;
    if o.get.Found? && o.get.presto.status.uuid != "" {
      var c := PipelineEffect(s, pk, o.get.presto, o);
      ChangeWakes(c, s, s', pk, o.get.presto, o);
    } else {
      if o.get.Found? {
        UuidGate(s, pk, o);
      }
      SameObjectsWakeNobody(s, s');
    }
  }

  lemma SameObjectsWakeNobody(s: Server, s': Server)
    requires s'.objs == s.objs
    ensures Woken(s, s') == {}
  {
  }

  /** Only k changed, and whoever owns it, before or after, is pk. */
  lemma OneChangeWakes(s: Server, s': Server, k: Key, pk: PKey)
    requires Stored(s, k) != Stored(s', k) && forall k' :: k' != k ==> Stored(s, k') == Stored(s', k')
    requires OwnersAt(s, k) <= {pk} && OwnersAt(s', k) <= {pk}
    ensures Woken(s, s') == if Watched(k) then {pk} else {}
  {
    assert k in s.objs || k in s'.objs;
    assert OwnersAt(s, k) + OwnersAt(s', k) == {pk};
    assert Watched(k) ==> pk in Woken(s, s');
  }

  lemma ChangeWakes(c: Change, s: Server, s': Server, pk: PKey, p: Presto, o: Oracle)
    requires Inv(s) && Sliceable(p.status.uuid) && Explains(c, s, s', pk, p, o)
    ensures Woken(s, s') == if FirstOpen(0, pk, p, o) < Index(Autoscaler) && s'.objs != s.objs then {pk} else {}
  {
    hide Inv, Passes, FirstOpen, BuiltFor, NothingFound, HpaName, ConfigName, Woken;
    if c == Nothing {
      SameObjectsWakeNobody(s, s');
    } else if c.Removed? {
      AutoscalersWakeNobody(s, s', c.key);
    } else {
      assert s'.objs[c.key] == c.obj;
      RewrittenOnce(c, s, s', pk, p, o);
      OneChangeWakes(s, s', c.key, pk);
    }
  }

  lemma AutoscalersWakeNobody(s: Server, s': Server, k: Key)
    requires !Watched(k) && forall k' :: k' != k ==> Stored(s, k') == Stored(s', k')
    ensures Woken(s, s') == {}
  {
  }

  /** The object under the changed key was and is owned by pk, and is not the same as before. */
  lemma RewrittenOnce(c: Change, s: Server, s': Server, pk: PKey, p: Presto, o: Oracle)
    requires Inv(s) && Sliceable(p.status.uuid) && Explains(c, s, s', pk, p, o)
    requires (c.Made? || c.Rescaled? || c.Retuned?)
    ensures Stored(s, c.key) != Stored(s', c.key) && OwnersAt(s, c.key) <= {pk} && OwnersAt(s', c.key) <= {pk}
    ensures Watched(c.key) <==> FirstOpen(0, pk, p, o) < Index(Autoscaler)
  {
    hide Passes, FirstOpen, BuiltFor, NothingFound, HpaName, ConfigName, Known;
  }

  /**
   After a call that succeeds, nothing it wrote to the status brings the resource back. An object it
   wrote does, by an event, unless that was the autoscaler; after a UUID or an autoscaler write the
   resource is off the queue until the ticker, with which it is now registered.
   */
  lemma OnlyTheTickerReturns(sys: System, pk: PKey, o: Oracle)
    requires Inv(sys.server) && Honest(sys.server, pk, o) && InSync(sys, pk)
    requires pk in sys.queue && o.get == Found(sys.server.prestos[pk])
    requires Reconcile(sys.server, pk, o).verdict == Fine
    ensures
      var p, next := o.get.presto, DeliverAll(Process(sys, pk, o), pk);
      && pk !in next.queue && pk in next.registered && Feed(next, pk) == []
      && (p.status.uuid == "" ==> (pk in next.owned <==> pk in sys.owned))
      && (p.status.uuid != "" ==>
            && Sliceable(p.status.uuid)
            && (pk in next.owned <==>
                  || pk in sys.owned
                  || (&& FirstOpen(0, pk, p, o) < Index(Autoscaler)
                      && Reconcile(sys.server, pk, o).s.objs != sys.server.objs)))
  {
    hide Inv, Honest, FirstOpen, Woken, Reconcile, Enqueues, DeliverAll;
    var s' := Reconcile(sys.server, pk, o).s;
    RegistrationOf(sys.server, pk, o);
    StatusWritesAreFiltered(sys.server, pk, o, pk);
    CallWakes(sys.server, pk, o);
    PublishedFeed(sys, s', pk);
    UuidSlices(sys.server, pk, o);
    var after := Process(sys, pk, o);
    assert Feed(after, pk) == Feed(Publish(sys, s'), pk);
    DeliveredQuietly(after, pk);
  }

  /** Delivering an update the filter drops queues nothing. */
  lemma DeliveredQuietly(sys: System, pk: PKey)
    requires |Feed(sys, pk)| <= 1 && (Feed(sys, pk) != [] ==> !Enqueues(Lookup(sys.cache, pk), Feed(sys, pk)[0]))
    ensures
      var next := DeliverAll(sys, pk);
      Feed(next, pk) == [] && next.queue == sys.queue && next.registered == sys.registered && next.owned == sys.owned
  {
    if Feed(sys, pk) != [] {
      var delivered := Deliver(sys, pk);
      assert Feed(delivered, pk) == [];
      assert DeliverAll(sys, pk) == delivered;
    }
  }

  lemma UuidSlices(s: Server, pk: PKey, o: Oracle)
    requires Inv(s) && Honest(s, pk, o)
    ensures o.get.Found? && o.get.presto.status.uuid != "" ==> Sliceable(o.get.presto.status.uuid)
  {
    ReadsFit(s, pk, o, AtEnd);
  }

  // ---------------------------------------------------------------- until the ticker

  /** No watched object that pk owns, or comes to own, is created, changed or deleted. */
  ghost predicate SparesOwned(s: Server, s': Server, pk: PKey) {
    forall k :: Watched(k) && pk in OwnersAt(s, k) + OwnersAt(s', k) ==> Stored(s, k) == Stored(s', k)
  }

  /** An event other than the ticker, a restart, or somebody's change to pk or to what it owns. */
  ghost predicate Elsewhere(sys: System, e: Event, pk: PKey) {
    Possible(sys, e) &&
    match e
    case Tick => false
    case Crash => false
    case Resync(q) => q != pk
    case Outside(step) =>
      var s' := Take(sys.server, step);
      && Allowed(sys.server, step) && SparesOwned(sys.server, s', pk)
      && Lookup(s'.prestos, pk) == Lookup(sys.server.prestos, pk)
    case Handle(q, o) => Honest(sys.server, q, o) && !Reconcile(sys.server, q, o).verdict.Panicked?
    case _ => true
  }

  lemma SparedIsNotWoken(s: Server, s': Server, pk: PKey)
    ensures pk in Woken(s, s') <==> !SparesOwned(s, s', pk)
  {
    if !SparesOwned(s, s', pk) {
      var k :| Watched(k) && pk in OwnersAt(s, k) + OwnersAt(s', k) && Stored(s, k) != Stored(s', k);
      assert k in s.objs.Keys + s'.objs.Keys;
    }
  }

  ghost predicate AllElsewhere(sys: System, es: seq<Event>, pk: PKey)
    decreases |es|
  {
    es != [] ==> Elsewhere(sys, es[0], pk) && AllElsewhere(Happen(sys, es[0]), es[1..], pk)
  }

  /** pk has nothing coming but the ticker. */
  ghost predicate Waiting(sys: System, pk: PKey) {
    && Inv(sys.server) && pk in sys.server.prestos
    && pk !in sys.queue && pk !in sys.owned && pk in sys.registered && Feed(sys, pk) == []
  }

  lemma OthersLeaveResource(s: Server, q: PKey, o: Oracle, pk: PKey)
    requires Inv(s) && Honest(s, q, o) && q != pk
    ensures Lookup(Reconcile(s, q, o).s.prestos, pk) == Lookup(s.prestos, pk)
  {
    hide Inv, Honest, RunFrom, Merge;
    if o.get.Found? {
      if o.get.presto.status.uuid == "" {
        UuidGate(s, q, o);
      } else {
        var c := PipelineEffect(s, q, o.get.presto, o);
      }
    }
  }

  lemma ElsewhereKeepsWaiting(sys: System, e: Event, pk: PKey)
    requires Waiting(sys, pk) && Elsewhere(sys, e, pk)
    ensures Waiting(Happen(sys, e), pk)
  {
    hide Inv, Honest, Reconcile, Take, Woken, SparesOwned;
    match e {
      case Outside(step) =>
        StepKeepsInv(sys.server, step);
        SparedIsNotWoken(sys.server, Take(sys.server, step), pk);
        PublishedFeed(sys, Take(sys.server, step), pk);
      case Handle(q, o) =>
        StepKeepsInv(sys.server, Call(q, o));
        OthersLeaveResource(sys.server, q, o, pk);
        RegistrationOf(sys.server, q, o);
        CallIsStep(sys.server, q, o);
        CallWakes(sys.server, q, o);
        PublishedFeed(sys, Reconcile(sys.server, q, o).s, pk);
        assert Feed(Happen(sys, e), pk) == Feed(Publish(sys, Reconcile(sys.server, q, o).s), pk);
      case _ =>
    }
  }

  lemma CallIsStep(s: Server, q: PKey, o: Oracle)
    ensures Take(s, Call(q, o)) == Reconcile(s, q, o).s
    ensures Honest(s, q, o) ==> Allowed(s, Call(q, o))
  {
  }

  /** Then only the ticker returns the resource: until it ticks, whatever happens elsewhere, pk stays off the queue. */
  lemma {:induction false} QuietUntilTick(sys: System, es: seq<Event>, pk: PKey)
    requires Waiting(sys, pk) && AllElsewhere(sys, es, pk)
    ensures
      var next := HappenAll(sys, es);
      Waiting(next, pk) && pk !in next.queue && pk in Happen(next, Tick).queue
    decreases |es|
  {
    hide Inv, Elsewhere;
    if es != [] {
      ElsewhereKeepsWaiting(sys, es[0], pk);
      QuietUntilTick(Happen(sys, es[0]), es[1..], pk);
    }
  }

  // ---------------------------------------------------------------- changes to owned objects

  /** No restart, and pk is not looked at. */
  ghost predicate Unattended(sys: System, e: Event, pk: PKey) {
    && Possible(sys, e) && !e.Crash?
    && (e.Handle? ==> e.pk != pk && !Reconcile(sys.server, e.pk, e.o).verdict.Panicked?)
  }

  ghost predicate AllUnattended(sys: System, es: seq<Event>, pk: PKey)
    decreases |es|
  {
    es != [] ==> Unattended(sys, es[0], pk) && AllUnattended(Happen(sys, es[0]), es[1..], pk)
  }

  predicate Coming(sys: System, pk: PKey) {
    pk in sys.owned || pk in sys.queue
  }

  lemma StaysComing(sys: System, e: Event, pk: PKey)
    requires Coming(sys, pk) && Unattended(sys, e, pk)
    ensures Coming(Happen(sys, e), pk)
  {
    hide Reconcile, Take, Woken, Publish;
    match e {
      case Outside(step) => PublishKeepsQueue(sys, Take(sys.server, step));
      case Handle(q, o) => PublishKeepsQueue(sys, Reconcile(sys.server, q, o).s);
      case _ =>
    }
  }

  lemma {:induction false} StaysComingThroughout(sys: System, es: seq<Event>, pk: PKey)
    requires Coming(sys, pk) && AllUnattended(sys, es, pk)
    ensures Coming(HappenAll(sys, es), pk)
    decreases |es|
  {
    hide Coming, Unattended, Happen;
    if es != [] {
      StaysComing(sys, es[0], pk);
      StaysComingThroughout(Happen(sys, es[0]), es[1..], pk);
    }
  }

  /**
   Whoever creates, changes or deletes a watched object, the operator looks at its owner again:
   until it does, the owner is queued or an event for it is on the way, and that event queues it.
   */
  lemma OwnerIsWoken(sys: System, e: Event, k: Key, pk: PKey, es: seq<Event>)
    requires Possible(sys, e) && Watched(k) && Stored(sys.server, k) != Stored(Happen(sys, e).server, k)
    requires pk in OwnersAt(sys.server, k) + OwnersAt(Happen(sys, e).server, k)
    requires e.Handle? ==> !Reconcile(sys.server, e.pk, e.o).verdict.Panicked?
    requires AllUnattended(Happen(sys, e), es, pk)
    ensures
      var next := HappenAll(Happen(sys, e), es);
      (pk in next.owned || pk in next.queue) && pk in Happen(next, OwnedDelivery(pk)).queue
  {
    hide Reconcile, Take, AllUnattended, Woken;
    ServerMoves(sys, e);
    var s' := Happen(sys, e).server;
    assert !SparesOwned(sys.server, s', pk);
    SparedIsNotWoken(sys.server, s', pk);
    StaysComingThroughout(Happen(sys, e), es, pk);
  }

  /**
   After a restart the first event for a resource queues it exactly if it owns a watched object; the
   event is spent then, and with none on the way nothing is queued.
   */
  lemma RestartQueuesOwners(sys: System, pk: PKey)
    ensures
      var once := Happen(Happen(sys, Event.Crash), OwnedDelivery(pk));
      && (pk in once.queue <==> exists k :: k in sys.server.objs && Watched(k) && pk in OwnersAt(sys.server, k))
      && pk !in once.owned
      && Happen(once, OwnedDelivery(pk)) == once
  {
    var once := Happen(Happen(sys, Event.Crash), OwnedDelivery(pk));
    assert Happen(once, OwnedDelivery(pk)).owned == once.owned;
  }

  /** Only an outside step or a call moves the server, and whom that wakes is marked. */
  lemma ServerMoves(sys: System, e: Event)
    requires e.Handle? ==> !Reconcile(sys.server, e.pk, e.o).verdict.Panicked?
    ensures
      var next := Happen(sys, e);
      next.server != sys.server ==> (e.Outside? || e.Handle?) && Woken(sys.server, next.server) <= next.owned
  {
    hide Reconcile, Take, Woken;
  }
}
