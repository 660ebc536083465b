/** The work queue and convergence together: whatever brings the resource back, its calls reach the desired state. */
module Attention {
  import opened PrestoTypes
  import opened Pipeline
  import opened Invariants
  import opened Reads
  import opened Readiness
  import opened Calls
  import opened Convergence
  import opened Witness
  import opened Watch

  /** Deliveries, ticks, resyncs and restarts as they come, and undisturbed calls for pk. */
  ghost predicate Tends(sys: System, e: Event, pk: PKey) {
    Possible(sys, e) &&
    match e
    case Outside(_) => false
    case Handle(q, o) => q == pk && CalmAnswers(sys.server, pk, o)
    case _ => true
  }

  ghost predicate Tended(sys: System, es: seq<Event>, pk: PKey)
    decreases |es|
  {
    es != [] ==> Tends(sys, es[0], pk) && Tended(Happen(sys, es[0]), es[1..], pk)
  }

  /** The calls among the events. */
  function Handled(es: seq<Event>): seq<Oracle> {
    if es == [] then [] else (if es[0].Handle? then [es[0].o] else []) + Handled(es[1..])
  }

  lemma EventMovesServer(sys: System, e: Event, pk: PKey)
    requires Tends(sys, e, pk)
    ensures Happen(sys, e).server == if e.Handle? then Reconcile(sys.server, pk, e.o).s else sys.server
  {
    hide Reconcile, CalmAnswers;
  }

  /** Whatever the schedule, the server goes through an undisturbed run of the calls in it. */
  lemma {:induction false} TendedIsCalm(sys: System, es: seq<Event>, pk: PKey)
    requires Tended(sys, es, pk)
    ensures CalmRun(sys.server, pk, Handled(es))
    ensures HappenAll(sys, es).server == CalmEnd(sys.server, pk, Handled(es))
    decreases |es|
  {
    hide Reconcile, CalmAnswers, Happen, Possible;
    if es != [] {
      EventMovesServer(sys, es[0], pk);
      TendedIsCalm(Happen(sys, es[0]), es[1..], pk);
      if es[0].Handle? {
        assert Handled(es)[0] == es[0].o && Handled(es)[1..] == Handled(es[1..]);
      } else {
        assert Handled(es) == Handled(es[1..]);
      }
    }
  }

  /**
   Every schedule that handles pk often enough, restarts included, reaches the desired state with one
   major write per missing thing, if and only if the headless service was not lost to begin with.
   */
  lemma TendedConverges(sys: System, es: seq<Event>, pk: PKey)
    requires Undisturbed(sys.server, pk) && Tended(sys, es, pk) && |Handled(es)| >= Measure(sys.server, pk)
    ensures
      var t := HappenAll(sys, es).server;
      && MajorCount(t.log) == MajorCount(sys.server.log) + Measure(sys.server, pk)
      && (Desired(t, pk) <==> !HeadlessLost(sys.server, UuidAt(sys.server, pk)))
  {
    hide Inv, NamesFree, AtMostOne, Comparable, Tended, CalmRun, CalmEnd, Desired, HeadlessLost, Missing, MajorCount;
    TendedIsCalm(sys, es, pk);
    Converges(sys.server, pk, Handled(es));
  }

  // ---------------------------------------------------------------- there is always a next call

  function Deliveries(n: nat, pk: PKey): seq<Event> {
    seq(n, i requires 0 <= i < n => Delivery(pk))
  }

  lemma {:induction false} DeliveriesDeliver(sys: System, pk: PKey)
    ensures
      var es := Deliveries(|Feed(sys, pk)|, pk);
      && Tended(sys, es, pk) && Handled(es) == [] && AllPossible(sys, es)
      && HappenAll(sys, es) == DeliverAll(sys, pk)
    decreases |Feed(sys, pk)|
  {
    if Feed(sys, pk) != [] {
      var es := Deliveries(|Feed(sys, pk)|, pk);
      assert Feed(Deliver(sys, pk), pk) == Feed(sys, pk)[1..];
      assert es[0] == Delivery(pk) && es[1..] == Deliveries(|Feed(sys, pk)| - 1, pk);
      DeliveriesDeliver(Deliver(sys, pk), pk);
    }
  }

  /** Once its feed is delivered the next tick queues the resource, and the cache shows it as it is. */
  lemma TickReturns(sys: System, pk: PKey)
    requires Attentive(sys) && pk in sys.server.prestos
    ensures
      var next := Happen(DeliverAll(sys, pk), Tick);
      && Attentive(next) && next.server == sys.server && pk in next.queue
      && forall o: Oracle :: o.get == Found(sys.server.prestos[pk]) ==> Possible(next, Handle(pk, o))
  {
    hide DeliverAll, Attentive;
    DeliveryWakes(sys, pk);
    EventAttentive(DeliverAll(sys, pk), Tick);
  }

  lemma {:induction false} HandledJoined(a: seq<Event>, b: seq<Event>)
    ensures Handled(a + b) == Handled(a) + Handled(b)
  {
    if a == [] {
      assert a + b == b;
    } else {
      var first := if a[0].Handle? then [a[0].o] else [];
      assert (a + b)[0] == a[0] && (a + b)[1..] == a[1..] + b;
      HandledJoined(a[1..], b);
      assert first + (Handled(a[1..]) + Handled(b)) == (first + Handled(a[1..])) + Handled(b);
    }
  }

  lemma {:induction false} TendedJoined(sys: System, a: seq<Event>, b: seq<Event>, pk: PKey)
    requires Tended(sys, a, pk) && Tended(HappenAll(sys, a), b, pk)
    ensures Tended(sys, a + b, pk)
    ensures HappenAll(sys, a + b) == HappenAll(HappenAll(sys, a), b)
    decreases |a|
  {
    hide Tends, Happen;
    if a == [] {
      assert a + b == b;
    } else {
      assert (a + b)[1..] == a[1..] + b;
      TendedJoined(Happen(sys, a[0]), a[1..], b, pk);
    }
  }

  /** One round: deliver what there is, tick, and handle pk. */
  lemma OneRound(sys: System, pk: PKey, o: Oracle) returns (es: seq<Event>)
    requires Attentive(sys) && Undisturbed(sys.server, pk) && CalmAnswers(sys.server, pk, o)
    ensures Tended(sys, es, pk) && Handled(es) == [o] && Attentive(HappenAll(sys, es))
    ensures HappenAll(sys, es).server == Reconcile(sys.server, pk, o).s
  {
    hide Inv, NamesFree, Comparable, AtMostOne, ValidSpec, Honest, FreshLists, AcceptsAll, Attentive, Reconcile;
    hide DeliverAll, Deliveries;
    var first, last := Deliveries(|Feed(sys, pk)|, pk), [Tick, Handle(pk, o)];
    DeliveriesDeliver(sys, pk);
    TickReturns(sys, pk);
    var ready := Happen(DeliverAll(sys, pk), Tick);
    HandledNext(DeliverAll(sys, pk), ready, pk, o);
    TendedJoined(sys, first, last, pk);
    HandledJoined(first, last);
    es := first + last;
    EventAttentive(ready, Handle(pk, o));
  }

  lemma HandledNext(sys: System, ready: System, pk: PKey, o: Oracle)
    requires ready == Happen(sys, Tick) && Possible(ready, Handle(pk, o)) && CalmAnswers(ready.server, pk, o)
    ensures
      var es := [Tick, Handle(pk, o)];
      && Tended(sys, es, pk) && Handled(es) == [o]
      && HappenAll(sys, es) == Happen(ready, Handle(pk, o))
      && HappenAll(sys, es).server == Reconcile(ready.server, pk, o).s
  {
    hide CalmAnswers, Reconcile;
    var es, last := [Tick, Handle(pk, o)], [Handle(pk, o)];
    assert es[0] == Tick && es[1..] == last && last[0] == Handle(pk, o) && last[1..] == [];
    assert Handled(last) == [o];
    EventMovesServer(ready, Handle(pk, o), pk);
    assert Tended(ready, last, pk);
    assert HappenAll(ready, last) == Happen(ready, Handle(pk, o));
  }

  lemma {:induction false} SomeTendedRun(sys: System, pk: PKey, plan: Plan, drawn: string, suffix: string, n: nat)
    returns (es: seq<Event>)
    requires Attentive(sys) && Undisturbed(sys.server, pk) && ValidPlan(plan) && plan.ports != []
    requires Provided(sys.server, pk, drawn, suffix)
    ensures Tended(sys, es, pk) && |Handled(es)| == n
    decreases n
  {
    hide Attentive, Inv, NamesFree, Comparable, AtMostOne, ValidSpec, Reconcile, CalmAnswers, Provided, Tended, Handled;
    if n == 0 {
      es := [];
      NothingTended(sys, pk);
    } else {
      var s := sys.server;
      var o := CalmOracle(s, s.prestos[pk], drawn, suffix, plan);
      SomeCalmAnswers(s, pk, plan, drawn, suffix);
      CalmStaysUndisturbed(s, pk, o);
      StaysProvided(s, pk, o, suffix);
      var round := OneRound(sys, pk, o);
      var rest := SomeTendedRun(HappenAll(sys, round), pk, plan, drawn, suffix, n - 1);
      TendedJoined(sys, round, rest, pk);
      HandledJoined(round, rest);
      es := round + rest;
    }
  }

  lemma NothingTended(sys: System, pk: PKey)
    ensures Tended(sys, [], pk) && Handled([]) == []
  {
  }

  /**
   From wherever the system has got to, deliveries, ticks and undisturbed calls for the resource, which
   the queue lets through one after the other, reach the desired state.
   */
  lemma TickerConverges(es: seq<Event>, pk: PKey, plan: Plan, drawn: string, suffix: string) returns (more: seq<Event>)
    requires AllPossible(BOOT, es) && ValidPlan(plan) && plan.ports != []
    requires
      var s := HappenAll(BOOT, es).server;
      Undisturbed(s, pk) && !HeadlessLost(s, UuidAt(s, pk)) && Provided(s, pk, drawn, suffix)
    ensures
      var sys := HappenAll(BOOT, es);
      && Tended(sys, more, pk) && |Handled(more)| == Measure(sys.server, pk)
      && Desired(HappenAll(sys, more).server, pk)
  {
    hide Attentive, Inv, NamesFree, Comparable, AtMostOne, Provided, Tended, Handled, Desired, HeadlessLost, Missing;
    var sys := HappenAll(BOOT, es);
    BootAttentive();
    AlwaysAttentive(BOOT, es);
    more := SomeTendedRun(sys, pk, plan, drawn, suffix, Measure(sys.server, pk));
    TendedConverges(sys, more, pk);
  }

  lemma BootAttentive()
    ensures Attentive(BOOT)
  {
  }
}
