/**
 When does draining the queue end? Exactly when it never reaches a failed storage that still
 has a VM waiting to be placed. A potential over the queue and the waiting VMs bounds the
 number of steps; in the bad case the queue is never empty again.
 */
module Draining {
  import opened Types
  import opened FlatQueue
  import opened Handlers
  import opened Simulator
  import opened StepFacts
  import opened Clock
  import opened Registry
  import opened Effects
  import opened Deciding
  import opened Placement
  import opened Soundness
  import Lives
  import PowerFlow
  import HostedFirst

  // The storage has failed for good while the scheduler keeps placing some VM.
  ghost predicate Stuck(s: State) {
    !s.storage.ok && exists v :: Pending(s, v)
  }

  // ----- the potential -----

  // What a power command can still cause below a resource `k` levels above the deepest.
  function Fan(n: nat, k: nat): nat {
    if k == 0 then 2 else 2 + n * Fan(n, k - 1)
  }

  function Level(c: Config, r: UUID): nat
    requires r in c.depth
  {
    if c.depth[r] <= c.height then c.height - c.depth[r] else 0
  }

  // Enough for the event itself and everything its handling can lead to.
  function Weight(c: Config, t: Token): nat {
    match t.body
    case ResourceEvent(ty) =>
      if ty in {Boot, Shutdown} && t.to in c.depth then Fan(|c.components|, Level(c, t.to)) else 1
    case VMEvent(ty) =>
      if ty in {Start, Stop, Delete} then 3
      else if ty in {StartCompleted, StopCompleted, DeleteCompleted, Restart} then 2 else 1
    case ServerEvent(ty, _) => if ty == ProvisionVM then 4 else 1
    case StorageEvent(ty, _) => if ty == VMProvisionRequested then 6 else 1
  }

  function Weights(c: Config, q: seq<Event>): nat {
    if q == [] then 0 else Weight(c, Tok(q[0])) + Weights(c, q[1..])
  }

  // Pending VMs about which no decision is in flight.
  function Waiting(c: Config, s: State): set<UUID> {
    set v | v in s.storage.vms && Pending(s, v) && N(s, Scheduled(c, v)) == 0
  }

  function Potential(c: Config, s: State): nat {
    Weights(c, s.queue) + 5 * |Waiting(c, s)|
  }

  lemma {:induction false} WeightsConcat(c: Config, a: seq<Event>, b: seq<Event>)
    ensures Weights(c, a + b) == Weights(c, a) + Weights(c, b)
  {
    if a == [] {
      assert a + b == b;
    } else {
      assert (a + b)[1..] == a[1..] + b;
      WeightsConcat(c, a[1..], b);
    }
  }

  lemma WeightsOne(c: Config, e: Event)
    ensures Weights(c, [e]) == Weight(c, Tok(e))
  {
    assert [e][1..] == [];
  }

  lemma WeightsInsert(c: Config, q: seq<Event>, e: Event)
    ensures Weights(c, InsertBack(q, e)) == Weights(c, q) + Weight(c, Tok(e))
  {
    hide Weights, Weight;
    var k := UpTo(q, e.time);
    WeightsConcat(c, q[..k] + [e], q[k..]);
    WeightsConcat(c, q[..k], [e]);
    WeightsOne(c, e);
    WeightsConcat(c, q[..k], q[k..]);
    assert q == q[..k] + q[k..];
  }

  lemma {:induction false} WeightsInsertAll(c: Config, q: seq<Event>, es: seq<Event>)
    ensures Weights(c, InsertAllBack(q, es)) == Weights(c, q) + Weights(c, es)
  {
    if es == [] {
      assert Weights(c, es) == 0;
    } else {
      hide Weights, Weight, InsertBack;
      var init, last := es[..|es| - 1], es[|es| - 1];
      WeightsInsertAll(c, q, init);
      WeightsInsert(c, InsertAllBack(q, init), last);
      WeightsConcat(c, init, [last]);
      WeightsOne(c, last);
      assert es == init + [last];
    }
  }

  lemma {:induction false} WeightsUniform(c: Config, q: seq<Event>, w: nat)
    requires forall i :: 0 <= i < |q| ==> Weight(c, Tok(q[i])) == w
    ensures Weights(c, q) == |q| * w
  {
    hide Weight;
    if q != [] {
      WeightsUniform(c, q[1..], w);
    }
  }

  // ----- one dispatch -----

  lemma {:induction false} NoMoreThan(a: seq<UUID>, s: set<UUID>)
    requires Distinct(a) && forall x :: x in a ==> x in s
    ensures |a| <= |s|
  {
    if a != [] {
      assert a == [a[0]] + a[1..];
      assert a[0] !in a[1..];
      NoMoreThan(a[1..], s - {a[0]});
    }
  }

  lemma ComponentFacts(c: Config, r: UUID, x: UUID)
    requires WellFormed(c) && r in c.components && x in c.components[r]
    ensures x in c.components && x in c.depth && r in c.depth && c.depth[x] == c.depth[r] + 1 <= c.height
  {
    assert x in c.parent;
  }

  // The commands a power command fans out to weigh less than it does.
  lemma FanOut(c: Config, r: UUID, order: seq<UUID>, t: int, ty: ResourceEventType)
    requires WellFormed(c) && r in c.components && Enumerates(order, c.components[r]) && ty in {Boot, Shutdown}
    ensures Weights(c, Broadcast(order, t, ty)) + 1 < Weight(c, ToResource(r, ty))
  {
    hide WellFormed, Weights;
    var n, b := |c.components|, Broadcast(order, t, ty);
    if order == [] {
      assert b == [];
      FanWeight(c, r, ty);
    } else {
      assert order[0] in order;
      ComponentFacts(c, r, order[0]);
      var w := Fan(n, Level(c, r) - 1);
      forall i | 0 <= i < |b|
        ensures Weight(c, Tok(b[i])) == w
      {
        assert order[i] in order;
        ComponentFacts(c, r, order[i]);
        FanWeight(c, order[i], ty);
        hide Broadcast;
      }
      hide Fan, Weight, Broadcast, Level;
      WeightsUniform(c, b, w);
      forall x | x in order
        ensures x in c.components.Keys
      {
        ComponentFacts(c, r, x);
      }
      NoMoreThan(order, c.components.Keys);
      Product(|b|, n, w);
      FanWeight(c, r, ty);
      FanUnrolls(n, Level(c, r));
      assert Level(c, r) > 0 by { LevelPositive(c, r, order[0]); }
    }
    assert Weights(c, []) == 0 by { NoWeight(c); }
  }

  lemma NoWeight(c: Config)
    ensures Weights(c, []) == 0
  {}

  lemma LevelPositive(c: Config, r: UUID, x: UUID)
    requires x in c.depth && r in c.depth && c.depth[x] == c.depth[r] + 1 <= c.height
    ensures Level(c, r) > 0
  {}

  lemma FanUnrolls(n: nat, k: nat)
    ensures Fan(n, k) == if k == 0 then 2 else 2 + n * Fan(n, k - 1)
  {}

  lemma FanWeight(c: Config, r: UUID, ty: ResourceEventType)
    requires WellFormed(c) && r in c.components && ty in {Boot, Shutdown}
    ensures r in c.depth && Weight(c, ToResource(r, ty)) == Fan(|c.components|, Level(c, r)) >= 2
  {
    hide Level;
  }

  lemma Product(a: nat, b: nat, w: nat)
    requires a <= b
    ensures a * w <= b * w
  {}

  lemma SpawnWeight(c: Config, s: State)
    requires s.queue != []
    ensures Spawn(c, s) != [] ==> |Spawn(c, s)| == 1 && Weight(c, Spawn(c, s)[0]) < Weight(c, Tok(s.queue[0]))
  {
    hide Fan, Level;
  }

  // What handling the head schedules weighs less than the head.
  lemma OutWeight(c: Config, s: State, ord: Order)
    requires WellFormed(c) && Known(c, s) && ValidOrder(ord) && s.queue != []
    ensures Weights(c, Out(c, s, ord)) < Weight(c, Tok(s.queue[0]))
  {
    var e, out := s.queue[0], Out(c, s, ord);
    if e.body.ResourceEvent? {
      PowerOutWeight(c, s, ord);
    } else {
      OutShape(c, s, ord);
      if out == [] {
        assert Weights(c, out) == 0;
      } else {
        EmitsSpawn(c, s, ord, Tok(out[0]));
        hide Out, Spawn, Known, WellFormed, Weight;
        SpawnWeight(c, s);
        assert out == [out[0]];
        WeightsOne(c, out[0]);
      }
    }
  }

  lemma PowerOutWeight(c: Config, s: State, ord: Order)
    requires WellFormed(c) && Known(c, s) && ValidOrder(ord) && s.queue != [] && s.queue[0].body.ResourceEvent?
    ensures Weights(c, Out(c, s, ord)) < Weight(c, Tok(s.queue[0]))
  {
    hide Out, Known, Fan, Level, PowerFlow.PowerDelay, WellFormed, Weight, Weights, Broadcast;
    var e := s.queue[0];
    PowerFlow.OutPower(c, s, ord);
    if PowerFlow.Fires(c, s) {
      var ty := e.body.resourceType;
      var t := e.time + PowerFlow.PowerDelay(c, e.to, ty);
      var order := ord(c.components[e.to]);
      assert Enumerates(order, c.components[e.to]);
      hide Enumerates;
      FanOut(c, e.to, order, t, ty);
      var fin := Event(t, e.to, ResourceEvent(PowerFlow.Finish(ty)));
      WeightsConcat(c, Broadcast(order, t, ty), [fin]);
      WeightsOne(c, fin);
      FinishWeight(c, fin);
    } else {
      NoWeight(c);
      WeighsSomething(c, Tok(e));
    }
  }

  lemma FinishWeight(c: Config, e: Event)
    requires e.body == ResourceEvent(BootFinished) || e.body == ResourceEvent(ShutdownFinished)
    ensures Weight(c, Tok(e)) == 1
  {}

  lemma WeighsSomething(c: Config, t: Token)
    ensures Weight(c, t) >= 1
  {}

  // Only a provision request can make one more VM wait.
  lemma WaitingAfter(c: Config, s: State, ord: Order, v: UUID)
    requires WellFormed(c) && Known(c, s) && s.queue != [] && !Stuck(Dispatch(c, s, ord))
    requires v in Waiting(c, Dispatch(c, s, ord))
    ensures v in Waiting(c, s) || Tok(s.queue[0]) == Requested(c, v)
  {
    var d := Dispatch(c, s, ord);
    assert Pending(d, v);
    assert d.storage.ok;
    hide Dispatch, Known, N, L, Spawn, Stuck, WellFormed;
    StatusAfter(c, s, ord, v);
    TokenAfter(c, s, ord, Scheduled(c, v));
    EmitsNoDecision(c, s, v);
  }

  lemma WaitingGrows(c: Config, s: State, ord: Order)
    requires WellFormed(c) && Known(c, s) && s.queue != [] && !Stuck(Dispatch(c, s, ord))
    ensures var e := s.queue[0];
            |Waiting(c, Dispatch(c, s, ord))| <=
            |Waiting(c, s)| + if e.body.StorageEvent? && e.body.storageType == VMProvisionRequested then 1 else 0
  {
    hide Dispatch, Known, Stuck, WellFormed, Waiting;
    var w, w', e := Waiting(c, s), Waiting(c, Dispatch(c, s, ord)), s.queue[0];
    forall v | v in w'
      ensures v in w || Tok(e) == Requested(c, v)
    {
      WaitingAfter(c, s, ord, v);
    }
    if e.body.StorageEvent? && e.body.storageType == VMProvisionRequested {
      assert w' <= w + {e.body.vm};
      Subset(w', w + {e.body.vm});
    } else {
      assert w' <= w;
      Subset(w', w);
    }
  }

  lemma {:induction false} Subset(a: set<UUID>, b: set<UUID>)
    requires a <= b
    ensures |a| <= |b|
  {
    if a != {} {
      var x :| x in a;
      Subset(a - {x}, b - {x});
    }
  }

  lemma DispatchLosesPotential(c: Config, s: State, ord: Order)
    requires WellFormed(c) && Known(c, s) && ValidOrder(ord) && s.queue != [] && !Stuck(Dispatch(c, s, ord))
    ensures Potential(c, Dispatch(c, s, ord)) < Potential(c, s)
  {
    DispatchShape(c, s, ord);
    hide Dispatch, Known, Stuck, WellFormed, Waiting, Out, Handled, InsertAllBack;
    OutWeight(c, s, ord);
    WaitingGrows(c, s, ord);
    WeightsInsertAll(c, s.queue[1..], Out(c, s, ord));
    if s.queue[0].body.StorageEvent? {
      StorageOutEmpty(c, s, ord);
    }
  }

  lemma StorageOutEmpty(c: Config, s: State, ord: Order)
    requires WellFormed(c) && Known(c, s) && s.queue != [] && s.queue[0].body.StorageEvent?
    ensures Weights(c, Out(c, s, ord)) == 0
  {
    hide Out, Spawn, Known, WellFormed;
    OutSpawned(c, s, ord);
    SpawnsNothing(c, s);
  }

  lemma SpawnsNothing(c: Config, s: State)
    requires s.queue != [] && s.queue[0].body.StorageEvent?
    ensures Spawn(c, s) == []
  {}

  // ----- one world update -----

  lemma {:induction false} SetOfDistinct(a: seq<UUID>, s: set<UUID>)
    requires Distinct(a) && forall x :: x in a <==> x in s
    ensures |a| == |s|
  {
    if a != [] {
      assert a == [a[0]] + a[1..];
      assert a[0] !in a[1..];
      SetOfDistinct(a[1..], s - {a[0]});
    }
  }

  // A world update turns the charge of each waiting VM into the events that place it.
  lemma UpdateKeepsPotential(c: Config, d: State, ord: Order)
    requires WellFormed(c) && ValidOrder(ord) && DecisionsLead(d.queue, d.now)
    requires forall i :: 0 <= i < |d.queue| ==> d.now < d.queue[i].time
    ensures Potential(c, Tick(UpdateWorld(c, d, ord))) == Potential(c, d)
  {
    var s', p := Tick(UpdateWorld(c, d, ord)), Placing(c, d, ord);
    UpdateShape(c, d, ord);
    PlacingEnumerates(c, d, ord);
    hide UpdateWorld, Placing, WellFormed;
    forall v
      ensures v in p <==> v in Waiting(c, d)
      ensures v !in Waiting(c, s')
    {
      hide DecisionsLead, N;
      WaitingUpdate(c, d, ord, v);
    }
    hide N, DecisionsLead;
    assert Waiting(c, s') == {};
    SetOfDistinct(p, Waiting(c, d));
    hide Waiting;
    PlacementWeights(c, d.now, p);
    WeightsConcat(c, Decisions(c, d.now, p) + Placements(c, d.now, p), d.queue);
    hide Decisions, Placements, Weights;
  }

  lemma WaitingUpdate(c: Config, d: State, ord: Order, v: UUID)
    requires WellFormed(c) && ValidOrder(ord) && DecisionsLead(d.queue, d.now)
    requires forall i :: 0 <= i < |d.queue| ==> d.now < d.queue[i].time
    ensures v in Waiting(c, d) <==> Pending(d, v)
    ensures v !in Waiting(c, Tick(UpdateWorld(c, d, ord)))
  {
    hide UpdateWorld, N, DecisionsLead, WellFormed;
    NoneInFlight(c, d, v);
    Lives.UpdateActors(c, d, ord);
    Lives.UpdateSends(c, d, ord, v);
  }

  lemma PlacementWeights(c: Config, t: int, p: seq<UUID>)
    ensures Weights(c, Decisions(c, t, p) + Placements(c, t, p)) == 5 * |p|
  {
    hide Weights, Decisions, Placements;
    WeightsUniform(c, Decisions(c, t, p), 1);
    WeightsUniform(c, Placements(c, t, p), 4);
    WeightsConcat(c, Decisions(c, t, p), Placements(c, t, p));
  }

  // ----- draining -----

  // Every step that does not get stuck loses potential, so at most that many steps remain.
  lemma StepLosesPotential(c: Config, s: State, ord: Order)
    requires WellFormed(c) && ValidOrder(ord) && Sound(c, s) && s.queue != [] && !Stuck(Step(c, s, ord))
    ensures Potential(c, Step(c, s, ord)) < Potential(c, s)
  {
    SoundDispatch(c, s, ord);
    var d := Dispatch(c, s, ord);
    assert DecisionsLead(d.queue, d.now);
    hide Dispatch, UpdateWorld, Known, Lives.Alive, AllTraced, PowerFlow.AllPowering, HostedFirst.InOrder, WellFormed,
        Potential, DecisionsLead;
    if BucketEmpty(d) {
      DryMeansLater(d);
      Lives.UpdateActors(c, d, ord);
      UpdateKeepsPotential(c, d, ord);
      assert forall v :: Pending(d, v) == Pending(Step(c, s, ord), v);
    }
    assert !Stuck(d);
    DispatchLosesPotential(c, s, ord);
  }

  // A failed storage never changes again.
  lemma StuckForGood(c: Config, s: State, ord: Order)
    requires WellFormed(c) && ValidOrder(ord) && Sound(c, s) && Stuck(s)
    ensures s.queue != [] && Stuck(Step(c, s, ord))
  {
    SoundDispatch(c, s, ord);
    StorageAfter(c, s, ord);
    hide Dispatch, UpdateWorld, Known, Lives.Alive, AllTraced, PowerFlow.AllPowering, HostedFirst.InOrder, WellFormed,
        DecisionsOrderly;
    var d := Dispatch(c, s, ord);
    if BucketEmpty(d) {
      DryMeansLater(d);
      Lives.UpdateActors(c, d, ord);
    }
    var v :| Pending(s, v);
    assert Pending(Step(c, s, ord), v);
  }

  lemma {:induction false} DrainSound(c: Config, s: State, ords: nat -> Order, n: nat)
    requires WellFormed(c) && Sound(c, s) && ValidOrders(ords)
    ensures Sound(c, Drain(c, s, ords, n))
  {
    hide Sound, Step, WellFormed;
    if n != 0 {
      DrainSound(c, s, ords, n - 1);
      SoundStep(c, Drain(c, s, ords, n - 1), ords(n - 1));
    }
  }

  // Draining leads from reachable states to reachable states only.
  lemma {:induction false} ReachableDrain(c: Config, s: State, ords: nat -> Order, n: nat)
    requires Reachable(c, s) && ValidOrders(ords)
    ensures Reachable(c, Drain(c, s, ords, n))
  {
    hide Step, ValidOrder, Reachable;
    if n != 0 {
      ReachableDrain(c, s, ords, n - 1);
      ReachableNext(c, Drain(c, s, ords, n - 1), Sim(ords(n - 1)));
    }
  }

  // The orders left once the first step has been taken.
  function Later(ords: nat -> Order): nat -> Order {
    (i: nat) => ords(i + 1)
  }

  // A drain is its first step followed by a drain.
  lemma {:induction false} DrainFirst(c: Config, s: State, ords: nat -> Order, n: nat)
    ensures Drain(c, s, ords, n + 1) == Drain(c, Step(c, s, ords(0)), Later(ords), n)
    ensures ValidOrders(ords) ==> ValidOrders(Later(ords))
  {
    hide Step, ValidOrder;
    if n != 0 {
      DrainFirst(c, s, ords, n - 1);
    }
  }

  lemma {:induction false} DrainSettles(c: Config, s: State, ords: nat -> Order, m: nat, n: nat)
    requires m <= n && Drain(c, s, ords, m).queue == []
    ensures Drain(c, s, ords, n) == Drain(c, s, ords, m)
  {
    if m < n {
      DrainSettles(c, s, ords, m, n - 1);
    }
  }

  lemma {:induction false} DrainStuck(c: Config, s: State, ords: nat -> Order, m: nat, n: nat)
    requires WellFormed(c) && Sound(c, s) && ValidOrders(ords) && m <= n && Stuck(Drain(c, s, ords, m))
    ensures Drain(c, s, ords, n).queue != [] && Stuck(Drain(c, s, ords, n))
  {
    hide Sound, Step, WellFormed, Stuck;
    DrainSound(c, s, ords, n);
    StuckForGood(c, Drain(c, s, ords, if n == m then m else n - 1), ords(if n == m then m else n - 1)) by {
      if m < n {
        DrainStuck(c, s, ords, m, n - 1);
        DrainSound(c, s, ords, n - 1);
      }
    }
    if m < n {
      StuckForGood(c, Drain(c, s, ords, n), ords(n));
    }
  }

  lemma {:induction false} DrainSpends(c: Config, s: State, ords: nat -> Order, n: nat)
    requires WellFormed(c) && Sound(c, s) && ValidOrders(ords)
    requires forall k: nat :: k <= n ==> !Stuck(Drain(c, s, ords, k))
    ensures Drain(c, s, ords, n).queue == [] || Potential(c, Drain(c, s, ords, n)) + n <= Potential(c, s)
  {
    hide Sound, Step, WellFormed, Stuck, Potential;
    if n != 0 {
      DrainSpends(c, s, ords, n - 1);
      var prev := Drain(c, s, ords, n - 1);
      if prev.queue == [] {
        DrainSettles(c, s, ords, n - 1, n);
      } else {
        DrainSound(c, s, ords, n - 1);
        assert !Stuck(Drain(c, s, ords, n));
        StepLosesPotential(c, prev, ords(n - 1));
      }
    }
  }

  // Draining never stuck ends, within as many steps as there is potential.
  lemma DrainBound(c: Config, s: State, ords: nat -> Order)
    requires WellFormed(c) && Sound(c, s) && ValidOrders(ords)
    requires forall k: nat :: !Stuck(Drain(c, s, ords, k))
    ensures Drain(c, s, ords, Potential(c, s)).queue == []
  {
    hide Sound, WellFormed, Stuck;
    DrainSpends(c, s, ords, Potential(c, s));
    EmptyWithoutPotential(c, Drain(c, s, ords, Potential(c, s)));
  }

  lemma EmptyWithoutPotential(c: Config, s: State)
    ensures s.queue != [] ==> Potential(c, s) >= 1
  {
    if s.queue != [] {
      WeighsSomething(c, Tok(s.queue[0]));
      hide Weight;
    }
  }

  // Once stuck the queue has never been, and never will be, empty.
  lemma StuckNeverEmpty(c: Config, s: State, ords: nat -> Order, m: nat, n: nat)
    requires WellFormed(c) && Sound(c, s) && ValidOrders(ords) && Stuck(Drain(c, s, ords, m))
    ensures Drain(c, s, ords, n).queue != []
  {
    hide Sound, WellFormed, Stuck, Drain;
    if m <= n {
      DrainStuck(c, s, ords, m, n);
    } else if Drain(c, s, ords, n).queue == [] {
      DrainSettles(c, s, ords, n, m);
      DrainStuck(c, s, ords, m, m);
    }
  }

  // The drain comes to an empty queue after some number of steps.
  ghost predicate Ends(c: Config, s: State, ords: nat -> Order) {
    exists n: nat :: Drain(c, s, ords, n).queue == []
  }

  ghost predicate GetsStuck(c: Config, s: State, ords: nat -> Order) {
    exists n: nat :: Stuck(Drain(c, s, ords, n))
  }

  lemma EndsUnlessStuck(c: Config, s: State, ords: nat -> Order)
    requires WellFormed(c) && Sound(c, s) && ValidOrders(ords)
    ensures GetsStuck(c, s, ords) || Ends(c, s, ords)
  {
    hide Sound, WellFormed, Stuck, Drain, ValidOrders, Potential;
    if !GetsStuck(c, s, ords) {
      DrainBound(c, s, ords);
    }
  }

  lemma NeverEndsOnceStuck(c: Config, s: State, ords: nat -> Order)
    requires WellFormed(c) && Sound(c, s) && ValidOrders(ords) && GetsStuck(c, s, ords)
    ensures !Ends(c, s, ords)
  {
    hide Sound, WellFormed, Stuck, Drain, ValidOrders;
    var m: nat :| Stuck(Drain(c, s, ords, m));
    forall n: nat
      ensures Drain(c, s, ords, n).queue != []
    {
      StuckNeverEmpty(c, s, ords, m, n);
    }
  }

  // `SimulateAll` returns, whatever the iteration orders, exactly when its drain never reaches
  // a failed storage with a VM still pending.
  lemma DrainEndsIffNeverStuck(c: Config, s: State, ords: nat -> Order)
    requires WellFormed(c) && Reachable(c, s) && ValidOrders(ords)
    ensures Ends(c, s, ords) <==> !GetsStuck(c, s, ords)
  {
    ReachableIsSound(c, s);
    hide Sound, WellFormed, Reachable, ValidOrders, Ends, GetsStuck;
    EndsUnlessStuck(c, s, ords);
    if GetsStuck(c, s, ords) {
      NeverEndsOnceStuck(c, s, ords);
    }
  }

  // Whether a drain ends can be seen after as many steps as there is potential before it.
  lemma EndsIffEmptyInTime(c: Config, s: State, ords: nat -> Order)
    requires WellFormed(c) && Sound(c, s) && ValidOrders(ords)
    ensures Ends(c, s, ords) <==> Drain(c, s, ords, Potential(c, s)).queue == []
  {
    hide Sound, WellFormed, Stuck, Drain, ValidOrders, Potential;
    if Ends(c, s, ords) {
      if GetsStuck(c, s, ords) {
        NeverEndsOnceStuck(c, s, ords);
      }
      DrainBound(c, s, ords);
    }
  }

  // And so can whether it gets stuck.
  lemma StuckIffStuckInTime(c: Config, s: State, ords: nat -> Order)
    requires WellFormed(c) && Sound(c, s) && ValidOrders(ords)
    ensures GetsStuck(c, s, ords) <==> Stuck(Drain(c, s, ords, Potential(c, s)))
  {
    hide Sound, WellFormed, Stuck, Drain, ValidOrders, Potential;
    var bound := Potential(c, s);
    if GetsStuck(c, s, ords) {
      var m: nat :| Stuck(Drain(c, s, ords, m));
      if k: nat :| k <= bound && Stuck(Drain(c, s, ords, k)) {
        DrainStuck(c, s, ords, k, bound);
      } else {
        StuckNeverEmpty(c, s, ords, m, bound);
        DrainSpends(c, s, ords, bound);
        EmptyWithoutPotential(c, Drain(c, s, ords, bound));
      }
    }
  }
}
