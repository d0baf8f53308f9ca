/**
 The first instant of a drain, without the resources. Whether a drain gets stuck depends on the
 storage and the VMs alone, and on what they hear before the first world update: they can be
 played through by themselves, and where that leads is the same before and after every step.
 */
module FirstInstant {
  import opened Types
  import opened FlatQueue
  import opened Handlers
  import opened Simulator
  import opened StepFacts
  import opened Clock
  import opened Registry
  import opened Effects
  import opened Deciding
  import opened Soundness
  import opened Draining
  import opened Batches
  import opened FirstUpdate
  import Confluence

  datatype Scene = Scene(vms: map<UUID, VMData>, storage: Storage)

  function SceneOf(s: State): Scene {
    Scene(s.vms, s.storage)
  }

  // The storage or a VM handles one event.
  function Meet(c: Config, a: Scene, e: Event): (Scene, seq<Event>) {
    if e.to == c.storage then (a.(storage := StorageReact(a.storage, e)), [])
    else if e.to in a.vms then
      var (vm, out) := VMReact(e.to, a.vms[e.to], DelaysOf(c, e.to), e);
      (a.(vms := a.vms[e.to := vm]), out)
    else (a, [])
  }

  // What is due at `t` and not for a resource.
  function DueHere(c: Config, t: int, q: seq<Event>): seq<Event> {
    if q == [] then []
    else (if q[0].time == t && q[0].to !in c.components then [q[0]] else []) + DueHere(c, t, q[1..])
  }

  lemma {:induction false} DueHereConcat(c: Config, t: int, a: seq<Event>, b: seq<Event>)
    ensures DueHere(c, t, a + b) == DueHere(c, t, a) + DueHere(c, t, b)
  {
    if a == [] {
      assert a + b == b;
    } else {
      assert (a + b)[1..] == a[1..] + b;
      DueHereConcat(c, t, a[1..], b);
    }
  }

  lemma {:induction false} NothingDueHere(c: Config, t: int, q: seq<Event>)
    requires forall e :: e in q ==> e.time != t || e.to in c.components
    ensures DueHere(c, t, q) == []
  {
    if q != [] {
      NothingDueHere(c, t, q[1..]);
    }
  }

  lemma {:induction false} DueHereWeighs(c: Config, t: int, q: seq<Event>)
    ensures Weights(c, DueHere(c, t, q)) <= Weights(c, q)
  {
    hide Weight;
    if q != [] {
      DueHereWeighs(c, t, q[1..]);
      var rest := DueHere(c, t, q[1..]);
      assert ([q[0]] + rest)[1..] == rest;
      assert [] + rest == rest;
    }
  }

  lemma MeetLightens(c: Config, a: Scene, e: Event)
    ensures Weights(c, Meet(c, a, e).1) < Weight(c, Tok(e))
  {
    hide DelaysOf, Fan, Level;
    var out := Meet(c, a, e).1;
    if out == [] {
      WeighsSomething(c, Tok(e));
    } else {
      assert out == [out[0]];
      WeightsOne(c, out[0]);
      hide Weights;
    }
  }

  lemma Lightens(c: Config, t: int, a: Scene, q: seq<Event>)
    requires q != []
    ensures Weights(c, q[1..] + DueHere(c, t, Meet(c, a, q[0]).1)) < Weights(c, q)
  {
    hide Meet, DueHere, Weight;
    MeetLightens(c, a, q[0]);
    DueHereWeighs(c, t, Meet(c, a, q[0]).1);
    WeightsConcat(c, q[1..], DueHere(c, t, Meet(c, a, q[0]).1));
  }

  // The scene once everything due at `t` has been played.
  function Settled(c: Config, t: int, a: Scene, q: seq<Event>): Scene
    decreases Weights(c, q)
  {
    if q == [] then a
    else
      Lightens(c, t, a, q);
      Settled(c, t, Meet(c, a, q[0]).0, q[1..] + DueHere(c, t, Meet(c, a, q[0]).1))
  }

  // Where the instant `t` leads the storage and the VMs.
  function Fate(c: Config, t: int, s: State): Scene {
    Settled(c, t, SceneOf(s), DueHere(c, t, s.queue))
  }

  // ----- one dispatch -----

  lemma DueHereInsert(c: Config, t: int, q: seq<Event>, e: Event)
    requires Sorted(q) && t <= e.time
    ensures DueHere(c, t, InsertBack(q, e)) == DueHere(c, t, q) + DueHere(c, t, [e])
  {
    hide DueHere;
    var k := UpTo(q, e.time);
    SplitMembers(q, e.time);
    NothingDueHere(c, t, q[k..]);
    DueHereConcat(c, t, q[..k] + [e], q[k..]);
    DueHereConcat(c, t, q[..k], [e]);
    DueHereConcat(c, t, q[..k], q[k..]);
  }

  lemma {:induction false} DueHereInsertAll(c: Config, t: int, q: seq<Event>, es: seq<Event>)
    requires Sorted(q) && AllFrom(q, t) && AllFrom(es, t)
    ensures DueHere(c, t, InsertAllBack(q, es)) == DueHere(c, t, q) + DueHere(c, t, es)
  {
    hide DueHere, InsertBack;
    if es == [] {
      NothingDueHere(c, t, es);
    } else {
      var init, last := es[..|es| - 1], es[|es| - 1];
      DueHereInsertAll(c, t, q, init);
      InsertAllKeeps(q, init, t);
      DueHereInsert(c, t, InsertAllBack(q, init), last);
      DueHereConcat(c, t, init, [last]);
      assert es == init + [last];
    }
  }

  // Handling what is not for a resource is handling it on the scene.
  lemma ReactMeets(c: Config, s: State, e: Event, ord: Order)
    requires WellFormed(c) && ActorsKnown(c, s) && e.to !in c.components
    ensures SceneOf(React(c, s, e, ord).0) == Meet(c, SceneOf(s), e).0
    ensures React(c, s, e, ord).1 == Meet(c, SceneOf(s), e).1
  {
    hide VMReact, StorageReact, ServerReact, ResourceReact, DelaysOf, AllReady;
  }

  predicate IsPlacement(e: Event) {
    e.body.ServerEvent? && e.body.serverType == ProvisionVM
  }

  ghost predicate Unplaced(q: seq<Event>) {
    forall e :: e in q ==> !IsPlacement(e)
  }

  // A resource that is given no VM leaves the scene alone, and writes to resources only.
  lemma ReactBackstage(c: Config, s: State, e: Event, ord: Order)
    requires WellFormed(c) && ActorsKnown(c, s) && Addressed(c, s, e) && ValidOrder(ord)
    requires e.to in c.components && !IsPlacement(e)
    ensures SceneOf(React(c, s, e, ord).0) == SceneOf(s)
    ensures forall x :: x in React(c, s, e, ord).1 ==> x.to in c.components
  {
    Confluence.ResourceAddress(c, s, e.to);
    assert NIL !in c.components;
    if e.body.ResourceEvent? {
      hide Addressed, ActorsKnown, React, NextPower;
      Confluence.ReactResource(c, s, e, ord);
      forall x | x in React(c, s, e, ord).1
        ensures x.to in c.components
      {
        Confluence.ResourceTargets(c, s, e, ord, x);
        if x.to != e.to {
          ComponentFacts(c, e.to, x.to);
        }
      }
    } else {
      assert e.body.VMEvent?;
      hide WellFormed, ActorsKnown, ValidOrder;
    }
  }

  lemma OutUnplaced(c: Config, s: State, ord: Order)
    requires WellFormed(c) && Known(c, s) && s.queue != []
    ensures Unplaced(Out(c, s, ord))
  {
    hide Out, Known, WellFormed;
    OutShape(c, s, ord);
    var out := Out(c, s, ord);
    if |out| == 1 && !s.queue[0].body.ResourceEvent? {
      EmitsSpawn(c, s, ord, Tok(out[0]));
    }
  }

  lemma DispatchScene(c: Config, s: State, ord: Order, t: int)
    requires WellFormed(c) && Known(c, s) && Sorted(s.queue) && ValidOrder(ord)
    requires s.queue != [] && s.queue[0].time == t && Unplaced(s.queue)
    ensures var e, d := s.queue[0], Dispatch(c, s, ord);
            && Unplaced(d.queue)
            && DueHere(c, t, d.queue) == DueHere(c, t, s.queue[1..]) + DueHere(c, t, Out(c, s, ord))
            && if e.to in c.components then SceneOf(d) == SceneOf(s) && DueHere(c, t, Out(c, s, ord)) == []
               else (SceneOf(d), Out(c, s, ord)) == Meet(c, SceneOf(s), e)
  {
    hide Dispatch, WellFormed, Addressed, ActorsKnown, ValidOrder, Meet, DueHere, React, InsertAllBack, IsPlacement;
    var e, p := s.queue[0], Popped(s);
    HeadAddressed(c, s);
    KnownSame(c, s, p);
    DispatchShape(c, s, ord);
    OutUnplaced(c, s, ord);
    InsertAllMembers(s.queue[1..], Out(c, s, ord));
    DueHereInsertAll(c, t, s.queue[1..], Out(c, s, ord));
    if e.to in c.components {
      ReactBackstage(c, p, e, ord);
      NothingDueHere(c, t, Out(c, s, ord));
    } else {
      ReactMeets(c, p, e, ord);
    }
  }

  // A dispatch within the instant does not change where it leads.
  lemma FateKept(c: Config, s: State, ord: Order, t: int)
    requires WellFormed(c) && Known(c, s) && Sorted(s.queue) && ValidOrder(ord)
    requires s.queue != [] && s.queue[0].time == t && Unplaced(s.queue)
    ensures Fate(c, t, Dispatch(c, s, ord)) == Fate(c, t, s) && Unplaced(Dispatch(c, s, ord).queue)
  {
    hide Dispatch, WellFormed, Known, ValidOrder, Meet, Out, SceneOf, Unplaced, Settled;
    DispatchScene(c, s, ord, t);
    var e, q := s.queue[0], DueHere(c, t, s.queue[1..]);
    if e.to !in c.components {
      assert ([e] + q)[0] == e && ([e] + q)[1..] == q;
      SettledFirst(c, t, SceneOf(s), [e] + q);
    } else {
      assert q + [] == q && [] + q == q;
    }
  }

  lemma SettledFirst(c: Config, t: int, a: Scene, q: seq<Event>)
    requires q != []
    ensures Settled(c, t, a, q) == Settled(c, t, Meet(c, a, q[0]).0, q[1..] + DueHere(c, t, Meet(c, a, q[0]).1))
  {
    hide Meet, DueHere;
  }

  // ----- to the first update -----

  // A scene that leaves a drain stuck.
  ghost predicate Lost(a: Scene) {
    !a.storage.ok && exists v :: v in a.storage.vms && a.storage.vms[v] == PendingVM
  }

  lemma StuckIsLost(s: State)
    ensures Stuck(s) <==> Lost(SceneOf(s))
  {
    assert forall v :: Pending(s, v) <==> v in s.storage.vms && s.storage.vms[v] == PendingVM;
  }

  lemma {:induction false} SettledFrozen(c: Config, t: int, a: Scene, q: seq<Event>)
    requires !a.storage.ok
    ensures Settled(c, t, a, q).storage == a.storage
    decreases Weights(c, q)
  {
    if q != [] {
      hide DueHere, VMReact, DelaysOf;
      Lightens(c, t, a, q);
      SettledFrozen(c, t, Meet(c, a, q[0]).0, q[1..] + DueHere(c, t, Meet(c, a, q[0]).1));
    }
  }

  // Still in the first instant `t`, which leads to `fate`.
  ghost predicate Within(c: Config, updates: seq<int>, t: int, fate: Scene, s: State) {
    && Opening(updates, t, s) && Unplaced(s.queue)
    && (s.queue != [] ==> s.queue[0].time == t)
    && Fate(c, t, s) == fate
  }

  // Past it: stuck, or never to be stuck.
  ghost predicate Past(c: Config, fate: Scene, s: State) {
    if Lost(fate) then Stuck(s) else Calm(c, s)
  }

  lemma WithinStep(c: Config, s: State, ord: Order, updates: seq<int>, t: int, fate: Scene)
    requires WellFormed(c) && ValidOrder(ord) && Sound(c, s) && Within(c, updates, t, fate, s)
    ensures Within(c, updates, t, fate, Step(c, s, ord)) || Past(c, fate, Step(c, s, ord))
  {
    hide WellFormed, ValidOrder, Sound, Known, Dispatch, UpdateWorld, Calm, Timely, Stuck, IsRequest, Unplaced, Fate,
        Lost, Opening;
    if s.queue != [] {
      SoundKnown(c, s);
      SoundDispatch(c, s, ord);
      OpeningDispatch(c, s, ord, updates, t);
      SortedQueue(s);
      FateKept(c, s, ord, t);
      var d := Dispatch(c, s, ord);
      DispatchNow(c, s, ord);
      if BucketEmpty(d) {
        DryNow(c, d);
        AfterInstant(c, d, ord, updates, fate);
      }
    }
  }

  lemma SortedQueue(s: State)
    requires Timely(s)
    ensures Sorted(s.queue)
  {}

  lemma DispatchNow(c: Config, s: State, ord: Order)
    requires s.queue != []
    ensures Dispatch(c, s, ord).now == s.queue[0].time
  {
    hide Dispatch;
    DispatchShape(c, s, ord);
  }

  lemma AfterInstant(c: Config, d: State, ord: Order, updates: seq<int>, fate: Scene)
    requires WellFormed(c) && ValidOrder(ord) && Opening(updates, d.now, d) && Fate(c, d.now, d) == fate
    requires forall i :: 0 <= i < |d.queue| ==> d.now < d.queue[i].time
    ensures Past(c, fate, Tick(UpdateWorld(c, d, ord)))
  {
    hide WellFormed, ValidOrder, UpdateWorld, Calm, Stuck, IsRequest, Lost;
    NothingDueHere(c, d.now, d.queue);
    hide DueHere;
    StuckIsLost(d);
    UpdateKeepsStuck(c, d, ord);
    if !Lost(fate) {
      UpdateCalms(c, d, ord);
    }
  }

  lemma PastStep(c: Config, s: State, ord: Order, fate: Scene)
    requires WellFormed(c) && ValidOrder(ord) && Sound(c, s) && Past(c, fate, s)
    ensures Past(c, fate, Step(c, s, ord))
  {
    hide WellFormed, ValidOrder, Sound, Step, Calm, Stuck, Lost;
    if Lost(fate) {
      StuckForGood(c, s, ord);
    } else {
      CalmStep(c, s, ord);
    }
  }

  lemma {:induction false} InstantDrain(c: Config, s: State, ords: nat -> Order, n: nat)
    requires WellFormed(c) && Sound(c, s) && Giving(s) && Unplaced(s.queue) && ValidOrders(ords)
    ensures var w, fate := Drain(c, s, ords, n), Fate(c, s.now, s);
            Within(c, s.updates, s.now, fate, w) || Past(c, fate, w)
  {
    hide WellFormed, Sound, ValidOrder, Step, Past, Fate, Unplaced, IsRequest;
    if n != 0 {
      hide Within, Giving;
      InstantDrain(c, s, ords, n - 1);
      var prev, fate := Drain(c, s, ords, n - 1), Fate(c, s.now, s);
      DrainSound(c, s, ords, n - 1);
      if Past(c, fate, prev) {
        PastStep(c, prev, ords(n - 1), fate);
      } else {
        WithinStep(c, prev, ords(n - 1), s.updates, s.now, fate);
      }
    }
  }

  lemma StuckWithin(c: Config, updates: seq<int>, t: int, fate: Scene, s: State)
    requires Within(c, updates, t, fate, s) && (Stuck(s) || s.queue == [])
    ensures Stuck(s) <==> Lost(fate)
  {
    hide Opening, Unplaced, Stuck, DueHere;
    StuckIsLost(s);
    if s.queue == [] {
      NothingDueHere(c, t, s.queue);
    } else {
      SettledFrozen(c, t, SceneOf(s), DueHere(c, t, s.queue));
    }
  }

  lemma StuckPast(c: Config, fate: Scene, s: State)
    requires Past(c, fate, s)
    ensures Stuck(s) <==> Lost(fate)
  {
    hide Calm, Stuck, Lost;
    if !Lost(fate) {
      CalmIsNotStuck(c, s);
    }
  }

  // While everything queued is due now, playing the storage and the VMs through this instant tells
  // whether the drain will ever get stuck, whatever the resources do and however the world is walked.
  lemma FateDecides(c: Config, s: State, ords: nat -> Order)
    requires WellFormed(c) && Sound(c, s) && Giving(s) && Unplaced(s.queue) && ValidOrders(ords)
    ensures GetsStuck(c, s, ords) <==> Lost(Fate(c, s.now, s))
  {
    hide WellFormed, Sound, ValidOrders, Drain, Stuck, Giving, Unplaced, Within, Past, Fate, Lost;
    var fate := Fate(c, s.now, s);
    if GetsStuck(c, s, ords) {
      var n: nat :| Stuck(Drain(c, s, ords, n));
      InstantTells(c, s, ords, n);
    } else {
      EndsUnlessStuck(c, s, ords);
      var n: nat :| Drain(c, s, ords, n).queue == [];
      InstantTells(c, s, ords, n);
      assert !Stuck(Drain(c, s, ords, n));
    }
  }

  lemma InstantTells(c: Config, s: State, ords: nat -> Order, n: nat)
    requires WellFormed(c) && Sound(c, s) && Giving(s) && Unplaced(s.queue) && ValidOrders(ords)
    requires Stuck(Drain(c, s, ords, n)) || Drain(c, s, ords, n).queue == []
    ensures Stuck(Drain(c, s, ords, n)) <==> Lost(Fate(c, s.now, s))
  {
    hide WellFormed, Sound, ValidOrders, Drain, Stuck, Giving, Unplaced, Within, Past, Fate, Lost;
    var w, fate := Drain(c, s, ords, n), Fate(c, s.now, s);
    InstantDrain(c, s, ords, n);
    if Past(c, fate, w) {
      StuckPast(c, fate, w);
    } else {
      StuckWithin(c, s.updates, s.now, fate, w);
    }
  }
}
