/**
 The order in which containers are walked does not matter. Two drains of the same state, each
 walking its containers in its own orders at every step, come to the same end: they take the
 same number of steps and leave every actor in the same state, and their histories differ by
 exchanges of unrelated simultaneous events only. So one order tells whether any drain ends.
 */
module Confluence {
  import opened Types
  import opened FlatQueue
  import opened Handlers
  import opened Simulator
  import opened StepFacts
  import opened Clock
  import opened Registry
  import opened Effects
  import opened Soundness
  import opened Draining
  import opened Reordering
  import opened Exchanging
  import PowerFlow

  // As much of the invariant as one handler needs.
  ghost predicate Lite(c: Config, s: State) {
    Known(c, s) && Sorted(s.queue)
  }

  lemma SaneIsLite(c: Config, s: State)
    requires Sane(c, s)
    ensures Lite(c, s)
  {
    hide Sound, AllKept, Known;
    SoundKnown(c, s);
  }

  // ----- one handler -----

  // Only the actors matter to a handler.
  lemma ReactElsewhere(c: Config, s: State, w: State, e: Event, ord: Order)
    requires w == s.(now := w.now, queue := w.queue, log := w.log, inserted := w.inserted, updates := w.updates)
    ensures React(c, w, e, ord).1 == React(c, s, e, ord).1
    ensures React(c, w, e, ord).0 ==
            React(c, s, e, ord).0.(now := w.now, queue := w.queue, log := w.log, inserted := w.inserted, updates := w.updates)
  {
    hide VMReact, StorageReact, ServerReact, ResourceReact, DelaysOf, Delay;
  }

  lemma ReactResource(c: Config, s: State, e: Event, ord: Order)
    requires WellFormed(c) && ActorsKnown(c, s) && e.body.ResourceEvent? && e.to in c.components
    ensures e.to in s.power
    ensures React(c, s, e, ord).0 == s.(power := s.power[e.to := NextPower(s.power[e.to], e.body)])
    ensures var ty, t := e.body.resourceType, e.time + PowerFlow.PowerDelay(c, e.to, e.body.resourceType);
            React(c, s, e, ord).1 ==
            if PowerFlow.Obeys(s.power[e.to], ty)
            then Broadcast(ord(c.components[e.to]), t, ty) + [Event(t, e.to, ResourceEvent(PowerFlow.Finish(ty)))] else []
  {
    hide WellFormed, ActorsKnown, React, ResourceReact, NextPower, Broadcast, Delay, PowerFlow.Obeys;
    ResourceAddress(c, s, e.to);
    PowerFlow.ReactPowerOut(c, s, e, ord);
    ReactPowered(c, s, e, ord);
    var order := ord(c.components[e.to]);
    ResourcePower(e.to, s.power[e.to], order, Delay(c.startup, e.to), Delay(c.shutdown, e.to), e);
    PowerFlow.ResourceOut(e.to, s.power[e.to], order, Delay(c.startup, e.to), Delay(c.shutdown, e.to), e);
  }

  lemma ResourceAddress(c: Config, s: State, u: UUID)
    requires WellFormed(c) && ActorsKnown(c, s) && u in c.components
    ensures u in s.power && u != c.storage && u !in s.vms
  {
    hide AllReady;
  }

  lemma ReactPowered(c: Config, s: State, e: Event, ord: Order)
    requires e.to in s.power && e.to in c.components && e.to != c.storage && e.to !in s.vms && e.body.ResourceEvent?
    ensures React(c, s, e, ord).0 ==
            s.(power := s.power[e.to := ResourceReact(e.to, s.power[e.to], ord(c.components[e.to]),
                                                      Delay(c.startup, e.to), Delay(c.shutdown, e.to), e).0])
  {
    hide ResourceReact, Delay;
  }

  lemma ReactStorage(c: Config, s: State, e: Event, ord: Order)
    requires e.to == c.storage
    ensures React(c, s, e, ord) == (s.(storage := StorageReact(s.storage, e)), [])
  {
    hide StorageReact;
  }

  lemma ReactVM(c: Config, s: State, e: Event, ord: Order)
    requires e.to != c.storage && e.to in s.vms
    ensures var (vm, out) := VMReact(e.to, s.vms[e.to], DelaysOf(c, e.to), e);
            React(c, s, e, ord) == (s.(vms := s.vms[e.to := vm]), out)
  {
    hide VMReact, DelaysOf;
  }

  lemma ReactPlacement(c: Config, s: State, e: Event, ord: Order)
    requires WellFormed(c) && ActorsKnown(c, s) && e.to == c.first && e.body.ServerEvent?
    requires e.body.serverType == ProvisionVM && e.body.guest != NIL
    ensures c.first in s.power && c.first in s.hosted
    ensures var p, v := s.power[c.first], e.body.guest;
            React(c, s, e, ord) ==
            (s.(power := s.power[c.first := if p == On then On else Failed],
                hosted := s.hosted[c.first := if p == On then s.hosted[c.first] + {v} else s.hosted[c.first]]),
             if p == On then [Event(e.time, v, VMEvent(Start))] else [])
  {
    assert c.first in c.components;
  }

  // ----- two handlers -----

  // Handling `e` and `f` in either order leaves the same actors, and neither changes what the other sends.
  ghost predicate Commute(c: Config, s: State, e: Event, f: Event, o: Order, p: Order) {
    var se, sf := React(c, s, e, o).0, React(c, s, f, p).0;
    && React(c, se, f, p).0 == React(c, sf, e, o).0
    && React(c, se, f, p).1 == React(c, s, f, p).1
    && React(c, sf, e, o).1 == React(c, s, e, o).1
  }

  lemma ResourcesCommute(c: Config, s: State, e: Event, f: Event, o: Order, p: Order)
    requires WellFormed(c) && ActorsKnown(c, s) && e.body.ResourceEvent? && Unrelated(c, e, f)
    requires ActorsKnown(c, React(c, s, e, o).0) && ActorsKnown(c, React(c, s, f, p).0)
    ensures Commute(c, s, e, f, o, p)
  {
    hide WellFormed, ActorsKnown, React, NextPower, PowerFlow.Obeys, PowerFlow.PowerDelay, Broadcast;
    assert e.to != f.to;
    hide Above;
    ReactResource(c, s, e, o);
    ReactResource(c, s, f, p);
    ReactResource(c, React(c, s, e, o).0, f, p);
    ReactResource(c, React(c, s, f, p).0, e, o);
    var a, b := NextPower(s.power[e.to], e.body), NextPower(s.power[f.to], f.body);
    assert s.power[e.to := a][f.to := b] == s.power[f.to := b][e.to := a];
    assert React(c, React(c, s, e, o).0, f, p).0 == React(c, React(c, s, f, p).0, e, o).0;
    assert React(c, React(c, s, e, o).0, f, p).1 == React(c, s, f, p).1;
    assert React(c, React(c, s, f, p).0, e, o).1 == React(c, s, e, o).1;
  }

  lemma PlacementsCommute(c: Config, s: State, e: Event, f: Event, o: Order, p: Order)
    requires WellFormed(c) && ActorsKnown(c, s) && e.body.ServerEvent? && Unrelated(c, e, f)
    requires e.body.guest != NIL && f.body.guest != NIL
    requires ActorsKnown(c, React(c, s, e, o).0) && ActorsKnown(c, React(c, s, f, p).0)
    ensures Commute(c, s, e, f, o, p)
  {
    hide WellFormed, ActorsKnown, React;
    ReactPlacement(c, s, e, o);
    ReactPlacement(c, s, f, p);
    ReactPlacement(c, React(c, s, e, o).0, f, p);
    ReactPlacement(c, React(c, s, f, p).0, e, o);
    var g, v, u := s.hosted[c.first], e.body.guest, f.body.guest;
    assert g + {v} + {u} == g + {u} + {v};
    assert s.hosted[c.first := g + {v}][c.first := g + {v} + {u}] == s.hosted[c.first := g + {u}][c.first := g + {u} + {v}];
    assert React(c, React(c, s, e, o).0, f, p).0 == React(c, React(c, s, f, p).0, e, o).0;
    assert React(c, React(c, s, e, o).0, f, p).1 == React(c, s, f, p).1;
    assert React(c, React(c, s, f, p).0, e, o).1 == React(c, s, e, o).1;
  }

  lemma StartsCommute(c: Config, s: State, e: Event, f: Event, o: Order, p: Order)
    requires e.body.VMEvent? && Unrelated(c, e, f) && e.to in s.vms && f.to in s.vms
    requires c.storage != e.to && c.storage != f.to
    ensures Commute(c, s, e, f, o, p)
  {
    hide React, VMReact, DelaysOf;
    ReactVM(c, s, e, o);
    ReactVM(c, s, f, p);
    ReactVM(c, React(c, s, e, o).0, f, p);
    ReactVM(c, React(c, s, f, p).0, e, o);
  }

  lemma ReportsCommute(c: Config, s: State, e: Event, f: Event, o: Order, p: Order)
    requires e.body.StorageEvent? && Unrelated(c, e, f)
    requires s.storage.ok ==> e.body.vm in s.storage.vms && f.body.vm in s.storage.vms
    ensures Commute(c, s, e, f, o, p)
  {
    hide React;
    ReactStorage(c, s, e, o);
    ReactStorage(c, s, f, p);
    ReactStorage(c, React(c, s, e, o).0, f, p);
    ReactStorage(c, React(c, s, f, p).0, e, o);
    StatusesCommute(s.storage, e, f);
  }

  lemma StatusesCommute(st: Storage, e: Event, f: Event)
    requires e.body.StorageEvent? && f.body.StorageEvent? && e.body.storageType == f.body.storageType
    requires e.body.storageType in {VMScheduled, VMHosted} && e.body.vm != f.body.vm
    requires st.ok ==> e.body.vm in st.vms && f.body.vm in st.vms
    ensures StorageReact(StorageReact(st, e), f) == StorageReact(StorageReact(st, f), e)
  {}

  lemma HandlersCommute(c: Config, s: State, e: Event, f: Event, o: Order, p: Order)
    requires WellFormed(c) && ActorsKnown(c, s) && Addressed(c, s, e) && Addressed(c, s, f) && Unrelated(c, e, f)
    requires e.body.StorageEvent? && f.body.StorageEvent? && s.storage.ok ==>
               e.body.vm in s.storage.vms && f.body.vm in s.storage.vms
    ensures Commute(c, s, e, f, o, p)
  {
    ReactActors(c, s, e, o);
    ReactActors(c, s, f, p);
    StartFacts(c, s, e);
    StartFacts(c, s, f);
    hide React, WellFormed, ActorsKnown, Addressed, Commute, Above;
    match e.body
    case ResourceEvent(_) => ResourcesCommute(c, s, e, f, o, p);
    case ServerEvent(_, _) => PlacementsCommute(c, s, e, f, o, p);
    case VMEvent(_) => StartsCommute(c, s, e, f, o, p);
    case StorageEvent(_, _) => ReportsCommute(c, s, e, f, o, p);
  }

  // The addressee of a start, and the VM of a placement, exist.
  lemma StartFacts(c: Config, s: State, e: Event)
    requires WellFormed(c) && ActorsKnown(c, s) && Addressed(c, s, e)
    ensures e.body.VMEvent? && e.body.vmType in {Start, StartCompleted} ==>
              e.to in s.vms && e.to != c.storage && s.vms[e.to].storage == c.storage
    ensures e.body.ServerEvent? && e.to == c.first ==> e.body.guest != NIL
  {
    assert c.first in c.components;
  }

  // ----- what unrelated events send is unrelated -----

  // To be above a component is to be it, or to be above what it belongs to.
  lemma AboveComponent(c: Config, a: UUID, r: UUID, x: UUID)
    requires WellFormed(c) && r in c.components && x in c.components[r]
    ensures x in c.components && x in c.depth && r in c.depth && c.depth[r] < c.depth[x]
    ensures Above(c, a, x) <==> a == x || Above(c, a, r)
    ensures Above(c, r, r)
  {
    ComponentFacts(c, r, x);
    assert x in c.parent && c.parent[x] == r;
    hide WellFormed;
  }

  lemma AboveSteps(c: Config, x: UUID, y: UUID)
    requires Above(c, x, y) && x != y
    ensures y in c.parent && y in c.depth && c.parent[y] in c.depth && c.depth[c.parent[y]] < c.depth[y]
    ensures Above(c, x, c.parent[y])
    ensures forall a :: Above(c, a, c.parent[y]) ==> Above(c, a, y)
  {}

  // What is below a component is below what it belongs to.
  lemma {:induction false} AboveParent(c: Config, a: UUID, x: UUID, y: UUID)
    requires WellFormed(c) && a in c.components && x in c.components[a] && Above(c, x, y)
    ensures Above(c, a, y)
    decreases if y in c.depth then c.depth[y] else 0
  {
    hide WellFormed, Above;
    AboveComponent(c, a, a, x);
    if x != y {
      AboveSteps(c, x, y);
      AboveParent(c, a, x, c.parent[y]);
    }
  }

  // Neither of two resources is above the other; nor then are they or their components.
  lemma ApartBelow(c: Config, a: UUID, b: UUID, x: UUID, y: UUID)
    requires WellFormed(c) && a in c.components && b in c.components && !Above(c, a, b) && !Above(c, b, a)
    requires x == a || x in c.components[a]
    requires y == b || y in c.components[b]
    ensures x in c.components && y in c.components && !Above(c, x, y)
  {
    hide WellFormed, Above;
    if x != a {
      AboveComponent(c, a, a, x);
    }
    if y != b {
      AboveComponent(c, a, b, y);
      AboveComponent(c, b, b, y);
    }
    if Above(c, x, y) && x != a {
      AboveParent(c, a, x, y);
    }
  }

  lemma ResourceTargets(c: Config, s: State, e: Event, ord: Order, x: Event)
    requires WellFormed(c) && ActorsKnown(c, s) && e.body.ResourceEvent? && e.to in c.components && ValidOrder(ord)
    requires x in React(c, s, e, ord).1
    ensures x.body.ResourceEvent? && (x.to == e.to || x.to in c.components[e.to])
  {
    hide WellFormed, ActorsKnown, React, NextPower, PowerFlow.Obeys, PowerFlow.PowerDelay;
    ReactResource(c, s, e, ord);
    var order := ord(c.components[e.to]);
    assert Enumerates(order, c.components[e.to]);
    assert forall i :: 0 <= i < |order| ==> order[i] in order;
    hide Broadcast;
  }

  lemma ResourcesApart(c: Config, s: State, e: Event, f: Event, o: Order, p: Order)
    requires WellFormed(c) && ActorsKnown(c, s) && e.body.ResourceEvent? && Unrelated(c, e, f)
    requires ValidOrder(o) && ValidOrder(p)
    ensures AllUnrelated(c, React(c, s, e, o).1, React(c, s, f, p).1)
  {
    hide WellFormed, ActorsKnown, React, Above, ValidOrder;
    forall x, y | x in React(c, s, e, o).1 && y in React(c, s, f, p).1
      ensures Unrelated(c, x, y)
    {
      ResourceTargets(c, s, e, o, x);
      ResourceTargets(c, s, f, p, y);
      ApartBelow(c, e.to, f.to, x.to, y.to);
      ApartBelow(c, f.to, e.to, y.to, x.to);
    }
  }

  lemma OutsApart(c: Config, s: State, e: Event, f: Event, o: Order, p: Order)
    requires WellFormed(c) && ActorsKnown(c, s) && Addressed(c, s, e) && Addressed(c, s, f) && Unrelated(c, e, f)
    requires ValidOrder(o) && ValidOrder(p)
    ensures AllUnrelated(c, React(c, s, e, o).1, React(c, s, f, p).1)
  {
    hide WellFormed, ActorsKnown, React, Above, ValidOrder, Addressed;
    StartFacts(c, s, e);
    StartFacts(c, s, f);
    match e.body
    case ResourceEvent(_) => ResourcesApart(c, s, e, f, o, p);
    case ServerEvent(_, _) => {
      ReactPlacement(c, s, e, o);
      ReactPlacement(c, s, f, p);
    }
    case StorageEvent(_, _) => ReactStorage(c, s, e, o);
    case VMEvent(_) => {
      hide DelaysOf;
      ReactVM(c, s, e, o);
      ReactVM(c, s, f, p);
    }
  }

  // ----- one handler, two orders -----

  lemma {:induction false} AboveIsNoDeeper(c: Config, a: UUID, b: UUID)
    requires WellFormed(c) && a in c.components && b in c.components && Above(c, a, b)
    ensures c.depth[a] <= c.depth[b]
    decreases c.depth[b]
  {
    if a != b {
      assert c.parent[b] in c.components;
      AboveIsNoDeeper(c, a, c.parent[b]);
    }
  }

  lemma SiblingsApart(c: Config, r: UUID, x: UUID, y: UUID)
    requires WellFormed(c) && r in c.components && x in c.components[r] && y in c.components[r] && x != y
    ensures x in c.components && y in c.components && !Above(c, x, y)
  {
    assert x in c.parent && c.parent[x] == r && y in c.parent && c.parent[y] == r;
    assert x in c.components && y in c.components;
    if Above(c, x, y) {
      AboveIsNoDeeper(c, x, r);
    }
  }

  lemma BroadcastShuffled(c: Config, r: UUID, a: seq<UUID>, b: seq<UUID>, t: int, ty: ResourceEventType)
    requires WellFormed(c) && r in c.components && Enumerates(a, c.components[r]) && Enumerates(b, c.components[r])
    ensures Equivalent(c, Broadcast(a, t, ty), Broadcast(b, t, ty))
  {
    hide WellFormed, Equivalent, Above, Broadcast;
    var q, w := Broadcast(a, t, ty), Broadcast(b, t, ty);
    SetOfDistinct(a, c.components[r]);
    SetOfDistinct(b, c.components[r]);
    forall i, j | 0 <= i < j < |q|
      ensures Exchangeable(c, q[i], q[j])
    {
      assert a[i] in a && a[j] in a;
      SiblingsApart(c, r, a[i], a[j]);
      SiblingsApart(c, r, a[j], a[i]);
    }
    SameBroadcast(a, b, t, ty);
    hide Exchangeable;
    Shuffle(c, q, w);
  }

  lemma SameBroadcast(a: seq<UUID>, b: seq<UUID>, t: int, ty: ResourceEventType)
    requires Distinct(a) && Distinct(b) && forall x :: x in a <==> x in b
    ensures NoRepeats(Broadcast(a, t, ty)) && NoRepeats(Broadcast(b, t, ty))
    ensures forall e :: e in Broadcast(a, t, ty) <==> e in Broadcast(b, t, ty)
  {
    hide Broadcast;
    var q, w := Broadcast(a, t, ty), Broadcast(b, t, ty);
    forall e | e in q
      ensures e in w
    {
      var i :| 0 <= i < |q| && q[i] == e;
      assert a[i] in a;
      var j :| 0 <= j < |b| && b[j] == a[i];
      assert w[j] == e;
    }
    forall e | e in w
      ensures e in q
    {
      var i :| 0 <= i < |w| && w[i] == e;
      assert b[i] in b;
      var j :| 0 <= j < |a| && a[j] == b[i];
      assert q[j] == e;
    }
  }

  // The order of iteration changes no actor and only shuffles what is sent.
  lemma ReactShuffled(c: Config, s: State, e: Event, o: Order, p: Order)
    requires WellFormed(c) && ActorsKnown(c, s) && Addressed(c, s, e) && ValidOrder(o) && ValidOrder(p)
    ensures React(c, s, e, o).0 == React(c, s, e, p).0
    ensures Equivalent(c, React(c, s, e, o).1, React(c, s, e, p).1)
  {
    hide WellFormed, ActorsKnown, React, Addressed, Equivalent, NextPower, Broadcast, PowerFlow.PowerDelay, PowerFlow.Obeys;
    if e.body.ResourceEvent? && e.to in c.components {
      ReactResource(c, s, e, o);
      ReactResource(c, s, e, p);
      var ty := e.body.resourceType;
      if PowerFlow.Obeys(s.power[e.to], ty) {
        var t := e.time + PowerFlow.PowerDelay(c, e.to, ty);
        var a, b := o(c.components[e.to]), p(c.components[e.to]);
        assert Enumerates(a, c.components[e.to]) && Enumerates(b, c.components[e.to]);
        BroadcastShuffled(c, e.to, a, b, t, ty);
        var fin := [Event(t, e.to, ResourceEvent(PowerFlow.Finish(ty)))];
        EquivalentSelf(c, fin);
        EquivalentParts(c, Broadcast(a, t, ty), Broadcast(b, t, ty), fin, fin);
      } else {
        EquivalentSelf(c, []);
      }
    } else {
      ReactOrderless(c, s, e, o, p);
      EquivalentSelf(c, React(c, s, e, o).1);
    }
  }

  lemma ReactOrderless(c: Config, s: State, e: Event, o: Order, p: Order)
    requires ActorsKnown(c, s) && Addressed(c, s, e) && !(e.body.ResourceEvent? && e.to in c.components)
    ensures React(c, s, e, o) == React(c, s, e, p)
  {
    hide VMReact, StorageReact, ServerReact, DelaysOf, Delay;
  }

  // ----- one dispatch -----

  lemma DispatchIs(c: Config, s: State, ord: Order)
    requires s.queue != []
    ensures var e := s.queue[0];
            var (w, out) := React(c, s, e, ord);
            Dispatch(c, s, ord) == w.(now := e.time, queue := InsertAllBack(s.queue[1..], out), log := s.log + [e],
                                      inserted := s.inserted + |out|)
    ensures forall i :: 0 <= i < |React(c, s, s.queue[0], ord).1| ==> s.queue[0].time <= React(c, s, s.queue[0], ord).1[i].time
  {
    DispatchShape(c, s, ord);
    ReactElsewhere(c, s, Popped(s), s.queue[0], ord);
    ReactFrame(c, s, s.queue[0], ord);
    hide React, Dispatch, InsertAllBack;
  }

  lemma LiteDispatch(c: Config, s: State, ord: Order)
    requires WellFormed(c) && Lite(c, s) && ValidOrder(ord) && s.queue != []
    ensures var d := Dispatch(c, s, ord);
            Lite(c, d) && AllFrom(d.queue, d.now) && d.now == s.queue[0].time
  {
    hide Known, WellFormed, Dispatch, InsertAllBack, Out, Handled;
    KnownDispatch(c, s, ord);
    DispatchShape(c, s, ord);
    InsertAllKeeps(s.queue[1..], Out(c, s, ord), s.queue[0].time);
  }

  lemma HeadKnown(c: Config, s: State, e: Event)
    requires Known(c, s) && e in s.queue
    ensures ActorsKnown(c, s) && Addressed(c, s, e)
  {
    hide ActorsKnown, Addressed;
  }

  // The same head, in alike states with any two orders.
  lemma DispatchAlike(c: Config, s: State, w: State, o: Order, p: Order)
    requires WellFormed(c) && Lite(c, s) && ValidOrder(o) && ValidOrder(p)
    requires Alike(c, s, w) && s.queue != [] && w.queue != [] && s.queue[0] == w.queue[0]
    requires Equivalent(c, s.queue[1..], w.queue[1..])
    ensures Alike(c, Dispatch(c, s, o), Dispatch(c, w, p))
  {
    hide Known, WellFormed, Dispatch, InsertAllBack, Equivalent, React, ActorsKnown, Addressed;
    var e := s.queue[0];
    HeadKnown(c, s, e);
    DispatchIs(c, s, o);
    DispatchIs(c, w, p);
    ReactElsewhere(c, s, w, e, p);
    ReactShuffled(c, s, e, o, p);
    EquivalentKeeps(c, React(c, s, e, o).1, React(c, s, e, p).1);
    EquivalentInsertions(c, s.queue[1..], w.queue[1..], React(c, s, e, o).1, React(c, s, e, p).1);
    EquivalentSelf(c, [e]);
    EquivalentParts(c, s.log, w.log, [e], [e]);
    ReactFrame(c, s, e, o);
  }

  // ----- two dispatches -----

  lemma {:induction false} HeadStays(f: Event, r: seq<Event>, es: seq<Event>)
    requires forall i :: 0 <= i < |es| ==> f.time <= es[i].time
    ensures InsertAllBack([f] + r, es) == [f] + InsertAllBack(r, es)
  {
    if es != [] {
      var init, last := es[..|es| - 1], es[|es| - 1];
      HeadStays(f, r, init);
      BehindHead(f, InsertAllBack(r, init), last);
      hide InsertBack;
    }
  }

  lemma BehindHead(f: Event, q: seq<Event>, e: Event)
    requires f.time <= e.time
    ensures InsertBack([f] + q, e) == [f] + InsertBack(q, e)
  {
    assert ([f] + q)[1..] == q;
    assert UpTo([f] + q, e.time) == 1 + UpTo(q, e.time);
  }

  // Two events due together are dispatched one after the other.
  lemma DispatchPair(c: Config, s: State, e: Event, f: Event, r: seq<Event>, o: Order, p: Order)
    requires s.queue == [e, f] + r && e.time == f.time
    ensures Step(c, s, o) == Dispatch(c, s, o) && Dispatch(c, s, o).queue != []
    ensures var se := React(c, s, e, o).0;
            var a, b := React(c, s, e, o).1, React(c, se, f, p).1;
            Dispatch(c, Dispatch(c, s, o), p) ==
            React(c, se, f, p).0.(now := f.time, queue := InsertAllBack(InsertAllBack(r, a), b),
                                  log := s.log + [e, f], inserted := s.inserted + |a| + |b|)
  {
    hide Dispatch, InsertAllBack, React, UpdateWorld;
    DispatchIs(c, s, o);
    var d, se, a := Dispatch(c, s, o), React(c, s, e, o).0, React(c, s, e, o).1;
    assert s.queue[1..] == [f] + r;
    HeadStays(f, r, a);
    assert d.queue == [f] + InsertAllBack(r, a);
    assert d.queue[1..] == InsertAllBack(r, a);
    DispatchIs(c, d, p);
    ReactFrame(c, s, e, o);
    ReactElsewhere(c, se, d, f, p);
    ReactFrame(c, d, f, p);
    ReactFrame(c, se, f, p);
    assert s.log + [e] + [f] == s.log + [e, f];
  }

  // The queues two exchanged heads leave.
  lemma PairQueues(c: Config, r: seq<Event>, a: seq<Event>, b: seq<Event>, a': seq<Event>, b': seq<Event>)
    requires Sorted(r) && AllUnrelated(c, a, b) && Equivalent(c, a, a') && Equivalent(c, b, b')
    ensures Equivalent(c, InsertAllBack(InsertAllBack(r, a), b), InsertAllBack(InsertAllBack(r, b'), a'))
    ensures |a| == |a'| && |b| == |b'|
  {
    hide Equivalent, InsertAllBack, Sorted, AllUnrelated;
    BlocksBack(c, r, a, b);
    EquivalentSelf(c, r);
    EquivalentInsertions(c, r, r, b, b');
    SortedAll(r, b);
    EquivalentInsertions(c, InsertAllBack(r, b), InsertAllBack(r, b'), a, a');
    EquivalentVia(c, InsertAllBack(InsertAllBack(r, a), b), InsertAllBack(InsertAllBack(r, b), a),
                  InsertAllBack(InsertAllBack(r, b'), a'));
    EquivalentKeeps(c, a, a');
    EquivalentKeeps(c, b, b');
  }

  // Exchanged heads: after both have run the states are alike again.
  lemma PairAlike(c: Config, s: State, w: State, e: Event, f: Event, r: seq<Event>, o: Order, p: Order, o': Order,
                  p': Order)
    requires WellFormed(c) && Sane(c, s) && ValidOrder(o) && ValidOrder(p) && ValidOrder(o') && ValidOrder(p')
    requires s.queue == [e, f] + r && Exchangeable(c, e, f)
    requires w == s.(queue := [f, e] + r, log := w.log) && Equivalent(c, s.log, w.log)
    requires Dispatch(c, s, o).queue != [] && Dispatch(c, w, o').queue != []
    ensures Alike(c, Dispatch(c, Dispatch(c, s, o), p), Dispatch(c, Dispatch(c, w, o'), p'))
  {
    hide Known, WellFormed, Dispatch, InsertAllBack, Equivalent, React, ActorsKnown, Addressed, Unrelated, ValidOrder, Step,
        Sorted, Alike, Lite, Sane, Swap;
    assert s.queue[2..] == r;
    SaneIsLite(c, s);
    LiteTail(c, s, r);
    SubjectsKnown(c, s, e, f);
    HeadKnown(c, s, e);
    HeadKnown(c, s, f);
    DispatchPair(c, s, e, f, r, o, p);
    DispatchPair(c, w, f, e, r, o', p');
    HandlersCommute(c, s, e, f, o, p);
    OtherRun(c, s, w, e, f, o, p, o', p');
    OutsApart(c, s, e, f, o, p);
    var wf := React(c, w, f, o').0;
    PairQueues(c, r, React(c, s, e, o).1, React(c, s, f, p).1, React(c, wf, e, p').1, React(c, w, f, o').1);
    ExchangedLogs(c, s.log, w.log, e, f);
    hide Commute;
    Assembled(c, React(c, React(c, s, e, o).0, f, p).0, React(c, wf, e, p').0, Dispatch(c, Dispatch(c, s, o), p),
              Dispatch(c, Dispatch(c, w, o'), p'));
  }

  lemma ExchangedLogs(c: Config, l: seq<Event>, k: seq<Event>, e: Event, f: Event)
    requires Equivalent(c, l, k) && Exchangeable(c, e, f)
    ensures Equivalent(c, l + [e, f], k + [f, e])
  {
    hide Equivalent, Exchangeable;
    assert Swap(c, [e, f], 0) == [f, e];
    EquivalentSwap(c, [e, f], 0);
    EquivalentParts(c, l, k, [e, f], [f, e]);
  }

  lemma SubjectsKnown(c: Config, s: State, e: Event, f: Event)
    requires WellFormed(c) && Sane(c, s) && Unrelated(c, e, f) && e in s.queue && f in s.queue
    ensures e.body.StorageEvent? && f.body.StorageEvent? && s.storage.ok ==>
              e.body.vm in s.storage.vms && f.body.vm in s.storage.vms
  {
    hide WellFormed, Sane, Above;
    if e.body.StorageEvent? && s.storage.ok {
      SubjectKnown(c, s, e);
      SubjectKnown(c, s, f);
    }
  }

  lemma LiteTail(c: Config, s: State, r: seq<Event>)
    requires Lite(c, s) && |s.queue| >= 2 && s.queue[2..] == r
    ensures Known(c, s) && Sorted(r)
  {
    hide Known;
    SortedSlices(s.queue, 2);
  }

  lemma Assembled(c: Config, t: State, t': State, x: State, x': State)
    requires t' == t.(queue := t'.queue, log := t'.log)
    requires x == t.(now := x.now, queue := x.queue, log := x.log, inserted := x.inserted)
    requires x' == t'.(now := x.now, queue := x'.queue, log := x'.log, inserted := x.inserted)
    requires Equivalent(c, x.queue, x'.queue) && Equivalent(c, x.log, x'.log)
    ensures Alike(c, x, x')
  {}

  // What the run with the heads exchanged makes of the actors, and what it sends.
  lemma OtherRun(c: Config, s: State, w: State, e: Event, f: Event, o: Order, p: Order, o': Order, p': Order)
    requires WellFormed(c) && ActorsKnown(c, s) && Addressed(c, s, e) && Addressed(c, s, f)
    requires ValidOrder(o) && ValidOrder(p) && ValidOrder(o') && ValidOrder(p')
    requires w == s.(queue := w.queue, log := w.log) && Commute(c, s, e, f, o, p)
    ensures React(c, w, f, o').1 == React(c, s, f, o').1
    ensures var wf := React(c, w, f, o').0;
            && React(c, wf, e, p').0 == React(c, React(c, s, e, o).0, f, p).0.(queue := w.queue, log := w.log)
            && Equivalent(c, React(c, s, e, o).1, React(c, wf, e, p').1)
    ensures Equivalent(c, React(c, s, f, p).1, React(c, s, f, o').1)
  {
    hide WellFormed, ActorsKnown, Addressed, React, ValidOrder, Equivalent;
    var sf := React(c, s, f, p).0;
    ReactFrame(c, w, f, o');
    ReactFrame(c, sf, e, o);
    ReactElsewhere(c, s, w, f, o');
    ReactShuffled(c, s, f, p, o');
    ReactFrame(c, s, f, p);
    ReactElsewhere(c, sf, React(c, w, f, o').0, e, p');
    ReactActors(c, s, f, p);
    assert Addressed(c, sf, e) by { StillAddressed(c, s, sf, e); }
    ReactShuffled(c, sf, e, o, p');
  }

  lemma StillAddressed(c: Config, s: State, w: State, e: Event)
    requires Grows(s, w) && Addressed(c, s, e)
    ensures Addressed(c, w, e)
  {}

  // ----- the world update -----

  lemma SameLength(p: seq<UUID>, q: seq<UUID>)
    requires Distinct(p) && Distinct(q) && forall v :: v in p <==> v in q
    ensures |p| == |q|
  {
    var all := set v | v in p;
    SetOfDistinct(p, all);
    SetOfDistinct(q, all);
  }

  lemma DecisionsShuffled(c: Config, t: int, p: seq<UUID>, q: seq<UUID>)
    requires Distinct(p) && Distinct(q) && |p| == |q| && forall v :: v in p <==> v in q
    ensures Equivalent(c, Decisions(c, t, p), Decisions(c, t, q))
  {
    hide Equivalent, Decisions, Above;
    var a, b := Decisions(c, t, p), Decisions(c, t, q);
    forall e | e in a
      ensures e in b
    {
      DecisionMoved(c, t, p, q, e);
    }
    forall e | e in b
      ensures e in a
    {
      DecisionMoved(c, t, q, p, e);
    }
    assert AllExchangeable(c, a) && NoRepeats(a) && NoRepeats(b);
    hide Exchangeable;
    Shuffle(c, a, b);
  }

  lemma DecisionMoved(c: Config, t: int, p: seq<UUID>, q: seq<UUID>, e: Event)
    requires (forall v :: v in p ==> v in q) && e in Decisions(c, t, p)
    ensures e in Decisions(c, t, q)
  {
    hide Decisions;
    var i :| 0 <= i < |p| && e == Decisions(c, t, p)[i];
    assert p[|p| - 1 - i] in p;
    var j :| 0 <= j < |q| && q[j] == p[|p| - 1 - i];
    assert e == Decisions(c, t, q)[|q| - 1 - j];
  }

  lemma PlacementsShuffled(c: Config, t: int, p: seq<UUID>, q: seq<UUID>)
    requires Distinct(p) && Distinct(q) && |p| == |q| && forall v :: v in p <==> v in q
    ensures Equivalent(c, Placements(c, t, p), Placements(c, t, q))
  {
    hide Equivalent, Placements, Above;
    var a, b := Placements(c, t, p), Placements(c, t, q);
    forall e | e in a
      ensures e in b
    {
      PlacementMoved(c, t, p, q, e);
    }
    forall e | e in b
      ensures e in a
    {
      PlacementMoved(c, t, q, p, e);
    }
    assert AllExchangeable(c, a) && NoRepeats(a) && NoRepeats(b);
    hide Exchangeable;
    Shuffle(c, a, b);
  }

  lemma PlacementMoved(c: Config, t: int, p: seq<UUID>, q: seq<UUID>, e: Event)
    requires (forall v :: v in p ==> v in q) && e in Placements(c, t, p)
    ensures e in Placements(c, t, q)
  {
    hide Placements;
    var i :| 0 <= i < |p| && e == Placements(c, t, p)[i];
    assert p[i] in p;
    var j :| 0 <= j < |q| && q[j] == p[i];
    assert e == Placements(c, t, q)[j];
  }

  // What follows a dispatch: the world update, when its instant has run dry.
  function Closing(c: Config, d: State, ord: Order): State {
    if BucketEmpty(d) then Tick(UpdateWorld(c, d, ord)) else d
  }

  lemma StepCloses(c: Config, s: State, ord: Order)
    requires s.queue != []
    ensures Step(c, s, ord) == Closing(c, Dispatch(c, s, ord), ord)
  {
    hide Dispatch, UpdateWorld;
  }

  lemma SameView(c: Config, d: State, w: State)
    requires w == d.(queue := w.queue, log := w.log)
    ensures LookupFails(c, w) == LookupFails(c, d) && forall v :: Pending(w, v) == Pending(d, v)
  {}

  lemma UpdateAlike(c: Config, d: State, w: State, o: Order, p: Order)
    requires ValidOrder(o) && ValidOrder(p) && Alike(c, d, w)
    requires forall i :: 0 <= i < |d.queue| ==> d.now < d.queue[i].time
    ensures Alike(c, Tick(UpdateWorld(c, d, o)), Tick(UpdateWorld(c, w, p)))
  {
    hide UpdateWorld, Decisions, Placements, Placing, Equivalent, ValidOrder, LookupFails, Pending;
    EquivalentKeeps(c, d.queue, w.queue);
    UpdateShape(c, d, o);
    UpdateShape(c, w, p);
    SameView(c, d, w);
    var a, b := Placing(c, d, o), Placing(c, w, p);
    PlacingEnumerates(c, d, o);
    PlacingEnumerates(c, w, p);
    SameLength(a, b);
    DecisionsShuffled(c, d.now, a, b);
    PlacementsShuffled(c, d.now, a, b);
    EquivalentParts(c, Decisions(c, d.now, a), Decisions(c, d.now, b), Placements(c, d.now, a), Placements(c, d.now, b));
    EquivalentParts(c, Decisions(c, d.now, a) + Placements(c, d.now, a), Decisions(c, d.now, b) + Placements(c, d.now, b),
                    d.queue, w.queue);
  }

  lemma ClosingAlike(c: Config, d: State, w: State, o: Order, p: Order)
    requires ValidOrder(o) && ValidOrder(p) && Alike(c, d, w) && Sorted(d.queue) && AllFrom(d.queue, d.now)
    ensures Alike(c, Closing(c, d, o), Closing(c, w, p))
  {
    hide UpdateWorld, Equivalent, ValidOrder;
    EquivalentKeeps(c, d.queue, w.queue);
    if BucketEmpty(d) {
      DryMeansLater(d);
      UpdateAlike(c, d, w, o, p);
    }
  }

  // ----- one step -----

  lemma StepAlike(c: Config, s: State, w: State, o: Order, p: Order)
    requires WellFormed(c) && Lite(c, s) && ValidOrder(o) && ValidOrder(p)
    requires Alike(c, s, w) && s.queue != [] && w.queue != [] && s.queue[0] == w.queue[0]
    requires Equivalent(c, s.queue[1..], w.queue[1..])
    ensures Alike(c, Step(c, s, o), Step(c, w, p))
  {
    hide WellFormed, ValidOrder, Known, Dispatch, Closing, Step, Sorted, Alike;
    DispatchAlike(c, s, w, o, p);
    LiteDispatch(c, s, o);
    ClosingAlike(c, Dispatch(c, s, o), Dispatch(c, w, p), o, p);
    StepCloses(c, s, o);
    StepCloses(c, w, p);
  }

  // Two steps, when the heads are exchanged.
  lemma PairStepsAlike(c: Config, s: State, w: State, o: Order, p: Order, o': Order, p': Order)
    requires WellFormed(c) && Sane(c, s) && ValidOrder(o) && ValidOrder(p) && ValidOrder(o') && ValidOrder(p')
    requires |s.queue| >= 2 && Exchangeable(c, s.queue[0], s.queue[1])
    requires w == s.(queue := Swap(c, s.queue, 0), log := w.log) && Equivalent(c, s.log, w.log)
    ensures Alike(c, Step(c, Step(c, s, o), p), Step(c, Step(c, w, o'), p'))
  {
    hide WellFormed, ValidOrder, Known, Dispatch, Closing, Step, Sorted, Alike, React, Unrelated, Sane, Equivalent;
    var e, f, r := s.queue[0], s.queue[1], s.queue[2..];
    assert s.queue == [e, f] + r && w.queue == [f, e] + r;
    DispatchPair(c, s, e, f, r, o, p);
    DispatchPair(c, w, f, e, r, o', p');
    var s1, w1 := Dispatch(c, s, o), Dispatch(c, w, o');
    SaneIsLite(c, s);
    LiteDispatch(c, s, o);
    LiteDispatch(c, s1, p);
    StepCloses(c, s1, p);
    StepCloses(c, w1, p');
    PairAlike(c, s, w, e, f, r, o, p, o', p');
    ClosingAlike(c, Dispatch(c, s1, p), Dispatch(c, w1, p'), p, p');
  }

  // ----- whole drains -----

  // The two queues have the same head, and tails that are alike.
  lemma SwapBehindHead(c: Config, q: seq<Event>, i: nat)
    requires q != [] && !(i == 0 && |q| >= 2 && Exchangeable(c, q[0], q[1]))
    ensures Swap(c, q, i)[0] == q[0] && Equivalent(c, q[1..], Swap(c, q, i)[1..])
  {
    hide Equivalent, Unrelated;
    if i == 0 {
      EquivalentSelf(c, q[1..]);
    } else {
      assert q == [q[0]] + q[1..];
      SwapInParts(c, [q[0]], q[1..], i);
      EquivalentSwap(c, q[1..], i - 1);
    }
  }

  lemma SwapAlike(c: Config, s: State, w: State, i: nat)
    requires w == s.(queue := Swap(c, s.queue, i), log := w.log) && Equivalent(c, s.log, w.log)
    ensures Alike(c, s, w)
  {
    hide Swap, Equivalent;
    EquivalentSwap(c, s.queue, i);
  }

  lemma PathOf(c: Config, s: State, w: State) returns (path: seq<nat>)
    requires Alike(c, s, w)
    ensures w == s.(queue := Swaps(c, s.queue, path), log := w.log) && Equivalent(c, s.log, w.log)
  {
    hide Swaps;
    path :| Swaps(c, s.queue, path) == w.queue;
  }

  lemma DrainAtOnce(c: Config, s: State, ords: nat -> Order)
    ensures Drain(c, s, ords, 0) == s
  {
    hide Step;
  }

  // A state and itself with two neighbours exchanged, each drained in its own orders.
  lemma {:induction false} SwapDrain(c: Config, s: State, w: State, i: nat, ords: nat -> Order, others: nat -> Order,
                                     n: nat)
    requires WellFormed(c) && Sane(c, s) && ValidOrders(ords) && ValidOrders(others)
    requires w == s.(queue := Swap(c, s.queue, i), log := w.log) && Equivalent(c, s.log, w.log)
    requires Drain(c, s, ords, n).queue == []
    ensures Alike(c, Drain(c, s, ords, n), Drain(c, w, others, n))
    decreases n, 1
  {
    hide WellFormed, Sane, Step, ValidOrder, Drain, Swap, Swaps, Alike, Exchangeable, Equivalent, Lite;
    SwapAlike(c, s, w, i);
    DrainAtOnce(c, s, ords);
    DrainAtOnce(c, w, others);
    if s.queue == [] {
      DrainSettles(c, s, ords, 0, n);
      DrainSettles(c, w, others, 0, n);
    } else if i == 0 && |s.queue| >= 2 && Exchangeable(c, s.queue[0], s.queue[1]) {
      HeadsDrain(c, s, w, ords, others, n);
    } else {
      SaneIsLite(c, s);
      SwapBehindHead(c, s.queue, i);
      StepAlike(c, s, w, ords(0), others(0));
      SaneStep(c, s, ords(0));
      DrainFirst(c, s, ords, n - 1);
      DrainFirst(c, w, others, n - 1);
      var s1, w1 := Step(c, s, ords(0)), Step(c, w, others(0));
      var path := PathOf(c, s1, w1);
      PathDrain(c, s1, w1, path, Later(ords), Later(others), n - 1);
    }
  }

  // With the heads exchanged it takes two steps to come together again.
  lemma {:induction false} HeadsDrain(c: Config, s: State, w: State, ords: nat -> Order, others: nat -> Order, n: nat)
    requires WellFormed(c) && Sane(c, s) && ValidOrders(ords) && ValidOrders(others)
    requires |s.queue| >= 2 && Exchangeable(c, s.queue[0], s.queue[1]) && n > 0
    requires w == s.(queue := Swap(c, s.queue, 0), log := w.log) && Equivalent(c, s.log, w.log)
    requires Drain(c, s, ords, n).queue == []
    ensures Alike(c, Drain(c, s, ords, n), Drain(c, w, others, n))
    decreases n, 0
  {
    hide WellFormed, Sane, Step, ValidOrder, Drain, Swap, Swaps, Alike, Exchangeable, Equivalent;
    var s1, w1 := Step(c, s, ords(0)), Step(c, w, others(0));
    SecondWaits(c, s, ords(0));
    DrainFirst(c, s, ords, n - 1);
    DrainFirst(c, w, others, n - 1);
    DrainAtOnce(c, s1, Later(ords));
    DrainFirst(c, s1, Later(ords), n - 2);
    DrainFirst(c, w1, Later(others), n - 2);
    var s2, w2 := Step(c, s1, Later(ords)(0)), Step(c, w1, Later(others)(0));
    SaneStep(c, s, ords(0));
    SaneStep(c, s1, Later(ords)(0));
    PairStepsAlike(c, s, w, ords(0), Later(ords)(0), others(0), Later(others)(0));
    var path := PathOf(c, s2, w2);
    PathDrain(c, s2, w2, path, Later(Later(ords)), Later(Later(others)), n - 2);
  }

  lemma SecondWaits(c: Config, s: State, ord: Order)
    requires |s.queue| >= 2 && Exchangeable(c, s.queue[0], s.queue[1])
    ensures Step(c, s, ord).queue != []
  {
    hide Step, Dispatch, React, Unrelated;
    var e, f, r := s.queue[0], s.queue[1], s.queue[2..];
    assert s.queue == [e, f] + r;
    DispatchPair(c, s, e, f, r, ord, ord);
  }

  // The same along a path of exchanges.
  lemma {:induction false} PathDrain(c: Config, s: State, w: State, path: seq<nat>, ords: nat -> Order,
                                     others: nat -> Order, n: nat)
    requires WellFormed(c) && Sane(c, s) && ValidOrders(ords) && ValidOrders(others)
    requires w == s.(queue := Swaps(c, s.queue, path), log := w.log) && Equivalent(c, s.log, w.log)
    requires Drain(c, s, ords, n).queue == []
    ensures Alike(c, Drain(c, s, ords, n), Drain(c, w, others, n))
    decreases n, |path| + 2
  {
    hide WellFormed, Sane, Step, ValidOrder, Drain, Swap, Alike, Equivalent;
    if path == [] {
      NoSwap(c, s.queue);
      SwapDrain(c, s, w, |s.queue|, ords, others, n);
    } else {
      var m := s.(queue := Swap(c, s.queue, path[0]));
      EquivalentSelf(c, s.log);
      SwapAlike(c, s, m, path[0]);
      SaneAlike(c, s, m);
      SwapDrain(c, s, m, path[0], ords, others, n);
      EndsAlike(c, Drain(c, s, ords, n), Drain(c, m, others, n));
      PathDrain(c, m, w, path[1..], others, others, n);
      AlikeVia(c, Drain(c, s, ords, n), Drain(c, m, others, n), Drain(c, w, others, n));
    }
  }

  lemma NoSwap(c: Config, q: seq<Event>)
    ensures Swap(c, q, |q|) == q
  {}

  lemma EndsAlike(c: Config, s: State, w: State)
    requires Alike(c, s, w)
    ensures s.queue == [] ==> w == s.(log := w.log) && Equivalent(c, s.log, w.log)
  {
    hide Equivalent;
    EquivalentKeeps(c, s.queue, w.queue);
  }

  // If a drain with some iteration orders is over after `n` steps, then so is a drain with any
  // others, and the two differ only by exchanges of unrelated simultaneous events in the history.
  lemma OrderDoesNotMatter(c: Config, s: State, ords: nat -> Order, others: nat -> Order, n: nat)
    requires WellFormed(c) && Reachable(c, s) && ValidOrders(ords) && ValidOrders(others)
    requires Drain(c, s, ords, n).queue == []
    ensures var a, b := Drain(c, s, ords, n), Drain(c, s, others, n);
            b == a.(log := b.log) && Equivalent(c, a.log, b.log)
  {
    hide WellFormed, Reachable, ValidOrder, Drain, Sane, Alike, Swaps, Equivalent;
    ReachableIsSane(c, s);
    NoSwaps(c, s.queue);
    EquivalentSelf(c, s.log);
    PathDrain(c, s, s, [], ords, others, n);
    EndsAlike(c, Drain(c, s, ords, n), Drain(c, s, others, n));
  }

  lemma NoSwaps(c: Config, q: seq<Event>)
    ensures Swaps(c, q, []) == q
  {}

  // Two drains that are over, whatever their orders and lengths, have come to the same end and
  // have dispatched the same events.
  lemma SameEnd(c: Config, s: State, ords: nat -> Order, m: nat, others: nat -> Order, n: nat)
    requires WellFormed(c) && Reachable(c, s) && ValidOrders(ords) && ValidOrders(others)
    requires Drain(c, s, ords, m).queue == [] && Drain(c, s, others, n).queue == []
    ensures var a, b := Drain(c, s, ords, m), Drain(c, s, others, n);
            && b.vms == a.vms && b.power == a.power && b.hosted == a.hosted && b.storage == a.storage && b.now == a.now
            && multiset(b.log) == multiset(a.log)
  {
    hide WellFormed, Reachable, ValidOrder, Drain, Equivalent;
    OrderDoesNotMatter(c, s, ords, others, m);
    EquivalentKeeps(c, Drain(c, s, ords, m).log, Drain(c, s, others, m).log);
    if m <= n {
      DrainSettles(c, s, others, m, n);
    } else {
      DrainSettles(c, s, others, n, m);
    }
  }

  // Whether a drain ends does not depend on its orders.
  lemma EndsInAnyOrder(c: Config, s: State, ords: nat -> Order, others: nat -> Order)
    requires WellFormed(c) && Reachable(c, s) && ValidOrders(ords) && ValidOrders(others)
    ensures Ends(c, s, ords) <==> Ends(c, s, others)
  {
    hide WellFormed, Reachable, ValidOrder, Drain, Equivalent;
    if n: nat :| Drain(c, s, ords, n).queue == [] {
      OrderDoesNotMatter(c, s, ords, others, n);
      assert Drain(c, s, others, n).queue == [];
    }
    if n: nat :| Drain(c, s, others, n).queue == [] {
      OrderDoesNotMatter(c, s, others, ords, n);
      assert Drain(c, s, ords, n).queue == [];
    }
  }
}
