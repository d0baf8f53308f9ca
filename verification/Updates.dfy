/**
 How often the world is updated: while the storage works, at most twice at the same time within
 one drain. The first update at a time may place VMs there and then; when their placements
 have run nothing is left to place.
 */
module Updates {
  import opened Types
  import opened FlatQueue
  import opened Simulator
  import opened StepFacts
  import opened Clock
  import opened Registry
  import opened Effects
  import opened Deciding
  import opened Placement
  import opened Soundness
  import opened Draining
  import Lives
  import PowerFlow
  import HostedFirst

  // World updates at time `t` after the first `from` of the history.
  ghost function UpdatesAt(s: State, from: nat, t: int): nat {
    if from <= |s.updates| then multiset(s.updates[from..])[t] else 0
  }

  // Everything still queued with a request in it is due later than `t`.
  ghost predicate RequestsLater(q: seq<Event>, t: int) {
    forall e :: e in q && IsRequest(e) ==> t < e.time
  }

  // Every pending VM has a decision in flight.
  ghost predicate AllDecided(c: Config, s: State) {
    forall v :: Pending(s, v) ==> N(s, Scheduled(c, v)) >= 1
  }

  ghost predicate Paced(c: Config, from: nat, s: State) {
    && from <= |s.updates|
    && (forall t :: UpdatesAt(s, from, t) <= 2)
    && (forall t :: Last(s) < t ==> UpdatesAt(s, from, t) == 0)
    && (UpdatesAt(s, from, Last(s)) >= 1 ==> RequestsLater(s.queue, Last(s)) && AllDecided(c, s))
    && (UpdatesAt(s, from, Last(s)) >= 2 ==> forall e :: e in s.queue ==> Last(s) < e.time)
  }

  // ----- one dispatch -----

  lemma DecidedStays(c: Config, s: State, ord: Order)
    requires WellFormed(c) && Known(c, s) && s.queue != [] && Dispatch(c, s, ord).storage.ok
    requires AllDecided(c, s) && !IsRequest(s.queue[0])
    ensures AllDecided(c, Dispatch(c, s, ord))
  {
    hide Dispatch, Known, N, Spawn, WellFormed;
    var d := Dispatch(c, s, ord);
    forall v | Pending(d, v)
      ensures N(d, Scheduled(c, v)) >= 1
    {
      StatusAfter(c, s, ord, v);
      TokenAfter(c, s, ord, Scheduled(c, v));
      assert Tok(s.queue[0]) != Requested(c, v);
      assert Tok(s.queue[0]) != Scheduled(c, v);
    }
  }

  lemma OutAsksNothing(c: Config, s: State, ord: Order)
    requires WellFormed(c) && Known(c, s) && s.queue != []
    ensures forall e :: e in Out(c, s, ord) ==> !IsRequest(e)
  {
    hide Out, Known, WellFormed;
    OutShape(c, s, ord);
    var out := Out(c, s, ord);
    if |out| == 1 && !s.queue[0].body.ResourceEvent? {
      EmitsSpawn(c, s, ord, Tok(out[0]));
    }
  }

  lemma RequestsDispatch(c: Config, s: State, ord: Order, t: int)
    requires WellFormed(c) && Known(c, s) && s.queue != [] && RequestsLater(s.queue, t)
    ensures RequestsLater(Dispatch(c, s, ord).queue, t)
  {
    hide Dispatch, Known, WellFormed, Out, InsertAllBack, Handled;
    DispatchShape(c, s, ord);
    OutAsksNothing(c, s, ord);
    InsertAllMembers(s.queue[1..], Out(c, s, ord));
  }

  // After a dispatch no third update is due, and a second one has nothing to place.
  lemma PacedDispatch(c: Config, from: nat, s: State, ord: Order)
    requires WellFormed(c) && Known(c, s) && Timely(s) && s.queue != [] && Dispatch(c, s, ord).storage.ok
    requires Paced(c, from, s)
    ensures var d := Dispatch(c, s, ord);
            && from <= |d.updates| && d.updates == s.updates
            && (forall t :: UpdatesAt(d, from, t) <= 2)
            && (forall t :: d.now < t ==> UpdatesAt(d, from, t) == 0)
            && UpdatesAt(d, from, d.now) <= 1
            && (UpdatesAt(d, from, d.now) == 1 ==> RequestsLater(d.queue, d.now) && AllDecided(c, d))
  {
    hide Dispatch, Known, WellFormed, Handled, Out, RequestsLater, AllDecided;
    DispatchShape(c, s, ord);
    var d, e := Dispatch(c, s, ord), s.queue[0];
    assert e in s.queue;
    assert forall t :: UpdatesAt(d, from, t) == UpdatesAt(s, from, t);
    if UpdatesAt(d, from, d.now) >= 1 {
      assert d.now == Last(s);
      NotARequest(s.queue, Last(s));
      RequestsDispatch(c, s, ord, Last(s));
      DecidedStays(c, s, ord);
    }
  }

  lemma NotARequest(q: seq<Event>, t: int)
    requires q != [] && RequestsLater(q, t) && q[0].time == t
    ensures !IsRequest(q[0])
  {
    assert q[0] in q;
  }

  // ----- one world update -----

  lemma NothingToPlace(c: Config, d: State, ord: Order)
    requires ValidOrder(ord) && DecisionsLead(d.queue, d.now) && AllDecided(c, d)
    requires forall i :: 0 <= i < |d.queue| ==> d.now < d.queue[i].time
    ensures UpdateWorld(c, d, ord).queue == d.queue
  {
    hide UpdateWorld, N, DecisionsLead;
    forall v
      ensures !Pending(d, v)
    {
      NoneInFlight(c, d, v);
    }
    hide Pending;
    NoPendingNoUpdate(c, d, ord);
  }

  lemma AllDecidedUpdate(c: Config, d: State, ord: Order)
    requires WellFormed(c) && ValidOrder(ord)
    requires forall i :: 0 <= i < |d.queue| ==> d.now < d.queue[i].time
    ensures AllDecided(c, Tick(UpdateWorld(c, d, ord)))
  {
    hide UpdateWorld, N, WellFormed;
    Lives.UpdateActors(c, d, ord);
    var s' := Tick(UpdateWorld(c, d, ord));
    forall v | Pending(s', v)
      ensures N(s', Scheduled(c, v)) >= 1
    {
      Lives.UpdateSends(c, d, ord, v);
    }
  }

  lemma RequestsUpdate(c: Config, d: State, ord: Order)
    requires forall i :: 0 <= i < |d.queue| ==> d.now < d.queue[i].time
    ensures RequestsLater(UpdateWorld(c, d, ord).queue, d.now)
  {
    UpdateShape(c, d, ord);
    hide UpdateWorld, Placing;
    var p := Placing(c, d, ord);
    forall e | e in UpdateWorld(c, d, ord).queue && IsRequest(e)
      ensures d.now < e.time
    {
      assert e !in Decisions(c, d.now, p) && e !in Placements(c, d.now, p);
      hide Decisions, Placements;
      assert e in d.queue;
    }
  }

  lemma OneMoreUpdate(d: State, s': State, from: nat, t: int)
    requires from <= |d.updates| && s'.updates == d.updates + [d.now]
    ensures UpdatesAt(s', from, t) == UpdatesAt(d, from, t) + if t == d.now then 1 else 0
  {
    assert s'.updates[from..] == d.updates[from..] + [d.now];
  }

  lemma PacedUpdate(c: Config, from: nat, d: State, ord: Order)
    requires WellFormed(c) && ValidOrder(ord) && DecisionsLead(d.queue, d.now) && d.now == Last(d)
    requires forall i :: 0 <= i < |d.queue| ==> d.now < d.queue[i].time
    requires from <= |d.updates| && (forall t :: UpdatesAt(d, from, t) <= 2)
    requires forall t :: d.now < t ==> UpdatesAt(d, from, t) == 0
    requires UpdatesAt(d, from, d.now) <= 1
    requires UpdatesAt(d, from, d.now) == 1 ==> AllDecided(c, d)
    ensures Paced(c, from, Tick(UpdateWorld(c, d, ord)))
  {
    hide UpdateWorld, WellFormed, DecisionsLead, AllDecided, RequestsLater, UpdatesAt;
    var s' := Tick(UpdateWorld(c, d, ord));
    Lives.UpdateActors(c, d, ord);
    forall t
      ensures UpdatesAt(s', from, t) == UpdatesAt(d, from, t) + if t == d.now then 1 else 0
    {
      OneMoreUpdate(d, s', from, t);
    }
    AllDecidedUpdate(c, d, ord);
    RequestsUpdate(c, d, ord);
    if UpdatesAt(d, from, d.now) == 1 {
      NothingToPlace(c, d, ord);
    }
  }

  lemma StillPaced(c: Config, from: nat, d: State)
    requires from <= |d.updates| && (forall t :: UpdatesAt(d, from, t) <= 2) && d.now == Last(d)
    requires forall t :: d.now < t ==> UpdatesAt(d, from, t) == 0
    requires UpdatesAt(d, from, d.now) <= 1
    requires UpdatesAt(d, from, d.now) == 1 ==> RequestsLater(d.queue, d.now) && AllDecided(c, d)
    ensures Paced(c, from, d)
  {
    hide UpdatesAt, AllDecided, RequestsLater;
  }

  lemma PacedStep(c: Config, from: nat, s: State, ord: Order)
    requires WellFormed(c) && ValidOrder(ord) && Sound(c, s) && Paced(c, from, s) && Step(c, s, ord).storage.ok
    ensures Paced(c, from, Step(c, s, ord))
  {
    hide Dispatch, UpdateWorld, Sound, Known, Lives.Alive, DecisionsOrderly, DecisionsLead, PowerFlow.AllPowering,
        HostedFirst.InOrder, AllTraced, WellFormed, UpdatesAt, AllDecided, RequestsLater, Paced, Timely;
    if s.queue != [] {
      SoundDispatch(c, s, ord);
      SoundKnown(c, s);
      StepStorage(c, s, ord);
      PacedDispatch(c, from, s, ord);
      var d := Dispatch(c, s, ord);
      if BucketEmpty(d) {
        DryNow(c, d);
        Lives.UpdateActors(c, d, ord);
        PacedUpdate(c, from, d, ord);
      } else {
        StillPaced(c, from, d);
      }
    }
  }

  lemma {:induction false} PacedDrain(c: Config, s: State, ords: nat -> Order, n: nat)
    requires WellFormed(c) && Sound(c, s) && ValidOrders(ords) && Drain(c, s, ords, n).storage.ok
    ensures Paced(c, |s.updates|, Drain(c, s, ords, n))
  {
    hide Sound, WellFormed, Step, AllDecided, RequestsLater;
    if n == 0 {
      assert s.updates[|s.updates|..] == [];
    } else {
      var prev := Drain(c, s, ords, n - 1);
      DrainSound(c, s, ords, n - 1);
      hide UpdatesAt, Paced;
      OkBefore(c, prev, ords(n - 1));
      PacedDrain(c, s, ords, n - 1);
      PacedStep(c, |s.updates|, prev, ords(n - 1));
    }
  }

  // A failed storage stays failed.
  lemma OkBefore(c: Config, s: State, ord: Order)
    requires WellFormed(c) && Sound(c, s) && ValidOrder(ord) && Step(c, s, ord).storage.ok
    ensures s.storage.ok
  {
    hide Dispatch, UpdateWorld, Sound, Known, WellFormed, Timely;
    if s.queue != [] {
      SoundKnown(c, s);
      StepStorage(c, s, ord);
      StorageAfter(c, s, ord);
    }
  }

  // Within one drain and while the storage works the world is updated at most twice at any time.
  lemma UpdatedAtMostTwice(c: Config, s: State, ords: nat -> Order, n: nat, t: int)
    requires WellFormed(c) && Reachable(c, s) && ValidOrders(ords) && Drain(c, s, ords, n).storage.ok
    ensures var s' := Drain(c, s, ords, n);
            |s.updates| <= |s'.updates| && multiset(s'.updates[|s.updates|..])[t] <= 2
  {
    hide Sound, WellFormed, Reachable, ValidOrders, Drain, RequestsLater, AllDecided;
    ReachableIsSound(c, s);
    PacedDrain(c, s, ords, n);
    assert UpdatesAt(Drain(c, s, ords, n), |s.updates|, t) <= 2;
  }
}
