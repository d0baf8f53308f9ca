/**
 The moment that decides. While everything queued is due now, as it is after any batch given at
 rest, a drain gets stuck by its first world update or never: whatever fails the storage later
 finds no VM pending.
 */
module FirstUpdate {
  import opened Types
  import opened FlatQueue
  import opened Handlers
  import opened Simulator
  import opened StepFacts
  import opened Clock
  import opened Registry
  import opened Effects
  import opened Deciding
  import opened Soundness
  import opened Draining
  import opened Batches
  import opened Updates
  import Lives

  ghost predicate NoneAsked(q: seq<Event>) {
    forall e :: e in q ==> !IsRequest(e)
  }

  // Nothing will ever be stuck: no request is left, and no VM pending without a decision in
  // flight, or none at all once the storage has failed.
  ghost predicate Calm(c: Config, s: State) {
    && NoneAsked(s.queue)
    && (s.storage.ok ==> AllDecided(c, s))
    && (!s.storage.ok ==> forall v :: !Pending(s, v))
  }

  lemma NoneAskedDispatch(c: Config, s: State, ord: Order)
    requires WellFormed(c) && Known(c, s) && s.queue != [] && NoneAsked(s.queue[1..])
    ensures NoneAsked(Dispatch(c, s, ord).queue)
  {
    hide Dispatch, Known, WellFormed, Out, InsertAllBack, Handled, IsRequest;
    DispatchShape(c, s, ord);
    OutAsksNothing(c, s, ord);
    InsertAllMembers(s.queue[1..], Out(c, s, ord));
  }

  lemma FailingKeeps(st: Storage, e: Event)
    requires !StorageReact(st, e).ok
    ensures StorageReact(st, e).vms == st.vms
  {}

  // A decision does not make the storage fail.
  lemma DecisionSucceeds(c: Config, s: State, ord: Order)
    requires WellFormed(c) && Known(c, s) && DecisionsOrderly(c, s) && s.queue != [] && s.storage.ok
    requires IsDecision(s.queue[0])
    ensures Dispatch(c, s, ord).storage.ok
  {
    hide Dispatch, WellFormed, N, DecisionsLead;
    var e := s.queue[0];
    HeadQueued(s);
    assert Addressed(c, s, e);
    StorageAfter(c, s, ord);
    assert DecidedOnce(c, s, e.body.vm);
    hide Known;
  }

  lemma NothingDecided(c: Config, s: State)
    requires DecisionsLead(s.queue, Last(s)) && s.queue != [] && !IsDecision(s.queue[0]) && !IsRequest(s.queue[0])
    ensures forall v :: N(s, Scheduled(c, v)) == 0
  {
    hide N, DecisionsLead, IsDecision, IsRequest;
    forall v
      ensures N(s, Scheduled(c, v)) == 0
    {
      if N(s, Scheduled(c, v)) >= 1 {
        HeadBeforeDecision(c, s, v);
      }
    }
  }

  // When the storage fails in a calm state no VM is pending.
  lemma CalmFailure(c: Config, s: State, ord: Order)
    requires WellFormed(c) && Known(c, s) && DecisionsOrderly(c, s) && s.queue != [] && Calm(c, s)
    requires !Dispatch(c, s, ord).storage.ok
    ensures forall v :: !Pending(Dispatch(c, s, ord), v)
  {
    hide Dispatch, Known, WellFormed, N, DecisionsLead, IsDecision, IsRequest, StorageReact;
    var d := Dispatch(c, s, ord);
    StorageAfter(c, s, ord);
    if s.queue[0].to == c.storage {
      FailingKeeps(s.storage, s.queue[0]);
    }
    assert s.queue[0] in s.queue;
    if s.storage.ok {
      if IsDecision(s.queue[0]) {
        DecisionSucceeds(c, s, ord);
      }
      NothingDecided(c, s);
      assert forall v :: !Pending(s, v);
    }
    assert forall v :: Pending(d, v) == Pending(s, v);
  }

  lemma CalmDispatch(c: Config, s: State, ord: Order)
    requires WellFormed(c) && Known(c, s) && DecisionsOrderly(c, s) && s.queue != [] && Calm(c, s)
    ensures Calm(c, Dispatch(c, s, ord))
  {
    hide Dispatch, Known, WellFormed, DecisionsOrderly, AllDecided, IsRequest;
    assert s.queue[0] in s.queue && forall e :: e in s.queue[1..] ==> e in s.queue;
    NoneAskedDispatch(c, s, ord);
    if Dispatch(c, s, ord).storage.ok {
      OkBeforeDispatch(c, s, ord);
      DecidedStays(c, s, ord);
    } else {
      CalmFailure(c, s, ord);
    }
  }

  lemma OkBeforeDispatch(c: Config, s: State, ord: Order)
    requires WellFormed(c) && Known(c, s) && s.queue != [] && Dispatch(c, s, ord).storage.ok
    ensures s.storage.ok
  {
    hide Dispatch, Known, WellFormed;
    StorageAfter(c, s, ord);
  }

  // A world update leaves no request behind that was not there, and every pending VM decided.
  lemma UpdateCalms(c: Config, d: State, ord: Order)
    requires WellFormed(c) && ValidOrder(ord) && NoneAsked(d.queue)
    requires forall i :: 0 <= i < |d.queue| ==> d.now < d.queue[i].time
    requires !Stuck(Tick(UpdateWorld(c, d, ord)))
    ensures Calm(c, Tick(UpdateWorld(c, d, ord)))
  {
    hide UpdateWorld, WellFormed, AllDecided, Placing, ValidOrder;
    AllDecidedUpdate(c, d, ord);
    UpdateShape(c, d, ord);
    var p := Placing(c, d, ord);
    assert NoneAsked(Decisions(c, d.now, p) + Placements(c, d.now, p) + d.queue);
    hide Decisions, Placements, IsRequest;
  }

  lemma CalmIsNotStuck(c: Config, s: State)
    requires Calm(c, s)
    ensures !Stuck(s)
  {
    hide AllDecided, NoneAsked;
  }

  lemma CalmStep(c: Config, s: State, ord: Order)
    requires WellFormed(c) && ValidOrder(ord) && Sound(c, s) && Calm(c, s)
    ensures Calm(c, Step(c, s, ord))
  {
    hide WellFormed, ValidOrder, Sound, Known, Dispatch, UpdateWorld, Calm, Timely, Stuck;
    if s.queue != [] {
      SoundKnown(c, s);
      SoundDispatch(c, s, ord);
      SoundDecisions(c, s);
      CalmDispatch(c, s, ord);
      var d := Dispatch(c, s, ord);
      if BucketEmpty(d) {
        DryNow(c, d);
        CalmIsNotStuck(c, d);
        UpdateKeepsStuck(c, d, ord);
        CalmQueue(c, d);
        UpdateCalms(c, d, ord);
      }
    }
  }

  lemma SoundDecisions(c: Config, s: State)
    requires Sound(c, s)
    ensures DecisionsOrderly(c, s)
  {
    hide DecisionsOrderly;
  }

  lemma CalmQueue(c: Config, s: State)
    requires Calm(c, s)
    ensures NoneAsked(s.queue)
  {
    hide NoneAsked;
  }

  lemma UpdateKeepsStuck(c: Config, d: State, ord: Order)
    requires forall i :: 0 <= i < |d.queue| ==> d.now < d.queue[i].time
    ensures Stuck(Tick(UpdateWorld(c, d, ord))) <==> Stuck(d)
  {
    hide UpdateWorld;
    Lives.UpdateActors(c, d, ord);
    var s' := Tick(UpdateWorld(c, d, ord));
    assert forall v :: Pending(s', v) == Pending(d, v);
  }

  // ----- up to the first update -----

  // No update yet; what is queued is due from `t` on, and requests at `t`.
  ghost predicate Opening(updates: seq<int>, t: int, s: State) {
    && s.updates == updates
    && forall e :: e in s.queue ==> t <= e.time && (IsRequest(e) ==> e.time == t)
  }

  lemma OpeningDispatch(c: Config, s: State, ord: Order, updates: seq<int>, t: int)
    requires WellFormed(c) && Known(c, s) && s.queue != [] && Opening(updates, t, s)
    ensures Opening(updates, t, Dispatch(c, s, ord)) && t <= Dispatch(c, s, ord).now
  {
    hide Dispatch, Known, WellFormed, Out, InsertAllBack, Handled, IsRequest;
    DispatchShape(c, s, ord);
    OutAsksNothing(c, s, ord);
    InsertAllMembers(s.queue[1..], Out(c, s, ord));
    assert s.queue[0] in s.queue && forall e :: e in s.queue[1..] ==> e in s.queue;
  }

  // One step: still before the first update, or it has just run, stuck or calm.
  lemma OpeningStep(c: Config, s: State, ord: Order, updates: seq<int>, t: int)
    requires WellFormed(c) && ValidOrder(ord) && Sound(c, s) && Opening(updates, t, s)
    ensures var s' := Step(c, s, ord);
            Opening(updates, t, s') || Calm(c, s') || (Stuck(s') && |s'.updates| == |updates| + 1)
  {
    hide WellFormed, ValidOrder, Sound, Known, Dispatch, UpdateWorld, Calm, Timely, Stuck, IsRequest;
    if s.queue != [] {
      SoundKnown(c, s);
      SoundDispatch(c, s, ord);
      OpeningDispatch(c, s, ord, updates, t);
      var d := Dispatch(c, s, ord);
      if BucketEmpty(d) {
        DryNow(c, d);
        assert NoneAsked(d.queue);
        Lives.UpdateActors(c, d, ord);
        if !Stuck(Tick(UpdateWorld(c, d, ord))) {
          UpdateCalms(c, d, ord);
        }
      }
    }
  }

  // Stuck no later than the first update of the drain.
  ghost predicate StuckSoon(c: Config, s: State, ords: nat -> Order, n: nat) {
    Stuck(Drain(c, s, ords, n)) && |Drain(c, s, ords, n).updates| <= |s.updates| + 1
  }

  lemma {:induction false} Phases(c: Config, s: State, ords: nat -> Order, n: nat)
    requires WellFormed(c) && Sound(c, s) && Giving(s) && ValidOrders(ords)
    ensures var w := Drain(c, s, ords, n);
            Opening(s.updates, s.now, w) || Calm(c, w) || exists m: nat :: StuckSoon(c, s, ords, m)
  {
    hide WellFormed, Sound, ValidOrder, Step, Calm, Stuck, IsRequest;
    if n != 0 {
      hide Opening, Giving;
      Phases(c, s, ords, n - 1);
      var prev := Drain(c, s, ords, n - 1);
      DrainSound(c, s, ords, n - 1);
      if Calm(c, prev) {
        CalmStep(c, prev, ords(n - 1));
      } else if Opening(s.updates, s.now, prev) {
        OpeningStep(c, prev, ords(n - 1), s.updates, s.now);
        var w := Drain(c, s, ords, n);
        if Stuck(w) && |w.updates| == |s.updates| + 1 {
          assert StuckSoon(c, s, ords, n);
        }
      }
    }
  }

  // Whether a drain gets stuck is decided by its first world update.
  lemma StuckByFirstUpdate(c: Config, s: State, ords: nat -> Order)
    requires WellFormed(c) && Sound(c, s) && Giving(s) && ValidOrders(ords)
    ensures GetsStuck(c, s, ords) <==> exists n: nat :: StuckSoon(c, s, ords, n)
  {
    hide WellFormed, Sound, ValidOrder, Drain, Calm, Stuck, Giving;
    if GetsStuck(c, s, ords) {
      var n: nat :| Stuck(Drain(c, s, ords, n));
      Phases(c, s, ords, n);
      if Calm(c, Drain(c, s, ords, n)) {
        CalmIsNotStuck(c, Drain(c, s, ords, n));
      } else if Opening(s.updates, s.now, Drain(c, s, ords, n)) {
        assert StuckSoon(c, s, ords, n);
      }
    }
  }
}
