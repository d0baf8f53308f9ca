/**
 Exchanging unrelated events, queued or already dispatched, leaves the invariant of reachable
 states intact, and with it the one fact more that lets such events commute: what a decision or
 a report is about is still in the storage.
 */
module Exchanging {
  import opened Types
  import opened FlatQueue
  import opened Simulator
  import opened StepFacts
  import opened Clock
  import opened Registry
  import opened Effects
  import opened Deciding
  import opened Placement
  import opened Soundness
  import opened Reordering
  import Lives
  import PowerFlow
  import HostedFirst

  // The same state, but for the order of unrelated events.
  ghost predicate Alike(c: Config, s: State, w: State) {
    && w == s.(queue := w.queue, log := w.log)
    && Equivalent(c, s.queue, w.queue)
    && Equivalent(c, s.log, w.log)
  }

  lemma AlikeVia(c: Config, s: State, w: State, x: State)
    requires Alike(c, s, w) && Alike(c, w, x)
    ensures Alike(c, s, x)
  {
    hide Equivalent;
    EquivalentVia(c, s.queue, w.queue, x.queue);
    EquivalentVia(c, s.log, w.log, x.log);
  }

  // ----- orders in the queue -----

  lemma SwapLead(c: Config, q: seq<Event>, i: nat, t: int)
    requires DecisionsLead(q, t)
    ensures DecisionsLead(Swap(c, q, i), t)
  {
    if i + 1 < |q| && Exchangeable(c, q[i], q[i + 1]) {
      var r := Swap(c, q, i);
      forall k | 0 <= k < |q|
        ensures IsDecision(r[k]) == IsDecision(q[k]) && IsRequest(r[k]) == IsRequest(q[k]) && r[k].time == q[k].time
      {
        hide DecisionsLead, Above;
      }
      hide IsDecision, IsRequest, Swap, Exchangeable;
    }
  }

  lemma {:induction false} SwapsLead(c: Config, q: seq<Event>, path: seq<nat>, t: int)
    requires DecisionsLead(q, t)
    ensures DecisionsLead(Swaps(c, q, path), t)
    decreases |path|
  {
    hide Swap, DecisionsLead;
    if path != [] {
      SwapLead(c, q, path[0], t);
      SwapsLead(c, Swap(c, q, path[0]), path[1..], t);
    }
  }

  lemma EquivalentLead(c: Config, q: seq<Event>, r: seq<Event>, t: int)
    requires Equivalent(c, q, r) && DecisionsLead(q, t)
    ensures DecisionsLead(r, t)
  {
    hide Swaps, DecisionsLead;
    var path :| Swaps(c, q, path) == r;
    SwapsLead(c, q, path, t);
  }

  lemma NoOvertaking(c: Config, e: Event, f: Event)
    requires Exchangeable(c, e, f)
    ensures !HostedFirst.Overtakes(c, f, e)
  {
    hide Above;
  }

  lemma SwapOrderly(c: Config, q: seq<Event>, i: nat)
    requires HostedFirst.Orderly(c, q)
    ensures HostedFirst.Orderly(c, Swap(c, q, i))
  {
    if i + 1 < |q| && Exchangeable(c, q[i], q[i + 1]) {
      var r := Swap(c, q, i);
      NoOvertaking(c, q[i], q[i + 1]);
      hide Exchangeable, HostedFirst.Overtakes;
      forall j, k | 0 <= j < k < |r|
        ensures !HostedFirst.Overtakes(c, r[j], r[k])
      {
        var j', k' := if j == i then i + 1 else if j == i + 1 then i else j, if k == i then i + 1 else if k == i + 1 then i else k;
        assert r[j] == q[j'] && r[k] == q[k'];
        assert j' < k' || (j == i && k == i + 1);
      }
    }
  }

  lemma {:induction false} SwapsOrderly(c: Config, q: seq<Event>, path: seq<nat>)
    requires HostedFirst.Orderly(c, q)
    ensures HostedFirst.Orderly(c, Swaps(c, q, path))
    decreases |path|
  {
    hide Swap, HostedFirst.Orderly;
    if path != [] {
      SwapOrderly(c, q, path[0]);
      SwapsOrderly(c, Swap(c, q, path[0]), path[1..]);
    }
  }

  lemma EquivalentOrderly(c: Config, q: seq<Event>, r: seq<Event>)
    requires Equivalent(c, q, r) && HostedFirst.Orderly(c, q)
    ensures HostedFirst.Orderly(c, r)
  {
    hide Swaps, HostedFirst.Orderly;
    var path :| Swaps(c, q, path) == r;
    SwapsOrderly(c, q, path);
  }

  // ----- the invariant -----

  // Everything that counts tokens counts the same.
  lemma AlikeCounts(c: Config, s: State, w: State)
    requires Alike(c, s, w)
    ensures forall t :: N(w, t) == N(s, t) && L(w, t) == L(s, t)
  {
    hide Equivalent, Tokens;
    EquivalentTokens(c, s.queue, w.queue);
    EquivalentTokens(c, s.log, w.log);
  }

  lemma AlikeKnown(c: Config, s: State, w: State)
    requires Known(c, s) && Alike(c, s, w)
    ensures Known(c, w)
  {
    hide Equivalent, ActorsKnown, Addressed;
    EquivalentKeeps(c, s.queue, w.queue);
    EquivalentKeeps(c, s.log, w.log);
    KnownSame(c, s, w);
  }

  lemma AlikeTimely(c: Config, s: State, w: State)
    requires Timely(s) && Alike(c, s, w)
    ensures Timely(w) && Last(w) == Last(s)
  {
    hide Equivalent;
    EquivalentKeeps(c, s.queue, w.queue);
    EquivalentKeeps(c, s.log, w.log);
    hide Sorted;
  }

  // One VM, one resource: the same actors, the same counts.
  lemma AlikeOne(c: Config, s: State, w: State, v: UUID)
    requires w == s.(queue := w.queue, log := w.log) && forall t :: N(w, t) == N(s, t) && L(w, t) == L(s, t)
    ensures Lives.Conserved(c, s, v) ==> Lives.Conserved(c, w, v)
    ensures Lives.Located(c, s, v) ==> Lives.Located(c, w, v)
    ensures Lives.Completing(s, v) ==> Lives.Completing(w, v)
    ensures DecidedOnce(c, s, v) ==> DecidedOnce(c, w, v)
    ensures Traced(c, s, v) ==> Traced(c, w, v)
    ensures PowerFlow.Powering(s, v) ==> PowerFlow.Powering(w, v)
  {
    hide N, L;
  }

  lemma AlikeLives(c: Config, s: State, w: State)
    requires Alike(c, s, w) && Lives.Alive(c, s) && AllTraced(c, s) && PowerFlow.AllPowering(s)
    requires forall v :: DecidedOnce(c, s, v)
    ensures Lives.Alive(c, w) && AllTraced(c, w) && PowerFlow.AllPowering(w) && forall v :: DecidedOnce(c, w, v)
  {
    hide N, L, Equivalent, Lives.Conserved, Lives.Located, Lives.Completing, DecidedOnce, Traced, PowerFlow.Powering;
    AlikeCounts(c, s, w);
    forall v
      ensures Lives.Conserved(c, w, v) && Lives.Located(c, w, v) && Lives.Completing(w, v)
      ensures DecidedOnce(c, w, v) && Traced(c, w, v) && PowerFlow.Powering(w, v)
    {
      assert Lives.Conserved(c, s, v) && Traced(c, s, v) && PowerFlow.Powering(s, v);
      AlikeOne(c, s, w, v);
    }
  }

  lemma AlikeInOrder(c: Config, s: State, w: State, t: int)
    requires Alike(c, s, w) && HostedFirst.InOrder(c, s.log, s.queue, t)
    ensures HostedFirst.InOrder(c, w.log, w.queue, t)
  {
    hide Equivalent, HostedFirst.Orderly, HostedFirst.Overtakes;
    EquivalentKeeps(c, s.queue, w.queue);
    EquivalentKeeps(c, s.log, w.log);
    EquivalentOrderly(c, s.queue, w.queue);
    EquivalentOrderly(c, s.log, w.log);
  }

  lemma AlikeRested(c: Config, s: State, w: State)
    requires Alike(c, s, w) && Rested(s)
    ensures Rested(w) && (w.queue == [] <==> s.queue == [])
  {
    hide Equivalent;
    EquivalentKeeps(c, s.queue, w.queue);
    assert forall v :: Pending(w, v) == Pending(s, v);
  }

  lemma SoundAlike(c: Config, s: State, w: State)
    requires Sound(c, s) && Alike(c, s, w)
    ensures Sound(c, w)
  {
    hide Alike, Known, Timely, DecisionsLead, DecidedOnce, Lives.Alive, AllTraced, PowerFlow.AllPowering,
        HostedFirst.InOrder, Rested;
    AlikeKnown(c, s, w);
    AlikeTimely(c, s, w);
    AlikeLives(c, s, w);
    AlikeInOrder(c, s, w, Last(s));
    AlikeRested(c, s, w);
    QueueAlike(c, s, w);
    EquivalentLead(c, s.queue, w.queue, Last(s));
  }

  lemma QueueAlike(c: Config, s: State, w: State)
    requires Alike(c, s, w)
    ensures Equivalent(c, s.queue, w.queue) && Equivalent(c, s.log, w.log)
  {
    hide Equivalent;
  }

  // ----- what the storage keeps -----

  // A VM created in full is about to be created in the storage, known to it, or deleted from it.
  ghost predicate Kept(c: Config, s: State, v: UUID) {
    s.storage.ok && Ready(c, s, v) ==> N(s, Created(c, v)) >= 1 || v in s.storage.vms || L(s, Deleted(c, v)) >= 1
  }

  ghost predicate AllKept(c: Config, s: State) {
    forall v :: Kept(c, s, v)
  }

  lemma KeptDispatch(c: Config, s: State, ord: Order, v: UUID)
    requires WellFormed(c) && Known(c, s) && s.queue != [] && Kept(c, s, v) && ValidOrder(ord)
    ensures Kept(c, Dispatch(c, s, ord), v)
  {
    hide Dispatch, Known, N, L, Spawn, WellFormed;
    var d := Dispatch(c, s, ord);
    KnownDispatch(c, s, ord);
    VMAfter(c, s, ord, v);
    if d.storage.ok {
      Causes(c, s, v);
      StatusAfter(c, s, ord, v);
      TokenAfter(c, s, ord, Created(c, v));
      TokenAfter(c, s, ord, Deleted(c, v));
      assert Ready(c, d, v) ==> Ready(c, s, v);
    }
  }

  lemma KeptUpdate(c: Config, d: State, ord: Order, v: UUID)
    requires WellFormed(c) && ValidOrder(ord) && Kept(c, d, v)
    requires forall i :: 0 <= i < |d.queue| ==> d.now < d.queue[i].time
    ensures Kept(c, Tick(UpdateWorld(c, d, ord)), v)
  {
    hide UpdateWorld, N, WellFormed;
    Lives.UpdateActors(c, d, ord);
    Lives.UpdateSends(c, d, ord, v);
  }

  lemma KeptStep(c: Config, s: State, ord: Order)
    requires WellFormed(c) && ValidOrder(ord) && Sound(c, s) && AllKept(c, s)
    ensures AllKept(c, Step(c, s, ord))
  {
    hide Dispatch, UpdateWorld, Sound, Known, WellFormed, Timely, Kept, ValidOrder;
    if s.queue != [] {
      SoundKnown(c, s);
      SoundDispatch(c, s, ord);
      var d := Dispatch(c, s, ord);
      forall v
        ensures Kept(c, d, v)
      {
        KeptDispatch(c, s, ord, v);
      }
      if BucketEmpty(d) {
        DryNow(c, d);
        forall v
          ensures Kept(c, Tick(UpdateWorld(c, d, ord)), v)
        {
          KeptUpdate(c, d, ord, v);
        }
      }
    }
  }

  lemma KeptExecute(c: Config, s: State, m: Command, v: UUID)
    requires WellFormed(c) && Known(c, s) && Kept(c, s, v)
    ensures Kept(c, Execute(c, s, m), v)
  {
    hide Execute, N, L, Known, WellFormed;
    Lives.ExecuteVMs(c, s, m, v);
    Lives.ExecuteSends(c, s, m, v);
    assert L(Execute(c, s, m), Deleted(c, v)) == L(s, Deleted(c, v)) by { ExecuteTokens(c, s, m, Deleted(c, v)); }
    ExecuteReady(c, s, m, v);
  }

  lemma KeptNext(c: Config, s: State, a: Action)
    requires WellFormed(c) && Sound(c, s) && AllKept(c, s) && Enabled(c, s, a)
    ensures AllKept(c, Next(c, s, a))
  {
    hide Execute, Step, Sound, Known, Timely, WellFormed, Kept, ValidOrder, Allowed;
    match a
    case Do(m) =>
      SoundKnown(c, s);
      forall v
        ensures Kept(c, Execute(c, s, m), v)
      {
        KeptExecute(c, s, m, v);
      }
    case Sim(ord) => KeptStep(c, s, ord);
  }

  lemma {:induction false} KeptAlong(c: Config, t: seq<State>, script: seq<Action>, i: nat)
    requires WellFormed(c) && IsRun(c, t, script) && i <= |script|
    ensures AllKept(c, t[i])
  {
    hide Sound, WellFormed, Next, Enabled, AllKept, Initial;
    if i == 0 {
      KeptInitially(c, t[0]);
    } else {
      KeptAlong(c, t, script, i - 1);
      SoundAlong(c, t, script, i - 1);
      var a := script[i - 1];
      KeptNext(c, t[i - 1], a);
    }
  }

  lemma KeptInitially(c: Config, s: State)
    requires Initial(c, s)
    ensures AllKept(c, s)
  {}

  // The whole invariant.
  ghost predicate Sane(c: Config, s: State) {
    Sound(c, s) && AllKept(c, s)
  }

  lemma ReachableIsSane(c: Config, s: State)
    requires WellFormed(c) && Reachable(c, s)
    ensures Sane(c, s)
  {
    hide Sound, WellFormed, Initial, Enabled, Next, AllKept;
    ReachableIsSound(c, s);
    var t, script :| IsRun(c, t, script) && t[|script|] == s;
    KeptAlong(c, t, script, |script|);
  }

  lemma SaneStep(c: Config, s: State, ord: Order)
    requires WellFormed(c) && ValidOrder(ord) && Sane(c, s)
    ensures Sane(c, Step(c, s, ord))
  {
    hide Sound, WellFormed, AllKept, Step;
    SoundStep(c, s, ord);
    KeptStep(c, s, ord);
  }

  lemma SaneAlike(c: Config, s: State, w: State)
    requires Sane(c, s) && Alike(c, s, w)
    ensures Sane(c, w)
  {
    hide Sound, Alike, Kept;
    SoundAlike(c, s, w);
    forall v
      ensures Kept(c, w, v)
    {
      KeptAlike(c, s, w, v);
    }
  }

  lemma KeptAlike(c: Config, s: State, w: State, v: UUID)
    requires Kept(c, s, v) && Alike(c, s, w)
    ensures Kept(c, w, v)
  {
    hide Equivalent, N, L;
    AlikeCounts(c, s, w);
  }

  // What a queued decision or report is about is in the storage, as long as that works.
  lemma SubjectKnown(c: Config, s: State, e: Event)
    requires WellFormed(c) && Sane(c, s) && s.storage.ok && e in s.queue && e.to == c.storage
    requires e.body.StorageEvent? && e.body.storageType in {VMScheduled, VMHosted}
    ensures e.body.vm in s.storage.vms
  {
    hide Sound, WellFormed, Kept, N, L;
    var v := e.body.vm;
    QueuedCounts(s, e);
    if e.body.storageType == VMScheduled {
      DecidedIsPending(c, s, v);
    } else {
      SoundKnown(c, s);
      assert Ready(c, s, v) by { AboutReady(c, s, e); }
      assert Kept(c, s, v);
      ReportedIsKept(c, s, v);
    }
  }

  lemma QueuedCounts(s: State, e: Event)
    requires e in s.queue
    ensures N(s, Tok(e)) >= 1
  {
    TokensAbsent(s.queue, Tok(e));
    hide Tokens;
  }

  lemma DecidedIsPending(c: Config, s: State, v: UUID)
    requires Sound(c, s) && s.storage.ok && N(s, Scheduled(c, v)) >= 1
    ensures v in s.storage.vms
  {
    assert DecidedOnce(c, s, v);
    hide Known, Lives.Alive, AllTraced, PowerFlow.AllPowering, HostedFirst.InOrder, Timely, N, DecisionsLead;
  }

  lemma AboutReady(c: Config, s: State, e: Event)
    requires WellFormed(c) && Known(c, s) && e in s.queue && e.to == c.storage
    requires e.body.StorageEvent? && e.body.storageType == VMHosted
    ensures Ready(c, s, e.body.vm)
  {
    assert Addressed(c, s, e);
    hide ActorsKnown;
  }

  lemma ReportedIsKept(c: Config, s: State, v: UUID)
    requires Sound(c, s) && s.storage.ok && N(s, Hosted(c, v)) >= 1 && Kept(c, s, v) && Ready(c, s, v)
    ensures v in s.storage.vms
  {
    hide Known, DecisionsOrderly, PowerFlow.AllPowering, Timely, N, L, HostedFirst.InOrder, Lives.Alive;
    PlacedOnce(c, s, v);
    HostedFirst.NotYetDeleted(c, s, v);
    assert Traced(c, s, v);
  }

  // It has been placed, so its creation is over.
  lemma PlacedOnce(c: Config, s: State, v: UUID)
    requires Sound(c, s) && N(s, Hosted(c, v)) >= 1
    ensures L(s, Provision(c, v)) >= 1
  {
    assert Lives.Conserved(c, s, v);
    hide Known, DecisionsOrderly, PowerFlow.AllPowering, Timely, N, L, HostedFirst.InOrder, Lives.Alive, AllTraced;
  }
}
