/**
 What holds in every reachable state: the clock, quiescence, exactly-once placement, the
 agreement of the three views of a VM, and the order of its reports.
 */
module Guarantees {
  import opened Types
  import opened FlatQueue
  import opened Simulator
  import opened StepFacts
  import opened Clock
  import opened Registry
  import opened Effects
  import opened Deciding
  import opened Placement
  import opened Soundness
  import Lives
  import PowerFlow
  import HostedFirst

  // Dispatched timestamps never go back, everything queued is due at the last of them or later,
  // the clock shows that time or the next, and every event handed to the loop was either
  // dispatched or is still queued: the rejection of past events is never taken.
  lemma ClockNeverGoesBack(c: Config, s: State)
    requires WellFormed(c) && Reachable(c, s)
    ensures forall i, j :: 0 <= i < j < |s.log| ==> s.log[i].time <= s.log[j].time
    ensures forall i :: 0 <= i < |s.queue| ==> Last(s) <= s.queue[i].time
    ensures s.now == Last(s) || s.now == Last(s) + 1
    ensures s.inserted == |s.log| + |s.queue|
  {
    ReachableIsSound(c, s);
    hide Known, DecisionsOrderly, Lives.Alive, AllTraced, PowerFlow.AllPowering, HostedFirst.InOrder, WellFormed,
        Reachable;
  }

  lemma RestedResource(s: State, r: UUID)
    requires s.queue == [] && PowerFlow.Powering(s, r) && r in s.power
    ensures s.power[r] in {Off, On, Failed}
  {
    assert N(s, ToResource(r, BootFinished)) == 0 && N(s, ToResource(r, ShutdownFinished)) == 0;
  }

  lemma RestedVM(s: State, v: UUID)
    requires s.queue == [] && Lives.Completing(s, v) && v in s.vms
    ensures s.vms[v].state in {Provisioning, Running, Stopped, Deleting, Failure}
  {
    assert N(s, ToVM(v, StartCompleted)) == 0 && N(s, ToVM(v, StopCompleted)) == 0;
    assert !HasState(s, v, {Starting}) && !HasState(s, v, {Stopping}) && !HasState(s, v, {Restarting});
    match s.vms[v].state {
      case Starting | Stopping | Restarting => assert false;
      case _ =>
    }
  }

  // When the queue is empty nothing is in transition and no VM waits to be placed.
  lemma Quiescence(c: Config, s: State)
    requires WellFormed(c) && Reachable(c, s) && s.queue == []
    ensures forall r :: r in s.power ==> s.power[r] in {Off, On, Failed}
    ensures forall v :: v in s.vms ==> s.vms[v].state in {Provisioning, Running, Stopped, Deleting, Failure}
    ensures forall v :: !Pending(s, v)
  {
    ReachableIsSound(c, s);
    hide Known, DecisionsOrderly, AllTraced, HostedFirst.InOrder, WellFormed, Reachable, Timely, N;
    hide Lives.Completing, PowerFlow.Powering;
    forall r | r in s.power
      ensures s.power[r] in {Off, On, Failed}
    {
      RestedResource(s, r);
    }
    forall v | v in s.vms
      ensures s.vms[v].state in {Provisioning, Running, Stopped, Deleting, Failure}
    {
      assert Lives.Completing(s, v);
      RestedVM(s, v);
    }
  }

  // No lookup outside the loop's try block fails and no null notificator is dereferenced:
  // every handle in the storage and on a server is a VM that was created in full.
  lemma NeverCrashes(c: Config, s: State)
    requires WellFormed(c) && Reachable(c, s)
    ensures !s.crashed && !LookupFails(c, s)
    ensures forall v :: v in s.storage.vms ==> Ready(c, s, v)
    ensures forall x, v :: x in s.hosted && v in s.hosted[x] ==> Ready(c, s, v)
  {
    ReachableIsSound(c, s);
    LookupsSucceed(c, s);
    assert forall x :: x in s.hosted ==> AllReady(c, s, s.hosted[x]);
    hide DecisionsOrderly, Lives.Alive, AllTraced, PowerFlow.AllPowering, HostedFirst.InOrder, WellFormed, Reachable,
        Timely;
  }

  // The report that a VM is hosted is dispatched before any report that it is deleted.
  lemma HostedBeforeDeleted(c: Config, s: State, v: UUID, i: nat, j: nat)
    requires WellFormed(c) && Reachable(c, s)
    requires i < |s.log| && j < |s.log| && Tok(s.log[i]) == Hosted(c, v) && Tok(s.log[j]) == Deleted(c, v)
    ensures i < j
  {
    hide Sound, WellFormed, Reachable;
    ReachableIsSound(c, s);
    LogInOrder(c, s);
    hide HostedFirst.Orderly;
    NotOvertaken(c, s.log, v, i, j);
  }

  lemma LogInOrder(c: Config, s: State)
    requires Sound(c, s)
    ensures HostedFirst.Orderly(c, s.log)
  {
    hide Known, DecisionsOrderly, Lives.Alive, AllTraced, PowerFlow.AllPowering, Timely, HostedFirst.Orderly;
  }

  lemma NotOvertaken(c: Config, l: seq<Event>, v: UUID, i: nat, j: nat)
    requires HostedFirst.Orderly(c, l) && i < |l| && j < |l| && Tok(l[i]) == Hosted(c, v) && Tok(l[j]) == Deleted(c, v)
    ensures i < j
  {
    assert HostedFirst.Overtakes(c, l[j], l[i]);
  }

  // While the storage works, the creation, the placement, the start and the hosting report of a VM have each
  // been sent at most once, over the whole run.
  lemma PlacedAtMostOnce(c: Config, s: State, v: UUID)
    requires WellFormed(c) && Reachable(c, s) && s.storage.ok
    ensures Lives.Total(s, Created(c, v)) <= 1
    ensures Lives.Total(s, Provision(c, v)) <= 1
    ensures Lives.Total(s, ToVM(v, Start)) <= 1
    ensures Lives.Total(s, ToVM(v, StartCompleted)) <= 1
    ensures Lives.Total(s, Hosted(c, v)) <= 1
  {
    ReachableIsSound(c, s);
    hide Known, DecisionsOrderly, PowerFlow.AllPowering, HostedFirst.InOrder, WellFormed, Reachable, Timely, N, L;
    assert Traced(c, s, v) && Lives.Conserved(c, s, v);
  }

  // The two unchecked overwrites of the storage only ever meet the status they should: a
  // decision finds its VM pending, a hosting report finds it provisioning or gone.
  lemma OverwritesAreExpected(c: Config, s: State, v: UUID)
    requires WellFormed(c) && Reachable(c, s) && s.storage.ok && s.queue != []
    ensures Tok(s.queue[0]) == Scheduled(c, v) ==> Is(s, v, PendingVM)
    ensures Tok(s.queue[0]) == Hosted(c, v) && v in s.storage.vms ==> Is(s, v, ProvisioningVM)
  {
    ReachableIsSound(c, s);
    HeadQueued(s);
    hide Known, PowerFlow.AllPowering, HostedFirst.InOrder, WellFormed, Reachable, Timely, N, L;
    assert Traced(c, s, v) && Lives.Conserved(c, s, v) && DecidedOnce(c, s, v);
  }

  // Created, pending, provisioning, hosted: one step at a time, or removed.
  ghost predicate Moves(s: State, s': State, v: UUID) {
    var st, st' := s.storage.vms, s'.storage.vms;
    || v !in st'
    || (v in st && st[v] == st'[v])
    || (v !in st && st'[v] == CreatedVM)
    || (v in st && (st[v], st'[v]) in {(CreatedVM, PendingVM), (PendingVM, ProvisioningVM), (ProvisioningVM, HostedVM)})
  }

  lemma StatusMovesForward(c: Config, s: State, ord: Order, v: UUID)
    requires WellFormed(c) && Reachable(c, s) && ValidOrder(ord) && Step(c, s, ord).storage.ok
    ensures Moves(s, Step(c, s, ord), v)
  {
    if s.queue != [] {
      ReachableIsSound(c, s);
      StepStorage(c, s, ord);
      if s.storage.ok {
        OverwritesAreExpected(c, s, v);
      }
      assert Traced(c, s, v) && Known(c, s);
      hide Known, PowerFlow.AllPowering, HostedFirst.InOrder, WellFormed, Reachable, Timely, N, L, Dispatch, Step,
          Sound;
      StatusAfter(c, s, ord, v);
    }
  }

  // The storage, the servers and the VM itself agree on where the VM is.
  lemma ViewsAgree(c: Config, s: State, v: UUID)
    requires WellFormed(c) && Reachable(c, s) && s.storage.ok
    ensures Is(s, v, CreatedVM) || Is(s, v, PendingVM) ==>
              && (forall x :: x in s.hosted ==> v !in s.hosted[x])
              && L(s, ToVM(v, Start)) == 0
              && !HasState(s, v, {Starting, Running, Stopping, Stopped})
    ensures HasState(s, v, {Starting, Running, Stopping, Stopped}) ==>
              c.first in s.hosted && forall x :: x in s.hosted ==> (v in s.hosted[x] <==> x == c.first)
    ensures HasState(s, v, {Running}) ==> Is(s, v, HostedVM) || N(s, Hosted(c, v)) >= 1
    ensures Is(s, v, HostedVM) ==>
              && c.first in s.hosted && v in s.hosted[c.first]
              && HasState(s, v, {Running, Stopping, Stopped, Deleting, Failure})
  {
    ReachableIsSound(c, s);
    hide Known, DecisionsOrderly, PowerFlow.AllPowering, HostedFirst.InOrder, WellFormed, Reachable, Timely, N, L;
    assert Traced(c, s, v) && Lives.Conserved(c, s, v) && Lives.Located(c, s, v);
  }

  // When a world update runs no placement decision is in flight, whether the storage works or not.
  lemma NoDecisionInFlight(c: Config, s: State, ord: Order, v: UUID)
    requires WellFormed(c) && Reachable(c, s) && ValidOrder(ord) && s.queue != []
    requires BucketEmpty(Dispatch(c, s, ord))
    ensures N(Dispatch(c, s, ord), Scheduled(c, v)) == 0
  {
    ReachableIsSound(c, s);
    SoundDispatch(c, s, ord);
    hide Known, Lives.Alive, AllTraced, PowerFlow.AllPowering, HostedFirst.InOrder, WellFormed, Dispatch, Reachable,
        Sound, DecidedOnce;
    DryMeansLater(Dispatch(c, s, ord));
    NoneInFlight(c, Dispatch(c, s, ord), v);
  }

  // Whenever a world update runs in a reachable state, it leaves the instant that has just run
  // dry with one decision for each pending VM, then one placement for each, then the later
  // events: the storage records every decision before a server acts on any, in any order of
  // iteration.
  lemma DecisionsBeforePlacements(c: Config, s: State, ord: Order) returns (p: seq<UUID>)
    requires WellFormed(c) && Reachable(c, s) && ValidOrder(ord) && s.queue != []
    requires BucketEmpty(Dispatch(c, s, ord))
    ensures var d := Dispatch(c, s, ord);
            && Distinct(p) && (forall v :: v in p <==> Pending(d, v))
            && Step(c, s, ord).queue == Decisions(c, d.now, p) + Placements(c, d.now, p) + d.queue
            && forall e :: e in d.queue ==> d.now < e.time
  {
    hide Sound, WellFormed, Dispatch, Reachable, UpdateWorld, Placing, Decisions, Placements, BucketEmpty;
    ReachableIsSound(c, s);
    var d := Dispatch(c, s, ord);
    DryDispatch(c, s, ord);
    p := Placing(c, d, ord);
    UpdateShape(c, d, ord);
    PlacingEnumerates(c, d, ord);
    StepUpdates(c, s, ord);
  }

  // When a dispatch leaves its instant dry everything left is due later.
  lemma DryDispatch(c: Config, s: State, ord: Order)
    requires WellFormed(c) && Sound(c, s) && ValidOrder(ord) && s.queue != [] && BucketEmpty(Dispatch(c, s, ord))
    ensures var d := Dispatch(c, s, ord); forall i :: 0 <= i < |d.queue| ==> d.now < d.queue[i].time
  {
    hide Known, DecisionsOrderly, Lives.Alive, AllTraced, PowerFlow.AllPowering, HostedFirst.InOrder, WellFormed,
        Dispatch, Sound;
    SoundDispatch(c, s, ord);
    DryMeansLater(Dispatch(c, s, ord));
  }

  lemma StepUpdates(c: Config, s: State, ord: Order)
    requires s.queue != [] && BucketEmpty(Dispatch(c, s, ord))
    ensures Step(c, s, ord).queue == UpdateWorld(c, Dispatch(c, s, ord), ord).queue
  {
    hide Dispatch, UpdateWorld;
  }
}
