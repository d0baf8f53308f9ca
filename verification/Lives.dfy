/**
 The life of each VM over whole runs, whatever the commands and whatever the storage does:
 nothing is started, completed, reported or deleted more often than it was asked for, only the
 first server hosts, and each transient state has its completion in flight.
 */
module Lives {
  import opened Types
  import opened FlatQueue
  import opened Handlers
  import opened Simulator
  import opened StepFacts
  import opened Registry
  import opened Effects

  function Total(s: State, t: Token): nat { L(s, t) + N(s, t) }

  // Each event of a VM's life is sent at most once for each dispatch of the one that causes it.
  ghost predicate Conserved(c: Config, s: State, v: UUID) {
    && Total(s, Created(c, v)) <= 1
    && Total(s, ToVM(v, Start)) <= L(s, Provision(c, v))
    && Total(s, ToVM(v, StartCompleted)) <= L(s, ToVM(v, Start))
    && Total(s, Hosted(c, v)) <= L(s, ToVM(v, StartCompleted))
    && Total(s, ToVM(v, DeleteCompleted)) <= L(s, ToVM(v, Delete))
    && Total(s, Deleted(c, v)) <= L(s, ToVM(v, DeleteCompleted))
  }

  // Where a VM can be, given what has been sent to it.
  ghost predicate Located(c: Config, s: State, v: UUID) {
    && (forall x :: x in s.hosted && v in s.hosted[x] ==> x == c.first && L(s, Provision(c, v)) >= 1)
    && (Total(s, ToVM(v, Start)) >= 1 ==> c.first in s.hosted && v in s.hosted[c.first])
    && (HasState(s, v, {Starting, Running, Stopping, Stopped}) ==> L(s, ToVM(v, Start)) >= 1)
    && (Total(s, Hosted(c, v)) >= 1 ==> HasState(s, v, {Running, Stopping, Stopped, Deleting, Failure}))
    && (Total(s, ToVM(v, DeleteCompleted)) >= 1 || Total(s, Deleted(c, v)) >= 1 ==>
          HasState(s, v, {Deleting, Failure}))
  }

  // A VM that is between two states has the event that ends the transition in the queue.
  ghost predicate Completing(s: State, v: UUID) {
    && (HasState(s, v, {Starting}) ==> N(s, ToVM(v, StartCompleted)) >= 1)
    && (HasState(s, v, {Stopping}) ==> N(s, ToVM(v, StopCompleted)) >= 1)
    && !HasState(s, v, {Restarting})
  }

  ghost predicate Alive(c: Config, s: State) {
    forall v :: Conserved(c, s, v) && Located(c, s, v) && Completing(s, v)
  }

  // ----- dispatch -----

  lemma ConservedDispatch(c: Config, s: State, ord: Order, v: UUID)
    requires WellFormed(c) && Known(c, s) && s.queue != [] && Conserved(c, s, v)
    ensures Conserved(c, Dispatch(c, s, ord), v)
  {
    hide Dispatch, N, L, Spawn;
    Causes(c, s, v);
    TokenAfter(c, s, ord, Created(c, v));
    TokenAfter(c, s, ord, Provision(c, v));
    TokenAfter(c, s, ord, ToVM(v, Start));
    TokenAfter(c, s, ord, ToVM(v, StartCompleted));
    TokenAfter(c, s, ord, Hosted(c, v));
    TokenAfter(c, s, ord, ToVM(v, Delete));
    TokenAfter(c, s, ord, ToVM(v, DeleteCompleted));
    TokenAfter(c, s, ord, Deleted(c, v));
    hide Known;
  }

  lemma LocatedDispatch(c: Config, s: State, ord: Order, v: UUID)
    requires WellFormed(c) && Known(c, s) && s.queue != [] && Conserved(c, s, v) && Located(c, s, v)
    ensures Located(c, Dispatch(c, s, ord), v)
  {
    HousedDispatch(c, s, ord, v);
    StartedDispatch(c, s, ord, v);
    FinishedDispatch(c, s, ord, v);
    hide Dispatch, N, L, Known, Spawn;
  }

  lemma HousedDispatch(c: Config, s: State, ord: Order, v: UUID)
    requires WellFormed(c) && Known(c, s) && s.queue != [] && Located(c, s, v)
    ensures var s' := Dispatch(c, s, ord);
            && (forall x :: x in s'.hosted && v in s'.hosted[x] ==> x == c.first && L(s', Provision(c, v)) >= 1)
            && (Total(s', ToVM(v, Start)) >= 1 ==> c.first in s'.hosted && v in s'.hosted[c.first])
  {
    hide Dispatch, N, L, Spawn;
    var s' := Dispatch(c, s, ord);
    Causes(c, s, v);
    assert Addressed(c, s, s.queue[0]);
    HostedKeys(c, s, ord);
    TokenAfter(c, s, ord, Provision(c, v));
    TokenAfter(c, s, ord, ToVM(v, Start));
    forall x | x in s'.hosted
      ensures s'.hosted[x] ==
              if x == c.first && s.queue[0].to == c.first && s.queue[0].body.ServerEvent? && s.power[c.first] == On
              then s.hosted[x] + {s.queue[0].body.guest} else s.hosted[x]
    {
      GuestsAfter(c, s, ord, x);
    }
    hide Known;
  }

  lemma HostedKeys(c: Config, s: State, ord: Order)
    requires WellFormed(c) && Known(c, s) && s.queue != []
    ensures Dispatch(c, s, ord).hosted.Keys == s.hosted.Keys == c.servers
  {
    hide Dispatch, Out, StorageReact, ServerReact, ResourceReact, VMReact, DelaysOf, Addressed;
    DispatchShape(c, s, ord);
  }

  lemma StartedDispatch(c: Config, s: State, ord: Order, v: UUID)
    requires WellFormed(c) && Known(c, s) && s.queue != [] && Located(c, s, v)
    ensures var s' := Dispatch(c, s, ord);
            HasState(s', v, {Starting, Running, Stopping, Stopped}) ==> L(s', ToVM(v, Start)) >= 1
  {
    hide Dispatch, N, L, Spawn;
    assert Addressed(c, s, s.queue[0]);
    VMAfter(c, s, ord, v);
    TokenAfter(c, s, ord, ToVM(v, Start));
    hide Known;
  }

  // Once started a VM is never provisioning or starting again, and a deletion only ends in failure.
  lemma NoWayBack(c: Config, s: State, ord: Order, v: UUID)
    requires WellFormed(c) && Known(c, s) && s.queue != []
    ensures HasState(s, v, {Running, Stopping, Stopped, Deleting, Failure}) ==>
              HasState(Dispatch(c, s, ord), v, {Running, Stopping, Stopped, Deleting, Failure})
    ensures HasState(s, v, {Deleting, Failure}) && Tok(s.queue[0]) != ToVM(v, Delete) ==>
              HasState(Dispatch(c, s, ord), v, {Deleting, Failure})
    ensures HasState(s, v, {Deleting}) && Tok(s.queue[0]) == ToVM(v, DeleteCompleted) ==>
              HasState(Dispatch(c, s, ord), v, {Deleting})
    ensures Tok(s.queue[0]) == ToVM(v, Delete) && v in s.vms ==> HasState(Dispatch(c, s, ord), v, {Deleting, Failure})
    ensures Tok(s.queue[0]) == ToVM(v, StartCompleted) && HasState(s, v, {Starting}) ==>
              HasState(Dispatch(c, s, ord), v, {Running})
  {
    hide Dispatch;
    assert Addressed(c, s, s.queue[0]);
    VMAfter(c, s, ord, v);
    hide Known;
  }

  lemma FinishedDispatch(c: Config, s: State, ord: Order, v: UUID)
    requires WellFormed(c) && Known(c, s) && s.queue != [] && Located(c, s, v) && Conserved(c, s, v)
    ensures var s' := Dispatch(c, s, ord);
            && (Total(s', Hosted(c, v)) >= 1 ==> HasState(s', v, {Running, Stopping, Stopped, Deleting, Failure}))
            && (Total(s', ToVM(v, DeleteCompleted)) >= 1 || Total(s', Deleted(c, v)) >= 1 ==>
                  HasState(s', v, {Deleting, Failure}))
  {
    Causes(c, s, v);
    NoWayBack(c, s, ord, v);
    TokenAfter(c, s, ord, Hosted(c, v));
    TokenAfter(c, s, ord, ToVM(v, DeleteCompleted));
    TokenAfter(c, s, ord, Deleted(c, v));
    hide Dispatch, N, L, Known, Spawn, WellFormed, Ready;
  }

  // How a VM comes to be, or stays, in a transition.
  lemma InTransition(c: Config, s: State, ord: Order, v: UUID)
    requires WellFormed(c) && Known(c, s) && s.queue != []
    ensures HasState(Dispatch(c, s, ord), v, {Starting}) ==>
              if s.queue[0].to == v then Tok(s.queue[0]) == ToVM(v, Start) && HasState(s, v, {Provisioning})
              else HasState(s, v, {Starting})
    ensures HasState(Dispatch(c, s, ord), v, {Stopping}) ==>
              if s.queue[0].to == v then Tok(s.queue[0]) == ToVM(v, Stop) && HasState(s, v, {Running})
              else HasState(s, v, {Stopping})
    ensures HasState(Dispatch(c, s, ord), v, {Restarting}) ==> HasState(s, v, {Restarting})
  {
    assert Addressed(c, s, s.queue[0]);
    VMAfter(c, s, ord, v);
    hide Dispatch, Known;
  }

  lemma CompletingDispatch(c: Config, s: State, ord: Order, v: UUID)
    requires WellFormed(c) && Known(c, s) && s.queue != [] && Completing(s, v)
    ensures Completing(Dispatch(c, s, ord), v)
  {
    Causes(c, s, v);
    InTransition(c, s, ord, v);
    TokenAfter(c, s, ord, ToVM(v, StartCompleted));
    TokenAfter(c, s, ord, ToVM(v, StopCompleted));
    hide Dispatch, N, L, Known, Spawn, HasState, WellFormed;
  }

  lemma AliveDispatch(c: Config, s: State, ord: Order)
    requires WellFormed(c) && Known(c, s) && s.queue != [] && Alive(c, s)
    ensures Alive(c, Dispatch(c, s, ord))
  {
    var s' := Dispatch(c, s, ord);
    forall v
      ensures Conserved(c, s', v) && Located(c, s', v) && Completing(s', v)
    {
      ConservedDispatch(c, s, ord, v);
      LocatedDispatch(c, s, ord, v);
      CompletingDispatch(c, s, ord, v);
    }
    hide Dispatch, Conserved, Located, Completing;
  }

  // ----- world update -----

  lemma AliveUpdate(c: Config, s: State, ord: Order)
    requires WellFormed(c) && ValidOrder(ord) && Alive(c, s)
    requires forall i :: 0 <= i < |s.queue| ==> s.now < s.queue[i].time
    ensures Alive(c, Tick(UpdateWorld(c, s, ord)))
  {
    var s' := Tick(UpdateWorld(c, s, ord));
    forall v
      ensures Conserved(c, s', v) && Located(c, s', v) && Completing(s', v)
    {
      assert Conserved(c, s, v);
      AliveUpdateOne(c, s, ord, v);
    }
    hide UpdateWorld, Conserved, Located, Completing;
  }

  lemma UpdateKeeps(c: Config, s: State, ord: Order, k: Token)
    requires ValidOrder(ord)
    requires forall i :: 0 <= i < |s.queue| ==> s.now < s.queue[i].time
    ensures var s' := Tick(UpdateWorld(c, s, ord));
            N(s', k) == N(s, k) + StepFacts.Placed(c, s, k) && L(s', k) == L(s, k)
  {
    UpdateTokens(c, s, ord, k);
    var s' := UpdateWorld(c, s, ord);
    assert N(Tick(s'), k) == N(s', k) && L(Tick(s'), k) == L(s', k);
    hide UpdateWorld, N, L;
  }

  lemma UpdateActors(c: Config, s: State, ord: Order)
    requires forall i :: 0 <= i < |s.queue| ==> s.now < s.queue[i].time
    ensures var s' := Tick(UpdateWorld(c, s, ord));
            && s'.vms == s.vms && s'.hosted == s.hosted && s'.storage == s.storage && s'.power == s.power
            && s'.log == s.log && s'.next == s.next
            && s'.updates == s.updates + [s.now] && s'.now == s.now + 1
  {
    UpdateShape(c, s, ord);
    hide UpdateWorld, Placing, Decisions, Placements;
  }

  // The world update sends nothing but decisions and placements, one of each per pending VM.
  lemma UpdateSends(c: Config, s: State, ord: Order, v: UUID)
    requires WellFormed(c) && ValidOrder(ord)
    requires forall i :: 0 <= i < |s.queue| ==> s.now < s.queue[i].time
    ensures var s' := Tick(UpdateWorld(c, s, ord));
            && s'.log == s.log
            && N(s', Created(c, v)) == N(s, Created(c, v))
            && N(s', Provision(c, v)) == N(s, Provision(c, v)) + (if Pending(s, v) then 1 else 0)
            && N(s', Scheduled(c, v)) == N(s, Scheduled(c, v)) + (if Pending(s, v) then 1 else 0)
            && N(s', ToVM(v, Start)) == N(s, ToVM(v, Start))
            && N(s', ToVM(v, StartCompleted)) == N(s, ToVM(v, StartCompleted))
            && N(s', Hosted(c, v)) == N(s, Hosted(c, v))
            && N(s', ToVM(v, StopCompleted)) == N(s, ToVM(v, StopCompleted))
            && N(s', ToVM(v, Delete)) == N(s, ToVM(v, Delete))
            && N(s', ToVM(v, DeleteCompleted)) == N(s, ToVM(v, DeleteCompleted))
            && N(s', Deleted(c, v)) == N(s, Deleted(c, v))
  {
    hide UpdateWorld, N, WellFormed, Pending;
    UpdateActors(c, s, ord);
    UpdateKeeps(c, s, ord, Created(c, v));
    UpdateKeeps(c, s, ord, Provision(c, v));
    UpdateKeeps(c, s, ord, Scheduled(c, v));
    UpdateKeeps(c, s, ord, ToVM(v, Start));
    UpdateKeeps(c, s, ord, ToVM(v, StartCompleted));
    UpdateKeeps(c, s, ord, Hosted(c, v));
    UpdateKeeps(c, s, ord, ToVM(v, Delete));
    UpdateKeeps(c, s, ord, ToVM(v, DeleteCompleted));
    UpdateKeeps(c, s, ord, Deleted(c, v));
    UpdateKeeps(c, s, ord, ToVM(v, StopCompleted));
  }

  lemma AliveUpdateOne(c: Config, s: State, ord: Order, v: UUID)
    requires WellFormed(c) && ValidOrder(ord) && Conserved(c, s, v) && Located(c, s, v) && Completing(s, v)
    requires forall i :: 0 <= i < |s.queue| ==> s.now < s.queue[i].time
    ensures var s' := Tick(UpdateWorld(c, s, ord));
            Conserved(c, s', v) && Located(c, s', v) && Completing(s', v)
  {
    hide UpdateWorld, N, WellFormed, Pending;
    UpdateActors(c, s, ord);
    UpdateSends(c, s, ord, v);
  }

  // ----- command -----

  lemma AddressedOld(c: Config, s: State, e: Event)
    requires WellFormed(c) && ActorsKnown(c, s) && Addressed(c, s, e)
    ensures e.to < s.next
    ensures e.body.ServerEvent? ==> e.body.guest < s.next
    ensures e.body.StorageEvent? ==> e.body.vm < s.next
  {}

  // Nothing has ever been sent to, or about, a handle not given out yet.
  lemma Fresh(c: Config, s: State, t: Token)
    requires WellFormed(c) && Known(c, s)
    requires t.to == s.next || (t.body.ServerEvent? && t.body.guest == s.next) || (t.body.StorageEvent? &&
             t.body.vm == s.next)
    ensures Total(s, t) == 0
  {
    TokensAbsent(s.queue, t);
    TokensAbsent(s.log, t);
    forall e | e in s.queue || e in s.log
      ensures Tok(e) != t
    {
      assert Addressed(c, s, e);
      AddressedOld(c, s, e);
    }
    hide Tokens, Addressed, ActorsKnown;
  }

  lemma AliveExecute(c: Config, s: State, m: Command)
    requires WellFormed(c) && Known(c, s) && Alive(c, s) && Allowed(c, s, m)
    ensures Alive(c, Execute(c, s, m))
  {
    var s' := Execute(c, s, m);
    forall v
      ensures Conserved(c, s', v) && Located(c, s', v) && Completing(s', v)
    {
      assert Conserved(c, s, v) && Located(c, s, v) && Completing(s, v);
      AliveExecuteOne(c, s, m, v);
    }
    hide Execute, Conserved, Located, Completing;
  }

  lemma ExecuteVMs(c: Config, s: State, m: Command, v: UUID)
    requires Known(c, s)
    ensures v in Execute(c, s, m).vms <==> v in s.vms || (m.CreateVM? && v == s.next)
    ensures v in s.vms ==> Execute(c, s, m).vms[v] == s.vms[v]
    ensures m.CreateVM? ==> Execute(c, s, m).vms[s.next].state == Provisioning && s.next !in s.vms
    ensures Execute(c, s, m).hosted == s.hosted && Execute(c, s, m).power == s.power
    ensures Execute(c, s, m).storage == s.storage && Execute(c, s, m).log == s.log
  {
    hide InsertBack, InsertFront, Addressed;
  }

  lemma AliveExecuteOne(c: Config, s: State, m: Command, v: UUID)
    requires WellFormed(c) && Known(c, s) && Allowed(c, s, m)
    requires Conserved(c, s, v) && Located(c, s, v) && Completing(s, v)
    ensures var s' := Execute(c, s, m);
            Conserved(c, s', v) && Located(c, s', v) && Completing(s', v)
  {
    hide Execute, N, Allowed, CommandEvents, WellFormed;
    ExecuteVMs(c, s, m, v);
    if v == s.next {
      Fresh(c, s, Created(c, v));
      Fresh(c, s, Hosted(c, v));
      Fresh(c, s, ToVM(v, DeleteCompleted));
      Fresh(c, s, Deleted(c, v));
    }
    ExecuteSends(c, s, m, v);
    hide Known;
  }

  // What a command sends to or about one VM: at most its creation, a stop or a delete.
  lemma ExecuteSends(c: Config, s: State, m: Command, v: UUID)
    ensures var s' := Execute(c, s, m);
            && s'.log == s.log
            && N(s', Created(c, v)) == N(s, Created(c, v)) + (if m == CreateVM(true) && v == s.next then 1 else 0)
            && N(s', Provision(c, v)) == N(s, Provision(c, v))
            && N(s', Scheduled(c, v)) == N(s, Scheduled(c, v))
            && N(s', ToVM(v, Start)) == N(s, ToVM(v, Start))
            && N(s', ToVM(v, StartCompleted)) == N(s, ToVM(v, StartCompleted))
            && N(s', Hosted(c, v)) == N(s, Hosted(c, v))
            && N(s', ToVM(v, StopCompleted)) == N(s, ToVM(v, StopCompleted))
            && N(s', ToVM(v, Delete)) == N(s, ToVM(v, Delete)) + (if m == DeleteRequest(v) then 1 else 0)
            && N(s', ToVM(v, DeleteCompleted)) == N(s, ToVM(v, DeleteCompleted))
            && N(s', Deleted(c, v)) == N(s, Deleted(c, v))
  {
    ExecuteTokens(c, s, m, Created(c, v));
    ExecuteTokens(c, s, m, Provision(c, v));
    ExecuteTokens(c, s, m, Scheduled(c, v));
    ExecuteTokens(c, s, m, ToVM(v, Start));
    ExecuteTokens(c, s, m, ToVM(v, StartCompleted));
    ExecuteTokens(c, s, m, Hosted(c, v));
    ExecuteTokens(c, s, m, ToVM(v, Delete));
    ExecuteTokens(c, s, m, ToVM(v, DeleteCompleted));
    ExecuteTokens(c, s, m, Deleted(c, v));
    ExecuteTokens(c, s, m, ToVM(v, StopCompleted));
    ExecuteShape(c, s, m);
    hide Execute, N;
  }
}
