/**
 Placement while the storage works: a VM's status only moves from created to pending to
 provisioning to hosted, at most one placement of it is ever sent, and the storage, the server
 and the VM itself agree on where it is.
 */
module Placement {
  import opened Types
  import opened FlatQueue
  import opened Simulator
  import opened StepFacts
  import opened Registry
  import opened Effects
  import opened Deciding
  import Lives

  predicate Is(s: State, v: UUID, st: VMStatus) {
    v in s.storage.vms && s.storage.vms[v] == st
  }

  // What one dispatch that leaves the storage working does to the status of one VM.
  lemma StatusAfter(c: Config, s: State, ord: Order, v: UUID)
    requires WellFormed(c) && Known(c, s) && s.queue != [] && Dispatch(c, s, ord).storage.ok
    ensures s.storage.ok
    ensures var t, st, st' := Tok(s.queue[0]), s.storage.vms, Dispatch(c, s, ord).storage.vms;
            if t == Created(c, v) then v !in st && v in st' && st'[v] == CreatedVM
            else if t == Deleted(c, v) then v in st && v !in st'
            else if t == Scheduled(c, v) then v in st && v in st' && st'[v] == ProvisioningVM
            else if t == Hosted(c, v) then v in st && v in st' && st'[v] == HostedVM
            else if t == Requested(c, v) then
              v in st && v in st' && st'[v] == if st[v] == CreatedVM || st[v] == StoppedVM then PendingVM else st[v]
            else (v in st <==> v in st') && (v in st ==> st'[v] == st[v])
  {
    hide Dispatch;
    assert Addressed(c, s, s.queue[0]);
    StorageAfter(c, s, ord);
    hide Known;
  }

  ghost predicate Traced(c: Config, s: State, v: UUID) {
    s.storage.ok ==>
      && Lives.Total(s, Provision(c, v)) <= 1
      && (N(s, Created(c, v)) >= 1 ==> v !in s.storage.vms && Lives.Total(s, Provision(c, v)) == 0)
      && (Is(s, v, CreatedVM) ==> Lives.Total(s, Provision(c, v)) == 0)
      && (Is(s, v, PendingVM) ==> L(s, Provision(c, v)) == 0 && N(s, Provision(c, v)) == N(s, Scheduled(c, v)))
      && (Is(s, v, HostedVM) ==> L(s, Hosted(c, v)) >= 1)
      && (HasState(s, v, {Running}) ==> Is(s, v, HostedVM) || N(s, Hosted(c, v)) >= 1)
      && !Is(s, v, StoppedVM)
  }

  ghost predicate AllTraced(c: Config, s: State) {
    forall v :: Traced(c, s, v)
  }

  // The placement of a VM cannot overtake the decision about it.
  lemma DecisionBeforePlacement(c: Config, s: State, v: UUID)
    requires s.queue != [] && DecisionsOrderly(c, s) && N(s, Scheduled(c, v)) >= 1
    ensures Tok(s.queue[0]) != Provision(c, v)
  {
    HeadBeforeDecision(c, s, v);
  }

  lemma TracedCountsDispatch(c: Config, s: State, ord: Order, v: UUID)
    requires WellFormed(c) && Known(c, s) && s.queue != [] && DecisionsOrderly(c, s) && Dispatch(c, s, ord).storage.ok
    requires Lives.Conserved(c, s, v) && Traced(c, s, v)
    ensures var s' := Dispatch(c, s, ord);
            && Lives.Total(s', Provision(c, v)) <= 1
            && (N(s', Created(c, v)) >= 1 ==> v !in s'.storage.vms && Lives.Total(s', Provision(c, v)) == 0)
            && (Is(s', v, CreatedVM) ==> Lives.Total(s', Provision(c, v)) == 0)
            && (Is(s', v, PendingVM) ==> L(s', Provision(c, v)) == 0 && N(s', Provision(c, v)) == N(s', Scheduled(c, v)))
            && !Is(s', v, StoppedVM)
  {
    Causes(c, s, v);
    StatusAfter(c, s, ord, v);
    TokenAfter(c, s, ord, Provision(c, v));
    TokenAfter(c, s, ord, Scheduled(c, v));
    TokenAfter(c, s, ord, Created(c, v));
    assert DecidedOnce(c, s, v);
    if N(s, Scheduled(c, v)) >= 1 {
      DecisionBeforePlacement(c, s, v);
    }
    hide Dispatch, N, L, Known, Spawn, DecisionsOrderly, WellFormed;
  }

  lemma TracedHostedDispatch(c: Config, s: State, ord: Order, v: UUID)
    requires WellFormed(c) && Known(c, s) && s.queue != [] && DecisionsOrderly(c, s) && Dispatch(c, s, ord).storage.ok
    requires Lives.Conserved(c, s, v) && Lives.Located(c, s, v) && Traced(c, s, v)
    ensures var s' := Dispatch(c, s, ord);
            && (Is(s', v, HostedVM) ==> L(s', Hosted(c, v)) >= 1)
            && (HasState(s', v, {Running}) ==> Is(s', v, HostedVM) || N(s', Hosted(c, v)) >= 1)
  {
    HostedStays(c, s, ord, v);
    RunningStays(c, s, ord, v);
    hide Dispatch, N, L, Known;
  }

  lemma HostedStays(c: Config, s: State, ord: Order, v: UUID)
    requires WellFormed(c) && Known(c, s) && s.queue != [] && Dispatch(c, s, ord).storage.ok && Traced(c, s, v)
    ensures Is(Dispatch(c, s, ord), v, HostedVM) ==> L(Dispatch(c, s, ord), Hosted(c, v)) >= 1
  {
    hide Dispatch, N, L, Spawn, WellFormed, Known;
    StatusAfter(c, s, ord, v);
    TokenAfter(c, s, ord, Hosted(c, v));
  }

  // A VM that has just completed its start has a report under way.
  lemma NewlyRunning(c: Config, s: State, ord: Order, v: UUID)
    requires WellFormed(c) && Known(c, s) && s.queue != []
    requires Tok(s.queue[0]) == ToVM(v, StartCompleted) && HasState(s, v, {Starting})
    ensures N(Dispatch(c, s, ord), Hosted(c, v)) >= 1
  {
    hide Dispatch, N, L, Spawn, WellFormed, Known;
    StartCauses(c, s, v);
    TokenAfter(c, s, ord, Hosted(c, v));
  }

  // A running VM is not about to be deleted, and if its placement is just being decided, then
  // its report is still under way.
  lemma RunningHead(c: Config, s: State, v: UUID)
    requires s.queue != [] && DecidedOnce(c, s, v) && Lives.Located(c, s, v) && Traced(c, s, v) && s.storage.ok
    requires HasState(s, v, {Running})
    ensures Tok(s.queue[0]) != Deleted(c, v)
    ensures Tok(s.queue[0]) == Scheduled(c, v) ==> N(s, Hosted(c, v)) >= 1
  {
    hide N, L;
    HeadQueued(s);
  }

  lemma StillRunning(c: Config, s: State, ord: Order, v: UUID)
    requires WellFormed(c) && Known(c, s) && s.queue != [] && DecidedOnce(c, s, v) && Dispatch(c, s, ord).storage.ok
    requires Lives.Located(c, s, v) && Traced(c, s, v) && HasState(s, v, {Running})
    ensures var s' := Dispatch(c, s, ord); Is(s', v, HostedVM) || N(s', Hosted(c, v)) >= 1
  {
    hide Dispatch, N, L, Spawn, WellFormed, Known, HasState, Lives.Located, DecidedOnce;
    StatusAfter(c, s, ord, v);
    RunningHead(c, s, v);
    assert Is(s, v, HostedVM) || N(s, Hosted(c, v)) >= 1;
    hide Traced;
    TokenAfter(c, s, ord, Hosted(c, v));
  }

  // A VM that runs is hosted in the storage's eyes too, or the storage is about to hear of it.
  lemma RunningStays(c: Config, s: State, ord: Order, v: UUID)
    requires WellFormed(c) && Known(c, s) && s.queue != [] && DecisionsOrderly(c, s) && Dispatch(c, s, ord).storage.ok
    requires Lives.Located(c, s, v) && Traced(c, s, v)
    ensures var s' := Dispatch(c, s, ord);
            HasState(s', v, {Running}) ==> Is(s', v, HostedVM) || N(s', Hosted(c, v)) >= 1
  {
    assert DecidedOnce(c, s, v);
    hide Dispatch, N, L, DecisionsOrderly, WellFormed, Known, Lives.Located, Traced, DecidedOnce;
    StaysRunning(c, s, ord, v);
    if HasState(Dispatch(c, s, ord), v, {Running}) {
      if s.queue[0].to == v {
        NewlyRunning(c, s, ord, v);
      } else {
        StillRunning(c, s, ord, v);
      }
    }
  }

  lemma StaysRunning(c: Config, s: State, ord: Order, v: UUID)
    requires WellFormed(c) && Known(c, s) && s.queue != []
    ensures HasState(Dispatch(c, s, ord), v, {Running}) ==>
              if s.queue[0].to == v then Tok(s.queue[0]) == ToVM(v, StartCompleted) && HasState(s, v, {Starting})
              else HasState(s, v, {Running})
  {
    assert Addressed(c, s, s.queue[0]);
    VMAfter(c, s, ord, v);
    hide Dispatch, Known;
  }

  lemma TracedDispatch(c: Config, s: State, ord: Order)
    requires WellFormed(c) && Known(c, s) && s.queue != [] && DecisionsOrderly(c, s) && Lives.Alive(c, s) &&
             AllTraced(c, s)
    ensures AllTraced(c, Dispatch(c, s, ord))
  {
    forall v
      ensures Traced(c, Dispatch(c, s, ord), v)
    {
      if Dispatch(c, s, ord).storage.ok {
        assert Traced(c, s, v) && Lives.Conserved(c, s, v) && Lives.Located(c, s, v);
        TracedCountsDispatch(c, s, ord, v);
        TracedHostedDispatch(c, s, ord, v);
      }
      hide Dispatch, N, L, Known, DecisionsOrderly, Lives.Conserved, Lives.Located, Lives.Total, HasState, Is;
    }
    hide Dispatch, Known, DecisionsOrderly, Traced;
  }

  lemma TracedUpdate(c: Config, s: State, ord: Order)
    requires WellFormed(c) && ValidOrder(ord) && DecisionsLead(s.queue, s.now) && AllTraced(c, s)
    requires forall i :: 0 <= i < |s.queue| ==> s.now < s.queue[i].time
    ensures AllTraced(c, Tick(UpdateWorld(c, s, ord)))
  {
    hide UpdateWorld, Traced, DecisionsLead, WellFormed;
    forall v
      ensures Traced(c, Tick(UpdateWorld(c, s, ord)), v)
    {
      TracedUpdateOne(c, s, ord, v);
    }
  }

  lemma TracedUpdateOne(c: Config, s: State, ord: Order, v: UUID)
    requires WellFormed(c) && ValidOrder(ord) && DecisionsLead(s.queue, s.now) && Traced(c, s, v)
    requires forall i :: 0 <= i < |s.queue| ==> s.now < s.queue[i].time
    ensures Traced(c, Tick(UpdateWorld(c, s, ord)), v)
  {
    hide UpdateWorld, N, WellFormed, DecisionsLead;
    NoneInFlight(c, s, v);
    Lives.UpdateActors(c, s, ord);
    Lives.UpdateSends(c, s, ord, v);
  }

  lemma TracedExecute(c: Config, s: State, m: Command)
    requires WellFormed(c) && Known(c, s) && Allowed(c, s, m) && AllTraced(c, s)
    ensures AllTraced(c, Execute(c, s, m))
  {
    hide Execute, Traced, Known, Allowed, WellFormed;
    forall v
      ensures Traced(c, Execute(c, s, m), v)
    {
      TracedExecuteOne(c, s, m, v);
    }
  }

  lemma TracedExecuteOne(c: Config, s: State, m: Command, v: UUID)
    requires WellFormed(c) && Known(c, s) && Traced(c, s, v)
    ensures Traced(c, Execute(c, s, m), v)
  {
    assert s.next !in s.storage.vms;
    hide Execute, N, L, Known, WellFormed, Traced;
    if v == s.next {
      Lives.Fresh(c, s, Provision(c, v));
    }
    Lives.ExecuteVMs(c, s, m, v);
    Lives.ExecuteSends(c, s, m, v);
    TracedSame(c, s, Execute(c, s, m), v, m == CreateVM(true) && v == s.next);
  }

  lemma TracedSame(c: Config, s: State, s': State, v: UUID, created: bool)
    requires Traced(c, s, v)
    requires s'.storage == s.storage && s'.log == s.log
    requires N(s', Provision(c, v)) == N(s, Provision(c, v)) && N(s', Scheduled(c, v)) == N(s, Scheduled(c, v))
    requires N(s', Hosted(c, v)) == N(s, Hosted(c, v))
    requires N(s', Created(c, v)) == N(s, Created(c, v)) + if created then 1 else 0
    requires created ==> v !in s.storage.vms && Lives.Total(s, Provision(c, v)) == 0
    requires HasState(s', v, {Running}) ==> HasState(s, v, {Running})
    ensures Traced(c, s', v)
  {
    hide N, HasState;
    assert L(s', Provision(c, v)) == L(s, Provision(c, v));
    assert L(s', Hosted(c, v)) == L(s, Hosted(c, v));
    hide L;
  }
}
