/**
 The dispatch of one event, seen from one actor and from one token at a time. In a world whose
 events are well addressed these few facts are all the global invariants need.
 */
module Effects {
  import opened Types
  import opened FlatQueue
  import opened Handlers
  import opened Simulator
  import opened StepFacts
  import opened Registry

  // The life of one VM under one event sent to it.
  function NextVMState(st: VMState, b: Body): VMState {
    if !b.VMEvent? then Failure
    else match b.vmType
      case NoVMType => st
      case Start => if st == Provisioning then Starting else Failure
      case StartCompleted => if st == Starting then Running else Failure
      case Restart => if st == Running || st == Failure then Restarting else Failure
      case RestartCompleted => if st == Restarting then Running else Failure
      case Stop => if st == Running then Stopping else Failure
      case StopCompleted => if st == Stopping then Stopped else Failure
      case Delete => if st == Running || st == Stopped || st == Failure then Deleting else Failure
      case DeleteCompleted => if st == Deleting then Deleting else Failure
  }

  // The token scheduled by handling the head, when the head is no power command.
  function Spawn(c: Config, s: State): seq<Token>
    requires s.queue != []
  {
    var e := s.queue[0];
    match e.body
    case ResourceEvent(_) => []
    case StorageEvent(_, _) => []
    case ServerEvent(ty, v) =>
      if ty == ProvisionVM && c.first in s.power && s.power[c.first] == On then [ToVM(v, Start)] else []
    case VMEvent(ty) =>
      if e.to !in s.vms then [] else
      var st := s.vms[e.to].state;
      match ty
      case Start => if st == Provisioning then [ToVM(e.to, StartCompleted)] else []
      case StartCompleted => if st == Starting then [Hosted(c, e.to)] else []
      case Stop => if st == Running then [ToVM(e.to, StopCompleted)] else []
      case StopCompleted => if st == Stopping then [Token(NIL, ServerEvent(UnprovisionVM, e.to))] else []
      case Delete =>
        if st == Running || st == Stopped || st == Failure then [ToVM(e.to, DeleteCompleted)] else []
      case DeleteCompleted =>
        if st == Deleting then [Token(s.vms[e.to].storage, StorageEvent(VMDeleted, e.to))] else []
      case _ => []
  }

  lemma SpawnVM(c: Config, s: State)
    requires WellFormed(c) && Known(c, s) && s.queue != [] && s.queue[0].to in s.vms && s.queue[0].body.VMEvent?
    ensures var e := s.queue[0];
            var out := VMReact(e.to, s.vms[e.to], DelaysOf(c, e.to), e).1;
            if out == [] then Spawn(c, s) == [] else |out| == 1 && Spawn(c, s) == [Tok(out[0])]
  {
    assert Addressed(c, s, s.queue[0]);
    hide DelaysOf;
  }

  lemma OutVM(c: Config, s: State, ord: Order)
    requires WellFormed(c) && Known(c, s) && s.queue != [] && s.queue[0].to in s.vms
    ensures Out(c, s, ord) == VMReact(s.queue[0].to, s.vms[s.queue[0].to], DelaysOf(c, s.queue[0].to), s.queue[0]).1
  {
    hide VMReact, DelaysOf, Addressed;
  }

  lemma OutServer(c: Config, s: State, ord: Order)
    requires WellFormed(c) && Known(c, s) && s.queue != [] && s.queue[0].body.ServerEvent?
    requires s.queue[0].to !in s.vms
    ensures Out(c, s, ord) ==
            if s.queue[0].to == c.first && s.power[c.first] == On
            then [Event(s.queue[0].time, s.queue[0].body.guest, VMEvent(Start))] else []
  {
    assert Addressed(c, s, s.queue[0]);
    assert c.first !in s.vms && NIL !in s.vms;
    assert s.queue[0].to == c.first ==> Ready(c, s, s.queue[0].body.guest);
    hide Addressed;
  }

  lemma EmitsSpawn(c: Config, s: State, ord: Order, t: Token)
    requires WellFormed(c) && Known(c, s) && s.queue != []
    ensures Emits(c, s, ord, t) == if Spawn(c, s) == [t] then 1 else 0
  {
    var e := s.queue[0];
    assert Addressed(c, s, e);
    match e.body
    case ResourceEvent(_) =>
    case VMEvent(_) =>
      if e.to in s.vms {
        SpawnVM(c, s);
        OutVM(c, s, ord);
        hide Out, VMReact, Spawn;
      } else {
        assert Out(c, s, ord) == [];
        hide Out;
      }
    case ServerEvent(_, v) =>
      assert e.to !in s.vms;
      OutServer(c, s, ord);
      hide Out;
    case StorageEvent(_, _) =>
      assert e.to == c.storage || e.to == NIL;
      assert Out(c, s, ord) == [];
      hide Out;
  }

  lemma OutSpawned(c: Config, s: State, ord: Order)
    requires WellFormed(c) && Known(c, s) && s.queue != [] && !s.queue[0].body.ResourceEvent?
    ensures Out(c, s, ord) != [] ==> Spawn(c, s) == [Tok(Out(c, s, ord)[0])]
  {
    hide Out, Spawn, Known, WellFormed;
    if Out(c, s, ord) != [] {
      EmitsSpawn(c, s, ord, Tok(Out(c, s, ord)[0]));
    }
  }

  ghost predicate HasState(s: State, v: UUID, sts: set<VMState>) {
    v in s.vms && s.vms[v].state in sts
  }

  lemma StartCauses(c: Config, s: State, v: UUID)
    requires WellFormed(c) && Known(c, s) && s.queue != []
    ensures Spawn(c, s) == [ToVM(v, Start)] <==> Tok(s.queue[0]) == Provision(c, v) && s.power[c.first] == On
    ensures Spawn(c, s) == [ToVM(v, StartCompleted)] <==>
            Tok(s.queue[0]) == ToVM(v, Start) && HasState(s, v, {Provisioning})
    ensures Spawn(c, s) == [Hosted(c, v)] <==>
            Tok(s.queue[0]) == ToVM(v, StartCompleted) && HasState(s, v, {Starting})
    ensures Spawn(c, s) == [ToVM(v, StopCompleted)] <==>
            Tok(s.queue[0]) == ToVM(v, Stop) && HasState(s, v, {Running})
  {
    assert Addressed(c, s, s.queue[0]);
    hide AllAddressed;
  }

  lemma EndCauses(c: Config, s: State, v: UUID)
    requires WellFormed(c) && Known(c, s) && s.queue != []
    ensures Spawn(c, s) == [ToVM(v, DeleteCompleted)] <==>
            Tok(s.queue[0]) == ToVM(v, Delete) && HasState(s, v, {Running, Stopped, Failure})
    ensures Spawn(c, s) == [Deleted(c, v)] <==>
            Tok(s.queue[0]) == ToVM(v, DeleteCompleted) && HasState(s, v, {Deleting}) && Ready(c, s, v)
  {
    assert Addressed(c, s, s.queue[0]);
    hide AllAddressed;
  }

  // Each event of a VM's life has exactly one kind of cause.
  lemma Causes(c: Config, s: State, v: UUID)
    requires WellFormed(c) && Known(c, s) && s.queue != []
    ensures Spawn(c, s) == [ToVM(v, Start)] <==> Tok(s.queue[0]) == Provision(c, v) && s.power[c.first] == On
    ensures Spawn(c, s) == [ToVM(v, StartCompleted)] <==>
            Tok(s.queue[0]) == ToVM(v, Start) && HasState(s, v, {Provisioning})
    ensures Spawn(c, s) == [Hosted(c, v)] <==>
            Tok(s.queue[0]) == ToVM(v, StartCompleted) && HasState(s, v, {Starting})
    ensures Spawn(c, s) == [ToVM(v, StopCompleted)] <==>
            Tok(s.queue[0]) == ToVM(v, Stop) && HasState(s, v, {Running})
    ensures Spawn(c, s) == [ToVM(v, DeleteCompleted)] <==>
            Tok(s.queue[0]) == ToVM(v, Delete) && HasState(s, v, {Running, Stopped, Failure})
    ensures Spawn(c, s) == [Deleted(c, v)] <==>
            Tok(s.queue[0]) == ToVM(v, DeleteCompleted) && HasState(s, v, {Deleting}) && Ready(c, s, v)
    ensures Spawn(c, s) != [ToVM(v, Delete)] && Spawn(c, s) != [ToVM(v, Stop)]
    ensures Spawn(c, s) != [Created(c, v)] && Spawn(c, s) != [Provision(c, v)] && Spawn(c, s) != [Scheduled(c, v)]
    ensures Spawn(c, s) != [Requested(c, v)]
  {
    StartCauses(c, s, v);
    EndCauses(c, s, v);
    hide Known, HasState, WellFormed;
  }

  // Tokens other than power commands, over one dispatch.
  lemma TokenAfter(c: Config, s: State, ord: Order, t: Token)
    requires WellFormed(c) && Known(c, s) && s.queue != [] && !t.body.ResourceEvent?
    ensures N(s, t) >= (if t == Tok(s.queue[0]) then 1 else 0)
    ensures N(Dispatch(c, s, ord), t) ==
            N(s, t) - (if t == Tok(s.queue[0]) then 1 else 0) + (if Spawn(c, s) == [t] then 1 else 0)
    ensures L(Dispatch(c, s, ord), t) == L(s, t) + (if t == Tok(s.queue[0]) then 1 else 0)
  {
    DispatchTokens(c, s, ord, t);
    EmitsSpawn(c, s, ord, t);
  }

  lemma VMAfter(c: Config, s: State, ord: Order, v: UUID)
    requires WellFormed(c) && Known(c, s) && s.queue != []
    ensures v in Dispatch(c, s, ord).vms <==> v in s.vms
    ensures v in s.vms ==> Dispatch(c, s, ord).vms[v].state ==
                           if s.queue[0].to == v then NextVMState(s.vms[v].state, s.queue[0].body) else s.vms[v].state
  {
    DispatchShape(c, s, ord);
    var e := s.queue[0];
    hide Dispatch, Out, StorageReact, ServerReact, ResourceReact, DelaysOf, Addressed;
    if e.to in s.vms {
      VMStateAfter(e.to, s.vms[e.to], DelaysOf(c, e.to), e);
    }
    hide VMReact;
  }

  lemma VMStateAfter(id: UUID, vm: VMData, d: VMDelays, e: Event)
    ensures VMReact(id, vm, d, e).0.state == NextVMState(vm.state, e.body)
  {}

  lemma StorageAfter(c: Config, s: State, ord: Order)
    requires WellFormed(c) && Known(c, s) && s.queue != []
    ensures Dispatch(c, s, ord).storage ==
            if s.queue[0].to == c.storage then StorageReact(s.storage, s.queue[0]) else s.storage
  {
    DispatchShape(c, s, ord);
    hide Dispatch, Out, StorageReact, ServerReact, ResourceReact, VMReact, DelaysOf, Addressed, ActorsKnown;
  }

  lemma ReactGuests(c: Config, s: State, e: Event, ord: Order, x: UUID)
    requires x in s.hosted && x in s.power && x != c.storage && x !in s.vms
    ensures x in React(c, s, e, ord).0.hosted
    ensures React(c, s, e, ord).0.hosted[x] ==
            if e.to == x && e.body.ServerEvent? then ServerReact(s.power[x], s.hosted[x], e).guests else s.hosted[x]
  {
    hide StorageReact, ResourceReact, VMReact, ServerReact, DelaysOf;
  }

  // A server only ever gains guests, and only the first server does.
  lemma GuestsAfter(c: Config, s: State, ord: Order, x: UUID)
    requires WellFormed(c) && Known(c, s) && s.queue != [] && x in s.hosted
    ensures x in Dispatch(c, s, ord).hosted
    ensures Dispatch(c, s, ord).hosted[x] ==
            if x == c.first && s.queue[0].to == c.first && s.queue[0].body.ServerEvent? && s.power[c.first] == On
            then s.hosted[x] + {s.queue[0].body.guest} else s.hosted[x]
  {
    var e := s.queue[0];
    assert Addressed(c, s, e);
    assert e.to == x && e.body.ServerEvent? ==>
        x == c.first && e.body.serverType == ProvisionVM && Ready(c, s, e.body.guest);
    ReactGuests(c, Popped(s), e, ord, x);
    DispatchShape(c, s, ord);
    hide React, Dispatch, Out, Addressed, AllAddressed;
  }

  function NextPower(p: PowerState, b: Body): PowerState {
    match b
    case ResourceEvent(ty) =>
      (match ty
       case Boot => if p == Off then TurningOn else p
       case Shutdown => if p == Off then Off else TurningOff
       case BootFinished => if p == TurningOn then On else Failed
       case ShutdownFinished => if p == TurningOff then Off else Failed
       case _ => p)
    case ServerEvent(_, _) => if p == On then On else Failed
    case _ => p
  }

  lemma ResourcePower(id: UUID, p: PowerState, order: seq<UUID>, up: nat, down: nat, e: Event)
    requires !e.body.ServerEvent?
    ensures ResourceReact(id, p, order, up, down, e).0 == NextPower(p, e.body)
  {}

  lemma ReactPower(c: Config, s: State, e: Event, ord: Order, r: UUID)
    requires r in s.power && r in c.components && r != c.storage && r !in s.vms
    requires e.to == r && e.body.ServerEvent? ==> r in s.hosted
    ensures r in React(c, s, e, ord).0.power
    ensures React(c, s, e, ord).0.power[r] ==
            if e.to != r then s.power[r]
            else if e.body.ServerEvent? then ServerReact(s.power[r], s.hosted[r], e).power
            else NextPower(s.power[r], e.body)
  {
    if e.to == r && !e.body.ServerEvent? {
      ResourcePower(r, s.power[r], ord(c.components[r]), Delay(c.startup, r), Delay(c.shutdown, r), e);
    }
    hide StorageReact, ResourceReact, VMReact, ServerReact, DelaysOf, Delay, NextPower;
  }

  lemma PowerStateAfter(c: Config, s: State, ord: Order, r: UUID)
    requires WellFormed(c) && Known(c, s) && s.queue != [] && r in s.power
    ensures r in Dispatch(c, s, ord).power
    ensures Dispatch(c, s, ord).power[r] == if s.queue[0].to == r then NextPower(s.power[r], s.queue[0].body) else s.power[r]
  {
    var e := s.queue[0];
    assert Addressed(c, s, e);
    assert e.to == r && e.body.ServerEvent? ==>
        r == c.first && e.body.serverType == ProvisionVM && Ready(c, s, e.body.guest);
    ReactPower(c, Popped(s), e, ord, r);
    DispatchShape(c, s, ord);
    hide React, Dispatch, Out, Addressed, AllAddressed;
  }
}
