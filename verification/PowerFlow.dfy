/**
 The power commands over one dispatch: which of them fan out to the components, what that
 sends, and why a resource between two power states always has its completion in flight.
 */
module PowerFlow {
  import opened Types
  import opened FlatQueue
  import opened Handlers
  import opened Simulator
  import opened StepFacts
  import opened Registry
  import opened Effects
  import Lives

  function Finish(ty: ResourceEventType): ResourceEventType {
    if ty == Boot then BootFinished else ShutdownFinished
  }

  function Begun(ty: ResourceEventType): PowerState {
    if ty == Boot then TurningOn else TurningOff
  }

  // A boot is obeyed by a resource that is off, a shutdown by any other.
  predicate Obeys(p: PowerState, ty: ResourceEventType) {
    (ty == Boot && p == Off) || (ty == Shutdown && p != Off)
  }

  function PowerDelay(c: Config, r: UUID, ty: ResourceEventType): nat {
    if ty == Boot then Delay(c.startup, r) else Delay(c.shutdown, r)
  }

  // The head is a power command that the addressee obeys.
  predicate Fires(c: Config, s: State)
    requires s.queue != []
  {
    var e := s.queue[0];
    e.body.ResourceEvent? && e.to in c.components && e.to in s.power && Obeys(s.power[e.to], e.body.resourceType)
  }

  lemma ResourceOut(id: UUID, p: PowerState, order: seq<UUID>, up: nat, down: nat, e: Event)
    requires e.body.ResourceEvent?
    ensures var ty := e.body.resourceType;
            var t := e.time + if ty == Boot then up else down;
            ResourceReact(id, p, order, up, down, e).1 ==
            if Obeys(p, ty) then Broadcast(order, t, ty) + [Event(t, id, ResourceEvent(Finish(ty)))] else []
  {
    hide Broadcast;
  }

  lemma ReactPowerOut(c: Config, s: State, e: Event, ord: Order)
    requires e.to in s.power && e.to in c.components && e.to != c.storage && e.to !in s.vms && e.body.ResourceEvent?
    ensures React(c, s, e, ord).1 ==
            ResourceReact(e.to, s.power[e.to], ord(c.components[e.to]), Delay(c.startup, e.to), Delay(c.shutdown, e.to), e).1
  {
    hide ResourceReact, Delay;
  }

  lemma OutPower(c: Config, s: State, ord: Order)
    requires WellFormed(c) && Known(c, s) && s.queue != [] && s.queue[0].body.ResourceEvent?
    ensures var e := s.queue[0];
            var ty, t := e.body.resourceType, e.time + PowerDelay(c, e.to, e.body.resourceType);
            Out(c, s, ord) ==
            if Fires(c, s) then Broadcast(ord(c.components[e.to]), t, ty) + [Event(t, e.to, ResourceEvent(Finish(ty)))]
            else []
  {
    var e := s.queue[0];
    if e.to in c.components {
      ReactPowerOut(c, Popped(s), e, ord);
      ResourceOut(e.to, s.power[e.to], ord(c.components[e.to]), Delay(c.startup, e.to), Delay(c.shutdown, e.to), e);
      hide React, ResourceReact, Delay, Broadcast, AllAddressed;
    } else {
      assert Addressed(c, s, e);
      OtherPowerOut(c, Popped(s), e, ord);
      hide React;
    }
  }

  lemma OtherPowerOut(c: Config, s: State, e: Event, ord: Order)
    requires e.to !in c.components && e.body.ResourceEvent?
    ensures React(c, s, e, ord).1 == []
  {}

  lemma {:induction false} BroadcastTokens(order: seq<UUID>, t: int, ty: ResourceEventType, x: UUID)
    requires Distinct(order)
    ensures Tokens(Broadcast(order, t, ty))[ToResource(x, ty)] == if x in order then 1 else 0
  {
    if order != [] {
      assert Distinct(order[1..]);
      BroadcastTokens(order[1..], t, ty, x);
      assert Broadcast(order, t, ty)[1..] == Broadcast(order[1..], t, ty);
      assert order == [order[0]] + order[1..];
      assert order[0] !in order[1..];
    }
  }

  // What handling the head sends to resources: the command to each component, once, and its completion.
  function Sent(c: Config, s: State, x: UUID, ty: ResourceEventType): nat
    requires s.queue != []
  {
    var e := s.queue[0];
    if !Fires(c, s) then 0
    else if ty == e.body.resourceType && x in c.components[e.to] then 1
    else if ty == Finish(e.body.resourceType) && x == e.to then 1
    else 0
  }

  lemma FanTokens(order: seq<UUID>, t: int, ty: ResourceEventType, r: UUID, x: UUID, k: ResourceEventType)
    requires Distinct(order) && ty in {Boot, Shutdown}
    ensures Tokens(Broadcast(order, t, ty) + [Event(t, r, ResourceEvent(Finish(ty)))])[ToResource(x, k)] ==
            if k == ty && x in order then 1 else if k == Finish(ty) && x == r then 1 else 0
  {
    var b := Broadcast(order, t, ty);
    TokensAppend(b, Event(t, r, ResourceEvent(Finish(ty))));
    BroadcastTokens(order, t, ty, x);
    TokensAbsent(b, ToResource(x, k));
    hide Tokens;
  }

  lemma SentOut(c: Config, s: State, ord: Order, x: UUID, ty: ResourceEventType)
    requires WellFormed(c) && Known(c, s) && ValidOrder(ord) && s.queue != []
    ensures Tokens(Out(c, s, ord))[ToResource(x, ty)] == Sent(c, s, x, ty)
  {
    hide Out, Tokens, Broadcast, WellFormed, PowerDelay;
    var e := s.queue[0];
    if e.body.ResourceEvent? {
      OutPower(c, s, ord);
      if Fires(c, s) {
        var order := ord(c.components[e.to]);
        assert Enumerates(order, c.components[e.to]);
        var t := e.time + PowerDelay(c, e.to, e.body.resourceType);
        FanTokens(order, t, e.body.resourceType, e.to, x, ty);
      } else {
        TokensAbsent(Out(c, s, ord), ToResource(x, ty));
      }
    } else {
      NoPowerOut(c, s, ord);
      TokensAbsent(Out(c, s, ord), ToResource(x, ty));
    }
    hide Known;
  }

  lemma NoPowerOut(c: Config, s: State, ord: Order)
    requires WellFormed(c) && Known(c, s) && s.queue != [] && !s.queue[0].body.ResourceEvent?
    ensures forall i :: 0 <= i < |Out(c, s, ord)| ==> !Out(c, s, ord)[i].body.ResourceEvent?
  {
    hide Out;
    OutShape(c, s, ord);
    var out := Out(c, s, ord);
    if |out| == 1 {
      EmitsSpawn(c, s, ord, Tok(out[0]));
    }
  }

  lemma PowerTokenAfter(c: Config, s: State, ord: Order, x: UUID, ty: ResourceEventType)
    requires WellFormed(c) && Known(c, s) && ValidOrder(ord) && s.queue != []
    ensures N(s, ToResource(x, ty)) >= (if ToResource(x, ty) == Tok(s.queue[0]) then 1 else 0)
    ensures N(Dispatch(c, s, ord), ToResource(x, ty)) ==
            N(s, ToResource(x, ty)) - (if ToResource(x, ty) == Tok(s.queue[0]) then 1 else 0) + Sent(c, s, x, ty)
    ensures L(Dispatch(c, s, ord), ToResource(x, ty)) ==
            L(s, ToResource(x, ty)) + (if ToResource(x, ty) == Tok(s.queue[0]) then 1 else 0)
  {
    var k := ToResource(x, ty);
    DispatchShape(c, s, ord);
    DispatchLog(c, s, ord, k);
    SentOut(c, s, ord, x, ty);
    TokensInsertAll(s.queue[1..], Out(c, s, ord));
    assert Tokens(s.queue) == multiset{Tok(s.queue[0])} + Tokens(s.queue[1..]);
    hide Dispatch, Out, Sent, Tokens, Known, Handled, InsertAllBack;
  }

  // ----- transitions complete -----

  ghost predicate Powering(s: State, r: UUID) {
    && (r in s.power && s.power[r] == TurningOn ==> N(s, ToResource(r, BootFinished)) >= 1)
    && (r in s.power && s.power[r] == TurningOff ==> N(s, ToResource(r, ShutdownFinished)) >= 1)
  }

  ghost predicate AllPowering(s: State) {
    forall r :: Powering(s, r)
  }

  lemma PowerKeys(c: Config, s: State, ord: Order)
    requires WellFormed(c) && Known(c, s) && s.queue != []
    ensures Dispatch(c, s, ord).power.Keys == s.power.Keys == c.components.Keys
  {
    hide Dispatch, Out, StorageReact, ServerReact, ResourceReact, VMReact, DelaysOf, Addressed;
    DispatchShape(c, s, ord);
  }

  lemma InTransition(c: Config, s: State, ord: Order, r: UUID)
    requires WellFormed(c) && Known(c, s) && s.queue != [] && r in s.power
    ensures r in Dispatch(c, s, ord).power
    ensures Dispatch(c, s, ord).power[r] == TurningOn ==>
              (Tok(s.queue[0]) == ToResource(r, Boot) && s.power[r] == Off) ||
              (Tok(s.queue[0]) != ToResource(r, BootFinished) && s.power[r] == TurningOn)
    ensures Dispatch(c, s, ord).power[r] == TurningOff ==>
              (Tok(s.queue[0]) == ToResource(r, Shutdown) && s.power[r] != Off) ||
              (Tok(s.queue[0]) != ToResource(r, ShutdownFinished) && s.power[r] == TurningOff)
  {
    hide Dispatch, WellFormed;
    PowerStateAfter(c, s, ord, r);
    hide Known;
  }

  lemma FinishSent(c: Config, s: State, r: UUID)
    requires s.queue != [] && r in c.components && r in s.power
    ensures Tok(s.queue[0]) == ToResource(r, Boot) && s.power[r] == Off ==> Sent(c, s, r, BootFinished) == 1
    ensures Tok(s.queue[0]) == ToResource(r, Shutdown) && s.power[r] != Off ==> Sent(c, s, r, ShutdownFinished) == 1
  {}

  lemma PoweringDispatch(c: Config, s: State, ord: Order, r: UUID)
    requires WellFormed(c) && Known(c, s) && ValidOrder(ord) && s.queue != [] && Powering(s, r)
    ensures Powering(Dispatch(c, s, ord), r)
  {
    PowerKeys(c, s, ord);
    if r in s.power {
      FinishSent(c, s, r);
      InTransition(c, s, ord, r);
      PowerTokenAfter(c, s, ord, r, BootFinished);
      PowerTokenAfter(c, s, ord, r, ShutdownFinished);
    }
    hide Dispatch, N, L, Known, WellFormed, Sent;
  }

  lemma AllPoweringDispatch(c: Config, s: State, ord: Order)
    requires WellFormed(c) && Known(c, s) && ValidOrder(ord) && s.queue != [] && AllPowering(s)
    ensures AllPowering(Dispatch(c, s, ord))
  {
    forall r
      ensures Powering(Dispatch(c, s, ord), r)
    {
      assert Powering(s, r);
      PoweringDispatch(c, s, ord, r);
    }
    hide Dispatch, Powering;
  }

  lemma AllPoweringUpdate(c: Config, s: State, ord: Order)
    requires ValidOrder(ord) && AllPowering(s)
    requires forall i :: 0 <= i < |s.queue| ==> s.now < s.queue[i].time
    ensures AllPowering(Tick(UpdateWorld(c, s, ord)))
  {
    Lives.UpdateActors(c, s, ord);
    forall r
      ensures Powering(Tick(UpdateWorld(c, s, ord)), r)
    {
      assert Powering(s, r);
      Lives.UpdateKeeps(c, s, ord, ToResource(r, BootFinished));
      Lives.UpdateKeeps(c, s, ord, ToResource(r, ShutdownFinished));
      hide UpdateWorld, N, L;
    }
    hide UpdateWorld, Powering;
  }

  lemma AllPoweringExecute(c: Config, s: State, m: Command)
    requires Known(c, s) && AllPowering(s)
    ensures AllPowering(Execute(c, s, m))
  {
    Lives.ExecuteVMs(c, s, m, 0);
    forall r
      ensures Powering(Execute(c, s, m), r)
    {
      assert Powering(s, r);
      ExecuteTokens(c, s, m, ToResource(r, BootFinished));
      ExecuteTokens(c, s, m, ToResource(r, ShutdownFinished));
      hide Execute, N, L;
    }
    hide Execute, Powering;
  }
}
