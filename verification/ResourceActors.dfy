/** The physical side: resources with a power state and components, and the server that hosts VMs. */
module ResourceActors {
  import opened Types
  import opened Handlers
  import opened Simulator
  import opened Loop

  // One more component told.
  lemma BroadcastMore(s: State, order: seq<UUID>, x: UUID, t: int, ty: ResourceEventType)
    ensures InsertAll(s, Broadcast(order + [x], t, ty)) ==
            Simulator.Insert(InsertAll(s, Broadcast(order, t, ty)), Event(t, x, ResourceEvent(ty)), false)
  {
    hide Simulator.Insert;
    var es := Broadcast(order + [x], t, ty);
    assert es[..|es| - 1] == Broadcast(order, t, ty);
  }

  lemma InsertMore(s: State, es: seq<Event>, e: Event)
    ensures InsertAll(s, es + [e]) == Simulator.Insert(InsertAll(s, es), e, false)
  {
    hide Simulator.Insert;
    assert (es + [e])[..|es|] == es;
  }

  class Resource {
    const id: UUID
    const loop: EventLoop
    var components: set<UUID>
    var power: PowerState
    var startupDelay: nat
    var rebootDelay: nat
    var shutdownDelay: nat

    ghost predicate Valid()
      reads this, loop
    {
      loop.Valid() && id in loop.world.power && loop.world.power[id] == power
    }

    // The simulation in which this resource has another power state.
    ghost function With(other: PowerState): State
      reads this, loop
    {
      loop.world.(power := loop.world.power[id := other])
    }

    // The simulation once this resource has handled the event, walking its components in `order`.
    ghost function After(e: Event, order: seq<UUID>): State
      reads this, loop
    {
      var (p, out) := ResourceReact(id, power, order, startupDelay, shutdownDelay, e);
      InsertAll(With(p), out)
    }

    // Nothing else in it changes but the queue.
    lemma AfterAside(e: Event, order: seq<UUID>)
      ensures After(e, order) == loop.world.(power := After(e, order).power, queue := After(e, order).queue,
                                             inserted := After(e, order).inserted)
      ensures After(e, order).power ==
              loop.world.power[id := ResourceReact(id, power, order, startupDelay, shutdownDelay, e).0]
    {
      hide ResourceReact, InsertAll;
      var (p, out) := ResourceReact(id, power, order, startupDelay, shutdownDelay, e);
      InsertAllAside(loop.world.(power := loop.world.power[id := p]), out);
    }

    constructor (id: UUID, loop: EventLoop)
      ensures this.id == id && this.loop == loop && power == Off && components == {}
      ensures startupDelay == rebootDelay == shutdownDelay == 0
    {
      this.id, this.loop := id, loop;
      components, power := {}, Off;
      startupDelay, rebootDelay, shutdownDelay := 0, 0, 0;
    }

    method AddComponent(uuid: UUID)
      modifies this`components
      ensures components == old(components) + {uuid}
    {
      components := components + {uuid};
    }

    method SetPowerState(newState: PowerState)
      requires Valid()
      modifies this`power, loop`world
      ensures Valid() && power == newState
      ensures loop.world == old(With(newState))
    {
      power := newState;
      loop.world := loop.world.(power := loop.world.power[id := newState]);
    }

    method HandleEvent(e: Event) returns (ghost order: seq<UUID>)
      requires Valid()
      modifies this`power, loop
      ensures Valid() && Enumerates(order, components) && loop.world == old(After(e, order))
      ensures loop.world.hosted == old(loop.world.hosted)
      ensures loop.currentTs == old(loop.currentTs) && old(loop.queue).Keys <= loop.queue.Keys
      ensures old(loop.Filled()) ==> loop.Filled()
    {
      hide InsertAll, Simulator.Insert, Broadcast;
      order := Enumeration(components);
      ghost var started, stopped := With(TurningOn), With(TurningOff);
      StaysPut();
      NothingPosted(loop.world);
      if !e.body.ResourceEvent? {
        return;
      }
      match e.body.resourceType
      case Boot =>
        order := StartBoot(e);
        InsertMore(started, Broadcast(order, e.time + startupDelay, Boot),
                   Event(e.time + startupDelay, id, ResourceEvent(BootFinished)));
      case Reboot =>
      case BootFinished =>
        CompleteBoot(e);
        NothingPosted(loop.world);
      case Shutdown =>
        order := StartShutdown(e);
        InsertMore(stopped, Broadcast(order, e.time + shutdownDelay, Shutdown),
                   Event(e.time + shutdownDelay, id, ResourceEvent(ShutdownFinished)));
      case ShutdownFinished =>
        CompleteShutdown(e);
        NothingPosted(loop.world);
      case NoResourceType =>
    }

    lemma StaysPut()
      requires Valid()
      ensures With(power) == loop.world
    {
      assert loop.world.power[id := power] == loop.world.power;
    }

    // The command to every component, in whatever order the set is walked.
    method Command(t: int, ty: ResourceEventType) returns (ghost order: seq<UUID>)
      requires Valid()
      modifies loop
      ensures Valid() && Enumerates(order, components)
      ensures loop.world == InsertAll(old(loop.world), Broadcast(order, t, ty))
      ensures loop.world == old(loop.world).(queue := loop.world.queue, inserted := loop.world.inserted)
      ensures loop.currentTs == old(loop.currentTs) && old(loop.queue).Keys <= loop.queue.Keys
      ensures old(loop.Filled()) ==> loop.Filled()
    {
      hide Simulator.Insert, InsertAll, Broadcast;
      var remaining := components;
      order := [];
      ghost var start := loop.world;
      NobodyTold(start, t, ty);
      while remaining != {}
        invariant Valid() && remaining <= components && Distinct(order)
        invariant forall x :: x in order <==> x in components - remaining
        invariant loop.world == InsertAll(start, Broadcast(order, t, ty))
        invariant loop.world == start.(queue := loop.world.queue, inserted := loop.world.inserted)
        invariant loop.currentTs == old(loop.currentTs) && old(loop.queue).Keys <= loop.queue.Keys
        invariant old(loop.Filled()) ==> loop.Filled()
      {
        var component :| component in remaining;
        loop.Insert(MakeEvent(component, t, ResourceEvent(ty)), false);
        assert component !in order;
        BroadcastMore(start, order, component, t, ty);
        order := order + [component];
        remaining := remaining - {component};
      }
    }

    method StartBoot(e: Event) returns (ghost order: seq<UUID>)
      requires Valid() && e.body == ResourceEvent(Boot)
      modifies this`power, loop
      ensures Valid() && Enumerates(order, components)
      ensures if old(power) == Off
              then
                var t := e.time + startupDelay;
                && power == TurningOn
                && loop.world == Simulator.Insert(InsertAll(old(With(TurningOn)), Broadcast(order, t, Boot)),
                                                  Event(t, id, ResourceEvent(BootFinished)), false)
              else power == old(power) && loop.world == old(loop.world)
      ensures loop.world.hosted == old(loop.world.hosted)
      ensures loop.currentTs == old(loop.currentTs) && old(loop.queue).Keys <= loop.queue.Keys
      ensures old(loop.Filled()) ==> loop.Filled()
    {
      hide Simulator.Insert, InsertAll, Broadcast;
      if power == Off {
        SetPowerState(TurningOn);
        order := Command(e.time + startupDelay, Boot);
        loop.Insert(MakeEvent(id, e.time + startupDelay, ResourceEvent(BootFinished)), false);
      } else {
        order := Enumeration(components);
      }
    }

    method StartShutdown(e: Event) returns (ghost order: seq<UUID>)
      requires Valid() && e.body == ResourceEvent(Shutdown)
      modifies this`power, loop
      ensures Valid() && Enumerates(order, components)
      ensures if old(power) != Off
              then
                var t := e.time + shutdownDelay;
                && power == TurningOff
                && loop.world == Simulator.Insert(InsertAll(old(With(TurningOff)), Broadcast(order, t, Shutdown)),
                                                  Event(t, id, ResourceEvent(ShutdownFinished)), false)
              else power == old(power) && loop.world == old(loop.world)
      ensures loop.world.hosted == old(loop.world.hosted)
      ensures loop.currentTs == old(loop.currentTs) && old(loop.queue).Keys <= loop.queue.Keys
      ensures old(loop.Filled()) ==> loop.Filled()
    {
      hide Simulator.Insert, InsertAll, Broadcast;
      if power == Off {
        order := Enumeration(components);
      } else {
        SetPowerState(TurningOff);
        order := Command(e.time + shutdownDelay, Shutdown);
        loop.Insert(MakeEvent(id, e.time + shutdownDelay, ResourceEvent(ShutdownFinished)), false);
      }
    }

    method CompleteBoot(e: Event)
      requires Valid() && e.body == ResourceEvent(BootFinished)
      modifies this`power, loop`world
      ensures Valid() && power == (if old(power) == TurningOn then On else Failed)
      ensures loop.world == old(loop.world).(power := old(loop.world).power[id := power])
    {
      if power != TurningOn {
        SetPowerState(Failed);
      } else {
        SetPowerState(On);
      }
    }

    method CompleteShutdown(e: Event)
      requires Valid() && e.body == ResourceEvent(ShutdownFinished)
      modifies this`power, loop`world
      ensures Valid() && power == (if old(power) == TurningOff then Off else Failed)
      ensures loop.world == old(loop.world).(power := old(loop.world).power[id := power])
    {
      if power != TurningOff {
        SetPowerState(Failed);
      } else {
        SetPowerState(Off);
      }
    }
  }

  lemma NothingPosted(s: State)
    ensures InsertAll(s, []) == s
  {}

  lemma NobodyTold(s: State, t: int, ty: ResourceEventType)
    ensures InsertAll(s, Broadcast([], t, ty)) == s
  {
    assert Broadcast([], t, ty) == [];
  }

  // Some order in which a set can be walked.
  ghost function Enumeration(s: set<UUID>): (q: seq<UUID>)
    ensures Enumerates(q, s)
  {
    if s == {} then []
    else
      var x :| x in s;
      [x] + Enumeration(s - {x})
  }

  // A server is a resource that also hosts VMs.
  class Server {
    const base: Resource
    var guests: set<UUID>
    var ram: nat

    ghost predicate Valid()
      reads this, base, base.loop
    {
      base.Valid() && base.id in base.loop.world.hosted && base.loop.world.hosted[base.id] == guests
    }

    // The simulation once the server has handled one of its own events.
    ghost function After(e: Event): State
      requires e.body.ServerEvent?
      reads this, base, base.loop
    {
      var o := ServerReact(base.power, guests, e);
      InsertAll(With(o.power, o.guests).(crashed := base.loop.world.crashed || o.crashed), o.scheduled)
    }

    lemma AfterAside(e: Event)
      requires e.body.ServerEvent?
      ensures var w, w' := base.loop.world, After(e);
              && w' == w.(power := w'.power, hosted := w'.hosted, crashed := w'.crashed, queue := w'.queue,
                          inserted := w'.inserted)
              && w'.power == w.power[base.id := ServerReact(base.power, guests, e).power]
              && w'.hosted == w.hosted[base.id := ServerReact(base.power, guests, e).guests]
    {
      hide ServerReact, InsertAll;
      var o, w := ServerReact(base.power, guests, e), base.loop.world;
      InsertAllAside(w.(power := w.power[base.id := o.power], hosted := w.hosted[base.id := o.guests],
                        crashed := w.crashed || o.crashed), o.scheduled);
    }

    constructor (id: UUID, loop: EventLoop)
      ensures base.id == id && base.loop == loop && base.power == Off && base.components == {} && fresh(base)
      ensures base.startupDelay == base.rebootDelay == base.shutdownDelay == 0
      ensures guests == {} && ram == 0
    {
      base := new Resource(id, loop);
      guests, ram := {}, 0;
    }

    method SetSpec(ram: nat)
      modifies this`ram
      ensures this.ram == ram
    {
      this.ram := ram;
    }

    method HandleEvent(e: Event) returns (ghost order: seq<UUID>)
      requires Valid()
      modifies this`guests, base`power, base.loop
      ensures Valid() && Enumerates(order, base.components)
      ensures base.loop.world == if e.body.ServerEvent? then old(After(e)) else old(base.After(e, order))
      ensures base.loop.currentTs == old(base.loop.currentTs) && old(base.loop.queue).Keys <= base.loop.queue.Keys
      ensures old(base.loop.Filled()) ==> base.loop.Filled()
    {
      if !e.body.ServerEvent? {
        order := base.HandleEvent(e);
        return;
      }
      hide Simulator.Insert, InsertAll;
      order := Enumeration(base.components);
      Posts(e, On, guests + {e.body.guest}, Event(e.time, e.body.guest, VMEvent(Start)));
      Posts(e, On, guests - {e.body.guest}, e);
      Posts(e, Failed, guests, e);
      Posts(e, base.power, guests, e);
      NothingPosted(With(On, guests - {e.body.guest}).(crashed := true));
      StaysPut();
      match e.body.serverType
      case ProvisionVM => this.ProvisionVM(e);
      case UnprovisionVM => this.UnprovisionVM(e);
      case NoServerType =>
    }

    // The simulation in which this server has another power state and other guests.
    ghost function With(power: PowerState, others: set<UUID>): State
      reads this, base, base.loop
    {
      var w := base.loop.world;
      w.(power := w.power[base.id := power], hosted := w.hosted[base.id := others])
    }

    lemma StaysPut()
      requires Valid()
      ensures With(base.power, guests) == base.loop.world
      ensures forall g :: With(base.power, g) == base.loop.world.(hosted := base.loop.world.hosted[base.id := g])
      ensures forall p :: With(p, guests) == base.With(p)
    {
      var w := base.loop.world;
      assert w.power[base.id := base.power] == w.power && w.hosted[base.id := guests] == w.hosted;
    }

    // One event, or none.
    lemma Posts(e: Event, power: PowerState, others: set<UUID>, next: Event)
      ensures InsertAll(With(power, others), [next]) == Simulator.Insert(With(power, others), next, false)
      ensures InsertAll(With(power, others), []) == With(power, others)
    {
      InsertOne(With(power, others), next);
    }

    method ProvisionVM(e: Event)
      requires Valid() && e.body.ServerEvent? && e.body.serverType == ServerEventType.ProvisionVM
      modifies this`guests, base`power, base.loop
      ensures Valid()
      ensures base.power == if old(base.power) == On then On else Failed
      ensures guests == if old(base.power) == On && e.body.guest != NIL then old(guests) + {e.body.guest} else old(guests)
      ensures base.loop.world ==
              if old(base.power) == On && e.body.guest != NIL
              then Simulator.Insert(old(With(On, guests + {e.body.guest})), Event(e.time, e.body.guest, VMEvent(Start)), false)
              else old(With(if base.power == On then On else Failed, guests))
      ensures base.loop.currentTs == old(base.loop.currentTs) && old(base.loop.queue).Keys <= base.loop.queue.Keys
      ensures old(base.loop.Filled()) ==> base.loop.Filled()
    {
      hide Simulator.Insert, InsertAll;
      StaysPut();
      if base.power != On {
        base.SetPowerState(Failed);
        return;
      }
      if e.body.guest == NIL {
        return;
      }
      guests := guests + {e.body.guest};
      var loop := base.loop;
      loop.world := loop.world.(hosted := loop.world.hosted[base.id := guests]);
      loop.Insert(MakeInheritedEvent(e.body.guest, e, 0, VMEvent(Start)), false);
    }

    method UnprovisionVM(e: Event)
      requires Valid() && e.body.ServerEvent? && e.body.serverType == ServerEventType.UnprovisionVM
      modifies this`guests, base`power, base.loop`world
      ensures Valid()
      ensures base.power == if old(base.power) == On then On else Failed
      ensures guests == if old(base.power) == On then old(guests) - {e.body.guest} else old(guests)
      ensures base.loop.world ==
              if old(base.power) == On && e.body.guest in old(guests)
              then old(With(On, guests - {e.body.guest})).(crashed := true)
              else old(With(if base.power == On then On else Failed, guests))
    {
      StaysPut();
      if base.power != On {
        base.SetPowerState(Failed);
        return;
      }
      if e.body.guest !in guests {
        assert guests - {e.body.guest} == guests;
        return;
      }
      guests := guests - {e.body.guest};
      var loop := base.loop;
      // the event's notificator is null, and the handler dereferences it here
      loop.world := loop.world.(hosted := loop.world.hosted[base.id := guests], crashed := true);
    }
  }

  class Cloud {
    const base: Resource
    var dataCenters: seq<UUID>
    var vmStorage: UUID

    // The list and the component set hold the same data centers.
    ghost predicate InStep()
      reads this, base
    {
      forall x :: x in dataCenters <==> x in base.components
    }

    constructor (id: UUID, loop: EventLoop)
      ensures base.id == id && base.loop == loop && base.power == Off && base.components == {} && fresh(base)
      ensures base.startupDelay == base.rebootDelay == base.shutdownDelay == 0
      ensures dataCenters == [] && vmStorage == NIL && InStep()
    {
      base := new Resource(id, loop);
      dataCenters, vmStorage := [], NIL;
    }

    method SetVMStorage(handle: UUID)
      modifies this`vmStorage
      ensures vmStorage == handle
    {
      vmStorage := handle;
    }

    method AddDataCenter(uuid: UUID)
      modifies this`dataCenters, base`components
      ensures dataCenters == old(dataCenters) + [uuid] && base.components == old(base.components) + {uuid}
      ensures old(InStep()) ==> InStep()
    {
      dataCenters := dataCenters + [uuid];
      base.AddComponent(uuid);
    }
  }

  class DataCenter {
    const base: Resource
    var servers: seq<UUID>

    ghost predicate InStep()
      reads this, base
    {
      forall x :: x in servers <==> x in base.components
    }

    constructor (id: UUID, loop: EventLoop)
      ensures base.id == id && base.loop == loop && base.power == Off && base.components == {} && fresh(base)
      ensures base.startupDelay == base.rebootDelay == base.shutdownDelay == 0
      ensures servers == [] && InStep()
    {
      base := new Resource(id, loop);
      servers := [];
    }

    method AddServer(uuid: UUID)
      modifies this`servers, base`components
      ensures servers == old(servers) + [uuid] && base.components == old(base.components) + {uuid}
      ensures old(InStep()) ==> InStep()
    {
      servers := servers + [uuid];
      base.AddComponent(uuid);
    }
  }
}
