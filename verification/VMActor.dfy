/** A virtual machine: its state, its delays and the handlers that move it along. */
module VMActor {
  import opened Types
  import opened Handlers
  import opened Simulator
  import opened Loop

  // The memory a VM asks for at each moment.
  type Workload = int -> nat

  datatype Option<T> = None | Some(value: T)

  class VM {
    const id: UUID
    const loop: EventLoop
    var state: VMState
    var owner: UUID
    var storage: UUID
    var workload: Option<Workload>
    var startDelay: nat
    var restartDelay: nat
    var stopDelay: nat
    var deleteDelay: nat

    function Data(): VMData
      reads this
    {
      VMData(state, owner, storage)
    }

    function Delays(): VMDelays
      reads this
    {
      VMDelays(startDelay, restartDelay, stopDelay, deleteDelay)
    }

    ghost predicate Valid()
      reads this, loop
    {
      loop.Valid() && id in loop.world.vms && loop.world.vms[id] == Data()
    }

    // This VM in another state, and the simulation in which it is.
    function In(other: VMState): VMData
      reads this
    {
      VMData(other, owner, storage)
    }

    ghost function With(vm: VMData): State
      reads this, loop
    {
      loop.world.(vms := loop.world.vms[id := vm])
    }

    // The simulation once this VM has handled the event.
    ghost function After(e: Event): State
      reads this, loop
    {
      var (vm, out) := VMReact(id, Data(), Delays(), e);
      InsertAll(With(vm), out)
    }

    // Nothing else in it changes but the queue.
    lemma AfterAside(e: Event)
      ensures After(e) == loop.world.(vms := After(e).vms, queue := After(e).queue, inserted := After(e).inserted)
      ensures After(e).vms == loop.world.vms[id := VMReact(id, Data(), Delays(), e).0]
    {
      hide VMReact, InsertAll;
      var (vm, out) := VMReact(id, Data(), Delays(), e);
      InsertAllAside(loop.world.(vms := loop.world.vms[id := vm]), out);
    }

    constructor (id: UUID, loop: EventLoop)
      ensures this.id == id && this.loop == loop
      ensures Data() == VMData(Provisioning, NIL, NIL) && Delays() == VMDelays(0, 0, 0, 0) && workload == None
    {
      this.id, this.loop := id, loop;
      state, owner, storage, workload := Provisioning, NIL, NIL, None;
      startDelay, restartDelay, stopDelay, deleteDelay := 0, 0, 0, 0;
    }

    // Needs a workload model: a VM without one has no demand to ask for.
    function GetWorkload(now: int): (ram: nat)
      requires workload.Some?
      reads this
    {
      workload.value(now)
    }

    method SetWorkloadModel(model: Workload)
      modifies this`workload
      ensures workload == Some(model)
    {
      workload := Some(model);
    }

    method SetVMStorage(handle: UUID)
      requires Valid()
      modifies this`storage, loop`world
      ensures Valid() && Data() == old(Data()).(storage := handle)
      ensures loop.world == old(loop.world).(vms := old(loop.world).vms[id := Data()])
    {
      storage := handle;
      loop.world := loop.world.(vms := loop.world.vms[id := Data()]);
    }

    method HandleEvent(e: Event)
      requires Valid()
      modifies this`state, this`owner, loop
      ensures Valid() && loop.world == old(After(e))
      ensures loop.currentTs == old(loop.currentTs) && old(loop.queue).Keys <= loop.queue.Keys
      ensures old(loop.Filled()) ==> loop.Filled()
    {
      hide Simulator.Insert, InsertAll;
      Posts(In(Failure), e);
      if !e.body.VMEvent? {
        SetState(Failure);
        return;
      }
      match e.body.vmType
      case Start =>
        Posts(In(Starting), Event(e.time + startDelay, id, VMEvent(StartCompleted)));
        this.Start(e);
      case StartCompleted =>
        Posts(In(Running), Event(e.time, storage, StorageEvent(VMHosted, id)));
        CompleteStart(e);
      case Restart =>
        Posts(In(Restarting), Event(e.time + restartDelay, id, VMEvent(RestartCompleted)));
        this.Restart(e);
      case RestartCompleted =>
        Posts(In(Running), e);
        CompleteRestart(e);
      case Stop =>
        Posts(In(Stopping), Event(e.time + stopDelay, id, VMEvent(StopCompleted)));
        this.Stop(e);
      case StopCompleted =>
        Posts(VMData(Stopped, NIL, storage), Event(e.time, owner, ServerEvent(UnprovisionVM, id)));
        CompleteStop(e);
      case Delete =>
        Posts(In(Deleting), Event(e.time + deleteDelay, id, VMEvent(DeleteCompleted)));
        this.Delete(e);
      case DeleteCompleted =>
        Posts(Data(), LastNotice(e));
        CompleteDelete(e);
      case NoVMType =>
        Posts(Data(), e);
        assert loop.world.vms[id := Data()] == loop.world.vms;
    }

    // One event, or none.
    lemma Posts(vm: VMData, next: Event)
      ensures InsertAll(With(vm), [next]) == Simulator.Insert(With(vm), next, false)
      ensures InsertAll(With(vm), []) == With(vm)
    {
      InsertOne(With(vm), next);
    }

    // Whom a deleted VM notifies: its owner, or its storage when it has none.
    function LastNotice(e: Event): Event
      reads this
    {
      if owner != NIL then Event(e.time, owner, ServerEvent(UnprovisionVM, id))
      else Event(e.time, storage, StorageEvent(VMDeleted, id))
    }

    method SetState(newState: VMState)
      requires Valid()
      modifies this`state, loop`world
      ensures Valid() && state == newState
      ensures loop.world == old(loop.world).(vms := old(loop.world).vms[id := Data()])
    {
      state := newState;
      loop.world := loop.world.(vms := loop.world.vms[id := Data()]);
    }

    method CheckStateMatch(allowedStates: set<VMState>) returns (matches: bool)
      ensures matches <==> state in allowedStates
    {
      matches := state in allowedStates;
    }

    method Start(e: Event)
      requires Valid() && e.body == VMEvent(VMEventType.Start)
      modifies this`state, loop
      ensures Valid()
      ensures if old(state) == Provisioning
              then Data() == old(In(Starting)) && loop.world == Simulator.Insert(old(With(In(Starting))), old(Event(e.time + startDelay, id, VMEvent(StartCompleted))), false)
              else Data() == old(In(Failure)) && loop.world == old(With(In(Failure)))
      ensures loop.currentTs == old(loop.currentTs) && old(loop.queue).Keys <= loop.queue.Keys
      ensures old(loop.Filled()) ==> loop.Filled()
    {
      hide Simulator.Insert;
      var matches := CheckStateMatch({Provisioning});
      if !matches {
        SetState(Failure);
        return;
      }
      SetState(Starting);
      loop.Insert(MakeInheritedEvent(id, e, startDelay, VMEvent(StartCompleted)), false);
    }

    method CompleteStart(e: Event)
      requires Valid() && e.body == VMEvent(VMEventType.StartCompleted)
      modifies this`state, loop
      ensures Valid()
      ensures if old(state) == Starting
              then Data() == old(In(Running)) && loop.world == Simulator.Insert(old(With(In(Running))), old(Event(e.time, storage, StorageEvent(VMHosted, id))), false)
              else Data() == old(In(Failure)) && loop.world == old(With(In(Failure)))
      ensures loop.currentTs == old(loop.currentTs) && old(loop.queue).Keys <= loop.queue.Keys
      ensures old(loop.Filled()) ==> loop.Filled()
    {
      hide Simulator.Insert;
      var matches := CheckStateMatch({Starting});
      if !matches {
        SetState(Failure);
        return;
      }
      SetState(Running);
      loop.Insert(MakeEvent(storage, e.time, StorageEvent(VMHosted, id)), false);
    }

    method Restart(e: Event)
      requires Valid() && e.body == VMEvent(VMEventType.Restart)
      modifies this`state, loop
      ensures Valid()
      ensures if old(state) == Running || old(state) == Failure
              then Data() == old(In(Restarting)) && loop.world == Simulator.Insert(old(With(In(Restarting))), old(Event(e.time + restartDelay, id, VMEvent(RestartCompleted))), false)
              else Data() == old(In(Failure)) && loop.world == old(With(In(Failure)))
      ensures loop.currentTs == old(loop.currentTs) && old(loop.queue).Keys <= loop.queue.Keys
      ensures old(loop.Filled()) ==> loop.Filled()
    {
      hide Simulator.Insert;
      var matches := CheckStateMatch({Running, Failure});
      if !matches {
        SetState(Failure);
        return;
      }
      SetState(Restarting);
      loop.Insert(MakeInheritedEvent(id, e, restartDelay, VMEvent(RestartCompleted)), false);
    }

    method CompleteRestart(e: Event)
      requires Valid() && e.body == VMEvent(VMEventType.RestartCompleted)
      modifies this`state, loop
      ensures Valid()
      ensures if old(state) == Restarting
              then Data() == old(In(Running)) && loop.world == old(With(In(Running)))
              else Data() == old(In(Failure)) && loop.world == old(With(In(Failure)))
      ensures loop.currentTs == old(loop.currentTs) && old(loop.queue).Keys <= loop.queue.Keys
      ensures old(loop.Filled()) ==> loop.Filled()
    {
      hide Simulator.Insert;
      var matches := CheckStateMatch({Restarting});
      if !matches {
        SetState(Failure);
        return;
      }
      SetState(Running);
    }

    method Stop(e: Event)
      requires Valid() && e.body == VMEvent(VMEventType.Stop)
      modifies this`state, loop
      ensures Valid()
      ensures if old(state) == Running
              then Data() == old(In(Stopping)) && loop.world == Simulator.Insert(old(With(In(Stopping))), old(Event(e.time + stopDelay, id, VMEvent(StopCompleted))), false)
              else Data() == old(In(Failure)) && loop.world == old(With(In(Failure)))
      ensures loop.currentTs == old(loop.currentTs) && old(loop.queue).Keys <= loop.queue.Keys
      ensures old(loop.Filled()) ==> loop.Filled()
    {
      hide Simulator.Insert;
      var matches := CheckStateMatch({Running});
      if !matches {
        SetState(Failure);
        return;
      }
      SetState(Stopping);
      loop.Insert(MakeInheritedEvent(id, e, stopDelay, VMEvent(StopCompleted)), false);
    }

    method CompleteStop(e: Event)
      requires Valid() && e.body == VMEvent(VMEventType.StopCompleted)
      modifies this`state, this`owner, loop
      ensures Valid()
      ensures if old(state) == Stopping
              then Data() == old(VMData(Stopped, NIL, storage)) && loop.world == Simulator.Insert(old(With(VMData(Stopped, NIL, storage))), old(Event(e.time, owner, ServerEvent(UnprovisionVM, id))), false)
              else Data() == old(In(Failure)) && loop.world == old(With(In(Failure)))
      ensures loop.currentTs == old(loop.currentTs) && old(loop.queue).Keys <= loop.queue.Keys
      ensures old(loop.Filled()) ==> loop.Filled()
    {
      hide Simulator.Insert;
      var matches := CheckStateMatch({Stopping});
      if !matches {
        SetState(Failure);
        return;
      }
      SetState(Stopped);
      var next := MakeInheritedEvent(owner, e, 0, ServerEvent(UnprovisionVM, id));
      InsertElsewhere(loop.world, old(loop.world).vms[id := VMData(Stopped, NIL, storage)], next);
      loop.Insert(next, false);
      owner := NIL;
      loop.world := loop.world.(vms := loop.world.vms[id := Data()]);
    }

    method Delete(e: Event)
      requires Valid() && e.body == VMEvent(VMEventType.Delete)
      modifies this`state, loop
      ensures Valid()
      ensures if old(state) == Running || old(state) == Stopped || old(state) == Failure
              then Data() == old(In(Deleting)) && loop.world == Simulator.Insert(old(With(In(Deleting))), old(Event(e.time + deleteDelay, id, VMEvent(DeleteCompleted))), false)
              else Data() == old(In(Failure)) && loop.world == old(With(In(Failure)))
      ensures loop.currentTs == old(loop.currentTs) && old(loop.queue).Keys <= loop.queue.Keys
      ensures old(loop.Filled()) ==> loop.Filled()
    {
      hide Simulator.Insert;
      var matches := CheckStateMatch({Running, Stopped, Failure});
      if !matches {
        SetState(Failure);
        return;
      }
      SetState(Deleting);
      loop.Insert(MakeInheritedEvent(id, e, deleteDelay, VMEvent(DeleteCompleted)), false);
    }

    method CompleteDelete(e: Event)
      requires Valid() && e.body == VMEvent(VMEventType.DeleteCompleted)
      modifies this`state, loop
      ensures Valid()
      ensures if old(state) == Deleting
              then Data() == old(Data()) && loop.world == Simulator.Insert(old(With(Data())), old(LastNotice(e)), false)
              else Data() == old(In(Failure)) && loop.world == old(With(In(Failure)))
      ensures loop.currentTs == old(loop.currentTs) && old(loop.queue).Keys <= loop.queue.Keys
      ensures old(loop.Filled()) ==> loop.Filled()
    {
      hide Simulator.Insert;
      var matches := CheckStateMatch({Deleting});
      if !matches {
        SetState(Failure);
        return;
      }
      assert loop.world.vms[id := Data()] == loop.world.vms;
      if owner != NIL {
        loop.Insert(MakeEvent(owner, e.time, ServerEvent(UnprovisionVM, id)), false);
      } else {
        loop.Insert(MakeEvent(storage, e.time, StorageEvent(VMDeleted, id)), false);
      }
    }
  }
}
