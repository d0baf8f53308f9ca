/**
 What each actor does with one event, as functions: the new state of the actor and the
 events it schedules, in order. Every one of those events is a deferred insertion.
 */
module Handlers {
  import opened Types

  function VMReact(id: UUID, vm: VMData, d: VMDelays, e: Event): (VMData, seq<Event>)
  {
    var failed := (vm.(state := Failure), []);
    if !e.body.VMEvent? then failed
    else match e.body.vmType
      case Start =>
        if vm.state != Provisioning then failed else
        (vm.(state := Starting), [Event(e.time + d.start, id, VMEvent(StartCompleted))])
      case StartCompleted =>
        if vm.state != Starting then failed else
        (vm.(state := Running), [Event(e.time, vm.storage, StorageEvent(VMHosted, id))])
      case Restart =>
        if vm.state != Running && vm.state != Failure then failed else
        (vm.(state := Restarting), [Event(e.time + d.restart, id, VMEvent(RestartCompleted))])
      case RestartCompleted =>
        if vm.state != Restarting then failed else (vm.(state := Running), [])
      case Stop =>
        if vm.state != Running then failed else
        (vm.(state := Stopping), [Event(e.time + d.stop, id, VMEvent(StopCompleted))])
      case StopCompleted =>
        if vm.state != Stopping then failed else
        (vm.(state := Stopped, owner := NIL), [Event(e.time, vm.owner, ServerEvent(UnprovisionVM, id))])
      case Delete =>
        if vm.state != Running && vm.state != Stopped && vm.state != Failure then failed else
        (vm.(state := Deleting), [Event(e.time + d.delete, id, VMEvent(DeleteCompleted))])
      case DeleteCompleted =>
        if vm.state != Deleting then failed else
        if vm.owner != NIL then (vm, [Event(e.time, vm.owner, ServerEvent(UnprovisionVM, id))])
        else (vm, [Event(e.time, vm.storage, StorageEvent(VMDeleted, id))])
      case NoVMType => (vm, [])
  }

  // A storage that has failed once ignores every later event.
  function StorageReact(s: Storage, e: Event): Storage
  {
    if !s.ok then s
    else if !e.body.StorageEvent? then s.(ok := false)
    else
      var v := e.body.vm;
      match e.body.storageType
      case NoStorageType => s.(ok := false)
      case VMCreated =>
        if v !in s.vms then s.(vms := s.vms[v := CreatedVM]) else s.(ok := false)
      case VMProvisionRequested =>
        if v !in s.vms then s.(ok := false)
        else if s.vms[v] == CreatedVM || s.vms[v] == StoppedVM then s.(vms := s.vms[v := PendingVM])
        else s
      case VMScheduled =>
        if v !in s.vms then s.(ok := false) else s.(vms := s.vms[v := ProvisioningVM])
      case VMHosted =>
        if v !in s.vms then s.(ok := false) else s.(vms := s.vms[v := HostedVM])
      case VMStopped =>
        if v !in s.vms then s.(ok := false) else s.(vms := s.vms[v := StoppedVM])
      case VMDeleted =>
        if v !in s.vms then s.(ok := false) else s.(vms := s.vms - {v})
  }

  // One command to each component, in the order the container is walked.
  function Broadcast(components: seq<UUID>, t: int, ty: ResourceEventType): (es: seq<Event>)
    ensures |es| == |components|
    ensures forall i :: 0 <= i < |es| ==> es[i] == Event(t, components[i], ResourceEvent(ty))
  {
    seq(|components|, i requires 0 <= i < |components| => Event(t, components[i], ResourceEvent(ty)))
  }

  function ResourceReact(id: UUID, power: PowerState, components: seq<UUID>, startup: nat, shutdown: nat, e: Event):
    (PowerState, seq<Event>)
  {
    if !e.body.ResourceEvent? then (power, [])
    else match e.body.resourceType
      case Boot =>
        if power != Off then (power, [])
        else (TurningOn, Broadcast(components, e.time + startup, Boot) +
                         [Event(e.time + startup, id, ResourceEvent(BootFinished))])
      case Shutdown =>
        if power == Off then (power, [])
        else (TurningOff, Broadcast(components, e.time + shutdown, Shutdown) +
                          [Event(e.time + shutdown, id, ResourceEvent(ShutdownFinished))])
      case BootFinished => (if power == TurningOn then On else Failed, [])
      case ShutdownFinished => (if power == TurningOff then Off else Failed, [])
      case Reboot => (power, [])
      case NoResourceType => (power, [])
  }

  datatype ServerOutcome = ServerOutcome(power: PowerState, guests: set<UUID>, scheduled: seq<Event>, crashed: bool)

  // The server's own events. A successful removal dereferences the event's notificator, which
  // every event of this program leaves null: that is the crash recorded here.
  function ServerReact(power: PowerState, guests: set<UUID>, e: Event): ServerOutcome
    requires e.body.ServerEvent?
  {
    var v := e.body.guest;
    match e.body.serverType
    case ProvisionVM =>
      if power != On then ServerOutcome(Failed, guests, [], false)
      else if v == NIL then ServerOutcome(power, guests, [], false)
      else ServerOutcome(power, guests + {v}, [Event(e.time, v, VMEvent(Start))], false)
    case UnprovisionVM =>
      if power != On then ServerOutcome(Failed, guests, [], false)
      else if v !in guests then ServerOutcome(power, guests, [], false)
      else ServerOutcome(power, guests - {v}, [], true)
    case NoServerType => ServerOutcome(power, guests, [], false)
  }
}
