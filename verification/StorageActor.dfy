/** The storage of VM images: a map of statuses, and a failure it never leaves. */
module StorageActor {
  import opened Types
  import opened Handlers
  import opened Loop

  class VMStorage {
    const id: UUID
    const loop: EventLoop
    var vms: map<UUID, VMStatus>
    var ok: bool

    ghost predicate Valid()
      reads this, loop
    {
      loop.Valid() && loop.world.storage == Storage(ok, vms)
    }

    constructor (id: UUID, loop: EventLoop)
      ensures this.id == id && this.loop == loop && ok && vms == map[]
    {
      this.id, this.loop := id, loop;
      vms, ok := map[], true;
    }

    function GetVMs(): (r: map<UUID, VMStatus>)
      reads this
    {
      vms
    }

    method HandleEvent(e: Event)
      requires Valid()
      modifies this`vms, this`ok, loop`world
      ensures Valid() && loop.world == old(loop.world).(storage := StorageReact(old(loop.world).storage, e))
    {
      if !ok {
        return;
      }
      if !e.body.StorageEvent? {
        Fail();
        return;
      }
      match e.body.storageType
      case VMCreated => AddVM(e);
      case VMProvisionRequested => MoveToPending(e);
      case VMScheduled => MoveToProvisioning(e);
      case VMHosted => MoveToHosted(e);
      case VMStopped => MoveToStopped(e);
      case VMDeleted => DeleteVM(e);
      case NoStorageType => Fail();
    }

    method Fail()
      requires Valid()
      modifies this`ok, loop`world
      ensures Valid() && !ok && loop.world == old(loop.world).(storage := Storage(ok, vms))
    {
      ok := false;
      loop.world := loop.world.(storage := Storage(ok, vms));
    }

    method SetStatus(vm: UUID, status: VMStatus)
      requires Valid()
      modifies this`vms, loop`world
      ensures Valid() && vms == old(vms)[vm := status] && loop.world == old(loop.world).(storage := Storage(ok, vms))
    {
      vms := vms[vm := status];
      loop.world := loop.world.(storage := Storage(ok, vms));
    }

    method AddVM(e: Event)
      requires Valid() && ok && e.body.StorageEvent? && e.body.storageType == VMCreated
      modifies this`vms, this`ok, loop`world
      ensures Valid() && loop.world == old(loop.world).(storage := Storage(ok, vms))
      ensures ok == (e.body.vm !in old(vms))
      ensures vms == if ok then old(vms)[e.body.vm := CreatedVM] else old(vms)
    {
      if e.body.vm !in vms {
        SetStatus(e.body.vm, CreatedVM);
      } else {
        Fail();
      }
    }

    method MoveToPending(e: Event)
      requires Valid() && ok && e.body.StorageEvent? && e.body.storageType == VMProvisionRequested
      modifies this`vms, this`ok, loop`world
      ensures Valid() && loop.world == old(loop.world).(storage := Storage(ok, vms))
      ensures ok == (e.body.vm in old(vms))
      ensures vms == if ok && (old(vms)[e.body.vm] == CreatedVM || old(vms)[e.body.vm] == StoppedVM)
                     then old(vms)[e.body.vm := PendingVM] else old(vms)
    {
      if e.body.vm in vms {
        if vms[e.body.vm] == CreatedVM || vms[e.body.vm] == StoppedVM {
          SetStatus(e.body.vm, PendingVM);
        }
      } else {
        Fail();
      }
    }

    method MoveToProvisioning(e: Event)
      requires Valid() && ok && e.body.StorageEvent? && e.body.storageType == VMScheduled
      modifies this`vms, this`ok, loop`world
      ensures Valid() && loop.world == old(loop.world).(storage := Storage(ok, vms))
      ensures ok == (e.body.vm in old(vms))
      ensures vms == if ok then old(vms)[e.body.vm := ProvisioningVM] else old(vms)
    {
      if e.body.vm in vms {
        SetStatus(e.body.vm, ProvisioningVM);
      } else {
        Fail();
      }
    }

    method MoveToStopped(e: Event)
      requires Valid() && ok && e.body.StorageEvent? && e.body.storageType == VMStopped
      modifies this`vms, this`ok, loop`world
      ensures Valid() && loop.world == old(loop.world).(storage := Storage(ok, vms))
      ensures ok == (e.body.vm in old(vms))
      ensures vms == if ok then old(vms)[e.body.vm := StoppedVM] else old(vms)
    {
      if e.body.vm in vms {
        if vms[e.body.vm] != StoppedVM {
          SetStatus(e.body.vm, StoppedVM);
        } else {
          assert vms[e.body.vm := StoppedVM] == vms;
        }
      } else {
        Fail();
      }
    }

    method MoveToHosted(e: Event)
      requires Valid() && ok && e.body.StorageEvent? && e.body.storageType == VMHosted
      modifies this`vms, this`ok, loop`world
      ensures Valid() && loop.world == old(loop.world).(storage := Storage(ok, vms))
      ensures ok == (e.body.vm in old(vms))
      ensures vms == if ok then old(vms)[e.body.vm := HostedVM] else old(vms)
    {
      if e.body.vm in vms {
        if vms[e.body.vm] != HostedVM {
          SetStatus(e.body.vm, HostedVM);
        } else {
          assert vms[e.body.vm := HostedVM] == vms;
        }
      } else {
        Fail();
      }
    }

    method DeleteVM(e: Event)
      requires Valid() && ok && e.body.StorageEvent? && e.body.storageType == VMDeleted
      modifies this`vms, this`ok, loop`world
      ensures Valid() && loop.world == old(loop.world).(storage := Storage(ok, vms))
      ensures ok == (e.body.vm in old(vms))
      ensures vms == if ok then old(vms) - {e.body.vm} else old(vms)
    {
      if e.body.vm in vms {
        vms := vms - {e.body.vm};
        loop.world := loop.world.(storage := Storage(ok, vms));
      } else {
        Fail();
      }
    }
  }
}
