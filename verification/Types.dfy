/** Handles, events and actor states shared by every part of the simulator model. */
module Types {

  // The serial number of an actor; zero is the handle that names nobody.
  type UUID = nat

  const NIL: UUID := 0

  datatype ResourceEventType = NoResourceType | Boot | Reboot | BootFinished | Shutdown | ShutdownFinished

  datatype VMEventType =
    | NoVMType
    | Start | StartCompleted
    | Restart | RestartCompleted
    | Stop | StopCompleted
    | Delete | DeleteCompleted

  datatype ServerEventType = NoServerType | ProvisionVM | UnprovisionVM

  datatype StorageEventType =
    | NoStorageType
    | VMCreated | VMProvisionRequested | VMScheduled | VMHosted | VMStopped | VMDeleted

  // The dynamic type of an event together with the fields its handlers read.
  datatype Body =
    | ResourceEvent(resourceType: ResourceEventType)
    | VMEvent(vmType: VMEventType)
    | ServerEvent(serverType: ServerEventType, guest: UUID)
    | StorageEvent(storageType: StorageEventType, vm: UUID)

  datatype Event = Event(time: int, to: UUID, body: Body)

  // An event with its time forgotten: what invariants count.
  datatype Token = Token(to: UUID, body: Body)

  datatype PowerState = Off | TurningOn | TurningOff | On | Failed

  datatype VMState = Provisioning | Starting | Running | Restarting | Stopping | Stopped | Deleting | Failure

  datatype VMStatus = CreatedVM | HostedVM | StoppedVM | PendingVM | ProvisioningVM

  datatype VMDelays = VMDelays(start: nat, restart: nat, stop: nat, delete: nat)

  // A VM whose creation failed half-way keeps a nil storage handle and has no workload model.
  datatype VMData = VMData(state: VMState, owner: UUID, storage: UUID)

  datatype Storage = Storage(ok: bool, vms: map<UUID, VMStatus>)

  // The order in which a hash container is walked; each step may use a different one.
  type Order = set<UUID> -> seq<UUID>

  ghost predicate Distinct(q: seq<UUID>) {
    forall i, j :: 0 <= i < j < |q| ==> q[i] != q[j]
  }

  ghost predicate Enumerates(q: seq<UUID>, s: set<UUID>) {
    Distinct(q) && forall x :: x in q <==> x in s
  }

  ghost predicate ValidOrder(ord: Order) {
    forall s :: Enumerates(ord(s), s)
  }
}
