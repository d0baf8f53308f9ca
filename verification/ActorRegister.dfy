/** The register that owns every actor, by handle, and knows most of them by name. */
module Register {
  import opened Types
  import opened Simulator
  import opened Loop
  import opened VMActor
  import opened StorageActor
  import opened ResourceActors

  datatype Actor =
    | StorageOf(storage: VMStorage)
    | VMOf(vm: VM)
    | ServerOf(server: Server)
    | DataCenterOf(dataCenter: DataCenter)
    | CloudOf(cloud: Cloud)

  datatype Kind = AStorage | AVM | AServer | ADataCenter | ACloud

  function KindOf(a: Actor): Kind {
    match a
    case StorageOf(_) => AStorage
    case VMOf(_) => AVM
    case ServerOf(_) => AServer
    case DataCenterOf(_) => ADataCenter
    case CloudOf(_) => ACloud
  }

  function IdOf(a: Actor): UUID {
    match a
    case StorageOf(s) => s.id
    case VMOf(v) => v.id
    case ServerOf(s) => s.base.id
    case DataCenterOf(d) => d.base.id
    case CloudOf(c) => c.base.id
  }

  function LoopOf(a: Actor): EventLoop {
    match a
    case StorageOf(s) => s.loop
    case VMOf(v) => v.loop
    case ServerOf(s) => s.base.loop
    case DataCenterOf(d) => d.base.loop
    case CloudOf(c) => c.base.loop
  }

  // The objects an actor is made of.
  function Parts(a: Actor): set<object> {
    match a
    case StorageOf(s) => {s}
    case VMOf(v) => {v}
    case ServerOf(s) => {s, s.base}
    case DataCenterOf(d) => {d, d.base}
    case CloudOf(c) => {c, c.base}
  }

  function BaseOf(a: Actor): Resource
    requires a.ServerOf? || a.DataCenterOf? || a.CloudOf?
  {
    match a
    case ServerOf(s) => s.base
    case DataCenterOf(d) => d.base
    case CloudOf(c) => c.base
  }

  // The simulation once a new actor of the kind has joined it.
  ghost function Joined(w: State, kind: Kind, id: UUID): State {
    match kind
    case AStorage => w.(storage := Storage(true, map[]), next := id + 1)
    case AVM => w.(vms := w.vms[id := VMData(Provisioning, NIL, NIL)], next := id + 1)
    case AServer => w.(power := w.power[id := Off], hosted := w.hosted[id := {}], next := id + 1)
    case ADataCenter => w.(power := w.power[id := Off], next := id + 1)
    case ACloud => w.(power := w.power[id := Off], next := id + 1)
  }

  // A resource, and an actor, as they are created.
  ghost predicate Untouched(r: Resource)
    reads r
  {
    r.power == Off && r.components == {} && r.startupDelay == r.rebootDelay == r.shutdownDelay == 0
  }

  ghost predicate AsCreated(a: Actor)
    reads Parts(a)
  {
    match a
    case StorageOf(s) => s.ok && s.vms == map[]
    case VMOf(v) =>
      v.Data() == VMData(Provisioning, NIL, NIL) && v.Delays() == VMDelays(0, 0, 0, 0) && v.workload == None
    case ServerOf(s) => Untouched(s.base) && s.guests == {} && s.ram == 0
    case DataCenterOf(d) => Untouched(d.base) && d.servers == []
    case CloudOf(c) => Untouched(c.base) && c.dataCenters == [] && c.vmStorage == NIL
  }

  // Every name belongs to an actor of its own; every actor is filed under its own handle.
  ghost predicate Filed(loop: EventLoop, actors: map<UUID, Actor>, names: map<string, UUID>, serial: UUID) {
    && serial > NIL
    && (forall n :: n in names ==> names[n] in actors)
    && (forall n, m :: n in names && m in names && names[n] == names[m] ==> n == m)
    && (forall u :: u in actors ==> IdOf(actors[u]) == u && LoopOf(actors[u]) == loop && NIL < u < serial)
  }

  lemma FiledMore(loop: EventLoop, actors: map<UUID, Actor>, names: map<string, UUID>, serial: UUID, a: Actor)
    requires Filed(loop, actors, names, serial) && IdOf(a) == serial && LoopOf(a) == loop
    ensures Filed(loop, actors[serial := a], names, serial + 1)
    ensures forall name :: name !in names ==> Filed(loop, actors[serial := a], names[name := serial], serial + 1)
  {
    hide IdOf, LoopOf;
    assert forall n :: n in names ==> names[n] != serial;
  }

  lemma JoinedAside(w: State, kind: Kind, id: UUID)
    ensures Joined(w, kind, id).queue == w.queue && Joined(w, kind, id).now == w.now
  {}

  // The objects of all the actors.
  ghost function PartsOf(actors: map<UUID, Actor>): set<object> {
    set u, o | u in actors && o in Parts(actors[u]) :: o
  }

  lemma PartsMore(actors: map<UUID, Actor>, u: UUID, a: Actor)
    ensures PartsOf(actors[u := a]) <= PartsOf(actors) + Parts(a)
  {
    hide Parts;
  }

  class ActorRegister {
    const loop: EventLoop
    var actors: map<UUID, Actor>
    var names: map<string, UUID>
    var serial: UUID

    ghost predicate Valid()
      reads this
    {
      Filed(loop, actors, names, serial)
    }

    ghost function Repr(): (r: set<object>)
      reads this
      ensures forall u :: u in actors ==> Parts(actors[u]) <= r
    {
      PartsOf(actors)
    }

    lemma NotOwn()
      ensures this !in Repr()
    {}

    lemma ReprIs()
      ensures Repr() == PartsOf(actors)
    {}

    constructor (loop: EventLoop)
      ensures Valid() && this.loop == loop && actors == map[] && names == map[] && serial == 1
    {
      this.loop := loop;
      actors, names, serial := map[], map[], 1;
    }

    // Both lookups throw for what they do not know.
    function GetActor(uuid: UUID): (r: Option<Actor>)
      reads this
      ensures r.Some? <==> uuid in actors
      ensures Valid() && r.Some? ==> IdOf(r.value) == uuid
    {
      if uuid in actors then Some(actors[uuid]) else None
    }

    function GetActorHandle(name: string): (r: Option<UUID>)
      reads this
      ensures r.Some? <==> name in names
      ensures Valid() && r.Some? ==> GetActor(r.value).Some?
    {
      if name in names then Some(names[name]) else None
    }

    method Generate() returns (uuid: UUID)
      modifies this`serial
      ensures uuid == old(serial) && serial == old(serial) + 1
    {
      uuid := serial;
      serial := serial + 1;
    }

    method Create(kind: Kind, uuid: UUID) returns (actor: Actor)
      ensures KindOf(actor) == kind && IdOf(actor) == uuid && LoopOf(actor) == loop
      ensures fresh(Parts(actor)) && AsCreated(actor)
    {
      match kind {
        case AStorage =>
          var s := new VMStorage(uuid, loop);
          actor := StorageOf(s);
        case AVM =>
          var v := new VM(uuid, loop);
          actor := VMOf(v);
        case AServer =>
          var s := new Server(uuid, loop);
          actor := ServerOf(s);
        case ADataCenter =>
          var d := new DataCenter(uuid, loop);
          actor := DataCenterOf(d);
        case ACloud =>
          var c := new Cloud(uuid, loop);
          actor := CloudOf(c);
      }
    }

    // A name already taken is an error, but the new actor has joined the register by then.
    method Make(kind: Kind, name: string) returns (actor: Actor, unique: bool)
      requires Valid() && loop.Valid()
      modifies this`actors, this`names, this`serial, loop`world
      ensures Valid() && loop.Valid() && loop.world == Joined(old(loop.world), kind, old(serial))
      ensures KindOf(actor) == kind && IdOf(actor) == old(serial) && serial == old(serial) + 1
      ensures LoopOf(actor) == loop
      ensures fresh(Parts(actor)) && AsCreated(actor) && actors == old(actors)[IdOf(actor) := actor]
      ensures unique <==> name !in old(names)
      ensures names == if unique then old(names)[name := IdOf(actor)] else old(names)
    {
      hide KindOf, AsCreated, Joined, Parts, Repr, IdOf, LoopOf, Filed;
      var uuid := Generate();
      actor := Create(kind, uuid);
      FiledMore(loop, actors, names, uuid, actor);
      JoinedAside(loop.world, kind, uuid);
      actors := actors[uuid := actor];
      loop.world := Joined(loop.world, kind, uuid);
      unique := name !in names;
      if unique {
        names := names[name := uuid];
      }
    }
  }
}
