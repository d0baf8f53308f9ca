/**
 The world: it wires the loop, the register and the schedulers together, takes the external
 commands by name, and runs the loop. Every method is proved to take exactly the step the
 state machine takes.
 */
module Worlds {
  import opened Types
  import opened FlatQueue
  import opened BucketQueue
  import opened Handlers
  import opened Simulator
  import opened StepFacts
  import opened Clock
  import opened Registry
  import opened Deciding
  import opened Soundness
  import opened Draining
  import Batches
  import Confluence
  import FaultlessBatches
  import FaultyBatches
  import Lives
  import Placement
  import PowerFlow
  import HostedFirst
  import opened Loop
  import opened VMActor
  import opened StorageActor
  import opened ResourceActors
  import opened Register
  import opened Schedulers

  // What handling `e` makes of the state, when the components of its addressee are walked in `order`.
  ghost predicate Handles(c: Config, w: State, e: Event, order: seq<UUID>, w': State) {
    forall ord: Order | e.to in c.components ==> ord(c.components[e.to]) == order ::
      w' == InsertAll(React(c, w, e, ord).0, React(c, w, e, ord).1)
  }

  // What the objects of one actor hold.
  datatype Part =
    | StoragePart(storage: Storage)
    | VMPart(vm: VMData, delays: VMDelays, hasWorkload: bool)
    | ResourcePart(power: PowerState, components: set<UUID>, startup: nat, shutdown: nat, guests: Option<set<UUID>>)

  ghost function HeldByResource(r: Resource, guests: Option<set<UUID>>): Part
    reads r
  {
    ResourcePart(r.power, r.components, r.startupDelay, r.shutdownDelay, guests)
  }

  ghost function Held(a: Actor): Part
    reads Parts(a)
  {
    match a
    case StorageOf(s) => StoragePart(Storage(s.ok, s.vms))
    case VMOf(v) => VMPart(v.Data(), v.Delays(), v.workload.Some?)
    case ServerOf(s) => HeldByResource(s.base, Some(s.guests))
    case DataCenterOf(d) => HeldByResource(d.base, None)
    case CloudOf(k) => HeldByResource(k.base, None)
  }

  // What an actor holds beside it, which no event changes.
  datatype Gear =
    | Model(workload: Option<Workload>)
    | Memory(ram: nat)
    | Members(list: seq<UUID>)
    | NoGear

  ghost function GearOf(a: Actor): Gear
    reads Parts(a)
  {
    match a
    case StorageOf(_) => NoGear
    case VMOf(v) => Model(v.workload)
    case ServerOf(s) => Memory(s.ram)
    case DataCenterOf(d) => Members(d.servers)
    case CloudOf(k) => Members(k.dataCenters)
  }

  datatype Whole = Whole(part: Part, gear: Gear)

  ghost function WholeOf(a: Actor): Whole
    reads Parts(a)
  {
    Whole(Held(a), GearOf(a))
  }

  // A server, and guests that each ask for what their models say.
  ghost predicate Asking(gears: map<UUID, Gear>, server: UUID, guests: set<UUID>) {
    && server in gears && gears[server].Memory?
    && forall v :: v in guests ==> v in gears && gears[v].Model? && gears[v].workload.Some?
  }

  ghost function DemandBy(gears: map<UUID, Gear>, guests: set<UUID>, now: int): map<UUID, nat>
    requires forall v :: v in guests ==> v in gears && gears[v].Model? && gears[v].workload.Some?
  {
    map v | v in guests :: gears[v].workload.value(now)
  }

  // Each of the servers has shared out its memory among its guests.
  ghost predicate SharedBy(gears: map<UUID, Gear>, hosted: map<UUID, set<UUID>>, servers: seq<UUID>, now: int,
                           left: seq<nat>, saturated: seq<seq<UUID>>) {
    && |left| == |saturated| == |servers|
    && forall i :: 0 <= i < |servers| ==>
         && servers[i] in hosted && Asking(gears, servers[i], hosted[servers[i]])
         && Sharing(gears[servers[i]].ram, DemandBy(gears, hosted[servers[i]], now), left[i], saturated[i])
  }

  ghost function GearsAmong(wholes: map<UUID, Whole>): map<UUID, Gear> {
    map u | u in wholes :: wholes[u].gear
  }

  // The part is what the state says of the actor `u`.
  ghost predicate Fits(c: Config, w: State, u: UUID, p: Part) {
    match p
    case StoragePart(st) => u == c.storage && w.storage == st
    case VMPart(vm, d, hasWorkload) =>
      u in w.vms && w.vms[u] == vm && d == DelaysOf(c, u) && (vm.storage == c.storage ==> hasWorkload)
    case ResourcePart(power, components, startup, shutdown, guests) =>
      && u in c.components && components == c.components[u] && u in w.power && w.power[u] == power
      && startup == Delay(c.startup, u) && shutdown == Delay(c.shutdown, u)
      && (guests.Some? <==> u in c.servers)
      && (guests.Some? ==> u in w.hosted && w.hosted[u] == guests.value)
  }

  ghost predicate FitsAll(c: Config, w: State, wholes: map<UUID, Whole>) {
    forall u :: u in wholes ==> Fits(c, w, u, wholes[u].part)
  }

  // Two states that agree about `u`.
  ghost predicate SameFor(w: State, w': State, u: UUID) {
    && w'.storage == w.storage
    && (u in w.vms ==> u in w'.vms && w'.vms[u] == w.vms[u])
    && (u in w.power ==> u in w'.power && w'.power[u] == w.power[u])
    && (u in w.hosted ==> u in w'.hosted && w'.hosted[u] == w.hosted[u])
  }

  // The states differ, at most, in what concerns `id`.
  ghost predicate Aside(w: State, w': State, id: UUID) {
    && (forall u :: u != id ==> SameFor(w, w', u))
    && w'.vms.Keys == w.vms.Keys && w'.hosted.Keys == w.hosted.Keys && w'.power.Keys == w.power.Keys
  }

  lemma StillFits(c: Config, w: State, w': State, u: UUID, p: Part)
    requires Fits(c, w, u, p) && SameFor(w, w', u)
    ensures Fits(c, w', u, p)
  {}

  lemma FitsWithStorage(c: Config, w: State, w': State, u: UUID, p: Part)
    requires Fits(c, w, u, p) && !p.StoragePart? && w' == w.(storage := w'.storage)
    ensures Fits(c, w', u, p)
  {}

  // Every actor of the state has an object of the right kind.
  ghost predicate Complete(config: Config, w: State, actors: map<UUID, Actor>) {
    && config.storage in actors && actors[config.storage].StorageOf?
    && (forall v :: v in w.vms ==> v in actors && actors[v].VMOf?)
    && (forall r :: r in config.components ==> r in actors && !actors[r].VMOf? && !actors[r].StorageOf?)
    && (forall r :: r in config.servers ==> r in actors && actors[r].ServerOf?)
    && w.power.Keys == config.components.Keys && w.hosted.Keys == config.servers
  }

  // Actors with different handles share no object.
  lemma Apart(a: Actor, b: Actor, loop: EventLoop)
    requires IdOf(a) != IdOf(b)
    ensures Parts(a) !! Parts(b) && loop !in Parts(a)
  {}

  lemma QueueOnly(w: State, w': State)
    requires w' == w.(queue := w'.queue, inserted := w'.inserted)
    ensures forall u :: SameFor(w, w', u)
  {}

  lemma OnlyVM(w: State, id: UUID, vm: VMData)
    requires id in w.vms
    ensures Aside(w, w.(vms := w.vms[id := vm]), id)
  {}

  lemma JoinedFor(w: State, id: UUID)
    ensures forall u :: u != id ==> SameFor(w, Joined(w, AVM, id), u)
    ensures id in Joined(w, AVM, id).vms && Joined(w, AVM, id).vms[id] == VMData(Provisioning, NIL, NIL)
  {}

  lemma NextAfterJoin(w: State, id: UUID)
    ensures Joined(w, AVM, id).next == id + 1
  {}

  lemma NoLoop(a: Actor, loop: EventLoop)
    ensures loop !in Parts(a)
  {}

  // An order of iteration that walks `a` as `p` and `b` as `q`.
  ghost function Walking(a: set<UUID>, p: seq<UUID>, b: set<UUID>, q: seq<UUID>): Order {
    (s: set<UUID>) => if s == a then p else if s == b then q else Enumeration(s)
  }

  lemma WalkingIsValid(a: set<UUID>, p: seq<UUID>, b: set<UUID>, q: seq<UUID>)
    requires Enumerates(p, a) && Enumerates(q, b) && a !! b
    ensures ValidOrder(Walking(a, p, b, q))
    ensures Walking(a, p, b, q)(a) == p && Walking(a, p, b, q)(b) == q
  {
    if a == b {
      assert forall x :: x !in a;
      Nobody(p, a);
      Nobody(q, b);
    }
  }

  function ComponentsOf(c: Config, u: UUID): set<UUID> {
    if u in c.components then c.components[u] else {}
  }

  lemma HandlesIsDispatch(c: Config, s: State, order: seq<UUID>, w: State, ord: Order)
    requires s.queue != [] && Handles(c, Popped(s), s.queue[0], order, w)
    requires s.queue[0].to in c.components ==> ord(c.components[s.queue[0].to]) == order
    ensures w == Dispatch(c, s, ord)
  {
    hide React, InsertAll;
  }

  // Components are resources, what the storage knows are VMs.
  lemma ComponentsAreNoVMs(c: Config, s: State, u: UUID)
    requires WellFormed(c) && Known(c, s)
    ensures ComponentsOf(c, u) !! s.storage.vms.Keys
  {
    forall x | x in ComponentsOf(c, u)
      ensures x !in s.storage.vms
    {
      assert x in c.parent && x in c.components;
      assert x in s.storage.vms ==> Ready(c, s, x);
    }
    hide Known;
  }

  lemma WaitingVMs(c: Config, s: State)
    requires Known(c, s)
    ensures forall v :: Pending(s, v) ==> v in s.vms
    ensures forall x, v :: x in s.hosted && v in s.hosted[x] ==> v in s.vms && s.vms[v].storage == c.storage
  {
    assert forall v :: v in s.storage.vms ==> Ready(c, s, v);
    assert forall x :: x in s.hosted ==> AllReady(c, s, s.hosted[x]);
    hide AllAddressed;
  }

  // One step, put together from the two halves the loop runs.
  lemma StepFromHalves(c: Config, s: State, p: seq<UUID>, d: State, ord: Order)
    requires WellFormed(c) && ValidOrder(ord) && Sound(c, s) && s.queue != []
    requires Handles(c, Popped(s), s.queue[0], p, d)
    requires s.queue[0].to in c.components ==> ord(c.components[s.queue[0].to]) == p
    ensures d == Dispatch(c, s, ord) && Known(c, d) && d.now == s.queue[0].time && AllFrom(d.queue, d.now)
    ensures BucketEmpty(d) ==> Step(c, s, ord) == Tick(Simulator.UpdateWorld(c, d, ord))
    ensures !BucketEmpty(d) ==> Step(c, s, ord) == d
    ensures !LookupFails(c, d)
  {
    hide Sound, Known, DecisionsOrderly, Lives.Alive, Placement.AllTraced, PowerFlow.AllPowering, HostedFirst.InOrder,
      WellFormed, Handles, Dispatch, Simulator.UpdateWorld;
    HandlesIsDispatch(c, s, p, d, ord);
    SoundDispatch(c, s, ord);
    SoundKnown(c, s);
    TimelyDispatch(c, s, ord);
    KnownSucceeds(c, d);
  }

  // The walks of one step, as one order of iteration.
  ghost function WalkingBoth(c: Config, s: State, d: State, p: seq<UUID>, q: seq<UUID>): Order
    requires s.queue != []
  {
    var u := s.queue[0].to;
    Walking(ComponentsOf(c, u), if u in c.components then p else [], d.storage.vms.Keys, q)
  }

  // The event is handled: what holds of the state machine's dispatch holds now.
  lemma HalfWay(c: Config, s: State, p: seq<UUID>, d: State)
    requires WellFormed(c) && Sound(c, s) && s.queue != [] && Handles(c, Popped(s), s.queue[0], p, d)
    requires s.queue[0].to in c.components ==> Enumerates(p, c.components[s.queue[0].to])
    ensures Known(c, d) && d.now == s.queue[0].time && AllFrom(d.queue, d.now)
  {
    hide Sound, Known, WellFormed, Handles, Dispatch, Simulator.UpdateWorld, ValidOrder;
    var u := s.queue[0].to;
    var p' := if u in c.components then p else [];
    WalkingIsValid(ComponentsOf(c, u), p', {}, []);
    StepFromHalves(c, s, p, d, Walking(ComponentsOf(c, u), p', {}, []));
  }

  lemma WholeStep(c: Config, s: State, p: seq<UUID>, d: State, q: seq<UUID>)
    requires WellFormed(c) && Sound(c, s) && s.queue != [] && Handles(c, Popped(s), s.queue[0], p, d)
    requires s.queue[0].to in c.components ==> Enumerates(p, c.components[s.queue[0].to])
    requires Enumerates(q, d.storage.vms.Keys)
    ensures var ord := WalkingBoth(c, s, d, p, q);
            && ValidOrder(ord)
            && Step(c, s, ord) ==
               if BucketEmpty(d) then Tick(Scan(c, d, q).(updates := d.updates + [d.now])) else d
  {
    hide Sound, Known, WellFormed, Handles, Dispatch, Simulator.UpdateWorld, ValidOrder, Scan, Step, BucketEmpty;
    var u := s.queue[0].to;
    HalfWay(c, s, p, d);
    ComponentsAreNoVMs(c, d, u);
    WalkingIsValid(ComponentsOf(c, u), if u in c.components then p else [], d.storage.vms.Keys, q);
    var ord := WalkingBoth(c, s, d, p, q);
    StepFromHalves(c, s, p, d, ord);
    UpdateFromScan(c, d, q, ord);
  }

  ghost function AnyOrder(): (ord: Order)
    ensures ValidOrder(ord)
  {
    (s: set<UUID>) => Enumeration(s)
  }

  // Steps give out no handles.
  lemma NextKept(c: Config, s: State, ord: Order)
    ensures Step(c, s, ord).next == s.next
  {
    if s.queue != [] {
      DispatchShape(c, s, ord);
      ScanAside(c, Dispatch(c, s, ord), ord(Dispatch(c, s, ord).storage.vms.Keys));
      hide Dispatch, Scan, LookupFails;
    }
  }

  // A step with a world update leaves the clock one past the time of its event.
  lemma UpdatesClosing(c: Config, s: State, ord: Order)
    requires s.queue != [] && |Step(c, s, ord).updates| > |s.updates|
    ensures Step(c, s, ord).now == s.queue[0].time + 1
  {
    DispatchShape(c, s, ord);
    ScanAside(c, Dispatch(c, s, ord), ord(Dispatch(c, s, ord).storage.vms.Keys));
    hide Dispatch, Scan, LookupFails;
  }

  lemma StepIdle(c: Config, s: State, ord: Order)
    requires s.queue == []
    ensures Step(c, s, ord) == s
  {}

  lemma KnownSucceeds(c: Config, d: State)
    requires Known(c, d)
    ensures !LookupFails(c, d)
  {
    LookupsSucceed(c, d);
  }

  lemma UpdateFromScan(c: Config, d: State, q: seq<UUID>, ord: Order)
    requires !LookupFails(c, d) && ord(d.storage.vms.Keys) == q
    ensures Simulator.UpdateWorld(c, d, ord) == Scan(c, d, q).(updates := d.updates + [d.now])
  {
    ScanAside(c, d, q);
    hide Scan, LookupFails;
  }

  lemma {:induction false} ScanAside(c: Config, s: State, q: seq<UUID>)
    ensures Scan(c, s, q) == s.(queue := Scan(c, s, q).queue, inserted := Scan(c, s, q).inserted)
  {
    if q != [] {
      ScanAside(c, s, q[..|q| - 1]);
    }
  }

  lemma NextSame(c: Config, s: State, m: Command)
    requires !m.CreateVM?
    ensures Execute(c, s, m).next == s.next
  {
    hide InsertBack, InsertFront;
  }

  // Handles not given out yet have no delays of their own.
  ghost predicate NoDelaysFrom(c: Config, next: UUID) {
    forall v :: next <= v ==> v !in c.vmDelays
  }

  lemma SmallHandles(c: Config, s: State)
    requires WellFormed(c) && Known(c, s)
    ensures c.storage != NIL && c.storage < s.next && s.next !in c.components && c.servers <= c.components.Keys
  {
    hide AllAddressed, AllReady;
  }

  // How a command ends.
  datatype Outcome = Accepted | UnknownName | NameTaken | BadWorkload

  // A drain of one more step.
  ghost function Then(ords: nat -> Order, n: nat, ord: Order): nat -> Order {
    (i: nat) => if i == n then ord else ords(i)
  }

  lemma {:induction false} DrainAgrees(c: Config, s: State, ords: nat -> Order, others: nat -> Order, n: nat)
    requires forall i: nat :: i < n ==> ords(i) == others(i)
    ensures Drain(c, s, ords, n) == Drain(c, s, others, n)
  {
    hide Step;
    if n != 0 {
      DrainAgrees(c, s, ords, others, n - 1);
    }
  }

  lemma DrainOneMore(c: Config, s: State, ords: nat -> Order, n: nat, ord: Order)
    requires ValidOrders(ords) && ValidOrder(ord)
    ensures ValidOrders(Then(ords, n, ord))
    ensures Drain(c, s, Then(ords, n, ord), n + 1) == Step(c, Drain(c, s, ords, n), ord)
  {
    hide Step, ValidOrder;
    DrainAgrees(c, s, ords, Then(ords, n, ord), n);
  }

  ghost function AnyOrders(): (ords: nat -> Order)
    ensures ValidOrders(ords)
  {
    (i: nat) => AnyOrder()
  }

  lemma DrainNothing(c: Config, s: State, ords: nat -> Order)
    ensures Drain(c, s, ords, 0) == s
  {
    hide Step;
  }

  // No drain from here ever gets stuck.
  ghost predicate CanDrain(c: Config, s: State) {
    forall ords, n: nat :: ValidOrders(ords) ==> !Stuck(Drain(c, s, ords, n))
  }

  // Which can be told in advance with any one order: the drain in it is over after as many steps
  // as there is potential.
  lemma CanDrainIffOneEnds(c: Config, s: State, ords: nat -> Order)
    requires WellFormed(c) && Reachable(c, s) && ValidOrders(ords)
    ensures CanDrain(c, s) <==> Drain(c, s, ords, Potential(c, s)).queue == []
  {
    hide WellFormed, Reachable, Sound, ValidOrders, Drain, Stuck, Potential, Ends, GetsStuck;
    ReachableIsSound(c, s);
    EndsIffEmptyInTime(c, s, ords);
    if CanDrain(c, s) {
      NoneStuck(c, s, ords);
      EndsUnlessStuck(c, s, ords);
    }
    if Ends(c, s, ords) {
      forall others, n: nat | ValidOrders(others)
        ensures !Stuck(Drain(c, s, others, n))
      {
        Confluence.EndsInAnyOrder(c, s, ords, others);
        if GetsStuck(c, s, others) {
          NeverEndsOnceStuck(c, s, others);
        }
        NotStuckAt(c, s, others, n);
      }
    }
  }

  lemma NoneStuck(c: Config, s: State, ords: nat -> Order)
    requires CanDrain(c, s) && ValidOrders(ords)
    ensures !GetsStuck(c, s, ords)
  {
    hide Stuck, Drain, ValidOrders;
  }

  lemma TameCanDrain(c: Config, s: State)
    requires WellFormed(c) && Sound(c, s) && Batches.Tame(c, s)
    ensures CanDrain(c, s)
  {
    hide WellFormed, Sound, Batches.Tame, Drain, Stuck, ValidOrders;
    forall ords, n: nat | ValidOrders(ords)
      ensures !Stuck(Drain(c, s, ords, n))
    {
      Batches.NeverStuck(c, s, ords);
      NotStuckAt(c, s, ords, n);
    }
  }

  // After any script of well-formed batches `SimulateAll` may be called: it returns.
  lemma BatchesCanDrain(c: Config, s: State, script: seq<Action>)
    requires WellFormed(c) && Initial(c, s) && Batches.Disciplined(c, s, script)
    ensures CanDrain(c, Run(c, s, script))
  {
    hide WellFormed, Initial, Batches.Disciplined, Sound, Batches.Tame, Run, CanDrain;
    Batches.TameRun(c, s, script);
    TameCanDrain(c, Run(c, s, script));
  }

  // After any allowed batch given at rest it may be called unless the batch is fatal.
  lemma RestCanDrainIffNotFatal(c: Config, s: State, cmds: seq<Command>, ords: nat -> Order)
    requires WellFormed(c) && Sound(c, s) && s.queue == [] && FaultyBatches.AllowedBatch(c, s, cmds) && ValidOrders(ords)
    ensures CanDrain(c, ExecuteAll(c, s, cmds)) <==> !(s.storage.ok && FaultlessBatches.Fatal(c, s, cmds))
  {
    hide WellFormed, Sound, FaultyBatches.AllowedBatch, ValidOrders, Drain, Stuck, Ends, GetsStuck, ExecuteAll,
        FaultlessBatches.Fatal, FaultlessBatches.Cast;
    var s' := ExecuteAll(c, s, cmds);
    FaultlessBatches.CastOfBatch(c, s, cmds);
    if CanDrain(c, s') {
      NoneStuck(c, s', ords);
      EndsUnlessStuck(c, s', ords);
      FaultlessBatches.DrainEndsIffNotFatal(c, s, cmds, ords);
    } else {
      var others, n: nat :| ValidOrders(others) && Stuck(Drain(c, s', others, n));
      GetsStuckAt(c, s', others, n);
      NeverEndsOnceStuck(c, s', others);
      FaultlessBatches.DrainEndsIffNotFatal(c, s, cmds, others);
    }
  }

  lemma GetsStuckAt(c: Config, s: State, ords: nat -> Order, n: nat)
    requires Stuck(Drain(c, s, ords, n))
    ensures GetsStuck(c, s, ords)
  {
    hide Stuck, Drain;
  }

  lemma NotStuckAt(c: Config, s: State, ords: nat -> Order, n: nat)
    requires !GetsStuck(c, s, ords)
    ensures !Stuck(Drain(c, s, ords, n))
  {
    hide Stuck, Drain;
  }

  lemma JoinIsCreation(c: Config, s: State)
    ensures Execute(c, s, Command.CreateVM(false)) == Joined(s, AVM, s.next)
    ensures Execute(c, s, Command.CreateVM(true)) ==
            Simulator.Insert(s.(vms := s.vms[s.next := VMData(Provisioning, NIL, c.storage)], next := s.next + 1),
                             Event(s.now, c.storage, StorageEvent(VMCreated, s.next)), false)
  {
    hide Simulator.Insert;
  }

  class World {
    const loop: EventLoop
    const register: ActorRegister
    const manager: ServerSchedulerManager
    const scheduler: FirstAvailableScheduler
    const storageHandle: UUID
    ghost const config: Config

    // What every object holds.
    ghost function Holdings(): (r: map<UUID, Whole>)
      reads register, register.Repr()
    {
      map u | u in register.actors :: WholeOf(register.actors[u])
    }

    // And what of it no event changes.
    ghost function Gears(): (r: map<UUID, Gear>)
      reads register, register.Repr()
    {
      map u | u in register.actors :: GearOf(register.actors[u])
    }

    ghost predicate Mirrored()
      reads loop, register, register.Repr()
    {
      && loop.Valid() && register.Valid() && register.loop == loop && Complete(config, loop.world, register.actors)
      && forall u :: u in register.actors ==> Fits(config, loop.world, u, Held(register.actors[u]))
    }

    // The schedulers look at this register, at servers of the configuration, and find its first server.
    ghost predicate Wired()
      reads manager, register
      reads set u | u in register.actors && register.actors[u].CloudOf? :: register.actors[u].cloud
      reads set u | u in register.actors && register.actors[u].DataCenterOf? :: register.actors[u].dataCenter
    {
      WiredTo(register.actors)
    }

    ghost predicate WiredTo(actors: map<UUID, Actor>)
      reads manager
      reads set u | u in actors && actors[u].CloudOf? :: actors[u].cloud
      reads set u | u in actors && actors[u].DataCenterOf? :: actors[u].dataCenter
    {
      && storageHandle == config.storage
      && manager.register == register && scheduler.register == register && scheduler.monitored == config.cloud
      && (forall i :: 0 <= i < |manager.schedulers| ==>
            manager.schedulers[i].register == register && manager.schedulers[i].sharedResource in config.servers)
      && config.cloud in actors && actors[config.cloud].CloudOf?
      && var cloud := actors[config.cloud].cloud;
      && cloud.vmStorage == config.storage && cloud.dataCenters != []
      && cloud.dataCenters[0] in actors && actors[cloud.dataCenters[0]].DataCenterOf?
      && var dc := actors[cloud.dataCenters[0]].dataCenter;
      && dc.servers != [] && dc.servers[0] == config.first
    }

    lemma WiredToMore(actors: map<UUID, Actor>, more: map<UUID, Actor>)
      requires WiredTo(actors) && forall u :: u in actors ==> u in more && more[u] == actors[u]
      ensures WiredTo(more)
    {}

    constructor (loop: EventLoop, register: ActorRegister, manager: ServerSchedulerManager,
                 scheduler: FirstAvailableScheduler, storageHandle: UUID, ghost config: Config)
      ensures this.loop == loop && this.register == register && this.manager == manager
      ensures this.scheduler == scheduler && this.storageHandle == storageHandle && this.config == config
    {
      this.loop, this.register, this.manager := loop, register, manager;
      this.scheduler, this.storageHandle, this.config := scheduler, storageHandle, config;
    }

    // ----- delivering one event -----

    // When one actor has handled an event, and fits the new state, all of them do.
    lemma Restored(id: UUID, w: State, before: map<UUID, Whole>)
      requires loop.Valid() && register.Valid() && register.loop == loop && Complete(config, w, register.actors) &&
               id in register.actors && Aside(w, loop.world, id)
      requires before.Keys == register.actors.Keys
      requires FitsAll(config, w, before)
      requires forall u :: u in register.actors && u != id ==> WholeOf(register.actors[u]) == before[u]
      requires Fits(config, loop.world, id, Held(register.actors[id]))
      ensures Mirrored() && Gears() == GearsAmong(before)[id := GearOf(register.actors[id])]
      ensures before[id].gear == GearOf(register.actors[id]) ==> Gears() == GearsAmong(before)
    {
      hide Fits, Held, GearOf, Refines, SameFor;
      forall u | u in register.actors && u != id
        ensures Fits(config, loop.world, u, Held(register.actors[u]))
      {
        StillFits(config, w, loop.world, u, before[u].part);
      }
    }

    // What a change to one actor must not disturb.
    lemma Sides()
      requires Mirrored()
      ensures loop.Valid() && register.Valid() && register.loop == loop
      ensures Complete(config, loop.world, register.actors) && FitsAll(config, loop.world, Holdings())
      ensures Holdings().Keys == register.actors.Keys && Gears() == GearsAmong(Holdings())
      ensures forall u :: u in register.actors ==> Holdings()[u] == WholeOf(register.actors[u])
    {
      hide Fits, Held, GearOf, Complete;
    }

    lemma VMHandles(e: Event, v: VM)
      requires Mirrored() && e.to in register.actors && register.actors[e.to] == VMOf(v)
      ensures Handles(config, loop.world, e, [], v.After(e))
    {
      hide VMReact, StorageReact, ServerReact, ResourceReact;
      assert Fits(config, loop.world, e.to, Held(VMOf(v)));
    }

    method DeliverVM(e: Event, v: VM)
      requires Mirrored() && e.to in register.actors && register.actors[e.to] == VMOf(v)
      modifies v, loop
      ensures Mirrored() && Handles(config, old(loop.world), e, [], loop.world)
      ensures old(Wired()) ==> Wired()
      ensures loop.currentTs == old(loop.currentTs) && old(loop.queue).Keys <= loop.queue.Keys
      ensures old(loop.Filled()) ==> loop.Filled()
      ensures Gears() == old(Gears())
    {
      hide Wired, ActorRegister.Repr, FitsAll, Mirrored, Complete;
      hide Handles, VMReact, Fits, Held, GearOf, WholeOf, InsertAll, Refines, VM.After, SameFor, Aside, Holdings, Gears;
      ghost var w, before := loop.world, Holdings();
      Sides();
      VMHandles(e, v);
      FitsVM(e, v);
      VMAside(e, v);
      GearOfVM(v);
      v.HandleEvent(e);
      VMFits(e.to, v);
      GearOfVM(v);
      forall u | u in register.actors && u != e.to
        ensures WholeOf(register.actors[u]) == before[u]
      {
        Apart(register.actors[u], register.actors[e.to], loop);
      }
      Restored(e.to, w, before);
    }

    lemma GearOfVM(v: VM)
      ensures GearOf(VMOf(v)) == WholeOf(VMOf(v)).gear == Model(v.workload)
    {}

    lemma VMAside(e: Event, v: VM)
      requires Mirrored() && e.to in register.actors && register.actors[e.to] == VMOf(v)
      ensures Aside(loop.world, v.After(e), e.to)
    {
      hide VMReact, VM.After;
      FitsVM(e, v);
      v.AfterAside(e);
    }

    lemma FitsVM(e: Event, v: VM)
      requires Mirrored() && e.to in register.actors && register.actors[e.to] == VMOf(v)
      ensures v.Valid() && v.id == e.to && v.Delays() == DelaysOf(config, v.id)
      ensures v.storage == config.storage ==> v.workload.Some?
    {
      assert Fits(config, loop.world, e.to, Held(VMOf(v)));
    }

    lemma VMFits(u: UUID, v: VM)
      requires v.Valid() && u == v.id && v.loop == loop && v.Delays() == DelaysOf(config, u)
      requires v.storage == config.storage ==> v.workload.Some?
      ensures Fits(config, loop.world, u, Held(VMOf(v)))
    {}

    lemma StorageHandles(e: Event, s: VMStorage)
      requires Mirrored() && e.to in register.actors && register.actors[e.to] == StorageOf(s)
      ensures s.Valid() && s.loop == loop && e.to == config.storage
      ensures Handles(config, loop.world, e, [], loop.world.(storage := StorageReact(loop.world.storage, e)))
    {
      hide VMReact, StorageReact, ServerReact, ResourceReact;
      assert Fits(config, loop.world, e.to, Held(StorageOf(s)));
      NothingPosted(loop.world.(storage := StorageReact(loop.world.storage, e)));
    }

    method DeliverStorage(e: Event, s: VMStorage)
      requires Mirrored() && e.to in register.actors && register.actors[e.to] == StorageOf(s)
      modifies s, loop
      ensures Mirrored() && Handles(config, old(loop.world), e, [], loop.world)
      ensures old(Wired()) ==> Wired()
      ensures loop.currentTs == old(loop.currentTs) && old(loop.queue).Keys <= loop.queue.Keys
      ensures old(loop.Filled()) ==> loop.Filled()
      ensures Gears() == old(Gears())
    {
      hide Wired, ActorRegister.Repr, FitsAll, Mirrored, Complete, Holdings, Gears;
      hide Handles, StorageReact, Fits, Held, GearOf, WholeOf, InsertAll, Refines;
      StorageHandles(e, s);
      ghost var w, before := loop.world, Holdings();
      Sides();
      OneStorage();
      GearOfStorage(s);
      s.HandleEvent(e);
      GearOfStorage(s);
      StorageFits(e.to, s);
      forall u | u in register.actors && u != e.to
        ensures WholeOf(register.actors[u]) == before[u]
      {
        Apart(register.actors[u], register.actors[e.to], loop);
      }
      StorageRestored(w, before);
    }

    // When only the storage has changed, the other actors fit the new state.
    lemma StorageRestored(w: State, before: map<UUID, Whole>)
      requires loop.Valid() && register.Valid() && register.loop == loop && Complete(config, w, register.actors)
      requires before.Keys == register.actors.Keys && FitsAll(config, w, before) && config.storage in register.actors
      requires loop.world == w.(storage := loop.world.storage)
      requires forall u :: u in register.actors && u != config.storage ==>
                 WholeOf(register.actors[u]) == before[u] && !register.actors[u].StorageOf?
      requires Fits(config, loop.world, config.storage, Held(register.actors[config.storage]))
      ensures before[config.storage].gear == GearOf(register.actors[config.storage]) ==> Gears() == GearsAmong(before)
      ensures Mirrored()
    {
      hide Fits, Held, Refines, SameFor;
      forall u | u in register.actors && u != config.storage
        ensures Fits(config, loop.world, u, Held(register.actors[u]))
      {
        NotTheStorage(register.actors[u]);
        FitsWithStorage(config, w, loop.world, u, before[u].part);
      }
    }

    lemma GearOfStorage(s: VMStorage)
      ensures GearOf(StorageOf(s)) == WholeOf(StorageOf(s)).gear == NoGear
    {}

    // No other actor is a storage.
    lemma OneStorage()
      requires Mirrored()
      ensures forall u :: u in register.actors && register.actors[u].StorageOf? ==> u == config.storage
    {
      forall u | u in register.actors && register.actors[u].StorageOf?
        ensures u == config.storage
      {
        assert Fits(config, loop.world, u, Held(register.actors[u]));
      }
    }

    lemma NotTheStorage(a: Actor)
      requires !a.StorageOf?
      ensures !Held(a).StoragePart?
    {}

    lemma StorageFits(u: UUID, s: VMStorage)
      requires s.Valid() && u == s.id == config.storage && s.loop == loop
      ensures Fits(config, loop.world, u, Held(StorageOf(s)))
    {}

    // ----- resources -----

    // A data center or the cloud, whose whole behaviour is that of a resource.
    ghost predicate Plain(u: UUID, r: Resource)
      reads register
    {
      u in register.actors && (register.actors[u].DataCenterOf? || register.actors[u].CloudOf?) &&
          BaseOf(register.actors[u]) == r
    }

    // What never changes about a resource agrees with the configuration.
    ghost predicate Configured(u: UUID, r: Resource)
      reads r
    {
      && u in config.components && r.components == config.components[u]
      && r.startupDelay == Delay(config.startup, u) && r.shutdownDelay == Delay(config.shutdown, u)
    }

    lemma GearOfPlain(a: Actor)
      requires a.DataCenterOf? || a.CloudOf?
      ensures GearOf(a) == WholeOf(a).gear == Members(if a.DataCenterOf? then a.dataCenter.servers else a.cloud.dataCenters)
    {}

    lemma PlainFacts(u: UUID, r: Resource)
      requires Mirrored() && Plain(u, r)
      ensures r.Valid() && r.loop == loop && r.id == u && Configured(u, r) && u !in config.servers
    {
      assert Fits(config, loop.world, u, Held(register.actors[u]));
    }

    lemma PlainHandles(e: Event, r: Resource, order: seq<UUID>)
      requires Mirrored() && Plain(e.to, r)
      ensures Handles(config, loop.world, e, order, r.After(e, order)) && Aside(loop.world, r.After(e, order), e.to)
    {
      hide VMReact, StorageReact, ServerReact, ResourceReact;
      PlainFacts(e.to, r);
      r.AfterAside(e, order);
    }

    lemma PlainAnyway(e: Event, r: Resource)
      requires Mirrored() && Plain(e.to, r)
      ensures forall q :: Handles(config, loop.world, e, q, r.After(e, q)) && Aside(loop.world, r.After(e, q), e.to)
    {
      hide Mirrored, Handles, Aside, Resource.After, Plain;
      forall q
        ensures Handles(config, loop.world, e, q, r.After(e, q)) && Aside(loop.world, r.After(e, q), e.to)
      {
        PlainHandles(e, r, q);
      }
    }

    method DeliverPlain(e: Event, r: Resource) returns (ghost order: seq<UUID>)
      requires Mirrored() && Plain(e.to, r)
      modifies r, loop
      ensures Mirrored() && Handles(config, old(loop.world), e, order, loop.world)
      ensures old(Wired()) ==> Wired()
      ensures e.to in config.components && Enumerates(order, config.components[e.to])
      ensures loop.currentTs == old(loop.currentTs) && old(loop.queue).Keys <= loop.queue.Keys
      ensures old(loop.Filled()) ==> loop.Filled()
      ensures Gears() == old(Gears())
    {
      hide Wired, ActorRegister.Repr, FitsAll, Mirrored, Complete, Holdings, Gears;
      hide Handles, ResourceReact, Fits, Held, GearOf, WholeOf, InsertAll, Refines, SameFor, Enumerates, Delay, Resource.After, Aside;
      ghost var w, before := loop.world, Holdings();
      Sides();
      PlainFacts(e.to, r);
      PlainAnyway(e, r);
      GearOfPlain(register.actors[e.to]);
      order := r.HandleEvent(e);
      GearOfPlain(register.actors[e.to]);
      PlainFits(e.to, r);
      forall u | u in register.actors && u != e.to
        ensures WholeOf(register.actors[u]) == before[u]
      {
        Apart(register.actors[u], register.actors[e.to], loop);
      }
      Restored(e.to, w, before);
    }

    lemma PlainFits(u: UUID, r: Resource)
      requires Plain(u, r) && r.Valid() && u == r.id && r.loop == loop && Configured(u, r) && u !in config.servers
      ensures Fits(config, loop.world, u, Held(register.actors[u]))
    {}

    lemma GearOfServer(s: Server)
      ensures GearOf(ServerOf(s)) == WholeOf(ServerOf(s)).gear == Memory(s.ram)
    {}

    lemma ServerFacts(u: UUID, s: Server)
      requires Mirrored() && u in register.actors && register.actors[u] == ServerOf(s)
      ensures s.Valid() && s.base.loop == loop && s.base.id == u && Configured(u, s.base) && u in config.servers
    {
      assert Fits(config, loop.world, u, Held(ServerOf(s)));
    }

    // The state a server leaves when it has handled the event.
    ghost function ServerAfter(e: Event, s: Server, order: seq<UUID>): State
      reads s, s.base, s.base.loop
    {
      if e.body.ServerEvent? then s.After(e) else s.base.After(e, order)
    }

    lemma ServerHandles(e: Event, s: Server, order: seq<UUID>)
      requires Mirrored() && e.to in register.actors && register.actors[e.to] == ServerOf(s)
      ensures Handles(config, loop.world, e, order, ServerAfter(e, s, order))
    {
      hide VMReact, StorageReact, ServerReact, ResourceReact;
      ServerFacts(e.to, s);
    }

    lemma ServerAside(e: Event, s: Server, order: seq<UUID>)
      requires Mirrored() && e.to in register.actors && register.actors[e.to] == ServerOf(s)
      ensures Aside(loop.world, ServerAfter(e, s, order), e.to)
    {
      hide VMReact, StorageReact, ServerReact, ResourceReact, Resource.After;
      hide Mirrored;
      ServerFacts(e.to, s);
      if e.body.ServerEvent? {
        s.AfterAside(e);
      } else {
        s.base.AfterAside(e, order);
      }
    }

    lemma ServerAnyway(e: Event, s: Server)
      requires Mirrored() && e.to in register.actors && register.actors[e.to] == ServerOf(s)
      ensures forall q :: Handles(config, loop.world, e, q, ServerAfter(e, s, q)) &&
               Aside(loop.world, ServerAfter(e, s, q), e.to)
    {
      hide Mirrored, Handles, Aside, ServerAfter;
      forall q
        ensures Handles(config, loop.world, e, q, ServerAfter(e, s, q)) && Aside(loop.world, ServerAfter(e, s, q), e.to)
      {
        ServerHandles(e, s, q);
        ServerAside(e, s, q);
      }
    }

    method DeliverServer(e: Event, s: Server) returns (ghost order: seq<UUID>)
      requires Mirrored() && e.to in register.actors && register.actors[e.to] == ServerOf(s)
      modifies s, s.base, loop
      ensures Mirrored() && Handles(config, old(loop.world), e, order, loop.world)
      ensures old(Wired()) ==> Wired()
      ensures e.to in config.components && Enumerates(order, config.components[e.to])
      ensures loop.currentTs == old(loop.currentTs) && old(loop.queue).Keys <= loop.queue.Keys
      ensures old(loop.Filled()) ==> loop.Filled()
      ensures Gears() == old(Gears())
    {
      hide Wired, ActorRegister.Repr, FitsAll;
      hide Handles, ResourceReact, ServerReact, Fits, Held, GearOf, WholeOf, InsertAll, Refines, SameFor, Enumerates, Delay,
          Resource.After, Server.After, Aside, Mirrored, Complete, Holdings, Gears;
      ghost var w, before := loop.world, Holdings();
      Sides();
      ServerFacts(e.to, s);
      ServerAnyway(e, s);
      GearOfServer(s);
      order := s.HandleEvent(e);
      GearOfServer(s);
      assert loop.world == old(ServerAfter(e, s, order));
      ServerFits(e.to, s);
      forall u | u in register.actors && u != e.to
        ensures WholeOf(register.actors[u]) == before[u]
      {
        Apart(register.actors[u], register.actors[e.to], loop);
      }
      Restored(e.to, w, before);
    }

    lemma ServerFits(u: UUID, s: Server)
      requires u == s.base.id && s.base.loop == loop && s.Valid() && Configured(u, s.base) && u in config.servers
      ensures Fits(config, loop.world, u, Held(ServerOf(s)))
    {}

    // Nobody of that name: the lookup throws and the loop swallows it.
    lemma NobodyHandles(e: Event)
      requires Mirrored() && e.to !in register.actors
      ensures e.to !in config.components && Handles(config, loop.world, e, [], loop.world)
    {
      hide VMReact, StorageReact, ServerReact, ResourceReact;
      NothingPosted(loop.world);
    }

    lemma WhoHasComponents(u: UUID)
      requires Mirrored() && u in register.actors
      ensures u in config.components <==> !register.actors[u].VMOf? && !register.actors[u].StorageOf?
    {
      assert Fits(config, loop.world, u, Held(register.actors[u]));
    }

    // Looks the addressee up and lets it handle the event.
    method Deliver(e: Event) returns (ghost order: seq<UUID>)
      requires Mirrored()
      modifies loop, register.Repr()
      ensures Mirrored() && Handles(config, old(loop.world), e, order, loop.world)
      ensures old(Wired()) ==> Wired()
      ensures e.to in config.components ==> Enumerates(order, config.components[e.to])
      ensures loop.currentTs == old(loop.currentTs) && old(loop.queue).Keys <= loop.queue.Keys
      ensures old(loop.Filled()) ==> loop.Filled()
      ensures Gears() == old(Gears())
    {
      hide Handles, Fits, Held, GearOf, WholeOf, Refines, Enumerates, Mirrored;
      order := [];
      match register.GetActor(e.to) {
        case None => NobodyHandles(e);
        case Some(StorageOf(s)) => WhoHasComponents(e.to); DeliverStorage(e, s);
        case Some(VMOf(v)) => WhoHasComponents(e.to); DeliverVM(e, v);
        case Some(ServerOf(s)) => order := DeliverServer(e, s);
        case Some(DataCenterOf(d)) => order := DeliverPlain(e, d.base);
        case Some(CloudOf(k)) => order := DeliverPlain(e, k.base);
      }
    }

    // ----- one step of the loop -----

    ghost predicate Valid()
      reads loop, manager, register, register.Repr()
      reads set u | u in register.actors && register.actors[u].CloudOf? :: register.actors[u].cloud
      reads set u | u in register.actors && register.actors[u].DataCenterOf? :: register.actors[u].dataCenter
    {
      && Mirrored() && Wired() && NoneEmpty(loop.queue) && WellFormed(config)
      && Reachable(config, loop.world)
      && register.serial == loop.world.next && NoDelaysFrom(config, register.serial)
    }

    lemma GreedyReady(i: nat)
      requires Mirrored() && Wired() && Known(config, loop.world) && i < |manager.schedulers|
      ensures manager.schedulers[i].Ready()
    {
      var u := manager.schedulers[i].sharedResource;
      assert Fits(config, loop.world, u, Held(register.actors[u]));
      WaitingVMs(config, loop.world);
      hide Known;
      forall v | v in register.actors[u].server.guests
        ensures v in register.actors && register.actors[v].VMOf? && register.actors[v].vm.workload.Some?
      {
        assert Fits(config, loop.world, v, Held(register.actors[v]));
      }
    }

    lemma PlacingReady()
      requires Mirrored() && Wired() && Known(config, loop.world)
      ensures scheduler.Ready(config)
    {
      WaitingVMs(config, loop.world);
      hide Known;
      assert Fits(config, loop.world, config.storage, Held(register.actors[config.storage]));
    }

    // The servers the schedulers look after.
    ghost function Overseen(): seq<UUID>
      reads manager
    {
      seq(|manager.schedulers|, i requires 0 <= i < |manager.schedulers| reads manager => manager.schedulers[i].sharedResource)
    }

    // What is left of each server's memory, and who got some, at the given time.
    ghost predicate SharedOut(now: int, left: seq<nat>, saturated: seq<seq<UUID>>)
      reads loop, manager, register, register.Repr()
    {
      SharedBy(Gears(), loop.world.hosted, Overseen(), now, left, saturated)
    }

    // Each server shares out its memory among its guests, each asking for what its model says.
    method ShareMemory() returns (left: seq<nat>, saturated: seq<seq<UUID>>)
      requires Mirrored() && Wired() && Known(config, loop.world)
      ensures Mirrored() && Wired() && SharedOut(loop.currentTs, left, saturated)
      ensures Gears() == old(Gears())
    {
      hide Known, Fits, Held, Refines, GearOf, WholeOf, Sharing, Complete, FitsAll, Gears, Mirrored, GreedyServerScheduler.Ready,
          GreedyServerScheduler.Demand;
      ghost var w, before, now := loop.world, Holdings(), loop.Now();
      ghost var gears, servers := Gears(), Overseen();
      Sides();
      AllReady(now);
      left, saturated := manager.ScheduleAll(loop.Now());
      assert SharedBy(gears, w.hosted, servers, now, left, saturated);
      forall u | u in register.actors
        ensures WholeOf(register.actors[u]) == before[u]
      {
        NoLoop(register.actors[u], loop);
      }
      Unmoved(w, before);
    }

    // The schedulers find everybody they look up, and see what the state and the gear say.
    lemma AllReady(now: int)
      requires Mirrored() && Wired() && Known(config, loop.world)
      ensures forall i :: 0 <= i < |manager.schedulers| ==>
                var greedy := manager.schedulers[i];
                var u := greedy.sharedResource;
                && greedy.register == register && greedy.Ready() && u in loop.world.hosted
                && Asking(Gears(), u, loop.world.hosted[u])
                && greedy.register.actors[u].server.ram == Gears()[u].ram
                && greedy.Demand(now) == DemandBy(Gears(), loop.world.hosted[u], now)
    {
      forall i | 0 <= i < |manager.schedulers|
        ensures var greedy := manager.schedulers[i];
                var u := greedy.sharedResource;
                && greedy.register == register && greedy.Ready() && u in loop.world.hosted
                && Asking(Gears(), u, loop.world.hosted[u])
                && greedy.register.actors[u].server.ram == Gears()[u].ram
                && greedy.Demand(now) == DemandBy(Gears(), loop.world.hosted[u], now)
      {
        GreedyReady(i);
        GreedySees(i, now);
      }
      hide Known, Fits, Held, Mirrored, GreedyServerScheduler.Ready, GreedyServerScheduler.Demand;
    }

    lemma GreedySees(i: nat, now: int)
      requires Mirrored() && Wired() && i < |manager.schedulers| && manager.schedulers[i].Ready()
      ensures var greedy := manager.schedulers[i];
              var u := greedy.sharedResource;
              && u in loop.world.hosted && Asking(Gears(), u, loop.world.hosted[u])
              && register.actors[u].server.ram == Gears()[u].ram
              && greedy.Demand(now) == DemandBy(Gears(), loop.world.hosted[u], now)
    {
      var u := manager.schedulers[i].sharedResource;
      assert Fits(config, loop.world, u, Held(register.actors[u]));
      hide Mirrored;
    }

    // Pending VMs are placed.
    method PlaceVMs() returns (ghost order: seq<UUID>)
      requires Mirrored() && Wired() && Known(config, loop.world)
      modifies loop
      ensures Mirrored() && Wired() && Enumerates(order, old(loop.world.storage.vms.Keys))
      ensures loop.world == Scan(config, old(loop.world), order)
      ensures loop.currentTs == old(loop.currentTs)
      ensures old(NoneEmpty(loop.queue)) ==> NoneEmpty(loop.queue)
      ensures Gears() == old(Gears())
    {
      hide Wired, Enumerates, SameFor, FitsAll;
      hide Known, Scan, Fits, Held, GearOf, WholeOf, Handles, Refines;
      ghost var w, before := loop.world, Holdings();
      Sides();
      PlacingReady();
      WiredFacts();
      StorageView();
      order := scheduler.UpdateSchedule(config);
      forall u | u in register.actors
        ensures WholeOf(register.actors[u]) == before[u]
      {
        NoLoop(register.actors[u], loop);
      }
      QueueOnly(w, loop.world);
      Unmoved(w, before);
    }

    ghost method RecordUpdate()
      requires Mirrored() && Wired()
      modifies loop`world
      ensures Mirrored() && Wired()
      ensures loop.world == old(loop.world).(updates := old(loop.world).updates + [loop.currentTs])
      ensures Gears() == old(Gears())
    {
      hide Wired, Fits, Held, GearOf, WholeOf, Refines, FitsAll;
      var w, before := loop.world, Holdings();
      Sides();
      loop.world := loop.world.(updates := loop.world.updates + [loop.currentTs]);
      forall u | u in register.actors
        ensures WholeOf(register.actors[u]) == before[u]
      {
        NoLoop(register.actors[u], loop);
      }
      Unmoved(w, before);
    }

    // The end of a time bucket: every server shares out its memory, then pending VMs are placed.
    method UpdateWorld() returns (ghost order: seq<UUID>, left: seq<nat>, saturated: seq<seq<UUID>>)
      requires Mirrored() && Wired() && Known(config, loop.world)
      modifies loop
      ensures SharedOut(loop.currentTs, left, saturated)
      ensures Mirrored() && Wired() && Enumerates(order, old(loop.world.storage.vms.Keys))
      ensures loop.world == Scan(config, old(loop.world), order).(updates := old(loop.world).updates + [loop.currentTs])
      ensures loop.currentTs == old(loop.currentTs)
      ensures old(NoneEmpty(loop.queue)) ==> NoneEmpty(loop.queue)
      ensures Gears() == old(Gears())
    {
      hide Mirrored, Wired, Known, Scan, Enumerates, SharedBy, ActorRegister.Repr, Gears, Overseen;
      left, saturated := ShareMemory();
      ghost var w := loop.world;
      order := PlaceVMs();
      ScanAside(config, w, order);
      RecordUpdate();
    }

    lemma WiredFacts()
      requires Wired()
      ensures scheduler.register == register && storageHandle == config.storage
    {}

    lemma StorageView()
      requires Mirrored()
      ensures register.actors[config.storage].storage.vms == loop.world.storage.vms
    {
      assert Fits(config, loop.world, config.storage, Held(register.actors[config.storage]));
    }

    method TakeNext() returns (event: Event)
      requires Mirrored() && Wired() && NoneEmpty(loop.queue) && loop.world.queue != []
      modifies loop
      ensures Mirrored() && Wired() && event == old(loop.world).queue[0] && loop.world == Popped(old(loop.world))
      ensures loop.Filled() && loop.currentTs == event.time && loop.currentTs in loop.queue
      ensures Gears() == old(Gears())
    {
      hide Wired, ActorRegister.Repr, FitsAll;
      hide Fits, Held, GearOf, WholeOf, Refines;
      ghost var w, before := loop.world, Holdings();
      Sides();
      event := loop.TakeNext();
      forall u | u in register.actors
        ensures WholeOf(register.actors[u]) == before[u]
      {
        NoLoop(register.actors[u], loop);
      }
      Unmoved(w, before);
    }

    // A change of the clock, the queue or the history concerns no actor.
    lemma Unmoved(w: State, before: map<UUID, Whole>)
      requires loop.Valid() && register.Valid() && register.loop == loop && Complete(config, w, register.actors) &&
               before.Keys == register.actors.Keys
      requires forall u :: SameFor(w, loop.world, u)
      requires w.vms.Keys == loop.world.vms.Keys && w.hosted.Keys == loop.world.hosted.Keys &&
               w.power.Keys == loop.world.power.Keys
      requires FitsAll(config, w, before)
      requires forall u :: u in register.actors ==> WholeOf(register.actors[u]) == before[u]
      ensures Mirrored() && Gears() == GearsAmong(before)
    {
      hide Fits, Held, GearOf, Refines, SameFor;
      forall u | u in register.actors
        ensures Fits(config, loop.world, u, Held(register.actors[u]))
      {
        StillFits(config, w, loop.world, u, before[u].part);
      }
    }

    method EraseBucket()
      requires Mirrored() && Wired()
      requires loop.Filled() && loop.currentTs in loop.queue && loop.queue[loop.currentTs] == []
      modifies loop`queue
      ensures Mirrored() && Wired() && NoneEmpty(loop.queue)
      ensures Gears() == old(Gears())
    {
      hide Wired, FitsAll;
      hide Fits, Held, GearOf, WholeOf, Refines;
      ghost var w, before := loop.world, Holdings();
      Sides();
      loop.Erase();
      forall u | u in register.actors
        ensures WholeOf(register.actors[u]) == before[u]
      {
        NoLoop(register.actors[u], loop);
      }
      Unmoved(w, before);
    }

    method AdvanceClock()
      requires Mirrored() && Wired()
      modifies loop`currentTs, loop`world
      ensures Mirrored() && Wired() && loop.world == Tick(old(loop.world))
      ensures Gears() == old(Gears())
    {
      hide Wired, FitsAll;
      hide Fits, Held, GearOf, WholeOf, Refines;
      ghost var w, before := loop.world, Holdings();
      Sides();
      loop.Advance();
      forall u | u in register.actors
        ensures WholeOf(register.actors[u]) == before[u]
      {
        NoLoop(register.actors[u], loop);
      }
      Unmoved(w, before);
    }

    // The deque has run dry: it is removed, the world updated, and the clock moves on.
    method CloseBucket() returns (ghost q: seq<UUID>, left: seq<nat>, saturated: seq<seq<UUID>>)
      requires Mirrored() && Wired() && Known(config, loop.world)
      requires loop.Filled() && loop.currentTs in loop.queue && loop.queue[loop.currentTs] == []
      modifies loop
      ensures Mirrored() && Wired() && NoneEmpty(loop.queue) && Enumerates(q, old(loop.world.storage.vms.Keys))
      ensures loop.world == Tick(Scan(config, old(loop.world), q).(updates := old(loop.world).updates + [old(loop.world).now]))
      ensures SharedOut(old(loop.currentTs), left, saturated)
      ensures Gears() == old(Gears())
    {
      hide Known, Scan, Mirrored, Wired, SharedBy, ActorRegister.Repr, Gears, Overseen;
      SameClock();
      EraseBucket();
      q, left, saturated := UpdateWorld();
      AdvanceClock();
    }

    lemma SameClock()
      requires Mirrored()
      ensures loop.currentTs == loop.world.now
    {}

    method RunNext() returns (ghost ord: Order, left: seq<nat>, saturated: seq<seq<UUID>>)
      requires Mirrored() && Wired() && NoneEmpty(loop.queue) && WellFormed(config) && Sound(config, loop.world)
      requires loop.world.queue != []
      modifies loop, register.Repr()
      ensures Mirrored() && Wired() && NoneEmpty(loop.queue)
      ensures ValidOrder(ord) && loop.world == Step(config, old(loop.world), ord)
      ensures loop.world.now != old(loop.world).queue[0].time ==>
                SharedOut(old(loop.world).queue[0].time, left, saturated)
      ensures Gears() == old(Gears())
    {
      hide Mirrored, Wired, Sound, WellFormed, Handles, Refines, Known, Step, Scan, ValidOrder, BucketEmpty, SharedOut, Gears,
          ActorRegister.Repr;
      ghost var s := loop.world;
      var event := TakeNext();
      ghost var p := Deliver(event);
      ghost var d := loop.world;
      HalfWay(config, s, p, d);
      Dry();
      ghost var q := Enumeration(d.storage.vms.Keys);
      left, saturated := [], [];
      if loop.queue[loop.currentTs] == [] {
        q, left, saturated := CloseBucket();
      }
      WholeStep(config, s, p, d, q);
      ord := WalkingBoth(config, s, d, p, q);
    }

    // Runs the next event, and the world update when that was the last of its time.
    method SimulateNextStep() returns (ghost ord: Order, left: seq<nat>, saturated: seq<seq<UUID>>)
      requires Valid()
      modifies loop, register.Repr()
      ensures Valid() && ValidOrder(ord) && loop.world == Step(config, old(loop.world), ord)
      ensures |loop.world.updates| > |old(loop.world).updates| ==> SharedOut(loop.world.now - 1, left, saturated)
      ensures Gears() == old(Gears())
    {
      hide Mirrored, Wired, Sound, Reachable, WellFormed, Refines, Step, ValidOrder, NoneEmpty, BucketQueue.Bucket, SharedOut,
          Gears;
      QueueFacts();
      left, saturated := [], [];
      ghost var s := loop.world;
      if loop.queue == map[] {
        ord := AnyOrder();
        StepIdle(config, s, ord);
        return;
      }
      ReachableIsSound(config, s);
      ord, left, saturated := RunNext();
      if |loop.world.updates| > |s.updates| {
        UpdatesClosing(config, s, ord);
      }
      ReachableNext(config, s, Sim(ord));
      NextKept(config, s, ord);
    }

    lemma QueueFacts()
      requires Valid()
      ensures loop.Valid() && NoneEmpty(loop.queue) && (loop.queue == map[] <==> loop.world.queue == [])
    {
      EmptyTogether(loop.queue, loop.world.queue);
    }

    // Whether the running deque is empty is whether the state machine's bucket is.
    lemma Dry()
      requires Mirrored() && AllFrom(loop.world.queue, loop.world.now)
      ensures loop.currentTs == loop.world.now
      ensures loop.currentTs in loop.queue ==> (loop.queue[loop.currentTs] == [] <==> BucketEmpty(loop.world))
    {
      DryTogether(loop.queue, loop.world.queue, loop.world.now);
      hide Refines, Fits, Held, GearOf, WholeOf;
    }

    // ----- commands -----

    lemma NamesRegistered(name: string)
      requires Mirrored() && name in register.names
      ensures register.names[name] != NIL && Registered(config, loop.world, register.names[name])
    {
      var u := register.names[name];
      assert Fits(config, loop.world, u, Held(register.actors[u]));
    }

    method Post(e: Event, immediate: bool)
      requires Mirrored() && Wired() && NoneEmpty(loop.queue)
      modifies loop
      ensures Mirrored() && Wired() && NoneEmpty(loop.queue)
      ensures loop.world == Simulator.Insert(old(loop.world), e, immediate)
      ensures Gears() == old(Gears())
    {
      hide Wired, Fits, Held, GearOf, WholeOf, Refines, Simulator.Insert, FitsAll;
      ghost var w, before := loop.world, Holdings();
      Sides();
      loop.Insert(e, immediate);
      forall u | u in register.actors
        ensures WholeOf(register.actors[u]) == before[u]
      {
        NoLoop(register.actors[u], loop);
      }
      QueueOnly(w, loop.world);
      Unmoved(w, before);
    }

    function ResolveName(name: string): Option<UUID>
      reads register
    {
      register.GetActorHandle(name)
    }

    // The command the state machine executes has been executed.
    method Send(ghost m: Command, e: Event, immediate: bool)
      requires Valid() && Allowed(config, loop.world, m) && !m.CreateVM?
      requires Execute(config, loop.world, m) == Simulator.Insert(loop.world, e, immediate)
      modifies loop
      ensures Valid() && loop.world == Execute(config, old(loop.world), m)
      ensures Gears() == old(Gears())
    {
      hide Mirrored, Wired, Sound, Reachable, WellFormed, Allowed, Execute, Simulator.Insert;
      ReachableNext(config, loop.world, Do(m));
      NextSame(config, loop.world, m);
      Post(e, immediate);
    }

    method DoResourceAction(resourceName: string, eventType: ResourceEventType) returns (r: Outcome)
      requires Valid() && eventType in {Boot, Reboot, Shutdown}
      modifies loop
      ensures Valid()
      ensures if resourceName in register.names
              then r == Accepted &&
                   loop.world == Execute(config, old(loop.world), Power(register.names[resourceName], eventType))
              else r == UnknownName && loop.world == old(loop.world)
      ensures Gears() == old(Gears())
    {
      hide Mirrored, Wired, Sound, Reachable, WellFormed, Simulator.Insert;
      var uuid := ResolveName(resourceName);
      if uuid == None {
        return UnknownName;
      }
      NamesRegistered(resourceName);
      if uuid.value == NIL {
        return UnknownName;
      }
      var e := MakeEvent(uuid.value, loop.Now(), ResourceEvent(eventType));
      Clocked();
      Send(Power(uuid.value, eventType), e, false);
      r := Accepted;
    }

    lemma Clocked()
      requires Valid()
      ensures loop.currentTs == loop.world.now
    {}

    method DoProvisionVM(vmName: string) returns (r: Outcome)
      requires Valid()
      modifies loop
      ensures Valid()
      ensures if vmName in register.names
              then r == Accepted &&
                  loop.world == Execute(config, old(loop.world), ProvisionRequest(register.names[vmName]))
              else r == UnknownName && loop.world == old(loop.world)
      ensures Gears() == old(Gears())
    {
      hide Mirrored, Wired, Sound, Reachable, WellFormed, Simulator.Insert;
      var uuid := ResolveName(vmName);
      if uuid == None {
        return UnknownName;
      }
      NamesRegistered(vmName);
      Clocked();
      WiredFacts();
      Send(ProvisionRequest(uuid.value), MakeEvent(storageHandle, loop.Now(), StorageEvent(VMProvisionRequested, uuid.value)), true);
      r := Accepted;
    }

    // Only resolves the name.
    method DoRebootVM(vmName: string) returns (r: Outcome)
      ensures r == if vmName in register.names then Accepted else UnknownName
    {
      var uuid := ResolveName(vmName);
      r := if uuid == None then UnknownName else Accepted;
    }

    method DoStopVM(vmName: string) returns (r: Outcome)
      requires Valid()
      modifies loop
      ensures Valid()
      ensures if vmName in register.names
              then r == Accepted && loop.world == Execute(config, old(loop.world), StopRequest(register.names[vmName]))
              else r == UnknownName && loop.world == old(loop.world)
      ensures Gears() == old(Gears())
    {
      hide Mirrored, Wired, Sound, Reachable, WellFormed, Simulator.Insert;
      var uuid := ResolveName(vmName);
      if uuid == None {
        return UnknownName;
      }
      NamesRegistered(vmName);
      Clocked();
      Send(StopRequest(uuid.value), MakeEvent(uuid.value, loop.Now(), VMEvent(Stop)), false);
      r := Accepted;
    }

    method DoDeleteVM(vmName: string) returns (r: Outcome)
      requires Valid()
      modifies loop
      ensures Valid()
      ensures if vmName in register.names
              then r == Accepted &&
                  loop.world == Execute(config, old(loop.world), DeleteRequest(register.names[vmName]))
              else r == UnknownName && loop.world == old(loop.world)
      ensures Gears() == old(Gears())
    {
      hide Mirrored, Wired, Sound, Reachable, WellFormed, Simulator.Insert;
      var uuid := ResolveName(vmName);
      if uuid == None {
        return UnknownName;
      }
      NamesRegistered(vmName);
      Clocked();
      Send(DeleteRequest(uuid.value), MakeEvent(uuid.value, loop.Now(), VMEvent(Delete)), false);
      r := Accepted;
    }

    lemma NotYetFiled()
      requires register.Valid()
      ensures register.serial !in register.actors
    {}

    // The new VM has joined the register and the state; it has neither storage nor workload yet.
    method JoinVM(name: string) returns (vm: VM, unique: bool)
      requires Mirrored() && Wired() && NoneEmpty(loop.queue) && register.serial == loop.world.next
      requires register.serial !in config.vmDelays
      requires register.serial !in config.components && config.storage !in {NIL, register.serial}
      requires config.servers <= config.components.Keys
      modifies loop`world, register
      ensures Mirrored() && Wired() && NoneEmpty(loop.queue) && register.serial == loop.world.next == old(register.serial) + 1
      ensures loop.world == Joined(old(loop.world), AVM, old(register.serial))
      ensures fresh(vm) && vm.id == old(register.serial) && vm.loop == loop &&
               vm.Data() == VMData(Provisioning, NIL, NIL)
      ensures vm.id in register.actors && register.actors[vm.id] == VMOf(vm)
      ensures register.Repr() <= old(register.Repr()) + {vm}
      ensures unique <==> name !in old(register.names)
      ensures register.names == if unique then old(register.names)[name := vm.id] else old(register.names)
      ensures Gears() == old(Gears())[vm.id := Model(None)] && vm.id !in old(register.actors)
    {
      hide Mirrored, Fits, Held, GearOf, WholeOf, Refines, WiredTo, Complete, NoneEmpty, Sorted, ActorRegister.Repr, FitsAll, Joined,
          ActorRegister.Valid, EventLoop.Valid, Holdings, Gears, PartsOf, Aside;
      ghost var w, before, others := loop.world, Holdings(), register.actors;
      Sides();
      NotYetFiled();
      register.ReprIs();
      var actor;
      actor, unique := register.Make(AVM, name);
      vm := actor.vm;
      PartsMore(others, vm.id, actor);
      register.ReprIs();
      WiredToMore(others, register.actors);
      forall u | u in others
        ensures WholeOf(others[u]) == before[u]
      {
        NoLoop(others[u], loop);
      }
      NextAfterJoin(w, vm.id);
      Grown(w, before, others, vm);
      GearOfVM(vm);
    }

    lemma Grown(w: State, before: map<UUID, Whole>, others: map<UUID, Actor>, vm: VM)
      requires loop.Valid() && register.Valid() && register.loop == loop && Complete(config, w, others) &&
               before.Keys == others.Keys
      requires register.actors == others[vm.id := VMOf(vm)] && vm.id !in others && loop.world == Joined(w, AVM, vm.id)
      requires FitsAll(config, w, before) && forall u :: u in others ==> WholeOf(others[u]) == before[u]
      requires vm.Data() == VMData(Provisioning, NIL, NIL) && vm.Delays() == VMDelays(0, 0, 0, 0)
      requires vm.id !in config.vmDelays && config.storage != NIL && vm.id != config.storage &&
               vm.id !in config.components
      requires config.servers <= config.components.Keys
      ensures Mirrored() && Gears() == GearsAmong(before)[vm.id := GearOf(VMOf(vm))]
    {
      hide Fits, Held, GearOf, Refines, Joined, Complete, SameFor, Parts, IdOf, LoopOf;
      JoinedFor(w, vm.id);
      CompleteMore(w, others, vm);
      NewFits(vm);
      forall u | u in others
        ensures Fits(config, loop.world, u, Held(others[u]))
      {
        StillFits(config, w, loop.world, u, before[u].part);
      }
    }

    lemma CompleteMore(w: State, others: map<UUID, Actor>, vm: VM)
      requires Complete(config, w, others) && vm.id != config.storage && vm.id !in config.components &&
               config.servers <= config.components.Keys
      ensures Complete(config, Joined(w, AVM, vm.id), others[vm.id := VMOf(vm)])
    {}

    lemma NewFits(vm: VM)
      requires vm.id in loop.world.vms && loop.world.vms[vm.id] == vm.Data() == VMData(Provisioning, NIL, NIL)
      requires vm.Delays() == VMDelays(0, 0, 0, 0) && vm.id !in config.vmDelays && config.storage != NIL
      ensures Fits(config, loop.world, vm.id, Held(VMOf(vm)))
    {}

    method Arm(vm: VM, model: Workload)
      requires vm.Valid()
      modifies vm, vm.loop`world
      ensures vm.Valid() && vm.workload == Some(model) && vm.Delays() == old(vm.Delays())
      ensures vm.Data() == old(vm.Data()).(storage := storageHandle)
      ensures vm.loop.world == old(vm.loop.world).(vms := old(vm.loop.world).vms[vm.id := vm.Data()])
    {
      vm.SetWorkloadModel(model);
      vm.SetVMStorage(storageHandle);
    }

    // Gives the VM its workload model and the handle of the storage.
    method Equip(vm: VM, model: Workload)
      requires Mirrored() && Wired() && NoneEmpty(loop.queue)
      requires vm.id in register.actors && register.actors[vm.id] == VMOf(vm) && vm.loop == loop
      modifies vm, loop`world
      ensures Mirrored() && Wired() && NoneEmpty(loop.queue)
      ensures vm.Data() == old(vm.Data()).(storage := config.storage) && vm.workload == Some(model)
      ensures Gears() == old(Gears())[vm.id := Model(Some(model))]
      ensures loop.world == old(loop.world).(vms := old(loop.world).vms[vm.id := vm.Data()])
    {
      hide Wired, Fits, Held, GearOf, WholeOf, Refines, Aside, NoneEmpty, ActorRegister.Repr, FitsAll, Mirrored, Complete, Holdings,
          Gears;
      ghost var w, before := loop.world, Holdings();
      Sides();
      FitsVM(Event(0, vm.id, VMEvent(NoVMType)), vm);
      WiredFacts();
      Arm(vm, model);
      VMFits(vm.id, vm);
      OnlyVM(w, vm.id, vm.Data());
      forall u | u in register.actors && u != vm.id
        ensures WholeOf(register.actors[u]) == before[u]
      {
        Apart(register.actors[u], register.actors[vm.id], loop);
      }
      GearOfVM(vm);
      Restored(vm.id, w, before);
    }

    // What the name's owner becomes: an actor without storage or workload when the model is refused.
    // No other actor's model, memory or members change.
    method CreateVM(name: string, model: Option<Workload>) returns (r: Outcome)
      requires Valid()
      modifies loop, register
      ensures Valid()
      ensures r == if name in old(register.names) then NameTaken else if model == None then BadWorkload else Accepted
      ensures loop.world == Execute(config, old(loop.world), Command.CreateVM(r == Accepted))
      ensures register.names ==
              if r == NameTaken then old(register.names) else old(register.names)[name := old(register.serial)]
      ensures r == Accepted ==>
                && register.names[name] in register.actors && register.actors[register.names[name]].VMOf?
                && register.actors[register.names[name]].vm.workload == model
      ensures Gears() == old(Gears())[old(register.serial) := Model(if r == Accepted then model else None)]
      ensures fresh(register.Repr() - old(register.Repr()))
    {
      hide Mirrored, Wired, Sound, Reachable, WellFormed, Execute, Simulator.Insert, NoneEmpty, Joined, ActorRegister.Repr,
          Gears;
      ghost var s := loop.world;
      FreshHandle();
      JoinIsCreation(config, s);
      var vm, unique := JoinVM(name);
      if !unique || model == None {
        r := if unique then BadWorkload else NameTaken;
      } else {
        Equip(vm, model.value);
        assert loop.world.vms == s.vms[s.next := VMData(Provisioning, NIL, config.storage)] by { JoinedVMs(s); }
        JoinedRest(s);
        ClockAt();
        WiredFacts();
        Post(MakeEvent(storageHandle, loop.Now(), StorageEvent(VMCreated, vm.id)), false);
        r := Accepted;
      }
      ReachableNext(config, s, Do(Command.CreateVM(r == Accepted)));
      CreationNext(config, s, r == Accepted);
    }

    lemma ValidFacts()
      requires Valid()
      ensures WellFormed(config) && Reachable(config, loop.world) && Sound(config, loop.world)
    {
      hide Mirrored, Wired, Reachable, Sound, WellFormed;
      ReachableIsSound(config, loop.world);
    }

    // One turn of the loop below: it spends potential.
    method Turn(ghost s0: State, ghost ords: nat -> Order, ghost n: nat) returns (ghost ords': nat -> Order)
      requires Valid() && CanDrain(config, s0) && ValidOrders(ords)
      requires loop.world == Drain(config, s0, ords, n) && loop.world.queue != []
      modifies loop, register.Repr()
      ensures Valid() && ValidOrders(ords') && loop.world == Drain(config, s0, ords', n + 1)
      ensures Potential(config, loop.world) < Potential(config, old(loop.world))
      ensures register.Repr() == old(register.Repr()) && unchanged(register)
      ensures Gears() == old(Gears())
    {
      hide Valid, Step, Stuck, Potential, Drain, ValidOrders, ValidOrder, ActorRegister.Repr, Gears, SharedOut;
      register.NotOwn();
      ValidFacts();
      ghost var s := loop.world;
      ghost var ord;
      var left, saturated;
      ord, left, saturated := SimulateNextStep();
      DrainOneMore(config, s0, ords, n, ord);
      ords' := Then(ords, n, ord);
      StepLosesPotential(config, s, ord);
    }

    // Runs until the queue is empty. It returns exactly because no drain from here can get stuck.
    method SimulateAll() returns (ghost ords: nat -> Order, ghost n: nat)
      requires Valid() && CanDrain(config, loop.world)
      modifies loop, register.Repr()
      ensures Valid() && ValidOrders(ords) && loop.world == Drain(config, old(loop.world), ords, n)
      ensures loop.world.queue == [] && register.Repr() == old(register.Repr()) && unchanged(register)
      ensures Gears() == old(Gears())
    {
      hide Valid, Potential, Drain, ValidOrders, CanDrain, ActorRegister.Repr, Step, Gears;
      ghost var s0, repr, gears := loop.world, register.Repr(), Gears();
      ords, n := AnyOrders(), 0;
      DrainNothing(config, s0, ords);
      QueueFacts();
      while loop.queue != map[]
        invariant Valid() && ValidOrders(ords) && loop.world == Drain(config, s0, ords, n)
        invariant loop.queue == map[] <==> loop.world.queue == []
        invariant register.Repr() == repr && unchanged(register) && Gears() == gears
        decreases Potential(config, loop.world)
      {
        ords := Turn(s0, ords, n);
        n := n + 1;
        QueueFacts();
      }
    }

    lemma ClockAt()
      requires Mirrored()
      ensures loop.currentTs == loop.world.now
    {}

    lemma FreshHandle()
      requires Valid()
      ensures register.serial !in config.components && config.storage !in {NIL, register.serial}
      ensures config.servers <= config.components.Keys && register.serial == loop.world.next
      ensures NoDelaysFrom(config, register.serial)
    {
      hide Mirrored, Wired, Reachable, Sound, Known;
      ReachableIsSound(config, loop.world);
      SoundKnown(config, loop.world);
      SmallHandles(config, loop.world);
    }
  }

  lemma JoinedVMs(s: State)
    ensures Joined(s, AVM, s.next).vms == s.vms[s.next := VMData(Provisioning, NIL, NIL)]
  {}

  lemma JoinedRest(s: State)
    ensures var j := Joined(s, AVM, s.next);
            j == s.(vms := j.vms, next := s.next + 1)
  {}

  lemma CreationNext(c: Config, s: State, ok: bool)
    ensures Execute(c, s, Command.CreateVM(ok)).next == s.next + 1
  {
    hide InsertBack, InsertFront;
  }
}
