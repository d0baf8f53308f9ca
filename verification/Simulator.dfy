/**
 The simulator as a state machine: one external command, or one step of the event loop.
 */
module Simulator {
  import opened Types
  import opened FlatQueue
  import opened Handlers

  // What `World::Setup` fixes: the storage, the tree of resources and every delay.
  datatype Config = Config(
    storage: UUID,
    cloud: UUID,
    first: UUID,                         // first server of the first data center
    servers: set<UUID>,
    components: map<UUID, set<UUID>>,    // every resource with its components
    parent: map<UUID, UUID>,
    depth: map<UUID, nat>,
    height: nat,
    startup: map<UUID, nat>,
    shutdown: map<UUID, nat>,
    vmDelays: map<UUID, VMDelays>)

  ghost predicate WellFormed(c: Config) {
    && c.storage != NIL && c.storage !in c.components && NIL !in c.components
    && c.cloud in c.components && c.first in c.servers && c.servers <= c.components.Keys
    && c.depth.Keys == c.components.Keys
    && c.parent.Keys == c.components.Keys - {c.cloud}
    && c.depth[c.cloud] == 0
    && (forall r :: r in c.components ==> c.depth[r] <= c.height)
    && (forall r, x :: r in c.components && x in c.components[r] ==>
         x in c.parent && c.parent[x] == r && c.depth[x] == c.depth[r] + 1)
    && (forall x :: x in c.parent ==> c.parent[x] in c.components && x in c.components[c.parent[x]])
  }

  // Delays nobody has set are zero.
  function Delay(m: map<UUID, nat>, u: UUID): nat {
    if u in m then m[u] else 0
  }

  function DelaysOf(c: Config, v: UUID): VMDelays {
    if v in c.vmDelays then c.vmDelays[v] else VMDelays(0, 0, 0, 0)
  }

  // `log` holds every event dispatched so far and `inserted` counts every call of the loop's
  // insertion, including those it would reject; `updates` holds the times of the world updates.
  datatype State = State(
    now: int,
    queue: seq<Event>,
    vms: map<UUID, VMData>,
    storage: Storage,
    power: map<UUID, PowerState>,
    hosted: map<UUID, set<UUID>>,
    next: UUID,
    crashed: bool,
    log: seq<Event>,
    inserted: nat,
    updates: seq<int>)

  function Insert(s: State, e: Event, immediate: bool): State {
    if e.time < s.now then s.(inserted := s.inserted + 1)
    else s.(queue := if immediate then InsertFront(s.queue, e) else InsertBack(s.queue, e),
            inserted := s.inserted + 1)
  }

  function InsertAll(s: State, es: seq<Event>): State {
    if es == [] then s else Insert(InsertAll(s, es[..|es| - 1]), es[|es| - 1], false)
  }

  // The handler of the addressee: the actors it changes and the events it schedules.
  // An unknown addressee makes the lookup throw, and the loop swallows the exception.
  function React(c: Config, s: State, e: Event, ord: Order): (State, seq<Event>) {
    if e.to == c.storage then
      (s.(storage := StorageReact(s.storage, e)), [])
    else if e.to in s.vms then
      var (vm, out) := VMReact(e.to, s.vms[e.to], DelaysOf(c, e.to), e);
      (s.(vms := s.vms[e.to := vm]), out)
    else if e.to in s.hosted && e.to in s.power && e.body.ServerEvent? then
      var o := ServerReact(s.power[e.to], s.hosted[e.to], e);
      (s.(power := s.power[e.to := o.power], hosted := s.hosted[e.to := o.guests],
          crashed := s.crashed || o.crashed), o.scheduled)
    else if e.to in s.power && e.to in c.components then
      var (p, out) := ResourceReact(e.to, s.power[e.to], ord(c.components[e.to]),
                                    Delay(c.startup, e.to), Delay(c.shutdown, e.to), e);
      (s.(power := s.power[e.to := p]), out)
    else (s, [])
  }

  predicate Ready(c: Config, s: State, v: UUID) {
    v in s.vms && s.vms[v].storage == c.storage
  }

  // One pending VM of the placement scan: the storage hears of the decision before any event
  // already queued for this instant, the server after all of them.
  function Place(c: Config, s: State, v: UUID): State {
    var s1 := Insert(s, Event(s.now, c.storage, StorageEvent(VMScheduled, v)), true);
    Insert(s1, Event(s.now, c.first, ServerEvent(ProvisionVM, v)), false)
  }

  predicate Pending(s: State, v: UUID) {
    v in s.storage.vms && s.storage.vms[v] == PendingVM
  }

  function Scan(c: Config, s: State, vs: seq<UUID>): State {
    if vs == [] then s else
      var s' := Scan(c, s, vs[..|vs| - 1]);
      if Pending(s, vs[|vs| - 1]) then Place(c, s', vs[|vs| - 1]) else s'
  }

  // A lookup the update would perform outside the loop's try block finds no usable VM.
  predicate LookupFails(c: Config, s: State) {
    || (exists v :: v in s.storage.vms && s.storage.vms[v] == PendingVM && v !in s.vms)
    || (exists x :: x in s.hosted && exists v :: v in s.hosted[x] && !Ready(c, s, v))
  }

  function UpdateWorld(c: Config, s: State, ord: Order): State {
    Scan(c, s, ord(s.storage.vms.Keys)).(crashed := s.crashed || LookupFails(c, s), updates := s.updates + [s.now])
  }

  // The state once the head of the queue has been handled.
  function Dispatch(c: Config, s: State, ord: Order): State
    requires s.queue != []
  {
    var e := s.queue[0];
    var (s', out) := React(c, s.(now := e.time, queue := s.queue[1..], log := s.log + [e]), e, ord);
    InsertAll(s', out)
  }

  predicate BucketEmpty(s: State) {
    s.queue == [] || s.queue[0].time != s.now
  }

  function Tick(s: State): State {
    s.(now := s.now + 1)
  }

  function Step(c: Config, s: State, ord: Order): State {
    if s.queue == [] then s else
      var s' := Dispatch(c, s, ord);
      if BucketEmpty(s') then Tick(UpdateWorld(c, s', ord)) else s'
  }

  // ----- external commands -----

  datatype Command =
    | Power(resource: UUID, action: ResourceEventType)   // boot, reboot or shutdown
    | CreateVM(ok: bool)    // not ok: the name is taken or the workload model is rejected
    | ProvisionRequest(target: UUID)
    | StopRequest(target: UUID)
    | DeleteRequest(target: UUID)

  predicate Registered(c: Config, s: State, u: UUID) {
    u == c.storage || u in c.components || u in s.vms
  }

  // A command names a registered actor, whatever its kind.
  predicate Allowed(c: Config, s: State, m: Command) {
    match m
    case Power(r, a) => Registered(c, s, r) && a in {Boot, Reboot, Shutdown}
    case CreateVM(_) => true
    case ProvisionRequest(v) => Registered(c, s, v)
    case StopRequest(v) => Registered(c, s, v)
    case DeleteRequest(v) => Registered(c, s, v)
  }

  function Execute(c: Config, s: State, m: Command): State {
    match m
    case Power(r, a) => Insert(s, Event(s.now, r, ResourceEvent(a)), false)
    case CreateVM(ok) =>
      var s' := s.(vms := s.vms[s.next := VMData(Provisioning, NIL, if ok then c.storage else NIL)],
                   next := s.next + 1);
      if ok then Insert(s', Event(s.now, c.storage, StorageEvent(VMCreated, s.next)), false) else s'
    case ProvisionRequest(v) => Insert(s, Event(s.now, c.storage, StorageEvent(VMProvisionRequested, v)), true)
    case StopRequest(v) => Insert(s, Event(s.now, v, VMEvent(Stop)), false)
    case DeleteRequest(v) => Insert(s, Event(s.now, v, VMEvent(Delete)), false)
  }

  // One command after another.
  function ExecuteAll(c: Config, s: State, cmds: seq<Command>): State {
    if cmds == [] then s else Execute(c, ExecuteAll(c, s, cmds[..|cmds| - 1]), cmds[|cmds| - 1])
  }

  // ----- runs -----

  datatype Action = Do(command: Command) | Sim(order: Order)

  ghost predicate Enabled(c: Config, s: State, a: Action) {
    match a
    case Do(m) => Allowed(c, s, m)
    case Sim(ord) => ValidOrder(ord)
  }

  function Next(c: Config, s: State, a: Action): State {
    match a
    case Do(m) => Execute(c, s, m)
    case Sim(ord) => Step(c, s, ord)
  }

  function Run(c: Config, s: State, script: seq<Action>): State {
    if script == [] then s
    else Next(c, Run(c, s, script[..|script| - 1]), script[|script| - 1])
  }

  ghost predicate EnabledRun(c: Config, s: State, script: seq<Action>) {
    forall i :: 0 <= i < |script| ==> Enabled(c, Run(c, s, script[..i]), script[i])
  }

  // The world as `Setup` leaves it: everything is off and no VM exists.
  ghost predicate Initial(c: Config, s: State) {
    && s.now == 1 && s.queue == [] && s.log == [] && s.updates == [] && s.inserted == 0 && !s.crashed
    && s.vms == map[] && s.storage == Storage(true, map[])
    && s.power == (map r | r in c.components :: Off)
    && s.hosted == (map x | x in c.servers :: {})
    && c.storage < s.next && forall r :: r in c.components ==> r < s.next
  }

  // The states a script leads through, one action at a time.
  ghost predicate IsRun(c: Config, t: seq<State>, script: seq<Action>) {
    && |t| == |script| + 1 && Initial(c, t[0])
    && forall i {:trigger script[i]} :: 0 <= i < |script| ==>
         Enabled(c, t[i], script[i]) && t[i + 1] == Next(c, t[i], script[i])
  }

  ghost predicate Reachable(c: Config, s: State) {
    exists t, script :: IsRun(c, t, script) && t[|script|] == s
  }

  // ----- draining -----

  // The state after `n` steps, the i-th of which walks its containers in order `ords(i)`.
  function Drain(c: Config, s: State, ords: nat -> Order, n: nat): State {
    if n == 0 then s else Step(c, Drain(c, s, ords, n - 1), ords(n - 1))
  }

  ghost predicate ValidOrders(ords: nat -> Order) {
    forall i: nat :: ValidOrder(ords(i))
  }
}
