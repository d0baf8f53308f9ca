/**
 A client that gives its commands by name, in batches, and lets the simulation run dry after
 each batch. It looks a name up before it acts on it, so its batches are well-formed whatever it
 is asked for, and every one of its runs ends.
 */
module Sessions {
  import opened Types
  import opened Simulator
  import opened StepFacts
  import opened Registry
  import opened Effects
  import opened Soundness
  import opened Draining
  import opened Batches
  import opened FlatQueue
  import opened Reordering
  import opened Exchanging
  import opened Confluence
  import Guarantees
  import Lives
  import opened VMActor
  import opened Register
  import opened Worlds
  import opened Layout
  import opened Setups

  datatype Request =
    | AskPower(name: string, on: bool)
    | AskVM(name: string, model: Option<Workload>)
    | AskProvision(name: string)
    | AskStop(name: string)
    | AskDelete(name: string)

  // What a client sees of a world, what the actors hold beside the state, and the VMs it has deleted.
  datatype Book = Book(state: State, names: map<string, UUID>, gears: map<UUID, Gear>, deleted: set<UUID>)

  ghost function Seen(world: World, deleted: set<UUID>): Book
    reads world.loop, world.register, world.register.Repr()
  {
    Book(world.loop.world, world.register.names, world.Gears(), deleted)
  }

  // The command a request comes to, if it makes sense: power for resources, provision for what
  // the storage knows, stop and delete for VMs created in full, delete only once.
  ghost function Meant(c: Config, b: Book, r: Request): Option<Command> {
    var names := b.names;
    match r
    case AskPower(name, on) =>
      if name in names && names[name] in c.components then Some(Power(names[name], if on then Boot else Shutdown))
      else None
    case AskVM(name, model) => Some(Command.CreateVM(name !in names && model.Some?))
    case AskProvision(name) =>
      if name in names && names[name] in b.state.storage.vms then Some(ProvisionRequest(names[name])) else None
    case AskStop(name) =>
      if name in names && Ready(c, b.state, names[name]) then Some(StopRequest(names[name])) else None
    case AskDelete(name) =>
      if name in names && Ready(c, b.state, names[name]) && names[name] !in b.deleted then Some(DeleteRequest(names[name]))
      else None
  }

  // A new name goes to the next handle, even if the VM's workload model is refused.
  ghost function Named(b: Book, r: Request): map<string, UUID> {
    if r.AskVM? && r.name !in b.names then b.names[r.name := b.state.next] else b.names
  }

  // The VM it goes to has the model, if the name was new.
  ghost function Geared(b: Book, r: Request): map<UUID, Gear> {
    if r.AskVM? then b.gears[b.state.next := Model(if r.name !in b.names then r.model else None)] else b.gears
  }

  ghost function Obey(c: Config, s: State, m: Option<Command>): State {
    if m.Some? then Execute(c, s, m.value) else s
  }

  ghost function Gone(deleted: set<UUID>, m: Option<Command>): set<UUID> {
    if m.Some? && m.value.DeleteRequest? then deleted + {m.value.target} else deleted
  }

  // The book once a request has been answered.
  ghost function Answered(c: Config, b: Book, r: Request): Book {
    var m := Meant(c, b, r);
    Book(Obey(c, b.state, m), Named(b, r), Geared(b, r), Gone(b.deleted, m))
  }

  // The book once a batch has been answered, and the commands given for it.
  ghost function AnsweredAll(c: Config, b: Book, batch: seq<Request>): Book {
    if batch == [] then b else Answered(c, AnsweredAll(c, b, batch[..|batch| - 1]), batch[|batch| - 1])
  }

  ghost function CommandsFor(c: Config, b: Book, batch: seq<Request>): seq<Command> {
    if batch == [] then []
    else
      var init := batch[..|batch| - 1];
      var m := Meant(c, AnsweredAll(c, b, init), batch[|batch| - 1]);
      CommandsFor(c, b, init) + if m.Some? then [m.value] else []
  }

  // How the simulation ran dry: in which orders, for how many steps.
  datatype Walk = Walk(orders: nat -> Order, steps: nat)

  ghost function RunDry(c: Config, b: Book, w: Walk): Book {
    Book(Drain(c, b.state, w.orders, w.steps), b.names, b.gears, b.deleted)
  }

  // The book after several batches, each answered and run dry.
  ghost function Played(c: Config, b: Book, batches: seq<seq<Request>>, walks: seq<Walk>): Book
    requires |walks| == |batches|
  {
    if batches == [] then b
    else
      var k := |batches| - 1;
      RunDry(c, AnsweredAll(c, Played(c, b, batches[..k], walks[..k]), batches[k]), walks[k])
  }

  // The client remembers every VM that has ever been told to delete itself.
  ghost predicate Remembers(s: State, deleted: set<UUID>) {
    forall v :: Lives.Total(s, ToVM(v, Delete)) >= 1 ==> v in deleted
  }

  ghost predicate Careful(c: Config, s: State, deleted: set<UUID>) {
    Tame(c, s) && Remembers(s, deleted)
  }

  // ----- what the client keeps -----

  lemma MeantIsProper(c: Config, b: Book, r: Request)
    requires WellFormed(c) && Known(c, b.state) && Remembers(b.state, b.deleted) && Meant(c, b, r).Some?
    ensures Proper(c, b.state, Meant(c, b, r).value)
  {
    KnownHandles(c, b.state);
    hide Lives.Total, Known, WellFormed, Ready;
  }

  // The storage is no resource and no VM; what it knows are VMs.
  lemma KnownHandles(c: Config, s: State)
    requires WellFormed(c) && Known(c, s)
    ensures c.storage !in c.components
    ensures forall v :: Ready(c, s, v) ==> v in s.vms && v != c.storage
    ensures forall v :: v in s.storage.vms ==> Ready(c, s, v)
  {
    hide AllAddressed;
  }

  lemma CarefulExecute(c: Config, s: State, deleted: set<UUID>, m: Option<Command>)
    requires WellFormed(c) && Known(c, s) && Careful(c, s, deleted) && Giving(s) && (m.Some? ==> Proper(c, s, m.value))
    ensures Careful(c, Obey(c, s, m), Gone(deleted, m)) && Giving(Obey(c, s, m))
  {
    hide WellFormed, Known, Tame, Giving, Execute, N, L, Proper;
    if m.Some? {
      TameExecute(c, s, m.value);
      forall v | Lives.Total(Execute(c, s, m.value), ToVM(v, Delete)) >= 1
        ensures v in Gone(deleted, m)
      {
        Lives.ExecuteSends(c, s, m.value, v);
        assert L(Execute(c, s, m.value), ToVM(v, Delete)) == L(s, ToVM(v, Delete)) by { SameLog(s, Execute(c, s, m.value)); }
      }
    }
  }

  lemma CarefulAnswer(c: Config, b: Book, r: Request)
    requires WellFormed(c) && Known(c, b.state) && Careful(c, b.state, b.deleted) && Giving(b.state)
    ensures var m, a := Meant(c, b, r), Answered(c, b, r);
            && (m.Some? ==> Proper(c, b.state, m.value))
            && Careful(c, a.state, a.deleted) && Giving(a.state)
  {
    hide WellFormed, Known, Tame, Giving, Execute, Proper, Meant, Obey, Gone, Remembers;
    if Meant(c, b, r).Some? {
      MeantIsProper(c, b, r);
    }
    CarefulExecute(c, b.state, b.deleted, Meant(c, b, r));
  }

  lemma SameLog(s: State, s': State)
    requires s'.log == s.log
    ensures forall t :: L(s', t) == L(s, t)
  {}

  // No step tells a VM to delete itself.
  lemma NoDeletes(c: Config, s: State, ord: Order, v: UUID)
    requires WellFormed(c) && Sound(c, s) && ValidOrder(ord)
    ensures Lives.Total(Step(c, s, ord), ToVM(v, Delete)) == Lives.Total(s, ToVM(v, Delete))
  {
    hide WellFormed, Sound, Known, Dispatch, UpdateWorld, N, L, Spawn, ValidOrder;
    if s.queue != [] {
      SoundKnown(c, s);
      SoundDispatch(c, s, ord);
      Causes(c, s, v);
      TokenAfter(c, s, ord, ToVM(v, Delete));
      var d := Dispatch(c, s, ord);
      if BucketEmpty(d) {
        DryNow(c, d);
        Lives.UpdateSends(c, d, ord, v);
        SameLog(d, Tick(UpdateWorld(c, d, ord)));
      }
    }
  }

  lemma {:induction false} CarefulDrain(c: Config, s: State, deleted: set<UUID>, ords: nat -> Order, n: nat)
    requires WellFormed(c) && Sound(c, s) && Careful(c, s, deleted) && ValidOrders(ords)
    ensures Careful(c, Drain(c, s, ords, n), deleted)
  {
    hide WellFormed, Sound, Tame, Step, Lives.Total, ValidOrder;
    DrainTame(c, s, ords, n);
    if n != 0 {
      CarefulDrain(c, s, deleted, ords, n - 1);
      var prev := Drain(c, s, ords, n - 1);
      DrainSound(c, s, ords, n - 1);
      forall v
        ensures Lives.Total(Step(c, prev, ords(n - 1)), ToVM(v, Delete)) == Lives.Total(prev, ToVM(v, Delete))
      {
        NoDeletes(c, prev, ords(n - 1), v);
      }
    }
  }

  lemma CarefulInitially(c: Config, s: State)
    requires WellFormed(c) && Initial(c, s)
    ensures Careful(c, s, {})
  {
    hide WellFormed, Initial, Tame, N, L;
    TameInitially(c, s);
    forall v
      ensures Lives.Total(s, ToVM(v, Delete)) == 0
    {
      InitialCounts(c, s, ToVM(v, Delete));
    }
  }

  // ----- one request -----

  // What a name stands for, as far as the client can tell.
  datatype Finding = Nobody | AResource | AVMInFull | Other

  ghost function FoundBy(c: Config, s: State, names: map<string, UUID>, name: string): Finding {
    if name !in names then Nobody
    else if names[name] in c.components then AResource
    else if Ready(c, s, names[name]) then AVMInFull
    else Other
  }

  lemma NamedActor(world: World, name: string)
    requires world.Mirrored() && name in world.register.names
    ensures world.register.names[name] in world.register.actors
  {}

  lemma ActorFacts(world: World, u: UUID)
    requires world.Mirrored() && world.storageHandle == world.config.storage && WellFormed(world.config)
    requires u in world.register.actors && Known(world.config, world.loop.world)
    ensures var a := world.register.actors[u];
            && (u in world.config.components <==> !a.VMOf? && !a.StorageOf?)
            && (u !in world.config.components ==>
                  (Ready(world.config, world.loop.world, u) <==> a.VMOf? && a.vm.storage == world.storageHandle))
  {
    assert Fits(world.config, world.loop.world, u, Held(world.register.actors[u]));
    hide Known;
  }

  method Find(world: World, name: string) returns (r: Finding, u: UUID)
    requires world.Valid()
    ensures r == FoundBy(world.config, world.loop.world, world.register.names, name)
    ensures r != Nobody ==> name in world.register.names && u == world.register.names[name]
    ensures world.Valid() && world.Gears() == old(world.Gears())
  {
    hide World.Mirrored, World.Wired, Reachable, Sound, WellFormed, Known, Held, Fits;
    var uuid := world.ResolveName(name);
    if uuid == None {
      return Nobody, NIL;
    }
    u := uuid.value;
    world.WiredFacts();
    world.ValidFacts();
    SoundKnown(world.config, world.loop.world);
    NamedActor(world, name);
    ActorFacts(world, u);
    match world.register.GetActor(u) {
      case Some(VMOf(v)) => r := if v.storage == world.storageHandle then AVMInFull else Other;
      case Some(StorageOf(_)) => r := Other;
      case Some(_) => r := AResource;
    }
  }

  // Whether the storage knows the handle.
  method Stored(world: World, u: UUID) returns (r: bool)
    requires world.Valid()
    ensures r <==> u in world.loop.world.storage.vms
    ensures world.Valid() && world.Gears() == old(world.Gears())
  {
    hide World.Wired, Reachable, Sound, WellFormed, Held, Fits;
    world.WiredFacts();
    world.StorageView();
    match world.register.GetActor(world.storageHandle) {
      case Some(StorageOf(storage)) => r := u in storage.GetVMs();
      case _ => assert false;
    }
  }

  // One request: the command it comes to is given, or nothing happens.
  method Give(world: World, r: Request, deleted: set<UUID>) returns (deleted': set<UUID>)
    requires world.Valid() && Careful(world.config, world.loop.world, deleted) && Giving(world.loop.world)
    modifies world.loop, world.register
    ensures Seen(world, deleted') == Answered(world.config, old(Seen(world, deleted)), r)
    ensures world.Valid() && Careful(world.config, world.loop.world, deleted') && Giving(world.loop.world)
    ensures fresh(world.register.Repr() - old(world.register.Repr()))
  {
    hide World.Valid, World.Gears, Careful, Giving, Execute, Proper, Ready, ActorRegister.Repr, WellFormed, Known, Sound, Reachable;
    ValidKnown(world);
    CarefulAnswer(world.config, Seen(world, deleted), r);
    deleted' := deleted;
    match r {
      case AskVM(name, model) =>
        var outcome := world.CreateVM(name, model);
      case AskPower(name, on) =>
        var what, u := Find(world, name);
        if what == AResource {
          var outcome := world.DoResourceAction(name, if on then Boot else Shutdown);
        }
      case AskProvision(name) =>
        var what, u := Find(world, name);
        if what != Nobody {
          var known := Stored(world, u);
          if known {
            var outcome := world.DoProvisionVM(name);
          }
        }
      case AskStop(name) =>
        var what, u := Find(world, name);
        if what == AVMInFull {
          var outcome := world.DoStopVM(name);
        }
      case AskDelete(name) =>
        var what, u := Find(world, name);
        if what == AVMInFull && u !in deleted {
          var outcome := world.DoDeleteVM(name);
          deleted' := deleted + {u};
        }
    }
  }

  lemma ValidKnown(world: World)
    requires world.Valid()
    ensures WellFormed(world.config) && Known(world.config, world.loop.world) && Sound(world.config, world.loop.world)
    ensures Reachable(world.config, world.loop.world)
    ensures forall u :: Ready(world.config, world.loop.world, u) ==> u !in world.config.components
    ensures world.register.serial == world.loop.world.next
  {
    hide World.Mirrored, World.Wired, Reachable, Sound, WellFormed, Addressed;
    ReachableIsSound(world.config, world.loop.world);
    SoundKnown(world.config, world.loop.world);
  }

  // ----- batches -----

  // The commands could be given one after the other, each of them well-formed.
  ghost predicate ProperBatch(c: Config, s: State, cmds: seq<Command>) {
    forall i :: 0 <= i < |cmds| ==> Proper(c, ExecuteAll(c, s, cmds[..i]), cmds[i])
  }

  lemma OneMoreCommand(c: Config, s: State, cmds: seq<Command>, m: Option<Command>)
    requires ProperBatch(c, s, cmds) && (m.Some? ==> Proper(c, ExecuteAll(c, s, cmds), m.value))
    ensures var more := cmds + if m.Some? then [m.value] else [];
            ProperBatch(c, s, more) && ExecuteAll(c, s, more) == Obey(c, ExecuteAll(c, s, cmds), m)
  {
    hide Proper, Execute;
    if m.Some? {
      var more := cmds + [m.value];
      assert more[..|cmds|] == cmds;
      forall i | 0 <= i < |cmds|
        ensures Proper(c, ExecuteAll(c, s, more[..i]), more[i])
      {
        assert more[..i] == cmds[..i];
      }
    } else {
      assert cmds + [] == cmds;
    }
  }

  // Answering a batch is giving its commands one after the other, each of them well-formed.
  lemma {:induction false} BatchIsItsCommands(c: Config, b: Book, batch: seq<Request>)
    requires WellFormed(c) && Reachable(c, b.state) && Careful(c, b.state, b.deleted) && Giving(b.state)
    ensures var a, cmds := AnsweredAll(c, b, batch), CommandsFor(c, b, batch);
            && a.state == ExecuteAll(c, b.state, cmds) && ProperBatch(c, b.state, cmds)
            && Reachable(c, a.state) && Careful(c, a.state, a.deleted) && Giving(a.state)
  {
    hide WellFormed, Sound, Known, Reachable, Careful, Giving, Execute, Proper, ProperBatch, Meant;
    if batch == [] {
      NoCommands(c, b.state);
    } else {
      var init, r := batch[..|batch| - 1], batch[|batch| - 1];
      BatchIsItsCommands(c, b, init);
      var a, m := AnsweredAll(c, b, init), Meant(c, AnsweredAll(c, b, init), r);
      ReachableIsSound(c, a.state);
      SoundKnown(c, a.state);
      CarefulAnswer(c, a, r);
      OneMoreCommand(c, b.state, CommandsFor(c, b, init), m);
      if m.Some? {
        assert Allowed(c, a.state, m.value) by { ProperAllowed(c, a.state, m.value); }
        ReachableNext(c, a.state, Do(m.value));
      }
    }
  }

  lemma ProperAllowed(c: Config, s: State, m: Command)
    requires Proper(c, s, m)
    ensures Allowed(c, s, m)
  {
    hide Allowed;
  }

  // A whole batch, and the run that follows it.
  method Serve(world: World, batch: seq<Request>, deleted: set<UUID>) returns (deleted': set<UUID>, ghost walk: Walk)
    requires world.Valid() && Careful(world.config, world.loop.world, deleted) && world.loop.world.queue == []
    modifies world.loop, world.register, world.register.Repr()
    ensures ValidOrders(walk.orders)
    ensures Seen(world, deleted') == RunDry(world.config, AnsweredAll(world.config, old(Seen(world, deleted)), batch), walk)
    ensures var cmds := CommandsFor(world.config, old(Seen(world, deleted)), batch);
            && ProperBatch(world.config, old(world.loop.world), cmds)
            && world.loop.world ==
               Drain(world.config, ExecuteAll(world.config, old(world.loop.world), cmds), walk.orders, walk.steps)
    ensures world.Valid() && Careful(world.config, world.loop.world, deleted') && world.loop.world.queue == []
    ensures fresh(world.register.Repr() - old(world.register.Repr()))
  {
    hide World.Valid, World.Gears, CommandsFor, ProperBatch, WellFormed, Reachable, Known, Sound, Careful, Answered, ActorRegister.Repr, Drain, CanDrain, ValidOrders;
    ghost var c, book, repr := world.config, Seen(world, deleted), world.register.Repr();
    deleted' := deleted;
    NoCommands(c, book.state);
    ValidKnown(world);
    BatchIsItsCommands(c, book, batch);
    assert batch[..0] == [];
    for i := 0 to |batch|
      invariant world.Valid() && Careful(c, world.loop.world, deleted') && Giving(world.loop.world)
      invariant Seen(world, deleted') == AnsweredAll(c, book, batch[..i])
      invariant fresh(world.register.Repr() - repr)
    {
      ghost var before := world.register.Repr();
      label BeforeRequest:
      deleted' := Give(world, batch[i], deleted');
      ghost var added := world.register.Repr() - before;
      assert fresh@BeforeRequest(added);
      assert fresh(added) && world.register.Repr() - repr <= added + (before - repr);
      assert fresh(added + (before - repr));
      assert batch[..i + 1][..i] == batch[..i];
    }
    assert batch[..|batch|] == batch;
    ValidKnown(world);
    CarefulCanDrain(c, world.loop.world, deleted');
    ghost var s := world.loop.world;
    ghost var ords, n := world.SimulateAll();
    walk := Walk(ords, n);
    CarefulDrain(c, s, deleted', ords, n);
  }

  lemma NoCommands(c: Config, s: State)
    ensures ProperBatch(c, s, []) && ExecuteAll(c, s, []) == s
    ensures s.queue == [] ==> Giving(s)
  {}

  lemma CarefulCanDrain(c: Config, s: State, deleted: set<UUID>)
    requires WellFormed(c) && Sound(c, s) && Careful(c, s, deleted)
    ensures CanDrain(c, s)
  {
    hide WellFormed, Sound, Tame, Remembers, CanDrain;
    TameCanDrain(c, s);
  }

  // Nothing and nobody is in transition.
  ghost predicate AtRest(s: State) {
    && s.queue == [] && s.storage.ok
    && (forall r :: r in s.power ==> s.power[r] in {Off, On, PowerState.Failed})
    && (forall v :: v in s.vms ==> s.vms[v].state in {Provisioning, Running, Stopped, Deleting, Failure})
    && forall v :: !Pending(s, v)
  }

  lemma Rests(world: World, deleted: set<UUID>)
    requires world.Valid() && Careful(world.config, world.loop.world, deleted) && world.loop.world.queue == []
    ensures AtRest(world.loop.world)
  {
    hide World.Valid, WellFormed, Known, Sound, Reachable, RequestsLead, CreatedFirst, Typed, AllAccounted, Remembers;
    ValidKnown(world);
    Guarantees.Quiescence(world.config, world.loop.world);
  }

  ghost predicate ValidWalks(walks: seq<Walk>) {
    forall i :: 0 <= i < |walks| ==> ValidOrders(walks[i].orders)
  }

  // After every one of the batches everything is at rest.
  ghost predicate RestsAlways(c: Config, b: Book, batches: seq<seq<Request>>, walks: seq<Walk>)
    requires |walks| == |batches|
  {
    forall i :: 0 <= i <= |batches| ==> AtRest(Played(c, b, batches[..i], walks[..i]).state)
  }

  lemma RestsOnceMore(c: Config, b: Book, batches: seq<seq<Request>>, walks: seq<Walk>)
    requires |walks| == |batches| > 0
    requires RestsAlways(c, b, batches[..|batches| - 1], walks[..|batches| - 1]) && AtRest(Played(c, b, batches, walks).state)
    ensures RestsAlways(c, b, batches, walks)
  {
    hide Played, AtRest;
    var k := |batches| - 1;
    forall i | 0 <= i <= |batches|
      ensures AtRest(Played(c, b, batches[..i], walks[..i]).state)
    {
      if i <= k {
        assert batches[..k][..i] == batches[..i] && walks[..k][..i] == walks[..i];
      } else {
        assert batches[..i] == batches && walks[..i] == walks;
      }
    }
  }

  lemma NothingPlayed(c: Config, b: Book)
    ensures Played(c, b, [], []) == b
    ensures AtRest(b.state) ==> RestsAlways(c, b, [], [])
  {}

  // From the initial state to rest, batch by batch: each is answered request by request, its run
  // ends, the storage works, and nothing is left in transition.
  method Play(world: World, batches: seq<seq<Request>>) returns (ghost walks: seq<Walk>)
    requires world.Valid() && Initial(world.config, world.loop.world)
    modifies world.loop, world.register, world.register.Repr()
    ensures world.Valid() && |walks| == |batches| && ValidWalks(walks)
    ensures var end := Played(world.config, old(Seen(world, {})), batches, walks);
            world.loop.world == end.state && world.register.names == end.names && world.Gears() == end.gears
    ensures RestsAlways(world.config, old(Seen(world, {})), batches, walks)
  {
    hide World.Valid, World.Gears, Initial, Careful, AtRest, RestsAlways, ActorRegister.Repr, WellFormed, Known, Sound, Reachable,
        ValidOrders, AnsweredAll, RunDry;
    ghost var c, book, repr := world.config, Seen(world, {}), world.register.Repr();
    ValidKnown(world);
    CarefulInitially(c, world.loop.world);
    EmptyAtFirst(c, world.loop.world);
    var deleted := {};
    walks := [];
    NothingPlayed(c, book);
    Rests(world, deleted);
    for i := 0 to |batches|
      invariant world.Valid() && Careful(c, world.loop.world, deleted) && world.loop.world.queue == []
      invariant |walks| == i && ValidWalks(walks) && Seen(world, deleted) == Played(c, book, batches[..i], walks)
      invariant RestsAlways(c, book, batches[..i], walks)
      invariant fresh(world.register.Repr() - repr)
    {
      ghost var before := world.register.Repr();
      ghost var walk;
      label BeforeBatch:
      deleted, walk := Serve(world, batches[i], deleted);
      assert before == old@BeforeBatch(world.register.Repr());
      assert fresh(world.register.Repr() - before);
      ghost var done := walks;
      walks := walks + [walk];
      assert batches[..i + 1][..i] == batches[..i] && walks[..i] == done;
      Rests(world, deleted);
      RestsOnceMore(c, book, batches[..i + 1], walks);
    }
    assert batches[..|batches|] == batches;
  }

  // What a client sees of a world that has just been set up.
  ghost function FirstBook(dcs: seq<DataCenterSpec>): Book {
    var p := Planned(FirstPlan(), dcs);
    Book(Blank(p.config, p.next), p.names, p.gears, {})
  }

  // The same from the configuration on.
  method Simulate(dcs: seq<DataCenterSpec>, batches: seq<seq<Request>>)
    returns (world: Option<World>, ghost walks: seq<Walk>)
    ensures world.Some? <==> AllNew(FIXED_NAMES, NamesOf(dcs))
    ensures world.Some? && Staffed(dcs) ==>
              && world.value.Valid() && world.value.config == Planned(FirstPlan(), dcs).config
              && |walks| == |batches| && ValidWalks(walks)
              && (var end := Played(world.value.config, FirstBook(dcs), batches, walks);
                  && world.value.loop.world == end.state && world.value.register.names == end.names
                  && world.value.Gears() == end.gears)
              && RestsAlways(world.value.config, FirstBook(dcs), batches, walks)
  {
    hide World.Valid, World.Mirrored, World.Gears, Initial, AllNew, NamesOf, AtRest, RestsAlways, ActorRegister.Repr, Played, ValidWalks,
        Planned, Fitted, Blank;
    world := Setup(dcs);
    walks := [];
    if world.Some? && Staffed(dcs) {
      walks := Play(world.value, batches);
    }
  }

  lemma EmptyAtFirst(c: Config, s: State)
    requires Initial(c, s)
    ensures s.queue == []
  {}

  // ----- the outcome is determined -----

  // The same book, but for exchanges of unrelated events in the history.
  ghost predicate SameButHistory(c: Config, b: Book, a: Book) {
    && a == b.(state := b.state.(log := a.state.log))
    && Equivalent(c, b.state.log, a.state.log)
  }

  lemma ExecuteBlind(c: Config, s: State, l: seq<Event>, m: Command)
    ensures Execute(c, s.(log := l), m) == Execute(c, s, m).(log := l)
  {
    hide InsertBack, InsertFront;
  }

  // No request is answered by looking at the history.
  lemma AnsweredAlike(c: Config, b: Book, a: Book, r: Request)
    requires SameButHistory(c, b, a)
    ensures SameButHistory(c, Answered(c, b, r), Answered(c, a, r))
  {
    hide Equivalent, Execute;
    assert Meant(c, a, r) == Meant(c, b, r);
    var m := Meant(c, b, r);
    hide Meant;
    if m.Some? {
      ExecuteBlind(c, b.state, a.state.log, m.value);
      ExecuteLogs(c, b.state, m.value);
    }
  }

  lemma ExecuteLogs(c: Config, s: State, m: Command)
    ensures Execute(c, s, m).log == s.log
  {
    hide InsertBack, InsertFront;
  }

  lemma {:induction false} AnsweredAllAlike(c: Config, b: Book, a: Book, batch: seq<Request>)
    requires SameButHistory(c, b, a)
    ensures SameButHistory(c, AnsweredAll(c, b, batch), AnsweredAll(c, a, batch))
  {
    hide SameButHistory, Answered;
    if batch != [] {
      var init := batch[..|batch| - 1];
      AnsweredAllAlike(c, b, a, init);
      AnsweredAlike(c, AnsweredAll(c, b, init), AnsweredAll(c, a, init), batch[|batch| - 1]);
    }
  }

  lemma RunDryAlike(c: Config, b: Book, a: Book, v: Walk, w: Walk)
    requires WellFormed(c) && Reachable(c, b.state) && SameButHistory(c, b, a)
    requires ValidOrders(v.orders) && ValidOrders(w.orders)
    requires RunDry(c, b, v).state.queue == [] && RunDry(c, a, w).state.queue == []
    ensures SameButHistory(c, RunDry(c, b, v), RunDry(c, a, w))
  {
    hide WellFormed, Reachable, Equivalent, Drain, ValidOrders, Swaps, Alike, Sane;
    ReachableIsSane(c, b.state);
    NoSwaps(c, b.state.queue);
    PathDrain(c, b.state, a.state, [], v.orders, w.orders, v.steps);
    EndsAlike(c, Drain(c, b.state, v.orders, v.steps), Drain(c, a.state, w.orders, v.steps));
    if v.steps <= w.steps {
      DrainSettles(c, a.state, w.orders, v.steps, w.steps);
    } else {
      DrainSettles(c, a.state, w.orders, w.steps, v.steps);
    }
  }

  lemma RestsBefore(c: Config, b: Book, batches: seq<seq<Request>>, walks: seq<Walk>)
    requires |walks| == |batches| > 0 && RestsAlways(c, b, batches, walks)
    ensures RestsAlways(c, b, batches[..|batches| - 1], walks[..|batches| - 1])
    ensures Played(c, b, batches, walks).state.queue == []
    ensures Played(c, b, batches[..|batches| - 1], walks[..|batches| - 1]).state.queue == []
  {
    hide Played;
    var k := |batches| - 1;
    forall i | 0 <= i <= k
      ensures AtRest(Played(c, b, batches[..k][..i], walks[..k][..i]).state)
    {
      assert batches[..k][..i] == batches[..i] && walks[..k][..i] == walks[..i];
    }
    assert batches[..k + 1] == batches && walks[..k + 1] == walks;
    assert AtRest(Played(c, b, batches[..k + 1], walks[..k + 1]).state);
  }

  lemma {:induction false} PlayedReachable(c: Config, b: Book, batches: seq<seq<Request>>, walks: seq<Walk>)
    requires WellFormed(c) && Reachable(c, b.state) && Careful(c, b.state, b.deleted)
    requires |walks| == |batches| && ValidWalks(walks) && RestsAlways(c, b, batches, walks)
    ensures var p := Played(c, b, batches, walks); Reachable(c, p.state) && Careful(c, p.state, p.deleted)
  {
    hide WellFormed, Reachable, Careful, RestsAlways, AnsweredAll, Drain, ValidOrders, Sound, AtRest;
    if batches != [] {
      var k := |batches| - 1;
      RestsBefore(c, b, batches, walks);
      PlayedReachable(c, b, batches[..k], walks[..k]);
      AnsweredReachable(c, Played(c, b, batches[..k], walks[..k]), batches[k], walks[k]);
    }
  }

  lemma AnsweredReachable(c: Config, p: Book, batch: seq<Request>, w: Walk)
    requires WellFormed(c) && Reachable(c, p.state) && Careful(c, p.state, p.deleted) && p.state.queue == []
    requires ValidOrders(w.orders)
    ensures var a := AnsweredAll(c, p, batch); var q := RunDry(c, a, w);
            Reachable(c, a.state) && Reachable(c, q.state) && Careful(c, q.state, q.deleted)
  {
    hide WellFormed, Reachable, Careful, AnsweredAll, CommandsFor, Drain, ValidOrders, Sound, ProperBatch, ExecuteAll;
    NoCommands(c, p.state);
    BatchIsItsCommands(c, p, batch);
    var a := AnsweredAll(c, p, batch);
    ReachableIsSound(c, a.state);
    ReachableDrain(c, a.state, w.orders, w.steps);
    CarefulDrain(c, a.state, a.deleted, w.orders, w.steps);
  }

  // What comes of any batches of requests depends on the requests alone: two sessions that answer
  // the same, in whatever orders their containers are walked, end in the same state, with the same
  // names, and with histories that differ by exchanges of unrelated simultaneous events only.
  lemma {:induction false} OutcomeIsDetermined(c: Config, b: Book, batches: seq<seq<Request>>, walks: seq<Walk>,
                                               others: seq<Walk>)
    requires WellFormed(c) && Reachable(c, b.state) && Careful(c, b.state, b.deleted)
    requires |walks| == |others| == |batches| && ValidWalks(walks) && ValidWalks(others)
    requires RestsAlways(c, b, batches, walks) && RestsAlways(c, b, batches, others)
    ensures SameButHistory(c, Played(c, b, batches, walks), Played(c, b, batches, others))
  {
    hide WellFormed, Reachable, Careful, RestsAlways, AnsweredAll, RunDry, ValidOrders, SameButHistory, AtRest;
    if batches == [] {
      SameBook(c, b);
    } else {
      var k := |batches| - 1;
      RestsBefore(c, b, batches, walks);
      RestsBefore(c, b, batches, others);
      OutcomeIsDetermined(c, b, batches[..k], walks[..k], others[..k]);
      var p, q := Played(c, b, batches[..k], walks[..k]), Played(c, b, batches[..k], others[..k]);
      PlayedReachable(c, b, batches[..k], walks[..k]);
      AnsweredReachable(c, p, batches[k], walks[k]);
      AnsweredAllAlike(c, p, q, batches[k]);
      RunDryAlike(c, AnsweredAll(c, p, batches[k]), AnsweredAll(c, q, batches[k]), walks[k], others[k]);
    }
  }

  lemma SameBook(c: Config, b: Book)
    ensures SameButHistory(c, b, b)
  {
    hide Equivalent;
    EquivalentSelf(c, b.state.log);
  }
}
