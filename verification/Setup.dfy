/**
 Setting the world up: the cloud, its storage, and one data center and server after another as
 the configuration lists them. What comes out is a world in the initial state of the state
 machine, over a well-formed tree.
 */
module Setups {
  import opened Types
  import opened BucketQueue
  import opened Simulator
  import opened Soundness
  import opened Loop
  import opened VMActor
  import opened StorageActor
  import opened ResourceActors
  import opened Register
  import opened Schedulers
  import opened Worlds
  import opened Layout
  import Tree

  // Nothing has happened yet, and every resource is off.
  ghost function Blank(c: Config, next: UUID): State {
    State(1, [], map[], Storage(true, map[]), map r | r in c.components :: Off, map x | x in c.servers :: {},
          next, false, [], 0, [])
  }

  // A tree of clouds, data centers and servers, without delays.
  ghost predicate Sapling(c: Config) {
    Tree.IsTree(c) && c.height == 2 && c.startup == c.shutdown == map[] && c.vmDelays == map[]
  }

  ghost predicate Kinds(c: Config, actors: map<UUID, Actor>)
    requires Sapling(c)
  {
    && actors.Keys == c.components.Keys + {c.storage}
    && actors[c.storage].StorageOf? && actors[c.cloud].CloudOf?
    && (forall u :: u in actors && u != c.storage && u != c.cloud ==>
          if u in c.servers then actors[u].ServerOf? else actors[u].DataCenterOf? && c.depth[u] == 1)
    && c.cloud !in c.servers
  }

  ghost predicate AllFits(c: Config, parts: map<UUID, Part>, next: UUID) {
    forall u :: u in parts ==> u < next && Fits(c, Blank(c, next), u, parts[u])
  }

  // The objects made so far and the configuration they amount to.
  ghost predicate Skeleton(c: Config, actors: map<UUID, Actor>, parts: map<UUID, Part>, next: UUID) {
    Sapling(c) && Kinds(c, actors) && parts.Keys == actors.Keys && AllFits(c, parts, next)
  }

  function NewResource(guests: Option<set<UUID>>): Part {
    ResourcePart(Off, {}, 0, 0, guests)
  }

  function MoreComponents(p: Part, x: UUID): Part
    requires p.ResourcePart?
  {
    p.(components := p.components + {x})
  }

  lemma BlankBelow(c: Config, r: UUID, x: UUID)
    requires r in c.components && r in c.depth
    ensures Joined(Blank(c, x), ADataCenter, x) == Blank(Tree.Below(c, r, x), x + 1)
    ensures Joined(Blank(c, x), AServer, x) == Blank(Tree.WithServer(c, r, x, true), x + 1)
    ensures Blank(Tree.WithServer(c, r, x, false), x + 1) == Blank(Tree.WithServer(c, r, x, true), x + 1)
  {}

  lemma FitsBelow(c: Config, c': Config, n: UUID, u: UUID, p: Part, r: UUID)
    requires Fits(c, Blank(c, n), u, p) && u < n && u != r && r in c.components && r in c.depth
    requires c' == Tree.Below(c, r, n) || c' == Tree.WithServer(c, r, n, true) || c' == Tree.WithServer(c, r, n, false)
    ensures Fits(c', Blank(c', n + 1), u, p)
  {}

  lemma FitsGrown(c: Config, c': Config, n: UUID, p: Part, r: UUID)
    requires Fits(c, Blank(c, n), r, p) && p.ResourcePart? && r < n && r in c.components && r in c.depth
    requires c' == Tree.Below(c, r, n) || c' == Tree.WithServer(c, r, n, true) || c' == Tree.WithServer(c, r, n, false)
    ensures Fits(c', Blank(c', n + 1), r, MoreComponents(p, n))
  {}

  lemma FitsNew(c: Config, n: UUID, r: UUID, first: bool)
    requires r in c.components && r in c.depth && c.startup == c.shutdown == map[] && n !in c.servers &&
             n !in c.components
    ensures var c' := Tree.Below(c, r, n); Fits(c', Blank(c', n + 1), n, NewResource(None))
    ensures var c' := Tree.WithServer(c, r, n, first); Fits(c', Blank(c', n + 1), n, NewResource(Some({})))
  {}

  lemma ResourceAt(c: Config, w: State, u: UUID, p: Part)
    requires Fits(c, w, u, p) && u in c.components && u != c.storage && u !in w.vms
    ensures p.ResourcePart?
  {}

  ghost function Grow(parts: map<UUID, Part>, r: UUID, n: UUID, guests: Option<set<UUID>>): map<UUID, Part>
    requires r in parts && parts[r].ResourcePart?
  {
    parts[r := MoreComponents(parts[r], n)][n := NewResource(guests)]
  }

  lemma AllFitsBelow(c: Config, c': Config, parts: map<UUID, Part>, n: UUID, r: UUID, guests: Option<set<UUID>>)
    requires AllFits(c, parts, n) && r in parts && parts[r].ResourcePart? && r in c.components && r in c.depth
    requires c.startup == c.shutdown == map[] && n !in c.servers && n !in c.components
    requires (c' == Tree.Below(c, r, n) && guests == None) ||
             ((c' == Tree.WithServer(c, r, n, true) || c' == Tree.WithServer(c, r, n, false)) && guests == Some({}))
    ensures AllFits(c', Grow(parts, r, n, guests), n + 1)
  {
    FitsNew(c, n, r, true);
    FitsNew(c, n, r, false);
    FitsGrown(c, c', n, parts[r], r);
    hide Fits, Blank, Tree.Below, Tree.WithServer;
    var parts' := Grow(parts, r, n, guests);
    forall u | u in parts'
      ensures u < n + 1 && Fits(c', Blank(c', n + 1), u, parts'[u])
    {
      if u != n && u != r {
        FitsBelow(c, c', n, u, parts[u], r);
      }
    }
  }

  lemma KindsBelow(c: Config, actors: map<UUID, Actor>, n: UUID, dc: DataCenter)
    requires Sapling(c) && Kinds(c, actors) && n !in actors && Sapling(Tree.Below(c, c.cloud, n))
    ensures Kinds(Tree.Below(c, c.cloud, n), actors[n := DataCenterOf(dc)])
  {
    hide Tree.Listed, Tree.Hung;
  }

  lemma KindsWithServer(c: Config, actors: map<UUID, Actor>, d: UUID, n: UUID, server: Server, first: bool)
    requires Sapling(c) && Kinds(c, actors) && n !in actors && d in c.components &&
             Sapling(Tree.WithServer(c, d, n, first))
    ensures Kinds(Tree.WithServer(c, d, n, first), actors[n := ServerOf(server)])
  {
    hide Tree.Listed, Tree.Hung;
  }

  lemma NewHandle(c: Config, actors: map<UUID, Actor>, parts: map<UUID, Part>, n: UUID)
    requires Skeleton(c, actors, parts, n)
    ensures n !in actors && n !in c.components && n != c.storage && n !in c.servers && c.cloud in c.components &&
             c.cloud in parts
    ensures c.depth[c.cloud] == 0
  {
    hide Fits, Tree.Listed, Tree.Hung;
    assert forall u :: u in parts ==> u < n;
  }

  lemma SomeResource(c: Config, actors: map<UUID, Actor>, parts: map<UUID, Part>, n: UUID, u: UUID)
    requires Skeleton(c, actors, parts, n) && u in c.components
    ensures u in parts && parts[u].ResourcePart? && u in c.depth && u < n
  {
    hide Fits, Tree.Listed, Tree.Hung, Blank;
    assert u in parts;
    NoVMs(c, n);
    ResourceAt(c, Blank(c, n), u, parts[u]);
  }

  lemma NoVMs(c: Config, n: UUID)
    ensures Blank(c, n).vms == map[]
  {}

  // One more data center.
  lemma SkeletonWithDataCenter(c: Config, actors: map<UUID, Actor>, parts: map<UUID, Part>, n: UUID, dc: DataCenter)
    requires Skeleton(c, actors, parts, n) && n > NIL
    ensures c.cloud in parts && parts[c.cloud].ResourcePart? && c.cloud in c.components && c.cloud in c.depth
    ensures Skeleton(Tree.Below(c, c.cloud, n), actors[n := DataCenterOf(dc)], Grow(parts, c.cloud, n, None), n + 1)
  {
    hide AllFits, Kinds, Tree.IsTree, Tree.Below;
    NewHandle(c, actors, parts, n);
    SomeResource(c, actors, parts, n, c.cloud);
    Tree.BelowKeepsTree(c, c.cloud, n);
    BelowSame(c, c.cloud, n);
    KindsBelow(c, actors, n, dc);
    AllFitsBelow(c, Tree.Below(c, c.cloud, n), parts, n, c.cloud, None);
    SameKeys(actors, parts, DataCenterOf(dc), c.cloud, n, None);
  }

  lemma BelowSame(c: Config, r: UUID, n: UUID)
    requires r in c.components && r in c.depth
    ensures var c' := Tree.Below(c, r, n);
            c'.height == c.height && c'.startup == c.startup && c'.shutdown == c.shutdown && c'.vmDelays == c.vmDelays
    ensures forall first :: var c' := Tree.WithServer(c, r, n, first);
            c'.height == c.height && c'.startup == c.startup && c'.shutdown == c.shutdown && c'.vmDelays == c.vmDelays
  {}

  lemma SameKeys(actors: map<UUID, Actor>, parts: map<UUID, Part>, a: Actor, r: UUID, n: UUID,
      guests: Option<set<UUID>>)
    requires parts.Keys == actors.Keys && r in parts && parts[r].ResourcePart?
    ensures Grow(parts, r, n, guests).Keys == actors[n := a].Keys
  {}

  // One more server.
  lemma SkeletonWithServer(c: Config, actors: map<UUID, Actor>, parts: map<UUID, Part>, n: UUID, d: UUID,
      server: Server, first: bool)
    requires Skeleton(c, actors, parts, n) && n > NIL && d in c.components && c.depth[d] == 1
    ensures d in parts && parts[d].ResourcePart? && d in c.components && d in c.depth
    ensures Skeleton(Tree.WithServer(c, d, n, first), actors[n := ServerOf(server)], Grow(parts, d, n, Some({})), n + 1)
  {
    hide AllFits, Kinds, Tree.IsTree, Tree.WithServer;
    NewHandle(c, actors, parts, n);
    SomeResource(c, actors, parts, n, d);
    Tree.ServerKeepsTree(c, d, n, first);
    BelowSame(c, d, n);
    KindsWithServer(c, actors, d, n, server, first);
    EitherFirst(c, d, n, first);
    AllFitsBelow(c, Tree.WithServer(c, d, n, first), parts, n, d, Some({}));
    SameKeys(actors, parts, ServerOf(server), d, n, Some({}));
  }

  lemma EitherFirst(c: Config, d: UUID, n: UUID, first: bool)
    requires d in c.components && d in c.depth
    ensures Tree.WithServer(c, d, n, first) == Tree.WithServer(c, d, n, true) ||
             Tree.WithServer(c, d, n, first) == Tree.WithServer(c, d, n, false)
  {}

  // ----- the objects themselves -----

  // The clock starts at one; nobody exists.
  function Dawn(): State {
    State(1, [], map[], Storage(true, map[]), map[], map[], 1, false, [], 0, [])
  }

  lemma BareBlank()
    ensures Joined(Joined(Dawn(), ACloud, 1), AStorage, 2) == Blank(Tree.Bare(1, 2), 3)
  {}

  lemma BareSkeleton(cloud: Cloud, storage: VMStorage)
    ensures Skeleton(Tree.Bare(1, 2), map[1 := CloudOf(cloud), 2 := StorageOf(storage)],
                     map[1 := NewResource(None), 2 := StoragePart(Storage(true, map[]))], 3)
  {
    Tree.BareIsTree(1, 2);
  }

  lemma CreatedParts(a: Actor)
    requires AsCreated(a)
    ensures a.CloudOf? ==> Held(a) == NewResource(None)
    ensures a.DataCenterOf? ==> Held(a) == NewResource(None)
    ensures a.ServerOf? ==> Held(a) == NewResource(Some({}))
    ensures a.StorageOf? ==> Held(a) == StoragePart(Storage(true, map[]))
    ensures a.CloudOf? || a.DataCenterOf? ==> GearOf(a) == Members([])
    ensures a.StorageOf? ==> GearOf(a) == NoGear
  {}

  // The loop, the register, and the two actors every world starts with.
  method Found() returns (loop: EventLoop, register: ActorRegister, cloud: Cloud, ghost storage: VMStorage)
    ensures fresh(loop) && fresh(register) && fresh(cloud) && fresh(cloud.base) && fresh(storage)
    ensures loop.Valid() && loop.queue == map[] && loop.world == Blank(Tree.Bare(1, 2), 3)
    ensures register.Valid() && register.loop == loop && register.serial == 3
    ensures register.actors == map[1 := CloudOf(cloud), 2 := StorageOf(storage)]
    ensures register.names == map["cloud-1" := 1, "vm-storage-1" := 2]
    ensures WholeOf(CloudOf(cloud)) == Whole(NewResource(None), Members([]))
    ensures WholeOf(StorageOf(storage)) == Whole(StoragePart(Storage(true, map[])), NoGear)
    ensures cloud.dataCenters == [] && cloud.vmStorage == 2
  {
    hide Joined, Held, GearOf, WholeOf, Refines, ActorRegister.Repr, Blank, BucketQueue.Bucket, ActorRegister.Valid, EventLoop.Valid, LoopOf;
    loop := new EventLoop(Dawn());
    register := new ActorRegister(loop);
    var cloudActor, unique := register.Make(ACloud, "cloud-1");
    cloud := cloudActor.cloud;
    var storageActor;
    storageActor, unique := register.Make(AStorage, "vm-storage-1");
    storage := storageActor.storage;
    CreatedParts(cloudActor);
    CreatedParts(storageActor);
    BareBlank();
    cloud.SetVMStorage(2);
    CreatedParts(storageActor);
    WholeIs(storageActor);
    SameResource(cloud);
  }

  lemma SameResource(cloud: Cloud)
    requires Untouched(cloud.base)
    ensures WholeOf(CloudOf(cloud)) == Whole(NewResource(None), Members(cloud.dataCenters))
  {}

  ghost function PartsAmong(wholes: map<UUID, Whole>): map<UUID, Part> {
    map u | u in wholes :: wholes[u].part
  }

  lemma AmongUpdated(wholes: map<UUID, Whole>, u: UUID, w: Whole)
    ensures PartsAmong(wholes[u := w]) == PartsAmong(wholes)[u := w.part]
    ensures GearsAmong(wholes[u := w]) == GearsAmong(wholes)[u := w.gear]
  {}

  lemma WholeIs(a: Actor)
    ensures WholeOf(a) == Whole(Held(a), GearOf(a))
  {}

  // Every server has its memory and, in the order of the configuration, its scheduler.
  ghost predicate Fitted(actors: map<UUID, Actor>, schedulers: seq<GreedyServerScheduler>, machines: seq<(UUID, nat)>)
    reads set u | u in actors && actors[u].ServerOf? :: actors[u].server
  {
    && |schedulers| == |machines|
    && forall i :: 0 <= i < |machines| ==>
         && schedulers[i].sharedResource == machines[i].0
         && machines[i].0 in actors && actors[machines[i].0].ServerOf? && actors[machines[i].0].server.ram == machines[i].1
  }

  lemma FittedAmongMore(actors: map<UUID, Actor>, schedulers: seq<GreedyServerScheduler>, machines: seq<(UUID, nat)>,
      u: UUID, a: Actor)
    requires Fitted(actors, schedulers, machines) && u !in actors
    ensures Fitted(actors[u := a], schedulers, machines)
    ensures forall i :: 0 <= i < |machines| ==> machines[i].0 in actors && machines[i].0 != u
  {}

  // The pieces of a world that is being set up.
  class Site {
    const loop: EventLoop
    const register: ActorRegister
    const manager: ServerSchedulerManager
    const cloud: Cloud

    ghost function Holdings(): map<UUID, Part>
      reads register, register.Repr()
    {
      map u | u in register.actors :: Held(register.actors[u])
    }

    ghost function Gears(): map<UUID, Gear>
      reads register, register.Repr()
    {
      map u | u in register.actors :: GearOf(register.actors[u])
    }

    ghost function Wholes(): map<UUID, Whole>
      reads register, register.Repr()
    {
      map u | u in register.actors :: WholeOf(register.actors[u])
    }

    ghost predicate Consistent()
      reads loop, register
    {
      loop.Valid() && register.Valid() && register.loop == loop && loop.queue == map[]
    }

    // The objects made so far amount to the configuration `c`.
    ghost predicate Valid(c: Config)
      reads loop, register, register.Repr(), manager
    {
      && Consistent()
      && Skeleton(c, register.actors, Holdings(), register.serial)
      && loop.world == Blank(c, register.serial)
      && register.actors[c.cloud] == CloudOf(cloud) && manager.register == register
      && Overseen(c.servers, manager.schedulers)
    }

    // Every scheduler looks at this register and oversees one of the servers.
    ghost predicate Overseen(servers: set<UUID>, schedulers: seq<GreedyServerScheduler>) {
      forall i :: 0 <= i < |schedulers| ==> schedulers[i].register == register && schedulers[i].sharedResource in servers
    }

    lemma OverseenMore(servers: set<UUID>, was: seq<GreedyServerScheduler>, now: seq<GreedyServerScheduler>, u: UUID)
      requires Overseen(servers, was) && |now| == |was| + 1 && forall i :: 0 <= i < |was| ==> now[i] == was[i]
      requires now[|was|].register == register && now[|was|].sharedResource == u
      ensures Overseen(servers + {u}, now)
    {}

    // The site is as far as the plan.
    ghost predicate At(p: Plan)
      reads loop, register, register.Repr(), manager
      reads set u | u in register.actors && register.actors[u].ServerOf? :: register.actors[u].server
    {
      && Valid(p.config) && register.names == p.names && register.serial == p.next && Gears() == p.gears
      && Fitted(register.actors, manager.schedulers, p.machines)
    }

    constructor (loop: EventLoop, register: ActorRegister, manager: ServerSchedulerManager, cloud: Cloud)
      ensures this.loop == loop && this.register == register && this.manager == manager && this.cloud == cloud
    {
      this.loop, this.register, this.manager, this.cloud := loop, register, manager, cloud;
    }

    lemma WholesAt()
      ensures Wholes().Keys == Holdings().Keys == register.actors.Keys
      ensures Holdings() == PartsAmong(Wholes()) && Gears() == GearsAmong(Wholes())
      ensures forall u :: u in register.actors ==> WholeOf(register.actors[u]) == Wholes()[u]
    {
      hide Held, GearOf;
    }

    lemma SameWholes(wholes: map<UUID, Whole>)
      requires wholes.Keys == register.actors.Keys
      requires forall u :: u in register.actors ==> wholes[u] == WholeOf(register.actors[u])
      ensures Holdings() == PartsAmong(wholes) && Gears() == GearsAmong(wholes)
    {
      hide Held, GearOf;
    }

    method Join(kind: Kind, name: string) returns (actor: Actor, unique: bool)
      requires Consistent()
      modifies register, loop`world
      ensures Consistent() && register.serial == old(register.serial) + 1 && old(register.serial) > NIL
      ensures KindOf(actor) == kind && IdOf(actor) == old(register.serial) && fresh(Parts(actor)) && AsCreated(actor)
      ensures old(register.serial) !in old(register.actors) &&
               register.actors == old(register.actors)[old(register.serial) := actor]
      ensures loop.world == Joined(old(loop.world), kind, old(register.serial))
      ensures Holdings() == old(Holdings())[old(register.serial) := Held(actor)]
      ensures Gears() == old(Gears())[old(register.serial) := GearOf(actor)]
      ensures unique <==> name !in old(register.names)
      ensures register.names == if unique then old(register.names)[name := IdOf(actor)] else old(register.names)
      ensures forall o :: o in register.Repr() ==> o in old(register.Repr()) || fresh(o)
    {
      hide Held, GearOf, WholeOf, Refines, Joined, ActorRegister.Repr, AsCreated, PartsOf, Holdings, Gears, Wholes, PartsAmong, GearsAmong;
      ghost var others, before, n := register.actors, Wholes(), register.serial;
      WholesAt();
      NotYet();
      register.ReprIs();
      actor, unique := register.Make(kind, name);
      PartsMore(others, n, actor);
      register.ReprIs();
      forall u | u in others
        ensures WholeOf(others[u]) == before[u]
      {
        NoLoop(others[u], loop);
      }
      SameWholes(before[n := WholeOf(actor)]);
      AmongUpdated(before, n, WholeOf(actor));
      WholeIs(actor);
    }

    lemma NotYet()
      requires register.Valid()
      ensures register.serial !in register.actors && register.serial > NIL
    {}

    // The cloud lists one more data center and has it as a component.
    method Attach(ghost c: UUID, x: UUID)
      requires Consistent() && c in register.actors && register.actors[c] == CloudOf(cloud)
      modifies cloud, cloud.base
      ensures cloud.dataCenters == old(cloud.dataCenters) + [x] && cloud.vmStorage == old(cloud.vmStorage)
      ensures c in old(Holdings()) && old(Holdings())[c].ResourcePart?
      ensures Holdings() == old(Holdings())[c := MoreComponents(old(Holdings())[c], x)]
      ensures Gears() == old(Gears())[c := Members(cloud.dataCenters)]
    {
      hide Held, GearOf, WholeOf, Refines, ActorRegister.Repr;
      ghost var before := Wholes();
      WholesAt();
      HeldByCloud(cloud);
      forall u | u in register.actors && u != c
        ensures Parts(register.actors[u]) !! Parts(CloudOf(cloud))
      {
        Apart(register.actors[u], CloudOf(cloud), loop);
      }
      cloud.AddDataCenter(x);
      HeldByCloud(cloud);
      forall u | u in register.actors && u != c
        ensures WholeOf(register.actors[u]) == before[u]
      {
        NoLoop(register.actors[u], loop);
      }
      SameWholes(before[c := Whole(MoreComponents(before[c].part, x), Members(cloud.dataCenters))]);
      AmongUpdated(before, c, Whole(MoreComponents(before[c].part, x), Members(cloud.dataCenters)));
    }

    lemma HeldByCloud(k: Cloud)
      ensures WholeOf(CloudOf(k)) == Whole(HeldByResource(k.base, None), Members(k.dataCenters))
    {}

    lemma GrowCommutes(parts: map<UUID, Part>, r: UUID, n: UUID, guests: Option<set<UUID>>)
      requires r in parts && parts[r].ResourcePart? && n !in parts
      ensures parts[n := NewResource(guests)][r := MoreComponents(parts[r], n)] == Grow(parts, r, n, guests)
    {}

    // The data center joins the register, and the cloud's list and component set.
    method AddDataCenter(ghost p: Plan, name: string) returns (dc: DataCenter, unique: bool)
      requires At(p)
      modifies register, loop`world, cloud, cloud.base
      ensures fresh(dc) && fresh(dc.base) && dc.servers == [] && dc.base.id == p.next
      ensures unique <==> name !in p.names
      ensures unique ==> At(PlusDataCenter(p, name))
      ensures unique ==> dc.base.id in register.actors && register.actors[dc.base.id] == DataCenterOf(dc)
      ensures unique ==> forall u :: u in old(register.actors) ==> u in register.actors && register.actors[u] == old(register.actors[u])
      ensures unique ==> cloud.dataCenters == old(cloud.dataCenters) + [dc.base.id] && cloud.vmStorage == old(cloud.vmStorage)
      ensures forall o :: o in register.Repr() ==> o in old(register.Repr()) || fresh(o)
    {
      hide Held, GearOf, WholeOf, Skeleton, Refines, Joined, Blank, ActorRegister.Repr, Consistent, Grow, NewResource, MoreComponents,
          Holdings, Tree.Below, Fitted, At, PlusDataCenter, Gears, Listing, Valid, Overseen;
      AtFacts(p);
      ValidPieces(p.config);
      ghost var before, others, n, c, lists := Holdings(), register.actors, register.serial, p.config, cloud.dataCenters;
      HasCloud(c);
      var actor;
      actor, unique := Join(ADataCenter, name);
      FittedAmongMore(others, manager.schedulers, p.machines, n, actor);
      dc := actor.dataCenter;
      assert dc.servers == [];
      CreatedParts(actor);
      if unique {
        GrowingFacts(c, others, before, n, dc);
        Attach(c.cloud, dc.base.id);
        GrowCommutes(before, c.cloud, n, None);
        ListingIs(p.gears, c.cloud, lists, n, Members([]));
        ValidNow(Tree.Below(c, c.cloud, n));
        AtPlusDataCenter(p, name);
      }
    }

    lemma HasCloud(c: Config)
      requires Valid(c)
      ensures c.cloud in register.actors && Holdings().Keys == Gears().Keys == register.actors.Keys
      ensures Gears()[c.cloud] == Members(cloud.dataCenters)
    {
      hide Held, Skeleton;
      HasTrunkActor(c);
    }

    lemma HasTrunkActor(c: Config)
      requires Skeleton(c, register.actors, Holdings(), register.serial)
      ensures c.cloud in register.actors
    {
      hide Held, GearOf, Fits, Tree.Listed, Tree.Hung, AllFits;
    }

    lemma ListingIs(gears: map<UUID, Gear>, r: UUID, list: seq<UUID>, n: UUID, gear: Gear)
      requires r in gears && gears[r] == Members(list) && n != r
      ensures gears[n := gear][r := Members(list + [n])] == Listing(gears, r, n, gear)
    {}

    lemma GrowingFacts(c: Config, others: map<UUID, Actor>, before: map<UUID, Part>, n: UUID, dc: DataCenter)
      requires Skeleton(c, others, before, n) && n > NIL
      ensures c.cloud in before && before[c.cloud].ResourcePart? && c.cloud in c.components && c.cloud in c.depth &&
               n != c.cloud
      ensures n !in before
      ensures Skeleton(Tree.Below(c, c.cloud, n), others[n := DataCenterOf(dc)], Grow(before, c.cloud, n, None), n + 1)
      ensures Joined(Blank(c, n), ADataCenter, n) == Blank(Tree.Below(c, c.cloud, n), n + 1)
      ensures Tree.Below(c, c.cloud, n).servers == c.servers && Tree.Below(c, c.cloud, n).cloud == c.cloud
    {
      NewHandle(c, others, before, n);
      SkeletonWithDataCenter(c, others, before, n, dc);
      BlankBelow(c, c.cloud, n);
      hide Skeleton, Blank, Grow, Joined;
    }

    // The data center lists one more server and has it as a component.
    method AttachServer(dc: DataCenter, x: UUID)
      requires Consistent() && dc.base.id in register.actors && register.actors[dc.base.id] == DataCenterOf(dc)
      modifies dc, dc.base
      ensures dc.servers == old(dc.servers) + [x]
      ensures dc.base.id in old(Holdings()) && old(Holdings())[dc.base.id].ResourcePart?
      ensures Holdings() == old(Holdings())[dc.base.id := MoreComponents(old(Holdings())[dc.base.id], x)]
      ensures Gears() == old(Gears())[dc.base.id := Members(dc.servers)]
    {
      hide Held, GearOf, WholeOf, Refines, ActorRegister.Repr, Holdings, Gears, Wholes, GearsAmong;
      ghost var before, d := Wholes(), dc.base.id;
      WholesAt();
      HeldByDataCenter(dc);
      forall u | u in register.actors && u != d
        ensures Parts(register.actors[u]) !! Parts(DataCenterOf(dc))
      {
        Apart(register.actors[u], DataCenterOf(dc), loop);
      }
      dc.AddServer(x);
      HeldByDataCenter(dc);
      forall u | u in register.actors && u != d
        ensures WholeOf(register.actors[u]) == before[u]
      {
        NoLoop(register.actors[u], loop);
      }
      SameWholes(before[d := Whole(MoreComponents(before[d].part, x), Members(dc.servers))]);
      AmongUpdated(before, d, Whole(MoreComponents(before[d].part, x), Members(dc.servers)));
    }

    lemma HeldByDataCenter(dc: DataCenter)
      ensures WholeOf(DataCenterOf(dc)) == Whole(HeldByResource(dc.base, None), Members(dc.servers))
    {}

    // The size of a server's memory is of no concern to the state machine.
    method Specify(server: Server, ram: nat)
      requires Consistent() && server.base.id in register.actors && register.actors[server.base.id] == ServerOf(server)
      modifies server`ram
      ensures server.ram == ram && Holdings() == old(Holdings())
      ensures Gears() == old(Gears())[server.base.id := Memory(ram)]
    {
      hide Refines, ActorRegister.Repr, Held, GearOf, WholeOf, Holdings, Gears, Wholes;
      ghost var before, n := Wholes(), server.base.id;
      WholesAt();
      HeldByServer(server);
      forall u | u in register.actors && u != n
        ensures Parts(register.actors[u]) !! Parts(ServerOf(server))
      {
        Apart(register.actors[u], ServerOf(server), loop);
      }
      server.SetSpec(ram);
      HeldByServer(server);
      forall u | u in register.actors && u != n
        ensures WholeOf(register.actors[u]) == before[u]
      {
        NoLoop(register.actors[u], loop);
      }
      SameWholes(before[n := before[n].(gear := Memory(ram))]);
      AmongUpdated(before, n, before[n].(gear := Memory(ram)));
    }

    lemma HeldByServer(s: Server)
      ensures WholeOf(ServerOf(s)) == Whole(HeldByResource(s.base, Some(s.guests)), Memory(s.ram))
    {}

    method Schedule(server: UUID)
      requires Consistent() && manager.register == register
      modifies manager
      ensures Holdings() == old(Holdings()) && Gears() == old(Gears())
      ensures |manager.schedulers| == |old(manager.schedulers)| + 1
      ensures forall i :: 0 <= i < |old(manager.schedulers)| ==> manager.schedulers[i] == old(manager.schedulers)[i]
      ensures var last := manager.schedulers[|old(manager.schedulers)|];
              last.sharedResource == server && last.register == register
    {
      hide Held, GearOf, WholeOf, Refines, ActorRegister.Repr;
      ghost var before := Wholes();
      WholesAt();
      manager.Make(server);
      forall u | u in register.actors
        ensures WholeOf(register.actors[u]) == before[u]
      {
        NoLoop(register.actors[u], loop);
      }
      SameWholes(before);
    }

    lemma OtherServers(server: Server, machines: seq<(UUID, nat)>)
      requires Consistent() && Fitted(register.actors, manager.schedulers, machines)
      requires forall i :: 0 <= i < |machines| ==> machines[i].0 != server.base.id
      ensures forall i :: 0 <= i < |machines| ==> register.actors[machines[i].0].server != server
    {
      hide Refines, ActorRegister.Repr;
      forall i | 0 <= i < |machines|
        ensures register.actors[machines[i].0].server != server
      {
        assert IdOf(register.actors[machines[i].0]) == machines[i].0;
      }
    }

    // The server gets its memory and a scheduler, and is listed by its data center.
    method Employ(server: Server, ram: nat, dc: DataCenter, ghost machines: seq<(UUID, nat)>)
      requires Consistent() && manager.register == register && Fitted(register.actors, manager.schedulers, machines)
      requires forall i :: 0 <= i < |machines| ==> machines[i].0 != server.base.id
      requires server.base.id in register.actors && register.actors[server.base.id] == ServerOf(server)
      requires dc.base.id in register.actors && register.actors[dc.base.id] == DataCenterOf(dc)
      modifies server`ram, manager, dc, dc.base
      ensures dc.servers == old(dc.servers) + [server.base.id]
      ensures Fitted(register.actors, manager.schedulers, machines + [(server.base.id, ram)])
      ensures dc.base.id in old(Holdings()) && old(Holdings())[dc.base.id].ResourcePart?
      ensures Holdings() == old(Holdings())[dc.base.id := MoreComponents(old(Holdings())[dc.base.id], server.base.id)]
      ensures Gears() == old(Gears())[server.base.id := Memory(ram)][dc.base.id := Members(dc.servers)]
      ensures |manager.schedulers| == |old(manager.schedulers)| + 1
      ensures forall i :: 0 <= i < |old(manager.schedulers)| ==> manager.schedulers[i] == old(manager.schedulers)[i]
      ensures var last := manager.schedulers[|old(manager.schedulers)|];
              last.sharedResource == server.base.id && last.register == register
    {
      hide Held, GearOf, WholeOf, Refines, ActorRegister.Repr, Consistent, Holdings, MoreComponents;
      OtherServers(server, machines);
      Specify(server, ram);
      Schedule(server.base.id);
      AttachServer(dc, server.base.id);
    }

    // The server that has joined is equipped, and listed by its data center.
    method Install(ghost p: Plan, dc: DataCenter, server: Server, spec: ServerSpec, ghost first: bool,
        ghost others: map<UUID, Actor>, ghost before: map<UUID, Part>)
      requires Consistent() && manager.register == register && p.next > NIL && server.base.id == p.next
      requires Skeleton(p.config, others, before, p.next) && p.next !in others
      requires register.actors == others[p.next := ServerOf(server)] && register.serial == p.next + 1
      requires register.names == p.names[spec.name := p.next]
      requires loop.world == Joined(Blank(p.config, p.next), AServer, p.next)
      requires Holdings() == before[p.next := NewResource(Some({}))]
      requires Gears() == p.gears[p.next := GearOf(ServerOf(server))]
      requires dc.base.id in others && others[dc.base.id] == DataCenterOf(dc)
      requires dc.base.id in p.gears && p.gears[dc.base.id] == Members(dc.servers)
      requires p.config.cloud in others && others[p.config.cloud] == CloudOf(cloud)
      requires Overseen(p.config.servers, manager.schedulers)
      requires Fitted(register.actors, manager.schedulers, p.machines)
      requires forall i :: 0 <= i < |p.machines| ==> p.machines[i].0 != p.next
      modifies server`ram, dc, dc.base, manager
      ensures dc.base.id in p.config.components && dc.base.id in p.config.depth
      ensures At(PlusServer(p, dc.base.id, spec, first)) && dc.servers == old(dc.servers) + [p.next]
    {
      hide Held, GearOf, WholeOf, Skeleton, Refines, Joined, Blank, ActorRegister.Repr, Consistent, Grow, NewResource, MoreComponents,
          Holdings, Tree.WithServer, Fitted, At, PlusServer, Overseen, Gears, Listing, Valid;
      ghost var c, n, d, was, lists, gear := p.config, p.next, dc.base.id, manager.schedulers, dc.servers, GearOf(ServerOf(server));
      ServingFacts(c, others, before, n, dc, server, first);
      Employ(server, spec.ram, dc, p.machines);
      GrowCommutes(before, d, n, Some({}));
      EmployedGears(p.gears, d, lists, n, spec.ram, gear);
      OverseenMore(c.servers, was, manager.schedulers, n);
      ValidNow(Tree.WithServer(c, d, n, first));
      AtPlusServer(p, d, spec, first);
    }

    // The server joins the register, gets a scheduler, and is listed by its data center.
    method AddServer(ghost p: Plan, dc: DataCenter, spec: ServerSpec, ghost first: bool)
      returns (server: UUID, unique: bool)
      requires At(p) && dc.base.id in register.actors && register.actors[dc.base.id] == DataCenterOf(dc)
      modifies register, loop`world, dc, dc.base, manager
      ensures server == p.next
      ensures unique <==> spec.name !in p.names
      ensures dc.base.id in p.config.components && dc.base.id in p.config.depth
      ensures unique ==> At(PlusServer(p, dc.base.id, spec, first))
      ensures unique ==> forall u :: u in old(register.actors) ==> u in register.actors && register.actors[u] == old(register.actors[u])
      ensures unique ==> dc.servers == old(dc.servers) + [server]
      ensures forall o :: o in register.Repr() ==> o in old(register.Repr()) || fresh(o)
    {
      hide Held, GearOf, WholeOf, Skeleton, Refines, Joined, Blank, ActorRegister.Repr, Consistent, NewResource,
          Holdings, Tree.WithServer, Fitted, At, PlusServer, Overseen, Gears, Valid;
      AtFacts(p);
      ValidPieces(p.config);
      ghost var before, others := Holdings(), register.actors;
      DataCenterGear(dc);
      InTree(p.config, others, before, p.next, dc);
      var actor;
      actor, unique := Join(AServer, spec.name);
      FittedAmongMore(others, manager.schedulers, p.machines, p.next, actor);
      server := actor.server.base.id;
      CreatedParts(actor);
      if unique {
        Install(p, dc, actor.server, spec, first, others, before);
      }
    }

    lemma ValidNow(c: Config)
      requires Consistent() && Skeleton(c, register.actors, Holdings(), register.serial)
      requires loop.world == Blank(c, register.serial) && c.cloud in register.actors
      requires register.actors[c.cloud] == CloudOf(cloud) && manager.register == register
      requires Overseen(c.servers, manager.schedulers)
      ensures Valid(c)
    {
      hide Consistent, Skeleton, Blank, Overseen, Holdings;
    }

    // What Valid says, piece by piece.
    lemma ValidPieces(c: Config)
      requires Valid(c)
      ensures Consistent() && Skeleton(c, register.actors, Holdings(), register.serial)
      ensures loop.world == Blank(c, register.serial) && c.cloud in register.actors
      ensures register.actors[c.cloud] == CloudOf(cloud) && manager.register == register
      ensures Overseen(c.servers, manager.schedulers)
    {
      HasCloud(c);
      hide Consistent, Skeleton, Blank, Overseen, Holdings;
    }

    lemma DataCenterGear(dc: DataCenter)
      requires dc.base.id in register.actors && register.actors[dc.base.id] == DataCenterOf(dc)
      ensures dc.base.id in Gears() && Gears()[dc.base.id] == Members(dc.servers)
    {}

    lemma EmployedGears(gears: map<UUID, Gear>, d: UUID, list: seq<UUID>, n: UUID, ram: nat, created: Gear)
      requires d in gears && gears[d] == Members(list) && n != d
      ensures gears[n := created][n := Memory(ram)][d := Members(list + [n])] == Listing(gears, d, n, Memory(ram))
    {}

    lemma AtFacts(p: Plan)
      requires At(p)
      ensures Valid(p.config) && register.names == p.names && register.serial == p.next
      ensures Fitted(register.actors, manager.schedulers, p.machines) && Gears() == p.gears
    {
      hide Valid, Fitted, Gears;
    }

    lemma AtPlusServer(p: Plan, d: UUID, spec: ServerSpec, first: bool)
      requires d in p.config.components && d in p.config.depth && Valid(Tree.WithServer(p.config, d, p.next, first))
      requires register.names == p.names[spec.name := p.next] && register.serial == p.next + 1
      requires Fitted(register.actors, manager.schedulers, p.machines + [(p.next, spec.ram)])
      requires Gears() == Listing(p.gears, d, p.next, Memory(spec.ram))
      ensures At(PlusServer(p, d, spec, first))
    {
      hide Valid, Fitted, Tree.WithServer, Gears, Listing;
    }

    lemma AtPlusDataCenter(p: Plan, name: string)
      requires p.config.cloud in p.config.components && p.config.cloud in p.config.depth
      requires Valid(Tree.Below(p.config, p.config.cloud, p.next))
      requires register.names == p.names[name := p.next] && register.serial == p.next + 1
      requires Fitted(register.actors, manager.schedulers, p.machines)
      requires Gears() == Listing(p.gears, p.config.cloud, p.next, Members([]))
      ensures At(PlusDataCenter(p, name))
    {
      hide Valid, Fitted, Tree.Below, Gears, Listing;
    }

    lemma ServingFacts(c: Config, others: map<UUID, Actor>, before: map<UUID, Part>, n: UUID, dc: DataCenter,
        server: Server, first: bool)
      requires Skeleton(c, others, before, n) && n > NIL && dc.base.id in others &&
               others[dc.base.id] == DataCenterOf(dc)
      ensures var d := dc.base.id;
              && d in before && before[d].ResourcePart? && d in c.components && d in c.depth && n != d &&
                  n != c.cloud && n !in before
              && Skeleton(Tree.WithServer(c, d, n, first), others[n := ServerOf(server)], Grow(before, d, n, Some({})), n + 1)
              && Joined(Blank(c, n), AServer, n) == Blank(Tree.WithServer(c, d, n, first), n + 1)
              && Tree.WithServer(c, d, n, first).servers == c.servers + {n}
              && Tree.WithServer(c, d, n, first).cloud == c.cloud
    {
      NewHandle(c, others, before, n);
      InTree(c, others, before, n, dc);
      SkeletonWithServer(c, others, before, n, dc.base.id, server, first);
      BlankBelow(c, dc.base.id, n);
      EitherFirst(c, dc.base.id, n, first);
      hide Skeleton, Blank, Grow, Joined;
    }

    lemma InTree(c: Config, others: map<UUID, Actor>, before: map<UUID, Part>, n: UUID, dc: DataCenter)
      requires Skeleton(c, others, before, n) && dc.base.id in others && others[dc.base.id] == DataCenterOf(dc)
      ensures dc.base.id in c.components && dc.base.id in c.depth && c.depth[dc.base.id] == 1
    {
      hide AllFits, Tree.Listed, Tree.Hung;
    }

    // The servers of one data center, in order; a repeated name ends the whole set-up.
    method AddServers(ghost p: Plan, dc: DataCenter, specs: seq<ServerSpec>, ghost opening: bool,
        ghost taken: set<string>, ghost names: seq<string>)
      returns (unique: bool)
      requires At(p) && dc.base.id in register.actors && register.actors[dc.base.id] == DataCenterOf(dc) &&
               dc.servers == []
      requires p.names.Keys == With(taken, names) && AllNew(taken, names)
      modifies register, loop`world, dc, dc.base, manager
      ensures unique <==> AllNew(taken, names + ServerNames(specs))
      ensures var q := PlusServers(p, dc.base.id, specs, opening);
              unique ==>
                && At(q) && q.names.Keys == With(taken, names + ServerNames(specs))
                && Onwards(p, q) && |dc.servers| == |specs| && (forall x :: x in dc.servers ==> x in q.config.servers)
                && q.config.first == if opening && specs != [] then dc.servers[0] else p.config.first
      ensures forall o :: o in register.Repr() ==> o in old(register.Repr()) || fresh(o)
      ensures unique ==> forall u :: u in old(register.actors) ==> u in register.actors && register.actors[u] == old(register.actors[u])
    {
      hide At, With, AllNew, ActorRegister.Repr, PlusServer;
      unique := true;
      ghost var q, d := p, dc.base.id;
      assert names + ServerNames(specs[..0]) == names;
      for i := 0 to |specs|
        invariant At(q) && q == PlusServers(p, d, specs[..i], opening) && Onwards(p, q)
        invariant |dc.servers| == i && forall x :: x in dc.servers ==> x in q.config.servers
        invariant q.config.first == if opening && i > 0 then dc.servers[0] else p.config.first
        invariant forall u :: u in old(register.actors) ==> u in register.actors && register.actors[u] == old(register.actors[u])
        invariant forall o :: o in register.Repr() ==> o in old(register.Repr()) || fresh(o)
        invariant AllNew(taken, names + ServerNames(specs[..i])) &&
                 q.names.Keys == With(taken, names + ServerNames(specs[..i]))
      {
        assert names + ServerNames(specs[..i + 1]) == names + ServerNames(specs[..i]) + [specs[i].name];
        OneNewName(taken, names + ServerNames(specs[..i]), specs[i].name);
        ghost var repr := register.Repr();
        var server;
        label Before:
        server, unique := AddServer(q, dc, specs[i], opening && i == 0);
        assert repr == old@Before(register.Repr());
        if !unique {
          Repeated(taken, names, specs, i);
          return;
        }
        assert specs[..i + 1][..i] == specs[..i];
        PlusServerFacts(q, d, specs[i], opening && i == 0);
        q := PlusServer(q, d, specs[i], opening && i == 0);
      }
      assert specs[..|specs|] == specs;
    }

    lemma Repeated(taken: set<string>, names: seq<string>, specs: seq<ServerSpec>, i: nat)
      requires i < |specs| && !AllNew(taken, names + ServerNames(specs[..i + 1]))
      ensures !AllNew(taken, names + ServerNames(specs))
    {
      var a, b := names + ServerNames(specs[..i + 1]), ServerNames(specs[i + 1..]);
      assert names + ServerNames(specs) == a + b;
      if AllNew(taken, a + b) {
        NewPrefix(taken, a, b);
      }
    }

    // The first data center, and whether it has a server: VMs then go to the first one.
    ghost predicate Opened(c: Config, staffed: bool)
      reads register, cloud
      reads set u | u in register.actors && register.actors[u].DataCenterOf? :: register.actors[u].dataCenter
    {
      && cloud.vmStorage == c.storage && cloud.dataCenters != []
      && cloud.dataCenters[0] in register.actors && register.actors[cloud.dataCenters[0]].DataCenterOf?
      && var dc := register.actors[cloud.dataCenters[0]].dataCenter;
      && (staffed <==> dc.servers != []) && (staffed ==> dc.servers[0] == c.first && c.first in c.servers)
    }

    // One data center with its servers.
    method AddBranch(ghost p: Plan, spec: DataCenterSpec, ghost staffed: bool, ghost taken: set<string>,
        ghost names: seq<string>)
      returns (unique: bool)
      requires At(p) && cloud.vmStorage == p.config.storage
      requires if cloud.dataCenters == [] then staffed == (spec.servers != []) else Opened(p.config, staffed)
      requires p.names.Keys == With(taken, names) && AllNew(taken, names)
      modifies register, loop`world, cloud, cloud.base, manager
      ensures unique <==> AllNew(taken, names + [spec.name] + ServerNames(spec.servers))
      ensures var q := PlusBranch(p, spec, old(cloud.dataCenters) == []);
              unique ==>
                && At(q) && q.names.Keys == With(taken, names + [spec.name] + ServerNames(spec.servers))
                && Onwards(p, q) && Opened(q.config, staffed)
      ensures forall o :: o in register.Repr() ==> o in old(register.Repr()) || fresh(o)
    {
      hide At, With, AllNew, PlusDataCenter, PlusServers, ActorRegister.Repr;
      ghost var opening, others := cloud.dataCenters == [], register.actors;
      OneNewName(taken, names, spec.name);
      HasTrunk(p);
      var dc;
      dc, unique := AddDataCenter(p, spec.name);
      if !unique {
        Clash(taken, names, spec);
        return;
      }
      PlusDataCenterFacts(p, spec.name);
      ghost var repr := register.Repr();
      label Before:
      unique := AddServers(PlusDataCenter(p, spec.name), dc, spec.servers, opening, taken, names + [spec.name]);
      assert repr == old@Before(register.Repr());
    }

    lemma HasTrunk(p: Plan)
      requires At(p)
      ensures p.config.cloud in p.config.components && p.config.cloud in p.config.depth
    {
      hide Held, GearOf, WholeOf, Fitted, Blank, Tree.Listed, Tree.Hung, AllFits;
    }

    lemma Clash(taken: set<string>, names: seq<string>, spec: DataCenterSpec)
      requires !AllNew(taken, names + [spec.name])
      ensures !AllNew(taken, names + [spec.name] + ServerNames(spec.servers))
    {
      if AllNew(taken, names + [spec.name] + ServerNames(spec.servers)) {
        NewPrefix(taken, names + [spec.name], ServerNames(spec.servers));
      }
    }

    // Every data center of the configuration, in order.
    method ParseResources(ghost p: Plan, dcs: seq<DataCenterSpec>, ghost taken: set<string>) returns (unique: bool)
      requires At(p) && cloud.vmStorage == p.config.storage && cloud.dataCenters == [] && p.names.Keys == taken
      modifies register, loop`world, cloud, cloud.base, manager
      ensures unique <==> AllNew(taken, NamesOf(dcs))
      ensures var q := Planned(p, dcs);
              unique ==>
                && At(q) && Onwards(p, q)
                && if dcs == [] then cloud.dataCenters == [] else cloud.dataCenters != [] && Opened(q.config, Staffed(dcs))
      ensures forall o :: o in register.Repr() ==> o in old(register.Repr()) || fresh(o)
    {
      hide At, Opened, With, AllNew, NamesOf, ServerNames, PlusBranch, ActorRegister.Repr;
      unique := true;
      ghost var q := p;
      NoNames(taken);
      assert dcs[..0] == [];
      for i := 0 to |dcs|
        invariant At(q) && q == Planned(p, dcs[..i]) && Onwards(p, q) && cloud.vmStorage == q.config.storage
        invariant if i == 0 then cloud.dataCenters == [] else cloud.dataCenters != [] && Opened(q.config, Staffed(dcs))
        invariant forall o :: o in register.Repr() ==> o in old(register.Repr()) || fresh(o)
        invariant AllNew(taken, NamesOf(dcs[..i])) && q.names.Keys == With(taken, NamesOf(dcs[..i]))
      {
        OneBranch(taken, dcs, i);
        ghost var repr := register.Repr();
        label Before:
        unique := AddBranch(q, dcs[i], Staffed(dcs), taken, NamesOf(dcs[..i]));
        assert repr == old@Before(register.Repr());
        if !unique {
          return;
        }
        assert dcs[..i + 1][..i] == dcs[..i];
        q := PlusBranch(q, dcs[i], i == 0);
        IsOpened(q.config, Staffed(dcs));
      }
      assert dcs[..|dcs|] == dcs;
    }

    lemma IsOpened(c: Config, staffed: bool)
      requires Opened(c, staffed)
      ensures cloud.dataCenters != [] && cloud.vmStorage == c.storage
    {}
  }

  // The same cloud and storage, and at least the same servers.
  ghost predicate Onwards(p: Plan, q: Plan) {
    q.config.cloud == p.config.cloud && q.config.storage == p.config.storage && p.config.servers <= q.config.servers
  }

  lemma PlusServerFacts(p: Plan, d: UUID, spec: ServerSpec, first: bool)
    requires d in p.config.components && d in p.config.depth
    ensures var q := PlusServer(p, d, spec, first);
            && Onwards(p, q) && p.next in q.config.servers && q.names.Keys == p.names.Keys + {spec.name}
            && q.config.first == if first then p.next else p.config.first
  {}

  lemma PlusDataCenterFacts(p: Plan, name: string)
    requires p.config.cloud in p.config.components && p.config.cloud in p.config.depth
    ensures var q := PlusDataCenter(p, name);
            && Onwards(p, q) && q.names.Keys == p.names.Keys + {name}
            && q.config.first == p.config.first && q.config.servers == p.config.servers
  {}

  lemma NoNames(taken: set<string>)
    ensures NamesOf([]) == [] && AllNew(taken, []) && With(taken, []) == taken
  {}

  lemma OneBranch(taken: set<string>, dcs: seq<DataCenterSpec>, i: nat)
    requires i < |dcs|
    ensures NamesOf(dcs[..i + 1]) == NamesOf(dcs[..i]) + [dcs[i].name] + ServerNames(dcs[i].servers)
    ensures dcs[..0] == []
    ensures !AllNew(taken, NamesOf(dcs[..i + 1])) ==> !AllNew(taken, NamesOf(dcs))
  {
    hide AllNew, ServerNames;
    assert dcs[..i + 1][..i] == dcs[..i];
    PrefixNames(dcs, i + 1);
    var rest :| NamesOf(dcs) == NamesOf(dcs[..i + 1]) + rest;
    if AllNew(taken, NamesOf(dcs)) {
      NewPrefix(taken, NamesOf(dcs[..i + 1]), rest);
    }
  }

  lemma {:induction false} PrefixNames(dcs: seq<DataCenterSpec>, i: nat)
    requires i <= |dcs|
    ensures exists rest :: NamesOf(dcs) == NamesOf(dcs[..i]) + rest
  {
    if i == |dcs| {
      assert dcs[..i] == dcs;
      assert NamesOf(dcs) == NamesOf(dcs[..i]) + [];
    } else {
      var init, last := dcs[..|dcs| - 1], dcs[|dcs| - 1];
      PrefixNames(init, i);
      assert init[..i] == dcs[..i];
      var rest :| NamesOf(init) == NamesOf(init[..i]) + rest;
      assert NamesOf(dcs) == NamesOf(dcs[..i]) + (rest + [last.name] + ServerNames(last.servers));
    }
  }

  // ----- handing over -----

  lemma AllBelow(c: Config, parts: map<UUID, Part>, next: UUID)
    requires AllFits(c, parts, next)
    ensures forall u :: u in parts ==> u < next
  {
    hide Fits, Blank;
  }

  lemma HandlesBelow(c: Config, actors: map<UUID, Actor>, parts: map<UUID, Part>, next: UUID)
    requires Skeleton(c, actors, parts, next)
    ensures c.storage < next && forall r :: r in c.components ==> r < next
  {
    AllBelow(c, parts, next);
    hide AllFits, Tree.IsTree;
    assert c.storage in parts && forall r :: r in c.components ==> r in parts;
  }

  // A world set up over a tree is in the initial state of the state machine.
  lemma BlankIsInitial(c: Config, actors: map<UUID, Actor>, parts: map<UUID, Part>, next: UUID)
    requires Skeleton(c, actors, parts, next)
    ensures (WellFormed(c) <==> c.first in c.servers) && Initial(c, Blank(c, next))
  {
    hide AllFits, Kinds, Tree.IsTree, WellFormed, Blank, Initial;
    HandlesBelow(c, actors, parts, next);
    Tree.TreeIsWellFormed(c);
    NothingHasHappened(c, next);
  }

  lemma NothingHasHappened(c: Config, next: UUID)
    requires c.storage < next && forall r :: r in c.components ==> r < next
    ensures Initial(c, Blank(c, next))
  {}

  lemma SkeletonComplete(c: Config, actors: map<UUID, Actor>, parts: map<UUID, Part>, next: UUID)
    requires Skeleton(c, actors, parts, next)
    ensures Complete(c, Blank(c, next), actors)
  {
    hide Fits, AllFits, Tree.Listed, Tree.Hung;
  }

  // The cloud and the storage: the smallest tree.
  method Begin() returns (site: Site)
    ensures fresh(site) && fresh(site.loop) && fresh(site.register) && fresh(site.manager) && fresh(site.cloud) &&
             fresh(site.cloud.base)
    ensures site.At(FirstPlan()) && site.cloud.dataCenters == [] && site.cloud.vmStorage == 2
    ensures fresh(site.register.Repr())
  {
    hide Blank, Held, GearOf, WholeOf, Refines, Skeleton, ActorRegister.Repr, PartsOf, Filed, ActorRegister.Valid, EventLoop.Valid,
        NewResource, PartsAmong, GearsAmong, Site.At, Site.Gears, Site.Holdings;
    var loop, register, cloud, storage := Found();
    var manager := new ServerSchedulerManager(register);
    site := new Site(loop, register, manager, cloud);
    BareSkeleton(cloud, storage);
    TwoActors(cloud, storage);
    register.ReprIs();
    NoLoop(CloudOf(cloud), loop);
    NoLoop(StorageOf(storage), loop);
    site.SameWholes(FirstWholes());
    FirstParts();
    AtFirst(site);
  }

  ghost function FirstWholes(): map<UUID, Whole> {
    map[1 := Whole(NewResource(None), Members([])), 2 := Whole(StoragePart(Storage(true, map[])), NoGear)]
  }

  lemma FirstParts()
    ensures PartsAmong(FirstWholes()) == map[1 := NewResource(None), 2 := StoragePart(Storage(true, map[]))]
    ensures GearsAmong(FirstWholes()) == map[1 := Members([]), 2 := NoGear]
  {}

  lemma AtFirst(site: Site)
    requires site.Valid(Tree.Bare(1, 2)) && site.register.names == map["cloud-1" := 1, "vm-storage-1" := 2]
    requires site.register.serial == 3 && site.manager.schedulers == [] && site.Gears() == map[1 := Members([]), 2 := NoGear]
    ensures site.At(FirstPlan())
  {
    hide Site.Valid, Site.Gears;
  }

  lemma TwoActors(cloud: Cloud, storage: VMStorage)
    ensures PartsOf(map[1 := CloudOf(cloud), 2 := StorageOf(storage)]) <= {cloud, cloud.base, storage}
  {
    PartsMore(map[], 1, CloudOf(cloud));
    PartsMore(map[1 := CloudOf(cloud)], 2, StorageOf(storage));
  }

  // What the site has come to when every data center is there.
  ghost predicate Built(site: Site, p: Plan, staffed: bool)
    reads site.loop, site.register, site.register.Repr(), site.manager, site.cloud
    reads set u | u in site.register.actors && site.register.actors[u].ServerOf? :: site.register.actors[u].server
    reads set u | u in site.register.actors && site.register.actors[u].DataCenterOf? :: site.register.actors[u].dataCenter
  {
    && site.At(p) && p.config.storage == 2 && p.config.cloud == 1
    && if site.cloud.dataCenters == [] then !staffed else site.Opened(p.config, staffed)
  }

  // The world takes over the site.
  method Open(site: Site, scheduler: FirstAvailableScheduler, ghost p: Plan, ghost staffed: bool)
    returns (world: World)
    requires Built(site, p, staffed)
    requires scheduler.register == site.register && scheduler.monitored == 1
    ensures world.Mirrored() && Initial(p.config, world.loop.world) && AsPlanned(world, p) && world.config == p.config
    ensures world.Valid() <==> staffed
    ensures world.loop == site.loop && world.register == site.register
  {
    hide Held, GearOf, WholeOf, Skeleton, Blank, Initial, World.Valid, ActorRegister.Repr, World.Mirrored;
    ghost var before := site.Wholes();
    site.WholesAt();
    world := new World(site.loop, site.register, site.manager, scheduler, 2, p.config);
    forall u | u in site.register.actors
      ensures WholeOf(site.register.actors[u]) == before[u]
    {
      NoLoop(site.register.actors[u], site.loop);
    }
    site.SameWholes(before);
    Delivered(site, p, world, staffed);
  }

  // The world is what the plan says: its state, the tree of resources, the names, the memory and the schedulers.
  ghost predicate AsPlanned(world: World, p: Plan)
    reads world.loop, world.manager, world.register, world.register.Repr()
    reads set u | u in world.register.actors && world.register.actors[u].ServerOf? :: world.register.actors[u].server
  {
    && world.loop.world == Blank(p.config, p.next) && world.config == p.config && world.register.names == p.names && world.register.serial == p.next
    && world.Gears() == p.gears && Fitted(world.register.actors, world.manager.schedulers, p.machines)
  }

  // The cloud and the storage, then the configuration; a name used twice ends it. The world is
  // fit to run exactly if there is a server for VMs to go to.
  method Setup(dcs: seq<DataCenterSpec>) returns (world: Option<World>)
    ensures world.Some? <==> AllNew(FIXED_NAMES, NamesOf(dcs))
    ensures world.Some? ==>
              && world.value.Mirrored() && Initial(world.value.config, world.value.loop.world)
              && AsPlanned(world.value, Planned(FirstPlan(), dcs)) && LaidOut(Planned(FirstPlan(), dcs), dcs)
              && (world.value.Valid() <==> Staffed(dcs))
              && fresh(world.value.loop) && fresh(world.value.register) && fresh(world.value.register.Repr())
  {
    hide WellFormed, Initial, AllNew, NamesOf, Sound, Site.At, Site.Opened, World.Valid, World.Mirrored, Skeleton, Held, GearOf, WholeOf,
        Staffed, Planned, AsPlanned, LaidOut, ActorRegister.Repr;
    var site := Begin();
    var scheduler := PlacingScheduler(site);
    ghost var repr := site.register.Repr();
    label Before:
    var unique := site.ParseResources(FirstPlan(), dcs, FIXED_NAMES);
    if !unique {
      return None;
    }
    EmptyUnstaffed(dcs);
    ConfigurationLaidOut(dcs);
    assert repr == old@Before(site.register.Repr());
    assert forall o :: o in site.register.Repr() ==> o in repr || fresh(o);
    var w := Open(site, scheduler, Planned(FirstPlan(), dcs), Staffed(dcs));
    world := Some(w);
  }

  lemma EmptyUnstaffed(dcs: seq<DataCenterSpec>)
    ensures dcs == [] ==> !Staffed(dcs)
  {}

  method PlacingScheduler(site: Site) returns (scheduler: FirstAvailableScheduler)
    requires site.At(FirstPlan())
    ensures scheduler.register == site.register && scheduler.monitored == 1
    ensures site.At(FirstPlan())
  {
    hide Held, GearOf, WholeOf, Skeleton, Blank, ActorRegister.Repr;
    ghost var before := site.Wholes();
    site.WholesAt();
    scheduler := new FirstAvailableScheduler(site.register, 1);
    forall u | u in site.register.actors
      ensures WholeOf(site.register.actors[u]) == before[u]
    {
      NoLoop(site.register.actors[u], site.loop);
    }
    site.SameWholes(before);
  }

  // The world of a site, before anything has happened in it.
  ghost predicate Hands(site: Site, c: Config, w: World) {
    && w.loop == site.loop && w.register == site.register && w.manager == site.manager && w.config == c
    && w.storageHandle == 2 && w.scheduler.register == site.register && w.scheduler.monitored == 1
  }

  lemma DeliveredMirror(site: Site, c: Config, w: World)
    requires site.Valid(c) && Hands(site, c, w)
    ensures w.Mirrored()
  {
    hide Fits, Held, GearOf, WholeOf, Blank, Kinds, Sapling, Complete, ActorRegister.Repr, Refines, Filed;
    SkeletonComplete(c, site.register.actors, site.Holdings(), site.register.serial);
  }

  lemma DeliveredWiring(site: Site, p: Plan, w: World, staffed: bool)
    requires Built(site, p, staffed) && Hands(site, p.config, w)
    ensures w.Wired() <==> staffed
  {
    var c := p.config;
    hide Fits, Held, GearOf, WholeOf, Blank, Skeleton, ActorRegister.Repr, Refines, Filed;
    HasTheCloud(c, site.register.actors, site.Holdings(), site.register.serial);
  }

  lemma HasTheCloud(c: Config, actors: map<UUID, Actor>, parts: map<UUID, Part>, next: UUID)
    requires Skeleton(c, actors, parts, next)
    ensures c.cloud in actors && forall u :: u in c.servers ==> u in actors && actors[u].ServerOf?
    ensures NoDelaysFrom(c, next)
  {
    hide Fits, AllFits, Tree.Listed, Tree.Hung;
  }

  lemma Delivered(site: Site, p: Plan, w: World, staffed: bool)
    requires Built(site, p, staffed) && Hands(site, p.config, w)
    ensures w.Mirrored() && Initial(p.config, w.loop.world) && (w.Valid() <==> staffed) && AsPlanned(w, p)
  {
    var c := p.config;
    hide Fits, Held, GearOf, WholeOf, Skeleton, Blank, Initial, WellFormed, Reachable, Sound, World.Mirrored, World.Wired,
        ActorRegister.Repr, Refines, Filed, Complete, NoDelaysFrom;
    DeliveredMirror(site, c, w);
    DeliveredWiring(site, p, w, staffed);
    BlankIsInitial(c, site.register.actors, site.Holdings(), site.register.serial);
    HasTheCloud(c, site.register.actors, site.Holdings(), site.register.serial);
    InitiallyReachable(c, w.loop.world);
    BlankNext(c, site.register.serial);
  }

  lemma BlankNext(c: Config, next: UUID)
    ensures Blank(c, next).next == next
  {}
}
