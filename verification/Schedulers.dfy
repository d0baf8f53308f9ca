/**
 The schedulers a world update runs: one greedy scheduler for each server, which shares out its
 memory, and the cloud scheduler, which places every pending VM on the first server.
 */
module Schedulers {
  import opened Types
  import opened BucketQueue
  import opened Simulator
  import opened Loop
  import opened ResourceActors
  import opened Register

  // ----- greedy sharing of memory -----

  ghost predicate Asks(demand: map<UUID, nat>, order: seq<UUID>) {
    forall v :: v in order ==> v in demand
  }

  function Total(demand: map<UUID, nat>, vs: seq<UUID>): nat
    requires Asks(demand, vs)
  {
    if vs == [] then 0
    else
      assert vs == vs[..|vs| - 1] + [vs[|vs| - 1]];
      Total(demand, vs[..|vs| - 1]) + demand[vs[|vs| - 1]]
  }

  // What is left of the memory, and who got some, once the guests were asked in this order.
  function Remaining(ram: nat, demand: map<UUID, nat>, order: seq<UUID>): (r: nat)
    requires Asks(demand, order)
    ensures r <= ram
  {
    if order == [] then ram
    else
      assert order == order[..|order| - 1] + [order[|order| - 1]];
      var left, asked := Remaining(ram, demand, order[..|order| - 1]), demand[order[|order| - 1]];
      if left >= asked then left - asked else left
  }

  function Saturated(ram: nat, demand: map<UUID, nat>, order: seq<UUID>): (vs: seq<UUID>)
    requires Asks(demand, order)
    ensures forall v :: v in vs ==> v in order
  {
    if order == [] then []
    else
      assert order == order[..|order| - 1] + [order[|order| - 1]];
      var init, last := order[..|order| - 1], order[|order| - 1];
      Saturated(ram, demand, init) + if Remaining(ram, demand, init) >= demand[last] then [last] else []
  }

  lemma TotalMore(demand: map<UUID, nat>, vs: seq<UUID>, v: UUID)
    requires Asks(demand, vs) && v in demand
    ensures Total(demand, vs + [v]) == Total(demand, vs) + demand[v]
  {
    assert (vs + [v])[..|vs|] == vs;
  }

  lemma AskOneMore(ram: nat, demand: map<UUID, nat>, init: seq<UUID>, v: UUID)
    requires Asks(demand, init) && v in demand
    ensures Remaining(ram, demand, init + [v]) ==
            var left := Remaining(ram, demand, init); if left >= demand[v] then left - demand[v] else left
    ensures Saturated(ram, demand, init + [v]) ==
            if Remaining(ram, demand, init) >= demand[v] then Saturated(ram, demand, init) + [v] else Saturated(ram, demand, init)
  {
    assert (init + [v])[..|init|] == init;
  }

  // No memory is lost or invented, whatever the order.
  lemma {:induction false} MemoryConserved(ram: nat, demand: map<UUID, nat>, order: seq<UUID>)
    requires Asks(demand, order)
    ensures Remaining(ram, demand, order) + Total(demand, Saturated(ram, demand, order)) == ram
  {
    if order != [] {
      var init, last := order[..|order| - 1], order[|order| - 1];
      assert order == init + [last];
      MemoryConserved(ram, demand, init);
      hide Remaining, Saturated, Total;
      AskOneMore(ram, demand, init, last);
      TotalMore(demand, Saturated(ram, demand, init), last);
    }
  }

  // Whoever got nothing asked for more than is left in the end.
  lemma {:induction false} SharingIsMaximal(ram: nat, demand: map<UUID, nat>, order: seq<UUID>, v: UUID)
    requires Asks(demand, order) && v in order && v !in Saturated(ram, demand, order)
    ensures demand[v] > Remaining(ram, demand, order)
  {
    var init, last := order[..|order| - 1], order[|order| - 1];
    assert order == init + [last];
    if v in init {
      SharingIsMaximal(ram, demand, init, v);
    }
  }

  // When the total fits everybody gets what they asked for.
  lemma {:induction false} AllSaturatedIfTheyFit(ram: nat, demand: map<UUID, nat>, order: seq<UUID>)
    requires Asks(demand, order) && Total(demand, order) <= ram
    ensures Saturated(ram, demand, order) == order
    ensures Remaining(ram, demand, order) == ram - Total(demand, order)
  {
    if order != [] {
      var init, last := order[..|order| - 1], order[|order| - 1];
      assert order == init + [last];
      AllSaturatedIfTheyFit(ram, demand, init);
    }
  }

  lemma NobodyAsked(ram: nat, demand: map<UUID, nat>)
    ensures Remaining(ram, demand, []) == ram && Saturated(ram, demand, []) == []
  {}

  lemma {:induction false} TotalWithout(demand: map<UUID, nat>, q: seq<UUID>, i: nat)
    requires Asks(demand, q) && i < |q|
    ensures Asks(demand, q[..i] + q[i + 1..])
    ensures Total(demand, q) == demand[q[i]] + Total(demand, q[..i] + q[i + 1..])
    decreases |q|
  {
    var n := |q| - 1;
    assert q[..n] + [q[n]] == q;
    if i == n {
      assert q[..i] + q[i + 1..] == q[..n];
    } else {
      TotalWithout(demand, q[..n], i);
      var r := q[..n][..i] + q[..n][i + 1..];
      assert q[..i] + q[i + 1..] == r + [q[n]];
      TotalMore(demand, r, q[n]);
    }
  }

  lemma Nobody(q: seq<UUID>, s: set<UUID>)
    requires Enumerates(q, s) && forall x :: x !in s
    ensures q == []
  {
    if q != [] {
      FirstIsIn(q);
    }
  }

  lemma FirstIsIn(q: seq<UUID>)
    requires q != []
    ensures q[0] in q
  {}

  // Two orders of the same guests ask for the same in total.
  lemma {:induction false} SameTotal(demand: map<UUID, nat>, p: seq<UUID>, q: seq<UUID>, guests: set<UUID>)
    requires Enumerates(p, guests) && Enumerates(q, guests) && Asks(demand, p) && Asks(demand, q)
    ensures Total(demand, p) == Total(demand, q)
    decreases |p|
  {
    if p == [] {
      Nobody(q, guests);
    } else {
      var n := |p| - 1;
      var last := p[n];
      assert last in p && last in q;
      var i :| 0 <= i < |q| && q[i] == last;
      var p', q' := p[..n], q[..i] + q[i + 1..];
      assert p == p' + [last];
      TotalWithout(demand, q, i);
      TotalMore(demand, p', last);
      assert Enumerates(p', guests - {last});
      Removed(q, i, guests);
      SameTotal(demand, p', q', guests - {last});
    }
  }

  lemma Removed(q: seq<UUID>, i: nat, s: set<UUID>)
    requires Enumerates(q, s) && i < |q|
    ensures Enumerates(q[..i] + q[i + 1..], s - {q[i]})
  {
    var r := q[..i] + q[i + 1..];
    assert forall k :: 0 <= k < |r| ==> r[k] == if k < i then q[k] else q[k + 1];
    forall x
      ensures x in r <==> x in s - {q[i]}
    {
      if x in s && x != q[i] {
        var k :| 0 <= k < |q| && q[k] == x;
        assert r[if k < i then k else k - 1] == x;
      }
    }
  }

  // What a set of guests asks for together, in any order.
  ghost function TotalOf(demand: map<UUID, nat>, guests: set<UUID>): nat
    requires guests <= demand.Keys
  {
    Total(demand, Enumeration(guests))
  }

  // Nobody who was asked once is served twice.
  lemma {:induction false} ServedOnce(ram: nat, demand: map<UUID, nat>, order: seq<UUID>)
    requires Asks(demand, order) && Distinct(order)
    ensures Distinct(Saturated(ram, demand, order))
  {
    if order != [] {
      var init, last := order[..|order| - 1], order[|order| - 1];
      assert order == init + [last];
      assert last !in init;
      ServedOnce(ram, demand, init);
    }
  }

  // A sharing of memory among everybody who asks: none lost, nobody served twice, nobody refused
  // who could still be served, and nobody refused at all when everybody fits.
  ghost predicate Sharing(ram: nat, demand: map<UUID, nat>, left: nat, saturated: seq<UUID>) {
    && Asks(demand, saturated) && Distinct(saturated)
    && left + Total(demand, saturated) == ram
    && (forall v :: v in demand && v !in saturated ==> demand[v] > left)
    && (TotalOf(demand, demand.Keys) <= ram ==> forall v :: v in demand ==> v in saturated)
  }

  // Asking everybody once, in any order, makes a sharing.
  lemma SharesOut(ram: nat, demand: map<UUID, nat>, order: seq<UUID>)
    requires Enumerates(order, demand.Keys)
    ensures Sharing(ram, demand, Remaining(ram, demand, order), Saturated(ram, demand, order))
  {
    MemoryConserved(ram, demand, order);
    ServedOnce(ram, demand, order);
    forall v | v in demand && v !in Saturated(ram, demand, order)
      ensures demand[v] > Remaining(ram, demand, order)
    {
      SharingIsMaximal(ram, demand, order, v);
    }
    SameTotal(demand, order, Enumeration(demand.Keys), demand.Keys);
    if TotalOf(demand, demand.Keys) <= ram {
      AllSaturatedIfTheyFit(ram, demand, order);
    }
  }

  // What is left is the memory less what the set of saturated guests asks for together.
  lemma LeftBySet(ram: nat, demand: map<UUID, nat>, left: nat, saturated: seq<UUID>)
    requires Sharing(ram, demand, left, saturated)
    ensures var guests := set v | v in saturated; guests <= demand.Keys && left == ram - TotalOf(demand, guests)
  {
    var guests := set v | v in saturated;
    SameTotal(demand, saturated, Enumeration(guests), guests);
  }

  // Every sharing is what asking in some order comes to: first those who got their memory, then the rest.
  lemma SharingIsGreedy(ram: nat, demand: map<UUID, nat>, left: nat, saturated: seq<UUID>) returns (order: seq<UUID>)
    requires Sharing(ram, demand, left, saturated)
    ensures Enumerates(order, demand.Keys)
    ensures left == Remaining(ram, demand, order) && saturated == Saturated(ram, demand, order)
  {
    hide TotalOf, Remaining, Saturated, Total;
    var rest := Enumeration(demand.Keys - set v | v in saturated);
    order := saturated + rest;
    OneThenTheOther(saturated, rest, demand.Keys);
    AllSaturatedIfTheyFit(ram, demand, saturated);
    NoneServed(ram, demand, saturated, rest);
  }

  lemma OneThenTheOther(p: seq<UUID>, q: seq<UUID>, s: set<UUID>)
    requires Distinct(p) && Enumerates(q, s - set v | v in p) && forall v :: v in p ==> v in s
    ensures Enumerates(p + q, s)
  {
    var r := p + q;
    forall i, j | 0 <= i < j < |r|
      ensures r[i] != r[j]
    {
      if i < |p| <= j {
        assert r[i] in p && r[j] in q;
      }
    }
  }

  lemma {:induction false} NoneServed(ram: nat, demand: map<UUID, nat>, first: seq<UUID>, rest: seq<UUID>)
    requires Asks(demand, first) && Asks(demand, rest)
    requires forall v :: v in rest ==> demand[v] > Remaining(ram, demand, first)
    ensures Asks(demand, first + rest)
    ensures Remaining(ram, demand, first + rest) == Remaining(ram, demand, first)
    ensures Saturated(ram, demand, first + rest) == Saturated(ram, demand, first)
  {
    hide Remaining, Saturated;
    if rest == [] {
      assert first + rest == first;
    } else {
      var init, last := rest[..|rest| - 1], rest[|rest| - 1];
      assert rest == init + [last];
      NoneServed(ram, demand, first, init);
      AskOneMore(ram, demand, first + init, last);
      assert (first + init) + [last] == first + rest;
    }
  }

  class GreedyServerScheduler {
    const sharedResource: UUID
    const register: ActorRegister

    constructor (serverHandle: UUID, register: ActorRegister)
      ensures sharedResource == serverHandle && this.register == register
    {
      sharedResource, this.register := serverHandle, register;
    }

    // Every lookup the schedule makes finds a server, and VMs with a workload model.
    ghost predicate Ready()
      reads register, register.Repr()
    {
      && sharedResource in register.actors && register.actors[sharedResource].ServerOf?
      && forall v :: v in register.actors[sharedResource].server.guests ==>
           v in register.actors && register.actors[v].VMOf? && register.actors[v].vm.workload.Some?
    }

    ghost function Demand(now: int): map<UUID, nat>
      requires Ready()
      reads register, register.Repr()
    {
      map v | v in register.actors[sharedResource].server.guests :: register.actors[v].vm.workload.value(now)
    }

    ghost predicate Shares(now: int, left: nat, saturated: seq<UUID>)
      requires Ready()
      reads register, register.Repr()
    {
      Sharing(register.actors[sharedResource].server.ram, Demand(now), left, saturated)
    }

    method UpdateSchedule(now: int) returns (remainingRam: nat, saturated: seq<UUID>)
      requires Ready()
      ensures Shares(now, remainingRam, saturated)
    {
      hide Remaining, Saturated, Total;
      var server := register.actors[sharedResource].server;
      ghost var demand := Demand(now);
      var remaining := server.guests;
      ghost var order := [];
      remainingRam, saturated := server.ram, [];
      NobodyAsked(server.ram, demand);
      while remaining != {}
        invariant remaining <= server.guests && Distinct(order)
        invariant forall v :: v in order <==> v in server.guests - remaining
        invariant Asks(demand, order)
        invariant remainingRam == Remaining(server.ram, demand, order)
        invariant saturated == Saturated(server.ram, demand, order)
      {
        var vmHandle :| vmHandle in remaining;
        var vm := register.actors[vmHandle].vm;
        var required := vm.GetWorkload(now);
        AskOneMore(server.ram, demand, order, vmHandle);
        if remainingRam >= required {
          remainingRam := remainingRam - required;
          saturated := saturated + [vmHandle];
        }
        assert vmHandle !in order;
        order := order + [vmHandle];
        remaining := remaining - {vmHandle};
      }
      assert demand.Keys == server.guests;
      SharesOut(server.ram, demand, order);
      assert Demand(now) == demand;
    }
  }

  class ServerSchedulerManager {
    const register: ActorRegister
    var schedulers: seq<GreedyServerScheduler>

    constructor (register: ActorRegister)
      ensures this.register == register && schedulers == []
    {
      this.register := register;
      schedulers := [];
    }

    method Make(serverHandle: UUID)
      modifies this`schedulers
      ensures |schedulers| == |old(schedulers)| + 1 && schedulers[..|old(schedulers)|] == old(schedulers)
      ensures schedulers[|old(schedulers)|].sharedResource == serverHandle
      ensures schedulers[|old(schedulers)|].register == register
    {
      var scheduler := new GreedyServerScheduler(serverHandle, register);
      schedulers := schedulers + [scheduler];
    }

    // Runs every server's scheduler. The sharings only go to the log; they are returned here.
    method ScheduleAll(now: int) returns (left: seq<nat>, saturated: seq<seq<UUID>>)
      requires forall i :: 0 <= i < |schedulers| ==> schedulers[i].Ready()
      ensures |left| == |saturated| == |schedulers|
      ensures forall i :: 0 <= i < |schedulers| ==> old(schedulers[i].Shares(now, left[i], saturated[i]))
    {
      left, saturated := [], [];
      for i := 0 to |schedulers|
        invariant |left| == |saturated| == i
        invariant forall j :: 0 <= j < i ==> old(schedulers[j].Shares(now, left[j], saturated[j]))
      {
        var remainingRam, granted := schedulers[i].UpdateSchedule(now);
        assert schedulers[i].Demand(now) == old(schedulers[i].Demand(now));
        left, saturated := left + [remainingRam], saturated + [granted];
      }
    }
  }

  // ----- placing pending VMs -----

  lemma ScanMore(c: Config, s: State, order: seq<UUID>, v: UUID)
    ensures Scan(c, s, order + [v]) == if Pending(s, v) then Place(c, Scan(c, s, order), v) else Scan(c, s, order)
    ensures Scan(c, s, []) == s
  {
    hide Place;
    assert (order + [v])[..|order|] == order;
  }

  class FirstAvailableScheduler {
    const register: ActorRegister
    const monitored: UUID

    constructor (register: ActorRegister, monitored: UUID)
      ensures this.register == register && this.monitored == monitored
    {
      this.register, this.monitored := register, monitored;
    }

    // The actors the schedule looks up: the cloud, its storage, and the first server of the
    // first data center, which are those of the configuration.
    ghost predicate Ready(c: Config)
      reads register, register.Repr(), register.loop
    {
      var actors := register.actors;
      && register.loop.Valid()
      && monitored in actors && actors[monitored].CloudOf?
      && var cloud := actors[monitored].cloud;
      && cloud.vmStorage == c.storage && c.storage in actors && actors[c.storage].StorageOf?
      && actors[c.storage].storage.vms == register.loop.world.storage.vms
      && (forall v :: Pending(register.loop.world, v) ==> v in actors && actors[v].VMOf?)
      && cloud.dataCenters != [] && cloud.dataCenters[0] in actors && actors[cloud.dataCenters[0]].DataCenterOf?
      && var dc := actors[cloud.dataCenters[0]].dataCenter;
      && dc.servers != [] && dc.servers[0] == c.first
    }

    method UpdateSchedule(ghost c: Config) returns (ghost order: seq<UUID>)
      requires Ready(c)
      modifies register.loop
      ensures register.loop.Valid() && Enumerates(order, register.actors[c.storage].storage.vms.Keys)
      ensures register.loop.world == Scan(c, old(register.loop.world), order)
      ensures register.loop.world == old(register.loop.world).(queue := register.loop.world.queue,
                                                               inserted := register.loop.world.inserted)
      ensures register.loop.currentTs == old(register.loop.currentTs)
      ensures old(NoneEmpty(register.loop.queue)) ==> NoneEmpty(register.loop.queue)
    {
      hide Simulator.Insert, Scan;
      var loop := register.loop;
      var cloud := register.actors[monitored].cloud;
      var vmStorage := register.actors[cloud.vmStorage].storage;
      ghost var start := loop.world;
      var vms := vmStorage.GetVMs();
      var remaining := vms.Keys;
      order := [];
      ScanMore(c, start, [], 0);
      while remaining != {}
        invariant remaining <= vms.Keys && Distinct(order)
        invariant forall v :: v in order <==> v in vms.Keys - remaining
        invariant loop.Valid() && loop.world == Scan(c, start, order)
        invariant loop.world == start.(queue := loop.world.queue, inserted := loop.world.inserted)
        invariant loop.currentTs == old(register.loop.currentTs)
        invariant old(NoneEmpty(register.loop.queue)) ==> NoneEmpty(loop.queue)
      {
        var vmUuid :| vmUuid in remaining;
        assert vmUuid !in order;
        ScanMore(c, start, order, vmUuid);
        if vms[vmUuid] == PendingVM {
          var firstDc := register.actors[cloud.dataCenters[0]].dataCenter;
          var firstServer := firstDc.servers[0];
          var now := loop.Now();
          loop.Insert(MakeEvent(cloud.vmStorage, now, StorageEvent(VMScheduled, vmUuid)), true);
          now := loop.Now();
          loop.Insert(MakeEvent(firstServer, now, ServerEvent(ProvisionVM, vmUuid)), false);
        }
        order := order + [vmUuid];
        remaining := remaining - {vmUuid};
      }
    }
  }
}
