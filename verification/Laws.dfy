/**
 What one dispatch, one insertion and one command do, case by case and for any state: the new state
 of whoever the event is for, whatever it sends and when that is due, and that nobody else changes.
 This covers events that are never sent in a reachable state, such as restarts and stop reports.
 */
module Laws {
  import opened Types
  import opened FlatQueue
  import opened Handlers
  import opened Simulator
  import opened StepFacts

  // ----- when it is due -----

  // How long after an event for a VM its consequence is due: commands take the VM's delay, all else none.
  function Lag(c: Config, e: Event): nat {
    if e.body == VMEvent(Start) then DelaysOf(c, e.to).start
    else if e.body == VMEvent(Restart) then DelaysOf(c, e.to).restart
    else if e.body == VMEvent(Stop) then DelaysOf(c, e.to).stop
    else if e.body == VMEvent(Delete) then DelaysOf(c, e.to).delete
    else 0
  }

  lemma {:induction false} InsertedAll(q: seq<Event>, es: seq<Event>)
    ensures multiset(InsertAllBack(q, es)) == multiset(q) + multiset(es)
  {
    if es != [] {
      var init, last := es[..|es| - 1], es[|es| - 1];
      InsertedAll(q, init);
      InsertedOne(InsertAllBack(q, init), last);
      assert es == init + [last];
      hide InsertBack;
    }
  }

  lemma InsertedOne(q: seq<Event>, e: Event)
    ensures multiset(InsertBack(q, e)) == multiset(q) + multiset{e}
  {
    var k := UpTo(q, e.time);
    assert q == q[..k] + q[k..];
  }

  // Whatever a VM's handler adds to the queue is due at the time of the event, plus the VM's delay
  // where the event is a command; it adds one event at most, and takes none away.
  lemma VMEventsDue(c: Config, s: State, ord: Order)
    requires s.queue != [] && s.queue[0].to in s.vms && s.queue[0].to != c.storage
    ensures exists added: multiset<Event> ::
              && multiset(Dispatch(c, s, ord).queue) == multiset(s.queue[1..]) + added && |added| <= 1
              && forall x :: x in added ==> x.time == s.queue[0].time + Lag(c, s.queue[0])
  {
    hide InsertAllBack, Dispatch;
    DispatchShape(c, s, ord);
    InsertedAll(s.queue[1..], Out(c, s, ord));
    OutDue(c, s, ord);
  }

  lemma OutDue(c: Config, s: State, ord: Order)
    requires s.queue != [] && s.queue[0].to in s.vms && s.queue[0].to != c.storage
    ensures |multiset(Out(c, s, ord))| <= 1
    ensures forall x :: x in multiset(Out(c, s, ord)) ==> x.time == s.queue[0].time + Lag(c, s.queue[0])
  {
    hide DelaysOf;
  }

  // ----- virtual machines -----

  // After the dispatch the VM it was for is in state `st` with owner `owner`, `es` has been inserted, and that is all.
  ghost predicate VMComes(c: Config, s: State, ord: Order, st: VMState, owner: UUID, es: seq<Event>)
    requires s.queue != [] && s.queue[0].to in s.vms
  {
    var d, v := Dispatch(c, s, ord), s.queue[0].to;
    && d.queue == InsertAllBack(s.queue[1..], es)
    && d.vms == s.vms[v := VMData(st, owner, s.vms[v].storage)]
    && d.storage == s.storage && d.power == s.power && d.hosted == s.hosted && d.crashed == s.crashed
  }

  lemma VMLaw(c: Config, s: State, ord: Order)
    requires s.queue != [] && s.queue[0].to in s.vms && s.queue[0].to != c.storage
    ensures var e := s.queue[0];
            var v, t := e.to, e.time;
            var vm := s.vms[v];
            if e.body == VMEvent(NoVMType) then VMComes(c, s, ord, vm.state, vm.owner, [])
            else if e.body == VMEvent(Start) && vm.state == Provisioning then
              VMComes(c, s, ord, Starting, vm.owner, [Event(t + DelaysOf(c, v).start, v, VMEvent(StartCompleted))])
            else if e.body == VMEvent(StartCompleted) && vm.state == Starting then
              VMComes(c, s, ord, Running, vm.owner, [Event(t, vm.storage, StorageEvent(VMHosted, v))])
            else if e.body == VMEvent(Restart) && vm.state in {Running, Failure} then
              VMComes(c, s, ord, Restarting, vm.owner, [Event(t + DelaysOf(c, v).restart, v, VMEvent(RestartCompleted))])
            else if e.body == VMEvent(RestartCompleted) && vm.state == Restarting then
              VMComes(c, s, ord, Running, vm.owner, [])
            else if e.body == VMEvent(Stop) && vm.state == Running then
              VMComes(c, s, ord, Stopping, vm.owner, [Event(t + DelaysOf(c, v).stop, v, VMEvent(StopCompleted))])
            else if e.body == VMEvent(StopCompleted) && vm.state == Stopping then
              VMComes(c, s, ord, Stopped, NIL, [Event(t, vm.owner, ServerEvent(UnprovisionVM, v))])
            else if e.body == VMEvent(Delete) && vm.state in {Running, Stopped, Failure} then
              VMComes(c, s, ord, Deleting, vm.owner, [Event(t + DelaysOf(c, v).delete, v, VMEvent(DeleteCompleted))])
            else if e.body == VMEvent(DeleteCompleted) && vm.state == Deleting then
              VMComes(c, s, ord, Deleting, vm.owner,
                      [if vm.owner != NIL then Event(t, vm.owner, ServerEvent(UnprovisionVM, v))
                       else Event(t, vm.storage, StorageEvent(VMDeleted, v))])
            else VMComes(c, s, ord, Failure, vm.owner, [])
  {
    hide InsertAllBack, Dispatch, DelaysOf;
    DispatchShape(c, s, ord);
  }

  // ----- the storage -----

  // After the dispatch the storage is `st`, nothing has been inserted, and that is all.
  ghost predicate StorageComes(c: Config, s: State, ord: Order, st: Storage)
    requires s.queue != []
  {
    var d := Dispatch(c, s, ord);
    && d.storage == st && d.queue == s.queue[1..]
    && d.vms == s.vms && d.power == s.power && d.hosted == s.hosted && d.crashed == s.crashed
  }

  lemma StorageLaw(c: Config, s: State, ord: Order)
    requires s.queue != [] && s.queue[0].to == c.storage
    ensures var b, vms := s.queue[0].body, s.storage.vms;
            if !s.storage.ok then StorageComes(c, s, ord, s.storage)
            else if !b.StorageEvent? || b.storageType == NoStorageType || (b.storageType == VMCreated <==> b.vm in vms) then
              StorageComes(c, s, ord, Storage(false, vms))
            else if b.storageType == VMCreated then StorageComes(c, s, ord, Storage(true, vms[b.vm := CreatedVM]))
            else if b.storageType == VMProvisionRequested then
              StorageComes(c, s, ord, if vms[b.vm] in {CreatedVM, StoppedVM} then Storage(true, vms[b.vm := PendingVM])
                                      else s.storage)
            else if b.storageType == VMScheduled then StorageComes(c, s, ord, Storage(true, vms[b.vm := ProvisioningVM]))
            else if b.storageType == VMHosted then StorageComes(c, s, ord, Storage(true, vms[b.vm := HostedVM]))
            else if b.storageType == VMStopped then StorageComes(c, s, ord, Storage(true, vms[b.vm := StoppedVM]))
            else StorageComes(c, s, ord, Storage(true, vms - {b.vm}))
  {
    hide InsertAllBack, Dispatch;
    DispatchShape(c, s, ord);
    NothingInserted(s.queue[1..]);
  }

  lemma NothingInserted(q: seq<Event>)
    ensures InsertAllBack(q, []) == q
  {}

  // ----- resources -----

  // After the dispatch the resource it was for is in state `p`, `es` has been inserted, and that is all.
  ghost predicate PowerComes(c: Config, s: State, ord: Order, p: PowerState, es: seq<Event>)
    requires s.queue != []
  {
    var d, r := Dispatch(c, s, ord), s.queue[0].to;
    && d.power == s.power[r := p] && d.queue == InsertAllBack(s.queue[1..], es)
    && d.vms == s.vms && d.storage == s.storage && d.hosted == s.hosted && d.crashed == s.crashed
  }

  // The command to each component, then the completion, all due at the same time.
  function Cascading(components: seq<UUID>, t: int, r: UUID, ty: ResourceEventType, end: ResourceEventType): (es: seq<Event>)
    ensures |es| == |components| + 1 && es[|components|] == Event(t, r, ResourceEvent(end))
    ensures forall i :: 0 <= i < |components| ==> es[i] == Event(t, components[i], ResourceEvent(ty))
  {
    seq(|components| + 1, i requires 0 <= i <= |components| =>
      if i < |components| then Event(t, components[i], ResourceEvent(ty)) else Event(t, r, ResourceEvent(end)))
  }

  lemma PowerLaw(c: Config, s: State, ord: Order)
    requires s.queue != [] && s.queue[0].to != c.storage && s.queue[0].to !in s.vms
    requires s.queue[0].to in s.power && s.queue[0].to in c.components && !s.queue[0].body.ServerEvent?
    ensures var e := s.queue[0];
            var r := e.to;
            var p := s.power[r];
            if e.body == ResourceEvent(Boot) && p == Off then
              PowerComes(c, s, ord, TurningOn,
                         Cascading(ord(c.components[r]), e.time + Delay(c.startup, r), r, Boot, BootFinished))
            else if e.body == ResourceEvent(Shutdown) && p != Off then
              PowerComes(c, s, ord, TurningOff,
                         Cascading(ord(c.components[r]), e.time + Delay(c.shutdown, r), r, Shutdown, ShutdownFinished))
            else if e.body == ResourceEvent(BootFinished) then PowerComes(c, s, ord, if p == TurningOn then On else PowerState.Failed, [])
            else if e.body == ResourceEvent(ShutdownFinished) then
              PowerComes(c, s, ord, if p == TurningOff then Off else PowerState.Failed, [])
            else PowerComes(c, s, ord, p, [])
  {
    hide InsertAllBack, Dispatch, Delay;
    DispatchShape(c, s, ord);
    var e := s.queue[0];
    if e.body == ResourceEvent(Boot) {
      CascadingIs(ord(c.components[e.to]), e.time + Delay(c.startup, e.to), e.to, Boot, BootFinished);
    } else if e.body == ResourceEvent(Shutdown) {
      CascadingIs(ord(c.components[e.to]), e.time + Delay(c.shutdown, e.to), e.to, Shutdown, ShutdownFinished);
    }
    hide Broadcast, Cascading;
  }

  lemma CascadingIs(components: seq<UUID>, t: int, r: UUID, ty: ResourceEventType, end: ResourceEventType)
    ensures Broadcast(components, t, ty) + [Event(t, r, ResourceEvent(end))] == Cascading(components, t, r, ty, end)
  {}

  // ----- servers -----

  // After the dispatch the server it was for is in state `p` with guests `g`, `es` has been inserted, and
  // the run has crashed if it had, or if `crash`.
  ghost predicate ServerComes(c: Config, s: State, ord: Order, p: PowerState, g: set<UUID>, es: seq<Event>, crash: bool)
    requires s.queue != []
  {
    var d, x := Dispatch(c, s, ord), s.queue[0].to;
    && d.power == s.power[x := p] && d.hosted == s.hosted[x := g] && d.queue == InsertAllBack(s.queue[1..], es)
    && d.vms == s.vms && d.storage == s.storage && d.crashed == (s.crashed || crash)
  }

  lemma ServerLaw(c: Config, s: State, ord: Order)
    requires s.queue != [] && s.queue[0].to != c.storage && s.queue[0].to !in s.vms
    requires s.queue[0].to in s.power && s.queue[0].to in s.hosted && s.queue[0].body.ServerEvent?
    ensures var e := s.queue[0];
            var x, v := e.to, e.body.guest;
            var p, g := s.power[x], s.hosted[x];
            if e.body.serverType == NoServerType then ServerComes(c, s, ord, p, g, [], false)
            else if p != On then ServerComes(c, s, ord, PowerState.Failed, g, [], false)
            else if e.body.serverType == ProvisionVM && v != NIL then
              ServerComes(c, s, ord, On, g + {v}, [Event(e.time, v, VMEvent(Start))], false)
            else if e.body.serverType == UnprovisionVM && v in g then ServerComes(c, s, ord, On, g - {v}, [], true)
            else ServerComes(c, s, ord, On, g, [], false)
  {
    hide InsertAllBack, Dispatch;
    DispatchShape(c, s, ord);
  }

  // ----- anybody else -----

  // A resource that is no server ignores every event but its own, and nobody hears what is for nobody.
  lemma NobodyLaw(c: Config, s: State, ord: Order)
    requires s.queue != [] && s.queue[0].to != c.storage && s.queue[0].to !in s.vms && s.queue[0].to !in s.power
    ensures var d := Dispatch(c, s, ord);
            && d.queue == s.queue[1..] && d.now == s.queue[0].time && d.log == s.log + [s.queue[0]]
            && d.vms == s.vms && d.storage == s.storage && d.power == s.power && d.hosted == s.hosted && d.crashed == s.crashed
  {}

  // Whoever has no delays of their own has none.
  lemma NoDelay(c: Config, m: map<UUID, nat>, u: UUID)
    ensures u !in m ==> Delay(m, u) == 0
    ensures u !in c.vmDelays ==> DelaysOf(c, u) == VMDelays(0, 0, 0, 0)
    ensures u in m ==> Delay(m, u) == m[u]
    ensures u in c.vmDelays ==> DelaysOf(c, u) == c.vmDelays[u]
  {}

  // ----- insertions -----

  // The place a new event takes: an immediate one stands before everything due at its time or later,
  // a deferred one after everything due at its time or earlier.
  ghost predicate Place(q: seq<Event>, t: int, immediate: bool, k: nat) {
    && k <= |q|
    && (forall i :: 0 <= i < k ==> if immediate then q[i].time < t else q[i].time <= t)
    && (forall i :: k <= i < |q| ==> if immediate then t <= q[i].time else t < q[i].time)
  }

  lemma PlaceTaken(q: seq<Event>, t: int, immediate: bool)
    requires Sorted(q)
    ensures Place(q, t, immediate, if immediate then Below(q, t) else UpTo(q, t))
  {
    var k := if immediate then Below(q, t) else UpTo(q, t);
    forall i | k <= i < |q|
      ensures if immediate then t <= q[i].time else t < q[i].time
    {
      assert q[k].time <= q[i].time;
    }
  }

  // An event in the past is dropped; any other one goes to its place and the rest keeps its order.
  lemma InsertLaw(s: State, e: Event, immediate: bool)
    requires Sorted(s.queue)
    ensures var s' := Insert(s, e, immediate);
            && s' == s.(queue := s'.queue, inserted := s.inserted + 1)
            && (e.time < s.now ==> s'.queue == s.queue)
            && (e.time >= s.now ==>
                  exists k: nat :: Place(s.queue, e.time, immediate, k) && s'.queue == s.queue[..k] + [e] + s.queue[k..])
  {
    hide Sorted, Place, Below, UpTo;
    PlaceTaken(s.queue, e.time, immediate);
  }

  // ----- commands -----

  // Every command posts one event due now; a provision request jumps the queue. A new VM has the next
  // handle, and its storage is told of it if it was made in full.
  lemma CommandLaw(c: Config, s: State, m: Command)
    ensures var s' := Execute(c, s, m);
            match m
            case Power(r, a) => s' == Insert(s, Event(s.now, r, ResourceEvent(a)), false)
            case ProvisionRequest(v) => s' == Insert(s, Event(s.now, c.storage, StorageEvent(VMProvisionRequested, v)), true)
            case StopRequest(v) => s' == Insert(s, Event(s.now, v, VMEvent(Stop)), false)
            case DeleteRequest(v) => s' == Insert(s, Event(s.now, v, VMEvent(Delete)), false)
            case CreateVM(ok) =>
              && s'.next == s.next + 1 && s'.vms == s.vms[s.next := VMData(Provisioning, NIL, if ok then c.storage else NIL)]
              && s'.queue == (if ok then Insert(s, Event(s.now, c.storage, StorageEvent(VMCreated, s.next)), false).queue
                              else s.queue)
              && s' == s.(next := s'.next, vms := s'.vms, queue := s'.queue, inserted := s'.inserted)
  {
    hide InsertBack, InsertFront;
  }
}
