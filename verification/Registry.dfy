/**
 Who exists and who is written to: every handle held by the storage, by a server or by a
 queued event names an actor of the right kind, so no lookup outside the loop's try block
 can fail and no null notificator is ever dereferenced.
 */
module Registry {
  import opened Types
  import opened FlatQueue
  import opened Handlers
  import opened Simulator
  import opened StepFacts

  ghost predicate AllReady(c: Config, s: State, vs: set<UUID>) {
    forall v :: v in vs ==> Ready(c, s, v)
  }

  ghost predicate ActorsKnown(c: Config, s: State) {
    && s.power.Keys == c.components.Keys && s.hosted.Keys == c.servers
    && c.storage < s.next && (forall r :: r in c.components ==> r < s.next)
    && (forall v :: v in s.vms ==> NIL < v < s.next && v != c.storage && v !in c.components)
    && (forall v :: v in s.vms ==> s.vms[v].owner == NIL && s.vms[v].storage in {NIL, c.storage})
    && AllReady(c, s, s.storage.vms.Keys)
    && (forall x :: x in s.hosted ==> AllReady(c, s, s.hosted[x]))
    && !s.crashed
  }

  // The kinds of event that are ever sent, and to whom. No restart, no stop report, no event
  // without a type. Nobody is the addressee of a removal from a server, since no VM knows its
  // owner, and of the deletion report of a VM whose creation failed half-way.
  ghost predicate Addressed(c: Config, s: State, e: Event) {
    match e.body
    case ResourceEvent(ty) =>
      && ty != NoResourceType && Registered(c, s, e.to)
      && (ty in {BootFinished, ShutdownFinished} ==> e.to in c.components)
    case VMEvent(ty) =>
      && ty !in {NoVMType, Restart, RestartCompleted} && Registered(c, s, e.to)
      && (ty in {Start, StartCompleted} ==> Ready(c, s, e.to))
      && (ty in {StopCompleted, DeleteCompleted} ==> e.to in s.vms)
    case ServerEvent(ty, v) =>
      || (ty == ProvisionVM && e.to == c.first && Ready(c, s, v))
      || (ty == UnprovisionVM && e.to == NIL && v in s.vms)
    case StorageEvent(ty, v) =>
      || (e.to == c.storage && ty in {VMCreated, VMScheduled, VMHosted, VMDeleted} && Ready(c, s, v))
      || (e.to == c.storage && ty == VMProvisionRequested && Registered(c, s, v))
      || (e.to == NIL && ty == VMDeleted && v in s.vms)
  }

  ghost predicate AllAddressed(c: Config, s: State, q: seq<Event>) {
    forall e :: e in q ==> Addressed(c, s, e)
  }

  ghost predicate Known(c: Config, s: State) {
    ActorsKnown(c, s) && AllAddressed(c, s, s.queue) && AllAddressed(c, s, s.log)
  }

  lemma PowerDomain(c: Config, s: State)
    requires Known(c, s)
    ensures s.power.Keys == c.components.Keys
  {
    hide AllAddressed, AllReady;
  }

  // VMs are only ever added, and never change storage.
  ghost predicate Grows(s: State, s': State) {
    forall v :: v in s.vms ==> v in s'.vms && s'.vms[v].storage == s.vms[v].storage
  }

  lemma AddressedGrows(c: Config, s: State, s': State, q: seq<Event>)
    requires Grows(s, s') && AllAddressed(c, s, q)
    ensures AllAddressed(c, s', q)
  {
    forall e | e in q
      ensures Addressed(c, s', e)
    {
      assert Addressed(c, s, e);
    }
  }

  // ----- handlers -----

  lemma VMReactFrame(id: UUID, vm: VMData, d: VMDelays, e: Event)
    requires vm.owner == NIL
    ensures VMReact(id, vm, d, e).0.owner == NIL && VMReact(id, vm, d, e).0.storage == vm.storage
  {}

  lemma StorageReactKeys(st: Storage, e: Event)
    ensures forall v :: v in StorageReact(st, e).vms ==>
              v in st.vms || e.body == StorageEvent(VMCreated, v)
  {}

  lemma ServerReactGuests(p: PowerState, g: set<UUID>, e: Event)
    requires e.body.ServerEvent? && e.body.serverType != UnprovisionVM
    ensures var o := ServerReact(p, g, e);
            !o.crashed && g <= o.guests && forall v :: v in o.guests ==> v in g || e.body == ServerEvent(ProvisionVM, v)
  {}

  lemma ActorsStorage(c: Config, s: State, e: Event)
    requires ActorsKnown(c, s) && Addressed(c, s, e) && e.to == c.storage
    ensures ActorsKnown(c, s.(storage := StorageReact(s.storage, e)))
  {
    StorageReactKeys(s.storage, e);
    hide StorageReact;
  }

  lemma ActorsVM(c: Config, s: State, e: Event)
    requires ActorsKnown(c, s) && e.to in s.vms
    ensures var s' := s.(vms := s.vms[e.to := VMReact(e.to, s.vms[e.to], DelaysOf(c, e.to), e).0]);
            ActorsKnown(c, s') && Grows(s, s')
  {
    VMReactFrame(e.to, s.vms[e.to], DelaysOf(c, e.to), e);
    hide VMReact, DelaysOf;
    var s' := s.(vms := s.vms[e.to := VMReact(e.to, s.vms[e.to], DelaysOf(c, e.to), e).0]);
    assert forall u :: Ready(c, s, u) ==> Ready(c, s', u);
    hide Ready;
  }

  lemma ReadyFrame(c: Config, s: State, s': State)
    requires s.vms == s'.vms
    ensures forall u :: Ready(c, s, u) == Ready(c, s', u)
  {}

  lemma ActorsServer(c: Config, s: State, e: Event)
    requires WellFormed(c) && ActorsKnown(c, s) && Addressed(c, s, e)
    requires e.to in s.hosted && e.to in s.power && e.body.ServerEvent?
    ensures var o := ServerReact(s.power[e.to], s.hosted[e.to], e);
            ActorsKnown(c, s.(power := s.power[e.to := o.power], hosted := s.hosted[e.to := o.guests],
                              crashed := s.crashed || o.crashed))
  {
    var o := ServerReact(s.power[e.to], s.hosted[e.to], e);
    ServerReactGuests(s.power[e.to], s.hosted[e.to], e);
    assert AllReady(c, s, s.hosted[e.to]);
    hide ServerReact;
    assert AllReady(c, s, o.guests);
    ActorsGuests(c, s, e.to, o.power, o.guests);
    hide ActorsKnown;
  }

  lemma ActorsGuests(c: Config, s: State, x: UUID, p: PowerState, g: set<UUID>)
    requires ActorsKnown(c, s) && x in s.hosted && x in s.power && AllReady(c, s, g)
    ensures ActorsKnown(c, s.(power := s.power[x := p], hosted := s.hosted[x := g], crashed := false))
  {
    hide Ready;
    ReadyFrame(c, s, s.(power := s.power[x := p], hosted := s.hosted[x := g], crashed := false));
  }

  lemma ActorsPower(c: Config, s: State, r: UUID, p: PowerState)
    requires ActorsKnown(c, s) && r in s.power
    ensures ActorsKnown(c, s.(power := s.power[r := p]))
  {
    ReadyFrame(c, s, s.(power := s.power[r := p]));
    hide Ready;
  }

  lemma ReactActors(c: Config, s: State, e: Event, ord: Order)
    requires WellFormed(c) && ActorsKnown(c, s) && Addressed(c, s, e)
    ensures ActorsKnown(c, React(c, s, e, ord).0)
    ensures Grows(s, React(c, s, e, ord).0)
  {
    hide ActorsKnown, Addressed, WellFormed, StorageReact, VMReact, ServerReact, ResourceReact;
    if e.to == c.storage {
      ActorsStorage(c, s, e);
    } else if e.to in s.vms {
      ActorsVM(c, s, e);
    } else if e.to in s.hosted && e.to in s.power && e.body.ServerEvent? {
      ActorsServer(c, s, e);
    } else if e.to in s.power && e.to in c.components {
      var p := ResourceReact(e.to, s.power[e.to], ord(c.components[e.to]),
                             Delay(c.startup, e.to), Delay(c.shutdown, e.to), e).0;
      ActorsPower(c, s, e.to, p);
    }
  }

  lemma ReactOut(c: Config, s: State, e: Event, ord: Order)
    requires WellFormed(c) && ActorsKnown(c, s) && Addressed(c, s, e) && ValidOrder(ord)
    ensures AllAddressed(c, React(c, s, e, ord).0, React(c, s, e, ord).1)
  {
    ReactActors(c, s, e, ord);
    var (s', out) := React(c, s, e, ord);
    assert AllAddressed(c, s, out) by {
      hide ActorsKnown, Addressed, WellFormed, StorageReact, VMReact, ServerReact, ResourceReact;
      if e.to == c.storage {
      } else if e.to in s.vms {
        VMOut(c, s, e);
      } else if e.to in s.hosted && e.to in s.power && e.body.ServerEvent? {
        ServerOut(c, s, e);
      } else if e.to in s.power && e.to in c.components {
        ResourceOut(c, s, e, ord);
      }
    }
    hide React, ActorsKnown, Addressed;
    AddressedGrows(c, s, s', out);
  }

  lemma VMOut(c: Config, s: State, e: Event)
    requires ActorsKnown(c, s) && Addressed(c, s, e) && e.to in s.vms
    ensures AllAddressed(c, s, VMReact(e.to, s.vms[e.to], DelaysOf(c, e.to), e).1)
  {
    hide DelaysOf;
    var d := DelaysOf(c, e.to);
    assert e.to !in c.components;
  }

  lemma ServerOut(c: Config, s: State, e: Event)
    requires WellFormed(c) && ActorsKnown(c, s) && Addressed(c, s, e) && e.body.ServerEvent?
    requires e.to in s.hosted && e.to in s.power
    ensures AllAddressed(c, s, ServerReact(s.power[e.to], s.hosted[e.to], e).scheduled)
  {}

  lemma ResourceOut(c: Config, s: State, e: Event, ord: Order)
    requires WellFormed(c) && e.to in c.components && e.to in s.power && ValidOrder(ord)
    ensures AllAddressed(c, s, ResourceReact(e.to, s.power[e.to], ord(c.components[e.to]),
                                             Delay(c.startup, e.to), Delay(c.shutdown, e.to), e).1)
  {
    var order := ord(c.components[e.to]);
    assert Enumerates(order, c.components[e.to]);
    var out := ResourceReact(e.to, s.power[e.to], order, Delay(c.startup, e.to), Delay(c.shutdown, e.to), e).1;
    hide Delay;
    forall x | x in out
      ensures Addressed(c, s, x)
    {
      if x.to != e.to {
        assert x.to in order;
        assert x.to in c.parent;
      }
    }
  }

  lemma HeadAddressed(c: Config, s: State)
    requires AllAddressed(c, s, s.queue) && s.queue != []
    ensures Addressed(c, s, s.queue[0])
  {
    hide Addressed;
  }

  lemma KnownHandled(c: Config, s: State, ord: Order)
    requires WellFormed(c) && Known(c, s) && ValidOrder(ord) && s.queue != []
    ensures ActorsKnown(c, Handled(c, s, ord)) && Grows(s, Handled(c, s, ord))
    ensures AllAddressed(c, Handled(c, s, ord), Out(c, s, ord))
  {
    hide React, Addressed, ActorsKnown, WellFormed, AllAddressed, ValidOrder, Grows;
    var e, p := s.queue[0], Popped(s);
    HeadAddressed(c, s);
    KnownSame(c, s, p);
    ReactActors(c, p, e, ord);
    ReactOut(c, p, e, ord);
    SameGrows(s, p, Handled(c, s, ord));
  }

  lemma SameGrows(s: State, p: State, s': State)
    requires p.vms == s.vms && Grows(p, s')
    ensures Grows(s, s')
  {}

  lemma KnownDispatch(c: Config, s: State, ord: Order)
    requires WellFormed(c) && Known(c, s) && ValidOrder(ord) && s.queue != []
    ensures Known(c, Dispatch(c, s, ord)) && Grows(s, Dispatch(c, s, ord))
  {
    hide Dispatch, ActorsKnown, Out, WellFormed, AllAddressed, Handled, InsertAllBack;
    KnownHandled(c, s, ord);
    DispatchShape(c, s, ord);
    var s', d, out := Handled(c, s, ord), Dispatch(c, s, ord), Out(c, s, ord);
    AddressedGrows(c, s, s', s.queue);
    AddressedGrows(c, s, s', s.log);
    AddressedMoves(c, s', s.queue, s.log, out);
    KnownSame(c, s', d);
    AddressedGrows(c, s', d, d.queue);
    AddressedGrows(c, s', d, d.log);
  }

  lemma AddressedMoves(c: Config, s: State, q: seq<Event>, l: seq<Event>, out: seq<Event>)
    requires q != [] && AllAddressed(c, s, q) && AllAddressed(c, s, l) && AllAddressed(c, s, out)
    ensures AllAddressed(c, s, InsertAllBack(q[1..], out)) && AllAddressed(c, s, l + [q[0]])
  {
    hide Addressed, InsertAllBack;
    InsertAllMembers(q[1..], out);
  }

  // Addressing and actor facts do not look at the queue.
  lemma KnownSame(c: Config, s: State, s': State)
    requires s' == s.(queue := s'.queue, inserted := s'.inserted, log := s'.log, updates := s'.updates, now := s'.now)
    ensures ActorsKnown(c, s) ==> ActorsKnown(c, s')
    ensures forall e :: Addressed(c, s, e) ==> Addressed(c, s', e)
  {}

  lemma PlacingAddressed(c: Config, s: State, vs: seq<UUID>)
    requires WellFormed(c) && ActorsKnown(c, s)
    requires forall v :: v in vs ==> Pending(s, v)
    ensures AllAddressed(c, s, Decisions(c, s.now, vs)) && AllAddressed(c, s, Placements(c, s.now, vs))
  {
    hide Decisions, Placements, Ready;
    assert forall v :: v in vs ==> Ready(c, s, v);
  }

  // No lookup of the world update can fail.
  lemma LookupsSucceed(c: Config, s: State)
    requires ActorsKnown(c, s)
    ensures !LookupFails(c, s)
  {}

  lemma KnownUpdate(c: Config, s: State, ord: Order)
    requires WellFormed(c) && Known(c, s) && ValidOrder(ord)
    requires forall i :: 0 <= i < |s.queue| ==> s.now < s.queue[i].time
    ensures Known(c, Tick(UpdateWorld(c, s, ord)))
  {
    UpdateShape(c, s, ord);
    PlacingEnumerates(c, s, ord);
    var p := Placing(c, s, ord);
    PlacingAddressed(c, s, p);
    LookupsSucceed(c, s);
    hide Placing, UpdateWorld, Decisions, Placements, ActorsKnown, Addressed, LookupFails;
    var s' := Tick(UpdateWorld(c, s, ord));
    KnownSame(c, s, s');
  }

  lemma AddVM(c: Config, s: State, ok: bool)
    requires ActorsKnown(c, s)
    ensures var s' := s.(vms := s.vms[s.next := VMData(Provisioning, NIL, if ok then c.storage else NIL)], next := s.next + 1);
            ActorsKnown(c, s') && Grows(s, s')
  {
    var s' := s.(vms := s.vms[s.next := VMData(Provisioning, NIL, if ok then c.storage else NIL)], next := s.next + 1);
    assert s.next !in s.vms;
    assert forall v :: Ready(c, s, v) ==> Ready(c, s', v);
    hide Ready;
  }

  lemma CommandActors(c: Config, s: State, m: Command)
    requires ActorsKnown(c, s)
    ensures ActorsKnown(c, Execute(c, s, m)) && Grows(s, Execute(c, s, m))
  {
    hide ActorsKnown, InsertBack, InsertFront, Addressed;
    var s' := Execute(c, s, m);
    match m
    case CreateVM(ok) =>
      AddVM(c, s, ok);
      KnownSame(c, s.(vms := s.vms[s.next := VMData(Provisioning, NIL, if ok then c.storage else NIL)], next := s.next + 1), s');
    case _ => KnownSame(c, s, s');
  }

  lemma CommandAddressed(c: Config, s: State, m: Command)
    requires WellFormed(c) && Allowed(c, s, m)
    ensures AllAddressed(c, Execute(c, s, m), CommandEvents(c, s, m))
  {
    hide InsertBack, InsertFront;
  }

  lemma KnownExecute(c: Config, s: State, m: Command)
    requires WellFormed(c) && Known(c, s) && Allowed(c, s, m)
    ensures Known(c, Execute(c, s, m)) && Grows(s, Execute(c, s, m))
  {
    ExecuteShape(c, s, m);
    CommandActors(c, s, m);
    CommandAddressed(c, s, m);
    var s' := Execute(c, s, m);
    var es := CommandEvents(c, s, m);
    AddressedGrows(c, s, s', s.queue);
    AddressedGrows(c, s, s', s.log);
    if es != [] {
      InsertMembers(s.queue, es[0]);
      assert es[0] in es;
    }
    hide Execute, ActorsKnown, Addressed, CommandEvents, InsertBack, InsertFront;
  }

  // The only VM a command makes is made in full or not at all.
  lemma ExecuteReady(c: Config, s: State, m: Command, v: UUID)
    requires WellFormed(c) && Known(c, s)
    ensures Ready(c, Execute(c, s, m), v) <==> Ready(c, s, v) || (m == CreateVM(true) && v == s.next)
  {
    hide InsertBack, InsertFront, Addressed;
  }
}
