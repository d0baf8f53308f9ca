/**
 What each request of a client comes to. First the event it posts, then what is left when the
 simulation has run dry: a cloud asked on is on to the last server, one asked off is off, a VM asked
 for is created with its model, one asked to be provisioned runs on the first server, one asked to
 stop is stopped, and one asked to be deleted is gone.
 */
module RequestLaws {
  import opened Types
  import opened FlatQueue
  import opened Simulator
  import opened StepFacts
  import opened Clock
  import opened Registry
  import opened Deciding
  import opened Effects
  import opened Placement
  import opened Soundness
  import opened Draining
  import opened Batches
  import opened VMActor
  import opened Worlds
  import opened Layout
  import opened Setups
  import opened Sessions
  import Cascade
  import EndToEnd
  import HostedFirst
  import Laws
  import Lives
  import PowerFlow
  import Retiring

  // ----- what is posted -----

  // Everything but the queue, and what a new VM needs, is as it was.
  ghost predicate OnlyPosted(s: State, s': State) {
    s' == s.(queue := s'.queue, inserted := s'.inserted)
  }

  lemma OneAnswered(c: Config, b: Book, r: Request)
    ensures AnsweredAll(c, b, [r]) == Answered(c, b, r)
  {
    assert [r][..0] == [];
    hide Answered;
  }

  // While a batch is being given a request posts one event due now: a request for a place in front
  // of everything, anything else behind it; or nothing, if it makes no sense.
  lemma PowerPosts(c: Config, b: Book, name: string, on: bool)
    requires Giving(b.state)
    ensures var a := AnsweredAll(c, b, [AskPower(name, on)]);
            && a.names == b.names && a.gears == b.gears && a.deleted == b.deleted && OnlyPosted(b.state, a.state)
            && a.state.queue ==
               b.state.queue + if name in b.names && b.names[name] in c.components
                               then [Event(b.state.now, b.names[name], ResourceEvent(if on then Boot else Shutdown))] else []
  {
    hide InsertBack, InsertFront;
    OneAnswered(c, b, AskPower(name, on));
    if name in b.names && b.names[name] in c.components {
      AppendedLast(b.state.queue, Event(b.state.now, b.names[name], ResourceEvent(if on then Boot else Shutdown)));
    } else {
      assert b.state.queue + [] == b.state.queue;
    }
  }

  lemma ProvisionPosts(c: Config, b: Book, name: string)
    requires Giving(b.state)
    ensures var a := AnsweredAll(c, b, [AskProvision(name)]);
            && a.names == b.names && a.gears == b.gears && a.deleted == b.deleted && OnlyPosted(b.state, a.state)
            && a.state.queue ==
               (if name in b.names && b.names[name] in b.state.storage.vms
                then [Event(b.state.now, c.storage, StorageEvent(VMProvisionRequested, b.names[name]))] else []) + b.state.queue
  {
    hide InsertBack, InsertFront;
    OneAnswered(c, b, AskProvision(name));
    if name in b.names && b.names[name] in b.state.storage.vms {
      AppendedLast(b.state.queue, Event(b.state.now, c.storage, StorageEvent(VMProvisionRequested, b.names[name])));
    } else {
      assert [] + b.state.queue == b.state.queue;
    }
  }

  lemma StopPosts(c: Config, b: Book, name: string)
    requires Giving(b.state)
    ensures var a := AnsweredAll(c, b, [AskStop(name)]);
            && a.names == b.names && a.gears == b.gears && a.deleted == b.deleted && OnlyPosted(b.state, a.state)
            && a.state.queue ==
               b.state.queue + if name in b.names && Ready(c, b.state, b.names[name])
                               then [Event(b.state.now, b.names[name], VMEvent(Stop))] else []
  {
    hide InsertBack, InsertFront;
    OneAnswered(c, b, AskStop(name));
    if name in b.names && Ready(c, b.state, b.names[name]) {
      AppendedLast(b.state.queue, Event(b.state.now, b.names[name], VMEvent(Stop)));
    } else {
      assert b.state.queue + [] == b.state.queue;
    }
  }

  // A VM is told to delete itself once.
  lemma DeletePosts(c: Config, b: Book, name: string)
    requires Giving(b.state)
    ensures var a := AnsweredAll(c, b, [AskDelete(name)]);
            && a.names == b.names && a.gears == b.gears && OnlyPosted(b.state, a.state)
            && if name in b.names && Ready(c, b.state, b.names[name]) && b.names[name] !in b.deleted
               then a.state.queue == b.state.queue + [Event(b.state.now, b.names[name], VMEvent(Delete))]
                    && a.deleted == b.deleted + {b.names[name]}
               else a == b
  {
    hide InsertBack, InsertFront;
    OneAnswered(c, b, AskDelete(name));
    if name in b.names && Ready(c, b.state, b.names[name]) {
      AppendedLast(b.state.queue, Event(b.state.now, b.names[name], VMEvent(Delete)));
    }
  }

  // The next handle goes to a new VM, and so does the name if it is free. With a free name and a
  // model the VM has them and its storage, which is told; otherwise it has neither.
  lemma CreationPosts(c: Config, b: Book, name: string, model: Option<Workload>)
    requires Giving(b.state)
    ensures var a, v := AnsweredAll(c, b, [AskVM(name, model)]), b.state.next;
            var full := name !in b.names && model.Some?;
            && a.names == (if name !in b.names then b.names[name := v] else b.names) && a.deleted == b.deleted
            && a.gears == b.gears[v := Model(if name !in b.names then model else None)]
            && a.state == b.state.(queue := a.state.queue, inserted := a.state.inserted, next := v + 1,
                                   vms := b.state.vms[v := VMData(Provisioning, NIL, if full then c.storage else NIL)])
            && a.state.queue ==
               b.state.queue + if full then [Event(b.state.now, c.storage, StorageEvent(VMCreated, v))] else []
  {
    hide InsertBack, InsertFront;
    OneAnswered(c, b, AskVM(name, model));
    AppendedLast(b.state.queue, Event(b.state.now, c.storage, StorageEvent(VMCreated, b.state.next)));
    assert b.state.queue + [] == b.state.queue;
  }

  // ----- more than one request -----

  // Requests are answered first come, first served.
  lemma {:induction false} AnsweredInOrder(c: Config, b: Book, p: seq<Request>, q: seq<Request>)
    ensures AnsweredAll(c, b, p + q) == AnsweredAll(c, AnsweredAll(c, b, p), q)
  {
    hide Answered;
    if q == [] {
      assert p + q == p;
    } else {
      var init := q[..|q| - 1];
      AnsweredInOrder(c, b, p, init);
      assert (p + q)[..|p + q| - 1] == p + init;
    }
  }

  // And so are batches, each of them after the one before has run dry.
  lemma {:induction false} PlayedInOrder(c: Config, b: Book, p: seq<seq<Request>>, q: seq<seq<Request>>, v: seq<Walk>, w: seq<Walk>)
    requires |p| == |v| && |q| == |w|
    ensures Played(c, b, p + q, v + w) == Played(c, Played(c, b, p, v), q, w)
  {
    hide AnsweredAll, RunDry;
    if q == [] {
      assert p + q == p && v + w == v;
    } else {
      var n := |q| - 1;
      PlayedInOrder(c, b, p, q[..n], v, w[..n]);
      assert (p + q)[..|p| + n] == p + q[..n] && (v + w)[..|p| + n] == v + w[..n];
    }
  }

  lemma PlayedOnce(c: Config, b: Book, batch: seq<Request>, w: Walk)
    ensures Played(c, b, [batch], [w]) == RunDry(c, AnsweredAll(c, b, batch), w)
  {
    hide AnsweredAll, RunDry;
    assert [batch][..0] == [] && [w][..0] == [];
    assert Played(c, b, [], []) == b;
  }

  // Two drains that are over, in the same orders, are over in the same state.
  lemma SameOver(c: Config, s: State, ords: nat -> Order, m: nat, n: nat)
    requires Drain(c, s, ords, m).queue == [] && Drain(c, s, ords, n).queue == []
    ensures Drain(c, s, ords, m) == Drain(c, s, ords, n)
  {
    hide Drain;
    if m <= n {
      DrainSettles(c, s, ords, m, n);
    } else {
      DrainSettles(c, s, ords, n, m);
    }
  }

  // ----- what is left of each -----

  ghost predicate Idle(c: Config, b: Book) {
    WellFormed(c) && Sound(c, b.state) && b.state.queue == [] && b.state.storage.ok
  }

  lemma IdleGiving(c: Config, b: Book)
    requires Idle(c, b)
    ensures Giving(b.state) && Known(c, b.state)
  {
    SoundKnown(c, b.state);
    hide Known, Timely, Sound;
  }

  // The cloud asked on with everything off, or asked off with nothing off: the whole tree follows.
  lemma CloudAsked(c: Config, b: Book, name: string, on: bool, w: Walk)
    requires Idle(c, b) && ValidOrders(w.orders) && name in b.names && b.names[name] == c.cloud
    requires forall r :: r in b.state.power ==> if on then b.state.power[r] == Off else b.state.power[r] in {On, PowerState.Failed}
    requires Played(c, b, [[AskPower(name, on)]], [w]).state.queue == []
    ensures var e := Played(c, b, [[AskPower(name, on)]], [w]);
            && (forall r :: r in c.components ==> r in e.state.power && e.state.power[r] == if on then On else Off)
            && e.state.vms == b.state.vms && e.state.storage == b.state.storage && e.state.hosted == b.state.hosted
            && e.names == b.names && e.gears == b.gears && e.deleted == b.deleted && Idle(c, e)
            && e.state.next == b.state.next
  {
    hide Sound, WellFormed, Drain, Execute, ValidOrders, Cascade.Completion;
    var ty := if on then Boot else Shutdown;
    PlayedOnce(c, b, [AskPower(name, on)], w);
    OneAnswered(c, b, AskPower(name, on));
    CloudIsResource(c);
    var n := Cascade.CascadeCompletes(c, b.state, ty, w.orders);
    SameOver(c, Cascade.Start(c, b.state, ty), w.orders, n, w.steps);
    var e := Played(c, b, [[AskPower(name, on)]], [w]);
    forall r | r in c.components
      ensures r in e.state.power && e.state.power[r] == if on then On else Off
    {
      Cascade.FinishedPower(c, e.state, b.state, ty, r);
    }
    DrainNext(c, Cascade.Start(c, b.state, ty), w.orders, w.steps);
    NextSame(c, b.state, Power(c.cloud, ty));
  }

  lemma CloudIsResource(c: Config)
    requires WellFormed(c)
    ensures c.cloud in c.components
  {}

  // Drains give out no handles.
  lemma {:induction false} DrainNext(c: Config, s: State, ords: nat -> Order, n: nat)
    ensures Drain(c, s, ords, n).next == s.next
  {
    hide Step;
    if n != 0 {
      DrainNext(c, s, ords, n - 1);
      NextKept(c, Drain(c, s, ords, n - 1), ords(n - 1));
    }
  }

  lemma SameVMs(c: Config, s: State)
    requires Known(c, s)
    ensures s.next !in s.vms && s.next !in s.storage.vms && c.storage < s.next
    ensures forall v :: v in s.storage.vms ==> Ready(c, s, v)
  {
    hide AllAddressed;
  }

  // The storage hears of one new VM, alone in the queue.
  lemma CreationHeard(c: Config, s: State, ord: Order, v: UUID)
    requires WellFormed(c) && Sound(c, s) && ValidOrder(ord) && s.storage.ok && v !in s.storage.vms
    requires s.queue == [Event(s.now, c.storage, StorageEvent(VMCreated, v))] && forall u :: !Pending(s, u)
    ensures var d := Step(c, s, ord);
            && d.queue == [] && d.vms == s.vms && d.power == s.power && d.hosted == s.hosted
            && d.storage == Storage(true, s.storage.vms[v := CreatedVM])
  {
    hide WellFormed, Sound, Known, Dispatch, UpdateWorld, Timely;
    SoundDispatch(c, s, ord);
    Laws.StorageLaw(c, s, ord);
    var d := Dispatch(c, s, ord);
    DispatchShape(c, s, ord);
    assert d.queue == [] && BucketEmpty(d);
    DryNow(c, d);
    forall u
      ensures !Pending(d, u)
    {
      assert !Pending(s, u);
    }
    NoPendingNoUpdate(c, d, ord);
  }

  // A VM asked for under a free name, with a model: it goes by that name, has that model, is waiting
  // to be started, and the storage knows it as created.
  lemma VMAsked(c: Config, b: Book, name: string, model: Workload, w: Walk)
    requires Idle(c, b) && ValidOrders(w.orders) && name !in b.names
    requires Played(c, b, [[AskVM(name, Some(model))]], [w]).state.queue == []
    ensures var e, v := Played(c, b, [[AskVM(name, Some(model))]], [w]), b.state.next;
            && e.names == b.names[name := v] && e.gears == b.gears[v := Model(Some(model))] && e.deleted == b.deleted
            && e.state.vms == b.state.vms[v := VMData(Provisioning, NIL, c.storage)]
            && e.state.storage == Storage(true, b.state.storage.vms[v := CreatedVM])
            && e.state.power == b.state.power && e.state.hosted == b.state.hosted && Idle(c, e)
            && e.state.next == v + 1 && v !in b.state.vms
  {
    hide Sound, WellFormed, Drain, ValidOrders, AnsweredAll, Step, Known, Execute;
    var r, v := AskVM(name, Some(model)), b.state.next;
    PlayedOnce(c, b, [r], w);
    IdleGiving(c, b);
    SameVMs(c, b.state);
    CreationPosts(c, b, name, Some(model));
    var a := AnsweredAll(c, b, [r]);
    OneAnswered(c, b, r);
    assert a.state == Execute(c, b.state, Command.CreateVM(true));
    SoundExecute(c, b.state, Command.CreateVM(true));
    Retiring.NobodyWaits(c, b.state);
    assert forall u :: Pending(a.state, u) == Pending(b.state, u);
    OrderAt(w.orders, 0);
    CreationHeard(c, a.state, w.orders(0), v);
    OneStep(c, a.state, w.orders);
    SameOver(c, a.state, w.orders, 1, w.steps);
    DrainSound(c, a.state, w.orders, w.steps);
    DrainNext(c, a.state, w.orders, w.steps);
  }

  lemma OrderAt(ords: nat -> Order, i: nat)
    requires ValidOrders(ords)
    ensures ValidOrder(ords(i))
  {
    hide ValidOrder;
  }

  lemma OneStep(c: Config, s: State, ords: nat -> Order)
    ensures Drain(c, s, ords, 1) == Step(c, s, ords(0))
  {
    hide Step;
    assert Drain(c, s, ords, 0) == s;
  }

  // A created VM asked to be provisioned while the first server is on: it runs, hosted there, from
  // the time of the request plus its own start delay.
  lemma ProvisionAsked(c: Config, b: Book, name: string, w: Walk)
    requires Idle(c, b) && ValidOrders(w.orders) && name in b.names && c.first in b.state.power
    requires b.state.power[c.first] == On
    requires Is(b.state, b.names[name], CreatedVM) && HasState(b.state, b.names[name], {Provisioning})
    requires Played(c, b, [[AskProvision(name)]], [w]).state.queue == []
    ensures var e, v := Played(c, b, [[AskProvision(name)]], [w]), b.names[name];
            && e.names == b.names && e.gears == b.gears && e.deleted == b.deleted
            && HasState(e.state, v, {Running}) && Is(e.state, v, HostedVM) && EndToEnd.HostedHere(c, e.state, v)
            && |b.state.log| <= |e.state.log|
            && Event(b.state.now + DelaysOf(c, v).start, v, VMEvent(StartCompleted)) in e.state.log[|b.state.log|..]
            && e.state.power == b.state.power && Ready(c, e.state, v) && Idle(c, e) && e.state.next == b.state.next
  {
    hide Sound, WellFormed, Drain, ValidOrders, AnsweredAll, Known, ExecuteAll, Execute, EndToEnd.OtherKept, DelaysOf,
        EndToEnd.Provisions;
    var r, v := AskProvision(name), b.names[name];
    PlayedOnce(c, b, [r], w);
    OneAnswered(c, b, r);
    assert EndToEnd.SetOf([v]) == {v};
    var n := EndToEnd.ProvisioningCompletes(c, b.state, [v], w.orders);
    OneCommand(c, b.state, EndToEnd.Provisions([v]));
    var s := AnsweredAll(c, b, [r]).state;
    assert s == ExecuteAll(c, b.state, EndToEnd.Provisions([v]));
    SameOver(c, s, w.orders, n, w.steps);
    SoundExecuted(c, b.state, ProvisionRequest(v));
    DrainSound(c, s, w.orders, w.steps);
    DrainNext(c, s, w.orders, w.steps);
    NextSame(c, b.state, ProvisionRequest(v));
    SoundKnown(c, Drain(c, s, w.orders, w.steps));
    SameVMs(c, Drain(c, s, w.orders, w.steps));
  }

  lemma OneCommand(c: Config, s: State, cmds: seq<Command>)
    requires |cmds| == 1
    ensures ExecuteAll(c, s, cmds) == Execute(c, s, cmds[0])
  {
    hide Execute;
    assert cmds[..0] == [];
    assert ExecuteAll(c, s, []) == s;
  }

  lemma SoundExecuted(c: Config, s: State, m: Command)
    requires WellFormed(c) && Sound(c, s)
    requires (m.ProvisionRequest? || m.StopRequest? || m.DeleteRequest?) && m.target in s.vms
    ensures Sound(c, Execute(c, s, m))
  {
    hide WellFormed, Sound, Execute;
    SoundExecute(c, s, m);
  }

  // A running VM asked to stop is stopped, one stop delay later, and nobody else notices.
  lemma StopAsked(c: Config, b: Book, name: string, w: Walk)
    requires Idle(c, b) && ValidOrders(w.orders) && name in b.names && Ready(c, b.state, b.names[name])
    requires HasState(b.state, b.names[name], {Running})
    requires Played(c, b, [[AskStop(name)]], [w]).state.queue == []
    ensures var e, v := Played(c, b, [[AskStop(name)]], [w]), b.names[name];
            && e.names == b.names && e.gears == b.gears && e.deleted == b.deleted
            && e.state.vms == b.state.vms[v := b.state.vms[v].(state := Stopped)]
            && e.state.storage == b.state.storage && e.state.power == b.state.power && e.state.hosted == b.state.hosted
            && e.state.now == b.state.now + DelaysOf(c, v).stop + 1 && Idle(c, e)
            && Retiring.Newly(b.state, e.state, Event(b.state.now + DelaysOf(c, v).stop, v, VMEvent(StopCompleted)))
  {
    hide Sound, WellFormed, Drain, ValidOrders, AnsweredAll, Known, ExecuteAll, Execute, DelaysOf, Retiring.Newly;
    var r, v := AskStop(name), b.names[name];
    PlayedOnce(c, b, [r], w);
    OneAnswered(c, b, r);
    var cmds := [StopRequest(v)];
    var n := Retiring.RetiringCompletes(c, b.state, cmds, w.orders);
    OneCommand(c, b.state, cmds);
    var s := AnsweredAll(c, b, [r]).state;
    SameOver(c, s, w.orders, n, w.steps);
    SoundExecuted(c, b.state, StopRequest(v));
    DrainSound(c, s, w.orders, w.steps);
    var e := Played(c, b, [[r]], [w]);
    assert StopRequest(v) in cmds && cmds[0] == StopRequest(v);
    assert forall u :: DeleteRequest(u) !in cmds && (StopRequest(u) in cmds <==> u == v);
    assert e.state.vms == b.state.vms[v := b.state.vms[v].(state := Stopped)];
    assert (set u | u in b.state.storage.vms && DeleteRequest(u) in cmds) == {};
    assert b.state.storage.vms - {} == b.state.storage.vms;
  }

  // A VM in the storage asked to be deleted, for the first time, is out of it one delete delay later.
  lemma DeleteAsked(c: Config, b: Book, name: string, w: Walk)
    requires Idle(c, b) && ValidOrders(w.orders) && name in b.names && Ready(c, b.state, b.names[name])
    requires b.names[name] in b.state.storage.vms && b.names[name] !in b.deleted
    requires HasState(b.state, b.names[name], {Running, Stopped, Failure})
    requires Played(c, b, [[AskDelete(name)]], [w]).state.queue == []
    ensures var e, v := Played(c, b, [[AskDelete(name)]], [w]), b.names[name];
            && e.names == b.names && e.gears == b.gears && e.deleted == b.deleted + {v}
            && e.state.vms == b.state.vms[v := b.state.vms[v].(state := Deleting)]
            && e.state.storage == Storage(true, b.state.storage.vms - {v})
            && e.state.power == b.state.power && e.state.hosted == b.state.hosted
            && e.state.now == b.state.now + DelaysOf(c, v).delete + 1 && Idle(c, e)
            && Retiring.Newly(b.state, e.state, Event(b.state.now + DelaysOf(c, v).delete, c.storage, StorageEvent(VMDeleted, v)))
  {
    hide Sound, WellFormed, Drain, ValidOrders, AnsweredAll, Known, ExecuteAll, Execute, DelaysOf, Retiring.Newly;
    var r, v := AskDelete(name), b.names[name];
    PlayedOnce(c, b, [r], w);
    OneAnswered(c, b, r);
    var cmds := [DeleteRequest(v)];
    var n := Retiring.RetiringCompletes(c, b.state, cmds, w.orders);
    OneCommand(c, b.state, cmds);
    var s := AnsweredAll(c, b, [r]).state;
    SameOver(c, s, w.orders, n, w.steps);
    SoundExecuted(c, b.state, DeleteRequest(v));
    DrainSound(c, s, w.orders, w.steps);
    var e := Played(c, b, [[r]], [w]);
    assert DeleteRequest(v) in cmds && cmds[0] == DeleteRequest(v);
    assert forall u :: StopRequest(u) !in cmds && (DeleteRequest(u) in cmds <==> u == v);
    assert e.state.vms == b.state.vms[v := b.state.vms[v].(state := Deleting)];
    assert (set u | u in b.state.storage.vms && DeleteRequest(u) in cmds) == {v};
  }

  // ----- a whole life -----

  function Life(name: string, model: Workload): seq<seq<Request>> {
    [[AskPower("cloud-1", true)], [AskVM(name, Some(model))], [AskProvision(name)], [AskStop(name)], [AskDelete(name)]]
  }

  // The book after the first `k` batches.
  ghost function After(dcs: seq<DataCenterSpec>, name: string, model: Workload, walks: seq<Walk>, k: nat): Book
    requires |walks| == 5 && k <= 5
  {
    Played(Planned(FirstPlan(), dcs).config, FirstBook(dcs), Life(name, model)[..k], walks[..k])
  }

  // The walks are those of a session that comes to rest after each batch.
  ghost predicate Lived(dcs: seq<DataCenterSpec>, name: string, model: Workload, walks: seq<Walk>) {
    && AllNew(FIXED_NAMES, NamesOf(dcs)) && Staffed(dcs) && name !in FirstBook(dcs).names
    && |walks| == 5 && ValidWalks(walks)
    && RestsAlways(Planned(FirstPlan(), dcs).config, FirstBook(dcs), Life(name, model), walks)
  }

  lemma AfterNext(dcs: seq<DataCenterSpec>, name: string, model: Workload, walks: seq<Walk>, k: nat)
    requires Lived(dcs, name, model, walks) && k < 5
    ensures var c := Planned(FirstPlan(), dcs).config;
            After(dcs, name, model, walks, k + 1) ==
            Played(c, After(dcs, name, model, walks, k), [Life(name, model)[k]], [walks[k]])
    ensures After(dcs, name, model, walks, k + 1).state.queue == [] && ValidOrders(walks[k].orders)
  {
    hide AnsweredAll, RunDry, Planned, FirstBook, AllNew, NamesOf, Staffed, ValidOrders, AtRest;
    var c, b, batches := Planned(FirstPlan(), dcs).config, FirstBook(dcs), Life(name, model);
    PlayedOnce(c, After(dcs, name, model, walks, k), batches[k], walks[k]);
    assert batches[..k + 1][..k] == batches[..k] && walks[..k + 1][..k] == walks[..k];
    RestingAt(c, b, batches, walks, k + 1);
  }

  lemma RestingAt(c: Config, b: Book, batches: seq<seq<Request>>, walks: seq<Walk>, i: nat)
    requires |walks| == |batches| && RestsAlways(c, b, batches, walks) && i <= |batches|
    ensures Played(c, b, batches[..i], walks[..i]).state.queue == []
  {
    hide Played;
    assert AtRest(Played(c, b, batches[..i], walks[..i]).state);
  }

  lemma FirstIsIdle(dcs: seq<DataCenterSpec>)
    requires AllNew(FIXED_NAMES, NamesOf(dcs)) && Staffed(dcs)
    ensures var c, b := Planned(FirstPlan(), dcs).config, FirstBook(dcs);
            && Idle(c, b) && b.state.power.Keys == c.components.Keys && (forall r :: r in b.state.power ==> b.state.power[r] == Off)
            && "cloud-1" in b.names && b.names["cloud-1"] == c.cloud && b.deleted == {}
            && b.state.next == Planned(FirstPlan(), dcs).next && c.first in c.components
            && dcs[0].servers[0].name in b.names && b.names[dcs[0].servers[0].name] == c.first
  {
    hide Planned, AllNew, NamesOf, LaidOut, WellFormed, Sound;
    var p := Planned(FirstPlan(), dcs);
    StaffedIsWellFormed(dcs);
    ConfigurationLaidOut(dcs);
    NothingHasHappened(p.config, p.next);
    SoundInitially(p.config, Blank(p.config, p.next));
    CloudName(p, dcs);
    ServerByName(dcs, 0, 0);
    FirstIsResource(p.config);
  }

  lemma CloudName(p: Plan, dcs: seq<DataCenterSpec>)
    requires LaidOut(p, dcs)
    ensures "cloud-1" in p.names && p.names["cloud-1"] == p.config.cloud
  {
    hide AllStand;
  }

  lemma FirstIsResource(c: Config)
    requires WellFormed(c)
    ensures c.first in c.components
  {}

  // All is on; the VM exists with its model; it runs on the server; it is stopped; it is gone. The
  // server still lists it as a guest.
  ghost predicate Story(c: Config, name: string, v: UUID, model: Workload, server: UUID, on: Book, made: Book, up: Book,
                        down: Book, end: Book) {
    && (forall r :: r in c.components ==> r in on.state.power && on.state.power[r] == On)
    && name in made.names && made.names[name] == v && v in made.gears && made.gears[v] == Model(Some(model))
    && Is(made.state, v, CreatedVM)
    && HasState(up.state, v, {Running}) && Is(up.state, v, HostedVM) && server in up.state.hosted && v in up.state.hosted[server]
    && HasState(down.state, v, {Stopped}) && Is(down.state, v, HostedVM)
    && v !in end.state.storage.vms && server in end.state.hosted && v in end.state.hosted[server]
  }

  // From a configuration on: the cloud asked on, then a VM asked for, provisioned, stopped and
  // deleted, one after the other, on the first server of the first data center.
  lemma WholeLife(dcs: seq<DataCenterSpec>, name: string, model: Workload, walks: seq<Walk>)
    requires Lived(dcs, name, model, walks)
    ensures Staffed(dcs) && |walks| == 5 && dcs[0].servers[0].name in FirstBook(dcs).names
    ensures Story(Planned(FirstPlan(), dcs).config, name, Planned(FirstPlan(), dcs).next, model,
                  FirstBook(dcs).names[dcs[0].servers[0].name],
                  After(dcs, name, model, walks, 1), After(dcs, name, model, walks, 2), After(dcs, name, model, walks, 3),
                  After(dcs, name, model, walks, 4), After(dcs, name, model, walks, 5))
  {
    hide Planned, FirstBook, Played, Lived, Life, WellFormed, Sound, AnsweredAll, After, Retiring.Newly, DelaysOf, Idle;
    var c, v := Planned(FirstPlan(), dcs).config, Planned(FirstPlan(), dcs).next;
    StartOfLife(dcs, name, model, walks);
    FirstIsIdle(dcs);
    LifeIs(name, model);
    var b, on, made := After(dcs, name, model, walks, 0), After(dcs, name, model, walks, 1), After(dcs, name, model, walks, 2);
    AfterNext(dcs, name, model, walks, 0);
    CloudAsked(c, b, "cloud-1", true, walks[0]);
    AfterNext(dcs, name, model, walks, 1);
    VMAsked(c, on, name, model, walks[1]);
    AfterNext(dcs, name, model, walks, 2);
    ProvisionAsked(c, made, name, walks[2]);
    var up, down := After(dcs, name, model, walks, 3), After(dcs, name, model, walks, 4);
    AfterNext(dcs, name, model, walks, 3);
    StopAsked(c, up, name, walks[3]);
    AfterNext(dcs, name, model, walks, 4);
    DeleteAsked(c, down, name, walks[4]);
  }

  lemma StartOfLife(dcs: seq<DataCenterSpec>, name: string, model: Workload, walks: seq<Walk>)
    requires Lived(dcs, name, model, walks)
    ensures AllNew(FIXED_NAMES, NamesOf(dcs)) && Staffed(dcs) && |walks| == 5
    ensures After(dcs, name, model, walks, 0) == FirstBook(dcs) && name !in FirstBook(dcs).names
  {
    hide RestsAlways, ValidWalks, AllNew, NamesOf, Planned, FirstBook;
    assert Life(name, model)[..0] == [] && walks[..0] == [];
  }

  lemma LifeIs(name: string, model: Workload)
    ensures var l := Life(name, model);
            && |l| == 5 && l[0] == [AskPower("cloud-1", true)] && l[1] == [AskVM(name, Some(model))]
            && l[2] == [AskProvision(name)] && l[3] == [AskStop(name)] && l[4] == [AskDelete(name)]
  {}
}
