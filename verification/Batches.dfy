/**
 Well-formed batches: commands are given only while the queue is empty or the current batch is
 being given, none but requests concerns the storage itself, a request is for a VM the storage
 knows, and no VM is deleted twice. Along such a script the storage never fails, so every drain
 ends, whatever else is switched, stopped or deleted.
 */
module Batches {
  import opened Types
  import opened FlatQueue
  import opened Simulator
  import opened StepFacts
  import opened Clock
  import opened Registry
  import opened Effects
  import opened Deciding
  import opened Placement
  import opened Soundness
  import opened Draining
  import Lives
  import PowerFlow
  import HostedFirst

  // An allowed command that cannot make the storage fail.
  ghost predicate Proper(c: Config, s: State, m: Command) {
    && Allowed(c, s, m)
    && match m
       case Power(r, _) => r != c.storage
       case CreateVM(_) => true
       case ProvisionRequest(v) => v in s.storage.vms
       case StopRequest(v) => v != c.storage
       case DeleteRequest(v) => v != c.storage && DeletedOnce(c, s, v)
  }

  // A VM created in full has not been told to delete itself before.
  ghost predicate DeletedOnce(c: Config, s: State, v: UUID) {
    Ready(c, s, v) ==> Lives.Total(s, ToVM(v, Delete)) == 0
  }

  // A command opens a batch on an empty queue or continues the batch being given.
  ghost predicate Admits(c: Config, s: State, a: Action, giving: bool) {
    match a
    case Do(m) => (giving || s.queue == []) && Proper(c, s, m)
    case Sim(ord) => ValidOrder(ord)
  }

  predicate GivingBefore(script: seq<Action>, i: nat)
    requires i <= |script|
  {
    i == 0 || script[i - 1].Do?
  }

  ghost predicate Disciplined(c: Config, s: State, script: seq<Action>) {
    forall i :: 0 <= i < |script| ==>
      Admits(c, Run(c, s, script[..i]), script[i], GivingBefore(script, i))
  }

  // ----- the invariant -----

  ghost predicate Typed(c: Config, q: seq<Event>) {
    forall e :: e in q && e.to == c.storage ==> e.body.StorageEvent?
  }

  // Requests stand at the head, due together, each for a VM the storage knows.
  ghost predicate RequestsLead(st: map<UUID, VMStatus>, q: seq<Event>) {
    forall i :: 0 <= i < |q| && IsRequest(q[i]) ==>
      q[i].body.vm in st && q[i].time == q[0].time && forall j :: 0 <= j < i ==> IsRequest(q[j])
  }

  ghost predicate IsCreation(e: Event, v: UUID) {
    e.body == StorageEvent(VMCreated, v)
  }

  // A VM's creation is not overtaken by its deletion.
  ghost predicate CreatedFirst(q: seq<Event>) {
    forall i, j :: 0 <= i < j < |q| && q[i].body == VMEvent(Delete) ==> !IsCreation(q[j], q[i].to)
  }

  // Exactly one of: about to be created, known to the storage, deleted.
  ghost predicate Accounted(c: Config, s: State, v: UUID) {
    && (Ready(c, s, v) ==> Lives.Total(s, ToVM(v, Delete)) <= 1)
    && (Ready(c, s, v) ==>
          || (N(s, Created(c, v)) == 1 && v !in s.storage.vms && L(s, ToVM(v, Delete)) == 0)
          || (N(s, Created(c, v)) == 0 && (v in s.storage.vms || L(s, Deleted(c, v)) >= 1)))
  }

  ghost predicate AllAccounted(c: Config, s: State) {
    forall v :: Accounted(c, s, v)
  }

  ghost predicate Tame(c: Config, s: State) {
    && s.storage.ok
    && Typed(c, s.queue)
    && RequestsLead(s.storage.vms, s.queue)
    && CreatedFirst(s.queue)
    && AllAccounted(c, s)
  }

  // While a batch is being given everything queued is due now.
  ghost predicate Giving(s: State) {
    forall i :: 0 <= i < |s.queue| ==> s.queue[i].time == s.now
  }

  // ----- one dispatch -----

  lemma CreationKnown(c: Config, s: State, v: UUID)
    requires Sound(c, s) && Tame(c, s) && N(s, Created(c, v)) >= 1
    ensures v !in s.storage.vms
  {
    assert Traced(c, s, v);
    hide Known, Lives.Alive, DecisionsOrderly, PowerFlow.AllPowering, HostedFirst.InOrder, N, L;
  }

  // A hosting report finds its VM still in the storage.
  lemma ReportKnown(c: Config, s: State, v: UUID)
    requires WellFormed(c) && Sound(c, s) && Tame(c, s) && N(s, Hosted(c, v)) >= 1 && Ready(c, s, v)
    ensures v in s.storage.vms
  {
    assert Traced(c, s, v) && Lives.Conserved(c, s, v) && Accounted(c, s, v);
    assert L(s, Deleted(c, v)) == 0 by { HostedFirst.NotYetDeleted(c, s, v); }
    hide Known, Lives.Alive, DecisionsOrderly, PowerFlow.AllPowering, HostedFirst.InOrder, N, L, AllTraced,
        AllAccounted, Sound;
  }

  // The one deletion of a VM finds it still in the storage.
  lemma DeletionKnown(c: Config, s: State, v: UUID)
    requires WellFormed(c) && Sound(c, s) && Tame(c, s) && N(s, Deleted(c, v)) >= 1 && Ready(c, s, v)
    ensures v in s.storage.vms
  {
    assert Lives.Conserved(c, s, v) && Accounted(c, s, v);
    hide Known, Lives.Alive, DecisionsOrderly, PowerFlow.AllPowering, HostedFirst.InOrder, N, L, AllTraced,
        AllAccounted, Sound;
  }

  lemma StillOk(c: Config, s: State, ord: Order)
    requires WellFormed(c) && Sound(c, s) && Tame(c, s) && s.queue != []
    ensures Dispatch(c, s, ord).storage.ok
  {
    StorageAfter(c, s, ord);
    var e := s.queue[0];
    if e.to == c.storage {
      HeadQueued(s);
      assert Addressed(c, s, e);
      assert e.body.StorageEvent?;
      var v := e.body.vm;
      assert DecidedOnce(c, s, v);
      hide Dispatch, Known, Lives.Alive, DecisionsOrderly, PowerFlow.AllPowering, HostedFirst.InOrder, N, L,
          AllTraced, AllAccounted, Sound, Tame, WellFormed;
      if e.body.storageType == VMCreated {
        CreationKnown(c, s, v);
      } else if e.body.storageType == VMHosted {
        ReportKnown(c, s, v);
      } else if e.body.storageType == VMDeleted {
        DeletionKnown(c, s, v);
      } else if e.body.storageType == VMProvisionRequested {
        assert v in s.storage.vms by { RequestKnown(c, s); }
      }
    }
  }

  lemma RequestKnown(c: Config, s: State)
    requires Tame(c, s) && s.queue != [] && IsRequest(s.queue[0])
    ensures s.queue[0].body.vm in s.storage.vms
  {}

  lemma DeleteFindsCreated(c: Config, s: State, v: UUID)
    requires WellFormed(c) && Known(c, s) && s.queue != [] && CreatedFirst(s.queue) &&
             Tok(s.queue[0]) == ToVM(v, Delete)
    ensures N(s, Created(c, v)) == 0
  {
    TokensAbsent(s.queue, Created(c, v));
    hide Tokens;
    forall i | 0 <= i < |s.queue|
      ensures Tok(s.queue[i]) != Created(c, v)
    {
      if i > 0 {
        assert !IsCreation(s.queue[i], s.queue[0].to);
      }
    }
  }

  lemma AccountedDispatch(c: Config, s: State, ord: Order, v: UUID)
    requires WellFormed(c) && Known(c, s) && s.queue != [] && CreatedFirst(s.queue) && Accounted(c, s, v)
    requires Dispatch(c, s, ord).storage.ok && ValidOrder(ord)
    ensures Accounted(c, Dispatch(c, s, ord), v)
  {
    KnownDispatch(c, s, ord);
    VMAfter(c, s, ord, v);
    hide Dispatch, Known, N, L, Spawn, CreatedFirst, WellFormed;
    var d := Dispatch(c, s, ord);
    Causes(c, s, v);
    if Tok(s.queue[0]) == ToVM(v, Delete) {
      DeleteFindsCreated(c, s, v);
    }
    StatusAfter(c, s, ord, v);
    TokenAfter(c, s, ord, Created(c, v));
    TokenAfter(c, s, ord, ToVM(v, Delete));
    TokenAfter(c, s, ord, Deleted(c, v));
    assert Ready(c, d, v) ==> Ready(c, s, v);
  }

  ghost predicate Plain(c: Config, e: Event) {
    && (e.to == c.storage ==> e.body.StorageEvent?) && e.body != VMEvent(Delete)
    && (e.body.StorageEvent? ==> e.body.storageType in {VMHosted, VMDeleted})
  }

  // No handler sends a request, a creation or a delete command, nor a stranger to the storage.
  lemma OutKinds(c: Config, s: State, ord: Order)
    requires WellFormed(c) && Known(c, s) && ValidOrder(ord) && s.queue != []
    ensures forall i :: 0 <= i < |Out(c, s, ord)| ==> Plain(c, Out(c, s, ord)[i])
  {
    OutShape(c, s, ord);
    hide Out, Known, WellFormed, Spawn, Plain;
    if s.queue[0].body.ResourceEvent? {
      PowerKinds(c, s, ord);
    } else if Out(c, s, ord) != [] {
      EmitsSpawn(c, s, ord, Tok(Out(c, s, ord)[0]));
      SpawnKinds(c, s, Out(c, s, ord)[0]);
    }
  }

  lemma SpawnKinds(c: Config, s: State, e: Event)
    requires WellFormed(c) && Known(c, s) && s.queue != [] && Spawn(c, s) == [Tok(e)]
    ensures Plain(c, e)
  {
    assert Addressed(c, s, s.queue[0]);
    assert forall g :: Ready(c, s, g) ==> g != c.storage;
    hide ActorsKnown;
  }

  lemma PowerKinds(c: Config, s: State, ord: Order)
    requires WellFormed(c) && Known(c, s) && ValidOrder(ord) && s.queue != [] && s.queue[0].body.ResourceEvent?
    ensures forall i :: 0 <= i < |Out(c, s, ord)| ==> Plain(c, Out(c, s, ord)[i])
  {
    hide Out, Known, WellFormed, PowerFlow.PowerDelay;
    PowerFlow.OutPower(c, s, ord);
    if PowerFlow.Fires(c, s) {
      var r := s.queue[0].to;
      var order := ord(c.components[r]);
      assert Enumerates(order, c.components[r]);
      StorageIsNoResource(c);
      forall i | 0 <= i < |order|
        ensures order[i] != c.storage
      {
        assert order[i] in order;
        ComponentFacts(c, r, order[i]);
      }
    }
  }

  lemma StorageIsNoResource(c: Config)
    requires WellFormed(c)
    ensures c.storage !in c.components
  {}

  // ----- orders of the queue -----

  lemma CreatedFirstInsert(c: Config, q: seq<Event>, e: Event)
    requires CreatedFirst(q)
    requires Plain(c, e)
    ensures CreatedFirst(InsertBack(q, e))
  {
    var k := UpTo(q, e.time);
    var q' := InsertBack(q, e);
    forall i, j | 0 <= i < j < |q'| && q'[i].body == VMEvent(Delete)
      ensures !IsCreation(q'[j], q'[i].to)
    {
      assert q'[i] == if i < k then q[i] else if i == k then e else q[i - 1];
      assert q'[j] == if j < k then q[j] else if j == k then e else q[j - 1];
    }
  }

  lemma {:induction false} CreatedFirstInsertAll(c: Config, q: seq<Event>, es: seq<Event>)
    requires CreatedFirst(q)
    requires forall e :: e in es ==> Plain(c, e)
    ensures CreatedFirst(InsertAllBack(q, es))
  {
    if es != [] {
      CreatedFirstInsertAll(c, q, es[..|es| - 1]);
      hide InsertBack, CreatedFirst, Plain;
      CreatedFirstInsert(c, InsertAllBack(q, es[..|es| - 1]), es[|es| - 1]);
    }
  }

  lemma CreatedFirstTail(q: seq<Event>)
    requires q != [] && CreatedFirst(q)
    ensures CreatedFirst(q[1..])
  {}

  lemma CreatedFirstDispatch(c: Config, s: State, ord: Order)
    requires WellFormed(c) && Known(c, s) && ValidOrder(ord) && s.queue != [] && CreatedFirst(s.queue) &&
             Typed(c, s.queue)
    ensures CreatedFirst(Dispatch(c, s, ord).queue) && Typed(c, Dispatch(c, s, ord).queue)
  {
    DispatchShape(c, s, ord);
    OutKinds(c, s, ord);
    hide Dispatch, Out, Known, Handled, WellFormed, CreatedFirst, IsCreation, InsertAllBack;
    CreatedFirstTail(s.queue);
    CreatedFirstInsertAll(c, s.queue[1..], Out(c, s, ord));
    InsertAllMembers(s.queue[1..], Out(c, s, ord));
  }

  predicate NoRequests(q: seq<Event>) {
    forall i :: 0 <= i < |q| ==> !IsRequest(q[i])
  }

  // Either the head is a request, which schedules nothing and removes nobody, or no request is left.
  lemma RequestsDispatch(c: Config, s: State, ord: Order)
    requires WellFormed(c) && Known(c, s) && ValidOrder(ord) && s.queue != []
    requires RequestsLead(s.storage.vms, s.queue) && Dispatch(c, s, ord).storage.ok
    ensures RequestsLead(Dispatch(c, s, ord).storage.vms, Dispatch(c, s, ord).queue)
    ensures BucketEmpty(Dispatch(c, s, ord)) ==> NoRequests(Dispatch(c, s, ord).queue)
  {
    hide Dispatch, Out, Known, Handled, WellFormed;
    if IsRequest(s.queue[0]) {
      RequestSchedules(c, s, ord);
      RequestKeeps(c, s, ord);
      LeadTailed(s.storage.vms, Dispatch(c, s, ord).storage.vms, s.queue);
      DispatchShape(c, s, ord);
    } else {
      DispatchShape(c, s, ord);
      OutKinds(c, s, ord);
      hide InsertAllBack, Plain, RequestsLead;
      NoneLeft(s.storage.vms, s.queue);
      NoneInserted(c, s.queue[1..], Out(c, s, ord));
      NoneLead(Dispatch(c, s, ord).storage.vms, Dispatch(c, s, ord).queue);
    }
  }

  lemma LeadTailed(st: map<UUID, VMStatus>, st': map<UUID, VMStatus>, q: seq<Event>)
    requires q != [] && RequestsLead(st, q) && st.Keys == st'.Keys
    ensures RequestsLead(st', q[1..])
    ensures q[1..] == [] || q[1].time != q[0].time ==> NoRequests(q[1..])
  {
    var r := q[1..];
    assert forall i :: 0 <= i < |r| ==> r[i] == q[i + 1];
    assert forall v :: v in st <==> v in st';
    forall i | 0 <= i < |r| && IsRequest(r[i])
      ensures r[i].time == q[0].time && IsRequest(q[1])
    {
      assert IsRequest(q[i + 1]);
      assert q[1].time == q[0].time || i == 0;
    }
  }

  lemma NoneLeft(st: map<UUID, VMStatus>, q: seq<Event>)
    requires q != [] && RequestsLead(st, q) && !IsRequest(q[0])
    ensures NoRequests(q[1..])
  {
    assert forall i :: 0 <= i < |q[1..]| ==> q[1..][i] == q[i + 1];
    assert forall i :: 0 <= i < |q| ==> !IsRequest(q[i]);
  }

  lemma NoneLead(st: map<UUID, VMStatus>, q: seq<Event>)
    requires NoRequests(q)
    ensures RequestsLead(st, q)
  {}

  lemma NoneInserted(c: Config, q: seq<Event>, out: seq<Event>)
    requires NoRequests(q) && forall i :: 0 <= i < |out| ==> Plain(c, out[i])
    ensures NoRequests(InsertAllBack(q, out))
  {
    InsertAllMembers(q, out);
    hide InsertAllBack;
    forall i | 0 <= i < |InsertAllBack(q, out)|
      ensures !IsRequest(InsertAllBack(q, out)[i])
    {
      assert InsertAllBack(q, out)[i] in InsertAllBack(q, out);
    }
  }

  lemma RequestSchedules(c: Config, s: State, ord: Order)
    requires WellFormed(c) && Known(c, s) && s.queue != [] && IsRequest(s.queue[0])
    ensures Dispatch(c, s, ord).queue == s.queue[1..]
  {
    hide Dispatch, Out, Known, WellFormed, Handled, Spawn;
    DispatchShape(c, s, ord);
    OutSpawned(c, s, ord);
    SpawnsNothing(c, s);
  }

  lemma RequestKeeps(c: Config, s: State, ord: Order)
    requires WellFormed(c) && Known(c, s) && s.queue != [] && IsRequest(s.queue[0])
    ensures Dispatch(c, s, ord).storage.vms.Keys == s.storage.vms.Keys
  {
    StorageAfter(c, s, ord);
    hide Dispatch, Known, WellFormed;
  }

  lemma TameDispatch(c: Config, s: State, ord: Order)
    requires WellFormed(c) && Sound(c, s) && Tame(c, s) && ValidOrder(ord) && s.queue != []
    ensures Tame(c, Dispatch(c, s, ord))
    ensures BucketEmpty(Dispatch(c, s, ord)) ==> NoRequests(Dispatch(c, s, ord).queue)
  {
    StillOk(c, s, ord);
    hide Dispatch, Known, Lives.Alive, DecisionsOrderly, PowerFlow.AllPowering, HostedFirst.InOrder, AllTraced,
        WellFormed, RequestsLead, CreatedFirst, Typed, Accounted, Timely;
    CreatedFirstDispatch(c, s, ord);
    RequestsDispatch(c, s, ord);
    forall v
      ensures Accounted(c, Dispatch(c, s, ord), v)
    {
      AccountedDispatch(c, s, ord, v);
    }
  }

  // ----- one world update -----

  lemma TameUpdate(c: Config, d: State, ord: Order)
    requires WellFormed(c) && Tame(c, d) && ValidOrder(ord) && NoRequests(d.queue)
    requires forall i :: 0 <= i < |d.queue| ==> d.now < d.queue[i].time
    ensures Tame(c, Tick(UpdateWorld(c, d, ord)))
  {
    UpdateShape(c, d, ord);
    Lives.UpdateActors(c, d, ord);
    hide UpdateWorld, Placing, WellFormed, Accounted;
    var p := Placing(c, d, ord);
    NeutralPrefix(c, Decisions(c, d.now, p) + Placements(c, d.now, p), d.queue, d.storage.vms);
    forall v
      ensures Accounted(c, Tick(UpdateWorld(c, d, ord)), v)
    {
      assert Accounted(c, d, v);
      AccountedUpdate(c, d, ord, v);
    }
    hide Decisions, Placements, RequestsLead, CreatedFirst, Typed;
  }

  lemma NeutralPrefix(c: Config, a: seq<Event>, q: seq<Event>, st: map<UUID, VMStatus>)
    requires CreatedFirst(q) && Typed(c, q) && NoRequests(q)
    requires forall i :: 0 <= i < |a| ==>
      a[i].body.ServerEvent? || (a[i].body.StorageEvent? && a[i].body.storageType == VMScheduled)
    requires forall i :: 0 <= i < |a| ==> a[i].to == c.storage ==> a[i].body.StorageEvent?
    ensures CreatedFirst(a + q) && Typed(c, a + q) && RequestsLead(st, a + q)
  {
    var r := a + q;
    forall i | 0 <= i < |r|
      ensures r[i] == if i < |a| then a[i] else q[i - |a|]
    {}
    assert NoRequests(r);
  }

  lemma AccountedUpdate(c: Config, d: State, ord: Order, v: UUID)
    requires WellFormed(c) && ValidOrder(ord) && Accounted(c, d, v)
    requires forall i :: 0 <= i < |d.queue| ==> d.now < d.queue[i].time
    ensures Accounted(c, Tick(UpdateWorld(c, d, ord)), v)
  {
    hide UpdateWorld, N, WellFormed;
    Lives.UpdateActors(c, d, ord);
    Lives.UpdateSends(c, d, ord, v);
  }

  lemma TameStep(c: Config, s: State, ord: Order)
    requires WellFormed(c) && Sound(c, s) && Tame(c, s) && ValidOrder(ord)
    ensures Tame(c, Step(c, s, ord))
  {
    if s.queue != [] {
      SoundDispatch(c, s, ord);
      TameDispatch(c, s, ord);
      var d := Dispatch(c, s, ord);
      hide Dispatch, UpdateWorld, Sound, Tame, Known, Lives.Alive, DecisionsOrderly, PowerFlow.AllPowering,
          HostedFirst.InOrder, AllTraced, WellFormed;
      if BucketEmpty(d) {
        DryMeansLater(d);
        TameUpdate(c, d, ord);
      }
    }
  }

  // ----- one command -----

  lemma AppendedLast(q: seq<Event>, e: Event)
    requires forall i :: 0 <= i < |q| ==> q[i].time == e.time
    ensures InsertBack(q, e) == q + [e]
    ensures InsertFront(q, e) == [e] + q
  {
    InsertBackBetween(q, [], e);
    InsertFrontAhead(q, e);
    assert q + [] == q;
    assert q + [e] + [] == q + [e];
  }

  lemma NewCommandLast(c: Config, s: State, m: Command)
    requires WellFormed(c) && Known(c, s) && Proper(c, s, m) && CreatedFirst(s.queue) && Typed(c, s.queue)
    requires !m.ProvisionRequest? && CommandEvents(c, s, m) != []
    ensures var q := s.queue + CommandEvents(c, s, m); CreatedFirst(q) && Typed(c, q)
  {
    var q, e := s.queue + CommandEvents(c, s, m), CommandEvents(c, s, m)[0];
    assert e.to == c.storage ==> e.body.StorageEvent?;
    forall i, j | 0 <= i < j < |q| && q[i].body == VMEvent(Delete)
      ensures !IsCreation(q[j], q[i].to)
    {
      if j == |s.queue| && m.CreateVM? {
        assert q[i] in s.queue;
        assert Addressed(c, s, q[i]);
        Lives.AddressedOld(c, s, q[i]);
      } else if j < |s.queue| {
        assert q[i] == s.queue[i] && q[j] == s.queue[j];
      }
    }
  }

  lemma RequestFirst(c: Config, st: map<UUID, VMStatus>, q: seq<Event>, e: Event)
    requires RequestsLead(st, q) && CreatedFirst(q) && Typed(c, q) && IsRequest(e) && e.body.vm in st
    requires forall i :: 0 <= i < |q| ==> q[i].time == e.time
    ensures RequestsLead(st, [e] + q) && CreatedFirst([e] + q) && Typed(c, [e] + q)
  {
    var r := [e] + q;
    assert forall i :: 1 <= i < |r| ==> r[i] == q[i - 1];
  }

  lemma RequestsAppend(st: map<UUID, VMStatus>, q: seq<Event>, e: Event)
    requires RequestsLead(st, q) && !IsRequest(e)
    ensures RequestsLead(st, q + [e])
  {
    var r := q + [e];
    assert forall i :: 0 <= i < |q| ==> r[i] == q[i];
  }

  lemma AccountedExecute(c: Config, s: State, m: Command, v: UUID)
    requires WellFormed(c) && Known(c, s) && Proper(c, s, m) && Accounted(c, s, v)
    ensures Accounted(c, Execute(c, s, m), v)
  {
    var d := Execute(c, s, m);
    Lives.ExecuteVMs(c, s, m, v);
    Lives.ExecuteSends(c, s, m, v);
    ExecuteReady(c, s, m, v);
    if v == s.next {
      assert v !in s.storage.vms by { assert forall u :: u in s.storage.vms ==> Ready(c, s, u); }
      Lives.Fresh(c, s, Created(c, v));
      Lives.Fresh(c, s, ToVM(v, Delete));
    }
    hide Execute, N, Known, WellFormed;
  }

  lemma QueueExecute(c: Config, s: State, m: Command)
    requires WellFormed(c) && Known(c, s) && Giving(s) && Proper(c, s, m)
    requires Typed(c, s.queue) && CreatedFirst(s.queue) && RequestsLead(s.storage.vms, s.queue)
    ensures var s' := Execute(c, s, m);
            Typed(c, s'.queue) && CreatedFirst(s'.queue) && RequestsLead(s.storage.vms, s'.queue) && Giving(s')
  {
    ExecuteShape(c, s, m);
    var es := CommandEvents(c, s, m);
    hide Execute, Known, WellFormed, RequestsLead, CreatedFirst, Typed, InsertBack, InsertFront;
    if es != [] {
      AppendedLast(s.queue, es[0]);
      assert es == [es[0]];
      if m.ProvisionRequest? {
        RequestFirst(c, s.storage.vms, s.queue, es[0]);
      } else {
        NewCommandLast(c, s, m);
        RequestsAppend(s.storage.vms, s.queue, es[0]);
      }
    }
  }

  lemma TameExecute(c: Config, s: State, m: Command)
    requires WellFormed(c) && Known(c, s) && Tame(c, s) && Giving(s) && Proper(c, s, m)
    ensures Tame(c, Execute(c, s, m)) && Giving(Execute(c, s, m))
  {
    hide Execute, Known, WellFormed, Accounted, Proper, RequestsLead, CreatedFirst, Typed, Giving;
    QueueExecute(c, s, m);
    Lives.ExecuteVMs(c, s, m, 0);
    forall v
      ensures Accounted(c, Execute(c, s, m), v)
    {
      AccountedExecute(c, s, m, v);
    }
  }

  // ----- whole scripts -----

  lemma TameInitially(c: Config, s: State)
    requires WellFormed(c) && Initial(c, s)
    ensures Tame(c, s) && Giving(s)
  {
    forall v
      ensures Accounted(c, s, v)
    {
      hide WellFormed, N, L;
      InitialCounts(c, s, Created(c, v));
      InitialCounts(c, s, ToVM(v, Delete));
    }
    hide Accounted, WellFormed;
  }

  lemma TameAction(c: Config, s: State, a: Action, giving: bool)
    requires WellFormed(c) && Sound(c, s) && Tame(c, s) && Admits(c, s, a, giving) && (giving ==> Giving(s))
    ensures Sound(c, Next(c, s, a)) && Tame(c, Next(c, s, a)) && (a.Do? ==> Giving(Next(c, s, a)))
  {
    hide Sound, Tame, Execute, Step, WellFormed, Known, Timely, Allowed, DeletedOnce, ValidOrder;
    match a
    case Do(m) =>
      SoundKnown(c, s);
      SoundExecute(c, s, m);
      TameExecute(c, s, m);
    case Sim(ord) =>
      SoundStep(c, s, ord);
      TameStep(c, s, ord);
  }

  lemma TameFirst(c: Config, s: State)
    requires WellFormed(c) && Initial(c, s)
    ensures Sound(c, s) && Tame(c, s) && Giving(s)
  {
    hide WellFormed, Sound, Tame, Initial, Giving;
    SoundInitially(c, s);
    TameInitially(c, s);
  }

  lemma {:induction false} TameRun(c: Config, s: State, script: seq<Action>)
    requires WellFormed(c) && Initial(c, s) && Disciplined(c, s, script)
    ensures Sound(c, Run(c, s, script)) && Tame(c, Run(c, s, script))
    ensures script == [] || script[|script| - 1].Do? ==> Giving(Run(c, s, script))
  {
    hide Disciplined, Sound, Tame, Initial, Next, WellFormed, Admits, Giving;
    if script == [] {
      TameFirst(c, s);
    } else {
      var init, a := script[..|script| - 1], script[|script| - 1];
      DisciplinedPrefix(c, s, script);
      TameRun(c, s, init);
      TameAction(c, Run(c, s, init), a, GivingBefore(init, |init|));
    }
  }

  lemma DisciplinedPrefix(c: Config, s: State, script: seq<Action>)
    requires Disciplined(c, s, script) && script != []
    ensures Disciplined(c, s, script[..|script| - 1])
    ensures var init := script[..|script| - 1];
            Admits(c, Run(c, s, init), script[|script| - 1], GivingBefore(init, |init|))
  {
    hide Run, Admits;
    var init := script[..|script| - 1];
    forall i | 0 <= i <= |init|
      ensures GivingBefore(init, i) == GivingBefore(script, i)
    {}
    hide GivingBefore;
    assert Admits(c, Run(c, s, script[..|init|]), script[|init|], GivingBefore(script, |init|));
    forall i | 0 <= i < |init|
      ensures Admits(c, Run(c, s, init[..i]), init[i], GivingBefore(init, i))
    {
      assert init[..i] == script[..i] && init[i] == script[i];
    }
  }

  lemma {:induction false} DrainTame(c: Config, s: State, ords: nat -> Order, n: nat)
    requires WellFormed(c) && Sound(c, s) && Tame(c, s) && ValidOrders(ords)
    ensures Tame(c, Drain(c, s, ords, n))
  {
    hide Sound, Tame, Step, WellFormed;
    if n != 0 {
      DrainTame(c, s, ords, n - 1);
      DrainSound(c, s, ords, n - 1);
      TameStep(c, Drain(c, s, ords, n - 1), ords(n - 1));
    }
  }

  // Along every disciplined script the storage works, and from every state on the way the
  // queue can be drained, whatever the iteration orders.
  lemma WellFormedBatchesNeverFail(c: Config, s: State, script: seq<Action>, ords: nat -> Order)
    requires WellFormed(c) && Initial(c, s) && Disciplined(c, s, script) && ValidOrders(ords)
    ensures Run(c, s, script).storage.ok
    ensures Ends(c, Run(c, s, script), ords)
  {
    TameRun(c, s, script);
    var s' := Run(c, s, script);
    hide Sound, WellFormed, Initial, Disciplined, Run, Ends, GetsStuck, RequestsLead, CreatedFirst, Typed, AllAccounted;
    EndsUnlessStuck(c, s', ords);
    NeverStuck(c, s', ords);
  }

  lemma NeverStuck(c: Config, s: State, ords: nat -> Order)
    requires WellFormed(c) && Sound(c, s) && Tame(c, s) && ValidOrders(ords)
    ensures !GetsStuck(c, s, ords)
  {
    hide Sound, WellFormed, ValidOrders, Drain, RequestsLead, CreatedFirst, Typed, AllAccounted;
    forall n: nat
      ensures !Stuck(Drain(c, s, ords, n))
    {
      DrainTame(c, s, ords, n);
    }
  }
}
