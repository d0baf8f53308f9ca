/** What one insertion, one dispatch and one world update do to the queue and to its tokens. */
module StepFacts {
  import opened Types
  import opened FlatQueue
  import opened Simulator

  // ----- names of the tokens -----

  function Created(c: Config, v: UUID): Token { Token(c.storage, StorageEvent(VMCreated, v)) }
  function Requested(c: Config, v: UUID): Token { Token(c.storage, StorageEvent(VMProvisionRequested, v)) }
  function Scheduled(c: Config, v: UUID): Token { Token(c.storage, StorageEvent(VMScheduled, v)) }
  function Provision(c: Config, v: UUID): Token { Token(c.first, ServerEvent(ProvisionVM, v)) }
  function Hosted(c: Config, v: UUID): Token { Token(c.storage, StorageEvent(VMHosted, v)) }
  function Deleted(c: Config, v: UUID): Token { Token(c.storage, StorageEvent(VMDeleted, v)) }
  function ToVM(v: UUID, ty: VMEventType): Token { Token(v, VMEvent(ty)) }
  function ToResource(r: UUID, ty: ResourceEventType): Token { Token(r, ResourceEvent(ty)) }

  // Copies of a token still queued, and already dispatched.
  function N(s: State, t: Token): nat { Tokens(s.queue)[t] }
  function L(s: State, t: Token): nat { Tokens(s.log)[t] }

  // ----- one dispatch -----

  function Popped(s: State): State
    requires s.queue != []
  {
    s.(now := s.queue[0].time, queue := s.queue[1..], log := s.log + [s.queue[0]])
  }

  // The actors after the head of the queue was handled, and the events that handler schedules.
  function Handled(c: Config, s: State, ord: Order): State
    requires s.queue != []
  {
    React(c, Popped(s), s.queue[0], ord).0
  }

  function Out(c: Config, s: State, ord: Order): seq<Event>
    requires s.queue != []
  {
    React(c, Popped(s), s.queue[0], ord).1
  }

  lemma ReactTimes(c: Config, s: State, e: Event, ord: Order)
    ensures forall i :: 0 <= i < |React(c, s, e, ord).1| ==> e.time <= React(c, s, e, ord).1[i].time
  {}

  // A handler changes actors only: neither the queue nor the clock nor the history.
  lemma ReactFrame(c: Config, s: State, e: Event, ord: Order)
    ensures var s' := React(c, s, e, ord).0;
            s' == s.(vms := s'.vms, storage := s'.storage, power := s'.power, hosted := s'.hosted, crashed := s'.crashed)
  {}

  lemma {:induction false} InsertAllIsBack(s: State, es: seq<Event>)
    requires forall i :: 0 <= i < |es| ==> s.now <= es[i].time
    ensures InsertAll(s, es) == s.(queue := InsertAllBack(s.queue, es), inserted := s.inserted + |es|)
  {
    if es != [] {
      InsertAllIsBack(s, es[..|es| - 1]);
    }
  }

  // No handler schedules into the past, so a dispatch takes the head off, changes the actors
  // and inserts every scheduled event.
  lemma DispatchShape(c: Config, s: State, ord: Order)
    requires s.queue != []
    ensures Dispatch(c, s, ord) ==
            Handled(c, s, ord).(queue := InsertAllBack(s.queue[1..], Out(c, s, ord)),
                                inserted := s.inserted + |Out(c, s, ord)|)
    ensures forall i :: 0 <= i < |Out(c, s, ord)| ==> s.queue[0].time <= Out(c, s, ord)[i].time
    ensures Dispatch(c, s, ord).now == s.queue[0].time
    ensures Dispatch(c, s, ord).log == s.log + [s.queue[0]]
    ensures Dispatch(c, s, ord).updates == s.updates
    ensures Dispatch(c, s, ord).next == s.next
  {
    ReactTimes(c, Popped(s), s.queue[0], ord);
    ReactFrame(c, Popped(s), s.queue[0], ord);
    hide React;
    InsertAllIsBack(Handled(c, s, ord), Out(c, s, ord));
  }

  // Only a power command fans out; every other handler schedules at most one event.
  lemma OutShape(c: Config, s: State, ord: Order)
    requires s.queue != []
    ensures s.queue[0].body.ResourceEvent? ==>
              forall i :: 0 <= i < |Out(c, s, ord)| ==> Out(c, s, ord)[i].body.ResourceEvent?
    ensures !s.queue[0].body.ResourceEvent? ==> |Out(c, s, ord)| <= 1
  {}

  // Whether handling the head schedules the token `t`, for a token that is no power command.
  function Emits(c: Config, s: State, ord: Order, t: Token): nat
    requires s.queue != []
  {
    if !s.queue[0].body.ResourceEvent? && Out(c, s, ord) != [] && Tok(Out(c, s, ord)[0]) == t then 1 else 0
  }

  lemma DispatchLog(c: Config, s: State, ord: Order, t: Token)
    requires s.queue != []
    ensures L(Dispatch(c, s, ord), t) == L(s, t) + (if t == Tok(s.queue[0]) then 1 else 0)
  {
    DispatchShape(c, s, ord);
    TokensAppend(s.log, s.queue[0]);
  }

  lemma DispatchTokens(c: Config, s: State, ord: Order, t: Token)
    requires s.queue != []
    requires !t.body.ResourceEvent?
    ensures N(s, t) >= (if t == Tok(s.queue[0]) then 1 else 0)
    ensures N(Dispatch(c, s, ord), t) == N(s, t) - (if t == Tok(s.queue[0]) then 1 else 0) + Emits(c, s, ord, t)
    ensures L(Dispatch(c, s, ord), t) == L(s, t) + (if t == Tok(s.queue[0]) then 1 else 0)
  {
    DispatchShape(c, s, ord);
    DispatchLog(c, s, ord, t);
    OutShape(c, s, ord);
    hide React, Dispatch, Handled, Out, Tokens, InsertAllBack;
    TokensReplaceHead(s.queue, Out(c, s, ord), t);
  }

  // The head is queued.
  lemma HeadQueued(s: State)
    requires s.queue != []
    ensures N(s, Tok(s.queue[0])) >= 1
  {}

  // ----- one world update -----

  function PendingOf(s: State, vs: seq<UUID>): seq<UUID> {
    if vs == [] then [] else
      PendingOf(s, vs[..|vs| - 1]) + (if Pending(s, vs[|vs| - 1]) then [vs[|vs| - 1]] else [])
  }

  // The decisions, latest first, and the placements, earliest first.
  function Decisions(c: Config, t: int, vs: seq<UUID>): (es: seq<Event>)
    ensures |es| == |vs| && forall i :: 0 <= i < |es| ==>
              es[i] == Event(t, c.storage, StorageEvent(VMScheduled, vs[|vs| - 1 - i]))
  {
    if vs == [] then [] else
      [Event(t, c.storage, StorageEvent(VMScheduled, vs[|vs| - 1]))] + Decisions(c, t, vs[..|vs| - 1])
  }

  function Placements(c: Config, t: int, vs: seq<UUID>): (es: seq<Event>)
    ensures |es| == |vs| && forall i :: 0 <= i < |es| ==>
              es[i] == Event(t, c.first, ServerEvent(ProvisionVM, vs[i]))
  {
    if vs == [] then [] else
      Placements(c, t, vs[..|vs| - 1]) + [Event(t, c.first, ServerEvent(ProvisionVM, vs[|vs| - 1]))]
  }

  lemma PlaceShape(c: Config, s: State, d: seq<Event>, l: seq<Event>, later: seq<Event>, v: UUID)
    requires s.queue == d + l + later
    requires forall i :: 0 <= i < |d| ==> d[i].time == s.now
    requires forall i :: 0 <= i < |l| ==> l[i].time == s.now
    requires later != [] ==> s.now < later[0].time
    ensures var e1 := Event(s.now, c.storage, StorageEvent(VMScheduled, v));
            var e2 := Event(s.now, c.first, ServerEvent(ProvisionVM, v));
            Place(c, s, v) == s.(queue := ([e1] + d) + (l + [e2]) + later, inserted := s.inserted + 2)
  {
    var e1 := Event(s.now, c.storage, StorageEvent(VMScheduled, v));
    var e2 := Event(s.now, c.first, ServerEvent(ProvisionVM, v));
    InsertAround(d, l, later, e1, e2);
    hide InsertBack, InsertFront;
  }

  // For any number of pending VMs walked in any order, the instant that has just run dry is
  // left with every decision ahead of every placement.
  lemma {:induction false} ScanShape(c: Config, s: State, vs: seq<UUID>)
    requires forall i :: 0 <= i < |s.queue| ==> s.now < s.queue[i].time
    ensures var p := PendingOf(s, vs);
            Scan(c, s, vs) == s.(queue := Decisions(c, s.now, p) + Placements(c, s.now, p) + s.queue,
                                 inserted := s.inserted + 2 * |p|)
  {
    if vs != [] {
      var init, v := vs[..|vs| - 1], vs[|vs| - 1];
      var p0 := PendingOf(s, init);
      ScanShape(c, s, init);
      if Pending(s, v) {
        var p := p0 + [v];
        assert p[..|p| - 1] == p0;
        hide Place;
        PlaceShape(c, Scan(c, s, init), Decisions(c, s.now, p0), Placements(c, s.now, p0), s.queue, v);
      } else {
        assert PendingOf(s, vs) == p0;
      }
    }
  }

  lemma {:induction false} PendingOfEnumerates(s: State, vs: seq<UUID>)
    requires Distinct(vs)
    ensures Distinct(PendingOf(s, vs))
    ensures forall v :: v in PendingOf(s, vs) <==> v in vs && Pending(s, v)
  {
    if vs != [] {
      var init, v := vs[..|vs| - 1], vs[|vs| - 1];
      PendingOfEnumerates(s, init);
      assert vs == init + [v];
      assert v !in init;
    }
  }

  function Placing(c: Config, s: State, ord: Order): seq<UUID> {
    PendingOf(s, ord(s.storage.vms.Keys))
  }

  lemma PlacingEnumerates(c: Config, s: State, ord: Order)
    requires ValidOrder(ord)
    ensures Distinct(Placing(c, s, ord))
    ensures forall v :: v in Placing(c, s, ord) <==> Pending(s, v)
  {
    assert Enumerates(ord(s.storage.vms.Keys), s.storage.vms.Keys);
    PendingOfEnumerates(s, ord(s.storage.vms.Keys));
  }

  lemma UpdateShape(c: Config, s: State, ord: Order)
    requires forall i :: 0 <= i < |s.queue| ==> s.now < s.queue[i].time
    ensures var p := Placing(c, s, ord);
            UpdateWorld(c, s, ord) ==
            s.(queue := Decisions(c, s.now, p) + Placements(c, s.now, p) + s.queue,
               inserted := s.inserted + 2 * |p|,
               crashed := s.crashed || LookupFails(c, s),
               updates := s.updates + [s.now])
  {
    ScanShape(c, s, ord(s.storage.vms.Keys));
  }

  // With no VM pending the world update changes nothing.
  lemma NoPendingNoUpdate(c: Config, d: State, ord: Order)
    requires ValidOrder(ord) && forall v :: !Pending(d, v)
    requires forall i :: 0 <= i < |d.queue| ==> d.now < d.queue[i].time
    ensures var s' := Tick(UpdateWorld(c, d, ord));
            s'.queue == d.queue && s'.vms == d.vms && s'.hosted == d.hosted && s'.storage == d.storage &&
            s'.power == d.power && s'.log == d.log
  {
    hide UpdateWorld, Placing;
    var p := Placing(c, d, ord);
    assert p == [] || p[0] in p;
    UpdateShape(c, d, ord);
    PlacingEnumerates(c, d, ord);
    assert [] + [] + d.queue == d.queue;
  }

  lemma {:induction false} DecisionTokens(c: Config, t: int, vs: seq<UUID>, v: UUID)
    requires Distinct(vs)
    ensures Tokens(Decisions(c, t, vs))[Scheduled(c, v)] == if v in vs then 1 else 0
  {
    if vs != [] {
      var init, last := vs[..|vs| - 1], vs[|vs| - 1];
      DecisionTokens(c, t, init, v);
      assert vs == init + [last];
      assert last !in init;
      var e := Event(t, c.storage, StorageEvent(VMScheduled, last));
      assert Decisions(c, t, vs) == [e] + Decisions(c, t, init);
      TokensConcat([e], Decisions(c, t, init));
      TokensOne(e);
    }
  }

  lemma {:induction false} PlacementTokens(c: Config, t: int, vs: seq<UUID>, v: UUID)
    requires Distinct(vs)
    ensures Tokens(Placements(c, t, vs))[Provision(c, v)] == if v in vs then 1 else 0
  {
    if vs != [] {
      var init, last := vs[..|vs| - 1], vs[|vs| - 1];
      PlacementTokens(c, t, init, v);
      assert vs == init + [last];
      assert last !in init;
      TokensAppend(Placements(c, t, init), Event(t, c.first, ServerEvent(ProvisionVM, last)));
    }
  }

  // Whether the world update schedules the token `k`.
  function Placed(c: Config, s: State, k: Token): nat {
    if (k.body.StorageEvent? && k == Scheduled(c, k.body.vm) && Pending(s, k.body.vm))
       || (k.body.ServerEvent? && k == Provision(c, k.body.guest) && Pending(s, k.body.guest)) then 1 else 0
  }

  lemma DecisionCount(c: Config, t: int, vs: seq<UUID>, k: Token)
    requires Distinct(vs)
    ensures Tokens(Decisions(c, t, vs))[k] ==
            if k.body.StorageEvent? && k == Scheduled(c, k.body.vm) && k.body.vm in vs then 1 else 0
  {
    hide Tokens, Decisions;
    if k.body.StorageEvent? && k == Scheduled(c, k.body.vm) {
      DecisionTokens(c, t, vs, k.body.vm);
    } else {
      TokensAbsent(Decisions(c, t, vs), k);
    }
  }

  lemma PlacementCount(c: Config, t: int, vs: seq<UUID>, k: Token)
    requires Distinct(vs)
    ensures Tokens(Placements(c, t, vs))[k] ==
            if k.body.ServerEvent? && k == Provision(c, k.body.guest) && k.body.guest in vs then 1 else 0
  {
    hide Tokens, Placements;
    if k.body.ServerEvent? && k == Provision(c, k.body.guest) {
      PlacementTokens(c, t, vs, k.body.guest);
    } else {
      TokensAbsent(Placements(c, t, vs), k);
    }
  }

  lemma UpdateTokens(c: Config, s: State, ord: Order, k: Token)
    requires ValidOrder(ord)
    requires forall i :: 0 <= i < |s.queue| ==> s.now < s.queue[i].time
    ensures N(UpdateWorld(c, s, ord), k) == N(s, k) + Placed(c, s, k)
    ensures L(UpdateWorld(c, s, ord), k) == L(s, k)
  {
    hide UpdateWorld, Decisions, Placements, Placing, Tokens, Pending;
    var p := Placing(c, s, ord);
    UpdateShape(c, s, ord);
    PlacingEnumerates(c, s, ord);
    var d, l := Decisions(c, s.now, p), Placements(c, s.now, p);
    TokensConcat(d + l, s.queue);
    TokensConcat(d, l);
    DecisionCount(c, s.now, p, k);
    PlacementCount(c, s.now, p, k);
  }

  // ----- one command -----

  // The event a command inserts, if any.
  function CommandEvents(c: Config, s: State, m: Command): seq<Event> {
    match m
    case Power(r, a) => [Event(s.now, r, ResourceEvent(a))]
    case CreateVM(ok) => if ok then [Event(s.now, c.storage, StorageEvent(VMCreated, s.next))] else []
    case ProvisionRequest(v) => [Event(s.now, c.storage, StorageEvent(VMProvisionRequested, v))]
    case StopRequest(v) => [Event(s.now, v, VMEvent(Stop))]
    case DeleteRequest(v) => [Event(s.now, v, VMEvent(Delete))]
  }

  // A command adds its event, behind or ahead of what is queued for now, and perhaps an actor.
  lemma ExecuteShape(c: Config, s: State, m: Command)
    ensures var es := CommandEvents(c, s, m);
            var s' := Execute(c, s, m);
            s' == s.(vms := s'.vms, next := s'.next, inserted := s.inserted + |es|,
                     queue := if es == [] then s.queue
                              else if m.ProvisionRequest? then InsertFront(s.queue, es[0])
                              else InsertBack(s.queue, es[0]))
  {}

  lemma ExecuteTokens(c: Config, s: State, m: Command, k: Token)
    ensures N(Execute(c, s, m), k) ==
            N(s, k) + if CommandEvents(c, s, m) != [] && Tok(CommandEvents(c, s, m)[0]) == k then 1 else 0
    ensures L(Execute(c, s, m), k) == L(s, k)
  {
    ExecuteShape(c, s, m);
    var es := CommandEvents(c, s, m);
    if es != [] {
      TokensInsertBack(s.queue, es[0]);
      TokensInsertFront(s.queue, es[0]);
    }
    hide Execute, CommandEvents, InsertBack, InsertFront, Tokens;
  }
}
