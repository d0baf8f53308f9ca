/**
 Stopping and deleting VMs, from beginning to end. A batch of such commands for different VMs, given
 at rest, takes each VM along a way of three events: the command, its completion after the VM's own
 delay, and at that same time the request to be removed from its server, or from the storage. Nobody
 else is touched, and the clock ends one past the last completion.
 */
module Retiring {
  import opened Types
  import opened FlatQueue
  import opened Simulator
  import opened StepFacts
  import opened Clock
  import opened Registry
  import opened Deciding
  import opened Placement
  import opened Soundness
  import opened Draining
  import Batches
  import Laws
  import Lives
  import PowerFlow
  import HostedFirst

  // Each command stops a running VM, or deletes one that obeys and is in the storage.
  predicate Retires(c: Config, s: State, m: Command) {
    match m
    case StopRequest(v) => Ready(c, s, v) && s.vms[v].state == Running
    case DeleteRequest(v) => Ready(c, s, v) && v in s.storage.vms && s.vms[v].state in {Running, Stopped, Failure}
    case _ => false
  }

  ghost predicate AllRetire(c: Config, s: State, cmds: seq<Command>) {
    && (forall i :: 0 <= i < |cmds| ==> Retires(c, s, cmds[i]))
    && OnlyRetire(cmds) && Different(cmds)
  }

  ghost predicate OnlyRetire(cmds: seq<Command>) {
    forall i :: 0 <= i < |cmds| ==> cmds[i].StopRequest? || cmds[i].DeleteRequest?
  }

  ghost predicate Different(cmds: seq<Command>)
    requires OnlyRetire(cmds)
  {
    forall i, j :: 0 <= i < j < |cmds| ==> cmds[i].target != cmds[j].target
  }

  // When the VM has done what it was told.
  function DoneAt(c: Config, s: State, m: Command): int
    requires m.StopRequest? || m.DeleteRequest?
  {
    s.now + if m.StopRequest? then DelaysOf(c, m.target).stop else DelaysOf(c, m.target).delete
  }

  // The events a command leads to.
  function Way(c: Config, s: State, m: Command): (es: seq<Event>)
    requires m.StopRequest? || m.DeleteRequest?
    ensures |es| == 3
  {
    var v, t := m.target, DoneAt(c, s, m);
    if m.StopRequest? then
      [Event(s.now, v, VMEvent(Stop)), Event(t, v, VMEvent(StopCompleted)), Event(t, NIL, ServerEvent(UnprovisionVM, v))]
    else
      [Event(s.now, v, VMEvent(Delete)), Event(t, v, VMEvent(DeleteCompleted)), Event(t, c.storage, StorageEvent(VMDeleted, v))]
  }

  // The state of the VM once `k` of them have been handled.
  function StateOnWay(s: State, m: Command, k: nat): VMState
    requires (m.StopRequest? || m.DeleteRequest?) && m.target in s.vms
  {
    if k == 0 then s.vms[m.target].state
    else if m.DeleteRequest? then Deleting else if k == 1 then Stopping else Stopped
  }

  // ----- the events still to come, and those that have been -----

  ghost predicate OnTheirWay(cmds: seq<Command>, pos: seq<nat>) {
    OnlyRetire(cmds) && |pos| == |cmds| && forall i :: 0 <= i < |pos| ==> pos[i] <= 3
  }

  // The event a VM is waiting for, if any, and those it has had.
  ghost function Coming(c: Config, s: State, m: Command, k: nat): multiset<Event>
    requires m.StopRequest? || m.DeleteRequest?
  {
    if k < 3 then multiset{Way(c, s, m)[k]} else multiset{}
  }

  ghost function Awaited(c: Config, s: State, cmds: seq<Command>, pos: seq<nat>): multiset<Event>
    requires OnTheirWay(cmds, pos)
  {
    if cmds == [] then multiset{}
    else
      var n := |cmds| - 1;
      Awaited(c, s, cmds[..n], pos[..n]) + Coming(c, s, cmds[n], pos[n])
  }

  ghost function Had(c: Config, s: State, cmds: seq<Command>, pos: seq<nat>): multiset<Event>
    requires OnTheirWay(cmds, pos)
  {
    if cmds == [] then multiset{}
    else
      var n := |cmds| - 1;
      Had(c, s, cmds[..n], pos[..n]) + multiset(Way(c, s, cmds[n])[..pos[n]])
  }

  lemma {:induction false} SomeoneAwaits(c: Config, s: State, cmds: seq<Command>, pos: seq<nat>, e: Event) returns (i: nat)
    requires OnTheirWay(cmds, pos) && e in Awaited(c, s, cmds, pos)
    ensures i < |cmds| && pos[i] < 3 && e == Way(c, s, cmds[i])[pos[i]]
  {
    hide Way;
    var n := |cmds| - 1;
    if e in Awaited(c, s, cmds[..n], pos[..n]) {
      i := SomeoneAwaits(c, s, cmds[..n], pos[..n], e);
    } else {
      i := n;
    }
  }

  // One VM moves on by one event.
  lemma {:induction false} OneMovesOn(c: Config, s: State, cmds: seq<Command>, pos: seq<nat>, i: nat)
    requires OnTheirWay(cmds, pos) && i < |cmds| && pos[i] < 3
    ensures var next, e := pos[i := pos[i] + 1], Way(c, s, cmds[i])[pos[i]];
            && OnTheirWay(cmds, next)
            && Awaited(c, s, cmds, next) + multiset{e} == Awaited(c, s, cmds, pos) + Coming(c, s, cmds[i], pos[i] + 1)
            && Had(c, s, cmds, next) == Had(c, s, cmds, pos) + multiset{e}
  {
    hide Way, Coming, Awaited, Had;
    var n := |cmds| - 1;
    var next, e := pos[i := pos[i] + 1], Way(c, s, cmds[i])[pos[i]];
    Unfolds(c, s, cmds, pos);
    Unfolds(c, s, cmds, next);
    if i < n {
      OneMovesOn(c, s, cmds[..n], pos[..n], i);
      assert next[..n] == pos[..n][i := pos[i] + 1];
      Shifted(Awaited(c, s, cmds[..n], next[..n]), multiset{e}, Awaited(c, s, cmds[..n], pos[..n]), Coming(c, s, cmds[i], pos[i] + 1),
              Coming(c, s, cmds[n], pos[n]));
      Shifted(Had(c, s, cmds[..n], next[..n]), multiset{}, Had(c, s, cmds[..n], pos[..n]), multiset{e},
              multiset(Way(c, s, cmds[n])[..pos[n]]));
    } else {
      assert next[..n] == pos[..n];
      LastMovesOn(c, s, cmds[n], pos[n]);
    }
  }

  lemma Shifted(a: multiset<Event>, b: multiset<Event>, x: multiset<Event>, y: multiset<Event>, more: multiset<Event>)
    requires a + b == x + y
    ensures a + more + b == x + more + y
  {
    assert a + more + b == (a + b) + more;
    assert x + more + y == (x + y) + more;
  }

  lemma Unfolds(c: Config, s: State, cmds: seq<Command>, pos: seq<nat>)
    requires OnTheirWay(cmds, pos) && cmds != []
    ensures var n := |cmds| - 1;
            && OnTheirWay(cmds[..n], pos[..n])
            && Awaited(c, s, cmds, pos) == Awaited(c, s, cmds[..n], pos[..n]) + Coming(c, s, cmds[n], pos[n])
            && Had(c, s, cmds, pos) == Had(c, s, cmds[..n], pos[..n]) + multiset(Way(c, s, cmds[n])[..pos[n]])
  {
    hide Way, Coming;
  }

  lemma LastMovesOn(c: Config, s: State, m: Command, k: nat)
    requires (m.StopRequest? || m.DeleteRequest?) && k < 3
    ensures Coming(c, s, m, k) == multiset{Way(c, s, m)[k]}
    ensures multiset(Way(c, s, m)[..k + 1]) == multiset(Way(c, s, m)[..k]) + multiset{Way(c, s, m)[k]}
  {
    hide Way;
    assert Way(c, s, m)[..k + 1] == Way(c, s, m)[..k] + [Way(c, s, m)[k]];
  }

  // With nothing ahead everybody has arrived.
  lemma {:induction false} AllArrived(c: Config, s: State, cmds: seq<Command>, pos: seq<nat>)
    requires OnTheirWay(cmds, pos) && Awaited(c, s, cmds, pos) == multiset{}
    ensures forall i :: 0 <= i < |cmds| ==> pos[i] == 3
  {
    hide Way;
    if cmds != [] {
      var n := |cmds| - 1;
      AllArrived(c, s, cmds[..n], pos[..n]);
      assert Coming(c, s, cmds[n], pos[n]) == multiset{};
      forall i | 0 <= i < n
        ensures pos[i] == 3
      {
        assert pos[..n][i] == pos[i];
      }
    }
  }

  // The VM an event is about.
  function About(e: Event): UUID {
    match e.body
    case VMEvent(_) => e.to
    case ServerEvent(_, v) => v
    case StorageEvent(_, v) => v
    case ResourceEvent(_) => NIL
  }

  lemma WayIsAbout(c: Config, s: State, m: Command)
    requires m.StopRequest? || m.DeleteRequest?
    ensures var w := Way(c, s, m);
            && (forall k :: 0 <= k < 3 ==> About(w[k]) == m.target)
            && w[0] != w[1] && w[0] != w[2] && w[1] != w[2]
  {}

  lemma {:induction false} NothingAbout(c: Config, s: State, cmds: seq<Command>, pos: seq<nat>, e: Event)
    requires OnTheirWay(cmds, pos) && forall i :: 0 <= i < |cmds| ==> cmds[i].target != About(e)
    ensures Had(c, s, cmds, pos)[e] == 0
  {
    hide Way, About;
    if cmds != [] {
      var n := |cmds| - 1;
      NothingAbout(c, s, cmds[..n], pos[..n], e);
      WayIsAbout(c, s, cmds[n]);
      assert e !in Way(c, s, cmds[n])[..pos[n]];
    }
  }

  // Exactly the first `pos[i]` events of a VM's way have been, once each.
  lemma {:induction false} HadOnce(c: Config, s: State, cmds: seq<Command>, pos: seq<nat>, i: nat, k: nat)
    requires OnTheirWay(cmds, pos) && i < |cmds| && k < 3 && Different(cmds)
    ensures Had(c, s, cmds, pos)[Way(c, s, cmds[i])[k]] == if k < pos[i] then 1 else 0
  {
    hide Way, About;
    var n := |cmds| - 1;
    var e := Way(c, s, cmds[i])[k];
    WayIsAbout(c, s, cmds[i]);
    if i < n {
      HadOnce(c, s, cmds[..n], pos[..n], i, k);
      WayIsAbout(c, s, cmds[n]);
      assert e !in Way(c, s, cmds[n])[..pos[n]];
    } else {
      NothingAbout(c, s, cmds[..n], pos[..n], e);
      CountInPrefix(Way(c, s, cmds[n]), pos[n], k);
    }
  }

  lemma CountInPrefix(w: seq<Event>, p: nat, k: nat)
    requires |w| == 3 && w[0] != w[1] && w[0] != w[2] && w[1] != w[2] && p <= 3 && k < 3
    ensures multiset(w[..p])[w[k]] == if k < p then 1 else 0
  {
    if p == 0 {
      assert w[..p] == [];
    } else if p == 1 {
      assert w[..p] == [w[0]];
    } else if p == 2 {
      assert w[..p] == [w[0], w[1]];
    } else {
      assert w[..p] == [w[0], w[1], w[2]];
    }
  }

  // ----- on the way -----

  // Where each VM is, and that nothing else has changed since `s0`.
  ghost predicate Underway(c: Config, s0: State, cmds: seq<Command>, pos: seq<nat>, s: State) {
    && AllRetire(c, s0, cmds) && OnTheirWay(cmds, pos)
    && multiset(s.queue) == Awaited(c, s0, cmds, pos)
    && multiset(s.log) == multiset(s0.log) + Had(c, s0, cmds, pos)
    && VMsUnderway(s0, cmds, pos, s) && StorageUnderway(s0, cmds, pos, s)
    && s.power == s0.power && s.hosted == s0.hosted
    && (s.queue == [] ==> s.now == Last(s) + 1)
  }

  ghost predicate VMsUnderway(s0: State, cmds: seq<Command>, pos: seq<nat>, s: State)
    requires OnTheirWay(cmds, pos) && forall i :: 0 <= i < |cmds| ==> cmds[i].target in s0.vms
  {
    && s.vms.Keys == s0.vms.Keys
    && (forall v :: v in s0.vms && (forall i :: 0 <= i < |cmds| ==> cmds[i].target != v) ==> s.vms[v] == s0.vms[v])
    && forall i :: 0 <= i < |cmds| ==>
         s.vms[cmds[i].target] == s0.vms[cmds[i].target].(state := StateOnWay(s0, cmds[i], pos[i]))
  }

  // The VMs whose deletion has been reported.
  ghost function Forgotten(cmds: seq<Command>, pos: seq<nat>): set<UUID>
    requires OnTheirWay(cmds, pos)
  {
    set i | 0 <= i < |cmds| && cmds[i].DeleteRequest? && pos[i] == 3 :: cmds[i].target
  }

  ghost predicate StorageUnderway(s0: State, cmds: seq<Command>, pos: seq<nat>, s: State)
    requires OnTheirWay(cmds, pos)
  {
    s.storage == Storage(true, s0.storage.vms - Forgotten(cmds, pos))
  }

  // The head of the queue is the event one of the VMs is waiting for; it and what follows.
  lemma HeadOnWay(c: Config, s0: State, cmds: seq<Command>, pos: seq<nat>, s: State) returns (i: nat)
    requires Underway(c, s0, cmds, pos, s) && s.queue != []
    ensures i < |cmds| && pos[i] < 3 && s.queue[0] == Way(c, s0, cmds[i])[pos[i]]
    ensures Retires(c, s0, cmds[i]) && cmds[i].target in s.vms
    ensures s.vms[cmds[i].target] == s0.vms[cmds[i].target].(state := StateOnWay(s0, cmds[i], pos[i]))
  {
    hide Way, Awaited, Had, Retires;
    assert s.queue[0] in multiset(s.queue);
    i := SomeoneAwaits(c, s0, cmds, pos, s.queue[0]);
    assert Retires(c, s0, cmds[i]);
    RetiresVM(c, s0, cmds[i]);
  }

  lemma RetiresVM(c: Config, s: State, m: Command)
    requires Retires(c, s, m)
    ensures m.StopRequest? || m.DeleteRequest?
    ensures m.target in s.vms && s.vms[m.target].storage == c.storage
  {}

  // What the handler posts: the next event of the way, if there is one.
  function Following(c: Config, s: State, m: Command, k: nat): seq<Event>
    requires m.StopRequest? || m.DeleteRequest?
  {
    if k < 2 then [Way(c, s, m)[k + 1]] else []
  }

  // One VM, told by one of the first two events.
  lemma VMMovesOn(c: Config, s0: State, s: State, ord: Order, m: Command, k: nat)
    requires WellFormed(c) && Known(c, s) && Retires(c, s0, m) && s.queue != [] && k < 2
    requires s.queue[0] == Way(c, s0, m)[k] && m.target in s.vms
    requires s.vms[m.target] == s0.vms[m.target].(state := StateOnWay(s0, m, k))
    ensures var d := Dispatch(c, s, ord);
            && d.queue == InsertAllBack(s.queue[1..], Following(c, s0, m, k))
            && d.vms == s.vms[m.target := s0.vms[m.target].(state := StateOnWay(s0, m, k + 1))]
            && d.storage == s.storage && d.power == s.power && d.hosted == s.hosted
  {
    hide Dispatch, InsertAllBack, Known, WellFormed, DelaysOf;
    KnownVM(c, s, m.target);
    Laws.VMLaw(c, s, ord);
  }

  lemma KnownVM(c: Config, s: State, v: UUID)
    requires WellFormed(c) && Known(c, s) && v in s.vms
    ensures v != c.storage && v != NIL && NIL != c.storage && NIL !in s.vms && NIL !in c.components && NIL !in s.power
    ensures s.vms[v].owner == NIL
  {
    hide AllAddressed, AllReady;
  }

  // The last event: the storage forgets the VM, or nobody hears it.
  lemma LastEvent(c: Config, s0: State, s: State, ord: Order, m: Command)
    requires WellFormed(c) && Known(c, s) && Retires(c, s0, m) && s.queue != []
    requires s.queue[0] == Way(c, s0, m)[2] && s.storage.ok && m.target in s.vms
    requires m.DeleteRequest? ==> m.target in s.storage.vms
    ensures var d := Dispatch(c, s, ord);
            && d.queue == s.queue[1..] && d.vms == s.vms && d.power == s.power && d.hosted == s.hosted
            && d.storage == if m.DeleteRequest? then Storage(true, s.storage.vms - {m.target}) else s.storage
  {
    hide Dispatch, Known, WellFormed;
    KnownVM(c, s, m.target);
    if m.DeleteRequest? {
      Laws.StorageLaw(c, s, ord);
    } else {
      Laws.NobodyLaw(c, s, ord);
    }
  }

  // ----- one dispatch -----

  // The queue and the history once the event at the head has been handled.
  lemma WayMoves(c: Config, s0: State, cmds: seq<Command>, pos: seq<nat>, s: State, i: nat, d: State)
    requires Underway(c, s0, cmds, pos, s) && s.queue != [] && i < |cmds| && pos[i] < 3
    requires s.queue[0] == Way(c, s0, cmds[i])[pos[i]]
    requires d.queue == InsertAllBack(s.queue[1..], Following(c, s0, cmds[i], pos[i])) && d.log == s.log + [s.queue[0]]
    ensures OnTheirWay(cmds, pos[i := pos[i] + 1])
    ensures multiset(d.queue) == Awaited(c, s0, cmds, pos[i := pos[i] + 1])
    ensures multiset(d.log) == multiset(s0.log) + Had(c, s0, cmds, pos[i := pos[i] + 1])
  {
    hide Way, Awaited, Had, InsertAllBack, Retires, VMsUnderway, StorageUnderway;
    var e, more := s.queue[0], Following(c, s0, cmds[i], pos[i]);
    OneMovesOn(c, s0, cmds, pos, i);
    Laws.InsertedAll(s.queue[1..], more);
    assert s.queue == [e] + s.queue[1..];
    assert multiset(more) == Coming(c, s0, cmds[i], pos[i] + 1);
    var ahead, next := Awaited(c, s0, cmds, pos), Awaited(c, s0, cmds, pos[i := pos[i] + 1]);
    assert ahead == multiset{e} + multiset(s.queue[1..]);
    assert next + multiset{e} == multiset(d.queue) + multiset{e};
    Cancel(next, multiset(d.queue), e);
  }

  lemma Cancel(a: multiset<Event>, b: multiset<Event>, e: Event)
    requires a + multiset{e} == b + multiset{e}
    ensures a == b
  {
    assert forall x :: a[x] + multiset{e}[x] == (a + multiset{e})[x] && b[x] + multiset{e}[x] == (b + multiset{e})[x];
  }

  lemma ForgottenMoves(cmds: seq<Command>, pos: seq<nat>, i: nat)
    requires OnTheirWay(cmds, pos) && i < |cmds| && pos[i] < 3
    ensures OnTheirWay(cmds, pos[i := pos[i] + 1])
    ensures Forgotten(cmds, pos[i := pos[i] + 1]) ==
            Forgotten(cmds, pos) + if cmds[i].DeleteRequest? && pos[i] == 2 then {cmds[i].target} else {}
  {
    var next := pos[i := pos[i] + 1];
    assert forall j :: 0 <= j < |cmds| && j != i ==> next[j] == pos[j];
    forall v | v in Forgotten(cmds, pos)
      ensures v in Forgotten(cmds, next)
    {
      var j :| 0 <= j < |cmds| && cmds[j].DeleteRequest? && pos[j] == 3 && cmds[j].target == v;
      assert next[j] == 3;
    }
    if cmds[i].DeleteRequest? && pos[i] == 2 {
      assert next[i] == 3 && cmds[i].target in Forgotten(cmds, next);
    }
    forall v | v in Forgotten(cmds, next)
      ensures v in Forgotten(cmds, pos) || (cmds[i].DeleteRequest? && pos[i] == 2 && v == cmds[i].target)
    {
      var j :| 0 <= j < |cmds| && cmds[j].DeleteRequest? && next[j] == 3 && cmds[j].target == v;
      if j != i {
        assert pos[j] == 3;
      }
    }
  }

  lemma NotYetForgotten(c: Config, s0: State, cmds: seq<Command>, pos: seq<nat>, i: nat)
    requires AllRetire(c, s0, cmds) && OnTheirWay(cmds, pos) && i < |cmds| && pos[i] < 3 && cmds[i].DeleteRequest?
    ensures cmds[i].target in s0.storage.vms && cmds[i].target !in Forgotten(cmds, pos)
  {
    assert Retires(c, s0, cmds[i]);
  }

  lemma VMsMove(c: Config, s0: State, cmds: seq<Command>, pos: seq<nat>, s: State, i: nat, d: State)
    requires AllRetire(c, s0, cmds) && OnTheirWay(cmds, pos) && i < |cmds| && pos[i] < 3
    requires forall j :: 0 <= j < |cmds| ==> cmds[j].target in s0.vms
    requires VMsUnderway(s0, cmds, pos, s)
    requires d.vms == s.vms[cmds[i].target := s0.vms[cmds[i].target].(state := StateOnWay(s0, cmds[i], pos[i] + 1))]
    ensures OnTheirWay(cmds, pos[i := pos[i] + 1]) && VMsUnderway(s0, cmds, pos[i := pos[i] + 1], d)
  {
    hide StateOnWay, Retires;
    var next := pos[i := pos[i] + 1];
    forall j | 0 <= j < |cmds|
      ensures d.vms[cmds[j].target] == s0.vms[cmds[j].target].(state := StateOnWay(s0, cmds[j], next[j]))
    {
      if j < i {
        assert cmds[j].target != cmds[i].target;
      } else if i < j {
        assert cmds[i].target != cmds[j].target;
      }
    }
  }

  // The last two events leave the state of the VM alone.
  lemma LastState(s0: State, m: Command, v: VMData)
    requires (m.StopRequest? || m.DeleteRequest?) && m.target in s0.vms
    ensures StateOnWay(s0, m, 3) == StateOnWay(s0, m, 2)
  {}

  // A dispatch moves one VM on by one event.
  lemma DispatchMoves(c: Config, s0: State, cmds: seq<Command>, pos: seq<nat>, s: State, ord: Order) returns (i: nat)
    requires WellFormed(c) && Known(c, s) && Underway(c, s0, cmds, pos, s) && s.queue != []
    ensures var d := Dispatch(c, s, ord);
            && i < |cmds| && pos[i] < 3 && OnTheirWay(cmds, pos[i := pos[i] + 1])
            && multiset(d.queue) == Awaited(c, s0, cmds, pos[i := pos[i] + 1])
            && multiset(d.log) == multiset(s0.log) + Had(c, s0, cmds, pos[i := pos[i] + 1])
            && (forall j :: 0 <= j < |cmds| ==> cmds[j].target in s0.vms)
            && VMsUnderway(s0, cmds, pos[i := pos[i] + 1], d)
            && StorageUnderway(s0, cmds, pos[i := pos[i] + 1], d)
            && d.power == s0.power && d.hosted == s0.hosted
  {
    hide Dispatch, Known, WellFormed, Way, Awaited, Had, InsertAllBack, Retires, VMsUnderway, Forgotten, StateOnWay;
    i := HeadOnWay(c, s0, cmds, pos, s);
    AllTheirs(c, s0, cmds);
    var d, m, k := Dispatch(c, s, ord), cmds[i], pos[i];
    DispatchShape(c, s, ord);
    ForgottenMoves(cmds, pos, i);
    if k < 2 {
      VMMovesOn(c, s0, s, ord, m, k);
    } else {
      if m.DeleteRequest? {
        NotYetForgotten(c, s0, cmds, pos, i);
      }
      LastEvent(c, s0, s, ord, m);
      LastState(s0, m, s.vms[m.target]);
      Laws.NothingInserted(s.queue[1..]);
      assert d.vms == s.vms[m.target := s0.vms[m.target].(state := StateOnWay(s0, m, 3))];
      if m.DeleteRequest? {
        assert s0.storage.vms - Forgotten(cmds, pos) - {m.target} == s0.storage.vms - (Forgotten(cmds, pos) + {m.target});
      }
    }
    WayMoves(c, s0, cmds, pos, s, i, d);
    VMsMove(c, s0, cmds, pos, s, i, d);
  }

  lemma AllTheirs(c: Config, s0: State, cmds: seq<Command>)
    requires AllRetire(c, s0, cmds)
    ensures forall j :: 0 <= j < |cmds| ==> cmds[j].target in s0.vms
  {
    forall j | 0 <= j < |cmds|
      ensures cmds[j].target in s0.vms
    {
      RetiresVM(c, s0, cmds[j]);
    }
  }

  // Nobody is pending who was not.
  lemma StillNobody(s0: State, cmds: seq<Command>, pos: seq<nat>, d: State)
    requires OnTheirWay(cmds, pos) && StorageUnderway(s0, cmds, pos, d) && forall v :: !Pending(s0, v)
    ensures forall v :: !Pending(d, v)
  {
    hide Forgotten;
    forall v
      ensures !Pending(d, v)
    {
      assert !Pending(s0, v);
    }
  }

  lemma UnderwayStep(c: Config, s0: State, cmds: seq<Command>, pos: seq<nat>, s: State, ord: Order) returns (next: seq<nat>)
    requires WellFormed(c) && ValidOrder(ord) && Sound(c, s) && Underway(c, s0, cmds, pos, s) && forall v :: !Pending(s0, v)
    ensures Underway(c, s0, cmds, next, Step(c, s, ord))
  {
    hide WellFormed, ValidOrder, Sound, Known, Dispatch, UpdateWorld, Timely, Awaited, Had, VMsUnderway, StorageUnderway,
        AllRetire;
    next := pos;
    if s.queue != [] {
      SoundKnown(c, s);
      SoundDispatch(c, s, ord);
      var i := DispatchMoves(c, s0, cmds, pos, s, ord);
      next := pos[i := pos[i] + 1];
      var d := Dispatch(c, s, ord);
      if BucketEmpty(d) {
        DryNow(c, d);
        StillNobody(s0, cmds, next, d);
        NoPendingNoUpdate(c, d, ord);
        UnderwaySame(c, s0, cmds, next, d, Tick(UpdateWorld(c, d, ord)));
        UpdateClock(c, d, ord);
      } else {
        UnderwaySame(c, s0, cmds, next, d, d);
      }
    }
  }

  lemma UpdateClock(c: Config, d: State, ord: Order)
    requires forall i :: 0 <= i < |d.queue| ==> d.now < d.queue[i].time
    ensures Tick(UpdateWorld(c, d, ord)).now == d.now + 1
  {
    hide UpdateWorld;
    UpdateShape(c, d, ord);
  }

  // The invariant looks at no more than this.
  lemma UnderwaySame(c: Config, s0: State, cmds: seq<Command>, pos: seq<nat>, d: State, s': State)
    requires AllRetire(c, s0, cmds) && OnTheirWay(cmds, pos) && forall j :: 0 <= j < |cmds| ==> cmds[j].target in s0.vms
    requires multiset(d.queue) == Awaited(c, s0, cmds, pos)
    requires multiset(d.log) == multiset(s0.log) + Had(c, s0, cmds, pos)
    requires VMsUnderway(s0, cmds, pos, d) && StorageUnderway(s0, cmds, pos, d) && d.power == s0.power && d.hosted == s0.hosted
    requires s'.queue == d.queue && s'.log == d.log && s'.vms == d.vms && s'.storage == d.storage && s'.power == d.power
    requires s'.hosted == d.hosted
    ensures VMsUnderway(s0, cmds, pos, s') && StorageUnderway(s0, cmds, pos, s')
    ensures multiset(s'.queue) == Awaited(c, s0, cmds, pos) && multiset(s'.log) == multiset(s0.log) + Had(c, s0, cmds, pos)
    ensures s'.power == s0.power && s'.hosted == s0.hosted && Last(s') == Last(d)
  {
    hide Awaited, Had, Forgotten, StateOnWay;
  }

  // ----- the batch -----

  // Everybody is at the beginning.
  function Beginning(n: nat): (pos: seq<nat>)
    ensures |pos| == n && forall i :: 0 <= i < n ==> pos[i] == 0
  {
    seq(n, i => 0)
  }

  // The commands have been given, and nothing has happened yet.
  ghost predicate Commanded(c: Config, s0: State, cmds: seq<Command>, s: State) {
    && OnlyRetire(cmds) && Sound(c, s) && Batches.Giving(s)
    && multiset(s.queue) == Awaited(c, s0, cmds, Beginning(|cmds|)) && |s.queue| == |cmds|
    && s == s0.(queue := s.queue, inserted := s.inserted)
  }

  lemma {:induction false} AllCommanded(c: Config, s0: State, cmds: seq<Command>)
    requires WellFormed(c) && Sound(c, s0) && s0.queue == [] && AllRetire(c, s0, cmds)
    ensures Commanded(c, s0, cmds, ExecuteAll(c, s0, cmds))
  {
    hide WellFormed, Sound, Execute, Awaited, Retires;
    if cmds == [] {
      NobodyCommanded(c, s0);
    } else {
      var n := |cmds| - 1;
      assert forall i :: 0 <= i < n ==> cmds[..n][i] == cmds[i];
      AllCommanded(c, s0, cmds[..n]);
      assert Retires(c, s0, cmds[n]);
      OneCommanded(c, s0, cmds, ExecuteAll(c, s0, cmds[..n]));
    }
  }

  lemma NobodyCommanded(c: Config, s0: State)
    requires Sound(c, s0) && s0.queue == []
    ensures Commanded(c, s0, [], s0)
  {
    hide Sound;
  }

  lemma OneCommanded(c: Config, s0: State, cmds: seq<Command>, s: State)
    requires WellFormed(c) && cmds != [] && OnlyRetire(cmds) && Commanded(c, s0, cmds[..|cmds| - 1], s) && Retires(c, s0, cmds[|cmds| - 1])
    ensures Commanded(c, s0, cmds, Execute(c, s, cmds[|cmds| - 1]))
  {
    hide WellFormed, Sound, InsertBack, InsertFront, Awaited, Had, Execute;
    var n := |cmds| - 1;
    var m, e := cmds[n], Way(c, s0, cmds[n])[0];
    SoundExecute(c, s, m);
    ExecuteShape(c, s, m);
    Batches.AppendedLast(s.queue, e);
    KeepsActors(c, s, m);
    var pos := Beginning(|cmds|);
    assert pos[..n] == Beginning(n);
    Unfolds(c, s0, cmds, pos);
    LastMovesOn(c, s0, m, 0);
    assert multiset(s.queue + [e]) == multiset(s.queue) + multiset{e};
  }

  lemma KeepsActors(c: Config, s: State, m: Command)
    requires m.StopRequest? || m.DeleteRequest?
    ensures Execute(c, s, m).vms == s.vms && Execute(c, s, m).next == s.next
  {
    hide InsertBack, InsertFront;
  }

  lemma {:induction false} NothingHad(c: Config, s: State, cmds: seq<Command>)
    requires OnlyRetire(cmds)
    ensures Had(c, s, cmds, Beginning(|cmds|)) == multiset{}
  {
    hide Way;
    if cmds != [] {
      var n := |cmds| - 1;
      NothingHad(c, s, cmds[..n]);
      assert Beginning(|cmds|)[..n] == Beginning(n);
      assert Way(c, s, cmds[n])[..0] == [];
    }
  }

  lemma SetsOut(c: Config, s0: State, cmds: seq<Command>, s: State)
    requires WellFormed(c) && Sound(c, s0) && s0.storage.ok && s0.queue == [] && AllRetire(c, s0, cmds) && cmds != []
    requires Commanded(c, s0, cmds, s)
    ensures Underway(c, s0, cmds, Beginning(|cmds|), s)
  {
    hide WellFormed, Sound, Awaited, Had, Retires;
    NothingHad(c, s0, cmds);
    AllTheirs(c, s0, cmds);
    assert Forgotten(cmds, Beginning(|cmds|)) == {};
    assert s0.storage.vms - {} == s0.storage.vms;
  }

  lemma {:induction false} UnderwayDrain(c: Config, s0: State, cmds: seq<Command>, ords: nat -> Order, n: nat) returns (pos: seq<nat>)
    requires WellFormed(c) && Sound(c, s0) && s0.storage.ok && s0.queue == [] && AllRetire(c, s0, cmds) && cmds != []
    requires ValidOrders(ords)
    ensures Sound(c, Drain(c, ExecuteAll(c, s0, cmds), ords, n))
    ensures Underway(c, s0, cmds, pos, Drain(c, ExecuteAll(c, s0, cmds), ords, n))
  {
    hide WellFormed, Sound, ValidOrder, Step, Underway, AllRetire, ExecuteAll;
    var s := ExecuteAll(c, s0, cmds);
    AllCommanded(c, s0, cmds);
    if n == 0 {
      SetsOut(c, s0, cmds, s);
      pos := Beginning(|cmds|);
    } else {
      hide Commanded;
      var before := UnderwayDrain(c, s0, cmds, ords, n - 1);
      var prev := Drain(c, s, ords, n - 1);
      SoundStep(c, prev, ords(n - 1));
      NobodyWaits(c, s0);
      pos := UnderwayStep(c, s0, cmds, before, prev, ords(n - 1));
    }
  }

  lemma NobodyWaits(c: Config, s: State)
    requires Sound(c, s) && s.queue == []
    ensures forall v :: !Pending(s, v)
  {
    hide Timely, Known, DecisionsOrderly, PowerFlow.AllPowering, HostedFirst.InOrder, Lives.Alive, AllTraced;
  }

  // ----- the whole drain -----

  // The event has been dispatched, and had not been (or not as often) in `s0`.
  ghost predicate Newly(s0: State, s: State, e: Event) {
    multiset(s.log)[e] > multiset(s0.log)[e]
  }

  lemma NewlyHad(c: Config, s0: State, cmds: seq<Command>, pos: seq<nat>, s: State, i: nat, k: nat)
    requires Underway(c, s0, cmds, pos, s) && i < |cmds| && k < 3
    ensures Newly(s0, s, Way(c, s0, cmds[i])[k]) <==> k < pos[i]
    ensures k < pos[i] ==> multiset(s.log)[Way(c, s0, cmds[i])[k]] == multiset(s0.log)[Way(c, s0, cmds[i])[k]] + 1
  {
    hide Way, Awaited, Had, VMsUnderway, StorageUnderway, Retires;
    HadOnce(c, s0, cmds, pos, i, k);
  }

  // At every point of the drain: a VM has stopped exactly if its own completion has been dispatched,
  // one delay after the command; and one is out of the storage exactly if its deletion was reported,
  // at the time it completed.
  lemma RetiresExactlyOnTime(c: Config, s0: State, cmds: seq<Command>, ords: nat -> Order, n: nat, i: nat)
    requires WellFormed(c) && Sound(c, s0) && s0.storage.ok && s0.queue == [] && AllRetire(c, s0, cmds)
    requires ValidOrders(ords) && i < |cmds|
    ensures var w, v := Drain(c, ExecuteAll(c, s0, cmds), ords, n), cmds[i].target;
            && v in w.vms
            && (cmds[i].StopRequest? ==>
                  && (w.vms[v].state == Running <==> !Newly(s0, w, Event(s0.now, v, VMEvent(Stop))))
                  && (w.vms[v].state == Stopped <==> Newly(s0, w, Event(s0.now + DelaysOf(c, v).stop, v, VMEvent(StopCompleted)))))
            && (cmds[i].DeleteRequest? ==>
                  && (w.vms[v].state == Deleting <==> Newly(s0, w, Event(s0.now, v, VMEvent(Delete))))
                  && (v !in w.storage.vms <==>
                        Newly(s0, w, Event(s0.now + DelaysOf(c, v).delete, c.storage, StorageEvent(VMDeleted, v)))))
  {
    hide WellFormed, Sound, ValidOrders, Drain, ExecuteAll, Awaited, Had, Newly;
    var pos := UnderwayDrain(c, s0, cmds, ords, n);
    var w := Drain(c, ExecuteAll(c, s0, cmds), ords, n);
    NewlyHad(c, s0, cmds, pos, w, i, 0);
    NewlyHad(c, s0, cmds, pos, w, i, 1);
    NewlyHad(c, s0, cmds, pos, w, i, 2);
    assert Retires(c, s0, cmds[i]);
    ForgottenIff(cmds, pos, i);
  }

  lemma ForgottenIff(cmds: seq<Command>, pos: seq<nat>, i: nat)
    requires OnTheirWay(cmds, pos) && Different(cmds) && i < |cmds|
    ensures cmds[i].target in Forgotten(cmds, pos) <==> cmds[i].DeleteRequest? && pos[i] == 3
  {
    if cmds[i].target in Forgotten(cmds, pos) {
      var j :| 0 <= j < |cmds| && cmds[j].DeleteRequest? && pos[j] == 3 && cmds[j].target == cmds[i].target;
      assert !(j < i) && !(i < j);
    }
  }

  lemma RetiringNeverStuck(c: Config, s0: State, cmds: seq<Command>, ords: nat -> Order)
    requires WellFormed(c) && Sound(c, s0) && s0.storage.ok && s0.queue == [] && AllRetire(c, s0, cmds) && cmds != []
    requires ValidOrders(ords)
    ensures !GetsStuck(c, ExecuteAll(c, s0, cmds), ords)
  {
    hide WellFormed, Sound, ValidOrders, Drain, ExecuteAll, AllRetire, Awaited, Had, VMsUnderway;
    forall n: nat
      ensures !Stuck(Drain(c, ExecuteAll(c, s0, cmds), ords, n))
    {
      var pos := UnderwayDrain(c, s0, cmds, ords, n);
    }
  }

  lemma {:induction false} SomeoneHad(c: Config, s: State, cmds: seq<Command>, pos: seq<nat>, e: Event) returns (i: nat, k: nat)
    requires OnTheirWay(cmds, pos) && e in Had(c, s, cmds, pos)
    ensures i < |cmds| && k < 3 && e == Way(c, s, cmds[i])[k]
  {
    hide Way;
    var n := |cmds| - 1;
    if e in Had(c, s, cmds[..n], pos[..n]) {
      i, k := SomeoneHad(c, s, cmds[..n], pos[..n], e);
    } else {
      i := n;
      assert e in Way(c, s, cmds[n])[..pos[n]];
      k :| 0 <= k < pos[n] && e == Way(c, s, cmds[n])[..pos[n]][k];
    }
  }

  // The clock ends one past the last completion.
  lemma EndOfClock(c: Config, s0: State, cmds: seq<Command>, pos: seq<nat>, s: State) returns (last: nat)
    requires Sound(c, s0) && Sound(c, s) && Underway(c, s0, cmds, pos, s) && cmds != [] && s.queue == []
    requires forall i :: 0 <= i < |cmds| ==> pos[i] == 3
    ensures forall i :: 0 <= i < |cmds| ==> DoneAt(c, s0, cmds[i]) < s.now
    ensures last < |cmds| && s.now == DoneAt(c, s0, cmds[last]) + 1
  {
    hide Sound, Awaited, Had, Known, VMsUnderway, StorageUnderway, Retires, DelaysOf;
    SoundKnown(c, s0);
    SoundKnown(c, s);
    forall i | 0 <= i < |cmds|
      ensures DoneAt(c, s0, cmds[i]) <= Last(s)
    {
      NewlyHad(c, s0, cmds, pos, s, i, 1);
      assert Way(c, s0, cmds[i])[1] in multiset(s.log);
      NoLaterThanLast(s, Way(c, s0, cmds[i])[1]);
    }
    last := 0;
    assert s.log != [] by { NewlyHad(c, s0, cmds, pos, s, 0, 1); }
    var e := s.log[|s.log| - 1];
    assert e in multiset(s.log);
    if e in Had(c, s0, cmds, pos) {
      var k;
      last, k := SomeoneHad(c, s0, cmds, pos, e);
    } else {
      assert e in multiset(s0.log);
      NoLaterThanLast(s0, e);
    }
  }

  lemma NoLaterThanLast(s: State, e: Event)
    requires Timely(s) && e in s.log
    ensures e.time <= Last(s) <= s.now
  {}

  lemma {:induction false} AllHad(c: Config, s: State, cmds: seq<Command>, pos: seq<nat>)
    requires OnTheirWay(cmds, pos) && forall i :: 0 <= i < |cmds| ==> pos[i] == 3
    ensures |Had(c, s, cmds, pos)| == 3 * |cmds|
  {
    hide Way;
    if cmds != [] {
      var n := |cmds| - 1;
      AllHad(c, s, cmds[..n], pos[..n]);
      assert Way(c, s, cmds[n])[..3] == Way(c, s, cmds[n]);
    }
  }

  // Given at rest, commands that stop running VMs and delete VMs in the storage, each a different
  // one, run to the end in any order: every VM has done what it was told, at its own time and through
  // exactly three events, nobody and nothing else has changed, and the clock tells the last of them.
  lemma RetiringCompletes(c: Config, s0: State, cmds: seq<Command>, ords: nat -> Order) returns (n: nat)
    requires WellFormed(c) && Sound(c, s0) && s0.storage.ok && s0.queue == [] && AllRetire(c, s0, cmds) && cmds != []
    requires ValidOrders(ords)
    ensures var w := Drain(c, ExecuteAll(c, s0, cmds), ords, n);
            && w.queue == [] && w.power == s0.power && w.hosted == s0.hosted && w.vms.Keys == s0.vms.Keys
            && (forall v :: v in s0.vms && StopRequest(v) in cmds ==> w.vms[v] == s0.vms[v].(state := Stopped))
            && (forall v :: v in s0.vms && DeleteRequest(v) in cmds ==> w.vms[v] == s0.vms[v].(state := Deleting))
            && (forall v :: v in s0.vms && StopRequest(v) !in cmds && DeleteRequest(v) !in cmds ==> w.vms[v] == s0.vms[v])
            && w.storage == Storage(true, s0.storage.vms - set v | v in s0.storage.vms && DeleteRequest(v) in cmds)
    ensures var w := Drain(c, ExecuteAll(c, s0, cmds), ords, n);
            && |w.log| == |s0.log| + 3 * |cmds|
            && (forall v :: StopRequest(v) in cmds ==>
                  && Newly(s0, w, Event(s0.now, v, VMEvent(Stop)))
                  && Newly(s0, w, Event(s0.now + DelaysOf(c, v).stop, v, VMEvent(StopCompleted)))
                  && Newly(s0, w, Event(s0.now + DelaysOf(c, v).stop, NIL, ServerEvent(UnprovisionVM, v))))
            && (forall v :: DeleteRequest(v) in cmds ==>
                  && Newly(s0, w, Event(s0.now, v, VMEvent(Delete)))
                  && Newly(s0, w, Event(s0.now + DelaysOf(c, v).delete, v, VMEvent(DeleteCompleted)))
                  && Newly(s0, w, Event(s0.now + DelaysOf(c, v).delete, c.storage, StorageEvent(VMDeleted, v))))
    ensures var w := Drain(c, ExecuteAll(c, s0, cmds), ords, n);
            && (forall i :: 0 <= i < |cmds| ==> DoneAt(c, s0, cmds[i]) < w.now)
            && exists i :: 0 <= i < |cmds| && w.now == DoneAt(c, s0, cmds[i]) + 1
  {
    hide WellFormed, Sound, ValidOrders, Drain, ExecuteAll, AllRetire, Awaited, Had, Underway, GetsStuck, DoneAt, Newly;
    RetiringNeverStuck(c, s0, cmds, ords);
    AllCommanded(c, s0, cmds);
    hide Commanded;
    SoundCommanded(c, s0, cmds);
    EndsUnlessStuck(c, ExecuteAll(c, s0, cmds), ords);
    n :| Drain(c, ExecuteAll(c, s0, cmds), ords, n).queue == [];
    var w := Drain(c, ExecuteAll(c, s0, cmds), ords, n);
    var pos := UnderwayDrain(c, s0, cmds, ords, n);
    Arrived(c, s0, cmds, pos, w);
    AllThroughTheirs(c, s0, cmds, pos, w);
    var last := EndOfClock(c, s0, cmds, pos, w);
  }

  lemma SoundCommanded(c: Config, s0: State, cmds: seq<Command>)
    requires Commanded(c, s0, cmds, ExecuteAll(c, s0, cmds))
    ensures Sound(c, ExecuteAll(c, s0, cmds))
  {
    hide Sound, ExecuteAll, Awaited;
  }

  lemma Arrived(c: Config, s0: State, cmds: seq<Command>, pos: seq<nat>, w: State)
    requires Underway(c, s0, cmds, pos, w) && w.queue == []
    ensures forall i :: 0 <= i < |cmds| ==> pos[i] == 3
    ensures w.power == s0.power && w.hosted == s0.hosted && w.vms.Keys == s0.vms.Keys
    ensures forall v :: v in s0.vms && StopRequest(v) in cmds ==> w.vms[v] == s0.vms[v].(state := Stopped)
    ensures forall v :: v in s0.vms && DeleteRequest(v) in cmds ==> w.vms[v] == s0.vms[v].(state := Deleting)
    ensures forall v :: v in s0.vms && StopRequest(v) !in cmds && DeleteRequest(v) !in cmds ==> w.vms[v] == s0.vms[v]
    ensures w.storage == Storage(true, s0.storage.vms - set v | v in s0.storage.vms && DeleteRequest(v) in cmds)
    ensures |w.log| == |s0.log| + 3 * |cmds|
  {
    hide Awaited, Had, Retires;
    AllArrived(c, s0, cmds, pos);
    AllHad(c, s0, cmds, pos);
    assert |multiset(w.log)| == |w.log| && |multiset(s0.log)| == |s0.log|;
    var gone := set v | v in s0.storage.vms && DeleteRequest(v) in cmds;
    assert s0.storage.vms - Forgotten(cmds, pos) == s0.storage.vms - gone by { GoneAre(s0, cmds, pos); }
    forall v | v in s0.vms && StopRequest(v) !in cmds && DeleteRequest(v) !in cmds
      ensures w.vms[v] == s0.vms[v]
    {
      assert forall i :: 0 <= i < |cmds| && cmds[i].target == v ==> cmds[i] == StopRequest(v) || cmds[i] == DeleteRequest(v);
    }
  }

  lemma GoneAre(s0: State, cmds: seq<Command>, pos: seq<nat>)
    requires OnTheirWay(cmds, pos) && forall i :: 0 <= i < |cmds| ==> pos[i] == 3
    ensures forall v :: v in s0.storage.vms ==> (v in Forgotten(cmds, pos) <==> DeleteRequest(v) in cmds)
  {
    forall v | v in s0.storage.vms
      ensures v in Forgotten(cmds, pos) <==> DeleteRequest(v) in cmds
    {
      if DeleteRequest(v) in cmds {
        var i :| 0 <= i < |cmds| && cmds[i] == DeleteRequest(v);
        assert cmds[i].DeleteRequest? && pos[i] == 3;
      }
      if v in Forgotten(cmds, pos) {
        var i :| 0 <= i < |cmds| && cmds[i].DeleteRequest? && pos[i] == 3 && cmds[i].target == v;
        assert cmds[i] == DeleteRequest(v);
      }
    }
  }

  lemma AllThroughTheirs(c: Config, s0: State, cmds: seq<Command>, pos: seq<nat>, w: State)
    requires Underway(c, s0, cmds, pos, w) && forall i :: 0 <= i < |cmds| ==> pos[i] == 3
    ensures forall v :: StopRequest(v) in cmds ==>
              && Newly(s0, w, Event(s0.now, v, VMEvent(Stop)))
              && Newly(s0, w, Event(s0.now + DelaysOf(c, v).stop, v, VMEvent(StopCompleted)))
              && Newly(s0, w, Event(s0.now + DelaysOf(c, v).stop, NIL, ServerEvent(UnprovisionVM, v)))
    ensures forall v :: DeleteRequest(v) in cmds ==>
              && Newly(s0, w, Event(s0.now, v, VMEvent(Delete)))
              && Newly(s0, w, Event(s0.now + DelaysOf(c, v).delete, v, VMEvent(DeleteCompleted)))
              && Newly(s0, w, Event(s0.now + DelaysOf(c, v).delete, c.storage, StorageEvent(VMDeleted, v)))
  {
    hide Underway, Newly, DelaysOf;
    forall v | StopRequest(v) in cmds
      ensures && Newly(s0, w, Event(s0.now, v, VMEvent(Stop)))
              && Newly(s0, w, Event(s0.now + DelaysOf(c, v).stop, v, VMEvent(StopCompleted)))
              && Newly(s0, w, Event(s0.now + DelaysOf(c, v).stop, NIL, ServerEvent(UnprovisionVM, v)))
    {
      var i :| 0 <= i < |cmds| && cmds[i] == StopRequest(v);
      NewlyHad(c, s0, cmds, pos, w, i, 0);
      NewlyHad(c, s0, cmds, pos, w, i, 1);
      NewlyHad(c, s0, cmds, pos, w, i, 2);
    }
    forall v | DeleteRequest(v) in cmds
      ensures && Newly(s0, w, Event(s0.now, v, VMEvent(Delete)))
              && Newly(s0, w, Event(s0.now + DelaysOf(c, v).delete, v, VMEvent(DeleteCompleted)))
              && Newly(s0, w, Event(s0.now + DelaysOf(c, v).delete, c.storage, StorageEvent(VMDeleted, v)))
    {
      var i :| 0 <= i < |cmds| && cmds[i] == DeleteRequest(v);
      NewlyHad(c, s0, cmds, pos, w, i, 0);
      NewlyHad(c, s0, cmds, pos, w, i, 1);
      NewlyHad(c, s0, cmds, pos, w, i, 2);
    }
  }
}
