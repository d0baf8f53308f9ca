/**
 For every script of commands and every interleaving with steps, the report that a VM is
 hosted is dispatched before any report that it is deleted.
 */
module HostedFirst {
  import opened Types
  import opened FlatQueue
  import opened Handlers
  import opened Simulator
  import opened StepFacts
  import opened Clock
  import opened Registry
  import opened Effects
  import Lives

  // `a` is on the way to a deletion, or is one, and `b` reports the same VM hosted.
  predicate Overtakes(c: Config, a: Event, b: Event) {
    && b.body.StorageEvent? && Tok(b) == Hosted(c, b.body.vm)
    && (Tok(a) == ToVM(b.body.vm, DeleteCompleted) || Tok(a) == Deleted(c, b.body.vm))
  }

  ghost predicate Cross(c: Config, a: seq<Event>, b: seq<Event>) {
    forall x, y :: x in a && y in b ==> !Overtakes(c, x, y)
  }

  ghost predicate Orderly(c: Config, q: seq<Event>) {
    forall i, j :: 0 <= i < j < |q| ==> !Overtakes(c, q[i], q[j])
  }

  lemma OrderlyConcat(c: Config, a: seq<Event>, b: seq<Event>)
    ensures Orderly(c, a + b) <==> Orderly(c, a) && Orderly(c, b) && Cross(c, a, b)
  {
    if Orderly(c, a + b) {
      forall i, j | 0 <= i < j < |a|
        ensures !Overtakes(c, a[i], a[j])
      {
        assert (a + b)[i] == a[i] && (a + b)[j] == a[j];
      }
      forall i, j | 0 <= i < j < |b|
        ensures !Overtakes(c, b[i], b[j])
      {
        assert (a + b)[|a| + i] == b[i] && (a + b)[|a| + j] == b[j];
      }
      forall i, j | 0 <= i < |a| && 0 <= j < |b|
        ensures !Overtakes(c, a[i], b[j])
      {
        assert (a + b)[i] == a[i] && (a + b)[|a| + j] == b[j];
      }
    }
  }

  ghost predicate IsReport(c: Config, e: Event) {
    e.body.StorageEvent? && Tok(e) == Hosted(c, e.body.vm)
  }

  ghost predicate ReportsAt(c: Config, q: seq<Event>, t: int) {
    forall e :: e in q && IsReport(c, e) ==> e.time == t
  }

  ghost predicate InOrder(c: Config, l: seq<Event>, q: seq<Event>, t: int) {
    Orderly(c, l) && Orderly(c, q) && Cross(c, l, q) && ReportsAt(c, q, t)
  }

  lemma OrderlySplice(c: Config, a: seq<Event>, e: Event, b: seq<Event>)
    requires Orderly(c, a + b)
    requires Cross(c, a, [e]) && Cross(c, [e], b)
    ensures Orderly(c, a + [e] + b)
  {
    OrderlyConcat(c, a, b);
    OrderlyConcat(c, a, [e]);
    OrderlyConcat(c, a + [e], b);
  }

  lemma CrossLater(c: Config, q: seq<Event>, b: seq<Event>, e: Event, t: int)
    requires ReportsAt(c, q, t)
    requires forall x :: x in b ==> x in q && t < x.time
    ensures Cross(c, [e], b)
  {}

  lemma CrossPart(c: Config, q: seq<Event>, a: seq<Event>, e: Event)
    requires IsReport(c, e) ==> Cross(c, q, [e])
    requires forall x :: x in a ==> x in q
    ensures Cross(c, a, [e])
  {
    if IsReport(c, e) {
      assert e in [e];
    }
  }

  lemma OrderlyInsert(c: Config, q: seq<Event>, e: Event, t: int)
    requires Orderly(c, q) && ReportsAt(c, q, t) && Sorted(q) && t <= e.time
    requires IsReport(c, e) ==> Cross(c, q, [e])
    ensures Orderly(c, InsertBack(q, e))
  {
    hide Orderly, UpTo, Cross, Overtakes, ReportsAt, IsReport;
    var k := UpTo(q, e.time);
    SplitMembers(q, e.time);
    CrossLater(c, q, q[k..], e, t);
    CrossPart(c, q, q[..k], e);
    OrderlySplice(c, q[..k], e, q[k..]);
  }

  // A deferred insertion keeps the order, provided a new report finds no deletion under way.
  lemma InOrderInsert(c: Config, l: seq<Event>, q: seq<Event>, e: Event, t: int)
    requires InOrder(c, l, q, t) && Sorted(q) && t <= e.time
    requires IsReport(c, e) ==> e.time == t && Cross(c, l, [e]) && Cross(c, q, [e])
    ensures InOrder(c, l, InsertBack(q, e), t)
  {
    OrderlyInsert(c, q, e, t);
    InsertMembers(q, e);
    hide Orderly, InsertBack;
  }

  lemma {:induction false} InOrderInsertAll(c: Config, l: seq<Event>, q: seq<Event>, es: seq<Event>, t: int)
    requires InOrder(c, l, q, t) && Sorted(q) && AllFrom(q, t) && AllFrom(es, t)
    requires forall e :: e in es ==> !IsReport(c, e)
    ensures InOrder(c, l, InsertAllBack(q, es), t)
  {
    if es != [] {
      InOrderInsertAll(c, l, q, es[..|es| - 1], t);
      InsertAllKeeps(q, es[..|es| - 1], t);
      hide InsertBack, InOrder;
      InOrderInsert(c, l, InsertAllBack(q, es[..|es| - 1]), es[|es| - 1], t);
    }
  }

  lemma InOrderPop(c: Config, l: seq<Event>, q: seq<Event>, t: int)
    requires q != [] && Sorted(q) && AllFrom(q, t) && InOrder(c, l, q, t)
    ensures InOrder(c, l + [q[0]], q[1..], q[0].time)
  {
    assert q == [q[0]] + q[1..];
    OrderlyConcat(c, [q[0]], q[1..]);
    OrderlyConcat(c, l, [q[0]]);
    hide Orderly;
  }

  // A VM that is just completing its start has no deletion under way.
  lemma NoDeletionYet(c: Config, s: State, q: seq<Event>, e: Event)
    requires IsReport(c, e) && HasState(s, e.body.vm, {Starting})
    requires Lives.Located(c, s, e.body.vm)
    requires forall x :: x in q ==> x in s.log || x in s.queue
    ensures Cross(c, q, [e])
  {
    var v := e.body.vm;
    assert Lives.Total(s, ToVM(v, DeleteCompleted)) == 0 && Lives.Total(s, Deleted(c, v)) == 0;
    TokensAbsent(s.log, ToVM(v, DeleteCompleted));
    TokensAbsent(s.queue, ToVM(v, DeleteCompleted));
    TokensAbsent(s.log, Deleted(c, v));
    TokensAbsent(s.queue, Deleted(c, v));
    hide Tokens;
  }

  lemma StartReport(id: UUID, vm: VMData, d: VMDelays, e: Event)
    requires e.body == VMEvent(StartCompleted) && vm.state == Starting
    ensures VMReact(id, vm, d, e).1 == [Event(e.time, vm.storage, StorageEvent(VMHosted, id))]
  {}

  // A handler schedules nothing but one report, for a VM that is starting, or no report at all.
  predicate Reports(c: Config, s: State, ord: Order)
    requires s.queue != []
  {
    var out := Out(c, s, ord);
    |out| == 1 && out[0].body.StorageEvent? && Tok(out[0]) == Hosted(c, out[0].body.vm)
  }

  lemma ReportTime(c: Config, s: State, ord: Order)
    requires WellFormed(c) && Known(c, s) && s.queue != [] && Reports(c, s, ord)
    ensures var e := Out(c, s, ord)[0];
            e.time == s.queue[0].time && HasState(s, e.body.vm, {Starting})
  {
    OutShape(c, s, ord);
    var v, h := Out(c, s, ord)[0].body.vm, s.queue[0];
    hide Out, Spawn, DelaysOf, VMReact, Known, WellFormed;
    EmitsSpawn(c, s, ord, Hosted(c, v));
    Causes(c, s, v);
    OutVM(c, s, ord);
    StartReport(h.to, s.vms[h.to], DelaysOf(c, h.to), h);
  }

  lemma NoReport(c: Config, s: State, ord: Order)
    requires s.queue != [] && !Reports(c, s, ord)
    ensures forall e :: e in Out(c, s, ord) ==> !IsReport(c, e)
  {
    OutShape(c, s, ord);
    hide Out;
    if !s.queue[0].body.ResourceEvent? && |Out(c, s, ord)| == 1 {
      assert forall e :: e in Out(c, s, ord) ==> e == Out(c, s, ord)[0];
    }
  }

  lemma InOrderDispatch(c: Config, s: State, ord: Order)
    requires WellFormed(c) && Known(c, s) && Timely(s) && s.queue != [] && Lives.Alive(c, s)
    requires InOrder(c, s.log, s.queue, Last(s))
    ensures InOrder(c, Dispatch(c, s, ord).log, Dispatch(c, s, ord).queue, s.queue[0].time)
  {
    DispatchShape(c, s, ord);
    InOrderPop(c, s.log, s.queue, Last(s));
    hide Dispatch, Out, Handled, InOrder, Known, Lives.Alive, InsertAllBack, InsertBack;
    var l, q, out, t := s.log + [s.queue[0]], s.queue[1..], Out(c, s, ord), s.queue[0].time;
    if Reports(c, s, ord) {
      ReportTime(c, s, ord);
      ReportDispatch(c, s, l, q, out[0], t);
      InsertAllOne(q, out);
    } else {
      NoReport(c, s, ord);
      InOrderInsertAll(c, l, q, out, t);
    }
  }

  lemma ReportDispatch(c: Config, s: State, l: seq<Event>, q: seq<Event>, e: Event, t: int)
    requires Lives.Alive(c, s) && IsReport(c, e) && HasState(s, e.body.vm, {Starting}) && e.time == t
    requires forall x :: x in l || x in q ==> x in s.log || x in s.queue
    requires Sorted(q) && InOrder(c, l, q, t)
    ensures InOrder(c, l, InsertBack(q, e), t)
  {
    assert Lives.Located(c, s, e.body.vm);
    NoDeletionYet(c, s, l, e);
    NoDeletionYet(c, s, q, e);
    hide InOrder, Lives.Alive;
    InOrderInsert(c, l, q, e, t);
  }

  lemma InOrderUpdate(c: Config, s: State, ord: Order)
    requires InOrder(c, s.log, s.queue, s.now)
    requires forall i :: 0 <= i < |s.queue| ==> s.now < s.queue[i].time
    ensures InOrder(c, s.log, UpdateWorld(c, s, ord).queue, s.now)
  {
    UpdateShape(c, s, ord);
    var p := Placing(c, s, ord);
    var d, l := Decisions(c, s.now, p), Placements(c, s.now, p);
    assert forall e :: e in d + l ==> !IsReport(c, e) && forall x :: !Overtakes(c, e, x);
    OrderlyConcat(c, d + l, s.queue);
    hide UpdateWorld, Placing, Decisions, Placements;
  }

  lemma InOrderRequest(c: Config, l: seq<Event>, q: seq<Event>, e: Event, t: int)
    requires InOrder(c, l, q, t) && Sorted(q)
    requires e.body.StorageEvent? && e.body.storageType == VMProvisionRequested
    ensures InOrder(c, l, InsertFront(q, e), t)
  {
    var k := Below(q, e.time);
    assert q == q[..k] + q[k..];
    OrderlySplice(c, q[..k], e, q[k..]);
    InsertMembers(q, e);
    hide Orderly, Below;
  }

  lemma InOrderExecute(c: Config, s: State, m: Command)
    requires Timely(s) && InOrder(c, s.log, s.queue, Last(s))
    ensures InOrder(c, Execute(c, s, m).log, Execute(c, s, m).queue, Last(s))
  {
    ExecuteShape(c, s, m);
    hide Execute, InOrder, InsertBack, InsertFront;
    if CommandEvents(c, s, m) != [] {
      var e := CommandEvents(c, s, m)[0];
      if m.ProvisionRequest? {
        InOrderRequest(c, s.log, s.queue, e, Last(s));
      } else {
        InOrderInsert(c, s.log, s.queue, e, Last(s));
      }
    }
  }

  // While a hosting report is queued no deletion of its VM has been dispatched.
  lemma NotYetDeleted(c: Config, s: State, v: UUID)
    requires InOrder(c, s.log, s.queue, Last(s)) && N(s, Hosted(c, v)) >= 1
    ensures L(s, Deleted(c, v)) == 0
  {
    TokensAbsent(s.queue, Hosted(c, v));
    TokensAbsent(s.log, Deleted(c, v));
    hide Tokens;
    var j :| 0 <= j < |s.queue| && Tok(s.queue[j]) == Hosted(c, v);
    forall i | 0 <= i < |s.log|
      ensures Tok(s.log[i]) != Deleted(c, v)
    {
      assert s.log[i] in s.log && s.queue[j] in s.queue;
      assert !Overtakes(c, s.log[i], s.queue[j]);
    }
  }
}
