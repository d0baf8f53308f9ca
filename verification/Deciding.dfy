/**
 Placement decisions in flight: they sit at the very head of the queue, at the last dispatched
 time, with nothing but provision requests among them, and while the storage works each of
 them concerns a different VM that is still pending.
 */
module Deciding {
  import opened Types
  import opened FlatQueue
  import opened Simulator
  import opened StepFacts
  import opened Clock
  import opened Registry
  import opened Effects

  predicate IsDecision(e: Event) { e.body.StorageEvent? && e.body.storageType == VMScheduled }

  predicate IsRequest(e: Event) { e.body.StorageEvent? && e.body.storageType == VMProvisionRequested }

  ghost predicate DecisionsLead(q: seq<Event>, t: int) {
    forall i :: 0 <= i < |q| && IsDecision(q[i]) ==>
      q[i].time == t && forall j :: 0 <= j < i ==> IsDecision(q[j]) || IsRequest(q[j])
  }

  lemma LeadInsertBack(q: seq<Event>, e: Event, t: int)
    requires Sorted(q) && DecisionsLead(q, t) && t <= e.time && !IsDecision(e)
    ensures DecisionsLead(InsertBack(q, e), t)
  {
    var k := UpTo(q, e.time);
    var q' := InsertBack(q, e);
    assert forall i :: k < i < |q'| ==> q'[i] == q[i - 1] && t < q[i - 1].time;
    forall i | 0 <= i < |q'| && IsDecision(q'[i])
      ensures q'[i].time == t && forall j :: 0 <= j < i ==> IsDecision(q'[j]) || IsRequest(q'[j])
    {
      assert i < k;
      assert q'[i] == q[i];
    }
  }

  lemma LeadInsertFront(q: seq<Event>, e: Event, t: int)
    requires Sorted(q) && DecisionsLead(q, t) && IsRequest(e)
    ensures DecisionsLead(InsertFront(q, e), t)
  {
    var k := Below(q, e.time);
    var q' := InsertFront(q, e);
    forall i | 0 <= i < |q'| && IsDecision(q'[i])
      ensures q'[i].time == t && forall j :: 0 <= j < i ==> IsDecision(q'[j]) || IsRequest(q'[j])
    {
      if k < i {
        assert q'[i] == q[i - 1];
        forall j | 0 <= j < i
          ensures IsDecision(q'[j]) || IsRequest(q'[j])
        {
          assert q'[j] == if j < k then q[j] else if j == k then e else q[j - 1];
        }
      } else {
        assert i != k;
        assert q'[i] == q[i];
      }
    }
  }

  lemma {:induction false} LeadInsertAll(q: seq<Event>, es: seq<Event>, t: int)
    requires Sorted(q) && DecisionsLead(q, t) && AllFrom(q, t) && AllFrom(es, t)
    requires forall e :: e in es ==> !IsDecision(e)
    ensures DecisionsLead(InsertAllBack(q, es), t)
  {
    if es != [] {
      var init, last := es[..|es| - 1], es[|es| - 1];
      LeadInsertAll(q, init, t);
      InsertAllKeeps(q, init, t);
      hide InsertBack, DecisionsLead;
      LeadInsertBack(InsertAllBack(q, init), last, t);
    }
  }

  lemma LeadTail(q: seq<Event>, t: int)
    requires q != [] && Sorted(q) && AllFrom(q, t) && DecisionsLead(q, t)
    ensures DecisionsLead(q[1..], q[0].time)
  {
    var r := q[1..];
    forall i | 0 <= i < |r| && IsDecision(r[i])
      ensures r[i].time == q[0].time && forall j :: 0 <= j < i ==> IsDecision(r[j]) || IsRequest(r[j])
    {
      assert r[i] == q[i + 1];
      forall j | 0 <= j < i
        ensures IsDecision(r[j]) || IsRequest(r[j])
      {
        assert r[j] == q[j + 1];
      }
    }
  }

  // No handler schedules a placement decision.
  lemma OutUndecided(c: Config, s: State, ord: Order)
    requires WellFormed(c) && Known(c, s) && s.queue != []
    ensures forall e :: e in Out(c, s, ord) ==> !IsDecision(e)
  {
    hide Out;
    OutShape(c, s, ord);
    var out := Out(c, s, ord);
    if |out| == 1 && !s.queue[0].body.ResourceEvent? {
      EmitsSpawn(c, s, ord, Tok(out[0]));
    }
  }

  lemma LeadDispatch(c: Config, s: State, ord: Order)
    requires WellFormed(c) && Known(c, s) && Timely(s) && s.queue != []
    requires DecisionsLead(s.queue, Last(s))
    ensures DecisionsLead(Dispatch(c, s, ord).queue, s.queue[0].time)
  {
    DispatchShape(c, s, ord);
    OutUndecided(c, s, ord);
    hide Dispatch, Out, Handled, DecisionsLead, Known;
    LeadTail(s.queue, Last(s));
    LeadInsertAll(s.queue[1..], Out(c, s, ord), s.queue[0].time);
  }

  // When an instant has run dry no decision is in flight, whatever the storage's state.
  lemma NoneInFlight(c: Config, s: State, v: UUID)
    requires DecisionsLead(s.queue, s.now)
    requires forall i :: 0 <= i < |s.queue| ==> s.now < s.queue[i].time
    ensures N(s, Scheduled(c, v)) == 0
  {
    TokensAbsent(s.queue, Scheduled(c, v));
  }

  // Decisions due now ahead of anything else undecided.
  lemma LeadPrefix(d: seq<Event>, r: seq<Event>, t: int)
    requires forall i :: 0 <= i < |d| ==> IsDecision(d[i]) && d[i].time == t
    requires forall i :: 0 <= i < |r| ==> !IsDecision(r[i])
    ensures DecisionsLead(d + r, t)
  {
    hide IsDecision, IsRequest;
    var q := d + r;
    forall i | 0 <= i < |q| && IsDecision(q[i])
      ensures q[i].time == t && forall j :: 0 <= j < i ==> IsDecision(q[j]) || IsRequest(q[j])
    {
      assert i < |d|;
    }
  }

  lemma UndecidedTail(l: seq<Event>, q: seq<Event>, t: int)
    requires forall i :: 0 <= i < |l| ==> !IsDecision(l[i])
    requires DecisionsLead(q, t) && forall i :: 0 <= i < |q| ==> t < q[i].time
    ensures forall i :: 0 <= i < |l + q| ==> !IsDecision((l + q)[i])
  {
    hide IsDecision, IsRequest;
    forall i | 0 <= i < |l + q|
      ensures !IsDecision((l + q)[i])
    {
      assert (l + q)[i] == if i < |l| then l[i] else q[i - |l|];
    }
  }

  lemma LeadUpdate(c: Config, s: State, ord: Order)
    requires DecisionsLead(s.queue, s.now)
    requires forall i :: 0 <= i < |s.queue| ==> s.now < s.queue[i].time
    ensures DecisionsLead(UpdateWorld(c, s, ord).queue, s.now)
  {
    hide UpdateWorld, Placing, Decisions, Placements, DecisionsLead;
    UpdateShape(c, s, ord);
    var p := Placing(c, s, ord);
    var d, l := Decisions(c, s.now, p), Placements(c, s.now, p);
    UndecidedTail(l, s.queue, s.now);
    LeadPrefix(d, l + s.queue, s.now);
    assert d + (l + s.queue) == d + l + s.queue;
  }

  lemma LeadExecute(c: Config, s: State, m: Command)
    requires Timely(s) && DecisionsLead(s.queue, Last(s))
    ensures DecisionsLead(Execute(c, s, m).queue, Last(s))
  {
    ExecuteShape(c, s, m);
    var es := CommandEvents(c, s, m);
    hide Execute;
    if es != [] {
      if m.ProvisionRequest? {
        LeadInsertFront(s.queue, es[0], Last(s));
      } else {
        LeadInsertBack(s.queue, es[0], Last(s));
      }
    }
    hide InsertBack, InsertFront, DecisionsLead;
  }

  // ----- one decision per pending VM -----

  ghost predicate DecidedOnce(c: Config, s: State, v: UUID) {
    && N(s, Scheduled(c, v)) <= 1
    && (s.storage.ok && N(s, Scheduled(c, v)) >= 1 ==> Pending(s, v))
  }

  ghost predicate DecisionsOrderly(c: Config, s: State) {
    DecisionsLead(s.queue, Last(s)) && forall v :: DecidedOnce(c, s, v)
  }

  // A decision that is not itself the head has a decision or a request ahead of it.
  lemma HeadBeforeDecision(c: Config, s: State, v: UUID)
    requires s.queue != [] && DecisionsLead(s.queue, Last(s)) && N(s, Scheduled(c, v)) >= 1
    ensures IsDecision(s.queue[0]) || IsRequest(s.queue[0])
  {
    TokensAbsent(s.queue, Scheduled(c, v));
    var i :| 0 <= i < |s.queue| && Tok(s.queue[i]) == Scheduled(c, v);
    assert IsDecision(s.queue[i]);
  }

  lemma DecidedDispatch(c: Config, s: State, ord: Order, v: UUID)
    requires WellFormed(c) && Known(c, s) && s.queue != [] && DecisionsOrderly(c, s)
    ensures DecidedOnce(c, Dispatch(c, s, ord), v)
  {
    var s' := Dispatch(c, s, ord);
    var e := s.queue[0];
    assert DecidedOnce(c, s, v);
    assert Addressed(c, s, e);
    assert DecisionsLead(s.queue, Last(s));
    hide Dispatch, DecisionsOrderly, N, Known, DecisionsLead, WellFormed;
    TokenAfter(c, s, ord, Scheduled(c, v));
    EmitsNoDecision(c, s, v);
    StorageAfter(c, s, ord);
    if N(s', Scheduled(c, v)) >= 1 {
      HeadBeforeDecision(c, s, v);
    }
  }

  lemma EmitsNoDecision(c: Config, s: State, v: UUID)
    requires WellFormed(c) && Known(c, s) && s.queue != []
    ensures Spawn(c, s) != [Scheduled(c, v)]
  {
    hide Spawn, Known;
    Causes(c, s, v);
  }

  lemma DecidingDispatch(c: Config, s: State, ord: Order)
    requires WellFormed(c) && Known(c, s) && Timely(s) && s.queue != [] && DecisionsOrderly(c, s)
    ensures DecisionsOrderly(c, Dispatch(c, s, ord))
  {
    LeadDispatch(c, s, ord);
    TimelyDispatch(c, s, ord);
    forall v
      ensures DecidedOnce(c, Dispatch(c, s, ord), v)
    {
      DecidedDispatch(c, s, ord, v);
    }
    hide Dispatch, DecidedOnce, DecisionsLead, Known, Timely;
  }

  lemma DecidingUpdate(c: Config, s: State, ord: Order)
    requires ValidOrder(ord) && Timely(s) && DecisionsOrderly(c, s) && s.now == Last(s) && BucketEmpty(s)
    ensures DecisionsOrderly(c, Tick(UpdateWorld(c, s, ord)))
  {
    DryMeansLater(s);
    LeadUpdate(c, s, ord);
    TimelyUpdate(c, s, ord);
    forall v
      ensures DecidedOnce(c, Tick(UpdateWorld(c, s, ord)), v)
    {
      DecidedUpdate(c, s, ord, v);
    }
    hide DecisionsLead, UpdateWorld, DecidedOnce, Timely;
  }

  lemma DecidedUpdate(c: Config, s: State, ord: Order, v: UUID)
    requires ValidOrder(ord) && DecisionsLead(s.queue, s.now)
    requires forall i :: 0 <= i < |s.queue| ==> s.now < s.queue[i].time
    ensures DecidedOnce(c, Tick(UpdateWorld(c, s, ord)), v)
  {
    NoneInFlight(c, s, v);
    UpdateTokens(c, s, ord, Scheduled(c, v));
    UpdateShape(c, s, ord);
    var s' := UpdateWorld(c, s, ord);
    assert N(Tick(s'), Scheduled(c, v)) == N(s', Scheduled(c, v));
    hide UpdateWorld, N, DecisionsLead, Placing, Decisions, Placements, LookupFails;
  }

  lemma DecidingExecute(c: Config, s: State, m: Command)
    requires Timely(s) && DecisionsOrderly(c, s)
    ensures DecisionsOrderly(c, Execute(c, s, m))
  {
    LeadExecute(c, s, m);
    ExecuteShape(c, s, m);
    var s' := Execute(c, s, m);
    forall v
      ensures DecidedOnce(c, s', v)
    {
      assert DecidedOnce(c, s, v);
      ExecuteTokens(c, s, m, Scheduled(c, v));
      hide Execute, N;
    }
    hide Execute, DecidedOnce, DecisionsLead;
  }
}
