/**
 Booting, or shutting down, the whole cloud from a state at rest: every resource follows its
 parent, each at exactly its own time, for every order in which components are walked.
 */
module Cascade {
  import opened Types
  import opened FlatQueue
  import opened Handlers
  import opened Simulator
  import opened StepFacts
  import opened Clock
  import opened Registry
  import opened Effects
  import opened PowerFlow
  import opened Soundness
  import opened Draining
  import Lives

  function Ended(ty: ResourceEventType): PowerState {
    if ty == Boot then On else Off
  }

  // When a resource receives the command, counted from the moment the cloud does: the sum of
  // the delays on the path above it.
  function Due(c: Config, r: UUID, ty: ResourceEventType): nat
    requires WellFormed(c) && r in c.components
    decreases c.depth[r]
  {
    if r == c.cloud then 0
    else
      assert r in c.components[c.parent[r]];
      Due(c, c.parent[r], ty) + PowerDelay(c, c.parent[r], ty)
  }

  // When it has finished, counted from the same moment.
  function Done(c: Config, r: UUID, ty: ResourceEventType): nat
    requires WellFormed(c) && r in c.components
  {
    Due(c, r, ty) + PowerDelay(c, r, ty)
  }

  // At rest, with every resource ready to obey: all off before a boot, none off before a shutdown.
  ghost predicate Poised(c: Config, s: State, ty: ResourceEventType) {
    && WellFormed(c) && Sound(c, s) && s.queue == [] && ty in {Boot, Shutdown}
    && forall r :: r in c.components && r in s.power ==> s.power[r] in if ty == Boot then {Off} else {On, Failed}
  }

  function Command(c: Config, s0: State, r: UUID, ty: ResourceEventType): Event
    requires WellFormed(c) && r in c.components
  {
    Event(s0.now + Due(c, r, ty), r, ResourceEvent(ty))
  }

  function Completion(c: Config, s0: State, r: UUID, ty: ResourceEventType): Event
    requires WellFormed(c) && r in c.components
  {
    Event(s0.now + Done(c, r, ty), r, ResourceEvent(Finish(ty)))
  }

  // The resource has received the command.
  predicate Touched(s0: State, s: State, r: UUID) {
    r in s.power && r in s0.power && s.power[r] != s0.power[r]
  }

  predicate AtEnd(s: State, r: UUID, ty: ResourceEventType) {
    r in s.power && s.power[r] == Ended(ty)
  }

  // The command for the resource has been sent and not yet handled.
  predicate Expects(c: Config, s0: State, s: State, r: UUID) {
    !Touched(s0, s, r) && (r == c.cloud || (r in c.parent && Touched(s0, s, c.parent[r])))
  }

  ghost predicate OneResource(c: Config, s0: State, s: State, ty: ResourceEventType, r: UUID) {
    r in c.components ==>
      && r in s.power && r in s0.power
      && s.power[r] in {s0.power[r], Begun(ty), Ended(ty)}
      && N(s, ToResource(r, ty)) == (if Expects(c, s0, s, r) then 1 else 0)
      && N(s, ToResource(r, Finish(ty))) == (if s.power[r] == Begun(ty) then 1 else 0)
      && (Touched(s0, s, r) && r != c.cloud ==> r in c.parent && Touched(s0, s, c.parent[r]))
  }

  ghost predicate Expected(c: Config, s0: State, ty: ResourceEventType, e: Event) {
    WellFormed(c) && e.to in c.components && (e == Command(c, s0, e.to, ty) || e == Completion(c, s0, e.to, ty))
  }

  ghost function TouchedSet(c: Config, s0: State, s: State): set<UUID> {
    set r | r in c.components && Touched(s0, s, r)
  }

  ghost function EndSet(c: Config, s: State, ty: ResourceEventType): set<UUID> {
    set r | r in c.components && AtEnd(s, r, ty)
  }

  ghost predicate OnTime(c: Config, s0: State, s: State, ty: ResourceEventType) {
    && |s0.log| <= |s.log|
    && |s.log| == |s0.log| + |TouchedSet(c, s0, s)| + |EndSet(c, s, ty)|
    && (forall r :: r in c.components && WellFormed(c) ==>
          (AtEnd(s, r, ty) <==> Completion(c, s0, r, ty) in s.log[|s0.log|..]))
  }

  ghost predicate Spreading(c: Config, s0: State, s: State, ty: ResourceEventType) {
    && s.vms == s0.vms && s.storage == s0.storage && s.hosted == s0.hosted
    && (forall v :: !Pending(s, v))
    && (forall e :: e in s.queue ==> Expected(c, s0, ty, e))
    && (forall r :: OneResource(c, s0, s, ty, r))
    && OnTime(c, s0, s, ty)
  }

  // ----- the command -----

  lemma Begin(c: Config, s0: State, ty: ResourceEventType)
    requires Poised(c, s0, ty)
    ensures Spreading(c, s0, Execute(c, s0, Power(c.cloud, ty)), ty)
  {
    var m := Power(c.cloud, ty);
    var s := Execute(c, s0, m);
    BeginQueue(c, s0, ty);
    hide OneResource, OnTime, WellFormed, Sound, Execute, Expected, Poised;
    forall r
      ensures OneResource(c, s0, s, ty, r)
    {
      BeginOne(c, s0, ty, r);
    }
    NothingYet(c, s0, s, ty);
  }

  lemma BeginQueue(c: Config, s0: State, ty: ResourceEventType)
    requires Poised(c, s0, ty)
    ensures var s := Execute(c, s0, Power(c.cloud, ty));
            && s.vms == s0.vms && s.storage == s0.storage && s.hosted == s0.hosted && s.power == s0.power &&
                s.log == s0.log
            && (forall v :: !Pending(s, v)) && forall e :: e in s.queue ==> Expected(c, s0, ty, e)
  {
    CloudFirst(c, ty);
    hide WellFormed, Due;
    var s := Execute(c, s0, Power(c.cloud, ty));
    assert s.queue == [Event(s0.now, c.cloud, ResourceEvent(ty))];
    assert forall v :: Pending(s, v) == Pending(s0, v);
    assert Rested(s0);
    hide Sound;
  }

  lemma CloudFirst(c: Config, ty: ResourceEventType)
    requires WellFormed(c)
    ensures c.cloud in c.components && Due(c, c.cloud, ty) == 0
  {}

  lemma PoisedPower(c: Config, s0: State, ty: ResourceEventType, r: UUID)
    requires Poised(c, s0, ty) && r in c.components
    ensures r in s0.power && s0.power[r] != Begun(ty) && s0.power[r] != Ended(ty) && Obeys(s0.power[r], ty)
    ensures Begun(ty) != Ended(ty)
  {
    assert Known(c, s0);
    hide Lives.Alive;
  }

  lemma NothingYet(c: Config, s0: State, s: State, ty: ResourceEventType)
    requires Poised(c, s0, ty) && s.power == s0.power && s.log == s0.log
    ensures OnTime(c, s0, s, ty)
  {
    hide WellFormed, Sound, Completion;
    forall r | r in c.components
      ensures !Touched(s0, s, r) && !AtEnd(s, r, ty)
    {
      PoisedPower(c, s0, ty, r);
      hide Poised;
    }
    assert TouchedSet(c, s0, s) == {} && EndSet(c, s, ty) == {};
    assert s.log[|s0.log|..] == [];
  }

  lemma BeginOne(c: Config, s0: State, ty: ResourceEventType, r: UUID)
    requires Poised(c, s0, ty)
    ensures OneResource(c, s0, Execute(c, s0, Power(c.cloud, ty)), ty, r)
  {
    if r in c.components {
      PoisedPower(c, s0, ty, r);
      var m := Power(c.cloud, ty);
      NothingSent(s0.queue);
      ExecuteTokens(c, s0, m, ToResource(r, ty));
      ExecuteTokens(c, s0, m, ToResource(r, Finish(ty)));
      ExecuteShape(c, s0, m);
      hide Execute, Tokens, WellFormed, Sound;
    }
  }

  // ----- one dispatch -----

  lemma HeadExpected(c: Config, s0: State, s: State, ty: ResourceEventType)
    requires Spreading(c, s0, s, ty) && s.queue != []
    ensures Expected(c, s0, ty, s.queue[0])
  {
    hide OneResource, OnTime, Expected;
  }

  // Either the command reaches a resource that expects it, or a resource completes.
  lemma HeadMoves(c: Config, s0: State, s: State, ty: ResourceEventType)
    requires Poised(c, s0, ty) && Spreading(c, s0, s, ty) && s.queue != []
    ensures var e := s.queue[0];
            && Expected(c, s0, ty, e) && e.to in s.power && e.to in s0.power && ty != Finish(ty)
            && (e.body == ResourceEvent(ty) || e.body == ResourceEvent(Finish(ty)))
    ensures var e := s.queue[0];
            e.body == ResourceEvent(ty) ==> Expects(c, s0, s, e.to) && Obeys(s.power[e.to], ty) && Fires(c, s)
    ensures var e := s.queue[0];
            e.body == ResourceEvent(Finish(ty)) ==> s.power[e.to] == Begun(ty) && !Fires(c, s)
  {
    HeadExpected(c, s0, s, ty);
    HeadQueued(s);
    var e := s.queue[0];
    PoisedPower(c, s0, ty, e.to);
    assert OneResource(c, s0, s, ty, e.to);
    assert ty in {Boot, Shutdown};
    hide N, WellFormed, OnTime, Spreading, Poised, Due;
  }

  lemma NextOf(p: PowerState, ty: ResourceEventType)
    requires ty in {Boot, Shutdown}
    ensures Obeys(p, ty) ==> NextPower(p, ResourceEvent(ty)) == Begun(ty)
    ensures NextPower(Begun(ty), ResourceEvent(Finish(ty))) == Ended(ty)
  {}

  lemma HeadPower(c: Config, s0: State, s: State, ord: Order, ty: ResourceEventType, r: UUID)
    requires Poised(c, s0, ty) && Known(c, s) && Spreading(c, s0, s, ty) && s.queue != [] && r in c.components
    ensures r in s.power && r in Dispatch(c, s, ord).power
    ensures Dispatch(c, s, ord).power[r] ==
            if r != s.queue[0].to then s.power[r]
            else if s.queue[0].body == ResourceEvent(ty) then Begun(ty) else Ended(ty)
  {
    assert OneResource(c, s0, s, ty, r);
    assert WellFormed(c) && ty in {Boot, Shutdown};
    hide N, WellFormed, OnTime, Spreading, Poised, Due, Dispatch, Known, Expects, Fires, Expected, Obeys, NextPower,
        Begun, Ended, Finish;
    HeadMoves(c, s0, s, ty);
    NextOf(s.power[r], ty);
    PowerStateAfter(c, s, ord, r);
  }

  lemma TouchedAfter(c: Config, s0: State, s: State, ord: Order, ty: ResourceEventType, r: UUID)
    requires Poised(c, s0, ty) && Known(c, s) && Spreading(c, s0, s, ty) && s.queue != [] && r in c.components
    ensures Touched(s0, Dispatch(c, s, ord), r) <==>
            Touched(s0, s, r) || (r == s.queue[0].to && s.queue[0].body == ResourceEvent(ty))
    ensures AtEnd(Dispatch(c, s, ord), r, ty) <==>
            AtEnd(s, r, ty) || (r == s.queue[0].to && s.queue[0].body == ResourceEvent(Finish(ty)))
    ensures r == s.queue[0].to && s.queue[0].body == ResourceEvent(Finish(ty)) ==> !AtEnd(s, r, ty) && Touched(s0, s, r)
    ensures r == s.queue[0].to && s.queue[0].body == ResourceEvent(ty) ==> !AtEnd(s, r, ty) && !Touched(s0, s, r)
  {
    HeadPower(c, s0, s, ord, ty, r);
    HeadMoves(c, s0, s, ty);
    PoisedPower(c, s0, ty, r);
    hide N, WellFormed, OnTime, Spreading, Poised, Due, Dispatch, Known, Fires, OneResource, Expected, Obeys, Begun,
        Ended;
  }

  lemma ParentFacts(c: Config, r: UUID)
    requires WellFormed(c) && r in c.parent
    ensures r in c.components && c.parent[r] in c.components && r in c.components[c.parent[r]] && c.parent[r] != r
    ensures r != c.cloud
  {
    assert c.parent[r] in c.components && r in c.components[c.parent[r]];
  }

  lemma ChildFacts(c: Config, p: UUID, r: UUID)
    requires WellFormed(c) && p in c.components && r in c.components[p]
    ensures r in c.parent && c.parent[r] == p && r in c.components && r != c.cloud && r != p
  {}

  predicate ChildOf(c: Config, p: UUID, r: UUID) {
    r in c.parent && c.parent[r] == p
  }

  lemma ExpectsAfter(c: Config, s0: State, s: State, ord: Order, ty: ResourceEventType, r: UUID)
    requires Poised(c, s0, ty) && Known(c, s) && Spreading(c, s0, s, ty) && s.queue != [] && r in c.components
    ensures var e, d := s.queue[0], Dispatch(c, s, ord);
            if e.body == ResourceEvent(ty) && r == e.to then Expects(c, s0, s, r) && !Expects(c, s0, d, r)
            else if e.body == ResourceEvent(ty) && ChildOf(c, e.to, r) then !Expects(c, s0, s, r) && Expects(c, s0, d, r)
            else Expects(c, s0, s, r) <==> Expects(c, s0, d, r)
    ensures var d := Dispatch(c, s, ord);
            Touched(s0, d, r) && r != c.cloud ==> r in c.parent && Touched(s0, d, c.parent[r])
  {
    var e := s.queue[0];
    HeadMoves(c, s0, s, ty);
    TouchedAfter(c, s0, s, ord, ty, r);
    assert OneResource(c, s0, s, ty, r);
    CloudOrChild(c, e.to, r);
    if r in c.parent {
      TouchedAfter(c, s0, s, ord, ty, c.parent[r]);
    }
    hide N, WellFormed, OnTime, Spreading, Poised, Due, Dispatch, Known, Fires, Expected, Obeys, Touched, Begun, Ended;
  }

  lemma CloudOrChild(c: Config, p: UUID, r: UUID)
    requires WellFormed(c) && r in c.components && p in c.components
    ensures r == c.cloud || (r in c.parent && c.parent[r] in c.components && c.parent[r] != r)
    ensures r in c.components[p] <==> ChildOf(c, p, r)
    ensures r in c.components[p] ==> r != c.cloud
  {
    if r in c.components[p] { ChildFacts(c, p, r); }
    if r in c.parent { ParentFacts(c, r); }
  }

  lemma SentIs(c: Config, s0: State, s: State, ty: ResourceEventType, r: UUID)
    requires Poised(c, s0, ty) && Spreading(c, s0, s, ty) && s.queue != [] && r in c.components
    ensures var cmd := s.queue[0].body == ResourceEvent(ty);
            && Sent(c, s, r, ty) == (if cmd && ChildOf(c, s.queue[0].to, r) then 1 else 0)
            && Sent(c, s, r, Finish(ty)) == (if cmd && r == s.queue[0].to then 1 else 0)
  {
    HeadMoves(c, s0, s, ty);
    CloudOrChild(c, s.queue[0].to, r);
    hide WellFormed, OnTime, Spreading, Poised, Due, Done, Expects, Fires, Obeys, Begun;
  }

  lemma CommandCount(c: Config, s0: State, s: State, ord: Order, ty: ResourceEventType, r: UUID)
    requires Poised(c, s0, ty) && Known(c, s) && ValidOrder(ord) && Spreading(c, s0, s, ty) && s.queue != []
    requires r in c.components
    ensures var d := Dispatch(c, s, ord);
            N(d, ToResource(r, ty)) == if Expects(c, s0, d, r) then 1 else 0
  {
    assert N(s, ToResource(r, ty)) == (if Expects(c, s0, s, r) then 1 else 0) by { assert OneResource(c, s0, s, ty, r); }
    assert WellFormed(c);
    hide Dispatch, N, WellFormed, Known, Spreading, Poised, Expects, Touched, Expected, Fires, Sent, Finish, ChildOf,
        Obeys;
    HeadMoves(c, s0, s, ty);
    ExpectsAfter(c, s0, s, ord, ty, r);
    SentIs(c, s0, s, ty, r);
    PowerTokenAfter(c, s, ord, r, ty);
  }

  lemma CompletionCount(c: Config, s0: State, s: State, ord: Order, ty: ResourceEventType, r: UUID)
    requires Poised(c, s0, ty) && Known(c, s) && ValidOrder(ord) && Spreading(c, s0, s, ty) && s.queue != []
    requires r in c.components
    ensures var d := Dispatch(c, s, ord);
            r in d.power && N(d, ToResource(r, Finish(ty))) == if d.power[r] == Begun(ty) then 1 else 0
  {
    assert r in s.power && N(s, ToResource(r, Finish(ty))) == (if s.power[r] == Begun(ty) then 1 else 0) by {
      assert OneResource(c, s0, s, ty, r);
    }
    assert WellFormed(c);
    PoisedPower(c, s0, ty, r);
    hide Dispatch, N, WellFormed, Known, Spreading, Poised, Expected, Fires, Sent, Finish, ChildOf, Obeys, Begun, Ended;
    HeadMoves(c, s0, s, ty);
    HeadPower(c, s0, s, ord, ty, r);
    SentIs(c, s0, s, ty, r);
    PowerTokenAfter(c, s, ord, r, Finish(ty));
  }

  lemma OneDispatch(c: Config, s0: State, s: State, ord: Order, ty: ResourceEventType, r: UUID)
    requires Poised(c, s0, ty) && Known(c, s) && ValidOrder(ord) && Spreading(c, s0, s, ty) && s.queue != []
    ensures OneResource(c, s0, Dispatch(c, s, ord), ty, r)
  {
    if r in c.components {
      assert OneResource(c, s0, s, ty, r);
      hide Dispatch, N, Known, Spreading, Poised, Expects, Touched, Begun, Ended, Finish;
      HeadPower(c, s0, s, ord, ty, r);
      ExpectsAfter(c, s0, s, ord, ty, r);
      CommandCount(c, s0, s, ord, ty, r);
      CompletionCount(c, s0, s, ord, ty, r);
    }
  }

  lemma PoisedFacts(c: Config, s0: State, ty: ResourceEventType)
    requires Poised(c, s0, ty)
    ensures WellFormed(c) && Sound(c, s0) && ty in {Boot, Shutdown} && s0.queue == []
  {
    hide WellFormed, Sound;
  }

  lemma FanExpected(c: Config, s0: State, ty: ResourceEventType, r: UUID, order: seq<UUID>, t: int, out: seq<Event>)
    requires WellFormed(c) && ty in {Boot, Shutdown} && r in c.components && Enumerates(order, c.components[r])
    requires t == s0.now + Due(c, r, ty) + PowerDelay(c, r, ty)
    requires out == Broadcast(order, t, ty) + [Event(t, r, ResourceEvent(Finish(ty)))]
    ensures forall i :: 0 <= i < |out| ==> Expected(c, s0, ty, out[i])
  {
    hide WellFormed, PowerDelay, Due;
    forall i | 0 <= i < |order|
      ensures order[i] in c.components && Command(c, s0, order[i], ty) == Event(t, order[i], ResourceEvent(ty))
    {
      assert order[i] in order;
      DueChild(c, r, order[i], ty);
    }
  }

  // Every event a dispatch sends is due at its resource's own time.
  lemma SentOnTime(c: Config, s0: State, s: State, ord: Order, ty: ResourceEventType)
    requires Poised(c, s0, ty) && Known(c, s) && ValidOrder(ord) && Spreading(c, s0, s, ty) && s.queue != []
    ensures forall i :: 0 <= i < |Out(c, s, ord)| ==> Expected(c, s0, ty, Out(c, s, ord)[i])
  {
    hide Spreading, Poised, Known, Out, Expects, Obeys, Begun, WellFormed, Due, Fires, PowerDelay, Broadcast;
    PoisedFacts(c, s0, ty);
    HeadMoves(c, s0, s, ty);
    OutPower(c, s, ord);
    var e := s.queue[0];
    if e.body == ResourceEvent(ty) {
      assert e == Command(c, s0, e.to, ty);
      assert Enumerates(ord(c.components[e.to]), c.components[e.to]);
      FanExpected(c, s0, ty, e.to, ord(c.components[e.to]), e.time + PowerDelay(c, e.to, ty), Out(c, s, ord));
    }
    hide Expected;
  }

  lemma DueChild(c: Config, p: UUID, r: UUID, ty: ResourceEventType)
    requires WellFormed(c) && p in c.components && r in c.components[p]
    ensures r in c.components && Due(c, r, ty) == Due(c, p, ty) + PowerDelay(c, p, ty)
  {
    ChildFacts(c, p, r);
    hide PowerDelay;
  }

  // ----- the log -----

  lemma OneMore(a: set<UUID>, b: set<UUID>, x: UUID)
    requires x !in a && forall y :: y in b <==> y in a || y == x
    ensures |b| == |a| + 1
  {
    assert b == a + {x};
  }

  lemma SameSet(a: set<UUID>, b: set<UUID>)
    requires forall y :: y in b <==> y in a
    ensures |b| == |a|
  {
    assert b == a;
  }

  lemma CountsAfter(c: Config, s0: State, s: State, ord: Order, ty: ResourceEventType)
    requires Poised(c, s0, ty) && Known(c, s) && ValidOrder(ord) && Spreading(c, s0, s, ty) && s.queue != []
    ensures var d := Dispatch(c, s, ord);
            |TouchedSet(c, s0, d)| + |EndSet(c, d, ty)| == |TouchedSet(c, s0, s)| + |EndSet(c, s, ty)| + 1
  {
    hide Dispatch, Spreading, Poised, Known, Touched, AtEnd, Expects, Fires, Obeys, WellFormed;
    var e, d := s.queue[0], Dispatch(c, s, ord);
    HeadMoves(c, s0, s, ty);
    assert e.to in c.components;
    hide Expected, Finish;
    var cmd := e.body == ResourceEvent(ty);
    forall r
      ensures r in TouchedSet(c, s0, d) <==> r in TouchedSet(c, s0, s) || (cmd && r == e.to)
      ensures r in EndSet(c, d, ty) <==> r in EndSet(c, s, ty) || (!cmd && r == e.to)
    {
      if r in c.components {
        TouchedAfter(c, s0, s, ord, ty, r);
      }
    }
    TouchedAfter(c, s0, s, ord, ty, e.to);
    if cmd {
      assert e.to !in TouchedSet(c, s0, s);
      hide TouchedSet, EndSet;
      OneMore(TouchedSet(c, s0, s), TouchedSet(c, s0, d), e.to);
      SameSet(EndSet(c, s, ty), EndSet(c, d, ty));
    } else {
      assert e.to !in EndSet(c, s, ty);
      hide TouchedSet, EndSet;
      OneMore(EndSet(c, s, ty), EndSet(c, d, ty), e.to);
      SameSet(TouchedSet(c, s0, s), TouchedSet(c, s0, d));
    }
  }

  lemma CompletionIs(c: Config, s0: State, ty: ResourceEventType, e: Event, r: UUID)
    requires WellFormed(c) && ty in {Boot, Shutdown} && Expected(c, s0, ty, e) && r in c.components
    ensures e == Completion(c, s0, r, ty) <==> r == e.to && e.body == ResourceEvent(Finish(ty))
  {
    hide WellFormed, Due, PowerDelay;
  }

  lemma SpreadingOnTime(c: Config, s0: State, s: State, ty: ResourceEventType)
    requires Spreading(c, s0, s, ty)
    ensures OnTime(c, s0, s, ty)
  {
    hide OnTime;
  }

  lemma OnTimeDispatch(c: Config, s0: State, s: State, ord: Order, ty: ResourceEventType)
    requires Poised(c, s0, ty) && Known(c, s) && ValidOrder(ord) && Spreading(c, s0, s, ty) && s.queue != []
    ensures OnTime(c, s0, Dispatch(c, s, ord), ty)
  {
    hide Dispatch, Spreading, Poised, Known, TouchedSet, EndSet, AtEnd, Touched, Expected, Completion, Expects, Fires,
        Obeys, WellFormed, Handled, Out;
    PoisedFacts(c, s0, ty);
    SpreadingOnTime(c, s0, s, ty);
    HeadMoves(c, s0, s, ty);
    CountsAfter(c, s0, s, ord, ty);
    DispatchShape(c, s, ord);
    var e, d := s.queue[0], Dispatch(c, s, ord);
    assert d.log[|s0.log|..] == s.log[|s0.log|..] + [e];
    forall r | r in c.components
      ensures AtEnd(d, r, ty) <==> Completion(c, s0, r, ty) in d.log[|s0.log|..]
    {
      TouchedAfter(c, s0, s, ord, ty, r);
      CompletionIs(c, s0, ty, e, r);
    }
  }

  // ----- whole drains -----

  lemma SpreadingDispatch(c: Config, s0: State, s: State, ord: Order, ty: ResourceEventType)
    requires Poised(c, s0, ty) && Sound(c, s) && ValidOrder(ord) && Spreading(c, s0, s, ty) && s.queue != []
    ensures Spreading(c, s0, Dispatch(c, s, ord), ty)
  {
    hide Dispatch, Sound, Known, Poised, OnTime, OneResource, Expected;
    SoundKnown(c, s);
    var d := Dispatch(c, s, ord);
    OnTimeDispatch(c, s0, s, ord, ty);
    ActorsStay(c, s0, s, ord, ty);
    QueueOnTime(c, s0, s, ord, ty);
    assert forall v :: Pending(d, v) == Pending(s, v);
    forall r
      ensures OneResource(c, s0, d, ty, r)
    {
      OneDispatch(c, s0, s, ord, ty, r);
    }
  }

  lemma SpreadingQueue(c: Config, s0: State, s: State, ty: ResourceEventType)
    requires Spreading(c, s0, s, ty)
    ensures forall e :: e in s.queue ==> Expected(c, s0, ty, e)
    ensures s.vms == s0.vms && s.storage == s0.storage && s.hosted == s0.hosted
  {
    hide OnTime, OneResource, Expected;
  }

  lemma QueueOnTime(c: Config, s0: State, s: State, ord: Order, ty: ResourceEventType)
    requires Poised(c, s0, ty) && Known(c, s) && ValidOrder(ord) && Spreading(c, s0, s, ty) && s.queue != []
    ensures forall e :: e in Dispatch(c, s, ord).queue ==> Expected(c, s0, ty, e)
  {
    hide Dispatch, Known, Poised, Spreading, Expected, Out, InsertAllBack, Handled;
    SpreadingQueue(c, s0, s, ty);
    DispatchShape(c, s, ord);
    SentOnTime(c, s0, s, ord, ty);
    InsertAllMembers(s.queue[1..], Out(c, s, ord));
  }

  lemma PowerTouchesNobodyElse(c: Config, s: State, e: Event, ord: Order)
    requires e.to != c.storage && e.to !in s.vms && !e.body.ServerEvent?
    ensures var d := React(c, s, e, ord).0;
            d.vms == s.vms && d.storage == s.storage && d.hosted == s.hosted
  {
    hide StorageReact, VMReact, ServerReact, ResourceReact;
  }

  lemma ActorsStay(c: Config, s0: State, s: State, ord: Order, ty: ResourceEventType)
    requires Poised(c, s0, ty) && Known(c, s) && Spreading(c, s0, s, ty) && s.queue != []
    ensures var d := Dispatch(c, s, ord);
            d.vms == s.vms && d.storage == s.storage && d.hosted == s.hosted
  {
    hide Dispatch, Out, Poised, Spreading, Expects, Fires, React, Finish, Obeys;
    PoisedFacts(c, s0, ty);
    HeadMoves(c, s0, s, ty);
    var e := s.queue[0];
    assert e.to != c.storage && e.to !in s.vms && e.body.ResourceEvent?;
    hide Known, WellFormed, Expected;
    DispatchShape(c, s, ord);
    PowerTouchesNobodyElse(c, Popped(s), e, ord);
  }

  lemma SpreadingStep(c: Config, s0: State, s: State, ord: Order, ty: ResourceEventType)
    requires Poised(c, s0, ty) && Sound(c, s) && ValidOrder(ord) && Spreading(c, s0, s, ty)
    ensures Spreading(c, s0, Step(c, s, ord), ty)
  {
    if s.queue != [] {
      assert WellFormed(c);
      SoundDispatch(c, s, ord);
      SpreadingDispatch(c, s0, s, ord, ty);
      var d := Dispatch(c, s, ord);
      hide Dispatch, UpdateWorld, Sound, Poised, WellFormed, Known, Lives.Alive;
      if BucketEmpty(d) {
        DryMeansLater(d);
        NoPendingNoUpdate(c, d, ord);
        SpreadingSame(c, s0, d, Tick(UpdateWorld(c, d, ord)), ty);
      }
    }
  }

  lemma SpreadingSame(c: Config, s0: State, d: State, s': State, ty: ResourceEventType)
    requires Spreading(c, s0, d, ty)
    requires s'.queue == d.queue && s'.vms == d.vms && s'.hosted == d.hosted && s'.storage == d.storage &&
             s'.power == d.power && s'.log == d.log
    ensures Spreading(c, s0, s', ty)
  {
    hide Expected, OneResource, OnTime;
    assert forall v :: Pending(s', v) == Pending(d, v);
    forall r
      ensures OneResource(c, s0, s', ty, r)
    {
      OneSame(c, s0, d, s', ty, r);
    }
    OnTimeSame(c, s0, d, s', ty);
  }

  lemma OneSame(c: Config, s0: State, d: State, s': State, ty: ResourceEventType, r: UUID)
    requires OneResource(c, s0, d, ty, r) && s'.power == d.power && s'.queue == d.queue
    ensures OneResource(c, s0, s', ty, r)
  {
    assert N(s', ToResource(r, ty)) == N(d, ToResource(r, ty));
    assert N(s', ToResource(r, Finish(ty))) == N(d, ToResource(r, Finish(ty)));
    hide N;
    assert Expects(c, s0, s', r) == Expects(c, s0, d, r);
  }

  lemma OnTimeSame(c: Config, s0: State, d: State, s': State, ty: ResourceEventType)
    requires OnTime(c, s0, d, ty) && s'.power == d.power && s'.log == d.log
    ensures OnTime(c, s0, s', ty)
  {
    assert forall r :: Touched(s0, s', r) == Touched(s0, d, r) && AtEnd(s', r, ty) == AtEnd(d, r, ty);
    hide Touched, AtEnd, Completion, WellFormed;
    assert TouchedSet(c, s0, s') == TouchedSet(c, s0, d) && EndSet(c, s', ty) == EndSet(c, d, ty);
  }

  function Start(c: Config, s0: State, ty: ResourceEventType): State {
    Execute(c, s0, Power(c.cloud, ty))
  }

  lemma StartSound(c: Config, s0: State, ty: ResourceEventType)
    requires Poised(c, s0, ty)
    ensures Sound(c, Start(c, s0, ty))
  {
    PoisedFacts(c, s0, ty);
    CloudFirst(c, ty);
    hide Sound, WellFormed, Execute, Poised;
    SoundExecute(c, s0, Power(c.cloud, ty));
  }

  lemma {:induction false} SpreadingDrain(c: Config, s0: State, ty: ResourceEventType, ords: nat -> Order, n: nat)
    requires Poised(c, s0, ty) && ValidOrders(ords)
    ensures Sound(c, Drain(c, Start(c, s0, ty), ords, n)) && Spreading(c, s0, Drain(c, Start(c, s0, ty), ords, n), ty)
  {
    hide Sound, WellFormed, Execute, Step, Spreading, Poised;
    PoisedFacts(c, s0, ty);
    StartSound(c, s0, ty);
    if n == 0 {
      Begin(c, s0, ty);
    } else {
      hide Start;
      SpreadingDrain(c, s0, ty, ords, n - 1);
      var s := Drain(c, Start(c, s0, ty), ords, n - 1);
      SoundStep(c, s, ords(n - 1));
      SpreadingStep(c, s0, s, ords(n - 1), ty);
    }
  }

  // With nothing queued a resource expects nothing and is not between two power states.
  lemma Quiet(c: Config, s0: State, s: State, ty: ResourceEventType, r: UUID)
    requires OneResource(c, s0, s, ty, r) && s.queue == [] && r in c.components
    ensures !Expects(c, s0, s, r) && r in s.power && r in s0.power && s.power[r] in {s0.power[r], Ended(ty)}
  {
    NothingSent(s.queue);
    hide Tokens, Expects;
  }

  lemma QuietEnd(c: Config, s0: State, s: State, ty: ResourceEventType, r: UUID)
    requires Poised(c, s0, ty) && r in c.components && r in s.power && r in s0.power
    requires s.power[r] in {s0.power[r], Ended(ty)} && Touched(s0, s, r)
    ensures AtEnd(s, r, ty)
  {
    hide Poised;
  }

  lemma Descends(c: Config, r: UUID)
    requires WellFormed(c) && r in c.components && r != c.cloud
    ensures r in c.parent && c.parent[r] in c.components && r in c.depth && c.parent[r] in c.depth
    ensures c.depth[c.parent[r]] < c.depth[r]
  {
    ParentFacts(c, r);
    assert r in c.components[c.parent[r]];
  }

  // When nothing is queued any more, every resource has been through the whole cascade.
  lemma {:induction false} AllReached(c: Config, s0: State, s: State, ty: ResourceEventType, r: UUID)
    requires Poised(c, s0, ty) && Spreading(c, s0, s, ty) && s.queue == [] && r in c.components
    ensures Touched(s0, s, r) && AtEnd(s, r, ty)
    decreases c.depth[r]
  {
    hide Poised, OneResource, WellFormed, AtEnd, Ended, OnTime, Expected, Touched;
    PoisedFacts(c, s0, ty);
    Quiet(c, s0, s, ty, r);
    if r != c.cloud {
      Descends(c, r);
      AllReached(c, s0, s, ty, c.parent[r]);
    }
    QuietEnd(c, s0, s, ty, r);
  }

  // The state a finished cascade leaves behind.
  ghost predicate Finished(c: Config, s0: State, s: State, ty: ResourceEventType) {
    && s.queue == []
    && s.vms == s0.vms && s.storage == s0.storage && s.hosted == s0.hosted
    && (forall r :: r in c.components ==> AtEnd(s, r, ty))
    && |s0.log| <= |s.log| == |s0.log| + 2 * |c.components|
    && (WellFormed(c) ==> forall r :: r in c.components ==> Completion(c, s0, r, ty) in s.log[|s0.log|..])
  }

  // Booting or shutting down the cloud from a state at rest and draining: the drain ends, and
  // then every resource is on (off), has completed at exactly the sum of the delays on its
  // root path, and exactly two events were dispatched for each; nothing else has changed.
  lemma CascadeCompletes(c: Config, s0: State, ty: ResourceEventType, ords: nat -> Order) returns (n: nat)
    requires Poised(c, s0, ty) && ValidOrders(ords)
    ensures Finished(c, s0, Drain(c, Start(c, s0, ty), ords, n), ty)
    ensures Sound(c, Drain(c, Start(c, s0, ty), ords, n))
  {
    hide Sound, WellFormed, Drain, Spreading, Poised, Completion, AtEnd, Start, GetsStuck, Finished, ValidOrders;
    PoisedFacts(c, s0, ty);
    StartSound(c, s0, ty);
    NeverStuck(c, s0, ty, ords);
    EndsUnlessStuck(c, Start(c, s0, ty), ords);
    n :| Drain(c, Start(c, s0, ty), ords, n).queue == [];
    SpreadingDrain(c, s0, ty, ords, n);
    Completed(c, s0, Drain(c, Start(c, s0, ty), ords, n), ty);
  }

  lemma Completed(c: Config, s0: State, s: State, ty: ResourceEventType)
    requires Poised(c, s0, ty) && Spreading(c, s0, s, ty) && s.queue == []
    ensures Finished(c, s0, s, ty)
  {
    hide OneResource, Touched, AtEnd, Poised, Completion, Expected, Spreading, OnTime, WellFormed;
    PoisedFacts(c, s0, ty);
    SpreadingQueue(c, s0, s, ty);
    SpreadingOnTime(c, s0, s, ty);
    forall r | r in c.components
      ensures Touched(s0, s, r) && AtEnd(s, r, ty)
    {
      AllReached(c, s0, s, ty, r);
    }
    OnTimeMeans(c, s0, s, ty);
    SameSet(c.components.Keys, TouchedSet(c, s0, s));
    SameSet(c.components.Keys, EndSet(c, s, ty));
    hide TouchedSet, EndSet;
  }

  lemma OnTimeMeans(c: Config, s0: State, s: State, ty: ResourceEventType)
    requires OnTime(c, s0, s, ty) && WellFormed(c)
    ensures |s0.log| <= |s.log| == |s0.log| + |TouchedSet(c, s0, s)| + |EndSet(c, s, ty)|
    ensures forall r :: r in c.components ==> (AtEnd(s, r, ty) <==> Completion(c, s0, r, ty) in s.log[|s0.log|..])
  {
    hide TouchedSet, EndSet, WellFormed, AtEnd, Completion;
  }

  lemma NeverStuck(c: Config, s0: State, ty: ResourceEventType, ords: nat -> Order)
    requires Poised(c, s0, ty) && ValidOrders(ords)
    ensures !GetsStuck(c, Start(c, s0, ty), ords)
  {
    hide Start, Drain, Poised, Sound, OnTime, OneResource, ValidOrders, Expected;
    forall n: nat
      ensures !Stuck(Drain(c, Start(c, s0, ty), ords, n))
    {
      SpreadingDrain(c, s0, ty, ords, n);
    }
  }

  // At every point of such a drain a resource has reached its final state exactly if its
  // completion, due at its own time, has been dispatched.
  lemma ReachedExactlyOnTime(c: Config, s0: State, ty: ResourceEventType, ords: nat -> Order, n: nat, r: UUID)
    requires Poised(c, s0, ty) && ValidOrders(ords) && r in c.components
    ensures WellFormed(c)
    ensures var s := Drain(c, Start(c, s0, ty), ords, n);
            |s0.log| <= |s.log| && (AtEnd(s, r, ty) <==> Completion(c, s0, r, ty) in s.log[|s0.log|..])
  {
    hide Start, Drain, Poised, Sound, Completion, AtEnd, Spreading, OnTime, WellFormed, ValidOrders;
    PoisedFacts(c, s0, ty);
    SpreadingDrain(c, s0, ty, ords, n);
    SpreadingOnTime(c, s0, Drain(c, Start(c, s0, ty), ords, n), ty);
    OnTimeMeans(c, s0, Drain(c, Start(c, s0, ty), ords, n), ty);
  }

  // A finished boot is at rest and ready to be shut down.
  lemma BootedIsPoised(c: Config, s0: State, s: State)
    requires WellFormed(c) && Sound(c, s) && Finished(c, s0, s, Boot)
    ensures Poised(c, s, Shutdown)
  {
    hide WellFormed, Sound, Completion;
    forall r | r in c.components && r in s.power
      ensures s.power[r] in {On, Failed}
    {
      assert AtEnd(s, r, Boot);
    }
  }

  // Boot, drain, shut down, drain: every resource is off again, and no VM noticed.
  lemma BootShutdownRoundTrip(c: Config, s0: State, ords1: nat -> Order, ords2: nat -> Order) returns (n1: nat, n2: nat)
    requires Poised(c, s0, Boot) && ValidOrders(ords1) && ValidOrders(ords2)
    ensures var s1 := Drain(c, Start(c, s0, Boot), ords1, n1);
            var s2 := Drain(c, Start(c, s1, Shutdown), ords2, n2);
            && s2.queue == [] && s2.power == s0.power && s2.vms == s0.vms && s2.storage == s0.storage
            && s2.hosted == s0.hosted && |s2.log| == |s0.log| + 4 * |c.components|
  {
    hide WellFormed, Sound, Poised, Drain, Start, Finished, ValidOrders;
    PoisedFacts(c, s0, Boot);
    n1 := CascadeCompletes(c, s0, Boot, ords1);
    var s1 := Drain(c, Start(c, s0, Boot), ords1, n1);
    BootedIsPoised(c, s0, s1);
    n2 := CascadeCompletes(c, s1, Shutdown, ords2);
    var s2 := Drain(c, Start(c, s1, Shutdown), ords2, n2);
    BothFinished(c, s0, s1, s2);
  }

  lemma FinishedPower(c: Config, s: State, s0: State, ty: ResourceEventType, r: UUID)
    requires Finished(c, s0, s, ty) && r in c.components
    ensures r in s.power && s.power[r] == Ended(ty)
  {
    hide WellFormed, Completion;
    assert AtEnd(s, r, ty);
  }

  lemma BothFinished(c: Config, s0: State, s1: State, s2: State)
    requires Poised(c, s0, Boot) && Finished(c, s0, s1, Boot) && Finished(c, s1, s2, Shutdown) && Sound(c, s2)
    ensures s2.queue == [] && s2.power == s0.power && s2.vms == s0.vms && s2.storage == s0.storage
    ensures s2.hosted == s0.hosted && |s2.log| == |s0.log| + 4 * |c.components|
  {
    hide Poised, Sound, WellFormed, Completion, AtEnd, Finished;
    PoisedFacts(c, s0, Boot);
    SoundKnown(c, s0);
    SoundKnown(c, s2);
    PowerDomain(c, s0);
    PowerDomain(c, s2);
    hide Known, Timely;
    forall r | r in c.components
      ensures r in s2.power && r in s0.power && s2.power[r] == s0.power[r]
    {
      PoisedPower(c, s0, Boot, r);
      FinishedPower(c, s2, s1, Shutdown, r);
    }
    FinishedRest(c, s0, s1, Boot);
    FinishedRest(c, s1, s2, Shutdown);
  }

  lemma FinishedRest(c: Config, s0: State, s: State, ty: ResourceEventType)
    requires Finished(c, s0, s, ty)
    ensures s.queue == [] && s.vms == s0.vms && s.storage == s0.storage && s.hosted == s0.hosted
    ensures |s.log| == |s0.log| + 2 * |c.components|
  {
    hide AtEnd, Completion, WellFormed;
  }
}
