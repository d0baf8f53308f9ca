/**
 The invariant of every reachable state, and what a user of the simulator may conclude from it
 about the clock, about quiescence, about placement and about the three views of a VM.
 */
module Soundness {
  import opened Types
  import opened FlatQueue
  import opened Simulator
  import opened StepFacts
  import opened Clock
  import opened Registry
  import opened Deciding
  import opened Placement
  import Lives
  import PowerFlow
  import HostedFirst

  // With nothing left to dispatch no VM waits for a place.
  ghost predicate Rested(s: State) {
    s.queue == [] ==> forall v :: !Pending(s, v)
  }

  ghost predicate Sound(c: Config, s: State) {
    && Timely(s)
    && Known(c, s)
    && DecisionsOrderly(c, s)
    && Lives.Alive(c, s)
    && AllTraced(c, s)
    && PowerFlow.AllPowering(s)
    && HostedFirst.InOrder(c, s.log, s.queue, Last(s))
    && Rested(s)
  }

  lemma SoundKnown(c: Config, s: State)
    requires Sound(c, s)
    ensures Known(c, s) && Timely(s)
  {
    hide Known, Timely;
  }

  lemma {:induction false} NothingSent(q: seq<Event>)
    requires q == []
    ensures forall t :: Tokens(q)[t] == 0
  {}

  lemma InitialCounts(c: Config, s: State, t: Token)
    requires Initial(c, s)
    ensures N(s, t) == 0 && L(s, t) == 0
  {
    NothingSent(s.queue);
    NothingSent(s.log);
    hide Tokens;
  }

  lemma InitialVM(c: Config, s: State, v: UUID)
    requires WellFormed(c) && Initial(c, s)
    ensures Lives.Conserved(c, s, v) && Lives.Located(c, s, v) && Lives.Completing(s, v)
    ensures DecidedOnce(c, s, v) && Traced(c, s, v)
  {
    hide N, L, WellFormed;
    forall t
      ensures N(s, t) == 0 && L(s, t) == 0
    {
      InitialCounts(c, s, t);
    }
  }

  lemma AliveInitially(c: Config, s: State)
    requires WellFormed(c) && Initial(c, s)
    ensures Lives.Alive(c, s) && AllTraced(c, s) && forall v :: DecidedOnce(c, s, v)
  {
    hide Lives.Conserved, Lives.Located, Lives.Completing, Traced, DecidedOnce, WellFormed, Initial;
    forall v
      ensures Lives.Conserved(c, s, v) && Lives.Located(c, s, v) && Lives.Completing(s, v)
      ensures DecidedOnce(c, s, v) && Traced(c, s, v)
    {
      InitialVM(c, s, v);
    }
  }

  lemma KnownInitially(c: Config, s: State)
    requires Initial(c, s)
    ensures Known(c, s)
  {
    hide Addressed;
  }

  lemma QueueInitially(c: Config, s: State)
    requires Initial(c, s)
    ensures Timely(s) && DecisionsLead(s.queue, Last(s)) && PowerFlow.AllPowering(s) && Rested(s)
    ensures HostedFirst.InOrder(c, s.log, s.queue, Last(s))
  {
    hide Tokens;
  }

  lemma SoundInitially(c: Config, s: State)
    requires WellFormed(c) && Initial(c, s)
    ensures Sound(c, s)
  {
    AliveInitially(c, s);
    KnownInitially(c, s);
    QueueInitially(c, s);
    hide Initial, WellFormed, Timely, Known, DecisionsLead, DecidedOnce, Lives.Alive, AllTraced, PowerFlow.AllPowering,
        HostedFirst.InOrder, Rested;
  }

  // The half of a step before any world update.
  lemma SoundDispatch(c: Config, s: State, ord: Order)
    requires WellFormed(c) && ValidOrder(ord) && Sound(c, s) && s.queue != []
    ensures var d := Dispatch(c, s, ord);
            && Timely(d) && Known(c, d) && DecisionsOrderly(c, d) && Lives.Alive(c, d) && AllTraced(c, d)
            && PowerFlow.AllPowering(d) && HostedFirst.InOrder(c, d.log, d.queue, Last(d))
            && d.now == Last(d)
  {
    hide Dispatch, Timely, Known, DecisionsOrderly, Lives.Alive, AllTraced, PowerFlow.AllPowering,
        HostedFirst.InOrder, WellFormed;
    TimelyDispatch(c, s, ord);
    KnownDispatch(c, s, ord);
    DecidingDispatch(c, s, ord);
    Lives.AliveDispatch(c, s, ord);
    TracedDispatch(c, s, ord);
    PowerFlow.AllPoweringDispatch(c, s, ord);
    HostedFirst.InOrderDispatch(c, s, ord);
  }

  lemma SoundUpdate(c: Config, d: State, ord: Order)
    requires WellFormed(c) && ValidOrder(ord) && BucketEmpty(d) && d.now == Last(d)
    requires Timely(d) && Known(c, d) && DecisionsOrderly(c, d) && Lives.Alive(c, d) && AllTraced(c, d)
    requires PowerFlow.AllPowering(d) && HostedFirst.InOrder(c, d.log, d.queue, Last(d))
    ensures Sound(c, Tick(UpdateWorld(c, d, ord)))
  {
    hide UpdateWorld, Known, DecisionsOrderly, Lives.Alive, AllTraced, PowerFlow.AllPowering, HostedFirst.InOrder,
        WellFormed, Timely,
      DecisionsLead;
    DryNow(c, d);
    TimelyUpdate(c, d, ord);
    KnownUpdate(c, d, ord);
    DecidingUpdate(c, d, ord);
    Lives.AliveUpdate(c, d, ord);
    TracedUpdate(c, d, ord);
    PowerFlow.AllPoweringUpdate(c, d, ord);
    HostedFirst.InOrderUpdate(c, d, ord);
    RestedUpdate(c, d, ord);
    assert Last(Tick(UpdateWorld(c, d, ord))) == d.now;
  }

  lemma DryNow(c: Config, d: State)
    requires Timely(d) && DecisionsOrderly(c, d) && BucketEmpty(d) && d.now == Last(d)
    ensures DecisionsLead(d.queue, d.now)
    ensures forall i :: 0 <= i < |d.queue| ==> d.now < d.queue[i].time
  {
    DryMeansLater(d);
    hide DecisionsLead, DecidedOnce;
  }

  lemma RestedUpdate(c: Config, d: State, ord: Order)
    requires ValidOrder(ord)
    requires forall i :: 0 <= i < |d.queue| ==> d.now < d.queue[i].time
    ensures Rested(Tick(UpdateWorld(c, d, ord)))
  {
    hide UpdateWorld, Placing;
    UpdateShape(c, d, ord);
    PlacingEnumerates(c, d, ord);
    var p := Placing(c, d, ord);
    if p != [] {
      assert |Decisions(c, d.now, p)| == |p|;
    } else {
      assert forall v :: v in p ==> v in [];
    }
    hide Decisions, Placements;
    var s' := Tick(UpdateWorld(c, d, ord));
    assert forall v :: Pending(s', v) == Pending(d, v);
  }

  lemma SoundStep(c: Config, s: State, ord: Order)
    requires WellFormed(c) && ValidOrder(ord) && Sound(c, s)
    ensures Sound(c, Step(c, s, ord))
  {
    if s.queue != [] {
      SoundDispatch(c, s, ord);
      var d := Dispatch(c, s, ord);
      hide Dispatch, UpdateWorld, Timely, Known, DecisionsOrderly, Lives.Alive, AllTraced, PowerFlow.AllPowering,
          HostedFirst.InOrder, WellFormed;
      if BucketEmpty(d) {
        hide Sound;
        SoundUpdate(c, d, ord);
      }
    }
  }

  // The world update leaves the storage alone.
  lemma StepStorage(c: Config, s: State, ord: Order)
    requires WellFormed(c) && ValidOrder(ord) && Sound(c, s) && s.queue != []
    ensures Step(c, s, ord).storage == Dispatch(c, s, ord).storage
  {
    hide Known, DecisionsOrderly, Lives.Alive, AllTraced, PowerFlow.AllPowering, HostedFirst.InOrder, WellFormed,
      Dispatch, UpdateWorld, Sound, Timely;
    SoundDispatch(c, s, ord);
    var d := Dispatch(c, s, ord);
    if BucketEmpty(d) {
      DryNow(c, d);
      Lives.UpdateActors(c, d, ord);
    }
  }

  lemma SoundExecute(c: Config, s: State, m: Command)
    requires WellFormed(c) && Sound(c, s) && Allowed(c, s, m)
    ensures Sound(c, Execute(c, s, m))
  {
    hide Execute, Timely, Known, DecisionsOrderly, Lives.Alive, AllTraced, PowerFlow.AllPowering, HostedFirst.InOrder,
        WellFormed, Allowed;
    TimelyExecute(c, s, m);
    KnownExecute(c, s, m);
    DecidingExecute(c, s, m);
    Lives.AliveExecute(c, s, m);
    TracedExecute(c, s, m);
    PowerFlow.AllPoweringExecute(c, s, m);
    HostedFirst.InOrderExecute(c, s, m);
    RestedExecute(c, s, m);
  }

  lemma RestedExecute(c: Config, s: State, m: Command)
    requires Rested(s)
    ensures Rested(Execute(c, s, m)) && Last(Execute(c, s, m)) == Last(s)
  {
    ExecuteShape(c, s, m);
    hide Execute;
    var s' := Execute(c, s, m);
    assert forall v :: Pending(s', v) == Pending(s, v);
  }

  lemma SoundNext(c: Config, s: State, a: Action)
    requires WellFormed(c) && Sound(c, s) && Enabled(c, s, a)
    ensures Sound(c, Next(c, s, a))
  {
    hide Sound, Execute, Step;
    match a
    case Do(m) => SoundExecute(c, s, m);
    case Sim(ord) => SoundStep(c, s, ord);
  }

  lemma EnabledPrefix(c: Config, s: State, script: seq<Action>)
    requires EnabledRun(c, s, script) && script != []
    ensures EnabledRun(c, s, script[..|script| - 1])
    ensures Enabled(c, Run(c, s, script[..|script| - 1]), script[|script| - 1])
  {
    hide Run, Enabled;
    var init := script[..|script| - 1];
    forall i | 0 <= i < |init|
      ensures Enabled(c, Run(c, s, init[..i]), init[i])
    {
      assert init[..i] == script[..i];
    }
  }

  // The invariant holds along every script of commands and steps.
  lemma {:induction false} SoundRun(c: Config, s: State, script: seq<Action>)
    requires WellFormed(c) && Sound(c, s) && EnabledRun(c, s, script)
    ensures Sound(c, Run(c, s, script))
  {
    hide Sound, Next, Enabled, EnabledRun;
    if script != [] {
      EnabledPrefix(c, s, script);
      SoundRun(c, s, script[..|script| - 1]);
      SoundNext(c, Run(c, s, script[..|script| - 1]), script[|script| - 1]);
    }
  }

  lemma {:induction false} SoundAlong(c: Config, t: seq<State>, script: seq<Action>, i: nat)
    requires WellFormed(c) && IsRun(c, t, script) && i <= |script|
    ensures Sound(c, t[i])
  {
    hide Sound, WellFormed, Next, Enabled, Initial;
    if i == 0 {
      SoundInitially(c, t[0]);
    } else {
      SoundAlong(c, t, script, i - 1);
      var a := script[i - 1];
      SoundNext(c, t[i - 1], a);
    }
  }

  lemma ReachableIsSound(c: Config, s: State)
    requires WellFormed(c) && Reachable(c, s)
    ensures Sound(c, s)
  {
    hide Sound, WellFormed, Initial, Enabled, Next;
    var t, script :| IsRun(c, t, script) && t[|script|] == s;
    SoundAlong(c, t, script, |script|);
  }

  // Where a script of enabled actions leads from an initial state is reachable.
  lemma RunIsReachable(c: Config, s: State, script: seq<Action>)
    requires Initial(c, s) && EnabledRun(c, s, script)
    ensures Reachable(c, Run(c, s, script))
  {
    hide Initial, Enabled, Next;
    var t := seq(|script| + 1, i requires 0 <= i <= |script| => Run(c, s, script[..i]));
    forall i | 0 <= i < |script|
      ensures Enabled(c, t[i], script[i]) && t[i + 1] == Next(c, t[i], script[i])
    {
      assert script[..i + 1][..i] == script[..i];
    }
    assert script[..|script|] == script;
    assert IsRun(c, t, script);
  }

  // Reachable states are closed under enabled actions.
  lemma ReachableNext(c: Config, s: State, a: Action)
    requires Reachable(c, s) && Enabled(c, s, a)
    ensures Reachable(c, Next(c, s, a))
  {
    hide Initial, Enabled, Next;
    var t, script :| IsRun(c, t, script) && t[|script|] == s;
    var t', script' := t + [Next(c, s, a)], script + [a];
    forall i | 0 <= i < |script'|
      ensures Enabled(c, t'[i], script'[i]) && t'[i + 1] == Next(c, t'[i], script'[i])
    {
      if i < |script| {
        assert script'[i] == script[i];
      }
    }
    assert IsRun(c, t', script');
  }

  lemma InitiallyReachable(c: Config, s: State)
    requires Initial(c, s)
    ensures Reachable(c, s)
  {
    hide Initial, Enabled, Next;
    assert IsRun(c, [s], []);
  }
}
