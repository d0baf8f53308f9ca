/**
 Time over whole runs: dispatched timestamps never go back, the clock is the last of them or
 one more, and no insertion is ever rejected for being in the past.
 */
module Clock {
  import opened Types
  import opened FlatQueue
  import opened Simulator
  import opened StepFacts

  // The time of the last dispatched event, or the initial clock.
  function Last(s: State): int {
    if s.log == [] then 1 else s.log[|s.log| - 1].time
  }

  ghost predicate Timely(s: State) {
    && Sorted(s.queue)
    && Sorted(s.log)
    && AllFrom(s.queue, Last(s))
    && Last(s) <= s.now <= Last(s) + 1
    && s.inserted == |s.log| + |s.queue|
  }

  lemma TimelyDispatch(c: Config, s: State, ord: Order)
    requires Timely(s) && s.queue != []
    ensures Timely(Dispatch(c, s, ord))
    ensures Dispatch(c, s, ord).now == Last(Dispatch(c, s, ord)) == s.queue[0].time
  {
    DispatchShape(c, s, ord);
    hide Dispatch, Handled, Out;
    var out := Out(c, s, ord);
    InsertAllKeeps(s.queue[1..], out, s.queue[0].time);
    hide InsertAllBack;
  }

  // Once the running instant is empty everything left is strictly later.
  lemma DryMeansLater(s: State)
    requires Sorted(s.queue) && BucketEmpty(s) && AllFrom(s.queue, s.now)
    ensures forall i :: 0 <= i < |s.queue| ==> s.now < s.queue[i].time
  {}

  lemma TimelyUpdate(c: Config, s: State, ord: Order)
    requires Timely(s) && s.now == Last(s) && BucketEmpty(s)
    ensures Timely(Tick(UpdateWorld(c, s, ord)))
    ensures UpdateWorld(c, s, ord).log == s.log
  {
    DryMeansLater(s);
    UpdateShape(c, s, ord);
    hide UpdateWorld, Placing;
  }

  lemma TimelyStep(c: Config, s: State, ord: Order)
    requires Timely(s)
    ensures Timely(Step(c, s, ord))
    ensures s.queue != [] ==> Last(Step(c, s, ord)) == s.queue[0].time
  {
    hide Dispatch, UpdateWorld;
    if s.queue != [] {
      TimelyDispatch(c, s, ord);
      if BucketEmpty(Dispatch(c, s, ord)) {
        TimelyUpdate(c, Dispatch(c, s, ord), ord);
      }
    }
  }

  lemma TimelyExecute(c: Config, s: State, m: Command)
    requires Timely(s)
    ensures Timely(Execute(c, s, m))
  {
    ExecuteShape(c, s, m);
    hide Execute;
    var es := CommandEvents(c, s, m);
    if es != [] {
      InsertBackKeeps(s.queue, es[0], Last(s));
      InsertFrontKeeps(s.queue, es[0], Last(s));
    }
    hide InsertBack, InsertFront;
  }

  // Every reachable state keeps time, whatever commands and steps led to it.
  lemma {:induction false} TimelyRun(c: Config, s: State, script: seq<Action>)
    requires Initial(c, s)
    ensures Timely(Run(c, s, script))
  {
    if script != [] {
      var a := script[|script| - 1];
      TimelyRun(c, s, script[..|script| - 1]);
      match a
      case Do(m) => TimelyExecute(c, Run(c, s, script[..|script| - 1]), m);
      case Sim(ord) => TimelyStep(c, Run(c, s, script[..|script| - 1]), ord);
    }
  }
}
