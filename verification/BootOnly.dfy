/**
 Runs in which resources are only ever booted, in any number, at any targets and at any times,
 and no VM is provisioned: no resource fails, a resource is turning on exactly while its
 completion is queued, and at rest the resources that run are exactly the commanded ones and
 everything below them.
 */
module BootOnly {
  import opened Types
  import opened FlatQueue
  import opened Handlers
  import opened Simulator
  import opened StepFacts
  import opened Clock
  import opened Registry
  import opened Effects
  import opened Deciding
  import opened PowerFlow
  import opened Soundness
  import Lives
  import Placement
  import HostedFirst

  // A command that provisions nothing and powers nothing down.
  ghost predicate Gentle(m: Command) {
    !m.ProvisionRequest? && (m.Power? ==> m.action == Boot)
  }

  ghost predicate BootsOnly(script: seq<Action>) {
    forall a :: a in script && a.Do? ==> Gentle(a.command)
  }

  ghost function Commanded(script: seq<Action>): set<UUID> {
    set a | a in script && a.Do? && a.command.Power? :: a.command.resource
  }

  // The resource or one of those above it is in `roots`.
  ghost predicate Covered(c: Config, r: UUID, roots: set<UUID>)
    requires WellFormed(c) && r in c.components
    decreases c.depth[r]
  {
    r in roots ||
    (r in c.parent &&
     assert r in c.components[c.parent[r]];
     Covered(c, c.parent[r], roots))
  }

  // The resource has been booted or is about to be.
  predicate Summoned(s: State, r: UUID) {
    (r in s.power && s.power[r] != Off) || N(s, ToResource(r, Boot)) >= 1
  }

  ghost predicate OneBoot(c: Config, s: State, roots: set<UUID>, r: UUID) {
    WellFormed(c) && r in c.components ==>
      && r in s.power && s.power[r] in {Off, TurningOn, On}
      && N(s, ToResource(r, BootFinished)) == (if s.power[r] == TurningOn then 1 else 0)
      && (Summoned(s, r) ==> Covered(c, r, roots))
      && (r in roots ==> Summoned(s, r))
      && (r in c.parent && c.parent[r] in s.power && s.power[c.parent[r]] != Off ==> Summoned(s, r))
  }

  // The events such a run may have in flight.
  predicate BootKind(e: Event) {
    match e.body
    case ResourceEvent(ty) => ty in {Boot, BootFinished}
    case ServerEvent(_, _) => e.to == NIL
    case StorageEvent(ty, _) => ty != VMProvisionRequested
    case VMEvent(_) => true
  }

  ghost predicate Booting(c: Config, s: State, roots: set<UUID>) {
    && (forall v :: !Pending(s, v))
    && (forall e :: e in s.queue ==> BootKind(e))
    && (forall r :: OneBoot(c, s, roots, r))
  }

  // ----- one dispatch -----

  lemma NoneRequested(s: Storage, e: Event, v: UUID)
    requires BootKind(e) && !(v in s.vms && s.vms[v] == PendingVM)
    ensures var d := StorageReact(s, e); !(v in d.vms && d.vms[v] == PendingVM)
  {}

  lemma SpawnKind(c: Config, s: State, t: Token)
    requires WellFormed(c) && Known(c, s) && s.queue != [] && Spawn(c, s) == [t] && BootKind(s.queue[0])
    ensures forall e :: Tok(e) == t ==> BootKind(e)
  {
    assert c.first != NIL;
    hide Known;
  }

  lemma OutKind(c: Config, s: State, ord: Order)
    requires WellFormed(c) && Known(c, s) && s.queue != [] && BootKind(s.queue[0])
    ensures forall e :: e in Out(c, s, ord) ==> BootKind(e)
  {
    OutShape(c, s, ord);
    hide Out, Known, WellFormed, Spawn, PowerDelay;
    if s.queue[0].body.ResourceEvent? {
      OutPower(c, s, ord);
    } else if Out(c, s, ord) != [] {
      EmitsSpawn(c, s, ord, Tok(Out(c, s, ord)[0]));
      SpawnKind(c, s, Tok(Out(c, s, ord)[0]));
    }
  }

  lemma RestDispatch(c: Config, s: State, ord: Order, roots: set<UUID>)
    requires WellFormed(c) && Known(c, s) && s.queue != [] && Booting(c, s, roots)
    ensures var d := Dispatch(c, s, ord);
            (forall v :: !Pending(d, v)) && (forall e :: e in d.queue ==> BootKind(e))
  {
    hide Dispatch, Known, WellFormed, Out, InsertAllBack, Handled, OneBoot, BootKind;
    var d := Dispatch(c, s, ord);
    assert s.queue[0] in s.queue;
    StorageAfter(c, s, ord);
    DispatchShape(c, s, ord);
    OutKind(c, s, ord);
    InsertAllMembers(s.queue[1..], Out(c, s, ord));
    forall v
      ensures !Pending(d, v)
    {
      assert !Pending(s, v);
      NoneRequested(s.storage, s.queue[0], v);
    }
  }

  // What the head does to one resource in such a run.
  lemma PowerBoot(c: Config, s: State, ord: Order, r: UUID)
    requires WellFormed(c) && Known(c, s) && s.queue != [] && BootKind(s.queue[0]) && r in c.components
    ensures var t, d := Tok(s.queue[0]), Dispatch(c, s, ord);
            && r in s.power && r in d.power
            && d.power[r] == if t == ToResource(r, Boot) && s.power[r] == Off then TurningOn
                             else if t == ToResource(r, BootFinished) then (if s.power[r] == TurningOn then On else Failed)
                             else s.power[r]
  {
    PowerDomain(c, s);
    assert r != NIL;
    hide Dispatch, Known, WellFormed;
    PowerStateAfter(c, s, ord, r);
  }

  lemma BootAfter(c: Config, s: State, ord: Order, r: UUID)
    requires WellFormed(c) && Known(c, s) && ValidOrder(ord) && s.queue != [] && BootKind(s.queue[0]) &&
             r in c.components
    ensures var t, d := Tok(s.queue[0]), Dispatch(c, s, ord);
            && r in s.power && r in d.power
            && d.power[r] == (if t == ToResource(r, Boot) && s.power[r] == Off then TurningOn
                              else if t == ToResource(r, BootFinished) then (if s.power[r] == TurningOn then On else Failed)
                              else s.power[r])
            && N(s, t) >= 1
            && N(d, ToResource(r, BootFinished)) ==
               N(s, ToResource(r, BootFinished)) - (if t == ToResource(r, BootFinished) then 1 else 0) + Sent(c, s, r, BootFinished)
            && N(d, ToResource(r, Boot)) ==
               N(s, ToResource(r, Boot)) - (if t == ToResource(r, Boot) then 1 else 0) + Sent(c, s, r, Boot)
  {
    hide Dispatch, Known, WellFormed, Sent, N, BootKind;
    HeadQueued(s);
    PowerBoot(c, s, ord, r);
    PowerTokenAfter(c, s, ord, r, Boot);
    PowerTokenAfter(c, s, ord, r, BootFinished);
  }

  lemma SentBoots(c: Config, s: State, r: UUID)
    requires WellFormed(c) && s.queue != [] && BootKind(s.queue[0]) && r in c.components &&
             c.components.Keys == s.power.Keys
    ensures Sent(c, s, r, BootFinished) == if Tok(s.queue[0]) == ToResource(r, Boot) && s.power[r] == Off then 1 else 0
    ensures Sent(c, s, r, Boot) ==
            if r in c.parent && Tok(s.queue[0]) == ToResource(c.parent[r], Boot) && s.power[c.parent[r]] == Off then 1 else 0
  {
    if r in c.parent {
      assert r in c.components[c.parent[r]];
    }
  }

  lemma OneBootFacts(c: Config, s: State, roots: set<UUID>, r: UUID)
    requires Booting(c, s, roots)
    ensures OneBoot(c, s, roots, r)
  {
    hide OneBoot, BootKind;
  }

  lemma CoveredBelow(c: Config, r: UUID, roots: set<UUID>)
    requires WellFormed(c) && r in c.parent
    ensures r in c.components && c.parent[r] in c.components
    ensures Covered(c, c.parent[r], roots) ==> Covered(c, r, roots)
  {}

  lemma BootDispatch(c: Config, s: State, ord: Order, roots: set<UUID>, r: UUID)
    requires WellFormed(c) && Known(c, s) && ValidOrder(ord) && s.queue != [] && Booting(c, s, roots) &&
             r in c.components
    ensures OneBoot(c, Dispatch(c, s, ord), roots, r)
  {
    hide Dispatch, Known, WellFormed, Booting, BootKind, Covered, N, Sent;
    BootHead(c, s, roots);
    PowerDomain(c, s);
    OneBootFacts(c, s, roots, r);
    BootAfter(c, s, ord, r);
    SentBoots(c, s, r);
    if r in c.parent {
      CoveredBelow(c, r, roots);
      OneBootFacts(c, s, roots, c.parent[r]);
      BootAfter(c, s, ord, c.parent[r]);
    }
  }

  lemma BootHead(c: Config, s: State, roots: set<UUID>)
    requires Booting(c, s, roots) && s.queue != []
    ensures BootKind(s.queue[0])
  {
    hide BootKind, OneBoot;
    assert s.queue[0] in s.queue;
  }

  lemma BootingDispatch(c: Config, s: State, ord: Order, roots: set<UUID>)
    requires WellFormed(c) && Known(c, s) && ValidOrder(ord) && s.queue != [] && Booting(c, s, roots)
    ensures Booting(c, Dispatch(c, s, ord), roots)
  {
    RestDispatch(c, s, ord, roots);
    hide Dispatch, Known, OneBoot, BootKind;
    forall r | r in c.components
      ensures OneBoot(c, Dispatch(c, s, ord), roots, r)
    {
      BootDispatch(c, s, ord, roots, r);
    }
    NoResources(c, Dispatch(c, s, ord), roots);
  }

  lemma NoResources(c: Config, s: State, roots: set<UUID>)
    ensures forall r :: r !in c.components ==> OneBoot(c, s, roots, r)
  {}

  // ----- steps and commands -----

  lemma BootingStep(c: Config, s: State, ord: Order, roots: set<UUID>)
    requires WellFormed(c) && Sound(c, s) && ValidOrder(ord) && Booting(c, s, roots)
    ensures Booting(c, Step(c, s, ord), roots)
  {
    if s.queue != [] {
      SoundDispatch(c, s, ord);
      SoundKnown(c, s);
      BootingDispatch(c, s, ord, roots);
      var d := Dispatch(c, s, ord);
      hide Dispatch, UpdateWorld, Sound, Known, WellFormed, Lives.Alive, DecisionsOrderly, AllPowering,
          HostedFirst.InOrder, Placement.AllTraced, OneBoot, BootKind;
      if BucketEmpty(d) {
        DryMeansLater(d);
        NoPendingNoUpdate(c, d, ord);
        BootingSame(c, d, Tick(UpdateWorld(c, d, ord)), roots);
      }
    }
  }

  lemma BootingSame(c: Config, d: State, s': State, roots: set<UUID>)
    requires Booting(c, d, roots) && s'.queue == d.queue && s'.storage == d.storage && s'.power == d.power
    ensures Booting(c, s', roots)
  {
    assert forall v :: Pending(s', v) == Pending(d, v);
    forall r
      ensures OneBoot(c, s', roots, r)
    {
      assert OneBoot(c, d, roots, r);
      SameBoot(c, d, s', roots, r);
    }
    hide OneBoot, BootKind;
  }

  lemma SameBoot(c: Config, d: State, s': State, roots: set<UUID>, r: UUID)
    requires OneBoot(c, d, roots, r) && s'.queue == d.queue && s'.power == d.power
    ensures OneBoot(c, s', roots, r)
  {
    assert forall x, ty :: N(s', ToResource(x, ty)) == N(d, ToResource(x, ty));
    assert forall x :: Summoned(s', x) == Summoned(d, x);
    hide N, Summoned, Covered, WellFormed;
  }

  // The resources a command boots.
  ghost function Target(m: Command): set<UUID> {
    if m.Power? then {m.resource} else {}
  }

  lemma {:induction false} CoveredMore(c: Config, r: UUID, roots: set<UUID>, more: set<UUID>)
    requires WellFormed(c) && r in c.components && Covered(c, r, roots) && roots <= more
    ensures Covered(c, r, more)
    decreases c.depth[r]
  {
    if r !in roots {
      assert r in c.components[c.parent[r]];
      CoveredMore(c, c.parent[r], roots, more);
    }
  }

  lemma CoveredRoot(c: Config, r: UUID, roots: set<UUID>)
    requires WellFormed(c) && r in c.components && r in roots
    ensures Covered(c, r, roots)
  {}

  lemma BootExecute(c: Config, s: State, m: Command, roots: set<UUID>, r: UUID)
    requires WellFormed(c) && Known(c, s) && Gentle(m) && OneBoot(c, s, roots, r) && r in c.components
    ensures OneBoot(c, Execute(c, s, m), roots + Target(m), r)
  {
    hide Execute, N, WellFormed, Known, Covered, Target;
    PowerSends(c, s, m, r);
    if Covered(c, r, roots) {
      CoveredMore(c, r, roots, roots + Target(m));
    }
    if r in Target(m) {
      CoveredRoot(c, r, roots + Target(m));
    }
    Lives.ExecuteVMs(c, s, m, 0);
  }

  lemma PowerSends(c: Config, s: State, m: Command, r: UUID)
    requires Gentle(m)
    ensures N(Execute(c, s, m), ToResource(r, Boot)) == N(s, ToResource(r, Boot)) + if r in Target(m) then 1 else 0
    ensures N(Execute(c, s, m), ToResource(r, BootFinished)) == N(s, ToResource(r, BootFinished))
  {
    ExecuteTokens(c, s, m, ToResource(r, Boot));
    ExecuteTokens(c, s, m, ToResource(r, BootFinished));
    hide Execute, N;
  }

  lemma BootingExecute(c: Config, s: State, m: Command, roots: set<UUID>)
    requires WellFormed(c) && Known(c, s) && Gentle(m) && Booting(c, s, roots)
    ensures Booting(c, Execute(c, s, m), roots + Target(m))
  {
    hide Known, WellFormed, OneBoot;
    var s' := Execute(c, s, m);
    CommandKind(c, s, m);
    Lives.ExecuteVMs(c, s, m, 0);
    assert forall v :: Pending(s', v) == Pending(s, v);
    forall r | r in c.components
      ensures OneBoot(c, s', roots + Target(m), r)
    {
      OneBootFacts(c, s, roots, r);
      BootExecute(c, s, m, roots, r);
    }
    NoResources(c, s', roots + Target(m));
    hide Execute, BootKind;
  }

  lemma CommandKind(c: Config, s: State, m: Command)
    requires Gentle(m) && forall e :: e in s.queue ==> BootKind(e)
    ensures forall e :: e in Execute(c, s, m).queue ==> BootKind(e)
  {
    ExecuteShape(c, s, m);
    var es := CommandEvents(c, s, m);
    if es != [] {
      InsertMembers(s.queue, es[0]);
    }
    hide Execute, InsertBack, InsertFront;
  }

  // ----- whole runs -----

  lemma BootingInitially(c: Config, s: State)
    requires WellFormed(c) && Initial(c, s)
    ensures Booting(c, s, {})
  {
    forall r
      ensures OneBoot(c, s, {}, r)
    {
      InitialCounts(c, s, ToResource(r, Boot));
      InitialCounts(c, s, ToResource(r, BootFinished));
      hide N, Covered;
    }
    hide OneBoot, WellFormed;
  }

  lemma CommandedLast(script: seq<Action>)
    requires script != [] && BootsOnly(script)
    ensures var init, a := script[..|script| - 1], script[|script| - 1];
            && BootsOnly(init) && (a.Do? ==> Gentle(a.command))
            && Commanded(script) == Commanded(init) + if a.Do? then Target(a.command) else {}
  {
    var init, a := script[..|script| - 1], script[|script| - 1];
    assert script == init + [a];
    assert a in script && forall x :: x in init ==> x in script;
  }

  lemma {:induction false} BootingRun(c: Config, s: State, script: seq<Action>)
    requires WellFormed(c) && Initial(c, s) && EnabledRun(c, s, script) && BootsOnly(script)
    ensures Sound(c, Run(c, s, script)) && Booting(c, Run(c, s, script), Commanded(script))
  {
    hide Sound, WellFormed, Initial, EnabledRun, Booting, BootsOnly, Commanded, Execute, Step, Allowed;
    SoundInitially(c, s);
    SoundRun(c, s, script);
    if script == [] {
      BootingInitially(c, s);
      assert Commanded(script) == {} by { NothingCommanded(); }
    } else {
      var init, a := script[..|script| - 1], script[|script| - 1];
      EnabledPrefix(c, s, script);
      CommandedLast(script);
      BootingRun(c, s, init);
      var s' := Run(c, s, init);
      match a
      case Do(m) =>
        SoundKnown(c, s');
        BootingExecute(c, s', m, Commanded(init));
      case Sim(ord) =>
        BootingStep(c, s', ord, Commanded(init));
        assert Commanded(init) + {} == Commanded(init);
    }
  }

  lemma NothingCommanded()
    ensures Commanded([]) == {}
  {}

  // In such a run no resource fails, and each is turning on exactly while one completion of its
  // boot is queued.
  lemma BootsNeverFail(c: Config, s0: State, script: seq<Action>, r: UUID)
    requires WellFormed(c) && Initial(c, s0) && EnabledRun(c, s0, script) && BootsOnly(script) && r in c.components
    ensures var s := Run(c, s0, script);
            && r in s.power && s.power[r] in {Off, TurningOn, On}
            && (s.power[r] == TurningOn <==> N(s, ToResource(r, BootFinished)) == 1)
            && N(s, ToResource(r, BootFinished)) <= 1
  {
    BootingRun(c, s0, script);
    OneBootFacts(c, Run(c, s0, script), Commanded(script), r);
    hide Sound, Initial, EnabledRun, BootsOnly, Commanded, Run, Booting, N, Covered, Summoned;
  }

  // At rest what runs is exactly what was commanded and everything below it.
  lemma RunsExactlyTheCommanded(c: Config, s0: State, script: seq<Action>, r: UUID)
    requires WellFormed(c) && Initial(c, s0) && EnabledRun(c, s0, script) && BootsOnly(script) && r in c.components
    requires Run(c, s0, script).queue == []
    ensures var s := Run(c, s0, script);
            r in s.power && s.power[r] == if Covered(c, r, Commanded(script)) then On else Off
  {
    BootingRun(c, s0, script);
    hide Sound, Initial, EnabledRun, BootsOnly, Commanded, Run, Booting, Covered, WellFormed;
    RestingBoot(c, Run(c, s0, script), Commanded(script), r);
  }

  lemma {:induction false} RestingBoot(c: Config, s: State, roots: set<UUID>, r: UUID)
    requires WellFormed(c) && Booting(c, s, roots) && s.queue == [] && r in c.components
    ensures r in s.power && s.power[r] == if Covered(c, r, roots) then On else Off
    decreases c.depth[r]
  {
    NothingSent(s.queue);
    OneBootFacts(c, s, roots, r);
    if r in c.parent {
      assert r in c.components[c.parent[r]];
      RestingBoot(c, s, roots, c.parent[r]);
    }
    hide Booting, Tokens;
  }
}
