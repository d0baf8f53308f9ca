/**
 A script after which draining never ends: one VM is created, then two provision requests are
 made together, for the VM and for a data center. The storage learns first that the VM is
 pending and then fails for good, so the VM stays pending and is placed again and again.
 */
module Witness {
  import opened Types
  import opened FlatQueue
  import opened Handlers
  import opened Simulator
  import opened StepFacts
  import opened Soundness
  import opened Draining
  import Lives
  import Tree

  // The cloud 1 with its storage 2, the data center 3 and its one server 4.
  const SMALL := Config(2, 1, 4, {4}, map[1 := {3}, 3 := {4}, 4 := {}], map[3 := 1, 4 := 3],
                        map[1 := 0, 3 := 1, 4 := 2], 2, map[], map[], map[])

  function SmallStart(): State {
    State(1, [], map[], Storage(true, map[]), map[1 := Off, 3 := Off, 4 := Off], map[4 := {}], 5, false, [], 0, [])
  }

  function Script(ord: Order): seq<Action> {
    [Do(CreateVM(true)), Sim(ord), Do(ProvisionRequest(3)), Do(ProvisionRequest(5)), Sim(ord), Sim(ord)]
  }

  lemma SmallIsWellFormed()
    ensures WellFormed(SMALL) && Initial(SMALL, SmallStart())
  {
    hide Initial, WellFormed, Tree.Below, Tree.WithServer, Tree.IsTree;
    SmallIsBuilt();
    var cloud, branch := Tree.Bare(1, 2), Tree.Below(Tree.Bare(1, 2), 1, 3);
    Tree.BareIsTree(1, 2);
    Tree.BelowKeepsTree(cloud, 1, 3);
    Tree.ServerKeepsTree(branch, 3, 4, true);
    Tree.TreeIsWellFormed(SMALL);
    StartIsInitial();
  }

  lemma SmallIsBuilt()
    ensures var branch := Tree.Below(Tree.Bare(1, 2), 1, 3);
            3 in branch.components && branch.components.Keys == {1, 3} && branch.depth == map[1 := 0, 3 := 1] &&
                branch.height == 2 &&
            branch.storage == 2 && SMALL == Tree.WithServer(branch, 3, 4, true)
  {
    var branch := Tree.Below(Tree.Bare(1, 2), 1, 3);
    assert {} + {3} == {3} && {} + {4} == {4};
    assert branch.components == map[1 := {3}, 3 := {}];
    assert Tree.WithServer(branch, 3, 4, true).components == SMALL.components;
    assert Tree.WithServer(branch, 3, 4, true).parent == SMALL.parent;
    assert Tree.WithServer(branch, 3, 4, true).depth == SMALL.depth;
    assert Tree.WithServer(branch, 3, 4, true).servers == SMALL.servers;
  }

  lemma StartIsInitial()
    ensures Initial(SMALL, SmallStart())
  {}

  lemma Created(c: Config, s: State)
    requires c.storage == 2 && s == Execute(c, SmallStart(), CreateVM(true))
    ensures s.queue == [Event(1, 2, StorageEvent(VMCreated, 5))] && s.now == 1 && s.next == 6
    ensures s.storage == Storage(true, map[]) && 5 in s.vms && s.vms.Keys == {5}
  {}

  // A step whose event is for the storage and schedules nothing.
  lemma StorageStep(c: Config, s: State, ord: Order)
    requires s.queue != [] && s.queue[0].to == c.storage && ValidOrder(ord)
    ensures var d := Dispatch(c, s, ord);
            d.queue == s.queue[1..] && d.now == s.queue[0].time && d.vms == s.vms && d.next == s.next &&
                d.storage == StorageReact(s.storage, s.queue[0])
  {
    hide StorageReact;
  }

  lemma AfterCreation(c: Config, s: State, ord: Order)
    requires c.storage == 2 && s.queue == [Event(1, 2, StorageEvent(VMCreated, 5))] && s.storage == Storage(true, map[]) &&
             ValidOrder(ord)
    ensures var s' := Step(c, s, ord);
            s'.queue == [] && s'.now == 2 && s'.storage == Storage(true, map[5 := CreatedVM]) && s'.vms == s.vms && s'.next == s.next
  {
    StorageStep(c, s, ord);
    var d := Dispatch(c, s, ord);
    hide Dispatch, UpdateWorld;
    assert d.storage.vms == map[5 := CreatedVM];
    NoPendingNoUpdate(c, d, ord);
    Lives.UpdateActors(c, d, ord);
    UpdateShape(c, d, ord);
  }

  lemma AfterRequests(s: State)
    requires s.queue == [] && s.now == 2
    ensures var s' := Execute(SMALL, Execute(SMALL, s, ProvisionRequest(3)), ProvisionRequest(5));
            && s'.queue == [Event(2, 2, StorageEvent(VMProvisionRequested, 5)), Event(2, 2, StorageEvent(VMProvisionRequested, 3))]
            && s'.storage == s.storage && s'.vms == s.vms
  {
    var e := Event(2, 2, StorageEvent(VMProvisionRequested, 3));
    assert Execute(SMALL, s, ProvisionRequest(3)).queue == [e];
    assert Below([e], 2) == 0;
  }

  lemma AfterBoth(s: State, ord: Order)
    requires s.queue == [Event(2, 2, StorageEvent(VMProvisionRequested, 5)), Event(2, 2, StorageEvent(VMProvisionRequested, 3))]
    requires s.storage == Storage(true, map[5 := CreatedVM]) && ValidOrder(ord)
    ensures Stuck(Step(SMALL, Step(SMALL, s, ord), ord))
  {
    StorageStep(SMALL, s, ord);
    var d := Dispatch(SMALL, s, ord);
    hide Dispatch, UpdateWorld;
    assert Step(SMALL, s, ord) == d && d.queue == [s.queue[1]];
    assert d.storage == Storage(true, map[5 := PendingVM]);
    StorageStep(SMALL, d, ord);
    var f := Dispatch(SMALL, d, ord);
    assert f.storage == Storage(false, map[5 := PendingVM]) && f.queue == [];
    Lives.UpdateActors(SMALL, f, ord);
    assert Pending(Step(SMALL, d, ord), 5);
  }

  // Following the script, whatever the iteration order, leaves the storage failed with a VM
  // pending, and no drain from there ever ends.
  lemma DrainingCanGoOnForever(ord: Order, ords: nat -> Order)
    requires ValidOrder(ord) && ValidOrders(ords)
    ensures WellFormed(SMALL) && Initial(SMALL, SmallStart()) && EnabledRun(SMALL, SmallStart(), Script(ord))
    ensures var s := Run(SMALL, SmallStart(), Script(ord)); Stuck(s) && !Ends(SMALL, s, ords)
  {
    hide WellFormed, Initial, Stuck, Execute, Step, Drain, ValidOrder, ValidOrders, Ends, Sound;
    SmallIsWellFormed();
    Follows(ord);
    var s := Run(SMALL, SmallStart(), Script(ord));
    SoundInitially(SMALL, SmallStart());
    SoundRun(SMALL, SmallStart(), Script(ord));
    StuckAtOnce(s, ords);
    NeverEndsOnceStuck(SMALL, s, ords);
  }

  lemma StuckAtOnce(s: State, ords: nat -> Order)
    requires Stuck(s)
    ensures GetsStuck(SMALL, s, ords)
  {
    hide Stuck, Step;
    assert Drain(SMALL, s, ords, 0) == s;
  }

  lemma RunLast(s: State, script: seq<Action>, a: Action)
    ensures Run(SMALL, s, script + [a]) == Next(SMALL, Run(SMALL, s, script), a)
    ensures EnabledRun(SMALL, s, script) && Enabled(SMALL, Run(SMALL, s, script), a) ==> EnabledRun(SMALL, s, script + [a])
  {
    var q := script + [a];
    assert q[..|q| - 1] == script;
    hide Next, Enabled;
    if EnabledRun(SMALL, s, script) && Enabled(SMALL, Run(SMALL, s, script), a) {
      forall i | 0 <= i < |q|
        ensures Enabled(SMALL, Run(SMALL, s, q[..i]), q[i])
      {
        if i < |script| {
          assert q[..i] == script[..i];
        }
      }
    }
  }

  lemma Follows(ord: Order)
    requires ValidOrder(ord)
    ensures EnabledRun(SMALL, SmallStart(), Script(ord)) && Stuck(Run(SMALL, SmallStart(), Script(ord)))
  {
    hide Execute, Step, Stuck, ValidOrder, Run, EnabledRun;
    var s0 := SmallStart();
    var p := Script(ord);
    var p1, p2, p3, p4, p5 := p[..1], p[..2], p[..3], p[..4], p[..5];
    NoScript(s0);
    RunLast(s0, [], p[0]);
    RunLast(s0, p1, p[1]);
    RunLast(s0, p2, p[2]);
    RunLast(s0, p3, p[3]);
    RunLast(s0, p4, p[4]);
    RunLast(s0, p5, p[5]);
    assert [] + [p[0]] == p1 && p1 + [p[1]] == p2 && p2 + [p[2]] == p3 && p3 + [p[3]] == p4 && p4 + [p[4]] == p5 &&
        p5 + [p[5]] == p;
    var s1 := Execute(SMALL, s0, CreateVM(true));
    Created(SMALL, s1);
    AfterCreation(SMALL, s1, ord);
    var s2 := Step(SMALL, s1, ord);
    AfterRequests(s2);
    var s4 := Execute(SMALL, Execute(SMALL, s2, ProvisionRequest(3)), ProvisionRequest(5));
    AfterBoth(s4, ord);
    KeepsVMs(s2);
  }

  lemma NoScript(s: State)
    ensures Run(SMALL, s, []) == s && EnabledRun(SMALL, s, [])
  {}

  lemma KeepsVMs(s: State)
    ensures Execute(SMALL, s, ProvisionRequest(3)).vms == s.vms
  {}
}
