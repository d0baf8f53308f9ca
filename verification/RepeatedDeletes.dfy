/**
 One batch, two fates. With a created VM at rest, another is created and told to delete itself
 four times, and the first one is requested. Without a delay the new VM reports its deletion
 twice while the first is pending, and no drain ever ends; with a delay every drain ends.
 */
module RepeatedDeletes {
  import opened Types
  import opened FlatQueue
  import opened Simulator
  import opened Soundness
  import opened Draining
  import opened Placement
  import opened FaultyBatches
  import opened FaultlessBatches
  import opened Witness

  // The small configuration, where the second VM takes time to delete itself.
  const SLOW := SMALL.(vmDelays := map[6 := VMDelays(0, 0, 0, 1)])

  const AGAIN := [CreateVM(true), ProvisionRequest(5), DeleteRequest(6), DeleteRequest(6), DeleteRequest(6), DeleteRequest(6)]

  lemma SlowIsWellFormed()
    ensures WellFormed(SLOW) && Initial(SLOW, SmallStart())
  {
    hide WellFormed, Initial;
    SmallIsWellFormed();
    SlowStarts(SMALL, SLOW, SmallStart());
    SlowTree(SMALL, SLOW);
  }

  lemma SlowStarts(c: Config, d: Config, s: State)
    requires Initial(c, s) && d == c.(vmDelays := d.vmDelays)
    ensures Initial(d, s)
  {}

  // The delays of VMs have no part in the tree.
  lemma SlowTree(c: Config, d: Config)
    requires WellFormed(c) && d == c.(vmDelays := d.vmDelays)
    ensures WellFormed(d)
  {}

  // The first VM has been created, and everything is at rest.
  function AfterFirst(c: Config, ord: Order): State {
    Step(c, Execute(c, SmallStart(), CreateVM(true)), ord)
  }

  // What matters of that state.
  ghost predicate Resting(s: State) {
    && s.queue == [] && s.now == 2 && s.storage == Storage(true, map[5 := CreatedVM])
    && s.vms.Keys == {5} && s.next == 6
  }

  lemma FirstRests(c: Config, ord: Order)
    requires WellFormed(c) && c.storage == 2 && Initial(c, SmallStart()) && ValidOrder(ord)
    ensures Reachable(c, AfterFirst(c, ord)) && Resting(AfterFirst(c, ord))
  {
    hide WellFormed, Initial, ValidOrder, Reachable, Execute, Step;
    var s := Execute(c, SmallStart(), CreateVM(true));
    Created(c, s);
    AfterCreation(c, s, ord);
    InitiallyReachable(c, SmallStart());
    ReachableNext(c, SmallStart(), Do(CreateVM(true)));
    ReachableNext(c, s, Sim(ord));
  }

  // From the first command on the second VM exists, made in full and as yet undisturbed.
  lemma {:induction false} SecondMade(c: Config, s: State, k: nat)
    requires Resting(s) && 1 <= k <= |AGAIN|
    ensures Ready(c, ExecuteAll(c, s, AGAIN[..k]), 6) && 5 in ExecuteAll(c, s, AGAIN[..k]).vms
  {
    hide InsertBack, InsertFront;
    var cmds := AGAIN[..k];
    assert cmds[..k - 1] == AGAIN[..k - 1];
    if k == 1 {
      assert ExecuteAll(c, s, AGAIN[..0]) == s;
      assert cmds[0] == CreateVM(true);
    } else {
      SecondMade(c, s, k - 1);
      hide ExecuteAll;
      ExecutedLast(c, s, k);
    }
  }

  lemma ExecutedLast(c: Config, s: State, k: nat)
    requires 1 <= k <= |AGAIN|
    ensures ExecuteAll(c, s, AGAIN[..k]) == Execute(c, ExecuteAll(c, s, AGAIN[..k - 1]), AGAIN[k - 1])
  {
    assert AGAIN[..k][..k - 1] == AGAIN[..k - 1];
    hide Execute;
  }

  lemma AgainIsAllowed(c: Config, s: State)
    requires Resting(s)
    ensures AllowedBatch(c, s, AGAIN)
  {
    hide ExecuteAll;
    forall i | 0 <= i < |AGAIN|
      ensures Allowed(c, ExecuteAll(c, s, AGAIN[..i]), AGAIN[i])
    {
      if i > 0 {
        SecondMade(c, s, i);
      }
    }
  }

  lemma AgainIsFaultless(c: Config, s: State)
    requires Resting(s) && c.storage == 2
    ensures !Faulty(c, s, AGAIN)
  {}

  lemma DoomedIsFaulty(c: Config, s: State)
    ensures Doomed(c, s, AGAIN) ==> Faulty(c, s, AGAIN)
  {
    hide Faulty, LeavesPending;
  }

  // Failed, deleting, failed again, deleting again.
  lemma SecondStates(s: State)
    requires Resting(s)
    ensures StateUnder(s, AGAIN[..3], 6) == Failure && StateUnder(s, AGAIN[..4], 6) == Deleting
    ensures StateUnder(s, AGAIN[..5], 6) == Failure && StateUnder(s, AGAIN[..6], 6) == Deleting
  {
    assert AGAIN[..0] == [] && AGAIN[..1][..0] == AGAIN[..0] && AGAIN[..2][..1] == AGAIN[..1];
    assert AGAIN[..3][..2] == AGAIN[..2] && AGAIN[..4][..3] == AGAIN[..3];
    assert AGAIN[..5][..4] == AGAIN[..4] && AGAIN[..6][..5] == AGAIN[..5];
    assert StateUnder(s, AGAIN[..1], 6) == Provisioning;
    assert StateUnder(s, AGAIN[..2], 6) == Provisioning;
    assert StateUnder(s, AGAIN[..3], 6) == Failure;
    assert StateUnder(s, AGAIN[..4], 6) == Deleting;
    assert StateUnder(s, AGAIN[..5], 6) == Failure;
  }

  lemma ReportedTwice(s: State)
    requires Resting(s)
    ensures Reported(SMALL, s, AGAIN, 3) && Reported(SMALL, s, AGAIN, 5)
  {
    hide ExecuteAll, StateUnder, Ready;
    SecondStates(s);
    SecondMade(SMALL, s, 6);
    assert AGAIN[..6] == AGAIN;
  }

  lemma AgainIsMisreported(s: State)
    requires Resting(s)
    ensures Misreported(SMALL, s, AGAIN)
  {
    hide Reported;
    ReportedTwice(s);
    assert 6 in Dropped(SMALL, s, AGAIN, 4);
    assert 6 in Dropped(SMALL, s, AGAIN, 5) && Unexpected(SMALL, s, AGAIN, 5);
    forall k | 0 <= k <= 5
      ensures 5 !in Dropped(SMALL, s, AGAIN, k)
    {
      NeverDropped(s, k);
    }
    assert AsksCreated(s, AGAIN[1]);
    assert StillAsked(s, AGAIN, Dropped(SMALL, s, AGAIN, 5));
  }

  lemma {:induction false} NeverDropped(s: State, k: nat)
    requires k <= |AGAIN|
    ensures 5 !in Dropped(SMALL, s, AGAIN, k)
  {
    hide StateUnder, ExecuteAll, Ready, StoppedNow;
    if k != 0 {
      NeverDropped(s, k - 1);
    }
  }

  // Without a delay the batch is fatal.
  lemma DeletedAgainAndAgain(ord: Order, ords: nat -> Order)
    requires ValidOrder(ord) && ValidOrders(ords)
    ensures var s := AfterFirst(SMALL, ord);
            && Reachable(SMALL, s) && s.queue == [] && s.storage.ok && AllowedBatch(SMALL, s, AGAIN)
            && !Faulty(SMALL, s, AGAIN) && !Ends(SMALL, ExecuteAll(SMALL, s, AGAIN), ords)
  {
    hide WellFormed, Initial, AfterFirst, ValidOrder, ValidOrders, Ends, ExecuteAll, Misreported, Faulty, Sound, Reachable,
        AllowedBatch;
    var s := AfterFirst(SMALL, ord);
    SmallIsWellFormed();
    FirstRests(SMALL, ord);
    ReachableIsSound(SMALL, s);
    AgainIsAllowed(SMALL, s);
    AgainIsFaultless(SMALL, s);
    AgainIsMisreported(s);
    DrainEndsIffNotFatal(SMALL, s, AGAIN, ords);
  }

  lemma SlowEnough()
    ensures SlowDeletes(SLOW, AGAIN)
  {}

  // With one it is not.
  lemma DeletedSlowly(ord: Order, ords: nat -> Order)
    requires ValidOrder(ord) && ValidOrders(ords)
    ensures var s := AfterFirst(SLOW, ord);
            && WellFormed(SLOW) && Sound(SLOW, s) && s.queue == [] && s.storage.ok && AllowedBatch(SLOW, s, AGAIN)
            && SlowDeletes(SLOW, AGAIN) && Ends(SLOW, ExecuteAll(SLOW, s, AGAIN), ords)
  {
    hide WellFormed, Initial, AfterFirst, ValidOrder, ValidOrders, Ends, ExecuteAll, Faulty, Sound, Reachable, AllowedBatch,
        SlowDeletes, DelaysOf, Doomed;
    var s := AfterFirst(SLOW, ord);
    SlowEnough();
    SlowIsWellFormed();
    FirstRests(SLOW, ord);
    ReachableIsSound(SLOW, s);
    AgainIsAllowed(SLOW, s);
    AgainIsFaultless(SLOW, s);
    DoomedIsFaulty(SLOW, s);
    AnyDrainEndsIffNotDoomed(SLOW, s, AGAIN, ords);
  }
}
