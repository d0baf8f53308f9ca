/**
 Batches with faults: requests for handles the storage does not know, and commands given to the
 storage itself. From a state at rest such a batch has a drain that never ends exactly if a VM is
 pending when the storage fails. Requests are immediate, so the last one given runs first, and all
 of them before any other command: that is so exactly if some created VM is requested with no
 unknown handle requested after it.
 */
module FaultyBatches {
  import opened Types
  import opened FlatQueue
  import opened Handlers
  import opened Simulator
  import opened StepFacts
  import opened Clock
  import opened Registry
  import opened Effects
  import opened Deciding
  import opened Placement
  import opened Soundness
  import opened Draining
  import opened Batches
  import Lives
  import PowerFlow
  import HostedFirst

  ghost predicate AllowedBatch(c: Config, s: State, cmds: seq<Command>) {
    forall i :: 0 <= i < |cmds| ==> Allowed(c, ExecuteAll(c, s, cmds[..i]), cmds[i])
  }

  // No VM created in full is told to delete itself a second time.
  ghost predicate DeletesOnce(c: Config, s: State, cmds: seq<Command>) {
    forall i :: 0 <= i < |cmds| && cmds[i].DeleteRequest? ==>
      DeletedOnce(c, ExecuteAll(c, s, cmds[..i]), cmds[i].target)
  }

  predicate AsksUnknown(s: State, m: Command) {
    m.ProvisionRequest? && m.target !in s.storage.vms
  }

  predicate AsksCreated(s: State, m: Command) {
    m.ProvisionRequest? && Is(s, m.target, CreatedVM)
  }

  // A power, stop or delete command for the storage: it cannot make sense of the event, and fails.
  predicate Upsets(c: Config, m: Command) {
    (m.Power? && m.resource == c.storage) || ((m.StopRequest? || m.DeleteRequest?) && m.target == c.storage)
  }

  ghost predicate Faulty(c: Config, s: State, cmds: seq<Command>) {
    exists i :: 0 <= i < |cmds| && (AsksUnknown(s, cmds[i]) || Upsets(c, cmds[i]))
  }

  // The `i`-th command requests a created VM, and no later one an unknown handle.
  ghost predicate LeavesPending(s: State, cmds: seq<Command>, i: nat) {
    i < |cmds| && AsksCreated(s, cmds[i]) && forall k :: i < k < |cmds| ==> !AsksUnknown(s, cmds[k])
  }

  // The storage is made to fail, and some created VM is requested with no unknown handle after it.
  ghost predicate Doomed(c: Config, s: State, cmds: seq<Command>) {
    Faulty(c, s, cmds) && exists i: nat :: LeavesPending(s, cmds, i)
  }

  // ----- the requests in the order they run -----

  function Asked(cmds: seq<Command>): seq<UUID> {
    if cmds == [] then []
    else
      var m, before := cmds[|cmds| - 1], Asked(cmds[..|cmds| - 1]);
      if m.ProvisionRequest? then [m.target] + before else before
  }

  // Whether a VM is pending once the requests have run, up to the first unknown handle.
  predicate Left(s: State, us: seq<UUID>, pending: bool) {
    if us == [] || us[0] !in s.storage.vms then pending
    else Left(s, us[1..], pending || s.storage.vms[us[0]] == CreatedVM)
  }

  ghost predicate SomeUnknown(s: State, us: seq<UUID>) {
    exists i :: 0 <= i < |us| && us[i] !in s.storage.vms
  }

  lemma LeavesKept(s: State, init: seq<Command>, m: Command)
    ensures (exists i: nat :: LeavesPending(s, init + [m], i)) <==>
            AsksCreated(s, m) || (!AsksUnknown(s, m) && exists i: nat :: LeavesPending(s, init, i))
  {
    hide AsksCreated, AsksUnknown;
    var cmds := init + [m];
    assert cmds[|init|] == m && forall k :: 0 <= k < |init| ==> cmds[k] == init[k];
    if AsksCreated(s, m) {
      assert LeavesPending(s, cmds, |init|);
    }
    if i: nat :| LeavesPending(s, cmds, i) {
      assert i < |init| ==> LeavesPending(s, init, i) && !AsksUnknown(s, cmds[|init|]);
    }
    if !AsksUnknown(s, m) {
      if i: nat :| LeavesPending(s, init, i) {
        assert LeavesPending(s, cmds, i);
      }
    }
  }

  lemma {:induction false} LeftOnceLeft(s: State, us: seq<UUID>)
    ensures Left(s, us, true)
  {
    if us != [] && us[0] in s.storage.vms {
      LeftOnceLeft(s, us[1..]);
    }
  }

  // The walk over the requests as they run, in terms of the commands as they were given.
  lemma {:induction false} LeftMeans(s: State, cmds: seq<Command>)
    ensures Left(s, Asked(cmds), false) <==> exists i: nat :: LeavesPending(s, cmds, i)
  {
    if cmds != [] {
      var n := |cmds| - 1;
      var init, m := cmds[..n], cmds[n];
      assert cmds == init + [m];
      LeavesKept(s, init, m);
      LeftMeans(s, init);
      LeftOnceLeft(s, Asked(init));
      hide LeavesPending;
      if m.ProvisionRequest? {
        assert ([m.target] + Asked(init))[1..] == Asked(init);
      }
    }
  }

  // ----- running them -----

  function Ask(c: Config, t: int, u: UUID): Event {
    Event(t, c.storage, StorageEvent(VMProvisionRequested, u))
  }

  // The requests `us` stand first in the queue, and nothing queued is due later.
  ghost predicate Queued(c: Config, s: State, us: seq<UUID>) {
    && |us| <= |s.queue| && Giving(s)
    && forall i :: 0 <= i < |us| ==> s.queue[i] == Ask(c, s.now, us[i])
  }

  // The statuses are those of `s0`, except that created VMs may be pending by now.
  ghost predicate Asking(s0: State, s: State) {
    && s.storage.ok && s.storage.vms.Keys == s0.storage.vms.Keys
    && forall v :: v in s.storage.vms ==>
         s.storage.vms[v] == s0.storage.vms[v] || (s0.storage.vms[v] == CreatedVM && s.storage.vms[v] == PendingVM)
  }

  ghost predicate SomePending(s: State) {
    exists v :: Pending(s, v)
  }

  lemma HeadAsks(c: Config, s: State, us: seq<UUID>)
    requires Queued(c, s, us) && us != []
    ensures s.queue != [] && s.queue[0] == Ask(c, s.now, us[0]) && IsRequest(s.queue[0])
    ensures |s.queue| >= 2 ==> s.queue[1].time == s.now
  {}

  // What one request does to the statuses.
  lemma OneAsked(s0: State, s: State, s': State, e: Event)
    requires Asking(s0, s) && IsRequest(e) && s'.storage == StorageReact(s.storage, e)
    requires forall v :: !Is(s0, v, StoppedVM)
    ensures e.body.vm !in s0.storage.vms ==> !s'.storage.ok && s'.storage.vms == s.storage.vms
    ensures e.body.vm in s0.storage.vms ==>
              Asking(s0, s') && (SomePending(s') <==> SomePending(s) || s0.storage.vms[e.body.vm] == CreatedVM)
  {
    var v := e.body.vm;
    if v in s0.storage.vms {
      assert !Is(s0, v, StoppedVM);
      assert s0.storage.vms[v] == CreatedVM ==> Pending(s', v);
      assert forall u :: u != v ==> Pending(s', u) == Pending(s, u);
      assert Pending(s', v) ==> Pending(s, v) || s0.storage.vms[v] == CreatedVM;
    }
  }

  lemma AskRuns(c: Config, s: State, ord: Order, us: seq<UUID>)
    requires WellFormed(c) && Sound(c, s) && Queued(c, s, us) && us != []
    ensures var d := Dispatch(c, s, ord);
            d.queue == s.queue[1..] && d.now == s.now && d.storage == StorageReact(s.storage, s.queue[0])
  {
    hide Dispatch, Known, Sound, WellFormed, Timely, StorageReact, Queued, Out, Handled, InsertAllBack;
    SoundKnown(c, s);
    HeadAsks(c, s, us);
    RequestSchedules(c, s, ord);
    StorageAfter(c, s, ord);
    DispatchShape(c, s, ord);
  }

  // A request for a known VM runs, and something else is due now.
  lemma KnownAsked(c: Config, s0: State, s: State, ord: Order, us: seq<UUID>)
    requires WellFormed(c) && Sound(c, s) && Asking(s0, s) && Queued(c, s, us) && us != [] && us[0] in s0.storage.vms
    requires |s.queue| >= 2 && forall v :: !Is(s0, v, StoppedVM)
    ensures var s' := Step(c, s, ord);
            && Asking(s0, s') && Queued(c, s', us[1..]) && s'.queue == s.queue[1..] && s'.now == s.now
            && (SomePending(s') <==> SomePending(s) || s0.storage.vms[us[0]] == CreatedVM)
  {
    hide Dispatch, UpdateWorld, Sound, WellFormed, Asking, SomePending, StorageReact, Is;
    AskRuns(c, s, ord, us);
    HeadAsks(c, s, us);
    var d := Dispatch(c, s, ord);
    assert Step(c, s, ord) == d;
    OneAsked(s0, s, d, s.queue[0]);
  }

  // A request for an unknown handle runs: the storage has failed, with the pending VMs it had.
  lemma UnknownAsked(c: Config, s0: State, s: State, ord: Order, us: seq<UUID>)
    requires WellFormed(c) && Sound(c, s) && ValidOrder(ord) && Asking(s0, s) && Queued(c, s, us) && us != []
    requires us[0] !in s0.storage.vms && forall v :: !Is(s0, v, StoppedVM)
    ensures var s' := Step(c, s, ord); !s'.storage.ok && (SomePending(s') <==> SomePending(s))
  {
    hide Dispatch, UpdateWorld, Sound, WellFormed, Asking, StorageReact, Is;
    AskRuns(c, s, ord, us);
    HeadAsks(c, s, us);
    var d := Dispatch(c, s, ord);
    OneAsked(s0, s, d, s.queue[0]);
    StepStorage(c, s, ord);
    var s' := Step(c, s, ord);
    assert forall v :: Pending(s', v) == Pending(s, v);
  }

  // A failed storage is never told anything again.
  lemma {:induction false} FrozenDrain(c: Config, s: State, ords: nat -> Order, n: nat)
    requires WellFormed(c) && Sound(c, s) && ValidOrders(ords) && !s.storage.ok
    ensures Drain(c, s, ords, n).storage == s.storage
  {
    hide Sound, WellFormed, Step, Dispatch, Known, Timely;
    if n != 0 {
      var prev := Drain(c, s, ords, n - 1);
      FrozenDrain(c, s, ords, n - 1);
      DrainSound(c, s, ords, n - 1);
      SoundKnown(c, prev);
      FrozenStep(c, prev, ords(n - 1));
    }
  }

  lemma FrozenStep(c: Config, s: State, ord: Order)
    requires WellFormed(c) && Sound(c, s) && ValidOrder(ord) && !s.storage.ok
    ensures Step(c, s, ord).storage == s.storage
  {
    hide Sound, WellFormed, Dispatch, Known, Timely, UpdateWorld;
    if s.queue != [] {
      SoundKnown(c, s);
      StepStorage(c, s, ord);
      StorageAfter(c, s, ord);
    }
  }

  lemma StuckFromNext(c: Config, s: State, ords: nat -> Order)
    requires s.storage.ok && ValidOrders(ords)
    ensures GetsStuck(c, s, ords) <==> GetsStuck(c, Step(c, s, ords(0)), Later(ords))
    ensures ValidOrders(Later(ords))
  {
    hide Step, ValidOrders;
    DrainFirst(c, s, ords, 0);
    var s' := Step(c, s, ords(0));
    if GetsStuck(c, s, ords) {
      var n: nat :| Stuck(Drain(c, s, ords, n));
      assert n != 0;
      DrainFirst(c, s, ords, n - 1);
      assert Stuck(Drain(c, s', Later(ords), n - 1));
    }
    if GetsStuck(c, s', Later(ords)) {
      var n: nat :| Stuck(Drain(c, s', Later(ords), n));
      DrainFirst(c, s, ords, n);
      assert Stuck(Drain(c, s, ords, n + 1));
    }
  }

  lemma StuckAtOnce(c: Config, s: State, ords: nat -> Order)
    requires WellFormed(c) && Sound(c, s) && ValidOrders(ords) && !s.storage.ok
    ensures GetsStuck(c, s, ords) <==> SomePending(s)
  {
    hide WellFormed, Sound, ValidOrders;
    if SomePending(s) {
      assert Drain(c, s, ords, 0) == s;
      assert Stuck(Drain(c, s, ords, 0));
    }
    if GetsStuck(c, s, ords) {
      var n: nat :| Stuck(Drain(c, s, ords, n));
      FrozenDrain(c, s, ords, n);
      hide Drain;
      var v :| Pending(Drain(c, s, ords, n), v);
      assert Pending(s, v);
    }
  }

  // ----- commands for the storage -----

  // An event the storage cannot make sense of.
  predicate Upsetting(c: Config, e: Event) {
    e.to == c.storage && !e.body.StorageEvent?
  }

  // An event that can make no VM pending, and no pending one anything else.
  predicate Mild(c: Config, e: Event) {
    e.to == c.storage ==> e.body.StorageEvent? && e.body.storageType == VMCreated
  }

  // The storage is about to be upset: only mild events, due now like it, stand before the one that does it.
  ghost predicate AboutToFail(c: Config, s: State, k: nat) {
    && k < |s.queue| && Upsetting(c, s.queue[k])
    && (forall i :: 0 <= i <= k ==> s.queue[i].time == s.now)
    && forall i :: 0 <= i < k ==> Mild(c, s.queue[i])
  }

  // What is due no later than the events inserted stays in front of them.
  lemma {:induction false} PrefixStays(q: seq<Event>, es: seq<Event>, k: nat)
    requires k <= |q| && forall i, j :: 0 <= i < k && 0 <= j < |es| ==> q[i].time <= es[j].time
    ensures k <= |InsertAllBack(q, es)| && InsertAllBack(q, es)[..k] == q[..k]
  {
    if es != [] {
      var init, last := es[..|es| - 1], es[|es| - 1];
      PrefixStays(q, init, k);
      var p := InsertAllBack(q, init);
      assert forall i :: 0 <= i < k ==> p[i] == p[..k][i] == q[i];
      OnePrefixStays(p, last, k);
      hide InsertBack;
    }
  }

  lemma OnePrefixStays(q: seq<Event>, e: Event, k: nat)
    requires k <= |q| && forall i :: 0 <= i < k ==> q[i].time <= e.time
    ensures k <= |InsertBack(q, e)| && InsertBack(q, e)[..k] == q[..k]
  {
    assert k <= UpTo(q, e.time);
  }

  lemma MildStatus(st: Storage, e: Event, v: UUID)
    requires e.body.StorageEvent? && e.body.storageType == VMCreated
    ensures var d := StorageReact(st, e);
            (v in d.vms && d.vms[v] == PendingVM) == (v in st.vms && st.vms[v] == PendingVM)
  {}

  // A mild event runs.
  lemma MildRuns(c: Config, s: State, ord: Order, k: nat)
    requires WellFormed(c) && Sound(c, s) && AboutToFail(c, s, k) && k > 0
    ensures var s' := Step(c, s, ord);
            AboutToFail(c, s', k - 1) && (SomePending(s') <==> SomePending(s))
  {
    hide Dispatch, UpdateWorld, Sound, WellFormed, Known, Timely, Out, Handled, InsertAllBack, StorageReact;
    SoundKnown(c, s);
    StorageAfter(c, s, ord);
    DispatchShape(c, s, ord);
    var d, e := Dispatch(c, s, ord), s.queue[0];
    PrefixStays(s.queue[1..], Out(c, s, ord), k);
    assert forall i :: 0 <= i < k ==> d.queue[i] == d.queue[..k][i] == s.queue[1..][i] == s.queue[i + 1];
    forall v
      ensures Pending(d, v) == Pending(s, v)
    {
      if e.to == c.storage {
        MildStatus(s.storage, e, v);
      }
    }
  }

  // The storage is upset, with the pending VMs it has.
  lemma UpsetRuns(c: Config, s: State, ord: Order)
    requires WellFormed(c) && Sound(c, s) && ValidOrder(ord) && AboutToFail(c, s, 0)
    ensures var s' := Step(c, s, ord); !s'.storage.ok && (SomePending(s') <==> SomePending(s))
  {
    hide Dispatch, UpdateWorld, Sound, WellFormed, Known, Timely;
    SoundKnown(c, s);
    StorageAfter(c, s, ord);
    StepStorage(c, s, ord);
    var s' := Step(c, s, ord);
    assert forall v :: Pending(s', v) == Pending(s, v);
  }

  lemma {:induction false} FateOfUpset(c: Config, s: State, k: nat, ords: nat -> Order)
    requires WellFormed(c) && Sound(c, s) && AboutToFail(c, s, k) && ValidOrders(ords)
    ensures GetsStuck(c, s, ords) <==> SomePending(s)
    decreases k
  {
    hide WellFormed, Sound, Step, GetsStuck, SomePending, AboutToFail;
    if !s.storage.ok {
      StuckAtOnce(c, s, ords);
    } else {
      var s' := Step(c, s, ords(0));
      SoundStep(c, s, ords(0));
      StuckFromNext(c, s, ords);
      if k == 0 {
        UpsetRuns(c, s, ords(0));
        StuckAtOnce(c, s', Later(ords));
      } else {
        MildRuns(c, s, ords(0), k);
        FateOfUpset(c, s', k - 1, Later(ords));
      }
    }
  }

  // ----- the fate of a batch -----

  // Behind the requests, only mild events stand before one that upsets the storage.
  ghost predicate Behind(c: Config, s: State, us: seq<UUID>, k: nat) {
    && |us| <= k < |s.queue| && Upsetting(c, s.queue[k])
    && forall i :: |us| <= i < k ==> Mild(c, s.queue[i])
  }

  lemma BehindNone(c: Config, s: State, k: nat)
    requires Queued(c, s, []) && Behind(c, s, [], k)
    ensures AboutToFail(c, s, k)
  {}

  lemma BehindNext(c: Config, s: State, s': State, us: seq<UUID>, k: nat)
    requires Behind(c, s, us, k) && us != [] && s'.queue == s.queue[1..]
    ensures k >= 1 && Behind(c, s', us[1..], k - 1)
  {
    assert forall i :: 1 <= i < |s.queue| ==> s'.queue[i - 1] == s.queue[i];
  }

  // With an unknown handle among them, or an upsetting command behind them, the requests decide
  // the fate of the whole drain.
  lemma {:induction false} FateOfRequests(c: Config, s0: State, s: State, us: seq<UUID>, k: nat, ords: nat -> Order)
    requires WellFormed(c) && Sound(c, s) && Asking(s0, s) && Queued(c, s, us) && ValidOrders(ords)
    requires SomeUnknown(s0, us) || Behind(c, s, us, k)
    requires forall v :: !Is(s0, v, StoppedVM)
    ensures GetsStuck(c, s, ords) <==> Left(s0, us, SomePending(s))
    decreases |us|
  {
    hide WellFormed, Sound, Step, GetsStuck, SomePending, Is, AboutToFail;
    if us == [] {
      BehindNone(c, s, k);
      FateOfUpset(c, s, k, ords);
    } else {
      var s' := Step(c, s, ords(0));
      SoundStep(c, s, ords(0));
      StuckFromNext(c, s, ords);
      if us[0] !in s0.storage.vms {
        UnknownAsked(c, s0, s, ords(0), us);
        hide Asking, Queued;
        StuckAtOnce(c, s', Later(ords));
      } else {
        MoreToCome(c, s0, s, us, k);
        KnownAsked(c, s0, s, ords(0), us);
        hide Asking, Queued;
        if Behind(c, s, us, k) {
          BehindNext(c, s, s', us, k);
        }
        hide Behind;
        FateOfRequests(c, s0, s', us[1..], if k == 0 then 0 else k - 1, Later(ords));
      }
    }
  }

  lemma MoreToCome(c: Config, s0: State, s: State, us: seq<UUID>, k: nat)
    requires Queued(c, s, us) && us != [] && us[0] in s0.storage.vms && (SomeUnknown(s0, us) || Behind(c, s, us, k))
    ensures |s.queue| >= 2 && (SomeUnknown(s0, us) ==> SomeUnknown(s0, us[1..]))
  {
    if i :| 0 <= i < |us| && us[i] !in s0.storage.vms {
      assert us[1..][i - 1] == us[i];
    }
  }

  // ----- the batch -----

  // An event a deferred command may send.
  predicate Deferred(c: Config, e: Event) {
    e.to == c.storage && e.body.StorageEvent? ==> e.body.storageType == VMCreated
  }

  ghost predicate AllDeferred(c: Config, q: seq<Event>, from: nat) {
    forall i :: from <= i < |q| ==> Deferred(c, q[i])
  }

  ghost predicate HasUpset(c: Config, s: State, us: seq<UUID>) {
    exists k :: |us| <= k < |s.queue| && Upsetting(c, s.queue[k])
  }

  // After the batch its requests stand first, in the opposite order; the storage has not heard of any.
  ghost predicate Given(c: Config, s0: State, s: State, us: seq<UUID>) {
    && Queued(c, s, us) && s.storage == s0.storage
    && AllDeferred(c, s.queue, |us|)
  }

  lemma GivenMore(c: Config, s0: State, s: State, us: seq<UUID>, m: Command)
    requires Given(c, s0, s, us)
    ensures var us', s' := if m.ProvisionRequest? then [m.target] + us else us, Execute(c, s, m);
            && Given(c, s0, s', us')
            && (HasUpset(c, s, us) || Upsets(c, m) ==> HasUpset(c, s', us'))
  {
    ExecuteShape(c, s, m);
    hide InsertBack, InsertFront, Execute, Deferred, Upsets, Upsetting;
    var s', es := Execute(c, s, m), CommandEvents(c, s, m);
    if es != [] {
      AppendedLast(s.queue, es[0]);
      CommandKinds(c, s, m, es[0]);
      if m.ProvisionRequest? {
        RequestGiven(c, s, s', us, m.target);
        StillUpset(c, s.queue, s'.queue, us, [m.target] + us, es[0], m);
      } else {
        DeferredGiven(c, s, s', us, es[0]);
        StillUpset(c, s.queue, s'.queue, us, us, es[0], m);
      }
    } else {
      SilentCommand(c, s, m);
    }
  }

  lemma SilentCommand(c: Config, s: State, m: Command)
    requires CommandEvents(c, s, m) == []
    ensures !Upsets(c, m) && !m.ProvisionRequest?
  {}

  lemma CommandKinds(c: Config, s: State, m: Command, e: Event)
    requires CommandEvents(c, s, m) != [] && e == CommandEvents(c, s, m)[0]
    ensures e.time == s.now && (m.ProvisionRequest? ==> e == Ask(c, s.now, m.target))
    ensures !m.ProvisionRequest? ==> Deferred(c, e)
    ensures Upsets(c, m) <==> Upsetting(c, e)
  {}

  lemma RequestGiven(c: Config, s: State, s': State, us: seq<UUID>, u: UUID)
    requires Queued(c, s, us) && AllDeferred(c, s.queue, |us|)
    requires s'.now == s.now && s'.queue == [Ask(c, s.now, u)] + s.queue
    ensures Queued(c, s', [u] + us) && AllDeferred(c, s'.queue, |us| + 1)
  {
    hide Deferred;
    assert forall i :: 1 <= i < |s'.queue| ==> s'.queue[i] == s.queue[i - 1];
  }

  lemma DeferredGiven(c: Config, s: State, s': State, us: seq<UUID>, e: Event)
    requires Queued(c, s, us) && AllDeferred(c, s.queue, |us|) && Deferred(c, e) && e.time == s.now
    requires s'.now == s.now && s'.queue == s.queue + [e]
    ensures Queued(c, s', us) && AllDeferred(c, s'.queue, |us|)
  {
    hide Deferred;
  }

  lemma StillUpset(c: Config, q: seq<Event>, r: seq<Event>, us: seq<UUID>, us': seq<UUID>, e: Event, m: Command)
    requires if m.ProvisionRequest? then r == [e] + q && |us'| == |us| + 1 else r == q + [e] && us' == us && |us| <= |q|
    requires Upsets(c, m) ==> Upsetting(c, e)
    ensures (exists k :: |us| <= k < |q| && Upsetting(c, q[k])) || Upsets(c, m) ==>
              exists k :: |us'| <= k < |r| && Upsetting(c, r[k])
  {
    if Upsets(c, m) {
      assert Upsetting(c, r[|q|]);
    }
    if k :| |us| <= k < |q| && Upsetting(c, q[k]) {
      assert Upsetting(c, r[if m.ProvisionRequest? then k + 1 else k]);
    }
  }

  lemma BatchPrefix(c: Config, s: State, cmds: seq<Command>)
    requires AllowedBatch(c, s, cmds) && cmds != []
    ensures AllowedBatch(c, s, cmds[..|cmds| - 1])
    ensures Allowed(c, ExecuteAll(c, s, cmds[..|cmds| - 1]), cmds[|cmds| - 1])
  {
    hide ExecuteAll, Allowed;
    var init := cmds[..|cmds| - 1];
    forall i | 0 <= i < |init|
      ensures Allowed(c, ExecuteAll(c, s, init[..i]), init[i])
    {
      assert init[..i] == cmds[..i];
    }
  }

  lemma DeletesPrefix(c: Config, s: State, cmds: seq<Command>)
    requires DeletesOnce(c, s, cmds) && cmds != []
    ensures DeletesOnce(c, s, cmds[..|cmds| - 1])
    ensures var m := cmds[|cmds| - 1];
            m.DeleteRequest? ==> DeletedOnce(c, ExecuteAll(c, s, cmds[..|cmds| - 1]), m.target)
  {
    hide ExecuteAll, DeletedOnce;
    var init := cmds[..|cmds| - 1];
    forall i | 0 <= i < |init| && init[i].DeleteRequest?
      ensures DeletedOnce(c, ExecuteAll(c, s, init[..i]), init[i].target)
    {
      assert init[..i] == cmds[..i];
    }
  }

  predicate SomeUpset(c: Config, cmds: seq<Command>) {
    exists i :: 0 <= i < |cmds| && Upsets(c, cmds[i])
  }

  lemma {:induction false} BatchGiven(c: Config, s: State, cmds: seq<Command>)
    requires WellFormed(c) && Sound(c, s) && s.queue == [] && AllowedBatch(c, s, cmds)
    ensures var s' := ExecuteAll(c, s, cmds);
            && Sound(c, s') && Given(c, s, s', Asked(cmds))
            && (SomeUpset(c, cmds) ==> HasUpset(c, s', Asked(cmds)))
  {
    hide WellFormed, Sound, Execute, AllowedBatch, Allowed, Upsets, HasUpset;
    if cmds != [] {
      var init, m := cmds[..|cmds| - 1], cmds[|cmds| - 1];
      BatchPrefix(c, s, cmds);
      BatchGiven(c, s, init);
      hide Given;
      var prev := ExecuteAll(c, s, init);
      SoundExecute(c, prev, m);
      GivenMore(c, s, prev, Asked(init), m);
      if i :| 0 <= i < |cmds| && Upsets(c, cmds[i]) {
        assert i < |init| ==> Upsets(c, init[i]);
      }
    }
  }

  // The first of the upsetting commands.
  lemma FirstUpset(c: Config, s0: State, s: State, us: seq<UUID>) returns (k: nat)
    requires Given(c, s0, s, us) && HasUpset(c, s, us)
    ensures Behind(c, s, us, k)
  {
    hide Upsetting, Queued;
    k :| |us| <= k < |s.queue| && Upsetting(c, s.queue[k]);
    while exists i :: |us| <= i < k && Upsetting(c, s.queue[i])
      invariant |us| <= k < |s.queue| && Upsetting(c, s.queue[k])
      decreases k
    {
      var i :| |us| <= i < k && Upsetting(c, s.queue[i]);
      k := i;
    }
    forall i | |us| <= i < k
      ensures Mild(c, s.queue[i])
    {
      OnlyMild(c, s.queue[i]);
    }
  }

  lemma OnlyMild(c: Config, e: Event)
    requires Deferred(c, e) && !Upsetting(c, e)
    ensures Mild(c, e)
  {}

  // Without a fault the batch is well-formed.
  lemma {:induction false} FaultlessIsTame(c: Config, s: State, cmds: seq<Command>)
    requires WellFormed(c) && Sound(c, s) && Tame(c, s) && s.queue == [] && AllowedBatch(c, s, cmds)
    requires DeletesOnce(c, s, cmds) && !Faulty(c, s, cmds)
    ensures Tame(c, ExecuteAll(c, s, cmds)) && Giving(ExecuteAll(c, s, cmds))
  {
    hide WellFormed, Sound, Execute, AllowedBatch, DeletesOnce, DeletedOnce, Tame, Known, Timely;
    if cmds != [] {
      var init, m := cmds[..|cmds| - 1], cmds[|cmds| - 1];
      BatchPrefix(c, s, cmds);
      DeletesPrefix(c, s, cmds);
      FaultlessBefore(c, s, cmds);
      FaultlessIsTame(c, s, init);
      BatchGiven(c, s, init);
      var prev := ExecuteAll(c, s, init);
      SoundKnown(c, prev);
      hide Queued;
      assert Proper(c, prev, m) by { FaultlessIsProper(c, s, prev, m); }
      hide Proper;
      TameExecute(c, prev, m);
    }
  }

  lemma FaultlessIsProper(c: Config, s: State, prev: State, m: Command)
    requires Allowed(c, prev, m) && (m.DeleteRequest? ==> DeletedOnce(c, prev, m.target)) && prev.storage == s.storage
    requires !AsksUnknown(s, m) && !Upsets(c, m)
    ensures Proper(c, prev, m)
  {
    hide Allowed, DeletedOnce;
  }

  lemma FaultlessBefore(c: Config, s: State, cmds: seq<Command>)
    requires !Faulty(c, s, cmds) && cmds != []
    ensures !Faulty(c, s, cmds[..|cmds| - 1])
    ensures !AsksUnknown(s, cmds[|cmds| - 1]) && !Upsets(c, cmds[|cmds| - 1])
  {
    hide AsksUnknown, Upsets;
    var init := cmds[..|cmds| - 1];
    assert forall i :: 0 <= i < |init| ==> init[i] == cmds[i];
  }

  lemma {:induction false} UnknownAmong(s: State, cmds: seq<Command>, i: nat)
    requires i < |cmds| && AsksUnknown(s, cmds[i])
    ensures SomeUnknown(s, Asked(cmds))
  {
    var init, m := cmds[..|cmds| - 1], cmds[|cmds| - 1];
    if i == |init| {
      assert Asked(cmds)[0] == m.target;
    } else {
      UnknownAmong(s, init, i);
      var j :| 0 <= j < |Asked(init)| && Asked(init)[j] !in s.storage.vms;
      assert Asked(cmds)[if m.ProvisionRequest? then j + 1 else j] == Asked(init)[j];
    }
  }

  lemma NobodyStopped(c: Config, s: State)
    requires Sound(c, s) && s.storage.ok
    ensures forall v :: !Is(s, v, StoppedVM)
  {
    hide Timely, Known, DecisionsOrderly, PowerFlow.AllPowering, HostedFirst.InOrder, Lives.Alive;
    forall v
      ensures !Is(s, v, StoppedVM)
    {
      assert Traced(c, s, v);
    }
  }

  lemma NobodyPending(c: Config, s: State)
    requires Sound(c, s) && s.queue == []
    ensures !SomePending(s)
  {
    hide Timely, Known, DecisionsOrderly, PowerFlow.AllPowering, HostedFirst.InOrder, Lives.Alive, AllTraced;
  }

  lemma FaultyFate(c: Config, s: State, cmds: seq<Command>, ords: nat -> Order)
    requires WellFormed(c) && Sound(c, s) && s.storage.ok && s.queue == [] && AllowedBatch(c, s, cmds)
    requires ValidOrders(ords) && Faulty(c, s, cmds)
    ensures GetsStuck(c, ExecuteAll(c, s, cmds), ords) <==> exists i: nat :: LeavesPending(s, cmds, i)
  {
    hide WellFormed, Sound, AllowedBatch, ValidOrders, GetsStuck, ExecuteAll, Asked, Left, LeavesPending, Is,
        AsksUnknown, Upsets, SomePending;
    var s', us := ExecuteAll(c, s, cmds), Asked(cmds);
    BatchGiven(c, s, cmds);
    LeftMeans(s, cmds);
    NobodyStopped(c, s);
    NobodyPending(c, s);
    AskingFirst(s, s');
    var i :| 0 <= i < |cmds| && (AsksUnknown(s, cmds[i]) || Upsets(c, cmds[i]));
    var k := 0;
    if AsksUnknown(s, cmds[i]) {
      UnknownAmong(s, cmds, i);
    } else {
      k := FirstUpset(c, s, s', us);
    }
    hide Given, Behind, SomeUnknown;
    GivenQueued(c, s, s', us);
    FateOfRequests(c, s, s', us, k, ords);
  }

  lemma GivenQueued(c: Config, s0: State, s: State, us: seq<UUID>)
    requires Given(c, s0, s, us)
    ensures Queued(c, s, us)
  {
    hide Queued;
  }

  // From rest, after any allowed batch that makes the storage fail: the drain ends unless a VM is
  // pending when it does.
  lemma FaultyDrainEnds(c: Config, s: State, cmds: seq<Command>, ords: nat -> Order)
    requires WellFormed(c) && Sound(c, s) && s.storage.ok && s.queue == [] && AllowedBatch(c, s, cmds)
    requires ValidOrders(ords) && Faulty(c, s, cmds)
    ensures Ends(c, ExecuteAll(c, s, cmds), ords) <==> !exists i: nat :: LeavesPending(s, cmds, i)
  {
    hide WellFormed, Sound, AllowedBatch, ValidOrders, Ends, GetsStuck, ExecuteAll, Asked, Faulty, LeavesPending;
    var s' := ExecuteAll(c, s, cmds);
    BatchGiven(c, s, cmds);
    FaultyFate(c, s, cmds, ords);
    EndsUnlessStuck(c, s', ords);
    if GetsStuck(c, s', ords) {
      NeverEndsOnceStuck(c, s', ords);
    }
  }

  // From rest after well-formed batches, and after any allowed batch more that is faulty or
  // deletes no VM twice: the drain ends unless the storage is made to fail while a VM is pending.
  lemma DrainEndsIffNotDoomed(c: Config, s: State, cmds: seq<Command>, ords: nat -> Order)
    requires WellFormed(c) && Sound(c, s) && Tame(c, s) && s.queue == [] && AllowedBatch(c, s, cmds) && ValidOrders(ords)
    requires Faulty(c, s, cmds) || DeletesOnce(c, s, cmds)
    ensures Ends(c, ExecuteAll(c, s, cmds), ords) <==> !Doomed(c, s, cmds)
  {
    hide WellFormed, Sound, Tame, AllowedBatch, DeletesOnce, ValidOrders, Ends, GetsStuck, ExecuteAll, Faulty, LeavesPending;
    TameOk(c, s);
    if Faulty(c, s, cmds) {
      FaultyDrainEnds(c, s, cmds, ords);
    } else {
      var s' := ExecuteAll(c, s, cmds);
      hide Asked;
      BatchGiven(c, s, cmds);
      FaultlessIsTame(c, s, cmds);
      EndsUnlessStuck(c, s', ords);
      Batches.NeverStuck(c, s', ords);
    }
  }

  lemma TameOk(c: Config, s: State)
    requires Tame(c, s)
    ensures s.storage.ok
  {
    hide RequestsLead, CreatedFirst, Typed, AllAccounted;
  }

  lemma AskingFirst(s: State, s': State)
    requires s.storage.ok && s'.storage == s.storage
    ensures Asking(s, s') && (SomePending(s') <==> SomePending(s))
  {
    assert forall v :: Pending(s', v) == Pending(s, v);
  }
}
