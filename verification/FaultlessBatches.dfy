/**
 Batches without a fault. Only the report of a deletion can make the storage fail then, and only
 in the first instant does it find a VM pending. A VM deletes itself within that instant if its
 delay is zero; told again and again it may even report twice. From the state each VM is in at
 rest, its delays and the commands in their order, the batches that leave a drain stuck are
 told exactly; with the faulty ones this settles the fate of every allowed batch.
 */
module FaultlessBatches {
  import opened Types
  import opened FlatQueue
  import opened Handlers
  import opened Simulator
  import opened StepFacts
  import opened Clock
  import opened Registry
  import opened Effects
  import opened Placement
  import opened Soundness
  import opened Draining
  import opened Batches
  import opened FirstInstant
  import opened FaultyBatches

  // ----- the condition -----

  // The state of the VM `v` once it has heard one command.
  function Heard(m: Command, v: UUID, st: VMState): VMState {
    match m
    case Power(r, a) => if r == v then NextVMState(st, ResourceEvent(a)) else st
    case StopRequest(u) => if u == v then NextVMState(st, VMEvent(Stop)) else st
    case DeleteRequest(u) => if u == v then NextVMState(st, VMEvent(Delete)) else st
    case _ => st
  }

  function StateAtRest(s: State, v: UUID): VMState {
    if v in s.vms then s.vms[v].state else Provisioning
  }

  // The state of the VM `v` once it has heard the batch, at rest or created by the batch itself.
  function StateUnder(s: State, cmds: seq<Command>, v: UUID): VMState {
    if cmds == [] then StateAtRest(s, v)
    else Heard(cmds[|cmds| - 1], v, StateUnder(s, cmds[..|cmds| - 1], v))
  }

  // After the commands `before`, the VM would obey and delete, or stop, itself without delay.
  predicate DeletesNow(c: Config, s: State, before: seq<Command>, v: UUID) {
    DelaysOf(c, v).delete == 0 && StateUnder(s, before, v) in {Running, Stopped, Failure}
  }

  predicate StopsNow(c: Config, s: State, before: seq<Command>, v: UUID) {
    DelaysOf(c, v).stop == 0 && StateUnder(s, before, v) == Running
  }

  // One of the commands stops the VM without delay.
  predicate StoppedNow(c: Config, s: State, cmds: seq<Command>, v: UUID) {
    exists h :: 0 <= h < |cmds| && cmds[h] == StopRequest(v) && StopsNow(c, s, cmds[..h], v)
  }

  // The `i`-th command has a deletion reported to the storage within the instant: the VM was made
  // in full, obeys, and neither a stop completed before nor a command heard later interferes.
  predicate Reported(c: Config, s: State, cmds: seq<Command>, i: nat) {
    i < |cmds| && cmds[i].DeleteRequest? &&
    var v := cmds[i].target;
    && DeletesNow(c, s, cmds[..i], v) && Ready(c, ExecuteAll(c, s, cmds), v)
    && StateUnder(s, cmds, v) == Deleting && !StoppedNow(c, s, cmds[..i], v)
  }

  // The VMs the first `k` commands have reported as deleted.
  function Dropped(c: Config, s: State, cmds: seq<Command>, k: nat): set<UUID>
    requires k <= |cmds|
  {
    if k == 0 then {}
    else Dropped(c, s, cmds, k - 1) + if Reported(c, s, cmds, k - 1) then {cmds[k - 1].target} else {}
  }

  // The report of the `j`-th command finds its VM gone, by an earlier report or before the batch.
  predicate Unexpected(c: Config, s: State, cmds: seq<Command>, j: nat) {
    && j < |cmds| && Reported(c, s, cmds, j)
    && (cmds[j].target in Dropped(c, s, cmds, j) || (cmds[j].target in s.vms && cmds[j].target !in s.storage.vms))
  }

  // Some created VM was requested and is not gone.
  predicate StillAsked(s: State, cmds: seq<Command>, gone: set<UUID>) {
    exists i :: 0 <= i < |cmds| && AsksCreated(s, cmds[i]) && cmds[i].target !in gone
  }

  // A report makes the storage fail while a VM is pending.
  predicate Misreported(c: Config, s: State, cmds: seq<Command>) {
    exists j :: 0 <= j < |cmds| && Unexpected(c, s, cmds, j) && StillAsked(s, cmds, Dropped(c, s, cmds, j))
  }

  // ----- playing one wave of events after the other -----

  function PlayedOut(c: Config, a: Scene, q: seq<Event>): Scene {
    if q == [] then a else Meet(c, PlayedOut(c, a, q[..|q| - 1]), q[|q| - 1]).0
  }

  function Posted(c: Config, t: int, a: Scene, q: seq<Event>): seq<Event> {
    if q == [] then []
    else Posted(c, t, a, q[..|q| - 1]) + DueHere(c, t, Meet(c, PlayedOut(c, a, q[..|q| - 1]), q[|q| - 1]).1)
  }

  lemma PlayedOutLast(c: Config, t: int, a: Scene, q: seq<Event>, e: Event)
    ensures PlayedOut(c, a, q + [e]) == Meet(c, PlayedOut(c, a, q), e).0
    ensures Posted(c, t, a, q + [e]) == Posted(c, t, a, q) + DueHere(c, t, Meet(c, PlayedOut(c, a, q), e).1)
  {
    hide Meet, DueHere;
    assert (q + [e])[..|q|] == q;
  }

  // What is queued first is played as one wave; what it posts queues up behind the rest.
  lemma {:induction false} WaveSettles(c: Config, t: int, a: Scene, q: seq<Event>, r: seq<Event>)
    ensures Settled(c, t, a, q + r) == Settled(c, t, PlayedOut(c, a, q), r + Posted(c, t, a, q))
  {
    hide Meet, DueHere, Settled;
    if q == [] {
      assert q + r == r && r + [] == r;
    } else {
      var init, e := q[..|q| - 1], q[|q| - 1];
      WaveSettles(c, t, a, init, [e] + r);
      assert init + ([e] + r) == q + r;
      var rest := ([e] + r) + Posted(c, t, a, init);
      SettledFirst(c, t, PlayedOut(c, a, init), rest);
      assert rest[1..] == r + Posted(c, t, a, init);
      var out := DueHere(c, t, Meet(c, PlayedOut(c, a, init), e).1);
      assert r + Posted(c, t, a, init) + out == r + (Posted(c, t, a, init) + out);
    }
  }

  lemma OneWave(c: Config, t: int, a: Scene, q: seq<Event>)
    ensures Settled(c, t, a, q) == Settled(c, t, PlayedOut(c, a, q), Posted(c, t, a, q))
  {
    hide Settled, PlayedOut, Posted;
    WaveSettles(c, t, a, q, []);
    assert q + [] == q && [] + Posted(c, t, a, q) == Posted(c, t, a, q);
  }

  // ----- the queue a batch leaves -----

  function AskEvents(c: Config, t: int, us: seq<UUID>): (es: seq<Event>)
    ensures |es| == |us| && forall i :: 0 <= i < |es| ==> es[i] == Ask(c, t, us[i])
  {
    seq(|us|, i requires 0 <= i < |us| => Ask(c, t, us[i]))
  }

  // The events of the commands that are no requests.
  function OrdersSent(c: Config, s: State, cmds: seq<Command>): seq<Event> {
    if cmds == [] then []
    else
      var init, m := cmds[..|cmds| - 1], cmds[|cmds| - 1];
      OrdersSent(c, s, init) + if m.ProvisionRequest? then [] else CommandEvents(c, ExecuteAll(c, s, init), m)
  }

  lemma {:induction false} QueueOfBatch(c: Config, s: State, cmds: seq<Command>)
    requires s.queue == []
    ensures var s' := ExecuteAll(c, s, cmds);
            && s'.queue == AskEvents(c, s.now, Asked(cmds)) + OrdersSent(c, s, cmds) && Giving(s')
            && s'.now == s.now && s'.storage == s.storage
  {
    if cmds == [] {
      assert s.queue == [] + [];
    } else {
      var init, m := cmds[..|cmds| - 1], cmds[|cmds| - 1];
      QueueOfBatch(c, s, init);
      QueueOneMore(c, s.now, ExecuteAll(c, s, init), m, Asked(init), OrdersSent(c, s, init));
      hide Execute, CommandEvents;
    }
  }

  lemma AskEventsJoin(c: Config, t: int, us: seq<UUID>, vs: seq<UUID>)
    ensures AskEvents(c, t, us + vs) == AskEvents(c, t, us) + AskEvents(c, t, vs)
  {
    var a, b := AskEvents(c, t, us + vs), AskEvents(c, t, us) + AskEvents(c, t, vs);
    assert forall i :: 0 <= i < |a| ==> a[i] == b[i];
  }

  lemma AskEventsOne(c: Config, t: int, u: UUID)
    ensures AskEvents(c, t, [u]) == [Ask(c, t, u)]
  {}

  lemma QueueOneMore(c: Config, t: int, s: State, m: Command, us: seq<UUID>, sent: seq<Event>)
    requires s.now == t && Giving(s) && s.queue == AskEvents(c, t, us) + sent
    ensures var s' := Execute(c, s, m);
            && s'.queue == AskEvents(c, t, if m.ProvisionRequest? then [m.target] + us else us) +
                           (sent + if m.ProvisionRequest? then [] else CommandEvents(c, s, m))
            && Giving(s') && s'.now == t && s'.storage == s.storage
  {
    hide InsertBack, InsertFront, Execute, AskEvents;
    ExecuteShape(c, s, m);
    var es := CommandEvents(c, s, m);
    if es == [] {
      assert sent + [] == sent;
    } else {
      AppendedLast(s.queue, es[0]);
      assert es == [es[0]];
      if m.ProvisionRequest? {
        AskEventsJoin(c, t, [m.target], us);
        AskEventsOne(c, t, m.target);
        Regroup(es, AskEvents(c, t, us), sent, []);
        assert sent + [] == sent;
        assert es + (AskEvents(c, t, us) + sent) == (es + AskEvents(c, t, us)) + sent;
      } else {
        assert (AskEvents(c, t, us) + sent) + es == AskEvents(c, t, us) + (sent + es);
      }
    }
  }

  // What the scene hears of the commands that are no requests.
  function BatchLines(c: Config, s: State, cmds: seq<Command>): seq<Event> {
    DueHere(c, s.now, OrdersSent(c, s, cmds))
  }

  function CommandLine(c: Config, s: State, m: Command): seq<Event> {
    if m.ProvisionRequest? then [] else DueHere(c, s.now, CommandEvents(c, s, m))
  }

  lemma LinesLast(c: Config, s: State, cmds: seq<Command>)
    requires cmds != [] && s.queue == []
    ensures var init, m := cmds[..|cmds| - 1], cmds[|cmds| - 1];
            BatchLines(c, s, cmds) == BatchLines(c, s, init) + CommandLine(c, ExecuteAll(c, s, init), m)
  {
    hide DueHere, CommandEvents, ExecuteAll;
    var init, m := cmds[..|cmds| - 1], cmds[|cmds| - 1];
    var prev := ExecuteAll(c, s, init);
    QueueOfBatch(c, s, init);
    var es := if m.ProvisionRequest? then [] else CommandEvents(c, prev, m);
    DueHereConcat(c, s.now, OrdersSent(c, s, init), es);
    if m.ProvisionRequest? {
      NothingDueHere(c, s.now, []);
    }
  }

  lemma {:induction false} AskEventsDue(c: Config, t: int, us: seq<UUID>)
    requires c.storage !in c.components
    ensures DueHere(c, t, AskEvents(c, t, us)) == AskEvents(c, t, us)
  {
    if us != [] {
      AskEventsDue(c, t, us[1..]);
      assert AskEvents(c, t, us)[1..] == AskEvents(c, t, us[1..]);
      assert AskEvents(c, t, us) == [AskEvents(c, t, us)[0]] + AskEvents(c, t, us[1..]);
    }
  }

  // ----- the requests -----

  // The statuses once created VMs among `us` are pending.
  ghost predicate AfterAsks(st: Storage, us: seq<UUID>, st': Storage) {
    && st'.ok && st'.vms.Keys == st.vms.Keys
    && forall v :: v in st.vms ==> st'.vms[v] == if st.vms[v] == CreatedVM && v in us then PendingVM else st.vms[v]
  }

  lemma {:induction false} AskEventsPlayed(c: Config, t: int, a: Scene, us: seq<UUID>)
    requires a.storage.ok && forall v :: v in us ==> v in a.storage.vms
    requires forall v :: v in a.storage.vms ==> a.storage.vms[v] != StoppedVM
    ensures var b := PlayedOut(c, a, AskEvents(c, t, us)); b.vms == a.vms && AfterAsks(a.storage, us, b.storage)
    ensures Posted(c, t, a, AskEvents(c, t, us)) == []
  {
    hide AskEvents, Meet, DueHere, AfterAsks;
    if us == [] {
      NoneAskedFor(a.storage);
    } else {
      var init, u := us[..|us| - 1], us[|us| - 1];
      assert us == init + [u];
      AskEventsPlayed(c, t, a, init);
      AskEventsJoin(c, t, init, [u]);
      AskEventsOne(c, t, u);
      PlayedOutLast(c, t, a, AskEvents(c, t, init), Ask(c, t, u));
      MoreAsked(c, t, a.storage, PlayedOut(c, a, AskEvents(c, t, init)), init, u);
      NothingDueHere(c, t, []);
    }
  }

  lemma NoneAskedFor(st: Storage)
    requires st.ok
    ensures AfterAsks(st, [], st)
  {}

  lemma MoreAsked(c: Config, t: int, st: Storage, b: Scene, us: seq<UUID>, u: UUID)
    requires AfterAsks(st, us, b.storage) && u in st.vms && forall v :: v in st.vms ==> st.vms[v] != StoppedVM
    ensures var (b', out) := Meet(c, b, Ask(c, t, u)); b'.vms == b.vms && AfterAsks(st, us + [u], b'.storage) && out == []
  {}

  // ----- the other commands -----

  // The VMs as the batch finds them.
  ghost predicate Cast(c: Config, s: State, vms: map<UUID, VMData>) {
    forall v :: v in vms ==>
      && v != NIL && v != c.storage && v !in c.components
      && vms[v].owner == NIL && vms[v].state == StateAtRest(s, v)
  }

  // Only the states differ.
  ghost predicate SameCast(c: Config, a: Scene, b: Scene) {
    && a.vms.Keys == b.vms.Keys
    && forall v :: v in a.vms ==>
         && v != NIL && v != c.storage && v !in c.components
         && a.vms[v].owner == NIL && b.vms[v] == a.vms[v].(state := b.vms[v].state)
  }

  // One event at most, due now.
  lemma LineShape(c: Config, s: State, m: Command)
    ensures var es := CommandEvents(c, s, m);
            CommandLine(c, s, m) ==
            if m.ProvisionRequest? || es == [] || es[0].to in c.components then [] else [es[0]]
    ensures CommandEvents(c, s, m) != [] ==> CommandEvents(c, s, m)[0].time == s.now
  {
    hide DueHere;
    var es := CommandEvents(c, s, m);
    if es == [] {
      NothingDueHere(c, s.now, es);
    } else {
      assert es == [es[0]];
      DueHereOne(c, s.now, es[0]);
    }
  }

  lemma DueHereOne(c: Config, t: int, e: Event)
    ensures DueHere(c, t, [e]) == if e.time == t && e.to !in c.components then [e] else []
  {
    assert [e][1..] == [];
  }

  lemma LineHeard(c: Config, s: State, p: Scene, m: Command)
    requires forall v :: v in p.vms ==> v != c.storage && v !in c.components && p.vms[v].owner == NIL
    requires CommandLine(c, s, m) != []
    ensures |CommandLine(c, s, m)| == 1
    ensures var p' := Meet(c, p, CommandLine(c, s, m)[0]).0;
            && p'.vms.Keys == p.vms.Keys
            && forall v :: v in p.vms ==> p'.vms[v] == p.vms[v].(state := Heard(m, v, p.vms[v].state))
  {
    hide StorageReact, DelaysOf, Ready, CommandLine;
    LineShape(c, s, m);
  }

  lemma SilentLine(c: Config, s: State, m: Command, v: UUID, st: VMState)
    requires CommandLine(c, s, m) == [] && v !in c.components
    ensures Heard(m, v, st) == st
  {
    hide CommandLine;
    LineShape(c, s, m);
  }

  lemma {:induction false} LinesStates(c: Config, s: State, b: Scene, cmds: seq<Command>)
    requires s.queue == [] && Cast(c, s, b.vms)
    ensures var p := PlayedOut(c, b, BatchLines(c, s, cmds));
            SameCast(c, b, p) && forall v :: v in b.vms ==> p.vms[v].state == StateUnder(s, cmds, v)
  {
    hide BatchLines, CommandLine, Meet, Heard, ExecuteAll;
    if cmds == [] {
      NoLines(c, s);
    } else {
      var init, m := cmds[..|cmds| - 1], cmds[|cmds| - 1];
      LinesStates(c, s, b, init);
      LinesLast(c, s, cmds);
      var p, prev := PlayedOut(c, b, BatchLines(c, s, init)), ExecuteAll(c, s, init);
      if CommandLine(c, prev, m) != [] {
        LineHeard(c, prev, p, m);
        assert CommandLine(c, prev, m) == [CommandLine(c, prev, m)[0]];
        PlayedOutLast(c, s.now, b, BatchLines(c, s, init), CommandLine(c, prev, m)[0]);
      } else {
        assert BatchLines(c, s, init) + [] == BatchLines(c, s, init);
        forall v | v in b.vms
          ensures Heard(m, v, p.vms[v].state) == p.vms[v].state
        {
          SilentLine(c, prev, m, v, p.vms[v].state);
        }
      }
    }
  }

  lemma NoLines(c: Config, s: State)
    ensures BatchLines(c, s, []) == []
  {}

  // What the scene posts on hearing one command after `before`, if it is to complete at once.
  function Finishing(c: Config, s: State, known: set<UUID>, before: seq<Command>, m: Command): seq<Event> {
    match m
    case StopRequest(v) =>
      if v in known && StopsNow(c, s, before, v) then [Event(s.now, v, VMEvent(StopCompleted))] else []
    case DeleteRequest(v) =>
      if v in known && DeletesNow(c, s, before, v) then [Event(s.now, v, VMEvent(DeleteCompleted))] else []
    case _ => []
  }

  function Completions(c: Config, s: State, known: set<UUID>, cmds: seq<Command>): seq<Event> {
    if cmds == [] then []
    else
      var init, m := cmds[..|cmds| - 1], cmds[|cmds| - 1];
      Completions(c, s, known, init) + Finishing(c, s, known, init, m)
  }

  lemma LinePosts(c: Config, s: State, prev: State, p: Scene, before: seq<Command>, m: Command)
    requires forall v :: v in p.vms ==> v != c.storage && v !in c.components
    requires forall v :: v in p.vms ==> p.vms[v].state == StateUnder(s, before, v)
    requires prev.now == s.now
    ensures CommandLine(c, prev, m) == [] ==> Finishing(c, s, p.vms.Keys, before, m) == []
    ensures CommandLine(c, prev, m) != [] ==>
              |CommandLine(c, prev, m)| == 1 &&
              DueHere(c, s.now, Meet(c, p, CommandLine(c, prev, m)[0]).1) == Finishing(c, s, p.vms.Keys, before, m)
  {
    hide StorageReact, DelaysOf, Ready, StateUnder, CommandLine, DueHere;
    LineShape(c, prev, m);
    if CommandLine(c, prev, m) != [] {
      var out := Meet(c, p, CommandLine(c, prev, m)[0]).1;
      NothingDueHere(c, s.now, []);
      if out != [] {
        assert out == [out[0]];
        DueHereOne(c, s.now, out[0]);
      }
    }
  }

  lemma {:induction false} LinesPost(c: Config, s: State, b: Scene, cmds: seq<Command>)
    requires s.queue == [] && Cast(c, s, b.vms)
    ensures Posted(c, s.now, b, BatchLines(c, s, cmds)) == Completions(c, s, b.vms.Keys, cmds)
  {
    hide BatchLines, CommandLine, Meet, ExecuteAll, Finishing, DueHere, StateUnder;
    if cmds == [] {
      NoLines(c, s);
    } else {
      var init, m := cmds[..|cmds| - 1], cmds[|cmds| - 1];
      LinesPost(c, s, b, init);
      LinesLast(c, s, cmds);
      LinesStates(c, s, b, init);
      QueueOfBatch(c, s, init);
      var p, prev := PlayedOut(c, b, BatchLines(c, s, init)), ExecuteAll(c, s, init);
      LinePosts(c, s, prev, p, init, m);
      if CommandLine(c, prev, m) != [] {
        assert CommandLine(c, prev, m) == [CommandLine(c, prev, m)[0]];
        PlayedOutLast(c, s.now, b, BatchLines(c, s, init), CommandLine(c, prev, m)[0]);
      } else {
        assert BatchLines(c, s, init) + [] == BatchLines(c, s, init);
      }
    }
  }

  // The storage has heard of every VM made in full so far, and knows them as created.
  ghost predicate Introduced(c: Config, s: State, st: Storage, s': State, st': Storage) {
    && st'.ok
    && (forall v :: v in st'.vms <==> v in st.vms || (v !in s.vms && Ready(c, s', v)))
    && forall v :: v in st'.vms ==> st'.vms[v] == if v in st.vms then st.vms[v] else CreatedVM
  }

  lemma LineIntroduces(c: Config, s: State, st: Storage, prev: State, p: Scene, m: Command)
    requires Introduced(c, s, st, prev, p.storage) && !Upsets(c, m) && c.storage !in c.components && c.storage !in p.vms
    requires prev.next !in prev.vms && prev.next !in st.vms && prev.next !in s.vms && c.storage != NIL
    ensures var s' := Execute(c, prev, m);
            if CommandLine(c, prev, m) == [] then Introduced(c, s, st, s', p.storage)
            else |CommandLine(c, prev, m)| == 1 && Introduced(c, s, st, s', Meet(c, p, CommandLine(c, prev, m)[0]).0.storage)
  {
    hide InsertBack, InsertFront, VMReact, DelaysOf, CommandLine;
    LineShape(c, prev, m);
  }

  lemma {:induction false} LinesIntroduce(c: Config, s: State, b: Scene, cmds: seq<Command>)
    requires WellFormed(c) && Known(c, s) && s.queue == [] && b.storage.ok && b.storage.vms.Keys == s.storage.vms.Keys
    requires Cast(c, s, b.vms) && forall m :: m in cmds ==> !Upsets(c, m)
    ensures Introduced(c, s, b.storage, ExecuteAll(c, s, cmds), PlayedOut(c, b, BatchLines(c, s, cmds)).storage)
  {
    hide WellFormed, Known, BatchLines, CommandLine, Meet, Execute, Introduced, Cast;
    if cmds == [] {
      NoLines(c, s);
      NothingTold(c, s, b.storage);
    } else {
      var init, m := cmds[..|cmds| - 1], cmds[|cmds| - 1];
      assert m in cmds && forall x :: x in init ==> x in cmds;
      LinesIntroduce(c, s, b, init);
      LinesLast(c, s, cmds);
      hide Upsets;
      var p, prev := PlayedOut(c, b, BatchLines(c, s, init)), ExecuteAll(c, s, init);
      NextIsNew(c, s, init);
      KnownStorage(c, s);
      StorageOffCast(c, s, b, init);
      LineIntroduces(c, s, b.storage, prev, p, m) by { StorageIsNoResource(c); StorageIsSomeone(c); }
      if CommandLine(c, prev, m) != [] {
        assert CommandLine(c, prev, m) == [CommandLine(c, prev, m)[0]];
        PlayedOutLast(c, s.now, b, BatchLines(c, s, init), CommandLine(c, prev, m)[0]);
      } else {
        assert BatchLines(c, s, init) + [] == BatchLines(c, s, init);
      }
    }
  }

  lemma StorageIsSomeone(c: Config)
    requires WellFormed(c)
    ensures c.storage != NIL
  {}

  lemma StorageOffCast(c: Config, s: State, b: Scene, cmds: seq<Command>)
    requires s.queue == [] && Cast(c, s, b.vms)
    ensures c.storage !in PlayedOut(c, b, BatchLines(c, s, cmds)).vms
  {
    hide BatchLines, PlayedOut;
    LinesStates(c, s, b, cmds);
  }

  lemma KnownStorage(c: Config, s: State)
    requires Known(c, s)
    ensures forall v :: v in s.storage.vms ==> v in s.vms
  {}

  lemma NothingTold(c: Config, s: State, st: Storage)
    requires Known(c, s) && st.ok && st.vms.Keys == s.storage.vms.Keys
    ensures Introduced(c, s, st, s, st)
  {
    KnownStorage(c, s);
    hide Known;
  }

  // The handle of the next VM is still free.
  lemma {:induction false} NextIsNew(c: Config, s: State, cmds: seq<Command>)
    requires Known(c, s)
    ensures var s' := ExecuteAll(c, s, cmds);
            && s.next <= s'.next && s'.next !in s'.vms && s'.next !in s.vms
            && (forall v :: v in s'.vms ==> v < s'.next) && forall v :: v in s.vms ==> v < s.next
  {
    if cmds == [] {
      hide Addressed, AllReady;
    } else {
      hide Known;
      NextIsNew(c, s, cmds[..|cmds| - 1]);
      OneNew(c, ExecuteAll(c, s, cmds[..|cmds| - 1]), cmds[|cmds| - 1]);
      hide Execute;
    }
  }

  lemma OneNew(c: Config, s: State, m: Command)
    requires forall v :: v in s.vms ==> v < s.next
    ensures s.next <= Execute(c, s, m).next && forall v :: v in Execute(c, s, m).vms ==> v < Execute(c, s, m).next
  {
    hide InsertBack, InsertFront;
  }

  lemma {:induction false} CastOfBatch(c: Config, s: State, cmds: seq<Command>)
    requires WellFormed(c) && Sound(c, s) && AllowedBatch(c, s, cmds)
    ensures Sound(c, ExecuteAll(c, s, cmds)) && Cast(c, s, ExecuteAll(c, s, cmds).vms)
  {
    hide WellFormed, Sound, Execute, AllowedBatch, Allowed, Cast, Known, Timely;
    if cmds == [] {
      CastFrom(c, s, s);
    } else {
      var init, m := cmds[..|cmds| - 1], cmds[|cmds| - 1];
      BatchPrefix(c, s, cmds);
      CastOfBatch(c, s, init);
      var prev := ExecuteAll(c, s, init);
      SoundExecute(c, prev, m);
      SoundKnown(c, s);
      NextIsNew(c, s, init);
      CastGrows(c, s, prev, m);
      CastFrom(c, s, Execute(c, prev, m));
    }
  }

  ghost predicate StatesKept(s: State, s': State) {
    forall v :: v in s'.vms ==> s'.vms[v].state == StateAtRest(s, v)
  }

  lemma CastFrom(c: Config, s: State, s': State)
    requires WellFormed(c) && Sound(c, s') && (s == s' || StatesKept(s, s'))
    ensures Cast(c, s, s'.vms)
  {
    SoundKnown(c, s');
    hide Sound, Addressed, AllReady, Timely, AllAddressed, WellFormed;
  }

  lemma CastGrows(c: Config, s: State, prev: State, m: Command)
    requires Cast(c, s, prev.vms) && prev.next !in s.vms
    ensures StatesKept(s, Execute(c, prev, m))
  {
    hide InsertBack, InsertFront;
  }

  // ----- the completions -----

  lemma StoppedLast(c: Config, s: State, cmds: seq<Command>, v: UUID)
    requires cmds != []
    ensures var init, m := cmds[..|cmds| - 1], cmds[|cmds| - 1];
            StoppedNow(c, s, cmds, v) <==> StoppedNow(c, s, init, v) || (m == StopRequest(v) && StopsNow(c, s, init, v))
  {
    hide StopsNow;
    var n := |cmds| - 1;
    var init := cmds[..n];
    assert forall h :: 0 <= h < n ==> init[h] == cmds[h] && init[..h] == cmds[..h];
    if h :| 0 <= h < n && init[h] == StopRequest(v) && StopsNow(c, s, init[..h], v) {
      assert cmds[h] == StopRequest(v) && StopsNow(c, s, cmds[..h], v);
    }
    if h :| 0 <= h <= n && cmds[h] == StopRequest(v) && StopsNow(c, s, cmds[..h], v) {
      if h < n {
        assert init[h] == StopRequest(v) && StopsNow(c, s, init[..h], v);
      }
    }
    assert init == cmds[..n];
  }

  // Of the VMs deleting themselves, those still do that no completed stop has upset.
  ghost predicate Deletes(c: Config, s: State, a: Scene, cmds: seq<Command>, p: Scene) {
    forall v :: v in a.vms && v in p.vms ==>
      (p.vms[v].state == Deleting <==> a.vms[v].state == Deleting && !StoppedNow(c, s, cmds, v))
  }

  lemma CompletionMeets(c: Config, s: State, p: Scene, before: seq<Command>, m: Command)
    requires SameCast(c, p, p) && Finishing(c, s, p.vms.Keys, before, m) != []
    ensures |Finishing(c, s, p.vms.Keys, before, m)| == 1 && (m.StopRequest? || m.DeleteRequest?) && m.target in p.vms
    ensures var e := Finishing(c, s, p.vms.Keys, before, m)[0];
            var p' := Meet(c, p, e).0;
            && SameCast(c, p, p') && p'.storage == p.storage
            && forall v :: v in p.vms ==>
                 (p'.vms[v].state == Deleting <==>
                    p.vms[v].state == Deleting && !(m == StopRequest(v) && StopsNow(c, s, before, v)))
  {
    hide DelaysOf, StateUnder;
  }

  lemma {:induction false} CompletionsMet(c: Config, s: State, a: Scene, cmds: seq<Command>)
    requires SameCast(c, a, a)
    ensures var p := PlayedOut(c, a, Completions(c, s, a.vms.Keys, cmds));
            SameCast(c, a, p) && p.storage == a.storage && Deletes(c, s, a, cmds, p)
  {
    hide Finishing, Meet, StoppedNow, StopsNow;
    if cmds == [] {
      NobodyStoppedYet(c, s);
    } else {
      var init, m := cmds[..|cmds| - 1], cmds[|cmds| - 1];
      CompletionsMet(c, s, a, init);
      var q, es := Completions(c, s, a.vms.Keys, init), Finishing(c, s, a.vms.Keys, init, m);
      var p := PlayedOut(c, a, q);
      forall v
        ensures StoppedNow(c, s, cmds, v) <==> StoppedNow(c, s, init, v) || (m == StopRequest(v) && StopsNow(c, s, init, v))
      {
        StoppedLast(c, s, cmds, v);
      }
      if es == [] {
        assert q + es == q;
        NoCompletion(c, s, a.vms.Keys, init, m);
      } else {
        CompletionMeets(c, s, p, init, m);
        assert es == [es[0]];
        PlayedOutLast(c, s.now, a, q, es[0]);
      }
    }
  }

  lemma NobodyStoppedYet(c: Config, s: State)
    ensures forall v :: !StoppedNow(c, s, [], v)
  {}

  lemma NoCompletion(c: Config, s: State, known: set<UUID>, before: seq<Command>, m: Command)
    requires Finishing(c, s, known, before, m) == []
    ensures forall v :: m == StopRequest(v) && StopsNow(c, s, before, v) ==> v !in known
    ensures forall v :: m == DeleteRequest(v) && DeletesNow(c, s, before, v) ==> v !in known
  {
    hide StateUnder;
  }

  // ----- the reports -----

  // What one completion posts: nothing the storage hears of, or one deletion report.
  lemma CompletionPosts(c: Config, s: State, p: Scene, before: seq<Command>, m: Command)
    requires WellFormed(c) && SameCast(c, p, p) && Finishing(c, s, p.vms.Keys, before, m) != []
    requires forall v :: v in p.vms ==> p.vms[v].storage in {NIL, c.storage}
    ensures |Finishing(c, s, p.vms.Keys, before, m)| == 1 && (m.StopRequest? || m.DeleteRequest?) && m.target in p.vms
    ensures var es := DueHere(c, s.now, Meet(c, p, Finishing(c, s, p.vms.Keys, before, m)[0]).1);
            var v := m.target;
            if m.DeleteRequest? && DeletesNow(c, s, before, v) && p.vms[v].state == Deleting && p.vms[v].storage == c.storage
            then es == [Event(s.now, c.storage, StorageEvent(VMDeleted, v))]
            else es == [] || (|es| == 1 && es[0].to == NIL)
  {
    hide DelaysOf, StateUnder, DueHere, StorageReact;
    NothingDueHere(c, s.now, []);
    var out := Meet(c, p, Finishing(c, s, p.vms.Keys, before, m)[0]).1;
    if out != [] {
      assert out == [out[0]];
      DueHereOne(c, s.now, out[0]);
    }
  }

  // The VMs after the whole batch, as the first instant left them, and the statuses they have.
  ghost predicate Final(c: Config, s: State, cmds: seq<Command>, a: Scene) {
    && SameCast(c, a, a) && a.storage.ok
    && (forall v :: v in a.vms ==> a.vms[v].storage in {NIL, c.storage} && a.vms[v].state == StateUnder(s, cmds, v))
    && (forall v :: Ready(c, ExecuteAll(c, s, cmds), v) <==> v in a.vms && a.vms[v].storage == c.storage)
    && forall v :: Ready(c, ExecuteAll(c, s, cmds), v) ==> (v in a.storage.vms <==> v !in s.vms || v in s.storage.vms)
  }

  // What the reports of the first `k` commands leave of the storage `st`.
  ghost predicate AfterReports(c: Config, s: State, cmds: seq<Command>, k: nat, st: Storage, st': Storage)
    requires k <= |cmds|
  {
    && (st'.ok <==> forall j :: 0 <= j < k ==> !Unexpected(c, s, cmds, j))
    && (st'.ok ==> st'.vms == st.vms - Dropped(c, s, cmds, k))
    && (!st'.ok ==> (Waits(st') <==> exists j :: 0 <= j < k && Unexpected(c, s, cmds, j) &&
                                                 WaitsBut(st, Dropped(c, s, cmds, j))))
  }

  ghost predicate Waits(st: Storage) {
    exists v :: v in st.vms && st.vms[v] == PendingVM
  }

  ghost predicate WaitsBut(st: Storage, gone: set<UUID>) {
    exists v :: v in st.vms && st.vms[v] == PendingVM && v !in gone
  }

  // The reports the completions of the first `k` commands post.
  function ReportEvents(c: Config, s: State, cmds: seq<Command>, a: Scene, k: nat): seq<Event>
    requires k <= |cmds|
  {
    Posted(c, s.now, a, Completions(c, s, a.vms.Keys, cmds[..k]))
  }

  // Which of them the `k`-th command adds.
  lemma ReportEventsLast(c: Config, s: State, cmds: seq<Command>, a: Scene, k: nat)
    requires WellFormed(c) && Final(c, s, cmds, a) && k < |cmds|
    ensures Reported(c, s, cmds, k) ==>
              ReportEvents(c, s, cmds, a, k + 1) ==
              ReportEvents(c, s, cmds, a, k) + [Event(s.now, c.storage, StorageEvent(VMDeleted, cmds[k].target))]
    ensures !Reported(c, s, cmds, k) ==>
              || ReportEvents(c, s, cmds, a, k + 1) == ReportEvents(c, s, cmds, a, k)
              || exists e: Event :: e.to == NIL && ReportEvents(c, s, cmds, a, k + 1) == ReportEvents(c, s, cmds, a, k) + [e]
  {
    hide WellFormed, Finishing, Meet, DueHere, StoppedNow, StateUnder, ExecuteAll, Ready, DeletesNow, PlayedOut, Posted;
    var before, m := cmds[..k], cmds[k];
    assert cmds[..k + 1][..k] == before;
    CompletionsMet(c, s, a, before);
    var q, es := Completions(c, s, a.vms.Keys, before), Finishing(c, s, a.vms.Keys, before, m);
    assert Completions(c, s, a.vms.Keys, cmds[..k + 1]) == q + es;
    var p := PlayedOut(c, a, q);
    if es == [] {
      assert q + es == q;
      NoCompletion(c, s, a.vms.Keys, before, m);
    } else {
      assert es == [es[0]] && (m.StopRequest? || m.DeleteRequest?) by { CompletionMeets(c, s, p, before, m); }
      CompletionPosts(c, s, p, before, m);
      PlayedOutLast(c, s.now, a, q, es[0]);
      var posts := DueHere(c, s.now, Meet(c, p, es[0]).1);
      if posts == [] {
        assert Posted(c, s.now, a, q) + [] == Posted(c, s.now, a, q);
      } else {
        assert posts == [posts[0]];
      }
    }
  }

  lemma IsDeletion(c: Config, s: State, cmds: seq<Command>, k: nat)
    requires Reported(c, s, cmds, k)
    ensures k < |cmds| && cmds[k].DeleteRequest?
  {}

  lemma {:induction false} DroppedGrows(c: Config, s: State, cmds: seq<Command>, j: nat, k: nat)
    requires j <= k <= |cmds|
    ensures Dropped(c, s, cmds, j) <= Dropped(c, s, cmds, k)
  {
    hide Reported;
    if j < k {
      DroppedGrows(c, s, cmds, j, k - 1);
    }
  }

  lemma DroppedLast(c: Config, s: State, cmds: seq<Command>, k: nat)
    requires k < |cmds|
    ensures Dropped(c, s, cmds, k + 1) ==
            Dropped(c, s, cmds, k) + if Reported(c, s, cmds, k) then {cmds[k].target} else {}
  {
    hide Reported;
  }

  lemma UnexpectedMeans(c: Config, s: State, cmds: seq<Command>, a: Scene, k: nat)
    requires Final(c, s, cmds, a) && Reported(c, s, cmds, k)
    ensures Unexpected(c, s, cmds, k) <==> cmds[k].target !in a.storage.vms || cmds[k].target in Dropped(c, s, cmds, k)
  {
    hide Ready, StateUnder, StoppedNow, DeletesNow, Dropped, ExecuteAll;
  }

  // A deletion report makes the storage fail exactly if it is unexpected.
  lemma OneReport(c: Config, s: State, cmds: seq<Command>, a: Scene, k: nat, st: Storage)
    requires Final(c, s, cmds, a) && k < |cmds| && Reported(c, s, cmds, k)
    requires AfterReports(c, s, cmds, k, a.storage, st)
    ensures var e := Event(s.now, c.storage, StorageEvent(VMDeleted, cmds[k].target));
            AfterReports(c, s, cmds, k + 1, a.storage, StorageReact(st, e))
  {
    hide Reported, Final, Unexpected, Dropped, Waits, WaitsBut;
    IsDeletion(c, s, cmds, k);
    DroppedLast(c, s, cmds, k);
    UnexpectedMeans(c, s, cmds, a, k);
    var v := cmds[k].target;
    if st.ok {
      assert a.storage.vms - Dropped(c, s, cmds, k + 1) == (a.storage.vms - Dropped(c, s, cmds, k)) - {v};
      WaitsAmong(a.storage, Dropped(c, s, cmds, k), Storage(false, st.vms));
    } else if WaitsBut(a.storage, Dropped(c, s, cmds, k)) {
      var j :| 0 <= j < k && Unexpected(c, s, cmds, j);
      DroppedGrows(c, s, cmds, j, k);
      WaitsLess(a.storage, Dropped(c, s, cmds, j), Dropped(c, s, cmds, k));
    }
  }

  lemma WaitsAmong(st: Storage, gone: set<UUID>, st': Storage)
    requires st'.vms == st.vms - gone
    ensures Waits(st') <==> WaitsBut(st, gone)
  {
    assert forall v :: v in st'.vms ==> v in st.vms && v !in gone;
    assert forall v :: v in st.vms && v !in gone ==> v in st'.vms;
  }

  lemma WaitsLess(st: Storage, some: set<UUID>, more: set<UUID>)
    requires some <= more && WaitsBut(st, more)
    ensures WaitsBut(st, some)
  {}

  lemma ReportsUnchanged(c: Config, s: State, cmds: seq<Command>, k: nat, st: Storage, st': Storage)
    requires k < |cmds| && !Reported(c, s, cmds, k) && AfterReports(c, s, cmds, k, st, st')
    ensures AfterReports(c, s, cmds, k + 1, st, st')
  {
    hide Reported, Unexpected, Dropped, Waits, WaitsBut;
    DroppedLast(c, s, cmds, k);
    NotUnexpected(c, s, cmds, k);
  }

  lemma NotUnexpected(c: Config, s: State, cmds: seq<Command>, k: nat)
    requires !Reported(c, s, cmds, k)
    ensures !Unexpected(c, s, cmds, k)
  {
    hide Reported;
  }

  lemma NilMeets(c: Config, z: Scene, e: Event)
    requires WellFormed(c) && e.to == NIL && NIL !in z.vms
    ensures Meet(c, z, e) == (z, [])
  {}

  lemma StorageMeets(c: Config, z: Scene, e: Event)
    requires e.to == c.storage
    ensures Meet(c, z, e) == (z.(storage := StorageReact(z.storage, e)), [])
  {
    hide StorageReact;
  }

  // The reports, heard one after the other.
  lemma {:induction false} ReportsHeard(c: Config, s: State, cmds: seq<Command>, a: Scene, z: Scene, k: nat)
    requires WellFormed(c) && Final(c, s, cmds, a) && SameCast(c, a, z) && z.storage == a.storage && k <= |cmds|
    ensures var q := ReportEvents(c, s, cmds, a, k);
            && PlayedOut(c, z, q).vms == z.vms && Posted(c, s.now, z, q) == []
            && AfterReports(c, s, cmds, k, a.storage, PlayedOut(c, z, q).storage)
  {
    hide WellFormed, Final, Reported, AfterReports, ReportEvents, Meet, DueHere, StorageReact;
    if k == 0 {
      NoReportsYet(c, s, cmds, a);
    } else {
      ReportsHeard(c, s, cmds, a, z, k - 1);
      ReportEventsLast(c, s, cmds, a, k - 1);
      NothingDueHere(c, s.now, []);
      var q := ReportEvents(c, s, cmds, a, k - 1);
      var y := PlayedOut(c, z, q);
      hide PlayedOut, Posted;
      if Reported(c, s, cmds, k - 1) {
        IsDeletion(c, s, cmds, k - 1);
        var e := Event(s.now, c.storage, StorageEvent(VMDeleted, cmds[k - 1].target));
        PlayedOutLast(c, s.now, z, q, e);
        StorageMeets(c, y, e);
        OneReport(c, s, cmds, a, k - 1, y.storage);
      } else {
        ReportsUnchanged(c, s, cmds, k - 1, a.storage, y.storage);
        if ReportEvents(c, s, cmds, a, k) != q {
          var e: Event :| e.to == NIL && ReportEvents(c, s, cmds, a, k) == q + [e];
          PlayedOutLast(c, s.now, z, q, e);
          NilMeets(c, y, e);
        }
      }
    }
  }

  lemma NoReportsYet(c: Config, s: State, cmds: seq<Command>, a: Scene)
    requires Final(c, s, cmds, a)
    ensures ReportEvents(c, s, cmds, a, 0) == [] && AfterReports(c, s, cmds, 0, a.storage, a.storage)
  {
    hide StateUnder, ExecuteAll, Ready, Unexpected;
    assert a.storage.vms - {} == a.storage.vms;
  }

  // ----- the whole instant -----

  lemma {:induction false} AskedMeans(cmds: seq<Command>, v: UUID)
    ensures v in Asked(cmds) <==> ProvisionRequest(v) in cmds
  {
    if cmds != [] {
      var init, m := cmds[..|cmds| - 1], cmds[|cmds| - 1];
      assert cmds == init + [m];
      AskedMeans(init, v);
    }
  }

  // Who is pending once the batch has been heard, apart from those gone: a created VM asked for.
  lemma WhoWaits(c: Config, s: State, cmds: seq<Command>, b: Storage, a: Storage, gone: set<UUID>)
    requires AfterAsks(s.storage, Asked(cmds), b) && Introduced(c, s, b, ExecuteAll(c, s, cmds), a)
    requires forall v :: !Pending(s, v)
    ensures WaitsBut(a, gone) <==> StillAsked(s, cmds, gone)
  {
    hide Asked, ExecuteAll, Ready;
    forall v
      ensures v in a.vms && a.vms[v] == PendingVM <==> Is(s, v, CreatedVM) && ProvisionRequest(v) in cmds
    {
      AskedMeans(cmds, v);
      assert !Pending(s, v);
    }
    if WaitsBut(a, gone) {
      var v :| v in a.vms && a.vms[v] == PendingVM && v !in gone;
      var i :| 0 <= i < |cmds| && cmds[i] == ProvisionRequest(v);
      assert AsksCreated(s, cmds[i]);
    }
    if i :| 0 <= i < |cmds| && AsksCreated(s, cmds[i]) && cmds[i].target !in gone {
      assert cmds[i] == ProvisionRequest(cmds[i].target);
      assert cmds[i].target in a.vms;
    }
  }

  // The scene once the batch has been heard, before anything completes.
  lemma HeardOut(c: Config, s: State, cmds: seq<Command>) returns (b: Scene, a: Scene)
    requires WellFormed(c) && Sound(c, s) && s.storage.ok && s.queue == [] && AllowedBatch(c, s, cmds)
    requires !Faulty(c, s, cmds)
    ensures var s' := ExecuteAll(c, s, cmds);
            && AfterAsks(s.storage, Asked(cmds), b.storage) && Introduced(c, s, b.storage, s', a.storage)
            && SameCast(c, Scene(s'.vms, s.storage), a) && (forall v :: v in a.vms ==> a.vms[v].state == StateUnder(s, cmds, v))
            && Fate(c, s.now, s') == Settled(c, s.now, a, Completions(c, s, a.vms.Keys, cmds))
  {
    hide WellFormed, Sound, AllowedBatch, ExecuteAll, Cast, StateUnder, AfterAsks, Introduced, AskEvents, OrdersSent, DueHere,
        PlayedOut, Posted, Completions, Settled, Asked, Faulty, Known, Timely, SceneOf, SameCast;
    var t, s', us := s.now, ExecuteAll(c, s, cmds), Asked(cmds);
    QueueOfBatch(c, s, cmds);
    CastOfBatch(c, s, cmds);
    SoundKnown(c, s);
    var a0, q := SceneOf(s'), AskEvents(c, t, us);
    SceneFields(s');
    AsksAreKnown(c, s, cmds);
    AskEventsPlayed(c, t, a0, us);
    b := PlayedOut(c, a0, q);
    a := PlayedOut(c, b, BatchLines(c, s, cmds));
    DueHereConcat(c, t, q, OrdersSent(c, s, cmds));
    StorageIsNoResource(c);
    AskEventsDue(c, t, us);
    WaveSettles(c, t, a0, q, BatchLines(c, s, cmds));
    assert BatchLines(c, s, cmds) + [] == BatchLines(c, s, cmds);
    OneWave(c, t, b, BatchLines(c, s, cmds));
    LinesStates(c, s, b, cmds);
    LinesPost(c, s, b, cmds);
    AsksKeep(s.storage, us, b.storage);
    LinesIntroduce(c, s, b, cmds);
    SameAgain(c, a0, b, a, s.storage);
  }

  lemma SceneFields(s: State)
    ensures SceneOf(s).vms == s.vms && SceneOf(s).storage == s.storage
  {}

  lemma AsksKeep(st: Storage, us: seq<UUID>, st': Storage)
    requires AfterAsks(st, us, st')
    ensures st'.ok && st'.vms.Keys == st.vms.Keys
  {}

  lemma SameAgain(c: Config, a0: Scene, b: Scene, a: Scene, st: Storage)
    requires SameCast(c, b, a) && b.vms == a0.vms
    ensures a.vms.Keys == b.vms.Keys && SameCast(c, Scene(a0.vms, st), a)
  {}

  // Without a fault nobody unknown is asked for, and nothing upsets the storage.
  lemma AsksAreKnown(c: Config, s: State, cmds: seq<Command>)
    requires WellFormed(c) && Sound(c, s) && s.storage.ok && !Faulty(c, s, cmds)
    ensures forall u :: u in Asked(cmds) ==> u in s.storage.vms
    ensures forall v :: v in s.storage.vms ==> s.storage.vms[v] != StoppedVM
    ensures forall m :: m in cmds ==> !Upsets(c, m)
  {
    hide WellFormed, Sound, Asked, Upsets;
    NobodyStopped(c, s);
    forall v | v in s.storage.vms
      ensures s.storage.vms[v] != StoppedVM
    {
      assert !Is(s, v, StoppedVM);
    }
    forall u | u in Asked(cmds)
      ensures u in s.storage.vms
    {
      AskedMeans(cmds, u);
      var i :| 0 <= i < |cmds| && cmds[i] == ProvisionRequest(u);
      assert !AsksUnknown(s, cmds[i]);
    }
  }

  lemma FinalScene(c: Config, s: State, cmds: seq<Command>, b: Scene, a: Scene)
    requires Sound(c, ExecuteAll(c, s, cmds)) && SameCast(c, Scene(ExecuteAll(c, s, cmds).vms, s.storage), a)
    requires AfterAsks(s.storage, Asked(cmds), b.storage) && Introduced(c, s, b.storage, ExecuteAll(c, s, cmds), a.storage)
    requires forall v :: v in a.vms ==> a.vms[v].state == StateUnder(s, cmds, v)
    ensures Final(c, s, cmds, a)
  {
    hide ExecuteAll, StateUnder, Sound, Timely, Asked, AllAddressed, AllReady;
    SoundKnown(c, ExecuteAll(c, s, cmds));
  }

  // Where the first instant leads after a batch without a fault.
  lemma FaultlessFate(c: Config, s: State, cmds: seq<Command>)
    requires WellFormed(c) && Sound(c, s) && s.storage.ok && s.queue == [] && AllowedBatch(c, s, cmds)
    requires !Faulty(c, s, cmds)
    ensures Lost(Fate(c, s.now, ExecuteAll(c, s, cmds))) <==> Misreported(c, s, cmds)
  {
    hide WellFormed, Sound, AllowedBatch, ExecuteAll, StateUnder, AfterAsks, Introduced, Completions, Settled, Asked, Faulty,
        Fate, SameCast, Final, PlayedOut, Posted, AfterReports, Unexpected, StillAsked, WaitsBut, Cast;
    var n := |cmds|;
    var b, a := HeardOut(c, s, cmds);
    CastOfBatch(c, s, cmds);
    FinalScene(c, s, cmds, b, a);
    var q := Completions(c, s, a.vms.Keys, cmds);
    OneWave(c, s.now, a, q);
    SameSelf(c, s, cmds, a);
    CompletionsMet(c, s, a, cmds);
    var z := PlayedOut(c, a, q);
    assert cmds[..n] == cmds;
    assert ReportEvents(c, s, cmds, a, n) == Posted(c, s.now, a, q);
    ReportsHeard(c, s, cmds, a, z, n);
    OneWave(c, s.now, z, ReportEvents(c, s, cmds, a, n));
    var end := PlayedOut(c, z, ReportEvents(c, s, cmds, a, n));
    SettledNothing(c, s.now, end);
    LostAfterReports(c, s, cmds, a.storage, end);
    NobodyPending(c, s);
    forall j | 0 <= j < n
      ensures WaitsBut(a.storage, Dropped(c, s, cmds, j)) <==> StillAsked(s, cmds, Dropped(c, s, cmds, j))
    {
      WhoWaits(c, s, cmds, b.storage, a.storage, Dropped(c, s, cmds, j));
    }
  }

  lemma SameSelf(c: Config, s: State, cmds: seq<Command>, a: Scene)
    requires Final(c, s, cmds, a)
    ensures SameCast(c, a, a)
  {
    hide SameCast, StateUnder, ExecuteAll, Ready;
  }

  lemma SettledNothing(c: Config, t: int, a: Scene)
    ensures Settled(c, t, a, []) == a
  {}

  lemma LostAfterReports(c: Config, s: State, cmds: seq<Command>, st: Storage, end: Scene)
    requires AfterReports(c, s, cmds, |cmds|, st, end.storage)
    ensures Lost(end) <==> exists j :: 0 <= j < |cmds| && Unexpected(c, s, cmds, j) && WaitsBut(st, Dropped(c, s, cmds, j))
  {
    hide Unexpected, Dropped, WaitsBut;
  }

  // A batch given at rest places nobody.
  lemma {:induction false} BatchUnplaced(c: Config, s: State, cmds: seq<Command>)
    requires s.queue == []
    ensures Unplaced(ExecuteAll(c, s, cmds).queue)
  {
    if cmds != [] {
      BatchUnplaced(c, s, cmds[..|cmds| - 1]);
      CommandUnplaced(c, ExecuteAll(c, s, cmds[..|cmds| - 1]), cmds[|cmds| - 1]);
      hide Execute;
    }
  }

  lemma CommandUnplaced(c: Config, s: State, m: Command)
    requires Unplaced(s.queue)
    ensures Unplaced(Execute(c, s, m).queue)
  {
    hide InsertBack, InsertFront, Execute;
    ExecuteShape(c, s, m);
    var es := CommandEvents(c, s, m);
    if es != [] {
      InsertMembers(s.queue, es[0]);
    }
  }

  // From any state at rest with a working storage, after any allowed batch without a fault: the
  // drain ends unless a deletion is reported within the instant that finds its VM gone while a
  // created VM was asked for.
  lemma FaultlessDrainEnds(c: Config, s: State, cmds: seq<Command>, ords: nat -> Order)
    requires WellFormed(c) && Sound(c, s) && s.storage.ok && s.queue == [] && AllowedBatch(c, s, cmds)
    requires ValidOrders(ords) && !Faulty(c, s, cmds)
    ensures Ends(c, ExecuteAll(c, s, cmds), ords) <==> !Misreported(c, s, cmds)
  {
    hide WellFormed, Sound, AllowedBatch, ValidOrders, Ends, GetsStuck, ExecuteAll, Faulty, Misreported, Unplaced, Fate, Lost,
        Cast, AskEvents, OrdersSent;
    var s' := ExecuteAll(c, s, cmds);
    CastOfBatch(c, s, cmds);
    QueueOfBatch(c, s, cmds);
    BatchUnplaced(c, s, cmds);
    FateDecides(c, s', ords);
    FaultlessFate(c, s, cmds);
    EndsUnlessStuck(c, s', ords);
    if GetsStuck(c, s', ords) {
      NeverEndsOnceStuck(c, s', ords);
    }
  }

  // The storage is made to fail while a VM is pending: by the batch itself, or by a deletion report.
  ghost predicate Fatal(c: Config, s: State, cmds: seq<Command>) {
    if Faulty(c, s, cmds) then exists i: nat :: LeavesPending(s, cmds, i) else Misreported(c, s, cmds)
  }

  // A storage that has failed by the time all is at rest places nobody any more.
  lemma FailedDrainEnds(c: Config, s: State, cmds: seq<Command>, ords: nat -> Order)
    requires WellFormed(c) && Sound(c, s) && !s.storage.ok && s.queue == [] && AllowedBatch(c, s, cmds) && ValidOrders(ords)
    ensures !GetsStuck(c, ExecuteAll(c, s, cmds), ords)
  {
    hide WellFormed, Sound, AllowedBatch, ValidOrders, ExecuteAll, GetsStuck, Cast, AskEvents, OrdersSent;
    var s' := ExecuteAll(c, s, cmds);
    CastOfBatch(c, s, cmds);
    QueueOfBatch(c, s, cmds);
    NobodyPending(c, s);
    StuckAtOnce(c, s', ords);
    assert forall v :: Pending(s', v) == Pending(s, v);
  }

  // From any state at rest, after any allowed batch: the drain ends unless the storage still
  // worked and the batch is fatal.
  lemma DrainEndsIffNotFatal(c: Config, s: State, cmds: seq<Command>, ords: nat -> Order)
    requires WellFormed(c) && Sound(c, s) && s.queue == [] && AllowedBatch(c, s, cmds) && ValidOrders(ords)
    ensures Ends(c, ExecuteAll(c, s, cmds), ords) <==> !(s.storage.ok && Fatal(c, s, cmds))
  {
    hide WellFormed, Sound, AllowedBatch, ValidOrders, Ends, ExecuteAll, Faulty, Misreported, LeavesPending, GetsStuck, Cast;
    if !s.storage.ok {
      FailedDrainEnds(c, s, cmds, ords);
      CastOfBatch(c, s, cmds);
      EndsUnlessStuck(c, ExecuteAll(c, s, cmds), ords);
    } else if Faulty(c, s, cmds) {
      FaultyDrainEnds(c, s, cmds, ords);
    } else {
      FaultlessDrainEnds(c, s, cmds, ords);
    }
  }

  // ----- when deleting takes time -----

  predicate SlowDeletes(c: Config, cmds: seq<Command>) {
    forall m :: m in cmds && m.DeleteRequest? ==> DelaysOf(c, m.target).delete > 0
  }

  // Where every VM the batch deletes takes time to, only the batch itself can make the storage fail.
  lemma AnyDrainEndsIffNotDoomed(c: Config, s: State, cmds: seq<Command>, ords: nat -> Order)
    requires WellFormed(c) && Sound(c, s) && s.storage.ok && s.queue == [] && AllowedBatch(c, s, cmds)
    requires ValidOrders(ords) && SlowDeletes(c, cmds)
    ensures Ends(c, ExecuteAll(c, s, cmds), ords) <==> !Doomed(c, s, cmds)
  {
    hide WellFormed, Sound, AllowedBatch, ValidOrders, Ends, ExecuteAll, Faulty, LeavesPending, SlowDeletes, Misreported;
    DrainEndsIffNotFatal(c, s, cmds, ords);
    NeverMisreported(c, s, cmds);
  }

  lemma NeverMisreported(c: Config, s: State, cmds: seq<Command>)
    requires SlowDeletes(c, cmds)
    ensures !Misreported(c, s, cmds)
  {
    hide StillAsked, Dropped, StateUnder, ExecuteAll;
    forall j | 0 <= j < |cmds|
      ensures !Unexpected(c, s, cmds, j)
    {
      assert cmds[j] in cmds;
    }
  }
}
