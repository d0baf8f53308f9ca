/**
 Provisioning end to end: from rest, with the storage working and the first server running,
 any number of created VMs that are requested together all end up running on the first server,
 each at exactly its own time, and nothing else changes.
 */
module EndToEnd {
  import opened Types
  import opened FlatQueue
  import opened Handlers
  import opened Simulator
  import opened StepFacts
  import opened Clock
  import opened Registry
  import opened Effects
  import opened Deciding
  import opened Placement
  import opened Soundness
  import opened Draining
  import Lives
  import PowerFlow
  import HostedFirst

  // At rest, and every VM of `vs` created but never requested.
  ghost predicate AwaitsRequests(c: Config, s: State, vs: set<UUID>) {
    && WellFormed(c) && Sound(c, s) && s.queue == [] && s.storage.ok
    && c.first in s.power && s.power[c.first] == On
    && forall v :: v in vs ==> Is(s, v, CreatedVM) && HasState(s, v, {Provisioning})
  }

  function StartDelay(c: Config, v: UUID): nat {
    DelaysOf(c, v).start
  }

  // The moment a VM's start completes, when its request is made at the time of `s0`.
  function StartDone(c: Config, s0: State, v: UUID): Event {
    Event(s0.now + StartDelay(c, v), v, VMEvent(StartCompleted))
  }

  predicate HostedHere(c: Config, s: State, v: UUID) {
    c.first in s.hosted && v in s.hosted[c.first]
  }

  // ----- the stages of one provisioning -----

  datatype Stage = Asked | Waiting | Decided | Moving | Placed | Booting | Up | Done

  function StatusOf(k: Stage): VMStatus {
    match k
    case Asked => CreatedVM
    case Waiting | Decided => PendingVM
    case Done => HostedVM
    case _ => ProvisioningVM
  }

  function StateOf(k: Stage): VMState {
    match k
    case Booting => Starting
    case Up | Done => Running
    case _ => Provisioning
  }

  predicate HereAt(k: Stage) {
    k in {Placed, Booting, Up, Done}
  }

  // The events in flight for a VM at each stage.
  function Flying(c: Config, v: UUID, k: Stage): set<Token> {
    match k
    case Asked => {Requested(c, v)}
    case Waiting => {}
    case Decided => {Scheduled(c, v), Provision(c, v)}
    case Moving => {Provision(c, v)}
    case Placed => {ToVM(v, Start)}
    case Booting => {ToVM(v, StartCompleted)}
    case Up => {Hosted(c, v)}
    case Done => {}
  }

  // Where handling an event about the VM takes it.
  function After(k: Stage): Stage {
    match k
    case Asked => Waiting
    case Decided => Moving
    case Moving => Placed
    case Placed => Booting
    case Booting => Up
    case Up => Done
    case _ => k
  }

  function One(b: bool): nat { if b then 1 else 0 }

  ghost predicate Counts(c: Config, s: State, v: UUID, ts: set<Token>) {
    && N(s, Requested(c, v)) == One(Requested(c, v) in ts)
    && N(s, Scheduled(c, v)) == One(Scheduled(c, v) in ts)
    && N(s, Provision(c, v)) == One(Provision(c, v) in ts)
    && N(s, ToVM(v, Start)) == One(ToVM(v, Start) in ts)
    && N(s, ToVM(v, StartCompleted)) == One(ToVM(v, StartCompleted) in ts)
    && N(s, Hosted(c, v)) == One(Hosted(c, v) in ts)
  }

  ghost predicate AtStage(c: Config, s: State, v: UUID, k: Stage) {
    && Is(s, v, StatusOf(k)) && HasState(s, v, {StateOf(k)})
    && (HostedHere(c, s, v) <==> HereAt(k))
    && Counts(c, s, v, Flying(c, v, k))
  }

  ghost predicate Underway(c: Config, s: State, v: UUID) {
    exists k :: AtStage(c, s, v, k)
  }

  // The events such a provisioning may have in flight, with their exact times.
  predicate InFlight(c: Config, s0: State, vs: set<UUID>, e: Event) {
    match e.body
    case StorageEvent(ty, v) =>
      && v in vs && e.to == c.storage
      && ((ty in {VMProvisionRequested, VMScheduled} && e.time == s0.now) ||
          (ty == VMHosted && e.time == s0.now + StartDelay(c, v)))
    case ServerEvent(ty, v) => v in vs && e.to == c.first && ty == ProvisionVM && e.time == s0.now
    case VMEvent(ty) =>
      && e.to in vs
      && ((ty == Start && e.time == s0.now) || (ty == StartCompleted && e.time == s0.now + StartDelay(c, e.to)))
    case ResourceEvent(_) => false
  }

  // Everything outside the provisioning is as it was.
  ghost predicate OthersKept(c: Config, s0: State, s: State, vs: set<UUID>) {
    && s.power == s0.power && s.hosted.Keys == s0.hosted.Keys
    && (forall x :: x in s.hosted && x != c.first ==> s.hosted[x] == s0.hosted[x])
    && (forall v :: v !in vs ==> OtherKept(c, s0, s, v))
  }

  ghost predicate OtherKept(c: Config, s0: State, s: State, v: UUID) {
    && (v in s.vms <==> v in s0.vms) && (v in s.vms ==> s.vms[v] == s0.vms[v])
    && (v in s.storage.vms <==> v in s0.storage.vms)
    && (v in s.storage.vms ==> s.storage.vms[v] == s0.storage.vms[v])
    && (HostedHere(c, s, v) <==> HostedHere(c, s0, v))
  }

  // A VM runs exactly if its start has completed, at its own time.
  ghost predicate RunsOnTime(c: Config, s0: State, s: State, vs: set<UUID>) {
    && |s0.log| <= |s.log|
    && forall v :: v in vs ==> (HasState(s, v, {Running}) <==> StartDone(c, s0, v) in s.log[|s0.log|..])
  }

  // A VM about which nothing is in flight is waiting for the world update that ends this instant.
  ghost predicate WaitsNow(c: Config, s0: State, s: State) {
    forall v :: Pending(s, v) && N(s, Scheduled(c, v)) == 0 ==> s.now == s0.now
  }

  ghost predicate Going(c: Config, s0: State, s: State, vs: set<UUID>) {
    && s.storage.ok && c.first in s.power && s.power[c.first] == On
    && (forall e :: e in s.queue ==> InFlight(c, s0, vs, e))
    && (forall v :: v in vs ==> Underway(c, s, v))
    && OthersKept(c, s0, s, vs)
    && RunsOnTime(c, s0, s, vs)
    && WaitsNow(c, s0, s)
  }

  // ----- one dispatch -----

  lemma GoingVM(c: Config, s0: State, s: State, vs: set<UUID>, v: UUID)
    requires Going(c, s0, s, vs) && v in vs
    ensures Underway(c, s, v) && v in s.vms && v in s.storage.vms
  {
    hide OthersKept, RunsOnTime, InFlight, WaitsNow, Counts, HostedHere;
  }

  lemma GoingFacts(c: Config, s0: State, s: State, vs: set<UUID>)
    requires Going(c, s0, s, vs)
    ensures s.storage.ok && c.first in s.power && s.power[c.first] == On
    ensures OthersKept(c, s0, s, vs) && RunsOnTime(c, s0, s, vs) && WaitsNow(c, s0, s)
    ensures forall e :: e in s.queue ==> InFlight(c, s0, vs, e)
  {
    hide Underway, OthersKept, RunsOnTime, InFlight, WaitsNow;
  }

  predicate Concerns(c: Config, t: Token, v: UUID) {
    t in {Requested(c, v), Scheduled(c, v), Provision(c, v), ToVM(v, Start), ToVM(v, StartCompleted), Hosted(c, v)}
  }

  // The VM an event in flight is about.
  function Subject(e: Event): UUID {
    match e.body
    case StorageEvent(_, v) => v
    case ServerEvent(_, v) => v
    case _ => e.to
  }

  lemma SubjectTokens(c: Config, s0: State, vs: set<UUID>, e: Event, v: UUID)
    requires InFlight(c, s0, vs, e)
    requires v != c.storage && v != c.first
    ensures Subject(e) in vs
    ensures v == Subject(e) ==> Concerns(c, Tok(e), v)
    ensures v != Subject(e) ==> !Concerns(c, Tok(e), v) && e.to != v
    ensures Tok(e) != Created(c, v) && Tok(e) != Deleted(c, v)
  {}

  lemma ActorNames(c: Config, s: State, v: UUID)
    requires WellFormed(c) && Known(c, s) && v in s.vms
    ensures v != c.storage && v != c.first
  {}

  // The events of a provisioning never fail a working storage.
  lemma StaysOk(c: Config, s: State, ord: Order, s0: State, vs: set<UUID>)
    requires WellFormed(c) && Known(c, s) && s.queue != [] && s.storage.ok
    requires InFlight(c, s0, vs, s.queue[0])
    requires Subject(s.queue[0]) in s.vms && Subject(s.queue[0]) in s.storage.vms
    ensures Dispatch(c, s, ord).storage.ok
  {
    ActorNames(c, s, Subject(s.queue[0]));
    hide Dispatch, Known;
    StorageAfter(c, s, ord);
  }

  // What the head does to the status and the host of one VM.
  lemma StageAfter(c: Config, s: State, ord: Order, v: UUID)
    requires WellFormed(c) && Known(c, s) && s.queue != [] && Dispatch(c, s, ord).storage.ok && c.first in s.power
    ensures var t, d := Tok(s.queue[0]), Dispatch(c, s, ord);
            && (t == Requested(c, v) && Is(s, v, CreatedVM) ==> Is(d, v, PendingVM))
            && (t == Scheduled(c, v) ==> Is(d, v, ProvisioningVM))
            && (t == Hosted(c, v) ==> Is(d, v, HostedVM))
            && (t != Created(c, v) && t != Requested(c, v) && t != Scheduled(c, v) && t != Hosted(c, v) && t != Deleted(c, v) ==>
                forall st :: Is(d, v, st) == Is(s, v, st))
            && (HostedHere(c, d, v) <==> HostedHere(c, s, v) || (t == Provision(c, v) && s.power[c.first] == On))
  {
    StatusAfter(c, s, ord, v);
    assert Addressed(c, s, s.queue[0]);
    assert c.first in s.hosted;
    GuestsAfter(c, s, ord, c.first);
    hide Dispatch, Known, WellFormed;
  }

  lemma StateAfter(c: Config, s: State, ord: Order, v: UUID)
    requires WellFormed(c) && Known(c, s) && s.queue != []
    ensures var t, d := Tok(s.queue[0]), Dispatch(c, s, ord);
            && (t.to != v ==> forall sts :: HasState(d, v, sts) == HasState(s, v, sts))
            && (t == ToVM(v, Start) && HasState(s, v, {Provisioning}) ==> HasState(d, v, {Starting}))
            && (t == ToVM(v, StartCompleted) && HasState(s, v, {Starting}) ==> HasState(d, v, {Running}))
            && (v in d.vms <==> v in s.vms)
  {
    VMAfter(c, s, ord, v);
    hide Dispatch, Known, WellFormed;
  }

  // What the head does to the events in flight for one VM.
  lemma TokensAfter(c: Config, s: State, ord: Order, v: UUID)
    requires WellFormed(c) && Known(c, s) && s.queue != [] && c.first in s.power && s.power[c.first] == On
    ensures var t, d := Tok(s.queue[0]), Dispatch(c, s, ord);
            && N(d, Requested(c, v)) == N(s, Requested(c, v)) - One(t == Requested(c, v))
            && N(d, Scheduled(c, v)) == N(s, Scheduled(c, v)) - One(t == Scheduled(c, v))
            && N(d, Provision(c, v)) == N(s, Provision(c, v)) - One(t == Provision(c, v))
            && N(d, ToVM(v, Start)) == N(s, ToVM(v, Start)) - One(t == ToVM(v, Start)) + One(t == Provision(c, v))
            && N(d, ToVM(v, StartCompleted)) == N(s, ToVM(v, StartCompleted)) - One(t == ToVM(v, StartCompleted))
                                                + One(t == ToVM(v, Start) && HasState(s, v, {Provisioning}))
            && N(d, Hosted(c, v)) == N(s, Hosted(c, v)) - One(t == Hosted(c, v))
                                     + One(t == ToVM(v, StartCompleted) && HasState(s, v, {Starting}))
  {
    hide Dispatch, Known, WellFormed, Spawn, N;
    Causes(c, s, v);
    TokenAfter(c, s, ord, Requested(c, v));
    TokenAfter(c, s, ord, Scheduled(c, v));
    TokenAfter(c, s, ord, Provision(c, v));
    TokenAfter(c, s, ord, ToVM(v, Start));
    TokenAfter(c, s, ord, ToVM(v, StartCompleted));
    TokenAfter(c, s, ord, Hosted(c, v));
  }

  // A VM the head is not about stays where it is.
  lemma Bystander(c: Config, s0: State, s: State, ord: Order, vs: set<UUID>, v: UUID, k: Stage)
    requires WellFormed(c) && Known(c, s) && s.queue != [] && Dispatch(c, s, ord).storage.ok
    requires c.first in s.power && s.power[c.first] == On
    requires InFlight(c, s0, vs, s.queue[0]) && v in s.vms && v != Subject(s.queue[0])
    requires AtStage(c, s, v, k)
    ensures AtStage(c, Dispatch(c, s, ord), v, k)
  {
    hide Dispatch, Known, WellFormed, N, InFlight, Subject, HostedHere, Is, HasState;
    ActorNames(c, s, v);
    SubjectTokens(c, s0, vs, s.queue[0], v);
    StageAfter(c, s, ord, v);
    StateAfter(c, s, ord, v);
    TokensAfter(c, s, ord, v);
  }

  // The one event that can be next for a VM at each stage: a placement never overtakes its decision.
  function NextOf(c: Config, v: UUID, k: Stage): set<Token> {
    if k == Decided then {Scheduled(c, v)} else Flying(c, v, k)
  }

  lemma Flies(c: Config, s: State, v: UUID, k: Stage)
    requires s.queue != [] && DecisionsOrderly(c, s)
    requires v != c.storage && v != c.first && c.first != c.storage
    requires Counts(c, s, v, Flying(c, v, k)) && Concerns(c, Tok(s.queue[0]), v)
    ensures Tok(s.queue[0]) in NextOf(c, v, k)
  {
    HeadQueued(s);
    hide N, DecisionsOrderly;
    if N(s, Scheduled(c, v)) >= 1 {
      DecisionBeforePlacement(c, s, v);
    }
  }

  // One event lands and the next takes off.
  lemma Lands(c: Config, v: UUID, k: Stage, t: Token)
    requires v != c.storage && v != c.first && c.first != c.storage && t in NextOf(c, v, k)
    ensures var a, b := Flying(c, v, k), Flying(c, v, After(k));
            && One(Requested(c, v) in b) == One(Requested(c, v) in a) - One(t == Requested(c, v))
            && One(Scheduled(c, v) in b) == One(Scheduled(c, v) in a) - One(t == Scheduled(c, v))
            && One(Provision(c, v) in b) == One(Provision(c, v) in a) - One(t == Provision(c, v))
            && One(ToVM(v, Start) in b) == One(ToVM(v, Start) in a) - One(t == ToVM(v, Start)) + One(t == Provision(c, v))
            && One(ToVM(v, StartCompleted) in b) ==
               One(ToVM(v, StartCompleted) in a) - One(t == ToVM(v, StartCompleted)) + One(t == ToVM(v, Start))
            && One(Hosted(c, v) in b) == One(Hosted(c, v) in a) - One(t == Hosted(c, v)) + One(t == ToVM(v, StartCompleted))
    ensures t == ToVM(v, Start) ==> StateOf(k) == Provisioning
    ensures t == ToVM(v, StartCompleted) ==> StateOf(k) == Starting
  {}

  lemma CountsMove(c: Config, s: State, ord: Order, v: UUID, k: Stage)
    requires WellFormed(c) && Known(c, s) && s.queue != []
    requires c.first in s.power && s.power[c.first] == On
    requires v in s.vms && HasState(s, v, {StateOf(k)}) && Counts(c, s, v, Flying(c, v, k)) &&
             Tok(s.queue[0]) in NextOf(c, v, k)
    ensures Counts(c, Dispatch(c, s, ord), v, Flying(c, v, After(k)))
  {
    ActorNames(c, s, v);
    DistinctActors(c, s);
    hide Dispatch, Known, WellFormed, N, Flying, NextOf, After, StateOf, Created, Scheduled, Provision, Hosted, ToVM,
        Requested, Tok;
    Lands(c, v, k, Tok(s.queue[0]));
    TokensAfter(c, s, ord, v);
  }

  lemma StageMoves(c: Config, s: State, ord: Order, v: UUID, k: Stage)
    requires WellFormed(c) && Known(c, s) && s.queue != [] && Dispatch(c, s, ord).storage.ok
    requires c.first in s.power && s.power[c.first] == On
    requires Is(s, v, StatusOf(k)) && (HostedHere(c, s, v) <==> HereAt(k)) && Tok(s.queue[0]) in NextOf(c, v, k)
    ensures Is(Dispatch(c, s, ord), v, StatusOf(After(k)))
    ensures HostedHere(c, Dispatch(c, s, ord), v) <==> HereAt(After(k))
  {
    hide Dispatch, Known, WellFormed, Is, HostedHere;
    StageAfter(c, s, ord, v);
  }

  lemma StateMoves(c: Config, s: State, ord: Order, v: UUID, k: Stage)
    requires WellFormed(c) && Known(c, s) && s.queue != []
    requires v in s.vms && HasState(s, v, {StateOf(k)}) && Tok(s.queue[0]) in NextOf(c, v, k)
    ensures HasState(Dispatch(c, s, ord), v, {StateOf(After(k))})
  {
    ActorNames(c, s, v);
    hide Dispatch, Known, WellFormed, HasState;
    StateAfter(c, s, ord, v);
  }

  // The VM the head is about moves on by one stage.
  lemma MovesOn(c: Config, s: State, ord: Order, v: UUID, k: Stage)
    requires WellFormed(c) && Known(c, s) && s.queue != [] && Dispatch(c, s, ord).storage.ok
    requires c.first in s.power && s.power[c.first] == On && DecisionsOrderly(c, s)
    requires v in s.vms && AtStage(c, s, v, k) && Concerns(c, Tok(s.queue[0]), v)
    ensures k != Waiting && k != Done
    ensures AtStage(c, Dispatch(c, s, ord), v, After(k))
  {
    ActorNames(c, s, v);
    DistinctActors(c, s);
    hide Dispatch, Known, WellFormed, Counts, Flying, HostedHere, Is, HasState, DecisionsOrderly, Concerns, NextOf;
    Flies(c, s, v, k);
    NextOfSome(c, v, k, Tok(s.queue[0]));
    CountsMove(c, s, ord, v, k);
    StageMoves(c, s, ord, v, k);
    StateMoves(c, s, ord, v, k);
  }

  lemma DistinctActors(c: Config, s: State)
    requires WellFormed(c)
    ensures c.first != c.storage
  {}

  lemma NextOfSome(c: Config, v: UUID, k: Stage, t: Token)
    requires t in NextOf(c, v, k)
    ensures k != Waiting && k != Done
  {}

  lemma UnderwayDispatch(c: Config, s0: State, s: State, ord: Order, vs: set<UUID>, v: UUID)
    requires WellFormed(c) && Sound(c, s) && Going(c, s0, s, vs) && s.queue != [] &&
             Dispatch(c, s, ord).storage.ok && v in vs
    ensures Underway(c, Dispatch(c, s, ord), v)
  {
    hide Dispatch, Known, WellFormed, Going, AtStage, Timely, DecisionsOrderly, InFlight, Lives.Alive, AllTraced,
        PowerFlow.AllPowering, HostedFirst.InOrder, Concerns;
    GoingFacts(c, s0, s, vs);
    GoingVM(c, s0, s, vs, v);
    ActorNames(c, s, v);
    SubjectTokens(c, s0, vs, s.queue[0], v);
    var k :| AtStage(c, s, v, k);
    if v == Subject(s.queue[0]) {
      MovesOn(c, s, ord, v, k);
    } else {
      Bystander(c, s0, s, ord, vs, v, k);
    }
  }

  // What is scheduled in reaction is in flight at its own exact time.
  lemma OutInFlight(c: Config, s0: State, s: State, ord: Order, vs: set<UUID>)
    requires WellFormed(c) && Known(c, s) && s.queue != [] && c.first in s.power && s.power[c.first] == On
    requires InFlight(c, s0, vs, s.queue[0]) && Subject(s.queue[0]) in s.vms
    ensures forall e :: e in Out(c, s, ord) ==> InFlight(c, s0, vs, e)
  {
    var e := s.queue[0];
    ActorNames(c, s, Subject(e));
    assert Addressed(c, s, e);
    match e.body
    case VMEvent(_) =>
      assert Ready(c, s, e.to);
      OutVM(c, s, ord);
      hide Out, Addressed, Known, WellFormed;
    case ServerEvent(_, v) =>
      assert e.to !in s.vms;
      OutServer(c, s, ord);
      hide Out, Addressed, Known, WellFormed;
    case StorageEvent(_, _) =>
      assert Out(c, s, ord) == [];
      hide Out, Addressed, Known, WellFormed;
  }

  lemma QueueInFlight(c: Config, s0: State, s: State, ord: Order, vs: set<UUID>)
    requires WellFormed(c) && Known(c, s) && Going(c, s0, s, vs) && s.queue != []
    ensures forall e :: e in Dispatch(c, s, ord).queue ==> InFlight(c, s0, vs, e)
  {
    hide Dispatch, Known, WellFormed, Going, InFlight, Out, Handled, InsertAllBack, Subject;
    GoingFacts(c, s0, s, vs);
    SubjectVM(c, s0, s, vs);
    OutInFlight(c, s0, s, ord, vs);
    DispatchShape(c, s, ord);
    InsertAllMembers(s.queue[1..], Out(c, s, ord));
  }

  lemma SubjectVM(c: Config, s0: State, s: State, vs: set<UUID>)
    requires WellFormed(c) && Going(c, s0, s, vs) && s.queue != []
    ensures var v := Subject(s.queue[0]);
            InFlight(c, s0, vs, s.queue[0]) && v in vs && v in s.vms && v in s.storage.vms
  {
    hide Going;
    GoingFacts(c, s0, s, vs);
    assert s.queue[0] in s.queue;
    assert Subject(s.queue[0]) in vs;
    GoingVM(c, s0, s, vs, Subject(s.queue[0]));
  }

  lemma VMsKept(c: Config, s: State, e: Event, ord: Order, v: UUID)
    requires e.to != v
    ensures v in React(c, s, e, ord).0.vms <==> v in s.vms
    ensures v in s.vms ==> React(c, s, e, ord).0.vms[v] == s.vms[v]
  {
    hide StorageReact, VMReact, ServerReact, ResourceReact, Delay, DelaysOf;
  }

  lemma StatusKept(st: Storage, e: Event, v: UUID)
    requires e.body.StorageEvent? && e.body.vm != v
    ensures var d := StorageReact(st, e);
            (v in d.vms <==> v in st.vms) && (v in st.vms ==> d.vms[v] == st.vms[v])
  {}

  lemma OtherDispatch(c: Config, s0: State, s: State, ord: Order, vs: set<UUID>, v: UUID)
    requires WellFormed(c) && Known(c, s) && s.queue != [] && Subject(s.queue[0]) in s.vms
    requires InFlight(c, s0, vs, s.queue[0]) && v !in vs && OtherKept(c, s0, s, v)
    ensures OtherKept(c, s0, Dispatch(c, s, ord), v)
  {
    hide Known, WellFormed, Dispatch, Subject, InFlight, HostedHere;
    OtherUntouched(c, s0, s, ord, vs, v);
    OtherStatus(c, s0, s, ord, vs, v);
    OtherHost(c, s0, s, ord, vs, v);
  }

  lemma OtherStatus(c: Config, s0: State, s: State, ord: Order, vs: set<UUID>, v: UUID)
    requires WellFormed(c) && Known(c, s) && s.queue != [] && Subject(s.queue[0]) in s.vms
    requires InFlight(c, s0, vs, s.queue[0]) && v !in vs
    ensures var d := Dispatch(c, s, ord);
            && (v in d.storage.vms <==> v in s.storage.vms)
            && (v in s.storage.vms ==> d.storage.vms[v] == s.storage.vms[v])
  {
    NeverVMs(c, s);
    hide StorageReact, Known, WellFormed, Dispatch;
    StorageAfter(c, s, ord);
    if s.queue[0].to == c.storage {
      StatusKept(s.storage, s.queue[0], v);
    }
  }

  lemma OtherHost(c: Config, s0: State, s: State, ord: Order, vs: set<UUID>, v: UUID)
    requires WellFormed(c) && Known(c, s) && s.queue != [] && InFlight(c, s0, vs, s.queue[0]) && v !in vs
    ensures HostedHere(c, Dispatch(c, s, ord), v) <==> HostedHere(c, s, v)
  {
    NeverVMs(c, s);
    hide Known, WellFormed, Dispatch;
    GuestsAfter(c, s, ord, c.first);
  }

  // The VMs themselves: the head is sent to a VM of the provisioning, or to no VM at all.
  lemma OtherUntouched(c: Config, s0: State, s: State, ord: Order, vs: set<UUID>, v: UUID)
    requires WellFormed(c) && Known(c, s) && s.queue != []
    requires InFlight(c, s0, vs, s.queue[0]) && v !in vs
    ensures v in Dispatch(c, s, ord).vms <==> v in s.vms
    ensures v in s.vms ==> Dispatch(c, s, ord).vms[v] == s.vms[v]
  {
    NeverVMs(c, s);
    hide Known, WellFormed, Dispatch, React;
    DispatchShape(c, s, ord);
    if s.queue[0].to != v {
      VMsKept(c, Popped(s), s.queue[0], ord, v);
    } else {
      VMAfter(c, s, ord, v);
    }
  }

  lemma NeverVMs(c: Config, s: State)
    requires WellFormed(c) && Known(c, s)
    ensures c.first !in s.vms && c.storage !in s.vms && c.first in s.hosted
    ensures s.power.Keys == c.components.Keys && s.hosted.Keys == c.servers
  {}

  lemma PowerKept(c: Config, s0: State, s: State, ord: Order, vs: set<UUID>, r: UUID)
    requires WellFormed(c) && Known(c, s) && s.queue != [] && r in s.power && c.first in s.power &&
             s.power[c.first] == On
    requires InFlight(c, s0, vs, s.queue[0]) && Subject(s.queue[0]) in s.vms
    ensures r in Dispatch(c, s, ord).power && Dispatch(c, s, ord).power[r] == s.power[r]
  {
    NeverVMs(c, s);
    assert c.storage !in s.power && Subject(s.queue[0]) !in s.power;
    hide Dispatch, Known, WellFormed;
    PowerStateAfter(c, s, ord, r);
  }

  lemma OthersDispatch(c: Config, s0: State, s: State, ord: Order, vs: set<UUID>)
    requires WellFormed(c) && Known(c, s) && Going(c, s0, s, vs) && s.queue != []
    ensures OthersKept(c, s0, Dispatch(c, s, ord), vs)
    ensures Dispatch(c, s, ord).power == s.power
  {
    hide Dispatch, Known, WellFormed, Going, InFlight, OtherKept, Subject;
    GoingFacts(c, s0, s, vs);
    SubjectVM(c, s0, s, vs);
    NeverVMs(c, s);
    Lives.HostedKeys(c, s, ord);
    PowerFlow.PowerKeys(c, s, ord);
    var d := Dispatch(c, s, ord);
    forall r | r in s.power
      ensures r in d.power && d.power[r] == s.power[r]
    {
      PowerKept(c, s0, s, ord, vs, r);
    }
    forall x | x in s.hosted && x != c.first
      ensures x in d.hosted && d.hosted[x] == s.hosted[x]
    {
      GuestsAfter(c, s, ord, x);
    }
    forall v | v !in vs
      ensures OtherKept(c, s0, d, v)
    {
      OtherDispatch(c, s0, s, ord, vs, v);
    }
  }

  lemma HeadStage(c: Config, s: State, v: UUID, k: Stage)
    requires s.queue != [] && AtStage(c, s, v, k) && v != c.storage && v != c.first
    ensures Tok(s.queue[0]) == ToVM(v, StartCompleted) ==> k == Booting
    ensures Tok(s.queue[0]) == ToVM(v, Start) ==> k == Placed
  {
    HeadQueued(s);
    hide N;
  }

  lemma StartsOnTime(c: Config, s0: State, vs: set<UUID>, e: Event, v: UUID)
    requires InFlight(c, s0, vs, e) && v != c.storage && v != c.first
    ensures e.to == v ==> Tok(e) == ToVM(v, Start) || e == StartDone(c, s0, v)
    ensures e == StartDone(c, s0, v) ==> Tok(e) == ToVM(v, StartCompleted)
  {
    hide DelaysOf;
  }

  lemma StageState(c: Config, s: State, v: UUID, k: Stage, sts: set<VMState>)
    requires AtStage(c, s, v, k)
    ensures HasState(s, v, sts) <==> StateOf(k) in sts
  {
    hide Counts, HostedHere;
  }

  lemma RunsDispatch(c: Config, s0: State, s: State, ord: Order, vs: set<UUID>, v: UUID)
    requires WellFormed(c) && Known(c, s) && s.queue != [] && v in s.vms
    requires InFlight(c, s0, vs, s.queue[0]) && Underway(c, s, v)
    ensures HasState(Dispatch(c, s, ord), v, {Running}) <==> HasState(s, v, {Running}) || s.queue[0] == StartDone(c, s0, v)
  {
    hide Dispatch, Known, WellFormed, AtStage, InFlight, StartDone, HasState;
    ActorNames(c, s, v);
    StartsOnTime(c, s0, vs, s.queue[0], v);
    var k :| AtStage(c, s, v, k);
    HeadStage(c, s, v, k);
    StageState(c, s, v, k, {Running});
    StageState(c, s, v, k, {Starting});
    StageState(c, s, v, k, {Provisioning});
    StateAfter(c, s, ord, v);
    StartingIsNotRunning(c, s, ord, v);
  }

  lemma StartingIsNotRunning(c: Config, s: State, ord: Order, v: UUID)
    ensures s.queue != [] && HasState(Dispatch(c, s, ord), v, {Starting}) ==> !HasState(Dispatch(c, s, ord), v, {Running})
  {
    hide Dispatch;
  }

  // ----- the whole invariant over one dispatch -----

  lemma WaitsDispatch(c: Config, s0: State, s: State, ord: Order, vs: set<UUID>, v: UUID)
    requires WellFormed(c) && Known(c, s) && s.queue != [] && Dispatch(c, s, ord).storage.ok
    requires InFlight(c, s0, vs, s.queue[0]) && WaitsNow(c, s0, s)
    requires forall u :: Pending(s, u) && N(s, Scheduled(c, u)) == 0 ==> !BucketEmpty(s)
    requires Pending(Dispatch(c, s, ord), v) && N(Dispatch(c, s, ord), Scheduled(c, v)) == 0
    ensures Dispatch(c, s, ord).now == s0.now
  {
    hide Dispatch, Known, WellFormed, N, Spawn;
    DispatchShape(c, s, ord);
    StatusAfter(c, s, ord, v);
    TokenAfter(c, s, ord, Scheduled(c, v));
    EmitsNoDecision(c, s, v);
    assert Tok(s.queue[0]) == Requested(c, v) || (Pending(s, v) && N(s, Scheduled(c, v)) == 0);
  }

  // Between two steps a VM can only be waiting while its instant is still running.
  ghost predicate WaitsInside(c: Config, s: State) {
    forall v :: Pending(s, v) && N(s, Scheduled(c, v)) == 0 ==> !BucketEmpty(s)
  }

  lemma GoingOk(c: Config, s0: State, s: State, ord: Order, vs: set<UUID>)
    requires WellFormed(c) && Known(c, s) && Going(c, s0, s, vs) && s.queue != []
    ensures Dispatch(c, s, ord).storage.ok
  {
    hide Dispatch, Known, WellFormed, Going, InFlight, Subject, OthersKept, RunsOnTime, WaitsNow;
    GoingFacts(c, s0, s, vs);
    SubjectVM(c, s0, s, vs);
    StaysOk(c, s, ord, s0, vs);
  }

  lemma TimesDispatch(c: Config, s0: State, s: State, ord: Order, vs: set<UUID>)
    requires WellFormed(c) && Known(c, s) && Going(c, s0, s, vs) && s.queue != []
    ensures RunsOnTime(c, s0, Dispatch(c, s, ord), vs)
  {
    hide Dispatch, Known, WellFormed, Going, InFlight, Subject, OthersKept, WaitsNow, StartDone, HasState, Underway,
        Out, Handled;
    GoingFacts(c, s0, s, vs);
    SubjectVM(c, s0, s, vs);
    DispatchShape(c, s, ord);
    var d, e := Dispatch(c, s, ord), s.queue[0];
    assert d.log[|s0.log|..] == s.log[|s0.log|..] + [e];
    forall v | v in vs
      ensures HasState(d, v, {Running}) <==> StartDone(c, s0, v) in d.log[|s0.log|..]
    {
      GoingVM(c, s0, s, vs, v);
      RunsDispatch(c, s0, s, ord, vs, v);
    }
  }

  lemma WaitsNowDispatch(c: Config, s0: State, s: State, ord: Order, vs: set<UUID>)
    requires WellFormed(c) && Known(c, s) && Going(c, s0, s, vs) && WaitsInside(c, s) && s.queue != []
    ensures WaitsNow(c, s0, Dispatch(c, s, ord))
  {
    hide Dispatch, Known, WellFormed, Going, InFlight, Subject, OthersKept, RunsOnTime, N;
    GoingFacts(c, s0, s, vs);
    SubjectVM(c, s0, s, vs);
    GoingOk(c, s0, s, ord, vs);
    var d := Dispatch(c, s, ord);
    forall v | Pending(d, v) && N(d, Scheduled(c, v)) == 0
      ensures d.now == s0.now
    {
      WaitsDispatch(c, s0, s, ord, vs, v);
    }
  }

  lemma GoingDispatch(c: Config, s0: State, s: State, ord: Order, vs: set<UUID>)
    requires WellFormed(c) && Sound(c, s) && Going(c, s0, s, vs) && WaitsInside(c, s) && s.queue != []
    ensures Going(c, s0, Dispatch(c, s, ord), vs)
  {
    SoundKnown(c, s);
    GoingKept(c, s0, s, ord, vs);
    hide Dispatch, Known, WellFormed, Going, InFlight, OthersKept, RunsOnTime, WaitsNow, Underway, Sound, Timely;
    var d := Dispatch(c, s, ord);
    forall v | v in vs
      ensures Underway(c, d, v)
    {
      UnderwayDispatch(c, s0, s, ord, vs, v);
    }
    GoingIs(c, s0, d, vs);
  }

  lemma GoingKept(c: Config, s0: State, s: State, ord: Order, vs: set<UUID>)
    requires WellFormed(c) && Known(c, s) && Going(c, s0, s, vs) && WaitsInside(c, s) && s.queue != []
    ensures var d := Dispatch(c, s, ord);
            d.storage.ok && c.first in d.power && d.power[c.first] == On &&
            (forall e :: e in d.queue ==> InFlight(c, s0, vs, e)) &&
            OthersKept(c, s0, d, vs) && RunsOnTime(c, s0, d, vs) && WaitsNow(c, s0, d)
  {
    hide Dispatch, Known, WellFormed, Going, InFlight, OthersKept, RunsOnTime, WaitsNow, WaitsInside;
    GoingFacts(c, s0, s, vs);
    GoingOk(c, s0, s, ord, vs);
    QueueInFlight(c, s0, s, ord, vs);
    OthersDispatch(c, s0, s, ord, vs);
    TimesDispatch(c, s0, s, ord, vs);
    WaitsNowDispatch(c, s0, s, ord, vs);
  }

  lemma GoingIs(c: Config, s0: State, d: State, vs: set<UUID>)
    requires d.storage.ok && c.first in d.power && d.power[c.first] == On
    requires forall e :: e in d.queue ==> InFlight(c, s0, vs, e)
    requires OthersKept(c, s0, d, vs) && RunsOnTime(c, s0, d, vs) && WaitsNow(c, s0, d)
    requires forall v :: v in vs ==> Underway(c, d, v)
    ensures Going(c, s0, d, vs)
  {
    hide InFlight, OthersKept, RunsOnTime, WaitsNow, Underway;
  }

  // ----- one world update -----

  // The update turns a waiting VM into a decided one and leaves the others alone.
  lemma UnderwayUpdate(c: Config, d: State, ord: Order, v: UUID)
    requires WellFormed(c) && ValidOrder(ord) && DecisionsLead(d.queue, d.now) && v != c.storage && v != c.first
    requires forall i :: 0 <= i < |d.queue| ==> d.now < d.queue[i].time
    requires Underway(c, d, v)
    ensures Underway(c, Tick(UpdateWorld(c, d, ord)), v)
  {
    hide UpdateWorld, N, DecisionsLead, WellFormed;
    NoneInFlight(c, d, v);
    Lives.UpdateActors(c, d, ord);
    Lives.UpdateSends(c, d, ord, v);
    Lives.UpdateKeeps(c, d, ord, Requested(c, v));
    var k :| AtStage(c, d, v, k);
    StageUpdated(c, d, Tick(UpdateWorld(c, d, ord)), v, k);
  }

  lemma StageUpdated(c: Config, d: State, s': State, v: UUID, k: Stage)
    requires AtStage(c, d, v, k) && v != c.storage && v != c.first
    requires s'.vms == d.vms && s'.hosted == d.hosted && s'.storage == d.storage
    requires N(d, Scheduled(c, v)) == 0
    requires N(s', Requested(c, v)) == N(d, Requested(c, v))
    requires N(s', Scheduled(c, v)) == N(d, Scheduled(c, v)) + One(Pending(d, v))
    requires N(s', Provision(c, v)) == N(d, Provision(c, v)) + One(Pending(d, v))
    requires N(s', ToVM(v, Start)) == N(d, ToVM(v, Start))
    requires N(s', ToVM(v, StartCompleted)) == N(d, ToVM(v, StartCompleted))
    requires N(s', Hosted(c, v)) == N(d, Hosted(c, v))
    ensures AtStage(c, s', v, if k == Waiting then Decided else k)
  {
    hide N;
    assert Pending(d, v) <==> Is(d, v, PendingVM);
    assert k != Decided;
  }

  lemma QueueUpdate(c: Config, s0: State, d: State, ord: Order, vs: set<UUID>)
    requires ValidOrder(ord) && DecisionsLead(d.queue, d.now) && Going(c, s0, d, vs)
    requires forall v :: !Pending(s0, v)
    requires forall i :: 0 <= i < |d.queue| ==> d.now < d.queue[i].time
    ensures forall e :: e in UpdateWorld(c, d, ord).queue ==> InFlight(c, s0, vs, e)
  {
    hide UpdateWorld, DecisionsLead, Going, Placing, WaitsNow, InFlight, N, OthersKept, RunsOnTime;
    GoingFacts(c, s0, d, vs);
    UpdateShape(c, d, ord);
    PlacingEnumerates(c, d, ord);
    var p := Placing(c, d, ord);
    forall v | v in p
      ensures v in vs && d.now == s0.now
    {
      NoneInFlight(c, d, v);
      WaitingNow(c, s0, d, v);
      PendingOurs(c, s0, d, vs, v);
    }
    PlacementsInFlight(c, s0, d.now, p, vs);
  }

  lemma PendingOurs(c: Config, s0: State, d: State, vs: set<UUID>, v: UUID)
    requires OthersKept(c, s0, d, vs) && Pending(d, v) && !Pending(s0, v)
    ensures v in vs
  {
    assert v !in vs ==> OtherKept(c, s0, d, v);
  }

  lemma WaitingNow(c: Config, s0: State, d: State, v: UUID)
    requires WaitsNow(c, s0, d) && Pending(d, v) && N(d, Scheduled(c, v)) == 0
    ensures d.now == s0.now
  {
    hide Pending, N;
  }

  lemma PlacementsInFlight(c: Config, s0: State, t: int, p: seq<UUID>, vs: set<UUID>)
    requires forall v :: v in p ==> v in vs && t == s0.now
    ensures forall e :: e in Decisions(c, t, p) || e in Placements(c, t, p) ==> InFlight(c, s0, vs, e)
  {
    hide Decisions, Placements;
  }

  lemma GoingUpdate(c: Config, s0: State, d: State, ord: Order, vs: set<UUID>)
    requires WellFormed(c) && ValidOrder(ord) && DecisionsLead(d.queue, d.now) && Known(c, d) && Going(c, s0, d, vs)
    requires forall v :: !Pending(s0, v)
    requires forall i :: 0 <= i < |d.queue| ==> d.now < d.queue[i].time
    ensures Going(c, s0, Tick(UpdateWorld(c, d, ord)), vs) && WaitsInside(c, Tick(UpdateWorld(c, d, ord)))
  {
    hide UpdateWorld, DecisionsLead, Going, OthersKept, RunsOnTime, WaitsNow, InFlight, N, Known, WellFormed, Underway;
    GoingFacts(c, s0, d, vs);
    Lives.UpdateActors(c, d, ord);
    QueueUpdate(c, s0, d, ord, vs);
    var s' := Tick(UpdateWorld(c, d, ord));
    forall v | v in vs
      ensures Underway(c, s', v)
    {
      GoingVM(c, s0, d, vs, v);
      ActorNames(c, d, v);
      UnderwayUpdate(c, d, ord, v);
    }
    forall v | Pending(s', v)
      ensures N(s', Scheduled(c, v)) >= 1
    {
      Lives.UpdateSends(c, d, ord, v);
    }
    KeptSame(c, s0, d, s', vs);
    NobodyWaits(c, s0, s');
    GoingIs(c, s0, s', vs);
  }

  lemma NobodyWaits(c: Config, s0: State, s': State)
    requires forall v :: Pending(s', v) ==> N(s', Scheduled(c, v)) >= 1
    ensures WaitsNow(c, s0, s') && WaitsInside(c, s')
  {
    hide Pending, N;
  }

  lemma KeptSame(c: Config, s0: State, d: State, s': State, vs: set<UUID>)
    requires OthersKept(c, s0, d, vs) && RunsOnTime(c, s0, d, vs)
    requires s'.vms == d.vms && s'.hosted == d.hosted && s'.storage == d.storage && s'.power == d.power &&
             s'.log == d.log
    ensures OthersKept(c, s0, s', vs) && RunsOnTime(c, s0, s', vs)
  {
    assert forall v :: OtherKept(c, s0, d, v) == OtherKept(c, s0, s', v);
    assert forall v :: HasState(d, v, {Running}) == HasState(s', v, {Running});
    hide OtherKept, HasState, StartDone;
  }

  lemma GoingStep(c: Config, s0: State, s: State, ord: Order, vs: set<UUID>)
    requires WellFormed(c) && ValidOrder(ord) && Sound(c, s) && Going(c, s0, s, vs) && WaitsInside(c, s)
    requires forall v :: !Pending(s0, v)
    ensures Going(c, s0, Step(c, s, ord), vs) && WaitsInside(c, Step(c, s, ord))
  {
    if s.queue != [] {
      SoundDispatch(c, s, ord);
      GoingDispatch(c, s0, s, ord, vs);
      var d := Dispatch(c, s, ord);
      assert DecisionsLead(d.queue, d.now);
      hide Dispatch, UpdateWorld, Sound, WellFormed, Known, Going, DecisionsLead, DecisionsOrderly, Lives.Alive,
          AllTraced, PowerFlow.AllPowering, HostedFirst.InOrder, Pending, N;
      if BucketEmpty(d) {
        DryMeansLater(d);
        GoingUpdate(c, s0, d, ord, vs);
      }
    }
  }

  // ----- the requests -----

  // One provision request for each VM of `q`, in that order.
  function Provisions(q: seq<UUID>): (cmds: seq<Command>)
    ensures |cmds| == |q| && forall i :: 0 <= i < |q| ==> cmds[i] == ProvisionRequest(q[i])
  {
    seq(|q|, i requires 0 <= i < |q| => ProvisionRequest(q[i]))
  }

  function SetOf(q: seq<UUID>): set<UUID> {
    set v | v in q
  }

  // After the requests for `q` nothing has changed but the queue.
  ghost predicate AskedFor(c: Config, s0: State, s: State, q: seq<UUID>) {
    && s.vms == s0.vms && s.hosted == s0.hosted && s.storage == s0.storage && s.power == s0.power && s.log == s0.log
    && s.now == s0.now && s.next == s0.next
    && (forall e :: e in s.queue ==> e.time == s0.now && e.to == c.storage && e.body.StorageEvent? &&
                                     e.body.storageType == VMProvisionRequested && e.body.vm in q)
    && (forall v :: N(s, Requested(c, v)) == One(v in q))
  }

  lemma {:induction false} Requests(c: Config, s0: State, q: seq<UUID>)
    requires WellFormed(c) && Sound(c, s0) && s0.queue == [] && Distinct(q) && forall v :: v in q ==> v in s0.vms
    ensures Sound(c, ExecuteAll(c, s0, Provisions(q))) && AskedFor(c, s0, ExecuteAll(c, s0, Provisions(q)), q)
  {
    hide Sound, WellFormed, Execute;
    if q == [] {
      NothingSent(s0.queue);
    } else {
      var init, v := q[..|q| - 1], q[|q| - 1];
      assert q == init + [v];
      assert v !in init;
      Requests(c, s0, init);
      hide ExecuteAll;
      var s := ExecuteAll(c, s0, Provisions(init));
      assert v in s.vms;
      SoundExecute(c, s, ProvisionRequest(v));
      OneRequest(c, s0, s, init, v);
      assert ExecuteAll(c, s0, Provisions(q)) == Execute(c, s, ProvisionRequest(v)) by { RequestUnfolds(c, s0, q); }
    }
  }

  lemma RequestUnfolds(c: Config, s: State, q: seq<UUID>)
    requires q != []
    ensures ExecuteAll(c, s, Provisions(q)) == Execute(c, ExecuteAll(c, s, Provisions(q[..|q| - 1])), ProvisionRequest(q[|q| - 1]))
  {
    var cmds, n := Provisions(q), |q| - 1;
    assert cmds[..n] == Provisions(q[..n]);
    hide Execute, Provisions;
  }

  lemma OneRequest(c: Config, s0: State, s: State, init: seq<UUID>, v: UUID)
    requires AskedFor(c, s0, s, init) && v !in init
    ensures AskedFor(c, s0, Execute(c, s, ProvisionRequest(v)), init + [v])
  {
    hide N, Execute, InsertFront;
    RequestKeeps(c, s, v);
    forall u
      ensures N(Execute(c, s, ProvisionRequest(v)), Requested(c, u)) == One(u in init + [v])
    {
      RequestCounts(c, s, v, u);
    }
  }

  lemma RequestKeeps(c: Config, s: State, v: UUID)
    ensures var e := Event(s.now, c.storage, StorageEvent(VMProvisionRequested, v));
            var s' := Execute(c, s, ProvisionRequest(v));
            && s'.vms == s.vms && s'.hosted == s.hosted && s'.storage == s.storage && s'.power == s.power &&
                s'.log == s.log
            && s'.now == s.now && s'.next == s.next && forall x :: x in s'.queue <==> x in s.queue || x == e
  {
    InsertMembers(s.queue, Event(s.now, c.storage, StorageEvent(VMProvisionRequested, v)));
    hide InsertFront;
  }

  lemma RequestCounts(c: Config, s: State, v: UUID, u: UUID)
    ensures N(Execute(c, s, ProvisionRequest(v)), Requested(c, u)) == N(s, Requested(c, u)) + One(u == v)
  {
    ExecuteTokens(c, s, ProvisionRequest(v), Requested(c, u));
    hide N, Execute;
  }

  lemma AskedCounts(c: Config, s0: State, s: State, q: seq<UUID>, v: UUID)
    requires AskedFor(c, s0, s, q) && v in q && v != c.storage && v != c.first && c.first != c.storage
    ensures Counts(c, s, v, Flying(c, v, Asked))
  {
    TokensAbsent(s.queue, Scheduled(c, v));
    TokensAbsent(s.queue, Provision(c, v));
    TokensAbsent(s.queue, ToVM(v, Start));
    TokensAbsent(s.queue, ToVM(v, StartCompleted));
    TokensAbsent(s.queue, Hosted(c, v));
    assert N(s, Requested(c, v)) == 1;
    hide Tokens;
  }

  lemma NotHostedYet(c: Config, s: State, v: UUID)
    requires WellFormed(c) && Sound(c, s) && s.storage.ok && Is(s, v, CreatedVM)
    ensures !HostedHere(c, s, v)
  {
    hide Timely, Known, DecisionsOrderly, PowerFlow.AllPowering, HostedFirst.InOrder, WellFormed, N, L;
    assert Traced(c, s, v) && Lives.Located(c, s, v);
  }

  lemma AskedUnderway(c: Config, s0: State, s: State, q: seq<UUID>, v: UUID)
    requires AwaitsRequests(c, s0, SetOf(q)) && AskedFor(c, s0, s, q) && v in q
    ensures Underway(c, s, v)
  {
    hide Sound, WellFormed, Counts, Flying, AskedFor;
    AskedKeeps(c, s0, s, q);
    assert v in SetOf(q);
    SoundKnown(c, s0);
    DistinctActors(c, s0);
    ActorNames(c, s0, v);
    NotHostedYet(c, s0, v);
    AskedCounts(c, s0, s, q, v);
    assert AtStage(c, s, v, Asked);
  }

  lemma AskedKeeps(c: Config, s0: State, s: State, q: seq<UUID>)
    requires AskedFor(c, s0, s, q)
    ensures s.vms == s0.vms && s.hosted == s0.hosted && s.storage == s0.storage && s.power == s0.power &&
             s.log == s0.log
    ensures s.now == s0.now
    ensures forall e :: e in s.queue ==> InFlight(c, s0, SetOf(q), e)
  {
    hide N;
  }

  lemma NoneWaits(c: Config, s: State)
    requires Sound(c, s) && s.queue == []
    ensures forall v :: !Pending(s, v)
  {
    hide Timely, Known, DecisionsOrderly, PowerFlow.AllPowering, HostedFirst.InOrder, Lives.Alive, AllTraced;
  }

  lemma NotRunningYet(c: Config, s0: State, vs: set<UUID>, v: UUID)
    requires AwaitsRequests(c, s0, vs) && v in vs
    ensures !HasState(s0, v, {Running}) && v in s0.vms
  {
    hide Sound, WellFormed;
  }

  lemma BeginGoing(c: Config, s0: State, s: State, q: seq<UUID>)
    requires AwaitsRequests(c, s0, SetOf(q)) && AskedFor(c, s0, s, q)
    ensures Going(c, s0, s, SetOf(q)) && WaitsInside(c, s)
  {
    AskedKeeps(c, s0, s, q);
    NoneWaits(c, s0);
    var vs := SetOf(q);
    forall v | v in vs
      ensures Underway(c, s, v) && !HasState(s, v, {Running})
    {
      AskedUnderway(c, s0, s, q, v);
      NotRunningYet(c, s0, vs, v);
    }
    assert forall v :: Pending(s, v) == Pending(s0, v);
    hide Underway, Sound, WellFormed, AskedFor, StartDone, HasState, InFlight, SetOf, N, Pending;
    GoingIs(c, s0, s, vs);
  }

  lemma {:induction false} GoingDrain(c: Config, s0: State, q: seq<UUID>, ords: nat -> Order, n: nat)
    requires AwaitsRequests(c, s0, SetOf(q)) && Distinct(q) && ValidOrders(ords)
    ensures var s := Drain(c, ExecuteAll(c, s0, Provisions(q)), ords, n);
            Sound(c, s) && Going(c, s0, s, SetOf(q)) && WaitsInside(c, s)
  {
    hide Sound, WellFormed, ExecuteAll, Step, Going, AskedFor, WaitsInside, Pending, AwaitsRequests, SetOf, Distinct;
    RestFacts(c, s0, SetOf(q));
    RequestsDone(c, s0, q);
    if n == 0 {
      BeginGoing(c, s0, ExecuteAll(c, s0, Provisions(q)), q);
    } else {
      GoingDrain(c, s0, q, ords, n - 1);
      var s := Drain(c, ExecuteAll(c, s0, Provisions(q)), ords, n - 1);
      SoundStep(c, s, ords(n - 1));
      GoingStep(c, s0, s, ords(n - 1), SetOf(q));
    }
  }

  lemma RestFacts(c: Config, s0: State, vs: set<UUID>)
    requires AwaitsRequests(c, s0, vs)
    ensures WellFormed(c) && forall v :: !Pending(s0, v)
  {
    hide Sound, WellFormed;
    NoneWaits(c, s0);
  }

  lemma RequestsDone(c: Config, s0: State, q: seq<UUID>)
    requires AwaitsRequests(c, s0, SetOf(q)) && Distinct(q)
    ensures Sound(c, ExecuteAll(c, s0, Provisions(q))) && AskedFor(c, s0, ExecuteAll(c, s0, Provisions(q)), q)
  {
    hide Sound, WellFormed, ExecuteAll, AskedFor;
    forall v | v in q
      ensures v in s0.vms
    {
      assert v in SetOf(q);
    }
    Requests(c, s0, q);
  }

  // ----- the main results -----

  // At every point of the drain a requested VM runs exactly if its start, due start-delay after
  // the request, has been dispatched; and nothing outside the request is touched.
  lemma RunsExactlyOnTime(c: Config, s0: State, q: seq<UUID>, ords: nat -> Order, n: nat, v: UUID)
    requires AwaitsRequests(c, s0, SetOf(q)) && Distinct(q) && ValidOrders(ords) && v in q
    ensures var s := Drain(c, ExecuteAll(c, s0, Provisions(q)), ords, n);
            && |s0.log| <= |s.log|
            && (HasState(s, v, {Running}) <==> StartDone(c, s0, v) in s.log[|s0.log|..])
            && OthersKept(c, s0, s, SetOf(q))
  {
    hide Sound, WellFormed, Drain, ExecuteAll, Going, OthersKept, StartDone, HasState, AwaitsRequests, ValidOrders, WaitsInside;
    GoingDrain(c, s0, q, ords, n);
    GoingFacts(c, s0, Drain(c, ExecuteAll(c, s0, Provisions(q)), ords, n), SetOf(q));
  }

  ghost predicate Provisioned(c: Config, s0: State, s: State, v: UUID) {
    && HasState(s, v, {Running}) && Is(s, v, HostedVM) && HostedHere(c, s, v)
    && |s0.log| <= |s.log| && StartDone(c, s0, v) in s.log[|s0.log|..]
  }

  lemma DoneAtLast(c: Config, s0: State, s: State, vs: set<UUID>, v: UUID)
    requires Sound(c, s) && Going(c, s0, s, vs) && v in vs && s.queue == []
    ensures Provisioned(c, s0, s, v)
  {
    hide Sound, Going, StartDone, OthersKept, WaitsNow, InFlight;
    GoingVM(c, s0, s, vs, v);
    GoingFacts(c, s0, s, vs);
    NoneWaits(c, s);
    NothingSent(s.queue);
    hide Tokens;
    var k :| AtStage(c, s, v, k);
    StageDone(c, s, v, k);
  }

  lemma StageDone(c: Config, s: State, v: UUID, k: Stage)
    requires AtStage(c, s, v, k) && (forall t :: N(s, t) == 0) && !Pending(s, v)
    ensures k == Done
  {
    hide N, HostedHere;
  }

  lemma NeverStuck(c: Config, s0: State, q: seq<UUID>, ords: nat -> Order)
    requires AwaitsRequests(c, s0, SetOf(q)) && Distinct(q) && ValidOrders(ords)
    ensures !GetsStuck(c, ExecuteAll(c, s0, Provisions(q)), ords)
  {
    hide Sound, WellFormed, Drain, ExecuteAll, Going, ValidOrders, WaitsInside, AwaitsRequests;
    forall n: nat
      ensures !Stuck(Drain(c, ExecuteAll(c, s0, Provisions(q)), ords, n))
    {
      GoingDrain(c, s0, q, ords, n);
      GoingFacts(c, s0, Drain(c, ExecuteAll(c, s0, Provisions(q)), ords, n), SetOf(q));
    }
  }

  // The drain ends, and then every requested VM runs, is hosted in the storage's eyes and on the
  // first server, and became running at exactly the time of the request plus its own start
  // delay; every other VM and every resource is as before.
  lemma ProvisioningCompletes(c: Config, s0: State, q: seq<UUID>, ords: nat -> Order) returns (n: nat)
    requires AwaitsRequests(c, s0, SetOf(q)) && Distinct(q) && ValidOrders(ords)
    ensures var s := Drain(c, ExecuteAll(c, s0, Provisions(q)), ords, n);
            && s.queue == [] && s.storage.ok
            && (forall v :: v in q ==> Provisioned(c, s0, s, v))
            && OthersKept(c, s0, s, SetOf(q))
  {
    RequestsDone(c, s0, q);
    NeverStuck(c, s0, q, ords);
    hide Sound, WellFormed, Drain, ExecuteAll, Going, OthersKept, Provisioned, AskedFor, ValidOrders, GetsStuck,
        WaitsInside;
    EndsUnlessStuck(c, ExecuteAll(c, s0, Provisions(q)), ords);
    n :| Drain(c, ExecuteAll(c, s0, Provisions(q)), ords, n).queue == [];
    GoingDrain(c, s0, q, ords, n);
    var s := Drain(c, ExecuteAll(c, s0, Provisions(q)), ords, n);
    GoingFacts(c, s0, s, SetOf(q));
    forall v | v in q
      ensures Provisioned(c, s0, s, v)
    {
      DoneAtLast(c, s0, s, SetOf(q), v);
    }
  }
}
