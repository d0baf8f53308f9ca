# A verified model of the cloud simulator

The simulator runs events on actors: the storage of VM images, virtual machines, servers, data
centers and the cloud. Its event loop keeps a map of deques, one for each timestamp. A deferred
insertion goes to the back of a deque, an immediate one to the front. When a deque runs dry the
world is updated: every server shares out its memory, and every pending VM is placed on the first
server of the first data center. This project states that behaviour in Dafny and proves what holds
over whole runs of it.

There are two layers.

**The state machine** (`Types`, `FlatQueue`, `Handlers`, `Simulator`) is a set of functions. A state
is the clock, the queue as one list sorted by time, the actors, the statuses in the storage, and
the history of dispatched events. `Simulator.Step` takes the next event, lets its addressee handle
it, and updates the world when that was the last event of its time; `Simulator.Execute` carries out
one external command; `Simulator.Run` follows a script of both in any interleaving. Hash containers
may be walked in any order, and in another one at every step: each step takes an arbitrary
enumeration of sets (`Types.ValidOrder`). Delays are arbitrary and non-negative.

**The objects** (`EventLoop`, `VMActor`, `StorageActor`, `ResourceActors`, `ActorRegister`,
`Schedulers`, `World`, `Setup`) are the classes of the program, with their fields updated in place
and their loops over containers. The deques are related to the sorted list in `BucketQueue`; what a
configuration comes to is read off the list of data centers in `Layout`. Every method is proved to do
what the state machine does: the loop's ghost field `world` is the state of the whole simulation, and
`Worlds.World.Mirrored` says that each object holds its part of it. `Worlds.World.SimulateNextStep` is
one `Step`, every command is one `Execute`, `SimulateAll` is a drain, and `Setups.Setup` builds a
world that is in an initial state over a well-formed tree. What the objects hold beside the state, a
VM's model, a server's memory and the lists of members, is `Worlds.World.Gears`, and only the creation
of a VM adds to it.

What is proved over all runs is in `Guarantees` (the clock, quiescence, exactly-once placement, the
agreement of storage, server and VM, the order of reports), `Draining` (when a drain ends),
`Confluence` (the order of iteration does not matter), `Batches` (scripts after which a drain always
ends), `FaultyBatches` and `FaultlessBatches` (exactly which batches leave it going on forever),
`FirstUpdate` and `FirstInstant` (the moment that decides it), `Updates`, `Cascade` (boot and shutdown
of the whole tree), `BootOnly`, `EndToEnd` (provisioning), `Retiring` (stopping and deleting),
`Schedulers` (sharing of memory) and `RequestLaws` (what each request of a client comes to, and the
whole life of a VM). `Laws` says case by case what one dispatch, one insertion and one command do in
any state, reachable or not. The invariant behind the first two is put together in `Soundness` from
`Clock`, `Registry`, `Deciding`, `Lives`, `Placement`, `PowerFlow` and `HostedFirst`, each of which is
kept by a dispatch, by a world update and by a command. They count tokens, events with their time
forgotten: how many copies of each are queued (`StepFacts.N`) and have been dispatched
(`StepFacts.L`).

The proof of confluence has three parts. `Reordering` says which events are unrelated (commands to
resources neither of which is above the other, and events of the same kind about different VMs) and
shows that queues which differ by exchanging unrelated neighbours stay so under every insertion.
`Exchanging` shows that such exchanges keep the invariant. `Confluence` shows that unrelated events
commute, that another order of iteration only ever exchanges unrelated events, and that two runs
which differ in that way come together again.

`Session` puts the objects to use: a client that looks each name up before it acts on it and lets
the simulation run dry after every batch. What it does is a function of the configuration and of the
requests: `Sessions.Played` says which commands each request comes to and what the world is after
every batch, up to the order of history (`Sessions.OutcomeIsDetermined`). Every run ends, whatever
is asked for, and leaves nothing in transition.

Three things one might expect of the program are not so, and the model follows the code.

- Draining does not always end. A provision request for something the storage does not know makes
  it fail for good, and so does any power, stop or delete command given to the storage itself. A VM
  that is pending then is placed again at every world update. `Witness.DrainingCanGoOnForever` is
  such a script. `Draining.DrainEndsIffNeverStuck` says exactly when a drain ends; whether it does
  can be seen after a number of steps known beforehand (`Draining.EndsIffEmptyInTime`), in any one
  order of iteration (`Worlds.CanDrainIffOneEnds`), and after a batch given at rest it is decided by
  the first world update (`FirstUpdate.StuckByFirstUpdate`). In terms of the commands: requests are
  immediate, so they run last-given-first and before all others. After a batch with such a fault the
  drain goes on forever exactly if some created VM is requested with no unknown handle requested
  after it (`FaultyBatches.FaultyDrainEnds`). Without a fault only the report of a deletion can do the
  damage: a VM whose delay is zero reports within the first instant, may do so twice if it is told
  again and again to delete itself, and makes the storage fail if it is gone by then.
  `FaultlessBatches.FaultlessDrainEnds` reads from each VM's state at rest, its delays and the commands
  in their order which commands are reported, and when a report is fatal.
  `FaultlessBatches.DrainEndsIffNotFatal` joins both: from every state at rest and for every allowed
  batch it says whether the drain ends. No deletion is fatal if, after well-formed batches, the batch
  deletes no VM twice (`FaultyBatches.DrainEndsIffNotDoomed`), or if every VM it deletes takes time to
  (`FaultlessBatches.AnyDrainEndsIffNotDoomed`). `RepeatedDeletes` has one batch after which the drain
  goes on forever with a delay of zero and ends with a delay of one.
- A VM never learns its owner, so a stopped VM asks nobody to be removed
  (`src/infrastructure/vm.cpp:152-159`), that event is swallowed, and a server never loses a guest.
  The removal handler would dereference a null notificator; `Guarantees.NeverCrashes` shows that it
  is not reached.
- The comments in `src/infrastructure/resource.h:17-21` and `src/infrastructure/vm.h:14-19` name
  the running state as the one in which shutdown and delete are expected. The code shuts down any
  resource that is not off, and deletes running, stopped and failed VMs.

The clock can step back by one: a world update runs before the clock is advanced, and what it
schedules is due at the time that has just run dry. `Guarantees.ClockNeverGoesBack` is about the
dispatched times, which never decrease.

## Model

| member | source | states |
|---|---|---|
| Draining.DrainEndsIffNeverStuck | src/events/event-loop.cpp:33-42 | from every reachable state and for every choice of iteration orders, draining the queue ends if and only if it never reaches a failed storage that still has a pending VM |
| Draining.StepLosesPotential | src/events/event-loop.cpp:63-97 | each step that does not reach that state strictly lowers a potential: weights of the queued events, recursive over the resource tree, plus a charge for each pending VM without a decision in flight |
| Draining.DrainBound | src/events/event-loop.cpp:33-42 | a drain that never gets stuck is over after at most as many steps as the starting potential |
| Draining.StuckForGood | src/events/event-loop.cpp:89-94 | a failed storage with a pending VM stays so after every step, with something queued |
| Draining.StuckNeverEmpty | src/events/event-loop.cpp:33-42 | a drain that gets stuck at any point has an empty queue at no point |
| Draining.EndsIffEmptyInTime | src/events/event-loop.cpp:33-42 | a drain ends if and only if it is over after as many steps as the starting potential |
| Draining.StuckIffStuckInTime | src/events/event-loop.cpp:33-42 | a drain gets stuck if and only if it is stuck after as many steps as the starting potential |
| Draining.ReachableDrain | src/events/event-loop.cpp:33-42 | a drain leads from reachable states to reachable states, so the guarantees hold after it |
| FaultyBatches.FaultyDrainEnds | src/infrastructure/vm-storage.cpp:5-72 | from rest with a working storage, after any allowed batch with a request for an unknown handle or a command for the storage itself, the drain ends, in any order, if and only if no created VM is requested with no unknown handle requested after it |
| FaultyBatches.DrainEndsIffNotDoomed | src/infrastructure/vm-storage.cpp:5-72 | from rest after well-formed batches, after any allowed batch that has such a fault or deletes no VM twice, the drain ends if and only if the batch does not have both a fault and a VM left pending by it |
| FaultlessBatches.FaultlessDrainEnds | src/infrastructure/vm.cpp:162-200 | from rest with a working storage, after any allowed batch without such a fault, the drain ends, in any order, if and only if no command has a deletion reported within the first instant that finds its VM gone, by an earlier report or before the batch, while some created VM was requested and is not gone |
| FaultlessBatches.DrainEndsIffNotFatal | src/infrastructure/vm-storage.cpp:118-128 | from every state at rest and after every allowed batch at all, the drain ends if and only if the storage had failed already or the batch is not fatal: not faulty with a created VM left pending, and not misreported as above |
| FaultlessBatches.AnyDrainEndsIffNotDoomed | src/infrastructure/vm.cpp:162-176 | from every state at rest with a working storage and for every allowed batch in which each VM to be deleted has a positive delay, the drain ends if and only if the batch does not have both a fault and a VM left pending by it |
| RepeatedDeletes.DeletedAgainAndAgain | src/infrastructure/vm.cpp:162-200 | a reachable state at rest and an allowed batch without a fault, deleting one VM four times with zero delay, after which no drain ever ends |
| RepeatedDeletes.DeletedSlowly | src/infrastructure/vm.cpp:162-176 | with a positive delay for that VM the same batch meets the requirement of `AnyDrainEndsIffNotDoomed`, and every drain ends |
| FirstInstant.FateKept | src/events/event-loop.cpp:63-97 | where playing the storage and the VMs alone through the first instant leads is not changed by a dispatch within that instant, whoever it is for and in whatever order |
| FirstInstant.FateDecides | src/events/event-loop.cpp:89-95 | when everything queued is due now and no VM is on its way to a server, a drain gets stuck if and only if playing the storage and the VMs alone through this instant leaves a failed storage with a pending VM |
| FirstUpdate.StuckByFirstUpdate | src/events/event-loop.cpp:89-95 | when everything queued is due now, a drain gets stuck if and only if it is stuck by the end of its first world update |
| Confluence.OrderDoesNotMatter | src/events/event-loop.cpp:33-42 | if a drain is over after some number of steps with one family of iteration orders, then so it is with any other, in the same state, and the histories differ by exchanges of unrelated simultaneous events only |
| Confluence.SameEnd | src/custom/cloud-schedulers/place-to-first.h:20-49 | any two drains of a reachable state that are over, whatever their orders and lengths, leave the same VMs, power states, guests and storage, at the same time, and have dispatched the same events |
| Confluence.EndsInAnyOrder | src/events/event-loop.cpp:33-42 | whether a drain ends does not depend on the orders of iteration |
| Confluence.HandlersCommute | src/events/event-loop.cpp:77-87 | handling two unrelated events in either order leaves the same actors, and neither changes what the other sends |
| Confluence.ReactShuffled | src/infrastructure/resource.cpp:74-82 | another order of iteration changes no actor, and what a handler sends only by exchanging unrelated events |
| Exchanging.SoundAlike | src/events/event-loop.cpp:63-97 | exchanging unrelated neighbours in the queue or the history keeps the whole invariant |
| Exchanging.SubjectKnown | src/infrastructure/vm-storage.cpp:74-116 | while the storage works, what a queued decision or hosting report is about is in the storage |
| Reordering.BlocksBack | src/events/event-loop.cpp:9-31 | two blocks of mutually unrelated events may be inserted in either order, up to exchanging unrelated neighbours |
| Draining.FanOut | src/infrastructure/resource.cpp:71-90 | the commands a power command sends to its components, and its completion, weigh less than the command, in whatever order the components are walked |
| Draining.UpdateKeepsPotential | src/custom/cloud-schedulers/place-to-first.h:20-49 | a world update exchanges the charge of each waiting VM for the events that place it, exactly |
| Witness.DrainingCanGoOnForever | src/infrastructure/vm-storage.cpp:8-11 | a concrete script of three commands and three steps after which, for every iteration order, no drain ever ends |
| Batches.WellFormedBatchesNeverFail | src/infrastructure/vm-storage.cpp:5-128 | along every script of well-formed batches (requests for VMs the storage knows, no other command for the storage, no VM deleted twice, anything else allowed) the storage never fails, and from every state on the way the drain ends |
| Batches.TameRun | src/infrastructure/vm-storage.cpp:5-128 | the invariant behind it: requests stand first and are known to the storage, a creation is never overtaken by the deletion of its VM, every VM is exactly one of being created, known, deleted |
| Batches.ReportKnown | src/infrastructure/vm-storage.cpp:102-116 | in such a run a hosting report finds its VM still in the storage |
| Batches.DeletionKnown | src/infrastructure/vm-storage.cpp:118-128 | in such a run a deletion finds its VM still in the storage |
| Guarantees.PlacedAtMostOnce | src/infrastructure/vm-storage.cpp:74-116 | while the storage works, at most one creation, one placement, one start, one start completion and one hosting report of each VM is ever sent, over the whole run |
| Guarantees.OverwritesAreExpected | src/infrastructure/vm-storage.cpp:74-116 | the two unchecked overwrites only ever meet a pending VM and a provisioning VM |
| Guarantees.StatusMovesForward | src/infrastructure/vm-storage.cpp:57-116 | over every step a status stays, or moves one place along created, pending, provisioning, hosted, or the VM is removed or newly created |
| Guarantees.ViewsAgree | src/infrastructure/server.cpp:34-60 | with a working storage: created or pending VMs are on no server and were never started; started VMs are on the first server and on no other; running VMs are hosted or about to be reported so; hosted VMs are on the first server and past starting |
| Guarantees.HostedBeforeDeleted | src/infrastructure/vm.cpp:94-107 | in every run and interleaving the hosting report of a VM is dispatched before any deletion report of it |
| Guarantees.ClockNeverGoesBack | src/events/event-loop.cpp:71-95 | dispatched times never decrease, nothing queued is due before the last of them, the clock shows that time or the next, and every inserted event was dispatched or is queued: the branch for past timestamps is never taken |
| Guarantees.Quiescence | src/events/event-loop.cpp:33-42 | with an empty queue no resource is between two power states, no VM is starting, stopping or restarting, and no VM is pending |
| Guarantees.NeverCrashes | src/core/world.cpp:56-61 | every handle in the storage and on a server is a VM created in full, so no lookup of the world update fails, and no null notificator is ever dereferenced |
| Guarantees.NoDecisionInFlight | src/events/event-loop.cpp:89-95 | when a world update runs no placement decision is in flight, whether the storage works or not |
| Guarantees.DecisionsBeforePlacements | src/custom/cloud-schedulers/place-to-first.h:20-49 | a world update leaves one decision for each pending VM ahead of one placement for each, ahead of everything later, for any number of VMs in any order of iteration |
| Updates.UpdatedAtMostTwice | src/events/event-loop.cpp:89-95 | within one drain and while the storage works the world is updated at most twice at the same timestamp |
| EndToEnd.ProvisioningCompletes | src/core/world.cpp:154-164 | from rest, any number of created VMs requested together end up running, hosted in the storage, and on the first server, each having completed its start at exactly the request time plus its own start delay; every other VM and every resource is unchanged |
| EndToEnd.RunsExactlyOnTime | src/infrastructure/vm.cpp:80-107 | at every point of that drain a requested VM runs if and only if its start completion, due at that exact time, has been dispatched |
| EndToEnd.MovesOn | src/custom/cloud-schedulers/place-to-first.h:14-50 | each VM goes through eight stages, one event at a time, and at each stage exactly the matching events are in flight; a placement never overtakes its decision |
| Retiring.RetiringCompletes | src/infrastructure/vm.cpp:131-200 | from rest, any commands that stop running VMs and delete VMs in the storage, each a different one, run to the end in any order: every VM is stopped, or deleting and out of the storage, each through exactly three events, the command, its completion at the command's time plus the VM's own delay, and the removal at that same time; nobody and nothing else has changed, and the clock is one past the last completion |
| Retiring.RetiresExactlyOnTime | src/infrastructure/vm.cpp:131-200 | at every point of that drain a VM runs, has stopped, is deleting, or is out of the storage exactly if the event of its own that says so, due at its own time, has been dispatched |
| RequestLaws.CloudAsked | src/core/world.cpp:106-123 | a session that asks for the cloud on with everything off, or for it off with nothing off, finds every resource on, or off, when the simulation has run dry, and nothing else changed |
| RequestLaws.VMAsked | src/core/world.cpp:125-146 | one that asks for a VM under a free name and with a model finds it under that name and the next handle, with that model, waiting to be started and known to the storage as created |
| RequestLaws.ProvisionAsked | src/core/world.cpp:154-164 | one that asks for a created VM to be provisioned while the first server is on finds it running, hosted there, its start completed at the request time plus its delay |
| RequestLaws.StopAsked | src/core/world.cpp:172-182 | one that asks for a running VM to stop finds it stopped, the clock one past its delay, and nobody else changed |
| RequestLaws.DeleteAsked | src/core/world.cpp:184-194 | one that asks for a VM in the storage to be deleted, for the first time, finds it out of the storage, the clock one past its delay, and nobody else changed |
| RequestLaws.WholeLife | src/core/world.cpp:14-194 | from any configuration with distinct names and a first server: the cloud asked on, then a VM asked for, provisioned, stopped and deleted, is all on, created with its model, running on the first server of the first data center by name, stopped, and gone from the storage, though still a guest of the server |
| RequestLaws.PowerPosts | src/core/rpc-service.cpp:12-42 | while a batch is given, asking for power adds exactly the boot or the shutdown of the resource of that name behind the queue, due now, or nothing if the name is no resource's |
| RequestLaws.ProvisionPosts | src/core/world.cpp:154-164 | asking for a place puts the request in front of everything, or nothing if the storage does not know the VM |
| RequestLaws.StopPosts | src/core/world.cpp:172-182 | asking to stop puts exactly that command for the VM behind the queue, if it was made in full |
| RequestLaws.DeletePosts | src/core/world.cpp:184-194 | asking to delete puts exactly that command behind the queue the first time, and nothing after that |
| RequestLaws.CreationPosts | src/core/world.cpp:125-146 | asking for a VM uses up the next handle; a free name goes to it; with a free name and a model it has both its model and its storage, which is told, and otherwise neither |
| RequestLaws.AnsweredInOrder | src/core/world.cpp:106-194 | requests are answered first come, first served: a batch and then another are answered as one after the other |
| RequestLaws.PlayedInOrder | src/core/world.cpp:148-152 | so are batches, each after the one before has run dry |
| Cascade.CascadeCompletes | src/infrastructure/resource.cpp:66-143 | booting, or shutting down, the cloud at rest: the drain ends, every resource has completed at exactly the sum of the delays on its root path, exactly two events per resource were dispatched, and no VM or storage status changed |
| Cascade.ReachedExactlyOnTime | src/infrastructure/resource.cpp:66-143 | at every point of such a drain a resource has reached its final state if and only if its completion, due at its own time, has been dispatched |
| Cascade.BootShutdownRoundTrip | src/infrastructure/resource.cpp:66-143 | boot, drain, shutdown, drain: every resource is off again, with four events dispatched for each |
| BootOnly.BootsNeverFail | src/infrastructure/resource.cpp:66-132 | in runs whose only power commands are boots no resource fails, and a resource is turning on if and only if exactly one completion of its boot is queued |
| BootOnly.RunsExactlyTheCommanded | src/infrastructure/resource.cpp:66-91 | at rest in such a run exactly the commanded resources and everything below them are on, all others off |
| Soundness.ReachableIsSound | src/events/event-loop.cpp:63-97 | the whole invariant holds in every reachable state: any script of commands and steps, any iteration order at every step |
| Soundness.RunIsReachable | src/core/world.cpp:106-194 | where any script of enabled commands and steps leads from an initial state is a reachable state |
| Soundness.ReachableNext | src/core/world.cpp:106-194 | an enabled command or step leads from a reachable state to a reachable state |
| Soundness.SoundStep | src/events/event-loop.cpp:63-97 | one step keeps the invariant |
| Soundness.SoundExecute | src/core/world.cpp:106-194 | one command keeps the invariant |
| Clock.TimelyRun | src/events/event-loop.cpp:9-31 | queue and history stay sorted, and the clock and the insertion count stay in step with them, along every run |
| Registry.KnownDispatch | src/events/event-loop.cpp:77-87 | every queued and every dispatched event stays addressed as its kind allows, to a registered actor of the right kind; only removals from a server, and the deletion report of a VM whose creation failed half-way, go to nobody |
| Registry.LookupsSucceed | src/custom/cloud-schedulers/place-to-first.h:20-33 | no lookup of the world update can fail |
| Registry.KnownExecute | src/core/world.cpp:106-194 | a command on a registered name keeps every handle known |
| Deciding.LeadDispatch | src/events/event-loop.cpp:21-30 | placement decisions stay at the head of the queue, at the last dispatched time, with nothing but provision requests among them |
| Deciding.DecidedDispatch | src/infrastructure/vm-storage.cpp:74-84 | at most one decision per VM is in flight, and while the storage works it concerns a pending VM |
| Lives.ConservedDispatch | src/infrastructure/vm.cpp:80-197 | nothing is started, completed, reported or deleted more often than the event that causes it was dispatched |
| Lives.HousedDispatch | src/infrastructure/server.cpp:34-60 | only the first server ever holds a VM, and only after a placement of it |
| Lives.NoWayBack | src/infrastructure/vm.cpp:37-197 | once running a VM is never provisioning or starting again, and a deletion only ends in deleting or failure |
| Lives.Fresh | src/util/types.h:45-49 | nothing has ever been sent to, or about, a handle not given out yet |
| Placement.StatusAfter | src/infrastructure/vm-storage.cpp:5-128 | what a dispatch that leaves the storage working does to the status of any one VM, by the event at the head |
| Placement.TracedDispatch | src/infrastructure/vm-storage.cpp:74-116 | statuses and placements sent so far stay in the relation that gives exactly-once placement |
| Placement.DecisionBeforePlacement | src/custom/cloud-schedulers/place-to-first.h:35-49 | a placement cannot be dispatched while the decision about its VM is in flight |
| PowerFlow.OutPower | src/infrastructure/resource.cpp:66-118 | a power command that is obeyed sends itself to each component and one completion to the resource, all after the resource's own delay; otherwise nothing |
| PowerFlow.PowerTokenAfter | src/infrastructure/resource.cpp:66-143 | how many commands and completions for one resource are in flight after any dispatch, in any order of iteration |
| PowerFlow.PoweringDispatch | src/infrastructure/resource.cpp:66-143 | a resource between two power states always has its completion in flight |
| HostedFirst.InOrderDispatch | src/infrastructure/vm.cpp:94-107 | no hosting report is ever behind a deletion of the same VM, in the queue or across history and queue |
| Effects.StartCauses | src/infrastructure/vm.cpp:80-144 | a start, its completion, a hosting report or a stop completion is scheduled exactly when the head is its one cause and the VM is in the one state that allows it |
| Effects.EndCauses | src/infrastructure/vm.cpp:162-197 | a delete completion and a deletion report are scheduled exactly when the head is their one cause and the VM allows it |
| Effects.VMAfter | src/infrastructure/vm.cpp:37-78 | a dispatch changes the state of no VM but the addressee |
| Effects.StorageAfter | src/infrastructure/vm-storage.cpp:5-43 | a dispatch changes the storage only if it is the addressee |
| Effects.GuestsAfter | src/infrastructure/server.cpp:34-60 | a server only ever gains guests, and only the first server does, while it runs |
| Effects.PowerStateAfter | src/infrastructure/resource.cpp:33-143 | a dispatch changes the power state of no resource but the addressee |
| Laws.VMEventsDue | src/infrastructure/vm.cpp:80-200 | in any state, handling an event for a VM adds one event to the queue at most, due at the time of the event plus the start, restart, stop or delete delay if it is that command, and at exactly the time of the event otherwise; nothing is taken away |
| Laws.VMLaw | src/infrastructure/vm.cpp:37-200 | in any state, the state, owner and queue a dispatch leaves for each pair of an event and a state of its VM, including events nobody sends; nobody else changes |
| Laws.StorageLaw | src/infrastructure/vm-storage.cpp:5-128 | in any state, the statuses and the health a dispatch leaves for each event for the storage, known and unknown VMs, foreign and untyped events; nothing is posted and nobody else changes |
| Laws.PowerLaw | src/infrastructure/resource.cpp:33-150 | in any state, the power state and the queue a dispatch leaves for each event for a resource; reboots and foreign events change nothing |
| Laws.ServerLaw | src/infrastructure/server.cpp:9-86 | in any state, the power state, guests and queue a dispatch leaves for each event for a server, and that only a successful removal records a crash |
| Laws.NobodyLaw | src/events/event-loop.cpp:77-87 | an event for nobody is taken off and logged, and changes nothing |
| Laws.InsertLaw | src/events/event-loop.cpp:8-31 | in a sorted queue an immediate event goes before everything due at its time or later and a deferred one behind everything due at its time or earlier; one in the past is dropped; the rest keeps its order |
| Laws.CommandLaw | src/core/world.cpp:106-194 | every command posts exactly its event, due now, deferred unless it is a provision request; a creation uses up the next handle |
| Laws.NoDelay | src/infrastructure/vm.h:121-122 | whoever has no delays of their own has none |
| StepFacts.DispatchShape | src/events/event-loop.cpp:63-84 | a dispatch takes the head off and adds what its handler schedules behind everything due no later; no handler schedules into the past |
| StepFacts.OutShape | src/infrastructure/resource.cpp:71-90 | only power commands fan out; every other handler schedules at most one event |
| StepFacts.ScanShape | src/custom/cloud-schedulers/place-to-first.h:20-49 | walking the VMs in any order turns the placements made at a dry instant into all decisions, latest first, then all placements, earliest first |
| StepFacts.UpdateTokens | src/custom/cloud-schedulers/place-to-first.h:20-49 | a world update sends exactly one decision and one placement for each pending VM and nothing else |
| StepFacts.ExecuteShape | src/core/world.cpp:106-194 | a command adds at most one event, ahead of or behind what is queued for now, and at most one actor |
| BucketQueue.PutRefines | src/events/event-loop.cpp:9-31 | inserting into the map of deques is inserting into the sorted list: a deferred event behind everything due no later, an immediate one ahead of everything due no earlier; no deque is left empty |
| BucketQueue.FrontIsHead | src/events/event-loop.cpp:69-75 | the front of the earliest deque is the head of the list |
| BucketQueue.HeadIsEarliest | src/events/event-loop.cpp:69-75 | the head of the list is in the earliest deque |
| BucketQueue.PopRefines | src/events/event-loop.cpp:74-75 | taking the front of the earliest deque takes the head of the list |
| BucketQueue.DryTogether | src/events/event-loop.cpp:89-90 | the running deque is empty if and only if the list holds nothing more for that time |
| BucketQueue.CloseRefines | src/events/event-loop.cpp:89-90 | removing the dry deque changes nothing |
| BucketQueue.EmptyTogether | src/events/event-loop.cpp:36-38 | there is no deque if and only if the list is empty |
| BucketQueue.OwnTimes | src/events/event-loop.cpp:21-30 | every deque holds only events of its own time |
| BucketQueue.OneList | src/events/event-loop.cpp:9-31 | the deques stand for one sorted list only |
| BucketQueue.FirstComeFirstServed | src/events/event-loop.cpp:21-30 | among equal times deferred events leave in the order they came, behind all immediate ones, which leave in the opposite order, whatever is inserted in between |
| Loop.EventLoop.Insert | src/events/event-loop.cpp:9-31 | the deques afterwards stand for the list with the event inserted, or for the same list when the event is in the past |
| Loop.EventLoop.TakeNext | src/events/event-loop.cpp:69-75 | takes the head of the list, moves the clock to its time, and leaves at most the running deque empty |
| Loop.EventLoop.Erase | src/events/event-loop.cpp:89-90 | afterwards no deque is empty and the list is unchanged |
| Loop.EventLoop.Advance | src/events/event-loop.cpp:94 | the clock moves on by one and nothing else changes |
| VMActor.VM.HandleEvent | src/infrastructure/vm.cpp:37-78 | the VM and the events it schedules are those of the state machine, for every event type including foreign ones; what those are, and when due, is `Laws.VMLaw` and `Laws.VMEventsDue` |
| VMActor.VM.Start | src/infrastructure/vm.cpp:80-92 | starts only a provisioning VM and schedules its completion after the start delay; any other state fails |
| VMActor.VM.CompleteStart | src/infrastructure/vm.cpp:94-107 | a starting VM runs and reports to its storage at the same time |
| VMActor.VM.Restart | src/infrastructure/vm.cpp:109-121 | restarts a running or failed VM and schedules the completion |
| VMActor.VM.CompleteRestart | src/infrastructure/vm.cpp:123-129 | a restarting VM runs |
| VMActor.VM.Stop | src/infrastructure/vm.cpp:131-143 | stops only a running VM and schedules the completion |
| VMActor.VM.CompleteStop | src/infrastructure/vm.cpp:145-160 | a stopping VM is stopped, asks its owner to be removed, and forgets the owner |
| VMActor.VM.Delete | src/infrastructure/vm.cpp:162-175 | deletes a running, stopped or failed VM and schedules the completion |
| VMActor.VM.CompleteDelete | src/infrastructure/vm.cpp:177-197 | a deleting VM stays so and notifies its owner, or its storage when it has none |
| StorageActor.VMStorage.HandleEvent | src/infrastructure/vm-storage.cpp:5-43 | the storage does what the state machine says; once failed it ignores everything |
| StorageActor.VMStorage.AddVM | src/infrastructure/vm-storage.cpp:45-55 | a new VM is created, a known one fails the storage |
| StorageActor.VMStorage.MoveToPending | src/infrastructure/vm-storage.cpp:57-72 | a created or stopped VM becomes pending, any other known one is left alone, an unknown one fails the storage |
| StorageActor.VMStorage.MoveToProvisioning | src/infrastructure/vm-storage.cpp:74-84 | any known VM becomes provisioning, an unknown one fails the storage |
| StorageActor.VMStorage.MoveToStopped | src/infrastructure/vm-storage.cpp:86-100 | any known VM becomes stopped, an unknown one fails the storage |
| StorageActor.VMStorage.MoveToHosted | src/infrastructure/vm-storage.cpp:102-116 | any known VM becomes hosted, an unknown one fails the storage |
| StorageActor.VMStorage.DeleteVM | src/infrastructure/vm-storage.cpp:118-128 | a known VM is removed, an unknown one fails the storage |
| ResourceActors.Resource.HandleEvent | src/infrastructure/resource.cpp:33-64 | for some enumeration of the components the resource and the events it schedules are those of the state machine |
| ResourceActors.Resource.Command | src/infrastructure/resource.cpp:74-82 | the loop over the components posts the command once to each of them |
| ResourceActors.Resource.StartBoot | src/infrastructure/resource.cpp:66-91 | only an off resource turns on and posts the cascade and its completion |
| ResourceActors.Resource.StartShutdown | src/infrastructure/resource.cpp:93-117 | any resource that is not off turns off and posts the cascade and its completion |
| ResourceActors.Resource.CompleteBoot | src/infrastructure/resource.cpp:124-132 | ends in running if the resource was turning on, in failure otherwise |
| ResourceActors.Resource.CompleteShutdown | src/infrastructure/resource.cpp:134-143 | ends in off if the resource was turning off, in failure otherwise |
| ResourceActors.Server.HandleEvent | src/infrastructure/server.cpp:9-32 | its own events are handled as the state machine says, all others as a resource |
| ResourceActors.Server.ProvisionVM | src/infrastructure/server.cpp:34-60 | a running server takes the VM in and starts it, one that is not running fails |
| ResourceActors.Server.UnprovisionVM | src/infrastructure/server.cpp:62-86 | removes a guest and then dereferences the null notificator, recorded as a crash; a server that is not running fails |
| ResourceActors.Cloud.AddDataCenter | src/infrastructure/cloud.h:24-28 | the list and the component set stay in step |
| ResourceActors.DataCenter.AddServer | src/infrastructure/data-center.h:16-20 | the list and the component set stay in step |
| Register.ActorRegister.Make | src/events/actor-register.h:48-70 | the new actor is filed under a fresh handle, and under its name unless the name is taken, in which case it stays in the register nameless |
| Register.ActorRegister.GetActor | src/events/actor-register.h:27-41 | succeeds exactly for the handles given out, with the actor of that handle |
| Register.ActorRegister.GetActorHandle | src/events/actor-register.h:43-46 | succeeds exactly for registered names, with the handle of an actor that is there |
| Schedulers.MemoryConserved | src/custom/server-schedulers/greedy.h:25-41 | what is left and what was granted add up to the server's memory, for every order, with no underflow |
| Schedulers.SharingIsMaximal | src/custom/server-schedulers/greedy.h:32-41 | whoever got nothing asked for more than is left in the end |
| Schedulers.AllSaturatedIfTheyFit | src/custom/server-schedulers/greedy.h:32-35 | when the total fits everybody gets what they asked for |
| Schedulers.SameTotal | src/custom/server-schedulers/greedy.h:27-42 | the total demand is the same in every order of iteration |
| Schedulers.SharesOut | src/custom/server-schedulers/greedy.h:27-42 | asking every guest once in any order makes such a sharing, and serves nobody twice |
| Schedulers.LeftBySet | src/custom/server-schedulers/greedy.h:25-41 | what a sharing leaves is the memory less what the set of saturated guests asks for together |
| Schedulers.SharingIsGreedy | src/custom/server-schedulers/greedy.h:27-42 | every sharing is exactly what asking the guests once in some order comes to |
| Schedulers.GreedyServerScheduler.UpdateSchedule | src/custom/server-schedulers/greedy.h:18-42 | the loop over the guests, in whatever order the set is walked, makes such a sharing of the server's memory, each guest asking once for what its model says at that time |
| Schedulers.ServerSchedulerManager.Make | src/core/resource-scheduler.h:54-69 | one more scheduler, for that server, behind the others |
| Schedulers.ServerSchedulerManager.ScheduleAll | src/core/resource-scheduler.h:47-52 | every scheduler makes its sharing and nothing changes |
| Schedulers.FirstAvailableScheduler.UpdateSchedule | src/custom/cloud-schedulers/place-to-first.h:14-50 | for some enumeration of the storage the queue becomes what the state machine's scan makes of it |
| Worlds.World.Deliver | src/events/event-loop.cpp:77-87 | the addressee handles the event as the state machine says; an unknown addressee is swallowed; every object still holds its part of the state |
| Worlds.World.ShareMemory | src/core/resource-scheduler.h:47-52 | each server with a scheduler shares out its memory among exactly its guests in the state, each asking for what its model says at the clock; nothing changes |
| Worlds.World.UpdateWorld | src/core/world.cpp:56-61 | the memory of every server is shared out, and the sharings are returned; then every pending VM is placed; no object but the loop changes |
| Worlds.World.CloseBucket | src/events/event-loop.cpp:89-95 | the dry deque is removed, the world updated, memory shared out included, and the clock advanced, in that order |
| Worlds.World.RunNext | src/events/event-loop.cpp:63-97 | one turn of the loop is one step of the state machine for some iteration order |
| Worlds.World.SimulateNextStep | src/events/event-loop.cpp:63-97 | the same, also when the queue is empty; the state stays reachable; a step that updates the world has shared out the memory; no model, memory or list of members changes |
| Worlds.World.SimulateAll | src/events/event-loop.cpp:33-42 | returns, with an empty queue, in the state of a drain of the state machine, whenever no drain from here gets stuck; no VM's model, server's memory or list of members changes |
| Worlds.CanDrainIffOneEnds | src/events/event-loop.cpp:33-42 | no drain from here gets stuck, in whatever order, if and only if the drain in any one order is over after as many steps as the potential |
| Worlds.RestCanDrainIffNotFatal | src/core/world.cpp:148-152 | after any allowed batch given at rest, no drain gets stuck in any order, and so `SimulateAll` may be called, if and only if the storage had failed already or the batch is not fatal |
| Worlds.BatchesCanDrain | src/core/world.cpp:148-152 | after any script of well-formed batches that condition holds |
| Worlds.World.DoResourceAction | src/core/world.cpp:106-123 | executes the state machine's power command for a known name, and nothing for an unknown one |
| Worlds.World.CreateVM | src/core/world.cpp:125-146 | executes the creation; when it is accepted the name stands for a VM with exactly the given model; a name already taken or a refused model leaves an actor without storage and model, and only the refused model keeps the name; no other actor's model, memory or members change |
| Worlds.World.DoProvisionVM | src/core/world.cpp:154-164 | posts the request ahead of everything queued for now; an unknown name changes nothing |
| Worlds.World.DoRebootVM | src/core/world.cpp:166-170 | only resolves the name |
| Worlds.World.DoStopVM | src/core/world.cpp:172-182 | executes the stop command for a known name |
| Worlds.World.DoDeleteVM | src/core/world.cpp:184-194 | executes the delete command for a known name |
| Tree.BelowKeepsTree | src/core/config.cpp:136-139 | adding a component keeps the tree a tree |
| Tree.ServerKeepsTree | src/core/config.cpp:169-184 | adding a server keeps the tree a tree |
| Tree.TreeIsWellFormed | src/core/config.cpp:127-186 | a tree is all the simulator asks of its configuration exactly if it has a first server |
| Layout.ConfigurationLaidOut | src/core/config.cpp:127-186 | with distinct names, read off the list of data centers: handles go from three on in the order of the list; each data center goes by its name, hangs below the cloud and lists its servers in order; each server goes by its name, hangs below its data center, has its own memory, and its scheduler in its turn; the first of all is where VMs go; there is nothing else and nothing has a delay |
| Layout.ServerByName | src/core/config.cpp:141-186 | the same by name for any one server: handle, place, memory and scheduler |
| Layout.StaffedIsWellFormed | src/core/config.cpp:127-186 | with distinct names and a server in the first data center the tree is well-formed over handles already given out |
| Setups.Site.AddDataCenter | src/core/config.cpp:136-139 | the register, the cloud and the configuration grow by the same data center under the next handle; a taken name is an error |
| Setups.Site.AddServer | src/core/config.cpp:169-184 | the register, the data center and the configuration grow by the same server under the next handle, with the memory of its specification and a scheduler of its own; a taken name is an error |
| Setups.Site.AddServers | src/core/config.cpp:141-186 | all servers of one data center in order, each with the memory of its own specification, or an error at the first repeated name; `Layout.ServerByName` reads the result off the list |
| Setups.Site.ParseResources | src/core/config.cpp:127-186 | succeeds exactly if no name is used twice; then names, handles, tree, memory, lists of members and schedulers are those the list of data centers comes to (`Layout.ConfigurationLaidOut`), and VMs go to the first server of the first data center, if it has one |
| Setups.Setup | src/core/world.cpp:14-68 | succeeds exactly if no name is used twice, with the state machine in its initial state over exactly the tree, names, memory, lists of members and schedulers the list of data centers comes to, laid out as the list says; the world is fit to run exactly if the first data center has a server |
| Sessions.Give | src/core/world.cpp:106-194 | a request gives exactly the command it comes to, or nothing (power for resources, provision for what the storage knows, stop and delete for VMs created in full, delete once), and names, models and remembered deletions change exactly as that says; what each posts and comes to is in `RequestLaws` |
| Sessions.Serve | src/core/world.cpp:148-152 | the requests of a batch are answered one after the other, which gives exactly the commands they come to, and the simulation is run dry, which always ends |
| Sessions.Play | src/core/world.cpp:106-194 | after any number of batches the world is what answering each and running it dry makes of the initial one, and after every one of them nothing is in transition, no VM is pending and the storage works |
| Sessions.Simulate | src/core/world.cpp:14-68 | the same from the configuration on: state and names are a function of the data centers, the batches and the walks |
| Sessions.BatchIsItsCommands | src/core/world.cpp:106-194 | answering a batch is giving the commands its requests come to, each of them well-formed when it is given |
| Sessions.OutcomeIsDetermined | src/core/world.cpp:148-152 | two sessions that answer the same batches, whatever the iteration orders, end in the same state with the same names, and with histories that differ by exchanges of unrelated simultaneous events only |

## Left out

- gRPC service, client and remote scheduler: commands are calls made one after the other; the threads of the service are not modelled.
- Command line, highlighting and logging: log calls do nothing here.
- Parsing of YAML and arguments: the configuration is the list of data centers and servers that parsing yields, with the final name and the memory of each server; the check of the scheduler's name is not part of this model.
- `SimulateUntil` and `SimulateSteps`: the world never calls them.
- Callbacks: the loop calls the register and the schedulers through closures set up by the world; here the world holds `SimulateNextStep` itself and the actors hold the loop.
- Cancellation and notificators: nobody replaces the default closure or sets a notificator, so events carry neither; the one place that reads a notificator is recorded as a crash.
- Null events, and the `kNone` state of a VM: events are values here, and no VM is ever put in that state.
- Delay setters: the world never calls them, so the objects of `Setups.Setup` have no delays; the state machine and every method take arbitrary delays, fixed over a run.
- Reboot of resources and VMs: the handler of the first is empty, the second command only resolves its name.
- Restart and stop reports: both have handlers, but no command or handler sends them, which the invariant of `Registry` shows.
- Energy metering: the meter is never wired.
- Workload models: a workload is an arbitrary function from time to memory, fixed when a VM is created; processor and bandwidth demands are never read.
- Integer width: timestamps, delays, memory sizes and handles are unbounded integers.
- Names inside the state machine: its commands take handles; names are resolved by `Worlds.World`, which also reports unknown ones.
- Class inheritance: a server, a data center and the cloud have a resource as a part instead of being one.
- Worlds.World.SimulateAll: asks that no drain from its state gets stuck, because the loop would never leave otherwise; that this condition is exact, and can be told in advance, is `Draining.DrainEndsIffNeverStuck` and `Worlds.CanDrainIffOneEnds`, and from the commands alone `Worlds.RestCanDrainIffNotFatal`.
- Running a world whose first data center has no server: it is set up but not run here, because the scheduler indexes both lists without checking when it places a VM.
