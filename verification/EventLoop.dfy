/**
 The event loop: the map of deques and the clock it updates in place. Every actor reaches it to
 schedule events. Its ghost field `world` is the state of the whole simulation as the state
 machine sees it: the loop keeps the clock, the queue and the history of that state in step,
 each actor its own part.
 */
module Loop {
  import opened Types
  import opened BucketQueue
  import opened Simulator

  function MakeEvent(addressee: UUID, happenTime: int, body: Body): Event {
    Event(happenTime, addressee, body)
  }

  function MakeInheritedEvent(addressee: UUID, base: Event, delay: nat, body: Body): Event {
    Event(base.time + delay, addressee, body)
  }

  class EventLoop {
    var currentTs: int
    var queue: Buckets
    ghost var world: State

    ghost predicate Valid()
      reads this
    {
      currentTs == world.now && Refines(queue, world.queue)
    }

    // Every deque holds something, except perhaps the one being run.
    ghost predicate Filled()
      reads this
    {
      forall t :: t in queue && t != currentTs ==> queue[t] != []
    }

    constructor (ghost start: State)
      requires start.now == 1 && start.queue == []
      ensures Valid() && Filled() && world == start && queue == map[] && currentTs == 1
    {
      currentTs := 1;
      queue := map[];
      world := start;
    }

    function Now(): (t: int)
      reads this
    {
      currentTs
    }

    // An event in the past is dropped.
    method Insert(event: Event, immediate: bool)
      requires Valid()
      modifies this
      ensures Valid() && world == Simulator.Insert(old(world), event, immediate)
      ensures world == old(world).(queue := world.queue, inserted := world.inserted)
      ensures currentTs == old(currentTs) && old(queue).Keys <= queue.Keys
      ensures old(Filled()) ==> Filled()
      ensures old(NoneEmpty(queue)) ==> NoneEmpty(queue)
    {
      world := Simulator.Insert(world, event, immediate);
      if event.time < currentTs {
        return;
      }
      PutRefines(queue, old(world).queue, event, immediate);
      hide Refines;
      if event.time in queue {
        if immediate {
          queue := queue[event.time := [event] + queue[event.time]];
        } else {
          queue := queue[event.time := queue[event.time] + [event]];
        }
      } else {
        queue := queue[event.time := [event]];
      }
    }

    // Moves the clock to the earliest deque and takes its front, which may leave it empty.
    method TakeNext() returns (event: Event)
      requires Valid() && NoneEmpty(queue) && world.queue != []
      modifies this
      ensures Valid() && Filled() && currentTs in queue && currentTs == event.time
      ensures event == old(world).queue[0]
      ensures world == old(world).(now := event.time, queue := old(world).queue[1..], log := old(world).log + [event])
    {
      HeadIsEarliest(queue, world.queue);
      var ts :| Earliest(queue, ts);
      FrontIsHead(queue, world.queue, ts);
      PopRefines(queue, world.queue);
      event := queue[ts][0];
      currentTs := ts;
      queue := queue[ts := queue[ts][1..]];
      world := world.(now := event.time, queue := world.queue[1..], log := world.log + [event]);
    }

    // Removes the deque that has run dry.
    method Erase()
      requires Valid() && Filled() && currentTs in queue && queue[currentTs] == []
      modifies this`queue
      ensures Valid() && NoneEmpty(queue)
    {
      CloseRefines(queue, world.queue, currentTs);
      queue := queue - {currentTs};
    }

    method Advance()
      requires Valid()
      modifies this`currentTs, this`world
      ensures Valid() && currentTs == old(currentTs) + 1 && world == Tick(old(world))
    {
      currentTs := currentTs + 1;
      world := Tick(world);
    }
  }

  lemma InsertOne(s: State, e: Event)
    ensures InsertAll(s, [e]) == Simulator.Insert(s, e, false)
    ensures InsertAll(s, []) == s
  {
    hide Simulator.Insert;
    assert [e][..0] == [];
  }

  // An insertion does not look at the VMs.
  lemma InsertElsewhere(s: State, vms: map<UUID, VMData>, e: Event)
    ensures Simulator.Insert(s.(vms := vms), e, false) == Simulator.Insert(s, e, false).(vms := vms)
    ensures Simulator.Insert(s, e, false).vms == s.vms
  {}

  // However many.
  lemma {:induction false} InsertAllAside(s: State, es: seq<Event>)
    ensures InsertAll(s, es) == s.(queue := InsertAll(s, es).queue, inserted := InsertAll(s, es).inserted)
  {
    if es != [] {
      InsertAllAside(s, es[..|es| - 1]);
    }
  }
}
