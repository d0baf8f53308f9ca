/**
 The queue as the loop keeps it, one deque for each time, and why it behaves like one list
 sorted by time.
 */
module BucketQueue {
  import opened Types
  import opened FlatQueue

  type Buckets = map<int, seq<Event>>

  // The events of `q` that happen at `t`, in their order.
  function At(q: seq<Event>, t: int): (r: seq<Event>)
    ensures forall e :: e in r <==> e in q && e.time == t
  {
    if q == [] then []
    else
      assert q == [q[0]] + q[1..];
      (if q[0].time == t then [q[0]] else []) + At(q[1..], t)
  }

  function Bucket(m: Buckets, t: int): seq<Event> {
    if t in m then m[t] else []
  }

  // `q` is the list the deques stand for: sorted, and the deque of each time is what `q` holds of it.
  ghost predicate Refines(m: Buckets, q: seq<Event>) {
    Sorted(q) && forall t :: Bucket(m, t) == At(q, t)
  }

  ghost predicate NoneEmpty(m: Buckets) {
    forall t :: t in m ==> m[t] != []
  }

  // ----- insertion -----

  function Put(m: Buckets, e: Event, immediate: bool): Buckets {
    if e.time in m
    then m[e.time := if immediate then [e] + m[e.time] else m[e.time] + [e]]
    else m[e.time := [e]]
  }

  lemma {:induction false} AtConcat(a: seq<Event>, b: seq<Event>, t: int)
    ensures At(a + b, t) == At(a, t) + At(b, t)
  {
    if a == [] {
      assert a + b == b;
    } else {
      assert (a + b)[1..] == a[1..] + b;
      AtConcat(a[1..], b, t);
    }
  }

  lemma AtOne(e: Event, t: int)
    ensures At([e], t) == if e.time == t then [e] else []
  {
    assert [e][1..] == [];
  }

  lemma {:induction false} NoneAt(q: seq<Event>, t: int)
    requires forall e :: e in q ==> e.time != t
    ensures At(q, t) == []
  {
    if q != [] {
      assert q[0] in q;
      NoneAt(q[1..], t);
    }
  }

  // Splicing an event into the list splices it into the deque of its time.
  lemma AtSplice(a: seq<Event>, e: Event, b: seq<Event>, t: int)
    ensures At(a + [e] + b, t) == At(a, t) + (if t == e.time then [e] else []) + At(b, t)
    ensures At(a + b, t) == At(a, t) + At(b, t)
  {
    hide At;
    AtConcat(a + [e], b, t);
    AtConcat(a, [e], t);
    AtConcat(a, b, t);
    AtOne(e, t);
  }

  // An insertion between events due before and after `t` goes where its own time says.
  lemma AtSpliceTail(a: seq<Event>, e: Event, b: seq<Event>, t: int)
    requires t == e.time ==> forall x :: x in b ==> x.time != t
    ensures At(a + [e] + b, t) == At(a + b, t) + (if t == e.time then [e] else [])
  {
    hide At;
    AtSplice(a, e, b, t);
    if t == e.time {
      NoneAt(b, t);
    }
  }

  lemma AtSpliceHead(a: seq<Event>, e: Event, b: seq<Event>, t: int)
    requires t == e.time ==> forall x :: x in a ==> x.time != t
    ensures At(a + [e] + b, t) == (if t == e.time then [e] else []) + At(a + b, t)
  {
    hide At;
    AtSplice(a, e, b, t);
    if t == e.time {
      NoneAt(a, t);
    }
  }

  lemma AtInsertBack(q: seq<Event>, e: Event, t: int)
    requires Sorted(q)
    ensures At(InsertBack(q, e), t) == At(q, t) + (if t == e.time then [e] else [])
  {
    hide At, UpTo, Sorted;
    SplitMembers(q, e.time);
    AtSpliceTail(q[..UpTo(q, e.time)], e, q[UpTo(q, e.time)..], t);
  }

  lemma BelowSplit(q: seq<Event>, t: int)
    ensures q == q[..FlatQueue.Below(q, t)] + q[FlatQueue.Below(q, t)..]
    ensures forall x :: x in q[..FlatQueue.Below(q, t)] ==> x.time != t
  {}

  lemma AtInsertFront(q: seq<Event>, e: Event, t: int)
    ensures At(InsertFront(q, e), t) == (if t == e.time then [e] else []) + At(q, t)
  {
    hide At, FlatQueue.Below;
    BelowSplit(q, e.time);
    AtSpliceHead(q[..FlatQueue.Below(q, e.time)], e, q[FlatQueue.Below(q, e.time)..], t);
  }

  lemma InsertSorted(q: seq<Event>, e: Event)
    requires Sorted(q)
    ensures Sorted(InsertBack(q, e)) && Sorted(InsertFront(q, e))
  {
    var t := if q == [] || e.time < q[0].time then e.time else q[0].time;
    InsertBackKeeps(q, e, t);
    InsertFrontKeeps(q, e, t);
  }

  function InsertFlat(q: seq<Event>, e: Event, immediate: bool): seq<Event> {
    if immediate then InsertFront(q, e) else InsertBack(q, e)
  }

  lemma AtInsert(q: seq<Event>, e: Event, immediate: bool, t: int)
    requires Sorted(q)
    ensures Sorted(InsertFlat(q, e, immediate))
    ensures At(InsertFlat(q, e, immediate), t) ==
            if t != e.time then At(q, t) else if immediate then [e] + At(q, t) else At(q, t) + [e]
  {
    hide At, InsertBack, InsertFront, Sorted;
    InsertSorted(q, e);
    AtInsertBack(q, e, t);
    AtInsertFront(q, e, t);
  }

  // A deferred insertion goes behind everything up to its time, an immediate one ahead of
  // everything from its time on; no deque is left empty by it.
  lemma PutRefines(m: Buckets, q: seq<Event>, e: Event, immediate: bool)
    requires Refines(m, q)
    ensures Refines(Put(m, e, immediate), InsertFlat(q, e, immediate))
    ensures NoneEmpty(m) ==> NoneEmpty(Put(m, e, immediate))
  {
    hide At, InsertFlat, Sorted;
    AtInsert(q, e, immediate, e.time);
    forall t
      ensures Bucket(Put(m, e, immediate), t) == At(InsertFlat(q, e, immediate), t)
    {
      AtInsert(q, e, immediate, t);
      assert Bucket(m, t) == At(q, t);
    }
  }

  // ----- taking the next event -----

  predicate Earliest(m: Buckets, t: int) {
    t in m && forall u :: u in m ==> t <= u
  }

  lemma SomeTime(times: set<int>)
    requires times != {}
    ensures exists t :: t in times
  {
    if forall t :: t !in times {
    }
  }

  lemma EmptyTogether(m: Buckets, q: seq<Event>)
    requires Refines(m, q) && NoneEmpty(m)
    ensures m == map[] <==> q == []
  {
    if m != map[] {
      SomeTime(m.Keys);
      var t :| t in m;
      assert Bucket(m, t) == At(q, t);
    }
    if q != [] {
      QueuedTime(m, q, q[0]);
    }
  }

  lemma QueuedTime(m: Buckets, q: seq<Event>, e: Event)
    requires Refines(m, q) && e in q
    ensures e.time in m && e in m[e.time]
  {
    assert Bucket(m, e.time) == At(q, e.time);
    assert e in At(q, e.time);
  }

  // The front of the earliest deque is the head of the list.
  lemma FrontIsHead(m: Buckets, q: seq<Event>, t: int)
    requires Refines(m, q) && NoneEmpty(m) && Earliest(m, t)
    ensures q != [] && q[0].time == t && m[t][0] == q[0]
  {
    SomeQueued(m, q, t);
    QueuedTime(m, q, q[0]);
    assert Bucket(m, t) == At(q, t);
    assert m[t][0] in At(q, t);
    FirstOfItsTime(q);
  }

  lemma SomeQueued(m: Buckets, q: seq<Event>, t: int)
    requires Refines(m, q) && NoneEmpty(m) && t in m
    ensures q != []
  {
    assert Bucket(m, t) == At(q, t);
  }

  lemma FirstOfItsTime(q: seq<Event>)
    requires q != []
    ensures At(q, q[0].time) != [] && At(q, q[0].time)[0] == q[0]
  {}

  // Something is queued exactly if there is an earliest deque: that of the head.
  lemma HeadIsEarliest(m: Buckets, q: seq<Event>)
    requires Refines(m, q) && NoneEmpty(m) && q != []
    ensures Earliest(m, q[0].time)
  {
    QueuedTime(m, q, q[0]);
    forall t | t in m
      ensures q[0].time <= t
    {
      assert Bucket(m, t) == At(q, t);
      assert m[t][0] in At(q, t);
      var i :| 0 <= i < |q| && q[i] == m[t][0];
    }
  }

  // Taking the front of the earliest deque takes the head of the list.
  lemma PopRefines(m: Buckets, q: seq<Event>)
    requires Refines(m, q) && q != []
    ensures q[0].time in m && m[q[0].time] != []
    ensures Refines(m[q[0].time := m[q[0].time][1..]], q[1..])
  {
    var t0 := q[0].time;
    assert q == [q[0]] + q[1..];
    forall t
      ensures At(q, t) == (if t == t0 then [q[0]] else []) + At(q[1..], t)
    {
      AtConcat([q[0]], q[1..], t);
      AtOne(q[0], t);
    }
    assert Bucket(m, t0) == At(q, t0);
    hide At;
    forall t
      ensures Bucket(m[t0 := m[t0][1..]], t) == At(q[1..], t)
    {
      assert Bucket(m, t) == At(q, t);
    }
  }

  // Whether the running deque is empty decides whether the list still holds that instant.
  lemma DryTogether(m: Buckets, q: seq<Event>, t: int)
    requires Refines(m, q) && AllFrom(q, t)
    ensures Bucket(m, t) == [] <==> q == [] || q[0].time != t
  {
    assert Bucket(m, t) == At(q, t);
    if q != [] && q[0].time != t {
      forall e | e in q
        ensures e.time != t
      {
        var i :| 0 <= i < |q| && q[i] == e;
        assert q[0].time <= q[i].time;
      }
      NoneAt(q, t);
    }
  }

  lemma CloseRefines(m: Buckets, q: seq<Event>, t: int)
    requires Refines(m, q) && Bucket(m, t) == []
    ensures Refines(m - {t}, q)
  {
    forall u
      ensures Bucket(m - {t}, u) == At(q, u)
    {
      assert Bucket(m, u) == At(q, u);
    }
    hide At;
  }

  // ----- what the deques determine -----

  // Every deque holds only events of its own time.
  lemma OwnTimes(m: Buckets, q: seq<Event>, t: int)
    requires Refines(m, q) && t in m
    ensures forall e :: e in m[t] ==> e.time == t
  {
    assert Bucket(m, t) == At(q, t);
  }

  // The deques stand for one list only.
  lemma {:induction false} OneList(m: Buckets, q1: seq<Event>, q2: seq<Event>)
    requires Refines(m, q1) && Refines(m, q2)
    ensures q1 == q2
    decreases |q1|
  {
    if q1 == [] {
      NoneLeft(m, q1, q2);
    } else if q2 == [] {
      NoneLeft(m, q2, q1);
    } else {
      SameHead(m, q1, q2);
      PopRefines(m, q1);
      PopRefines(m, q2);
      OneList(m[q1[0].time := m[q1[0].time][1..]], q1[1..], q2[1..]);
      assert q1 == [q1[0]] + q1[1..] && q2 == [q2[0]] + q2[1..];
    }
  }

  lemma HeadInBucket(m: Buckets, q: seq<Event>)
    requires Refines(m, q) && q != []
    ensures Bucket(m, q[0].time) != []
  {
    assert Bucket(m, q[0].time) == At(q, q[0].time);
    FirstOfItsTime(q);
  }

  lemma NoBuckets(m: Buckets, q: seq<Event>)
    requires Refines(m, q) && q == []
    ensures forall t :: Bucket(m, t) == []
  {}

  lemma NoneLeft(m: Buckets, q1: seq<Event>, q2: seq<Event>)
    requires Refines(m, q1) && Refines(m, q2) && q1 == []
    ensures q2 == []
  {
    hide Refines, Bucket;
    NoBuckets(m, q1);
    if q2 != [] {
      HeadInBucket(m, q2);
    }
  }

  lemma SameHead(m: Buckets, q1: seq<Event>, q2: seq<Event>)
    requires Refines(m, q1) && Refines(m, q2) && q1 != [] && q2 != []
    ensures q1[0] == q2[0]
  {
    var t1, t2 := q1[0].time, q2[0].time;
    FirstOfItsTime(q1);
    FirstOfItsTime(q2);
    assert Bucket(m, t1) == At(q1, t1) && Bucket(m, t1) == At(q2, t1);
    assert Bucket(m, t2) == At(q1, t2) && Bucket(m, t2) == At(q2, t2);
    assert q1[0] in At(q2, t1) && q2[0] in At(q1, t2);
    hide At;
    NotBefore(q1, q2[0]);
    NotBefore(q2, q1[0]);
  }

  lemma NotBefore(q: seq<Event>, e: Event)
    requires Sorted(q) && e in q
    ensures q != [] && q[0].time <= e.time
  {
    var i :| 0 <= i < |q| && q[i] == e;
  }

  // ----- order of dispatch among equal times -----

  datatype Insertion = Insertion(event: Event, immediate: bool)

  function InsertMany(q: seq<Event>, ops: seq<Insertion>): seq<Event> {
    if ops == [] then q
    else InsertFlat(InsertMany(q, ops[..|ops| - 1]), ops[|ops| - 1].event, ops[|ops| - 1].immediate)
  }

  // The deferred events at `t`, first come first, and the immediate ones, last come first.
  function Deferred(ops: seq<Insertion>, t: int): seq<Event> {
    if ops == [] then []
    else
      var op := ops[|ops| - 1];
      Deferred(ops[..|ops| - 1], t) + if !op.immediate && op.event.time == t then [op.event] else []
  }

  function Immediate(ops: seq<Insertion>, t: int): seq<Event> {
    if ops == [] then []
    else
      var op := ops[|ops| - 1];
      (if op.immediate && op.event.time == t then [op.event] else []) + Immediate(ops[..|ops| - 1], t)
  }

  lemma LastInsertion(q: seq<Event>, ops: seq<Insertion>, t: int)
    requires ops != []
    ensures var init, op := ops[..|ops| - 1], ops[|ops| - 1];
            && InsertMany(q, ops) == InsertFlat(InsertMany(q, init), op.event, op.immediate)
            && Immediate(ops, t) ==
               (if op.immediate && op.event.time == t then [op.event] + Immediate(init, t) else Immediate(init, t))
            && Deferred(ops, t) ==
               (if !op.immediate && op.event.time == t then Deferred(init, t) + [op.event] else Deferred(init, t))
  {
    hide InsertFlat;
  }

  // Whatever is inserted in between at other times, equal-time deferred events leave in the
  // order they came, behind all immediate ones, which leave in the opposite order.
  lemma {:induction false} FirstComeFirstServed(q: seq<Event>, ops: seq<Insertion>, t: int)
    requires Sorted(q)
    ensures Sorted(InsertMany(q, ops))
    ensures At(InsertMany(q, ops), t) == Immediate(ops, t) + At(q, t) + Deferred(ops, t)
  {
    hide At, InsertFlat, Sorted;
    if ops == [] {
      assert [] + At(q, t) + [] == At(q, t);
    } else {
      hide InsertMany, Immediate, Deferred;
      var init, op := ops[..|ops| - 1], ops[|ops| - 1];
      FirstComeFirstServed(q, init, t);
      AtInsert(InsertMany(q, init), op.event, op.immediate, t);
      LastInsertion(q, ops, t);
      OneMore(Immediate(init, t), At(q, t), Deferred(init, t), op.event);
    }
  }

  lemma OneMore(i: seq<Event>, a: seq<Event>, d: seq<Event>, e: Event)
    ensures [e] + (i + a + d) == ([e] + i) + a + d
    ensures (i + a + d) + [e] == i + a + (d + [e])
  {}
}
