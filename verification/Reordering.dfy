/**
 Which events can be exchanged without consequence, and queues that differ by such exchanges
 only: commands to resources neither of which is above the other, and events of one and the
 same kind about different VMs.
 */
module Reordering {
  import opened Types
  import opened FlatQueue
  import opened Simulator

  // `a` is `b` or a resource above it.
  predicate Above(c: Config, a: UUID, b: UUID)
    decreases if b in c.depth then c.depth[b] else 0
  {
    a == b ||
    (b in c.parent && b in c.depth && c.parent[b] in c.depth && c.depth[c.parent[b]] < c.depth[b] &&
     Above(c, a, c.parent[b]))
  }

  predicate Unrelated(c: Config, e: Event, f: Event) {
    match e.body
    case ResourceEvent(_) =>
      f.body.ResourceEvent? && e.to in c.components && f.to in c.components && !Above(c, e.to, f.to) && !Above(c, f.to, e.to)
    case StorageEvent(ty, v) =>
      f.body.StorageEvent? && e.to == f.to == c.storage && ty == f.body.storageType && ty in {VMScheduled, VMHosted} &&
      v != f.body.vm
    case ServerEvent(ty, v) =>
      f.body.ServerEvent? && e.to == f.to == c.first && ty == f.body.serverType == ProvisionVM && v != f.body.guest
    case VMEvent(ty) =>
      f.body == e.body && e.to != f.to && ty in {Start, StartCompleted}
  }

  // Due together, too: neighbours in a queue may be exchanged.
  predicate Exchangeable(c: Config, e: Event, f: Event) {
    e.time == f.time && Unrelated(c, e, f)
  }

  function Swap(c: Config, q: seq<Event>, i: nat): (r: seq<Event>)
    ensures |r| == |q|
  {
    if i + 1 < |q| && Exchangeable(c, q[i], q[i + 1]) then q[i := q[i + 1]][i + 1 := q[i]] else q
  }

  function Swaps(c: Config, q: seq<Event>, path: seq<nat>): (r: seq<Event>)
    ensures |r| == |q|
    decreases |path|
  {
    if path == [] then q else Swaps(c, Swap(c, q, path[0]), path[1..])
  }

  ghost predicate Equivalent(c: Config, q: seq<Event>, r: seq<Event>) {
    exists path :: Swaps(c, q, path) == r
  }

  // ----- an equivalence that concatenation respects -----

  lemma EquivalentSelf(c: Config, q: seq<Event>)
    ensures Equivalent(c, q, q)
  {
    assert Swaps(c, q, []) == q;
  }

  lemma {:induction false} SwapsConcat(c: Config, q: seq<Event>, a: seq<nat>, b: seq<nat>)
    ensures Swaps(c, q, a + b) == Swaps(c, Swaps(c, q, a), b)
    decreases |a|
  {
    hide Swap;
    if a == [] {
      assert a + b == b;
    } else {
      assert (a + b)[1..] == a[1..] + b;
      SwapsConcat(c, Swap(c, q, a[0]), a[1..], b);
    }
  }

  lemma EquivalentVia(c: Config, p: seq<Event>, q: seq<Event>, r: seq<Event>)
    requires Equivalent(c, p, q) && Equivalent(c, q, r)
    ensures Equivalent(c, p, r)
  {
    hide Swaps;
    var a :| Swaps(c, p, a) == q;
    var b :| Swaps(c, q, b) == r;
    SwapsConcat(c, p, a, b);
    assert Swaps(c, p, a + b) == r;
  }

  lemma EquivalentSwap(c: Config, q: seq<Event>, i: nat)
    ensures Equivalent(c, q, Swap(c, q, i))
  {
    hide Swap;
    assert [i][1..] == [];
    assert Swaps(c, q, [i]) == Swap(c, q, i);
  }

  // A swap inside the middle part is a swap of the whole.
  lemma SwapBetween(c: Config, a: seq<Event>, q: seq<Event>, b: seq<Event>, i: nat)
    ensures Equivalent(c, a + q + b, a + Swap(c, q, i) + b)
  {
    hide Exchangeable;
    if i + 1 < |q| && Exchangeable(c, q[i], q[i + 1]) {
      var w := a + q + b;
      assert w[|a| + i] == q[i] && w[|a| + i + 1] == q[i + 1];
      assert Swap(c, w, |a| + i) == a + Swap(c, q, i) + b;
      EquivalentSwap(c, w, |a| + i);
    } else {
      EquivalentSelf(c, a + q + b);
    }
  }

  lemma {:induction false} SwapsBetween(c: Config, a: seq<Event>, q: seq<Event>, b: seq<Event>, path: seq<nat>)
    ensures Equivalent(c, a + q + b, a + Swaps(c, q, path) + b)
    decreases |path|
  {
    hide Swap, Equivalent;
    if path == [] {
      EquivalentSelf(c, a + q + b);
    } else {
      var r := Swap(c, q, path[0]);
      SwapBetween(c, a, q, b, path[0]);
      SwapsBetween(c, a, r, b, path[1..]);
      EquivalentVia(c, a + q + b, a + r + b, a + Swaps(c, q, path) + b);
    }
  }

  lemma EquivalentBetween(c: Config, a: seq<Event>, q: seq<Event>, r: seq<Event>, b: seq<Event>)
    requires Equivalent(c, q, r)
    ensures Equivalent(c, a + q + b, a + r + b)
  {
    hide Swaps;
    var path :| Swaps(c, q, path) == r;
    SwapsBetween(c, a, q, b, path);
  }

  lemma EquivalentParts(c: Config, a: seq<Event>, a': seq<Event>, b: seq<Event>, b': seq<Event>)
    requires Equivalent(c, a, a') && Equivalent(c, b, b')
    ensures Equivalent(c, a + b, a' + b')
  {
    hide Equivalent;
    EquivalentBetween(c, [], a, a', b);
    EquivalentBetween(c, a', b, b', []);
    assert [] + a + b == a + b && [] + a' + b == a' + b;
    assert a' + b + [] == a' + b && a' + b' + [] == a' + b';
    EquivalentVia(c, a + b, a' + b, a' + b');
  }

  // ----- what equivalent queues have in common -----

  ghost predicate SameTimes(q: seq<Event>, r: seq<Event>) {
    |q| == |r| && forall i :: 0 <= i < |q| ==> q[i].time == r[i].time
  }

  lemma SwapKeeps(c: Config, q: seq<Event>, i: nat)
    ensures SameTimes(q, Swap(c, q, i)) && multiset(Swap(c, q, i)) == multiset(q)
  {
    hide Unrelated;
  }

  lemma SwapTokens(c: Config, q: seq<Event>, i: nat)
    ensures Tokens(Swap(c, q, i)) == Tokens(q)
  {
    hide Tokens, Unrelated;
    if i + 1 < |q| && Exchangeable(c, q[i], q[i + 1]) {
      var a, e, f, b := q[..i], q[i], q[i + 1], q[i + 2..];
      assert q == a + [e] + ([f] + b) && Swap(c, q, i) == a + [f] + [e] + b;
      assert a + [e] + ([f] + b) == a + [e] + [f] + b;
      SpliceTokens(a, f, [e] + b);
      assert a + [f] + ([e] + b) == a + [f] + [e] + b;
      SpliceTokens(a + [e], f, b);
      assert a + [e] + b == a + ([e] + b);
    }
  }

  lemma {:induction false} SwapsTokens(c: Config, q: seq<Event>, path: seq<nat>)
    ensures Tokens(Swaps(c, q, path)) == Tokens(q)
    decreases |path|
  {
    hide Swap, Tokens;
    if path != [] {
      SwapTokens(c, q, path[0]);
      SwapsTokens(c, Swap(c, q, path[0]), path[1..]);
    }
  }

  lemma EquivalentTokens(c: Config, q: seq<Event>, r: seq<Event>)
    requires Equivalent(c, q, r)
    ensures Tokens(r) == Tokens(q)
  {
    hide Swaps, Tokens;
    var path :| Swaps(c, q, path) == r;
    SwapsTokens(c, q, path);
  }

  lemma {:induction false} SwapsKeep(c: Config, q: seq<Event>, path: seq<nat>)
    ensures SameTimes(q, Swaps(c, q, path)) && multiset(Swaps(c, q, path)) == multiset(q)
    decreases |path|
  {
    hide Swap;
    if path != [] {
      SwapKeeps(c, q, path[0]);
      SwapsKeep(c, Swap(c, q, path[0]), path[1..]);
    }
  }

  lemma EquivalentKeeps(c: Config, q: seq<Event>, r: seq<Event>)
    requires Equivalent(c, q, r)
    ensures SameTimes(q, r) && multiset(r) == multiset(q)
    ensures forall e :: e in q <==> e in r
    ensures Sorted(q) ==> Sorted(r)
  {
    hide Swaps;
    var path :| Swaps(c, q, path) == r;
    SwapsKeep(c, q, path);
    SameMembers(q, r);
  }

  lemma SameMembers(q: seq<Event>, r: seq<Event>)
    requires multiset(r) == multiset(q)
    ensures forall e :: e in q <==> e in r
  {
    assert forall e :: e in q <==> e in multiset(q);
    assert forall e :: e in r <==> e in multiset(r);
  }

  // ----- shuffling unrelated events -----

  ghost predicate AllExchangeable(c: Config, q: seq<Event>) {
    forall i, j :: 0 <= i < j < |q| ==> Exchangeable(c, q[i], q[j])
  }

  lemma {:induction false} MoveToFront(c: Config, u: seq<Event>, e: Event)
    requires forall i :: 0 <= i < |u| ==> Exchangeable(c, u[i], e)
    ensures Equivalent(c, u + [e], [e] + u)
  {
    hide Exchangeable, Equivalent;
    if u == [] {
      assert u + [e] == [e] && [e] + u == [e];
      EquivalentSelf(c, [e]);
    } else {
      var v, x := u[..|u| - 1], u[|u| - 1];
      assert Exchangeable(c, x, e);
      assert Swap(c, [x, e], 0) == [e, x];
      EquivalentSwap(c, [x, e], 0);
      EquivalentBetween(c, v, [x, e], [e, x], []);
      MoveToFront(c, v, e);
      EquivalentBetween(c, [], v + [e], [e] + v, [x]);
      assert v + [x, e] + [] == u + [e];
      assert v + [e, x] + [] == [] + (v + [e]) + [x];
      assert [] + ([e] + v) + [x] == [e] + u;
      EquivalentVia(c, u + [e], v + [e, x] + [], [e] + u);
    }
  }

  ghost predicate NoRepeats(q: seq<Event>) {
    forall i, j :: 0 <= i < j < |q| ==> q[i] != q[j]
  }

  // Any two arrangements of exchangeable events are equivalent.
  lemma {:induction false} Shuffle(c: Config, q: seq<Event>, r: seq<Event>)
    requires AllExchangeable(c, q) && NoRepeats(q) && NoRepeats(r) && |q| == |r| && forall e :: e in q <==> e in r
    ensures Equivalent(c, q, r)
  {
    hide Exchangeable, Equivalent;
    if r == [] {
      EquivalentSelf(c, q);
    } else {
      var e := r[0];
      var k := Find(c, q, r);
      var u, v := q[..k], q[k + 1..];
      hide AllExchangeable, NoRepeats;
      MoveToFront(c, u, e);
      EquivalentBetween(c, [], u + [e], [e] + u, v);
      Rest(c, q, r, k);
      Shuffle(c, u + v, r[1..]);
      EquivalentBetween(c, [e], u + v, r[1..], []);
      Pieces(q, r, k);
      EquivalentVia(c, q, [e] + (u + v) + [], r);
    }
  }

  lemma Find(c: Config, q: seq<Event>, r: seq<Event>) returns (k: nat)
    requires r != [] && AllExchangeable(c, q) && forall e :: e in q <==> e in r
    ensures k < |q| && q[k] == r[0]
    ensures forall i :: 0 <= i < k ==> Exchangeable(c, q[..k][i], r[0])
  {
    assert r[0] in r;
    k :| 0 <= k < |q| && q[k] == r[0];
  }

  lemma Pieces(q: seq<Event>, r: seq<Event>, k: nat)
    requires k < |q| && r != [] && q[k] == r[0]
    ensures var u, v, e := q[..k], q[k + 1..], r[0];
            && [] + (u + [e]) + v == q && [] + ([e] + u) + v == [e] + (u + v) + [] && [e] + r[1..] + [] == r
  {}

  lemma Rest(c: Config, q: seq<Event>, r: seq<Event>, k: nat)
    requires AllExchangeable(c, q) && NoRepeats(q) && NoRepeats(r) && |q| == |r| && forall e :: e in q <==> e in r
    requires k < |q| && q[k] == r[0]
    ensures var w := q[..k] + q[k + 1..];
            AllExchangeable(c, w) && NoRepeats(w) && NoRepeats(r[1..]) && |w| == |r[1..]| &&
            forall e :: e in w <==> e in r[1..]
  {
    hide Exchangeable;
    var w := q[..k] + q[k + 1..];
    forall i | 0 <= i < |w|
      ensures w[i] == if i < k then q[i] else q[i + 1]
    {}
    assert r == [r[0]] + r[1..];
    forall e | e in w
      ensures e in r[1..]
    {
      var i :| 0 <= i < |w| && w[i] == e;
      assert e in q && e != r[0];
    }
    forall e | e in r[1..]
      ensures e in w
    {
      assert e in r && e != r[0];
      var i :| 0 <= i < |q| && q[i] == e;
      assert e == if i < k then w[i] else w[i - 1];
    }
  }

  // ----- insertions -----

  lemma SortedSlices(q: seq<Event>, k: nat)
    requires Sorted(q) && k <= |q|
    ensures Sorted(q[..k]) && Sorted(q[k..])
  {}

  // A sorted queue parts at every time.
  lemma PartAt(q: seq<Event>, t: int) returns (a: seq<Event>, b: seq<Event>)
    requires Sorted(q)
    ensures q == a + b && Sorted(a) && Sorted(b)
    ensures forall i :: 0 <= i < |a| ==> a[i].time <= t
    ensures forall i :: 0 <= i < |b| ==> t < b[i].time
  {
    hide UpTo;
    var k := UpTo(q, t);
    a, b := q[..k], q[k..];
    SortedSlices(q, k);
    forall i | 0 <= i < |b|
      ensures t < b[i].time
    {
      assert q[k].time <= q[k + i].time;
    }
    hide Sorted;
  }

  lemma SwapInParts(c: Config, a: seq<Event>, b: seq<Event>, i: nat)
    ensures i + 1 < |a| ==> Swap(c, a + b, i) == Swap(c, a, i) + b
    ensures |a| <= i ==> Swap(c, a + b, i) == a + Swap(c, b, i - |a|)
    ensures i + 1 == |a| && b != [] && a[i].time != b[0].time ==> Swap(c, a + b, i) == a + b
    ensures i + 1 == |a| && b == [] ==> Swap(c, a + b, i) == a + b
  {
    hide Unrelated;
    var q := a + b;
    assert forall j :: 0 <= j < |a| ==> q[j] == a[j];
    assert forall j :: 0 <= j < |b| ==> q[|a| + j] == b[j];
  }

  lemma InsertSwapped(c: Config, q: seq<Event>, i: nat, e: Event)
    requires Sorted(q)
    ensures Equivalent(c, InsertBack(q, e), InsertBack(Swap(c, q, i), e))
  {
    hide Swap, Equivalent, InsertBack, Sorted;
    var a, b := PartAt(q, e.time);
    SwapInParts(c, a, b, i);
    InsertBackBetween(a, b, e);
    if i + 1 < |a| {
      SwapKeeps(c, a, i);
      InsertBackBetween(Swap(c, a, i), b, e);
      SwapBetween(c, [], a, [e] + b, i);
      assert [] + a + ([e] + b) == a + [e] + b && [] + Swap(c, a, i) + ([e] + b) == Swap(c, a, i) + [e] + b;
    } else if |a| <= i {
      SwapKeeps(c, b, i - |a|);
      InsertBackBetween(a, Swap(c, b, i - |a|), e);
      SwapBetween(c, a + [e], b, [], i - |a|);
      assert a + [e] + b + [] == a + [e] + b && a + [e] + Swap(c, b, i - |a|) + [] == a + [e] + Swap(c, b, i - |a|);
    } else {
      EquivalentSelf(c, InsertBack(q, e));
    }
  }

  lemma SortedBack(q: seq<Event>, e: Event)
    requires Sorted(q)
    ensures Sorted(InsertBack(q, e))
  {
    InsertBackKeeps(q, e, if q == [] || e.time <= q[0].time then e.time else q[0].time);
  }

  lemma {:induction false} SortedAll(q: seq<Event>, es: seq<Event>)
    requires Sorted(q)
    ensures Sorted(InsertAllBack(q, es))
  {
    hide InsertBack, Sorted;
    if es != [] {
      SortedAll(q, es[..|es| - 1]);
      SortedBack(InsertAllBack(q, es[..|es| - 1]), es[|es| - 1]);
    }
  }

  lemma {:induction false} InsertSwaps(c: Config, q: seq<Event>, path: seq<nat>, e: Event)
    requires Sorted(q)
    ensures Equivalent(c, InsertBack(q, e), InsertBack(Swaps(c, q, path), e))
    decreases |path|
  {
    hide Swap, Equivalent, InsertBack;
    if path == [] {
      EquivalentSelf(c, InsertBack(q, e));
    } else {
      var r := Swap(c, q, path[0]);
      SwapKeeps(c, q, path[0]);
      InsertSwapped(c, q, path[0], e);
      InsertSwaps(c, r, path[1..], e);
      EquivalentVia(c, InsertBack(q, e), InsertBack(r, e), InsertBack(Swaps(c, q, path), e));
    }
  }

  lemma EquivalentBack(c: Config, q: seq<Event>, r: seq<Event>, e: Event)
    requires Sorted(q) && Equivalent(c, q, r)
    ensures Equivalent(c, InsertBack(q, e), InsertBack(r, e))
  {
    hide Swaps, InsertBack;
    var path :| Swaps(c, q, path) == r;
    InsertSwaps(c, q, path, e);
  }

  lemma {:induction false} EquivalentAllBack(c: Config, q: seq<Event>, r: seq<Event>, es: seq<Event>)
    requires Sorted(q) && Equivalent(c, q, r)
    ensures Equivalent(c, InsertAllBack(q, es), InsertAllBack(r, es))
  {
    hide Equivalent, InsertBack, Sorted;
    if es != [] {
      var init, last := es[..|es| - 1], es[|es| - 1];
      EquivalentAllBack(c, q, r, init);
      SortedAll(q, init);
      EquivalentBack(c, InsertAllBack(q, init), InsertAllBack(r, init), last);
    }
  }

  lemma {:induction false} InsertAllConcat(q: seq<Event>, a: seq<Event>, b: seq<Event>)
    ensures InsertAllBack(q, a + b) == InsertAllBack(InsertAllBack(q, a), b)
  {
    hide InsertBack;
    if b == [] {
      assert a + b == a;
    } else {
      assert (a + b)[..|a + b| - 1] == a + b[..|b| - 1];
      InsertAllConcat(q, a, b[..|b| - 1]);
    }
  }

  // Two unrelated events may be inserted in either order.
  lemma TwoBack(c: Config, q: seq<Event>, e: Event, f: Event)
    requires Sorted(q) && Unrelated(c, e, f)
    ensures Equivalent(c, InsertBack(InsertBack(q, e), f), InsertBack(InsertBack(q, f), e))
  {
    hide Unrelated;
    if e.time == f.time {
      TogetherBack(c, q, e, f);
    } else if e.time < f.time {
      ApartBack(q, e, f);
      EquivalentSelf(c, InsertBack(InsertBack(q, e), f));
    } else {
      ApartBack(q, f, e);
      EquivalentSelf(c, InsertBack(InsertBack(q, e), f));
    }
  }

  lemma TogetherBack(c: Config, q: seq<Event>, e: Event, f: Event)
    requires Sorted(q) && Exchangeable(c, e, f)
    ensures Equivalent(c, InsertBack(InsertBack(q, e), f), InsertBack(InsertBack(q, f), e))
  {
    hide Unrelated, Equivalent, InsertBack, Sorted;
    var a, b := PartAt(q, e.time);
    BackTwice(a, b, e, f);
    BackTwice(a, b, f, e);
    assert Swap(c, [e, f], 0) == [f, e];
    EquivalentSwap(c, [e, f], 0);
    EquivalentBetween(c, a, [e, f], [f, e], b);
  }

  lemma BackTwice(a: seq<Event>, b: seq<Event>, e: Event, f: Event)
    requires e.time == f.time
    requires forall i :: 0 <= i < |a| ==> a[i].time <= e.time
    requires forall i :: 0 <= i < |b| ==> e.time < b[i].time
    ensures InsertBack(InsertBack(a + b, e), f) == a + [e, f] + b
  {
    InsertBackBetween(a, b, e);
    InsertBackBetween(a + [e], b, f);
    hide InsertBack;
    assert a + [e] + [f] + b == a + [e, f] + b;
  }

  lemma ApartBack(q: seq<Event>, e: Event, f: Event)
    requires Sorted(q) && e.time < f.time
    ensures InsertBack(InsertBack(q, e), f) == InsertBack(InsertBack(q, f), e)
  {
    hide InsertBack, Sorted;
    var a, r := PartAt(q, e.time);
    var m, b := PartAt(r, f.time);
    forall i | 0 <= i < |m|
      ensures e.time < m[i].time
    {
      assert m[i] == r[i];
    }
    ThreeParts(a, m, b, e, f);
  }

  lemma EarlyBack(a: seq<Event>, m: seq<Event>, b: seq<Event>, e: Event)
    requires forall i :: 0 <= i < |a| ==> a[i].time <= e.time
    requires forall i :: 0 <= i < |m| ==> e.time < m[i].time
    requires forall i :: 0 <= i < |b| ==> e.time < b[i].time
    ensures InsertBack(a + (m + b), e) == a + [e] + (m + b)
  {
    hide InsertBack;
    assert m + b != [] ==> (m + b)[0] == if m != [] then m[0] else b[0];
    InsertBackBetween(a, m + b, e);
  }

  lemma LateBack(a: seq<Event>, m: seq<Event>, b: seq<Event>, f: Event)
    requires forall i :: 0 <= i < |a| ==> a[i].time <= f.time
    requires forall i :: 0 <= i < |m| ==> m[i].time <= f.time
    requires forall i :: 0 <= i < |b| ==> f.time < b[i].time
    ensures InsertBack(a + m + b, f) == a + m + [f] + b
  {
    hide InsertBack;
    InsertBackBetween(a + m, b, f);
  }

  lemma ThreeParts(a: seq<Event>, m: seq<Event>, b: seq<Event>, e: Event, f: Event)
    requires e.time < f.time
    requires forall i :: 0 <= i < |a| ==> a[i].time <= e.time
    requires forall i :: 0 <= i < |m| ==> e.time < m[i].time <= f.time
    requires forall i :: 0 <= i < |b| ==> f.time < b[i].time
    ensures InsertBack(InsertBack(a + (m + b), e), f) == InsertBack(InsertBack(a + (m + b), f), e)
  {
    hide InsertBack;
    EarlyBack(a, m, b, e);
    LateBack(a + [e], m, b, f);
    assert a + [e] + (m + b) == a + [e] + m + b;
    LateBack(a, m, b, f);
    EarlyBack(a, m + [f], b, e);
    assert a + (m + b) == a + m + b;
    assert a + m + [f] + b == a + (m + [f] + b);
    assert a + [e] + m + [f] + b == a + [e] + (m + [f] + b);
  }

  ghost predicate AllUnrelated(c: Config, a: seq<Event>, b: seq<Event>) {
    forall x, y :: x in a && y in b ==> Unrelated(c, x, y)
  }

  lemma {:induction false} OnePast(c: Config, q: seq<Event>, a: seq<Event>, y: Event)
    requires Sorted(q) && forall x :: x in a ==> Unrelated(c, x, y)
    ensures Equivalent(c, InsertBack(InsertAllBack(q, a), y), InsertAllBack(InsertBack(q, y), a))
  {
    hide Unrelated, Equivalent, InsertBack, Sorted;
    if a == [] {
      EquivalentSelf(c, InsertBack(q, y));
    } else {
      var init, x := a[..|a| - 1], a[|a| - 1];
      assert a == init + [x];
      var p := InsertAllBack(q, init);
      SortedAll(q, init);
      TwoBack(c, p, x, y);
      OnePast(c, q, init, y);
      SortedBack(p, y);
      EquivalentBack(c, InsertBack(p, y), InsertAllBack(InsertBack(q, y), init), x);
      EquivalentVia(c, InsertBack(InsertBack(p, x), y), InsertBack(InsertBack(p, y), x),
                    InsertBack(InsertAllBack(InsertBack(q, y), init), x));
    }
  }

  // Two blocks of unrelated events may be inserted in either order.
  lemma {:induction false} BlocksBack(c: Config, q: seq<Event>, a: seq<Event>, b: seq<Event>)
    requires Sorted(q) && AllUnrelated(c, a, b)
    ensures Equivalent(c, InsertAllBack(InsertAllBack(q, a), b), InsertAllBack(InsertAllBack(q, b), a))
  {
    hide Unrelated, Equivalent, InsertBack, Sorted;
    if b == [] {
      EquivalentSelf(c, InsertAllBack(q, a));
    } else {
      var init, y := b[..|b| - 1], b[|b| - 1];
      assert b == init + [y];
      var p := InsertAllBack(q, init);
      BlocksBack(c, q, a, init);
      SortedAll(q, a);
      SortedAll(InsertAllBack(q, a), init);
      SortedAll(q, init);
      EquivalentBack(c, InsertAllBack(InsertAllBack(q, a), init), InsertAllBack(p, a), y);
      OnePast(c, p, a, y);
      EquivalentVia(c, InsertBack(InsertAllBack(InsertAllBack(q, a), init), y), InsertBack(InsertAllBack(p, a), y),
                    InsertAllBack(InsertBack(p, y), a));
    }
  }

  lemma InsertSwappedAll(c: Config, q: seq<Event>, es: seq<Event>, i: nat)
    requires Sorted(q)
    ensures Equivalent(c, InsertAllBack(q, es), InsertAllBack(q, Swap(c, es, i)))
  {
    hide Unrelated, Equivalent, InsertBack, Sorted;
    if i + 1 < |es| && Exchangeable(c, es[i], es[i + 1]) {
      var a, x, y, b := es[..i], es[i], es[i + 1], es[i + 2..];
      assert es == a + [x] + [y] + b;
      assert Swap(c, es, i) == a + [y] + [x] + b;
      var p := InsertAllBack(q, a);
      SortedAll(q, a);
      TwoInserted(q, a, x, y);
      TwoInserted(q, a, y, x);
      TwoBack(c, p, x, y);
      SortedAll(q, a + [x] + [y]);
      EquivalentAllBack(c, InsertAllBack(q, a + [x] + [y]), InsertAllBack(q, a + [y] + [x]), b);
      InsertAllConcat(q, a + [x] + [y], b);
      InsertAllConcat(q, a + [y] + [x], b);
    } else {
      EquivalentSelf(c, InsertAllBack(q, es));
    }
  }

  lemma TwoInserted(q: seq<Event>, a: seq<Event>, x: Event, y: Event)
    ensures InsertAllBack(q, a + [x] + [y]) == InsertBack(InsertBack(InsertAllBack(q, a), x), y)
  {
    hide InsertBack;
    assert (a + [x] + [y])[..|a| + 1] == a + [x];
    assert (a + [x])[..|a|] == a;
  }

  lemma {:induction false} InsertSwapsAll(c: Config, q: seq<Event>, es: seq<Event>, path: seq<nat>)
    requires Sorted(q)
    ensures Equivalent(c, InsertAllBack(q, es), InsertAllBack(q, Swaps(c, es, path)))
    decreases |path|
  {
    hide Swap, Equivalent, InsertAllBack, Sorted;
    if path == [] {
      EquivalentSelf(c, InsertAllBack(q, es));
    } else {
      var fs := Swap(c, es, path[0]);
      InsertSwappedAll(c, q, es, path[0]);
      InsertSwapsAll(c, q, fs, path[1..]);
      EquivalentVia(c, InsertAllBack(q, es), InsertAllBack(q, fs), InsertAllBack(q, Swaps(c, es, path)));
    }
  }

  // Equivalent events inserted into equivalent queues leave equivalent queues.
  lemma EquivalentInsertions(c: Config, q: seq<Event>, r: seq<Event>, es: seq<Event>, fs: seq<Event>)
    requires Sorted(q) && Equivalent(c, q, r) && Equivalent(c, es, fs)
    ensures Equivalent(c, InsertAllBack(q, es), InsertAllBack(r, fs))
  {
    hide Swaps, InsertAllBack;
    EquivalentAllBack(c, q, r, es);
    EquivalentKeeps(c, q, r);
    var path :| Swaps(c, es, path) == fs;
    InsertSwapsAll(c, r, es, path);
    EquivalentVia(c, InsertAllBack(q, es), InsertAllBack(r, es), InsertAllBack(r, fs));
  }
}
