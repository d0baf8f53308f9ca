/** The event queue as one list sorted by time, and the multiset of tokens it carries. */
module FlatQueue {
  import opened Types

  ghost predicate Sorted(q: seq<Event>) {
    forall i, j :: 0 <= i < j < |q| ==> q[i].time <= q[j].time
  }

  // The number of leading events that happen no later than `t`.
  function UpTo(q: seq<Event>, t: int): (k: nat)
    ensures k <= |q|
    ensures forall i :: 0 <= i < k ==> q[i].time <= t
    ensures k < |q| ==> t < q[k].time
  {
    if q == [] || t < q[0].time then 0 else 1 + UpTo(q[1..], t)
  }

  // The number of leading events that happen before `t`.
  function Below(q: seq<Event>, t: int): (k: nat)
    ensures k <= |q|
    ensures forall i :: 0 <= i < k ==> q[i].time < t
    ensures k < |q| ==> t <= q[k].time
  {
    if q == [] || t <= q[0].time then 0 else 1 + Below(q[1..], t)
  }

  // A deferred insertion: behind everything up to and including the event's time.
  function InsertBack(q: seq<Event>, e: Event): seq<Event> {
    var k := UpTo(q, e.time);
    q[..k] + [e] + q[k..]
  }

  // An immediate insertion: ahead of everything from the event's time on.
  function InsertFront(q: seq<Event>, e: Event): seq<Event> {
    var k := Below(q, e.time);
    q[..k] + [e] + q[k..]
  }

  function InsertAllBack(q: seq<Event>, es: seq<Event>): seq<Event> {
    if es == [] then q else InsertBack(InsertAllBack(q, es[..|es| - 1]), es[|es| - 1])
  }

  function Tok(e: Event): Token {
    Token(e.to, e.body)
  }

  function Tokens(q: seq<Event>): multiset<Token> {
    if q == [] then multiset{} else multiset{Tok(q[0])} + Tokens(q[1..])
  }

  lemma {:induction false} TokensConcat(a: seq<Event>, b: seq<Event>)
    ensures Tokens(a + b) == Tokens(a) + Tokens(b)
  {
    if a == [] {
      assert a + b == b;
    } else {
      assert (a + b)[1..] == a[1..] + b;
      TokensConcat(a[1..], b);
    }
  }

  lemma TokensOne(e: Event)
    ensures Tokens([e]) == multiset{Tok(e)}
  {
    assert [e][1..] == [];
  }

  lemma {:induction false} TokensAbsent(q: seq<Event>, t: Token)
    ensures Tokens(q)[t] == 0 <==> forall i :: 0 <= i < |q| ==> Tok(q[i]) != t
  {
    if q != [] {
      TokensAbsent(q[1..], t);
      assert forall i :: 1 <= i < |q| ==> q[i] == q[1..][i - 1];
    }
  }

  lemma TokensInsertBack(q: seq<Event>, e: Event)
    ensures Tokens(InsertBack(q, e)) == Tokens(q) + multiset{Tok(e)}
  {
    var k := UpTo(q, e.time);
    assert q == q[..k] + q[k..];
    SpliceTokens(q[..k], e, q[k..]);
  }

  lemma TokensInsertFront(q: seq<Event>, e: Event)
    ensures Tokens(InsertFront(q, e)) == Tokens(q) + multiset{Tok(e)}
  {
    var k := Below(q, e.time);
    assert q == q[..k] + q[k..];
    SpliceTokens(q[..k], e, q[k..]);
  }

  lemma SpliceTokens(a: seq<Event>, e: Event, b: seq<Event>)
    ensures Tokens(a + [e] + b) == Tokens(a + b) + multiset{Tok(e)}
  {
    hide Tokens;
    TokensAppend(a, e);
    TokensConcat(a + [e], b);
    TokensConcat(a, b);
  }

  lemma TokensAppend(q: seq<Event>, e: Event)
    ensures Tokens(q + [e]) == Tokens(q) + multiset{Tok(e)}
  {
    TokensConcat(q, [e]);
    TokensOne(e);
    hide Tokens;
  }

  lemma {:induction false} TokensInsertAll(q: seq<Event>, es: seq<Event>)
    ensures Tokens(InsertAllBack(q, es)) == Tokens(q) + Tokens(es)
  {
    if es != [] {
      var init, last := es[..|es| - 1], es[|es| - 1];
      assert es == init + [last];
      hide Tokens;
      calc {
        Tokens(InsertBack(InsertAllBack(q, init), last));
        { TokensInsertBack(InsertAllBack(q, init), last); }
        Tokens(InsertAllBack(q, init)) + multiset{Tok(last)};
        { TokensInsertAll(q, init); }
        Tokens(q) + Tokens(init) + multiset{Tok(last)};
        { TokensAppend(init, last); }
        Tokens(q) + Tokens(init + [last]);
      }
    }
  }

  // Take the head off and insert at most one event that is a copy of `t`.
  lemma TokensReplaceHead(q: seq<Event>, out: seq<Event>, t: Token)
    requires q != []
    requires |out| <= 1 || forall i :: 0 <= i < |out| ==> Tok(out[i]) != t
    ensures Tokens(q)[t] >= if t == Tok(q[0]) then 1 else 0
    ensures Tokens(InsertAllBack(q[1..], out))[t] ==
            Tokens(q)[t] - (if t == Tok(q[0]) then 1 else 0) + (if out != [] && Tok(out[0]) == t then 1 else 0)
  {
    TokensInsertAll(q[1..], out);
    TokensAbsent(out, t);
    if |out| == 1 {
      TokensOne(out[0]);
      assert out == [out[0]];
    }
  }

  lemma {:induction false} UpToSplit(a: seq<Event>, b: seq<Event>, t: int)
    requires forall i :: 0 <= i < |a| ==> a[i].time <= t
    requires b != [] ==> t < b[0].time
    ensures UpTo(a + b, t) == |a|
  {
    if a == [] {
      assert a + b == b;
    } else {
      assert (a + b)[1..] == a[1..] + b;
      UpToSplit(a[1..], b, t);
    }
  }

  lemma InsertFrontAhead(q: seq<Event>, e: Event)
    requires q != [] ==> e.time <= q[0].time
    ensures InsertFront(q, e) == [e] + q
  {
    assert Below(q, e.time) == 0;
  }

  lemma InsertBackBetween(a: seq<Event>, b: seq<Event>, e: Event)
    requires forall i :: 0 <= i < |a| ==> a[i].time <= e.time
    requires b != [] ==> e.time < b[0].time
    ensures InsertBack(a + b, e) == a + [e] + b
  {
    UpToSplit(a, b, e.time);
    assert (a + b)[..|a|] == a && (a + b)[|a|..] == b;
  }

  lemma Regroup<T>(x: seq<T>, d: seq<T>, l: seq<T>, y: seq<T>)
    ensures x + (d + l) + y == (x + d) + (l + y)
  {}

  // One immediate and one deferred insertion at an instant that holds exactly `d + l`.
  lemma InsertAround(d: seq<Event>, l: seq<Event>, later: seq<Event>, e1: Event, e2: Event)
    requires e1.time == e2.time
    requires forall i :: 0 <= i < |d| ==> d[i].time == e1.time
    requires forall i :: 0 <= i < |l| ==> l[i].time == e1.time
    requires later != [] ==> e1.time < later[0].time
    ensures InsertBack(InsertFront(d + l + later, e1), e2) == ([e1] + d) + (l + [e2]) + later
  {
    InsertFrontAhead(d + l + later, e1);
    Regroup([e1], d + l, later, []);
    InsertBackBetween([e1] + (d + l), later, e2);
    hide InsertBack, InsertFront;
    Regroup([e1], d, l, [e2]);
    assert [e1] + (d + l + later) == [e1] + (d + l) + later;
  }

  ghost predicate AllFrom(q: seq<Event>, t: int) {
    forall i :: 0 <= i < |q| ==> t <= q[i].time
  }

  lemma InsertBackKeeps(q: seq<Event>, e: Event, t: int)
    requires Sorted(q) && AllFrom(q, t) && t <= e.time
    ensures Sorted(InsertBack(q, e)) && AllFrom(InsertBack(q, e), t)
    ensures |InsertBack(q, e)| == |q| + 1
  {}

  lemma InsertFrontKeeps(q: seq<Event>, e: Event, t: int)
    requires Sorted(q) && AllFrom(q, t) && t <= e.time
    ensures Sorted(InsertFront(q, e)) && AllFrom(InsertFront(q, e), t)
    ensures |InsertFront(q, e)| == |q| + 1
  {}

  lemma {:induction false} InsertAllKeeps(q: seq<Event>, es: seq<Event>, t: int)
    requires Sorted(q) && AllFrom(q, t) && AllFrom(es, t)
    ensures Sorted(InsertAllBack(q, es)) && AllFrom(InsertAllBack(q, es), t)
    ensures |InsertAllBack(q, es)| == |q| + |es|
  {
    if es != [] {
      InsertAllKeeps(q, es[..|es| - 1], t);
      hide InsertBack;
      InsertBackKeeps(InsertAllBack(q, es[..|es| - 1]), es[|es| - 1], t);
    }
  }

  lemma InsertAllOne(q: seq<Event>, es: seq<Event>)
    requires |es| == 1
    ensures InsertAllBack(q, es) == InsertBack(q, es[0])
  {
    assert es[..0] == [];
    assert InsertAllBack(q, es[..0]) == q;
  }

  // Where a deferred insertion at `t` splits the queue.
  lemma SplitMembers(q: seq<Event>, t: int)
    requires Sorted(q)
    ensures q == q[..UpTo(q, t)] + q[UpTo(q, t)..]
    ensures forall x :: x in q[..UpTo(q, t)] ==> x in q
    ensures forall x :: x in q[UpTo(q, t)..] ==> x in q && t < x.time
  {
    var k := UpTo(q, t);
    forall x | x in q[k..]
      ensures x in q && t < x.time
    {
      var i :| 0 <= i < |q[k..]| && q[k..][i] == x;
      assert x == q[k + i];
    }
  }

  lemma InsertMembers(q: seq<Event>, e: Event)
    ensures forall x :: x in InsertBack(q, e) <==> x in q || x == e
    ensures forall x :: x in InsertFront(q, e) <==> x in q || x == e
  {
    assert q == q[..UpTo(q, e.time)] + q[UpTo(q, e.time)..];
    assert q == q[..Below(q, e.time)] + q[Below(q, e.time)..];
  }

  // Whatever holds of every queued and every inserted event holds of the result.
  lemma {:induction false} InsertAllMembers(q: seq<Event>, es: seq<Event>)
    ensures forall e :: e in InsertAllBack(q, es) <==> e in q || e in es
  {
    if es != [] {
      var init, last := es[..|es| - 1], es[|es| - 1];
      InsertAllMembers(q, init);
      assert es == init + [last];
    }
  }
}
