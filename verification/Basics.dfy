/** Options, queues of waiters of which some have been claimed, and a little arithmetic. */
module Basics {
  datatype Option<+T> = None | Some(value: T)

  ghost predicate NoDup(q: seq<nat>) { forall i, j :: 0 <= i < j < |q| ==> q[i] != q[j] }

  /** The list without the first occurrence of c. */
  function Erase<T(==)>(list: seq<T>, c: T): seq<T> {
    if list == [] then [] else if list[0] == c then list[1..] else [list[0]] + Erase(list[1..], c)
  }

  lemma PopFacts(q: seq<nat>)
    requires q != [] && NoDup(q)
    ensures NoDup(q[1..]) && q[0] in q && q[0] !in q[1..]
    ensures forall u :: u in q <==> u == q[0] || u in q[1..]
  {
    assert q == [q[0]] + q[1..];
  }

  /** What a queue needs to know about a waiter. */
  datatype Entry = Entry(co: nat, claimed: bool)

  /** The coroutines of the unclaimed waiters of q, in order. */
  function Live(es: seq<Entry>, q: seq<nat>): seq<nat> {
    if q == [] then []
    else (if q[0] < |es| && !es[q[0]].claimed then [es[q[0]].co] else []) + Live(es, q[1..])
  }

  /** How many unclaimed waiters of q come before w. */
  function Rank(es: seq<Entry>, q: seq<nat>, w: nat): nat {
    if q == [] || q[0] == w then 0
    else (if q[0] < |es| && !es[q[0]].claimed then 1 else 0) + Rank(es, q[1..], w)
  }

  lemma {:induction false} LiveSame(es: seq<Entry>, es': seq<Entry>, q: seq<nat>)
    requires |es| <= |es'|
    requires forall u :: u in q ==> u < |es| && es'[u] == es[u]
    ensures Live(es', q) == Live(es, q)
  {
    if q != [] {
      assert forall u :: u in q[1..] ==> u in q;
      LiveSame(es, es', q[1..]);
    }
  }

  lemma {:induction false} LivePush(es: seq<Entry>, q: seq<nat>, w: nat)
    requires w < |es| && !es[w].claimed
    ensures Live(es, q + [w]) == Live(es, q) + [es[w].co]
  {
    if q == [] {
      assert Live(es, [w]) == [es[w].co] + Live(es, []);
    } else {
      assert (q + [w])[1..] == q[1..] + [w];
      LivePush(es, q[1..], w);
    }
  }

  lemma Dropped(head: seq<nat>, rest: seq<nat>, k: nat)
    requires k < |rest|
    ensures head + (rest[..k] + rest[k + 1..]) == (head + rest)[..|head| + k] + (head + rest)[|head| + k + 1..]
  {}

  /** Claiming a member of the queue takes exactly that member out of the live view. */
  lemma {:induction false} LiveClaim(es: seq<Entry>, es': seq<Entry>, q: seq<nat>, w: nat)
    requires NoDup(q) && w in q && w < |es| && |es'| == |es|
    requires !es[w].claimed && es'[w].claimed
    requires forall u :: u in q && u != w ==> u < |es| && es'[u] == es[u]
    ensures var k := Rank(es, q, w);
      && k < |Live(es, q)| && Live(es, q)[k] == es[w].co
      && Live(es', q) == Live(es, q)[..k] + Live(es, q)[k + 1..]
  {
    var t := q[1..];
    PopFacts(q);
    if q[0] == w {
      LiveSame(es, es', t);
    } else {
      LiveClaim(es, es', t, w);
      var head := if !es[q[0]].claimed then [es[q[0]].co] else [];
      assert q[0] in q && es'[q[0]] == es[q[0]];
      assert Live(es, q) == head + Live(es, t) && Live(es', q) == head + Live(es', t);
      Dropped(head, Live(es, t), Rank(es, t, w));
    }
  }

  // ---- remainders and sums ----

  lemma Times(n: nat, q: int)
    ensures q <= 0 ==> n * q <= 0
    ensures q >= 2 ==> n * q >= n * 2
  {}

  lemma ModOnce(x: nat, n: nat)
    requires n > 0 && n <= x < 2 * n
    ensures x % n == x - n
  {
    assert x == n * (x / n) + x % n;
    Times(n, x / n);
    assert x / n == 1;
  }

  function Total<T>(xs: seq<T>, f: T -> nat): nat {
    if xs == [] then 0 else f(xs[0]) + Total(xs[1..], f)
  }

  lemma {:induction false} TotalChanges<T>(xs: seq<T>, f: T -> nat, i: nat, x: T)
    requires i < |xs|
    ensures Total(xs[i := x], f) == Total(xs, f) - f(xs[i]) + f(x)
  {
    if i > 0 {
      assert xs[i := x][1..] == xs[1..][i - 1 := x];
      TotalChanges(xs[1..], f, i - 1, x);
    } else {
      assert xs[i := x][1..] == xs[1..];
    }
  }

  lemma {:induction false} TotalAdded<T>(xs: seq<T>, f: T -> nat, x: T)
    ensures Total(xs + [x], f) == Total(xs, f) + f(x)
  {
    if xs == [] {
      assert xs + [x] == [x] && [x][1..] == [];
    } else {
      assert (xs + [x])[1..] == xs[1..] + [x];
      TotalAdded(xs[1..], f, x);
    }
  }
}
