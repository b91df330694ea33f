/** What unlock, release and notify do to a queue of waiters when nobody interferes. */
module WaitQueue {
  import opened Basics
  import opened Handshake

  datatype Ticket = Ticket(handle: nat, slot: Slot)

  /** What a waker does with a waiter it pops, before it asks should_resume_now or after: nothing if the
      waiter is claimed already; else it claims it. */
  function Woke(t: Slot, decided: bool): Slot {
    if t.resumed then t else if decided then Decide(Win(t, false)) else Win(t, false)
  }

  /** Both: it claims it and finds out whether to resume it. */
  function Grant(t: Slot): Slot { Woke(t, true) }

  /** What a cancel callback does. */
  function Cancel(t: Slot): Slot {
    if t.resumed then t else Decide(Store(Win(t, true)))
  }

  /** The waiters of q, after n of them have been looked for from the front and granted. */
  function GrantFirst(q: seq<Ticket>, n: nat): (r: seq<Ticket>)
    ensures |r| == |q|
  {
    if n == 0 || q == [] then q
    else [q[0].(slot := Grant(q[0].slot))] + GrantFirst(q[1..], if q[0].slot.resumed then n else n - 1)
  }

  /** How many waiters are popped in doing so. */
  function Popped(q: seq<Ticket>, n: nat): (k: nat)
    ensures k <= |q|
  {
    if n == 0 || q == [] then 0 else 1 + Popped(q[1..], if q[0].slot.resumed then n else n - 1)
  }

  /** The handles to resume, in order. */
  function Woken(q: seq<Ticket>, n: nat): seq<nat> {
    if n == 0 || q == [] then []
    else if q[0].slot.resumed then Woken(q[1..], n)
    else (if q[0].slot.phase == Suspended then [q[0].handle] else []) + Woken(q[1..], n - 1)
  }

  function Unclaimed(q: seq<Ticket>): (r: seq<Ticket>)
    ensures |r| <= |q|
    ensures forall i :: 0 <= i < |r| ==> !r[i].slot.resumed
  {
    if q == [] then [] else (if q[0].slot.resumed then [] else [q[0]]) + Unclaimed(q[1..])
  }

  // ---- first come, first served ----

  function Min(a: int, b: int): int { if a < b then a else b }

  /** Popping for n takes exactly the n oldest unclaimed waiters, or all of them if there are fewer, and
      leaves the others in order. */
  lemma TakesOldest(q: seq<Ticket>, n: nat)
    ensures var live, k := Unclaimed(q), Popped(q, n);
      && Unclaimed(q[..k]) == live[..Min(n, |live|)]
      && Unclaimed(q[k..]) == live[Min(n, |live|)..]
      && (|live| < n ==> k == |q|)
  {
    var k := Popped(q, n);
    TakenCount(q, n);
    UnclaimedAppend(q[..k], q[k..]);
    assert q == q[..k] + q[k..];
  }

  lemma {:induction false} UnclaimedAppend(p: seq<Ticket>, q: seq<Ticket>)
    ensures Unclaimed(p + q) == Unclaimed(p) + Unclaimed(q)
  {
    if p == [] {
      assert p + q == q;
    } else {
      assert (p + q)[1..] == p[1..] + q;
      UnclaimedAppend(p[1..], q);
    }
  }

  lemma {:induction false} TakenCount(q: seq<Ticket>, n: nat)
    ensures |Unclaimed(q[..Popped(q, n)])| == Min(n, |Unclaimed(q)|)
    ensures |Unclaimed(q)| < n ==> Popped(q, n) == |q|
  {
    if n > 0 && q != [] {
      TakenCount(q[1..], if q[0].slot.resumed then n else n - 1);
      assert q[..Popped(q, n)][1..] == q[1..][..Popped(q, n) - 1];
    }
  }

  /** The last waiter popped is one that was claimed, unless they ran out. */
  lemma {:induction false} StopsAtClaim(q: seq<Ticket>, n: nat)
    ensures n <= |Unclaimed(q)| && Popped(q, n) > 0 ==> !q[Popped(q, n) - 1].slot.resumed
  {
    if n > 0 && q != [] { StopsAtClaim(q[1..], if q[0].slot.resumed then n else n - 1); }
  }

  /** Grants touch what was popped, all of it, and nothing else. */
  lemma {:induction false} GrantsOnlyPopped(q: seq<Ticket>, n: nat, i: nat)
    requires i < |q|
    ensures GrantFirst(q, n)[i] == if i < Popped(q, n) then q[i].(slot := Grant(q[i].slot)) else q[i]
  {
    if n > 0 && q != [] && i > 0 {
      GrantsOnlyPopped(q[1..], if q[0].slot.resumed then n else n - 1, i - 1);
    }
  }

  lemma TakeFirst(x: Ticket, rest: seq<Ticket>, n: nat)
    requires n > 0
    ensures ([x] + rest)[..Min(n, |rest| + 1)] == [x] + rest[..Min(n - 1, |rest|)]
  {}

  /** Every woken handle is that of a granted waiter which had parked, in queue order. */
  lemma {:induction false} WokenAreParkedHandles(q: seq<Ticket>, n: nat)
    ensures Woken(q, n) == ParkedHandles(Unclaimed(q)[..Min(n, |Unclaimed(q)|)])
  {
    if n > 0 && q != [] {
      var rest := Unclaimed(q[1..]);
      if q[0].slot.resumed {
        WokenAreParkedHandles(q[1..], n);
        assert Unclaimed(q) == rest;
      } else {
        WokenAreParkedHandles(q[1..], n - 1);
        assert Unclaimed(q) == [q[0]] + rest;
        TakeFirst(q[0], rest, n);
        ParkedFirst(q[0], rest[..Min(n - 1, |rest|)]);
      }
    }
  }

  lemma ParkedFirst(x: Ticket, rest: seq<Ticket>)
    ensures ParkedHandles([x] + rest) == (if x.slot.phase == Suspended then [x.handle] else []) + ParkedHandles(rest)
  {
    assert ([x] + rest)[1..] == rest;
  }

  function ParkedHandles(q: seq<Ticket>): seq<nat> {
    if q == [] then [] else (if q[0].slot.phase == Suspended then [q[0].handle] else []) + ParkedHandles(q[1..])
  }

  // ---- which they are, by position ----

  predicate Listing(t: Ticket, parked: bool) { !t.slot.resumed && (parked ==> t.slot.phase == Suspended) }

  /** `at` lists, in order, the positions below k of the unclaimed waiters of q, or of those that have parked. */
  ghost predicate Positions(q: seq<Ticket>, k: nat, parked: bool, at: seq<nat>)
    requires k <= |q|
  {
    && (forall i, j :: 0 <= i < j < |at| ==> at[i] < at[j])
    && (forall i :: i in at <==> 0 <= i < k && Listing(q[i], parked))
  }

  function Shifted(at: seq<nat>): (r: seq<nat>)
    ensures |r| == |at| && forall j :: 0 <= j < |at| ==> r[j] == at[j] + 1
  {
    seq(|at|, j requires 0 <= j < |at| => at[j] + 1)
  }

  /** The first position is the one of q[0], if it is to be listed. */
  function Listed(here: bool, at: seq<nat>): seq<nat> { (if here then [0] else []) + Shifted(at) }

  lemma ListedIncrease(here: bool, at: seq<nat>)
    requires forall i, j :: 0 <= i < j < |at| ==> at[i] < at[j]
    ensures var r := Listed(here, at); forall i, j :: 0 <= i < j < |r| ==> r[i] < r[j]
  {}

  lemma ListedMembers(here: bool, at: seq<nat>, i: int)
    ensures i in Listed(here, at) <==> (here && i == 0) || (i > 0 && i - 1 in at)
  {
    if i > 0 && i - 1 in at {
      var j :| 0 <= j < |at| && at[j] == i - 1;
      assert Shifted(at)[j] == i;
    }
    if i in Shifted(at) {
      var j :| 0 <= j < |at| && Shifted(at)[j] == i;
      assert at[j] in at;
    }
  }

  lemma PositionsCons(q: seq<Ticket>, k: nat, parked: bool, at: seq<nat>)
    requires 0 < k <= |q| && Positions(q[1..], k - 1, parked, at)
    ensures Positions(q, k, parked, Listed(Listing(q[0], parked), at))
  {
    var here := Listing(q[0], parked);
    ListedIncrease(here, at);
    forall i ensures i in Listed(here, at) <==> 0 <= i < k && Listing(q[i], parked) {
      ListedMembers(here, at, i);
      assert 0 < i < k ==> q[i] == q[1..][i - 1];
    }
  }

  /** Taking the elements of s at the positions `at` gives r. */
  predicate Picks<T(==)>(s: seq<T>, at: seq<nat>, r: seq<T>) {
    |at| == |r| && forall j :: 0 <= j < |at| ==> at[j] < |s| && r[j] == s[at[j]]
  }

  lemma PicksCons<T>(s: seq<T>, here: bool, at: seq<nat>, r: seq<T>)
    requires s != [] && Picks(s[1..], at, r)
    ensures Picks(s, Listed(here, at), (if here then [s[0]] else []) + r)
  {}

  /** The unclaimed waiters, in queue order, each once. */
  lemma {:induction false} UnclaimedPositions(q: seq<Ticket>) returns (at: seq<nat>)
    ensures Positions(q, |q|, false, at) && Picks(q, at, Unclaimed(q))
  {
    if q == [] {
      at := [];
    } else {
      var rest := UnclaimedPositions(q[1..]);
      PositionsCons(q, |q|, false, rest);
      PicksCons(q, Listing(q[0], false), rest, Unclaimed(q[1..]));
      at := Listed(Listing(q[0], false), rest);
    }
  }

  function HandlesOf(q: seq<Ticket>): (h: seq<nat>)
    ensures |h| == |q| && forall i :: 0 <= i < |q| ==> h[i] == q[i].handle
  {
    seq(|q|, i requires 0 <= i < |q| => q[i].handle)
  }

  /** The woken handles are those of the popped waiters that were unclaimed and had parked, in queue order,
      each once. */
  lemma {:induction false} WokenPositions(q: seq<Ticket>, n: nat) returns (at: seq<nat>)
    ensures Positions(q, Popped(q, n), true, at) && Picks(HandlesOf(q), at, Woken(q, n))
  {
    if n == 0 || q == [] {
      at := [];
    } else {
      var m := if q[0].slot.resumed then n else n - 1;
      var rest := WokenPositions(q[1..], m);
      PositionsCons(q, Popped(q, n), true, rest);
      assert HandlesOf(q[1..]) == HandlesOf(q)[1..];
      PicksCons(HandlesOf(q), Listing(q[0], true), rest, Woken(q[1..], m));
      at := Listed(Listing(q[0], true), rest);
    }
  }

  // ---- popping for one, and for all ----

  /** The oldest unclaimed waiter of q is at k. */
  predicate IsFirst(q: seq<Ticket>, k: nat) {
    k < |q| && !q[k].slot.resumed && forall i :: 0 <= i < k ==> q[i].slot.resumed
  }

  lemma {:induction false} FirstOf(q: seq<Ticket>) returns (k: nat)
    requires exists i :: 0 <= i < |q| && !q[i].slot.resumed
    ensures IsFirst(q, k)
  {
    if q[0].slot.resumed {
      var i :| 0 <= i < |q| && !q[i].slot.resumed;
      assert !q[1..][i - 1].slot.resumed;
      var k' := FirstOf(q[1..]);
      k := k' + 1;
      assert forall j :: 0 < j < k ==> q[j] == q[1..][j - 1];
    } else {
      k := 0;
    }
  }

  /** Popping for one stops at the first unclaimed waiter. */
  lemma {:induction false} FoundFirst(q: seq<Ticket>, i: nat)
    requires IsFirst(q, i)
    ensures Popped(q, 1) == i + 1 && Unclaimed(q) != [] && Unclaimed(q)[0] == q[i]
  {
    if i > 0 {
      assert forall k :: 0 <= k < |q[1..]| ==> q[1..][k] == q[k + 1];
      FoundFirst(q[1..], i - 1);
    }
  }

  lemma {:induction false} NoneFound(q: seq<Ticket>)
    requires forall k :: 0 <= k < |q| ==> q[k].slot.resumed
    ensures Popped(q, 1) == |q| && Unclaimed(q) == []
  {
    if q != [] {
      assert forall k :: 0 <= k < |q[1..]| ==> q[1..][k] == q[k + 1];
      NoneFound(q[1..]);
    }
  }

  lemma {:induction false} PopsTheLot(q: seq<Ticket>, n: nat)
    requires n >= |q|
    ensures Popped(q, n) == |q|
  {
    if q != [] { PopsTheLot(q[1..], if q[0].slot.resumed then n else n - 1); }
  }

  // ---- popping in two goes ----

  lemma {:induction false} PoppedTwice(q: seq<Ticket>, a: nat, b: nat)
    ensures Popped(q, a + b) == Popped(q, a) + Popped(q[Popped(q, a)..], b)
  {
    if a > 0 && q != [] {
      PoppedTwice(q[1..], if q[0].slot.resumed then a else a - 1, b);
      assert q[1..][Popped(q, a) - 1..] == q[Popped(q, a)..];
    } else {
      assert q[0..] == q;
    }
  }

  lemma {:induction false} WokenTwice(q: seq<Ticket>, a: nat, b: nat)
    ensures Woken(q, a + b) == Woken(q, a) + Woken(q[Popped(q, a)..], b)
  {
    if a > 0 && q != [] {
      WokenTwice(q[1..], if q[0].slot.resumed then a else a - 1, b);
      assert q[1..][Popped(q, a) - 1..] == q[Popped(q, a)..];
    } else {
      assert q[0..] == q;
    }
  }

  lemma GrantsLeaveTheRest(q: seq<Ticket>, n: nat)
    ensures GrantFirst(q, n)[Popped(q, n)..] == q[Popped(q, n)..]
  {
    forall i | Popped(q, n) <= i < |q| ensures GrantFirst(q, n)[i] == q[i] { GrantsOnlyPopped(q, n, i); }
  }

  lemma GrantedTwice(q: seq<Ticket>, a: nat, b: nat)
    ensures GrantFirst(q, a + b) == GrantFirst(q, a)[..Popped(q, a)] + GrantFirst(q[Popped(q, a)..], b)
  {
    var k := Popped(q, a);
    var r := GrantFirst(q, a)[..k] + GrantFirst(q[k..], b);
    PoppedTwice(q, a, b);
    forall i | 0 <= i < |q| ensures GrantFirst(q, a + b)[i] == r[i] {
      GrantsOnlyPopped(q, a + b, i);
      GrantsOnlyPopped(q, a, i);
      if i >= k { GrantsOnlyPopped(q[k..], b, i - k); }
    }
  }

  // ---- queues of indices into all waiters ----

  predicate InRange(q: seq<nat>, n: nat) { forall u :: u in q ==> u < n }

  function Pick(all: seq<Ticket>, q: seq<nat>): (r: seq<Ticket>)
    requires InRange(q, |all|)
    ensures |r| == |q| && forall i :: 0 <= i < |q| ==> q[i] < |all| && r[i] == all[q[i]]
  {
    if q == [] then []
    else
      assert q[0] in q && forall u :: u in q[1..] ==> u in q;
      [all[q[0]]] + Pick(all, q[1..])
  }

  /** Popping n of the queue q turns q into q' and the waiters `all` into all'. */
  ghost predicate Pops(all: seq<Ticket>, q: seq<nat>, n: nat, decided: bool, all': seq<Ticket>, q': seq<nat>)
    requires InRange(q, |all|)
  {
    var k := Popped(Pick(all, q), n);
    && q' == q[k..]
    && |all'| == |all|
    && forall u :: 0 <= u < |all| ==>
         all'[u] == if u in q[..k] then all[u].(slot := Woke(all[u].slot, decided)) else all[u]
  }

  lemma PopsNone(all: seq<Ticket>, q: seq<nat>, n: nat, decided: bool)
    requires InRange(q, |all|) && (n == 0 || q == [])
    ensures Pops(all, q, n, decided, all, q)
  {
    assert q[0..] == q;
  }

  lemma InFront(q: seq<nat>, k: nat)
    requires 0 < k <= |q| && NoDup(q)
    ensures forall u :: u in q[..k] <==> u == q[0] || u in q[1..][..k - 1]
    ensures q[0] !in q[1..][..k - 1]
  {
    assert q[..k] == [q[0]] + q[1..][..k - 1];
  }

  /** Popping the front waiter first. */
  lemma PopsFront(all: seq<Ticket>, q: seq<nat>, n: nat, decided: bool, all': seq<Ticket>, q': seq<nat>)
    requires q != [] && NoDup(q) && InRange(q, |all|) && n > 0 && q[0] < |all|
    requires InRange(q[1..], |all|)
    requires var t := all[q[0]];
      Pops(all[q[0] := t.(slot := Woke(t.slot, decided))], q[1..], if t.slot.resumed then n else n - 1, decided, all', q')
    ensures Pops(all, q, n, decided, all', q')
  {
    var t := all[q[0]];
    var all1 := all[q[0] := t.(slot := Woke(t.slot, decided))];
    PopFacts(q);
    assert Pick(all1, q[1..]) == Pick(all, q)[1..];
    var k, rest := Popped(Pick(all, q), n), q[1..];
    assert rest[k - 1..] == q[k..];
    InFront(q, k);
    forall u | 0 <= u < |all|
      ensures all'[u] == if u in q[..k] then all[u].(slot := Woke(all[u].slot, decided)) else all[u]
    {
      assert u in rest[..k - 1] ==> u != q[0];
    }
  }

  /** Seen along the queue, it is what GrantFirst says. */
  lemma PopsIsGrantFirst(all: seq<Ticket>, q: seq<nat>, n: nat, all': seq<Ticket>, q': seq<nat>)
    requires NoDup(q) && InRange(q, |all|) && Pops(all, q, n, true, all', q')
    ensures InRange(q, |all'|) && Pick(all', q) == GrantFirst(Pick(all, q), n)
  {
    var t := Pick(all, q);
    var k := Popped(t, n);
    forall i | 0 <= i < |q| ensures Pick(all', q)[i] == GrantFirst(t, n)[i] {
      GrantsOnlyPopped(t, n, i);
      assert i < k ==> q[..k][i] == q[i];
    }
  }

  // ---- the same in terms of the waiters alone ----

  /** Position k of the queue is that of the oldest unclaimed waiter. */
  predicate OldestAt(all: seq<Ticket>, q: seq<nat>, k: nat)
    requires InRange(q, |all|)
  {
    IsFirst(Pick(all, q), k)
  }

  predicate AllClaimed(all: seq<Ticket>, q: seq<nat>)
    requires InRange(q, |all|)
  {
    forall i :: 0 <= i < |q| ==> Pick(all, q)[i].slot.resumed
  }

  /** Popping for one when all are claimed takes everything and claims nobody. */
  lemma PopsNobody(all: seq<Ticket>, q: seq<nat>, decided: bool, all': seq<Ticket>, q': seq<nat>)
    requires InRange(q, |all|) && Pops(all, q, 1, decided, all', q') && AllClaimed(all, q)
    ensures q' == [] && all' == all
  {
    NoneFound(Pick(all, q));
    forall u | 0 <= u < |all| ensures all'[u] == all[u] { ClaimedStay(all, q, |q|, u); }
  }

  lemma UpTo(q: seq<nat>, k: nat, u: nat)
    requires k < |q|
    ensures u in q[..k + 1] <==> u in q[..k] || u == q[k]
  {
    assert q[..k + 1] == q[..k] + [q[k]];
  }

  lemma OldestChanges(all: seq<Ticket>, q: seq<nat>, decided: bool, all': seq<Ticket>, q': seq<nat>, k: nat, u: nat)
    requires InRange(q, |all|) && Pops(all, q, 1, decided, all', q') && OldestAt(all, q, k) && u < |all|
    ensures all'[u] == if u == q[k] then all[u].(slot := Woke(all[u].slot, decided)) else all[u]
  {
    FoundFirst(Pick(all, q), k);
    UpTo(q, k, u);
    ClaimedStay(all, q, k, u);
  }

  /** Else it takes the oldest unclaimed waiter and those before it. */
  lemma PopsOldest(all: seq<Ticket>, q: seq<nat>, decided: bool, all': seq<Ticket>, q': seq<nat>, k: nat)
    requires InRange(q, |all|) && Pops(all, q, 1, decided, all', q') && OldestAt(all, q, k)
    ensures q[k] < |all| && q' == q[k + 1..]
    ensures all' == all[q[k] := all[q[k]].(slot := Woke(all[q[k]].slot, decided))]
  {
    assert q[k] in q;
    FoundFirst(Pick(all, q), k);
    forall u: nat | u < |all|
      ensures all'[u] == if u == q[k] then all[u].(slot := Woke(all[u].slot, decided)) else all[u]
    {
      OldestChanges(all, q, decided, all', q', k, u);
    }
  }

  lemma OldestExists(all: seq<Ticket>, q: seq<nat>) returns (k: nat)
    requires InRange(q, |all|) && !AllClaimed(all, q)
    ensures OldestAt(all, q, k)
  {
    k := FirstOf(Pick(all, q));
  }

  /** Among the first k of a queue that are all claimed, nothing is left to do for u. */
  lemma ClaimedStay(all: seq<Ticket>, q: seq<nat>, k: nat, u: nat)
    requires InRange(q, |all|) && k <= |q| && u < |all|
    requires forall i :: 0 <= i < k ==> Pick(all, q)[i].slot.resumed
    ensures u in q[..k] ==> all[u].slot.resumed
  {
    if u in q[..k] {
      var i :| 0 <= i < k && q[..k][i] == u;
      assert Pick(all, q)[i].slot.resumed;
    }
  }

  /** Popping for at least as many as there are takes all. */
  lemma PopsAll(all: seq<Ticket>, q: seq<nat>, n: nat, decided: bool, all': seq<Ticket>, q': seq<nat>)
    requires InRange(q, |all|) && Pops(all, q, n, decided, all', q') && n >= |q|
    ensures q' == [] && |all'| == |all|
    ensures forall u :: 0 <= u < |all| ==>
      all'[u] == if u in q then all[u].(slot := Woke(all[u].slot, decided)) else all[u]
  {
    PopsTheLot(Pick(all, q), n);
    assert q[..|q|] == q;
  }
}
