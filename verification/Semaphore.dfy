/** counting_semaphore in place, each method run without interference; SemaphoreModel has the
    interference. Handles that release resumes are returned instead, in the order of the calls. */
module Semaphores {
  import opened Basics
  import opened WaitQueue
  import opened WaiterStates
  import SemaphoreModel

  /** What is left of `units` after `live` waiters have been served first is stored, up to max. */
  function Banked(count: int, max: int, live: nat, units: nat): int {
    Min(max, count + units - Min(units, live))
  }

  lemma BankedStep(count: int, max: int, live: nat, i: nat)
    ensures Banked(count, max, live, i + 1)
         == if i < live then Banked(count, max, live, i) else Min(max, Banked(count, max, live, i) + 1)
  {}

  lemma BankedNone(count: int, max: int, live: nat)
    requires count <= max
    ensures Banked(count, max, live, 0) == count
  {}

  /** Of the waiters ws, once q, the first p have been granted and the others not touched. */
  ghost predicate ServedUpTo(ws: seq<WaiterState>, q: seq<Ticket>, p: nat)
    reads ws
  {
    && |ws| == |q|
    && forall k :: 0 <= k < |ws| ==>
         ws[k].handle == q[k].handle && ws[k].slot == if k < p then Grant(q[k].slot) else q[k].slot
  }

  lemma GrantsAt(q: seq<Ticket>, n: nat)
    ensures forall k :: 0 <= k < |q| ==>
      GrantFirst(q, n)[k] == if k < Popped(q, n) then q[k].(slot := Grant(q[k].slot)) else q[k]
  {
    forall k | 0 <= k < |q|
      ensures GrantFirst(q, n)[k] == if k < Popped(q, n) then q[k].(slot := Grant(q[k].slot)) else q[k]
    {
      GrantsOnlyPopped(q, n, k);
    }
  }

  lemma GrantsServe(ws: seq<WaiterState>, q: seq<Ticket>, n: nat)
    requires View(ws) == GrantFirst(q, n)
    ensures ServedUpTo(ws, q, Popped(q, n))
  {
    GrantsAt(q, n);
    assert forall k :: 0 <= k < |ws| ==> View(ws)[k] == GrantFirst(q, n)[k];
  }

  lemma NoneLeft(q: seq<Ticket>)
    ensures Unclaimed(q) == [] ==> Popped(q, 1) == |q|
  {
    PoppedForOne(q);
  }

  lemma ServesGrant(ws: seq<WaiterState>, q: seq<Ticket>, n: nat)
    requires ServedUpTo(ws, q, Popped(q, n))
    ensures View(ws) == GrantFirst(q, n)
  {
    GrantsAt(q, n);
  }

  /** rest is s without its first p elements. */
  predicate IsRest<T(==)>(s: seq<T>, p: nat, rest: seq<T>) {
    p + |rest| == |s| && forall k {:trigger rest[k]} :: 0 <= k < |rest| ==> rest[k] == s[p + k]
  }

  lemma RestIsSlice<T>(s: seq<T>, p: nat, rest: seq<T>)
    requires p <= |s|
    ensures IsRest(s, p, rest) <==> rest == s[p..]
  {}

  lemma RestView(ws: seq<WaiterState>, q: seq<Ticket>, p: nat, rest: seq<WaiterState>)
    requires IsRest(ws, p, rest) && ServedUpTo(ws, q, p)
    ensures IsRest(q, p, View(rest))
  {}

  lemma ServedMore(ws: seq<WaiterState>, q: seq<Ticket>, p: nat, rest: seq<WaiterState>, served: seq<Ticket>, n: nat)
    requires |ws| == |q| && IsRest(ws, p, rest) && IsRest(q, p, served) && ServedUpTo(rest, served, n)
    requires forall k :: 0 <= k < p ==> ws[k].handle == q[k].handle && ws[k].slot == Grant(q[k].slot)
    ensures ServedUpTo(ws, q, p + n)
  {
    forall k | p <= k < |ws|
      ensures ws[k].handle == q[k].handle && ws[k].slot == if k < p + n then Grant(q[k].slot) else q[k].slot
    {
      assert ws[k] == rest[k - p] && q[k] == served[k - p];
    }
  }

  class CountingSemaphore {
    const max: nat
    var count: int
    var waiters: seq<WaiterState>

    /** Nobody waits while there are permits. */
    ghost predicate Valid()
      reads this, waiters
    {
      0 <= count <= max && AllValid(waiters) && (count > 0 ==> waiters == [])
    }

    constructor (initialCount: int, leastMaxValue: nat)
      ensures Valid() && max == leastMaxValue && waiters == []
      ensures 0 <= initialCount <= max ==> count == initialCount
      ensures initialCount < 0 ==> count == 0
      ensures initialCount > max ==> count == max
    {
      max := leastMaxValue;
      count := SemaphoreModel.Sanitize(initialCount, leastMaxValue);
      waiters := [];
    }

    method TryAcquire() returns (taken: bool)
      requires Valid()
      modifies this`count
      ensures Valid()
      ensures taken <==> old(count) > 0
      ensures count == if taken then old(count) - 1 else old(count)
    {
      if count > 0 {
        count := count - 1;
        return true;
      }
      return false;
    }

    /** False when a permit was there and is now the caller's. */
    method EnqueueWaiter(w: WaiterState) returns (queued: bool)
      requires Valid() && w.Valid() && w !in waiters
      modifies this
      ensures Valid()
      ensures queued <==> old(count) == 0
      ensures count == if queued then 0 else old(count) - 1
      ensures waiters == if queued then old(waiters) + [w] else old(waiters)
    {
      if count > 0 {
        count := count - 1;
        return false;
      }
      waiters := waiters + [w];
      return true;
    }

    /** The units go to the oldest unclaimed waiters; the rest are stored, and lost beyond max. */
    method Release(update: int) returns (toResume: seq<nat>)
      requires Valid()
      modifies this, waiters
      ensures Valid()
      ensures var q, units := old(View(waiters)), if update > 0 then update else 0;
        && waiters == old(waiters)[Popped(q, units)..]
        && View(old(waiters)) == GrantFirst(q, units)
        && toResume == Woken(q, units)
        && count == Banked(old(count), max, |Unclaimed(q)|, units)
    {
      toResume := [];
      if update <= 0 { return; }
      ghost var q, ws := View(waiters), waiters;
      toResume := ReleaseUnits(update);
      ServesGrant(ws, q, update);
      RestIsSlice(ws, Popped(q, update), waiters);
    }

    /** Of the waiters ws, once q, a release call has popped p and granted those that were unclaimed. */
    ghost predicate Releasing(ws: seq<WaiterState>, q: seq<Ticket>, p: nat)
      reads this, waiters, ws
    {
      Valid() && AllValid(ws) && IsRest(ws, p, waiters) && ServedUpTo(ws, q, p)
    }

    lemma NextUnit(ws: seq<WaiterState>, q: seq<Ticket>, i: nat, before: int)
      requires Releasing(ws, q, Popped(q, i))
      ensures Popped(q, i + 1) == Popped(q, i) + Popped(View(waiters), 1)
      ensures Woken(q, i + 1) == Woken(q, i) + Woken(View(waiters), 1)
      ensures var live := |Unclaimed(q)|;
        Banked(before, max, live, i + 1)
        == if Unclaimed(View(waiters)) != [] then Banked(before, max, live, i) else Min(max, Banked(before, max, live, i) + 1)
    {
      RestView(ws, q, Popped(q, i), waiters);
      UnitFacts(q, i, View(waiters), before, max);
    }

    /** What a release call that found the waiters ws, then q, has done after i units. */
    ghost predicate Released(ws: seq<WaiterState>, q: seq<Ticket>, before: int, i: nat, toResume: seq<nat>)
      reads this, waiters, ws
    {
      && Releasing(ws, q, Popped(q, i))
      && toResume == Woken(q, i)
      && count == Banked(before, max, |Unclaimed(q)|, i)
    }

    /** The loop of release. */
    method ReleaseUnits(update: nat) returns (toResume: seq<nat>)
      requires Valid()
      modifies this, waiters
      ensures Released(old(waiters), old(View(waiters)), old(count), update, toResume)
    {
      toResume := [];
      ghost var q, ws := View(waiters), waiters;
      BeginRelease();
      for i := 0 to update
        invariant Released(ws, q, old(count), i, toResume)
      {
        toResume := ReleaseOneMore(ws, q, old(count), i, toResume);
      }
    }

    lemma BeginRelease()
      requires Valid()
      ensures Released(waiters, View(waiters), count, 0, [])
    {
      assert count <= max;
      BankedNone(count, max, |Unclaimed(View(waiters))|);
    }

    method ReleaseOneMore(ghost ws: seq<WaiterState>, ghost q: seq<Ticket>, ghost before: int, ghost i: nat, toResume: seq<nat>)
      returns (r: seq<nat>)
      requires Released(ws, q, before, i, toResume)
      modifies this, ws
      ensures Released(ws, q, before, i + 1, r)
    {
      NextUnit(ws, q, i, before);
      var granted, next, p := ReleaseFrom(ws, q, Popped(q, i));
      assert p == Popped(q, i + 1);
      r := if next.Some? then toResume + [next.value] else toResume;
    }

    /** One unit, given out from the waiters ws, once q, of which p have been popped. */
    method ReleaseFrom(ghost ws: seq<WaiterState>, ghost q: seq<Ticket>, ghost p: nat)
      returns (granted: bool, next: Option<nat>, ghost p': nat)
      requires Releasing(ws, q, p)
      modifies this, ws
      ensures p' == p + Popped(old(View(waiters)), 1) && Releasing(ws, q, p')
      ensures Woken(old(View(waiters)), 1) == if next.Some? then [next.value] else []
      ensures granted <==> Unclaimed(old(View(waiters))) != []
      ensures count == if granted then old(count) else Min(max, old(count) + 1)
    {
      ghost var rest, live := waiters, View(waiters);
      RestView(ws, q, p, rest);
      granted, next, p' := ReleaseTail(ws, p);
      GrantsServe(rest, live, 1);
      ServedMore(ws, q, p, rest, live, Popped(live, 1));
    }

    /** One unit, given out when the first p of the waiters ws are no longer queued: they stay as they are. */
    method ReleaseTail(ghost ws: seq<WaiterState>, ghost p: nat)
      returns (granted: bool, next: Option<nat>, ghost p': nat)
      requires Valid() && AllValid(ws) && IsRest(ws, p, waiters)
      modifies this, ws
      ensures Valid() && AllValid(ws) && forall k :: 0 <= k < p ==> ws[k].slot == old(ws[k].slot)
      ensures p' == p + Popped(old(View(waiters)), 1) && IsRest(ws, p', waiters)
      ensures View(old(waiters)) == GrantFirst(old(View(waiters)), 1)
      ensures Woken(old(View(waiters)), 1) == if next.Some? then [next.value] else []
      ensures granted <==> Unclaimed(old(View(waiters))) != []
      ensures count == if granted then old(count) else Min(max, old(count) + 1)
    {
      assert forall k :: 0 <= k < p ==> ws[k] !in waiters;
      assert forall k :: p <= k < |ws| ==> ws[k] == waiters[k - p];
      p' := p + Popped(View(waiters), 1);
      granted, next := ReleaseOne();
    }

    /** The body of the loop of release. */
    method ReleaseOne() returns (granted: bool, next: Option<nat>)
      requires Valid()
      modifies this, waiters
      ensures Valid() && AllValid(old(waiters))
      ensures IsRest(old(waiters), Popped(old(View(waiters)), 1), waiters)
      ensures View(old(waiters)) == GrantFirst(old(View(waiters)), 1)
      ensures Woken(old(View(waiters)), 1) == if next.Some? then [next.value] else []
      ensures granted <==> Unclaimed(old(View(waiters))) != []
      ensures count == if granted then old(count) else Min(max, old(count) + 1)
    {
      ghost var before := count;
      NoneLeft(View(waiters));
      granted, next := GrantOne();
      assert count == before <= max && (!granted ==> waiters == []);
      if !granted {
        if count != max { count := count + 1; }
      }
    }

    /** Pops until a waiter is claimed, and asks should_resume_now for it. */
    method GrantOne() returns (granted: bool, next: Option<nat>)
      requires Valid()
      modifies this`waiters, waiters
      ensures Valid() && AllValid(old(waiters))
      ensures IsRest(old(waiters), Popped(old(View(waiters)), 1), waiters)
      ensures View(old(waiters)) == GrantFirst(old(View(waiters)), 1)
      ensures Woken(old(View(waiters)), 1) == if next.Some? then [next.value] else []
      ensures granted <==> Unclaimed(old(View(waiters))) != []
    {
      assert count > 0 ==> waiters == [];
      var rest;
      rest, granted, next := GrantFront(waiters);
      waiters := rest;
    }
  }

  /** The i+1-st unit is given out after the first i. */
  lemma UnitFacts(q: seq<Ticket>, i: nat, rest: seq<Ticket>, count: int, max: int)
    requires IsRest(q, Popped(q, i), rest)
    ensures var live := |Unclaimed(q)|;
      && Popped(q, i + 1) == Popped(q, i) + Popped(rest, 1)
      && Woken(q, i + 1) == Woken(q, i) + Woken(rest, 1)
      && Banked(count, max, live, i + 1)
         == if Unclaimed(rest) != [] then Banked(count, max, live, i) else Min(max, Banked(count, max, live, i) + 1)
  {
    RestIsSlice(q, Popped(q, i), rest);
    PoppedTwice(q, i, 1);
    WokenTwice(q, i, 1);
    TakesOldest(q, i);
    BankedStep(count, max, |Unclaimed(q)|, i);
  }

  /** With no cancel in between, releasing a + b units is releasing a and then b: the same waiters are
      popped and granted, the handles come in the same order, and the count is the same. */
  lemma ReleaseInTwo(count: int, max: int, q: seq<Ticket>, a: nat, b: nat)
    requires count <= max
    ensures var k := Popped(q, a); var rest := q[k..];
      && Popped(q, a + b) == k + Popped(rest, b)
      && Woken(q, a + b) == Woken(q, a) + Woken(rest, b)
      && GrantFirst(q, a)[k..] == rest
      && GrantFirst(q, a + b) == GrantFirst(q, a)[..k] + GrantFirst(rest, b)
      && Banked(count, max, |Unclaimed(q)|, a + b)
         == Banked(Banked(count, max, |Unclaimed(q)|, a), max, |Unclaimed(rest)|, b)
  {
    PoppedTwice(q, a, b);
    WokenTwice(q, a, b);
    GrantsLeaveTheRest(q, a);
    GrantedTwice(q, a, b);
    TakesOldest(q, a);
  }

  /** Units are neither lost below max nor made up: what was there and what was released is what is
      there, what the waiters got and what went over max; nothing goes over while there is room. */
  lemma UnitsAccounted(count: int, max: int, q: seq<Ticket>, units: nat)
    requires 0 <= count <= max && (count > 0 ==> q == [])
    ensures var served := |Unclaimed(q[..Popped(q, units)])|; var kept := Banked(count, max, |Unclaimed(q)|, units);
      && served == Min(units, |Unclaimed(q)|)
      && 0 <= kept <= max
      && (kept < max ==> count + units == kept + served)
      && (kept == max ==> count + units >= kept + served)
      && (kept > 0 ==> Unclaimed(q[Popped(q, units)..]) == [])
  {
    TakesOldest(q, units);
  }
}
