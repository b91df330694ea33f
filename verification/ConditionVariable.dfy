/** condition_variable in place, each method run without interference. All waits are for one mutex. */
module ConditionVariables {
  import opened Basics
  import opened Handshake
  import opened WaitQueue
  import opened WaiterStates
  import opened Mutexes

  /** Of woken waiters that go for the lock in turn: who gets it at once, and who queues. */
  function GoOn(locked: bool, woken: seq<nat>): seq<nat> { if locked || woken == [] then [] else [woken[0]] }

  function QueueUp(locked: bool, woken: seq<nat>): seq<nat> {
    if locked then woken else if woken == [] then [] else woken[1..]
  }

  lemma ParkedPush(q: seq<Ticket>, i: nat)
    requires i < |q|
    ensures ParkedHandles(q[..i + 1]) ==
      if q[i].slot.phase == Suspended then ParkedHandles(q[..i]) + [q[i].handle] else ParkedHandles(q[..i])
  {
    assert q[..i + 1] == q[..i] + [q[i]];
    ParkedAppend(q[..i], [q[i]]);
  }

  lemma {:induction false} ParkedAppend(p: seq<Ticket>, q: seq<Ticket>)
    ensures ParkedHandles(p + q) == ParkedHandles(p) + ParkedHandles(q)
  {
    if p == [] {
      assert p + q == q;
    } else {
      var head, tail, rest := if p[0].slot.phase == Suspended then [p[0].handle] else [], ParkedHandles(p[1..]), ParkedHandles(q);
      assert (p + q)[1..] == p[1..] + q;
      ParkedAppend(p[1..], q);
      assert ParkedHandles(p + q) == head + (tail + rest) == (head + tail) + rest;
    }
  }

  lemma GrantsAll(q: seq<Ticket>, q': seq<Ticket>)
    requires |q'| == |q|
    requires forall i :: 0 <= i < |q| ==> q'[i] == q[i].(slot := Grant(q[i].slot))
    ensures q' == GrantFirst(q, |q|) && Woken(q, |q|) == ParkedHandles(Unclaimed(q))
  {
    WokenAreParkedHandles(q, |q|);
    PopsTheLot(q, |q|);
    assert Unclaimed(q)[..Min(|q|, |Unclaimed(q)|)] == Unclaimed(q);
    forall i | 0 <= i < |q| ensures q'[i] == GrantFirst(q, |q|)[i] { GrantsOnlyPopped(q, |q|, i); }
  }

  /** ws are the waiters of q, just claimed by a waker. */
  ghost predicate ClaimedNow(ws: seq<WaiterState>, q: seq<Ticket>)
    reads ws
  {
    && AllValid(ws) && |ws| == |q|
    && forall k :: 0 <= k < |ws| ==> ws[k].handle == q[k].handle && ws[k].slot == Win(q[k].slot, false)
  }

  lemma ClaimedPush(q: seq<Ticket>, i: nat)
    requires i < |q|
    ensures Unclaimed(q[..i + 1]) == if q[i].slot.resumed then Unclaimed(q[..i]) else Unclaimed(q[..i]) + [q[i]]
  {
    assert q[..i + 1] == q[..i] + [q[i]];
    UnclaimedAppend(q[..i], [q[i]]);
  }

  /** Those of the waiters ws that are unclaimed in q. */
  ghost function LiveOf(ws: seq<WaiterState>, q: seq<Ticket>): seq<WaiterState>
    requires |ws| == |q|
  {
    var n := |ws|;
    if n == 0 then []
    else LiveOf(ws[..n - 1], q[..n - 1]) + if q[n - 1].slot.resumed then [] else [ws[n - 1]]
  }

  lemma LiveOfPush(ws: seq<WaiterState>, q: seq<Ticket>, i: nat)
    requires |ws| == |q| && i < |ws|
    ensures LiveOf(ws[..i + 1], q[..i + 1]) == LiveOf(ws[..i], q[..i]) + if q[i].slot.resumed then [] else [ws[i]]
  {
    assert ws[..i + 1][..i] == ws[..i] && q[..i + 1][..i] == q[..i];
  }

  lemma {:induction false} LiveOfFacts(ws: seq<WaiterState>, q: seq<Ticket>, i: nat)
    requires |ws| == |q| && i <= |ws| && forall j, k :: 0 <= j < k < |ws| ==> ws[j] != ws[k]
    ensures forall w :: w in LiveOf(ws[..i], q[..i]) ==> w in ws[..i]
    ensures forall k :: 0 <= k < i ==> (ws[k] in LiveOf(ws[..i], q[..i]) <==> !q[k].slot.resumed)
  {
    if i > 0 {
      LiveOfFacts(ws, q, i - 1);
      LiveOfPush(ws, q, i - 1);
      assert ws[..i] == ws[..i - 1] + [ws[i - 1]];
    }
  }

  /** Of the waiters ws, once q, those of the first i have been claimed that were unclaimed. */
  ghost predicate ClaimedUpTo(ws: seq<WaiterState>, q: seq<Ticket>, i: nat)
    reads ws
  {
    && AllValid(ws) && |ws| == |q|
    && forall k :: 0 <= k < |ws| ==>
         ws[k].handle == q[k].handle && ws[k].slot == if k < i then Woke(q[k].slot, false) else q[k].slot
  }

  lemma ClaimedOneMore(cs: seq<WaiterState>, live: seq<Ticket>, w: WaiterState, t: Ticket)
    requires ClaimedNow(cs, live) && w.Valid() && w !in cs
    requires w.handle == t.handle && w.slot == Win(t.slot, false)
    ensures ClaimedNow(cs + [w], live + [t])
  {}

  lemma {:induction false} LiveClaimed(ws: seq<WaiterState>, q: seq<Ticket>, i: nat)
    requires ClaimedUpTo(ws, q, |ws|) && i <= |ws|
    ensures ClaimedNow(LiveOf(ws[..i], q[..i]), Unclaimed(q[..i]))
  {
    if i > 0 {
      var w, before := ws[i - 1], LiveOf(ws[..i - 1], q[..i - 1]);
      LiveClaimed(ws, q, i - 1);
      LiveOfPush(ws, q, i - 1);
      ClaimedPush(q, i - 1);
      LiveOfFacts(ws, q, i - 1);
      assert w !in ws[..i - 1];
      if !q[i - 1].slot.resumed { ClaimedOneMore(before, Unclaimed(q[..i - 1]), w, q[i - 1]); }
    }
  }

  method ClaimNext(w: WaiterState, ghost ws: seq<WaiterState>, ghost q: seq<Ticket>, ghost i: nat) returns (won: bool)
    requires i < |ws| && w == ws[i] && ClaimedUpTo(ws, q, i)
    modifies w
    ensures ClaimedUpTo(ws, q, i + 1)
    ensures won <==> !q[i].slot.resumed
  {
    assert forall k :: 0 <= k < |ws| && k != i ==> ws[k] != w;
    won := w.TryMarkResumed(false);
  }

  /** The loop of notify_all under the internal lock: pop and claim until the queue is empty. */
  method ClaimAll(ws: seq<WaiterState>) returns (toResume: seq<WaiterState>)
    requires AllValid(ws)
    modifies ws
    ensures ClaimedUpTo(ws, old(View(ws)), |ws|) && toResume == LiveOf(ws, old(View(ws)))
  {
    ghost var q, i := View(ws), 0;
    var rest := ws;
    toResume := [];
    while rest != []
      invariant 0 <= i <= |ws| && rest == ws[i..]
      invariant toResume == LiveOf(ws[..i], q[..i])
      invariant ClaimedUpTo(ws, q, i)
    {
      var w := rest[0];
      LiveOfPush(ws, q, i);
      rest := rest[1..];
      var won := ClaimNext(w, ws, q, i);
      if won { toResume := toResume + [w]; }
      i := i + 1;
    }
    assert ws[..i] == ws && q[..i] == q;
  }

  /** Of waiters that find the mutex in turn, its lock held or not and its queue as given, those with the
      handles `woken` have gone for the lock; `resume` are those that got it. */
  ghost predicate WentFor(m: Mutex, wasLocked: bool, queue: seq<Ticket>, woken: seq<nat>, resume: seq<nat>)
    reads m, m.waiters
  {
    && m.Valid() && resume == GoOn(wasLocked, woken)
    && View(m.waiters) == queue + Queued(QueueUp(wasLocked, woken))
    && m.locked == (wasLocked || woken != [])
  }

  /** What that comes to: nobody is resumed while the mutex is held, and at most one otherwise; whoever is
      not resumed is queued for the mutex, parked and unclaimed, after those that were there, in order. */
  ghost predicate GoesOn(wasLocked: bool, before: seq<Ticket>, after: seq<Ticket>, woken: seq<nat>, resume: seq<nat>) {
    && |resume| <= 1 && (resume != [] <==> !wasLocked && woken != [])
    && |before| <= |after| && after[..|before|] == before
    && resume + HandlesOf(after[|before|..]) == woken
    && forall i :: |before| <= i < |after| ==> after[i].slot == IDLE
  }

  lemma WentForMeans(wasLocked: bool, before: seq<Ticket>, after: seq<Ticket>, woken: seq<nat>, resume: seq<nat>)
    requires resume == GoOn(wasLocked, woken) && after == before + Queued(QueueUp(wasLocked, woken))
    ensures GoesOn(wasLocked, before, after, woken, resume)
  {
    QueuedAre(QueueUp(wasLocked, woken));
    assert after[|before|..] == Queued(QueueUp(wasLocked, woken));
  }

  /** One more waiter goes for the lock. */
  method Relock(m: Mutex, handle: nat, resume: seq<nat>, ghost wasLocked: bool, ghost woken: seq<nat>, ghost queue: seq<Ticket>)
    returns (r: seq<nat>)
    requires WentFor(m, wasLocked, queue, woken, resume)
    modifies m
    ensures WentFor(m, wasLocked, queue, woken + [handle], r)
    ensures forall w :: w in m.waiters ==> w in old(m.waiters) || fresh(w)
  {
    ghost var before := QueueUp(wasLocked, woken);
    QueuedPush(before, handle);
    assert QueueUp(wasLocked, woken + [handle]) == before + if wasLocked || woken != [] then [handle] else [];
    var next := m.LockAndResume(handle);
    r := if next.Some? then resume + [next.value] else resume;
    assert queue + Queued(before) + [Ticket(handle, IDLE)] == queue + (Queued(before) + [Ticket(handle, IDLE)]);
  }

  method RelockIf(m: Mutex, now: bool, handle: nat, resume: seq<nat>, ghost wasLocked: bool, ghost woken: seq<nat>,
                  ghost queue: seq<Ticket>)
    returns (r: seq<nat>)
    requires WentFor(m, wasLocked, queue, woken, resume)
    modifies m
    ensures WentFor(m, wasLocked, queue, if now then woken + [handle] else woken, r)
    ensures forall x :: x in m.waiters ==> x in old(m.waiters) || fresh(x)
  {
    r := resume;
    if now { r := Relock(m, handle, resume, wasLocked, woken, queue); }
  }

  /** Of the claimed waiters ws, those of live, should_resume_now has been asked for the first i. */
  ghost predicate DecidedUpTo(ws: seq<WaiterState>, live: seq<Ticket>, i: nat)
    reads ws
  {
    && AllValid(ws) && |ws| == |live|
    && forall k :: 0 <= k < |ws| ==>
         ws[k].handle == live[k].handle && ws[k].slot == if k < i then Decide(Win(live[k].slot, false)) else Win(live[k].slot, false)
  }

  method DecideNext(w: WaiterState, ghost ws: seq<WaiterState>, ghost live: seq<Ticket>, ghost i: nat) returns (now: bool)
    requires i < |ws| && w == ws[i] && DecidedUpTo(ws, live, i)
    modifies w
    ensures DecidedUpTo(ws, live, i + 1)
    ensures now <==> live[i].slot.phase == Suspended
  {
    assert forall k :: 0 <= k < |ws| && k != i ==> ws[k] != w;
    now := w.ShouldResumeNow();
  }

  /** The body of the loop of notify_all after the internal lock is released. */
  method RelockNext(m: Mutex, w: WaiterState, resume: seq<nat>, ghost ws: seq<WaiterState>, ghost live: seq<Ticket>,
                    ghost i: nat, ghost wasLocked: bool, ghost woken: seq<nat>, ghost queue: seq<Ticket>)
    returns (r: seq<nat>)
    requires i < |ws| && DecidedUpTo(ws, live, i) && w == ws[i] && w !in m.waiters
    requires WentFor(m, wasLocked, queue, woken, resume)
    modifies m, w
    ensures DecidedUpTo(ws, live, i + 1)
    ensures WentFor(m, wasLocked, queue, if live[i].slot.phase == Suspended then woken + [live[i].handle] else woken, r)
    ensures forall x :: x in m.waiters ==> x in old(m.waiters) || fresh(x)
  {
    var now := DecideNext(w, ws, live, i);
    r := RelockIf(m, now, w.handle, resume, wasLocked, woken, queue);
  }

  /** The loop of notify_all after the internal lock is released: each waiter that has parked goes for the
      lock. */
  method RelockAll(m: Mutex, toResume: seq<WaiterState>, ghost live: seq<Ticket>) returns (resume: seq<nat>)
    requires ClaimedNow(toResume, live) && m.Valid() && forall w :: w in toResume ==> w !in m.waiters
    modifies m, toResume
    ensures WentFor(m, old(m.locked), old(View(m.waiters)), ParkedHandles(live), resume)
    ensures DecidedUpTo(toResume, live, |live|)
  {
    resume := [];
    for i := 0 to |toResume|
      invariant WentFor(m, old(m.locked), old(View(m.waiters)), ParkedHandles(live[..i]), resume)
      invariant forall w :: w in m.waiters ==> w in old(m.waiters) || fresh(w)
      invariant DecidedUpTo(toResume, live, i)
    {
      ParkedPush(live, i);
      resume := RelockNext(m, toResume[i], resume, toResume, live, i, old(m.locked), ParkedHandles(live[..i]), old(View(m.waiters)));
    }
    assert live[..|live|] == live;
  }

  class ConditionVariable {
    const mutex: Mutex
    var waiters: seq<WaiterState>

    ghost predicate Valid()
      reads this, waiters, mutex, mutex.waiters
    {
      AllValid(waiters) && mutex.Valid() && forall w :: w in waiters ==> w !in mutex.waiters
    }

    constructor (m: Mutex)
      requires m.Valid()
      ensures Valid() && mutex == m && waiters == []
    {
      mutex, waiters := m, [];
    }

    method EnqueueWaiter(w: WaiterState)
      requires Valid() && w.Valid() && w !in waiters && w !in mutex.waiters
      modifies this
      ensures Valid() && waiters == old(waiters) + [w]
    {
      waiters := waiters + [w];
    }

    /** The part of notify_one under the internal lock: the handle to go on with, if any. */
    method GrantOne() returns (next: Option<nat>)
      requires Valid()
      modifies this, waiters
      ensures Valid() && View(mutex.waiters) == old(View(mutex.waiters))
      ensures waiters == old(waiters)[Popped(old(View(waiters)), 1)..]
      ensures View(old(waiters)) == GrantFirst(old(View(waiters)), 1)
      ensures Woken(old(View(waiters)), 1) == if next.Some? then [next.value] else []
    {
      assert forall i :: 0 <= i < |mutex.waiters| ==> mutex.waiters[i] !in waiters;
      var rest, granted;
      rest, granted, next := GrantFront(waiters);
      waiters := rest;
    }

    /** The oldest unclaimed waiter gets the notification; if it has parked, it gets the lock too, or
        queues for it. */
    method NotifyOne() returns (resume: seq<nat>)
      requires Valid()
      modifies this, waiters, mutex
      ensures Valid()
      ensures waiters == old(waiters)[Popped(old(View(waiters)), 1)..]
      ensures View(old(waiters)) == GrantFirst(old(View(waiters)), 1)
      ensures var woken := Woken(old(View(waiters)), 1);
        && GoesOn(old(mutex.locked), old(View(mutex.waiters)), View(mutex.waiters), woken, resume)
        && mutex.locked == (old(mutex.locked) || woken != [])
    {
      ghost var woken, before := Woken(View(waiters), 1), View(mutex.waiters);
      var next := GrantOne();
      resume := [];
      if next.Some? { resume := Relock(mutex, next.value, [], mutex.locked, [], View(mutex.waiters)); }
      WentForMeans(old(mutex.locked), before, View(mutex.waiters), woken, resume);
    }

    /** The part of notify_all under the internal lock. */
    method TakeAll() returns (toResume: seq<WaiterState>)
      requires Valid()
      modifies this, waiters
      ensures Valid() && waiters == [] && View(mutex.waiters) == old(View(mutex.waiters))
      ensures ClaimedUpTo(old(waiters), old(View(waiters)), |old(waiters)|) && toResume == LiveOf(old(waiters), old(View(waiters)))
    {
      assert forall i :: 0 <= i < |mutex.waiters| ==> mutex.waiters[i] !in waiters;
      toResume := ClaimAll(waiters);
      waiters := [];
    }

    /** The part of notify_all after it: ws, once q, have just been claimed. */
    method RelockLive(ghost ws: seq<WaiterState>, ghost q: seq<Ticket>, toResume: seq<WaiterState>)
      returns (resume: seq<nat>)
      requires ClaimedUpTo(ws, q, |ws|) && toResume == LiveOf(ws, q)
      requires mutex.Valid() && forall w :: w in ws ==> w !in mutex.waiters
      modifies mutex, toResume
      ensures WentFor(mutex, old(mutex.locked), old(View(mutex.waiters)), Woken(q, |q|), resume)
      ensures View(ws) == GrantFirst(q, |q|)
    {
      assert ws[..|ws|] == ws && q[..|q|] == q;
      LiveClaimed(ws, q, |ws|);
      LiveOfFacts(ws, q, |ws|);
      resume := RelockAll(mutex, toResume, Unclaimed(q));
      assert forall i :: 0 <= i < |ws| ==> View(ws)[i].slot == Grant(q[i].slot);
      GrantsAll(q, View(ws));
    }

    /** Every unclaimed waiter gets a notification, and those that have parked go for the lock in queue
        order: the first gets it if it is free, the others queue. */
    method NotifyAll() returns (resume: seq<nat>)
      requires Valid()
      modifies this, waiters, mutex
      ensures Valid() && waiters == []
      ensures View(old(waiters)) == GrantFirst(old(View(waiters)), |old(waiters)|)
      ensures var woken := Woken(old(View(waiters)), |old(waiters)|);
        && GoesOn(old(mutex.locked), old(View(mutex.waiters)), View(mutex.waiters), woken, resume)
        && mutex.locked == (old(mutex.locked) || woken != [])
    {
      ghost var q, ws := View(waiters), waiters;
      var toResume := TakeAll();
      LiveOfSub(ws, q);
      assert forall i :: 0 <= i < |toResume| ==> toResume[i] in old(waiters);
      resume := RelockLive(ws, q, toResume);
      WentForMeans(old(mutex.locked), old(View(mutex.waiters)), View(mutex.waiters), Woken(q, |q|), resume);
    }
  }

  lemma {:induction false} LiveOfSub(ws: seq<WaiterState>, q: seq<Ticket>)
    requires |ws| == |q|
    ensures forall w :: w in LiveOf(ws, q) ==> w in ws
  {
    var n := |ws|;
    if n > 0 { LiveOfSub(ws[..n - 1], q[..n - 1]); }
  }
}
