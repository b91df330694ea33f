/** mutex in place, each method run without interference; LockModel has the interference. A handle that
    the source resumes is returned instead: what the resumed coroutine does comes later. */
module Mutexes {
  import opened Basics
  import opened Handshake
  import opened WaitQueue
  import opened WaiterStates

  /** The tickets of waiters that lock_or_enqueue pushes. */
  function Queued(handles: seq<nat>): (q: seq<Ticket>)
    ensures |q| == |handles|
  {
    if handles == [] then [] else [Ticket(handles[0], Mark(FRESH_SLOT))] + Queued(handles[1..])
  }

  /** A parked waiter that nobody has claimed. */
  const IDLE := Slot(false, false, Suspended, Parked, Nobody)

  lemma {:induction false} QueuedAre(handles: seq<nat>)
    ensures HandlesOf(Queued(handles)) == handles
    ensures forall i :: 0 <= i < |handles| ==> Queued(handles)[i].slot == IDLE
  {
    if handles != [] {
      QueuedAre(handles[1..]);
      assert HandlesOf(Queued(handles)) == [handles[0]] + HandlesOf(Queued(handles[1..]));
    }
  }

  lemma {:induction false} QueuedPush(handles: seq<nat>, h: nat)
    ensures Queued(handles + [h]) == Queued(handles) + [Ticket(h, Mark(FRESH_SLOT))]
  {
    if handles == [] {
      assert handles + [h] == [h] && [h][1..] == [];
    } else {
      assert (handles + [h])[1..] == handles[1..] + [h];
      QueuedPush(handles[1..], h);
    }
  }

  class Mutex {
    var locked: bool
    var waiters: seq<WaiterState>

    /** Nobody waits for a lock that is free. */
    ghost predicate Valid()
      reads this, waiters
    {
      AllValid(waiters) && (!locked ==> waiters == [])
    }

    constructor ()
      ensures Valid() && !locked && waiters == []
    {
      locked, waiters := false, [];
    }

    method TryLock() returns (taken: bool)
      requires Valid()
      modifies this`locked
      ensures Valid() && locked
      ensures taken <==> !old(locked)
    {
      taken := !locked;
      locked := true;
    }

    /** The lock goes to the oldest unclaimed waiter, and is free afterwards only if there is none; next
        is that waiter's handle if it has parked. */
    method Unlock() returns (next: Option<nat>)
      requires Valid() && locked
      modifies this, waiters
      ensures Valid()
      ensures waiters == old(waiters)[Popped(old(View(waiters)), 1)..]
      ensures View(old(waiters)) == GrantFirst(old(View(waiters)), 1)
      ensures locked <==> Unclaimed(old(View(waiters))) != []
      ensures Woken(old(View(waiters)), 1) == if next.Some? then [next.value] else []
    {
      var rest, granted;
      rest, granted, next := GrantFront(waiters);
      PoppedForOne(old(View(waiters)));
      waiters := rest;
      if !granted { locked := false; }
    }

    /** enqueue_waiter: false when the lock was free and is now the caller's. */
    method EnqueueWaiter(w: WaiterState) returns (queued: bool)
      requires Valid() && w.Valid() && w !in waiters
      modifies this
      ensures Valid() && locked
      ensures queued <==> old(locked)
      ensures waiters == if queued then old(waiters) + [w] else old(waiters)
    {
      if !locked {
        locked := true;
        return false;
      }
      waiters := waiters + [w];
      return true;
    }

    /** lock_or_enqueue: the caller either has the lock, or has a parked waiter at the end of the queue. */
    method LockOrEnqueue(handle: nat) returns (suspended: bool)
      requires Valid()
      modifies this
      ensures Valid() && locked && (forall w :: w in waiters ==> w in old(waiters) || fresh(w))
      ensures suspended <==> old(locked)
      ensures View(waiters) == old(View(waiters)) + if suspended then [Ticket(handle, IDLE)] else []
    {
      var w := new WaiterState(handle);
      if !locked {
        locked := true;
        return false;
      }
      waiters := waiters + [w];
      suspended := w.TryMarkSuspended();
      assert forall i :: 0 <= i < |old(waiters)| ==> waiters[i] == old(waiters)[i];
    }

    /** lock_and_resume. */
    method LockAndResume(handle: nat) returns (resume: Option<nat>)
      requires Valid()
      modifies this
      ensures Valid() && locked && (forall w :: w in waiters ==> w in old(waiters) || fresh(w))
      ensures resume == if old(locked) then None else Some(handle)
      ensures View(waiters) == old(View(waiters)) + if old(locked) then [Ticket(handle, IDLE)] else []
    {
      var suspended := LockOrEnqueue(handle);
      return if suspended then None else Some(handle);
    }
  }
}
