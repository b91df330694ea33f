/** The heap-allocated waiter_state, and the loop that wakers run over a queue of them. */
module WaiterStates {
  import opened Basics
  import opened Handshake
  import opened WaitQueue

  class WaiterState {
    const handle: nat
    var resumed: bool
    var cancelled: bool
    var suspendPhase: Phase
    ghost var slot: Slot           // the three atomics with their history

    ghost predicate Valid()
      reads this
    {
      resumed == slot.resumed && cancelled == slot.cancelled && suspendPhase == slot.phase
    }

    constructor (h: nat)
      ensures Valid() && handle == h && slot == FRESH_SLOT
    {
      handle, resumed, cancelled, suspendPhase := h, false, false, Phase.Waiting;
      slot := FRESH_SLOT;
    }

    /** Only the first caller gets true. */
    method TryMarkResumed(ghost cancel: bool) returns (won: bool)
      requires Valid()
      modifies this
      ensures Valid()
      ensures won <==> !old(slot.resumed)
      ensures slot == if won then Win(old(slot), cancel) else old(slot)
      ensures old(SlotOk(slot)) ==> SlotOk(slot) && (won <==> old(slot.claim.Nobody?))
    {
      var before := resumed;
      resumed := true;
      won := !before;
      if won { slot := Win(slot, cancel); }
    }

    method StoreCancelled()
      requires Valid() && slot.claim == Claimed(true, Won)
      modifies this
      ensures Valid() && slot == Store(old(slot))
      ensures old(SlotOk(slot)) ==> SlotOk(slot)
    {
      cancelled := true;
      slot := Store(slot);
    }

    /** The coroutine parks unless a winner has told it not to. */
    method TryMarkSuspended() returns (suspended: bool)
      requires Valid() && slot.side.Deciding?
      modifies this
      ensures Valid() && slot == Mark(old(slot))
      ensures suspended <==> slot.side.Parked?
      ensures old(SlotOk(slot)) ==> SlotOk(slot) && (!suspended <==> Settled(slot))
    {
      suspended := suspendPhase == Phase.Waiting;
      if suspended { suspendPhase := Suspended; }
      slot := Mark(slot);
    }

    /** The winner owes a resume exactly when the coroutine has parked. */
    method ShouldResumeNow() returns (now: bool)
      requires Valid() && Undecided(slot) && (slot.claim.cancel ==> slot.claim.stage == Stored)
      modifies this
      ensures Valid() && slot == Decide(old(slot))
      ensures now <==> slot.claim.stage == Owes
      ensures old(SlotOk(slot)) ==> SlotOk(slot) && (now <==> slot.side.Parked?)
    {
      var expected := suspendPhase;
      if expected == Phase.Waiting { suspendPhase := WakeRequested; }
      now := expected == Suspended;
      slot := Decide(slot);
    }

    /** The callback that a waiter of a mutex or a semaphore registers: the handle it resumes, if any. */
    method CancelCallback() returns (resume: Option<nat>)
      requires Valid() && SlotOk(slot)
      modifies this
      ensures Valid() && SlotOk(slot) && slot == WaitQueue.Cancel(old(slot))
      ensures resume == if old(slot.claim.Nobody? && slot.side.Parked?) then Some(handle) else None
      ensures old(slot.claim.Nobody?) <==> slot != old(slot)
    {
      var won := TryMarkResumed(true);
      if !won { return None; }
      StoreCancelled();
      var now := ShouldResumeNow();
      return if now then Some(handle) else None;
    }
  }

  ghost predicate AllValid(ws: seq<WaiterState>)
    reads ws
  {
    && (forall i, j :: 0 <= i < j < |ws| ==> ws[i] != ws[j])
    && (forall i :: 0 <= i < |ws| ==> ws[i].Valid())
  }

  ghost function View(ws: seq<WaiterState>): (q: seq<Ticket>)
    reads ws
    ensures |q| == |ws|
  {
    seq(|ws|, i requires 0 <= i < |ws| reads ws => Ticket(ws[i].handle, ws[i].slot))
  }

  /** Popping for one: everything before the waiter found was claimed already. */
  lemma {:induction false} PoppedForOne(q: seq<Ticket>)
    ensures var n := Popped(q, 1);
      && (Unclaimed(q) == [] ==> n == |q| && forall i :: 0 <= i < |q| ==> q[i].slot.resumed)
      && (Unclaimed(q) != [] ==> n > 0 && !q[n - 1].slot.resumed && forall i :: 0 <= i < n - 1 ==> q[i].slot.resumed)
      && Woken(q, 1) == if Unclaimed(q) != [] && q[n - 1].slot.phase == Suspended then [q[n - 1].handle] else []
  {
    if q != [] && q[0].slot.resumed {
      PoppedForOne(q[1..]);
      assert forall i :: 0 < i < |q| ==> q[i] == q[1..][i - 1];
    }
  }

  /** The loop that unlock, release and notify_one share: pop until a waiter is claimed. */
  method ClaimFront(ws: seq<WaiterState>) returns (rest: seq<WaiterState>, claimed: WaiterState?)
    requires AllValid(ws)
    modifies ws
    ensures AllValid(ws)
    ensures rest == ws[Popped(old(View(ws)), 1)..]
    ensures claimed == null <==> Unclaimed(old(View(ws))) == []
    ensures claimed != null ==>
      var n := Popped(old(View(ws)), 1);
      n > 0 && claimed == ws[n - 1] && claimed.slot == Win(old(View(ws))[n - 1].slot, false)
    ensures forall w :: w in ws && w != claimed ==> w.slot == old(w.slot)
  {
    ghost var q := View(ws);
    ghost var i := 0;
    rest := ws;
    claimed := null;
    while rest != [] && claimed == null
      invariant 0 <= i <= |ws| && rest == ws[i..] && AllValid(ws)
      invariant forall k :: 0 <= k < |ws| && ws[k] != claimed ==> ws[k].slot == q[k].slot
      invariant forall k :: 0 <= k < i && ws[k] != claimed ==> q[k].slot.resumed
      invariant claimed != null ==>
        i > 0 && claimed == ws[i - 1] && !q[i - 1].slot.resumed && claimed.slot == Win(q[i - 1].slot, false)
      decreases |rest|, claimed == null
    {
      var w := rest[0];
      assert w == ws[i];
      rest := rest[1..];
      i := i + 1;
      var won := w.TryMarkResumed(false);
      if won { claimed := w; }
    }
    if claimed != null { FoundFirst(q, i - 1); } else { NoneFound(q); }
  }

  /** Claiming one waiter and asking should_resume_now for it is granting it. */
  lemma GrantsFirst(q: seq<Ticket>, q': seq<Ticket>)
    requires |q'| == |q| && forall i :: 0 <= i < |q| ==> q'[i].handle == q[i].handle
    requires Unclaimed(q) != [] ==> q'[Popped(q, 1) - 1].slot == Grant(q[Popped(q, 1) - 1].slot)
    requires forall i :: 0 <= i < |q| && (Unclaimed(q) != [] ==> i != Popped(q, 1) - 1) ==> q'[i] == q[i]
    ensures q' == GrantFirst(q, 1)
  {
    PoppedForOne(q);
    forall i | 0 <= i < |q| ensures q'[i] == GrantFirst(q, 1)[i] { GrantsOnlyPopped(q, 1, i); }
  }

  /** The loop together with the should_resume_now that follows it: `next` is the handle to resume. */
  method GrantFront(ws: seq<WaiterState>) returns (rest: seq<WaiterState>, granted: bool, next: Option<nat>)
    requires AllValid(ws)
    modifies ws
    ensures AllValid(ws) && AllValid(rest) && forall w :: w in rest ==> w in ws
    ensures rest == ws[Popped(old(View(ws)), 1)..]
    ensures View(ws) == GrantFirst(old(View(ws)), 1)
    ensures granted <==> Unclaimed(old(View(ws))) != []
    ensures Woken(old(View(ws)), 1) == if next.Some? then [next.value] else []
  {
    ghost var q := View(ws);
    PoppedForOne(q);
    var claimed;
    rest, claimed := ClaimFront(ws);
    granted, next := claimed != null, None;
    if claimed != null {
      var now := claimed.ShouldResumeNow();
      if now { next := Some(claimed.handle); }
    }
    GrantsFirst(q, View(ws));
  }
}
