/** An unlock or notify call of the step machine that nobody interferes with while it holds its internal
    lock does what the loops of the methods Unlock, NotifyOne and NotifyAll do. */
module LockSolo {
  import opened Basics
  import opened Handshake
  import opened LockModel
  import opened LockInvariant
  import opened LockSteps
  import opened LockRefinement
  import W = WaitQueue

  function All(ws: seq<Waiter>): (all: seq<W.Ticket>)
    ensures |all| == |ws| && forall u :: 0 <= u < |ws| ==> all[u] == W.Ticket(ws[u].co, ws[u].slot)
  {
    seq(|ws|, u requires 0 <= u < |ws| => W.Ticket(ws[u].co, ws[u].slot))
  }

  lemma SlotChanges(ws: seq<Waiter>, w: nat, t: Slot)
    requires w < |ws|
    ensures All(ws[w := ws[w].(slot := t)]) == All(ws)[w := All(ws)[w].(slot := t)]
  {}

  lemma Queues(s: State)
    requires Inv(s)
    ensures NoDup(LockQueue(s)) && W.InRange(LockQueue(s), |s.waiters|)
    ensures NoDup(WaitQueue(s)) && W.InRange(WaitQueue(s), |s.waiters|)
    ensures s.mguard.MClaiming? ==> LockQueue(s)[0] == s.mguard.w < |s.waiters| && LockQueue(s)[1..] == s.mq
    ensures s.cguard.CClaiming? ==> WaitQueue(s)[0] == s.cguard.w < |s.waiters| && WaitQueue(s)[1..] == s.cq
  {
    QueueFacts(s);
    forall u | u in LockQueue(s) ensures u < |s.waiters| { assert IsKind(s, u, LockWaiter); }
    forall u | u in WaitQueue(s) ensures u < |s.waiters| { assert IsKind(s, u, WaitWaiter); }
  }

  // ---- unlock ----

  /** Only the unlock call takes steps, until the internal lock is free. */
  ghost function SoloUnlock(s: State): (r: State)
    requires Inv(s)
    ensures Inv(r) && r.mguard.MFree?
    decreases |s.mq|, if s.mguard.MClaiming? then 3 else if s.mguard.MPopping? then 2 else if s.mguard.MDeciding? then 1 else 0
  {
    if s.mguard.MFree? then s else UnlockGoesOn(s); SoloUnlock(UnlockStep(s))
  }

  lemma UnlockGoesOn(s: State)
    requires Inv(s) && !s.mguard.MFree?
    ensures UnlockEnabled(s) && Inv(UnlockStep(s))
  {
    if s.mguard.MDeciding? { assert WaiterOk(s, s.mguard.w); }
    StepInv(s, Unlock);
  }

  /** Popping up to the oldest unclaimed waiter of s leads to r, which grants that one and frees the
      mutex iff there is none. */
  ghost predicate UnlockServes(s: State, r: State)
    requires W.InRange(LockQueue(s), |s.waiters|)
  {
    var live := W.Unclaimed(W.Pick(All(s.waiters), LockQueue(s)));
    && W.Pops(All(s.waiters), LockQueue(s), 1, true, All(r.waiters), r.mq)
    && (r.locked <==> live != [])
    && r.owner == (if live == [] then None else Some(live[0].handle))
  }

  /** Left alone, an unlock call serves the queue of s. */
  ghost predicate Unlocks(s: State)
    requires Inv(s)
  {
    W.InRange(LockQueue(s), |s.waiters|) && UnlockServes(s, SoloUnlock(s))
  }

  lemma EmptyPops(s: State, r: State)
    requires s.mguard.MPopping? && s.mq == [] && r.waiters == s.waiters && r.mq == []
    ensures W.InRange(LockQueue(s), |s.waiters|)
    ensures W.Pops(All(s.waiters), LockQueue(s), 1, true, All(r.waiters), r.mq)
  {
    var all, q: seq<nat> := All(s.waiters), [];
    assert LockQueue(s) == q && r.mq == q;
    W.PopsNone(all, q, 1, true);
  }

  lemma NobodyQueues(s: State)
    requires s.mguard.MPopping? && s.mq == [] && W.InRange(LockQueue(s), |s.waiters|)
    ensures W.Unclaimed(W.Pick(All(s.waiters), LockQueue(s))) == []
  {
    assert LockQueue(s) == [];
  }

  lemma UnlockEnds(s: State, r: State)
    requires Inv(s) && s.mguard.MPopping? && s.mq == []
    requires r == SoloUnlock(s) && r.waiters == s.waiters && r.mq == [] && !r.locked && r.owner == None
    ensures Unlocks(s)
  {
    EmptyPops(s, r);
    NobodyQueues(s);
  }

  lemma UnlockPops(s: State, s1: State)
    requires Inv(s) && Inv(s1) && s.mguard.MPopping? && s.mq != []
    requires s1 == s.(mq := s.mq[1..], mguard := MClaiming(s.mguard.c, s.mq[0]))
    requires SoloUnlock(s) == SoloUnlock(s1) && Unlocks(s1)
    ensures Unlocks(s)
  {
    assert LockQueue(s1) == s.mq == LockQueue(s);
  }

  lemma UnlockSkips(s: State, s1: State)
    requires Inv(s) && Inv(s1) && s.mguard.MClaiming? && s.mguard.w < |s.waiters| && s.waiters[s.mguard.w].slot.resumed
    requires s1 == s.(mguard := MPopping(s.mguard.c))
    requires SoloUnlock(s) == SoloUnlock(s1) && Unlocks(s1)
    ensures Unlocks(s)
  {
    Queues(s);
    var all, w, r := All(s.waiters), s.mguard.w, SoloUnlock(s);
    assert all == all[w := all[w].(slot := W.Woke(all[w].slot, true))];
    W.PopsFront(all, LockQueue(s), 1, true, All(r.waiters), r.mq);
    assert W.Pick(all, LockQueue(s))[1..] == W.Pick(all, s.mq);
  }

  /** The claim, and should_resume_now. */
  lemma TwoSteps(s: State)
    requires s.mguard.MClaiming? && UnlockEnabled(s) && !s.waiters[s.mguard.w].slot.resumed
    requires UnlockEnabled(UnlockStep(s))
    ensures var r, w := UnlockStep(UnlockStep(s)), s.mguard.w;
      && r.waiters == s.waiters[w := s.waiters[w].(slot := W.Grant(s.waiters[w].slot))]
      && r.mq == s.mq && r.locked == s.locked && r.owner == Some(s.waiters[w].co)
  {
    var w, t := s.mguard.w, s.waiters[s.mguard.w].slot;
    assert UnlockStep(s).waiters == s.waiters[w := s.waiters[w].(slot := Win(t, false))];
  }

  lemma UnlockHandsOff(s: State, r: State)
    requires Inv(s) && s.mguard.MClaiming? && s.mguard.w < |s.waiters| && !s.waiters[s.mguard.w].slot.resumed
    requires r == SoloUnlock(s) && r.mq == s.mq && r.locked && r.owner == Some(s.waiters[s.mguard.w].co)
    requires r.waiters == s.waiters[s.mguard.w := s.waiters[s.mguard.w].(slot := W.Grant(s.waiters[s.mguard.w].slot))]
    ensures Unlocks(s)
  {
    Queues(s);
    var w := s.mguard.w;
    SlotChanges(s.waiters, w, W.Grant(s.waiters[w].slot));
    W.PopsNone(All(r.waiters), s.mq, 0, true);
    W.PopsFront(All(s.waiters), LockQueue(s), 1, true, All(r.waiters), r.mq);
  }

  /** What unlock does under its internal lock: it pops up to the oldest unclaimed waiter, which gets the
      lock, and frees the mutex iff there is none. */
  lemma {:induction false} SoloUnlockServes(s: State)
    requires Inv(s) && (s.mguard.MPopping? || s.mguard.MClaiming?)
    ensures Unlocks(s)
    decreases |s.mq|, if s.mguard.MClaiming? then 1 else 0
  {
    UnlockGoesOn(s);
    var s1 := UnlockStep(s);
    if s.mguard.MPopping? {
      if s.mq == [] {
        assert SoloUnlock(s) == s1;
        UnlockEnds(s, s1);
      } else {
        SoloUnlockServes(s1);
        UnlockPops(s, s1);
      }
    } else if s.waiters[s.mguard.w].slot.resumed {
      SoloUnlockServes(s1);
      UnlockSkips(s, s1);
    } else {
      UnlockGoesOn(s1);
      assert SoloUnlock(s) == SoloUnlock(s1) == UnlockStep(s1);
      TwoSteps(s);
      UnlockHandsOff(s, UnlockStep(s1));
    }
  }

  // ---- notify_one and notify_all ----

  /** Only the notify call takes steps, until the internal lock is free. */
  ghost function SoloNotify(s: State): (r: State)
    requires Inv(s)
    ensures Inv(r) && r.cguard.CFree?
    decreases |s.cq|, if s.cguard.CClaiming? then 2 else if s.cguard.CPopping? then 1 else 0
  {
    if s.cguard.CFree? then s else NotifyGoesOn(s); SoloNotify(NotifyStep(s))
  }

  lemma NotifyGoesOn(s: State)
    requires Inv(s) && !s.cguard.CFree?
    ensures NotifyEnabled(s) && Inv(NotifyStep(s))
  {
    Queues(s);
    StepInv(s, Notify);
  }

  /** How many unclaimed waiters the call is still looking for: one for notify_one until it has one; for
      notify_all at least as many as there are. */
  predicate LooksFor(s: State, n: nat) {
    match s.cguard
    case CFree => false
    case CPopping(all, won) => if all then n >= |s.cq| else n == if won then 0 else 1
    case CClaiming(all, _) => if all then n > |s.cq| else n == 1
  }

  /** Left alone, a notify call that looks for n waiters pops up to the n-th unclaimed one, claims those
      it pops, and leaves the mutex alone. */
  ghost predicate Notifies(s: State, n: nat)
    requires Inv(s)
  {
    && W.InRange(WaitQueue(s), |s.waiters|)
    && var r := SoloNotify(s);
       && W.Pops(All(s.waiters), WaitQueue(s), n, false, All(r.waiters), r.cq)
       && r == s.(waiters := r.waiters, cq := r.cq, cguard := CFree)
  }

  lemma NotifyEnds(s: State, n: nat)
    requires Inv(s) && s.cguard.CPopping? && (n == 0 || s.cq == [])
    requires SoloNotify(s) == s.(cguard := CFree)
    ensures Notifies(s, n)
  {
    Queues(s);
    assert WaitQueue(s) == s.cq;
    W.PopsNone(All(s.waiters), s.cq, n, false);
  }

  lemma NotifyPops(s: State, s1: State, n: nat)
    requires Inv(s) && Inv(s1) && s.cguard.CPopping? && s.cq != []
    requires s1 == s.(cq := s.cq[1..], cguard := CClaiming(s.cguard.all, s.cq[0]))
    requires SoloNotify(s) == SoloNotify(s1) && Notifies(s1, n)
    ensures Notifies(s, n)
  {
    assert WaitQueue(s1) == s.cq == WaitQueue(s);
  }

  lemma NotifyClaims(s: State, s1: State, n: nat)
    requires Inv(s) && Inv(s1) && s.cguard.CClaiming? && s.cguard.w < |s.waiters| && n > 0
    requires var x := s.waiters[s.cguard.w];
      && s1 == s.(waiters := s.waiters[s.cguard.w := x.(slot := W.Woke(x.slot, false))],
                  cguard := CPopping(s.cguard.all, !x.slot.resumed))
    requires SoloNotify(s) == SoloNotify(s1)
    requires Notifies(s1, if s.waiters[s.cguard.w].slot.resumed then n else n - 1)
    ensures Notifies(s, n)
  {
    Queues(s);
    var w, r := s.cguard.w, SoloNotify(s);
    SlotChanges(s.waiters, w, W.Woke(s.waiters[w].slot, false));
    W.PopsFront(All(s.waiters), WaitQueue(s), n, false, All(r.waiters), r.cq);
  }

  /** notify_one claims the oldest unclaimed waiter and no other; notify_all claims all of them. */
  lemma {:induction false} SoloNotifyServes(s: State, n: nat)
    requires Inv(s) && LooksFor(s, n)
    ensures Notifies(s, n)
    decreases |s.cq|, if s.cguard.CClaiming? then 2 else 1
  {
    NotifyGoesOn(s);
    Queues(s);
    var s1 := NotifyStep(s);
    if s.cguard.CClaiming? {
      var x := s.waiters[s.cguard.w];
      assert s.waiters[s.cguard.w := x.(slot := x.slot)] == s.waiters;
      SoloNotifyServes(s1, if x.slot.resumed then n else n - 1);
      NotifyClaims(s, s1, n);
    } else if s1.cguard.CFree? {
      NotifyEnds(s, n);
    } else {
      SoloNotifyServes(s1, n);
      NotifyPops(s, s1, n);
    }
  }
}
