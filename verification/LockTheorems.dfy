/** What the mutex and the condition variable promise, in every run of the step machine. */
module LockTheorems {
  import opened Basics
  import opened Handshake
  import opened LockModel
  import opened LockInvariant
  import opened LockSteps
  import opened LockRefinement
  import opened LockWaiters

  ghost predicate Reachable(s: State) { exists run :: IsRun(run) && run[|run| - 1] == s }

  lemma ReachableInv(s: State)
    requires Reachable(s)
    ensures Inv(s)
  {
    var run :| IsRun(run) && run[|run| - 1] == s;
    RunInv(run);
  }

  lemma {:induction false} PrefixReachable(run: seq<State>, i: nat)
    requires IsRun(run) && i < |run|
    ensures Reachable(run[i])
  {
    var prefix := run[..i + 1];
    assert IsRun(prefix) && prefix[|prefix| - 1] == run[i];
  }

  ghost predicate AbstractNext(a: Abstract, a': Abstract) {
    exists st :: AbsEnabled(a, st) && a' == AbsApply(a, st)
  }

  lemma NextRefines(s: State, s': State)
    requires Reachable(s) && Next(s, s')
    ensures AbstractNext(View(s), View(s'))
  {
    ReachableInv(s);
    var st :| Enabled(s, st) && s' == Apply(s, st);
    StepRefines(s, st);
  }

  /** Every run, seen through View, is a run of the simple machine. */
  lemma RunRefines(run: seq<State>)
    requires IsRun(run)
    ensures View(run[0]) == Abstract(None, [], [])
    ensures forall i :: 0 <= i < |run| - 1 ==> AbstractNext(View(run[i]), View(run[i + 1]))
  {
    forall i | 0 <= i < |run| - 1 ensures AbstractNext(View(run[i]), View(run[i + 1])) {
      PrefixReachable(run, i);
      assert Next(run[i], run[i + 1]);
      NextRefines(run[i], run[i + 1]);
    }
  }

  /** `locked_` holds exactly when one coroutine has the lock or has been handed it; a free mutex has
      no live waiter to barge past, in its queue or in hand. */
  lemma OwnershipConserved(s: State)
    requires Reachable(s)
    ensures s.locked <==> exists c :: 0 <= c < |s.cos| && Owns(s, c)
    ensures forall c, d :: 0 <= c < |s.cos| && 0 <= d < |s.cos| && Owns(s, c) && Owns(s, d) ==> c == d
    ensures !s.locked ==> s.mq == [] && s.mguard.MFree?
    ensures !s.locked ==> forall w :: 0 <= w < |s.waiters| && s.waiters[w].kind == LockWaiter ==> s.waiters[w].slot.resumed
  {
    ReachableInv(s);
    if s.locked { assert s.owner == Some(s.owner.value) <==> Owns(s, s.owner.value); }
    forall w | 0 <= w < |s.waiters| && s.waiters[w].kind == LockWaiter && !s.locked ensures s.waiters[w].slot.resumed {
      assert WaiterOk(s, w);
    }
  }

  /** A lock attempt about to return owns the lock exactly when it is not going to throw. */
  lemma LockOutcome(s: State, c: nat)
    requires Reachable(s) && c < |s.cos| && s.cos[c].LkResume?
    ensures s.owner == Some(c) <==> !Throws(s, s.cos[c].immediate, s.cos[c].ow)
    ensures s.owner == Some(c) ==> s.locked
  {
    ReachableInv(s);
    assert s.owner == Some(c) <==> Owns(s, c);
  }

  /** cv.wait reaches await_resume owning the mutex, whether it is going to return or to throw. */
  lemma WaitReturnsOwning(s: State, c: nat)
    requires Reachable(s) && c < |s.cos| && s.cos[c].CvResume?
    ensures s.locked && s.owner == Some(c)
    ensures forall d :: 0 <= d < |s.cos| && d != c ==> !Owns(s, d)
  {
    ReachableInv(s);
    assert s.owner == Some(c) <==> Owns(s, c);
    forall d | 0 <= d < |s.cos| && d != c ensures !Owns(s, d) { assert s.owner == Some(d) <==> Owns(s, d); }
  }

  /** await_resume throws exactly when cancellation was seen before queueing, or a cancel callback won
      the waiter. */
  lemma ThrowsIff(s: State, c: nat)
    requires Reachable(s) && c < |s.cos| && (s.cos[c].LkResume? || s.cos[c].CvResume?)
    ensures var p := s.cos[c];
      && (p.ow.Some? ==> p.ow.value < |s.waiters| && s.waiters[p.ow.value].slot.claim.Claimed?)
      && (Throws(s, p.immediate, p.ow) <==>
            p.immediate || (p.ow.Some? && s.waiters[p.ow.value].slot.claim.cancel))
  {
    ReachableInv(s);
    assert CoOk(s, c);
    if s.cos[c].ow.Some? { assert WaiterOk(s, s.cos[c].ow.value); }
  }

  /** The token with which coroutine c is about to test for cancellation, if it is. */
  function TestsToken(p: Pc): Option<Option<nat>> {
    match p
    case LkReady(tok) => Some(tok)
    case LkCheck(tok) => Some(tok)
    case CvReady(tok) => Some(tok)
    case CvCheck(tok) => Some(tok)
    case _ => None
  }

  /** Cancellation is seen before queueing exactly when one of the two tests finds the token cancelled;
      the coroutine then goes straight to await_resume, with no waiter. */
  lemma SeenBeforeQueueing(s: State, c: nat)
    requires CoEnabled(s, c)
    ensures var s', test := CoStep(s, c), TestsToken(s.cos[c]);
      c < |s'.cos| && (SeesCancel(s'.cos[c]) <==> test.Some? && Requested(s, test.value))
  {
    if BeforeParking(s.cos[c]) { SeenByWait(s, c); } else { SeenByLock(s, c); }
  }

  predicate SeesCancel(p: Pc) { (p.LkResume? || p.CvResume?) && p.immediate }

  lemma SeenByWait(s: State, c: nat)
    requires CoEnabled(s, c) && BeforeParking(s.cos[c])
    ensures var s', test := CoStep(s, c), TestsToken(s.cos[c]);
      c < |s'.cos| && (SeesCancel(s'.cos[c]) <==> test.Some? && Requested(s, test.value))
  {}

  lemma SeenByLock(s: State, c: nat)
    requires CoEnabled(s, c) && !BeforeParking(s.cos[c])
    ensures var s', test := CoStep(s, c), TestsToken(s.cos[c]);
      c < |s'.cos| && (SeesCancel(s'.cos[c]) <==> test.Some? && Requested(s, test.value))
  {}

  /** The winner of a parked waiter always has a step left that leads to the resume. */
  lemma ClaimedAndParked(s: State, w: nat)
    requires Reachable(s) && w < |s.waiters|
    requires s.waiters[w].slot.side == Parked && s.waiters[w].slot.resumed
    ensures s.waiters[w].co < |s.cos| && ParkedAt(s.cos[s.waiters[w].co]) == Some(w)
    ensures WinnerEnabled(s, w) || s.mguard == MDeciding(w) || (!s.mguard.MFree? && OwesRelock(s.waiters[w]))
  {
    ReachableInv(s);
    assert WaiterOk(s, w);
    assert CoOk(s, s.waiters[w].co);
  }

  /** No handle is ever resumed that is not suspended at that moment. */
  lemma NoStrayResume(s: State)
    requires Reachable(s)
    ensures !s.fault
  {
    ReachableInv(s);
  }

  /** Across every step a claim is for good, and a coroutine leaves a waiter once: told not to park, or by
      one resume that is owed to it after it has parked. */
  lemma LeavesOnce(s: State, s': State, w: nat)
    requires Reachable(s) && Next(s, s') && w < |s.waiters|
    ensures w < |s'.waiters| && SlotAdvances(s.waiters[w].slot, s'.waiters[w].slot)
  {
    ReachableInv(s);
    var st :| Enabled(s, st) && s' == Apply(s, st);
    if st.Notify? && s.cguard.CClaiming? { NotifyClaims(s, w); } else { StepLater(s, st, w); }
  }

  // ---- notifications ----

  /** A waiting coroutine that nobody has claimed is in the queue or in the hand of a notifier; one
      that was notified either is still on its way back or has returned without throwing. */
  lemma NoLostNotification(s: State, v: nat)
    requires Reachable(s) && v < |s.waiters| && s.waiters[v].kind == WaitWaiter
    ensures var x := s.waiters[v];
      && (!x.slot.resumed ==> v in WaitQueue(s))
      && x.co < |s.cos|
      && (x.outcome.None? ==> Some(v) in {DecidingAt(s.cos[x.co]), ParkedAt(s.cos[x.co]), LeavingAt(s.cos[x.co])})
      && (x.outcome.Some? ==> x.slot.resumed && (x.outcome.value <==> !Granted(x.slot)))
  {
    ReachableInv(s);
    assert WaiterOk(s, v);
    var p := s.cos[s.waiters[v].co];
    assert CoOk(s, s.waiters[v].co);
    assert p.CvParked? ==> WaiterOk(s, p.v);
  }

  /** A notify_one that ends without a claim does so when no coroutine is waiting unclaimed. */
  lemma NotifyOneMissesNobody(s: State)
    requires Reachable(s) && s.cguard == CPopping(false, false) && s.cq == []
    ensures forall v :: 0 <= v < |s.waiters| && s.waiters[v].kind == WaitWaiter ==> s.waiters[v].slot.resumed
  {
    ReachableInv(s);
    forall v | 0 <= v < |s.waiters| && s.waiters[v].kind == WaitWaiter ensures s.waiters[v].slot.resumed {
      assert WaiterOk(s, v);
    }
  }

  // ---- nothing is stranded ----

  /** No call is in progress anywhere: only user code could take a step. */
  ghost predicate Quiescent(s: State) {
    && s.mguard.MFree? && s.cguard.CFree?
    && (forall c :: 0 <= c < |s.cos| ==> !CoEnabled(s, c))
    && (forall w :: 0 <= w < |s.waiters| ==> !WinnerEnabled(s, w))
  }

  lemma AllSettled(s: State, w: nat)
    requires Inv(s) && Quiescent(s) && w < |s.waiters|
    ensures WaiterOk(s, w) && (s.waiters[w].slot.resumed ==> Settled(s.waiters[w].slot))
  {
    assert WaiterOk(s, w);
    assert !WinnerEnabled(s, w);
  }

  lemma AtRest(s: State, c: nat)
    requires Inv(s) && Quiescent(s) && c < |s.cos|
    ensures CoOk(s, c)
    ensures s.cos[c].Run? || UnclaimedPark(s, s.cos[c])
  {
    assert CoOk(s, c);
    assert !CoEnabled(s, c);
    forall w | 0 <= w < |s.waiters|
      ensures WaiterOk(s, w) && (s.waiters[w].slot.resumed ==> Settled(s.waiters[w].slot))
    {
      AllSettled(s, w);
    }
  }

  predicate UnclaimedPark(s: State, p: Pc) {
    ParkedAt(p).Some? && ParkedAt(p).value < |s.waiters| && !s.waiters[ParkedAt(p).value].slot.resumed
  }

  /** When no call is in progress, a coroutine is in user code or parked on an unclaimed waiter, and
      coroutines that queue for the lock do so behind an owner that is in user code. */
  lemma NothingStranded(s: State, c: nat)
    requires Reachable(s) && Quiescent(s) && c < |s.cos|
    ensures s.cos[c].Run? || UnclaimedPark(s, s.cos[c])
    ensures s.cos[c].LkParked? || s.cos[c].CvRelockParked? ==>
      s.owner.Some? && s.owner.value < |s.cos| && s.cos[s.owner.value] == Run(true)
  {
    ReachableInv(s);
    AtRest(s, c);
    if s.cos[c].LkParked? || s.cos[c].CvRelockParked? {
      AllSettled(s, ParkedAt(s.cos[c]).value);
      assert s.locked;
      var o := s.owner.value;
      AtRest(s, o);
      if UnclaimedPark(s, s.cos[o]) { AllSettled(s, ParkedAt(s.cos[o]).value); }
      assert s.owner == Some(o) <==> Owns(s, o);
    }
  }
}
