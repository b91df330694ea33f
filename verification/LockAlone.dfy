/** A call that nobody interferes with, from user code on: what lock, try_lock, wait, unlock and notify do. */
module LockAlone {
  import opened Basics
  import opened Handshake
  import opened LockModel
  import opened LockInvariant
  import opened LockSteps
  import opened LockRefinement
  import opened LockTheorems
  import opened LockSolo

  /** Only coroutine c takes steps: k of them, or as many as it can. */
  function Alone(s: State, c: nat, k: nat): State
    decreases k
  {
    if k == 0 || !CoEnabled(s, c) then s else Alone(CoStep(s, c), c, k - 1)
  }

  lemma AloneStep(s: State, c: nat, k: nat)
    requires CoEnabled(s, c) && k > 0
    ensures Alone(s, c, k) == Alone(CoStep(s, c), c, k - 1)
  {}

  lemma SetTwice(s: State, c: nat, p: Pc, q: Pc)
    requires c < |s.cos|
    ensures SetCo(SetCo(s, c, p), c, q) == SetCo(s, c, q)
  {
    assert s.cos[c := p][c := q] == s.cos[c := q];
  }

  // ---- try_lock and lock ----

  /** try_lock takes the mutex iff no coroutine has it, and changes nothing else. */
  lemma TryLockTakes(s: State, c: nat)
    requires Reachable(s) && Enabled(s, TryLock(c))
    ensures (forall d :: 0 <= d < |s.cos| ==> !Owns(s, d)) ==>
      Apply(s, TryLock(c)) == s.(locked := true, owner := Some(c), cos := s.cos[c := Run(true)])
    ensures (exists d :: 0 <= d < |s.cos| && Owns(s, d)) ==> Apply(s, TryLock(c)) == s
  {
    OwnershipConserved(s);
  }

  /** lock(token) when the token is requested: the call is over after await_ready, and changes nothing. */
  lemma LockCancelled(s: State, c: nat, tok: Option<nat>)
    requires Enabled(s, BeginLock(c, tok)) && Requested(s, tok)
    ensures Alone(Apply(s, BeginLock(c, tok)), c, 2) == s
  {
    var s1 := Apply(s, BeginLock(c, tok));
    SetTwice(s, c, LkReady(tok), LkResume(true, None));
    assert CoStep(s1, c) == SetCo(s, c, LkResume(true, None));
    SetTwice(s, c, LkResume(true, None), Run(false));
    assert s.cos[c := Run(false)] == s.cos;
    assert CoStep(CoStep(s1, c), c) == s;
    AloneStep(s1, c, 2);
  }

  lemma LockReachesTry(s: State, c: nat, tok: Option<nat>, k: nat)
    requires Enabled(s, BeginLock(c, tok)) && !Requested(s, tok) && k > 0
    ensures Alone(Apply(s, BeginLock(c, tok)), c, k) == Alone(SetCo(s, c, LkTry(tok)), c, k - 1)
  {
    var s1 := Apply(s, BeginLock(c, tok));
    SetTwice(s, c, LkReady(tok), LkTry(tok));
    assert CoStep(s1, c) == SetCo(s, c, LkTry(tok));
    AloneStep(s1, c, k);
  }

  /** lock on a free mutex takes it, without queueing. */
  lemma LockTakes(s: State, c: nat, tok: Option<nat>)
    requires Enabled(s, BeginLock(c, tok)) && !Requested(s, tok) && s.mguard.MFree? && !s.locked
    ensures Alone(Apply(s, BeginLock(c, tok)), c, 3) == s.(locked := true, owner := Some(c), cos := s.cos[c := Run(true)])
  {
    LockReachesTry(s, c, tok, 3);
    var s2 := SetCo(s, c, LkTry(tok));
    var s3 := SetCo(Take(s, c), c, LkResume(false, None));
    SetTwice(Take(s, c), c, LkTry(tok), LkResume(false, None));
    assert CoStep(s2, c) == s3;
    SetTwice(Take(s, c), c, LkResume(false, None), Run(true));
    assert CoStep(s3, c) == SetCo(Take(s, c), c, Run(true));
    AloneStep(s2, c, 2);
    AloneStep(s3, c, 1);
  }

  const PARKED_SLOT := Mark(FRESH_SLOT)

  /** The waiter of a co_await that has parked. */
  function ParkedWaiter(k: Kind, c: nat, tok: Option<nat>): Waiter {
    Waiter(k, c, tok, tok.Some?, PARKED_SLOT, NotYet, None)
  }

  /** From the registration on, the coroutine parks. */
  lemma RegistersAndParks(s: State, ws: seq<Waiter>, c: nat, k: Kind, tok: Option<nat>)
    requires c < |s.cos| && s.waiters == ws + [NewWaiter(k, c, tok)] && !Requested(s, tok)
    requires s.cos[c] == if k == LockWaiter then LkRegister(|ws|) else CvRegister(|ws|)
    ensures Alone(s, c, 2) == SetCo(s, c, if k == LockWaiter then LkParked(|ws|) else CvParked(|ws|))
                                .(waiters := ws + [ParkedWaiter(k, c, tok)])
  {
    var mark := if k == LockWaiter then LkMark(|ws|) else CvMark(|ws|);
    var parked := if k == LockWaiter then LkParked(|ws|) else CvParked(|ws|);
    var x := NewWaiter(k, c, tok).(registered := tok.Some?);
    var s1 := SetCo(s, c, mark).(waiters := ws + [x]);
    assert s.waiters[|ws| := x] == ws + [x];
    assert CoStep(s, c) == s1;
    SetTwice(s, c, mark, parked);
    assert s1.waiters[|ws| := ParkedWaiter(k, c, tok)] == ws + [ParkedWaiter(k, c, tok)];
    assert CoStep(s1, c) == SetCo(s, c, parked).(waiters := ws + [ParkedWaiter(k, c, tok)]);
    AloneStep(s, c, 2);
    AloneStep(s1, c, 1);
  }

  lemma HeldTry(s: State, c: nat, tok: Option<nat>)
    requires c < |s.cos| && s.mguard.MFree? && s.locked && !Requested(s, tok)
    ensures CoEnabled(SetCo(s, c, LkTry(tok)), c) && CoEnabled(SetCo(s, c, LkCheck(tok)), c)
    ensures CoStep(SetCo(s, c, LkTry(tok)), c) == SetCo(s, c, LkCheck(tok))
    ensures CoStep(SetCo(s, c, LkCheck(tok)), c) == SetCo(s, c, LkEnqueue(tok))
  {
    SetTwice(s, c, LkTry(tok), LkCheck(tok));
    SetTwice(s, c, LkCheck(tok), LkEnqueue(tok));
  }

  lemma HeldEnqueue(s: State, c: nat, tok: Option<nat>)
    requires c < |s.cos| && s.mguard.MFree? && s.locked
    ensures var s4 := SetCo(s, c, LkEnqueue(tok));
      CoEnabled(s4, c) && CoStep(s4, c) == SetCo(PushLock(s, c, tok), c, LkRegister(|s.waiters|))
  {
    SetTwice(PushLock(s, c, tok), c, LkEnqueue(tok), LkRegister(|s.waiters|));
  }

  lemma HeldQueue(s: State, c: nat, tok: Option<nat>)
    requires c < |s.cos| && s.mguard.MFree? && s.locked && !Requested(s, tok)
    ensures Alone(SetCo(PushLock(s, c, tok), c, LkRegister(|s.waiters|)), c, 2)
         == s.(mq := s.mq + [|s.waiters|], waiters := s.waiters + [ParkedWaiter(LockWaiter, c, tok)],
               cos := s.cos[c := LkParked(|s.waiters|)])
  {
    RegistersAndParks(SetCo(PushLock(s, c, tok), c, LkRegister(|s.waiters|)), s.waiters, c, LockWaiter, tok);
    SetTwice(PushLock(s, c, tok), c, LkRegister(|s.waiters|), LkParked(|s.waiters|));
  }

  /** lock on a mutex that is held: the coroutine parks, last in the queue, its callback registered iff it
      gave a token. */
  lemma LockQueues(s: State, c: nat, tok: Option<nat>)
    requires Enabled(s, BeginLock(c, tok)) && !Requested(s, tok) && s.mguard.MFree? && s.locked
    ensures Alone(Apply(s, BeginLock(c, tok)), c, 6)
         == s.(mq := s.mq + [|s.waiters|], waiters := s.waiters + [ParkedWaiter(LockWaiter, c, tok)],
               cos := s.cos[c := LkParked(|s.waiters|)])
  {
    LockReachesTry(s, c, tok, 6);
    HeldTry(s, c, tok);
    HeldEnqueue(s, c, tok);
    AloneStep(SetCo(s, c, LkTry(tok)), c, 5);
    AloneStep(SetCo(s, c, LkCheck(tok)), c, 4);
    AloneStep(SetCo(s, c, LkEnqueue(tok)), c, 3);
    HeldQueue(s, c, tok);
  }

  // ---- wait ----

  /** wait(token) when the token is requested: over after await_ready, the mutex still held. */
  lemma WaitCancelled(s: State, c: nat, tok: Option<nat>)
    requires Enabled(s, BeginWait(c, tok)) && Requested(s, tok)
    ensures Alone(Apply(s, BeginWait(c, tok)), c, 2) == s
  {
    var s1 := Apply(s, BeginWait(c, tok));
    SetTwice(s, c, CvReady(tok), CvResume(true, None));
    assert CoStep(s1, c) == SetCo(s, c, CvResume(true, None));
    SetTwice(s, c, CvResume(true, None), Run(true));
    assert s.cos[c := Run(true)] == s.cos;
    assert CoStep(CoStep(s1, c), c) == s;
    AloneStep(s1, c, 2);
  }

  /** The coroutine has joined the queue, last, and is about to call unlock. */
  function Joined(s: State, c: nat, tok: Option<nat>): State
    requires c < |s.cos|
  {
    s.(cq := s.cq + [|s.waiters|], waiters := s.waiters + [NewWaiter(WaitWaiter, c, tok)],
       cos := s.cos[c := CvUnlock(|s.waiters|, None)])
  }

  lemma WaitTests(s: State, c: nat, tok: Option<nat>)
    requires c < |s.cos| && !Requested(s, tok)
    ensures CoStep(SetCo(s, c, CvReady(tok)), c) == SetCo(s, c, CvCheck(tok))
    ensures CoStep(SetCo(s, c, CvCheck(tok)), c) == SetCo(s, c, CvEnqueue(tok))
  {
    SetTwice(s, c, CvReady(tok), CvCheck(tok));
    SetTwice(s, c, CvCheck(tok), CvEnqueue(tok));
  }

  lemma WaitJoins(s: State, c: nat, tok: Option<nat>)
    requires c < |s.cos| && s.cguard.CFree? && s.mguard.MFree?
    ensures var s3 := SetCo(s, c, CvEnqueue(tok)); CoEnabled(s3, c) && CoStep(s3, c) == Joined(s, c, tok)
    ensures CoEnabled(Joined(s, c, tok), c) && CoStep(Joined(s, c, tok), c) == Joined(s, c, tok).(mguard := MPopping(c))
  {
    SetTwice(PushWait(s, c, tok), c, CvEnqueue(tok), CvUnlock(|s.waiters|, None));
  }

  /** wait joins the queue, last, and only then calls unlock: until that call has the internal lock of the
      mutex, the mutex is held. */
  lemma WaitQueuesFirst(s: State, c: nat, tok: Option<nat>)
    requires Enabled(s, BeginWait(c, tok)) && !Requested(s, tok) && s.cguard.CFree? && s.mguard.MFree?
    ensures Alone(Apply(s, BeginWait(c, tok)), c, 3) == Joined(s, c, tok)
    ensures Alone(Apply(s, BeginWait(c, tok)), c, 4) == Joined(s, c, tok).(mguard := MPopping(c))
  {
    WaitTests(s, c, tok);
    WaitJoins(s, c, tok);
    forall k | 3 <= k <= 4 ensures Alone(Apply(s, BeginWait(c, tok)), c, k) == Alone(Joined(s, c, tok), c, k - 3) {
      AloneStep(SetCo(s, c, CvReady(tok)), c, k);
      AloneStep(SetCo(s, c, CvCheck(tok)), c, k - 1);
      AloneStep(SetCo(s, c, CvEnqueue(tok)), c, k - 2);
    }
    AloneStep(Joined(s, c, tok), c, 1);
  }

  // ---- unlock ----

  /** The queue is empty, or the front waiter unclaimed. */
  predicate AtEnd(s: State)
    requires UnlockEnabled(s)
  {
    (s.mguard.MPopping? && s.mq == []) || (s.mguard.MClaiming? && !s.waiters[s.mguard.w].slot.resumed)
  }

  /** The unlock call skips over claimed waiters, its caller staying where it is; */
  lemma UnlockSearches(s: State)
    requires UnlockEnabled(s) && (s.mguard.MPopping? || s.mguard.MClaiming?) && !AtEnd(s)
    ensures var s1 := UnlockStep(s);
      && s1.cos == s.cos && (s1.mguard.MPopping? || s1.mguard.MClaiming?) && s1.mguard.c == s.mguard.c
      && |s1.mq| == |s.mq| - (if s.mguard.MPopping? then 1 else 0)
      && (s.mguard.MClaiming? ==> s1.mguard.MPopping?)
  {}

  /** and then it is over for its caller, or waits for the waiter it has handed the lock to. */
  lemma UnlockFinishes(s: State)
    requires Inv(s) && UnlockEnabled(s) && AtEnd(s)
    ensures exists w :: SoloUnlock(s).cos == s.cos[s.mguard.c := AfterUnlock(s.cos[s.mguard.c], w)]
  {
    UnlockGoesOn(s);
    var c, s1 := s.mguard.c, UnlockStep(s);
    if s.mguard.MPopping? {
      assert SoloUnlock(s) == s1;
      assert s1.cos == s.cos[c := AfterUnlock(s.cos[c], None)];
    } else {
      UnlockGoesOn(s1);
      assert SoloUnlock(s) == SoloUnlock(s1) == UnlockStep(s1);
      assert s1.cos == s.cos[c := AfterUnlock(s.cos[c], Some(s.mguard.w))];
    }
  }

  lemma {:induction false} UnlockLeaves(s: State)
    requires Inv(s) && UnlockEnabled(s) && (s.mguard.MPopping? || s.mguard.MClaiming?)
    ensures exists w :: SoloUnlock(s).cos == s.cos[s.mguard.c := AfterUnlock(s.cos[s.mguard.c], w)]
    decreases |s.mq|, if s.mguard.MClaiming? then 1 else 0
  {
    if AtEnd(s) {
      UnlockFinishes(s);
    } else {
      UnlockGoesOn(s);
      var s1 := UnlockStep(s);
      assert SoloUnlock(s) == SoloUnlock(s1);
      UnlockSearches(s);
      UnlockGoesOn(s1);
      UnlockLeaves(s1);
    }
  }

  lemma ServedNobody(s: State, r: State)
    requires W.InRange(LockQueue(s), |s.waiters|) && UnlockServes(s, r) && W.AllClaimed(All(s.waiters), LockQueue(s))
    ensures !r.locked && r.owner == None && r.mq == [] && All(r.waiters) == All(s.waiters)
  {
    W.PopsNobody(All(s.waiters), LockQueue(s), true, All(r.waiters), r.mq);
    W.NoneFound(W.Pick(All(s.waiters), LockQueue(s)));
  }

  lemma ServedOldest(s: State, r: State, k: nat)
    requires W.InRange(LockQueue(s), |s.waiters|) && UnlockServes(s, r) && W.OldestAt(All(s.waiters), LockQueue(s), k)
    ensures var w := LockQueue(s)[k];
      && r.locked && w < |s.waiters| && r.owner == Some(s.waiters[w].co) && r.mq == LockQueue(s)[k + 1..]
      && All(r.waiters) == All(s.waiters)[w := All(s.waiters)[w].(slot := W.Grant(s.waiters[w].slot))]
  {
    W.PopsOldest(All(s.waiters), LockQueue(s), true, All(r.waiters), r.mq, k);
    W.FoundFirst(W.Pick(All(s.waiters), LockQueue(s)), k);
  }

  /** What an undisturbed unlock call leaves: if all waiters of the queue are claimed, the mutex is free and
      the queue is empty; else it belongs to the oldest unclaimed one, and those behind it stay queued. */
  lemma UnlockAlone(s: State, c: nat) returns (r: State)
    requires Inv(s) && Enabled(s, BeginUnlock(c)) && s.mguard.MFree?
    ensures var s1 := Apply(s, BeginUnlock(c));
      CoEnabled(s1, c) && Inv(CoStep(s1, c)) && r == SoloUnlock(CoStep(s1, c))
    ensures W.InRange(s.mq, |s.waiters|)
    ensures W.AllClaimed(All(s.waiters), s.mq) ==>
      !r.locked && r.owner == None && r.mq == [] && All(r.waiters) == All(s.waiters)
    ensures forall k: nat :: W.OldestAt(All(s.waiters), s.mq, k) ==>
      && r.locked && s.mq[k] < |s.waiters| && r.owner == Some(s.waiters[s.mq[k]].co) && r.mq == s.mq[k + 1..]
      && All(r.waiters) == All(s.waiters)[s.mq[k] := All(s.waiters)[s.mq[k]].(slot := W.Grant(s.waiters[s.mq[k]].slot))]
    ensures exists w :: r.cos == s.cos[c := AfterUnlock(Unlocking(None), w)]
  {
    var s2 := EntersUnlock(s, c);
    r := SoloUnlock(s2);
    SoloUnlockServes(s2);
    UnlockGoesOn(s2);
    UnlockLeaves(s2);
    var w :| r.cos == s2.cos[c := AfterUnlock(s2.cos[c], w)];
    assert s2.cos[c := AfterUnlock(s2.cos[c], w)] == s.cos[c := AfterUnlock(Unlocking(None), w)];
    if W.AllClaimed(All(s.waiters), s.mq) { ServedNobody(s2, r); }
    forall k: nat | W.OldestAt(All(s.waiters), s.mq, k)
      ensures r.locked && s.mq[k] < |s.waiters| && r.owner == Some(s.waiters[s.mq[k]].co) && r.mq == s.mq[k + 1..]
      ensures All(r.waiters)
           == All(s.waiters)[s.mq[k] := All(s.waiters)[s.mq[k]].(slot := W.Grant(s.waiters[s.mq[k]].slot))]
    {
      ServedOldest(s2, r, k);
    }
  }

  lemma EntersUnlock(s: State, c: nat) returns (s2: State)
    requires Inv(s) && Enabled(s, BeginUnlock(c)) && s.mguard.MFree?
    ensures CoEnabled(Apply(s, BeginUnlock(c)), c) && s2 == CoStep(Apply(s, BeginUnlock(c)), c)
    ensures Inv(s2) && s2 == s.(cos := s.cos[c := Unlocking(None)], mguard := MPopping(c)) && LockQueue(s2) == s.mq
    ensures W.InRange(s.mq, |s.waiters|)
  {
    var s1 := Apply(s, BeginUnlock(c));
    StepInv(s, BeginUnlock(c));
    StepInv(s1, Coroutine(c));
    s2 := CoStep(s1, c);
    Queues(s2);
  }

  // ---- notify_one and notify_all ----

  lemma EntersNotify(s: State, all: bool) returns (s1: State)
    requires Inv(s) && Enabled(s, BeginNotify(all))
    ensures s1 == Apply(s, BeginNotify(all)) && Inv(s1) && s1 == s.(cguard := CPopping(all, false))
    ensures WaitQueue(s1) == s.cq && W.InRange(s.cq, |s.waiters|)
  {
    s1 := Apply(s, BeginNotify(all));
    StepInv(s, BeginNotify(all));
    Queues(s1);
  }

  /** An undisturbed notify_all claims every unclaimed sleeper and leaves the mutex and everybody else alone. */
  lemma NotifyAllAlone(s: State) returns (r: State)
    requires Inv(s) && Enabled(s, BeginNotify(true))
    ensures Inv(Apply(s, BeginNotify(true))) && r == SoloNotify(Apply(s, BeginNotify(true)))
    ensures r == s.(waiters := r.waiters, cq := []) && |r.waiters| == |s.waiters|
    ensures forall u :: 0 <= u < |s.waiters| ==>
      r.waiters[u].slot == if s.waiters[u].kind == WaitWaiter && !s.waiters[u].slot.resumed then Win(s.waiters[u].slot, false)
                           else s.waiters[u].slot
  {
    var s1 := EntersNotify(s, true);
    r := SoloNotify(s1);
    SoloNotifyServes(s1, |s.cq|);
    W.PopsAll(All(s.waiters), s.cq, |s.cq|, false, All(r.waiters), r.cq);
    forall u | 0 <= u < |s.waiters|
      ensures r.waiters[u].slot == if s.waiters[u].kind == WaitWaiter && !s.waiters[u].slot.resumed
                                   then Win(s.waiters[u].slot, false) else s.waiters[u].slot
    {
      assert WaiterOk(s, u);
      assert All(r.waiters)[u].slot == r.waiters[u].slot;
      assert u in s.cq ==> IsKind(s, u, WaitWaiter);
    }
  }

  lemma NotifiedOldest(s: State, r: State, k: nat)
    requires W.InRange(s.cq, |s.waiters|) && W.OldestAt(All(s.waiters), s.cq, k)
    requires W.Pops(All(s.waiters), s.cq, 1, false, All(r.waiters), r.cq)
    ensures s.cq[k] < |s.waiters| && r.cq == s.cq[k + 1..]
    ensures All(r.waiters) == All(s.waiters)[s.cq[k] := All(s.waiters)[s.cq[k]].(slot := Win(s.waiters[s.cq[k]].slot, false))]
  {
    W.PopsOldest(All(s.waiters), s.cq, false, All(r.waiters), r.cq, k);
  }

  /** An undisturbed notify_one claims the oldest unclaimed sleeper, if there is one, and no other. */
  lemma NotifyOneAlone(s: State) returns (r: State)
    requires Inv(s) && Enabled(s, BeginNotify(false))
    ensures Inv(Apply(s, BeginNotify(false))) && r == SoloNotify(Apply(s, BeginNotify(false)))
    ensures r == s.(waiters := r.waiters, cq := r.cq) && W.InRange(s.cq, |s.waiters|)
    ensures W.AllClaimed(All(s.waiters), s.cq) ==> r.cq == [] && All(r.waiters) == All(s.waiters)
    ensures forall k: nat :: W.OldestAt(All(s.waiters), s.cq, k) ==>
      && s.cq[k] < |s.waiters| && r.cq == s.cq[k + 1..]
      && All(r.waiters) == All(s.waiters)[s.cq[k] := All(s.waiters)[s.cq[k]].(slot := Win(s.waiters[s.cq[k]].slot, false))]
  {
    r := NotifiesOne(s);
    if W.AllClaimed(All(s.waiters), s.cq) { W.PopsNobody(All(s.waiters), s.cq, false, All(r.waiters), r.cq); }
    forall k: nat | W.OldestAt(All(s.waiters), s.cq, k)
      ensures s.cq[k] < |s.waiters| && r.cq == s.cq[k + 1..]
      ensures All(r.waiters) == All(s.waiters)[s.cq[k] := All(s.waiters)[s.cq[k]].(slot := Win(s.waiters[s.cq[k]].slot, false))]
    {
      NotifiedOldest(s, r, k);
    }
  }

  lemma NotifiesOne(s: State) returns (r: State)
    requires Inv(s) && Enabled(s, BeginNotify(false))
    ensures Inv(Apply(s, BeginNotify(false))) && r == SoloNotify(Apply(s, BeginNotify(false)))
    ensures r == s.(waiters := r.waiters, cq := r.cq) && W.InRange(s.cq, |s.waiters|)
    ensures W.Pops(All(s.waiters), s.cq, 1, false, All(r.waiters), r.cq)
  {
    var s1 := EntersNotify(s, false);
    r := SoloNotify(s1);
    SoloNotifyServes(s1, 1);
  }
}
