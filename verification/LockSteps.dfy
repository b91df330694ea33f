/** Every step of the mutex and condition-variable machine keeps the invariant. */
module LockSteps {
  import opened Basics
  import opened Handshake
  import opened LockModel
  import opened LockInvariant

  // ---- coroutines ----

  /** A step that changes only where coroutine c is. */
  lemma MoveCo(s: State, c: nat, p: Pc)
    requires Inv(s) && c < |s.cos| && CoOk(s, c)
    requires !s.cos[c].CvParked? && KeepsPlaces(s.cos[c], p, {}) && !CallsUnlock(s, c)
    requires CoOk(SetCo(s, c, p), c)
    requires Owns(SetCo(s, c, p), c) <==> Owns(s, c)
    ensures Inv(SetCo(s, c, p))
  {
    assert s.owner == Some(c) <==> Owns(s, c);
    Touch(s, SetCo(s, c, p), c, c, {});
  }

  /** An unlocked mutex is taken by the coroutine itself. */
  lemma TakeByCo(s: State, c: nat, p: Pc)
    requires Inv(s) && c < |s.cos| && !s.locked
    requires match s.cos[c]
             case Run(_) => p == Run(true)
             case LkTry(_) => p == LkResume(false, None)
             case LkEnqueue(_) => p == LkResume(false, None)
             case CvRelock(v) => p == CvResume(false, Some(v))
             case _ => false
    ensures Inv(SetCo(Take(s, c), c, p))
  {
    assert CoOk(s, c);
    Touch(s, SetCo(Take(s, c), c, p), c, c, {});
  }

  predicate QueuesForLock(p: Pc, p': Pc, tok: Option<nat>, w: nat) {
    match p
    case LkEnqueue(t) => tok == t && p' == LkRegister(w)
    case CvRelock(v) => tok == None && p' == CvRelockMark(v, w)
    case _ => false
  }

  lemma PushLocal(s: State, c: nat, tok: Option<nat>, p: Pc)
    requires c < |s.cos| && CoOk(s, c) && QueuesForLock(s.cos[c], p, tok, |s.waiters|)
    ensures var s' := SetCo(PushLock(s, c, tok), c, p);
      && CoOk(s', c) && WaiterOk(s', |s.waiters|)
      && !Owns(s', c) && !Owns(s, c) && KeepsPlaces(s.cos[c], p, {})
  {}

  lemma PushQueues(s: State, c: nat, tok: Option<nat>, p: Pc)
    requires c < |s.cos| && s.locked && s.mguard.MFree? && QueuesOk(s)
    ensures var s' := SetCo(PushLock(s, c, tok), c, p); QueuesOk(s') && GuardsOk(s')
  {
    assert forall i :: 0 <= i < |s.mq| ==> s.mq[i] in s.mq;
  }

  lemma PushTouches(s: State, c: nat, tok: Option<nat>, p: Pc)
    requires c < |s.cos| && s.mguard.MFree? && QueuesForLock(s.cos[c], p, tok, |s.waiters|)
    requires KeepsPlaces(s.cos[c], p, {})
    ensures var s' := SetCo(PushLock(s, c, tok), c, p); OnlyTouches(s, s', c, c, {}) && PlacesKept(s, s', c, c, {})
  {}

  /** A locked mutex makes the coroutine queue for it. */
  lemma PushByCo(s: State, c: nat, tok: Option<nat>, p: Pc)
    requires Inv(s) && c < |s.cos| && s.locked && s.mguard.MFree?
    requires QueuesForLock(s.cos[c], p, tok, |s.waiters|)
    ensures Inv(SetCo(PushLock(s, c, tok), c, p))
  {
    assert CoOk(s, c);
    assert s.owner == Some(c) <==> Owns(s, c);
    PushLocal(s, c, tok, p);
    PushQueues(s, c, tok, p);
    PushTouches(s, c, tok, p);
    Touch(s, SetCo(PushLock(s, c, tok), c, p), c, c, {});
  }

  /** The coroutine has joined the condition variable's queue and is about to unlock. */
  function Waits(s: State, c: nat, tok: Option<nat>): State
    requires c < |s.cos|
  {
    SetCo(PushWait(s, c, tok), c, CvUnlock(|s.waiters|, None))
  }

  lemma WaitEnqueueLocal(s: State, c: nat, tok: Option<nat>)
    requires c < |s.cos| && s.cos[c] == CvEnqueue(tok)
    ensures var s' := Waits(s, c, tok);
      CoOk(s', c) && WaiterOk(s', |s.waiters|) && Owns(s', c) && Owns(s, c)
  {}

  lemma WaitEnqueueQueues(s: State, c: nat, tok: Option<nat>)
    requires c < |s.cos| && s.cos[c] == CvEnqueue(tok) && s.cguard.CFree? && QueuesOk(s) && GuardsOk(s)
    ensures QueuesOk(Waits(s, c, tok)) && GuardsOk(Waits(s, c, tok))
  {
    assert forall i :: 0 <= i < |s.cq| ==> s.cq[i] in s.cq;
  }

  lemma WaitEnqueueTouches(s: State, c: nat, tok: Option<nat>)
    requires c < |s.cos| && s.cos[c] == CvEnqueue(tok)
    ensures OnlyTouches(s, Waits(s, c, tok), c, c, {}) && PlacesKept(s, Waits(s, c, tok), c, c, {})
  {}

  lemma WaitEnqueue(s: State, c: nat, tok: Option<nat>)
    requires Inv(s) && c < |s.cos| && s.cguard.CFree? && s.cos[c] == CvEnqueue(tok)
    ensures Inv(Waits(s, c, tok))
  {
    assert s.owner == Some(c) <==> Owns(s, c);
    WaitEnqueueLocal(s, c, tok);
    WaitEnqueueQueues(s, c, tok);
    WaitEnqueueTouches(s, c, tok);
    Touch(s, Waits(s, c, tok), c, c, {});
  }

  lemma NoRelay(s: State, c: nat, w: nat)
    requires Inv(s) && c < |s.cos| && !s.cos[c].CvParked? && w < |s.waiters| && s.waiters[w].co == c
    ensures forall u: nat :: !OwesFor(s, u, w)
  {
    assert CoOk(s, c);
    forall u: nat ensures !OwesFor(s, u, w) {
      assert u < |s.waiters| ==> WaiterOk(s, u);
    }
  }

  /** The waiters in ws are in order in s', and none of them has lost a claim of unlock. */
  ghost predicate StillGood(s: State, s': State, ws: set<nat>) {
    && |s'.waiters| == |s.waiters|
    && (forall u :: u in ws && u < |s.waiters| ==>
          && WaiterOk(s', u)
          && (s.waiters[u].slot.claim == Claimed(false, Won) ==> s'.waiters[u].slot.claim == Claimed(false, Won)))
  }

  /** Coroutine d, which is not inside unlock, and its waiters in ws change; nothing else does. */
  lemma Rewire(s: State, s': State, d: nat, ws: set<nat>)
    requires Inv(s) && s' == s.(waiters := s'.waiters, cos := s'.cos)
    requires |s'.cos| == |s.cos| && StillGood(s, s', ws)
    requires OnlyTouches(s, s', d, d, ws) && PlacesKept(s, s', d, d, ws)
    requires !CallsUnlock(s, d)
    requires CoOk(s', d) && (Owns(s', d) <==> Owns(s, d))
    ensures Inv(s')
  {
    assert s.owner == Some(d) <==> Owns(s, d);
    Touch(s, s', d, d, ws);
  }

  lemma MoveTouches(s: State, c: nat, w: nat, x: Waiter, p: Pc)
    requires c < |s.cos| && w < |s.waiters| && s.waiters[w].co == c
    requires !s.cos[c].CvParked? && KeepsPlaces(s.cos[c], p, {w}) && (forall u: nat :: !OwesFor(s, u, w))
    requires x.co == c && x.kind == s.waiters[w].kind && x.tok == s.waiters[w].tok
    requires Granted(s.waiters[w].slot) ==> x.slot.claim == s.waiters[w].slot.claim
    ensures var s' := SetCo(SetWaiter(s, w, x), c, p); OnlyTouches(s, s', c, c, {w}) && PlacesKept(s, s', c, c, {w})
  {}

  /** Coroutine c, which is not parked, moves to p and changes its own waiter w to x. */
  lemma MoveWithWaiter(s: State, c: nat, w: nat, x: Waiter, p: Pc)
    requires Inv(s) && c < |s.cos| && w < |s.waiters| && s.waiters[w].co == c
    requires !s.cos[c].CvParked? && !CallsUnlock(s, c) && KeepsPlaces(s.cos[c], p, {w})
    requires x.co == c && x.kind == s.waiters[w].kind && x.tok == s.waiters[w].tok
    requires Granted(s.waiters[w].slot) ==> x.slot.claim == s.waiters[w].slot.claim
    requires CoOk(SetCo(SetWaiter(s, w, x), c, p), c)
    requires WaiterOk(SetCo(SetWaiter(s, w, x), c, p), w)
    requires Owns(SetCo(SetWaiter(s, w, x), c, p), c) <==> Owns(s, c)
    ensures Inv(SetCo(SetWaiter(s, w, x), c, p))
  {
    assert s.owner == Some(c) <==> Owns(s, c);
    NoRelay(s, c, w);
    MoveTouches(s, c, w, x, p);
    Rewire(s, SetCo(SetWaiter(s, w, x), c, p), c, {w});
  }

  predicate Registers(p: Pc, w: nat, mark: Pc, callback: Pc) {
    || (p == LkRegister(w) && mark == LkMark(w) && callback == LkCallback(w))
    || (p == CvRegister(w) && mark == CvMark(w) && callback == CvCallback(w))
  }

  lemma RegisterLocal(s: State, c: nat, w: nat, mark: Pc, callback: Pc)
    requires c < |s.cos| && w < |s.waiters| && Registers(s.cos[c], w, mark, callback)
    requires CoOk(s, c) && WaiterOk(s, w) && s.waiters[w].tok.Some?
    ensures var x := s.waiters[w].(registered := true); var s' := SetCo(SetWaiter(s, w, x), c, mark);
      && s.waiters[w].co == c && KeepsPlaces(s.cos[c], mark, {w})
      && CoOk(s', c) && WaiterOk(s', w) && (Owns(s', c) <==> Owns(s, c))
  {}

  lemma RegisterByCo(s: State, c: nat, w: nat, mark: Pc, callback: Pc)
    requires Inv(s) && c < |s.cos| && w < |s.waiters| && Registers(s.cos[c], w, mark, callback)
    ensures Inv(Register(s, c, w, mark, callback))
  {
    assert CoOk(s, c) && WaiterOk(s, w);
    if s.waiters[w].tok.None? {
      MoveCo(s, c, mark);
    } else if Requested(s, s.waiters[w].tok) {
      MoveCo(s, c, callback);
    } else {
      RegisterLocal(s, c, w, mark, callback);
      MoveWithWaiter(s, c, w, s.waiters[w].(registered := true), mark);
    }
  }

  predicate CallsBack(p: Pc, w: nat, p': Pc) {
    (p == LkCallback(w) && p' == LkInline(w)) || (p == CvCallback(w) && p' == CvInline(w))
  }

  lemma CallbackLocal(s: State, c: nat, w: nat, p: Pc)
    requires c < |s.cos| && w < |s.waiters| && CallsBack(s.cos[c], w, p)
    requires CoOk(s, c) && WaiterOk(s, w) && !s.waiters[w].slot.resumed
    ensures var x := s.waiters[w].(slot := Win(s.waiters[w].slot, true)); var s' := SetCo(SetWaiter(s, w, x), c, p);
      && s.waiters[w].co == c && KeepsPlaces(s.cos[c], p, {w})
      && CoOk(s', c) && WaiterOk(s', w) && (Owns(s', c) <==> Owns(s, c))
  {}

  lemma CallbackByCo(s: State, c: nat, w: nat, p: Pc)
    requires Inv(s) && c < |s.cos| && w < |s.waiters| && CallsBack(s.cos[c], w, p)
    ensures Inv(SetCo(CallbackClaim(s, w), c, p))
  {
    assert CoOk(s, c) && WaiterOk(s, w);
    if s.waiters[w].slot.resumed {
      MoveCo(s, c, p);
    } else {
      CallbackLocal(s, c, w, p);
      MoveWithWaiter(s, c, w, s.waiters[w].(slot := Win(s.waiters[w].slot, true)), p);
    }
  }

  predicate MarksTo(p: Pc, w: nat, waiting: bool, p': Pc) {
    match p
    case LkMark(x) => x == w && p' == if waiting then LkParked(w) else LkResume(false, Some(w))
    case CvMark(x) => x == w && p' == if waiting then CvParked(w) else CvRelock(w)
    case CvRelockMark(v, x) => x == w && p' == if waiting then CvRelockParked(v, w) else CvResume(false, Some(v))
    case _ => false
  }

  function Marked(s: State, c: nat, w: nat, p: Pc): State
    requires c < |s.cos| && w < |s.waiters|
  {
    SetCo(SetSlot(s, w, Mark(s.waiters[w].slot)), c, p)
  }

  lemma MarkByCoLocal(s: State, c: nat, w: nat, p: Pc)
    requires c < |s.cos| && w < |s.waiters| && MarksTo(s.cos[c], w, s.waiters[w].slot.phase == Waiting, p)
    requires CoOk(s, c) && WaiterOk(s, w)
    ensures var s' := Marked(s, c, w, p); CoOk(s', c) && (Owns(s', c) <==> Owns(s, c))
  {}

  lemma MarkByCoWaiter(s: State, c: nat, w: nat, p: Pc)
    requires c < |s.cos| && w < |s.waiters| && MarksTo(s.cos[c], w, s.waiters[w].slot.phase == Waiting, p)
    requires CoOk(s, c) && WaiterOk(s, w)
    ensures WaiterOk(Marked(s, c, w, p), w)
    ensures s.waiters[w].co == c && KeepsPlaces(s.cos[c], p, {w})
  {}

  lemma MarkByCo(s: State, c: nat, w: nat, p: Pc)
    requires Inv(s) && c < |s.cos| && w < |s.waiters| && MarksTo(s.cos[c], w, s.waiters[w].slot.phase == Waiting, p)
    ensures Inv(Marked(s, c, w, p))
  {
    assert CoOk(s, c) && WaiterOk(s, w);
    MarkByCoLocal(s, c, w, p);
    MarkByCoWaiter(s, c, w, p);
    MoveWithWaiter(s, c, w, s.waiters[w].(slot := Mark(s.waiters[w].slot)), p);
  }

  lemma EndOfWait(s: State, c: nat)
    requires Inv(s) && c < |s.cos| && (s.cos[c].LkResume? || s.cos[c].CvResume?)
    ensures Inv(CoStep(s, c))
  {
    assert CoOk(s, c);
    var p := s.cos[c];
    var threw := Throws(s, p.immediate, p.ow);
    if p.ow.Some? {
      assert WaiterOk(s, p.ow.value);
      MoveWithWaiter(s, c, p.ow.value, s.waiters[p.ow.value].(outcome := Some(threw)), Run(p.CvResume? || !threw));
    } else {
      MoveCo(s, c, Run(p.CvResume? || !threw));
    }
  }

  /** A step that moves nobody and changes no waiter. */
  lemma GuardStep(s: State, s': State)
    requires Inv(s)
    requires s' == s.(mguard := s'.mguard, cguard := s'.cguard, cq := s'.cq, requested := s'.requested)
    requires s'.mguard != s.mguard ==> !s.mguard.MDeciding?
    requires forall u: nat, k :: 0 <= u < |s.waiters| && !s.waiters[u].slot.resumed && Queued(s, u, k) ==> Queued(s', u, k)
    requires GuardsOk(s') && QueuesOk(s')
    ensures Inv(s')
  {
    forall d | 0 <= d < |s'.cos| ensures CoOk(s', d) && (s'.owner == Some(d) <==> Owns(s', d)) {
      assert CoOk(s, d);
      assert s.owner == Some(d) <==> Owns(s, d);
      SameView(s, s', d);
    }
    forall u | 0 <= u < |s'.waiters| ensures WaiterOk(s', u) { assert WaiterOk(s, u); }
  }

  lemma SameView(s: State, s': State, d: nat)
    requires s'.cos == s.cos && s'.waiters == s.waiters && d < |s.cos| && CoOk(s, d)
    ensures CoOk(s', d) && (Owns(s', d) <==> Owns(s, d))
  {}

  // ---- unlock ----

  lemma UnlockEnter(s: State, c: nat)
    requires Inv(s) && c < |s.cos| && s.mguard.MFree? && CallsUnlock(s, c)
    ensures Inv(s.(mguard := MPopping(c)))
  {
    assert s.owner == Some(c) <==> Owns(s, c);
    GuardStep(s, s.(mguard := MPopping(c)));
  }

  lemma UnlockPop(s: State)
    requires Inv(s) && s.mguard.MPopping? && UnlockEnabled(s)
    ensures Inv(UnlockStep(s))
  {
    var c := s.mguard.c;
    assert CoOk(s, c);
    assert s.owner == Some(c) <==> Owns(s, c);
    if s.mq != [] { PopFacts(s.mq); }
    Touch(s, UnlockStep(s), c, c, {});
  }

  lemma UnlockClaim(s: State)
    requires Inv(s) && s.mguard.MClaiming? && UnlockEnabled(s) && s.waiters[s.mguard.w].slot.resumed
    ensures Inv(UnlockStep(s))
  {
    GuardStep(s, UnlockStep(s));
  }

  /** The lock has been handed to w, and the caller of unlock has been told so. */
  function HandedOff(s: State, c: nat, w: nat): State
    requires c < |s.cos| && w < |s.waiters| && (s.cos[c].Unlocking? || s.cos[c].CvUnlock?)
  {
    SetCo(SetSlot(s, w, Win(s.waiters[w].slot, false)), c, s.cos[c].(next := Some(w)))
    .(owner := Some(s.waiters[w].co), mguard := MDeciding(w))
  }

  lemma HandOffWaiter(s: State, c: nat, w: nat)
    requires CallsUnlock(s, c) && IsKind(s, w, LockWaiter) && !s.waiters[w].slot.resumed
    requires WaiterOk(s, w) && s.waiters[w].co != c
    ensures WaiterOk(HandedOff(s, c, w), w)
  {}

  lemma HandOffCaller(s: State, c: nat, w: nat)
    requires CallsUnlock(s, c) && IsKind(s, w, LockWaiter) && !s.waiters[w].slot.resumed && CoOk(s, c)
    ensures CoOk(HandedOff(s, c, w), c)
  {}

  lemma HandOffReceiver(s: State, c: nat, w: nat, d: nat)
    requires CallsUnlock(s, c) && IsKind(s, w, LockWaiter) && !s.waiters[w].slot.resumed
    requires d < |s.cos| && d != c && CoOk(s, d)
    ensures CoOk(HandedOff(s, c, w), d)
  {}

  lemma HandOffOwner(s: State, c: nat, w: nat, d: nat)
    requires CallsUnlock(s, c) && IsKind(s, w, LockWaiter)
    requires d == s.waiters[w].co && !s.waiters[w].slot.resumed && d < |s.cos|
    requires WaiterOk(s, w) && CoOk(s, c) && CoOk(s, d)
    ensures var s' := HandedOff(s, c, w); d != c && !Owns(s', c) && Owns(s', d)
  {}

  lemma HandOffQueues(s: State, c: nat, w: nat)
    requires GuardsOk(s) && QueuesOk(s) && s.mguard == MClaiming(c, w) && UnlockEnabled(s)
    ensures QueuesOk(HandedOff(s, c, w)) && GuardsOk(HandedOff(s, c, w))
  {}

  lemma HandOffTouches(s: State, c: nat, w: nat)
    requires s.mguard == MClaiming(c, w) && CallsUnlock(s, c) && w < |s.waiters|
    requires s.waiters[w].co < |s.cos| && s.waiters[w].co != c
    ensures OnlyTouches(s, HandedOff(s, c, w), s.waiters[w].co, c, {w})
  {}

  lemma HandOffPlaces(s: State, c: nat, w: nat)
    requires s.mguard == MClaiming(c, w) && CallsUnlock(s, c) && w < |s.waiters|
    requires s.waiters[w].co < |s.cos| && s.waiters[w].co != c
    requires OnlyTouches(s, HandedOff(s, c, w), s.waiters[w].co, c, {w})
    ensures PlacesKept(s, HandedOff(s, c, w), s.waiters[w].co, c, {w})
  {}

  lemma HandOffParties(s: State, c: nat, w: nat, d: nat)
    requires Inv(s) && s.mguard == MClaiming(c, w) && UnlockEnabled(s) && !s.waiters[w].slot.resumed
    requires d == s.waiters[w].co
    ensures var s' := HandedOff(s, c, w);
      && d < |s.cos| && d != c && !Owns(s', c) && Owns(s', d)
      && WaiterOk(s', w) && CoOk(s', c) && CoOk(s', d) && s.owner == Some(c)
  {
    assert WaiterOk(s, w);
    assert CoOk(s, c) && CoOk(s, d);
    assert s.owner == Some(c) <==> Owns(s, c);
    HandOffOwner(s, c, w, d);
    HandOffWaiter(s, c, w);
    HandOffCaller(s, c, w);
    HandOffReceiver(s, c, w, d);
  }

  lemma UnlockHandOff(s: State, c: nat, w: nat)
    requires Inv(s) && s.mguard == MClaiming(c, w) && UnlockEnabled(s) && !s.waiters[w].slot.resumed
    ensures Inv(HandedOff(s, c, w))
  {
    HandOffParties(s, c, w, s.waiters[w].co);
    HandOffQueues(s, c, w);
    HandOffTouches(s, c, w);
    HandOffPlaces(s, c, w);
    Touch(s, HandedOff(s, c, w), s.waiters[w].co, c, {w});
  }

  /** Coroutine d does not notice a change of waiter w that settles nothing for it. */
  lemma StillThere(s: State, s': State, w: nat, d: nat)
    requires s'.cos == s.cos && |s'.waiters| == |s.waiters| && d < |s.cos| && CoOk(s, d) && w < |s.waiters|
    requires forall u :: 0 <= u < |s.waiters| && u != w ==> s'.waiters[u] == s.waiters[u]
    requires SameStanding(s.waiters[w], s'.waiters[w])
    ensures CoOk(s', d)
  {}

  lemma StillOwns(s: State, s': State, w: nat, d: nat)
    requires s'.cos == s.cos && |s'.waiters| == |s.waiters| && d < |s.cos| && CoOk(s, d) && w < |s.waiters|
    requires forall u :: 0 <= u < |s.waiters| && u != w ==> s'.waiters[u] == s.waiters[u]
    requires SameStanding(s.waiters[w], s'.waiters[w])
    ensures Owns(s', d) <==> Owns(s, d)
  {}

  predicate SameStanding(x: Waiter, y: Waiter) {
    && y == x.(slot := y.slot, registered := y.registered)
    && y.slot.side == x.slot.side
    && (Granted(x.slot) ==> Granted(y.slot))
    && (x.kind == LockWaiter && Granted(y.slot) ==> Granted(x.slot))
    && (Gone(x.slot) ==> y.slot == x.slot)
  }

  /** A step that changes waiter w, and perhaps the guards, but moves nobody. */
  lemma ChangeWaiter(s: State, s': State, w: nat)
    requires Inv(s) && w < |s.waiters| && |s'.waiters| == |s.waiters|
    requires forall u :: 0 <= u < |s.waiters| && u != w ==> s'.waiters[u] == s.waiters[u]
    requires SameStanding(s.waiters[w], s'.waiters[w])
    requires s' == s.(waiters := s'.waiters, mguard := s'.mguard, cguard := s'.cguard)
    requires forall u: nat, k :: u != w && Queued(s, u, k) ==> Queued(s', u, k)
    requires s.mguard != s'.mguard ==> s.mguard == MDeciding(w)
    requires GuardsOk(s') && QueuesOk(s') && WaiterOk(s', w)
    ensures Inv(s')
  {
    var d := s.waiters[w].co;
    assert WaiterOk(s, w);
    assert CoOk(s, d);
    assert s.owner == Some(d) <==> Owns(s, d);
    StillThere(s, s', w, d);
    StillOwns(s, s', w, d);
    Touch(s, s', d, d, {w});
  }

  lemma UnlockDecide(s: State)
    requires Inv(s) && s.mguard.MDeciding?
    ensures UnlockEnabled(s) && Inv(UnlockStep(s))
  {
    var w := s.mguard.w;
    assert WaiterOk(s, w);
    ChangeWaiter(s, UnlockStep(s), w);
  }

  // ---- notify ----

  lemma NotifyPop(s: State)
    requires Inv(s) && s.cguard.CPopping?
    ensures Inv(NotifyStep(s))
  {
    if s.cq != [] { PopFacts(s.cq); }
    GuardStep(s, NotifyStep(s));
  }

  lemma NotifyClaim(s: State)
    requires Inv(s) && s.cguard.CClaiming? && NotifyEnabled(s)
    ensures Inv(NotifyStep(s))
  {
    assert WaiterOk(s, s.cguard.w);
    ChangeWaiter(s, NotifyStep(s), s.cguard.w);
  }

  // ---- winners ----

  lemma CallbackStep(s: State, w: nat)
    requires Inv(s) && w < |s.waiters| && s.waiters[w].registered
    ensures Inv(CallbackClaim(s, w))
  {
    assert WaiterOk(s, w);
    ChangeWaiter(s, CallbackClaim(s, w), w);
  }

  lemma DecideLocal(s: State, w: nat)
    requires w < |s.waiters| && WaiterOk(s, w) && Undecided(s.waiters[w].slot)
    requires GuardsOk(s) && QueuesOk(s) && s.mguard != MDeciding(w)
    ensures var s' := SetSlot(s, w, Proceed(s.waiters[w].slot));
      SameStanding(s.waiters[w], s'.waiters[w]) && WaiterOk(s', w) && GuardsOk(s') && QueuesOk(s')
  {}

  lemma WinnerDecide(s: State, w: nat)
    requires Inv(s) && w < |s.waiters| && Undecided(s.waiters[w].slot) && s.mguard != MDeciding(w)
    ensures Inv(SetSlot(s, w, Proceed(s.waiters[w].slot)))
  {
    assert WaiterOk(s, w);
    DecideLocal(s, w);
    ChangeWaiter(s, SetSlot(s, w, Proceed(s.waiters[w].slot)), w);
  }

  /** Nobody is inside lock_and_resume with w pushed, other than perhaps for v. */
  lemma OnlyRelay(s: State, v: nat, w: nat)
    requires Inv(s) && w < |s.waiters|
    requires s.waiters[w].slot.side == Deciding ==> v < |s.waiters| && OwesFor(s, v, w)
    ensures forall u: nat :: OwesFor(s, u, w) ==> u == v && s.waiters[w].slot.side == Deciding
  {
    assert v < |s.waiters| ==> WaiterOk(s, v);
    forall u: nat | OwesFor(s, u, w) ensures u == v && s.waiters[w].slot.side == Deciding {
      assert WaiterOk(s, u);
    }
  }

  function ResumedPc(p: Pc): Pc
    requires p.LkParked? || p.CvParked? || p.CvRelockParked?
  {
    match p
    case LkParked(w) => LkResume(false, Some(w))
    case CvParked(v) => CvResume(false, Some(v))
    case CvRelockParked(v, _) => CvResume(false, Some(v))
  }

  /** A parked coroutine d goes on, on behalf of its waiter w. */
  function Resumed(s: State, w: nat, d: nat): State
    requires w < |s.waiters| && s.waiters[w].slot.claim.Claimed? && d < |s.cos|
    requires s.cos[d].LkParked? || s.cos[d].CvParked? || s.cos[d].CvRelockParked?
  {
    SetSlot(SetCo(s, d, ResumedPc(s.cos[d])), w, Pay(s.waiters[w].slot))
  }

  predicate OwesResume(x: Waiter) {
    x.slot.claim.Claimed? && x.slot.claim.stage == Owes && (x.kind == LockWaiter || x.relay.HasLock?)
  }

  lemma ResumeLocal(s: State, w: nat, d: nat)
    requires w < |s.waiters| && OwesResume(s.waiters[w]) && d == s.waiters[w].co && d < |s.cos|
    requires WaiterOk(s, w) && CoOk(s, d) && ParkedAt(s.cos[d]) == Some(w)
    ensures var s' := Resumed(s, w, d); WaiterOk(s', w) && CoOk(s', d) && (Owns(s', d) <==> Owns(s, d))
  {}

  lemma ResumeTouches(s: State, w: nat, d: nat)
    requires w < |s.waiters| && OwesResume(s.waiters[w]) && d == s.waiters[w].co && d < |s.cos|
    requires ParkedAt(s.cos[d]) == Some(w)
    ensures OnlyTouches(s, Resumed(s, w, d), d, d, {w})
  {}

  lemma ResumePlaces(s: State, w: nat, d: nat)
    requires w < |s.waiters| && OwesResume(s.waiters[w]) && d == s.waiters[w].co && d < |s.cos|
    requires ParkedAt(s.cos[d]) == Some(w) && WaiterOk(s, w) && CoOk(s, d) && (forall u: nat :: !OwesFor(s, u, w))
    requires s.mguard != MDeciding(w) && OnlyTouches(s, Resumed(s, w, d), d, d, {w})
    ensures PlacesKept(s, Resumed(s, w, d), d, d, {w})
  {}

  lemma WinnerResume(s: State, w: nat, d: nat)
    requires Inv(s) && w < |s.waiters| && OwesResume(s.waiters[w]) && d == s.waiters[w].co
    ensures d < |s.cos| && ParkedAt(s.cos[d]) == Some(w) && Inv(Resumed(s, w, d))
  {
    assert WaiterOk(s, w) && ParkedAt(s.cos[d]) == Some(w);
    assert CoOk(s, d);
    ResumeLocal(s, w, d);
    OnlyRelay(s, w, w);
    ResumeTouches(s, w, d);
    ResumePlaces(s, w, d);
    Rewire(s, Resumed(s, w, d), d, {w});
  }

  predicate OwesRelock(x: Waiter) {
    x.slot.claim.Claimed? && x.slot.claim.stage == Owes && x.kind == WaitWaiter && x.relay.NotYet?
  }

  lemma RelockLocal(s: State, w: nat, d: nat)
    requires w < |s.waiters| && OwesRelock(s.waiters[w]) && d == s.waiters[w].co && d < |s.cos|
    requires WaiterOk(s, w) && CoOk(s, d) && s.cos[d] == CvParked(w)
    ensures var s' := RelockFor(s, w);
      && CoOk(s', d) && WaiterOk(s', w) && (s.locked ==> WaiterOk(s', |s.waiters|))
      && !Owns(s, d) && (Owns(s', d) <==> !s.locked)
  {}

  lemma RelockQueues(s: State, w: nat)
    requires w < |s.waiters| && OwesRelock(s.waiters[w]) && s.mguard.MFree? && QueuesOk(s)
    ensures QueuesOk(RelockFor(s, w)) && GuardsOk(RelockFor(s, w))
  {
    assert forall i :: 0 <= i < |s.mq| ==> s.mq[i] in s.mq;
  }

  lemma RelockTouches(s: State, w: nat, d: nat)
    requires w < |s.waiters| && OwesRelock(s.waiters[w]) && d == s.waiters[w].co && d < |s.cos|
    requires s.cos[d] == CvParked(w) && s.mguard.MFree? && (forall u: nat :: !OwesFor(s, u, w))
    ensures OnlyTouches(s, RelockFor(s, w), d, d, {w}) && PlacesKept(s, RelockFor(s, w), d, d, {w})
  {}

  lemma WinnerRelock(s: State, w: nat)
    requires Inv(s) && w < |s.waiters| && OwesRelock(s.waiters[w]) && s.mguard.MFree?
    ensures Inv(RelockFor(s, w))
  {
    var d := s.waiters[w].co;
    assert WaiterOk(s, w);
    assert CoOk(s, d) && s.cos[d] == CvParked(w);
    assert s.owner == Some(d) <==> Owns(s, d);
    RelockLocal(s, w, d);
    RelockQueues(s, w);
    OnlyRelay(s, w, w);
    RelockTouches(s, w, d);
    Touch(s, RelockFor(s, w), d, d, {w});
  }

  /** lock_and_resume for w is about to mark the waiter m it has pushed. */
  predicate OwesMark(s: State, w: nat, m: nat) {
    && w < |s.waiters| && m < |s.waiters| && m != w && OwesFor(s, w, m)
    && s.waiters[w].kind == WaitWaiter && s.waiters[w].co < |s.cos| && s.cos[s.waiters[w].co] == CvParked(w)
    && s.waiters[m].kind == LockWaiter && s.waiters[m].co == s.waiters[w].co && s.waiters[m].slot.side == Deciding
  }

  lemma ParkOwn(s: State, w: nat, m: nat)
    requires OwesMark(s, w, m) && WaiterOk(s, w) && s.waiters[m].slot.phase == Waiting
    ensures WaiterOk(ParkFor(s, w, m), w)
  {}

  lemma ParkPushed(s: State, w: nat, m: nat)
    requires OwesMark(s, w, m) && WaiterOk(s, m) && s.waiters[m].slot.phase == Waiting
    ensures WaiterOk(ParkFor(s, w, m), m)
  {}

  lemma ParkLocal(s: State, w: nat, m: nat)
    requires OwesMark(s, w, m) && WaiterOk(s, w) && WaiterOk(s, m) && s.waiters[m].slot.phase == Waiting
    ensures StillGood(s, ParkFor(s, w, m), {w, m})
  {
    ParkOwn(s, w, m);
    ParkPushed(s, w, m);
  }

  lemma ParkLocalCo(s: State, w: nat, m: nat)
    requires OwesMark(s, w, m) && WaiterOk(s, w) && CoOk(s, s.waiters[w].co) && s.waiters[m].slot.phase == Waiting
    ensures var s', d := ParkFor(s, w, m), s.waiters[w].co; CoOk(s', d) && (Owns(s', d) <==> Owns(s, d))
  {}

  lemma GotLocal(s: State, w: nat, m: nat)
    requires OwesMark(s, w, m) && WaiterOk(s, w) && WaiterOk(s, m) && s.waiters[m].slot.phase != Waiting
    ensures StillGood(s, GotFor(s, w, m), {w, m})
  {}

  lemma GotLocalCo(s: State, w: nat, m: nat)
    requires OwesMark(s, w, m) && WaiterOk(s, w) && WaiterOk(s, m) && CoOk(s, s.waiters[w].co)
    requires s.waiters[m].slot.phase != Waiting
    ensures var s', d := GotFor(s, w, m), s.waiters[w].co; CoOk(s', d) && (Owns(s', d) <==> Owns(s, d))
  {}

  ghost predicate AloneMark(s: State, w: nat, m: nat) {
    && OwesMark(s, w, m) && s.mguard != MDeciding(w)
    && (forall u: nat :: OwesFor(s, u, m) ==> u == w)
    && (forall u: nat :: !OwesFor(s, u, w))
  }

  lemma ParkTouches(s: State, w: nat, m: nat)
    requires AloneMark(s, w, m) && s.waiters[m].slot.phase == Waiting
    ensures var s', d := ParkFor(s, w, m), s.waiters[w].co;
      OnlyTouches(s, s', d, d, {w, m}) && PlacesKept(s, s', d, d, {w, m})
  {}

  lemma GotTouches(s: State, w: nat, m: nat)
    requires AloneMark(s, w, m)
    ensures var s', d := GotFor(s, w, m), s.waiters[w].co;
      OnlyTouches(s, s', d, d, {w, m}) && PlacesKept(s, s', d, d, {w, m})
  {}

  lemma MarkFacts(s: State, w: nat, m: nat)
    requires Inv(s) && w < |s.waiters| && m < |s.waiters| && m != w
    requires OwesFor(s, w, m) && s.waiters[w].kind == WaitWaiter
    ensures AloneMark(s, w, m) && WaiterOk(s, w) && WaiterOk(s, m) && CoOk(s, s.waiters[w].co)
  {
    assert WaiterOk(s, w) && WaiterOk(s, m);
    assert CoOk(s, s.waiters[w].co);
    OnlyRelay(s, w, m);
    OnlyRelay(s, w, w);
  }

  lemma WinnerParks(s: State, w: nat, m: nat)
    requires Inv(s) && AloneMark(s, w, m) && s.waiters[m].slot.phase == Waiting
    requires WaiterOk(s, w) && WaiterOk(s, m) && CoOk(s, s.waiters[w].co)
    ensures Inv(ParkFor(s, w, m))
  {
    ParkLocal(s, w, m);
    ParkLocalCo(s, w, m);
    ParkTouches(s, w, m);
    Rewire(s, ParkFor(s, w, m), s.waiters[w].co, {w, m});
  }

  lemma WinnerGot(s: State, w: nat, m: nat)
    requires Inv(s) && AloneMark(s, w, m) && s.waiters[m].slot.phase != Waiting
    requires WaiterOk(s, w) && WaiterOk(s, m) && CoOk(s, s.waiters[w].co)
    ensures Inv(GotFor(s, w, m))
  {
    GotLocal(s, w, m);
    GotLocalCo(s, w, m);
    GotTouches(s, w, m);
    Rewire(s, GotFor(s, w, m), s.waiters[w].co, {w, m});
  }

  // ---- all steps ----

  predicate BeforeParking(p: Pc) {
    p.CvReady? || p.CvCheck? || p.CvEnqueue? || p.CvUnlock? || p.CvRegister? || p.CvCallback? || p.CvInline?
    || p.CvMark?
  }

  predicate BeforeLocking(p: Pc) { p.Unlocking? || p.LkReady? || p.LkTry? || p.LkCheck? || p.LkEnqueue? }

  lemma LockBeginInv(s: State, c: nat)
    requires Inv(s) && CoEnabled(s, c) && BeforeLocking(s.cos[c])
    ensures Inv(CoStep(s, c))
  {
    assert CoOk(s, c);
    match s.cos[c]
    case Unlocking(next) => if next.None? { UnlockEnter(s, c); } else { MoveCo(s, c, Run(false)); }
    case LkReady(tok) => MoveCo(s, c, if Requested(s, tok) then LkResume(true, None) else LkTry(tok));
    case LkTry(tok) =>
      if s.locked { MoveCo(s, c, LkCheck(tok)); } else { TakeByCo(s, c, LkResume(false, None)); }
    case LkCheck(tok) => MoveCo(s, c, if Requested(s, tok) then LkResume(true, None) else LkEnqueue(tok));
    case LkEnqueue(tok) =>
      if s.locked { PushByCo(s, c, tok, LkRegister(|s.waiters|)); } else { TakeByCo(s, c, LkResume(false, None)); }
  }

  lemma LockStepInv(s: State, c: nat)
    requires Inv(s) && CoEnabled(s, c) && !BeforeParking(s.cos[c]) && !BeforeLocking(s.cos[c])
    ensures Inv(CoStep(s, c))
  {
    assert CoOk(s, c);
    match s.cos[c]
    case LkRegister(w) => RegisterByCo(s, c, w, LkMark(w), LkCallback(w));
    case LkCallback(w) => CallbackByCo(s, c, w, LkInline(w));
    case LkInline(w) => MoveCo(s, c, LkMark(w));
    case LkMark(w) => MarkByCo(s, c, w, if s.waiters[w].slot.phase == Waiting then LkParked(w) else LkResume(false, Some(w)));
    case LkResume(_, _) => EndOfWait(s, c);
    case CvRelock(v) =>
      if s.locked { PushByCo(s, c, None, CvRelockMark(v, |s.waiters|)); }
      else { TakeByCo(s, c, CvResume(false, Some(v))); }
    case CvRelockMark(v, m) =>
      MarkByCo(s, c, m, if s.waiters[m].slot.phase == Waiting then CvRelockParked(v, m) else CvResume(false, Some(v)));
    case CvResume(_, _) => EndOfWait(s, c);
  }

  predicate BeforeWaiting(p: Pc) { p.CvReady? || p.CvCheck? || p.CvEnqueue? || p.CvUnlock? }

  lemma WaitBeginInv(s: State, c: nat)
    requires Inv(s) && CoEnabled(s, c) && BeforeWaiting(s.cos[c])
    ensures Inv(CoStep(s, c))
  {
    assert CoOk(s, c);
    match s.cos[c]
    case CvReady(tok) => MoveCo(s, c, if Requested(s, tok) then CvResume(true, None) else CvCheck(tok));
    case CvCheck(tok) => MoveCo(s, c, if Requested(s, tok) then CvResume(true, None) else CvEnqueue(tok));
    case CvEnqueue(tok) => WaitEnqueue(s, c, tok);
    case CvUnlock(v, next) => if next.None? { UnlockEnter(s, c); } else { MoveCo(s, c, CvRegister(v)); }
  }

  lemma WaitStepInv(s: State, c: nat)
    requires Inv(s) && CoEnabled(s, c) && BeforeParking(s.cos[c]) && !BeforeWaiting(s.cos[c])
    ensures Inv(CoStep(s, c))
  {
    assert CoOk(s, c);
    match s.cos[c]
    case CvRegister(v) => RegisterByCo(s, c, v, CvMark(v), CvCallback(v));
    case CvCallback(v) => CallbackByCo(s, c, v, CvInline(v));
    case CvInline(v) => MoveCo(s, c, CvMark(v));
    case CvMark(v) => MarkByCo(s, c, v, if s.waiters[v].slot.phase == Waiting then CvParked(v) else CvRelock(v));
  }

  lemma UnlockStepInv(s: State)
    requires Inv(s) && UnlockEnabled(s)
    ensures Inv(UnlockStep(s))
  {
    match s.mguard
    case MPopping(_) => UnlockPop(s);
    case MClaiming(c, w) => if s.waiters[w].slot.resumed { UnlockClaim(s); } else { UnlockHandOff(s, c, w); }
    case MDeciding(_) => UnlockDecide(s);
  }

  lemma WinnerStepInv(s: State, w: nat)
    requires Inv(s) && WinnerEnabled(s, w)
    ensures Inv(WinnerStep(s, w))
  {
    var x := s.waiters[w];
    if Undecided(x.slot) {
      WinnerDecide(s, w);
    } else if OwesResume(x) {
      WinnerResume(s, w, x.co);
    } else if OwesRelock(x) {
      WinnerRelock(s, w);
    } else {
      MarkFacts(s, w, x.relay.m);
      if s.waiters[x.relay.m].slot.phase == Waiting { WinnerParks(s, w, x.relay.m); } else { WinnerGot(s, w, x.relay.m); }
    }
  }

  lemma NewCoroutineLocal(s: State, d: nat)
    requires d < |s.cos| && CoOk(s, d)
    ensures var s' := s.(cos := s.cos + [Run(false)]); CoOk(s', d) && (Owns(s', d) <==> Owns(s, d))
  {}

  lemma NewCoroutineWaiter(s: State, u: nat)
    requires u < |s.waiters| && WaiterOk(s, u)
    ensures WaiterOk(s.(cos := s.cos + [Run(false)]), u)
  {}

  lemma NewCoroutineInv(s: State)
    requires Inv(s)
    ensures Inv(s.(cos := s.cos + [Run(false)]))
  {
    var s' := s.(cos := s.cos + [Run(false)]);
    forall d | 0 <= d < |s'.cos| ensures CoOk(s', d) && (s'.owner == Some(d) <==> Owns(s', d)) {
      if d < |s.cos| {
        assert CoOk(s, d);
        assert s.owner == Some(d) <==> Owns(s, d);
        NewCoroutineLocal(s, d);
      }
    }
    forall u | 0 <= u < |s'.waiters| ensures WaiterOk(s', u) {
      assert WaiterOk(s, u);
      NewCoroutineWaiter(s, u);
    }
  }

  lemma CoStepInv(s: State, c: nat)
    requires Inv(s) && CoEnabled(s, c)
    ensures Inv(CoStep(s, c))
  {
    if BeforeWaiting(s.cos[c]) {
      WaitBeginInv(s, c);
    } else if BeforeParking(s.cos[c]) {
      WaitStepInv(s, c);
    } else if BeforeLocking(s.cos[c]) {
      LockBeginInv(s, c);
    } else {
      LockStepInv(s, c);
    }
  }

  predicate IsCall(st: Step) {
    st.NewCoroutine? || st.Request? || st.TryLock? || st.BeginLock? || st.BeginUnlock? || st.BeginWait? || st.BeginNotify?
  }

  /** What user code does: new coroutines, cancellation requests, and the beginnings of calls. */
  lemma CallInv(s: State, st: Step)
    requires Inv(s) && Enabled(s, st) && IsCall(st)
    ensures Inv(Apply(s, st))
  {
    match st
    case NewCoroutine => NewCoroutineInv(s);
    case Request(t) => GuardStep(s, s.(requested := s.requested + {t}));
    case TryLock(c) => if !s.locked { TakeByCo(s, c, Run(true)); }
    case BeginLock(c, tok) => MoveCo(s, c, LkReady(tok));
    case BeginUnlock(c) => MoveCo(s, c, Unlocking(None));
    case BeginWait(c, tok) => MoveCo(s, c, CvReady(tok));
    case BeginNotify(all) => GuardStep(s, s.(cguard := CPopping(all, false)));
  }

  lemma StepInv(s: State, st: Step)
    requires Inv(s) && Enabled(s, st)
    ensures Inv(Apply(s, st))
  {
    match st
    case Callback(w) => CallbackStep(s, w);
    case Coroutine(c) => CoStepInv(s, c);
    case Unlock => UnlockStepInv(s);
    case Notify => if s.cguard.CPopping? { NotifyPop(s); } else { NotifyClaim(s); }
    case Winner(w) => WinnerStepInv(s, w);
    case _ => CallInv(s, st);
  }

  lemma {:induction false} RunInv(run: seq<State>)
    requires IsRun(run)
    ensures Inv(run[|run| - 1])
  {
    if |run| > 1 {
      var prefix := run[..|run| - 1];
      RunInv(prefix);
      assert Next(run[|run| - 2], run[|run| - 1]);
      var st :| Enabled(run[|run| - 2], st) && run[|run| - 1] == Apply(run[|run| - 2], st);
      StepInv(run[|run| - 2], st);
    }
  }
}
