/** What a step of the machine can do to one waiter. */
module LockWaiters {
  import opened Basics
  import opened Handshake
  import opened LockModel
  import opened LockInvariant
  import opened LockSteps

  /** A condition-variable waiter that a notification has claimed. */
  predicate Notified(x: Waiter) { x.kind == WaitWaiter && Granted(x.slot) }

  predicate Advances(x: Waiter, x': Waiter) {
    && x'.kind == x.kind && x'.co == x.co && x'.tok == x.tok && SlotAdvances(x.slot, x'.slot)
    && (x.registered ==> x'.registered)
    && (Notified(x') ==> Notified(x))
    && (x.outcome.Some? ==> x'.outcome == x.outcome)
  }

  /** Waiter w, if it is there, has advanced; if it is new, it is fresh. */
  predicate Later(s: State, s': State, w: nat) {
    && |s.waiters| <= |s'.waiters|
    && (w < |s.waiters| ==> Advances(s.waiters[w], s'.waiters[w]))
    && (|s.waiters| <= w < |s'.waiters| ==> s'.waiters[w].slot == FRESH_SLOT && s'.waiters[w].outcome.None?)
  }

  lemma LaterSet(s: State, u: nat, x: Waiter, w: nat)
    requires u < |s.waiters| && Advances(s.waiters[u], x)
    ensures Later(s, SetWaiter(s, u, x), w)
  {}

  lemma LaterPush(s: State, s': State, x: Waiter, w: nat)
    requires s'.waiters == s.waiters + [x] && x.slot == FRESH_SLOT && x.outcome.None?
    ensures Later(s, s', w)
  {}

  // ---- coroutines ----

  lemma MarkAdvances(x: Waiter)
    requires SlotOk(x.slot) && x.slot.side == Deciding
    ensures Advances(x, x.(slot := Mark(x.slot)))
  {
    SlotStepsAdvance(x.slot);
  }

  lemma MarkLater(s: State, c: nat, u: nat, parked: Pc, declined: Pc, w: nat)
    requires c < |s.cos| && u < |s.waiters| && SlotOk(s.waiters[u].slot) && s.waiters[u].slot.side == Deciding
    ensures Later(s, MarkStep(s, c, u, parked, declined), w)
  {
    MarkAdvances(s.waiters[u]);
    LaterSet(s, u, s.waiters[u].(slot := Mark(s.waiters[u].slot)), w);
  }

  lemma RegisterAdvances(x: Waiter)
    ensures Advances(x, x) && Advances(x, x.(registered := true))
  {}

  lemma RegisterLater(s: State, s': State, u: nat, w: nat)
    requires u < |s.waiters|
    requires s'.waiters == s.waiters || s'.waiters == s.waiters[u := s.waiters[u].(registered := true)]
    ensures Later(s, s', w)
  {
    RegisterAdvances(s.waiters[u]);
    LaterSet(s, u, s.waiters[u].(registered := true), w);
  }

  lemma WinAdvances(x: Waiter, cancel: bool)
    requires SlotOk(x.slot) && !x.slot.resumed && (cancel || x.kind == LockWaiter)
    ensures Advances(x, x.(slot := Win(x.slot, cancel)))
  {
    SlotStepsAdvance(x.slot);
  }

  lemma CallbackLater(s: State, s': State, u: nat, w: nat)
    requires u < |s.waiters| && SlotOk(s.waiters[u].slot) && s'.waiters == CallbackClaim(s, u).waiters
    ensures Later(s, s', w)
  {
    if !s.waiters[u].slot.resumed {
      WinAdvances(s.waiters[u], true);
      LaterSet(s, u, s.waiters[u].(slot := Win(s.waiters[u].slot, true)), w);
    }
  }

  lemma EndLater(s: State, s': State, ow: Option<nat>, threw: bool, w: nat)
    requires s'.waiters == Record(s, ow, threw).waiters
    requires ow.Some? && ow.value < |s.waiters| ==> s.waiters[ow.value].outcome.None?
    ensures Later(s, s', w)
  {
    if ow.Some? && ow.value < |s.waiters| {
      LaterSet(s, ow.value, s.waiters[ow.value].(outcome := Some(threw)), w);
    }
  }

  lemma LockBeginLater(s: State, c: nat, w: nat)
    requires CoEnabled(s, c) && BeforeLocking(s.cos[c])
    ensures Later(s, CoStep(s, c), w)
  {
    if s.cos[c].LkEnqueue? && s.locked {
      LaterPush(s, CoStep(s, c), NewWaiter(LockWaiter, c, s.cos[c].tok), w);
    }
  }

  lemma WaitBeginLater(s: State, c: nat, w: nat)
    requires CoEnabled(s, c) && BeforeWaiting(s.cos[c])
    ensures Later(s, CoStep(s, c), w)
  {
    if s.cos[c].CvEnqueue? { LaterPush(s, CoStep(s, c), NewWaiter(WaitWaiter, c, s.cos[c].tok), w); }
  }

  lemma WaitCoLater(s: State, c: nat, w: nat)
    requires CoEnabled(s, c) && BeforeParking(s.cos[c]) && !BeforeWaiting(s.cos[c]) && CoOk(s, c)
    requires WaiterOk(s, s.cos[c].v)
    ensures Later(s, CoStep(s, c), w)
  {
    match s.cos[c]
    case CvRegister(v) => RegisterLater(s, CoStep(s, c), v, w);
    case CvCallback(v) => CallbackLater(s, CoStep(s, c), v, w);
    case CvInline(_) =>
    case CvMark(v) => MarkLater(s, c, v, CvParked(v), CvRelock(v), w);
  }

  lemma LockCoLater(s: State, c: nat, w: nat)
    requires CoEnabled(s, c) && !BeforeParking(s.cos[c]) && !BeforeLocking(s.cos[c]) && CoOk(s, c)
    requires DecidingAt(s.cos[c]).Some? ==> WaiterOk(s, DecidingAt(s.cos[c]).value)
    ensures Later(s, CoStep(s, c), w)
  {
    match s.cos[c]
    case LkRegister(u) => RegisterLater(s, CoStep(s, c), u, w);
    case LkCallback(u) => CallbackLater(s, CoStep(s, c), u, w);
    case LkInline(_) =>
    case LkMark(u) => MarkLater(s, c, u, LkParked(u), LkResume(false, Some(u)), w);
    case CvRelock(_) => if s.locked { LaterPush(s, CoStep(s, c), NewWaiter(LockWaiter, c, None), w); }
    case CvRelockMark(v, m) => MarkLater(s, c, m, CvRelockParked(v, m), CvResume(false, Some(v)), w);
    case LkResume(immediate, ow) => EndLater(s, CoStep(s, c), ow, Throws(s, immediate, ow), w);
    case CvResume(immediate, ow) => EndLater(s, CoStep(s, c), ow, Throws(s, immediate, ow), w);
  }

  lemma CoLater(s: State, c: nat, w: nat)
    requires Inv(s) && CoEnabled(s, c)
    ensures Later(s, CoStep(s, c), w)
  {
    assert CoOk(s, c);
    if DecidingAt(s.cos[c]).Some? { assert WaiterOk(s, DecidingAt(s.cos[c]).value); }
    if BeforeWaiting(s.cos[c]) {
      WaitBeginLater(s, c, w);
    } else if BeforeParking(s.cos[c]) {
      WaitCoLater(s, c, w);
    } else if BeforeLocking(s.cos[c]) {
      LockBeginLater(s, c, w);
    } else {
      LockCoLater(s, c, w);
    }
  }

  // ---- wakers and winners ----

  lemma UnlockLater(s: State, w: nat)
    requires Inv(s) && UnlockEnabled(s)
    ensures Later(s, UnlockStep(s), w)
  {
    if s.mguard.MClaiming? {
      ClaimLater(s, s.mguard.w, UnlockStep(s), w);
    } else if s.mguard.MDeciding? {
      var u := s.mguard.w;
      assert WaiterOk(s, u);
      SlotStepsAdvance(s.waiters[u].slot);
      LaterSet(s, u, s.waiters[u].(slot := Decide(s.waiters[u].slot)), w);
    }
  }

  lemma ClaimLater(s: State, u: nat, s': State, w: nat)
    requires Inv(s) && IsKind(s, u, LockWaiter)
    requires s'.waiters == if s.waiters[u].slot.resumed then s.waiters
                           else s.waiters[u := s.waiters[u].(slot := Win(s.waiters[u].slot, false))]
    ensures Later(s, s', w)
  {
    assert WaiterOk(s, u);
    if !s.waiters[u].slot.resumed {
      WinAdvances(s.waiters[u], false);
      LaterSet(s, u, s.waiters[u].(slot := Win(s.waiters[u].slot, false)), w);
    }
  }

  lemma ProceedLater(s: State, u: nat, w: nat)
    requires u < |s.waiters| && SlotOk(s.waiters[u].slot) && Undecided(s.waiters[u].slot)
    ensures Later(s, SetSlot(s, u, Proceed(s.waiters[u].slot)), w)
  {
    SlotStepsAdvance(s.waiters[u].slot);
    LaterSet(s, u, s.waiters[u].(slot := Proceed(s.waiters[u].slot)), w);
  }

  lemma PayLater(s: State, s1: State, u: nat, w: nat)
    requires u < |s.waiters| && SlotOk(s.waiters[u].slot) && s1.waiters == s.waiters
    requires s.waiters[u].slot.claim.Claimed? && s.waiters[u].slot.claim.stage == Owes
    ensures Later(s, SetSlot(s1, u, Pay(s.waiters[u].slot)), w)
  {
    SlotStepsAdvance(s.waiters[u].slot);
    LaterSet(s, u, s.waiters[u].(slot := Pay(s.waiters[u].slot)), w);
  }

  lemma RelockLater(s: State, u: nat, w: nat)
    requires u < |s.waiters|
    ensures Later(s, RelockFor(s, u), w)
  {
    LaterSet(s, u, s.waiters[u].(relay := HasLock), w);
    LaterSet(s, u, s.waiters[u].(relay := Pushed(|s.waiters|)), w);
  }

  lemma ParkLater(s: State, u: nat, m: nat, w: nat)
    requires OwesMark(s, u, m) && SlotOk(s.waiters[u].slot) && SlotOk(s.waiters[m].slot)
    ensures Later(s, ParkFor(s, u, m), w)
  {
    SlotStepsAdvance(s.waiters[m].slot);
    SlotStepsAdvance(s.waiters[u].slot);
  }

  lemma GotLater(s: State, u: nat, m: nat, w: nat)
    requires OwesMark(s, u, m) && SlotOk(s.waiters[m].slot)
    ensures Later(s, GotFor(s, u, m), w)
  {
    SlotStepsAdvance(s.waiters[m].slot);
  }

  lemma WinnerLater(s: State, u: nat, w: nat)
    requires Inv(s) && WinnerEnabled(s, u)
    ensures Later(s, WinnerStep(s, u), w)
  {
    var x := s.waiters[u];
    assert WaiterOk(s, u);
    if Undecided(x.slot) {
      ProceedLater(s, u, w);
    } else if OwesResume(x) {
      PayLater(s, ResumeHandle(s, x.co), u, w);
    } else if OwesRelock(x) {
      RelockLater(s, u, w);
    } else {
      MarkFacts(s, u, x.relay.m);
      ParkLater(s, u, x.relay.m, w);
      GotLater(s, u, x.relay.m, w);
    }
  }

  /** Every step but the claim of a notification. */
  lemma StepLater(s: State, st: Step, w: nat)
    requires Inv(s) && Enabled(s, st) && !(st.Notify? && s.cguard.CClaiming?)
    ensures Later(s, Apply(s, st), w)
  {
    match st
    case Coroutine(c) => CoLater(s, c, w);
    case Callback(u) =>
      assert WaiterOk(s, u);
      CallbackLater(s, CallbackClaim(s, u), u, w);
    case Unlock => UnlockLater(s, w);
    case Winner(u) => WinnerLater(s, u, w);
    case _ =>
  }

  /** That claim advances its waiter too, and makes it notified if it was not claimed before. */
  lemma NotifyClaims(s: State, w: nat)
    requires Inv(s) && s.cguard.CClaiming? && NotifyEnabled(s)
    ensures var s', u := NotifyStep(s), s.cguard.w;
      && |s'.waiters| == |s.waiters| && u < |s.waiters|
      && (w < |s.waiters| ==> SlotAdvances(s.waiters[w].slot, s'.waiters[w].slot))
      && (w < |s.waiters| ==>
            (Notified(s'.waiters[w]) <==> Notified(s.waiters[w]) || (w == u && !s.waiters[u].slot.resumed)))
      && (w < |s.waiters| ==> s'.waiters[w].outcome == s.waiters[w].outcome)
  {
    var u := s.cguard.w;
    assert WaiterOk(s, u) && IsKind(s, u, WaitWaiter);
    SlotStepsAdvance(s.waiters[u].slot);
  }
}
