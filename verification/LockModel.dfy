/** The mutex and the condition variable as one interleaved step machine, over any number of
    coroutines, cancellation tokens, notify calls and cancel callbacks.

    Every atomic operation and every queue action under an internal lock is one step. Coroutines and
    waiters are named by their position in `cos` and `waiters`. The two internal `std::mutex`es are
    `mguard` and `cguard`; they stay held across steps only in `unlock` and in the notify loops,
    where a cancel callback can claim a waiter between its pop and its claim. What the winner of a
    waiter still has to do for it is kept with the waiter, so the waiters that one notify_all has
    claimed may be dealt with in any order. `owner` and `outcome` are history: no step reads them. */
module LockModel {
  import opened Basics
  import opened Handshake

  datatype Kind = LockWaiter | WaitWaiter

  /** How far lock_and_resume, called for a condition-variable waiter, has got. */
  datatype Relay = NotYet | Pushed(m: nat) | HasLock

  /** A heap-allocated waiter_state of either source type. */
  datatype Waiter = Waiter(
    kind: Kind, co: nat, tok: Option<nat>, registered: bool, slot: Slot, relay: Relay,
    outcome: Option<bool>)         // history: whether the co_await has ended, and whether it threw

  /** Where a coroutine is. `Run(owns)` is user code; the other names follow the awaiters' bodies. */
  datatype Pc =
    | Run(owns: bool)
    | Unlocking(next: Option<nat>)
    // co_await m.lock(token)
    | LkReady(tok: Option<nat>)
    | LkTry(tok: Option<nat>)
    | LkCheck(tok: Option<nat>)
    | LkEnqueue(tok: Option<nat>)
    | LkRegister(w: nat)
    | LkCallback(w: nat)           // the token was already cancelled: the callback runs inline
    | LkInline(w: nat)
    | LkMark(w: nat)
    | LkParked(w: nat)
    | LkResume(immediate: bool, ow: Option<nat>)
    // co_await cv.wait(m, token)
    | CvReady(tok: Option<nat>)
    | CvCheck(tok: Option<nat>)
    | CvEnqueue(tok: Option<nat>)
    | CvUnlock(v: nat, next: Option<nat>)
    | CvRegister(v: nat)
    | CvCallback(v: nat)
    | CvInline(v: nat)
    | CvMark(v: nat)
    | CvParked(v: nat)
    | CvRelock(v: nat)             // woken before parking: await_suspend calls lock_or_enqueue
    | CvRelockMark(v: nat, m: nat)
    | CvRelockParked(v: nat, m: nat)
    | CvResume(immediate: bool, ow: Option<nat>)

  /** The mutex's internal lock, with the progress of the unlock call that holds it. */
  datatype MGuard = MFree | MPopping(c: nat) | MClaiming(c: nat, w: nat) | MDeciding(w: nat)

  /** The condition variable's internal lock, with the progress of the notify call that holds it. */
  datatype CGuard = CFree | CPopping(all: bool, won: bool) | CClaiming(all: bool, w: nat)

  datatype State = State(
    locked: bool, mguard: MGuard, mq: seq<nat>,
    cguard: CGuard, cq: seq<nat>,
    requested: set<nat>,
    waiters: seq<Waiter>,
    cos: seq<Pc>,
    owner: Option<nat>,            // history: the coroutine that holds the lock
    fault: bool)                   // a handle was resumed that was not suspended

  const INITIAL := State(false, MFree, [], CFree, [], {}, [], [], None, false)

  // ---- small updates ----

  function SetCo(s: State, c: nat, p: Pc): State
    requires c < |s.cos|
  {
    s.(cos := s.cos[c := p])
  }

  function SetWaiter(s: State, w: nat, x: Waiter): State
    requires w < |s.waiters|
  {
    s.(waiters := s.waiters[w := x])
  }

  function SetSlot(s: State, w: nat, t: Slot): State
    requires w < |s.waiters|
  {
    SetWaiter(s, w, s.waiters[w].(slot := t))
  }

  predicate Requested(s: State, tok: Option<nat>) { tok.Some? && tok.value in s.requested }

  /** The locked part of try_lock, when it succeeds. */
  function Take(s: State, c: nat): State { s.(locked := true, owner := Some(c)) }

  function NewWaiter(k: Kind, c: nat, tok: Option<nat>): Waiter {
    Waiter(k, c, tok, false, FRESH_SLOT, NotYet, None)
  }

  /** Push a new waiter of coroutine c on the mutex queue. */
  function PushLock(s: State, c: nat, tok: Option<nat>): State {
    s.(mq := s.mq + [|s.waiters|], waiters := s.waiters + [NewWaiter(LockWaiter, c, tok)])
  }

  function PushWait(s: State, c: nat, tok: Option<nat>): State {
    s.(cq := s.cq + [|s.waiters|], waiters := s.waiters + [NewWaiter(WaitWaiter, c, tok)])
  }

  /** handle.resume(): a parked coroutine goes on to await_resume; anything else is a fault. */
  function ResumeHandle(s: State, c: nat): State {
    if c >= |s.cos| then s.(fault := true)
    else match s.cos[c]
      case LkParked(w) => SetCo(s, c, LkResume(false, Some(w)))
      case CvParked(v) => SetCo(s, c, CvResume(false, Some(v)))
      case CvRelockParked(v, _) => SetCo(s, c, CvResume(false, Some(v)))
      case _ => s.(fault := true)
  }

  /** Whether await_resume throws operation_cancelled. */
  predicate Throws(s: State, immediate: bool, ow: Option<nat>) {
    immediate || (ow.Some? && ow.value < |s.waiters| && s.waiters[ow.value].slot.cancelled)
  }

  function Record(s: State, ow: Option<nat>, threw: bool): State {
    if ow.Some? && ow.value < |s.waiters|
    then SetWaiter(s, ow.value, s.waiters[ow.value].(outcome := Some(threw))) else s
  }

  /** The call of unlock that handed the lock to w, if it did, has returned. */
  predicate UnlockReturned(s: State, next: Option<nat>) {
    next.Some? && next.value < |s.waiters| && Settled(s.waiters[next.value].slot)
  }

  /** The cancel callback that runs inside the registration of w has returned. */
  predicate InlineReturned(t: Slot) { !(t.claim.Claimed? && t.claim.cancel && Undecided(t)) }

  /** The first action of a cancel callback. */
  function CallbackClaim(s: State, w: nat): State
    requires w < |s.waiters|
  {
    if s.waiters[w].slot.resumed then s else SetSlot(s, w, Win(s.waiters[w].slot, true))
  }

  // ---- the steps of a coroutine ----

  predicate CoEnabled(s: State, c: nat) {
    && c < |s.cos|
    && match s.cos[c]
       case Run(_) => false
       case Unlocking(next) => UnlockReturned(s, next) || (next.None? && s.mguard.MFree?)
       case LkReady(_) => true
       case LkTry(_) => s.mguard.MFree?
       case LkCheck(_) => true
       case LkEnqueue(_) => s.mguard.MFree?
       case LkRegister(w) => w < |s.waiters|
       case LkCallback(w) => w < |s.waiters|
       case LkInline(w) => w < |s.waiters| && InlineReturned(s.waiters[w].slot)
       case LkMark(w) => w < |s.waiters|
       case LkParked(_) => false
       case LkResume(_, _) => true
       case CvReady(_) => true
       case CvCheck(_) => true
       case CvEnqueue(_) => s.cguard.CFree?
       case CvUnlock(_, next) => UnlockReturned(s, next) || (next.None? && s.mguard.MFree?)
       case CvRegister(v) => v < |s.waiters|
       case CvCallback(v) => v < |s.waiters|
       case CvInline(v) => v < |s.waiters| && InlineReturned(s.waiters[v].slot)
       case CvMark(v) => v < |s.waiters|
       case CvParked(_) => false
       case CvRelock(_) => s.mguard.MFree?
       case CvRelockMark(_, m) => m < |s.waiters|
       case CvRelockParked(_, _) => false
       case CvResume(_, _) => true
  }

  /** The cancellation_registration made by await_suspend for waiter w. */
  function Register(s: State, c: nat, w: nat, mark: Pc, callback: Pc): State
    requires c < |s.cos| && w < |s.waiters|
  {
    if s.waiters[w].tok.None? then SetCo(s, c, mark)
    else if Requested(s, s.waiters[w].tok) then SetCo(s, c, callback)
    else SetCo(SetWaiter(s, w, s.waiters[w].(registered := true)), c, mark)
  }

  /** try_mark_suspended on w by coroutine c. */
  function MarkStep(s: State, c: nat, w: nat, parked: Pc, declined: Pc): State
    requires c < |s.cos| && w < |s.waiters|
  {
    SetCo(SetSlot(s, w, Mark(s.waiters[w].slot)), c,
          if s.waiters[w].slot.phase == Waiting then parked else declined)
  }

  /** One step of coroutine c. */
  function CoStep(s: State, c: nat): State
    requires CoEnabled(s, c)
  {
    match s.cos[c]
    case Unlocking(next) =>
      if next.None? then s.(mguard := MPopping(c)) else SetCo(s, c, Run(false))
    case LkReady(tok) => SetCo(s, c, if Requested(s, tok) then LkResume(true, None) else LkTry(tok))
    case LkTry(tok) =>
      if !s.locked then SetCo(Take(s, c), c, LkResume(false, None)) else SetCo(s, c, LkCheck(tok))
    case LkCheck(tok) => SetCo(s, c, if Requested(s, tok) then LkResume(true, None) else LkEnqueue(tok))
    case LkEnqueue(tok) =>
      if !s.locked then SetCo(Take(s, c), c, LkResume(false, None))
      else SetCo(PushLock(s, c, tok), c, LkRegister(|s.waiters|))
    case LkRegister(w) => Register(s, c, w, LkMark(w), LkCallback(w))
    case LkCallback(w) => SetCo(CallbackClaim(s, w), c, LkInline(w))
    case LkInline(w) => SetCo(s, c, LkMark(w))
    case LkMark(w) => MarkStep(s, c, w, LkParked(w), LkResume(false, Some(w)))
    case LkResume(immediate, ow) =>
      SetCo(Record(s, ow, Throws(s, immediate, ow)), c, Run(!Throws(s, immediate, ow)))
    case CvReady(tok) => SetCo(s, c, if Requested(s, tok) then CvResume(true, None) else CvCheck(tok))
    case CvCheck(tok) => SetCo(s, c, if Requested(s, tok) then CvResume(true, None) else CvEnqueue(tok))
    case CvEnqueue(tok) => SetCo(PushWait(s, c, tok), c, CvUnlock(|s.waiters|, None))
    case CvUnlock(v, next) =>
      if next.None? then s.(mguard := MPopping(c)) else SetCo(s, c, CvRegister(v))
    case CvRegister(v) => Register(s, c, v, CvMark(v), CvCallback(v))
    case CvCallback(v) => SetCo(CallbackClaim(s, v), c, CvInline(v))
    case CvInline(v) => SetCo(s, c, CvMark(v))
    case CvMark(v) => MarkStep(s, c, v, CvParked(v), CvRelock(v))
    case CvRelock(v) =>
      if !s.locked then SetCo(Take(s, c), c, CvResume(false, Some(v)))
      else SetCo(PushLock(s, c, None), c, CvRelockMark(v, |s.waiters|))
    case CvRelockMark(v, m) => MarkStep(s, c, m, CvRelockParked(v, m), CvResume(false, Some(v)))
    case CvResume(immediate, ow) => SetCo(Record(s, ow, Throws(s, immediate, ow)), c, Run(true))
  }

  // ---- the loop of unlock, and the loops of notify_one and notify_all ----

  predicate UnlockEnabled(s: State) {
    match s.mguard
    case MFree => false
    case MPopping(c) => c < |s.cos| && (s.cos[c].Unlocking? || s.cos[c].CvUnlock?)
    case MClaiming(c, w) => c < |s.cos| && w < |s.waiters| && (s.cos[c].Unlocking? || s.cos[c].CvUnlock?)
    case MDeciding(w) => w < |s.waiters| && s.waiters[w].slot.claim.Claimed?
  }

  /** The lock was handed to `w`, or to nobody: what the calling coroutine does next. */
  function AfterUnlock(p: Pc, w: Option<nat>): Pc
    requires p.Unlocking? || p.CvUnlock?
  {
    if w.Some? then p.(next := w)
    else if p.Unlocking? then Run(false) else CvRegister(p.v)
  }

  function UnlockStep(s: State): State
    requires UnlockEnabled(s)
  {
    match s.mguard
    case MPopping(c) =>
      if s.mq == [] then SetCo(s.(locked := false, owner := None, mguard := MFree), c, AfterUnlock(s.cos[c], None))
      else s.(mq := s.mq[1..], mguard := MClaiming(c, s.mq[0]))
    case MClaiming(c, w) =>
      if s.waiters[w].slot.resumed then s.(mguard := MPopping(c))
      else
        var s1 := SetSlot(s, w, Win(s.waiters[w].slot, false));
        SetCo(s1.(owner := Some(s.waiters[w].co), mguard := MDeciding(w)), c, AfterUnlock(s.cos[c], Some(w)))
    case MDeciding(w) => SetSlot(s, w, Decide(s.waiters[w].slot)).(mguard := MFree)
  }

  predicate NotifyEnabled(s: State) {
    match s.cguard
    case CFree => false
    case CPopping(_, _) => true
    case CClaiming(_, w) => w < |s.waiters|
  }

  function NotifyStep(s: State): State
    requires NotifyEnabled(s)
  {
    match s.cguard
    case CPopping(all, won) =>
      if s.cq == [] || (won && !all) then s.(cguard := CFree)
      else s.(cq := s.cq[1..], cguard := CClaiming(all, s.cq[0]))
    case CClaiming(all, w) =>
      if s.waiters[w].slot.resumed then s.(cguard := CPopping(all, false))
      else SetSlot(s, w, Win(s.waiters[w].slot, false)).(cguard := CPopping(all, true))
  }

  // ---- what the winner of a waiter does for it, after the claim ----

  predicate WinnerEnabled(s: State, w: nat) {
    && w < |s.waiters|
    && var x := s.waiters[w];
    && x.slot.claim.Claimed?
    && match x.slot.claim.stage
       case Won => x.slot.claim.cancel || x.kind == WaitWaiter
       case Stored => true
       case Deferred => false
       case Owes =>
         (match x.relay
          case NotYet => x.kind == WaitWaiter ==> s.mguard.MFree?
          case Pushed(m) => m < |s.waiters| && m != w && x.co < |s.cos|
          case HasLock => true)
       case Paid => false
  }

  /** lock_or_enqueue, called by lock_and_resume for waiter w. */
  function RelockFor(s: State, w: nat): State
    requires w < |s.waiters|
  {
    var x := s.waiters[w];
    if !s.locked then SetWaiter(Take(s, x.co), w, x.(relay := HasLock))
    else PushLock(SetWaiter(s, w, x.(relay := Pushed(|s.waiters|))), x.co, None)
  }

  /** The mark in lock_or_enqueue, on the mutex waiter m that it has pushed for w, succeeds: the coroutine is
      now parked on m, and whoever claims m will resume it. */
  function ParkFor(s: State, w: nat, m: nat): State
    requires w < |s.waiters| && m < |s.waiters| && s.waiters[w].co < |s.cos| && s.waiters[w].slot.claim.Claimed?
  {
    var x := s.waiters[w];
    SetCo(SetSlot(SetSlot(s, m, Mark(s.waiters[m].slot)), w, Pay(x.slot)), x.co, CvRelockParked(w, m))
  }

  /** It fails: the lock has been handed to m, and the coroutine is to be resumed. */
  function GotFor(s: State, w: nat, m: nat): State
    requires w < |s.waiters| && m < |s.waiters|
  {
    SetWaiter(SetSlot(s, m, Mark(s.waiters[m].slot)), w, s.waiters[w].(relay := HasLock))
  }

  function WinnerStep(s: State, w: nat): State
    requires WinnerEnabled(s, w)
  {
    var x := s.waiters[w];
    if Undecided(x.slot) then SetSlot(s, w, Proceed(x.slot))
    else if x.kind == LockWaiter || x.relay.HasLock? then SetSlot(ResumeHandle(s, x.co), w, Pay(x.slot))
    else if x.relay.NotYet? then RelockFor(s, w)
    else if s.waiters[x.relay.m].slot.phase == Waiting then ParkFor(s, w, x.relay.m)
    else GotFor(s, w, x.relay.m)
  }

  // ---- the machine ----

  datatype Step =
    | NewCoroutine
    | Request(t: nat)
    | TryLock(c: nat)
    | BeginLock(c: nat, tok: Option<nat>)
    | BeginUnlock(c: nat)
    | BeginWait(c: nat, tok: Option<nat>)
    | BeginNotify(all: bool)
    | Callback(w: nat)             // a registered callback is invoked
    | Coroutine(c: nat)
    | Unlock
    | Notify
    | Winner(w: nat)

  predicate Enabled(s: State, st: Step) {
    match st
    case NewCoroutine => true
    case Request(_) => true
    case TryLock(c) => c < |s.cos| && s.cos[c].Run? && s.mguard.MFree?
    case BeginLock(c, _) => c < |s.cos| && s.cos[c] == Run(false)
    case BeginUnlock(c) => c < |s.cos| && s.cos[c] == Run(true)
    case BeginWait(c, _) => c < |s.cos| && s.cos[c] == Run(true)
    case BeginNotify(_) => s.cguard.CFree?
    case Callback(w) => w < |s.waiters| && s.waiters[w].registered && Requested(s, s.waiters[w].tok)
    case Coroutine(c) => CoEnabled(s, c)
    case Unlock => UnlockEnabled(s)
    case Notify => NotifyEnabled(s)
    case Winner(w) => WinnerEnabled(s, w)
  }

  function Apply(s: State, st: Step): State
    requires Enabled(s, st)
  {
    match st
    case NewCoroutine => s.(cos := s.cos + [Run(false)])
    case Request(t) => s.(requested := s.requested + {t})
    case TryLock(c) => if !s.locked then SetCo(Take(s, c), c, Run(true)) else s
    case BeginLock(c, tok) => SetCo(s, c, LkReady(tok))
    case BeginUnlock(c) => SetCo(s, c, Unlocking(None))
    case BeginWait(c, tok) => SetCo(s, c, CvReady(tok))
    case BeginNotify(all) => s.(cguard := CPopping(all, false))
    case Callback(w) => CallbackClaim(s, w)
    case Coroutine(c) => CoStep(s, c)
    case Unlock => UnlockStep(s)
    case Notify => NotifyStep(s)
    case Winner(w) => WinnerStep(s, w)
  }

  ghost predicate Next(s: State, s': State) {
    exists st :: Enabled(s, st) && s' == Apply(s, st)
  }

  /** A finite run from the initial state. */
  ghost predicate IsRun(run: seq<State>) {
    && run != []
    && run[0] == INITIAL
    && forall i :: 0 <= i < |run| - 1 ==> Next(run[i], run[i + 1])
  }

  /** A run with the steps that were taken. */
  ghost predicate Takes(run: seq<State>, steps: seq<Step>) {
    && |run| == |steps| + 1
    && run[0] == INITIAL
    && forall i :: 0 <= i < |steps| ==> Enabled(run[i], steps[i]) && run[i + 1] == Apply(run[i], steps[i])
  }
}
