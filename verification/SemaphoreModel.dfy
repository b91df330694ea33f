/** counting_semaphore as an interleaved step machine, over any number of coroutines, tokens,
    release calls and cancel callbacks. Every atomic operation and every action under the internal
    lock is one step; the lock stays held across steps only in `release`, where a cancel callback can
    claim a waiter between its pop and its claim. Overflow is the release build's: the unit is
    dropped. The fields after `fault` are history: no step reads them. */
module SemaphoreModel {
  import opened Basics
  import opened Handshake

  datatype Waiter = Waiter(co: nat, tok: Option<nat>, registered: bool, slot: Slot)

  datatype Pc =
    | Run
    // co_await sem.acquire(token)
    | AqReady(tok: Option<nat>)
    | AqTry(tok: Option<nat>)
    | AqCheck(tok: Option<nat>)
    | AqEnqueue(tok: Option<nat>)
    | AqRegister(w: nat)
    | AqCallback(w: nat)           // the token was already cancelled: the callback runs inline
    | AqInline(w: nat)
    | AqMark(w: nat)
    | AqParked(w: nat)
    | AqResume(immediate: bool, ow: Option<nat>)

  /** The internal lock, with the units the release call that holds it has still to give out. */
  datatype Guard = SFree | SLoop(left: nat) | SClaiming(left: nat, w: nat) | SDeciding(left: nat, w: nat)

  datatype State = State(
    max: int, count: int, guard: Guard, q: seq<nat>,
    requested: set<nat>, waiters: seq<Waiter>, cos: seq<Pc>,
    fault: bool,                   // a handle was resumed that was not suspended
    released: nat, dropped: nat,   // history: units given out by release, and lost at max()
    acquired: nat,                 // history: permits taken, by try_acquire, on enqueueing or by a claim
    succeeded: nat,                // history: acquisitions whose caller has been told
    holding: set<nat>)             // history: coroutines that have a permit and have not returned yet

  /** sanitize_initial_count. */
  function Sanitize(initial: int, max: int): int {
    if initial < 0 then 0 else if initial > max then max else initial
  }

  function Initial(initial: int, max: nat): State {
    State(max, Sanitize(initial, max), SFree, [], {}, [], [], false, 0, 0, 0, 0, {})
  }

  // ---- small updates ----

  function SetCo(s: State, c: nat, p: Pc): State
    requires c < |s.cos|
  {
    s.(cos := s.cos[c := p])
  }

  function SetSlot(s: State, w: nat, t: Slot): State
    requires w < |s.waiters|
  {
    s.(waiters := s.waiters[w := s.waiters[w].(slot := t)])
  }

  predicate Requested(s: State, tok: Option<nat>) { tok.Some? && tok.value in s.requested }

  /** --count_ on behalf of coroutine c, which will be told on await_resume. */
  function Take(s: State, c: nat): State {
    s.(count := s.count - 1, acquired := s.acquired + 1, holding := s.holding + {c})
  }

  predicate Throws(s: State, immediate: bool, ow: Option<nat>) {
    immediate || (ow.Some? && ow.value < |s.waiters| && s.waiters[ow.value].slot.cancelled)
  }

  function ResumeHandle(s: State, c: nat): State {
    if c < |s.cos| && s.cos[c].AqParked? then SetCo(s, c, AqResume(false, Some(s.cos[c].w)))
    else s.(fault := true)
  }

  predicate InlineReturned(t: Slot) { !(t.claim.Claimed? && t.claim.cancel && Undecided(t)) }

  function CallbackClaim(s: State, w: nat): State
    requires w < |s.waiters|
  {
    if s.waiters[w].slot.resumed then s else SetSlot(s, w, Win(s.waiters[w].slot, true))
  }

  // ---- coroutines ----

  predicate CoEnabled(s: State, c: nat) {
    && c < |s.cos|
    && match s.cos[c]
       case Run => false
       case AqTry(_) => s.guard.SFree?
       case AqEnqueue(_) => s.guard.SFree?
       case AqRegister(w) => w < |s.waiters|
       case AqCallback(w) => w < |s.waiters|
       case AqInline(w) => w < |s.waiters| && InlineReturned(s.waiters[w].slot)
       case AqMark(w) => w < |s.waiters|
       case AqParked(_) => false
       case _ => true
  }

  function CoStep(s: State, c: nat): State
    requires CoEnabled(s, c)
  {
    match s.cos[c]
    case AqReady(tok) => SetCo(s, c, if Requested(s, tok) then AqResume(true, None) else AqTry(tok))
    case AqTry(tok) =>
      if s.count > 0 then SetCo(Take(s, c), c, AqResume(false, None)) else SetCo(s, c, AqCheck(tok))
    case AqCheck(tok) => SetCo(s, c, if Requested(s, tok) then AqResume(true, None) else AqEnqueue(tok))
    case AqEnqueue(tok) =>
      if s.count > 0 then SetCo(Take(s, c), c, AqResume(false, None))
      else SetCo(s.(q := s.q + [|s.waiters|], waiters := s.waiters + [Waiter(c, tok, false, FRESH_SLOT)]),
                 c, AqRegister(|s.waiters|))
    case AqRegister(w) =>
      if s.waiters[w].tok.None? then SetCo(s, c, AqMark(w))
      else if Requested(s, s.waiters[w].tok) then SetCo(s, c, AqCallback(w))
      else SetCo(s.(waiters := s.waiters[w := s.waiters[w].(registered := true)]), c, AqMark(w))
    case AqCallback(w) => SetCo(CallbackClaim(s, w), c, AqInline(w))
    case AqInline(w) => SetCo(s, c, AqMark(w))
    case AqMark(w) =>
      SetCo(SetSlot(s, w, Mark(s.waiters[w].slot)), c,
            if s.waiters[w].slot.phase == Waiting then AqParked(w) else AqResume(false, Some(w)))
    case AqResume(immediate, ow) =>
      if Throws(s, immediate, ow) then SetCo(s, c, Run)
      else SetCo(s.(succeeded := s.succeeded + 1, holding := s.holding - {c}), c, Run)
  }

  // ---- release ----

  predicate ReleaseEnabled(s: State) {
    match s.guard
    case SFree => false
    case SLoop(_) => true
    case SClaiming(_, w) => w < |s.waiters|
    case SDeciding(left, w) => w < |s.waiters| && s.waiters[w].slot.claim.Claimed? && left > 0
  }

  function ReleaseStep(s: State): State
    requires ReleaseEnabled(s)
  {
    match s.guard
    case SLoop(left) =>
      if left == 0 then s.(guard := SFree)
      else if s.q != [] then s.(q := s.q[1..], guard := SClaiming(left, s.q[0]))
      else if s.count == s.max then
        s.(guard := SLoop(left - 1), released := s.released + 1, dropped := s.dropped + 1)
      else s.(count := s.count + 1, guard := SLoop(left - 1), released := s.released + 1)
    case SClaiming(left, w) =>
      if s.waiters[w].slot.resumed then s.(guard := SLoop(left))
      else
        SetSlot(s, w, Win(s.waiters[w].slot, false)).(guard := SDeciding(left, w),
          acquired := s.acquired + 1, released := s.released + 1, holding := s.holding + {s.waiters[w].co})
    case SDeciding(left, w) => SetSlot(s, w, Decide(s.waiters[w].slot)).(guard := SLoop(left - 1))
  }

  // ---- what the winner of a waiter does for it, after the claim ----

  predicate WinnerEnabled(s: State, w: nat) {
    && w < |s.waiters|
    && s.waiters[w].slot.claim.Claimed?
    && match s.waiters[w].slot.claim.stage
       case Won => s.waiters[w].slot.claim.cancel
       case Stored => true
       case Owes => true
       case _ => false
  }

  function WinnerStep(s: State, w: nat): State
    requires WinnerEnabled(s, w)
  {
    match s.waiters[w].slot.claim.stage
    case Won => SetSlot(s, w, Store(s.waiters[w].slot))
    case Stored => SetSlot(s, w, Decide(s.waiters[w].slot))
    case Owes => SetSlot(ResumeHandle(s, s.waiters[w].co), w, Pay(s.waiters[w].slot))
  }

  // ---- the machine ----

  datatype Step =
    | NewCoroutine
    | Request(t: nat)
    | TryAcquire
    | BeginAcquire(c: nat, tok: Option<nat>)
    | BeginRelease(update: int)
    | Callback(w: nat)
    | Coroutine(c: nat)
    | Release
    | Winner(w: nat)

  predicate Enabled(s: State, st: Step) {
    match st
    case NewCoroutine => true
    case Request(_) => true
    case TryAcquire => s.guard.SFree?
    case BeginAcquire(c, _) => c < |s.cos| && s.cos[c].Run?
    case BeginRelease(_) => s.guard.SFree?
    case Callback(w) => w < |s.waiters| && s.waiters[w].registered && Requested(s, s.waiters[w].tok)
    case Coroutine(c) => CoEnabled(s, c)
    case Release => ReleaseEnabled(s)
    case Winner(w) => WinnerEnabled(s, w)
  }

  function Apply(s: State, st: Step): State
    requires Enabled(s, st)
  {
    match st
    case NewCoroutine => s.(cos := s.cos + [Run])
    case Request(t) => s.(requested := s.requested + {t})
    case TryAcquire =>
      if s.count > 0 then s.(count := s.count - 1, acquired := s.acquired + 1, succeeded := s.succeeded + 1) else s
    case BeginAcquire(c, tok) => SetCo(s, c, AqReady(tok))
    case BeginRelease(update) => if update <= 0 then s else s.(guard := SLoop(update))
    case Callback(w) => CallbackClaim(s, w)
    case Coroutine(c) => CoStep(s, c)
    case Release => ReleaseStep(s)
    case Winner(w) => WinnerStep(s, w)
  }

  ghost predicate Next(s: State, s': State) { exists st :: Enabled(s, st) && s' == Apply(s, st) }

  ghost predicate IsRun(run: seq<State>, initial: int, max: nat) {
    && run != []
    && run[0] == Initial(initial, max)
    && forall i :: 0 <= i < |run| - 1 ==> Next(run[i], run[i + 1])
  }

  /** A run with the steps that were taken. */
  ghost predicate Takes(run: seq<State>, steps: seq<Step>, initial: int, max: nat) {
    && |run| == |steps| + 1
    && run[0] == Initial(initial, max)
    && forall i :: 0 <= i < |steps| ==> Enabled(run[i], steps[i]) && run[i + 1] == Apply(run[i], steps[i])
  }
}
