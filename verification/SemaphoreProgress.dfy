/** The library's own steps run out: between two calls from user code only boundedly many steps of the
    semaphore and its cancel callbacks are possible, and when they have all been taken nobody is stranded. */
module SemaphoreProgress {
  import opened Basics
  import opened Handshake
  import opened SemaphoreModel
  import opened SemaphoreInvariant
  import opened SemaphoreTheorems
  import opened SemaphoreCancellation

  /** A step inside a call that user code has made, or inside a cancel callback. */
  predicate Internal(st: Step) { st.Callback? || st.Coroutine? || st.Release? || st.Winner? }

  // ---- how many steps are left ----

  function PcLeft(p: Pc): nat {
    match p
    case Run => 0
    case AqResume(_, _) => 1
    case AqParked(_) => 2
    case AqMark(_) => 3
    case AqInline(_) => 4
    case AqCallback(_) => 5
    case AqRegister(_) => 6
    case AqEnqueue(_) => 16
    case AqCheck(_) => 17
    case AqTry(_) => 18
    case AqReady(_) => 19
  }

  function WaiterLeft(x: Waiter): nat { ClaimLeft(x.slot.claim) }

  function GuardLeft(g: Guard): nat {
    match g
    case SFree => 0
    case SLoop(left) => left + 1
    case SClaiming(left, _) => left + 2
    case SDeciding(left, _) => left + 2
  }

  function StepsLeft(s: State): nat {
    Total(s.cos, PcLeft) + Total(s.waiters, WaiterLeft) + 2 * |s.q| + GuardLeft(s.guard)
  }

  lemma SetSlotLeft(s: State, w: nat, t: Slot)
    requires w < |s.waiters|
    ensures StepsLeft(SetSlot(s, w, t)) == StepsLeft(s) - ClaimLeft(s.waiters[w].slot.claim) + ClaimLeft(t.claim)
  {
    TotalChanges(s.waiters, WaiterLeft, w, s.waiters[w].(slot := t));
  }

  lemma MoveProgress(s: State, c: nat, p: Pc)
    requires c < |s.cos| && PcLeft(p) < PcLeft(s.cos[c])
    ensures StepsLeft(SetCo(s, c, p)) < StepsLeft(s)
  {
    TotalChanges(s.cos, PcLeft, c, p);
  }

  lemma CallbackProgress(s: State, w: nat)
    requires w < |s.waiters| && SlotOk(s.waiters[w].slot)
    ensures StepsLeft(CallbackClaim(s, w)) <= StepsLeft(s)
    ensures CallbackClaim(s, w) != s ==> StepsLeft(CallbackClaim(s, w)) < StepsLeft(s)
  {
    SetSlotLeft(s, w, Win(s.waiters[w].slot, true));
  }

  /** enqueue_waiter: a new waiter brings 8 steps. */
  lemma EnqueueProgress(s: State, c: nat, tok: Option<nat>)
    requires CoEnabled(s, c) && s.cos[c] == AqEnqueue(tok) && s.count <= 0
    ensures StepsLeft(CoStep(s, c)) < StepsLeft(s)
  {
    TotalAdded(s.waiters, WaiterLeft, Waiter(c, tok, false, FRESH_SLOT));
    TotalChanges(s.cos, PcLeft, c, AqRegister(|s.waiters|));
  }

  lemma RegisterProgress(s: State, c: nat, w: nat)
    requires CoEnabled(s, c) && s.cos[c] == AqRegister(w)
    ensures StepsLeft(CoStep(s, c)) < StepsLeft(s)
  {
    var x := s.waiters[w].(registered := true);
    MoveProgress(s, c, if Requested(s, s.waiters[w].tok) then AqCallback(w) else AqMark(w));
    TotalChanges(s.waiters, WaiterLeft, w, x);
    MoveProgress(s.(waiters := s.waiters[w := x]), c, AqMark(w));
  }

  lemma MarkProgress(s: State, c: nat, w: nat)
    requires CoEnabled(s, c) && s.cos[c] == AqMark(w)
    ensures StepsLeft(CoStep(s, c)) < StepsLeft(s)
  {
    var t := s.waiters[w].slot;
    SetSlotLeft(s, w, Mark(t));
    MoveProgress(SetSlot(s, w, Mark(t)), c, if t.phase == Waiting then AqParked(w) else AqResume(false, Some(w)));
  }

  lemma EndProgress(s: State, c: nat)
    requires CoEnabled(s, c) && s.cos[c].AqResume?
    ensures StepsLeft(CoStep(s, c)) < StepsLeft(s)
  {
    MoveProgress(s, c, Run);
  }

  lemma CoProgress(s: State, c: nat)
    requires CoEnabled(s, c) && (s.cos[c].AqCallback? ==> SlotOk(s.waiters[s.cos[c].w].slot))
    ensures StepsLeft(CoStep(s, c)) < StepsLeft(s)
  {
    match s.cos[c]
    case AqReady(tok) => MoveProgress(s, c, if Requested(s, tok) then AqResume(true, None) else AqTry(tok));
    case AqTry(tok) =>
      if s.count > 0 { MoveProgress(Take(s, c), c, AqResume(false, None)); } else { MoveProgress(s, c, AqCheck(tok)); }
    case AqCheck(tok) => MoveProgress(s, c, if Requested(s, tok) then AqResume(true, None) else AqEnqueue(tok));
    case AqEnqueue(tok) =>
      if s.count > 0 { MoveProgress(Take(s, c), c, AqResume(false, None)); } else { EnqueueProgress(s, c, tok); }
    case AqRegister(w) => RegisterProgress(s, c, w);
    case AqCallback(w) =>
      CallbackProgress(s, w);
      MoveProgress(CallbackClaim(s, w), c, AqInline(w));
    case AqInline(w) => MoveProgress(s, c, AqMark(w));
    case AqMark(w) => MarkProgress(s, c, w);
    case AqResume(_, _) => EndProgress(s, c);
  }

  /** A claim and what follows it are paid for by the waiter; a pop by the queue; a unit by the call. */
  lemma ReleaseProgress(s: State)
    requires GuardOk(s) && ReleaseEnabled(s) && (s.guard.SClaiming? ==> SlotOk(s.waiters[s.guard.w].slot))
    ensures StepsLeft(ReleaseStep(s)) < StepsLeft(s)
  {
    match s.guard
    case SLoop(_) =>
    case SClaiming(_, w) => SetSlotLeft(s, w, Win(s.waiters[w].slot, false));
    case SDeciding(_, w) => SetSlotLeft(s, w, Decide(s.waiters[w].slot));
  }

  lemma ResumeProgress(s: State, c: nat)
    ensures StepsLeft(ResumeHandle(s, c)) <= StepsLeft(s) && ResumeHandle(s, c).waiters == s.waiters
  {
    if c < |s.cos| && s.cos[c].AqParked? { MoveProgress(s, c, AqResume(false, Some(s.cos[c].w))); }
  }

  lemma WinnerProgress(s: State, w: nat)
    requires WinnerEnabled(s, w) && SlotOk(s.waiters[w].slot)
    ensures StepsLeft(WinnerStep(s, w)) < StepsLeft(s)
  {
    var t := s.waiters[w].slot;
    match t.claim.stage
    case Won => SetSlotLeft(s, w, Store(t));
    case Stored => SetSlotLeft(s, w, Decide(t));
    case Owes =>
      ResumeProgress(s, s.waiters[w].co);
      SetSlotLeft(ResumeHandle(s, s.waiters[w].co), w, Pay(t));
  }

  // ---- the promises ----

  /** Every internal step but a callback's brings the end nearer. */
  lemma CallProgress(s: State, st: Step, initial: int)
    requires Inv(s, initial) && Enabled(s, st) && (st.Coroutine? || st.Release? || st.Winner?)
    ensures StepsLeft(Apply(s, st)) < StepsLeft(s)
  {
    match st
    case Coroutine(c) =>
      assert s.cos[c].AqCallback? ==> WaiterOk(s, s.cos[c].w);
      CoProgress(s, c);
    case Release =>
      assert s.guard.SClaiming? ==> WaiterOk(s, s.guard.w);
      ReleaseProgress(s);
    case Winner(w) =>
      assert WaiterOk(s, w);
      WinnerProgress(s, w);
  }

  /** A callback's does so too, unless it has lost the waiter and changes nothing. */
  lemma StepProgress(s: State, st: Step, initial: int)
    requires Inv(s, initial) && Enabled(s, st) && Internal(st) && Apply(s, st) != s
    ensures StepsLeft(Apply(s, st)) < StepsLeft(s)
  {
    if st.Callback? {
      assert WaiterOk(s, st.w);
      CallbackProgress(s, st.w);
    } else {
      CallProgress(s, st, initial);
    }
  }

  /** A stretch of a run in which user code makes no call and every step changes something. */
  ghost predicate InternalNext(s: State, s': State) {
    exists st :: Enabled(s, st) && Internal(st) && s' == Apply(s, st) && s' != s
  }

  ghost predicate IsInternalRun(run: seq<State>) {
    run != [] && forall i :: 0 <= i < |run| - 1 ==> InternalNext(run[i], run[i + 1])
  }

  lemma InternalNextInv(s: State, s': State, initial: int)
    requires Inv(s, initial) && InternalNext(s, s')
    ensures Inv(s', initial) && StepsLeft(s') < StepsLeft(s)
  {
    var st :| Enabled(s, st) && Internal(st) && s' == Apply(s, st) && s' != s;
    StepInv(s, st, initial);
    StepProgress(s, st, initial);
  }

  /** However the parties are scheduled, at most StepsLeft(s) internal steps can follow s. */
  lemma {:induction false} InternalRunsAreBounded(run: seq<State>, initial: int)
    requires IsInternalRun(run) && Inv(run[0], initial)
    ensures Inv(run[|run| - 1], initial)
    ensures |run| - 1 + StepsLeft(run[|run| - 1]) <= StepsLeft(run[0])
  {
    if |run| > 1 {
      var prefix, a, b := run[..|run| - 1], run[|run| - 2], run[|run| - 1];
      assert prefix[0] == run[0] && prefix[|prefix| - 1] == a && InternalNext(a, b);
      InternalRunsAreBounded(prefix, initial);
      InternalNextInv(a, b, initial);
    }
  }

  lemma StuckStep(s: State, st: Step, initial: int)
    requires Inv(s, initial) && (st.Coroutine? || st.Release? || st.Winner?) && forall s' :: !InternalNext(s, s')
    ensures !Enabled(s, st)
  {
    assert Enabled(s, st) ==> !InternalNext(s, Apply(s, st));
    if Enabled(s, st) { CallProgress(s, st, initial); }
  }

  /** A state that no internal step changes is one in which no call is in progress. */
  lemma StuckIsQuiescent(s: State, initial: int)
    requires Inv(s, initial) && forall s' :: !InternalNext(s, s')
    ensures Quiescent(s)
  {
    StuckStep(s, Release, initial);
    assert !ReleaseEnabled(s);
    forall c | 0 <= c < |s.cos| ensures !CoEnabled(s, c) { StuckStep(s, Coroutine(c), initial); }
    forall w | 0 <= w < |s.waiters| ensures !WinnerEnabled(s, w) { StuckStep(s, Winner(w), initial); }
  }

  /** As long as a requested cancellation has not reached its coroutine, the library has a step left. */
  lemma IgnoredGoesOn(s: State, initial: int, max: nat, c: nat)
    requires Reachable(s, initial, max) && Ignored(s, c)
    ensures exists s' :: InternalNext(s, s')
  {
    RequestReaches(s, initial, max, c);
    assert Apply(s, Callback(s.cos[c].w)) != s;
    assert InternalNext(s, Apply(s, Callback(s.cos[c].w)));
  }

  /** From every reachable state the library alone gets to a state where no call is in progress and every
      requested cancellation has reached its coroutine. With NothingStranded, each coroutine is then in user
      code, or waits unclaimed, its token not requested, while there is no permit. */
  lemma Settles(s: State, initial: int, max: nat) returns (run: seq<State>)
    requires Reachable(s, initial, max)
    ensures IsInternalRun(run) && run[0] == s && |run| - 1 <= StepsLeft(s)
    ensures Reachable(run[|run| - 1], initial, max)
    ensures Quiescent(run[|run| - 1]) && NoneIgnored(run[|run| - 1])
    decreases StepsLeft(s)
  {
    ReachableInv(s, initial, max);
    if exists s' :: InternalNext(s, s') {
      var s' :| InternalNext(s, s');
      InternalNextInv(s, s', initial);
      ReachableNext(s, s', initial, max);
      var rest := Settles(s', initial, max);
      run := Prepend(s, rest);
    } else {
      run := [s];
      StuckIsQuiescent(s, initial);
      forall c | 0 <= c < |s.cos| ensures !Ignored(s, c) { if Ignored(s, c) { IgnoredGoesOn(s, initial, max, c); } }
    }
  }

  lemma Prepend(s: State, rest: seq<State>) returns (run: seq<State>)
    requires IsInternalRun(rest) && InternalNext(s, rest[0])
    ensures run == [s] + rest && IsInternalRun(run) && run[0] == s && run[|run| - 1] == rest[|rest| - 1]
  {
    run := [s] + rest;
    assert forall i :: 0 < i < |run| ==> run[i] == rest[i - 1];
  }

  lemma ReachableNext(s: State, s': State, initial: int, max: nat)
    requires Reachable(s, initial, max) && InternalNext(s, s')
    ensures Reachable(s', initial, max)
  {
    var run :| IsRun(run, initial, max) && run[|run| - 1] == s;
    var longer := run + [s'];
    assert Next(s, s');
    assert forall i :: 0 <= i < |longer| - 1 ==> Next(longer[i], longer[i + 1]);
    assert IsRun(longer, initial, max) && longer[|longer| - 1] == s';
  }
}
