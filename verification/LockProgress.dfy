/** The library's own steps run out: between two calls from user code only boundedly many steps of the
    mutex, the condition variable and their cancel callbacks are possible, and when they have all been
    taken nobody is stranded. */
module LockProgress {
  import opened Basics
  import opened Handshake
  import opened LockModel
  import opened LockInvariant
  import opened LockSteps
  import opened LockTheorems
  import opened LockCancellation

  /** A step inside a call that user code has made, or inside a cancel callback. */
  predicate Internal(st: Step) { st.Callback? || st.Coroutine? || st.Unlock? || st.Notify? || st.Winner? }

  // ---- how many steps are left ----

  function PcLeft(p: Pc): nat {
    match p
    case Run(_) => 0
    case Unlocking(next) => if next.None? then 3 else 1
    case LkResume(_, _) => 1
    case LkParked(_) => 2
    case LkMark(_) => 3
    case LkInline(_) => 4
    case LkCallback(_) => 5
    case LkRegister(_) => 6
    case LkEnqueue(_) => 16
    case LkCheck(_) => 17
    case LkTry(_) => 18
    case LkReady(_) => 19
    case CvResume(_, _) => 1
    case CvRelockParked(_, _) => 2
    case CvParked(_) => 3
    case CvRelockMark(_, _) => 3
    case CvRelock(_) => 13
    case CvMark(_) => 14
    case CvInline(_) => 15
    case CvCallback(_) => 16
    case CvRegister(_) => 17
    case CvUnlock(_, next) => if next.None? then 20 else 18
    case CvEnqueue(_) => 42
    case CvCheck(_) => 43
    case CvReady(_) => 44
  }

  function WaiterLeft(x: Waiter): nat {
    ClaimLeft(x.slot.claim)
    + if x.kind == LockWaiter then 0
      else match x.relay
           case NotYet => 12
           case Pushed(_) => 2
           case HasLock => 1
  }

  function GuardsLeft(s: State): nat {
    (match s.mguard
     case MFree => 1
     case MPopping(_) => 0
     case MClaiming(_, _) => 1
     case MDeciding(_) => 0)
    + (match s.cguard
       case CFree => 0
       case CPopping(_, _) => 1
       case CClaiming(_, _) => 2)
  }

  function StepsLeft(s: State): nat {
    Total(s.cos, PcLeft) + Total(s.waiters, WaiterLeft) + 2 * |s.mq| + 2 * |s.cq| + GuardsLeft(s)
  }

  lemma SetWaiterLeft(s: State, w: nat, x: Waiter)
    requires w < |s.waiters|
    ensures StepsLeft(SetWaiter(s, w, x)) == StepsLeft(s) - WaiterLeft(s.waiters[w]) + WaiterLeft(x)
  {
    TotalChanges(s.waiters, WaiterLeft, w, x);
  }

  /** A mark by the coroutine does not change what is left for the waiter. */
  lemma MarkLeaves(x: Waiter)
    ensures WaiterLeft(x.(slot := Mark(x.slot))) == WaiterLeft(x)
  {}

  lemma MoveProgress(s: State, c: nat, p: Pc)
    requires c < |s.cos| && PcLeft(p) < PcLeft(s.cos[c])
    ensures StepsLeft(SetCo(s, c, p)) < StepsLeft(s)
  {
    TotalChanges(s.cos, PcLeft, c, p);
  }

  lemma MarkProgress(s: State, c: nat, w: nat, parked: Pc, declined: Pc)
    requires c < |s.cos| && w < |s.waiters| && PcLeft(parked) < PcLeft(s.cos[c]) && PcLeft(declined) < PcLeft(s.cos[c])
    ensures StepsLeft(MarkStep(s, c, w, parked, declined)) < StepsLeft(s)
  {
    var x := s.waiters[w].(slot := Mark(s.waiters[w].slot));
    MarkLeaves(s.waiters[w]);
    SetWaiterLeft(s, w, x);
    MoveProgress(SetWaiter(s, w, x), c, if s.waiters[w].slot.phase == Waiting then parked else declined);
  }

  lemma RegisterProgress(s: State, c: nat, w: nat, mark: Pc, callback: Pc)
    requires c < |s.cos| && w < |s.waiters| && PcLeft(mark) < PcLeft(s.cos[c]) && PcLeft(callback) < PcLeft(s.cos[c])
    ensures StepsLeft(Register(s, c, w, mark, callback)) < StepsLeft(s)
  {
    if s.waiters[w].tok.None? {
      MoveProgress(s, c, mark);
    } else if Requested(s, s.waiters[w].tok) {
      MoveProgress(s, c, callback);
    } else {
      SetWaiterLeft(s, w, s.waiters[w].(registered := true));
      MoveProgress(SetWaiter(s, w, s.waiters[w].(registered := true)), c, mark);
    }
  }

  lemma CallbackProgress(s: State, w: nat)
    requires w < |s.waiters| && WaiterOk(s, w)
    ensures StepsLeft(CallbackClaim(s, w)) <= StepsLeft(s)
    ensures CallbackClaim(s, w) != s ==> StepsLeft(CallbackClaim(s, w)) < StepsLeft(s)
  {
    SetWaiterLeft(s, w, s.waiters[w].(slot := Win(s.waiters[w].slot, true)));
  }

  /** lock_or_enqueue and enqueue_waiter: a new waiter brings 8 steps. */
  lemma PushProgress(s: State, c: nat, tok: Option<nat>, p: Pc)
    requires c < |s.cos| && PcLeft(p) + 8 < PcLeft(s.cos[c])
    ensures StepsLeft(SetCo(PushLock(s, c, tok), c, p)) < StepsLeft(s)
  {
    TotalAdded(s.waiters, WaiterLeft, NewWaiter(LockWaiter, c, tok));
    TotalChanges(s.cos, PcLeft, c, p);
  }

  lemma EndProgress(s: State, c: nat, ow: Option<nat>, threw: bool, p: Pc)
    requires c < |s.cos| && PcLeft(p) < PcLeft(s.cos[c])
    ensures StepsLeft(SetCo(Record(s, ow, threw), c, p)) < StepsLeft(s)
  {
    if ow.Some? && ow.value < |s.waiters| {
      SetWaiterLeft(s, ow.value, s.waiters[ow.value].(outcome := Some(threw)));
    }
    MoveProgress(Record(s, ow, threw), c, p);
  }

  lemma LockBeginProgress(s: State, c: nat)
    requires CoEnabled(s, c) && BeforeLocking(s.cos[c])
    ensures StepsLeft(CoStep(s, c)) < StepsLeft(s)
  {
    match s.cos[c]
    case Unlocking(next) => if next.Some? { MoveProgress(s, c, Run(false)); }
    case LkReady(tok) => MoveProgress(s, c, if Requested(s, tok) then LkResume(true, None) else LkTry(tok));
    case LkTry(tok) =>
      if s.locked { MoveProgress(s, c, LkCheck(tok)); } else { MoveProgress(Take(s, c), c, LkResume(false, None)); }
    case LkCheck(tok) => MoveProgress(s, c, if Requested(s, tok) then LkResume(true, None) else LkEnqueue(tok));
    case LkEnqueue(tok) =>
      if s.locked { PushProgress(s, c, tok, LkRegister(|s.waiters|)); }
      else { MoveProgress(Take(s, c), c, LkResume(false, None)); }
  }

  lemma RelockCoProgress(s: State, c: nat)
    requires CoEnabled(s, c) && (s.cos[c].CvRelock? || s.cos[c].CvRelockMark?)
    ensures StepsLeft(CoStep(s, c)) < StepsLeft(s)
  {
    match s.cos[c]
    case CvRelock(v) =>
      if s.locked { PushProgress(s, c, None, CvRelockMark(v, |s.waiters|)); }
      else { MoveProgress(Take(s, c), c, CvResume(false, Some(v))); }
    case CvRelockMark(v, m) => MarkProgress(s, c, m, CvRelockParked(v, m), CvResume(false, Some(v)));
  }

  lemma LockCoProgress(s: State, c: nat)
    requires CoEnabled(s, c) && !BeforeParking(s.cos[c]) && !BeforeLocking(s.cos[c])
    requires s.cos[c].LkCallback? ==> WaiterOk(s, s.cos[c].w)
    ensures StepsLeft(CoStep(s, c)) < StepsLeft(s)
  {
    match s.cos[c]
    case LkRegister(w) => RegisterProgress(s, c, w, LkMark(w), LkCallback(w));
    case LkCallback(w) =>
      CallbackProgress(s, w);
      MoveProgress(CallbackClaim(s, w), c, LkInline(w));
    case LkInline(w) => MoveProgress(s, c, LkMark(w));
    case LkMark(w) => MarkProgress(s, c, w, LkParked(w), LkResume(false, Some(w)));
    case LkResume(immediate, ow) =>
      EndProgress(s, c, ow, Throws(s, immediate, ow), Run(!Throws(s, immediate, ow)));
    case CvResume(immediate, ow) => EndProgress(s, c, ow, Throws(s, immediate, ow), Run(true));
    case _ => RelockCoProgress(s, c);
  }

  lemma WaitEnqueueProgress(s: State, c: nat, tok: Option<nat>)
    requires c < |s.cos| && s.cos[c] == CvEnqueue(tok)
    ensures StepsLeft(SetCo(PushWait(s, c, tok), c, CvUnlock(|s.waiters|, None))) < StepsLeft(s)
  {
    TotalAdded(s.waiters, WaiterLeft, NewWaiter(WaitWaiter, c, tok));
    TotalChanges(s.cos, PcLeft, c, CvUnlock(|s.waiters|, None));
  }

  lemma WaitBeginProgress(s: State, c: nat)
    requires CoEnabled(s, c) && BeforeWaiting(s.cos[c])
    ensures StepsLeft(CoStep(s, c)) < StepsLeft(s)
  {
    match s.cos[c]
    case CvReady(tok) => MoveProgress(s, c, if Requested(s, tok) then CvResume(true, None) else CvCheck(tok));
    case CvCheck(tok) => MoveProgress(s, c, if Requested(s, tok) then CvResume(true, None) else CvEnqueue(tok));
    case CvEnqueue(tok) => WaitEnqueueProgress(s, c, tok);
    case CvUnlock(v, next) => if next.Some? { MoveProgress(s, c, CvRegister(v)); }
  }

  lemma WaitCoProgress(s: State, c: nat)
    requires CoEnabled(s, c) && BeforeParking(s.cos[c]) && !BeforeWaiting(s.cos[c])
    requires s.cos[c].CvCallback? ==> WaiterOk(s, s.cos[c].v)
    ensures StepsLeft(CoStep(s, c)) < StepsLeft(s)
  {
    match s.cos[c]
    case CvRegister(v) => RegisterProgress(s, c, v, CvMark(v), CvCallback(v));
    case CvCallback(v) =>
      CallbackProgress(s, v);
      MoveProgress(CallbackClaim(s, v), c, CvInline(v));
    case CvInline(v) => MoveProgress(s, c, CvMark(v));
    case CvMark(v) => MarkProgress(s, c, v, CvParked(v), CvRelock(v));
  }

  lemma CoProgress(s: State, c: nat)
    requires Inv(s) && CoEnabled(s, c)
    ensures StepsLeft(CoStep(s, c)) < StepsLeft(s)
  {
    assert s.cos[c].LkCallback? ==> WaiterOk(s, s.cos[c].w);
    assert s.cos[c].CvCallback? ==> WaiterOk(s, s.cos[c].v);
    if BeforeWaiting(s.cos[c]) {
      WaitBeginProgress(s, c);
    } else if BeforeParking(s.cos[c]) {
      WaitCoProgress(s, c);
    } else if BeforeLocking(s.cos[c]) {
      LockBeginProgress(s, c);
    } else {
      LockCoProgress(s, c);
    }
  }

  lemma UnlockEndProgress(s: State, c: nat)
    requires s.mguard == MPopping(c) && UnlockEnabled(s) && CallsUnlock(s, c) && s.mq == []
    ensures StepsLeft(UnlockStep(s)) < StepsLeft(s)
  {
    TotalChanges(s.cos, PcLeft, c, AfterUnlock(s.cos[c], None));
  }

  lemma UnlockClaimProgress(s: State, c: nat, w: nat)
    requires s.mguard == MClaiming(c, w) && UnlockEnabled(s) && CallsUnlock(s, c) && s.waiters[w].slot.claim.Nobody?
    ensures StepsLeft(UnlockStep(s)) < StepsLeft(s)
  {
    TotalChanges(s.waiters, WaiterLeft, w, s.waiters[w].(slot := Win(s.waiters[w].slot, false)));
    TotalChanges(s.cos, PcLeft, c, AfterUnlock(s.cos[c], Some(w)));
  }

  lemma UnlockProgress(s: State)
    requires Inv(s) && UnlockEnabled(s)
    ensures StepsLeft(UnlockStep(s)) < StepsLeft(s)
  {
    match s.mguard
    case MPopping(c) => if s.mq == [] { UnlockEndProgress(s, c); }
    case MClaiming(c, w) =>
      assert WaiterOk(s, w);
      if !s.waiters[w].slot.resumed { UnlockClaimProgress(s, c, w); }
    case MDeciding(w) =>
      assert WaiterOk(s, w);
      TotalChanges(s.waiters, WaiterLeft, w, s.waiters[w].(slot := Decide(s.waiters[w].slot)));
  }

  lemma NotifyProgress(s: State)
    requires Inv(s) && NotifyEnabled(s)
    ensures StepsLeft(NotifyStep(s)) < StepsLeft(s)
  {
    match s.cguard
    case CPopping(_, _) =>
    case CClaiming(_, w) =>
      assert WaiterOk(s, w);
      TotalChanges(s.waiters, WaiterLeft, w, s.waiters[w].(slot := Win(s.waiters[w].slot, false)));
  }

  lemma ResumeProgress(s: State, c: nat)
    ensures StepsLeft(ResumeHandle(s, c)) <= StepsLeft(s) && ResumeHandle(s, c).waiters == s.waiters
  {
    if c < |s.cos| {
      match s.cos[c]
      case LkParked(w) => MoveProgress(s, c, LkResume(false, Some(w)));
      case CvParked(v) => MoveProgress(s, c, CvResume(false, Some(v)));
      case CvRelockParked(v, _) => MoveProgress(s, c, CvResume(false, Some(v)));
      case _ =>
    }
  }

  lemma ProceedLess(x: Waiter)
    requires SlotOk(x.slot) && Undecided(x.slot)
    ensures WaiterLeft(x.(slot := Proceed(x.slot))) < WaiterLeft(x)
  {}

  lemma WinnerClaimProgress(s: State, w: nat)
    requires w < |s.waiters| && SlotOk(s.waiters[w].slot) && Undecided(s.waiters[w].slot)
    ensures StepsLeft(SetSlot(s, w, Proceed(s.waiters[w].slot))) < StepsLeft(s)
  {
    var x := s.waiters[w];
    ProceedLess(x);
    SetWaiterLeft(s, w, x.(slot := Proceed(x.slot)));
  }

  lemma WinnerResumeProgress(s: State, w: nat)
    requires w < |s.waiters| && s.waiters[w].slot.claim.Claimed? && s.waiters[w].slot.claim.stage == Owes
    ensures StepsLeft(SetSlot(ResumeHandle(s, s.waiters[w].co), w, Pay(s.waiters[w].slot))) < StepsLeft(s)
  {
    var x := s.waiters[w];
    ResumeProgress(s, x.co);
    SetWaiterLeft(ResumeHandle(s, x.co), w, x.(slot := Pay(x.slot)));
  }

  lemma RelockProgress(s: State, w: nat)
    requires w < |s.waiters| && OwesRelock(s.waiters[w])
    ensures StepsLeft(RelockFor(s, w)) < StepsLeft(s)
  {
    var x := s.waiters[w];
    if s.locked {
      var y := x.(relay := Pushed(|s.waiters|));
      SetWaiterLeft(s, w, y);
      TotalAdded(SetWaiter(s, w, y).waiters, WaiterLeft, NewWaiter(LockWaiter, x.co, None));
    } else {
      SetWaiterLeft(Take(s, x.co), w, x.(relay := HasLock));
    }
  }

  lemma PayLess(s: State, w: nat, p: Pc)
    requires w < |s.waiters| && s.waiters[w].slot.claim.Claimed? && s.waiters[w].slot.claim.stage == Owes
    requires s.waiters[w].co < |s.cos| && PcLeft(p) < PcLeft(s.cos[s.waiters[w].co])
    ensures StepsLeft(SetCo(SetSlot(s, w, Pay(s.waiters[w].slot)), s.waiters[w].co, p)) < StepsLeft(s)
  {
    var x := s.waiters[w];
    SetWaiterLeft(s, w, x.(slot := Pay(x.slot)));
    MoveProgress(SetSlot(s, w, Pay(x.slot)), x.co, p);
  }

  lemma ParkProgress(s: State, w: nat, m: nat)
    requires OwesMark(s, w, m)
    ensures StepsLeft(ParkFor(s, w, m)) < StepsLeft(s)
  {
    var xm := s.waiters[m].(slot := Mark(s.waiters[m].slot));
    MarkLeaves(s.waiters[m]);
    SetWaiterLeft(s, m, xm);
    PayLess(SetWaiter(s, m, xm), w, CvRelockParked(w, m));
  }

  lemma GotProgress(s: State, w: nat, m: nat)
    requires OwesMark(s, w, m)
    ensures StepsLeft(GotFor(s, w, m)) < StepsLeft(s)
  {
    var x, xm := s.waiters[w], s.waiters[m].(slot := Mark(s.waiters[m].slot));
    MarkLeaves(s.waiters[m]);
    SetWaiterLeft(s, m, xm);
    SetWaiterLeft(SetWaiter(s, m, xm), w, x.(relay := HasLock));
  }

  lemma WinnerProgress(s: State, w: nat)
    requires Inv(s) && WinnerEnabled(s, w)
    ensures StepsLeft(WinnerStep(s, w)) < StepsLeft(s)
  {
    var x := s.waiters[w];
    assert WaiterOk(s, w);
    if Undecided(x.slot) {
      WinnerClaimProgress(s, w);
    } else if OwesResume(x) {
      WinnerResumeProgress(s, w);
    } else if OwesRelock(x) {
      RelockProgress(s, w);
    } else {
      MarkFacts(s, w, x.relay.m);
      ParkProgress(s, w, x.relay.m);
      GotProgress(s, w, x.relay.m);
    }
  }

  // ---- the promises ----

  /** Every internal step that changes anything brings the end nearer. */
  lemma StepProgress(s: State, st: Step)
    requires Inv(s) && Enabled(s, st) && Internal(st) && Apply(s, st) != s
    ensures StepsLeft(Apply(s, st)) < StepsLeft(s)
  {
    match st
    case Coroutine(c) => CoProgress(s, c);
    case Callback(w) =>
      assert WaiterOk(s, w);
      CallbackProgress(s, w);
    case Unlock => UnlockProgress(s);
    case Notify => NotifyProgress(s);
    case Winner(w) => WinnerProgress(s, w);
    case _ =>
  }

  /** A stretch of a run in which user code makes no call and every step changes something. */
  ghost predicate InternalNext(s: State, s': State) {
    exists st :: Enabled(s, st) && Internal(st) && s' == Apply(s, st) && s' != s
  }

  ghost predicate IsInternalRun(run: seq<State>) {
    run != [] && forall i :: 0 <= i < |run| - 1 ==> InternalNext(run[i], run[i + 1])
  }

  lemma InternalNextInv(s: State, s': State)
    requires Inv(s) && InternalNext(s, s')
    ensures Inv(s') && StepsLeft(s') < StepsLeft(s)
  {
    var st :| Enabled(s, st) && Internal(st) && s' == Apply(s, st) && s' != s;
    StepInv(s, st);
    StepProgress(s, st);
  }

  /** However the parties are scheduled, at most StepsLeft(s) internal steps can follow s. */
  lemma {:induction false} InternalRunsAreBounded(run: seq<State>)
    requires IsInternalRun(run) && Inv(run[0])
    ensures Inv(run[|run| - 1])
    ensures |run| - 1 + StepsLeft(run[|run| - 1]) <= StepsLeft(run[0])
  {
    if |run| > 1 {
      var prefix, a, b := run[..|run| - 1], run[|run| - 2], run[|run| - 1];
      assert prefix[0] == run[0] && prefix[|prefix| - 1] == a && InternalNext(a, b);
      InternalRunsAreBounded(prefix);
      InternalNextInv(a, b);
    }
  }

  /** A state that no internal step changes is one in which no call is in progress. */
  lemma StuckIsQuiescent(s: State)
    requires Inv(s) && forall s' :: !InternalNext(s, s')
    ensures Quiescent(s)
  {
    forall st | Enabled(s, st) && Internal(st) ensures Apply(s, st) == s { assert !InternalNext(s, Apply(s, st)); }
    if UnlockEnabled(s) {
      assert Enabled(s, Unlock);
      UnlockProgress(s);
    }
    if NotifyEnabled(s) {
      assert Enabled(s, Notify);
      NotifyProgress(s);
    }
    forall c | 0 <= c < |s.cos| ensures !CoEnabled(s, c) {
      if CoEnabled(s, c) {
        assert Enabled(s, Coroutine(c));
        CoProgress(s, c);
      }
    }
    forall w | 0 <= w < |s.waiters| ensures !WinnerEnabled(s, w) {
      if WinnerEnabled(s, w) {
        assert Enabled(s, Winner(w));
        WinnerProgress(s, w);
      }
    }
  }

  /** As long as a requested cancellation has not reached its coroutine, the library has a step left. */
  lemma IgnoredGoesOn(s: State, c: nat)
    requires Reachable(s) && Ignored(s, c)
    ensures exists s' :: InternalNext(s, s')
  {
    var st := Callback(ParkedAt(s.cos[c]).value);
    RequestReaches(s, c);
    assert Apply(s, st) != s;
    assert InternalNext(s, Apply(s, st));
  }

  /** From every reachable state the library alone gets to a state where no call is in progress and every
      requested cancellation has reached its coroutine. With NothingStranded, each coroutine is then in user
      code, or waits unclaimed, its token not requested, for somebody who is. */
  lemma Settles(s: State) returns (run: seq<State>)
    requires Reachable(s)
    ensures IsInternalRun(run) && run[0] == s && |run| - 1 <= StepsLeft(s)
    ensures Reachable(run[|run| - 1]) && Quiescent(run[|run| - 1]) && NoneIgnored(run[|run| - 1])
    decreases StepsLeft(s)
  {
    ReachableInv(s);
    if exists s' :: InternalNext(s, s') {
      var s' :| InternalNext(s, s');
      InternalNextInv(s, s');
      ReachableNext(s, s');
      var rest := Settles(s');
      run := Prepend(s, rest);
    } else {
      run := [s];
      StuckIsQuiescent(s);
      forall c | 0 <= c < |s.cos| ensures !Ignored(s, c) { if Ignored(s, c) { IgnoredGoesOn(s, c); } }
    }
  }

  lemma Prepend(s: State, rest: seq<State>) returns (run: seq<State>)
    requires IsInternalRun(rest) && InternalNext(s, rest[0])
    ensures run == [s] + rest && IsInternalRun(run) && run[0] == s && run[|run| - 1] == rest[|rest| - 1]
  {
    run := [s] + rest;
    assert forall i :: 0 < i < |run| ==> run[i] == rest[i - 1];
  }

  lemma ReachableNext(s: State, s': State)
    requires Reachable(s) && InternalNext(s, s')
    ensures Reachable(s')
  {
    var run :| IsRun(run) && run[|run| - 1] == s;
    var longer := run + [s'];
    assert Next(s, s');
    assert forall i :: 0 <= i < |longer| - 1 ==> Next(longer[i], longer[i + 1]);
    assert IsRun(longer) && longer[|longer| - 1] == s';
  }
}
