/** The step machine refines a simple one: an optional owner, a FIFO of coroutines that want the
    lock, and a FIFO of coroutines that wait to be notified. */
module LockRefinement {
  import opened Basics
  import opened Handshake
  import opened LockModel
  import opened LockInvariant
  import opened LockSteps

  datatype Abstract = Abstract(owner: Option<nat>, lockers: seq<nat>, sleepers: seq<nat>)

  datatype AbstractStep =
    | Stutter
    | Acquire(c: nat)              // takes a free lock that nobody is queueing for
    | Release(c: nat)              // the owner frees the lock, and nobody is queueing for it
    | HandOff(c: nat, d: nat)      // the owner passes the lock to the oldest in the queue
    | JoinLock(c: nat)             // queues for a held lock
    | LeaveLock(i: nat)            // cancelled while queueing for the lock
    | JoinWait(c: nat)             // the owner starts to wait
    | Awaken(d: nat)               // the oldest sleeper is notified
    | LeaveWait(i: nat)            // cancelled while waiting to be notified

  predicate AbsEnabled(a: Abstract, st: AbstractStep) {
    match st
    case Stutter => true
    case Acquire(_) => a.owner.None? && a.lockers == []
    case Release(c) => a.owner == Some(c) && a.lockers == []
    case HandOff(c, d) => a.owner == Some(c) && a.lockers != [] && a.lockers[0] == d
    case JoinLock(_) => a.owner.Some?
    case LeaveLock(i) => i < |a.lockers|
    case JoinWait(c) => a.owner == Some(c)
    case Awaken(d) => a.sleepers != [] && a.sleepers[0] == d
    case LeaveWait(i) => i < |a.sleepers|
  }

  function AbsApply(a: Abstract, st: AbstractStep): Abstract
    requires AbsEnabled(a, st)
  {
    match st
    case Stutter => a
    case Acquire(c) => a.(owner := Some(c))
    case Release(_) => a.(owner := None)
    case HandOff(_, d) => a.(owner := Some(d), lockers := a.lockers[1..])
    case JoinLock(c) => a.(lockers := a.lockers + [c])
    case LeaveLock(i) => a.(lockers := a.lockers[..i] + a.lockers[i + 1..])
    case JoinWait(c) => a.(sleepers := a.sleepers + [c])
    case Awaken(_) => a.(sleepers := a.sleepers[1..])
    case LeaveWait(i) => a.(sleepers := a.sleepers[..i] + a.sleepers[i + 1..])
  }

  function Entries(ws: seq<Waiter>): (es: seq<Entry>)
    ensures |es| == |ws| && forall u :: 0 <= u < |ws| ==> es[u] == Entry(ws[u].co, ws[u].slot.resumed)
  {
    seq(|ws|, u requires 0 <= u < |ws| => Entry(ws[u].co, ws[u].slot.resumed))
  }

  /** The mutex queue, with a waiter in hand as its front. */
  function LockQueue(s: State): seq<nat> { if s.mguard.MClaiming? then [s.mguard.w] + s.mq else s.mq }

  function WaitQueue(s: State): seq<nat> { if s.cguard.CClaiming? then [s.cguard.w] + s.cq else s.cq }

  function View(s: State): Abstract {
    Abstract(s.owner, Live(Entries(s.waiters), LockQueue(s)), Live(Entries(s.waiters), WaitQueue(s)))
  }

  function CallbackEffect(s: State, w: nat): AbstractStep
    requires w < |s.waiters|
  {
    if s.waiters[w].slot.resumed then Stutter
    else if s.waiters[w].kind == LockWaiter then LeaveLock(Rank(Entries(s.waiters), LockQueue(s), w))
    else LeaveWait(Rank(Entries(s.waiters), WaitQueue(s), w))
  }

  /** Where each concrete step takes effect: at a claim, at a write of `locked_` or at an enqueue. */
  function Effect(s: State, st: Step): AbstractStep
    requires Enabled(s, st)
  {
    match st
    case TryLock(c) => if s.locked then Stutter else Acquire(c)
    case Callback(w) => CallbackEffect(s, w)
    case Coroutine(c) =>
      (match s.cos[c]
       case LkTry(_) => if s.locked then Stutter else Acquire(c)
       case LkEnqueue(_) => if s.locked then JoinLock(c) else Acquire(c)
       case LkCallback(w) => CallbackEffect(s, w)
       case CvEnqueue(_) => JoinWait(c)
       case CvCallback(v) => CallbackEffect(s, v)
       case CvRelock(_) => if s.locked then JoinLock(c) else Acquire(c)
       case _ => Stutter)
    case Unlock =>
      (match s.mguard
       case MPopping(c) => if s.mq == [] then Release(c) else Stutter
       case MClaiming(c, w) => if s.waiters[w].slot.resumed then Stutter else HandOff(c, s.waiters[w].co)
       case MDeciding(_) => Stutter)
    case Notify =>
      (match s.cguard
       case CPopping(_, _) => Stutter
       case CClaiming(_, w) => if s.waiters[w].slot.resumed then Stutter else Awaken(s.waiters[w].co))
    case Winner(w) =>
      var x := s.waiters[w];
      if x.slot.claim.stage == Owes && x.kind == WaitWaiter && x.relay.NotYet? then
        if s.locked then JoinLock(x.co) else Acquire(x.co)
      else Stutter
    case _ => Stutter
  }

  // ---- the view of a state ----

  /** A step that claims nothing and does not change a queue leaves the view alone. */
  lemma SameView(s: State, s': State)
    requires |s.waiters| <= |s'.waiters|
    requires forall u :: u in LockQueue(s) || u in WaitQueue(s) ==> u < |s.waiters|
    requires LockQueue(s') == LockQueue(s) && WaitQueue(s') == WaitQueue(s) && s'.owner == s.owner
    requires forall u :: 0 <= u < |s.waiters| ==>
      s'.waiters[u].co == s.waiters[u].co && s'.waiters[u].slot.resumed == s.waiters[u].slot.resumed
    ensures View(s') == View(s)
  {
    LiveSame(Entries(s.waiters), Entries(s'.waiters), LockQueue(s));
    LiveSame(Entries(s.waiters), Entries(s'.waiters), WaitQueue(s));
  }

  lemma QueueFacts(s: State)
    requires Inv(s)
    ensures NoDup(LockQueue(s)) && NoDup(WaitQueue(s))
    ensures forall u :: u in LockQueue(s) <==> Queued(s, u, LockWaiter)
    ensures forall u :: u in WaitQueue(s) <==> Queued(s, u, WaitWaiter)
    ensures forall u :: u in LockQueue(s) ==> IsKind(s, u, LockWaiter)
    ensures forall u :: u in WaitQueue(s) ==> IsKind(s, u, WaitWaiter)
  {
  }

  lemma CallbackRefines(s: State, w: nat)
    requires Inv(s) && w < |s.waiters|
    ensures AbsEnabled(View(s), CallbackEffect(s, w))
    ensures View(CallbackClaim(s, w)) == AbsApply(View(s), CallbackEffect(s, w))
  {
    assert WaiterOk(s, w);
    QueueFacts(s);
    if !s.waiters[w].slot.resumed {
      var ws' := s.waiters[w := s.waiters[w].(slot := Win(s.waiters[w].slot, true))];
      assert CallbackClaim(s, w) == s.(waiters := ws');
      ClaimInQueues(s.waiters, ws', LockQueue(s), WaitQueue(s), w, s.waiters[w].kind == LockWaiter);
    }
  }

  lemma ClaimInQueues(ws: seq<Waiter>, ws': seq<Waiter>, lq: seq<nat>, wq: seq<nat>, w: nat, locker: bool)
    requires NoDup(lq) && NoDup(wq) && w < |ws| && |ws'| == |ws| && ws' == ws[w := ws'[w]]
    requires !ws[w].slot.resumed && ws'[w].slot.resumed && ws'[w].co == ws[w].co
    requires forall u :: u in lq || u in wq ==> u < |ws|
    requires if locker then w in lq && w !in wq else w in wq && w !in lq
    ensures var q, k := if locker then lq else wq, Rank(Entries(ws), if locker then lq else wq, w);
      k < |Live(Entries(ws), q)| && Live(Entries(ws'), q) == Live(Entries(ws), q)[..k] + Live(Entries(ws), q)[k + 1..]
    ensures Live(Entries(ws'), if locker then wq else lq) == Live(Entries(ws), if locker then wq else lq)
  {
    LiveClaim(Entries(ws), Entries(ws'), if locker then lq else wq, w);
    LiveSame(Entries(ws), Entries(ws'), if locker then wq else lq);
  }

  lemma PushLockRefines(s: State, s': State, c: nat)
    requires Inv(s) && s.locked && s'.owner == s.owner && WaitQueue(s') == WaitQueue(s)
    requires LockQueue(s') == LockQueue(s) + [|s.waiters|]
    requires |s'.waiters| == |s.waiters| + 1
    requires s'.waiters[|s.waiters|].co == c && !s'.waiters[|s.waiters|].slot.resumed
    requires forall u :: 0 <= u < |s.waiters| ==>
      s'.waiters[u].co == s.waiters[u].co && s'.waiters[u].slot.resumed == s.waiters[u].slot.resumed
    ensures AbsEnabled(View(s), JoinLock(c)) && View(s') == AbsApply(View(s), JoinLock(c))
  {
    QueueFacts(s);
    LiveSame(Entries(s.waiters), Entries(s'.waiters), LockQueue(s));
    LiveSame(Entries(s.waiters), Entries(s'.waiters), WaitQueue(s));
    LivePush(Entries(s'.waiters), LockQueue(s), |s.waiters|);
  }

  lemma PushWaitRefines(s: State, c: nat)
    requires Inv(s) && c < |s.cos| && s.cos[c].CvEnqueue? && s.cguard.CFree?
    ensures AbsEnabled(View(s), JoinWait(c)) && View(CoStep(s, c)) == AbsApply(View(s), JoinWait(c))
  {
    var s' := CoStep(s, c);
    QueueFacts(s);
    assert s.owner == Some(c) <==> Owns(s, c);
    LiveSame(Entries(s.waiters), Entries(s'.waiters), LockQueue(s));
    LiveSame(Entries(s.waiters), Entries(s'.waiters), WaitQueue(s));
    LivePush(Entries(s'.waiters), WaitQueue(s), |s.waiters|);
  }

  lemma TakeRefines(s: State, s': State, c: nat)
    requires Inv(s) && !s.locked
    requires s'.owner == Some(c) && s'.mq == s.mq && s'.mguard == s.mguard && s'.cq == s.cq && s'.cguard == s.cguard
    requires |s'.waiters| == |s.waiters|
    requires forall u :: 0 <= u < |s.waiters| ==>
      s'.waiters[u].co == s.waiters[u].co && s'.waiters[u].slot.resumed == s.waiters[u].slot.resumed
    ensures AbsEnabled(View(s), Acquire(c)) && View(s') == AbsApply(View(s), Acquire(c))
  {
    QueueFacts(s);
    LiveSame(Entries(s.waiters), Entries(s'.waiters), LockQueue(s));
    LiveSame(Entries(s.waiters), Entries(s'.waiters), WaitQueue(s));
  }

  /** The oldest in one of the queues is claimed by a waker; the other queue does not hold it. */
  lemma ClaimFront(ws: seq<Waiter>, ws': seq<Waiter>, w: nat, rest: seq<nat>, other: seq<nat>)
    requires w < |ws| == |ws'| && ws' == ws[w := ws'[w]] && w !in rest && w !in other
    requires forall u :: u in rest || u in other ==> u < |ws|
    ensures Live(Entries(ws), [w] + rest)
         == if ws[w].slot.resumed then Live(Entries(ws'), rest) else [ws[w].co] + Live(Entries(ws'), rest)
    ensures Live(Entries(ws'), other) == Live(Entries(ws), other)
  {
    assert ([w] + rest)[1..] == rest;
    LiveSame(Entries(ws), Entries(ws'), rest);
    LiveSame(Entries(ws), Entries(ws'), other);
  }

  lemma ClaimedAlreadyRefines(s: State, c: nat, w: nat)
    requires Inv(s) && s.mguard == MClaiming(c, w) && UnlockEnabled(s) && s.waiters[w].slot.resumed
    ensures AbsEnabled(View(s), Effect(s, Unlock))
    ensures View(UnlockStep(s)) == AbsApply(View(s), Effect(s, Unlock))
  {
    assert ([w] + s.mq)[1..] == s.mq;
  }

  lemma HandOffRefines(s: State, c: nat, w: nat)
    requires Inv(s) && s.mguard == MClaiming(c, w) && UnlockEnabled(s) && !s.waiters[w].slot.resumed
    ensures AbsEnabled(View(s), Effect(s, Unlock))
    ensures View(UnlockStep(s)) == AbsApply(View(s), Effect(s, Unlock))
  {
    QueueFacts(s);
    assert s.owner == Some(c) <==> Owns(s, c);
    assert IsKind(s, w, LockWaiter);
    ClaimFront(s.waiters, UnlockStep(s).waiters, w, s.mq, WaitQueue(s));
  }

  lemma UnlockRefines(s: State)
    requires Inv(s) && UnlockEnabled(s)
    ensures AbsEnabled(View(s), Effect(s, Unlock))
    ensures View(UnlockStep(s)) == AbsApply(View(s), Effect(s, Unlock))
  {
    match s.mguard
    case MPopping(c) =>
      assert s.owner == Some(c) <==> Owns(s, c);
      if s.mq != [] { assert [s.mq[0]] + s.mq[1..] == s.mq; }
    case MClaiming(c, w) =>
      if s.waiters[w].slot.resumed { ClaimedAlreadyRefines(s, c, w); } else { HandOffRefines(s, c, w); }
    case MDeciding(w) =>
      QueueFacts(s);
      SameView(s, s.(waiters := s.waiters[w := s.waiters[w].(slot := Decide(s.waiters[w].slot))], mguard := MFree));
  }

  lemma AwakenRefines(s: State, w: nat)
    requires Inv(s) && s.cguard.CClaiming? && s.cguard.w == w && NotifyEnabled(s)
    ensures AbsEnabled(View(s), Effect(s, Notify))
    ensures View(NotifyStep(s)) == AbsApply(View(s), Effect(s, Notify))
  {
    QueueFacts(s);
    assert IsKind(s, w, WaitWaiter);
    ClaimFront(s.waiters, NotifyStep(s).waiters, w, s.cq, LockQueue(s));
  }

  lemma NotifyRefines(s: State)
    requires Inv(s) && NotifyEnabled(s)
    ensures AbsEnabled(View(s), Effect(s, Notify))
    ensures View(NotifyStep(s)) == AbsApply(View(s), Effect(s, Notify))
  {
    if s.cguard.CClaiming? {
      AwakenRefines(s, s.cguard.w);
    } else if s.cq != [] {
      assert [s.cq[0]] + s.cq[1..] == s.cq;
    }
  }

  ghost predicate QueuesUntouched(s: State, s': State) {
    && s'.owner == s.owner && s'.mq == s.mq && LockQueue(s') == LockQueue(s)
    && s'.cq == s.cq && s'.cguard == s.cguard
    && |s'.waiters| == |s.waiters|
    && forall u :: 0 <= u < |s.waiters| ==>
         s'.waiters[u].co == s.waiters[u].co && s'.waiters[u].slot.resumed == s.waiters[u].slot.resumed
  }

  lemma UntouchedByWaiter(s: State, w: nat, x: Waiter)
    requires w < |s.waiters| && x.co == s.waiters[w].co && x.slot.resumed == s.waiters[w].slot.resumed
    ensures QueuesUntouched(s, SetWaiter(s, w, x))
  {}

  lemma UntouchedTwice(s: State, s1: State, s2: State)
    requires QueuesUntouched(s, s1) && QueuesUntouched(s1, s2)
    ensures QueuesUntouched(s, s2)
  {}

  lemma QuietPay(s: State, s1: State, w: nat)
    requires QueuesUntouched(s, s1) && w < |s.waiters| && s1.waiters == s.waiters && s.waiters[w].slot.claim.Claimed?
    ensures QueuesUntouched(s, SetSlot(s1, w, Pay(s.waiters[w].slot)))
  {
    UntouchedByWaiter(s1, w, s1.waiters[w].(slot := Pay(s.waiters[w].slot)));
    UntouchedTwice(s, s1, SetSlot(s1, w, Pay(s.waiters[w].slot)));
  }

  lemma QuietPark(s: State, w: nat, m: nat)
    requires OwesMark(s, w, m)
    ensures QueuesUntouched(s, ParkFor(s, w, m))
  {
    var xm := s.waiters[m].(slot := Mark(s.waiters[m].slot));
    var s1 := SetWaiter(s, m, xm);
    var s2 := SetSlot(s1, w, Pay(s.waiters[w].slot));
    UntouchedByWaiter(s, m, xm);
    UntouchedByWaiter(s1, w, s.waiters[w].(slot := Pay(s.waiters[w].slot)));
    UntouchedTwice(s, s1, s2);
    UntouchedTwice(s, s2, ParkFor(s, w, m));
  }

  lemma QuietGot(s: State, w: nat, m: nat)
    requires OwesMark(s, w, m)
    ensures QueuesUntouched(s, GotFor(s, w, m))
  {
    var xm := s.waiters[m].(slot := Mark(s.waiters[m].slot));
    UntouchedByWaiter(s, m, xm);
    UntouchedByWaiter(SetWaiter(s, m, xm), w, s.waiters[w].(relay := HasLock));
    UntouchedTwice(s, SetWaiter(s, m, xm), GotFor(s, w, m));
  }

  lemma QuietWinner(s: State, w: nat)
    requires Inv(s) && WinnerEnabled(s, w) && !OwesRelock(s.waiters[w])
    ensures QueuesUntouched(s, WinnerStep(s, w))
  {
    var x := s.waiters[w];
    if Undecided(x.slot) {
      UntouchedByWaiter(s, w, x.(slot := Proceed(x.slot)));
    } else if OwesResume(x) {
      QuietPay(s, ResumeHandle(s, x.co), w);
    } else {
      MarkFacts(s, w, x.relay.m);
      QuietPark(s, w, x.relay.m);
      QuietGot(s, w, x.relay.m);
    }
  }

  lemma WinnerRefines(s: State, w: nat)
    requires Inv(s) && WinnerEnabled(s, w)
    ensures AbsEnabled(View(s), Effect(s, Winner(w)))
    ensures View(WinnerStep(s, w)) == AbsApply(View(s), Effect(s, Winner(w)))
  {
    var x, s' := s.waiters[w], WinnerStep(s, w);
    QueueFacts(s);
    if !OwesRelock(x) {
      QuietWinner(s, w);
      SameView(s, s');
    } else if s.locked {
      PushLockRefines(s, s', x.co);
    } else {
      TakeRefines(s, s', x.co);
    }
  }

  predicate MayTouchQueues(p: Pc) {
    p.LkTry? || p.LkEnqueue? || p.LkCallback? || p.CvEnqueue? || p.CvCallback? || p.CvRelock?
  }

  lemma QuietBeforeParking(s: State, c: nat)
    requires CoEnabled(s, c) && !MayTouchQueues(s.cos[c]) && BeforeParking(s.cos[c])
    ensures QueuesUntouched(s, CoStep(s, c))
  {}

  lemma QuietMark(s: State, c: nat, w: nat, parked: Pc, declined: Pc)
    requires c < |s.cos| && w < |s.waiters|
    ensures QueuesUntouched(s, MarkStep(s, c, w, parked, declined))
  {
    UntouchedByWaiter(s, w, s.waiters[w].(slot := Mark(s.waiters[w].slot)));
    UntouchedTwice(s, SetSlot(s, w, Mark(s.waiters[w].slot)), MarkStep(s, c, w, parked, declined));
  }

  lemma QuietEnd(s: State, c: nat, ow: Option<nat>, threw: bool, p: Pc)
    requires c < |s.cos|
    ensures QueuesUntouched(s, SetCo(Record(s, ow, threw), c, p))
  {
    if ow.Some? && ow.value < |s.waiters| {
      UntouchedByWaiter(s, ow.value, s.waiters[ow.value].(outcome := Some(threw)));
    }
    UntouchedTwice(s, Record(s, ow, threw), SetCo(Record(s, ow, threw), c, p));
  }

  lemma QuietOtherwise(s: State, c: nat)
    requires CoEnabled(s, c) && !MayTouchQueues(s.cos[c]) && !BeforeParking(s.cos[c])
    ensures QueuesUntouched(s, CoStep(s, c))
  {
    match s.cos[c]
    case LkMark(w) => QuietMark(s, c, w, LkParked(w), LkResume(false, Some(w)));
    case CvRelockMark(v, m) => QuietMark(s, c, m, CvRelockParked(v, m), CvResume(false, Some(v)));
    case LkResume(immediate, ow) => QuietEnd(s, c, ow, Throws(s, immediate, ow), Run(!Throws(s, immediate, ow)));
    case CvResume(immediate, ow) => QuietEnd(s, c, ow, Throws(s, immediate, ow), Run(true));
    case _ =>
  }

  lemma QueueingRefines(s: State, c: nat)
    requires Inv(s) && CoEnabled(s, c)
    requires s.cos[c].LkTry? || s.cos[c].LkEnqueue? || s.cos[c].CvRelock?
    ensures AbsEnabled(View(s), Effect(s, Coroutine(c)))
    ensures View(CoStep(s, c)) == AbsApply(View(s), Effect(s, Coroutine(c)))
  {
    var s' := CoStep(s, c);
    QueueFacts(s);
    if !s.locked {
      TakeRefines(s, s', c);
    } else if s.cos[c].LkTry? {
      SameView(s, s');
    } else {
      PushLockRefines(s, s', c);
    }
  }

  lemma InlineCallbackSteps(s: State, c: nat, w: nat, p: Pc)
    requires CoEnabled(s, c) && w < |s.waiters|
    requires (s.cos[c] == LkCallback(w) && p == LkInline(w)) || (s.cos[c] == CvCallback(w) && p == CvInline(w))
    ensures CoStep(s, c) == SetCo(CallbackClaim(s, w), c, p)
    ensures Effect(s, Coroutine(c)) == CallbackEffect(s, w)
  {}

  lemma InlineCallbackRefines(s: State, c: nat, w: nat, p: Pc)
    requires Inv(s) && CoEnabled(s, c) && w < |s.waiters|
    requires (s.cos[c] == LkCallback(w) && p == LkInline(w)) || (s.cos[c] == CvCallback(w) && p == CvInline(w))
    ensures AbsEnabled(View(s), Effect(s, Coroutine(c)))
    ensures View(CoStep(s, c)) == AbsApply(View(s), Effect(s, Coroutine(c)))
  {
    InlineCallbackSteps(s, c, w, p);
    CallbackRefines(s, w);
    MovesUnseen(CallbackClaim(s, w), c, p);
  }

  lemma MovesUnseen(s: State, c: nat, p: Pc)
    requires c < |s.cos|
    ensures View(SetCo(s, c, p)) == View(s)
  {}

  lemma CoroutineRefines(s: State, c: nat)
    requires Inv(s) && CoEnabled(s, c)
    ensures AbsEnabled(View(s), Effect(s, Coroutine(c)))
    ensures View(CoStep(s, c)) == AbsApply(View(s), Effect(s, Coroutine(c)))
  {
    QueueFacts(s);
    if !MayTouchQueues(s.cos[c]) {
      if BeforeParking(s.cos[c]) { QuietBeforeParking(s, c); } else { QuietOtherwise(s, c); }
      SameView(s, CoStep(s, c));
    } else if s.cos[c].LkCallback? {
      InlineCallbackRefines(s, c, s.cos[c].w, LkInline(s.cos[c].w));
    } else if s.cos[c].CvCallback? {
      InlineCallbackRefines(s, c, s.cos[c].v, CvInline(s.cos[c].v));
    } else if s.cos[c].CvEnqueue? {
      PushWaitRefines(s, c);
    } else {
      QueueingRefines(s, c);
    }
  }

  /** Every concrete step is a stutter or one abstract step. */
  lemma StepRefines(s: State, st: Step)
    requires Inv(s) && Enabled(s, st)
    ensures AbsEnabled(View(s), Effect(s, st))
    ensures View(Apply(s, st)) == AbsApply(View(s), Effect(s, st))
  {
    match st
    case Coroutine(c) => CoroutineRefines(s, c);
    case Callback(w) => CallbackRefines(s, w);
    case Unlock => UnlockRefines(s);
    case Notify => NotifyRefines(s);
    case Winner(w) => WinnerRefines(s, w);
    case TryLock(c) => if !s.locked { TakeRefines(s, Apply(s, st), c); }
    case _ =>
  }
}
