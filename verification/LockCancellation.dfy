/** A cancellation request reaches every co_await that was given the token: while its coroutine may still be
    parked, a callback is registered that will claim its waiter; and nothing is cancelled without a request. */
module LockCancellation {
  import opened Basics
  import opened Handshake
  import opened LockModel
  import opened LockInvariant
  import opened LockSteps
  import opened LockTheorems
  import opened LockWaiters

  // ---- what cancellation relies on ----

  /** The waiter of a co_await that takes a token and has got past the registration. */
  function ListensAt(p: Pc): Option<nat> {
    match p
    case LkMark(w) => Some(w)
    case LkParked(w) => Some(w)
    case CvMark(v) => Some(v)
    case CvParked(v) => Some(v)
    case _ => None
  }

  /** The waiter whose callback the coroutine runs itself, or has just run. */
  function InlineAt(p: Pc): Option<nat> {
    match p
    case LkInline(w) => Some(w)
    case CvInline(v) => Some(v)
    case _ => None
  }

  function CallsBackAt(p: Pc): Option<nat> {
    match p
    case LkCallback(w) => Some(w)
    case CvCallback(v) => Some(v)
    case _ => None
  }

  predicate Cancelled(x: Waiter) { x.slot.claim.Claimed? && x.slot.claim.cancel }

  /** An unclaimed waiter has its callback registered by the time that its coroutine may park; it is not
      unclaimed after an inline callback; and only a request cancels. */
  predicate Listens(s: State, w: nat)
    requires w < |s.waiters|
  {
    var x := s.waiters[w];
    && x.co < |s.cos|
    && (!x.slot.resumed && x.tok.Some? && ListensAt(s.cos[x.co]) == Some(w) ==> x.registered)
    && (!x.slot.resumed ==> InlineAt(s.cos[x.co]) != Some(w))
    && (CallsBackAt(s.cos[x.co]) == Some(w) || Cancelled(x) ==> Requested(s, x.tok))
  }

  ghost predicate AllListen(s: State) {
    forall w {:trigger Listens(s, w)} :: 0 <= w < |s.waiters| ==> Listens(s, w)
  }

  // ---- where a coroutine can get by a step that is not its own ----

  /** The waiter that the place of a coroutine says something about here. */
  function About(p: Pc): Option<nat> {
    if ListensAt(p).Some? then ListensAt(p) else if InlineAt(p).Some? then InlineAt(p) else CallsBackAt(p)
  }

  predicate Calm(s: State, s': State, c: nat) {
    c < |s.cos| <= |s'.cos| && (s'.cos[c] == s.cos[c] || About(s'.cos[c]).None?)
  }

  lemma CoCount(s: State, d: nat)
    requires CoEnabled(s, d)
    ensures |CoStep(s, d).cos| == |s.cos|
  {}

  lemma WaitingOther(s: State, d: nat, c: nat)
    requires CoEnabled(s, d) && BeforeParking(s.cos[d]) && c < |s.cos| && c != d
    ensures c < |CoStep(s, d).cos| && CoStep(s, d).cos[c] == s.cos[c]
  {}

  lemma LockingOther(s: State, d: nat, c: nat)
    requires CoEnabled(s, d) && !BeforeParking(s.cos[d]) && c < |s.cos| && c != d
    ensures c < |CoStep(s, d).cos| && CoStep(s, d).cos[c] == s.cos[c]
  {}

  lemma CoOther(s: State, d: nat, c: nat)
    requires CoEnabled(s, d) && c < |s.cos| && c != d
    ensures c < |CoStep(s, d).cos| && CoStep(s, d).cos[c] == s.cos[c]
  {
    if BeforeParking(s.cos[d]) { WaitingOther(s, d, c); } else { LockingOther(s, d, c); }
  }

  lemma UnlockCalm(s: State, c: nat)
    requires UnlockEnabled(s) && c < |s.cos|
    ensures Calm(s, UnlockStep(s), c)
  {}

  lemma WinnerCalm(s: State, w: nat, c: nat)
    requires WinnerEnabled(s, w) && c < |s.cos|
    ensures Calm(s, WinnerStep(s, w), c)
  {
    ResumeCalm(s, s.waiters[w].co, c);
  }

  lemma ResumeCalm(s: State, d: nat, c: nat)
    requires c < |s.cos|
    ensures Calm(s, ResumeHandle(s, d), c)
  {}

  lemma MovedByOther(s: State, st: Step, c: nat)
    requires Enabled(s, st) && st != Coroutine(c) && c < |s.cos|
    ensures Calm(s, Apply(s, st), c)
  {
    match st
    case Coroutine(d) =>
      CoCount(s, d);
      CoOther(s, d, c);
    case Unlock => UnlockCalm(s, c);
    case Winner(w) => WinnerCalm(s, w, c);
    case _ =>
  }

  // ---- which steps cancel a waiter ----

  predicate NotCancelledNow(s: State, s': State, w: nat) {
    w < |s.waiters| <= |s'.waiters| && (Cancelled(s'.waiters[w]) ==> Cancelled(s.waiters[w]))
  }

  lemma WaitingCancels(s: State, c: nat, w: nat)
    requires CoEnabled(s, c) && BeforeParking(s.cos[c]) && w < |s.waiters| && CallsBackAt(s.cos[c]) != Some(w)
    ensures NotCancelledNow(s, CoStep(s, c), w)
  {}

  lemma LockingCancels(s: State, c: nat, w: nat)
    requires CoEnabled(s, c) && !BeforeParking(s.cos[c]) && w < |s.waiters| && CallsBackAt(s.cos[c]) != Some(w)
    ensures NotCancelledNow(s, CoStep(s, c), w)
  {}

  lemma CoCancels(s: State, c: nat, w: nat)
    requires CoEnabled(s, c) && w < |s.waiters| && CallsBackAt(s.cos[c]) != Some(w)
    ensures NotCancelledNow(s, CoStep(s, c), w)
  {
    if BeforeParking(s.cos[c]) { WaitingCancels(s, c, w); } else { LockingCancels(s, c, w); }
  }

  lemma UnlockCancels(s: State, w: nat)
    requires UnlockEnabled(s) && w < |s.waiters|
    ensures NotCancelledNow(s, UnlockStep(s), w)
  {}

  lemma ProceedCancels(s: State, u: nat, w: nat)
    requires u < |s.waiters| && s.waiters[u].slot.claim.Claimed? && w < |s.waiters|
    ensures NotCancelledNow(s, SetSlot(s, u, Proceed(s.waiters[u].slot)), w)
    ensures NotCancelledNow(s, SetSlot(ResumeHandle(s, s.waiters[u].co), u, Pay(s.waiters[u].slot)), w)
    ensures NotCancelledNow(s, RelockFor(s, u), w)
  {}

  lemma MarkedForCancels(s: State, u: nat, m: nat, w: nat)
    requires u < |s.waiters| && m < |s.waiters| && s.waiters[u].slot.claim.Claimed? && s.waiters[u].co < |s.cos|
    requires w < |s.waiters| && m != u
    ensures NotCancelledNow(s, ParkFor(s, u, m), w) && NotCancelledNow(s, GotFor(s, u, m), w)
  {}

  lemma WinnerCancels(s: State, u: nat, w: nat)
    requires WinnerEnabled(s, u) && w < |s.waiters|
    ensures NotCancelledNow(s, WinnerStep(s, u), w)
  {
    ProceedCancels(s, u, w);
    if s.waiters[u].relay.Pushed? && s.waiters[u].slot.claim.stage == Owes { MarkedForCancels(s, u, s.waiters[u].relay.m, w); }
  }

  lemma StepCancels(s: State, st: Step, w: nat)
    requires Enabled(s, st) && w < |s.waiters| && st != Callback(w)
    requires st.Coroutine? ==> CallsBackAt(s.cos[st.c]) != Some(w)
    ensures NotCancelledNow(s, Apply(s, st), w)
  {
    match st
    case Coroutine(c) => CoCancels(s, c, w);
    case Unlock => UnlockCancels(s, w);
    case Winner(u) => WinnerCancels(s, u, w);
    case _ =>
  }

  // ---- every step keeps it ----

  /** What the waiter itself must keep. */
  predicate Faithful(s: State, s': State, w: nat) {
    && w < |s.waiters| <= |s'.waiters| && s.requested <= s'.requested
    && var x, x' := s.waiters[w], s'.waiters[w];
    && x'.tok == x.tok && x'.co == x.co && (x.registered ==> x'.registered) && (x.slot.resumed ==> x'.slot.resumed)
    && (Cancelled(x') ==> Cancelled(x) || Requested(s, x.tok))
  }

  lemma StaysListening(s: State, s': State, w: nat)
    requires Faithful(s, s', w) && Listens(s, w) && s.waiters[w].co < |s'.cos|
    requires s'.cos[s.waiters[w].co] == s.cos[s.waiters[w].co] || About(s'.cos[s.waiters[w].co]) != Some(w)
    ensures Listens(s', w)
  {}

  /** Coroutine c moves from one place that says something about its waiter w to another. */
  lemma RegisterListens(s: State, c: nat, w: nat, mark: Pc, callback: Pc)
    requires c < |s.cos| && w < |s.waiters| && Registers(s.cos[c], w, mark, callback)
    requires s.waiters[w].co == c && Listens(s, w)
    ensures Listens(Register(s, c, w, mark, callback), w)
  {}

  lemma CallbackListens(s: State, c: nat, w: nat, p: Pc)
    requires c < |s.cos| && w < |s.waiters| && CallsBack(s.cos[c], w, p)
    requires s.waiters[w].co == c && Listens(s, w)
    ensures Listens(SetCo(CallbackClaim(s, w), c, p), w)
  {}

  lemma InlineListens(s: State, c: nat, w: nat, p: Pc)
    requires c < |s.cos| && w < |s.waiters| && InlineAt(s.cos[c]) == Some(w) && ListensAt(p) == Some(w)
    requires s.waiters[w].co == c && Listens(s, w)
    ensures Listens(SetCo(s, c, p), w)
  {}

  lemma MarkListens(s: State, c: nat, w: nat, parked: Pc, declined: Pc)
    requires c < |s.cos| && w < |s.waiters| && ListensAt(s.cos[c]) == Some(w)
    requires ListensAt(parked) == Some(w) && About(declined).None?
    requires s.waiters[w].co == c && SlotOk(s.waiters[w].slot) && Listens(s, w)
    ensures Listens(MarkStep(s, c, w, parked, declined), w)
  {}

  /** The steps between the enqueue and the park. */
  predicate Arriving(p: Pc) {
    || p.LkRegister? || p.LkCallback? || p.LkInline? || p.LkMark?
    || p.CvRegister? || p.CvCallback? || p.CvInline? || p.CvMark?
  }

  /** A coroutine comes to such a place only with the waiter it is deciding about. */
  lemma OwnMoves(s: State, c: nat)
    requires CoEnabled(s, c) && Arriving(s.cos[c])
    ensures var s' := CoStep(s, c); c < |s'.cos| && (About(s'.cos[c]).None? || About(s'.cos[c]) == DecidingAt(s.cos[c]))
  {}

  lemma ArrivingStep(s: State, c: nat, w: nat)
    requires CoEnabled(s, c) && w < |s.waiters| && s.waiters[w].co == c && SlotOk(s.waiters[w].slot) && Listens(s, w)
    requires Arriving(s.cos[c]) && DecidingAt(s.cos[c]) == Some(w)
    ensures w < |CoStep(s, c).waiters| && Listens(CoStep(s, c), w)
  {
    match s.cos[c]
    case LkRegister(_) => RegisterListens(s, c, w, LkMark(w), LkCallback(w));
    case LkCallback(_) => CallbackListens(s, c, w, LkInline(w));
    case LkInline(_) => InlineListens(s, c, w, LkMark(w));
    case LkMark(_) => MarkListens(s, c, w, LkParked(w), LkResume(false, Some(w)));
    case CvRegister(_) => RegisterListens(s, c, w, CvMark(w), CvCallback(w));
    case CvCallback(_) => CallbackListens(s, c, w, CvInline(w));
    case CvInline(_) => InlineListens(s, c, w, CvMark(w));
    case CvMark(_) => MarkListens(s, c, w, CvParked(w), CvRelock(w));
  }

  /** Only these steps come to such places. */
  lemma OnlyArriving(s: State, c: nat)
    requires CoEnabled(s, c) && !Arriving(s.cos[c])
    ensures c < |CoStep(s, c).cos| && About(CoStep(s, c).cos[c]).None?
  {}

  lemma OwnStep(s: State, c: nat, w: nat)
    requires CoEnabled(s, c) && w < |s.waiters| && s.waiters[w].co == c && WaiterOk(s, w) && Listens(s, w)
    requires Faithful(s, CoStep(s, c), w)
    ensures Listens(CoStep(s, c), w)
  {
    if Arriving(s.cos[c]) && DecidingAt(s.cos[c]) == Some(w) {
      ArrivingStep(s, c, w);
    } else {
      if Arriving(s.cos[c]) { OwnMoves(s, c); } else { OnlyArriving(s, c); }
      StaysListening(s, CoStep(s, c), w);
    }
  }

  lemma RequestedBy(s: State, st: Step)
    requires Enabled(s, st)
    ensures Apply(s, st).requested == s.requested + if st.Request? then {st.t} else {}
  {}

  lemma ClaimFaithful(s: State, w: nat)
    requires s.cguard.CClaiming? && NotifyEnabled(s) && w < |s.waiters|
    ensures Faithful(s, NotifyStep(s), w)
  {}

  lemma LaterIsFaithful(s: State, s': State, w: nat)
    requires Later(s, s', w) && w < |s.waiters| && s.requested <= s'.requested
    requires SlotOk(s.waiters[w].slot) && SlotOk(s'.waiters[w].slot)
    requires NotCancelledNow(s, s', w) || Requested(s, s.waiters[w].tok)
    ensures Faithful(s, s', w)
  {}

  /** A cancel callback runs only when its token is requested. */
  lemma CancelsOnRequest(s: State, st: Step, w: nat)
    requires Enabled(s, st) && w < |s.waiters| && Listens(s, w)
    requires st.Coroutine? ==> CoOk(s, st.c)
    ensures NotCancelledNow(s, Apply(s, st), w) || Requested(s, s.waiters[w].tok)
  {
    if st != Callback(w) && !(st.Coroutine? && CallsBackAt(s.cos[st.c]) == Some(w)) { StepCancels(s, st, w); }
  }

  lemma StepFaithful(s: State, st: Step, w: nat)
    requires Inv(s) && Enabled(s, st) && Inv(Apply(s, st)) && w < |s.waiters| && Listens(s, w)
    ensures Faithful(s, Apply(s, st), w)
  {
    if st.Notify? && s.cguard.CClaiming? {
      ClaimFaithful(s, w);
    } else {
      assert WaiterOk(s, w);
      StepLater(s, st, w);
      assert WaiterOk(Apply(s, st), w);
      RequestedBy(s, st);
      assert st.Coroutine? ==> CoOk(s, st.c);
      CancelsOnRequest(s, st, w);
      LaterIsFaithful(s, Apply(s, st), w);
    }
  }

  lemma OldListens(s: State, st: Step, w: nat)
    requires Inv(s) && Enabled(s, st) && Inv(Apply(s, st)) && w < |s.waiters| && Listens(s, w)
    ensures w < |Apply(s, st).waiters| && Listens(Apply(s, st), w)
  {
    StepFaithful(s, st, w);
    var c := s.waiters[w].co;
    assert WaiterOk(s, w);
    if st == Coroutine(c) {
      OwnStep(s, c, w);
    } else {
      MovedByOther(s, st, c);
      StaysListening(s, Apply(s, st), w);
    }
  }

  lemma AboutExists(s: State, c: nat)
    requires c < |s.cos| && CoOk(s, c)
    ensures About(s.cos[c]).Some? ==> About(s.cos[c]).value < |s.waiters|
    ensures Arriving(s.cos[c]) ==> DecidingAt(s.cos[c]).Some? && DecidingAt(s.cos[c]).value < |s.waiters|
  {}

  /** Such places are about waiters that were there before the step. */
  lemma AboutOld(s: State, st: Step, c: nat)
    requires Inv(s) && Enabled(s, st) && c < |Apply(s, st).cos|
    ensures var p := Apply(s, st).cos[c]; About(p).Some? ==> About(p).value < |s.waiters|
  {
    if c < |s.cos| {
      AboutExists(s, c);
      if st != Coroutine(c) { MovedByOther(s, st, c); }
      else if Arriving(s.cos[c]) { OwnMoves(s, c); }
      else { OnlyArriving(s, c); }
    } else {
      NewcomersRun(s, st, c);
    }
  }

  lemma NewcomersRun(s: State, st: Step, c: nat)
    requires Enabled(s, st) && |s.cos| <= c < |Apply(s, st).cos|
    ensures Apply(s, st).cos[c] == Run(false)
  {
    if st.Coroutine? { CoCount(s, st.c); }
  }

  lemma NewListens(s: State, st: Step, w: nat)
    requires Inv(s) && Enabled(s, st) && Inv(Apply(s, st)) && |s.waiters| <= w < |Apply(s, st).waiters|
    ensures Listens(Apply(s, st), w)
  {
    var s' := Apply(s, st);
    assert WaiterOk(s', w);
    AboutOld(s, st, s'.waiters[w].co);
    if !(st.Notify? && s.cguard.CClaiming?) { StepLater(s, st, w); }
  }

  lemma StepListens(s: State, st: Step)
    requires Inv(s) && Enabled(s, st) && AllListen(s)
    ensures AllListen(Apply(s, st))
  {
    StepInv(s, st);
    forall w | 0 <= w < |Apply(s, st).waiters| ensures Listens(Apply(s, st), w) {
      if w < |s.waiters| {
        assert Listens(s, w);
        OldListens(s, st, w);
      } else {
        NewListens(s, st, w);
      }
    }
  }

  lemma {:induction false} RunListens(run: seq<State>)
    requires IsRun(run)
    ensures Inv(run[|run| - 1]) && AllListen(run[|run| - 1])
  {
    if |run| > 1 {
      RunListens(run[..|run| - 1]);
      assert Next(run[|run| - 2], run[|run| - 1]);
      var st :| Enabled(run[|run| - 2], st) && run[|run| - 1] == Apply(run[|run| - 2], st);
      StepInv(run[|run| - 2], st);
      StepListens(run[|run| - 2], st);
    }
  }

  lemma ReachableListens(s: State)
    requires Reachable(s)
    ensures Inv(s) && AllListen(s)
  {
    var run :| IsRun(run) && run[|run| - 1] == s;
    RunListens(run);
  }

  // ---- the promises ----

  /** Coroutine c waits in lock or in wait, parked and unclaimed, and the token it was given is requested. */
  predicate Ignored(s: State, c: nat) {
    && c < |s.cos| && (s.cos[c].LkParked? || s.cos[c].CvParked?)
    && UnclaimedPark(s, s.cos[c]) && Requested(s, s.waiters[ParkedAt(s.cos[c]).value].tok)
  }

  ghost predicate NoneIgnored(s: State) { forall c {:trigger Ignored(s, c)} :: 0 <= c < |s.cos| ==> !Ignored(s, c) }

  /** Then its callback can run, and claims the waiter for cancellation. */
  lemma RequestReaches(s: State, c: nat)
    requires Reachable(s) && Ignored(s, c)
    ensures var w := ParkedAt(s.cos[c]).value;
      && Enabled(s, Callback(w))
      && var x' := Apply(s, Callback(w)).waiters[w]; x'.slot.claim == Claimed(true, Won) && x'.co == c
  {
    ReachableListens(s);
    assert CoOk(s, c);
    assert Listens(s, ParkedAt(s.cos[c]).value);
  }

  /** A lock or a wait throws only if cancellation was seen before it queued, or its own token was requested. */
  lemma ThrowsOnlyOnRequest(s: State, c: nat)
    requires Reachable(s) && c < |s.cos| && (s.cos[c].LkResume? || s.cos[c].CvResume?)
    requires Throws(s, s.cos[c].immediate, s.cos[c].ow) && !s.cos[c].immediate
    ensures s.cos[c].ow.Some? && s.cos[c].ow.value < |s.waiters|
    ensures Requested(s, s.waiters[s.cos[c].ow.value].tok)
  {
    ReachableListens(s);
    assert CoOk(s, c);
    var w := s.cos[c].ow.value;
    assert WaiterOk(s, w) && Listens(s, w);
  }
}
