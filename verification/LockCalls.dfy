/** What user code called is what the machine does: in every run, a coroutine is inside the call it made last,
    with the token it gave, and cancellation tokens are requested by requests only. */
module LockCalls {
  import opened Basics
  import opened Handshake
  import opened LockModel
  import opened LockInvariant
  import opened LockSteps
  import opened LockTheorems
  import opened LockWaiters
  import opened LockCancellation

  datatype Call = NoCall | LockCall(tok: Option<nat>) | WaitCall(tok: Option<nat>) | UnlockCall

  /** The call that coroutine c is in after the step, if it was in `call` before. */
  function NextCall(call: Call, st: Step, c: nat): Call {
    match st
    case BeginLock(d, tok) => if d == c then LockCall(tok) else call
    case BeginWait(d, tok) => if d == c then WaitCall(tok) else call
    case BeginUnlock(d) => if d == c then UnlockCall else call
    case _ => call
  }

  /** What coroutine c called last. */
  function LastCall(steps: seq<Step>, c: nat): Call {
    if steps == [] then NoCall else NextCall(LastCall(steps[..|steps| - 1], c), steps[|steps| - 1], c)
  }

  /** The token of waiter w is that of the call. */
  predicate Has(s: State, w: nat, tok: Option<nat>) { w < |s.waiters| && s.waiters[w].tok == tok }

  /** A coroutine with program counter p is inside `call`, or back in user code. */
  predicate Inside(s: State, p: Pc, call: Call) {
    match p
    case Run(_) => true
    case Unlocking(_) => call.UnlockCall?
    case LkReady(tok) => call == LockCall(tok)
    case LkTry(tok) => call == LockCall(tok)
    case LkCheck(tok) => call == LockCall(tok)
    case LkEnqueue(tok) => call == LockCall(tok)
    case LkRegister(w) => call.LockCall? && Has(s, w, call.tok)
    case LkCallback(w) => call.LockCall? && Has(s, w, call.tok)
    case LkInline(w) => call.LockCall? && Has(s, w, call.tok)
    case LkMark(w) => call.LockCall? && Has(s, w, call.tok)
    case LkParked(w) => call.LockCall? && Has(s, w, call.tok)
    case LkResume(immediate, ow) =>
      call.LockCall? && (ow.Some? ==> Has(s, ow.value, call.tok)) && (immediate ==> Requested(s, call.tok))
    case CvReady(tok) => call == WaitCall(tok)
    case CvCheck(tok) => call == WaitCall(tok)
    case CvEnqueue(tok) => call == WaitCall(tok)
    case CvUnlock(v, _) => call.WaitCall? && Has(s, v, call.tok)
    case CvRegister(v) => call.WaitCall? && Has(s, v, call.tok)
    case CvCallback(v) => call.WaitCall? && Has(s, v, call.tok)
    case CvInline(v) => call.WaitCall? && Has(s, v, call.tok)
    case CvMark(v) => call.WaitCall? && Has(s, v, call.tok)
    case CvParked(v) => call.WaitCall? && Has(s, v, call.tok)
    case CvRelock(v) => call.WaitCall? && Has(s, v, call.tok)
    case CvRelockMark(v, _) => call.WaitCall? && Has(s, v, call.tok)
    case CvRelockParked(v, _) => call.WaitCall? && Has(s, v, call.tok)
    case CvResume(immediate, ow) =>
      call.WaitCall? && (ow.Some? ==> Has(s, ow.value, call.tok)) && (immediate ==> Requested(s, call.tok))
  }

  // ---- one step ----

  /** Waiters keep their tokens, and requests stay. */
  ghost predicate TokensKept(s: State, s': State) {
    && |s.waiters| <= |s'.waiters| && s.requested <= s'.requested
    && forall w :: 0 <= w < |s.waiters| ==> s'.waiters[w].tok == s.waiters[w].tok
  }

  lemma StepKeepsTokens(s: State, st: Step)
    requires Inv(s) && Enabled(s, st)
    ensures TokensKept(s, Apply(s, st))
  {
    RequestedBy(s, st);
    if st.Notify? && s.cguard.CClaiming? {
      assert IsKind(s, s.cguard.w, WaitWaiter);
    } else {
      StepLater(s, st, 0);
      forall w: nat | w < |s.waiters| ensures Apply(s, st).waiters[w].tok == s.waiters[w].tok { StepLater(s, st, w); }
    }
  }

  lemma StaysInside(s: State, s': State, p: Pc, call: Call)
    requires TokensKept(s, s') && Inside(s, p, call)
    ensures Inside(s', p, call)
  {}

  lemma LockBeginInside(s: State, c: nat, call: Call)
    requires CoEnabled(s, c) && BeforeLocking(s.cos[c]) && Inside(s, s.cos[c], call)
    ensures var s' := CoStep(s, c); c < |s'.cos| && Inside(s', s'.cos[c], call)
  {}

  predicate Relocking(p: Pc) { p.CvRelock? || p.CvRelockMark? || p.CvResume? }

  lemma RelockMoves(s: State, c: nat, call: Call)
    requires CoEnabled(s, c) && Relocking(s.cos[c]) && Inside(s, s.cos[c], call)
    ensures c < |CoStep(s, c).cos| && Inside(s, CoStep(s, c).cos[c], call)
  {}

  lemma LockCoMoves(s: State, c: nat, call: Call)
    requires CoEnabled(s, c) && !BeforeLocking(s.cos[c]) && !BeforeParking(s.cos[c]) && Inside(s, s.cos[c], call)
    ensures c < |CoStep(s, c).cos| && Inside(s, CoStep(s, c).cos[c], call)
  {
    if Relocking(s.cos[c]) { RelockMoves(s, c, call); }
  }

  lemma LockCoInside(s: State, c: nat, call: Call)
    requires CoEnabled(s, c) && !BeforeLocking(s.cos[c]) && !BeforeParking(s.cos[c]) && Inside(s, s.cos[c], call)
    requires TokensKept(s, CoStep(s, c))
    ensures var s' := CoStep(s, c); c < |s'.cos| && Inside(s', s'.cos[c], call)
  {
    LockCoMoves(s, c, call);
    StaysInside(s, CoStep(s, c), CoStep(s, c).cos[c], call);
  }

  lemma WaitBeginInside(s: State, c: nat, call: Call)
    requires CoEnabled(s, c) && BeforeWaiting(s.cos[c]) && Inside(s, s.cos[c], call)
    ensures var s' := CoStep(s, c); c < |s'.cos| && Inside(s', s'.cos[c], call)
  {}

  lemma WaitCoInside(s: State, c: nat, call: Call)
    requires CoEnabled(s, c) && !BeforeWaiting(s.cos[c]) && BeforeParking(s.cos[c]) && Inside(s, s.cos[c], call)
    requires TokensKept(s, CoStep(s, c))
    ensures var s' := CoStep(s, c); c < |s'.cos| && Inside(s', s'.cos[c], call)
  {}

  lemma CoInside(s: State, c: nat, call: Call)
    requires CoEnabled(s, c) && Inside(s, s.cos[c], call) && TokensKept(s, CoStep(s, c))
    ensures var s' := CoStep(s, c); c < |s'.cos| && Inside(s', s'.cos[c], call)
  {
    if BeforeWaiting(s.cos[c]) { WaitBeginInside(s, c, call); }
    else if BeforeParking(s.cos[c]) { WaitCoInside(s, c, call); }
    else if BeforeLocking(s.cos[c]) { LockBeginInside(s, c, call); }
    else { LockCoInside(s, c, call); }
  }

  lemma UnlockMoves(s: State, c: nat, call: Call)
    requires UnlockEnabled(s) && c < |s.cos| && Inside(s, s.cos[c], call)
    ensures c < |UnlockStep(s).cos|
    ensures UnlockStep(s).cos[c] == s.cos[c]
         || ((s.cos[c].Unlocking? || s.cos[c].CvUnlock?) && exists w :: UnlockStep(s).cos[c] == AfterUnlock(s.cos[c], w))
  {
    if !s.mguard.MDeciding? && s.mguard.c == c {
      assert UnlockStep(s).cos[c] == s.cos[c]
          || UnlockStep(s).cos[c] == AfterUnlock(s.cos[c], None)
          || (s.mguard.MClaiming? && UnlockStep(s).cos[c] == AfterUnlock(s.cos[c], Some(s.mguard.w)));
    }
  }

  lemma AfterUnlockInside(s: State, p: Pc, w: Option<nat>, call: Call)
    requires (p.Unlocking? || p.CvUnlock?) && Inside(s, p, call)
    ensures Inside(s, AfterUnlock(p, w), call)
  {}

  lemma UnlockInside(s: State, c: nat, call: Call)
    requires UnlockEnabled(s) && c < |s.cos| && Inside(s, s.cos[c], call) && TokensKept(s, UnlockStep(s))
    ensures var s' := UnlockStep(s); c < |s'.cos| && Inside(s', s'.cos[c], call)
  {
    UnlockMoves(s, c, call);
    var p := UnlockStep(s).cos[c];
    if p != s.cos[c] {
      var w :| p == AfterUnlock(s.cos[c], w);
      AfterUnlockInside(s, s.cos[c], w, call);
    }
    StaysInside(s, UnlockStep(s), p, call);
  }

  lemma ResumeInside(s: State, d: nat, c: nat, call: Call)
    requires c < |s.cos| && Inside(s, s.cos[c], call)
    ensures c < |ResumeHandle(s, d).cos| && Inside(s, ResumeHandle(s, d).cos[c], call)
    ensures ResumeHandle(s, d).waiters == s.waiters && ResumeHandle(s, d).requested == s.requested
  {}

  lemma ParkInside(s: State, w: nat, m: nat, c: nat, call: Call)
    requires OwesMark(s, w, m) && WaiterOk(s, w) && c < |s.cos| && Inside(s, s.cos[c], call)
    requires TokensKept(s, ParkFor(s, w, m))
    ensures var s' := ParkFor(s, w, m); c < |s'.cos| && Inside(s', s'.cos[c], call)
  {}

  lemma WinnerInside(s: State, w: nat, c: nat, call: Call)
    requires Inv(s) && WinnerEnabled(s, w) && c < |s.cos| && Inside(s, s.cos[c], call)
    requires TokensKept(s, WinnerStep(s, w))
    ensures var s' := WinnerStep(s, w); c < |s'.cos| && Inside(s', s'.cos[c], call)
  {
    var x, s' := s.waiters[w], WinnerStep(s, w);
    assert WaiterOk(s, w);
    if Undecided(x.slot) || OwesRelock(x) {
      StaysInside(s, s', s.cos[c], call);
    } else if OwesResume(x) {
      ResumeInside(s, x.co, c, call);
      StaysInside(s, s', s'.cos[c], call);
    } else {
      MarkFacts(s, w, x.relay.m);
      if s.waiters[x.relay.m].slot.phase == Waiting { ParkInside(s, w, x.relay.m, c, call); }
      else { StaysInside(s, s', s.cos[c], call); }
    }
  }

  lemma StepInside(s: State, st: Step, c: nat, call: Call)
    requires Inv(s) && Enabled(s, st) && c < |s.cos| && Inside(s, s.cos[c], call)
    ensures var s' := Apply(s, st); c < |s'.cos| && Inside(s', s'.cos[c], NextCall(call, st, c))
  {
    StepKeepsTokens(s, st);
    match st
    case Coroutine(d) =>
      if d == c {
        CoInside(s, c, call);
      } else {
        MovedByOther(s, st, c);
        CoOther(s, d, c);
        StaysInside(s, Apply(s, st), s.cos[c], call);
      }
    case Unlock => UnlockInside(s, c, call);
    case Winner(w) => WinnerInside(s, w, c, call);
    case Notify => StaysInside(s, Apply(s, st), s.cos[c], call);
    case Callback(_) => StaysInside(s, Apply(s, st), s.cos[c], call);
    case _ => StaysInside(s, Apply(s, st), s.cos[c], call);
  }

  // ---- whole runs ----

  ghost function Requests(steps: seq<Step>): set<nat> {
    if steps == [] then {}
    else Requests(steps[..|steps| - 1]) + if steps[|steps| - 1].Request? then {steps[|steps| - 1].t} else {}
  }

  function NewCoroutines(steps: seq<Step>): nat {
    if steps == [] then 0 else NewCoroutines(steps[..|steps| - 1]) + if steps[|steps| - 1].NewCoroutine? then 1 else 0
  }

  lemma {:induction false} RequestsAre(steps: seq<Step>, t: nat)
    ensures t in Requests(steps) <==> Request(t) in steps
  {
    if steps != [] {
      RequestsAre(steps[..|steps| - 1], t);
      assert steps == steps[..|steps| - 1] + [steps[|steps| - 1]];
    }
  }

  lemma CosCount(s: State, st: Step)
    requires Enabled(s, st)
    ensures |Apply(s, st).cos| == |s.cos| + if st.NewCoroutine? then 1 else 0
  {
    if st.Coroutine? { CoCount(s, st.c); }
  }

  /** In every run a coroutine is where its last call has got, or back in user code; and the tokens that are
      requested are those that the steps of the run have requested. */
  lemma {:induction false} RunsMatchCalls(run: seq<State>, steps: seq<Step>)
    requires Takes(run, steps)
    ensures var s := run[|steps|];
      && Inv(s) && AllListen(s)
      && s.requested == Requests(steps) && |s.cos| == NewCoroutines(steps)
      && forall c :: 0 <= c < |s.cos| ==> Inside(s, s.cos[c], LastCall(steps, c))
  {
    if steps != [] {
      var n := |steps| - 1;
      var s, st := run[n], steps[n];
      RunsMatchCalls(run[..n + 1], steps[..n]);
      StepInv(s, st);
      StepListens(s, st);
      RequestedBy(s, st);
      CosCount(s, st);
      forall c | 0 <= c < |run[n + 1].cos| ensures Inside(run[n + 1], run[n + 1].cos[c], LastCall(steps, c)) {
        if c < |s.cos| { StepInside(s, st, c, LastCall(steps[..n], c)); } else { NewcomersRun(s, st, c); }
      }
    }
  }

  lemma {:induction false} TakenIsRun(run: seq<State>, steps: seq<Step>)
    requires Takes(run, steps)
    ensures Reachable(run[|steps|])
  {
    forall i | 0 <= i < |run| - 1 ensures Next(run[i], run[i + 1]) {
      assert Enabled(run[i], steps[i]) && run[i + 1] == Apply(run[i], steps[i]);
    }
    assert IsRun(run) && run[|run| - 1] == run[|steps|];
  }

  /** A lock or a wait that is about to throw was called with a token, and that token has been requested. */
  lemma ThrowersWereCancelled(run: seq<State>, steps: seq<Step>, c: nat)
    requires Takes(run, steps) && c < |run[|steps|].cos|
    requires var s := run[|steps|];
      (s.cos[c].LkResume? || s.cos[c].CvResume?) && Throws(s, s.cos[c].immediate, s.cos[c].ow)
    ensures var call := LastCall(steps, c);
      && (if run[|steps|].cos[c].LkResume? then call.LockCall? else call.WaitCall?)
      && call.tok.Some? && Request(call.tok.value) in steps
  {
    var s, call := run[|steps|], LastCall(steps, c);
    RunsMatchCalls(run, steps);
    TakenIsRun(run, steps);
    assert Inside(s, s.cos[c], call);
    if !s.cos[c].immediate { ThrowsOnlyOnRequest(s, c); }
    RequestsAre(steps, call.tok.value);
  }

  /** Once the library has come to rest, nobody waits in a call whose token has been requested: the coroutine
      is back in user code, or, after a wait, queues for the mutex. */
  lemma CancelledCallsEnd(run: seq<State>, steps: seq<Step>, c: nat, t: nat)
    requires Takes(run, steps) && Quiescent(run[|steps|]) && NoneIgnored(run[|steps|])
    requires c < |run[|steps|].cos| && Request(t) in steps
    requires LastCall(steps, c) == LockCall(Some(t)) || LastCall(steps, c) == WaitCall(Some(t))
    ensures var p := run[|steps|].cos[c];
      p.Run? || (LastCall(steps, c).WaitCall? && p.CvRelockParked?)
  {
    var s := run[|steps|];
    RunsMatchCalls(run, steps);
    TakenIsRun(run, steps);
    NothingStranded(s, c);
    RequestsAre(steps, t);
    assert Inside(s, s.cos[c], LastCall(steps, c)) && !Ignored(s, c);
  }
}
