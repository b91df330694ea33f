/** What user code called is what the semaphore does: in every run an acquire goes on with the token it was
    given, tokens are requested by requests only, and the units given out are those of the release calls. */
module SemaphoreCalls {
  import opened Basics
  import opened SemaphoreModel
  import opened SemaphoreInvariant
  import opened SemaphoreTheorems
  import opened SemaphoreCancellation

  datatype Call = NoCall | AcquireCall(tok: Option<nat>)

  function NextCall(call: Call, st: Step, c: nat): Call {
    if st.BeginAcquire? && st.c == c then AcquireCall(st.tok) else call
  }

  /** What coroutine c called last. */
  function LastCall(steps: seq<Step>, c: nat): Call {
    if steps == [] then NoCall else NextCall(LastCall(steps[..|steps| - 1], c), steps[|steps| - 1], c)
  }

  predicate Has(s: State, w: nat, tok: Option<nat>) { w < |s.waiters| && s.waiters[w].tok == tok }

  /** A coroutine with program counter p is inside `call`, or back in user code. */
  predicate Inside(s: State, p: Pc, call: Call) {
    p.Run? || (call.AcquireCall? &&
    match p
    case AqReady(tok) => tok == call.tok
    case AqTry(tok) => tok == call.tok
    case AqCheck(tok) => tok == call.tok
    case AqEnqueue(tok) => tok == call.tok
    case AqRegister(w) => Has(s, w, call.tok)
    case AqCallback(w) => Has(s, w, call.tok)
    case AqInline(w) => Has(s, w, call.tok)
    case AqMark(w) => Has(s, w, call.tok)
    case AqParked(w) => Has(s, w, call.tok)
    case AqResume(immediate, ow) => (ow.Some? ==> Has(s, ow.value, call.tok)) && (immediate ==> Requested(s, call.tok))
    case _ => true)
  }

  // ---- one step ----

  ghost predicate TokensKept(s: State, s': State) {
    && |s.waiters| <= |s'.waiters| && s.requested <= s'.requested
    && forall w :: 0 <= w < |s.waiters| ==> s'.waiters[w].tok == s.waiters[w].tok
  }

  lemma CoKeepsTokens(s: State, c: nat)
    requires CoEnabled(s, c)
    ensures TokensKept(s, CoStep(s, c)) && |CoStep(s, c).cos| == |s.cos| && CoStep(s, c).requested == s.requested
  {}

  lemma WinnerKeepsTokens(s: State, w: nat)
    requires WinnerEnabled(s, w)
    ensures TokensKept(s, WinnerStep(s, w)) && |WinnerStep(s, w).cos| == |s.cos| && WinnerStep(s, w).requested == s.requested
  {}

  lemma ReleaseKeepsTokens(s: State)
    requires ReleaseEnabled(s)
    ensures TokensKept(s, ReleaseStep(s)) && ReleaseStep(s).cos == s.cos && ReleaseStep(s).requested == s.requested
  {}

  lemma StepKeepsTokens(s: State, st: Step)
    requires Enabled(s, st)
    ensures TokensKept(s, Apply(s, st))
    ensures |Apply(s, st).cos| == |s.cos| + if st.NewCoroutine? then 1 else 0
    ensures Apply(s, st).requested == s.requested + if st.Request? then {st.t} else {}
  {
    match st
    case Coroutine(c) => CoKeepsTokens(s, c);
    case Winner(w) => WinnerKeepsTokens(s, w);
    case Release => ReleaseKeepsTokens(s);
    case _ =>
  }

  lemma StaysInside(s: State, s': State, p: Pc, call: Call)
    requires TokensKept(s, s') && Inside(s, p, call)
    ensures Inside(s', p, call)
  {}

  lemma CoInside(s: State, c: nat, call: Call)
    requires CoEnabled(s, c) && Inside(s, s.cos[c], call) && TokensKept(s, CoStep(s, c))
    ensures var s' := CoStep(s, c); c < |s'.cos| && Inside(s', s'.cos[c], call)
  {}

  lemma ResumeInside(s: State, d: nat, c: nat, call: Call)
    requires c < |s.cos| && Inside(s, s.cos[c], call)
    ensures c < |ResumeHandle(s, d).cos| && Inside(s, ResumeHandle(s, d).cos[c], call)
  {}

  lemma WinnerMoves(s: State, w: nat, c: nat)
    requires WinnerEnabled(s, w) && c < |s.cos|
    ensures WinnerStep(s, w).cos == s.cos || WinnerStep(s, w).cos == ResumeHandle(s, s.waiters[w].co).cos
  {}

  lemma StepInside(s: State, st: Step, c: nat, call: Call)
    requires Enabled(s, st) && c < |s.cos| && Inside(s, s.cos[c], call)
    ensures var s' := Apply(s, st); c < |s'.cos| && Inside(s', s'.cos[c], NextCall(call, st, c))
  {
    var s' := Apply(s, st);
    StepKeepsTokens(s, st);
    match st
    case Coroutine(d) =>
      if d == c {
        CoInside(s, c, call);
      } else {
        CoOther(s, d, c);
        StaysInside(s, s', s.cos[c], call);
      }
    case Winner(w) =>
      WinnerMoves(s, w, c);
      ResumeInside(s, s.waiters[w].co, c, call);
      StaysInside(s, s', s'.cos[c], call);
    case Release =>
      ReleaseKeepsTokens(s);
      StaysInside(s, s', s.cos[c], call);
    case _ => StaysInside(s, s', s.cos[c], call);
  }

  // ---- units ----

  /** What a release call adds: nothing for an update of zero or less. */
  function UnitsOf(st: Step): nat { if st.BeginRelease? && st.update > 0 then st.update else 0 }

  function Pending(g: Guard): nat {
    match g
    case SFree => 0
    case SLoop(left) => left
    case SClaiming(left, _) => left
    case SDeciding(left, _) => if left > 0 then left - 1 else 0   // its unit has been given out
  }

  lemma StepUnits(s: State, st: Step)
    requires GuardOk(s) && Enabled(s, st)
    ensures var s' := Apply(s, st); s'.released + Pending(s'.guard) == s.released + Pending(s.guard) + UnitsOf(st)
  {
    match st
    case Coroutine(c) => CoKeepsUnits(s, c);
    case Winner(w) => WinnerKeepsUnits(s, w);
    case _ =>
  }

  lemma CoKeepsUnits(s: State, c: nat)
    requires CoEnabled(s, c)
    ensures CoStep(s, c).released == s.released && CoStep(s, c).guard == s.guard && CoStep(s, c).dropped == s.dropped
  {}

  lemma WinnerKeepsUnits(s: State, w: nat)
    requires WinnerEnabled(s, w)
    ensures var s' := WinnerStep(s, w); s'.released == s.released && s'.guard == s.guard && s'.dropped == s.dropped
  {}

  /** A unit is dropped only when the count is at max() and nobody queues. */
  lemma DropsOnlyAtMax(s: State, st: Step, initial: int, max: nat)
    requires Reachable(s, initial, max) && Enabled(s, st) && Apply(s, st).dropped != s.dropped
    ensures st == Release && s.count == max && Apply(s, st).dropped == s.dropped + 1
    ensures s.q == [] && !s.guard.SClaiming?
  {
    ReachableInv(s, initial, max);
    match st
    case Coroutine(c) => CoKeepsUnits(s, c);
    case Winner(w) => WinnerKeepsUnits(s, w);
    case _ =>
  }

  // ---- whole runs ----

  ghost function Requests(steps: seq<Step>): set<nat> {
    if steps == [] then {}
    else Requests(steps[..|steps| - 1]) + if steps[|steps| - 1].Request? then {steps[|steps| - 1].t} else {}
  }

  function NewCoroutines(steps: seq<Step>): nat {
    if steps == [] then 0 else NewCoroutines(steps[..|steps| - 1]) + if steps[|steps| - 1].NewCoroutine? then 1 else 0
  }

  function Units(steps: seq<Step>): nat {
    if steps == [] then 0 else Units(steps[..|steps| - 1]) + UnitsOf(steps[|steps| - 1])
  }

  lemma {:induction false} RequestsAre(steps: seq<Step>, t: nat)
    ensures t in Requests(steps) <==> Request(t) in steps
  {
    if steps != [] {
      RequestsAre(steps[..|steps| - 1], t);
      assert steps == steps[..|steps| - 1] + [steps[|steps| - 1]];
    }
  }

  lemma TakesPrefix(run: seq<State>, steps: seq<Step>, initial: int, max: nat)
    requires Takes(run, steps, initial, max) && steps != []
    ensures var n := |steps| - 1;
      && Takes(run[..n + 1], steps[..n], initial, max) && run[..n + 1][|steps[..n]|] == run[n]
      && Enabled(run[n], steps[n]) && run[|steps|] == Apply(run[n], steps[n])
  {}

  /** In every run a coroutine is where its last call has got, or back in user code; the requested tokens are
      those that were requested; and the units given out, with those of the release call in progress still to
      come, are those that release was called for. */
  lemma {:induction false} RunsMatchCalls(run: seq<State>, steps: seq<Step>, initial: int, max: nat)
    requires Takes(run, steps, initial, max)
    ensures var s := run[|steps|];
      && Inv(s, initial) && s.released + Pending(s.guard) == Units(steps)
      && s.requested == Requests(steps) && |s.cos| == NewCoroutines(steps)
      && forall c :: 0 <= c < |s.cos| ==> Inside(s, s.cos[c], LastCall(steps, c))
  {
    if steps != [] {
      var n := |steps| - 1;
      var s, st := run[n], steps[n];
      TakesPrefix(run, steps, initial, max);
      RunsMatchCalls(run[..n + 1], steps[..n], initial, max);
      StepInv(s, st, initial);
      StepKeepsTokens(s, st);
      StepUnits(s, st);
      forall c | 0 <= c < |run[|steps|].cos| ensures Inside(run[|steps|], run[|steps|].cos[c], LastCall(steps, c)) {
        if c < |s.cos| { StepInside(s, st, c, LastCall(steps[..n], c)); }
      }
    }
  }

  lemma TakenIsReachable(run: seq<State>, steps: seq<Step>, initial: int, max: nat)
    requires Takes(run, steps, initial, max)
    ensures Reachable(run[|steps|], initial, max)
  {
    forall i | 0 <= i < |run| - 1 ensures Next(run[i], run[i + 1]) {
      assert Enabled(run[i], steps[i]) && run[i + 1] == Apply(run[i], steps[i]);
    }
    assert IsRun(run, initial, max) && run[|run| - 1] == run[|steps|];
  }

  /** An acquire that is about to throw was called with a token, and that token has been requested. */
  lemma ThrowersWereCancelled(run: seq<State>, steps: seq<Step>, initial: int, max: nat, c: nat)
    requires Takes(run, steps, initial, max) && c < |run[|steps|].cos|
    requires var s := run[|steps|]; s.cos[c].AqResume? && Throws(s, s.cos[c].immediate, s.cos[c].ow)
    ensures var call := LastCall(steps, c); call.AcquireCall? && call.tok.Some? && Request(call.tok.value) in steps
  {
    var s, call := run[|steps|], LastCall(steps, c);
    RunsMatchCalls(run, steps, initial, max);
    TakenIsReachable(run, steps, initial, max);
    assert Inside(s, s.cos[c], call);
    if !s.cos[c].immediate { ThrowsOnlyOnRequest(s, initial, max, c); }
    RequestsAre(steps, call.tok.value);
  }

  /** Once the library has come to rest, every coroutine whose acquire was given a token that has been
      requested is back in user code. */
  lemma CancelledCallsEnd(run: seq<State>, steps: seq<Step>, initial: int, max: nat, c: nat, t: nat)
    requires Takes(run, steps, initial, max) && Quiescent(run[|steps|]) && NoneIgnored(run[|steps|])
    requires c < |run[|steps|].cos| && Request(t) in steps && LastCall(steps, c) == AcquireCall(Some(t))
    ensures run[|steps|].cos[c].Run?
  {
    var s := run[|steps|];
    RunsMatchCalls(run, steps, initial, max);
    TakenIsReachable(run, steps, initial, max);
    NothingStranded(s, initial, max, c);
    RequestsAre(steps, t);
    assert Inside(s, s.cos[c], LastCall(steps, c)) && !Ignored(s, c);
  }
}
