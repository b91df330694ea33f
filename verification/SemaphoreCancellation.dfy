/** A cancellation request reaches every acquire that was given the token: while its coroutine may still be
    parked, a callback is registered that will claim its waiter; and nothing is cancelled without a request. */
module SemaphoreCancellation {
  import opened Basics
  import opened Handshake
  import opened SemaphoreModel
  import opened SemaphoreInvariant
  import opened SemaphoreTheorems

  /** The waiter of an acquire that has got past the registration. */
  function ListensAt(p: Pc): Option<nat> {
    match p
    case AqMark(w) => Some(w)
    case AqParked(w) => Some(w)
    case _ => None
  }

  predicate Cancelled(x: Waiter) { x.slot.claim.Claimed? && x.slot.claim.cancel }

  /** An unclaimed waiter has its callback registered by the time that its coroutine may park; it is not
      unclaimed after an inline callback; and only a request cancels. */
  predicate Listens(s: State, w: nat)
    requires w < |s.waiters|
  {
    var x := s.waiters[w];
    && x.co < |s.cos|
    && (!x.slot.resumed && x.tok.Some? && ListensAt(s.cos[x.co]) == Some(w) ==> x.registered)
    && (!x.slot.resumed ==> s.cos[x.co] != AqInline(w))
    && (s.cos[x.co] == AqCallback(w) || Cancelled(x) ==> Requested(s, x.tok))
  }

  ghost predicate AllListen(s: State) {
    forall w {:trigger Listens(s, w)} :: 0 <= w < |s.waiters| ==> Listens(s, w)
  }

  // ---- what a step does to a waiter ----

  predicate Faithful(s: State, s': State, w: nat) {
    && w < |s.waiters| <= |s'.waiters| && s.requested <= s'.requested
    && var x, x' := s.waiters[w], s'.waiters[w];
    && x'.tok == x.tok && x'.co == x.co && (x.registered ==> x'.registered) && (x.slot.resumed ==> x'.slot.resumed)
    && (Cancelled(x') ==> Cancelled(x) || Requested(s, x.tok))
  }

  lemma CoFaithful(s: State, c: nat, w: nat)
    requires CoEnabled(s, c) && w < |s.waiters| && SlotOk(s.waiters[w].slot) && Listens(s, w)
    requires s.cos[c] == AqCallback(w) ==> s.waiters[w].co == c
    ensures Faithful(s, CoStep(s, c), w)
  {}

  lemma ReleaseFaithful(s: State, w: nat)
    requires ReleaseEnabled(s) && w < |s.waiters| && SlotOk(s.waiters[w].slot)
    ensures Faithful(s, ReleaseStep(s), w)
  {}

  lemma WinnerFaithful(s: State, u: nat, w: nat)
    requires WinnerEnabled(s, u) && w < |s.waiters| && SlotOk(s.waiters[w].slot)
    ensures Faithful(s, WinnerStep(s, u), w)
  {}

  lemma StepFaithful(s: State, st: Step, initial: int, w: nat)
    requires Inv(s, initial) && Enabled(s, st) && w < |s.waiters| && Listens(s, w)
    ensures Faithful(s, Apply(s, st), w)
  {
    assert WaiterOk(s, w);
    match st
    case Coroutine(c) =>
      assert CoOk(s, c);
      CoFaithful(s, c, w);
    case Release => ReleaseFaithful(s, w);
    case Winner(u) => WinnerFaithful(s, u, w);
    case _ =>
  }

  // ---- where a coroutine can get ----

  /** The waiter that the place of a coroutine says something about here. */
  function About(p: Pc): Option<nat> {
    match p
    case AqCallback(w) => Some(w)
    case AqInline(w) => Some(w)
    case _ => ListensAt(p)
  }

  lemma CoOther(s: State, d: nat, c: nat)
    requires CoEnabled(s, d) && c < |s.cos| && c != d
    ensures c < |CoStep(s, d).cos| && CoStep(s, d).cos[c] == s.cos[c]
  {}

  lemma WinnerCalm(s: State, w: nat, c: nat)
    requires WinnerEnabled(s, w) && c < |s.cos|
    ensures c < |WinnerStep(s, w).cos|
    ensures WinnerStep(s, w).cos[c] == s.cos[c] || WinnerStep(s, w).cos[c].AqResume?
  {}

  lemma MovedByOther(s: State, st: Step, c: nat)
    requires Enabled(s, st) && st != Coroutine(c) && c < |s.cos|
    ensures c < |Apply(s, st).cos| && (Apply(s, st).cos[c] == s.cos[c] || About(Apply(s, st).cos[c]).None?)
  {
    match st
    case Coroutine(d) => CoOther(s, d, c);
    case Winner(w) => WinnerCalm(s, w, c);
    case _ =>
  }

  lemma StaysListening(s: State, s': State, w: nat)
    requires Faithful(s, s', w) && Listens(s, w) && s.waiters[w].co < |s'.cos|
    requires s'.cos[s.waiters[w].co] == s.cos[s.waiters[w].co] || About(s'.cos[s.waiters[w].co]) != Some(w)
    ensures Listens(s', w)
  {}

  /** A coroutine comes to such a place only with the waiter it is deciding about. */
  lemma OwnMoves(s: State, c: nat)
    requires CoEnabled(s, c)
    ensures var p := s.cos[c]; var s' := CoStep(s, c);
      && |s'.cos| == |s.cos|
      && (About(s'.cos[c]).None? || (About(s'.cos[c]) == DecidingAt(p) && (p.AqRegister? || p.AqCallback? || p.AqInline? || p.AqMark?)))
  {}

  lemma OwnStep(s: State, c: nat, w: nat)
    requires CoEnabled(s, c) && w < |s.waiters| && s.waiters[w].co == c && SlotOk(s.waiters[w].slot) && Listens(s, w)
    requires Faithful(s, CoStep(s, c), w) && DecidingAt(s.cos[c]) == Some(w)
    ensures Listens(CoStep(s, c), w)
  {}

  // ---- every step keeps it ----

  lemma OldListens(s: State, st: Step, initial: int, w: nat)
    requires Inv(s, initial) && Enabled(s, st) && w < |s.waiters| && Listens(s, w)
    ensures w < |Apply(s, st).waiters| && Listens(Apply(s, st), w)
  {
    var c := s.waiters[w].co;
    StepFaithful(s, st, initial, w);
    assert WaiterOk(s, w);
    if st != Coroutine(c) {
      MovedByOther(s, st, c);
      StaysListening(s, Apply(s, st), w);
    } else if DecidingAt(s.cos[c]) == Some(w) {
      OwnStep(s, c, w);
    } else {
      OwnMoves(s, c);
      StaysListening(s, Apply(s, st), w);
    }
  }

  /** Only an enqueue adds a waiter, a fresh one. */
  lemma NewcomersFresh(s: State, st: Step, w: nat)
    requires Enabled(s, st) && |s.waiters| <= w < |Apply(s, st).waiters|
    ensures st.Coroutine? && w == |s.waiters| && Apply(s, st).waiters[w].co == st.c
    ensures Apply(s, st).waiters[w].slot == FRESH_SLOT && Apply(s, st).cos[st.c] == AqRegister(w)
  {}

  lemma StepListens(s: State, st: Step, initial: int)
    requires Inv(s, initial) && Enabled(s, st) && AllListen(s)
    ensures AllListen(Apply(s, st))
  {
    forall w | 0 <= w < |Apply(s, st).waiters| ensures Listens(Apply(s, st), w) {
      if w < |s.waiters| {
        assert Listens(s, w);
        OldListens(s, st, initial, w);
      } else {
        NewcomersFresh(s, st, w);
        OwnMoves(s, st.c);
      }
    }
  }

  lemma {:induction false} RunListens(run: seq<State>, initial: int, max: nat)
    requires IsRun(run, initial, max)
    ensures Inv(run[|run| - 1], initial) && AllListen(run[|run| - 1])
  {
    if |run| > 1 {
      RunListens(run[..|run| - 1], initial, max);
      assert Next(run[|run| - 2], run[|run| - 1]);
      var st :| Enabled(run[|run| - 2], st) && run[|run| - 1] == Apply(run[|run| - 2], st);
      StepInv(run[|run| - 2], st, initial);
      StepListens(run[|run| - 2], st, initial);
    }
  }

  lemma ReachableListens(s: State, initial: int, max: nat)
    requires Reachable(s, initial, max)
    ensures Inv(s, initial) && AllListen(s)
  {
    var run :| IsRun(run, initial, max) && run[|run| - 1] == s;
    RunListens(run, initial, max);
  }

  // ---- the promises ----

  /** Coroutine c waits in acquire, parked and unclaimed, and the token it was given is requested. */
  predicate Ignored(s: State, c: nat) {
    && c < |s.cos| && s.cos[c].AqParked? && s.cos[c].w < |s.waiters|
    && !s.waiters[s.cos[c].w].slot.resumed && Requested(s, s.waiters[s.cos[c].w].tok)
  }

  ghost predicate NoneIgnored(s: State) { forall c {:trigger Ignored(s, c)} :: 0 <= c < |s.cos| ==> !Ignored(s, c) }

  /** Then its callback can run, and claims the waiter for cancellation. */
  lemma RequestReaches(s: State, initial: int, max: nat, c: nat)
    requires Reachable(s, initial, max) && Ignored(s, c)
    ensures var w := s.cos[c].w;
      && Enabled(s, Callback(w))
      && var x' := Apply(s, Callback(w)).waiters[w]; x'.slot.claim == Claimed(true, Won) && x'.co == c
  {
    ReachableListens(s, initial, max);
    assert CoOk(s, c);
    assert Listens(s, s.cos[c].w);
  }

  /** An acquire throws only if cancellation was seen before it queued, or its own token was requested. */
  lemma ThrowsOnlyOnRequest(s: State, initial: int, max: nat, c: nat)
    requires Reachable(s, initial, max) && c < |s.cos| && s.cos[c].AqResume?
    requires Throws(s, s.cos[c].immediate, s.cos[c].ow) && !s.cos[c].immediate
    ensures s.cos[c].ow.Some? && s.cos[c].ow.value < |s.waiters|
    ensures Requested(s, s.waiters[s.cos[c].ow.value].tok)
  {
    ReachableListens(s, initial, max);
    var w := s.cos[c].ow.value;
    assert WaiterOk(s, w) && Listens(s, w);
  }
}
