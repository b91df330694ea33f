/** The invariant of the semaphore machine, and why every step keeps it. */
module SemaphoreInvariant {
  import opened Basics
  import opened Handshake
  import opened SemaphoreModel

  predicate InHand(s: State, w: nat) { s.guard.SClaiming? && s.guard.w == w }

  predicate Mine(s: State, c: nat, w: nat, side: Side) {
    w < |s.waiters| && s.waiters[w].co == c && s.waiters[w].slot.side == side
  }

  predicate CoOk(s: State, c: nat)
    requires c < |s.cos|
  {
    match s.cos[c]
    case AqRegister(w) => Mine(s, c, w, Deciding)
    case AqCallback(w) => Mine(s, c, w, Deciding) && s.waiters[w].tok.Some?
    case AqInline(w) => Mine(s, c, w, Deciding)
    case AqMark(w) => Mine(s, c, w, Deciding)
    case AqParked(w) => Mine(s, c, w, Parked)
    case AqResume(immediate, ow) =>
      && (immediate ==> ow.None?)
      && (ow.Some? ==> Mine(s, c, ow.value, Declined) || Mine(s, c, ow.value, Left))
    case _ => true
  }

  /** Coroutine c has a permit that its caller has not been told about, judged by where it is. */
  predicate HasPermit(s: State, c: nat)
    requires c < |s.cos|
  {
    match s.cos[c]
    case AqRegister(w) => w < |s.waiters| && Granted(s.waiters[w].slot)
    case AqCallback(w) => w < |s.waiters| && Granted(s.waiters[w].slot)
    case AqInline(w) => w < |s.waiters| && Granted(s.waiters[w].slot)
    case AqMark(w) => w < |s.waiters| && Granted(s.waiters[w].slot)
    case AqParked(w) => w < |s.waiters| && Granted(s.waiters[w].slot)
    case AqResume(immediate, ow) => !Throws(s, immediate, ow)
    case _ => false
  }

  function DecidingAt(p: Pc): Option<nat> {
    match p
    case AqRegister(w) => Some(w)
    case AqCallback(w) => Some(w)
    case AqInline(w) => Some(w)
    case AqMark(w) => Some(w)
    case _ => None
  }

  predicate WaiterOk(s: State, w: nat)
    requires w < |s.waiters|
  {
    var x, t := s.waiters[w], s.waiters[w].slot;
    && SlotOk(t)
    && x.co < |s.cos|
    && (x.registered || (t.claim.Claimed? && t.claim.cancel) ==> x.tok.Some?)
    && (!t.resumed ==> w in s.q || InHand(s, w))
    && (t.claim == Claimed(false, Won) ==> s.guard.SDeciding? && s.guard.w == w)
    && (t.side == Deciding ==> DecidingAt(s.cos[x.co]) == Some(w))
    && (t.side == Parked ==> s.cos[x.co] == AqParked(w))
  }

  ghost predicate GuardOk(s: State) {
    && NoDup(s.q)
    && (forall w :: w in s.q ==> w < |s.waiters| && !InHand(s, w))
    && (s.guard.SClaiming? ==> s.guard.w < |s.waiters| && s.guard.left > 0)
    && (s.guard.SDeciding? ==>
          s.guard.w < |s.waiters| && s.waiters[s.guard.w].slot.claim == Claimed(false, Won) && s.guard.left > 0)
    && 0 <= s.count <= s.max
    && (s.count > 0 ==> s.q == [] && !s.guard.SClaiming? && !s.guard.SDeciding?)
  }

  ghost predicate Inv(s: State, initial: int) {
    && !s.fault
    && GuardOk(s)
    && Sanitize(initial, s.max) + s.released == s.count + s.acquired + s.dropped
    && s.acquired == s.succeeded + |s.holding|
    && (forall c :: c in s.holding ==> c < |s.cos|)
    && (forall c {:trigger HasPermit(s, c)} :: 0 <= c < |s.cos| ==> (c in s.holding <==> HasPermit(s, c)))
    && (forall c {:trigger CoOk(s, c)} :: 0 <= c < |s.cos| ==> CoOk(s, c))
    && (forall w {:trigger WaiterOk(s, w)} :: 0 <= w < |s.waiters| ==> WaiterOk(s, w))
  }

  /** The queue, with a waiter in hand as its front. */
  function Queue(s: State): seq<nat> { if s.guard.SClaiming? then [s.guard.w] + s.q else s.q }

  lemma QueueFacts(s: State)
    requires GuardOk(s)
    ensures NoDup(Queue(s))
    ensures forall u :: u in Queue(s) <==> u in s.q || InHand(s, u)
    ensures forall u :: u in Queue(s) ==> u < |s.waiters|
    ensures s.guard.SClaiming? ==> Queue(s)[0] == s.guard.w && Queue(s)[1..] == s.q
  {
    assert forall i :: 0 <= i < |s.q| ==> s.q[i] in s.q;
  }

  // ---- what a step leaves alone ----

  /** s' differs from s, as far as coroutines and waiters go, only at coroutine c, at its waiters in
      ws and at new waiters. */
  ghost predicate OnlyTouches(s: State, s': State, c: nat, ws: set<nat>) {
    && |s.cos| == |s'.cos| && |s.waiters| <= |s'.waiters| && c < |s.cos|
    && (forall d :: 0 <= d < |s.cos| && d != c ==> s'.cos[d] == s.cos[d])
    && (forall u :: 0 <= u < |s.waiters| && u !in ws ==> s'.waiters[u] == s.waiters[u])
    && (forall u :: u in ws && u < |s.waiters| ==> s.waiters[u].co == c == s'.waiters[u].co)
    && (DecidingAt(s.cos[c]) == DecidingAt(s'.cos[c]) || (DecidingAt(s.cos[c]).Some? ==> DecidingAt(s.cos[c]).value in ws))
    && (s.cos[c].AqParked? ==> s'.cos[c] == s.cos[c] || s.cos[c].w in ws)
    && (forall u :: u !in ws && (u in s.q || InHand(s, u)) ==> u in s'.q || InHand(s', u))
    && (s.guard.SDeciding? ==> s'.guard == s.guard || s.guard.w in ws)
    && (forall d :: d != c ==> (d in s'.holding <==> d in s.holding))
  }

  lemma OtherOk(s: State, s': State, c: nat, ws: set<nat>, d: nat)
    requires OnlyTouches(s, s', c, ws) && d < |s.cos| && d != c && CoOk(s, d)
    ensures CoOk(s', d) && (HasPermit(s', d) <==> HasPermit(s, d))
  {}

  lemma OtherWaiterOk(s: State, s': State, c: nat, ws: set<nat>, u: nat)
    requires OnlyTouches(s, s', c, ws) && u < |s.waiters| && u !in ws && WaiterOk(s, u)
    ensures WaiterOk(s', u)
  {}

  /** A step keeps the invariant if what it touches is in order afterwards. */
  lemma Touch(s: State, s': State, initial: int, c: nat, ws: set<nat>)
    requires Inv(s, initial) && OnlyTouches(s, s', c, ws)
    requires CoOk(s', c) && (c in s'.holding <==> HasPermit(s', c))
    requires forall u :: 0 <= u < |s'.waiters| && (u in ws || u >= |s.waiters|) ==> WaiterOk(s', u)
    requires !s'.fault && GuardOk(s') && s'.max == s.max
    requires Sanitize(initial, s.max) + s'.released == s'.count + s'.acquired + s'.dropped
    requires s'.acquired == s'.succeeded + |s'.holding|
    ensures Inv(s', initial)
  {
    forall d | 0 <= d < |s'.cos| && d != c ensures CoOk(s', d) && (d in s'.holding <==> HasPermit(s', d)) {
      assert CoOk(s, d);
      assert d in s.holding <==> HasPermit(s, d);
      OtherOk(s, s', c, ws, d);
    }
    forall u | 0 <= u < |s.waiters| && u !in ws ensures WaiterOk(s', u) {
      assert WaiterOk(s, u);
      OtherWaiterOk(s, s', c, ws, u);
    }
  }

  // ---- the steps ----

  /** Coroutine c only moves. */
  lemma MoveInv(s: State, initial: int, c: nat, p: Pc)
    requires Inv(s, initial) && c < |s.cos| && !s.cos[c].AqParked?
    requires DecidingAt(p) == DecidingAt(s.cos[c])
    requires CoOk(SetCo(s, c, p), c) && (HasPermit(SetCo(s, c, p), c) <==> HasPermit(s, c))
    ensures Inv(SetCo(s, c, p), initial)
  {
    assert c in s.holding <==> HasPermit(s, c);
    Touch(s, SetCo(s, c, p), initial, c, {});
  }

  lemma TakeInv(s: State, initial: int, c: nat)
    requires Inv(s, initial) && c < |s.cos| && s.count > 0 && (s.cos[c].AqTry? || s.cos[c].AqEnqueue?)
    ensures Inv(SetCo(Take(s, c), c, AqResume(false, None)), initial)
  {
    assert c in s.holding <==> HasPermit(s, c);
    Touch(s, SetCo(Take(s, c), c, AqResume(false, None)), initial, c, {});
  }

  lemma EnqueueInv(s: State, initial: int, c: nat)
    requires Inv(s, initial) && CoEnabled(s, c) && s.cos[c].AqEnqueue? && s.count <= 0
    ensures Inv(CoStep(s, c), initial)
  {
    assert c in s.holding <==> HasPermit(s, c);
    assert forall i :: 0 <= i < |s.q| ==> s.q[i] in s.q;
    Touch(s, CoStep(s, c), initial, c, {});
  }

  /** Coroutine c, still deciding about its waiter w, changes w to x and moves to p. */
  lemma WaiterInv(s: State, initial: int, c: nat, w: nat, x: Waiter, p: Pc)
    requires Inv(s, initial) && c < |s.cos| && DecidingAt(s.cos[c]) == Some(w) && w < |s.waiters|
    requires x.co == c && s.waiters[w].co == c
    requires var s' := SetCo(s.(waiters := s.waiters[w := x]), c, p);
      CoOk(s', c) && WaiterOk(s', w) && (HasPermit(s', c) <==> HasPermit(s, c))
    requires s.waiters[w].slot.claim == Claimed(false, Won) ==> x.slot.claim == Claimed(false, Won)
    ensures Inv(SetCo(s.(waiters := s.waiters[w := x]), c, p), initial)
  {
    assert c in s.holding <==> HasPermit(s, c);
    Touch(s, SetCo(s.(waiters := s.waiters[w := x]), c, p), initial, c, {w});
  }

  lemma DecidingInv(s: State, initial: int, c: nat, w: nat)
    requires Inv(s, initial) && CoEnabled(s, c) && DecidingAt(s.cos[c]) == Some(w)
    ensures Inv(CoStep(s, c), initial)
  {
    assert CoOk(s, c) && WaiterOk(s, w);
    var x := s.waiters[w];
    match s.cos[c]
    case AqRegister(_) =>
      if x.tok.None? { MoveInv(s, initial, c, AqMark(w)); }
      else if Requested(s, x.tok) { MoveInv(s, initial, c, AqCallback(w)); }
      else { WaiterInv(s, initial, c, w, x.(registered := true), AqMark(w)); }
    case AqCallback(_) =>
      if x.slot.resumed { MoveInv(s, initial, c, AqInline(w)); }
      else { WaiterInv(s, initial, c, w, x.(slot := Win(x.slot, true)), AqInline(w)); }
    case AqInline(_) => MoveInv(s, initial, c, AqMark(w));
    case AqMark(_) =>
      WaiterInv(s, initial, c, w, x.(slot := Mark(x.slot)),
                if x.slot.phase == Waiting then AqParked(w) else AqResume(false, Some(w)));
  }

  lemma EndInv(s: State, initial: int, c: nat)
    requires Inv(s, initial) && CoEnabled(s, c) && s.cos[c].AqResume?
    ensures Inv(CoStep(s, c), initial)
  {
    assert CoOk(s, c);
    assert c in s.holding <==> HasPermit(s, c);
    Touch(s, CoStep(s, c), initial, c, {});
  }

  lemma CoStepInv(s: State, initial: int, c: nat)
    requires Inv(s, initial) && CoEnabled(s, c)
    ensures Inv(CoStep(s, c), initial)
  {
    match s.cos[c]
    case AqReady(tok) => MoveInv(s, initial, c, if Requested(s, tok) then AqResume(true, None) else AqTry(tok));
    case AqTry(tok) => if s.count > 0 { TakeInv(s, initial, c); } else { MoveInv(s, initial, c, AqCheck(tok)); }
    case AqCheck(tok) => MoveInv(s, initial, c, if Requested(s, tok) then AqResume(true, None) else AqEnqueue(tok));
    case AqEnqueue(_) => if s.count > 0 { TakeInv(s, initial, c); } else { EnqueueInv(s, initial, c); }
    case AqResume(_, _) => EndInv(s, initial, c);
    case AqRegister(w) => DecidingInv(s, initial, c, w);
    case AqCallback(w) => DecidingInv(s, initial, c, w);
    case AqInline(w) => DecidingInv(s, initial, c, w);
    case AqMark(w) => DecidingInv(s, initial, c, w);
  }

  /** A step that moves nobody and changes no waiter. */
  lemma IdleInv(s: State, s': State, initial: int)
    requires Inv(s, initial) && s'.cos == s.cos && s'.waiters == s.waiters && s'.holding == s.holding
    requires !s'.fault && s'.max == s.max && GuardOk(s')
    requires !s.guard.SDeciding? || s'.guard == s.guard
    requires forall u: nat :: (u in s.q || InHand(s, u)) && u < |s.waiters| && !s.waiters[u].slot.resumed ==>
      u in s'.q || InHand(s', u)
    requires Sanitize(initial, s.max) + s'.released == s'.count + s'.acquired + s'.dropped
    requires s'.acquired == s'.succeeded + |s'.holding|
    ensures Inv(s', initial)
  {
    forall d | 0 <= d < |s'.cos| ensures CoOk(s', d) && (d in s'.holding <==> HasPermit(s', d)) {
      assert CoOk(s, d);
      assert d in s.holding <==> HasPermit(s, d);
    }
    forall u | 0 <= u < |s.waiters| ensures WaiterOk(s', u) { assert WaiterOk(s, u); }
  }

  /** What a release call or a callback may do to a waiter. */
  predicate SlotMoves(x: Waiter, y: Waiter) {
    && y == x.(slot := y.slot) && y.slot.side == x.slot.side
    && (x.slot.claim.Claimed? ==> y.slot.claim.Claimed? && y.slot.claim.cancel == x.slot.claim.cancel)
    && (x.slot.side == Declined || x.slot.side == Left ==> y == x)
  }

  predicate NewlyGranted(x: Waiter, y: Waiter) { !x.slot.resumed && Granted(y.slot) }

  lemma SlotLocal(s: State, s': State, w: nat, c: nat)
    requires w < |s.waiters| == |s'.waiters| && s'.cos == s.cos && c == s.waiters[w].co && c < |s.cos|
    requires s'.waiters == s.waiters[w := s'.waiters[w]] && SlotMoves(s.waiters[w], s'.waiters[w])
    requires CoOk(s, c) && WaiterOk(s, w)
    ensures CoOk(s', c)
    ensures HasPermit(s', c) <==> HasPermit(s, c) || NewlyGranted(s.waiters[w], s'.waiters[w])
    ensures NewlyGranted(s.waiters[w], s'.waiters[w]) ==> !HasPermit(s, c)
  {}

  /** A step of a release call or of a callback that changes waiter w but moves nobody. */
  lemma SlotInv(s: State, s': State, initial: int, w: nat)
    requires Inv(s, initial) && w < |s.waiters| && s'.cos == s.cos && s'.q == s.q
    requires |s'.waiters| == |s.waiters| && s'.waiters == s.waiters[w := s'.waiters[w]]
    requires var x, y := s.waiters[w], s'.waiters[w];
      && SlotMoves(x, y)
      && s'.holding == (if NewlyGranted(x, y) then s.holding + {x.co} else s.holding)
      && s'.acquired == (if NewlyGranted(x, y) then s.acquired + 1 else s.acquired)
    requires s'.succeeded == s.succeeded
    requires !s'.fault && s'.max == s.max && GuardOk(s') && WaiterOk(s', w)
    requires InHand(s, w) || s'.guard == s.guard || s.guard.SDeciding?
    requires s.guard.SDeciding? ==> s'.guard == s.guard || s.guard.w == w
    requires Sanitize(initial, s.max) + s'.released == s'.count + s'.acquired + s'.dropped
    ensures Inv(s', initial)
  {
    var c := s.waiters[w].co;
    assert WaiterOk(s, w);
    assert CoOk(s, c);
    assert c in s.holding <==> HasPermit(s, c);
    SlotLocal(s, s', w, c);
    Touch(s, s', initial, c, {w});
  }

  lemma ReleaseInv(s: State, initial: int)
    requires Inv(s, initial) && ReleaseEnabled(s)
    ensures Inv(ReleaseStep(s), initial)
  {
    match s.guard
    case SLoop(left) =>
      if s.q != [] { PopFacts(s.q); }
      IdleInv(s, ReleaseStep(s), initial);
    case SClaiming(_, w) =>
      assert WaiterOk(s, w);
      if s.waiters[w].slot.resumed { IdleInv(s, ReleaseStep(s), initial); }
      else { SlotInv(s, ReleaseStep(s), initial, w); }
    case SDeciding(_, w) =>
      assert WaiterOk(s, w);
      SlotInv(s, ReleaseStep(s), initial, w);
  }

  lemma CallbackInv(s: State, initial: int, w: nat)
    requires Inv(s, initial) && w < |s.waiters| && s.waiters[w].registered
    ensures Inv(CallbackClaim(s, w), initial)
  {
    assert WaiterOk(s, w);
    SlotInv(s, CallbackClaim(s, w), initial, w);
  }

  lemma WinnerInv(s: State, initial: int, w: nat)
    requires Inv(s, initial) && WinnerEnabled(s, w)
    ensures Inv(WinnerStep(s, w), initial)
  {
    var c := s.waiters[w].co;
    assert WaiterOk(s, w);
    if Undecided(s.waiters[w].slot) {
      SlotInv(s, WinnerStep(s, w), initial, w);
    } else {
      assert CoOk(s, c);
      assert c in s.holding <==> HasPermit(s, c);
      Touch(s, WinnerStep(s, w), initial, c, {w});
    }
  }

  lemma NewCoroutineInv(s: State, initial: int)
    requires Inv(s, initial)
    ensures Inv(s.(cos := s.cos + [Run]), initial)
  {
    var s' := s.(cos := s.cos + [Run]);
    forall d | 0 <= d < |s'.cos| ensures CoOk(s', d) && (d in s'.holding <==> HasPermit(s', d)) {
      assert d < |s.cos| ==> CoOk(s, d) && (d in s.holding <==> HasPermit(s, d));
    }
    forall u | 0 <= u < |s.waiters| ensures WaiterOk(s', u) { assert WaiterOk(s, u); }
  }

  lemma StepInv(s: State, st: Step, initial: int)
    requires Inv(s, initial) && Enabled(s, st)
    ensures Inv(Apply(s, st), initial)
  {
    match st
    case NewCoroutine => NewCoroutineInv(s, initial);
    case Request(_) => IdleInv(s, Apply(s, st), initial);
    case TryAcquire => IdleInv(s, Apply(s, st), initial);
    case BeginAcquire(c, tok) => MoveInv(s, initial, c, AqReady(tok));
    case BeginRelease(_) => IdleInv(s, Apply(s, st), initial);
    case Callback(w) => CallbackInv(s, initial, w);
    case Coroutine(c) => CoStepInv(s, initial, c);
    case Release => ReleaseInv(s, initial);
    case Winner(w) => WinnerInv(s, initial, w);
  }

  lemma {:induction false} RunInv(run: seq<State>, initial: int, max: nat)
    requires IsRun(run, initial, max)
    ensures Inv(run[|run| - 1], initial) && run[|run| - 1].max == max
  {
    if |run| > 1 {
      RunInv(run[..|run| - 1], initial, max);
      assert Next(run[|run| - 2], run[|run| - 1]);
      var st :| Enabled(run[|run| - 2], st) && run[|run| - 1] == Apply(run[|run| - 2], st);
      StepInv(run[|run| - 2], st, initial);
    }
  }
}
