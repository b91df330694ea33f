/** The invariant of the mutex and condition-variable machine. */
module LockInvariant {
  import opened Basics
  import opened Handshake
  import opened LockModel

  /** A waiter that unlock has popped and not yet tried to claim is in hand. */
  predicate InHand(s: State, w: nat) { s.mguard.MClaiming? && s.mguard.w == w }

  predicate InWaitHand(s: State, w: nat) { s.cguard.CClaiming? && s.cguard.w == w }

  predicate Queued(s: State, w: nat, k: Kind) {
    if k == LockWaiter then w in s.mq || InHand(s, w) else w in s.cq || InWaitHand(s, w)
  }

  predicate IsKind(s: State, w: nat, k: Kind) { w < |s.waiters| && s.waiters[w].kind == k }

  /** Coroutine c is at a co_await whose waiter is w, and that co_await has not ended. */
  predicate Mine(s: State, c: nat, w: nat, k: Kind) {
    IsKind(s, w, k) && s.waiters[w].co == c && s.waiters[w].outcome.None?
  }

  predicate MineAt(s: State, c: nat, w: nat, k: Kind, side: Side) {
    Mine(s, c, w, k) && s.waiters[w].slot.side == side
  }

  predicate MineGone(s: State, c: nat, w: nat, k: Kind) { Mine(s, c, w, k) && Gone(s.waiters[w].slot) }

  predicate HandedTo(s: State, w: nat) { IsKind(s, w, LockWaiter) && Granted(s.waiters[w].slot) }

  // ---- coroutines ----

  predicate CoOk(s: State, c: nat)
    requires c < |s.cos|
  {
    match s.cos[c]
    case Unlocking(next) => next.Some? ==> HandedTo(s, next.value)
    case LkRegister(w) => MineAt(s, c, w, LockWaiter, Deciding)
    case LkCallback(w) => MineAt(s, c, w, LockWaiter, Deciding) && s.waiters[w].tok.Some?
    case LkInline(w) => MineAt(s, c, w, LockWaiter, Deciding)
    case LkMark(w) => MineAt(s, c, w, LockWaiter, Deciding)
    case LkParked(w) => MineAt(s, c, w, LockWaiter, Parked)
    case LkResume(immediate, ow) =>
      && (immediate ==> ow.None?)
      && (ow.Some? ==> MineGone(s, c, ow.value, LockWaiter))
    case CvUnlock(v, next) =>
      MineAt(s, c, v, WaitWaiter, Deciding) && (next.Some? ==> HandedTo(s, next.value))
    case CvRegister(v) => MineAt(s, c, v, WaitWaiter, Deciding)
    case CvCallback(v) => MineAt(s, c, v, WaitWaiter, Deciding) && s.waiters[v].tok.Some?
    case CvInline(v) => MineAt(s, c, v, WaitWaiter, Deciding)
    case CvMark(v) => MineAt(s, c, v, WaitWaiter, Deciding)
    case CvParked(v) => MineAt(s, c, v, WaitWaiter, Parked)
    case CvRelock(v) => MineAt(s, c, v, WaitWaiter, Declined)
    case CvRelockMark(v, m) =>
      MineAt(s, c, v, WaitWaiter, Declined) && MineAt(s, c, m, LockWaiter, Deciding) && s.waiters[m].tok.None?
    case CvRelockParked(v, m) =>
      MineGone(s, c, v, WaitWaiter) && MineAt(s, c, m, LockWaiter, Parked) && s.waiters[m].tok.None?
    case CvResume(immediate, ow) =>
      && (immediate <==> ow.None?)
      && (ow.Some? ==> MineGone(s, c, ow.value, WaitWaiter))
    case _ => true
  }

  // ---- waiters ----

  /** The waiter on which a coroutine with this program counter has yet to decide to park. */
  function DecidingAt(p: Pc): Option<nat> {
    match p
    case LkRegister(w) => Some(w)
    case LkCallback(w) => Some(w)
    case LkInline(w) => Some(w)
    case LkMark(w) => Some(w)
    case CvUnlock(v, _) => Some(v)
    case CvRegister(v) => Some(v)
    case CvCallback(v) => Some(v)
    case CvInline(v) => Some(v)
    case CvMark(v) => Some(v)
    case CvRelockMark(_, m) => Some(m)
    case _ => None
  }

  function ParkedAt(p: Pc): Option<nat> {
    match p
    case LkParked(w) => Some(w)
    case CvParked(v) => Some(v)
    case CvRelockParked(_, m) => Some(m)
    case _ => None
  }

  /** The waiter that the coroutine has got past although its co_await has not ended. */
  function LeavingAt(p: Pc): Option<nat> {
    match p
    case LkResume(_, ow) => ow
    case CvRelock(v) => Some(v)
    case CvRelockMark(v, _) => Some(v)
    case CvRelockParked(v, _) => Some(v)
    case CvResume(_, ow) => ow
    case _ => None
  }

  /** lock_and_resume pushed the mutex waiter w for a coroutine that is parked on p.v. */
  predicate PushedBehind(s: State, p: Pc, w: nat) {
    p.CvParked? && p.v < |s.waiters| && s.waiters[p.v].relay == Pushed(w)
  }

  predicate RelayOk(s: State, w: nat)
    requires w < |s.waiters|
  {
    var x := s.waiters[w];
    && (x.kind == LockWaiter ==> x.relay.NotYet?)
    && (!x.relay.NotYet? ==> x.slot.claim.Claimed? && (x.slot.claim.stage == Owes || x.slot.claim.stage == Paid))
    && (x.relay.Pushed? && x.slot.claim.stage == Owes ==>
          MineAt(s, x.co, x.relay.m, LockWaiter, Deciding) && s.waiters[x.relay.m].tok.None?)
  }

  predicate WaiterOk(s: State, w: nat)
    requires w < |s.waiters|
  {
    var x := s.waiters[w];
    var t := x.slot;
    && SlotOk(t)
    && x.co < |s.cos|
    && (x.registered || (t.claim.Claimed? && t.claim.cancel) ==> x.tok.Some?)
    && RelayOk(s, w)
    && (!t.resumed ==> Queued(s, w, x.kind))
    && (x.kind == LockWaiter && t.claim == Claimed(false, Won) ==> s.mguard == MDeciding(w))
    && (t.side == Deciding ==> DecidingAt(s.cos[x.co]) == Some(w) || PushedBehind(s, s.cos[x.co], w))
    && (t.side == Parked ==> ParkedAt(s.cos[x.co]) == Some(w))
    && (x.kind == WaitWaiter && Gone(t) && x.outcome.None? ==>
          LeavingAt(s.cos[x.co]) == Some(w))
    && (x.outcome.Some? ==>
          Gone(t) && t.claim.Claimed? && x.outcome.value == t.claim.cancel)
  }

  // ---- ownership ----

  /** Coroutine c has the lock, judged by where it is and by its waiters. */
  predicate Owns(s: State, c: nat)
    requires c < |s.cos|
  {
    match s.cos[c]
    case Run(o) => o
    case Unlocking(next) => next.None?
    case LkRegister(w) => HandedTo(s, w)
    case LkCallback(w) => HandedTo(s, w)
    case LkInline(w) => HandedTo(s, w)
    case LkMark(w) => HandedTo(s, w)
    case LkParked(w) => HandedTo(s, w)
    case LkResume(immediate, ow) => !Throws(s, immediate, ow)
    case CvReady(_) => true
    case CvCheck(_) => true
    case CvEnqueue(_) => true
    case CvUnlock(_, next) => next.None?
    case CvParked(v) =>
      v < |s.waiters| && (s.waiters[v].relay.HasLock? || (s.waiters[v].relay.Pushed? && HandedTo(s, s.waiters[v].relay.m)))
    case CvRelockMark(_, m) => HandedTo(s, m)
    case CvRelockParked(_, m) => HandedTo(s, m)
    case CvResume(_, _) => true
    case _ => false
  }

  predicate CallsUnlock(s: State, c: nat) {
    c < |s.cos| && (s.cos[c] == Unlocking(None) || (s.cos[c].CvUnlock? && s.cos[c].next.None?))
  }

  ghost predicate GuardsOk(s: State) {
    && match s.mguard
       case MFree => true
       case MPopping(c) => CallsUnlock(s, c) && s.locked
       case MClaiming(c, w) => CallsUnlock(s, c) && s.locked
       case MDeciding(w) => IsKind(s, w, LockWaiter) && s.waiters[w].slot.claim == Claimed(false, Won) && s.locked
  }

  ghost predicate QueuesOk(s: State) {
    && NoDup(s.mq) && NoDup(s.cq)
    && (forall w :: w in s.mq ==> IsKind(s, w, LockWaiter) && !InHand(s, w))
    && (forall w :: w in s.cq ==> IsKind(s, w, WaitWaiter) && !InWaitHand(s, w))
    && (s.mguard.MClaiming? ==> IsKind(s, s.mguard.w, LockWaiter))
    && (s.cguard.CClaiming? ==> IsKind(s, s.cguard.w, WaitWaiter))
    && (!s.locked ==> s.mq == [])
  }

  ghost predicate Inv(s: State) {
    && !s.fault
    && GuardsOk(s)
    && QueuesOk(s)
    && (s.locked <==> s.owner.Some?)
    && (s.owner.Some? ==> s.owner.value < |s.cos|)
    && (forall c {:trigger Owns(s, c)} :: 0 <= c < |s.cos| ==> (s.owner == Some(c) <==> Owns(s, c)))
    && (forall c {:trigger CoOk(s, c)} :: 0 <= c < |s.cos| ==> CoOk(s, c))
    && (forall w {:trigger WaiterOk(s, w)} :: 0 <= w < |s.waiters| ==> WaiterOk(s, w))
  }

  // ---- what a step leaves alone ----

  /** s' differs from s only at coroutines c and e, at waiters in ws (all of them c's) and at new
      waiters, besides the guards, the queues, the flag and the history. */
  ghost predicate OnlyTouches(s: State, s': State, c: nat, e: nat, ws: set<nat>) {
    && |s.cos| <= |s'.cos| && |s.waiters| <= |s'.waiters| && c < |s.cos| && e < |s.cos|
    && (forall d :: 0 <= d < |s.cos| && d != c && d != e ==> s'.cos[d] == s.cos[d])
    && (forall u :: 0 <= u < |s.waiters| && u !in ws ==> s'.waiters[u] == s.waiters[u])
    && (forall u :: u in ws && u < |s.waiters| ==>
          && s.waiters[u].co == c == s'.waiters[u].co
          && s'.waiters[u].kind == s.waiters[u].kind
          && s'.waiters[u].tok == s.waiters[u].tok
          && (Granted(s.waiters[u].slot) ==> Granted(s'.waiters[u].slot)))
  }

  lemma OtherCoOk(s: State, s': State, c: nat, e: nat, ws: set<nat>, d: nat)
    requires OnlyTouches(s, s', c, e, ws) && d < |s.cos| && CoOk(s, d) && d != c && d != e
    ensures CoOk(s', d)
  {}

  lemma OthersCoOk(s: State, s': State, c: nat, e: nat, ws: set<nat>)
    requires Inv(s) && OnlyTouches(s, s', c, e, ws)
    ensures forall d :: 0 <= d < |s.cos| && d != c && d != e ==> CoOk(s', d)
  {
    forall d | 0 <= d < |s.cos| && d != c && d != e ensures CoOk(s', d) {
      assert CoOk(s, d);
      OtherCoOk(s, s', c, e, ws, d);
    }
  }

  lemma OthersOwn(s: State, s': State, c: nat, e: nat, ws: set<nat>)
    requires Inv(s) && OnlyTouches(s, s', c, e, ws)
    ensures forall d :: 0 <= d < |s.cos| && d != c && d != e ==> (Owns(s', d) <==> s.owner == Some(d))
  {
    forall d | 0 <= d < |s.cos| && d != c && d != e ensures Owns(s', d) <==> s.owner == Some(d) {
      assert CoOk(s, d);
      assert s.owner == Some(d) <==> Owns(s, d);
      if s.cos[d].CvParked? { assert WaiterOk(s, s.cos[d].v); }
    }
  }

  /** c and e leave alone the waiters they are at, other than those in ws. */
  predicate KeepsPlaces(p: Pc, p': Pc, ws: set<nat>) {
    && (DecidingAt(p) == DecidingAt(p') || (DecidingAt(p).Some? ==> DecidingAt(p).value in ws))
    && (ParkedAt(p) == ParkedAt(p') || (ParkedAt(p).Some? ==> ParkedAt(p).value in ws))
    && (LeavingAt(p) == LeavingAt(p') || (LeavingAt(p).Some? ==> LeavingAt(p).value in ws))
  }

  /** lock_and_resume for u has pushed m and is about to mark it. */
  predicate OwesFor(s: State, u: nat, m: nat) {
    && u < |s.waiters| && s.waiters[u].relay == Pushed(m)
    && s.waiters[u].slot.claim.Claimed? && s.waiters[u].slot.claim.stage == Owes
  }

  ghost predicate PlacesKept(s: State, s': State, c: nat, e: nat, ws: set<nat>)
    requires OnlyTouches(s, s', c, e, ws)
  {
    && KeepsPlaces(s.cos[c], s'.cos[c], ws) && KeepsPlaces(s.cos[e], s'.cos[e], ws)
    && (forall u :: u !in ws && PushedBehind(s, s.cos[c], u) ==> PushedBehind(s', s'.cos[c], u))
    && (e != c ==> !s.cos[e].CvParked?)
    && (forall u, k :: u !in ws && Queued(s, u, k) ==> Queued(s', u, k))
    && (s.mguard != s'.mguard && s.mguard.MDeciding? ==> s.mguard.w in ws)
    && (forall u, m :: u !in ws && m in ws && OwesFor(s, u, m) ==>
          m < |s.waiters| && s'.waiters[m].slot.side == s.waiters[m].slot.side && s'.waiters[m].outcome == s.waiters[m].outcome)
  }

  lemma OtherWaiterOk(s: State, s': State, c: nat, e: nat, ws: set<nat>, u: nat)
    requires OnlyTouches(s, s', c, e, ws) && PlacesKept(s, s', c, e, ws)
    requires u < |s.waiters| && u !in ws && WaiterOk(s, u)
    requires s.cos[s.waiters[u].co].CvParked? ==> CoOk(s, s.waiters[u].co)
    ensures WaiterOk(s', u)
  {}

  /** A step keeps the invariant if what it touches is in order afterwards. */
  lemma Touch(s: State, s': State, c: nat, e: nat, ws: set<nat>)
    requires Inv(s) && OnlyTouches(s, s', c, e, ws) && PlacesKept(s, s', c, e, ws)
    requires |s'.cos| == |s.cos|
    requires CoOk(s', c) && CoOk(s', e)
    requires s'.owner == Some(c) <==> Owns(s', c)
    requires s'.owner == Some(e) <==> Owns(s', e)
    requires forall d :: d != c && d != e ==> (s'.owner == Some(d) <==> s.owner == Some(d))
    requires forall u :: 0 <= u < |s'.waiters| && (u in ws || u >= |s.waiters|) ==> WaiterOk(s', u)
    requires !s'.fault && GuardsOk(s') && QueuesOk(s')
    requires s'.locked <==> s'.owner.Some?
    ensures Inv(s')
  {
    OthersCoOk(s, s', c, e, ws);
    OthersOwn(s, s', c, e, ws);
    forall u | 0 <= u < |s.waiters| && u !in ws ensures WaiterOk(s', u) {
      assert WaiterOk(s, u);
      assert CoOk(s, s.waiters[u].co);
      OtherWaiterOk(s, s', c, e, ws, u);
    }
  }
}
