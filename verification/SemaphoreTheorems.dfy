/** What counting_semaphore promises, in every run of the step machine. */
module SemaphoreTheorems {
  import opened Basics
  import opened Handshake
  import opened SemaphoreModel
  import opened SemaphoreInvariant

  ghost predicate Reachable(s: State, initial: int, max: nat) {
    exists run :: IsRun(run, initial, max) && run[|run| - 1] == s
  }

  lemma ReachableInv(s: State, initial: int, max: nat)
    requires Reachable(s, initial, max)
    ensures Inv(s, initial) && s.max == max
  {
    var run :| IsRun(run, initial, max) && run[|run| - 1] == s;
    RunInv(run, initial, max);
  }

  /** Permits are conserved: those there were and those released are in the count, with those who
      acquired them, or were dropped at max(). Those who acquired them have returned, or are exactly the
      coroutines on their way to return without throwing. */
  lemma PermitsConserved(s: State, initial: int, max: nat)
    requires Reachable(s, initial, max)
    ensures Sanitize(initial, max) + s.released == s.count + s.acquired + s.dropped
    ensures 0 <= s.count <= max
    ensures s.acquired == s.succeeded + |s.holding|
    ensures forall c: nat :: c in s.holding <==> c < |s.cos| && HasPermit(s, c)
  {
    ReachableInv(s, initial, max);
    forall c: nat ensures c in s.holding <==> c < |s.cos| && HasPermit(s, c) {
      assert c < |s.cos| ==> (c in s.holding <==> HasPermit(s, c));
    }
  }

  /** A permit is never kept in the count while a waiter queues for one, claimed or not, and then every
      waiter there ever was has been claimed. */
  lemma NoIdlePermit(s: State, initial: int, max: nat)
    requires Reachable(s, initial, max) && s.count > 0
    ensures s.q == []
    ensures forall w :: 0 <= w < |s.waiters| ==> s.waiters[w].slot.resumed
  {
    ReachableInv(s, initial, max);
    forall w | 0 <= w < |s.waiters| ensures s.waiters[w].slot.resumed { assert WaiterOk(s, w); }
  }

  lemma NoStrayResume(s: State, initial: int, max: nat)
    requires Reachable(s, initial, max)
    ensures !s.fault
  {
    ReachableInv(s, initial, max);
  }

  /** await_resume throws exactly when cancellation was seen before queueing, or a cancel callback won
      the waiter; and it returns exactly when the coroutine was given a permit. */
  lemma ThrowsIff(s: State, initial: int, max: nat, c: nat)
    requires Reachable(s, initial, max) && c < |s.cos| && s.cos[c].AqResume?
    ensures var p := s.cos[c];
      && (p.ow.Some? ==> p.ow.value < |s.waiters| && s.waiters[p.ow.value].slot.claim.Claimed?)
      && (Throws(s, p.immediate, p.ow) <==>
            p.immediate || (p.ow.Some? && s.waiters[p.ow.value].slot.claim.cancel))
      && (Throws(s, p.immediate, p.ow) <==> c !in s.holding)
  {
    ReachableInv(s, initial, max);
    assert CoOk(s, c);
    assert c in s.holding <==> HasPermit(s, c);
    if s.cos[c].ow.Some? { assert WaiterOk(s, s.cos[c].ow.value); }
  }

  /** Cancellation is seen before queueing exactly when one of the two tests finds the token cancelled. */
  lemma SeenBeforeQueueing(s: State, initial: int, max: nat, c: nat)
    requires Reachable(s, initial, max) && CoEnabled(s, c)
    ensures var p, p' := s.cos[c], CoStep(s, c).cos[c];
      (p'.AqResume? && p'.immediate) <==> ((p.AqReady? || p.AqCheck?) && Requested(s, p.tok))
  {
    ReachableInv(s, initial, max);
    assert CoOk(s, c);
  }

  /** The winner of a parked waiter always has a step left that leads to the resume. */
  lemma ClaimedAndParked(s: State, initial: int, max: nat, w: nat)
    requires Reachable(s, initial, max) && w < |s.waiters|
    requires s.waiters[w].slot.side == Parked && s.waiters[w].slot.resumed
    ensures s.waiters[w].co < |s.cos| && s.cos[s.waiters[w].co] == AqParked(w)
    ensures WinnerEnabled(s, w) || (s.guard.SDeciding? && s.guard.w == w)
  {
    ReachableInv(s, initial, max);
    assert WaiterOk(s, w);
  }

  lemma CoStepAdvances(s: State, c: nat, w: nat)
    requires CoEnabled(s, c) && CoOk(s, c) && w < |s.waiters| && SlotOk(s.waiters[w].slot)
    ensures var s' := CoStep(s, c); w < |s'.waiters| && SlotAdvances(s.waiters[w].slot, s'.waiters[w].slot)
  {
    SlotStepsAdvance(s.waiters[w].slot);
  }

  lemma ReleaseAdvances(s: State, w: nat)
    requires ReleaseEnabled(s) && w < |s.waiters| && SlotOk(s.waiters[w].slot)
    requires s.guard.SDeciding? ==> Undecided(s.waiters[s.guard.w].slot)
    ensures var s' := ReleaseStep(s); w < |s'.waiters| && SlotAdvances(s.waiters[w].slot, s'.waiters[w].slot)
  {
    SlotStepsAdvance(s.waiters[w].slot);
  }

  lemma WinnerAdvances(s: State, u: nat, w: nat)
    requires WinnerEnabled(s, u) && w < |s.waiters| && SlotOk(s.waiters[w].slot)
    ensures var s' := WinnerStep(s, u); w < |s'.waiters| && SlotAdvances(s.waiters[w].slot, s'.waiters[w].slot)
  {
    SlotStepsAdvance(s.waiters[w].slot);
  }

  /** A waiter is claimed once, for good, and its coroutine leaves it once: told not to park, or resumed
      after it has parked. */
  lemma LeavesOnce(s: State, st: Step, initial: int, max: nat, w: nat)
    requires Reachable(s, initial, max) && Enabled(s, st) && w < |s.waiters|
    ensures var s' := Apply(s, st); w < |s'.waiters| && SlotAdvances(s.waiters[w].slot, s'.waiters[w].slot)
  {
    ReachableInv(s, initial, max);
    assert WaiterOk(s, w);
    match st
    case Coroutine(c) =>
      assert CoOk(s, c);
      CoStepAdvances(s, c, w);
    case Release => ReleaseAdvances(s, w);
    case Winner(u) => WinnerAdvances(s, u, w);
    case _ => SlotStepsAdvance(s.waiters[w].slot);
  }

  // ---- refinement of a counter with a FIFO of sleepers ----

  datatype Counter = Counter(count: int, sleepers: seq<nat>)

  datatype CounterStep =
    | Stutter
    | Acquire                      // takes a permit out of the count
    | Join(c: nat)                 // queues when there is none
    | Leave(i: nat)                // cancelled while queueing
    | Unit                         // a released unit goes to the oldest sleeper, else to the count

  predicate AbsEnabled(a: Counter, st: CounterStep) {
    match st
    case Stutter => true
    case Acquire => a.count > 0
    case Join(_) => a.count == 0
    case Leave(i) => i < |a.sleepers|
    case Unit => true
  }

  function AbsApply(a: Counter, st: CounterStep, max: int): Counter
    requires AbsEnabled(a, st)
  {
    match st
    case Stutter => a
    case Acquire => a.(count := a.count - 1)
    case Join(c) => a.(sleepers := a.sleepers + [c])
    case Leave(i) => a.(sleepers := a.sleepers[..i] + a.sleepers[i + 1..])
    case Unit =>
      if a.sleepers != [] then a.(sleepers := a.sleepers[1..])
      else if a.count == max then a else a.(count := a.count + 1)
  }

  function Entries(ws: seq<Waiter>): (es: seq<Entry>)
    ensures |es| == |ws| && forall u :: 0 <= u < |ws| ==> es[u] == Entry(ws[u].co, ws[u].slot.resumed)
  {
    seq(|ws|, u requires 0 <= u < |ws| => Entry(ws[u].co, ws[u].slot.resumed))
  }

  function View(s: State): Counter { Counter(s.count, Live(Entries(s.waiters), Queue(s))) }

  function CallbackEffect(s: State, w: nat): CounterStep
    requires w < |s.waiters|
  {
    if s.waiters[w].slot.resumed then Stutter else Leave(Rank(Entries(s.waiters), Queue(s), w))
  }

  /** Where each concrete step takes effect: at a write of `count_`, at an enqueue or at a claim. */
  function Effect(s: State, st: Step): CounterStep
    requires Enabled(s, st)
  {
    match st
    case TryAcquire => if s.count > 0 then Acquire else Stutter
    case Callback(w) => CallbackEffect(s, w)
    case Coroutine(c) =>
      (match s.cos[c]
       case AqTry(_) => if s.count > 0 then Acquire else Stutter
       case AqEnqueue(_) => if s.count > 0 then Acquire else Join(c)
       case AqCallback(w) => CallbackEffect(s, w)
       case _ => Stutter)
    case Release =>
      (match s.guard
       case SLoop(left) => if left > 0 && s.q == [] then Unit else Stutter
       case SClaiming(_, w) => if s.waiters[w].slot.resumed then Stutter else Unit
       case _ => Stutter)
    case _ => Stutter
  }

  lemma SameView(s: State, s': State)
    requires |s.waiters| <= |s'.waiters| && s'.count == s.count && Queue(s') == Queue(s)
    requires forall u :: u in Queue(s) ==> u < |s.waiters|
    requires forall u :: 0 <= u < |s.waiters| ==>
      s'.waiters[u].co == s.waiters[u].co && s'.waiters[u].slot.resumed == s.waiters[u].slot.resumed
    ensures View(s') == View(s)
  {
    LiveSame(Entries(s.waiters), Entries(s'.waiters), Queue(s));
  }

  lemma CallbackRefines(s: State, initial: int, w: nat)
    requires Inv(s, initial) && w < |s.waiters|
    ensures AbsEnabled(View(s), CallbackEffect(s, w))
    ensures View(CallbackClaim(s, w)) == AbsApply(View(s), CallbackEffect(s, w), s.max)
  {
    assert WaiterOk(s, w);
    QueueFacts(s);
    if !s.waiters[w].slot.resumed {
      LiveClaim(Entries(s.waiters), Entries(CallbackClaim(s, w).waiters), Queue(s), w);
    }
  }

  lemma MovesUnseen(s: State, c: nat, p: Pc)
    requires c < |s.cos|
    ensures View(SetCo(s, c, p)) == View(s)
  {}

  lemma EnqueueRefines(s: State, initial: int, c: nat, tok: Option<nat>)
    requires Inv(s, initial) && CoEnabled(s, c) && s.cos[c] == AqEnqueue(tok) && s.count == 0
    ensures View(CoStep(s, c)) == AbsApply(View(s), Join(c), s.max)
  {
    var ws := s.waiters + [Waiter(c, tok, false, FRESH_SLOT)];
    QueueFacts(s);
    assert CoStep(s, c).waiters == ws && Queue(CoStep(s, c)) == Queue(s) + [|s.waiters|];
    LivePush(Entries(ws), Queue(s), |s.waiters|);
    LiveSame(Entries(s.waiters), Entries(ws), Queue(s));
  }

  /** The steps of a coroutine that no queue and no count sees. */
  predicate Unseen(p: Pc) { !p.AqCallback? && !p.AqEnqueue? && !p.AqTry? }

  lemma UnseenRefines(s: State, initial: int, c: nat)
    requires Inv(s, initial) && CoEnabled(s, c) && Unseen(s.cos[c])
    ensures View(CoStep(s, c)) == View(s)
  {
    QueueFacts(s);
    SameView(s, CoStep(s, c));
  }

  lemma CoroutineRefines(s: State, initial: int, c: nat)
    requires Inv(s, initial) && CoEnabled(s, c)
    ensures AbsEnabled(View(s), Effect(s, Coroutine(c)))
    ensures View(CoStep(s, c)) == AbsApply(View(s), Effect(s, Coroutine(c)), s.max)
  {
    match s.cos[c]
    case AqCallback(w) =>
      CallbackRefines(s, initial, w);
      MovesUnseen(CallbackClaim(s, w), c, AqInline(w));
    case AqEnqueue(tok) => if s.count == 0 { EnqueueRefines(s, initial, c, tok); }
    case AqTry(_) =>
    case _ => UnseenRefines(s, initial, c);
  }

  lemma ReleaseRefines(s: State, initial: int)
    requires Inv(s, initial) && ReleaseEnabled(s)
    ensures AbsEnabled(View(s), Effect(s, Release))
    ensures View(ReleaseStep(s)) == AbsApply(View(s), Effect(s, Release), s.max)
  {
    var s' := ReleaseStep(s);
    QueueFacts(s);
    match s.guard
    case SLoop(left) =>
      if s.q != [] { assert [s.q[0]] + s.q[1..] == s.q; }
    case SClaiming(_, w) =>
      assert Queue(s)[1..] == s.q && w !in s.q;
      LiveSame(Entries(s.waiters), Entries(s'.waiters), s.q);
    case SDeciding(_, w) => SameView(s, s');
  }

  lemma StepRefines(s: State, initial: int, st: Step)
    requires Inv(s, initial) && Enabled(s, st)
    ensures AbsEnabled(View(s), Effect(s, st))
    ensures View(Apply(s, st)) == AbsApply(View(s), Effect(s, st), s.max)
  {
    QueueFacts(s);
    match st
    case Coroutine(c) => CoroutineRefines(s, initial, c);
    case Callback(w) => CallbackRefines(s, initial, w);
    case Release => ReleaseRefines(s, initial);
    case Winner(w) => SameView(s, WinnerStep(s, w));
    case _ =>
  }

  ghost predicate CounterNext(a: Counter, a': Counter, max: int) {
    exists st :: AbsEnabled(a, st) && a' == AbsApply(a, st, max)
  }

  lemma {:induction false} PrefixReachable(run: seq<State>, initial: int, max: nat, i: nat)
    requires IsRun(run, initial, max) && i < |run|
    ensures Reachable(run[i], initial, max)
  {
    var prefix := run[..i + 1];
    assert IsRun(prefix, initial, max) && prefix[|prefix| - 1] == run[i];
  }

  lemma NextRefines(s: State, s': State, initial: int, max: nat)
    requires Reachable(s, initial, max) && Next(s, s')
    ensures CounterNext(View(s), View(s'), max)
  {
    ReachableInv(s, initial, max);
    var st :| Enabled(s, st) && s' == Apply(s, st);
    StepRefines(s, initial, st);
  }

  /** Every run, seen through View, is a run of the counter with a FIFO of sleepers. */
  lemma RunRefines(run: seq<State>, initial: int, max: nat)
    requires IsRun(run, initial, max)
    ensures View(run[0]) == Counter(Sanitize(initial, max), [])
    ensures forall i :: 0 <= i < |run| - 1 ==> CounterNext(View(run[i]), View(run[i + 1]), max)
  {
    forall i | 0 <= i < |run| - 1 ensures CounterNext(View(run[i]), View(run[i + 1]), max) {
      PrefixReachable(run, initial, max, i);
      assert Next(run[i], run[i + 1]);
      NextRefines(run[i], run[i + 1], initial, max);
    }
  }

  // ---- nothing is stranded ----

  /** No call is in progress anywhere: only user code could take a step. */
  ghost predicate Quiescent(s: State) {
    && s.guard.SFree?
    && (forall c :: 0 <= c < |s.cos| ==> !CoEnabled(s, c))
    && (forall w :: 0 <= w < |s.waiters| ==> !WinnerEnabled(s, w))
  }

  /** When no call is in progress, a coroutine is in user code, or it is parked on an unclaimed waiter
      and there is no permit to give it; and every permit taken has been reported. */
  lemma NothingStranded(s: State, initial: int, max: nat, c: nat)
    requires Reachable(s, initial, max) && Quiescent(s) && c < |s.cos|
    ensures s.cos[c].Run? || (s.cos[c].AqParked? && s.cos[c].w < |s.waiters|
                              && !s.waiters[s.cos[c].w].slot.resumed && s.count == 0)
    ensures c !in s.holding
  {
    ReachableInv(s, initial, max);
    assert CoOk(s, c);
    assert !CoEnabled(s, c);
    assert c in s.holding <==> HasPermit(s, c);
    forall w | 0 <= w < |s.waiters| ensures WaiterOk(s, w) && (s.waiters[w].slot.resumed ==> Settled(s.waiters[w].slot)) {
      assert WaiterOk(s, w);
      assert !WinnerEnabled(s, w);
    }
  }
}
