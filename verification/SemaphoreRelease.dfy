/** A release call of the step machine that nobody interferes with while it holds the internal lock. */
module SemaphoreRelease {
  import opened Basics
  import opened Handshake
  import opened WaitQueue
  import opened SemaphoreModel
  import opened SemaphoreInvariant
  import Semaphores

  function Left(g: Guard): nat {
    match g
    case SFree => 0
    case SLoop(left) => left + 1
    case SClaiming(left, _) => left + 1
    case SDeciding(left, _) => left + 1
  }

  /** The machine runs the steps of the release call, and no others, until the lock is free. */
  ghost function Solo(s: State, initial: int): (r: State)
    requires Inv(s, initial)
    ensures Inv(r, initial) && r.guard.SFree?
    decreases Left(s.guard), |s.q|, if s.guard.SClaiming? then 1 else 0
  {
    if s.guard.SFree? then s else ReleaseInv(s, initial); Solo(ReleaseStep(s), initial)
  }

  /** release(update), started in s. */
  ghost function Released(s: State, initial: int, update: int): (r: State)
    requires Inv(s, initial) && s.guard.SFree?
    ensures Inv(r, initial) && r.guard.SFree?
  {
    StepInv(s, BeginRelease(update), initial);
    Solo(Apply(s, BeginRelease(update)), initial)
  }

  lemma SoloStep(s: State, initial: int)
    requires Inv(s, initial) && !s.guard.SFree?
    ensures Inv(ReleaseStep(s), initial) && Solo(s, initial) == Solo(ReleaseStep(s), initial)
  {
    ReleaseInv(s, initial);
  }

  // ---- release(a + b) is release(a), then release(b) ----

  function More(s: State, b: nat): State {
    match s.guard
    case SFree => s
    case SLoop(left) => s.(guard := SLoop(left + b))
    case SClaiming(left, w) => s.(guard := SClaiming(left + b, w))
    case SDeciding(left, w) => s.(guard := SDeciding(left + b, w))
  }

  lemma MoreInv(s: State, b: nat, initial: int)
    requires Inv(s, initial) && !s.guard.SFree?
    ensures Inv(More(s, b), initial)
  {
    var s' := More(s, b);
    forall d | 0 <= d < |s'.cos| ensures CoOk(s', d) && (d in s'.holding <==> HasPermit(s', d)) {
      assert CoOk(s, d) && (d in s.holding <==> HasPermit(s, d));
    }
    forall u | 0 <= u < |s'.waiters| ensures WaiterOk(s', u) { assert WaiterOk(s, u); }
  }

  lemma MoreStep(s: State, b: nat)
    requires ReleaseEnabled(s) && s.guard != SLoop(0)
    ensures ReleaseEnabled(More(s, b)) && ReleaseStep(More(s, b)) == More(ReleaseStep(s), b)
    ensures !ReleaseStep(s).guard.SFree?
  {}

  /** One step of the call on both sides. */
  lemma SoloMoreStep(s: State, b: nat, initial: int)
    requires Inv(s, initial) && !s.guard.SFree? && s.guard != SLoop(0)
    ensures var s1 := ReleaseStep(s);
      && !s1.guard.SFree? && Inv(s1, initial) && Inv(More(s1, b), initial) && Inv(More(s, b), initial)
      && Solo(s, initial) == Solo(s1, initial)
      && Solo(More(s, b), initial) == Solo(More(s1, b), initial)
  {
    MoreStep(s, b);
    SoloStep(s, initial);
    MoreInv(s, b, initial);
    SoloStep(More(s, b), initial);
  }

  lemma SoloMoreEnd(s: State, b: nat, initial: int)
    requires Inv(s, initial) && s.guard == SLoop(0) && b > 0
    ensures Inv(More(s, b), initial) && Solo(More(s, b), initial) == Released(Solo(s, initial), initial, b)
  {
    MoreInv(s, b, initial);
    SoloStep(s, initial);
    assert ReleaseStep(s) == s.(guard := SFree);
    assert Apply(s.(guard := SFree), BeginRelease(b)) == More(s, b);
  }

  lemma {:induction false} SoloMore(s: State, b: nat, initial: int)
    requires Inv(s, initial) && !s.guard.SFree? && b > 0
    ensures Inv(More(s, b), initial) && Solo(More(s, b), initial) == Released(Solo(s, initial), initial, b)
    decreases Left(s.guard), |s.q|, if s.guard.SClaiming? then 1 else 0
  {
    if s.guard == SLoop(0) {
      SoloMoreEnd(s, b, initial);
    } else {
      SoloMoreStep(s, b, initial);
      SoloMore(ReleaseStep(s), b, initial);
    }
  }

  /** As whole states of the machine: queue, count, waiters, and every history variable. */
  lemma ReleaseInTwo(s: State, initial: int, a: nat, b: nat)
    requires Inv(s, initial) && s.guard.SFree?
    ensures Released(s, initial, a + b) == Released(Released(s, initial, a), initial, b)
  {
    if a > 0 && b > 0 {
      StepInv(s, BeginRelease(a), initial);
      MoreInv(s.(guard := SLoop(a)), b, initial);
      SoloMore(s.(guard := SLoop(a)), b, initial);
    }
  }

  // ---- what it computes is what the method computes ----

  function All(ws: seq<Waiter>): (all: seq<Ticket>)
    ensures |all| == |ws| && forall u :: 0 <= u < |ws| ==> all[u] == Ticket(ws[u].co, ws[u].slot)
  {
    seq(|ws|, u requires 0 <= u < |ws| => Ticket(ws[u].co, ws[u].slot))
  }

  lemma SlotChanges(ws: seq<Waiter>, w: nat, t: Slot)
    requires w < |ws|
    ensures All(ws[w := ws[w].(slot := t)]) == All(ws)[w := All(ws)[w].(slot := t)]
  {}

  /** Releasing `units` into the queue q of the waiters `all`, and into count, turns them into q', all' and
      count'. */
  ghost predicate Serves(all: seq<Ticket>, q: seq<nat>, count: int, max: int, units: nat,
                         all': seq<Ticket>, q': seq<nat>, count': int)
    requires InRange(q, |all|)
  {
    && Pops(all, q, units, true, all', q')
    && count' == Semaphores.Banked(count, max, |Unclaimed(Pick(all, q))|, units)
  }

  lemma ServesFront(all: seq<Ticket>, q: seq<nat>, count: int, max: int, units: nat,
                    all': seq<Ticket>, q': seq<nat>, count': int)
    requires q != [] && NoDup(q) && InRange(q, |all|) && units > 0 && q[0] < |all|
    requires InRange(q[1..], |all|)
    requires var t := all[q[0]];
      Serves(all[q[0] := t.(slot := Grant(t.slot))], q[1..], count, max,
             if t.slot.resumed then units else units - 1, all', q', count')
    ensures Serves(all, q, count, max, units, all', q', count')
  {
    var t := all[q[0]];
    PopsFront(all, q, units, true, all', q');
    PopFacts(q);
    assert Pick(all[q[0] := t.(slot := Grant(t.slot))], q[1..]) == Pick(all, q)[1..];
  }

  /** Running alone from s, a release call with `units` to go serves the queue of s. */
  ghost predicate Served(s: State, initial: int, units: nat)
    requires Inv(s, initial)
  {
    && InRange(Queue(s), |s.waiters|)
    && var r := Solo(s, initial);
       Serves(All(s.waiters), Queue(s), s.count, s.max, units, All(r.waiters), r.q, r.count)
  }

  lemma AfterClaim(s: State, s2: State, initial: int, units: nat, left: nat)
    requires Inv(s, initial) && s.guard.SClaiming? && Inv(s2, initial) && units > 0
    requires var w := s.guard.w;
      && left == (if s.waiters[w].slot.resumed then units else units - 1)
      && s2.waiters == s.waiters[w := s.waiters[w].(slot := Grant(s.waiters[w].slot))]
      && s2.guard == SLoop(left) && s2.q == s.q && s2.count == s.count && s2.max == s.max
    requires Solo(s, initial) == Solo(s2, initial) && Served(s2, initial, left)
    ensures Served(s, initial, units)
  {
    QueueFacts(s);
    var r := Solo(s, initial);
    SlotChanges(s.waiters, s.guard.w, Grant(s.waiters[s.guard.w].slot));
    ServesFront(All(s.waiters), Queue(s), s.count, s.max, units, All(r.waiters), r.q, r.count);
  }

  lemma TwoSteps(s: State, initial: int)
    requires Inv(s, initial) && s.guard.SClaiming? && !s.waiters[s.guard.w].slot.resumed
    ensures Inv(ReleaseStep(s), initial) && ReleaseEnabled(ReleaseStep(s))
    ensures var s2, w := ReleaseStep(ReleaseStep(s)), s.guard.w;
      && Inv(s2, initial) && Solo(s, initial) == Solo(s2, initial)
      && s2.guard == SLoop(s.guard.left - 1) && s2.q == s.q && s2.count == s.count && s2.max == s.max
      && s2.waiters == s.waiters[w := s.waiters[w].(slot := Grant(s.waiters[w].slot))]
  {
    SoloStep(s, initial);
    SoloStep(ReleaseStep(s), initial);
  }

  lemma ServesNone(all: seq<Ticket>, q: seq<nat>, count: int, max: int)
    requires InRange(q, |all|) && count <= max
    ensures Serves(all, q, count, max, 0, all, q, count)
  {
    PopsNone(all, q, 0, true);
  }

  lemma ServesNobody(all: seq<Ticket>, count: int, max: int, units: nat, all': seq<Ticket>, q': seq<nat>, count': int)
    requires units > 0 && Serves(all, [], Min(max, count + 1), max, units - 1, all', q', count')
    ensures Serves(all, [], count, max, units, all', q', count')
  {}

  lemma EndsServing(s: State, s1: State, initial: int)
    requires Inv(s, initial) && Inv(s1, initial) && s.guard == SLoop(0) && s1 == s.(guard := SFree)
    requires Solo(s, initial) == s1
    ensures Served(s, initial, 0)
  {
    QueueFacts(s);
    ServesNone(All(s.waiters), s.q, s.count, s.max);
  }

  lemma PopsNext(s: State, s1: State, initial: int, units: nat)
    requires Inv(s, initial) && Inv(s1, initial) && s.guard == SLoop(units) && s.q != []
    requires s1 == s.(q := s.q[1..], guard := SClaiming(units, s.q[0]))
    requires Solo(s, initial) == Solo(s1, initial) && Served(s1, initial, units)
    ensures Served(s, initial, units)
  {
    assert Queue(s1) == s.q == Queue(s);
  }

  lemma BanksOne(s: State, s1: State, initial: int, units: nat)
    requires Inv(s, initial) && Inv(s1, initial) && s.q == [] && s.guard.SLoop? && units > 0
    requires s1 == s.(count := s1.count, guard := SLoop(units - 1), released := s1.released, dropped := s1.dropped)
    requires s1.count == Min(s.max, s.count + 1)
    requires Solo(s, initial) == Solo(s1, initial) && Served(s1, initial, units - 1)
    ensures Served(s, initial, units)
  {
    var r := Solo(s, initial);
    assert Queue(s) == [] && Queue(s1) == [];
    assert Serves(All(s.waiters), [], Min(s.max, s.count + 1), s.max, units - 1, All(r.waiters), r.q, r.count);
    ServesNobody(All(s.waiters), s.count, s.max, units, All(r.waiters), r.q, r.count);
  }

  // The steps of the loop that touch no waiter: it ends, it banks a unit, or it pops a waiter.

  lemma EndStep(s: State, initial: int)
    requires Inv(s, initial) && s.guard == SLoop(0)
    ensures Inv(ReleaseStep(s), initial) && ReleaseStep(s) == s.(guard := SFree)
    ensures Solo(s, initial) == ReleaseStep(s)
  {
    SoloStep(s, initial);
  }

  lemma BankStep(s: State, initial: int, units: nat)
    requires Inv(s, initial) && s.guard == SLoop(units) && units > 0 && s.q == []
    ensures var s1 := ReleaseStep(s);
      && Inv(s1, initial) && Solo(s, initial) == Solo(s1, initial)
      && s1 == s.(count := s1.count, guard := SLoop(units - 1), released := s1.released, dropped := s1.dropped)
      && s1.count == Min(s.max, s.count + 1)
  {
    SoloStep(s, initial);
  }

  lemma PopStep(s: State, initial: int, units: nat)
    requires Inv(s, initial) && s.guard == SLoop(units) && units > 0 && s.q != []
    ensures var s1 := ReleaseStep(s);
      && Inv(s1, initial) && Solo(s, initial) == Solo(s1, initial)
      && s1 == s.(q := s.q[1..], guard := SClaiming(units, s.q[0]))
  {
    SoloStep(s, initial);
  }

  /** With a waiter in hand. */
  lemma {:induction false} ClaimServes(s: State, initial: int, units: nat)
    requires Inv(s, initial) && s.guard.SClaiming? && s.guard.left == units
    ensures Served(s, initial, units)
    decreases units, |s.q|, 1
  {
    SoloStep(s, initial);
    var s1 := ReleaseStep(s);
    if s.waiters[s.guard.w].slot.resumed {
      SoloServes(s1, initial, units);
      AfterClaim(s, s1, initial, units, units);
    } else {
      TwoSteps(s, initial);
      SoloServes(ReleaseStep(s1), initial, units - 1);
      AfterClaim(s, ReleaseStep(s1), initial, units, units - 1);
    }
  }

  /** Left alone, a release call of the machine does to the queue, the waiters and the count what the
      method CountingSemaphore.Release is proved to do. */
  lemma {:induction false} SoloServes(s: State, initial: int, units: nat)
    requires Inv(s, initial) && (s.guard == SLoop(units) || (s.guard.SClaiming? && s.guard.left == units))
    ensures Served(s, initial, units)
    decreases units, |s.q|, if s.guard.SClaiming? then 2 else 0
  {
    var s1 := ReleaseStep(s);
    if s.guard.SClaiming? {
      ClaimServes(s, initial, units);
    } else if units == 0 {
      EndStep(s, initial);
      EndsServing(s, s1, initial);
    } else if s.q == [] {
      BankStep(s, initial, units);
      SoloServes(s1, initial, units - 1);
      BanksOne(s, s1, initial, units);
    } else {
      PopStep(s, initial, units);
      SoloServes(s1, initial, units);
      PopsNext(s, s1, initial, units);
    }
  }

  lemma EntersRelease(s: State, initial: int, update: nat) returns (s1: State)
    requires Inv(s, initial) && s.guard.SFree? && update > 0
    ensures Inv(s1, initial) && s1 == s.(guard := SLoop(update)) && Queue(s1) == s.q
    ensures Released(s, initial, update) == Solo(s1, initial)
  {
    s1 := Apply(s, BeginRelease(update));
    StepInv(s, BeginRelease(update), initial);
  }

  lemma ReleasesSome(s: State, initial: int, update: nat)
    requires Inv(s, initial) && s.guard.SFree? && update > 0
    ensures CallServes(s, Released(s, initial, update), update)
  {
    var s1 := EntersRelease(s, initial, update);
    SoloServes(s1, initial, update);
  }

  lemma ReleasesNone(s: State, initial: int)
    requires Inv(s, initial) && s.guard.SFree?
    ensures CallServes(s, Released(s, initial, 0), 0)
  {
    QueueFacts(s);
    StepInv(s, BeginRelease(0), initial);
    assert Released(s, initial, 0) == s;
    ServesNone(All(s.waiters), s.q, s.count, s.max);
  }

  /** A release call that finds s and leaves r has served the queue of s. */
  ghost predicate CallServes(s: State, r: State, update: nat) {
    && InRange(s.q, |s.waiters|)
    && Serves(All(s.waiters), s.q, s.count, s.max, update, All(r.waiters), r.q, r.count)
  }

  /** The same from the call on. */
  lemma ReleaseCallServes(s: State, initial: int, update: nat)
    requires Inv(s, initial) && s.guard.SFree?
    ensures CallServes(s, Released(s, initial, update), update)
  {
    if update > 0 { ReleasesSome(s, initial, update); } else { ReleasesNone(s, initial); }
  }
}
