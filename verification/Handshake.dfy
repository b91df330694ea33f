/** The one-shot waiter handshake shared by the mutex, the condition variable and the semaphore.

    Three parties race on a waiter: the coroutine that is still inside `await_suspend`, a waker
    (unlock, notify or release) and a cancel callback. The source gives each waiter three atomics:
    `resumed`, `cancelled` and `suspend_phase`. A `Slot` holds those three together with two history
    variables: `side`, how far the coroutine got, and `claim`, who won the waiter and how far that
    winner got. The operations below branch on the atomics only, never on the history. */
module Handshake {
  datatype Phase = Waiting | Suspended | WakeRequested

  /** Still inside await_suspend; parked; told not to park; resumed after parking. */
  datatype Side = Deciding | Parked | Declined | Left

  datatype Stage =
    | Won       // `resumed` was exchanged
    | Stored    // a cancel callback has stored `cancelled`
    | Deferred  // the phase was still Waiting: no resume is owed
    | Owes      // the phase was Suspended: the winner must get the coroutine resumed
    | Paid      // that has been done

  datatype Claim = Nobody | Claimed(cancel: bool, stage: Stage)

  datatype Slot = Slot(resumed: bool, cancelled: bool, phase: Phase, side: Side, claim: Claim)

  const FRESH_SLOT := Slot(false, false, Waiting, Deciding, Nobody)

  /** try_mark_resumed, when it returns true. */
  function Win(t: Slot, cancel: bool): Slot {
    t.(resumed := true, claim := Claimed(cancel, Won))
  }

  /** cancelled.store(true). */
  function Store(t: Slot): Slot
    requires t.claim.Claimed?
  {
    t.(cancelled := true, claim := t.claim.(stage := Stored))
  }

  /** try_mark_suspended: compare-exchange from Waiting to Suspended. */
  function Mark(t: Slot): Slot {
    if t.phase == Waiting then t.(phase := Suspended, side := Parked) else t.(side := Declined)
  }

  /** should_resume_now: compare-exchange from Waiting to WakeRequested; it returns true when the
      phase was Suspended. */
  function Decide(t: Slot): Slot
    requires t.claim.Claimed?
  {
    if t.phase == Waiting then t.(phase := WakeRequested, claim := t.claim.(stage := Deferred))
    else if t.phase == Suspended then t.(claim := t.claim.(stage := Owes))
    else t
  }

  /** What the winner does next with a waiter it has claimed and not decided: a cancel callback stores
      `cancelled` first. */
  function Proceed(t: Slot): Slot
    requires t.claim.Claimed?
  {
    if t.claim.cancel && t.claim.stage == Won then Store(t) else Decide(t)
  }

  /** handle.resume() on behalf of this waiter. */
  function Pay(t: Slot): Slot
    requires t.claim.Claimed?
  {
    t.(side := Left, claim := t.claim.(stage := Paid))
  }

  /** The claim has been won and should_resume_now is still to come. */
  predicate Undecided(t: Slot) { t.claim.Claimed? && (t.claim.stage == Won || t.claim.stage == Stored) }

  /** The winner has nothing left to do for this waiter. */
  predicate Settled(t: Slot) { t.claim.Claimed? && (t.claim.stage == Deferred || t.claim.stage == Paid) }

  /** The lock, the permit or the notification went to this waiter. */
  predicate Granted(t: Slot) { t.claim.Claimed? && !t.claim.cancel }

  /** A bound on the steps still to be taken on account of a claim, or for want of one. */
  function ClaimLeft(t: Claim): nat {
    match t
    case Nobody => 6
    case Claimed(_, stage) => if stage == Won then 5 else if stage == Stored then 4 else if stage == Owes then 2 else 0
  }

  /** What every interleaving of the three parties keeps. */
  predicate SlotOk(t: Slot) {
    && (t.resumed <==> t.claim.Claimed?)
    && (t.cancelled <==> t.claim.Claimed? && t.claim.cancel && t.claim.stage != Won)
    && (t.claim.Claimed? && t.claim.stage == Stored ==> t.claim.cancel)
    && match t.side
       case Deciding => if t.claim.Nobody? || Undecided(t) then t.phase == Waiting
                        else t.claim.stage == Deferred && t.phase == WakeRequested
       case Parked => t.phase == Suspended && (t.claim.Nobody? || Undecided(t) || t.claim.stage == Owes)
       case Declined => t.phase == WakeRequested && t.claim.Claimed? && t.claim.stage == Deferred
       case Left => t.phase == Suspended && t.claim.Claimed? && t.claim.stage == Paid
  }

  /** The coroutine is no longer held up by this waiter. */
  predicate Gone(t: Slot) { t.side == Declined || t.side == Left }

  /** A waiter is claimed once, for good, and its coroutine leaves it once, for good. */
  predicate SlotAdvances(t: Slot, t': Slot) {
    && (t.claim.Claimed? ==> t'.claim.Claimed? && t'.claim.cancel == t.claim.cancel)
    && (t.side != Deciding ==> t'.side != Deciding)
    && (Gone(t) ==> t'.side == t.side)
    && (t.side == Parked && t'.side == Left ==> t.claim.Claimed? && t.claim.stage == Owes)
    && (t.side == Deciding ==> t'.side != Left)
    && (t.side == Deciding && t'.side == Declined ==> t.claim.Claimed?)
    && (t.side == Parked ==> t'.side != Declined)
  }

  lemma SlotStepsAdvance(t: Slot)
    requires SlotOk(t)
    ensures SlotAdvances(t, t)
    ensures !t.resumed ==> SlotAdvances(t, Win(t, true)) && SlotAdvances(t, Win(t, false))
    ensures t.side == Deciding ==> SlotAdvances(t, Mark(t))
    ensures Undecided(t) ==> SlotAdvances(t, Store(t)) && SlotAdvances(t, Decide(t))
    ensures t.claim.Claimed? && t.claim.stage == Owes ==> SlotAdvances(t, Pay(t))
  {}
}
