/** Notifications and normal returns from cv.wait match one to one. */
module LockNotifications {
  import opened Basics
  import opened LockModel
  import opened LockInvariant
  import opened LockSteps
  import opened LockRefinement
  import opened LockWaiters

  // ---- counting waiters ----

  predicate Returned(x: Waiter) { x.kind == WaitWaiter && x.outcome == Some(false) }

  /** Notified, and the co_await has not ended. */
  predicate OnTheWay(x: Waiter) { Notified(x) && x.outcome.None? }

  function CountNotified(ws: seq<Waiter>): nat {
    if ws == [] then 0 else CountNotified(ws[..|ws| - 1]) + if Notified(ws[|ws| - 1]) then 1 else 0
  }

  function CountReturned(ws: seq<Waiter>): nat {
    if ws == [] then 0 else CountReturned(ws[..|ws| - 1]) + if Returned(ws[|ws| - 1]) then 1 else 0
  }

  function CountOnTheWay(ws: seq<Waiter>): nat {
    if ws == [] then 0 else CountOnTheWay(ws[..|ws| - 1]) + if OnTheWay(ws[|ws| - 1]) then 1 else 0
  }

  lemma {:induction false} CountSame(ws: seq<Waiter>, ws': seq<Waiter>)
    requires |ws| <= |ws'|
    requires forall u :: 0 <= u < |ws| ==> (Notified(ws'[u]) <==> Notified(ws[u]))
    requires forall u :: |ws| <= u < |ws'| ==> !Notified(ws'[u])
    ensures CountNotified(ws') == CountNotified(ws)
  {
    if |ws'| > |ws| {
      CountSame(ws, ws'[..|ws'| - 1]);
    } else if ws != [] {
      CountSame(ws[..|ws| - 1], ws'[..|ws| - 1]);
    }
  }

  lemma {:induction false} CountOneMore(ws: seq<Waiter>, ws': seq<Waiter>, w: nat)
    requires w < |ws| == |ws'| && !Notified(ws[w]) && Notified(ws'[w])
    requires forall u :: 0 <= u < |ws| && u != w ==> (Notified(ws'[u]) <==> Notified(ws[u]))
    ensures CountNotified(ws') == CountNotified(ws) + 1
  {
    var n := |ws| - 1;
    if w == n { CountSame(ws[..n], ws'[..n]); } else { CountOneMore(ws[..n], ws'[..n], w); }
  }

  lemma {:induction false} CountSplits(ws: seq<Waiter>)
    requires forall u :: 0 <= u < |ws| ==>
      (Notified(ws[u]) <==> Returned(ws[u]) || OnTheWay(ws[u]))
    ensures CountNotified(ws) == CountReturned(ws) + CountOnTheWay(ws)
  {
    if ws != [] { CountSplits(ws[..|ws| - 1]); }
  }

  // ---- one step ----

  /** A step makes one more waiter notified exactly when its effect is to awaken the oldest sleeper; no
      other step changes which waiters are notified. */
  lemma NotifiedByAwaken(s: State, st: Step)
    requires Inv(s) && Enabled(s, st)
    ensures CountNotified(Apply(s, st).waiters) == CountNotified(s.waiters) + if Effect(s, st).Awaken? then 1 else 0
  {
    if st.Notify? && s.cguard.CClaiming? { NotifiedByClaim(s); } else { NotifiedByOther(s, st); }
  }

  lemma NotifiedByClaim(s: State)
    requires Inv(s) && s.cguard.CClaiming? && NotifyEnabled(s)
    ensures CountNotified(NotifyStep(s).waiters) == CountNotified(s.waiters) + if Effect(s, Notify).Awaken? then 1 else 0
  {
    var s', w := NotifyStep(s), s.cguard.w;
    NotifyClaims(s, w);
    forall u | 0 <= u < |s.waiters| && u != w ensures Notified(s'.waiters[u]) <==> Notified(s.waiters[u]) {
      NotifyClaims(s, u);
    }
    assert WaiterOk(s, w);
    if s.waiters[w].slot.resumed {
      CountSame(s.waiters, s'.waiters);
    } else {
      CountOneMore(s.waiters, s'.waiters, w);
    }
  }

  lemma NotifiedByOther(s: State, st: Step)
    requires Inv(s) && Enabled(s, st) && !(st.Notify? && s.cguard.CClaiming?)
    ensures CountNotified(Apply(s, st).waiters) == CountNotified(s.waiters)
    ensures !Effect(s, st).Awaken?
  {
    var s' := Apply(s, st);
    StepLater(s, st, 0);
    forall u: nat | u < |s'.waiters|
      ensures if u < |s.waiters| then Notified(s'.waiters[u]) <==> Notified(s.waiters[u]) else !Notified(s'.waiters[u])
    {
      StepLater(s, st, u);
    }
    CountSame(s.waiters, s'.waiters);
  }

  // ---- whole runs ----

  ghost function Awakenings(run: seq<State>, steps: seq<Step>): nat
    requires Takes(run, steps)
  {
    if steps == [] then 0
    else
      var n := |steps| - 1;
      Awakenings(run[..n + 1], steps[..n]) + if Effect(run[n], steps[n]).Awaken? then 1 else 0
  }

  lemma {:induction false} AwakeningsCounted(run: seq<State>, steps: seq<Step>)
    requires Takes(run, steps)
    ensures Inv(run[|steps|]) && Awakenings(run, steps) == CountNotified(run[|steps|].waiters)
  {
    if steps != [] {
      var n := |steps| - 1;
      AwakeningsCounted(run[..n + 1], steps[..n]);
      NotifiedByAwaken(run[n], steps[n]);
      StepInv(run[n], steps[n]);
    }
  }

  lemma NotifiedSplits(s: State)
    requires Inv(s)
    ensures CountNotified(s.waiters) == CountReturned(s.waiters) + CountOnTheWay(s.waiters)
  {
    forall u | 0 <= u < |s.waiters|
      ensures Notified(s.waiters[u]) <==> Returned(s.waiters[u]) || OnTheWay(s.waiters[u])
    {
      assert WaiterOk(s, u);
    }
    CountSplits(s.waiters);
  }

  /** In every run, the notifications that found a sleeper are as many as the waits that have returned
      normally and those that were notified and are on their way back. */
  lemma NotificationsMatchReturns(run: seq<State>, steps: seq<Step>)
    requires Takes(run, steps)
    ensures Awakenings(run, steps) == CountReturned(run[|steps|].waiters) + CountOnTheWay(run[|steps|].waiters)
  {
    AwakeningsCounted(run, steps);
    NotifiedSplits(run[|steps|]);
  }
}
