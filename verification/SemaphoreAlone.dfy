/** An acquire or try_acquire that nobody interferes with, from user code on. */
module SemaphoreAlone {
  import opened Basics
  import opened Handshake
  import opened SemaphoreModel
  import opened SemaphoreInvariant

  /** Only coroutine c takes steps: k of them, or as many as it can. */
  function Alone(s: State, c: nat, k: nat): State
    decreases k
  {
    if k == 0 || !CoEnabled(s, c) then s else Alone(CoStep(s, c), c, k - 1)
  }

  lemma AloneStep(s: State, c: nat, k: nat)
    requires CoEnabled(s, c) && k > 0
    ensures Alone(s, c, k) == Alone(CoStep(s, c), c, k - 1)
  {}

  lemma SetTwice(s: State, c: nat, p: Pc, q: Pc)
    requires c < |s.cos|
    ensures SetCo(SetCo(s, c, p), c, q) == SetCo(s, c, q)
  {
    assert s.cos[c := p][c := q] == s.cos[c := q];
  }

  /** try_acquire takes a permit iff there is one, and the caller is told. */
  lemma TryAcquireTakes(s: State)
    requires Enabled(s, TryAcquire)
    ensures var s' := Apply(s, TryAcquire);
      && (s.count > 0 ==> s'.count == s.count - 1 && s'.succeeded == s.succeeded + 1 && s'.acquired == s.acquired + 1)
      && (s.count <= 0 ==> s' == s)
      && s'.q == s.q && s'.waiters == s.waiters && s'.cos == s.cos && s'.guard == s.guard
  {}

  /** acquire(token) when the token is requested: over after await_ready, and nothing has changed. */
  lemma AcquireCancelled(s: State, c: nat, tok: Option<nat>)
    requires Enabled(s, BeginAcquire(c, tok)) && Requested(s, tok)
    ensures Alone(Apply(s, BeginAcquire(c, tok)), c, 2) == s
  {
    var s1 := Apply(s, BeginAcquire(c, tok));
    SetTwice(s, c, AqReady(tok), AqResume(true, None));
    assert CoStep(s1, c) == SetCo(s, c, AqResume(true, None));
    SetTwice(s, c, AqResume(true, None), Run);
    assert s.cos[c := Run] == s.cos;
    assert CoStep(CoStep(s1, c), c) == s;
    AloneStep(s1, c, 2);
  }

  lemma ReachesTry(s: State, c: nat, tok: Option<nat>, k: nat)
    requires Enabled(s, BeginAcquire(c, tok)) && !Requested(s, tok) && k > 0
    ensures Alone(Apply(s, BeginAcquire(c, tok)), c, k) == Alone(SetCo(s, c, AqTry(tok)), c, k - 1)
  {
    var s1 := Apply(s, BeginAcquire(c, tok));
    SetTwice(s, c, AqReady(tok), AqTry(tok));
    assert CoStep(s1, c) == SetCo(s, c, AqTry(tok));
    AloneStep(s1, c, k);
  }

  /** acquire while there is a permit takes it, and returns. */
  lemma AcquireTakes(s: State, initial: int, c: nat, tok: Option<nat>)
    requires Inv(s, initial) && Enabled(s, BeginAcquire(c, tok)) && !Requested(s, tok) && s.guard.SFree? && s.count > 0
    ensures Alone(Apply(s, BeginAcquire(c, tok)), c, 3)
         == s.(count := s.count - 1, acquired := s.acquired + 1, succeeded := s.succeeded + 1)
  {
    assert c in s.holding <==> HasPermit(s, c);
    ReachesTry(s, c, tok, 3);
    var s2, s3 := SetCo(s, c, AqTry(tok)), SetCo(Take(s, c), c, AqResume(false, None));
    SetTwice(Take(s, c), c, AqTry(tok), AqResume(false, None));
    assert CoStep(s2, c) == s3;
    SetTwice(Take(s, c), c, AqResume(false, None), Run);
    assert s.cos[c := Run] == s.cos && s.holding + {c} - {c} == s.holding;
    assert CoStep(s3, c) == s.(count := s.count - 1, acquired := s.acquired + 1, succeeded := s.succeeded + 1);
    AloneStep(s2, c, 2);
    AloneStep(s3, c, 1);
  }

  /** The waiter of an acquire that has parked. */
  function ParkedWaiter(c: nat, tok: Option<nat>): Waiter { Waiter(c, tok, tok.Some?, Mark(FRESH_SLOT)) }

  lemma NoPermitTry(s: State, c: nat, tok: Option<nat>)
    requires c < |s.cos| && s.guard.SFree? && s.count <= 0 && !Requested(s, tok)
    ensures CoEnabled(SetCo(s, c, AqTry(tok)), c) && CoEnabled(SetCo(s, c, AqCheck(tok)), c)
    ensures CoStep(SetCo(s, c, AqTry(tok)), c) == SetCo(s, c, AqCheck(tok))
    ensures CoStep(SetCo(s, c, AqCheck(tok)), c) == SetCo(s, c, AqEnqueue(tok))
  {
    SetTwice(s, c, AqTry(tok), AqCheck(tok));
    SetTwice(s, c, AqCheck(tok), AqEnqueue(tok));
  }

  function Pushed(s: State, c: nat, tok: Option<nat>): State
    requires c < |s.cos|
  {
    SetCo(s.(q := s.q + [|s.waiters|], waiters := s.waiters + [Waiter(c, tok, false, FRESH_SLOT)]), c, AqRegister(|s.waiters|))
  }

  lemma NoPermitEnqueue(s: State, c: nat, tok: Option<nat>)
    requires c < |s.cos| && s.guard.SFree? && s.count <= 0
    ensures CoEnabled(SetCo(s, c, AqEnqueue(tok)), c) && CoStep(SetCo(s, c, AqEnqueue(tok)), c) == Pushed(s, c, tok)
  {
    var s1 := s.(q := s.q + [|s.waiters|], waiters := s.waiters + [Waiter(c, tok, false, FRESH_SLOT)]);
    SetTwice(s1, c, AqEnqueue(tok), AqRegister(|s.waiters|));
  }

  /** From the registration on, the coroutine parks. */
  lemma RegistersAndParks(s: State, c: nat, tok: Option<nat>)
    requires c < |s.cos| && !Requested(s, tok)
    ensures Alone(Pushed(s, c, tok), c, 2)
         == s.(q := s.q + [|s.waiters|], waiters := s.waiters + [ParkedWaiter(c, tok)], cos := s.cos[c := AqParked(|s.waiters|)])
  {
    var n, x := |s.waiters|, Waiter(c, tok, tok.Some?, FRESH_SLOT);
    var s1 := SetCo(s.(q := s.q + [n], waiters := s.waiters + [x]), c, AqMark(n));
    assert Pushed(s, c, tok).waiters[n := x] == s.waiters + [x];
    assert s.cos[c := AqRegister(n)][c := AqMark(n)] == s.cos[c := AqMark(n)];
    assert CoStep(Pushed(s, c, tok), c) == s1;
    assert s1.waiters[n := ParkedWaiter(c, tok)] == s.waiters + [ParkedWaiter(c, tok)];
    assert s.cos[c := AqMark(n)][c := AqParked(n)] == s.cos[c := AqParked(n)];
    AloneStep(Pushed(s, c, tok), c, 2);
    AloneStep(s1, c, 1);
  }

  /** acquire while there is no permit: the coroutine parks, last in the queue, its callback registered iff it
      gave a token. */
  lemma AcquireQueues(s: State, c: nat, tok: Option<nat>)
    requires Enabled(s, BeginAcquire(c, tok)) && !Requested(s, tok) && s.guard.SFree? && s.count <= 0
    ensures Alone(Apply(s, BeginAcquire(c, tok)), c, 6)
         == s.(q := s.q + [|s.waiters|], waiters := s.waiters + [ParkedWaiter(c, tok)], cos := s.cos[c := AqParked(|s.waiters|)])
  {
    ReachesTry(s, c, tok, 6);
    NoPermitTry(s, c, tok);
    NoPermitEnqueue(s, c, tok);
    AloneStep(SetCo(s, c, AqTry(tok)), c, 5);
    AloneStep(SetCo(s, c, AqCheck(tok)), c, 4);
    AloneStep(SetCo(s, c, AqEnqueue(tok)), c, 3);
    RegistersAndParks(s, c, tok);
  }
}
