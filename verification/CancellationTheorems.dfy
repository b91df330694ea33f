/** What cancellation_state promises, in every run of the step machine. */
module CancellationTheorems {
  import opened Basics
  import opened CancellationModel

  /** The request that set `cancelled_`. */
  predicate Winner(q: Request) { !q.Cas? && q != Returned(false) }

  /** The callbacks a request has still to invoke or is invoking. */
  function Todo(q: Request): seq<nat> {
    match q
    case Invoke(todo) => todo
    case Calling(_, todo) => todo
    case _ => []
  }

  predicate OnTheWay(reg: Reg) { reg.Start? || reg.Locking? || reg.Pushing? }

  predicate RanByRegistrar(reg: Reg) { reg.Refused? || reg.InlineCall? || reg.RanInline? }

  /** Whether some request is inside callback_() of c. */
  ghost predicate BeingCalled(s: State, c: nat) {
    exists r :: 0 <= r < |s.requests| && s.requests[r].Calling? && s.requests[r].cb == c
  }

  ghost predicate CallbackOk(s: State, c: nat)
    requires c < |s.callbacks|
  {
    var x := s.callbacks[c];
    && (OnTheWay(x.reg) ==> !x.invoked && x.runs == 0 && !x.erased && c !in s.list && c !in s.taken)
    && (x.reg.Pushing? <==> s.lock == Some(c))
    && (x.reg.Refused? ==> s.cancelled && !x.invoked && x.runs == 0)
    && (x.reg.InlineCall? ==> s.cancelled && x.invoked && x.runs == 0)
    && (x.reg.RanInline? ==> s.cancelled && x.invoked && x.runs == 1)
    && (RanByRegistrar(x.reg) ==> !x.erased && c !in s.list && c !in s.taken)
    && (x.reg.Added? ==> !x.erased && (c in s.list || c in s.taken))
    && (x.reg.Deregistered? ==> c !in s.list && (x.erased <==> c !in s.taken))
    && (c in s.list || x.erased ==> !x.invoked && x.runs == 0 && c !in s.taken)
    && (c in s.taken ==> x.runs == if x.invoked && !BeingCalled(s, c) then 1 else 0)
  }

  ghost predicate RequestOk(s: State, r: nat)
    requires r < |s.requests|
  {
    var q := s.requests[r];
    && (Winner(q) ==> s.cancelled)
    && (s.swapped && Winner(q) ==> !q.Swap?)
    && (q.Invoke? || q.Calling? || q == Returned(true) ==> s.swapped)
    && NoDup(Todo(q))
    && (forall c :: c in Todo(q) ==> c in s.taken && c < |s.callbacks| && !s.callbacks[c].invoked)
    && (q.Calling? ==> q.cb in s.taken && q.cb !in q.todo && q.cb < |s.callbacks| && s.callbacks[q.cb].invoked)
    && (Winner(q) && s.swapped ==>
          forall c :: c in s.taken ==> c < |s.callbacks| && (!s.callbacks[c].invoked ==> c in Todo(q)))
  }

  ghost predicate Inv(s: State) {
    && NoDup(s.list)
    && (forall c :: c in s.list || c in s.taken ==> c < |s.callbacks|)
    && (s.lock.Some? ==> s.lock.value < |s.callbacks|)
    && (s.swapped ==> s.cancelled && s.list == [] && s.lock.None?)
    && (!s.swapped ==> s.taken == [])
    && (s.cancelled ==> exists r :: 0 <= r < |s.requests| && Winner(s.requests[r]))
    && (forall r, q :: 0 <= r < q < |s.requests| ==> !Winner(s.requests[r]) || !Winner(s.requests[q]))
    && (forall c {:trigger CallbackOk(s, c)} :: 0 <= c < |s.callbacks| ==> CallbackOk(s, c))
    && (forall r {:trigger RequestOk(s, r)} :: 0 <= r < |s.requests| ==> RequestOk(s, r))
  }

  lemma {:induction false} EraseFacts(list: seq<nat>, c: nat)
    requires NoDup(list)
    ensures NoDup(Erase(list, c)) && c !in Erase(list, c)
    ensures forall u: nat :: u in Erase(list, c) <==> u in list && u != c
  {
    if list != [] {
      PopFacts(list);
      if list[0] != c {
        EraseFacts(list[1..], c);
        assert forall i :: 0 < i < |Erase(list, c)| ==> Erase(list, c)[i] == Erase(list[1..], c)[i - 1];
      }
    }
  }

  /** A step that changes one callback and leaves requests, and what they took, alone. */
  lemma ChangeCallback(s: State, s': State, c: nat)
    requires Inv(s) && c < |s.callbacks| && |s'.callbacks| == |s.callbacks|
    requires s'.callbacks == s.callbacks[c := s'.callbacks[c]]
    requires s' == s.(callbacks := s'.callbacks, list := s'.list, lock := s'.lock)
    requires NoDup(s'.list) && (forall u: nat :: u != c ==> (u in s'.list <==> u in s.list))
    requires c in s'.list ==> !s.swapped
    requires s'.lock.Some? ==> s'.lock.value < |s.callbacks| && !s.swapped
    requires forall u: nat :: u != c ==> (s'.lock == Some(u) <==> s.lock == Some(u))
    requires CallbackOk(s', c) && (s'.callbacks[c].invoked == s.callbacks[c].invoked || c !in s.taken)
    ensures Inv(s')
  {
    forall d | 0 <= d < |s'.callbacks| && d != c ensures CallbackOk(s', d) { assert CallbackOk(s, d); }
    forall r | 0 <= r < |s'.requests| ensures RequestOk(s', r) { assert RequestOk(s, r); }
    assert s'.list != [] ==> s'.list[0] in s'.list;
  }

  lemma RegisterInv(s: State, c: nat)
    requires Inv(s) && Enabled(s, Register(c))
    ensures Inv(RegisterStep(s, c))
  {
    assert CallbackOk(s, c);
    assert forall i :: 0 <= i < |s.list| ==> s.list[i] in s.list;
    ChangeCallback(s, RegisterStep(s, c), c);
  }

  lemma DeregisterInv(s: State, c: nat)
    requires Inv(s) && Enabled(s, Deregister(c))
    ensures Inv(Apply(s, Deregister(c)))
  {
    assert CallbackOk(s, c);
    EraseFacts(s.list, c);
    ChangeCallback(s, Apply(s, Deregister(c)), c);
  }

  lemma CasInv(s: State, r: nat)
    requires Inv(s) && r < |s.requests| && s.requests[r].Cas?
    ensures Inv(RequestStep(s, r))
  {
    var s' := RequestStep(s, r);
    forall c | 0 <= c < |s'.callbacks| ensures CallbackOk(s', c) {
      assert CallbackOk(s, c);
      CallsKept(s, s', r, c);
    }
    forall q | 0 <= q < |s'.requests| ensures RequestOk(s', q) { assert RequestOk(s, q); }
    if s.cancelled {
      var w :| 0 <= w < |s.requests| && Winner(s.requests[w]);
      assert Winner(s'.requests[w]);
    } else {
      assert Winner(s'.requests[r]);
      forall q | 0 <= q < |s.requests| ensures !Winner(s.requests[q]) { assert RequestOk(s, q); }
    }
  }

  /** Replacing a request that is not inside a callback by another such leaves BeingCalled alone. */
  lemma CallsKept(s: State, s': State, r: nat, c: nat)
    requires r < |s.requests| && |s'.requests| == |s.requests|
    requires s'.requests == s.requests[r := s'.requests[r]]
    requires (s.requests[r].Calling? && s.requests[r].cb == c) == (s'.requests[r].Calling? && s'.requests[r].cb == c)
    ensures BeingCalled(s', c) <==> BeingCalled(s, c)
  {
    if BeingCalled(s, c) {
      var q :| 0 <= q < |s.requests| && s.requests[q].Calling? && s.requests[q].cb == c;
      assert s'.requests[q].Calling? && s'.requests[q].cb == c;
    }
    if BeingCalled(s', c) {
      var q :| 0 <= q < |s'.requests| && s'.requests[q].Calling? && s'.requests[q].cb == c;
      assert s.requests[q].Calling? && s.requests[q].cb == c;
    }
  }

  lemma SwapInv(s: State, r: nat)
    requires Inv(s) && r < |s.requests| && s.requests[r].Swap? && s.lock.None?
    ensures Inv(RequestStep(s, r))
  {
    var s' := RequestStep(s, r);
    assert RequestOk(s, r);
    assert !s.swapped;
    forall c | 0 <= c < |s'.callbacks| ensures CallbackOk(s', c) {
      assert CallbackOk(s, c);
      CallsKept(s, s', r, c);
    }
    forall q | 0 <= q < |s'.requests| ensures RequestOk(s', q) {
      assert RequestOk(s, q);
      forall c | c in s.list ensures c < |s.callbacks| && !s.callbacks[c].invoked { assert CallbackOk(s, c); }
      assert q != r ==> !Winner(s.requests[q]);
    }
    assert Winner(s'.requests[r]);
  }

  lemma InvokeInv(s: State, r: nat)
    requires Inv(s) && Enabled(s, Request(r)) && s.requests[r].Invoke?
    ensures Inv(RequestStep(s, r))
  {
    var s' := RequestStep(s, r);
    var todo := s.requests[r].todo;
    assert RequestOk(s, r);
    assert Winner(s'.requests[r]);
    if todo != [] {
      PopFacts(todo);
      assert CallbackOk(s, todo[0]);
    }
    forall c | 0 <= c < |s'.callbacks| ensures CallbackOk(s', c) {
      assert CallbackOk(s, c);
      if todo != [] && c == todo[0] {
        assert s'.requests[r].Calling? && s'.requests[r].cb == c;
      } else {
        CallsKept(s, s', r, c);
      }
    }
    forall q | 0 <= q < |s'.requests| ensures RequestOk(s', q) {
      assert RequestOk(s, q);
      assert q != r ==> !Winner(s.requests[q]);
    }
  }

  lemma CallingInv(s: State, r: nat)
    requires Inv(s) && Enabled(s, Request(r)) && s.requests[r].Calling?
    ensures Inv(RequestStep(s, r))
  {
    var s' := RequestStep(s, r);
    var cb := s.requests[r].cb;
    assert RequestOk(s, r);
    assert Winner(s'.requests[r]) && Winner(s.requests[r]);
    assert CallbackOk(s, cb);
    forall c | 0 <= c < |s'.callbacks| ensures CallbackOk(s', c) {
      assert CallbackOk(s, c);
      if c == cb {
        assert BeingCalled(s, cb);
        assert !BeingCalled(s', cb) by {
          forall q | 0 <= q < |s'.requests| ensures !(s'.requests[q].Calling? && s'.requests[q].cb == cb) {
            assert q != r ==> !Winner(s.requests[q]);
          }
        }
      } else {
        CallsKept(s, s', r, c);
      }
    }
    forall q | 0 <= q < |s'.requests| ensures RequestOk(s', q) {
      assert RequestOk(s, q);
      assert q != r ==> !Winner(s.requests[q]);
    }
  }

  lemma NewCallbackInv(s: State)
    requires Inv(s)
    ensures Inv(Apply(s, NewCallback))
  {
    var s' := Apply(s, NewCallback);
    forall c | 0 <= c < |s'.callbacks| ensures CallbackOk(s', c) { assert c < |s.callbacks| ==> CallbackOk(s, c); }
    forall r | 0 <= r < |s'.requests| ensures RequestOk(s', r) { assert RequestOk(s, r); }
  }

  lemma NewRequestInv(s: State)
    requires Inv(s)
    ensures Inv(Apply(s, NewRequest))
  {
    var s' := Apply(s, NewRequest);
    forall c | 0 <= c < |s'.callbacks| ensures CallbackOk(s', c) {
      assert CallbackOk(s, c);
      if BeingCalled(s, c) {
        var q :| 0 <= q < |s.requests| && s.requests[q].Calling? && s.requests[q].cb == c;
        assert s'.requests[q].Calling? && s'.requests[q].cb == c;
      }
    }
    forall r | 0 <= r < |s'.requests| ensures RequestOk(s', r) { assert r < |s.requests| ==> RequestOk(s, r); }
    if s.cancelled {
      var w :| 0 <= w < |s.requests| && Winner(s.requests[w]);
      assert Winner(s'.requests[w]);
    }
  }

  lemma StepInv(s: State, st: Step)
    requires Inv(s) && Enabled(s, st)
    ensures Inv(Apply(s, st))
  {
    match st
    case NewCallback => NewCallbackInv(s);
    case NewRequest => NewRequestInv(s);
    case Register(c) => RegisterInv(s, c);
    case Deregister(c) => DeregisterInv(s, c);
    case Request(r) =>
      match s.requests[r] {
        case Cas => CasInv(s, r);
        case Swap => SwapInv(s, r);
        case Invoke(_) => InvokeInv(s, r);
        case Calling(_, _) => CallingInv(s, r);
      }
  }

  lemma {:induction false} RunInv(run: seq<State>)
    requires IsRun(run)
    ensures Inv(run[|run| - 1])
  {
    if |run| > 1 {
      RunInv(run[..|run| - 1]);
      assert Next(run[|run| - 2], run[|run| - 1]);
      var st :| Enabled(run[|run| - 2], st) && run[|run| - 1] == Apply(run[|run| - 2], st);
      StepInv(run[|run| - 2], st);
    }
  }

  lemma ReachableInv(s: State)
    requires Reachable(s)
    ensures Inv(s)
  {
    var run :| IsRun(run) && run[|run| - 1] == s;
    RunInv(run);
  }

  // ---- the promises ----

  /** At most one request_cancellation call returns true. */
  lemma OneRequestWins(s: State, r: nat, q: nat)
    requires Reachable(s) && r < |s.requests| && q < |s.requests|
    requires s.requests[r] == Returned(true) && s.requests[q] == Returned(true)
    ensures r == q && s.cancelled
  {
    ReachableInv(s);
    assert RequestOk(s, r);
    assert Winner(s.requests[r]) && Winner(s.requests[q]);
  }

  /** Every callback runs at most once, by whichever interleaving. */
  lemma RunsAtMostOnce(s: State, c: nat)
    requires Reachable(s) && c < |s.callbacks|
    ensures s.callbacks[c].runs <= 1
    ensures s.callbacks[c].runs == 1 ==> s.cancelled && s.callbacks[c].invoked
  {
    ReachableInv(s);
    assert CallbackOk(s, c);
  }

  /** When the winning request has returned, a callback whose registration has returned has run exactly
      once, unless it was deregistered before the list was taken: then it has not run, and never will
      (`invoked` stays false for it in every reachable state). */
  lemma RunsExactlyOnceUnlessErased(s: State, c: nat, r: nat)
    requires Reachable(s) && c < |s.callbacks| && r < |s.requests| && s.requests[r] == Returned(true)
    requires s.callbacks[c].reg.Added? || s.callbacks[c].reg.Deregistered? || s.callbacks[c].reg.RanInline?
    ensures s.callbacks[c].runs == if s.callbacks[c].erased then 0 else 1
  {
    ReachableInv(s);
    assert CallbackOk(s, c);
    assert RequestOk(s, r);
    assert Winner(s.requests[r]);
    if BeingCalled(s, c) {
      var q :| 0 <= q < |s.requests| && s.requests[q].Calling? && s.requests[q].cb == c;
      assert Winner(s.requests[q]);
    }
  }

  lemma ErasedNeverRuns(s: State, c: nat)
    requires Reachable(s) && c < |s.callbacks| && s.callbacks[c].erased
    ensures !s.callbacks[c].invoked && s.callbacks[c].runs == 0
  {
    ReachableInv(s);
    assert CallbackOk(s, c);
  }

  /** A callback that try_add_callback refused is run by its registrar, and by nobody else. */
  lemma RefusedRunsInline(s: State, c: nat)
    requires Reachable(s) && c < |s.callbacks| && RanByRegistrar(s.callbacks[c].reg)
    ensures c !in s.list && c !in s.taken && s.cancelled
    ensures s.callbacks[c].runs == if s.callbacks[c].reg.RanInline? then 1 else 0
  {
    ReachableInv(s);
    assert CallbackOk(s, c);
  }

  // ---- what the calls do when nobody interferes ----

  /** Registering before any request lists the callback, last, and it has not run. */
  lemma RegistersAlone(s: State, c: nat)
    requires c < |s.callbacks| && s.callbacks[c].reg.Start? && !s.cancelled && s.lock.None?
    ensures Enabled(s, Register(c))
    ensures var s1 := RegisterStep(s, c);
      && Enabled(s1, Register(c))
      && var s2 := RegisterStep(s1, c);
      && Enabled(s2, Register(c))
      && RegisterStep(s2, c) == s.(list := s.list + [c], callbacks := s.callbacks[c := s.callbacks[c].(reg := Added)])
  {
    var x := s.callbacks[c];
    var s1, s2 := RegisterStep(s, c), RegisterStep(RegisterStep(s, c), c);
    assert s2.callbacks == s.callbacks[c := x.(reg := Pushing)];
    assert RegisterStep(s2, c).callbacks == s.callbacks[c := x.(reg := Added)];
  }

  /** Registering after a request runs the callback at once, and lists nothing. */
  lemma RegistersLate(s: State, c: nat)
    requires c < |s.callbacks| && s.callbacks[c].reg.Start? && !s.callbacks[c].invoked && s.cancelled
    ensures Enabled(s, Register(c))
    ensures var s1 := RegisterStep(s, c);
      && Enabled(s1, Register(c))
      && var s2 := RegisterStep(s1, c);
      && Enabled(s2, Register(c))
      && var x := s.callbacks[c];
         RegisterStep(s2, c) == s.(callbacks := s.callbacks[c := x.(reg := RanInline, invoked := true, runs := x.runs + 1)])
  {
    var x := s.callbacks[c];
    var s1, s2 := RegisterStep(s, c), RegisterStep(RegisterStep(s, c), c);
    assert s2.callbacks == s.callbacks[c := x.(reg := InlineCall, invoked := true)];
    assert RegisterStep(s2, c).callbacks == s.callbacks[c := x.(reg := RanInline, invoked := true, runs := x.runs + 1)];
  }

  /** Deregistering takes the callback, and no other, out of the list. */
  lemma DeregisterTakesOut(s: State, c: nat)
    requires Reachable(s) && Enabled(s, Deregister(c))
    ensures var s' := Apply(s, Deregister(c));
      && s'.callbacks[c].reg.Deregistered? && (s'.callbacks[c].erased <==> c in s.list)
      && c !in s'.list && (forall u: nat :: u != c ==> (u in s'.list <==> u in s.list))
      && s'.cancelled == s.cancelled && s'.requests == s.requests
  {
    ReachableInv(s);
    EraseFacts(s.list, c);
  }

  /** The first request sets `cancelled_` and takes the whole list; a later one returns false. */
  lemma RequestsAlone(s: State, r: nat)
    requires r < |s.requests| && s.requests[r].Cas?
    ensures Enabled(s, Request(r))
    ensures s.cancelled ==> RequestStep(s, r) == s.(requests := s.requests[r := Returned(false)])
    ensures !s.cancelled && s.lock.None? ==>
      && Enabled(RequestStep(s, r), Request(r))
      && RequestStep(RequestStep(s, r), r)
         == s.(cancelled := true, list := [], swapped := true, taken := s.list, requests := s.requests[r := Invoke(s.list)])
  {
    if !s.cancelled && s.lock.None? {
      assert RequestStep(RequestStep(s, r), r).requests == s.requests[r := Invoke(s.list)];
    }
  }
}
