/** What manual_reset_event promises, in every run of the step machine. */
module EventTheorems {
  import opened Basics
  import opened EventModel

  /** Following next_ from p visits exactly the nodes of l, in order, and then reaches null. */
  predicate Chain(awaiters: seq<Awaiter>, p: Ptr, l: seq<nat>)
    decreases l
  {
    if l == [] then p == Null
    else l[0] < |awaiters| && p == Node(l[0]) && Chain(awaiters, awaiters[l[0]].next, l[1..])
  }

  predicate Walking(t: Setter) { t.Read? || t.Resume? }

  predicate WalkOk(s: State, t: Setter) {
    match t
    case Read(cur) => Chain(s.awaiters, cur, s.stack)
    case Resume(a, next) => s.stack != [] && s.stack[0] == a && Chain(s.awaiters, next, s.stack[1..])
    case _ => true
  }

  predicate AwaiterOk(head: Ptr, x: Awaiter) {
    match x.pc
    case Cas(seen) => x.next == seen && seen != Mark
    case Link(seen) => seen == Mark ==> head == Mark
    case Through => head == Mark
    case _ => true
  }

  ghost predicate Inv(s: State) {
    && !s.fault
    && NoDup(s.stack)
    && (forall a :: 0 <= a < |s.awaiters| ==> AwaiterOk(s.head, s.awaiters[a]))
    && (forall a: nat :: a in s.stack <==> a < |s.awaiters| && s.awaiters[a].pc.Parked?)
    && (s.head != Mark ==>
          && Chain(s.awaiters, s.head, s.stack)
          && s.detached == [] && s.order == []
          && (forall t :: 0 <= t < |s.setters| ==> s.setters[t].Exchange?))
    && (s.head == Mark ==>
          && s.detached == s.order + s.stack
          && (forall t :: 0 <= t < |s.setters| ==> WalkOk(s, s.setters[t]))
          && (forall t, u :: 0 <= t < u < |s.setters| ==> !Walking(s.setters[t]) || !Walking(s.setters[u]))
          && (s.stack != [] ==> exists t :: 0 <= t < |s.setters| && Walking(s.setters[t])))
    && NoDup(s.order)
    && (forall a: nat :: a in s.order <==> a < |s.awaiters| && s.awaiters[a].pc.Resumed?)
  }

  /** A chain does not see changes to nodes that are not on it. */
  lemma {:induction false} ChainSame(x: seq<Awaiter>, y: seq<Awaiter>, p: Ptr, l: seq<nat>)
    requires Chain(x, p, l) && |x| <= |y|
    requires forall a :: a in l && a < |x| ==> y[a].next == x[a].next
    ensures Chain(y, p, l)
    decreases l
  {
    if l != [] {
      assert forall a :: a in l[1..] ==> a in l;
      ChainSame(x, y, x[l[0]].next, l[1..]);
    }
  }

  /** From one pointer only one list can be read. */
  lemma {:induction false} ChainUnique(x: seq<Awaiter>, p: Ptr, l: seq<nat>, m: seq<nat>)
    requires Chain(x, p, l) && Chain(x, p, m)
    ensures l == m
    decreases l
  {
    if l != [] && m != [] { ChainUnique(x, x[l[0]].next, l[1..], m[1..]); }
  }

  lemma AwaitMoves(s: State, a: nat, x: Awaiter)
    requires Inv(s) && a < |s.awaiters| && !s.awaiters[a].pc.Parked? && !s.awaiters[a].pc.Resumed?
    requires AwaiterOk(s.head, x) && !x.pc.Parked? && !x.pc.Resumed?
    ensures Inv(s.(awaiters := s.awaiters[a := x]))
  {
    var s' := s.(awaiters := s.awaiters[a := x]);
    assert a !in s.stack;
    if s.head != Mark {
      ChainSame(s.awaiters, s'.awaiters, s.head, s.stack);
    } else {
      forall t | 0 <= t < |s.setters| ensures WalkOk(s', s'.setters[t]) {
        assert WalkOk(s, s.setters[t]);
        match s.setters[t]
        case Read(cur) => ChainSame(s.awaiters, s'.awaiters, cur, s.stack);
        case Resume(b, next) =>
          assert forall u :: u in s.stack[1..] ==> u in s.stack;
          ChainSame(s.awaiters, s'.awaiters, next, s.stack[1..]);
        case _ =>
      }
    }
  }

  lemma PushInv(s: State, a: nat)
    requires Inv(s) && a < |s.awaiters| && s.awaiters[a].pc == Cas(s.head)
    ensures Inv(SetPc(s, a, Parked).(head := Node(a), stack := [a] + s.stack))
  {
    var s' := SetPc(s, a, Parked).(head := Node(a), stack := [a] + s.stack);
    assert AwaiterOk(s.head, s.awaiters[a]) && a !in s.stack;
    ChainSame(s.awaiters, s'.awaiters, s.head, s.stack);
    assert s'.stack[1..] == s.stack;
  }

  lemma ExchangeInv(s: State, t: nat)
    requires Inv(s) && t < |s.setters| && s.setters[t].Exchange?
    ensures Inv(SetStep(s, t))
  {
    var s' := SetStep(s, t);
    assert s.head != Mark && s.head != Null ==> Walking(s'.setters[t]);
    if s.head == Mark && s.stack != [] {
      var u :| 0 <= u < |s.setters| && Walking(s.setters[u]);
      assert s'.setters[u] == s.setters[u];
    }
    assert s.head == Null ==> s.stack == [];
  }

  lemma ReadInv(s: State, t: nat)
    requires Inv(s) && t < |s.setters| && s.setters[t].Read?
    ensures Inv(SetStep(s, t))
  {
    var s' := SetStep(s, t);
    assert s.head == Mark && WalkOk(s, s.setters[t]);
    if s.stack != [] {
      assert s.stack[0] in s.stack;
      assert Walking(s'.setters[t]);
    }
    forall u | 0 <= u < |s'.setters| ensures WalkOk(s', s'.setters[u]) { assert WalkOk(s, s.setters[u]); }
  }

  lemma ResumeWalks(s: State, t: nat, u: nat)
    requires Inv(s) && t < |s.setters| && s.setters[t].Resume? && u < |s.setters|
    ensures WalkOk(SetStep(s, t), SetStep(s, t).setters[u])
  {
    var s', a, next := SetStep(s, t), s.setters[t].a, s.setters[t].next;
    assert s.head == Mark && WalkOk(s, s.setters[t]);
    assert a in s.stack;
    if u == t {
      PopFacts(s.stack);
      ChainSame(s.awaiters, s'.awaiters, next, s.stack[1..]);
    } else {
      assert Walking(s.setters[t]);
      assert !Walking(s.setters[u]);
    }
  }

  lemma ResumeInv(s: State, t: nat)
    requires Inv(s) && t < |s.setters| && s.setters[t].Resume?
    ensures Inv(SetStep(s, t))
  {
    var s', a := SetStep(s, t), s.setters[t].a;
    assert s.head == Mark && WalkOk(s, s.setters[t]);
    assert a in s.stack;
    PopFacts(s.stack);
    assert s.detached == s.order + [a] + s.stack[1..] == s'.order + s'.stack;
    assert Walking(s'.setters[t]);
    assert forall i :: 0 <= i < |s.order| ==> s.order[i] in s.order;
    forall u | 0 <= u < |s'.setters| ensures WalkOk(s', s'.setters[u]) { ResumeWalks(s, t, u); }
  }

  lemma StepInv(s: State, st: Step)
    requires Inv(s) && Enabled(s, st)
    ensures Inv(Apply(s, st))
  {
    match st
    case NewAwaiter => NewAwaiterInv(s);
    case NewSetter => NewSetterInv(s);
    case Await(a, weak) =>
      match s.awaiters[a].pc {
        case Ready => AwaitMoves(s, a, s.awaiters[a].(pc := if s.head == Mark then Through else Load));
        case Load => AwaitMoves(s, a, s.awaiters[a].(pc := Link(s.head)));
        case Link(seen) => AwaitMoves(s, a, if seen == Mark then s.awaiters[a].(pc := Through) else Awaiter(Cas(seen), seen));
        case Cas(seen) =>
          if s.head == seen && !weak { PushInv(s, a); } else { AwaitMoves(s, a, s.awaiters[a].(pc := Link(s.head))); }
      }
    case Set(t) =>
      match s.setters[t] {
        case Exchange => ExchangeInv(s, t);
        case Read(_) => ReadInv(s, t);
        case Resume(_, _) => ResumeInv(s, t);
      }
  }

  lemma NewAwaiterInv(s: State)
    requires Inv(s)
    ensures Inv(Apply(s, NewAwaiter))
  {
    var s' := Apply(s, NewAwaiter);
    if s.head != Mark {
      ChainSame(s.awaiters, s'.awaiters, s.head, s.stack);
    } else {
      forall t | 0 <= t < |s.setters| ensures WalkOk(s', s'.setters[t]) {
        assert WalkOk(s, s.setters[t]);
        match s.setters[t]
        case Read(cur) => ChainSame(s.awaiters, s'.awaiters, cur, s.stack);
        case Resume(_, next) => ChainSame(s.awaiters, s'.awaiters, next, s.stack[1..]);
        case _ =>
      }
    }
  }

  lemma NewSetterInv(s: State)
    requires Inv(s)
    ensures Inv(Apply(s, NewSetter))
  {
    var s' := Apply(s, NewSetter);
    if s.head == Mark && s.stack != [] {
      var t :| 0 <= t < |s.setters| && Walking(s.setters[t]);
      assert Walking(s'.setters[t]);
    }
    forall t | 0 <= t < |s'.setters| && s.head == Mark ensures WalkOk(s', s'.setters[t]) {
      assert t < |s.setters| ==> WalkOk(s, s.setters[t]);
    }
  }

  lemma {:induction false} RunInv(run: seq<State>)
    requires IsRun(run)
    ensures Inv(run[|run| - 1])
  {
    if |run| > 1 {
      RunInv(run[..|run| - 1]);
      assert Next(run[|run| - 2], run[|run| - 1]);
      var st :| Enabled(run[|run| - 2], st) && run[|run| - 1] == Apply(run[|run| - 2], st);
      StepInv(run[|run| - 2], st);
    }
  }

  lemma ReachableInv(s: State)
    requires Reachable(s)
    ensures Inv(s)
  {
    var run :| IsRun(run) && run[|run| - 1] == s;
    RunInv(run);
  }

  // ---- the promises ----

  /** Until the event is set, the list that starts at state_ is finite and duplicate-free, and holds
      exactly the awaiters whose compare-exchange succeeded. */
  lemma ListBeforeSet(s: State)
    requires Reachable(s) && s.head != Mark
    ensures Chain(s.awaiters, s.head, s.stack) && NoDup(s.stack)
    ensures forall l :: Chain(s.awaiters, s.head, l) ==> l == s.stack
    ensures forall a: nat :: a in s.stack <==> a < |s.awaiters| && s.awaiters[a].pc.Parked?
    ensures forall a :: 0 <= a < |s.awaiters| ==> !s.awaiters[a].pc.Resumed?
  {
    ReachableInv(s);
    forall l | Chain(s.awaiters, s.head, l) ensures l == s.stack { ChainUnique(s.awaiters, s.head, l, s.stack); }
    forall a | 0 <= a < |s.awaiters| ensures !s.awaiters[a].pc.Resumed? { assert a !in s.order; }
  }

  /** The list that the first set() took is resumed newest first, each awaiter once, and nothing else is
      resumed; no node is read after its coroutine was resumed. */
  lemma ResumeOrder(s: State)
    requires Reachable(s)
    ensures !s.fault
    ensures s.order <= s.detached
    ensures NoDup(s.order)
    ensures forall a: nat :: a in s.order <==> a < |s.awaiters| && s.awaiters[a].pc.Resumed?
    ensures s.head == Mark ==> s.detached == s.order + s.stack
  {
    ReachableInv(s);
  }

  lemma AllResumed(s: State)
    requires Inv(s) && s.head == Mark
    requires forall t :: 0 <= t < |s.setters| ==> !Walking(s.setters[t])
    ensures forall a :: 0 <= a < |s.awaiters| ==> !s.awaiters[a].pc.Parked?
    ensures s.order == s.detached
  {
    assert s.stack == [];
    forall a | 0 <= a < |s.awaiters| ensures !s.awaiters[a].pc.Parked? { assert a !in s.stack; }
    assert s.order + [] == s.order;
  }

  /** Once the event is set and no set() call is still walking, nobody is left parked, whatever
      compare-exchanges failed and however many set() calls competed. */
  lemma NobodyStranded(s: State)
    requires Reachable(s) && s.head == Mark
    requires forall t :: 0 <= t < |s.setters| ==> !Walking(s.setters[t])
    ensures forall a :: 0 <= a < |s.awaiters| ==> !s.awaiters[a].pc.Parked?
    ensures s.order == s.detached
  {
    ReachableInv(s);
    AllResumed(s);
  }

  /** At most one set() call ever walks a list, and the event stays set. */
  lemma OneWalker(s: State, t: nat, u: nat)
    requires Reachable(s) && t < |s.setters| && u < |s.setters| && Walking(s.setters[t]) && Walking(s.setters[u])
    ensures t == u && s.head == Mark
  {
    ReachableInv(s);
  }

  /** An awaiter gets past the event only when it is set. */
  lemma PastMeansSet(s: State, a: nat)
    requires Inv(s) && a < |s.awaiters| && (s.awaiters[a].pc.Through? || s.awaiters[a].pc.Resumed?)
    ensures s.head == Mark
  {
    assert AwaiterOk(s.head, s.awaiters[a]);
    assert s.awaiters[a].pc.Resumed? ==> a in s.order;
  }

  lemma StepStaysSet(s: State, st: Step, a: nat)
    requires Enabled(s, st) && s.head == Mark && (st.Await? ==> AwaiterOk(s.head, s.awaiters[st.a]))
    ensures Apply(s, st).head == Mark
    ensures a < |s.awaiters| && !s.awaiters[a].pc.Parked? ==>
      a < |Apply(s, st).awaiters| && !Apply(s, st).awaiters[a].pc.Parked?
  {}

  lemma StaysSet(s: State, s': State)
    requires Reachable(s) && Next(s, s') && s.head == Mark
    ensures s'.head == Mark
    ensures forall a :: 0 <= a < |s.awaiters| && !s.awaiters[a].pc.Parked? ==> !s'.awaiters[a].pc.Parked?
  {
    ReachableInv(s);
    var st :| Enabled(s, st) && s' == Apply(s, st);
    assert st.Await? ==> AwaiterOk(s.head, s.awaiters[st.a]);
    StepStaysSet(s, st, 0);
    forall a | 0 <= a < |s.awaiters| && !s.awaiters[a].pc.Parked?
      ensures a < |s'.awaiters| && !s'.awaiters[a].pc.Parked?
    {
      StepStaysSet(s, st, a);
    }
  }

  // ---- an await that nobody interferes with ----

  /** On an event that is not set, it parks, as the new head of the list. */
  lemma ParksAlone(s: State, a: nat)
    requires a < |s.awaiters| && s.awaiters[a].pc.Ready? && s.head != Mark
    ensures Enabled(s, Await(a, false))
    ensures var s1 := AwaitStep(s, a, false);
      && Enabled(s1, Await(a, false))
      && var s2 := AwaitStep(s1, a, false);
      && Enabled(s2, Await(a, false))
      && var s3 := AwaitStep(s2, a, false);
      && Enabled(s3, Await(a, false))
      && AwaitStep(s3, a, false)
         == s.(head := Node(a), stack := [a] + s.stack, awaiters := s.awaiters[a := Awaiter(Parked, s.head)])
  {
    var x := s.awaiters[a];
    var s1 := AwaitStep(s, a, false);
    var s2 := AwaitStep(s1, a, false);
    var s3 := AwaitStep(s2, a, false);
    assert s1.awaiters == s.awaiters[a := x.(pc := Load)];
    assert s2.awaiters == s.awaiters[a := x.(pc := Link(s.head))];
    assert s3.awaiters == s.awaiters[a := Awaiter(Cas(s.head), s.head)];
    assert AwaitStep(s3, a, false).awaiters == s.awaiters[a := Awaiter(Parked, s.head)];
  }

  /** How many steps of its own an awaiter still takes on an event that is set. */
  function PassLeft(p: Pc): nat {
    match p
    case Ready => 1
    case Load => 2
    case Link(seen) => if seen == Mark then 1 else 3
    case Cas(_) => 2
    case _ => 0
  }

  /** On a set event an awaiter gets through in at most three steps of its own, without parking, wherever it
      is and whether or not its compare-exchange fails. */
  lemma PassesOnceSet(s: State, a: nat, weak: bool)
    requires Reachable(s) && Enabled(s, Await(a, weak)) && s.head == Mark
    ensures var p := AwaitStep(s, a, weak).awaiters[a].pc;
      PassLeft(p) + 1 == PassLeft(s.awaiters[a].pc) && !p.Parked? && (PassLeft(p) == 0 ==> p.Through?)
  {
    ReachableInv(s);
    assert AwaiterOk(s.head, s.awaiters[a]);
  }

  // ---- the walk ends ----

  /** How many steps of its own a set() call that has done its exchange still takes. */
  function WalkLeft(s: State, t: nat): nat
    requires t < |s.setters|
  {
    match s.setters[t]
    case Read(_) => 2 * |s.stack| + 1
    case Resume(_, _) => 2 * |s.stack|
    case _ => 0
  }

  /** The exchange leaves a walk over the whole list, or none. */
  lemma WalkBegins(s: State, t: nat)
    requires Reachable(s) && t < |s.setters| && s.setters[t].Exchange?
    ensures var s' := SetStep(s, t);
      && s'.head == Mark && s'.stack == s.stack && !s'.setters[t].Exchange?
      && (Walking(s'.setters[t]) <==> s.head != Mark && s.stack != [])
      && (Walking(s'.setters[t]) ==> s'.detached == s.stack && WalkLeft(s', t) == 2 * |s.stack| + 1)
  {
    ReachableInv(s);
  }

  lemma OwnWalkStep(s: State, t: nat)
    requires Inv(s) && t < |s.setters| && Walking(s.setters[t])
    ensures var s' := SetStep(s, t);
      && !s'.setters[t].Exchange? && WalkLeft(s', t) + 1 == WalkLeft(s, t)
      && s'.head == Mark && s'.detached == s.detached
      && (s'.setters[t].Finished? ==> s'.stack == [])
  {
    assert s.head == Mark && WalkOk(s, s.setters[t]);
    if s.setters[t].Read? && s.stack != [] {
      assert s.stack[0] in s.stack;
    } else if s.setters[t].Resume? {
      assert s.setters[t].a in s.stack;
    }
  }

  lemma OtherStep(s: State, st: Step, t: nat)
    requires Inv(s) && Enabled(s, st) && st != Set(t) && t < |s.setters| && Walking(s.setters[t])
    ensures var s' := Apply(s, st);
      t < |s'.setters| && s'.setters[t] == s.setters[t]
      && s'.stack == s.stack && s'.head == Mark && s'.detached == s.detached
  {
    if st.Await? { assert AwaiterOk(s.head, s.awaiters[st.a]); }
    if st.Set? { assert !Walking(s.setters[st.t]); }
  }

  /** Nobody queues once the walk is over. */
  lemma AfterWalk(s: State, st: Step, t: nat)
    requires Inv(s) && Enabled(s, st) && t < |s.setters| && s.setters[t].Finished? && s.stack == [] && s.head == Mark
    ensures var s' := Apply(s, st);
      && t < |s'.setters| && s'.setters[t].Finished?
      && s'.stack == [] && s'.head == Mark && s'.detached == s.detached
  {
    if st.Await? { assert AwaiterOk(s.head, s.awaiters[st.a]); }
  }

  /** The steps of a run, from any state. */
  ghost predicate IsPath(path: seq<State>, steps: seq<Step>) {
    && |path| == |steps| + 1
    && forall i :: 0 <= i < |steps| ==> Enabled(path[i], steps[i]) && path[i + 1] == Apply(path[i], steps[i])
  }

  function Own(steps: seq<Step>, t: nat): (n: nat)
    ensures n <= |steps|
  {
    if steps == [] then 0 else Own(steps[..|steps| - 1], t) + if steps[|steps| - 1] == Set(t) then 1 else 0
  }

  /** t walks, or has walked to the end of the list. */
  predicate Walks(s: State, t: nat) {
    t < |s.setters| && s.head == Mark && (Walking(s.setters[t]) || (s.setters[t].Finished? && s.stack == []))
  }

  lemma WalkStep(s: State, st: Step, t: nat)
    requires Inv(s) && Enabled(s, st) && Walks(s, t)
    ensures var s' := Apply(s, st);
      && Walks(s', t) && s'.detached == s.detached
      && WalkLeft(s', t) + (if st == Set(t) then 1 else 0) == WalkLeft(s, t)
  {
    if s.setters[t].Finished? { AfterWalk(s, st, t); }
    else if st == Set(t) { OwnWalkStep(s, t); }
    else { OtherStep(s, st, t); }
  }

  lemma {:induction false} WalkCounts(path: seq<State>, steps: seq<Step>, t: nat)
    requires IsPath(path, steps) && Inv(path[0]) && t < |path[0].setters| && Walking(path[0].setters[t])
    ensures var s := path[|steps|];
      Inv(s) && Walks(s, t) && s.detached == path[0].detached && Own(steps, t) + WalkLeft(s, t) == WalkLeft(path[0], t)
  {
    if steps == [] {
      assert path[0].head == Mark;
    } else {
      var n := |steps| - 1;
      WalkCounts(path[..n + 1], steps[..n], t);
      StepInv(path[n], steps[n]);
      WalkStep(path[n], steps[n], t);
    }
  }

  /** However the others are scheduled, a walking set() ends after exactly WalkLeft steps of its own, at
      most two for each awaiter left and one more, and every awaiter of the list it took has then been
      resumed, in order, and nobody is parked. */
  lemma WalkEnds(path: seq<State>, steps: seq<Step>, t: nat)
    requires IsPath(path, steps) && Reachable(path[0]) && t < |path[0].setters| && Walking(path[0].setters[t])
    ensures var s := path[|steps|];
      && t < |s.setters|
      && Own(steps, t) <= WalkLeft(path[0], t) <= 2 * |path[0].stack| + 1
      && (s.setters[t].Finished? <==> Own(steps, t) == WalkLeft(path[0], t))
      && (s.setters[t].Finished? || Enabled(s, Set(t)))
      && (s.setters[t].Finished? ==>
            && s.order == s.detached == path[0].detached
            && forall a :: 0 <= a < |s.awaiters| ==> !s.awaiters[a].pc.Parked?)
  {
    ReachableInv(path[0]);
    WalkCounts(path, steps, t);
    var s := path[|steps|];
    if s.setters[t].Finished? {
      assert s.detached == s.order + [] == s.order;
      forall a | 0 <= a < |s.awaiters| ensures !s.awaiters[a].pc.Parked? { assert a !in s.stack; }
    } else {
      assert s.setters[t].Resume? ==> WalkOk(s, s.setters[t]);
    }
  }
}
