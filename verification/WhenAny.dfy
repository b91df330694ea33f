/** when_any over any number of awaitables, with the cancellation variant, as an interleaved step
    machine that contains the machine of its manual_reset_event. */
module WhenAny {
  import opened Basics
  import E = EventModel
  import T = EventTheorems

  /** What an awaitable comes to. A published one carries the awaitable's index. */
  datatype Outcome = Value(v: int) | Error(e: int)

  datatype Child =
    | NotStarted
    | Running
    | Claiming(o: Outcome)         // try_publish_*: about to compare-exchange completed_
    | Storing(o: Outcome)          // claimed; about to write result_ or exception_
    | Notifying                    // stored; about to call set()
    | Setting(t: nat)              // inside set(), call t of the event
    | Ended

  datatype Parent =
    | Spawning(i: nat)
    | Awaiting                     // co_await *notify, as awaiter 0 of the event
    | Reading                      // past the event
    | Read(i: nat, o: Outcome)     // has_exception, exception, take_result
    | Cancelling(i: nat, o: Outcome)   // the cancellation variant: about to call request_cancellation
    | Returned(i: nat, o: Outcome)
    | CancellingEmpty              // the range overload found no awaitable, and its exception is caught
    | ThrewEmpty                   // the range overload found no awaitable
    | Broken                       // read a result that is not there

  datatype State = State(
    event: E.State, completed: bool,
    stored: Option<(nat, Outcome)>,    // result_ or exception_, whichever was written
    parent: Parent, children: seq<Child>,
    withSource: bool, cancelRequested: bool,
    first: Option<(nat, Outcome)>)     // history: the child that claimed, and what it came to

  function Initial(n: nat, withSource: bool): State {
    State(E.INITIAL, false, None, Spawning(0), seq(n, _ => NotStarted), withSource, false, None)
  }

  datatype Step =
    | Parent(weak: bool)
    | Complete(i: nat, o: Outcome)
    | Child(i: nat)

  predicate Enabled(s: State, st: Step) {
    match st
    case Parent(weak) =>
      (match s.parent
       case Awaiting =>
         |s.event.awaiters| > 0 && (E.Enabled(s.event, E.Await(0, weak)) || Past(s.event))
       case Returned(_, _) => false
       case ThrewEmpty => false
       case Broken => false
       case _ => true)
    case Complete(i, _) => i < |s.children| && s.children[i].Running?
    case Child(i) =>
      && i < |s.children|
      && (match s.children[i]
          case Claiming(_) => true
          case Storing(_) => true
          case Notifying => true
          case Setting(t) => t < |s.event.setters|
          case _ => false)
  }

  predicate Past(ev: E.State) {
    |ev.awaiters| > 0 && (ev.awaiters[0].pc.Through? || ev.awaiters[0].pc.Resumed?)
  }

  function ParentStep(s: State, weak: bool): State
    requires Enabled(s, Parent(weak))
  {
    match s.parent
    case Spawning(i) =>
      if i < |s.children| then s.(children := s.children[i := Running], parent := Spawning(i + 1))
      else if i == 0 then s.(parent := if s.withSource then CancellingEmpty else ThrewEmpty)
      else s.(parent := Awaiting, event := E.Apply(s.event, E.NewAwaiter))
    case Awaiting =>
      if Past(s.event) then s.(parent := Reading) else s.(event := E.Apply(s.event, E.Await(0, weak)))
    case Reading =>
      (match s.stored
       case Some(p) => s.(parent := Read(p.0, p.1))
       case None => s.(parent := Broken))
    case Read(i, o) => s.(parent := if s.withSource then Cancelling(i, o) else Returned(i, o))
    case Cancelling(i, o) => s.(parent := Returned(i, o), cancelRequested := true)
    case CancellingEmpty => s.(parent := ThrewEmpty, cancelRequested := true)
    case _ => s
  }

  function ChildStep(s: State, i: nat): State
    requires Enabled(s, Child(i))
  {
    match s.children[i]
    case Claiming(o) =>
      if s.completed then s.(children := s.children[i := Ended])
      else s.(completed := true, first := Some((i, o)), children := s.children[i := Storing(o)])
    case Storing(o) => s.(stored := Some((i, o)), children := s.children[i := Notifying])
    case Notifying =>
      s.(event := E.Apply(s.event, E.NewSetter), children := s.children[i := Setting(|s.event.setters|)])
    case Setting(t) =>
      if s.event.setters[t].Finished? then s.(children := s.children[i := Ended])
      else s.(event := E.Apply(s.event, E.Set(t)))
  }

  function Apply(s: State, st: Step): State
    requires Enabled(s, st)
  {
    match st
    case Parent(weak) => ParentStep(s, weak)
    case Complete(i, o) => s.(children := s.children[i := Claiming(o)])
    case Child(i) => ChildStep(s, i)
  }

  ghost predicate Next(s: State, s': State) { exists st :: Enabled(s, st) && s' == Apply(s, st) }

  ghost predicate IsRun(run: seq<State>, n: nat, withSource: bool) {
    && run != []
    && run[0] == Initial(n, withSource)
    && forall i :: 0 <= i < |run| - 1 ==> Next(run[i], run[i + 1])
  }

  ghost predicate Reachable(s: State, n: nat, withSource: bool) {
    exists run :: IsRun(run, n, withSource) && run[|run| - 1] == s
  }

  // ---- the invariant ----

  /** What a child's position says about the claim, the stored outcome and the event. */
  predicate ChildOk(s: State, i: nat)
    requires i < |s.children|
  {
    var mine := s.first.Some? && s.first.value.0 == i;
    && (s.children[i].NotStarted? <==> s.parent.Spawning? && s.parent.i <= i)
    && (match s.children[i]
        case NotStarted => !mine
        case Running => !mine
        case Claiming(_) => !mine
        case Storing(o) => s.first == Some((i, o)) && s.stored.None? && s.event.setters == []
        case Notifying => mine && s.stored == s.first && s.event.setters == []
        case Setting(t) => mine && s.stored == s.first && t == 0 && |s.event.setters| == 1
        case Ended =>
          s.first.Some? && (mine ==> |s.event.setters| == 1 && s.event.setters[0].Finished? && s.event.head == E.Mark))
  }

  predicate ParentOk(s: State) {
    match s.parent
    case Spawning(i) => s.event.awaiters == [] && i <= |s.children| && !s.cancelRequested
    case CancellingEmpty => s.children == [] && s.withSource && !s.cancelRequested
    case ThrewEmpty => s.children == [] && s.cancelRequested == s.withSource
    case Awaiting => |s.event.awaiters| == 1 && s.children != [] && !s.cancelRequested
    case Reading => s.stored.Some? && !s.cancelRequested
    case Read(i, o) => s.stored == Some((i, o)) && !s.cancelRequested
    case Cancelling(i, o) => s.stored == Some((i, o)) && s.withSource && !s.cancelRequested
    case Returned(i, o) => s.stored == Some((i, o)) && s.cancelRequested == s.withSource
    case Broken => false
  }

  ghost predicate Inv(s: State) {
    && T.Inv(s.event)
    && (s.completed <==> s.first.Some?)
    && (s.first.Some? ==> s.first.value.0 < |s.children|)
    && (s.stored.Some? ==> s.stored == s.first)
    && (s.stored.None? ==> s.event.setters == [])
    && (s.event.setters == [] ==> s.event.head != E.Mark)
    && ParentOk(s)
    && (forall i {:trigger ChildOk(s, i)} :: 0 <= i < |s.children| ==> ChildOk(s, i))
  }

  lemma SetFacts(ev: E.State)
    requires T.Inv(ev) && |ev.setters| == 1 && !ev.setters[0].Finished?
    ensures var ev' := E.Apply(ev, E.Set(0));
      T.Inv(ev') && |ev'.setters| == 1 && |ev'.awaiters| == |ev.awaiters|
      && (ev'.setters[0].Finished? ==> ev'.head == E.Mark)
  {
    T.StepInv(ev, E.Set(0));
  }

  lemma AwaitFacts(ev: E.State, weak: bool)
    requires T.Inv(ev) && E.Enabled(ev, E.Await(0, weak))
    ensures var ev' := E.Apply(ev, E.Await(0, weak));
      T.Inv(ev') && ev'.setters == ev.setters && |ev'.awaiters| == |ev.awaiters| && (ev'.head == E.Mark <==> ev.head == E.Mark)
  {
    T.StepInv(ev, E.Await(0, weak));
    assert T.AwaiterOk(ev.head, ev.awaiters[0]);
  }

  lemma SpawnInv(s: State, weak: bool)
    requires Inv(s) && s.parent.Spawning?
    ensures Inv(ParentStep(s, weak))
  {
    var s', i := ParentStep(s, weak), s.parent.i;
    if i >= |s.children| && i > 0 { T.NewAwaiterInv(s.event); }
    forall j | 0 <= j < |s'.children| ensures ChildOk(s', j) { assert ChildOk(s, j); }
  }

  lemma AwaitingInv(s: State, weak: bool)
    requires Inv(s) && Enabled(s, Parent(weak)) && s.parent.Awaiting?
    ensures Inv(ParentStep(s, weak))
  {
    var s' := ParentStep(s, weak);
    if Past(s.event) { T.PastMeansSet(s.event, 0); } else { AwaitFacts(s.event, weak); }
    forall j | 0 <= j < |s'.children| ensures ChildOk(s', j) { assert ChildOk(s, j); }
  }

  lemma ParentInv(s: State, weak: bool)
    requires Inv(s) && Enabled(s, Parent(weak))
    ensures Inv(ParentStep(s, weak))
  {
    if s.parent.Spawning? {
      SpawnInv(s, weak);
    } else if s.parent.Awaiting? {
      AwaitingInv(s, weak);
    } else {
      var s' := ParentStep(s, weak);
      forall j | 0 <= j < |s'.children| ensures ChildOk(s', j) { assert ChildOk(s, j); }
    }
  }

  lemma SettingInv(s: State, i: nat)
    requires Inv(s) && Enabled(s, Child(i)) && (s.children[i].Notifying? || s.children[i].Setting?)
    ensures Inv(ChildStep(s, i))
  {
    var s' := ChildStep(s, i);
    assert ChildOk(s, i);
    match s.children[i] {
      case Notifying => T.NewSetterInv(s.event);
      case Setting(t) => if !s.event.setters[t].Finished? { SetFacts(s.event); }
    }
    forall j | 0 <= j < |s'.children| ensures ChildOk(s', j) { assert ChildOk(s, j); }
  }

  lemma ChildInv(s: State, i: nat)
    requires Inv(s) && Enabled(s, Child(i))
    ensures Inv(ChildStep(s, i))
  {
    if s.children[i].Notifying? || s.children[i].Setting? {
      SettingInv(s, i);
    } else {
      var s' := ChildStep(s, i);
      assert ChildOk(s, i);
      assert s.first.Some? ==> ChildOk(s, s.first.value.0);
      forall j | 0 <= j < |s'.children| ensures ChildOk(s', j) { assert ChildOk(s, j); }
    }
  }

  lemma StepInv(s: State, st: Step)
    requires Inv(s) && Enabled(s, st)
    ensures Inv(Apply(s, st))
  {
    match st
    case Parent(weak) => ParentInv(s, weak);
    case Child(i) => ChildInv(s, i);
    case Complete(i, o) =>
      var s' := Apply(s, st);
      forall j | 0 <= j < |s'.children| ensures ChildOk(s', j) { assert ChildOk(s, j); }
  }

  lemma StepShape(s: State, st: Step)
    requires Enabled(s, st)
    ensures |Apply(s, st).children| == |s.children| && Apply(s, st).withSource == s.withSource
  {}

  lemma InitialInv(n: nat, withSource: bool)
    ensures Inv(Initial(n, withSource))
  {
    forall j | 0 <= j < n ensures ChildOk(Initial(n, withSource), j) {}
  }

  lemma {:induction false} RunInv(run: seq<State>, n: nat, withSource: bool)
    requires IsRun(run, n, withSource)
    ensures Inv(run[|run| - 1])
    ensures |run[|run| - 1].children| == n && run[|run| - 1].withSource == withSource
  {
    if |run| == 1 {
      InitialInv(n, withSource);
    } else {
      RunInv(run[..|run| - 1], n, withSource);
      assert Next(run[|run| - 2], run[|run| - 1]);
      var st :| Enabled(run[|run| - 2], st) && run[|run| - 1] == Apply(run[|run| - 2], st);
      StepInv(run[|run| - 2], st);
      StepShape(run[|run| - 2], st);
    }
  }

  lemma ReachableInv(s: State, n: nat, withSource: bool)
    requires Reachable(s, n, withSource)
    ensures Inv(s) && |s.children| == n && s.withSource == withSource
  {
    var run :| IsRun(run, n, withSource) && run[|run| - 1] == s;
    RunInv(run, n, withSource);
  }

  // ---- the promises ----

  predicate Publishing(c: Child) { c.Storing? || c.Notifying? || c.Setting? }

  /** At most one child is ever past the claim, and it is the first claimer. */
  lemma OnePublisher(s: State, n: nat, withSource: bool, i: nat, j: nat)
    requires Reachable(s, n, withSource) && i < |s.children| && j < |s.children|
    requires Publishing(s.children[i]) && Publishing(s.children[j])
    ensures i == j && s.first.Some? && s.first.value.0 == i
  {
    ReachableInv(s, n, withSource);
    assert ChildOk(s, i) && ChildOk(s, j);
  }

  /** The first claim and what was stored for it never change again, and neither does what the parent
      returns. */
  lemma OutcomeFinal(s: State, s': State, n: nat, withSource: bool)
    requires Reachable(s, n, withSource) && Next(s, s')
    ensures s.first.Some? ==> s'.first == s.first
    ensures s.stored.Some? ==> s'.stored == s.stored
    ensures s.parent.Returned? ==> s'.parent == s.parent
  {
    ReachableInv(s, n, withSource);
    var st :| Enabled(s, st) && s' == Apply(s, st);
    assert st.Child? ==> ChildOk(s, st.i);
  }

  /** The event is set only after the first claimer's outcome is stored. */
  lemma SetAfterStore(s: State, n: nat, withSource: bool)
    requires Reachable(s, n, withSource) && s.event.head == E.Mark
    ensures s.stored.Some? && s.stored == s.first
  {
    ReachableInv(s, n, withSource);
  }

  /** The parent reads the first claimer's index and outcome, and never an empty result. */
  lemma ReadsFirst(s: State, n: nat, withSource: bool)
    requires Reachable(s, n, withSource)
    ensures !s.parent.Broken?
    ensures s.parent.Read? || s.parent.Cancelling? || s.parent.Returned? ==>
      s.parent.i < n && s.first == Some((s.parent.i, s.parent.o)) && s.stored == s.first
  {
    ReachableInv(s, n, withSource);
    if s.first.Some? { assert ChildOk(s, s.first.value.0); }
  }

  /** The cancellation variants request cancellation exactly once the outcome is fixed and is about to be
      handed on, be it the error that there was nothing to wait for; the plain ones never do. */
  lemma CancelsAfterOutcome(s: State, n: nat, withSource: bool)
    requires Reachable(s, n, withSource)
    ensures s.cancelRequested <==> withSource && (s.parent.Returned? || s.parent.ThrewEmpty?)
    ensures s.cancelRequested && n > 0 ==> s.stored.Some? && s.stored == s.first
  {
    ReachableInv(s, n, withSource);
    ReadsFirst(s, n, withSource);
  }

  lemma EndedMeansSet(s: State)
    requires Inv(s) && s.children != [] && forall i :: 0 <= i < |s.children| ==> s.children[i].Ended?
    ensures s.event.head == E.Mark && forall t :: 0 <= t < |s.event.setters| ==> s.event.setters[t].Finished?
  {
    assert ChildOk(s, 0);
    assert ChildOk(s, s.first.value.0);
  }

  /** When nothing can move, every child has ended, and the parent has returned, or has thrown because
      there was nothing to wait for. A child whose awaitable never completes is Running, and counts as
      able to move. */
  lemma NobodyStranded(s: State, n: nat, withSource: bool)
    requires Reachable(s, n, withSource)
    requires forall st :: !Enabled(s, st)
    ensures if n == 0 then s.parent.ThrewEmpty? else s.parent.Returned?
    ensures n > 0 ==> forall i :: 0 <= i < |s.children| ==> s.children[i].Ended?
  {
    ReachableInv(s, n, withSource);
    assert !Enabled(s, Parent(false));
    forall i | 0 <= i < |s.children| ensures s.children[i].Ended? {
      assert ChildOk(s, i);
      assert !Enabled(s, Child(i)) && !Enabled(s, Complete(i, Value(0)));
    }
    if n > 0 {
      EndedMeansSet(s);
      T.AllResumed(s.event);
    }
  }

  // ---- where the outcome comes from ----

  /** A run with the steps that were taken. */
  ghost predicate Takes(run: seq<State>, steps: seq<Step>, n: nat, withSource: bool) {
    && |run| == |steps| + 1
    && run[0] == Initial(n, withSource)
    && forall k :: 0 <= k < |steps| ==> Enabled(run[k], steps[k]) && run[k + 1] == Apply(run[k], steps[k])
  }

  lemma TakesPrefix(run: seq<State>, steps: seq<Step>, n: nat, withSource: bool)
    requires Takes(run, steps, n, withSource) && steps != []
    ensures var k := |steps| - 1;
      && Takes(run[..k + 1], steps[..k], n, withSource) && run[..k + 1][|steps[..k]|] == run[k]
      && Enabled(run[k], steps[k]) && run[|steps|] == Apply(run[k], steps[k])
  {}

  function CompletedBy(st: Step): set<(nat, Outcome)> { if st.Complete? then {(st.i, st.o)} else {} }

  /** Which awaitables have completed, and with what. */
  ghost function Completed(steps: seq<Step>): set<(nat, Outcome)> {
    if steps == [] then {} else Completed(steps[..|steps| - 1]) + CompletedBy(steps[|steps| - 1])
  }

  lemma {:induction false} CompletedIs(steps: seq<Step>, i: nat, o: Outcome)
    ensures (i, o) in Completed(steps) <==> Complete(i, o) in steps
  {
    if steps != [] {
      CompletedIs(steps[..|steps| - 1], i, o);
      assert steps == steps[..|steps| - 1] + [steps[|steps| - 1]];
    }
  }

  /** Outcomes on the way, claimed or stored are those of awaitables that have completed with them. */
  ghost predicate Known(s: State, done: set<(nat, Outcome)>) {
    && (forall i :: 0 <= i < |s.children| ==>
          && (s.children[i].Claiming? ==> (i, s.children[i].o) in done)
          && (s.children[i].Storing? ==> (i, s.children[i].o) in done))
    && (s.first.Some? ==> s.first.value in done)
  }

  lemma StepKnown(s: State, st: Step, done: set<(nat, Outcome)>)
    requires Enabled(s, st) && Known(s, done)
    ensures Known(Apply(s, st), done + CompletedBy(st))
  {}

  lemma {:induction false} RunKnown(run: seq<State>, steps: seq<Step>, n: nat, withSource: bool)
    requires Takes(run, steps, n, withSource)
    ensures Known(run[|steps|], Completed(steps))
  {
    if steps != [] {
      var k := |steps| - 1;
      TakesPrefix(run, steps, n, withSource);
      RunKnown(run[..k + 1], steps[..k], n, withSource);
      StepKnown(run[k], steps[k], Completed(steps[..k]));
    }
  }

  lemma {:induction false} TakenIsReachable(run: seq<State>, steps: seq<Step>, n: nat, withSource: bool)
    requires Takes(run, steps, n, withSource)
    ensures Reachable(run[|steps|], n, withSource)
  {
    forall k | 0 <= k < |run| - 1 ensures Next(run[k], run[k + 1]) {
      assert Enabled(run[k], steps[k]) && run[k + 1] == Apply(run[k], steps[k]);
    }
    assert IsRun(run, n, withSource) && run[|run| - 1] == run[|steps|];
  }

  /** In every run the index and the outcome that the first child has claimed, that are stored and that the
      parent returns are those of an awaitable that has completed so. */
  lemma OutcomeIsReal(run: seq<State>, steps: seq<Step>, n: nat, withSource: bool)
    requires Takes(run, steps, n, withSource)
    ensures var s := run[|steps|];
      && (s.first.Some? ==> Complete(s.first.value.0, s.first.value.1) in steps)
      && (s.stored.Some? ==> Complete(s.stored.value.0, s.stored.value.1) in steps)
      && (s.parent.Read? || s.parent.Cancelling? || s.parent.Returned? ==> Complete(s.parent.i, s.parent.o) in steps)
  {
    var s := run[|steps|];
    RunKnown(run, steps, n, withSource);
    TakenIsReachable(run, steps, n, withSource);
    ReachableInv(s, n, withSource);
    ReadsFirst(s, n, withSource);
    if s.first.Some? { CompletedIs(steps, s.first.value.0, s.first.value.1); }
  }

  // ---- completion_state in place ----

  class CompletionState {
    var completed: bool
    var result: Option<Outcome>    // result_ or exception_, whichever was written

    ghost predicate Valid()
      reads this
    {
      completed <==> result.Some?
    }

    constructor ()
      ensures Valid() && !completed
    {
      completed, result := false, None;
    }

    /** try_publish_result and try_publish_exception: only the first caller's outcome is kept. */
    method TryPublish(o: Outcome) returns (published: bool)
      requires Valid()
      modifies this
      ensures Valid() && completed
      ensures published <==> !old(completed)
      ensures result == if published then Some(o) else old(result)
    {
      if completed { return false; }
      completed := true;
      result := Some(o);
      return true;
    }
  }
}
