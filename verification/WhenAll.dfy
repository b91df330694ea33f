/** when_all over n >= 1 awaitables: the latch, the parent that starts the children and awaits the
    latch, and the children's completion notifiers, as an interleaved step machine. */
module WhenAll {
  import opened Basics

  /** A child's result_: nothing yet, a value or an exception. */
  datatype Result = Empty | Value(v: int) | Error(e: int)

  datatype Child =
    | NotStarted
    | Running
    | Stored                       // result_ is written; final_suspend is about to notify the latch
    | Notified

  datatype Parent =
    | Ready                        // await_ready
    | Starting(i: nat)             // the handle is in the latch; children below i are started
    | Trying                       // about to call try_await
    | Suspended
    | Continued                    // in await_resume, inline or resumed by a notifier

  datatype State = State(
    count: int, awaiting: bool, parent: Parent, children: seq<Child>, results: seq<Result>,
    continuations: nat,            // history: how often the parent has gone on to await_resume
    fault: bool)                   // the parent was resumed while not suspended

  function Initial(n: nat): State {
    State(n + 1, false, Ready, seq(n, _ => NotStarted), seq(n, _ => Empty), 0, false)
  }

  function Continue(s: State): State { s.(parent := Continued, continuations := s.continuations + 1) }

  /** notify_awaitable_completed: whoever brings the count from one to zero resumes the parent. */
  function Notify(s: State): State {
    var s1 := s.(count := s.count - 1);
    if s.count == 1 && s.awaiting then (if s.parent.Suspended? then Continue(s1) else s1.(fault := true)) else s1
  }

  datatype Step = Parent | Finish(i: nat, r: Result) | Notifier(i: nat)

  predicate Enabled(s: State, st: Step) {
    |s.results| == |s.children| &&
    match st
    case Parent => !s.parent.Suspended? && !s.parent.Continued?
    case Finish(i, r) => i < |s.children| && s.children[i].Running? && !r.Empty?
    case Notifier(i) => i < |s.children| && s.children[i].Stored?
  }

  function Apply(s: State, st: Step): State
    requires Enabled(s, st)
  {
    match st
    case Parent =>
      (match s.parent
       case Ready => if s.count == 1 then Continue(s) else s.(parent := Starting(0), awaiting := true)
       case Starting(i) =>
         if i < |s.children| then s.(children := s.children[i := Running], parent := Starting(i + 1))
         else s.(parent := Trying)
       case Trying =>
         var s1 := s.(count := s.count - 1);
         if s.count > 1 then s1.(parent := Suspended) else Continue(s1)
       case _ => s)
    case Finish(i, r) => s.(children := s.children[i := Stored], results := s.results[i := r])
    case Notifier(i) => Notify(s.(children := s.children[i := Notified]))
  }

  ghost predicate Next(s: State, s': State) { exists st :: Enabled(s, st) && s' == Apply(s, st) }

  ghost predicate IsRun(run: seq<State>, n: nat) {
    && run != []
    && run[0] == Initial(n)
    && forall i :: 0 <= i < |run| - 1 ==> Next(run[i], run[i + 1])
  }

  ghost predicate Reachable(s: State, n: nat) { exists run :: IsRun(run, n) && run[|run| - 1] == s }

  // ---- the invariant ----

  /** Children that have not notified the latch. */
  function Unfinished(children: seq<Child>): nat {
    if children == [] then 0 else (if children[0].Notified? then 0 else 1) + Unfinished(children[1..])
  }

  lemma {:induction false} UnfinishedUpdate(children: seq<Child>, i: nat, c: Child)
    requires i < |children|
    ensures Unfinished(children[i := c]) + (if children[i].Notified? then 0 else 1)
         == Unfinished(children) + (if c.Notified? then 0 else 1)
  {
    if i > 0 {
      assert children[i := c][1..] == children[1..][i - 1 := c];
      UnfinishedUpdate(children[1..], i - 1, c);
    } else {
      assert children[i := c][1..] == children[1..];
    }
  }

  lemma {:induction false} AllUnfinished(children: seq<Child>)
    requires forall i :: 0 <= i < |children| ==> !children[i].Notified?
    ensures Unfinished(children) == |children|
  {
    if children != [] { AllUnfinished(children[1..]); }
  }

  lemma {:induction false} UnfinishedZero(children: seq<Child>)
    ensures Unfinished(children) == 0 <==> forall i :: 0 <= i < |children| ==> children[i].Notified?
  {
    if children != [] {
      UnfinishedZero(children[1..]);
      assert forall i :: 0 < i < |children| ==> children[i] == children[1..][i - 1];
      assert forall i :: 0 <= i < |children[1..]| ==> children[1..][i] == children[i + 1];
    }
  }

  /** try_await has not run yet. */
  predicate Holding(p: Parent) { p.Ready? || p.Starting? || p.Trying? }

  ghost predicate Inv(s: State, n: nat) {
    && !s.fault
    && |s.children| == |s.results| == n > 0
    && s.count == Unfinished(s.children) + (if Holding(s.parent) then 1 else 0)
    && (s.parent.Suspended? ==> s.count > 0)
    && (s.parent.Continued? <==> s.continuations == 1) && s.continuations <= 1
    && (s.parent.Continued? ==> s.count == 0)
    && (s.awaiting <==> !s.parent.Ready?)
    && (forall i :: 0 <= i < n ==> (s.results[i].Empty? <==> s.children[i].NotStarted? || s.children[i].Running?))
    && (forall i :: 0 <= i < n ==>
          (s.children[i].NotStarted? <==> s.parent.Ready? || (s.parent.Starting? && s.parent.i <= i)))
  }

  lemma StepInv(s: State, n: nat, st: Step)
    requires Inv(s, n) && Enabled(s, st)
    ensures Inv(Apply(s, st), n)
  {
    match st
    case Parent =>
      if s.parent.Ready? {
        AllUnfinished(s.children);
      } else if s.parent.Starting? && s.parent.i < n {
        UnfinishedUpdate(s.children, s.parent.i, Running);
      }
    case Finish(i, _) => UnfinishedUpdate(s.children, i, Stored);
    case Notifier(i) => UnfinishedUpdate(s.children, i, Notified);
  }

  lemma {:induction false} RunInv(run: seq<State>, n: nat)
    requires IsRun(run, n) && n > 0
    ensures Inv(run[|run| - 1], n)
  {
    if |run| == 1 {
      AllUnfinished(run[0].children);
    } else {
      RunInv(run[..|run| - 1], n);
      assert Next(run[|run| - 2], run[|run| - 1]);
      var st :| Enabled(run[|run| - 2], st) && run[|run| - 1] == Apply(run[|run| - 2], st);
      StepInv(run[|run| - 2], n, st);
    }
  }

  lemma ReachableInv(s: State, n: nat)
    requires Reachable(s, n) && n > 0
    ensures Inv(s, n)
  {
    var run :| IsRun(run, n) && run[|run| - 1] == s;
    RunInv(run, n);
  }

  // ---- the promises ----

  /** The latch counts the unfinished children, plus one until try_await has run. */
  lemma LatchExact(s: State, n: nat)
    requires Reachable(s, n) && n > 0
    ensures s.count == Unfinished(s.children) + if Holding(s.parent) then 1 else 0
  {
    ReachableInv(s, n);
  }

  /** The parent goes on at most once, never while it is not suspended, and only when every child has
      stored its result and notified the latch. */
  lemma ContinuesOnceAllStored(s: State, n: nat)
    requires Reachable(s, n) && n > 0
    ensures !s.fault && s.continuations <= 1
    ensures s.parent.Continued? <==> s.continuations == 1
    ensures s.parent.Continued? ==> |s.results| == n && forall i :: 0 <= i < n ==> !s.results[i].Empty?
  {
    ReachableInv(s, n);
    UnfinishedZero(s.children);
  }

  /** Once every child has notified the latch and the parent has no step left, the parent has gone on. */
  lemma NotStranded(s: State, n: nat)
    requires Reachable(s, n) && n > 0 && !Enabled(s, Parent)
    requires forall i :: 0 <= i < |s.children| ==> s.children[i].Notified?
    ensures s.parent.Continued? && s.continuations == 1
  {
    ReachableInv(s, n);
    UnfinishedZero(s.children);
  }

  /** throw_if_any_exception: the children's promises are asked in order, and the first that has an
      exception rethrows it. */
  function FirstError(results: seq<Result>): Option<int> {
    if results == [] then None
    else if results[0].Error? then Some(results[0].e) else FirstError(results[1..])
  }

  predicate IsLowestError(results: seq<Result>, i: nat) {
    i < |results| && results[i].Error? && forall j :: 0 <= j < i ==> !results[j].Error?
  }

  lemma {:induction false} FirstErrorIsLowest(results: seq<Result>, i: nat)
    requires IsLowestError(results, i)
    ensures FirstError(results) == Some(results[i].e)
  {
    if i > 0 { FirstErrorIsLowest(results[1..], i - 1); }
  }

  lemma {:induction false} NoErrorNoThrow(results: seq<Result>)
    ensures FirstError(results).None? <==> forall j :: 0 <= j < |results| ==> !results[j].Error?
  {
    if results != [] {
      NoErrorNoThrow(results[1..]);
      assert forall j :: 0 < j < |results| ==> results[j] == results[1..][j - 1];
      assert forall j :: 0 <= j < |results[1..]| ==> results[1..][j] == results[j + 1];
    }
  }

  /** What a child reports is fixed when it is stored, and the parent's exception is that of the lowest
      failing index, whatever the order in which the children finished. */
  lemma ResultsFinal(s: State, s': State, n: nat, i: nat)
    requires Reachable(s, n) && n > 0 && Next(s, s') && i < |s.results| && !s.results[i].Empty?
    ensures i < |s'.results| && s'.results[i] == s.results[i]
  {
    ReachableInv(s, n);
  }

  lemma ThrowsLowest(s: State, n: nat)
    requires Reachable(s, n) && n > 0 && s.parent.Continued?
    ensures |s.results| == n
    ensures FirstError(s.results).None? <==> forall i :: 0 <= i < n ==> s.results[i].Value?
    ensures FirstError(s.results).Some? ==>
      exists i: nat :: i < n && IsLowestError(s.results, i) && s.results[i].e == FirstError(s.results).value
  {
    ContinuesOnceAllStored(s, n);
    NoErrorNoThrow(s.results);
    if FirstError(s.results).Some? {
      var i := LowestError(s.results);
      FirstErrorIsLowest(s.results, i);
    }
  }

  lemma {:induction false} LowestError(results: seq<Result>) returns (i: nat)
    requires exists j :: 0 <= j < |results| && results[j].Error?
    ensures IsLowestError(results, i)
  {
    if results[0].Error? {
      i := 0;
    } else {
      var j :| 0 <= j < |results| && results[j].Error?;
      assert results[1..][j - 1].Error?;
      var k := LowestError(results[1..]);
      i := k + 1;
      forall l | 0 <= l < i ensures !results[l].Error? { assert l > 0 ==> results[l] == results[1..][l - 1]; }
    }
  }

  // ---- what the children came to ----

  /** A run with the steps that were taken. */
  ghost predicate Takes(run: seq<State>, steps: seq<Step>, n: nat) {
    && |run| == |steps| + 1
    && run[0] == Initial(n)
    && forall k :: 0 <= k < |steps| ==> Enabled(run[k], steps[k]) && run[k + 1] == Apply(run[k], steps[k])
  }

  lemma TakesPrefix(run: seq<State>, steps: seq<Step>, n: nat)
    requires Takes(run, steps, n) && steps != []
    ensures var k := |steps| - 1;
      && Takes(run[..k + 1], steps[..k], n) && run[..k + 1][|steps[..k]|] == run[k]
      && Enabled(run[k], steps[k]) && run[|steps|] == Apply(run[k], steps[k])
  {}

  /** What child i came to: what it finished with. */
  function CameTo(steps: seq<Step>, i: nat): Result {
    if steps == [] then Empty
    else
      var st := steps[|steps| - 1];
      if st.Finish? && st.i == i then st.r else CameTo(steps[..|steps| - 1], i)
  }

  lemma {:induction false} CameToIs(steps: seq<Step>, i: nat)
    ensures CameTo(steps, i) != Empty ==> Finish(i, CameTo(steps, i)) in steps
  {
    if steps != [] {
      CameToIs(steps[..|steps| - 1], i);
      assert steps == steps[..|steps| - 1] + [steps[|steps| - 1]];
    }
  }

  lemma {:induction false} FinishedCameTo(steps: seq<Step>, a: nat)
    requires a < |steps| && steps[a].Finish?
    requires forall k :: 0 <= k < |steps| && steps[k].Finish? ==> !steps[k].r.Empty?
    ensures CameTo(steps, steps[a].i) != Empty
  {
    if a < |steps| - 1 { FinishedCameTo(steps[..|steps| - 1], a); }
  }

  lemma StepStores(s: State, st: Step, n: nat, i: nat)
    requires Inv(s, n) && Enabled(s, st) && i < n
    ensures |Apply(s, st).results| == n
    ensures Apply(s, st).results[i] == if st.Finish? && st.i == i then st.r else s.results[i]
    ensures st.Finish? && st.i == i ==> s.results[i] == Empty
  {}

  /** In every state of a run a child's result is what it has come to, and nothing before it has finished. */
  lemma {:induction false} StoredIsWhatCame(run: seq<State>, steps: seq<Step>, n: nat)
    requires Takes(run, steps, n) && n > 0
    ensures Inv(run[|steps|], n)
    ensures forall i :: 0 <= i < n ==> run[|steps|].results[i] == CameTo(steps, i)
  {
    if steps == [] {
      AllUnfinished(run[0].children);
    } else {
      var k := |steps| - 1;
      TakesPrefix(run, steps, n);
      StoredIsWhatCame(run[..k + 1], steps[..k], n);
      StepInv(run[k], n, steps[k]);
      forall i | 0 <= i < n ensures run[|steps|].results[i] == CameTo(steps, i) { StepStores(run[k], steps[k], n, i); }
    }
  }

  lemma FinishesWith(run: seq<State>, steps: seq<Step>, n: nat, b: nat)
    requires Takes(run, steps, n) && b <= |steps|
    ensures Takes(run[..b + 1], steps[..b], n) && run[..b + 1][|steps[..b]|] == run[b]
    ensures forall k :: 0 <= k < b && steps[..b][k].Finish? ==> !steps[..b][k].r.Empty?
  {
    forall k | 0 <= k < b ensures Enabled(run[k], steps[..b][k]) { assert Enabled(run[k], steps[k]); }
  }

  /** A child finishes once. */
  lemma FinishesOnce(run: seq<State>, steps: seq<Step>, n: nat, a: nat, b: nat)
    requires Takes(run, steps, n) && n > 0 && a < b < |steps|
    requires steps[a].Finish? && steps[b].Finish?
    ensures steps[a].i != steps[b].i
  {
    FinishesWith(run, steps, n, b);
    StoredIsWhatCame(run[..b + 1], steps[..b], n);
    assert Enabled(run[b], steps[b]);
    StepStores(run[b], steps[b], n, steps[b].i);
    assert steps[..b][a] == steps[a];
    FinishedCameTo(steps[..b], a);
  }

  /** What is rethrown, in terms of the results. */
  lemma RethrownIs(results: seq<Result>)
    ensures FirstError(results).None? <==> forall i :: 0 <= i < |results| ==> !results[i].Error?
    ensures FirstError(results).Some? ==>
      exists i: nat :: IsLowestError(results, i) && results[i].e == FirstError(results).value
  {
    NoErrorNoThrow(results);
    if FirstError(results).Some? {
      var i := LowestError(results);
      FirstErrorIsLowest(results, i);
    }
  }

  lemma AllCame(run: seq<State>, steps: seq<Step>, n: nat, i: nat)
    requires Takes(run, steps, n) && n > 0 && run[|steps|].parent.Continued? && i < n
    ensures |run[|steps|].results| == n && run[|steps|].results[i] == CameTo(steps, i) != Empty
    ensures Finish(i, CameTo(steps, i)) in steps
  {
    StoredIsWhatCame(run, steps, n);
    UnfinishedZero(run[|steps|].children);
    assert run[|steps|].children[i].Notified?;
    CameToIs(steps, i);
  }

  /** When the parent goes on, every child has finished, its result is what it finished with, and what
      await_resume rethrows is the exception of the lowest failing index; nothing iff all finished with a value. */
  lemma RethrowsLowestFailure(run: seq<State>, steps: seq<Step>, n: nat)
    requires Takes(run, steps, n) && n > 0 && run[|steps|].parent.Continued?
    ensures var results := run[|steps|].results;
      && |results| == n
      && (forall i: nat :: i < n ==> !results[i].Empty? && Finish(i, results[i]) in steps)
      && (FirstError(results).None? <==> forall i :: 0 <= i < n ==> results[i].Value?)
      && (FirstError(results).Some? ==>
            exists i: nat :: IsLowestError(results, i) && results[i].e == FirstError(results).value)
  {
    var results := run[|steps|].results;
    AllCame(run, steps, n, 0);
    forall i: nat | i < n ensures !results[i].Empty? && Finish(i, results[i]) in steps { AllCame(run, steps, n, i); }
    RethrownIs(results);
  }

  // ---- runs end ----

  function ChildLeft(c: Child): nat {
    match c case NotStarted => 2 case Running => 2 case Stored => 1 case Notified => 0
  }

  function ParentLeft(p: Parent, n: nat): nat {
    match p
    case Ready => n + 3
    case Starting(i) => if i <= n then n - i + 2 else 2
    case Trying => 1
    case _ => 0
  }

  function StepsLeft(s: State): nat { ParentLeft(s.parent, |s.children|) + Total(s.children, ChildLeft) }

  lemma StepProgress(s: State, n: nat, st: Step)
    requires Inv(s, n) && Enabled(s, st)
    ensures StepsLeft(Apply(s, st)) < StepsLeft(s)
  {
    match st
    case Parent =>
      if s.parent.Starting? && s.parent.i < |s.children| { StartProgress(s, n); }
    case Finish(i, _) => TotalChanges(s.children, ChildLeft, i, Stored);
    case Notifier(i) => TotalChanges(s.children, ChildLeft, i, Notified);
  }

  lemma StartProgress(s: State, n: nat)
    requires Inv(s, n) && Enabled(s, Parent) && s.parent.Starting? && s.parent.i < |s.children|
    ensures StepsLeft(Apply(s, Parent)) < StepsLeft(s)
  {
    TotalChanges(s.children, ChildLeft, s.parent.i, Running);
  }

  lemma {:induction false} TotalOfFresh(n: nat)
    ensures Total(seq(n, _ => NotStarted), ChildLeft) == 2 * n
  {
    if n > 0 {
      assert seq(n, _ => NotStarted)[1..] == seq(n - 1, _ => NotStarted);
      TotalOfFresh(n - 1);
    }
  }

  /** A when_all takes at most 3n + 3 steps, whatever the order; so with NotStranded it ends once all its
      awaitables do. */
  lemma {:induction false} RunsEnd(run: seq<State>, steps: seq<Step>, n: nat)
    requires Takes(run, steps, n) && n > 0
    ensures |steps| + StepsLeft(run[|steps|]) <= 3 * n + 3
  {
    if steps == [] {
      TotalOfFresh(n);
    } else {
      var k := |steps| - 1;
      TakesPrefix(run, steps, n);
      RunsEnd(run[..k + 1], steps[..k], n);
      StoredIsWhatCame(run[..k + 1], steps[..k], n);
      StepProgress(run[k], n, steps[k]);
    }
  }

  // ---- the latch in place ----

  class WhenAllLatch {
    var count: int
    var awaiting: Option<nat>
    ghost var unfinished: nat      // children that have not notified
    ghost var tried: bool          // try_await has run

    /** What LatchExact says of the machine. */
    ghost predicate Valid()
      reads this
    {
      count == unfinished + if tried then 0 else 1
    }

    constructor (children: nat)
      ensures Valid() && count == children + 1 && awaiting == None && unfinished == children && !tried
    {
      count, awaiting := children + 1, None;
      unfinished, tried := children, false;
    }

    /** Before try_await, true when no child is unfinished. */
    method IsReady() returns (b: bool)
      requires Valid()
      ensures b <==> count == 1
      ensures !tried ==> (b <==> unfinished == 0)
    {
      b := count == 1;
    }

    method SetAwaitingCoroutine(handle: nat)
      requires Valid()
      modifies this`awaiting
      ensures Valid() && awaiting == Some(handle)
    {
      awaiting := Some(handle);
    }

    /** True when the caller must stay suspended: a child is unfinished. */
    method TryAwait() returns (suspend: bool)
      requires Valid() && !tried
      modifies this`count, this`tried
      ensures Valid() && tried && count == old(count) - 1
      ensures suspend <==> unfinished > 0
    {
      var before := count;
      count := before - 1;
      suspend := before > 1;
      tried := true;
    }

    /** One more child is finished. The coroutine that the caller must resume, if any: the one awaiting, by
        the last child, unless the coroutine has not called try_await yet. */
    method NotifyAwaitableCompleted() returns (resume: Option<nat>)
      requires Valid() && unfinished > 0
      modifies this`count, this`unfinished
      ensures Valid() && unfinished == old(unfinished) - 1 && count == old(count) - 1
      ensures resume == if unfinished == 0 && tried then awaiting else None
    {
      var before := count;
      count := before - 1;
      resume := if before == 1 then awaiting else None;
      unfinished := unfinished - 1;
    }
  }

  /** await_ready and await_suspend of when_all_ready_awaitable over n children, when k of them finish
      while they are being started: the coroutine stays suspended exactly if others are left. */
  method AwaitAll(n: nat, k: nat, handle: nat) returns (latch: WhenAllLatch, suspend: bool)
    requires k <= n
    ensures fresh(latch) && latch.Valid() && latch.unfinished == n - k
    ensures suspend <==> k < n
    ensures n > 0 ==> latch.tried && latch.awaiting == Some(handle)
  {
    latch := new WhenAllLatch(n);
    var ready := latch.IsReady();
    if ready { return latch, false; }
    latch.SetAwaitingCoroutine(handle);
    for i := 0 to k
      invariant latch.Valid() && !latch.tried && latch.unfinished == n - i && latch.awaiting == Some(handle)
      invariant fresh(latch)
    {
      var resume := latch.NotifyAwaitableCompleted();
      assert resume == None;
    }
    suspend := latch.TryAwait();
  }
}
