/** What thread_pool promises, in every run of the step machine. */
module ThreadPoolTheorems {
  import opened ThreadPoolCore
  import opened ThreadPoolModel

  // ---- counting workers ----

  predicate IsActive(w: Worker) { w.Running? || w.Finish? }

  function Tally(ws: seq<Worker>, f: Worker -> bool): nat {
    if ws == [] then 0 else (if f(ws[0]) then 1 else 0) + Tally(ws[1..], f)
  }

  function TaskOf(w: Worker): multiset<nat> { if w.Running? then multiset{w.task} else multiset{} }

  function TasksOf(ws: seq<Worker>): multiset<nat> {
    if ws == [] then multiset{} else TaskOf(ws[0]) + TasksOf(ws[1..])
  }

  lemma {:induction false} TallyUpdate(ws: seq<Worker>, f: Worker -> bool, i: nat, w: Worker)
    requires i < |ws|
    ensures Tally(ws[i := w], f) + (if f(ws[i]) then 1 else 0) == Tally(ws, f) + (if f(w) then 1 else 0)
  {
    if i > 0 {
      assert ws[i := w][1..] == ws[1..][i - 1 := w];
      TallyUpdate(ws[1..], f, i - 1, w);
    } else {
      assert ws[i := w][1..] == ws[1..];
    }
  }

  lemma {:induction false} TallyZero(ws: seq<Worker>, f: Worker -> bool)
    ensures Tally(ws, f) == 0 <==> forall i :: 0 <= i < |ws| ==> !f(ws[i])
  {
    if ws != [] {
      TallyZero(ws[1..], f);
      assert forall i :: 0 < i < |ws| ==> ws[i] == ws[1..][i - 1];
      assert (forall i :: 0 <= i < |ws| ==> !f(ws[i])) ==> forall i :: 0 <= i < |ws[1..]| ==> !f(ws[1..][i]) by {
        assert forall i :: 0 <= i < |ws[1..]| ==> ws[1..][i] == ws[i + 1];
      }
    }
  }

  /** Waking the blocked does not change a tally that treats a blocked worker as an awake one. */
  lemma {:induction false} TallyWake(ws: seq<Worker>, f: Worker -> bool)
    requires f(Blocked) == f(Check)
    ensures Tally(WakeAll(ws), f) == Tally(ws, f)
  {
    if ws != [] {
      assert WakeAll(ws)[1..] == WakeAll(ws[1..]);
      TallyWake(ws[1..], f);
    }
  }

  lemma {:induction false} TasksUpdate(ws: seq<Worker>, i: nat, w: Worker)
    requires i < |ws|
    ensures TasksOf(ws[i := w]) + TaskOf(ws[i]) == TasksOf(ws) + TaskOf(w)
  {
    if i > 0 {
      assert ws[i := w][1..] == ws[1..][i - 1 := w];
      TasksUpdate(ws[1..], i - 1, w);
      Regroup(TaskOf(ws[0]), TasksOf(ws[1..][i - 1 := w]), TaskOf(ws[i]), TasksOf(ws[1..]), TaskOf(w));
    } else {
      assert ws[i := w][1..] == ws[1..];
      Swap(TaskOf(w), TaskOf(ws[0]), TasksOf(ws[1..]));
    }
  }

  lemma {:induction false} TasksWake(ws: seq<Worker>)
    ensures TasksOf(WakeAll(ws)) == TasksOf(ws)
  {
    if ws != [] {
      assert WakeAll(ws)[1..] == WakeAll(ws[1..]);
      TasksWake(ws[1..]);
    }
  }

  lemma NewlyQueued(q: multiset<nat>, q': multiset<nat>, t: multiset<nat>, f: multiset<nat>, h: nat)
    requires q' == q + multiset{h}
    ensures q' + t + f == q + t + f + multiset{h}
  {}

  lemma QueuedToRunning(q: multiset<nat>, q': multiset<nat>, t: multiset<nat>, t': multiset<nat>, f: multiset<nat>, h: nat)
    requires q == q' + multiset{h} && t' + multiset{} == t + multiset{h}
    ensures q' + t' + f == q + t + f
  {
    assert q' + (t + multiset{h}) == q' + multiset{h} + t;
  }

  lemma RunningToFinished(q: multiset<nat>, t: multiset<nat>, t': multiset<nat>, f: multiset<nat>, h: nat)
    requires t' + multiset{h} == t + multiset{}
    ensures q + t' + (f + multiset{h}) == q + t + f
  {
    assert q + t' + (f + multiset{h}) == q + (t' + multiset{h}) + f;
  }

  // ---- the invariant ----

  predicate Awake(w: Worker) { !w.Blocked? && !w.Exited? }

  ghost predicate SomeAwake(ws: seq<Worker>) { exists i :: 0 <= i < |ws| && Awake(ws[i]) }

  ghost predicate SomeBlocked(ws: seq<Worker>) { exists i :: 0 <= i < |ws| && ws[i].Blocked? }

  ghost predicate SomeWaking(ws: seq<Worker>) { exists i :: 0 <= i < |ws| && ws[i].Waking? }

  ghost predicate SomeExited(ws: seq<Worker>) { exists i :: 0 <= i < |ws| && ws[i].Exited? }

  ghost predicate Inv(s: State) {
    && |s.workers| == |s.core.locals| > 0
    && CountOk(s.core)
    && s.core.active == Tally(s.workers, IsActive)
    && s.accepted == Queued(s.core) + TasksOf(s.workers) + s.finished
    && (SomeExited(s.workers) ==> ShouldExit(s.core))
    && (s.core.pending > 0 ==> SomeAwake(s.workers) || s.ones > 0)
    && (ShouldExit(s.core) && SomeBlocked(s.workers) ==> s.stopAll || SomeWaking(s.workers))
    && (s.stopAll ==> !s.core.accepting)
  }

  lemma {:induction false} EmptyLocals(n: nat)
    ensures TotalLength(Copies(n, [])) == 0 && Union(Copies(n, [])) == multiset{}
  {
    if n > 0 {
      assert Copies<seq<nat>>(n, [])[1..] == Copies(n - 1, []);
      EmptyLocals(n - 1);
    }
  }

  lemma {:induction false} AllCheck(n: nat)
    ensures Tally(Copies(n, Check), IsActive) == 0 && TasksOf(Copies(n, Check)) == multiset{}
  {
    if n > 0 {
      assert Copies(n, Check)[1..] == Copies(n - 1, Check);
      AllCheck(n - 1);
    }
  }

  lemma InitialInv(threads: nat)
    ensures Inv(Initial(threads))
  {
    var n := if threads == 0 then 1 else threads;
    EmptyLocals(n);
    AllCheck(n);
  }

  lemma EnqueueInv(s: State, st: Step)
    requires Inv(s) && Enabled(s, st) && st.Enqueue?
    ensures Inv(Apply(s, st))
  {
    if st.alive && s.core.accepting {
      var k := Put(s.core, st.h, st.kind, st.worker);
      PutQueues(s.core, st.h, st.kind, st.worker);
      NewlyQueued(Queued(s.core), Queued(k), TasksOf(s.workers), s.finished, st.h);
    }
  }

  /** Waking the blocked leaves every worker awake that has not exited, and lets nobody exit. */
  lemma WakeKeeps(ws: seq<Worker>)
    ensures SomeExited(WakeAll(ws)) <==> SomeExited(ws)
    ensures SomeAwake(ws) ==> SomeAwake(WakeAll(ws))
    ensures ws != [] && !SomeExited(ws) ==> SomeAwake(WakeAll(ws))
    ensures !SomeBlocked(WakeAll(ws))
    ensures SomeWaking(ws) ==> SomeWaking(WakeAll(ws))
  {
    var ws' := WakeAll(ws);
    forall i | 0 <= i < |ws| ensures ws'[i].Exited? <==> ws[i].Exited? {}
    if SomeAwake(ws) {
      var i :| 0 <= i < |ws| && Awake(ws[i]);
      assert Awake(ws'[i]);
    }
    assert ws != [] && !ws[0].Exited? ==> Awake(ws'[0]);
    if SomeWaking(ws) {
      var i :| 0 <= i < |ws| && ws[i].Waking?;
      assert ws'[i].Waking?;
    }
  }

  lemma WakeInv(s: State, s': State)
    requires Inv(s) && s' == s.(workers := WakeAll(s.workers), stopAll := s'.stopAll) && (s'.stopAll ==> s.stopAll)
    ensures Inv(s')
  {
    TallyWake(s.workers, IsActive);
    TasksWake(s.workers);
    WakeKeeps(s.workers);
  }

  /** What the move of worker i does to the counts. */
  lemma CountMove(s: State, i: nat, w: Worker)
    requires i < |s.workers|
    ensures var ws' := s.workers[i := w];
      && Tally(ws', IsActive) + (if IsActive(s.workers[i]) then 1 else 0)
           == Tally(s.workers, IsActive) + (if IsActive(w) then 1 else 0)
      && TasksOf(ws') + TaskOf(s.workers[i]) == TasksOf(s.workers) + TaskOf(w)
  {
    TallyUpdate(s.workers, IsActive, i, w);
    TasksUpdate(s.workers, i, w);
  }

  /** What the move of worker i to w must respect for the sleep and wake protocol. */
  ghost predicate Sound(s: State, i: nat, w: Worker, k: Core, stopAll: bool)
    requires i < |s.workers|
  {
    && (w.Blocked? ==> k.pending == 0 && !ShouldExit(k))
    && (SomeExited(s.workers[i := w]) ==> ShouldExit(k))
    && (s.workers[i].Waking? && !w.Waking? ==> !SomeBlocked(s.workers[i := w]))
    && (ShouldExit(k) && !ShouldExit(s.core) ==> w.Waking? || stopAll)
    && (s.stopAll ==> stopAll)
  }

  lemma ProtocolMove(s: State, i: nat, w: Worker, k: Core)
    requires Inv(s) && i < |s.workers| && Sound(s, i, w, k, s.stopAll)
    ensures var ws' := s.workers[i := w];
      && (k.pending > 0 ==> SomeAwake(ws') || s.ones > 0)
      && (ShouldExit(k) && SomeBlocked(ws') ==> s.stopAll || SomeWaking(ws'))
  {
    var ws' := s.workers[i := w];
    assert ws'[i] == w;
    assert w.Exited? ==> SomeExited(ws');
    assert Awake(w) ==> SomeAwake(ws');
    if ShouldExit(k) && SomeBlocked(ws') && !w.Waking? {
      var j :| 0 <= j < |ws'| && ws'[j].Blocked?;
      assert s.workers[j].Blocked?;
      if SomeWaking(s.workers) {
        var m :| 0 <= m < |s.workers| && s.workers[m].Waking?;
        assert ws'[m].Waking?;
      }
    }
  }

  /** Worker i moves without touching the queues or the counters. */
  lemma MoveInv(s: State, i: nat, w: Worker)
    requires Inv(s) && i < |s.workers| && IsActive(w) == IsActive(s.workers[i]) && TaskOf(w) == TaskOf(s.workers[i])
    requires Sound(s, i, w, s.core, s.stopAll)
    ensures Inv(SetWorker(s, i, w))
  {
    CountMove(s, i, w);
    Cancel(TasksOf(s.workers[i := w]), TasksOf(s.workers), TaskOf(w));
    ProtocolMove(s, i, w, s.core);
  }

  lemma NoneExited(s: State, i: nat, w: Worker)
    requires i < |s.workers| && !w.Exited? && !SomeExited(s.workers)
    ensures !SomeExited(s.workers[i := w])
  {
    var ws' := s.workers[i := w];
    forall j | 0 <= j < |ws'| ensures !ws'[j].Exited? { assert !s.workers[j].Exited?; }
  }

  lemma TakeInv(s: State, i: nat, src: Source)
    requires Inv(s) && i < |s.workers| && s.workers[i].Check? && SourceOk(s.core, i, src)
    ensures var k := Without(s.core, i, src);
      Inv(SetWorker(s, i, Running(Taken(s.core, i, src))).(core := Moved(k)))
  {
    var task, k := Taken(s.core, i, src), Without(s.core, i, src);
    TakeQueues(s.core, i, src);
    CountMove(s, i, Running(task));
    NoneExited(s, i, Running(task));
    ProtocolMove(s, i, Running(task), Moved(k));
    QueuedToRunning(Queued(s.core), Queued(k), TasksOf(s.workers), TasksOf(s.workers[i := Running(task)]), s.finished, task);
  }

  lemma ActiveCounted(s: State, i: nat)
    requires Inv(s) && i < |s.workers| && IsActive(s.workers[i])
    ensures s.core.active > 0 && !SomeExited(s.workers)
  {
    TallyZero(s.workers, IsActive);
  }

  lemma ReturnInv(s: State, i: nat)
    requires Inv(s) && i < |s.workers| && s.workers[i].Running?
    ensures Inv(SetWorker(s, i, Finish).(finished := s.finished + multiset{s.workers[i].task}))
  {
    ActiveCounted(s, i);
    CountMove(s, i, Finish);
    NoneExited(s, i, Finish);
    ProtocolMove(s, i, Finish, s.core);
    RunningToFinished(Queued(s.core), TasksOf(s.workers), TasksOf(s.workers[i := Finish]), s.finished, s.workers[i].task);
  }

  lemma FinishInv(s: State, i: nat)
    requires Inv(s) && i < |s.workers| && s.workers[i].Finish?
    ensures var k := s.core.(active := s.core.active - 1);
      Inv(SetWorker(s, i, if ShouldExit(k) then Waking else Check).(core := k))
  {
    var k := s.core.(active := s.core.active - 1);
    var w := if ShouldExit(k) then Waking else Check;
    ActiveCounted(s, i);
    CountMove(s, i, w);
    Cancel(TasksOf(s.workers[i := w]), TasksOf(s.workers), TaskOf(w));
    NoneExited(s, i, w);
    ProtocolMove(s, i, w, k);
  }

  lemma ExitInv(s: State, i: nat)
    requires Inv(s) && i < |s.workers| && s.workers[i].Check? && ShouldExit(s.core)
    ensures Inv(SetWorker(s, i, Exited))
  {
    MoveInv(s, i, Exited);
  }

  lemma StaysIn(s: State, i: nat, w: Worker)
    requires Inv(s) && i < |s.workers| && !w.Exited?
    ensures SomeExited(s.workers[i := w]) ==> ShouldExit(s.core)
  {
    if !ShouldExit(s.core) { NoneExited(s, i, w); }
  }

  lemma NoneBlocked(ws: seq<Worker>, i: nat)
    requires i < |ws|
    ensures !SomeBlocked(WakeAll(ws)[i := Check])
  {}

  lemma WakeCommutes(ws: seq<Worker>, i: nat)
    requires i < |ws| && !ws[i].Blocked?
    ensures WakeAll(ws[i := Check]) == WakeAll(ws)[i := Check]
  {}

  lemma WakingInv(s: State, i: nat)
    requires Inv(s) && i < |s.workers| && s.workers[i].Waking?
    ensures Inv(s.(workers := WakeAll(s.workers[i := Check])))
  {
    var s1 := s.(workers := WakeAll(s.workers));
    WakeInv(s, s1);
    StaysIn(s1, i, Check);
    NoneBlocked(s.workers, i);
    MoveInv(s1, i, Check);
    WakeCommutes(s.workers, i);
  }

  lemma WorkInv(s: State, i: nat, start: nat)
    requires Inv(s) && Enabled(s, Work(i, start))
    ensures Inv(WorkStep(s, i, start))
  {
    match s.workers[i]
    case Check =>
      StaysIn(s, i, Blocked);
      if !MayProceed(s.core) { MoveInv(s, i, Blocked); }
      else if ShouldExit(s.core) { ExitInv(s, i); }
      else {
        ChooseFinds(s.core, i, start);
        TakeInv(s, i, Choose(s.core, i, start));
      }
    case Running(_) => ReturnInv(s, i);
    case Finish => FinishInv(s, i);
    case Waking => WakingInv(s, i);
  }

  lemma StepInv(s: State, st: Step)
    requires Inv(s) && Enabled(s, st)
    ensures Inv(Apply(s, st))
  {
    match st
    case Enqueue(_, _, _, _) => EnqueueInv(s, st);
    case NotifyOne(i) =>
      if s.workers[i].Blocked? {
        StaysIn(s, i, Check);
        MoveInv(s, i, Check);
        assert Awake(s.workers[i := Check][i]);
      } else if s.core.pending > 0 {
        assert !s.workers[i].Exited?;
        assert Awake(s.workers[i]);
      }
    case Stop =>
    case StopNotify => WakeInv(s, Apply(s, st));
    case Spurious(i) =>
      StaysIn(s, i, Check);
      MoveInv(s, i, Check);
    case Work(i, start) => WorkInv(s, i, start);
  }

  ghost predicate Reachable(s: State, threads: nat) { exists run :: IsRun(run, threads) && run[|run| - 1] == s }

  lemma {:induction false} RunInv(run: seq<State>, threads: nat)
    requires IsRun(run, threads)
    ensures Inv(run[|run| - 1])
  {
    if |run| == 1 {
      InitialInv(threads);
    } else {
      RunInv(run[..|run| - 1], threads);
      assert Next(run[|run| - 2], run[|run| - 1]);
      var st :| Enabled(run[|run| - 2], st) && run[|run| - 1] == Apply(run[|run| - 2], st);
      StepInv(run[|run| - 2], st);
    }
  }

  lemma ReachableInv(s: State, threads: nat)
    requires Reachable(s, threads)
    ensures Inv(s)
  {
    var run :| IsRun(run, threads) && run[|run| - 1] == s;
    RunInv(run, threads);
  }

  // ---- the promises ----

  /** Whenever tasks are queued, a worker is awake or a notify_one is still under way; whenever the
      pool may shut down, no worker sleeps on without a notify_all under way. */
  lemma NoLostWakeup(s: State, threads: nat)
    requires Reachable(s, threads)
    ensures s.core.pending > 0 ==> SomeAwake(s.workers) || s.ones > 0
    ensures ShouldExit(s.core) && SomeBlocked(s.workers) ==> s.stopAll || SomeWaking(s.workers)
  {
    ReachableInv(s, threads);
  }

  /** The counters say what they are meant to, and a worker that is due to take a task gets one. */
  lemma CountersExact(s: State, threads: nat, i: nat, start: nat)
    requires Reachable(s, threads)
    ensures s.core.pending == |s.core.global| + TotalLength(s.core.locals)
    ensures s.core.active == Tally(s.workers, IsActive)
    ensures |s.core.locals| == |s.workers|
    ensures i < |s.core.locals| && start < |s.core.locals| && s.core.pending > 0 ==>
      SourceOk(s.core, i, Choose(s.core, i, start))
  {
    ReachableInv(s, threads);
    if i < |s.core.locals| && start < |s.core.locals| && s.core.pending > 0 { ChooseFinds(s.core, i, start); }
  }

  lemma {:induction false} NothingIn(locals: seq<seq<nat>>)
    requires TotalLength(locals) == 0
    ensures Union(locals) == multiset{}
  {
    if locals != [] { NothingIn(locals[1..]); }
  }

  lemma {:induction false} NoTasks(ws: seq<Worker>)
    requires Tally(ws, IsActive) == 0
    ensures TasksOf(ws) == multiset{}
  {
    if ws != [] { NoTasks(ws[1..]); }
  }

  /** Every accepted handle is queued, running or finished, once per acceptance. When a worker has
      exited, every accepted handle has finished. */
  lemma TasksConserved(s: State, threads: nat)
    requires Reachable(s, threads)
    ensures s.accepted == Queued(s.core) + TasksOf(s.workers) + s.finished
    ensures SomeExited(s.workers) ==> s.finished == s.accepted
  {
    ReachableInv(s, threads);
    if SomeExited(s.workers) {
      NothingIn(s.core.locals);
      NoTasks(s.workers);
    }
  }

  // ---- what the pool has been asked ----

  /** Whether stop has been called. */
  predicate Stopped(steps: seq<Step>) { steps != [] && (steps[|steps| - 1].Stop? || Stopped(steps[..|steps| - 1])) }

  lemma {:induction false} StoppedIs(steps: seq<Step>)
    ensures Stopped(steps) <==> Stop in steps
  {
    if steps != [] {
      StoppedIs(steps[..|steps| - 1]);
      assert steps == steps[..|steps| - 1] + [steps[|steps| - 1]];
    }
  }

  function OfferedBy(st: Step, stopped: bool): multiset<nat> {
    if st.Enqueue? && st.alive && !stopped then multiset{st.h} else multiset{}
  }

  /** The live handles of the enqueue steps that came before the first stop. */
  ghost function Offered(steps: seq<Step>): multiset<nat> {
    if steps == [] then multiset{}
    else Offered(steps[..|steps| - 1]) + OfferedBy(steps[|steps| - 1], Stopped(steps[..|steps| - 1]))
  }

  lemma StepAccepts(s: State, st: Step)
    requires Enabled(s, st)
    ensures Apply(s, st).core.accepting <==> s.core.accepting && !st.Stop?
    ensures Apply(s, st).accepted == s.accepted + OfferedBy(st, !s.core.accepting)
  {}

  lemma TakesPrefix(run: seq<State>, steps: seq<Step>, threads: nat)
    requires Takes(run, steps, threads) && steps != []
    ensures var n := |steps| - 1;
      && Takes(run[..n + 1], steps[..n], threads) && run[..n + 1][|steps[..n]|] == run[n]
      && Enabled(run[n], steps[n]) && run[|steps|] == Apply(run[n], steps[n])
  {}

  lemma {:induction false} AcceptsSoFar(run: seq<State>, steps: seq<Step>, threads: nat)
    requires Takes(run, steps, threads)
    ensures run[|steps|].accepted == Offered(steps) && (run[|steps|].core.accepting <==> !Stopped(steps))
  {
    if steps != [] {
      var n := |steps| - 1;
      TakesPrefix(run, steps, threads);
      AcceptsSoFar(run[..n + 1], steps[..n], threads);
      StepAccepts(run[n], steps[n]);
    }
  }

  /** In every run the pool accepts exactly the live handles that it is given before the first stop. */
  lemma AcceptsWhatIsOffered(run: seq<State>, steps: seq<Step>, threads: nat)
    requires Takes(run, steps, threads)
    ensures run[|steps|].accepted == Offered(steps) && (run[|steps|].core.accepting <==> Stop !in steps)
  {
    AcceptsSoFar(run, steps, threads);
    StoppedIs(steps);
  }

  // ---- draining ----

  predicate IsRunning(w: Worker) { w.Running? }

  predicate IsWaking(w: Worker) { w.Waking? }

  predicate IsCheck(w: Worker) { w.Check? }

  function InFlight(s: State): nat { s.ones + Tally(s.workers, IsWaking) + if s.stopAll then 1 else 0 }

  /** The lexicographic order on pending, active, running, notifications in flight and awake workers. */
  predicate Closer(s': State, s: State) {
    var r, r' := Tally(s.workers, IsRunning), Tally(s'.workers, IsRunning);
    var c, c' := Tally(s.workers, IsCheck), Tally(s'.workers, IsCheck);
    || s'.core.pending < s.core.pending
    || (s'.core.pending == s.core.pending &&
        (|| s'.core.active < s.core.active
         || (s'.core.active == s.core.active &&
             (|| r' < r
              || (r' == r && (InFlight(s') < InFlight(s) || (InFlight(s') == InFlight(s) && c' < c)))))))
  }

  /** The steps of the pool itself, other than spurious wake-ups. */
  predicate PoolStep(st: Step) { st.Work? || st.NotifyOne? || st.StopNotify? }

  lemma Tallies(s: State, i: nat, w: Worker)
    requires i < |s.workers|
    ensures var ws, ws' := s.workers, s.workers[i := w];
      && Tally(ws', IsRunning) + (if IsRunning(ws[i]) then 1 else 0) == Tally(ws, IsRunning) + (if IsRunning(w) then 1 else 0)
      && Tally(ws', IsWaking) + (if IsWaking(ws[i]) then 1 else 0) == Tally(ws, IsWaking) + (if IsWaking(w) then 1 else 0)
      && Tally(ws', IsCheck) + (if IsCheck(ws[i]) then 1 else 0) == Tally(ws, IsCheck) + (if IsCheck(w) then 1 else 0)
  {
    TallyUpdate(s.workers, IsRunning, i, w);
    TallyUpdate(s.workers, IsWaking, i, w);
    TallyUpdate(s.workers, IsCheck, i, w);
  }

  lemma ProgressTake(s: State, i: nat, start: nat)
    requires Inv(s) && Enabled(s, Work(i, start)) && s.workers[i].Check? && MayProceed(s.core) && !ShouldExit(s.core)
    ensures Closer(WorkStep(s, i, start), s)
  {
    ChooseFinds(s.core, i, start);
  }

  lemma ProgressWork(s: State, i: nat, start: nat)
    requires Inv(s) && Enabled(s, Work(i, start)) && !s.workers[i].Waking?
    ensures Closer(WorkStep(s, i, start), s)
  {
    if s.workers[i].Check? && MayProceed(s.core) && !ShouldExit(s.core) {
      ProgressTake(s, i, start);
    } else {
      Tallies(s, i, WorkStep(s, i, start).workers[i]);
    }
  }

  lemma ProgressWaking(s: State, i: nat, start: nat)
    requires Enabled(s, Work(i, start)) && s.workers[i].Waking?
    ensures Closer(WorkStep(s, i, start), s)
  {
    Tallies(s, i, Check);
    TallyWake(s.workers[i := Check], IsRunning);
    TallyWake(s.workers[i := Check], IsWaking);
  }

  lemma ProgressStopNotify(s: State)
    requires s.stopAll
    ensures Closer(s.(workers := WakeAll(s.workers), stopAll := false), s)
  {
    TallyWake(s.workers, IsRunning);
    TallyWake(s.workers, IsWaking);
  }

  lemma ProgressNotifyOne(s: State, i: nat)
    requires Enabled(s, NotifyOne(i))
    ensures Closer(Apply(s, NotifyOne(i)), s)
  {
    Tallies(s, i, Check);
  }

  /** Whether the pool is open or closed, every step of its own brings it closer to a rest. */
  lemma Progress(s: State, st: Step)
    requires Inv(s) && Enabled(s, st) && PoolStep(st)
    ensures Closer(Apply(s, st), s)
  {
    match st
    case StopNotify => ProgressStopNotify(s);
    case NotifyOne(i) => ProgressNotifyOne(s, i);
    case Work(i, start) =>
      if s.workers[i].Waking? { ProgressWaking(s, i, start); } else { ProgressWork(s, i, start); }
  }

  /** The pool cannot keep taking steps of its own for ever. */
  lemma {:induction false} NoEndlessRun(trace: nat -> State, steps: nat -> Step, i: nat)
    requires Inv(trace(i))
    requires forall j: nat :: j >= i ==>
      Enabled(trace(j), steps(j)) && PoolStep(steps(j)) && trace(j + 1) == Apply(trace(j), steps(j))
    ensures false
    decreases trace(i).core.pending, trace(i).core.active, Tally(trace(i).workers, IsRunning), InFlight(trace(i)),
              Tally(trace(i).workers, IsCheck)
  {
    StepInv(trace(i), steps(i));
    Progress(trace(i), steps(i));
    NoEndlessRun(trace, steps, i + 1);
  }

  lemma AtRest(s: State)
    requires Inv(s) && forall st :: PoolStep(st) ==> !Enabled(s, st)
    ensures forall i :: 0 <= i < |s.workers| ==> s.workers[i].Blocked? || s.workers[i].Exited?
    ensures !s.stopAll && (s.ones == 0 || forall i :: 0 <= i < |s.workers| ==> s.workers[i].Exited?)
  {
    forall i | 0 <= i < |s.workers| ensures !Awake(s.workers[i]) { assert !Enabled(s, Work(i, 0)); }
    assert !Enabled(s, StopNotify);
    forall i | 0 <= i < |s.workers| ensures s.ones == 0 || !s.workers[i].Blocked? { assert !Enabled(s, NotifyOne(i)); }
  }

  /** It stops taking them only when there is nothing left to do: every accepted handle has finished, and the
      workers sleep, or, if the pool is closed, have exited. */
  lemma StuckOnlyWhenDone(s: State, threads: nat)
    requires Reachable(s, threads) && forall st :: PoolStep(st) ==> !Enabled(s, st)
    ensures s.finished == s.accepted
    ensures forall i :: 0 <= i < |s.workers| ==> if s.core.accepting then s.workers[i].Blocked? else s.workers[i].Exited?
  {
    ReachableInv(s, threads);
    AtRest(s);
    assert s.ones > 0 ==> !Enabled(s, NotifyOne(0));
    TallyZero(s.workers, IsActive);
    NothingIn(s.core.locals);
    NoTasks(s.workers);
  }
}
