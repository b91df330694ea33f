/** thread_pool as an interleaved step machine: any positive number of workers, any enqueuers.

    A region under state_mutex_ is one step. A worker that waits on the condition variable is
    `Blocked`; notifications are sent outside the mutex, so each is a pending delivery of its own:
    `ones` from enqueue, `stopAll` from stop, and a worker in `Waking`. Spurious wake-ups may happen at
    any time. A resumed task may enqueue handles, and eventually returns. `accepted` and `finished` are
    history: no step reads them. */
module ThreadPoolModel {
  import opened Basics
  import opened ThreadPoolCore

  datatype Worker =
    | Check                        // awake, about to lock and test the predicate
    | Blocked                      // inside cv_.wait
    | Running(task: nat)           // inside task.resume()
    | Finish                       // the task returned; about to lock and decrement active_workers_
    | Waking                       // about to notify_all
    | Exited

  datatype State = State(
    core: Core, workers: seq<Worker>,
    ones: nat,                     // notify_one calls under way
    stopAll: bool,                 // stop() is about to notify_all
    accepted: multiset<nat>,       // history: handles enqueue has accepted
    finished: multiset<nat>)       // history: handles whose resume has returned

  function Initial(threads: nat): State {
    var n := if threads == 0 then 1 else threads;
    State(Core(true, 0, 0, [], Copies(n, [])), Copies(n, Check), 0, false, multiset{}, multiset{})
  }

  function SetWorker(s: State, i: nat, w: Worker): State
    requires i < |s.workers|
  {
    s.(workers := s.workers[i := w])
  }

  /** notify_all: every blocked worker gets to test the predicate again. */
  function WakeAll(ws: seq<Worker>): (r: seq<Worker>)
    ensures |r| == |ws| && forall i :: 0 <= i < |ws| ==> r[i] == if ws[i].Blocked? then Check else ws[i]
  {
    if ws == [] then [] else [if ws[0].Blocked? then Check else ws[0]] + WakeAll(ws[1..])
  }

  datatype Step =
    | Enqueue(h: nat, alive: bool, kind: Kind, worker: Option<nat>)   // alive: neither null nor done
    | NotifyOne(i: nat)            // a notify_one is delivered, to worker i if anyone is blocked
    | Stop
    | StopNotify
    | Spurious(i: nat)
    | Work(i: nat, start: nat)     // worker i's next step; start is the random start of its scan

  predicate Enabled(s: State, st: Step) {
    match st
    case Enqueue(_, _, _, worker) =>
      worker.Some? ==> worker.value < |s.workers| && worker.value < |s.core.locals| && s.workers[worker.value].Running?
    case NotifyOne(i) =>
      && s.ones > 0 && i < |s.workers|
      && (s.workers[i].Blocked? || forall j :: 0 <= j < |s.workers| ==> !s.workers[j].Blocked?)
    case Stop => true
    case StopNotify => s.stopAll
    case Spurious(i) => i < |s.workers| && s.workers[i].Blocked?
    case Work(i, start) =>
      && i < |s.workers| && i < |s.core.locals| && start < |s.core.locals|
      && !s.workers[i].Blocked? && !s.workers[i].Exited?
  }

  function WorkStep(s: State, i: nat, start: nat): State
    requires Enabled(s, Work(i, start))
  {
    match s.workers[i]
    case Check =>
      if !MayProceed(s.core) then SetWorker(s, i, Blocked)
      else if ShouldExit(s.core) then SetWorker(s, i, Exited)
      else
        var src := Choose(s.core, i, start);
        if !SourceOk(s.core, i, src) then s   // the defensive branch: got_task is false
        else
          var k := Without(s.core, i, src);
          SetWorker(s, i, Running(Taken(s.core, i, src)))
            .(core := Moved(k))
    case Running(task) => SetWorker(s, i, Finish).(finished := s.finished + multiset{task})
    case Finish =>
      var k := s.core.(active := s.core.active - 1);
      SetWorker(s, i, if ShouldExit(k) then Waking else Check).(core := k)
    case Waking => SetWorker(s, i, Check).(workers := WakeAll(s.workers[i := Check]))
  }

  function Apply(s: State, st: Step): State
    requires Enabled(s, st)
  {
    match st
    case Enqueue(h, alive, kind, worker) =>
      if !alive || !s.core.accepting then s   // await_suspend returns false: the caller goes on inline
      else s.(core := Put(s.core, h, kind, worker), ones := s.ones + 1, accepted := s.accepted + multiset{h})
    case NotifyOne(i) =>
      (if s.workers[i].Blocked? then SetWorker(s, i, Check) else s).(ones := s.ones - 1)
    case Stop =>
      if !s.core.accepting then s else s.(core := s.core.(accepting := false), stopAll := true)
    case StopNotify => s.(workers := WakeAll(s.workers), stopAll := false)
    case Spurious(i) => SetWorker(s, i, Check)
    case Work(i, start) => WorkStep(s, i, start)
  }

  ghost predicate Next(s: State, s': State) { exists st :: Enabled(s, st) && s' == Apply(s, st) }

  ghost predicate IsRun(run: seq<State>, threads: nat) {
    && run != []
    && run[0] == Initial(threads)
    && forall i :: 0 <= i < |run| - 1 ==> Next(run[i], run[i + 1])
  }

  /** A run with the steps that were taken. */
  ghost predicate Takes(run: seq<State>, steps: seq<Step>, threads: nat) {
    && |run| == |steps| + 1
    && run[0] == Initial(threads)
    && forall i :: 0 <= i < |steps| ==> Enabled(run[i], steps[i]) && run[i + 1] == Apply(run[i], steps[i])
  }
}
