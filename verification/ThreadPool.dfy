/** thread_pool's state and the operations on it under state_mutex_, as the classes that hold them.
    Each method is tied to the function of ThreadPoolCore that the step machine uses for it. */
module ThreadPool {
  import opened Basics
  import opened ThreadPoolCore

  class WorkStealingQueue {
    var queue: seq<nat>

    constructor ()
      ensures queue == []
    {
      queue := [];
    }

    method PushBottom(handle: nat)
      modifies this
      ensures queue == old(queue) + [handle]
    {
      queue := queue + [handle];
    }

    method TryPopBottom() returns (ok: bool, handle: nat)
      modifies this
      ensures ok <==> old(queue) != []
      ensures if ok then queue + [handle] == old(queue) else queue == old(queue)
    {
      if queue == [] { return false, 0; }
      ok, handle := true, queue[|queue| - 1];
      queue := queue[..|queue| - 1];
    }

    method TryStealTop() returns (ok: bool, handle: nat)
      modifies this
      ensures ok <==> old(queue) != []
      ensures if ok then [handle] + queue == old(queue) else queue == old(queue)
    {
      if queue == [] { return false, 0; }
      ok, handle := true, queue[0];
      queue := queue[1..];
    }
  }

  class Pool {
    var accepting: bool
    var pending: int
    var active: int
    var global: seq<nat>
    const localQueues: seq<WorkStealingQueue>

    ghost predicate Valid() {
      localQueues != [] && forall i, j :: 0 <= i < j < |localQueues| ==> localQueues[i] != localQueues[j]
    }

    /** The value the step machine works on. */
    ghost function Value(): (k: Core)
      reads this, localQueues
      ensures |k.locals| == |localQueues|
    {
      Core(accepting, pending, active, global,
           seq(|localQueues|, i requires 0 <= i < |localQueues| reads this, localQueues => localQueues[i].queue))
    }

    constructor (threadCount: nat)
      ensures Valid() && fresh(localQueues)
      ensures Value() == Core(true, 0, 0, [], Copies(if threadCount == 0 then 1 else threadCount, []))
    {
      accepting, pending, active, global := true, 0, 0, [];
      var n := if threadCount == 0 then 1 else threadCount;
      var qs: seq<WorkStealingQueue> := [];
      for i := 0 to n
        invariant |qs| == i && fresh(qs)
        invariant forall j :: 0 <= j < i ==> qs[j].queue == []
        invariant forall j, l :: 0 <= j < l < i ==> qs[j] != qs[l]
      {
        var q := new WorkStealingQueue();
        qs := qs + [q];
      }
      localQueues := qs;
    }

    method ShouldExitLocked() returns (b: bool)
      ensures b == ShouldExit(Value())
    {
      b := !accepting && pending == 0 && active == 0;
    }

    /** Queue i is as it was. */
    twostate predicate Kept(i: nat)
      requires i < |localQueues|
      reads this, localQueues
    {
      localQueues[i].queue == old(localQueues[i].queue)
    }

    /** enqueue, except for its notify_one. `worker` is current_worker_index(), if not negative. A worker's own
        schedule goes to the bottom of its queue, everything else to the end of the global one. */
    method Enqueue(handle: nat, alive: bool, kind: Kind, worker: Option<nat>) returns (ok: bool)
      requires Valid() && (worker.Some? ==> worker.value < |localQueues|)
      modifies this, localQueues
      ensures Valid()
      ensures ok <==> alive && old(accepting)
      ensures Value() == if ok then Put(old(Value()), handle, kind, worker) else old(Value())
      ensures ok && worker.Some? && kind == Schedule ==>
        && localQueues[worker.value].queue == old(localQueues[worker.value].queue) + [handle]
        && global == old(global) && forall i: nat :: i < |localQueues| && i != worker.value ==> Kept(i)
      ensures ok && !(worker.Some? && kind == Schedule) ==>
        global == old(global) + [handle] && forall i: nat :: i < |localQueues| ==> Kept(i)
      ensures !ok ==> global == old(global) && forall i: nat :: i < |localQueues| ==> Kept(i)
      ensures accepting == old(accepting) && active == old(active) && pending == old(pending) + if ok then 1 else 0
    {
      if !alive || !accepting { return false; }
      if worker.Some? && kind == Schedule {
        localQueues[worker.value].PushBottom(handle);
      } else {
        global := global + [handle];
      }
      pending := pending + 1;
      ok := true;
    }

    /** The first queue that can be stolen from, going round from start, loses its first task. */
    method TryStealLocked(thief: nat, start: nat) returns (ok: bool, task: nat)
      requires Valid() && thief < |localQueues| && start < |localQueues|
      modifies localQueues
      ensures Valid()
      ensures var k, src := old(Value()),
                  if |localQueues| <= 1 then Nowhere
                  else match Scan(old(Value()).locals, thief, start, 0) case Some(v) => Victim(v) case None => Nowhere;
        if SourceOk(k, thief, src) then ok && task == Taken(k, thief, src) && Value() == Without(k, thief, src)
        else !ok && Value() == k
      ensures Stole(old(Value()), thief, start, ok, task, Value())
    {
      var n := |localQueues|;
      ghost var src := if n <= 1 then Nowhere
                       else match Scan(Value().locals, thief, start, 0) case Some(v) => Victim(v) case None => Nowhere;
      StealIsStole(Value(), thief, start, src);
      if n <= 1 { return false, 0; }
      ghost var k := Value();
      for i := 0 to n
        invariant Value() == k
        invariant Scan(k.locals, thief, start, 0) == Scan(k.locals, thief, start, i)
      {
        var victim := (start + i) % n;
        if victim != thief {
          ok, task := localQueues[victim].TryStealTop();
          if ok {
            assert k.locals[victim] == [task] + localQueues[victim].queue;
            assert Value().locals == k.locals[victim := k.locals[victim][1..]];
            return;
          }
          assert Value().locals == k.locals;
        }
      }
      ok, task := false, 0;
    }

    /** Own queue from the end, then the global one from the front, then stealing. */
    method TryTakeTaskLocked(worker: nat, start: nat) returns (ok: bool, task: nat)
      requires Valid() && worker < |localQueues| && start < |localQueues|
      modifies this, localQueues
      ensures Valid()
      ensures var k, src := old(Value()), Choose(old(Value()), worker, start);
        if SourceOk(k, worker, src) then ok && task == Taken(k, worker, src) && Value() == Without(k, worker, src)
        else !ok && Value() == k
      ensures Took(old(Value()), worker, start, ok, task, Value())
    {
      ghost var k := Value();
      ChoiceIsTook(k, worker, start);
      ok, task := localQueues[worker].TryPopBottom();
      if ok {
        assert k.locals[worker] == localQueues[worker].queue + [task];
        assert Value().locals == k.locals[worker := k.locals[worker][..|k.locals[worker]| - 1]];
        return;
      }
      assert Value().locals == k.locals;
      if global != [] {
        ok, task := true, global[0];
        global := global[1..];
        return;
      }
      ok, task := TryStealLocked(worker, start);
    }

    /** The locked part of a worker's turn, from the predicate of its wait to the hand-out of a task. */
    method TakeTurn(worker: nat, start: nat) returns (exit: bool, got: bool, task: nat)
      requires Valid() && worker < |localQueues| && start < |localQueues|
      requires MayProceed(Value())
      modifies this, localQueues
      ensures Valid()
      ensures exit == ShouldExit(old(Value()))
      ensures exit ==> !got && Value() == old(Value())
      ensures var k, src := old(Value()), Choose(old(Value()), worker, start);
        !exit ==> (got <==> SourceOk(k, worker, src))
                  && if got then task == Taken(k, worker, src) && Value() == Moved(Without(k, worker, src))
                     else Value() == k
      ensures exit <==> !old(accepting) && old(pending) == 0 && old(active) == 0
      ensures !exit ==>
        Took(old(Value()), worker, start, got, task,
             if got then Value().(pending := pending + 1, active := active - 1) else Value())
    {
      got, task := false, 0;
      exit := ShouldExitLocked();
      if exit { return; }
      got, task := TryTakeTaskLocked(worker, start);
      if got {
        pending := pending - 1;
        active := active + 1;
      }
    }

    /** The locked part after task.resume() has returned. */
    method FinishTurn() returns (needWakeAll: bool)
      modifies this
      ensures Value() == old(Value()).(active := old(active) - 1)
      ensures needWakeAll == ShouldExit(Value())
      ensures needWakeAll <==> !accepting && pending == 0 && active == 0
    {
      active := active - 1;
      needWakeAll := ShouldExitLocked();
    }

    /** The locked part of stop. */
    method CloseLocked() returns (first: bool)
      modifies this
      ensures Value() == old(Value()).(accepting := false)
      ensures first == old(accepting)
    {
      if !accepting { return false; }
      accepting := false;
      first := true;
    }
  }
}
