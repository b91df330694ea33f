/** What thread_pool keeps under state_mutex_, and the actions on it as functions of its value. */
module ThreadPoolCore {
  import opened Basics

  /** Everything the state mutex guards. Local queue i belongs to worker i. */
  datatype Core = Core(accepting: bool, pending: int, active: int, global: seq<nat>, locals: seq<seq<nat>>)

  datatype Kind = Schedule | Yield

  // ---- the actions as functions ----

  /** should_exit_locked. */
  predicate ShouldExit(k: Core) { !k.accepting && k.pending == 0 && k.active == 0 }

  /** The predicate of the workers' wait. */
  predicate MayProceed(k: Core) { k.pending != 0 || ShouldExit(k) }

  /** The locked part of enqueue while the pool accepts. `worker` is the calling pool thread, if any. */
  function Put(k: Core, h: nat, kind: Kind, worker: Option<nat>): Core
    requires worker.Some? ==> worker.value < |k.locals|
  {
    if worker.Some? && kind == Schedule then
      k.(locals := k.locals[worker.value := k.locals[worker.value] + [h]], pending := k.pending + 1)
    else k.(global := k.global + [h], pending := k.pending + 1)
  }

  /** The victim that try_steal_locked settles on, scanning `(start + i) % n` from step i on. */
  function Scan(locals: seq<seq<nat>>, thief: nat, start: nat, i: nat): Option<nat>
    requires |locals| > 0
    decreases |locals| - i
  {
    if i >= |locals| then None
    else
      var victim := (start + i) % |locals|;
      if victim != thief && locals[victim] != [] then Some(victim) else Scan(locals, thief, start, i + 1)
  }

  /** Where try_take_task_locked takes a task from: the own queue's bottom, the global front, or the
      top of a victim's queue. */
  datatype Source = Own | Global | Victim(v: nat) | Nowhere

  function Choose(k: Core, w: nat, start: nat): Source
    requires w < |k.locals|
  {
    if k.locals[w] != [] then Own
    else if k.global != [] then Global
    else if |k.locals| <= 1 then Nowhere
    else match Scan(k.locals, w, start, 0) case Some(v) => Victim(v) case None => Nowhere
  }

  predicate SourceOk(k: Core, w: nat, src: Source) {
    match src
    case Own => w < |k.locals| && k.locals[w] != []
    case Global => k.global != []
    case Victim(v) => v < |k.locals| && v != w && k.locals[v] != []
    case Nowhere => false
  }

  function Taken(k: Core, w: nat, src: Source): nat
    requires SourceOk(k, w, src)
  {
    match src
    case Own => k.locals[w][|k.locals[w]| - 1]
    case Global => k.global[0]
    case Victim(v) => k.locals[v][0]
  }

  /** The queues once the task is out of them. */
  function Without(k: Core, w: nat, src: Source): Core
    requires SourceOk(k, w, src)
  {
    match src
    case Own => k.(locals := k.locals[w := k.locals[w][..|k.locals[w]| - 1]])
    case Global => k.(global := k.global[1..])
    case Victim(v) => k.(locals := k.locals[v := k.locals[v][1..]])
  }

  /** A task goes from queued to active. */
  function Moved(k: Core): Core { k.(pending := k.pending - 1, active := k.active + 1) }

  // ---- the queues as one collection ----

  function Copies<T>(n: nat, x: T): (r: seq<T>)
    ensures |r| == n && forall i :: 0 <= i < n ==> r[i] == x
  {
    if n == 0 then [] else [x] + Copies(n - 1, x)
  }

  function TotalLength(locals: seq<seq<nat>>): nat {
    if locals == [] then 0 else |locals[0]| + TotalLength(locals[1..])
  }

  ghost function Bag(q: seq<nat>): multiset<nat> { multiset(q) }

  ghost function Union(locals: seq<seq<nat>>): multiset<nat> {
    if locals == [] then multiset{} else Bag(locals[0]) + Union(locals[1..])
  }

  ghost function Queued(k: Core): multiset<nat> { Bag(k.global) + Union(k.locals) }

  /** pending_tasks_ counts exactly the queued handles. */
  ghost predicate CountOk(k: Core) { k.pending == |k.global| + TotalLength(k.locals) }

  lemma {:induction false} TotalLengthUpdate(locals: seq<seq<nat>>, i: nat, q: seq<nat>)
    requires i < |locals|
    ensures TotalLength(locals[i := q]) == TotalLength(locals) - |locals[i]| + |q|
  {
    if i > 0 {
      assert locals[i := q][1..] == locals[1..][i - 1 := q];
      TotalLengthUpdate(locals[1..], i - 1, q);
    }
  }

  lemma Regroup(h: multiset<nat>, t': multiset<nat>, o: multiset<nat>, t: multiset<nat>, n: multiset<nat>)
    requires t' + o == t + n
    ensures (h + t') + o == (h + t) + n
  {
    assert (h + t') + o == h + (t' + o);
    assert (h + t) + n == h + (t + n);
  }

  lemma Swap(a: multiset<nat>, b: multiset<nat>, t: multiset<nat>)
    ensures (a + t) + b == (b + t) + a
  {}

  lemma {:induction false} UnionUpdate(locals: seq<seq<nat>>, i: nat, q: seq<nat>)
    requires i < |locals|
    ensures Union(locals[i := q]) + Bag(locals[i]) == Union(locals) + Bag(q)
  {
    if i > 0 {
      assert locals[i := q][1..] == locals[1..][i - 1 := q];
      UnionUpdate(locals[1..], i - 1, q);
      Regroup(Bag(locals[0]), Union(locals[1..][i - 1 := q]), Bag(locals[i]), Union(locals[1..]), Bag(q));
    } else {
      assert locals[i := q][1..] == locals[1..];
      Swap(Bag(q), Bag(locals[0]), Union(locals[1..]));
    }
  }

  lemma {:induction false} SomeQueueHolds(locals: seq<seq<nat>>)
    requires TotalLength(locals) > 0
    ensures exists v :: 0 <= v < |locals| && locals[v] != []
  {
    if locals[0] != [] {
      assert 0 < |locals| && locals[0] != [];
    } else {
      SomeQueueHolds(locals[1..]);
      var v :| 0 <= v < |locals[1..]| && locals[1..][v] != [];
      assert locals[v + 1] != [];
    }
  }

  lemma Cancel(a: multiset<nat>, b: multiset<nat>, c: multiset<nat>)
    requires a + c == b + c
    ensures a == b
  {
    assert forall x: nat :: a[x] + c[x] == (a + c)[x] == (b + c)[x] == b[x] + c[x];
  }

  /** Queue i gains or loses the one handle h. */
  lemma OneHandle(locals: seq<seq<nat>>, i: nat, q: seq<nat>, h: nat)
    requires i < |locals|
    ensures Bag(q) == Bag(locals[i]) + multiset{h} ==> Union(locals[i := q]) == Union(locals) + multiset{h}
    ensures Bag(locals[i]) == Bag(q) + multiset{h} ==> Union(locals) == Union(locals[i := q]) + multiset{h}
  {
    UnionUpdate(locals, i, q);
    var a, b, o, n := Union(locals[i := q]), Union(locals), Bag(locals[i]), Bag(q);
    if n == o + multiset{h} {
      assert a + o == (b + multiset{h}) + o;
      Cancel(a, b + multiset{h}, o);
    }
    if o == n + multiset{h} {
      assert (a + multiset{h}) + n == b + n;
      Cancel(b, a + multiset{h}, n);
    }
  }

  /** What a put and a take do to the collection and to the count. */
  lemma PutQueues(k: Core, h: nat, kind: Kind, worker: Option<nat>)
    requires worker.Some? ==> worker.value < |k.locals|
    ensures Queued(Put(k, h, kind, worker)) == Queued(k) + multiset{h}
    ensures CountOk(k) ==> CountOk(Put(k, h, kind, worker))
  {
    if worker.Some? && kind == Schedule {
      var q := k.locals[worker.value];
      TotalLengthUpdate(k.locals, worker.value, q + [h]);
      OneHandle(k.locals, worker.value, q + [h], h);
    }
  }

  lemma TakeLocal(k: Core, v: nat, q: seq<nat>, h: nat)
    requires v < |k.locals| && Bag(k.locals[v]) == Bag(q) + multiset{h} && |k.locals[v]| == |q| + 1
    ensures var k' := k.(locals := k.locals[v := q]);
      && Queued(k) == Queued(k') + multiset{h}
      && TotalLength(k.locals) == TotalLength(k'.locals) + 1
  {
    TotalLengthUpdate(k.locals, v, q);
    OneHandle(k.locals, v, q, h);
  }

  lemma BagOfEnds(q: seq<nat>)
    requires q != []
    ensures Bag(q) == Bag(q[..|q| - 1]) + multiset{q[|q| - 1]}
    ensures Bag(q) == Bag(q[1..]) + multiset{q[0]}
  {
    assert q == q[..|q| - 1] + [q[|q| - 1]];
    assert q == [q[0]] + q[1..];
  }

  lemma TakeQueues(k: Core, w: nat, src: Source)
    requires SourceOk(k, w, src)
    ensures Queued(k) == Queued(Without(k, w, src)) + multiset{Taken(k, w, src)}
    ensures CountOk(k) ==> k.pending > 0 && CountOk(Without(k, w, src).(pending := k.pending - 1))
  {
    match src
    case Own =>
      var q := k.locals[w];
      BagOfEnds(q);
      TakeLocal(k, w, q[..|q| - 1], q[|q| - 1]);
    case Global => BagOfEnds(k.global);
    case Victim(v) =>
      var q := k.locals[v];
      BagOfEnds(q);
      TakeLocal(k, v, q[1..], q[0]);
  }

  // ---- the scan reaches every other worker ----

  /** The step of the scan at which victim v comes up. */
  lemma ScanStepOf(n: nat, start: nat, v: nat) returns (i: nat)
    requires start < n && v < n
    ensures i < n && (start + i) % n == v
  {
    i := if v >= start then v - start else v + n - start;
    if v < start { ModOnce(start + i, n); }
  }

  /** The scan stops at a queue that is not the thief's and not empty. */
  lemma {:induction false} ScanSound(locals: seq<seq<nat>>, thief: nat, start: nat, i: nat)
    requires |locals| > 0
    ensures var r := Scan(locals, thief, start, i); r.Some? ==> r.value < |locals| && r.value != thief && locals[r.value] != []
    decreases |locals| - i
  {
    if i < |locals| { ScanSound(locals, thief, start, i + 1); }
  }

  lemma {:induction false} ScanComplete(locals: seq<seq<nat>>, thief: nat, start: nat, i: nat, j: nat)
    requires i <= j < |locals|
    requires (start + j) % |locals| != thief && locals[(start + j) % |locals|] != []
    ensures Scan(locals, thief, start, i).Some?
    decreases j - i
  {
    if i < j { ScanComplete(locals, thief, start, i + 1, j); }
  }

  /** Whatever the random start, a worker finds a task whenever one is queued anywhere, so the defensive
      branch for a failed take is never taken. */
  lemma ChooseFinds(k: Core, w: nat, start: nat)
    requires w < |k.locals| && start < |k.locals| && CountOk(k) && k.pending > 0
    ensures SourceOk(k, w, Choose(k, w, start))
  {
    if k.locals[w] == [] && k.global == [] {
      SomeQueueHolds(k.locals);
      var v :| 0 <= v < |k.locals| && k.locals[v] != [];
      var j := ScanStepOf(|k.locals|, start, v);
      ScanComplete(k.locals, w, start, 0, j);
      ScanSound(k.locals, w, start, 0);
    }
  }

  // ---- which task a worker gets ----

  predicate Stealable(locals: seq<seq<nat>>, thief: nat, v: nat) { v < |locals| && v != thief && locals[v] != [] }

  /** At step j of the scan nothing can be stolen: the thief's own queue comes up, or an empty one. */
  predicate NothingAt(locals: seq<seq<nat>>, thief: nat, start: nat, j: nat)
    requires locals != []
  {
    !Stealable(locals, thief, (start + j) % |locals|)
  }

  ghost predicate NothingBefore(locals: seq<seq<nat>>, thief: nat, start: nat, i: nat)
    requires locals != []
  {
    forall j: nat :: j < i ==> NothingAt(locals, thief, start, j)
  }

  /** v comes up at step i of the scan, and is the first queue to steal from in the order start, start + 1, ...,
      going round. */
  ghost predicate VictimAt(locals: seq<seq<nat>>, thief: nat, start: nat, i: nat, v: nat) {
    && Stealable(locals, thief, v) && i < |locals| && v == (start + i) % |locals|
    && NothingBefore(locals, thief, start, i)
  }

  /** The scan settles on the first victim, and on none iff all other queues are empty. */
  lemma {:induction false} ScanIsFirst(locals: seq<seq<nat>>, thief: nat, start: nat, i: nat) returns (at: nat)
    requires locals != [] && i <= |locals| && NothingBefore(locals, thief, start, i)
    ensures var r := Scan(locals, thief, start, i);
      if r.Some? then VictimAt(locals, thief, start, at, r.value) else NothingBefore(locals, thief, start, |locals|)
    decreases |locals| - i
  {
    at := i;
    if i < |locals| && !Stealable(locals, thief, (start + i) % |locals|) {
      assert NothingAt(locals, thief, start, i);
      at := ScanIsFirst(locals, thief, start, i + 1);
    }
  }

  lemma NothingToSteal(locals: seq<seq<nat>>, thief: nat, start: nat, v: nat)
    requires start < |locals| && NothingBefore(locals, thief, start, |locals|) && v < |locals| && v != thief
    ensures locals[v] == []
  {
    var i := ScanStepOf(|locals|, start, v);
    assert NothingAt(locals, thief, start, i);
  }

  /** Of queue v the first task has been taken, and nothing else has changed. */
  predicate TookFirst(k: Core, v: nat, task: nat, k': Core) {
    v < |k.locals| && k.locals[v] != [] && task == k.locals[v][0] && k' == k.(locals := k.locals[v := k.locals[v][1..]])
  }

  /** What stealing does. */
  ghost predicate Stole(k: Core, thief: nat, start: nat, ok: bool, task: nat, k': Core) {
    if ok then exists i, v :: VictimAt(k.locals, thief, start, i, v) && TookFirst(k, v, task, k')
    else k' == k && forall v :: 0 <= v < |k.locals| && v != thief ==> k.locals[v] == []
  }

  /** What a worker that looks for a task gets: the last of its own queue; if that is empty, the first of the
      global queue; if that is empty too, what it can steal. */
  ghost predicate Took(k: Core, w: nat, start: nat, ok: bool, task: nat, k': Core)
    requires w < |k.locals|
  {
    if k.locals[w] != [] then
      var q := k.locals[w];
      ok && task == q[|q| - 1] && k' == k.(locals := k.locals[w := q[..|q| - 1]])
    else if k.global != [] then ok && task == k.global[0] && k' == k.(global := k.global[1..])
    else Stole(k, w, start, ok, task, k')
  }

  lemma StealIsStole(k: Core, thief: nat, start: nat, src: Source)
    requires thief < |k.locals| && start < |k.locals|
    requires src == if |k.locals| <= 1 then Nowhere
                    else match Scan(k.locals, thief, start, 0) case Some(v) => Victim(v) case None => Nowhere
    ensures if SourceOk(k, thief, src) then Stole(k, thief, start, true, Taken(k, thief, src), Without(k, thief, src))
            else Stole(k, thief, start, false, 0, k)
  {
    if |k.locals| > 1 {
      var i := ScanIsFirst(k.locals, thief, start, 0);
      if src.Victim? {
        assert TookFirst(k, src.v, Taken(k, thief, src), Without(k, thief, src));
      } else {
        forall v | 0 <= v < |k.locals| && v != thief ensures k.locals[v] == [] { NothingToSteal(k.locals, thief, start, v); }
      }
    }
  }

  /** So does the choice that the step machine makes. */
  lemma ChoiceIsTook(k: Core, w: nat, start: nat)
    requires w < |k.locals| && start < |k.locals|
    ensures var src := Choose(k, w, start);
      if SourceOk(k, w, src) then Took(k, w, start, true, Taken(k, w, src), Without(k, w, src))
      else Took(k, w, start, false, 0, k)
  {
    if k.locals[w] == [] && k.global == [] { StealIsStole(k, w, start, Choose(k, w, start)); }
  }
}
