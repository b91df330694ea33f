/** manual_reset_event as an interleaved step machine: any number of awaiters and of set() calls, each
    atomic load, exchange and compare-exchange and each access to `next_` a step of its own. */
module EventModel {
  /** What `state_`, `old_value` and `next_` can hold: null, an awaiter, or the event's own address. */
  datatype Ptr = Null | Node(a: nat) | Mark

  datatype Pc =
    | Ready                        // await_ready: is_set()
    | Load                         // await_suspend: the initial load
    | Link(seen: Ptr)               // the loop body: compare with the mark, else write next_
    | Cas(seen: Ptr)                // compare_exchange_weak
    | Parked                       // await_suspend returned true
    | Through                      // never suspended
    | Resumed

  datatype Awaiter = Awaiter(pc: Pc, next: Ptr)

  datatype Setter =
    | Exchange
    | Read(cur: Ptr)               // the loop test, and reading next_ of the current node
    | Resume(a: nat, next: Ptr)
    | Finished

  datatype State = State(
    head: Ptr, awaiters: seq<Awaiter>, setters: seq<Setter>,
    fault: bool,                   // a node was read after its coroutine was resumed, or resumed while not parked
    stack: seq<nat>,               // history: awaiters pushed and not yet resumed, newest first
    detached: seq<nat>,            // history: the stack that the first set() took
    order: seq<nat>)               // history: awaiters in the order they were resumed

  const INITIAL := State(Null, [], [], false, [], [], [])

  function SetPc(s: State, a: nat, p: Pc): State
    requires a < |s.awaiters|
  {
    s.(awaiters := s.awaiters[a := s.awaiters[a].(pc := p)])
  }

  datatype Step =
    | NewAwaiter
    | NewSetter
    | Await(a: nat, weak: bool)    // weak: the compare-exchange fails spuriously
    | Set(t: nat)

  predicate Enabled(s: State, st: Step) {
    match st
    case NewAwaiter => true
    case NewSetter => true
    case Await(a, _) =>
      a < |s.awaiters| && !s.awaiters[a].pc.Parked? && !s.awaiters[a].pc.Through? && !s.awaiters[a].pc.Resumed?
    case Set(t) => t < |s.setters| && !s.setters[t].Finished?
  }

  function AwaitStep(s: State, a: nat, weak: bool): State
    requires Enabled(s, Await(a, weak))
  {
    match s.awaiters[a].pc
    case Ready => SetPc(s, a, if s.head == Mark then Through else Load)
    case Load => SetPc(s, a, Link(s.head))
    case Link(seen) =>
      if seen == Mark then SetPc(s, a, Through)
      else s.(awaiters := s.awaiters[a := Awaiter(Cas(seen), seen)])
    case Cas(seen) =>
      if s.head == seen && !weak then SetPc(s, a, Parked).(head := Node(a), stack := [a] + s.stack)
      else SetPc(s, a, Link(s.head))
  }

  function SetStep(s: State, t: nat): State
    requires Enabled(s, Set(t))
  {
    match s.setters[t]
    case Exchange =>
      var s1 := s.(head := Mark);
      if s.head == Mark || s.head == Null then s1.(setters := s.setters[t := Finished])
      else s1.(setters := s.setters[t := Read(s.head)], detached := s.stack)
    case Read(cur) =>
      if cur.Node? && cur.a < |s.awaiters| then
        s.(setters := s.setters[t := Resume(cur.a, s.awaiters[cur.a].next)],
           fault := s.fault || s.awaiters[cur.a].pc.Resumed?)
      else s.(setters := s.setters[t := Finished], fault := s.fault || cur != Null)
    case Resume(a, next) =>
      if a < |s.awaiters| && s.awaiters[a].pc.Parked? then
        SetPc(s, a, Resumed).(setters := s.setters[t := Read(next)], order := s.order + [a],
                              stack := if s.stack == [] then [] else s.stack[1..])
      else s.(setters := s.setters[t := Read(next)], fault := true)
  }

  function Apply(s: State, st: Step): State
    requires Enabled(s, st)
  {
    match st
    case NewAwaiter => s.(awaiters := s.awaiters + [Awaiter(Ready, Null)])
    case NewSetter => s.(setters := s.setters + [Exchange])
    case Await(a, weak) => AwaitStep(s, a, weak)
    case Set(t) => SetStep(s, t)
  }

  ghost predicate Next(s: State, s': State) { exists st :: Enabled(s, st) && s' == Apply(s, st) }

  ghost predicate IsRun(run: seq<State>) {
    && run != []
    && run[0] == INITIAL
    && forall i :: 0 <= i < |run| - 1 ==> Next(run[i], run[i + 1])
  }

  ghost predicate Reachable(s: State) { exists run :: IsRun(run) && run[|run| - 1] == s }
}
