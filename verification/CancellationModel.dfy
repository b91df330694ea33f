/** cancellation_state with its registrations, as an interleaved step machine: any number of
    callbacks, each with the thread that registers and deregisters it, and any number of
    request_cancellation calls. The internal lock stays held across steps only between the second test
    of `cancelled_` in try_add_callback and the push: `cancelled_` can be set in between. */
module CancellationModel {
  import opened Basics

  /** Where the registration of a callback is. */
  datatype Reg =
    | Start                        // try_add_callback: the test before locking
    | Locking                      // about to lock and test again
    | Pushing                      // holds the lock, about to push
    | Added                        // the registration holds state and callback
    | Refused                      // register_callback calls invoke itself
    | InlineCall                   // inside callback_(), called by the registrar
    | RanInline                    // register_callback returned after running the callback
    | Deregistered

  datatype Callback = Callback(
    reg: Reg, invoked: bool,
    runs: nat,                     // history: how often callback_() has been run to its end
    erased: bool)                  // history: remove_callback found it in the list

  /** A request_cancellation call. */
  datatype Request =
    | Cas
    | Swap
    | Invoke(todo: seq<nat>)
    | Calling(cb: nat, todo: seq<nat>)   // inside callback_()
    | Returned(first: bool)

  datatype State = State(
    cancelled: bool, lock: Option<nat>, list: seq<nat>,
    callbacks: seq<Callback>, requests: seq<Request>,
    swapped: bool,                 // history: the winning request has taken the list
    taken: seq<nat>)               // history: what it took

  const INITIAL := State(false, None, [], [], [], false, [])

  function SetCb(s: State, c: nat, x: Callback): State
    requires c < |s.callbacks|
  {
    s.(callbacks := s.callbacks[c := x])
  }

  function SetReq(s: State, r: nat, q: Request): State
    requires r < |s.requests|
  {
    s.(requests := s.requests[r := q])
  }

  datatype Step =
    | NewCallback
    | NewRequest
    | Register(c: nat)
    | Deregister(c: nat)
    | Request(r: nat)

  predicate Enabled(s: State, st: Step) {
    match st
    case NewCallback => true
    case NewRequest => true
    case Register(c) =>
      && c < |s.callbacks|
      && (match s.callbacks[c].reg
          case Start => true
          case Locking => s.lock.None?
          case Pushing => true
          case Refused => true
          case InlineCall => true
          case _ => false)
    case Deregister(c) => c < |s.callbacks| && s.callbacks[c].reg.Added? && s.lock.None?
    case Request(r) =>
      && r < |s.requests|
      && (match s.requests[r]
         case Cas => true
         case Swap => s.lock.None?
         case Invoke(todo) => todo != [] ==> todo[0] < |s.callbacks|
         case Calling(c, _) => c < |s.callbacks|
         case Returned(_) => false)
  }

  function RegisterStep(s: State, c: nat): State
    requires Enabled(s, Register(c))
  {
    var x := s.callbacks[c];
    match x.reg
    case Start => SetCb(s, c, x.(reg := if s.cancelled then Refused else Locking))
    case Locking =>
      if s.cancelled then SetCb(s, c, x.(reg := Refused)) else SetCb(s, c, x.(reg := Pushing)).(lock := Some(c))
    case Pushing => SetCb(s, c, x.(reg := Added)).(list := s.list + [c], lock := None)
    case Refused => SetCb(s, c, if x.invoked then x.(reg := RanInline) else x.(reg := InlineCall, invoked := true))
    case InlineCall => SetCb(s, c, x.(reg := RanInline, runs := x.runs + 1))
  }

  function RequestStep(s: State, r: nat): State
    requires Enabled(s, Request(r))
  {
    match s.requests[r]
    case Cas => if s.cancelled then SetReq(s, r, Returned(false)) else SetReq(s, r, Swap).(cancelled := true)
    case Swap => SetReq(s, r, Invoke(s.list)).(list := [], swapped := true, taken := s.list)
    case Invoke(todo) =>
      if todo == [] then SetReq(s, r, Returned(true))
      else if s.callbacks[todo[0]].invoked then SetReq(s, r, Invoke(todo[1..]))
      else SetReq(SetCb(s, todo[0], s.callbacks[todo[0]].(invoked := true)), r, Calling(todo[0], todo[1..]))
    case Calling(c, todo) =>
      SetReq(SetCb(s, c, s.callbacks[c].(runs := s.callbacks[c].runs + 1)), r, Invoke(todo))
  }

  function Apply(s: State, st: Step): State
    requires Enabled(s, st)
  {
    match st
    case NewCallback => s.(callbacks := s.callbacks + [Callback(Start, false, 0, false)])
    case NewRequest => s.(requests := s.requests + [Cas])
    case Register(c) => RegisterStep(s, c)
    case Deregister(c) =>
      SetCb(s, c, s.callbacks[c].(reg := Deregistered, erased := c in s.list)).(list := Erase(s.list, c))
    case Request(r) => RequestStep(s, r)
  }

  ghost predicate Next(s: State, s': State) { exists st :: Enabled(s, st) && s' == Apply(s, st) }

  ghost predicate IsRun(run: seq<State>) {
    && run != []
    && run[0] == INITIAL
    && forall i :: 0 <= i < |run| - 1 ==> Next(run[i], run[i + 1])
  }

  ghost predicate Reachable(s: State) { exists run :: IsRun(run) && run[|run| - 1] == s }
}
