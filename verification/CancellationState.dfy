/** callback_state, cancellation_state and cancellation_registration in place, each method run without
    interference; CancellationModel has the interference. */
module CancellationStates {
  import opened Basics

  class CallbackState {
    var invoked: bool
    ghost var runs: nat            // history: how often callback_() has run

    ghost predicate Valid()
      reads this
    {
      runs == if invoked then 1 else 0
    }

    constructor ()
      ensures Valid() && !invoked
    {
      invoked, runs := false, 0;
    }

    /** The callback runs the first time only. */
    method Invoke()
      requires Valid()
      modifies this
      ensures Valid() && invoked && runs == 1
    {
      var before := invoked;
      invoked := true;
      if !before { runs := runs + 1; }
    }
  }

  lemma {:induction false} EraseAt(list: seq<CallbackState>, cb: CallbackState, i: nat)
    requires i <= |list| && cb !in list[..i] && (i < |list| ==> list[i] == cb)
    ensures Erase<CallbackState>(list, cb) == if i < |list| then list[..i] + list[i + 1..] else list
  {
    if i > 0 {
      assert list[1..][..i - 1] == list[..i][1..];
      assert list[0] == list[..i][0];
      EraseAt(list[1..], cb, i - 1);
      assert i < |list| ==> list[1..][i..] == list[i + 1..];
    }
  }

  /** In a list without duplicates, exactly cb goes. */
  lemma {:induction false} EraseMembers(list: seq<CallbackState>, cb: CallbackState)
    requires forall i, j :: 0 <= i < j < |list| ==> list[i] != list[j]
    ensures var r := Erase<CallbackState>(list, cb);
      && (forall i, j :: 0 <= i < j < |r| ==> r[i] != r[j])
      && (forall i :: 0 <= i < |r| ==> r[i] in list && r[i] != cb)
      && (forall i :: 0 <= i < |list| && list[i] != cb ==> list[i] in r)
  {
    if list != [] {
      var t, s := list[1..], Erase<CallbackState>(list[1..], cb);
      EraseMembers(t, cb);
      assert forall i :: 0 < i < |list| ==> list[i] == t[i - 1];
      if list[0] == cb {
        assert Erase<CallbackState>(list, cb) == t;
        assert forall i :: 0 <= i < |t| ==> t[i] == list[i + 1];
      } else {
        assert Erase<CallbackState>(list, cb) == [list[0]] + s;
        assert list[0] !in s;
      }
    }
  }

  class CancellationState {
    var cancelled: bool
    var callbacks: seq<CallbackState>

    /** No callback in the list has run, and the list stays empty once cancellation is requested. */
    ghost predicate Valid()
      reads this, callbacks
    {
      && (forall i, j :: 0 <= i < j < |callbacks| ==> callbacks[i] != callbacks[j])
      && (forall cb :: cb in callbacks ==> cb.Valid() && !cb.invoked)
      && (cancelled ==> callbacks == [])
    }

    constructor ()
      ensures Valid() && !cancelled && callbacks == []
    {
      cancelled, callbacks := false, [];
    }

    method TryAddCallback(cb: CallbackState) returns (added: bool)
      requires Valid() && cb.Valid() && !cb.invoked && cb !in callbacks
      modifies this`callbacks
      ensures Valid()
      ensures added <==> !cancelled
      ensures callbacks == if added then old(callbacks) + [cb] else []
    {
      if cancelled { return false; }
      callbacks := callbacks + [cb];
      return true;
    }

    method RemoveCallback(cb: CallbackState)
      requires Valid()
      modifies this`callbacks
      ensures Valid() && callbacks == Erase<CallbackState>(old(callbacks), cb)
    {
      EraseMembers(callbacks, cb);
      var i := 0;
      while i < |callbacks|
        invariant 0 <= i <= |callbacks| && callbacks == old(callbacks) && cb !in callbacks[..i]
      {
        if callbacks[i] == cb {
          EraseAt(callbacks, cb, i);
          callbacks := callbacks[..i] + callbacks[i + 1..];
          return;
        }
        i := i + 1;
      }
      EraseAt(callbacks, cb, i);
    }

    /** Only the first request runs callbacks, and it runs each callback of the list once. */
    method RequestCancellation() returns (first: bool)
      requires Valid()
      modifies this, callbacks
      ensures Valid() && cancelled && callbacks == []
      ensures first <==> !old(cancelled)
      ensures forall cb :: cb in old(callbacks) ==> cb.Valid() && cb.runs == 1
    {
      if cancelled { return false; }
      cancelled := true;
      var list := callbacks;
      callbacks := [];
      for i := 0 to |list|
        invariant cancelled && callbacks == []
        invariant forall k :: 0 <= k < |list| ==> list[k].Valid() && (k < i ==> list[k].runs == 1)
      {
        list[i].Invoke();
      }
      return true;
    }
  }

  class CancellationRegistration {
    var state: CancellationState?
    var callback: CallbackState?

    ghost predicate Valid()
      reads this
    {
      state == null <==> callback == null
    }

    /** An empty registration. */
    constructor ()
      ensures Valid() && state == null
    {
      state, callback := null, null;
    }

    /** The constructor that takes a token, whose state is null when it cannot be cancelled: the callback
        is in the list, or else, if cancellation was requested before, has run here. */
    constructor Register(token: CancellationState?, cb: CallbackState)
      requires cb.Valid() && !cb.invoked && (token != null ==> token.Valid() && cb !in token.callbacks)
      modifies token, cb
      ensures Valid() && cb.Valid()
      ensures token == null ==> state == null && cb.runs == 0
      ensures token != null ==> token.Valid() && token.cancelled == old(token.cancelled)
      ensures token != null && !token.cancelled ==>
        state == token && callback == cb && token.callbacks == old(token.callbacks) + [cb] && cb.runs == 0
      ensures token != null && token.cancelled ==> state == null && token.callbacks == [] && cb.runs == 1
    {
      state, callback := null, null;
      new;
      if token != null {
        var added := token.TryAddCallback(cb);
        if added {
          state, callback := token, cb;
        } else {
          cb.Invoke();
        }
      }
    }

    method Deregister()
      requires Valid() && (state != null ==> state.Valid())
      modifies this, state
      ensures Valid() && state == null
      ensures old(state) != null ==>
        && old(state).Valid() && old(state).cancelled == old(state.cancelled)
        && old(state).callbacks == Erase<CallbackState>(old(state.callbacks), old(callback))
    {
      if state != null {
        state.RemoveCallback(callback);
        state, callback := null, null;
      }
    }

    /** Move assignment: this registration's callback is taken out of its list, and this now stands for
        the other's, which stays where it is. Assigning a registration to itself changes nothing. */
    method MoveFrom(other: CancellationRegistration)
      requires Valid() && other.Valid() && (state != null ==> state.Valid())
      modifies this, other, state
      ensures Valid() && other.Valid()
      ensures this == other ==> state == old(state) && callback == old(callback)
      ensures this != other ==> other.state == null && state == old(other.state) && callback == old(other.callback)
      ensures old(state) != null ==>
        && old(state).Valid() && old(state).cancelled == old(state.cancelled)
        && old(state).callbacks ==
           if this == other then old(state.callbacks) else Erase<CallbackState>(old(state.callbacks), old(callback))
    {
      if this != other {
        Deregister();
        state, callback := other.state, other.callback;
        other.state, other.callback := null, null;
      }
    }
  }

  /** After a move assignment the other's callback can still be run by a request, and the assigned-to
      registration's own callback cannot. */
  method MoveKeepsOther(r: CancellationRegistration, other: CancellationRegistration)
    requires r.Valid() && other.Valid() && r != other && r.state != null && r.state == other.state
    requires r.state.Valid() && r.callback != other.callback
    requires r.callback in r.state.callbacks && other.callback in r.state.callbacks
    modifies r, other, r.state
    ensures r.state == old(r.state) && r.callback == old(other.callback)
    ensures old(other.callback) in r.state.callbacks && old(r.callback) !in r.state.callbacks
  {
    EraseMembers(r.state.callbacks, r.callback);
    r.MoveFrom(other);
  }
}
