/** manual_reset_event in place: the linked list of awaiters behind `state_`. EventModel has the
    interleavings; here each method runs by itself, but the compare-exchange may fail spuriously and a
    resumed coroutine may destroy or reuse its awaiter. */
module ManualResetEvents {
  class Awaiter {
    var next: Awaiter?
    const handle: nat

    constructor (h: nat)
      ensures handle == h
    {
      handle, next := h, null;
    }
  }

  /** What `state_` can hold: null, the newest awaiter, or the address of the event itself. */
  datatype Ptr = Null | Node(awaiter: Awaiter) | Self

  function AsAwaiter(p: Ptr): Awaiter?
    requires p != Self
  {
    if p.Null? then null else p.awaiter
  }

  /** Following next from p visits the nodes of l in order and ends at null. */
  ghost predicate Chain(p: Awaiter?, l: seq<Awaiter>)
    reads l
    decreases l
  {
    if l == [] then p == null else p == l[0] && Chain(l[0].next, l[1..])
  }

  function Handles(l: seq<Awaiter>): (h: seq<nat>)
    ensures |h| == |l| && forall i :: 0 <= i < |l| ==> h[i] == l[i].handle
  {
    if l == [] then [] else Handles(l[..|l| - 1]) + [l[|l| - 1].handle]
  }

  class ManualResetEvent {
    var state: Ptr
    ghost var waiting: seq<Awaiter>

    ghost predicate Valid()
      reads this, waiting
    {
      && (forall i, j :: 0 <= i < j < |waiting| ==> waiting[i] != waiting[j])
      && if IsSet() then waiting == [] else Chain(AsAwaiter(state), waiting)
    }

    constructor ()
      ensures Valid() && waiting == [] && !IsSet()
    {
      state, waiting := Null, [];
    }

    predicate IsSet()
      reads this
    {
      state == Self
    }

    /** False when the event is set; else the awaiter is the new head of the list, however often the
        compare-exchange failed. */
    method AwaitSuspend(a: Awaiter, spuriousFailures: nat) returns (suspended: bool)
      requires Valid() && a !in waiting
      modifies this, a
      ensures Valid()
      ensures suspended <==> !old(IsSet())
      ensures IsSet() == old(IsSet())
      ensures waiting == if suspended then [a] + old(waiting) else []
    {
      var oldValue := state;
      var failures := spuriousFailures;
      while true
        invariant state == old(state) == oldValue && waiting == old(waiting) && Valid()
        decreases failures
      {
        if oldValue == Self { return false; }
        a.next := AsAwaiter(oldValue);
        if failures == 0 {
          state := Node(a);
          waiting := [a] + waiting;
          assert waiting[1..] == old(waiting);
          return true;
        }
        failures := failures - 1;
        oldValue := state;
      }
    }

    /** The coroutines are resumed newest first, each once; no awaiter is read after its coroutine was
        resumed: each is overwritten arbitrarily at that point. */
    method Set() returns (order: seq<nat>)
      requires Valid()
      modifies this, waiting
      ensures Valid() && IsSet()
      ensures order == Handles(old(waiting))
    {
      ghost var list := waiting;
      var oldValue := state;
      state := Self;
      waiting := [];
      order := [];
      if oldValue != Self && oldValue != Null {
        var waiters := AsAwaiter(oldValue);
        ghost var i := 0;
        while waiters != null
          invariant 0 <= i <= |list| && Chain(waiters, list[i..])
          invariant order == Handles(list[..i])
          invariant state == Self && waiting == []
          decreases |list| - i
        {
          assert waiters == list[i] && list[i..][1..] == list[i + 1..];
          var next := waiters.next;
          order := order + [waiters.handle];
          waiters.next := *;
          waiters := next;
          assert list[..i + 1][..i] == list[..i];
          i := i + 1;
        }
        assert list[..i] == list;
      }
    }
  }
}
