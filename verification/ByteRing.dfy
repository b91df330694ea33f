/** Cyclic windows over a block of bytes, and the capacity that doubling reaches. */
module ByteRing {
  import opened Basics

  newtype Byte = x: int | 0 <= x < 256

  /** The cell that lies i cells after start, going round past the end. */
  function At(capacity: nat, start: nat, i: nat): (p: nat)
    requires start < capacity && i <= capacity
    ensures p < capacity
  {
    if start + i < capacity then start + i else start + i - capacity
  }

  lemma AtIsModulo(capacity: nat, start: nat, i: nat)
    requires start < capacity && i <= capacity
    ensures (start + i) % capacity == At(capacity, start, i)
  {
    if start + i >= capacity { ModOnce(start + i, capacity); }
  }

  /** n cells from position start on. */
  function Window(cells: seq<Byte>, start: nat, n: nat): (w: seq<Byte>)
    requires start < |cells| && n <= |cells|
    ensures |w| == n
  {
    seq(n, i requires 0 <= i < n => cells[At(|cells|, start, i)])
  }

  /** A window is one run of cells, or one up to the end and one from the beginning. */
  lemma WindowIsTwoRuns(cells: seq<Byte>, start: nat, n: nat)
    requires start < |cells| && n <= |cells|
    ensures Window(cells, start, n)
         == if start + n <= |cells| then cells[start..start + n] else cells[start..] + cells[..start + n - |cells|]
  {}

  /** A window splits at any point into a window and the window that follows it. */
  lemma WindowSplit(cells: seq<Byte>, start: nat, n: nat, m: nat)
    requires start < |cells| && n + m <= |cells|
    ensures Window(cells, start, n + m) == Window(cells, start, n) + Window(cells, At(|cells|, start, n), m)
  {}

  /** Different offsets into one turn of the ring are different cells. */
  lemma Injective(capacity: nat, start: nat, i: nat, j: nat)
    requires start < capacity && i < capacity && j < capacity && i != j
    ensures At(capacity, start, i) != At(capacity, start, j)
  {}

  function Pow2(k: nat): (p: nat)
    ensures p > 0
  {
    if k == 0 then 1 else 2 * Pow2(k - 1)
  }

  /** What the doubling loop ends with. */
  function Doubled(capacity: nat, required: nat): nat
    requires capacity > 0
    decreases required - capacity
  {
    if capacity < required then Doubled(capacity * 2, required) else capacity
  }

  /** It is the least capacity * 2^k that is enough. */
  lemma {:induction false} DoubledLeast(capacity: nat, required: nat) returns (k: nat)
    requires capacity > 0
    ensures Doubled(capacity, required) == capacity * Pow2(k) >= required
    ensures forall j: nat :: j < k ==> capacity * Pow2(j) < required
    decreases required - capacity
  {
    if capacity < required {
      var k' := DoubledLeast(capacity * 2, required);
      k := k' + 1;
      Twice(capacity, k');
      forall j: nat | j < k ensures capacity * Pow2(j) < required {
        if j > 0 { Twice(capacity, j - 1); }
      }
    } else {
      k := 0;
    }
  }

  lemma Twice(capacity: nat, k: nat)
    ensures capacity * Pow2(k + 1) == capacity * 2 * Pow2(k)
  {
    assert Pow2(k + 1) == 2 * Pow2(k);
  }
}
