/** byte_buffer: a growing ring of bytes in an array. Spans are runs of cells of the array. */
module ByteBuffers {
  import opened ByteRing

  const SIZE_MAX: nat := 0xFFFF_FFFF_FFFF_FFFF

  datatype Region = Region(start: nat, length: nat)

  const EMPTY := Region(0, 0)

  predicate Inside(r: Region, capacity: nat) { r.start + r.length <= capacity }

  function Cells(cells: seq<Byte>, r: Region): seq<Byte>
    requires Inside(r, |cells|)
  {
    cells[r.start..r.start + r.length]
  }

  /** The cell that the i-th byte of a pair of regions falls on. */
  function Cell(rs: (Region, Region), i: nat): nat {
    if i < rs.0.length then rs.0.start + i else rs.1.start + (i - rs.0.length)
  }

  /** rs are regions for n bytes; from the done-th on, they are the cells that follow a content of `size`
      bytes from cell `start` on, in order. */
  ghost predicate Tracks(capacity: nat, start: nat, size: nat, rs: (Region, Region), done: nat, n: nat) {
    && start < capacity && size <= capacity
    && done <= n && n - done <= capacity - size
    && rs.0.length + rs.1.length == n
    && Inside(rs.0, capacity) && Inside(rs.1, capacity)
    && forall i :: done <= i < n ==> Cell(rs, i) == At(capacity, start, size + (i - done))
  }

  /** The cells after the contents are one run, or one up to the end and one from the beginning. */
  lemma FreeCells(capacity: nat, start: nat, size: nat, n: nat, rs: (Region, Region))
    requires start < capacity && size <= capacity && n <= capacity - size
    requires var tail := At(capacity, start, size);
      if tail < start then rs == (Region(tail, n), EMPTY)
      else
        var first := if n < capacity - tail then n else capacity - tail;
        rs == (Region(tail, first), Region(0, n - first))
    ensures Tracks(capacity, start, size, rs, 0, n)
  {}

  class ByteBuffer {
    var storage: array<Byte>
    var readIndex: nat
    var size: nat

    ghost predicate Valid()
      reads this
    {
      readIndex < storage.Length && size <= storage.Length && (size == 0 ==> readIndex == 0)
    }

    /** The byte sequence that the buffer stands for. */
    ghost function Contents(): (c: seq<Byte>)
      requires Valid()
      reads this, storage
      ensures |c| == size
    {
      Window(storage[..], readIndex, size)
    }

    /** The n cells that follow the contents, in the order in which they will be committed. */
    ghost function Next(n: nat): (c: seq<Byte>)
      requires Valid() && n <= storage.Length
      reads this, storage
      ensures |c| == n
    {
      Window(storage[..], At(storage.Length, readIndex, size), n)
    }

    /** rs are the first n cells after the contents, in order. */
    ghost predicate Follows(rs: (Region, Region), n: nat)
      reads this
    {
      Tracks(storage.Length, readIndex, size, rs, 0, n)
    }

    constructor (initialCapacity: nat)
      ensures Valid() && fresh(storage) && Contents() == []
      ensures storage.Length == if initialCapacity == 0 then 1 else initialCapacity
    {
      storage := new Byte[if initialCapacity > 1 then initialCapacity else 1](_ => 0);
      readIndex, size := 0, 0;
    }

    function WritableBytes(): (n: nat)
      requires Valid()
      reads this
      ensures size + n == storage.Length
    {
      storage.Length - size
    }

    /** The two regions, read one after the other, are the contents. */
    function ReadableRegions(): (rs: (Region, Region))
      requires Valid()
      reads this, storage
      ensures Inside(rs.0, storage.Length) && Inside(rs.1, storage.Length)
      ensures Cells(storage[..], rs.0) + Cells(storage[..], rs.1) == Contents()
      ensures rs.0.length + rs.1.length == size && forall i :: 0 <= i < size ==> Cell(rs, i) == At(storage.Length, readIndex, i)
      ensures size > 0 ==> rs.0.length > 0
    {
      WindowIsTwoRuns(storage[..], readIndex, size);
      if size == 0 then (EMPTY, EMPTY)
      else
        var first := if size < storage.Length - readIndex then size else storage.Length - readIndex;
        (Region(readIndex, first), Region(0, size - first))
    }

    function WriteIndex(): (i: nat)
      requires Valid()
      reads this
      ensures i == At(storage.Length, readIndex, size)
    {
      AtIsModulo(storage.Length, readIndex, size);
      (readIndex + size) % storage.Length
    }

    /** The most cells that can be appended without going round. */
    function WritableContiguous(): (n: nat)
      requires Valid()
      reads this
      ensures n <= WritableBytes() && (WritableBytes() > 0 ==> n > 0)
      ensures WriteIndex() + n <= storage.Length
      ensures n < WritableBytes() ==> WriteIndex() + n == storage.Length
    {
      if size == storage.Length then 0
      else
        var tail := WriteIndex();
        if tail < readIndex then readIndex - tail else storage.Length - tail
    }

    /** The regions follow the contents, and hold max bytes, or all there is room for. */
    method WritableRegions(max: nat) returns (rs: (Region, Region))
      requires Valid()
      modifies this, storage
      ensures Valid() && (storage == old(storage) || fresh(storage))
      ensures Contents() == old(Contents())
      ensures Follows(rs, if max == SIZE_MAX then old(WritableBytes()) else max)
      ensures storage.Length == if max == SIZE_MAX then old(storage.Length) else Doubled(old(storage.Length), size + max)
      ensures max == SIZE_MAX || old(WritableBytes()) >= max ==> InPlace()
    {
      if max == 0 { return (EMPTY, EMPTY); }
      var n := max;
      if max == SIZE_MAX { n := WritableBytes(); } else { EnsureWritable(max); }
      var tail := WriteIndex();
      if tail < readIndex {
        var length := if n < readIndex - tail then n else readIndex - tail;
        rs := (Region(tail, length), EMPTY);
      } else {
        var first := if n < storage.Length - tail then n else storage.Length - tail;
        var second := if n - first < readIndex then n - first else readIndex;
        rs := (Region(tail, first), Region(0, second));
      }
      FreeCells(storage.Length, readIndex, size, n, rs);
    }

    /** There are always n cells in one run after the call. */
    method PrepareContiguous(n: nat) returns (r: Region)
      requires Valid()
      modifies this, storage
      ensures Valid() && (storage == old(storage) || fresh(storage))
      ensures Contents() == old(Contents())
      ensures Follows((r, EMPTY), n)
      ensures storage.Length == Doubled(old(storage.Length), size + n)
    {
      if n == 0 { return EMPTY; }
      EnsureWritable(n);
      if WritableContiguous() < n { Linearize(); }
      r := Region(WriteIndex(), n);
    }

    /** Nothing has moved: every byte is where it was. */
    twostate predicate InPlace()
      reads this, storage
    {
      storage == old(storage) && readIndex == old(readIndex) && size == old(size) && storage[..] == old(storage[..])
    }

    /** The first n cells after the contents join them. */
    method Commit(n: nat)
      requires Valid() && n <= WritableBytes()
      modifies this`size
      ensures Valid() && size == old(size) + n && Contents() == old(Contents()) + old(Next(n))
    {
      WindowSplit(storage[..], readIndex, size, n);
      size := size + n;
    }

    /** The first n bytes are dropped. */
    method Consume(n: nat)
      requires Valid() && n <= size
      modifies this`readIndex, this`size
      ensures Valid()
      ensures Contents() == old(Contents())[n..]
      ensures size == old(size) - n
      ensures readIndex == if n == old(size) then 0 else At(storage.Length, old(readIndex), n)
    {
      if n == 0 { return; }
      WindowSplit(storage[..], readIndex, n, size - n);
      AtIsModulo(storage.Length, readIndex, n);
      readIndex := (readIndex + n) % storage.Length;
      size := size - n;
      if size == 0 { Clear(); }
    }

    method Clear()
      requires storage.Length > 0
      modifies this`readIndex, this`size
      ensures Valid() && Contents() == [] && readIndex == 0
    {
      readIndex, size := 0, 0;
    }

    /** Grows only when there is no room, to the least doubling of the capacity that is enough. */
    method EnsureWritable(n: nat)
      requires Valid()
      modifies this, storage
      ensures Valid() && (storage == old(storage) || fresh(storage))
      ensures Contents() == old(Contents())
      ensures WritableBytes() >= n
      ensures storage.Length == Doubled(old(storage.Length), old(size) + n)
      ensures old(WritableBytes()) >= n ==> InPlace()
    {
      if WritableBytes() >= n { return; }
      var newCapacity := storage.Length;
      var required := size + n;
      while newCapacity < required
        invariant newCapacity > 0
        invariant Doubled(newCapacity, required) == Doubled(storage.Length, required)
        decreases required - newCapacity
      {
        newCapacity := newCapacity * 2;
      }
      GrowAndLinearize(newCapacity);
    }

    /** Moves the contents to the front. */
    method Linearize()
      requires Valid()
      modifies this`readIndex, storage
      ensures Valid() && readIndex == 0
      ensures Contents() == old(Contents())
    {
      WindowIsTwoRuns(storage[..], readIndex, size);
      if size == 0 {
        readIndex := 0;
      } else if readIndex + size <= storage.Length {
        if readIndex != 0 {
          forall i | 0 <= i < size { storage[i] := storage[readIndex + i]; }
          readIndex := 0;
        }
      } else {
        var tmp := new Byte[size](_ => 0);
        CopyOut(tmp);
        forall i | 0 <= i < size { storage[i] := tmp[i]; }
        readIndex := 0;
      }
      WindowIsTwoRuns(storage[..], readIndex, size);
    }

    /** memcpy of a region to position `at` of target. */
    method CopyRegion(target: array<Byte>, at: nat, r: Region)
      requires Inside(r, storage.Length) && at + r.length <= target.Length && target != storage
      modifies target
      ensures forall k :: at <= k < at + r.length ==> target[k] == storage[r.start + (k - at)]
      ensures forall k :: 0 <= k < at ==> target[k] == old(target[k])
    {
      forall i | 0 <= i < r.length { target[at + i] := storage[r.start + i]; }
    }

    /** Copies the two readable regions one after the other. */
    method CopyOut(target: array<Byte>)
      requires Valid() && target.Length >= size && target != storage
      modifies target
      ensures forall i :: 0 <= i < size ==> target[i] == storage[At(storage.Length, readIndex, i)]
    {
      var rs := ReadableRegions();
      CopyRegion(target, 0, rs.0);
      CopyRegion(target, rs.0.length, rs.1);
      assert forall i :: 0 <= i < size ==> target[i] == storage[Cell(rs, i)];
    }

    method GrowAndLinearize(newCapacity: nat)
      requires Valid() && size <= newCapacity && newCapacity > 0
      modifies this
      ensures Valid() && fresh(storage) && storage.Length == newCapacity && readIndex == 0
      ensures Contents() == old(Contents())
    {
      var next := new Byte[newCapacity](_ => 0);
      CopyOut(next);
      storage := next;
      readIndex := 0;
      WindowIsTwoRuns(storage[..], readIndex, size);
    }
  }
}
